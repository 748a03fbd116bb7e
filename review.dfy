/**
 * The results screen (components/ResultView.tsx): the score summary, the
 * per-question review list with its "all" / "wrong only" filter, and the
 * explain toggle that asks the explanation provider about one question.
 */
module Review {
  import opened Wrappers
  import opened Types

  // ---------------------------------------------------------------------
  // Score summary
  // ---------------------------------------------------------------------

  /**
   * `Math.round(score / total * 100)`: the percentage rounded half up,
   * computed exactly. `total` is the length of the active question list,
   * which is never empty.
   */
  function Percentage(score: int, total: int): (p: int)
    requires total > 0
    ensures 2 * total * p <= 200 * score + total < 2 * total * (p + 1)
  {
    (200 * score + total) / (2 * total)
  }

  /** The unique rounding: the integer closest to 100·score/total, halves rounded up. */
  lemma PercentageUnique(score: int, total: int, q: int)
    requires total > 0
    requires 2 * total * q <= 200 * score + total < 2 * total * (q + 1)
    ensures q == Percentage(score, total)
  {
    var p := Percentage(score, total);
    if q < p {
      assert 2 * total * (q + 1) <= 2 * total * p by {
        MulMonotone(2 * total, q + 1, p);
      }
    } else if q > p {
      assert 2 * total * (p + 1) <= 2 * total * q by {
        MulMonotone(2 * total, p + 1, q);
      }
    }
  }

  lemma MulMonotone(k: int, a: int, b: int)
    requires k >= 0 && a <= b
    ensures k * a <= k * b
  {
  }

  /** A full score is 100 percent, no correct answer is 0, and anything between stays between. */
  lemma PercentageRange(score: int, total: int)
    requires 0 <= score <= total && total > 0
    ensures 0 <= Percentage(score, total) <= 100
    ensures score == total ==> Percentage(score, total) == 100
    ensures score == 0 ==> Percentage(score, total) == 0
  {
    var p := Percentage(score, total);
    if p < 0 {
      MulMonotone(2 * total, p + 1, 0);
    }
    if p > 100 {
      MulMonotone(2 * total, 101, p);
    }
    if score == total {
      PercentageUnique(score, total, 100);
    }
    if score == 0 {
      PercentageUnique(score, total, 0);
    }
  }

  /** More correct answers never lower the percentage. */
  lemma PercentageMonotone(s1: int, s2: int, total: int)
    requires total > 0 && s1 <= s2
    ensures Percentage(s1, total) <= Percentage(s2, total)
  {
    var p1, p2 := Percentage(s1, total), Percentage(s2, total);
    if p2 < p1 {
      MulMonotone(2 * total, p2 + 1, p1);
    }
  }

  /** The number shown in the "wrong" tile and on the "wrong only" filter button. */
  function WrongCount(score: int, total: int): int
  {
    total - score
  }

  const LionIcon: string := "\U{1F981}"
  const MuscleIcon: string := "\U{1F4AA}"
  const BooksIcon: string := "\U{1F4DA}"

  /** The icon at the top of the score card: three disjoint bands covering every percentage. */
  function ResultIcon(percentage: int): (icon: string)
    ensures icon == LionIcon <==> percentage >= 80
    ensures icon == MuscleIcon <==> 50 <= percentage < 80
    ensures icon == BooksIcon <==> percentage < 50
  {
    if percentage >= 80 then LionIcon
    else if percentage >= 50 then MuscleIcon
    else BooksIcon
  }

  // ---------------------------------------------------------------------
  // Review list
  // ---------------------------------------------------------------------

  datatype Filter = All | Wrong

  /**
   * Whether question `i` was answered correctly. A question with no
   * recorded answer compares `undefined` with a number: never correct.
   */
  predicate IsCorrect(questions: seq<Question>, answers: seq<int>, i: nat)
    requires i < |questions|
  {
    i < |answers| && answers[i] == questions[i].correctAnswer
  }

  /** How many of the first `n` questions were answered correctly. */
  function CorrectCount(questions: seq<Question>, answers: seq<int>, n: nat): (c: nat)
    requires n <= |questions|
    ensures c <= n && c <= |answers|
  {
    if n == 0 then 0
    else CorrectCount(questions, answers, n - 1) + (if IsCorrect(questions, answers, n - 1) then 1 else 0)
  }

  /** Appending an answer does not change the verdict on earlier questions. */
  lemma {:induction false} CorrectCountAppend(questions: seq<Question>, answers: seq<int>, a: int, n: nat)
    requires n <= |questions| && n <= |answers|
    ensures CorrectCount(questions, answers + [a], n) == CorrectCount(questions, answers, n)
  {
    if n > 0 {
      CorrectCountAppend(questions, answers, a, n - 1);
      assert (answers + [a])[n - 1] == answers[n - 1];
    }
  }

  /** Whether row `i` is rendered under the given filter. */
  predicate Shown(questions: seq<Question>, answers: seq<int>, filter: Filter, i: nat)
    requires i < |questions|
  {
    filter == All || !IsCorrect(questions, answers, i)
  }

  /**
   * The indices of the rows rendered among the first `n` questions, in
   * list order: ascending, and exactly those the filter lets through.
   */
  function VisibleRows(questions: seq<Question>, answers: seq<int>, filter: Filter, n: nat): (rows: seq<nat>)
    requires n <= |questions|
    ensures forall k :: 0 <= k < |rows| ==> rows[k] < n
    ensures forall j, k :: 0 <= j < k < |rows| ==> rows[j] < rows[k]
    ensures forall i :: 0 <= i < n ==> (i in rows <==> Shown(questions, answers, filter, i))
  {
    if n == 0 then []
    else VisibleRows(questions, answers, filter, n - 1)
         + (if Shown(questions, answers, filter, n - 1) then [n - 1] else [])
  }

  /** Filter "all" lists every question, in order. */
  lemma {:induction false} AllRowsInOrder(questions: seq<Question>, answers: seq<int>, n: nat)
    requires n <= |questions|
    ensures |VisibleRows(questions, answers, All, n)| == n
    ensures forall k :: 0 <= k < n ==> VisibleRows(questions, answers, All, n)[k] == k
  {
    if n > 0 {
      AllRowsInOrder(questions, answers, n - 1);
    }
  }

  /** Filter "wrong" lists exactly as many rows as there are incorrect answers. */
  lemma {:induction false} WrongRowsCount(questions: seq<Question>, answers: seq<int>, n: nat)
    requires n <= |questions|
    ensures |VisibleRows(questions, answers, Wrong, n)| == n - CorrectCount(questions, answers, n)
  {
    if n > 0 {
      WrongRowsCount(questions, answers, n - 1);
    }
  }

  /**
   * When the score is the correct count over the whole list, the number on
   * the "wrong only" button equals the number of rows that filter shows.
   */
  lemma WrongButtonMatchesRows(questions: seq<Question>, answers: seq<int>, score: int)
    requires score == CorrectCount(questions, answers, |questions|)
    ensures |VisibleRows(questions, answers, Wrong, |questions|)| == WrongCount(score, |questions|)
    ensures 0 <= score <= |questions|
  {
    WrongRowsCount(questions, answers, |questions|);
  }

  /** `q.options[k]`, rendered as nothing when `k` is not an index of the options. */
  function OptionText(q: Question, k: int): string
  {
    if 0 <= k < |q.options| then q.options[k] else ""
  }

  const NoExplanation: string := "સમજૂતી ઉપલબ્ધ નથી."

  /**
   * `aiExplanation || q.explanation || fallback`: the first non-empty
   * text of the three.
   */
  function ExplanationText(aiExplanation: string, q: Question): (text: string)
    ensures text != ""
    ensures aiExplanation != "" ==> text == aiExplanation
    ensures aiExplanation == "" && q.explanation.Some? && q.explanation.value != "" ==> text == q.explanation.value
    ensures aiExplanation == "" && q.explanation in {None, Some("")} ==> text == NoExplanation
  {
    if aiExplanation != "" then aiExplanation
    else if q.explanation.Some? && q.explanation.value != "" then q.explanation.value
    else NoExplanation
  }

  /** The explanation panel under a row: a loading indicator or a text. */
  datatype ExplanationView = Thinking | Explained(text: string)

  /** One rendered review row. */
  datatype Row = Row(
    index: nat,
    correct: bool,
    yourAnswer: string,
    correctAnswerLine: Option<string>,
    explanation: Option<ExplanationView>)

  /**
   * Row `i` of the review list: the "correct answer" line appears only on
   * a wrong row, the explanation panel only under the selected row.
   */
  function RenderRow(questions: seq<Question>, answers: seq<int>, i: nat,
                     selected: Option<int>, isLoadingAi: bool, aiExplanation: string): (row: Row)
    requires i < |questions|
    ensures row.index == i
    ensures row.correct <==> IsCorrect(questions, answers, i)
    ensures row.correctAnswerLine.Some? <==> !row.correct
    ensures row.correctAnswerLine.Some? ==>
              row.correctAnswerLine.value == OptionText(questions[i], questions[i].correctAnswer)
    ensures row.explanation.Some? <==> selected == Some(i as int)
    ensures row.explanation.Some? ==>
              row.explanation.value == if isLoadingAi then Thinking
                                       else Explained(ExplanationText(aiExplanation, questions[i]))
  {
    var q := questions[i];
    var correct := IsCorrect(questions, answers, i);
    Row(i, correct,
        if i < |answers| then OptionText(q, answers[i]) else "",
        if correct then None else Some(OptionText(q, q.correctAnswer)),
        if selected == Some(i as int) then
          Some(if isLoadingAi then Thinking else Explained(ExplanationText(aiExplanation, q)))
        else None)
  }

  // ---------------------------------------------------------------------
  // Explanation provider (services/geminiService.ts), as seen by the view
  // ---------------------------------------------------------------------

  /** What the provider call produced: a response text (possibly empty) or an error. */
  datatype ExplanationReply = Replied(text: string) | ProviderError

  const NoExplanationNow: string := "માફ કરશો, અત્યારે સમજૂતી ઉપલબ્ધ નથી."
  const ExplanationFailed: string := "સમજૂતી મેળવવામાં ભૂલ આવી છે."

  /** The string the provider returns: it never fails and never returns an empty text. */
  function ReplyText(reply: ExplanationReply): (text: string)
    ensures text != ""
    ensures reply.Replied? && reply.text != "" ==> text == reply.text
    ensures reply.Replied? && reply.text == "" ==> text == NoExplanationNow
    ensures reply.ProviderError? ==> text == ExplanationFailed
  {
    match reply
    case Replied(t) => if t != "" then t else NoExplanationNow
    case ProviderError => ExplanationFailed
  }

  /** The arguments of one explanation request; `None` stands for an `undefined` option. */
  datatype ExplanationRequest = ExplanationRequest(question: string, correctAnswer: Option<string>)

  // ---------------------------------------------------------------------
  // The view's local state
  // ---------------------------------------------------------------------

  /** The score card and the two filter buttons' counts. */
  datatype ScoreCard = ScoreCard(correct: int, wrong: int, percentage: int, icon: string, allButton: int, wrongButton: int)

  class ResultPanel {
    const score: int
    const totalQuestions: int
    const questions: seq<Question>
    const userAnswers: seq<int>

    var selectedExplainingIndex: Option<int>
    var aiExplanation: string
    var isLoadingAi: bool
    var filter: Filter

    /**
     * The panel is loading only between opening a row and the reply, with
     * the previous text cleared; an open, settled panel holds a reply.
     */
    ghost predicate Valid()
      reads this
    {
      && totalQuestions == |questions| > 0
      && (isLoadingAi ==> aiExplanation == "")
      && (!isLoadingAi && selectedExplainingIndex.Some? ==> aiExplanation != "")
    }

    constructor (score: int, totalQuestions: int, questions: seq<Question>, userAnswers: seq<int>)
      requires totalQuestions == |questions| > 0
      ensures Valid()
      ensures this.score == score && this.totalQuestions == totalQuestions
      ensures this.questions == questions && this.userAnswers == userAnswers
      ensures selectedExplainingIndex == None && aiExplanation == "" && !isLoadingAi && filter == All
    {
      this.score := score;
      this.totalQuestions := totalQuestions;
      this.questions := questions;
      this.userAnswers := userAnswers;
      selectedExplainingIndex := None;
      aiExplanation := "";
      isLoadingAi := false;
      filter := All;
    }

    /**
     * The explain button of row `index`. On the open row it closes the
     * panel and asks nothing; on any other row it opens that row, starts
     * loading, clears the text and returns the request to send.
     */
    method Explain(index: int) returns (request: Option<ExplanationRequest>)
      requires Valid() && 0 <= index < |questions|
      modifies this`selectedExplainingIndex, this`aiExplanation, this`isLoadingAi
      ensures Valid()
      ensures old(selectedExplainingIndex) == Some(index) ==>
                && request == None
                && selectedExplainingIndex == None
                && aiExplanation == old(aiExplanation) && isLoadingAi == old(isLoadingAi)
      ensures old(selectedExplainingIndex) != Some(index) ==>
                && request == Some(ExplanationRequest(questions[index].question,
                                                      CorrectOption(questions[index])))
                && selectedExplainingIndex == Some(index)
                && aiExplanation == "" && isLoadingAi
    {
      if selectedExplainingIndex == Some(index) {
        selectedExplainingIndex := None;
        return None;
      }
      selectedExplainingIndex := Some(index);
      isLoadingAi := true;
      aiExplanation := "";
      var q := questions[index];
      request := Some(ExplanationRequest(q.question, CorrectOption(q)));
    }

    /** The awaited reply arrives: store its text and stop loading. */
    method ReceiveExplanation(reply: ExplanationReply)
      requires Valid()
      modifies this`aiExplanation, this`isLoadingAi
      ensures Valid()
      ensures aiExplanation == ReplyText(reply) && !isLoadingAi
    {
      aiExplanation := ReplyText(reply);
      isLoadingAi := false;
    }

    method SetFilter(f: Filter)
      modifies this`filter
      ensures filter == f
    {
      filter := f;
    }

    /**
     * The figures the view shows: the score, the wrong count, the rounded
     * percentage with its icon and the counts on the two filter buttons.
     * The "all" count is the number of rows that filter shows. When the
     * score passed in is the correct count, so is the "wrong only" count,
     * and the percentage lies in 0..100.
     */
    function Card(): (card: ScoreCard)
      reads this
      requires Valid()
      ensures card.correct == score && card.wrong == card.wrongButton == totalQuestions - score
      ensures card.allButton == totalQuestions == |VisibleRows(questions, userAnswers, All, |questions|)|
      ensures card.icon == ResultIcon(card.percentage)
      ensures 2 * totalQuestions * card.percentage <= 200 * score + totalQuestions < 2 * totalQuestions * (card.percentage + 1)
      ensures score == CorrectCount(questions, userAnswers, |questions|) ==>
                && 0 <= card.percentage <= 100
                && card.wrongButton == |VisibleRows(questions, userAnswers, Wrong, |questions|)|
    {
      AllRowsInOrder(questions, userAnswers, |questions|);
      var percentage := Percentage(score, totalQuestions);
      var card := ScoreCard(score, WrongCount(score, totalQuestions), percentage, ResultIcon(percentage),
                            totalQuestions, WrongCount(score, totalQuestions));
      if score == CorrectCount(questions, userAnswers, |questions|) then
        WrongButtonMatchesRows(questions, userAnswers, score);
        PercentageRange(score, totalQuestions);
        card
      else
        card
    }

    /** The rows on screen, in list order. */
    function Rows(): (rows: seq<Row>)
      reads this
      ensures |rows| == |VisibleRows(questions, userAnswers, filter, |questions|)|
      ensures forall k :: 0 <= k < |rows| ==>
                rows[k].index == VisibleRows(questions, userAnswers, filter, |questions|)[k]
                && (rows[k].correct <==> IsCorrect(questions, userAnswers, rows[k].index))
    {
      var idx := VisibleRows(questions, userAnswers, filter, |questions|);
      var selected, loading, text := selectedExplainingIndex, isLoadingAi, aiExplanation;
      seq(|idx|, k requires 0 <= k < |idx| =>
        RenderRow(questions, userAnswers, idx[k], selected, loading, text))
    }

    /**
     * In every state the view can reach, an open panel that is not loading
     * shows the provider's reply: the question's own explanation and the
     * fixed fallback are never reached.
     */
    lemma SettledPanelShowsReply(i: nat)
      requires Valid() && i < |questions|
      requires selectedExplainingIndex == Some(i as int) && !isLoadingAi
      ensures RenderRow(questions, userAnswers, i, selectedExplainingIndex, isLoadingAi, aiExplanation).explanation
              == Some(Explained(aiExplanation))
    {
    }
  }

  /** `q.options[q.correctAnswer]`, or `None` for `undefined`. */
  function CorrectOption(q: Question): (text: Option<string>)
    ensures text.Some? <==> 0 <= q.correctAnswer < |q.options|
    ensures text.Some? ==> text.value == q.options[q.correctAnswer]
  {
    if 0 <= q.correctAnswer < |q.options| then Some(q.options[q.correctAnswer]) else None
  }
}
