/**
 * The quiz session controller of App.tsx as values: the state record and
 * the completed-parts list, one transition per event handler, the panel
 * the home tab shows, the progress figures, and the invariant every
 * reachable state keeps.
 *
 * The static question bank is a parameter `bank`; the question generator
 * is an outcome (`Generation`) handed to the event that receives its
 * response.
 */
module Quiz {
  import opened Wrappers
  import opened Types
  import opened Decimal
  import opened Review

  datatype Tab = Home | Stats | Settings

  /** What the question generator produced: a list (possibly empty) or a failure. */
  datatype Generation = Generated(questions: seq<Question>) | GenerationFailed

  /** The whole application state: the quiz record, the completed parts and the open tab. */
  datatype AppState = AppState(quiz: QuizState, completedParts: seq<string>, tab: Tab)

  /** The record on load: only the display name comes from storage. */
  function InitialState(storedName: Option<string>): QuizState
  {
    QuizState(0, 0, [], false, None, None, None, false, [], storedName)
  }

  // ---------------------------------------------------------------------
  // Derived values
  // ---------------------------------------------------------------------

  /** The list being played: the generated one when it is non-empty, otherwise the bank. */
  function ActiveQuestions(s: QuizState, bank: seq<Question>): (questions: seq<Question>)
    ensures |bank| > 0 ==> |questions| > 0
    ensures questions == s.dynamicQuestions || questions == bank
    ensures questions == bank <== s.dynamicQuestions == []
    ensures questions == s.dynamicQuestions <== s.dynamicQuestions != []
  {
    if |s.dynamicQuestions| > 0 then s.dynamicQuestions else bank
  }

  // The truthiness tests the render conditions and the finish handler apply.
  predicate LoggedIn(s: QuizState) { s.userName.Some? && s.userName.value != "" }
  predicate CategoryChosen(s: QuizState) { s.selectedCategory.Some? && s.selectedCategory.value != "" }
  predicate LevelChosen(s: QuizState) { s.selectedLevel.Some? }
  predicate PartChosen(s: QuizState) { s.selectedPart.Some? && s.selectedPart.value != 0 }

  /** Selections are made in sequence: a part only under a level, a level only under a category. */
  predicate SelectionChain(s: QuizState)
  {
    (PartChosen(s) ==> LevelChosen(s)) && (LevelChosen(s) ==> CategoryChosen(s))
  }

  /** The identifier `category-level-part` under which a finished part is recorded. */
  function PartId(category: string, level: DifficultyLevel, part: int): string
  {
    category + "-" + LevelLabel(level) + "-" + IntToString(part)
  }

  /** The identifier the finish handler records, when all three selections are truthy. */
  function CompletionId(s: QuizState): (id: Option<string>)
    ensures id.Some? <==> CategoryChosen(s) && LevelChosen(s) && PartChosen(s)
    ensures id.Some? ==>
              id.value == PartId(s.selectedCategory.value, s.selectedLevel.value, s.selectedPart.value)
  {
    if CategoryChosen(s) && LevelChosen(s) && PartChosen(s) then
      Some(PartId(s.selectedCategory.value, s.selectedLevel.value, s.selectedPart.value))
    else None
  }

  // ---------------------------------------------------------------------
  // Transitions, one per handler
  // ---------------------------------------------------------------------

  function Login(s: QuizState, name: string): QuizState
  {
    s.(userName := Some(name))
  }

  function Logout(a: AppState): AppState
  {
    a.(quiz := a.quiz.(userName := None), tab := Home)
  }

  /** A category button: sets the category and nothing else. */
  function SelectCategory(s: QuizState, name: string): QuizState
  {
    s.(selectedCategory := Some(name))
  }

  function SelectLevel(s: QuizState, level: DifficultyLevel): QuizState
  {
    s.(selectedLevel := Some(level))
  }

  /** The back button of the part picker. */
  function BackToLevels(s: QuizState): QuizState
  {
    s.(selectedLevel := None)
  }

  /** A part button, before the generator answers. */
  function BeginPart(s: QuizState, part: int): QuizState
  {
    s.(isLoading := true, selectedPart := Some(part))
  }

  /**
   * The generator's response. A list replaces the dynamic questions and
   * restarts the quiz; a failure drops all three selections and keeps the
   * rest.
   */
  function ResolvePart(s: QuizState, outcome: Generation): (t: QuizState)
    ensures !t.isLoading && t.userName == s.userName
    ensures outcome.Generated? ==>
              && t.dynamicQuestions == outcome.questions
              && t.currentQuestionIndex == 0 && t.score == 0 && t.userAnswers == [] && !t.isFinished
              && t.selectedCategory == s.selectedCategory && t.selectedLevel == s.selectedLevel
              && t.selectedPart == s.selectedPart
    ensures outcome.GenerationFailed? ==>
              && t.selectedCategory == None && t.selectedLevel == None && t.selectedPart == None
              && t.dynamicQuestions == s.dynamicQuestions
              && t.currentQuestionIndex == s.currentQuestionIndex && t.score == s.score
              && t.userAnswers == s.userAnswers && t.isFinished == s.isFinished
  {
    match outcome
    case Generated(questions) =>
      s.(isLoading := false, dynamicQuestions := questions,
         currentQuestionIndex := 0, score := 0, userAnswers := [], isFinished := false)
    case GenerationFailed =>
      s.(isLoading := false, selectedCategory := None, selectedLevel := None, selectedPart := None)
  }

  /** An empty generated list leaves the static bank in play; a non-empty one replaces it. */
  lemma GeneratedListIsActive(s: QuizState, bank: seq<Question>, questions: seq<Question>)
    ensures questions == [] ==> ActiveQuestions(ResolvePart(s, Generated(questions)), bank) == bank
    ensures questions != [] ==> ActiveQuestions(ResolvePart(s, Generated(questions)), bank) == questions
    ensures ActiveQuestions(ResolvePart(s, GenerationFailed), bank) == ActiveQuestions(s, bank)
  {
  }

  /** `handleReset`: the level picker's back button and the results' restart button. */
  function Reset(s: QuizState): QuizState
  {
    s.(currentQuestionIndex := 0, score := 0, userAnswers := [], isFinished := false,
       selectedCategory := None, selectedLevel := None, selectedPart := None,
       isLoading := false, dynamicQuestions := [])
  }

  /** Reset brings back the record of a fresh load and keeps the display name. */
  lemma ResetRestoresInitial(s: QuizState)
    ensures Reset(s) == InitialState(s.userName)
  {
  }

  predicate NoDuplicates(ids: seq<string>)
  {
    forall i, j :: 0 <= i < j < |ids| ==> ids[i] != ids[j]
  }

  /** The finish handler's bookkeeping: append the part's identifier unless it is there already. */
  function RecordCompletion(s: QuizState, done: seq<string>): (done': seq<string>)
    ensures CompletionId(s).None? ==> done' == done
    ensures CompletionId(s).Some? ==> CompletionId(s).value in done'
  {
    match CompletionId(s)
    case None => done
    case Some(id) => if id in done then done else done + [id]
  }

  /**
   * Recording never drops or reorders an entry, adds at most the part's own
   * identifier, keeps the list free of duplicates, and is idempotent.
   */
  lemma RecordCompletionGrows(s: QuizState, done: seq<string>)
    ensures done <= RecordCompletion(s, done)
    ensures |RecordCompletion(s, done)| <= |done| + 1
    ensures forall id :: id in RecordCompletion(s, done) <==>
              id in done || (CompletionId(s).Some? && id == CompletionId(s).value)
    ensures NoDuplicates(done) ==> NoDuplicates(RecordCompletion(s, done))
    ensures RecordCompletion(s, RecordCompletion(s, done)) == RecordCompletion(s, done)
  {
  }

  /** `handleFinishQuiz`: record the part, then mark the quiz finished. */
  function Finish(s: QuizState, done: seq<string>): (QuizState, seq<string>)
  {
    (s.(isFinished := true), RecordCompletion(s, done))
  }

  /**
   * An answer button. It appends the answer, adds one to the score exactly
   * when the answer is the current question's correct index, and moves to
   * the next question, or on the last one finishes the quiz in place. An
   * index past the active list makes the handler throw before it changes
   * anything.
   */
  function Answer(s: QuizState, done: seq<string>, bank: seq<Question>, answer: int): (r: (QuizState, seq<string>))
    ensures var qs := ActiveQuestions(s, bank);
      s.currentQuestionIndex < |qs| ==>
        && r.0.userAnswers == s.userAnswers + [answer]
        && r.0.score == s.score + (if answer == qs[s.currentQuestionIndex].correctAnswer then 1 else 0)
        && ActiveQuestions(r.0, bank) == qs
        && (s.currentQuestionIndex != |qs| - 1 ==>
              && r.0.currentQuestionIndex == s.currentQuestionIndex + 1
              && r.0.isFinished == s.isFinished && r.1 == done)
        && (s.currentQuestionIndex == |qs| - 1 ==>
              && r.0.currentQuestionIndex == s.currentQuestionIndex
              && r.0.isFinished && r.1 == RecordCompletion(s, done))
    ensures s.currentQuestionIndex >= |ActiveQuestions(s, bank)| ==> r == (s, done)
    ensures r.0.selectedCategory == s.selectedCategory && r.0.selectedLevel == s.selectedLevel
    ensures r.0.selectedPart == s.selectedPart && r.0.isLoading == s.isLoading
    ensures r.0.dynamicQuestions == s.dynamicQuestions && r.0.userName == s.userName
  {
    var questions := ActiveQuestions(s, bank);
    if s.currentQuestionIndex >= |questions| then (s, done)
    else
      var correct := answer == questions[s.currentQuestionIndex].correctAnswer;
      var answers := s.userAnswers + [answer];
      var score := if correct then s.score + 1 else s.score;
      if s.currentQuestionIndex == |questions| - 1 then
        var (finished, done') := Finish(s, done);
        (finished.(userAnswers := answers, score := score, isFinished := true), done')
      else
        (s.(userAnswers := answers, score := score, currentQuestionIndex := s.currentQuestionIndex + 1), done)
  }

  // ---------------------------------------------------------------------
  // What the screen shows
  // ---------------------------------------------------------------------

  datatype Panel = Spinner | CategoryPicker | LevelPicker | PartPicker | QuestionCard | Results

  /** The home-tab panels whose render condition holds, in render order. */
  function HomePanels(s: QuizState): seq<Panel>
  {
    var ready := !s.isLoading && !s.isFinished;
    (if s.isLoading then [Spinner] else [])
    + (if ready && !CategoryChosen(s) then [CategoryPicker] else [])
    + (if ready && CategoryChosen(s) && !LevelChosen(s) then [LevelPicker] else [])
    + (if ready && LevelChosen(s) && !PartChosen(s) then [PartPicker] else [])
    + (if ready && PartChosen(s) then [QuestionCard] else [])
    + (if !s.isLoading && s.isFinished then [Results] else [])
  }

  /**
   * Exactly one panel is on the home tab precisely when the quiz is
   * loading, finished, or its selections form the chain; a broken chain
   * puts two panels on screen at once.
   */
  lemma ExactlyOnePanel(s: QuizState)
    ensures |HomePanels(s)| == 1 <==> s.isLoading || s.isFinished || SelectionChain(s)
  {
  }

  /** Which panel is on screen, read off the selections under the chain. */
  lemma PanelOfState(s: QuizState)
    requires SelectionChain(s)
    ensures s.isLoading ==> HomePanels(s) == [Spinner]
    ensures !s.isLoading && s.isFinished ==> HomePanels(s) == [Results]
    ensures !s.isLoading && !s.isFinished ==>
              HomePanels(s) == [if !CategoryChosen(s) then CategoryPicker
                                else if !LevelChosen(s) then LevelPicker
                                else if !PartChosen(s) then PartPicker
                                else QuestionCard]
  {
  }

  datatype Screen = LoginScreen | SettingsScreen | StatsScreen | HomeScreen(panels: seq<Panel>)

  /** A missing or empty display name shows only the login view; otherwise the open tab. */
  function ScreenOf(a: AppState): (screen: Screen)
    ensures screen == LoginScreen <==> !LoggedIn(a.quiz)
    ensures screen.HomeScreen? ==> a.tab == Home && screen.panels == HomePanels(a.quiz)
    ensures LoggedIn(a.quiz) && a.tab == Home ==> screen == HomeScreen(HomePanels(a.quiz))
    ensures LoggedIn(a.quiz) && a.tab == Stats ==> screen == StatsScreen
    ensures LoggedIn(a.quiz) && a.tab == Settings ==> screen == SettingsScreen
  {
    if !LoggedIn(a.quiz) then LoginScreen
    else match a.tab
      case Settings => SettingsScreen
      case Stats => StatsScreen
      case Home => HomeScreen(HomePanels(a.quiz))
  }

  // ---------------------------------------------------------------------
  // Progress figures of the stats tab
  // ---------------------------------------------------------------------

  /** The presentation constant the stats tab divides by. */
  const AssumedTotalParts: nat := 900
  /** The number of questions counted per completed part. */
  const QuestionsPerPart: nat := 47

  /**
   * `Math.min(100, Math.round(count / 900 * 100))`, computed exactly: the
   * nearest whole percentage, capped at 100.
   */
  function ProgressPercent(count: nat): (p: nat)
    ensures p <= 100
    ensures p < 100 ==> 2 * AssumedTotalParts * p <= 200 * count + AssumedTotalParts < 2 * AssumedTotalParts * (p + 1)
    ensures p == 100 <==> 200 * count + AssumedTotalParts >= 2 * AssumedTotalParts * 100
  {
    var rounded := (200 * count + AssumedTotalParts) / (2 * AssumedTotalParts);
    if rounded < 100 then rounded else 100
  }

  function SolvedQuestions(count: nat): nat
  {
    count * QuestionsPerPart
  }

  /** Both figures only grow with the number of completed parts; the percentage starts at 0. */
  lemma ProgressMonotone(c1: nat, c2: nat)
    requires c1 <= c2
    ensures ProgressPercent(c1) <= ProgressPercent(c2)
    ensures SolvedQuestions(c1) <= SolvedQuestions(c2)
    ensures ProgressPercent(0) == 0
  {
  }

  // ---------------------------------------------------------------------
  // Events and the invariant of reachable states
  // ---------------------------------------------------------------------

  datatype Event =
    | LoginAs(name: string)
    | LogOut
    | ChooseTab(tab: Tab)
    | ChooseCategory(category: string)
    | ChooseLevel(level: DifficultyLevel)
    | BackFromParts
    | StartPart(part: int)
    | PartReady(outcome: Generation)
    | AnswerWith(answer: int)
    | Restart

  /**
   * An event can happen when the control that raises it is on screen.
   * `Restart` is raised by the level picker's back button and by the
   * results' restart button. The generator's response can arrive at any
   * time, for example after the user has switched tabs or logged out.
   */
  predicate Enabled(a: AppState, e: Event)
  {
    match e
    case LoginAs(_) => ScreenOf(a) == LoginScreen
    case LogOut => ScreenOf(a) == SettingsScreen
    case ChooseTab(_) => LoggedIn(a.quiz)
    case ChooseCategory(_) => ScreenOf(a) == HomeScreen([CategoryPicker])
    case ChooseLevel(_) => ScreenOf(a) == HomeScreen([LevelPicker])
    case BackFromParts => ScreenOf(a) == HomeScreen([PartPicker])
    case StartPart(part) => ScreenOf(a) == HomeScreen([PartPicker]) && 1 <= part <= 100
    case PartReady(_) => true
    case AnswerWith(_) => ScreenOf(a) == HomeScreen([QuestionCard])
    case Restart => ScreenOf(a) == HomeScreen([LevelPicker]) || ScreenOf(a) == HomeScreen([Results])
  }

  function Step(a: AppState, bank: seq<Question>, e: Event): AppState
  {
    match e
    case LoginAs(name) => a.(quiz := Login(a.quiz, name))
    case LogOut => Logout(a)
    case ChooseTab(t) => a.(tab := t)
    case ChooseCategory(c) => a.(quiz := SelectCategory(a.quiz, c))
    case ChooseLevel(l) => a.(quiz := SelectLevel(a.quiz, l))
    case BackFromParts => a.(quiz := BackToLevels(a.quiz))
    case StartPart(p) => a.(quiz := BeginPart(a.quiz, p))
    case PartReady(g) => a.(quiz := ResolvePart(a.quiz, g))
    case AnswerWith(x) =>
      var (s, done) := Answer(a.quiz, a.completedParts, bank, x);
      a.(quiz := s, completedParts := done)
    case Restart => a.(quiz := Reset(a.quiz), tab := Home)
  }

  /**
   * The invariant of reachable states: the selection chain, parts drawn
   * from 1..100, an index inside the active list, one answer per visited
   * question, and a score equal to the number of correct answers.
   */
  ghost predicate Consistent(s: QuizState, bank: seq<Question>)
  {
    var questions := ActiveQuestions(s, bank);
    && SelectionChain(s)
    && (s.selectedPart.Some? ==> 1 <= s.selectedPart.value <= 100)
    && s.currentQuestionIndex < |questions|
    && |s.userAnswers| == s.currentQuestionIndex + (if s.isFinished then 1 else 0)
    && (s.isFinished ==> s.currentQuestionIndex == |questions| - 1)
    && s.score == CorrectCount(questions, s.userAnswers, |s.userAnswers|)
  }

  lemma InitialConsistent(storedName: Option<string>, bank: seq<Question>)
    requires |bank| > 0
    ensures Consistent(InitialState(storedName), bank)
  {
  }

  /** The score never exceeds the number of answers, nor the answers the list. */
  lemma ScoreBounded(s: QuizState, bank: seq<Question>)
    requires Consistent(s, bank)
    ensures s.score <= |s.userAnswers| <= |ActiveQuestions(s, bank)|
  {
  }

  /** Answering keeps the invariant: the new answer lands at the current index. */
  lemma AnswerConsistent(s: QuizState, done: seq<string>, bank: seq<Question>, answer: int)
    requires Consistent(s, bank) && !s.isFinished
    ensures Consistent(Answer(s, done, bank, answer).0, bank)
  {
    var questions := ActiveQuestions(s, bank);
    var t := Answer(s, done, bank, answer).0;
    var i := s.currentQuestionIndex;
    CorrectCountAppend(questions, s.userAnswers, answer, i);
    assert t.userAnswers == s.userAnswers + [answer];
    assert IsCorrect(questions, t.userAnswers, i) <==> answer == questions[i].correctAnswer;
  }

  /** Every enabled event keeps the invariant. */
  lemma StepConsistent(a: AppState, bank: seq<Question>, e: Event)
    requires |bank| > 0 && Consistent(a.quiz, bank) && Enabled(a, e)
    ensures Consistent(Step(a, bank, e).quiz, bank)
  {
    PanelOfState(a.quiz);
    match e
    case AnswerWith(x) =>
      AnswerConsistent(a.quiz, a.completedParts, bank, x);
    case ChooseCategory(c) =>
      assert !LevelChosen(a.quiz) && !PartChosen(a.quiz);
    case ChooseLevel(l) =>
      assert CategoryChosen(a.quiz) && !PartChosen(a.quiz);
    case BackFromParts =>
      assert !PartChosen(a.quiz);
    case StartPart(p) =>
      assert LevelChosen(a.quiz) && CategoryChosen(a.quiz);
    case _ =>
  }

  /** The state after a sequence of events. */
  function Run(a: AppState, bank: seq<Question>, events: seq<Event>): AppState
    decreases |events|
  {
    if events == [] then a else Run(Step(a, bank, events[0]), bank, events[1..])
  }

  /** Each event of the sequence is enabled when it happens. */
  predicate Admissible(a: AppState, bank: seq<Question>, events: seq<Event>)
    decreases |events|
  {
    events == [] || (Enabled(a, events[0]) && Admissible(Step(a, bank, events[0]), bank, events[1..]))
  }

  lemma {:induction false} RunConsistent(a: AppState, bank: seq<Question>, events: seq<Event>)
    requires |bank| > 0 && Consistent(a.quiz, bank) && Admissible(a, bank, events)
    ensures Consistent(Run(a, bank, events).quiz, bank)
    decreases |events|
  {
    if events != [] {
      StepConsistent(a, bank, events[0]);
      RunConsistent(Step(a, bank, events[0]), bank, events[1..]);
    }
  }

  function Launch(storedName: Option<string>, storedParts: seq<string>): AppState
  {
    AppState(InitialState(storedName), storedParts, Home)
  }

  /**
   * Every state reachable from a fresh load keeps the invariant, shows
   * exactly one home panel, and has a current question to show.
   */
  lemma ReachableStates(storedName: Option<string>, storedParts: seq<string>,
                        bank: seq<Question>, events: seq<Event>)
    requires |bank| > 0 && Admissible(Launch(storedName, storedParts), bank, events)
    ensures var s := Run(Launch(storedName, storedParts), bank, events).quiz;
      && Consistent(s, bank)
      && SelectionChain(s)
      && |HomePanels(s)| == 1
      && s.score <= |s.userAnswers|
      && s.currentQuestionIndex < |ActiveQuestions(s, bank)|
  {
    InitialConsistent(storedName, bank);
    RunConsistent(Launch(storedName, storedParts), bank, events);
    ExactlyOnePanel(Run(Launch(storedName, storedParts), bank, events).quiz);
  }

  /**
   * The completed list only grows, by appending, over any sequence of
   * events, and stays free of duplicates if it started so.
   */
  lemma {:induction false} CompletedPartsGrow(a: AppState, bank: seq<Question>, events: seq<Event>)
    ensures a.completedParts <= Run(a, bank, events).completedParts
    ensures NoDuplicates(a.completedParts) ==> NoDuplicates(Run(a, bank, events).completedParts)
    decreases |events|
  {
    if events != [] {
      var b := Step(a, bank, events[0]);
      if events[0].AnswerWith? {
        RecordCompletionGrows(a.quiz, a.completedParts);
      }
      assert a.completedParts <= b.completedParts;
      CompletedPartsGrow(b, bank, events[1..]);
    }
  }

  // ---------------------------------------------------------------------
  // A full run through one question list
  // ---------------------------------------------------------------------

  /** Answering the given answers one after another. */
  function AnswerAll(s: QuizState, done: seq<string>, bank: seq<Question>, answers: seq<int>): (QuizState, seq<string>)
    decreases |answers|
  {
    if answers == [] then (s, done)
    else
      var (t, d) := AnswerAll(s, done, bank, answers[..|answers| - 1]);
      Answer(t, d, bank, answers[|answers| - 1])
  }

  /** What `k` answers on a fresh quiz `s` lead to: the state `t` and the completed parts `d`. */
  ghost predicate AfterAnswers(s: QuizState, done: seq<string>, bank: seq<Question>, answers: seq<int>, t: QuizState, d: seq<string>)
  {
    var n := |ActiveQuestions(s, bank)|;
    && |answers| <= n
    && t.userAnswers == answers
    && t.score == CorrectCount(ActiveQuestions(s, bank), answers, |answers|)
    && (t.isFinished <==> |answers| == n)
    && t.currentQuestionIndex == (if |answers| == n then n - 1 else |answers|)
    && ActiveQuestions(t, bank) == ActiveQuestions(s, bank)
    && t.selectedCategory == s.selectedCategory && t.selectedLevel == s.selectedLevel
    && t.selectedPart == s.selectedPart
    && d == (if |answers| == n then RecordCompletion(s, done) else done)
  }

  /** One more answer on a quiz that is not yet finished. */
  lemma AnswerOneMore(s: QuizState, done: seq<string>, bank: seq<Question>, prefix: seq<int>, x: int, t: QuizState, d: seq<string>)
    requires AfterAnswers(s, done, bank, prefix, t, d) && |prefix| < |ActiveQuestions(s, bank)|
    ensures AfterAnswers(s, done, bank, prefix + [x], Answer(t, d, bank, x).0, Answer(t, d, bank, x).1)
  {
    var questions := ActiveQuestions(s, bank);
    var answers := prefix + [x];
    var (u, e) := Answer(t, d, bank, x);
    CorrectCountAppend(questions, prefix, x, |prefix|);
    assert answers[..|prefix|] == prefix;
    assert IsCorrect(questions, answers, |prefix|) <==> x == questions[|prefix|].correctAnswer;
    assert u.score == CorrectCount(questions, answers, |answers|);
    assert CompletionId(t) == CompletionId(s);
  }

  /**
   * From a fresh quiz over N ≥ 1 questions, k ≤ N answers leave the
   * answers recorded, the score equal to the correct ones, and the quiz
   * finished exactly when k = N, with the part recorded at that moment.
   */
  lemma {:induction false} FullRun(s: QuizState, done: seq<string>, bank: seq<Question>, answers: seq<int>)
    requires s.currentQuestionIndex == 0 && s.score == 0 && s.userAnswers == [] && !s.isFinished
    requires 0 < |ActiveQuestions(s, bank)| && |answers| <= |ActiveQuestions(s, bank)|
    ensures AfterAnswers(s, done, bank, answers, AnswerAll(s, done, bank, answers).0, AnswerAll(s, done, bank, answers).1)
    decreases |answers|
  {
    if answers != [] {
      var prefix := answers[..|answers| - 1];
      var x := answers[|answers| - 1];
      FullRun(s, done, bank, prefix);
      var (t, d) := AnswerAll(s, done, bank, prefix);
      AnswerOneMore(s, done, bank, prefix, x, t, d);
      assert prefix + [x] == answers;
    }
  }

  function LastDash(s: string): int
  {
    if s == [] then -1
    else if s[|s| - 1] == '-' then |s| - 1
    else LastDash(s[..|s| - 1])
  }

  lemma {:induction false} LastDashBeforeTail(a: string, t: string)
    requires '-' !in t
    ensures LastDash(a + "-" + t) == |a|
  {
    if t != [] {
      var s := a + "-" + t;
      assert s[|s| - 1] == t[|t| - 1];
      assert s[..|s| - 1] == a + "-" + t[..|t| - 1];
      LastDashBeforeTail(a, t[..|t| - 1]);
    }
  }

  /** Splitting at the last dash is unambiguous when the tail holds no dash. */
  lemma SplitAtLastDash(a1: string, t1: string, a2: string, t2: string)
    requires '-' !in t1 && '-' !in t2
    requires a1 + "-" + t1 == a2 + "-" + t2
    ensures a1 == a2 && t1 == t2
  {
    var s := a1 + "-" + t1;
    LastDashBeforeTail(a1, t1);
    LastDashBeforeTail(a2, t2);
    assert a1 == s[..|a1|] && a2 == s[..|a2|];
    assert t1 == s[|a1| + 1..] && t2 == s[|a2| + 1..];
  }

  /** Different parts never share an identifier, so recording one cannot mark another. */
  lemma PartIdInjective(c1: string, l1: DifficultyLevel, p1: nat, c2: string, l2: DifficultyLevel, p2: nat)
    requires PartId(c1, l1, p1) == PartId(c2, l2, p2)
    ensures c1 == c2 && l1 == l2 && p1 == p2
  {
    var n1, n2 := IntToString(p1), IntToString(p2);
    SplitAtLastDash(c1 + "-" + LevelLabel(l1), n1, c2 + "-" + LevelLabel(l2), n2);
    SplitAtLastDash(c1, LevelLabel(l1), c2, LevelLabel(l2));
    LevelsDistinct();
  }

  /** The green badge on part button `part` of the part picker. */
  function CompletedBadge(s: QuizState, done: seq<string>, part: int): bool
    requires s.selectedCategory.Some? && s.selectedLevel.Some?
  {
    PartId(s.selectedCategory.value, s.selectedLevel.value, part) in done
  }

  /** Finishing a part turns on its own badge and leaves every other badge as it was. */
  lemma RecordingMarksOnlyThatPart(s: QuizState, done: seq<string>, part: nat)
    requires CompletionId(s).Some? && s.selectedPart.value > 0
    ensures CompletedBadge(s, RecordCompletion(s, done), part) <==>
              CompletedBadge(s, done, part) || part == s.selectedPart.value
  {
    RecordCompletionGrows(s, done);
    var c, l := s.selectedCategory.value, s.selectedLevel.value;
    if PartId(c, l, part) == CompletionId(s).value {
      PartIdInjective(c, l, part, c, l, s.selectedPart.value);
    }
  }

  /**
   * A finished quiz hands the results view one answer per question, a
   * score equal to the correct ones, a percentage within 0..100, and a
   * "wrong only" count equal to the rows that filter shows.
   */
  lemma ResultsFigures(s: QuizState, bank: seq<Question>)
    requires Consistent(s, bank) && s.isFinished
    ensures var questions := ActiveQuestions(s, bank);
      && |s.userAnswers| == |questions|
      && s.score == CorrectCount(questions, s.userAnswers, |questions|)
      && 0 <= Percentage(s.score, |questions|) <= 100
      && |VisibleRows(questions, s.userAnswers, Wrong, |questions|)| == WrongCount(s.score, |questions|)
  {
    var questions := ActiveQuestions(s, bank);
    WrongButtonMatchesRows(questions, s.userAnswers, s.score);
    PercentageRange(s.score, |questions|);
  }

  // ---------------------------------------------------------------------
  // A session from login to results
  // ---------------------------------------------------------------------

  /** Running two sequences of events one after the other. */
  lemma {:induction false} RunAppend(a: AppState, bank: seq<Question>, xs: seq<Event>, ys: seq<Event>)
    ensures Run(a, bank, xs + ys) == Run(Run(a, bank, xs), bank, ys)
    ensures Admissible(a, bank, xs + ys) <==> Admissible(a, bank, xs) && Admissible(Run(a, bank, xs), bank, ys)
    decreases |xs|
  {
    if xs != [] {
      assert (xs + ys)[0] == xs[0] && (xs + ys)[1..] == xs[1..] + ys;
      RunAppend(Step(a, bank, xs[0]), bank, xs[1..], ys);
    } else {
      assert xs + ys == ys;
    }
  }

  const SessionCategory := "Constitution"
  const SessionUser := "Raj"

  /** The state after choosing part 1 and receiving the questions `qs`. */
  function QuizStarted(qs: seq<Question>): AppState
  {
    AppState(QuizState(0, 0, [], false, Some(SessionCategory), Some(Basic), Some(1), false, qs, Some(SessionUser)),
             [], Home)
  }

  /** The state after logging in and choosing the category and the basic level. */
  function LevelChosenState(): AppState
  {
    AppState(InitialState(Some(SessionUser)).(selectedCategory := Some(SessionCategory), selectedLevel := Some(Basic)),
             [], Home)
  }

  /** Log in, choose the category, choose the basic level. */
  function PickingEvents(): seq<Event>
  {
    [LoginAs(SessionUser), ChooseCategory(SessionCategory), ChooseLevel(Basic)]
  }

  /** Choose part 1, then receive the questions `qs`. */
  function LoadingEvents(qs: seq<Question>): seq<Event>
  {
    [StartPart(1), PartReady(Generated(qs))]
  }

  /** Answer the three questions right, wrong, right. */
  function AnswerEvents(qs: seq<Question>): seq<Event>
    requires |qs| == 3
  {
    [AnswerWith(qs[0].correctAnswer), AnswerWith(qs[1].correctAnswer + 1), AnswerWith(qs[2].correctAnswer)]
  }

  lemma {:induction false} PickingPhase(bank: seq<Question>)
    ensures Admissible(Launch(None, []), bank, PickingEvents())
    ensures Run(Launch(None, []), bank, PickingEvents()) == LevelChosenState()
  {
    var e0, e1, e2 := LoginAs(SessionUser), ChooseCategory(SessionCategory), ChooseLevel(Basic);
    var a0 := Launch(None, []);
    var a1 := AppState(InitialState(Some(SessionUser)), [], Home);
    assert Step(a0, bank, e0) == a1 && Enabled(a0, e0);
    var a2 := a1.(quiz := a1.quiz.(selectedCategory := Some(SessionCategory)));
    assert Step(a1, bank, e1) == a2 && Enabled(a1, e1);
    assert Step(a2, bank, e2) == LevelChosenState() && Enabled(a2, e2);
    RunAppend(a0, bank, [e0], [e1, e2]);
    RunAppend(a1, bank, [e1], [e2]);
  }

  lemma {:induction false} LoadingPhase(bank: seq<Question>, qs: seq<Question>)
    ensures Admissible(LevelChosenState(), bank, LoadingEvents(qs))
    ensures Run(LevelChosenState(), bank, LoadingEvents(qs)) == QuizStarted(qs)
  {
    var e0, e1 := StartPart(1), PartReady(Generated(qs));
    var a0 := LevelChosenState();
    var a1 := a0.(quiz := a0.quiz.(selectedPart := Some(1), isLoading := true));
    assert Step(a0, bank, e0) == a1 && Enabled(a0, e0);
    assert Step(a1, bank, e1) == QuizStarted(qs);
    RunAppend(a0, bank, [e0], [e1]);
  }

  /** The answers recorded after the first `k` of right, wrong, right on `qs`. */
  function SessionAnswers(qs: seq<Question>, k: nat): seq<int>
    requires |qs| == 3 && k <= 3
  {
    [qs[0].correctAnswer, qs[1].correctAnswer + 1, qs[2].correctAnswer][..k]
  }

  /** The session after `k < 3` of those answers. */
  function Answering(qs: seq<Question>, k: nat): AppState
    requires |qs| == 3 && k < 3
  {
    var s0 := QuizStarted(qs).quiz;
    QuizStarted(qs).(quiz := s0.(currentQuestionIndex := k, score := if k == 0 then 0 else 1,
                                 userAnswers := SessionAnswers(qs, k)))
  }

  /** The session after all three answers. */
  function Answered(qs: seq<Question>): AppState
    requires |qs| == 3
  {
    var s0 := QuizStarted(qs).quiz;
    AppState(s0.(currentQuestionIndex := 2, score := 2, isFinished := true, userAnswers := SessionAnswers(qs, 3)),
             [PartId(SessionCategory, Basic, 1)], Home)
  }

  lemma FirstAnswer(bank: seq<Question>, qs: seq<Question>)
    requires |qs| == 3
    ensures var events := [AnswerWith(qs[0].correctAnswer)];
      Admissible(Answering(qs, 0), bank, events) && Run(Answering(qs, 0), bank, events) == Answering(qs, 1)
  {
    RunOne(Answering(qs, 0), bank, AnswerWith(qs[0].correctAnswer));
    assert SessionAnswers(qs, 0) + [qs[0].correctAnswer] == SessionAnswers(qs, 1);
  }

  lemma SecondAnswer(bank: seq<Question>, qs: seq<Question>)
    requires |qs| == 3
    ensures var events := [AnswerWith(qs[1].correctAnswer + 1)];
      Admissible(Answering(qs, 1), bank, events) && Run(Answering(qs, 1), bank, events) == Answering(qs, 2)
  {
    RunOne(Answering(qs, 1), bank, AnswerWith(qs[1].correctAnswer + 1));
    assert SessionAnswers(qs, 1) + [qs[1].correctAnswer + 1] == SessionAnswers(qs, 2);
  }

  lemma LastAnswer(bank: seq<Question>, qs: seq<Question>)
    requires |qs| == 3
    ensures var events := [AnswerWith(qs[2].correctAnswer)];
      Admissible(Answering(qs, 2), bank, events) && Run(Answering(qs, 2), bank, events) == Answered(qs)
  {
    RunOne(Answering(qs, 2), bank, AnswerWith(qs[2].correctAnswer));
    assert SessionAnswers(qs, 2) + [qs[2].correctAnswer] == SessionAnswers(qs, 3);
    assert CompletionId(Answering(qs, 2).quiz) == Some(PartId(SessionCategory, Basic, 1));
  }

  lemma SessionEndsOnResults(qs: seq<Question>)
    requires |qs| == 3
    ensures ScreenOf(Answered(qs)) == HomeScreen([Results])
    ensures Answered(qs).quiz.userAnswers == [qs[0].correctAnswer, qs[1].correctAnswer + 1, qs[2].correctAnswer]
  {
  }

  /** A run of one event is one step. */
  lemma RunOne(a: AppState, bank: seq<Question>, e: Event)
    ensures Run(a, bank, [e]) == Step(a, bank, e)
    ensures Admissible(a, bank, [e]) <==> Enabled(a, e)
  {
    assert [e][1..] == [];
  }

  /** The wrong and the last right answer finish the quiz. */
  lemma {:induction false} ClosingAnswers(bank: seq<Question>, qs: seq<Question>)
    requires |qs| == 3
    ensures Admissible(Answering(qs, 1), bank, AnswerEvents(qs)[1..])
    ensures Run(Answering(qs, 1), bank, AnswerEvents(qs)[1..]) == Answered(qs)
  {
    var e1, e2 := AnswerWith(qs[1].correctAnswer + 1), AnswerWith(qs[2].correctAnswer);
    SecondAnswer(bank, qs);
    LastAnswer(bank, qs);
    assert AnswerEvents(qs)[1..] == [e1] + [e2];
    RunAppend(Answering(qs, 1), bank, [e1], [e2]);
  }

  /** The three answers, right, wrong, right, take the started quiz to its finished state. */
  lemma {:induction false} AnswerPhase(bank: seq<Question>, qs: seq<Question>)
    requires |qs| == 3
    ensures Admissible(Answering(qs, 0), bank, AnswerEvents(qs))
    ensures Run(Answering(qs, 0), bank, AnswerEvents(qs)) == Answered(qs)
  {
    var e0 := AnswerWith(qs[0].correctAnswer);
    FirstAnswer(bank, qs);
    ClosingAnswers(bank, qs);
    assert AnswerEvents(qs) == [e0] + AnswerEvents(qs)[1..];
    RunAppend(Answering(qs, 0), bank, [e0], AnswerEvents(qs)[1..]);
  }

  /**
   * Log in, choose a category, the basic level and part 1, receive three
   * questions, answer right, wrong, right: the quiz ends with score 2, the
   * results on screen and the part recorded as completed.
   */
  lemma ThreeQuestionSession(bank: seq<Question>, q1: Question, q2: Question, q3: Question)
    ensures var events := PickingEvents() + LoadingEvents([q1, q2, q3]) + AnswerEvents([q1, q2, q3]);
      var a := Run(Launch(None, []), bank, events);
      && Admissible(Launch(None, []), bank, events)
      && a.quiz.score == 2 && a.quiz.isFinished
      && a.completedParts == [PartId(SessionCategory, Basic, 1)]
      && ScreenOf(a) == HomeScreen([Results])
  {
    var qs := [q1, q2, q3];
    var start := Launch(None, []);
    PickingPhase(bank);
    LoadingPhase(bank, qs);
    AnswerPhase(bank, qs);
    assert Answering(qs, 0) == QuizStarted(qs);
    SessionEndsOnResults(qs);
    RunAppend(start, bank, PickingEvents(), LoadingEvents(qs));
    RunAppend(start, bank, PickingEvents() + LoadingEvents(qs), AnswerEvents(qs));
  }

}
