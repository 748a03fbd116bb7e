/**
 * The App component's state holders (App.tsx): the quiz record, the
 * completed-parts list and the open tab, updated in place by the event
 * handlers. Each handler applies the same patch as the source and is
 * specified by the matching transition of module Quiz.
 */
module Controller {
  import opened Wrappers
  import opened Types
  import opened Review
  import opened Quiz

  class App {
    /** The static question bank, used whenever no generated list is installed. */
    const bank: seq<Question>

    var state: QuizState
    var completedParts: seq<string>
    var activeTab: Tab

    ghost function Snapshot(): AppState
      reads this
    {
      AppState(state, completedParts, activeTab)
    }

    ghost predicate Valid()
      reads this
    {
      |bank| > 0 && Consistent(state, bank)
    }

    /**
     * A fresh load: the display name and the completed parts come from
     * storage, when present there.
     */
    constructor (bank: seq<Question>, storedName: Option<string>, storedParts: Option<seq<string>>)
      requires |bank| > 0
      ensures Valid() && this.bank == bank
      ensures state == InitialState(storedName) && activeTab == Home
      ensures completedParts == if storedParts.Some? then storedParts.value else []
    {
      this.bank := bank;
      state := QuizState(0, 0, [], false, None, None, None, false, [], storedName);
      activeTab := Home;
      completedParts := [];
      if storedParts.Some? {
        completedParts := storedParts.value;
      }
      InitialConsistent(storedName, bank);
    }

    method HandleLogin(name: string)
      requires Valid()
      modifies this`state
      ensures Valid() && state == Login(old(state), name)
    {
      state := state.(userName := Some(name));
    }

    method HandleLogout()
      requires Valid()
      modifies this`state, this`activeTab
      ensures Valid() && Snapshot() == Logout(old(Snapshot()))
    {
      state := state.(userName := None);
      activeTab := Home;
    }

    method SetActiveTab(tab: Tab)
      modifies this`activeTab
      ensures activeTab == tab
    {
      activeTab := tab;
    }

    /** A button of the category picker. */
    method ChooseCategory(name: string)
      requires Valid() && Enabled(Snapshot(), Quiz.ChooseCategory(name))
      modifies this`state
      ensures Valid() && state == SelectCategory(old(state), name)
    {
      StepConsistent(Snapshot(), bank, Quiz.ChooseCategory(name));
      state := state.(selectedCategory := Some(name));
    }

    /** A button of the level picker. */
    method ChooseLevel(level: DifficultyLevel)
      requires Valid() && Enabled(Snapshot(), Quiz.ChooseLevel(level))
      modifies this`state
      ensures Valid() && state == SelectLevel(old(state), level)
    {
      StepConsistent(Snapshot(), bank, Quiz.ChooseLevel(level));
      state := state.(selectedLevel := Some(level));
    }

    /** The back button of the part picker. */
    method BackFromParts()
      requires Valid() && Enabled(Snapshot(), Quiz.BackFromParts)
      modifies this`state
      ensures Valid() && state == BackToLevels(old(state))
    {
      StepConsistent(Snapshot(), bank, Quiz.BackFromParts);
      state := state.(selectedLevel := None);
    }

    /**
     * A part button: start loading and remember the part. The request
     * returned is what the generator is asked for.
     */
    method StartFinalQuiz(part: int) returns (category: string, level: DifficultyLevel)
      requires Valid() && Enabled(Snapshot(), StartPart(part))
      modifies this`state
      ensures Valid() && state == BeginPart(old(state), part)
      ensures old(state).selectedCategory == Some(category) && old(state).selectedLevel == Some(level)
    {
      PanelOfState(state);
      StepConsistent(Snapshot(), bank, StartPart(part));
      category, level := state.selectedCategory.value, state.selectedLevel.value;
      state := state.(isLoading := true, selectedPart := Some(part));
    }

    /** The generator's response, a list or a failure, arrives. */
    method ReceiveQuestions(outcome: Generation)
      requires Valid()
      modifies this`state
      ensures Valid() && state == ResolvePart(old(state), outcome)
    {
      StepConsistent(Snapshot(), bank, PartReady(outcome));
      match outcome {
        case Generated(dynamic) =>
          state := state.(isLoading := false, dynamicQuestions := dynamic,
                          currentQuestionIndex := 0, score := 0, userAnswers := [], isFinished := false);
        case GenerationFailed =>
          state := state.(isLoading := false, selectedCategory := None,
                          selectedLevel := None, selectedPart := None);
      }
    }

    /** `handleFinishQuiz`: record the current part once, then mark the quiz finished. */
    method FinishQuiz()
      modifies this`state, this`completedParts
      ensures completedParts == RecordCompletion(old(state), old(completedParts))
      ensures state == old(state).(isFinished := true)
    {
      if CategoryChosen(state) && LevelChosen(state) && PartChosen(state) {
        var partId := PartId(state.selectedCategory.value, state.selectedLevel.value, state.selectedPart.value);
        if partId !in completedParts {
          completedParts := completedParts + [partId];
        }
      }
      state := state.(isFinished := true);
    }

    /** An answer button of the question card. */
    method AnswerSelect(answerIndex: int)
      requires Valid() && Enabled(Snapshot(), AnswerWith(answerIndex))
      modifies this`state, this`completedParts
      ensures Valid()
      ensures (state, completedParts) == Answer(old(state), old(completedParts), bank, answerIndex)
    {
      PanelOfState(state);
      AnswerConsistent(state, completedParts, bank, answerIndex);
      ghost var expected := Answer(state, completedParts, bank, answerIndex);
      var questions := ActiveQuestions(state, bank);
      var isCorrect := answerIndex == questions[state.currentQuestionIndex].correctAnswer;
      var newUserAnswers := state.userAnswers + [answerIndex];
      var newScore := if isCorrect then state.score + 1 else state.score;
      if state.currentQuestionIndex == |questions| - 1 {
        FinishQuiz();
        assert completedParts == expected.1;
        state := state.(userAnswers := newUserAnswers, score := newScore, isFinished := true);
        assert state == expected.0;
      } else {
        state := state.(userAnswers := newUserAnswers, score := newScore,
                        currentQuestionIndex := state.currentQuestionIndex + 1);
        assert state == expected.0;
      }
    }

    /** `handleReset`: the level picker's back button and the results' restart button. */
    method HandleReset()
      requires Valid()
      modifies this`state, this`activeTab
      ensures Valid() && state == Reset(old(state)) && activeTab == Home
    {
      state := state.(currentQuestionIndex := 0, score := 0, userAnswers := [], isFinished := false,
                      selectedCategory := None, selectedLevel := None, selectedPart := None,
                      isLoading := false, dynamicQuestions := []);
      activeTab := Home;
    }

    /** The question the card shows: always one of the active list. */
    function CurrentQuestion(): (q: Question)
      reads this
      requires Valid()
      ensures q in ActiveQuestions(state, bank)
    {
      ActiveQuestions(state, bank)[state.currentQuestionIndex]
    }
  }
}
