/**
 * The records and enumerations shared by the quiz controller and the
 * results view (types.ts).
 */
module Types {
  import opened Wrappers

  /** The three difficulty levels; each member's string value is its on-screen label. */
  datatype DifficultyLevel = Basic | Medium | Advanced

  /** The string value of each level, as it appears in completed-part identifiers. */
  function LevelLabel(level: DifficultyLevel): (name: string)
    ensures name != ""
    ensures '-' !in name
  {
    match level
    case Basic => "પાયાનું (Basic)"
    case Medium => "મધ્યમ (Medium)"
    case Advanced => "નિષ્ણાત (Advanced)"
  }

  /** The levels in the order the level picker lists them. */
  const AllLevels: seq<DifficultyLevel> := [Basic, Medium, Advanced]

  /** The enumeration has three members, listed once each, with distinct labels. */
  lemma LevelsDistinct()
    ensures |AllLevels| == 3
    ensures forall i, j :: 0 <= i < j < |AllLevels| ==> AllLevels[i] != AllLevels[j]
    ensures forall l: DifficultyLevel :: l in AllLevels
    ensures forall l, m :: LevelLabel(l) == LevelLabel(m) ==> l == m
  {
    forall l: DifficultyLevel ensures l in AllLevels {
      match l
      case Basic => assert AllLevels[0] == l;
      case Medium => assert AllLevels[1] == l;
      case Advanced => assert AllLevels[2] == l;
    }
  }

  /** The nine subject categories. */
  datatype Category =
    | IPC | CrPC | Evidence | Constitution | GujaratHistory
    | GeneralKnowledge | CurrentAffairs | DailyChallenge | PYQ

  function CategoryLabel(c: Category): (name: string)
    ensures name != ""
  {
    match c
    case IPC => "IPC (ભારતીય ફોજદારી ધારો)"
    case CrPC => "CrPC (ફોજદારી કાર્યરીતિ સંહિતા)"
    case Evidence => "EVIDENCE (ભારતીય પુરાવા અધિનિયમ)"
    case Constitution => "બંધારણ (Constitution)"
    case GujaratHistory => "ગુજરાતનો ઇતિહાસ"
    case GeneralKnowledge => "સામાન્ય જ્ઞાન"
    case CurrentAffairs => "વર્તમાન પ્રવાહ (Current Affairs)"
    case DailyChallenge => "Daily 1000+ MCQ ધડાકા"
    case PYQ => "PYQ (જુના પ્રશ્નપત્રો)"
  }

  const AllCategories: seq<Category> :=
    [IPC, CrPC, Evidence, Constitution, GujaratHistory,
     GeneralKnowledge, CurrentAffairs, DailyChallenge, PYQ]

  /** The enumeration has nine members, listed once each. */
  lemma CategoriesDistinct()
    ensures |AllCategories| == 9
    ensures forall i, j :: 0 <= i < j < |AllCategories| ==> AllCategories[i] != AllCategories[j]
    ensures forall c: Category :: c in AllCategories
    ensures forall c, d :: CategoryLabel(c) == CategoryLabel(d) ==> c == d
  {
    forall c: Category ensures c in AllCategories {
      var k := match c
        case IPC => 0 case CrPC => 1 case Evidence => 2
        case Constitution => 3 case GujaratHistory => 4 case GeneralKnowledge => 5
        case CurrentAffairs => 6 case DailyChallenge => 7 case PYQ => 8;
      assert AllCategories[k] == c;
    }
  }

  /** A question's identifier is either a number or a string. */
  datatype QuestionId = NumberId(n: int) | TextId(s: string)

  /**
   * One multiple-choice question. Nothing in the record forces
   * `correctAnswer` to index `options`: the generator is only asked for it.
   */
  datatype Question = Question(
    id: QuestionId,
    category: string,
    question: string,
    options: seq<string>,
    correctAnswer: int,
    explanation: Option<string>)

  /** The quiz controller's state record; every nullable field is an Option. */
  datatype QuizState = QuizState(
    currentQuestionIndex: nat,
    score: nat,
    userAnswers: seq<int>,
    isFinished: bool,
    selectedCategory: Option<string>,
    selectedLevel: Option<DifficultyLevel>,
    selectedPart: Option<int>,
    isLoading: bool,
    dynamicQuestions: seq<Question>,
    userName: Option<string>)
}
