# Quiz session model

A Dafny model of a client-side quiz application for police-recruitment exam
preparation. The user logs in with a display name, then picks a category, a
difficulty level and one of 100 parts. An AI generator produces that part's
question list. The user answers the questions one at a time and sees the
results: a score card, a review list that can be filtered to wrong answers
only, and per-question AI explanations. Completed parts are recorded as
`category-level-part` identifiers, and a stats tab shows progress against
900 parts.

The model covers three source files.

- `types.ts` becomes module `Types`: the enumerations, the `Question`
  record and the `QuizState` record. Nullable fields become `Option`.
- The controller in `App.tsx` has two halves.
  - Module `Quiz` holds the values. It has one transition function per
    event handler, the choice of the active question list, the
    completed-part identifier, the panel the home tab renders and the
    progress figures. It also has an `Event` type with `Step` and `Run`,
    and the invariant `Consistent` that every reachable state keeps.
  - Module `Controller` holds class `App`. Its fields `state`,
    `completedParts` and `activeTab` are the component's three state
    holders. Each handler is a method that applies the source's patch and
    is specified by the matching `Quiz` function.
- `components/ResultView.tsx` becomes module `Review`. The score
  arithmetic, the icon, per-row correctness, the filter and the
  explanation fallback are pure functions. Class `ResultPanel` holds the
  view's local state: the open row, the AI text, the loading flag and the
  filter.

Module `Decimal` renders and parses the part number inside an identifier.
Module `Wrappers` holds `Option`.

Modelling choices:

- **Static question bank.** The bank comes from a module that is not part
  of this model. It is the parameter `bank` and is required to be
  non-empty.
- **Question generator.** It is the outcome `Generation`: a list, possibly
  empty, or a failure. The outcome is given to the event that receives the
  response.
- **Explanation provider.** It is the reply `ExplanationReply`.
  `ReplyText` applies the provider's own fallback strings
  (services/geminiService.ts:15, 18), so the view never receives an empty
  text.
- **Truthiness.** The source tests JavaScript truthiness, and the model
  follows it exactly.
  - An empty category string or part number 0 blocks recording and
    counts as "not chosen" (`CategoryChosen`, `PartChosen`).
  - An empty display name keeps the login view on screen (`LoggedIn`).
- **Event scope.** An event is `Enabled` only while the control that
  raises it is rendered. For example, a category can be chosen only while
  the category picker is the panel on screen.
  - `Restart` is `handleReset`. Only two buttons call it: the level
    picker's back button (App.tsx:244) and the results' restart button
    (components/ResultView.tsx:115). So it is enabled only while one of
    those two panels is on screen. The layout's home buttons only switch
    the tab (components/Layout.tsx:21, 85, modelled by `ChooseTab`). The
    layout accepts an `onHomeClick` handler but never calls it
    (components/Layout.tsx:14).
  - The generator's response (`PartReady`) is enabled at any time. So
    the model also covers a response that arrives after the user has
    switched tabs or logged out while the spinner was showing.
  - The explanation reply is likewise accepted at any time.
- **Selecting a category.** The handler at App.tsx:211 sets only
  `selectedCategory`. The model does the same. The selection chain still
  holds, because the category picker is shown only when no level is
  chosen.
- **Out-of-range index.** An answer given when the current index is past
  the active list would throw a `TypeError` before any state changes
  (App.tsx:95). `Answer` therefore leaves the state unchanged in that
  case. `Consistent` proves this case never arises.
- **Rounding.** `Math.round` over a float quotient becomes exact integer
  rounding, half up.
  - The stats percentage is `(200·count + 900) / 1800`. Its exact value
    `count/9` is never within 1/18 of a half, so float error cannot change
    the result.
  - The results percentage is `(200·score + total) / (2·total)`.
- **Completion.** A part is recorded as completed by `handleFinishQuiz`
  (App.tsx:81-91). It runs when the last question is answered, not when
  the part is chosen.

## Model

| member | source | states |
|---|---|---|
| Types.LevelLabel | types.ts:24-28 | every level value is non-empty, so a chosen level is truthy, and holds no dash |
| Types.LevelsDistinct | types.ts:24-28 | exactly three levels BASIC, MEDIUM, ADVANCED, listed once each in picker order, with distinct values |
| Types.CategoriesDistinct | types.ts:30-40 | exactly nine categories, listed once each, with distinct values |
| Types.CategoryLabel | types.ts:30-40 | every category value is non-empty |
| Decimal.ParseNatToString | App.tsx:83 | the decimal rendering of a part number reads back as that number |
| Decimal.NatToStringInjective | App.tsx:83 | distinct part numbers render as distinct numerals |
| Decimal.IntToString | App.tsx:83 | the rendering of a non-negative part number is all digits, has no dash and reads back as the number; a negative one is a minus sign before the digits of its magnitude |
| Quiz.ActiveQuestions | App.tsx:94 | the active list is the generated list when that is non-empty, otherwise the static bank; it is never empty |
| Quiz.GeneratedListIsActive | App.tsx:69 | an empty generated list falls back to the bank, a non-empty one becomes active, and a failure keeps the active list |
| Quiz.ResolvePart | App.tsx:64-78 | success clears loading, installs the list and restarts index, score, answers and finished; failure clears loading and all three selections and keeps list and progress |
| Quiz.ResetRestoresInitial | App.tsx:112-124 | reset yields exactly the record of a fresh load with the same display name |
| Quiz.CompletionId | App.tsx:82-83 | an identifier exists exactly when category, level and part are all truthy, and it is `category-level-part` |
| Quiz.RecordCompletion | App.tsx:82-88 | nothing is recorded without all three selections; otherwise the part's identifier is in the list afterwards |
| Quiz.RecordCompletionGrows | App.tsx:84-86 | recording only appends, adds at most the part's own identifier, keeps the list duplicate-free, and a second recording changes nothing |
| Quiz.PartIdInjective | App.tsx:83 | distinct (category, level, part) triples with non-negative parts have distinct identifiers |
| Quiz.LastDashBeforeTail | App.tsx:83 | the last dash of `a-t` is the separator when `t` holds no dash |
| Quiz.SplitAtLastDash | App.tsx:83 | an identifier splits uniquely at its last dash |
| Quiz.RecordingMarksOnlyThatPart | App.tsx:84-86 | finishing a part turns on that part's badge and leaves every other part's badge unchanged |
| Quiz.Answer | App.tsx:93-110 | one answer is appended; the score rises by 1 exactly when the answer equals the current correct index; the index advances except on the last question, where it stays and the quiz finishes and the part is recorded; an index past the list changes nothing |
| Quiz.AnswerConsistent | App.tsx:95-108 | answering an unfinished, consistent quiz keeps the invariant |
| Quiz.FullRun | App.tsx:93-110 | from a fresh quiz over N ≥ 1 questions, k ≤ N answers are recorded in order, the score counts the correct ones, and the quiz is finished exactly when k = N, with the part recorded then |
| Quiz.ExactlyOnePanel | App.tsx:183-312 | exactly one home panel renders if and only if the quiz is loading, finished, or its selections form the chain |
| Quiz.PanelOfState | App.tsx:183-312 | under the chain, the panel is the spinner, the results, or the picker for the first missing selection, else the question card |
| Quiz.ScreenOf | App.tsx:128-181 | an absent or empty display name shows only the login view; otherwise the open tab, and the home tab shows the home panels |
| Quiz.ProgressPercent | App.tsx:157 | the percentage is the nearest whole percent of count/900, capped at 100 |
| Quiz.ProgressMonotone | App.tsx:157-169 | the percentage and the solved-question figure (47 per part) never decrease as parts are completed; no parts gives 0 percent |
| Quiz.InitialConsistent | App.tsx:14-25 | a fresh load satisfies the invariant |
| Quiz.ScoreBounded | App.tsx:97 | in a consistent state score ≤ number of answers ≤ length of the active list |
| Quiz.StepConsistent | App.tsx:34-126 | every enabled event keeps the invariant: selection chain, parts in 1..100, index inside the list, one answer per visited question, score equal to correct answers |
| Quiz.RunConsistent | App.tsx:34-126 | any admissible sequence of events keeps the invariant |
| Quiz.ReachableStates | App.tsx:183-312 | every state reachable from a load keeps the chain, shows exactly one home panel, has score ≤ answers, and has a current question |
| Quiz.CompletedPartsGrow | App.tsx:85-86 | over any sequence of events the completed list only grows by appending and stays duplicate-free |
| Quiz.ResultsFigures | App.tsx:303-310 | a finished quiz passes one answer per question, a score equal to the correct count, a percentage in 0..100, and a wrong count equal to the rows the wrong filter shows |
| Quiz.RunAppend | App.tsx:34-126 | running two event sequences in turn is running their concatenation |
| Quiz.PickingPhase | App.tsx:34-37 | login, a category and a level are admissible from a fresh load and select them |
| Quiz.LoadingPhase | App.tsx:62-74 | starting part 1 and receiving a list installs it with index 0 and nothing answered |
| Quiz.AnswerOneMore | App.tsx:93-110 | one more answer on an unfinished fresh run extends the recorded answers, adds 1 to the score exactly when it is correct, and finishes and records the part on the last question |
| Quiz.FirstAnswer | App.tsx:93-106 | a right first answer is admissible, scores 1 and moves to the second question |
| Quiz.SecondAnswer | App.tsx:93-106 | a wrong second answer is admissible, keeps the score and moves to the third question |
| Quiz.LastAnswer | App.tsx:93-110 | a right last answer is admissible, scores 2, keeps the index, finishes the quiz and records the part |
| Quiz.ClosingAnswers | App.tsx:93-110 | the wrong then right answers take the quiz from the second question to its finished state |
| Quiz.AnswerPhase | App.tsx:93-110 | right, wrong, right on three questions is admissible and ends with score 2, finished, and the part recorded |
| Quiz.SessionEndsOnResults | App.tsx:298-312 | the finished three-question session shows the results panel alone and holds the three answers in order |
| Quiz.RunOne | App.tsx:34-126 | a run of a single event is one step, admissible exactly when that event is enabled |
| Quiz.ThreeQuestionSession | App.tsx:34-110 | the whole session from login is admissible and ends on the results panel with score 2 and `Constitution-<basic>-1` recorded |
| Controller.App.constructor | App.tsx:14-32 | the loaded state is the initial record with the stored name, and the stored parts, or none |
| Controller.App.HandleLogin | App.tsx:34-37 | only the display name changes |
| Controller.App.HandleLogout | App.tsx:39-43 | the display name is cleared and the home tab opened |
| Controller.App.SetActiveTab | App.tsx:13 | the open tab becomes the chosen one |
| Controller.App.ChooseCategory | App.tsx:211 | only the category is set, and the invariant is kept |
| Controller.App.ChooseLevel | App.tsx:249 | only the level is set, and the invariant is kept |
| Controller.App.BackFromParts | App.tsx:261 | only the level is cleared, and the invariant is kept |
| Controller.App.StartFinalQuiz | App.tsx:62-63 | loading starts and the part is stored; the category and level sent to the generator are the chosen ones |
| Controller.App.ReceiveQuestions | App.tsx:64-78 | the state becomes `ResolvePart` of the response, and the invariant is kept |
| Controller.App.FinishQuiz | App.tsx:81-91 | the completed list becomes `RecordCompletion` of the current state and the quiz is marked finished |
| Controller.App.AnswerSelect | App.tsx:93-110 | state and completed list become `Answer` of the chosen index, and the invariant is kept |
| Controller.App.HandleReset | App.tsx:112-126 | the state becomes `Reset`, the home tab opens, and the invariant is kept |
| Controller.App.CurrentQuestion | App.tsx:292 | the question card always shows a question of the active list |
| Review.Percentage | components/ResultView.tsx:29 | the percentage is 100·score/total rounded to the nearest integer, halves up |
| Review.PercentageUnique | components/ResultView.tsx:29 | that rounding has exactly one result |
| Review.PercentageRange | components/ResultView.tsx:29 | for 0 ≤ score ≤ total the percentage lies in 0..100, is 100 for a full score and 0 for none |
| Review.PercentageMonotone | components/ResultView.tsx:29 | a higher score never gives a lower percentage |
| Review.ResultIcon | components/ResultView.tsx:85-89 | lion exactly at ≥ 80, flexed arm exactly in 50..79, books exactly below 50: disjoint bands covering every value |
| Review.CorrectCount | components/ResultView.tsx:147 | the number of correct answers is at most the number of questions counted and the number of answers |
| Review.CorrectCountAppend | components/ResultView.tsx:147 | a later answer does not change the verdict on earlier questions |
| Review.VisibleRows | components/ResultView.tsx:146-148 | the rendered rows are ascending and are exactly the questions the filter lets through |
| Review.AllRowsInOrder | components/ResultView.tsx:146-148 | filter "all" shows every question, in order |
| Review.WrongRowsCount | components/ResultView.tsx:146-148 | filter "wrong" shows as many rows as there are incorrect answers |
| Review.WrongButtonMatchesRows | components/ResultView.tsx:104-141 | when the score is the correct count, the wrong count on the tile and button equals the rows filter "wrong" shows |
| Review.ExplanationText | components/ResultView.tsx:192 | the shown text is the AI text if non-empty, else the question's explanation if non-empty, else the fixed fallback; it is never empty |
| Review.RenderRow | components/ResultView.tsx:146-196 | a row is correct iff its answer equals the correct index; the correct-answer line appears only on wrong rows; the explanation panel appears only under the selected row, as a loading indicator or the explanation text |
| Review.ReplyText | services/geminiService.ts:15-18 | the provider returns the response text if non-empty and a fixed fallback otherwise or on error, never an empty text |
| Review.CorrectOption | components/ResultView.tsx:80 | the correct option text exists exactly when the correct index is an index of the options |
| Review.ResultPanel.constructor | components/ResultView.tsx:23-26 | no row open, no text, not loading, filter "all"; the total is the length of the question list, as App.tsx:305-306 passes it |
| Review.ResultPanel.Card | components/ResultView.tsx:29-142 | the card shows the score, total − score as the wrong count, the nearest whole percentage and its icon; the "all" button counts the rows that filter shows; when the score is the correct count, the "wrong only" button counts its rows and the percentage is in 0..100 |
| Review.ResultPanel.Explain | components/ResultView.tsx:70-79 | on the open row: closes it and sends no request; on another row: opens it, starts loading, clears the text and sends a request for that question |
| Review.ResultPanel.ReceiveExplanation | components/ResultView.tsx:80-82 | the reply's text is stored and loading stops |
| Review.ResultPanel.SetFilter | components/ResultView.tsx:132-138 | the filter becomes the chosen one |
| Review.ResultPanel.Rows | components/ResultView.tsx:146-199 | the rendered rows are exactly the visible indices in order, each with its correctness |
| Review.ResultPanel.SettledPanelShowsReply | components/ResultView.tsx:177-194 | in every reachable view state an open panel that is not loading shows the provider's reply |

## Left out

- Browser storage is left out (App.tsx:24, 30-31, 35, 40, 87). The
  constructor of `Controller.App` receives the stored name and the stored
  list. Writes are not modelled.
- A stored list that is not valid JSON is left out. So is a stored list
  that holds duplicates: `Quiz.CompletedPartsGrow` only proves that no
  duplicates are added.
- The share and clipboard handlers are platform calls (App.tsx:45-60,
  components/ResultView.tsx:31-68). So are the alerts.
- Rendering-only components: components/Layout.tsx,
  components/SettingsView.tsx and components/QuizCard.tsx. LoginView and
  the constants module are not part of this model.
- The prompt text and the response parsing inside
  services/geminiService.ts are left out. Only the outcomes (`Generation`,
  `ExplanationReply`) are modelled.
- Async interleaving is not modelled. Each handler, and each send and
  reply, is one atomic step.
  - A late question response is covered, since `PartReady` is always
    enabled. It can arrive after a tab switch or a logout.
  - Two overlapping requests whose replies arrive in either order are
    not covered.
- React batching of the two updates at App.tsx:100-101 is modelled as the
  two patches applied in order.
- Float geometry is left out: the progress-bar width (App.tsx:161) and
  QuizCard's progress (components/QuizCard.tsx:20).
- The fixed "100%" accuracy tile of the stats tab (App.tsx:173) is static
  text.
- Review.Percentage: uses exact rational rounding; the source's float
  quotient can differ from it only when 100·score/total is within float
  error of a half.
- Review.Percentage requires a positive total. The results view always
  receives the length of the active list, which is never empty.
- Controller.App.ChooseCategory, ChooseLevel, BackFromParts,
  StartFinalQuiz and AnswerSelect require that their control is on
  screen (`Quiz.Enabled`). The source can call these handlers only from
  those buttons.
