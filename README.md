# Quiz session view model

A Dafny model of the session core of a multiple-choice quiz app: the view model that owns
the session record (`QuizUiState`), the countdown clock and the countdown job. It loads a
list of questions, scores answers, keeps a current and a longest streak of right answers,
lets the user skip and move between questions, and finishes the test on request or when
fifteen minutes have run out.

- `quiz_state.dfy`, module `QuizState`: the `Question` and `QuizUiState` records, and each
  transition of the view model as a function from the old record to the new one (the
  source builds every new record with `copy`). Each function's contract states its guard,
  what it changes, what it leaves alone, and that it keeps the record consistent: streak
  between 0 and the longest streak, counters non-negative, index inside the list (or 0 for
  an empty list). Lemmas relate several transitions: forward then back, reload forgets the
  old session, finish is idempotent, and two worked sessions.
- `view_model.dfy`, module `ViewModel`: the clock and the countdown job as functions over a
  `Snapshot` (record, seconds left, whether the job is live). An `Action` type covers every
  operation, and `Run` applies any sequence of them; the invariants are proved to hold along
  every sequence. Class `QuizViewModel` holds the three mutable fields. Each of its methods
  reassigns them as the source does and is proved equal to the matching function. The class
  also has the countdown loop itself (`RunCountdown`).

The 2-second advance after an answer and the 1-second step of the countdown are explicit
operations (`Advance`, `Tick`) rather than background tasks. A fetch is split in two: its
first write (`BeginFetch`) and its completion with the question source's answer
(`CompleteFetch`). That answer is a parameter: a list of questions, or a failure.

The view model guards less than its screens do, and the model follows the view model:

- `selectOption` only checks that a question exists at the current index. A second answer
  while one is shown, an answer after the session has finished, and an option index outside
  the question's options are all scored. The screen's disabled click is the only guard. So
  the correct count can exceed the number of questions (`SecondAnswerCountsAgain`).
- `skipQuestion` has no guard at all.
- `restartQuiz` only fetches again. It does not reset the clock; the questions screen starts
  the countdown when it is shown.
- A failed fetch keeps the questions and counters it found and only sets the error. A
  successful fetch of an empty list gives a session with no questions: selection is then a
  no-op and the next advance finishes the session.

## Model

| member | source | states |
|---|---|---|
| QuizState.Initial | app/src/main/java/com/example/marrowgames/viewmodel/QuizViewModel.kt:13-25 | the default record is loading, with no questions, no error, no selected option, the answer not shown, all counters and the index at 0, not finished, and consistent |
| QuizState.BeginFetch | app/src/main/java/com/example/marrowgames/viewmodel/QuizViewModel.kt:62 | starting a fetch sets loading and clears the error; every other field is kept; consistency is kept |
| QuizState.CompleteFetch | app/src/main/java/com/example/marrowgames/viewmodel/QuizViewModel.kt:63-86 | a loaded list yields the initial record with those questions and loading off, whatever came before; a failure ends loading and sets "Failed to load questions", keeping every other field; consistency is kept |
| QuizState.SelectOption | app/src/main/java/com/example/marrowgames/viewmodel/QuizViewModel.kt:90-102 | no question at the current index: no change; otherwise the answer is recorded and shown; a right answer adds one to correct count and streak and sets longest to max(longest, new streak); a wrong one zeroes the streak and keeps correct count and longest; index, skips and finish flag are kept; consistency is kept |
| QuizState.NextQuestion | app/src/main/java/com/example/marrowgames/viewmodel/QuizViewModel.kt:120-132 | at the last index (or beyond) only the finish flag is set; otherwise the index grows by one and the answer is cleared; counters never change; consistency is kept |
| QuizState.SkipQuestion | app/src/main/java/com/example/marrowgames/viewmodel/QuizViewModel.kt:109-118 | skips grow by exactly one, the streak is 0, the answer is cleared, correct count and longest are kept; then either the index grows by one or, at the last question, the session is finished at the same index; consistency is kept |
| QuizState.GoToPreviousQuestion | app/src/main/java/com/example/marrowgames/viewmodel/QuizViewModel.kt:134-143 | no-op at index 0; otherwise the index drops by one, the answer is cleared, nothing else changes; the index stays in range |
| QuizState.GoToNextQuestion | app/src/main/java/com/example/marrowgames/viewmodel/QuizViewModel.kt:145-154 | no-op at the last index and on an empty list; otherwise the index grows by one, the answer is cleared, nothing else changes; the index stays in range |
| QuizState.FinishTest | app/src/main/java/com/example/marrowgames/viewmodel/QuizViewModel.kt:51-54 | the session is finished and no other field changes |
| QuizState.FinishTestIdempotent | app/src/main/java/com/example/marrowgames/viewmodel/QuizViewModel.kt:51-54 | finishing twice is the same as finishing once |
| QuizState.ForwardThenBack | app/src/main/java/com/example/marrowgames/viewmodel/QuizViewModel.kt:134-154 | below the last index, a step forward and a step back return to the same record with the answer cleared |
| QuizState.BackThenForward | app/src/main/java/com/example/marrowgames/viewmodel/QuizViewModel.kt:134-154 | above index 0, a step back and a step forward return to the same record with the answer cleared |
| QuizState.ReloadForgetsSession | app/src/main/java/com/example/marrowgames/viewmodel/QuizViewModel.kt:60-79 | a fetch that loads a list ends in the same record from any two earlier sessions |
| QuizState.FailedFetchKeepsSession | app/src/main/java/com/example/marrowgames/viewmodel/QuizViewModel.kt:60-86 | a failed fetch ends with loading off and the error message, and every other field as before |
| QuizState.SecondAnswerCountsAgain | app/src/main/java/com/example/marrowgames/viewmodel/QuizViewModel.kt:90-102 | the same right answer given twice on a one-question quiz gives a correct count of 2 and a streak of 2 |
| QuizState.FiveQuestionSession | app/src/main/java/com/example/marrowgames/viewmodel/QuizViewModel.kt:90-132 | five questions answered right, right, right, wrong, then the last skipped: 3 correct, streak 0, longest 3, 1 skipped, finished at index 4 |
| ViewModel.StartTimer | app/src/main/java/com/example/marrowgames/viewmodel/QuizViewModel.kt:34-37 | starting puts 900 seconds on the clock and makes the countdown live; the record is untouched |
| ViewModel.StopTimer | app/src/main/java/com/example/marrowgames/viewmodel/QuizViewModel.kt:47-49 | stopping ends the countdown and keeps the clock and the record |
| ViewModel.Finish | app/src/main/java/com/example/marrowgames/viewmodel/QuizViewModel.kt:51-54 | finishing stops the countdown and finishes the record; the clock is kept; all invariants are kept |
| ViewModel.TickTimer | app/src/main/java/com/example/marrowgames/viewmodel/QuizViewModel.kt:38-43 | a stopped countdown does nothing; a live one takes one second off; the second that empties the clock finishes the test and stops the countdown; the clock never goes below 0 |
| ViewModel.Ticks | app/src/main/java/com/example/marrowgames/viewmodel/QuizViewModel.kt:38-41 | any number of seconds keeps a non-negative clock between 0 and where it started |
| ViewModel.CountdownTicks | app/src/main/java/com/example/marrowgames/viewmodel/QuizViewModel.kt:38-43 | on a live countdown, k seconds take k off the clock; before it is empty nothing else changes; when it is empty the test is finished and the countdown stopped |
| ViewModel.FullCountdown | app/src/main/java/com/example/marrowgames/viewmodel/QuizViewModel.kt:34-44 | exactly 900 seconds after a start, the clock is 0, the countdown is over and the session is finished with counters and index unchanged |
| ViewModel.Step | app/src/main/java/com/example/marrowgames/viewmodel/QuizViewModel.kt:34-158 | every operation keeps all invariants of the record and the clock |
| ViewModel.Run | app/src/main/java/com/example/marrowgames/viewmodel/QuizViewModel.kt:34-158 | any sequence of operations keeps all invariants: longest streak at least streak at least 0, counters non-negative, index in range, clock within 0..900 and positive while live |
| ViewModel.FinishedUntilReload | app/src/main/java/com/example/marrowgames/viewmodel/QuizViewModel.kt:67-79 | once finished, a session stays finished along any sequence of operations that loads no new list |
| ViewModel.CountersGrowUntilReload | app/src/main/java/com/example/marrowgames/viewmodel/QuizViewModel.kt:96-116 | along any sequence of operations that loads no new list, the correct and skipped counts never go down |
| ViewModel.QuizViewModel.constructor | app/src/main/java/com/example/marrowgames/viewmodel/QuizViewModel.kt:28-32 | a new view model holds the default record, a full clock and no countdown, and is valid |
| ViewModel.QuizViewModel.StartGlobalTimer | app/src/main/java/com/example/marrowgames/viewmodel/QuizViewModel.kt:34-37 | the new state is StartTimer of the old one |
| ViewModel.QuizViewModel.StopGlobalTimer | app/src/main/java/com/example/marrowgames/viewmodel/QuizViewModel.kt:47-49 | the new state is StopTimer of the old one |
| ViewModel.QuizViewModel.FinishTest | app/src/main/java/com/example/marrowgames/viewmodel/QuizViewModel.kt:51-54 | stops the countdown, then finishes the record: the new state is Finish of the old one |
| ViewModel.QuizViewModel.Tick | app/src/main/java/com/example/marrowgames/viewmodel/QuizViewModel.kt:38-43 | the new state is TickTimer of the old one |
| ViewModel.QuizViewModel.RunCountdown | app/src/main/java/com/example/marrowgames/viewmodel/QuizViewModel.kt:37-44 | the countdown loop ends with the clock at 0, the countdown over and the record finished, which is Ticks of the old state for as many seconds as were left |
| ViewModel.QuizViewModel.BeginFetch | app/src/main/java/com/example/marrowgames/viewmodel/QuizViewModel.kt:62 | the record becomes BeginFetch of the old one; the clock is untouched |
| ViewModel.QuizViewModel.CompleteFetch | app/src/main/java/com/example/marrowgames/viewmodel/QuizViewModel.kt:63-86 | the record becomes CompleteFetch of the old one with the source's answer; the clock is untouched |
| ViewModel.QuizViewModel.FetchQuestions | app/src/main/java/com/example/marrowgames/viewmodel/QuizViewModel.kt:60-88 | the two writes of a fetch in order |
| ViewModel.QuizViewModel.RestartQuiz | app/src/main/java/com/example/marrowgames/viewmodel/QuizViewModel.kt:156-158 | a restart is a fetch and nothing more; the clock is untouched |
| ViewModel.QuizViewModel.SelectOption | app/src/main/java/com/example/marrowgames/viewmodel/QuizViewModel.kt:90-102 | the record becomes SelectOption of the old one |
| ViewModel.QuizViewModel.NextQuestion | app/src/main/java/com/example/marrowgames/viewmodel/QuizViewModel.kt:120-132 | the record becomes NextQuestion of the old one |
| ViewModel.QuizViewModel.Advance | app/src/main/java/com/example/marrowgames/viewmodel/QuizViewModel.kt:103-106 | the delayed advance after an answer is NextQuestion |
| ViewModel.QuizViewModel.SkipQuestion | app/src/main/java/com/example/marrowgames/viewmodel/QuizViewModel.kt:109-118 | writing the skip and then advancing gives SkipQuestion of the old record |
| ViewModel.QuizViewModel.GoToPreviousQuestion | app/src/main/java/com/example/marrowgames/viewmodel/QuizViewModel.kt:134-143 | the record becomes GoToPreviousQuestion of the old one |
| ViewModel.QuizViewModel.GoToNextQuestion | app/src/main/java/com/example/marrowgames/viewmodel/QuizViewModel.kt:145-154 | the record becomes GoToNextQuestion of the old one |

## Left out

- Coroutine scheduling: `viewModelScope.launch`, `delay` and `Job.cancel`. The countdown job is a flag, and the two delays are explicit operations. The model does not record that each answer schedules exactly one later advance, and it has no advance left pending after a finish or a restart.
- The question source (an HTTP GET decoded from JSON) is not part of this model. Its answer is a parameter of `CompleteFetch`: a list or a failure. The `Question` record keeps only the fields the view model and screens read: the text, the options and the correct option's index.
- Kotlin's 32-bit `Int`: counters and streaks are unbounded integers, because overflow would need more than two billion answers.
- Logging calls, the view-model factory, the theme preference store, and all screens, navigation and animations. The score percentage on the results screen uses floating point.
- The screens' own guards (disabled clicks and buttons while an answer is shown, and navigation only within range) are not part of the view model. So they are not part of the contracts either.
