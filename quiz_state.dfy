/** The quiz session record (QuizUiState) and the transitions of the quiz view model
    that rewrite it. Every transition builds a new record from the old one; nothing is
    updated in place here. The view model class that owns the record is in view_model.dfy. */
module QuizState {

  datatype Option<T> = None | Some(value: T)

  /** One multiple-choice question: its text, its options in order, and the index of
      the option that is right. */
  datatype Question = Question(question: string, options: seq<string>, correctOptionIndex: int)

  /** The whole session as the screens see it. `selectedOption` and `error` are the
      nullable fields of the source. */
  datatype QuizUiState = QuizUiState(
    questions: seq<Question>,
    isLoading: bool,
    error: Option<string>,
    currentIndex: int,
    selectedOption: Option<int>,
    showAnswer: bool,
    correctCount: int,
    skippedCount: int,
    streak: int,
    longestStreak: int,
    showResult: bool)

  /** What the question source hands back: the list, or a failure of any kind. */
  datatype FetchOutcome = Loaded(questions: seq<Question>) | Failed

  /** The one error message a failed fetch leaves in the record. */
  const FetchErrorMessage: string := "Failed to load questions"

  function Max(a: int, b: int): int { if a < b then b else a }

  // ---------------------------------------------------------------------------
  // Invariants of the record
  // ---------------------------------------------------------------------------

  /** The current streak is never negative and never above the longest one. */
  predicate StreakBounded(s: QuizUiState) { 0 <= s.streak <= s.longestStreak }

  predicate CountersNonNegative(s: QuizUiState) { 0 <= s.correctCount && 0 <= s.skippedCount }

  /** The index points at a question, or is 0 when there are none. */
  predicate IndexInRange(s: QuizUiState)
  {
    0 <= s.currentIndex && (s.currentIndex < |s.questions| || s.currentIndex == 0)
  }

  predicate Consistent(s: QuizUiState)
  {
    StreakBounded(s) && CountersNonNegative(s) && IndexInRange(s)
  }

  /** There is a question at the current index (`getOrNull` does not return null). */
  predicate HasCurrentQuestion(s: QuizUiState) { 0 <= s.currentIndex < |s.questions| }

  /** Option `index` is the right answer to the current question. */
  predicate IsCorrect(s: QuizUiState, index: int)
    requires HasCurrentQuestion(s)
  {
    s.questions[s.currentIndex].correctOptionIndex == index
  }

  /** The current index is the last one, or beyond it: advancing finishes the session. */
  predicate AtLastQuestion(s: QuizUiState) { s.currentIndex + 1 >= |s.questions| }

  /** The four counters of `r` are those of `s`. */
  predicate SameCounters(s: QuizUiState, r: QuizUiState)
  {
    r.correctCount == s.correctCount && r.skippedCount == s.skippedCount &&
    r.streak == s.streak && r.longestStreak == s.longestStreak
  }

  // ---------------------------------------------------------------------------
  // Transitions
  // ---------------------------------------------------------------------------

  /** The record the view model starts with: loading, nothing loaded, all counters zero. */
  function Initial(): (s: QuizUiState)
    ensures s.isLoading && s.error == None && s.questions == [] && !s.showResult
    ensures s.selectedOption == None && !s.showAnswer
    ensures s.correctCount == s.skippedCount == s.streak == s.longestStreak == s.currentIndex == 0
    ensures Consistent(s)
  {
    QuizUiState([], true, None, 0, None, false, 0, 0, 0, 0, false)
  }

  /** First write of a fetch: mark loading and clear the error; nothing else moves. */
  function BeginFetch(s: QuizUiState): (r: QuizUiState)
    ensures r.isLoading && r.error == None
    ensures r.(isLoading := s.isLoading, error := s.error) == s
    ensures Consistent(s) ==> Consistent(r)
  {
    s.(isLoading := true, error := None)
  }

  /** Second write of a fetch. A loaded list starts a new session from the initial values
      whatever the old record held; a failure only ends loading and sets the message,
      keeping the questions and counters of before. */
  function CompleteFetch(s: QuizUiState, outcome: FetchOutcome): (r: QuizUiState)
    ensures !r.isLoading
    ensures outcome.Loaded? ==> r == Initial().(questions := outcome.questions, isLoading := false)
    ensures outcome.Loaded? ==> Consistent(r)
    ensures outcome.Failed? ==> r.error == Some(FetchErrorMessage)
    ensures outcome.Failed? ==> r.(isLoading := s.isLoading, error := s.error) == s
    ensures Consistent(s) ==> Consistent(r)
  {
    match outcome
    case Loaded(qs) =>
      s.(questions := qs, isLoading := false, error := None, currentIndex := 0,
         selectedOption := None, showAnswer := false, correctCount := 0, skippedCount := 0,
         streak := 0, longestStreak := 0, showResult := false)
    case Failed =>
      s.(isLoading := false, error := Some(FetchErrorMessage))
  }

  /** Answer the current question with option `index`. The only guard is that a question
      exists at the current index: a second answer, an answer after the end, or an
      index outside the options is scored like any other. */
  function SelectOption(s: QuizUiState, index: int): (r: QuizUiState)
    ensures !HasCurrentQuestion(s) ==> r == s
    ensures HasCurrentQuestion(s) ==>
      r.selectedOption == Some(index) && r.showAnswer &&
      r.(selectedOption := s.selectedOption, showAnswer := s.showAnswer,
         correctCount := s.correctCount, streak := s.streak, longestStreak := s.longestStreak) == s
    ensures HasCurrentQuestion(s) && IsCorrect(s, index) ==>
      r.correctCount == s.correctCount + 1 && r.streak == s.streak + 1 &&
      r.longestStreak == Max(s.longestStreak, r.streak)
    ensures HasCurrentQuestion(s) && !IsCorrect(s, index) ==>
      r.correctCount == s.correctCount && r.streak == 0 &&
      (StreakBounded(s) ==> r.longestStreak == s.longestStreak)
    ensures Consistent(s) ==> Consistent(r)
  {
    if !HasCurrentQuestion(s) then s
    else
      var isCorrect := s.questions[s.currentIndex].correctOptionIndex == index;
      var newStreak := if isCorrect then s.streak + 1 else 0;
      s.(selectedOption := Some(index), showAnswer := true,
         correctCount := if isCorrect then s.correctCount + 1 else s.correctCount,
         streak := newStreak, longestStreak := Max(s.longestStreak, newStreak))
  }

  /** Move on after an answer: finish at the last question (index kept), otherwise go to
      the next question unanswered. The counters never change. */
  function NextQuestion(s: QuizUiState): (r: QuizUiState)
    ensures SameCounters(s, r)
    ensures r.questions == s.questions && r.isLoading == s.isLoading && r.error == s.error
    ensures AtLastQuestion(s) ==> r == s.(showResult := true)
    ensures !AtLastQuestion(s) ==>
      r.currentIndex == s.currentIndex + 1 && r.selectedOption == None && !r.showAnswer &&
      r.showResult == s.showResult
    ensures Consistent(s) ==> Consistent(r)
  {
    var nextIndex := s.currentIndex + 1;
    if nextIndex >= |s.questions| then s.(showResult := true)
    else s.(currentIndex := nextIndex, selectedOption := None, showAnswer := false)
  }

  /** Skip the current question: count it as skipped, break the streak, clear the
      answer, then advance at once. There is no guard. */
  function SkipQuestion(s: QuizUiState): (r: QuizUiState)
    ensures r.skippedCount == s.skippedCount + 1
    ensures r.streak == 0 && !r.showAnswer && r.selectedOption == None
    ensures r.correctCount == s.correctCount && r.longestStreak == s.longestStreak
    ensures r.questions == s.questions && r.isLoading == s.isLoading && r.error == s.error
    ensures AtLastQuestion(s) ==> r.showResult && r.currentIndex == s.currentIndex
    ensures !AtLastQuestion(s) ==> r.currentIndex == s.currentIndex + 1 && r.showResult == s.showResult
    ensures Consistent(s) ==> Consistent(r)
  {
    NextQuestion(s.(skippedCount := s.skippedCount + 1, selectedOption := None,
                    showAnswer := false, streak := 0))
  }

  /** Manual step back: nothing happens at index 0 (or below); otherwise the index drops
      by one and the answer is cleared. */
  function GoToPreviousQuestion(s: QuizUiState): (r: QuizUiState)
    ensures s.currentIndex <= 0 ==> r == s
    ensures s.currentIndex > 0 ==>
      r.currentIndex == s.currentIndex - 1 &&
      r == s.(currentIndex := r.currentIndex, selectedOption := None, showAnswer := false)
    ensures Consistent(s) ==> Consistent(r)
  {
    if s.currentIndex > 0 then
      s.(currentIndex := s.currentIndex - 1, selectedOption := None, showAnswer := false)
    else s
  }

  /** Manual step forward: nothing happens at the last index (or when there are no
      questions); otherwise the index grows by one and the answer is cleared. */
  function GoToNextQuestion(s: QuizUiState): (r: QuizUiState)
    ensures s.currentIndex >= |s.questions| - 1 ==> r == s
    ensures s.currentIndex < |s.questions| - 1 ==>
      r.currentIndex == s.currentIndex + 1 &&
      r == s.(currentIndex := r.currentIndex, selectedOption := None, showAnswer := false)
    ensures Consistent(s) ==> Consistent(r)
  {
    if s.currentIndex < |s.questions| - 1 then
      s.(currentIndex := s.currentIndex + 1, selectedOption := None, showAnswer := false)
    else s
  }

  /** The record half of finishing the test: the session is over, nothing else moves. */
  function FinishTest(s: QuizUiState): (r: QuizUiState)
    ensures r.showResult
    ensures r.(showResult := s.showResult) == s
    ensures Consistent(s) ==> Consistent(r)
  {
    s.(showResult := true)
  }

  // ---------------------------------------------------------------------------
  // Properties relating several transitions
  // ---------------------------------------------------------------------------

  /** Finishing twice is finishing once. */
  lemma FinishTestIdempotent(s: QuizUiState)
    ensures FinishTest(FinishTest(s)) == FinishTest(s)
  {
  }

  /** Stepping forward and back again returns to the same question, unanswered. */
  lemma ForwardThenBack(s: QuizUiState)
    requires 0 <= s.currentIndex < |s.questions| - 1
    ensures GoToPreviousQuestion(GoToNextQuestion(s)) == s.(selectedOption := None, showAnswer := false)
  {
  }

  /** Stepping back and forward again returns to the same question, unanswered. */
  lemma BackThenForward(s: QuizUiState)
    requires 0 < s.currentIndex < |s.questions|
    ensures GoToNextQuestion(GoToPreviousQuestion(s)) == s.(selectedOption := None, showAnswer := false)
  {
  }

  /** A fetch that loads a list ends in the same record whatever session came before it:
      a restart forgets the old session completely. */
  lemma ReloadForgetsSession(s1: QuizUiState, s2: QuizUiState, qs: seq<Question>)
    ensures CompleteFetch(BeginFetch(s1), Loaded(qs)) == CompleteFetch(BeginFetch(s2), Loaded(qs))
  {
  }

  /** A failed fetch keeps every session field of before and only ends loading with the
      error message. */
  lemma FailedFetchKeepsSession(s: QuizUiState)
    ensures var r := CompleteFetch(BeginFetch(s), Failed);
      !r.isLoading && r.error == Some(FetchErrorMessage) &&
      r.(isLoading := s.isLoading, error := s.error) == s
  {
  }

  /** The view model does not refuse a second answer while the first is shown: the same
      right answer given twice on a one-question quiz is counted twice, so the correct
      count can exceed the number of questions. Only the screen's disabled click stops
      this. */
  lemma SecondAnswerCountsAgain(q: Question)
    ensures var s := CompleteFetch(Initial(), Loaded([q]));
      var twice := SelectOption(SelectOption(s, q.correctOptionIndex), q.correctOptionIndex);
      twice.correctCount == 2 > |twice.questions| && twice.streak == 2
  {
  }

  /** Five questions, answers right, right, right, wrong, then a skip of the last one:
      three correct, the streak broken, a longest streak of three, one skip, finished. */
  lemma FiveQuestionSession(q: Question)
    ensures
      var s0 := CompleteFetch(BeginFetch(Initial()), Loaded([q, q, q, q, q]));
      var right := q.correctOptionIndex;
      var s1 := NextQuestion(SelectOption(s0, right));
      var s2 := NextQuestion(SelectOption(s1, right));
      var s3 := NextQuestion(SelectOption(s2, right));
      var s4 := NextQuestion(SelectOption(s3, right + 1));
      var s5 := SkipQuestion(s4);
      s5.correctCount == 3 && s5.streak == 0 && s5.longestStreak == 3 &&
      s5.skippedCount == 1 && s5.showResult && s5.currentIndex == 4
  {
  }
}
