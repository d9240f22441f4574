/** The quiz view model: the owner of the session record, of the remaining seconds and
    of the countdown job. The countdown and the delayed advance after an answer are
    explicit operations (`Tick`, `Advance`) instead of background tasks. */
module ViewModel {
  import opened QuizState

  /** Seconds on the clock when the countdown starts: fifteen minutes. */
  const TimerBudget: int := 15 * 60

  /** Everything the view model owns at one moment: the record, the seconds left, and
      whether a countdown job is live. */
  datatype Snapshot = Snapshot(ui: QuizUiState, timeLeft: int, timerRunning: bool)

  /** The clock stays within its budget and a live countdown always has time left. */
  predicate TimerConsistent(v: Snapshot)
  {
    0 <= v.timeLeft <= TimerBudget && (v.timerRunning ==> v.timeLeft > 0)
  }

  predicate Good(v: Snapshot) { Consistent(v.ui) && TimerConsistent(v) }

  // ---------------------------------------------------------------------------
  // The countdown
  // ---------------------------------------------------------------------------

  /** Start (or restart) the countdown: any earlier job is superseded and the clock is
      full again; the record is untouched. */
  function StartTimer(v: Snapshot): (r: Snapshot)
    ensures r.timerRunning && r.timeLeft == TimerBudget && r.ui == v.ui
    ensures Consistent(v.ui) ==> Good(r)
  {
    v.(timeLeft := TimerBudget, timerRunning := true)
  }

  /** Cancel the countdown; the clock keeps the seconds it shows. */
  function StopTimer(v: Snapshot): (r: Snapshot)
    ensures !r.timerRunning && r.timeLeft == v.timeLeft && r.ui == v.ui
    ensures TimerConsistent(v) ==> TimerConsistent(r)
  {
    v.(timerRunning := false)
  }

  /** Finish the test: stop the countdown and mark the session finished. */
  function Finish(v: Snapshot): (r: Snapshot)
    ensures r.ui == FinishTest(v.ui) && !r.timerRunning && r.timeLeft == v.timeLeft
    ensures Good(v) ==> Good(r)
  {
    var stopped := StopTimer(v);
    stopped.(ui := FinishTest(stopped.ui))
  }

  /** One second of a live countdown: the clock drops by one while it is positive, and
      when it is no longer positive the job finishes the test and ends. A stopped
      countdown does nothing. */
  function TickTimer(v: Snapshot): (r: Snapshot)
    ensures !v.timerRunning ==> r == v
    ensures v.timerRunning && v.timeLeft > 1 ==> r == v.(timeLeft := v.timeLeft - 1)
    ensures v.timerRunning && v.timeLeft == 1 ==>
      r.timeLeft == 0 && !r.timerRunning && r.ui == FinishTest(v.ui)
    ensures v.timeLeft >= 0 ==> 0 <= r.timeLeft <= v.timeLeft
    ensures Good(v) ==> Good(r)
  {
    if !v.timerRunning then v
    else
      var w := if v.timeLeft > 0 then v.(timeLeft := v.timeLeft - 1) else v;
      if w.timeLeft > 0 then w else Finish(w)
  }

  /** `n` seconds of the countdown. */
  function Ticks(v: Snapshot, n: nat): (r: Snapshot)
    ensures v.timeLeft >= 0 ==> 0 <= r.timeLeft <= v.timeLeft
    decreases n
  {
    if n == 0 then v else Ticks(TickTimer(v), n - 1)
  }

  /** Along a live countdown, `k` seconds take `k` off the clock; before the clock runs
      out nothing else changes, and the second that empties it finishes the session and
      stops the job. */
  lemma {:induction false} CountdownTicks(v: Snapshot, k: nat)
    requires TimerConsistent(v) && v.timerRunning && k <= v.timeLeft
    ensures Ticks(v, k).timeLeft == v.timeLeft - k
    ensures k < v.timeLeft ==> Ticks(v, k) == v.(timeLeft := v.timeLeft - k)
    ensures k == v.timeLeft ==> Ticks(v, k).ui == FinishTest(v.ui) && !Ticks(v, k).timerRunning
    decreases k
  {
    if k > 0 {
      if v.timeLeft > 1 {
        CountdownTicks(TickTimer(v), k - 1);
      } else {
        assert Ticks(v, k) == TickTimer(v);
      }
    }
  }

  /** With no user action, exactly 900 seconds after a start the clock reads 0 and the
      session is finished, with its counters and index where they were. */
  lemma FullCountdown(v: Snapshot)
    ensures var r := Ticks(StartTimer(v), TimerBudget);
      r.timeLeft == 0 && !r.timerRunning && r.ui == FinishTest(v.ui)
  {
    CountdownTicks(StartTimer(v), TimerBudget);
  }

  // ---------------------------------------------------------------------------
  // Any sequence of operations
  // ---------------------------------------------------------------------------

  /** The operations that reach the view model: the screens' calls, the delayed advance
      after an answer, the countdown, and the two halves of a fetch (restarting the quiz
      is the start of a new fetch). */
  datatype Action =
    | Pick(index: int)
    | SkipPressed
    | AdvanceFired
    | BackPressed
    | ForwardPressed
    | FinishPressed
    | TimerStarted
    | TimerStopped
    | TimerTicked
    | FetchStarted
    | FetchCompleted(outcome: FetchOutcome)

  /** The effect of one operation. */
  function Step(v: Snapshot, a: Action): (r: Snapshot)
    ensures Good(v) ==> Good(r)
  {
    match a
    case Pick(index) => v.(ui := SelectOption(v.ui, index))
    case SkipPressed => v.(ui := SkipQuestion(v.ui))
    case AdvanceFired => v.(ui := NextQuestion(v.ui))
    case BackPressed => v.(ui := GoToPreviousQuestion(v.ui))
    case ForwardPressed => v.(ui := GoToNextQuestion(v.ui))
    case FinishPressed => Finish(v)
    case TimerStarted => StartTimer(v)
    case TimerStopped => StopTimer(v)
    case TimerTicked => TickTimer(v)
    case FetchStarted => v.(ui := BeginFetch(v.ui))
    case FetchCompleted(outcome) => v.(ui := CompleteFetch(v.ui, outcome))
  }

  /** The effect of a sequence of operations, first to last. Every invariant of the record
      and of the clock (streak within the longest streak, counters non-negative, index
      inside the list, clock within its budget) holds after any sequence. */
  function Run(v: Snapshot, actions: seq<Action>): (r: Snapshot)
    ensures Good(v) ==> Good(r)
    decreases |actions|
  {
    if actions == [] then v else Run(Step(v, actions[0]), actions[1..])
  }

  /** The operation loads a new list of questions, the one way to begin a new session. */
  predicate IsReload(a: Action) { a.FetchCompleted? && a.outcome.Loaded? }

  predicate NoReload(actions: seq<Action>)
  {
    forall i :: 0 <= i < |actions| ==> !IsReload(actions[i])
  }

  /** Once finished, a session stays finished until a list of questions is loaded again. */
  lemma {:induction false} FinishedUntilReload(v: Snapshot, actions: seq<Action>)
    requires v.ui.showResult && NoReload(actions)
    ensures Run(v, actions).ui.showResult
    decreases |actions|
  {
    if actions != [] {
      assert !IsReload(actions[0]);
      FinishedUntilReload(Step(v, actions[0]), actions[1..]);
    }
  }

  /** Between two loads the correct and skipped counts never go down. */
  lemma {:induction false} CountersGrowUntilReload(v: Snapshot, actions: seq<Action>)
    requires NoReload(actions)
    ensures Run(v, actions).ui.correctCount >= v.ui.correctCount
    ensures Run(v, actions).ui.skippedCount >= v.ui.skippedCount
    decreases |actions|
  {
    if actions != [] {
      assert !IsReload(actions[0]);
      CountersGrowUntilReload(Step(v, actions[0]), actions[1..]);
    }
  }

  // ---------------------------------------------------------------------------
  // The view model object
  // ---------------------------------------------------------------------------

  /** The view model. `uiState` and `timeLeft` are the two published state holders;
      `timerRunning` says whether the countdown job is live. */
  class QuizViewModel {
    var uiState: QuizUiState
    var timeLeft: int
    var timerRunning: bool

    function State(): Snapshot
      reads this
    {
      Snapshot(uiState, timeLeft, timerRunning)
    }

    predicate Valid()
      reads this
    {
      Good(State())
    }

    /** A new view model holds the default record (loading, nothing loaded), a full clock
        and no countdown. Its first fetch is then completed by `CompleteFetch`. */
    constructor ()
      ensures Valid()
      ensures uiState == Initial() && timeLeft == TimerBudget && !timerRunning
    {
      uiState := Initial();
      timeLeft := TimerBudget;
      timerRunning := false;
    }

    method StartGlobalTimer()
      requires Valid()
      modifies this
      ensures Valid()
      ensures State() == StartTimer(old(State()))
    {
      timerRunning := false;
      timeLeft := TimerBudget;
      timerRunning := true;
    }

    /** Stopping is safe at any moment, even in the middle of a countdown step whose
        clock has just reached 0. */
    method StopGlobalTimer()
      requires Consistent(uiState) && 0 <= timeLeft <= TimerBudget
      modifies this
      ensures Valid()
      ensures State() == StopTimer(old(State()))
    {
      timerRunning := false;
    }

    method FinishTest()
      requires Consistent(uiState) && 0 <= timeLeft <= TimerBudget
      modifies this
      ensures Valid()
      ensures State() == Finish(old(State()))
    {
      StopGlobalTimer();
      uiState := uiState.(showResult := true);
    }

    /** One second of the countdown job. */
    method Tick()
      requires Valid()
      modifies this
      ensures Valid()
      ensures State() == TickTimer(old(State()))
    {
      if timerRunning {
        if timeLeft > 0 {
          timeLeft := timeLeft - 1;
        }
        if timeLeft <= 0 {
          FinishTest();
        }
      }
    }

    /** The countdown job run to its end with nothing in between: the clock counts down
        to 0 and the test is finished, which is what `timeLeft` seconds of `Tick` give. */
    method RunCountdown()
      requires Valid() && timerRunning
      modifies this
      ensures Valid()
      ensures timeLeft == 0 && !timerRunning && uiState == QuizState.FinishTest(old(uiState))
      ensures State() == Ticks(old(State()), old(timeLeft))
    {
      while timeLeft > 0
        invariant 0 <= timeLeft <= old(timeLeft)
        invariant uiState == old(uiState) && timerRunning
        decreases timeLeft
      {
        timeLeft := timeLeft - 1;
      }
      FinishTest();
      CountdownTicks(old(State()), old(timeLeft));
    }

    /** The first half of a fetch (also what restarting the quiz does). */
    method BeginFetch()
      requires Valid()
      modifies this
      ensures Valid()
      ensures uiState == QuizState.BeginFetch(old(uiState))
      ensures timeLeft == old(timeLeft) && timerRunning == old(timerRunning)
    {
      uiState := uiState.(isLoading := true, error := None);
    }

    /** The second half of a fetch, once the question source has answered. */
    method CompleteFetch(outcome: FetchOutcome)
      requires Valid()
      modifies this
      ensures Valid()
      ensures uiState == QuizState.CompleteFetch(old(uiState), outcome)
      ensures timeLeft == old(timeLeft) && timerRunning == old(timerRunning)
    {
      match outcome
      case Loaded(qs) =>
        uiState := uiState.(questions := qs, isLoading := false, error := None,
                            currentIndex := 0, selectedOption := None, showAnswer := false,
                            correctCount := 0, skippedCount := 0, streak := 0,
                            longestStreak := 0, showResult := false);
      case Failed =>
        uiState := uiState.(isLoading := false, error := Some(FetchErrorMessage));
    }

    /** A whole fetch whose answer comes back before anything else happens. */
    method FetchQuestions(outcome: FetchOutcome)
      requires Valid()
      modifies this
      ensures Valid()
      ensures uiState == QuizState.CompleteFetch(QuizState.BeginFetch(old(uiState)), outcome)
      ensures timeLeft == old(timeLeft) && timerRunning == old(timerRunning)
    {
      BeginFetch();
      CompleteFetch(outcome);
    }

    /** Restarting fetches the questions again; the clock is not touched here. */
    method RestartQuiz(outcome: FetchOutcome)
      requires Valid()
      modifies this
      ensures Valid()
      ensures uiState == QuizState.CompleteFetch(QuizState.BeginFetch(old(uiState)), outcome)
      ensures timeLeft == old(timeLeft) && timerRunning == old(timerRunning)
    {
      FetchQuestions(outcome);
    }

    method SelectOption(index: int)
      requires Valid()
      modifies this
      ensures Valid()
      ensures uiState == QuizState.SelectOption(old(uiState), index)
      ensures timeLeft == old(timeLeft) && timerRunning == old(timerRunning)
    {
      var state := uiState;
      if !(0 <= state.currentIndex < |state.questions|) {
        return;
      }
      var question := state.questions[state.currentIndex];
      var isCorrect := question.correctOptionIndex == index;
      var newStreak := if isCorrect then state.streak + 1 else 0;
      var newLongest := Max(state.longestStreak, newStreak);
      uiState := state.(selectedOption := Some(index), showAnswer := true,
                        correctCount := if isCorrect then state.correctCount + 1 else state.correctCount,
                        streak := newStreak, longestStreak := newLongest);
    }

    method NextQuestion()
      requires Valid()
      modifies this
      ensures Valid()
      ensures uiState == QuizState.NextQuestion(old(uiState))
      ensures timeLeft == old(timeLeft) && timerRunning == old(timerRunning)
    {
      var state := uiState;
      var nextIndex := state.currentIndex + 1;
      if nextIndex >= |state.questions| {
        uiState := state.(showResult := true);
      } else {
        uiState := state.(currentIndex := nextIndex, selectedOption := None, showAnswer := false);
      }
    }

    /** The advance that an answer schedules two seconds later. */
    method Advance()
      requires Valid()
      modifies this
      ensures Valid()
      ensures uiState == QuizState.NextQuestion(old(uiState))
      ensures timeLeft == old(timeLeft) && timerRunning == old(timerRunning)
    {
      NextQuestion();
    }

    /** Skip writes the record once, then advances, which writes it again. */
    method SkipQuestion()
      requires Valid()
      modifies this
      ensures Valid()
      ensures uiState == QuizState.SkipQuestion(old(uiState))
      ensures timeLeft == old(timeLeft) && timerRunning == old(timerRunning)
    {
      var state := uiState;
      uiState := state.(skippedCount := state.skippedCount + 1, selectedOption := None,
                        showAnswer := false, streak := 0);
      NextQuestion();
    }

    method GoToPreviousQuestion()
      requires Valid()
      modifies this
      ensures Valid()
      ensures uiState == QuizState.GoToPreviousQuestion(old(uiState))
      ensures timeLeft == old(timeLeft) && timerRunning == old(timerRunning)
    {
      var state := uiState;
      if state.currentIndex > 0 {
        uiState := state.(currentIndex := state.currentIndex - 1, selectedOption := None,
                          showAnswer := false);
      }
    }

    method GoToNextQuestion()
      requires Valid()
      modifies this
      ensures Valid()
      ensures uiState == QuizState.GoToNextQuestion(old(uiState))
      ensures timeLeft == old(timeLeft) && timerRunning == old(timerRunning)
    {
      var state := uiState;
      if state.currentIndex < |state.questions| - 1 {
        uiState := state.(currentIndex := state.currentIndex + 1, selectedOption := None,
                          showAnswer := false);
      }
    }
  }
}
