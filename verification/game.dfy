/** The PM2.5 prediction game of `src/components/models/prediction-game.tsx`:
    a countdown, a drifting actual value, and scoring by accuracy, streak and
    level. Each handler and timer callback is a transition on `GameState`;
    every `Math.random()` draw is a parameter in [0, 1). */
module PredictionGame {
  import opened Numeric
  import opened Optional

  datatype Entry = Entry(predicted: int, actual: real, accuracy: real)

  datatype GameState = GameState(
    score: int,
    level: int,
    streak: int,
    timeLeft: int,
    currentPrediction: Option<int>,
    actualValue: real,
    isGameActive: bool,
    history: seq<Entry>)

  const RoundLength := 30

  const InitialGame := GameState(0, 1, 0, RoundLength, None, 35.0, false, [])

  predicate IsDraw(r: real) { 0.0 <= r < 1.0 }

  /** The prediction range input spans 0..100. */
  predicate IsSliderValue(v: int) { 0 <= v <= 100 }

  predicate InPercentRange(x: real) { 0.0 <= x <= 100.0 }

  /** `100 - |predicted - actual|`. */
  function Accuracy(predicted: int, actual: real): (a: real)
    ensures a <= 100.0
    ensures a == 100.0 <==> predicted as real == actual
    ensures a > 80.0 <==> Abs(predicted as real - actual) < 20.0
    ensures IsSliderValue(predicted) && InPercentRange(actual) ==> InPercentRange(a)
  {
    100.0 - Abs(predicted as real - actual)
  }

  /** `Math.floor(accuracy * level)`. */
  function Points(accuracy: real, level: int): (p: int)
    ensures accuracy >= 0.0 && level >= 1 ==> p >= 0
    ensures accuracy <= 100.0 && level >= 0 ==> p <= 100 * level
    ensures p as real <= accuracy * level as real < p as real + 1.0
  {
    (accuracy * level as real).Floor
  }

  /** `Math.floor(score / 500) + 1`. */
  function LevelFor(score: int): (l: int)
    ensures score >= 0 ==> l >= 1
    ensures 500 * (l - 1) <= score < 500 * l
  {
    (score as real / 500.0).Floor + 1
  }

  /** The invariant every reachable game state keeps. */
  predicate Valid(s: GameState)
  {
    && 0 <= s.score
    && 1 <= s.level
    && 0 <= s.streak
    && 0 <= s.timeLeft <= RoundLength
    && InPercentRange(s.actualValue)
    && (s.currentPrediction.Some? ==> IsSliderValue(s.currentPrediction.value))
    && (forall i :: 0 <= i < |s.history| ==> InPercentRange(s.history[i].actual))
  }

  lemma InitialGameValid()
    ensures Valid(InitialGame)
  {
  }

  /** `startGame`; `r` is the draw that places the first actual value. */
  function StartGame(r: real): (s: GameState)
    requires IsDraw(r)
    ensures s.score == 0 && s.level == 1 && s.streak == 0 && s.timeLeft == RoundLength
    ensures s.currentPrediction == None && s.history == [] && s.isGameActive
    ensures 0.0 <= s.actualValue < 100.0
    ensures Valid(s)
  {
    GameState(0, 1, 0, RoundLength, None, r * 100.0, true, [])
  }

  /** One run of the countdown effect: a one-second tick while the game is
      active with time left, deactivation once the time is up. */
  function Tick(s: GameState, r: real): (t: GameState)
    requires IsDraw(r)
    ensures s.isGameActive && s.timeLeft > 0 ==>
      t.timeLeft == s.timeLeft - 1 && InPercentRange(t.actualValue) && t.isGameActive
    ensures s.isGameActive && s.timeLeft > 0 && InPercentRange(s.actualValue) ==>
      Abs(t.actualValue - s.actualValue) <= 5.0
    ensures s.timeLeft == 0 ==> !t.isGameActive && t.(isGameActive := s.isGameActive) == s
    ensures !s.isGameActive && s.timeLeft != 0 ==> t == s
    ensures t.score == s.score && t.level == s.level && t.streak == s.streak
    ensures t.currentPrediction == s.currentPrediction && t.history == s.history
    ensures Valid(s) ==> Valid(t)
  {
    if s.isGameActive && s.timeLeft > 0 then
      ClampNonExpansive(0.0, 100.0, s.actualValue, (r - 0.5) * 10.0);
      s.(timeLeft := s.timeLeft - 1, actualValue := Clamp(0.0, 100.0, s.actualValue + (r - 0.5) * 10.0))
    else if s.timeLeft == 0 then
      s.(isGameActive := false)
    else
      s
  }

  /** `submitPrediction` with the slider at `selected`. The new level is
      computed from the score before this submission's points are added. */
  function Submit(s: GameState, selected: int): (t: GameState)
    ensures Accuracy(selected, s.actualValue) > 80.0 ==> t.streak == s.streak + 1
    ensures Accuracy(selected, s.actualValue) <= 80.0 ==> t.streak == 0
    ensures t.level == LevelFor(s.score)
    ensures s.score >= 0 ==> t.level >= 1
    ensures t.currentPrediction == Some(selected)
    ensures |t.history| == |s.history| + 1 && t.history[..|s.history|] == s.history
    ensures t.history[|s.history|] == Entry(selected, s.actualValue, Accuracy(selected, s.actualValue))
    ensures t.timeLeft == s.timeLeft && t.actualValue == s.actualValue && t.isGameActive == s.isGameActive
    ensures t.score == s.score + Points(Accuracy(selected, s.actualValue), s.level)
    ensures Valid(s) && IsSliderValue(selected) ==> t.score >= s.score && Valid(t)
  {
    var accuracy := Accuracy(selected, s.actualValue);
    var points := Points(accuracy, s.level);
    s.(score := s.score + points,
       streak := if accuracy > 80.0 then s.streak + 1 else 0,
       level := LevelFor(s.score),
       currentPrediction := Some(selected),
       history := s.history + [Entry(selected, s.actualValue, accuracy)])
  }

  /** The timeout two seconds after a submission; `r` drives the drift. */
  function ClearResult(s: GameState, r: real): (t: GameState)
    requires IsDraw(r)
    ensures t.currentPrediction == None
    ensures InPercentRange(t.actualValue)
    ensures InPercentRange(s.actualValue) ==> Abs(t.actualValue - s.actualValue) <= 7.5
    ensures t.(currentPrediction := s.currentPrediction, actualValue := s.actualValue) == s
    ensures Valid(s) ==> Valid(t)
  {
    ClampNonExpansive(0.0, 100.0, s.actualValue, (r - 0.5) * 15.0);
    s.(currentPrediction := None, actualValue := Clamp(0.0, 100.0, s.actualValue + (r - 0.5) * 15.0))
  }

  /** The submit button is shown only while the game is active and is
      disabled while a result is displayed. */
  predicate CanSubmit(s: GameState)
  {
    s.isGameActive && s.currentPrediction.None?
  }


  /** The level lags: a submission that lifts the score past 500 leaves the
      level at 1 until the next submission. */
  lemma LevelLagsOneSubmission()
    ensures var t := Submit(GameState(490, 1, 0, 20, None, 50.0, true, []), 50);
            t.score == 590 && t.level == 1 && LevelFor(t.score) == 2
  {
  }

  /** Every event the component reacts to. */
  datatype Event =
    | StartEvent(draw: real)
    | TickEvent(draw: real)
    | SubmitEvent(selected: int)
    | ClearEvent(draw: real)

  predicate WellFormed(e: Event)
  {
    match e
    case StartEvent(r) => IsDraw(r)
    case TickEvent(r) => IsDraw(r)
    case SubmitEvent(v) => IsSliderValue(v)
    case ClearEvent(r) => IsDraw(r)
  }

  function Step(s: GameState, e: Event): GameState
    requires WellFormed(e)
  {
    match e
    case StartEvent(r) => StartGame(r)
    case TickEvent(r) => Tick(s, r)
    case SubmitEvent(v) => Submit(s, v)
    case ClearEvent(r) => ClearResult(s, r)
  }

  function Run(s: GameState, events: seq<Event>): GameState
    requires forall i :: 0 <= i < |events| ==> WellFormed(events[i])
    decreases |events|
  {
    if events == [] then s else Run(Step(s, events[0]), events[1..])
  }

  /** Any sequence of events from the initial state keeps score, level,
      streak, time and actual value in their ranges. */
  lemma {:induction false} RunKeepsValid(s: GameState, events: seq<Event>)
    requires forall i :: 0 <= i < |events| ==> WellFormed(events[i])
    requires Valid(s)
    ensures Valid(Run(s, events))
    decreases |events|
  {
    if events != [] {
      RunKeepsValid(Step(s, events[0]), events[1..]);
    }
  }

  function TickRun(s: GameState, draws: seq<real>): GameState
    requires forall i :: 0 <= i < |draws| ==> IsDraw(draws[i])
    decreases |draws|
  {
    if draws == [] then s else TickRun(Tick(s, draws[0]), draws[1..])
  }

  /** An active game with `n` seconds left is still active, with no time
      left, after `n` ticks, and one more run of the effect ends it. */
  lemma {:induction false} CountdownEndsGame(s: GameState, draws: seq<real>)
    requires forall i :: 0 <= i < |draws| ==> IsDraw(draws[i])
    requires s.isGameActive && |draws| == s.timeLeft
    ensures TickRun(s, draws).timeLeft == 0 && TickRun(s, draws).isGameActive
    ensures !Tick(TickRun(s, draws), 0.0).isGameActive
    decreases |draws|
  {
    if draws != [] {
      CountdownEndsGame(Tick(s, draws[0]), draws[1..]);
    }
  }

  /** Countdown ticks never touch a shown prediction, so they never re-enable
      the submit button. */
  lemma {:induction false} TicksKeepLock(s: GameState, draws: seq<real>)
    requires forall i :: 0 <= i < |draws| ==> IsDraw(draws[i])
    requires s.currentPrediction.Some?
    ensures TickRun(s, draws).currentPrediction == s.currentPrediction
    ensures !CanSubmit(TickRun(s, draws))
    decreases |draws|
  {
    if draws != [] {
      TicksKeepLock(Tick(s, draws[0]), draws[1..]);
    }
  }

  /** A submission locks the button; no number of countdown ticks releases
      it, the clearing timeout does (while the game is still active). */
  lemma SubmitLocksUntilCleared(s: GameState, selected: int, draws: seq<real>, r: real)
    requires forall i :: 0 <= i < |draws| ==> IsDraw(draws[i])
    requires IsDraw(r)
    ensures !CanSubmit(Submit(s, selected))
    ensures !CanSubmit(TickRun(Submit(s, selected), draws))
    ensures s.isGameActive ==> CanSubmit(ClearResult(Submit(s, selected), r))
  {
    TicksKeepLock(Submit(s, selected), draws);
  }

  // ---------------------------------------------------------------------
  // AI recommendation (`getAIRecommendation`)
  // ---------------------------------------------------------------------

  function Sum(xs: seq<real>): real
    decreases |xs|
  {
    if xs == [] then 0.0 else xs[0] + Sum(xs[1..])
  }

  function Mean(xs: seq<real>): real
    requires xs != []
  {
    Sum(xs) / |xs| as real
  }

  lemma {:induction false} SumBounds(xs: seq<real>)
    requires forall i :: 0 <= i < |xs| ==> InPercentRange(xs[i])
    ensures 0.0 <= Sum(xs) <= 100.0 * |xs| as real
    decreases |xs|
  {
    if xs != [] {
      SumBounds(xs[1..]);
    }
  }

  /** The mean of percentages is a percentage. */
  lemma MeanInRange(xs: seq<real>)
    requires xs != []
    requires forall i :: 0 <= i < |xs| ==> InPercentRange(xs[i])
    ensures InPercentRange(Mean(xs))
  {
    SumBounds(xs);
    var n := |xs| as real;
    assert Sum(xs) / n <= 100.0 * n / n;
  }

  /** `history.slice(-3).map(h => h.actual)`. */
  function RecentActuals(history: seq<Entry>): (xs: seq<real>)
    ensures |xs| == if |history| < 3 then |history| else 3
    ensures forall i :: 0 <= i < |xs| ==> xs[i] == history[|history| - |xs| + i].actual
  {
    var k := if |history| < 3 then |history| else 3;
    seq(k, i requires 0 <= i < k => history[|history| - k + i].actual)
  }

  /** In a consistent game the recent trend is itself a percentage. */
  lemma RecentTrendInRange(s: GameState)
    ensures |s.history| >= 2 && Valid(s) ==> InPercentRange(Mean(RecentActuals(s.history)))
  {
    if |s.history| >= 2 && Valid(s) {
      MeanInRange(RecentActuals(s.history));
    }
  }

  /** `getAIRecommendation`; `r` is the jitter draw. */
  function AiRecommendation(s: GameState, r: real): (x: real)
    requires IsDraw(r)
    ensures InPercentRange(x)
    ensures |s.history| < 2 && InPercentRange(s.actualValue) ==> Abs(x - s.actualValue) <= 2.5
    ensures |s.history| >= 2 && Valid(s) ==> Abs(x - Mean(RecentActuals(s.history))) <= 2.5
  {
    var trend := RecentActuals(s.history);
    var base := if |trend| > 1 then Mean(trend) else s.actualValue;
    RecentTrendInRange(s);
    ClampNonExpansive(0.0, 100.0, base, (r - 0.5) * 5.0);
    Clamp(0.0, 100.0, base + (r - 0.5) * 5.0)
  }
}
