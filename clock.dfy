/**
 * The engine's countdown/repeat timer, as the game systems use it: a timer
 * is started with a duration and a mode, is ticked with the frame's delta,
 * and reports whether it finished during that tick ("just finished") and
 * whether it is in the finished state.
 */
module Clock {

  /**
   * A span of engine time. The engine keeps durations as unsigned whole
   * nanoseconds; so does the model.
   */
  type Duration = nat

  /** One second, in the unit of Duration. */
  const SECOND: nat := 1_000_000_000

  datatype TimerMode = Once | Repeating

  datatype Timer = Timer(
    duration: Duration,
    mode: TimerMode,
    elapsed: Duration,
    finished: bool,
    timesFinishedThisTick: nat)

  /** A fresh timer: nothing elapsed, not finished. */
  function FromSeconds(d: Duration, mode: TimerMode): (t: Timer)
    ensures t.duration == d && t.mode == mode
    ensures t.elapsed == 0 && !t.finished && !JustFinished(t)
  {
    Timer(d, mode, 0, false, 0)
  }

  /** The timer crossed its duration during the last tick. */
  predicate JustFinished(t: Timer) {
    t.timesFinishedThisTick > 0
  }

  /** The timer is in the finished state (a Once timer stays there). */
  predicate Finished(t: Timer) {
    t.finished
  }

  /**
   * One tick by delta. A finished Once timer stays put and reports no new
   * completion. Otherwise the elapsed time grows by delta; reaching the
   * duration finishes the timer, a Once timer stopping at its duration and a
   * Repeating timer wrapping around, counting the periods it completed.
   */
  function Tick(t: Timer, delta: Duration): (r: Timer)
    ensures r.duration == t.duration && r.mode == t.mode
    ensures t.mode == Once && t.finished ==> r.finished && !JustFinished(r) && r.elapsed == t.elapsed
    ensures !(t.mode == Once && t.finished) ==>
              (JustFinished(r) <==> t.elapsed + delta >= t.duration) && (r.finished <==> JustFinished(r))
    ensures t.mode == Repeating && 0 < t.duration ==> r.elapsed < t.duration
    ensures !(t.mode == Once && t.finished) && t.elapsed + delta < t.duration ==> r.elapsed == t.elapsed + delta
    ensures t.mode == Once && !t.finished && t.elapsed + delta >= t.duration ==> r.elapsed == t.duration
    ensures t.mode == Repeating && 0 < t.duration ==>
              r.elapsed == (t.elapsed + delta) % t.duration && r.timesFinishedThisTick == (t.elapsed + delta) / t.duration
  {
    if t.mode == Once && t.finished then
      t.(timesFinishedThisTick := 0)
    else
      var e := t.elapsed + delta;
      if e < t.duration then
        t.(elapsed := e, finished := false, timesFinishedThisTick := 0)
      else if t.mode == Once then
        t.(elapsed := t.duration, finished := true, timesFinishedThisTick := 1)
      else if t.duration == 0 then
        // A zero-length Repeating timer: the engine's checked division and
        // remainder by zero fall back to u32::MAX completions and zero elapsed.
        t.(elapsed := 0, finished := true, timesFinishedThisTick := 0xFFFF_FFFF)
      else
        t.(elapsed := e % t.duration, finished := true, timesFinishedThisTick := e / t.duration)
  }

  /** The timer after being ticked by each delta of ds in turn. */
  function TickAll(t: Timer, ds: seq<Duration>): Timer
  {
    if ds == [] then t else Tick(TickAll(t, ds[..|ds| - 1]), ds[|ds| - 1])
  }

  function Sum(ds: seq<Duration>): (s: Duration)
  {
    if ds == [] then 0 else Sum(ds[..|ds| - 1]) + ds[|ds| - 1]
  }

  function Min(a: int, b: int): int {
    if a <= b then a else b
  }

  /**
   * A fresh Once timer of duration d, after any run of ticks, has elapsed
   * the total time ticked capped at d, and is finished exactly when that
   * total has reached d.
   */
  lemma {:induction false} FreshOnceRun(d: Duration, ds: seq<Duration>)
    ensures TickAll(FromSeconds(d, Once), ds).elapsed == Min(Sum(ds), d)
    ensures TickAll(FromSeconds(d, Once), ds).finished <==> (ds != [] && Sum(ds) >= d)
    ensures TickAll(FromSeconds(d, Once), ds).mode == Once
    ensures TickAll(FromSeconds(d, Once), ds).duration == d
  {
    if ds != [] {
      FreshOnceRun(d, ds[..|ds| - 1]);
    }
  }

  /**
   * A fresh Once timer never reports "just finished" before the total time
   * ticked has reached its duration.
   */
  lemma OnceNotEarly(d: Duration, ds: seq<Duration>)
    requires JustFinished(TickAll(FromSeconds(d, Once), ds))
    ensures Sum(ds) >= d
  {
    assert ds != [];
    var pre := ds[..|ds| - 1];
    FreshOnceRun(d, pre);
    var t := TickAll(FromSeconds(d, Once), pre);
    // a finished Once timer reports no new completion
    assert !t.finished;
    assert t.elapsed + ds[|ds| - 1] >= d;
    assert t.elapsed <= Sum(pre);
  }

  /** Number of ticks of the run ds in which t reported "just finished". */
  function Completions(t: Timer, ds: seq<Duration>): nat
  {
    if ds == [] then 0
    else Completions(t, ds[..|ds| - 1]) + (if JustFinished(TickAll(t, ds)) then 1 else 0)
  }

  /** A Once timer reports "just finished" in at most one tick of any run, and never once finished. */
  lemma {:induction false} OnceCompletesAtMostOnce(t: Timer, ds: seq<Duration>)
    requires t.mode == Once
    ensures Completions(t, ds) <= 1
    ensures Completions(t, ds) == 1 ==> TickAll(t, ds).finished
    ensures t.finished ==> Completions(t, ds) == 0 && TickAll(t, ds).finished
    ensures TickAll(t, ds).mode == Once
  {
    if ds != [] {
      OnceCompletesAtMostOnce(t, ds[..|ds| - 1]);
    }
  }
}
