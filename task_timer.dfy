/**
 * The task timer of the usability tool's task page: two optional session keys,
 * `start_time` and `task_duration`, set by the Start and Stop buttons and removed
 * when a task result is saved. The clock is a parameter, read in whole ticks.
 */
module TaskTimer {
  import opened Optional

  datatype Timer = Timer(startTime: Option<int>, taskDuration: Option<int>)

  /** Neither key present: a new session, or one whose last task was saved. */
  const Idle := Timer(None, None)

  /** Start Task Timer: records the clock, overwriting an earlier start. */
  function Start(t: Timer, now: int): (t': Timer)
    ensures t'.startTime == Some(now) && t'.taskDuration == t.taskDuration
  {
    t.(startTime := Some(now))
  }

  /** Stop Task Timer: with a start recorded, stores the time since it; without
      one, nothing happens. */
  function Stop(t: Timer, now: int): (t': Timer)
    ensures t.startTime.None? ==> t' == t
    ensures t.startTime.Some? ==> t'.startTime == t.startTime && t'.taskDuration == Some(now - t.startTime.value)
  {
    match t.startTime
    case None => t
    case Some(s) => t.(taskDuration := Some(now - s))
  }

  /** A button press on the task page. */
  datatype Press = StartPress(now: int) | StopPress(now: int) | SavePress

  /** The timer after one press; saving removes both keys. */
  function Step(t: Timer, p: Press): (t': Timer)
    ensures p.SavePress? ==> t' == Idle
    ensures p.StartPress? ==> t'.startTime == Some(p.now) && t'.taskDuration == t.taskDuration
    ensures p.StopPress? ==> t'.startTime == t.startTime
    ensures p.StopPress? ==> t'.taskDuration == if t.startTime.Some? then Some(p.now - t.startTime.value)
                                                 else t.taskDuration
  {
    match p
    case StartPress(now) => Start(t, now)
    case StopPress(now) => Stop(t, now)
    case SavePress => Idle
  }

  /** The timer after a sequence of presses. */
  function Run(t: Timer, ps: seq<Press>): Timer
    decreases |ps|
  {
    if ps == [] then t else Run(Step(t, ps[0]), ps[1..])
  }

  /** A duration is only ever stored while a start is recorded. */
  predicate Paired(t: Timer)
  {
    t.taskDuration.Some? ==> t.startTime.Some?
  }

  /** Start then Stop stores the clock difference, which is not negative when the
      clock has not gone back. */
  lemma StartThenStop(t: Timer, started: int, stopped: int)
    ensures Run(t, [StartPress(started), StopPress(stopped)]).taskDuration == Some(stopped - started)
    ensures started <= stopped ==> Run(t, [StartPress(started), StopPress(stopped)]).taskDuration.value >= 0
  {
    var ps := [StartPress(started), StopPress(stopped)];
    assert ps[1..] == [StopPress(stopped)] && ps[1..][1..] == [];
    assert Run(t, ps) == Run(Start(t, started), [StopPress(stopped)]);
    assert Run(t, ps) == Stop(Start(t, started), stopped);
  }

  /** Every press keeps the pairing of duration and start. */
  lemma StepKeepsPaired(t: Timer, p: Press)
    requires Paired(t)
    ensures Paired(Step(t, p))
  {
  }

  /** From any paired state, in particular from Idle, every sequence of presses
      ends in a paired state. */
  lemma {:induction false} RunKeepsPaired(t: Timer, ps: seq<Press>)
    requires Paired(t)
    ensures Paired(Run(t, ps))
    decreases |ps|
  {
    if ps != [] {
      StepKeepsPaired(t, ps[0]);
      RunKeepsPaired(Step(t, ps[0]), ps[1..]);
    }
  }

  /** Running two sequences is running the first, then the second. */
  lemma {:induction false} RunConcat(t: Timer, ps: seq<Press>, qs: seq<Press>)
    ensures Run(t, ps + qs) == Run(Run(t, ps), qs)
    decreases |ps|
  {
    if ps == [] {
      assert ps + qs == qs;
    } else {
      assert (ps + qs)[0] == ps[0] && (ps + qs)[1..] == ps[1..] + qs;
      RunConcat(Step(t, ps[0]), ps[1..], qs);
    }
  }

  /** Whatever happened before, a save leaves the timer idle. */
  lemma SaveResets(t: Timer, ps: seq<Press>)
    ensures Run(t, ps + [SavePress]) == Idle
  {
    RunConcat(t, ps, [SavePress]);
  }

  /** Presses of Stop alone never store a duration in an idle timer. */
  lemma {:induction false} StopsAloneStoreNothing(ps: seq<Press>)
    requires forall i :: 0 <= i < |ps| ==> ps[i].StopPress?
    ensures Run(Idle, ps) == Idle
    decreases |ps|
  {
    if ps != [] {
      StopsAloneStoreNothing(ps[1..]);
    }
  }
}
