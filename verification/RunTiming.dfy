/** The two timers of the manage loop: what a deadline means, and that the loop ends. */
module RunTiming {
  import opened RunModel
  import opened RunBytes
  import opened RunPolls
  import RunHandshake

  // ----- what a deadline means

  ghost predicate TimerInv(c: Config, k: Control) {
    var m, h := k.mgr, k.hist;
    Managing(m.phase) ==>
      && h.raisedAt <= h.now && m.deadline.left <= c.deadline
      && (m.info.left > 0 ==> !m.info.fired)
      && (if m.phase.Polling? then m.info == Timer(0, false) else m.info.fired || m.info.left >= 1)
      && (h.stale ==> m.deadline.fired)
      && (!h.stale && m.deadline.fired ==> h.now - h.raisedAt >= c.deadline && m.deadline.left == 0)
      && (!m.deadline.fired ==> m.deadline.left >= 1 && m.deadline.left + (h.now - h.raisedAt) == c.deadline)
  }

  lemma StepKeepsTimers(c: Config, s: State, step: Step)
    requires TimerInv(c, s.k) && Enabled(c, s, step)
    ensures TimerInv(c, Apply(c, s, step).k)
    ensures Apply(c, s, step).k.hist.now >= s.k.hist.now
    ensures Managing(Apply(c, s, step).k.mgr.phase) ==> Managing(s.k.mgr.phase)
  {
  }

  lemma {:induction false} RunKeepsTimers(c: Config, s: State, steps: seq<Step>)
    requires TimerInv(c, s.k) && Runnable(c, s, steps)
    ensures TimerInv(c, Run(c, s, steps).k)
    ensures Managing(Run(c, s, steps).k.mgr.phase) ==> Managing(s.k.mgr.phase)
    decreases |steps|
  {
    if steps != [] {
      StepKeepsTimers(c, s, steps[0]);
      RunKeepsTimers(c, Apply(c, s, steps[0]), steps[1..]);
    }
  }

  lemma ReachableTimers(c: Config, s: State)
    requires Reachable(c, s)
    ensures TimerInv(c, s.k)
  {
    var steps :| Runnable(c, Init(c), steps) && Run(c, Init(c), steps) == s;
    RunKeepsTimers(c, Init(c), steps);
  }

  /** The default case sees a total larger than any before. */
  predicate Raises(s: State) { s.k.mgr.phase == Deciding && s.k.mgr.curr > s.k.mgr.last }

  /** A raise is never forgotten: the recorded time of the last one only moves forward. */
  lemma {:induction false} RaiseRecorded(c: Config, s: State, steps: seq<Step>)
    requires TimerInv(c, s.k) && Managing(s.k.mgr.phase) && Runnable(c, s, steps)
    ensures Managing(Run(c, s, steps).k.mgr.phase) ==> Run(c, s, steps).k.hist.raisedAt >= s.k.hist.raisedAt
    decreases |steps|
  {
    if steps != [] {
      var next := Apply(c, s, steps[0]);
      StepKeepsTimers(c, s, steps[0]);
      RunKeepsTimers(c, next, steps[1..]);
      if Managing(next.k.mgr.phase) {
        RaiseRecorded(c, next, steps[1..]);
      }
    }
  }

  /**
   * A deadline means a stall: when the deadline case can be taken, every default case that saw a strictly
   * larger total lies at least the whole deadline interval back, provided the last of them reset a timer
   * whose channel was still empty.
   */
  lemma DeadlineMeansStall(c: Config, s: State, steps: seq<Step>)
    requires Reachable(c, s) && Raises(s)
    requires Runnable(c, Apply(c, s, OnManager(Decide)), steps)
    requires var s' := Run(c, Apply(c, s, OnManager(Decide)), steps);
      Enabled(c, s', OnManager(DeadlineBranch)) && !s'.k.hist.stale
    ensures Run(c, Apply(c, s, OnManager(Decide)), steps).k.hist.now >= s.k.hist.now + c.deadline
  {
    ReachableTimers(c, s);
    var s1 := Apply(c, s, OnManager(Decide));
    StepKeepsTimers(c, s, OnManager(Decide));
    RunKeepsTimers(c, s1, steps);
    if Managing(s1.k.mgr.phase) {
      RaiseRecorded(c, s1, steps);
    }
  }

  /** The deadline is ready and the manager is not inside its default case, or the loop has ended otherwise. */
  predicate Overdue(m: Manager) {
    m.phase != Deciding && !m.verdict.Finished? && (Managing(m.phase) ==> m.deadline.fired)
  }

  /**
   * A ready deadline is final: from then on the default case is closed, so whatever else happens, however
   * many bytes still arrive and are polled, no continuation ends through the finished branch.
   */
  lemma {:induction false} OverdueNeverFinishes(c: Config, s: State, steps: seq<Step>)
    requires Overdue(s.k.mgr) && Runnable(c, s, steps)
    ensures Overdue(Run(c, s, steps).k.mgr) && OnManager(DefaultBranch) !in steps
    decreases |steps|
  {
    if steps != [] {
      OverdueNeverFinishes(c, Apply(c, s, steps[0]), steps[1..]);
    }
  }

  /**
   * The exact exception: right after a raise that does not finish the run, the deadline case is open at
   * once (with no time passed) if and only if the timer had expired between the select and its reset,
   * because `Reset` leaves the old value in the channel. Such a run can no longer finish.
   */
  lemma ResetDefeatedIff(c: Config, s: State)
    requires Reachable(c, s) && Raises(s) && s.k.mgr.curr < c.total && c.deadline >= 1
    ensures var s' := Apply(c, s, OnManager(Decide));
      && s'.k.hist.now == s'.k.hist.raisedAt && (s'.k.hist.stale <==> s.k.mgr.deadline.fired)
      && (Enabled(c, s', OnManager(DeadlineBranch)) <==> s.k.mgr.deadline.fired)
      && (s.k.mgr.deadline.fired ==>
            forall steps :: Runnable(c, s', steps) ==> !Run(c, s', steps).k.mgr.verdict.Finished?)
  {
    RunHandshake.ReachableHand(c, s);
    var s' := Apply(c, s, OnManager(Decide));
    if s.k.mgr.deadline.fired {
      forall steps | Runnable(c, s', steps) ensures !Run(c, s', steps).k.mgr.verdict.Finished? {
        OverdueNeverFinishes(c, s', steps);
      }
    }
  }

  // ----- the loop ends

  /** The select takes the info case although the deadline case is ready as well: the choice is random. */
  predicate Overlooks(s: State, step: Step) {
    step == OnManager(InfoBranch) && s.k.mgr.deadline.fired
  }

  function Overlooked(c: Config, s: State, steps: seq<Step>): nat
    requires Runnable(c, s, steps)
    decreases |steps|
  {
    if steps == [] then 0
    else (if Overlooks(s, steps[0]) then 1 else 0) + Overlooked(c, Apply(c, s, steps[0]), steps[1..])
  }

  /** Steps of the manage loop other than an idle turn: polling, raising, and time before the deadline. */
  predicate Progress(s: State, step: Step) {
    Managing(s.k.mgr.phase) &&
    match step
    case OnManager(op) => op in {InfoBranch, PollRead, PollDone} || (op.Decide? && Raises(s))
    case Tick => !s.k.mgr.deadline.fired
    case _ => false
  }

  function ProgressSteps(c: Config, s: State, steps: seq<Step>): nat
    requires Runnable(c, s, steps)
    decreases |steps|
  {
    if steps == [] then 0
    else (if Progress(s, steps[0]) then 1 else 0) + ProgressSteps(c, Apply(c, s, steps[0]), steps[1..])
  }

  /** Bytes that can still raise `lastSrvBytes`. */
  function Unseen(c: Config, s: State): int { c.workers * c.streamBytes - s.k.mgr.last }

  function TicksLeft(s: State): nat {
    if s.k.mgr.deadline.fired then 0 else s.k.mgr.deadline.left
  }

  function PollLeft(c: Config, s: State): int {
    match s.k.mgr.phase
    case Polling(base, counts) => c.workers + 1 - |counts|
    case _ => if s.k.mgr.info.fired && !s.k.mgr.deadline.fired then c.workers + 2 else 0
  }

  /** The lexicographic measure (unseen bytes, ticks to the deadline, poll steps left) as one number. */
  function Weigh(c: Config, unseen: int, ticks: int, poll: int): int {
    (unseen * (c.deadline + 1) + ticks) * (c.workers + 3) + poll
  }

  function Measure(c: Config, s: State): int { Weigh(c, Unseen(c, s), TicksLeft(s), PollLeft(c, s)) }

  lemma HigherDigit(high: int, high': int, base: nat, low: int, low': int)
    requires high' < high && 0 <= low && 0 <= low' < base
    ensures high' * base + low' < high * base + low
  {
    assert (high - high' - 1) * base == high * base - high' * base - base;
    assert (high - high' - 1) * base >= 0;
  }

  lemma WeighLess(c: Config, u: int, t: int, p: int, u': int, t': int, p': int)
    requires 0 <= t <= c.deadline && 0 <= t' <= c.deadline && 0 <= p <= c.workers + 2 && 0 <= p' <= c.workers + 2
    ensures u' < u || (u' == u && t' < t) ==> Weigh(c, u', t', p') < Weigh(c, u, t, p)
  {
    var high, high' := u * (c.deadline + 1) + t, u' * (c.deadline + 1) + t';
    if u' < u {
      HigherDigit(u, u', c.deadline + 1, t, t');
    }
    if high' < high {
      HigherDigit(high, high', c.workers + 3, p, p');
    }
  }

  lemma MeasureFalls(c: Config, s: State, step: Step)
    requires Countable(c) && Sound(c, s) && TimerInv(c, s.k) && Managing(s.k.mgr.phase)
    requires Enabled(c, s, step) && c.update >= 1
    requires Managing(Apply(c, s, step).k.mgr.phase)
    ensures Measure(c, Apply(c, s, step)) + (if Progress(s, step) then 1 else 0)
            <= Measure(c, s) + (if Overlooks(s, step) then c.workers + 2 else 0)
  {
    var s' := Apply(c, s, step);
    WeighLess(c, Unseen(c, s), TicksLeft(s), PollLeft(c, s), Unseen(c, s'), TicksLeft(s'), PollLeft(c, s'));
  }

  lemma WeighNonNegative(c: Config, u: nat, t: nat, p: nat)
    ensures Weigh(c, u, t, p) >= 0
  {
    assert u * (c.deadline + 1) >= 0;
    assert (u * (c.deadline + 1) + t) * (c.workers + 3) >= 0;
  }

  lemma MeasureNonNegative(c: Config, s: State)
    requires Countable(c) && Sound(c, s) && Managing(s.k.mgr.phase)
    ensures Measure(c, s) >= 0
  {
    TotalBounded(c, s);
    assert Unseen(c, s) >= 0 && TicksLeft(s) >= 0 && PollLeft(c, s) >= 0;
    WeighNonNegative(c, Unseen(c, s), TicksLeft(s), PollLeft(c, s));
  }

  /**
   * The manage loop ends: in any run in which it has not ended, the number of its turns that are not idle
   * (polls, raises, ticks before the deadline) is bounded by the measure, and by one more poll for every
   * time the select overlooked the deadline.
   */
  lemma {:induction false} ManageLoopBounded(c: Config, s: State, steps: seq<Step>)
    requires Countable(c) && c.update >= 1 && Sound(c, s) && TimerInv(c, s.k)
    requires Runnable(c, s, steps) && Managing(Run(c, s, steps).k.mgr.phase)
    ensures ProgressSteps(c, s, steps) + Measure(c, Run(c, s, steps))
            <= Measure(c, s) + (c.workers + 2) * Overlooked(c, s, steps)
    decreases |steps|
  {
    if steps != [] {
      var next, rest := Apply(c, s, steps[0]), steps[1..];
      FirstStepFalls(c, s, steps[0], rest);
      ManageLoopBounded(c, next, rest);
      OneMore(c.workers + 2, Overlooks(s, steps[0]), Overlooked(c, next, rest));
    }
  }

  lemma FirstStepFalls(c: Config, s: State, step: Step, rest: seq<Step>)
    requires Countable(c) && c.update >= 1 && Sound(c, s) && TimerInv(c, s.k) && Enabled(c, s, step)
    requires Runnable(c, Apply(c, s, step), rest) && Managing(Run(c, Apply(c, s, step), rest).k.mgr.phase)
    ensures Sound(c, Apply(c, s, step)) && TimerInv(c, Apply(c, s, step).k)
    ensures Measure(c, Apply(c, s, step)) + (if Progress(s, step) then 1 else 0)
            <= Measure(c, s) + (if Overlooks(s, step) then c.workers + 2 else 0)
  {
    StepKeepsTimers(c, s, step);
    StepKeepsSound(c, s, step);
    RunKeepsTimers(c, Apply(c, s, step), rest);
    MeasureFalls(c, s, step);
  }

  lemma OneMore(cost: nat, more: bool, n: nat)
    ensures cost * ((if more then 1 else 0) + n) == (if more then cost else 0) + cost * n
  {
  }

  lemma InitialMeasure(c: Config)
    requires c.update >= 1
    ensures Measure(c, Init(c)) == (c.workers * c.streamBytes * (c.deadline + 1) + c.deadline) * (c.workers + 3)
  {
  }

  /** Some branch of the loop can always be taken. */
  lemma ManageLoopNeverBlocks(c: Config, s: State)
    requires Countable(c) && Reachable(c, s) && Managing(s.k.mgr.phase)
    ensures exists op :: Enabled(c, s, OnManager(op))
  {
    ReachableSound(c, s);
    var op := match s.k.mgr.phase
      case Select =>
        if s.k.mgr.info.fired then InfoBranch
        else if s.k.mgr.deadline.fired then DeadlineBranch
        else DefaultBranch
      case Polling(base, counts) => if |counts| < |Bytes(s.streams)| then PollRead else PollDone
      case _ => Decide;
    assert Enabled(c, s, OnManager(op));
  }

  /**
   * From the start of a run the bound depends on the configuration and the overlooked deadlines alone, and
   * a loop that has not ended is never blocked.
   */
  lemma ManageLoopEnds(c: Config, steps: seq<Step>)
    requires Countable(c) && c.update >= 1
    requires Runnable(c, Init(c), steps) && Managing(Run(c, Init(c), steps).k.mgr.phase)
    ensures ProgressSteps(c, Init(c), steps)
            <= (c.workers * c.streamBytes * (c.deadline + 1) + c.deadline) * (c.workers + 3)
               + (c.workers + 2) * Overlooked(c, Init(c), steps)
    ensures exists op :: Enabled(c, Run(c, Init(c), steps), OnManager(op))
  {
    RunKeepsSound(c, Init(c), steps);
    ManageLoopBounded(c, Init(c), steps);
    MeasureNonNegative(c, Run(c, Init(c), steps));
    InitialMeasure(c);
    ManageLoopNeverBlocks(c, Run(c, Init(c), steps));
  }
}
