/** What the manager knows: its polls bracket the true totals, and its verdict is sound. */
module RunPolls {
  import opened Wrappers
  import opened Sequences
  import Decimal
  import Telemetry
  import opened RunModel
  import opened RunBytes

  /** No transport that retries writes, shares that print without a sign, and a 64-bit total that does not wrap. */
  predicate Countable(c: Config) {
    !c.transport.Quic? && c.streamBytes < Decimal.TWO_TO_63 && c.workers * c.streamBytes < Decimal.TWO_TO_64
  }

  /** Counters read one by one lie between the counters at the request and those now. */
  ghost predicate Bracketed(base: seq<nat>, counts: seq<nat>, bytes: seq<nat>) {
    && PointwiseLe(base, bytes) && |counts| <= |base|
    && forall j :: 0 <= j < |counts| ==> base[j] <= counts[j] <= bytes[j]
  }

  ghost predicate PhaseInv(m: Manager, bytes: seq<nat>) {
    match m.phase
    case Polling(base, counts) => Bracketed(base, counts, bytes) && m.curr <= Sum(base)
    case Stopping(base, closed, counts) => Bracketed(base, counts, bytes) && m.curr <= Sum(base)
    case Done(reply) => PointwiseLe(reply, bytes) && m.curr <= Sum(reply)
    case GivenUp => false
    case _ => true
  }

  ghost predicate KnowledgeInv(c: Config, k: Control, bytes: seq<nat>) {
    var m, h := k.mgr, k.hist;
    && m.last <= m.curr <= Sum(bytes)
    && h.raises <= m.last
    && (forall v :: v in h.seen ==> v <= m.last)
    && (m.last in h.seen || m.last == 0)
    && (m.verdict.Undecided? <==> Managing(m.phase))
    && (m.verdict.Finished? ==> c.total <= m.curr)
  }

  ghost predicate MgrInv(c: Config, k: Control, bytes: seq<nat>) {
    PhaseInv(k.mgr, bytes) && KnowledgeInv(c, k, bytes)
  }

  lemma CountersGrow(c: Config, k: Control, bytes: seq<nat>, bytes': seq<nat>)
    requires MgrInv(c, k, bytes) && PointwiseLe(bytes, bytes')
    ensures MgrInv(c, k, bytes')
  {
    SumMonotone(bytes, bytes');
  }

  /** Counters that print without a sign and whose 64-bit sum does not wrap around. */
  predicate Countables(counts: seq<nat>) {
    Sum(counts) < Decimal.TWO_TO_64 && forall j :: 0 <= j < |counts| ==> counts[j] < Decimal.TWO_TO_63
  }

  lemma NoWrap(total: nat)
    requires total < Decimal.TWO_TO_64
    ensures total % Decimal.TWO_TO_64 == total
  {
  }

  lemma SmallSum(counts: seq<nat>)
    requires Countables(counts)
    ensures Telemetry.Counted(Telemetry.Received(counts)) == Some(Sum(counts))
  {
    Telemetry.CountedClean(counts);
    NoWrap(Sum(counts));
  }

  /** The reply of a completed poll decodes to the sum of the counters in it. */
  lemma PollDecoded(base: seq<nat>, counts: seq<nat>, bytes: seq<nat>)
    requires Bracketed(base, counts, bytes) && |counts| == |base|
    requires Countables(bytes)
    ensures Telemetry.Counted(Telemetry.Received(counts)) == Some(Sum(counts))
    ensures Sum(base) <= Sum(counts) <= Sum(bytes)
  {
    SumMonotone(base, counts);
    SumMonotone(counts, bytes);
    assert Telemetry.Counted(Telemetry.Received(counts)) == Some(Sum(counts)) by {
      SmallSum(counts);
    }
  }

  /** The counters of a run are such. */
  lemma CountersCountable(c: Config, s: State)
    requires Countable(c) && Conserved(c, s)
    ensures Countables(Bytes(s.streams))
  {
    TotalBounded(c, s);
  }

  lemma MgrOpKeeps(c: Config, bytes: seq<nat>, waitGroup: int, k: Control, op: MgrOp)
    requires MgrInv(c, k, bytes) && MgrEnabled(c, bytes, waitGroup, k.mgr, op)
    requires !c.transport.Quic? && Countables(bytes)
    ensures MgrInv(c, MgrApply(c, bytes, waitGroup, k, op), bytes)
  {
    var p := k.mgr.phase;
    match op
    case PollDone => PollDecoded(p.base, p.counts, bytes);
    case StopDone => SumMonotone(p.base, p.counts);
    case _ =>
  }

  ghost predicate Sound(c: Config, s: State) {
    Conserved(c, s) && MgrInv(c, s.k, Bytes(s.streams))
  }

  lemma StepKeepsSound(c: Config, s: State, step: Step)
    requires Countable(c) && Sound(c, s) && Enabled(c, s, step)
    ensures Sound(c, Apply(c, s, step))
  {
    StepConserves(c, s, step);
    if step.OnManager? {
      CountersCountable(c, s);
      MgrOpKeeps(c, Bytes(s.streams), s.waitGroup, s.k, step.mop);
    } else {
      CountersGrow(c, s.k, Bytes(s.streams), Bytes(Apply(c, s, step).streams));
    }
  }

  lemma {:induction false} RunKeepsSound(c: Config, s: State, steps: seq<Step>)
    requires Countable(c) && Sound(c, s) && Runnable(c, s, steps)
    ensures Sound(c, Run(c, s, steps))
    decreases |steps|
  {
    if steps != [] {
      StepKeepsSound(c, s, steps[0]);
      RunKeepsSound(c, Apply(c, s, steps[0]), steps[1..]);
    }
  }

  lemma ReachableSound(c: Config, s: State)
    requires Countable(c) && Reachable(c, s)
    ensures Sound(c, s)
  {
    var steps :| Runnable(c, Init(c), steps) && Run(c, Init(c), steps) == s;
    RunKeepsSound(c, Init(c), steps);
  }

  /** While a poll is not completed, the counters it started from stay those of its request. */
  lemma {:induction false} SamePoll(c: Config, s: State, steps: seq<Step>)
    requires s.k.mgr.phase.Polling? && Runnable(c, s, steps)
    requires OnManager(PollDone) !in steps
    ensures var s' := Run(c, s, steps);
      s'.k.mgr.phase.Polling? && s'.k.mgr.phase.base == s.k.mgr.phase.base && s'.k.mgr.curr == s.k.mgr.curr
    decreases |steps|
  {
    if steps != [] {
      assert steps[0] in steps;
      SamePoll(c, Apply(c, s, steps[0]), steps[1..]);
    }
  }

  /**
   * A poll that is not atomic: whatever happens between the request and the reply, the total the client
   * decodes lies between the true total at the request and the true total at the reply, and it is at
   * least the total of the previous poll.
   */
  lemma PollBracketed(c: Config, s: State, steps: seq<Step>)
    requires Countable(c) && Reachable(c, s) && Enabled(c, s, OnManager(InfoBranch))
    requires Runnable(c, Apply(c, s, OnManager(InfoBranch)), steps) && OnManager(PollDone) !in steps
    requires Enabled(c, Run(c, Apply(c, s, OnManager(InfoBranch)), steps), OnManager(PollDone))
    ensures var s' := Apply(c, Run(c, Apply(c, s, OnManager(InfoBranch)), steps), OnManager(PollDone));
      && s'.k.mgr.phase == Select
      && Total(s) <= s'.k.mgr.curr <= Total(s')
      && s.k.mgr.curr <= s'.k.mgr.curr
  {
    ReachableSound(c, s);
    var s1 := Apply(c, s, OnManager(InfoBranch));
    StepKeepsSound(c, s, OnManager(InfoBranch));
    var s2 := Run(c, s1, steps);
    RunKeepsSound(c, s1, steps);
    SamePoll(c, s1, steps);
    CountersCountable(c, s2);
    PollDecoded(s2.k.mgr.phase.base, s2.k.mgr.phase.counts, Bytes(s2.streams));
  }

  /**
   * `lastSrvBytes` is the largest total any default case saw (0 if none), never above the current total,
   * which is itself never above the bytes counted; the deadline was reset at most that many times.
   */
  lemma LastIsLargestSeen(c: Config, s: State)
    requires Countable(c) && Reachable(c, s)
    ensures var m, h := s.k.mgr, s.k.hist;
      && (forall v :: v in h.seen ==> v <= m.last) && (m.last in h.seen || m.last == 0)
      && m.last <= m.curr <= Total(s)
      && h.raises <= m.last <= c.workers * c.streamBytes
  {
    ReachableSound(c, s);
    TotalBounded(c, s);
  }
}
