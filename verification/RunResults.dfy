/** What a whole measurement run guarantees, from the byte split to the line the client prints last. */
module RunResults {
  import opened Wrappers
  import opened Sequences
  import Decimal
  import ByteSplit
  import Telemetry
  import Output
  import opened RunModel
  import opened RunBytes
  import opened RunPolls
  import opened RunHandshake

  /** The configuration of a run: every worker gets the split share of the total. */
  function Configure(transport: Transport, workers: nat, total: nat, callSize: nat, update: nat, deadline: nat): Config
    requires 1 <= workers <= ByteSplit.TWO_TO_53 && total <= ByteSplit.TWO_TO_53
  {
    ByteSplit.SplitExact(total, workers);
    ByteSplit.ShareNonNegative(total, workers);
    Config(transport, workers, total, ByteSplit.StreamBytes(total, workers), callSize, update, deadline)
  }

  /** The configuration the client program sets up, within the totals that doubles represent exactly. */
  predicate Configured(c: Config) {
    && 1 <= c.workers <= ByteSplit.TWO_TO_53 && c.total <= ByteSplit.TWO_TO_53
    && c == Configure(c.transport, c.workers, c.total, c.callSize, c.update, c.deadline)
  }

  lemma FactorAtMost(n: nat, x: nat)
    requires n >= 1
    ensures x <= n * x
  {
    assert n * x == x + (n - 1) * x;
  }

  lemma ConfiguredCountable(c: Config)
    requires Configured(c) && !c.transport.Quic?
    ensures Countable(c) && c.total <= c.workers * c.streamBytes < c.total + c.workers
  {
    ByteSplit.SplitExact(c.total, c.workers);
    FactorAtMost(c.workers, c.streamBytes);
  }

  // ----- no counter falls between the verdict and the stop reply

  /** `floor` lies below the counters now, or below those a stop reply is (being) made of. */
  ghost predicate Above(floor: seq<nat>, s: State) {
    match s.k.mgr.phase
    case Stopping(base, closed, counts) => PointwiseLe(floor, base) && Bracketed(base, counts, Bytes(s.streams))
    case Done(reply) => PointwiseLe(floor, reply)
    case _ => PointwiseLe(floor, Bytes(s.streams))
  }

  lemma {:induction false} RunStaysAbove(c: Config, s: State, steps: seq<Step>, floor: seq<nat>)
    requires Conserved(c, s) && Above(floor, s) && Runnable(c, s, steps)
    ensures Above(floor, Run(c, s, steps))
    decreases |steps|
  {
    if steps != [] {
      StepConserves(c, s, steps[0]);
      RunStaysAbove(c, Apply(c, s, steps[0]), steps[1..], floor);
    }
  }

  /** Stream by stream, the stop reply reports at least what was counted at any earlier point of the run. */
  lemma ReplyNeverBelow(c: Config, s: State, steps: seq<Step>)
    requires Reachable(c, s) && !s.k.mgr.phase.Stopping? && !s.k.mgr.phase.Done?
    requires Runnable(c, s, steps) && Run(c, s, steps).k.mgr.phase.Done?
    ensures PointwiseLe(Bytes(s.streams), Run(c, s, steps).k.mgr.phase.reply)
  {
    ReachableConserved(c, s);
    RunStaysAbove(c, s, steps, Bytes(s.streams));
  }

  // ----- soundness of a finished run

  /**
   * End to end (TCP and UDP): a run that ends through the finished branch reports at least the total that was
   * asked for and at most all shares, with every worker exited and the wait group at zero; where the split is
   * exact that is fewer than one byte a stream more than the total.
   */
  lemma FinishedRunSound(c: Config, s: State)
    requires Countable(c) && Reachable(c, s) && s.k.mgr.phase.Done? && s.k.mgr.verdict.Finished?
    ensures var reply := s.k.mgr.phase.reply;
      && |reply| == c.workers && PointwiseLe(reply, Bytes(s.streams))
      && c.total <= s.k.mgr.curr <= Sum(reply) <= c.workers * c.streamBytes
      && (Configured(c) ==> Sum(reply) < c.total + c.workers)
    ensures s.waitGroup == 0 && forall i :: 0 <= i < |s.streams| ==> s.streams[i].client == Exited
  {
    ReachableSound(c, s);
    TotalBounded(c, s);
    SumMonotone(s.k.mgr.phase.reply, Bytes(s.streams));
    ExitedBeforeStop(c, s);
    if Configured(c) {
      ConfiguredCountable(c);
    }
  }

  /** The elements of a stop reply; the timestamps are what the server's clock printed. */
  function Elements(reply: seq<nat>, firsts: seq<string>, lasts: seq<string>): seq<Telemetry.DataResult>
    requires |firsts| == |reply| == |lasts|
  {
    seq(|reply|, i requires 0 <= i < |reply| =>
      Telemetry.DataResult(firsts[i], lasts[i], Decimal.Itoa(Decimal.ToInt64(reply[i]))))
  }

  function Numbers(elements: seq<Telemetry.DataResult>): seq<Option<int>> {
    seq(|elements|, i requires 0 <= i < |elements| => Decimal.Atoi(elements[i].receivedBytes))
  }

  function SumParsed(numbers: seq<Option<int>>): Option<int> {
    if numbers == [] then Some(0)
    else
      var init, last := SumParsed(numbers[..|numbers| - 1]), numbers[|numbers| - 1];
      if init.None? || last.None? then None else Some(init.value + last.value)
  }

  /** The byte total a reader of the printed line arrives at; None if some number does not parse. */
  function LineTotal(elements: seq<Telemetry.DataResult>): Option<int> { SumParsed(Numbers(elements)) }

  function Parsed(reply: seq<nat>): seq<Option<int>> {
    seq(|reply|, i requires 0 <= i < |reply| => Some(reply[i]))
  }

  lemma {:induction false} SumOfParsed(reply: seq<nat>)
    ensures SumParsed(Parsed(reply)) == Some(Sum(reply))
  {
    if reply != [] {
      var n := |reply| - 1;
      SumOfParsed(reply[..n]);
      assert Parsed(reply)[..n] == Parsed(reply[..n]);
    }
  }

  lemma LineTotalIsSum(reply: seq<nat>, firsts: seq<string>, lasts: seq<string>)
    requires |firsts| == |reply| == |lasts|
    requires forall j :: 0 <= j < |reply| ==> reply[j] < Decimal.TWO_TO_63
    ensures LineTotal(Elements(reply, firsts, lasts)) == Some(Sum(reply))
  {
    var numbers := Numbers(Elements(reply, firsts, lasts));
    forall j | 0 <= j < |reply| ensures numbers[j] == Parsed(reply)[j] {
      Decimal.CounterReadsBack(reply[j]);
    }
    assert numbers == Parsed(reply);
    SumOfParsed(reply);
  }

  /**
   * The last line a finished run prints, read back by the evaluation script, yields one entry a stream
   * whose byte numbers add up to the asked total or fewer than `workers` bytes more.
   */
  lemma FinalLineSound(c: Config, s: State, firsts: seq<string>, lasts: seq<string>)
    requires Configured(c) && !c.transport.Quic?
    requires Reachable(c, s) && s.k.mgr.phase.Done? && s.k.mgr.verdict.Finished?
    requires |firsts| == |lasts| == |s.k.mgr.phase.reply|
    requires forall i :: 0 <= i < |firsts| ==> Output.Plain(firsts[i]) && Output.Plain(lasts[i])
    ensures var entry := Output.EntryOf(Output.Line(Elements(s.k.mgr.phase.reply, firsts, lasts)));
      && entry.Some? && |entry.value| == c.workers
      && LineTotal(entry.value).Some? && c.total <= LineTotal(entry.value).value < c.total + c.workers
  {
    var reply := s.k.mgr.phase.reply;
    ConfiguredCountable(c);
    FinishedRunSound(c, s);
    var elements := Elements(reply, firsts, lasts);
    forall j | 0 <= j < |reply| ensures reply[j] < Decimal.TWO_TO_63 && Output.PlainElement(elements[j]) {
      SumAtLeast(reply, j);
    }
    Output.OutputParsesBack(elements);
    LineTotalIsSum(reply, firsts, lasts);
  }

  // ----- UDP: how many lost bytes a run survives

  /** Counted and lost bytes together never exceed all shares. */
  lemma CountedAndLost(c: Config, s: State)
    requires Conserved(c, s) && !c.transport.Quic?
    ensures Total(s) + Sum(Lost(s)) <= c.workers * c.streamBytes
  {
    forall j | 0 <= j < |s.streams| ensures Bytes(s.streams)[j] + Lost(s)[j] <= c.streamBytes {
      assert StreamInv(c, s.streams[j]);
    }
    SumPairsAtMost(Bytes(s.streams), Lost(s), c.streamBytes);
  }

  /** The bytes that may be lost without missing the total. */
  function Slack(c: Config): int { c.workers * c.streamBytes - c.total }

  /** Losing more than the slack: no continuation finishes, and only the deadline can end it. */
  lemma TooMuchLostNeverFinishes(c: Config, s: State, steps: seq<Step>)
    requires Countable(c) && Reachable(c, s) && Sum(Lost(s)) > Slack(c) && Runnable(c, s, steps)
    ensures !Run(c, s, steps).k.mgr.verdict.Finished?
    ensures !Managing(Run(c, s, steps).k.mgr.phase) ==> Run(c, s, steps).k.mgr.verdict.TimedOut?
  {
    var s' := Run(c, s, steps);
    ReachableSound(c, s);
    RunKeepsSound(c, s, steps);
    RunConserves(c, s, steps);
    SumMonotone(Lost(s), Lost(s'));
    CountedAndLost(c, s');
  }

  /** Nothing is left to send, on the way, or uncounted. */
  predicate Settled(s: State) {
    forall i :: 0 <= i < |s.streams| ==>
      s.streams[i].remaining == 0 && s.streams[i].inFlight == 0 && s.streams[i].held == 0
  }

  lemma SettledTotal(c: Config, s: State)
    requires Conserved(c, s) && !c.transport.Quic? && Settled(s)
    ensures Total(s) + Sum(Lost(s)) == c.workers * c.streamBytes
  {
    forall j | 0 <= j < |s.streams| ensures Bytes(s.streams)[j] + Lost(s)[j] == c.streamBytes {
      assert StreamInv(c, s.streams[j]);
    }
    SumPairs(Bytes(s.streams), Lost(s), c.streamBytes);
  }

  /**
   * Once everything is either counted or lost, the next completed poll meets the finish test
   * if and only if the lost bytes stay within the slack.
   */
  lemma FinishIffWithinSlack(c: Config, s: State, steps: seq<Step>)
    requires Countable(c) && Reachable(c, s) && Settled(s) && Enabled(c, s, OnManager(InfoBranch))
    requires Runnable(c, Apply(c, s, OnManager(InfoBranch)), steps) && OnManager(PollDone) !in steps
    requires Enabled(c, Run(c, Apply(c, s, OnManager(InfoBranch)), steps), OnManager(PollDone))
    ensures var s' := Apply(c, Run(c, Apply(c, s, OnManager(InfoBranch)), steps), OnManager(PollDone));
      s'.k.mgr.curr >= c.total <==> Sum(Lost(s)) <= Slack(c)
  {
    var s1 := Apply(c, s, OnManager(InfoBranch));
    var s2 := Run(c, s1, steps);
    ReachableConserved(c, s);
    SettledTotal(c, s);
    PollBracketed(c, s, steps);
    StepConserves(c, s, OnManager(InfoBranch));
    RunConserves(c, s1, steps);
    assert Lost(s1) == Lost(s);
    SumMonotone(Lost(s), Lost(s2));
    CountedAndLost(c, s2);
  }

  /** The finish test of the next default case turns exactly these totals into the finished verdict. */
  lemma DecideFinishesIff(c: Config, s: State)
    requires Reachable(c, s) && Countable(c) && s.k.mgr.phase == Deciding
    ensures Apply(c, s, OnManager(Decide)).k.mgr.verdict.Finished? <==> s.k.mgr.curr >= c.total
  {
    ReachableSound(c, s);
  }
}
