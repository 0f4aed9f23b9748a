/**
 * When a run can still finish: the exact condition, from every reachable state of the manage loop. It joins
 * the handshake (nobody gone), the bytes (loss within the slack) and the timers (a poll still in time).
 */
module RunFinish {
  import opened Wrappers
  import opened Sequences
  import Telemetry
  import opened RunModel
  import opened RunBytes
  import opened RunPolls
  import opened RunHandshake
  import opened RunTiming
  import opened RunResults

  /** Some run leads to the stop reply of a finished run. */
  ghost predicate Finishes(c: Config, s: State) {
    exists s' :: Leads(c, s, s') && s'.k.mgr.phase.Done? && s'.k.mgr.verdict.Finished?
  }

  lemma FinishesLater(c: Config, s: State, mid: State)
    requires Leads(c, s, mid) && Finishes(c, mid)
    ensures Finishes(c, s)
  {
    var s' :| Leads(c, mid, s') && s'.k.mgr.phase.Done? && s'.k.mgr.verdict.Finished?;
    LeadsOn(c, s, mid, s');
  }

  // ----- the streams can settle at once

  /** Open, with a server worker that serves and a client worker that is not gone. */
  predicate Working(st: Stream) {
    st.open && st.server != Ended && st.client in LIVE
  }

  predicate SettledStream(st: Stream) { st.remaining == 0 && st.inFlight == 0 && st.held == 0 }

  function ToDo(st: Stream): nat {
    (if st.client == Dialing then 1 else 0) + 3 * st.remaining + 2 * st.inFlight + st.held
    + (if st.server == Listening then 2 else if st.server == Accepted then 1 else 0)
  }

  function NextOp(c: Config, st: Stream): StreamOp {
    if st.held > 0 then AddBytes
    else if st.client == Dialing then Dial
    else if st.remaining > 0 then Write(Chunk(st.remaining, c.callSize))
    else if st.server == Listening then Accept
    else if st.server == Accepted then Publish
    else ServerRead(Chunk(st.inFlight, c.callSize))
  }

  lemma {:induction false} SettleStream(c: Config, s: State, i: nat) returns (s': State)
    requires i < |s.streams| && Working(s.streams[i]) && c.callSize >= 1
    ensures Leads(c, s, s') && s'.k == s.k && s'.waitGroup == s.waitGroup
    ensures |s'.streams| == |s.streams| && s'.streams == s.streams[i := s'.streams[i]]
    ensures SettledStream(s'.streams[i]) && Working(s'.streams[i]) && s'.streams[i].lost == s.streams[i].lost
    decreases ToDo(s.streams[i])
  {
    if SettledStream(s.streams[i]) {
      LeadsNowhere(c, s);
      s' := s;
    } else {
      var op := NextOp(c, s.streams[i]);
      var mid := Apply(c, s, OnStream(i, op));
      LeadsByStep(c, s, OnStream(i, op));
      s' := SettleStream(c, mid, i);
      LeadsOn(c, s, mid, s');
    }
  }

  ghost predicate AllWorking(s: State) {
    forall i :: 0 <= i < |s.streams| ==> Working(s.streams[i])
  }

  /** Without a tick, and without losing a byte, the first `n` streams send, read and count everything. */
  lemma {:induction false} SettleFirst(c: Config, s: State, n: nat) returns (s': State)
    requires n <= |s.streams| && AllWorking(s) && c.callSize >= 1
    ensures Leads(c, s, s') && s'.k == s.k && s'.waitGroup == s.waitGroup && AllWorking(s')
    ensures |s'.streams| == |s.streams| && Lost(s') == Lost(s)
    ensures forall i :: 0 <= i < n ==> SettledStream(s'.streams[i])
  {
    if n == 0 {
      LeadsNowhere(c, s);
      s' := s;
    } else {
      var mid := SettleFirst(c, s, n - 1);
      s' := SettleStream(c, mid, n - 1);
      LeadsOn(c, s, mid, s');
    }
  }

  // ----- while the loop is running, streams work unless their worker is gone

  ghost predicate Serving(s: State) {
    && (!s.k.mgr.phase.Stopping? && !s.k.mgr.phase.Done? ==>
          forall i :: 0 <= i < |s.streams| ==> s.streams[i].open)
    && (forall i :: 0 <= i < |s.streams| ==>
          s.streams[i].server == Ended && s.streams[i].open ==> s.streams[i].client in {Exited, Broken, GaveUp})
  }

  lemma {:induction false} RunKeepsServing(c: Config, s: State, steps: seq<Step>)
    requires Serving(s) && Runnable(c, s, steps)
    ensures Serving(Run(c, s, steps))
    decreases |steps|
  {
    if steps != [] {
      RunKeepsServing(c, Apply(c, s, steps[0]), steps[1..]);
    }
  }

  lemma NoneGoneAllWorking(c: Config, s: State)
    requires Reachable(c, s) && Managing(s.k.mgr.phase) && GoneEarly(s) == 0
    ensures AllWorking(s)
  {
    ReachableHand(c, s);
    var steps :| Runnable(c, Init(c), steps) && Run(c, Init(c), steps) == s;
    RunKeepsServing(c, Init(c), steps);
    CountNone(s.streams, GONE);
    CountNone(s.streams, CLOSED);
  }

  // ----- the finished verdict leads to the end

  lemma {:induction false} VerdictStays(c: Config, s: State, steps: seq<Step>)
    requires !Managing(s.k.mgr.phase) && Runnable(c, s, steps)
    ensures Run(c, s, steps).k.mgr.verdict == s.k.mgr.verdict && !Managing(Run(c, s, steps).k.mgr.phase)
    decreases |steps|
  {
    if steps != [] {
      VerdictStays(c, Apply(c, s, steps[0]), steps[1..]);
    }
  }

  lemma ClosingFinishes(c: Config, s: State)
    requires Reachable(c, s) && s.k.mgr.phase.Closing? && s.k.mgr.verdict.Finished? && GoneEarly(s) == 0
    ensures Finishes(c, s)
  {
    EndReachableIff(c, s);
    var steps :| Runnable(c, s, steps) && Run(c, s, steps).k.mgr.phase.Done?;
    VerdictStays(c, s, steps);
    assert Leads(c, s, Run(c, s, steps));
  }

  /** In a reachable state of the loop, settled, with nobody gone and few enough bytes lost. */
  ghost predicate Ready(c: Config, s: State) {
    && Countable(c) && Reachable(c, s) && c.callSize >= 1 && c.update >= 1 && Managing(s.k.mgr.phase)
    && GoneEarly(s) == 0 && Settled(s) && Sum(Lost(s)) <= Slack(c)
  }

  /** A step of the manager or the clock that stays in the loop keeps a state ready. */
  lemma ReadyStep(c: Config, s: State, step: Step)
    requires Ready(c, s) && Enabled(c, s, step) && (step.OnManager? || step.Tick?)
    requires Managing(Apply(c, s, step).k.mgr.phase)
    ensures Ready(c, Apply(c, s, step)) && Leads(c, s, Apply(c, s, step))
    ensures Apply(c, s, step).streams == s.streams
  {
    LeadsByStep(c, s, step);
    LeadsOn(c, Init(c), s, Apply(c, s, step));
  }

  lemma DecideFinishes(c: Config, s: State)
    requires Ready(c, s) && s.k.mgr.phase == Deciding && s.k.mgr.curr >= c.total
    ensures Finishes(c, s)
  {
    var mid := Apply(c, s, OnManager(Decide));
    LeadsByStep(c, s, OnManager(Decide));
    LeadsOn(c, Init(c), s, mid);
    DecideFinishesIff(c, s);
    ClosingFinishes(c, mid);
    FinishesLater(c, s, mid);
  }

  lemma DefaultFinishes(c: Config, s: State)
    requires Ready(c, s) && s.k.mgr.phase == Select && s.k.mgr.curr >= c.total
    requires !s.k.mgr.deadline.fired && !s.k.mgr.info.fired
    ensures Finishes(c, s)
  {
    var mid := Apply(c, s, OnManager(DefaultBranch));
    ReadyStep(c, s, OnManager(DefaultBranch));
    DecideFinishes(c, mid);
    FinishesLater(c, s, mid);
  }

  // ----- one more poll

  lemma {:induction false} ReadRest(c: Config, s: State, counts: seq<nat>) returns (s': State)
    requires Ready(c, s) && s.k.mgr.phase.Polling? && s.k.mgr.phase.counts == counts && |counts| <= |s.streams|
    ensures Ready(c, s') && Leads(c, s, s') && s'.streams == s.streams
    ensures s'.k == s.k.(mgr := s.k.mgr.(phase := Polling(s.k.mgr.phase.base, counts + Bytes(s.streams)[|counts|..])))
    decreases |s.streams| - |counts|
  {
    var bytes := Bytes(s.streams);
    if |counts| == |s.streams| {
      LeadsNowhere(c, s);
      assert counts + bytes[|counts|..] == counts;
      s' := s;
    } else {
      ReadyStep(c, s, OnManager(PollRead));
      var mid := Apply(c, s, OnManager(PollRead));
      s' := ReadRest(c, mid, counts + [bytes[|counts|]]);
      LeadsOn(c, s, mid, s');
    }
  }

  lemma CountsDecode(c: Config, s: State, counts: seq<nat>)
    requires Countable(c) && Sound(c, s) && s.k.mgr.phase.Polling? && s.k.mgr.phase.counts == counts
    ensures |counts| <= |s.streams|
    ensures |counts| == |s.streams| ==> Telemetry.Counted(Telemetry.Received(counts)) == Some(Sum(counts))
  {
    if |counts| == |s.streams| {
      CountersCountable(c, s);
      PollDecoded(s.k.mgr.phase.base, counts, Bytes(s.streams));
    }
  }

  lemma CompleteFull(c: Config, s: State, counts: seq<nat>) returns (s': State)
    requires Ready(c, s) && s.k.mgr.phase.Polling? && s.k.mgr.phase.counts == counts && |counts| == |s.streams|
    ensures Ready(c, s') && Leads(c, s, s') && s'.streams == s.streams
    ensures s'.k.mgr == s.k.mgr.(phase := Select, info := Timer(c.update, false), curr := Sum(counts))
  {
    ReachableSound(c, s);
    ReachableTimers(c, s);
    CountsDecode(c, s, counts);
    s' := Apply(c, s, OnManager(PollDone));
    ReadyStep(c, s, OnManager(PollDone));
  }

  /** The poll in progress is completed: its total is what was read before plus what is there now. */
  lemma CompletePoll(c: Config, s: State, counts: seq<nat>) returns (s': State)
    requires Ready(c, s) && s.k.mgr.phase.Polling? && s.k.mgr.phase.counts == counts
    ensures |counts| <= |s.streams|
    ensures Ready(c, s') && Leads(c, s, s') && s'.streams == s.streams
    ensures s'.k.mgr == s.k.mgr.(phase := Select, info := Timer(c.update, false),
                                 curr := Sum(counts + Bytes(s.streams)[|counts|..]))
  {
    ReachableSound(c, s);
    CountsDecode(c, s, counts);
    var mid := ReadRest(c, s, counts);
    s' := CompleteFull(c, mid, counts + Bytes(s.streams)[|counts|..]);
    LeadsOn(c, s, mid, s');
  }

  lemma PollFinishes(c: Config, s: State)
    requires Ready(c, s) && s.k.mgr.phase == Select && s.k.mgr.info.fired && !s.k.mgr.deadline.fired
    ensures Finishes(c, s)
  {
    ReadyStep(c, s, OnManager(InfoBranch));
    var mid := Apply(c, s, OnManager(InfoBranch));
    var s' := CompletePoll(c, mid, []);
    assert [] + Bytes(s.streams)[0..] == Bytes(s.streams);
    ReachableConserved(c, s);
    SettledTotal(c, s);
    DefaultFinishes(c, s');
    FinishesLater(c, mid, s');
    FinishesLater(c, s, mid);
  }

  // ----- waiting for the info timer

  /** Time passes for both timers, and the deadline does not fire. */
  lemma {:induction false} LetPass(c: Config, s: State, n: nat) returns (s': State)
    requires Ready(c, s) && !s.k.mgr.deadline.fired && n < s.k.mgr.deadline.left
    requires !s.k.mgr.info.fired && n <= s.k.mgr.info.left
    ensures Ready(c, s') && Leads(c, s, s') && s'.streams == s.streams
    ensures var m := s.k.mgr;
      s'.k.mgr == m.(info := Timer(m.info.left - n, n > 0 && n == m.info.left),
                     deadline := Timer(m.deadline.left - n, false))
    decreases n
  {
    if n == 0 {
      LeadsNowhere(c, s);
      s' := s;
    } else {
      var mid := LetPass(c, s, n - 1);
      ReadyStep(c, mid, Tick);
      s' := Apply(c, mid, Tick);
      LeadsOn(c, s, mid, s');
    }
  }

  lemma TimersLive(c: Config, s: State)
    requires Reachable(c, s) && Managing(s.k.mgr.phase) && !s.k.mgr.deadline.fired
    ensures 1 <= s.k.mgr.deadline.left <= c.deadline
    ensures !s.k.mgr.phase.Polling? && !s.k.mgr.info.fired ==> s.k.mgr.info.left >= 1
  {
    ReachableTimers(c, s);
  }

  lemma InfoFirstFinishes(c: Config, s: State)
    requires Ready(c, s) && s.k.mgr.phase == Select && !s.k.mgr.deadline.fired
    requires s.k.mgr.info.fired || s.k.mgr.info.left < s.k.mgr.deadline.left
    ensures Finishes(c, s)
  {
    if s.k.mgr.info.fired {
      PollFinishes(c, s);
    } else {
      TimersLive(c, s);
      var mid := LetPass(c, s, s.k.mgr.info.left);
      PollFinishes(c, mid);
      FinishesLater(c, s, mid);
    }
  }

  // ----- in time or too late

  /**
   * The next poll cannot come before the deadline: `wait` ticks to the poll are too many, even if a total
   * larger than any before is still to be noticed, as late as possible, and resets the deadline then.
   */
  predicate Beaten(c: Config, wait: nat, deadline: Timer, unnoticed: bool) {
    deadline.fired || wait >= deadline.left + (if unnoticed then c.deadline - 1 else 0)
  }

  /** The counters as they will be at most. */
  function Ceilings(c: Config, s: State): seq<nat>
    requires Conserved(c, s) && !c.transport.Quic?
  {
    seq(|s.streams|, i requires 0 <= i < |s.streams| =>
      assert StreamInv(c, s.streams[i]); c.streamBytes - s.streams[i].lost)
  }

  /** The largest total that the poll in progress can still yield. */
  function Best(c: Config, s: State): nat
    requires Conserved(c, s) && !c.transport.Quic?
    requires s.k.mgr.phase.Polling? && |s.k.mgr.phase.counts| <= |s.streams|
  {
    Sum(s.k.mgr.phase.counts + Ceilings(c, s)[|s.k.mgr.phase.counts|..])
  }

  /** No poll that shows the whole total can be completed and noticed before the deadline is ready. */
  predicate TooLate(c: Config, s: State)
    requires Conserved(c, s) && !c.transport.Quic?
    requires s.k.mgr.phase.Polling? ==> |s.k.mgr.phase.counts| <= |s.streams|
  {
    var m := s.k.mgr;
    match m.phase
    case Select =>
      m.deadline.fired || (m.curr < c.total && !m.info.fired && Beaten(c, m.info.left, m.deadline, m.curr > m.last))
    case Deciding =>
      m.curr < c.total && (m.deadline.fired || (!m.info.fired && Beaten(c, m.info.left, m.deadline, m.curr > m.last)))
    case Polling(_, _) =>
      m.deadline.fired || (Best(c, s) < c.total && Beaten(c, c.update, m.deadline, Best(c, s) > m.last))
    case _ => !m.verdict.Finished?
  }

  ghost predicate Consistent(c: Config, s: State) {
    Countable(c) && Sound(c, s) && TimerInv(c, s.k) && c.update >= 1
  }

  lemma ReachableConsistent(c: Config, s: State)
    requires Countable(c) && Reachable(c, s) && c.update >= 1
    ensures Consistent(c, s)
  {
    ReachableSound(c, s);
    ReachableTimers(c, s);
  }

  // ----- in time: some run finishes

  lemma RaiseFinishes(c: Config, s: State)
    requires Ready(c, s) && s.k.mgr.phase == Deciding && s.k.mgr.curr < c.total && !s.k.mgr.deadline.fired
    requires var m := s.k.mgr;
      m.info.fired || m.info.left < (if m.curr > m.last then c.deadline else m.deadline.left)
    ensures Finishes(c, s)
  {
    TimersLive(c, s);
    ReadyStep(c, s, OnManager(Decide));
    var mid := Apply(c, s, OnManager(Decide));
    InfoFirstFinishes(c, mid);
    FinishesLater(c, s, mid);
  }

  lemma DecidingFinishes(c: Config, s: State)
    requires Ready(c, s) && s.k.mgr.phase == Deciding && Conserved(c, s) && !TooLate(c, s)
    ensures Finishes(c, s)
  {
    var m := s.k.mgr;
    if m.curr >= c.total {
      DecideFinishes(c, s);
    } else {
      TimersLive(c, s);
      if m.info.fired || m.info.left < m.deadline.left {
        RaiseFinishes(c, s);
      } else {
        var mid := LetPass(c, s, m.deadline.left - 1);
        RaiseFinishes(c, mid);
        FinishesLater(c, s, mid);
      }
    }
  }

  lemma SelectFinishes(c: Config, s: State)
    requires Ready(c, s) && s.k.mgr.phase == Select && Conserved(c, s) && !TooLate(c, s)
    ensures Finishes(c, s)
  {
    var m := s.k.mgr;
    TimersLive(c, s);
    if m.info.fired || m.info.left < m.deadline.left {
      InfoFirstFinishes(c, s);
    } else {
      ReadyStep(c, s, OnManager(DefaultBranch));
      var mid := Apply(c, s, OnManager(DefaultBranch));
      DecidingFinishes(c, mid);
      FinishesLater(c, s, mid);
    }
  }

  lemma SettledBest(c: Config, s: State)
    requires Conserved(c, s) && !c.transport.Quic? && Settled(s)
    ensures Ceilings(c, s) == Bytes(s.streams)
  {
    forall i | 0 <= i < |s.streams| ensures Ceilings(c, s)[i] == Bytes(s.streams)[i] {
      assert StreamInv(c, s.streams[i]);
    }
  }

  lemma PollingFinishes(c: Config, s: State)
    requires Ready(c, s) && s.k.mgr.phase.Polling? && Conserved(c, s) && |s.k.mgr.phase.counts| <= |s.streams|
    requires !TooLate(c, s)
    ensures Finishes(c, s)
  {
    SettledBest(c, s);
    var s' := CompletePoll(c, s, s.k.mgr.phase.counts);
    SelectFinishes(c, s');
    FinishesLater(c, s, s');
  }

  lemma SameCeilings(c: Config, s: State, s': State)
    requires Conserved(c, s) && Conserved(c, s') && !c.transport.Quic? && Lost(s') == Lost(s)
    ensures Ceilings(c, s') == Ceilings(c, s)
  {
    forall i | 0 <= i < |s.streams| ensures Ceilings(c, s')[i] == Ceilings(c, s)[i] {
      assert Lost(s')[i] == Lost(s)[i];
    }
  }

  lemma InTimeFinishes(c: Config, s: State)
    requires Consistent(c, s) && Reachable(c, s) && c.callSize >= 1 && Managing(s.k.mgr.phase)
    requires GoneEarly(s) == 0 && Sum(Lost(s)) <= Slack(c) && !TooLate(c, s)
    ensures Finishes(c, s)
  {
    NoneGoneAllWorking(c, s);
    var s1 := SettleFirst(c, s, |s.streams|);
    LeadsOn(c, Init(c), s, s1);
    ReachableConserved(c, s1);
    SameCeilings(c, s, s1);
    NobodyGone(s1);
    assert Ready(c, s1);
    match s.k.mgr.phase {
      case Select => SelectFinishes(c, s1);
      case Deciding => DecidingFinishes(c, s1);
      case Polling(_, _) => PollingFinishes(c, s1);
    }
    FinishesLater(c, s, s1);
  }

  lemma NobodyGone(s: State)
    requires AllWorking(s)
    ensures GoneEarly(s) == 0
  {
    CountNone(s.streams, GONE);
  }

  // ----- too late: no run finishes

  lemma CeilingsFall(c: Config, s: State, s': State)
    requires Conserved(c, s) && Conserved(c, s') && !c.transport.Quic? && PointwiseLe(Lost(s), Lost(s'))
    ensures PointwiseLe(Ceilings(c, s'), Ceilings(c, s))
  {
    forall i | 0 <= i < |s.streams| ensures Ceilings(c, s')[i] <= Ceilings(c, s)[i] {
      assert Lost(s)[i] <= Lost(s')[i];
    }
  }

  /** Reading a counter, or losing bytes, never makes the best total of a poll larger. */
  lemma BestFalls(counts: seq<nat>, ceilings: seq<nat>, ceilings': seq<nat>)
    requires |counts| <= |ceilings| && PointwiseLe(ceilings', ceilings)
    ensures Sum(counts + ceilings'[|counts|..]) <= Sum(counts + ceilings[|counts|..])
  {
    SumMonotone(counts + ceilings'[|counts|..], counts + ceilings[|counts|..]);
  }

  lemma SumAround(before: seq<nat>, x: nat, after: seq<nat>)
    ensures Sum(before + [x] + after) == Sum(before) + x + Sum(after)
  {
    SumConcat(before + [x], after);
    SumConcat(before, [x]);
  }

  lemma SumHead(xs: seq<nat>)
    requires xs != []
    ensures Sum(xs) == xs[0] + Sum(xs[1..])
  {
    SumConcat([xs[0]], xs[1..]);
    assert [xs[0]] + xs[1..] == xs;
  }

  lemma ReadLowersBest(counts: seq<nat>, ceilings: seq<nat>, b: nat)
    requires |counts| < |ceilings| && b <= ceilings[|counts|]
    ensures Sum(counts + [b] + ceilings[|counts| + 1..]) <= Sum(counts + ceilings[|counts|..])
  {
    var unread := ceilings[|counts|..];
    assert unread[1..] == ceilings[|counts| + 1..];
    SumAround(counts, b, unread[1..]);
    SumConcat(counts, unread);
    SumHead(unread);
  }

  lemma StreamsStayTooLate(c: Config, s: State, step: Step)
    requires Consistent(c, s) && TooLate(c, s) && Enabled(c, s, step) && !step.OnManager? && !step.Tick?
    ensures Conserved(c, Apply(c, s, step)) && Apply(c, s, step).k.mgr.phase.Polling? == s.k.mgr.phase.Polling?
    ensures s.k.mgr.phase.Polling? ==> |s.k.mgr.phase.counts| <= |Apply(c, s, step).streams|
    ensures TooLate(c, Apply(c, s, step))
  {
    var s' := Apply(c, s, step);
    StepConserves(c, s, step);
    CeilingsFall(c, s, s');
    if s.k.mgr.phase.Polling? {
      BestFalls(s.k.mgr.phase.counts, Ceilings(c, s), Ceilings(c, s'));
    }
  }

  lemma TickStaysTooLate(c: Config, s: State)
    requires Consistent(c, s) && TooLate(c, s)
    ensures TooLate(c, Apply(c, s, Tick))
  {
    SameCeilings(c, s, Apply(c, s, Tick));
  }

  lemma ReadStaysTooLate(c: Config, s: State)
    requires Consistent(c, s) && TooLate(c, s) && Enabled(c, s, OnManager(PollRead))
    ensures TooLate(c, Apply(c, s, OnManager(PollRead)))
  {
    SameCeilings(c, s, Apply(c, s, OnManager(PollRead)));
    ReadLowersBest(s.k.mgr.phase.counts, Ceilings(c, s), Bytes(s.streams)[|s.k.mgr.phase.counts|]);
  }

  lemma DoneStaysTooLate(c: Config, s: State, counts: seq<nat>)
    requires Consistent(c, s) && TooLate(c, s) && Enabled(c, s, OnManager(PollDone)) && counts == s.k.mgr.phase.counts
    ensures Conserved(c, Apply(c, s, OnManager(PollDone))) && Apply(c, s, OnManager(PollDone)).k.mgr.phase == Select
    ensures TooLate(c, Apply(c, s, OnManager(PollDone)))
  {
    CountsDecode(c, s, counts);
    assert counts + Ceilings(c, s)[|counts|..] == counts;
  }

  lemma {:induction false} TooLateNeverFinishes(c: Config, s: State, steps: seq<Step>)
    requires Consistent(c, s) && TooLate(c, s) && Runnable(c, s, steps)
    ensures Run(c, s, steps).k.mgr.phase.Done? ==> !Run(c, s, steps).k.mgr.verdict.Finished?
    decreases |steps|
  {
    if steps != [] {
      var step := steps[0];
      StepKeepsSound(c, s, step);
      StepKeepsTimers(c, s, step);
      if step.Tick? {
        TickStaysTooLate(c, s);
      } else if !step.OnManager? {
        StreamsStayTooLate(c, s, step);
      } else if step.mop == PollRead {
        ReadStaysTooLate(c, s);
      } else if step.mop == PollDone {
        DoneStaysTooLate(c, s, s.k.mgr.phase.counts);
      }
      TooLateNeverFinishes(c, Apply(c, s, step), steps[1..]);
    }
  }

  /** Once a worker is gone no run gets to the stop reply, on TCP and UDP. */
  lemma GoneNeverDone(c: Config, s: State, steps: seq<Step>)
    requires HandInv(c, s) && !c.transport.Quic? && GoneEarly(s) >= 1 && Runnable(c, s, steps)
    ensures !Run(c, s, steps).k.mgr.phase.Done?
  {
    var s' := Run(c, s, steps);
    RunKeepsHand(c, s, steps);
    if s'.k.mgr.phase.Done? {
      CountAll(s'.streams, {Exited});
      CountNone(s'.streams, GONE);
    }
  }

  /**
   * Exactly when a TCP or UDP run can still finish, from every reachable state of the manage loop: nobody is
   * gone, the lost bytes stay within the slack, and it is not too late for a poll. All three can be read off
   * the state; each of the three alone rules the finish out for every continuation.
   */
  lemma FinishesIff(c: Config, s: State)
    requires Countable(c) && c.callSize >= 1 && c.update >= 1 && Reachable(c, s) && Managing(s.k.mgr.phase)
    ensures Conserved(c, s) && (s.k.mgr.phase.Polling? ==> |s.k.mgr.phase.counts| <= |s.streams|)
    ensures Finishes(c, s) <==> GoneEarly(s) == 0 && Sum(Lost(s)) <= Slack(c) && !TooLate(c, s)
  {
    ReachableConsistent(c, s);
    ReachableHand(c, s);
    if GoneEarly(s) == 0 && Sum(Lost(s)) <= Slack(c) && !TooLate(c, s) {
      InTimeFinishes(c, s);
    } else {
      forall s' | Leads(c, s, s') && s'.k.mgr.phase.Done? ensures !s'.k.mgr.verdict.Finished? {
        var steps :| Runnable(c, s, steps) && Run(c, s, steps) == s';
        if GoneEarly(s) >= 1 {
          GoneNeverDone(c, s, steps);
        } else if Sum(Lost(s)) > Slack(c) {
          TooMuchLostNeverFinishes(c, s, steps);
        } else {
          TooLateNeverFinishes(c, s, steps);
        }
      }
    }
  }

  /**
   * Which configurations can finish at all: the shares reach the total, and either nothing is to be sent or
   * the first poll comes before the deadline.
   */
  lemma ConfigurationFinishesIff(c: Config)
    requires Countable(c) && c.callSize >= 1 && c.update >= 1
    ensures Finishes(c, Init(c)) <==>
            c.total <= c.workers * c.streamBytes && c.deadline >= 1 && (c.total == 0 || c.update < c.deadline)
  {
    LeadsNowhere(c, Init(c));
    FinishesIff(c, Init(c));
    CountNone(Init(c).streams, GONE);
    NothingLost(Lost(Init(c)));
  }

  lemma NothingLost(lost: seq<nat>)
    requires forall i :: 0 <= i < |lost| ==> lost[i] == 0
    ensures Sum(lost) == 0
  {
    SumBound(lost, 0);
  }
}
