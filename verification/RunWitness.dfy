/**
 * Runs that exist: a deadline that fires at once although it has just been reset, managers that wait for ever
 * for a worker that has left, a loss that is too large, and a QUIC run that stops the server under its workers.
 */
module RunWitness {
  import opened Wrappers
  import opened Sequences
  import Decimal
  import Telemetry
  import opened RunModel
  import RunBytes
  import RunResults
  import RunTiming
  import RunHandshake

  /** Takes one more step of a run. */
  lemma Next(c: Config, s: State, step: Step) returns (s': State)
    requires Reachable(c, s) && Enabled(c, s, step)
    ensures Reachable(c, s') && s' == Apply(c, s, step)
  {
    LeadsByStep(c, s, step);
    LeadsOn(c, Init(c), s, Apply(c, s, step));
    s' := Apply(c, s, step);
  }

  /** A state of a one-stream TCP run of two bytes, written out. */
  function At(st: Stream, mgr: Manager, hist: History): State { State([st], 1, Control(mgr, hist)) }

  const SHORT: Config := Config(Tcp, 1, 2, 2, 1, 1, 2)

  /** A step of the one stream. */
  lemma NextOp(st: Stream, op: StreamOp, mgr: Manager, hist: History) returns (st': Stream)
    requires Reachable(SHORT, At(st, mgr, hist)) && OpEnabled(SHORT, st, op) && !SignalsDone(op)
    ensures st' == OpApply(SHORT, st, op) && Reachable(SHORT, At(st', mgr, hist))
  {
    st' := OpApply(SHORT, st, op);
    var s' := Next(SHORT, At(st, mgr, hist), OnStream(0, op));
    assert [st][0 := st'] == [st'];
  }

  lemma ByteSent(m: Manager, h: History) returns (st: Stream)
    requires Init(SHORT) == At(InitialStream(SHORT), m, h)
    ensures st == Stream(Sending, 1, 0, 1, 0, 0, 0, Listening, true) && Reachable(SHORT, At(st, m, h))
  {
    st := InitialStream(SHORT);
    assert Reachable(SHORT, At(st, m, h)) by {
      assert Runnable(SHORT, Init(SHORT), []) && Run(SHORT, Init(SHORT), []) == Init(SHORT);
    }
    st := NextOp(st, Dial, m, h);
    st := NextOp(st, Write(1), m, h);
  }

  lemma ByteCounted(st0: Stream, m: Manager, h: History) returns (st: Stream)
    requires st0 == Stream(Sending, 1, 0, 1, 0, 0, 0, Listening, true) && Reachable(SHORT, At(st0, m, h))
    ensures st == Stream(Sending, 1, 0, 0, 0, 0, 1, Reading, true) && Reachable(SHORT, At(st, m, h))
  {
    st := NextOp(st0, Accept, m, h);
    st := NextOp(st, Publish, m, h);
    st := NextOp(st, ServerRead(1), m, h);
    st := NextOp(st, AddBytes, m, h);
  }

  /** The first byte is sent, read and counted before the first tick. */
  lemma FirstByte() returns (s: State)
    ensures Reachable(SHORT, s)
    ensures s == At(Stream(Sending, 1, 0, 0, 0, 0, 1, Reading, true),
                    Manager(Select, Undecided, 0, 0, Timer(1, false), Timer(2, false)), History(0, 0, false, 0, {}))
  {
    var m := Manager(Select, Undecided, 0, 0, Timer(1, false), Timer(2, false));
    var h := History(0, 0, false, 0, {});
    var st := ByteSent(m, h);
    st := ByteCounted(st, m, h);
    s := At(st, m, h);
  }

  lemma OneCounter(n: nat)
    requires n < Decimal.TWO_TO_63
    ensures Telemetry.Counted(Telemetry.Received([n])) == Some(n)
  {
    Telemetry.CountedClean([n]);
    assert [n][..0] == [];
  }

  /** After one tick the first poll is complete except for its decoding. */
  lemma FirstCounts(st: Stream) returns (s: State)
    requires st == Stream(Sending, 1, 0, 0, 0, 0, 1, Reading, true)
    ensures Reachable(SHORT, s)
    ensures s == At(st, Manager(Polling([1], [1]), Undecided, 0, 0, Timer(0, false), Timer(1, false)),
                    History(1, 0, false, 0, {}))
  {
    s := FirstByte();
    assert Bytes([st]) == [1];
    s := Next(SHORT, s, Tick);
    s := Next(SHORT, s, OnManager(InfoBranch));
    s := Next(SHORT, s, OnManager(PollRead));
    assert [] + [Bytes([st])[0]] == [1];
  }

  /** The first poll sees that byte, and the default case is chosen with the deadline one tick away. */
  lemma FirstPoll(st: Stream) returns (s: State)
    requires st == Stream(Sending, 1, 0, 0, 0, 0, 1, Reading, true)
    ensures Reachable(SHORT, s)
    ensures s == At(st, Manager(Deciding, Undecided, 1, 0, Timer(1, false), Timer(1, false)),
                    History(1, 0, false, 0, {}))
  {
    s := FirstCounts(st);
    assert Bytes([st]) == [1];
    OneCounter(1);
    s := Next(SHORT, s, OnManager(PollDone));
    s := Next(SHORT, s, OnManager(DefaultBranch));
  }

  /**
   * The timer expires between the select and the reset: the deadline case is open in the very tick in
   * which a larger total was seen, though the deadline interval is two ticks.
   */
  lemma PrematureDeadline() returns (s: State)
    ensures Reachable(SHORT, s) && Enabled(SHORT, s, OnManager(DeadlineBranch))
    ensures s.k.hist.raises == 1 && s.k.hist.now - s.k.hist.raisedAt == 0 < SHORT.deadline
  {
    s := FirstPoll(Stream(Sending, 1, 0, 0, 0, 0, 1, Reading, true));
    s := Next(SHORT, s, Tick);
    assert RunTiming.Raises(s);
    s := Next(SHORT, s, OnManager(Decide));
  }

  /** One worker, whose write fails, and the deadline. */
  lemma EarlyReturn() returns (s: State)
    ensures Reachable(SHORT, s) && s.k.mgr.phase.Closing? && |s.streams| == 1 && s.streams[0].client == Broken
  {
    s := Init(SHORT);
    LeadsNowhere(SHORT, s);
    s := Next(SHORT, s, OnStream(0, Dial));
    s := Next(SHORT, s, OnStream(0, WriteFails(0)));
    s := Next(SHORT, s, Tick);
    s := Next(SHORT, s, Tick);
    s := Next(SHORT, s, OnManager(DeadlineBranch));
  }

  /** The manager is in its sends with nobody left to take a close: no continuation gets to the end. */
  lemma EarlyReturnDeadlocks() returns (s: State)
    ensures Reachable(SHORT, s) && s.k.mgr.phase.Closing? && RunHandshake.GoneEarly(s) >= 1
    ensures forall s' :: Leads(SHORT, s, s') ==> !s'.k.mgr.phase.Done?
  {
    s := EarlyReturn();
    RunHandshake.ReachableHand(SHORT, s);
    forall s' | Leads(SHORT, s, s') ensures !s'.k.mgr.phase.Done? {
      var steps :| Runnable(SHORT, s, steps) && Run(SHORT, s, steps) == s';
      RunHandshake.StuckWhenOneIsGone(SHORT, s, steps);
    }
  }

  const QUICK: Config := SHORT.(transport := Quic)

  /** The QUIC deadline: the run is over, the server's sockets are closed, and the worker is still sending. */
  lemma QuicStopsUnderWorkers() returns (s: State)
    ensures Reachable(QUICK, s) && s.k.mgr.phase.Done?
    ensures |s.streams| == 1 && s.streams[0].client == Sending && s.streams[0].remaining > 0 && !s.streams[0].open
  {
    s := Init(QUICK);
    LeadsNowhere(QUICK, s);
    s := Next(QUICK, s, OnStream(0, Dial));
    s := Next(QUICK, s, Tick);
    s := Next(QUICK, s, Tick);
    s := Next(QUICK, s, OnManager(DeadlineBranch));
    s := Next(QUICK, s, StopClose(0));
    s := Next(QUICK, s, OnManager(StopRead));
    s := Next(QUICK, s, OnManager(StopDone));
  }

  /** So does a worker that finds no route. */
  lemma NoRouteDeadlocks() returns (s: State)
    ensures Reachable(SHORT, s) && s.k.mgr.phase.Closing? && |s.streams| == 1 && s.streams[0].client == NoRoute
    ensures RunHandshake.GoneEarly(s) >= 1
  {
    s := Init(SHORT);
    LeadsNowhere(SHORT, s);
    s := Next(SHORT, s, OnStream(0, DialFails));
    s := Next(SHORT, s, Tick);
    s := Next(SHORT, s, Tick);
    s := Next(SHORT, s, OnManager(DeadlineBranch));
    RunHandshake.CountNone(s.streams, RunHandshake.GONE);
  }

  const LOSSY: Config := SHORT.(transport := Udp)

  /** On UDP one lost byte can be one too many: then no continuation finishes. */
  lemma LossDefeats() returns (s: State)
    ensures Reachable(LOSSY, s) && s.k.mgr.phase == Select && |s.streams| == 1 && s.streams[0].lost == 1
    ensures forall s' :: Leads(LOSSY, s, s') ==> !s'.k.mgr.verdict.Finished?
  {
    s := Init(LOSSY);
    LeadsNowhere(LOSSY, s);
    s := Next(LOSSY, s, OnStream(0, Dial));
    s := Next(LOSSY, s, OnStream(0, Write(1)));
    s := Next(LOSSY, s, OnStream(0, Lose(1)));
    OneLost(s);
    forall s' | Leads(LOSSY, s, s') ensures !s'.k.mgr.verdict.Finished? {
      var steps :| Runnable(LOSSY, s, steps) && Run(LOSSY, s, steps) == s';
      RunResults.TooMuchLostNeverFinishes(LOSSY, s, steps);
    }
  }

  lemma OneLost(s: State)
    requires |s.streams| == 1 && s.streams[0].lost == 1
    ensures Sum(RunBytes.Lost(s)) == 1
  {
    assert RunBytes.Lost(s)[..0] == [];
  }

  // ----- a QUIC worker that gives up after its byte has arrived

  const RETRY: Config := Config(Quic, 1, 1, 1, 1, 1, 3)

  /** A step of the one stream of a run. */
  lemma OneStreamStep(c: Config, base: State, st: Stream, op: StreamOp, st': Stream)
    requires Reachable(c, base.(streams := [st])) && OpEnabled(c, st, op) && !SignalsDone(op)
    requires st' == OpApply(c, st, op)
    ensures Reachable(c, base.(streams := [st']))
  {
    var s' := Next(c, base.(streams := [st]), OnStream(0, op));
    assert [st][0 := st'] == [st'];
  }

  lemma RetrySent(base: State)
    requires base == Init(RETRY)
    ensures Reachable(RETRY, base.(streams := [Stream(Sending, 1, 1, 1, 0, 0, 0, Listening, true)]))
  {
    var dialled := Stream(Sending, 1, 0, 0, 0, 0, 0, Listening, true);
    LeadsNowhere(RETRY, base);
    assert base == base.(streams := [InitialStream(RETRY)]);
    OneStreamStep(RETRY, base, InitialStream(RETRY), Dial, dialled);
    OneStreamStep(RETRY, base, dialled, WriteRetried(1), Stream(Sending, 1, 1, 1, 0, 0, 0, Listening, true));
  }

  lemma RetryArrives(base: State)
    requires Reachable(RETRY, base.(streams := [Stream(Sending, 1, 1, 1, 0, 0, 0, Listening, true)]))
    ensures Reachable(RETRY, base.(streams := [Stream(Sending, 1, 1, 0, 0, 0, 1, Reading, true)]))
  {
    var sent := Stream(Sending, 1, 1, 1, 0, 0, 0, Listening, true);
    OneStreamStep(RETRY, base, sent, Accept, sent.(server := Accepted));
    OneStreamStep(RETRY, base, sent.(server := Accepted), Publish, sent.(server := Reading));
    var read := sent.(server := Reading, inFlight := 0, held := 1);
    OneStreamStep(RETRY, base, sent.(server := Reading), ServerRead(1), read);
    OneStreamStep(RETRY, base, read, AddBytes, read.(held := 0, bytes := 1));
  }

  /** The only byte reaches the server in a write that is reported as failed and will be repeated. */
  lemma RetriedByte() returns (s: State)
    ensures Reachable(RETRY, s)
    ensures s == Init(RETRY).(streams := [Stream(Sending, 1, 1, 0, 0, 0, 1, Reading, true)])
  {
    RetrySent(Init(RETRY));
    RetryArrives(Init(RETRY));
    s := Init(RETRY).(streams := [Stream(Sending, 1, 1, 0, 0, 0, 1, Reading, true)]);
  }

  lemma RetriedPoll() returns (s: State)
    ensures Reachable(RETRY, s) && s.streams == [Stream(Sending, 1, 1, 0, 0, 0, 1, Reading, true)]
    ensures s.waitGroup == 1 && s.k.mgr == Manager(Deciding, Undecided, 1, 0, Timer(1, false), Timer(2, false))
  {
    s := RetriedByte();
    assert Bytes(s.streams) == [1];
    s := Next(RETRY, s, Tick);
    s := Next(RETRY, s, OnManager(InfoBranch));
    s := Next(RETRY, s, OnManager(PollRead));
    assert [] + [Bytes(s.streams)[0]] == [1];
    OneCounter(1);
    s := Next(RETRY, s, OnManager(PollDone));
    s := Next(RETRY, s, OnManager(DefaultBranch));
  }

  /** It gives up with `wg.Done` but without a close: the finished branch then waits for ever in its sends. */
  lemma GivingUpDeadlocks() returns (s: State)
    ensures Reachable(RETRY, s) && s.k.mgr.phase.Closing? && s.k.mgr.verdict.Finished? && s.waitGroup == 0
    ensures RunHandshake.GoneEarly(s) >= 1
  {
    s := RetriedPoll();
    s := Next(RETRY, s, OnStream(0, IdleOut(0)));
    s := Next(RETRY, s, OnManager(Decide));
    RunHandshake.CountNone(s.streams, RunHandshake.GONE);
    assert s.streams[0].client == GaveUp;
  }

  lemma BrokenFirst(base: State) returns (st: Stream)
    requires base == Init(SHORT)
    ensures st == Stream(Broken, 2, 1, 1, 0, 0, 0, Listening, true)
    ensures Reachable(SHORT, base.(streams := [st]))
  {
    LeadsNowhere(SHORT, base);
    assert base == base.(streams := [InitialStream(SHORT)]);
    var dialled := InitialStream(SHORT).(client := Sending);
    st := Stream(Broken, 2, 1, 1, 0, 0, 0, Listening, true);
    OneStreamStep(SHORT, base, InitialStream(SHORT), Dial, dialled);
    OneStreamStep(SHORT, base, dialled, WriteFails(1), st);
  }

  /**
   * The first byte of a TCP worker whose write is reported as failed arrives all the same: the worker has left,
   * its connection is accepted afterwards, the byte is counted, and the server worker ends before any stop.
   */
  lemma BrokenStillCounted() returns (s: State)
    ensures Reachable(SHORT, s) && s == Init(SHORT).(streams := [Stream(Broken, 2, 1, 0, 0, 0, 1, Ended, true)])
  {
    var broken := BrokenFirst(Init(SHORT));
    BrokenArrives(Init(SHORT));
    BrokenEnds(Init(SHORT));
    s := Init(SHORT).(streams := [Stream(Broken, 2, 1, 0, 0, 0, 1, Ended, true)]);
  }

  lemma BrokenArrives(base: State)
    requires Reachable(SHORT, base.(streams := [Stream(Broken, 2, 1, 1, 0, 0, 0, Listening, true)]))
    ensures Reachable(SHORT, base.(streams := [Stream(Broken, 2, 1, 0, 1, 0, 0, Reading, true)]))
  {
    var broken := Stream(Broken, 2, 1, 1, 0, 0, 0, Listening, true);
    OneStreamStep(SHORT, base, broken, Accept, broken.(server := Accepted));
    OneStreamStep(SHORT, base, broken.(server := Accepted), Publish, broken.(server := Reading));
    var read := Stream(Broken, 2, 1, 0, 1, 0, 0, Reading, true);
    OneStreamStep(SHORT, base, broken.(server := Reading), ServerRead(1), read);
  }

  lemma BrokenEnds(base: State)
    requires Reachable(SHORT, base.(streams := [Stream(Broken, 2, 1, 0, 1, 0, 0, Reading, true)]))
    ensures Reachable(SHORT, base.(streams := [Stream(Broken, 2, 1, 0, 0, 0, 1, Ended, true)]))
  {
    var counted := Stream(Broken, 2, 1, 0, 0, 0, 1, Reading, true);
    OneStreamStep(SHORT, base, Stream(Broken, 2, 1, 0, 1, 0, 0, Reading, true), AddBytes, counted);
    OneStreamStep(SHORT, base, counted, ServerEnds, counted.(server := Ended));
  }

  /** Or it is lost, as TCP bytes can be behind a failed write, */
  lemma BrokenLoses() returns (s: State)
    ensures Reachable(SHORT, s) && s.streams == [Stream(Broken, 2, 1, 0, 0, 1, 0, Listening, true)]
  {
    var base := Init(SHORT);
    var broken := BrokenFirst(base);
    OneStreamStep(SHORT, base, broken, Lose(1), broken.(inFlight := 0, lost := 1));
    s := base.(streams := [broken.(inFlight := 0, lost := 1)]);
  }

  /** and QUIC bytes behind a closed session. */
  lemma ClosedSessionLoses() returns (s: State)
    ensures Reachable(RETRY, s) && s.streams == [Stream(GaveUp, 1, 1, 0, 0, 1, 0, Listening, true)]
  {
    s := Init(RETRY);
    LeadsNowhere(RETRY, s);
    s := Next(RETRY, s, OnStream(0, Dial));
    s := Next(RETRY, s, OnStream(0, IdleOut(1)));
    s := Next(RETRY, s, OnStream(0, Lose(1)));
  }
}
