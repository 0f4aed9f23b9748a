/** Runs of the control plane that exist: an ordinary one with UDP, a mismatch, and three deaf servers. */
module ControlWitness {
  import opened Wrappers
  import Ports
  import opened ControlPlane
  import opened ControlProofs
  import opened ControlService

  /** The first state, when nobody else listens on any port. */
  const START: State := Init({})

  lemma StartReachable()
    ensures Reachable(START)
  {
    LeadsNowhere(Init({}));
  }

  function Info(seqNo: string): Request { Request(INFO_REQUEST, seqNo, "", Unsupported) }

  /** Takes one more step of a run. */
  lemma Next(s: State, step: Step) returns (s': State)
    requires Reachable(s) && Enabled(s, step)
    ensures Reachable(s') && s' == Apply(s, step)
  {
    LeadsByStep(s, step);
    ReachesOn(s, Apply(s, step));
    s' := Apply(s, step);
  }

  /** A connection is accepted and its request reaches a handler or is dropped. */
  lemma FirstRequest(req: Request) returns (s: State)
    ensures Reachable(s)
    ensures s == START.(threads := [Watching], main := Got(req, ByTcp(0)))
  {
    StartReachable();
    s := Next(START, OnThread(0, Accept));
    s := Next(s, OnThread(0, Read(req)));
    s := Next(s, OnThread(0, Deliver));
  }

  /**
   * A run with a single UDP request in which a TCP client gets the number of somebody else's request:
   * the UDP handler makes its reply between the TCP handler's and the call of the TCP handler's encoder.
   */
  lemma UdpBreaksMatching() returns (s: State)
    ensures Reachable(s) && s.udpIn == 1 && s.exited.None?
    ensures |s.answers| == 1 && s.answers[0].1.seqRp != s.answers[0].0.seqNo
  {
    s := BothWritten();
    s := Next(s, OnThread(1, Grab));
    s := Next(s, OnThread(1, TakeType));
    s := Next(s, OnThread(1, Clear));
    s := Next(s, OnThread(1, Answer));
  }

  lemma FirstWritten() returns (s: State)
    ensures Reachable(s)
    ensures s == START.(threads := [Watching, Wrote(Info("1"), ByTcp(0))], rep := Some(0),
                        objs := [Reply(INFO_REPLY, "1", "")])
  {
    s := FirstRequest(Info("1"));
    s := Next(s, Dispatch);
    s := Next(s, OnThread(1, Write));
  }

  lemma BothWritten() returns (s: State)
    ensures Reachable(s) && s.udpIn == 1 && s.exited.None? && s.answers == []
    ensures s.threads == [Watching, Wrote(Info("1"), ByTcp(0)), Wrote(Info("2"), ByUdp)]
    ensures s.rep == Some(1) && s.objs == [Reply(INFO_REPLY, "1", ""), Reply(INFO_REPLY, "2", "")]
  {
    s := FirstWritten();
    s := Next(s, UdpArrives(Info("2")));
    s := Next(s, Dispatch);
    s := Next(s, OnThread(2, Write));
  }

  lemma {:induction false} ExclusiveLonger(s: State, steps: seq<Step>, step: Step)
    requires Runnable(s, steps) && ExclusiveRun(s, steps) && Enabled(Run(s, steps), step)
    requires Exclusive(Apply(Run(s, steps), step))
    ensures Runnable(s, steps + [step]) && ExclusiveRun(s, steps + [step])
    ensures Run(s, steps + [step]) == Apply(Run(s, steps), step)
    decreases |steps|
  {
    if steps == [] {
      assert [] + [step] == [step] && [step][1..] == [];
      assert ExclusiveRun(Apply(s, step), []);
    } else {
      ExclusiveLonger(Apply(s, steps[0]), steps[1..], step);
      assert (steps + [step])[1..] == steps[1..] + [step];
    }
  }

  /** Takes one more step of a run without overlap. */
  lemma NextInOrder(s: State, step: Step) returns (s': State)
    requires Orderly(s) && Enabled(s, step) && Exclusive(Apply(s, step))
    ensures Orderly(s') && s' == Apply(s, step)
  {
    var occupied, steps :|
      Runnable(Init(occupied), steps) && ExclusiveRun(Init(occupied), steps) && Run(Init(occupied), steps) == s;
    ExclusiveLonger(Init(occupied), steps, step);
    s' := Apply(s, step);
  }

  /** Nobody is active, except perhaps one goroutine. */
  ghost predicate OnlyActive(s: State, u: nat) {
    forall t :: 0 <= t < |s.threads| && t != u ==> !Active(s.threads[t])
  }

  lemma StaysExclusive(s: State, step: Step, u: nat)
    requires OnlyActive(s, u) && Enabled(s, step) && step.OnThread? && step.t == u
    ensures OnlyActive(Apply(s, step), u) && Exclusive(Apply(s, step))
  {
    OpTouchesOne(s, step.t, step.op);
  }

  lemma InfoGrabbed(s: State, u: nat) returns (s': State)
    requires Orderly(s) && s.exited.None? && u < |s.threads| && OnlyActive(s, u)
    requires s.threads[u].Dispatched? && s.threads[u].req.typ == INFO_REQUEST
    ensures Orderly(s') && OnlyActive(s', u)
    ensures var h := s.threads[u];
      s' == s.(threads := s.threads[u := Grabbed(h.req, h.via, |s.objs|)], rep := Some(|s.objs|),
               objs := s.objs + [Reply(INFO_REPLY, h.req.seqNo, "")])
  {
    s' := InfoStep(s, u, Write);
    s' := InfoStep(s', u, Grab);
  }

  lemma InfoSent(s: State, u: nat) returns (s': State)
    requires Orderly(s) && s.exited.None? && u < |s.threads| && OnlyActive(s, u)
    requires s.threads[u].Grabbed? && s.threads[u].obj < |s.objs|
    ensures Orderly(s') && s'.exited.None? && s'.main == s.main && s'.udpIn == s.udpIn
    ensures s'.threads == s.threads[u := Waiting] && |s'.answers| == |s.answers| + 1
  {
    s' := InfoStep(s, u, TakeType);
    s' := InfoStep(s', u, Clear);
    s' := InfoStep(s', u, Answer);
  }

  /** An info handler at work while nobody else is: it answers and goes back to accept. */
  lemma InfoTurn(s: State, u: nat) returns (s': State)
    requires Orderly(s) && s.exited.None? && u < |s.threads| && OnlyActive(s, u)
    requires s.threads[u].Dispatched? && s.threads[u].req.typ == INFO_REQUEST
    ensures Orderly(s') && s'.exited.None? && s'.main == s.main && s'.udpIn == s.udpIn
    ensures s'.threads == s.threads[u := Waiting] && |s'.answers| == |s.answers| + 1
  {
    var mid := InfoGrabbed(s, u);
    s' := InfoSent(mid, u);
    assert mid.threads[u := Waiting] == s.threads[u := Waiting];
  }

  lemma InfoStep(s: State, u: nat, op: ThreadOp) returns (s': State)
    requires Orderly(s) && OnlyActive(s, u) && Enabled(s, OnThread(u, op))
    ensures s' == OpApply(s, u, op) && Orderly(s') && OnlyActive(s', u)
  {
    StaysExclusive(s, OnThread(u, op), u);
    s' := NextInOrder(s, OnThread(u, op));
  }

  /** A UDP info request is answered while the TCP acceptor waits. */
  lemma Discovered(a: Request) returns (s: State)
    requires a.typ == INFO_REQUEST
    ensures Orderly(s) && s.exited.None? && s.main.Idle? && s.threads == [Waiting, Waiting]
    ensures s.udpIn == 1 && |s.answers| == 1
  {
    assert Runnable(START, []) && ExclusiveRun(START, []) && Run(START, []) == START;
    s := NextInOrder(START, UdpArrives(a));
    s := NextInOrder(s, Dispatch);
    assert s.threads == [Waiting, Dispatched(a, ByUdp)];
    s := InfoTurn(s, 1);
  }

  lemma QuietStep(s: State, step: Step) returns (s': State)
    requires Orderly(s) && Enabled(s, step) && OnlyActive(Apply(s, step), |s.threads|)
    ensures s' == Apply(s, step) && Orderly(s')
  {
    s' := NextInOrder(s, step);
  }

  lemma Asked(s: State, b: Request) returns (s': State)
    requires Orderly(s) && s.exited.None? && s.threads == [Waiting, Waiting]
    ensures Orderly(s') && s' == s.(threads := [Holding(b), Waiting])
  {
    s' := QuietStep(s, OnThread(0, Accept));
    s' := QuietStep(s', OnThread(0, Read(b)));
    assert s'.threads == [Holding(b), Waiting];
  }

  /** A TCP request reaches its handler while nobody is active. */
  lemma Connected(s: State, b: Request) returns (s': State)
    requires Orderly(s) && s.exited.None? && s.main.Idle? && s.threads == [Waiting, Waiting] && b.typ == INFO_REQUEST
    ensures Orderly(s') && s'.exited.None? && s'.udpIn == s.udpIn && s'.answers == s.answers
    ensures s'.threads == [Watching, Waiting, Dispatched(b, ByTcp(0))]
  {
    s' := Asked(s, b);
    s' := QuietStep(s', OnThread(0, Deliver));
    assert s'.threads == [Watching, Waiting];
    s' := NextInOrder(s', Dispatch);
  }

  /** The shipped client's order, discovery over UDP and then a request over TCP, is one without overlap. */
  lemma DiscoveryThenTcp(a: Request, b: Request) returns (s: State)
    requires a.typ == INFO_REQUEST && b.typ == INFO_REQUEST
    ensures Orderly(s) && s.udpIn == 1 && |s.answers| == 2
  {
    s := Discovered(a);
    s := Connected(s, b);
    s := InfoTurn(s, 2);
  }

  /** One connection that is closed without sending anything leaves the server deaf. */
  lemma HangUpDeafens() returns (s: State)
    ensures Reachable(s) && s.udpIn == 0 && s.exited.None? && s.answers == [] && s.lost == 1 && Doomed(s)
  {
    StartReachable();
    s := Next(START, OnThread(0, Accept));
    s := Next(s, OnThread(0, Eof));
  }

  /** So does a request of a dropped type whose sender hangs up. */
  lemma DroppedRequestDeafens() returns (s: State)
    ensures Reachable(s) && s.udpIn == 0 && s.exited.None? && s.lost == 1 && Doomed(s)
  {
    s := FirstRequest(Request(TIME_DIFF_REQUEST, "1", "", Unsupported));
    s := Next(s, Dispatch);
    s := Next(s, OnThread(0, Eof));
  }

  /** And a start request for an unsupported module, with no connection lost. */
  lemma UnsupportedModuleDeafens() returns (s: State)
    ensures Reachable(s) && s.udpIn == 0 && s.exited.None? && s.lost == 0 && Doomed(s)
  {
    s := FirstRequest(Request(MEASUREMENT_START_REQUEST, "1", "", Unsupported));
    s := Next(s, Dispatch);
    s := Next(s, OnThread(1, Call("a")));
  }

  // ----- a measurement from its start to a second stop

  const ONE_STREAM: Start := Module(Tcp, 1, true)

  const START_ONE: Request := Request(MEASUREMENT_START_REQUEST, "1", "", ONE_STREAM)

  const STOP_ONE: Request := Request(MEASUREMENT_STOP_REQUEST, "2", "a", Unsupported)

  /** With no listeners around, the first stream listens on port 7000. */
  lemma FirstPort()
    ensures Wanted(START.tab, ONE_STREAM) == {7000}
  {
    assert Busy(START.tab, OverTcp) == {};
    assert Ports.FirstFree({}, 7000) == 7000;
    assert Ports.Smallest({}, 7001, 0) == {};
  }

  /** A connection to the first acceptor. */
  lemma FirstReading() returns (s: State)
    ensures TcpOnly(s) && s == START.(threads := [Reading])
  {
    StartReachable();
    s := Next(START, OnThread(0, Accept));
  }

  /** A connection to an acceptor that waits somewhere. */
  lemma Reconnected(s: State) returns (s': State, t: nat)
    requires TcpOnly(s) && Accepting(s)
    ensures TcpOnly(s') && t < |s'.threads| && s'.threads[t].Reading? && s'.tab == s.tab
  {
    t :| 0 <= t < |s.threads| && s.threads[t].Waiting?;
    TcpStep(s, OnThread(t, Accept));
    s' := Apply(s, OnThread(t, Accept));
  }

  const RUNNING: Msmt := Msmt(Tcp, 1, {7000}, true, 0, 0, 0)

  lemma StartedTables()
    ensures Serviceable(START.tab, START_ONE)
    ensures AfterService(START.tab, START_ONE, "a") == Tables({"a"}, map["a" := RUNNING], {(OverTcp, 7000)})
  {
    FirstPort();
    assert On(OverTcp, {7000}) == {(OverTcp, 7000)};
  }

  lemma JustStarted() returns (s: State)
    ensures TcpOnly(s) && Accepting(s) && s.tab == Tables({"a"}, map["a" := RUNNING], {(OverTcp, 7000)})
  {
    var first := FirstReading();
    StartedTables();
    TcpStep(first, OnThread(0, Read(START_ONE)));
    s := TurnServes(first, 0, START_ONE, "a");
    ReachesOn(OpApply(first, 0, Read(START_ONE)), s);
  }

  /** The measurement is started, and its one connection is accepted and published. */
  lemma StartedOne() returns (s: State)
    ensures TcpOnly(s) && Accepting(s)
    ensures s.tab == Tables({"a"}, map["a" := RUNNING.(open := 1)], {(OverTcp, 7000)})
  {
    s := JustStarted();
    TcpStep(s, Arrives("a"));
    s := Apply(s, Arrives("a"));
    TcpStep(s, Publishes("a"));
    s := Apply(s, Publishes("a"));
  }

  /** A start request over UDP ends the process. */
  lemma UdpStartExits() returns (s: State)
    ensures Reachable(s) && s.udpIn == 1 && s.exited.Some? && s.tab == START.tab
  {
    s := START;
    StartReachable();
    s := Next(s, UdpArrives(START_ONE));
    s := Next(s, Dispatch);
    s := Next(s, OnThread(1, Call("a")));
  }

  /**
   * After one stop, which gives port 7000 back, a second stop for the same known measurement dooms the server:
   * the connection is closed already.
   */
  lemma SecondStopDooms() returns (s: State, t: nat)
    ensures TcpOnly(s) && t < |s.threads| && s.threads[t].Reading? && "a" in s.tab.recvCh && s.tab.occupied == {}
    ensures Doomed(OpApply(s, t, Read(STOP_ONE)))
  {
    var started := StartedOne();
    var u: nat;
    s, u := Reconnected(started);
    TcpStep(s, OnThread(u, Read(STOP_ONE)));
    var mid := OpApply(s, u, Read(STOP_ONE));
    s := TurnServes(s, u, STOP_ONE, "b");
    ReachesOn(mid, s);
    assert On(OverTcp, {7000}) == {(OverTcp, 7000)};
    s, t := Reconnected(s);
    HopelessDooms(s, t, STOP_ONE);
  }
}
