/**
 * Which requests the control plane answers, and when it accepts another connection: exact conditions, from
 * every reachable state with TCP control only.
 */
module ControlService {
  import opened Wrappers
  import Ports
  import PortScan
  import opened ControlPlane
  import opened ControlProofs

  /** A known module, numbers that are numbers, and as many ports to listen on as streams. */
  predicate Startable(tab: Tables, start: Start) {
    start.Module? && Fits(Wanted(tab, start))
  }

  /** A measurement that is known and whose connections no earlier stop has closed already. */
  predicate Stoppable(tab: Tables, id: string) {
    id in tab.recvCh && (id in tab.msmts ==> !CloseFails(tab.msmts[id]))
  }

  /** A handled type and, for each type, what its handler needs. */
  predicate Serviceable(tab: Tables, req: Request) {
    && Handled(req.typ)
    && (req.typ == MEASUREMENT_START_REQUEST ==> Startable(tab, req.start))
    && (req.typ == MEASUREMENT_STOP_REQUEST ==> Stoppable(tab, req.id))
    && (req.typ == MEASUREMENT_INFO_REQUEST ==> req.id in tab.recvCh)
  }

  function ReplyTo(req: Request, newId: string): Reply {
    Reply(req.typ + 1, req.seqNo,
          if req.typ == INFO_REQUEST then "" else if req.typ == MEASUREMENT_START_REQUEST then newId else req.id)
  }

  /** The tables once the management plane has dealt with a serviceable request. */
  function AfterCall(tab: Tables, req: Request, newId: string): Tables {
    if req.typ == MEASUREMENT_START_REQUEST && req.start.Module? then
      Started(tab, newId, req.start.kind, req.start.streams, Wanted(tab, req.start))
    else if req.typ == MEASUREMENT_STOP_REQUEST && req.id in tab.msmts then Stopped(tab, req.id)
    else tab
  }

  /** And once the handler has stored the reply channel of a started measurement. */
  function AfterService(tab: Tables, req: Request, newId: string): Tables {
    var tab1 := AfterCall(tab, req, newId);
    if req.typ == MEASUREMENT_START_REQUEST then tab1.(recvCh := tab1.recvCh + {newId}) else tab1
  }

  // ----- the ports of a start-up

  predicate IsPort(p: nat) { p <= Ports.MAX_PORT }

  function EveryPort(): set<nat> { set p: nat | p <= Ports.MAX_PORT && IsPort(p) }

  /** The ports on which a worker of this start-up cannot listen: on an address of some other host, none at all. */
  function Refused(tab: Tables, start: Start): set<nat>
    requires start.Module?
  {
    if start.local then Busy(tab, ProtoOf(start.kind)) else Busy(tab, ProtoOf(start.kind)) + EveryPort()
  }

  /**
   * The start condition is what the concurrent port scan comes to: a schedule of the workers that cannot go
   * on has run past the last port if and only if the wanted ports do not all exist, and has otherwise
   * reported exactly the wanted ports.
   */
  lemma StartableIsScan(tab: Tables, start: Start, schedule: seq<nat>)
    requires start.Module?
    requires var init := PortScan.Init(Refused(tab, start), START_PORT, start.streams);
      PortScan.Runnable(init, schedule) && forall i :: !PortScan.Enabled(PortScan.Run(init, schedule), i)
    ensures var s := PortScan.Run(PortScan.Init(Refused(tab, start), START_PORT, start.streams), schedule);
      && (s.dead <==> !Startable(tab, start))
      && (!s.dead ==> PortScan.Elements(s.usedPorts) == Wanted(tab, start))
  {
    var refused := Refused(tab, start);
    PortScan.StartupOutcome(refused, START_PORT, start.streams, schedule);
    if !PortScan.Run(PortScan.Init(refused, START_PORT, start.streams), schedule).dead {
      PortScan.CompleteMeansSmallest(refused, START_PORT, start.streams, schedule);
    }
  }

  lemma {:induction false} IntervalSize(ports: set<nat>, low: nat, high: nat)
    requires low <= high && forall p :: p in ports ==> low <= p < high
    ensures |ports| <= high - low
    decreases high - low
  {
    if low < high {
      IntervalSize(ports - {high - 1}, low, high - 1);
    } else {
      assert ports == {};
    }
  }

  /** More streams than there are ports from the start port on never start, whatever is free. */
  lemma TooManyStreams(tab: Tables, start: Start)
    requires start.Module? && start.streams > Ports.MAX_PORT + 1 - START_PORT
    ensures !Startable(tab, start)
  {
    if start.local && Fits(Wanted(tab, start)) {
      IntervalSize(Wanted(tab, start), START_PORT, Ports.MAX_PORT + 1);
    }
  }

  // ----- a handler as one uninterrupted piece of code

  class Server {
    var repDataObj: Option<Reply>
    var recvChStorage: set<string>
    var msmtStorage: map<string, Msmt>
    var occupied: set<(Proto, nat)>

    function Tab(): Tables
      reads this
    {
      Tables(recvChStorage, msmtStorage, occupied)
    }

    constructor (occupied: set<(Proto, nat)>)
      ensures repDataObj.None? && Tab() == Init(occupied).tab
    {
      repDataObj, recvChStorage, msmtStorage := None, {}, map[];
      this.occupied := occupied;
    }

    /** The workers scan for ports under an arbitrary scheduler; not ok: they run out of ports. */
    method HandleMsmtStartReq(start: Start, newId: string) returns (ok: bool)
      requires start.Module?
      modifies this`msmtStorage, this`occupied
      ensures ok <==> Startable(old(Tab()), start)
      ensures ok ==> Tab() == Started(old(Tab()), newId, start.kind, start.streams, Wanted(old(Tab()), start))
    {
      var refused := Refused(Tab(), start);
      var msmt := new PortScan.Startup(refused, START_PORT, start.streams);
      msmt.RunAll(refused, START_PORT);
      if msmt.dead {
        return false;
      }
      var ports := PortScan.Elements(msmt.usedPorts);
      msmtStorage := msmtStorage[newId := Msmt(start.kind, start.streams, ports, true, 0, 0, 0)];
      occupied := occupied + On(ProtoOf(start.kind), ports);
      ok := true;
    }

    /** CloseConn of the measurement; not ok: a connection was closed before. */
    method HandleMsmtStopReq(id: string) returns (ok: bool)
      requires id in msmtStorage
      modifies this`msmtStorage, this`occupied
      ensures ok <==> !CloseFails(old(msmtStorage)[id])
      ensures ok ==> Tab() == Stopped(old(Tab()), id)
    {
      var m := msmtStorage[id];
      if CloseFails(m) {
        return false;
      }
      if m.listening {
        occupied := occupied - On(ProtoOf(m.kind), m.ports);
      }
      msmtStorage := msmtStorage[id := m.(listening := false, open := 0, closed := m.closed + m.open)];
      ok := true;
    }

    /** The call into the management plane; None: the process exits, or no payload ever comes. */
    method CallManagement(req: Request, newId: string) returns (p: Option<Payload>)
      requires Handled(req.typ) && req.typ != INFO_REQUEST && recvChStorage <= msmtStorage.Keys
      modifies this`msmtStorage, this`occupied
      ensures p.Some? <==> Serviceable(old(Tab()), req)
      ensures p.Some? ==> Construct(req, p.value) == Some(ReplyTo(req, newId))
      ensures p.Some? ==> Tab() == AfterCall(old(Tab()), req, newId)
    {
      if req.typ == MEASUREMENT_START_REQUEST {
        if !req.start.Module? {
          return None;
        }
        var ok := HandleMsmtStartReq(req.start, newId);
        return if ok then Some(StartMap(newId)) else None;
      }
      if req.id !in recvChStorage || req.id !in msmtStorage {
        return None;
      }
      if req.typ == MEASUREMENT_INFO_REQUEST {
        return Some(InfoSlice);
      }
      var ok := HandleMsmtStopReq(req.id);
      p := if ok then Some(StopCombined(req.id)) else None;
    }

    /**
     * The body of the four handlers: it answers exactly the serviceable requests, with their own number and
     * the type after theirs; a started measurement is in both tables afterwards, a stopped one has freed its
     * ports.
     */
    method Handle(req: Request, newId: string) returns (answer: Option<Reply>)
      requires Handled(req.typ) && recvChStorage <= msmtStorage.Keys
      modifies this
      ensures answer == if Serviceable(old(Tab()), req) then Some(ReplyTo(req, newId)) else None
      ensures answer.Some? ==> Tab() == AfterService(old(Tab()), req, newId)
      ensures answer.Some? ==> repDataObj == Some(answer.value.(typ := 0))
    {
      if req.typ == INFO_REQUEST {
        repDataObj := Some(Reply(INFO_REPLY, req.seqNo, ""));
      } else {
        var msmtReply := CallManagement(req, newId);
        if msmtReply.None? {
          return None;
        }
        repDataObj := Construct(req, msmtReply.value);
        if req.typ == MEASUREMENT_START_REQUEST {
          recvChStorage := recvChStorage + {repDataObj.value.id};
        }
      }
      answer := repDataObj;
      repDataObj := Some(repDataObj.value.(typ := 0));
    }
  }

  // ----- a run can do the same

  ghost predicate TcpOnly(s: State) { Reachable(s) && s.udpIn == 0 && s.exited.None? }

  predicate Accepting(s: State) { exists t :: 0 <= t < |s.threads| && s.threads[t].Waiting? }

  /** A run without UDP leads to one more answer, this one, to these tables, and to an acceptor waiting. */
  ghost predicate Served(s: State, s': State, req: Request, r: Reply, tab: Tables) {
    && Leads(s, s') && s'.udpIn == s.udpIn && s'.exited.None? && Accepting(s')
    && s'.answers == s.answers + [(req, r)] && s'.tab == tab
  }

  lemma TcpStep(s: State, step: Step)
    requires TcpOnly(s) && Enabled(s, step) && Apply(s, step).udpIn == 0 && Apply(s, step).exited.None?
    ensures TcpOnly(Apply(s, step)) && Leads(s, Apply(s, step))
  {
    LeadsByStep(s, step);
    ReachesOn(s, Apply(s, step));
  }

  lemma ReachesOn(s: State, s': State)
    requires Reachable(s) && Leads(s, s')
    ensures Reachable(s')
  {
    var occupied :| Leads(Init(occupied), s);
    LeadsOn(Init(occupied), s, s');
  }

  lemma TcpOrdered(s: State)
    requires TcpOnly(s)
    ensures Ordered(s) && Balanced(s)
  {
    TcpIsOrderly(s);
    OrderlyOrdered(s);
    ReachableBalanced(s);
  }

  /** A step that answers nothing, in front of a run that serves. */
  lemma ServedLater(s: State, mid: State, s': State, req: Request, r: Reply, tab: Tables)
    requires Leads(s, mid) && mid.udpIn == s.udpIn && mid.answers == s.answers
    requires Served(mid, s', req, r, tab)
    ensures Served(s, s', req, r, tab)
  {
    LeadsOn(s, mid, s');
  }

  lemma FromEncoded(s: State, t: nat) returns (s': State)
    requires TcpOnly(s) && t < |s.threads| && s.threads[t].Encoded?
    ensures Served(s, s', s.threads[t].req, s.threads[t].answer, s.tab)
  {
    s' := OpApply(s, t, Answer);
    TcpStep(s, OnThread(t, Answer));
    assert s'.threads[t].Waiting?;
  }

  lemma FromTyped(s: State, t: nat) returns (s': State)
    requires TcpOnly(s) && t < |s.threads| && OpEnabled(s, s.threads[t], Clear)
    ensures Served(s, s', s.threads[t].req, s.objs[s.threads[t].obj].(typ := s.threads[t].typ), s.tab)
  {
    var h := s.threads[t];
    TcpStep(s, OnThread(t, Clear));
    var mid := ClearApply(s, t);
    s' := FromEncoded(mid, t);
    ServedLater(s, mid, s', h.req, s.objs[h.obj].(typ := h.typ), s.tab);
  }

  lemma FromGrabbed(s: State, t: nat) returns (s': State)
    requires TcpOnly(s) && t < |s.threads| && OpEnabled(s, s.threads[t], TakeType)
    ensures Served(s, s', s.threads[t].req, s.objs[s.threads[t].obj], s.tab)
  {
    var h := s.threads[t];
    TcpStep(s, OnThread(t, TakeType));
    var mid := OpApply(s, t, TakeType);
    s' := FromTyped(mid, t);
    ServedLater(s, mid, s', h.req, s.objs[h.obj], s.tab);
  }

  lemma FromStored(s: State, t: nat) returns (s': State)
    requires TcpOnly(s) && t < |s.threads| && OpEnabled(s, s.threads[t], Grab)
    ensures Served(s, s', s.threads[t].req, Current(s), s.tab)
  {
    TcpStep(s, OnThread(t, Grab));
    var mid := OpApply(s, t, Grab);
    s' := FromGrabbed(mid, t);
    ServedLater(s, mid, s', s.threads[t].req, Current(s), s.tab);
  }

  /** The tables once a start's reply channel is stored. */
  function Filing(tab: Tables, req: Request, id: string): Tables {
    if req.typ == MEASUREMENT_START_REQUEST then tab.(recvCh := tab.recvCh + {id}) else tab
  }

  lemma FromWrote(s: State, t: nat) returns (s': State)
    requires TcpOnly(s) && t < |s.threads| && s.threads[t].Wrote?
    ensures HasReply(s)
    ensures Served(s, s', s.threads[t].req, Current(s), Filing(s.tab, s.threads[t].req, Current(s).id))
  {
    TcpOrdered(s);
    assert ThreadInv(s, s.threads[t]);
    if s.threads[t].req.typ == MEASUREMENT_START_REQUEST {
      TcpStep(s, OnThread(t, Store));
      var mid := OpApply(s, t, Store);
      s' := FromStored(mid, t);
      ServedLater(s, mid, s', s.threads[t].req, Current(s), mid.tab);
    } else {
      s' := FromStored(s, t);
    }
  }

  /** The reply is made and served. */
  lemma FromWrite(s: State, t: nat, r: Reply) returns (s': State)
    requires TcpOnly(s) && t < |s.threads| && OpEnabled(s, s.threads[t], Write)
    requires var h := s.threads[t];
      Some(r) == if h.Received? then Construct(h.req, h.payload) else Some(Reply(INFO_REPLY, h.req.seqNo, ""))
    ensures Served(s, s', s.threads[t].req, r, Filing(s.tab, s.threads[t].req, r.id))
  {
    TcpStep(s, OnThread(t, Write));
    var mid := WriteApply(s, t);
    s' := FromWrote(mid, t);
    ServedLater(s, mid, s', s.threads[t].req, r, Filing(s.tab, s.threads[t].req, r.id));
  }

  lemma FromReceived(s: State, t: nat) returns (s': State)
    requires TcpOnly(s) && t < |s.threads| && s.threads[t].Received?
    ensures var h := s.threads[t];
      && Construct(h.req, h.payload).Some?
      && var r := Construct(h.req, h.payload).value;
      Served(s, s', h.req, r, Filing(s.tab, h.req, r.id))
  {
    TcpOrdered(s);
    assert ThreadInv(s, s.threads[t]);
    s' := FromWrite(s, t, Construct(s.threads[t].req, s.threads[t].payload).value);
  }

  lemma FromCalled(s: State, t: nat) returns (s': State)
    requires TcpOnly(s) && t < |s.threads| && s.threads[t].Called?
    ensures var h := s.threads[t]; Served(s, s', h.req, ReplyTo(h.req, h.id), Filing(s.tab, h.req, h.id))
  {
    TcpOrdered(s);
    var h := s.threads[t];
    assert ThreadInv(s, h);
    var p := PayloadFor(h.req, h.id);
    assert (h.id, p) in s.pending;
    TcpStep(s, OnThread(t, Receive(p)));
    var mid := OpApply(s, t, Receive(p));
    s' := FromReceived(mid, t);
    ServedLater(s, mid, s', h.req, ReplyTo(h.req, h.id), Filing(s.tab, h.req, h.id));
  }

  lemma InfoWritten(s: State, t: nat, newId: string) returns (s': State)
    requires TcpOnly(s) && t < |s.threads| && s.threads[t].Dispatched? && s.threads[t].req.typ == INFO_REQUEST
    ensures var req := s.threads[t].req; Served(s, s', req, ReplyTo(req, newId), AfterService(s.tab, req, newId))
  {
    s' := FromWrite(s, t, ReplyTo(s.threads[t].req, newId));
  }

  lemma FromDispatched(s: State, t: nat, newId: string) returns (s': State)
    requires TcpOnly(s) && t < |s.threads| && s.threads[t].Dispatched? && s.threads[t].via.ByTcp?
    requires newId !in s.tab.msmts && Serviceable(s.tab, s.threads[t].req)
    ensures var req := s.threads[t].req; Served(s, s', req, ReplyTo(req, newId), AfterService(s.tab, req, newId))
  {
    var req := s.threads[t].req;
    if req.typ == INFO_REQUEST {
      s' := InfoWritten(s, t, newId);
    } else {
      TcpOrdered(s);
      TcpStep(s, OnThread(t, Call(newId)));
      var mid := CallApply(s, t, newId);
      s' := FromCalled(mid, t);
      ServedLater(s, mid, s', req, ReplyTo(req, newId), AfterService(s.tab, req, newId));
    }
  }

  lemma FromGot(s: State, newId: string) returns (s': State)
    requires TcpOnly(s) && s.main.Got? && s.main.via.ByTcp? && newId !in s.tab.msmts && Serviceable(s.tab, s.main.req)
    ensures var req := s.main.req; Served(s, s', req, ReplyTo(req, newId), AfterService(s.tab, req, newId))
  {
    var req := s.main.req;
    TcpStep(s, Dispatch);
    var mid := DispatchApply(s);
    s' := FromDispatched(mid, |s.threads|, newId);
    ServedLater(s, mid, s', req, ReplyTo(req, newId), AfterService(s.tab, req, newId));
  }

  lemma FromHolding(s: State, t: nat, newId: string) returns (s': State)
    requires TcpOnly(s) && Enabled(s, OnThread(t, Deliver)) && newId !in s.tab.msmts
    requires Serviceable(s.tab, s.threads[t].req)
    ensures var req := s.threads[t].req; Served(s, s', req, ReplyTo(req, newId), AfterService(s.tab, req, newId))
  {
    var req := s.threads[t].req;
    TcpStep(s, OnThread(t, Deliver));
    var mid := OpApply(s, t, Deliver);
    s' := FromGot(mid, newId);
    ServedLater(s, mid, s', req, ReplyTo(req, newId), AfterService(s.tab, req, newId));
  }

  /**
   * A whole turn as a run of the small steps: a serviceable request read from a connection gets exactly the
   * answer of the uninterrupted handler and leaves the same tables, and an acceptor waits again.
   */
  lemma TurnServes(s: State, t: nat, req: Request, newId: string) returns (s': State)
    requires TcpOnly(s) && t < |s.threads| && s.threads[t].Reading? && newId !in s.tab.msmts && Serviceable(s.tab, req)
    ensures Served(OpApply(s, t, Read(req)), s', req, ReplyTo(req, newId), AfterService(s.tab, req, newId))
  {
    TcpOrdered(s);
    Alone(s, t);
    TcpStep(s, OnThread(t, Read(req)));
    s' := FromHolding(OpApply(s, t, Read(req)), t, newId);
  }

  // ----- when no run can

  /** Neither served nor dropped: the process exits or the handler blocks for ever. */
  predicate Hopeless(tab: Tables, req: Request) { !Serviceable(tab, req) && !Dropped(req.typ) }

  /** Nothing that is refused with the first tables is served with the second. */
  predicate NoBetter(tab: Tables, tab': Tables) {
    && tab'.recvCh == tab.recvCh && tab.occupied <= tab'.occupied
    && forall id :: id in tab.msmts ==> id in tab'.msmts && (CloseFails(tab.msmts[id]) ==> CloseFails(tab'.msmts[id]))
  }

  lemma StillUnfit(tab: Tables, tab': Tables, start: Start)
    requires start.Module? && tab.occupied <= tab'.occupied && !Fits(Wanted(tab, start))
    ensures !Fits(Wanted(tab', start))
  {
    if start.local || start.streams == 0 {
      var busy, busy' := Busy(tab, ProtoOf(start.kind)), Busy(tab', ProtoOf(start.kind));
      FewerFit(busy, busy', start.streams, Wanted(tab, start), Wanted(tab', start));
    }
  }

  lemma FewerFit(busy: set<nat>, busy': set<nat>, n: nat, ports: set<nat>, ports': set<nat>)
    requires busy <= busy' && !Fits(ports)
    requires ports == Ports.Smallest(busy, START_PORT, n) && ports' == Ports.Smallest(busy', START_PORT, n)
    ensures !Fits(ports')
  {
    if Fits(ports') {
      var beyond :| beyond in ports && beyond > Ports.MAX_PORT;
      Ports.SmallestHasNoGaps(busy, START_PORT, n);
      forall p | p in ports' ensures p in ports - {beyond} {
        assert p !in busy' && p !in busy;
      }
      Ports.SubsetSize(ports', ports - {beyond});
    }
  }

  lemma StaysHopeless(tab: Tables, tab': Tables, req: Request)
    requires NoBetter(tab, tab') && Hopeless(tab, req)
    ensures Hopeless(tab', req)
  {
    if req.typ == MEASUREMENT_START_REQUEST && req.start.Module? {
      if !Fits(Wanted(tab, req.start)) {
        StillUnfit(tab, tab', req.start);
      }
    }
  }

  /** This goroutine will never lead back to an acceptor. */
  predicate Useless(tab: Tables, h: Thread) {
    match h
    case Watching => true
    case Gone => true
    case Stuck(_) => true
    case Holding(req) => Hopeless(tab, req)
    case Dispatched(req, via) => Handled(req.typ) && Hopeless(tab, req)
    case _ => false
  }

  lemma StaysUseless(tab: Tables, tab': Tables, h: Thread)
    requires NoBetter(tab, tab') && Useless(tab, h)
    ensures Useless(tab', h)
  {
    if h.Holding? || h.Dispatched? {
      StaysHopeless(tab, tab', h.req);
    }
  }

  /** A request at the main loop that is hopeless, or dropped when its connection is no longer read. */
  predicate MainUseless(s: State) {
    s.main.Got? ==> Hopeless(s.tab, s.main.req) || (Dropped(s.main.req.typ) && !StillRead(s, s.main.via))
  }

  predicate AllUseless(s: State) { forall t :: 0 <= t < |s.threads| ==> Useless(s.tab, s.threads[t]) }

  /** Every goroutine and the main loop are useless, or the process has exited. */
  predicate Doomed(s: State) { s.exited.Some? || (MainUseless(s) && AllUseless(s)) }

  lemma MainStays(s: State, s': State)
    requires MainUseless(s) && NoBetter(s.tab, s'.tab)
    requires s'.main == s.main || (s'.main.Got? && Hopeless(s.tab, s'.main.req))
    requires s'.main.Got? && s'.main == s.main && StillRead(s', s.main.via) ==> StillRead(s, s.main.via)
    ensures MainUseless(s')
  {
    if s'.main.Got? && Hopeless(s.tab, s'.main.req) {
      StaysHopeless(s.tab, s'.tab, s'.main.req);
    }
  }

  lemma OpStaysDoomed(s: State, t: nat, op: ThreadOp)
    requires Doomed(s) && Enabled(s, OnThread(t, op))
    ensures Doomed(OpApply(s, t, op))
  {
    var s' := OpApply(s, t, op);
    OpTouchesOne(s, t, op);
    if s'.exited.None? {
      forall u | 0 <= u < |s'.threads| ensures Useless(s'.tab, s'.threads[u]) {
        StaysUseless(s.tab, s'.tab, s'.threads[u]);
      }
      assert op.Deliver? || !s'.threads[t].Watching?;
      MainStays(s, s');
    }
  }

  /** Nothing brings a doomed server back: without UDP no connection is ever accepted or answered again. */
  lemma {:induction false} DoomedForEver(s: State, steps: seq<Step>)
    requires Doomed(s) && Runnable(s, steps) && Run(s, steps).udpIn == s.udpIn
    ensures Doomed(Run(s, steps)) && Run(s, steps).answers == s.answers
    ensures forall k :: 0 <= k < |steps| ==> !(steps[k].OnThread? && steps[k].op.Accept?)
    decreases |steps|
  {
    if steps != [] {
      var first, rest := steps[0], steps[1..];
      UdpOnlyGrows(Apply(s, first), rest);
      if first.OnThread? {
        OpStaysDoomed(s, first.t, first.op);
        OpKeepsShare(s, first.t, first.op);
      }
      DoomedForEver(Apply(s, first), rest);
      assert forall k :: 0 < k < |steps| ==> steps[k] == rest[k - 1];
    }
  }

  // ----- exactly when

  lemma {:induction false} FreshId(ids: set<string>) returns (id: string)
    ensures forall other :: other in ids ==> |other| < |id|
    decreases ids
  {
    if ids == {} {
      id := "0";
    } else {
      var one :| one in ids;
      var shorter := FreshId(ids - {one});
      id := shorter + one + "0";
    }
  }

  /** With TCP control only, requests at the main loop and in handlers came by TCP. */
  ghost predicate ViaTcp(s: State) {
    && (s.main.Got? ==> s.main.via.ByTcp?)
    && forall t :: 0 <= t < |s.threads| && s.threads[t].Dispatched? ==> s.threads[t].via.ByTcp?
  }

  lemma {:induction false} RunStaysTcp(s: State, steps: seq<Step>)
    requires ViaTcp(s) && Runnable(s, steps) && Run(s, steps).udpIn == s.udpIn
    ensures ViaTcp(Run(s, steps))
    decreases |steps|
  {
    if steps != [] {
      UdpOnlyGrows(Apply(s, steps[0]), steps[1..]);
      StepStaysTcp(s, steps[0]);
      RunStaysTcp(Apply(s, steps[0]), steps[1..]);
    }
  }

  lemma OpStaysTcp(s: State, t: nat, op: ThreadOp)
    requires ViaTcp(s) && t < |s.threads| && OpEnabled(s, s.threads[t], op)
    ensures ViaTcp(OpApply(s, t, op))
  {
    OpTouchesOne(s, t, op);
    if op.Call? {
      CallTouchesOne(s, t, op.newId);
    }
  }

  lemma StepStaysTcp(s: State, step: Step)
    requires ViaTcp(s) && Enabled(s, step) && Apply(s, step).udpIn == s.udpIn
    ensures ViaTcp(Apply(s, step))
  {
    if step.OnThread? {
      OpStaysTcp(s, step.t, step.op);
    }
  }

  lemma TcpVia(s: State)
    requires TcpOnly(s)
    ensures ViaTcp(s)
  {
    var occupied :| Leads(Init(occupied), s);
    var steps :| Runnable(Init(occupied), steps) && Run(Init(occupied), steps) == s;
    RunStaysTcp(Init(occupied), steps);
  }

  /** A run without UDP leads to a state that accepts connections. */
  ghost predicate AcceptsAgain(s: State) {
    exists s' :: Leads(s, s') && s'.udpIn == s.udpIn && s'.exited.None? && Accepting(s')
  }

  lemma AcceptsLater(s: State, step: Step)
    requires TcpOnly(s) && Enabled(s, step) && AcceptsAgain(Apply(s, step)) && Apply(s, step).udpIn == s.udpIn
    ensures AcceptsAgain(s)
  {
    var mid := Apply(s, step);
    LeadsByStep(s, step);
    var s' :| Leads(mid, s') && s'.udpIn == mid.udpIn && s'.exited.None? && Accepting(s');
    LeadsOn(s, mid, s');
  }

  /** A connection with no request outstanding can send an info request. */
  lemma ReadingAccepts(s: State, t: nat)
    requires TcpOnly(s) && t < |s.threads| && s.threads[t].Reading?
    ensures AcceptsAgain(s)
  {
    var newId := FreshId(s.tab.msmts.Keys);
    var req := Request(INFO_REQUEST, "", "", Unsupported);
    TcpStep(s, OnThread(t, Read(req)));
    var s' := TurnServes(s, t, req, newId);
    AcceptsLater(s, OnThread(t, Read(req)));
  }

  lemma MainAccepts(s: State)
    requires TcpOnly(s) && s.main.Got? && !MainUseless(s)
    ensures AcceptsAgain(s)
  {
    TcpVia(s);
    var newId := FreshId(s.tab.msmts.Keys);
    if Dropped(s.main.req.typ) {
      TcpStep(s, Dispatch);
      ReadingAccepts(DispatchApply(s), s.main.via.conn);
      AcceptsLater(s, Dispatch);
    } else {
      var req := s.main.req;
      var s' := FromGot(s, newId);
    }
  }

  lemma HoldingAccepts(s: State, t: nat)
    requires TcpOnly(s) && t < |s.threads| && s.threads[t].Holding? && !Useless(s.tab, s.threads[t])
    ensures AcceptsAgain(s)
  {
    TcpOrdered(s);
    Alone(s, t);
    TcpStep(s, OnThread(t, Deliver));
    MainAccepts(OpApply(s, t, Deliver));
    AcceptsLater(s, OnThread(t, Deliver));
  }

  lemma DispatchedAccepts(s: State, t: nat)
    requires TcpOnly(s) && t < |s.threads| && s.threads[t].Dispatched? && !Useless(s.tab, s.threads[t])
    ensures AcceptsAgain(s)
  {
    var req := s.threads[t].req;
    TcpOrdered(s);
    TcpVia(s);
    assert ThreadInv(s, s.threads[t]);
    var newId := FreshId(s.tab.msmts.Keys);
    var s' := FromDispatched(s, t, newId);
  }

  lemma HandlerAccepts(s: State, t: nat)
    requires TcpOnly(s) && t < |s.threads|
    requires Active(s.threads[t]) || s.threads[t].Encoded?
    ensures AcceptsAgain(s)
  {
    TcpOrdered(s);
    assert ThreadInv(s, s.threads[t]);
    match s.threads[t] {
      case Called(_, _, _) => var s' := FromCalled(s, t);
      case Received(_, _, _) => var s' := FromReceived(s, t);
      case Wrote(_, _) => var s' := FromWrote(s, t);
      case Stored(_, _) => var s' := FromStored(s, t);
      case Grabbed(_, _, _) => var s' := FromGrabbed(s, t);
      case Typed(_, _, _, _) => var s' := FromTyped(s, t);
      case Encoded(_, _, _) => var s' := FromEncoded(s, t);
    }
  }

  lemma UsefulAccepts(s: State, t: nat)
    requires TcpOnly(s) && t < |s.threads| && !Useless(s.tab, s.threads[t])
    ensures AcceptsAgain(s)
  {
    match s.threads[t]
    case Waiting => LeadsNowhere(s);
    case Reading => ReadingAccepts(s, t);
    case Holding(_) => HoldingAccepts(s, t);
    case Dispatched(_, _) => DispatchedAccepts(s, t);
    case _ => HandlerAccepts(s, t);
  }

  /**
   * Deafness, exactly: with TCP control only, the server can come to accept another connection if and only if
   * it is not doomed: the process has not exited, and some goroutine is not useless, or the main loop holds a
   * request that is served, or dropped from a connection still read.
   */
  lemma AcceptsAgainIff(s: State)
    requires Reachable(s) && s.udpIn == 0
    ensures AcceptsAgain(s) <==> !Doomed(s)
  {
    if Doomed(s) {
      forall s' | Leads(s, s') && s'.udpIn == s.udpIn && s'.exited.None? ensures !Accepting(s') {
        var steps :| Runnable(s, steps) && Run(s, steps) == s';
        DoomedForEver(s, steps);
      }
    } else if MainUseless(s) {
      var t :| 0 <= t < |s.threads| && !Useless(s.tab, s.threads[t]);
      UsefulAccepts(s, t);
    } else {
      MainAccepts(s);
    }
  }

  /** A run without UDP whose next answer is to this request, with an acceptor waiting in the end. */
  ghost predicate Answerable(s: State, req: Request) {
    exists s' :: Leads(s, s') && s'.udpIn == s.udpIn && s'.exited.None? && Accepting(s')
                 && |s'.answers| > |s.answers| && s'.answers[|s.answers|].0 == req
  }

  lemma HopelessDooms(s: State, t: nat, req: Request)
    requires TcpOnly(s) && t < |s.threads| && s.threads[t].Reading? && Hopeless(s.tab, req)
    ensures Doomed(OpApply(s, t, Read(req)))
  {
    TcpOrdered(s);
    Alone(s, t);
  }

  lemma NeverAnswered(s: State, req: Request, s': State)
    requires TcpOnly(s) && Leads(s, s') && s'.udpIn == s.udpIn && Dropped(req.typ)
    ensures forall k :: 0 <= k < |s'.answers| ==> s'.answers[k].0 != req
  {
    ReachesOn(s, s');
    TcpIsOrderly(s');
    forall k | 0 <= k < |s'.answers| ensures s'.answers[k].0 != req {
      AnswersMatchRequests(s', k);
    }
  }

  /**
   * Service, exactly: a request read from a connection is answered next, leaving an acceptor waiting, in some
   * run without UDP if and only if its type is handled and its handler finds what it needs: a start a known
   * module, readable numbers and enough ports to listen on; a stop a known measurement whose connections no stop has
   * closed yet; an info request a known measurement.
   */
  lemma AnsweredIff(s: State, t: nat, req: Request)
    requires TcpOnly(s) && t < |s.threads| && s.threads[t].Reading?
    ensures Answerable(OpApply(s, t, Read(req)), req) <==> Serviceable(s.tab, req)
  {
    var mid := OpApply(s, t, Read(req));
    TcpStep(s, OnThread(t, Read(req)));
    if Serviceable(s.tab, req) {
      var newId := FreshId(s.tab.msmts.Keys);
      var s' := TurnServes(s, t, req, newId);
    } else {
      forall s' | Leads(mid, s') && s'.udpIn == mid.udpIn && |s'.answers| > |mid.answers|
        ensures s'.answers[|mid.answers|].0 != req
      {
        NotServed(s, t, req, mid, s');
      }
    }
  }

  lemma NotServed(s: State, t: nat, req: Request, mid: State, s': State)
    requires TcpOnly(s) && t < |s.threads| && s.threads[t].Reading? && !Serviceable(s.tab, req)
    requires mid == OpApply(s, t, Read(req)) && TcpOnly(mid)
    requires Leads(mid, s') && s'.udpIn == mid.udpIn && |s'.answers| > |mid.answers|
    ensures s'.answers[|mid.answers|].0 != req
  {
    if Dropped(req.typ) {
      NeverAnswered(mid, req, s');
    } else {
      HopelessDooms(s, t, req);
      var steps :| Runnable(mid, steps) && Run(mid, steps) == s';
      DoomedForEver(mid, steps);
    }
  }
}
