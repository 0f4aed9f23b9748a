/**
 * Who holds which port of the server, through any starts and stops; what a start takes and what a stop gives
 * back, in terms of the four kinds of measurement.
 */
module ControlPorts {
  import opened Wrappers
  import Ports
  import opened ControlPlane
  import opened ControlProofs
  import opened ControlService

  // ----- the account of all ports

  function Held(m: Msmt): set<(Proto, nat)> { if m.listening then On(ProtoOf(m.kind), m.ports) else {} }

  predicate HeldBySome(tab: Tables, q: (Proto, nat)) {
    exists a :: a in tab.msmts && q in Held(tab.msmts[a])
  }

  predicate KeptBySome(threads: seq<Thread>, q: (Proto, nat)) {
    exists t :: 0 <= t < |threads| && threads[t].Stuck? && q in threads[t].kept
  }

  /** As many ports as streams, all of them from the start port on and in range. */
  predicate WellPorted(m: Msmt) {
    |m.ports| == m.streams && forall p :: p in m.ports ==> START_PORT <= p <= Ports.MAX_PORT
  }

  ghost predicate Accounted(initial: set<(Proto, nat)>, s: State) {
    && (forall q :: q in s.tab.occupied <==> q in initial || HeldBySome(s.tab, q) || KeptBySome(s.threads, q))
    && (forall a :: a in s.tab.msmts ==> WellPorted(s.tab.msmts[a]) && Held(s.tab.msmts[a]) !! initial)
    && (forall a, q :: a in s.tab.msmts && q in Held(s.tab.msmts[a]) ==> !KeptBySome(s.threads, q))
    && (forall a, b :: a in s.tab.msmts && b in s.tab.msmts && a != b ==>
          Held(s.tab.msmts[a]) !! Held(s.tab.msmts[b]))
  }

  /** Nothing about ports changes. */
  predicate SamePorts(s: State, s': State) {
    && s'.tab.occupied == s.tab.occupied && s'.tab.msmts.Keys == s.tab.msmts.Keys
    && (forall a :: a in s.tab.msmts ==>
          && Held(s'.tab.msmts[a]) == Held(s.tab.msmts[a]) && s'.tab.msmts[a].ports == s.tab.msmts[a].ports
          && s'.tab.msmts[a].streams == s.tab.msmts[a].streams)
  }

  lemma SameHeld(s: State, s': State, q: (Proto, nat))
    requires SamePorts(s, s')
    ensures HeldBySome(s'.tab, q) <==> HeldBySome(s.tab, q)
  {
    if HeldBySome(s.tab, q) {
      var a :| a in s.tab.msmts && q in Held(s.tab.msmts[a]);
      assert q in Held(s'.tab.msmts[a]);
    }
    if HeldBySome(s'.tab, q) {
      var a :| a in s'.tab.msmts && q in Held(s'.tab.msmts[a]);
      assert q in Held(s.tab.msmts[a]);
    }
  }

  lemma StaysAccounted(initial: set<(Proto, nat)>, s: State, s': State)
    requires Accounted(initial, s) && SamePorts(s, s')
    requires forall q :: KeptBySome(s'.threads, q) <==> KeptBySome(s.threads, q)
    ensures Accounted(initial, s')
  {
    forall q ensures q in s'.tab.occupied <==> q in initial || HeldBySome(s'.tab, q) || KeptBySome(s'.threads, q) {
      SameHeld(s, s', q);
    }
  }

  /** A goroutine that was not blocked now keeps these ports; the others keep theirs. */
  lemma KeptUpdate(threads: seq<Thread>, t: nat, h: Thread, q: (Proto, nat))
    requires t < |threads| && !threads[t].Stuck?
    ensures KeptBySome(threads[t := h], q) <==> KeptBySome(threads, q) || (h.Stuck? && q in h.kept)
  {
    var threads' := threads[t := h];
    if KeptBySome(threads, q) {
      var u :| 0 <= u < |threads| && threads[u].Stuck? && q in threads[u].kept;
      assert threads'[u] == threads[u];
    }
    if KeptBySome(threads', q) {
      var u :| 0 <= u < |threads'| && threads'[u].Stuck? && q in threads'[u].kept;
      assert u != t ==> threads[u] == threads'[u];
    }
    if h.Stuck? && q in h.kept {
      assert threads'[t] == h;
    }
  }

  lemma KeptAppend(threads: seq<Thread>, h: Thread, q: (Proto, nat))
    requires !h.Stuck?
    ensures KeptBySome(threads + [h], q) <==> KeptBySome(threads, q)
  {
    if KeptBySome(threads, q) {
      var u :| 0 <= u < |threads| && threads[u].Stuck? && q in threads[u].kept;
      assert (threads + [h])[u] == threads[u];
    }
  }

  // ----- starts

  lemma FreePorts(tab: Tables, start: Start)
    requires start.Module? && Fits(Wanted(tab, start))
    ensures On(ProtoOf(start.kind), Wanted(tab, start)) !! tab.occupied
    ensures |Wanted(tab, start)| == start.streams
    ensures forall p :: p in Wanted(tab, start) ==> START_PORT <= p <= Ports.MAX_PORT
  {
    forall q | q in tab.occupied && q.0 == ProtoOf(start.kind) ensures q.1 !in Wanted(tab, start) {
      assert q.1 in Busy(tab, ProtoOf(start.kind));
    }
  }

  /** What a blocked start-up keeps was free before. */
  lemma KeptWereFree(tab: Tables, start: Start)
    requires start.Module?
    ensures On(ProtoOf(start.kind), InRange(Wanted(tab, start))) !! tab.occupied
  {
    forall q | q in tab.occupied && q.0 == ProtoOf(start.kind) ensures q.1 !in InRange(Wanted(tab, start)) {
      assert q.1 in Busy(tab, ProtoOf(start.kind));
    }
  }

  lemma StartedHeld(tab: Tables, newId: string, kind: Kind, streams: nat, ports: set<nat>, q: (Proto, nat))
    requires newId !in tab.msmts
    ensures HeldBySome(Started(tab, newId, kind, streams, ports), q)
            <==> HeldBySome(tab, q) || q in On(ProtoOf(kind), ports)
  {
    var tab' := Started(tab, newId, kind, streams, ports);
    if HeldBySome(tab, q) {
      var a :| a in tab.msmts && q in Held(tab.msmts[a]);
      assert q in Held(tab'.msmts[a]);
    }
    if q in On(ProtoOf(kind), ports) {
      assert q in Held(tab'.msmts[newId]);
    }
    if HeldBySome(tab', q) {
      var a :| a in tab'.msmts && q in Held(tab'.msmts[a]);
      assert a != newId ==> q in Held(tab.msmts[a]);
    }
  }

  lemma BindAccounted(initial: set<(Proto, nat)>, s: State, t: nat, newId: string, start: Start, ports: set<nat>)
    requires Accounted(initial, s) && t < |s.threads| && s.threads[t].Dispatched? && newId !in s.tab.msmts
    requires start.Module? && Fits(ports) && On(ProtoOf(start.kind), ports) !! s.tab.occupied
    requires |ports| == start.streams && forall p :: p in ports ==> START_PORT <= p <= Ports.MAX_PORT
    ensures Accounted(initial, BindApply(s, t, newId, start.kind, start.streams, ports))
  {
    var s' := BindApply(s, t, newId, start.kind, start.streams, ports);
    forall q
      ensures HeldBySome(s'.tab, q) <==> HeldBySome(s.tab, q) || q in On(ProtoOf(start.kind), ports)
      ensures KeptBySome(s'.threads, q) <==> KeptBySome(s.threads, q)
    {
      StartedHeld(s.tab, newId, start.kind, start.streams, ports, q);
      KeptUpdate(s.threads, t, s'.threads[t], q);
    }
    forall a | a in s.tab.msmts ensures Held(s.tab.msmts[a]) !! On(ProtoOf(start.kind), ports) {
      forall q | q in Held(s.tab.msmts[a]) ensures q in s.tab.occupied {
        assert HeldBySome(s.tab, q);
      }
    }
  }

  lemma BlockAccounted(initial: set<(Proto, nat)>, s: State, t: nat, kept: set<(Proto, nat)>, s': State)
    requires Accounted(initial, s) && t < |s.threads| && !s.threads[t].Stuck? && kept !! s.tab.occupied
    requires s' == With(s, t, Stuck(kept)).(tab := s.tab.(occupied := s.tab.occupied + kept))
    ensures Accounted(initial, s')
  {
    forall q ensures KeptBySome(s'.threads, q) <==> KeptBySome(s.threads, q) || q in kept {
      KeptUpdate(s.threads, t, Stuck(kept), q);
    }
    forall q ensures HeldBySome(s'.tab, q) <==> HeldBySome(s.tab, q) {
    }
    forall a, q | a in s.tab.msmts && q in Held(s.tab.msmts[a]) ensures !KeptBySome(s'.threads, q) {
      assert HeldBySome(s.tab, q);
    }
  }

  lemma StartAccounted(initial: set<(Proto, nat)>, s: State, t: nat, newId: string)
    requires Accounted(initial, s) && t < |s.threads| && s.threads[t].Dispatched? && newId !in s.tab.msmts
    ensures var s' := StartApply(s, t, newId); s'.exited == s.exited ==> Accounted(initial, s')
  {
    var start, s' := s.threads[t].req.start, StartApply(s, t, newId);
    if s'.exited == s.exited && s.threads[t].via.ByTcp? {
      match start
      case Unsupported =>
        BlockAccounted(initial, s, t, {}, s');
      case BadConfig =>
        StaysAccounted(initial, s, s');
      case Module(kind, streams, _) =>
        var ports := Wanted(s.tab, start);
        KeptWereFree(s.tab, start);
        if Fits(ports) {
          FreePorts(s.tab, start);
          BindAccounted(initial, s, t, newId, start, ports);
        } else if kind.Tcp? || kind.Udp? {
          StaysAccounted(initial, s, s');
        } else {
          BlockAccounted(initial, s, t, On(ProtoOf(kind), InRange(ports)), s');
        }
    } else if s'.exited == s.exited {
      StaysAccounted(initial, s, s');
    }
  }

  // ----- stops

  lemma StoppedHeld(initial: set<(Proto, nat)>, s: State, id: string, q: (Proto, nat))
    requires Accounted(initial, s) && id in s.tab.msmts
    ensures HeldBySome(Stopped(s.tab, id), q) <==> HeldBySome(s.tab, q) && q !in Held(s.tab.msmts[id])
  {
    var tab' := Stopped(s.tab, id);
    if HeldBySome(s.tab, q) && q !in Held(s.tab.msmts[id]) {
      var a :| a in s.tab.msmts && q in Held(s.tab.msmts[a]);
      assert q in Held(tab'.msmts[a]);
    }
    if HeldBySome(tab', q) {
      var a :| a in tab'.msmts && q in Held(tab'.msmts[a]);
      assert a != id && q in Held(s.tab.msmts[a]);
    }
  }

  lemma StopAccounted(initial: set<(Proto, nat)>, s: State, id: string, s': State)
    requires Accounted(initial, s) && id in s.tab.msmts && s'.tab == Stopped(s.tab, id)
    requires forall q :: KeptBySome(s'.threads, q) <==> KeptBySome(s.threads, q)
    ensures Accounted(initial, s')
  {
    forall q ensures q in s'.tab.occupied <==> q in initial || HeldBySome(s'.tab, q) || KeptBySome(s'.threads, q) {
      StoppedHeld(initial, s, id, q);
    }
  }

  lemma KnownAccounted(initial: set<(Proto, nat)>, s: State, t: nat)
    requires Accounted(initial, s) && t < |s.threads| && s.threads[t].Dispatched?
    ensures Accounted(initial, KnownApply(s, t))
  {
    var s', id := KnownApply(s, t), s.threads[t].req.id;
    forall q ensures KeptBySome(s'.threads, q) <==> KeptBySome(s.threads, q) {
      KeptUpdate(s.threads, t, s'.threads[t], q);
    }
    if s'.tab == s.tab {
      StaysAccounted(initial, s, s');
    } else {
      StopAccounted(initial, s, id, s');
    }
  }

  // ----- every step

  lemma OtherOpAccounted(initial: set<(Proto, nat)>, s: State, t: nat, op: ThreadOp)
    requires Accounted(initial, s) && Enabled(s, OnThread(t, op)) && !op.Call?
    ensures Accounted(initial, OpApply(s, t, op))
  {
    var s' := OpApply(s, t, op);
    OpTouchesOne(s, t, op);
    assert !s.threads[t].Stuck? && !s'.threads[t].Stuck?;
    forall q ensures KeptBySome(s'.threads, q) <==> KeptBySome(s.threads, q) {
      KeptUpdate(s.threads, t, s'.threads[t], q);
    }
    StaysAccounted(initial, s, s');
  }

  lemma DispatchAccounted(initial: set<(Proto, nat)>, s: State)
    requires Accounted(initial, s) && s.main.Got?
    ensures Accounted(initial, DispatchApply(s))
  {
    var s', via := DispatchApply(s), s.main.via;
    forall q ensures KeptBySome(s'.threads, q) <==> KeptBySome(s.threads, q) {
      if Handled(s.main.req.typ) {
        KeptAppend(s.threads, Dispatched(s.main.req, via), q);
      } else if StillRead(s, via) {
        KeptUpdate(s.threads, via.conn, Reading, q);
      }
    }
    StaysAccounted(initial, s, s');
  }

  lemma StepAccounted(initial: set<(Proto, nat)>, s: State, step: Step)
    requires Accounted(initial, s) && Enabled(s, step) && Apply(s, step).exited.None?
    ensures Accounted(initial, Apply(s, step))
  {
    if step.Dispatch? {
      DispatchAccounted(initial, s);
    } else if !step.OnThread? {
      StaysAccounted(initial, s, Apply(s, step));
    } else if !step.op.Call? {
      OtherOpAccounted(initial, s, step.t, step.op);
    } else if s.threads[step.t].req.typ == MEASUREMENT_START_REQUEST {
      StartAccounted(initial, s, step.t, step.op.newId);
    } else {
      KnownAccounted(initial, s, step.t);
    }
  }

  lemma {:induction false} RunAccounted(initial: set<(Proto, nat)>, s: State, steps: seq<Step>)
    requires Accounted(initial, s) && Runnable(s, steps) && Run(s, steps).exited.None?
    ensures Accounted(initial, Run(s, steps))
    decreases |steps|
  {
    if steps != [] {
      ExitIsFinal(Apply(s, steps[0]), steps[1..]);
      StepAccounted(initial, s, steps[0]);
      RunAccounted(initial, Apply(s, steps[0]), steps[1..]);
    }
  }

  lemma ExitIsFinal(s: State, steps: seq<Step>)
    requires Runnable(s, steps) && Run(s, steps).exited.None?
    ensures s.exited.None?
  {
  }

  lemma LeadsAccounted(initial: set<(Proto, nat)>, s: State)
    requires Leads(Init(initial), s) && s.exited.None?
    ensures Accounted(initial, s)
  {
    var steps :| Runnable(Init(initial), steps) && Run(Init(initial), steps) == s;
    RunAccounted(initial, Init(initial), steps);
  }

  /**
   * The account: at any time, after any starts and stops, the occupied ports are exactly those that other
   * listeners had from the beginning, those of listening measurements, and those kept by a blocked start.
   */
  lemma OccupiedExactly(initial: set<(Proto, nat)>, s: State, q: (Proto, nat))
    requires Leads(Init(initial), s) && s.exited.None?
    ensures q in s.tab.occupied <==>
            || q in initial
            || (exists a :: a in s.tab.msmts && q in Held(s.tab.msmts[a]))
            || (exists t :: 0 <= t < |s.threads| && s.threads[t].Stuck? && q in s.threads[t].kept)
  {
    LeadsAccounted(initial, s);
    assert HeldBySome(s.tab, q) <==> exists a :: a in s.tab.msmts && q in Held(s.tab.msmts[a]);
    assert KeptBySome(s.threads, q) <==>
           exists t :: 0 <= t < |s.threads| && s.threads[t].Stuck? && q in s.threads[t].kept;
  }

  // ----- by kinds

  /** Both use TCP sockets, or both use UDP sockets. */
  predicate SameSockets(a: Kind, b: Kind) {
    (a in {Tcp, Tls} && b in {Tcp, Tls}) || (a in {Udp, Quic} && b in {Udp, Quic})
  }

  /** The pair of a port in the account, by kind. */
  function Socket(kind: Kind, port: nat): (Proto, nat) {
    match kind
    case Tcp => (OverTcp, port)
    case Tls => (OverTcp, port)
    case Udp => (OverUdp, port)
    case Quic => (OverUdp, port)
  }

  lemma SocketHeld(m: Msmt, p: nat)
    ensures Socket(m.kind, p) in Held(m) <==> m.listening && p in m.ports
  {
  }

  /** Two measurements that listen on TCP ports, or two that listen on UDP ports, never share a port. */
  lemma NoSharedPorts(s: State, a: string, b: string)
    requires Reachable(s) && s.exited.None? && a in s.tab.msmts && b in s.tab.msmts && a != b
    requires s.tab.msmts[a].listening && s.tab.msmts[b].listening
    requires SameSockets(s.tab.msmts[a].kind, s.tab.msmts[b].kind)
    ensures s.tab.msmts[a].ports !! s.tab.msmts[b].ports
    ensures forall p :: p in s.tab.msmts[a].ports ==> 7000 <= p <= 65535
  {
    var initial :| Leads(Init(initial), s);
    LeadsAccounted(initial, s);
    var m, n := s.tab.msmts[a], s.tab.msmts[b];
    forall p | p in m.ports ensures p !in n.ports {
      SocketHeld(m, p);
      SocketHeld(n, p);
    }
  }

  /**
   * What a start takes, by kind: as many ports as streams, none of them listened on with the same sort of
   * socket, and no free one from 7000 on left out below any of them.
   */
  lemma TakesSmallest(tab: Tables, start: Start, p: nat)
    requires Startable(tab, start) && p in Wanted(tab, start)
    ensures |Wanted(tab, start)| == start.streams
    ensures 7000 <= p <= 65535 && Socket(start.kind, p) !in tab.occupied
    ensures forall q :: 7000 <= q < p && Socket(start.kind, q) !in tab.occupied ==> q in Wanted(tab, start)
  {
    var busy := Busy(tab, ProtoOf(start.kind));
    FreePorts(tab, start);
    Ports.SmallestHasNoGaps(busy, START_PORT, start.streams);
    assert Socket(start.kind, p) in On(ProtoOf(start.kind), Wanted(tab, start));
    assert forall q :: Socket(start.kind, q) !in tab.occupied ==> q !in busy;
  }

  /** Listeners with the other sort of socket do not matter to a start. */
  lemma OtherSocketsIrrelevant(tab: Tables, tab': Tables, start: Start)
    requires start.Module?
    requires forall p :: Socket(start.kind, p) in tab.occupied <==> Socket(start.kind, p) in tab'.occupied
    ensures Wanted(tab, start) == Wanted(tab', start)
  {
    forall p ensures p in Busy(tab, ProtoOf(start.kind)) <==> p in Busy(tab', ProtoOf(start.kind)) {
      assert Socket(start.kind, p) == (ProtoOf(start.kind), p);
    }
    assert Busy(tab, ProtoOf(start.kind)) == Busy(tab', ProtoOf(start.kind));
  }

  /** A served start: the measurement listens on exactly the ports it took, and nothing else has changed. */
  lemma StartTakes(tab: Tables, req: Request, newId: string)
    requires req.typ == MEASUREMENT_START_REQUEST && Serviceable(tab, req) && newId !in tab.msmts
    ensures var tab', kind := AfterService(tab, req, newId), req.start.kind;
      && newId in tab'.recvCh && newId in tab'.msmts
      && tab'.msmts[newId].kind == kind && tab'.msmts[newId].streams == req.start.streams
      && tab'.msmts[newId].listening && tab'.msmts[newId].ports == Wanted(tab, req.start)
      && (forall p :: p in Wanted(tab, req.start) ==> Socket(kind, p) in tab'.occupied)
      && (forall q :: q in tab'.occupied && q !in tab.occupied ==>
            q.1 in Wanted(tab, req.start) && q == Socket(kind, q.1))
      && tab.occupied <= tab'.occupied
      && (forall a :: a in tab.msmts ==> a in tab'.msmts && tab'.msmts[a] == tab.msmts[a])
  {
    forall p | p in Wanted(tab, req.start) ensures Socket(req.start.kind, p) in AfterService(tab, req, newId).occupied {
      assert Socket(req.start.kind, p) in On(ProtoOf(req.start.kind), Wanted(tab, req.start));
    }
  }

  /**
   * A served stop: none of the measurement's ports is occupied any more, all other ports and measurements are
   * as they were, and it no longer listens.
   */
  lemma StopFrees(tab: Tables, req: Request, newId: string)
    requires tab.recvCh <= tab.msmts.Keys && req.typ == MEASUREMENT_STOP_REQUEST && Serviceable(tab, req)
    ensures var tab', m := AfterService(tab, req, newId), tab.msmts[req.id];
      && tab'.recvCh == tab.recvCh && tab'.msmts.Keys == tab.msmts.Keys && !tab'.msmts[req.id].listening
      && (m.listening ==> forall p :: p in m.ports ==> Socket(m.kind, p) !in tab'.occupied)
      && (forall q :: q !in tab'.occupied && q in tab.occupied ==>
            m.listening && q.1 in m.ports && q == Socket(m.kind, q.1))
      && tab'.occupied <= tab.occupied
      && (forall a :: a in tab.msmts && a != req.id ==> tab'.msmts[a] == tab.msmts[a])
  {
    var m := tab.msmts[req.id];
    forall p | m.listening && p in m.ports ensures Socket(m.kind, p) !in AfterService(tab, req, newId).occupied {
      SocketHeld(m, p);
    }
  }

  /**
   * A start right after the stop of a running measurement with the same sort of sockets and as many streams
   * gets no port above all those that the stop gave back.
   */
  lemma RestartNoHigher(initial: set<(Proto, nat)>, s: State, req: Request, start: Start, p: nat)
    requires Leads(Init(initial), s) && s.exited.None? && s.tab.recvCh <= s.tab.msmts.Keys
    requires req.typ == MEASUREMENT_STOP_REQUEST && Serviceable(s.tab, req)
    requires var m := s.tab.msmts[req.id];
      m.listening && start.Module? && start.local && SameSockets(m.kind, start.kind) && m.streams == start.streams
    requires p in Wanted(AfterService(s.tab, req, ""), start)
    ensures Startable(AfterService(s.tab, req, ""), start)
    ensures exists q :: q in s.tab.msmts[req.id].ports && p <= q
  {
    var m, tab' := s.tab.msmts[req.id], AfterService(s.tab, req, "");
    LeadsAccounted(initial, s);
    StopFrees(s.tab, req, "");
    forall q | q in m.ports ensures q !in Busy(tab', ProtoOf(start.kind)) {
      assert Socket(m.kind, q) == (ProtoOf(start.kind), q);
    }
    forall p' | p' in Wanted(tab', start) ensures exists q :: q in m.ports && p' <= q {
      NoneHigher(Busy(tab', ProtoOf(start.kind)), m.ports, start.streams, p');
    }
  }

  lemma NoneHigher(busy: set<nat>, ports: set<nat>, n: nat, p: nat)
    requires |ports| == n && forall q :: q in ports ==> q >= START_PORT && q !in busy
    requires p in Ports.Smallest(busy, START_PORT, n)
    ensures exists q :: q in ports && p <= q
  {
    var smallest := Ports.Smallest(busy, START_PORT, n);
    Ports.SmallestHasNoGaps(busy, START_PORT, n);
    if forall q :: q in ports ==> q < p {
      forall q | q in ports ensures q in smallest - {p} {
      }
      Ports.SubsetSize(ports, smallest - {p});
      assert false;
    }
  }

  // ----- connections and a second stop

  /**
   * After a served stop the measurement can be stopped again unless that stop closed a TCP or TLS connection:
   * closing it twice is an error that ends the process. A UDP or QUIC measurement can always be stopped again.
   */
  lemma SecondStopIff(tab: Tables, req: Request, newId: string)
    requires tab.recvCh <= tab.msmts.Keys && req.typ == MEASUREMENT_STOP_REQUEST && Serviceable(tab, req)
    ensures Serviceable(AfterService(tab, req, newId), req)
            <==> tab.msmts[req.id].kind in {Udp, Quic} || tab.msmts[req.id].open == 0
  {
  }

  /** Never more connections than streams. */
  ghost predicate ConnectionsFit(tab: Tables) {
    forall a :: a in tab.msmts ==>
      tab.msmts[a].arrived + tab.msmts[a].open + tab.msmts[a].closed <= tab.msmts[a].streams
  }

  lemma StepKeepsConnections(s: State, step: Step)
    requires Enabled(s, step) && ConnectionsFit(s.tab)
    ensures ConnectionsFit(Apply(s, step).tab)
  {
    if step.OnThread? && step.op.Call? {
      CallKeepsConnections(s, step.t, step.op.newId);
    }
  }

  lemma CallKeepsConnections(s: State, t: nat, newId: string)
    requires t < |s.threads| && s.threads[t].Dispatched? && ConnectionsFit(s.tab)
    ensures ConnectionsFit(CallApply(s, t, newId).tab)
  {
  }

  lemma {:induction false} RunKeepsConnections(s: State, steps: seq<Step>)
    requires Runnable(s, steps) && ConnectionsFit(s.tab)
    ensures ConnectionsFit(Run(s, steps).tab)
    decreases |steps|
  {
    if steps != [] {
      StepKeepsConnections(s, steps[0]);
      RunKeepsConnections(Apply(s, steps[0]), steps[1..]);
    }
  }

  lemma ConnectionsWithinStreams(s: State, a: string)
    requires Reachable(s) && a in s.tab.msmts
    ensures var m := s.tab.msmts[a]; m.arrived + m.open + m.closed <= m.streams
  {
    var initial :| Leads(Init(initial), s);
    var steps :| Runnable(Init(initial), steps) && Run(Init(initial), steps) == s;
    RunKeepsConnections(Init(initial), steps);
  }

  ghost predicate StoppedWith(tab: Tables, a: string, m: Msmt) {
    && a in tab.msmts && !tab.msmts[a].listening && tab.msmts[a].ports == m.ports
    && tab.msmts[a].arrived + tab.msmts[a].open + tab.msmts[a].closed == m.arrived + m.open + m.closed
    && tab.msmts[a].closed >= m.closed
  }

  lemma CallKeepsStopped(s: State, t: nat, newId: string, a: string, m: Msmt)
    requires Enabled(s, OnThread(t, Call(newId))) && StoppedWith(s.tab, a, m)
    ensures StoppedWith(CallApply(s, t, newId).tab, a, m)
  {
  }

  /** A stopped measurement never listens again and gets no further connection, nor a closed one back. */
  lemma {:induction false} StoppedForGood(s: State, steps: seq<Step>, a: string, m: Msmt)
    requires Runnable(s, steps) && StoppedWith(s.tab, a, m)
    ensures StoppedWith(Run(s, steps).tab, a, m)
    decreases |steps|
  {
    if steps != [] {
      if steps[0].OnThread? && steps[0].op.Call? {
        CallKeepsStopped(s, steps[0].t, steps[0].op.newId, a, m);
      }
      StoppedForGood(Apply(s, steps[0]), steps[1..], a, m);
    }
  }

  // ----- every way a call can go, and every type

  /** What becomes of a start request, by what it asks for and how it came in. */
  lemma StartOutcomes(s: State, t: nat, newId: string)
    requires Enabled(s, OnThread(t, Call(newId))) && s.threads[t].req.typ == MEASUREMENT_START_REQUEST
    ensures var h, s' := s.threads[t], Apply(s, OnThread(t, Call(newId))); var start := h.req.start;
      && (h.via.ByUdp? ==> s'.exited.Some?)
      && (h.via.ByTcp? ==>
            && (start.Unsupported? ==> s'.exited.None? && s'.tab == s.tab && s'.threads[t].Stuck?)
            && (start.BadConfig? ==> s'.exited.Some?)
            && (start.Module? && Startable(s.tab, start) ==> s'.exited.None? && s'.threads[t].Called?)
            && (start.Module? && !Startable(s.tab, start) ==>
                  && (start.kind in {Tcp, Udp} ==> s'.exited.Some?)
                  && (start.kind in {Tls, Quic} ==>
                        s'.exited.None? && s'.threads[t].Stuck? && s'.tab.msmts == s.tab.msmts)))
  {
  }

  /** The ports that a blocked start keeps: those of its ports that exist, for its kind. */
  lemma BlockedKeeps(s: State, t: nat, newId: string, p: nat)
    requires Enabled(s, OnThread(t, Call(newId))) && s.threads[t].req.typ == MEASUREMENT_START_REQUEST
    requires var h := s.threads[t]; h.via.ByTcp? && h.req.start.Module? && h.req.start.kind in {Tls, Quic}
    requires !Startable(s.tab, s.threads[t].req.start)
    ensures var start, h' := s.threads[t].req.start, Apply(s, OnThread(t, Call(newId))).threads[t];
      h'.Stuck? && (Socket(start.kind, p) in h'.kept <==> p in Wanted(s.tab, start) && p <= 65535)
  {
    var start := s.threads[t].req.start;
    SocketOn(start.kind, InRange(Wanted(s.tab, start)), p);
  }

  lemma SocketOn(kind: Kind, ports: set<nat>, p: nat)
    ensures Socket(kind, p) in On(ProtoOf(kind), ports) <==> p in ports
  {
  }

  /** What becomes of a stop or info request. */
  lemma KnownOutcomes(s: State, t: nat, newId: string)
    requires Enabled(s, OnThread(t, Call(newId))) && s.threads[t].req.typ in {5, 7}
    ensures var req, s' := s.threads[t].req, Apply(s, OnThread(t, Call(newId)));
      && (req.id !in s.tab.recvCh || req.id !in s.tab.msmts ==> s'.exited.Some?)
      && (req.id in s.tab.recvCh && req.id in s.tab.msmts ==>
            && (req.typ == 7 ==> s'.exited.None? && s'.threads[t].Called? && s'.tab == s.tab)
            && (req.typ == 5 && s.tab.msmts[req.id].kind in {Tcp, Tls} && s.tab.msmts[req.id].closed > 0 ==>
                  s'.exited.Some?)
            && (req.typ == 5 && (s.tab.msmts[req.id].kind in {Udp, Quic} || s.tab.msmts[req.id].closed == 0) ==>
                  s'.exited.None? && s'.threads[t].Called?))
  {
  }

  /** What becomes of a request at the main loop, by its number. */
  lemma TypeOutcomes(s: State)
    requires Enabled(s, Dispatch)
    ensures var req, via, s' := s.main.req, s.main.via, Apply(s, Dispatch);
      && (req.typ in {1, 3, 5, 7} ==> s'.exited.None? && s'.threads == s.threads + [Dispatched(req, via)])
      && (req.typ in {2, 9, 255} ==> s'.exited.None? && |s'.threads| == |s.threads|)
      && (req.typ !in {1, 2, 3, 5, 7, 9, 255} ==> s'.exited.Some?)
  {
  }
}
