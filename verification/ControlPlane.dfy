/**
 * The server's control plane: acceptor and handler goroutines around one unbuffered request channel and
 * one shared reply variable (control-plane.go, server-protocols/tcp.go, management-plane.go).
 * A client has at most one request outstanding on a connection; measurement ids are fresh; a call into the
 * management plane is one step.
 */
module ControlPlane {
  import opened Wrappers
  import Ports

  const INFO_REQUEST: nat := 1
  const INFO_REPLY: nat := 2
  const MEASUREMENT_START_REQUEST: nat := 3
  const MEASUREMENT_STOP_REQUEST: nat := 5
  const MEASUREMENT_INFO_REQUEST: nat := 7
  const TIME_DIFF_REQUEST: nat := 9
  const WARNING_ERR_MSG: nat := 255

  /** Where every start-up begins to look for ports. */
  const START_PORT: nat := 7000

  datatype Kind = Tcp | Tls | Udp | Quic

  datatype Proto = OverTcp | OverUdp

  function ProtoOf(kind: Kind): Proto { if kind.Tcp? || kind.Tls? then OverTcp else OverUdp }

  /**
   * What a start request asks for: a module name that is not known, a worker count or call size that is no
   * number, or a module with a number of streams (none for a count below one); `local`: its listen address is
   * one that the server has.
   */
  datatype Start = Unsupported | BadConfig | Module(kind: Kind, streams: nat, local: bool)

  datatype Request = Request(typ: nat, seqNo: string, id: string, start: Start)

  datatype Reply = Reply(typ: nat, seqRp: string, id: string)

  /** What a measurement object sends on its reply channel. */
  datatype Payload = StartMap(id: string) | InfoSlice | StopCombined(id: string)

  /**
   * A measurement: its ports and whether it listens on them; how many stream connections were accepted but
   * not yet published to the closing code, are published and open, and were closed by a stop.
   */
  datatype Msmt = Msmt(kind: Kind, streams: nat, ports: set<nat>, listening: bool,
                       arrived: nat, open: nat, closed: nat)

  /** The keys of `recvChStorage`, the measurements, and the ports that anybody listens on. */
  datatype Tables = Tables(recvCh: set<string>, msmts: map<string, Msmt>, occupied: set<(Proto, nat)>)

  /** How a request came in; over TCP, by which goroutine. */
  datatype Via = ByTcp(conn: nat) | ByUdp

  /**
   * A goroutine. Waiting: in AcceptTCP; Reading: in Read on a connection with no request outstanding;
   * Holding: with a request that has not reached the main loop; Watching: in Read again, the request being
   * dealt with. The rest are handler stages; Grabbed and Typed are inside the encoder, which works on the
   * object the shared variable pointed to when it was called. Stuck: blocked in the management plane for ever,
   * with the ports that the workers of its start-up keep.
   */
  datatype Thread =
    | Waiting
    | Reading
    | Holding(req: Request)
    | Watching
    | Gone
    | Dispatched(req: Request, via: Via)
    | Called(req: Request, via: Via, id: string)
    | Received(req: Request, via: Via, payload: Payload)
    | Wrote(req: Request, via: Via)
    | Stored(req: Request, via: Via)
    | Grabbed(req: Request, via: Via, obj: nat)
    | Typed(req: Request, via: Via, obj: nat, typ: nat)
    | Encoded(req: Request, via: Via, answer: Reply)
    | Stuck(kept: set<(Proto, nat)>)

  datatype MainLoop = Idle | Got(req: Request, via: Via)

  datatype Exit = UnknownType | UnknownId | BadPayload | NilAddress | BadStart | NoPort | CloseFailed | Elsewhere

  /**
   * `objs` are the reply objects made so far, `rep` is the shared `repDataObj`, `pending` the payloads
   * offered on reply channels. `answers`, `udpIn` (requests over UDP) and `lost` (connections that ended,
   * and UDP requests that were dropped, with no handler to go back to accept) only record the run.
   */
  datatype State = State(threads: seq<Thread>, main: MainLoop, objs: seq<Reply>, rep: Option<nat>, tab: Tables,
                         pending: multiset<(string, Payload)>, exited: Option<Exit>,
                         answers: seq<(Request, Reply)>, udpIn: nat, lost: nat)

  /** What one goroutine does next; `Call` is the call into the management plane. */
  datatype ThreadOp =
    | Accept
    | Read(req: Request)
    | Deliver
    | Eof
    | Call(newId: string)
    | Receive(p: Payload)
    | Write
    | Store
    | Grab
    | TakeType
    | Clear
    | Answer

  /** Arrives and Publishes are steps of stream workers; Fatal: some other error ends the process. */
  datatype Step =
    | OnThread(t: nat, op: ThreadOp)
    | Dispatch
    | UdpArrives(req: Request)
    | Arrives(id: string)
    | Publishes(id: string)
    | Fatal

  /** Before the first connection, with the ports that other listeners occupy. */
  function Init(occupied: set<(Proto, nat)>): State {
    State([Waiting], Idle, [], None, Tables({}, map[], occupied), multiset{}, None, [], 0, 0)
  }

  predicate Handled(typ: nat) {
    typ in {INFO_REQUEST, MEASUREMENT_START_REQUEST, MEASUREMENT_STOP_REQUEST, MEASUREMENT_INFO_REQUEST}
  }

  /** Types the dispatcher reads and drops without an answer. */
  predicate Dropped(typ: nat) { typ in {INFO_REPLY, TIME_DIFF_REQUEST, WARNING_ERR_MSG} }

  /** The payload a request makes its measurement object produce. */
  function PayloadFor(req: Request, id: string): Payload {
    if req.typ == MEASUREMENT_START_REQUEST then StartMap(id)
    else if req.typ == MEASUREMENT_STOP_REQUEST then StopCombined(id)
    else InfoSlice
  }

  /** The reply built from a payload; None when its type assertion fails. */
  function Construct(req: Request, p: Payload): Option<Reply> {
    if req.typ == MEASUREMENT_START_REQUEST then
      (if p.StartMap? then Some(Reply(4, req.seqNo, p.id)) else None)
    else if req.typ == MEASUREMENT_STOP_REQUEST then
      (if p.StopCombined? then Some(Reply(6, req.seqNo, p.id)) else None)
    else
      (if p.InfoSlice? then Some(Reply(8, req.seqNo, req.id)) else None)
  }

  // ----- the management plane

  function Busy(tab: Tables, proto: Proto): set<nat> {
    set q | q in tab.occupied && q.0 == proto :: q.1
  }

  function On(proto: Proto, ports: set<nat>): set<(Proto, nat)> { set p | p in ports :: (proto, p) }

  /**
   * The ports a start-up ends up with if they all exist. On an address of some other host no port will do,
   * which one port beyond the last stands for.
   */
  function Wanted(tab: Tables, start: Start): set<nat>
    requires start.Module?
  {
    if start.local || start.streams == 0 then
      Ports.Smallest(Busy(tab, ProtoOf(start.kind)), START_PORT, start.streams)
    else
      {Ports.MAX_PORT + 1}
  }

  function InRange(ports: set<nat>): set<nat> { set p | p in ports && p <= Ports.MAX_PORT }

  predicate Fits(ports: set<nat>) { forall p :: p in ports ==> p <= Ports.MAX_PORT }

  function Started(tab: Tables, newId: string, kind: Kind, streams: nat, ports: set<nat>): Tables {
    tab.(msmts := tab.msmts[newId := Msmt(kind, streams, ports, true, 0, 0, 0)],
         occupied := tab.occupied + On(ProtoOf(kind), ports))
  }

  /** The first stop frees the ports; every stop closes the connections that are published and open. */
  function Stopped(tab: Tables, id: string): Tables
    requires id in tab.msmts
  {
    var m := tab.msmts[id];
    tab.(msmts := tab.msmts[id := m.(listening := false, open := 0, closed := m.closed + m.open)],
         occupied := if m.listening then tab.occupied - On(ProtoOf(m.kind), m.ports) else tab.occupied)
  }

  /** Closing a TCP or TLS connection a second time is an error, and the error ends the process. */
  predicate CloseFails(m: Msmt) { (m.kind.Tcp? || m.kind.Tls?) && m.closed > 0 }

  /**
   * A start-up that is to end with these ports. Where some do not exist, the workers that find a port keep it,
   * and past the last port a TCP or UDP worker exits while a TLS or QUIC worker searches on for ever.
   */
  function BindApply(s: State, t: nat, newId: string, kind: Kind, streams: nat, ports: set<nat>): State
    requires t < |s.threads| && s.threads[t].Dispatched?
  {
    var h := s.threads[t];
    if Fits(ports) then
      With(s, t, Called(h.req, h.via, newId)).(
        tab := Started(s.tab, newId, kind, streams, ports), pending := s.pending + multiset{(newId, StartMap(newId))})
    else if kind.Tcp? || kind.Udp? then Exiting(s, NoPort)
    else
      var kept := On(ProtoOf(kind), InRange(ports));
      With(s, t, Stuck(kept)).(tab := s.tab.(occupied := s.tab.occupied + kept))
  }

  function StartApply(s: State, t: nat, newId: string): State
    requires t < |s.threads| && s.threads[t].Dispatched?
  {
    var h := s.threads[t];
    if h.via.ByUdp? then Exiting(s, NilAddress)
    else match h.req.start
      case Unsupported => With(s, t, Stuck({}))
      case BadConfig => Exiting(s, BadStart)
      case Module(kind, streams, _) => BindApply(s, t, newId, kind, streams, Wanted(s.tab, h.req.start))
  }

  function KnownApply(s: State, t: nat): State
    requires t < |s.threads| && s.threads[t].Dispatched?
  {
    var h := s.threads[t];
    var id := h.req.id;
    if id !in s.tab.recvCh || id !in s.tab.msmts then Exiting(s, UnknownId)
    else if h.req.typ == MEASUREMENT_STOP_REQUEST && CloseFails(s.tab.msmts[id]) then Exiting(s, CloseFailed)
    else With(s, t, Called(h.req, h.via, id)).(
      tab := if h.req.typ == MEASUREMENT_STOP_REQUEST then Stopped(s.tab, id) else s.tab,
      pending := s.pending + multiset{(id, PayloadFor(h.req, id))})
  }

  function CallApply(s: State, t: nat, newId: string): State
    requires t < |s.threads| && s.threads[t].Dispatched?
  {
    if s.threads[t].req.typ == MEASUREMENT_START_REQUEST then StartApply(s, t, newId) else KnownApply(s, t)
  }

  // ----- the goroutines

  /** The object the shared variable points to. */
  predicate HasReply(s: State) { s.rep.Some? && s.rep.value < |s.objs| }

  function Current(s: State): Reply
    requires HasReply(s)
  {
    s.objs[s.rep.value]
  }

  predicate OpEnabled(s: State, h: Thread, op: ThreadOp) {
    match op
    case Accept => h.Waiting?
    case Read(req) => h.Reading?
    case Deliver => h.Holding? && s.main.Idle?
    case Eof => h.Watching? || h.Reading?
    case Call(newId) => h.Dispatched? && h.req.typ != INFO_REQUEST && newId !in s.tab.msmts
    case Receive(p) => h.Called? && (h.id, p) in s.pending
    case Write => h.Received? || (h.Dispatched? && h.req.typ == INFO_REQUEST)
    case Store => h.Wrote? && h.req.typ == MEASUREMENT_START_REQUEST && HasReply(s)
    case Grab => HasReply(s) && (h.Stored? || (h.Wrote? && h.req.typ != MEASUREMENT_START_REQUEST))
    case TakeType => h.Grabbed? && h.obj < |s.objs|
    case Clear => h.Typed? && h.obj < |s.objs|
    case Answer => h.Encoded?
  }

  predicate Enabled(s: State, step: Step) {
    s.exited.None? &&
    match step
    case OnThread(t, op) => t < |s.threads| && OpEnabled(s, s.threads[t], op)
    case Dispatch => s.main.Got?
    case UdpArrives(req) => s.main.Idle?
    case Arrives(id) => id in s.tab.msmts && MayArrive(s.tab.msmts[id])
    case Publishes(id) => id in s.tab.msmts && s.tab.msmts[id].arrived > 0
    case Fatal => true
  }

  predicate MayArrive(m: Msmt) { m.listening && m.arrived + m.open + m.closed < m.streams }

  function With(s: State, t: nat, thread: Thread): State
    requires t < |s.threads|
  {
    s.(threads := s.threads[t := thread])
  }

  function Exiting(s: State, cause: Exit): State { s.(exited := Some(cause)) }

  /** A handler makes its reply object and lets the shared variable point to it. */
  function WriteApply(s: State, t: nat): State
    requires t < |s.threads| && OpEnabled(s, s.threads[t], Write)
  {
    var h := s.threads[t];
    var reply := if h.Received? then Construct(h.req, h.payload) else Some(Reply(INFO_REPLY, h.req.seqNo, ""));
    if reply.None? then Exiting(s, BadPayload)
    else With(s, t, Wrote(h.req, h.via)).(objs := s.objs + [reply.value], rep := Some(|s.objs|))
  }

  /** The encoder clears the type in the object and writes out the rest of it behind the type it took. */
  function ClearApply(s: State, t: nat): State
    requires t < |s.threads| && OpEnabled(s, s.threads[t], Clear)
  {
    var h := s.threads[t];
    With(s, t, Encoded(h.req, h.via, s.objs[h.obj].(typ := h.typ))).(
      objs := s.objs[h.obj := s.objs[h.obj].(typ := 0)])
  }

  function OpApply(s: State, t: nat, op: ThreadOp): State
    requires t < |s.threads| && OpEnabled(s, s.threads[t], op)
  {
    var h := s.threads[t];
    match op
    case Accept => With(s, t, Reading)
    case Read(req) => With(s, t, Holding(req))
    case Deliver => With(s, t, Watching).(main := Got(h.req, ByTcp(t)))
    case Eof => With(s, t, Gone).(lost := s.lost + (if h.Reading? then 1 else 0))
    case Call(newId) => CallApply(s, t, newId)
    case Receive(p) => With(s, t, Received(h.req, h.via, p)).(pending := s.pending - multiset{(h.id, p)})
    case Write => WriteApply(s, t)
    case Store => With(s, t, Stored(h.req, h.via)).(tab := s.tab.(recvCh := s.tab.recvCh + {Current(s).id}))
    case Grab => With(s, t, Grabbed(h.req, h.via, s.rep.value))
    case TakeType => With(s, t, Typed(h.req, h.via, h.obj, s.objs[h.obj].typ))
    case Clear => ClearApply(s, t)
    case Answer =>
      // the connection is closed, and the same goroutine calls HandleTcpConn
      With(s, t, Waiting).(answers := s.answers + [(h.req, h.answer)])
  }

  /** The connection a request came in by is still being read. */
  predicate StillRead(s: State, via: Via) {
    via.ByTcp? && via.conn < |s.threads| && s.threads[via.conn].Watching?
  }

  function DispatchApply(s: State): State
    requires s.main.Got?
  {
    var req, via := s.main.req, s.main.via;
    if Handled(req.typ) then s.(main := Idle, threads := s.threads + [Dispatched(req, via)])
    else if !Dropped(req.typ) then Exiting(s, UnknownType)
    else if StillRead(s, via) then With(s, via.conn, Reading).(main := Idle)
    else s.(main := Idle, lost := s.lost + 1)
  }

  function Update(s: State, id: string, m: Msmt): State { s.(tab := s.tab.(msmts := s.tab.msmts[id := m])) }

  function Apply(s: State, step: Step): State
    requires Enabled(s, step)
  {
    match step
    case OnThread(t, op) => OpApply(s, t, op)
    case Dispatch => DispatchApply(s)
    case UdpArrives(req) => s.(main := Got(req, ByUdp), udpIn := s.udpIn + 1)
    case Arrives(id) => var m := s.tab.msmts[id]; Update(s, id, m.(arrived := m.arrived + 1))
    case Publishes(id) => var m := s.tab.msmts[id]; Update(s, id, m.(arrived := m.arrived - 1, open := m.open + 1))
    case Fatal => Exiting(s, Elsewhere)
  }

  predicate Runnable(s: State, steps: seq<Step>)
    decreases |steps|
  {
    steps == [] || (Enabled(s, steps[0]) && Runnable(Apply(s, steps[0]), steps[1..]))
  }

  function Run(s: State, steps: seq<Step>): State
    requires Runnable(s, steps)
    decreases |steps|
  {
    if steps == [] then s else Run(Apply(s, steps[0]), steps[1..])
  }

  /** Some run leads from one state to the other. */
  ghost predicate Leads(s: State, s': State) {
    exists steps :: Runnable(s, steps) && Run(s, steps) == s'
  }

  ghost predicate Reachable(s: State) { exists occupied :: Leads(Init(occupied), s) }

  lemma LeadsNowhere(s: State)
    ensures Leads(s, s)
  {
    assert Runnable(s, []) && Run(s, []) == s;
  }

  lemma {:induction false} RunConcat(s: State, first: seq<Step>, second: seq<Step>, all: seq<Step>)
    requires Runnable(s, first) && Runnable(Run(s, first), second) && all == first + second
    ensures Runnable(s, all) && Run(s, all) == Run(Run(s, first), second)
    decreases |first|
  {
    if first == [] {
      assert all == second;
    } else {
      assert all[0] == first[0] && all[1..] == first[1..] + second;
      var next := Apply(s, first[0]);
      RunConcat(next, first[1..], second, all[1..]);
    }
  }

  lemma LeadsOn(s: State, mid: State, s': State)
    requires Leads(s, mid) && Leads(mid, s')
    ensures Leads(s, s')
  {
    var first :| Runnable(s, first) && Run(s, first) == mid;
    var second :| Runnable(mid, second) && Run(mid, second) == s';
    RunConcat(s, first, second, first + second);
  }

  lemma LeadsByStep(s: State, step: Step)
    requires Enabled(s, step)
    ensures Leads(s, Apply(s, step))
  {
    assert [step][1..] == [];
    assert Run(Apply(s, step), []) == Apply(s, step);
    assert Runnable(s, [step]) && Run(s, [step]) == Apply(s, step);
  }

  // ----- the token

  /** The goroutine waits in accept, reads with no request outstanding or not taken up, or is a handler. */
  predicate Token(t: Thread) { !t.Watching? && !t.Gone? }

  function ThreadTokens(threads: seq<Thread>): nat {
    if threads == [] then 0
    else ThreadTokens(threads[..|threads| - 1]) + (if Token(threads[|threads| - 1]) then 1 else 0)
  }

  function Tokens(s: State): nat {
    ThreadTokens(s.threads) + (if s.main.Got? then 1 else 0)
  }

  lemma {:induction false} TokensUpdate(threads: seq<Thread>, t: nat, thread: Thread)
    requires t < |threads|
    ensures ThreadTokens(threads[t := thread])
            == ThreadTokens(threads) - (if Token(threads[t]) then 1 else 0) + (if Token(thread) then 1 else 0)
  {
    var n := |threads| - 1;
    if t == n {
      assert threads[t := thread][..n] == threads[..n];
    } else {
      assert threads[t := thread][..n] == threads[..n][t := thread];
      TokensUpdate(threads[..n], t, thread);
    }
  }

  lemma {:induction false} TokensOfTwo(threads: seq<Thread>, t: nat, u: nat)
    requires t < u < |threads| && Token(threads[t]) && Token(threads[u])
    ensures ThreadTokens(threads) >= 2
  {
    var n := |threads| - 1;
    if u < n {
      TokensOfTwo(threads[..n], t, u);
    } else {
      TokenOfOne(threads[..n], t);
    }
  }

  lemma {:induction false} TokenOfOne(threads: seq<Thread>, t: nat)
    requires t < |threads| && Token(threads[t])
    ensures ThreadTokens(threads) >= 1
  {
    var n := |threads| - 1;
    if t < n {
      TokenOfOne(threads[..n], t);
    }
  }

  lemma TokensAppend(threads: seq<Thread>, thread: Thread)
    ensures ThreadTokens(threads + [thread]) == ThreadTokens(threads) + (if Token(thread) then 1 else 0)
  {
    assert (threads + [thread])[..|threads|] == threads;
  }

  /**
   * The token balance: one to begin with, one more for every UDP request, one less for every connection that
   * ended, and every UDP request that was dropped, with no handler to go back to accept.
   */
  ghost predicate Balanced(s: State) {
    Tokens(s) + s.lost == 1 + s.udpIn
  }

  /** What a goroutine that has called the management plane waits for: its own payload, from a known measurement. */
  predicate Awaits(h: Thread, called: Thread, tab: Tables, offered: multiset<(string, Payload)>) {
    && h.Dispatched? && called.Called? && called.req == h.req && called.via == h.via && called.id in tab.msmts
    && (h.req.typ != MEASUREMENT_START_REQUEST ==> called.id == h.req.id)
    && offered == multiset{(called.id, PayloadFor(h.req, called.id))}
  }

  /** Of the goroutines only this one changes, and beside it only the tables, the reply channels, or the exit. */
  predicate CallTouches(s: State, t: nat, s': State) {
    && t < |s.threads| == |s'.threads| && s'.threads == s.threads[t := s'.threads[t]]
    && s'.main == s.main && s'.objs == s.objs && s'.rep == s.rep && s'.answers == s.answers
    && s'.udpIn == s.udpIn && s'.lost == s.lost
    && s'.tab.recvCh == s.tab.recvCh && s.tab.msmts.Keys <= s'.tab.msmts.Keys
    && (s'.exited == s.exited || s'.exited != Some(BadPayload))
    && s.pending <= s'.pending
    && (if s'.threads[t].Called? then Awaits(s.threads[t], s'.threads[t], s'.tab, s'.pending - s.pending)
        else s'.pending == s.pending && (s'.threads[t].Stuck? || s'.threads[t] == s.threads[t]))
  }

  lemma BindTouchesOne(s: State, t: nat, newId: string, kind: Kind, streams: nat, ports: set<nat>)
    requires t < |s.threads| && s.threads[t].Dispatched? && s.threads[t].req.typ == MEASUREMENT_START_REQUEST
    ensures CallTouches(s, t, BindApply(s, t, newId, kind, streams, ports))
  {
  }

  lemma StartTouchesOne(s: State, t: nat, newId: string)
    requires t < |s.threads| && s.threads[t].Dispatched? && s.threads[t].req.typ == MEASUREMENT_START_REQUEST
    ensures CallTouches(s, t, StartApply(s, t, newId))
  {
    var start := s.threads[t].req.start;
    if start.Module? {
      BindTouchesOne(s, t, newId, start.kind, start.streams, Wanted(s.tab, start));
    }
  }

  lemma CallTouchesOne(s: State, t: nat, newId: string)
    requires t < |s.threads| && s.threads[t].Dispatched?
    ensures CallTouches(s, t, CallApply(s, t, newId))
  {
    if s.threads[t].req.typ == MEASUREMENT_START_REQUEST {
      StartTouchesOne(s, t, newId);
    } else {
      KnownTouchesOne(s, t);
    }
  }

  lemma KnownTouchesOne(s: State, t: nat)
    requires t < |s.threads| && s.threads[t].Dispatched? && s.threads[t].req.typ != MEASUREMENT_START_REQUEST
    ensures CallTouches(s, t, KnownApply(s, t))
  {
  }

  /** A goroutine's step changes no other goroutine. */
  lemma OpTouchesOne(s: State, t: nat, op: ThreadOp)
    requires t < |s.threads| && OpEnabled(s, s.threads[t], op)
    ensures var s' := OpApply(s, t, op);
      |s'.threads| == |s.threads| && s'.threads == s.threads[t := s'.threads[t]]
  {
    if op.Call? {
      CallTouchesOne(s, t, op.newId);
    }
  }

  /** The tokens of one goroutine and the main loop, with those lost. */
  function Share(s: State, t: nat): nat
    requires t < |s.threads|
  {
    (if Token(s.threads[t]) then 1 else 0) + (if s.main.Got? then 1 else 0) + s.lost
  }

  lemma ConnectionKeepsShare(s: State, t: nat, op: ThreadOp)
    requires t < |s.threads| && OpEnabled(s, s.threads[t], op)
    requires op.Accept? || op.Read? || op.Deliver? || op.Eof?
    ensures Share(OpApply(s, t, op), t) == Share(s, t) && OpApply(s, t, op).udpIn == s.udpIn
  {
  }

  lemma CallKeepsShare(s: State, t: nat, newId: string)
    requires t < |s.threads| && s.threads[t].Dispatched?
    ensures Share(CallApply(s, t, newId), t) == Share(s, t) && CallApply(s, t, newId).udpIn == s.udpIn
  {
    CallTouchesOne(s, t, newId);
  }

  lemma HandlerKeepsShare(s: State, t: nat, op: ThreadOp)
    requires t < |s.threads| && OpEnabled(s, s.threads[t], op)
    requires op.Receive? || op.Write? || op.Store? || op.Grab? || op.TakeType? || op.Clear? || op.Answer?
    ensures Share(OpApply(s, t, op), t) == Share(s, t) && OpApply(s, t, op).udpIn == s.udpIn
  {
  }

  lemma OpKeepsShare(s: State, t: nat, op: ThreadOp)
    requires t < |s.threads| && OpEnabled(s, s.threads[t], op)
    ensures Share(OpApply(s, t, op), t) == Share(s, t) && OpApply(s, t, op).udpIn == s.udpIn
  {
    match op
    case Call(newId) => CallKeepsShare(s, t, newId);
    case Accept => ConnectionKeepsShare(s, t, op);
    case Read(_) => ConnectionKeepsShare(s, t, op);
    case Deliver => ConnectionKeepsShare(s, t, op);
    case Eof => ConnectionKeepsShare(s, t, op);
    case _ => HandlerKeepsShare(s, t, op);
  }

  lemma OpKeepsBalance(s: State, t: nat, op: ThreadOp)
    requires Balanced(s) && t < |s.threads| && OpEnabled(s, s.threads[t], op)
    ensures Balanced(OpApply(s, t, op))
  {
    var s' := OpApply(s, t, op);
    OpKeepsShare(s, t, op);
    OpTouchesOne(s, t, op);
    TokensUpdate(s.threads, t, s'.threads[t]);
  }

  lemma DispatchKeepsBalance(s: State)
    requires Balanced(s) && s.main.Got?
    ensures Balanced(DispatchApply(s))
  {
    var req, via := s.main.req, s.main.via;
    if Handled(req.typ) {
      TokensAppend(s.threads, Dispatched(req, via));
    } else if StillRead(s, via) {
      TokensUpdate(s.threads, via.conn, Reading);
    }
  }

  lemma StepKeepsBalance(s: State, step: Step)
    requires Balanced(s) && Enabled(s, step)
    ensures Balanced(Apply(s, step))
  {
    match step
    case OnThread(t, op) => OpKeepsBalance(s, t, op);
    case Dispatch => DispatchKeepsBalance(s);
    case _ =>
  }

  lemma {:induction false} RunKeepsBalance(s: State, steps: seq<Step>)
    requires Balanced(s) && Runnable(s, steps)
    ensures Balanced(Run(s, steps))
    decreases |steps|
  {
    if steps != [] {
      StepKeepsBalance(s, steps[0]);
      RunKeepsBalance(Apply(s, steps[0]), steps[1..]);
    }
  }

  lemma ReachableBalanced(s: State)
    requires Reachable(s)
    ensures Balanced(s)
  {
    var occupied :| Leads(Init(occupied), s);
    var steps :| Runnable(Init(occupied), steps) && Run(Init(occupied), steps) == s;
    InitBalanced(occupied);
    RunKeepsBalance(Init(occupied), steps);
  }

  lemma InitBalanced(occupied: set<(Proto, nat)>)
    ensures Balanced(Init(occupied))
  {
    TokensAppend([], Waiting);
    assert [] + [Waiting] == [Waiting];
  }
}
