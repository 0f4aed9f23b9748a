/**
 * One measurement run as a state machine: client workers, the network, server workers, and the
 * client's manager, which polls the counters, decides, closes the workers and stops the server
 * (mapago-client.go, measurement-plane/). Any interleaving of the enabled steps is a run.
 */
module RunModel {
  import opened Wrappers
  import opened Sequences
  import Telemetry

  datatype Transport = Tcp | Udp | Quic

  /** `update` and `deadline` are in clock ticks; `streamBytes` is every worker's share of `total`. */
  datatype Config = Config(transport: Transport, workers: nat, total: nat, streamBytes: nat, callSize: nat,
                           update: nat, deadline: nat)

  // ----- one stream: a client worker, the bytes on the way, a server worker

  /** NoRoute and Broken are the silent returns of a worker; GaveUp returns after `wg.Done`. */
  datatype Client = Dialing | Sending | Quitting | Exited | NoRoute | Broken | GaveUp

  /** Accepted: connection accepted, not yet published to the closing code. */
  datatype Server = Listening | Accepted | Reading | Ended

  /**
   * `remaining` is the worker's `streamBytes`; `extra` counts bytes that reached the network in a write
   * reported as failed; `held` were read by the server worker but not yet added to `bytes`.
   */
  datatype Stream = Stream(client: Client, remaining: nat, extra: nat, inFlight: nat, held: nat, lost: nat,
                           bytes: nat, server: Server, open: bool)

  datatype StreamOp =
    | Dial | DialFails
    | Write(n: nat) | WriteFails(n: nat) | WriteRetried(n: nat) | IdleOut(n: nat)
    | WorkerExit
    | Lose(n: nat)
    | Accept | Publish | ServerRead(n: nat) | AddBytes | ServerEnds

  /** The size of the next write: a whole buffer, or what is left of the share. */
  function Chunk(remaining: nat, callSize: nat): nat {
    if remaining >= callSize then callSize else remaining
  }

  predicate Connected(client: Client) { client != Dialing && client != NoRoute }

  predicate MayLose(c: Config, st: Stream) {
    c.transport.Udp? || !st.open || st.client == Broken
    || (c.transport.Quic? && st.client in {Quitting, Exited, GaveUp})
  }

  predicate OpEnabled(c: Config, st: Stream, op: StreamOp) {
    match op
    case Dial => st.client == Dialing
    case DialFails => st.client == Dialing && !c.transport.Udp?
    case Write(n) => st.client == Sending && st.remaining > 0 && n <= Chunk(st.remaining, c.callSize)
    case WriteFails(n) =>
      c.transport.Tcp? && st.client == Sending && st.remaining > 0 && n <= Chunk(st.remaining, c.callSize)
    case WriteRetried(n) =>
      c.transport.Quic? && st.client == Sending && st.remaining > 0 && n <= Chunk(st.remaining, c.callSize)
    case IdleOut(n) =>
      c.transport.Quic? && st.client == Sending && st.remaining > 0 && n <= Chunk(st.remaining, c.callSize)
    case WorkerExit => st.client == Quitting
    case Lose(n) => n <= st.inFlight && MayLose(c, st)
    case Accept => st.server == Listening && st.open && Connected(st.client)
    case Publish => st.server == Accepted
    case ServerRead(n) =>
      st.server == Reading && st.open && st.held == 0 && 1 <= n <= st.inFlight && n <= c.callSize
    case AddBytes => st.held > 0
    case ServerEnds =>
      st.held == 0 && st.server in {Listening, Reading} &&
      (!st.open || (st.server == Reading && !c.transport.Udp? && st.inFlight == 0 &&
                    st.client in {Exited, Broken, GaveUp}))
  }

  function OpApply(c: Config, st: Stream, op: StreamOp): Stream
    requires OpEnabled(c, st, op)
  {
    match op
    case Dial => st.(client := Sending)
    case DialFails => st.(client := NoRoute)
    case Write(n) => st.(remaining := st.remaining - n, inFlight := st.inFlight + n)
    case WriteFails(n) => st.(client := Broken, extra := st.extra + n, inFlight := st.inFlight + n)
    case WriteRetried(n) => st.(extra := st.extra + n, inFlight := st.inFlight + n)
    case IdleOut(n) => st.(client := GaveUp, extra := st.extra + n, inFlight := st.inFlight + n)
    case WorkerExit => st.(client := Exited)
    case Lose(n) => st.(inFlight := st.inFlight - n, lost := st.lost + n)
    case Accept => st.(server := Accepted)
    case Publish => st.(server := Reading)
    case ServerRead(n) => st.(inFlight := st.inFlight - n, held := n)
    case AddBytes => st.(bytes := st.bytes + st.held, held := 0)
    case ServerEnds => st.(server := Ended)
  }

  /** The operations that end in `wg.Done`. */
  predicate SignalsDone(op: StreamOp) { op.WorkerExit? || op.IdleOut? }

  /** The server's close of one stream: an accepted socket that is not published yet stays open. */
  function CloseSockets(st: Stream): Stream {
    if st.server == Accepted then st else st.(open := false)
  }

  // ----- the manager

  /** A Go timer and its channel: ticks left while running, and whether the channel holds a value. */
  datatype Timer = Timer(left: nat, fired: bool)

  function Ticked(t: Timer): Timer {
    if t.left == 0 then t else Timer(t.left - 1, t.fired || t.left == 1)
  }

  /** `Reset` restarts the timer and leaves a value already in the channel there. */
  function Reset(t: Timer, d: nat): Timer { Timer(d, t.fired || d == 0) }

  datatype Verdict = Undecided | Finished | TimedOut

  /**
   * Select: about to evaluate the select; Deciding: its default case was chosen; Polling and Stopping
   * hold the counters read so far for the reply (`base`: the counters when the request came in).
   */
  datatype Phase =
    | Select
    | Deciding
    | Polling(base: seq<nat>, counts: seq<nat>)
    | Closing(sent: nat)
    | Waiting
    | Stopping(base: seq<nat>, closed: set<nat>, counts: seq<nat>)
    | Done(reply: seq<nat>)
    | GivenUp

  datatype Manager = Manager(phase: Phase, verdict: Verdict, curr: nat, last: nat, info: Timer, deadline: Timer)

  /** What the properties speak of but the program does not store. */
  datatype History = History(now: nat, raisedAt: nat, stale: bool, raises: nat, seen: set<nat>)

  datatype Control = Control(mgr: Manager, hist: History)

  datatype MgrOp = InfoBranch | PollRead | PollDone | DeadlineBranch | DefaultBranch | Decide
    | SendsDone | WaitReturns | StopRead | StopDone

  predicate Managing(p: Phase) { p.Select? || p.Deciding? || p.Polling? }

  predicate MgrEnabled(c: Config, bytes: seq<nat>, waitGroup: int, m: Manager, op: MgrOp) {
    match op
    case InfoBranch => m.phase == Select && m.info.fired
    case PollRead => m.phase.Polling? && |m.phase.counts| < |bytes|
    case PollDone => m.phase.Polling? && |m.phase.counts| == |bytes|
    case DeadlineBranch => m.phase == Select && m.deadline.fired
    case DefaultBranch => m.phase == Select && !m.info.fired && !m.deadline.fired
    case Decide => m.phase == Deciding
    case SendsDone => m.phase == Closing(c.workers)
    case WaitReturns => m.phase == Waiting && waitGroup == 0
    case StopRead =>
      m.phase.Stopping? && |m.phase.counts| < |bytes| && (forall i :: 0 <= i < |bytes| ==> i in m.phase.closed)
    case StopDone => m.phase.Stopping? && |m.phase.counts| == |bytes|
  }

  /** The raise of `lastSrvBytes` with the reset of the deadline, then the finish test. */
  function Decided(c: Config, k: Control): Control {
    var m, h := k.mgr, k.hist;
    var raise := m.curr > m.last;
    var finished := m.curr >= c.total;
    Control(
      m.(last := if raise then m.curr else m.last,
         deadline := if raise then Reset(m.deadline, c.deadline) else m.deadline,
         verdict := if finished then Finished else m.verdict,
         phase := if finished then Closing(0) else Select),
      History(h.now,
              if raise then h.now else h.raisedAt,
              if raise then m.deadline.fired else h.stale,
              if raise then h.raises + 1 else h.raises,
              h.seen + {m.curr}))
  }

  function MgrApply(c: Config, bytes: seq<nat>, waitGroup: int, k: Control, op: MgrOp): Control
    requires MgrEnabled(c, bytes, waitGroup, k.mgr, op)
  {
    var m := k.mgr;
    match op
    case InfoBranch => k.(mgr := m.(phase := Polling(bytes, []), info := m.info.(fired := false)))
    case PollRead => k.(mgr := m.(phase := Polling(m.phase.base, m.phase.counts + [bytes[|m.phase.counts|]])))
    case PollDone =>
      (match Telemetry.Counted(Telemetry.Received(m.phase.counts))
       case None => k.(mgr := m.(phase := GivenUp))
       case Some(total) => k.(mgr := m.(phase := Select, curr := total, info := Reset(m.info, c.update))))
    case DeadlineBranch =>
      var next := if c.transport.Quic? then Stopping(bytes, {}, []) else Closing(0);
      k.(mgr := m.(phase := next, verdict := TimedOut, deadline := m.deadline.(fired := false)))
    case DefaultBranch => k.(mgr := m.(phase := Deciding))
    case Decide => Decided(c, k)
    case SendsDone => k.(mgr := m.(phase := Waiting))
    case WaitReturns => k.(mgr := m.(phase := Stopping(bytes, {}, [])))
    case StopRead =>
      k.(mgr := m.(phase := m.phase.(counts := m.phase.counts + [bytes[|m.phase.counts|]])))
    case StopDone => k.(mgr := m.(phase := Done(m.phase.counts)))
  }

  // ----- the whole run

  datatype State = State(streams: seq<Stream>, waitGroup: int, k: Control)

  datatype Step =
    | OnStream(i: nat, op: StreamOp)
    | OnManager(mop: MgrOp)
    | Rendezvous(i: nat)
    | StopClose(i: nat)
    | Tick

  function Bytes(streams: seq<Stream>): seq<nat> {
    seq(|streams|, i requires 0 <= i < |streams| => streams[i].bytes)
  }

  function Total(s: State): nat { Sum(Bytes(s.streams)) }

  predicate Enabled(c: Config, s: State, step: Step) {
    match step
    case OnStream(i, op) => i < |s.streams| && OpEnabled(c, s.streams[i], op)
    case OnManager(op) => MgrEnabled(c, Bytes(s.streams), s.waitGroup, s.k.mgr, op)
    case Rendezvous(i) =>
      s.k.mgr.phase.Closing? && s.k.mgr.phase.sent < c.workers && i < |s.streams| && s.streams[i].client == Sending
    case StopClose(i) => s.k.mgr.phase.Stopping? && i < |s.streams| && i !in s.k.mgr.phase.closed
    case Tick => true
  }

  function Apply(c: Config, s: State, step: Step): State
    requires Enabled(c, s, step)
  {
    var m := s.k.mgr;
    match step
    case OnStream(i, op) =>
      State(s.streams[i := OpApply(c, s.streams[i], op)],
            s.waitGroup - (if SignalsDone(op) then 1 else 0), s.k)
    case OnManager(op) => s.(k := MgrApply(c, Bytes(s.streams), s.waitGroup, s.k, op))
    case Rendezvous(i) =>
      s.(streams := s.streams[i := s.streams[i].(client := Quitting)],
         k := s.k.(mgr := m.(phase := Closing(m.phase.sent + 1))))
    case StopClose(i) =>
      s.(streams := s.streams[i := CloseSockets(s.streams[i])],
         k := s.k.(mgr := m.(phase := m.phase.(closed := m.phase.closed + {i}))))
    case Tick =>
      s.(k := Control(m.(info := Ticked(m.info), deadline := Ticked(m.deadline)),
                      s.k.hist.(now := s.k.hist.now + 1)))
  }

  function InitialStream(c: Config): Stream {
    Stream(Dialing, c.streamBytes, 0, 0, 0, 0, 0, if c.transport.Udp? then Reading else Listening, true)
  }

  /** The manage loop is entered with one client worker for every port the server reported. */
  function Init(c: Config): State {
    State(seq(c.workers, _ => InitialStream(c)), c.workers,
          Control(Manager(Select, Undecided, 0, 0,
                          Reset(Timer(0, false), c.update), Reset(Timer(0, false), c.deadline)),
                  History(0, 0, false, 0, {})))
  }

  predicate Runnable(c: Config, s: State, steps: seq<Step>)
    decreases |steps|
  {
    steps == [] || (Enabled(c, s, steps[0]) && Runnable(c, Apply(c, s, steps[0]), steps[1..]))
  }

  function Run(c: Config, s: State, steps: seq<Step>): State
    requires Runnable(c, s, steps)
    decreases |steps|
  {
    if steps == [] then s else Run(c, Apply(c, s, steps[0]), steps[1..])
  }

  /** Some run leads from one state to the other. */
  ghost predicate Leads(c: Config, s: State, s': State) {
    exists steps :: Runnable(c, s, steps) && Run(c, s, steps) == s'
  }

  /** Reached from the start of the run by some sequence of enabled steps. */
  ghost predicate Reachable(c: Config, s: State) { Leads(c, Init(c), s) }

  lemma LeadsNowhere(c: Config, s: State)
    ensures Leads(c, s, s)
  {
    assert Runnable(c, s, []) && Run(c, s, []) == s;
  }

  lemma {:induction false} RunConcat(c: Config, s: State, first: seq<Step>, second: seq<Step>)
    requires Runnable(c, s, first) && Runnable(c, Run(c, s, first), second)
    ensures Runnable(c, s, first + second) && Run(c, s, first + second) == Run(c, Run(c, s, first), second)
    decreases |first|
  {
    if first == [] {
      assert [] + second == second;
    } else {
      assert (first + second)[1..] == first[1..] + second;
      RunConcat(c, Apply(c, s, first[0]), first[1..], second);
    }
  }

  lemma LeadsOn(c: Config, s: State, mid: State, s': State)
    requires Leads(c, s, mid) && Leads(c, mid, s')
    ensures Leads(c, s, s')
  {
    var first :| Runnable(c, s, first) && Run(c, s, first) == mid;
    var second :| Runnable(c, mid, second) && Run(c, mid, second) == s';
    RunConcat(c, s, first, second);
  }

  lemma LeadsByStep(c: Config, s: State, step: Step)
    requires Enabled(c, s, step)
    ensures Leads(c, s, Apply(c, s, step))
  {
    assert [step][1..] == [];
    assert Run(c, Apply(c, s, step), []) == Apply(c, s, step);
    assert Runnable(c, s, [step]) && Run(c, s, [step]) == Apply(c, s, step);
  }
}
