/** Closing the workers: one rendezvous a worker, then the wait group, then the stop request. */
module RunHandshake {
  import opened RunModel

  /** How many workers are in one of the phases `who`. */
  function Count(streams: seq<Stream>, who: set<Client>): nat {
    if streams == [] then 0
    else Count(streams[..|streams| - 1], who) + (if streams[|streams| - 1].client in who then 1 else 0)
  }

  lemma {:induction false} CountUpdate(streams: seq<Stream>, i: nat, st: Stream, who: set<Client>)
    requires i < |streams|
    ensures Count(streams[i := st], who)
            == Count(streams, who) - (if streams[i].client in who then 1 else 0) + (if st.client in who then 1 else 0)
  {
    var n := |streams| - 1;
    if i == n {
      assert streams[i := st][..n] == streams[..n];
    } else {
      assert streams[i := st][..n] == streams[..n][i := st];
      CountUpdate(streams[..n], i, st, who);
    }
  }

  lemma {:induction false} CountSplit(streams: seq<Stream>, one: set<Client>, other: set<Client>)
    requires one !! other
    ensures Count(streams, one + other) == Count(streams, one) + Count(streams, other)
  {
    if streams != [] {
      CountSplit(streams[..|streams| - 1], one, other);
    }
  }

  /** Every worker is in one of the phases, or fewer than all are counted. */
  lemma {:induction false} CountAll(streams: seq<Stream>, who: set<Client>)
    ensures Count(streams, who) <= |streams|
    ensures Count(streams, who) == |streams| <==> forall i :: 0 <= i < |streams| ==> streams[i].client in who
  {
    if streams != [] {
      var n := |streams| - 1;
      CountAll(streams[..n], who);
      assert streams == streams[..n] + [streams[n]];
    }
  }

  lemma {:induction false} CountNone(streams: seq<Stream>, who: set<Client>)
    ensures Count(streams, who) == 0 <==> forall i :: 0 <= i < |streams| ==> streams[i].client !in who
  {
    if streams != [] {
      var n := |streams| - 1;
      CountNone(streams[..n], who);
      assert streams == streams[..n] + [streams[n]];
    }
  }

  const CLOSED: set<Client> := {Quitting, Exited}
  const SIGNALLED: set<Client> := {Exited, GaveUp}
  const LIVE: set<Client> := {Dialing, Sending}
  const GONE: set<Client> := {NoRoute, Broken, GaveUp}

  /** Workers that left without taking a close command. */
  function GoneEarly(s: State): nat { Count(s.streams, GONE) }

  predicate Possible(c: Config, client: Client) {
    (client == GaveUp ==> c.transport.Quic?) && (client == NoRoute ==> !c.transport.Udp?)
    && (client == Broken ==> c.transport.Tcp?)
  }

  /** The QUIC manager's deadline case goes straight to the stop request. */
  predicate SkipsClosing(c: Config, m: Manager) { c.transport.Quic? && m.verdict.TimedOut? }

  ghost predicate PhaseAgrees(c: Config, s: State) {
    var m, closed := s.k.mgr, Count(s.streams, CLOSED);
    match m.phase
    case Closing(sent) => closed == sent <= c.workers && !SkipsClosing(c, m)
    case Waiting => closed == c.workers && !SkipsClosing(c, m)
    case Stopping(_, _, _) => if SkipsClosing(c, m) then closed == 0 else Count(s.streams, {Exited}) == c.workers
    case Done(_) => if SkipsClosing(c, m) then closed == 0 else Count(s.streams, {Exited}) == c.workers
    case _ => closed == 0 && m.verdict.Undecided?
  }

  ghost predicate HandInv(c: Config, s: State) {
    && |s.streams| == c.workers
    && (forall i :: 0 <= i < |s.streams| ==> Possible(c, s.streams[i].client))
    && s.waitGroup == c.workers - Count(s.streams, SIGNALLED)
    && PhaseAgrees(c, s)
  }

  lemma StreamStepKeeps(c: Config, s: State, i: nat, op: StreamOp)
    requires HandInv(c, s) && Enabled(c, s, OnStream(i, op))
    ensures HandInv(c, Apply(c, s, OnStream(i, op)))
    ensures GoneEarly(Apply(c, s, OnStream(i, op))) >= GoneEarly(s)
  {
    var st, st' := s.streams[i], OpApply(c, s.streams[i], op);
    CountUpdate(s.streams, i, st', CLOSED);
    CountUpdate(s.streams, i, st', SIGNALLED);
    CountUpdate(s.streams, i, st', GONE);
    CountUpdate(s.streams, i, st', {Exited});
    CountAll(s.streams, {Exited});
  }

  lemma RendezvousKeeps(c: Config, s: State, i: nat)
    requires HandInv(c, s) && Enabled(c, s, Rendezvous(i))
    ensures HandInv(c, Apply(c, s, Rendezvous(i)))
    ensures GoneEarly(Apply(c, s, Rendezvous(i))) == GoneEarly(s)
  {
    var st' := s.streams[i].(client := Quitting);
    CountUpdate(s.streams, i, st', CLOSED);
    CountUpdate(s.streams, i, st', SIGNALLED);
    CountUpdate(s.streams, i, st', GONE);
  }

  lemma StopCloseKeeps(c: Config, s: State, i: nat)
    requires HandInv(c, s) && Enabled(c, s, StopClose(i))
    ensures HandInv(c, Apply(c, s, StopClose(i)))
    ensures GoneEarly(Apply(c, s, StopClose(i))) == GoneEarly(s)
  {
    var st' := CloseSockets(s.streams[i]);
    CountUpdate(s.streams, i, st', CLOSED);
    CountUpdate(s.streams, i, st', SIGNALLED);
    CountUpdate(s.streams, i, st', GONE);
    CountUpdate(s.streams, i, st', {Exited});
  }

  /** With every close taken and the wait group at zero, every worker has exited. */
  lemma WaitedForAll(c: Config, s: State)
    requires HandInv(c, s) && s.k.mgr.phase == Waiting && s.waitGroup == 0
    ensures forall i :: 0 <= i < |s.streams| ==> s.streams[i].client == Exited
    ensures Count(s.streams, {Exited}) == c.workers
  {
    CountAll(s.streams, CLOSED);
    CountAll(s.streams, SIGNALLED);
    CountAll(s.streams, {Exited});
    forall i | 0 <= i < |s.streams| ensures s.streams[i].client == Exited {
      assert s.streams[i].client in CLOSED && s.streams[i].client in SIGNALLED;
    }
  }

  lemma ManagerStepKeeps(c: Config, s: State, op: MgrOp)
    requires HandInv(c, s) && Enabled(c, s, OnManager(op))
    ensures HandInv(c, Apply(c, s, OnManager(op)))
  {
    if op.WaitReturns? {
      WaitedForAll(c, s);
    }
  }

  lemma StepKeepsHand(c: Config, s: State, step: Step)
    requires HandInv(c, s) && Enabled(c, s, step)
    ensures HandInv(c, Apply(c, s, step)) && GoneEarly(Apply(c, s, step)) >= GoneEarly(s)
  {
    match step
    case OnStream(i, op) => StreamStepKeeps(c, s, i, op);
    case OnManager(op) => ManagerStepKeeps(c, s, op);
    case Rendezvous(i) => RendezvousKeeps(c, s, i);
    case StopClose(i) => StopCloseKeeps(c, s, i);
    case Tick =>
  }

  lemma {:induction false} RunKeepsHand(c: Config, s: State, steps: seq<Step>)
    requires HandInv(c, s) && Runnable(c, s, steps)
    ensures HandInv(c, Run(c, s, steps)) && GoneEarly(Run(c, s, steps)) >= GoneEarly(s)
    decreases |steps|
  {
    if steps != [] {
      StepKeepsHand(c, s, steps[0]);
      RunKeepsHand(c, Apply(c, s, steps[0]), steps[1..]);
    }
  }

  lemma InitHand(c: Config)
    ensures HandInv(c, Init(c))
  {
    CountNone(Init(c).streams, CLOSED);
    CountNone(Init(c).streams, SIGNALLED);
  }

  lemma ReachableHand(c: Config, s: State)
    requires Reachable(c, s)
    ensures HandInv(c, s)
  {
    var steps :| Runnable(c, Init(c), steps) && Run(c, Init(c), steps) == s;
    InitHand(c);
    RunKeepsHand(c, Init(c), steps);
  }

  /** Every worker is closed by one send, may still take one, or is gone. */
  lemma EveryWorkerOnce(c: Config, s: State, sent: nat)
    requires HandInv(c, s) && s.k.mgr.phase == Closing(sent)
    ensures sent + Count(s.streams, LIVE) + GoneEarly(s) == c.workers
  {
    CountSplit(s.streams, LIVE, GONE);
    CountSplit(s.streams, CLOSED, LIVE + GONE);
    CountAll(s.streams, CLOSED + (LIVE + GONE));
  }

  /**
   * Stop comes last: when the stop request is out, every worker has taken its close and exited
   * (unless the QUIC deadline case skipped the closing).
   */
  lemma ExitedBeforeStop(c: Config, s: State)
    requires Reachable(c, s) && (s.k.mgr.phase.Stopping? || s.k.mgr.phase.Done?) && !SkipsClosing(c, s.k.mgr)
    ensures forall i :: 0 <= i < |s.streams| ==> s.streams[i].client == Exited
    ensures s.waitGroup == 0
  {
    ReachableHand(c, s);
    CountAll(s.streams, {Exited});
    CountAll(s.streams, SIGNALLED);
  }

  /** The QUIC deadline case asks the server to stop while not one worker has been told to close. */
  lemma QuicDeadlineClosesNobody(c: Config, s: State)
    requires Reachable(c, s) && (s.k.mgr.phase.Stopping? || s.k.mgr.phase.Done?) && SkipsClosing(c, s.k.mgr)
    ensures forall i :: 0 <= i < |s.streams| ==> s.streams[i].client !in CLOSED
  {
    ReachableHand(c, s);
    CountNone(s.streams, CLOSED);
  }

  /**
   * The sends end well exactly when no worker has gone: once no worker can still take a close, the
   * manager has sent one close for each worker that is not gone, and it goes on if and only if none is.
   */
  lemma SendsCompleteIff(c: Config, s: State, sent: nat)
    requires Reachable(c, s) && s.k.mgr.phase == Closing(sent) && Count(s.streams, LIVE) == 0
    ensures sent == c.workers - GoneEarly(s)
    ensures Enabled(c, s, OnManager(SendsDone)) <==> GoneEarly(s) == 0
  {
    ReachableHand(c, s);
    EveryWorkerOnce(c, s, sent);
  }

  /** The deadlock: with a worker gone, no continuation ever gets past the sends, whatever else happens. */
  lemma {:induction false} StuckWhenOneIsGone(c: Config, s: State, steps: seq<Step>)
    requires HandInv(c, s) && s.k.mgr.phase.Closing? && GoneEarly(s) >= 1 && Runnable(c, s, steps)
    ensures var s' := Run(c, s, steps);
      s'.k.mgr.phase.Closing? && s'.k.mgr.phase.sent <= c.workers - GoneEarly(s') < c.workers
    decreases |steps|
  {
    EveryWorkerOnce(c, s, s.k.mgr.phase.sent);
    if steps != [] {
      StepKeepsHand(c, s, steps[0]);
      StuckWhenOneIsGone(c, Apply(c, s, steps[0]), steps[1..]);
    }
  }

  /** On UDP no worker of a surviving process ever leaves early. */
  lemma UdpNeverGone(c: Config, s: State)
    requires Reachable(c, s) && c.transport.Udp?
    ensures GoneEarly(s) == 0
  {
    ReachableHand(c, s);
    forall i | 0 <= i < |s.streams| ensures s.streams[i].client !in GONE {
      assert Possible(c, s.streams[i].client);
    }
    CountNone(s.streams, GONE);
  }

  // ----- the handshake can always be completed

  function Pending(s: State): nat {
    3 * Count(s.streams, {Dialing}) + 2 * Count(s.streams, {Sending}) + Count(s.streams, {Quitting})
    + (if s.k.mgr.phase.Closing? then 2 else if s.k.mgr.phase.Waiting? then 1 else 0)
  }

  predicate ClosingDown(s: State) { s.k.mgr.phase.Closing? || s.k.mgr.phase.Waiting? }

  lemma MovesOn(c: Config, s: State, i: nat, st: Stream)
    requires i < |s.streams| && st.client !in GONE
    requires (s.streams[i].client == Dialing && st.client == Sending)
          || (s.streams[i].client == Sending && st.client == Quitting)
          || (s.streams[i].client == Quitting && st.client == Exited)
    ensures Pending(s.(streams := s.streams[i := st])) == Pending(s) - 1
    ensures Count(s.streams[i := st], GONE) == GoneEarly(s)
  {
    CountUpdate(s.streams, i, st, {Dialing});
    CountUpdate(s.streams, i, st, {Sending});
    CountUpdate(s.streams, i, st, {Quitting});
    CountUpdate(s.streams, i, st, GONE);
  }

  /** While workers are being closed and none is gone, some step of the handshake is possible. */
  lemma NextClosingStep(c: Config, s: State) returns (step: Step)
    requires HandInv(c, s) && ClosingDown(s) && GoneEarly(s) == 0
    ensures Enabled(c, s, step)
    ensures step in {OnManager(SendsDone), OnManager(WaitReturns)} || step.Rendezvous?
            || (step.OnStream? && step.op in {Dial, WorkerExit})
  {
    if s.k.mgr.phase.Closing? {
      var sent := s.k.mgr.phase.sent;
      EveryWorkerOnce(c, s, sent);
      if sent == c.workers {
        step := OnManager(SendsDone);
      } else {
        CountNone(s.streams, LIVE);
        var i :| 0 <= i < |s.streams| && s.streams[i].client in LIVE;
        step := if s.streams[i].client == Dialing then OnStream(i, Dial) else Rendezvous(i);
      }
    } else if s.waitGroup == 0 {
      step := OnManager(WaitReturns);
    } else {
      CountAll(s.streams, CLOSED);
      CountAll(s.streams, SIGNALLED);
      var i :| 0 <= i < |s.streams| && s.streams[i].client !in SIGNALLED;
      assert s.streams[i].client in CLOSED;
      step := OnStream(i, WorkerExit);
    }
  }

  lemma ClosingStepCounts(c: Config, s: State, step: Step)
    requires HandInv(c, s) && ClosingDown(s) && GoneEarly(s) == 0 && Enabled(c, s, step)
    requires step in {OnManager(SendsDone), OnManager(WaitReturns)} || step.Rendezvous?
             || (step.OnStream? && step.op in {Dial, WorkerExit})
    ensures var s' := Apply(c, s, step);
      HandInv(c, s') && GoneEarly(s') == 0 && Pending(s') < Pending(s) && (ClosingDown(s') || s'.k.mgr.phase.Stopping?)
  {
    StepKeepsHand(c, s, step);
    match step
    case OnStream(i, op) => MovesOn(c, s, i, OpApply(c, s.streams[i], op));
    case Rendezvous(i) => MovesOn(c, s, i, s.streams[i].(client := Quitting));
    case _ =>
  }

  /**
   * No worker gone: from any point of the closing, the remaining sends, exits and the return of `Wait`
   * can all take place, and then the manager is at the stop request with every worker exited.
   */
  lemma {:induction false} HandshakeCompletes(c: Config, s: State) returns (steps: seq<Step>)
    requires HandInv(c, s) && ClosingDown(s) && GoneEarly(s) == 0
    ensures Runnable(c, s, steps)
    ensures var s' := Run(c, s, steps);
      s'.k.mgr.phase.Stopping? && forall i :: 0 <= i < |s'.streams| ==> s'.streams[i].client == Exited
    decreases Pending(s)
  {
    var step := NextClosingStep(c, s);
    ClosingStepCounts(c, s, step);
    var next := Apply(c, s, step);
    var rest: seq<Step> := [];
    if ClosingDown(next) {
      rest := HandshakeCompletes(c, next);
    } else {
      CountAll(next.streams, {Exited});
    }
    steps := [step] + rest;
    assert steps[1..] == rest;
  }

  /** Streams whose sockets the stop handler still has to close. */
  function StillOpen(s: State): set<nat>
    requires s.k.mgr.phase.Stopping?
  {
    set i | 0 <= i < |s.streams| && i !in s.k.mgr.phase.closed
  }

  /** The stop handler closes every stream, reads every counter, and answers. */
  lemma {:induction false} StopCompletes(c: Config, s: State) returns (steps: seq<Step>)
    requires s.k.mgr.phase.Stopping? && |s.k.mgr.phase.counts| <= |s.streams|
    ensures Runnable(c, s, steps) && Run(c, s, steps).k.mgr.phase.Done?
    decreases |StillOpen(s)|, |s.streams| - |s.k.mgr.phase.counts|
  {
    var p := s.k.mgr.phase;
    var step := OnManager(StopDone);
    var rest: seq<Step> := [];
    if StillOpen(s) != {} {
      var i :| i in StillOpen(s);
      step := StopClose(i);
      assert StillOpen(Apply(c, s, step)) == StillOpen(s) - {i};
      rest := StopCompletes(c, Apply(c, s, step));
    } else if |p.counts| < |s.streams| {
      assert forall i :: 0 <= i < |s.streams| && i !in p.closed ==> i in StillOpen(s);
      step := OnManager(StopRead);
      assert StillOpen(Apply(c, s, step)) == StillOpen(s);
      rest := StopCompletes(c, Apply(c, s, step));
    }
    steps := [step] + rest;
    assert steps[1..] == rest;
  }

  /** Stop replies hold one counter a stream at most while they are made. */
  ghost predicate CountsFit(s: State) {
    s.k.mgr.phase.Stopping? ==> |s.k.mgr.phase.counts| <= |s.streams|
  }

  lemma {:induction false} RunKeepsCountsFit(c: Config, s: State, steps: seq<Step>)
    requires CountsFit(s) && Runnable(c, s, steps)
    ensures CountsFit(Run(c, s, steps))
    decreases |steps|
  {
    if steps != [] {
      RunKeepsCountsFit(c, Apply(c, s, steps[0]), steps[1..]);
    }
  }

  /**
   * Both directions at once: from a reachable state in which workers are being closed, the manager can
   * still get to the end of the run, the stop reply, if and only if no worker has left without taking a close.
   */
  lemma EndReachableIff(c: Config, s: State)
    requires Reachable(c, s) && s.k.mgr.phase.Closing?
    ensures GoneEarly(s) == 0 <==>
            exists steps :: Runnable(c, s, steps) && Run(c, s, steps).k.mgr.phase.Done?
  {
    ReachableHand(c, s);
    if GoneEarly(s) == 0 {
      var closing := HandshakeCompletes(c, s);
      RunKeepsCountsFit(c, s, closing);
      var stopping := StopCompletes(c, Run(c, s, closing));
      RunConcat(c, s, closing, stopping);
    } else {
      forall steps | Runnable(c, s, steps)
        ensures !Run(c, s, steps).k.mgr.phase.Done?
      {
        StuckWhenOneIsGone(c, s, steps);
      }
    }
  }
}
