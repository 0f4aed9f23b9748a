/** Every byte of a stream is accounted for in every reachable state of a run. */
module RunBytes {
  import opened Sequences
  import opened RunModel

  /** Conservation for one stream, and where each kind of byte can occur. */
  ghost predicate StreamInv(c: Config, st: Stream) {
    && st.remaining + st.inFlight + st.held + st.lost + st.bytes == c.streamBytes + st.extra
    && (!c.transport.Quic? ==> st.extra <= st.remaining && st.client != GaveUp)
    && (c.transport.Tcp? && st.extra > 0 ==> st.client == Broken)
    && (c.transport.Tcp? && st.lost > 0 ==> st.client == Broken || !st.open)
    && (c.transport.Udp? ==> st.extra == 0 && st.client !in {NoRoute, Broken})
    && InLife(c, st)
  }

  /**
   * What a server worker has read fits its buffer; over TCP or QUIC nobody is accepted, and nothing counted, who
   * has not connected; and a server worker that ends on an open stream is not a UDP one, has left no byte of it
   * uncounted, and nobody can send on it any more.
   */
  ghost predicate InLife(c: Config, st: Stream) {
    && st.held <= c.callSize
    && (!c.transport.Udp? && st.client in {Dialing, NoRoute} ==>
          st.server in {Listening, Ended} && st.bytes == 0 && st.held == 0)
    && (st.server == Ended && st.open ==>
          !c.transport.Udp? && st.inFlight == 0 && st.held == 0 && st.client in {Exited, Broken, GaveUp})
  }

  ghost predicate Conserved(c: Config, s: State) {
    |s.streams| == c.workers && forall i :: 0 <= i < |s.streams| ==> StreamInv(c, s.streams[i])
  }

  lemma OpKeepsStreamInv(c: Config, st: Stream, op: StreamOp)
    requires StreamInv(c, st) && OpEnabled(c, st, op)
    ensures StreamInv(c, OpApply(c, st, op))
    ensures OpApply(c, st, op).bytes >= st.bytes && OpApply(c, st, op).lost >= st.lost
  {
  }

  lemma StepConserves(c: Config, s: State, step: Step)
    requires Conserved(c, s) && Enabled(c, s, step)
    ensures var s' := Apply(c, s, step);
      Conserved(c, s') && PointwiseLe(Bytes(s.streams), Bytes(s'.streams)) && PointwiseLe(Lost(s), Lost(s'))
  {
    if step.OnStream? {
      OpKeepsStreamInv(c, s.streams[step.i], step.op);
    }
  }

  function Lost(s: State): seq<nat> {
    seq(|s.streams|, i requires 0 <= i < |s.streams| => s.streams[i].lost)
  }

  /** Along every run: conservation, and no counter (nor count of lost bytes) ever falls. */
  lemma {:induction false} RunConserves(c: Config, s: State, steps: seq<Step>)
    requires Conserved(c, s) && Runnable(c, s, steps)
    ensures var s' := Run(c, s, steps);
      Conserved(c, s') && PointwiseLe(Bytes(s.streams), Bytes(s'.streams)) && PointwiseLe(Lost(s), Lost(s'))
    decreases |steps|
  {
    if steps != [] {
      StepConserves(c, s, steps[0]);
      RunConserves(c, Apply(c, s, steps[0]), steps[1..]);
    }
  }

  /**
   * Byte conservation: in every reachable state, for every stream, what the worker still has to send, is on
   * the way, read but not counted, lost, and counted adds up to its share (plus what a failed write let out).
   * On TCP nothing is lost on a stream that is neither broken nor closed by the server.
   */
  lemma BytesConserved(c: Config, s: State, i: nat)
    requires Reachable(c, s) && i < |s.streams|
    ensures |s.streams| == c.workers
    ensures var st := s.streams[i];
      && st.remaining + st.inFlight + st.held + st.lost + st.bytes == c.streamBytes + st.extra
      && (!c.transport.Quic? ==>
            st.extra <= st.remaining && st.bytes + st.inFlight + st.held + st.lost <= c.streamBytes)
      && (c.transport.Tcp? && st.client != Broken && st.open ==>
            st.remaining + st.inFlight + st.held + st.bytes == c.streamBytes)
  {
    ReachableConserved(c, s);
    assert StreamInv(c, s.streams[i]);
  }

  lemma LifeKept(c: Config, s: State, i: nat)
    requires Reachable(c, s) && i < |s.streams|
    ensures InLife(c, s.streams[i])
  {
    ReachableConserved(c, s);
    assert StreamInv(c, s.streams[i]);
  }

  /** Of its share a worker sends at most one buffer a step. */
  lemma OneBufferAStep(c: Config, s: State, step: Step, i: nat)
    requires Enabled(c, s, step) && i < |s.streams|
    ensures var st, st' := s.streams[i], Apply(c, s, step).streams[i];
      && st'.remaining <= st.remaining <= st'.remaining + c.callSize
      && st.extra <= st'.extra <= st.extra + c.callSize
  {
  }

  /** A worker that has taken its close or has left never sends another byte, nor anything a second time. */
  lemma {:induction false} SilentAfterLeaving(c: Config, s: State, steps: seq<Step>, i: nat)
    requires Runnable(c, s, steps) && i < |s.streams| && s.streams[i].client !in {Dialing, Sending}
    ensures var s' := Run(c, s, steps);
      && |s'.streams| == |s.streams| && s'.streams[i].client !in {Dialing, Sending}
      && s'.streams[i].remaining == s.streams[i].remaining && s'.streams[i].extra == s.streams[i].extra
    decreases |steps|
  {
    if steps != [] {
      SilentAfterLeaving(c, Apply(c, s, steps[0]), steps[1..], i);
    }
  }

  lemma ReachableConserved(c: Config, s: State)
    requires Reachable(c, s)
    ensures Conserved(c, s)
  {
    var steps :| Runnable(c, Init(c), steps) && Run(c, Init(c), steps) == s;
    RunConserves(c, Init(c), steps);
  }

  /** Outside QUIC no counter exceeds the stream's share, so the total stays within all shares. */
  lemma TotalBounded(c: Config, s: State)
    requires Conserved(c, s) && !c.transport.Quic?
    ensures forall j :: 0 <= j < |s.streams| ==> Bytes(s.streams)[j] <= c.streamBytes
    ensures Total(s) <= c.workers * c.streamBytes
  {
    forall j | 0 <= j < |s.streams| ensures Bytes(s.streams)[j] <= c.streamBytes {
      assert StreamInv(c, s.streams[j]);
    }
    SumBound(Bytes(s.streams), c.streamBytes);
  }

  /**
   * A stream the server has closed is frozen: in every continuation it stays closed, and what it has
   * counted together with what its worker holds from a read before the close never changes again. A closed
   * listener accepts nobody.
   */
  lemma {:induction false} ClosedStreamFrozen(c: Config, s: State, steps: seq<Step>, i: nat)
    requires Runnable(c, s, steps) && i < |s.streams| && !s.streams[i].open
    ensures var s' := Run(c, s, steps);
      && |s'.streams| == |s.streams| && !s'.streams[i].open
      && s'.streams[i].bytes + s'.streams[i].held == s.streams[i].bytes + s.streams[i].held
      && (s.streams[i].server in {Listening, Ended} ==> s'.streams[i].server in {Listening, Ended})
    decreases |steps|
  {
    if steps != [] {
      ClosedStreamFrozen(c, Apply(c, s, steps[0]), steps[1..], i);
    }
  }
}
