/** What the stop handler does to the streams, and what its reply says about them. */
module RunStop {
  import opened Wrappers
  import opened Sequences
  import opened RunModel
  import opened RunBytes

  /** The stream as the stop handler finds it when it comes to close it. */
  function Found(c: Config, s: State, steps: seq<Step>, i: nat): Option<Stream>
    requires Runnable(c, s, steps)
    decreases |steps|
  {
    if steps == [] then None
    else if steps[0] == StopClose(i) then Some(s.streams[i])
    else Found(c, Apply(c, s, steps[0]), steps[1..], i)
  }

  /** The close leaves everything but the open flag alone. */
  lemma CloseOrNot(c: Config, s: State, i: nat)
    requires Enabled(c, s, StopClose(i)) && s.streams[i].open
    ensures var st := Apply(c, s, StopClose(i)).streams[i];
      && (st.open <==> s.streams[i].server == Accepted)
      && st.(open := true) == s.streams[i]
  {
  }

  /** Nobody but the stop handler opens or closes a stream, and it comes by once. */
  lemma {:induction false} StaysAsClosed(c: Config, s: State, steps: seq<Step>, i: nat)
    requires Runnable(c, s, steps) && i < |s.streams|
    requires (s.k.mgr.phase.Stopping? && i in s.k.mgr.phase.closed) || s.k.mgr.phase.Done?
    ensures |Run(c, s, steps).streams| == |s.streams| && Run(c, s, steps).streams[i].open == s.streams[i].open
    decreases |steps|
  {
    if steps != [] {
      StaysAsClosed(c, Apply(c, s, steps[0]), steps[1..], i);
    }
  }

  lemma StopCloseSettles(c: Config, s: State, rest: seq<Step>, i: nat)
    requires Enabled(c, s, StopClose(i)) && s.streams[i].open && Runnable(c, Apply(c, s, StopClose(i)), rest)
    ensures var st, end := s.streams[i], Run(c, Apply(c, s, StopClose(i)), rest);
      && |end.streams| == |s.streams| && (end.streams[i].open <==> st.server == Accepted)
      && (st.server != Accepted ==> end.streams[i].bytes + end.streams[i].held == st.bytes + st.held)
  {
    CloseOrNot(c, s, i);
    StaysAsClosed(c, Apply(c, s, StopClose(i)), rest, i);
    if s.streams[i].server != Accepted {
      ClosedStreamFrozen(c, Apply(c, s, StopClose(i)), rest, i);
    }
  }

  /**
   * The stop handler comes to every stream before it answers. A stream is closed for good, and what its worker
   * has read is all it will ever count, exactly if it was not just between accept and publish at that moment.
   */
  lemma {:induction false} EveryStreamClosed(c: Config, s: State, steps: seq<Step>, i: nat)
    requires Runnable(c, s, steps) && i < |s.streams| && s.streams[i].open
    requires s.k.mgr.phase.Stopping? && i !in s.k.mgr.phase.closed && s.k.mgr.phase.counts == []
    requires Run(c, s, steps).k.mgr.phase.Done?
    ensures Found(c, s, steps, i).Some?
    ensures var st, end := Found(c, s, steps, i).value, Run(c, s, steps);
      && |end.streams| == |s.streams| && (end.streams[i].open <==> st.server == Accepted)
      && (st.server != Accepted ==> end.streams[i].bytes + end.streams[i].held == st.bytes + st.held)
    decreases |steps|
  {
    if steps[0] == StopClose(i) {
      StopCloseSettles(c, s, steps[1..], i);
    } else {
      EveryStreamClosed(c, Apply(c, s, steps[0]), steps[1..], i);
    }
  }

  // ----- UDP

  /** A UDP stream has no accept, so that the stop handler always closes it. */
  ghost predicate UdpInv(s: State) {
    && (forall i :: 0 <= i < |s.streams| ==> s.streams[i].server in {Reading, Ended})
    && (s.k.mgr.phase.Stopping? ==>
          && (forall i :: 0 <= i < |s.streams| && i in s.k.mgr.phase.closed ==> !s.streams[i].open)
          && (s.k.mgr.phase.counts != [] ==> forall i :: 0 <= i < |s.streams| ==> i in s.k.mgr.phase.closed))
    && (s.k.mgr.phase.Done? ==> forall i :: 0 <= i < |s.streams| ==> !s.streams[i].open)
  }

  lemma StepKeepsUdp(c: Config, s: State, step: Step)
    requires c.transport.Udp? && UdpInv(s) && Enabled(c, s, step)
    ensures UdpInv(Apply(c, s, step))
  {
    if step == OnManager(StopDone) && s.k.mgr.phase.counts == [] {
      assert |s.streams| == 0;
    }
  }

  lemma {:induction false} RunKeepsUdp(c: Config, s: State, steps: seq<Step>)
    requires c.transport.Udp? && UdpInv(s) && Runnable(c, s, steps)
    ensures UdpInv(Run(c, s, steps))
    decreases |steps|
  {
    if steps != [] {
      StepKeepsUdp(c, s, steps[0]);
      RunKeepsUdp(c, Apply(c, s, steps[0]), steps[1..]);
    }
  }

  /** When a UDP stop reply is out, every stream is closed, and no continuation counts a byte not yet read. */
  lemma UdpStopIsFinal(c: Config, s: State, steps: seq<Step>, i: nat)
    requires c.transport.Udp? && Reachable(c, s) && s.k.mgr.phase.Done? && i < |s.streams| && Runnable(c, s, steps)
    ensures var end := Run(c, s, steps);
      && |end.streams| == |s.streams| && !s.streams[i].open && !end.streams[i].open
      && end.streams[i].bytes + end.streams[i].held == s.streams[i].bytes + s.streams[i].held
  {
    var start :| Runnable(c, Init(c), start) && Run(c, Init(c), start) == s;
    RunKeepsUdp(c, Init(c), start);
    ClosedStreamFrozen(c, s, steps, i);
  }

  // ----- the numbers in the reply

  lemma CountsStep(c: Config, s: State, step: Step)
    requires s.k.mgr.phase.Stopping? && Enabled(c, s, step) && step != OnManager(StopDone)
    ensures var s' := Apply(c, s, step); var counts, p := s.k.mgr.phase.counts, s'.k.mgr.phase;
      && |s'.streams| == |s.streams| && p.Stopping?
      && (p.counts == counts
          || (|counts| < |s.streams| && p.counts == counts + [s.streams[|counts|].bytes]))
  {
  }

  /** The rest of the reply is read from the counters of now or later, at the stream's own place. */
  lemma {:induction false} ReplyRead(c: Config, s: State, steps: seq<Step>, counts: seq<nat>)
    requires Conserved(c, s) && Runnable(c, s, steps)
    requires s.k.mgr.phase.Stopping? && s.k.mgr.phase.counts == counts && |counts| <= |s.streams|
    requires Run(c, s, steps).k.mgr.phase.Done?
    ensures var end := Run(c, s, steps); var reply := end.k.mgr.phase.reply;
      && |reply| == |end.streams| == |s.streams|
      && (forall j :: 0 <= j < |counts| ==> reply[j] == counts[j])
      && (forall j :: |counts| <= j < |reply| ==> s.streams[j].bytes <= reply[j] <= end.streams[j].bytes)
    decreases |steps|
  {
    var next, rest := Apply(c, s, steps[0]), steps[1..];
    if steps[0] == OnManager(StopDone) {
      DoneStays(c, next, rest);
    } else {
      CountsStep(c, s, steps[0]);
      StepConserves(c, s, steps[0]);
      ReplyRead(c, next, rest, next.k.mgr.phase.counts);
      RunConserves(c, next, rest);
      ReadNowOrLater(s, next, Run(c, next, rest), counts);
    }
  }

  lemma ReadNowOrLater(s: State, next: State, end: State, counts: seq<nat>)
    requires |next.streams| == |s.streams| == |end.streams| && PointwiseLe(Bytes(s.streams), Bytes(next.streams))
    requires PointwiseLe(Bytes(next.streams), Bytes(end.streams)) && end.k.mgr.phase.Done? && next.k.mgr.phase.Stopping?
    requires |end.k.mgr.phase.reply| == |s.streams|
    requires var counts', reply := next.k.mgr.phase.counts, end.k.mgr.phase.reply;
      && (counts' == counts || (|counts| < |s.streams| && counts' == counts + [s.streams[|counts|].bytes]))
      && |counts'| <= |reply|
      && (forall j :: 0 <= j < |counts'| ==> reply[j] == counts'[j])
      && (forall j :: |counts'| <= j < |reply| ==> next.streams[j].bytes <= reply[j] <= end.streams[j].bytes)
    ensures var reply := end.k.mgr.phase.reply;
      && (forall j :: 0 <= j < |counts| ==> reply[j] == counts[j])
      && (forall j :: |counts| <= j < |reply| ==> s.streams[j].bytes <= reply[j] <= end.streams[j].bytes)
  {
    forall j | |counts| <= j < |end.k.mgr.phase.reply|
      ensures s.streams[j].bytes <= end.k.mgr.phase.reply[j] <= end.streams[j].bytes
    {
      assert Bytes(s.streams)[j] <= Bytes(next.streams)[j] <= Bytes(end.streams)[j];
    }
  }

  lemma {:induction false} DoneStays(c: Config, s: State, steps: seq<Step>)
    requires s.k.mgr.phase.Done? && Runnable(c, s, steps)
    ensures Run(c, s, steps).k.mgr.phase == s.k.mgr.phase && |Run(c, s, steps).streams| == |s.streams|
    decreases |steps|
  {
    if steps != [] {
      DoneStays(c, Apply(c, s, steps[0]), steps[1..]);
    }
  }

  /**
   * The stop reply, from the moment the last socket is closed: stream by stream at least what is counted
   * then, and for a closed stream at most what its worker has read by then.
   */
  lemma ReplyAfterClosing(c: Config, s: State, steps: seq<Step>, i: nat)
    requires Reachable(c, s) && Runnable(c, s, steps) && i < |s.streams|
    requires s.k.mgr.phase.Stopping? && s.k.mgr.phase.counts == [] && Run(c, s, steps).k.mgr.phase.Done?
    ensures var reply := Run(c, s, steps).k.mgr.phase.reply;
      && |reply| == |s.streams| && s.streams[i].bytes <= reply[i]
      && (!s.streams[i].open ==> reply[i] <= s.streams[i].bytes + s.streams[i].held)
  {
    ReachableConserved(c, s);
    ReplyRead(c, s, steps, []);
    if !s.streams[i].open {
      ClosedStreamFrozen(c, s, steps, i);
    }
  }
}
