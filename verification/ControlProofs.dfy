/**
 * What a handler of the control plane relies on, and when it may: in every run in which no two handlers are
 * between their call and the encoding of their reply at the same time, in particular with TCP control only.
 */
module ControlProofs {
  import opened Wrappers
  import opened ControlPlane

  /** The reply answers this request: its number, the type after the request's, the right measurement. */
  ghost predicate Answers(s: State, req: Request, r: Reply) {
    && Handled(req.typ) && r.seqRp == req.seqNo && r.typ == req.typ + 1
    && (req.typ == MEASUREMENT_START_REQUEST ==> r.id in s.tab.msmts)
    && (req.typ in {MEASUREMENT_STOP_REQUEST, MEASUREMENT_INFO_REQUEST} ==> r.id == req.id)
  }

  /** A start reply names a measurement whose reply channel is stored. */
  ghost predicate Filed(s: State, req: Request, r: Reply) {
    req.typ == MEASUREMENT_START_REQUEST ==> r.id in s.tab.recvCh
  }

  /** A handler that uses a reply channel or the shared reply. */
  predicate Active(h: Thread) { h.Called? || h.Received? || h.Wrote? || h.Stored? || h.Grabbed? || h.Typed? }

  /** No two handlers overlap. */
  ghost predicate Exclusive(s: State) {
    forall t, u :: 0 <= t < u < |s.threads| ==> !(Active(s.threads[t]) && Active(s.threads[u]))
  }

  ghost predicate ExclusiveRun(s: State, steps: seq<Step>)
    requires Runnable(s, steps)
    decreases |steps|
  {
    Exclusive(s) && (steps == [] || ExclusiveRun(Apply(s, steps[0]), steps[1..]))
  }

  /** Reached by a run in which no two handlers ever overlapped. */
  ghost predicate Orderly(s: State) {
    exists occupied, steps ::
      Runnable(Init(occupied), steps) && ExclusiveRun(Init(occupied), steps) && Run(Init(occupied), steps) == s
  }

  // ----- the invariant

  ghost predicate ThreadInv(s: State, h: Thread) {
    match h
    case Dispatched(req, via) => Handled(req.typ)
    case Called(req, via, id) =>
      Handled(req.typ) && req.typ != INFO_REQUEST && id in s.tab.msmts
      && (req.typ != MEASUREMENT_START_REQUEST ==> id == req.id)
    case Received(req, via, p) => Construct(req, p).Some? && Answers(s, req, Construct(req, p).value)
    case Wrote(req, via) => HasReply(s) && Answers(s, req, Current(s))
    case Stored(req, via) => HasReply(s) && Answers(s, req, Current(s)) && Filed(s, req, Current(s))
    case Grabbed(req, via, obj) =>
      HasReply(s) && s.rep == Some(obj) && Answers(s, req, Current(s)) && Filed(s, req, Current(s))
    case Typed(req, via, obj, typ) =>
      HasReply(s) && s.rep == Some(obj) && typ == Current(s).typ
      && Answers(s, req, Current(s)) && Filed(s, req, Current(s))
    case Encoded(req, via, a) => Answers(s, req, a) && Filed(s, req, a)
    case _ => true
  }

  ghost predicate PendingInv(s: State) {
    && (forall t :: 0 <= t < |s.threads| && s.threads[t].Called? ==>
          s.pending == multiset{(s.threads[t].id, PayloadFor(s.threads[t].req, s.threads[t].id))})
    && ((forall t :: 0 <= t < |s.threads| ==> !s.threads[t].Called?) ==> s.pending == multiset{})
  }

  ghost predicate LogInv(s: State) {
    && s.tab.recvCh <= s.tab.msmts.Keys
    && (forall k :: 0 <= k < |s.answers| ==>
          Answers(s, s.answers[k].0, s.answers[k].1) && Filed(s, s.answers[k].0, s.answers[k].1))
  }

  ghost predicate Ordered(s: State) {
    && (forall t :: 0 <= t < |s.threads| ==> ThreadInv(s, s.threads[t]))
    && PendingInv(s) && LogInv(s) && s.exited != Some(BadPayload)
  }

  // ----- the goroutine that moves

  lemma SameLog(s: State, s': State)
    requires LogInv(s) && s'.tab.recvCh == s.tab.recvCh && s.tab.msmts.Keys <= s'.tab.msmts.Keys
    requires s'.answers == s.answers
    ensures LogInv(s')
  {
    forall k | 0 <= k < |s.answers|
      ensures Answers(s', s.answers[k].0, s.answers[k].1) && Filed(s', s.answers[k].0, s.answers[k].1)
    {
      assert Answers(s, s.answers[k].0, s.answers[k].1);
    }
  }

  lemma CallKeeps(s: State, t: nat, newId: string)
    requires Ordered(s) && t < |s.threads| && OpEnabled(s, s.threads[t], Call(newId))
    ensures var s' := CallApply(s, t, newId);
      ThreadInv(s', s'.threads[t]) && LogInv(s') && s'.exited != Some(BadPayload)
  {
    CallTouchesOne(s, t, newId);
    CallOrdered(s, t, CallApply(s, t, newId));
  }

  lemma CallOrdered(s: State, t: nat, s': State)
    requires Ordered(s) && CallTouches(s, t, s') && s.threads[t].Dispatched? && s.threads[t].req.typ != INFO_REQUEST
    ensures ThreadInv(s', s'.threads[t]) && LogInv(s') && s'.exited != Some(BadPayload)
  {
    assert ThreadInv(s, s.threads[t]);
    SameLog(s, s');
  }

  lemma WriteKeeps(s: State, t: nat)
    requires Ordered(s) && t < |s.threads| && OpEnabled(s, s.threads[t], Write)
    ensures var s' := WriteApply(s, t);
      ThreadInv(s', s'.threads[t]) && LogInv(s') && s'.exited == s.exited && !s'.threads[t].Called?
  {
    assert ThreadInv(s, s.threads[t]);
  }

  lemma OnlyOwnPayload(s: State, t: nat, p: Payload)
    requires PendingInv(s) && t < |s.threads| && s.threads[t].Called? && (s.threads[t].id, p) in s.pending
    ensures p == PayloadFor(s.threads[t].req, s.threads[t].id)
    ensures s.pending - multiset{(s.threads[t].id, p)} == multiset{}
  {
  }

  lemma ReceiveKeeps(s: State, t: nat, p: Payload)
    requires Ordered(s) && t < |s.threads| && OpEnabled(s, s.threads[t], Receive(p))
    ensures var s' := OpApply(s, t, Receive(p));
      ThreadInv(s', s'.threads[t]) && LogInv(s') && s'.exited == s.exited
  {
    assert ThreadInv(s, s.threads[t]);
    OnlyOwnPayload(s, t, p);
  }

  lemma ReplyKeeps(s: State, t: nat, op: ThreadOp)
    requires Ordered(s) && t < |s.threads| && OpEnabled(s, s.threads[t], op) && (op.Store? || op.Grab? || op.TakeType?)
    ensures var s' := OpApply(s, t, op);
      ThreadInv(s', s'.threads[t]) && LogInv(s') && s'.exited == s.exited
  {
    assert ThreadInv(s, s.threads[t]);
  }

  lemma ClearKeeps(s: State, t: nat)
    requires Ordered(s) && t < |s.threads| && OpEnabled(s, s.threads[t], Clear)
    ensures var s' := ClearApply(s, t);
      ThreadInv(s', s'.threads[t]) && LogInv(s') && s'.exited == s.exited
  {
    assert ThreadInv(s, s.threads[t]);
  }

  lemma AnswerKeeps(s: State, t: nat)
    requires Ordered(s) && t < |s.threads| && OpEnabled(s, s.threads[t], Answer)
    ensures var s' := OpApply(s, t, Answer);
      ThreadInv(s', s'.threads[t]) && LogInv(s') && s'.exited == s.exited
  {
    assert ThreadInv(s, s.threads[t]);
  }

  lemma ConnectionKeeps(s: State, t: nat, op: ThreadOp)
    requires Ordered(s) && t < |s.threads| && OpEnabled(s, s.threads[t], op)
    requires op.Accept? || op.Read? || op.Deliver? || op.Eof?
    ensures var s' := OpApply(s, t, op);
      ThreadInv(s', s'.threads[t]) && LogInv(s') && s'.exited != Some(BadPayload)
  {
    assert ThreadInv(s, s.threads[t]);
  }

  /** The goroutine that moves leaves its own stage in order, and the log stays in order. */
  lemma MoverKeeps(s: State, t: nat, op: ThreadOp)
    requires Ordered(s) && t < |s.threads| && OpEnabled(s, s.threads[t], op)
    ensures var s' := OpApply(s, t, op);
      |s'.threads| == |s.threads| && ThreadInv(s', s'.threads[t]) && LogInv(s') && s'.exited != Some(BadPayload)
  {
    OpTouchesOne(s, t, op);
    match op
    case Call(newId) => CallKeeps(s, t, newId);
    case Write => WriteKeeps(s, t);
    case Receive(p) => ReceiveKeeps(s, t, p);
    case Store => ReplyKeeps(s, t, op);
    case Grab => ReplyKeeps(s, t, op);
    case TakeType => ReplyKeeps(s, t, op);
    case Clear => ClearKeeps(s, t);
    case Answer => AnswerKeeps(s, t);
    case _ => ConnectionKeeps(s, t, op);
  }

  // ----- the others

  lemma TablesGrow(s: State, t: nat, op: ThreadOp)
    requires Ordered(s) && t < |s.threads| && OpEnabled(s, s.threads[t], op)
    ensures var s' := OpApply(s, t, op);
      s.tab.recvCh <= s'.tab.recvCh && s.tab.msmts.Keys <= s'.tab.msmts.Keys
  {
    if op.Call? {
      CallTouchesOne(s, t, op.newId);
    }
  }

  /** Only an active handler, or one that becomes active, touches the shared reply or a reply channel. */
  lemma IdleTouchesNothing(s: State, t: nat, op: ThreadOp)
    requires t < |s.threads| && OpEnabled(s, s.threads[t], op)
    requires !Active(s.threads[t]) && !Active(OpApply(s, t, op).threads[t])
    ensures var s' := OpApply(s, t, op);
      s'.rep == s.rep && s'.objs == s.objs && s'.pending == s.pending
  {
    if op.Call? {
      CallTouchesOne(s, t, op.newId);
    } else if op.Write? {
      IdleWrite(s, t);
    }
  }

  lemma IdleWrite(s: State, t: nat)
    requires t < |s.threads| && OpEnabled(s, s.threads[t], Write)
    ensures Active(WriteApply(s, t).threads[t])
  {
  }

  lemma StillInv(s: State, s': State, h: Thread)
    requires ThreadInv(s, h) && s.tab.recvCh <= s'.tab.recvCh && s.tab.msmts.Keys <= s'.tab.msmts.Keys
    requires Active(h) ==> s'.rep == s.rep && s'.objs == s.objs
    ensures ThreadInv(s', h)
  {
  }

  /** Beside an active handler nobody else is active, before and after the step. */
  lemma BesideActive(s: State, t: nat, op: ThreadOp, u: nat)
    requires t < |s.threads| && OpEnabled(s, s.threads[t], op) && Exclusive(s) && Exclusive(OpApply(s, t, op))
    requires u < |s.threads| && u != t && Active(s.threads[u])
    ensures var s' := OpApply(s, t, op);
      s'.rep == s.rep && s'.objs == s.objs && s'.pending == s.pending
  {
    var s' := OpApply(s, t, op);
    OpTouchesOne(s, t, op);
    assert s'.threads[u] == s.threads[u];
    var low, high := if t < u then t else u, if t < u then u else t;
    assert !(Active(s.threads[low]) && Active(s.threads[high]));
    assert !(Active(s'.threads[low]) && Active(s'.threads[high]));
    IdleTouchesNothing(s, t, op);
  }

  lemma OthersKeep(s: State, t: nat, op: ThreadOp)
    requires t < |s.threads| && OpEnabled(s, s.threads[t], op) && Exclusive(s) && Exclusive(OpApply(s, t, op))
    requires Ordered(s)
    ensures var s' := OpApply(s, t, op);
      |s'.threads| == |s.threads| && forall u :: 0 <= u < |s'.threads| && u != t ==> ThreadInv(s', s'.threads[u])
  {
    var s' := OpApply(s, t, op);
    OpTouchesOne(s, t, op);
    TablesGrow(s, t, op);
    forall u | 0 <= u < |s'.threads| && u != t ensures ThreadInv(s', s'.threads[u]) {
      if Active(s.threads[u]) {
        BesideActive(s, t, op, u);
      }
      StillInv(s, s', s.threads[u]);
    }
  }

  // ----- the reply channels

  /** No handler waits on a reply channel: what is offered there is what the moving goroutine has asked for. */
  lemma PendingOfMover(s: State, t: nat, op: ThreadOp)
    requires t < |s.threads| && OpEnabled(s, s.threads[t], op)
    requires !s.threads[t].Called? && s.pending == multiset{}
    ensures var s' := OpApply(s, t, op); var h := s'.threads[t];
      |s'.threads| == |s.threads|
      && (if h.Called? then s'.pending == multiset{(h.id, PayloadFor(h.req, h.id))} else s'.pending == multiset{})
  {
    OpTouchesOne(s, t, op);
    if op.Call? {
      CallTouchesOne(s, t, op.newId);
    }
  }

  lemma OnlyMoverCalled(s': State, t: nat)
    requires t < |s'.threads| && forall u :: 0 <= u < |s'.threads| && u != t ==> !s'.threads[u].Called?
    requires var h := s'.threads[t];
      if h.Called? then s'.pending == multiset{(h.id, PayloadFor(h.req, h.id))} else s'.pending == multiset{}
    ensures PendingInv(s')
  {
  }

  lemma PendingOfOther(s: State, s': State, u: nat)
    requires PendingInv(s) && Exclusive(s') && u < |s.threads| <= |s'.threads|
    requires s.threads[u].Called? && s'.threads[u] == s.threads[u] && s'.pending == s.pending
    ensures PendingInv(s')
  {
  }

  lemma MoverWasCalled(s: State, t: nat, op: ThreadOp)
    requires PendingInv(s) && Exclusive(s) && t < |s.threads| && OpEnabled(s, s.threads[t], op) && s.threads[t].Called?
    ensures PendingInv(OpApply(s, t, op))
  {
    var s' := OpApply(s, t, op);
    OpTouchesOne(s, t, op);
    OnlyOwnPayload(s, t, op.p);
    forall u | 0 <= u < |s'.threads| && u != t ensures !s'.threads[u].Called? {
      var low, high := if t < u then t else u, if t < u then u else t;
      assert !(Active(s.threads[low]) && Active(s.threads[high]));
    }
    OnlyMoverCalled(s', t);
  }

  lemma OpKeepsPending(s: State, t: nat, op: ThreadOp)
    requires PendingInv(s) && t < |s.threads| && OpEnabled(s, s.threads[t], op)
    requires Exclusive(s) && Exclusive(OpApply(s, t, op))
    ensures PendingInv(OpApply(s, t, op))
  {
    var s' := OpApply(s, t, op);
    OpTouchesOne(s, t, op);
    if s.threads[t].Called? {
      MoverWasCalled(s, t, op);
    } else if u: nat :| u < |s.threads| && s.threads[u].Called? {
      BesideActive(s, t, op, u);
      PendingOfOther(s, s', u);
    } else {
      PendingOfMover(s, t, op);
      assert forall u :: 0 <= u < |s'.threads| && u != t ==> s'.threads[u] == s.threads[u];
      OnlyMoverCalled(s', t);
    }
  }

  // ----- every step, every run

  lemma OpKeepsOrder(s: State, t: nat, op: ThreadOp)
    requires Ordered(s) && t < |s.threads| && OpEnabled(s, s.threads[t], op)
    requires Exclusive(s) && Exclusive(OpApply(s, t, op))
    ensures Ordered(OpApply(s, t, op))
  {
    OthersKeep(s, t, op);
    MoverKeeps(s, t, op);
    OpKeepsPending(s, t, op);
  }

  lemma DispatchTouches(s: State)
    requires s.main.Got?
    ensures var s' := DispatchApply(s);
      && s'.rep == s.rep && s'.objs == s.objs && s'.pending == s.pending && s'.tab == s.tab
      && s'.answers == s.answers && (s'.exited == s.exited || s'.exited == Some(UnknownType))
  {
  }

  lemma DispatchKeepsThreads(s: State, s': State)
    requires Ordered(s) && s.main.Got? && s' == DispatchApply(s)
    ensures forall u :: 0 <= u < |s'.threads| ==> ThreadInv(s', s'.threads[u])
  {
    DispatchTouches(s);
    forall u | 0 <= u < |s'.threads| ensures ThreadInv(s', s'.threads[u]) {
      if u < |s.threads| {
        StillInv(s, s', s.threads[u]);
      }
    }
  }

  lemma DispatchKeepsOrder(s: State)
    requires Ordered(s) && s.main.Got?
    ensures Ordered(DispatchApply(s))
  {
    var s' := DispatchApply(s);
    DispatchKeepsThreads(s, s');
    DispatchTouches(s);
    SameCalled(s, s');
  }

  lemma SameCalled(s: State, s': State)
    requires PendingInv(s) && s'.pending == s.pending && |s.threads| <= |s'.threads|
    requires forall u :: 0 <= u < |s.threads| ==>
               s'.threads[u] == s.threads[u] || (!s.threads[u].Called? && !s'.threads[u].Called?)
    requires forall u :: |s.threads| <= u < |s'.threads| ==> !s'.threads[u].Called?
    ensures PendingInv(s')
  {
    if u: nat :| u < |s.threads| && s.threads[u].Called? {
      assert s'.threads[u].Called?;
    } else {
      assert forall u :: 0 <= u < |s.threads| ==> !s.threads[u].Called?;
    }
  }

  /** Stream workers, a UDP request and an exit elsewhere change nothing that a handler relies on. */
  lemma OutsideKeepsOrder(s: State, step: Step)
    requires Ordered(s) && Enabled(s, step) && !step.OnThread? && !step.Dispatch?
    ensures Ordered(Apply(s, step))
  {
    var s' := Apply(s, step);
    assert s'.tab.msmts.Keys == s.tab.msmts.Keys;
    forall u | 0 <= u < |s'.threads| ensures ThreadInv(s', s'.threads[u]) {
      StillInv(s, s', s.threads[u]);
    }
    SameCalled(s, s');
  }

  lemma StepKeepsOrder(s: State, step: Step)
    requires Ordered(s) && Enabled(s, step) && Exclusive(s) && Exclusive(Apply(s, step))
    ensures Ordered(Apply(s, step))
  {
    match step
    case OnThread(t, op) => OpKeepsOrder(s, t, op);
    case Dispatch => DispatchKeepsOrder(s);
    case _ => OutsideKeepsOrder(s, step);
  }

  lemma {:induction false} RunKeepsOrder(s: State, steps: seq<Step>)
    requires Ordered(s) && Runnable(s, steps) && ExclusiveRun(s, steps)
    ensures Ordered(Run(s, steps))
    decreases |steps|
  {
    if steps != [] {
      StepKeepsOrder(s, steps[0]);
      RunKeepsOrder(Apply(s, steps[0]), steps[1..]);
    }
  }

  lemma OrderlyOrdered(s: State)
    requires Orderly(s)
    ensures Ordered(s)
  {
    var occupied, steps :|
      Runnable(Init(occupied), steps) && ExclusiveRun(Init(occupied), steps) && Run(Init(occupied), steps) == s;
    RunKeepsOrder(Init(occupied), steps);
  }

  // ----- TCP control only

  /** At most one token: a goroutine that has it is alone, and the main loop holds no request. */
  lemma Alone(s: State, t: nat)
    requires Balanced(s) && s.udpIn == 0 && t < |s.threads| && Token(s.threads[t])
    ensures s.main.Idle? && s.lost == 0 && forall u :: 0 <= u < |s.threads| && u != t ==> !Token(s.threads[u])
  {
    TokenOfOne(s.threads, t);
    forall u | 0 <= u < |s.threads| && u != t ensures !Token(s.threads[u]) {
      if Token(s.threads[u]) {
        TokensOfTwo(s.threads, if t < u then t else u, if t < u then u else t);
      }
    }
  }

  lemma MainAlone(s: State)
    requires Balanced(s) && s.udpIn == 0 && s.main.Got?
    ensures forall u :: 0 <= u < |s.threads| ==> !Token(s.threads[u])
  {
    forall u | 0 <= u < |s.threads| ensures !Token(s.threads[u]) {
      if Token(s.threads[u]) {
        TokenOfOne(s.threads, u);
      }
    }
  }

  /**
   * Mutual exclusion: with TCP control only, acceptors, connections with no request outstanding or one not
   * taken up, requests at the main loop, and handlers not yet back in accept are together at most one, and
   * exactly one as long as no connection has ended without a handler to follow it.
   */
  lemma MutualExclusion(s: State)
    requires Reachable(s) && s.udpIn == 0
    ensures Tokens(s) <= 1 && (Tokens(s) == 1 <==> s.lost == 0)
    ensures forall t, u :: 0 <= t < u < |s.threads| ==> !(Token(s.threads[t]) && Token(s.threads[u]))
    ensures s.main.Got? ==> forall t :: 0 <= t < |s.threads| ==> !Token(s.threads[t])
  {
    ReachableBalanced(s);
    forall t, u | 0 <= t < u < |s.threads| ensures !(Token(s.threads[t]) && Token(s.threads[u])) {
      if Token(s.threads[t]) {
        Alone(s, t);
      }
    }
    if s.main.Got? {
      MainAlone(s);
    }
  }

  /** Every request over UDP adds one token; a connection that ends without a handler to follow takes one away. */
  lemma TokenBalance(s: State)
    requires Reachable(s)
    ensures Tokens(s) == 1 + s.udpIn - s.lost
  {
    ReachableBalanced(s);
  }

  lemma {:induction false} UdpOnlyGrows(s: State, steps: seq<Step>)
    requires Runnable(s, steps)
    ensures Run(s, steps).udpIn >= s.udpIn
    decreases |steps|
  {
    if steps != [] {
      UdpOnlyGrows(Apply(s, steps[0]), steps[1..]);
    }
  }

  lemma {:induction false} TcpRunIsExclusive(s: State, steps: seq<Step>)
    requires Balanced(s) && Runnable(s, steps) && Run(s, steps).udpIn == 0
    ensures ExclusiveRun(s, steps)
    decreases |steps|
  {
    UdpOnlyGrows(s, steps);
    forall t, u | 0 <= t < u < |s.threads| ensures !(Active(s.threads[t]) && Active(s.threads[u])) {
      if Active(s.threads[t]) {
        Alone(s, t);
      }
    }
    if steps != [] {
      StepKeepsBalance(s, steps[0]);
      TcpRunIsExclusive(Apply(s, steps[0]), steps[1..]);
    }
  }

  /** With TCP control only no two handlers ever overlap. */
  lemma TcpIsOrderly(s: State)
    requires Reachable(s) && s.udpIn == 0
    ensures Orderly(s)
  {
    var occupied :| Leads(Init(occupied), s);
    var steps :| Runnable(Init(occupied), steps) && Run(Init(occupied), steps) == s;
    InitBalanced(occupied);
    TcpRunIsExclusive(Init(occupied), steps);
  }

  // ----- what order gives

  /** If no two handlers ever overlapped, every answer carries the number, type and measurement of its own request. */
  lemma AnswersMatchRequests(s: State, k: nat)
    requires Orderly(s) && k < |s.answers|
    ensures var (req, r) := s.answers[k];
      && Handled(req.typ) && r.seqRp == req.seqNo && r.typ == req.typ + 1
      && (req.typ in {MEASUREMENT_STOP_REQUEST, MEASUREMENT_INFO_REQUEST} ==> r.id == req.id)
  {
    OrderlyOrdered(s);
    assert Answers(s, s.answers[k].0, s.answers[k].1);
  }

  /** Then no type assertion on a measurement's reply ever fails either. */
  lemma TypedReplies(s: State)
    requires Orderly(s)
    ensures s.exited != Some(BadPayload)
    ensures forall t :: 0 <= t < |s.threads| && s.threads[t].Received? ==>
              Construct(s.threads[t].req, s.threads[t].payload).Some?
  {
    OrderlyOrdered(s);
    forall t | 0 <= t < |s.threads| && s.threads[t].Received?
      ensures Construct(s.threads[t].req, s.threads[t].payload).Some?
    {
      assert ThreadInv(s, s.threads[t]);
    }
  }

  lemma {:induction false} IdsOnlyGrow(s: State, steps: seq<Step>)
    requires Runnable(s, steps)
    ensures s.tab.recvCh <= Run(s, steps).tab.recvCh && s.tab.msmts.Keys <= Run(s, steps).tab.msmts.Keys
    decreases |steps|
  {
    if steps != [] {
      IdsOnlyGrow(Apply(s, steps[0]), steps[1..]);
    }
  }

  /** An id handed out in a start reply is in both tables, then and in every continuation, with overlaps or not. */
  lemma StartedIdsStayKnown(s: State, k: nat, s': State)
    requires Orderly(s) && k < |s.answers|
    requires s.answers[k].0.typ == MEASUREMENT_START_REQUEST && Leads(s, s')
    ensures s.answers[k].1.id in s'.tab.recvCh && s.answers[k].1.id in s'.tab.msmts
  {
    OrderlyOrdered(s);
    assert Filed(s, s.answers[k].0, s.answers[k].1);
    var steps :| Runnable(s, steps) && Run(s, steps) == s';
    IdsOnlyGrow(s, steps);
  }

  // ----- with overlaps: what an answer carries exactly

  predicate Writes(step: Step) { step.OnThread? && step.op.Write? }

  /** The step clears the type of this reply object. */
  predicate Clears(s: State, step: Step, obj: nat) {
    step.OnThread? && step.op.Clear? && step.t < |s.threads| && s.threads[step.t].Typed? && s.threads[step.t].obj == obj
  }

  predicate Cleared(s: State, steps: seq<Step>, obj: nat)
    requires Runnable(s, steps)
    decreases |steps|
  {
    steps != [] && (Clears(s, steps[0], obj) || Cleared(Apply(s, steps[0]), steps[1..], obj))
  }

  lemma StepKeepsObject(s: State, step: Step, obj: nat)
    requires Enabled(s, step) && obj < |s.objs|
    ensures var s' := Apply(s, step);
      obj < |s'.objs| && s'.objs[obj] == (if Clears(s, step, obj) then s.objs[obj].(typ := 0) else s.objs[obj])
  {
    if step.OnThread? && step.op.Call? {
      CallTouchesOne(s, step.t, step.op.newId);
    }
  }

  /** A reply object only ever loses its type, when an encoder clears it. */
  lemma {:induction false} ObjectKept(s: State, steps: seq<Step>, obj: nat)
    requires Runnable(s, steps) && obj < |s.objs|
    ensures var s' := Run(s, steps);
      obj < |s'.objs| && s'.objs[obj] == (if Cleared(s, steps, obj) then s.objs[obj].(typ := 0) else s.objs[obj])
    decreases |steps|
  {
    if steps != [] {
      StepKeepsObject(s, steps[0], obj);
      ObjectKept(Apply(s, steps[0]), steps[1..], obj);
    }
  }

  /** Between two writes the shared variable points to the same object. */
  lemma {:induction false} SharedKept(s: State, steps: seq<Step>)
    requires Runnable(s, steps) && forall k :: 0 <= k < |steps| ==> !Writes(steps[k])
    ensures Run(s, steps).rep == s.rep
    decreases |steps|
  {
    if steps != [] {
      assert forall k :: 0 <= k < |steps[1..]| ==> steps[1..][k] == steps[k + 1];
      SharedKept(Apply(s, steps[0]), steps[1..]);
    }
  }

  predicate Untouched(steps: seq<Step>, t: nat) {
    forall k :: 0 <= k < |steps| ==> !(steps[k].OnThread? && steps[k].t == t)
  }

  lemma StepLeavesThread(s: State, step: Step, t: nat)
    requires Enabled(s, step) && t < |s.threads| && !s.threads[t].Watching? && !(step.OnThread? && step.t == t)
    ensures t < |Apply(s, step).threads| && Apply(s, step).threads[t] == s.threads[t]
  {
    if step.OnThread? {
      OpTouchesOne(s, step.t, step.op);
    }
  }

  /** A handler waits where it is while only others move. */
  lemma {:induction false} ThreadKept(s: State, steps: seq<Step>, t: nat)
    requires Runnable(s, steps) && t < |s.threads| && !s.threads[t].Watching?
    requires Untouched(steps, t)
    ensures t < |Run(s, steps).threads| && Run(s, steps).threads[t] == s.threads[t]
    decreases |steps|
  {
    if steps != [] {
      assert forall k :: 0 <= k < |steps[1..]| ==> steps[1..][k] == steps[k + 1];
      StepLeavesThread(s, steps[0], t);
      ThreadKept(Apply(s, steps[0]), steps[1..], t);
    }
  }

  /** The encoder from its call to its result, with any steps of the others before each of its own three. */
  datatype Encoding = Encoding(before: seq<Step>, atCall: State, between: seq<Step>, atType: State,
                               after: seq<Step>, atClear: State)

  ghost predicate Encodes(s: State, t: nat, e: Encoding) {
    && Runnable(s, e.before) && e.atCall == Run(s, e.before) && Enabled(e.atCall, OnThread(t, Grab))
    && (forall k :: 0 <= k < |e.before| ==> !Writes(e.before[k]))
    && Runnable(OpApply(e.atCall, t, Grab), e.between) && Untouched(e.between, t)
    && e.atType == Run(OpApply(e.atCall, t, Grab), e.between) && Enabled(e.atType, OnThread(t, TakeType))
    && Runnable(OpApply(e.atType, t, TakeType), e.after) && Untouched(e.after, t)
    && e.atClear == Run(OpApply(e.atType, t, TakeType), e.after) && Enabled(e.atClear, OnThread(t, Clear))
  }

  lemma CallTakesShared(s: State, t: nat, e: Encoding)
    requires HasReply(s) && Encodes(s, t, e)
    ensures e.atType.threads[t] == Grabbed(e.atCall.threads[t].req, e.atCall.threads[t].via, s.rep.value)
    ensures HasReply(e.atCall) && e.atCall.rep == s.rep
    ensures Current(e.atCall) == (if Cleared(s, e.before, s.rep.value) then Current(s).(typ := 0) else Current(s))
  {
    SharedKept(s, e.before);
    ObjectKept(s, e.before, s.rep.value);
    ThreadKept(OpApply(e.atCall, t, Grab), e.between, t);
  }

  lemma TypeTaken(s: State, t: nat, e: Encoding, obj: nat, r: Reply)
    requires Encodes(s, t, e) && obj < |e.atCall.objs| && e.atCall.objs[obj] == r
    requires e.atType.threads[t].Grabbed? && e.atType.threads[t].obj == obj
    ensures var cleared := Cleared(OpApply(e.atCall, t, Grab), e.between, obj);
      e.atClear.threads[t] == Typed(e.atType.threads[t].req, e.atType.threads[t].via, obj, if cleared then 0 else r.typ)
    ensures obj < |e.atClear.objs| && e.atClear.objs[obj] in {r, r.(typ := 0)}
  {
    ObjectKept(OpApply(e.atCall, t, Grab), e.between, obj);
    ThreadKept(OpApply(e.atType, t, TakeType), e.after, t);
    ObjectKept(OpApply(e.atType, t, TakeType), e.after, obj);
  }

  /**
   * However many handlers overlap: an encoder sends the object its last writer made, so the answer has the
   * number of its own request if and only if that writer's request had this number, and it has a type if and
   * only if no encoder of this object had cleared it by the time this one took the type.
   */
  lemma LastWriterDecides(s: State, u: nat, s1: State, t: nat, e: Encoding)
    requires Enabled(s, OnThread(u, Write)) && s1 == WriteApply(s, u) && s1.exited.None?
    requires Encodes(s1, t, e)
    ensures var answer, own := ClearApply(e.atClear, t).threads[t].answer, e.atCall.threads[t].req;
      && (answer.seqRp == own.seqNo <==> s.threads[u].req.seqNo == own.seqNo)
      && (answer.typ != 0 <==> !Cleared(s1, e.before, |s.objs|)
                               && !Cleared(OpApply(e.atCall, t, Grab), e.between, |s.objs|))
      && HasReply(s1) && (answer.typ != 0 ==> answer == Current(s1))
  {
    assert s1.rep == Some(|s.objs|);
    CallTakesShared(s1, t, e);
    TypeTaken(s1, t, e, |s.objs|, Current(e.atCall));
  }
}
