/**
 * Server start-up: N workers scan upwards from one start port at the same time; a worker binds the
 * first port it finds free, and appends it to `usedPorts` in a later step (tcp-throughput/server.go).
 * Binding is exclusive; the append, which the code does not lock, is taken as one atomic step.
 */
module PortScan {
  import opened Ports

  datatype Worker = Scanning(port: nat) | Listening(port: nat) | Ready(port: nat)

  /** `occupied`: ports somebody listens on. `dead`: a worker ran past the last port and the process exited. */
  datatype State = State(occupied: set<nat>, workers: seq<Worker>, usedPorts: seq<nat>, dead: bool)

  function Init(busy: set<nat>, start: nat, n: nat): State {
    State(busy, seq(n, _ => Scanning(start)), [], false)
  }

  /** Worker `i` takes its next step: one bind attempt, or the append after a successful one. */
  predicate Enabled(s: State, i: nat) {
    !s.dead && i < |s.workers| && !s.workers[i].Ready?
  }

  function Step(s: State, i: nat): State
    requires Enabled(s, i)
  {
    match s.workers[i]
    case Scanning(p) =>
      if p > MAX_PORT then s.(dead := true)
      else if p in s.occupied then s.(workers := s.workers[i := Scanning(p + 1)])
      else s.(occupied := s.occupied + {p}, workers := s.workers[i := Listening(p)])
    case Listening(p) => s.(workers := s.workers[i := Ready(p)], usedPorts := s.usedPorts + [p])
    case Ready(_) => s
  }

  predicate Complete(s: State) {
    !s.dead && forall i :: 0 <= i < |s.workers| ==> s.workers[i].Ready?
  }

  // ----- the invariant

  predicate HasPort(w: Worker) { !w.Scanning? }

  ghost predicate WorkerInv(busy: set<nat>, start: nat, w: Worker) {
    w.port >= start && (HasPort(w) ==> w.port <= MAX_PORT && w.port !in busy)
  }

  /** A port is occupied if it was busy before or one of the workers holds it. */
  ghost predicate Holds(s: State, p: nat) {
    exists i :: 0 <= i < |s.workers| && HasPort(s.workers[i]) && s.workers[i].port == p
  }

  ghost predicate PortsInv(busy: set<nat>, start: nat, s: State) {
    && (forall p :: p in s.occupied <==> p in busy || Holds(s, p))
    && (forall i :: 0 <= i < |s.workers| ==> WorkerInv(busy, start, s.workers[i]))
    && (forall i, j :: 0 <= i < j < |s.workers| && HasPort(s.workers[i]) && HasPort(s.workers[j]) ==>
          s.workers[i].port != s.workers[j].port)
  }

  /** Every port a worker has passed by is occupied, since ports are never given back. */
  ghost predicate ScanInv(start: nat, s: State) {
    && (forall i, q :: 0 <= i < |s.workers| && start <= q < s.workers[i].port ==> q in s.occupied)
    && (s.dead ==> (forall q :: start <= q <= MAX_PORT ==> q in s.occupied)
                   && exists i :: 0 <= i < |s.workers| && s.workers[i].Scanning?)
  }

  ghost predicate UsedInv(s: State) {
    && (forall k, l :: 0 <= k < l < |s.usedPorts| ==> s.usedPorts[k] != s.usedPorts[l])
    && (forall p :: p in s.usedPorts <==>
          exists i :: 0 <= i < |s.workers| && s.workers[i].Ready? && s.workers[i].port == p)
  }

  ghost predicate Inv(busy: set<nat>, start: nat, s: State) {
    PortsInv(busy, start, s) && ScanInv(start, s) && UsedInv(s)
  }

  lemma StepHolds(s: State, i: nat, p: nat)
    requires Enabled(s, i)
    ensures Holds(Step(s, i), p) <==> Holds(s, p) || (p in Step(s, i).occupied && p !in s.occupied)
  {
    var s' := Step(s, i);
    if Holds(s, p) {
      var j :| 0 <= j < |s.workers| && HasPort(s.workers[j]) && s.workers[j].port == p;
      assert HasPort(s'.workers[j]) && s'.workers[j].port == p;
    } else if p in s'.occupied && p !in s.occupied {
      assert HasPort(s'.workers[i]) && s'.workers[i].port == p;
    }
  }

  lemma StepKeepsPorts(busy: set<nat>, start: nat, s: State, i: nat)
    requires PortsInv(busy, start, s) && Enabled(s, i)
    ensures PortsInv(busy, start, Step(s, i))
  {
    forall p ensures p in Step(s, i).occupied <==> p in busy || Holds(Step(s, i), p) {
      StepHolds(s, i, p);
    }
  }

  lemma StepKeepsScan(busy: set<nat>, start: nat, s: State, i: nat)
    requires PortsInv(busy, start, s) && ScanInv(start, s) && Enabled(s, i)
    ensures ScanInv(start, Step(s, i))
  {
    var s' := Step(s, i);
    if s'.dead {
      assert s'.workers[i].Scanning?;
    }
  }

  lemma StepKeepsUsed(busy: set<nat>, start: nat, s: State, i: nat)
    requires PortsInv(busy, start, s) && UsedInv(s) && Enabled(s, i)
    ensures UsedInv(Step(s, i))
  {
    var s' := Step(s, i);
    var w := s.workers[i];
    if w.Listening? {
      forall j | 0 <= j < |s.workers| && s.workers[j].Ready? ensures s.workers[j].port != w.port {
        assert j < i || i < j;
      }
      forall k | 0 <= k < |s.usedPorts| ensures s.usedPorts[k] != w.port {
        assert s.usedPorts[k] in s.usedPorts;
      }
    }
    forall p
      ensures p in s'.usedPorts <==>
              exists j :: 0 <= j < |s'.workers| && s'.workers[j].Ready? && s'.workers[j].port == p
    {
      ReadyPorts(s, i, p);
    }
  }

  lemma ReadyPorts(s: State, i: nat, p: nat)
    requires Enabled(s, i)
    requires p in s.usedPorts <==> exists j :: 0 <= j < |s.workers| && s.workers[j].Ready? && s.workers[j].port == p
    ensures var s' := Step(s, i);
      p in s'.usedPorts <==> exists j :: 0 <= j < |s'.workers| && s'.workers[j].Ready? && s'.workers[j].port == p
  {
    var s' := Step(s, i);
    if p in s.usedPorts {
      var j :| 0 <= j < |s.workers| && s.workers[j].Ready? && s.workers[j].port == p;
      assert s'.workers[j].Ready? && s'.workers[j].port == p;
    } else if p in s'.usedPorts {
      assert s'.workers[i].Ready? && s'.workers[i].port == p;
    }
  }

  lemma StepKeepsInv(busy: set<nat>, start: nat, s: State, i: nat)
    requires Inv(busy, start, s) && Enabled(s, i)
    ensures Inv(busy, start, Step(s, i))
  {
    StepKeepsPorts(busy, start, s, i);
    StepKeepsScan(busy, start, s, i);
    StepKeepsUsed(busy, start, s, i);
  }

  // ----- interleavings

  predicate Runnable(s: State, schedule: seq<nat>)
    decreases |schedule|
  {
    schedule == [] || (Enabled(s, schedule[0]) && Runnable(Step(s, schedule[0]), schedule[1..]))
  }

  function Run(s: State, schedule: seq<nat>): State
    requires Runnable(s, schedule)
    decreases |schedule|
  {
    if schedule == [] then s else Run(Step(s, schedule[0]), schedule[1..])
  }

  lemma {:induction false} RunKeepsInv(busy: set<nat>, start: nat, s: State, schedule: seq<nat>)
    requires Inv(busy, start, s) && Runnable(s, schedule)
    ensures Inv(busy, start, Run(s, schedule)) && |Run(s, schedule).workers| == |s.workers|
    decreases |schedule|
  {
    if schedule != [] {
      StepKeepsInv(busy, start, s, schedule[0]);
      RunKeepsInv(busy, start, Step(s, schedule[0]), schedule[1..]);
    }
  }

  function Bound(workers: seq<Worker>): set<nat> {
    set i | 0 <= i < |workers| && HasPort(workers[i]) :: workers[i].port
  }

  lemma {:induction false} BoundSize(workers: seq<Worker>)
    requires forall i, j :: 0 <= i < j < |workers| && HasPort(workers[i]) && HasPort(workers[j]) ==>
               workers[i].port != workers[j].port
    ensures |Bound(workers)| <= |workers|
    ensures |Bound(workers)| == |workers| <==> forall i :: 0 <= i < |workers| ==> HasPort(workers[i])
  {
    if workers != [] {
      var n := |workers| - 1;
      BoundSize(workers[..n]);
      if HasPort(workers[n]) {
        assert Bound(workers) == Bound(workers[..n]) + {workers[n].port};
      } else {
        assert Bound(workers) == Bound(workers[..n]);
      }
    }
  }

  lemma BoundIsSmallest(busy: set<nat>, start: nat, s: State)
    requires Inv(busy, start, s)
    ensures Bound(s.workers) == Smallest(busy, start, |Bound(s.workers)|)
  {
    var bound := Bound(s.workers);
    forall p | p in bound ensures p >= start && p !in busy {
      var i :| 0 <= i < |s.workers| && HasPort(s.workers[i]) && s.workers[i].port == p;
      assert WorkerInv(busy, start, s.workers[i]);
    }
    forall p, q | p in bound && start <= q < p && q !in busy ensures q in bound {
      var i :| 0 <= i < |s.workers| && HasPort(s.workers[i]) && s.workers[i].port == p;
      assert q in s.occupied;
    }
    SmallestHasNoGaps(busy, start, |bound|);
    NoGapsUnique(busy, start, bound, Smallest(busy, start, |bound|));
  }

  /**
   * Confluence: whatever the interleaving, when every worker is ready the reported ports are pairwise
   * distinct and, as a set, exactly the N smallest initially free ports from the start port on.
   */
  lemma CompleteMeansSmallest(busy: set<nat>, start: nat, n: nat, schedule: seq<nat>)
    requires Runnable(Init(busy, start, n), schedule) && Complete(Run(Init(busy, start, n), schedule))
    ensures var used := Run(Init(busy, start, n), schedule).usedPorts;
      && (forall k, l :: 0 <= k < l < |used| ==> used[k] != used[l])
      && Elements(used) == Smallest(busy, start, n)
      && |used| == n
  {
    var s := Run(Init(busy, start, n), schedule);
    RunKeepsInv(busy, start, Init(busy, start, n), schedule);
    CompleteState(busy, start, s);
  }

  function Elements(ports: seq<nat>): set<nat> { set p | p in ports }

  lemma UsedAreBound(s: State)
    requires UsedInv(s) && Complete(s)
    ensures Elements(s.usedPorts) == Bound(s.workers)
  {
    forall p ensures p in Elements(s.usedPorts) <==> p in Bound(s.workers) {
    }
  }

  lemma CompleteState(busy: set<nat>, start: nat, s: State)
    requires Inv(busy, start, s) && Complete(s)
    ensures Elements(s.usedPorts) == Smallest(busy, start, |s.workers|) && |s.usedPorts| == |s.workers|
    ensures forall p :: p in Smallest(busy, start, |s.workers|) ==> p <= MAX_PORT
  {
    BoundSize(s.workers);
    BoundIsSmallest(busy, start, s);
    UsedAreBound(s);
    DistinctSize(s.usedPorts);
    BoundInRange(busy, start, s);
  }

  lemma BoundInRange(busy: set<nat>, start: nat, s: State)
    requires PortsInv(busy, start, s)
    ensures forall p :: p in Bound(s.workers) ==> p <= MAX_PORT
  {
    forall p | p in Bound(s.workers) ensures p <= MAX_PORT {
      var i :| 0 <= i < |s.workers| && HasPort(s.workers[i]) && s.workers[i].port == p;
      assert WorkerInv(busy, start, s.workers[i]);
    }
  }

  lemma {:induction false} DistinctSize(ports: seq<nat>)
    requires forall k, l :: 0 <= k < l < |ports| ==> ports[k] != ports[l]
    ensures |Elements(ports)| == |ports|
  {
    if ports != [] {
      var n := |ports| - 1;
      DistinctSize(ports[..n]);
      assert Elements(ports) == Elements(ports[..n]) + {ports[n]};
    }
  }

  /** The process dies in start-up only if one of the N smallest free ports is beyond the last port. */
  lemma DeadState(busy: set<nat>, start: nat, s: State)
    requires Inv(busy, start, s) && s.dead
    ensures exists p :: p in Smallest(busy, start, |s.workers|) && p > MAX_PORT
  {
    var wanted := Smallest(busy, start, |s.workers|);
    BoundSize(s.workers);
    if forall p :: p in wanted ==> p <= MAX_PORT {
      forall p | p in wanted ensures p in Bound(s.workers) {
        assert p in s.occupied;
      }
      SubsetSize(wanted, Bound(s.workers));
      assert false;
    }
  }

  // ----- the start-up as the object it is

  function Weight(w: Worker): nat {
    match w
    case Scanning(p) => if p <= MAX_PORT then MAX_PORT - p + 3 else 2
    case Listening(_) => 1
    case Ready(_) => 0
  }

  function WorkLeft(workers: seq<Worker>): nat {
    if workers == [] then 0 else WorkLeft(workers[..|workers| - 1]) + Weight(workers[|workers| - 1])
  }

  lemma {:induction false} WorkLeftUpdate(workers: seq<Worker>, i: nat, w: Worker)
    requires i < |workers|
    ensures WorkLeft(workers[i := w]) == WorkLeft(workers) - Weight(workers[i]) + Weight(w)
  {
    var n := |workers| - 1;
    if i == n {
      assert workers[i := w][..n] == workers[..n];
    } else {
      assert workers[i := w][..n] == workers[..n][i := w];
      WorkLeftUpdate(workers[..n], i, w);
    }
  }

  lemma StepWorksOff(s: State, i: nat)
    requires Enabled(s, i)
    ensures Step(s, i).dead || WorkLeft(Step(s, i).workers) < WorkLeft(s.workers)
  {
    WorkLeftUpdate(s.workers, i, Step(s, i).workers[i]);
  }

  /** No schedule goes on for ever: its length is bounded by the ports left to try. */
  lemma {:induction false} SchedulesEnd(s: State, schedule: seq<nat>)
    requires Runnable(s, schedule)
    ensures |schedule| <= WorkLeft(s.workers) + 1
    decreases |schedule|
  {
    if schedule != [] {
      var next := Step(s, schedule[0]);
      StepWorksOff(s, schedule[0]);
      if next.dead {
        assert schedule[1..] == [];
      } else {
        SchedulesEnd(next, schedule[1..]);
      }
    }
  }

  /**
   * Every schedule that cannot be continued ends alive and complete if the N smallest free ports all
   * exist, and with the process dead if they do not.
   */
  lemma StartupOutcome(busy: set<nat>, start: nat, n: nat, schedule: seq<nat>)
    requires Runnable(Init(busy, start, n), schedule)
    requires forall i :: !Enabled(Run(Init(busy, start, n), schedule), i)
    ensures var s := Run(Init(busy, start, n), schedule);
      && (s.dead <==> exists p :: p in Smallest(busy, start, n) && p > MAX_PORT)
      && (!s.dead ==> Complete(s))
  {
    var s := Run(Init(busy, start, n), schedule);
    RunKeepsInv(busy, start, Init(busy, start, n), schedule);
    if s.dead {
      DeadState(busy, start, s);
    } else {
      assert forall i :: 0 <= i < |s.workers| && !s.workers[i].Ready? ==> Enabled(s, i);
      CompleteState(busy, start, s);
    }
  }

  lemma InitInv(busy: set<nat>, start: nat, n: nat)
    ensures Inv(busy, start, Init(busy, start, n))
  {
  }

  class Startup {
    var occupied: set<nat>
    var workers: seq<Worker>
    var usedPorts: seq<nat>
    var dead: bool

    function View(): State
      reads this
    {
      State(occupied, workers, usedPorts, dead)
    }

    constructor (busy: set<nat>, start: nat, n: nat)
      ensures View() == Init(busy, start, n) && Inv(busy, start, View())
    {
      InitInv(busy, start, n);
      occupied, workers, usedPorts, dead := busy, seq(n, _ => Scanning(start)), [], false;
    }

    /** One worker's turn, in place. */
    method Turn(i: nat)
      requires Enabled(View(), i)
      modifies this
      ensures View() == Step(old(View()), i)
      ensures dead || WorkLeft(workers) < WorkLeft(old(workers))
    {
      var w := workers[i];
      if w.Listening? {
        usedPorts := usedPorts + [w.port];
        workers := workers[i := Ready(w.port)];
      } else if w.port > MAX_PORT {
        dead := true;
      } else if w.port in occupied {
        workers := workers[i := Scanning(w.port + 1)];
      } else {
        occupied := occupied + {w.port};
        workers := workers[i := Listening(w.port)];
      }
      WorkLeftUpdate(old(workers), i, workers[i]);
    }

    /**
     * Start-up under an arbitrary scheduler terminates: alive with exactly the N smallest free ports if
     * they all exist, and dead otherwise.
     */
    method RunAll(ghost busy: set<nat>, ghost start: nat)
      requires Inv(busy, start, View()) && !dead
      modifies this
      ensures |workers| == |old(workers)|
      ensures dead <==> exists p :: p in Smallest(busy, start, |workers|) && p > MAX_PORT
      ensures !dead ==> Complete(View()) && |usedPorts| == |workers|
                        && Elements(usedPorts) == Smallest(busy, start, |workers|)
    {
      while !dead && exists i :: 0 <= i < |workers| && !workers[i].Ready?
        invariant Inv(busy, start, View()) && |workers| == |old(workers)|
        decreases !dead, WorkLeft(workers)
      {
        var i :| 0 <= i < |workers| && !workers[i].Ready?;
        StepKeepsInv(busy, start, View(), i);
        Turn(i);
      }
      if dead {
        DeadState(busy, start, View());
      } else {
        CompleteState(busy, start, View());
      }
    }
  }


}
