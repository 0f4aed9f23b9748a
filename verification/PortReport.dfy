/** From the start-up of the server to the client workers: the list of ports on its way. */
module PortReport {
  import opened Wrappers
  import opened PortScan
  import PortList

  /** The client connects to exactly the ports the server bound: one worker for every stream. */
  lemma ClientSeesEveryPort(busy: set<nat>, start: nat, n: nat, schedule: seq<nat>)
    requires n >= 1
    requires Runnable(Init(busy, start, n), schedule) && Complete(Run(Init(busy, start, n), schedule))
    ensures var used := Run(Init(busy, start, n), schedule).usedPorts;
      PortList.PortsOf(PortList.ConvIntSliceToStr(used)) == Some(used) && |used| == n
  {
    var s := Run(Init(busy, start, n), schedule);
    RunKeepsInv(busy, start, Init(busy, start, n), schedule);
    CompleteState(busy, start, s);
    forall k | 0 <= k < |s.usedPorts| ensures PortList.IsInt64(s.usedPorts[k]) {
      assert s.usedPorts[k] in Elements(s.usedPorts);
    }
    PortList.PortListRoundTrip(s.usedPorts);
  }
}
