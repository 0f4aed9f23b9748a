/** The client's manage loop as the object it is: two byte counts and two timers (mapago-client.go). */
module MsmtManager {
  import opened Wrappers
  import Telemetry
  import opened RunModel
  import opened RunHandshake

  /** The streams once every worker that can take a close has taken it. */
  function Told(streams: seq<Stream>): seq<Stream> {
    seq(|streams|, i requires 0 <= i < |streams| =>
      if streams[i].client in LIVE then streams[i].(client := Quitting) else streams[i])
  }

  /** One worker, dialling to the end first if need be, takes one close: a run of the model. */
  lemma TakesClose(c: Config, s: State, i: nat)
    requires s.k.mgr.phase.Closing? && s.k.mgr.phase.sent < c.workers
    requires i < |s.streams| && s.streams[i].client in LIVE
    ensures Leads(c, s, State(s.streams[i := s.streams[i].(client := Quitting)], s.waitGroup,
                              s.k.(mgr := s.k.mgr.(phase := Closing(s.k.mgr.phase.sent + 1)))))
  {
    if s.streams[i].client == Dialing {
      var mid := Apply(c, s, OnStream(i, Dial));
      LeadsByStep(c, s, OnStream(i, Dial));
      Meets(c, mid, i, s.streams[i].(client := Quitting));
      assert s.streams[i := mid.streams[i]][i := s.streams[i].(client := Quitting)]
             == s.streams[i := s.streams[i].(client := Quitting)];
      LeadsOn(c, s, mid, Apply(c, mid, Rendezvous(i)));
    } else {
      Meets(c, s, i, s.streams[i].(client := Quitting));
    }
  }

  lemma Meets(c: Config, s: State, i: nat, told: Stream)
    requires s.k.mgr.phase.Closing? && s.k.mgr.phase.sent < c.workers
    requires i < |s.streams| && s.streams[i].client == Sending && told == s.streams[i].(client := Quitting)
    ensures Enabled(c, s, Rendezvous(i)) && Leads(c, s, Apply(c, s, Rendezvous(i)))
    ensures Apply(c, s, Rendezvous(i)) == State(s.streams[i := told], s.waitGroup,
                                                s.k.(mgr := s.k.mgr.(phase := Closing(s.k.mgr.phase.sent + 1))))
  {
    LeadsByStep(c, s, Rendezvous(i));
  }

  /** One more close in a run of closes; `s'` is the state after it. */
  lemma OneMoreClose(c: Config, start: State, s: State, i: nat, s': State)
    requires Leads(c, start, s) && |s.streams| == c.workers
    requires s.k.mgr.phase.Closing? && s.k.mgr.phase.sent + Count(s.streams, LIVE) <= c.workers
    requires i < |s.streams| && s.streams[i].client in LIVE
    requires s' == State(s.streams[i := s.streams[i].(client := Quitting)], s.waitGroup,
                         s.k.(mgr := s.k.mgr.(phase := Closing(s.k.mgr.phase.sent + 1))))
    ensures Leads(c, start, s') && Told(s'.streams) == Told(s.streams)
    ensures Count(s'.streams, LIVE) == Count(s.streams, LIVE) - 1
  {
    CountUpdate(s.streams, i, s.streams[i].(client := Quitting), LIVE);
    TakesClose(c, s, i);
    LeadsOn(c, start, s, s');
  }

  lemma PastSends(c: Config, start: State, s: State)
    requires Leads(c, start, s) && s.k.mgr.phase == Closing(c.workers)
    ensures Leads(c, start, s.(k := s.k.(mgr := s.k.mgr.(phase := Waiting))))
  {
    LeadsByStep(c, s, OnManager(SendsDone));
    LeadsOn(c, start, s, Apply(c, s, OnManager(SendsDone)));
  }

  lemma AllTold(streams: seq<Stream>)
    requires forall i :: 0 <= i < |streams| ==> streams[i].client !in LIVE
    ensures Told(streams) == streams && Count(streams, LIVE) == 0
  {
    CountNone(streams, LIVE);
  }

  class Manager {
    const config: Config
    var phase: Phase
    var verdict: Verdict
    var currSrvBytes: nat
    var lastSrvBytes: nat
    var tMsmtInfoReq: Timer
    var tDeadline: Timer

    /** The manager part of the run model's state. */
    function View(): RunModel.Manager
      reads this
    {
      RunModel.Manager(phase, verdict, currSrvBytes, lastSrvBytes, tMsmtInfoReq, tDeadline)
    }

    constructor (config: Config)
      ensures this.config == config && View() == Init(config).k.mgr
    {
      this.config := config;
      phase, verdict := Select, Undecided;
      currSrvBytes, lastSrvBytes := 0, 0;
      tMsmtInfoReq, tDeadline := Reset(Timer(0, false), config.update), Reset(Timer(0, false), config.deadline);
    }

    /** Whether the last poll brought nothing new; remembers a larger total. */
    method NoUpdates() returns (same: bool)
      modifies this`lastSrvBytes
      ensures same <==> currSrvBytes <= old(lastSrvBytes)
      ensures lastSrvBytes == if same then old(lastSrvBytes) else currSrvBytes
    {
      if currSrvBytes > lastSrvBytes {
        lastSrvBytes := currSrvBytes;
        return false;
      }
      return true;
    }

    method MsmtFinished() returns (finished: bool)
      ensures finished <==> currSrvBytes >= config.total
    {
      finished := currSrvBytes >= config.total;
    }

    /** The body of the default case is the run model's decision, whatever its history. */
    method DefaultCase()
      requires phase == Deciding
      modifies this
      ensures forall h: History :: View() == Decided(config, Control(old(View()), h)).mgr
    {
      var same := NoUpdates();
      if !same {
        tDeadline := Reset(tDeadline, config.deadline);
      }
      var finished := MsmtFinished();
      if finished {
        phase, verdict := Closing(0), Finished;
      } else {
        phase := Select;
      }
    }

    /** The info case once the reply is in: the completed poll of the run model. */
    method InfoReply(elements: seq<Telemetry.DataResult>)
      requires phase.Polling? && Telemetry.Texts(elements) == Telemetry.Received(phase.counts)
      modifies this
      ensures forall bytes: seq<nat>, waitGroup: int, h: History | |bytes| == |old(phase).counts| ::
                View() == MgrApply(config, bytes, waitGroup, Control(old(View()), h), PollDone).mgr
    {
      var total := Telemetry.CountCurrSrvBytes(elements);
      match total
      case None => phase := GivenUp;
      case Some(bytes) =>
        currSrvBytes := bytes;
        tMsmtInfoReq := Reset(tMsmtInfoReq, config.update);
        phase := Select;
    }

    /** The whole run's state, with the manager's part taken from the fields. */
    function Whole(streams: seq<Stream>, waitGroup: int, hist: History): State
      reads this
    {
      State(streams, waitGroup, Control(View(), hist))
    }

    /**
     * The deadline case up to the wait: in QUIC the stop request comes next and nobody is told to close;
     * otherwise every worker that has not left takes one close, and the manager gets past its sends exactly
     * when no worker has left before. It is a run of the model.
     */
    method DeadlineCase(streams: array<Stream>, ghost waitGroup: int, ghost hist: History)
      requires phase == Select && tDeadline.fired && streams.Length == config.workers
      modifies this, streams
      ensures Leads(config, old(Whole(streams[..], waitGroup, hist)), Whole(streams[..], waitGroup, hist))
      ensures verdict == TimedOut
      ensures config.transport.Quic? ==> phase.Stopping? && streams[..] == old(streams[..])
      ensures !config.transport.Quic? ==> streams[..] == Told(old(streams[..]))
      ensures !config.transport.Quic? ==>
                phase == if forall i :: 0 <= i < streams.Length ==> old(streams[i].client) in LIVE
                         then Waiting else Closing(Count(old(streams[..]), LIVE))
    {
      ghost var start := Whole(streams[..], waitGroup, hist);
      tDeadline := tDeadline.(fired := false);
      verdict := TimedOut;
      if config.transport.Quic? {
        phase := Stopping(Bytes(streams[..]), {}, []);
        LeadsByStep(config, start, OnManager(DeadlineBranch));
      } else {
        phase := Closing(0);
        ghost var closing := Whole(streams[..], waitGroup, hist);
        LeadsByStep(config, start, OnManager(DeadlineBranch));
        CountAll(streams[..], LIVE);
        var sends := CloseWorkers(streams, waitGroup, hist);
        LeadsOn(config, start, closing, Whole(streams[..], waitGroup, hist));
      }
    }

    /** One send of the closing loop meets the receive of a worker that has not left. */
    method SendClose(streams: array<Stream>, i: nat, ghost start: State, ghost waitGroup: int, ghost hist: History)
      requires phase.Closing? && streams.Length == config.workers && i < streams.Length
      requires streams[i].client in LIVE && phase.sent + Count(streams[..], LIVE) <= config.workers
      requires Leads(config, start, Whole(streams[..], waitGroup, hist))
      modifies this`phase, streams
      ensures phase == Closing(old(phase).sent + 1)
      ensures Leads(config, start, Whole(streams[..], waitGroup, hist))
      ensures Told(streams[..]) == Told(old(streams[..]))
      ensures Count(streams[..], LIVE) == Count(old(streams[..]), LIVE) - 1
    {
      ghost var s := Whole(streams[..], waitGroup, hist);
      streams[i] := streams[i].(client := Quitting);
      phase := Closing(phase.sent + 1);
      assert streams[..] == s.streams[i := s.streams[i].(client := Quitting)];
      OneMoreClose(config, start, s, i, Whole(streams[..], waitGroup, hist));
    }

    /**
     * The closing loop: the unbuffered channel hands each close to one worker that has not left, whichever
     * comes first; the loop blocks for ever when none is left to take it.
     */
    method CloseWorkers(streams: array<Stream>, ghost waitGroup: int, ghost hist: History) returns (sends: nat)
      requires phase == Closing(0) && streams.Length == config.workers
      modifies this`phase, streams
      ensures Leads(config, old(Whole(streams[..], waitGroup, hist)), Whole(streams[..], waitGroup, hist))
      ensures sends == Count(old(streams[..]), LIVE) && streams[..] == Told(old(streams[..]))
      ensures phase == if sends == config.workers then Waiting else Closing(sends)
    {
      sends := 0;
      ghost var start := Whole(streams[..], waitGroup, hist);
      LeadsNowhere(config, start);
      CountAll(streams[..], LIVE);
      while exists i :: 0 <= i < streams.Length && streams[i].client in LIVE
        invariant phase == Closing(sends) && sends + Count(streams[..], LIVE) == Count(start.streams, LIVE)
        invariant Told(streams[..]) == Told(start.streams)
        invariant Leads(config, start, Whole(streams[..], waitGroup, hist))
        decreases Count(streams[..], LIVE)
      {
        var i :| 0 <= i < streams.Length && streams[i].client in LIVE;
        SendClose(streams, i, start, waitGroup, hist);
        sends := sends + 1;
      }
      AllTold(streams[..]);
      if sends == config.workers {
        PastSends(config, start, Whole(streams[..], waitGroup, hist));
        phase := Waiting;
      }
    }
  }
}
