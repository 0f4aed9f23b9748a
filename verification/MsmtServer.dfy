/** The measurement object of the server: one counter object a stream, updated in place (tcp-throughput/server.go). */
module MsmtServer {
  import opened Decimal
  import opened Telemetry
  import opened Sequences
  import RunModel

  class MsmtInfo {
    var bytes: nat
    var firstTs: string
    var lastTs: string

    constructor (initTs: string)
      ensures bytes == 0 && firstTs == initTs && lastTs == initTs
    {
      bytes, firstTs, lastTs := 0, initTs, initTs;
    }
  }

  function StreamName(c: nat): string { "stream" + Digits(c) }

  lemma StreamNamesDiffer(a: nat, b: nat)
    requires a != b
    ensures StreamName(a) != StreamName(b)
  {
    if StreamName(a) == StreamName(b) {
      assert StreamName(a)[|"stream"|..] == Digits(a) && StreamName(b)[|"stream"|..] == Digits(b);
      DigitsRoundTrip(a);
      DigitsRoundTrip(b);
    }
  }

  lemma NewName(c: nat)
    ensures forall d: nat :: d < c ==> StreamName(d) != StreamName(c)
  {
    forall d: nat | d < c ensures StreamName(d) != StreamName(c) {
      StreamNamesDiffer(d, c);
    }
  }

  class MsmtObj {
    const numStreams: nat
    var msmtInfoStorage: map<string, MsmtInfo>

    /** Every stream has a counter object, and no two share one. */
    ghost predicate Valid()
      reads this
    {
      && (forall c :: 1 <= c <= numStreams ==> StreamName(c) in msmtInfoStorage)
      && (forall a, b :: a in msmtInfoStorage && b in msmtInfoStorage && a != b ==>
            msmtInfoStorage[a] != msmtInfoStorage[b])
    }

    function Info(c: nat): MsmtInfo
      reads this
      requires StreamName(c) in msmtInfoStorage
    {
      msmtInfoStorage[StreamName(c)]
    }

    /** The counters of streams 1 to n. */
    ghost function Counters(n: nat): (r: seq<nat>)
      reads this, msmtInfoStorage.Values
      requires Valid() && n <= numStreams
      ensures |r| == n && forall i :: 0 <= i < n ==> r[i] == Info(i + 1).bytes
    {
      if n == 0 then [] else Counters(n - 1) + [Info(n).bytes]
    }

    constructor (numStreams: nat, initTs: string)
      ensures Valid() && this.numStreams == numStreams && fresh(msmtInfoStorage.Values)
      ensures forall i :: 0 <= i < numStreams ==> Counters(numStreams)[i] == 0
    {
      this.numStreams := numStreams;
      this.msmtInfoStorage := map[];
      new;
      for c := 1 to numStreams + 1
        invariant forall a :: a in msmtInfoStorage ==> fresh(msmtInfoStorage[a])
        invariant forall d :: 1 <= d < c ==> StreamName(d) in msmtInfoStorage && Info(d).bytes == 0
        invariant forall a :: a in msmtInfoStorage ==> exists d :: 1 <= d < c && a == StreamName(d)
        invariant forall a, b :: a in msmtInfoStorage && b in msmtInfoStorage && a != b ==>
                    msmtInfoStorage[a] != msmtInfoStorage[b]
      {
        var msmtInfo := new MsmtInfo(initTs);
        NewName(c);
        msmtInfoStorage := msmtInfoStorage[StreamName(c) := msmtInfo];
      }
    }

    /** The report loop: the printed counters of streams 1 to N, in that order. */
    method GetMsmtInfo() returns (msmtData: seq<DataResult>)
      requires Valid()
      ensures Texts(msmtData) == Received(Counters(numStreams))
      ensures forall i :: 0 <= i < numStreams ==>
                msmtData[i].timestampFirst == Info(i + 1).firstTs && msmtData[i].timestampLast == Info(i + 1).lastTs
    {
      msmtData := [];
      for c := 1 to numStreams + 1
        invariant |msmtData| == c - 1
        invariant forall i :: 0 <= i < c - 1 ==>
                    msmtData[i] == DataResult(Info(i + 1).firstTs, Info(i + 1).lastTs, Itoa(ToInt64(Info(i + 1).bytes)))
      {
        var msmtStruct := msmtInfoStorage[StreamName(c)];
        msmtData := msmtData + [DataResult(msmtStruct.firstTs, msmtStruct.lastTs, Itoa(ToInt64(msmtStruct.bytes)))];
      }
    }
  }

  function Sizes(chunks: seq<(nat, string)>): seq<nat> {
    seq(|chunks|, i requires 0 <= i < |chunks| => chunks[i].0)
  }

  lemma SizesMore(chunks: seq<(nat, string)>, k: nat)
    requires k < |chunks|
    ensures Sum(Sizes(chunks[..k + 1])) == Sum(Sizes(chunks[..k])) + chunks[k].0
  {
    assert Sizes(chunks[..k + 1])[..k] == Sizes(chunks[..k]);
  }

  /** The server worker of stream `c` once its connection is there. */
  class ServerWorker {
    const msmt: MsmtObj
    const c: nat
    var fTsExists: bool

    constructor (msmt: MsmtObj, c: nat)
      ensures this.msmt == msmt && this.c == c && !fTsExists
    {
      this.msmt, this.c, fTsExists := msmt, c, false;
    }

    /** The counter of this worker's stream. */
    function Info(): MsmtInfo
      reads msmt
      requires StreamName(c) in msmt.msmtInfoStorage
    {
      msmt.Info(c)
    }

    /**
     * One read: this stream's counter grows by its bytes as in the run model, every other one stays, and
     * only the first read sets the first timestamp.
     */
    method CountRead(n: nat, now: string)
      requires msmt.Valid() && 1 <= c <= msmt.numStreams
      modifies this`fTsExists, Info()
      ensures msmt.Valid() && fTsExists
      ensures msmt.Counters(msmt.numStreams) == old(msmt.Counters(msmt.numStreams))[c - 1 := old(Info().bytes) + n]
      ensures Info().bytes == old(Info().bytes) + n
      ensures Info().lastTs == now && Info().firstTs == if old(fTsExists) then old(Info().firstTs) else now
      ensures forall config: RunModel.Config, st: RunModel.Stream | st.bytes == old(Info().bytes) && st.held == n > 0 ::
                RunModel.OpEnabled(config, st, RunModel.AddBytes)
                && RunModel.OpApply(config, st, RunModel.AddBytes).bytes == Info().bytes
    {
      var msmtInfo := msmt.msmtInfoStorage[StreamName(c)];
      msmtInfo.bytes := msmtInfo.bytes + n;
      if !fTsExists {
        msmtInfo.firstTs := now;
        fTsExists := true;
      }
      msmtInfo.lastTs := now;
      forall d | 1 <= d <= msmt.numStreams && d != c ensures msmt.Info(d) != msmt.Info(c) {
        StreamNamesDiffer(d, c);
      }
    }

    /** The counting loop over the reads up to the end of the connection. */
    method CountReads(chunks: seq<(nat, string)>)
      requires msmt.Valid() && 1 <= c <= msmt.numStreams && !fTsExists
      modifies this`fTsExists, Info()
      ensures msmt.Valid()
      ensures msmt.Counters(msmt.numStreams)
              == old(msmt.Counters(msmt.numStreams))[c - 1 := old(Info().bytes) + Sum(Sizes(chunks))]
      ensures Info().firstTs == if chunks == [] then old(Info().firstTs) else chunks[0].1
      ensures Info().lastTs == if chunks == [] then old(Info().lastTs) else chunks[|chunks| - 1].1
    {
      ghost var before := msmt.Counters(msmt.numStreams);
      ghost var bytes, first, last := Info().bytes, Info().firstTs, Info().lastTs;
      assert before[c - 1 := bytes] == before;
      for k := 0 to |chunks|
        invariant msmt.Valid() && (fTsExists <==> k > 0)
        invariant Info().bytes == bytes + Sum(Sizes(chunks[..k]))
        invariant msmt.Counters(msmt.numStreams) == before[c - 1 := Info().bytes]
        invariant Info().firstTs == if k == 0 then first else chunks[0].1
        invariant Info().lastTs == if k == 0 then last else chunks[k - 1].1
      {
        CountRead(chunks[k].0, chunks[k].1);
        SizesMore(chunks, k);
      }
      assert chunks[..|chunks|] == chunks;
    }
  }
}
