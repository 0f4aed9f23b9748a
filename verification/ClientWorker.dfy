/** The sending worker (tcp-throughput/client.go and udp-throughput/client.go). */
module ClientWorker {
  import opened Sequences
  import opened RunModel

  /** The sizes of the writes of a worker whose every write is complete, turn by turn. */
  function Writes(share: nat, callSize: nat): seq<nat>
    requires callSize >= 1
  {
    if share == 0 then []
    else [Chunk(share, callSize)] + Writes(share - Chunk(share, callSize), callSize)
  }

  /** floor(share / callSize) whole buffers, then the rest if there is one. */
  function WholeThenRest(share: nat, callSize: nat): seq<nat>
    requires callSize >= 1
  {
    seq(share / callSize, _ => callSize) + (if share % callSize == 0 then [] else [share % callSize])
  }

  lemma LessOneBuffer(share: nat, callSize: nat)
    requires callSize >= 1 && share >= callSize
    ensures (share - callSize) / callSize == share / callSize - 1
    ensures (share - callSize) % callSize == share % callSize
  {
    var q, r := share / callSize, share % callSize;
    assert share == q * callSize + r;
    assert share - callSize == (q - 1) * callSize + r;
    DivUnique(share - callSize, callSize, q - 1, r);
  }

  lemma SmallMultiple(k: int, d: int)
    requires -d < k * d < d
    ensures k == 0
  {
    assert k >= 1 ==> (k - 1) * d >= 0;
    assert k <= -1 ==> (-1 - k) * d >= 0;
    assert (k - 1) * d == k * d - d && (-1 - k) * d == -d - k * d;
  }

  lemma DivUnique(n: int, d: nat, q: int, r: int)
    requires d >= 1 && n == q * d + r && 0 <= r < d
    ensures n / d == q && n % d == r
  {
    var q', r' := n / d, n % d;
    assert n == q' * d + r';
    assert (q - q') * d == q * d - q' * d;
    SmallMultiple(q - q', d);
  }

  lemma OneMoreBuffer(share: nat, callSize: nat)
    requires callSize >= 1 && share >= callSize
    ensures WholeThenRest(share, callSize) == [callSize] + WholeThenRest(share - callSize, callSize)
  {
    LessOneBuffer(share, callSize);
    var k := (share - callSize) / callSize;
    assert seq(k + 1, _ => callSize) == [callSize] + seq(k, _ => callSize);
  }

  /** The turns of the loop add up to whole buffers and one rest, in that order and nothing more. */
  lemma {:induction false} WritesAreWholeThenRest(share: nat, callSize: nat)
    requires callSize >= 1
    ensures Writes(share, callSize) == WholeThenRest(share, callSize)
    ensures Sum(Writes(share, callSize)) == share
  {
    if share >= callSize {
      OneMoreBuffer(share, callSize);
      WritesAreWholeThenRest(share - callSize, callSize);
      SumConcat([callSize], Writes(share - callSize, callSize));
    }
  }

  class Worker {
    const callSize: nat
    var streamBytes: nat
    var bufLength: nat

    /** Above one buffer the buffer still has its first length. */
    predicate Valid()
      reads this
    {
      callSize >= 1 && (streamBytes >= callSize ==> bufLength == callSize)
    }

    constructor (callSize: nat, streamBytes: nat)
      requires callSize >= 1
      ensures Valid() && this.callSize == callSize && this.streamBytes == streamBytes
    {
      this.callSize := callSize;
      this.streamBytes := streamBytes;
      this.bufLength := callSize;
    }

    /**
     * One default turn of the select: offers a buffer of the chunk size, of which the network accepts
     * `accepted` bytes. The unsigned remainder cannot underflow, and it follows the run model's write.
     */
    method Turn(accepted: nat) returns (offered: nat)
      requires Valid() && accepted <= Chunk(streamBytes, callSize)
      modifies this
      ensures Valid()
      ensures offered == Chunk(old(streamBytes), callSize)
      ensures streamBytes == old(streamBytes) - accepted
      ensures forall c: Config, st: Stream | c.callSize == callSize && st.client == Sending
                && st.remaining == old(streamBytes) > 0 ::
                OpEnabled(c, st, Write(accepted)) && OpApply(c, st, Write(accepted)).remaining == streamBytes
    {
      offered := 0;
      if streamBytes >= callSize {
        offered := bufLength;
        streamBytes := streamBytes - accepted;
      } else if streamBytes > 0 {
        bufLength := streamBytes;
        offered := bufLength;
        streamBytes := streamBytes - accepted;
      }
    }

    /** All turns with complete writes: exactly the whole buffers and the rest, then nothing more. */
    method SendComplete() returns (writes: seq<nat>)
      requires Valid()
      modifies this
      ensures Valid() && streamBytes == 0
      ensures writes == WholeThenRest(old(streamBytes), callSize)
    {
      writes := [];
      while streamBytes > 0
        invariant Valid()
        invariant writes + Writes(streamBytes, callSize) == Writes(old(streamBytes), callSize)
        decreases streamBytes
      {
        var n := Turn(Chunk(streamBytes, callSize));
        writes := writes + [n];
      }
      WritesAreWholeThenRest(old(streamBytes), callSize);
    }

    /** All turns with partial writes that each accept something: the emitted total is still the share. */
    method SendPartial() returns (accepted: seq<nat>)
      requires Valid()
      modifies this
      ensures Valid() && streamBytes == 0
      ensures Sum(accepted) == old(streamBytes) && |accepted| <= old(streamBytes)
      ensures forall j :: 0 <= j < |accepted| ==> 1 <= accepted[j] <= callSize
    {
      accepted := [];
      while streamBytes > 0
        invariant Valid()
        invariant Sum(accepted) + streamBytes == old(streamBytes)
        invariant |accepted| + streamBytes <= old(streamBytes)
        invariant forall j :: 0 <= j < |accepted| ==> 1 <= accepted[j] <= callSize
        decreases streamBytes
      {
        var n: nat :| 1 <= n <= Chunk(streamBytes, callSize);
        var _ := Turn(n);
        assert (accepted + [n])[..|accepted|] == accepted;
        accepted := accepted + [n];
      }
    }
  }
}
