/** Counter reports: what a server puts in a reply and what the client counts (ctrl-msg.go, mapago-client.go). */
module Telemetry {
  import opened Wrappers
  import opened Decimal
  import opened Sequences

  datatype DataResult = DataResult(timestampFirst: string, timestampLast: string, receivedBytes: string)

  function Texts(elements: seq<DataResult>): seq<string> {
    seq(|elements|, i requires 0 <= i < |elements| => elements[i].receivedBytes)
  }

  /** The `Received_bytes` texts a server prints for its stream counters. */
  function Received(counters: seq<nat>): seq<string> {
    seq(|counters|, i requires 0 <= i < |counters| => Itoa(ToInt64(counters[i])))
  }

  /** The 64-bit total of a report; None when a text is no unsigned number and the client gives up. */
  function Counted(texts: seq<string>): Option<nat> {
    if texts == [] then Some(0)
    else
      var init := Counted(texts[..|texts| - 1]);
      var last := ParseUint(texts[|texts| - 1]);
      if init.None? || last.None? then None else Some((init.value + last.value) % TWO_TO_64)
  }

  lemma {:induction false} CountedPrefix(texts: seq<string>, k: nat)
    requires k <= |texts| && Counted(texts[..k]).None?
    ensures Counted(texts).None?
    decreases |texts| - k
  {
    if k < |texts| {
      assert texts[..k + 1][..k] == texts[..k];
      CountedPrefix(texts, k + 1);
    } else {
      assert texts[..k] == texts;
    }
  }

  method CountCurrSrvBytes(elements: seq<DataResult>) returns (total: Option<nat>)
    ensures total == Counted(Texts(elements))
  {
    ghost var texts := Texts(elements);
    var currSrvByte: nat := 0;
    for i := 0 to |elements|
      invariant Counted(texts[..i]) == Some(currSrvByte)
    {
      var bytes := ParseUint(elements[i].receivedBytes);
      assert texts[..i + 1][..i] == texts[..i];
      if bytes.None? {
        CountedPrefix(texts, i + 1);
        return None;
      }
      currSrvByte := (currSrvByte + bytes.value) % TWO_TO_64;
    }
    assert texts[..|texts|] == texts;
    total := Some(currSrvByte);
  }

  lemma AddModulo(a: nat, b: nat)
    ensures (a % TWO_TO_64 + b) % TWO_TO_64 == (a + b) % TWO_TO_64
  {
    var q := a / TWO_TO_64;
    assert a + b == q * TWO_TO_64 + (a % TWO_TO_64 + b);
  }

  lemma CountedStep(texts: seq<string>, total: nat, bytes: nat)
    requires texts != [] && ParseUint(texts[|texts| - 1]) == Some(bytes)
    requires Counted(texts[..|texts| - 1]) == Some(total % TWO_TO_64)
    ensures Counted(texts) == Some((total + bytes) % TWO_TO_64)
  {
    AddModulo(total, bytes);
  }

  lemma {:induction false} CountedClean(counters: seq<nat>)
    requires forall j :: 0 <= j < |counters| ==> counters[j] < TWO_TO_63
    ensures Counted(Received(counters)) == Some(Sum(counters) % TWO_TO_64)
  {
    if counters != [] {
      var n := |counters| - 1;
      var texts := Received(counters);
      CountedClean(counters[..n]);
      assert texts[..n] == Received(counters[..n]);
      assert ParseUint(texts[n]) == Some(counters[n]) by {
        ParseUintCounter(counters[n]);
      }
      CountedStep(texts, Sum(counters[..n]), counters[n]);
    }
  }

  /** The client counts exactly the sum of the counters, or gives up exactly when one has its top bit set. */
  lemma CountedReceived(counters: seq<nat>)
    requires forall j :: 0 <= j < |counters| ==> counters[j] < TWO_TO_64
    ensures Counted(Received(counters)) ==
            if forall j :: 0 <= j < |counters| ==> counters[j] < TWO_TO_63
            then Some(Sum(counters) % TWO_TO_64) else None
  {
    if forall j :: 0 <= j < |counters| ==> counters[j] < TWO_TO_63 {
      CountedClean(counters);
    } else {
      var j :| 0 <= j < |counters| && counters[j] >= TWO_TO_63;
      CountedBad(Received(counters), j, counters[j]);
    }
  }

  lemma CountedBad(texts: seq<string>, j: nat, bytes: nat)
    requires j < |texts| && TWO_TO_63 <= bytes < TWO_TO_64 && texts[j] == Itoa(ToInt64(bytes))
    ensures Counted(texts).None?
  {
    ParseUintCounter(bytes);
    assert texts[..j + 1][j] == texts[j];
    CountedPrefix(texts, j + 1);
  }
}
