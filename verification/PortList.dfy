/** The list of listening ports as it travels in a start reply (common-funcs.go). */
module PortList {
  import opened Wrappers
  import opened Decimal
  import Text

  function Printed(ports: seq<int>): seq<string> {
    seq(|ports|, i requires 0 <= i < |ports| => Itoa(ports[i]))
  }

  /** `fmt.Sprint` of a slice of integers. */
  function Sprint(ports: seq<int>): string {
    "[" + Text.Join(Printed(ports), " ") + "]"
  }

  function ConvIntSliceToStr(ports: seq<int>): string {
    Text.Trim(Text.Join(Text.Fields(Sprint(ports)), ","), "[]")
  }

  /** All of `parts` read as integers, or None if one of them is not an integer. */
  function AtoiAll(parts: seq<string>): Option<seq<int>> {
    if parts == [] then Some([])
    else
      var init := AtoiAll(parts[..|parts| - 1]);
      var last := Atoi(parts[|parts| - 1]);
      if init.None? || last.None? then None else Some(init.value + [last.value])
  }

  function PortsOf(text: string): Option<seq<int>> {
    AtoiAll(Text.Split(text, ','))
  }

  lemma {:induction false} AtoiAllPrefix(parts: seq<string>, k: nat)
    requires k <= |parts| && AtoiAll(parts[..k]).None?
    ensures AtoiAll(parts).None?
    decreases |parts| - k
  {
    if k < |parts| {
      assert parts[..k + 1][..k] == parts[..k];
      AtoiAllPrefix(parts, k + 1);
    } else {
      assert parts[..k] == parts;
    }
  }

  /** The parsing loop; None stands for the program giving up on the first bad part. */
  method ConvStrToIntSlice(text: string) returns (slice: Option<seq<int>>)
    ensures slice == PortsOf(text)
  {
    var strSlice := Text.Split(text, ',');
    var acc: seq<int> := [];
    for i := 0 to |strSlice|
      invariant AtoiAll(strSlice[..i]) == Some(acc)
    {
      var intVal := Atoi(strSlice[i]);
      assert strSlice[..i + 1][..i] == strSlice[..i];
      if intVal.None? {
        AtoiAllPrefix(strSlice, i + 1);
        return None;
      }
      acc := acc + [intVal.value];
    }
    assert strSlice[..|strSlice|] == strSlice;
    slice := Some(acc);
  }

  ghost predicate IsInt64(n: int) { -TWO_TO_63 <= n < TWO_TO_63 }

  ghost predicate Clean(s: string) {
    s != [] && forall i :: 0 <= i < |s| ==> IsDigit(s[i]) || s[i] == '-'
  }

  lemma {:induction false} AtoiAllPrinted(ports: seq<int>)
    requires forall i :: 0 <= i < |ports| ==> IsInt64(ports[i])
    ensures AtoiAll(Printed(ports)) == Some(ports)
  {
    if ports != [] {
      var n := |ports| - 1;
      assert Printed(ports)[..n] == Printed(ports[..n]);
      AtoiAllPrinted(ports[..n]);
      AtoiItoa(ports[n]);
      assert ports[..n] + [ports[n]] == ports;
    }
  }

  /** A joined list begins and ends like its first and last part. */
  lemma {:induction false} JoinEnds(parts: seq<string>, sep: string)
    requires parts != [] && forall i :: 0 <= i < |parts| ==> parts[i] != []
    ensures var s := Text.Join(parts, sep);
      s != [] && s[0] == parts[0][0] && s[|s| - 1] == parts[|parts| - 1][|parts[|parts| - 1]| - 1]
  {
    if |parts| > 1 {
      JoinEnds(parts[1..], sep);
    }
  }

  /** The parts with the brackets of the printed slice attached to the first and the last one. */
  function Wrapped(parts: seq<string>): seq<string>
    requires parts != []
  {
    if |parts| == 1 then ["[" + parts[0] + "]"]
    else ["[" + parts[0]] + parts[1..|parts| - 1] + [parts[|parts| - 1] + "]"]
  }

  lemma WrappedJoins(parts: seq<string>, sep: string)
    requires parts != []
    ensures Text.Join(Wrapped(parts), sep) == "[" + Text.Join(parts, sep) + "]"
  {
    if |parts| > 1 {
      Text.JoinWrapped(parts, sep, "[", "]");
    }
  }

  lemma WrappedHasNoBlank(parts: seq<string>)
    requires parts != [] && forall i :: 0 <= i < |parts| ==> Clean(parts[i])
    ensures forall i :: 0 <= i < |Wrapped(parts)| ==> Wrapped(parts)[i] != [] && ' ' !in Wrapped(parts)[i]
  {
  }

  lemma CommaJoined(ports: seq<int>)
    requires ports != []
    ensures ConvIntSliceToStr(ports) == Text.Join(Printed(ports), ",")
  {
    var parts := Printed(ports);
    WrappedJoins(parts, " ");
    WrappedJoins(parts, ",");
    WrappedHasNoBlank(parts);
    Text.FieldsJoin(Wrapped(parts));
    JoinEnds(parts, ",");
    Text.TrimWrapped('[', Text.Join(parts, ","), ']', "[]");
  }

  /** The client recovers the server's port list exactly when it is a non-empty list of ints. */
  lemma PortListRoundTrip(ports: seq<int>)
    requires forall i :: 0 <= i < |ports| ==> IsInt64(ports[i])
    ensures PortsOf(ConvIntSliceToStr(ports)) == if ports == [] then None else Some(ports)
  {
    if ports == [] {
      assert Sprint(ports) == "[]";
      assert Text.Fields("[]") == ["[]"] by {
        Text.FieldsJoin(["[]"]);
      }
      assert Text.Trim("[]", "[]") == Text.Trim("]", "[]") == "";
    } else {
      CommaJoined(ports);
      var parts := Printed(ports);
      Text.SplitJoin(parts, ',');
      AtoiAllPrinted(ports);
    }
  }
}
