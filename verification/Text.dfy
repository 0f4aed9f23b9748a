/** The operations of Go's `strings` package that the port list goes through. */
module Text {

  function Join(parts: seq<string>, sep: string): string {
    if parts == [] then ""
    else if |parts| == 1 then parts[0]
    else parts[0] + sep + Join(parts[1..], sep)
  }

  /** Length of the longest prefix of `s` without `c`. */
  function IndexOf(s: string, c: char): (k: nat)
    ensures k <= |s| && c !in s[..k] && (k < |s| ==> s[k] == c)
  {
    if s == [] || s[0] == c then 0
    else
      var k := 1 + IndexOf(s[1..], c);
      assert s[..k] == [s[0]] + s[1..][..k - 1];
      k
  }

  /** `strings.Split` for a one-character separator. */
  function Split(s: string, c: char): (parts: seq<string>)
    decreases |s|
  {
    var k := IndexOf(s, c);
    if k == |s| then [s] else [s[..k]] + Split(s[k + 1..], c)
  }

  /** `strings.Fields`: the maximal runs between blanks (only ' ' is a blank here). */
  function Fields(s: string): seq<string>
    decreases |s|
  {
    if s == [] then []
    else if s[0] == ' ' then Fields(s[1..])
    else
      var k := IndexOf(s, ' ');
      [s[..k]] + Fields(s[k..])
  }

  /** `strings.Trim`: drop characters of `cutset` from both ends. */
  function Trim(s: string, cutset: string): string {
    if s == [] then s
    else if s[0] in cutset then Trim(s[1..], cutset)
    else if s[|s| - 1] in cutset then Trim(s[..|s| - 1], cutset)
    else s
  }

  lemma {:induction false} IndexOfConcat(a: string, c: char, rest: string)
    requires c !in a
    ensures IndexOf(a + [c] + rest, c) == |a|
  {
    if a != [] {
      assert (a + [c] + rest)[1..] == a[1..] + [c] + rest;
      IndexOfConcat(a[1..], c, rest);
    }
  }

  lemma IndexOfAbsent(a: string, c: char)
    requires c !in a
    ensures IndexOf(a, c) == |a|
  {
  }

  /** The first separator ends the first part. */
  lemma SplitFirst(head: string, c: char, rest: string)
    requires c !in head
    ensures Split(head + [c] + rest, c) == [head] + Split(rest, c)
  {
    var s := head + [c] + rest;
    IndexOfConcat(head, c, rest);
    assert s[..|head|] == head && s[|head| + 1..] == rest;
  }

  /** Splitting undoes joining when no part contains the separator. */
  lemma {:induction false} SplitJoin(parts: seq<string>, c: char)
    requires parts != []
    requires forall i :: 0 <= i < |parts| ==> c !in parts[i]
    ensures Split(Join(parts, [c]), c) == parts
  {
    if |parts| == 1 {
      IndexOfAbsent(parts[0], c);
    } else {
      SplitFirst(parts[0], c, Join(parts[1..], [c]));
      SplitJoin(parts[1..], c);
    }
  }

  /** Fields of a blank-separated list are the list's parts. */
  lemma {:induction false} FieldsJoin(parts: seq<string>)
    requires forall i :: 0 <= i < |parts| ==> parts[i] != [] && ' ' !in parts[i]
    ensures Fields(Join(parts, " ")) == parts
  {
    if |parts| == 1 {
      IndexOfAbsent(parts[0], ' ');
      assert parts[0][..|parts[0]|] == parts[0];
      assert parts[0][|parts[0]|..] == [];
    } else if |parts| > 1 {
      var rest := Join(parts[1..], " ");
      IndexOfConcat(parts[0], ' ', rest);
      var s := Join(parts, " ");
      assert s == parts[0] + " " + rest;
      assert s[0] == parts[0][0] && parts[0][0] in parts[0];
      assert s[..|parts[0]|] == parts[0];
      assert s[|parts[0]|..] == " " + rest;
      assert (" " + rest)[1..] == rest;
      FieldsJoin(parts[1..]);
    }
  }

  /** Text put before the first and after the last part of a joined list. */
  lemma {:induction false} JoinWrapped(parts: seq<string>, sep: string, left: string, right: string)
    requires |parts| > 1
    ensures Join([left + parts[0]] + parts[1..|parts| - 1] + [parts[|parts| - 1] + right], sep)
            == left + Join(parts, sep) + right
  {
    var n := |parts| - 1;
    var wrapped := [left + parts[0]] + parts[1..n] + [parts[n] + right];
    if n == 1 {
      assert wrapped == [left + parts[0], parts[1] + right];
      assert wrapped[1..] == [parts[1] + right] && parts[1..] == [parts[1]];
    } else {
      var tail := parts[1..];
      JoinWrapped(tail, sep, "", right);
      assert "" + tail[0] == parts[1];
      assert tail[1..|tail| - 1] == parts[2..n] && parts[1..n] == [parts[1]] + parts[2..n];
      assert ["" + tail[0]] + tail[1..|tail| - 1] + [tail[|tail| - 1] + right] == wrapped[1..];
    }
  }

  lemma TrimWrapped(l: char, body: string, r: char, cutset: string)
    requires l in cutset && r in cutset
    requires body != [] && body[0] !in cutset && body[|body| - 1] !in cutset
    ensures Trim([l] + body + [r], cutset) == body
  {
    var s := [l] + body + [r];
    assert s[1..] == body + [r];
    assert Trim(s, cutset) == Trim(body + [r], cutset);
    assert (body + [r])[..|body|] == body;
    assert Trim(body + [r], cutset) == Trim(body, cutset);
  }
}
