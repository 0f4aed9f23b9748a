/** The output line of a report and the JSON reading of it by the evaluation script. */
module Output {
  import opened Wrappers
  import opened Telemetry

  // ----- the printer (mapago-client.go)

  function MemberText(key: string, value: string): string {
    "\"" + key + "\" : \"" + value + "\""
  }

  /** One element as it is written into the line. */
  function ElementText(e: DataResult): string {
    "{ " + MemberText("ts-start", e.timestampFirst)
    + ", " + MemberText("ts-end", e.timestampLast)
    + ", " + MemberText("bytes", e.receivedBytes) + "}"
  }

  function ElementsText(elements: seq<DataResult>): string {
    if elements == [] then ""
    else if |elements| == 1 then ElementText(elements[0])
    else ElementText(elements[0]) + ", " + ElementsText(elements[1..])
  }

  function Line(elements: seq<DataResult>): string {
    "[ " + ElementsText(elements) + " ]"
  }

  /** The text after the first `i` elements: the separator follows all but the last. */
  lemma {:induction false} ElementsTextFrom(elements: seq<DataResult>, i: nat)
    requires i < |elements|
    ensures ElementsText(elements[i..]) ==
            ElementText(elements[i]) + (if i == |elements| - 1 then "" else ", ") + ElementsText(elements[i + 1..])
  {
    assert elements[i..][1..] == elements[i + 1..];
    if i == |elements| - 1 {
      assert elements[i..] == [elements[i]];
      assert elements[i + 1..] == [];
    }
  }

  method WriteElement(written: string, e: DataResult) returns (evaluationStr: string)
    ensures evaluationStr == written + ElementText(e)
  {
    evaluationStr := "{ \"ts-start\" : \"" + e.timestampFirst + "\", ";
    assert evaluationStr == "{ " + MemberText("ts-start", e.timestampFirst) + ", ";
    ghost var one := evaluationStr;
    evaluationStr := evaluationStr + "\"ts-end\" : \"" + e.timestampLast + "\", ";
    assert evaluationStr == one + MemberText("ts-end", e.timestampLast) + ", ";
    ghost var two := evaluationStr;
    evaluationStr := evaluationStr + "\"bytes\" : \"" + e.receivedBytes + "\"}";
    assert evaluationStr == two + MemberText("bytes", e.receivedBytes) + "}";
    evaluationStr := written + evaluationStr;
  }

  method PrepareOutput(elements: seq<DataResult>) returns (evaluationStr: string)
    ensures evaluationStr == Line(elements)
  {
    evaluationStr := "[ ";
    for index := 0 to |elements|
      invariant evaluationStr + ElementsText(elements[index..]) == "[ " + ElementsText(elements)
    {
      ghost var before, text := evaluationStr, ElementText(elements[index]);
      ElementsTextFrom(elements, index);
      evaluationStr := WriteElement(evaluationStr, elements[index]);
      if index != |elements| - 1 {
        evaluationStr := evaluationStr + ", ";
        AppendAssociates(before, text, ", ", ElementsText(elements[index + 1..]));
      }
    }
    assert elements[|elements|..] == [];
    evaluationStr := evaluationStr + " ]";
  }

  lemma AppendAssociates(a: string, b: string, c: string, d: string)
    ensures a + b + c + d == a + (b + c + d)
  {
  }

  // ----- the reader: JSON arrays, objects and strings without escapes (RFC 8259)

  datatype Json = Str(text: string) | Arr(items: seq<Json>) | Obj(members: seq<(string, Json)>)

  datatype Parsed<+T> = Fail | Ok(value: T, rest: string)

  predicate IsBlank(c: char) { c == ' ' || c == '\t' || c == '\n' || c == '\r' }

  function Skip(s: string): (r: string)
    ensures |r| <= |s|
  {
    if s != [] && IsBlank(s[0]) then Skip(s[1..]) else s
  }

  /** A string body up to its closing quote. */
  function StringBody(s: string): (p: Parsed<string>)
    ensures p.Ok? ==> |p.rest| < |s|
  {
    if s == [] || s[0] == '\\' || s[0] < ' ' then Fail
    else if s[0] == '"' then Ok("", s[1..])
    else
      var p := StringBody(s[1..]);
      if p.Fail? then Fail else Ok([s[0]] + p.value, p.rest)
  }

  function Value(input: string): (p: Parsed<Json>)
    ensures p.Ok? ==> |p.rest| < |input|
    decreases |input|, 0
  {
    var s := Skip(input);
    if s == [] then Fail
    else if s[0] == '"' then
      var p := StringBody(s[1..]);
      if p.Fail? then Fail else Ok(Str(p.value), p.rest)
    else if s[0] == '[' then
      var t := Skip(s[1..]);
      if t != [] && t[0] == ']' then Ok(Arr([]), t[1..])
      else
        var p := Items(t);
        if p.Fail? then Fail else Ok(Arr(p.value), p.rest)
    else if s[0] == '{' then
      var t := Skip(s[1..]);
      if t != [] && t[0] == '}' then Ok(Obj([]), t[1..])
      else
        var p := Members(t);
        if p.Fail? then Fail else Ok(Obj(p.value), p.rest)
    else Fail
  }

  function Items(input: string): (p: Parsed<seq<Json>>)
    ensures p.Ok? ==> |p.rest| < |input|
    decreases |input|, 1
  {
    var v := Value(input);
    if v.Fail? then Fail
    else
      var s := Skip(v.rest);
      if s == [] then Fail
      else if s[0] == ']' then Ok([v.value], s[1..])
      else if s[0] == ',' then
        var p := Items(s[1..]);
        if p.Fail? then Fail else Ok([v.value] + p.value, p.rest)
      else Fail
  }

  function Members(input: string): (p: Parsed<seq<(string, Json)>>)
    ensures p.Ok? ==> |p.rest| < |input|
    decreases |input|, 1
  {
    var s := Skip(input);
    if s == [] || s[0] != '"' then Fail
    else
      var k := StringBody(s[1..]);
      if k.Fail? then Fail else MembersAfterKey(k.value, k.rest)
  }

  function MembersAfterKey(key: string, input: string): (p: Parsed<seq<(string, Json)>>)
    ensures p.Ok? ==> |p.rest| < |input|
    decreases |input|, 1
  {
    var s := Skip(input);
    if s == [] || s[0] != ':' then Fail
    else
      var v := Value(s[1..]);
      if v.Fail? then Fail else MembersAfterValue((key, v.value), v.rest)
  }

  function MembersAfterValue(member: (string, Json), input: string): (p: Parsed<seq<(string, Json)>>)
    ensures p.Ok? ==> |p.rest| < |input|
    decreases |input|, 1
  {
    var s := Skip(input);
    if s == [] then Fail
    else if s[0] == '}' then Ok([member], s[1..])
    else if s[0] == ',' then
      var p := Members(s[1..]);
      if p.Fail? then Fail else Ok([member] + p.value, p.rest)
    else Fail
  }

  /** `json.loads` of a whole line. */
  function Loads(line: string): Option<Json> {
    var p := Value(line);
    if p.Ok? && Skip(p.rest) == [] then Some(p.value) else None
  }

  // ----- what the script takes from an entry (evaluation.py)

  /** The value a Python dict keeps for `key`: the last one given. */
  function Lookup(members: seq<(string, Json)>, key: string): Option<Json> {
    if members == [] then None
    else if members[|members| - 1].0 == key then Some(members[|members| - 1].1)
    else Lookup(members[..|members| - 1], key)
  }

  /** `ts-start`, `ts-end` and `bytes` of one stream. */
  function StreamOf(j: Json): Option<DataResult> {
    if !j.Obj? then None
    else
      var start := Lookup(j.members, "ts-start");
      var end := Lookup(j.members, "ts-end");
      var bytes := Lookup(j.members, "bytes");
      if start.Some? && end.Some? && bytes.Some? && start.value.Str? && end.value.Str? && bytes.value.Str?
      then Some(DataResult(start.value.text, end.value.text, bytes.value.text))
      else None
  }

  function StreamsOf(items: seq<Json>): Option<seq<DataResult>> {
    if items == [] then Some([])
    else
      var head := StreamOf(items[0]);
      var tail := StreamsOf(items[1..]);
      if head.None? || tail.None? then None else Some([head.value] + tail.value)
  }

  function EntryOf(line: string): Option<seq<DataResult>> {
    match Loads(line)
    case Some(Arr(items)) => StreamsOf(items)
    case _ => None
  }

  // ----- the reader undoes the printer

  /** No quote, backslash or control character. */
  ghost predicate Plain(s: string) {
    forall i :: 0 <= i < |s| ==> s[i] != '"' && s[i] != '\\' && s[i] >= ' '
  }

  ghost predicate PlainElement(e: DataResult) {
    Plain(e.timestampFirst) && Plain(e.timestampLast) && Plain(e.receivedBytes)
  }

  lemma {:induction false} StringBodyPlain(v: string, rest: string)
    requires Plain(v)
    ensures StringBody(v + "\"" + rest) == Ok(v, rest)
  {
    var s := v + "\"" + rest;
    if v == [] {
      assert s[1..] == rest;
    } else {
      assert s[1..] == v[1..] + "\"" + rest;
      StringBodyPlain(v[1..], rest);
      assert [v[0]] + v[1..] == v;
    }
  }

  function Member(key: string, value: string, rest: string): string {
    "\"" + (key + "\"" + (" : " + ("\"" + (value + "\"" + rest))))
  }

  /** A printed member is read back up to the text behind it. */
  lemma MemberRead(key: string, value: string, rest: string)
    requires Plain(key) && Plain(value)
    ensures Members(Member(key, value, rest)) == MembersAfterValue((key, Str(value)), rest)
  {
    var quoted := "\"" + (value + "\"" + rest);
    var afterKey := " : " + quoted;
    var body := key + "\"" + afterKey;
    assert ("\"" + body)[1..] == body;
    StringBodyPlain(key, afterKey);
    assert Members("\"" + body) == MembersAfterKey(key, afterKey);
    ColonRead(key, value, rest);
  }

  lemma ColonRead(key: string, value: string, rest: string)
    requires Plain(value)
    ensures MembersAfterKey(key, " : " + ("\"" + (value + "\"" + rest)))
            == MembersAfterValue((key, Str(value)), rest)
  {
    var quoted := "\"" + (value + "\"" + rest);
    assert (" : " + quoted)[1..] == ": " + quoted;
    assert (": " + quoted)[1..] == " " + quoted;
    assert Skip(" : " + quoted) == ": " + quoted;
    BlankSkipped(quoted);
    assert quoted[1..] == value + "\"" + rest;
    StringBodyPlain(value, rest);
    assert Value(quoted) == Ok(Str(value), rest);
  }

  function Read(e: DataResult): Json {
    Obj([("ts-start", Str(e.timestampFirst)), ("ts-end", Str(e.timestampLast)), ("bytes", Str(e.receivedBytes))])
  }

  lemma BlankSkipped(s: string)
    ensures Skip(" " + s) == Skip(s)
    ensures Value(" " + s) == Value(s) && Members(" " + s) == Members(s)
  {
    assert (" " + s)[1..] == s;
    assert Value(" " + s).Ok? == Value(s).Ok?;
  }

  /** The members of a printed element, each with the text that follows it. */
  function MembersText(e: DataResult, rest: string): string {
    Member("ts-start", e.timestampFirst, "," + (" " +
    Member("ts-end", e.timestampLast, "," + (" " +
    Member("bytes", e.receivedBytes, "}" + rest)))))
  }

  lemma MemberShape(key: string, value: string, rest: string)
    ensures Member(key, value, rest) == MemberText(key, value) + rest
  {
  }

  lemma Reassociated(m1: string, m2: string, m3: string, rest: string)
    ensures "{ " + m1 + ", " + m2 + ", " + m3 + "}" + rest
            == "{" + (" " + (m1 + ("," + (" " + (m2 + ("," + (" " + (m3 + ("}" + rest)))))))))
  {
    var tail := "}" + rest;
    var third := m3 + tail;
    var second := m2 + ("," + (" " + third));
    assert m2 + ", " + m3 + "}" + rest == second;
    assert "{ " + m1 + ", " + (m2 + ", " + m3 + "}" + rest) == "{" + (" " + (m1 + ("," + (" " + second))));
    assert "{ " + m1 + ", " + m2 + ", " + m3 + "}" + rest == "{ " + m1 + ", " + (m2 + ", " + m3 + "}" + rest);
  }

  lemma ElementShape(e: DataResult, rest: string)
    ensures ElementText(e) + rest == "{" + (" " + MembersText(e, rest))
  {
    var third := Member("bytes", e.receivedBytes, "}" + rest);
    var second := Member("ts-end", e.timestampLast, "," + (" " + third));
    MemberShape("bytes", e.receivedBytes, "}" + rest);
    MemberShape("ts-end", e.timestampLast, "," + (" " + third));
    MemberShape("ts-start", e.timestampFirst, "," + (" " + second));
    Reassociated(MemberText("ts-start", e.timestampFirst), MemberText("ts-end", e.timestampLast),
                 MemberText("bytes", e.receivedBytes), rest);
  }

  lemma MemberThen(key: string, value: string, more: string, members: seq<(string, Json)>, rest: string)
    requires Plain(key) && Plain(value) && Members(more) == Ok(members, rest)
    ensures Members(Member(key, value, "," + (" " + more))) == Ok([(key, Str(value))] + members, rest)
  {
    MemberRead(key, value, "," + (" " + more));
    BlankSkipped(more);
    assert ("," + (" " + more))[1..] == " " + more;
  }

  lemma MemberLast(key: string, value: string, rest: string)
    requires Plain(key) && Plain(value)
    ensures Members(Member(key, value, "}" + rest)) == Ok([(key, Str(value))], rest)
  {
    MemberRead(key, value, "}" + rest);
    assert ("}" + rest)[1..] == rest;
  }

  lemma MembersRead(e: DataResult, rest: string)
    requires PlainElement(e)
    ensures Members(MembersText(e, rest)) == Ok(Read(e).members, rest)
  {
    var third := Member("bytes", e.receivedBytes, "}" + rest);
    var second := Member("ts-end", e.timestampLast, "," + (" " + third));
    var m3 := [("bytes", Str(e.receivedBytes))];
    var m2 := [("ts-end", Str(e.timestampLast))] + m3;
    MemberLast("bytes", e.receivedBytes, rest);
    MemberThen("ts-end", e.timestampLast, third, m3, rest);
    MemberThen("ts-start", e.timestampFirst, second, m2, rest);
    assert [("ts-start", Str(e.timestampFirst))] + m2 == Read(e).members;
  }

  lemma ElementRead(e: DataResult, rest: string)
    requires PlainElement(e)
    ensures Value(ElementText(e) + rest) == Ok(Read(e), rest)
  {
    var members := MembersText(e, rest);
    ElementShape(e, rest);
    MembersRead(e, rest);
    assert members[0] == '"';
    BlankSkipped(members);
    assert Skip(members) == members;
    assert ("{" + (" " + members))[1..] == " " + members;
  }

  function Reads(elements: seq<DataResult>): seq<Json> {
    seq(|elements|, i requires 0 <= i < |elements| => Read(elements[i]))
  }

  lemma ItemsLast(text: string, head: Json)
    requires Value(text + " ]") == Ok(head, " ]")
    ensures Items(text + " ]") == Ok([head], "")
  {
    assert " ]"[1..] == "]";
    assert Skip("]") == "]";
  }

  lemma ItemsMore(text: string, head: Json, more: string, items: seq<Json>)
    requires Value(text + (", " + more)) == Ok(head, ", " + more)
    requires Items(more) == Ok(items, "")
    ensures Items(text + (", " + more)) == Ok([head] + items, "")
  {
    assert (", " + more)[1..] == " " + more;
    BlankSkipped(more);
    assert Items(" " + more) == Items(more);
  }

  lemma {:induction false} ElementsRead(elements: seq<DataResult>)
    requires elements != []
    requires forall i :: 0 <= i < |elements| ==> PlainElement(elements[i])
    ensures Items(ElementsText(elements) + " ]") == Ok(Reads(elements), "")
  {
    if |elements| == 1 {
      ElementRead(elements[0], " ]");
      ItemsLast(ElementText(elements[0]), Read(elements[0]));
      assert Reads(elements) == [Read(elements[0])];
    } else {
      var more := ElementsText(elements[1..]) + " ]";
      ElementsRead(elements[1..]);
      ElementRead(elements[0], ", " + more);
      ItemsMore(ElementText(elements[0]), Read(elements[0]), more, Reads(elements[1..]));
      TailAssociates(ElementText(elements[0]), ElementsText(elements[1..]));
      assert Reads(elements) == [Read(elements[0])] + Reads(elements[1..]);
    }
  }

  lemma TailAssociates(head: string, tail: string)
    ensures head + ", " + tail + " ]" == head + (", " + (tail + " ]"))
  {
  }

  lemma {:induction false} StreamsOfReads(elements: seq<DataResult>)
    ensures StreamsOf(Reads(elements)) == Some(elements)
  {
    if elements != [] {
      assert Reads(elements)[1..] == Reads(elements[1..]);
      StreamsOfReads(elements[1..]);
      StreamOfRead(elements[0]);
      assert [elements[0]] + elements[1..] == elements;
    }
  }

  lemma StreamOfRead(e: DataResult)
    ensures StreamOf(Read(e)) == Some(e)
  {
    var m := Read(e).members;
    assert m[..2] == [("ts-start", Str(e.timestampFirst)), ("ts-end", Str(e.timestampLast))];
    assert m[..2][..1] == [("ts-start", Str(e.timestampFirst))];
    assert Lookup(m, "bytes") == Some(Str(e.receivedBytes));
    assert Lookup(m, "ts-end") == Lookup(m[..2], "ts-end");
    assert Lookup(m, "ts-start") == Lookup(m[..2], "ts-start") == Lookup(m[..2][..1], "ts-start");
  }

  lemma ElementsHead(elements: seq<DataResult>)
    requires elements != []
    ensures ElementsText(elements) != [] && ElementsText(elements)[0] == '{'
  {
    assert ElementText(elements[0])[0] == '{';
  }

  lemma ArrayRead(body: string, items: seq<Json>)
    requires body != [] && body[0] == '{' && Items(body + " ]") == Ok(items, "")
    ensures Loads("[ " + body + " ]") == Some(Arr(items))
  {
    var rest := body + " ]";
    var line := "[ " + body + " ]";
    assert line[1..] == " " + rest;
    BlankSkipped(rest);
    assert Skip(rest) == rest;
    assert Value(line) == Ok(Arr(items), "");
  }

  lemma EmptyLineRead()
    ensures Loads("[  ]") == Some(Arr([]))
  {
    assert "[  ]"[1..] == "  ]" && "  ]"[1..] == " ]" && " ]"[1..] == "]" && "]"[1..] == "";
    assert Skip("  ]") == Skip(" ]") == Skip("]") == "]";
    assert Value("[  ]") == Ok(Arr([]), "");
  }

  /** The script reads from a printed line exactly the elements that were printed, for any number of them. */
  lemma OutputParsesBack(elements: seq<DataResult>)
    requires forall i :: 0 <= i < |elements| ==> PlainElement(elements[i])
    ensures EntryOf(Line(elements)) == Some(elements)
  {
    if elements == [] {
      assert Line(elements) == "[  ]";
      EmptyLineRead();
    } else {
      ElementsHead(elements);
      ElementsRead(elements);
      ArrayRead(ElementsText(elements), Reads(elements));
    }
    StreamsOfReads(elements);
    assert elements == [] ==> Reads(elements) == [];
  }
}
