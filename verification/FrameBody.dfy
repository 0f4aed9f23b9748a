/** What is on the wire, said without the decoder, and what the decoder takes from any body. */
module FrameBody {
  import opened Wrappers
  import opened Frame

  // ----- the body of an encoded record

  predicate NoKeyTwice(fields: seq<(Key, Json)>) {
    forall a, b :: 0 <= a < b < |fields| ==> fields[a].0 != fields[b].0
  }

  /**
   * An object that carries these texts: each non-empty text under its key, nothing under the key of an empty
   * one, beside them exactly the nested keys, and no key twice.
   */
  ghost predicate Carries(keys: seq<Key>, texts: seq<string>, nested: set<Key>, j: Json)
    requires |keys| == |texts|
  {
    && j.Object? && NoKeyTwice(j.fields)
    && (forall i :: 0 <= i < |keys| ==>
          Under(j.fields, keys[i]) == if texts[i] == "" then None else Some(Text(texts[i])))
    && (forall k :: k in nested ==> Under(j.fields, k).Some?)
    && (forall f :: f in j.fields ==> f.0 in nested || f.0 in keys)
  }

  lemma {:induction false} UnderNone(fields: seq<(Key, Json)>, k: Key)
    requires forall f :: f in fields ==> f.0 != k
    ensures Under(fields, k).None?
  {
    if fields != [] {
      UnderNone(fields[..|fields| - 1], k);
    }
  }

  lemma {:induction false} UnderOnly(fields: seq<(Key, Json)>, a: nat)
    requires a < |fields| && NoKeyTwice(fields)
    ensures Under(fields, fields[a].0) == Some(fields[a].1)
  {
    if a < |fields| - 1 {
      UnderOnly(fields[..|fields| - 1], a);
    }
  }

  /** Every field is the text of one of the keys. */
  lemma {:induction false} OnlyTexts(keys: seq<Key>, texts: seq<string>)
    requires |keys| == |texts|
    ensures forall f :: f in TextFields(keys, texts) ==>
              exists i :: 0 <= i < |keys| && f == (keys[i], Text(texts[i])) && texts[i] != ""
  {
    if keys != [] {
      OnlyTexts(keys[1..], texts[1..]);
      forall f | f in TextFields(keys[1..], texts[1..])
        ensures exists i :: 0 <= i < |keys| && f == (keys[i], Text(texts[i])) && texts[i] != ""
      {
        var i :| 0 <= i < |keys| - 1 && f == (keys[1..][i], Text(texts[1..][i])) && texts[1..][i] != "";
        assert f == (keys[i + 1], Text(texts[i + 1])) && texts[i + 1] != "";
      }
    }
  }

  /** The fields are those of the non-empty texts, each once. */
  lemma {:induction false} FieldsWritten(keys: seq<Key>, texts: seq<string>)
    requires |keys| == |texts| && Distinct(keys)
    ensures NoKeyTwice(TextFields(keys, texts))
    ensures forall i :: 0 <= i < |keys| && texts[i] != "" ==> (keys[i], Text(texts[i])) in TextFields(keys, texts)
  {
    if keys != [] {
      var rest := TextFields(keys[1..], texts[1..]);
      FieldsWritten(keys[1..], texts[1..]);
      OnlyTexts(keys[1..], texts[1..]);
      forall f | f in rest ensures f.0 != keys[0] {
        var i :| 0 <= i < |keys| - 1 && f == (keys[1..][i], Text(texts[1..][i])) && texts[1..][i] != "";
        assert keys[0] != keys[i + 1];
      }
      forall i | 0 < i < |keys| && texts[i] != "" ensures (keys[i], Text(texts[i])) in rest {
        assert keys[1..][i - 1] == keys[i] && texts[1..][i - 1] == texts[i];
      }
    }
  }

  lemma TextUnder(keys: seq<Key>, texts: seq<string>, fields: seq<(Key, Json)>, i: nat)
    requires |keys| == |texts| && Distinct(keys) && NoKeyTwice(fields) && i < |keys|
    requires texts[i] != "" ==> (keys[i], Text(texts[i])) in fields
    requires texts[i] == "" ==> forall f :: f in fields ==> f.0 != keys[i]
    ensures Under(fields, keys[i]) == if texts[i] == "" then None else Some(Text(texts[i]))
  {
    if texts[i] == "" {
      UnderNone(fields, keys[i]);
    } else {
      var a :| 0 <= a < |fields| && fields[a] == (keys[i], Text(texts[i]));
      UnderOnly(fields, a);
    }
  }

  lemma SectionNoKeyTwice(texts: seq<(Key, Json)>, tail: seq<(Key, Json)>)
    requires NoKeyTwice(texts) && NoKeyTwice(tail)
    requires forall f, g :: f in texts && g in tail ==> f.0 != g.0
    ensures NoKeyTwice(texts + tail)
  {
    var fields := texts + tail;
    forall a, b | 0 <= a < b < |fields| ensures fields[a].0 != fields[b].0 {
      if a < |texts| <= b {
        assert fields[a] in texts && fields[b] in tail;
      }
    }
  }

  function KeysOf(fields: seq<(Key, Json)>): set<Key> { set f | f in fields :: f.0 }

  lemma NestedFound(written: seq<(Key, Json)>, tail: seq<(Key, Json)>, b: nat)
    requires NoKeyTwice(written + tail) && b < |tail|
    ensures Under(written + tail, tail[b].0) == Some(tail[b].1)
  {
    assert (written + tail)[|written| + b] == tail[b];
    UnderOnly(written + tail, |written| + b);
  }

  lemma TextsFound(keys: seq<Key>, texts: seq<string>, tail: seq<(Key, Json)>, fields: seq<(Key, Json)>)
    requires |keys| == |texts| && Distinct(keys) && fields == TextFields(keys, texts) + tail && NoKeyTwice(fields)
    requires forall g :: g in tail ==> g.0 !in keys
    ensures forall i :: 0 <= i < |keys| ==>
              Under(fields, keys[i]) == if texts[i] == "" then None else Some(Text(texts[i]))
  {
    FieldsWritten(keys, texts);
    OnlyTexts(keys, texts);
    forall i | 0 <= i < |keys|
      ensures Under(fields, keys[i]) == if texts[i] == "" then None else Some(Text(texts[i]))
    {
      if texts[i] == "" {
        forall f | f in fields ensures f.0 != keys[i] {
          if f in TextFields(keys, texts) {
            var j :| 0 <= j < |keys| && f == (keys[j], Text(texts[j])) && texts[j] != "";
          }
        }
      }
      TextUnder(keys, texts, fields, i);
    }
  }

  lemma KnownKeys(keys: seq<Key>, texts: seq<string>, tail: seq<(Key, Json)>)
    requires |keys| == |texts| && Distinct(keys)
    ensures forall f :: f in TextFields(keys, texts) + tail ==> f.0 in KeysOf(tail) || f.0 in keys
    ensures forall f :: f in TextFields(keys, texts) ==> f.0 in keys
  {
    FieldKeys(keys, texts);
  }

  lemma SectionCarries(keys: seq<Key>, texts: seq<string>, tail: seq<(Key, Json)>)
    requires |keys| == |texts| && Distinct(keys) && NoKeyTwice(tail)
    requires forall g :: g in tail ==> g.0 !in keys
    ensures Carries(keys, texts, KeysOf(tail), Object(TextFields(keys, texts) + tail))
    ensures forall b :: 0 <= b < |tail| ==> Under(TextFields(keys, texts) + tail, tail[b].0) == Some(tail[b].1)
  {
    var written := TextFields(keys, texts);
    FieldsWritten(keys, texts);
    KnownKeys(keys, texts, tail);
    SectionNoKeyTwice(written, tail);
    TextsFound(keys, texts, tail, written + tail);
    forall b | 0 <= b < |tail| ensures Under(written + tail, tail[b].0) == Some(tail[b].1) {
      NestedFound(written, tail, b);
    }
    forall k | k in KeysOf(tail) ensures Under(written + tail, k).Some? {
      var b :| 0 <= b < |tail| && tail[b].0 == k;
    }
  }

  /** A struct without nested values. */
  lemma FlatCarries(keys: seq<Key>, texts: seq<string>)
    requires |keys| == |texts| && Distinct(keys)
    ensures Carries(keys, texts, {}, Object(TextFields(keys, texts)))
  {
    SectionCarries(keys, texts, []);
    assert TextFields(keys, texts) + [] == TextFields(keys, texts);
  }

  /** The measurement of a record: its texts, and always the configuration with its own texts. */
  ghost predicate CarriesMeasurement(sc: Schema, r: Record, m: Json)
    requires Shaped(sc, r)
  {
    && Carries(sc.measurement, r.measurement, {Configuration}, m)
    && Carries(sc.configuration, r.configuration, {}, Under(m.fields, Configuration).value)
  }

  lemma MeasurementCarries(sc: Schema, r: Record)
    requires Proper(sc) && Shaped(sc, r)
    ensures CarriesMeasurement(sc, r, MeasurementJson(sc, r))
  {
    var inner := Object(TextFields(sc.configuration, r.configuration));
    var tail := [(Configuration, inner)];
    SectionCarries(sc.measurement, r.measurement, tail);
    assert KeysOf(tail) == {Configuration};
    FlatCarries(sc.configuration, r.configuration);
    assert tail[0].0 == Configuration;
  }

  /** The elements of a record: null for none, otherwise one object each, in order. */
  ghost predicate CarriesElements(sc: Schema, r: Record, j: Json)
    requires Shaped(sc, r)
  {
    if r.elements.None? then j == Null
    else
      && j.Array? && |j.items| == |r.elements.value|
      && forall e :: 0 <= e < |j.items| ==>
           r.elements.value[e] in r.elements.value && Carries(sc.result, r.elements.value[e], {}, j.items[e])
  }

  /** The data of a record: an object with the elements and nothing else. */
  ghost predicate CarriesData(sc: Schema, r: Record, d: Json)
    requires Shaped(sc, r)
  {
    d.Object? && |d.fields| == 1 && d.fields[0].0 == DataElements && CarriesElements(sc, r, d.fields[0].1)
  }

  lemma DataCarries(sc: Schema, r: Record)
    requires Proper(sc) && Shaped(sc, r)
    ensures CarriesData(sc, r, DataJson(sc, r))
  {
    if r.elements.Some? {
      forall e | 0 <= e < |r.elements.value|
        ensures r.elements.value[e] in r.elements.value
        ensures Carries(sc.result, r.elements.value[e], {}, ElementJsons(sc.result, r.elements.value)[e])
      {
        FlatCarries(sc.result, r.elements.value[e]);
      }
    }
  }

  lemma BodyShape(sc: Schema, r: Record)
    requires Shaped(sc, r)
    ensures Encoded(sc, r).body ==
            Object(TextFields(sc.top, r.texts) + [(Measurement, MeasurementJson(sc, r)), (Data, DataJson(sc, r))])
  {
    var r0 := r.(typ := 0);
    assert MeasurementJson(sc, r0) == MeasurementJson(sc, r) && DataJson(sc, r0) == DataJson(sc, r);
    assert [] + TextFields(sc.top, r.texts) == TextFields(sc.top, r.texts);
  }

  lemma TailKeys(m: Json, d: Json)
    ensures KeysOf([(Measurement, m), (Data, d)]) == {Measurement, Data}
  {
    var tail := [(Measurement, m), (Data, d)];
    assert tail[0] in tail && tail[1] in tail;
  }

  lemma NotUnder(keys: seq<Key>, texts: seq<string>, nested: set<Key>, j: Json, k: Key)
    requires |keys| == |texts| && Carries(keys, texts, nested, j) && k !in keys && k !in nested
    ensures Under(j.fields, k).None?
  {
    UnderNone(j.fields, k);
  }

  lemma BodyCarries(sc: Schema, r: Record, m: Json, d: Json, fields: seq<(Key, Json)>)
    requires Proper(sc) && Shaped(sc, r) && fields == TextFields(sc.top, r.texts) + [(Measurement, m), (Data, d)]
    ensures Carries(sc.top, r.texts, {Measurement, Data}, Object(fields))
    ensures Under(fields, Measurement) == Some(m) && Under(fields, Data) == Some(d) && Under(fields, Type).None?
  {
    var tail := [(Measurement, m), (Data, d)];
    SectionCarries(sc.top, r.texts, tail);
    TailKeys(m, d);
    assert tail[0].0 == Measurement && tail[1].0 == Data;
    NotUnder(sc.top, r.texts, {Measurement, Data}, Object(fields), Type);
  }

  /** The two bytes before the body are the type's low 16 bits, high byte first. */
  lemma PrefixIsType(sc: Schema, r: Record)
    requires Shaped(sc, r)
    ensures var w := Encoded(sc, r); w.high < 256 && w.low < 256 && 256 * w.high + w.low == r.typ % 65536
  {
  }

  /**
   * The wire: the body carries the record's texts and nothing for an empty one, never the type, and always
   * the measurement with its configuration and the data, which carry theirs in the same way.
   */
  lemma WireCarries(sc: Schema, r: Record) returns (fields: seq<(Key, Json)>)
    requires Proper(sc) && Shaped(sc, r)
    ensures Encoded(sc, r).body == Object(fields)
    ensures Carries(sc.top, r.texts, {Measurement, Data}, Object(fields)) && Under(fields, Type).None?
    ensures var m := Under(fields, Measurement); m.Some? && CarriesMeasurement(sc, r, m.value)
    ensures var d := Under(fields, Data); d.Some? && CarriesData(sc, r, d.value)
  {
    BodyShape(sc, r);
    var m, d := MeasurementJson(sc, r), DataJson(sc, r);
    fields := TextFields(sc.top, r.texts) + [(Measurement, m), (Data, d)];
    BodyCarries(sc, r, m, d, fields);
    MeasurementCarries(sc, r);
    DataCarries(sc, r);
  }

  // ----- what the decoder takes from any body

  /** The last text under the key; null does not count. */
  function LastText(fields: seq<(Key, Json)>, k: Key, otherwise: string): string {
    if fields == [] then otherwise
    else
      var f := fields[|fields| - 1];
      if f.0 == k && f.1.Text? then f.1.s else LastText(fields[..|fields| - 1], k, otherwise)
  }

  predicate IsType(j: Json) { j.Number? && 0 <= j.n < 0x1_0000_0000_0000_0000 }

  function LastNumber(fields: seq<(Key, Json)>, k: Key, otherwise: nat): nat {
    if fields == [] then otherwise
    else
      var f := fields[|fields| - 1];
      if f.0 == k && IsType(f.1) then f.1.n else LastNumber(fields[..|fields| - 1], k, otherwise)
  }

  lemma {:induction false} LastTextFront(fields: seq<(Key, Json)>, k: Key, otherwise: string)
    requires fields != []
    ensures LastText(fields, k, otherwise)
            == LastText(fields[1..], k, if fields[0].0 == k && fields[0].1.Text? then fields[0].1.s else otherwise)
  {
    var n := |fields| - 1;
    if n == 0 {
      assert fields[..0] == [] && fields[1..] == [];
    } else {
      assert fields[1..][..n - 1] == fields[..n][1..];
      LastTextFront(fields[..n], k, otherwise);
    }
  }

  lemma {:induction false} LastNumberFront(fields: seq<(Key, Json)>, k: Key, otherwise: nat)
    requires fields != []
    ensures LastNumber(fields, k, otherwise)
            == LastNumber(fields[1..], k, if fields[0].0 == k && IsType(fields[0].1) then fields[0].1.n else otherwise)
  {
    var n := |fields| - 1;
    if n == 0 {
      assert fields[..0] == [] && fields[1..] == [];
    } else {
      assert fields[1..][..n - 1] == fields[..n][1..];
      LastNumberFront(fields[..n], k, otherwise);
    }
  }

  predicate TextsAreTexts(keys: seq<Key>, fields: seq<(Key, Json)>) {
    forall f :: f in fields && f.0 in keys ==> f.1.Text? || f.1.Null?
  }

  lemma IndexOfKey(keys: seq<Key>, i: nat)
    requires i < |keys| && Distinct(keys)
    ensures IndexIn(keys, keys[i]) == i
  {
  }

  /**
   * A struct is filled from any object exactly if everything under its text keys is a text or null, and then
   * each text is the last one under its key.
   */
  lemma {:induction false} FilledByLast(keys: seq<Key>, texts: seq<string>, fields: seq<(Key, Json)>)
    requires |keys| == |texts| && Distinct(keys)
    ensures FillTexts(keys, texts, fields).Some? <==> TextsAreTexts(keys, fields)
    ensures FillTexts(keys, texts, fields).Some? ==>
              forall i :: 0 <= i < |keys| ==>
                FillTexts(keys, texts, fields).value[i] == LastText(fields, keys[i], texts[i])
    decreases |fields|
  {
    if fields != [] {
      var next := SetText(keys, texts, fields[0]);
      assert fields[0] in fields;
      assert forall f :: f in fields <==> f == fields[0] || f in fields[1..];
      if next.Some? {
        FilledByLast(keys, next.value, fields[1..]);
        forall i | 0 <= i < |keys|
          ensures LastText(fields, keys[i], texts[i]) == LastText(fields[1..], keys[i], next.value[i])
        {
          LastTextFront(fields, keys[i], texts[i]);
          IndexOfKey(keys, i);
        }
      }
    }
  }

  /** The type comes from the prefix unless the body has numbers under its own type key; the last one wins. */
  lemma {:induction false} TypeByLast(typ: nat, fields: seq<(Key, Json)>)
    ensures FillType(typ, fields).Some? <==> forall f :: f in fields && f.0 == Type ==> IsType(f.1) || f.1.Null?
    ensures FillType(typ, fields).Some? ==> FillType(typ, fields).value == LastNumber(fields, Type, typ)
    decreases |fields|
  {
    if fields != [] {
      assert fields[0] in fields;
      assert forall f :: f in fields <==> f == fields[0] || f in fields[1..];
      LastNumberFront(fields, Type, typ);
      TypeByLast(if fields[0].0 == Type && IsType(fields[0].1) then fields[0].1.n else typ, fields[1..]);
    }
  }

  // ----- what decodes, and to what

  /** A struct with these text fields can be read: missing, null, or an object with only texts and nulls for them. */
  ghost predicate Readable(keys: seq<Key>, j: Option<Json>) {
    (j.Some? ==> j.value.Object? || j.value.Null?) && TextsAreTexts(keys, FieldsOf(j))
  }

  /** And is read as these texts: the last one under each key, empty without one. */
  ghost predicate ReadAs(keys: seq<Key>, j: Option<Json>, texts: seq<string>) {
    |texts| == |keys| && forall i :: 0 <= i < |keys| ==> texts[i] == LastText(FieldsOf(j), keys[i], "")
  }

  lemma StructRead(keys: seq<Key>, j: Option<Json>)
    requires Distinct(keys)
    ensures StructTexts(keys, j).Some? <==> Readable(keys, j)
    ensures StructTexts(keys, j).Some? ==> ReadAs(keys, j, StructTexts(keys, j).value)
  {
    FilledByLast(keys, Blank(|keys|), FieldsOf(j));
  }

  lemma {:induction false} ResultsRead(keys: seq<Key>, items: seq<Json>)
    requires Distinct(keys)
    ensures ResultsOf(keys, items).Some? <==> forall e :: 0 <= e < |items| ==> Readable(keys, Some(items[e]))
    ensures ResultsOf(keys, items).Some? ==>
              && |ResultsOf(keys, items).value| == |items|
              && forall e :: 0 <= e < |items| ==> ReadAs(keys, Some(items[e]), ResultsOf(keys, items).value[e])
  {
    if items != [] {
      StructRead(keys, Some(items[0]));
      ResultsRead(keys, items[1..]);
      assert forall e :: 1 <= e < |items| ==> items[e] == items[1..][e - 1];
    }
  }

  /** The data can be read: missing, null, or an object whose list is missing, null, or of readable elements. */
  ghost predicate DataReadable(sc: Schema, d: Option<Json>) {
    && (d.Some? ==> d.value.Object? || d.value.Null?)
    && var list := Under(FieldsOf(d), DataElements);
    && (list.Some? && !list.value.Null? ==>
          && list.value.Array?
          && forall e :: 0 <= e < |list.value.items| ==> Readable(sc.result, Some(list.value.items[e])))
  }

  ghost predicate DataReadAs(sc: Schema, d: Option<Json>, elements: Option<seq<seq<string>>>) {
    var list := Under(FieldsOf(d), DataElements);
    && (elements.None? <==> list.None? || list.value.Null?)
    && (elements.Some? ==>
          && list.value.Array? && |elements.value| == |list.value.items|
          && forall e :: 0 <= e < |list.value.items| ==>
               ReadAs(sc.result, Some(list.value.items[e]), elements.value[e]))
  }

  lemma DataRead(sc: Schema, d: Option<Json>)
    requires Distinct(sc.result)
    ensures ElementsOf(sc, d).Some? <==> DataReadable(sc, d)
    ensures ElementsOf(sc, d).Some? ==> DataReadAs(sc, d, ElementsOf(sc, d).value)
  {
    var list := Under(FieldsOf(d), DataElements);
    if list.Some? && list.value.Array? {
      ResultsRead(sc.result, list.value.items);
    }
  }

  /** A frame decodes exactly if its body, the nested structs and the data are readable and its types are numbers. */
  lemma DecodesIff(sc: Schema, w: Wire)
    requires Proper(sc)
    ensures var fields := FieldsOf(Some(w.body));
      var m := Under(fields, Measurement);
      Decoded(sc, w).Some? <==>
        && Readable(sc.top, Some(w.body))
        && (forall f :: f in fields && f.0 == Type ==> IsType(f.1) || f.1.Null?)
        && Readable(sc.measurement, m) && Readable(sc.configuration, Under(FieldsOf(m), Configuration))
        && DataReadable(sc, Under(fields, Data))
  {
    var fields := FieldsOf(Some(w.body));
    var m := Under(fields, Measurement);
    TypeByLast(Prefix(w.high, w.low), fields);
    StructRead(sc.top, Some(w.body));
    StructRead(sc.measurement, m);
    StructRead(sc.configuration, Under(FieldsOf(m), Configuration));
    DataRead(sc, Under(fields, Data));
  }

  ghost predicate NestedAs(sc: Schema, fields: seq<(Key, Json)>, r: Record) {
    var m := Under(fields, Measurement);
    && ReadAs(sc.measurement, m, r.measurement)
    && ReadAs(sc.configuration, Under(FieldsOf(m), Configuration), r.configuration)
    && DataReadAs(sc, Under(fields, Data), r.elements)
  }

  ghost predicate DecodedAs(sc: Schema, fields: seq<(Key, Json)>, prefix: nat, r: Record) {
    r.typ == LastNumber(fields, Type, prefix) && NestedAs(sc, fields, r)
  }

  lemma NestedRead(sc: Schema, fields: seq<(Key, Json)>, r: Record)
    requires Proper(sc) && MeasurementOf(sc, Under(fields, Measurement)) == Some((r.measurement, r.configuration))
    requires ElementsOf(sc, Under(fields, Data)) == Some(r.elements)
    ensures NestedAs(sc, fields, r)
  {
    var m := Under(fields, Measurement);
    StructRead(sc.measurement, m);
    StructRead(sc.configuration, Under(FieldsOf(m), Configuration));
    DataRead(sc, Under(fields, Data));
  }

  lemma BodyReadAs(sc: Schema, typ: nat, body: Json, fields: seq<(Key, Json)>, r: Record)
    requires Proper(sc) && fields == FieldsOf(Some(body)) && Unmarshal(sc, typ, body) == Some(r)
    ensures DecodedAs(sc, fields, typ, r) && ReadAs(sc.top, Some(body), r.texts)
  {
    TypeByLast(typ, fields);
    StructRead(sc.top, Some(body));
    NestedRead(sc, fields, r);
  }

  /** What it decodes to: the type of the prefix unless the body has its own, and the last text under each key. */
  lemma DecodedFromBody(sc: Schema, w: Wire)
    requires Proper(sc) && Decoded(sc, w).Some?
    ensures DecodedAs(sc, FieldsOf(Some(w.body)), 256 * w.high + w.low, Decoded(sc, w).value)
    ensures ReadAs(sc.top, Some(w.body), Decoded(sc, w).value.texts)
  {
    BodyReadAs(sc, 256 * w.high + w.low, w.body, FieldsOf(Some(w.body)), Decoded(sc, w).value);
  }
}
