/**
 * The control message on the wire: two bytes of message type, then the JSON of the record without it
 * (ConvDataStructToJson and ConvJsonToDataStruct). The body is a tree; its text syntax is not modelled.
 */
module Frame {
  import opened Wrappers

  datatype Key =
    | Type | Id | Seq | MeasurementId | Ts | Secret | SeqRp | Arch | Os | Info | Status | Message
    | MeasurementDelay | MeasurementTimeMax | Padding | Modules | Measurement | Data
    | Name | Configuration
    | Worker | PayloadPattern | UsedPorts | Rate | RateBurst | PacketLength | Dscp | Ttl | OutputFormat | TxMethod
    | ListenAddr | CallSize
    | DataElements | TimestampFirst | TimestampLast | ReceivedBytes

  datatype Json = Null | Number(n: int) | Text(s: string) | Array(items: seq<Json>) | Object(fields: seq<(Key, Json)>)

  /** The text fields of each struct, in the order they are declared. */
  datatype Schema = Schema(top: seq<Key>, measurement: seq<Key>, configuration: seq<Key>, result: seq<Key>)

  const SCHEMA: Schema := Schema(
    [Id, Seq, MeasurementId, Ts, Secret, SeqRp, Arch, Os, Info, Status, Message,
     MeasurementDelay, MeasurementTimeMax, Padding, Modules],
    [Name, Type],
    [Worker, PayloadPattern, UsedPorts, Rate, RateBurst, PacketLength, Dscp, Ttl, OutputFormat, TxMethod,
     ListenAddr, CallSize],
    [TimestampFirst, TimestampLast, ReceivedBytes])

  /** The fields of a DataObj: its type, and the texts of each struct in declaration order. */
  datatype Record = Record(typ: nat, texts: seq<string>, measurement: seq<string>, configuration: seq<string>,
                           elements: Option<seq<seq<string>>>)

  predicate Shaped(sc: Schema, r: Record) {
    && |r.texts| == |sc.top| && |r.measurement| == |sc.measurement| && |r.configuration| == |sc.configuration|
    && (r.elements.Some? ==> forall e :: e in r.elements.value ==> |e| == |sc.result|)
  }

  function Blank(n: nat): seq<string> { seq(n, _ => "") }

  function Empty(sc: Schema): Record {
    Record(0, Blank(|sc.top|), Blank(|sc.measurement|), Blank(|sc.configuration|), None)
  }

  // ----- encoding: empty texts and a zero type are left out, structs and the list never are

  function TextFields(keys: seq<Key>, texts: seq<string>): seq<(Key, Json)>
    requires |keys| == |texts|
  {
    if keys == [] then []
    else (if texts[0] == "" then [] else [(keys[0], Text(texts[0]))]) + TextFields(keys[1..], texts[1..])
  }

  function ElementJsons(keys: seq<Key>, elements: seq<seq<string>>): seq<Json>
    requires forall e :: e in elements ==> |e| == |keys|
  {
    seq(|elements|, i requires 0 <= i < |elements| =>
      assert elements[i] in elements; Object(TextFields(keys, elements[i])))
  }

  function MeasurementJson(sc: Schema, r: Record): Json
    requires Shaped(sc, r)
  {
    Object(TextFields(sc.measurement, r.measurement)
           + [(Configuration, Object(TextFields(sc.configuration, r.configuration)))])
  }

  function DataJson(sc: Schema, r: Record): Json
    requires Shaped(sc, r)
  {
    Object([(DataElements, if r.elements.None? then Null else Array(ElementJsons(sc.result, r.elements.value)))])
  }

  /** `json.Marshal` of the record. */
  function Marshal(sc: Schema, r: Record): Json
    requires Shaped(sc, r)
  {
    Object((if r.typ == 0 then [] else [(Type, Number(r.typ))]) + TextFields(sc.top, r.texts)
           + [(Measurement, MeasurementJson(sc, r)), (Data, DataJson(sc, r))])
  }

  // ----- decoding: every field met overwrites, in order; unknown keys and null are skipped

  function IndexIn(keys: seq<Key>, k: Key): (i: nat)
    requires k in keys
    ensures i < |keys| && keys[i] == k
  {
    if keys[0] == k then 0 else 1 + IndexIn(keys[1..], k)
  }

  function SetText(keys: seq<Key>, texts: seq<string>, field: (Key, Json)): Option<seq<string>>
    requires |keys| == |texts|
  {
    if field.0 !in keys then Some(texts)
    else match field.1
      case Text(s) => Some(texts[IndexIn(keys, field.0) := s])
      case Null => Some(texts)
      case _ => None
  }

  function FillTexts(keys: seq<Key>, texts: seq<string>, fields: seq<(Key, Json)>): (r: Option<seq<string>>)
    requires |keys| == |texts|
    ensures r.Some? ==> |r.value| == |keys|
    decreases |fields|
  {
    if fields == [] then Some(texts)
    else
      var next := SetText(keys, texts, fields[0]);
      if next.None? then None else FillTexts(keys, next.value, fields[1..])
  }

  predicate IsUint64(n: int) { 0 <= n < 0x1_0000_0000_0000_0000 }

  function FillType(typ: nat, fields: seq<(Key, Json)>): Option<nat>
    decreases |fields|
  {
    if fields == [] then Some(typ)
    else if fields[0].0 != Type || fields[0].1.Null? then FillType(typ, fields[1..])
    else if fields[0].1.Number? && IsUint64(fields[0].1.n) then FillType(fields[0].1.n, fields[1..])
    else None
  }

  /** The value of the last field with this key. */
  function Under(fields: seq<(Key, Json)>, key: Key): Option<Json> {
    if fields == [] then None
    else if fields[|fields| - 1].0 == key then Some(fields[|fields| - 1].1)
    else Under(fields[..|fields| - 1], key)
  }

  function FieldsOf(j: Option<Json>): seq<(Key, Json)> {
    if j.Some? && j.value.Object? then j.value.fields else []
  }

  /** A struct that is missing or null stays blank. */
  function StructTexts(keys: seq<Key>, j: Option<Json>): Option<seq<string>> {
    if j.Some? && !j.value.Object? && !j.value.Null? then None else FillTexts(keys, Blank(|keys|), FieldsOf(j))
  }

  function ResultsOf(keys: seq<Key>, items: seq<Json>): Option<seq<seq<string>>> {
    if items == [] then Some([])
    else
      var head, tail := StructTexts(keys, Some(items[0])), ResultsOf(keys, items[1..]);
      if head.None? || tail.None? then None else Some([head.value] + tail.value)
  }

  function MeasurementOf(sc: Schema, j: Option<Json>): Option<(seq<string>, seq<string>)> {
    var texts := StructTexts(sc.measurement, j);
    var configuration := StructTexts(sc.configuration, Under(FieldsOf(j), Configuration));
    if texts.None? || configuration.None? then None else Some((texts.value, configuration.value))
  }

  function ElementsOf(sc: Schema, j: Option<Json>): Option<Option<seq<seq<string>>>> {
    if j.Some? && !j.value.Object? && !j.value.Null? then None
    else match Under(FieldsOf(j), DataElements)
      case None => Some(None)
      case Some(Null) => Some(None)
      case Some(Array(items)) =>
        var results := ResultsOf(sc.result, items);
        if results.None? then None else Some(Some(results.value))
      case _ => None
  }

  /** `json.Unmarshal` into a fresh record whose type is already set; None if it fails. */
  function Unmarshal(sc: Schema, typ: nat, body: Json): Option<Record> {
    var fields := FieldsOf(Some(body));
    var newType := FillType(typ, fields);
    var texts := StructTexts(sc.top, Some(body));
    var m := MeasurementOf(sc, Under(fields, Measurement));
    var data := ElementsOf(sc, Under(fields, Data));
    if newType.None? || texts.None? || m.None? || data.None? then None
    else Some(Record(newType.value, texts.value, m.value.0, m.value.1, data.value))
  }

  // ----- the frame

  datatype Wire = Wire(high: nat, low: nat, body: Json)

  function Encoded(sc: Schema, r: Record): Wire
    requires Shaped(sc, r)
  {
    Wire(HighByte(r.typ), LowByte(r.typ), Marshal(sc, r.(typ := 0)))
  }

  /** The two bytes of `uint16(typ)`. */
  function HighByte(typ: nat): nat { typ % 0x10000 / 0x100 }

  function LowByte(typ: nat): nat { typ % 0x10000 % 0x100 }

  /** The big-endian value of the two type bytes. */
  function Prefix(high: nat, low: nat): nat { high * 0x100 + low }

  function Decoded(sc: Schema, w: Wire): Option<Record> { Unmarshal(sc, Prefix(w.high, w.low), w.body) }

  /** The message object that both sides build and mutate. */
  class DataObj {
    var record: Record

    constructor (sc: Schema)
      ensures record == Empty(sc)
    {
      record := Empty(sc);
    }
  }

  /** Encoding moves the type into the prefix, and leaves the caller's object with type zero. */
  method ConvDataStructToJson(sc: Schema, data: DataObj) returns (wire: Wire)
    requires Shaped(sc, data.record)
    modifies data
    ensures wire == Encoded(sc, old(data.record))
    ensures data.record == old(data.record).(typ := 0)
  {
    var high, low := HighByte(data.record.typ), LowByte(data.record.typ);
    data.record := data.record.(typ := 0);
    wire := Wire(high, low, Marshal(sc, data.record));
  }

  /** Decoding sets the type of a fresh object first and then fills the object from the body. */
  method ConvJsonToDataStruct(sc: Schema, wire: Wire) returns (data: DataObj, ok: bool)
    ensures fresh(data)
    ensures ok <==> Decoded(sc, wire).Some?
    ensures ok ==> data.record == Decoded(sc, wire).value
  {
    data := new DataObj(sc);
    data.record := data.record.(typ := Prefix(wire.high, wire.low));
    var filled := Unmarshal(sc, data.record.typ, wire.body);
    ok := filled.Some?;
    if ok {
      data.record := filled.value;
    }
  }

  // ----- the round trip

  /** No text key occurs twice, and the keys of nested values are not text keys beside them. */
  predicate Proper(sc: Schema) {
    && Distinct(sc.top) && Distinct(sc.measurement) && Distinct(sc.configuration) && Distinct(sc.result)
    && Type !in sc.top && Measurement !in sc.top && Data !in sc.top && Configuration !in sc.measurement
  }

  predicate Distinct(keys: seq<Key>) { forall i, j :: 0 <= i < j < |keys| ==> keys[i] != keys[j] }

  lemma {:induction false} FillAgain(keys: seq<Key>, texts: seq<string>, i: nat)
    requires |keys| == |texts| && Distinct(keys) && i <= |keys|
    ensures FillTexts(keys, texts[..i] + Blank(|keys| - i), TextFields(keys[i..], texts[i..])) == Some(texts)
    decreases |keys| - i
  {
    var done := texts[..i] + Blank(|keys| - i);
    if i == |keys| {
      assert done == texts;
    } else {
      FillAgain(keys, texts, i + 1);
      assert keys[i..][1..] == keys[i + 1..] && texts[i..][1..] == texts[i + 1..];
      FillOne(keys, done, i, texts[i], TextFields(keys[i + 1..], texts[i + 1..]));
      assert done[i := texts[i]] == texts[..i + 1] + Blank(|keys| - i - 1);
    }
  }

  /** One text field, written or left out because it is empty, sets one blank text. */
  lemma FillOne(keys: seq<Key>, done: seq<string>, i: nat, text: string, rest: seq<(Key, Json)>)
    requires |keys| == |done| && Distinct(keys) && i < |keys| && done[i] == ""
    ensures FillTexts(keys, done, (if text == "" then [] else [(keys[i], Text(text))]) + rest)
            == FillTexts(keys, done[i := text], rest)
  {
    if text == "" {
      assert done[i := ""] == done;
      assert [] + rest == rest;
    } else {
      assert IndexIn(keys, keys[i]) == i;
      assert ([(keys[i], Text(text))] + rest)[1..] == rest;
    }
  }

  /** Fields with keys of other structs do not matter to a struct's texts. */
  lemma {:induction false} FillIgnores(keys: seq<Key>, texts: seq<string>, before: seq<(Key, Json)>,
                                       fields: seq<(Key, Json)>, after: seq<(Key, Json)>)
    requires |keys| == |texts|
    requires forall f :: f in before ==> f.0 !in keys
    requires forall f :: f in after ==> f.0 !in keys
    ensures FillTexts(keys, texts, before + fields + after) == FillTexts(keys, texts, fields)
    decreases |before|, |fields|, |after|
  {
    var all := before + fields + after;
    if before != [] {
      assert all[1..] == before[1..] + fields + after;
      FillIgnores(keys, texts, before[1..], fields, after);
    } else if fields != [] {
      assert all[1..] == [] + fields[1..] + after;
      var next := SetText(keys, texts, fields[0]);
      if next.Some? {
        FillIgnores(keys, next.value, [], fields[1..], after);
      }
    } else if after != [] {
      assert all[1..] == [] + [] + after[1..];
      FillIgnores(keys, texts, [], [], after[1..]);
    }
  }

  lemma {:induction false} FieldKeys(keys: seq<Key>, texts: seq<string>)
    requires |keys| == |texts|
    ensures forall f :: f in TextFields(keys, texts) ==> f.0 in keys
  {
    if keys != [] {
      FieldKeys(keys[1..], texts[1..]);
    }
  }

  lemma {:induction false} TypeKept(typ: nat, fields: seq<(Key, Json)>)
    requires forall f :: f in fields ==> f.0 != Type
    ensures FillType(typ, fields) == Some(typ)
  {
    if fields != [] {
      assert fields[0] in fields;
      TypeKept(typ, fields[1..]);
    }
  }

  lemma SectionFilled(keys: seq<Key>, texts: seq<string>, after: seq<(Key, Json)>)
    requires |keys| == |texts| && Distinct(keys)
    requires forall f :: f in after ==> f.0 !in keys
    ensures FillTexts(keys, Blank(|keys|), TextFields(keys, texts) + after) == Some(texts)
  {
    FillAgain(keys, texts, 0);
    assert texts[..0] + Blank(|keys|) == Blank(|keys|);
    assert keys[0..] == keys && texts[0..] == texts;
    FillIgnores(keys, Blank(|keys|), [], TextFields(keys, texts), after);
    assert [] + TextFields(keys, texts) + after == TextFields(keys, texts) + after;
  }

  lemma ElementFilled(keys: seq<Key>, element: seq<string>)
    requires Distinct(keys) && |element| == |keys|
    ensures StructTexts(keys, Some(Object(TextFields(keys, element)))) == Some(element)
  {
    SectionFilled(keys, element, []);
    assert TextFields(keys, element) + [] == TextFields(keys, element);
  }

  lemma {:induction false} ElementsFilled(keys: seq<Key>, elements: seq<seq<string>>)
    requires Distinct(keys) && forall e :: e in elements ==> |e| == |keys|
    ensures ResultsOf(keys, ElementJsons(keys, elements)) == Some(elements)
  {
    if elements != [] {
      var items := ElementJsons(keys, elements);
      assert elements[0] in elements;
      assert items[1..] == ElementJsons(keys, elements[1..]);
      ElementFilled(keys, elements[0]);
      ElementsFilled(keys, elements[1..]);
      assert [elements[0]] + elements[1..] == elements;
    }
  }

  lemma MeasurementFilled(sc: Schema, r: Record)
    requires Proper(sc) && Shaped(sc, r)
    ensures MeasurementOf(sc, Some(MeasurementJson(sc, r))) == Some((r.measurement, r.configuration))
  {
    var inner := TextFields(sc.configuration, r.configuration);
    var after := [(Configuration, Object(inner))];
    SectionFilled(sc.measurement, r.measurement, after);
    SectionFilled(sc.configuration, r.configuration, []);
    assert inner + [] == inner;
    var fields := TextFields(sc.measurement, r.measurement) + after;
    assert fields[|fields| - 1] == after[0];
  }

  lemma DataFilled(sc: Schema, r: Record)
    requires Proper(sc) && Shaped(sc, r)
    ensures ElementsOf(sc, Some(DataJson(sc, r))) == Some(r.elements)
  {
    if r.elements.Some? {
      ElementsFilled(sc.result, r.elements.value);
    }
  }

  lemma TailFound(front: seq<(Key, Json)>, m: Json, d: Json)
    ensures var fields := front + [(Measurement, m), (Data, d)];
      Under(fields, Data) == Some(d) && Under(fields, Measurement) == Some(m)
  {
    var fields := front + [(Measurement, m), (Data, d)];
    var init := fields[..|fields| - 1];
    assert init == front + [(Measurement, m)];
    assert init[|init| - 1] == (Measurement, m);
  }

  lemma FrameRestores(sc: Schema, r: Record)
    requires Proper(sc) && Shaped(sc, r)
    ensures Decoded(sc, Encoded(sc, r)) == Some(r.(typ := r.typ % 0x10000))
  {
    TypeRestored(sc, r, Encoded(sc, r));
  }

  /**
   * The frame round trip: decoding an encoded record restores every field, with the type reduced to its
   * low 16 bits; so the record comes back whole exactly when its type fits the prefix.
   */
  lemma FrameRoundTrip(sc: Schema, r: Record)
    requires Proper(sc) && Shaped(sc, r)
    ensures var back := Decoded(sc, Encoded(sc, r));
      back == Some(r.(typ := r.typ % 0x10000)) && (back == Some(r) <==> r.typ < 0x10000)
  {
    FrameRestores(sc, r);
    WholeIff(Decoded(sc, Encoded(sc, r)), r);
  }

  lemma WholeIff(back: Option<Record>, r: Record)
    requires back == Some(r.(typ := r.typ % 0x10000))
    ensures back == Some(r) <==> r.typ < 0x10000
  {
  }

  lemma TypeRestored(sc: Schema, r: Record, w: Wire)
    requires Proper(sc) && Shaped(sc, r)
    requires w.high == HighByte(r.typ) && w.low == LowByte(r.typ)
    requires w.body == Object(TextFields(sc.top, r.texts)
                              + [(Measurement, MeasurementJson(sc, r)), (Data, DataJson(sc, r))])
    ensures Decoded(sc, w) == Some(r.(typ := r.typ % 0x10000))
  {
    assert Prefix(w.high, w.low) == r.typ % 0x10000;
    WireDecoded(sc, r, w);
  }

  lemma WireDecoded(sc: Schema, r: Record, w: Wire)
    requires Proper(sc) && Shaped(sc, r)
    requires w.body == Object(TextFields(sc.top, r.texts)
                              + [(Measurement, MeasurementJson(sc, r)), (Data, DataJson(sc, r))])
    ensures Decoded(sc, w) == Some(r.(typ := Prefix(w.high, w.low)))
  {
    BodyDecoded(sc, r, Prefix(w.high, w.low), w.body);
  }

  lemma BodyDecoded(sc: Schema, r: Record, typ: nat, body: Json)
    requires Proper(sc) && Shaped(sc, r)
    requires body == Object(TextFields(sc.top, r.texts)
                            + [(Measurement, MeasurementJson(sc, r)), (Data, DataJson(sc, r))])
    ensures Unmarshal(sc, typ, body) == Some(r.(typ := typ))
  {
    MeasurementFilled(sc, r);
    DataFilled(sc, r);
    BodyRead(sc, r, typ, MeasurementJson(sc, r), DataJson(sc, r));
  }

  lemma BodyRead(sc: Schema, r: Record, typ: nat, m: Json, d: Json)
    requires Proper(sc) && Shaped(sc, r)
    requires MeasurementOf(sc, Some(m)) == Some((r.measurement, r.configuration))
    requires ElementsOf(sc, Some(d)) == Some(r.elements)
    ensures Unmarshal(sc, typ, Object(TextFields(sc.top, r.texts) + [(Measurement, m), (Data, d)]))
            == Some(r.(typ := typ))
  {
    var texts, tail := TextFields(sc.top, r.texts), [(Measurement, m), (Data, d)];
    FieldKeys(sc.top, r.texts);
    TypeKept(typ, texts + tail);
    SectionFilled(sc.top, r.texts, tail);
    TailFound(texts, m, d);
    FieldsRead(sc, r, typ, m, d, texts + tail);
  }

  lemma FieldsRead(sc: Schema, r: Record, typ: nat, m: Json, d: Json, fields: seq<(Key, Json)>)
    requires FillType(typ, fields) == Some(typ) && FillTexts(sc.top, Blank(|sc.top|), fields) == Some(r.texts)
    requires Under(fields, Measurement) == Some(m) && Under(fields, Data) == Some(d)
    requires MeasurementOf(sc, Some(m)) == Some((r.measurement, r.configuration))
    requires ElementsOf(sc, Some(d)) == Some(r.elements)
    ensures Unmarshal(sc, typ, Object(fields)) == Some(r.(typ := typ))
  {
  }

  /** The position of a key in the declarations. */
  function Rank(k: Key): nat {
    match k
    case Type => 0 case Id => 1 case Seq => 2 case MeasurementId => 3 case Ts => 4 case Secret => 5
    case SeqRp => 6 case Arch => 7 case Os => 8 case Info => 9 case Status => 10 case Message => 11
    case MeasurementDelay => 12 case MeasurementTimeMax => 13 case Padding => 14 case Modules => 15
    case Measurement => 16 case Data => 17 case Name => 18 case Configuration => 19
    case Worker => 20 case PayloadPattern => 21 case UsedPorts => 22 case Rate => 23
    case RateBurst => 24 case PacketLength => 25 case Dscp => 26 case Ttl => 27
    case OutputFormat => 28 case TxMethod => 29 case ListenAddr => 30 case CallSize => 31
    case DataElements => 32 case TimestampFirst => 33 case TimestampLast => 34
    case ReceivedBytes => 35
  }

  lemma TopRanks()
    ensures |SCHEMA.top| == 15 && forall i :: 0 <= i < |SCHEMA.top| ==> Rank(SCHEMA.top[i]) == 1 + i
  {
  }

  lemma TopOmits(k: Key)
    requires Rank(k) == 0 || Rank(k) >= 16
    ensures k !in SCHEMA.top
  {
    TopRanks();
  }

  lemma ConfigurationRanks()
    ensures |SCHEMA.configuration| == 12 && |SCHEMA.result| == 3
    ensures forall i :: 0 <= i < |SCHEMA.configuration| ==> Rank(SCHEMA.configuration[i]) == 20 + i
  {
  }

  lemma ConfigurationIsProper()
    ensures Distinct(SCHEMA.configuration)
  {
    ConfigurationRanks();
  }

  lemma TopIsProper()
    ensures Distinct(SCHEMA.top) && Type !in SCHEMA.top && Measurement !in SCHEMA.top && Data !in SCHEMA.top
  {
    TopOmits(Type);
    TopOmits(Measurement);
    TopOmits(Data);
  }

  /** The round trip holds for the program's own records. */
  lemma SchemaIsProper()
    ensures Proper(SCHEMA)
  {
    TopIsProper();
    ConfigurationIsProper();
  }

  /** A second encoding of the same object sends type zero: the first one cleared it. */
  lemma SecondEncodingLosesType(sc: Schema, r: Record)
    requires Proper(sc) && Shaped(sc, r)
    ensures Decoded(sc, Encoded(sc, r.(typ := 0))) == Some(r.(typ := 0))
  {
    FrameRoundTrip(sc, r.(typ := 0));
  }
}
