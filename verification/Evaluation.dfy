/**
 * The accumulation loop of the evaluation script over the entries it has read (scripts/evaluation.py).
 * Dates are microseconds since the year 1; throughput and durations are exact reals.
 */
module Evaluation {
  import opened Wrappers

  datatype Stream = Stream(start: int, end: int, bytes: int)

  /** 4000-01-01, the initial minimum; the initial maximum is 0001-01-01. */
  const SENTINEL: int := 126196185600000000

  /** The loop's variables. */
  datatype Acc = Acc(min: int, max: int, bytesRx: int, prev: int, prevSet: bool, normalized: seq<(real, real)>)

  const START: Acc := Acc(SENTINEL, 0, 0, 0, false, [])

  function Seconds(micros: int): real { micros as real / 1000000.0 }

  function Mbits(bytes: int): real { (bytes * 8) as real / 1000000.0 }

  /** One stream of an entry: the youngest start and the oldest end so far. */
  function StreamStep(a: Acc, s: Stream): Acc {
    var a1 := if s.start < a.min
      then a.(min := s.start, prev := if a.prevSet then a.prev else s.start, prevSet := true) else a;
    if s.end > a1.max then a1.(max := s.end) else a1
  }

  function Times(a: Acc, entry: seq<Stream>): Acc {
    if entry == [] then a else StreamStep(Times(a, entry[..|entry| - 1]), entry[|entry| - 1])
  }

  function EntryBytes(entry: seq<Stream>): int {
    if entry == [] then 0 else EntryBytes(entry[..|entry| - 1]) + entry[|entry| - 1].bytes
  }

  /** Bytes and duration of the period that an entry closes. */
  function Period(a: Acc, entry: seq<Stream>): (int, int) {
    var t := Times(a, entry);
    (EntryBytes(entry) - a.bytesRx, t.max - t.prev)
  }

  predicate Keeps(period: (int, int)) { Mbits(period.0) != 0.0 && Seconds(period.1) != 0.0 }

  function EntryStep(a: Acc, entry: seq<Stream>): Acc {
    var t := Times(a, entry);
    var p := Period(a, entry);
    Acc(t.min, t.max, EntryBytes(entry), t.max, t.prevSet,
        if Keeps(p) then t.normalized + [(Seconds(t.max - t.min), Mbits(p.0) / Seconds(p.1))] else t.normalized)
  }

  function Fold(db: seq<seq<Stream>>): Acc {
    if db == [] then START else EntryStep(Fold(db[..|db| - 1]), db[|db| - 1])
  }

  function LastPeriod(db: seq<seq<Stream>>): (int, int)
    requires db != []
  {
    Period(Fold(db[..|db| - 1]), db[|db| - 1])
  }

  // ----- the loop itself

  class Evaluator {
    var datetimeMin: int
    var datetimeMax: int
    var bytesRx: int
    var prevDatetimeMax: int
    var prevDatetimeMaxSet: bool
    var normalized: seq<(real, real)>

    function View(): Acc
      reads this
    {
      Acc(datetimeMin, datetimeMax, bytesRx, prevDatetimeMax, prevDatetimeMaxSet, normalized)
    }

    constructor ()
      ensures View() == START
    {
      datetimeMin, datetimeMax, bytesRx := SENTINEL, 0, 0;
      prevDatetimeMax, prevDatetimeMaxSet, normalized := 0, false, [];
    }

    method Consume(entry: seq<Stream>)
      modifies this
      ensures View() == EntryStep(old(View()), entry)
    {
      var bytesMeasurementPoint := 0;
      for i := 0 to |entry|
        invariant View() == Times(old(View()), entry[..i])
        invariant bytesMeasurementPoint == EntryBytes(entry[..i])
      {
        assert entry[..i + 1][..i] == entry[..i];
        if entry[i].start < datetimeMin {
          datetimeMin := entry[i].start;
          if !prevDatetimeMaxSet {
            prevDatetimeMax := datetimeMin;
            prevDatetimeMaxSet := true;
          }
        }
        if entry[i].end > datetimeMax {
          datetimeMax := entry[i].end;
        }
        bytesMeasurementPoint := bytesMeasurementPoint + entry[i].bytes;
      }
      assert entry[..|entry|] == entry;
      TimesKeepBytes(old(View()), entry);
      var currMsmtTime := Seconds(datetimeMax - datetimeMin);
      var mbitsPerPeriod := Mbits(bytesMeasurementPoint - bytesRx);
      bytesRx := bytesMeasurementPoint;
      var durationOfPeriod := Seconds(datetimeMax - prevDatetimeMax);
      prevDatetimeMax := datetimeMax;
      if mbitsPerPeriod != 0.0 && durationOfPeriod != 0.0 {
        normalized := normalized + [(currMsmtTime, mbitsPerPeriod / durationOfPeriod)];
      }
    }

    method Evaluate(db: seq<seq<Stream>>)
      requires View() == START
      modifies this
      ensures View() == Fold(db)
    {
      for i := 0 to |db|
        invariant View() == Fold(db[..i])
      {
        Consume(db[i]);
        assert db[..i + 1][..i] == db[..i];
      }
      assert db[..|db|] == db;
    }
  }

  /** Overall Mbit/s and measurement length; None where the division by a zero length fails. */
  function OverallOf(a: Acc): Option<(real, real)> {
    var length := Seconds(a.max - a.min);
    if length == 0.0 then None else Some((a.bytesRx as real / length * 8.0 / 1000000.0, length))
  }

  lemma {:induction false} TimesKeepBytes(a: Acc, entry: seq<Stream>)
    ensures Times(a, entry).bytesRx == a.bytesRx && Times(a, entry).normalized == a.normalized
  {
    if entry != [] {
      TimesKeepBytes(a, entry[..|entry| - 1]);
    }
  }

  // ----- what is counted

  function Column(entry: seq<Stream>): seq<int> {
    seq(|entry|, i requires 0 <= i < |entry| => entry[i].bytes)
  }

  function Added(numbers: seq<int>): int {
    if numbers == [] then 0 else numbers[0] + Added(numbers[1..])
  }

  lemma {:induction false} AddedAppend(numbers: seq<int>, n: int)
    ensures Added(numbers + [n]) == Added(numbers) + n
  {
    if numbers == [] {
      assert [] + [n] == [n];
    } else {
      assert (numbers + [n])[1..] == numbers[1..] + [n];
      AddedAppend(numbers[1..], n);
    }
  }

  /** The bytes of an entry are those of all its streams. */
  lemma {:induction false} EntryBytesAdded(entry: seq<Stream>)
    ensures EntryBytes(entry) == Added(Column(entry))
  {
    if entry != [] {
      var n := |entry| - 1;
      EntryBytesAdded(entry[..n]);
      assert Column(entry) == Column(entry[..n]) + [entry[n].bytes];
      AddedAppend(Column(entry[..n]), entry[n].bytes);
    }
  }

  /** The script's byte count ends as the sum over all streams of the last entry. */
  lemma FinalBytesAdded(db: seq<seq<Stream>>)
    requires db != []
    ensures Fold(db).bytesRx == Added(Column(db[|db| - 1]))
  {
    EntryBytesAdded(db[|db| - 1]);
  }

  lemma {:induction false} TimesMax(a: Acc, entry: seq<Stream>)
    ensures var m := Times(a, entry).max;
      && m >= a.max && (forall i :: 0 <= i < |entry| ==> m >= entry[i].end)
      && (m == a.max || exists i :: 0 <= i < |entry| && m == entry[i].end)
  {
    if entry != [] {
      var n := |entry| - 1;
      TimesMax(a, entry[..n]);
      var before := Times(a, entry[..n]).max;
      if Times(a, entry).max == before && before != a.max {
        var i :| 0 <= i < n && before == entry[..n][i].end;
        assert before == entry[i].end;
      }
    }
  }

  /** `datetime_max` ends at or above every end in the input, and is one of them or still the year 1. */
  lemma {:induction false} MaxIsLatestEnd(db: seq<seq<Stream>>)
    ensures forall i, j :: 0 <= i < |db| && 0 <= j < |db[i]| ==> Fold(db).max >= db[i][j].end
    ensures Fold(db).max == 0 || exists i, j :: 0 <= i < |db| && 0 <= j < |db[i]| && Fold(db).max == db[i][j].end
  {
    if db != [] {
      var n := |db| - 1;
      MaxIsLatestEnd(db[..n]);
      TimesMax(Fold(db[..n]), db[n]);
      if Fold(db).max == Fold(db[..n]).max && Fold(db).max != 0 {
        var i, j :| 0 <= i < n && 0 <= j < |db[..n][i]| && Fold(db[..n]).max == db[..n][i][j].end;
        assert Fold(db).max == db[i][j].end;
      } else if Fold(db).max != 0 {
        var j :| 0 <= j < |db[n]| && Fold(db).max == db[n][j].end;
      }
    }
  }

  // ----- conservation of the data

  /** The durations of the periods that are plotted. */
  function KeptDurations(db: seq<seq<Stream>>): seq<real> {
    if db == [] then []
    else
      KeptDurations(db[..|db| - 1]) + (if Keeps(LastPeriod(db)) then [Seconds(LastPeriod(db).1)] else [])
  }

  /** What one point stands for: its throughput for its duration. */
  function Carried(throughput: real, duration: real): real { throughput * duration }

  /** The area under the plotted points, as a bar chart over their periods. */
  function Area(points: seq<(real, real)>, durations: seq<real>): real
    requires |points| == |durations|
  {
    if points == [] then 0.0
    else
      var n := |points| - 1;
      Area(points[..n], durations[..n]) + Carried(points[n].1, durations[n])
  }

  /** The bytes of the periods that are skipped because they took no time. */
  function SkippedBytes(db: seq<seq<Stream>>): int {
    if db == [] then 0
    else SkippedBytes(db[..|db| - 1]) + (if LastPeriod(db).1 == 0 then LastPeriod(db).0 else 0)
  }

  function Durations(db: seq<seq<Stream>>): int {
    if db == [] then 0 else Durations(db[..|db| - 1]) + LastPeriod(db).1
  }

  lemma AreaAppend(points: seq<(real, real)>, durations: seq<real>, point: (real, real), duration: real)
    requires |points| == |durations|
    ensures Area(points + [point], durations + [duration]) == Area(points, durations) + Carried(point.1, duration)
  {
    assert (points + [point])[..|points|] == points && (durations + [duration])[..|points|] == durations;
  }

  lemma QuotientCarries(a: real, b: real)
    requires b != 0.0
    ensures Carried(a / b, b) == a
  {
  }

  /** One more point adds the bytes of its period to the area. */
  lemma PointCarries(points: seq<(real, real)>, durations: seq<real>, x: real, period: (int, int))
    requires |points| == |durations| && Keeps(period)
    ensures Area(points + [(x, Mbits(period.0) / Seconds(period.1))], durations + [Seconds(period.1)])
            == Area(points, durations) + Mbits(period.0)
  {
    AreaAppend(points, durations, (x, Mbits(period.0) / Seconds(period.1)), Seconds(period.1));
    QuotientCarries(Mbits(period.0), Seconds(period.1));
  }

  /**
   * The plot conserves the data: throughput times duration, summed over the points the script stores, is all
   * bytes of the last entry except those of zero-length periods, in Mbit.
   */
  lemma {:induction false} DataConserved(db: seq<seq<Stream>>)
    ensures |Fold(db).normalized| == |KeptDurations(db)|
    ensures Area(Fold(db).normalized, KeptDurations(db)) == Mbits(Fold(db).bytesRx - SkippedBytes(db))
  {
    if db != [] {
      var init, last, p := db[..|db| - 1], db[|db| - 1], LastPeriod(db);
      var t := Times(Fold(init), last);
      DataConserved(init);
      TimesKeepBytes(Fold(init), last);
      if Keeps(p) {
        PointCarries(Fold(init).normalized, KeptDurations(init), Seconds(t.max - t.min), p);
      } else {
        assert KeptDurations(db) == KeptDurations(init);
      }
      assert Fold(db).bytesRx == Fold(init).bytesRx + p.0;
    }
  }

  /** The overall rate times the measurement length. */
  function OverallMbits(a: Acc): real
    requires OverallOf(a).Some?
  {
    OverallOf(a).value.0 * OverallOf(a).value.1
  }

  lemma RateTimesLength(a: Acc)
    requires OverallOf(a).Some?
    ensures OverallMbits(a) == Mbits(a.bytesRx)
  {
    var length := Seconds(a.max - a.min);
    var q := a.bytesRx as real / length;
    QuotientCarries(a.bytesRx as real, length);
    assert Carried(q, length) == q * length;
    var rate := q * 8.0 / 1000000.0;
    assert rate == q * 0.000008;
    assert rate * length == (q * length) * 0.000008;
  }

  lemma SameMbitsIff(carried: real, overall: real, bytes: int, skipped: int)
    requires carried == Mbits(bytes - skipped) && overall == Mbits(bytes)
    ensures carried == overall <==> skipped == 0
  {
  }

  /**
   * The plot agrees with the overall figure, area under the stored points against overall rate times length,
   * exactly when no bytes fall into zero-length periods.
   */
  lemma PlotMatchesOverallIff(db: seq<seq<Stream>>)
    requires OverallOf(Fold(db)).Some?
    ensures |Fold(db).normalized| == |KeptDurations(db)|
    ensures Area(Fold(db).normalized, KeptDurations(db)) == OverallMbits(Fold(db)) <==> SkippedBytes(db) == 0
  {
    DataConserved(db);
    RateTimesLength(Fold(db));
    var area := Area(Fold(db).normalized, KeptDurations(db));
    SameMbitsIff(area, OverallMbits(Fold(db)), Fold(db).bytesRx, SkippedBytes(db));
  }

  // ----- time

  /** The script's input: entries with at least one stream, the very first one dated before the sentinel. */
  predicate Dated(db: seq<seq<Stream>>) {
    db != [] && (forall i :: 0 <= i < |db| ==> db[i] != []) && db[0][0].start < SENTINEL
  }

  lemma {:induction false} TimesAfterSet(a: Acc, entry: seq<Stream>)
    requires a.prevSet
    ensures var t := Times(a, entry);
      t.prevSet && t.prev == a.prev && t.max >= a.max && t.min <= a.min
  {
    if entry != [] {
      TimesAfterSet(a, entry[..|entry| - 1]);
    }
  }

  /** The first stream of the first entry fixes where the first period begins. */
  lemma {:induction false} FirstEntry(entry: seq<Stream>)
    requires entry != [] && entry[0].start < SENTINEL
    ensures Times(START, entry).prevSet && Times(START, entry).prev == entry[0].start
    ensures Times(START, entry).min <= entry[0].start
  {
    if |entry| == 1 {
      assert entry[..0] == [];
    } else {
      FirstEntry(entry[..|entry| - 1]);
    }
  }

  lemma DatedPrefix(db: seq<seq<Stream>>)
    requires Dated(db) && |db| > 1
    ensures Dated(db[..|db| - 1]) && db[..|db| - 1][0] == db[0]
  {
  }

  /** After any entry the next period starts at the latest end seen; the periods add up from the first start. */
  lemma {:induction false} DurationsTelescope(db: seq<seq<Stream>>)
    requires Dated(db)
    ensures Fold(db).prevSet && Fold(db).prev == Fold(db).max && Fold(db).min <= db[0][0].start
    ensures Durations(db) == Fold(db).max - db[0][0].start
  {
    var init, last := db[..|db| - 1], db[|db| - 1];
    if |db| == 1 {
      assert init == [];
      FirstEntry(last);
    } else {
      DatedPrefix(db);
      DurationsTelescope(init);
      TimesAfterSet(Fold(init), last);
    }
  }

  /** What an entry adds to the bytes of the entry before it. */
  function NewBytes(db: seq<seq<Stream>>): int
    requires db != []
  {
    Added(Column(db[|db| - 1])) - (if |db| == 1 then 0 else Added(Column(db[|db| - 2])))
  }

  /** What an entry adds to the time since the latest end before it, or since the first start. */
  function NewTime(db: seq<seq<Stream>>): int
    requires Dated(db)
  {
    Fold(db).max - (if |db| == 1 then db[0][0].start else Fold(db[..|db| - 1]).max)
  }

  lemma KeepsIff(period: (int, int))
    ensures Keeps(period) <==> period.0 != 0 && period.1 != 0
  {
  }

  lemma PeriodByInput(db: seq<seq<Stream>>)
    requires Dated(db)
    ensures LastPeriod(db) == (NewBytes(db), NewTime(db))
  {
    var init, last := db[..|db| - 1], db[|db| - 1];
    EntryBytesAdded(last);
    if |db| == 1 {
      assert init == [];
      FirstEntry(last);
    } else {
      DatedPrefix(db);
      DurationsTelescope(init);
      TimesAfterSet(Fold(init), last);
      FinalBytesAdded(init);
      assert init[|init| - 1] == db[|db| - 2];
    }
  }

  /** The points with one more: at this time, and of a height that carries these bytes over this duration. */
  ghost predicate OneMorePoint(points: seq<(real, real)>, points': seq<(real, real)>, at: int, bytes: int, time: int) {
    && |points'| == |points| + 1 && points'[..|points|] == points
    && points'[|points|].0 == Seconds(at) && Carried(points'[|points|].1, Seconds(time)) == Mbits(bytes)
  }

  lemma EntryPoint(a: Acc, entry: seq<Stream>, a': Acc, p: (int, int))
    requires a' == EntryStep(a, entry) && p == Period(a, entry)
    ensures !Keeps(p) ==> a'.normalized == a.normalized
    ensures Keeps(p) ==> OneMorePoint(a.normalized, a'.normalized, a'.max - a'.min, p.0, p.1)
  {
    TimesKeepBytes(a, entry);
    if Keeps(p) {
      QuotientCarries(Mbits(p.0), Seconds(p.1));
    }
  }

  /**
   * An entry adds one point exactly if it brought other bytes and a later end: the time since the earliest
   * start, and the Mbit it brought by the seconds it took.
   */
  lemma PointAdded(db: seq<seq<Stream>>)
    requires Dated(db)
    ensures NewBytes(db) == 0 || NewTime(db) == 0 ==> Fold(db).normalized == Fold(db[..|db| - 1]).normalized
    ensures NewBytes(db) != 0 && NewTime(db) != 0 ==>
              OneMorePoint(Fold(db[..|db| - 1]).normalized, Fold(db).normalized,
                           Fold(db).max - Fold(db).min, NewBytes(db), NewTime(db))
  {
    PeriodByInput(db);
    KeepsIff(LastPeriod(db));
    EntryPoint(Fold(db[..|db| - 1]), db[|db| - 1], Fold(db), LastPeriod(db));
  }

  lemma OverallLength(a: Acc)
    ensures OverallOf(a).None? <==> a.max == a.min
    ensures OverallOf(a).Some? ==> OverallOf(a).value.1 == Seconds(a.max - a.min)
  {
  }

  /**
   * The overall figures by the input: no figure exactly if the latest end is the earliest start; otherwise the
   * length is the time between them, and rate times length the last entry's bytes in Mbit.
   */
  lemma OverallByInput(db: seq<seq<Stream>>)
    requires db != []
    ensures OverallOf(Fold(db)).None? <==> Fold(db).max == Fold(db).min
    ensures OverallOf(Fold(db)).Some? ==>
              && OverallOf(Fold(db)).value.1 == Seconds(Fold(db).max - Fold(db).min)
              && OverallMbits(Fold(db)) == Mbits(Added(Column(db[|db| - 1])))
  {
    FinalBytesAdded(db);
    OverallLength(Fold(db));
    if OverallOf(Fold(db)).Some? {
      RateTimesLength(Fold(db));
    }
  }

  /**
   * Dates count microseconds, a million bits are 125000 bytes, and the initial minimum lies 3999 years of the
   * Gregorian calendar after the initial maximum.
   */
  lemma Units(k: int)
    ensures SENTINEL == (3999 * 365 + 3999 / 4 - 3999 / 100 + 3999 / 400) * 24 * 3600 * 1000000
    ensures Seconds(1000000 * k) == k as real && Mbits(125000 * k) == k as real
  {
  }

  lemma {:induction false} MinIsAStart(a: Acc, entry: seq<Stream>)
    ensures var t := Times(a, entry);
      t.min <= a.min && (forall i :: 0 <= i < |entry| ==> t.min <= entry[i].start)
  {
    if entry != [] {
      MinIsAStart(a, entry[..|entry| - 1]);
    }
  }

  /** `datetime_min` ends at or below every start in the input. */
  lemma {:induction false} MinBelowAllStarts(db: seq<seq<Stream>>)
    ensures forall i, j :: 0 <= i < |db| && 0 <= j < |db[i]| ==> Fold(db).min <= db[i][j].start
  {
    if db != [] {
      MinBelowAllStarts(db[..|db| - 1]);
      MinIsAStart(Fold(db[..|db| - 1]), db[|db| - 1]);
    }
  }

  /**
   * The periods together cover the measurement length exactly when the first stream of the first entry
   * is the one that started first; otherwise they are shorter.
   */
  lemma PeriodsCoverLengthIff(db: seq<seq<Stream>>)
    requires Dated(db)
    ensures var a := Fold(db);
      && Durations(db) <= a.max - a.min
      && (Durations(db) == a.max - a.min <==>
            forall i, j :: 0 <= i < |db| && 0 <= j < |db[i]| ==> db[0][0].start <= db[i][j].start)
  {
    DurationsTelescope(db);
    MinBelowAllStarts(db);
    MinAttained(db);
  }

  lemma {:induction false} TimesMinAttained(a: Acc, entry: seq<Stream>)
    ensures var t := Times(a, entry);
      t.min == a.min || exists i :: 0 <= i < |entry| && t.min == entry[i].start
  {
    if entry != [] {
      var n := |entry| - 1;
      TimesMinAttained(a, entry[..n]);
      var t := Times(a, entry);
      if t.min == entry[n].start {
      } else if t.min != a.min {
        var i :| 0 <= i < n && t.min == entry[..n][i].start;
        assert t.min == entry[i].start;
      }
    }
  }

  lemma {:induction false} MinAttained(db: seq<seq<Stream>>)
    ensures Fold(db).min == SENTINEL ||
            exists i, j :: 0 <= i < |db| && 0 <= j < |db[i]| && Fold(db).min == db[i][j].start
  {
    if db != [] {
      var n := |db| - 1;
      var a := Fold(db[..n]);
      MinAttained(db[..n]);
      TimesMinAttained(a, db[n]);
      if Fold(db).min == a.min && a.min != SENTINEL {
        var i, j :| 0 <= i < n && 0 <= j < |db[..n][i]| && a.min == db[..n][i][j].start;
        assert Fold(db).min == db[i][j].start;
      } else if Fold(db).min != a.min {
        var j :| 0 <= j < |db[n]| && Fold(db).min == db[n][j].start;
      }
    }
  }

  /** The plotted x values strictly increase. */
  lemma {:induction false} PlotIncreases(db: seq<seq<Stream>>)
    requires Dated(db)
    ensures var xs := Fold(db).normalized;
      && (forall i, j :: 0 <= i < j < |xs| ==> xs[i].0 < xs[j].0)
      && (forall i :: 0 <= i < |xs| ==> xs[i].0 <= Seconds(Fold(db).max - Fold(db).min))
  {
    var init, last := db[..|db| - 1], db[|db| - 1];
    if |db| == 1 {
      assert init == [];
      TimesKeepBytes(START, last);
    } else {
      DatedPrefix(db);
      PlotIncreases(init);
      DurationsTelescope(init);
      TimesKeepBytes(Fold(init), last);
      TimesAfterSet(Fold(init), last);
    }
  }
}
