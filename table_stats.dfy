/**
 * The table-statistics endpoint of the custom component: a fold over the records a query
 * returns that keeps, per field, numeric stats (min, max, sum, avg) or string stats (total
 * length and the first few values), with the tracked fields fixed by the first record.
 *
 * JavaScript numbers are `real`s here; records are JSON objects (`Row`).
 */
module TableStats {
  import opened Wrappers
  import opened Protocol

  datatype NumericStats = NumericStats(min: real, max: real, sum: real, avg: real)
  datatype StringStats = StringStats(totalLength: nat, sampleValues: seq<string>)
  datatype Stats = Stats(
    totalRecords: nat,
    numericFields: map<string, NumericStats>,
    stringFields: map<string, StringStats>)

  /** What the query gives: it throws, or returns a value that is an array of records or is not. */
  datatype QueryResult = Thrown(message: string) | NotAnArray | Records(rows: seq<Row>)

  /** The endpoint's JSON: `{success: true, stats}`, or status 500 with `{success: false, error}`. */
  datatype Reply = Success(stats: Stats) | Failure(error: string)

  const MAX_SAMPLES := 5
  const INVALID_DATA := "Invalid table data"

  // ---------------------------------------------------------------------------------------
  // The reference definitions

  /** The number values of `field`, record by record (`typeof value === 'number'`). */
  function NumbersOf(rows: seq<Row>, field: string): (xs: seq<real>)
    ensures TracksNumber(rows, field) ==> |xs| > 0 && xs[0] == rows[0][field].x
  {
    if rows == [] then []
    else
      var last := rows[|rows| - 1];
      NumbersOf(rows[..|rows| - 1], field) + if field in last && last[field].JNum? then [last[field].x] else []
  }

  /** The string values of `field`, record by record (`typeof value === 'string'`). */
  function StringsOf(rows: seq<Row>, field: string): (ss: seq<string>)
    ensures TracksString(rows, field) ==> |ss| > 0 && ss[0] == rows[0][field].s
  {
    if rows == [] then []
    else
      var last := rows[|rows| - 1];
      StringsOf(rows[..|rows| - 1], field) + if field in last && last[field].JStr? then [last[field].s] else []
  }

  /** The first record holds a number (a string) under `field`: the field is tracked as numeric (string). */
  predicate TracksNumber(rows: seq<Row>, field: string) {
    |rows| > 0 && field in rows[0] && rows[0][field].JNum?
  }

  predicate TracksString(rows: seq<Row>, field: string) {
    |rows| > 0 && field in rows[0] && rows[0][field].JStr?
  }

  function Sum(xs: seq<real>): real {
    if xs == [] then 0.0 else Sum(xs[..|xs| - 1]) + xs[|xs| - 1]
  }

  /** `Math.min` and `Math.max` of two numbers. */
  function Smaller(a: real, b: real): real {
    if b < a then b else a
  }

  function Larger(a: real, b: real): real {
    if b > a then b else a
  }

  function Min(xs: seq<real>): real
    requires |xs| > 0
  {
    if |xs| == 1 then xs[0] else Smaller(Min(xs[..|xs| - 1]), xs[|xs| - 1])
  }

  function Max(xs: seq<real>): real
    requires |xs| > 0
  {
    if |xs| == 1 then xs[0] else Larger(Max(xs[..|xs| - 1]), xs[|xs| - 1])
  }

  function TotalLength(ss: seq<string>): nat {
    if ss == [] then 0 else TotalLength(ss[..|ss| - 1]) + |ss[|ss| - 1]|
  }

  function Take<T>(xs: seq<T>, n: nat): seq<T> {
    if |xs| <= n then xs else xs[..n]
  }

  /** The index of the last record holding a number under `field`, or -1. */
  function LastNumberAt(rows: seq<Row>, field: string): (k: int)
    ensures -1 <= k < |rows|
    ensures TracksNumber(rows, field) ==> k >= 0
    ensures k >= 0 ==> field in rows[k] && rows[k][field].JNum?
    ensures forall j :: k < j < |rows| ==> !(field in rows[j] && rows[j][field].JNum?)
  {
    if rows == [] then -1
    else
      var last := rows[|rows| - 1];
      if field in last && last[field].JNum? then |rows| - 1 else LastNumberAt(rows[..|rows| - 1], field)
  }

  /**
   * A numeric field's stats: min, max and sum over its number values; avg is the sum divided
   * by one plus the index of the last record that updated it.
   */
  function NumericOf(rows: seq<Row>, field: string): NumericStats
    requires TracksNumber(rows, field)
  {
    var xs := NumbersOf(rows, field);
    NumericStats(Min(xs), Max(xs), Sum(xs), Sum(xs) / (LastNumberAt(rows, field) + 1) as real)
  }

  /** A string field's stats: the total length of its values and the first five of them. */
  function StringOf(rows: seq<Row>, field: string): StringStats {
    var ss := StringsOf(rows, field);
    StringStats(TotalLength(ss), Take(ss, MAX_SAMPLES))
  }

  function NumericFields(rows: seq<Row>): set<string> {
    if rows == [] then {} else set f | f in rows[0] && rows[0][f].JNum?
  }

  function StringFields(rows: seq<Row>): set<string> {
    if rows == [] then {} else set f | f in rows[0] && rows[0][f].JStr?
  }

  /** The stats of the records, field by field. */
  function StatsOf(rows: seq<Row>): (st: Stats)
    ensures st.totalRecords == |rows|
    ensures st.numericFields.Keys !! st.stringFields.Keys
  {
    Stats(
      |rows|,
      map f | f in NumericFields(rows) :: NumericOf(rows, f),
      map f | f in StringFields(rows) :: StringOf(rows, f))
  }

  // ---------------------------------------------------------------------------------------
  // One record more

  /**
   * The update a number x in record `index` makes: min and max via `Math.min`/`Math.max`,
   * `sum += x`, and `avg = sum / (index + 1)`.
   */
  function NumberAdded(o: NumericStats, x: real, index: nat): (r: NumericStats)
    ensures r.min <= o.min && r.min <= x && o.max <= r.max && x <= r.max
    ensures r.min in {o.min, x} && r.max in {o.max, x}
    ensures r.sum == o.sum + x && r.avg * (index + 1) as real == r.sum
  {
    NumericStats(Smaller(o.min, x), Larger(o.max, x), o.sum + x, (o.sum + x) / (index + 1) as real)
  }

  /** The update a string s makes: its length is added, and it is sampled while fewer than five are. */
  function StringAdded(o: StringStats, s: string): (r: StringStats)
    ensures r.totalLength == o.totalLength + |s|
    ensures o.sampleValues <= r.sampleValues
    ensures |o.sampleValues| <= MAX_SAMPLES ==> |r.sampleValues| <= MAX_SAMPLES
    ensures |o.sampleValues| < MAX_SAMPLES <==> r.sampleValues == o.sampleValues + [s]
  {
    StringStats(o.totalLength + |s|,
                if |o.sampleValues| < MAX_SAMPLES then o.sampleValues + [s] else o.sampleValues)
  }

  lemma FirstRecordStats(rows: seq<Row>, field: string)
    requires |rows| == 1
    ensures TracksNumber(rows, field) ==>
              var v := rows[0][field].x; NumericOf(rows, field) == NumericStats(v, v, v, v)
    ensures TracksString(rows, field) ==>
              var v := rows[0][field].s; StringOf(rows, field) == StringStats(|v|, [v])
  {
    assert rows[..0] == [];
    if TracksNumber(rows, field) {
      var v := rows[0][field].x;
      assert NumbersOf(rows, field) == [v];
      assert Sum([v]) == Sum([v][..0]) + v == v;
    }
    if TracksString(rows, field) {
      var v := rows[0][field].s;
      assert StringsOf(rows, field) == [v];
      assert TotalLength([v]) == TotalLength([v][..0]) + |v| == |v|;
    }
  }

  /** Record `index`'s value for `f` applied to a numeric field's stats (a non-number leaves them). */
  predicate StepOf(record: Row, index: nat, f: string, before: NumericStats, after: NumericStats) {
    after == if f in record && record[f].JNum? then NumberAdded(before, record[f].x, index) else before
  }

  predicate StringStepOf(record: Row, f: string, before: StringStats, after: StringStats) {
    after == if f in record && record[f].JStr? then StringAdded(before, record[f].s) else before
  }

  /** What a later record does to a numeric field's stats: the fold step of the endpoint. */
  lemma NumericStep(rows: seq<Row>, i: nat, field: string)
    requires 1 <= i < |rows| && TracksNumber(rows, field)
    ensures TracksNumber(rows[..i], field) && TracksNumber(rows[..i + 1], field)
    ensures StepOf(rows[i], i, field, NumericOf(rows[..i], field), NumericOf(rows[..i + 1], field))
  {
    var init, upTo := rows[..i], rows[..i + 1];
    assert upTo[..i] == init && upTo[i] == rows[i];
    var xs := NumbersOf(init, field);
    var last := rows[i];
    if field in last && last[field].JNum? {
      var ys := xs + [last[field].x];
      assert NumbersOf(upTo, field) == ys;
      assert ys[..|ys| - 1] == xs;
    } else {
      assert NumbersOf(upTo, field) == xs;
    }
  }

  /** What a later record does to a string field's stats. */
  lemma StringStep(rows: seq<Row>, i: nat, field: string)
    requires 1 <= i < |rows|
    ensures StringStepOf(rows[i], field, StringOf(rows[..i], field), StringOf(rows[..i + 1], field))
  {
    var init, upTo := rows[..i], rows[..i + 1];
    assert upTo[..i] == init && upTo[i] == rows[i];
    var ss := StringsOf(init, field);
    var last := rows[i];
    if field in last && last[field].JStr? {
      var ts := ss + [last[field].s];
      assert StringsOf(upTo, field) == ts;
      assert ts[..|ts| - 1] == ss;
      if |ss| >= MAX_SAMPLES {
        assert ts[..MAX_SAMPLES] == ss[..MAX_SAMPLES];
      }
    } else {
      assert StringsOf(upTo, field) == ss;
    }
  }

  // ---------------------------------------------------------------------------------------
  // The endpoint

  /** The fold state after the records `rows[..n]`: every tracked field holds its stats so far. */
  predicate FoldedUpTo(rows: seq<Row>, n: nat, numeric: map<string, NumericStats>, strings: map<string, StringStats>)
    requires 1 <= n <= |rows|
  {
    && numeric.Keys == NumericFields(rows)
    && strings.Keys == StringFields(rows)
    && (forall f :: f in numeric ==> numeric[f] == NumericOf(rows[..n], f))
    && (forall f :: f in strings ==> strings[f] == StringOf(rows[..n], f))
  }

  lemma FoldedIsStats(rows: seq<Row>, numeric: map<string, NumericStats>, strings: map<string, StringStats>)
    requires |rows| > 0 && FoldedUpTo(rows, |rows|, numeric, strings)
    ensures Stats(|rows|, numeric, strings) == StatsOf(rows)
  {
    assert rows[..|rows|] == rows;
    var expected := StatsOf(rows);
    assert numeric == expected.numericFields;
    assert strings == expected.stringFields;
  }

  /** The `forEach` over the first record's keys: it fixes the tracked fields and their first stats. */
  method InitFields(rows: seq<Row>) returns (numeric: map<string, NumericStats>, strings: map<string, StringStats>)
    requires |rows| > 0
    ensures FoldedUpTo(rows, 1, numeric, strings)
  {
    numeric, strings := map[], map[];
    var first := rows[0];
    var pending := first.Keys;
    while pending != {}
      invariant pending <= first.Keys
      invariant numeric.Keys == set f | f in first.Keys - pending && first[f].JNum?
      invariant strings.Keys == set f | f in first.Keys - pending && first[f].JStr?
      invariant forall f :: f in numeric ==> numeric[f] == NumericOf(rows[..1], f)
      invariant forall f :: f in strings ==> strings[f] == StringOf(rows[..1], f)
      decreases pending
    {
      var field :| field in pending;
      var value := first[field];
      FirstRecordStats(rows[..1], field);
      if value.JNum? {
        numeric := numeric[field := NumericStats(value.x, value.x, value.x, value.x)];
      } else if value.JStr? {
        strings := strings[field := StringStats(|value.s|, [value.s])];
      }
      pending := pending - {field};
    }
  }

  /** The `forEach` over the keys of record i > 0: number and string values update their tracked fields. */
  method AddRecord(rows: seq<Row>, i: nat, numeric0: map<string, NumericStats>, strings0: map<string, StringStats>)
    returns (numeric: map<string, NumericStats>, strings: map<string, StringStats>)
    requires 1 <= i < |rows| && FoldedUpTo(rows, i, numeric0, strings0)
    ensures FoldedUpTo(rows, i + 1, numeric, strings)
  {
    var record := rows[i];
    numeric, strings := numeric0, strings0;
    var pending := record.Keys;
    while pending != {}
      invariant pending <= record.Keys
      invariant numeric.Keys == numeric0.Keys && strings.Keys == strings0.Keys
      invariant forall f :: f in numeric ==>
                  if f in pending then numeric[f] == numeric0[f] else StepOf(record, i, f, numeric0[f], numeric[f])
      invariant forall f :: f in strings ==>
                  if f in pending then strings[f] == strings0[f] else StringStepOf(record, f, strings0[f], strings[f])
      decreases pending
    {
      var field :| field in pending;
      var value := record[field];
      if value.JNum? && field in numeric {
        numeric := numeric[field := NumberAdded(numeric[field], value.x, i)];
      } else if value.JStr? && field in strings {
        strings := strings[field := StringAdded(strings[field], value.s)];
      }
      pending := pending - {field};
    }
    FoldStep(rows, i, numeric0, strings0, numeric, strings);
  }

  /** Applying record i's values to the stats after `rows[..i]` gives the stats after `rows[..i + 1]`. */
  lemma FoldStep(rows: seq<Row>, i: nat,
                 numeric0: map<string, NumericStats>, strings0: map<string, StringStats>,
                 numeric: map<string, NumericStats>, strings: map<string, StringStats>)
    requires 1 <= i < |rows| && FoldedUpTo(rows, i, numeric0, strings0)
    requires numeric.Keys == numeric0.Keys && strings.Keys == strings0.Keys
    requires forall f :: f in numeric ==> StepOf(rows[i], i, f, numeric0[f], numeric[f])
    requires forall f :: f in strings ==> StringStepOf(rows[i], f, strings0[f], strings[f])
    ensures FoldedUpTo(rows, i + 1, numeric, strings)
  {
    forall f | f in numeric0
      ensures TracksNumber(rows[..i + 1], f) && numeric[f] == NumericOf(rows[..i + 1], f)
    {
      NumericStep(rows, i, f);
    }
    forall f | f in strings0
      ensures strings[f] == StringOf(rows[..i + 1], f)
    {
      StringStep(rows, i, f);
    }
  }

  /** `getTableStats`: checks the query result, then folds over the records. */
  method GetTableStats(result: QueryResult) returns (reply: Reply)
    ensures result.Thrown? ==> reply == Failure(result.message)
    ensures result.NotAnArray? ==> reply == Failure(INVALID_DATA)
    ensures result.Records? ==> reply == Success(StatsOf(result.rows))
  {
    if result.Thrown? {
      return Failure(result.message);
    }
    if result.NotAnArray? {
      return Failure(INVALID_DATA);
    }
    var rows := result.rows;
    var numeric: map<string, NumericStats> := map[];
    var strings: map<string, StringStats> := map[];
    if |rows| > 0 {
      numeric, strings := InitFields(rows);
      for i := 1 to |rows|
        invariant FoldedUpTo(rows, i, numeric, strings)
      {
        numeric, strings := AddRecord(rows, i, numeric, strings);
      }
      assert rows[..|rows|] == rows;
      FoldedIsStats(rows, numeric, strings);
    }
    return Success(Stats(|rows|, numeric, strings));
  }

  // ---------------------------------------------------------------------------------------
  // Properties of the stats

  /** An empty table has no tracked fields. */
  lemma EmptyTableHasNoFields()
    ensures StatsOf([]) == Stats(0, map[], map[])
  {
  }

  /** The tracked fields are exactly the first record's number-typed and string-typed keys. */
  lemma TrackedFieldsFromFirstRecord(rows: seq<Row>)
    requires |rows| > 0
    ensures StatsOf(rows).totalRecords == |rows|
    ensures forall f :: f in StatsOf(rows).numericFields <==> f in rows[0] && rows[0][f].JNum?
    ensures forall f :: f in StatsOf(rows).stringFields <==> f in rows[0] && rows[0][f].JStr?
  {
  }

  /** Later records never add fields. */
  lemma LaterRecordsAddNoFields(rows: seq<Row>, record: Row)
    requires |rows| > 0
    ensures StatsOf(rows + [record]).numericFields.Keys == StatsOf(rows).numericFields.Keys
    ensures StatsOf(rows + [record]).stringFields.Keys == StatsOf(rows).stringFields.Keys
  {
    assert (rows + [record])[0] == rows[0];
  }

  /** A non-number under a numeric field leaves its stats as they were. */
  lemma NonNumberIgnored(rows: seq<Row>, record: Row, f: string)
    requires TracksNumber(rows, f) && !(f in record && record[f].JNum?)
    ensures TracksNumber(rows + [record], f)
    ensures NumericOf(rows + [record], f) == NumericOf(rows, f)
  {
    var all := rows + [record];
    assert all[..|rows|] == rows && all[..|rows| + 1] == all && all[|rows|] == record;
    NumericStep(all, |rows|, f);
  }

  /** A non-string under a string field leaves its stats as they were. */
  lemma NonStringIgnored(rows: seq<Row>, record: Row, f: string)
    requires |rows| > 0 && !(f in record && record[f].JStr?)
    ensures StringOf(rows + [record], f) == StringOf(rows, f)
  {
    var all := rows + [record];
    assert all[..|rows|] == rows && all[..|rows| + 1] == all && all[|rows|] == record;
    StringStep(all, |rows|, f);
  }

  lemma {:induction false} MinMaxBound(xs: seq<real>)
    requires |xs| > 0
    ensures forall k :: 0 <= k < |xs| ==> Min(xs) <= xs[k] <= Max(xs)
    ensures Min(xs) in xs && Max(xs) in xs
  {
    if |xs| > 1 {
      var init := xs[..|xs| - 1];
      MinMaxBound(init);
      assert forall k :: 0 <= k < |init| ==> xs[k] == init[k];
    }
  }

  /** Every number value of a numeric field lies between its min and its max, which are such values. */
  lemma NumericBounds(rows: seq<Row>, f: string)
    requires TracksNumber(rows, f)
    ensures var st, xs := NumericOf(rows, f), NumbersOf(rows, f);
            && (forall k :: 0 <= k < |xs| ==> st.min <= xs[k] <= st.max)
            && st.min in xs && st.max in xs
  {
    MinMaxBound(NumbersOf(rows, f));
  }

  /** When the last record holds a number under the field, `avg` is `sum` over the record count. */
  lemma AvgAfterUpdate(rows: seq<Row>, f: string)
    requires TracksNumber(rows, f)
    requires f in rows[|rows| - 1] && rows[|rows| - 1][f].JNum?
    ensures NumericOf(rows, f).avg == NumericOf(rows, f).sum / |rows| as real
  {
  }

  /**
   * `avg` divides by the record index, not by the number of values: a record lacking the field
   * between two that have it still counts.
   */
  lemma AvgCountsRecordsNotValues()
    ensures var rows: seq<Row> := [map["p" := JNum(2.0)], map[], map["p" := JNum(4.0)]];
            && TracksNumber(rows, "p")
            && NumericOf(rows, "p").avg == 2.0
            && Sum(NumbersOf(rows, "p")) / |NumbersOf(rows, "p")| as real == 3.0
  {
    var rows: seq<Row> := [map["p" := JNum(2.0)], map[], map["p" := JNum(4.0)]];
    var r1, r2 := rows[..1], rows[..2];
    assert r2[..1] == r1 && r1[..0] == [] && rows[..2] == r2;
    assert NumbersOf(r1, "p") == [2.0];
    assert NumbersOf(r2, "p") == [2.0];
    assert NumbersOf(rows, "p") == [2.0, 4.0];
    assert [2.0, 4.0][..1] == [2.0] && [2.0][..0] == [];
    assert Sum([2.0, 4.0]) == 6.0;
    assert LastNumberAt(rows, "p") == 2;
  }

  /** The sampled values are the field's first (at most five) string values, in record order. */
  lemma SampleValuesArePrefix(rows: seq<Row>, f: string)
    ensures var st, ss := StringOf(rows, f), StringsOf(rows, f);
            && |st.sampleValues| <= MAX_SAMPLES
            && |st.sampleValues| == (if |ss| < MAX_SAMPLES then |ss| else MAX_SAMPLES)
            && st.sampleValues == ss[..|st.sampleValues|]
            && st.totalLength == TotalLength(ss)
  {
  }
}
