/**
 * The record-level logic of the workflow script: the deterministic sample records it
 * inserts, the even-id price deltas it sends as a partial update, and the price check it
 * runs on what the store returns afterwards.
 *
 * Prices are whole cents. Python's `round(x, 2)` on a float is a parameter of type
 * `Rounding`: it takes the amount in tenths of a cent (every price expression here has at
 * most three decimals) and yields cents.
 */
module WorkflowRecords {
  import opened Wrappers
  import opened Decimal
  import opened Protocol

  /** `round(x, 2)` for an amount x given in tenths of a cent, yielding whole cents. */
  type Rounding = int -> int

  const RECORD_COUNT := 10

  /** One generated sample record; `created_at` (a wall-clock timestamp) is not modelled. */
  datatype Record = Record(
    id: int,
    name: string,
    value: int,
    description: string,
    category: string,
    price: int,
    inStock: bool)

  /** The record the generator builds for loop index i; `i * 10.99` dollars is `i * 10990` tenths of a cent. */
  function GeneratedRecord(i: nat, round: Rounding): Record {
    Record(
      i,
      "Product " + NatToString(i),
      i * 100,
      "Description for product " + NatToString(i),
      "Category " + NatToString(i % 3 + 1),
      round(i * 10990),
      i % 2 == 0)
  }

  /** The field rules every generated record obeys, stated in terms of its own id. */
  predicate FollowsFieldRules(r: Record, round: Rounding) {
    && r.id >= 1
    && r.name == "Product " + NatToString(r.id)
    && r.value == r.id * 100
    && r.description == "Description for product " + NatToString(r.id)
    && r.category == "Category " + NatToString(r.id % 3 + 1)
    && r.price == round(r.id * 10990)
    && r.inStock == (r.id % 2 == 0)
  }

  /** The loop that fills `sample_data["records"]`: ids 1..10 in order, each obeying the field rules. */
  method GenerateRecords(round: Rounding) returns (records: seq<Record>)
    ensures |records| == RECORD_COUNT
    ensures forall k :: 0 <= k < |records| ==> records[k].id == k + 1
    ensures forall k :: 0 <= k < |records| ==> FollowsFieldRules(records[k], round)
  {
    records := [];
    for i := 1 to RECORD_COUNT + 1
      invariant |records| == i - 1
      invariant forall k :: 0 <= k < |records| ==> records[k].id == k + 1
      invariant forall k :: 0 <= k < |records| ==> FollowsFieldRules(records[k], round)
    {
      var record := GeneratedRecord(i, round);
      records := records + [record];
    }
  }

  /** The field rules and the id pin a record down completely. */
  lemma FieldRulesDetermineRecord(r: Record, round: Rounding)
    requires FollowsFieldRules(r, round)
    ensures r == GeneratedRecord(r.id, round)
  {
  }

  /** The generated ids are strictly increasing, so no two records share the hash key. */
  lemma GeneratedIdsIncreasing(records: seq<Record>)
    requires forall k :: 0 <= k < |records| ==> records[k].id == k + 1
    ensures forall j, k :: 0 <= j < k < |records| ==> records[j].id < records[k].id
  {
  }

  /** Distinct records have distinct names and descriptions. */
  lemma GeneratedNamesDistinct(records: seq<Record>, round: Rounding)
    requires forall k :: 0 <= k < |records| ==> FollowsFieldRules(records[k], round)
    requires forall k :: 0 <= k < |records| ==> records[k].id == k + 1
    ensures forall j, k :: 0 <= j < k < |records| ==> records[j].name != records[k].name
    ensures forall j, k :: 0 <= j < k < |records| ==> records[j].description != records[k].description
  {
    forall j, k | 0 <= j < k < |records|
      ensures records[j].name != records[k].name
      ensures records[j].description != records[k].description
    {
      LabelInjective("Product ", j + 1, k + 1);
      LabelInjective("Description for product ", j + 1, k + 1);
    }
  }

  /** Categories cycle through "Category 1".."Category 3" with period three. */
  lemma GeneratedCategoriesCycle(r: Record, round: Rounding)
    requires FollowsFieldRules(r, round)
    ensures r.category in {"Category 1", "Category 2", "Category 3"}
    ensures r.category == "Category 1" <==> r.id % 3 == 0
  {
    var c := r.id % 3 + 1;
    assert NatToString(1) == "1" && NatToString(2) == "2" && NatToString(3) == "3";
    if c == 1 {
      assert r.category == "Category " + "1" == "Category 1";
    } else if c == 2 {
      assert r.category == "Category " + "2" == "Category 2";
    } else {
      assert r.category == "Category " + "3" == "Category 3";
    }
    LabelInjective("Category ", c, 1);
  }

  /** The JSON encoding of a price in cents. */
  function PriceJson(cents: int): Json {
    JNum(cents as real / 100.0)
  }

  /** The dict the generator builds for a record (without `created_at`). */
  function RecordRow(r: Record): Row {
    map[
      "id" := JNum(r.id as real),
      "name" := JStr(r.name),
      "value" := JNum(r.value as real),
      "description" := JStr(r.description),
      "category" := JStr(r.category),
      "price" := PriceJson(r.price),
      "in_stock" := JBool(r.inStock)]
  }

  const RECORD_KEYS: set<string> := {"id", "name", "value", "description", "category", "price", "in_stock"}

  /** The insert payload: one row per record, in order, each with the seven generated keys. */
  function RecordRows(records: seq<Record>): (rows: seq<Row>)
    ensures |rows| == |records|
    ensures forall k :: 0 <= k < |rows| ==> rows[k].Keys == RECORD_KEYS
    ensures forall k :: 0 <= k < |rows| ==> FetchedOf(rows[k]) == Some(Fetched(records[k].id, records[k].price))
  {
    seq(|records|, k requires 0 <= k < |records| => RowReadsBack(records[k]); RecordRow(records[k]))
  }

  /** A JSON number that is a whole number, as an int. */
  function WholeOf(j: Json): (n: Option<int>)
    ensures n.Some? ==> j == JNum(n.value as real)
  {
    if j.JNum? && j.x.Floor as real == j.x then Some(j.x.Floor) else None
  }

  /** A JSON price in dollars with at most two decimals, as cents. */
  function CentsOf(j: Json): (c: Option<int>)
    ensures c.Some? ==> j == PriceJson(c.value)
  {
    if j.JNum? && (j.x * 100.0).Floor as real == j.x * 100.0 then Some((j.x * 100.0).Floor) else None
  }

  /** The `id`/`price` view of a row, as the search with `get_attributes: ["id", "price"]` returns it. */
  function FetchedOf(row: Row): Option<Fetched> {
    if "id" in row && "price" in row && WholeOf(row["id"]).Some? && CentsOf(row["price"]).Some?
    then Some(Fetched(WholeOf(row["id"]).value, CentsOf(row["price"]).value))
    else None
  }

  lemma PriceReadsBack(cents: int)
    ensures CentsOf(PriceJson(cents)) == Some(cents)
  {
    var x := cents as real / 100.0;
    assert x * 100.0 == cents as real;
  }

  /** Reading the id and price back from a generated row gives the record's id and price. */
  lemma RowReadsBack(r: Record)
    ensures FetchedOf(RecordRow(r)) == Some(Fetched(r.id, r.price))
  {
    PriceReadsBack(r.price);
  }

  /** The ten records the insert request carries. */
  function SampleRecords(round: Rounding): seq<Record> {
    seq(RECORD_COUNT, k requires 0 <= k < RECORD_COUNT => GeneratedRecord(k + 1, round))
  }

  /** Whatever the generator loop returns equals `SampleRecords`. */
  lemma GeneratedAreSampleRecords(records: seq<Record>, round: Rounding)
    requires |records| == RECORD_COUNT
    requires forall k :: 0 <= k < |records| ==> records[k].id == k + 1
    requires forall k :: 0 <= k < |records| ==> FollowsFieldRules(records[k], round)
    ensures records == SampleRecords(round)
  {
    forall k | 0 <= k < RECORD_COUNT
      ensures records[k] == SampleRecords(round)[k]
    {
      FieldRulesDetermineRecord(records[k], round);
    }
  }

  // ---------------------------------------------------------------------------------------
  // Partial-update deltas

  /** A record as the `id`/`price` search returns it (price in cents). */
  datatype Fetched = Fetched(id: int, price: int)

  /** An update delta: it carries the hash key and the new price, nothing else. */
  datatype Delta = Delta(id: int, price: int)

  /** `id % 2 == 0`; with divisor 2 Python's floored `%` and Dafny's agree for every int. */
  predicate IsEven(id: int) {
    id % 2 == 0
  }

  /** `round(price * 1.1, 2)`: the price plus ten percent, from the stored price. */
  function Raised(price: int, round: Rounding): int {
    round(price * 11)
  }

  function DeltaFor(r: Fetched, round: Rounding): Delta {
    Delta(r.id, Raised(r.price, round))
  }

  /** The fetched records with an even id, in their order. */
  function Evens(records: seq<Fetched>): (e: seq<Fetched>)
    ensures |e| <= |records|
  {
    if records == [] then []
    else
      var last := records[|records| - 1];
      Evens(records[..|records| - 1]) + (if IsEven(last.id) then [last] else [])
  }

  /** The deltas the update sends: one per even-id record, in the same order. */
  function UpdateDeltas(records: seq<Fetched>, round: Rounding): (deltas: seq<Delta>)
    ensures |deltas| == |Evens(records)|
  {
    var e := Evens(records);
    seq(|e|, k requires 0 <= k < |e| => DeltaFor(e[k], round))
  }

  function DeltaRow(d: Delta): Row {
    map["id" := JNum(d.id as real), "price" := PriceJson(d.price)]
  }

  function DeltaRows(deltas: seq<Delta>): (rows: seq<Row>)
    ensures |rows| == |deltas|
    ensures forall k :: 0 <= k < |rows| ==> rows[k].Keys == {"id", "price"}
    ensures forall k :: 0 <= k < |rows| ==> FetchedOf(rows[k]) == Some(Fetched(deltas[k].id, deltas[k].price))
  {
    seq(|deltas|, k requires 0 <= k < |deltas| => PriceReadsBack(deltas[k].price); DeltaRow(deltas[k]))
  }

  /** The loop that fills `update_records`. */
  method BuildUpdateDeltas(records: seq<Fetched>, round: Rounding) returns (deltas: seq<Delta>)
    ensures deltas == UpdateDeltas(records, round)
  {
    deltas := [];
    for i := 0 to |records|
      invariant deltas == UpdateDeltas(records[..i], round)
    {
      var record := records[i];
      assert records[..i + 1][..i] == records[..i];
      if record.id % 2 == 0 {
        deltas := deltas + [DeltaFor(record, round)];
      }
    }
    assert records[..|records|] == records;
  }

  /** A record is selected exactly when it is in the input and its id is even. */
  lemma {:induction false} EvensMembers(records: seq<Fetched>, r: Fetched)
    ensures r in Evens(records) <==> r in records && IsEven(r.id)
  {
    if records != [] {
      var init := records[..|records| - 1];
      EvensMembers(init, r);
      assert records == init + [records[|records| - 1]];
    }
  }

  /** Selection keeps order: it distributes over concatenation. */
  lemma {:induction false} EvensConcat(a: seq<Fetched>, b: seq<Fetched>)
    ensures Evens(a + b) == Evens(a) + Evens(b)
  {
    if b == [] {
      assert a + b == a;
    } else {
      var init := b[..|b| - 1];
      EvensConcat(a, init);
      assert (a + b)[..|a + b| - 1] == a + init;
    }
  }

  /** No update request is built exactly when no fetched record has an even id. */
  lemma {:induction false} NoEvensNoDeltas(records: seq<Fetched>, round: Rounding)
    ensures UpdateDeltas(records, round) == [] <==> forall k :: 0 <= k < |records| ==> !IsEven(records[k].id)
  {
    if UpdateDeltas(records, round) == [] {
      forall k | 0 <= k < |records|
        ensures !IsEven(records[k].id)
      {
        EvensMembers(records, records[k]);
      }
    } else {
      var r := Evens(records)[0];
      EvensMembers(records, r);
    }
  }

  // ---------------------------------------------------------------------------------------
  // Validation

  /**
   * `round(id * 10.99 * 1.1, 2)`: the validator's expected price, computed from the id alone
   * (`id * 10.99` dollars raised by ten percent is `id * 12089` tenths of a cent).
   */
  function ExpectedPrice(id: int, round: Rounding): (e: int)
    ensures e == Raised(id * 1099, round)
  {
    round(id * 12089)
  }

  function Abs(x: int): nat {
    if x < 0 then -x else x
  }

  /** The record makes the validator return False: an even id whose price is off by more than a cent. */
  predicate Mismatch(r: Fetched, round: Rounding)
    ensures Mismatch(r, round) ==> IsEven(r.id) && r.price != ExpectedPrice(r.id, round)
  {
    IsEven(r.id) && Abs(r.price - ExpectedPrice(r.id, round)) > 1
  }

  predicate PricesValid(records: seq<Fetched>, round: Rounding) {
    forall k :: 0 <= k < |records| ==> !Mismatch(records[k], round)
  }

  /** The position of the first mismatching record, where the validator stops. */
  function FirstMismatch(records: seq<Fetched>, round: Rounding): (r: Option<nat>)
    ensures r.None? <==> PricesValid(records, round)
    ensures r.Some? ==> r.value < |records| && Mismatch(records[r.value], round)
    ensures r.Some? ==> forall k :: 0 <= k < r.value ==> !Mismatch(records[k], round)
  {
    if records == [] then None
    else if Mismatch(records[0], round) then Some(0)
    else match FirstMismatch(records[1..], round)
      case None => None
      case Some(k) => Some(k + 1)
  }

  /** Odd ids never fail the check, whatever their price. */
  lemma OddIdsNeverMismatch(id: int, price: int, round: Rounding)
    requires !IsEven(id)
    ensures !Mismatch(Fetched(id, price), round)
  {
  }

  /** The expected price ignores the stored price: two records with the same id are judged against one value. */
  lemma ExpectedIgnoresStoredPrice(id: int, p: int, q: int, round: Rounding)
    requires IsEven(id)
    ensures Mismatch(Fetched(id, p), round) <==> Abs(p - ExpectedPrice(id, round)) > 1
    ensures Abs(q - ExpectedPrice(id, round)) <= 1 ==> !Mismatch(Fetched(id, q), round)
  {
  }

  /**
   * Recomputing from the unrounded `id * 10.99` agrees with raising the stored generated price
   * whenever rounding an exact cent amount leaves it alone.
   */
  lemma UnroundedOriginalAgrees(id: nat, round: Rounding)
    requires round(id * 10990) == id * 1099
    ensures ExpectedPrice(id, round) == Raised(GeneratedRecord(id, round).price, round)
  {
  }

  // ---------------------------------------------------------------------------------------
  // End to end, against an idealised store

  /** The first delta for `id`, as a store applying a partial update by hash key would find it. */
  function FindDelta(deltas: seq<Delta>, id: int): Option<Delta> {
    if deltas == [] then None
    else if deltas[0].id == id then Some(deltas[0])
    else FindDelta(deltas[1..], id)
  }

  /** A store's partial-update semantics: a record with a delta takes its price, the rest stay unchanged. */
  function ApplyUpdate(stored: seq<Fetched>, deltas: seq<Delta>): (updated: seq<Fetched>)
    ensures |updated| == |stored|
  {
    seq(|stored|, k requires 0 <= k < |stored| =>
      match FindDelta(deltas, stored[k].id)
      case Some(d) => Fetched(stored[k].id, d.price)
      case None => stored[k])
  }

  predicate DistinctIds(records: seq<Fetched>) {
    forall j, k :: 0 <= j < k < |records| ==> records[j].id != records[k].id
  }

  lemma {:induction false} FindDeltaConcat(a: seq<Delta>, b: seq<Delta>, id: int)
    ensures FindDelta(a + b, id) == if FindDelta(a, id).Some? then FindDelta(a, id) else FindDelta(b, id)
  {
    if a != [] {
      assert (a + b)[1..] == a[1..] + b;
      FindDeltaConcat(a[1..], b, id);
    } else {
      assert a + b == b;
    }
  }

  lemma {:induction false} FindDeltaAbsent(deltas: seq<Delta>, id: int)
    requires forall k :: 0 <= k < |deltas| ==> deltas[k].id != id
    ensures FindDelta(deltas, id) == None
  {
    if deltas != [] {
      FindDeltaAbsent(deltas[1..], id);
    }
  }

  /** Every delta's id is the id of some selected record. */
  lemma DeltaIdsFromRecords(records: seq<Fetched>, round: Rounding, k: nat)
    requires k < |UpdateDeltas(records, round)|
    ensures exists j :: 0 <= j < |records| && records[j].id == UpdateDeltas(records, round)[k].id
  {
    var r := Evens(records)[k];
    EvensMembers(records, r);
  }

  /** With distinct ids, the delta found for a record is the one built from it (or none, for odd ids). */
  lemma {:induction false} FindOwnDelta(records: seq<Fetched>, round: Rounding, k: nat)
    requires DistinctIds(records) && k < |records|
    ensures FindDelta(UpdateDeltas(records, round), records[k].id)
            == if IsEven(records[k].id) then Some(DeltaFor(records[k], round)) else None
  {
    var n := |records|;
    var init := records[..n - 1];
    var last := records[n - 1];
    var tail := if IsEven(last.id) then [DeltaFor(last, round)] else [];
    assert UpdateDeltas(records, round) == UpdateDeltas(init, round) + tail;
    FindDeltaConcat(UpdateDeltas(init, round), tail, records[k].id);
    if k < n - 1 {
      FindOwnDelta(init, round, k);
    } else {
      forall j | 0 <= j < |UpdateDeltas(init, round)|
        ensures UpdateDeltas(init, round)[j].id != last.id
      {
        DeltaIdsFromRecords(init, round, j);
      }
      FindDeltaAbsent(UpdateDeltas(init, round), last.id);
    }
  }

  /** The id/price view of the generated records as the store holds them after the insert. */
  function StoredSample(round: Rounding): (stored: seq<Fetched>)
    ensures |stored| == RECORD_COUNT
    ensures forall k :: 0 <= k < RECORD_COUNT ==> stored[k].id == k + 1
    ensures forall k :: 0 <= k < RECORD_COUNT ==> stored[k].price == round((k + 1) * 10990)
    ensures DistinctIds(stored)
  {
    var sample := SampleRecords(round);
    seq(RECORD_COUNT, k requires 0 <= k < RECORD_COUNT => Fetched(sample[k].id, sample[k].price))
  }

  /** The stored view is what reading back the id and price of each inserted row gives. */
  lemma StoredSampleIsInsertedView(round: Rounding)
    ensures var rows := RecordRows(SampleRecords(round));
            |rows| == RECORD_COUNT &&
            forall k :: 0 <= k < RECORD_COUNT ==> FetchedOf(rows[k]) == Some(StoredSample(round)[k])
  {
  }

  predicate KeepsWholeCents(round: Rounding, id: int) {
    round(id * 10990) == id * 1099
  }

  /**
   * Insert, update and validate agree: after the deltas built from the freshly inserted sample
   * are applied, every even id carries the raised price, every odd id is unchanged, and the
   * validator passes, provided rounding leaves the exact generated prices alone.
   */
  lemma SampleUpdateValidates(round: Rounding)
    requires forall id :: 1 <= id <= RECORD_COUNT ==> KeepsWholeCents(round, id)
    ensures var stored := StoredSample(round);
            var updated := ApplyUpdate(stored, UpdateDeltas(stored, round));
            && (forall k :: 0 <= k < RECORD_COUNT && !IsEven(stored[k].id) ==> updated[k] == stored[k])
            && (forall k :: 0 <= k < RECORD_COUNT && IsEven(stored[k].id) ==>
                  updated[k] == Fetched(stored[k].id, Raised(stored[k].price, round)))
            && PricesValid(updated, round)
  {
    var stored := StoredSample(round);
    var updated := ApplyUpdate(stored, UpdateDeltas(stored, round));
    forall k | 0 <= k < RECORD_COUNT
      ensures IsEven(stored[k].id) ==> updated[k] == Fetched(stored[k].id, Raised(stored[k].price, round))
      ensures !IsEven(stored[k].id) ==> updated[k] == stored[k]
      ensures !Mismatch(updated[k], round)
    {
      FindOwnDelta(stored, round, k);
      assert KeepsWholeCents(round, k + 1);
    }
  }
}
