/**
 * The service test script: four tests against the store, the idempotent-setup rule that
 * lets a "create" answer "already exists", and the runner that runs every test and reports
 * their conjunction.
 */
module ServiceTests {
  import opened Wrappers
  import opened Protocol

  /** The JSON object of a create answer, reduced to its `error` member (`None` when absent). */
  datatype ErrorBody = ErrorBody(error: Option<string>)

  /** The answers to every call the four tests make, one per call site. */
  datatype Replies = Replies(
    health: Response<()>,
    createSchema: Response<ErrorBody>,
    describeSchema: Response<()>,
    createTable: Response<ErrorBody>,
    describeTable: Response<()>,
    delete: Response<()>,
    insert: Response<()>,
    search: Response<()>,
    tableStats: Response<()>)

  /** A test's verdict and the calls it made, in order. */
  datatype Outcome = Outcome(passed: bool, calls: seq<Call>)

  const ALREADY_EXISTS := "already exists"

  /** `part` sits in `text` at position i. */
  ghost predicate OccursAt(part: string, text: string, i: int) {
    0 <= i <= |text| - |part| && text[i..i + |part|] == part
  }

  /** Python's `part in text` for strings: `part` occurs somewhere in `text`. */
  ghost predicate Occurs(part: string, text: string) {
    exists i :: OccursAt(part, text, i)
  }

  /** A scan for `part` from the front of `text`. */
  function Contains(text: string, part: string): (b: bool)
    ensures b <==> Occurs(part, text)
    decreases |text|
  {
    if |text| < |part| then false
    else if text[..|part|] == part then
      assert OccursAt(part, text, 0);
      true
    else
      var rest := Contains(text[1..], part);
      assert rest ==> Occurs(part, text) by {
        if rest {
          var i :| OccursAt(part, text[1..], i);
          assert text[1..][i..i + |part|] == text[i + 1..i + 1 + |part|];
          assert OccursAt(part, text, i + 1);
        }
      }
      assert Occurs(part, text) ==> rest by {
        if Occurs(part, text) {
          var i :| OccursAt(part, text, i);
          assert i != 0;
          assert text[1..][i - 1..i - 1 + |part|] == text[i..i + |part|];
          assert OccursAt(part, text[1..], i - 1);
        }
      }
      rest
  }

  /** The tolerated conflict: status 400 and an `error` text (default "") containing "already exists". */
  predicate AlreadyExists(r: Response<ErrorBody>)
    ensures AlreadyExists(r) ==> r.Reply? && !Succeeds(r)
  {
    r.Reply? && r.status == 400 && r.body.Some? && Contains(r.body.value.error.GetOr(""), ALREADY_EXISTS)
  }

  /** A create step goes on: the conflict is tolerated, or `raise_for_status()` does not raise. */
  predicate CreateAccepted(r: Response<ErrorBody>)
    ensures CreateAccepted(r) ==> r.Reply?
    ensures Succeeds(r) ==> CreateAccepted(r)
  {
    AlreadyExists(r) || Succeeds(r)
  }

  /** Both directions of the setup rule. */
  lemma CreateAcceptedExactly(r: Response<ErrorBody>)
    ensures CreateAccepted(r) <==>
              r.Reply? &&
              ((r.status == 400 && r.body.Some? && r.body.value.error.Some? &&
                Occurs(ALREADY_EXISTS, r.body.value.error.value))
               || !(400 <= r.status < 600))
  {
    if r.Reply? && r.status == 400 && r.body.Some? && r.body.value.error.None? {
      AbsentErrorNeverTolerated(r);
    }
  }

  /** An answer without an `error` member is never tolerated: the default "" contains nothing. */
  lemma AbsentErrorNeverTolerated(r: Response<ErrorBody>)
    requires r.Reply? && r.body == Some(ErrorBody(None))
    ensures !AlreadyExists(r)
    ensures r.status == 400 ==> !CreateAccepted(r)
  {
    assert !Contains("", ALREADY_EXISTS);
  }

  /** Any other client or server error fails the step, whatever the body says. */
  lemma OtherErrorsFail(r: Response<ErrorBody>)
    requires r.Reply? && 400 <= r.status < 600 && r.status != 400
    ensures !CreateAccepted(r)
  {
  }

  // ---------------------------------------------------------------------------------------
  // The tests

  const HEALTH := Get("/health")
  const STATS := Get("/table-stats/test_schema/test_table")

  /** The two rows the table test inserts. */
  function TestRows(): seq<Row> {
    [map["id" := JNum(1.0), "name" := JStr("Test 1"), "value" := JNum(100.0)],
     map["id" := JNum(2.0), "name" := JStr("Test 2"), "value" := JNum(200.0)]]
  }

  /** The five steps of the table test, in their fixed order. */
  function TableRequests(): seq<Request> {
    [ CreateTable(SCHEMA, TABLE, "id"),
      DescribeTable(SCHEMA, TABLE),
      Delete(SCHEMA, TABLE, ["*"]),
      Insert(SCHEMA, TABLE, TestRows()),
      SearchAll(["*"]) ]
  }

  /** Whether each table step, if reached, goes on. */
  function TableStepOks(srv: Replies): (oks: seq<bool>)
    ensures |oks| == |TableRequests()|
  {
    [ CreateAccepted(srv.createTable),
      SucceedsWithJson(srv.describeTable),
      Succeeds(srv.delete),
      Succeeds(srv.insert),
      SucceedsWithJson(srv.search) ]
  }

  /** The number of leading steps that go on. */
  function PassedSteps(oks: seq<bool>): (n: nat)
    ensures n <= |oks|
    ensures forall k :: 0 <= k < n ==> oks[k]
    ensures n < |oks| ==> !oks[n]
  {
    if oks == [] || !oks[0] then 0 else 1 + PassedSteps(oks[1..])
  }

  /** The number of steps issued: the passed ones plus the first failing one, if any. */
  function IssuedSteps(oks: seq<bool>): (n: nat)
    ensures n <= |oks|
  {
    if PassedSteps(oks) < |oks| then PassedSteps(oks) + 1 else |oks|
  }

  /** A failing step is the last one issued, and every step before it went on. */
  lemma FirstFailureStopsTheTest(oks: seq<bool>, k: nat)
    requires k < |oks| && !oks[k] && forall j :: 0 <= j < k ==> oks[j]
    ensures IssuedSteps(oks) == k + 1
  {
  }

  method TestHealth(srv: Replies) returns (passed: bool, sent: seq<Call>)
    ensures sent == [HEALTH]
    ensures passed <==> Succeeds(srv.health)
  {
    sent := [HEALTH];
    passed := Succeeds(srv.health);
  }

  method TestSchemaOperations(srv: Replies) returns (passed: bool, sent: seq<Call>)
    ensures sent == if CreateAccepted(srv.createSchema)
                    then [Post(CreateSchema(SCHEMA)), Post(DescribeSchema(SCHEMA))]
                    else [Post(CreateSchema(SCHEMA))]
    ensures passed <==> CreateAccepted(srv.createSchema) && SucceedsWithJson(srv.describeSchema)
  {
    sent := [Post(CreateSchema(SCHEMA))];
    if !CreateAccepted(srv.createSchema) {
      return false, sent;
    }
    sent := sent + [Post(DescribeSchema(SCHEMA))];
    passed := SucceedsWithJson(srv.describeSchema);
  }

  /** Runs the five steps in order and stops at the first that fails; no later step is issued. */
  method TestTableOperations(srv: Replies) returns (passed: bool, sent: seq<Call>)
    ensures passed <==> forall k :: 0 <= k < |TableRequests()| ==> TableStepOks(srv)[k]
    ensures sent == Posts(TableRequests()[..IssuedSteps(TableStepOks(srv))])
  {
    var steps := TableRequests();
    ghost var oks := TableStepOks(srv);
    sent := [Post(steps[0])];
    if !CreateAccepted(srv.createTable) {
      FirstFailureStopsTheTest(oks, 0);
      return false, sent;
    }
    sent := sent + [Post(steps[1])];
    if !SucceedsWithJson(srv.describeTable) {
      FirstFailureStopsTheTest(oks, 1);
      return false, sent;
    }
    sent := sent + [Post(steps[2])];
    if !Succeeds(srv.delete) {
      FirstFailureStopsTheTest(oks, 2);
      return false, sent;
    }
    sent := sent + [Post(steps[3])];
    if !Succeeds(srv.insert) {
      FirstFailureStopsTheTest(oks, 3);
      return false, sent;
    }
    sent := sent + [Post(steps[4])];
    if !SucceedsWithJson(srv.search) {
      FirstFailureStopsTheTest(oks, 4);
      return false, sent;
    }
    assert PassedSteps(oks) == 5;
    return true, sent;
  }

  function Posts(requests: seq<Request>): (calls: seq<Call>)
    ensures |calls| == |requests|
    ensures forall k :: 0 <= k < |requests| ==> calls[k] == Post(requests[k])
  {
    seq(|requests|, k requires 0 <= k < |requests| => Post(requests[k]))
  }

  method TestCustomComponent(srv: Replies) returns (passed: bool, sent: seq<Call>)
    ensures sent == [STATS]
    ensures passed <==> SucceedsWithJson(srv.tableStats)
  {
    sent := [STATS];
    passed := SucceedsWithJson(srv.tableStats);
  }

  // ---------------------------------------------------------------------------------------
  // The runner

  const TEST_NAMES := ["Health Check", "Schema Operations", "Table Operations", "Custom Component"]

  /** What test number k (in the runner's list) yields. */
  function TestOutcome(k: nat, srv: Replies): Outcome
    requires k < |TEST_NAMES|
  {
    if k == 0 then Outcome(Succeeds(srv.health), [HEALTH])
    else if k == 1 then
      if CreateAccepted(srv.createSchema)
      then Outcome(SucceedsWithJson(srv.describeSchema), [Post(CreateSchema(SCHEMA)), Post(DescribeSchema(SCHEMA))])
      else Outcome(false, [Post(CreateSchema(SCHEMA))])
    else if k == 2 then
      Outcome(forall j :: 0 <= j < |TableRequests()| ==> TableStepOks(srv)[j],
              Posts(TableRequests()[..IssuedSteps(TableStepOks(srv))]))
    else Outcome(SucceedsWithJson(srv.tableStats), [STATS])
  }

  /** The calls of tests 0..n-1, in order. */
  function CallsOfFirst(n: nat, srv: Replies): seq<Call>
    requires n <= |TEST_NAMES|
  {
    if n == 0 then [] else CallsOfFirst(n - 1, srv) + TestOutcome(n - 1, srv).calls
  }

  /** One entry of the runner's list: the bound test method for index k. */
  method RunTest(k: nat, srv: Replies) returns (passed: bool, sent: seq<Call>)
    requires k < |TEST_NAMES|
    ensures Outcome(passed, sent) == TestOutcome(k, srv)
  {
    if k == 0 {
      passed, sent := TestHealth(srv);
    } else if k == 1 {
      passed, sent := TestSchemaOperations(srv);
    } else if k == 2 {
      passed, sent := TestTableOperations(srv);
    } else {
      passed, sent := TestCustomComponent(srv);
    }
  }

  /** Python's `all(...)` over the recorded results. */
  function AllPassed(results: seq<(string, bool)>): (b: bool)
    ensures b <==> forall k :: 0 <= k < |results| ==> results[k].1
  {
    if results == [] then true else results[0].1 && AllPassed(results[1..])
  }

  /**
   * Runs every test in the listed order, whatever the earlier ones did, records one
   * (name, result) per test, and passes exactly when every test passed.
   */
  method RunAllTests(srv: Replies) returns (results: seq<(string, bool)>, passed: bool, sent: seq<Call>)
    ensures |results| == |TEST_NAMES|
    ensures forall k :: 0 <= k < |results| ==> results[k] == (TEST_NAMES[k], TestOutcome(k, srv).passed)
    ensures sent == CallsOfFirst(|TEST_NAMES|, srv)
    ensures passed <==> forall k :: 0 <= k < |TEST_NAMES| ==> TestOutcome(k, srv).passed
  {
    results := [];
    sent := [];
    for k := 0 to |TEST_NAMES|
      invariant |results| == k
      invariant forall j :: 0 <= j < k ==> results[j] == (TEST_NAMES[j], TestOutcome(j, srv).passed)
      invariant sent == CallsOfFirst(k, srv)
    {
      var result, calls := RunTest(k, srv);
      results := results + [(TEST_NAMES[k], result)];
      sent := sent + calls;
    }
    passed := AllPassed(results);
  }

  /** Every test runs, in order: each test's calls appear as its own block, after the previous tests'. */
  lemma EveryTestRuns(srv: Replies, n: nat, k: nat)
    requires k < n <= |TEST_NAMES|
    ensures |TestOutcome(k, srv).calls| > 0
    ensures |CallsOfFirst(k + 1, srv)| <= |CallsOfFirst(n, srv)|
    ensures CallsOfFirst(n, srv)[|CallsOfFirst(k, srv)|..|CallsOfFirst(k + 1, srv)|] == TestOutcome(k, srv).calls
  {
    PrefixOfLonger(srv, k + 1, n);
    var whole, upTo := CallsOfFirst(n, srv), CallsOfFirst(k + 1, srv);
    assert upTo == CallsOfFirst(k, srv) + TestOutcome(k, srv).calls;
    assert whole[|CallsOfFirst(k, srv)|..|upTo|] == upTo[|CallsOfFirst(k, srv)|..];
  }

  lemma {:induction false} PrefixOfLonger(srv: Replies, m: nat, n: nat)
    requires m <= n <= |TEST_NAMES|
    ensures |CallsOfFirst(m, srv)| <= |CallsOfFirst(n, srv)|
    ensures CallsOfFirst(n, srv)[..|CallsOfFirst(m, srv)|] == CallsOfFirst(m, srv)
  {
    if m < n {
      PrefixOfLonger(srv, m, n - 1);
    }
  }
}
