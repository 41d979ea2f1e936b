/**
 * The workflow script's orchestration: the `HarperWorkflow` object with its append-only
 * metrics log, one method per stage, and `RunWorkflow`, proved against `WorkflowRun`, the
 * specification of a whole run.
 *
 * Every response whose outcome the workflow looks at, every container-stats reading and the
 * clock are inputs (`Server`); every external call the workflow makes is returned, in order, as
 * an `Effect`.
 */
module Workflow {
  import opened Wrappers
  import opened Protocol
  import opened WorkflowRecords

  const CONTAINER_NAME := "harperdb"
  const METRICS_FILE := "/opt/harperdb/metrics/workflow_metrics.json"
  const STATS_PATH := "/table-stats/test_schema/test_table"

  /** The members of a container-stats reading the sample needs; `None` where a key is missing. */
  datatype ContainerStats = ContainerStats(
    cpuTotalUsage: Option<int>,
    memoryUsage: Option<int>,
    eth0: Option<Json>,
    blkioStats: Option<Json>)

  /** One stats read: the container runtime failed, or it answered at the clock reading `now`. */
  datatype Probe = Unavailable | Reading(stats: ContainerStats, now: string)

  /** A metrics sample, never changed once taken. */
  datatype Sample = Sample(
    timestamp: string,
    cpuUsage: int,
    memoryUsage: int,
    networkIo: Json,
    diskIo: Json)

  /** An external call: HTTP, a container-stats read, or writing the metrics file. */
  datatype Effect =
    | Http(call: Call)
    | ReadContainerStats(container: string)
    | WriteMetricsFile(path: string, samples: seq<Sample>)

  /** The answers to the calls whose outcome the workflow looks at, one per call site. */
  datatype Server = Server(
    health: Response<()>,
    createSchema: Response<()>,
    describeTable: Response<()>,
    insert: Response<()>,
    toUpdate: Response<seq<Fetched>>,
    updated: Response<seq<Fetched>>,
    tableStats: Response<()>,
    before: Probe,
    after: Probe)

  // ---------------------------------------------------------------------------------------
  // What each stage does, as functions of the answers it gets

  /** `validate_container`: the health endpoint answers exactly 200. */
  predicate ContainerReady(health: Response<()>) {
    health.Reply? && health.status == 200
  }

  /** The sample `collect_metrics` builds, or `None` when the read or any key lookup fails. */
  function SampleOf(p: Probe): (s: Option<Sample>)
    ensures s.Some? ==> p.Reading? && s.value.timestamp == p.now
    ensures s.Some? ==> Some(s.value.cpuUsage) == p.stats.cpuTotalUsage && Some(s.value.memoryUsage) == p.stats.memoryUsage
    ensures s.Some? ==> Some(s.value.networkIo) == p.stats.eth0 && Some(s.value.diskIo) == p.stats.blkioStats
    ensures s.None? ==> p.Unavailable? || p.stats.cpuTotalUsage.None? || p.stats.memoryUsage.None?
                        || p.stats.eth0.None? || p.stats.blkioStats.None?
  {
    match p
    case Unavailable => None
    case Reading(s, now) =>
      if s.cpuTotalUsage.Some? && s.memoryUsage.Some? && s.eth0.Some? && s.blkioStats.Some?
      then Some(Sample(now, s.cpuTotalUsage.value, s.memoryUsage.value, s.eth0.value, s.blkioStats.value))
      else None
  }

  function Collected(log: seq<Sample>, p: Probe): seq<Sample> {
    match SampleOf(p)
    case Some(s) => log + [s]
    case None => log
  }

  const HEALTH_CHECK := Http(Get("/health"))
  const CREATE_SCHEMA := Http(Post(CreateSchema(SCHEMA)))
  const CREATE_TABLE := Http(Post(CreateTable(SCHEMA, TABLE, "id")))
  const DESCRIBE_TABLE := Http(Post(DescribeTable(SCHEMA, TABLE)))
  const SEARCH_EVERYTHING := Http(Post(SearchAll(["*"])))
  const SEARCH_PRICES := Http(Post(SearchAll(["id", "price"])))
  const GET_TABLE_STATS := Http(Get(STATS_PATH))
  const READ_STATS := ReadContainerStats(CONTAINER_NAME)

  function InsertSample(round: Rounding): Effect {
    Http(Post(Insert(SCHEMA, TABLE, RecordRows(SampleRecords(round)))))
  }

  function UpdatePrices(deltas: seq<Delta>): Effect {
    Http(Post(Update(SCHEMA, TABLE, DeltaRows(deltas))))
  }

  /** `create_schema_and_table`: the table is created only after the schema request succeeds. */
  function SetupEffects(srv: Server): seq<Effect> {
    [CREATE_SCHEMA] + if Succeeds(srv.createSchema) then [CREATE_TABLE] else []
  }

  /** `load_test_data`: describe, then insert the sample, then read it all back; each needs the previous. */
  function LoadEffects(srv: Server, round: Rounding): seq<Effect> {
    [DESCRIBE_TABLE] +
    if !SucceedsWithJson(srv.describeTable) then []
    else [InsertSample(round)] + if Succeeds(srv.insert) then [SEARCH_EVERYTHING] else []
  }

  /** `update_data`: read ids and prices, then send the even-id deltas if there are any. */
  function UpdateEffects(srv: Server, round: Rounding): seq<Effect> {
    [SEARCH_PRICES] +
    if SucceedsWithJson(srv.toUpdate) && UpdateDeltas(srv.toUpdate.body.value, round) != []
    then [UpdatePrices(UpdateDeltas(srv.toUpdate.body.value, round))]
    else []
  }

  /** `validate_changes` returns True. */
  predicate ChangesValid(r: Response<seq<Fetched>>, round: Rounding) {
    SucceedsWithJson(r) && PricesValid(r.body.value, round)
  }

  /** `test_custom_component` returns True. */
  predicate ComponentOk(r: Response<()>) {
    SucceedsWithJson(r)
  }

  datatype Run = Run(effects: seq<Effect>, metrics: seq<Sample>)

  /** A whole `run_workflow`, from a metrics log `log`: the calls made and the log afterwards. */
  function WorkflowRun(srv: Server, round: Rounding, log: seq<Sample>): Run {
    if !ContainerReady(srv.health) then Run([HEALTH_CHECK], log)
    else
      var log1 := Collected(log, srv.before);
      var throughValidation :=
        [HEALTH_CHECK] + SetupEffects(srv) + [READ_STATS] + LoadEffects(srv, round)
        + UpdateEffects(srv, round) + [SEARCH_PRICES];
      if !ChangesValid(srv.updated, round) then Run(throughValidation, log1)
      else if !ComponentOk(srv.tableStats) then Run(throughValidation + [GET_TABLE_STATS], log1)
      else
        var log2 := Collected(log1, srv.after);
        Run(throughValidation + [GET_TABLE_STATS, READ_STATS, WriteMetricsFile(METRICS_FILE, log2)], log2)
  }

  // ---------------------------------------------------------------------------------------
  // The object

  class HarperWorkflow {
    /** `self.metrics`: the samples collected so far, oldest first. */
    var metrics: seq<Sample>

    constructor ()
      ensures metrics == []
    {
      metrics := [];
    }

    method ValidateContainer(health: Response<()>) returns (ready: bool, sent: seq<Effect>)
      ensures sent == [HEALTH_CHECK]
      ensures ready <==> health.Reply? && health.status == 200
    {
      sent := [HEALTH_CHECK];
      ready := health.Reply? && health.status == 200;
    }

    /** Errors are logged and swallowed: the method returns normally either way. */
    method CreateSchemaAndTable(srv: Server) returns (sent: seq<Effect>)
      ensures sent == SetupEffects(srv)
    {
      sent := [CREATE_SCHEMA];
      if !Succeeds(srv.createSchema) {
        return;
      }
      sent := sent + [CREATE_TABLE];
    }

    /**
     * Reads the container stats; on success appends exactly one sample and returns it, on any
     * failure leaves the log alone and returns the empty result.
     */
    method CollectMetrics(probe: Probe) returns (sample: Option<Sample>, sent: seq<Effect>)
      modifies this
      ensures sent == [READ_STATS]
      ensures sample == SampleOf(probe)
      ensures sample.Some? ==> metrics == old(metrics) + [sample.value]
      ensures sample.None? ==> metrics == old(metrics)
    {
      sent := [READ_STATS];
      sample := SampleOf(probe);
      if sample.Some? {
        metrics := metrics + [sample.value];
      }
    }

    method LoadTestData(srv: Server, round: Rounding) returns (sent: seq<Effect>)
      ensures sent == LoadEffects(srv, round)
    {
      sent := [DESCRIBE_TABLE];
      if !SucceedsWithJson(srv.describeTable) {
        return;
      }
      var records := GenerateRecords(round);
      GeneratedAreSampleRecords(records, round);
      sent := sent + [Http(Post(Insert(SCHEMA, TABLE, RecordRows(records))))];
      if !Succeeds(srv.insert) {
        return;
      }
      sent := sent + [SEARCH_EVERYTHING];
    }

    method UpdateData(srv: Server, round: Rounding) returns (sent: seq<Effect>)
      ensures sent == UpdateEffects(srv, round)
    {
      sent := [SEARCH_PRICES];
      if !SucceedsWithJson(srv.toUpdate) {
        return;
      }
      var deltas := BuildUpdateDeltas(srv.toUpdate.body.value, round);
      if deltas != [] {
        sent := sent + [UpdatePrices(deltas)];
      }
    }

    /**
     * Fails fast: returns False at the first even-id record whose price is more than a cent off;
     * `stop` is the index it stopped at.
     */
    method ValidateChanges(updated: Response<seq<Fetched>>, round: Rounding)
      returns (ok: bool, sent: seq<Effect>, ghost stop: Option<nat>)
      ensures sent == [SEARCH_PRICES]
      ensures ok <==> SucceedsWithJson(updated) && PricesValid(updated.body.value, round)
      ensures stop == if SucceedsWithJson(updated) then FirstMismatch(updated.body.value, round) else None
    {
      sent := [SEARCH_PRICES];
      if !SucceedsWithJson(updated) {
        return false, sent, None;
      }
      var records := updated.body.value;
      for i := 0 to |records|
        invariant forall k :: 0 <= k < i ==> !Mismatch(records[k], round)
      {
        var record := records[i];
        if record.id % 2 == 0 {
          var expected := round(record.id * 12089);
          if Abs(record.price - expected) > 1 {
            return false, sent, Some(i);
          }
        }
      }
      return true, sent, None;
    }

    method TestCustomComponent(stats: Response<()>) returns (ok: bool, sent: seq<Effect>)
      ensures sent == [GET_TABLE_STATS]
      ensures ok <==> SucceedsWithJson(stats)
    {
      sent := [GET_TABLE_STATS];
      ok := SucceedsWithJson(stats);
    }

    /** Writes the whole log to the metrics file (a write failure is logged and ignored). */
    method SaveMetrics() returns (sent: seq<Effect>)
      ensures sent == [WriteMetricsFile(METRICS_FILE, metrics)]
    {
      sent := [WriteMetricsFile(METRICS_FILE, metrics)];
    }

    method RunWorkflow(srv: Server, round: Rounding) returns (sent: seq<Effect>)
      modifies this
      ensures sent == WorkflowRun(srv, round, old(metrics)).effects
      ensures metrics == WorkflowRun(srv, round, old(metrics)).metrics
    {
      var ready, s := ValidateContainer(srv.health);
      sent := s;
      if !ready {
        return;
      }
      s := CreateSchemaAndTable(srv);
      sent := sent + s;
      var sample;
      sample, s := CollectMetrics(srv.before);
      sent := sent + s;
      assert metrics == Collected(old(metrics), srv.before);
      s := LoadTestData(srv, round);
      sent := sent + s;
      s := UpdateData(srv, round);
      sent := sent + s;
      var valid;
      ghost var stop;
      valid, s, stop := ValidateChanges(srv.updated, round);
      sent := sent + s;
      assert sent == [HEALTH_CHECK] + SetupEffects(srv) + [READ_STATS] + LoadEffects(srv, round)
                     + UpdateEffects(srv, round) + [SEARCH_PRICES];
      if !valid {
        return;
      }
      var componentOk;
      componentOk, s := TestCustomComponent(srv.tableStats);
      sent := sent + s;
      if !componentOk {
        return;
      }
      sample, s := CollectMetrics(srv.after);
      sent := sent + s;
      s := SaveMetrics();
      sent := sent + s;
    }
  }

  // ---------------------------------------------------------------------------------------
  // Properties of a run

  predicate IsDelete(e: Effect) {
    e.Http? && e.call.Post? && e.call.request.Delete?
  }

  predicate IsWrite(e: Effect) {
    e.WriteMetricsFile?
  }

  /** Gate one: a container that does not answer 200 stops the run before anything else. */
  lemma UnreadyContainerStopsEverything(srv: Server, round: Rounding, log: seq<Sample>)
    requires !ContainerReady(srv.health)
    ensures WorkflowRun(srv, round, log) == Run([HEALTH_CHECK], log)
  {
  }

  /** Gate two: failed validation skips the stats check, the final sample and the save. */
  lemma FailedValidationStopsRun(srv: Server, round: Rounding, log: seq<Sample>)
    requires ContainerReady(srv.health) && !ChangesValid(srv.updated, round)
    ensures var run := WorkflowRun(srv, round, log);
            && run.effects[|run.effects| - 1] == SEARCH_PRICES
            && GET_TABLE_STATS !in run.effects
            && (forall e :: e in run.effects ==> !IsWrite(e))
            && run.metrics == Collected(log, srv.before)
  {
    var run := WorkflowRun(srv, round, log);
    var pre := [HEALTH_CHECK] + SetupEffects(srv) + [READ_STATS] + LoadEffects(srv, round) + UpdateEffects(srv, round);
    assert run.effects == pre + [SEARCH_PRICES];
    assert forall e :: e in pre ==> !IsWrite(e) && e != GET_TABLE_STATS;
  }

  /** Gate three: a failed stats check skips the final sample and the save. */
  lemma FailedComponentStopsRun(srv: Server, round: Rounding, log: seq<Sample>)
    requires ContainerReady(srv.health) && ChangesValid(srv.updated, round) && !ComponentOk(srv.tableStats)
    ensures var run := WorkflowRun(srv, round, log);
            && run.effects[|run.effects| - 1] == GET_TABLE_STATS
            && (forall e :: e in run.effects ==> !IsWrite(e))
            && run.metrics == Collected(log, srv.before)
  {
    var run := WorkflowRun(srv, round, log);
    var pre := [HEALTH_CHECK] + SetupEffects(srv) + [READ_STATS] + LoadEffects(srv, round)
               + UpdateEffects(srv, round) + [SEARCH_PRICES];
    assert run.effects == pre + [GET_TABLE_STATS];
    assert forall e :: e in pre ==> !IsWrite(e);
  }

  /**
   * Not a gate: the answers to the setup, load and update calls never decide whether the
   * validation, the stats check, the final sample and the save happen, nor the final log.
   */
  lemma EarlyFailuresDoNotStop(s1: Server, s2: Server, round: Rounding, log: seq<Sample>)
    requires s1.health == s2.health && s1.updated == s2.updated && s1.tableStats == s2.tableStats
    requires s1.before == s2.before && s1.after == s2.after
    ensures WorkflowRun(s1, round, log).metrics == WorkflowRun(s2, round, log).metrics
    ensures var e1, e2 := WorkflowRun(s1, round, log).effects, WorkflowRun(s2, round, log).effects;
            (SEARCH_PRICES in e1 <==> SEARCH_PRICES in e2) && (GET_TABLE_STATS in e1 <==> GET_TABLE_STATS in e2)
            && e1[|e1| - 1] == e2[|e2| - 1]
    ensures ContainerReady(s1.health) ==> SEARCH_PRICES in WorkflowRun(s1, round, log).effects
  {
    var e1, e2 := WorkflowRun(s1, round, log).effects, WorkflowRun(s2, round, log).effects;
    if ContainerReady(s1.health) {
      assert SEARCH_PRICES in UpdateEffects(s1, round) && SEARCH_PRICES in UpdateEffects(s2, round);
      var pre1 := [HEALTH_CHECK] + SetupEffects(s1) + [READ_STATS] + LoadEffects(s1, round) + UpdateEffects(s1, round);
      var pre2 := [HEALTH_CHECK] + SetupEffects(s2) + [READ_STATS] + LoadEffects(s2, round) + UpdateEffects(s2, round);
      assert forall e :: e in pre1 ==> e != GET_TABLE_STATS;
      assert forall e :: e in pre2 ==> e != GET_TABLE_STATS;
    }
  }

  /** The workflow never issues a delete, wildcard or otherwise. */
  lemma NeverDeletes(srv: Server, round: Rounding, log: seq<Sample>)
    ensures forall e :: e in WorkflowRun(srv, round, log).effects ==> !IsDelete(e)
  {
  }

  /**
   * A completed run ends by writing the whole log, which holds exactly the samples collected
   * before and after, in that order; from a fresh object that is the two samples.
   */
  lemma CompletedRunSavesBothSamples(srv: Server, round: Rounding, log: seq<Sample>, pre: Sample, post: Sample)
    requires ContainerReady(srv.health) && ChangesValid(srv.updated, round) && ComponentOk(srv.tableStats)
    requires SampleOf(srv.before) == Some(pre) && SampleOf(srv.after) == Some(post)
    ensures var run := WorkflowRun(srv, round, log);
            && run.metrics == log + [pre, post]
            && run.effects[|run.effects| - 1] == WriteMetricsFile(METRICS_FILE, log + [pre, post])
            && run.effects[|run.effects| - 2] == READ_STATS
  {
  }

  /** The update request is issued exactly when some fetched record has an even id. */
  lemma UpdateSelectsEvens(srv: Server, round: Rounding)
    requires SucceedsWithJson(srv.toUpdate)
    ensures var records := srv.toUpdate.body.value;
            (forall k :: 0 <= k < |records| ==> !IsEven(records[k].id))
            <==> UpdateEffects(srv, round) == [SEARCH_PRICES]
  {
    var records := srv.toUpdate.body.value;
    NoEvensNoDeltas(records, round);
    if UpdateDeltas(records, round) != [] {
      assert |UpdateEffects(srv, round)| == 2;
    }
  }
}
