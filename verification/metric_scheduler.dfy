/** The custom metric scheduler and collector (internal/agent/custom_metric_scheduler.go,
    internal/agent/custom_metric_collector.go). The registry is replaced and samples are drained by
    other goroutines, so every method here may be followed by any other. */
module MetricScheduler {
  import opened Basics
  import opened MetricRegistry

  type Duration = int

  const SECOND := 1_000_000_000
  const CUSTOM_METRIC_MAXIMUM_AGE := 60 * SECOND
  const CUSTOM_METRIC_CONCURRENCY := 4
  const CUSTOM_METRIC_MINIMUM_BACKOFF := 5 * SECOND
  const CUSTOM_METRIC_MAXIMUM_BACKOFF := 60 * SECOND

  datatype Job = Job(name: string, version: nat)

  datatype Sample = Sample(value: real, completedAt: Instant, version: nat, run: nat)

  datatype Outcome = Value(value: real) | Failure | Canceled

  datatype Result = Result(job: Job, outcome: Outcome, completedAt: Instant, run: nat)

  datatype State = State(metric: Registered, next: Instant, backoff: Duration)

  /** How far the value of one run got. */
  datatype Stage = Executing | Queued | Stored | Drained

  function JobOf(metric: Registered): Job {
    Job(metric.definition.name, metric.version)
  }

  /** One run: the metric that was executed, where it is, and what it produced. */
  datatype Run = Run(metric: Registered, stage: Stage, produced: Option<real>)

  // ---- the collector

  predicate CurrentSample(versions: map<string, nat>, name: string, sample: Sample, now: Instant) {
    && name in versions && sample.version == versions[name]
    && sample.completedAt <= now && now - sample.completedAt < CUSTOM_METRIC_MAXIMUM_AGE
  }

  function CurrentSamples(versions: map<string, nat>, samples: map<string, Sample>, now: Instant): map<string, Sample> {
    map name | name in samples && CurrentSample(versions, name, samples[name], now) :: samples[name]
  }

  ghost predicate SampleOk(runs: map<nat, Run>, named: map<nat, Definition>, name: string, sample: Sample) {
    && sample.run in runs && runs[sample.run].stage == Stored && runs[sample.run].produced == Some(sample.value)
    && JobOf(runs[sample.run].metric) == Job(name, sample.version) && Named(named, runs[sample.run].metric)
  }

  /** The runs of the returned samples have been handed out, all others have not moved. */
  ghost function MarkDrained(runs: map<nat, Run>, values: map<string, Sample>): map<nat, Run> {
    map run | run in runs ::
      if exists name :: name in values && values[name].run == run then runs[run].(stage := Drained) else runs[run]
  }

  /** The loop of `drainSamples`: every sample leaves, only current ones are returned. */
  method TakeCurrent(versions: map<string, nat>, samples: map<string, Sample>, now: Instant)
    returns (values: map<string, Sample>)
    ensures values == CurrentSamples(versions, samples, now)
  {
    values := map[];
    var remaining := samples.Keys;
    while remaining != {}
      invariant remaining <= samples.Keys
      invariant values == map name | name in samples && name !in remaining &&
                                     CurrentSample(versions, name, samples[name], now) :: samples[name]
      decreases remaining
    {
      var name :| name in remaining;
      remaining := remaining - {name};
      if CurrentSample(versions, name, samples[name], now) {
        values := values[name := samples[name]];
      }
    }
  }

  /** One drain: what was handed out, what was registered at that moment, and how the runs stood. */
  datatype Drain = Drain(values: map<string, Sample>, registered: map<string, Registered>, at: Instant,
                         runs: map<nat, Run>)

  /** Every value comes from a successful run, not handed out before, of the definition registered for
      its name at that moment, and is less than a minute old. */
  ghost predicate CurrentDrain(drain: Drain) {
    forall name :: name in drain.values ==>
      var sample := drain.values[name];
      && name in drain.registered && sample.run in drain.runs
      && drain.runs[sample.run].metric == drain.registered[name]
      && drain.runs[sample.run].produced == Some(sample.value) && drain.runs[sample.run].stage != Drained
      && 0 <= drain.at - sample.completedAt < CUSTOM_METRIC_MAXIMUM_AGE
  }

  class Collector {
    const registry: Registry
    var samples: map<string, Sample>
    var now: Instant
    var nextRun: nat
    ghost var runs: map<nat, Run>

    constructor (registry: Registry)
      requires registry.Valid()
      ensures Valid() && this.registry == registry && samples == map[] && runs == map[]
    {
      this.registry := registry;
      samples, now, nextRun, runs := map[], 0, 0, map[];
    }

    ghost predicate Valid()
      reads this, registry
    {
      && registry.Valid() && (forall run :: run in runs ==> run < nextRun)
      && forall name :: name in samples ==> SampleOk(runs, registry.named, name, samples[name])
    }

    /** The collector's loop has ended: what it stored is cleared. */
    method Stopped()
      requires Valid()
      modifies this`samples
      ensures Valid() && samples == map[]
    {
      samples := map[];
    }

    /** Hands out completed values. */
    method DrainSamples() returns (values: map<string, Sample>)
      requires Valid()
      modifies this`samples, this`runs
      ensures Valid() && samples == map[]
      ensures values == CurrentSamples(registry.metricVersions, old(samples), now)
      ensures CurrentDrain(Drain(values, ByName(registry.metrics), now, old(runs)))
      ensures runs == MarkDrained(old(runs), values)
    {
      values := TakeCurrent(registry.metricVersions, samples, now);
      forall name | name in values
        ensures name in ByName(registry.metrics) && runs[values[name].run].metric == ByName(registry.metrics)[name]
      {
        assert SampleOk(runs, registry.named, name, samples[name]);
        ViewNamed(registry.metrics, registry.named);
        assert Named(registry.named, ByName(registry.metrics)[name]);
      }
      samples, runs := map[], MarkDrained(runs, values);
    }
  }

  // ---- the scheduler

  predicate BackoffOk(backoff: Duration) {
    backoff == 0 || CUSTOM_METRIC_MINIMUM_BACKOFF <= backoff <= CUSTOM_METRIC_MAXIMUM_BACKOFF
  }

  function CustomMetricFailureBackoff(previous: Duration): (backoff: Duration)
    ensures BackoffOk(previous) ==> CUSTOM_METRIC_MINIMUM_BACKOFF <= backoff <= CUSTOM_METRIC_MAXIMUM_BACKOFF
  {
    if previous == 0 then CUSTOM_METRIC_MINIMUM_BACKOFF else Min(previous * 2, CUSTOM_METRIC_MAXIMUM_BACKOFF)
  }

  ghost predicate RunOk(runs: map<nat, Run>, named: map<nat, Definition>, run: nat, job: Job, stage: Stage) {
    run in runs && runs[run].stage == stage && JobOf(runs[run].metric) == job && Named(named, runs[run].metric)
  }

  function ResultJobs(results: seq<Result>): set<Job> {
    set i | 0 <= i < |results| :: results[i].job
  }

  ghost predicate DistinctJobs(results: seq<Result>) {
    forall i, j :: 0 <= i < |results| && 0 <= j < |results| && results[i].job == results[j].job ==> i == j
  }

  lemma AppendResult(results: seq<Result>, result: Result)
    requires DistinctJobs(results) && result.job !in ResultJobs(results)
    ensures DistinctJobs(results + [result]) && ResultJobs(results + [result]) == ResultJobs(results) + {result.job}
  {
    var longer := results + [result];
    assert longer[|results|] == result;
    assert forall i :: 0 <= i < |results| ==> longer[i] == results[i] && results[i].job in ResultJobs(results);
  }

  lemma TakeResult(results: seq<Result>)
    requires DistinctJobs(results) && results != []
    ensures DistinctJobs(results[1..]) && results[0].job !in ResultJobs(results[1..])
    ensures ResultJobs(results) == ResultJobs(results[1..]) + {results[0].job}
  {
    var rest := results[1..];
    assert forall i :: 0 <= i < |rest| ==> rest[i] == results[i + 1];
    assert forall i :: 0 < i < |results| ==> results[i] == rest[i - 1];
  }

  function Produced(outcome: Outcome): Option<real> {
    if outcome.Value? then Some(outcome.value) else None
  }

  /** Running jobs and queued results together are the active set. */
  ghost predicate JobsOk(active: set<Job>, executing: map<Job, nat>, results: seq<Result>) {
    && active == executing.Keys + ResultJobs(results) && executing.Keys !! ResultJobs(results)
    && DistinctJobs(results)
    && |active| <= CUSTOM_METRIC_CONCURRENCY
  }

  ghost predicate RunsOk(executing: map<Job, nat>, results: seq<Result>, runs: map<nat, Run>,
                         named: map<nat, Definition>) {
    && (forall job :: job in executing ==> RunOk(runs, named, executing[job], job, Executing))
    && (forall i :: 0 <= i < |results| ==>
          RunOk(runs, named, results[i].run, results[i].job, Queued) &&
          runs[results[i].run].produced == Produced(results[i].outcome))
  }

  /** Cached states: one per name in the round-robin order, each with a registered definition. */
  ghost predicate StatesOk(states: map<string, State>, order: seq<string>, cursor: nat, named: map<nat, Definition>) {
    && (forall i, j :: 0 <= i < |order| && 0 <= j < |order| && order[i] == order[j] ==> i == j)
    && (forall i :: 0 <= i < |order| ==> order[i] in states)
    && (forall name :: name in states ==>
          name in order && states[name].metric.definition.name == name &&
          Named(named, states[name].metric) && BackoffOk(states[name].backoff))
    && (cursor < |order| || (order == [] && cursor == 0))
  }

  ghost function View(states: map<string, State>): map<string, Registered> {
    map name | name in states :: states[name].metric
  }

  lemma {:induction false} ResultJobsSize(results: seq<Result>)
    requires DistinctJobs(results)
    ensures |ResultJobs(results)| == |results|
  {
    if results != [] {
      TakeResult(results);
      ResultJobsSize(results[1..]);
    }
  }

  /** A result channel of four places never blocks a sender. */
  lemma RoomForResult(active: set<Job>, executing: map<Job, nat>, results: seq<Result>)
    requires JobsOk(active, executing, results)
    ensures |executing| + |results| == |active| <= CUSTOM_METRIC_CONCURRENCY
    ensures executing != map[] ==> |results| < CUSTOM_METRIC_CONCURRENCY
  {
    ResultJobsSize(results);
    assert |active| == |executing.Keys| + |ResultJobs(results)|;
    if executing != map[] {
      var job :| job in executing;
      assert executing.Keys == {job} + (executing.Keys - {job});
    }
  }

  /** A job finishes: it moves from the running jobs to the end of the queue. */
  lemma FinishJob(active: set<Job>, executing: map<Job, nat>, results: seq<Result>, result: Result)
    requires JobsOk(active, executing, results) && result.job in executing
    ensures JobsOk(active, executing - {result.job}, results + [result])
  {
    hide ResultJobs, DistinctJobs;
    AppendResult(results, result);
    assert (executing - {result.job}).Keys == executing.Keys - {result.job};
  }

  lemma TakeJob(active: set<Job>, executing: map<Job, nat>, results: seq<Result>)
    requires JobsOk(active, executing, results) && results != []
    ensures JobsOk(active - {results[0].job}, executing, results[1..])
    ensures results[0].job in active && results[0].job !in ResultJobs(results[1..])
  {
    hide ResultJobs, DistinctJobs;
    TakeResult(results);
  }

  lemma LaunchJob(active: set<Job>, executing: map<Job, nat>, results: seq<Result>, job: Job, run: nat)
    requires JobsOk(active, executing, results) && job !in active && |active| < CUSTOM_METRIC_CONCURRENCY
    ensures JobsOk(active + {job}, executing[job := run], results)
  {
    hide ResultJobs, DistinctJobs;
    assert executing[job := run].Keys == executing.Keys + {job};
    assert |active + {job}| == |active| + 1;
  }

  lemma CurrentAreStored(versions: map<string, nat>, samples: map<string, Sample>, now: Instant,
                         runs: map<nat, Run>, named: map<nat, Definition>)
    requires forall name :: name in samples ==> SampleOk(runs, named, name, samples[name])
    ensures forall name :: name in CurrentSamples(versions, samples, now) ==>
              SampleOk(runs, named, name, CurrentSamples(versions, samples, now)[name])
  {
  }

  lemma DrainKeepsRuns(executing: map<Job, nat>, results: seq<Result>, runs: map<nat, Run>, values: map<string, Sample>,
                       named: map<nat, Definition>)
    requires RunsOk(executing, results, runs, named)
    requires forall name :: name in values ==> SampleOk(runs, named, name, values[name])
    ensures RunsOk(executing, results, MarkDrained(runs, values), named)
    ensures MarkDrained(runs, values).Keys == runs.Keys
  {
  }

  lemma StartRun(runs: map<nat, Run>, named: map<nat, Definition>, samples: map<string, Sample>,
                 executing: map<Job, nat>, results: seq<Result>, metric: Registered, next: nat)
    requires RunsOk(executing, results, runs, named) && Named(named, metric)
    requires forall run :: run in runs ==> run < next
    requires forall name :: name in samples ==> SampleOk(runs, named, name, samples[name])
    ensures var after := runs[next := Run(metric, Executing, None)];
            && RunsOk(executing[JobOf(metric) := next], results, after, named)
            && (forall run :: run in after ==> run < next + 1)
            && (forall name :: name in samples ==> SampleOk(after, named, name, samples[name]))
  {
  }

  /** The run's value is among the values. */
  predicate HandedIn(values: map<string, Sample>, run: nat) {
    exists name :: name in values && values[name].run == run
  }

  /** A value whose run was still undelivered, and now is delivered. */
  ghost predicate Handed(before: map<nat, Run>, after: map<nat, Run>, name: string, sample: Sample) {
    && sample.run in before && sample.run in after && before[sample.run].stage == Stored &&
       after[sample.run].stage == Drained
    && before[sample.run].metric == after[sample.run].metric && before[sample.run].metric.definition.name == name
  }

  lemma HandedOut(runs: map<nat, Run>, values: map<string, Sample>, named: map<nat, Definition>)
    requires forall name :: name in values ==> SampleOk(runs, named, name, values[name])
    ensures RunsKept(runs, MarkDrained(runs, values))
    ensures forall run :: IsDrained(MarkDrained(runs, values), run) ==> IsDrained(runs, run) || HandedIn(values, run)
    ensures forall name :: name in values ==> Handed(runs, MarkDrained(runs, values), name, values[name])
  {
  }

  /** Runs stay runs of their metric, and what was handed out stays handed out. */
  ghost predicate RunsKept(before: map<nat, Run>, after: map<nat, Run>) {
    forall run :: run in before ==>
      && run in after && after[run].metric == before[run].metric
      && (before[run].stage == Drained ==> after[run] == before[run])
  }

  /** Also, nothing is handed out meanwhile. */
  ghost predicate RunsMove(before: map<nat, Run>, after: map<nat, Run>) {
    RunsKept(before, after) && forall run :: IsDrained(after, run) ==> IsDrained(before, run)
  }

  ghost predicate IsDrained(runs: map<nat, Run>, run: nat) {
    run in runs && runs[run].stage == Drained
  }

  lemma RunsMoveTransitive(first: map<nat, Run>, second: map<nat, Run>, third: map<nat, Run>)
    requires RunsMove(first, second) && RunsMove(second, third)
    ensures RunsMove(first, third)
  {
  }

  /** Versions that get a name later do not disturb what is known about the earlier ones. */
  lemma NamesGrow(named: map<nat, Definition>, more: map<nat, Definition>, states: map<string, State>,
                  order: seq<string>, cursor: nat,
                  executing: map<Job, nat>, results: seq<Result>, runs: map<nat, Run>, samples: map<string, Sample>)
    requires StatesOk(states, order, cursor, named) && RunsOk(executing, results, runs, named)
    requires forall name :: name in samples ==> SampleOk(runs, named, name, samples[name])
    requires forall v :: v in named ==> v in more && more[v] == named[v]
    ensures StatesOk(states, order, cursor, more) && RunsOk(executing, results, runs, more)
    ensures forall name :: name in samples ==> SampleOk(runs, more, name, samples[name])
  {
  }

  lemma FinishRun(runs: map<nat, Run>, named: map<nat, Definition>, samples: map<string, Sample>,
                  executing: map<Job, nat>, results: seq<Result>, result: Result)
    requires RunsOk(executing, results, runs, named) && result.job in executing && result.run == executing[result.job]
    requires forall name :: name in samples ==> SampleOk(runs, named, name, samples[name])
    ensures var after := runs[result.run := Run(runs[result.run].metric, Queued, Produced(result.outcome))];
            && RunsOk(executing - {result.job}, results + [result], after, named)
            && (forall name :: name in samples ==> SampleOk(after, named, name, samples[name]))
            && RunsMove(runs, after) && after.Keys == runs.Keys
  {
    var after := runs[result.run := Run(runs[result.run].metric, Queued, Produced(result.outcome))];
    forall i | 0 <= i < |results|
      ensures RunOk(after, named, results[i].run, results[i].job, Queued) &&
              after[results[i].run].produced == Produced(results[i].outcome)
    {
      assert RunOk(runs, named, results[i].run, results[i].job, Queued);
    }
  }

  lemma StoreRun(runs: map<nat, Run>, named: map<nat, Definition>, samples: map<string, Sample>,
                 executing: map<Job, nat>, result: Result, rest: seq<Result>, stored: Sample)
    requires RunsOk(executing, [result] + rest, runs, named) && result.job !in ResultJobs(rest) && result.outcome.Value?
    requires forall name :: name in samples ==> SampleOk(runs, named, name, samples[name])
    requires stored == Sample(result.outcome.value, result.completedAt, result.job.version, result.run)
    ensures result.run in runs
    ensures var after := runs[result.run := runs[result.run].(stage := Stored)];
            && RunsOk(executing, rest, after, named)
            && (forall name :: name in samples ==> SampleOk(after, named, name, samples[name]))
            && SampleOk(after, named, result.job.name, stored)
            && RunsMove(runs, after) && after.Keys == runs.Keys
  {
    assert ([result] + rest)[0] == result;
    assert RunOk(runs, named, result.run, result.job, Queued);
    var after := runs[result.run := runs[result.run].(stage := Stored)];
    forall i | 0 <= i < |rest|
      ensures RunOk(after, named, rest[i].run, rest[i].job, Queued) &&
              after[rest[i].run].produced == Produced(rest[i].outcome)
    {
      assert ([result] + rest)[i + 1] == rest[i] && RunOk(runs, named, rest[i].run, rest[i].job, Queued);
      assert rest[i].job in ResultJobs(rest);
    }
  }

  lemma RescheduleKeepsView(states: map<string, State>, order: seq<string>, cursor: nat, named: map<nat, Definition>,
                            name: string, next: Instant, backoff: Duration)
    requires StatesOk(states, order, cursor, named) && name in states && BackoffOk(backoff)
    ensures var after := states[name := State(states[name].metric, next, backoff)];
            StatesOk(after, order, cursor, named) && View(after) == View(states)
  {
  }

  lemma TakeRuns(executing: map<Job, nat>, result: Result, rest: seq<Result>, runs: map<nat, Run>,
                 named: map<nat, Definition>)
    requires RunsOk(executing, [result] + rest, runs, named)
    ensures RunsOk(executing, rest, runs, named)
  {
    assert forall i :: 0 <= i < |rest| ==> rest[i] == ([result] + rest)[i + 1];
  }

  lemma RunsSame(runs: map<nat, Run>)
    ensures RunsMove(runs, runs)
  {
  }

  /** Only the metric of the result waits anew: its interval, and after a failure a backoff too. */
  ghost predicate Rescheduled(before: map<string, State>, after: map<string, State>, result: Result) {
    var name := result.job.name;
    && name in before && name in after && after - {name} == before - {name}
    && after[name].metric == before[name].metric
    && (if result.outcome.Value? then after[name].backoff == 0
        else CUSTOM_METRIC_MINIMUM_BACKOFF <= after[name].backoff <= CUSTOM_METRIC_MAXIMUM_BACKOFF)
    && (var interval := before[name].metric.definition.interval * SECOND;
        after[name].next ==
          result.completedAt + if result.outcome.Value? then interval else Max(interval, after[name].backoff))
  }

  /** A result of another job leaves the schedule of an idle metric alone. */
  lemma IdleKept(before: map<string, State>, after: map<string, State>, result: Result, name: string, active: set<Job>)
    requires name in before && before[name].metric.definition.name == name
    requires JobOf(before[name].metric) !in active && result.job in active
    requires StaleJob(before, result.job) ==> after == before
    requires !StaleJob(before, result.job) ==> Rescheduled(before, after, result)
    ensures name in after && after[name] == before[name]
  {
    if after != before {
      assert name != result.job.name;
      assert name in after - {result.job.name} && name in before - {result.job.name};
    }
  }

  /** Only the sample of the result's metric changes: it is the new value of a registered version, or none. */
  ghost predicate SampleReplaced(before: map<string, Sample>, after: map<string, Sample>, versions: map<string, nat>,
                                 result: Result) {
    var name := result.job.name;
    && after - {name} == before - {name}
    && (name in after <==> result.outcome.Value? && name in versions && versions[name] == result.job.version)
    && (name in after ==>
          after[name] == Sample(result.outcome.value, result.completedAt, result.job.version, result.run))
  }

  predicate SameRun(one: Drain, m: string, other: Drain, n: string) {
    m in one.values && n in other.values && one.values[m].run == other.values[n].run
  }

  /** No run's value is handed out twice, over any number of drains. */
  ghost predicate AtMostOnce(drains: seq<Drain>) {
    forall i, j, m, n :: 0 <= i < |drains| && 0 <= j < |drains| && SameRun(drains[i], m, drains[j], n) ==>
      i == j && m == n
  }

  /** The drains hold exactly the runs that were handed out. */
  ghost predicate AllDrained(drains: seq<Drain>, runs: map<nat, Run>) {
    && (forall i, name :: 0 <= i < |drains| && name in drains[i].values ==> IsDrained(runs, drains[i].values[name].run))
    && (forall run :: IsDrained(runs, run) ==> exists i :: 0 <= i < |drains| && HandedIn(drains[i].values, run))
  }

  ghost predicate AllCurrent(drains: seq<Drain>) {
    forall i :: 0 <= i < |drains| ==> CurrentDrain(drains[i])
  }

  lemma DrainedStay(drains: seq<Drain>, before: map<nat, Run>, after: map<nat, Run>)
    requires AllDrained(drains, before) && RunsMove(before, after)
    ensures AllDrained(drains, after)
  {
  }

  lemma AppendDrain(drains: seq<Drain>, drain: Drain, before: map<nat, Run>, after: map<nat, Run>)
    requires AtMostOnce(drains) && AllDrained(drains, before) && RunsKept(before, after)
    requires forall run :: IsDrained(after, run) ==> IsDrained(before, run) || HandedIn(drain.values, run)
    requires forall name :: name in drain.values ==> Handed(before, after, name, drain.values[name])
    ensures AtMostOnce(drains + [drain]) && AllDrained(drains + [drain], after)
  {
    var longer: seq<Drain> := drains + [drain];
    forall i, name | 0 <= i < |longer| && name in longer[i].values
      ensures longer[i].values[name].run in after && after[longer[i].values[name].run].stage == Drained
      ensures i < |drains| ==>
                longer[i].values[name].run in before && before[longer[i].values[name].run].stage == Drained
      ensures i == |drains| ==> Handed(before, after, name, longer[i].values[name])
    {
    }
    forall run | IsDrained(after, run)
      ensures exists i :: 0 <= i < |longer| && HandedIn(longer[i].values, run)
    {
      if IsDrained(before, run) {
        var i :| 0 <= i < |drains| && HandedIn(drains[i].values, run);
        assert longer[i] == drains[i];
      } else {
        assert longer[|drains|] == drain;
      }
    }
    forall i, j, m, n | 0 <= i < |longer| && 0 <= j < |longer| && SameRun(longer[i], m, longer[j], n)
      ensures i == j && m == n
    {
      if i < |drains| && j < |drains| {
        assert longer[i] == drains[i] && longer[j] == drains[j];
      }
    }
  }

  // ---- round robin

  function NextCursor(cursor: nat, n: nat): (next: nat)
    requires cursor < n
    ensures next == if cursor + 1 == n then 0 else cursor + 1
  {
    (cursor + 1) % n
  }

  /** How many steps the cursor takes until it stands at `index`. */
  function Distance(cursor: nat, index: nat, n: nat): nat
    requires cursor < n && index < n
  {
    if index >= cursor then index - cursor else index + n - cursor
  }

  /** Where the cursor stands after `steps` steps. */
  function CursorAt(start: nat, steps: nat, n: nat): nat
    requires start < n && steps <= n
  {
    if start + steps < n then start + steps else start + steps - n
  }

  lemma CursorMoves(start: nat, steps: nat, n: nat)
    requires start < n && steps < n
    ensures var here := CursorAt(start, steps, n);
            here < n && CursorAt(start, steps + 1, n) == if here + 1 == n then 0 else here + 1
  {
  }

  /** After `steps` steps a due metric was started when the cursor came by, or is still waiting. */
  ghost predicate ServedOrWaiting(job: Job, distance: nat, steps: nat, launched: seq<Job>, active: set<Job>) {
    if distance < steps then exists p :: 0 <= p <= distance && p < |launched| && launched[p] == job
    else job !in active
  }

  lemma ServedStep(job: Job, distance: nat, steps: nat, launched: seq<Job>, active: set<Job>, launched': seq<Job>,
                   active': set<Job>)
    requires ServedOrWaiting(job, distance, steps, launched, active) && |launched| <= steps
    requires distance == steps ==> launched' == launched + [job]
    requires distance != steps ==> (job in active' <==> job in active)
    requires launched <= launched'
    ensures ServedOrWaiting(job, distance, steps + 1, launched', active')
  {
    if distance < steps {
      var p :| 0 <= p <= distance && p < |launched| && launched[p] == job;
      assert launched'[p] == job;
    } else if distance == steps {
      assert launched'[|launched|] == job;
    }
  }

  ghost predicate AllServed(due: set<nat>, jobs: seq<Job>, start: nat, steps: nat, launched: seq<Job>,
                            active: set<Job>) {
    forall index :: index in due ==>
      index < |jobs| && start < |jobs| &&
      ServedOrWaiting(jobs[index], Distance(start, index, |jobs|), steps, launched, active)
  }

  lemma AllServedStep(due: set<nat>, jobs: seq<Job>, start: nat, steps: nat, launched: seq<Job>, active: set<Job>,
                      started: bool)
    requires AllServed(due, jobs, start, steps, launched, active) && |launched| <= steps < |jobs| && start < |jobs|
    requires forall i, j :: 0 <= i < |jobs| && 0 <= j < |jobs| && jobs[i] == jobs[j] ==> i == j
    requires var here := CursorAt(start, steps, |jobs|); here in due && jobs[here] !in active ==> started
    ensures var job := jobs[CursorAt(start, steps, |jobs|)];
            AllServed(due, jobs, start, steps + 1, if started then launched + [job] else launched,
                      if started then active + {job} else active)
  {
    var job := jobs[CursorAt(start, steps, |jobs|)];
    var launched' := if started then launched + [job] else launched;
    var active' := if started then active + {job} else active;
    forall index | index in due
      ensures ServedOrWaiting(jobs[index], Distance(start, index, |jobs|), steps + 1, launched', active')
    {
      ServedStep(jobs[index], Distance(start, index, |jobs|), steps, launched, active, launched', active');
    }
  }

  /** Started by one call after at most `before` others, or closer to the cursor by the calls' launches. */
  ghost predicate Served(job: Job, before: nat, after: nat, launched: seq<Job>, active: set<Job>) {
    || (exists p :: 0 <= p <= before && p < |launched| && launched[p] == job)
    || (job !in active && |active| == CUSTOM_METRIC_CONCURRENCY && after + |launched| <= before)
  }

  lemma ServedAfter(due: set<nat>, jobs: seq<Job>, start: nat, steps: nat, launched: seq<Job>, active: set<Job>,
                    cursor: nat)
    requires AllServed(due, jobs, start, steps, launched, active) && |launched| <= steps <= |jobs|
    requires steps < |jobs| ==>
               start < |jobs| && cursor == CursorAt(start, steps, |jobs|) && |active| == CUSTOM_METRIC_CONCURRENCY
    requires start < |jobs| ==> cursor < |jobs|
    ensures forall index :: index in due ==>
              && index < |jobs| && start < |jobs|
              && Served(jobs[index], Distance(start, index, |jobs|), Distance(cursor, index, |jobs|), launched, active)
  {
  }

  /** The job of every place in the round-robin order. */
  ghost predicate JobsInOrder(jobs: seq<Job>, order: seq<string>, states: map<string, State>) {
    |jobs| == |order| &&
    forall i :: 0 <= i < |order| ==> order[i] in states && jobs[i] == JobOf(states[order[i]].metric)
  }

  lemma {:induction false} JobsExist(order: seq<string>, states: map<string, State>) returns (jobs: seq<Job>)
    requires forall i :: 0 <= i < |order| ==> order[i] in states
    ensures JobsInOrder(jobs, order, states)
  {
    if order == [] {
      jobs := [];
    } else {
      jobs := JobsExist(order[..|order| - 1], states);
      jobs := jobs + [JobOf(states[order[|order| - 1]].metric)];
    }
  }

  lemma JobsDistinct(jobs: seq<Job>, order: seq<string>, states: map<string, State>, cursor: nat,
                     named: map<nat, Definition>)
    requires StatesOk(states, order, cursor, named) && JobsInOrder(jobs, order, states)
    ensures forall i, j :: 0 <= i < |jobs| && 0 <= j < |jobs| && jobs[i] == jobs[j] ==> i == j
  {
    forall i, j | 0 <= i < |jobs| && 0 <= j < |jobs| && jobs[i] == jobs[j]
      ensures i == j
    {
      assert jobs[i].name == order[i] && jobs[j].name == order[j];
    }
  }

  /** The runs from `first` on are runs of these jobs, in this order. */
  ghost predicate Recorded(runs: map<nat, Run>, first: nat, jobs: seq<Job>) {
    forall i :: 0 <= i < |jobs| ==> IsRunOf(runs, first + i, jobs[i])
  }

  ghost predicate IsRunOf(runs: map<nat, Run>, run: nat, job: Job) {
    run in runs && JobOf(runs[run].metric) == job
  }

  lemma NothingRecorded(runs: map<nat, Run>, first: nat)
    ensures Recorded(runs, first, [])
  {
  }

  lemma RecordedKept(before: map<nat, Run>, after: map<nat, Run>, first: nat, jobs: seq<Job>)
    requires Recorded(before, first, jobs) && RunsKept(before, after)
    ensures Recorded(after, first, jobs)
  {
  }

  lemma RecordedMore(runs: map<nat, Run>, first: nat, jobs: seq<Job>, more: seq<Job>)
    requires Recorded(runs, first, jobs) && Recorded(runs, first + |jobs|, more)
    ensures Recorded(runs, first, jobs + more)
  {
    var all := jobs + more;
    forall i | 0 <= i < |all|
      ensures IsRunOf(runs, first + i, all[i])
    {
      if i < |jobs| {
        assert all[i] == jobs[i];
      } else {
        assert all[i] == more[i - |jobs|] && IsRunOf(runs, first + |jobs| + (i - |jobs|), more[i - |jobs|]);
      }
    }
  }

  /** How a waiting job stands after some launches: started with at most `bound` others before it, or
      still waiting, with the launches and the cursor's way to it together within the bound. */
  ghost predicate Turn(job: Job, started: seq<Job>, distance: nat, bound: nat) {
    if job in started then exists q :: 0 <= q < |started| && started[q] == job && q <= bound
    else |started| + distance <= bound
  }

  lemma TurnStep(job: Job, started: seq<Job>, before: nat, after: nat, bound: nat, launched: seq<Job>, active: set<Job>)
    requires job !in started && Turn(job, started, before, bound) && Served(job, before, after, launched, active)
    requires forall other :: other in launched ==> other in active
    ensures Turn(job, started + launched, after, bound)
    ensures job !in started + launched ==> job !in active
  {
    var all := started + launched;
    if job in launched {
      var p :| 0 <= p <= before && p < |launched| && launched[p] == job;
      assert all[|started| + p] == job;
    } else {
      assert job !in all;
    }
  }

  lemma TurnDone(job: Job, started: seq<Job>, launched: seq<Job>, distance: nat, bound: nat)
    requires job in started && Turn(job, started, distance, bound)
    ensures job in started + launched && Turn(job, started + launched, distance, bound)
  {
    var q :| 0 <= q < |started| && started[q] == job && q <= bound;
    assert (started + launched)[q] == job;
  }

  /** At most `others` jobs start before `job` does. */
  ghost predicate AtMostBefore(job: Job, started: seq<Job>, others: int) {
    forall p :: 0 <= p <= |started| && job !in started[..p] ==> p <= others
  }

  lemma TurnMeans(job: Job, started: seq<Job>, distance: nat, bound: nat)
    requires Turn(job, started, distance, bound)
    ensures AtMostBefore(job, started, bound)
  {
    if job in started {
      var q :| 0 <= q < |started| && started[q] == job && q <= bound;
      forall p | 0 <= p <= |started| && job !in started[..p]
        ensures p <= bound
      {
        assert forall k :: 0 <= k < p ==> started[k] in started[..p];
      }
    }
  }

  // ---- building the cached states

  /** States after the first `count` metrics: unchanged versions keep their schedule. */
  ghost predicate Cached(states: map<string, State>, order: seq<string>, metrics: seq<Registered>, count: nat,
                         previous: map<string, State>)
    requires count <= |metrics|
  {
    && |order| == count
    && (forall i :: 0 <= i < count ==>
          order[i] == metrics[i].definition.name && order[i] in states && states[order[i]].metric == metrics[i])
    && (forall name :: name in states ==>
          name in order && (states[name].backoff == 0 || (name in previous && states[name] == previous[name])))
    && (forall name :: name in states && name in previous && previous[name].metric == states[name].metric ==>
          states[name] == previous[name])
  }

  method BuildStates(metrics: seq<Registered>, previous: map<string, State>, ghost named: map<nat, Definition>)
    returns (states: map<string, State>, order: seq<string>)
    requires Distinct(metrics) && forall i :: 0 <= i < |metrics| ==> Named(named, metrics[i])
    requires forall name :: name in previous ==> Named(named, previous[name].metric)
    ensures Cached(states, order, metrics, |metrics|, previous)
  {
    states, order := map[], [];
    for index := 0 to |metrics|
      invariant Cached(states, order, metrics, index, previous)
    {
      var metric := metrics[index];
      var state := State(metric, 0, 0);
      if metric.definition.name in previous && previous[metric.definition.name].metric.version == metric.version {
        state := previous[metric.definition.name];
      }
      assert state.metric == metric;
      states := states[metric.definition.name := state];
      order := order + [metric.definition.name];
    }
  }

  lemma CachedStates(states: map<string, State>, order: seq<string>, metrics: seq<Registered>,
                     previous: map<string, State>, cursor: nat, named: map<nat, Definition>)
    requires Distinct(metrics) && Cached(states, order, metrics, |metrics|, previous)
    requires forall i :: 0 <= i < |metrics| ==> Named(named, metrics[i])
    requires forall name :: name in previous ==> BackoffOk(previous[name].backoff)
    ensures StatesOk(states, order, if cursor >= |order| then 0 else cursor, named)
    ensures View(states) == ByName(metrics)
    ensures forall name :: name in states && name in previous && previous[name].metric == states[name].metric ==>
              states[name] == previous[name]
  {
    forall name | name in states
      ensures name in order && states[name].metric.definition.name == name && Named(named, states[name].metric) &&
              states[name].metric in metrics
      ensures BackoffOk(states[name].backoff)
    {
      var i :| 0 <= i < |order| && order[i] == name;
      assert states[order[i]].metric == metrics[i];
    }
    forall i | 0 <= i < |metrics|
      ensures metrics[i].definition.name in View(states) && View(states)[metrics[i].definition.name] == metrics[i]
    {
      assert order[i] in states;
    }
    ViewUnique(metrics, View(states));
  }

  predicate StaleJob(states: map<string, State>, job: Job) {
    job.name !in states || states[job.name].metric.version != job.version
  }

  method FindStale(active: set<Job>, states: map<string, State>) returns (stale: set<Job>)
    ensures stale == set job | job in active && StaleJob(states, job)
  {
    stale := {};
    var remaining := active;
    while remaining != {}
      invariant remaining <= active && stale == set job | job in active && job !in remaining && StaleJob(states, job)
      decreases remaining
    {
      var job :| job in remaining;
      remaining := remaining - {job};
      if StaleJob(states, job) {
        stale := stale + {job};
      }
    }
  }

  predicate Matching(states: map<string, State>, name: string, sample: Sample) {
    name in states && sample.version == states[name].metric.version
  }

  method KeepMatching(samples: map<string, Sample>, states: map<string, State>) returns (kept: map<string, Sample>)
    ensures kept == map name | name in samples && Matching(states, name, samples[name]) :: samples[name]
    ensures forall name :: name in kept ==>
              name in samples && kept[name] == samples[name] && Matching(states, name, kept[name])
  {
    kept := samples;
    var remaining := samples.Keys;
    while remaining != {}
      invariant remaining <= samples.Keys
      invariant kept == map name | name in samples && (name in remaining || Matching(states, name, samples[name])) ::
                  samples[name]
      decreases remaining
    {
      var name :| name in remaining;
      remaining := remaining - {name};
      if !Matching(states, name, samples[name]) {
        kept := kept - {name};
      }
    }
  }

  datatype Snapshot = Snapshot(metrics: seq<Registered>, version: nat)

  /** A snapshot shows what was registered at its version. */
  ghost predicate SnapshotOk(taken: Option<Snapshot>, history: map<nat, map<string, Registered>>,
                             named: map<nat, Definition>) {
    taken.Some? ==>
      && Distinct(taken.value.metrics) && taken.value.version in history
      && history[taken.value.version] == ByName(taken.value.metrics)
      && forall i :: 0 <= i < |taken.value.metrics| ==> Named(named, taken.value.metrics[i])
  }

  lemma SnapshotKept(taken: Option<Snapshot>, history: map<nat, map<string, Registered>>, named: map<nat, Definition>,
                     later: map<nat, map<string, Registered>>, more: map<nat, Definition>)
    requires SnapshotOk(taken, history, named)
    requires forall v :: v in history ==> v in later && later[v] == history[v]
    requires forall v :: v in named ==> v in more && more[v] == named[v]
    ensures SnapshotOk(taken, later, more)
  {
    hide ByName;
  }

  class Scheduler {
    const collector: Collector
    var version: nat
    var configured: bool
    var states: map<string, State>
    var order: seq<string>
    var cursor: nat
    var active: set<Job>
    var canceled: set<Job>
    var executing: map<Job, nat>   // the goroutines, with the number of their run
    var results: seq<Result>       // the result channel
    var taken: Option<Snapshot>    // the snapshot that the loop holds

    constructor (collector: Collector)
      requires collector.Valid() && collector.samples == map[]
      ensures this.collector == collector && Valid()
    {
      this.collector := collector;
      version, configured, states, order, cursor := 0, false, map[], [], 0;
      active, canceled, executing, results, taken := {}, {}, map[], [], None;
    }

    ghost predicate Valid()
      reads this, collector, collector.registry
    {
      && Wired() && SnapshotOk(taken, collector.registry.history, collector.registry.named)
      && forall name :: name in collector.samples ==> Matching(states, name, collector.samples[name])
    }

    /** Everything but the agreement of samples and states. */
    ghost predicate Wired()
      reads this, collector, collector.registry
    {
      && collector.Valid()
      && StatesOk(states, order, cursor, collector.registry.named)
      && JobsOk(active, executing, results)
      && RunsOk(executing, results, collector.runs, collector.registry.named)
      && (if configured then version in collector.registry.history &&
          View(states) == collector.registry.history[version]
          else states == map[])
    }

    /** Another goroutine replaces the registered definitions. */
    method RegistryReplaced(updates: seq<CustomMetric>, at: Option<Instant>, ordered: bool)
      requires Valid()
      modifies collector.registry
      ensures Valid()
    {
      hide View, ByName, StatesOk, JobsOk, RunsOk, SampleOk, Matching, Registry.Valid, Acceptable, Replaced, ToSet;
      ghost var named, history := collector.registry.named, collector.registry.history;
      var accepted := collector.registry.Replace(updates, at, ordered);
      SnapshotKept(taken, history, named, collector.registry.history, collector.registry.named);
      NamesGrow(named, collector.registry.named, states, order, cursor, executing, results, collector.runs,
                collector.samples);
    }

    /** The report loop drains the collector. */
    method SamplesDrained() returns (values: map<string, Sample>)
      requires Valid()
      modifies collector`samples, collector`runs
      ensures CurrentDrain(Drain(values, ByName(collector.registry.metrics), collector.now, old(collector.runs)))
      ensures Valid() &&
              values == CurrentSamples(collector.registry.metricVersions, old(collector.samples), collector.now)
      ensures RunsKept(old(collector.runs), collector.runs)
      ensures forall run :: IsDrained(collector.runs, run) ==>
                IsDrained(old(collector.runs), run) || HandedIn(values, run)
      ensures forall name :: name in values ==> Handed(old(collector.runs), collector.runs, name, values[name])
    {
      hide View, StatesOk, ByName, JobsOk, RunsOk, MarkDrained, CurrentSamples, CurrentSample, RunsKept, Handed,
           IsDrained, HandedIn, CurrentDrain, SnapshotOk;
      ghost var before := collector.runs;
      ghost var stored := collector.samples;
      assert forall name :: name in stored ==> SampleOk(before, collector.registry.named, name, stored[name]);
      values := collector.DrainSamples();
      CurrentAreStored(collector.registry.metricVersions, stored, collector.now, before, collector.registry.named);
      DrainKeepsRuns(executing, results, before, values, collector.registry.named);
      HandedOut(before, values, collector.registry.named);
    }

    /** Takes over a snapshot of the registry. An equal registry version is skipped, and then the
        cached states match the snapshot all the same. */
    method Synchronize(metrics: seq<Registered>, at: nat)
      requires Valid() && Distinct(metrics)
      requires at in collector.registry.history && collector.registry.history[at] == ByName(metrics)
      requires forall i :: 0 <= i < |metrics| ==> Named(collector.registry.named, metrics[i])
      modifies this`version, this`configured, this`states, this`order, this`cursor, this`canceled, collector`samples
      ensures Valid() && configured && version == at
      ensures View(states) == ByName(metrics)
      ensures forall name ::
                name in states && name in old(states) && old(states)[name].metric == states[name].metric ==>
                states[name] == old(states)[name]
      ensures if old(configured) && old(version) == at
              then states == old(states) && order == old(order) && cursor == old(cursor) && canceled == old(canceled) &&
                   collector.samples == old(collector.samples)
              else canceled == old(canceled) + set job | job in active && StaleJob(states, job)
    {
      hide ByName, JobsOk, RunsOk, VersionsMatch, Cached, View, SampleOk, Matching, StatesOk, StaleJob, Registry.Valid;
      KnownStates();
      if configured && version == at {
        return;
      }
      var current, names := BuildStates(metrics, states, collector.registry.named);
      CachedStates(current, names, metrics, states, cursor, collector.registry.named);
      Install(current, names, at);
    }

    /** Makes new states current, then cancels stale jobs and drops stale samples. */
    method Install(current: map<string, State>, names: seq<string>, at: nat)
      requires Valid()
      requires StatesOk(current, names, if cursor >= |names| then 0 else cursor, collector.registry.named)
      requires at in collector.registry.history && View(current) == collector.registry.history[at]
      modifies this`version, this`configured, this`states, this`order, this`cursor, this`canceled, collector`samples
      ensures Valid() && configured && version == at && states == current && order == names
      ensures canceled == old(canceled) + set job | job in active && StaleJob(states, job)
    {
      hide JobsOk, RunsOk, View, SampleOk, Matching, StatesOk, StaleJob, Registry.Valid;
      version, configured := at, true;
      states, order := current, names;
      if cursor >= |order| {
        cursor := 0;
      }
      InvalidateChangedMetrics();
    }

    method InvalidateChangedMetrics()
      requires Wired() && SnapshotOk(taken, collector.registry.history, collector.registry.named)
      modifies this`canceled, collector`samples
      ensures Valid()
      ensures canceled == old(canceled) + set job | job in active && StaleJob(states, job)
      ensures collector.samples ==
                map name | name in old(collector.samples) && Matching(states, name, old(collector.samples)[name]) ::
                  old(collector.samples)[name]
    {
      hide JobsOk, RunsOk, View, SampleOk, Matching, StatesOk, StaleJob, Registry.Valid;
      var stale := FindStale(active, states);
      canceled := canceled + stale;
      collector.samples := KeepMatching(collector.samples, states);
    }

    lemma KnownStates()
      requires Valid()
      ensures forall name :: name in states ==>
                Named(collector.registry.named, states[name].metric) && BackoffOk(states[name].backoff)
    {
    }

    /** Time passes. */
    method Wait()
      requires Valid()
      modifies collector`now
      ensures Valid() && collector.now >= old(collector.now)
    {
      hide View, StatesOk, JobsOk, RunsOk, SampleOk, Matching, Registry.Valid;
      var passed: int := *;
      collector.now := collector.now + Max(passed, 0);
    }

    /** The metric may start now. */
    predicate DueIdle(name: string)
      reads this, collector
    {
      name in states && states[name].next <= collector.now && JobOf(states[name].metric) !in active
    }

    /** One step of the round robin. */
    method Visit() returns (launched: bool)
      requires Valid() && order != [] && |active| < CUSTOM_METRIC_CONCURRENCY
      modifies this`cursor, this`active, this`executing, collector`nextRun, collector`now, collector`runs
      ensures Valid() && collector.now >= old(collector.now)
      ensures cursor == if old(cursor) + 1 == |order| then 0 else old(cursor) + 1
      ensures var job := JobOf(states[order[old(cursor)]].metric);
              && (launched ==> job !in old(active) && active == old(active) + {job})
              && (!launched ==> active == old(active))
      ensures old(DueIdle(order[cursor])) ==> launched
      ensures RunsMove(old(collector.runs), collector.runs)
      ensures launched ==>
                Recorded(collector.runs, old(collector.nextRun), [JobOf(states[order[old(cursor)]].metric)])
      ensures collector.nextRun == old(collector.nextRun) + if launched then 1 else 0
    {
      hide View, ByName, JobsOk, RunsOk, SampleOk, Matching, NextCursor, Registry.Valid;
      Wait();
      var name := order[cursor];
      cursor := NextCursor(cursor, |order|);
      var state := states[name];
      var job := JobOf(state.metric);
      if job in active || collector.now < state.next {
        return false;
      }
      Launch(state.metric);
      return true;
    }

    method Launch(metric: Registered)
      requires Valid() && Named(collector.registry.named, metric)
      requires JobOf(metric) !in active && |active| < CUSTOM_METRIC_CONCURRENCY
      modifies this`active, this`executing, collector`nextRun, collector`runs
      ensures Valid() && active == old(active) + {JobOf(metric)} && RunsMove(old(collector.runs), collector.runs)
      ensures collector.nextRun == old(collector.nextRun) + 1
      ensures Recorded(collector.runs, old(collector.nextRun), [JobOf(metric)])
    {
      hide View, StatesOk, JobsOk, RunsOk, SampleOk, Matching, Registry.Valid;
      LaunchJob(active, executing, results, JobOf(metric), collector.nextRun);
      StartRun(collector.runs, collector.registry.named, collector.samples, executing, results, metric,
               collector.nextRun);
      collector.runs := collector.runs[collector.nextRun := Run(metric, Executing, None)];
      active := active + {JobOf(metric)};
      executing := executing[JobOf(metric) := collector.nextRun];
      collector.nextRun := collector.nextRun + 1;
    }

    /** Starts due metrics until four jobs are active. A metric that is due and idle is started after
        at most as many other launches as the cursor is away from it; if the call stops before
        reaching it, the cursor has come closer by at least the number of launches. */
    method LaunchDue() returns (ghost launched: seq<Job>)
      requires Valid()
      modifies this`cursor, this`active, this`executing, collector`nextRun, collector`now, collector`runs
      ensures Valid() && collector.now >= old(collector.now) && RunsMove(old(collector.runs), collector.runs)
      ensures forall job :: job in active <==> job in old(active) || job in launched
      ensures |active| == |old(active)| + |launched|
      ensures Recorded(collector.runs, old(collector.nextRun), launched)
      ensures collector.nextRun == old(collector.nextRun) + |launched|
      ensures forall index :: 0 <= index < |order| && old(DueIdle(order[index])) ==>
                Served(JobOf(states[order[index]].metric), Distance(old(cursor), index, |order|),
                       Distance(cursor, index, |order|), launched, active)
    {
      hide View, ByName, StatesOk, JobsOk, RunsOk, SampleOk, Matching, Registry.Valid;
      hide AllServed, ServedOrWaiting, Distance, CursorAt, Served, DueIdle, RunsKept, Recorded, IsDrained;
      RunsSame(collector.runs);
      NothingRecorded(collector.runs, collector.nextRun);
      launched := [];
      ghost var start := cursor;
      ghost var jobs, due := DueJobs();
      for step := 0 to |order|
        invariant Valid() && |launched| <= step && collector.now >= old(collector.now)
        invariant RunsMove(old(collector.runs), collector.runs) && |active| == |old(active)| + |launched|
        invariant Recorded(collector.runs, old(collector.nextRun), launched)
        invariant collector.nextRun == old(collector.nextRun) + |launched|
        invariant forall job :: job in active <==> job in old(active) || job in launched
        invariant order != [] ==> start < |order| && cursor < |order| && cursor == CursorAt(start, step, |order|)
        invariant JobsInOrder(jobs, order, states) && AllServed(due, jobs, start, step, launched, active)
      {
        if |active| >= CUSTOM_METRIC_CONCURRENCY {
          AtMostFour();
          ServedAfter(due, jobs, start, step, launched, active, cursor);
          return;
        }
        ghost var busy, before := active, launched;
        JobsDistinct(jobs, order, states, cursor, collector.registry.named);
        DueNow(jobs, due, old(collector.now));
        CursorMoves(start, step, |order|);
        ghost var runs := collector.runs;
        var started := Visit();
        RunsMoveTransitive(old(collector.runs), runs, collector.runs);
        RecordedKept(runs, collector.runs, old(collector.nextRun), launched);
        if started {
          launched := launched + [jobs[CursorAt(start, step, |order|)]];
          RecordedMore(collector.runs, old(collector.nextRun), before, launched[|before|..]);
        }
        AllServedStep(due, jobs, start, step, before, busy, started);
      }
      ServedAfter(due, jobs, start, |order|, launched, active, cursor);
    }

    lemma DueJobs() returns (jobs: seq<Job>, due: set<nat>)
      requires Valid()
      ensures JobsInOrder(jobs, order, states) && AllServed(due, jobs, cursor, 0, [], active)
      ensures forall index :: 0 <= index < |order| && DueIdle(order[index]) ==> index in due
      ensures forall index :: index in due ==> index < |order| && states[order[index]].next <= collector.now
      ensures order != [] ==> cursor < |order| && cursor == CursorAt(cursor, 0, |order|)
    {
      hide View, ByName, JobsOk, RunsOk, SampleOk, Matching, Registry.Valid;
      jobs := JobsExist(order, states);
      due := set index: nat | index < |order| && DueIdle(order[index]);
    }

    lemma DueNow(jobs: seq<Job>, due: set<nat>, before: Instant)
      requires Valid() && order != [] && JobsInOrder(jobs, order, states) && before <= collector.now
      requires forall index :: index in due ==> index < |order| && states[order[index]].next <= before
      ensures cursor < |order|
      ensures cursor in due && jobs[cursor] !in active ==> DueIdle(order[cursor])
    {
    }

    lemma AtMostFour()
      requires Valid()
      ensures |active| <= CUSTOM_METRIC_CONCURRENCY
    {
    }

    /** A goroutine finishes its job. The result channel always has room. */
    method Finish(job: Job, outcome: Outcome)
      requires Valid() && job in executing
      modifies this`executing, this`results, collector`runs
      ensures Valid() && |old(results)| < CUSTOM_METRIC_CONCURRENCY && RunsMove(old(collector.runs), collector.runs)
      ensures executing == old(executing) - {job}
      ensures results == old(results) +
                [Result(job, if job in canceled then Canceled else outcome, collector.now, old(executing)[job])]
    {
      hide View, StatesOk, JobsOk, RunsOk, SampleOk, Matching, Registry.Valid, RunsMove;
      var result := Result(job, if job in canceled then Canceled else outcome, collector.now, executing[job]);
      RoomForResult(active, executing, results);
      FinishJob(active, executing, results, result);
      FinishRun(collector.runs, collector.registry.named, collector.samples, executing, results, result);
      assert result.run in collector.runs by { ExecutingRuns(job); }
      var run := Run(collector.runs[result.run].metric, Queued, Produced(result.outcome));
      collector.runs := collector.runs[result.run := run];
      executing := executing - {job};
      results := results + [result];
    }

    lemma ExecutingRuns(job: Job)
      requires Valid() && job in executing
      ensures executing[job] in collector.runs
    {
      hide View, StatesOk, JobsOk, SampleOk, Matching, Registry.Valid;
    }

    /** The head of the result channel is received. */
    method Receive() returns (result: Result)
      requires Valid() && results != []
      modifies this`active, this`canceled, this`results
      ensures Valid() && old(results) == [result] + results && result.job !in ResultJobs(results)
      ensures active == old(active) - {result.job} && result.job in old(active)
      ensures RunsOk(executing, [result] + results, collector.runs, collector.registry.named)
    {
      hide View, StatesOk, JobsOk, RunsOk, ResultJobs, DistinctJobs, SampleOk, Matching, Registry.Valid;
      result := results[0];
      assert results == [result] + results[1..];
      TakeJob(active, executing, results);
      TakeRuns(executing, result, results[1..], collector.runs, collector.registry.named);
      active, canceled, results := active - {result.job}, canceled - {result.job}, results[1..];
    }

    /** Handles one result. A result of a version that is no longer scheduled changes no state and
        stores nothing. Otherwise the metric waits for its interval, after a failure for at least
        the backoff, and the value is stored only if the registry still holds that version. */
    method Complete() returns (result: Result)
      requires Valid() && results != []
      modifies this`active, this`canceled, this`results, this`states, collector`samples, collector`runs
      ensures Valid() && old(results) == [result] + results && active == old(active) - {result.job} &&
              result.job in old(active)
      ensures RunsMove(old(collector.runs), collector.runs)
      ensures StaleJob(old(states), result.job) ==> states == old(states) && collector.samples == old(collector.samples)
      ensures !StaleJob(old(states), result.job) ==>
                Rescheduled(old(states), states, result) &&
                SampleReplaced(old(collector.samples), collector.samples, collector.registry.metricVersions, result)
    {
      hide View, StatesOk, JobsOk, RunsOk, ResultJobs, DistinctJobs, SampleOk, Matching, Registry.Valid, SampleReplaced,
           RunsMove, Rescheduled;
      result := Receive();
      if StaleJob(states, result.job) {
        RunsSame(collector.runs);
        return;
      }
      Reschedule(result);
      StoreSample(result);
    }

    method Reschedule(result: Result)
      requires Valid() && !StaleJob(states, result.job)
      modifies this`states
      ensures Valid() && Rescheduled(old(states), states, result) && !StaleJob(states, result.job)
    {
      hide View, StatesOk, JobsOk, RunsOk, SampleOk, Registry.Valid, CustomMetricFailureBackoff;
      KnownStates();
      var state := states[result.job.name];
      var delay := state.metric.definition.interval * SECOND;
      var backoff := 0;
      if !result.outcome.Value? {
        backoff := CustomMetricFailureBackoff(state.backoff);
        delay := Max(delay, backoff);
      }
      RescheduleKeepsView(states, order, cursor, collector.registry.named, result.job.name,
                          result.completedAt + delay, backoff);
      states := states[result.job.name := State(state.metric, result.completedAt + delay, backoff)];
    }

    method StoreSample(result: Result)
      requires Valid() && !StaleJob(states, result.job) && result.job !in ResultJobs(results)
      requires RunsOk(executing, [result] + results, collector.runs, collector.registry.named)
      modifies collector`samples, collector`runs
      ensures Valid() &&
              SampleReplaced(old(collector.samples), collector.samples, collector.registry.metricVersions, result)
      ensures RunsMove(old(collector.runs), collector.runs)
    {
      hide View, StatesOk, JobsOk, RunsOk, SampleOk, Registry.Valid, ResultJobs, RunsMove;
      RunsSame(collector.runs);
      collector.samples := collector.samples - {result.job.name};
      if result.outcome.Value? && result.job.name in collector.registry.metricVersions &&
        result.job.version == collector.registry.metricVersions[result.job.name]
      {
        var stored := Sample(result.outcome.value, result.completedAt, result.job.version, result.run);
        StoreRun(collector.runs, collector.registry.named, collector.samples, executing, result, results, stored);
        collector.runs := collector.runs[result.run := collector.runs[result.run].(stage := Stored)];
        collector.samples := collector.samples[result.job.name := stored];
      }
    }

    /** The loop reads the registry. */
    method TakeSnapshot()
      requires Valid()
      modifies this`taken
      ensures Valid() && taken.Some? && taken.value.version == collector.registry.version
    {
      hide View, ByName, StatesOk, JobsOk, RunsOk, SampleOk, Matching, Registry.Valid;
      var metrics, at := collector.registry.Snapshot();
      taken := Some(Snapshot(metrics, at));
    }

    /** The loop takes over the snapshot it holds. The registry may have moved on since. */
    method UseSnapshot()
      requires Valid() && taken.Some?
      modifies this`version, this`configured, this`states, this`order, this`cursor, this`canceled, collector`samples
      ensures Valid() && configured && version == taken.value.version
      ensures old(configured) && old(version) == taken.value.version ==>
                states == old(states) && order == old(order) && cursor == old(cursor)
    {
      hide View, ByName, StatesOk, JobsOk, RunsOk, SampleOk, Matching, Registry.Valid, StaleJob;
      Synchronize(taken.value.metrics, taken.value.version);
    }

    /** One step of the collector's loop or of a goroutine beside it. */
    method Step()
      requires Valid()
      modifies this, collector, collector.registry
      ensures Valid() && RunsMove(old(collector.runs), collector.runs)
    {
      hide View, StatesOk, JobsOk, RunsOk, SampleOk, Matching, Registry.Valid, RunsMove, Named, SnapshotOk, StaleJob;
      RunsSame(collector.runs);
      var choice: int := *;
      if choice == 0 {
        var updates: seq<CustomMetric> := *;
        var at: Option<Instant> := *;
        var ordered: bool := *;
        RegistryReplaced(updates, at, ordered);
      } else if choice == 1 {
        TakeSnapshot();
      } else if choice == 2 && taken.Some? {
        UseSnapshot();
      } else if choice == 3 {
        ghost var launched := LaunchDue();
      } else if choice == 4 && executing != map[] {
        var job :| job in executing;
        var outcome: Outcome := *;
        Finish(job, outcome);
      } else if choice == 5 && results != [] {
        var result := Complete();
      } else {
        Wait();
      }
    }

    /** Any interleaving of registry changes, snapshots, scheduling, job ends, result handling and
        drains: the scheduler stays consistent, every drained value is current when it is drained,
        and no value is drained twice, counting the drains before this run too. */
    method History(steps: nat, ghost earlier: seq<Drain>) returns (ghost drains: seq<Drain>)
      requires Valid() && AtMostOnce(earlier) && AllCurrent(earlier) && AllDrained(earlier, collector.runs)
      modifies this, collector, collector.registry
      ensures Valid() && earlier <= drains && AtMostOnce(drains) && AllCurrent(drains) &&
              AllDrained(drains, collector.runs)
    {
      hide View, StatesOk, JobsOk, RunsOk, SampleOk, Matching, Registry.Valid, SnapshotOk, ByName;
      hide RunsMove, RunsKept, IsDrained, HandedIn, AtMostOnce, AllDrained, Handed, CurrentSamples, CurrentDrain;
      drains := earlier;
      for step := 0 to steps
        invariant Valid() && earlier <= drains && AtMostOnce(drains) && AllCurrent(drains) &&
                  AllDrained(drains, collector.runs)
      {
        ghost var before := collector.runs;
        var drain: bool := *;
        if drain {
          var values := SamplesDrained();
          RegistryDistinct();
          ghost var entry := Drain(values, ByName(collector.registry.metrics), collector.now, before);
          AppendDrain(drains, entry, before, collector.runs);
          drains := drains + [entry];
        } else {
          Step();
          DrainedStay(drains, before, collector.runs);
        }
      }
    }

    // ---- fairness

    /** The scheduler has taken over what is registered. */
    predicate Synchronized()
      reads this, collector.registry
    {
      configured && version == collector.registry.version
    }

    /** How the metric at `index` stands: its job was started in time, or it is still due and idle and
        the cursor reaches it in time. */
    ghost predicate InLine(index: nat, job: Job, started: seq<Job>, first: nat, bound: nat)
      reads this, collector
    {
      && index < |order| && cursor < |order|
      && Turn(job, started, Distance(cursor, index, |order|), bound)
      && collector.nextRun == first + |started| && Recorded(collector.runs, first, started)
      && (job !in started ==> DueIdle(order[index]) && JobOf(states[order[index]].metric) == job)
    }

    lemma RegistryDistinct()
      requires Valid()
      ensures Distinct(collector.registry.metrics)
    {
    }

    lemma CursorInOrder()
      requires Valid() && order != []
      ensures cursor < |order|
      ensures forall i :: 0 <= i < |order| ==> order[i] in states && states[order[i]].metric.definition.name == order[i]
    {
      hide View, ByName, JobsOk, RunsOk, SampleOk, Matching, Registry.Valid, SnapshotOk;
    }

    /** The launching step brings the waiting metric nearer, or starts it. */
    method LaunchInLine(ghost index: nat, ghost job: Job, ghost started: seq<Job>, ghost first: nat,
                        ghost bound: nat)
      returns (ghost after: seq<Job>)
      requires Valid() && Synchronized() && InLine(index, job, started, first, bound)
      modifies this`cursor, this`active, this`executing, collector`nextRun, collector`now, collector`runs
      ensures Valid() && Synchronized() && started <= after && InLine(index, job, after, first, bound)
    {
      hide View, ByName, StatesOk, JobsOk, RunsOk, SampleOk, Matching, Registry.Valid, SnapshotOk;
      hide Turn, Served, Distance, Recorded, RunsKept;
      ghost var before, runs := cursor, collector.runs;
      ghost var launched := LaunchDue();
      after := started + launched;
      RecordedKept(runs, collector.runs, first, started);
      RecordedMore(collector.runs, first, started, launched);
      CursorInOrder();
      if job in started {
        TurnDone(job, started, launched, Distance(before, index, |order|), bound);
        TurnAnywhere(job, after, Distance(before, index, |order|), Distance(cursor, index, |order|), bound);
      } else {
        TurnStep(job, started, Distance(before, index, |order|), Distance(cursor, index, |order|), bound, launched,
                 active);
      }
    }

    /** A result of another job leaves the waiting metric in line. */
    method CompleteInLine(ghost index: nat, ghost job: Job, ghost started: seq<Job>, ghost first: nat,
                          ghost bound: nat)
      requires Valid() && Synchronized() && InLine(index, job, started, first, bound) && results != []
      modifies this`active, this`canceled, this`results, this`states, collector`samples, collector`runs
      ensures Valid() && Synchronized() && InLine(index, job, started, first, bound)
    {
      hide View, ByName, StatesOk, JobsOk, RunsOk, SampleOk, Matching, Registry.Valid, SnapshotOk;
      hide Turn, Distance, Rescheduled, StaleJob, SampleReplaced, Recorded, RunsKept;
      CursorInOrder();
      ghost var before, busy, runs := states, active, collector.runs;
      var result := Complete();
      RecordedKept(runs, collector.runs, first, started);
      if job !in started {
        IdleKept(before, states, result, order[index], busy);
      }
    }

    /** One step of the loop or of a job while the registry stays as it is. */
    method QuietStep(ghost index: nat, ghost job: Job, ghost started: seq<Job>, ghost first: nat,
                     ghost bound: nat)
      returns (ghost after: seq<Job>)
      requires Valid() && Synchronized() && InLine(index, job, started, first, bound)
      modifies this, collector
      ensures Valid() && Synchronized() && order == old(order) && started <= after
      ensures InLine(index, job, after, first, bound)
    {
      hide View, ByName, StatesOk, JobsOk, RunsOk, SampleOk, Matching, Registry.Valid, SnapshotOk, Turn, Distance;
      hide CurrentSamples, CurrentDrain, Handed, Recorded, RunsKept;
      ghost var runs := collector.runs;
      after := started;
      var choice: int := *;
      if choice == 0 {
        TakeSnapshot();
        UseSnapshot();
      } else if choice == 1 {
        after := LaunchInLine(index, job, started, first, bound);
      } else if choice == 2 && executing != map[] {
        var done :| done in executing;
        var outcome: Outcome := *;
        Finish(done, outcome);
        RecordedKept(runs, collector.runs, first, started);
      } else if choice == 3 && results != [] {
        CompleteInLine(index, job, started, first, bound);
      } else if choice == 4 {
        var values := SamplesDrained();
        RecordedKept(runs, collector.runs, first, started);
      } else {
        Wait();
      }
    }

    /** While the registry is unchanged, at most |order| - 1 other jobs start before a metric that is
        due and idle, however launching, job ends, results, drains and time interleave. The jobs that
        start are those of the new runs, in their order. */
    method WaitForTurn(index: nat, steps: nat) returns (ghost started: seq<Job>)
      requires Valid() && Synchronized() && index < |order| && DueIdle(order[index])
      modifies this, collector
      ensures Valid() && Synchronized() && order == old(order)
      ensures collector.nextRun == old(collector.nextRun) + |started|
      ensures Recorded(collector.runs, old(collector.nextRun), started)
      ensures AtMostBefore(old(JobOf(states[order[index]].metric)), started, |order| - 1)
    {
      hide View, ByName, StatesOk, JobsOk, RunsOk, SampleOk, Matching, Registry.Valid, SnapshotOk;
      CursorInOrder();
      ghost var job, bound := JobOf(states[order[index]].metric), Distance(cursor, index, |order|);
      ghost var first := collector.nextRun;
      started := [];
      for step := 0 to steps
        invariant Valid() && Synchronized() && order == old(order) && InLine(index, job, started, first, bound)
      {
        started := QuietStep(index, job, started, first, bound);
      }
      TurnMeans(job, started, Distance(cursor, index, |order|), bound);
    }
  }

  /** Once started, the distance no longer matters. */
  lemma TurnAnywhere(job: Job, started: seq<Job>, distance: nat, other: nat, bound: nat)
    requires job in started && Turn(job, started, distance, bound)
    ensures Turn(job, started, other, bound)
  {
  }

  /** Any number of runs of one collector, one after the other, each with its own scheduler. */
  method Lifetimes(collector: Collector, lives: nat, steps: nat) returns (ghost drains: seq<Drain>)
    requires collector.Valid() && collector.samples == map[] && collector.runs == map[]
    modifies collector, collector.registry
    ensures AtMostOnce(drains) && AllCurrent(drains) && AllDrained(drains, collector.runs)
  {
    hide Collector.Valid, AtMostOnce, AllDrained, CurrentDrain;
    drains := [];
    NoDrains(collector.runs);
    for life := 0 to lives
      invariant collector.Valid() && collector.samples == map[]
      invariant AtMostOnce(drains) && AllCurrent(drains) && AllDrained(drains, collector.runs)
    {
      var scheduler := new Scheduler(collector);
      drains := scheduler.History(steps, drains);
      collector.Stopped();
    }
  }

  lemma NoDrains(runs: map<nat, Run>)
    requires runs == map[]
    ensures AtMostOnce([]) && AllDrained([], runs)
  {
  }
}
