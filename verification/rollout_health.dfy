/** Health observations of one assignment (internal/agentrollout/observations.go): the strict and
    tolerant thresholds, the health window, and what a `healthy` target proves about the reports
    the server accepted. Instants and durations are nanoseconds. */
module RolloutHealth {
  import opened Basics

  type Instant = int
  type Duration = int
  type Nonce = seq<byte>

  const SECOND: Duration := 1_000_000_000
  const MAXIMUM_RESTART_BUDGET := 1_000_000
  const MAXIMUM_OBSERVATION_COUNTER := 1_000_000
  const TOLERATED_TRANSIENT_ERRORS := 1

  datatype Policy = Policy(
    canaryCount: int, waveSize: int, maxConcurrent: int, observationSeconds: int, reportFreshnessSeconds: int,
    maxRestarts: int, maxProtocolErrors: int, maxMetricErrors: int, maxTaskFailures: int,
    windowStart: Instant, windowEnd: Instant)
  {
    function Window(): Duration { observationSeconds * SECOND }

    function Freshness(): Duration { reportFreshnessSeconds * SECOND }
  }

  /** The limits that every stored policy keeps. */
  predicate ValidPolicy(p: Policy) {
    && 1 <= p.canaryCount <= 1000 && 1 <= p.waveSize <= 1000 && 1 <= p.maxConcurrent <= 100
    && 30 <= p.observationSeconds <= 3600 && 5 <= p.reportFreshnessSeconds <= 3600
    && p.maxRestarts >= 0 && p.maxProtocolErrors >= 0 && p.maxMetricErrors >= 0 && p.maxTaskFailures >= 0
    && p.windowStart < p.windowEnd
  }

  datatype Reason =
    | NoReason | AwaitingPromotion | OperatorPause | OperatorAbort | HealthGateFailed | AssignmentUnknown
    | ReleaseRevoked | ReleaseExpired | SigningKeyRevoked | TrustPolicyChanged | Restored
    | AgentRolledBack | AgentFailed | RestartThreshold | ProtocolErrorThreshold | MetricErrorThreshold
    | TaskFailureThreshold
    | WaitingForValidReport | ArtifactMissing | NodeUpdateActive | AssignmentCapacity | Ineligible(text: string)

  datatype Outcome = Fine | Broken | RolledBack | Unrecognized

  datatype Observation = Observation(
    assignment: nat, nonce: Nonce, version: string, reportAt: Instant, outcome: Outcome,
    restarts: int, protocolErrors: int, metricErrors: int, taskFailures: int)

  datatype NodeState = NodeState(version: string, lastSeen: Option<Instant>)

  datatype TargetState = Pending | Held | Offered | Observing | Healthy | Failed | Dropped

  /** A row of agent_rollout_targets; `attempt` is the last assignment, `Dropped` the state 'aborted'. */
  datatype Target = Target(
    rollout: string, node: string, wave: int, state: TargetState, reason: Reason, attempt: Option<nat>,
    artifact: string,
    nonce: Option<Nonce>, expires: Option<Instant>, since: Option<Instant>, lastReport: Option<Instant>)

  // ---- thresholds

  function RestartBudget(policy: Policy): int {
    if policy.maxRestarts >= MAXIMUM_RESTART_BUDGET then MAXIMUM_RESTART_BUDGET else policy.maxRestarts + 1
  }

  function ThresholdFailure(input: Observation, policy: Policy, budget: int): (reason: Reason)
    ensures reason == NoReason <==>
            && input.outcome != RolledBack && input.outcome != Broken &&
               input.restarts <= RestartBudget(policy) + budget
            && input.protocolErrors <= policy.maxProtocolErrors + budget &&
               input.metricErrors <= policy.maxMetricErrors + budget
            && input.taskFailures <= policy.maxTaskFailures + budget
  {
    if input.outcome == RolledBack then AgentRolledBack
    else if input.outcome == Broken then AgentFailed
    else if input.restarts > RestartBudget(policy) + budget then RestartThreshold
    else if input.protocolErrors > policy.maxProtocolErrors + budget then ProtocolErrorThreshold
    else if input.metricErrors > policy.maxMetricErrors + budget then MetricErrorThreshold
    else if input.taskFailures > policy.maxTaskFailures + budget then TaskFailureThreshold
    else NoReason
  }

  function TransientErrorBudget(state: TargetState): int {
    if state == Healthy then TOLERATED_TRANSIENT_ERRORS else 0
  }

  predicate ValidCount(count: int) {
    0 <= count <= MAXIMUM_OBSERVATION_COUNTER
  }

  predicate ValidObservation(input: Observation, now: Instant) {
    && input.reportAt <= now + SECOND && input.outcome != Unrecognized
    && ValidCount(input.restarts) && ValidCount(input.protocolErrors) && ValidCount(input.metricErrors) &&
       ValidCount(input.taskFailures)
  }

  predicate ReportReady(input: Observation, node: NodeState, version: string, policy: Policy, at: Instant) {
    && node.version == version && input.version == version
    && node.lastSeen.Some? && node.lastSeen.value >= input.reportAt && at - input.reportAt <= policy.Freshness()
  }

  // ---- the health window

  /** The report counts for the window of a target. */
  predicate Counts(target: Target, input: Observation, node: NodeState, version: string, policy: Policy, at: Instant) {
    && target.state != Failed && ThresholdFailure(input, policy, TransientErrorBudget(target.state)) == NoReason
    && ReportReady(input, node, version, policy, at)
  }

  /** The target row after an accepted observation. */
  function Observed(target: Target, input: Observation, node: NodeState, version: string, policy: Policy,
                    at: Instant): Target {
    var failure := ThresholdFailure(input, policy, TransientErrorBudget(target.state));
    if target.state == Failed then
      target.(since := None, lastReport := Some(input.reportAt))
    else if failure != NoReason then
      target.(state := Failed, reason := failure, since := None, lastReport := Some(input.reportAt))
    else if !ReportReady(input, node, version, policy, at) then
      target.(state := Observing, reason := WaitingForValidReport, since := None, lastReport := Some(input.reportAt))
    else
      var gap := target.lastReport.Some? && at - target.lastReport.value > policy.Freshness();
      var since := if gap || target.since.None? then at else target.since.value;
      target.(state := if at - since >= policy.Window() then Healthy else Observing, reason := NoReason,
              since := Some(since), lastReport := Some(input.reportAt))
  }

  /** An observation the server accepted: when, the report's own time, whether it counted, and the
      target's state afterwards. */
  datatype Accepted = Accepted(at: Instant, reportAt: Instant, counted: bool, state: TargetState)

  /** The reports from `start` on all counted, and none came later than the freshness limit after
      the report before it. */
  ghost predicate UnbrokenFrom(log: seq<Accepted>, start: nat, policy: Policy) {
    && start < |log|
    && (forall i :: start <= i < |log| ==> log[i].counted)
    && (forall i :: start < i < |log| ==> log[i].at - log[i - 1].reportAt <= policy.Freshness())
  }

  /** The longest unbroken series at the end of the log starts here. */
  ghost predicate Longest(log: seq<Accepted>, start: nat, policy: Policy) {
    && UnbrokenFrom(log, start, policy)
    && (start > 0 ==> !log[start - 1].counted || log[start].at - log[start - 1].reportAt > policy.Freshness())
  }

  ghost predicate LongestAt(log: seq<Accepted>, start: nat, since: Instant, policy: Policy) {
    Longest(log, start, policy) && log[start].at == since
  }

  /** While the assignment is live, the columns say exactly this: whether the last report counted, and
      whether the longest series spans the observation time. */
  ghost predicate Exact(target: Target, log: seq<Accepted>, policy: Policy) {
    && (target.since.Some? <==> log != [] && log[|log| - 1].counted)
    && (target.state == Healthy <==> target.since.Some? && log[|log| - 1].at - target.since.value >= policy.Window())
  }

  /** Acceptance times never go back, a report's own time is at most a second ahead, and a report that
      counted was fresh. */
  ghost predicate TimesOk(log: seq<Accepted>, policy: Policy) {
    && (forall i, j :: 0 <= i <= j < |log| ==> log[i].at <= log[j].at)
    && (forall i :: 0 <= i < |log| ==> log[i].reportAt <= log[i].at + SECOND)
    && (forall i :: 0 <= i < |log| && log[i].counted ==> log[i].at - log[i].reportAt <= policy.Freshness())
  }

  /** What the health columns of a target say about the observations of its assignment. */
  ghost predicate WindowOk(target: Target, log: seq<Accepted>, policy: Policy) {
    && target.lastReport == (if log == [] then None else Some(log[|log| - 1].reportAt)) && TimesOk(log, policy)
    && (target.since.Some? ==> exists start :: LongestAt(log, start, target.since.value, policy))
    && (target.state == Healthy ==> target.since.Some? && log != [] && log[|log| - 1].state == Healthy)
    && (target.state == Healthy ==> log[|log| - 1].at - target.since.value >= policy.Window())
    && (target.nonce.Some? ==> Exact(target, log, policy))
  }

  lemma {:induction false} ExtendSeries(log: seq<Accepted>, entry: Accepted, start: nat, policy: Policy)
    requires Longest(log, start, policy) && entry.counted && entry.at - log[|log| - 1].reportAt <= policy.Freshness()
    ensures Longest(log + [entry], start, policy) && (log + [entry])[start] == log[start]
  {
  }

  lemma {:induction false} NewSeries(log: seq<Accepted>, entry: Accepted, policy: Policy)
    requires entry.counted
    requires log == [] || !log[|log| - 1].counted || entry.at - log[|log| - 1].reportAt > policy.Freshness()
    ensures Longest(log + [entry], |log|, policy) && (log + [entry])[|log|] == entry
  {
  }

  lemma {:induction false} TimesAppend(log: seq<Accepted>, entry: Accepted, policy: Policy)
    requires TimesOk(log, policy) && entry.reportAt <= entry.at + SECOND
    requires log != [] ==> log[|log| - 1].at <= entry.at
    requires entry.counted ==> entry.at - entry.reportAt <= policy.Freshness()
    ensures TimesOk(log + [entry], policy)
  {
    assert forall i :: 0 <= i < |log| ==> log[i].at <= log[|log| - 1].at;
  }

  lemma {:induction false} ObservedKeepsWindow(target: Target, log: seq<Accepted>, input: Observation, node: NodeState,
                                               version: string, policy: Policy, at: Instant)
    requires WindowOk(target, log, policy) && target.nonce.Some? && input.reportAt <= at + SECOND
    requires log != [] ==> log[|log| - 1].at <= at
    ensures var after := Observed(target, input, node, version, policy, at);
            var counted := Counts(target, input, node, version, policy, at);
            WindowOk(after, log + [Accepted(at, input.reportAt, counted, after.state)], policy)
  {
    hide ThresholdFailure, TimesOk, Longest;
    var after := Observed(target, input, node, version, policy, at);
    var entry := Accepted(at, input.reportAt, Counts(target, input, node, version, policy, at), after.state);
    TimesAppend(log, entry, policy);
    if after.since.Some? {
      if target.since.Some? && !(target.lastReport.Some? && at - target.lastReport.value > policy.Freshness()) {
        var start :| LongestAt(log, start, target.since.value, policy);
        ExtendSeries(log, entry, start, policy);
        assert LongestAt(log + [entry], start, after.since.value, policy);
      } else {
        NewSeries(log, entry, policy);
        assert LongestAt(log + [entry], |log|, after.since.value, policy);
      }
    }
  }

  lemma {:induction false} LongestUnique(log: seq<Accepted>, one: nat, other: nat, policy: Policy)
    requires Longest(log, one, policy) && Longest(log, other, policy)
    ensures one == other
  {
  }

  /** A live target is healthy if and only if the longest unbroken series of counting reports spans
      the observation time. */
  lemma {:induction false} HealthyIff(target: Target, log: seq<Accepted>, start: nat, policy: Policy)
    requires WindowOk(target, log, policy) && target.nonce.Some? && Longest(log, start, policy)
    ensures target.state == Healthy <==> log[|log| - 1].at - log[start].at >= policy.Window()
  {
    hide Longest;
    assert log[|log| - 1].counted && start < |log| by { SeriesEnd(log, start, policy); }
    var first :| LongestAt(log, first, target.since.value, policy);
    LongestUnique(log, first, start, policy);
  }

  lemma {:induction false} SeriesEnd(log: seq<Accepted>, start: nat, policy: Policy)
    requires Longest(log, start, policy)
    ensures start < |log| && log[|log| - 1].counted
  {
  }

  lemma {:induction false} UnbrokenSpan(log: seq<Accepted>, start: nat, end: nat, policy: Policy)
    requires UnbrokenFrom(log, start, policy) && start <= end < |log|
    requires forall i :: 0 <= i < |log| ==> log[i].reportAt <= log[i].at + SECOND
    ensures log[end].at - log[start].at <= (end - start) * (policy.Freshness() + SECOND)
    decreases end - start
  {
    if start < end {
      UnbrokenSpan(log, start, end - 1, policy);
      assert log[end].at - log[end - 1].at <= policy.Freshness() + SECOND;
      assert (end - start) * (policy.Freshness() + SECOND) ==
               (end - 1 - start) * (policy.Freshness() + SECOND) + (policy.Freshness() + SECOND);
    }
  }

  function CeilDiv(a: int, b: int): int
    requires b > 0
  {
    (a + b - 1) / b
  }

  lemma CeilDivLeast(a: int, b: int, n: int)
    requires b > 0 && a <= n * b
    ensures CeilDiv(a, b) <= n
  {
    var q := (a + b - 1) / b;
    assert q * b <= a + b - 1 < (n + 1) * b;
  }

  /** Every report accepted between the start and the end of the series counted. */
  ghost predicate IntervalCounts(log: seq<Accepted>, start: nat)
    requires start < |log|
  {
    forall i :: 0 <= i < |log| && log[start].at <= log[i].at <= log[|log| - 1].at ==> log[i].counted
  }

  /** Read by the clock, every report of the interval counted if and only if the clock had moved on
      between the report that started the series and the one accepted before it. */
  lemma {:induction false} IntervalIff(log: seq<Accepted>, start: nat, policy: Policy)
    requires TimesOk(log, policy) && Longest(log, start, policy)
    ensures IntervalCounts(log, start) <==> start == 0 || log[start - 1].at < log[start].at
  {
    assert forall i :: 0 <= i < start ==> log[i].at <= log[start - 1].at;
    assert start > 0 ==> log[start - 1].at <= log[start].at <= log[|log| - 1].at;
  }

  /** A healthy target was observed for the whole window by an unbroken series of counting reports,
      the longest one, and there were at least ceil(O / (F + 1s)) + 1 of them. */
  lemma HealthyMeans(target: Target, log: seq<Accepted>, policy: Policy) returns (start: nat)
    requires WindowOk(target, log, policy) && target.state == Healthy && ValidPolicy(policy)
    ensures Longest(log, start, policy) && log[start].at == target.since.value
    ensures log[|log| - 1].at - log[start].at >= policy.Window()
    ensures |log| - start >= CeilDiv(policy.Window(), policy.Freshness() + SECOND) + 1
    ensures IntervalCounts(log, start) <==> start == 0 || log[start - 1].at < log[start].at
  {
    start :| LongestAt(log, start, target.since.value, policy);
    UnbrokenSpan(log, start, |log| - 1, policy);
    CeilDivLeast(policy.Window(), policy.Freshness() + SECOND, |log| - 1 - start);
    IntervalIff(log, start, policy);
  }

  /** When a report can move a healthy target back to observing: the counters are still tolerated, but
      the report is not ready or too late after the one before. */
  predicate SlidesBack(target: Target, input: Observation, node: NodeState, version: string, policy: Policy,
                       at: Instant) {
    && target.state == Healthy && ThresholdFailure(input, policy, TOLERATED_TRANSIENT_ERRORS) == NoReason
    && (!ReportReady(input, node, version, policy, at)
        || (target.lastReport.Some? && at - target.lastReport.value > policy.Freshness()))
  }

  /** Among the targets that are not in flight, exactly those that slide back come into flight. */
  lemma {:induction false} SlidesBackIff(target: Target, log: seq<Accepted>, input: Observation, node: NodeState,
                                         version: string, policy: Policy, at: Instant)
    requires WindowOk(target, log, policy) && ValidPolicy(policy) && (target.state == Healthy || target.state == Failed)
    requires log != [] ==> log[|log| - 1].at <= at
    ensures Observed(target, input, node, version, policy, at).state in {Offered, Observing} <==>
            SlidesBack(target, input, node, version, policy, at)
  {
    hide ThresholdFailure, ReportReady, TimesOk, LongestAt;
  }
}
