/** The rollout tables and what every transaction keeps (internal/agentrollout). The last three fields
    of `Db` are history variables: the observations accepted for each assignment, the waves each
    rollout was promoted from with the rows found healthy, and the identifiers that were ever given
    to a rollout or target. A database backup carries them along. */
module RolloutProtocol {
  import opened Basics
  import opened RolloutHealth

  datatype Phase = Paused | Active | Completed | Aborted

  datatype Release = Release(
    version: string, channel: string, key: string, expiresAt: Instant, revoked: bool, verified: bool)

  datatype Rollout = Rollout(
    release: string, phase: Phase, reason: Reason, wave: int, total: int, policy: Policy, createdAt: Instant)

  datatype AttemptState = Recorded(state: TargetState) | Unknown

  datatype Attempt = Attempt(target: string, state: AttemptState, endedAt: Option<Instant>)

  /** A passed health gate: the wave's rows and the nodes as they were read. */
  datatype Promotion = Promotion(at: Instant, found: map<string, Target>, nodes: map<string, NodeState>)

  datatype Db = Db(
    releases: map<string, Release>, signaturePolicy: string, rollouts: map<string, Rollout>,
    targets: map<string, Target>,
    attempts: map<nat, Attempt>, accepted: map<nat, seq<Accepted>>, promotions: map<string, seq<Promotion>>,
    born: set<string>)

  predicate Terminal(phase: Phase) {
    phase == Completed || phase == Aborted
  }

  predicate InFlight(state: TargetState) {
    state == Offered || state == Observing
  }

  // ---- the health gate

  predicate ValidWaveHealth(target: Target, nodes: map<string, NodeState>, version: string, policy: Policy,
                            at: Instant) {
    && target.node in nodes && nodes[target.node].version == version
    && nodes[target.node].lastSeen.Some? && at - nodes[target.node].lastSeen.value <= policy.Freshness()
    && target.state == Healthy && target.since.Some? && target.lastReport.Some?
    && at - target.since.value >= policy.Window() && at - target.lastReport.value <= policy.Freshness()
  }

  function WaveTargets(db: Db, rollout: string, wave: int): set<string> {
    set id | id in db.targets && db.targets[id].rollout == rollout && db.targets[id].wave == wave
  }

  /** A promotion found every target of its wave healthy, on the release's version and fresh. */
  ghost predicate PromotionOk(db: Db, rollout: string, wave: nat, promotion: Promotion)
    requires rollout in db.rollouts && db.rollouts[rollout].release in db.releases
  {
    && promotion.found.Keys == WaveTargets(db, rollout, wave) && promotion.found != map[]
    && forall id :: id in promotion.found ==>
         ValidWaveHealth(promotion.found[id], promotion.nodes, db.releases[db.rollouts[rollout].release].version,
                         db.rollouts[rollout].policy, promotion.at)
  }

  // ---- invariants of the tables

  ghost predicate RolloutOk(db: Db, rollout: string)
    requires rollout in db.rollouts
  {
    var row := db.rollouts[rollout];
    && -1 <= row.wave < row.total && row.total > 0 && ValidPolicy(row.policy)
    && (row.phase == Completed ==> row.wave == row.total - 1)
    && row.release in db.releases && rollout in db.promotions
    && (row.phase == Active ==> row.wave >= 0 && row.reason == NoReason && !db.releases[row.release].revoked)
    && |db.promotions[rollout]| == (if row.phase == Completed then row.wave + 1 else Max(row.wave, 0))
    && forall v :: 0 <= v < |db.promotions[rollout]| ==> PromotionOk(db, rollout, v, db.promotions[rollout][v])
  }

  ghost predicate HasAttempt(db: Db, id: string, target: Target) {
    && target.attempt.Some? && target.attempt.value in db.attempts && target.attempt.value in db.accepted
    && db.attempts[target.attempt.value].target == id
  }

  ghost predicate TargetOk(db: Db, id: string)
    requires id in db.targets
  {
    var target := db.targets[id];
    && target.rollout in db.rollouts && 0 <= target.wave < db.rollouts[target.rollout].total
    && (target.expires.Some? <==> target.nonce.Some?)
    && (target.nonce.Some? ==> target.state in {Offered, Observing, Healthy, Failed})
    && (if target.attempt.None? then
          target.state in {Pending, Held, Dropped} && target.since.None? && target.lastReport.None?
        else
          && HasAttempt(db, id, target) && target.wave <= db.rollouts[target.rollout].wave
          && WindowOk(target, db.accepted[target.attempt.value], db.rollouts[target.rollout].policy))
  }

  /** Healthy at some moment since the last offer. */
  ghost predicate WasHealthy(db: Db, target: Target) {
    && target.attempt.Some? && target.attempt.value in db.accepted
    && exists i :: 0 <= i < |db.accepted[target.attempt.value]| && db.accepted[target.attempt.value][i].state == Healthy
  }

  /** An offered or observing target that has not been healthy since its offer. */
  ghost predicate Unproven(db: Db, id: string) {
    id in db.targets && InFlight(db.targets[id].state) && !WasHealthy(db, db.targets[id])
  }

  ghost function UnprovenOf(db: Db, rollout: string): set<string> {
    set id | id in db.targets && db.targets[id].rollout == rollout && Unproven(db, id)
  }

  function InFlightOf(db: Db, rollout: string): set<string> {
    set id | id in db.targets && db.targets[id].rollout == rollout && InFlight(db.targets[id].state)
  }

  function InFlightOn(db: Db, node: string): set<string> {
    set id | id in db.targets && db.targets[id].node == node && InFlight(db.targets[id].state)
  }

  ghost predicate CapacityOk(db: Db) {
    forall rollout :: rollout in db.rollouts ==> |UnprovenOf(db, rollout)| <= db.rollouts[rollout].policy.maxConcurrent
  }

  /** Two in-flight rows of one node, which the unique index on active nodes refuses. */
  predicate Clash(one: Target, other: Target) {
    InFlight(one.state) && InFlight(other.state) && one.node == other.node
  }

  ghost predicate NodesOk(db: Db) {
    forall i, j :: i in db.targets && j in db.targets && Clash(db.targets[i], db.targets[j]) ==> i == j
  }

  ghost predicate RolloutsOk(db: Db) {
    forall rollout :: rollout in db.rollouts ==> RolloutOk(db, rollout)
  }

  ghost predicate TargetsOk(db: Db) {
    forall id :: id in db.targets ==> TargetOk(db, id)
  }

  ghost predicate Inv(db: Db, issued: nat) {
    && RolloutsOk(db) && TargetsOk(db) && CapacityOk(db) && NodesOk(db)
    && db.rollouts.Keys <= db.born && db.targets.Keys <= db.born
    && forall attempt :: attempt in db.attempts ==> attempt < issued
  }

  /** No observation was accepted in the future. */
  ghost predicate LogsPast(db: Db, now: Instant) {
    forall attempt :: attempt in db.accepted ==> LogPast(db.accepted[attempt], now)
  }

  ghost predicate LogPast(log: seq<Accepted>, now: Instant) {
    forall i :: 0 <= i < |log| ==> log[i].at <= now
  }

  // ---- what a later state keeps

  /** Stopped before its first wave: such a rollout can neither be promoted nor resumed. */
  predicate Stuck(row: Rollout) {
    row.wave == -1 && (row.phase == Aborted || (row.phase == Paused && row.reason != AwaitingPromotion))
  }

  /** A restored row that is in flight without a nonce: no report can move it and no expiry finds it. */
  predicate Stranded(target: Target) {
    InFlight(target.state) && target.nonce.None? && target.expires.None?
  }

  ghost predicate RolloutKept(before: Db, after: Db, rollout: string)
    requires rollout in before.rollouts && rollout in after.rollouts
  {
    var b, a := before.rollouts[rollout], after.rollouts[rollout];
    && a.release == b.release && a.policy == b.policy && a.total == b.total && b.wave <= a.wave &&
       a.createdAt == b.createdAt
    && (Stuck(b) ==> Stuck(a))
    && rollout in before.promotions && rollout in after.promotions &&
       before.promotions[rollout] <= after.promotions[rollout]
    && (Terminal(b.phase) ==> a == b && after.promotions[rollout] == before.promotions[rollout])
  }

  /** A failed target stays as it first failed, and its wave stays unpassed if it was. */
  ghost predicate FailureKept(before: Db, after: Db, id: string)
    requires id in before.targets && id in after.targets
  {
    var b, a := before.targets[id], after.targets[id];
    && a.state == Failed && a.reason == b.reason && a.attempt == b.attempt
    && b.attempt.Some? && b.attempt.value in before.attempts && b.attempt.value in after.attempts
    && after.attempts[b.attempt.value].endedAt == before.attempts[b.attempt.value].endedAt
    && b.rollout in before.promotions && b.rollout in after.promotions
    && (|before.promotions[b.rollout]| <= b.wave ==> |after.promotions[b.rollout]| <= b.wave)
  }

  ghost predicate TargetKept(before: Db, after: Db, id: string)
    requires id in before.targets && id in after.targets
  {
    var b, a := before.targets[id], after.targets[id];
    && a.rollout == b.rollout && a.node == b.node && a.wave == b.wave
    && b.rollout in before.rollouts
    && (Terminal(before.rollouts[b.rollout].phase) ==> a.attempt == b.attempt)
    && (b.state == Failed ==> FailureKept(before, after, id))
    && (Stranded(b) ==> a == b)
  }

  /** Rows go only together with their rollout, never come back, and stay while they are stranded. */
  ghost predicate Persistent(before: Db, after: Db) {
    && before.rollouts.Keys <= before.born && before.targets.Keys <= before.born && before.born <= after.born
    && (forall id :: id in before.targets ==> before.targets[id].rollout in before.rollouts)
    && (forall r :: r in after.rollouts && r in before.born ==> r in before.rollouts)
    && (forall id :: id in after.targets && id in before.born ==> id in before.targets)
    && (forall id :: id in before.targets && before.targets[id].rollout in after.rollouts ==> id in after.targets)
    && (forall id :: id in before.targets && Stranded(before.targets[id]) ==> id in after.targets)
  }

  ghost predicate RowsKept(before: Db, after: Db) {
    && (forall rollout :: rollout in before.rollouts && rollout in after.rollouts ==>
          RolloutKept(before, after, rollout))
    && (forall id :: id in before.targets && id in after.targets ==> TargetKept(before, after, id))
  }

  ghost predicate Kept(before: Db, after: Db) {
    Persistent(before, after) && RowsKept(before, after)
  }

  lemma {:induction false} SameRowsPersist(before: Db, after: Db)
    requires before.rollouts.Keys <= before.born && before.targets.Keys <= before.born && after.born == before.born
    requires TargetsOk(before)
    requires after.rollouts.Keys == before.rollouts.Keys && after.targets.Keys == before.targets.Keys
    ensures Persistent(before, after)
  {
    hide WindowOk;
    forall id | id in before.targets
      ensures before.targets[id].rollout in before.rollouts
    {
      assert TargetOk(before, id);
    }
  }

  /** Reports and downloads for the assignment can still be accepted. */
  ghost predicate Live(db: Db, attempt: nat) {
    exists id :: id in db.targets && db.targets[id].attempt == Some(attempt) && db.targets[id].nonce.Some?
  }

  /** Of the assignments issued so far, none that is dead comes back to life. */
  ghost predicate Retired(before: Db, after: Db, issued: nat) {
    forall attempt: nat :: attempt < issued && Live(after, attempt) ==> Live(before, attempt)
  }

  lemma {:induction false} KeptReflexive(db: Db, issued: nat)
    requires Inv(db, issued)
    ensures Kept(db, db) && Retired(db, db, issued)
  {
    SameRowsPersist(db, db);
    forall id | id in db.targets
      ensures TargetKept(db, db, id)
    {
      assert TargetOk(db, id);
      assert RolloutOk(db, db.targets[id].rollout);
    }
    forall rollout | rollout in db.rollouts
      ensures RolloutKept(db, db, rollout)
    {
      assert RolloutOk(db, rollout);
    }
  }

  lemma {:induction false} PersistentTransitive(first: Db, second: Db, third: Db)
    requires Kept(first, second) && Persistent(second, third)
    ensures Persistent(first, third)
  {
    hide RolloutKept;
    forall id | id in first.targets && (first.targets[id].rollout in third.rollouts || Stranded(first.targets[id]))
      ensures id in third.targets
    {
      assert id in second.targets ==> TargetKept(first, second, id);
    }
  }

  lemma {:induction false} KeptTransitive(first: Db, second: Db, third: Db)
    requires Kept(first, second) && Kept(second, third)
    ensures Kept(first, third)
  {
    PersistentTransitive(first, second, third);
    forall id | id in first.targets && id in third.targets
      ensures TargetKept(first, third, id)
    {
      assert TargetKept(first, second, id) && TargetKept(second, third, id);
    }
    forall rollout | rollout in first.rollouts && rollout in third.rollouts
      ensures RolloutKept(first, third, rollout)
    {
      assert RolloutKept(first, second, rollout) && RolloutKept(second, third, rollout);
    }
  }

  // ---- consequences

  /** A target that was ever offered stands behind passed gates for all earlier waves. */
  lemma {:induction false} WaveGate(db: Db, issued: nat, id: string, wave: nat)
    requires Inv(db, issued) && id in db.targets && db.targets[id].attempt.Some? && wave < db.targets[id].wave
    ensures var rollout := db.targets[id].rollout;
            && rollout in db.rollouts && db.rollouts[rollout].release in db.releases && rollout in db.promotions
            && wave < |db.promotions[rollout]| && PromotionOk(db, rollout, wave, db.promotions[rollout][wave])
  {
    assert TargetOk(db, id);
    assert RolloutOk(db, db.targets[id].rollout);
  }

  /** While a failed target's wave has not been passed, it is never passed again without a restore,
      so the rollout neither moves beyond it nor completes. */
  lemma {:induction false} FailureBlocksRollout(before: Db, after: Db, issued: nat, more: nat, id: string)
    requires Inv(before, issued) && Inv(after, more) && Kept(before, after) && id in before.targets &&
             before.targets[id].state == Failed
    requires before.targets[id].wave >= before.rollouts[before.targets[id].rollout].wave
    requires before.rollouts[before.targets[id].rollout].phase != Completed
    requires before.targets[id].rollout in after.rollouts
    ensures var target := before.targets[id];
            && after.rollouts[target.rollout].wave <= target.wave && after.rollouts[target.rollout].phase != Completed
            && id in after.targets && after.targets[id].state == Failed
  {
    hide WindowOk, PromotionOk, CapacityOk, NodesOk;
    var target := before.targets[id];
    assert TargetOk(before, id) && TargetKept(before, after, id) && TargetOk(after, id);
    assert RolloutOk(before, target.rollout) && RolloutOk(after, target.rollout);
  }

  /** A rollout stopped before its first wave stays stopped, and none of its targets is ever offered. */
  lemma {:induction false} StuckForever(before: Db, after: Db, issued: nat, rollout: string, id: string)
    requires Inv(after, issued) && Kept(before, after)
    requires rollout in before.rollouts && Stuck(before.rollouts[rollout]) && rollout in after.rollouts
    ensures Stuck(after.rollouts[rollout])
    ensures id in after.targets && after.targets[id].rollout == rollout ==> after.targets[id].attempt.None?
  {
    hide WindowOk, PromotionOk, CapacityOk, NodesOk;
    assert RolloutKept(before, after, rollout);
    if id in after.targets {
      assert TargetOk(after, id);
    }
  }

  /** An assignment is live exactly while its own target still holds it with a nonce. */
  lemma {:induction false} LiveIff(db: Db, issued: nat, attempt: nat)
    requires Inv(db, issued)
    ensures Live(db, attempt) <==>
            && attempt in db.attempts && db.attempts[attempt].target in db.targets
            && db.targets[db.attempts[attempt].target].attempt == Some(attempt)
            && db.targets[db.attempts[attempt].target].nonce.Some?
  {
    hide WindowOk, RolloutsOk, CapacityOk, NodesOk;
    if Live(db, attempt) {
      var id :| id in db.targets && db.targets[id].attempt == Some(attempt) && db.targets[id].nonce.Some?;
      assert TargetOk(db, id);
    }
  }

  /** The health window theorem for a reachable row. */
  lemma {:induction false} HealthWindow(db: Db, issued: nat, id: string) returns (start: nat)
    requires Inv(db, issued) && id in db.targets && db.targets[id].state == Healthy
    ensures var target := db.targets[id];
            && HasAttempt(db, id, target) && target.since.Some? && target.rollout in db.rollouts &&
               ValidPolicy(db.rollouts[target.rollout].policy)
            && var log, policy := db.accepted[target.attempt.value], db.rollouts[target.rollout].policy;
               && Longest(log, start, policy) && log[start].at == target.since.value
               && log[|log| - 1].at - log[start].at >= policy.Window()
               && |log| - start >= CeilDiv(policy.Window(), policy.Freshness() + SECOND) + 1
               && (IntervalCounts(log, start) <==> start == 0 || log[start - 1].at < log[start].at)
  {
    hide UnbrokenFrom, CeilDiv, ValidPolicy, CapacityOk, NodesOk, PromotionOk, IntervalCounts;
    assert TargetOk(db, id);
    var target := db.targets[id];
    assert RolloutOk(db, target.rollout);
    start := HealthyMeans(target, db.accepted[target.attempt.value], db.rollouts[target.rollout].policy);
  }
}
