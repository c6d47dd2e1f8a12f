/** The rollout service (internal/agentrollout): every method is one transaction, so any order of
    calls is a run. Signature, trust and artifact checks come in as parameters; identifiers are new
    because they are random. */
module RolloutService {
  import opened Basics
  import opened RolloutHealth
  import opened RolloutProtocol
  import opened RolloutSteps
  import opened RolloutTransactions

  const MAXIMUM_TARGETS := 1000
  const RECOVERY_BATCH_SIZE := 1000
  const MAXIMUM_IDENTIFIER_BYTES := 128
  const DEFAULT_ROLLOUT_WINDOW: Duration := 7 * 24 * 3600 * SECOND
  const MAXIMUM_ROLLOUT_WINDOW: Duration := 30 * 24 * 3600 * SECOND

  /** A moment of a run: the tables, how many assignments were ever issued, and how many restores
      there were. */
  datatype Moment = Moment(db: Db, issued: nat, epoch: nat)

  /** Dead assignments stay dead through everything; all else is kept until the next restore. */
  ghost predicate Later(before: Moment, after: Moment) {
    && before.issued <= after.issued && before.epoch <= after.epoch
    && Retired(before.db, after.db, before.issued)
    && (before.epoch == after.epoch ==> Kept(before.db, after.db))
  }

  lemma {:induction false} LaterTransitive(first: Moment, second: Moment, third: Moment)
    requires Later(first, second) && Later(second, third)
    ensures Later(first, third)
  {
    hide Kept;
    if first.epoch == third.epoch {
      KeptTransitive(first.db, second.db, third.db);
    }
  }

  predicate Available(db: Db, release: string, trusted: bool, at: Instant) {
    && release in db.releases && trusted && db.releases[release].verified && !db.releases[release].revoked
    && at < db.releases[release].expiresAt
  }

  predicate ValidWindow(policy: Policy, at: Instant) {
    at < policy.windowEnd && policy.windowEnd - policy.windowStart <= MAXIMUM_ROLLOUT_WINDOW
  }

  /** A policy as an operator sends it; zero and missing fields ask for the default. */
  datatype PolicyInput = PolicyInput(
    canaryCount: int, waveSize: int, maxConcurrent: int, observationSeconds: int, reportFreshnessSeconds: int,
    maxRestarts: int, maxProtocolErrors: int, maxMetricErrors: int, maxTaskFailures: int,
    windowStart: Option<Instant>, windowEnd: Option<Instant>)

  function OrDefault(value: int, standard: int): int {
    if value == 0 then standard else value
  }

  function NormalizedPolicy(p: PolicyInput, now: Instant): Policy {
    Policy(OrDefault(p.canaryCount, 1), OrDefault(p.waveSize, 10), OrDefault(p.maxConcurrent, 1),
           OrDefault(p.observationSeconds, 300), OrDefault(p.reportFreshnessSeconds, 60),
           p.maxRestarts, p.maxProtocolErrors, p.maxMetricErrors, p.maxTaskFailures,
           if p.windowStart.Some? then p.windowStart.value else now,
           if p.windowEnd.Some? then p.windowEnd.value else now + DEFAULT_ROLLOUT_WINDOW)
  }

  const DAY: Duration := 24 * 3600 * SECOND

  /** The maintenance windows an operator may ask for: it ends in the future and lasts at most thirty
      days, where a missing start is now and a missing end is in seven days. */
  predicate AcceptedWindow(start: Option<Instant>, end: Option<Instant>, now: Instant) {
    match (start, end)
    case (None, None) => true
    case (None, Some(e)) => now < e <= now + 30 * DAY
    case (Some(s), None) => now - 23 * DAY <= s < now + 7 * DAY
    case (Some(s), Some(e)) => s < e && now < e <= s + 30 * DAY
  }

  /** The policies that are accepted, told by what the operator sends. */
  lemma PolicyAccepted(p: PolicyInput, now: Instant)
    ensures var policy := NormalizedPolicy(p, now);
            ValidPolicy(policy) && ValidWindow(policy, now) <==>
            && 0 <= p.canaryCount <= 1000 && 0 <= p.waveSize <= 1000 && 0 <= p.maxConcurrent <= 100
            && (p.observationSeconds == 0 || 30 <= p.observationSeconds <= 3600)
            && (p.reportFreshnessSeconds == 0 || 5 <= p.reportFreshnessSeconds <= 3600)
            && p.maxRestarts >= 0 && p.maxProtocolErrors >= 0 && p.maxMetricErrors >= 0 && p.maxTaskFailures >= 0
            && AcceptedWindow(p.windowStart, p.windowEnd, now)
  {
  }

  datatype CreateInput = CreateInput(name: string, release: string, policy: PolicyInput, action: string,
                                     acknowledged: bool)

  /** An upgrade, which is the default, or an acknowledged rollback. */
  predicate ValidAction(input: CreateInput) {
    input.action in {"", "upgrade"} || (input.action == "rollback" && input.acknowledged)
  }

  predicate ValidCreate(db: Db, input: CreateInput, count: nat, trusted: bool, compatible: bool, now: Instant) {
    var policy := NormalizedPolicy(input.policy, now);
    && ValidAction(input) && input.name != [] && Utf8Bytes(input.name) <= MAXIMUM_IDENTIFIER_BYTES
    && ValidPolicy(policy) && ValidWindow(policy, now)
    && Available(db, input.release, trusted, now) && compatible && 1 <= count <= MAXIMUM_TARGETS
  }

  // ---- the order in which work is found

  predicate TextLess(a: string, b: string) {
    b != [] && (a == [] || a[0] < b[0] || (a[0] == b[0] && TextLess(a[1..], b[1..])))
  }

  lemma {:induction false} TextTransitive(a: string, b: string, c: string)
    requires TextLess(a, b) && TextLess(b, c)
    ensures TextLess(a, c)
  {
    if a != [] && a[0] == b[0] == c[0] {
      TextTransitive(a[1..], b[1..], c[1..]);
    }
  }

  lemma {:induction false} TextIrreflexive(a: string)
    ensures !TextLess(a, a)
  {
    if a != [] {
      TextIrreflexive(a[1..]);
    }
  }

  lemma {:induction false} TextTotal(a: string, b: string)
    requires a != b
    ensures TextLess(a, b) || TextLess(b, a)
  {
    if a != [] && b != [] && a[0] == b[0] {
      assert a == [a[0]] + a[1..] && b == [b[0]] + b[1..];
      TextTotal(a[1..], b[1..]);
    }
  }

  /** The older rollout first, then the smaller target identifier. */
  predicate Earlier(db: Db, a: string, b: string)
    requires a in db.targets && db.targets[a].rollout in db.rollouts && b in db.targets &&
             db.targets[b].rollout in db.rollouts
  {
    var x, y := db.rollouts[db.targets[a].rollout].createdAt, db.rollouts[db.targets[b].rollout].createdAt;
    x < y || (x == y && TextLess(a, b))
  }

  lemma {:induction false} EarlierOrder(db: Db, a: string, b: string, c: string)
    requires a in db.targets && db.targets[a].rollout in db.rollouts && b in db.targets &&
             db.targets[b].rollout in db.rollouts
    requires c in db.targets && db.targets[c].rollout in db.rollouts
    ensures Earlier(db, a, b) && Earlier(db, b, c) ==> Earlier(db, a, c)
    ensures a != b ==> Earlier(db, a, b) || Earlier(db, b, a)
    ensures !Earlier(db, a, a)
  {
    TextIrreflexive(a);
    if TextLess(a, b) && TextLess(b, c) {
      TextTransitive(a, b, c);
    }
    if a != b {
      TextTotal(a, b);
    }
  }

  predicate NotActive(db: Db, rollout: string) {
    rollout in db.rollouts && db.rollouts[rollout].phase != Active
  }

  /** The last assignment of the target is unknown since `at`. */
  predicate TakenBack(db: Db, id: string, at: Instant) {
    && id in db.targets && db.targets[id].attempt.Some? && db.targets[id].attempt.value in db.attempts
    && db.attempts[db.targets[id].attempt.value] == Attempt(id, Unknown, Some(at))
  }

  /** The last assignment of the target is dead. */
  ghost predicate Dead(db: Db, id: string) {
    id in db.targets && db.targets[id].attempt.Some? && !Live(db, db.targets[id].attempt.value)
  }

  /** The taken rows were expired and are held without their assignment, the others are unchanged. */
  ghost predicate TakenRows(before: map<string, Target>, after: map<string, Target>, taken: set<string>, at: Instant) {
    && after.Keys == before.Keys && taken <= after.Keys
    && (forall id :: id in taken ==> Expired(before[id], at) && after[id] == ExpiredRow(before[id]))
    && (forall id :: id in after && id !in taken ==> after[id] == before[id])
  }

  /** The rollout has one of the taken rows. */
  ghost predicate Hit(targets: map<string, Target>, taken: set<string>, rollout: string) {
    exists id :: id in taken && id in targets && targets[id].rollout == rollout
  }

  /** The rollouts of taken rows are paused, unless they are finished. */
  ghost function AfterTaking(db: Db, taken: set<string>, rollout: string): Rollout
    requires rollout in db.rollouts
  {
    if Hit(db.targets, taken, rollout) then PausedRow(db.rollouts[rollout], AssignmentUnknown)
    else db.rollouts[rollout]
  }

  /** The state after taking back these rows. */
  ghost predicate TakenState(before: Db, after: Db, taken: set<string>, at: Instant) {
    && TakenRows(before.targets, after.targets, taken, at)
    && after.releases == before.releases && after.rollouts.Keys == before.rollouts.Keys
    && (forall r :: r in after.rollouts ==> after.rollouts[r] == AfterTaking(before, taken, r))
    && (forall id :: id in taken ==> TakenBack(after, id, at))
  }

  function DueRows(targets: map<string, Target>, at: Instant): set<string> {
    set id | id in targets && Expired(targets[id], at)
  }

  lemma {:induction false} TakeNone(db: Db, at: Instant)
    ensures TakenState(db, db, {}, at)
  {
  }

  lemma {:induction false} TakeOne(before: Db, db: Db, taken: set<string>, id: string, at: Instant)
    requires TakenState(before, db, taken, at) && id in db.targets && id in DueRows(db.targets, at)
    requires HasAttempt(db, id, db.targets[id])
    ensures id !in taken && TakenState(before, ExpiredDb(db, id, at), taken + {id}, at)
    ensures DueRows(ExpiredDb(db, id, at).targets, at) == DueRows(db.targets, at) - {id}
  {
    hide AfterTaking, TakenRows, TakenBack, ExpiredRow, DueRows;
    var after := ExpiredDb(db, id, at);
    assert after.targets == db.targets[id := ExpiredRow(db.targets[id])];
    TakeOneRow(before.targets, db.targets, taken, id, at);
    forall r | r in after.rollouts
      ensures after.rollouts[r] == AfterTaking(before, taken + {id}, r)
    {
      TakeOneRollout(before, db, taken, id, at, r);
    }
    forall other | other in taken + {id}
      ensures TakenBack(after, other, at)
    {
      TakenBackStays(db, id, at, other);
    }
  }

  lemma {:induction false} TakeOneRow(before: map<string, Target>, after: map<string, Target>, taken: set<string>,
                                      id: string, at: Instant)
    requires TakenRows(before, after, taken, at) && id in DueRows(after, at)
    ensures id !in taken && TakenRows(before, after[id := ExpiredRow(after[id])], taken + {id}, at)
    ensures DueRows(after[id := ExpiredRow(after[id])], at) == DueRows(after, at) - {id}
  {
  }

  lemma {:induction false} TakenBackStays(db: Db, id: string, at: Instant, other: string)
    requires id in db.targets && HasAttempt(db, id, db.targets[id])
    requires other == id || TakenBack(db, other, at)
    ensures TakenBack(ExpiredDb(db, id, at), other, at)
  {
  }

  lemma {:induction false} TakeOneRollout(before: Db, db: Db, taken: set<string>, id: string, at: Instant, r: string)
    requires TakenRows(before.targets, db.targets, taken, at) && id in db.targets && id !in taken
    requires r in db.rollouts && r in before.rollouts && db.rollouts[r] == AfterTaking(before, taken, r)
    requires HasAttempt(db, id, db.targets[id])
    ensures ExpiredDb(db, id, at).rollouts[r] == AfterTaking(before, taken + {id}, r)
  {
    assert Hit(before.targets, taken + {id}, r) <==>
           Hit(before.targets, taken, r) || before.targets[id].rollout == r by {
      if Hit(before.targets, taken, r) {
        var other :| other in taken && other in before.targets && before.targets[other].rollout == r;
        assert other in taken + {id};
      }
      assert id in taken + {id};
    }
  }

  lemma {:induction false} TakenMeans(before: Db, db: Db, taken: set<string>, at: Instant, issued: nat, id: string)
    requires Inv(db, issued) && TakenState(before, db, taken, at) && id in taken
    requires db.targets[id].rollout in db.rollouts
    ensures NotActive(db, db.targets[id].rollout) && TakenBack(db, id, at) && Dead(db, id)
  {
    hide Inv, Live;
    assert Hit(before.targets, taken, db.targets[id].rollout);
    LiveIff(db, issued, db.targets[id].attempt.value);
  }

  /** The release of the rollout expired or was revoked. */
  predicate Lapsed(db: Db, rollout: string, at: Instant) {
    && rollout in db.rollouts && db.rollouts[rollout].release in db.releases
    && (db.releases[db.rollouts[rollout].release].expiresAt <= at || db.releases[db.rollouts[rollout].release].revoked)
  }

  function LapseReason(db: Db, rollout: string): Reason {
    if rollout in db.rollouts && db.rollouts[rollout].release in db.releases &&
       db.releases[db.rollouts[rollout].release].revoked then ReleaseRevoked
    else ReleaseExpired
  }

  predicate MustPause(db: Db, rollout: string, at: Instant) {
    && Lapsed(db, rollout, at) && !Terminal(db.rollouts[rollout].phase)
    && db.rollouts[rollout].reason !in {ReleaseRevoked, ReleaseExpired, SigningKeyRevoked}
  }

  /** The rollouts after a recovery: those of lapsed releases that it paused, those of taken rows, and
      the others, which are unchanged. */
  ghost predicate RecoveredRollouts(before: Db, after: Db, taken: set<string>, paused: set<string>, at: Instant) {
    && after.releases == before.releases && after.rollouts.Keys == before.rollouts.Keys
    && (forall r :: r in paused ==> Lapsed(before, r, at) && !Terminal(before.rollouts[r].phase))
    && (forall r :: r in after.rollouts ==>
          after.rollouts[r] == if r in paused then PausedRow(before.rollouts[r], LapseReason(before, r))
                               else AfterTaking(before, taken, r))
  }

  lemma {:induction false} RecoveredBoth(before: Db, middle: Db, after: Db, taken: set<string>, paused: set<string>,
                                         at: Instant)
    requires TakenState(before, middle, taken, at)
    requires after.releases == middle.releases && after.rollouts.Keys == middle.rollouts.Keys
    requires forall r :: r in paused ==> MustPause(middle, r, at)
    requires forall r :: r in after.rollouts ==>
               after.rollouts[r] ==
                 if r in paused then PausedRow(middle.rollouts[r], LapseReason(middle, r)) else middle.rollouts[r]
    ensures RecoveredRollouts(before, after, taken, paused, at)
  {
    hide Hit, TakenRows, TakenBack;
    forall r | r in middle.rollouts
      ensures middle.rollouts[r] == AfterTaking(before, taken, r)
    {
    }
  }

  function SignedWith(db: Db, key: string): set<string> {
    set r | r in db.releases && db.releases[r].key == key
  }

  /** What the search for work on a node finds. */
  datatype Selection = Nothing | Refused | Hold(id: string, reason: Reason) | Found(id: string)

  /** Targets whose wave is open and that wait for an offer. */
  function Leasable(db: Db, node: string): set<string> {
    set id | id in db.targets && db.targets[id].node == node && db.targets[id].rollout in db.rollouts &&
             db.rollouts[db.targets[id].rollout].phase == Active &&
             db.rollouts[db.targets[id].rollout].wave == db.targets[id].wave &&
             Waiting(db.targets[id].state)
  }

  /** The target that the search takes: the first of the leasable ones. */
  predicate IsFirst(db: Db, node: string, id: string) {
    id in Leasable(db, node) && forall other :: other in Leasable(db, node) && other != id ==> Earlier(db, id, other)
  }

  /** At most one target is the first. */
  lemma {:induction false} FirstUnique(db: Db, node: string, a: string, b: string)
    requires IsFirst(db, node, a) && IsFirst(db, node, b)
    ensures a == b
  {
    hide Earlier;
    EarlierOrder(db, a, b, a);
  }

  /** The search leads to an offer of this target. */
  predicate Grantable(db: Db, node: string, id: string, ineligible: Reason, ready: bool, trusted: bool, at: Instant) {
    && IsFirst(db, node, id) && Available(db, db.rollouts[db.targets[id].rollout].release, trusted, at)
    && ineligible == NoReason && ready && MayOffer(db, id)
  }

  /** The stored checks and the unique index allow the report for this row. */
  ghost predicate Accepts(db: Db, id: string, node: string, input: Observation, state: NodeState, at: Instant) {
    && Reportable(db, id) && db.targets[id].node == node && Acceptable(db.targets[id], input, at)
    && NoClash(db, id, ReportedRow(db, id, input, state, at))
  }

  /** `suitable` stands for the checks on the manifest's artifact: it is listed, made for the node's
      platform and ready. */
  predicate MayDownload(db: Db, id: string, node: string, input: Observation, artifact: string, trusted: bool,
                        suitable: bool, at: Instant) {
    && id in db.targets && db.targets[id].rollout in db.rollouts
    && var target, row := db.targets[id], db.rollouts[db.targets[id].rollout];
       && target.node == node && target.attempt == Some(input.assignment) && target.nonce == Some(input.nonce)
       && target.artifact == artifact && target.state == Offered && target.expires.Some? && at < target.expires.value
       && row.phase == Active && row.policy.windowStart <= at < row.policy.windowEnd
       && Available(db, row.release, trusted, at) && suitable
  }

  /** Another release already has this version in this channel. */
  predicate VersionTaken(db: Db, id: string, release: Release) {
    exists other :: other in db.releases && other != id && db.releases[other].version == release.version &&
      db.releases[other].channel == release.channel
  }

  class Service {
    var db: Db
    var now: Instant
    var issued: nat
    var backups: seq<Db>
    ghost var epoch: nat

    constructor ()
      ensures Valid() && now == 0 && db.releases == map[] && db.born == {}
    {
      db := Db(map[], "", map[], map[], map[], map[], map[], {});
      now, issued, backups, epoch := 0, 0, [], 0;
    }

    ghost predicate Valid()
      reads this
    {
      && Inv(db, issued) && LogsPast(db, now)
      && forall i :: 0 <= i < |backups| ==> Inv(backups[i], issued) && LogsPast(backups[i], now)
    }

    ghost function Here(): Moment
      reads this
    {
      Moment(db, issued, epoch)
    }

    method Wait()
      requires Valid()
      modifies this`now
      ensures Valid() && now >= old(now)
    {
      hide Inv;
      var passed: int := *;
      now := now + Max(passed, 0);
    }

    static lemma SamePast(before: Db, after: Db, now: Instant)
      requires LogsPast(before, now) && after.accepted == before.accepted
      ensures LogsPast(after, now)
    {
    }

    lemma Unchanged()
      requires Valid()
      ensures Later(Here(), Here())
    {
      KeptReflexive(db, issued);
    }

    // ---- operators

    /** Creates a paused rollout with its waves fixed; refused requests change nothing. */
    method Create(id: string, input: CreateInput, nodes: seq<string>, ids: seq<string>, trusted: bool, compatible: bool)
      returns (ok: bool, ghost rows: map<string, Target>)
      requires Valid() && id !in db.born && |ids| == |nodes|
      requires forall i :: 0 <= i < |ids| ==> ids[i] !in db.born
      requires forall i, j :: 0 <= i < j < |ids| ==> ids[i] != ids[j]
      modifies this`db
      ensures Valid() && Later(old(Here()), Here())
      ensures ok <==> ValidCreate(old(db), input, |nodes|, trusted, compatible, now)
      ensures !ok ==> db == old(db)
      ensures ok ==> var policy := NormalizedPolicy(input.policy, now);
                     && db == CreatedDb(old(db), id, NewRollout(input.release, policy, |nodes|, now), rows)
                     && rows.Keys == (set i | 0 <= i < |ids| :: ids[i])
                     && forall i :: 0 <= i < |ids| ==> rows[ids[i]] == PendingRow(id, nodes[i], WaveOf(policy, i))
    {
      hide Inv, Kept, Retired, ValidPolicy, WaveOf, TotalWaves, PendingRow, NormalizedPolicy, ValidAction, LogsPast;
      Unchanged();
      var policy := NormalizedPolicy(input.policy, now);
      if !ValidAction(input) || input.name == [] || Utf8Bytes(input.name) > MAXIMUM_IDENTIFIER_BYTES {
        return false, map[];
      }
      if !ValidPolicy(policy) || !ValidWindow(policy, now) || !Available(db, input.release, trusted, now) ||
         !compatible {
        return false, map[];
      }
      if |nodes| == 0 || |nodes| > MAXIMUM_TARGETS {
        return false, map[];
      }
      var targets := InsertTargets(id, policy, nodes, ids);
      rows := targets;
      var row := NewRollout(input.release, policy, |nodes|, now);
      RowsAreNew(db, id, policy, nodes, ids, targets, issued);
      WavesCover(policy, |nodes|, 0);
      CreateKeeps(db, id, row, targets, issued);
      SamePast(db, CreatedDb(db, id, row, targets), now);
      db := CreatedDb(db, id, row, targets);
      ok := true;
    }

    /** Locks in the canaries first, then waves of the configured size. */
    static method InsertTargets(id: string, policy: Policy, nodes: seq<string>, ids: seq<string>)
      returns (rows: map<string, Target>)
      requires ValidPolicy(policy) && |ids| == |nodes|
      requires forall i, j :: 0 <= i < j < |ids| ==> ids[i] != ids[j]
      ensures rows.Keys == set i | 0 <= i < |ids| :: ids[i]
      ensures forall i :: 0 <= i < |ids| ==> rows[ids[i]] == PendingRow(id, nodes[i], WaveOf(policy, i))
    {
      rows := map[];
      for index := 0 to |nodes|
        invariant rows.Keys == set i | 0 <= i < index :: ids[i]
        invariant forall i :: 0 <= i < index ==> rows[ids[i]] == PendingRow(id, nodes[i], WaveOf(policy, i))
      {
        var wave := 0;
        if index >= policy.canaryCount {
          wave := 1 + (index - policy.canaryCount) / policy.waveSize;
        }
        rows := rows[ids[index] := PendingRow(id, nodes[index], wave)];
      }
    }

    static lemma RowsAreNew(db: Db, id: string, policy: Policy, nodes: seq<string>, ids: seq<string>,
                            rows: map<string, Target>, issued: nat)
      requires ValidPolicy(policy) && |ids| == |nodes| && Inv(db, issued) && id !in db.born
      requires forall i :: 0 <= i < |ids| ==> ids[i] !in db.born
      requires rows.Keys == set i | 0 <= i < |ids| :: ids[i]
      requires forall i :: 0 <= i < |ids| ==> rows[ids[i]] == PendingRow(id, nodes[i], WaveOf(policy, i))
      ensures NewRows(db, id, TotalWaves(policy, |nodes|), rows) && id !in db.rollouts
    {
      hide WaveOf, TotalWaves, RolloutsOk, TargetsOk, CapacityOk, NodesOk;
      forall i | 0 <= i < |ids|
        ensures WaveOf(policy, i) < TotalWaves(policy, |nodes|)
      {
        WavesCover(policy, |nodes|, i);
      }
    }

    /** The loop of `waveHealthy`. */
    method CheckWave(rollout: string, nodes: map<string, NodeState>) returns (healthy: bool)
      requires rollout in db.rollouts && db.rollouts[rollout].release in db.releases
      ensures healthy <==> WaveHealthy(db, rollout, nodes, now)
    {
      var row := db.rollouts[rollout];
      var version := db.releases[row.release].version;
      var rows := WaveTargets(db, rollout, row.wave);
      var count, remaining := 0, rows;
      while remaining != {}
        invariant remaining <= rows && (count == 0 <==> remaining == rows) && count >= 0
        invariant forall id :: id in rows && id !in remaining ==>
                    ValidWaveHealth(db.targets[id], nodes, version, row.policy, now)
        decreases remaining
      {
        var id :| id in remaining;
        remaining := remaining - {id};
        count := count + 1;
        if !ValidWaveHealth(db.targets[id], nodes, version, row.policy, now) {
          return false;
        }
      }
      return count != 0;
    }

    /** Opens the next wave, or completes the rollout after the last one. */
    method Promote(rollout: string, nodes: map<string, NodeState>, trusted: bool) returns (ok: bool)
      requires Valid()
      modifies this`db
      ensures Valid() && Later(old(Here()), Here())
      ensures ok <==>
              && rollout in old(db.rollouts) && Promotable(old(db.rollouts)[rollout])
              && Available(old(db), old(db.rollouts)[rollout].release, trusted, now)
              && (old(db.rollouts)[rollout].wave >= 0 ==> WaveHealthy(old(db), rollout, nodes, now))
      ensures rollout in old(db.rollouts) && old(db.rollouts)[rollout].wave == -1 ==>
                (ok <==> !Stuck(old(db.rollouts)[rollout]) &&
                         Available(old(db), old(db.rollouts)[rollout].release, trusted, now))
      ensures ok && old(db.rollouts)[rollout].wave == -1 ==> rollout in db.rollouts && db.rollouts[rollout].wave == 0
      ensures !ok ==> db == old(db)
      ensures ok ==> rollout in old(db.promotions) && db == Promoted(old(db), rollout, nodes, now)
    {
      hide Inv, Kept, Retired, WaveHealthy, Promoted, Promotable, Stuck;
      Unchanged();
      if rollout in db.rollouts {
        StuckIff(db, issued, rollout);
      }
      if rollout !in db.rollouts || !Promotable(db.rollouts[rollout]) ||
         !Available(db, db.rollouts[rollout].release, trusted, now) {
        return false;
      }
      if db.rollouts[rollout].wave >= 0 {
        var healthy := CheckWave(rollout, nodes);
        if !healthy {
          return false;
        }
      }
      RolloutKnown(db, rollout, issued);
      FirstWaveOpens(db, rollout, nodes, now);
      PromotedKeeps(db, rollout, nodes, now, issued);
      db := Promoted(db, rollout, nodes, now);
      return true;
    }

    static lemma FirstWaveOpens(db: Db, rollout: string, nodes: map<string, NodeState>, at: Instant)
      requires rollout in db.rollouts && rollout in db.promotions && RolloutOk(db, rollout)
      ensures var after := Promoted(db, rollout, nodes, at);
              rollout in after.rollouts && (db.rollouts[rollout].wave == -1 ==> after.rollouts[rollout].wave == 0)
    {
    }

    static lemma RolloutKnown(db: Db, rollout: string, issued: nat)
      requires Inv(db, issued) && rollout in db.rollouts
      ensures RolloutOk(db, rollout) && rollout in db.promotions && db.rollouts[rollout].release in db.releases
    {
    }

    method Pause(rollout: string) returns (ok: bool)
      requires Valid()
      modifies this`db
      ensures Valid() && Later(old(Here()), Here())
      ensures ok <==> rollout in old(db.rollouts) && !Terminal(old(db.rollouts)[rollout].phase)
      ensures db == if ok then PauseIn(old(db), {rollout}, OperatorPause) else old(db)
    {
      hide Inv, Kept, Retired, PauseIn;
      Unchanged();
      if rollout !in db.rollouts || Terminal(db.rollouts[rollout].phase) {
        return false;
      }
      PauseInKeeps(db, {rollout}, OperatorPause, issued);
      db := PauseIn(db, {rollout}, OperatorPause);
      return true;
    }

    /** Ends a rollout: waiting targets are dropped, assignments that are out keep their nonces. */
    method Abort(rollout: string) returns (ok: bool)
      requires Valid()
      modifies this`db
      ensures Valid() && Later(old(Here()), Here())
      ensures ok <==> rollout in old(db.rollouts) && !Terminal(old(db.rollouts)[rollout].phase)
      ensures !ok ==> db == old(db)
      ensures ok ==>
                db.rollouts ==
                  old(db.rollouts)[rollout := old(db.rollouts)[rollout].(phase := Aborted, reason := OperatorAbort)]
      ensures ok ==> db.targets.Keys == old(db.targets.Keys) && forall id :: id in db.targets ==>
                db.targets[id] ==
                  if old(db.targets)[id].rollout == rollout && Waiting(old(db.targets)[id].state)
                  then old(db.targets)[id].(state := Dropped, reason := OperatorAbort)
                  else old(db.targets)[id]
    {
      hide Inv, Kept, Retired;
      Unchanged();
      if rollout !in db.rollouts || Terminal(db.rollouts[rollout].phase) {
        return false;
      }
      ghost var start := db;
      RolloutKnown(db, rollout, issued);
      AbortRowKeeps(db, rollout, issued);
      db := SetRollout(db, rollout, db.rollouts[rollout].(phase := Aborted, reason := OperatorAbort),
                       db.promotions[rollout]);
      ghost var aborted := db;
      var waiting := set id | id in db.targets && db.targets[id].rollout == rollout && Waiting(db.targets[id].state);
      WithStatesKeeps(db, waiting, Dropped, OperatorAbort, issued);
      db := WithStates(db, waiting, Dropped, OperatorAbort);
      Chain(start, aborted, db, issued, issued);
      return true;
    }

    /** Continues a paused rollout; anything but an operator's own pause needs an acknowledgement. */
    method Resume(rollout: string, acknowledged: bool, trusted: bool) returns (ok: bool)
      requires Valid()
      modifies this`db
      ensures Valid() && Later(old(Here()), Here())
      ensures ok <==>
              && rollout in old(db.rollouts) && Resumable(old(db.rollouts)[rollout])
              && (old(db.rollouts)[rollout].reason == OperatorPause || acknowledged)
              && Available(old(db), old(db.rollouts)[rollout].release, trusted, now)
      ensures !ok ==> db == old(db)
      ensures ok ==>
                db.rollouts ==
                  old(db.rollouts)[rollout := old(db.rollouts)[rollout].(phase := Active, reason := NoReason)]
      ensures ok ==> db.targets == old(db.targets) && db.attempts == old(db.attempts)
    {
      hide Inv, Kept, Retired;
      Unchanged();
      if rollout !in db.rollouts || db.rollouts[rollout].phase != Paused || db.rollouts[rollout].wave < 0 {
        return false;
      }
      if db.rollouts[rollout].reason != OperatorPause && !acknowledged {
        return false;
      }
      if !Available(db, db.rollouts[rollout].release, trusted, now) {
        return false;
      }
      RolloutKnown(db, rollout, issued);
      ActivateKeeps(db, rollout, issued);
      db := SetRollout(db, rollout, db.rollouts[rollout].(phase := Active, reason := NoReason), db.promotions[rollout]);
      return true;
    }

    // ---- agents

    /** The first leasable target of a node, by the age of its rollout. */
    method FirstLeasable(node: string) returns (id: string)
      requires Leasable(db, node) != {}
      ensures IsFirst(db, node, id)
    {
      hide TextLess;
      var leasable := Leasable(db, node);
      id :| id in leasable;
      var remaining := leasable - {id};
      while remaining != {}
        invariant remaining <= leasable && id in leasable && id !in remaining
        invariant forall other :: other in leasable && other !in remaining && other != id ==> Earlier(db, id, other)
        decreases remaining
      {
        var next :| next in remaining;
        remaining := remaining - {next};
        ghost var seen := leasable - remaining;
        ghost var best := id;
        EarlierOrder(db, next, id, id);
        if Earlier(db, next, id) {
          id := next;
        }
        forall other | other in seen && other != id
          ensures Earlier(db, id, other)
        {
          EarlierOrder(db, next, best, other);
        }
      }
    }

    /** The search of `candidate`: the first leasable target, and what keeps it from being offered. */
    method Select(node: string, ineligible: Reason, ready: bool, trusted: bool) returns (selection: Selection)
      ensures selection == Nothing <==> Leasable(db, node) == {}
      ensures forall id :: selection == Found(id) <==> Grantable(db, node, id, ineligible, ready, trusted, now)
      ensures selection.Hold? ==>
                IsFirst(db, node, selection.id) && (ineligible != NoReason || !ready || !MayOffer(db, selection.id))
      ensures selection.Hold? ==>
                selection.reason == if ineligible != NoReason then ineligible else if !ready then ArtifactMissing
                                    else if InFlightOn(db, node) != {} then NodeUpdateActive else AssignmentCapacity
      ensures selection.Refused? ==>
                exists id ::
                  IsFirst(db, node, id) && !Available(db, db.rollouts[db.targets[id].rollout].release, trusted, now)
    {
      hide Earlier;
      if Leasable(db, node) == {} {
        return Nothing;
      }
      var id := FirstLeasable(node);
      var rollout := db.targets[id].rollout;
      forall other | IsFirst(db, node, other)
        ensures other == id
      {
        FirstUnique(db, node, id, other);
      }
      if !Available(db, db.rollouts[rollout].release, trusted, now) {
        return Refused;
      }
      if ineligible != NoReason {
        return Hold(id, ineligible);
      }
      if !ready {
        return Hold(id, ArtifactMissing);
      }
      if InFlightOn(db, node) != {} {
        return Hold(id, NodeUpdateActive);
      }
      if |InFlightOf(db, rollout)| >= db.rollouts[rollout].policy.maxConcurrent {
        return Hold(id, AssignmentCapacity);
      }
      return Found(id);
    }

    /** The first transaction of a lease: a target that cannot be offered is held. */
    method LeaseCheck(node: string, ineligible: Reason, ready: bool, trusted: bool) returns (selection: Selection)
      requires Valid()
      modifies this`db
      ensures Valid() && Later(old(Here()), Here())
      ensures selection.Hold? || selection.Found? ==> IsFirst(old(db), node, selection.id)
      ensures selection.Hold? ==>
                selection.id in old(db.targets) && db == WithStates(old(db), {selection.id}, Held, selection.reason)
      ensures !selection.Hold? ==> db == old(db)
      ensures selection.Found? ==> MayOffer(db, selection.id) && db.targets[selection.id].node == node
    {
      hide Inv, Kept, Retired, MayOffer, WithStates, Earlier;
      Unchanged();
      selection := Select(node, ineligible, ready, trusted);
      if selection.Hold? {
        WithStatesKeeps(db, {selection.id}, Held, selection.reason, issued);
        db := WithStates(db, {selection.id}, Held, selection.reason);
      }
    }

    /** The second transaction: it offers the target found before only if the search finds it again. */
    method LeaseOffer(node: string, expected: string, ineligible: Reason, ready: bool, trusted: bool, artifact: string,
                      nonce: Nonce)
      returns (assignment: Option<nat>)
      requires Valid()
      modifies this`db, this`issued
      ensures Valid() && Later(old(Here()), Here())
      ensures assignment.None? ==> db == old(db) && issued == old(issued)
      ensures assignment.Some? <==> Grantable(old(db), node, expected, ineligible, ready, trusted, now)
      ensures assignment.Some? ==>
                && assignment.value == old(issued) && issued == old(issued) + 1
                && OnlyLive(db, expected, assignment.value)
                && var row := old(db).rollouts[old(db).targets[expected].rollout];
                   && row.release in old(db).releases
                   && db == OfferedDb(old(db), expected, old(issued), artifact, nonce,
                                      Expiry(now, row.policy, old(db).releases[row.release]))
    {
      hide Inv, Kept, Retired, MayOffer, Expiry, OfferedDb, OnlyLive, Earlier;
      Unchanged();
      var current := Select(node, ineligible, ready, trusted);
      if current != Found(expected) {
        return None;
      }
      var row := db.rollouts[db.targets[expected].rollout];
      var expires := Expiry(now, row.policy, db.releases[row.release]);
      OfferKeeps(db, expected, artifact, nonce, expires, issued);
      MoreIssued();
      db := OfferedDb(db, expected, issued, artifact, nonce, expires);
      issued := issued + 1;
      return Some(issued - 1);
    }

    /** Between the two the artifact file was found to be missing: the target is held if it still waits. */
    method HoldMissing(id: string)
      requires Valid()
      modifies this`db
      ensures Valid() && Later(old(Here()), Here())
      ensures db == if id in old(db.targets) && Waiting(old(db.targets)[id].state)
                    then WithStates(old(db), {id}, Held, ArtifactMissing) else old(db)
    {
      hide Inv, Kept, Retired, WithStates;
      Unchanged();
      if id in db.targets && Waiting(db.targets[id].state) {
        WithStatesKeeps(db, {id}, Held, ArtifactMissing, issued);
        db := WithStates(db, {id}, Held, ArtifactMissing);
      }
    }

    lemma MoreIssued()
      requires Valid()
      ensures forall i :: 0 <= i < |backups| ==> Inv(backups[i], issued + 1) && LogsPast(backups[i], now)
    {
    }

    /** A report for an assignment. It is accepted exactly when a row of the node holds that
        assignment, the stored checks pass and the unique index on in-flight rows allows the new
        state; a refused report changes nothing. */
    method Observe(node: string, input: Observation, state: NodeState) returns (ok: bool, ghost id: string)
      requires Valid()
      modifies this`db, this`now
      ensures Valid() && Later(old(Here()), Here()) && now >= old(now)
      ensures ok ==>
                ValidObservation(input, old(now)) && Accepts(old(db), id, node, input, state, now) &&
                Live(old(db), input.assignment)
      ensures ok ==> db == AfterReport(old(db), id, input, state, now)
      ensures !ok ==> db == old(db)
      ensures !ok && ValidObservation(input, old(now)) ==>
                forall other :: !Accepts(old(db), other, node, input, state, now)
    {
      hide Inv, Kept, Retired, NoClash, AfterReport, ReportedRow, Acceptable, LogsPast;
      Unchanged();
      ok, id := false, "";
      var valid := ValidObservation(input, now);
      Wait();
      if !valid {
        return;
      }
      var matching := set other | other in db.targets && db.targets[other].node == node &&
                                  db.targets[other].attempt == Some(input.assignment);
      if matching == {} {
        NoRowAccepts(db, node, input, state, now);
        return;
      }
      var target :| target in matching;
      id := target;
      OnlyRow(db, target, input, node, state, now, issued);
      if !Acceptable(db.targets[target], input, now) ||
         !NoClash(db, target, ReportedRow(db, target, input, state, now)) {
        return;
      }
      AcceptableIsLive(db, target, input, now);
      ReportKeeps(db, target, input, state, now, issued);
      db := AfterReport(db, target, input, state, now);
      ok := true;
    }

    static lemma NoRowAccepts(db: Db, node: string, input: Observation, state: NodeState, at: Instant)
      requires (set other | other in db.targets && db.targets[other].node == node &&
                db.targets[other].attempt == Some(input.assignment)) == {}
      ensures forall other :: !Accepts(db, other, node, input, state, at)
    {
      hide NoClash;
      var matching := set other | other in db.targets && db.targets[other].node == node &&
                                  db.targets[other].attempt == Some(input.assignment);
      forall other
        ensures !Accepts(db, other, node, input, state, at)
      {
        assert other !in matching;
      }
    }

    static lemma OnlyRow(db: Db, id: string, input: Observation, node: string, state: NodeState, at: Instant,
                         issued: nat)
      requires Inv(db, issued) && id in db.targets && db.targets[id].attempt == Some(input.assignment)
      ensures Reportable(db, id) && forall other :: Accepts(db, other, node, input, state, at) ==> other == id
    {
      hide Inv, NoClash, Acceptable;
      forall other | Accepts(db, other, node, input, state, at)
        ensures other == id
      {
        AcceptableAttempt(db.targets[other], input, at);
        OneRowPerAssignment(db, id, other, issued);
      }
      OneRowPerAssignment(db, id, id, issued);
    }

    static lemma AcceptableAttempt(target: Target, input: Observation, at: Instant)
      requires Acceptable(target, input, at)
      ensures target.attempt == Some(input.assignment)
    {
    }

    static lemma AcceptableIsLive(db: Db, id: string, input: Observation, at: Instant)
      requires id in db.targets && Acceptable(db.targets[id], input, at)
      ensures Live(db, input.assignment)
    {
    }

    /** A download is served only for the live assignment of an offered target. */
    method Download(node: string, input: Observation, artifact: string, trusted: bool, suitable: bool)
      returns (ok: bool)
      requires Valid()
      ensures ok <==> exists id :: MayDownload(db, id, node, input, artifact, trusted, suitable, now)
      ensures ok ==> Live(db, input.assignment)
    {
      hide Inv;
      var allowed := set id | id in db.targets && MayDownload(db, id, node, input, artifact, trusted, suitable, now);
      ok := allowed != {};
      if ok {
        var id :| id in allowed;
        assert MayDownload(db, id, node, input, artifact, trusted, suitable, now);
      } else {
        assert forall id :: MayDownload(db, id, node, input, artifact, trusted, suitable, now) ==> id in allowed;
      }
    }

    // ---- recovery

    /** Takes back assignments whose lease ran out, up to a batch: the target is held, its nonce is
        gone and the rollout is not active any more. Below a full batch none is left. */
    method ExpireAssignments() returns (ghost taken: set<string>)
      requires Valid()
      modifies this`db
      ensures Valid() && Later(old(Here()), Here())
      ensures TakenState(old(db), db, taken, now) && |taken| <= RECOVERY_BATCH_SIZE
      ensures |taken| < RECOVERY_BATCH_SIZE ==> forall id :: id in db.targets ==> !Expired(db.targets[id], now)
      ensures forall id :: id in taken ==>
                NotActive(db, db.targets[id].rollout) && TakenBack(db, id, now) && Dead(db, id)
    {
      hide Inv, Kept, Retired, Later, NotActive, TakenBack, LogsPast, Dead, AfterTaking, ExpiredDb;
      Unchanged();
      ghost var start := Here();
      taken := {};
      var due := DueRows(db.targets, now);
      var count := 0;
      TakeNone(db, now);
      while due != {} && count < RECOVERY_BATCH_SIZE
        invariant Valid() && Later(start, Here()) && TakenState(old(db), db, taken, now)
        invariant |taken| == count <= RECOVERY_BATCH_SIZE && due == DueRows(db.targets, now)
        decreases due
      {
        var id :| id in due;
        ghost var middle := Here();
        ExpireOne(id);
        TakeOne(old(db), middle.db, taken, id, now);
        LaterTransitive(start, middle, Here());
        due, count := due - {id}, count + 1;
        taken := taken + {id};
      }
      forall id | id in taken
        ensures NotActive(db, db.targets[id].rollout) && TakenBack(db, id, now) && Dead(db, id)
      {
        TargetKnown(db, id, issued);
        TakenMeans(old(db), db, taken, now, issued, id);
      }
    }

    method ExpireOne(id: string)
      requires Valid() && id in db.targets && Expired(db.targets[id], now)
      modifies this`db
      ensures Valid() && Later(old(Here()), Here())
      ensures HasAttempt(old(db), id, old(db).targets[id]) && db == ExpiredDb(old(db), id, now)
    {
      hide Inv, Kept, Retired, WindowOk;
      TargetKnown(db, id, issued);
      ExpiredKeeps(db, id, now, issued);
      db := ExpiredDb(db, id, now);
    }

    static lemma TargetKnown(db: Db, id: string, issued: nat)
      requires Inv(db, issued) && id in db.targets
      ensures TargetOk(db, id)
    {
    }

    /** Pauses rollouts whose release expired or was revoked, up to a batch. Below a full batch no
        rollout is active on such a release. */
    method ExpireReleases() returns (ghost paused: set<string>)
      requires Valid()
      modifies this`db
      ensures Valid() && Later(old(Here()), Here()) && db.targets == old(db.targets) && db.releases == old(db.releases)
      ensures db.rollouts.Keys == old(db.rollouts.Keys) && paused <= db.rollouts.Keys && |paused| <= RECOVERY_BATCH_SIZE
      ensures forall r :: r in db.rollouts ==>
                db.rollouts[r] ==
                  if r in paused then PausedRow(old(db.rollouts)[r], LapseReason(old(db), r)) else old(db.rollouts)[r]
      ensures forall r :: r in paused ==> MustPause(old(db), r, now)
      ensures |paused| < RECOVERY_BATCH_SIZE ==> forall r :: r in db.rollouts && Lapsed(db, r, now) ==>
                db.rollouts[r].phase != Active
    {
      hide Inv, Kept, Retired, Later, PausedRow, MustPause, Lapsed, LogsPast;
      Unchanged();
      ghost var start := Here();
      paused := {};
      var due := set r | r in db.rollouts && MustPause(db, r, now);
      var count := 0;
      while due != {} && count < RECOVERY_BATCH_SIZE
        invariant Valid() && Later(start, Here()) && db.targets == old(db.targets) && db.releases == old(db.releases)
        invariant db.rollouts.Keys == old(db.rollouts.Keys) && paused <= db.rollouts.Keys && due <= db.rollouts.Keys
        invariant |paused| == count <= RECOVERY_BATCH_SIZE && paused !! due
        invariant forall r :: r in db.rollouts ==>
                    db.rollouts[r] ==
                      if r in paused
                      then PausedRow(old(db.rollouts)[r], LapseReason(old(db), r))
                      else old(db.rollouts)[r]
        invariant forall r :: r in db.rollouts ==> (MustPause(old(db), r, now) <==> r in due || r in paused)
        decreases due
      {
        var rollout :| rollout in due;
        ghost var middle := Here();
        PauseLapsed(rollout);
        LaterTransitive(start, middle, Here());
        due, count := due - {rollout}, count + 1;
        paused := paused + {rollout};
      }
      if count < RECOVERY_BATCH_SIZE {
        LapsedPaused(old(db), db, paused, issued, now);
      }
    }

    /** Pauses one rollout with the reason why its release lapsed. */
    method PauseLapsed(rollout: string)
      requires Valid() && rollout in db.rollouts
      modifies this`db
      ensures Valid() && Later(old(Here()), Here()) && db.targets == old(db).targets && db.releases == old(db).releases
      ensures db.rollouts ==
                old(db).rollouts[rollout := PausedRow(old(db).rollouts[rollout], LapseReason(old(db), rollout))]
    {
      hide Inv, Kept, Retired, LogsPast, PausedRow;
      var reason := LapseReason(db, rollout);
      PauseInKeeps(db, {rollout}, reason, issued);
      SamePast(db, PauseIn(db, {rollout}, reason), now);
      db := PauseIn(db, {rollout}, reason);
    }

    static lemma LapsedPaused(before: Db, after: Db, paused: set<string>, issued: nat, at: Instant)
      requires Inv(before, issued) && after.rollouts.Keys == before.rollouts.Keys && after.releases == before.releases
      requires forall r :: r in after.rollouts ==>
                 after.rollouts[r] ==
                   if r in paused then PausedRow(before.rollouts[r], LapseReason(before, r)) else before.rollouts[r]
      requires forall r :: r in before.rollouts && MustPause(before, r, at) ==> r in paused
      ensures forall r :: r in after.rollouts && Lapsed(after, r, at) ==> after.rollouts[r].phase != Active
    {
      hide Inv;
      forall r | r in after.rollouts && Lapsed(after, r, at)
        ensures after.rollouts[r].phase != Active
      {
        ActiveRelease(before, r, issued);
      }
    }

    /** The periodic recovery transaction. */
    method Recover() returns (ghost taken: set<string>, ghost paused: set<string>)
      requires Valid()
      modifies this`db
      ensures Valid() && Later(old(Here()), Here())
      ensures TakenRows(old(db.targets), db.targets, taken, now)
      ensures |taken| <= RECOVERY_BATCH_SIZE && |paused| <= RECOVERY_BATCH_SIZE
      ensures RecoveredRollouts(old(db), db, taken, paused, now)
      ensures |taken| < RECOVERY_BATCH_SIZE ==> forall id :: id in db.targets ==> !Expired(db.targets[id], now)
      ensures |paused| < RECOVERY_BATCH_SIZE ==> forall r :: r in db.rollouts && Lapsed(db, r, now) ==>
                db.rollouts[r].phase != Active
    {
      hide Inv, Kept, Retired, Later, Lapsed, Expired, ExpiredRow, PausedRow, LapseReason, AfterTaking, MustPause;
      hide RecoveredRollouts, TakenBack, Dead, NotActive, LogsPast, TakenRows;
      ghost var start := Here();
      taken := ExpireAssignments();
      ghost var middle := Here();
      paused := ExpireReleases();
      RecoveredBoth(old(db), middle.db, db, taken, paused, now);
      LaterTransitive(start, middle, Here());
    }

    // ---- releases and trust

    /** Imports a release whose signature and trust revision still hold. A revoked release stays
        revoked, and a version is imported only once per channel. The identifier is the digest of
        the content, so a release that is already there has the same content. */
    method Import(id: string, release: Release, trusted: bool) returns (ok: bool)
      requires Valid() && !release.revoked && release.verified
      requires id in db.releases ==> release == db.releases[id].(verified := true, revoked := false)
      modifies this`db
      ensures Valid() && Later(old(Here()), Here())
      ensures ok <==>
                trusted && !VersionTaken(old(db), id, release) &&
                !(id in old(db.releases) && old(db.releases)[id].revoked)
      ensures db == if ok then old(db).(releases := old(db.releases)[id := release]) else old(db)
    {
      hide Inv, Kept, Retired;
      Unchanged();
      if !trusted || VersionTaken(db, id, release) || (id in db.releases && db.releases[id].revoked) {
        return false;
      }
      ImportAllowed(db, id, release, issued);
      ReleasesKeeps(db, db.releases[id := release], issued);
      db := db.(releases := db.releases[id := release]);
      return true;
    }

    /** Revokes a release; no rollout stays active on it. */
    method RevokeRelease(id: string) returns (ok: bool)
      requires Valid()
      modifies this`db
      ensures Valid() && Later(old(Here()), Here())
      ensures ok <==> id in old(db.releases)
      ensures db == if ok then RevokedDb(old(db), {id}, ReleaseRevoked) else old(db)
    {
      hide Inv, Kept, Retired, RevokedDb;
      Unchanged();
      if id !in db.releases {
        return false;
      }
      RevokeKeeps(db, {id}, ReleaseRevoked, issued);
      db := RevokedDb(db, {id}, ReleaseRevoked);
      return true;
    }

    /** Revokes a key that is known, and every release signed with it. */
    method RevokeKey(key: string, known: bool) returns (ok: bool)
      requires Valid()
      modifies this`db
      ensures Valid() && Later(old(Here()), Here()) && (ok <==> known)
      ensures db == if ok then RevokedDb(old(db), SignedWith(old(db), key), SigningKeyRevoked) else old(db)
    {
      hide Inv, Kept, Retired, RevokedDb;
      Unchanged();
      if !known {
        return false;
      }
      var signed := SignedWith(db, key);
      RevokeKeeps(db, signed, SigningKeyRevoked, issued);
      db := RevokedDb(db, signed, SigningKeyRevoked);
      return true;
    }

    /** Loads a signature policy; only a new revision changes anything. */
    method ActivateSignaturePolicy(revision: string) returns (changed: bool)
      requires Valid()
      modifies this`db
      ensures Valid() && Later(old(Here()), Here()) && (changed <==> revision != old(db).signaturePolicy)
      ensures db == if changed then DistrustedDb(old(db), revision) else old(db)
    {
      hide Inv, Kept, Retired, DistrustedDb;
      Unchanged();
      if db.signaturePolicy == revision {
        return false;
      }
      DistrustKeeps(db, revision, issued);
      db := DistrustedDb(db, revision);
      return true;
    }

    /** Deletes a finished rollout that has nothing in flight. */
    method DeleteRollout(rollout: string) returns (ok: bool)
      requires Valid()
      modifies this`db
      ensures Valid() && Later(old(Here()), Here()) && (ok <==> MayDelete(old(db), rollout))
      ensures db == if ok then DeletedDb(old(db), rollout) else old(db)
    {
      hide Inv, Kept, Retired, MayDelete;
      Unchanged();
      if !MayDelete(db, rollout) {
        return false;
      }
      DeleteKeeps(db, rollout, issued);
      db := DeletedDb(db, rollout);
      return true;
    }

    // ---- backups

    method Backup()
      requires Valid()
      modifies this`backups
      ensures Valid() && backups == old(backups) + [db]
    {
      hide Inv;
      backups := backups + [db];
    }

    /** Starts over from any earlier backup: no assignment issued before is accepted any more. */
    method Restore(index: nat)
      requires Valid() && index < |backups|
      modifies this`db, this`epoch
      ensures Valid() && Later(old(Here()), Here()) && db == RestoredDb(backups[index], now)
      ensures forall attempt: nat :: !Live(db, attempt)
    {
      hide Inv, Kept, Live, RestoredDb;
      RestoredInv(backups[index], now, issued);
      forall attempt: nat
        ensures !Live(RestoredDb(backups[index], now), attempt)
      {
        RestoreKillsAll(backups[index], now, attempt);
      }
      db := RestoredDb(backups[index], now);
      epoch := epoch + 1;
    }

    // ---- whole runs

    /** Any transaction of an agent. */
    method AgentStep()
      requires Valid()
      modifies this
      ensures Valid() && Later(old(Here()), Here())
    {
      hide Inv, Kept, Retired, Later;
      Unchanged();
      var choice: int := *;
      var node: string := *;
      var ineligible: Reason := *;
      var ready, trusted: bool := *, *;
      if choice == 0 {
        var selection := LeaseCheck(node, ineligible, ready, trusted);
      } else if choice == 1 {
        var expected, artifact: string := *, *;
        var nonce: Nonce := *;
        var assignment := LeaseOffer(node, expected, ineligible, ready, trusted, artifact, nonce);
      } else if choice == 2 {
        var input: Observation := *;
        var state: NodeState := *;
        var ok, id := Observe(node, input, state);
      } else if choice == 3 {
        var target: string := *;
        HoldMissing(target);
      } else {
        Wait();
      }
    }

    /** Any transaction of an operator or of the system itself. */
    method OperatorStep()
      requires Valid()
      modifies this
      ensures Valid() && Later(old(Here()), Here())
    {
      hide Inv, Kept, Retired, Later, Available, ValidPolicy, WaveHealthy, Promoted, PauseIn, RevokedDb, RestoredDb,
           DistrustedDb;
      Unchanged();
      var choice: int := *;
      var id: string := *;
      var trusted: bool := *;
      var ok: bool;
      if choice == 0 {
        var input: CreateInput := *;
        var compatible: bool := *;
        var nodes, ids: seq<string> := *, *;
        if id !in db.born && |ids| == |nodes| && (forall i :: 0 <= i < |ids| ==> ids[i] !in db.born) &&
          (forall i, j :: 0 <= i < j < |ids| ==> ids[i] != ids[j])
        {
          ghost var rows;
          ok, rows := Create(id, input, nodes, ids, trusted, compatible);
        }
      } else if choice == 1 {
        var nodes: map<string, NodeState> := *;
        ok := Promote(id, nodes, trusted);
      } else if choice == 2 {
        ok := Pause(id);
      } else if choice == 3 {
        ok := Abort(id);
      } else if choice == 4 {
        var acknowledged: bool := *;
        ok := Resume(id, acknowledged, trusted);
      } else if choice == 5 {
        ok := DeleteRollout(id);
      } else if choice == 6 {
        ghost var taken, paused := Recover();
      } else {
        TrustStep();
      }
    }

    method TrustStep()
      requires Valid()
      modifies this
      ensures Valid() && Later(old(Here()), Here())
    {
      hide Inv, Kept, Retired, Later, RevokedDb, RestoredDb, DistrustedDb;
      Unchanged();
      var choice: int := *;
      var id: string := *;
      if choice == 0 {
        var release: Release := *;
        if !release.revoked && release.verified &&
           (id in db.releases ==> release == db.releases[id].(verified := true, revoked := false)) {
          var trusted: bool := *;
          var ok := Import(id, release, trusted);
        }
      } else if choice == 1 {
        var ok := RevokeRelease(id);
      } else if choice == 2 {
        var known: bool := *;
        var ok := RevokeKey(id, known);
      } else if choice == 3 {
        var changed := ActivateSignaturePolicy(id);
      } else if choice == 4 {
        Backup();
      } else {
        var index: int := *;
        if 0 <= index < |backups| {
          Restore(index);
        }
      }
    }

    /** Every run, in any order and with any inputs: the invariants hold at every moment, and every
        moment is followed by later ones only in the sense of `Later`. */
    method History(steps: nat) returns (ghost trace: seq<Moment>)
      requires Valid()
      modifies this
      ensures Valid() && |trace| == steps + 1 && trace[0] == old(Here()) && trace[steps] == Here()
      ensures forall i :: 0 <= i < |trace| ==> Inv(trace[i].db, trace[i].issued)
      ensures forall i, j :: 0 <= i <= j < |trace| ==> Later(trace[i], trace[j])
    {
      hide Inv, Kept, Retired, Later;
      Unchanged();
      trace := [Here()];
      for step := 0 to steps
        invariant Valid() && |trace| == step + 1 && trace[0] == old(Here()) && trace[step] == Here()
        invariant forall i :: 0 <= i < |trace| ==> Inv(trace[i].db, trace[i].issued)
        invariant forall i, j :: 0 <= i <= j < |trace| ==> Later(trace[i], trace[j])
      {
        ghost var before := Here();
        var agent: bool := *;
        if agent {
          AgentStep();
        } else {
          OperatorStep();
        }
        Unchanged();
        forall i | 0 <= i < |trace|
          ensures Later(trace[i], Here())
        {
          LaterTransitive(trace[i], before, Here());
        }
        trace := trace + [Here()];
      }
    }
  }
}
