/** The transactions on assignments: offering, observing, expiring, restoring and creating. */
module RolloutTransactions {
  import opened Basics
  import opened RolloutHealth
  import opened RolloutProtocol
  import opened RolloutSteps

  const ASSIGNMENT_LIFETIME: Duration := 15 * 60 * SECOND

  // ---- offers

  /** The row may be offered: its wave is open, its node is idle and the rollout has capacity. */
  predicate MayOffer(db: Db, id: string) {
    && id in db.targets && db.targets[id].rollout in db.rollouts
    && var target, row := db.targets[id], db.rollouts[db.targets[id].rollout];
       && row.phase == Active && row.wave == target.wave && Waiting(target.state)
       && InFlightOn(db, target.node) == {} && |InFlightOf(db, target.rollout)| < row.policy.maxConcurrent
  }

  /** The lease ends after the lifetime plus the observation window, or earlier with the release or
      the maintenance window. */
  function Expiry(at: Instant, policy: Policy, release: Release): (expiry: Instant)
    ensures expiry <= at + ASSIGNMENT_LIFETIME + policy.Window() && expiry <= release.expiresAt &&
            expiry <= policy.windowEnd
    ensures expiry in {at + ASSIGNMENT_LIFETIME + policy.Window(), release.expiresAt, policy.windowEnd}
  {
    Min(Min(at + ASSIGNMENT_LIFETIME + policy.Window(), release.expiresAt), policy.windowEnd)
  }

  function OfferedRow(target: Target, attempt: nat, artifact: string, nonce: Nonce, expires: Instant): Target {
    target.(state := Offered, reason := NoReason, attempt := Some(attempt), artifact := artifact, nonce := Some(nonce),
            expires := Some(expires), since := None, lastReport := None)
  }

  function OfferedDb(db: Db, id: string, attempt: nat, artifact: string, nonce: Nonce, expires: Instant): (after: Db)
    requires id in db.targets
    ensures after.accepted == db.accepted[attempt := []]
  {
    SetTarget(db, id, OfferedRow(db.targets[id], attempt, artifact, nonce, expires), attempt,
              Attempt(id, Recorded(Offered), None), [])
  }

  lemma {:induction false} UnprovenInFlight(db: Db, rollout: string)
    ensures |UnprovenOf(db, rollout)| <= |InFlightOf(db, rollout)|
  {
    SubsetSize(UnprovenOf(db, rollout), InFlightOf(db, rollout));
  }

  lemma {:induction false} IdleNoClash(db: Db, id: string, target: Target)
    requires InFlightOn(db, target.node) == {}
    ensures NoClash(db, id, target)
  {
    forall other | other in db.targets && other != id
      ensures !Clash(target, db.targets[other])
    {
      assert other !in InFlightOn(db, target.node);
    }
  }

  lemma {:induction false} OfferKeeps(db: Db, id: string, artifact: string, nonce: Nonce, expires: Instant, issued: nat)
    requires Inv(db, issued) && MayOffer(db, id)
    ensures var after := OfferedDb(db, id, issued, artifact, nonce, expires);
            Inv(after, issued + 1) && Kept(db, after) && Retired(db, after, issued)
    ensures OnlyLive(OfferedDb(db, id, issued, artifact, nonce, expires), id, issued)
  {
    hide Inv, UnprovenOf, InFlightOf, InFlightOn, NoClash, Unproven, Kept, Retired, Live;
    var target := OfferedRow(db.targets[id], issued, artifact, nonce, expires);
    UnprovenInFlight(db, target.rollout);
    IdleNoClash(db, id, target);
    SetTargetKeeps(db, id, target, issued, Attempt(id, Recorded(Offered), None), [], issued);
    OfferedAlone(db, id, artifact, nonce, expires, issued);
  }

  /** Of all assignments ever recorded for the target, exactly this one is live. */
  ghost predicate OnlyLive(db: Db, id: string, attempt: nat) {
    && Live(db, attempt)
    && forall other :: other in db.attempts && db.attempts[other].target == id && other != attempt ==> !Live(db, other)
  }

  lemma {:induction false} OfferedAlone(db: Db, id: string, artifact: string, nonce: Nonce, expires: Instant,
                                        issued: nat)
    requires id in db.targets && Inv(OfferedDb(db, id, issued, artifact, nonce, expires), issued + 1)
    ensures OnlyLive(OfferedDb(db, id, issued, artifact, nonce, expires), id, issued)
  {
    hide Inv, Live;
    var after := OfferedDb(db, id, issued, artifact, nonce, expires);
    forall other | other in after.attempts && after.attempts[other].target == id
      ensures Live(after, other) <==> other == issued
    {
      LiveIff(after, issued + 1, other);
    }
  }

  // ---- observations

  /** The checks on the stored assignment. */
  predicate Acceptable(target: Target, input: Observation, at: Instant) {
    && target.attempt == Some(input.assignment) && target.nonce == Some(input.nonce) && target.expires.Some?
    && (target.state == Healthy || target.state == Failed || at < target.expires.value)
    && (target.lastReport.Some? ==> input.reportAt >= target.lastReport.value)
  }

  /** The attempt row: its end time moves only with its state. */
  function ObservedRecord(id: string, record: Attempt, before: TargetState, after: TargetState, at: Instant): Attempt {
    Attempt(id, Recorded(after),
            if after == before then record.endedAt else if after == Healthy || after == Failed then Some(at) else None)
  }

  function ObservedTables(db: Db, id: string, after: Target, counted: bool, reportAt: Instant, at: Instant): Db
    requires id in db.targets && HasAttempt(db, id, db.targets[id])
  {
    var before := db.targets[id];
    var attempt := before.attempt.value;
    SetTarget(db, id, after, attempt, ObservedRecord(id, db.attempts[attempt], before.state, after.state, at),
              db.accepted[attempt] + [Accepted(at, reportAt, counted, after.state)])
  }

  /** A failed target pauses its rollout. */
  function ObservedDb(db: Db, id: string, after: Target, counted: bool, reportAt: Instant, at: Instant): Db
    requires id in db.targets && HasAttempt(db, id, db.targets[id])
  {
    var written := ObservedTables(db, id, after, counted, reportAt, at);
    if after.state == Failed then PauseIn(written, {after.rollout}, HealthGateFailed) else written
  }

  /** A target that was healthy since its offer never counts against the capacity again. */
  lemma {:induction false} StillProven(db: Db, id: string, log: seq<Accepted>, entry: Accepted)
    requires id in db.targets && TargetOk(db, id) && HasAttempt(db, id, db.targets[id]) &&
             log == db.accepted[db.targets[id].attempt.value]
    requires InFlight(db.targets[id].state) || db.targets[id].state == Healthy
    ensures Unproven(db, id) || EverHealthy(log + [entry])
  {
    hide UnbrokenFrom;
    var longer := log + [entry];
    if db.targets[id].state == Healthy {
      assert longer[|log| - 1].state == Healthy;
    } else if EverHealthy(log) {
      var i :| 0 <= i < |log| && log[i].state == Healthy;
      assert longer[i].state == Healthy;
    }
  }

  lemma {:induction false} ObservedMayBecome(db: Db, id: string, input: Observation, node: NodeState, version: string,
                                             at: Instant, issued: nat)
    requires id in db.targets && TargetOk(db, id) && Acceptable(db.targets[id], input, at) &&
             input.reportAt <= at + SECOND
    requires LogsPast(db, at)
    ensures var before := db.targets[id];
            var policy := db.rollouts[before.rollout].policy;
            var after := Observed(before, input, node, version, policy, at);
            var counted := Counts(before, input, node, version, policy, at);
            var attempt := before.attempt.value;
            var record := ObservedRecord(id, db.attempts[attempt], before.state, after.state, at);
            var log := db.accepted[attempt] + [Accepted(at, input.reportAt, counted, after.state)];
            MayBecome(db, id, after, attempt, record, log, issued) && Respects(db, id, after, attempt, record, issued)
  {
    hide WindowOk, Counts, ThresholdFailure, ReportReady;
    var before := db.targets[id];
    ObservedKeepsWindow(before, db.accepted[before.attempt.value], input, node, version,
                        db.rollouts[before.rollout].policy, at);
  }

  lemma {:induction false} ObservedTablesKeep(db: Db, id: string, input: Observation, node: NodeState, version: string,
                                              at: Instant, issued: nat)
    requires Inv(db, issued) && id in db.targets && TargetOk(db, id) && Acceptable(db.targets[id], input, at)
    requires LogsPast(db, at) && input.reportAt <= at + SECOND
    requires NoClash(db, id,
                     Observed(db.targets[id], input, node, version, db.rollouts[db.targets[id].rollout].policy, at))
    ensures var policy := db.rollouts[db.targets[id].rollout].policy;
            var after := ObservedTables(db, id, Observed(db.targets[id], input, node, version, policy, at),
                                        Counts(db.targets[id], input, node, version, policy, at), input.reportAt, at);
            Inv(after, issued) && Kept(db, after) && Retired(db, after, issued)
  {
    hide Inv, WindowOk, Counts, ThresholdFailure, ReportReady, NoClash, MayBecome, Respects, Kept, Retired, Unproven,
         EverHealthy, UnprovenOf;
    var before := db.targets[id];
    var policy := db.rollouts[before.rollout].policy;
    var after := Observed(before, input, node, version, policy, at);
    var attempt := before.attempt.value;
    var entry := Accepted(at, input.reportAt, Counts(before, input, node, version, policy, at), after.state);
    ObservedMayBecome(db, id, input, node, version, at, issued);
    if InFlight(after.state) {
      StillProven(db, id, db.accepted[attempt], entry);
    }
    AttemptKnown(db, id, issued);
    SetTargetKeeps(db, id, after, attempt, ObservedRecord(id, db.attempts[attempt], before.state, after.state, at),
                   db.accepted[attempt] + [entry], issued);
  }

  lemma {:induction false} AttemptKnown(db: Db, id: string, issued: nat)
    requires Inv(db, issued) && id in db.targets && db.targets[id].attempt.Some?
    ensures HasAttempt(db, id, db.targets[id]) && db.targets[id].attempt.value < issued
  {
    hide RolloutsOk, CapacityOk, NodesOk, WindowOk;
    assert TargetOk(db, id);
  }

  lemma {:induction false} ObservedKeeps(db: Db, id: string, input: Observation, node: NodeState, version: string,
                                         at: Instant, issued: nat)
    requires Inv(db, issued) && id in db.targets && TargetOk(db, id) && Acceptable(db.targets[id], input, at)
    requires LogsPast(db, at) && input.reportAt <= at + SECOND
    requires NoClash(db, id,
                     Observed(db.targets[id], input, node, version, db.rollouts[db.targets[id].rollout].policy, at))
    ensures var policy := db.rollouts[db.targets[id].rollout].policy;
            var after := ObservedDb(db, id, Observed(db.targets[id], input, node, version, policy, at),
                                    Counts(db.targets[id], input, node, version, policy, at), input.reportAt, at);
            && Inv(after, issued) && Kept(db, after) && Retired(db, after, issued) && LogsPast(after, at)
            && (after.targets[id].state == Failed ==>
                  after.rollouts[db.targets[id].rollout] ==
                    PausedRow(db.rollouts[db.targets[id].rollout], HealthGateFailed))
  {
    hide Inv, WindowOk, Counts, ThresholdFailure, ReportReady, NoClash, Kept, Retired, LogsPast;
    var policy := db.rollouts[db.targets[id].rollout].policy;
    var after := Observed(db.targets[id], input, node, version, policy, at);
    var written := ObservedTables(db, id, after, Counts(db.targets[id], input, node, version, policy, at),
                                  input.reportAt, at);
    ObservedTablesKeep(db, id, input, node, version, at, issued);
    ObservedLogsPast(db, id, after, Counts(db.targets[id], input, node, version, policy, at), input.reportAt, at);
    PauseInKeeps(written, {after.rollout}, HealthGateFailed, issued);
    Chain(db, written, PauseIn(written, {after.rollout}, HealthGateFailed), issued, issued);
  }

  lemma {:induction false} ObservedLogsPast(db: Db, id: string, after: Target, counted: bool, reportAt: Instant,
                                            at: Instant)
    requires LogsPast(db, at) && id in db.targets && HasAttempt(db, id, db.targets[id])
    ensures LogsPast(ObservedDb(db, id, after, counted, reportAt, at), at)
  {
  }

  /** The row and all it refers to are there. */
  ghost predicate Reportable(db: Db, id: string) {
    && id in db.targets && db.targets[id].rollout in db.rollouts &&
       db.rollouts[db.targets[id].rollout].release in db.releases
    && HasAttempt(db, id, db.targets[id])
  }

  function ReportedRow(db: Db, id: string, input: Observation, node: NodeState, at: Instant): Target
    requires Reportable(db, id)
  {
    var row := db.rollouts[db.targets[id].rollout];
    Observed(db.targets[id], input, node, db.releases[row.release].version, row.policy, at)
  }

  function AfterReport(db: Db, id: string, input: Observation, node: NodeState, at: Instant): Db
    requires Reportable(db, id)
  {
    var row := db.rollouts[db.targets[id].rollout];
    ObservedDb(db, id, ReportedRow(db, id, input, node, at),
               Counts(db.targets[id], input, node, db.releases[row.release].version, row.policy, at),
               input.reportAt, at)
  }

  lemma {:induction false} ReportKeeps(db: Db, id: string, input: Observation, node: NodeState, at: Instant,
                                       issued: nat)
    requires Inv(db, issued) && Reportable(db, id) && Acceptable(db.targets[id], input, at) &&
             input.reportAt <= at + SECOND
    requires LogsPast(db, at) && NoClash(db, id, ReportedRow(db, id, input, node, at))
    ensures var after := AfterReport(db, id, input, node, at);
            && Inv(after, issued) && Kept(db, after) && Retired(db, after, issued) && LogsPast(after, at)
            && (after.targets[id].state == Failed ==>
                  after.rollouts[db.targets[id].rollout] ==
                    PausedRow(db.rollouts[db.targets[id].rollout], HealthGateFailed))
  {
    hide LogsPast, RolloutsOk, CapacityOk, NodesOk, NoClash, Observed, ObservedDb, Counts, Acceptable, TargetOk, Kept,
         Retired;
    assert TargetOk(db, id);
    ObservedKeeps(db, id, input, node, db.releases[db.rollouts[db.targets[id].rollout].release].version, at, issued);
  }

  /** Every stored assignment is reportable, and no other row has it. */
  lemma {:induction false} OneRowPerAssignment(db: Db, id: string, other: string, issued: nat)
    requires Inv(db, issued) && id in db.targets && db.targets[id].attempt.Some?
    ensures Reportable(db, id)
    ensures other in db.targets && db.targets[other].attempt == db.targets[id].attempt ==> other == id
  {
    hide CapacityOk, NodesOk, WindowOk, PromotionOk;
    assert TargetOk(db, id);
    assert RolloutOk(db, db.targets[id].rollout);
    if other in db.targets {
      assert TargetOk(db, other);
    }
  }

  /** Steps compose. */
  lemma {:induction false} Chain(first: Db, second: Db, third: Db, issued: nat, more: nat)
    requires Kept(first, second) && Kept(second, third) && Retired(first, second, issued) &&
             Retired(second, third, more) && issued <= more
    ensures Kept(first, third) && Retired(first, third, issued)
  {
    KeptTransitive(first, second, third);
  }

  lemma {:induction false} InFlightAfter(db: Db, id: string, after: Target, counted: bool, reportAt: Instant,
                                         at: Instant)
    requires id in db.targets && HasAttempt(db, id, db.targets[id]) && after.rollout == db.targets[id].rollout
    ensures var before := InFlightOf(db, after.rollout);
            InFlightOf(ObservedDb(db, id, after, counted, reportAt, at), after.rollout) ==
            if InFlight(after.state) then before + {id} else before - {id}
  {
    var later := InFlightOf(ObservedDb(db, id, after, counted, reportAt, at), after.rollout);
    forall x
      ensures x in later <==> if x == id then InFlight(after.state) else x in InFlightOf(db, after.rollout)
    {
    }
  }

  /** Counting every offered or observing target, a report breaks the limit if and only if it makes a
      healthy target slide back while the rollout is at its limit. */
  lemma {:induction false} RawCountKept(db: Db, id: string, input: Observation, node: NodeState, at: Instant,
                                        issued: nat)
    requires Inv(db, issued) && LogsPast(db, at) && Reportable(db, id) && Acceptable(db.targets[id], input, at)
    requires var rollout := db.targets[id].rollout;
             |InFlightOf(db, rollout)| <= db.rollouts[rollout].policy.maxConcurrent
    ensures var rollout := db.targets[id].rollout;
            var row := db.rollouts[rollout];
            |InFlightOf(AfterReport(db, id, input, node, at), rollout)| <= row.policy.maxConcurrent <==>
            !(SlidesBack(db.targets[id], input, node, db.releases[row.release].version, row.policy, at) &&
              |InFlightOf(db, rollout)| == row.policy.maxConcurrent)
  {
    hide RolloutsOk, CapacityOk, NodesOk, ThresholdFailure, ReportReady, Counts, ObservedDb, Observed, WindowOk,
         InFlightOf, SlidesBack;
    var target, rollout := db.targets[id], db.targets[id].rollout;
    var row := db.rollouts[rollout];
    var version := db.releases[row.release].version;
    var after := ReportedRow(db, id, input, node, at);
    PolicyKnown(db, rollout, issued);
    assert TargetOk(db, id);
    ReportPlace(target, input, node, version, row.policy, at);
    InFlightAfter(db, id, after, Counts(target, input, node, version, row.policy, at), input.reportAt, at);
    var before := InFlightOf(db, rollout);
    if InFlight(target.state) {
      assert id in before by { FlightKnown(db, id); }
      SlidesOnlyHealthy(target, input, node, version, row.policy, at);
      assert !SlidesBack(target, input, node, version, row.policy, at);
    } else {
      assert id !in before by { FlightKnown(db, id); }
      SlidesBackIff(target, db.accepted[target.attempt.value], input, node, version, row.policy, at);
    }
  }

  lemma {:induction false} PolicyKnown(db: Db, rollout: string, issued: nat)
    requires Inv(db, issued) && rollout in db.rollouts
    ensures ValidPolicy(db.rollouts[rollout].policy)
  {
    hide TargetsOk, CapacityOk, NodesOk, PromotionOk;
    assert RolloutOk(db, rollout);
  }

  lemma {:induction false} FlightKnown(db: Db, id: string)
    requires id in db.targets
    ensures id in InFlightOf(db, db.targets[id].rollout) <==> InFlight(db.targets[id].state)
  {
  }

  lemma {:induction false} SlidesOnlyHealthy(target: Target, input: Observation, node: NodeState, version: string,
                                             policy: Policy, at: Instant)
    ensures SlidesBack(target, input, node, version, policy, at) ==> target.state == Healthy
  {
  }

  lemma {:induction false} ReportPlace(target: Target, input: Observation, node: NodeState, version: string,
                                       policy: Policy, at: Instant)
    ensures var after := Observed(target, input, node, version, policy, at);
            after.rollout == target.rollout && after.node == target.node
  {
  }

  // ---- expiry

  predicate Expired(target: Target, at: Instant) {
    InFlight(target.state) && target.expires.Some? && target.expires.value <= at
  }

  function ExpiredRow(target: Target): Target {
    target.(state := Held, reason := AssignmentUnknown, nonce := None, expires := None, since := None)
  }

  function ExpiredTables(db: Db, id: string, at: Instant): Db
    requires id in db.targets && HasAttempt(db, id, db.targets[id])
  {
    var attempt := db.targets[id].attempt.value;
    SetTarget(db, id, ExpiredRow(db.targets[id]), attempt, Attempt(id, Unknown, Some(at)), db.accepted[attempt])
  }

  function ExpiredDb(db: Db, id: string, at: Instant): (after: Db)
    requires id in db.targets && HasAttempt(db, id, db.targets[id])
    ensures after.accepted == db.accepted
  {
    PauseIn(ExpiredTables(db, id, at), {db.targets[id].rollout}, AssignmentUnknown)
  }

  lemma {:induction false} ExpiredMayBecome(db: Db, id: string, at: Instant, issued: nat)
    requires id in db.targets && TargetOk(db, id) && Expired(db.targets[id], at)
    ensures var attempt, record := db.targets[id].attempt.value, Attempt(id, Unknown, Some(at));
            && HasAttempt(db, id, db.targets[id])
            && MayBecome(db, id, ExpiredRow(db.targets[id]), attempt, record, db.accepted[attempt], issued)
            && Respects(db, id, ExpiredRow(db.targets[id]), attempt, record, issued)
            && NoClash(db, id, ExpiredRow(db.targets[id]))
  {
  }

  lemma {:induction false} ExpiredKeeps(db: Db, id: string, at: Instant, issued: nat)
    requires Inv(db, issued) && id in db.targets && TargetOk(db, id) && Expired(db.targets[id], at)
    ensures HasAttempt(db, id, db.targets[id])
    ensures var after := ExpiredDb(db, id, at); Inv(after, issued) && Kept(db, after) && Retired(db, after, issued)
    ensures !Live(ExpiredDb(db, id, at), db.targets[id].attempt.value)
  {
    hide Live, Inv, WindowOk, NoClash, MayBecome, Respects, Kept, Retired, Unproven, EverHealthy, UnprovenOf, PauseIn,
         SetTarget;
    var attempt := db.targets[id].attempt.value;
    ExpiredMayBecome(db, id, at, issued);
    AttemptKnown(db, id, issued);
    SetTargetKeeps(db, id, ExpiredRow(db.targets[id]), attempt, Attempt(id, Unknown, Some(at)), db.accepted[attempt],
                   issued);
    var written := ExpiredTables(db, id, at);
    PauseInKeeps(written, {db.targets[id].rollout}, AssignmentUnknown, issued);
    Chain(db, written, PauseIn(written, {db.targets[id].rollout}, AssignmentUnknown), issued, issued);
    ExpiredDead(db, id, at, issued);
  }

  /** Without its nonce the assignment is dead. */
  lemma {:induction false} ExpiredDead(db: Db, id: string, at: Instant, issued: nat)
    requires id in db.targets && HasAttempt(db, id, db.targets[id]) && Inv(ExpiredDb(db, id, at), issued)
    ensures !Live(ExpiredDb(db, id, at), db.targets[id].attempt.value)
  {
    hide Inv, Live;
    LiveIff(ExpiredDb(db, id, at), issued, db.targets[id].attempt.value);
  }

  // ---- revocation

  function ActiveOn(db: Db, releases: set<string>): set<string> {
    set r | r in db.rollouts && db.rollouts[r].phase == Active && db.rollouts[r].release in releases
  }

  function MarkRevoked(releases: map<string, Release>, which: set<string>): map<string, Release> {
    map r | r in releases :: if r in which then releases[r].(revoked := true) else releases[r]
  }

  /** Revokes releases and pauses the rollouts that were offering them. */
  function RevokedDb(db: Db, which: set<string>, reason: Reason): (after: Db)
    ensures after.accepted == db.accepted
  {
    PauseIn(db, ActiveOn(db, which), reason).(releases := MarkRevoked(db.releases, which))
  }

  lemma {:induction false} RevokeAllowed(db: Db, which: set<string>, reason: Reason, issued: nat)
    requires Inv(db, issued) && reason != AwaitingPromotion
    ensures ReleasesMayBecome(PauseIn(db, ActiveOn(db, which), reason), MarkRevoked(db.releases, which))
  {
    hide TargetsOk, CapacityOk, NodesOk, PromotionOk, RolloutOk;
    var paused := PauseIn(db, ActiveOn(db, which), reason);
    forall rollout | rollout in db.rollouts && paused.rollouts[rollout].phase == Active
      ensures db.rollouts[rollout].release in db.releases &&
              !MarkRevoked(db.releases, which)[db.rollouts[rollout].release].revoked
    {
      ActiveRelease(db, rollout, issued);
      assert rollout !in ActiveOn(db, which);
    }
  }

  lemma {:induction false} ActiveRelease(db: Db, rollout: string, issued: nat)
    requires Inv(db, issued) && rollout in db.rollouts
    ensures db.rollouts[rollout].release in db.releases
    ensures db.rollouts[rollout].phase == Active ==>
              !db.releases[db.rollouts[rollout].release].revoked && db.rollouts[rollout].reason == NoReason
  {
    hide TargetsOk, CapacityOk, NodesOk, PromotionOk;
    assert RolloutOk(db, rollout);
  }

  lemma {:induction false} RevokeKeeps(db: Db, which: set<string>, reason: Reason, issued: nat)
    requires Inv(db, issued) && reason != AwaitingPromotion
    ensures var after := RevokedDb(db, which, reason);
            Inv(after, issued) && Kept(db, after) && Retired(db, after, issued)
  {
    hide Inv, Kept, Retired, ReleasesMayBecome, MarkRevoked, PauseIn, ActiveOn;
    var paused := PauseIn(db, ActiveOn(db, which), reason);
    PauseInKeeps(db, ActiveOn(db, which), reason, issued);
    RevokeAllowed(db, which, reason, issued);
    ReleasesKeeps(paused, MarkRevoked(db.releases, which), issued);
    Chain(db, paused, RevokedDb(db, which, reason), issued, issued);
  }

  /** A changed signature policy distrusts every release and pauses every unfinished rollout. */
  function DistrustedDb(db: Db, revision: string): (after: Db)
    ensures after.accepted == db.accepted
  {
    PauseIn(db, db.rollouts.Keys, TrustPolicyChanged).(releases := Unverified(db.releases), signaturePolicy := revision)
  }

  lemma {:induction false} PolicyRevisionKeeps(db: Db, revision: string, issued: nat)
    requires Inv(db, issued)
    ensures var after := db.(signaturePolicy := revision);
            Inv(after, issued) && Kept(db, after) && Retired(db, after, issued)
  {
    hide TargetsOk, CapacityOk, NodesOk, Retired, Kept, PromotionOk, ValidPolicy;
    var after := db.(signaturePolicy := revision);
    forall rollout | rollout in db.rollouts
      ensures RolloutOk(after, rollout) && RolloutKept(db, after, rollout)
    {
      assert RolloutOk(db, rollout);
      PromotionsSame(db, after, rollout);
    }
    FailedHavePromotions(db, issued);
    RolloutsChange(db, after, issued);
  }

  lemma {:induction false} DistrustKeeps(db: Db, revision: string, issued: nat)
    requires Inv(db, issued)
    ensures var after := DistrustedDb(db, revision); Inv(after, issued) && Kept(db, after) && Retired(db, after, issued)
  {
    hide Inv, Kept, Retired, ReleasesMayBecome, Unverified, PauseIn;
    var paused := PauseIn(db, db.rollouts.Keys, TrustPolicyChanged);
    var distrusted := paused.(releases := Unverified(db.releases));
    PauseInKeeps(db, db.rollouts.Keys, TrustPolicyChanged, issued);
    UnverifiedAllowed(db, db.rollouts.Keys, TrustPolicyChanged, issued);
    ReleasesKeeps(paused, Unverified(db.releases), issued);
    Chain(db, paused, distrusted, issued, issued);
    PolicyRevisionKeeps(distrusted, revision, issued);
    Chain(db, distrusted, DistrustedDb(db, revision), issued, issued);
  }

  lemma {:induction false} ImportAllowed(db: Db, id: string, release: Release, issued: nat)
    requires Inv(db, issued) && (id in db.releases ==> release.version == db.releases[id].version) && !release.revoked
    ensures ReleasesMayBecome(db, db.releases[id := release])
  {
    hide TargetsOk, CapacityOk, NodesOk, PromotionOk, RolloutOk;
    forall rollout | rollout in db.rollouts && db.rollouts[rollout].phase == Active
      ensures db.rollouts[rollout].release in db.releases &&
              !db.releases[id := release][db.rollouts[rollout].release].revoked
    {
      ActiveRelease(db, rollout, issued);
    }
  }

  // ---- restoring a backup

  /** The rollout was unfinished and its wave had not been passed. */
  predicate Reopened(db: Db, target: Target) {
    && target.rollout in db.rollouts && !Terminal(db.rollouts[target.rollout].phase)
    && target.wave >= db.rollouts[target.rollout].wave
  }

  function RestoredRow(db: Db, target: Target): Target {
    var held := if Reopened(db, target) then target.(state := Held, reason := Restored, since := None) else target;
    held.(nonce := None, expires := None)
  }

  function RestoredAttempt(record: Attempt, at: Instant): Attempt {
    if record.state == Recorded(Offered) || record.state == Recorded(Observing)
    then record.(state := Unknown, endedAt := Some(at))
    else record
  }

  function Unverified(releases: map<string, Release>): map<string, Release> {
    map r | r in releases :: releases[r].(verified := false)
  }

  /** The statements of `restorePause`, in order. */
  function RestoredDb(db: Db, at: Instant): (after: Db)
    ensures after.accepted == db.accepted
  {
    var paused := PauseIn(db, db.rollouts.Keys, Restored);
    var unverified := paused.(releases := Unverified(db.releases));
    unverified.(targets := map id | id in db.targets :: RestoredRow(db, db.targets[id]),
                attempts := map a | a in db.attempts :: RestoredAttempt(db.attempts[a], at))
  }

  lemma {:induction false} WindowForgets(before: Target, after: Target, log: seq<Accepted>, policy: Policy)
    requires WindowOk(before, log, policy) && after.lastReport == before.lastReport && after.nonce.None?
    requires (after.since == before.since && after.state == before.state) ||
             (after.since.None? && after.state != Healthy)
    ensures WindowOk(after, log, policy)
  {
  }

  lemma {:induction false} RestoredRowOk(db: Db, at: Instant, id: string)
    requires id in db.targets && TargetOk(db, id)
    ensures var after := RestoredDb(db, at); TargetOk(after, id) && Weaker(db.targets[id], after.targets[id])
  {
    hide WindowOk;
    var target := db.targets[id];
    if target.attempt.Some? {
      WindowForgets(target, RestoredRow(db, target), db.accepted[target.attempt.value],
                    db.rollouts[target.rollout].policy);
    }
  }

  lemma {:induction false} UnverifiedAllowed(db: Db, which: set<string>, reason: Reason, issued: nat)
    requires Inv(db, issued)
    ensures ReleasesMayBecome(PauseIn(db, which, reason), Unverified(db.releases))
  {
    hide TargetsOk, CapacityOk, NodesOk, PromotionOk, RolloutOk;
    forall rollout | rollout in db.rollouts
      ensures db.rollouts[rollout].phase == Active ==>
                db.rollouts[rollout].release in db.releases && !db.releases[db.rollouts[rollout].release].revoked
    {
      ActiveRelease(db, rollout, issued);
    }
  }

  lemma {:induction false} RestoredInv(db: Db, at: Instant, issued: nat)
    requires Inv(db, issued)
    ensures Inv(RestoredDb(db, at), issued)
  {
    hide RolloutOk, RolloutKept, CapacityOk, NodesOk, TargetOk, Kept, Retired, Weaker, RestoredRow, RestoredAttempt,
         Unverified, ReleasesMayBecome;
    var paused := PauseIn(db, db.rollouts.Keys, Restored);
    PauseInKeeps(db, db.rollouts.Keys, Restored, issued);
    UnverifiedAllowed(db, db.rollouts.Keys, Restored, issued);
    ReleasesKeeps(paused, Unverified(db.releases), issued);
    var unverified := paused.(releases := Unverified(db.releases));
    forall id | id in db.targets
      ensures TargetOk(RestoredDb(db, at), id) && Weaker(unverified.targets[id], RestoredDb(db, at).targets[id])
    {
      RestoredRowOk(db, at, id);
    }
    TargetsChange(unverified, RestoredDb(db, at), issued);
  }

  /** No assignment survives a restore. */
  lemma {:induction false} RestoreKillsAll(db: Db, at: Instant, attempt: nat)
    ensures !Live(RestoredDb(db, at), attempt)
  {
  }

  /** Unfinished rollouts restart from their current wave, held and paused; finished ones and passed
      waves keep their rows. Exactly the latter can be left in flight, and then they are stranded. */
  lemma {:induction false} RestoreStrands(db: Db, at: Instant, id: string)
    requires id in db.targets && TargetOk(db, id)
    ensures var after := RestoredDb(db, at);
            && (InFlight(after.targets[id].state) <==> Stranded(after.targets[id]))
            && (Stranded(after.targets[id]) <==>
                InFlight(db.targets[id].state) &&
                (Terminal(db.rollouts[db.targets[id].rollout].phase) ||
                 db.targets[id].wave < db.rollouts[db.targets[id].rollout].wave))
  {
    hide WindowOk;
  }

  /** While a row is stranded, its node gets no offer from any rollout. */
  lemma {:induction false} StrandedBlocksNode(db: Db, id: string, other: string)
    requires id in db.targets && Stranded(db.targets[id]) && other in db.targets &&
             db.targets[other].node == db.targets[id].node
    ensures !MayOffer(db, other)
  {
    assert id in InFlightOn(db, db.targets[other].node);
  }

  /** An unstarted rollout can start if and only if it still awaits its first promotion, and an unfinished
      one is stuck if and only if neither promotion nor resumption is open to it. */
  lemma {:induction false} StuckIff(db: Db, issued: nat, rollout: string)
    requires Inv(db, issued) && rollout in db.rollouts
    ensures var row := db.rollouts[rollout];
            && (row.wave == -1 ==> (Promotable(row) <==> row.phase == Paused && row.reason == AwaitingPromotion))
            && (row.wave == -1 ==> (Stuck(row) <==> !Promotable(row)))
            && (!Terminal(row.phase) ==> (Stuck(row) <==> !Promotable(row) && !Resumable(row)))
  {
    hide TargetsOk, CapacityOk, NodesOk, PromotionOk, ValidPolicy;
    assert RolloutOk(db, rollout);
  }

  /** A pause stops an unstarted rollout for good exactly when it is among the paused ones or was stopped
      before; a restore always does. */
  lemma {:induction false} StoppedBeforeStart(db: Db, issued: nat, which: set<string>, reason: Reason, at: Instant,
                                              rollout: string)
    requires Inv(db, issued) && rollout in db.rollouts && db.rollouts[rollout].wave == -1
    requires reason != AwaitingPromotion
    ensures Stuck(PauseIn(db, which, reason).rollouts[rollout]) <==> rollout in which || Stuck(db.rollouts[rollout])
    ensures Stuck(RestoredDb(db, at).rollouts[rollout])
  {
    hide Inv, RestoredRow, RestoredAttempt, Unverified;
    StuckIff(db, issued, rollout);
  }

  // ---- creating a rollout

  function WaveOf(policy: Policy, index: nat): (wave: nat)
    requires ValidPolicy(policy)
  {
    if index < policy.canaryCount then 0 else 1 + (index - policy.canaryCount) / policy.waveSize
  }

  function TotalWaves(policy: Policy, count: nat): (total: nat)
    requires ValidPolicy(policy)
  {
    if count > policy.canaryCount then 1 + CeilDiv(count - policy.canaryCount, policy.waveSize) else 1
  }

  /** The waves are numbered without gaps: every target has a wave below the total, and every wave
      below the total has a target. */
  lemma {:induction false} WavesCover(policy: Policy, count: nat, index: nat)
    requires ValidPolicy(policy) && index < count
    ensures WaveOf(policy, index) < TotalWaves(policy, count)
  {
    if index >= policy.canaryCount {
      DivLess(index - policy.canaryCount, count - policy.canaryCount, policy.waveSize);
    }
  }

  lemma {:induction false} WavesInhabited(policy: Policy, count: nat, wave: nat) returns (index: nat)
    requires ValidPolicy(policy) && count > 0 && wave < TotalWaves(policy, count)
    ensures index < count && WaveOf(policy, index) == wave
  {
    if wave == 0 {
      index := 0;
    } else {
      index := policy.canaryCount + (wave - 1) * policy.waveSize;
      MulDiv(wave - 1, policy.waveSize);
      BelowCeil(wave - 1, count - policy.canaryCount, policy.waveSize);
    }
  }

  lemma {:induction false} MulDiv(q: nat, b: nat)
    requires b > 0
    ensures (q * b) / b == q && q * b >= 0
  {
    var d, r := (q * b) / b, (q * b) % b;
    assert (q - d) * b == r;
    assert q - d >= 1 ==> (q - d) * b >= b;
    assert d - q >= 1 ==> (d - q) * b >= b;
  }

  lemma {:induction false} DivLess(a: nat, count: nat, b: nat)
    requires b > 0 && a < count
    ensures a / b < CeilDiv(count, b)
  {
    var q, c := a / b, (count + b - 1) / b;
    assert q * b <= a;
    assert (q + 1) * b <= count + b - 1;
    assert c <= q ==> (c + 1) * b <= (q + 1) * b;
  }

  lemma {:induction false} BelowCeil(q: nat, count: nat, b: nat)
    requires b > 0 && q < CeilDiv(count, b)
    ensures q * b < count
  {
    var c := (count + b - 1) / b;
    assert c * b <= count + b - 1;
    assert (q + 1) * b <= c * b;
  }

  function PendingRow(rollout: string, node: string, wave: int): Target {
    Target(rollout, node, wave, Pending, NoReason, None, "", None, None, None, None)
  }

  function NewRollout(release: string, policy: Policy, count: nat, at: Instant): Rollout
    requires ValidPolicy(policy)
  {
    Rollout(release, Paused, AwaitingPromotion, -1, TotalWaves(policy, count), policy, at)
  }

  function CreatedDb(db: Db, id: string, row: Rollout, rows: map<string, Target>): (after: Db)
    ensures after.accepted == db.accepted
  {
    db.(rollouts := db.rollouts[id := row], promotions := db.promotions[id := []], targets := db.targets + rows,
        born := db.born + {id} + rows.Keys)
  }

  /** New rows of a new rollout, all waiting. */
  ghost predicate NewRows(db: Db, id: string, total: int, rows: map<string, Target>) {
    && id !in db.born && rows.Keys !! db.born && rows.Keys !! db.targets.Keys
    && forall t :: t in rows ==> rows[t] == PendingRow(id, rows[t].node, rows[t].wave) && 0 <= rows[t].wave < total
  }

  lemma {:induction false} CreatedRollout(db: Db, id: string, row: Rollout, rows: map<string, Target>, other: string)
    requires id !in db.rollouts && NewRows(db, id, row.total, rows) && other in db.rollouts && RolloutOk(db, other)
    ensures var after := CreatedDb(db, id, row, rows); RolloutOk(after, other) && RolloutKept(db, after, other)
  {
    hide PromotionOk, ValidPolicy;
    PromotionsSame(db, CreatedDb(db, id, row, rows), other);
  }

  lemma {:induction false} CreatedTarget(db: Db, id: string, row: Rollout, rows: map<string, Target>, other: string)
    requires id !in db.rollouts && NewRows(db, id, row.total, rows) && other in db.targets && TargetOk(db, other)
    requires db.targets[other].rollout in db.promotions
    ensures var after := CreatedDb(db, id, row, rows);
            after.targets[other] == db.targets[other] && TargetOk(after, other) && TargetKept(db, after, other)
  {
    hide WindowOk;
  }

  lemma {:induction false} NewTargetOk(db: Db, id: string, row: Rollout, rows: map<string, Target>, t: string)
    requires NewRows(db, id, row.total, rows) && t in rows
    ensures TargetOk(CreatedDb(db, id, row, rows), t)
  {
  }

  lemma {:induction false} CreatedUnproven(db: Db, id: string, row: Rollout, rows: map<string, Target>, rollout: string)
    requires NewRows(db, id, row.total, rows)
    ensures UnprovenOf(CreatedDb(db, id, row, rows), rollout) == UnprovenOf(db, rollout)
  {
  }

  lemma {:induction false} CreatedNodes(db: Db, id: string, row: Rollout, rows: map<string, Target>)
    requires NewRows(db, id, row.total, rows) && NodesOk(db)
    ensures NodesOk(CreatedDb(db, id, row, rows))
  {
  }

  lemma {:induction false} CreatedLive(db: Db, id: string, row: Rollout, rows: map<string, Target>, issued: nat)
    requires NewRows(db, id, row.total, rows)
    ensures Retired(db, CreatedDb(db, id, row, rows), issued)
  {
    var after := CreatedDb(db, id, row, rows);
    forall a: nat | a < issued && Live(after, a)
      ensures Live(db, a)
    {
      var t :| t in after.targets && after.targets[t].attempt == Some(a) && after.targets[t].nonce.Some?;
      assert t in db.targets && db.targets[t] == after.targets[t];
    }
  }

  lemma {:induction false} NoneUnproven(db: Db, id: string, issued: nat)
    requires Inv(db, issued) && id !in db.rollouts
    ensures UnprovenOf(db, id) == {}
  {
    forall t | t in db.targets
      ensures db.targets[t].rollout != id
    {
      assert TargetOk(db, t);
    }
  }

  lemma {:induction false} CreatedPersists(db: Db, id: string, row: Rollout, rows: map<string, Target>, issued: nat)
    requires Inv(db, issued) && NewRows(db, id, row.total, rows)
    ensures Persistent(db, CreatedDb(db, id, row, rows))
  {
    FailedHavePromotions(db, issued);
  }

  lemma {:induction false} CreatedTargets(db: Db, id: string, row: Rollout, rows: map<string, Target>, issued: nat)
    requires Inv(db, issued) && id !in db.rollouts && NewRows(db, id, row.total, rows)
    ensures var after := CreatedDb(db, id, row, rows);
            TargetsOk(after) && forall t :: t in db.targets ==> t in after.targets && TargetKept(db, after, t)
  {
    hide RolloutsOk, CapacityOk, NodesOk, TargetOk, TargetKept, NewRows;
    var after := CreatedDb(db, id, row, rows);
    FailedHavePromotions(db, issued);
    forall t | t in after.targets
      ensures TargetOk(after, t) && (t in db.targets ==> TargetKept(db, after, t))
    {
      if t in db.targets {
        CreatedTarget(db, id, row, rows, t);
      } else {
        NewTargetOk(db, id, row, rows, t);
      }
    }
  }

  lemma {:induction false} CreatedRollouts(db: Db, id: string, row: Rollout, rows: map<string, Target>, issued: nat)
    requires Inv(db, issued) && id !in db.rollouts && NewRows(db, id, row.total, rows)
    requires RolloutOk(CreatedDb(db, id, row, rows), id)
    ensures var after := CreatedDb(db, id, row, rows);
            && RolloutsOk(after) && CapacityOk(after)
            && forall r :: r in db.rollouts ==> r in after.rollouts && RolloutKept(db, after, r)
  {
    hide RolloutOk, RolloutKept, TargetsOk, UnprovenOf, NodesOk, NewRows, ValidPolicy;
    var after := CreatedDb(db, id, row, rows);
    NoneUnproven(db, id, issued);
    forall rollout | rollout in after.rollouts
      ensures RolloutOk(after, rollout) && (rollout in db.rollouts ==> RolloutKept(db, after, rollout))
      ensures |UnprovenOf(after, rollout)| <= after.rollouts[rollout].policy.maxConcurrent
    {
      CreatedUnproven(db, id, row, rows, rollout);
      if rollout != id {
        CreatedRollout(db, id, row, rows, rollout);
      } else {
        LimitPositive(after, id);
      }
    }
  }

  lemma {:induction false} LimitPositive(db: Db, rollout: string)
    requires rollout in db.rollouts && RolloutOk(db, rollout)
    ensures db.rollouts[rollout].policy.maxConcurrent >= 1
  {
  }

  lemma {:induction false} CreateKeeps(db: Db, id: string, row: Rollout, rows: map<string, Target>, issued: nat)
    requires Inv(db, issued) && id !in db.rollouts && NewRows(db, id, row.total, rows)
    requires row.phase == Paused && row.wave == -1 && row.total >= 1 && ValidPolicy(row.policy) &&
             row.release in db.releases
    ensures var after := CreatedDb(db, id, row, rows);
            Inv(after, issued) && Kept(db, after) && Retired(db, after, issued)
  {
    hide RolloutsOk, CapacityOk, TargetsOk, RolloutKept, TargetKept, NodesOk, Retired, NewRows, Persistent;
    CreatedPersists(db, id, row, rows, issued);
    CreatedNodes(db, id, row, rows);
    CreatedLive(db, id, row, rows, issued);
    CreatedTargets(db, id, row, rows, issued);
    NewRolloutOk(db, id, row, rows);
    CreatedRollouts(db, id, row, rows, issued);
  }

  lemma {:induction false} NewRolloutOk(db: Db, id: string, row: Rollout, rows: map<string, Target>)
    requires row.phase == Paused && row.wave == -1 && row.total >= 1 && ValidPolicy(row.policy) &&
             row.release in db.releases
    ensures RolloutOk(CreatedDb(db, id, row, rows), id)
  {
  }

  // ---- deleting a rollout

  /** Only a finished rollout without anything in flight may be deleted. */
  predicate MayDelete(db: Db, rollout: string) {
    rollout in db.rollouts && Terminal(db.rollouts[rollout].phase) && InFlightOf(db, rollout) == {}
  }

  function TargetsOf(db: Db, rollout: string): set<string> {
    set id | id in db.targets && db.targets[id].rollout == rollout
  }

  function AttemptsOf(db: Db, rollout: string): set<nat> {
    set attempt | attempt in db.attempts && db.attempts[attempt].target in TargetsOf(db, rollout)
  }

  /** The rollout goes with its targets, their attempts and its history. */
  function DeletedDb(db: Db, rollout: string): Db {
    db.(rollouts := db.rollouts - {rollout}, promotions := db.promotions - {rollout},
        targets := db.targets - TargetsOf(db, rollout), attempts := db.attempts - AttemptsOf(db, rollout),
        accepted := db.accepted - AttemptsOf(db, rollout))
  }

  lemma {:induction false} DeletedRollout(db: Db, rollout: string, other: string)
    requires other in db.rollouts && other != rollout && RolloutOk(db, other)
    ensures RolloutOk(DeletedDb(db, rollout), other) && RolloutKept(db, DeletedDb(db, rollout), other)
  {
    hide PromotionOk, ValidPolicy;
    PromotionsSame(db, DeletedDb(db, rollout), other);
  }

  lemma {:induction false} DeletedTarget(db: Db, rollout: string, id: string, issued: nat)
    requires Inv(db, issued) && id in db.targets && db.targets[id].rollout != rollout
    ensures var after := DeletedDb(db, rollout);
            && id in after.targets && TargetOk(after, id) && TargetKept(db, after, id)
            && (Unproven(after, id) <==> Unproven(db, id))
  {
    hide WindowOk, RolloutsOk, CapacityOk, NodesOk;
    FailedHavePromotions(db, issued);
    assert TargetOk(db, id);
    assert id !in TargetsOf(db, rollout);
    if db.targets[id].attempt.Some? {
      assert db.targets[id].attempt.value !in AttemptsOf(db, rollout);
    }
  }

  lemma {:induction false} DeletedPersists(db: Db, rollout: string, issued: nat)
    requires Inv(db, issued) && MayDelete(db, rollout)
    ensures Persistent(db, DeletedDb(db, rollout))
  {
    hide RolloutsOk, CapacityOk, NodesOk, WindowOk;
    FailedHavePromotions(db, issued);
    forall id | id in db.targets && Stranded(db.targets[id])
      ensures id in DeletedDb(db, rollout).targets
    {
      assert id !in InFlightOf(db, rollout);
    }
  }

  lemma {:induction false} DeletedUnproven(db: Db, rollout: string, other: string, issued: nat)
    requires Inv(db, issued) && other != rollout
    ensures UnprovenOf(DeletedDb(db, rollout), other) == UnprovenOf(db, other)
  {
    hide Inv, Unproven;
    var after := DeletedDb(db, rollout);
    forall id | id in db.targets && db.targets[id].rollout == other
      ensures id in after.targets && (Unproven(after, id) <==> Unproven(db, id))
    {
      DeletedTarget(db, rollout, id, issued);
    }
  }

  lemma {:induction false} DeletedLive(db: Db, rollout: string, issued: nat)
    ensures Retired(db, DeletedDb(db, rollout), issued)
  {
    var after := DeletedDb(db, rollout);
    forall attempt: nat | attempt < issued && Live(after, attempt)
      ensures Live(db, attempt)
    {
      var id :| id in after.targets && after.targets[id].attempt == Some(attempt) && after.targets[id].nonce.Some?;
      assert id in db.targets && db.targets[id] == after.targets[id];
    }
  }

  lemma {:induction false} DeletedNodes(db: Db, rollout: string)
    requires NodesOk(db)
    ensures NodesOk(DeletedDb(db, rollout))
  {
  }

  lemma {:induction false} DeleteKeeps(db: Db, rollout: string, issued: nat)
    requires Inv(db, issued) && MayDelete(db, rollout)
    ensures var after := DeletedDb(db, rollout); Inv(after, issued) && Kept(db, after) && Retired(db, after, issued)
  {
    hide RolloutOk, RolloutKept, TargetOk, TargetKept, UnprovenOf, NodesOk, Retired, Persistent, Unproven, AttemptsOf,
         InFlightOf;
    var after := DeletedDb(db, rollout);
    DeletedPersists(db, rollout, issued);
    DeletedLive(db, rollout, issued);
    DeletedNodes(db, rollout);
    forall id | id in after.targets
      ensures TargetOk(after, id) && TargetKept(db, after, id)
    {
      DeletedTarget(db, rollout, id, issued);
    }
    forall other | other in after.rollouts
      ensures RolloutOk(after, other) && RolloutKept(db, after, other)
      ensures |UnprovenOf(after, other)| <= after.rollouts[other].policy.maxConcurrent
    {
      DeletedRollout(db, rollout, other);
      DeletedUnproven(db, rollout, other, issued);
    }
  }

  /** A rollout with a stranded row cannot be deleted, now or at any later time without a restore. */
  lemma {:induction false} StrandedUndeletable(before: Db, after: Db, id: string)
    requires Kept(before, after) && id in before.targets && Stranded(before.targets[id])
    ensures id in after.targets && after.targets[id] == before.targets[id] &&
            !MayDelete(after, before.targets[id].rollout)
  {
    hide RolloutKept;
    assert TargetKept(before, after, id);
    assert id in InFlightOf(after, before.targets[id].rollout);
  }

  /** A row stranded by a restore is the same in every later state, and every restore of such a state
      leaves it as it is, so it is stranded for good. */
  lemma {:induction false} RestoreKeepsStranded(db: Db, at: Instant, issued: nat, after: Db, again: Instant, more: nat,
                                                id: string)
    requires Inv(db, issued) && Inv(after, more) && Kept(RestoredDb(db, at), after)
    requires id in db.targets && Stranded(RestoredDb(db, at).targets[id])
    ensures id in after.targets && after.targets[id] == RestoredDb(db, at).targets[id]
    ensures RestoredDb(after, again).targets[id] == RestoredDb(db, at).targets[id]
  {
    hide WindowOk, RolloutOk, CapacityOk, NodesOk, Persistent, PausedRow;
    var restored := RestoredDb(db, at);
    assert TargetOk(db, id);
    RestoreStrands(db, at, id);
    StrandedUndeletable(restored, after, id);
    assert TargetOk(after, id);
    var rollout := restored.targets[id].rollout;
    StaysPassed(db, at, after, rollout);
    RestoreStrands(after, again, id);
  }

  /** Finished rollouts stay finished and waves stay passed after a restore. */
  lemma {:induction false} StaysPassed(db: Db, at: Instant, after: Db, rollout: string)
    requires Kept(RestoredDb(db, at), after) && rollout in db.rollouts && rollout in after.rollouts
    ensures Terminal(db.rollouts[rollout].phase) ==> Terminal(after.rollouts[rollout].phase)
    ensures db.rollouts[rollout].wave <= after.rollouts[rollout].wave
  {
    hide Persistent, TargetKept;
    assert RolloutKept(RestoredDb(db, at), after, rollout);
  }
}
