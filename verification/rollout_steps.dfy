/** The row changes behind the transactions, and what each keeps. */
module RolloutSteps {
  import opened Basics
  import opened RolloutHealth
  import opened RolloutProtocol

  // ---- changes of rollout rows

  /** A wave with a failed target is not passed. */
  ghost predicate FailedNotPassed(before: Db, after: Db, target: Target) {
    && target.rollout in before.promotions && target.rollout in after.promotions
    && (|before.promotions[target.rollout]| <= target.wave ==> |after.promotions[target.rollout]| <= target.wave)
  }

  lemma {:induction false} TargetUntouched(before: Db, after: Db, id: string)
    requires id in before.targets && TargetOk(before, id) && id in after.targets &&
             after.targets[id] == before.targets[id]
    requires after.attempts == before.attempts && after.accepted == before.accepted
    requires before.targets[id].rollout in after.rollouts && RolloutKept(before, after, before.targets[id].rollout)
    requires before.targets[id].state == Failed ==> FailedNotPassed(before, after, before.targets[id])
    ensures TargetOk(after, id) && TargetKept(before, after, id)
  {
    hide WindowOk;
  }

  lemma {:induction false} SameUnproven(before: Db, after: Db, rollout: string)
    requires after.targets == before.targets && after.accepted == before.accepted
    ensures UnprovenOf(after, rollout) == UnprovenOf(before, rollout)
  {
  }

  /** What any change that leaves target rows alone has to show. */
  lemma {:induction false} RolloutsChange(before: Db, after: Db, issued: nat)
    requires Inv(before, issued) && RolloutsOk(after)
    requires after.targets == before.targets && after.attempts == before.attempts && after.accepted == before.accepted
    requires after.rollouts.Keys == before.rollouts.Keys && after.born == before.born
    requires forall rollout :: rollout in before.rollouts ==> RolloutKept(before, after, rollout)
    requires forall id :: id in before.targets && before.targets[id].state == Failed ==>
               FailedNotPassed(before, after, before.targets[id])
    ensures Inv(after, issued) && Kept(before, after) && Retired(before, after, issued)
  {
    hide RolloutOk, WindowOk, TargetKept, RolloutsOk, UnprovenOf, FailedNotPassed, Persistent;
    SameRowsPersist(before, after);
    forall id | id in after.targets
      ensures TargetOk(after, id) && TargetKept(before, after, id)
    {
      assert TargetOk(before, id);
      TargetUntouched(before, after, id);
    }
    forall rollout | rollout in after.rollouts
      ensures |UnprovenOf(after, rollout)| <= after.rollouts[rollout].policy.maxConcurrent
    {
      assert RolloutKept(before, after, rollout);
      SameUnproven(before, after, rollout);
    }
  }

  function PausedRow(row: Rollout, reason: Reason): Rollout {
    if Terminal(row.phase) then row else row.(phase := Paused, reason := reason)
  }

  /** Pauses the unfinished ones of the given rollouts. */
  function PauseIn(db: Db, which: set<string>, reason: Reason): (after: Db)
    ensures after.accepted == db.accepted
  {
    db.(rollouts := map r | r in db.rollouts ::
          if r in which then PausedRow(db.rollouts[r], reason) else db.rollouts[r])
  }

  lemma {:induction false} PausedRowOk(db: Db, which: set<string>, reason: Reason, rollout: string)
    requires rollout in db.rollouts && RolloutOk(db, rollout) && reason != AwaitingPromotion
    ensures var after := PauseIn(db, which, reason); RolloutOk(after, rollout) && RolloutKept(db, after, rollout)
  {
    hide PromotionOk;
    PromotionsSame(db, PauseIn(db, which, reason), rollout);
  }

  lemma {:induction false} PauseInKeeps(db: Db, which: set<string>, reason: Reason, issued: nat)
    requires Inv(db, issued) && reason != AwaitingPromotion
    ensures var after := PauseIn(db, which, reason);
            Inv(after, issued) && Kept(db, after) && Retired(db, after, issued)
  {
    hide TargetsOk, CapacityOk, NodesOk, RolloutOk, RolloutKept, Retired, Kept;
    var after := PauseIn(db, which, reason);
    forall rollout | rollout in db.rollouts
      ensures RolloutOk(after, rollout) && RolloutKept(db, after, rollout)
    {
      PausedRowOk(db, which, reason, rollout);
    }
    FailedHavePromotions(db, issued);
    RolloutsChange(db, after, issued);
  }

  /** The targets of the rollout are the same, in the same waves. */
  ghost predicate SamePlaces(before: Db, after: Db, rollout: string) {
    && (forall id :: id in before.targets && before.targets[id].rollout == rollout ==>
          id in after.targets && after.targets[id].rollout == rollout &&
          after.targets[id].wave == before.targets[id].wave)
    && (forall id :: id in after.targets && after.targets[id].rollout == rollout ==>
          id in before.targets && before.targets[id].rollout == rollout)
  }

  /** Passed gates stay valid while the targets keep their waves and the release its version. */
  lemma {:induction false} PromotionsSame(before: Db, after: Db, rollout: string)
    requires rollout in before.rollouts && RolloutOk(before, rollout)
    requires rollout in after.rollouts && after.rollouts[rollout].policy == before.rollouts[rollout].policy
    requires after.rollouts[rollout].release == before.rollouts[rollout].release
    requires after.rollouts[rollout].release in after.releases
    requires after.releases[after.rollouts[rollout].release].version ==
               before.releases[after.rollouts[rollout].release].version
    requires SamePlaces(before, after, rollout)
    ensures forall v :: 0 <= v < |before.promotions[rollout]| ==>
              PromotionOk(after, rollout, v, before.promotions[rollout][v])
  {
    forall v | 0 <= v < |before.promotions[rollout]|
      ensures PromotionOk(after, rollout, v, before.promotions[rollout][v])
    {
      assert PromotionOk(before, rollout, v, before.promotions[rollout][v]);
      assert WaveTargets(after, rollout, v) == WaveTargets(before, rollout, v);
    }
  }

  lemma {:induction false} FailedHavePromotions(db: Db, issued: nat)
    requires Inv(db, issued)
    ensures forall id :: id in db.targets ==>
              db.targets[id].rollout in db.rollouts && db.targets[id].rollout in db.promotions
  {
    forall id | id in db.targets
      ensures db.targets[id].rollout in db.rollouts && db.targets[id].rollout in db.promotions
    {
      assert TargetOk(db, id);
      assert RolloutOk(db, db.targets[id].rollout);
    }
  }

  // ---- one rollout row

  function SetRollout(db: Db, rollout: string, row: Rollout, gates: seq<Promotion>): (after: Db)
    ensures after.accepted == db.accepted
  {
    db.(rollouts := db.rollouts[rollout := row], promotions := db.promotions[rollout := gates])
  }

  lemma {:induction false} OtherRollout(db: Db, rollout: string, row: Rollout, gates: seq<Promotion>, other: string)
    requires rollout in db.rollouts && other in db.rollouts && other != rollout && RolloutOk(db, other)
    ensures var after := SetRollout(db, rollout, row, gates); RolloutOk(after, other) && RolloutKept(db, after, other)
  {
    hide PromotionOk, ValidPolicy;
    PromotionsSame(db, SetRollout(db, rollout, row, gates), other);
  }

  lemma {:induction false} SetRolloutKeeps(db: Db, rollout: string, row: Rollout, gates: seq<Promotion>, issued: nat)
    requires Inv(db, issued) && rollout in db.rollouts
    requires var after := SetRollout(db, rollout, row, gates);
             RolloutOk(after, rollout) && RolloutKept(db, after, rollout)
    requires forall id :: id in db.targets && db.targets[id].state == Failed && db.targets[id].rollout == rollout ==>
               FailedNotPassed(db, SetRollout(db, rollout, row, gates), db.targets[id])
    ensures var after := SetRollout(db, rollout, row, gates);
            Inv(after, issued) && Kept(db, after) && Retired(db, after, issued)
  {
    hide TargetsOk, CapacityOk, NodesOk, RolloutOk, RolloutKept, Retired, Kept;
    var after := SetRollout(db, rollout, row, gates);
    forall other | other in db.rollouts
      ensures RolloutOk(after, other) && RolloutKept(db, after, other)
    {
      if other != rollout {
        OtherRollout(db, rollout, row, gates, other);
      }
    }
    FailedHavePromotions(db, issued);
    RolloutsChange(db, after, issued);
  }

  /** Resuming or starting to offer again. */
  lemma {:induction false} ActivateKeeps(db: Db, rollout: string, issued: nat)
    requires Inv(db, issued) && rollout in db.rollouts && !Terminal(db.rollouts[rollout].phase) &&
             db.rollouts[rollout].wave >= 0
    requires db.rollouts[rollout].release in db.releases && !db.releases[db.rollouts[rollout].release].revoked
    requires rollout in db.promotions
    ensures var after := SetRollout(db, rollout, db.rollouts[rollout].(phase := Active, reason := NoReason),
                                    db.promotions[rollout]);
            Inv(after, issued) && Kept(db, after) && Retired(db, after, issued)
  {
    hide TargetsOk, CapacityOk, NodesOk, Retired, Kept, PromotionOk, ValidPolicy;
    var row, gates := db.rollouts[rollout].(phase := Active, reason := NoReason), db.promotions[rollout];
    assert RolloutOk(db, rollout);
    PromotionsSame(db, SetRollout(db, rollout, row, gates), rollout);
    FailedHavePromotions(db, issued);
    SetRolloutKeeps(db, rollout, row, gates, issued);
  }

  /** Aborting a rollout, without its targets. */
  lemma {:induction false} AbortRowKeeps(db: Db, rollout: string, issued: nat)
    requires Inv(db, issued) && rollout in db.rollouts && !Terminal(db.rollouts[rollout].phase) &&
             rollout in db.promotions
    ensures var after := SetRollout(db, rollout, db.rollouts[rollout].(phase := Aborted, reason := OperatorAbort),
                                    db.promotions[rollout]);
            Inv(after, issued) && Kept(db, after) && Retired(db, after, issued)
  {
    hide TargetsOk, CapacityOk, NodesOk, Retired, Kept, PromotionOk, ValidPolicy;
    var row, gates := db.rollouts[rollout].(phase := Aborted, reason := OperatorAbort), db.promotions[rollout];
    assert RolloutOk(db, rollout);
    PromotionsSame(db, SetRollout(db, rollout, row, gates), rollout);
    FailedHavePromotions(db, issued);
    SetRolloutKeeps(db, rollout, row, gates, issued);
  }

  // ---- promotion

  predicate Promotable(row: Rollout) {
    !Terminal(row.phase) && (row.phase != Paused || row.reason == AwaitingPromotion)
  }

  /** A wave is open and the rollout waits for a resumption. */
  predicate Resumable(row: Rollout) {
    row.phase == Paused && row.wave >= 0
  }

  /** The rows the health gate reads. */
  function WaveRows(db: Db, rollout: string, wave: int): map<string, Target> {
    map id | id in WaveTargets(db, rollout, wave) :: db.targets[id]
  }

  /** Every target of the current wave passes, and there is one. */
  predicate WaveHealthy(db: Db, rollout: string, nodes: map<string, NodeState>, at: Instant)
    requires rollout in db.rollouts && db.rollouts[rollout].release in db.releases
  {
    var row := db.rollouts[rollout];
    && WaveTargets(db, rollout, row.wave) != {}
    && forall id :: id in WaveTargets(db, rollout, row.wave) ==>
         ValidWaveHealth(db.targets[id], nodes, db.releases[row.release].version, row.policy, at)
  }

  function PromotedRow(row: Rollout): Rollout {
    if row.wave + 1 >= row.total then row.(phase := Completed, reason := NoReason)
    else row.(wave := row.wave + 1, phase := Active, reason := NoReason)
  }

  function PromotedGates(db: Db, rollout: string, nodes: map<string, NodeState>, at: Instant): seq<Promotion>
    requires rollout in db.rollouts && rollout in db.promotions
  {
    if db.rollouts[rollout].wave < 0 then db.promotions[rollout]
    else db.promotions[rollout] + [Promotion(at, WaveRows(db, rollout, db.rollouts[rollout].wave), nodes)]
  }

  function Promoted(db: Db, rollout: string, nodes: map<string, NodeState>, at: Instant): (after: Db)
    requires rollout in db.rollouts && rollout in db.promotions
    ensures after.accepted == db.accepted
  {
    SetRollout(db, rollout, PromotedRow(db.rollouts[rollout]), PromotedGates(db, rollout, nodes, at))
  }

  lemma {:induction false} NewGateOk(db: Db, rollout: string, nodes: map<string, NodeState>, at: Instant)
    requires rollout in db.rollouts && RolloutOk(db, rollout) && db.rollouts[rollout].wave >= 0
    requires WaveHealthy(db, rollout, nodes, at)
    ensures var wave := db.rollouts[rollout].wave;
            PromotionOk(Promoted(db, rollout, nodes, at), rollout, wave,
                        Promotion(at, WaveRows(db, rollout, wave), nodes))
  {
    var wave, after := db.rollouts[rollout].wave, Promoted(db, rollout, nodes, at);
    assert WaveTargets(after, rollout, wave) == WaveTargets(db, rollout, wave);
    assert WaveRows(db, rollout, wave).Keys == WaveTargets(db, rollout, wave);
    var id :| id in WaveTargets(db, rollout, wave);
    assert id in WaveRows(db, rollout, wave);
  }

  lemma {:induction false} PromotedRowOk(db: Db, rollout: string, nodes: map<string, NodeState>, at: Instant)
    requires rollout in db.rollouts && RolloutOk(db, rollout) && Promotable(db.rollouts[rollout])
    requires !db.releases[db.rollouts[rollout].release].revoked
    requires db.rollouts[rollout].wave >= 0 ==> WaveHealthy(db, rollout, nodes, at)
    ensures var after := Promoted(db, rollout, nodes, at); RolloutOk(after, rollout) && RolloutKept(db, after, rollout)
  {
    hide PromotionOk, ValidPolicy, WaveHealthy, WaveRows;
    PromotionsSame(db, Promoted(db, rollout, nodes, at), rollout);
    if db.rollouts[rollout].wave >= 0 {
      NewGateOk(db, rollout, nodes, at);
    }
  }

  /** Promotion never passes a wave that holds a failed target. */
  lemma {:induction false} PromotedFailedNotPassed(db: Db, rollout: string, nodes: map<string, NodeState>, at: Instant,
                                                   id: string)
    requires rollout in db.rollouts && RolloutOk(db, rollout) && Promotable(db.rollouts[rollout])
    requires db.rollouts[rollout].wave >= 0 ==> WaveHealthy(db, rollout, nodes, at)
    requires id in db.targets && db.targets[id].state == Failed && db.targets[id].rollout == rollout
    ensures FailedNotPassed(db, Promoted(db, rollout, nodes, at), db.targets[id])
  {
    hide PromotionOk, ValidPolicy, WaveRows;
    var wave := db.rollouts[rollout].wave;
    if wave >= 0 {
      assert id in WaveTargets(db, rollout, db.targets[id].wave);
      assert db.targets[id].wave != wave;
    }
  }

  lemma {:induction false} PromotedKeeps(db: Db, rollout: string, nodes: map<string, NodeState>, at: Instant,
                                         issued: nat)
    requires Inv(db, issued) && rollout in db.rollouts && RolloutOk(db, rollout) && Promotable(db.rollouts[rollout])
    requires !db.releases[db.rollouts[rollout].release].revoked
    requires db.rollouts[rollout].wave >= 0 ==> WaveHealthy(db, rollout, nodes, at)
    ensures var after := Promoted(db, rollout, nodes, at);
            Inv(after, issued) && Kept(db, after) && Retired(db, after, issued)
  {
    hide TargetsOk, CapacityOk, NodesOk, RolloutOk, RolloutKept, Retired, Kept, WaveHealthy, FailedNotPassed,
         PromotedRow, PromotedGates;
    GatesExist(db, rollout);
    PromotedRowOk(db, rollout, nodes, at);
    forall id | id in db.targets && db.targets[id].state == Failed && db.targets[id].rollout == rollout
      ensures FailedNotPassed(db, Promoted(db, rollout, nodes, at), db.targets[id])
    {
      PromotedFailedNotPassed(db, rollout, nodes, at, id);
    }
    SetRolloutKeeps(db, rollout, PromotedRow(db.rollouts[rollout]), PromotedGates(db, rollout, nodes, at), issued);
  }

  lemma {:induction false} GatesExist(db: Db, rollout: string)
    requires rollout in db.rollouts && RolloutOk(db, rollout)
    ensures rollout in db.promotions && db.rollouts[rollout].release in db.releases
  {
  }

  // ---- releases

  /** Releases that keep their versions and are revoked only where no rollout is active. */
  ghost predicate ReleasesMayBecome(db: Db, releases: map<string, Release>) {
    && (forall r :: r in db.releases ==> r in releases && releases[r].version == db.releases[r].version)
    && (forall rollout ::
          rollout in db.rollouts && db.rollouts[rollout].phase == Active && db.rollouts[rollout].release in releases ==>
          !releases[db.rollouts[rollout].release].revoked)
  }

  lemma {:induction false} ReleasesRowOk(db: Db, releases: map<string, Release>, rollout: string)
    requires rollout in db.rollouts && RolloutOk(db, rollout) && ReleasesMayBecome(db, releases)
    ensures var after := db.(releases := releases); RolloutOk(after, rollout) && RolloutKept(db, after, rollout)
  {
    hide PromotionOk, ValidPolicy;
    PromotionsSame(db, db.(releases := releases), rollout);
  }

  lemma {:induction false} ReleasesKeeps(db: Db, releases: map<string, Release>, issued: nat)
    requires Inv(db, issued) && ReleasesMayBecome(db, releases)
    ensures var after := db.(releases := releases); Inv(after, issued) && Kept(db, after) && Retired(db, after, issued)
  {
    hide TargetsOk, CapacityOk, NodesOk, RolloutOk, RolloutKept, Retired, Kept, ReleasesMayBecome;
    var after := db.(releases := releases);
    forall rollout | rollout in db.rollouts
      ensures RolloutOk(after, rollout) && RolloutKept(db, after, rollout)
    {
      ReleasesRowOk(db, releases, rollout);
    }
    FailedHavePromotions(db, issued);
    RolloutsChange(db, after, issued);
  }

  // ---- many target rows

  /** A row that keeps its place and assignment, and gains neither a flight nor a nonce. */
  predicate Weaker(before: Target, after: Target) {
    && after.rollout == before.rollout && after.node == before.node && after.wave == before.wave &&
       after.attempt == before.attempt
    && (InFlight(after.state) ==> InFlight(before.state)) && (after.nonce.Some? ==> before.nonce.Some?)
  }

  lemma {:induction false} WeakerUnproven(before: Db, after: Db, rollout: string)
    requires after.accepted == before.accepted && after.targets.Keys == before.targets.Keys
    requires forall id :: id in before.targets ==> Weaker(before.targets[id], after.targets[id])
    ensures UnprovenOf(after, rollout) <= UnprovenOf(before, rollout)
  {
    forall id | id in UnprovenOf(after, rollout)
      ensures id in UnprovenOf(before, rollout)
    {
      assert Weaker(before.targets[id], after.targets[id]);
    }
  }

  lemma {:induction false} SamePlacesRowOk(before: Db, after: Db, rollout: string)
    requires rollout in before.rollouts && RolloutOk(before, rollout)
    requires after.rollouts == before.rollouts && after.promotions == before.promotions &&
             after.releases == before.releases
    requires SamePlaces(before, after, rollout)
    ensures RolloutOk(after, rollout) && RolloutKept(before, after, rollout)
  {
    hide PromotionOk, ValidPolicy;
    PromotionsSame(before, after, rollout);
  }

  lemma {:induction false} WeakerLive(before: Db, after: Db, issued: nat)
    requires after.targets.Keys == before.targets.Keys
    requires forall id :: id in before.targets ==> Weaker(before.targets[id], after.targets[id])
    ensures Retired(before, after, issued)
  {
    forall attempt: nat | attempt < issued && Live(after, attempt)
      ensures Live(before, attempt)
    {
      var id :| id in after.targets && after.targets[id].attempt == Some(attempt) && after.targets[id].nonce.Some?;
      assert Weaker(before.targets[id], after.targets[id]);
    }
  }

  lemma {:induction false} WeakerNodes(before: Db, after: Db)
    requires NodesOk(before) && after.targets.Keys == before.targets.Keys
    requires forall id :: id in before.targets ==> Weaker(before.targets[id], after.targets[id])
    ensures NodesOk(after)
  {
    forall i, j | i in after.targets && j in after.targets && Clash(after.targets[i], after.targets[j])
      ensures i == j
    {
      assert Weaker(before.targets[i], after.targets[i]) && Weaker(before.targets[j], after.targets[j]);
      assert Clash(before.targets[i], before.targets[j]);
    }
  }

  /** What any change that only weakens target rows has to show. */
  lemma {:induction false} TargetsChange(before: Db, after: Db, issued: nat)
    requires Inv(before, issued)
    requires after.rollouts == before.rollouts && after.promotions == before.promotions &&
             after.releases == before.releases
    requires after.accepted == before.accepted && after.attempts.Keys == before.attempts.Keys &&
             after.born == before.born
    requires after.targets.Keys == before.targets.Keys
    requires forall id :: id in before.targets ==> Weaker(before.targets[id], after.targets[id]) && TargetOk(after, id)
    ensures Inv(after, issued) && Retired(before, after, issued) && Persistent(before, after)
    ensures forall rollout :: rollout in before.rollouts ==> RolloutKept(before, after, rollout)
  {
    hide RolloutOk, TargetOk, NodesOk, UnprovenOf, Retired, Persistent;
    SameRowsPersist(before, after);
    WeakerNodes(before, after);
    WeakerLive(before, after, issued);
    forall rollout | rollout in before.rollouts
      ensures RolloutOk(after, rollout) && RolloutKept(before, after, rollout)
      ensures |UnprovenOf(after, rollout)| <= after.rollouts[rollout].policy.maxConcurrent
    {
      SamePlacesRowOk(before, after, rollout);
      WeakerUnproven(before, after, rollout);
      SubsetSize(UnprovenOf(after, rollout), UnprovenOf(before, rollout));
    }
  }

  // ---- holding and dropping waiting targets

  predicate Waiting(state: TargetState) {
    state == Pending || state == Held
  }

  function WithStates(db: Db, which: set<string>, state: TargetState, reason: Reason): (after: Db)
    ensures after.accepted == db.accepted && after.targets.Keys == db.targets.Keys
  {
    db.(targets := map id | id in db.targets ::
          if id in which then db.targets[id].(state := state, reason := reason) else db.targets[id])
  }

  lemma {:induction false} WaitingRowOk(db: Db, which: set<string>, state: TargetState, reason: Reason, id: string)
    requires id in db.targets && TargetOk(db, id) && (id in which ==> Waiting(db.targets[id].state))
    requires state in {Held, Dropped}
    ensures var after := WithStates(db, which, state, reason);
            TargetOk(after, id) && Weaker(db.targets[id], after.targets[id])
  {
  }

  lemma {:induction false} WaitingRowKept(db: Db, which: set<string>, state: TargetState, reason: Reason, id: string)
    requires id in db.targets && TargetOk(db, id) && (id in which ==> Waiting(db.targets[id].state))
    requires db.targets[id].rollout in db.promotions
    ensures TargetKept(db, WithStates(db, which, state, reason), id)
  {
    hide WindowOk;
  }

  /** Holding or dropping targets that wait for an offer. */
  lemma {:induction false} WithStatesKeeps(db: Db, which: set<string>, state: TargetState, reason: Reason, issued: nat)
    requires Inv(db, issued) && state in {Held, Dropped}
    requires forall id :: id in which && id in db.targets ==> Waiting(db.targets[id].state)
    ensures var after := WithStates(db, which, state, reason);
            Inv(after, issued) && Kept(db, after) && Retired(db, after, issued)
  {
    hide RolloutOk, TargetOk, NodesOk, CapacityOk, UnprovenOf, Retired, RolloutKept, TargetKept, Weaker, Persistent;
    var after := WithStates(db, which, state, reason);
    FailedHavePromotions(db, issued);
    forall id | id in db.targets
      ensures TargetOk(after, id) && Weaker(db.targets[id], after.targets[id]) && TargetKept(db, after, id)
    {
      WaitingRowOk(db, which, state, reason, id);
      WaitingRowKept(db, which, state, reason, id);
    }
    TargetsChange(db, after, issued);
  }

  // ---- one target row with its assignment

  function SetTarget(db: Db, id: string, target: Target, attempt: nat, record: Attempt, log: seq<Accepted>): Db {
    db.(targets := db.targets[id := target], attempts := db.attempts[attempt := record],
        accepted := db.accepted[attempt := log])
  }

  /** The row keeps its place, and belongs to its own last assignment or to a new one. */
  ghost predicate MayBecome(db: Db, id: string, target: Target, attempt: nat, record: Attempt, log: seq<Accepted>,
                            issued: nat) {
    && id in db.targets && target.rollout in db.rollouts
    && target.rollout == db.targets[id].rollout && target.node == db.targets[id].node &&
       target.wave == db.targets[id].wave
    && target.attempt == Some(attempt) && record.target == id &&
       (attempt == issued || db.targets[id].attempt == Some(attempt))
    && (target.expires.Some? <==> target.nonce.Some?)
    && (target.nonce.Some? ==> target.state in {Offered, Observing, Healthy, Failed})
    && target.wave <= db.rollouts[target.rollout].wave && WindowOk(target, log, db.rollouts[target.rollout].policy)
  }

  predicate NoClash(db: Db, id: string, target: Target) {
    forall other :: other in db.targets && other != id ==> !Clash(target, db.targets[other])
  }

  ghost predicate EverHealthy(log: seq<Accepted>) {
    exists i :: 0 <= i < |log| && log[i].state == Healthy
  }

  lemma {:induction false} OtherTarget(db: Db, id: string, target: Target, attempt: nat, record: Attempt,
                                       log: seq<Accepted>, issued: nat, other: string)
    requires Inv(db, issued) && MayBecome(db, id, target, attempt, record, log, issued) && other in db.targets &&
             other != id
    ensures var after := SetTarget(db, id, target, attempt, record, log);
            TargetOk(after, other) && (Unproven(after, other) <==> Unproven(db, other))
  {
    hide WindowOk, RolloutsOk, CapacityOk, NodesOk;
    assert TargetOk(db, other) && TargetOk(db, id);
    if db.targets[other].attempt.Some? {
      assert HasAttempt(db, other, db.targets[other]);
      assert db.targets[other].attempt.value != attempt;
    }
  }

  lemma {:induction false} OwnUnproven(db: Db, id: string, target: Target, attempt: nat, record: Attempt,
                                       log: seq<Accepted>)
    requires id in db.targets && target.attempt == Some(attempt)
    ensures var after := SetTarget(db, id, target, attempt, record, log);
            Unproven(after, id) <==> InFlight(target.state) && !EverHealthy(log)
  {
  }

  lemma {:induction false} SetTargetUnproven(db: Db, id: string, target: Target, attempt: nat, record: Attempt,
                                             log: seq<Accepted>, issued: nat, rollout: string)
    requires Inv(db, issued) && MayBecome(db, id, target, attempt, record, log, issued)
    ensures var after := SetTarget(db, id, target, attempt, record, log);
            && UnprovenOf(after, rollout) <= UnprovenOf(db, rollout) + {id}
            && (id in UnprovenOf(after, rollout) ==>
                  rollout == target.rollout && InFlight(target.state) && !EverHealthy(log))
  {
    hide Inv, Unproven, EverHealthy, WindowOk;
    var after := SetTarget(db, id, target, attempt, record, log);
    OwnUnproven(db, id, target, attempt, record, log);
    forall other | other in UnprovenOf(after, rollout) && other != id
      ensures other in UnprovenOf(db, rollout)
    {
      OtherTarget(db, id, target, attempt, record, log, issued, other);
    }
  }

  lemma {:induction false} SetTargetCapacity(db: Db, id: string, target: Target, attempt: nat, record: Attempt,
                                             log: seq<Accepted>, issued: nat, rollout: string)
    requires Inv(db, issued) && MayBecome(db, id, target, attempt, record, log, issued) && rollout in db.rollouts
    requires InFlight(target.state) && !EverHealthy(log) && !Unproven(db, id) ==>
               |UnprovenOf(db, target.rollout)| < db.rollouts[target.rollout].policy.maxConcurrent
    ensures |UnprovenOf(SetTarget(db, id, target, attempt, record, log), rollout)|
            <= db.rollouts[rollout].policy.maxConcurrent
  {
    hide TargetsOk, RolloutsOk, NodesOk, Unproven, EverHealthy, SetTarget, WindowOk;
    var old', new' := UnprovenOf(db, rollout), UnprovenOf(SetTarget(db, id, target, attempt, record, log), rollout);
    SetTargetUnproven(db, id, target, attempt, record, log, issued, rollout);
    SubsetSize(new', if id in new' then old' + {id} else old');
  }

  lemma {:induction false} SetTargetNodes(db: Db, id: string, target: Target, attempt: nat, record: Attempt,
                                          log: seq<Accepted>)
    requires NodesOk(db) && id in db.targets && NoClash(db, id, target)
    ensures NodesOk(SetTarget(db, id, target, attempt, record, log))
  {
    forall other | other in db.targets && other != id
      ensures !Clash(target, db.targets[other]) && !Clash(db.targets[other], target)
    {
    }
  }

  lemma {:induction false} SetTargetInv(db: Db, id: string, target: Target, attempt: nat, record: Attempt,
                                        log: seq<Accepted>, issued: nat)
    requires Inv(db, issued) && MayBecome(db, id, target, attempt, record, log, issued) && NoClash(db, id, target)
    requires InFlight(target.state) && !EverHealthy(log) && !Unproven(db, id) ==>
               |UnprovenOf(db, target.rollout)| < db.rollouts[target.rollout].policy.maxConcurrent
    ensures var after := SetTarget(db, id, target, attempt, record, log);
            Inv(after, if attempt == issued then issued + 1 else issued) &&
            forall r :: r in db.rollouts ==> RolloutKept(db, after, r)
  {
    hide RolloutOk, RolloutKept, NodesOk, UnprovenOf, EverHealthy, NoClash, WindowOk, TargetOk, Unproven;
    var after := SetTarget(db, id, target, attempt, record, log);
    SetTargetNodes(db, id, target, attempt, record, log);
    forall other | other in after.targets
      ensures TargetOk(after, other)
    {
      if other == id {
        OwnTargetOk(db, id, target, attempt, record, log, issued);
      } else {
        OtherTarget(db, id, target, attempt, record, log, issued, other);
      }
    }
    forall rollout | rollout in db.rollouts
      ensures RolloutOk(after, rollout) && RolloutKept(db, after, rollout)
      ensures |UnprovenOf(after, rollout)| <= after.rollouts[rollout].policy.maxConcurrent
    {
      SamePlacesRowOk(db, after, rollout);
      SetTargetCapacity(db, id, target, attempt, record, log, issued, rollout);
    }
    AttemptsBounded(db, id, attempt, issued);
  }

  lemma {:induction false} AttemptsBounded(db: Db, id: string, attempt: nat, issued: nat)
    requires Inv(db, issued) && id in db.targets && (attempt == issued || db.targets[id].attempt == Some(attempt))
    ensures attempt < issued || attempt == issued
    ensures forall a :: a in db.attempts ==> a < issued
  {
    hide WindowOk, RolloutsOk, CapacityOk, NodesOk;
    assert TargetOk(db, id);
  }

  lemma {:induction false} OwnTargetOk(db: Db, id: string, target: Target, attempt: nat, record: Attempt,
                                       log: seq<Accepted>, issued: nat)
    requires MayBecome(db, id, target, attempt, record, log, issued) && TargetOk(db, id)
    ensures TargetOk(SetTarget(db, id, target, attempt, record, log), id)
  {
    hide WindowOk;
  }

  /** What a single row change must respect: first failures, terminal rollouts, dead assignments and
      stranded rows. */
  ghost predicate Respects(db: Db, id: string, target: Target, attempt: nat, record: Attempt, issued: nat)
    requires id in db.targets
  {
    var b := db.targets[id];
    && !Stranded(b)
    && (b.rollout in db.rollouts && Terminal(db.rollouts[b.rollout].phase) ==> b.attempt == Some(attempt))
    && (b.state == Failed ==> target.state == Failed && target.reason == b.reason && b.attempt == Some(attempt))
    && (b.state == Failed ==> attempt in db.attempts && record.endedAt == db.attempts[attempt].endedAt)
    && (attempt != issued && target.nonce.Some? ==> b.nonce.Some?)
  }

  lemma {:induction false} SetTargetRetired(db: Db, id: string, target: Target, attempt: nat, record: Attempt,
                                            log: seq<Accepted>, issued: nat)
    requires MayBecome(db, id, target, attempt, record, log, issued) &&
             Respects(db, id, target, attempt, record, issued)
    ensures Retired(db, SetTarget(db, id, target, attempt, record, log), issued)
  {
    hide WindowOk;
    var after := SetTarget(db, id, target, attempt, record, log);
    forall a: nat | a < issued && Live(after, a)
      ensures Live(db, a)
    {
      var other :| other in after.targets && after.targets[other].attempt == Some(a) &&
                   after.targets[other].nonce.Some?;
      if other == id {
        assert db.targets[id].attempt == Some(a) && db.targets[id].nonce.Some?;
      } else {
        assert db.targets[other].attempt == Some(a) && db.targets[other].nonce.Some?;
      }
    }
  }

  lemma {:induction false} SetTargetRowKept(db: Db, id: string, target: Target, attempt: nat, record: Attempt,
                                            log: seq<Accepted>, issued: nat, other: string)
    requires Inv(db, issued) && MayBecome(db, id, target, attempt, record, log, issued) &&
             Respects(db, id, target, attempt, record, issued)
    requires other in db.targets
    ensures TargetKept(db, SetTarget(db, id, target, attempt, record, log), other)
  {
    hide WindowOk, RolloutOk, CapacityOk, NodesOk;
    FailedHavePromotions(db, issued);
    assert TargetOk(db, other) && TargetOk(db, id);
  }

  lemma {:induction false} InTargets(db: Db, id: string, target: Target, attempt: nat, record: Attempt,
                                     log: seq<Accepted>, issued: nat)
    requires MayBecome(db, id, target, attempt, record, log, issued)
    ensures id in db.targets && SetTarget(db, id, target, attempt, record, log).targets.Keys == db.targets.Keys
  {
    hide WindowOk;
  }

  lemma {:induction false} SetTargetKeeps(db: Db, id: string, target: Target, attempt: nat, record: Attempt,
                                          log: seq<Accepted>, issued: nat)
    requires Inv(db, issued) && MayBecome(db, id, target, attempt, record, log, issued) && NoClash(db, id, target)
    requires InFlight(target.state) && !EverHealthy(log) && !Unproven(db, id) ==>
               |UnprovenOf(db, target.rollout)| < db.rollouts[target.rollout].policy.maxConcurrent
    requires Respects(db, id, target, attempt, record, issued)
    ensures var after := SetTarget(db, id, target, attempt, record, log);
            Inv(after, if attempt == issued then issued + 1 else issued) && Kept(db, after) &&
            Retired(db, after, issued)
  {
    hide MayBecome, NoClash, EverHealthy, Unproven, UnprovenOf, RolloutKept, TargetKept, Respects, Retired, Persistent;
    hide RolloutsOk, TargetsOk, CapacityOk, NodesOk;
    InTargets(db, id, target, attempt, record, log, issued);
    SameRowsPersist(db, SetTarget(db, id, target, attempt, record, log));
    SetTargetInv(db, id, target, attempt, record, log, issued);
    SetTargetRetired(db, id, target, attempt, record, log, issued);
    forall other | other in db.targets
      ensures TargetKept(db, SetTarget(db, id, target, attempt, record, log), other)
    {
      SetTargetRowKept(db, id, target, attempt, record, log, issued, other);
    }
  }
}
