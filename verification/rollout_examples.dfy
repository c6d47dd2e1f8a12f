/** Concrete states for the claims that do not hold as they stand: counting every offered or observing
    target a rollout can exceed its limit, a report that did not count can lie in a health interval,
    a restore can strand a row, and a pause can keep a rollout from ever starting. */
module RolloutExamples {
  import opened Basics
  import opened RolloutHealth
  import opened RolloutProtocol
  import opened RolloutSteps
  import opened RolloutTransactions
  import opened RolloutService

  const POLICY := Policy(2, 1, 1, 30, 60, 0, 0, 0, 0, 0, 1000 * SECOND)

  /** One target healthy, one just offered, at most one at a time. */
  function Crowded(): Db {
    Db(map["r" := Release("2.0.0", "stable", "k", 1000 * SECOND, false, true)], "",
       map["o" := Rollout("r", Active, NoReason, 0, 1, POLICY, 0)],
       map["a" := Target("o", "n", 0, Healthy, NoReason, Some(0), "x", Some([1]), Some(900 * SECOND), Some(0),
                         Some(30 * SECOND)),
           "b" := Target("o", "m", 0, Offered, NoReason, Some(1), "x", Some([2]), Some(900 * SECOND), None, None)],
       map[0 := Attempt("a", Recorded(Healthy), Some(30 * SECOND)), 1 := Attempt("b", Recorded(Offered), None)],
       map[0 := [Accepted(0, 0, true, Observing), Accepted(30 * SECOND, 30 * SECOND, true, Healthy)], 1 := []],
       map["o" := []], {"o", "a", "b"})
  }

  lemma {:induction false} CrowdedRows()
    ensures TargetOk(Crowded(), "a") && TargetOk(Crowded(), "b") && RolloutOk(Crowded(), "o")
  {
    var log := Crowded().accepted[0];
    assert LongestAt(log, 0, 0, POLICY);
  }

  lemma {:induction false} CrowdedInv()
    ensures Inv(Crowded(), 2)
  {
    hide TargetOk, RolloutOk;
    CrowdedRows();
    var db := Crowded();
    assert db.accepted[0][1].state == Healthy;
    assert UnprovenOf(db, "o") <= {"b"};
    SubsetSize(UnprovenOf(db, "o"), {"b"});
  }

  const LATE := 40 * SECOND

  /** A good report while the server still sees the old version on the node. */
  function Report(): Observation {
    Observation(0, [1], "2.0.0", LATE, Fine, 0, 0, 0, 0)
  }

  function OldNode(): NodeState {
    NodeState("1.0.0", Some(LATE))
  }

  lemma {:induction false} ReportSlides()
    ensures var db := Crowded();
            && Reportable(db, "a") && LogsPast(db, LATE)
            && Acceptable(db.targets["a"], Report(), LATE) && ValidObservation(Report(), LATE)
            && SlidesBack(db.targets["a"], Report(), OldNode(), "2.0.0", POLICY, LATE)
  {
    assert forall i :: 0 <= i < |Crowded().accepted[0]| ==> Crowded().accepted[0][i].at <= LATE;
  }

  lemma {:induction false} ReportFits()
    ensures var db := Crowded();
            && Reportable(db, "a") && NoClash(db, "a", ReportedRow(db, "a", Report(), OldNode(), LATE))
            && InFlightOf(db, "o") == {"b"}
  {
    hide Observed;
    ReportPlace(Crowded().targets["a"], Report(), OldNode(), "2.0.0", POLICY, LATE);
  }

  /** Accepting it moves "a" back to observing beside the offered "b": two in flight, limit one. */
  lemma {:induction false} CrowdedExceeds()
    ensures var db := Crowded();
            && Inv(db, 2) && LogsPast(db, LATE) && Reportable(db, "a") && Acceptable(db.targets["a"], Report(), LATE)
            && NoClash(db, "a", ReportedRow(db, "a", Report(), OldNode(), LATE))
            && |InFlightOf(db, "o")| <= db.rollouts["o"].policy.maxConcurrent
            && |InFlightOf(AfterReport(db, "a", Report(), OldNode(), LATE), "o")|
               > db.rollouts["o"].policy.maxConcurrent
  {
    hide Inv, NoClash, InFlightOf, Report, OldNode, AfterReport, SlidesBack, LogsPast, Reportable, Acceptable;
    CrowdedInv();
    ReportSlides();
    ReportFits();
    RawCountKept(Crowded(), "a", Report(), OldNode(), LATE, 2);
  }

  // ---- three reports, two of them at one instant

  const OFFERED := Target("o", "n", 0, Offered, NoReason, Some(0), "x", Some([1]), Some(900 * SECOND), None, None)

  /** A report of the node's own version at `at`. */
  function ReportAt(at: Instant): Observation {
    Observation(0, [1], "2.0.0", at, Fine, 0, 0, 0, 0)
  }

  /** The target after the first, the second and the third report. The server learns of the new version
      between the first two, which it accepts at the same instant. */
  function First(): Target {
    Observed(OFFERED, ReportAt(0), NodeState("1.0.0", Some(0)), "2.0.0", POLICY, 0)
  }

  function Second(): Target {
    Observed(First(), ReportAt(0), NodeState("2.0.0", Some(0)), "2.0.0", POLICY, 0)
  }

  function Third(): Target {
    Observed(Second(), ReportAt(30 * SECOND), NodeState("2.0.0", Some(30 * SECOND)), "2.0.0", POLICY, 30 * SECOND)
  }

  /** All three are acceptable, the target ends healthy since the instant 0, and the first report, which
      was accepted at that instant, did not count. */
  lemma {:induction false} UncountedAtStart()
    ensures Acceptable(OFFERED, ReportAt(0), 0) && Acceptable(First(), ReportAt(0), 0)
    ensures Acceptable(Second(), ReportAt(30 * SECOND), 30 * SECOND)
    ensures Third().state == Healthy && Third().since == Some(0)
    ensures !Counts(OFFERED, ReportAt(0), NodeState("1.0.0", Some(0)), "2.0.0", POLICY, 0)
    ensures Counts(First(), ReportAt(0), NodeState("2.0.0", Some(0)), "2.0.0", POLICY, 0)
  {
  }

  // ---- a restore that strands

  /** An aborted rollout whose offered target was still out when the backup was made. */
  function AbortedBackup(): Db {
    Db(map["r" := Release("2.0.0", "stable", "k", 1000 * SECOND, false, true)], "",
       map["o" := Rollout("r", Aborted, OperatorAbort, 0, 1, POLICY, 0)],
       map["a" := OFFERED], map[0 := Attempt("a", Recorded(Offered), None)], map[0 := []], map["o" := []], {"o", "a"})
  }

  lemma {:induction false} AbortedRows()
    ensures TargetOk(AbortedBackup(), "a") && RolloutOk(AbortedBackup(), "o")
  {
  }

  lemma {:induction false} AbortedBackupInv()
    ensures Inv(AbortedBackup(), 1)
  {
    hide TargetOk, RolloutOk;
    var db := AbortedBackup();
    AbortedRows();
    assert UnprovenOf(db, "o") <= {"a"};
    SubsetSize(UnprovenOf(db, "o"), {"a"});
  }

  lemma {:induction false} AbortedStrands()
    ensures var db := RestoredDb(AbortedBackup(), LATE);
            "a" in db.targets && Stranded(db.targets["a"]) && db.targets["a"].rollout == "o"
  {
    hide PauseIn, Unverified, RestoredAttempt;
  }

  /** After the restore the row is stranded, and no later state without a restore gets rid of it. */
  lemma {:induction false} RestoreStrandsForever(after: Db)
    requires Kept(RestoredDb(AbortedBackup(), LATE), after)
    ensures Inv(AbortedBackup(), 1) && Inv(RestoredDb(AbortedBackup(), LATE), 1)
    ensures "a" in after.targets && Stranded(after.targets["a"]) && !MayDelete(after, "o")
  {
    hide Inv, Kept, MayDelete, Stranded, RestoredDb, AbortedBackup;
    AbortedBackupInv();
    AbortedStrands();
    RestoredInv(AbortedBackup(), LATE, 1);
    StrandedUndeletable(RestoredDb(AbortedBackup(), LATE), after, "a");
  }

  // ---- a rollout that can never start

  const DEFAULTS := PolicyInput(0, 0, 0, 0, 0, 0, 0, 0, 0, None, None)

  lemma DefaultsValid()
    ensures ValidPolicy(NormalizedPolicy(DEFAULTS, 0)) && ValidWindow(NormalizedPolicy(DEFAULTS, 0), 0)
  {
    PolicyAccepted(DEFAULTS, 0);
  }

  /** A new service with one release and one rollout that awaits its first promotion. */
  method AwaitingRollout() returns (service: Service)
    ensures fresh(service) && service.Valid() && service.now == 0 && "o" in service.db.rollouts
    ensures var row := service.db.rollouts["o"];
            row.phase == Paused && row.reason == AwaitingPromotion && row.wave == -1 && row.release == "r"
    ensures Available(service.db, "r", true, 0)
  {
    hide Service.Valid, Later, ValidPolicy, ValidWindow, NormalizedPolicy;
    service := new Service();
    var imported := service.Import("r", Release("2.0.0", "stable", "k", 1000 * SECOND, false, true), true);
    DefaultsValid();
    var created, rows := service.Create("o", CreateInput("first", "r", DEFAULTS, "", false), ["n"], ["a"], true, true);
  }

  /** It starts when it is promoted. */
  method AwaitingStarts(nodes: map<string, NodeState>) returns (promoted: bool, service: Service)
    ensures promoted && "o" in service.db.rollouts && service.db.rollouts["o"].wave == 0
  {
    hide Service.Valid, Later, Available;
    service := AwaitingRollout();
    promoted := service.Promote("o", nodes, true);
  }

  /** After a pause it is stuck: neither a promotion nor a resumption is accepted. */
  method PausedNeverStarts(nodes: map<string, NodeState>, trusted: bool, acknowledged: bool)
    returns (paused: bool, promoted: bool, resumed: bool, service: Service)
    ensures paused && !promoted && !resumed
    ensures "o" in service.db.rollouts && Stuck(service.db.rollouts["o"])
  {
    hide Service.Valid, Later, Available, Promoted;
    service := AwaitingRollout();
    paused := service.Pause("o");
    promoted := service.Promote("o", nodes, trusted);
    resumed := service.Resume("o", acknowledged, trusted);
  }
}
