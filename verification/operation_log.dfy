/** What one remote-operation attempt leaves behind: its journal record
    (internal/agentoperations/journal.go, transfer_state.go) and the log of its outside effects,
    with the promises every log must keep. */
module OperationLog {
  import opened Basics
  import opened Chunks

  type Id = string

  datatype Kind = Shell | Deploy

  datatype FileSpec = FileSpec(path: string, size: int, digest: Hash, mode: nat, overwrite: bool)

  datatype Lease = Lease(attempt: Id, nonce: string, kind: Kind, timeoutMillis: nat, command: seq<byte>, file: FileSpec)

  datatype Phase = Pending | Downloading | Publishing | Published

  /** `named` says that a temporary name was journaled. Names are 128-bit random, so each attempt
      owns one slot for its temporary file. */
  datatype Progress = Progress(startedAt: int, deadlineAt: int, named: bool, identity: Option<nat>,
                               digests: seq<Hash>, phase: Phase)

  datatype State = Leased | Authorized | Running | Completed

  datatype Verdict = Succeeded | Failed | TimedOut | Canceled | OutputLimit | Interrupted

  datatype Result = Result(verdict: Verdict, reason: string, exitCode: int, startedAt: int, finishedAt: int,
                           output: seq<byte>, truncated: bool)

  datatype Journal = Journal(state: State, lease: Lease, result: Option<Result>, transfer: Option<Progress>)

  datatype File = File(identity: nat, content: seq<byte>, mode: nat)

  /** The effects of one attempt that somebody outside the agent process can notice. */
  datatype Event =
    | Refused                                     // the server rejected the lease
    | Begun                                       // a record past `Leased` became durable
    | Launched                                    // the process engine was entered
    | Released(durable: Option<State>)            // the gate was opened, with the journal on disk in this state
    | Reported(kind: Kind, result: Result)        // a completion was sent to the server
    | Acknowledged                                // the server accepted a completion
    | Receipted                                   // the receipt file became durable
    | Forgotten(state: State)                     // the journal was removed in this state
    | Renamed(spec: FileSpec, file: File, replaced: bool)  // the temporary file became the destination

  /** The release that every log may hold: the shell body runs only after the running record is durable. */
  const RELEASED: Event := Released(Some(Running))

  predicate ValidTiming(progress: Progress) {
    progress.startedAt >= 1 && progress.deadlineAt > progress.startedAt
  }

  /** The consistency that `validateJournal` demands of every stored record. */
  predicate ValidJournal(record: Journal) {
    && (record.state == Completed <==> record.result.Some?)
    && (record.transfer.Some? ==> ValidTiming(record.transfer.value) && |record.transfer.value.digests| <= 4096)
    && (record.state == Leased && record.lease.kind == Deploy ==> ValidSize(record.lease.file.size))
  }

  /** The phase of a record; an attempt without progress has not begun its transfer. */
  function PhaseOf(record: Journal): Phase {
    if record.transfer.None? then Pending else record.transfer.value.phase
  }

  predicate Fits(hash: seq<byte> -> Hash, spec: FileSpec, file: File) {
    |file.content| == spec.size && hash(file.content) == spec.digest
  }

  ghost predicate HasRenamed(log: seq<Event>) {
    exists i :: 0 <= i < |log| && log[i].Renamed?
  }

  ghost predicate HasReported(log: seq<Event>) {
    exists i :: 0 <= i < |log| && log[i].Reported?
  }

  // ---- promises about a whole log

  /** The shell body is released at most once, and the engine entered at most once. */
  ghost predicate AtMostOnce(log: seq<Event>) {
    && (forall i, j :: 0 <= i < |log| && 0 <= j < |log| && log[i].Released? && log[j].Released? ==> i == j)
    && (forall i, j :: 0 <= i < |log| && 0 <= j < |log| && log[i] == Launched && log[j] == Launched ==> i == j)
  }

  /** Whenever the body is released, the durable journal says running. */
  ghost predicate Gated(log: seq<Event>) {
    forall i :: 0 <= i < |log| && log[i].Released? ==> log[i] == RELEASED
  }

  /** Every completion sent for the attempt carries the same result. */
  ghost predicate StableResult(log: seq<Event>) {
    forall i, j :: 0 <= i < |log| && 0 <= j < |log| && log[i].Reported? && log[j].Reported? ==> log[i] == log[j]
  }

  /** An acknowledgement and then a durable receipt came before position `i`. */
  ghost predicate SettledBefore(log: seq<Event>, i: nat)
    requires i <= |log|
  {
    exists a, b :: 0 <= a < b < i && log[a] == Acknowledged && log[b] == Receipted
  }

  /** A journal is forgotten only after acknowledgement and receipt. The one exception is an attempt
      that never durably left `Leased` and whose lease the server rejected. */
  ghost predicate Unlost(log: seq<Event>) {
    forall i :: 0 <= i < |log| && log[i].Forgotten? ==>
      SettledBefore(log, i) || (Refused in log[..i] && Begun !in log[..i])
  }

  /** Only files that fit their specification are renamed into place, and a destination is
      replaced only when the specification allows it. */
  ghost predicate RenamesVerified(hash: seq<byte> -> Hash, log: seq<Event>) {
    forall i :: 0 <= i < |log| && log[i].Renamed? ==>
      Fits(hash, log[i].spec, log[i].file) && (log[i].replaced ==> log[i].spec.overwrite)
  }

  ghost predicate HonestVerdict(verdict: Verdict, renamed: bool) {
    && (verdict == Succeeded ==> renamed)
    && (verdict != Succeeded && verdict != Interrupted ==> !renamed)
  }

  /** A reported shell success means that the body was released. */
  ghost predicate HonestShell(log: seq<Event>) {
    forall i :: 0 <= i < |log| && log[i].Reported? && log[i].kind == Shell && log[i].result.verdict == Succeeded ==>
      RELEASED in log
  }

  /** A reported deployment success means the file was renamed into place; every other verdict
      except `Interrupted` means it never was, neither before nor after the report. */
  ghost predicate Honest(log: seq<Event>) {
    forall i :: 0 <= i < |log| && log[i].Reported? && log[i].kind == Deploy ==>
      HonestVerdict(log[i].result.verdict, HasRenamed(log))
  }

  ghost predicate Promises(hash: seq<byte> -> Hash, log: seq<Event>) {
    && AtMostOnce(log) && Gated(log) && StableResult(log) && Unlost(log) && RenamesVerified(hash, log)
    && Honest(log) && HonestShell(log)
  }

  // ---- how durable state and log agree, attempt by attempt

  ghost predicate RecordAgrees(record: Journal, receipted: bool, log: seq<Event>) {
    && (Launched in log || Begun in log ==> record.state != Leased)
    && (RELEASED in log ==> record.state == Running || record.state == Completed)
    && (receipted ==> record.state == Completed)
    && (forall i :: 0 <= i < |log| && log[i].Reported? ==>
          record.state == Completed && record.result == Some(log[i].result) && record.lease.kind == log[i].kind)
    && (record.lease.kind == Shell ==> !HasRenamed(log))
    && (record.lease.kind == Shell && record.result.Some? && record.result.value.verdict == Succeeded ==>
          RELEASED in log)
    && (record.lease.kind == Deploy ==> DeployAgrees(record, log))
  }

  ghost predicate DeployAgrees(record: Journal, log: seq<Event>) {
    && Launched !in log && RELEASED !in log
    && (record.state == Leased ==> PhaseOf(record) == Pending)
    && (forall i :: 0 <= i < |log| && log[i].Renamed? ==> log[i].spec == record.lease.file)
    && (PhaseOf(record) == Published ==> HasRenamed(log))
    && (record.state != Completed && (PhaseOf(record) == Pending || PhaseOf(record) == Downloading) ==>
          !HasRenamed(log))
    && (record.state == Completed && record.result.Some? ==>
          HonestVerdict(record.result.value.verdict, HasRenamed(log)))
  }

  /** An attempt with neither journal nor receipt has had no effect yet. */
  ghost predicate Untouched(log: seq<Event>) {
    Begun !in log && Launched !in log && RELEASED !in log && !HasReported(log) && !HasRenamed(log)
  }

  ghost predicate Agrees(entry: Option<Journal>, receipted: bool, log: seq<Event>) {
    && (receipted ==> SettledBefore(log, |log|))
    && (entry.Some? ==> RecordAgrees(entry.value, receipted, log))
    && (entry.None? && !receipted ==> Untouched(log))
  }

  /** Everything kept about one attempt. */
  ghost predicate AttemptOk(hash: seq<byte> -> Hash, entry: Option<Journal>, receipted: bool, log: seq<Event>) {
    Promises(hash, log) && Agrees(entry, receipted, log)
  }

  // ---- one lemma per appended event

  lemma AppendKeepsSettled(log: seq<Event>, event: Event, i: nat)
    requires i <= |log|
    ensures SettledBefore(log, i) ==> SettledBefore(log + [event], i) && SettledBefore(log + [event], |log| + 1)
  {
    if SettledBefore(log, i) {
      var a, b :| 0 <= a < b < i && log[a] == Acknowledged && log[b] == Receipted;
      var longer := log + [event];
      assert longer[a] == Acknowledged && longer[b] == Receipted;
    }
  }

  lemma AppendKeepsUnlost(log: seq<Event>, event: Event)
    requires Unlost(log)
    requires event.Forgotten? ==> SettledBefore(log, |log|) || (Refused in log && Begun !in log)
    ensures Unlost(log + [event])
  {
    hide SettledBefore;
    var longer := log + [event];
    forall i | 0 <= i < |longer| && longer[i].Forgotten?
      ensures SettledBefore(longer, i) || (Refused in longer[..i] && Begun !in longer[..i])
    {
      AppendKeepsSettled(log, event, i);
      assert longer[..i] == log[..i] && (i == |log| ==> log[..i] == log);
      assert i < |log| ==> longer[i] == log[i];
    }
  }

  lemma AppendKeepsRenamed(log: seq<Event>, event: Event)
    ensures HasRenamed(log + [event]) <==> HasRenamed(log) || event.Renamed?
    ensures HasReported(log + [event]) <==> HasReported(log) || event.Reported?
  {
    var longer := log + [event];
    assert longer[|log|] == event;
    if HasRenamed(log) {
      var i :| 0 <= i < |log| && log[i].Renamed?;
      assert longer[i].Renamed?;
    }
    if HasReported(log) {
      var i :| 0 <= i < |log| && log[i].Reported?;
      assert longer[i].Reported?;
    }
  }

  /** Events that say nothing about runs, reports or renames. */
  predicate Neutral(event: Event) {
    event in {Refused, Begun, Acknowledged, Receipted} || event.Forgotten?
  }

  lemma NeutralKeepsPromises(hash: seq<byte> -> Hash, log: seq<Event>, event: Event)
    requires Promises(hash, log) && Neutral(event)
    requires event.Forgotten? ==> SettledBefore(log, |log|) || (Refused in log && Begun !in log)
    ensures Promises(hash, log + [event])
  {
    hide Unlost, SettledBefore;
    AppendKeepsUnlost(log, event);
    AppendKeepsRenamed(log, event);
  }

  lemma NeutralKeepsRecord(record: Journal, receipted: bool, more: bool, log: seq<Event>, event: Event)
    requires RecordAgrees(record, receipted, log) && Neutral(event) && (event == Begun ==> record.state != Leased)
    requires more ==> receipted || record.state == Completed
    ensures RecordAgrees(record, more, log + [event])
  {
    AppendKeepsRenamed(log, event);
  }

  /** A record past `Leased` becomes durable for the first time, or the server replies: the lease is
      rejected, or a completion acknowledged. */
  lemma LogNeutral(hash: seq<byte> -> Hash, record: Journal, receipted: bool, log: seq<Event>, event: Event)
    requires AttemptOk(hash, Some(record), receipted, log) && event in {Refused, Begun, Acknowledged}
    requires event == Begun ==> record.state != Leased
    ensures AttemptOk(hash, Some(record), receipted, log + [event])
    ensures HasRenamed(log + [event]) <==> HasRenamed(log)
  {
    hide Promises, RecordAgrees, SettledBefore, HasRenamed;
    NeutralKeepsPromises(hash, log, event);
    NeutralKeepsRecord(record, receipted, receipted, log, event);
    AppendKeepsRenamed(log, event);
    AppendKeepsSettled(log, event, |log|);
  }

  /** The engine is entered, or the body released, for the first time. */
  lemma LogStart(hash: seq<byte> -> Hash, record: Journal, log: seq<Event>, event: Event)
    requires AttemptOk(hash, Some(record), false, log) && record.lease.kind == Shell
    requires (event == Launched && record.state == Authorized) || (event == RELEASED && record.state == Running)
    requires event !in log
    ensures AttemptOk(hash, Some(record), false, log + [event])
  {
    AppendKeepsUnlost(log, event);
    AppendKeepsRenamed(log, event);
  }

  lemma LogReport(hash: seq<byte> -> Hash, record: Journal, receipted: bool, log: seq<Event>)
    requires AttemptOk(hash, Some(record), receipted, log)
    requires record.state == Completed && record.result.Some?
    ensures AttemptOk(hash, Some(record), receipted, log + [Reported(record.lease.kind, record.result.value)])
  {
    var event := Reported(record.lease.kind, record.result.value);
    AppendKeepsUnlost(log, event);
    AppendKeepsRenamed(log, event);
    AppendKeepsSettled(log, event, |log|);
  }

  lemma LogReceipt(hash: seq<byte> -> Hash, record: Journal, log: seq<Event>)
    requires AttemptOk(hash, Some(record), false, log) && record.state == Completed && Acknowledged in log
    ensures AttemptOk(hash, Some(record), true, log + [Receipted])
  {
    hide Promises, RecordAgrees;
    NeutralKeepsPromises(hash, log, Receipted);
    NeutralKeepsRecord(record, false, true, log, Receipted);
    var a :| 0 <= a < |log| && log[a] == Acknowledged;
    var longer := log + [Receipted];
    assert longer[a] == Acknowledged && longer[|log|] == Receipted;
    assert SettledBefore(longer, |longer|);
  }

  lemma LogForget(hash: seq<byte> -> Hash, record: Journal, receipted: bool, log: seq<Event>)
    requires AttemptOk(hash, Some(record), receipted, log)
    requires receipted || (record.state == Leased && Refused in log)
    ensures AttemptOk(hash, None, receipted, log + [Forgotten(record.state)])
  {
    hide Promises, SettledBefore;
    var event := Forgotten(record.state);
    NeutralKeepsPromises(hash, log, event);
    AppendKeepsSettled(log, event, |log|);
    if !receipted {
      LeasedUntouched(hash, record, log);
      AppendKeepsRenamed(log, event);
    }
  }

  /** An attempt whose record is leased has had no effect yet. */
  lemma LeasedUntouched(hash: seq<byte> -> Hash, record: Journal, log: seq<Event>)
    requires AttemptOk(hash, Some(record), false, log) && record.state == Leased
    ensures Untouched(log)
  {
    hide Promises, SettledBefore;
  }

  lemma LogRename(hash: seq<byte> -> Hash, record: Journal, log: seq<Event>, file: File, replaced: bool)
    requires AttemptOk(hash, Some(record), false, log)
    requires record.lease.kind == Deploy && record.state == Running && PhaseOf(record) == Publishing
    requires Fits(hash, record.lease.file, file) && (replaced ==> record.lease.file.overwrite)
    ensures AttemptOk(hash, Some(record), false, log + [Renamed(record.lease.file, file, replaced)])
    ensures HasRenamed(log + [Renamed(record.lease.file, file, replaced)])
  {
    var event := Renamed(record.lease.file, file, replaced);
    AppendKeepsUnlost(log, event);
    AppendKeepsRenamed(log, event);
  }
}
