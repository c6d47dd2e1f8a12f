/** The crash-safe operation runner (internal/agentoperations/runner.go, runner_execution.go,
    runner_transfer.go, transfer_deploy.go, receipts.go, journal.go), with one worker.

    Faults are part of every effect. A journal write, a receipt, a removal or a rename can fail
    before it happens, fail after it happened, or be the last thing the process does. A crash
    clears `alive`: from then on the unwinding code changes nothing any more, until the next
    start sets `alive` again. Replies of the server, readings of the clock and cancellations are
    arbitrary values. */
module OperationRunner {
  import opened Basics
  import opened Chunks
  import opened OperationLog

  datatype Error =
    | Nil
    | ErrStorage | ErrTransport | ErrLeaseRejected | ErrPolicy | ErrBoundary
    | ErrCanceled | ErrTimeout | ErrDisconnected | ContextCanceled | DeadlineExceeded
    | ErrFileIntegrity | ErrFileConflict | ErrSourceChanged | NotExist | ErrOther

  function Lookup(journals: map<Id, Journal>, id: Id): Option<Journal> {
    if id in journals then Some(journals[id]) else None
  }

  ghost function LogOf(logs: map<Id, seq<Event>>, id: Id): seq<Event> {
    if id in logs then logs[id] else []
  }

  /** The identity an attempt journaled belongs to its own temporary file, and a destination
      carries that identity only because this attempt renamed it there. */
  ghost predicate IdentityOk(record: Journal, files: Files, log: seq<Event>)
  {
    record.transfer.Some? && record.transfer.value.identity.Some? ==>
      var identity := record.transfer.value.identity.value;
      && identity < files.next
      && (forall t :: t in files.temporaries && files.temporaries[t].identity == identity ==> t == record.lease.attempt)
      && (forall p :: p in files.destinations && files.destinations[p].identity == identity ==> HasRenamed(log))
  }

  /** File identities are never reused; `next` is above all of them. */
  datatype Files = Files(temporaries: map<Id, File>, destinations: map<string, File>, next: nat)

  ghost predicate FilesOk(files: Files) {
    && (forall t :: t in files.temporaries ==> files.temporaries[t].identity < files.next)
    && (forall p :: p in files.destinations ==> files.destinations[p].identity < files.next)
    && (forall t, u | t in files.temporaries && u in files.temporaries && t != u ::
          files.temporaries[t].identity != files.temporaries[u].identity)
    && (forall t, p :: t in files.temporaries && p in files.destinations ==>
          files.temporaries[t].identity != files.destinations[p].identity)
  }

  /** Files were created, edited or removed, but none was renamed and no identity reused. */
  ghost predicate FilesStep(before: Files, after: Files) {
    && before.next <= after.next
    && (forall t :: t in after.temporaries ==>
          before.next <= after.temporaries[t].identity ||
          (t in before.temporaries && before.temporaries[t].identity == after.temporaries[t].identity))
    && (forall p :: p in after.destinations ==>
          before.next <= after.destinations[p].identity ||
          exists q :: q in before.destinations && before.destinations[q].identity == after.destinations[p].identity)
  }

  lemma {:induction false} StepKeepsIdentity(record: Journal, log: seq<Event>, before: Files, after: Files)
    requires FilesStep(before, after) && IdentityOk(record, before, log)
    ensures IdentityOk(record, after, log)
  {
  }

  /** The journal directory, the receipt directory, and the logs they must agree with. */
  datatype Books = Books(journals: map<Id, Journal>, receipts: set<Id>, logs: map<Id, seq<Event>>)

  ghost predicate EntryOk(hash: seq<byte> -> Hash, books: Books, files: Files, id: Id) {
    && AttemptOk(hash, Lookup(books.journals, id), id in books.receipts, LogOf(books.logs, id))
    && (id in books.journals ==>
          && books.journals[id].lease.attempt == id
          && ValidJournal(books.journals[id])
          && (books.journals[id].state != Leased ==> Begun in LogOf(books.logs, id))
          && IdentityOk(books.journals[id], files, LogOf(books.logs, id)))
  }

  ghost predicate AllOk(hash: seq<byte> -> Hash, books: Books, files: Files) {
    FilesOk(files) && forall id: Id :: EntryOk(hash, books, files, id)
  }

  ghost predicate SameElsewhere(id: Id, before: Books, after: Books) {
    && before.journals - {id} == after.journals - {id}
    && before.receipts - {id} == after.receipts - {id}
    && before.logs - {id} == after.logs - {id}
  }

  /** A step that touches one attempt keeps all the others. */
  lemma {:induction false} OneAttempt(hash: seq<byte> -> Hash, id: Id, before: Books, after: Books, files: Files)
    requires AllOk(hash, before, files) && SameElsewhere(id, before, after) && EntryOk(hash, after, files, id)
    ensures AllOk(hash, after, files)
  {
    forall x: Id
      ensures EntryOk(hash, after, files, x)
    {
      if x != id {
        assert EntryOk(hash, before, files, x);
        assert x in before.journals <==> x in before.journals - {id};
        assert x in after.journals <==> x in after.journals - {id};
        assert x in before.receipts <==> x in before.receipts - {id};
        assert x in after.receipts <==> x in after.receipts - {id};
        assert x in before.logs <==> x in before.logs - {id};
        assert x in after.logs <==> x in after.logs - {id};
      }
    }
  }

  lemma {:induction false} StepKeepsAll(hash: seq<byte> -> Hash, books: Books, before: Files, after: Files)
    requires AllOk(hash, books, before) && FilesStep(before, after) && FilesOk(after)
    ensures AllOk(hash, books, after)
  {
    hide AttemptOk, FilesOk;
    forall id: Id
      ensures EntryOk(hash, books, after, id)
    {
      assert EntryOk(hash, books, before, id);
    }
  }

  /** Renaming the temporary file of `id` onto `path`, with the event in its log. */
  lemma {:induction false} RenameKeepsAll(hash: seq<byte> -> Hash, id: Id, path: string, before: Books,
                                          files: Files, event: Event)
    requires AllOk(hash, before, files) && id in files.temporaries && id in before.journals && event.Renamed?
    requires AttemptOk(hash, Lookup(before.journals, id), id in before.receipts, LogOf(before.logs, id) + [event])
    ensures AllOk(hash, before.(logs := before.logs[id := LogOf(before.logs, id) + [event]]),
                  RenameFile(files, id, path))
  {
    hide AttemptOk;
    var after := before.(logs := before.logs[id := LogOf(before.logs, id) + [event]]);
    AppendKeepsRenamed(LogOf(before.logs, id), event);
    forall x: Id
      ensures EntryOk(hash, after, RenameFile(files, id, path), x)
    {
      assert EntryOk(hash, before, files, x);
    }
  }

  function RenameFile(files: Files, id: Id, path: string): Files
    requires id in files.temporaries
  {
    Files(files.temporaries - {id}, files.destinations[path := files.temporaries[id]], files.next)
  }

  /** Bytes or modes of temporary files change, or such files vanish. */
  lemma {:induction false} TornKeepsAll(hash: seq<byte> -> Hash, books: Books, files: Files, torn: map<Id, File>)
    requires AllOk(hash, books, files) && torn.Keys <= files.temporaries.Keys
    requires forall t :: t in torn ==> torn[t].identity == files.temporaries[t].identity
    ensures AllOk(hash, books, files.(temporaries := torn)) && FilesStep(files, files.(temporaries := torn))
  {
    hide EntryOk, FilesOk, FilesStep;
    TornFiles(files, torn);
    StepKeepsAll(hash, books, files, files.(temporaries := torn));
  }

  lemma {:induction false} TornFiles(files: Files, torn: map<Id, File>)
    requires FilesOk(files) && torn.Keys <= files.temporaries.Keys
    requires forall t :: t in torn ==> torn[t].identity == files.temporaries[t].identity
    ensures FilesOk(files.(temporaries := torn)) && FilesStep(files, files.(temporaries := torn))
  {
    forall t | t in torn
      ensures t in files.temporaries && files.temporaries[t].identity == torn[t].identity
    {
      assert t in torn.Keys;
    }
  }

  lemma {:induction false} CreateKeepsAll(hash: seq<byte> -> Hash, books: Books, files: Files, id: Id, file: File)
    requires AllOk(hash, books, files) && file.identity == files.next
    ensures AllOk(hash, books, files.(temporaries := files.temporaries[id := file], next := files.next + 1))
    ensures FilesStep(files, files.(temporaries := files.temporaries[id := file], next := files.next + 1))
  {
    hide EntryOk, FilesOk, FilesStep;
    CreatedFile(files, id, file);
    StepKeepsAll(hash, books, files, files.(temporaries := files.temporaries[id := file], next := files.next + 1));
  }

  lemma {:induction false} CreatedFile(files: Files, id: Id, file: File)
    requires FilesOk(files) && file.identity == files.next
    ensures var after := files.(temporaries := files.temporaries[id := file], next := files.next + 1);
            FilesOk(after) && FilesStep(files, after)
  {
  }

  /** Other programs bring only identities that are new or were in a destination already. */
  predicate Foreign(files: Files, others: map<string, File>, bound: nat) {
    && files.next <= bound
    && forall p :: p in others ==>
         files.next <= others[p].identity < bound ||
         exists q :: q in files.destinations && files.destinations[q].identity == others[p].identity
  }

  lemma {:induction false} ForeignKeepsAll(hash: seq<byte> -> Hash, books: Books, files: Files,
                                           others: map<string, File>, bound: nat)
    requires AllOk(hash, books, files) && Foreign(files, others, bound)
    ensures AllOk(hash, books, files.(destinations := others, next := bound))
    ensures FilesStep(files, files.(destinations := others, next := bound))
  {
    hide EntryOk;
    StepKeepsAll(hash, books, files, files.(destinations := others, next := bound));
  }

  lemma {:induction false} IdentityKept(record: Journal, files: Files, log: seq<Event>, event: Event)
    requires IdentityOk(record, files, log)
    ensures IdentityOk(record, files, log + [event])
  {
    AppendKeepsRenamed(log, event);
  }

  /** Which next records an attempt's log admits; the journaled identity stays. */
  lemma AdmitAuthorized(hash: seq<byte> -> Hash, record: Journal, next: Journal, receipted: bool, log: seq<Event>)
    requires AttemptOk(hash, Some(record), receipted, log) && record.state == Leased && record.lease.kind == Shell
    requires next == record.(state := Authorized, lease := record.lease.(command := []))
    ensures AttemptOk(hash, Some(next), receipted, log) && Launched !in log
  {
  }

  lemma AdmitRunning(hash: seq<byte> -> Hash, record: Journal, receipted: bool, log: seq<Event>)
    requires AttemptOk(hash, Some(record), receipted, log) && record.state != Completed
    ensures AttemptOk(hash, Some(record.(state := Running)), receipted, log)
  {
  }

  lemma AdmitCompleted(hash: seq<byte> -> Hash, record: Journal, result: Result, receipted: bool, log: seq<Event>)
    requires AttemptOk(hash, Some(record), receipted, log) && record.state != Completed
    requires record.lease.kind == Deploy ==> HonestVerdict(result.verdict, HasRenamed(log))
    requires record.lease.kind == Shell && result.verdict == Succeeded ==> RELEASED in log
    ensures AttemptOk(hash, Some(record.(state := Completed, result := Some(result))), receipted, log)
  {
  }

  /** A transfer moves on inside its phase or to the next one. */
  lemma AdmitProgress(hash: seq<byte> -> Hash, record: Journal, progress: Progress, receipted: bool, log: seq<Event>)
    requires AttemptOk(hash, Some(record), receipted, log) && record.lease.kind == Deploy && record.state == Running
    requires PhaseOf(record) == progress.phase
             || (PhaseOf(record) == Pending && progress.phase == Downloading)
             || progress.phase == Publishing
             || (progress.phase == Published && HasRenamed(log))
    ensures AttemptOk(hash, Some(record.(transfer := Some(progress))), receipted, log)
  {
  }

  /** The verdicts that an unfinished deployment may end with. */
  lemma HonestResult(hash: seq<byte> -> Hash, record: Journal, receipted: bool, log: seq<Event>, verdict: Verdict)
    requires AttemptOk(hash, Some(record), receipted, log) && record.lease.kind == Deploy && record.state != Completed
    requires verdict == Succeeded <==> PhaseOf(record) == Published
    requires PhaseOf(record) == Publishing ==> verdict == Interrupted
    ensures HonestVerdict(verdict, HasRenamed(log))
  {
  }

  lemma SameIdentity(record: Journal, next: Journal, files: Files, log: seq<Event>)
    requires IdentityOk(record, files, log) && record.lease.attempt == next.lease.attempt
    requires next.transfer.Some? ==>
               record.transfer.Some? && next.transfer.value.identity == record.transfer.value.identity
    ensures IdentityOk(next, files, log)
  {
  }

  function TransferFailure(err: Error): (Verdict, string) {
    match err
    case ErrCanceled => (Canceled, "canceled")
    case ErrTimeout => (TimedOut, "timeout")
    case DeadlineExceeded => (TimedOut, "timeout")
    case ContextCanceled => (Interrupted, "interrupted")
    case ErrDisconnected => (Interrupted, "interrupted")
    case ErrFileIntegrity => (Failed, "file_integrity")
    case ErrSourceChanged => (Failed, "source_changed")
    case ErrFileConflict => (Failed, "transfer_conflict")
    case ErrPolicy => (Failed, "local_policy")
    case _ => (Failed, "storage_failure")
  }

  function ReasonOf(verdict: Verdict): string {
    match verdict
    case Succeeded => "completed"
    case Failed => "exit_nonzero"
    case TimedOut => "timeout"
    case Canceled => "canceled"
    case OutputLimit => "output_limit"
    case Interrupted => "interrupted"
  }

  function TerminalResult(verdict: Verdict, started: int, finished: int): Result {
    Result(verdict, ReasonOf(verdict), -1, started, finished, [], false)
  }

  function ResultState(truncated: bool, cause: Error, runErr: Error): Verdict {
    if truncated then OutputLimit
    else match cause
      case ErrTimeout => TimedOut
      case ErrCanceled => Canceled
      case Nil => if runErr == Nil then Succeeded else Failed
      case _ => Interrupted
  }

  const MAXIMUM_TRANSFERS := 2

  function Transfers(active: map<Id, Kind>): set<Id> {
    set id | id in active && active[id] == Deploy
  }

  /** Counts the active transfers. */
  method CountTransfers(active: map<Id, Kind>) returns (count: nat)
    ensures count == |Transfers(active)|
  {
    count := 0;
    var remaining := active.Keys;
    while remaining != {}
      invariant remaining <= active.Keys && count == |Transfers(active) - remaining|
      decreases remaining
    {
      var id :| id in remaining;
      ghost var seen := Transfers(active) - remaining;
      remaining := remaining - {id};
      if active[id] == Deploy {
        count := count + 1;
        assert Transfers(active) - remaining == seen + {id};
      } else {
        assert Transfers(active) - remaining == seen;
      }
    }
  }

  lemma {:induction false} TransfersAfter(active: map<Id, Kind>, id: Id, kind: Kind)
    requires id !in active
    ensures Transfers(active[id := kind]) == if kind == Deploy then Transfers(active) + {id} else Transfers(active)
  {
    var after := active[id := kind];
    forall x
      ensures x in Transfers(after) <==> x in Transfers(active) || (x == id && kind == Deploy)
    {
    }
  }

  lemma {:induction false} AdmitWithinLimits(active: map<Id, Kind>, id: Id, kind: Kind)
    requires id !in active
    ensures |active[id := kind]| == |active| + 1
    ensures |Transfers(active[id := kind])| == |Transfers(active)| + if kind == Deploy then 1 else 0
  {
    TransfersAfter(active, id, kind);
    assert id !in Transfers(active);
    hide Transfers;
    assert active[id := kind].Keys == active.Keys + {id};
  }

  lemma ReleaseWithinLimits(active: map<Id, Kind>, id: Id)
    ensures |active - {id}| <= |active| && |Transfers(active - {id})| <= |Transfers(active)|
  {
    SubsetSize((active - {id}).Keys, active.Keys);
    SubsetSize(Transfers(active - {id}), Transfers(active));
  }

  lemma KeptElsewhere(id: Id, before: Books, after: Books)
    requires SameElsewhere(id, before, after)
    ensures forall x :: x != id && x in before.journals ==>
              x in after.journals && after.journals[x] == before.journals[x]
    ensures forall x :: x != id && x in after.journals ==> x in before.journals
  {
    forall x | x != id && x in before.journals
      ensures x in after.journals && after.journals[x] == before.journals[x]
    {
      assert x in before.journals - {id};
    }
    forall x | x != id && x in after.journals
      ensures x in before.journals
    {
      assert x in after.journals - {id};
    }
  }

  predicate Unpublished(record: Journal) {
    PhaseOf(record) == Pending || PhaseOf(record) == Downloading
  }

  predicate TransferCommitted(record: Journal) {
    PhaseOf(record) == Published
  }

  /** Reads the journaled chunks back; `expected` is where the last of them ends. */
  method CheckChunks(hash: seq<byte> -> Hash, content: seq<byte>, digests: seq<Hash>, size: int)
    returns (expected: nat, err: Error)
    requires ValidSize(size) && |digests| <= ChunkCount(size)
    ensures expected <= |content|
    ensures err == Nil ==> Matches(hash, content[..expected], digests, size)
    ensures err == ErrFileIntegrity ==> forall cut :: 0 <= cut <= |content| ==>
              !Matches(hash, content[..cut], digests, size)
  {
    expected := 0;
    for index := 0 to |digests|
      invariant expected == Offset(size, index) <= |content|
      invariant forall i :: 0 <= i < index ==> ChunkMatches(hash, content, digests, size, i)
    {
      var canceled: Error := *;
      if canceled == ContextCanceled || canceled == DeadlineExceeded {
        return expected, canceled;
      }
      var length := ChunkLength(size, index).value;
      if expected + length > |content| || hash(content[expected..expected + length]) != digests[index] {
        CheckFailed(hash, content, digests, size, index);
        return expected, ErrFileIntegrity;
      }
      expected := expected + length;
    }
    PrefixMatches(hash, content, digests, size, expected);
    err := Nil;
  }

  lemma PrefixMatches(hash: seq<byte> -> Hash, content: seq<byte>, digests: seq<Hash>, size: int, expected: nat)
    requires ValidSize(size) && |digests| <= ChunkCount(size) && expected == Offset(size, |digests|) <= |content|
    requires forall i :: 0 <= i < |digests| ==> ChunkMatches(hash, content, digests, size, i)
    ensures Matches(hash, content[..expected], digests, size)
  {
    forall i | 0 <= i < |digests|
      ensures ChunkMatches(hash, content[..expected], digests, size, i)
    {
      OffsetMonotone(size, i + 1, |digests|);
      var low, high := Offset(size, i), Offset(size, i + 1);
      assert ChunkMatches(hash, content, digests, size, i);
      SliceOfPrefix(content, expected, low, high);
    }
  }

  lemma CheckFailed(hash: seq<byte> -> Hash, content: seq<byte>, digests: seq<Hash>, size: int, index: nat)
    requires ValidSize(size) && index < |digests| <= ChunkCount(size)
    requires !ChunkMatches(hash, content, digests, size, index)
    ensures forall cut :: 0 <= cut <= |content| ==> !Matches(hash, content[..cut], digests, size)
  {
    forall cut | 0 <= cut <= |content|
      ensures !Matches(hash, content[..cut], digests, size)
    {
      var low, high := Offset(size, index), Offset(size, index + 1);
      assert high <= cut ==> content[..cut][low..high] == content[low..high];
      assert Matches(hash, content[..cut], digests, size) ==> ChunkMatches(hash, content[..cut], digests, size, index);
    }
  }

  class Runner {
    // durable
    var journals: map<Id, Journal>
    var receipts: set<Id>
    var temporaries: map<Id, File>
    var destinations: map<string, File>
    var nextIdentity: nat
    // volatile
    var alive: bool
    var closed: bool
    var active: map<Id, Kind>
    const maxConcurrency: nat
    const hash: seq<byte> -> Hash
    // what the outside has seen, attempt by attempt
    ghost var logs: map<Id, seq<Event>>

    constructor (hash: seq<byte> -> Hash)
      ensures Valid() && alive && journals == map[] && receipts == {} && logs == map[] && this.hash == hash
      ensures active == map[] && !closed
    {
      this.hash := hash;
      maxConcurrency := 1;
      journals, receipts, temporaries, destinations, nextIdentity := map[], {}, map[], map[], 0;
      alive, closed, active := true, false, map[];
      logs := map[];
    }

    // ---- invariant and frames

    ghost function Log(id: Id): seq<Event>
      reads this
    {
      LogOf(logs, id)
    }

    ghost function TheBooks(): Books
      reads this
    {
      Books(journals, receipts, logs)
    }

    ghost function TheFiles(): Files
      reads this
    {
      Files(temporaries, destinations, nextIdentity)
    }

    ghost predicate Valid()
      reads this
    {
      maxConcurrency == 1 && AllOk(hash, TheBooks(), TheFiles())
    }

    /** A record that may be written for its attempt right now. */
    ghost predicate Admissible(record: Journal)
      reads this
    {
      && AttemptOk(hash, Some(record), record.lease.attempt in receipts, Log(record.lease.attempt))
      && IdentityOk(record, TheFiles(), Log(record.lease.attempt))
    }

    /** The worker holds `record`: the attempt is journaled and unfinished, and what is in memory,
        possibly ahead of the disk, may be written. */
    ghost predicate Holding(record: Journal)
      reads this
    {
      alive ==>
        && record.lease.attempt in journals
        && journals[record.lease.attempt].state != Completed
        && record.state != Completed && record.result.None?
        && Admissible(record)
    }

    /** Nothing but the attempt `id` changed, a dead process changed nothing, and a dead process
        stays dead. */
    twostate predicate Touched(id: Id)
      reads this
    {
      && SameElsewhere(id, old(TheBooks()), TheBooks())
      && old(Log(id)) <= Log(id)
      && (alive ==> old(alive))
      && (!old(alive) ==> TheBooks() == old(TheBooks()) && TheFiles() == old(TheFiles()))
      && active == old(active) && (old(closed) ==> closed)
    }

    twostate predicate FilesKept()
      reads this
    {
      alive ==> TheFiles() == old(TheFiles())
    }

    // ---- faults

    /** The process dies. Bytes that were not yet durable may be lost or torn. */
    method Crash()
      requires Valid()
      modifies this
      ensures Valid() && !alive
      ensures TheBooks() == old(TheBooks())
      ensures destinations == old(destinations) && nextIdentity == old(nextIdentity)
      ensures active == old(active) && closed == old(closed)
      ensures !old(alive) ==> temporaries == old(temporaries)
    {
      hide AllOk;
      if alive {
        var torn: map<Id, File> := *;
        if torn.Keys <= temporaries.Keys && forall t :: t in torn ==> torn[t].identity == temporaries[t].identity {
          TornKeepsAll(hash, TheBooks(), TheFiles(), torn);
          temporaries := torn;
        }
      }
      alive := false;
    }

    /** Other programs replace, edit or remove destination files at any time. */
    method Interfere()
      requires Valid()
      modifies this`destinations, this`nextIdentity
      ensures Valid()
      ensures !alive ==> destinations == old(destinations) && nextIdentity == old(nextIdentity)
      ensures FilesStep(old(TheFiles()), TheFiles())
    {
      hide AllOk, Foreign;
      var others: map<string, File> := *;
      var bound: nat := *;
      if alive && Foreign(Files(temporaries, destinations, nextIdentity), others, bound) {
        ForeignKeepsAll(hash, TheBooks(), TheFiles(), others, bound);
        destinations, nextIdentity := others, bound;
      }
    }

    // ---- the journal store

    /** The log after a record became durable. */
    ghost function Begin(record: Journal): seq<Event>
      reads this
    {
      var log := Log(record.lease.attempt);
      if record.state != Leased && Begun !in log then log + [Begun] else log
    }

    lemma BeginOk(record: Journal)
      requires Admissible(record)
      ensures AttemptOk(hash, Some(record), record.lease.attempt in receipts, Begin(record))
      ensures IdentityOk(record, TheFiles(), Begin(record)) && (record.state != Leased ==> Begun in Begin(record))
      ensures HasRenamed(Begin(record)) <==> HasRenamed(Log(record.lease.attempt))
    {
      hide AttemptOk, IdentityOk, HasRenamed;
      var log := Log(record.lease.attempt);
      if record.state != Leased {
        LogNeutral(hash, record, record.lease.attempt in receipts, log, Begun);
        IdentityKept(record, TheFiles(), log, Begun);
      }
    }

    /** Writes a record. A first record past `Leased` is noted in the log once it is durable. */
    method Save(record: Journal) returns (err: Error)
      requires Valid()
      requires alive && ValidJournal(record) ==> Admissible(record)
      modifies this
      ensures Valid() && Touched(record.lease.attempt) && FilesKept() && receipts == old(receipts)
      ensures || (journals == old(journals) && logs == old(logs))
              || (journals == old(journals)[record.lease.attempt := record] &&
                  Log(record.lease.attempt) == old(Begin(record)))
      ensures HasRenamed(Log(record.lease.attempt)) == old(HasRenamed(Log(record.lease.attempt)))
      ensures err == Nil ==> ValidJournal(record)
      ensures alive && old(Admissible(record)) ==> Admissible(record)
      ensures alive && err == Nil ==> journals == old(journals)[record.lease.attempt := record]
    {
      hide AllOk, AttemptOk, IdentityOk, HasRenamed;
      var id := record.lease.attempt;
      var fate: nat := *;
      if !alive || !ValidJournal(record) || fate == 0 {
        return ErrStorage;
      }
      if fate == 1 {
        Crash();
        return ErrStorage;
      }
      BeginOk(record);
      ghost var books := Books(journals[id := record], receipts, logs[id := Begin(record)]);
      assert EntryOk(hash, books, TheFiles(), id);
      OneAttempt(hash, id, TheBooks(), books, TheFiles());
      journals, logs := journals[id := record], logs[id := Begin(record)];
      if fate == 2 {
        return ErrStorage;
      }
      if fate == 3 {
        Crash();
      }
      return Nil;
    }

    method Remove(id: Id) returns (err: Error)
      requires Valid()
      requires alive ==> id in journals && (id in receipts || (journals[id].state == Leased && Refused in Log(id)))
      modifies this
      ensures Valid() && Touched(id) && FilesKept()
      ensures receipts == old(receipts)
      ensures journals == old(journals) || journals == old(journals) - {id}
      ensures alive && err == Nil ==>
                journals == old(journals) - {id} && Log(id) == old(Log(id)) + [Forgotten(old(journals[id].state))]
    {
      hide AllOk, AttemptOk, IdentityOk;
      var fate: nat := *;
      if !alive || fate == 0 {
        return ErrStorage;
      }
      if fate == 1 {
        Crash();
        return ErrStorage;
      }
      ghost var longer := logs[id := Log(id) + [Forgotten(journals[id].state)]];
      OnDisk(id);
      LogForget(hash, journals[id], id in receipts, Log(id));
      assert EntryOk(hash, Books(journals - {id}, receipts, longer), TheFiles(), id);
      OneAttempt(hash, id, TheBooks(), Books(journals - {id}, receipts, longer), TheFiles());
      journals, logs := journals - {id}, longer;
      if fate == 2 {
        return ErrStorage;
      }
      if fate == 3 {
        Crash();
      }
      return Nil;
    }

    method MarkAcknowledged(id: Id) returns (err: Error)
      requires Valid()
      requires alive ==> id in journals && journals[id].state == Completed && Acknowledged in Log(id)
      modifies this
      ensures Valid() && Touched(id) && FilesKept()
      ensures journals == old(journals)
      ensures alive && err == Nil ==> id in receipts
    {
      hide AllOk, AttemptOk, IdentityOk;
      var fate: nat := *;
      if !alive || fate == 0 {
        return ErrStorage;
      }
      if fate == 1 {
        Crash();
        return ErrStorage;
      }
      OnDisk(id);
      if id in receipts {
        return Nil;
      }
      ghost var longer := logs[id := Log(id) + [Receipted]];
      LogReceipt(hash, journals[id], Log(id));
      IdentityKept(journals[id], TheFiles(), Log(id), Receipted);
      assert EntryOk(hash, Books(journals, receipts + {id}, longer), TheFiles(), id);
      OneAttempt(hash, id, TheBooks(), Books(journals, receipts + {id}, longer), TheFiles());
      receipts, logs := receipts + {id}, longer;
      if fate == 2 {
        return ErrStorage;
      }
      if fate == 3 {
        Crash();
      }
      return Nil;
    }

    method IsAcknowledged(id: Id) returns (yes: bool, err: Error)
      ensures err == Nil ==> (yes <==> id in receipts)
    {
      var fault: bool := *;
      return id in receipts, if fault then ErrStorage else Nil;
    }

    // ---- the server

    /** Asks the server whether the attempt may start. */
    method GatewayStart(lease: Lease) returns (err: Error)
      requires Valid()
      requires alive ==> lease.attempt in journals
      modifies this
      ensures Valid() && Touched(lease.attempt) && FilesKept()
      ensures journals == old(journals) && receipts == old(receipts)
      ensures err != ErrLeaseRejected ==> logs == old(logs)
      ensures alive && err == ErrLeaseRejected ==> Refused in Log(lease.attempt)
    {
      hide AllOk, AttemptOk, IdentityOk;
      var fault: bool := *;
      if fault {
        Crash();
      }
      err := *;
      if alive && err == ErrLeaseRejected {
        OnDisk(lease.attempt);
        LogNeutral(hash, journals[lease.attempt], lease.attempt in receipts, Log(lease.attempt), Refused);
        Note(lease.attempt, Refused);
      }
    }

    /** Sends the completion. The server may have accepted it even when the reply is lost. */
    method GatewayComplete(record: Journal) returns (err: Error)
      requires Valid() && record.result.Some?
      requires alive ==> Lookup(journals, record.lease.attempt) == Some(record)
      modifies this
      ensures Valid() && Touched(record.lease.attempt) && FilesKept()
      ensures journals == old(journals) && receipts == old(receipts)
      ensures alive ==> Reported(record.lease.kind, record.result.value) in Log(record.lease.attempt)
      ensures alive && err == Nil ==> Acknowledged in Log(record.lease.attempt)
    {
      hide AllOk, AttemptOk, IdentityOk;
      var id := record.lease.attempt;
      var fate: nat := *;
      if !alive {
        return ErrTransport;
      }
      if fate == 0 {
        Crash();
        return ErrTransport;
      }
      OnDisk(id);
      LogReport(hash, record, id in receipts, Log(id));
      Note(id, Reported(record.lease.kind, record.result.value));
      if fate == 1 {
        return ErrTransport;
      }
      OnDisk(id);
      LogNeutral(hash, record, id in receipts, Log(id), Acknowledged);
      Note(id, Acknowledged);
      if fate == 2 {
        return ErrTransport;
      }
      if fate == 3 {
        Crash();
      }
      return Nil;
    }

    /** Adds one event to the log of an attempt whose record stays. */
    ghost method Note(id: Id, event: Event)
      requires Valid() && id in journals
      requires AttemptOk(hash, Some(journals[id]), id in receipts, Log(id) + [event])
      modifies this`logs
      ensures Valid() && SameElsewhere(id, old(TheBooks()), TheBooks())
      ensures Log(id) == old(Log(id)) + [event]
    {
      hide AllOk, AttemptOk, IdentityOk;
      var longer := logs[id := Log(id) + [event]];
      OnDisk(id);
      IdentityKept(journals[id], TheFiles(), Log(id), event);
      assert EntryOk(hash, TheBooks().(logs := longer), TheFiles(), id);
      OneAttempt(hash, id, TheBooks(), TheBooks().(logs := longer), TheFiles());
      logs := longer;
    }

    // ---- results (runner_execution.go)

    method Deliver(record: Journal) returns (err: Error)
      requires Valid() && record.state == Completed && record.result.Some?
      requires alive ==> Lookup(journals, record.lease.attempt) == Some(record)
      modifies this
      ensures Valid() && Touched(record.lease.attempt) && FilesKept()
      ensures alive && err == Nil ==>
                record.lease.attempt !in journals && record.lease.attempt in receipts &&
                Reported(record.lease.kind, record.result.value) in Log(record.lease.attempt)
    {
      hide AllOk, AttemptOk, IdentityOk;
      var id := record.lease.attempt;
      err := GatewayComplete(record);
      if err != Nil {
        return;
      }
      ghost var sent := Log(id);
      err := MarkAcknowledged(id);
      if err != Nil {
        return;
      }
      err := Remove(id);
      assert sent <= Log(id);
      assert alive ==> Reported(record.lease.kind, record.result.value) in sent;
    }

    method Complete(record: Journal, result: Result) returns (err: Error)
      requires Valid() && Holding(record)
      requires alive && record.lease.kind == Deploy ==>
                 HonestVerdict(result.verdict, HasRenamed(Log(record.lease.attempt)))
      requires alive && record.lease.kind == Shell && result.verdict == Succeeded ==>
                 RELEASED in Log(record.lease.attempt)
      modifies this
      ensures Valid() && Touched(record.lease.attempt) && FilesKept()
      ensures alive && err == Nil ==>
                record.lease.attempt !in journals && record.lease.attempt in receipts &&
                Reported(record.lease.kind, result) in Log(record.lease.attempt)
    {
      hide AllOk, AttemptOk, IdentityOk;
      var finished := record.(state := Completed, result := Some(result));
      if alive {
        AdmitCompleted(hash, record, result, record.lease.attempt in receipts, Log(record.lease.attempt));
        SameIdentity(record, finished, TheFiles(), Log(record.lease.attempt));
      }
      err := Save(finished);
      if err != Nil {
        return;
      }
      err := Deliver(finished);
    }

    // ---- shell commands (runner_execution.go, process.go, process_linux.go)

    method EnterEngine(record: Journal)
      requires Valid() && record.lease.kind == Shell && record.state == Authorized
      requires alive ==>
                 Lookup(journals, record.lease.attempt) == Some(record) && Launched !in Log(record.lease.attempt)
      modifies this
      ensures Valid() && Touched(record.lease.attempt) && FilesKept()
      ensures journals == old(journals) && receipts == old(receipts)
      ensures alive ==> Log(record.lease.attempt) == old(Log(record.lease.attempt)) + [Launched]
    {
      hide AllOk, AttemptOk, IdentityOk;
      if alive {
        OnDisk(record.lease.attempt);
        LogStart(hash, record, Log(record.lease.attempt), Launched);
        Note(record.lease.attempt, Launched);
      }
    }

    /** The state of the journal on disk. */
    ghost function DurableState(id: Id): Option<State>
      reads this
    {
      if id in journals then Some(journals[id].state) else None
    }

    /** Lets the shell read its script. The running record must be on disk. */
    method OpenGate(record: Journal)
      requires Valid() && record.lease.kind == Shell && record.state == Running
      requires alive ==>
                 Lookup(journals, record.lease.attempt) == Some(record) && RELEASED !in Log(record.lease.attempt)
      modifies this
      ensures Valid() && Touched(record.lease.attempt) && FilesKept()
      ensures journals == old(journals) && receipts == old(receipts)
      ensures alive ==> Log(record.lease.attempt) == old(Log(record.lease.attempt)) + [RELEASED]
    {
      hide AllOk, AttemptOk, IdentityOk;
      if alive {
        OnDisk(record.lease.attempt);
        LogStart(hash, record, Log(record.lease.attempt), RELEASED);
        Note(record.lease.attempt, Released(DurableState(record.lease.attempt)));
      }
      var fault: bool := *;
      if fault {
        Crash();
      }
    }

    /** What is on disk may be held, and agrees with its log. */
    lemma OnDisk(id: Id)
      requires Valid() && id in journals
      ensures EntryOk(hash, TheBooks(), TheFiles(), id)
      ensures Admissible(journals[id]) && ValidJournal(journals[id]) && journals[id].lease.attempt == id
      ensures RecordAgrees(journals[id], id in receipts, Log(id))
    {
      assert EntryOk(hash, TheBooks(), TheFiles(), id);
    }

    /** Runs the process. The gate that lets the shell read its script is opened only after the
        running record was saved. */
    method EngineRun(record: Journal) returns (next: Journal, result: Result, err: Error)
      requires Valid() && record.lease.kind == Shell && record.state == Authorized && record.result.None?
      requires alive ==>
                 Lookup(journals, record.lease.attempt) == Some(record) && Launched !in Log(record.lease.attempt)
      modifies this
      ensures Valid() && Touched(record.lease.attempt) && FilesKept()
      ensures next == record || next == record.(state := Running)
      ensures Holding(next)
      ensures alive && RELEASED in Log(record.lease.attempt) ==>
                journals[record.lease.attempt] == next && next.state == Running
      ensures alive && err == Nil && result.verdict == Succeeded ==> RELEASED in Log(record.lease.attempt)
    {
      hide AllOk, AttemptOk, IdentityOk;
      var started: int, finished: int, early: Error := *, *, *;
      next := record;
      EnterEngine(record);
      if alive {
        OnDisk(record.lease.attempt);
      }
      // the context may be canceled already, or the capture files cannot be opened
      if early != Nil {
        return next, TerminalResult(Interrupted, started, finished), early;
      }
      var runErr;
      next, runErr := Execute(record);
      var exitCode: int, truncated: bool, cause: Error, output: seq<byte> := *, *, *, *;
      result := TerminalResult(ResultState(truncated, cause, runErr), started, finished)
                .(exitCode := exitCode, truncated := truncated, output := output);
      var unread: Error, unclosed: bool := *, *;
      if unread != Nil {
        return next, result, unread;
      }
      if unclosed || runErr == ErrStorage {
        return next, result.(verdict := Interrupted, reason := "storage_failure"), ErrStorage;
      }
      if runErr == ErrBoundary {
        return next, result.(reason := "sandbox_unavailable"), ErrBoundary;
      }
      err := Nil;
    }

    /** Starts the helper, saves the running record and then opens the gate. */
    method Execute(record: Journal) returns (next: Journal, runErr: Error)
      requires Valid() && record.lease.kind == Shell && record.state == Authorized && record.result.None?
      requires alive ==>
                 Lookup(journals, record.lease.attempt) == Some(record) && RELEASED !in Log(record.lease.attempt)
      modifies this
      ensures Valid() && Touched(record.lease.attempt) && FilesKept()
      ensures next == record || next == record.(state := Running)
      ensures Holding(next)
      ensures alive && RELEASED in Log(record.lease.attempt) ==>
                journals[record.lease.attempt] == next && next.state == Running
      ensures alive && runErr == Nil ==> RELEASED in Log(record.lease.attempt)
    {
      hide AllOk, AttemptOk, IdentityOk;
      var id := record.lease.attempt;
      var setup: Error, gate: bool := *, *;
      next := record;
      if alive {
        OnDisk(id);
      }
      // pipes, helper start or the boundary can fail
      if setup != Nil {
        return next, setup;
      }
      next := record.(state := Running);
      if alive {
        AdmitRunning(hash, record, id in receipts, Log(id));
        SameIdentity(record, next, TheFiles(), Log(id));
      }
      var saved := Save(next);
      if saved != Nil {
        return next, ErrStorage;
      }
      if gate {
        return next, ErrBoundary;
      }
      OpenGate(next);
      if alive {
        OnDisk(id);
      }
      runErr := *;
    }

    method Start(record: Journal) returns (err: Error)
      requires Valid() && record.state == Leased && record.lease.kind == Shell && ValidJournal(record)
      requires alive ==> Lookup(journals, record.lease.attempt) == Some(record)
      modifies this
      ensures Valid() && Touched(record.lease.attempt) && FilesKept()
      ensures alive && err == Nil ==> record.lease.attempt !in journals
    {
      hide AllOk, AttemptOk, IdentityOk;
      var id := record.lease.attempt;
      var refused: Error := *;  // a canceled context, or a lease the local policy no longer allows
      if refused != Nil {
        return refused;
      }
      err := GatewayStart(record.lease);
      if err != Nil {
        if err == ErrLeaseRejected {
          err := Remove(id);
        }
        return;
      }
      var authorized := record.(state := Authorized, lease := record.lease.(command := []));
      if alive {
        OnDisk(id);
        AdmitAuthorized(hash, record, authorized, id in receipts, Log(id));
        SameIdentity(record, authorized, TheFiles(), Log(id));
      }
      err := Save(authorized);
      if err != Nil {
        return;
      }
      err := RunAuthorized(authorized);
    }

    /** Runs an attempt whose authorized record is on disk, and completes it. */
    method RunAuthorized(record: Journal) returns (err: Error)
      requires Valid() && record.lease.kind == Shell && record.state == Authorized && record.result.None?
      requires alive ==>
                 Lookup(journals, record.lease.attempt) == Some(record) && Launched !in Log(record.lease.attempt)
      modifies this
      ensures Valid() && Touched(record.lease.attempt) && FilesKept()
      ensures alive && err == Nil ==>
                record.lease.attempt !in journals && record.lease.attempt in receipts &&
                HasReported(Log(record.lease.attempt))
    {
      hide AllOk, AttemptOk, IdentityOk;
      var current, result, executionErr := EngineRun(record);
      if executionErr != Nil {
        result := result.(verdict := Interrupted);
        if executionErr == ErrStorage {
          result := result.(reason := "storage_failure");
        }
        if executionErr == ErrBoundary {
          result := result.(reason := "sandbox_unavailable");
        }
      }
      err := Complete(current, result);
      assert alive && err == Nil ==> Reported(record.lease.kind, result) in Log(record.lease.attempt);
    }

    // ---- file deployment (runner_transfer.go, transfer_deploy.go)

    /** The deployment worker holds `record` in the running state. */
    ghost predicate Transferring(record: Journal)
      reads this
    {
      && record.lease.kind == Deploy && record.transfer.Some? && record.state == Running
      && ValidSize(record.lease.file.size) && Holding(record)
    }

    /** The bytes of the attempt's temporary file. */
    ghost function Temporary(id: Id): seq<byte>
      reads this
      requires id in temporaries
    {
      temporaries[id].content
    }

    method OpenTemporary(id: Id) returns (err: Error)
      ensures alive && err == Nil ==> id in temporaries
      ensures alive && err == NotExist ==> id !in temporaries
    {
      err := *;
      if err == Nil && id !in temporaries {
        err := NotExist;
      } else if err == NotExist && id in temporaries {
        err := ErrOther;
      }
    }

    method CreateTemporary(id: Id) returns (err: Error)
      requires Valid()
      modifies this
      ensures Valid() && Touched(id) && TheBooks() == old(TheBooks())
      ensures alive && err == Nil ==> id in temporaries
      ensures alive ==> FilesStep(old(TheFiles()), TheFiles())
    {
      hide AllOk;
      var fate: nat := *;
      if !alive || fate == 0 || id in temporaries {
        return ErrOther;
      }
      CreateKeepsAll(hash, TheBooks(), TheFiles(), id, File(nextIdentity, [], 0x180));
      temporaries, nextIdentity := temporaries[id := File(nextIdentity, [], 0x180)], nextIdentity + 1;
      if fate == 1 {
        Crash();
      }
      return Nil;
    }

    /** Replaces the bytes of a temporary file; its identity stays. */
    method SetContent(id: Id, content: seq<byte>)
      requires Valid()
      requires alive ==> id in temporaries
      modifies this`temporaries
      ensures Valid()
      ensures !alive ==> temporaries == old(temporaries)
      ensures alive ==> temporaries == old(temporaries)[id := old(temporaries[id]).(content := content)]
    {
      hide AllOk;
      if alive {
        var changed := temporaries[id := temporaries[id].(content := content)];
        TornKeepsAll(hash, TheBooks(), TheFiles(), changed);
        temporaries := changed;
      }
    }

    method PrepareTemporary(record: Journal) returns (next: Journal, err: Error)
      requires Valid() && Transferring(record)
      requires Unpublished(record)
      modifies this
      ensures Valid() && Touched(record.lease.attempt) && Transferring(next) && next.lease == record.lease
      ensures Unpublished(next)
      ensures alive && err == Nil ==> record.lease.attempt in temporaries
    {
      hide AllOk, AttemptOk, IdentityOk;
      var id := record.lease.attempt;
      next := record;
      if !next.transfer.value.named {
        next := next.(transfer := Some(next.transfer.value.(named := true, phase := Downloading)));
        if alive {
          AdmitProgress(hash, record, next.transfer.value, id in receipts, Log(id));
          SameIdentity(record, next, TheFiles(), Log(id));
        }
        err := Save(next);
        if err != Nil {
          return;
        }
      }
      err := OpenTemporary(id);
      if err == NotExist && next.transfer.value.digests == [] {
        ghost var before := TheFiles();
        err := CreateTemporary(id);
        if alive {
          StepKeepsIdentity(next, Log(id), before, TheFiles());
        }
      }
    }

    /** Checks every journaled chunk and cuts the file after the last one. Nothing is assumed
        about what a crash left in the file. */
    method VerifyPrefix(record: Journal) returns (err: Error)
      requires Valid() && Transferring(record)
      requires alive ==> record.lease.attempt in temporaries
      modifies this
      ensures Valid() && Touched(record.lease.attempt) && Transferring(record) && TheBooks() == old(TheBooks())
      ensures alive ==> record.lease.attempt in temporaries
      ensures err == Nil ==> Resumable(record)
      ensures alive && err == Nil ==> Temporary(record.lease.attempt) <= old(Temporary(record.lease.attempt))
    {
      hide AllOk, AttemptOk, IdentityOk;
      var id, size, digests := record.lease.attempt, record.lease.file.size, record.transfer.value.digests;
      if |digests| > ChunkCount(size) {
        return ErrFileIntegrity;
      }
      var content := if id in temporaries then temporaries[id].content else [];
      var expected;
      expected, err := CheckChunks(hash, content, digests, size);
      if err != Nil {
        return;
      }
      var fault: bool := *;
      if fault {
        return ErrStorage;
      }
      ghost var before := TheFiles();
      SetContent(id, content[..expected]);
      if alive {
        StepKeepsIdentity(record, Log(id), before, TheFiles());
      }
    }

    /** The temporary file is exactly the chunks whose digests `record` lists. */
    ghost predicate Resumable(record: Journal)
      reads this
    {
      alive ==>
        && record.lease.attempt in temporaries && record.transfer.Some? && ValidSize(record.lease.file.size)
        && Matches(hash, Temporary(record.lease.attempt), record.transfer.value.digests, record.lease.file.size)
    }

    /** Appends to the temporary file and syncs it. A failing write may leave a part behind. */
    method AppendTemporary(record: Journal, content: seq<byte>) returns (err: Error)
      requires Valid() && Transferring(record)
      requires alive ==> record.lease.attempt in temporaries
      modifies this
      ensures Valid() && Touched(record.lease.attempt) && Transferring(record) && TheBooks() == old(TheBooks())
      ensures alive ==> record.lease.attempt in temporaries
      ensures alive && err == Nil ==> Temporary(record.lease.attempt) == old(Temporary(record.lease.attempt)) + content
    {
      hide AllOk, AttemptOk, IdentityOk;
      var id := record.lease.attempt;
      var present := if id in temporaries then temporaries[id].content else [];
      var written: nat, unsynced: bool := *, *;
      ghost var before := TheFiles();
      SetContent(id, present + if written < |content| then content[..written] else content);
      if alive {
        StepKeepsIdentity(record, Log(id), before, TheFiles());
      }
      err := if written < |content| || unsynced then ErrStorage else Nil;
    }

    method DownloadChunk(record: Journal, index: nat) returns (next: Journal, err: Error)
      requires Valid() && Transferring(record) && Unpublished(record) && Resumable(record)
      requires index == |record.transfer.value.digests| < ChunkCount(record.lease.file.size)
      modifies this
      ensures Valid() && Touched(record.lease.attempt) && Transferring(next) && next.lease == record.lease
      ensures Unpublished(next)
      ensures err == Nil ==> |next.transfer.value.digests| == index + 1 && Resumable(next)
    {
      hide AllOk, AttemptOk, IdentityOk;
      var size, digests := record.lease.file.size, record.transfer.value.digests;
      next := record;
      var content: seq<byte>, reply: Error := *, *;
      if reply != Nil {
        return next, reply;
      }
      if |content| != ChunkLength(size, index).value {
        return next, ErrFileIntegrity;
      }
      if alive {
        MatchesExtend(hash, Temporary(record.lease.attempt), digests, size, content);
      }
      err := AppendTemporary(record, content);
      if err != Nil {
        return;
      }
      next := record.(transfer := Some(record.transfer.value.(digests := digests + [hash(content)])));
      if alive {
        AdmitProgress(hash, record, next.transfer.value, record.lease.attempt in receipts, Log(record.lease.attempt));
        SameIdentity(record, next, TheFiles(), Log(record.lease.attempt));
      }
      err := Save(next);
    }

    method DownloadMissing(record: Journal) returns (next: Journal, err: Error)
      requires Valid() && Transferring(record) && Unpublished(record) && Resumable(record)
      modifies this
      ensures Valid() && Touched(record.lease.attempt) && Transferring(next) && next.lease == record.lease
      ensures Unpublished(next)
      ensures err == Nil ==> Resumable(next) && |next.transfer.value.digests| >= ChunkCount(record.lease.file.size)
      ensures alive && err == Nil ==> |Temporary(record.lease.attempt)| == record.lease.file.size
    {
      hide AllOk, AttemptOk, IdentityOk;
      next := record;
      while |next.transfer.value.digests| < ChunkCount(record.lease.file.size)
        invariant Valid() && Touched(record.lease.attempt) && Transferring(next) && next.lease == record.lease
        invariant Unpublished(next) && Resumable(next)
        decreases ChunkCount(record.lease.file.size) - |next.transfer.value.digests|
      {
        next, err := DownloadChunk(next, |next.transfer.value.digests|);
        if err != Nil {
          return;
        }
      }
      if alive {
        MatchesComplete(hash, Temporary(record.lease.attempt), next.transfer.value.digests, record.lease.file.size);
      }
      err := Nil;
    }

    /** The publishing record is on disk and names a temporary file that fits the specification. */
    ghost predicate PublishReady(record: Journal)
      reads this
    {
      alive ==>
        && Lookup(journals, record.lease.attempt) == Some(record)
        && PhaseOf(record) == Publishing && record.transfer.Some?
        && record.lease.attempt in temporaries
        && record.transfer.value.identity == Some(temporaries[record.lease.attempt].identity)
        && Fits(hash, record.lease.file, temporaries[record.lease.attempt])
    }

    method PreparePublication(record: Journal) returns (next: Journal, err: Error)
      requires Valid() && Transferring(record) && Unpublished(record)
      requires alive ==> record.lease.attempt in temporaries
      modifies this
      ensures Valid() && Touched(record.lease.attempt) && Transferring(next) && next.lease == record.lease
      ensures Unpublished(next) || PhaseOf(next) == Publishing
      ensures err == Nil ==> PublishReady(next)
    {
      hide AllOk, AttemptOk, IdentityOk;
      var id, spec := record.lease.attempt, record.lease.file;
      next := record;
      var file := if id in temporaries then temporaries[id] else File(0, [], 0);
      var unread: Error, unsynced: Error := *, *;
      if unread != Nil {
        return next, unread;
      }
      if |file.content| > spec.size {
        return next, ErrPolicy;
      }
      if !Fits(hash, spec, file) {
        return next, ErrFileIntegrity;
      }
      SetMode(record, spec.mode);
      if unsynced != Nil {
        return next, unsynced;
      }
      next := record.(transfer := Some(record.transfer.value.(identity := Some(file.identity), phase := Publishing)));
      if alive {
        AdmitProgress(hash, record, next.transfer.value, id in receipts, Log(id));
        FreshIdentity(next);
      }
      err := Save(next);
    }

    lemma FreshIdentity(record: Journal)
      requires Valid() && record.lease.attempt in temporaries && record.transfer.Some?
      requires record.transfer.value.identity == Some(temporaries[record.lease.attempt].identity)
      ensures IdentityOk(record, TheFiles(), Log(record.lease.attempt))
    {
    }

    method SetMode(record: Journal, mode: nat)
      requires Valid() && Transferring(record)
      requires alive ==> record.lease.attempt in temporaries
      modifies this`temporaries
      ensures Valid() && Transferring(record)
      ensures !alive ==> temporaries == old(temporaries)
      ensures alive ==>
                temporaries ==
                  old(temporaries)[record.lease.attempt := old(temporaries[record.lease.attempt]).(mode := mode)]
    {
      hide AllOk, AttemptOk, IdentityOk;
      if alive {
        var id := record.lease.attempt;
        var changed := temporaries[id := temporaries[id].(mode := mode)];
        TornKeepsAll(hash, TheBooks(), TheFiles(), changed);
        StepKeepsIdentity(record, Log(id), TheFiles(), TheFiles().(temporaries := changed));
        temporaries := changed;
      }
    }

    /** Other programs touch the destination while the worker holds `record`. */
    method OthersAct(record: Journal)
      requires Valid() && Transferring(record)
      modifies this`destinations, this`nextIdentity
      ensures Valid() && Transferring(record)
      ensures !alive ==> TheFiles() == old(TheFiles())
    {
      hide AllOk, AttemptOk, IdentityOk;
      ghost var before := TheFiles();
      Interfere();
      if alive {
        StepKeepsIdentity(record, Log(record.lease.attempt), before, TheFiles());
      }
    }

    method Rename(record: Journal)
      requires Valid() && Transferring(record) && PublishReady(record) && alive
      requires record.lease.file.path in destinations ==> record.lease.file.overwrite
      modifies this`logs, this`temporaries, this`destinations
      ensures Valid() && Transferring(record)
      ensures destinations == old(destinations)[record.lease.file.path := old(temporaries[record.lease.attempt])]
      ensures logs == old(logs)[record.lease.attempt := Log(record.lease.attempt)]
      ensures Log(record.lease.attempt) == old(Log(record.lease.attempt)) +
                [Renamed(record.lease.file, old(temporaries[record.lease.attempt]),
                         record.lease.file.path in old(destinations))]
      ensures HasRenamed(Log(record.lease.attempt))
    {
      hide AllOk, AttemptOk, IdentityOk;
      var id, spec := record.lease.attempt, record.lease.file;
      ghost var event := Renamed(spec, temporaries[id], spec.path in destinations);
      OnDisk(id);
      LogRename(hash, record, Log(id), temporaries[id], spec.path in destinations);
      RenameKeepsAll(hash, id, spec.path, TheBooks(), TheFiles(), event);
      logs := logs[id := Log(id) + [event]];
      temporaries, destinations := temporaries - {id}, destinations[spec.path := temporaries[id]];
      OnDisk(id);
    }

    /** Renames the temporary file into place, without replacing unless that is allowed. The
        directory sync after the rename can still fail. */
    method Publish(record: Journal) returns (err: Error)
      requires Valid() && Transferring(record) && PublishReady(record)
      modifies this
      ensures Valid() && Touched(record.lease.attempt) && Transferring(record)
      ensures journals == old(journals)
      ensures alive && err == Nil ==> HasRenamed(Log(record.lease.attempt))
    {
      hide AllOk, AttemptOk, IdentityOk, Fits;
      var spec := record.lease.file;
      var fate: nat, unreadable: Error := *, *;
      OthersAct(record);
      if unreadable != Nil {
        return unreadable;
      }
      if spec.path in destinations && !spec.overwrite {
        return ErrFileConflict;
      }
      OthersAct(record);
      if !alive || fate == 0 || (spec.path in destinations && !spec.overwrite) {
        return ErrOther;
      }
      if fate == 1 {
        Crash();
        return ErrOther;
      }
      Rename(record);
      if fate == 2 {
        return ErrOther;
      }
      if fate == 3 {
        Crash();
      }
      return Nil;
    }

    /** Everything before the rename: after it the publishing record is on disk. */
    method FetchTemporary(record: Journal) returns (next: Journal, err: Error)
      requires Valid() && Transferring(record) && Unpublished(record)
      modifies this
      ensures Valid() && Touched(record.lease.attempt) && Transferring(next) && next.lease == record.lease
      ensures err == Nil ==> PublishReady(next)
      ensures !TransferCommitted(next)
    {
      hide AllOk, AttemptOk, IdentityOk, Matches, Fits, ValidJournal, ChunkCount, Offset;
      next, err := PrepareTemporary(record);
      if err != Nil {
        return;
      }
      err := VerifyPrefix(next);
      if err != Nil {
        return;
      }
      next, err := DownloadMissing(next);
      if err != Nil {
        return;
      }
      next, err := PreparePublication(next);
    }

    method DeployPrepared(record: Journal) returns (next: Journal, err: Error)
      requires Valid() && Transferring(record) && Unpublished(record)
      modifies this
      ensures Valid() && Touched(record.lease.attempt) && Transferring(next) && next.lease == record.lease
      ensures err == Nil ==> TransferCommitted(next)
    {
      hide AllOk, AttemptOk, IdentityOk, Matches, Fits, ValidJournal, ChunkCount, Offset;
      next := record;
      OthersAct(record);
      if record.lease.file.path in destinations && !record.lease.file.overwrite {
        return next, ErrFileConflict;
      }
      next, err := FetchTemporary(record);
      if err != Nil {
        return;
      }
      var canceled: Error := *;
      if canceled != Nil {
        return next, canceled;
      }
      err := Publish(next);
      if err != Nil {
        return;
      }
      next, err := SavePublished(next);
    }

    /** The last step of both publication paths: the rename is known to have happened. */
    method SavePublished(record: Journal) returns (next: Journal, err: Error)
      requires Valid() && Transferring(record)
      requires alive ==> HasRenamed(Log(record.lease.attempt))
      modifies this
      ensures Valid() && Touched(record.lease.attempt) && FilesKept() && Transferring(next) &&
              next.lease == record.lease
      ensures TransferCommitted(next)
    {
      hide AllOk, AttemptOk, IdentityOk;
      var id := record.lease.attempt;
      next := record.(transfer := Some(record.transfer.value.(phase := Published)));
      if alive {
        AdmitProgress(hash, record, next.transfer.value, id in receipts, Log(id));
        SameIdentity(record, next, TheFiles(), Log(id));
      }
      err := Save(next);
    }

    /** Whether an opened file is the one that was prepared for publication. */
    method VerifyPublishedFile(record: Journal, file: File) returns (err: Error)
      requires record.transfer.Some?
      ensures err == Nil ==>
                record.transfer.value.identity == Some(file.identity) && Fits(hash, record.lease.file, file)
    {
      if record.transfer.value.identity != Some(file.identity) {
        return ErrFileConflict;
      }
      if file.mode != record.lease.file.mode {
        return ErrFileIntegrity;
      }
      var unread: Error := *;
      if unread != Nil {
        return unread;
      }
      if |file.content| > record.lease.file.size {
        return ErrPolicy;
      }
      return if Fits(hash, record.lease.file, file) then Nil else ErrFileIntegrity;
    }

    /** After a crash in the publishing phase: finish the rename, or recognise the destination. */
    method ReconcilePublication(record: Journal) returns (next: Journal, err: Error)
      requires Valid() && Transferring(record) && PhaseOf(record) == Publishing
      requires alive ==> Lookup(journals, record.lease.attempt) == Some(record)
      modifies this
      ensures Valid() && Touched(record.lease.attempt) && Transferring(next) && next.lease == record.lease
      ensures err == Nil ==> TransferCommitted(next)
    {
      hide AllOk, AttemptOk;
      var id := record.lease.attempt;
      next := record;
      err := OpenTemporary(id);
      if err == Nil {
        var file := if id in temporaries then temporaries[id] else File(0, [], 0);
        err := VerifyPublishedFile(record, file);
        if err != Nil {
          return;
        }
        err := Publish(record);
        if err != Nil {
          return;
        }
      } else if err == NotExist {
        OthersAct(record);
        var unreadable: Error := *;
        if record.lease.file.path !in destinations || unreadable != Nil {
          return next, if unreadable != Nil then unreadable else NotExist;
        }
        err := VerifyPublishedFile(record, destinations[record.lease.file.path]);
        if err != Nil {
          return;
        }
      } else {
        return;
      }
      next, err := SavePublished(record);
    }

    method ExecuteJob(record: Journal) returns (next: Journal, err: Error)
      requires Valid() && Transferring(record)
      requires alive ==> Lookup(journals, record.lease.attempt) == Some(record)
      modifies this
      ensures Valid() && Touched(record.lease.attempt) && Transferring(next) && next.lease == record.lease
      ensures err == Nil ==> TransferCommitted(next)
    {
      hide AllOk, AttemptOk, IdentityOk;
      next := record;
      var refused: Error, unclosed: Error := *, *;  // a canceled context, or a root that cannot be opened
      if refused != Nil {
        return next, refused;
      }
      match PhaseOf(record) {
        case Published => err := Nil;
        case Publishing => next, err := ReconcilePublication(record);
        case _ => next, err := DeployPrepared(record);
      }
      if err == Nil && unclosed != Nil {
        err := unclosed;
      }
    }

    /** The worker holds a deployment record in any unfinished state. */
    ghost predicate HoldingDeploy(record: Journal)
      reads this
    {
      record.lease.kind == Deploy && record.transfer.Some? && Holding(record)
    }

    method CleanupTransfer(record: Journal) returns (err: Error)
      requires Valid() && HoldingDeploy(record)
      modifies this
      ensures Valid() && Touched(record.lease.attempt) && TheBooks() == old(TheBooks()) && HoldingDeploy(record)
      ensures err == Nil && alive && record.transfer.value.named && !TransferCommitted(record) ==>
                record.lease.attempt !in temporaries
    {
      hide AllOk, AttemptOk, IdentityOk;
      var id := record.lease.attempt;
      if !record.transfer.value.named || TransferCommitted(record) {
        return Nil;
      }
      var fate: nat := *;
      if !alive || fate == 0 {
        return ErrOther;
      }
      TornKeepsAll(hash, TheBooks(), TheFiles(), temporaries - {id});
      StepKeepsIdentity(record, Log(id), TheFiles(), TheFiles().(temporaries := temporaries - {id}));
      temporaries := temporaries - {id};
      if fate == 1 {
        return ErrOther;
      }
      if fate == 2 {
        Crash();
      }
      return Nil;
    }

    /** Turns the outcome of a transfer into a result. A failure in the publishing phase is
        reported as interrupted, because the rename may or may not have happened. */
    method FinishTransfer(record: Journal, transferErr: Error) returns (err: Error)
      requires Valid() && HoldingDeploy(record)
      requires transferErr == Nil <==> TransferCommitted(record)
      modifies this
      ensures Valid() && Touched(record.lease.attempt)
      ensures alive && err == Nil ==> record.lease.attempt !in journals && record.lease.attempt in receipts
    {
      hide AllOk, AttemptOk, IdentityOk;
      var finished: int := *;
      var result := TerminalResult(Succeeded, record.transfer.value.startedAt, finished).(exitCode := 0);
      if transferErr != Nil {
        var (verdict, reason) := TransferFailure(transferErr);
        result := result.(verdict := verdict, reason := reason, exitCode := -1);
        if PhaseOf(record) == Publishing {
          result := result.(verdict := Interrupted, reason := "interrupted");
        }
        err := CleanupTransfer(record);
        if err != Nil {
          return;
        }
      }
      if alive {
        HonestResult(hash, record, record.lease.attempt in receipts, Log(record.lease.attempt), result.verdict);
      }
      err := Complete(record, result);
    }

    method EnsureTransferProgress(record: Journal) returns (next: Journal, err: Error)
      requires Valid() && record.lease.kind == Deploy && record.state != Completed && ValidJournal(record)
      requires alive ==> Lookup(journals, record.lease.attempt) == Some(record)
      modifies this
      ensures Valid() && Touched(record.lease.attempt) && FilesKept()
      ensures next.lease == record.lease && next.state == record.state && next.result.None? && next.transfer.Some?
      ensures alive && err == Nil ==> Lookup(journals, record.lease.attempt) == Some(next)
    {
      hide AllOk, IdentityOk;
      next := record;
      if record.transfer.Some? {
        return next, Nil;
      }
      var now: int := *;
      next := record.(transfer := Some(Progress(now, now + record.lease.timeoutMillis, false, None, [], Pending)));
      if alive {
        OnDisk(record.lease.attempt);
        NoIdentity(next, TheFiles(), Log(record.lease.attempt));
      }
      err := Save(next);
    }

    lemma NoIdentity(record: Journal, files: Files, log: seq<Event>)
      requires record.transfer.Some? && record.transfer.value.identity.None?
      ensures IdentityOk(record, files, log)
    {
    }

    /** The server refuses to let a transfer start or go on. */
    method RejectTransfer(record: Journal) returns (err: Error)
      requires Valid() && record.lease.kind == Deploy && record.transfer.Some? && !TransferCommitted(record)
      requires alive ==> Lookup(journals, record.lease.attempt) == Some(record) && Refused in Log(record.lease.attempt)
      requires alive ==> record.state != Completed && record.result.None?
      modifies this
      ensures Valid() && Touched(record.lease.attempt)
      ensures alive && err == Nil ==> record.lease.attempt !in journals
    {
      hide AllOk, AttemptOk, IdentityOk;
      if record.state == Leased {
        err := Remove(record.lease.attempt);
      } else {
        if alive {
          OnDisk(record.lease.attempt);
        }
        err := FinishTransfer(record, ErrCanceled);
      }
    }

    /** Asks the server and journals that the transfer is running. */
    method BeginTransfer(record: Journal) returns (next: Journal, finished: bool, err: Error)
      requires Valid() && HoldingDeploy(record) && ValidSize(record.lease.file.size) && !TransferCommitted(record)
      requires alive ==> Lookup(journals, record.lease.attempt) == Some(record)
      modifies this
      ensures Valid() && Touched(record.lease.attempt)
      ensures !finished ==> err == Nil && next == record.(state := Running) && Transferring(next)
      ensures !finished && alive ==> Lookup(journals, record.lease.attempt) == Some(next)
      ensures finished ==> next.lease == record.lease
      ensures finished && alive && err == Nil ==> record.lease.attempt !in journals
    {
      hide AllOk, AttemptOk, IdentityOk;
      var id := record.lease.attempt;
      next, finished := record, true;
      err := GatewayStart(record.lease);
      if err == ErrLeaseRejected {
        err := RejectTransfer(record);
        return;
      }
      if err != Nil {
        return;
      }
      next := record.(state := Running);
      if alive {
        OnDisk(id);
        AdmitRunning(hash, record, id in receipts, Log(id));
        SameIdentity(record, next, TheFiles(), Log(id));
      }
      err := Save(next);
      finished := err != Nil;
    }

    method PrepareTransfer(record: Journal) returns (next: Journal, finished: bool, err: Error)
      requires Valid() && HoldingDeploy(record) && ValidSize(record.lease.file.size)
      requires alive ==> Lookup(journals, record.lease.attempt) == Some(record)
      modifies this
      ensures Valid() && Touched(record.lease.attempt) && next.lease == record.lease
      ensures !finished ==> Transferring(next) && !TransferCommitted(next)
      ensures !finished && alive ==> Lookup(journals, record.lease.attempt) == Some(next)
      ensures finished && alive && err == Nil ==> record.lease.attempt !in journals
      ensures !finished ==> err == Nil
    {
      hide AllOk, AttemptOk, IdentityOk;
      var now: int, later: int := *, *;
      next, finished := record, true;
      if TransferCommitted(record) {
        err := FinishTransfer(record, Nil);
        return;
      }
      if now < record.transfer.value.startedAt {
        return next, true, ErrStorage;
      }
      if record.state != Leased && now >= record.transfer.value.deadlineAt {
        err := FinishTransfer(record, ErrTimeout);
        return;
      }
      next, finished, err := BeginTransfer(record);
      if !finished && later >= record.transfer.value.deadlineAt {
        finished := true;
        err := FinishTransfer(next, ErrTimeout);
      }
    }

    method ExecuteTransfer(record: Journal) returns (err: Error)
      requires Valid() && Transferring(record) && !TransferCommitted(record)
      requires alive ==> Lookup(journals, record.lease.attempt) == Some(record)
      modifies this
      ensures Valid() && Touched(record.lease.attempt)
      ensures alive && err == Nil ==> record.lease.attempt !in journals
    {
      hide AllOk, AttemptOk, IdentityOk;
      var next, transferErr := ExecuteJob(record);
      var cause: Error, parent: Error := *, *;  // why the heartbeat context ended, if it did
      if TransferCommitted(next) {
        err := FinishTransfer(next, Nil);
        return;
      }
      if parent != Nil {
        return parent;
      }
      if cause != Nil {
        transferErr := cause;
      }
      if transferErr == ErrTransport {
        return transferErr;
      }
      err := FinishTransfer(next, transferErr);
    }

    method RunTransfer(record: Journal) returns (err: Error)
      requires Valid() && record.lease.kind == Deploy && record.state != Completed && ValidJournal(record)
      requires alive ==> Lookup(journals, record.lease.attempt) == Some(record)
      modifies this
      ensures Valid() && Touched(record.lease.attempt)
      ensures alive && err == Nil ==> record.lease.attempt !in journals
    {
      hide AllOk, AttemptOk, IdentityOk;
      var refused: Error := *;
      if refused != Nil || !ValidSize(record.lease.file.size) {
        return ErrPolicy;
      }
      var current;
      current, err := EnsureTransferProgress(record);
      if err != Nil {
        return;
      }
      if alive {
        OnDisk(record.lease.attempt);
      }
      var finished;
      current, finished, err := PrepareTransfer(current);
      if finished {
        return;
      }
      err := ExecuteTransfer(current);
    }

    // ---- the worker loop (runner.go)

    method Resume(record: Journal) returns (err: Error)
      requires Valid() && ValidJournal(record)
      requires alive ==> Lookup(journals, record.lease.attempt) == Some(record)
      modifies this
      ensures Valid() && Touched(record.lease.attempt)
      ensures alive && err == Nil ==> record.lease.attempt !in journals
    {
      hide AllOk, AttemptOk, IdentityOk;
      if record.lease.kind == Deploy && record.state != Completed {
        err := RunTransfer(record);
        return;
      }
      match record.state {
        case Leased => err := Start(record);
        case Completed => err := Deliver(record);
        case _ =>
          var unkilled: Error, now: int := *, *;
          if unkilled != Nil {
            return unkilled;
          }
          if alive {
            OnDisk(record.lease.attempt);
          }
          err := Complete(record, TerminalResult(Interrupted, now, now));
      }
    }

    /** The limits on what runs at once, which admission and release keep. */
    predicate WithinLimits()
      reads this
    {
      |active| <= maxConcurrency && |Transfers(active)| <= MAXIMUM_TRANSFERS
    }

    /** Another goroutine may close the runner at any moment; closing is final. */
    method MayClose()
      modifies this`closed
      ensures old(closed) ==> closed
    {
      var close: bool := *;
      closed := closed || close;
    }

    /** Reserves a place for an attempt. Whoever is admitted runs alone for its attempt, within the
        concurrency limit and, for transfers, as one of at most two; nobody is turned away while
        the runner is open and a place for its kind is free. */
    method AdmitKind(id: Id, kind: Kind) returns (admitted: bool)
      requires WithinLimits()
      modifies this`active, this`closed
      ensures WithinLimits() && (old(closed) ==> closed)
      ensures admitted ==> !closed && id !in old(active) && id in active && active - {id} == old(active)
      ensures !admitted ==> active == old(active)
      ensures !admitted && !closed && id !in active ==>
                |active| == maxConcurrency || (kind == Deploy && |Transfers(active)| == MAXIMUM_TRANSFERS)
    {
      MayClose();
      if closed || id in active || |active| >= maxConcurrency {
        return false;
      }
      if kind == Deploy {
        var count := CountTransfers(active);
        if count >= MAXIMUM_TRANSFERS {
          return false;
        }
      }
      AdmitWithinLimits(active, id, kind);
      active := active[id := kind];
      return true;
    }

    method Release(id: Id)
      requires WithinLimits()
      modifies this`active
      ensures WithinLimits() && active == old(active) - {id}
    {
      ReleaseWithinLimits(active, id);
      active := active - {id};
    }

    method RecoverRecord(record: Journal) returns (err: Error)
      requires Valid() && ValidJournal(record) && active == map[]
      requires alive ==> Lookup(journals, record.lease.attempt) == Some(record)
      modifies this
      ensures Valid() && Touched(record.lease.attempt) && active == map[]
      ensures alive && err == Nil && !closed ==> record.lease.attempt !in journals
    {
      hide AllOk, AttemptOk, IdentityOk;
      var admitted := AdmitKind(record.lease.attempt, record.lease.kind);
      if !admitted {
        return Nil;
      }
      err := Resume(record);
      Release(record.lease.attempt);
    }

    /** Resumes every journaled attempt, in any order. */
    method Recover() returns (err: Error)
      requires Valid() && active == map[]
      modifies this
      ensures Valid() && active == map[] && (alive ==> old(alive))
      ensures alive && err == Nil && !closed ==> journals == map[]
    {
      hide AllOk, AttemptOk, IdentityOk;
      var unlisted: bool := *;
      if unlisted {
        return ErrStorage;
      }
      AllOnDisk();
      var records := journals;
      var remaining := records.Keys;
      while remaining != {}
        invariant Valid() && active == map[] && remaining <= records.Keys && (alive ==> old(alive))
        invariant forall id :: id in remaining ==> ValidJournal(records[id]) && records[id].lease.attempt == id
        invariant alive ==> forall id :: id in remaining ==> id in journals && journals[id] == records[id]
        invariant alive && !closed ==> journals.Keys == remaining
        decreases remaining
      {
        var id :| id in remaining;
        ghost var before := TheBooks();
        err := RecoverRecord(records[id]);
        remaining := remaining - {id};
        if err != Nil {
          return;
        }
        KeptElsewhere(id, before, TheBooks());
      }
      err := Nil;
    }

    lemma AllOnDisk()
      requires Valid()
      ensures forall id :: id in journals ==> ValidJournal(journals[id]) && journals[id].lease.attempt == id
    {
      forall id | id in journals
        ensures ValidJournal(journals[id]) && journals[id].lease.attempt == id
      {
        OnDisk(id);
      }
    }

    method AcceptLease(lease: Lease) returns (err: Error)
      requires Valid() && active == map[]
      requires alive ==> lease.attempt !in receipts
      modifies this
      ensures Valid() && Touched(lease.attempt) && active == map[]
      ensures alive && err == Nil ==> lease.attempt !in journals
    {
      hide AllOk, AttemptOk, IdentityOk;
      var admitted := AdmitKind(lease.attempt, lease.kind);
      if !admitted {
        return ErrPolicy;
      }
      err := LoadAndResume(lease);
      Release(lease.attempt);
    }

    method LoadAndResume(lease: Lease) returns (err: Error)
      requires Valid()
      requires alive ==> lease.attempt !in receipts
      modifies this
      ensures Valid() && Touched(lease.attempt)
      ensures alive && err == Nil ==> lease.attempt !in journals
    {
      hide AllOk, AttemptOk, IdentityOk;
      var unreadable: bool := *;
      if unreadable {
        return ErrStorage;
      }
      var record := Journal(Leased, lease, None, None);
      if lease.attempt in journals {
        record := journals[lease.attempt];
        OnDisk(lease.attempt);
      } else {
        if alive {
          NewAttempt(record);
        }
        err := Save(record);
        if err != Nil {
          return;
        }
        if alive {
          OnDisk(lease.attempt);
        }
      }
      if record.lease.nonce != lease.nonce {
        return ErrPolicy;
      }
      err := Resume(record);
    }

    lemma NewAttempt(record: Journal)
      requires Valid() && record.lease.attempt !in journals && record.lease.attempt !in receipts
      requires record.state == Leased && record.result.None? && record.transfer.None?
      ensures Admissible(record)
    {
      assert EntryOk(hash, TheBooks(), TheFiles(), record.lease.attempt);
    }

    /** One turn of the worker: recover what is journaled, then take at most one lease. The server
        may offer any lease, including one that was offered before. */
    method RunOnce() returns (err: Error)
      requires Valid() && active == map[]
      modifies this
      ensures Valid() && active == map[] && (alive ==> old(alive))
      ensures alive && err == Nil && !closed ==> journals == map[]
    {
      hide AllOk, AttemptOk, IdentityOk;
      var refused: Error, reply: Error, lease: Option<Lease> := *, *, *;
      if refused != Nil {
        return refused;
      }
      err := Recover();
      if err != Nil {
        return;
      }
      if reply != Nil || lease.None? {
        return reply;
      }
      var invalid: Error := *;  // an expired lease, or one the local policy forbids
      if invalid != Nil {
        return invalid;
      }
      var acknowledged;
      acknowledged, err := IsAcknowledged(lease.value.attempt);
      if err != Nil || acknowledged {
        return;
      }
      err := AcceptLease(lease.value);
      assert alive && err == Nil && !closed ==> journals - {lease.value.attempt} == map[] && journals == map[];
    }

    /** What a whole history of turns, crashes and restarts leaves behind: for every attempt the
        body ran at most once, all reports agree, nothing was lost, and deployment verdicts are
        honest. */
    method History(turns: nat)
      requires Valid() && active == map[]
      modifies this
      ensures Valid()
      ensures forall id :: Promises(hash, Log(id)) && Agrees(Lookup(journals, id), id in receipts, Log(id))
      ensures forall id :: id in journals && journals[id].state != Leased ==> Begun in Log(id)
    {
      hide AllOk, AttemptOk, IdentityOk;
      for turn := 0 to turns
        invariant Valid() && active == map[]
      {
        Interfere();
        MayClose();
        var err := RunOnce();
        if !alive || closed {
          alive, closed, active := true, false, map[];  // the next start of the process
        }
      }
      EveryPromise();
    }

    lemma EveryPromise()
      requires Valid()
      ensures forall id :: Promises(hash, Log(id)) && Agrees(Lookup(journals, id), id in receipts, Log(id))
      ensures forall id :: id in journals && journals[id].state != Leased ==> Begun in Log(id)
    {
      forall id: Id
        ensures Promises(hash, Log(id)) && Agrees(Lookup(journals, id), id in receipts, Log(id))
        ensures id in journals && journals[id].state != Leased ==> Begun in Log(id)
      {
        assert EntryOk(hash, TheBooks(), TheFiles(), id);
      }
    }
  }

  /** The whole-run theorem from an empty state directory on. */
  method RunFromStart(hash: seq<byte> -> Hash, turns: nat) returns (runner: Runner)
    ensures forall id :: Promises(hash, runner.Log(id))
    ensures forall id :: Agrees(Lookup(runner.journals, id), id in runner.receipts, runner.Log(id))
    ensures forall id :: id in runner.journals && runner.journals[id].state != Leased ==> Begun in runner.Log(id)
  {
    hide AllOk;
    runner := new Runner(hash);
    runner.History(turns);
  }
}
