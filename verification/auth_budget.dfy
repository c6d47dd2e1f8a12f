/** The password admission budget (internal/adminauth/auth_budget.go): fixed one-minute windows,
    in total and per source, and what they promise about every sliding minute. */
module AuthBudget {
  import opened Basics

  type Source = string
  type Instant = int  // nanoseconds

  const PASSWORD_CONCURRENT_LIMIT := 4
  const PASSWORD_REQUESTS_PER_MINUTE := 120
  const PASSWORD_REQUESTS_PER_SOURCE := 20
  const PASSWORD_BUDGET_SOURCES := 4096
  const PASSWORD_BUDGET_WINDOW := 60_000_000_000

  datatype Entry = Entry(start: Instant, requests: nat)

  /** An admitted check, with the start of the fixed window it was counted in. */
  datatype Stamp = Stamp(at: Instant, window: Instant)

  datatype Admission = Admission(source: Source, total: Stamp, own: Stamp)

  // ---- what fixed windows mean for a list of stamps

  /** Windows last one minute, do not overlap, come in order and hold at most `cap` stamps. */
  ghost predicate Windowed(stamps: seq<Stamp>, cap: nat) {
    && (forall i :: 0 <= i < |stamps| ==> stamps[i].window <= stamps[i].at < stamps[i].window + PASSWORD_BUDGET_WINDOW)
    && (forall i, j :: 0 <= i < j < |stamps| ==>
          stamps[i].at <= stamps[j].at &&
          (stamps[i].window == stamps[j].window || stamps[i].window + PASSWORD_BUDGET_WINDOW <= stamps[j].window))
    && (forall i, j :: 0 <= i <= j < |stamps| && j == i + cap ==> stamps[i].window != stamps[j].window)
  }

  /** How many stamps fall into the minute that begins at `from`. */
  function CountIn(stamps: seq<Stamp>, from: Instant): nat {
    if stamps == [] then 0
    else CountIn(stamps[..|stamps| - 1], from) +
         if from <= stamps[|stamps| - 1].at < from + PASSWORD_BUDGET_WINDOW then 1 else 0
  }

  lemma {:induction false} CountZero(stamps: seq<Stamp>, from: Instant)
    requires forall i :: 0 <= i < |stamps| ==> stamps[i].at < from
    ensures CountIn(stamps, from) == 0
  {
    if stamps != [] {
      CountZero(stamps[..|stamps| - 1], from);
    }
  }

  /** The count is at most the number of stamps after the first `skip` that lie before `from`. */
  lemma {:induction false} CountAfter(stamps: seq<Stamp>, from: Instant, skip: nat)
    requires skip <= |stamps|
    requires forall i :: 0 <= i < skip ==> stamps[i].at < from
    ensures CountIn(stamps, from) <= |stamps| - skip
  {
    if skip == |stamps| {
      CountZero(stamps, from);
    } else {
      CountAfter(stamps[..|stamps| - 1], from, skip);
    }
  }

  lemma WindowedPrefix(stamps: seq<Stamp>, cap: nat)
    requires Windowed(stamps, cap) && stamps != []
    ensures Windowed(stamps[..|stamps| - 1], cap)
  {
    var shorter := stamps[..|stamps| - 1];
    forall i | 0 <= i && i + cap < |shorter|
      ensures shorter[i].window != shorter[i + cap].window
    {
      assert shorter[i] == stamps[i] && shorter[i + cap] == stamps[i + cap];
    }
  }

  /** A half-open sliding minute meets at most two fixed windows, so it holds at most twice the cap. */
  lemma {:induction false} SlidingBound(stamps: seq<Stamp>, cap: nat, from: Instant)
    requires Windowed(stamps, cap)
    ensures CountIn(stamps, from) <= 2 * cap
  {
    var n := |stamps|;
    if n == 0 {
    } else if from <= stamps[n - 1].at < from + PASSWORD_BUDGET_WINDOW {
      var skip := if n <= 2 * cap then 0 else n - 2 * cap;
      forall i | 0 <= i < skip
        ensures stamps[i].at < from
      {
        assert stamps[i].window != stamps[i + cap].window;
        assert stamps[i + cap].window != stamps[i + cap + cap].window;
        assert stamps[i + cap + cap].window <= stamps[n - 1].at;
      }
      CountAfter(stamps, from, skip);
    } else {
      WindowedPrefix(stamps, cap);
      SlidingBound(stamps[..n - 1], cap, from);
    }
  }

  predicate Opens(stamps: seq<Stamp>, i: nat)
    requires i < |stamps|
  {
    i == 0 || stamps[i - 1].window != stamps[i].window
  }

  /** Every window begins with a stamp at its own start. */
  ghost predicate Anchored(stamps: seq<Stamp>) {
    forall i :: 0 <= i < |stamps| && Opens(stamps, i) ==> stamps[i].at == stamps[i].window
  }

  lemma AnchoredPrefix(stamps: seq<Stamp>)
    requires Anchored(stamps) && stamps != []
    ensures Anchored(stamps[..|stamps| - 1])
  {
    var shorter := stamps[..|stamps| - 1];
    forall i | 0 <= i < |shorter| && Opens(shorter, i)
      ensures shorter[i].at == shorter[i].window
    {
      assert Opens(stamps, i);
    }
  }

  /** A stamp continues the last window, or opens a new one at its start. */
  lemma AnchoredAppend(stamps: seq<Stamp>, stamp: Stamp)
    requires Anchored(stamps)
    requires stamp.at == stamp.window || (stamps != [] && stamps[|stamps| - 1].window == stamp.window)
    ensures Anchored(stamps + [stamp])
  {
    var longer := stamps + [stamp];
    forall i | 0 <= i < |longer| && Opens(longer, i)
      ensures longer[i].at == longer[i].window
    {
      assert i < |stamps| ==> Opens(stamps, i);
    }
  }

  /** The stamp twice the cap before the end of such a list lies a full minute before the last one. */
  lemma AnchoredOld(stamps: seq<Stamp>, cap: nat, i: nat)
    requires Windowed(stamps, cap) && Anchored(stamps) && cap > 0 && i + 2 * cap <= |stamps|
    ensures stamps[i].at + PASSWORD_BUDGET_WINDOW <= stamps[|stamps| - 1].at
  {
    var middle, last := i + cap - 1, |stamps| - 1;
    assert stamps[middle].window != stamps[middle + cap].window;
    assert stamps[middle + cap].window <= stamps[last].window;
    if stamps[i].window == stamps[middle].window {
      assert i > 0 ==> stamps[i - 1].window != stamps[i - 1 + cap].window;
      assert Opens(stamps, i);
    }
  }

  /** Anchored windows lose one: a minute that reaches into the next window misses the first stamp
      of the window before. */
  lemma {:induction false} AnchoredBound(stamps: seq<Stamp>, cap: nat, from: Instant)
    requires Windowed(stamps, cap) && Anchored(stamps) && cap > 0
    ensures CountIn(stamps, from) <= 2 * cap - 1
  {
    var n := |stamps|;
    if n == 0 {
    } else if from <= stamps[n - 1].at < from + PASSWORD_BUDGET_WINDOW {
      var skip := if n <= 2 * cap - 1 then 0 else n - (2 * cap - 1);
      forall i | 0 <= i < skip
        ensures stamps[i].at < from
      {
        AnchoredOld(stamps, cap, i);
      }
      CountAfter(stamps, from, skip);
    } else {
      WindowedPrefix(stamps, cap);
      AnchoredPrefix(stamps);
      AnchoredBound(stamps[..n - 1], cap, from);
    }
  }

  /** The last `count` stamps belong to the window that began at `start`; all others are older. */
  ghost predicate Current(stamps: seq<Stamp>, start: Instant, count: nat) {
    && count <= |stamps|
    && (forall i :: |stamps| - count <= i < |stamps| ==> stamps[i].window == start)
    && (forall i :: 0 <= i < |stamps| - count ==> stamps[i].window + PASSWORD_BUDGET_WINDOW <= start)
  }

  /** Counting one more check in the current window, or in a fresh one. */
  lemma StampAdmitted(stamps: seq<Stamp>, cap: nat, start: Instant, count: nat, now: Instant)
    requires Windowed(stamps, cap) && Current(stamps, start, count) && count < cap
    requires start <= now < start + PASSWORD_BUDGET_WINDOW
    requires forall i :: 0 <= i < |stamps| ==> stamps[i].at <= now
    ensures Windowed(stamps + [Stamp(now, start)], cap) && Current(stamps + [Stamp(now, start)], start, count + 1)
  {
    var longer := stamps + [Stamp(now, start)];
    forall i, j | 0 <= i <= j < |longer| && j == i + cap
      ensures longer[i].window != longer[j].window
    {
      if j < |stamps| {
        assert stamps[i].window != stamps[j].window;
      }
    }
  }

  // ---- the log of all admissions

  function Totals(log: seq<Admission>): (stamps: seq<Stamp>)
    ensures |stamps| == |log|
    ensures forall i :: 0 <= i < |log| ==> stamps[i] == log[i].total
  {
    seq(|log|, i requires 0 <= i < |log| => log[i].total)
  }

  function Owns(log: seq<Admission>, source: Source): seq<Stamp> {
    if log == [] then []
    else Owns(log[..|log| - 1], source) + if log[|log| - 1].source == source then [log[|log| - 1].own] else []
  }

  lemma {:induction false} OwnsAppend(log: seq<Admission>, admission: Admission, source: Source)
    ensures Owns(log + [admission], source) ==
            Owns(log, source) + if admission.source == source then [admission.own] else []
  {
    assert (log + [admission])[..|log|] == log;
  }

  lemma TotalsAppend(log: seq<Admission>, admission: Admission)
    ensures Totals(log + [admission]) == Totals(log) + [admission.total]
  {
  }

  ghost predicate Past(stamps: seq<Stamp>, clock: Instant) {
    forall i :: 0 <= i < |stamps| ==> stamps[i].at <= clock
  }

  /** One source: its entry counts its current window; without an entry every window is over. */
  ghost predicate SourceOk(stamps: seq<Stamp>, entry: Option<Entry>, clock: Instant) {
    && Windowed(stamps, PASSWORD_REQUESTS_PER_SOURCE) && Anchored(stamps) && Past(stamps, clock)
    && match entry
       case Some(e) =>
         Current(stamps, e.start, e.requests) && e.start <= clock && 1 <= e.requests <= PASSWORD_REQUESTS_PER_SOURCE
       case None => forall i :: 0 <= i < |stamps| ==> stamps[i].window + PASSWORD_BUDGET_WINDOW <= clock
  }

  ghost predicate TotalOk(stamps: seq<Stamp>, start: Option<Instant>, requests: nat, clock: Instant) {
    && Windowed(stamps, PASSWORD_REQUESTS_PER_MINUTE) && Past(stamps, clock)
    && requests <= PASSWORD_REQUESTS_PER_MINUTE
    && match start
       case Some(s) => Current(stamps, s, requests) && s <= clock
       case None => stamps == [] && requests == 0
  }

  function Find(entries: map<Source, Entry>, source: Source): Option<Entry> {
    if source in entries then Some(entries[source]) else None
  }

  lemma LaterSource(stamps: seq<Stamp>, entry: Option<Entry>, clock: Instant, now: Instant)
    requires SourceOk(stamps, entry, clock) && clock <= now
    ensures SourceOk(stamps, entry, now)
    ensures entry.Some? && now - entry.value.start >= PASSWORD_BUDGET_WINDOW ==> SourceOk(stamps, None, now)
  {
  }

  lemma AdmitSource(stamps: seq<Stamp>, entry: Option<Entry>, now: Instant)
    requires SourceOk(stamps, entry, now)
    requires entry.Some? ==>
               now - entry.value.start < PASSWORD_BUDGET_WINDOW && entry.value.requests < PASSWORD_REQUESTS_PER_SOURCE
    ensures var counted := if entry.Some? then Entry(entry.value.start, entry.value.requests + 1) else Entry(now, 1);
            SourceOk(stamps + [Stamp(now, counted.start)], Some(counted), now)
  {
    hide Anchored, Windowed;
    AnchoredAppend(stamps, Stamp(now, if entry.Some? then entry.value.start else now));
    if entry.Some? {
      StampAdmitted(stamps, PASSWORD_REQUESTS_PER_SOURCE, entry.value.start, entry.value.requests, now);
    } else {
      StampAdmitted(stamps, PASSWORD_REQUESTS_PER_SOURCE, now, 0, now);
    }
  }

  ghost predicate AllSources(log: seq<Admission>, entries: map<Source, Entry>, clock: Instant) {
    forall source :: SourceOk(Owns(log, source), Find(entries, source), clock)
  }

  /** The entries whose window is not over. */
  function Live(entries: map<Source, Entry>, now: Instant): map<Source, Entry> {
    map source | source in entries && now - entries[source].start < PASSWORD_BUDGET_WINDOW :: entries[source]
  }

  lemma PruneSources(log: seq<Admission>, entries: map<Source, Entry>, clock: Instant, now: Instant)
    requires AllSources(log, entries, clock) && clock <= now
    ensures AllSources(log, Live(entries, now), now)
  {
    forall source
      ensures SourceOk(Owns(log, source), Find(Live(entries, now), source), now)
    {
      LaterSource(Owns(log, source), Find(entries, source), clock, now);
    }
  }

  lemma PruneTotal(stamps: seq<Stamp>, start: Option<Instant>, requests: nat, clock: Instant, now: Instant)
    requires TotalOk(stamps, start, requests, clock) && clock <= now
    ensures TotalOk(stamps, start, requests, now)
    ensures start.None? || now - start.value >= PASSWORD_BUDGET_WINDOW ==> TotalOk(stamps, Some(now), 0, now)
  {
  }

  lemma AdmitTotal(log: seq<Admission>, start: Instant, requests: nat, now: Instant, admission: Admission)
    requires TotalOk(Totals(log), Some(start), requests, now) && requests < PASSWORD_REQUESTS_PER_MINUTE
    requires now < start + PASSWORD_BUDGET_WINDOW && admission.total == Stamp(now, start)
    ensures TotalOk(Totals(log + [admission]), Some(start), requests + 1, now)
  {
    TotalsAppend(log, admission);
    StampAdmitted(Totals(log), PASSWORD_REQUESTS_PER_MINUTE, start, requests, now);
  }

  lemma AdmitSources(log: seq<Admission>, entries: map<Source, Entry>, source: Source, entry: Entry, now: Instant,
                     admission: Admission)
    requires AllSources(log, entries, now)
    requires entry == if source in entries then entries[source] else Entry(now, 0)
    requires now - entry.start < PASSWORD_BUDGET_WINDOW && entry.requests < PASSWORD_REQUESTS_PER_SOURCE
    requires admission.source == source && admission.own == Stamp(now, entry.start)
    ensures AllSources(log + [admission], entries[source := Entry(entry.start, entry.requests + 1)], now)
  {
    hide SourceOk;
    forall x
      ensures SourceOk(Owns(log + [admission], x), Find(entries[source := Entry(entry.start, entry.requests + 1)], x),
                       now)
    {
      OwnsAppend(log, admission, x);
      assert SourceOk(Owns(log, x), Find(entries, x), now);
      if x == source {
        AdmitSource(Owns(log, x), Find(entries, x), now);
      } else {
        assert Owns(log + [admission], x) == Owns(log, x);
      }
    }
  }

  /** The release function handed to an admitted caller: the second call does nothing. */
  class Release {
    const budget: Budget
    var done: bool

    constructor (budget: Budget)
      ensures this.budget == budget && !done
    {
      this.budget := budget;
      done := false;
    }

    method Call()
      requires budget.Valid() && Tracked(budget, budget.issued, budget.outstanding) && this in budget.issued
      modifies this, budget
      ensures budget.Valid() && Tracked(budget, budget.issued, budget.outstanding)
      ensures done && budget.outstanding == old(budget.outstanding) - {this}
      ensures budget.log == old(budget.log) && budget.issued == old(budget.issued)
      ensures budget.ordered == old(budget.ordered)
      ensures budget.active == old(budget.active) - if old(done) then 0 else 1
      ensures budget.entries == old(budget.entries) && budget.start == old(budget.start)
      ensures budget.requests == old(budget.requests) && budget.clock == old(budget.clock)
    {
      if !done {
        done := true;
        budget.active := budget.active - 1;
        budget.outstanding := budget.outstanding - {this};
      }
    }
  }

  lemma OneMoreSource(entries: map<Source, Entry>, source: Source, entry: Entry)
    ensures |entries[source := entry]| == if source in entries then |entries| else |entries| + 1
  {
    assert entries[source := entry].Keys == entries.Keys + {source};
  }

  lemma LiveEntries(entries: map<Source, Entry>, now: Instant)
    ensures forall source :: source in Live(entries, now) ==>
              now - Live(entries, now)[source].start < PASSWORD_BUDGET_WINDOW
  {
  }

  /** The total window that is open at `now`. */
  function WindowStart(start: Option<Instant>, now: Instant): Instant {
    if start.Some? && now - start.value < PASSWORD_BUDGET_WINDOW then start.value else now
  }

  function WindowRequests(start: Option<Instant>, requests: nat, now: Instant): nat {
    if start.Some? && now - start.value < PASSWORD_BUDGET_WINDOW then requests else 0
  }

  /** The entry of a source, or a new one that counts nothing yet. */
  function EntryFor(live: map<Source, Entry>, source: Source, now: Instant): Entry {
    if source in live then live[source] else Entry(now, 0)
  }

  /** The entries after one more check of the source. */
  function Counted(live: map<Source, Entry>, source: Source, now: Instant): map<Source, Entry> {
    live[source := Entry(EntryFor(live, source, now).start, EntryFor(live, source, now).requests + 1)]
  }

  /** When a check is refused, given the entries that are still live. */
  predicate Refused(active: int, start: Option<Instant>, requests: nat, live: map<Source, Entry>, source: Source,
                    now: Instant) {
    || active >= PASSWORD_CONCURRENT_LIMIT
    || (start.Some? && now - start.value < PASSWORD_BUDGET_WINDOW && requests >= PASSWORD_REQUESTS_PER_MINUTE)
    || (source in live && live[source].requests >= PASSWORD_REQUESTS_PER_SOURCE)
    || (source !in live && |live| >= PASSWORD_BUDGET_SOURCES)
  }

  /** The pruning loop over the entries. */
  method DropEnded(entries: map<Source, Entry>, now: Instant) returns (kept: map<Source, Entry>)
    ensures kept == Live(entries, now) && |kept| <= |entries|
  {
    kept := entries;
    var remaining := entries.Keys;
    while remaining != {}
      invariant remaining <= entries.Keys && |kept.Keys| <= |entries.Keys|
      invariant kept == map source | source in entries &&
                          (source in remaining || now - entries[source].start < PASSWORD_BUDGET_WINDOW) ::
                            entries[source]
      decreases remaining
    {
      var source :| source in remaining;
      if now - entries[source].start >= PASSWORD_BUDGET_WINDOW {
        assert (kept - {source}).Keys == kept.Keys - {source};
        kept := kept - {source};
      }
      remaining := remaining - {source};
    }
  }

  /** The log and the windows agree. */
  ghost predicate HistoryOk(log: seq<Admission>, start: Option<Instant>, requests: nat, entries: map<Source, Entry>,
                            clock: Instant) {
    TotalOk(Totals(log), start, requests, clock) && AllSources(log, entries, clock)
  }

  lemma HistoryPruned(log: seq<Admission>, start: Option<Instant>, requests: nat, entries: map<Source, Entry>,
                      clock: Instant, now: Instant)
    requires HistoryOk(log, start, requests, entries, clock) && clock <= now
    ensures HistoryOk(log, Some(WindowStart(start, now)), WindowRequests(start, requests, now), Live(entries, now), now)
  {
    hide TotalOk, AllSources, Totals, Live;
    PruneTotal(Totals(log), start, requests, clock, now);
    PruneSources(log, entries, clock, now);
  }

  lemma HistoryAdmitted(log: seq<Admission>, start: Instant, requests: nat, entries: map<Source, Entry>, source: Source,
                        entry: Entry, now: Instant)
    requires HistoryOk(log, Some(start), requests, entries, now)
    requires requests < PASSWORD_REQUESTS_PER_MINUTE && now < start + PASSWORD_BUDGET_WINDOW
    requires entry == if source in entries then entries[source] else Entry(now, 0)
    requires now - entry.start < PASSWORD_BUDGET_WINDOW && entry.requests < PASSWORD_REQUESTS_PER_SOURCE
    ensures HistoryOk(log + [Admission(source, Stamp(now, start), Stamp(now, entry.start))], Some(start), requests + 1,
                      entries[source := Entry(entry.start, entry.requests + 1)], now)
  {
    hide TotalOk, AllSources, Totals;
    var admission := Admission(source, Stamp(now, start), Stamp(now, entry.start));
    AdmitTotal(log, start, requests, now, admission);
    AdmitSources(log, entries, source, entry, now, admission);
  }

  /** The limits on running checks, on the total window, on the sources and on each of them. */
  ghost predicate LimitsOk(active: int, requests: nat, entries: map<Source, Entry>) {
    && active <= PASSWORD_CONCURRENT_LIMIT && requests <= PASSWORD_REQUESTS_PER_MINUTE
    && |entries| <= PASSWORD_BUDGET_SOURCES
    && forall source :: source in entries ==> entries[source].requests <= PASSWORD_REQUESTS_PER_SOURCE
  }

  lemma LimitsAdmitted(active: int, requests: nat, entries: map<Source, Entry>, source: Source, entry: Entry)
    requires LimitsOk(active, requests, entries)
    requires active < PASSWORD_CONCURRENT_LIMIT && requests < PASSWORD_REQUESTS_PER_MINUTE
    requires source in entries || |entries| < PASSWORD_BUDGET_SOURCES
    requires entry.requests < PASSWORD_REQUESTS_PER_SOURCE
    ensures LimitsOk(active + 1, requests + 1,
                     entries[source := Entry(entry.start, entry.requests + 1)])
  {
    OneMoreSource(entries, source, Entry(entry.start, entry.requests + 1));
  }

  ghost predicate StateOk(ordered: bool, log: seq<Admission>, start: Option<Instant>, requests: nat,
                          entries: map<Source, Entry>, active: int, clock: Instant) {
    (ordered ==> HistoryOk(log, start, requests, entries, clock)) && LimitsOk(active, requests, entries)
  }

  lemma StateAdmitted(ordered: bool, log: seq<Admission>, start: Instant, requests: nat, entries: map<Source, Entry>,
                      active: int, source: Source, entry: Entry, now: Instant)
    requires StateOk(ordered, log, Some(start), requests, entries, active, now)
    requires active < PASSWORD_CONCURRENT_LIMIT && requests < PASSWORD_REQUESTS_PER_MINUTE
    requires now < start + PASSWORD_BUDGET_WINDOW
    requires entry == if source in entries then entries[source] else Entry(now, 0)
    requires now - entry.start < PASSWORD_BUDGET_WINDOW && entry.requests < PASSWORD_REQUESTS_PER_SOURCE
    requires source in entries || |entries| < PASSWORD_BUDGET_SOURCES
    ensures StateOk(ordered, log + [Admission(source, Stamp(now, start), Stamp(now, entry.start))], Some(start),
                    requests + 1, entries[source := Entry(entry.start, entry.requests + 1)], active + 1, now)
  {
    hide HistoryOk, LimitsOk;
    if ordered {
      HistoryAdmitted(log, start, requests, entries, source, entry, now);
    }
    LimitsAdmitted(active, requests, entries, source, entry);
  }

  lemma LimitsPruned(active: int, requests: nat, entries: map<Source, Entry>, now: Instant)
    requires LimitsOk(active, requests, entries) && |Live(entries, now)| <= |entries|
    ensures LimitsOk(active, requests, Live(entries, now)) && LimitsOk(active, 0, Live(entries, now))
  {
  }

  /** The checks that run are those whose release has not taken effect. */
  ghost predicate Tracked(budget: Budget, issued: set<Release>, outstanding: set<Release>)
    reads issued
  {
    && outstanding <= issued
    && forall release :: release in issued ==> release.budget == budget && (release in outstanding <==> !release.done)
  }

  ghost predicate SizeIs(releases: set<Release>, size: int) {
    |releases| == size
  }

  class Budget {
    var entries: map<Source, Entry>
    var start: Option<Instant>
    var requests: nat
    var active: int
    ghost var log: seq<Admission>
    ghost var issued: set<Release>
    ghost var outstanding: set<Release>
    ghost var clock: Instant
    ghost var ordered: bool

    constructor ()
      ensures Valid() && Tracked(this, issued, outstanding)
      ensures log == [] && issued == outstanding == {} && entries == map[] && start == None && clock == 0
      ensures ordered && active == 0
    {
      entries, start, requests, active := map[], None, 0, 0;
      log, issued, outstanding, clock, ordered := [], {}, {}, 0, true;
    }

    /** The limits hold always; what the log says of windows holds as long as the calls arrive in the
        order in which they read the clock. */
    ghost predicate Valid()
      reads this
    {
      && StateOk(ordered, log, start, requests, entries, active, clock)
      && SizeIs(outstanding, active)
    }

    /** Ends windows that are over. */
    method Prune(now: Instant)
      requires Valid()
      modifies this`entries, this`start, this`requests, this`clock, this`ordered
      ensures Valid() && clock == now && ordered == (old(ordered) && old(clock) <= now)
      ensures entries == Live(old(entries), now) && start == Some(WindowStart(old(start), now))
      ensures requests == WindowRequests(old(start), old(requests), now)
    {
      hide HistoryOk, Live, LimitsOk, SizeIs;
      ordered := ordered && clock <= now;
      if ordered {
        HistoryPruned(log, start, requests, entries, clock, now);
      }
      if start.None? || now - start.value >= PASSWORD_BUDGET_WINDOW {
        start, requests := Some(now), 0;
      }
      entries := DropEnded(entries, now);
      LimitsPruned(active, old(requests), old(entries), now);
      clock := now;
    }

    /** Admits a password check, or refuses it without counting it. */
    method Acquire(source: Source, now: Instant) returns (release: Release?)
      requires Valid() && Tracked(this, issued, outstanding)
      modifies this
      ensures Valid() && Tracked(this, issued, outstanding)
      ensures clock == now && ordered == (old(ordered) && old(clock) <= now)
      ensures release == null ==> log == old(log) && outstanding == old(outstanding) && issued == old(issued)
      ensures release != null ==>
                fresh(release) && release.budget == this && !release.done &&
                outstanding == old(outstanding) + {release} && issued == old(issued) + {release} &&
                start.Some? && source in entries &&
                log == old(log) + [Admission(source, Stamp(now, start.value), Stamp(now, entries[source].start))]
      ensures start == Some(WindowStart(old(start), now))
      ensures requests == WindowRequests(old(start), old(requests), now) + if release == null then 0 else 1
      ensures active == old(active) + if release == null then 0 else 1
      ensures release == null ==> entries == Live(old(entries), now)
      ensures release != null ==> entries == Counted(Live(old(entries), now), source, now)
      ensures release == null <==> Refused(old(active), old(start), old(requests), Live(old(entries), now), source, now)
    {
      hide StateOk, Live, SizeIs, Tracked, Counted;
      Prune(now);
      var present := source in entries;
      assert present ==> now - entries[source].start < PASSWORD_BUDGET_WINDOW by {
        LiveEntries(old(entries), now);
      }
      var entry := EntryFor(entries, source, now);
      if active >= PASSWORD_CONCURRENT_LIMIT || requests >= PASSWORD_REQUESTS_PER_MINUTE
         || entry.requests >= PASSWORD_REQUESTS_PER_SOURCE || (!present && |entries| >= PASSWORD_BUDGET_SOURCES) {
        return null;
      }
      Count(source, entry, now);
      release := Track();
    }

    /** One more check runs; its release is what ends it. */
    method Track() returns (release: Release)
      requires SizeIs(outstanding, active - 1) && Tracked(this, issued, outstanding)
      modifies this`outstanding, this`issued
      ensures fresh(release) && release.budget == this && !release.done
      ensures SizeIs(outstanding, active) && Tracked(this, issued, outstanding)
      ensures outstanding == old(outstanding) + {release} && issued == old(issued) + {release}
    {
      release := new Release(this);
      outstanding, issued := outstanding + {release}, issued + {release};
    }

    method Count(source: Source, entry: Entry, now: Instant)
      requires StateOk(ordered, log, start, requests, entries, active, clock)
      requires clock == now && start.Some? && now < start.value + PASSWORD_BUDGET_WINDOW
      requires active < PASSWORD_CONCURRENT_LIMIT && requests < PASSWORD_REQUESTS_PER_MINUTE
      requires entry == EntryFor(entries, source, now)
      requires now - entry.start < PASSWORD_BUDGET_WINDOW && entry.requests < PASSWORD_REQUESTS_PER_SOURCE
      requires source in entries || |entries| < PASSWORD_BUDGET_SOURCES
      modifies this`entries, this`requests, this`active, this`log
      ensures StateOk(ordered, log, start, requests, entries, active, clock)
      ensures requests == old(requests) + 1 && active == old(active) + 1
      ensures entries == Counted(old(entries), source, now) && source in entries && entries[source].start == entry.start
      ensures log == old(log) + [Admission(source, Stamp(now, start.value), Stamp(now, entry.start))]
    {
      hide StateOk;
      StateAdmitted(ordered, log, start.value, requests, entries, active, source, entry, now);
      log := log + [Admission(source, Stamp(now, start.value), Stamp(now, entry.start))];
      entries := entries[source := Entry(entry.start, entry.requests + 1)];
      requests, active := requests + 1, active + 1;
    }

    /** The bound that callers rely on, in every reachable state and for every sliding minute. */
    lemma SlidingMinute(from: Instant)
      requires Valid() && ordered
      ensures CountIn(Totals(log), from) <= 2 * PASSWORD_REQUESTS_PER_MINUTE
      ensures forall source :: CountIn(Owns(log, source), from) <= 2 * PASSWORD_REQUESTS_PER_SOURCE - 1
    {
      SlidingBound(Totals(log), PASSWORD_REQUESTS_PER_MINUTE, from);
      forall source
        ensures CountIn(Owns(log, source), from) <= 2 * PASSWORD_REQUESTS_PER_SOURCE - 1
      {
        assert SourceOk(Owns(log, source), Find(entries, source), clock);
        AnchoredBound(Owns(log, source), PASSWORD_REQUESTS_PER_SOURCE, from);
      }
    }
  }
}
