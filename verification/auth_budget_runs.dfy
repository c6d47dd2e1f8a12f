/** Runs of the password budget: its bounds for a sliding minute in every run, and runs that reach them. */
module AuthBudgetRuns {
  import opened Basics
  import opened AuthBudget

  /** Any run of checks and of releases, also repeated ones, with any readings of the clock: the limits
      hold, and if the calls arrive in the order of their readings so do the bounds for every minute. */
  method RunFromStart(steps: nat) returns (budget: Budget)
    ensures budget.Valid()
    ensures budget.ordered ==> forall from :: CountIn(Totals(budget.log), from) <= 2 * PASSWORD_REQUESTS_PER_MINUTE
    ensures budget.ordered ==> forall from, source ::
              CountIn(Owns(budget.log, source), from) <= 2 * PASSWORD_REQUESTS_PER_SOURCE - 1
  {
    hide Budget.Valid, Tracked, Counted, Refused, Live;
    budget := new Budget();
    var releases: set<Release> := {};
    for step := 0 to steps
      invariant fresh(budget) && fresh(releases) && releases == budget.issued
      invariant budget.Valid() && Tracked(budget, budget.issued, budget.outstanding)
      invariant forall release :: release in releases ==> release.budget == budget
    {
      var check: bool := *;
      if check {
        var source: Source := *;
        var now: Instant := *;
        var release := budget.Acquire(source, now);
        if release != null {
          releases := releases + {release};
        }
      } else if releases != {} {
        var release :| release in releases;
        release.Call();
      }
    }
    if budget.ordered {
      EveryMinute(budget);
    }
  }

  lemma EveryMinute(budget: Budget)
    requires budget.Valid() && budget.ordered
    ensures forall from :: CountIn(Totals(budget.log), from) <= 2 * PASSWORD_REQUESTS_PER_MINUTE
    ensures forall from, source :: CountIn(Owns(budget.log, source), from) <= 2 * PASSWORD_REQUESTS_PER_SOURCE - 1
  {
    hide Budget.Valid;
    forall from
      ensures CountIn(Totals(budget.log), from) <= 2 * PASSWORD_REQUESTS_PER_MINUTE
    {
      budget.SlidingMinute(from);
    }
    forall from, source
      ensures CountIn(Owns(budget.log, source), from) <= 2 * PASSWORD_REQUESTS_PER_SOURCE - 1
    {
      budget.SlidingMinute(from);
    }
  }

  predicate Within(at: Instant, from: Instant) {
    from <= at < from + PASSWORD_BUDGET_WINDOW
  }

  lemma CountAppend(stamps: seq<Stamp>, stamp: Stamp, from: Instant)
    ensures CountIn(stamps + [stamp], from) == CountIn(stamps, from) + if Within(stamp.at, from) then 1 else 0
  {
    assert (stamps + [stamp])[..|stamps|] == stamps;
  }

  lemma LogAppend(log: seq<Admission>, admission: Admission, from: Instant, source: Source)
    ensures CountIn(Totals(log + [admission]), from) ==
            CountIn(Totals(log), from) + if Within(admission.total.at, from) then 1 else 0
    ensures CountIn(Owns(log + [admission], source), from) ==
            CountIn(Owns(log, source), from) +
              if admission.source == source && Within(admission.own.at, from) then 1 else 0
  {
    TotalsAppend(log, admission);
    CountAppend(Totals(log), admission.total, from);
    OwnsAppend(log, admission, source);
    if admission.source == source {
      CountAppend(Owns(log, source), admission.own, from);
    } else {
      assert Owns(log, source) + [] == Owns(log, source);
    }
  }

  function Hits(count: nat, now: Instant, from: Instant): nat {
    if Within(now, from) then count else 0
  }

  /** At `now` the total window that began at `start` is open and holds `requests` checks. */
  ghost predicate At(budget: Budget, now: Instant, start: Instant, requests: nat)
    reads budget
  {
    && budget.ordered && budget.clock <= now && WindowStart(budget.start, now) == start
    && WindowRequests(budget.start, budget.requests, now) == requests
  }

  /** A valid budget at `now` without running checks. */
  ghost predicate Ready(budget: Budget, now: Instant, start: Instant, requests: nat)
    reads budget, budget.issued
  {
    && budget.Valid() && Tracked(budget, budget.issued, budget.outstanding)
    && At(budget, now, start, requests) && budget.outstanding == {}
  }

  /** The window after the one that is open. */
  lemma NextWindow(budget: Budget, now: Instant, start: Instant, requests: nat)
    requires Ready(budget, now, start, requests) && start <= now < start + PASSWORD_BUDGET_WINDOW
    requires now == start ==> budget.start.Some?
    ensures Ready(budget, start + PASSWORD_BUDGET_WINDOW, start + PASSWORD_BUDGET_WINDOW, 0)
  {
  }

  lemma LiveSize(entries: map<Source, Entry>, now: Instant)
    ensures Live(entries, now).Keys <= entries.Keys && |Live(entries, now)| <= |entries|
  {
    SubsetSize(Live(entries, now).Keys, entries.Keys);
  }

  /** What is live stays live at the same instant. */
  lemma LiveAgain(entries: map<Source, Entry>, source: Source, requests: nat, now: Instant)
    ensures Live(Several(Live(entries, now), source, now, requests), now) ==
            Several(Live(entries, now), source, now, requests)
  {
  }

  /** The entries after `count` more checks of the source. */
  function Several(live: map<Source, Entry>, source: Source, now: Instant, count: nat): map<Source, Entry> {
    live[source := Entry(EntryFor(live, source, now).start, EntryFor(live, source, now).requests + count)]
  }

  lemma OneMore(live: map<Source, Entry>, source: Source, now: Instant, count: nat)
    ensures Counted(Several(live, source, now, count), source, now) == Several(live, source, now, count + 1)
    ensures EntryFor(Several(live, source, now, count), source, now).requests ==
            EntryFor(live, source, now).requests + count
  {
  }

  lemma Idle(budget: Budget)
    requires budget.Valid() && budget.outstanding == {}
    ensures budget.active == 0
  {
  }

  /** One admitted check and its release. */
  method OneCheck(budget: Budget, source: Source, now: Instant, ghost start: Instant, ghost requests: nat,
                  ghost from: Instant)
    requires Ready(budget, now, start, requests)
    requires requests < PASSWORD_REQUESTS_PER_MINUTE
    requires EntryFor(Live(budget.entries, now), source, now).requests < PASSWORD_REQUESTS_PER_SOURCE
    requires source in Live(budget.entries, now) || |Live(budget.entries, now)| < PASSWORD_BUDGET_SOURCES
    modifies budget
    ensures Ready(budget, now, start, requests + 1)
    ensures budget.entries == Counted(Live(old(budget.entries), now), source, now)
    ensures CountIn(Totals(budget.log), from) == old(CountIn(Totals(budget.log), from)) + Hits(1, now, from)
    ensures CountIn(Owns(budget.log, source), from) == old(CountIn(Owns(budget.log, source), from)) + Hits(1, now, from)
  {
    hide Live, Budget.Valid, Tracked, Totals, CountIn, Owns, Counted;
    Idle(budget);
    ghost var before := budget.log;
    var release := budget.Acquire(source, now);
    LogAppend(before, budget.log[|before|], from, source);
    release.Call();
  }

  /** Checks of one source, one after the other at one instant, all admitted. */
  method Burst(budget: Budget, source: Source, count: nat, now: Instant, ghost start: Instant, ghost requests: nat,
               ghost from: Instant)
    requires Ready(budget, now, start, requests) && count > 0
    requires requests + count <= PASSWORD_REQUESTS_PER_MINUTE
    requires EntryFor(Live(budget.entries, now), source, now).requests + count <= PASSWORD_REQUESTS_PER_SOURCE
    requires |budget.entries| < PASSWORD_BUDGET_SOURCES
    modifies budget
    ensures Ready(budget, now, start, requests + count)
    ensures budget.entries == Several(Live(old(budget.entries), now), source, now, count)
    ensures |budget.entries| <= |old(budget.entries)| + 1
    ensures CountIn(Totals(budget.log), from) == old(CountIn(Totals(budget.log), from)) + Hits(count, now, from)
    ensures CountIn(Owns(budget.log, source), from) ==
              old(CountIn(Owns(budget.log, source), from)) + Hits(count, now, from)
  {
    hide Ready, CountIn, Totals, Owns, Live, Several, Counted, EntryFor, Hits;
    ghost var live := Live(budget.entries, now);
    LiveSize(budget.entries, now);
    OneCheck(budget, source, now, start, requests, from);
    FirstCheck(live, source, now);
    for i := 1 to count
      invariant Ready(budget, now, start, requests + i) && budget.entries == Several(live, source, now, i)
      invariant CountIn(Totals(budget.log), from) == old(CountIn(Totals(budget.log), from)) + Hits(i, now, from)
      invariant CountIn(Owns(budget.log, source), from) ==
                  old(CountIn(Owns(budget.log, source), from)) + Hits(i, now, from)
    {
      LiveAgain(old(budget.entries), source, i, now);
      OneMore(live, source, now, i);
      SeveralHas(live, source, now, i);
      HitsAdd(i, 1, now, from);
      OneCheck(budget, source, now, start, requests + i, from);
    }
    SeveralSize(live, source, now, count);
  }

  lemma FirstCheck(live: map<Source, Entry>, source: Source, now: Instant)
    ensures Counted(live, source, now) == Several(live, source, now, 1)
  {
  }

  lemma SeveralHas(live: map<Source, Entry>, source: Source, now: Instant, count: nat)
    ensures source in Several(live, source, now, count)
  {
  }

  lemma SeveralSize(live: map<Source, Entry>, source: Source, now: Instant, count: nat)
    ensures |Several(live, source, now, count)| <= |live| + 1
    ensures Several(live, source, now, count).Keys == live.Keys + {source}
  {
    OneMoreSource(live, source, Several(live, source, now, count)[source]);
  }

  lemma HitsAdd(some: nat, more: nat, now: Instant, from: Instant)
    ensures Hits(some + more, now, from) == Hits(some, now, from) + Hits(more, now, from)
  {
  }

  /** One source is admitted 39 times within one minute: once to open its window, 19 times just
      before the window ends, and 20 times at the start of the next one. */
  method SourceReaches39() returns (budget: Budget)
    ensures budget.Valid() && budget.ordered
    ensures CountIn(Owns(budget.log, "source"), PASSWORD_BUDGET_WINDOW - 1) == 2 * PASSWORD_REQUESTS_PER_SOURCE - 1
  {
    hide Budget.Valid;
    ghost var from := PASSWORD_BUDGET_WINDOW - 1;
    budget := new Budget();
    Burst(budget, "source", 1, 0, 0, 0, from);
    Burst(budget, "source", PASSWORD_REQUESTS_PER_SOURCE - 1, PASSWORD_BUDGET_WINDOW - 1, 0, 1, from);
    Burst(budget, "source", PASSWORD_REQUESTS_PER_SOURCE, PASSWORD_BUDGET_WINDOW, PASSWORD_BUDGET_WINDOW, 0, from);
  }

  ghost predicate Room(entries: map<Source, Entry>, source: Source) {
    source !in entries && |entries| < PASSWORD_BUDGET_SOURCES
  }

  ghost predicate AddsOne(before: map<Source, Entry>, after: map<Source, Entry>, source: Source) {
    after.Keys <= before.Keys + {source} && |after| <= |before| + 1
  }

  /** A new source with as many checks as it may have. */
  method NewSource(budget: Budget, source: Source, now: Instant, ghost start: Instant, ghost requests: nat,
                   ghost from: Instant)
    requires Ready(budget, now, start, requests)
    requires requests + PASSWORD_REQUESTS_PER_SOURCE <= PASSWORD_REQUESTS_PER_MINUTE
    requires Room(budget.entries, source)
    modifies budget
    ensures Ready(budget, now, start, requests + PASSWORD_REQUESTS_PER_SOURCE)
    ensures AddsOne(old(budget.entries), budget.entries, source)
    ensures CountIn(Totals(budget.log), from) ==
            old(CountIn(Totals(budget.log), from)) + Hits(PASSWORD_REQUESTS_PER_SOURCE, now, from)
  {
    hide Budget.Valid, CountIn, Totals, Owns, Live, At;
    LiveSize(budget.entries, now);
    Burst(budget, source, PASSWORD_REQUESTS_PER_SOURCE, now, start, requests, from);
  }

  /** Only the first `count` of the sources are new. */
  ghost predicate Grown(before: map<Source, Entry>, after: map<Source, Entry>, sources: seq<Source>, count: nat)
    requires count <= |sources|
  {
    && (forall source :: source in after ==> source in before || source in sources[..count])
    && |after| <= |before| + count
  }

  lemma GrownNone(before: map<Source, Entry>, sources: seq<Source>)
    ensures Grown(before, before, sources, 0)
  {
  }

  lemma GrownMore(before: map<Source, Entry>, middle: map<Source, Entry>, after: map<Source, Entry>,
                  sources: seq<Source>, count: nat)
    requires count < |sources| && Grown(before, middle, sources, count)
    requires AddsOne(middle, after, sources[count])
    ensures Grown(before, after, sources, count + 1)
  {
    assert sources[..count + 1] == sources[..count] + [sources[count]];
  }

  ghost predicate AllNew(entries: map<Source, Entry>, sources: seq<Source>) {
    && (forall i, j :: 0 <= i < j < |sources| ==> sources[i] != sources[j])
    && (forall source :: source in sources ==> source !in entries) && |entries| <= 6
  }

  lemma StillNew(before: map<Source, Entry>, after: map<Source, Entry>, sources: seq<Source>, count: nat)
    requires AllNew(before, sources) && count < |sources| <= 6 && Grown(before, after, sources, count)
    ensures Room(after, sources[count])
  {
  }

  /** Six new sources, each with as many checks as it may have, all at one instant. */
  method Crowd(budget: Budget, sources: seq<Source>, now: Instant, ghost start: Instant, ghost from: Instant)
    requires Ready(budget, now, start, 0) && |sources| == 6 && AllNew(budget.entries, sources)
    modifies budget
    ensures Ready(budget, now, start, PASSWORD_REQUESTS_PER_MINUTE)
    ensures Grown(old(budget.entries), budget.entries, sources, 6)
    ensures CountIn(Totals(budget.log), from) ==
              old(CountIn(Totals(budget.log), from)) + Hits(PASSWORD_REQUESTS_PER_MINUTE, now, from)
  {
    hide Ready, CountIn, Totals, Hits, Grown, AllNew, Room, AddsOne;
    GrownNone(budget.entries, sources);
    HitsNone(now, from);
    for i := 0 to 6
      invariant Ready(budget, now, start, 20 * i) && Grown(old(budget.entries), budget.entries, sources, i)
      invariant CountIn(Totals(budget.log), from) == old(CountIn(Totals(budget.log), from)) + Hits(20 * i, now, from)
    {
      StillNew(old(budget.entries), budget.entries, sources, i);
      HitsAdd(20 * i, 20, now, from);
      ghost var before := budget.entries;
      NewSource(budget, sources[i], now, start, 20 * i, from);
      GrownMore(old(budget.entries), before, budget.entries, sources, i);
    }
  }

  lemma HitsNone(now: Instant, from: Instant)
    ensures Hits(0, now, from) == 0
  {
  }

  /** At the instant 0, `held` checks of one source run, and none is counted from `from` on. */
  ghost predicate Holding(budget: Budget, held: nat, from: Instant)
    reads budget, budget.issued
  {
    && budget.Valid() && Tracked(budget, budget.issued, budget.outstanding)
    && budget.ordered && budget.clock == 0 && budget.active == held <= PASSWORD_CONCURRENT_LIMIT
    && budget.start == (if held == 0 then None else Some(0)) && (held > 0 ==> budget.requests == held)
    && budget.entries == (if held == 0 then map[] else map["held" := Entry(0, held)])
    && from > 0 && CountIn(Totals(budget.log), from) == 0
  }

  /** One more check of the source that is held. */
  method Hold(budget: Budget, ghost held: nat, ghost from: Instant) returns (release: Release)
    requires Holding(budget, held, from) && held < PASSWORD_CONCURRENT_LIMIT
    modifies budget
    ensures Holding(budget, held + 1, from) && fresh(release) && release.budget == budget
    ensures budget.issued == old(budget.issued) + {release} && budget.outstanding == old(budget.outstanding) + {release}
  {
    hide Budget.Valid, Tracked, CountIn, Totals;
    ghost var before, entries := budget.log, budget.entries;
    assert Live(entries, 0) == entries;
    release := budget.Acquire("held", 0);
    LogAppend(before, budget.log[|before|], from, "held");
  }

  /** The total window has just been opened by a check that was refused. */
  ghost predicate Opened(budget: Budget, from: Instant)
    reads budget, budget.issued
  {
    && budget.Valid() && Tracked(budget, budget.issued, budget.outstanding)
    && budget.ordered && budget.clock == PASSWORD_BUDGET_WINDOW
    && budget.entries == map[] && budget.start == Some(PASSWORD_BUDGET_WINDOW) && budget.requests == 0
    && CountIn(Totals(budget.log), from) == 0
  }

  method Refuse(budget: Budget, ghost from: Instant)
    requires Holding(budget, PASSWORD_CONCURRENT_LIMIT, from)
    modifies budget
    ensures Opened(budget, from)
    ensures budget.issued == old(budget.issued) && budget.outstanding == old(budget.outstanding)
  {
    hide Budget.Valid, Tracked, CountIn, Totals;
    var refused := budget.Acquire("held", PASSWORD_BUDGET_WINDOW);
  }

  /** A check ends. */
  method End(budget: Budget, release: Release, ghost from: Instant)
    requires Opened(budget, from) && release in budget.issued && release.budget == budget
    modifies budget, release
    ensures Opened(budget, from) && budget.issued == old(budget.issued)
    ensures budget.outstanding == old(budget.outstanding) - {release}
  {
    hide Budget.Valid, Tracked, CountIn, Totals;
    release.Call();
  }

  /** Four checks run when a fifth is refused and opens the total window; then the four end. */
  method OpenWithRefusal(budget: Budget, held: nat, ghost from: Instant)
    requires Holding(budget, held, from) && held <= PASSWORD_CONCURRENT_LIMIT
    modifies budget
    ensures Opened(budget, from)
    ensures old(budget.issued) <= budget.issued && budget.outstanding == old(budget.outstanding)
    decreases PASSWORD_CONCURRENT_LIMIT - held
  {
    hide Holding, Opened;
    if held == PASSWORD_CONCURRENT_LIMIT {
      Refuse(budget, from);
    } else {
      ghost var before := budget.outstanding;
      var release := Hold(budget, held, from);
      OpenWithRefusal(budget, held + 1, from);
      End(budget, release, from);
      assert budget.outstanding == before;
    }
  }

  lemma OpenedReady(budget: Budget, from: Instant)
    requires Opened(budget, from) && budget.outstanding == {}
    ensures Ready(budget, 2 * PASSWORD_BUDGET_WINDOW - 1, PASSWORD_BUDGET_WINDOW, 0)
    ensures budget.entries == map[] && CountIn(Totals(budget.log), from) == 0
  {
    hide Budget.Valid, Tracked, CountIn, Totals;
  }

  const FIRST_GROUP: seq<Source> := ["a", "b", "c", "d", "e", "f"]

  const SECOND_GROUP: seq<Source> := ["g", "h", "i", "j", "k", "l"]

  lemma IsReady(budget: Budget, now: Instant, start: Instant, requests: nat)
    requires Ready(budget, now, start, requests)
    ensures budget.Valid() && budget.ordered
  {
    hide Budget.Valid;
  }

  lemma FirstIsNew()
    ensures AllNew(map[], FIRST_GROUP)
  {
  }

  lemma SecondIsNew(entries: map<Source, Entry>)
    requires Grown(map[], entries, FIRST_GROUP, 6)
    ensures AllNew(entries, SECOND_GROUP)
  {
    assert FIRST_GROUP[..6] == FIRST_GROUP;
    assert forall x, y :: x in FIRST_GROUP && y in SECOND_GROUP ==> x[0] != y[0];
  }

  /** All sources together are admitted 240 times within one minute. A refused check opens the
      total window, so that none of its admissions has to come early. */
  method TotalReaches240() returns (budget: Budget)
    ensures budget.Valid() && budget.ordered
    ensures CountIn(Totals(budget.log), 2 * PASSWORD_BUDGET_WINDOW - 1) == 2 * PASSWORD_REQUESTS_PER_MINUTE
  {
    hide Ready, Opened, Owns, Grown, AllNew, Budget.Valid, Tracked;
    ghost var from := 2 * PASSWORD_BUDGET_WINDOW - 1;
    budget := new Budget();
    OpenWithRefusal(budget, 0, from);
    OpenedReady(budget, from);
    FirstIsNew();
    Crowd(budget, FIRST_GROUP, 2 * PASSWORD_BUDGET_WINDOW - 1, PASSWORD_BUDGET_WINDOW, from);
    NextWindow(budget, 2 * PASSWORD_BUDGET_WINDOW - 1, PASSWORD_BUDGET_WINDOW, PASSWORD_REQUESTS_PER_MINUTE);
    SecondIsNew(budget.entries);
    Crowd(budget, SECOND_GROUP, 2 * PASSWORD_BUDGET_WINDOW, 2 * PASSWORD_BUDGET_WINDOW, from);
    IsReady(budget, 2 * PASSWORD_BUDGET_WINDOW, 2 * PASSWORD_BUDGET_WINDOW, PASSWORD_REQUESTS_PER_MINUTE);
  }
}
