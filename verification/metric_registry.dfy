/** The custom metric registry (internal/agent/custom_metric_registry.go) and ordered registration
    by task creation time (internal/agent/multi_task_executor.go). */
module MetricRegistry {
  import opened Basics

  type Instant = int

  const MAX_CUSTOM_METRIC_DEFINITIONS := 64
  const MAX_CUSTOM_METRIC_NAME_BYTES := 100
  const MAX_CUSTOM_METRIC_COMMAND_BYTES := 2048
  const MIN_CUSTOM_METRIC_INTERVAL := 5
  const MAX_CUSTOM_METRIC_INTERVAL := 86400

  /** What `sameCustomMetric` compares. Strings are Unicode text; limits count its UTF-8 bytes. */
  datatype Definition = Definition(id: string, name: string, command: string, interval: int, definitionVersion: string)

  datatype CustomMetric = CustomMetric(definition: Definition, enabled: bool)

  datatype Registered = Registered(definition: Definition, version: nat)

  // ---- validation

  predicate ValidCharacter(c: char) {
    ('a' <= c <= 'z') || ('A' <= c <= 'Z') || ('0' <= c <= '9') || c == '_' || c == '.' || c == '-'
  }

  predicate ValidName(name: string) {
    0 < |name| <= MAX_CUSTOM_METRIC_NAME_BYTES && forall i :: 0 <= i < |name| ==> ValidCharacter(name[i])
  }

  /** The Unicode white space that trimming removes. */
  predicate IsSpace(c: char) {
    var code := c as int;
    || 0x09 <= code <= 0x0D || code in {0x20, 0x85, 0xA0, 0x1680, 0x2028, 0x2029, 0x202F, 0x205F, 0x3000}
    || 0x2000 <= code <= 0x200A
  }

  predicate ValidCommand(command: string) {
    && Utf8Bytes(command) <= MAX_CUSTOM_METRIC_COMMAND_BYTES
    && (exists i :: 0 <= i < |command| && !IsSpace(command[i]))
    && (forall i :: 0 <= i < |command| ==> command[i] as int != 0)
  }

  predicate ValidDefinition(d: Definition) {
    ValidName(d.name) && ValidCommand(d.command) &&
    MIN_CUSTOM_METRIC_INTERVAL <= d.interval <= MAX_CUSTOM_METRIC_INTERVAL
  }

  predicate DistinctNames(ds: seq<Definition>) {
    forall i, j :: 0 <= i < j < |ds| ==> ds[i].name != ds[j].name
  }

  function Enabled(metrics: seq<CustomMetric>): seq<Definition> {
    if metrics == [] then []
    else Enabled(metrics[..|metrics| - 1]) +
         if metrics[|metrics| - 1].enabled then [metrics[|metrics| - 1].definition] else []
  }

  /** Which registrations are acceptable. */
  predicate Acceptable(metrics: seq<CustomMetric>) {
    && |metrics| <= MAX_CUSTOM_METRIC_DEFINITIONS
    && DistinctNames(Enabled(metrics)) && AllValid(Enabled(metrics))
  }

  lemma {:induction false} EnabledPrefix(metrics: seq<CustomMetric>, cut: nat)
    requires cut <= |metrics|
    ensures Enabled(metrics[..cut]) <= Enabled(metrics)
  {
    if cut < |metrics| {
      var shorter := metrics[..|metrics| - 1];
      assert metrics[..cut] == shorter[..cut];
      EnabledPrefix(shorter, cut);
    } else {
      assert metrics[..cut] == metrics;
    }
  }

  lemma UnacceptablePrefix(metrics: seq<CustomMetric>, cut: nat)
    requires cut <= |metrics|
    requires !DistinctNames(Enabled(metrics[..cut])) || !AllValid(Enabled(metrics[..cut]))
    ensures !Acceptable(metrics)
  {
    EnabledPrefix(metrics, cut);
    var part, all := Enabled(metrics[..cut]), Enabled(metrics);
    assert forall i :: 0 <= i < |part| ==> part[i] == all[i];
  }

  function Names(ds: seq<Definition>): set<string> {
    set i | 0 <= i < |ds| :: ds[i].name
  }

  predicate AllValid(ds: seq<Definition>) {
    forall i :: 0 <= i < |ds| ==> ValidDefinition(ds[i])
  }

  lemma AppendDefinition(ds: seq<Definition>, d: Definition)
    requires DistinctNames(ds) && AllValid(ds)
    ensures Names(ds + [d]) == Names(ds) + {d.name}
    ensures DistinctNames(ds + [d]) <==> d.name !in Names(ds)
    ensures AllValid(ds + [d]) <==> ValidDefinition(d)
  {
    var longer := ds + [d];
    assert longer[|ds|] == d;
    assert forall i :: 0 <= i < |ds| ==> longer[i] == ds[i];
    assert forall i :: 0 <= i < |ds| ==> ds[i].name in Names(ds);
    assert forall name :: name in Names(longer) ==> name in Names(ds) || name == d.name;
    if d.name in Names(ds) {
      var i :| 0 <= i < |ds| && ds[i].name == d.name;
      assert longer[i].name == longer[|ds|].name;
    }
  }

  method ValidateRegisteredMetrics(metrics: seq<CustomMetric>) returns (values: Option<seq<Definition>>)
    ensures values == if Acceptable(metrics) then Some(Enabled(metrics)) else None
  {
    if |metrics| > MAX_CUSTOM_METRIC_DEFINITIONS {
      return None;
    }
    hide ValidDefinition, Names, DistinctNames;
    var kept: seq<Definition> := [];
    var seen: set<string> := {};
    EmptyNames();
    for index := 0 to |metrics|
      invariant kept == Enabled(metrics[..index]) && DistinctNames(kept) && AllValid(kept)
      invariant seen == Names(kept)
    {
      var metric := metrics[index];
      assert metrics[..index + 1][..index] == metrics[..index];
      if metric.enabled {
        AppendDefinition(kept, metric.definition);
        if !ValidDefinition(metric.definition) || metric.definition.name in seen {
          UnacceptablePrefix(metrics, index + 1);
          return None;
        }
        seen := seen + {metric.definition.name};
        kept := kept + [metric.definition];
      }
    }
    assert metrics[..|metrics|] == metrics;
    return Some(kept);
  }

  lemma EmptyNames()
    ensures Names([]) == {} && DistinctNames([])
  {
  }

  // ---- sets of definitions

  function Definitions(metrics: seq<Registered>): (ds: seq<Definition>)
    ensures |ds| == |metrics| && forall i :: 0 <= i < |ds| ==> ds[i] == metrics[i].definition
  {
    seq(|metrics|, i requires 0 <= i < |metrics| => metrics[i].definition)
  }

  function ToSet<T>(s: seq<T>): set<T> {
    set i | 0 <= i < |s| :: s[i]
  }

  lemma {:induction false} DistinctSize(ds: seq<Definition>)
    requires DistinctNames(ds)
    ensures |ToSet(ds)| == |ds|
  {
    if ds != [] {
      var shorter, last := ds[..|ds| - 1], ds[|ds| - 1];
      DistinctSize(shorter);
      assert ToSet(ds) == ToSet(shorter) + {last};
      assert last !in ToSet(shorter);
    }
  }

  /** Pigeonhole: lists of distinct names with equal lengths, one inside the other, are equal as sets. */
  lemma SameLengthSameSet(values: seq<Definition>, olds: seq<Definition>)
    requires DistinctNames(values) && DistinctNames(olds)
    ensures (|values| == |olds| && forall i :: 0 <= i < |values| ==> values[i] in olds) <==>
              ToSet(values) == ToSet(olds)
  {
    DistinctSize(values);
    DistinctSize(olds);
    if |values| == |olds| && forall i :: 0 <= i < |values| ==> values[i] in olds {
      assert ToSet(values) <= ToSet(olds);
      assert |ToSet(olds) - ToSet(values)| == |ToSet(olds)| - |ToSet(values)|;
    }
    if ToSet(values) == ToSet(olds) {
      forall i | 0 <= i < |values|
        ensures values[i] in olds
      {
        assert values[i] in ToSet(values);
      }
    }
  }

  ghost predicate Distinct(metrics: seq<Registered>) {
    forall i, j ::
      0 <= i < |metrics| && 0 <= j < |metrics| && metrics[i].definition.name == metrics[j].definition.name ==> i == j
  }

  lemma DistinctDefinitions(metrics: seq<Registered>)
    ensures Distinct(metrics) <==> DistinctNames(Definitions(metrics))
  {
    var ds := Definitions(metrics);
    assert forall i :: 0 <= i < |ds| ==> ds[i].name == metrics[i].definition.name;
  }

  /** The registered metric of each name. */
  ghost function ByName(metrics: seq<Registered>): (view: map<string, Registered>)
    requires Distinct(metrics)
    ensures forall i :: 0 <= i < |metrics| ==>
              metrics[i].definition.name in view && view[metrics[i].definition.name] == metrics[i]
    ensures forall name :: name in view ==> view[name] in metrics && view[name].definition.name == name
  {
    map i | 0 <= i < |metrics| :: metrics[i].definition.name := metrics[i]
  }

  /** Each version belongs to one definition for ever. */
  ghost predicate Named(named: map<nat, Definition>, metric: Registered) {
    metric.version in named && named[metric.version] == metric.definition
  }

  /** The view by name does not depend on the order of the list. */
  lemma SameView(a: seq<Registered>, b: seq<Registered>)
    requires Distinct(a) && Distinct(b)
    requires forall i :: 0 <= i < |a| ==> a[i] in b
    requires forall j :: 0 <= j < |b| ==> b[j] in a
    ensures ByName(a) == ByName(b)
  {
    ViewUnique(a, ByName(b));
  }

  /** The view is determined by the list. */
  lemma ViewUnique(metrics: seq<Registered>, view: map<string, Registered>)
    requires Distinct(metrics)
    requires forall i :: 0 <= i < |metrics| ==>
               metrics[i].definition.name in view && view[metrics[i].definition.name] == metrics[i]
    requires forall name :: name in view ==> view[name] in metrics && view[name].definition.name == name
    ensures view == ByName(metrics)
  {
    var own := ByName(metrics);
    forall name | name in view
      ensures name in own && own[name] == view[name]
    {
      var i :| 0 <= i < |metrics| && metrics[i] == view[name];
    }
    forall name | name in own
      ensures name in view
    {
      var i :| 0 <= i < |metrics| && metrics[i] == own[name];
    }
  }

  ghost predicate VersionsMatch(versions: map<string, nat>, view: map<string, Registered>) {
    versions.Keys == view.Keys && forall name :: name in versions ==> versions[name] == view[name].version
  }

  lemma DistinctAppend(metrics: seq<Registered>, metric: Registered)
    requires Distinct(metrics) && metric.definition.name !in ByName(metrics)
    ensures Distinct(metrics + [metric])
  {
    assert forall i :: 0 <= i < |metrics| ==> metrics[i].definition.name in ByName(metrics);
  }

  lemma ByNameAppend(metrics: seq<Registered>, metric: Registered)
    requires Distinct(metrics) && metric.definition.name !in ByName(metrics)
    ensures Distinct(metrics + [metric])
    ensures ByName(metrics + [metric]) == ByName(metrics)[metric.definition.name := metric]
  {
    DistinctAppend(metrics, metric);
    var longer, wanted := metrics + [metric], ByName(metrics)[metric.definition.name := metric];
    forall i | 0 <= i < |longer|
      ensures longer[i].definition.name in wanted && wanted[longer[i].definition.name] == longer[i]
    {
      if i < |metrics| {
        assert metrics[i].definition.name in ByName(metrics);
      }
    }
    forall name | name in wanted
      ensures wanted[name] in longer && wanted[name].definition.name == name
    {
      if name == metric.definition.name {
        assert longer[|metrics|] == metric;
      }
    }
    ViewUnique(longer, wanted);
  }

  method IndexByName(metrics: seq<Registered>) returns (previous: map<string, Registered>)
    requires Distinct(metrics)
    ensures previous == ByName(metrics)
  {
    hide ByName;
    previous := map[];
    for index := 0 to |metrics|
      invariant Distinct(metrics[..index]) && previous == ByName(metrics[..index])
    {
      assert metrics[..index + 1] == metrics[..index] + [metrics[index]];
      assert metrics[index].definition.name !in ByName(metrics[..index]) by {
        NotBefore(metrics, index);
      }
      ByNameAppend(metrics[..index], metrics[index]);
      previous := previous[metrics[index].definition.name := metrics[index]];
    }
    assert metrics[..|metrics|] == metrics;
  }

  lemma NotBefore(metrics: seq<Registered>, index: nat)
    requires Distinct(metrics) && index < |metrics| && Distinct(metrics[..index])
    ensures metrics[index].definition.name !in ByName(metrics[..index])
  {
    var view, name := ByName(metrics[..index]), metrics[index].definition.name;
    forall x | x in view
      ensures x != name
    {
      var i :| 0 <= i < index && metrics[..index][i] == view[x];
    }
  }

  /** A definition that was registered under its name before keeps its registration. */
  predicate Kept(previous: map<string, Registered>, d: Definition) {
    d.name in previous && previous[d.name].definition == d
  }

  /** The first metrics of `values` with their versions: old definitions keep theirs. */
  ghost predicate Assigned(list: seq<Registered>, values: seq<Definition>, previous: map<string, Registered>,
                           names: map<nat, Definition>, last: nat)
  {
    && |list| <= |values| && Distinct(list)
    && (forall i :: 0 <= i < |list| ==> list[i].definition == values[i] && Named(names, list[i]))
    && (forall i :: 0 <= i < |list| && Kept(previous, values[i]) ==> list[i] == previous[values[i].name])
    && (forall v :: v in names ==> v <= last)
  }

  lemma AssignOne(list: seq<Registered>, values: seq<Definition>, previous: map<string, Registered>,
                  names: map<nat, Definition>, last: nat, metric: Registered, names': map<nat, Definition>, last': nat)
    requires Assigned(list, values, previous, names, last) && DistinctNames(values) && |list| < |values|
    requires metric.definition == values[|list|] && Named(names', metric)
    requires Kept(previous, values[|list|]) ==> metric == previous[values[|list|].name]
    requires forall v :: v in names ==> v in names' && names'[v] == names[v]
    requires forall v :: v in names' ==> v <= last'
    ensures Assigned(list + [metric], values, previous, names', last')
    ensures ByName(list + [metric]) == ByName(list)[metric.definition.name := metric]
  {
    hide ByName;
    NewName(list, values, |list|);
    ByNameAppend(list, metric);
  }

  lemma VersionsAppend(versions: map<string, nat>, view: map<string, Registered>, metric: Registered)
    requires VersionsMatch(versions, view)
    ensures VersionsMatch(versions[metric.definition.name := metric.version], view[metric.definition.name := metric])
  {
  }

  /** Old definitions keep their version, new ones get versions never used before. */
  method AssignVersions(values: seq<Definition>, previous: map<string, Registered>, sequence: nat,
                        ghost named: map<nat, Definition>)
    returns (list: seq<Registered>, versions: map<string, nat>, last: nat, added: bool,
             ghost names: map<nat, Definition>)
    requires DistinctNames(values)
    requires forall name :: name in previous ==> Named(named, previous[name])
    requires forall v :: v in named ==> v <= sequence
    ensures Assigned(list, values, previous, names, last) && |list| == |values| && VersionsMatch(versions, ByName(list))
    ensures added <==> exists i :: 0 <= i < |values| && !Kept(previous, values[i])
    ensures forall v :: v in named ==> v in names && names[v] == named[v]
  {
    hide ByName, VersionsMatch;
    list, versions, last, added, names := [], map[], sequence, false, named;
    EmptyView();
    for index := 0 to |values|
      invariant |list| == index && Assigned(list, values, previous, names, last) &&
                VersionsMatch(versions, ByName(list))
      invariant added <==> exists i :: 0 <= i < index && !Kept(previous, values[i])
      invariant forall v :: v in named ==> v in names && names[v] == named[v]
    {
      var metric := Registered(values[index], last + 1);
      if Kept(previous, values[index]) {
        metric := previous[values[index].name];
        AssignOne(list, values, previous, names, last, metric, names, last);
      } else {
        AssignOne(list, values, previous, names, last, metric, names[last + 1 := values[index]], last + 1);
        last := last + 1;
        names := names[last := values[index]];
        added := true;
      }
      VersionsAppend(versions, ByName(list), metric);
      list := list + [metric];
      versions := versions[metric.definition.name := metric.version];
    }
  }

  lemma EmptyView()
    ensures Distinct([]) && ByName([]) == map[] && VersionsMatch(map[], ByName([]))
  {
  }

  lemma NewName(list: seq<Registered>, values: seq<Definition>, index: nat)
    requires Distinct(list) && DistinctNames(values) && |list| == index < |values|
    requires forall i :: 0 <= i < index ==> list[i].definition == values[i]
    ensures values[index].name !in ByName(list)
  {
    var view, name := ByName(list), values[index].name;
    forall x | x in view
      ensures x != name
    {
      var i :| 0 <= i < index && list[i] == view[x];
    }
  }

  /** A list changed exactly when the set of definitions changed. */
  lemma ChangedMeans(values: seq<Definition>, olds: seq<Registered>)
    requires DistinctNames(values) && Distinct(olds)
    ensures (|values| != |olds| || exists i :: 0 <= i < |values| && !Kept(ByName(olds), values[i])) <==>
            ToSet(values) != ToSet(Definitions(olds))
  {
    DistinctDefinitions(olds);
    SameLengthSameSet(values, Definitions(olds));
    forall i | 0 <= i < |values|
      ensures Kept(ByName(olds), values[i]) <==> values[i] in Definitions(olds)
    {
      KeptMeans(olds, values[i]);
    }
  }

  lemma KeptMeans(olds: seq<Registered>, d: Definition)
    requires Distinct(olds)
    ensures Kept(ByName(olds), d) <==> d in Definitions(olds)
  {
    var view := ByName(olds);
    if Kept(view, d) {
      var i :| 0 <= i < |olds| && olds[i] == view[d.name];
      assert Definitions(olds)[i] == d;
    }
    if d in Definitions(olds) {
      var i :| 0 <= i < |olds| && Definitions(olds)[i] == d;
      assert olds[i].definition == d;
    }
  }

  lemma UnchangedView(list: seq<Registered>, values: seq<Definition>, olds: seq<Registered>,
                      names: map<nat, Definition>, last: nat)
    requires Distinct(olds) && Assigned(list, values, ByName(olds), names, last) && |list| == |values|
    requires forall i :: 0 <= i < |values| ==> Kept(ByName(olds), values[i])
    requires ToSet(values) == ToSet(Definitions(olds))
    ensures ByName(list) == ByName(olds)
  {
    forall i | 0 <= i < |list|
      ensures list[i] in olds
    {
      assert list[i] == ByName(olds)[values[i].name];
    }
    forall j | 0 <= j < |olds|
      ensures olds[j] in list
    {
      assert Definitions(olds)[j] in ToSet(Definitions(olds));
      var i :| 0 <= i < |values| && values[i] == olds[j].definition;
      assert list[i] == ByName(olds)[olds[j].definition.name] == olds[j];
    }
    SameView(list, olds);
  }

  // ---- registration as callers see it

  datatype Config = Config(definitions: seq<Definition>, revision: Option<Instant>)

  /** Whether a revision comes after the one that is registered; the zero time never does. */
  predicate Stale(registered: Option<Instant>, revision: Option<Instant>) {
    registered.Some? && (revision.None? || revision.value <= registered.value)
  }

  function Replaced(config: Config, metrics: seq<CustomMetric>, revision: Option<Instant>, ordered: bool): Config {
    if !Acceptable(metrics) || (ordered && Stale(config.revision, revision)) then config
    else Config(Enabled(metrics), if ordered then revision else config.revision)
  }

  /** A register task; `decodes` says that its payload has a legal size and form. */
  datatype Task = Task(createdAt: Instant, decodes: bool, metrics: seq<CustomMetric>)

  predicate ValidTask(task: Task) {
    task.decodes && Acceptable(task.metrics)
  }

  function Registration(config: Config, task: Task): Config {
    if task.decodes then Replaced(config, task.metrics, Some(task.createdAt), true) else config
  }

  function Deliver(tasks: seq<Task>): Config {
    if tasks == [] then Config([], None) else Registration(Deliver(tasks[..|tasks| - 1]), tasks[|tasks| - 1])
  }

  /** Creation times name tasks; the same task may be delivered many times. */
  predicate TimesNameTasks(tasks: seq<Task>) {
    forall i, j :: 0 <= i < |tasks| && 0 <= j < |tasks| && tasks[i].createdAt == tasks[j].createdAt ==>
      tasks[i] == tasks[j]
  }

  predicate IsLatest(tasks: seq<Task>, k: nat) {
    k < |tasks| && ValidTask(tasks[k]) &&
    forall i :: 0 <= i < |tasks| && ValidTask(tasks[i]) ==> tasks[i].createdAt <= tasks[k].createdAt
  }

  /** Last writer wins: in any order and with any duplicates, what is registered in the end is the
      valid task that was created last. */
  lemma {:induction false} LastWriterWins(tasks: seq<Task>)
    requires TimesNameTasks(tasks)
    ensures forall k: nat :: IsLatest(tasks, k) ==>
              Deliver(tasks) == Config(Enabled(tasks[k].metrics), Some(tasks[k].createdAt))
    ensures (forall i :: 0 <= i < |tasks| ==> !ValidTask(tasks[i])) ==> Deliver(tasks) == Config([], None)
    ensures Deliver(tasks).revision.Some? <==> exists k: nat :: IsLatest(tasks, k)
  {
    if tasks != [] {
      var earlier, task := tasks[..|tasks| - 1], tasks[|tasks| - 1];
      assert forall i :: 0 <= i < |earlier| ==> earlier[i] == tasks[i];
      LastWriterWins(earlier);
      LatestStep(tasks);
    }
  }

  /** How the latest valid task moves when one more task is delivered. */
  lemma LatestStep(tasks: seq<Task>)
    requires tasks != [] && TimesNameTasks(tasks)
    requires var earlier := tasks[..|tasks| - 1];
             && (forall k: nat :: IsLatest(earlier, k) ==>
                   Deliver(earlier) == Config(Enabled(earlier[k].metrics), Some(earlier[k].createdAt)))
             && ((forall i :: 0 <= i < |earlier| ==> !ValidTask(earlier[i])) ==> Deliver(earlier) == Config([], None))
             && (Deliver(earlier).revision.Some? <==> exists k: nat :: IsLatest(earlier, k))
    ensures forall k: nat :: IsLatest(tasks, k) ==>
              Deliver(tasks) == Config(Enabled(tasks[k].metrics), Some(tasks[k].createdAt))
    ensures (forall i :: 0 <= i < |tasks| ==> !ValidTask(tasks[i])) ==> Deliver(tasks) == Config([], None)
    ensures Deliver(tasks).revision.Some? <==> exists k: nat :: IsLatest(tasks, k)
  {
    hide Enabled, Acceptable;
    var n := |tasks| - 1;
    var earlier, task := tasks[..n], tasks[n];
    assert forall i :: 0 <= i < n ==> earlier[i] == tasks[i];
    var found := LatestOrNone(earlier);
    if found.Some? {
      if ValidTask(task) && task.createdAt > tasks[found.value].createdAt {
        assert IsLatest(tasks, n);
      } else {
        assert IsLatest(tasks, found.value);
      }
    } else if ValidTask(task) {
      assert IsLatest(tasks, n);
    }
  }

  lemma {:induction false} LatestOrNone(tasks: seq<Task>) returns (found: Option<nat>)
    ensures found.Some? ==> IsLatest(tasks, found.value)
    ensures found.None? ==> forall i :: 0 <= i < |tasks| ==> !ValidTask(tasks[i])
  {
    found := None;
    if tasks != [] {
      var n := |tasks| - 1;
      var earlier := tasks[..n];
      assert forall i :: 0 <= i < n ==> earlier[i] == tasks[i];
      found := LatestOrNone(earlier);
      if ValidTask(tasks[n]) && (found.None? || tasks[n].createdAt > tasks[found.value].createdAt) {
        found := Some(n);
      }
    }
  }

  class Registry {
    var metrics: seq<Registered>
    var version: nat
    var sequence: nat
    var metricVersions: map<string, nat>
    var revision: Option<Instant>
    ghost var named: map<nat, Definition>                    // the definition each metric version was given to
    ghost var history: map<nat, map<string, Registered>>     // what was registered at each registry version

    constructor ()
      ensures Valid() && metrics == [] && revision == None
    {
      metrics, version, sequence, metricVersions, revision := [], 0, 0, map[], None;
      named, history := map[], map[0 := map[]];
    }

    ghost predicate Valid()
      reads this
    {
      && Distinct(metrics)
      && (forall i :: 0 <= i < |metrics| ==> Named(named, metrics[i]))
      && (forall v :: v in named ==> v <= sequence)
      && VersionsMatch(metricVersions, ByName(metrics))
      && version in history && history[version] == ByName(metrics)
      && (forall v :: v in history ==> v <= version)
    }

    /** Versions and past registrations are never taken back. */
    twostate predicate Grown()
      reads this
    {
      && (forall v :: v in old(named) ==> v in named && named[v] == old(named)[v])
      && (forall v :: v in old(history) ==> v in history && history[v] == old(history)[v])
      && old(version) <= version
    }

    method Snapshot() returns (copy: seq<Registered>, at: nat)
      requires Valid()
      ensures Distinct(copy) && at in history && history[at] == ByName(copy) && copy == metrics && at == version
      ensures forall i :: 0 <= i < |copy| ==> Named(named, copy[i])
    {
      return metrics, version;
    }

    ghost function Abstract(): Config
      reads this
    {
      Config(Definitions(metrics), revision)
    }

    /** Installs a validated list; the caller numbers the change. */
    method UpdateMetricsLocked(values: seq<Definition>) returns (changed: bool)
      requires Valid() && DistinctNames(values)
      modifies this`metrics, this`metricVersions, this`sequence, this`named
      ensures Distinct(metrics) && Definitions(metrics) == values && VersionsMatch(metricVersions, ByName(metrics))
      ensures forall i :: 0 <= i < |metrics| ==> Named(named, metrics[i])
      ensures forall v :: v in named ==> v <= sequence
      ensures forall v :: v in old(named) ==> v in named && named[v] == old(named)[v]
      ensures changed <==> ToSet(values) != ToSet(Definitions(old(metrics)))
      ensures !changed ==> ByName(metrics) == ByName(old(metrics))
    {
      hide ByName, VersionsMatch;
      var previous := IndexByName(metrics);
      assert forall name :: name in previous ==> Named(named, previous[name]) by {
        ViewNamed(metrics, named);
      }
      ChangedMeans(values, metrics);
      var list, versions, last, added, names := AssignVersions(values, previous, sequence, named);
      changed := |values| != |metrics| || added;
      if !changed {
        UnchangedView(list, values, metrics, names, last);
      }
      assert Definitions(list) == values;
      metrics, metricVersions, sequence, named := list, versions, last, names;
    }

    /** Replaces all definitions. The registry version moves exactly when the set of definitions does. */
    method Replace(updates: seq<CustomMetric>, at: Option<Instant>, ordered: bool) returns (accepted: bool)
      requires Valid()
      modifies this
      ensures Valid() && Grown()
      ensures accepted <==> Acceptable(updates)
      ensures Abstract() == Replaced(old(Abstract()), updates, at, ordered)
      ensures version == old(version) <==> ToSet(Definitions(metrics)) == ToSet(Definitions(old(metrics)))
    {
      hide ByName, VersionsMatch, ToSet, Enabled, DistinctNames, AllValid, Definitions;
      var values := ValidateRegisteredMetrics(updates);
      if values.None? {
        return false;
      }
      if ordered && Stale(revision, at) {
        return true;
      }
      if ordered {
        revision := at;
      }
      var changed := UpdateMetricsLocked(values.value);
      if changed {
        version := version + 1;
        history := history[version := ByName(metrics)];
      }
      return true;
    }

    method ExecuteCustomMetricRegister(task: Task) returns (success: bool)
      requires Valid()
      modifies this
      ensures Valid() && Grown()
      ensures success <==> ValidTask(task)
      ensures Abstract() == Registration(old(Abstract()), task)
    {
      if !task.decodes {
        return false;
      }
      success := Replace(task.metrics, Some(task.createdAt), true);
    }
  }

  lemma ViewNamed(metrics: seq<Registered>, named: map<nat, Definition>)
    requires Distinct(metrics) && forall i :: 0 <= i < |metrics| ==> Named(named, metrics[i])
    ensures forall name :: name in ByName(metrics) ==> Named(named, ByName(metrics)[name])
  {
    forall name | name in ByName(metrics)
      ensures Named(named, ByName(metrics)[name])
    {
      var i :| 0 <= i < |metrics| && metrics[i] == ByName(metrics)[name];
    }
  }

  /** Any list of register tasks, in any order and with repetitions: the registry ends with the
      definitions of the valid task that was created last. */
  method RegisterAll(tasks: seq<Task>) returns (registry: Registry)
    requires TimesNameTasks(tasks)
    ensures fresh(registry) && registry.Valid()
    ensures forall k: nat :: IsLatest(tasks, k) ==>
              registry.Abstract() == Config(Enabled(tasks[k].metrics), Some(tasks[k].createdAt))
    ensures (forall i :: 0 <= i < |tasks| ==> !ValidTask(tasks[i])) ==> registry.Abstract() == Config([], None)
    ensures registry.Abstract().revision.Some? <==> exists k: nat :: IsLatest(tasks, k)
  {
    hide Registry.Valid, Registration, IsLatest, ValidTask;
    registry := new Registry();
    for i := 0 to |tasks|
      invariant fresh(registry) && registry.Valid() && registry.Abstract() == Deliver(tasks[..i])
    {
      var success := registry.ExecuteCustomMetricRegister(tasks[i]);
      assert tasks[..i + 1][..i] == tasks[..i];
    }
    assert tasks[..|tasks|] == tasks;
    LastWriterWins(tasks);
  }
}
