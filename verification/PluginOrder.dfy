/** Ordering plugins by their dependencies (resolve_plugin_order in backend/plugin/core.py). */
module PluginOrder {
  import opened Text

  datatype Plugin = Plugin(name: string, dependsOn: Option<seq<string>>)

  datatype OrderError = Missing(plugin: string, dependency: string) | Cycle(path: seq<string>)

  datatype Result = Ordered(plugins: seq<Plugin>) | Failed(error: OrderError)

  function Dependencies(p: Plugin): seq<string> {
    if p.dependsOn.None? then [] else p.dependsOn.value
  }

  predicate DistinctNames(plugins: seq<Plugin>) {
    forall i, k :: 0 <= i < k < |plugins| ==> plugins[i].name != plugins[k].name
  }

  function NameSet(plugins: seq<Plugin>): set<string> {
    set i | 0 <= i < |plugins| :: plugins[i].name
  }

  /** Some entry of the first name depends on the second. */
  predicate Edge(plugins: seq<Plugin>, a: string, b: string) {
    exists p :: p in plugins && p.name == a && b in Dependencies(p)
  }

  predicate Chain(plugins: seq<Plugin>, path: seq<string>) {
    forall i :: 0 <= i < |path| - 1 ==> Edge(plugins, path[i], path[i + 1])
  }

  /** A genuine cycle: each plugin on the path depends on the next, and the last is the first. */
  predicate IsCycle(plugins: seq<Plugin>, path: seq<string>) {
    |path| >= 2 && path[0] == path[|path| - 1] && Chain(plugins, path)
  }

  ghost predicate Acyclic(plugins: seq<Plugin>) {
    forall path :: !IsCycle(plugins, path)
  }

  predicate Resolvable(entries: seq<Plugin>, names: set<string>) {
    forall p :: p in entries ==> forall d :: d in Dependencies(p) ==> d in names
  }

  /** What the error says is so, for these entries and the names there are. */
  predicate TrueError(entries: seq<Plugin>, names: set<string>, e: OrderError) {
    match e
    case Missing(p, d) => Edge(entries, p, d) && d !in names
    case Cycle(path) => IsCycle(entries, path)
  }

  /** Every dependency comes before its dependents. */
  predicate DependenciesFirst(plugins: seq<Plugin>) {
    forall i, d :: 0 <= i < |plugins| && d in Dependencies(plugins[i]) ==> d in NameSet(plugins[..i])
  }

  predicate NoRepeats(names: seq<string>) {
    forall i, k :: 0 <= i < k < |names| ==> names[i] != names[k]
  }

  lemma NameSetAppend(plugins: seq<Plugin>, p: Plugin)
    ensures NameSet(plugins + [p]) == NameSet(plugins) + {p.name}
  {
    var all := plugins + [p];
    assert all[|plugins|].name == p.name;
    forall i | 0 <= i < |plugins|
      ensures plugins[i].name in NameSet(all)
    {
      assert all[i].name == plugins[i].name;
    }
  }

  lemma AppendInOrder(plugins: seq<Plugin>, p: Plugin)
    requires DependenciesFirst(plugins) && forall d :: d in Dependencies(p) ==> d in NameSet(plugins)
    ensures DependenciesFirst(plugins + [p])
  {
    var all := plugins + [p];
    forall i, d | 0 <= i < |all| && d in Dependencies(all[i])
      ensures d in NameSet(all[..i])
    {
      assert all[..i] == if i < |plugins| then plugins[..i] else plugins;
    }
  }

  lemma EntryNamed(plugins: seq<Plugin>, p: Plugin)
    requires p in plugins
    ensures p.name in NameSet(plugins)
  {
    var i :| 0 <= i < |plugins| && plugins[i] == p;
    assert plugins[i].name in NameSet(plugins);
  }

  /** A finished part of the ordering: entries of the list, no name twice. */
  ghost predicate Sound(plugins: seq<Plugin>, ordered: seq<Plugin>, visited: set<string>) {
    && DistinctNames(ordered) && DependenciesFirst(ordered)
    && (forall i :: 0 <= i < |ordered| ==> ordered[i] in plugins)
    && visited == NameSet(ordered)
  }

  ghost predicate OnTheWay(plugins: seq<Plugin>, visiting: seq<string>, visited: set<string>) {
    && NoRepeats(visiting)
    && (forall i :: 0 <= i < |visiting| ==> visiting[i] in NameSet(plugins) && visiting[i] !in visited)
  }

  lemma AppendSound(plugins: seq<Plugin>, ordered: seq<Plugin>, visited: set<string>, p: Plugin)
    requires Sound(plugins, ordered, visited) && p in plugins && p.name !in visited
    requires forall d :: d in Dependencies(p) ==> d in visited
    ensures Sound(plugins, ordered + [p], visited + {p.name})
  {
    AppendInOrder(ordered, p);
    NameSetAppend(ordered, p);
    assert forall i :: 0 <= i < |ordered| ==> ordered[i].name in visited;
  }

  lemma PushOnTheWay(plugins: seq<Plugin>, visiting: seq<string>, visited: set<string>, name: string)
    requires OnTheWay(plugins, visiting, visited) && name in NameSet(plugins) && name !in visited && name !in visiting
    ensures OnTheWay(plugins, visiting + [name], visited)
  {}

  lemma NotVisitedYet(plugins: seq<Plugin>, visiting: seq<string>, visited: set<string>)
    requires OnTheWay(plugins, visiting, visited) && visiting != []
    ensures visiting[|visiting| - 1] !in visited && visiting[|visiting| - 1] !in visiting[..|visiting| - 1]
    ensures OnTheWay(plugins, visiting[..|visiting| - 1], visited)
  {}

  lemma StillOnTheWay(plugins: seq<Plugin>, visiting: seq<string>, visited: set<string>, name: string)
    requires OnTheWay(plugins, visiting, visited) && name !in visiting
    ensures OnTheWay(plugins, visiting, visited + {name})
  {}

  lemma CycleFound(plugins: seq<Plugin>, visiting: seq<string>, start: int, name: string)
    requires Chain(plugins, visiting) && 0 <= start < |visiting| && visiting[start] == name
    requires Edge(plugins, visiting[|visiting| - 1], name)
    ensures IsCycle(plugins, visiting[start..] + [name])
  {}

  /** The plugins by name; a later one of the same name replaces an earlier one. */
  function TableOf(plugins: seq<Plugin>): map<string, Plugin> {
    if plugins == [] then map[]
    else TableOf(plugins[..|plugins| - 1])[plugins[|plugins| - 1].name := plugins[|plugins| - 1]]
  }

  lemma {:induction false} TableOfFacts(plugins: seq<Plugin>)
    ensures TableOf(plugins).Keys == NameSet(plugins)
    ensures forall n :: n in TableOf(plugins) ==> TableOf(plugins)[n].name == n && TableOf(plugins)[n] in plugins
  {
    if plugins != [] {
      var front, p := plugins[..|plugins| - 1], plugins[|plugins| - 1];
      TableOfFacts(front);
      NameSetAppend(front, p);
      assert plugins == front + [p];
    }
  }

  lemma {:induction false} LastOfNameWins(plugins: seq<Plugin>, i: int)
    requires 0 <= i < |plugins| && forall k :: i < k < |plugins| ==> plugins[k].name != plugins[i].name
    ensures plugins[i].name in TableOf(plugins) && TableOf(plugins)[plugins[i].name] == plugins[i]
  {
    if i < |plugins| - 1 {
      LastOfNameWins(plugins[..|plugins| - 1], i);
    }
  }

  // ---------- the entries looked at ----------

  /** The entry that stands for a name during the turn of plugin n: that plugin itself, or the last of the name. */
  function EntryIn(plugins: seq<Plugin>, n: nat, name: string): Plugin
    requires n < |plugins| && name in TableOf(plugins)
  {
    if name == plugins[n].name then plugins[n] else TableOf(plugins)[name]
  }

  /** A way along dependencies from plugin n through names that were not seen before its turn. */
  ghost predicate Leads(plugins: seq<Plugin>, n: nat, seen: set<string>, path: seq<string>)
    requires n < |plugins|
  {
    && path != [] && path[0] == plugins[n].name
    && (forall i :: 0 <= i < |path| ==> path[i] in TableOf(plugins) && path[i] !in seen)
    && (forall i :: 0 <= i < |path| - 1 ==> path[i + 1] in Dependencies(EntryIn(plugins, n, path[i])))
  }

  ghost predicate Reaches(plugins: seq<Plugin>, n: nat, seen: set<string>, name: string)
    requires n < |plugins|
  {
    exists path :: Leads(plugins, n, seen, path) && path[|path| - 1] == name
  }

  /** The names reached in the turns of the first n plugins. */
  ghost function Seen(plugins: seq<Plugin>, n: nat): set<string>
    requires n <= |plugins|
  {
    if n == 0 then {}
    else
      var before := Seen(plugins, n - 1);
      before + set name | name in NameSet(plugins) && Reaches(plugins, n - 1, before, name)
  }

  /** The entry is the one that stands for its name in the turn that reaches that name. */
  ghost predicate LookedAt(plugins: seq<Plugin>, n: nat, seen: set<string>, q: Plugin)
    requires n < |plugins|
  {
    q.name in TableOf(plugins) && Reaches(plugins, n, seen, q.name) && q == EntryIn(plugins, n, q.name)
  }

  ghost predicate EverLookedAt(plugins: seq<Plugin>, q: Plugin) {
    exists n :: 0 <= n < |plugins| && LookedAt(plugins, n, Seen(plugins, n), q)
  }

  ghost function LookedAmong(plugins: seq<Plugin>, entries: seq<Plugin>): seq<Plugin> {
    if entries == [] then []
    else
      var front, last := entries[..|entries| - 1], entries[|entries| - 1];
      LookedAmong(plugins, front) + if EverLookedAt(plugins, last) then [last] else []
  }

  /** The entries of the list that decide: all of them when no name repeats, otherwise one for each name. */
  ghost function Looked(plugins: seq<Plugin>): seq<Plugin> {
    LookedAmong(plugins, plugins)
  }

  lemma {:induction false} LookedAmongFacts(plugins: seq<Plugin>, entries: seq<Plugin>)
    ensures forall q :: q in LookedAmong(plugins, entries) <==> q in entries && EverLookedAt(plugins, q)
  {
    if entries != [] {
      LookedAmongFacts(plugins, entries[..|entries| - 1]);
      assert entries == entries[..|entries| - 1] + [entries[|entries| - 1]];
    }
  }

  lemma LookedFacts(plugins: seq<Plugin>)
    ensures forall q :: q in Looked(plugins) <==> EverLookedAt(plugins, q)
    ensures forall q :: q in Looked(plugins) ==> q in plugins
  {
    LookedAmongFacts(plugins, plugins);
    TableOfFacts(plugins);
  }

  lemma EntryNameIs(plugins: seq<Plugin>, n: nat, name: string)
    requires n < |plugins| && name in TableOf(plugins)
    ensures EntryIn(plugins, n, name).name == name && EntryIn(plugins, n, name) in plugins
  {
    TableOfFacts(plugins);
  }

  /** Every step of a way stands for an entry that is looked at. */
  lemma WayLookedAt(plugins: seq<Plugin>, n: nat, seen: set<string>, path: seq<string>, i: int)
    requires n < |plugins| && Leads(plugins, n, seen, path) && 0 <= i < |path|
    ensures LookedAt(plugins, n, seen, EntryIn(plugins, n, path[i]))
  {
    EntryNameIs(plugins, n, path[i]);
    var part := path[..i + 1];
    assert Leads(plugins, n, seen, part) && part[|part| - 1] == path[i];
  }

  /** A way is a chain of dependencies among the entries looked at. */
  lemma WayIsChain(plugins: seq<Plugin>, n: nat, seen: set<string>, path: seq<string>, looked: seq<Plugin>)
    requires n < |plugins| && Leads(plugins, n, seen, path)
    requires forall q :: LookedAt(plugins, n, seen, q) ==> q in looked
    ensures Chain(looked, path)
  {
    forall i | 0 <= i < |path| - 1
      ensures Edge(looked, path[i], path[i + 1])
    {
      EntryNameIs(plugins, n, path[i]);
      WayLookedAt(plugins, n, seen, path, i);
    }
  }

  /** The turn of a plugin: where its visits have come to, and what they have ordered. */
  ghost predicate InTurn(plugins: seq<Plugin>, n: nat, seen: set<string>,
                         visiting: seq<string>, visited: set<string>, ordered: seq<Plugin>)
    requires n < |plugins|
  {
    && seen <= visited
    && (visiting != [] ==> Leads(plugins, n, seen, visiting))
    && forall q :: q in ordered && q.name !in seen ==> LookedAt(plugins, n, seen, q)
  }

  /** The plugin is the next on the way: whose turn it is, or what the table has for a dependency. */
  ghost predicate ComesNext(plugins: seq<Plugin>, n: nat, visiting: seq<string>, p: Plugin)
    requires n < |plugins|
  {
    if visiting == [] then p == plugins[n]
    else
      var last := visiting[|visiting| - 1];
      && p.name in TableOf(plugins) && p == TableOf(plugins)[p.name]
      && last in TableOf(plugins) && p.name in Dependencies(EntryIn(plugins, n, last))
  }

  /** Going on to the next plugin. */
  lemma WayToNext(plugins: seq<Plugin>, n: nat, seen: set<string>, visiting: seq<string>, visited: set<string>,
                  ordered: seq<Plugin>, p: Plugin)
    requires n < |plugins| && InTurn(plugins, n, seen, visiting, visited, ordered)
    requires ComesNext(plugins, n, visiting, p) && p.name !in visited && p.name !in visiting
    ensures InTurn(plugins, n, seen, visiting + [p.name], visited, ordered)
    ensures LookedAt(plugins, n, seen, p) && p in plugins
  {
    TableOfFacts(plugins);
    EntryNamed(plugins, plugins[n]);
    var path := visiting + [p.name];
    WayLookedAt(plugins, n, seen, path, |path| - 1);
  }

  /** Coming back from it. */
  lemma WayBack(plugins: seq<Plugin>, n: nat, seen: set<string>, visiting: seq<string>, visited: set<string>,
                ordered: seq<Plugin>)
    requires n < |plugins| && InTurn(plugins, n, seen, visiting, visited, ordered) && visiting != []
    ensures InTurn(plugins, n, seen, visiting[..|visiting| - 1], visited, ordered)
  {}

  lemma TurnAppends(plugins: seq<Plugin>, n: nat, seen: set<string>, visiting: seq<string>, visited: set<string>,
                    ordered: seq<Plugin>, p: Plugin)
    requires n < |plugins| && InTurn(plugins, n, seen, visiting, visited, ordered) && LookedAt(plugins, n, seen, p)
    ensures InTurn(plugins, n, seen, visiting, visited + {p.name}, ordered + [p])
  {}

  /** A dependency of the last plugin on the way comes next, if there is a plugin of that name. */
  lemma NextDependency(plugins: seq<Plugin>, n: nat, visiting: seq<string>, visited: set<string>, ordered: seq<Plugin>,
                       looked: seq<Plugin>, p: Plugin, d: string)
    requires n < |plugins| && Sound(plugins, ordered, visited) && d in Dependencies(p)
    requires visiting != [] && visiting[|visiting| - 1] == p.name
    requires p.name in TableOf(plugins) && p == EntryIn(plugins, n, p.name)
    ensures d in TableOf(plugins) ==>
              TableOf(plugins)[d].name == d && ComesNext(plugins, n, visiting, TableOf(plugins)[d])
    ensures d !in TableOf(plugins) ==> d !in visited
    ensures d !in TableOf(plugins) && p in looked ==> TrueError(looked, NameSet(plugins), Missing(p.name, d))
  {
    TableOfFacts(plugins);
    VisitedNamed(plugins, ordered, visited);
  }

  lemma CycleOfNext(plugins: seq<Plugin>, n: nat, seen: set<string>, visiting: seq<string>, start: int, p: Plugin,
                    looked: seq<Plugin>)
    requires n < |plugins| && Leads(plugins, n, seen, visiting)
    requires forall q :: LookedAt(plugins, n, seen, q) ==> q in looked
    requires ComesNext(plugins, n, visiting, p) && 0 <= start < |visiting| && visiting[start] == p.name
    ensures IsCycle(looked, visiting[start..] + [p.name])
  {
    WayIsChain(plugins, n, seen, visiting, looked);
    EntryNameIs(plugins, n, visiting[|visiting| - 1]);
    WayLookedAt(plugins, n, seen, visiting, |visiting| - 1);
    CycleFound(looked, visiting, start, p.name);
  }

  ghost function NamesOn(path: seq<string>): set<string> {
    set n | n in path
  }

  /** The recursive visit with the collections it shares. */
  class Resolver {
    const plugins: seq<Plugin>
    const table: map<string, Plugin>
    ghost const looked: seq<Plugin>
    ghost var turn: nat
    ghost var seen: set<string>
    var visited: set<string>
    var visiting: seq<string>
    var ordered: seq<Plugin>

    constructor (plugins: seq<Plugin>)
      ensures this.plugins == plugins && visited == {} && visiting == [] && ordered == []
      ensures looked == Looked(plugins) && Valid()
    {
      this.plugins, table := plugins, TableOf(plugins);
      looked, turn, seen := Looked(plugins), |plugins|, {};
      visited, visiting, ordered := {}, [], [];
    }

    ghost predicate Valid()
      reads this
    {
      && table == TableOf(plugins) && Sound(plugins, ordered, visited) && OnTheWay(plugins, visiting, visited)
      && (turn < |plugins| ==> InTurn(plugins, turn, seen, visiting, visited, ordered))
      && (turn < |plugins| ==> forall q :: LookedAt(plugins, turn, seen, q) ==> q in looked)
    }

    /** Without an error the plugin and all it needs are ordered; an error is a true one. A plugin already visited
        changes nothing, and one whose dependencies all are is appended. */
    method Visit(plugin: Plugin) returns (error: Option<OrderError>)
      requires Valid() && turn < |plugins| && ComesNext(plugins, turn, visiting, plugin)
      modifies this
      ensures error.Some? ==> TrueError(looked, NameSet(plugins), error.value)
      ensures error.None? ==> Valid() && turn == old(turn) && seen == old(seen) && visiting == old(visiting)
      ensures error.None? ==> old(ordered) <= ordered && old(visited) <= visited && plugin.name in visited
      ensures plugin.name in old(visited) ==> error.None? && ordered == old(ordered)
      ensures plugin.name !in old(visited) && plugin.name !in old(visiting)
              && (forall d :: d in Dependencies(plugin) ==> d in old(visited)) ==>
                error.None? && ordered == old(ordered) + [plugin]
      decreases NameSet(plugins) - NamesOn(visiting), 1
    {
      if plugin.name in visited {
        return None;
      }
      if plugin.name in visiting {
        var start :| 0 <= start < |visiting| && visiting[start] == plugin.name;
        CycleOfNext(plugins, turn, seen, visiting, start, plugin, looked);
        return Some(Cycle(visiting[start..] + [plugin.name]));
      }
      WayToNext(plugins, turn, seen, visiting, visited, ordered, plugin);
      if plugin.dependsOn.Some? {
        error := VisitDependencies(plugin);
        if error.Some? {
          return;
        }
      }
      Append(plugin);
      return None;
    }

    /** The end of a visit. */
    method Append(plugin: Plugin)
      requires Valid() && turn < |plugins| && LookedAt(plugins, turn, seen, plugin) && plugin in plugins
      requires plugin.name !in visited && plugin.name !in visiting
      requires forall d :: d in Dependencies(plugin) ==> d in visited
      modifies this`visited, this`ordered
      ensures Valid() && visited == old(visited) + {plugin.name} && ordered == old(ordered) + [plugin]
    {
      StillOnTheWay(plugins, visiting, visited, plugin.name);
      AppendSound(plugins, ordered, visited, plugin);
      TurnAppends(plugins, turn, seen, visiting, visited, ordered, plugin);
      visited := visited + {plugin.name};
      ordered := ordered + [plugin];
    }

    method Enter(plugin: Plugin)
      requires Valid() && turn < |plugins| && ComesNext(plugins, turn, visiting, plugin)
      requires plugin.name !in visited && plugin.name !in visiting
      modifies this`visiting
      ensures Valid() && visiting == old(visiting) + [plugin.name]
              && NamesOn(visiting) == NamesOn(old(visiting)) + {plugin.name}
      ensures plugin in looked && plugin.name in NameSet(plugins)
      ensures plugin.name in table && plugin == EntryIn(plugins, turn, plugin.name)
    {
      WayToNext(plugins, turn, seen, visiting, visited, ordered, plugin);
      EntryNamed(plugins, plugin);
      PushOnTheWay(plugins, visiting, visited, plugin.name);
      visiting := visiting + [plugin.name];
    }

    method Leave()
      requires Valid() && turn < |plugins| && visiting != []
      modifies this`visiting
      ensures Valid() && visiting == old(visiting)[..|old(visiting)| - 1]
      ensures old(visiting)[|old(visiting)| - 1] !in visited && old(visiting)[|old(visiting)| - 1] !in visiting
    {
      NotVisitedYet(plugins, visiting, visited);
      WayBack(plugins, turn, seen, visiting, visited, ordered);
      visiting := visiting[..|visiting| - 1];
    }

    /** One dependency of the plugin that is last on the way. */
    method VisitDependency(plugin: Plugin, d: string) returns (error: Option<OrderError>)
      requires Valid() && turn < |plugins| && d in Dependencies(plugin) && plugin in looked
      requires visiting != [] && visiting[|visiting| - 1] == plugin.name
      requires plugin.name in table && plugin == EntryIn(plugins, turn, plugin.name)
      modifies this
      ensures error.Some? ==> TrueError(looked, NameSet(plugins), error.value)
      ensures error.None? ==> Valid() && turn == old(turn) && seen == old(seen) && visiting == old(visiting)
      ensures error.None? ==> old(ordered) <= ordered && old(visited) <= visited && d in visited
      ensures d in old(visited) ==> error.None? && ordered == old(ordered) && visited == old(visited)
      decreases NameSet(plugins) - NamesOn(visiting), 2
    {
      NextDependency(plugins, turn, visiting, visited, ordered, looked, plugin, d);
      if d !in table {
        return Some(Missing(plugin.name, d));
      }
      error := Visit(table[d]);
    }

    /** The part of a visit that goes over the plugin's dependencies while the plugin is on the way. */
    method VisitDependencies(plugin: Plugin) returns (error: Option<OrderError>)
      requires Valid() && turn < |plugins| && ComesNext(plugins, turn, visiting, plugin)
      requires plugin.name !in visited && plugin.name !in visiting
      modifies this
      ensures error.Some? ==> TrueError(looked, NameSet(plugins), error.value)
      ensures error.None? ==> Valid() && turn == old(turn) && seen == old(seen) && visiting == old(visiting)
      ensures error.None? ==> old(ordered) <= ordered && old(visited) <= visited && plugin.name !in visited
      ensures error.None? ==> forall d :: d in Dependencies(plugin) ==> d in visited
      ensures (forall d :: d in Dependencies(plugin) ==> d in old(visited)) ==>
                error.None? && ordered == old(ordered) && visited == old(visited)
      decreases NameSet(plugins) - NamesOn(visiting), 0
    {
      var deps := Dependencies(plugin);
      Enter(plugin);
      for n := 0 to |deps|
        invariant Valid() && turn == old(turn) && seen == old(seen) && visiting == old(visiting) + [plugin.name]
        invariant old(ordered) <= ordered && old(visited) <= visited
        invariant forall i :: 0 <= i < n ==> deps[i] in visited
        invariant (forall d :: d in deps ==> d in old(visited)) ==> ordered == old(ordered) && visited == old(visited)
      {
        error := VisitDependency(plugin, deps[n]);
        if error.Some? {
          return;
        }
      }
      Leave();
      return None;
    }
  }

  /** After a turn without an error every entry on a way from its plugin is ordered. */
  lemma {:induction false} WayOrdered(plugins: seq<Plugin>, n: nat, seen: set<string>, visited: set<string>,
                                      ordered: seq<Plugin>, path: seq<string>, i: int)
    requires n < |plugins| && Sound(plugins, ordered, visited) && InTurn(plugins, n, seen, [], visited, ordered)
    requires plugins[n].name in visited && Leads(plugins, n, seen, path) && 0 <= i < |path|
    ensures EntryIn(plugins, n, path[i]) in ordered
  {
    if i > 0 {
      WayOrdered(plugins, n, seen, visited, ordered, path, i - 1);
      var e := EntryIn(plugins, n, path[i - 1]);
      var k :| 0 <= k < |ordered| && ordered[k] == e;
      assert path[i] in Dependencies(e);
      var j :| 0 <= j < |ordered[..k]| && ordered[..k][j].name == path[i];
      assert ordered[j].name in NameSet(ordered);
    }
    var j :| 0 <= j < |ordered| && ordered[j].name == path[i];
    assert ordered[j] in ordered;
  }

  /** So a turn without an error orders what it looks at. */
  lemma TurnOrders(plugins: seq<Plugin>, n: nat, seen: set<string>, visited: set<string>, ordered: seq<Plugin>,
                   q: Plugin)
    requires n < |plugins| && Sound(plugins, ordered, visited) && InTurn(plugins, n, seen, [], visited, ordered)
    requires plugins[n].name in visited && LookedAt(plugins, n, seen, q)
    ensures q in ordered
  {
    var path :| Leads(plugins, n, seen, path) && path[|path| - 1] == q.name;
    WayOrdered(plugins, n, seen, visited, ordered, path, |path| - 1);
  }

  /** And it has visited exactly the names seen by then. */
  lemma TurnVisits(plugins: seq<Plugin>, n: nat, visited: set<string>, ordered: seq<Plugin>)
    requires n < |plugins| && Sound(plugins, ordered, visited) && plugins[n].name in visited
    requires InTurn(plugins, n, Seen(plugins, n), [], visited, ordered)
    ensures visited == Seen(plugins, n + 1)
  {
    var seen := Seen(plugins, n);
    TableOfFacts(plugins);
    VisitedNamed(plugins, ordered, visited);
    forall name | name in Seen(plugins, n + 1)
      ensures name in visited
    {
      if name !in seen {
        EntryNameIs(plugins, n, name);
        var q := EntryIn(plugins, n, name);
        TurnOrders(plugins, n, seen, visited, ordered, q);
        EntryNamed(ordered, q);
      }
    }
    forall name | name in visited
      ensures name in Seen(plugins, n + 1)
    {
      var k :| 0 <= k < |ordered| && ordered[k].name == name;
      assert ordered[k] in ordered;
    }
  }

  lemma VisitedNamed(plugins: seq<Plugin>, ordered: seq<Plugin>, visited: set<string>)
    requires Sound(plugins, ordered, visited)
    ensures visited <= NameSet(plugins)
  {
    forall n | n in visited
      ensures n in NameSet(plugins)
    {
      var i :| 0 <= i < |ordered| && ordered[i].name == n;
      EntryNamed(plugins, ordered[i]);
    }
  }

  /** Where a plugin stands in the list. */
  ghost function Position(plugins: seq<Plugin>, name: string): int
    requires name in NameSet(plugins)
  {
    var i :| 0 <= i < |plugins| && plugins[i].name == name; i
  }

  /** With distinct names an entry of the list is the one of its name in the ordering. */
  lemma OrderedEntry(plugins: seq<Plugin>, ordered: seq<Plugin>, p: Plugin)
    requires DistinctNames(plugins) && Sound(plugins, ordered, NameSet(plugins)) && p in plugins
    ensures p.name in NameSet(ordered) && ordered[Position(ordered, p.name)] == p
  {
    EntryNamed(plugins, p);
    var q := ordered[Position(ordered, p.name)];
    assert q in plugins && q.name == p.name;
    var i :| 0 <= i < |plugins| && plugins[i] == p;
    var k :| 0 <= k < |plugins| && plugins[k] == q;
    assert i == k;
  }

  /** Along an edge the position goes down. */
  lemma EdgeGoesDown(plugins: seq<Plugin>, ordered: seq<Plugin>, a: string, b: string)
    requires DistinctNames(plugins) && Sound(plugins, ordered, NameSet(plugins)) && Edge(plugins, a, b)
    ensures a in NameSet(ordered) && b in NameSet(ordered) && Position(ordered, b) < Position(ordered, a)
  {
    var p :| p in plugins && p.name == a && b in Dependencies(p);
    OrderedEntry(plugins, ordered, p);
    var k := Position(ordered, a);
    assert b in NameSet(ordered[..k]);
    var j :| 0 <= j < k && ordered[..k][j].name == b;
    assert ordered[j].name == b;
  }

  lemma {:induction false} ChainGoesDown(plugins: seq<Plugin>, ordered: seq<Plugin>, path: seq<string>, i: int)
    requires DistinctNames(plugins) && Sound(plugins, ordered, NameSet(plugins)) && Chain(plugins, path)
    requires 0 < i < |path|
    ensures path[0] in NameSet(ordered) && path[i] in NameSet(ordered)
    ensures Position(ordered, path[i]) < Position(ordered, path[0])
  {
    assert Edge(plugins, path[i - 1], path[i]);
    EdgeGoesDown(plugins, ordered, path[i - 1], path[i]);
    if i > 1 {
      ChainGoesDown(plugins, ordered, path, i - 1);
    }
  }

  lemma {:induction false} OrderedMeansAcyclic(plugins: seq<Plugin>, ordered: seq<Plugin>)
    requires DistinctNames(plugins) && Sound(plugins, ordered, NameSet(plugins))
    ensures Resolvable(plugins, NameSet(plugins)) && Acyclic(plugins)
  {
    forall p, d | p in plugins && d in Dependencies(p)
      ensures d in NameSet(plugins)
    {
      assert Edge(plugins, p.name, d);
      EdgeGoesDown(plugins, ordered, p.name, d);
    }
    forall path
      ensures !IsCycle(plugins, path)
    {
      if |path| >= 2 && Chain(plugins, path) {
        ChainGoesDown(plugins, ordered, path, |path| - 1);
      }
    }
  }

  lemma {:induction false} NoDuplicates(xs: seq<Plugin>)
    requires DistinctNames(xs)
    ensures forall p :: multiset(xs)[p] <= 1
  {
    if xs != [] {
      var front, last := xs[..|xs| - 1], xs[|xs| - 1];
      NoDuplicates(front);
      assert xs == front + [last];
      assert last !in front;
    }
  }

  /** A complete ordering is a permutation of the list exactly when no name stands in the list twice. */
  lemma {:induction false} PermutationIffDistinct(plugins: seq<Plugin>, ordered: seq<Plugin>)
    requires Sound(plugins, ordered, NameSet(plugins))
    ensures multiset(ordered) == multiset(plugins) <==> DistinctNames(plugins)
  {
    if DistinctNames(plugins) {
      NoDuplicates(plugins);
      NoDuplicates(ordered);
      forall p
        ensures multiset(ordered)[p] == multiset(plugins)[p]
      {
        if p in plugins {
          OrderedEntry(plugins, ordered, p);
          assert p in ordered;
        }
        assert p in multiset(ordered) <==> p in ordered;
        assert p in multiset(plugins) <==> p in plugins;
      }
    } else {
      var i, k :| 0 <= i < k < |plugins| && plugins[i].name == plugins[k].name;
      TwiceInList(plugins, i, k);
      NoDuplicates(ordered);
      assert multiset(ordered)[plugins[i]] <= 1;
      assert plugins[i] in multiset(ordered) ==> plugins[i] in ordered;
      assert plugins[k] in multiset(ordered) ==> plugins[k] in ordered;
      SameName(ordered, plugins[i], plugins[k]);
    }
  }

  lemma SameName(xs: seq<Plugin>, p: Plugin, q: Plugin)
    requires DistinctNames(xs) && p.name == q.name
    ensures p in xs && q in xs ==> p == q
  {
    if p in xs && q in xs {
      var x :| 0 <= x < |xs| && xs[x] == p;
      var y :| 0 <= y < |xs| && xs[y] == q;
      assert x == y;
    }
  }

  lemma TwiceInList(xs: seq<Plugin>, i: int, k: int)
    requires 0 <= i < k < |xs|
    ensures xs[i] in multiset(xs) && xs[k] in multiset(xs)
    ensures xs[i] == xs[k] ==> multiset(xs)[xs[i]] >= 2
  {
    assert xs == xs[..k] + xs[k..];
    assert xs[..k][i] == xs[i] && xs[k..][0] == xs[k];
    assert xs[i] in multiset(xs[..k]) && xs[k] in multiset(xs[k..]);
  }

  lemma TrueErrorUnresolvable(entries: seq<Plugin>, names: set<string>, e: OrderError)
    requires TrueError(entries, names, e)
    ensures !(Resolvable(entries, names) && Acyclic(entries))
  {
    match e
    case Missing(p, d) =>
      var q :| q in entries && q.name == p && d in Dependencies(q);
    case Cycle(path) =>
  }

  lemma FewerEntries(some: seq<Plugin>, all: seq<Plugin>, names: set<string>)
    requires forall q :: q in some ==> q in all
    ensures Resolvable(all, names) ==> Resolvable(some, names)
    ensures Acyclic(all) ==> Acyclic(some)
  {
    forall path | IsCycle(some, path)
      ensures IsCycle(all, path)
    {
      forall i | 0 <= i < |path| - 1
        ensures Edge(all, path[i], path[i + 1])
      {
        assert Edge(some, path[i], path[i + 1]);
      }
    }
  }

  lemma NextInOrder(plugins: seq<Plugin>, n: int)
    requires 0 <= n < |plugins|
    ensures NameSet(plugins[..n + 1]) == NameSet(plugins[..n]) + {plugins[n].name}
    ensures plugins[..n + 1] == plugins[..n] + [plugins[n]]
    ensures DistinctNames(plugins) ==> plugins[n].name !in NameSet(plugins[..n])
    ensures DependenciesFirst(plugins) ==> forall d :: d in Dependencies(plugins[n]) ==> d in NameSet(plugins[..n])
  {
    assert plugins[..n + 1] == plugins[..n] + [plugins[n]];
    NameSetAppend(plugins[..n], plugins[n]);
  }

  /** The first n turns are over: what they saw is visited, what they looked at is ordered. */
  ghost predicate TurnsOver(plugins: seq<Plugin>, n: nat, visited: set<string>, ordered: seq<Plugin>)
    requires n <= |plugins|
  {
    && visited == Seen(plugins, n) && NameSet(plugins[..n]) <= visited
    && (forall q :: q in ordered ==> EverLookedAt(plugins, q))
    && (forall m, q :: 0 <= m < n && LookedAt(plugins, m, Seen(plugins, m), q) ==> q in ordered)
  }

  lemma TurnBegins(plugins: seq<Plugin>, n: nat, visited: set<string>, ordered: seq<Plugin>)
    requires n < |plugins| && Sound(plugins, ordered, visited) && visited == Seen(plugins, n)
    ensures InTurn(plugins, n, Seen(plugins, n), [], visited, ordered)
    ensures forall q :: LookedAt(plugins, n, Seen(plugins, n), q) ==> q in Looked(plugins)
  {
    OrderedNames(ordered);
    LookedFacts(plugins);
  }

  lemma TurnEnds(plugins: seq<Plugin>, n: nat, before: seq<Plugin>, visited: set<string>, ordered: seq<Plugin>)
    requires n < |plugins| && TurnsOver(plugins, n, Seen(plugins, n), before) && before <= ordered
    requires forall q :: q in ordered && q.name in Seen(plugins, n) ==> q in before
    requires Sound(plugins, ordered, visited) && plugins[n].name in visited
    requires InTurn(plugins, n, Seen(plugins, n), [], visited, ordered)
    ensures TurnsOver(plugins, n + 1, visited, ordered)
  {
    TurnVisits(plugins, n, visited, ordered);
    NextInOrder(plugins, n);
    forall q | q in ordered
      ensures EverLookedAt(plugins, q)
    {
      if q.name !in Seen(plugins, n) {
        assert LookedAt(plugins, n, Seen(plugins, n), q);
      }
    }
    forall m, q | 0 <= m < n + 1 && LookedAt(plugins, m, Seen(plugins, m), q)
      ensures q in ordered
    {
      if m == n {
        TurnOrders(plugins, n, Seen(plugins, n), visited, ordered, q);
      } else {
        assert q in before;
      }
    }
  }

  /** A longer ordering has no second entry of an old name. */
  lemma OldEntries(plugins: seq<Plugin>, before: seq<Plugin>, names: set<string>, ordered: seq<Plugin>,
                   visited: set<string>)
    requires Sound(plugins, before, names) && Sound(plugins, ordered, visited) && before <= ordered
    ensures forall q :: q in ordered && q.name in names ==> q in before
  {
    forall q | q in ordered && q.name in names
      ensures q in before
    {
      var i :| 0 <= i < |before| && before[i].name == q.name;
      assert ordered[i] in ordered;
      SameName(ordered, q, ordered[i]);
    }
  }

  /** Every turn of an ordered list appends its plugin. */
  ghost predicate AsGiven(plugins: seq<Plugin>, n: nat, ordered: seq<Plugin>)
    requires n <= |plugins|
  {
    DistinctNames(plugins) && DependenciesFirst(plugins) ==> ordered == plugins[..n]
  }

  /** One round of the loop over the list. */
  method VisitTurn(resolver: Resolver, plugins: seq<Plugin>, n: nat) returns (error: Option<OrderError>)
    requires resolver.plugins == plugins && resolver.looked == Looked(plugins) && resolver.Valid()
    requires resolver.visiting == [] && n < |plugins|
    requires TurnsOver(plugins, n, resolver.visited, resolver.ordered) && AsGiven(plugins, n, resolver.ordered)
    modifies resolver
    ensures error.Some? ==> TrueError(Looked(plugins), NameSet(plugins), error.value)
    ensures error.Some? ==> !(DistinctNames(plugins) && DependenciesFirst(plugins))
    ensures error.None? ==> resolver.Valid() && resolver.visiting == []
    ensures error.None? ==> TurnsOver(plugins, n + 1, resolver.visited, resolver.ordered)
    ensures error.None? ==> AsGiven(plugins, n + 1, resolver.ordered)
  {
    NextInOrder(plugins, n);
    TurnBegins(plugins, n, resolver.visited, resolver.ordered);
    ghost var before := resolver.ordered;
    resolver.turn, resolver.seen := n, Seen(plugins, n);
    error := resolver.Visit(plugins[n]);
    if error.None? {
      OldEntries(plugins, before, Seen(plugins, n), resolver.ordered, resolver.visited);
      TurnEnds(plugins, n, before, resolver.visited, resolver.ordered);
    }
  }

  /** The visits of all plugins in the order given. */
  method VisitAll(resolver: Resolver, plugins: seq<Plugin>) returns (error: Option<OrderError>)
    requires resolver.plugins == plugins && resolver.looked == Looked(plugins) && resolver.Valid()
    requires resolver.visited == {} && resolver.visiting == [] && resolver.ordered == []
    modifies resolver
    ensures error.Some? ==> TrueError(Looked(plugins), NameSet(plugins), error.value)
    ensures error.Some? ==> !(DistinctNames(plugins) && DependenciesFirst(plugins))
    ensures error.None? ==> Sound(plugins, resolver.ordered, NameSet(plugins))
    ensures error.None? ==> forall q :: q in resolver.ordered <==> EverLookedAt(plugins, q)
    ensures error.None? && DistinctNames(plugins) && DependenciesFirst(plugins) ==> resolver.ordered == plugins
  {
    for n := 0 to |plugins|
      invariant resolver.Valid() && resolver.visiting == []
      invariant TurnsOver(plugins, n, resolver.visited, resolver.ordered) && AsGiven(plugins, n, resolver.ordered)
    {
      error := VisitTurn(resolver, plugins, n);
      if error.Some? {
        return;
      }
    }
    assert plugins[..|plugins|] == plugins;
    VisitedNamed(plugins, resolver.ordered, resolver.visited);
    return None;
  }

  lemma OrderedNames(ordered: seq<Plugin>)
    ensures forall q :: q in ordered ==> q.name in NameSet(ordered)
  {
    forall q | q in ordered
      ensures q.name in NameSet(ordered)
    {
      EntryNamed(ordered, q);
    }
  }

  /** The whole resolution, for any list. It succeeds exactly when the entries looked at have all their dependencies and
      no cycle among them - for distinct names these are all entries. The result consists of the entries looked at and
      lists every name once, dependencies first; it is a permutation of the input exactly when no name stands there
      twice, and an input already in order comes back unchanged. A failure names a dependency that is missing or a
      cycle that is there. */
  method ResolvePluginOrder(plugins: seq<Plugin>) returns (result: Result)
    ensures result.Ordered? <==> Resolvable(Looked(plugins), NameSet(plugins)) && Acyclic(Looked(plugins))
    ensures Resolvable(plugins, NameSet(plugins)) && Acyclic(plugins) ==> result.Ordered?
    ensures DistinctNames(plugins) ==> (result.Ordered? <==> Resolvable(plugins, NameSet(plugins)) && Acyclic(plugins))
    ensures result.Ordered? ==> Sound(plugins, result.plugins, NameSet(plugins))
    ensures result.Ordered? ==> ServedInOrder(result.plugins)
    ensures result.Ordered? ==> forall q :: q in result.plugins <==> q in Looked(plugins)
    ensures result.Ordered? ==> (multiset(result.plugins) == multiset(plugins) <==> DistinctNames(plugins))
    ensures result.Failed? ==> TrueError(Looked(plugins), NameSet(plugins), result.error)
    ensures DistinctNames(plugins) && DependenciesFirst(plugins) ==> result == Ordered(plugins)
  {
    var resolver := new Resolver(plugins);
    var error := VisitAll(resolver, plugins);
    LookedFacts(plugins);
    FewerEntries(Looked(plugins), plugins, NameSet(plugins));
    if error.Some? {
      TrueErrorUnresolvable(Looked(plugins), NameSet(plugins), error.value);
      return Failed(error.value);
    }
    OrderedIsSound(plugins, resolver.ordered);
    FewerEntries(Looked(plugins), resolver.ordered, NameSet(plugins));
    if DistinctNames(plugins) {
      OrderedMeansAcyclic(plugins, resolver.ordered);
    }
    PermutationIffDistinct(plugins, resolver.ordered);
    OrderSpelled(resolver.ordered);
    return Ordered(resolver.ordered);
  }

  /** A finished ordering has its own dependencies and no cycle. */
  lemma OrderedIsSound(plugins: seq<Plugin>, ordered: seq<Plugin>)
    requires Sound(plugins, ordered, NameSet(plugins))
    ensures Resolvable(ordered, NameSet(plugins)) && Acyclic(ordered)
  {
    assert Sound(ordered, ordered, NameSet(ordered));
    OrderedMeansAcyclic(ordered, ordered);
  }

  // ---------- results in terms of the plugins alone ----------

  /** Whatever a plugin of the order depends on stands before it. */
  ghost predicate ServedInOrder(ordered: seq<Plugin>) {
    forall i, d :: 0 <= i < |ordered| && ordered[i].dependsOn.Some? && d in ordered[i].dependsOn.value ==>
      exists j :: 0 <= j < i && ordered[j].name == d
  }

  lemma NamedBefore(ordered: seq<Plugin>, i: int, d: string)
    requires 0 <= i < |ordered|
    ensures d in NameSet(ordered[..i]) <==> exists j :: 0 <= j < i && ordered[j].name == d
  {
    if d in NameSet(ordered[..i]) {
      var j :| 0 <= j < i && ordered[..i][j].name == d;
      assert ordered[j].name == d;
    }
    if j :| 0 <= j < i && ordered[j].name == d {
      assert ordered[..i][j].name == d;
    }
  }

  lemma OrderSpelled(ordered: seq<Plugin>)
    requires DependenciesFirst(ordered)
    ensures ServedInOrder(ordered)
  {
    forall i, d | 0 <= i < |ordered| && ordered[i].dependsOn.Some? && d in ordered[i].dependsOn.value
      ensures exists j :: 0 <= j < i && ordered[j].name == d
    {
      assert d in Dependencies(ordered[i]);
      NamedBefore(ordered, i, d);
    }
  }

  ghost predicate Wants(plugins: seq<Plugin>, a: string, b: string) {
    exists i :: 0 <= i < |plugins| && plugins[i].name == a && plugins[i].dependsOn.Some?
      && b in plugins[i].dependsOn.value
  }

  /** What an error says, entry by entry. */
  lemma ErrorSpelled(entries: seq<Plugin>, plugins: seq<Plugin>, e: OrderError)
    requires TrueError(entries, NameSet(plugins), e) && forall q :: q in entries ==> q in plugins
    ensures e.Missing? ==>
              Wants(plugins, e.plugin, e.dependency)
              && forall i :: 0 <= i < |plugins| ==> plugins[i].name != e.dependency
    ensures e.Cycle? ==>
              && |e.path| >= 2 && e.path[0] == e.path[|e.path| - 1]
              && forall i :: 0 <= i < |e.path| - 1 ==> Wants(plugins, e.path[i], e.path[i + 1])
  {
    forall a, b | Edge(entries, a, b)
      ensures Wants(plugins, a, b)
    {
      var p :| p in entries && p.name == a && b in Dependencies(p);
      var i :| 0 <= i < |plugins| && plugins[i] == p;
    }
    if e.Missing? {
      forall i | 0 <= i < |plugins|
        ensures plugins[i].name != e.dependency
      {
        assert plugins[i].name in NameSet(plugins);
      }
    }
  }

  // ---------- repeated names ----------

  lemma {:induction false} SeenGrows(plugins: seq<Plugin>, m: nat, n: nat)
    requires m <= n <= |plugins|
    ensures Seen(plugins, m) <= Seen(plugins, n)
  {
    if m < n {
      SeenGrows(plugins, m, n - 1);
    }
  }

  lemma {:induction false} SeenIsLookedAt(plugins: seq<Plugin>, n: nat, name: string)
    requires n <= |plugins| && name in Seen(plugins, n)
    ensures exists q :: EverLookedAt(plugins, q) && q.name == name
  {
    if name in Seen(plugins, n - 1) {
      SeenIsLookedAt(plugins, n - 1, name);
    } else {
      TableOfFacts(plugins);
      EntryNameIs(plugins, n - 1, name);
      assert LookedAt(plugins, n - 1, Seen(plugins, n - 1), EntryIn(plugins, n - 1, name));
    }
  }

  lemma ReachedIsNew(plugins: seq<Plugin>, n: nat, seen: set<string>, name: string)
    requires n < |plugins| && Reaches(plugins, n, seen, name)
    ensures name in NameSet(plugins) && name !in seen
  {
    TableOfFacts(plugins);
    var path :| Leads(plugins, n, seen, path) && path[|path| - 1] == name;
    assert path[|path| - 1] !in seen;
  }

  lemma SeenNext(plugins: seq<Plugin>, n: nat, name: string)
    requires n < |plugins| && Reaches(plugins, n, Seen(plugins, n), name)
    ensures name in Seen(plugins, n + 1)
  {
    ReachedIsNew(plugins, n, Seen(plugins, n), name);
  }

  lemma NotAgain(plugins: seq<Plugin>, n: nat, seen: set<string>, name: string)
    requires n < |plugins| && name in seen
    ensures !Reaches(plugins, n, seen, name)
  {
    if Reaches(plugins, n, seen, name) {
      ReachedIsNew(plugins, n, seen, name);
    }
  }

  lemma ReachedOnce(plugins: seq<Plugin>, m: nat, n: nat, name: string)
    requires m < n < |plugins| && Reaches(plugins, m, Seen(plugins, m), name)
    ensures !Reaches(plugins, n, Seen(plugins, n), name)
  {
    SeenNext(plugins, m, name);
    SeenGrows(plugins, m + 1, n);
    NotAgain(plugins, n, Seen(plugins, n), name);
  }

  lemma LookedAtOnce(plugins: seq<Plugin>, m: nat, n: nat, p: Plugin, q: Plugin)
    requires m <= n < |plugins| && p.name == q.name
    requires LookedAt(plugins, m, Seen(plugins, m), p) && LookedAt(plugins, n, Seen(plugins, n), q)
    ensures p == q
  {
    if m < n {
      ReachedOnce(plugins, m, n, p.name);
    }
  }

  lemma NameIsSeen(plugins: seq<Plugin>, k: nat)
    requires k < |plugins|
    ensures plugins[k].name in Seen(plugins, k + 1)
  {
    var name := plugins[k].name;
    if name !in Seen(plugins, k) {
      TableOfFacts(plugins);
      EntryNamed(plugins, plugins[k]);
      assert Leads(plugins, k, Seen(plugins, k), [name]);
      SeenNext(plugins, k, name);
    }
  }

  lemma SameEntry(plugins: seq<Plugin>, p: Plugin, q: Plugin)
    requires EverLookedAt(plugins, p) && EverLookedAt(plugins, q) && p.name == q.name
    ensures p == q
  {
    var m :| 0 <= m < |plugins| && LookedAt(plugins, m, Seen(plugins, m), p);
    var n :| 0 <= n < |plugins| && LookedAt(plugins, n, Seen(plugins, n), q);
    if m <= n {
      LookedAtOnce(plugins, m, n, p, q);
    } else {
      LookedAtOnce(plugins, n, m, q, p);
    }
  }

  /** Of every name in the list exactly one entry is looked at. */
  lemma {:induction false} OneEntryPerName(plugins: seq<Plugin>, k: nat)
    requires k < |plugins|
    ensures exists q :: q in Looked(plugins) && q.name == plugins[k].name
    ensures forall p, q :: p in Looked(plugins) && q in Looked(plugins) && p.name == q.name ==> p == q
  {
    LookedFacts(plugins);
    NameIsSeen(plugins, k);
    SeenIsLookedAt(plugins, k + 1, plugins[k].name);
    forall p, q | p in Looked(plugins) && q in Looked(plugins) && p.name == q.name
      ensures p == q
    {
      SameEntry(plugins, p, q);
    }
  }

  lemma NoDependencies(entries: seq<Plugin>, names: set<string>)
    requires forall q :: q in entries ==> Dependencies(q) == []
    ensures Resolvable(entries, names) && Acyclic(entries)
  {
    forall path
      ensures !IsCycle(entries, path)
    {
      if |path| >= 2 {
        assert !Edge(entries, path[0], path[0 + 1]);
      }
    }
  }

  /** A list that is ordered although one of its entries needs a plugin that is not there: nobody looks at the entry. */
  lemma {:induction false} BrokenEntryUnseen(p: Plugin, broken: Plugin)
    requires p.dependsOn.None? && broken.name == p.name
    requires exists d :: d in Dependencies(broken) && d != p.name
    ensures var plugins := [p, broken];
            && !Resolvable(plugins, NameSet(plugins))
            && Resolvable(Looked(plugins), NameSet(plugins)) && Acyclic(Looked(plugins))
  {
    var plugins := [p, broken];
    var d :| d in Dependencies(broken) && d != p.name;
    assert plugins[1] in plugins && d !in NameSet(plugins);
    FirstLookedAt(plugins);
    LookedFacts(plugins);
    OneEntryPerName(plugins, 0);
    NoDependencies(Looked(plugins), NameSet(plugins));
  }

  lemma FirstLookedAt(plugins: seq<Plugin>)
    requires plugins != []
    ensures plugins[0] in Looked(plugins)
  {
    TableOfFacts(plugins);
    LookedFacts(plugins);
    assert plugins[0].name in NameSet(plugins);
    assert Leads(plugins, 0, {}, [plugins[0].name]);
    assert LookedAt(plugins, 0, Seen(plugins, 0), plugins[0]);
  }
}
