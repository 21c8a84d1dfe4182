/** Whether a requirements file and all it pulls in is installed (_requirements_installed in
    backend/plugin/requirements.py). Names are canonical; markers and version specifiers are predicates. */
module Requirements {
  import opened Text

  datatype Requirement = Requirement(
    name: string,
    marker: Option<string -> bool>,   // by extra
    allows: string -> bool,           // by version
    extras: set<string>)

  /** A line of package metadata: None does not parse. */
  datatype Distribution = Distribution(version: string, needs: seq<Option<Requirement>>)

  type Installed = map<string, Distribution>

  datatype Line = Blank | Broken | Req(requirement: Requirement)

  datatype Verdict = Yes | No | Malformed

  /** What `visited` holds: a package and the extras asked of it. */
  type Asked = (string, set<string>)

  /** A requirement met while `extras` are active. */
  datatype Item = Item(req: Requirement, extras: set<string>)

  predicate Active(x: Item) {
    x.req.marker.Some? ==> exists e :: e in x.extras && x.req.marker.value(e)
  }

  function AskedBy(r: Requirement): Asked {
    (r.name, r.extras)
  }

  function ChildExtras(extras: set<string>): set<string> {
    if extras == {} then {""} else extras
  }

  /** x is active and installed, and y is one of its package's needs, met under the extras that x asks for - under
      the empty one when x asks for none. */
  ghost predicate PullsIn(installed: Installed, x: Item, y: Item) {
    && Active(x) && x.req.name in installed
    && Some(y.req) in installed[x.req.name].needs
    && (x.req.extras == {} ==> y.extras == {""})
    && (x.req.extras != {} ==> y.extras == x.req.extras)
  }

  ghost predicate IsRoot(roots: seq<Requirement>, x: Item) {
    x.req in roots && x.extras == {""}
  }

  ghost predicate IsPath(installed: Installed, roots: seq<Requirement>, path: seq<Item>) {
    && path != [] && IsRoot(roots, path[0])
    && forall i :: 0 <= i < |path| - 1 ==> PullsIn(installed, path[i], path[i + 1])
  }

  ghost predicate Reachable(installed: Installed, roots: seq<Requirement>, x: Item) {
    exists path :: IsPath(installed, roots, path) && path[|path| - 1] == x
  }

  ghost predicate Unmet(installed: Installed, x: Item) {
    Active(x) && (x.req.name !in installed || !x.req.allows(installed[x.req.name].version))
  }

  ghost predicate BrokenBelow(installed: Installed, x: Item) {
    Active(x) && x.req.name in installed && None in installed[x.req.name].needs
  }

  /** x needs no further look once `visited` is complete. */
  ghost predicate Handled(installed: Installed, visited: set<Asked>, x: Item) {
    Active(x) ==> x.req.name in installed && x.req.allows(installed[x.req.name].version) && AskedBy(x.req) in visited
  }

  ghost predicate NeedHandled(installed: Installed, visited: set<Asked>, need: Option<Requirement>,
                              extras: set<string>) {
    need.Some? && Handled(installed, visited, Item(need.value, ChildExtras(extras)))
  }

  /** Every need of the package is handled, the first n of them at least. */
  ghost predicate CompleteTo(installed: Installed, visited: set<Asked>, a: Asked, n: nat) {
    a.0 in installed && n <= |installed[a.0].needs|
    && forall i :: 0 <= i < n ==> NeedHandled(installed, visited, installed[a.0].needs[i], a.1)
  }

  ghost predicate Complete(installed: Installed, visited: set<Asked>, a: Asked) {
    a.0 in installed && CompleteTo(installed, visited, a, |installed[a.0].needs|)
  }

  ghost predicate CompleteBut(installed: Installed, visited: set<Asked>, pending: set<Asked>) {
    forall a :: a in visited && a !in pending ==> Complete(installed, visited, a)
  }

  /** The finite set of everything that can be asked. */
  ghost function Universe(installed: Installed, roots: seq<Requirement>): set<Asked> {
    (set i | 0 <= i < |roots| :: AskedBy(roots[i]))
    + (set n, i | n in installed && 0 <= i < |installed[n].needs| && installed[n].needs[i].Some? ::
         AskedBy(installed[n].needs[i].value))
  }

  lemma CompleteGrows(installed: Installed, visited: set<Asked>, more: set<Asked>, pending: set<Asked>)
    requires visited <= more && CompleteBut(installed, visited, pending)
    ensures forall a :: a in visited && a !in pending ==> Complete(installed, more, a)
  {
    forall a | a in visited && a !in pending
      ensures Complete(installed, more, a)
    {
      assert Complete(installed, visited, a);
      forall i | 0 <= i < |installed[a.0].needs|
        ensures NeedHandled(installed, more, installed[a.0].needs[i], a.1)
      {
        assert NeedHandled(installed, visited, installed[a.0].needs[i], a.1);
      }
    }
  }

  lemma CompleteToNext(installed: Installed, visited: set<Asked>, more: set<Asked>, a: Asked, n: nat)
    requires visited <= more && CompleteTo(installed, visited, a, n)
    requires n < |installed[a.0].needs| && NeedHandled(installed, more, installed[a.0].needs[n], a.1)
    ensures CompleteTo(installed, more, a, n + 1)
  {
    forall i | 0 <= i < n
      ensures NeedHandled(installed, more, installed[a.0].needs[i], a.1)
    {
      assert NeedHandled(installed, visited, installed[a.0].needs[i], a.1);
    }
  }

  /** Something reachable is not installed, or not at an allowed version. */
  ghost predicate SomeUnmet(installed: Installed, roots: seq<Requirement>) {
    exists x :: Reachable(installed, roots, x) && Unmet(installed, x)
  }

  /** Something reachable has metadata that does not parse. */
  ghost predicate SomeBroken(installed: Installed, roots: seq<Requirement>) {
    exists x :: Reachable(installed, roots, x) && BrokenBelow(installed, x)
  }

  lemma NeedReachable(installed: Installed, roots: seq<Requirement>, x: Item, y: Item)
    requires Reachable(installed, roots, x) && PullsIn(installed, x, y)
    ensures Reachable(installed, roots, y)
  {
    var path :| IsPath(installed, roots, path) && path[|path| - 1] == x;
    assert IsPath(installed, roots, path + [y]);
    assert (path + [y])[|path + [y]| - 1] == y;
  }

  lemma RootReachable(installed: Installed, roots: seq<Requirement>, x: Item)
    requires IsRoot(roots, x)
    ensures Reachable(installed, roots, x)
  {
    assert IsPath(installed, roots, [x]);
    assert [x][|[x]| - 1] == x;
  }

  class Checker {
    const installed: Installed
    ghost const roots: seq<Requirement>
    var visited: set<Asked>

    constructor (installed: Installed, ghost roots: seq<Requirement>)
      ensures this.installed == installed && this.roots == roots && visited == {}
    {
      this.installed, this.roots := installed, roots;
      visited := {};
    }

    /** The recursive check. `pending` are the packages whose own check is still under way. */
    method RequirementSatisfied(r: Requirement, activeExtras: set<string>, ghost pending: set<Asked>)
      returns (verdict: Verdict)
      requires Reachable(installed, roots, Item(r, activeExtras)) && AskedBy(r) in Universe(installed, roots)
      requires CompleteBut(installed, visited, pending) && pending <= visited
      modifies this
      ensures old(visited) <= visited
      ensures verdict == Yes ==>
                Handled(installed, visited, Item(r, activeExtras)) && CompleteBut(installed, visited, pending)
      ensures verdict == No ==> SomeUnmet(installed, roots)
      ensures verdict == Malformed ==> SomeBroken(installed, roots)
      decreases Universe(installed, roots) - visited, 0
    {
      ghost var x := Item(r, activeExtras);
      if r.marker.Some? && !(exists e :: e in activeExtras && r.marker.value(e)) {
        return Yes;
      }
      if r.name !in installed {
        assert Unmet(installed, x);
        return No;
      }
      if !r.allows(installed[r.name].version) {
        assert Unmet(installed, x);
        return No;
      }
      if AskedBy(r) in visited {
        return Yes;
      }
      CompleteGrows(installed, visited, visited + {AskedBy(r)}, pending);
      visited := visited + {AskedBy(r)};
      verdict := CheckNeeds(r, activeExtras, pending + {AskedBy(r)});
    }

    /** The loop over the needs of a package that has just been marked visited. */
    method CheckNeeds(r: Requirement, ghost activeExtras: set<string>, ghost pending: set<Asked>)
      returns (verdict: Verdict)
      requires Active(Item(r, activeExtras)) && Reachable(installed, roots, Item(r, activeExtras))
      requires r.name in installed && AskedBy(r) in pending && pending <= visited
      requires CompleteBut(installed, visited, pending)
      modifies this
      ensures old(visited) <= visited
      ensures verdict == Yes ==> CompleteBut(installed, visited, pending) && Complete(installed, visited, AskedBy(r))
      ensures verdict == No ==> SomeUnmet(installed, roots)
      ensures verdict == Malformed ==> SomeBroken(installed, roots)
      decreases Universe(installed, roots) - visited, 1
    {
      ghost var x := Item(r, activeExtras);
      var needs := installed[r.name].needs;
      for n := 0 to |needs|
        invariant old(visited) <= visited
        invariant CompleteBut(installed, visited, pending)
        invariant CompleteTo(installed, visited, AskedBy(r), n)
      {
        assert needs[n] in needs;
        if needs[n].None? {
          assert BrokenBelow(installed, x);
          return Malformed;
        }
        var need := needs[n].value;
        NeedReachable(installed, roots, x, Item(need, ChildExtras(r.extras)));
        assert AskedBy(installed[r.name].needs[n].value) in Universe(installed, roots);
        ghost var before := visited;
        verdict := RequirementSatisfied(need, ChildExtras(r.extras), pending);
        if verdict != Yes {
          return;
        }
        CompleteToNext(installed, before, visited, AskedBy(r), n);
      }
      return Yes;
    }
  }

  /** With every asked package complete, everything reachable is handled. */
  lemma {:induction false} PathHandled(installed: Installed, roots: seq<Requirement>, visited: set<Asked>,
                                       path: seq<Item>, i: int)
    requires IsPath(installed, roots, path) && 0 <= i < |path|
    requires CompleteBut(installed, visited, {})
    requires forall r :: r in roots ==> Handled(installed, visited, Item(r, {""}))
    ensures Handled(installed, visited, path[i]) && !BrokenBelow(installed, path[i])
  {
    if i > 0 {
      PathHandled(installed, roots, visited, path, i - 1);
      var x, y := path[i - 1], path[i];
      assert PullsIn(installed, x, y);
      assert Complete(installed, visited, AskedBy(x.req));
      var k :| 0 <= k < |installed[x.req.name].needs| && installed[x.req.name].needs[k] == Some(y.req);
      assert NeedHandled(installed, visited, installed[x.req.name].needs[k], x.req.extras);
    } else {
      assert path[0] == Item(path[0].req, {""});
    }
    if Active(path[i]) {
      var needs := installed[path[i].req.name].needs;
      assert Complete(installed, visited, AskedBy(path[i].req));
      assert forall k | 0 <= k < |needs| ::
               NeedHandled(installed, visited, needs[k], path[i].req.extras) && needs[k] != None;
    }
  }

  /** The requirements of a file, or None when one of its lines does not parse. */
  function Parse(lines: seq<Line>): (parsed: Option<seq<Requirement>>)
    ensures parsed.None? <==> Broken in lines
  {
    if lines == [] then Some([])
    else
      var before := Parse(lines[..|lines| - 1]);
      match lines[|lines| - 1]
      case Blank => before
      case Broken => None
      case Req(r) => if before.None? then None else Some(before.value + [r])
  }

  /** The requirements are those on the lines, one for each, in line order. */
  lemma {:induction false} ParseSpelled(lines: seq<Line>, r: Requirement)
    requires Broken !in lines
    ensures r in Parse(lines).value <==> Req(r) in lines
    ensures |Parse(lines).value| <= |lines|
  {
    if lines != [] {
      assert lines == lines[..|lines| - 1] + [lines[|lines| - 1]];
      ParseSpelled(lines[..|lines| - 1], r);
    }
  }

  method ParseLines(lines: seq<Line>) returns (requirements: Option<seq<Requirement>>)
    ensures requirements == Parse(lines)
  {
    var parsed := [];
    for n := 0 to |lines|
      invariant Parse(lines[..n]) == Some(parsed)
    {
      assert lines[..n + 1][..n] == lines[..n];
      match lines[n]
      case Blank =>
      case Broken =>
        assert lines[n] in lines;
        return None;
      case Req(r) => parsed := parsed + [r];
    }
    assert lines[..|lines|] == lines;
    return Some(parsed);
  }

  /** The answer is yes exactly when every requirement reachable from the file through active markers and extras -
      round cycles too - is installed at an allowed version and no metadata line on the way is broken. */
  method RequirementsInstalled(lines: seq<Line>, installed: Installed) returns (verdict: Verdict)
    ensures Broken in lines ==> verdict == Malformed
    ensures Broken !in lines ==>
              var roots := Parse(lines).value;
              && (verdict == Yes <==> !SomeUnmet(installed, roots) && !SomeBroken(installed, roots))
              && (verdict == No ==> SomeUnmet(installed, roots))
              && (verdict == Malformed ==> SomeBroken(installed, roots))
  {
    var parsed := ParseLines(lines);
    if parsed.None? {
      return Malformed;
    }
    var roots := parsed.value;
    var checker := new Checker(installed, roots);
    for n := 0 to |roots|
      invariant CompleteBut(installed, checker.visited, {}) && checker.installed == installed && checker.roots == roots
      invariant forall i :: 0 <= i < n ==> Handled(installed, checker.visited, Item(roots[i], {""}))
    {
      assert IsRoot(roots, Item(roots[n], {""}));
      RootReachable(installed, roots, Item(roots[n], {""}));
      verdict := checker.RequirementSatisfied(roots[n], {""}, {});
      if verdict != Yes {
        return;
      }
    }
    forall x | Reachable(installed, roots, x)
      ensures !Unmet(installed, x) && !BrokenBelow(installed, x)
    {
      var path :| IsPath(installed, roots, path) && path[|path| - 1] == x;
      PathHandled(installed, roots, checker.visited, path, |path| - 1);
    }
    return Yes;
  }

  // ---------- which needs of a root count ----------

  /** The need applies to whoever asks for these extras of its package: always without a marker, otherwise when one of
      them - or "", when none is asked for - makes the marker true. */
  predicate Applies(need: Requirement, asked: set<string>) {
    || need.marker.None?
    || (exists e :: e in asked && need.marker.value(e))
    || (asked == {} && need.marker.value(""))
  }

  /** A need that applies and is not installed, or not at an allowed version, is found. */
  lemma {:induction false} MissingNeedIsFound(installed: Installed, roots: seq<Requirement>, r: Requirement,
                                              need: Requirement)
    requires r in roots && r.marker.None? && r.name in installed && Some(need) in installed[r.name].needs
    requires need.name !in installed || !need.allows(installed[need.name].version)
    requires Applies(need, r.extras)
    ensures SomeUnmet(installed, roots)
  {
    var x := Item(r, {""});
    var y := Item(need, if r.extras == {} then {""} else r.extras);
    RootReachable(installed, roots, x);
    NeedReachable(installed, roots, x, y);
    assert need.marker.Some? && r.extras == {} ==> "" in y.extras;
    assert Unmet(installed, y);
  }

  /** A need that does not apply is not looked at: if no need of any root applies, only the roots themselves count. */
  lemma {:induction false} UnaskedNeedsIgnored(installed: Installed, roots: seq<Requirement>)
    requires forall r :: r in roots ==>
               r.marker.None? && r.name in installed && r.allows(installed[r.name].version)
    requires forall r, need :: r in roots && need in installed[r.name].needs ==>
               need.Some? && !Applies(need.value, r.extras)
    ensures !SomeUnmet(installed, roots) && !SomeBroken(installed, roots)
  {
    forall x | Reachable(installed, roots, x)
      ensures !Unmet(installed, x) && !BrokenBelow(installed, x)
    {
      var path :| IsPath(installed, roots, path) && path[|path| - 1] == x;
      if |path| > 1 {
        NeedsOfRootsInactive(installed, roots, path);
      }
    }
  }

  lemma PathPulls(installed: Installed, roots: seq<Requirement>, path: seq<Item>, i: nat)
    requires IsPath(installed, roots, path) && i < |path| - 1
    ensures PullsIn(installed, path[i], path[i + 1])
  {}

  lemma NeedsOfRootsInactive(installed: Installed, roots: seq<Requirement>, path: seq<Item>)
    requires forall r, need :: r in roots && r.name in installed && need in installed[r.name].needs ==>
               need.Some? && !Applies(need.value, r.extras)
    requires IsPath(installed, roots, path) && |path| > 1
    ensures |path| == 2 && !Active(path[1])
  {
    assert PullsIn(installed, path[0], path[1]);
    assert path[0].req in roots && Some(path[1].req) in installed[path[0].req.name].needs;
    if |path| > 2 {
      PathPulls(installed, roots, path, 1);
    }
  }
}
