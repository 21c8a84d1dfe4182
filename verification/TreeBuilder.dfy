/** The two tree builders of utils/build_tree.py: one pass that files every node under its parent, and a
    recursive one that rescans the rows for the children of each node. */
module TreeBuilder {
  import opened Text

  /** A serialized row; `children` is absent until a builder sets it. */
  class Node {
    const id: int
    const parentId: Option<int>
    var children: Option<seq<Node>>

    constructor (id: int, parentId: Option<int>)
      ensures this.id == id && this.parentId == parentId && children.None?
    {
      this.id, this.parentId, children := id, parentId, None;
    }
  }

  function RowSet(nodes: seq<Node>): set<Node> {
    set n | n in nodes
  }

  predicate DistinctIds(nodes: seq<Node>) {
    forall i, k :: 0 <= i < k < |nodes| ==> nodes[i].id != nodes[k].id
  }

  /** The rows below a parent (or below none), in row order. */
  function Under(nodes: seq<Node>, parent: Option<int>): (r: seq<Node>)
    ensures forall n :: n in r ==> n in nodes && n.parentId == parent
    ensures forall n :: n in nodes && n.parentId == parent ==> n in r
  {
    if nodes == [] then []
    else
      Under(nodes[..|nodes| - 1], parent)
      + if nodes[|nodes| - 1].parentId == parent then [nodes[|nodes| - 1]] else []
  }

  predicate IsTop(nodes: seq<Node>, n: Node) {
    n.parentId.None? || forall m :: m in nodes ==> m.id != n.parentId.value
  }

  /** Null-parent rows and orphans, in row order. */
  function Tops(nodes: seq<Node>, some: seq<Node>): (r: seq<Node>)
    ensures forall n :: n in r ==> n in some && IsTop(nodes, n)
    ensures forall n :: n in some && IsTop(nodes, n) ==> n in r
  {
    if some == [] then []
    else Tops(nodes, some[..|some| - 1]) + if IsTop(nodes, some[|some| - 1]) then [some[|some| - 1]] else []
  }

  /** What the children field must hold: absent rather than empty. */
  function Listed(nodes: seq<Node>, n: Node): Option<seq<Node>> {
    var below := Under(nodes, Some(n.id));
    if below == [] then None else Some(below)
  }

  // ---------- in row order ----------

  ghost predicate Before(rows: seq<Node>, a: Node, b: Node) {
    exists p, q :: 0 <= p < q < |rows| && rows[p] == a && rows[q] == b
  }

  /** The rows come in the order of the list, each at its own place. */
  ghost predicate InRowOrder(rows: seq<Node>, some: seq<Node>) {
    && (forall i :: 0 <= i < |some| ==> some[i] in rows)
    && forall i, k :: 0 <= i < k < |some| ==> Before(rows, some[i], some[k])
  }

  lemma BeforePush(rows: seq<Node>, n: Node, a: Node, b: Node)
    ensures Before(rows, a, b) ==> Before(rows + [n], a, b)
    ensures a in rows ==> Before(rows + [n], a, n)
  {
    var more := rows + [n];
    if Before(rows, a, b) {
      var p, q :| 0 <= p < q < |rows| && rows[p] == a && rows[q] == b;
      assert more[p] == a && more[q] == b;
    }
    if a in rows {
      var p :| 0 <= p < |rows| && rows[p] == a;
      assert more[p] == a && more[|rows|] == n;
    }
  }

  lemma InOrderPush(rows: seq<Node>, some: seq<Node>, n: Node)
    requires InRowOrder(rows, some)
    ensures InRowOrder(rows + [n], some) && InRowOrder(rows + [n], some + [n])
  {
    var longer := some + [n];
    forall i, k | 0 <= i < k < |longer|
      ensures Before(rows + [n], longer[i], longer[k])
    {
      BeforePush(rows, n, longer[i], longer[k]);
    }
    forall i, k | 0 <= i < k < |some|
      ensures Before(rows + [n], some[i], some[k])
    {
      BeforePush(rows, n, some[i], some[k]);
    }
  }

  lemma {:induction false} UnderInOrder(nodes: seq<Node>, parent: Option<int>)
    ensures InRowOrder(nodes, Under(nodes, parent))
  {
    if nodes != [] {
      var front, last := nodes[..|nodes| - 1], nodes[|nodes| - 1];
      UnderInOrder(front, parent);
      InOrderPush(front, Under(front, parent), last);
      assert nodes == front + [last];
      assert Under(front, parent) + [] == Under(front, parent);
    }
  }

  lemma {:induction false} TopsInOrder(nodes: seq<Node>, some: seq<Node>)
    ensures InRowOrder(some, Tops(nodes, some))
  {
    if some != [] {
      var front, last := some[..|some| - 1], some[|some| - 1];
      TopsInOrder(nodes, front);
      InOrderPush(front, Tops(nodes, front), last);
      assert some == front + [last];
      assert Tops(nodes, front) + [] == Tops(nodes, front);
    }
  }

  /** The roots of the one-pass result, without its workings: rows without a parent and rows whose parent is not in the
      list, in row order. */
  lemma RootsSpelled(nodes: seq<Node>)
    ensures InRowOrder(nodes, Tops(nodes, nodes))
    ensures forall n :: n in Tops(nodes, nodes) <==>
              n in nodes && (n.parentId == None || forall m :: m in nodes ==> n.parentId != Some(m.id))
  {
    TopsInOrder(nodes, nodes);
  }

  /** The children of a row: exactly the rows that name it as their parent, in row order; absent when there are none. */
  lemma ChildrenSpelled(nodes: seq<Node>, n: Node)
    ensures Listed(nodes, n) == None <==> forall m :: m in nodes ==> m.parentId != Some(n.id)
    ensures Listed(nodes, n).Some? ==>
              && InRowOrder(nodes, Listed(nodes, n).value)
              && forall m :: m in Listed(nodes, n).value <==> m in nodes && m.parentId == Some(n.id)
  {
    UnderInOrder(nodes, Some(n.id));
    var below := Under(nodes, Some(n.id));
    if below != [] {
      assert below[0] in below;
    }
  }

  // ---------- the forest as a value ----------

  datatype Tree = Tree(node: Node, children: seq<Tree>)

  /** A line of descent that starts at a top row. */
  predicate Chain(nodes: seq<Node>, path: seq<Node>) {
    && (forall i :: 0 <= i < |path| ==> path[i] in nodes)
    && (path != [] ==> IsTop(nodes, path[0]))
    && (forall i :: 0 < i < |path| ==> path[i].parentId == Some(path[i - 1].id))
  }

  lemma {:induction false} SameIdSameNode(nodes: seq<Node>, n: Node, m: Node)
    requires DistinctIds(nodes) && n in nodes && m in nodes && n.id == m.id
    ensures n == m
  {
    var i :| 0 <= i < |nodes| && nodes[i] == n;
    var k :| 0 <= k < |nodes| && nodes[k] == m;
    assert i == k;
  }

  lemma NotTop(nodes: seq<Node>, path: seq<Node>)
    requires Chain(nodes, path) && |path| > 1
    ensures !IsTop(nodes, path[|path| - 1])
  {
    assert path[|path| - 2] in nodes;
  }

  /** A row has at most one line of descent: its parents determine it. */
  lemma {:induction false} ChainUnique(nodes: seq<Node>, p: seq<Node>, q: seq<Node>)
    requires DistinctIds(nodes) && Chain(nodes, p) && Chain(nodes, q)
    requires p != [] && q != [] && p[|p| - 1] == q[|q| - 1]
    ensures p == q
  {
    if |p| > 1 {
      NotTop(nodes, p);
    }
    if |q| > 1 {
      NotTop(nodes, q);
    }
    if |p| > 1 && |q| > 1 {
      SameIdSameNode(nodes, p[|p| - 2], q[|q| - 2]);
      ChainUnique(nodes, p[..|p| - 1], q[..|q| - 1]);
      assert p == p[..|p| - 1] + [p[|p| - 1]];
    }
  }

  lemma ChainDistinct(nodes: seq<Node>, path: seq<Node>, i: int, k: int)
    requires DistinctIds(nodes) && Chain(nodes, path) && 0 <= i < k < |path|
    ensures path[i] != path[k]
  {
    if path[i] == path[k] {
      ChainUnique(nodes, path[..i + 1], path[..k + 1]);
    }
  }

  lemma {:induction false} DistinctWithin(s: seq<Node>, t: seq<Node>)
    requires forall i, k :: 0 <= i < k < |s| ==> s[i] != s[k]
    requires forall n :: n in s ==> n in t
    ensures |s| <= |t|
  {
    if s != [] {
      var last := s[|s| - 1];
      var front := s[..|s| - 1];
      assert last in t;
      var i :| 0 <= i < |t| && t[i] == last;
      forall n | n in front
        ensures n in t[..i] + t[i + 1..]
      {
        assert n in s && n in t;
        var k :| 0 <= k < |t| && t[k] == n;
        if k > i {
          assert t[i + 1..][k - i - 1] == n;
        } else {
          assert t[..i][k] == n;
        }
      }
      DistinctWithin(front, t[..i] + t[i + 1..]);
    }
  }

  /** A line of descent is no longer than the row list, so following children ends. */
  lemma ChainShort(nodes: seq<Node>, path: seq<Node>)
    requires DistinctIds(nodes) && Chain(nodes, path)
    ensures |path| <= |nodes|
  {
    forall i, k | 0 <= i < k < |path|
      ensures path[i] != path[k]
    {
      ChainDistinct(nodes, path, i, k);
    }
    DistinctWithin(path, nodes);
  }

  predicate Extends(nodes: seq<Node>, path: seq<Node>, below: seq<Node>) {
    forall n :: n in below ==> Chain(nodes, path + [n])
  }

  lemma ChainPush(nodes: seq<Node>, path: seq<Node>, n: Node)
    requires Chain(nodes, path) && path != [] && n in nodes && n.parentId == Some(path[|path| - 1].id)
    ensures Chain(nodes, path + [n])
  {
    var longer := path + [n];
    assert longer[0] == path[0];
    forall i | 0 < i < |longer|
      ensures longer[i].parentId == Some(longer[i - 1].id)
    {
      assert i < |path| ==> longer[i] == path[i];
    }
  }

  lemma ChildrenExtend(nodes: seq<Node>, path: seq<Node>)
    requires Chain(nodes, path) && path != []
    ensures Extends(nodes, path, Under(nodes, Some(path[|path| - 1].id)))
  {
    forall n | n in Under(nodes, Some(path[|path| - 1].id))
      ensures Chain(nodes, path + [n])
    {
      ChainPush(nodes, path, n);
    }
  }

  /** One level down: the children of a row continue its own line of descent. */
  lemma {:induction false} Descend(nodes: seq<Node>, path: seq<Node>, some: seq<Node>)
    requires DistinctIds(nodes) && Chain(nodes, path) && some != [] && Extends(nodes, path, some)
    ensures Extends(nodes, path, some[..|some| - 1])
    ensures var last := some[|some| - 1];
            && Chain(nodes, path + [last]) && |path + [last]| <= |nodes|
            && Extends(nodes, path + [last], Under(nodes, Some(last.id)))
  {
    var last := some[|some| - 1];
    assert last in some;
    ChainShort(nodes, path + [last]);
    ChildrenExtend(nodes, path + [last]);
  }

  /** The trees of some rows that continue a line of descent. */
  function Forest(nodes: seq<Node>, path: seq<Node>, some: seq<Node>): seq<Tree>
    requires DistinctIds(nodes) && Chain(nodes, path) && Extends(nodes, path, some)
    decreases |nodes| - |path|, |some|
  {
    if some == [] then []
    else
      var last := some[|some| - 1];
      Descend(nodes, path, some);
      Forest(nodes, path, some[..|some| - 1])
      + [Tree(last, Forest(nodes, path + [last], Under(nodes, Some(last.id))))]
  }

  /** Orphans are roots. */
  function OnePassForest(nodes: seq<Node>): seq<Tree>
    requires DistinctIds(nodes)
  {
    Forest(nodes, [], Tops(nodes, nodes))
  }

  /** Only null-parent rows are roots. */
  function RecursiveForest(nodes: seq<Node>): seq<Tree>
    requires DistinctIds(nodes)
  {
    Forest(nodes, [], Under(nodes, None))
  }

  predicate ParentsExist(nodes: seq<Node>) {
    forall n :: n in nodes && n.parentId.Some? ==> exists m :: m in nodes && m.id == n.parentId.value
  }

  predicate RootsAre(ts: seq<Tree>, some: seq<Node>) {
    |ts| == |some| && forall i :: 0 <= i < |some| ==> ts[i].node == some[i]
  }

  lemma OneMoreRoot(ts: seq<Tree>, some: seq<Node>)
    requires ts != [] && some != [] && RootsAre(ts[..|ts| - 1], some[..|some| - 1])
    requires ts[|ts| - 1].node == some[|some| - 1]
    ensures RootsAre(ts, some)
  {
    forall i | 0 <= i < |some| - 1
      ensures ts[i].node == some[i]
    {
      assert ts[..|ts| - 1][i].node == some[..|some| - 1][i];
    }
  }

  lemma {:induction false} RootsOf(nodes: seq<Node>, path: seq<Node>, some: seq<Node>)
    requires DistinctIds(nodes) && Chain(nodes, path) && Extends(nodes, path, some)
    ensures RootsAre(Forest(nodes, path, some), some)
    decreases |some|
  {
    if some != [] {
      RootsOf(nodes, path, some[..|some| - 1]);
      ForestPush(nodes, path, some);
      OneMoreRoot(Forest(nodes, path, some), some);
    }
  }

  lemma {:induction false} TopsAreNullParents(nodes: seq<Node>, some: seq<Node>)
    requires ParentsExist(nodes) && forall n :: n in some ==> n in nodes
    ensures Tops(nodes, some) == Under(some, None)
  {
    if some != [] {
      TopsAreNullParents(nodes, some[..|some| - 1]);
    }
  }

  lemma SameRoots(nodes: seq<Node>)
    requires DistinctIds(nodes) && OnePassForest(nodes) == RecursiveForest(nodes)
    ensures Tops(nodes, nodes) == Under(nodes, None)
  {
    RootsOf(nodes, [], Tops(nodes, nodes));
    RootsOf(nodes, [], Under(nodes, None));
  }

  lemma NoOrphanRoots(nodes: seq<Node>)
    requires Tops(nodes, nodes) == Under(nodes, None)
    ensures ParentsExist(nodes)
  {
    forall n | n in nodes && n.parentId.Some?
      ensures exists m :: m in nodes && m.id == n.parentId.value
    {
      assert n !in Under(nodes, None);
    }
  }

  /** The two builders agree, in the order of roots and of children, exactly when no row is an orphan. */
  lemma SameForestIffNoOrphans(nodes: seq<Node>)
    requires DistinctIds(nodes)
    ensures OnePassForest(nodes) == RecursiveForest(nodes) <==> ParentsExist(nodes)
  {
    if ParentsExist(nodes) {
      TopsAreNullParents(nodes, nodes);
    } else if OnePassForest(nodes) == RecursiveForest(nodes) {
      SameRoots(nodes);
      NoOrphanRoots(nodes);
    }
  }

  // ---------- every row once ----------

  /** How often a row occurs in some trees. */
  function Count(ts: seq<Tree>, n: Node): nat {
    if ts == [] then 0
    else
      Count(ts[..|ts| - 1], n) + (if ts[|ts| - 1].node == n then 1 else 0) + Count(ts[|ts| - 1].children, n)
  }

  /** The row has a line of descent from a top row: its parents do not run in a circle. */
  ghost predicate Rooted(nodes: seq<Node>, n: Node) {
    exists path :: LineTo(nodes, path, n)
  }

  predicate LineTo(nodes: seq<Node>, older path: seq<Node>, n: Node) {
    Chain(nodes, path) && path != [] && path[|path| - 1] == n
  }

  predicate Distinct(s: seq<Node>) {
    forall i, k :: 0 <= i < k < |s| ==> s[i] != s[k]
  }

  lemma {:induction false} UnderDistinct(nodes: seq<Node>, parent: Option<int>)
    requires DistinctIds(nodes)
    ensures Distinct(Under(nodes, parent))
  {
    if nodes != [] {
      UnderDistinct(nodes[..|nodes| - 1], parent);
    }
  }

  lemma {:induction false} TopsDistinct(nodes: seq<Node>, some: seq<Node>)
    requires DistinctIds(some)
    ensures Distinct(Tops(nodes, some))
  {
    if some != [] {
      TopsDistinct(nodes, some[..|some| - 1]);
    }
  }

  /** The line of descent passes through one of these rows right after the given path. */
  predicate PassesThrough(path: seq<Node>, some: seq<Node>, line: seq<Node>) {
    |path| < |line| && path == line[..|path|] && line[|path|] in some
  }

  lemma {:induction false} CountOnLine(nodes: seq<Node>, path: seq<Node>, some: seq<Node>, n: Node, line: seq<Node>)
    requires DistinctIds(nodes) && Chain(nodes, path) && Extends(nodes, path, some) && Distinct(some)
    requires LineTo(nodes, line, n)
    ensures Count(Forest(nodes, path, some), n) == if PassesThrough(path, some, line) then 1 else 0
    decreases |nodes| - |path|, |some|
  {
    if some != [] {
      var front, last := some[..|some| - 1], some[|some| - 1];
      Descend(nodes, path, some);
      CountOnLine(nodes, path, front, n, line);
      UnderDistinct(nodes, Some(last.id));
      CountOnLine(nodes, path + [last], Under(nodes, Some(last.id)), n, line);
      OneMoreTree(nodes, path, some, n);
      OneMoreRow(nodes, path, some, n, line);
    }
  }

  lemma OneMoreTree(nodes: seq<Node>, path: seq<Node>, some: seq<Node>, n: Node)
    requires DistinctIds(nodes) && Chain(nodes, path) && some != [] && Extends(nodes, path, some)
    ensures var last := some[|some| - 1];
            Count(Forest(nodes, path, some), n) == Count(Forest(nodes, path, some[..|some| - 1]), n)
              + (if last == n then 1 else 0) + Count(Forest(nodes, path + [last], Under(nodes, Some(last.id))), n)
  {
    ForestPush(nodes, path, some);
  }

  lemma OneMoreRow(nodes: seq<Node>, path: seq<Node>, some: seq<Node>, n: Node, line: seq<Node>)
    requires DistinctIds(nodes) && some != [] && Extends(nodes, path, some) && Distinct(some) && LineTo(nodes, line, n)
    ensures var front, last := some[..|some| - 1], some[|some| - 1];
            (if PassesThrough(path, some, line) then 1 else 0) ==
            (if PassesThrough(path, front, line) then 1 else 0) + (if last == n then 1 else 0)
              + (if PassesThrough(path + [last], Under(nodes, Some(last.id)), line) then 1 else 0)
  {
    var front, last := some[..|some| - 1], some[|some| - 1];
    assert last in some && last !in front;
    if last == n {
      ChainUnique(nodes, path + [last], line);
    } else if PassesThrough(path, some, line) && line[|path|] == last {
      assert line[..|path| + 1] == path + [last];
      assert line[|path| + 1] in Under(nodes, Some(last.id));
    }
  }

  lemma {:induction false} CountedHasLine(nodes: seq<Node>, path: seq<Node>, some: seq<Node>, n: Node)
    requires DistinctIds(nodes) && Chain(nodes, path) && Extends(nodes, path, some)
    requires Count(Forest(nodes, path, some), n) > 0
    ensures Rooted(nodes, n)
    decreases |nodes| - |path|, |some|
  {
    if some != [] {
      var front, last := some[..|some| - 1], some[|some| - 1];
      Descend(nodes, path, some);
      OneMoreTree(nodes, path, some, n);
      if last == n {
        assert LineTo(nodes, path + [last], n);
      } else if Count(Forest(nodes, path, front), n) > 0 {
        CountedHasLine(nodes, path, front, n);
      } else {
        CountedHasLine(nodes, path + [last], Under(nodes, Some(last.id)), n);
      }
    }
  }

  lemma OnceIffRooted(nodes: seq<Node>, n: Node)
    requires DistinctIds(nodes)
    ensures Count(OnePassForest(nodes), n) == if Rooted(nodes, n) then 1 else 0
  {
    if Rooted(nodes, n) {
      var line :| LineTo(nodes, line, n);
      TopsDistinct(nodes, nodes);
      CountOnLine(nodes, [], Tops(nodes, nodes), n, line);
      assert line[..0] == [];
    } else if Count(OnePassForest(nodes), n) > 0 {
      CountedHasLine(nodes, [], Tops(nodes, nodes), n);
    }
  }

  // ---------- parents that run in a circle ----------

  /** From each row to its parent. */
  predicate Ascent(nodes: seq<Node>, older path: seq<Node>) {
    && (forall i :: 0 <= i < |path| ==> path[i] in nodes)
    && (forall i :: 0 <= i < |path| - 1 ==> path[i].parentId == Some(path[i + 1].id))
  }

  /** A circle of parents: some rows up, the same row again. */
  predicate ParentCycle(nodes: seq<Node>, older path: seq<Node>) {
    Ascent(nodes, path) && |path| >= 2 && path[0] == path[|path| - 1]
  }

  /** The parents of a row lead into a circle. */
  predicate LeadsIntoCycle(nodes: seq<Node>, older path: seq<Node>, n: Node, i: int) {
    Ascent(nodes, path) && 0 <= i < |path| && path[0] == n && ParentCycle(nodes, path[i..])
  }

  ghost predicate Circling(nodes: seq<Node>, n: Node) {
    exists path, i :: LeadsIntoCycle(nodes, path, n, i)
  }

  ghost predicate AcyclicParents(nodes: seq<Node>) {
    forall path | Ascent(nodes, path) :: !ParentCycle(nodes, path)
  }

  /** Climb k parents, or to a top row. */
  lemma {:induction false} Climb(nodes: seq<Node>, n: Node, k: nat) returns (path: seq<Node>)
    requires n in nodes
    ensures Ascent(nodes, path) && path != [] && path[0] == n
    ensures |path| == k + 1 || IsTop(nodes, path[|path| - 1])
  {
    if k == 0 {
      path := [n];
    } else {
      path := Climb(nodes, n, k - 1);
      var last := path[|path| - 1];
      if !IsTop(nodes, last) {
        var parent :| parent in nodes && parent.id == last.parentId.value;
        path := path + [parent];
      }
    }
  }

  /** A climb that ends at a top row is a line of descent read upwards. */
  lemma {:induction false} AscentRoots(nodes: seq<Node>, path: seq<Node>)
    requires Ascent(nodes, path) && path != [] && IsTop(nodes, path[|path| - 1])
    ensures Rooted(nodes, path[0])
  {
    if |path| == 1 {
      assert LineTo(nodes, [path[0]], path[0]);
    } else {
      AscentRoots(nodes, path[1..]);
      var line :| LineTo(nodes, line, path[1]);
      ChainPush(nodes, line, path[0]);
      assert LineTo(nodes, line + [path[0]], path[0]);
    }
  }

  /** A climb longer than the row list meets a row twice, which is a circle. */
  lemma LongAscentCircles(nodes: seq<Node>, path: seq<Node>)
    requires Ascent(nodes, path) && |path| > |nodes|
    ensures Circling(nodes, path[0])
  {
    if forall i, k :: 0 <= i < k < |path| ==> path[i] != path[k] {
      DistinctWithin(path, nodes);
    }
    var i, k :| 0 <= i < k < |path| && path[i] == path[k];
    var up := path[..k + 1];
    assert up[i..][0] == up[i..][|up[i..]| - 1];
    assert LeadsIntoCycle(nodes, up, path[0], i);
  }

  /** No row of a circle has a line of descent: its parents never come to a top row. */
  lemma {:induction false} CycleUnrooted(nodes: seq<Node>, path: seq<Node>, i: int, line: seq<Node>)
    requires DistinctIds(nodes) && ParentCycle(nodes, path) && 0 <= i < |path| - 1
    ensures !LineTo(nodes, line, path[i])
    decreases |line|
  {
    if LineTo(nodes, line, path[i]) {
      assert path[i + 1] in nodes && !IsTop(nodes, path[i]);
      var up := line[..|line| - 1];
      assert |line| > 1;
      SameIdSameNode(nodes, line[|line| - 2], path[i + 1]);
      CycleUnrooted(nodes, path, if i + 1 == |path| - 1 then 0 else i + 1, up);
    }
  }

  lemma CycleNotRooted(nodes: seq<Node>, path: seq<Node>)
    requires DistinctIds(nodes) && ParentCycle(nodes, path)
    ensures !Rooted(nodes, path[0])
  {
    if Rooted(nodes, path[0]) {
      var line :| LineTo(nodes, line, path[0]);
      CycleUnrooted(nodes, path, 0, line);
    }
  }

  /** A row's parent is rooted with it. */
  lemma ParentRooted(nodes: seq<Node>, n: Node, parent: Node)
    requires DistinctIds(nodes) && Rooted(nodes, n) && parent in nodes && n.parentId == Some(parent.id)
    ensures Rooted(nodes, parent)
  {
    var line :| LineTo(nodes, line, n);
    assert !IsTop(nodes, n);
    assert |line| > 1;
    SameIdSameNode(nodes, line[|line| - 2], parent);
    assert LineTo(nodes, line[..|line| - 1], parent);
  }

  lemma {:induction false} AscentKeepsRooted(nodes: seq<Node>, path: seq<Node>, i: int)
    requires DistinctIds(nodes) && Ascent(nodes, path) && 0 <= i < |path| && Rooted(nodes, path[0])
    ensures Rooted(nodes, path[i])
  {
    if i > 0 {
      AscentKeepsRooted(nodes, path, i - 1);
      ParentRooted(nodes, path[i - 1], path[i]);
    }
  }

  /** A row comes from a top row exactly when its parents do not lead into a circle. */
  lemma RootedUnlessCircling(nodes: seq<Node>, n: Node)
    requires DistinctIds(nodes) && n in nodes
    ensures Rooted(nodes, n) <==> !Circling(nodes, n)
  {
    if Circling(nodes, n) {
      var path, i :| LeadsIntoCycle(nodes, path, n, i);
      CycleNotRooted(nodes, path[i..]);
      if Rooted(nodes, n) {
        AscentKeepsRooted(nodes, path, i);
      }
    } else {
      var path := Climb(nodes, n, |nodes|);
      if IsTop(nodes, path[|path| - 1]) {
        AscentRoots(nodes, path);
      } else {
        LongAscentCircles(nodes, path);
      }
    }
  }

  /** In the one-pass result a row, orphan or not, occurs once when its parents do not lead into a circle, and never
      otherwise. */
  lemma {:induction false} OnceUnlessCircling(nodes: seq<Node>, n: Node)
    requires DistinctIds(nodes) && n in nodes
    ensures Count(OnePassForest(nodes), n) == if Circling(nodes, n) then 0 else 1
  {
    OnceIffRooted(nodes, n);
    RootedUnlessCircling(nodes, n);
  }

  /** Every row occurs exactly once in the one-pass result exactly when no parents run in a circle. */
  lemma {:induction false} AllOnceIffAcyclic(nodes: seq<Node>)
    requires DistinctIds(nodes)
    ensures AcyclicParents(nodes) <==> forall n :: n in nodes ==> Count(OnePassForest(nodes), n) == 1
  {
    if AcyclicParents(nodes) {
      forall n | n in nodes
        ensures Count(OnePassForest(nodes), n) == 1
      {
        OnceUnlessCircling(nodes, n);
      }
    } else {
      var path :| Ascent(nodes, path) && ParentCycle(nodes, path);
      assert path[0] in nodes && path[0..] == path;
      assert LeadsIntoCycle(nodes, path, path[0], 0);
      OnceUnlessCircling(nodes, path[0]);
    }
  }

  // ---------- the builders ----------

  /** Following children fields from some rows draws this forest. */
  ghost predicate Draws(rows: set<Node>, some: seq<Node>, ts: seq<Tree>)
    reads rows
    decreases ts
  {
    && |some| == |ts|
    && (ts != [] ==> Draws(rows, some[..|ts| - 1], ts[..|ts| - 1]) && DrawsTree(rows, some[|ts| - 1], ts[|ts| - 1]))
  }

  ghost predicate DrawsTree(rows: set<Node>, n: Node, t: Tree)
    reads rows
    decreases t
  {
    && n in rows && t.node == n
    && if n.children.None? then t.children == [] else Draws(rows, n.children.value, t.children)
  }

  /** Every row of a forest has its children filed. */
  ghost predicate Filed(nodes: seq<Node>, ts: seq<Tree>)
    reads RowSet(nodes)
    decreases ts
  {
    ts == []
    || (&& Filed(nodes, ts[..|ts| - 1])
        && ts[|ts| - 1].node in nodes && ts[|ts| - 1].node.children == Listed(nodes, ts[|ts| - 1].node)
        && Filed(nodes, ts[|ts| - 1].children))
  }

  lemma {:induction false} CountedFiled(nodes: seq<Node>, ts: seq<Tree>)
    requires forall n :: Count(ts, n) > 0 ==> n in nodes && n.children == Listed(nodes, n)
    ensures Filed(nodes, ts)
    decreases ts
  {
    if ts != [] {
      forall n
        ensures Count(ts[..|ts| - 1], n) <= Count(ts, n) && Count(ts[|ts| - 1].children, n) <= Count(ts, n)
      {
      }
      assert Count(ts, ts[|ts| - 1].node) > 0;
      CountedFiled(nodes, ts[..|ts| - 1]);
      CountedFiled(nodes, ts[|ts| - 1].children);
    }
  }

  /** The trees have these rows as roots, and below every row its own rows. */
  predicate Shaped(nodes: seq<Node>, some: seq<Node>, ts: seq<Tree>)
    decreases ts
  {
    && |some| == |ts|
    && (ts != [] ==>
          && Shaped(nodes, some[..|ts| - 1], ts[..|ts| - 1])
          && ts[|ts| - 1].node == some[|ts| - 1]
          && Shaped(nodes, Under(nodes, Some(some[|ts| - 1].id)), ts[|ts| - 1].children))
  }

  lemma {:induction false} ForestShaped(nodes: seq<Node>, path: seq<Node>, some: seq<Node>)
    requires DistinctIds(nodes) && Chain(nodes, path) && Extends(nodes, path, some)
    ensures Shaped(nodes, some, Forest(nodes, path, some))
    decreases |nodes| - |path|, |some|
  {
    if some != [] {
      var front, last := some[..|some| - 1], some[|some| - 1];
      Descend(nodes, path, some);
      ForestPush(nodes, path, some);
      ForestShaped(nodes, path, front);
      ForestShaped(nodes, path + [last], Under(nodes, Some(last.id)));
      RootsOf(nodes, path, some);
    }
  }

  lemma {:induction false} FiledDraws(nodes: seq<Node>, some: seq<Node>, ts: seq<Tree>)
    requires Shaped(nodes, some, ts) && Filed(nodes, ts)
    ensures Draws(RowSet(nodes), some, ts)
    decreases ts
  {
    if ts != [] {
      var last := ts[|ts| - 1];
      FiledDraws(nodes, some[..|ts| - 1], ts[..|ts| - 1]);
      FiledDraws(nodes, Under(nodes, Some(last.node.id)), last.children);
      FiledTreeDraws(nodes, last.node, last.children);
    }
  }

  lemma FiledTreeDraws(nodes: seq<Node>, n: Node, ts: seq<Tree>)
    requires n in nodes && n.children == Listed(nodes, n) && Draws(RowSet(nodes), Under(nodes, Some(n.id)), ts)
    ensures DrawsTree(RowSet(nodes), n, Tree(n, ts))
  {
  }

  lemma ForestPush(nodes: seq<Node>, path: seq<Node>, some: seq<Node>)
    requires DistinctIds(nodes) && Chain(nodes, path) && some != [] && Extends(nodes, path, some)
    ensures var ts, last := Forest(nodes, path, some), some[|some| - 1];
            && |ts| == |Forest(nodes, path, some[..|some| - 1])| + 1
            && ts[..|ts| - 1] == Forest(nodes, path, some[..|some| - 1])
            && ts[|ts| - 1] == Tree(last, Forest(nodes, path + [last], Under(nodes, Some(last.id))))
  {
  }

  lemma TreesDraw(nodes: seq<Node>, some: seq<Node>, ts: seq<Tree>)
    requires Shaped(nodes, some, ts)
    requires forall n :: Count(ts, n) > 0 ==> n in nodes && n.children == Listed(nodes, n)
    ensures Draws(RowSet(nodes), some, ts)
  {
    CountedFiled(nodes, ts);
    FiledDraws(nodes, some, ts);
  }

  /** Once every row of the forest has its children filed, the heap draws it. */
  lemma HeapDraws(nodes: seq<Node>, some: seq<Node>)
    requires DistinctIds(nodes) && forall n :: n in some ==> n in nodes && IsTop(nodes, n)
    requires forall n :: n in nodes && Count(Forest(nodes, [], some), n) > 0 ==> n.children == Listed(nodes, n)
    ensures Draws(RowSet(nodes), some, Forest(nodes, [], some))
  {
    OnlyRowsCounted(nodes, some);
    ForestShaped(nodes, [], some);
    TreesDraw(nodes, some, Forest(nodes, [], some));
  }

  predicate IsIndex(nodes: seq<Node>, nodeDict: map<int, Node>) {
    && (forall n :: n in nodes ==> n.id in nodeDict && nodeDict[n.id] == n)
    && (forall id :: id in nodeDict ==> nodeDict[id] in nodes && nodeDict[id].id == id)
  }

  lemma FreshRow(nodes: seq<Node>, k: nat)
    requires DistinctIds(nodes) && k < |nodes|
    ensures nodes[k] !in nodes[..k]
  {
  }

  lemma UnderPush(nodes: seq<Node>, k: nat, parent: Option<int>)
    requires k < |nodes|
    ensures Under(nodes[..k + 1], parent) == Under(nodes[..k], parent) +
            if nodes[k].parentId == parent then [nodes[k]] else []
  {
    assert nodes[..k + 1][..k] == nodes[..k];
  }

  function Added(children: Option<seq<Node>>, n: Node): Option<seq<Node>> {
    Some((if children.Some? then children.value else []) + [n])
  }

  lemma ListedPush(nodes: seq<Node>, k: nat, n: Node)
    requires k < |nodes|
    ensures Listed(nodes[..k + 1], n)
         == if nodes[k].parentId == Some(n.id) then Added(Listed(nodes[..k], n), nodes[k]) else Listed(nodes[..k], n)
  {
    UnderPush(nodes, k, Some(n.id));
    var below := Under(nodes[..k], Some(n.id));
    assert (if Listed(nodes[..k], n).Some? then Listed(nodes[..k], n).value else []) == below;
    assert below + [] == below;
  }

  lemma AllListedPush(nodes: seq<Node>, k: nat)
    requires k < |nodes|
    ensures forall n :: n in nodes ==>
              Listed(nodes[..k + 1], n)
              == if nodes[k].parentId == Some(n.id) then Added(Listed(nodes[..k], n), nodes[k])
                else Listed(nodes[..k], n)
  {
    forall n | n in nodes
      ensures Listed(nodes[..k + 1], n)
           == if nodes[k].parentId == Some(n.id) then Added(Listed(nodes[..k], n), nodes[k]) else Listed(nodes[..k], n)
    {
      ListedPush(nodes, k, n);
    }
  }

  lemma TopsPush(nodes: seq<Node>, nodeDict: map<int, Node>, k: nat)
    requires IsIndex(nodes, nodeDict) && k < |nodes|
    ensures Tops(nodes, nodes[..k + 1]) == Tops(nodes, nodes[..k]) +
              if nodes[k].parentId.None? || nodes[k].parentId.value !in nodeDict then [nodes[k]] else []
  {
    assert nodes[..k + 1][..k] == nodes[..k];
  }

  method AppendChild(parent: Node, node: Node)
    requires parent.children.Some? ==> node !in parent.children.value
    modifies parent
    ensures parent.children == Added(old(parent.children), node)
  {
    if parent.children.None? {
      parent.children := Some([]);
    }
    if node !in parent.children.value {
      parent.children := Some(parent.children.value + [node]);
    }
  }

  /** The loop body of traversal_to_tree for row k. */
  method FileRow(nodes: seq<Node>, nodeDict: map<int, Node>, k: nat, tree: seq<Node>) returns (longer: seq<Node>)
    requires DistinctIds(nodes) && IsIndex(nodes, nodeDict) && k < |nodes|
    requires tree == Tops(nodes, nodes[..k])
    requires forall n :: n in nodes ==> n.children == Listed(nodes[..k], n)
    modifies RowSet(nodes)
    ensures longer == Tops(nodes, nodes[..k + 1])
    ensures forall n :: n in nodes ==> n.children == Listed(nodes[..k + 1], n)
  {
    var node := nodes[k];
    longer := tree;
    FreshRow(nodes, k);
    TopsPush(nodes, nodeDict, k);
    AllListedPush(nodes, k);
    if node.parentId.None? {
      longer := longer + [node];
    } else if node.parentId.value in nodeDict {
      var parent := nodeDict[node.parentId.value];
      AppendChild(parent, node);
    } else {
      if node !in longer {
        longer := longer + [node];
      }
    }
  }

  /** traversal_to_tree. */
  method TraversalToTree(nodes: seq<Node>) returns (tree: seq<Node>)
    requires DistinctIds(nodes)
    requires forall n :: n in nodes ==> n.children.None?
    modifies RowSet(nodes)
    ensures tree == Tops(nodes, nodes)
    ensures forall n :: n in nodes ==> n.children == Listed(nodes, n)
    ensures Draws(RowSet(nodes), tree, OnePassForest(nodes))
  {
    tree := [];
    forall n, m | n in nodes && m in nodes && n.id == m.id
      ensures n == m
    {
      SameIdSameNode(nodes, n, m);
    }
    var nodeDict := map n | n in nodes :: n.id := n;
    for k := 0 to |nodes|
      invariant tree == Tops(nodes, nodes[..k])
      invariant forall n :: n in nodes ==> n.children == Listed(nodes[..k], n)
    {
      tree := FileRow(nodes, nodeDict, k, tree);
    }
    assert nodes[..|nodes|] == nodes;
    HeapDraws(nodes, Tops(nodes, nodes));
  }

  lemma OnlyRowsCounted(nodes: seq<Node>, some: seq<Node>)
    requires DistinctIds(nodes) && forall n :: n in some ==> n in nodes && IsTop(nodes, n)
    ensures forall n :: Count(Forest(nodes, [], some), n) > 0 ==> n in nodes
  {
    forall n | Count(Forest(nodes, [], some), n) > 0
      ensures n in nodes
    {
      CountedHasLine(nodes, [], some, n);
    }
  }

  ghost predicate PartlyFiled(nodes: seq<Node>)
    reads RowSet(nodes)
  {
    forall n :: n in nodes ==> n.children == None || n.children == Listed(nodes, n)
  }

  /** Exactly the rows of a forest had their children filed since the snapshot. */
  ghost predicate FiledSince(nodes: seq<Node>, before: map<Node, Option<seq<Node>>>, ts: seq<Tree>)
    reads RowSet(nodes)
  {
    forall n :: n in nodes ==> n in before && n.children == if Count(ts, n) > 0 then Listed(nodes, n) else before[n]
  }

  /** recursive_to_tree, one level; the path is the line of descent it is called along. */
  method BuildBelow(nodes: seq<Node>, parentId: Option<int>, ghost path: seq<Node>) returns (tree: seq<Node>)
    requires DistinctIds(nodes) && Chain(nodes, path) && PartlyFiled(nodes)
    requires parentId == if path == [] then None else Some(path[|path| - 1].id)
    modifies RowSet(nodes)
    ensures tree == Under(nodes, parentId) && Extends(nodes, path, tree) && PartlyFiled(nodes)
    ensures forall n :: n in nodes ==>
              n.children == if Count(Forest(nodes, path, tree), n) > 0 then Listed(nodes, n) else old(n.children)
    decreases |nodes| - |path|, 2
  {
    tree := [];
    ghost var before := map n | n in nodes :: n.children;
    BelowExtends(nodes, parentId, path);
    for k := 0 to |nodes|
      invariant tree == Under(nodes[..k], parentId) && Extends(nodes, path, tree) && PartlyFiled(nodes)
      invariant FiledSince(nodes, before, Forest(nodes, path, tree))
    {
      UnderPush(nodes, k, parentId);
      if nodes[k].parentId == parentId {
        assert nodes[k] in Under(nodes, parentId);
        BuildNext(nodes, nodes[k], path, Forest(nodes, path, tree), before);
        ForestGrows(nodes, path, tree, nodes[k]);
        tree := tree + [nodes[k]];
      }
    }
    assert nodes[..|nodes|] == nodes;
  }

  lemma BelowExtends(nodes: seq<Node>, parentId: Option<int>, path: seq<Node>)
    requires Chain(nodes, path)
    requires parentId == if path == [] then None else Some(path[|path| - 1].id)
    ensures Extends(nodes, path, Under(nodes, parentId))
  {
    if path != [] {
      ChildrenExtend(nodes, path);
    }
  }

  /** The tree of one row at the end of its line of descent. */
  function TreeOf(nodes: seq<Node>, path: seq<Node>, node: Node): Tree
    requires DistinctIds(nodes) && Chain(nodes, path + [node])
  {
    assert (path + [node])[|path|] == node;
    ChildrenExtend(nodes, path + [node]);
    Tree(node, Forest(nodes, path + [node], Under(nodes, Some(node.id))))
  }

  lemma ForestGrows(nodes: seq<Node>, path: seq<Node>, some: seq<Node>, node: Node)
    requires DistinctIds(nodes) && Chain(nodes, path) && Extends(nodes, path, some) && Chain(nodes, path + [node])
    ensures Extends(nodes, path, some + [node])
    ensures Forest(nodes, path, some + [node]) == Forest(nodes, path, some) + [TreeOf(nodes, path, node)]
  {
    assert (some + [node])[..|some|] == some;
    assert Extends(nodes, path, some + [node]);
  }

  lemma CountPush(ts: seq<Tree>, t: Tree, n: Node)
    ensures Count(ts + [t], n) == Count(ts, n) + (if t.node == n then 1 else 0) + Count(t.children, n)
  {
    assert (ts + [t])[..|ts|] == ts;
  }

  /** The loop body of recursive_to_tree, with what the loop has built so far. */
  method BuildNext(nodes: seq<Node>, node: Node, ghost path: seq<Node>, ghost built: seq<Tree>,
                   ghost before: map<Node, Option<seq<Node>>>)
    requires DistinctIds(nodes) && Chain(nodes, path + [node])
    requires PartlyFiled(nodes) && FiledSince(nodes, before, built)
    modifies RowSet(nodes)
    ensures PartlyFiled(nodes) && FiledSince(nodes, before, built + [TreeOf(nodes, path, node)])
    decreases |nodes| - |path|, 1
  {
    BuildRow(nodes, node, path);
    forall n | n in nodes
      ensures Count(built + [TreeOf(nodes, path, node)], n)
           == Count(built, n) + (if node == n then 1 else 0) + Count(TreeOf(nodes, path, node).children, n)
    {
      CountPush(built, TreeOf(nodes, path, node), n);
    }
  }

  /** The loop body of recursive_to_tree for a row that belongs below. */
  method BuildRow(nodes: seq<Node>, node: Node, ghost path: seq<Node>)
    requires DistinctIds(nodes) && Chain(nodes, path + [node]) && PartlyFiled(nodes)
    modifies RowSet(nodes)
    ensures PartlyFiled(nodes)
    ensures forall n :: n in nodes ==>
              n.children == if node == n || Count(TreeOf(nodes, path, node).children, n) > 0
                            then Listed(nodes, n) else old(n.children)
    decreases |nodes| - |path|, 0
  {
    assert (path + [node])[|path|] == node;
    ChainShort(nodes, path + [node]);
    var childNodes := BuildBelow(nodes, Some(node.id), path + [node]);
    if childNodes != [] {
      node.children := Some(childNodes);
    }
  }

  /** recursive_to_tree from the root rows. */
  method RecursiveToTree(nodes: seq<Node>) returns (tree: seq<Node>)
    requires DistinctIds(nodes)
    requires forall n :: n in nodes ==> n.children.None?
    modifies RowSet(nodes)
    ensures tree == Under(nodes, None)
    ensures forall n :: n in nodes ==>
              n.children == if Count(RecursiveForest(nodes), n) > 0 then Listed(nodes, n) else None
    ensures Draws(RowSet(nodes), tree, RecursiveForest(nodes))
  {
    tree := BuildBelow(nodes, None, []);
    OnlyRowsCounted(nodes, tree);
    HeapDraws(nodes, tree);
  }
}
