/** Album aggregation of runtime/ingest/album.py: members of one album are collected for a window of time, then
    emitted once, sorted. Every clock reading is a parameter. */
module Album {
  import opened Text

  datatype Key = Key(account: string, chat: int, groupedId: int)

  datatype Group = Group(key: Key, firstSeen: real, members: seq<int>, closed: bool)

  datatype Disposition = InGroup | Late

  /** The open groups in the order they were opened, and the keys of the closed ones. */
  datatype State = State(open: seq<Group>, closedKeys: set<Key>)

  predicate HasKey(gs: seq<Group>, key: Key) {
    exists i :: 0 <= i < |gs| && gs[i].key == key
  }

  predicate DistinctKeys(gs: seq<Group>) {
    forall i, k :: 0 <= i < k < |gs| ==> gs[i].key != gs[k].key
  }

  function IndexOf(gs: seq<Group>, key: Key): (i: nat)
    ensures i <= |gs|
    ensures i < |gs| ==> gs[i].key == key
    ensures i == |gs| ==> !HasKey(gs, key)
  {
    if gs == [] then 0
    else if gs[0].key == key then 0
    else
      assert forall k :: 0 < k < |gs| ==> gs[k] == gs[1..][k - 1];
      IndexOf(gs[1..], key) + 1
  }

  // ---------- sorting members ----------

  function Placed(s: seq<int>, x: int): seq<int> {
    if s == [] || s[|s| - 1] <= x then s + [x] else Placed(s[..|s| - 1], x) + [s[|s| - 1]]
  }

  function Sorted(s: seq<int>): seq<int> {
    if s == [] then [] else Placed(Sorted(s[..|s| - 1]), s[|s| - 1])
  }

  predicate Increasing(s: seq<int>) {
    forall i, k :: 0 <= i < k < |s| ==> s[i] < s[k]
  }

  predicate Distinct(s: seq<int>) {
    forall i, k :: 0 <= i < k < |s| ==> s[i] != s[k]
  }

  function Ids(s: seq<int>): set<int> {
    set x | x in s
  }

  lemma {:induction false} PlacedFacts(s: seq<int>, x: int)
    requires Increasing(s) && x !in s
    ensures Increasing(Placed(s, x)) && Ids(Placed(s, x)) == Ids(s) + {x}
  {
    if s != [] && s[|s| - 1] > x {
      var front, last := s[..|s| - 1], s[|s| - 1];
      PlacedFacts(front, x);
      assert s == front + [last];
      forall y | y in Placed(front, x)
        ensures y < last
      {
        assert y in Ids(Placed(front, x));
        assert y in front ==> y < last;
      }
      var placed := Placed(front, x);
      assert forall i :: 0 <= i < |placed| ==> placed[i] in placed;
    }
  }

  lemma {:induction false} SortedFacts(s: seq<int>)
    requires Distinct(s)
    ensures Increasing(Sorted(s)) && Ids(Sorted(s)) == Ids(s)
  {
    if s != [] {
      var front, last := s[..|s| - 1], s[|s| - 1];
      SortedFacts(front);
      assert last in Ids(Sorted(front)) <==> last in Ids(front);
      PlacedFacts(Sorted(front), last);
      assert s == front + [last];
    }
  }

  // ---------- one call ----------

  predicate Elapsed(g: Group, now: real, window: real) {
    now - g.firstSeen >= window
  }

  function Close(g: Group): Group {
    g.(members := Sorted(g.members), closed := true)
  }

  function Joined(g: Group, id: int): Group {
    if id in g.members then g else g.(members := g.members + [id])
  }

  /** The group an add works on: the open one, or a new one opened at the given reading. */
  function Target(s: State, key: Key, since: real): Group {
    var i := IndexOf(s.open, key);
    if i < |s.open| then s.open[i] else Group(key, since, [], false)
  }

  /** The open groups with one replaced, or opened at the end. */
  function PutGroup(open: seq<Group>, g: Group): seq<Group> {
    var i := IndexOf(open, g.key);
    if i < |open| then open[i := g] else open + [g]
  }

  function DropKey(open: seq<Group>, key: Key): seq<Group> {
    var i := IndexOf(open, key);
    if i < |open| then open[..i] + open[i + 1..] else open
  }

  function AddState(s: State, key: Key, id: int, since: real, now: real, window: real): State {
    if key in s.closedKeys then s
    else
      var g := Joined(Target(s, key, since), id);
      if Elapsed(g, now, window) then State(DropKey(s.open, key), s.closedKeys + {key})
      else State(PutGroup(s.open, g), s.closedKeys)
  }

  function AddEmits(s: State, key: Key, id: int, since: real, now: real, window: real): seq<Group> {
    var g := Joined(Target(s, key, since), id);
    if key !in s.closedKeys && Elapsed(g, now, window) then [Close(g)] else []
  }

  /** The groups of a prefix that stay open at a flush, and the ones it closes, both in opening order. */
  function StillOpen(open: seq<Group>, readings: seq<real>, window: real): seq<Group>
    requires |open| == |readings|
  {
    if open == [] then []
    else
      var n := |open| - 1;
      StillOpen(open[..n], readings[..n], window) + if Elapsed(open[n], readings[n], window) then [] else [open[n]]
  }

  function Flushed(open: seq<Group>, readings: seq<real>, window: real): seq<Group>
    requires |open| == |readings|
  {
    if open == [] then []
    else
      var n := |open| - 1;
      Flushed(open[..n], readings[..n], window) + if Elapsed(open[n], readings[n], window) then [Close(open[n])] else []
  }

  function KeysOf(gs: seq<Group>): set<Key> {
    set i | 0 <= i < |gs| :: gs[i].key
  }

  function FlushState(s: State, readings: seq<real>, window: real): State
    requires |readings| == |s.open|
  {
    State(StillOpen(s.open, readings, window), s.closedKeys + KeysOf(Flushed(s.open, readings, window)))
  }

  // ---------- groups by key ----------

  lemma {:induction false} NewKeyLast(open: seq<Group>, g: Group)
    requires !HasKey(open, g.key)
    ensures IndexOf(open, g.key) == |open| && IndexOf(open + [g], g.key) == |open|
  {
    var i := IndexOf(open + [g], g.key);
    assert (open + [g])[|open|] == g;
    forall k | 0 <= k < |open|
      ensures (open + [g])[k].key != g.key
    {
    }
  }

  /** Putting a group and dropping its key leaves what dropping the key alone leaves. */
  lemma PutThenDrop(open: seq<Group>, g: Group)
    requires DistinctKeys(open)
    ensures DistinctKeys(PutGroup(open, g)) && HasKey(PutGroup(open, g), g.key)
    ensures DropKey(PutGroup(open, g), g.key) == DropKey(open, g.key)
  {
    var i := IndexOf(open, g.key);
    var put := PutGroup(open, g);
    assert put[i] == g;
    assert IndexOf(put, g.key) == i;
    assert put[..i] == open[..i];
    if i < |open| {
      assert put[i + 1..] == open[i + 1..];
    }
  }

  lemma KeysPush(gs: seq<Group>, g: Group)
    ensures KeysOf(gs + [g]) == KeysOf(gs) + {g.key}
  {
    KeysJoin(gs, [g]);
    assert [g][0].key == g.key;
    assert KeysOf([g]) == {g.key};
  }

  lemma KeysJoin(gs: seq<Group>, hs: seq<Group>)
    ensures KeysOf(gs + hs) == KeysOf(gs) + KeysOf(hs)
    ensures DistinctKeys(gs) && DistinctKeys(hs) && KeysOf(gs) !! KeysOf(hs) ==> DistinctKeys(gs + hs)
  {
    var all := gs + hs;
    forall q | q in KeysOf(gs) + KeysOf(hs)
      ensures q in KeysOf(all)
    {
      if q in KeysOf(gs) {
        var k :| 0 <= k < |gs| && gs[k].key == q;
        assert all[k].key == q;
      } else {
        var k :| 0 <= k < |hs| && hs[k].key == q;
        assert all[|gs| + k].key == q;
      }
    }
    if DistinctKeys(gs) && DistinctKeys(hs) && KeysOf(gs) !! KeysOf(hs) {
      forall i, k | 0 <= i < k < |all|
        ensures all[i].key != all[k].key
      {
        if i < |gs| <= k {
          assert gs[i].key in KeysOf(gs) && hs[k - |gs|].key in KeysOf(hs);
        }
      }
    }
  }

  lemma {:induction false} StillOpenAreOpen(open: seq<Group>, readings: seq<real>, window: real)
    requires |readings| == |open|
    ensures forall g :: g in StillOpen(open, readings, window) ==> g in open
  {
    if open != [] {
      StillOpenAreOpen(open[..|open| - 1], readings[..|open| - 1], window);
    }
  }

  lemma {:induction false} FlushedWereOpen(open: seq<Group>, readings: seq<real>, window: real, g: Group)
    returns (o: Group)
    requires |readings| == |open| && g in Flushed(open, readings, window)
    ensures o in open && g == Close(o)
  {
    var n := |open| - 1;
    if g in Flushed(open[..n], readings[..n], window) {
      o := FlushedWereOpen(open[..n], readings[..n], window, g);
    } else {
      o := open[n];
    }
  }

  /** A flush splits the open keys into those that stay and those it closes. */
  lemma {:induction false} FlushSplits(open: seq<Group>, readings: seq<real>, window: real)
    requires DistinctKeys(open) && |readings| == |open|
    ensures var still, flushed := StillOpen(open, readings, window), Flushed(open, readings, window);
            && KeysOf(open) == KeysOf(still) + KeysOf(flushed) && KeysOf(still) !! KeysOf(flushed)
            && DistinctKeys(still) && DistinctKeys(flushed)
  {
    if open != [] {
      var n := |open| - 1;
      var front, last := open[..n], open[n];
      FlushSplits(front, readings[..n], window);
      assert open == front + [last];
      KeysPush(front, last);
      assert last.key !in KeysOf(front);
      if Elapsed(last, readings[n], window) {
        PushSplit(StillOpen(front, readings[..n], window), Flushed(front, readings[..n], window), Close(last));
      } else {
        PushSplit(Flushed(front, readings[..n], window), StillOpen(front, readings[..n], window), last);
      }
    }
  }

  lemma PushSplit(gs: seq<Group>, hs: seq<Group>, g: Group)
    requires KeysOf(gs) !! KeysOf(hs) && DistinctKeys(hs) && g.key !in KeysOf(gs) + KeysOf(hs)
    ensures KeysOf(gs) !! KeysOf(hs + [g]) && DistinctKeys(hs + [g]) && KeysOf(hs + [g]) == KeysOf(hs) + {g.key}
    ensures gs + [] == gs
  {
    KeysPush(hs, g);
    forall i | 0 <= i < |hs|
      ensures hs[i].key != g.key
    {
      assert hs[i].key in KeysOf(hs);
    }
  }

  lemma DropMiddle(kept: seq<Group>, g: Group, rest: seq<Group>)
    requires forall i :: 0 <= i < |kept| ==> kept[i].key != g.key
    ensures HasKey(kept + [g] + rest, g.key) && DropKey(kept + [g] + rest, g.key) == kept + rest
  {
    var open := kept + [g] + rest;
    NotBefore(kept, g, rest);
    assert open[..|kept|] == kept && open[|kept| + 1..] == rest;
  }

  lemma {:induction false} NotBefore(kept: seq<Group>, g: Group, rest: seq<Group>)
    requires forall i :: 0 <= i < |kept| ==> kept[i].key != g.key
    ensures HasKey(kept + [g] + rest, g.key) && IndexOf(kept + [g] + rest, g.key) == |kept|
  {
    var open := kept + [g] + rest;
    assert open[|kept|] == g;
    if kept != [] {
      NotBefore(kept[1..], g, rest);
      assert open[1..] == kept[1..] + [g] + rest;
      assert open[0] == kept[0];
    }
  }

  /** One round of the flush loop: what is still open of the groups seen, then the groups not yet seen. */
  lemma FlushDrops(items: seq<Group>, readings: seq<real>, window: real, k: nat)
    requires DistinctKeys(items) && |readings| == |items| && k < |items|
    ensures HasKey(StillOpen(items[..k], readings[..k], window) + items[k..], items[k].key)
    ensures DropKey(StillOpen(items[..k], readings[..k], window) + items[k..], items[k].key)
         == StillOpen(items[..k], readings[..k], window) + items[k + 1..]
  {
    var kept := StillOpen(items[..k], readings[..k], window);
    StillOpenAreOpen(items[..k], readings[..k], window);
    forall i | 0 <= i < |kept|
      ensures kept[i].key != items[k].key
    {
      assert kept[i] in items[..k];
    }
    DropMiddle(kept, items[k], items[k + 1..]);
    assert kept + items[k..] == kept + [items[k]] + items[k + 1..];
  }

  lemma FlushPush(items: seq<Group>, readings: seq<real>, window: real, k: nat)
    requires |readings| == |items| && k < |items|
    ensures StillOpen(items[..k + 1], readings[..k + 1], window)
         == StillOpen(items[..k], readings[..k], window) +
           if Elapsed(items[k], readings[k], window) then [] else [items[k]]
    ensures Flushed(items[..k + 1], readings[..k + 1], window)
         == Flushed(items[..k], readings[..k], window) +
           if Elapsed(items[k], readings[k], window) then [Close(items[k])] else []
  {
    assert items[..k + 1][..k] == items[..k] && readings[..k + 1][..k] == readings[..k];
  }

  /** Where the flush loop stands after k groups. */
  predicate FlushedUpTo(items: seq<Group>, readings: seq<real>, window: real, k: nat, open: seq<Group>,
                        closed: seq<Group>) {
    && k <= |items| == |readings|
    && closed == Flushed(items[..k], readings[..k], window)
    && open == StillOpen(items[..k], readings[..k], window) + items[k..]
  }

  lemma FlushedOneMore(items: seq<Group>, readings: seq<real>, window: real, k: nat, open: seq<Group>,
                       closed: seq<Group>)
    requires DistinctKeys(items) && k < |items| && FlushedUpTo(items, readings, window, k, open, closed)
    ensures HasKey(open, items[k].key)
    ensures !Elapsed(items[k], readings[k], window) ==> FlushedUpTo(items, readings, window, k + 1, open, closed)
    ensures Elapsed(items[k], readings[k], window) ==>
              FlushedUpTo(items, readings, window, k + 1, DropKey(open, items[k].key), closed + [Close(items[k])])
  {
    FlushDrops(items, readings, window, k);
    FlushPush(items, readings, window, k);
    TakeNext(StillOpen(items[..k], readings[..k], window), items, k);
  }

  lemma TakeNext(seen: seq<Group>, items: seq<Group>, k: nat)
    requires k < |items|
    ensures seen + items[k..] == seen + [items[k]] + items[k + 1..]
    ensures seen + items[k + 1..] == seen + [] + items[k + 1..]
  {}

  lemma FlushEnds(items: seq<Group>, readings: seq<real>, window: real, open: seq<Group>, closed: seq<Group>)
    ensures |readings| == |items| ==> FlushedUpTo(items, readings, window, 0, items, [])
    ensures FlushedUpTo(items, readings, window, |items|, open, closed) ==>
              open == StillOpen(items, readings, window) && closed == Flushed(items, readings, window)
  {
    assert items[..|items|] == items && readings[..|readings|] == readings;
  }

  // ---------- the class ----------

  class AlbumAggregator {
    const window: real
    var open: seq<Group>
    var closedKeys: set<Key>

    function View(): State
      reads this
    {
      State(open, closedKeys)
    }

    constructor (window: real)
      ensures this.window == window && View() == State([], {})
    {
      this.window, open, closedKeys := window, [], {};
    }

    method MaybeClose(g: Group, now: real) returns (done: Option<Group>)
      requires HasKey(open, g.key)
      modifies this
      ensures done == if Elapsed(g, now, window) then Some(Close(g)) else None
      ensures View() ==
              if Elapsed(g, now, window) then State(DropKey(old(open), g.key), old(closedKeys) + {g.key})
                else old(View())
    {
      if now - g.firstSeen >= window {
        open := DropKey(open, g.key);
        closedKeys := closedKeys + {g.key};
        return Some(g.(members := Sorted(g.members), closed := true));
      }
      return None;
    }

    /** Files the member in its open group, opening the group when there is none. */
    method Collect(key: Key, id: int, since: real) returns (group: Group)
      requires DistinctKeys(open)
      modifies this`open
      ensures group == Joined(Target(old(View()), key, since), id)
      ensures open == PutGroup(old(open), group)
    {
      var i := IndexOf(open, key);
      if i < |open| {
        group := open[i];
      } else {
        group := Group(key, since, [], false);
        NewKeyLast(open, group);
        open := open + [group];
      }
      if id !in group.members {
        group := group.(members := group.members + [id]);
      }
      open := open[i := group];
    }

    method Add(key: Key, id: int, since: real, now: real) returns (closed: Option<Group>, disposition: Disposition)
      requires DistinctKeys(open)
      modifies this
      ensures View() == AddState(old(View()), key, id, since, now, window)
      ensures disposition == if key in old(closedKeys) then Late else InGroup
      ensures (if closed.Some? then [closed.value] else []) == AddEmits(old(View()), key, id, since, now, window)
    {
      if key in closedKeys {
        return None, Late;
      }
      var group := Collect(key, id, since);
      PutThenDrop(old(open), group);
      closed := MaybeClose(group, now);
      disposition := InGroup;
    }

    /** One round of the flush loop. */
    method FlushOne(items: seq<Group>, readings: seq<real>, k: nat, closed: seq<Group>) returns (more: seq<Group>)
      requires DistinctKeys(items) && k < |items| && FlushedUpTo(items, readings, window, k, open, closed)
      modifies this
      ensures FlushedUpTo(items, readings, window, k + 1, open, more)
      ensures closedKeys == old(closedKeys) + if Elapsed(items[k], readings[k], window) then {items[k].key} else {}
      ensures KeysOf(more) == KeysOf(closed) + if Elapsed(items[k], readings[k], window) then {items[k].key} else {}
    {
      FlushedOneMore(items, readings, window, k, open, closed);
      more := closed;
      var done := MaybeClose(items[k], readings[k]);
      if done.Some? {
        KeysPush(closed, done.value);
        more := more + [done.value];
      }
    }

    method Flush(readings: seq<real>) returns (closed: seq<Group>)
      requires DistinctKeys(open) && |readings| == |open|
      modifies this
      ensures View() == FlushState(old(View()), readings, window)
      ensures closed == Flushed(old(open), readings, window)
    {
      closed := [];
      var items := open;
      FlushEnds(items, readings, window, items, []);
      for k := 0 to |items|
        invariant FlushedUpTo(items, readings, window, k, open, closed)
        invariant closedKeys == old(closedKeys) + KeysOf(closed)
      {
        closed := FlushOne(items, readings, k, closed);
      }
      FlushEnds(items, readings, window, open, closed);
    }
  }

  // ---------- whole histories ----------

  datatype Op = Add(key: Key, id: int, since: real, now: real) | Flush(readings: seq<real>)

  /** The aggregator and everything it has emitted, in order. */
  datatype Trace = Trace(state: State, emitted: seq<Group>)

  function Step(t: Trace, op: Op, window: real): Trace
    requires op.Flush? ==> |op.readings| == |t.state.open|
  {
    match op
    case Add(key, id, since, now) =>
      Trace(AddState(t.state, key, id, since, now, window), t.emitted + AddEmits(t.state, key, id, since, now, window))
    case Flush(readings) =>
      Trace(FlushState(t.state, readings, window), t.emitted + Flushed(t.state.open, readings, window))
  }

  /** Every flush reads the clock once for each open group. */
  predicate Possible(ops: seq<Op>, window: real)
    decreases |ops|, 0
  {
    ops == []
    || (&& Possible(ops[..|ops| - 1], window)
        && (ops[|ops| - 1].Flush? ==> |ops[|ops| - 1].readings| == |Run(ops[..|ops| - 1], window).state.open|))
  }

  function Run(ops: seq<Op>, window: real): Trace
    requires Possible(ops, window)
    decreases |ops|, 1
  {
    if ops == [] then Trace(State([], {}), [])
    else Step(Run(ops[..|ops| - 1], window), ops[|ops| - 1], window)
  }

  /** An add for this key that the aggregator answers with IN_GROUP. */
  predicate Accepts(s: State, op: Op, key: Key) {
    op.Add? && op.key == key && key !in s.closedKeys
  }

  /** The ids a history accepted for a key. */
  function Accepted(ops: seq<Op>, key: Key, window: real): set<int>
    requires Possible(ops, window)
  {
    if ops == [] then {}
    else
      var front, last := ops[..|ops| - 1], ops[|ops| - 1];
      Accepted(front, key, window) + if Accepts(Run(front, window).state, last, key) then {last.id} else {}
  }

  /** No key is both open and closed, and the closed keys are those emitted, each once. */
  predicate Orderly(t: Trace) {
    && DistinctKeys(t.state.open) && DistinctKeys(t.emitted)
    && KeysOf(t.state.open) !! t.state.closedKeys
    && KeysOf(t.emitted) == t.state.closedKeys
  }

  lemma DropKeeps(open: seq<Group>, key: Key)
    requires DistinctKeys(open)
    ensures DistinctKeys(DropKey(open, key)) && KeysOf(DropKey(open, key)) == KeysOf(open) - {key}
    ensures forall g :: g in DropKey(open, key) ==> g in open
  {
    var i := IndexOf(open, key);
    var dropped := DropKey(open, key);
    forall k | 0 <= k < |dropped|
      ensures dropped[k] == if k < i then open[k] else open[k + 1]
    {
    }
    forall q | q in KeysOf(open) - {key}
      ensures q in KeysOf(dropped)
    {
      var k :| 0 <= k < |open| && open[k].key == q;
      assert k < i ==> dropped[k].key == q;
      assert k > i ==> dropped[k - 1].key == q;
    }
  }

  lemma PutKeeps(open: seq<Group>, g: Group)
    requires DistinctKeys(open)
    ensures DistinctKeys(PutGroup(open, g)) && KeysOf(PutGroup(open, g)) == KeysOf(open) + {g.key}
    ensures forall o :: o in PutGroup(open, g) ==> o == g || (o in open && o.key != g.key)
  {
    var i := IndexOf(open, g.key);
    var put := PutGroup(open, g);
    forall k | 0 <= k < |put|
      ensures put[k] == if k == i then g else open[k]
    {
    }
    forall q | q in KeysOf(open) + {g.key}
      ensures q in KeysOf(put)
    {
      if q == g.key {
        assert put[i].key == q;
      } else {
        var k :| 0 <= k < |open| && open[k].key == q;
        assert put[k].key == q;
      }
    }
  }

  lemma StepOrderly(t: Trace, op: Op, window: real)
    requires Orderly(t) && (op.Flush? ==> |op.readings| == |t.state.open|)
    ensures Orderly(Step(t, op, window))
  {
    match op
    case Add(key, id, since, now) =>
      if key !in t.state.closedKeys {
        PutKeeps(t.state.open, Joined(Target(t.state, key, since), id));
        DropKeeps(t.state.open, key);
        var g := Joined(Target(t.state, key, since), id);
        KeysJoin(t.emitted, AddEmits(t.state, key, id, since, now, window));
        assert [Close(g)][0].key == key;
        assert KeysOf([Close(g)]) == {key};
        assert t.emitted + [] == t.emitted;
      }
    case Flush(readings) =>
      FlushSplits(t.state.open, readings, window);
      KeysJoin(t.emitted, Flushed(t.state.open, readings, window));
  }

  /** Over every history: no key is both open and closed, and each key is emitted at most once. */
  lemma {:induction false} EveryHistoryOrderly(ops: seq<Op>, window: real)
    requires Possible(ops, window)
    ensures Orderly(Run(ops, window))
  {
    if ops != [] {
      EveryHistoryOrderly(ops[..|ops| - 1], window);
      StepOrderly(Run(ops[..|ops| - 1], window), ops[|ops| - 1], window);
    }
  }

  predicate Holds(g: Group, ids: set<int>) {
    Distinct(g.members) && Ids(g.members) == ids
  }

  predicate Settled(g: Group, ids: set<int>) {
    g.closed && Increasing(g.members) && Ids(g.members) == ids
  }

  /** What the books say of one key, given the ids accepted for it. */
  predicate Books(t: Trace, key: Key, ids: set<int>) {
    && (forall g :: g in t.state.open && g.key == key ==> Holds(g, ids))
    && (forall g :: g in t.emitted && g.key == key ==> Settled(g, ids))
    && (key !in KeysOf(t.state.open) && key !in t.state.closedKeys ==> ids == {})
  }

  lemma CloseSettles(g: Group, ids: set<int>)
    requires Holds(g, ids)
    ensures Settled(Close(g), ids)
  {
    SortedFacts(g.members);
  }

  lemma TargetHolds(t: Trace, key: Key, id: int, since: real, ids: set<int>)
    requires Orderly(t) && Books(t, key, ids) && key !in t.state.closedKeys
    ensures Holds(Joined(Target(t.state, key, since), id), ids + {id})
  {
    var i := IndexOf(t.state.open, key);
    if i < |t.state.open| {
      assert t.state.open[i] in t.state.open;
    }
    var g := Target(t.state, key, since);
    assert Holds(g, ids);
    assert id in g.members <==> id in Ids(g.members);
    if id !in g.members {
      assert Ids(g.members + [id]) == Ids(g.members) + {id};
    }
  }

  lemma OwnAddKeepsBooks(t: Trace, op: Op, window: real, ids: set<int>)
    requires Orderly(t) && op.Add? && op.key !in t.state.closedKeys && Books(t, op.key, ids)
    ensures Books(Step(t, op, window), op.key, ids + {op.id})
  {
    var g := Joined(Target(t.state, op.key, op.since), op.id);
    PutKeeps(t.state.open, g);
    DropKeeps(t.state.open, op.key);
    TargetHolds(t, op.key, op.id, op.since, ids);
    CloseSettles(g, ids + {op.id});
    forall e | e in t.emitted
      ensures e.key != op.key
    {
      assert e.key in KeysOf(t.emitted);
    }
    forall o | o in DropKey(t.state.open, op.key)
      ensures o.key != op.key
    {
      assert o.key in KeysOf(DropKey(t.state.open, op.key));
    }
  }

  lemma OtherAddKeepsBooks(t: Trace, op: Op, window: real, key: Key, ids: set<int>)
    requires Orderly(t) && op.Add? && op.key !in t.state.closedKeys && Books(t, key, ids) && op.key != key
    ensures Books(Step(t, op, window), key, ids)
  {
    PutKeeps(t.state.open, Joined(Target(t.state, op.key, op.since), op.id));
    DropKeeps(t.state.open, op.key);
  }

  lemma FlushKeepsBooks(t: Trace, op: Op, window: real, key: Key, ids: set<int>)
    requires Orderly(t) && Books(t, key, ids) && op.Flush? && |op.readings| == |t.state.open|
    ensures Books(Step(t, op, window), key, ids)
  {
    FlushSplits(t.state.open, op.readings, window);
    StillOpenAreOpen(t.state.open, op.readings, window);
    forall g | g in Flushed(t.state.open, op.readings, window) && g.key == key
      ensures Settled(g, ids)
    {
      var o := FlushedWereOpen(t.state.open, op.readings, window, g);
      CloseSettles(o, ids);
    }
  }

  lemma {:induction false} EveryHistoryBooks(ops: seq<Op>, window: real, key: Key)
    requires Possible(ops, window)
    ensures Books(Run(ops, window), key, Accepted(ops, key, window))
  {
    if ops != [] {
      var front, last := ops[..|ops| - 1], ops[|ops| - 1];
      EveryHistoryBooks(front, window, key);
      EveryHistoryOrderly(front, window);
      var t := Run(front, window);
      if last.Flush? {
        FlushKeepsBooks(t, last, window, key, Accepted(front, key, window));
      } else if last.key !in t.state.closedKeys {
        if last.key == key {
          OwnAddKeepsBooks(t, last, window, Accepted(front, key, window));
        } else {
          OtherAddKeepsBooks(t, last, window, key, Accepted(front, key, window));
        }
      }
    }
  }

  /** An emitted group is strictly increasing and holds exactly the ids accepted for its key. */
  lemma EmittedAreAccepted(ops: seq<Op>, window: real, g: Group)
    requires Possible(ops, window) && g in Run(ops, window).emitted
    ensures Increasing(g.members) && Ids(g.members) == Accepted(ops, g.key, window)
  {
    EveryHistoryBooks(ops, window, g.key);
  }

  predicate IsPrefix(before: seq<Op>, ops: seq<Op>) {
    |before| <= |ops| && ops[..|before|] == before
  }

  /** Once a key is closed it stays closed and accepts nothing more. */
  lemma {:induction false} ClosedForGood(before: seq<Op>, ops: seq<Op>, window: real, key: Key)
    requires IsPrefix(before, ops) && Possible(ops, window) && Possible(before, window)
    requires key in Run(before, window).state.closedKeys
    ensures key in Run(ops, window).state.closedKeys
    ensures Accepted(ops, key, window) == Accepted(before, key, window)
  {
    if |before| < |ops| {
      var front := ops[..|ops| - 1];
      assert front[..|before|] == before;
      ClosedForGood(before, front, window, key);
    } else {
      assert ops == before;
    }
  }

  /** A late id is in the group of its key exactly when that id had been accepted before the group closed. */
  lemma {:induction false} LateIdInGroupIffAcceptedBefore(before: seq<Op>, late: Op, ops: seq<Op>, window: real,
                                                          g: Group)
    requires Possible(before, window) && late.Add? && late.key in Run(before, window).state.closedKeys
    requires IsPrefix(before + [late], ops) && Possible(ops, window)
    requires g in Run(ops, window).emitted && g.key == late.key
    ensures late.id in g.members <==> late.id in Accepted(before, late.key, window)
  {
    assert ops[..|before|] == (before + [late])[..|before|] == before;
    ClosedForGood(before, ops, window, late.key);
    EmittedAreAccepted(ops, window, g);
    assert late.id in g.members <==> late.id in Ids(g.members);
  }

  lemma RunPush(ops: seq<Op>, op: Op, window: real)
    requires Possible(ops, window) && (op.Flush? ==> |op.readings| == |Run(ops, window).state.open|)
    ensures Possible(ops + [op], window) && Run(ops + [op], window) == Step(Run(ops, window), op, window)
  {
    assert (ops + [op])[..|ops|] == ops;
  }

  /** So a late id can be in a group: a member delivered again after its album closed. */
  lemma LateIdCanBeInGroup(key: Key)
    ensures var before, late := [Add(key, 7, 0.0, 0.0), Flush([2.0])], Add(key, 7, 3.0, 3.0);
            && Possible(before, 1.0) && Possible(before + [late], 1.0)
            && key in Run(before, 1.0).state.closedKeys
            && Group(key, 0.0, [7], true) in Run(before + [late], 1.0).emitted
  {
    var before, late := [Add(key, 7, 0.0, 0.0), Flush([2.0])], Add(key, 7, 3.0, 3.0);
    var g := Group(key, 0.0, [7], false);
    RunPush([], before[0], 1.0);
    assert [] + [before[0]] == [before[0]];
    assert [] + [7] == [7] && [] + [g] == [g];
    assert Run([before[0]], 1.0).state.open == [g];
    RunPush([before[0]], before[1], 1.0);
    assert [before[0]] + [before[1]] == before;
    OneGroupFlush(g, 2.0, 1.0);
    assert Run(before, 1.0).emitted == [Group(key, 0.0, [7], true)];
    assert [Close(g)][0].key == key;
    RunPush(before, late, 1.0);
  }

  lemma OneGroupFlush(g: Group, now: real, window: real)
    requires |g.members| == 1 && Elapsed(g, now, window)
    ensures Flushed([g], [now], window) == [g.(closed := true)]
  {
    assert [g][..0] == [] && [now][..0] == [];
    assert g.members[..0] == [];
    assert Sorted(g.members) == g.members;
  }

  /** The group of a stands before the group of b. */
  ghost predicate Precedes(gs: seq<Group>, a: Key, b: Key) {
    exists p, q :: 0 <= p < q < |gs| && gs[p].key == a && gs[q].key == b
  }

  lemma {:induction false} FlushedSome(open: seq<Group>, readings: seq<real>, window: real, g: Group)
    requires |readings| == |open| && g in Flushed(open, readings, window)
    ensures exists p :: 0 <= p < |open| && open[p].key == g.key
  {
    var o := FlushedWereOpen(open, readings, window, g);
    var p :| 0 <= p < |open| && open[p] == o;
  }

  /** A flush emits its groups in the order in which they were opened. */
  lemma {:induction false} FlushedInOrder(open: seq<Group>, readings: seq<real>, window: real, i: int, k: int)
    requires |readings| == |open| && 0 <= i < k < |Flushed(open, readings, window)|
    ensures Precedes(open, Flushed(open, readings, window)[i].key, Flushed(open, readings, window)[k].key)
  {
    var n := |open| - 1;
    var before, all := Flushed(open[..n], readings[..n], window), Flushed(open, readings, window);
    if k < |before| {
      FlushedInOrder(open[..n], readings[..n], window, i, k);
      var p, q :| 0 <= p < q < n && open[..n][p].key == all[i].key && open[..n][q].key == all[k].key;
      assert open[p].key == all[i].key && open[q].key == all[k].key;
    } else {
      FlushedSome(open[..n], readings[..n], window, before[i]);
      var p :| 0 <= p < n && open[..n][p].key == before[i].key;
      assert open[p].key == all[i].key && open[n].key == all[k].key;
    }
  }

  // ---------- when a group closes ----------

  /** The key has an open group that was first seen then. */
  ghost predicate OpenSince(s: State, key: Key, since: real) {
    exists g :: g in s.open && g.key == key && g.firstSeen == since
  }

  /** The operation looks at the key's group at a time that is not before `due`. */
  ghost predicate LooksWhenDue(s: State, op: Op, key: Key, due: real) {
    match op
    case Add(k, _, _, now) => k == key && now >= due
    case Flush(readings) =>
      |readings| == |s.open| && exists i :: 0 <= i < |s.open| && s.open[i].key == key && readings[i] >= due
  }

  lemma OpenIsTarget(s: State, key: Key, since: real, reading: real)
    requires DistinctKeys(s.open)
    ensures OpenSince(s, key, since) ==> Target(s, key, reading).firstSeen == since
    ensures key !in KeysOf(s.open) ==> Target(s, key, reading).firstSeen == reading
  {
    var i := IndexOf(s.open, key);
    if OpenSince(s, key, since) {
      var g :| g in s.open && g.key == key && g.firstSeen == since;
      var k :| 0 <= k < |s.open| && s.open[k] == g;
    }
  }

  /** An add for the key closes its group exactly when the window since it was first seen is over. */
  lemma OwnAddCloses(t: Trace, op: Op, window: real, since: real)
    requires Orderly(t) && op.Add? && op.key !in t.state.closedKeys
    requires OpenSince(t.state, op.key, since) || (op.key !in KeysOf(t.state.open) && since == op.since)
    ensures var after := Step(t, op, window);
            if op.now >= since + window then op.key in after.state.closedKeys
            else op.key !in after.state.closedKeys && OpenSince(after.state, op.key, since)
  {
    var g := Joined(Target(t.state, op.key, op.since), op.id);
    OpenIsTarget(t.state, op.key, since, op.since);
    assert g.firstSeen == since && g.key == op.key;
    var put := PutGroup(t.state.open, g);
    assert put[IndexOf(t.state.open, g.key)] == g;
    assert Elapsed(g, op.now, window) <==> op.now >= since + window;
  }

  lemma OtherAddLeaves(t: Trace, op: Op, window: real, key: Key, since: real)
    requires Orderly(t) && op.Add? && op.key != key && OpenSince(t.state, key, since)
    ensures OpenSince(Step(t, op, window).state, key, since)
    ensures key in Step(t, op, window).state.closedKeys <==> key in t.state.closedKeys
  {
    var g :| g in t.state.open && g.key == key && g.firstSeen == since;
    if op.key !in t.state.closedKeys {
      var joined := Joined(Target(t.state, op.key, op.since), op.id);
      OthersStay(t.state.open, joined, g);
    }
  }

  lemma OthersStay(open: seq<Group>, put: Group, g: Group)
    requires g in open && g.key != put.key
    ensures g in PutGroup(open, put) && g in DropKey(open, put.key)
  {
    var k :| 0 <= k < |open| && open[k] == g;
    var i := IndexOf(open, put.key);
    assert PutGroup(open, put)[k] == g;
    if i < |open| {
      assert DropKey(open, put.key)[if k < i then k else k - 1] == g;
    }
  }

  lemma {:induction false} FlushedAt(open: seq<Group>, readings: seq<real>, window: real, i: int)
    requires |readings| == |open| && DistinctKeys(open) && 0 <= i < |open|
    ensures open[i].key in KeysOf(Flushed(open, readings, window)) <==> readings[i] >= open[i].firstSeen + window
    ensures readings[i] < open[i].firstSeen + window ==> open[i] in StillOpen(open, readings, window)
  {
    var n := |open| - 1;
    var before := Flushed(open[..n], readings[..n], window);
    FlushSplits(open[..n], readings[..n], window);
    if Elapsed(open[n], readings[n], window) {
      KeysPush(before, Close(open[n]));
    } else {
      assert before + [] == before;
    }
    if i < n {
      FlushedAt(open[..n], readings[..n], window, i);
    } else {
      assert open[n].key !in KeysOf(open[..n]);
    }
  }

  /** A flush closes the group exactly when its own reading finds the window over. */
  lemma FlushCloses(t: Trace, op: Op, window: real, key: Key, since: real)
    requires Orderly(t) && op.Flush? && |op.readings| == |t.state.open| && OpenSince(t.state, key, since)
    ensures var after := Step(t, op, window);
            if LooksWhenDue(t.state, op, key, since + window) then key in after.state.closedKeys
            else key !in after.state.closedKeys && OpenSince(after.state, key, since)
  {
    var g :| g in t.state.open && g.key == key && g.firstSeen == since;
    var i :| 0 <= i < |t.state.open| && t.state.open[i] == g;
    assert g.key in KeysOf(t.state.open);
    FlushedAt(t.state.open, op.readings, window, i);
    forall k | 0 <= k < |t.state.open| && t.state.open[k].key == key
      ensures k == i
    {
    }
  }

  /** One step on an open group, or on the add that opens it: it closes exactly when it is looked at when due. */
  lemma StepCloses(t: Trace, op: Op, window: real, key: Key, since: real)
    requires Orderly(t) && (op.Flush? ==> |op.readings| == |t.state.open|) && key !in t.state.closedKeys
    requires OpenSince(t.state, key, since)
             || (op.Add? && op.key == key && key !in KeysOf(t.state.open) && since == op.since)
    ensures var after := Step(t, op, window);
            if LooksWhenDue(t.state, op, key, since + window) then key in after.state.closedKeys
            else key !in after.state.closedKeys && OpenSince(after.state, key, since)
  {
    if op.Flush? {
      FlushCloses(t, op, window, key, since);
    } else if op.key == key {
      OwnAddCloses(t, op, window, since);
    } else {
      OtherAddLeaves(t, op, window, key, since);
    }
  }

  lemma {:induction false} PrefixPossible(ops: seq<Op>, window: real, n: nat)
    requires Possible(ops, window) && n <= |ops|
    ensures Possible(ops[..n], window)
  {
    if n < |ops| {
      assert ops[..n] == ops[..|ops| - 1][..n];
      PrefixPossible(ops[..|ops| - 1], window, n);
    } else {
      assert ops[..n] == ops;
    }
  }

  /** The state that operation m of a history finds. */
  function Found(ops: seq<Op>, window: real, m: nat): State
    requires Possible(ops, window) && m <= |ops|
  {
    PrefixPossible(ops, window, m);
    Run(ops[..m], window).state
  }

  /** Operation n opens a group for the key. */
  ghost predicate Opens(ops: seq<Op>, window: real, n: nat, key: Key)
    requires Possible(ops, window) && n < |ops|
  {
    var s := Found(ops, window, n);
    ops[n].Add? && ops[n].key == key && key !in s.closedKeys && key !in KeysOf(s.open)
  }

  /** Some operation from n on looks at the key's group when it is due. */
  ghost predicate LookedAtWhenDue(ops: seq<Op>, window: real, n: nat, key: Key, due: real)
    requires Possible(ops, window)
  {
    n < |ops|
    && var front, last := ops[..|ops| - 1], ops[|ops| - 1];
       || LookedAtWhenDue(front, window, n, key, due)
       || LooksWhenDue(Run(front, window).state, last, key, due)
  }

  /** Closed when it was looked at in time, and otherwise open as it was first seen. */
  ghost predicate Stands(s: State, key: Key, since: real, looked: bool) {
    if looked then key in s.closedKeys else key !in s.closedKeys && OpenSince(s, key, since)
  }

  lemma StepStands(t: Trace, op: Op, window: real, key: Key, since: real, looked: bool)
    requires Orderly(t) && (op.Flush? ==> |op.readings| == |t.state.open|)
    requires || Stands(t.state, key, since, looked)
             || (!looked && op.Add? && op.key == key && op.since == since
                 && key !in t.state.closedKeys && key !in KeysOf(t.state.open))
    ensures Stands(Step(t, op, window).state, key, since, looked || LooksWhenDue(t.state, op, key, since + window))
  {
    if !looked {
      StepCloses(t, op, window, key, since);
    }
  }

  ghost predicate Lives(ops: seq<Op>, window: real, n: nat, key: Key, since: real)
    requires Possible(ops, window)
  {
    Stands(Run(ops, window).state, key, since, LookedAtWhenDue(ops, window, n, key, since + window))
  }

  lemma OpeningLives(front: seq<Op>, op: Op, window: real, key: Key)
    requires Possible(front, window) && Possible(front + [op], window) && op.Add? && op.key == key
    requires key !in Run(front, window).state.closedKeys && key !in KeysOf(Run(front, window).state.open)
    ensures Lives(front + [op], window, |front|, key, op.since)
  {
    EveryHistoryOrderly(front, window);
    StepStands(Run(front, window), op, window, key, op.since, false);
    assert (front + [op])[..|front|] == front;
    assert !LookedAtWhenDue(front, window, |front|, key, op.since + window);
  }

  lemma LaterLives(front: seq<Op>, op: Op, window: real, n: nat, key: Key, since: real)
    requires Possible(front, window) && Possible(front + [op], window) && n < |front|
    requires Lives(front, window, n, key, since)
    ensures Lives(front + [op], window, n, key, since)
  {
    EveryHistoryOrderly(front, window);
    assert (front + [op])[..|front|] == front;
    StepStands(Run(front, window), op, window, key, since, LookedAtWhenDue(front, window, n, key, since + window));
  }

  lemma {:induction false} LivesOn(first: seq<Op>, ops: seq<Op>, window: real, n: nat, key: Key, since: real)
    requires Possible(ops, window) && Possible(first, window) && IsPrefix(first, ops) && n < |first|
    requires Lives(first, window, n, key, since)
    ensures Lives(ops, window, n, key, since)
    decreases |ops|
  {
    if |first| == |ops| {
      assert first == ops;
    } else {
      var front, last := ops[..|ops| - 1], ops[|ops| - 1];
      assert ops == front + [last];
      assert front[..|first|] == first;
      LivesOn(first, front, window, n, key, since);
      LaterLives(front, last, window, n, key, since);
    }
  }

  /** Over every history: a group opened by operation n stays open, first seen then, until the first add for its key or
      flush that reads a clock at least one window later - and that operation closes it. */
  lemma {:induction false} ClosesWhenDue(ops: seq<Op>, window: real, n: nat, key: Key)
    requires Possible(ops, window) && n < |ops| && Opens(ops, window, n, key)
    ensures var looked := LookedAtWhenDue(ops, window, n, key, ops[n].since + window);
            Stands(Run(ops, window).state, key, ops[n].since, looked)
  {
    var first := ops[..n + 1];
    PrefixPossible(ops, window, n);
    PrefixPossible(ops, window, n + 1);
    assert first == ops[..n] + [ops[n]];
    OpeningLives(ops[..n], ops[n], window, key);
    LivesOn(first, ops, window, n, key, ops[n].since);
  }
}
