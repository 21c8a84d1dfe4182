/** UrlMessageFilter._process_message: both passes over a message's text and entities. */
module UrlFilter {
  import opened Text
  import opened Rewriting
  import opened Entities

  /** The configured matchers, as functions of the text they look at, and the search in running text. */
  datatype Matchers = Matchers(url: string -> bool, mention: string -> bool, search: string -> seq<Match>,
                               filterById: bool)

  /** finditer yields non-empty matches from left to right. */
  ghost predicate ProperSearch(m: Matchers) {
    forall t :: Found(m.search(t), |t|)
  }

  /** Python's s[i:j]. */
  function PySlice(s: string, i: int, j: int): string {
    var a := ClampIndex(i, |s|);
    var b := ClampIndex(j, |s|);
    if a <= b then s[a..b] else []
  }

  function ClampIndex(i: int, n: nat): (c: int)
    ensures 0 <= c <= n
  {
    var k := if i < 0 then i + n else i;
    if k < 0 then 0 else if k > n then n else k
  }

  lemma SliceEnds(s: string, i: int, j: int)
    requires 0 <= i <= j <= |s|
    ensures PySlice(s, 0, i) == s[..i] && PySlice(s, j, |s|) == s[j..]
  {}

  predicate Replaceable(kind: EntityKind) {
    kind.Url? || kind.Mention? || kind.TextUrl?
  }

  predicate Hits(m: Matchers, kind: EntityKind, covered: string) {
    (kind.Url? && m.url(covered)) || ((kind.Mention? || kind.TextUrl?) && m.mention(covered))
  }

  predicate DropsUnreplaced(m: Matchers, kind: EntityKind) {
    (m.filterById && kind.MentionName?) || (kind.TextUrl? && m.url(kind.url))
  }

  function Kinds(entities: seq<Entity>): (kinds: seq<EntityKind>)
    ensures |kinds| == |entities|
  {
    seq(|entities|, i requires 0 <= i < |entities| => entities[i].kind)
  }

  function Stop(r: Range): int {
    r.offset + r.length
  }

  /** Around link or mention k: entity i is disjoint from it or contains it, and is no other link or mention on it. */
  ghost predicate NestedAt(kinds: seq<EntityKind>, places: seq<Range>, k: int, i: int)
    requires 0 <= k < |places| == |kinds| && 0 <= i < |places|
  {
    k != i && Replaceable(kinds[k]) ==>
      && ClearOf(places[i], places[k].offset, Stop(places[k]))
      && (Replaceable(kinds[i]) ==> Stop(places[i]) <= places[k].offset || Stop(places[k]) <= places[i].offset)
  }

  /** Well-nested entities: all inside the text; around a link or mention an entity is disjoint from it or contains
      it, and links and mentions do not nest in each other. */
  ghost predicate WellNested(kinds: seq<EntityKind>, places: seq<Range>, n: int) {
    && |kinds| == |places|
    && (forall i :: 0 <= i < |places| ==> Within(places[i], n))
    && (forall k, i :: 0 <= k < |places| && 0 <= i < |places| ==> NestedAt(kinds, places, k, i))
    && (forall k :: 0 <= k < |places| && Replaceable(kinds[k]) ==> 0 < places[k].length)
  }

  ghost predicate HitAt(text: string, m: Matchers, kinds: seq<EntityKind>, places: seq<Range>, i: int) {
    && 0 <= i < |places| == |kinds|
    && Within(places[i], |text|)
    && Hits(m, kinds[i], text[places[i].offset..Stop(places[i])])
  }

  /** The original spans of the first n entities that the filter replaces, decided on the original text. */
  ghost function HitSpans(text: string, m: Matchers, kinds: seq<EntityKind>, places: seq<Range>, n: nat): Spans
    requires n <= |places| == |kinds|
  {
    if n == 0 then map[]
    else
      var before := HitSpans(text, m, kinds, places, n - 1);
      if HitAt(text, m, kinds, places, n - 1) then before[places[n - 1].offset := Stop(places[n - 1])] else before
  }

  /** [s, end) is the place of one of the first n entities, and that one is replaced. */
  ghost predicate IsHit(text: string, m: Matchers, kinds: seq<EntityKind>, places: seq<Range>, n: int, s: int,
                        end: int) {
    exists i :: 0 <= i < n && HitAt(text, m, kinds, places, i) && places[i] == Range(s, end - s)
  }

  lemma {:induction false} HitSpansFrom(text: string, m: Matchers, kinds: seq<EntityKind>, places: seq<Range>, n: nat)
    requires n <= |places| == |kinds|
    ensures forall s :: s in HitSpans(text, m, kinds, places, n) ==>
              IsHit(text, m, kinds, places, n, s, HitSpans(text, m, kinds, places, n)[s])
  {
    if n > 0 {
      HitSpansFrom(text, m, kinds, places, n - 1);
      var before, spans := HitSpans(text, m, kinds, places, n - 1), HitSpans(text, m, kinds, places, n);
      forall s | s in spans
        ensures IsHit(text, m, kinds, places, n, s, spans[s])
      {
        if HitAt(text, m, kinds, places, n - 1) && s == places[n - 1].offset {
          assert places[n - 1] == Range(s, spans[s] - s);
        } else {
          assert IsHit(text, m, kinds, places, n - 1, s, before[s]);
        }
      }
    }
  }

  lemma {:induction false} HitSpansValid(text: string, m: Matchers, kinds: seq<EntityKind>, places: seq<Range>, n: nat)
    requires n <= |places| && WellNested(kinds, places, |text|)
    ensures ValidSpans(HitSpans(text, m, kinds, places, n), |text|)
    ensures n < |places| && Replaceable(kinds[n]) ==>
              Addable(HitSpans(text, m, kinds, places, n), |text|, places[n].offset, Stop(places[n]))
  {
    if n > 0 {
      HitSpansValid(text, m, kinds, places, n - 1);
      if HitAt(text, m, kinds, places, n - 1) {
        AddableValid(HitSpans(text, m, kinds, places, n - 1), |text|, places[n - 1].offset, Stop(places[n - 1]));
      }
    }
    HitSpansFrom(text, m, kinds, places, n);
    var spans := HitSpans(text, m, kinds, places, n);
    if n < |places| && Replaceable(kinds[n]) {
      forall s | s in spans
        ensures spans[s] <= places[n].offset || Stop(places[n]) <= s
      {
        var i :| 0 <= i < n && HitAt(text, m, kinds, places, i) && places[i] == Range(s, spans[s] - s);
        assert NestedAt(kinds, places, n, i);
      }
    }
  }

  /** All entities but the replaced ones among the first n. */
  ghost function Tracked(text: string, m: Matchers, kinds: seq<EntityKind>, places: seq<Range>, n: int): set<int> {
    set i | 0 <= i < |places| && (i >= n || !HitAt(text, m, kinds, places, i))
  }

  /** The state of the first pass after n entities. */
  ghost predicate PassedFirst(text: string, p: string, m: Matchers, kinds: seq<EntityKind>, origs: seq<Range>, n: nat,
                              out: string, curs: seq<Range>)
    requires n <= |origs| == |kinds|
  {
    && ValidSpans(HitSpans(text, m, kinds, origs, n), |text|)
    && out == Rewrite(text, p, HitSpans(text, m, kinds, origs, n), 0, |text|)
    && AllTrack(text, p, HitSpans(text, m, kinds, origs, n), Tracked(text, m, kinds, origs, n), origs, curs)
  }

  /** A link or mention not yet visited still covers its original text. */
  lemma StillOriginal(text: string, p: string, m: Matchers, kinds: seq<EntityKind>, origs: seq<Range>, n: nat,
                      out: string, curs: seq<Range>)
    requires WellNested(kinds, origs, |text|) && n < |origs| && Replaceable(kinds[n])
    requires PassedFirst(text, p, m, kinds, origs, n, out, curs)
    ensures Within(curs[n], |out|)
    ensures out[curs[n].offset..Stop(curs[n])] == text[origs[n].offset..Stop(origs[n])]
    ensures curs[n].length == origs[n].length
  {
    var spans := HitSpans(text, m, kinds, origs, n);
    HitSpansValid(text, m, kinds, origs, n);
    assert n in Tracked(text, m, kinds, origs, n);
    AddableValid(spans, |text|, origs[n].offset, Stop(origs[n]));
    TrackedCoverage(text, p, spans, origs[n], curs[n]);
    RewriteUntouched(text, p, spans, origs[n].offset, Stop(origs[n]));
  }

  lemma NothingPassed(text: string, p: string, m: Matchers, kinds: seq<EntityKind>, origs: seq<Range>)
    requires WellNested(kinds, origs, |text|)
    ensures PassedFirst(text, p, m, kinds, origs, 0, text, origs)
  {
    NothingReplaced(text, p, Tracked(text, m, kinds, origs, 0), origs);
  }

  /** So the test on what an entity covers now decides as the test on what it covered originally. */
  lemma SameDecision(text: string, p: string, m: Matchers, kinds: seq<EntityKind>, origs: seq<Range>, n: nat,
                     out: string, curs: seq<Range>)
    requires WellNested(kinds, origs, |text|) && n < |origs| && PassedFirst(text, p, m, kinds, origs, n, out, curs)
    ensures Hits(m, kinds[n], PySlice(out, curs[n].offset, Stop(curs[n]))) <==> HitAt(text, m, kinds, origs, n)
  {
    if Replaceable(kinds[n]) {
      StillOriginal(text, p, m, kinds, origs, n, out, curs);
    }
  }

  lemma SkipStep(text: string, p: string, m: Matchers, kinds: seq<EntityKind>, origs: seq<Range>, n: nat,
                 out: string, curs: seq<Range>)
    requires WellNested(kinds, origs, |text|) && n < |origs| && !HitAt(text, m, kinds, origs, n)
    requires PassedFirst(text, p, m, kinds, origs, n, out, curs)
    ensures PassedFirst(text, p, m, kinds, origs, n + 1, out, curs)
  {
    assert Tracked(text, m, kinds, origs, n) == Tracked(text, m, kinds, origs, n + 1);
  }

  lemma HitStep(text: string, p: string, m: Matchers, kinds: seq<EntityKind>, origs: seq<Range>, n: nat,
                out: string, curs: seq<Range>)
    requires WellNested(kinds, origs, |text|) && n < |origs| && HitAt(text, m, kinds, origs, n)
    requires PassedFirst(text, p, m, kinds, origs, n, out, curs)
    ensures var cur := curs[n];
            && Within(cur, |out|)
            && PassedFirst(text, p, m, kinds, origs, n + 1, out[..cur.offset] + p + out[Stop(cur)..],
                           UpdatedAll(curs, cur.offset, Stop(cur), |p| - cur.length))
  {
    var spans, a, b := HitSpans(text, m, kinds, origs, n), origs[n].offset, Stop(origs[n]);
    StillOriginal(text, p, m, kinds, origs, n, out, curs);
    HitSpansValid(text, m, kinds, origs, n);
    assert n in Tracked(text, m, kinds, origs, n);
    var concern := Tracked(text, m, kinds, origs, n + 1);
    assert concern <= Tracked(text, m, kinds, origs, n) && n !in concern;
    forall i | i in concern
      ensures ClearOf(origs[i], a, b)
    {
      assert NestedAt(kinds, origs, n, i);
    }
    AllTrackStep(text, p, spans, concern, origs, curs, a, b);
    AddSpan(text, p, spans, a, b);
  }

  /** Which of the first n entities stay, in order. */
  ghost function Kept(text: string, m: Matchers, kinds: seq<EntityKind>, places: seq<Range>, n: nat): seq<int>
    requires n <= |places| == |kinds|
  {
    if n == 0 then []
    else
      Kept(text, m, kinds, places, n - 1)
      + if HitAt(text, m, kinds, places, n - 1) || DropsUnreplaced(m, kinds[n - 1]) then [] else [n - 1]
  }

  predicate Selects(kept: seq<Entity>, entities: seq<Entity>, indices: seq<int>) {
    && |kept| == |indices|
    && forall j :: 0 <= j < |kept| ==> 0 <= indices[j] < |entities| && kept[j] == entities[indices[j]]
  }

  predicate Increasing(indices: seq<int>, n: int) {
    && (forall j :: 0 <= j < |indices| ==> 0 <= indices[j] < n)
    && (forall j, k :: 0 <= j < k < |indices| ==> indices[j] < indices[k])
  }

  /** The kept entities are those at the indices, which increase below n; told from the last one. */
  predicate Chosen(kept: seq<Entity>, entities: seq<Entity>, indices: seq<int>, n: nat)
    decreases |kept|
  {
    && |kept| == |indices|
    && (kept != [] ==>
          var last := |kept| - 1;
          && 0 <= indices[last] < n && indices[last] < |entities| && kept[last] == entities[indices[last]]
          && Chosen(kept[..last], entities, indices[..last], indices[last]))
  }

  lemma ChooseNext(kept: seq<Entity>, entities: seq<Entity>, indices: seq<int>, n: nat)
    requires Chosen(kept, entities, indices, n) && n < |entities|
    ensures Chosen(kept, entities, indices, n + 1)
    ensures Chosen(kept + [entities[n]], entities, indices + [n], n + 1)
  {
    assert (kept + [entities[n]])[..|kept|] == kept && (indices + [n])[..|kept|] == indices;
  }

  lemma {:induction false} ChosenInOrder(kept: seq<Entity>, entities: seq<Entity>, indices: seq<int>, n: nat)
    requires Chosen(kept, entities, indices, n)
    ensures Selects(kept, entities, indices) && Increasing(indices, n)
  {
    if kept != [] {
      var last := |kept| - 1;
      ChosenInOrder(kept[..last], entities, indices[..last], indices[last]);
      Lengthened(kept[..last], entities, indices[..last], indices[last], n);
      assert kept == kept[..last] + [kept[last]] && indices == indices[..last] + [indices[last]];
    }
  }

  lemma Lengthened(kept: seq<Entity>, entities: seq<Entity>, indices: seq<int>, i: int, n: int)
    requires Selects(kept, entities, indices) && Increasing(indices, i) && 0 <= i < |entities| && i < n
    ensures Selects(kept + [entities[i]], entities, indices + [i]) && Increasing(indices + [i], n)
  {}

  // ---------- kind by kind ----------

  /** Which matcher decides about an entity: a link by the url of its text, a mention or a named link by the mention of
      its text, and nothing else is ever replaced. */
  predicate Matched(m: Matchers, kind: EntityKind, original: string) {
    match kind
    case Url => m.url(original)
    case Mention => m.mention(original)
    case TextUrl(_) => m.mention(original)
    case MentionName => false
    case OtherKind => false
  }

  /** What stays in the list: what is not replaced, but no mention by id under the filter and no named link to a
      matching address. */
  predicate Stays(m: Matchers, kind: EntityKind, original: string) {
    match kind
    case Url => !m.url(original)
    case Mention => !m.mention(original)
    case TextUrl(url) => !m.mention(original) && !m.url(url)
    case MentionName => !m.filterById
    case OtherKind => true
  }

  function Original(text: string, r: Range): string
    requires Within(r, |text|)
  {
    text[r.offset..r.offset + r.length]
  }

  ghost predicate MatchedAt(text: string, m: Matchers, kinds: seq<EntityKind>, places: seq<Range>, i: int) {
    && 0 <= i < |places| == |kinds| && Within(places[i], |text|)
    && Matched(m, kinds[i], Original(text, places[i]))
  }

  lemma HitIsMatched(text: string, m: Matchers, kinds: seq<EntityKind>, places: seq<Range>, i: int)
    ensures HitAt(text, m, kinds, places, i) <==> MatchedAt(text, m, kinds, places, i)
  {}

  lemma {:induction false} HitIsSpan(text: string, m: Matchers, kinds: seq<EntityKind>, places: seq<Range>, n: nat,
                                     i: int)
    requires n <= |places| && WellNested(kinds, places, |text|) && 0 <= i < n && HitAt(text, m, kinds, places, i)
    ensures var spans := HitSpans(text, m, kinds, places, n);
            places[i].offset in spans && spans[places[i].offset] == Stop(places[i])
  {
    if i < n - 1 {
      HitIsSpan(text, m, kinds, places, n - 1, i);
      assert NestedAt(kinds, places, i, n - 1);
    }
  }

  /** The spans replaced are exactly the places of the matched entities. */
  lemma {:induction false} SpansByKind(text: string, m: Matchers, kinds: seq<EntityKind>, places: seq<Range>, s: int,
                                       end: int)
    requires WellNested(kinds, places, |text|)
    ensures var spans := HitSpans(text, m, kinds, places, |places|);
            (s in spans && spans[s] == end) <==>
              exists i :: MatchedAt(text, m, kinds, places, i) && places[i].offset == s && Stop(places[i]) == end
  {
    var spans := HitSpans(text, m, kinds, places, |places|);
    HitSpansFrom(text, m, kinds, places, |places|);
    if s in spans && spans[s] == end {
      var i :| 0 <= i < |places| && HitAt(text, m, kinds, places, i) && places[i] == Range(s, end - s);
      HitIsMatched(text, m, kinds, places, i);
    }
    if i :| MatchedAt(text, m, kinds, places, i) && places[i].offset == s && Stop(places[i]) == end {
      HitIsMatched(text, m, kinds, places, i);
      HitIsSpan(text, m, kinds, places, |places|, i);
    }
  }

  /** The entities kept are exactly those that stay. */
  lemma {:induction false} KeptByKind(text: string, m: Matchers, kinds: seq<EntityKind>, places: seq<Range>, n: nat,
                                      i: int)
    requires n <= |places| && WellNested(kinds, places, |text|)
    ensures i in Kept(text, m, kinds, places, n) <==> 0 <= i < n && Stays(m, kinds[i], Original(text, places[i]))
  {
    if n > 0 {
      KeptByKind(text, m, kinds, places, n - 1, i);
      HitIsMatched(text, m, kinds, places, n - 1);
    }
  }

  /** One entity of the first pass. */
  method FilterEntity(ghost text: string, p: string, m: Matchers, entities: seq<Entity>, n: nat,
                      ghost origs: seq<Range>,
                      before: string)
    returns (out: string, drop: bool)
    requires Distinct(entities) && n < |entities| == |origs|
    modifies entities
    ensures WellNested(Kinds(entities), origs, |text|)
            && PassedFirst(text, p, m, Kinds(entities), origs, n, before, old(Places(entities))) ==>
              && PassedFirst(text, p, m, Kinds(entities), origs, n + 1, out, Places(entities))
              && (drop <==> HitAt(text, m, Kinds(entities), origs, n) || DropsUnreplaced(m, entities[n].kind))
              && Kept(text, m, Kinds(entities), origs, n + 1)
                 == Kept(text, m, Kinds(entities), origs, n) + if drop then [] else [n]
  {
    ghost var kinds, curs := Kinds(entities), Places(entities);
    ghost var ready := WellNested(kinds, origs, |text|) && PassedFirst(text, p, m, kinds, origs, n, before, curs);
    var entity := entities[n];
    assert curs[n] == Range(entity.offset, entity.length);
    var start, end := entity.offset, entity.offset + entity.length;
    var covered := PySlice(before, start, end);
    if ready {
      SameDecision(text, p, m, kinds, origs, n, before, curs);
    }
    if Hits(m, entity.kind, covered) {
      if ready {
        HitStep(text, p, m, kinds, origs, n, before, curs);
        SliceEnds(before, start, end);
      }
      out := PySlice(before, 0, start) + p + PySlice(before, end, |before|);
      UpdateEntitiesParams(entities, start, end, |p| - entity.length);
      drop := true;
    } else {
      if ready {
        SkipStep(text, p, m, kinds, origs, n, before, curs);
      }
      out := before;
      drop := DropsUnreplaced(m, entity.kind);
    }
  }

  /** First pass: for well-nested entities the text is rewritten as if all links and mentions that match were replaced
      at once in the original text; exactly the others, minus the dropped ones, are kept, each on its image. */
  method FirstPass(text: string, p: string, m: Matchers, entities: seq<Entity>)
    returns (out: string, kept: seq<Entity>, ghost indices: seq<int>)
    requires Distinct(entities)
    modifies entities
    ensures Selects(kept, entities, indices) && Increasing(indices, |entities|)
    ensures WellNested(Kinds(entities), old(Places(entities)), |text|) ==>
              && PassedFirst(text, p, m, Kinds(entities), old(Places(entities)), |entities|, out, Places(entities))
              && indices == Kept(text, m, Kinds(entities), old(Places(entities)), |entities|)
  {
    ghost var kinds, origs := Kinds(entities), Places(entities);
    ghost var nested := WellNested(kinds, origs, |text|);
    out, kept, indices := text, [], [];
    if nested {
      NothingPassed(text, p, m, kinds, origs);
    }
    for n := 0 to |entities|
      invariant Chosen(kept, entities, indices, n)
      invariant nested ==> PassedFirst(text, p, m, kinds, origs, n, out, Places(entities))
      invariant nested ==> indices == Kept(text, m, kinds, origs, n)
    {
      var drop;
      out, drop := FilterEntity(text, p, m, entities, n, origs, out);
      ChooseNext(kept, entities, indices, n);
      if !drop {
        kept, indices := kept + [entities[n]], indices + [n];
      }
    }
    ChosenInOrder(kept, entities, indices, |entities|);
  }

  /** Both passes. The second one works on the text the first one left, and on the kept entities only. */
  method ProcessMessage(text: string, p: string, m: Matchers, entities: seq<Entity>)
    returns (out: string, kept: seq<Entity>, ghost middle: string, ghost places: seq<Range>)
    requires Distinct(entities) && ProperSearch(m)
    modifies entities
    ensures var origs := old(Places(entities));
            WellNested(Kinds(entities), origs, |text|) ==>
              && PassedFirst(text, p, m, Kinds(entities), origs, |entities|, middle, places)
              && Selects(kept, entities, Kept(text, m, Kinds(entities), origs, |entities|))
    ensures ValidSpans(SpansOf(m.search(middle)), |middle|)
    ensures out == Rewrite(middle, p, SpansOf(m.search(middle)), 0, |middle|)
    ensures |places| == |entities| && forall i :: 0 <= i < |entities| ==>
              (entities[i] in kept && Within(places[i], |middle|) && ClearOfAll(places[i], m.search(middle)) ==>
                Tracks(middle, p, SpansOf(m.search(middle)), places[i], entities[i].Place()))
  {
    var first: string;
    ghost var indices;
    first, kept, indices := FirstPass(text, p, m, entities);
    middle, places := first, Places(entities);
    var matches := m.search(first);
    ghost var keptPlaces := Places(kept);
    out := ReplaceMatches(first, p, kept, matches);
    forall i | 0 <= i < |entities| && entities[i] in kept && Within(places[i], |middle|)
      && ClearOfAll(places[i], matches)
      ensures Tracks(middle, p, SpansOf(matches), places[i], entities[i].Place())
    {
      var j :| 0 <= j < |kept| && kept[j] == entities[i];
      assert keptPlaces[j] == places[i];
      assert j in ClearPlaces(keptPlaces, |first|, matches);
      assert Places(kept)[j] == kept[j].Place();
    }
  }
}
