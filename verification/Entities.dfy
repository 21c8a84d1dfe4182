/** Message entities under in-place text edits: UpdateEntitiesParams (telemirror/mixins.py) and
    UrlMessageFilter._process_message (telemirror/messagefilters/messagefilters.py). */
module Entities {
  import opened Text
  import opened Rewriting

  datatype Range = Range(offset: int, length: int)

  datatype EntityKind = Url | Mention | TextUrl(url: string) | MentionName | OtherKind

  class Entity {
    const kind: EntityKind
    var offset: int
    var length: int

    constructor (kind: EntityKind, offset: int, length: int)
      ensures this.kind == kind && Place() == Range(offset, length)
    {
      this.kind, this.offset, this.length := kind, offset, length;
    }

    function Place(): Range
      reads this
    {
      Range(offset, length)
    }
  }

  predicate Distinct(entities: seq<Entity>) {
    forall i, k :: 0 <= i < k < |entities| ==> entities[i] != entities[k]
  }

  function Updated(r: Range, start: int, end: int, diff: int): Range {
    if diff == 0 then r
    else if r.offset >= end then Range(r.offset + diff, r.length)
    else if r.offset <= start && r.offset + r.length >= end then Range(r.offset, r.length + diff)
    else if r.offset < start && start < r.offset + r.length < end then Range(r.offset, start - r.offset)
    else if start < r.offset < end && r.offset + r.length > end then Range(end + diff, r.length)
    else if start < r.offset < end && start < r.offset + r.length < end then Range(start, end - start + diff)
    else r
  }

  function Places(entities: seq<Entity>): (places: seq<Range>)
    reads entities
    ensures |places| == |entities|
  {
    seq(|entities|, i requires 0 <= i < |entities| reads entities => entities[i].Place())
  }

  function UpdatedAll(places: seq<Range>, start: int, end: int, diff: int): (updated: seq<Range>)
    ensures |updated| == |places|
  {
    seq(|places|, i requires 0 <= i < |places| => Updated(places[i], start, end, diff))
  }

  method UpdateEntitiesParams(entities: seq<Entity>, start: int, end: int, diff: int)
    requires Distinct(entities)
    modifies entities
    ensures Places(entities) == UpdatedAll(old(Places(entities)), start, end, diff)
  {
    if entities == [] || diff == 0 {
      return;
    }
    for n := 0 to |entities|
      invariant forall i :: 0 <= i < n ==> entities[i].Place() == Updated(old(entities[i].Place()), start, end, diff)
      invariant forall i :: n <= i < |entities| ==> entities[i].Place() == old(entities[i].Place())
    {
      var entity := entities[n];
      if entity.offset >= end {
        entity.offset := entity.offset + diff;
      } else if entity.offset <= start && entity.offset + entity.length >= end {
        entity.length := entity.length + diff;
      } else if entity.offset < start && start < entity.offset + entity.length < end {
        entity.length := entity.length - (entity.offset + entity.length - start);
      } else if start < entity.offset < end && entity.offset + entity.length > end {
        entity.offset := end + diff;
      } else if start < entity.offset < end && start < entity.offset + entity.length < end {
        entity.offset := start;
        entity.length := end - start + diff;
      }
    }
  }

  /** What the method's own table documents: behind, around, trimmed on either side, or resized to the replacement. */
  function Documented(r: Range, start: int, end: int, diff: int): Range {
    var stop := r.offset + r.length;
    if r.offset >= end then Range(r.offset + diff, r.length)
    else if r.offset <= start && stop >= end then Range(r.offset, r.length + diff)
    else if stop <= start then r
    else if r.offset < start then Range(r.offset, start - r.offset)
    else if stop > end then Range(end + diff, stop - end)
    else Range(start, end - start + diff)
  }

  predicate ClearOf(r: Range, start: int, end: int) {
    || r.offset + r.length <= start
    || end <= r.offset
    || (r.offset <= start && end <= r.offset + r.length)
  }

  /** The update meets its table exactly when the entity is clear of the replaced range, or ends inside it without
      sharing its start (unless it happens to be as long as the replacement) and the replacement changes the length. */
  lemma UpdateMeetsTable(r: Range, start: int, end: int, diff: int)
    requires start < end && 0 < r.length
    ensures Updated(r, start, end, diff) == Documented(r, start, end, diff)
       <==> || ClearOf(r, start, end)
            || (&& diff != 0 && r.offset + r.length < end
                && (r.offset != start || r.length == end - start + diff))
  {}

  /** A range that overlaps the replaced one on its right moves behind the replacement but keeps its whole length,
      where the table cuts off what was replaced. */
  lemma RightOverlapKeepsLength(r: Range, start: int, end: int, diff: int)
    requires start < r.offset < end < r.offset + r.length && diff != 0
    ensures Updated(r, start, end, diff) == Range(end + diff, r.length)
    ensures Documented(r, start, end, diff) == Range(end + diff, r.offset + r.length - end)
    ensures Updated(Range(3, 4), 2, 5, 1) == Range(6, 4) && Documented(Range(3, 4), 2, 5, 1) == Range(6, 2)
  {}

  /** A range inside the replaced one that shares one of its ends is left alone, where the table resizes it; so is every
      range when the replacement is as long as what it replaces. */
  lemma SharedEndIsLeft(r: Range, start: int, end: int, diff: int)
    requires 0 < r.length
    requires || diff == 0
             || (r.offset == start && r.offset + r.length < end)
             || (start < r.offset && r.offset + r.length == end)
    ensures Updated(r, start, end, diff) == r
    ensures start <= r.offset && r.offset + r.length <= end && end - start > r.length ==>
              Documented(r, start, end, diff) == Range(start, end - start + diff)
  {}

  // ---------- tracking ----------

  predicate Within(r: Range, n: int) {
    0 <= r.offset && 0 <= r.length && r.offset + r.length <= n
  }

  /** `cur` is where the entity that covered `orig` has to be after the spans were replaced. */
  ghost predicate Tracks(text: string, p: string, spans: Spans, orig: Range, cur: Range)
    requires ValidSpans(spans, |text|) && Within(orig, |text|)
  {
    var stop := orig.offset + orig.length;
    && Outside(spans, orig.offset) && Outside(spans, stop)
    && cur.offset == Image(text, p, spans, orig.offset)
    && cur.offset + cur.length == Image(text, p, spans, stop)
  }

  /** One more replacement, with the update that goes with it, keeps an entity clear of the span on its image. */
  lemma UpdateTracks(text: string, p: string, spans: Spans, a: int, b: int, orig: Range, cur: Range)
    requires ValidSpans(spans, |text|) && Addable(spans, |text|, a, b)
    requires Within(orig, |text|) && ClearOf(orig, a, b) && Tracks(text, p, spans, orig, cur)
    ensures ValidSpans(spans[a := b], |text|)
    ensures var start := Image(text, p, spans, a);
            Tracks(text, p, spans[a := b], orig, Updated(cur, start, start + (b - a), |p| - (b - a)))
  {
    ImageAfterAdd(text, p, spans, a, b, orig.offset);
    ImageAfterAdd(text, p, spans, a, b, orig.offset + orig.length);
  }

  /** The entities of interest are all on their images. */
  ghost predicate AllTrack(text: string, p: string, spans: Spans, concern: set<int>, origs: seq<Range>,
                           curs: seq<Range>)
    requires ValidSpans(spans, |text|)
  {
    && |origs| == |curs|
    && forall i :: i in concern ==>
      0 <= i < |origs| && Within(origs[i], |text|) && Tracks(text, p, spans, origs[i], curs[i])
  }

  lemma AllTrackStep(text: string, p: string, spans: Spans, concern: set<int>, origs: seq<Range>, curs: seq<Range>,
                     a: int, b: int)
    requires ValidSpans(spans, |text|) && Addable(spans, |text|, a, b)
    requires AllTrack(text, p, spans, concern, origs, curs)
    requires forall i :: i in concern ==> ClearOf(origs[i], a, b)
    ensures ValidSpans(spans[a := b], |text|)
    ensures var start := Image(text, p, spans, a);
            AllTrack(text, p, spans[a := b], concern, origs, UpdatedAll(curs, start, start + (b - a), |p| - (b - a)))
  {
    AddableValid(spans, |text|, a, b);
    forall i | i in concern
      ensures var start := Image(text, p, spans, a);
              Tracks(text, p, spans[a := b], origs[i], Updated(curs[i], start, start + (b - a), |p| - (b - a)))
    {
      UpdateTracks(text, p, spans, a, b, origs[i], curs[i]);
    }
  }

  lemma NothingReplaced(text: string, p: string, concern: set<int>, origs: seq<Range>)
    requires forall i :: i in concern ==> 0 <= i < |origs| && Within(origs[i], |text|)
    ensures Rewrite(text, p, map[], 0, |text|) == text
    ensures AllTrack(text, p, map[], concern, origs, origs)
  {
    RewriteUntouched(text, p, map[], 0, |text|);
    forall x | 0 <= x <= |text|
      ensures Image(text, p, map[], x) == x
    {
      RewriteUntouched(text, p, map[], 0, x);
    }
  }

  /** A tracked entity covers exactly the rewriting of what it covered. */
  lemma TrackedCoverage(text: string, p: string, spans: Spans, orig: Range, cur: Range)
    requires ValidSpans(spans, |text|) && Within(orig, |text|) && Tracks(text, p, spans, orig, cur)
    ensures Within(cur, |Rewrite(text, p, spans, 0, |text|)|)
    ensures Rewrite(text, p, spans, 0, |text|)[cur.offset..cur.offset + cur.length]
         == Rewrite(text, p, spans, orig.offset, orig.offset + orig.length)
  {
    RewrittenPart(text, p, spans, orig.offset, orig.offset + orig.length);
  }

  // ---------- second pass: URLs found in the text ----------

  datatype Match = Match(start: int, end: int)

  /** What the regular expression search yields: non-empty matches from left to right. */
  ghost predicate Found(matches: seq<Match>, n: int) {
    && (forall i :: 0 <= i < |matches| ==> 0 <= matches[i].start < matches[i].end <= n)
    && (forall i, k :: 0 <= i < k < |matches| ==> matches[i].end <= matches[k].start)
  }

  ghost function SpansOf(matches: seq<Match>): Spans {
    if matches == [] then map[]
    else SpansOf(matches[..|matches| - 1])[matches[|matches| - 1].start := matches[|matches| - 1].end]
  }

  ghost predicate IsMatch(matches: seq<Match>, start: int, end: int) {
    exists i :: 0 <= i < |matches| && matches[i] == Match(start, end)
  }

  lemma {:induction false} SpanIsMatch(matches: seq<Match>, s: int)
    requires s in SpansOf(matches)
    ensures IsMatch(matches, s, SpansOf(matches)[s])
  {
    var n := |matches| - 1;
    if s == matches[n].start {
      assert matches[n] == Match(s, SpansOf(matches)[s]);
    } else {
      SpanIsMatch(matches[..n], s);
      var i :| 0 <= i < n && matches[..n][i] == Match(s, SpansOf(matches[..n])[s]);
      assert matches[i] == Match(s, SpansOf(matches)[s]);
    }
  }

  lemma {:induction false} MatchIsSpan(matches: seq<Match>, i: int)
    requires 0 <= i < |matches|
    ensures matches[i].start in SpansOf(matches)
  {
    if i < |matches| - 1 {
      MatchIsSpan(matches[..|matches| - 1], i);
    }
  }

  lemma {:induction false} SpansOfFound(matches: seq<Match>, n: int)
    requires Found(matches, n)
    ensures ValidSpans(SpansOf(matches), n)
    ensures forall s :: s in SpansOf(matches) ==>
              exists i :: 0 <= i < |matches| && matches[i] == Match(s, SpansOf(matches)[s])
    ensures forall i :: 0 <= i < |matches| ==> matches[i].start in SpansOf(matches)
  {
    forall s | s in SpansOf(matches)
      ensures IsMatch(matches, s, SpansOf(matches)[s])
    {
      SpanIsMatch(matches, s);
    }
    forall i | 0 <= i < |matches|
      ensures matches[i].start in SpansOf(matches)
    {
      MatchIsSpan(matches, i);
    }
  }

  ghost predicate ClearOfAll(r: Range, matches: seq<Match>) {
    forall i :: 0 <= i < |matches| ==> ClearOf(r, matches[i].start, matches[i].end)
  }

  /** Everything right of the spans is moved by the difference of the lengths. */
  lemma OffsetError(text: string, p: string, spans: Spans, a: int)
    requires ValidSpans(spans, |text|) && 0 <= a <= |text|
    requires forall s :: s in spans ==> spans[s] <= a
    ensures Image(text, p, spans, a) == a + (|Rewrite(text, p, spans, 0, |text|)| - |text|)
  {
    RewriteSplit(text, p, spans, 0, a, |text|);
    RewriteUntouched(text, p, spans, a, |text|);
  }

  /** The loop with a running offset error is the simultaneous replacement of all matches, and every entity that is
      clear of every match ends up on the image of the text it covered. */
  method ReplaceMatches(text: string, p: string, entities: seq<Entity>, matches: seq<Match>) returns (out: string)
    requires Distinct(entities) && Found(matches, |text|)
    modifies entities
    ensures ValidSpans(SpansOf(matches), |text|)
    ensures out == Rewrite(text, p, SpansOf(matches), 0, |text|)
    ensures AllTrack(text, p, SpansOf(matches), ClearPlaces(old(Places(entities)), |text|, matches),
                     old(Places(entities)), Places(entities))
  {
    ghost var origs := Places(entities);
    ghost var concern := ClearPlaces(origs, |text|, matches);
    out := text;
    var offsetError := 0;
    NothingReplaced(text, p, concern, origs);
    for n := 0 to |matches|
      invariant Replaced(text, p, matches, n, concern, origs, out, Places(entities)) && offsetError == |out| - |text|
    {
      out, offsetError := ReplaceMatch(text, p, entities, matches, n, concern, origs, out, offsetError);
    }
    assert matches[..|matches|] == matches;
  }

  /** One turn of the loop. */
  method ReplaceMatch(ghost text: string, p: string, entities: seq<Entity>, matches: seq<Match>, n: int,
                      ghost concern: set<int>,
                      ghost origs: seq<Range>, before: string, errorBefore: int)
    returns (out: string, offsetError: int)
    requires Distinct(entities) && Found(matches, |text|) && 0 <= n < |matches|
    requires concern <= ClearPlaces(origs, |text|, matches)
    requires Replaced(text, p, matches, n, concern, origs, before, Places(entities)) && errorBefore == |before| - |text|
    modifies entities
    ensures Replaced(text, p, matches, n + 1, concern, origs, out, Places(entities)) && offsetError == |out| - |text|
  {
    var start, end := matches[n].start, matches[n].end;
    MatchStep(text, p, matches, n, concern, origs, before, Places(entities));
    var actualStart, actualEnd := start + errorBefore, end + errorBefore;
    out := before[..actualStart] + p + before[actualEnd..];
    var diff := |p| - (end - start);
    offsetError := errorBefore + diff;
    UpdateEntitiesParams(entities, actualStart, actualEnd, diff);
  }

  /** The state of the loop after n matches. */
  ghost predicate Replaced(text: string, p: string, matches: seq<Match>, n: int, concern: set<int>, origs: seq<Range>,
                           out: string, curs: seq<Range>)
    requires 0 <= n <= |matches|
  {
    && ValidSpans(SpansOf(matches[..n]), |text|)
    && out == Rewrite(text, p, SpansOf(matches[..n]), 0, |text|)
    && AllTrack(text, p, SpansOf(matches[..n]), concern, origs, curs)
  }

  lemma MatchStep(text: string, p: string, matches: seq<Match>, n: int, concern: set<int>, origs: seq<Range>,
                  out: string, curs: seq<Range>)
    requires Found(matches, |text|) && 0 <= n < |matches|
    requires concern <= ClearPlaces(origs, |text|, matches)
    requires Replaced(text, p, matches, n, concern, origs, out, curs)
    ensures var error := |out| - |text|;
            var start, end := matches[n].start + error, matches[n].end + error;
            && 0 <= start < end <= |out|
            && Replaced(text, p, matches, n + 1, concern, origs, out[..start] + p + out[end..],
                        UpdatedAll(curs, start, end, |p| - (end - start)))
  {
    var a, b, spans := matches[n].start, matches[n].end, SpansOf(matches[..n]);
    NextMatchAddable(matches, n, |text|);
    OffsetError(text, p, spans, a);
    AddSpan(text, p, spans, a, b);
    AllTrackStep(text, p, spans, concern, origs, curs, a, b);
    assert matches[..n + 1][..n] == matches[..n];
    assert SpansOf(matches[..n + 1]) == spans[a := b];
  }

  /** The entities inside the text that are clear of every match. */
  ghost function ClearPlaces(places: seq<Range>, n: int, matches: seq<Match>): set<int> {
    set i | 0 <= i < |places| && Within(places[i], n) && ClearOfAll(places[i], matches)
  }

  lemma NextMatchAddable(matches: seq<Match>, n: int, length: int)
    requires Found(matches, length) && 0 <= n < |matches|
    ensures SpansOf(matches[..n + 1]) == SpansOf(matches[..n])[matches[n].start := matches[n].end]
    ensures Addable(SpansOf(matches[..n]), length, matches[n].start, matches[n].end)
    ensures forall s :: s in SpansOf(matches[..n]) ==> SpansOf(matches[..n])[s] <= matches[n].start
  {
    assert matches[..n + 1][..n] == matches[..n];
    SpansOfFound(matches[..n], length);
    forall s | s in SpansOf(matches[..n])
      ensures SpansOf(matches[..n])[s] <= matches[n].start
    {
      var i :| 0 <= i < n && matches[..n][i] == Match(s, SpansOf(matches[..n])[s]);
      assert matches[i].end <= matches[n].start;
    }
  }
}
