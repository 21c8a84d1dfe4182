/** Simultaneous replacement of disjoint spans of a text, and where positions go. */
module Rewriting {

  /** The spans to replace, by start: [s, spans[s]). */
  type Spans = map<int, int>

  /** Non-empty spans inside a text of length n, no two overlapping. */
  ghost predicate ValidSpans(spans: Spans, n: int) {
    && (forall s :: s in spans ==> 0 <= s < spans[s] <= n)
    && (forall s, t :: s in spans && t in spans && s < t ==> spans[s] <= t)
  }

  /** Position x is not strictly inside a span. */
  ghost predicate Outside(spans: Spans, x: int) {
    forall s :: s in spans ==> !(s < x < spans[s])
  }

  /** text[i..k] with every span in it replaced by p, all at once. */
  ghost function Rewrite(text: string, p: string, spans: Spans, i: int, k: int): string
    requires ValidSpans(spans, |text|) && 0 <= i && k <= |text|
    decreases k - i
  {
    if i >= k then []
    else if i in spans then p + Rewrite(text, p, spans, spans[i], k)
    else [text[i]] + Rewrite(text, p, spans, i + 1, k)
  }

  /** Where position x of the text goes. */
  ghost function Image(text: string, p: string, spans: Spans, x: int): int
    requires ValidSpans(spans, |text|) && 0 <= x <= |text|
  {
    |Rewrite(text, p, spans, 0, x)|
  }

  lemma {:induction false} RewriteSplit(text: string, p: string, spans: Spans, i: int, j: int, k: int)
    requires ValidSpans(spans, |text|) && 0 <= i <= j <= k <= |text| && Outside(spans, j)
    ensures Rewrite(text, p, spans, i, k) == Rewrite(text, p, spans, i, j) + Rewrite(text, p, spans, j, k)
    decreases j - i
  {
    if i < j {
      if i in spans {
        RewriteSplit(text, p, spans, spans[i], j, k);
      } else {
        RewriteSplit(text, p, spans, i + 1, j, k);
      }
    }
  }

  /** Only the spans that start in the part matter to it. */
  lemma {:induction false} RewriteLocal(text: string, p: string, spans: Spans, spans': Spans, i: int, k: int)
    requires ValidSpans(spans, |text|) && ValidSpans(spans', |text|) && 0 <= i && k <= |text|
    requires forall s :: i <= s < k ==> (s in spans <==> s in spans') && (s in spans ==> spans[s] == spans'[s])
    ensures Rewrite(text, p, spans, i, k) == Rewrite(text, p, spans', i, k)
    decreases k - i
  {
    if i < k {
      if i in spans {
        RewriteLocal(text, p, spans, spans', spans[i], k);
      } else {
        RewriteLocal(text, p, spans, spans', i + 1, k);
      }
    }
  }

  lemma {:induction false} RewriteUntouched(text: string, p: string, spans: Spans, i: int, k: int)
    requires ValidSpans(spans, |text|) && 0 <= i <= k <= |text|
    requires forall s :: i <= s < k ==> s !in spans
    ensures Rewrite(text, p, spans, i, k) == text[i..k]
    decreases k - i
  {
    if i < k {
      RewriteUntouched(text, p, spans, i + 1, k);
    }
  }

  /** [a, b) is a span that can still be added. */
  ghost predicate Addable(spans: Spans, n: int, a: int, b: int) {
    && 0 <= a < b <= n
    && forall s :: s in spans ==> spans[s] <= a || b <= s
  }

  lemma AddableValid(spans: Spans, n: int, a: int, b: int)
    requires ValidSpans(spans, n) && Addable(spans, n, a, b)
    ensures ValidSpans(spans[a := b], n)
    ensures Outside(spans, a) && Outside(spans, b) && Outside(spans[a := b], a) && Outside(spans[a := b], b)
    ensures forall s :: a <= s < b ==> s !in spans
  {}

  lemma AroundSpan(text: string, p: string, spans: Spans, a: int, b: int)
    requires ValidSpans(spans, |text|) && Addable(spans, |text|, a, b)
    ensures ValidSpans(spans[a := b], |text|)
    ensures Image(text, p, spans, b) == Image(text, p, spans, a) + (b - a)
    ensures Rewrite(text, p, spans, 0, |text|)
         == Rewrite(text, p, spans, 0, a) + text[a..b] + Rewrite(text, p, spans, b, |text|)
    ensures Rewrite(text, p, spans[a := b], 0, |text|)
         == Rewrite(text, p, spans, 0, a) + p + Rewrite(text, p, spans, b, |text|)
  {
    AddableValid(spans, |text|, a, b);
    var n, more := |text|, spans[a := b];
    RewriteSplit(text, p, spans, 0, b, n);
    RewriteSplit(text, p, spans, 0, a, b);
    RewriteUntouched(text, p, spans, a, b);
    RewriteSplit(text, p, more, 0, a, n);
    RewriteLocal(text, p, spans, more, 0, a);
    RewriteLocal(text, p, spans, more, b, n);
    assert Rewrite(text, p, more, a, n) == p + Rewrite(text, p, spans, b, n);
  }

  lemma CutParts(head: string, mid: string, tail: string)
    ensures (head + mid + tail)[..|head|] == head
    ensures (head + mid + tail)[|head|..|head| + |mid|] == mid
    ensures (head + mid + tail)[|head| + |mid|..] == tail
  {}

  /** Replacing the image of a further span in the rewritten text is the same as replacing it with the others. */
  lemma AddSpan(text: string, p: string, spans: Spans, a: int, b: int)
    requires ValidSpans(spans, |text|) && Addable(spans, |text|, a, b)
    ensures ValidSpans(spans[a := b], |text|)
    ensures var now, start := Rewrite(text, p, spans, 0, |text|), Image(text, p, spans, a);
            && start + (b - a) <= |now|
            && Image(text, p, spans, b) == start + (b - a)
            && now[start..start + (b - a)] == text[a..b]
            && now[..start] + p + now[start + (b - a)..] == Rewrite(text, p, spans[a := b], 0, |text|)
  {
    AroundSpan(text, p, spans, a, b);
    CutParts(Rewrite(text, p, spans, 0, a), text[a..b], Rewrite(text, p, spans, b, |text|));
  }

  /** A further span moves the positions behind it and leaves those before it. */
  lemma ImageAfterAdd(text: string, p: string, spans: Spans, a: int, b: int, x: int)
    requires ValidSpans(spans, |text|) && Addable(spans, |text|, a, b) && 0 <= x <= |text| && Outside(spans, x)
    requires x <= a || b <= x
    ensures ValidSpans(spans[a := b], |text|) && Outside(spans[a := b], x)
    ensures Image(text, p, spans[a := b], x) == Image(text, p, spans, x) + if x <= a then 0 else |p| - (b - a)
    ensures x <= a ==> Image(text, p, spans, x) <= Image(text, p, spans, a)
    ensures b <= x ==> Image(text, p, spans, x) >= Image(text, p, spans, a) + (b - a)
  {
    AddableValid(spans, |text|, a, b);
    var more := spans[a := b];
    if x <= a {
      RewriteLocal(text, p, spans, more, 0, x);
      RewriteSplit(text, p, spans, 0, x, a);
    } else {
      RewriteSplit(text, p, spans, 0, a, x);
      RewriteSplit(text, p, spans, a, b, x);
      RewriteUntouched(text, p, spans, a, b);
      RewriteSplit(text, p, more, 0, a, x);
      RewriteLocal(text, p, spans, more, 0, a);
      RewriteLocal(text, p, spans, more, b, x);
    }
  }

  /** The rewritten text between the images of two positions is the rewriting of the text between them. */
  lemma RewrittenPart(text: string, p: string, spans: Spans, x: int, y: int)
    requires ValidSpans(spans, |text|) && 0 <= x <= y <= |text| && Outside(spans, x) && Outside(spans, y)
    ensures 0 <= Image(text, p, spans, x) <= Image(text, p, spans, y) <= |Rewrite(text, p, spans, 0, |text|)|
    ensures Rewrite(text, p, spans, 0, |text|)[Image(text, p, spans, x)..Image(text, p, spans, y)]
         == Rewrite(text, p, spans, x, y)
  {
    RewriteSplit(text, p, spans, 0, x, y);
    RewriteSplit(text, p, spans, 0, y, |text|);
  }
}
