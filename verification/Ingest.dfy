/** Inbox ingest: deduplicated event rows and the revision of each source message (EventInboxRepository.ingest). */
module Ingest {
  import opened Text
  import opened Planner

  /** The identity columns of source_message. */
  datatype SourceKey = SourceKey(tenant: string, project: string, scope: string, chatId: int, messageId: int)

  datatype SourceMessage = SourceMessage(
    latestRevision: int,
    groupedId: Option<int>,
    contentHash: Option<string>,
    tombstone: bool)

  datatype InboxRow = InboxRow(event: SourceEvent, ingestSeq: int, processed: bool)

  datatype InboxTables = InboxTables(sources: map<SourceKey, SourceMessage>, rows: seq<InboxRow>)

  /** One call of `ingest`. */
  datatype Arrival = Arrival(event: SourceEvent, tenant: string, project: string, ingestSeq: int)

  function KeyOf(a: Arrival): SourceKey {
    SourceKey(a.tenant, a.project, a.event.sourceScope, a.event.sourceChatId, a.event.sourceMessageId)
  }

  /** One source row per tenant, project, scope, chat and message. */
  lemma SourceColumnsTell(a: Arrival, b: Arrival)
    ensures KeyOf(a) == KeyOf(b)
       <==> && a.tenant == b.tenant && a.project == b.project && a.event.sourceScope == b.event.sourceScope
            && a.event.sourceChatId == b.event.sourceChatId && a.event.sourceMessageId == b.event.sourceMessageId
  {}

  /** The unique constraint of event_inbox would reject this event. */
  predicate Known(rows: seq<InboxRow>, e: SourceEvent) {
    exists i :: 0 <= i < |rows| && SameEvent(rows[i].event, e)
  }

  function NewSource(e: SourceEvent): SourceMessage {
    SourceMessage(e.revision, e.groupedId, e.payloadHash, false)
  }

  function RevisedSource(source: SourceMessage, e: SourceEvent): SourceMessage {
    var revised := if e.revision > source.latestRevision
                   then source.(latestRevision := e.revision,
                                contentHash := if e.payloadHash.Some? && e.payloadHash.value != "" then e.payloadHash
                                               else source.contentHash)
                   else source;
    if e.kind == Delete then revised.(tombstone := true) else revised
  }

  function IngestSource(t: InboxTables, a: Arrival): SourceMessage {
    if KeyOf(a) in t.sources then RevisedSource(t.sources[KeyOf(a)], a.event) else NewSource(a.event)
  }

  /** The transaction: the source row and the event row together, or - on a duplicate - neither. */
  function IngestTables(t: InboxTables, a: Arrival): InboxTables {
    if Known(t.rows, a.event) then t
    else InboxTables(t.sources[KeyOf(a) := IngestSource(t, a)], t.rows + [InboxRow(a.event, a.ingestSeq, false)])
  }

  function IngestAll(arrivals: seq<Arrival>): InboxTables {
    if arrivals == [] then InboxTables(map[], [])
    else IngestTables(IngestAll(arrivals[..|arrivals| - 1]), arrivals[|arrivals| - 1])
  }

  ghost predicate Seen(arrivals: seq<Arrival>, e: SourceEvent) {
    exists i :: 0 <= i < |arrivals| && SameEvent(arrivals[i].event, e)
  }

  /** The events accepted for one source, in order: every arrival that is the first of its event. */
  ghost function AcceptedEvents(arrivals: seq<Arrival>, key: SourceKey): seq<SourceEvent> {
    if arrivals == [] then []
    else
      var front, a := arrivals[..|arrivals| - 1], arrivals[|arrivals| - 1];
      AcceptedEvents(front, key) + if KeyOf(a) == key && !Seen(front, a.event) then [a.event] else []
  }

  ghost predicate GreatestRevision(es: seq<SourceEvent>, revision: int) {
    && (forall i :: 0 <= i < |es| ==> es[i].revision <= revision)
    && (exists i :: 0 <= i < |es| && es[i].revision == revision)
  }

  ghost predicate LaterDelete(es: seq<SourceEvent>) {
    exists i :: 1 <= i < |es| && es[i].kind == Delete
  }

  /** What a source row says about the events accepted for it. */
  ghost predicate SourceExplained(t: InboxTables, key: SourceKey, es: seq<SourceEvent>) {
    && (key in t.sources <==> es != [])
    && (key in t.sources ==>
          && GreatestRevision(es, t.sources[key].latestRevision)
          && (t.sources[key].tombstone <==> LaterDelete(es)))
  }

  ghost predicate RowsExplained(rows: seq<InboxRow>, arrivals: seq<Arrival>) {
    forall e :: Known(rows, e) <==> Seen(arrivals, e)
  }

  lemma SeenAppend(arrivals: seq<Arrival>, a: Arrival, e: SourceEvent)
    ensures Seen(arrivals + [a], e) <==> Seen(arrivals, e) || SameEvent(a.event, e)
  {
    var all := arrivals + [a];
    assert all[|arrivals|] == a;
    if Seen(arrivals, e) {
      var i :| 0 <= i < |arrivals| && SameEvent(arrivals[i].event, e);
      assert SameEvent(all[i].event, e);
    }
  }

  lemma KnownAppend(rows: seq<InboxRow>, row: InboxRow, e: SourceEvent)
    ensures Known(rows + [row], e) <==> Known(rows, e) || SameEvent(row.event, e)
  {
    var all := rows + [row];
    assert all[|rows|] == row;
    if Known(rows, e) {
      var i :| 0 <= i < |rows| && SameEvent(rows[i].event, e);
      assert SameEvent(all[i].event, e);
    }
  }

  lemma KnownSame(rows: seq<InboxRow>, e: SourceEvent, f: SourceEvent)
    requires SameEvent(e, f)
    ensures Known(rows, e) <==> Known(rows, f)
  {
    if Known(rows, e) {
      var i :| 0 <= i < |rows| && SameEvent(rows[i].event, e);
      assert SameEvent(rows[i].event, f);
    }
    if Known(rows, f) {
      var i :| 0 <= i < |rows| && SameEvent(rows[i].event, f);
      assert SameEvent(rows[i].event, e);
    }
  }

  lemma RowsStep(t: InboxTables, arrivals: seq<Arrival>, a: Arrival)
    requires RowsExplained(t.rows, arrivals)
    ensures RowsExplained(IngestTables(t, a).rows, arrivals + [a])
  {
    forall e
      ensures Known(IngestTables(t, a).rows, e) <==> Seen(arrivals + [a], e)
    {
      SeenAppend(arrivals, a, e);
      KnownAppend(t.rows, InboxRow(a.event, a.ingestSeq, false), e);
      if SameEvent(a.event, e) {
        KnownSame(t.rows, a.event, e);
      }
    }
  }

  lemma RevisedSourceExplained(source: SourceMessage, es: seq<SourceEvent>, e: SourceEvent)
    requires GreatestRevision(es, source.latestRevision) && (source.tombstone <==> LaterDelete(es))
    ensures GreatestRevision(es + [e], RevisedSource(source, e).latestRevision)
    ensures RevisedSource(source, e).tombstone <==> LaterDelete(es + [e])
  {
    var all := es + [e];
    assert all[|es|] == e && forall i :: 0 <= i < |es| ==> all[i] == es[i];
    var top :| 0 <= top < |es| && es[top].revision == source.latestRevision;
    assert all[top].revision == source.latestRevision;
    if LaterDelete(es) {
      var i :| 1 <= i < |es| && es[i].kind == Delete;
      assert all[i].kind == Delete;
    }
  }

  lemma SourceStep(t: InboxTables, a: Arrival, key: SourceKey, es: seq<SourceEvent>)
    requires SourceExplained(t, key, es)
    ensures SourceExplained(IngestTables(t, a), key,
                            es + if KeyOf(a) == key && !Known(t.rows, a.event) then [a.event] else [])
  {
    if KeyOf(a) == key && !Known(t.rows, a.event) {
      if key in t.sources {
        RevisedSourceExplained(t.sources[key], es, a.event);
      } else {
        assert es + [a.event] == [a.event] && [a.event][0].revision == a.event.revision;
      }
    } else {
      assert es + [] == es;
    }
  }

  /** Every history, any tenants: the inbox holds exactly the arrived events, each source's revision is the
      greatest accepted one, and its tombstone says that a delete was accepted after another of its events. */
  lemma {:induction false} IngestExplained(arrivals: seq<Arrival>)
    ensures RowsExplained(IngestAll(arrivals).rows, arrivals)
    ensures forall key :: SourceExplained(IngestAll(arrivals), key, AcceptedEvents(arrivals, key))
  {
    if arrivals != [] {
      var front, a := arrivals[..|arrivals| - 1], arrivals[|arrivals| - 1];
      IngestExplained(front);
      assert arrivals == front + [a];
      RowsStep(IngestAll(front), front, a);
      forall key ensures SourceExplained(IngestAll(arrivals), key, AcceptedEvents(arrivals, key)) {
        SourceStep(IngestAll(front), a, key, AcceptedEvents(front, key));
      }
    }
  }

  // ---------- what the rows hold ----------

  /** The arrivals that were the first of their event, in order. */
  ghost function FirstArrivals(arrivals: seq<Arrival>): seq<Arrival> {
    if arrivals == [] then []
    else
      var front, a := arrivals[..|arrivals| - 1], arrivals[|arrivals| - 1];
      FirstArrivals(front) + if forall i :: 0 <= i < |front| ==> !SameEvent(front[i].event, a.event) then [a] else []
  }

  /** The inbox is the first arrivals in order: the whole event as it came, its sequence number, not yet processed. */
  lemma {:induction false} InboxIsFirstArrivals(arrivals: seq<Arrival>)
    ensures var rows, firsts := IngestAll(arrivals).rows, FirstArrivals(arrivals);
            && |rows| == |firsts|
            && forall i :: 0 <= i < |rows| ==>
                 rows[i].event == firsts[i].event && rows[i].ingestSeq == firsts[i].ingestSeq && !rows[i].processed
  {
    if arrivals != [] {
      var front, a := arrivals[..|arrivals| - 1], arrivals[|arrivals| - 1];
      InboxIsFirstArrivals(front);
      IngestExplained(front);
      assert Known(IngestAll(front).rows, a.event) <==> Seen(front, a.event);
    }
  }

  /** The event has a higher revision than all before it. */
  predicate Raises(es: seq<SourceEvent>, k: int)
    requires 0 <= k < |es|
  {
    forall i :: 0 <= i < k ==> es[i].revision < es[k].revision
  }

  predicate BringsHash(es: seq<SourceEvent>, k: int)
    requires 0 <= k < |es|
  {
    Raises(es, k) && es[k].payloadHash != None && es[k].payloadHash != Some("")
  }

  /** The hash is the one of the latest event that raised the revision and had one, or else what the first brought. */
  ghost predicate HashOf(es: seq<SourceEvent>, hash: Option<string>, k: int) {
    && 0 <= k < |es| && hash == es[k].payloadHash && (k == 0 || BringsHash(es, k))
    && forall m :: k < m < |es| ==> !BringsHash(es, m)
  }

  ghost predicate ColumnsExplained(source: SourceMessage, es: seq<SourceEvent>) {
    && es != [] && source.groupedId == es[0].groupedId
    && exists k :: HashOf(es, source.contentHash, k)
  }

  lemma RevisedColumns(source: SourceMessage, es: seq<SourceEvent>, e: SourceEvent)
    requires GreatestRevision(es, source.latestRevision) && ColumnsExplained(source, es)
    ensures ColumnsExplained(RevisedSource(source, e), es + [e])
  {
    var all, n := es + [e], |es|;
    var revised := RevisedSource(source, e);
    var k :| HashOf(es, source.contentHash, k);
    assert forall i :: 0 <= i < n ==> all[i] == es[i];
    forall m | 0 <= m < n
      ensures BringsHash(all, m) <==> BringsHash(es, m)
    {
    }
    var top :| 0 <= top < n && es[top].revision == source.latestRevision;
    assert Raises(all, n) ==> all[top].revision < e.revision;
    assert Raises(all, n) <==> e.revision > source.latestRevision;
    if BringsHash(all, n) {
      assert HashOf(all, revised.contentHash, n);
    } else {
      assert HashOf(all, revised.contentHash, k);
    }
  }

  lemma ColumnsStep(t: InboxTables, a: Arrival, key: SourceKey, es: seq<SourceEvent>)
    requires SourceExplained(t, key, es) && (key in t.sources ==> ColumnsExplained(t.sources[key], es))
    ensures var more := es + if KeyOf(a) == key && !Known(t.rows, a.event) then [a.event] else [];
            key in IngestTables(t, a).sources ==> ColumnsExplained(IngestTables(t, a).sources[key], more)
  {
    if KeyOf(a) == key && !Known(t.rows, a.event) {
      if key in t.sources {
        RevisedColumns(t.sources[key], es, a.event);
      } else {
        var first := es + [a.event];
        assert first == [a.event];
        assert HashOf(first, a.event.payloadHash, 0);
      }
    } else {
      assert es + [] == es;
    }
  }

  /** Every history: a source keeps the album of its first accepted event, and the hash of the latest one that raised
      its revision and had a hash. */
  lemma {:induction false} SourceColumns(arrivals: seq<Arrival>, key: SourceKey)
    requires key in IngestAll(arrivals).sources
    ensures ColumnsExplained(IngestAll(arrivals).sources[key], AcceptedEvents(arrivals, key))
  {
    var front, a := arrivals[..|arrivals| - 1], arrivals[|arrivals| - 1];
    var t := IngestAll(front);
    IngestExplained(front);
    assert Known(t.rows, a.event) <==> Seen(front, a.event);
    assert SourceExplained(t, key, AcceptedEvents(front, key));
    if key in t.sources {
      SourceColumns(front, key);
    }
    ColumnsStep(t, a, key, AcceptedEvents(front, key));
  }

  /** No two inbox rows hold the same event. */
  ghost predicate RowsUnique(rows: seq<InboxRow>) {
    forall i, k :: 0 <= i < k < |rows| ==> !SameEvent(rows[i].event, rows[k].event)
  }

  lemma {:induction false} InboxRowsUnique(arrivals: seq<Arrival>)
    ensures RowsUnique(IngestAll(arrivals).rows)
  {
    if arrivals != [] {
      InboxRowsUnique(arrivals[..|arrivals| - 1]);
    }
  }

  /** All arrivals belong to one tenant and project. */
  predicate OneTenant(arrivals: seq<Arrival>) {
    forall i, k :: 0 <= i < |arrivals| && 0 <= k < |arrivals| ==>
      arrivals[i].tenant == arrivals[k].tenant && arrivals[i].project == arrivals[k].project
  }

  /** Within one tenant every arrival is represented among the accepted events of its source. */
  lemma {:induction false} ArrivalAccepted(arrivals: seq<Arrival>, i: int)
    requires OneTenant(arrivals) && 0 <= i < |arrivals|
    ensures exists k :: 0 <= k < |AcceptedEvents(arrivals, KeyOf(arrivals[i]))|
                        && SameEvent(AcceptedEvents(arrivals, KeyOf(arrivals[i]))[k], arrivals[i].event)
  {
    var front, a := arrivals[..|arrivals| - 1], arrivals[|arrivals| - 1];
    var key := KeyOf(arrivals[i]);
    var before, es := AcceptedEvents(front, key), AcceptedEvents(arrivals, key);
    if i < |front| || Seen(front, a.event) {
      var j: int := i;
      if i == |front| {
        j :| 0 <= j < |front| && SameEvent(front[j].event, a.event);
        assert front[j] == arrivals[j] && KeyOf(front[j]) == key;
      }
      assert front[j] == arrivals[j];
      ArrivalAccepted(front, j);
      var k :| 0 <= k < |before| && SameEvent(before[k], front[j].event);
      assert es[k] == before[k];
    } else {
      assert es[|before|] == a.event;
    }
  }

  lemma {:induction false} AcceptedArrived(arrivals: seq<Arrival>, key: SourceKey, k: int)
    requires 0 <= k < |AcceptedEvents(arrivals, key)|
    ensures exists i ::
              0 <= i < |arrivals| && KeyOf(arrivals[i]) == key && arrivals[i].event == AcceptedEvents(arrivals, key)[k]
  {
    var front := arrivals[..|arrivals| - 1];
    if k < |AcceptedEvents(front, key)| {
      AcceptedArrived(front, key, k);
      var i :| 0 <= i < |front| && KeyOf(front[i]) == key && front[i].event == AcceptedEvents(front, key)[k];
      assert arrivals[i] == front[i];
    }
  }

  /** Within one tenant the revision of a source is the greatest of all its arrivals, duplicates included. */
  lemma {:induction false} LatestIsMaximum(arrivals: seq<Arrival>, key: SourceKey)
    requires OneTenant(arrivals)
    ensures key in IngestAll(arrivals).sources <==> exists i :: 0 <= i < |arrivals| && KeyOf(arrivals[i]) == key
    ensures forall i :: 0 <= i < |arrivals| && KeyOf(arrivals[i]) == key && key in IngestAll(arrivals).sources ==>
              arrivals[i].event.revision <= IngestAll(arrivals).sources[key].latestRevision
    ensures key in IngestAll(arrivals).sources ==>
              exists i :: 0 <= i < |arrivals| && KeyOf(arrivals[i]) == key
                          && arrivals[i].event.revision == IngestAll(arrivals).sources[key].latestRevision
  {
    IngestExplained(arrivals);
    var t, es := IngestAll(arrivals), AcceptedEvents(arrivals, key);
    assert SourceExplained(t, key, es);
    forall i | 0 <= i < |arrivals| && KeyOf(arrivals[i]) == key
      ensures key in t.sources && arrivals[i].event.revision <= t.sources[key].latestRevision
    {
      ArrivalAccepted(arrivals, i);
    }
    if key in t.sources {
      var k :| 0 <= k < |es| && es[k].revision == t.sources[key].latestRevision;
      AcceptedArrived(arrivals, key, k);
    }
  }

  /** Every delivery of xs is also one of ys. */
  ghost predicate DeliveredBy(xs: seq<Arrival>, ys: seq<Arrival>) {
    forall i :: 0 <= i < |xs| ==>
      exists k :: 0 <= k < |ys| && SameEvent(ys[k].event, xs[i].event) && KeyOf(ys[k]) == KeyOf(xs[i])
  }

  ghost predicate Covered(xs: InboxTables, ys: InboxTables) {
    && (forall e :: Known(xs.rows, e) ==> Known(ys.rows, e))
    && (forall key :: key in xs.sources ==>
          key in ys.sources && xs.sources[key].latestRevision <= ys.sources[key].latestRevision)
  }

  lemma {:induction false} DeliveriesCovered(xs: seq<Arrival>, ys: seq<Arrival>)
    requires OneTenant(xs) && OneTenant(ys) && DeliveredBy(xs, ys)
    ensures Covered(IngestAll(xs), IngestAll(ys))
  {
    IngestExplained(xs);
    IngestExplained(ys);
    var s, t := IngestAll(xs), IngestAll(ys);
    forall e | Known(s.rows, e)
      ensures Known(t.rows, e)
    {
      var i :| 0 <= i < |xs| && SameEvent(xs[i].event, e);
      var k :| 0 <= k < |ys| && SameEvent(ys[k].event, xs[i].event);
      assert SameEvent(ys[k].event, e);
    }
    forall key | key in s.sources
      ensures key in t.sources && s.sources[key].latestRevision <= t.sources[key].latestRevision
    {
      LatestIsMaximum(xs, key);
      LatestIsMaximum(ys, key);
      var i :| 0 <= i < |xs| && KeyOf(xs[i]) == key && xs[i].event.revision == s.sources[key].latestRevision;
      var k :| 0 <= k < |ys| && SameEvent(ys[k].event, xs[i].event) && KeyOf(ys[k]) == KeyOf(xs[i]);
    }
  }

  /** Reordering or repeating deliveries within one tenant changes neither the inbox's events nor any revision. */
  lemma {:induction false} IngestOrderIrrelevant(xs: seq<Arrival>, ys: seq<Arrival>)
    requires OneTenant(xs) && OneTenant(ys) && DeliveredBy(xs, ys) && DeliveredBy(ys, xs)
    ensures forall e :: Known(IngestAll(xs).rows, e) <==> Known(IngestAll(ys).rows, e)
    ensures IngestAll(xs).sources.Keys == IngestAll(ys).sources.Keys
    ensures forall key :: key in IngestAll(xs).sources ==>
              IngestAll(xs).sources[key].latestRevision == IngestAll(ys).sources[key].latestRevision
  {
    DeliveriesCovered(xs, ys);
    DeliveriesCovered(ys, xs);
  }

  /** The inbox constraint ignores the tenant: a tenant that is second with an event gets no source row for it. */
  lemma SecondTenantIsDropped(e: SourceEvent)
    ensures var both := IngestAll([Arrival(e, "a", "p", 0), Arrival(e, "b", "p", 1)]);
            |both.rows| == 1 && KeyOf(Arrival(e, "b", "p", 1)) !in both.sources
  {
    var xs := [Arrival(e, "a", "p", 0), Arrival(e, "b", "p", 1)];
    var one := IngestAll([xs[0]]);
    assert [xs[0]][..0] == [] && xs[..1] == [xs[0]];
    assert IngestAll([]) == InboxTables(map[], []);
    assert one.rows == [InboxRow(e, 0, false)];
    assert SameEvent(one.rows[0].event, e);
  }
}
