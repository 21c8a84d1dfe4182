/** Which jobs there are: in every run the keys of the job table are those the platform inserted and those the rules
    ask of the processed inbox rows - whatever the batches, the message map and the sender draws were. */
module PipelineKeys {
  import opened Text
  import opened Planner
  import opened Ingest
  import opened JobModel
  import opened Store
  import opened Pipeline
  import opened PipelineRuns

  /** The step is the platform's insert of a ready job under the key. */
  predicate Inserts(step: Step, key: string) {
    step.PlatformInsert? && step.row.attemptCount == 0 && step.row.status == Ready && step.row.key == key
  }

  ghost predicate Inserted(steps: seq<Step>, key: string) {
    exists i :: 0 <= i < |steps| && Inserts(steps[i], key)
  }

  ghost predicate Asks(rules: string -> seq<RuleSnapshot>, row: InboxRow, key: string) {
    row.processed && key in WantedKeys(row.event, rules(row.event.accountId))
  }

  ghost predicate Asked(rules: string -> seq<RuleSnapshot>, rows: seq<InboxRow>, key: string) {
    exists r :: 0 <= r < |rows| && Asks(rules, rows[r], key)
  }

  /** A key that appears among the jobs is the key of a plan. */
  lemma {:induction false} NewKeyIsPlanned(jobs: seq<Job>, plans: seq<DeliveryPlan>, tenant: string, project: string,
                                           now: Time, key: string)
    requires HasKey(InsertPlans(jobs, plans, tenant, project, now), key) && !HasKey(jobs, key)
    ensures key in KeysOf(plans)
  {
    if plans != [] {
      var front, last := plans[..|plans| - 1], plans[|plans| - 1];
      var before := InsertPlans(jobs, front, tenant, project, now);
      if HasKey(before, key) {
        NewKeyIsPlanned(jobs, front, tenant, project, now, key);
        var p :| p in front && IdempotencyKey(p) == key;
        assert p in plans;
      } else {
        var after := InsertJob(before, JobFromPlan(last, tenant, project, now));
        var i :| 0 <= i < |after| && after[i].key == key;
        assert last in plans && IdempotencyKey(last) == key;
      }
    }
  }

  /** Rows once processed stay so, with their events; new rows may come behind them. */
  ghost predicate RowsStay(before: seq<InboxRow>, after: seq<InboxRow>) {
    && |before| <= |after|
    && forall r :: 0 <= r < |before| ==>
         after[r].event == before[r].event && (before[r].processed ==> after[r].processed)
  }

  lemma AskedStays(rules: string -> seq<RuleSnapshot>, before: seq<InboxRow>, after: seq<InboxRow>, key: string)
    requires RowsStay(before, after) && Asked(rules, before, key)
    ensures Asked(rules, after, key)
  {
    var r :| 0 <= r < |before| && Asks(rules, before[r], key);
    assert Asks(rules, after[r], key);
  }

  /** A drain adds no key that no row of its batch asks for. */
  lemma {:induction false} NewKeyIsAsked(t: Tables, batch: seq<nat>, c: PlanContext, tenant: string, project: string,
                                         now: Time, key: string)
    requires BatchInRange(batch, t.inbox.rows)
    requires HasKey(DrainRows(t, batch, c, tenant, project, now).jobs, key) && !HasKey(t.jobs, key)
    ensures Asked(c.rules, DrainRows(t, batch, c, tenant, project, now).inbox.rows, key)
  {
    if batch != [] {
      var front, row := batch[..|batch| - 1], batch[|batch| - 1];
      var before := DrainRows(t, front, c, tenant, project, now);
      var after := DrainRow(before, row, c, tenant, project, now);
      if HasKey(before.jobs, key) {
        NewKeyIsAsked(t, front, c, tenant, project, now, key);
        AskedStays(c.rules, before.inbox.rows, after.inbox.rows, key);
      } else {
        var e := before.inbox.rows[row].event;
        NewKeyIsPlanned(before.jobs, PlansFor(e, c), tenant, project, now, key);
        PlannedKeysAreWantedKeys(e, c.rules(e.accountId), c.view, c.pick);
        assert Asks(c.rules, after.inbox.rows[row], key);
      }
    }
  }

  lemma DrainKeys(cfg: Config, s: System, step: Step, key: string)
    requires step.Drain?
    ensures RowsStay(s.tables.inbox.rows, Apply(cfg, s, step).tables.inbox.rows)
    ensures HasKey(s.tables.jobs, key) ==> HasKey(Apply(cfg, s, step).tables.jobs, key)
    ensures HasKey(Apply(cfg, s, step).tables.jobs, key) && !HasKey(s.tables.jobs, key) ==>
              Asked(cfg.rules, Apply(cfg, s, step).tables.inbox.rows, key)
  {
    var t := Apply(cfg, s, step);
    if t != s {
      var batch, c := s.workers[step.w].pc.batch, PlanContext(cfg.rules, step.view, step.pick);
      DrainMarks(s.tables, batch, c, step.tenant, step.project, step.now);
      DrainAppends(s.tables, batch, c, step.tenant, step.project, step.now);
      HasKeyGrows(s.tables.jobs, t.tables.jobs);
      if HasKey(t.tables.jobs, key) && !HasKey(s.tables.jobs, key) {
        NewKeyIsAsked(s.tables, batch, c, step.tenant, step.project, step.now, key);
      }
    }
  }

  lemma InsertKeys(cfg: Config, s: System, step: Step, key: string)
    requires step.PlatformInsert?
    ensures HasKey(Apply(cfg, s, step).tables.jobs, key) <==> HasKey(s.tables.jobs, key) || Inserts(step, key)
  {
    if step.row.attemptCount == 0 && step.row.status == Ready {
      InsertedHasKey(s.tables.jobs, step.row);
      HasKeyGrows(s.tables.jobs, InsertJob(s.tables.jobs, step.row));
    }
  }

  /** The step touches neither the inbox nor the keys and plans of the jobs. */
  ghost predicate SameKeys(before: Tables, after: Tables) {
    && after.inbox.rows == before.inbox.rows && |after.jobs| == |before.jobs|
    && forall j :: 0 <= j < |before.jobs| ==>
         after.jobs[j].key == before.jobs[j].key && after.jobs[j].plan == before.jobs[j].plan
  }

  lemma GateKeys(cfg: Config, s: System, w: WorkerId, decision: Decision, now: Time, draw: real, stamp: Time)
    ensures SameKeys(s.tables, DoGate(cfg, s, w, decision, now, draw, stamp).tables)
  {}

  lemma TryKeys(s: System, w: WorkerId)
    ensures SameKeys(s.tables, DoTryNext(s, w).tables)
  {}

  lemma RecordKeys(cfg: Config, s: System, w: WorkerId, now: Time, draw: real, stamp: Time)
    ensures SameKeys(s.tables, DoRecord(cfg, s, w, now, draw, stamp).tables)
  {}

  lemma OtherKeys(cfg: Config, s: System, step: Step)
    requires !step.Drain? && !step.PlatformInsert? && !step.Arrive? && !step.Gate? && !step.TryNext? && !step.Record?
    ensures SameKeys(s.tables, Apply(cfg, s, step).tables)
  {}

  lemma QuietKeys(cfg: Config, s: System, step: Step)
    requires !step.Drain? && !step.PlatformInsert? && !step.Arrive?
    ensures SameKeys(s.tables, Apply(cfg, s, step).tables)
  {
    match step
    case Gate(w, decision, now, draw, stamp) => GateKeys(cfg, s, w, decision, now, draw, stamp);
    case TryNext(w) => TryKeys(s, w);
    case Record(w, now, draw, stamp) => RecordKeys(cfg, s, w, now, draw, stamp);
    case _ => OtherKeys(cfg, s, step);
  }

  /** One step: keys stay, and a new one was inserted by the platform or is asked by a processed row. */
  lemma StepKeys(cfg: Config, s: System, step: Step, key: string)
    ensures RowsStay(s.tables.inbox.rows, Apply(cfg, s, step).tables.inbox.rows)
    ensures HasKey(s.tables.jobs, key) || Inserts(step, key) ==> HasKey(Apply(cfg, s, step).tables.jobs, key)
    ensures HasKey(Apply(cfg, s, step).tables.jobs, key) ==>
              || HasKey(s.tables.jobs, key) || Inserts(step, key)
              || Asked(cfg.rules, Apply(cfg, s, step).tables.inbox.rows, key)
  {
    if step.Drain? {
      DrainKeys(cfg, s, step, key);
    } else if step.PlatformInsert? {
      InsertKeys(cfg, s, step, key);
    } else if !step.Arrive? {
      var t := Apply(cfg, s, step);
      QuietKeys(cfg, s, step);
      HasKeyGrows(s.tables.jobs, t.tables.jobs);
      HasKeyGrows(t.tables.jobs, s.tables.jobs);
    }
  }

  lemma InsertedPush(steps: seq<Step>, step: Step, key: string)
    ensures Inserted(steps + [step], key) <==> Inserted(steps, key) || Inserts(step, key)
  {
    var all := steps + [step];
    if Inserts(step, key) {
      assert Inserts(all[|steps|], key);
    }
    if Inserted(steps, key) {
      var i :| 0 <= i < |steps| && Inserts(steps[i], key);
      assert Inserts(all[i], key);
    }
  }

  /** In every run a job stands under a key exactly when the platform inserted one or a processed row asks for it. */
  lemma {:induction false} KeysExactly(cfg: Config, steps: seq<Step>, key: string)
    ensures var t := Run(cfg, INITIAL, steps).tables;
            HasKey(t.jobs, key) <==> Inserted(steps, key) || Asked(cfg.rules, t.inbox.rows, key)
  {
    if steps != [] {
      var front, last := steps[..|steps| - 1], steps[|steps| - 1];
      var before, after := Run(cfg, INITIAL, front).tables, Run(cfg, INITIAL, steps).tables;
      assert steps == front + [last];
      KeysExactly(cfg, front, key);
      StepKeys(cfg, Run(cfg, INITIAL, front), last, key);
      InsertedPush(front, last, key);
      if Asked(cfg.rules, before.inbox.rows, key) {
        AskedStays(cfg.rules, before.inbox.rows, after.inbox.rows, key);
      }
      if Asked(cfg.rules, after.inbox.rows, key) {
        ProcessedRowsHaveTheirJobs(cfg, steps);
      }
    }
  }

  /** So two runs that process the same events and take the same inserts have jobs for the same keys. */
  lemma {:induction false} SameEventsSameKeys(cfg: Config, steps: seq<Step>, others: seq<Step>, key: string)
    requires Inserted(steps, key) <==> Inserted(others, key)
    requires var rows, theirs := Run(cfg, INITIAL, steps).tables.inbox.rows,
             Run(cfg, INITIAL, others).tables.inbox.rows;
             forall e :: ProcessedEvent(rows, e) <==> ProcessedEvent(theirs, e)
    ensures HasKey(Run(cfg, INITIAL, steps).tables.jobs, key) <==> HasKey(Run(cfg, INITIAL, others).tables.jobs, key)
  {
    KeysExactly(cfg, steps, key);
    KeysExactly(cfg, others, key);
    AskedByEvents(cfg.rules, Run(cfg, INITIAL, steps).tables.inbox.rows, key);
    AskedByEvents(cfg.rules, Run(cfg, INITIAL, others).tables.inbox.rows, key);
  }

  ghost predicate ProcessedEvent(rows: seq<InboxRow>, e: SourceEvent) {
    exists r :: 0 <= r < |rows| && rows[r].processed && rows[r].event == e
  }

  lemma AskedByEvents(rules: string -> seq<RuleSnapshot>, rows: seq<InboxRow>, key: string)
    ensures Asked(rules, rows, key) <==> exists e :: ProcessedEvent(rows, e) && key in WantedKeys(e, rules(e.accountId))
  {
    if Asked(rules, rows, key) {
      var r :| 0 <= r < |rows| && Asks(rules, rows[r], key);
      assert ProcessedEvent(rows, rows[r].event);
    }
    if e :| ProcessedEvent(rows, e) && key in WantedKeys(e, rules(e.accountId)) {
      var r :| 0 <= r < |rows| && rows[r].processed && rows[r].event == e;
      assert Asks(rules, rows[r], key);
    }
  }
}
