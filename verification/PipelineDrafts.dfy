/** What a drain writes: every new job says what a rule asks of the event for one route, and waits for approval exactly
    when that rule wants messages reviewed. In every run such a job stays waiting and is never sent. */
module PipelineDrafts {
  import opened Text
  import opened Planner
  import opened Ingest
  import opened JobModel
  import opened Store
  import opened Pipeline
  import opened PipelineRuns
  import opened PipelineKeys

  /** Messages of the rule are looked at by a person before they are sent; edits and deletes are not. */
  predicate NeedsReview(rule: RuleSnapshot, e: SourceEvent) {
    rule.approvalPolicy == MessageReview && e.kind == Create
  }

  /** A job as it is written for a route of a rule. */
  ghost predicate Drafted(job: Job, e: SourceEvent, rule: RuleSnapshot, route: RouteTarget, view: MappingView,
                          tenant: string, project: string, now: Time)
  {
    && Says(job.plan, e, rule, route, view)
    && job.status == (if NeedsReview(rule, e) then WaitingApproval else Ready)
    && job.kindText == (match e.kind case Create => "send" case Edit => "edit" case Delete => "delete")
    && job.key == IdempotencyKey(job.plan) && job.tenant == tenant && job.project == project
    && job.attemptCount == 0 && job.nextAttemptAt == None && job.floodWaitUntil == None && job.lastError == None
    && job.updatedAt == now
  }

  ghost predicate DraftedFor(job: Job, e: SourceEvent, c: PlanContext, tenant: string, project: string, now: Time) {
    exists rule, route :: rule in c.rules(e.accountId) && Admits(rule, e) && route in rule.targets
                          && Drafted(job, e, rule, route, c.view, tenant, project, now)
  }

  lemma PlanDrafts(e: SourceEvent, c: PlanContext, p: DeliveryPlan, tenant: string, project: string, now: Time)
    requires p in PlansFor(e, c)
    ensures DraftedFor(JobFromPlan(p, tenant, project, now), e, c, tenant, project, now)
  {
    PlansSay(e, c.rules(e.accountId), c.view, c.pick);
    var rule, route :| rule in c.rules(e.accountId) && Admits(rule, e) && route in rule.targets
                       && Says(p, e, rule, route, c.view);
    assert Drafted(JobFromPlan(p, tenant, project, now), e, rule, route, c.view, tenant, project, now);
  }

  lemma {:induction false} InsertedAreDrafts(jobs: seq<Job>, plans: seq<DeliveryPlan>, e: SourceEvent, c: PlanContext,
                                             tenant: string, project: string, now: Time)
    requires forall p :: p in plans ==> p in PlansFor(e, c)
    ensures var after := InsertPlans(jobs, plans, tenant, project, now);
            jobs <= after && forall j :: |jobs| <= j < |after| ==> DraftedFor(after[j], e, c, tenant, project, now)
  {
    if plans != [] {
      var front, last := plans[..|plans| - 1], plans[|plans| - 1];
      InsertedAreDrafts(jobs, front, e, c, tenant, project, now);
      assert last in plans;
      PlanDrafts(e, c, last, tenant, project, now);
    }
  }

  /** The job was written by the drain for one of the rows of its batch. */
  ghost predicate DraftedFrom(job: Job, rows: seq<InboxRow>, batch: seq<nat>, c: PlanContext, tenant: string,
                              project: string, now: Time)
    requires BatchInRange(batch, rows)
  {
    exists i :: 0 <= i < |batch| && DraftedFor(job, rows[batch[i]].event, c, tenant, project, now)
  }

  /** Every job a drain appends was written for one of its rows: its status, its plan and all its columns. */
  lemma {:induction false} DrainDrafts(t: Tables, batch: seq<nat>, c: PlanContext, tenant: string, project: string,
                                       now: Time)
    requires BatchInRange(batch, t.inbox.rows)
    ensures var after := DrainRows(t, batch, c, tenant, project, now).jobs;
            && t.jobs <= after
            && forall j :: |t.jobs| <= j < |after| ==>
                 DraftedFrom(after[j], t.inbox.rows, batch, c, tenant, project, now)
  {
    if batch != [] {
      var n := |batch| - 1;
      var before := DrainRows(t, batch[..n], c, tenant, project, now);
      var after := DrainRows(t, batch, c, tenant, project, now);
      DrainDrafts(t, batch[..n], c, tenant, project, now);
      DrainMarks(t, batch[..n], c, tenant, project, now);
      var e := before.inbox.rows[batch[n]].event;
      assert e == t.inbox.rows[batch[n]].event;
      InsertedAreDrafts(before.jobs, PlansFor(e, c), e, c, tenant, project, now);
      forall j | |t.jobs| <= j < |after.jobs|
        ensures DraftedFrom(after.jobs[j], t.inbox.rows, batch, c, tenant, project, now)
      {
        if j < |before.jobs| {
          var i :| 0 <= i < n && DraftedFor(after.jobs[j], t.inbox.rows[batch[..n][i]].event, c, tenant, project, now);
          assert batch[..n][i] == batch[i];
        } else {
          assert DraftedFor(after.jobs[j], t.inbox.rows[batch[n]].event, c, tenant, project, now);
        }
      }
    }
  }

  // ---------- over whole runs ----------

  /** The job carries out what a rule asks of a processed row; under review it waits and has never been claimed. */
  ghost predicate OriginIs(cfg: Config, t: Tables, j: JobId, r: nat, rule: RuleSnapshot, route: RouteTarget,
                           view: MappingView)
    requires j < |t.jobs|
  {
    && r < |t.inbox.rows| && t.inbox.rows[r].processed
    && var e := t.inbox.rows[r].event;
       && rule in cfg.rules(e.accountId) && Admits(rule, e) && route in rule.targets
       && Says(t.jobs[j].plan, e, rule, route, view)
       && (NeedsReview(rule, e) ==> t.jobs[j].status == WaitingApproval && t.jobs[j].attemptCount == 0)
  }

  ghost predicate HasOrigin(cfg: Config, t: Tables, j: JobId)
    requires j < |t.jobs|
  {
    exists r, rule, route, view :: OriginIs(cfg, t, j, r, rule, route, view)
  }

  /** An old job keeps its origin when its row is settled, or changes without its plan. */
  lemma OriginStays(cfg: Config, t: Tables, after: Tables, j: JobId)
    requires j < |t.jobs| && j < |after.jobs| && HasOrigin(cfg, t, j)
    requires RowsStay(t.inbox.rows, after.inbox.rows) && after.jobs[j].plan == t.jobs[j].plan
    requires t.jobs[j].status == WaitingApproval ==> after.jobs[j] == t.jobs[j]
    ensures HasOrigin(cfg, after, j)
  {
    var r, rule, route, view :| OriginIs(cfg, t, j, r, rule, route, view);
    assert OriginIs(cfg, after, j, r, rule, route, view);
  }

  lemma DraftHasOrigin(cfg: Config, t: Tables, batch: seq<nat>, c: PlanContext, tenant: string, project: string,
                       now: Time, j: JobId)
    requires BatchInRange(batch, t.inbox.rows) && c.rules == cfg.rules
    requires |t.jobs| <= j < |DrainRows(t, batch, c, tenant, project, now).jobs|
    ensures HasOrigin(cfg, DrainRows(t, batch, c, tenant, project, now), j)
  {
    var after := DrainRows(t, batch, c, tenant, project, now);
    DrainDrafts(t, batch, c, tenant, project, now);
    DrainMarks(t, batch, c, tenant, project, now);
    var i :| 0 <= i < |batch| && DraftedFor(after.jobs[j], t.inbox.rows[batch[i]].event, c, tenant, project, now);
    var e := t.inbox.rows[batch[i]].event;
    var rule, route :| rule in c.rules(e.accountId) && Admits(rule, e) && route in rule.targets
                       && Drafted(after.jobs[j], e, rule, route, c.view, tenant, project, now);
    assert batch[i] in batch;
    assert OriginIs(cfg, after, j, batch[i], rule, route, c.view);
  }

  /** A step leaves the keys and plans of old jobs alone. */
  lemma StepPlans(cfg: Config, s: System, step: Step, j: JobId)
    requires j < |s.tables.jobs|
    ensures j < |Apply(cfg, s, step).tables.jobs|
    ensures Apply(cfg, s, step).tables.jobs[j].key == s.tables.jobs[j].key
    ensures Apply(cfg, s, step).tables.jobs[j].plan == s.tables.jobs[j].plan
  {
    if step.Drain? {
      if Apply(cfg, s, step) != s {
        DrainAppends(s.tables, s.workers[step.w].pc.batch, PlanContext(cfg.rules, step.view, step.pick), step.tenant,
                     step.project, step.now);
      }
    } else if !step.PlatformInsert? && !step.Arrive? {
      QuietKeys(cfg, s, step);
    }
  }

  lemma StepOrigin(cfg: Config, s: System, step: Step, j: JobId)
    requires j < |Apply(cfg, s, step).tables.jobs|
    requires j < |s.tables.jobs| ==> HasOrigin(cfg, s.tables, j)
    requires !Inserts(step, Apply(cfg, s, step).tables.jobs[j].key)
    ensures HasOrigin(cfg, Apply(cfg, s, step).tables, j)
  {
    var t := Apply(cfg, s, step);
    if j < |s.tables.jobs| {
      StepPlans(cfg, s, step, j);
      StepKeys(cfg, s, step, "");
      StepFollowsEdges(cfg, s, step, j);
      OriginStays(cfg, s.tables, t.tables, j);
    } else if step.Drain? {
      DraftHasOrigin(cfg, s.tables, s.workers[step.w].pc.batch, PlanContext(cfg.rules, step.view, step.pick),
                     step.tenant, step.project, step.now, j);
    } else if !step.PlatformInsert? && !step.Arrive? {
      QuietKeys(cfg, s, step);
    }
  }

  lemma {:induction false} EveryJobHasOrigin(cfg: Config, steps: seq<Step>, j: JobId)
    requires j < |Run(cfg, INITIAL, steps).tables.jobs|
    requires !Inserted(steps, Run(cfg, INITIAL, steps).tables.jobs[j].key)
    ensures HasOrigin(cfg, Run(cfg, INITIAL, steps).tables, j)
  {
    if steps != [] {
      var front, last := steps[..|steps| - 1], steps[|steps| - 1];
      var before := Run(cfg, INITIAL, front);
      assert steps == front + [last];
      if j < |before.tables.jobs| {
        StepPlans(cfg, before, last, j);
        InsertedPush(front, last, before.tables.jobs[j].key);
        EveryJobHasOrigin(cfg, front, j);
      } else {
        InsertedPush(front, last, Run(cfg, INITIAL, steps).tables.jobs[j].key);
      }
      StepOrigin(cfg, before, last, j);
    }
  }

  /** In every run, a job under a key that the platform never inserted carries out what a published rule asks of a
      processed row - and if that rule wants the message reviewed, the job still waits for approval and no transport
      call has been made for it. */
  lemma {:induction false} UnreviewedIsNeverSent(cfg: Config, steps: seq<Step>, j: JobId)
    requires j < |Run(cfg, INITIAL, steps).tables.jobs|
    requires !Inserted(steps, Run(cfg, INITIAL, steps).tables.jobs[j].key)
    ensures var s := Run(cfg, INITIAL, steps);
            exists r: nat, rule, route, view ::
              && OriginIs(cfg, s.tables, j, r, rule, route, view)
              && (NeedsReview(rule, s.tables.inbox.rows[r].event) ==>
                    s.tables.jobs[j].status == WaitingApproval && CallsFor(s.calls, j) == 0)
              && (s.tables.jobs[j].plan.requiresApproval <==> NeedsReview(rule, s.tables.inbox.rows[r].event))
  {
    var s := Run(cfg, INITIAL, steps);
    EveryJobHasOrigin(cfg, steps, j);
    TransportCallsBounded(cfg, steps, j);
    var r, rule, route, view :| OriginIs(cfg, s.tables, j, r, rule, route, view);
  }
}
