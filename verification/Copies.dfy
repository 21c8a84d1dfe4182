/** From a published rule row to the messages copied for it: what the rule expansion of runtime/worker/host.py and the
    planner do together, in terms of the row, its target and the event. */
module Copies {
  import opened Text
  import opened Planner

  /** The target watches the chat and topic of the event, and its filters and the row's switches let the event pass. */
  ghost predicate Watches(row: SnapshotRow, t: TargetRow, e: SourceEvent) {
    && t.sourceChatId == e.sourceChatId && (t.sourceTopicId == None || t.sourceTopicId == e.topicId)
    && !e.isProtected
    && (e.kind == Create ==> AdmitsAuthor([t.filters], e) && AdmitsMedia([t.filters], e))
    && (e.kind == Edit ==> row.syncEdit && row.mode == Copy)
    && (e.kind == Delete ==> row.syncDelete)
  }

  predicate Alive(sender: string, dead: set<string>) {
    sender != "" && sender !in dead
  }

  /** The plan copies the event to the target as the row says; a new message is sent by one of the row's living
      senders, and by the account that listens only when there is none. */
  ghost predicate CopiesTo(p: DeliveryPlan, row: SnapshotRow, t: TargetRow, e: SourceEvent, account: string,
                           dead: set<string>)
  {
    && p.ruleId == row.ruleId && p.ruleVersion == row.version && p.mode == row.mode
    && p.routeId == t.routeId && p.targetChatId == t.targetChatId && p.targetTopicId == t.targetTopicId
    && (p.kind == Send <==> e.kind == Create) && (p.kind == EditTarget <==> e.kind == Edit)
    && (p.requiresApproval <==> row.approvalPolicy == MessageReview && e.kind == Create)
    && (p.transform <==> row.transform && e.kind != Delete)
    && p.fetchAccountId == Some(account)
    && (e.kind == Create ==>
          || (p.accountId in row.senders && Alive(p.accountId, dead))
          || (p.accountId == account && forall s :: s in row.senders ==> !Alive(s, dead)))
  }

  /** The rule is the row's own for one target, in one of the two spellings of the chat's scope. */
  ghost predicate Expands(rule: RuleSnapshot, row: SnapshotRow, t: TargetRow, account: string, dead: set<string>) {
    exists c :: c in {Broadcast, SmallGroup} && rule == SnapshotOf(row, t, c, account, dead)
  }

  lemma {:induction false} LiveSendersAreAlive(senders: seq<string>, dead: set<string>, s: string)
    ensures s in LiveSenders(senders, dead) <==> s in senders && Alive(s, dead)
  {
    if senders != [] {
      LiveSendersAreAlive(senders[1..], dead, s);
      assert senders == [senders[0]] + senders[1..];
    }
  }

  lemma {:induction false} TargetExpands(row: SnapshotRow, targets: seq<TargetRow>, account: string, dead: set<string>)
    ensures forall rule :: rule in TargetSnapshots(row, targets, account, dead) ==>
              exists t :: t in targets && Expands(rule, row, t, account, dead)
  {
    if targets != [] {
      var front, t := targets[..|targets| - 1], targets[|targets| - 1];
      TargetExpands(row, front, account, dead);
      forall rule | rule in TargetSnapshots(row, targets, account, dead)
        ensures exists t :: t in targets && Expands(rule, row, t, account, dead)
      {
        if rule in TargetSnapshots(row, front, account, dead) {
          var u :| u in front && Expands(rule, row, u, account, dead);
          assert u in targets;
        } else {
          assert t in targets && Expands(rule, row, t, account, dead);
        }
      }
    }
  }

  ghost predicate ExpandsSome(rule: RuleSnapshot, rows: seq<SnapshotRow>, account: string, dead: set<string>) {
    exists row, t :: row in rows && t in row.targets && Expands(rule, row, t, account, dead)
  }

  lemma {:induction false} RulesExpand(rows: seq<SnapshotRow>, account: string, dead: set<string>)
    ensures forall rule :: rule in AccountRules(rows, account, dead) ==> ExpandsSome(rule, rows, account, dead)
  {
    if rows != [] {
      var front, row := rows[..|rows| - 1], rows[|rows| - 1];
      RulesExpand(front, account, dead);
      TargetExpands(row, row.targets, account, dead);
      forall rule | rule in AccountRules(rows, account, dead)
        ensures ExpandsSome(rule, rows, account, dead)
      {
        if rule in AccountRules(front, account, dead) {
          var r, t :| r in front && t in r.targets && Expands(rule, r, t, account, dead);
          assert r in rows;
        } else {
          var t :| t in row.targets && Expands(rule, row, t, account, dead);
          assert row in rows;
        }
      }
    }
  }

  /** One spelling admits exactly the events that the target watches and that come in this spelling. */
  lemma SpellingAdmits(row: SnapshotRow, t: TargetRow, c: ChatClass, account: string, dead: set<string>, e: SourceEvent,
                       seen: ChatClass)
    requires e.accountId == account && e.sourceScope == SourceScopeFor(seen, e.sourceChatId, account)
    ensures Admits(SnapshotOf(row, t, c, account, dead), e) <==>
              Watches(row, t, e) && (c == Broadcast <==> seen == Broadcast)
  {
    SourceScopeSeparatesViews(seen, e.sourceChatId, account, c, t.sourceChatId, account);
  }

  lemma SaysCopies(p: DeliveryPlan, e: SourceEvent, row: SnapshotRow, t: TargetRow, c: ChatClass, account: string,
                   dead: set<string>, view: MappingView)
    requires var rule := SnapshotOf(row, t, c, account, dead); Says(p, e, rule, rule.targets[0], view)
    ensures CopiesTo(p, row, t, e, account, dead)
  {
    var pool := LiveSenders(row.senders, dead);
    LiveSendersAreAlive(row.senders, dead, p.accountId);
    forall s | s in row.senders && pool == []
      ensures !Alive(s, dead)
    {
      LiveSendersAreAlive(row.senders, dead, s);
    }
  }

  /** Every plan of an event copies it to a target of a published row that watches it. */
  lemma {:induction false} PlansCopy(e: SourceEvent, rows: seq<SnapshotRow>, account: string, dead: set<string>,
                                     seen: ChatClass, view: MappingView, pick: Picker, p: DeliveryPlan)
    requires e.accountId == account && e.sourceScope == SourceScopeFor(seen, e.sourceChatId, account)
    requires p in Plans(e, AccountRules(rows, account, dead), view, pick)
    ensures exists row, t ::
              row in rows && t in row.targets && Watches(row, t, e) && CopiesTo(p, row, t, e, account, dead)
  {
    var rules := AccountRules(rows, account, dead);
    PlansSay(e, rules, view, pick);
    var rule, route :| rule in rules && Admits(rule, e) && route in rule.targets && Says(p, e, rule, route, view);
    RulesExpand(rows, account, dead);
    var row, t :| row in rows && t in row.targets && Expands(rule, row, t, account, dead);
    var c :| c in {Broadcast, SmallGroup} && rule == SnapshotOf(row, t, c, account, dead);
    SpellingAdmits(row, t, c, account, dead, e, seen);
    SaysCopies(p, e, row, t, c, account, dead, view);
  }

  lemma {:induction false} SpellingListed(row: SnapshotRow, targets: seq<TargetRow>, t: TargetRow, c: ChatClass,
                                          account: string, dead: set<string>)
    requires t in targets && c in {Broadcast, SmallGroup}
    ensures SnapshotOf(row, t, c, account, dead) in TargetSnapshots(row, targets, account, dead)
  {
    var front, last := targets[..|targets| - 1], targets[|targets| - 1];
    if t in front {
      SpellingListed(row, front, t, c, account, dead);
    } else {
      var both := Spellings(row, t, account, dead);
      assert both[0] in both && both[1] in both;
    }
  }

  lemma {:induction false} RuleListed(rows: seq<SnapshotRow>, row: SnapshotRow, t: TargetRow, c: ChatClass,
                                      account: string, dead: set<string>)
    requires row in rows && t in row.targets && c in {Broadcast, SmallGroup}
    ensures SnapshotOf(row, t, c, account, dead) in AccountRules(rows, account, dead)
  {
    var front, last := rows[..|rows| - 1], rows[|rows| - 1];
    if row in front {
      RuleListed(front, row, t, c, account, dead);
    } else {
      SpellingListed(row, row.targets, t, c, account, dead);
    }
  }

  /** And every target of a published row that watches the event gets its copy, whatever class the chat has. */
  lemma {:induction false} WatchersGetCopies(e: SourceEvent, rows: seq<SnapshotRow>, account: string, dead: set<string>,
                                             seen: ChatClass, view: MappingView, pick: Picker, row: SnapshotRow,
                                             t: TargetRow)
    requires e.accountId == account && e.sourceScope == SourceScopeFor(seen, e.sourceChatId, account)
    requires row in rows && t in row.targets && Watches(row, t, e)
    ensures exists p ::
              p in Plans(e, AccountRules(rows, account, dead), view, pick) && CopiesTo(p, row, t, e, account, dead)
  {
    var c := if seen == Broadcast then Broadcast else SmallGroup;
    var rule := SnapshotOf(row, t, c, account, dead);
    RuleListed(rows, row, t, c, account, dead);
    SpellingAdmits(row, t, c, account, dead, e, seen);
    RoutesArePlanned(e, AccountRules(rows, account, dead), view, pick, rule, 0);
    var p :| p in Plans(e, AccountRules(rows, account, dead), view, pick) && Says(p, e, rule, rule.targets[0], view);
    SaysCopies(p, e, row, t, c, account, dead, view);
  }
}
