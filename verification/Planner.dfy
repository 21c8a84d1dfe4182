/** Normalized events, published rules and the clone planner (runtime/planner, runtime/ingest/normalizer.py). */
module Planner {
  import opened Text

  datatype EventKind = Create | Edit | Delete

  datatype CloneMode = Copy | Forward

  datatype ApprovalPolicy = RuleAuthorized | MessageReview

  datatype SourceEvent = SourceEvent(
    kind: EventKind,
    sourceScope: string,
    sourceChatId: int,
    sourceMessageId: int,
    revision: int,
    accountId: string,
    groupedId: Option<int>,
    payloadRef: Option<string>,
    payloadHash: Option<string>,
    replyToSourceId: Option<int>,
    topicId: Option<int>,
    isProtected: bool,
    senderId: Option<int>,
    mediaKind: Option<string>,
    senderIsBot: bool)

  datatype RouteTarget = RouteTarget(routeId: string, targetChatId: int, targetTopicId: Option<int>)

  /** One filter dictionary; an empty collection is the same as an absent entry. */
  datatype Filter = Filter(
    senderUserIds: set<int>,
    blockedSenderIds: set<int>,
    mediaKinds: set<string>,
    excludeBots: bool)

  datatype RuleSnapshot = RuleSnapshot(
    ruleId: string,
    version: int,
    accountId: string,
    sourceScope: string,
    sourceChatId: int,
    sourceTopicId: Option<int>,
    targets: seq<RouteTarget>,
    mode: CloneMode,
    syncEdit: bool,
    syncDelete: bool,
    approvalPolicy: ApprovalPolicy,
    filters: seq<Filter>,
    senderAccountIds: seq<string>,
    transform: bool)

  datatype PlanKind = Send | EditTarget | DeleteTarget | Tombstone

  datatype DeliveryPlan = DeliveryPlan(
    kind: PlanKind,
    ruleId: string,
    ruleVersion: int,
    routeId: string,
    accountId: string,
    sourceScope: string,
    sourceChatId: int,
    sourceMessageId: int,
    revision: int,
    targetChatId: int,
    targetTopicId: Option<int>,
    mode: CloneMode,
    payloadRef: Option<string>,
    payloadHash: Option<string>,
    requiresApproval: bool,
    replyToTargetMessageId: Option<int>,
    groupedId: Option<int>,
    fetchAccountId: Option<string>,
    transform: bool)

  /** The message map as prefetched for one drain batch. */
  datatype RouteSource = RouteSource(routeId: string, sourceScope: string, sourceChatId: int, sourceMessageId: int)

  datatype MappedMessage = MappedMessage(targetMessageId: int, senderAccountId: string)

  type MappingView = map<RouteSource, MappedMessage>

  /** The random draw of a sender: any function of what is being planned. */
  type Picker = (SourceEvent, RuleSnapshot, RouteTarget) -> nat

  // ---------- keys ----------

  function EventKindText(kind: EventKind): (s: string)
    ensures NoColon(s)
  {
    match kind
    case Create => "create"
    case Edit => "edit"
    case Delete => "delete"
  }

  function PlanKindText(kind: PlanKind): (s: string)
    ensures NoColon(s)
  {
    match kind
    case Send => "send"
    case EditTarget => "edit"
    case DeleteTarget => "delete"
    case Tombstone => "tombstone"
  }

  /** Scope, chat and message of one source message, as both keys spell them. */
  function SourceText(scope: string, chatId: int, messageId: int): string {
    scope + ":" + IntText(chatId) + ":" + IntText(messageId)
  }

  function DedupKey(e: SourceEvent): string {
    SourceText(e.sourceScope, e.sourceChatId, e.sourceMessageId)
    + ":" + EventKindText(e.kind) + ":" + IntText(e.revision)
  }

  function ActionKey(ruleId: string, routeId: string, scope: string, chatId: int, messageId: int, revision: int,
                     kind: PlanKind): string
  {
    ruleId + ":" + (routeId + ":" +
    (SourceText(scope, chatId, messageId) + ":" + IntText(revision) + ":" + PlanKindText(kind)))
  }

  function IdempotencyKey(p: DeliveryPlan): string {
    ActionKey(p.ruleId, p.routeId, p.sourceScope, p.sourceChatId, p.sourceMessageId, p.revision, p.kind)
  }

  /** The five columns of the inbox's unique constraint. */
  predicate SameEvent(e: SourceEvent, f: SourceEvent) {
    && e.sourceScope == f.sourceScope
    && e.sourceChatId == f.sourceChatId
    && e.sourceMessageId == f.sourceMessageId
    && e.kind == f.kind
    && e.revision == f.revision
  }

  /** The same business action: one rule, one route, one revision of one source message. */
  predicate SameAction(p: DeliveryPlan, q: DeliveryPlan) {
    && p.ruleId == q.ruleId
    && p.routeId == q.routeId
    && p.sourceScope == q.sourceScope
    && p.sourceChatId == q.sourceChatId
    && p.sourceMessageId == q.sourceMessageId
    && p.revision == q.revision
    && p.kind == q.kind
  }

  lemma SourceTextInjective(s: string, c: int, m: int, s': string, c': int, m': int)
    requires SourceText(s, c, m) == SourceText(s', c', m')
    ensures s == s' && c == c' && m == m'
  {
    SplitLast(s + ":" + IntText(c), IntText(m), s' + ":" + IntText(c'), IntText(m'));
    SplitLast(s, IntText(c), s', IntText(c'));
    IntTextInjective(c, c');
    IntTextInjective(m, m');
  }

  /** The scope may hold any number of colons: the event key still tells all five columns apart. */
  lemma DedupKeyInjective(e: SourceEvent, f: SourceEvent)
    ensures DedupKey(e) == DedupKey(f) <==> SameEvent(e, f)
  {
    if DedupKey(e) == DedupKey(f) {
      var x := SourceText(e.sourceScope, e.sourceChatId, e.sourceMessageId);
      var y := SourceText(f.sourceScope, f.sourceChatId, f.sourceMessageId);
      SplitLast(x + ":" + EventKindText(e.kind), IntText(e.revision), y + ":" + EventKindText(f.kind),
                IntText(f.revision));
      SplitLast(x, EventKindText(e.kind), y, EventKindText(f.kind));
      SourceTextInjective(e.sourceScope, e.sourceChatId, e.sourceMessageId, f.sourceScope, f.sourceChatId,
                          f.sourceMessageId);
      IntTextInjective(e.revision, f.revision);
    }
  }

  lemma IdempotencyKeyInjective(p: DeliveryPlan, q: DeliveryPlan)
    requires NoColon(p.ruleId) && NoColon(p.routeId) && NoColon(q.ruleId) && NoColon(q.routeId)
    ensures IdempotencyKey(p) == IdempotencyKey(q) <==> SameAction(p, q)
  {
    if IdempotencyKey(p) == IdempotencyKey(q) {
      var x := SourceText(p.sourceScope, p.sourceChatId, p.sourceMessageId);
      var y := SourceText(q.sourceScope, q.sourceChatId, q.sourceMessageId);
      var xr, yr := x + ":" + IntText(p.revision), y + ":" + IntText(q.revision);
      var xt, yt := xr + ":" + PlanKindText(p.kind), yr + ":" + PlanKindText(q.kind);
      SplitFirst(p.ruleId, p.routeId + ":" + xt, q.ruleId, q.routeId + ":" + yt);
      SplitFirst(p.routeId, xt, q.routeId, yt);
      SplitLast(xr, PlanKindText(p.kind), yr, PlanKindText(q.kind));
      SplitLast(x, IntText(p.revision), y, IntText(q.revision));
      SourceTextInjective(p.sourceScope, p.sourceChatId, p.sourceMessageId, q.sourceScope, q.sourceChatId,
                          q.sourceMessageId);
      IntTextInjective(p.revision, q.revision);
    }
  }

  /** Without the colon-free ids the key does confuse two different actions. */
  lemma ColonInRuleIdCollides()
    ensures ActionKey("a", "b:c", "s", 1, 2, 3, Send) == ActionKey("a:b", "c", "s", 1, 2, 3, Send)
  {
    var t := SourceText("s", 1, 2) + ":" + IntText(3) + ":" + PlanKindText(Send);
    assert "a" + ":" + ("b:c" + ":" + t) == "a:b" + ":" + ("c" + ":" + t);
  }

  // ---------- normalizer ----------

  datatype ChatClass = Broadcast | SmallGroup | Private

  /** What follows "peer:" in a scope. */
  function ViewText(chatClass: ChatClass, chatId: int, accountId: string): string {
    if chatClass == Broadcast then IntText(chatId) else IntText(chatId) + ":" + ("acct:" + accountId)
  }

  function SourceScopeFor(chatClass: ChatClass, chatId: int, accountId: string): string {
    "peer:" + ViewText(chatClass, chatId, accountId)
  }

  /** The two spellings: the chat alone for a broadcast peer, and with the receiving account for any other. */
  lemma ScopeSpelled(c: int, a: string)
    ensures SourceScopeFor(Broadcast, c, a) == "peer:" + IntText(c)
    ensures SourceScopeFor(SmallGroup, c, a) == SourceScopeFor(Private, c, a) == "peer:" + IntText(c) + ":acct:" + a
  {
    assert ":" + ("acct:" + a) == ":acct:" + a;
  }

  lemma SamePrefix(p: string, x: string, y: string)
    requires p + x == p + y
    ensures x == y
  {
    assert x == (p + x)[|p|..] && y == (p + y)[|p|..];
  }

  lemma ViewColon(k: ChatClass, c: int, a: string)
    ensures NoColon(ViewText(k, c, a)) <==> k == Broadcast
  {
    if k != Broadcast {
      assert ViewText(k, c, a)[|IntText(c)|] == ':';
    }
  }

  /** Two peers share a scope exactly when they are the same chat seen the same way:
      broadcast peers in one canonical view, all others per receiving account. */
  lemma SourceScopeSeparatesViews(k: ChatClass, c: int, a: string, k': ChatClass, c': int, a': string)
    ensures SourceScopeFor(k, c, a) == SourceScopeFor(k', c', a')
       <==> c == c' && (k == Broadcast <==> k' == Broadcast) && (k == Broadcast || a == a')
  {
    if SourceScopeFor(k, c, a) == SourceScopeFor(k', c', a') {
      SamePrefix("peer:", ViewText(k, c, a), ViewText(k', c', a'));
      ViewColon(k, c, a);
      ViewColon(k', c', a');
      if k != Broadcast {
        SplitFirst(IntText(c), "acct:" + a, IntText(c'), "acct:" + a');
        SamePrefix("acct:", a, a');
      }
      IntTextInjective(c, c');
    }
  }

  // ---------- planning ----------

  predicate MatchesRule(e: SourceEvent, rule: RuleSnapshot) {
    && e.accountId == rule.accountId
    && e.sourceScope == rule.sourceScope
    && e.sourceChatId == rule.sourceChatId
    && (rule.sourceTopicId.Some? ==> e.topicId == rule.sourceTopicId)
    && !e.isProtected
  }

  function SenderWhitelist(filters: seq<Filter>): set<int> {
    set f, id | f in filters && id in f.senderUserIds :: id
  }

  function SenderBlacklist(filters: seq<Filter>): set<int> {
    set f, id | f in filters && id in f.blockedSenderIds :: id
  }

  function MediaWhitelist(filters: seq<Filter>): set<string> {
    set f, k | f in filters && k in f.mediaKinds :: k
  }

  function CoarseMediaKind(e: SourceEvent): string {
    if e.mediaKind.None? || e.mediaKind.value == "" then "text" else e.mediaKind.value
  }

  predicate PassesFilters(e: SourceEvent, rule: RuleSnapshot) {
    && !(e.senderIsBot && exists f :: f in rule.filters && f.excludeBots)
    && !(e.senderId.Some? && e.senderId.value in SenderBlacklist(rule.filters))
    && (SenderWhitelist(rule.filters) != {} ==>
          e.senderId.Some? && e.senderId.value in SenderWhitelist(rule.filters))
    && (MediaWhitelist(rule.filters) != {} ==> CoarseMediaKind(e) in MediaWhitelist(rule.filters))
  }

  function KindFor(kind: EventKind): PlanKind {
    match kind
    case Create => Send
    case Edit => EditTarget
    case Delete => DeleteTarget
  }

  /** The rule wants this event at all: the match, the create-only filters and the sync switches. */
  predicate Wanted(e: SourceEvent, rule: RuleSnapshot) {
    && MatchesRule(e, rule)
    && (e.kind == Create ==> PassesFilters(e, rule))
    && Syncs(e, rule)
  }

  predicate Syncs(e: SourceEvent, rule: RuleSnapshot) {
    && (e.kind == Edit ==> rule.syncEdit && rule.mode != Forward)
    && (e.kind == Delete ==> rule.syncDelete)
  }

  function SenderPool(rule: RuleSnapshot): (pool: seq<string>)
    ensures pool != []
  {
    if rule.senderAccountIds == [] then [rule.accountId] else rule.senderAccountIds
  }

  function SenderFor(e: SourceEvent, rule: RuleSnapshot, route: RouteTarget, view: MappingView, pick: Picker): string {
    var pool := SenderPool(rule);
    var source := RouteSource(route.routeId, e.sourceScope, e.sourceChatId, e.sourceMessageId);
    if e.kind == Create then pool[pick(e, rule, route) % |pool|]
    else if source in view && view[source].senderAccountId != "" then view[source].senderAccountId
    else pool[0]
  }

  function PlanForRoute(e: SourceEvent, rule: RuleSnapshot, route: RouteTarget, view: MappingView,
                        pick: Picker): DeliveryPlan {
    var replySource := RouteSource(route.routeId, e.sourceScope, e.sourceChatId,
                                   if e.replyToSourceId.Some? then e.replyToSourceId.value else 0);
    DeliveryPlan(
      KindFor(e.kind), rule.ruleId, rule.version, route.routeId,
      SenderFor(e, rule, route, view, pick),
      e.sourceScope, e.sourceChatId, e.sourceMessageId, e.revision,
      route.targetChatId, route.targetTopicId, rule.mode, e.payloadRef, e.payloadHash,
      rule.approvalPolicy == MessageReview && e.kind == Create,
      if e.replyToSourceId.Some? && replySource in view then Some(view[replySource].targetMessageId) else None,
      e.groupedId, Some(rule.accountId), rule.transform && e.kind != Delete)
  }

  function PlansForRoutes(e: SourceEvent, rule: RuleSnapshot, routes: seq<RouteTarget>, view: MappingView,
                          pick: Picker): seq<DeliveryPlan>
  {
    seq(|routes|, i requires 0 <= i < |routes| => PlanForRoute(e, rule, routes[i], view, pick))
  }

  function PlansOfRule(e: SourceEvent, rule: RuleSnapshot, view: MappingView, pick: Picker): seq<DeliveryPlan> {
    if Wanted(e, rule) then PlansForRoutes(e, rule, rule.targets, view, pick) else []
  }

  function Plans(e: SourceEvent, rules: seq<RuleSnapshot>, view: MappingView, pick: Picker): seq<DeliveryPlan> {
    if rules == [] then []
    else
      Plans(e, rules[..|rules| - 1], view, pick) + PlansOfRule(e, rules[|rules| - 1], view, pick)
  }

  lemma PlansPush(e: SourceEvent, rules: seq<RuleSnapshot>, rule: RuleSnapshot, view: MappingView, pick: Picker)
    ensures Plans(e, rules + [rule], view, pick) == Plans(e, rules, view, pick) + PlansOfRule(e, rule, view, pick)
  {
    assert (rules + [rule])[..|rules|] == rules;
  }

  /** ClonePlanner._plan_for_rule. */
  method PlanRule(e: SourceEvent, rule: RuleSnapshot, view: MappingView, pick: Picker)
    returns (plans: seq<DeliveryPlan>)
    ensures plans == if Syncs(e, rule) then PlansForRoutes(e, rule, rule.targets, view, pick) else []
  {
    if (e.kind == Edit && !rule.syncEdit) || (e.kind == Delete && !rule.syncDelete)
      || (e.kind == Edit && rule.mode == Forward) {
      return [];
    }
    plans := [];
    for i := 0 to |rule.targets|
      invariant plans == PlansForRoutes(e, rule, rule.targets, view, pick)[..i]
    {
      plans := plans + [PlanForRoute(e, rule, rule.targets[i], view, pick)];
    }
  }

  /** ClonePlanner.plan. */
  method PlanEvent(e: SourceEvent, rules: seq<RuleSnapshot>, view: MappingView, pick: Picker)
    returns (plans: seq<DeliveryPlan>)
    ensures plans == Plans(e, rules, view, pick)
  {
    plans := [];
    for n := 0 to |rules|
      invariant plans == Plans(e, rules[..n], view, pick)
    {
      var rule := rules[n];
      PlansPush(e, rules[..n], rule, view, pick);
      assert rules[..n + 1] == rules[..n] + [rule];
      if !MatchesRule(e, rule) || (e.kind == Create && !PassesFilters(e, rule)) {
        continue;
      }
      var more := PlanRule(e, rule, view, pick);
      plans := plans + more;
    }
    assert rules[..|rules|] == rules;
  }

  ghost function KeyFor(e: SourceEvent, rule: RuleSnapshot, route: RouteTarget): string {
    ActionKey(rule.ruleId, route.routeId, e.sourceScope, e.sourceChatId, e.sourceMessageId, e.revision, KindFor(e.kind))
  }

  /** The keys an event must produce, read off the published rules alone. */
  ghost function WantedKeys(e: SourceEvent, rules: seq<RuleSnapshot>): set<string> {
    set rule, route | rule in rules && Wanted(e, rule) && route in rule.targets :: KeyFor(e, rule, route)
  }

  ghost function KeysOf(plans: seq<DeliveryPlan>): set<string> {
    set p | p in plans :: IdempotencyKey(p)
  }

  lemma PlanKey(e: SourceEvent, rule: RuleSnapshot, route: RouteTarget, view: MappingView, pick: Picker)
    ensures IdempotencyKey(PlanForRoute(e, rule, route, view, pick)) == KeyFor(e, rule, route)
  {}

  ghost function RouteKeySet(e: SourceEvent, rule: RuleSnapshot): set<string> {
    set route | route in rule.targets :: KeyFor(e, rule, route)
  }

  lemma PlannedFromRoute(e: SourceEvent, rule: RuleSnapshot, view: MappingView, pick: Picker, p: DeliveryPlan)
    requires p in PlansForRoutes(e, rule, rule.targets, view, pick)
    ensures IdempotencyKey(p) in RouteKeySet(e, rule)
  {
    var plans := PlansForRoutes(e, rule, rule.targets, view, pick);
    var i :| 0 <= i < |plans| && plans[i] == p;
    PlanKey(e, rule, rule.targets[i], view, pick);
  }

  lemma RouteIsPlanned(e: SourceEvent, rule: RuleSnapshot, view: MappingView, pick: Picker, route: RouteTarget)
    requires route in rule.targets
    ensures KeyFor(e, rule, route) in KeysOf(PlansForRoutes(e, rule, rule.targets, view, pick))
  {
    var i :| 0 <= i < |rule.targets| && rule.targets[i] == route;
    PlanKey(e, rule, route, view, pick);
    assert PlansForRoutes(e, rule, rule.targets, view, pick)[i] == PlanForRoute(e, rule, route, view, pick);
  }

  lemma RouteKeys(e: SourceEvent, rule: RuleSnapshot, view: MappingView, pick: Picker)
    ensures KeysOf(PlansForRoutes(e, rule, rule.targets, view, pick)) == RouteKeySet(e, rule)
  {
    var plans := PlansForRoutes(e, rule, rule.targets, view, pick);
    forall p | p in plans
      ensures IdempotencyKey(p) in RouteKeySet(e, rule)
    {
      PlannedFromRoute(e, rule, view, pick, p);
    }
    forall route | route in rule.targets
      ensures KeyFor(e, rule, route) in KeysOf(plans)
    {
      RouteIsPlanned(e, rule, view, pick, route);
    }
  }

  lemma KeysOfAppend(ps: seq<DeliveryPlan>, qs: seq<DeliveryPlan>)
    ensures KeysOf(ps + qs) == KeysOf(ps) + KeysOf(qs)
  {}

  lemma WantedKeysLast(e: SourceEvent, rules: seq<RuleSnapshot>)
    requires rules != []
    ensures var rule := rules[|rules| - 1];
            WantedKeys(e, rules) == WantedKeys(e, rules[..|rules| - 1])
                                    + if Wanted(e, rule) then RouteKeySet(e, rule) else {}
  {
    var front, rule := rules[..|rules| - 1], rules[|rules| - 1];
    assert forall r :: r in rules <==> r in front || r == rule;
  }

  lemma PlansLast(e: SourceEvent, rules: seq<RuleSnapshot>, view: MappingView, pick: Picker)
    requires rules != []
    ensures KeysOf(Plans(e, rules, view, pick)) == KeysOf(Plans(e, rules[..|rules| - 1], view, pick))
                                                   + KeysOf(PlansOfRule(e, rules[|rules| - 1], view, pick))
  {
    KeysOfAppend(Plans(e, rules[..|rules| - 1], view, pick), PlansOfRule(e, rules[|rules| - 1], view, pick));
  }

  lemma KeysOfRule(e: SourceEvent, rule: RuleSnapshot, view: MappingView, pick: Picker)
    ensures KeysOf(PlansOfRule(e, rule, view, pick)) == if Wanted(e, rule) then RouteKeySet(e, rule) else {}
  {
    RouteKeys(e, rule, view, pick);
  }

  /** Neither the message map nor the random sender changes which keys are planned. */
  lemma {:induction false} PlannedKeysAreWantedKeys(e: SourceEvent, rules: seq<RuleSnapshot>, view: MappingView,
                                                    pick: Picker)
    ensures KeysOf(Plans(e, rules, view, pick)) == WantedKeys(e, rules)
  {
    if rules != [] {
      PlannedKeysAreWantedKeys(e, rules[..|rules| - 1], view, pick);
      KeysOfRule(e, rules[|rules| - 1], view, pick);
      WantedKeysLast(e, rules);
      PlansLast(e, rules, view, pick);
    }
  }

  // ---------- what is planned, in terms of event, rule and route ----------

  /** The rule is about this event: the chat as the account sees it, the topic if there is one, nothing protected;
      new messages pass every filter, edits are synchronised in copy mode only, deletes when asked for. */
  ghost predicate Admits(rule: RuleSnapshot, e: SourceEvent) {
    && e.accountId == rule.accountId && e.sourceScope == rule.sourceScope && e.sourceChatId == rule.sourceChatId
    && (rule.sourceTopicId == None || rule.sourceTopicId == e.topicId)
    && !e.isProtected
    && match e.kind
       case Create => AdmitsAuthor(rule.filters, e) && AdmitsMedia(rule.filters, e)
       case Edit => rule.syncEdit && rule.mode == Copy
       case Delete => rule.syncDelete
  }

  /** No filter turns the author away, and some filter that lists authors lists this one, if any lists authors. */
  ghost predicate AdmitsAuthor(filters: seq<Filter>, e: SourceEvent) {
    && (forall f :: f in filters ==>
          !(f.excludeBots && e.senderIsBot) && forall id :: id in f.blockedSenderIds ==> e.senderId != Some(id))
    && ((forall f :: f in filters ==> f.senderUserIds == {})
        || exists f, id :: f in filters && id in f.senderUserIds && e.senderId == Some(id))
  }

  /** Some filter that lists kinds of media lists this one, if any lists kinds; a message without media is text. */
  ghost predicate AdmitsMedia(filters: seq<Filter>, e: SourceEvent) {
    || (forall f :: f in filters ==> f.mediaKinds == {})
    || exists f, k :: f in filters && k in f.mediaKinds
                      && k == if e.mediaKind.None? || e.mediaKind.value == "" then "text" else e.mediaKind.value
  }

  /** What the plan of one event for one route of a rule says. */
  ghost predicate Says(p: DeliveryPlan, e: SourceEvent, rule: RuleSnapshot, route: RouteTarget, view: MappingView) {
    && p.kind == (match e.kind case Create => Send case Edit => EditTarget case Delete => DeleteTarget)
    && p.ruleId == rule.ruleId && p.ruleVersion == rule.version && p.mode == rule.mode
    && p.routeId == route.routeId && p.targetChatId == route.targetChatId && p.targetTopicId == route.targetTopicId
    && p.sourceScope == e.sourceScope && p.sourceChatId == e.sourceChatId && p.sourceMessageId == e.sourceMessageId
    && p.revision == e.revision && p.groupedId == e.groupedId
    && p.payloadRef == e.payloadRef && p.payloadHash == e.payloadHash
    && p.fetchAccountId == Some(rule.accountId)
    && (p.requiresApproval <==> rule.approvalPolicy == MessageReview && e.kind == Create)
    && (p.transform <==> rule.transform && e.kind != Delete)
    && SentBy(p.accountId, e, rule, route, view)
    && RepliesTo(p.replyToTargetMessageId, e, route, view)
  }

  /** A new message is sent by one of the rule's senders; an edit or a delete by whoever sent the message to this
      route, and by the first sender when nobody is known to. */
  ghost predicate SentBy(account: string, e: SourceEvent, rule: RuleSnapshot, route: RouteTarget, view: MappingView) {
    var sent := RouteSource(route.routeId, e.sourceScope, e.sourceChatId, e.sourceMessageId);
    var known := sent in view && view[sent].senderAccountId != "";
    && (e.kind == Create || !known ==>
          if rule.senderAccountIds == [] then account == rule.accountId else account in rule.senderAccountIds)
    && (e.kind != Create && known ==> account == view[sent].senderAccountId)
    && (e.kind != Create && !known && rule.senderAccountIds != [] ==> account == rule.senderAccountIds[0])
  }

  /** A reply is a reply to what this route made of the message replied to, and to nothing when it made nothing. */
  ghost predicate RepliesTo(reply: Option<int>, e: SourceEvent, route: RouteTarget, view: MappingView) {
    match e.replyToSourceId
    case None => reply == None
    case Some(id) =>
      var sent := RouteSource(route.routeId, e.sourceScope, e.sourceChatId, id);
      if sent in view then reply == Some(view[sent].targetMessageId) else reply == None
  }

  lemma SomeMember<T>(s: set<T>) returns (x: T)
    requires s != {}
    ensures x in s
  {
    x :| x in s;
  }

  lemma AuthorFilters(e: SourceEvent, rule: RuleSnapshot)
    ensures AdmitsAuthor(rule.filters, e)
       <==> && !(e.senderIsBot && exists f :: f in rule.filters && f.excludeBots)
            && !(e.senderId.Some? && e.senderId.value in SenderBlacklist(rule.filters))
            && (SenderWhitelist(rule.filters) != {} ==>
                  e.senderId.Some? && e.senderId.value in SenderWhitelist(rule.filters))
  {
    if !(forall f :: f in rule.filters ==> f.senderUserIds == {}) {
      var f :| f in rule.filters && f.senderUserIds != {};
      var id := SomeMember(f.senderUserIds);
      assert id in SenderWhitelist(rule.filters);
    }
  }

  lemma MediaFilters(e: SourceEvent, rule: RuleSnapshot)
    ensures AdmitsMedia(rule.filters, e)
       <==> (MediaWhitelist(rule.filters) != {} ==> CoarseMediaKind(e) in MediaWhitelist(rule.filters))
  {
    var kind := CoarseMediaKind(e);
    if !(forall f :: f in rule.filters ==> f.mediaKinds == {}) {
      var f :| f in rule.filters && f.mediaKinds != {};
      var k := SomeMember(f.mediaKinds);
      assert k in MediaWhitelist(rule.filters);
    }
    if kind in MediaWhitelist(rule.filters) {
      var f :| f in rule.filters && kind in f.mediaKinds;
      assert AdmitsMedia(rule.filters, e);
    }
  }

  lemma WantedAdmits(e: SourceEvent, rule: RuleSnapshot)
    ensures Wanted(e, rule) <==> Admits(rule, e)
  {
    AuthorFilters(e, rule);
    MediaFilters(e, rule);
  }

  lemma PlanSays(e: SourceEvent, rule: RuleSnapshot, route: RouteTarget, view: MappingView, pick: Picker)
    ensures Says(PlanForRoute(e, rule, route, view, pick), e, rule, route, view)
  {
    var pool := SenderPool(rule);
    assert pool[pick(e, rule, route) % |pool|] in pool;
  }

  /** One rule: a plan for each of its routes, in order, when it admits the event, and none otherwise. */
  lemma RulePlansSay(e: SourceEvent, rule: RuleSnapshot, view: MappingView, pick: Picker)
    ensures var plans := PlansOfRule(e, rule, view, pick);
            && |plans| == (if Admits(rule, e) then |rule.targets| else 0)
            && forall i :: 0 <= i < |plans| ==> Says(plans[i], e, rule, rule.targets[i], view)
  {
    WantedAdmits(e, rule);
    forall i | 0 <= i < |PlansOfRule(e, rule, view, pick)|
      ensures Says(PlansOfRule(e, rule, view, pick)[i], e, rule, rule.targets[i], view)
    {
      PlanSays(e, rule, rule.targets[i], view, pick);
    }
  }

  ghost predicate SaysSome(p: DeliveryPlan, e: SourceEvent, rules: seq<RuleSnapshot>, view: MappingView) {
    exists rule, route :: rule in rules && Admits(rule, e) && route in rule.targets && Says(p, e, rule, route, view)
  }

  /** Every plan is one for a route of a rule that admits the event. */
  lemma {:induction false} PlansSay(e: SourceEvent, rules: seq<RuleSnapshot>, view: MappingView, pick: Picker)
    ensures forall p :: p in Plans(e, rules, view, pick) ==> SaysSome(p, e, rules, view)
  {
    if rules != [] {
      var front, rule := rules[..|rules| - 1], rules[|rules| - 1];
      PlansSay(e, front, view, pick);
      RulePlansSay(e, rule, view, pick);
      forall p | p in Plans(e, rules, view, pick)
        ensures SaysSome(p, e, rules, view)
      {
        if p in Plans(e, front, view, pick) {
          var r, route :| r in front && Admits(r, e) && route in r.targets && Says(p, e, r, route, view);
          assert r in rules;
        } else {
          var i :| 0 <= i < |PlansOfRule(e, rule, view, pick)| && PlansOfRule(e, rule, view, pick)[i] == p;
          assert rule in rules && rule.targets[i] in rule.targets && Says(p, e, rule, rule.targets[i], view);
        }
      }
    }
  }

  /** And every route of every rule that admits the event has its plan. */
  lemma {:induction false} RoutesArePlanned(e: SourceEvent, rules: seq<RuleSnapshot>, view: MappingView, pick: Picker,
                                            rule: RuleSnapshot, i: nat)
    requires rule in rules && Admits(rule, e) && i < |rule.targets|
    ensures exists p :: p in Plans(e, rules, view, pick) && Says(p, e, rule, rule.targets[i], view)
  {
    var front, last := rules[..|rules| - 1], rules[|rules| - 1];
    if rule in front {
      RoutesArePlanned(e, front, view, pick, rule, i);
      var p :| p in Plans(e, front, view, pick) && Says(p, e, rule, rule.targets[i], view);
      assert p in Plans(e, rules, view, pick);
    } else {
      RulePlansSay(e, rule, view, pick);
      assert PlansOfRule(e, rule, view, pick)[i] in Plans(e, rules, view, pick);
    }
  }

  /** The keys as they are written. */
  lemma KeysSpelled(e: SourceEvent, p: DeliveryPlan)
    ensures DedupKey(e) == e.sourceScope + ":" + IntText(e.sourceChatId) + ":" + IntText(e.sourceMessageId) + ":"
                           + (match e.kind case Create => "create" case Edit => "edit" case Delete => "delete")
                           + ":" + IntText(e.revision)
    ensures IdempotencyKey(p) == p.ruleId + ":" + p.routeId + ":" + p.sourceScope + ":" + IntText(p.sourceChatId) + ":"
                                 + IntText(p.sourceMessageId) + ":" + IntText(p.revision) + ":"
                                 + (match p.kind case Send => "send" case EditTarget => "edit"
                                    case DeleteTarget => "delete" case Tombstone => "tombstone")
  {
    KeyJoined(p.ruleId, p.routeId, p.sourceScope, IntText(p.sourceChatId), IntText(p.sourceMessageId),
              IntText(p.revision), PlanKindText(p.kind));
  }

  lemma KeyJoined(a: string, b: string, c: string, d: string, e: string, f: string, g: string)
    ensures a + ":" + (b + ":" + ((c + ":" + d + ":" + e) + ":" + f + ":" + g))
         == a + ":" + b + ":" + c + ":" + d + ":" + e + ":" + f + ":" + g
  {}

  // ---------- published snapshots ----------

  datatype TargetRow = TargetRow(
    routeId: string, targetChatId: int, targetTopicId: Option<int>,
    sourceChatId: int, sourceTopicId: Option<int>, filters: Filter)

  datatype SnapshotRow = SnapshotRow(
    ruleId: string, version: int, mode: CloneMode, approvalPolicy: ApprovalPolicy,
    syncEdit: bool, syncDelete: bool, transform: bool,
    senders: seq<string>, targets: seq<TargetRow>)

  function LiveSenders(senders: seq<string>, dead: set<string>): seq<string> {
    if senders == [] then []
    else
      var rest := LiveSenders(senders[1..], dead);
      if senders[0] != "" && senders[0] !in dead then [senders[0]] + rest else rest
  }

  function SnapshotOf(row: SnapshotRow, t: TargetRow, chatClass: ChatClass, account: string,
                      dead: set<string>): RuleSnapshot {
    RuleSnapshot(
      row.ruleId, row.version, account, SourceScopeFor(chatClass, t.sourceChatId, account), t.sourceChatId,
      t.sourceTopicId, [RouteTarget(t.routeId, t.targetChatId, t.targetTopicId)], row.mode,
      row.syncEdit, row.syncDelete, row.approvalPolicy, [t.filters], LiveSenders(row.senders, dead), row.transform)
  }

  function Spellings(row: SnapshotRow, t: TargetRow, account: string, dead: set<string>): seq<RuleSnapshot> {
    [SnapshotOf(row, t, Broadcast, account, dead), SnapshotOf(row, t, SmallGroup, account, dead)]
  }

  /** Both scope spellings of every target, in order. */
  function TargetSnapshots(row: SnapshotRow, targets: seq<TargetRow>, account: string,
                           dead: set<string>): seq<RuleSnapshot> {
    if targets == [] then []
    else
      var t := targets[|targets| - 1];
      TargetSnapshots(row, targets[..|targets| - 1], account, dead)
      + Spellings(row, t, account, dead)
  }

  /** The inner loop of rules_from_snapshot: the two scopes an event of this chat may carry. */
  method SpellTarget(row: SnapshotRow, t: TargetRow, account: string, dead: set<string>)
    returns (both: seq<RuleSnapshot>)
    ensures both == Spellings(row, t, account, dead)
  {
    both := [];
    var classes := [Broadcast, SmallGroup];
    for i := 0 to |classes|
      invariant |both| == i && forall k :: 0 <= k < i ==> both[k] == SnapshotOf(row, t, classes[k], account, dead)
    {
      both := both + [SnapshotOf(row, t, classes[i], account, dead)];
    }
  }

  method RulesFromSnapshot(row: SnapshotRow, account: string, dead: set<string>) returns (out: seq<RuleSnapshot>)
    ensures out == TargetSnapshots(row, row.targets, account, dead)
  {
    out := [];
    for n := 0 to |row.targets|
      invariant out == TargetSnapshots(row, row.targets[..n], account, dead)
    {
      var both := SpellTarget(row, row.targets[n], account, dead);
      out := out + both;
      SnapshotsNext(row, n, account, dead);
    }
    assert row.targets[..|row.targets|] == row.targets;
  }

  lemma SnapshotsNext(row: SnapshotRow, n: nat, account: string, dead: set<string>)
    requires n < |row.targets|
    ensures TargetSnapshots(row, row.targets[..n + 1], account, dead)
         == TargetSnapshots(row, row.targets[..n], account, dead) + Spellings(row, row.targets[n], account, dead)
  {
    NextTarget(row.targets, n);
    SnapshotsPush(row, row.targets[..n], row.targets[n], account, dead);
  }

  lemma NextTarget(targets: seq<TargetRow>, n: nat)
    requires n < |targets|
    ensures targets[..n + 1] == targets[..n] + [targets[n]]
  {}

  lemma {:induction false} SnapshotsPush(row: SnapshotRow, targets: seq<TargetRow>, t: TargetRow, account: string,
                                         dead: set<string>)
    ensures TargetSnapshots(row, targets + [t], account, dead)
         == TargetSnapshots(row, targets, account, dead) + Spellings(row, t, account, dead)
  {
    var more := targets + [t];
    assert more[..|more| - 1] == targets && more[|more| - 1] == t;
  }

  /** The rule cache of one account: the snapshots of all its rows. */
  function AccountRules(rows: seq<SnapshotRow>, account: string, dead: set<string>): seq<RuleSnapshot> {
    if rows == [] then []
    else
      var row := rows[|rows| - 1];
      AccountRules(rows[..|rows| - 1], account, dead) + TargetSnapshots(row, row.targets, account, dead)
  }

  /** Whichever class the chat turns out to have, exactly one of the two spellings matches the
      normalized event - provided the target watches that chat and topic and the event is not protected. */
  lemma OneSpellingMatches(row: SnapshotRow, t: TargetRow, account: string, dead: set<string>, e: SourceEvent,
                           chatClass: ChatClass)
    requires e.accountId == account
    requires e.sourceScope == SourceScopeFor(chatClass, e.sourceChatId, account)
    ensures MatchesRule(e, SnapshotOf(row, t, Broadcast, account, dead))
       <==> chatClass == Broadcast && e.sourceChatId == t.sourceChatId && !e.isProtected
            && (t.sourceTopicId.Some? ==> e.topicId == t.sourceTopicId)
    ensures MatchesRule(e, SnapshotOf(row, t, SmallGroup, account, dead))
       <==> chatClass != Broadcast && e.sourceChatId == t.sourceChatId && !e.isProtected
            && (t.sourceTopicId.Some? ==> e.topicId == t.sourceTopicId)
  {
    SourceScopeSeparatesViews(chatClass, e.sourceChatId, account, Broadcast, t.sourceChatId, account);
    SourceScopeSeparatesViews(chatClass, e.sourceChatId, account, SmallGroup, t.sourceChatId, account);
  }

  predicate DistinctRoutes(targets: seq<TargetRow>) {
    forall i, k :: 0 <= i < k < |targets| ==> targets[i].routeId != targets[k].routeId
  }

  predicate DistinctRules(rows: seq<SnapshotRow>) {
    forall i, k :: 0 <= i < k < |rows| ==> rows[i].ruleId != rows[k].ruleId
  }

  predicate OnePlanPerRoute(plans: seq<DeliveryPlan>) {
    forall i, k :: 0 <= i < k < |plans| ==> plans[i].ruleId != plans[k].ruleId || plans[i].routeId != plans[k].routeId
  }

  lemma Assoc<T>(a: seq<T>, b: seq<T>, c: seq<T>)
    ensures a + b + c == a + (b + c)
  {}

  lemma {:induction false} PlansAppend(e: SourceEvent, xs: seq<RuleSnapshot>, ys: seq<RuleSnapshot>,
                                       view: MappingView, pick: Picker)
    ensures Plans(e, xs + ys, view, pick) == Plans(e, xs, view, pick) + Plans(e, ys, view, pick)
    decreases |ys|
  {
    if ys == [] {
      assert xs + ys == xs;
    } else {
      var front, last := ys[..|ys| - 1], ys[|ys| - 1];
      assert ys == front + [last];
      Assoc(xs, front, [last]);
      PlansAppend(e, xs, front, view, pick);
      PlansPush(e, xs + front, last, view, pick);
      PlansPush(e, front, last, view, pick);
      Assoc(Plans(e, xs, view, pick), Plans(e, front, view, pick), PlansOfRule(e, last, view, pick));
    }
  }

  /** One target of a row gives at most one plan, for its own route. */
  lemma SpellingsPlanOnce(e: SourceEvent, row: SnapshotRow, t: TargetRow, account: string, dead: set<string>,
                          view: MappingView, pick: Picker)
    ensures var plans := Plans(e, Spellings(row, t, account, dead), view, pick);
            |plans| <= 1 && forall p :: p in plans ==> p.ruleId == row.ruleId && p.routeId == t.routeId
  {
    var wide, narrow := SnapshotOf(row, t, Broadcast, account, dead), SnapshotOf(row, t, SmallGroup, account, dead);
    SourceScopeSeparatesViews(Broadcast, t.sourceChatId, account, SmallGroup, t.sourceChatId, account);
    assert [wide, narrow] == [wide] + [narrow];
    TwoRulesPlanOnce(e, wide, narrow, view, pick);
  }

  lemma TwoRulesPlanOnce(e: SourceEvent, a: RuleSnapshot, b: RuleSnapshot, view: MappingView, pick: Picker)
    requires a.sourceScope != b.sourceScope && |a.targets| == 1 && b.targets == a.targets && b.ruleId == a.ruleId
    ensures var plans := Plans(e, [a] + [b], view, pick);
            |plans| <= 1 && forall p :: p in plans ==> p.ruleId == a.ruleId && p.routeId == a.targets[0].routeId
  {
    PlansAppend(e, [a], [b], view, pick);
    SingleRuleIds(e, a, view, pick);
    SingleRuleIds(e, b, view, pick);
    assert !Wanted(e, a) || !Wanted(e, b);
  }

  lemma SingleRuleIds(e: SourceEvent, rule: RuleSnapshot, view: MappingView, pick: Picker)
    requires |rule.targets| == 1
    ensures var plans := Plans(e, [rule], view, pick);
            && |plans| <= 1 && (!Wanted(e, rule) ==> plans == [])
            && forall p :: p in plans ==> p.ruleId == rule.ruleId && p.routeId == rule.targets[0].routeId
  {
    SingleRulePlans(e, rule, view, pick);
  }

  ghost predicate PlansWithin(plans: seq<DeliveryPlan>, ruleId: string, targets: seq<TargetRow>) {
    forall p :: p in plans ==> p.ruleId == ruleId && exists t :: t in targets && t.routeId == p.routeId
  }

  /** Plans of one row's targets carry the row's rule id and only routes of those targets, no route twice. */
  lemma {:induction false} OnePlanPerTarget(e: SourceEvent, row: SnapshotRow, targets: seq<TargetRow>, account: string,
                                            dead: set<string>, view: MappingView, pick: Picker)
    requires DistinctRoutes(targets)
    ensures OnePlanPerRoute(Plans(e, TargetSnapshots(row, targets, account, dead), view, pick))
    ensures PlansWithin(Plans(e, TargetSnapshots(row, targets, account, dead), view, pick), row.ruleId, targets)
  {
    if targets != [] {
      var n := |targets| - 1;
      var front, t := targets[..n], targets[n];
      OnePlanPerTarget(e, row, front, account, dead, view, pick);
      SpellingsPlanOnce(e, row, t, account, dead, view, pick);
      PlansAppend(e, TargetSnapshots(row, front, account, dead), Spellings(row, t, account, dead), view, pick);
      ExtendPlans(Plans(e, TargetSnapshots(row, front, account, dead), view, pick),
                  Plans(e, Spellings(row, t, account, dead), view, pick), row.ruleId, targets);
    }
  }

  lemma ExtendPlans(before: seq<DeliveryPlan>, added: seq<DeliveryPlan>, ruleId: string, targets: seq<TargetRow>)
    requires targets != [] && DistinctRoutes(targets)
    requires OnePlanPerRoute(before) && PlansWithin(before, ruleId, targets[..|targets| - 1])
    requires |added| <= 1 && forall p :: p in added ==>
               p.ruleId == ruleId && p.routeId == targets[|targets| - 1].routeId
    ensures OnePlanPerRoute(before + added) && PlansWithin(before + added, ruleId, targets)
  {
    assert targets[|targets| - 1] in targets;
    assert forall i | 0 <= i < |before| :: before[i] in before;
    assert forall i | 0 <= i < |added| :: added[i] in added;
  }

  lemma SingleRulePlans(e: SourceEvent, rule: RuleSnapshot, view: MappingView, pick: Picker)
    requires |rule.targets| == 1
    ensures Plans(e, [rule], view, pick) ==
            if Wanted(e, rule) then [PlanForRoute(e, rule, rule.targets[0], view, pick)] else []
  {
    assert Plans(e, [rule][..0], view, pick) == [];
  }

  /** The doubled-scope expansion never plans one route of one rule twice. */
  lemma {:induction false} AtMostOnePlanPerRuleAndRoute(e: SourceEvent, rows: seq<SnapshotRow>, account: string,
                                                        dead: set<string>,
                                     view: MappingView, pick: Picker)
    requires DistinctRules(rows)
    requires forall row :: row in rows ==> DistinctRoutes(row.targets)
    ensures OnePlanPerRoute(Plans(e, AccountRules(rows, account, dead), view, pick))
    ensures forall p :: p in Plans(e, AccountRules(rows, account, dead), view, pick) ==>
              exists row :: row in rows && row.ruleId == p.ruleId
  {
    if rows != [] {
      var n := |rows| - 1;
      var front, row := rows[..n], rows[n];
      AtMostOnePlanPerRuleAndRoute(e, front, account, dead, view, pick);
      OnePlanPerTarget(e, row, row.targets, account, dead, view, pick);
      PlansAppend(e, AccountRules(front, account, dead), TargetSnapshots(row, row.targets, account, dead), view, pick);
      assert forall x :: x in front ==> x in rows && x.ruleId != row.ruleId;
    }
  }

  /** Hence the planned keys of one event are pairwise different and every plan gets a job of its own. */
  lemma {:induction false} PlannedKeysDistinct(e: SourceEvent, rows: seq<SnapshotRow>, account: string,
                                               dead: set<string>,
                            view: MappingView, pick: Picker)
    requires DistinctRules(rows)
    requires forall row :: row in rows ==> DistinctRoutes(row.targets)
    requires forall row :: row in rows ==> NoColon(row.ruleId) && forall t :: t in row.targets ==> NoColon(t.routeId)
    ensures var plans := Plans(e, AccountRules(rows, account, dead), view, pick);
            forall i, k :: 0 <= i < k < |plans| ==> IdempotencyKey(plans[i]) != IdempotencyKey(plans[k])
  {
    var plans := Plans(e, AccountRules(rows, account, dead), view, pick);
    AtMostOnePlanPerRuleAndRoute(e, rows, account, dead, view, pick);
    PlanIdsColonFree(e, rows, account, dead, view, pick);
    forall i, k | 0 <= i < k < |plans|
      ensures IdempotencyKey(plans[i]) != IdempotencyKey(plans[k])
    {
      assert plans[i] in plans && plans[k] in plans;
      IdempotencyKeyInjective(plans[i], plans[k]);
    }
  }

  lemma {:induction false} PlanIdsColonFree(e: SourceEvent, rows: seq<SnapshotRow>, account: string, dead: set<string>,
                         view: MappingView, pick: Picker)
    requires forall row :: row in rows ==> DistinctRoutes(row.targets)
    requires forall row :: row in rows ==> NoColon(row.ruleId) && forall t :: t in row.targets ==> NoColon(t.routeId)
    ensures forall p :: p in Plans(e, AccountRules(rows, account, dead), view, pick) ==>
              NoColon(p.ruleId) && NoColon(p.routeId)
  {
    if rows != [] {
      var n := |rows| - 1;
      var front, row := rows[..n], rows[n];
      PlanIdsColonFree(e, front, account, dead, view, pick);
      OnePlanPerTarget(e, row, row.targets, account, dead, view, pick);
      PlansAppend(e, AccountRules(front, account, dead), TargetSnapshots(row, row.targets, account, dead), view, pick);
      assert row in rows;
    }
  }
}
