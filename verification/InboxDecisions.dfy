/**
 What acknowledging, assigning and resolving do to an inbox, how long a decision lasts, and what
 records make of an item.
 */
module InboxDecisions {
  import opened Wrappers
  import opened Sorting
  import opened Inbox
  import opened InboxEvents
  import opened InboxStore

  // ---- One decision ----

  /** The two items differ in nothing but the acknowledgement, the owner and whether they are resolved. */
  predicate SameSource(a: Item, b: Item) {
    && a.itemId == b.itemId && a.kind == b.kind && a.sourceType == b.sourceType && a.sourceId == b.sourceId
    && a.teamId == b.teamId && a.priority == b.priority && a.summary == b.summary && a.createdAt == b.createdAt
    && a.deepLink == b.deepLink
  }

  predicate IsDecided(d: Decision, before: Item, after: Item) {
    && SameSource(before, after)
    && (if d.Acknowledge? then after.acknowledged else after.acknowledged == before.acknowledged)
    && (if d.Resolve? then after.resolved else after.resolved == before.resolved)
    && (if d.Assign? then after.ownerId == Some(d.owner) else after.ownerId == before.ownerId)
  }

  /** A decision changes what it is about in the item it names, and nothing else anywhere. */
  lemma {:induction false} DecisionsChangeTheirItemAlone(team: string, before: TeamInbox, id: string, d: Decision, after: TeamInbox)
    requires Step(team, before, Op.Decide(id, d), after)
    ensures |after.items| == |before.items|
    ensures forall i :: 0 <= i < |before.items| ==>
      if before.items[i].itemId == id then IsDecided(d, before.items[i], after.items[i])
      else after.items[i] == before.items[i]
  {
    hide Publishes;
    FoundIsIn(before.items, id);
  }

  lemma {:induction false} FindCorresponds(before: seq<Item>, after: seq<Item>, id: string, decided: string, d: Decision)
    requires |before| == |after|
    requires forall i :: 0 <= i < |before| ==>
      if before[i].itemId == decided then IsDecided(d, before[i], after[i]) else after[i] == before[i]
    ensures Find(after, id).Some? <==> Find(before, id).Some?
    ensures Find(before, id).Some? && id == decided ==> IsDecided(d, Find(before, id).value, Find(after, id).value)
    ensures id != decided ==> Find(after, id) == Find(before, id)
  {
    if before != [] {
      assert after[0].itemId == before[0].itemId;
      FindCorresponds(before[1..], after[1..], id, decided, d);
    }
  }

  /** Of the item that was decided about, exactly what was decided is found afterwards. */
  lemma {:induction false} DecisionsAreFound(team: string, before: TeamInbox, id: string, d: Decision, after: TeamInbox, other: string)
    requires Step(team, before, Op.Decide(id, d), after)
    ensures Find(after.items, other).Some? <==> Find(before.items, other).Some?
    ensures other == id && Find(before.items, id).Some? ==> IsDecided(d, Find(before.items, id).value, Find(after.items, id).value)
    ensures other != id ==> Find(after.items, other) == Find(before.items, other)
  {
    hide Step;
    DecisionsChangeTheirItemAlone(team, before, id, d, after);
    FindCorresponds(before.items, after.items, other, id, d);
  }

  // ---- How long a decision lasts ----

  /** The item needs attention according to each reconciliation. */
  predicate StaysDue(team: string, ops: seq<Op>, id: string) {
    forall i :: 0 <= i < |ops| && ops[i].Reconcile? ==> LastItem(ops[i].records, team, id).Some?
  }

  lemma StepKeepsAcknowledged(team: string, before: TeamInbox, op: Op, after: TeamInbox, id: string)
    requires Step(team, before, op, after) && (op.Reconcile? ==> LastItem(op.records, team, id).Some?)
    requires Find(before.items, id).Some? && Find(before.items, id).value.acknowledged
    ensures Find(after.items, id).Some? && Find(after.items, id).value.acknowledged
  {
    match op
    case Reconcile(records) =>
      hide Publishes;
      ReconcileKeepsDecisions(before.items, records, team, id);
    case Decide(decided, d) => DecisionsAreFound(team, before, decided, d, after, id);
  }

  ghost predicate Proceeds(team: string, states: seq<TeamInbox>, ops: seq<Op>) {
    |states| == |ops| + 1 && forall i :: 0 <= i < |ops| ==> Step(team, states[i], ops[i], states[i + 1])
  }

  /** An acknowledgement lasts, whatever is decided and however often the inbox is reconciled, while the item stays due. */
  lemma {:induction false} AcknowledgementsLast(team: string, states: seq<TeamInbox>, ops: seq<Op>, id: string, n: nat)
    requires Proceeds(team, states, ops) && n <= |ops| && StaysDue(team, ops, id)
    requires Find(states[0].items, id).Some? && Find(states[0].items, id).value.acknowledged
    ensures Find(states[n].items, id).Some? && Find(states[n].items, id).value.acknowledged
  {
    if n > 0 {
      hide Step, Find, LastItem;
      AcknowledgementsLast(team, states, ops, id, n - 1);
      StepKeepsAcknowledged(team, states[n - 1], ops[n - 1], states[n], id);
    }
  }

  /** The last owner assigned among the operations, or the one before them. */
  function LastOwner(ops: seq<Op>, id: string, owner: string): string {
    if ops == [] then owner
    else
      var op := ops[|ops| - 1];
      if op.Decide? && op.itemId == id && op.decision.Assign? then op.decision.owner else LastOwner(ops[..|ops| - 1], id, owner)
  }

  lemma StepKeepsOwner(team: string, before: TeamInbox, op: Op, after: TeamInbox, id: string, owner: string)
    requires Step(team, before, op, after) && (op.Reconcile? ==> LastItem(op.records, team, id).Some?)
    requires Find(before.items, id).Some? && Find(before.items, id).value.ownerId == Some(owner)
    ensures Find(after.items, id).Some? && Find(after.items, id).value.ownerId == Some(LastOwner([op], id, owner))
  {
    assert [op][..0] == [];
    match op
    case Reconcile(records) =>
      hide Publishes;
      ReconcileKeepsDecisions(before.items, records, team, id);
    case Decide(decided, d) => DecisionsAreFound(team, before, decided, d, after, id);
  }

  /** An owner lasts until another one is assigned, while the item stays due. */
  lemma {:induction false} OwnersLast(team: string, states: seq<TeamInbox>, ops: seq<Op>, id: string, owner: string, n: nat)
    requires Proceeds(team, states, ops) && n <= |ops| && StaysDue(team, ops, id)
    requires Find(states[0].items, id).Some? && Find(states[0].items, id).value.ownerId == Some(owner)
    ensures Find(states[n].items, id).Some? && Find(states[n].items, id).value.ownerId == Some(LastOwner(ops[..n], id, owner))
  {
    if n > 0 {
      hide Step, Find, LastItem, LastOwner;
      OwnersLast(team, states, ops, id, owner, n - 1);
      StepKeepsOwner(team, states[n - 1], ops[n - 1], states[n], id, LastOwner(ops[..n - 1], id, owner));
      LastOwnerGrows(ops, n, id, owner);
    } else {
      NobodyAssigned(ops[..0], id, owner);
    }
  }

  lemma LastOwnerGrows(ops: seq<Op>, n: nat, id: string, owner: string)
    requires 0 < n <= |ops|
    ensures LastOwner(ops[..n], id, owner) == LastOwner([ops[n - 1]], id, LastOwner(ops[..n - 1], id, owner))
  {
    assert ops[..n][..n - 1] == ops[..n - 1] && [ops[n - 1]][..0] == [];
  }

  lemma NobodyAssigned(ops: seq<Op>, id: string, owner: string)
    requires ops == []
    ensures LastOwner(ops, id, owner) == owner
  {
  }

  // ---- What is unread ----

  /** The places of the items that are neither acknowledged nor resolved. */
  function UnreadPlaces(items: seq<Item>): set<int> {
    set i | 0 <= i < |items| && !items[i].acknowledged && !items[i].resolved
  }

  /** The count announced last is the number of items that are neither acknowledged nor resolved. */
  lemma {:induction false} AnnouncedCountIsUnread(team: string, states: seq<TeamInbox>, ops: seq<Op>, n: nat)
    requires Steps(team, states, ops) && n < |states|
    ensures LatestUnread(states[n].log.events) == |UnreadPlaces(states[n].items)|
  {
    hide UnreadPlaces;
    InboxAndLogAgree(team, states, ops, n);
    CountsPlaces(states[n].items);
  }

  lemma OneMorePlace(items: seq<Item>, item: Item)
    ensures UnreadPlaces(items + [item]) ==
      UnreadPlaces(items) + if !item.acknowledged && !item.resolved then {|items|} else {}
  {
  }

  lemma {:induction false} CountsPlaces(items: seq<Item>)
    ensures CountUnread(items) == |UnreadPlaces(items)|
    ensures forall i :: i in UnreadPlaces(items) ==> i < |items|
  {
    if items == [] {
      assert UnreadPlaces(items) == {};
    } else {
      hide UnreadPlaces;
      var init, last := items[..|items| - 1], items[|items| - 1];
      assert items == init + [last];
      CountsPlaces(init);
      OneMorePlace(init, last);
    }
  }

  // ---- Order and origin ----

  /** The inbox lists the most urgent items first, and equally urgent ones by their ids. */
  lemma {:induction false} UrgentItemsComeFirst(previous: seq<Item>, records: seq<SourceRecord>, team: string, i: nat, j: nat)
    requires i < j < |ReconcileInboxForTeam(previous, records, team)|
    ensures var items := ReconcileInboxForTeam(previous, records, team);
      || items[i].priority > items[j].priority
      || (items[i].priority == items[j].priority && items[i].itemId != items[j].itemId && StringLe(items[i].itemId, items[j].itemId))
  {
    ReconciledIsWellOrdered(previous, records, team);
    var items := ReconcileInboxForTeam(previous, records, team);
    assert Ranks(items[i], items[j]) && items[i].itemId != items[j].itemId;
  }

  /** The rules: a kind, its urgency and the status that produces it. */
  datatype Rule = Rule(kind: string, priority: int, status: string)

  const INBOX_RULES: seq<Rule> := [
    Rule("approval_request", 90, "approval_required"), Rule("run_failed", 80, "failed"), Rule("run_timed_out", 85, "timed_out"),
    Rule("agent_disconnected", 75, "disconnected"), Rule("workflow_failed", 70, "failed"),
    Rule("mcp_approval_pending", 60, "pending"), Rule("review_requested", 50, "captured"), Rule("stale_task", 30, "stale")]

  /** The loop over the rules: a kind is its own source type, but for the two kinds of runs. */
  function KindsOf(rules: seq<Rule>): map<(string, string), string> {
    if rules == [] then map[]
    else
      var rule := rules[|rules| - 1];
      var sourceType := if rule.kind == "run_failed" || rule.kind == "run_timed_out" then "run" else rule.kind;
      KindsOf(rules[..|rules| - 1])[(sourceType, rule.status) := rule.kind]
  }

  function KindTable(): map<(string, string), string> {
    KindsOf(INBOX_RULES)[("coding_run", "failed") := "run_failed"][("coding_run", "timed_out") := "run_timed_out"]
      [("change_set", "captured") := "review_requested"][("workflow_run", "failed") := "workflow_failed"]
      [("agent", "disconnected") := "agent_disconnected"][("mcp_tool", "pending") := "mcp_approval_pending"]
      [("coding_run", "approval_required") := "approval_request"][("task", "stale") := "stale_task"]
  }

  const LINKS: map<string, string> := map[
    "coding_run" := "/api/coding/runs/", "change_set" := "/management/change-sets/", "workflow_run" := "/workflows/",
    "agent" := "/direct/", "mcp_tool" := "/management/mcp/", "task" := "/board/"]

  function LinkTo(sourceType: string, target: string): string {
    if sourceType in LINKS then LINKS[sourceType] + target else ""
  }

  /** A record gives an item exactly when the rules name its type and status, with the urgency of that rule and its own fields. */
  lemma {:induction false} RecordsGiveTheirItems(r: SourceRecord, team: string)
    ensures BuildInboxItem(r, team).Some? <==> (r.sourceType, r.status) in KindTable()
    ensures BuildInboxItem(r, team).Some? ==>
      var item := BuildInboxItem(r, team).value;
      && item.kind == KindTable()[(r.sourceType, r.status)]
      && (exists i :: 0 <= i < |INBOX_RULES| && INBOX_RULES[i].kind == item.kind && INBOX_RULES[i].priority == item.priority)
      && item.itemId == r.sourceType + ":" + r.sourceId && item.sourceType == r.sourceType && item.sourceId == r.sourceId
      && item.teamId == team && item.ownerId == r.ownerId && item.createdAt == r.createdAt
      && !item.acknowledged && item.resolved == r.resolved
      && item.summary == (if r.summary != "" then r.summary else item.kind + " (" + r.sourceType + " " + r.sourceId + ")")
      && item.deepLink == LinkTo(r.sourceType, if r.deepLinkId.Some? && r.deepLinkId.value != "" then r.deepLinkId.value else r.sourceId)
  {
    KindTableIs();
    LinksAre(r.sourceType, if r.deepLinkId.GetOr("") == "" then r.sourceId else r.deepLinkId.value);
    hide KindTable, Priority, DeepLink, LinkTo;
    if (r.sourceType, r.status) in KIND_BY_SOURCE {
      KindsHaveRules(KIND_BY_SOURCE[(r.sourceType, r.status)]);
    }
  }

  lemma LinksAre(sourceType: string, target: string)
    ensures DeepLink(sourceType, target) == LinkTo(sourceType, target)
  {
  }

  lemma OneMoreRule(rules: seq<Rule>, rule: Rule)
    ensures KindsOf(rules + [rule]) ==
      KindsOf(rules)[(if rule.kind == "run_failed" || rule.kind == "run_timed_out" then "run" else rule.kind, rule.status) := rule.kind]
  {
    assert (rules + [rule])[..|rules|] == rules;
  }

  lemma KindTableIs()
    ensures KindTable() == KIND_BY_SOURCE
  {
    var r := INBOX_RULES;
    assert r == [] + [r[0]] + [r[1]] + [r[2]] + [r[3]] + [r[4]] + [r[5]] + [r[6]] + [r[7]];
    OneMoreRule([], r[0]);
    OneMoreRule([] + [r[0]], r[1]);
    OneMoreRule([] + [r[0]] + [r[1]], r[2]);
    OneMoreRule([] + [r[0]] + [r[1]] + [r[2]], r[3]);
    OneMoreRule([] + [r[0]] + [r[1]] + [r[2]] + [r[3]], r[4]);
    OneMoreRule([] + [r[0]] + [r[1]] + [r[2]] + [r[3]] + [r[4]], r[5]);
    OneMoreRule([] + [r[0]] + [r[1]] + [r[2]] + [r[3]] + [r[4]] + [r[5]], r[6]);
    OneMoreRule([] + [r[0]] + [r[1]] + [r[2]] + [r[3]] + [r[4]] + [r[5]] + [r[6]], r[7]);
  }

  lemma KindsHaveRules(kind: string)
    requires kind in KIND_BY_SOURCE.Values
    ensures exists i :: 0 <= i < |INBOX_RULES| && INBOX_RULES[i].kind == kind && INBOX_RULES[i].priority == Priority(kind)
  {
    var r := INBOX_RULES;
    assert r[0].kind == "approval_request" && r[1].kind == "run_failed" && r[2].kind == "run_timed_out";
    assert r[3].kind == "agent_disconnected" && r[4].kind == "workflow_failed" && r[5].kind == "mcp_approval_pending";
    assert r[6].kind == "review_requested" && r[7].kind == "stale_task";
  }
}
