/** Source records projected to a team's inbox, and the reconciliation with the inbox before. */
module Inbox {
  import opened Wrappers
  import opened Sorting

  datatype Item = Item(
    itemId: string, kind: string, sourceType: string, sourceId: string, teamId: string, priority: int,
    summary: string, ownerId: Option<string>, createdAt: string, acknowledged: bool, resolved: bool, deepLink: string)

  datatype SourceRecord = SourceRecord(
    teamId: string, sourceType: string, sourceId: string, status: string, ownerId: Option<string>,
    summary: string, createdAt: string, resolved: bool, deepLinkId: Option<string>)

  function Priority(kind: string): int {
    match kind
    case "approval_request" => 90
    case "run_failed" => 80
    case "run_timed_out" => 85
    case "agent_disconnected" => 75
    case "workflow_failed" => 70
    case "mcp_approval_pending" => 60
    case "review_requested" => 50
    case "stale_task" => 30
    case _ => 0
  }

  const KIND_BY_SOURCE: map<(string, string), string> := map[
    ("approval_request", "approval_required") := "approval_request",
    ("run", "failed") := "run_failed",
    ("run", "timed_out") := "run_timed_out",
    ("agent_disconnected", "disconnected") := "agent_disconnected",
    ("workflow_failed", "failed") := "workflow_failed",
    ("mcp_approval_pending", "pending") := "mcp_approval_pending",
    ("review_requested", "captured") := "review_requested",
    ("stale_task", "stale") := "stale_task",
    ("coding_run", "failed") := "run_failed",
    ("coding_run", "timed_out") := "run_timed_out",
    ("change_set", "captured") := "review_requested",
    ("workflow_run", "failed") := "workflow_failed",
    ("agent", "disconnected") := "agent_disconnected",
    ("mcp_tool", "pending") := "mcp_approval_pending",
    ("coding_run", "approval_required") := "approval_request",
    ("task", "stale") := "stale_task"]

  function DeepLink(sourceType: string, target: string): string {
    match sourceType
    case "coding_run" => "/api/coding/runs/" + target
    case "change_set" => "/management/change-sets/" + target
    case "workflow_run" => "/workflows/" + target
    case "agent" => "/direct/" + target
    case "mcp_tool" => "/management/mcp/" + target
    case "task" => "/board/" + target
    case _ => ""
  }

  function DeriveInboxId(sourceType: string, sourceId: string): string { sourceType + ":" + sourceId }

  /** None: not a state that needs attention. */
  function BuildInboxItem(r: SourceRecord, team: string): Option<Item> {
    if (r.sourceType, r.status) !in KIND_BY_SOURCE then None
    else
      var kind := KIND_BY_SOURCE[(r.sourceType, r.status)];
      var target := if r.deepLinkId.GetOr("") == "" then r.sourceId else r.deepLinkId.value;
      Some(Item(
        DeriveInboxId(r.sourceType, r.sourceId), kind, r.sourceType, r.sourceId, team, Priority(kind),
        if r.summary == "" then kind + " (" + r.sourceType + " " + r.sourceId + ")" else r.summary,
        r.ownerId, r.createdAt, false, r.resolved, DeepLink(r.sourceType, target)))
  }

  /** A record of another team yields nothing. */
  function ItemFor(r: SourceRecord, team: string): Option<Item> {
    if r.teamId == team then BuildInboxItem(r, team) else None
  }

  // ---- Items keyed by id, kept in order of first insertion ----

  function Find(items: seq<Item>, id: string): Option<Item> {
    if items == [] then None
    else if items[0].itemId == id then Some(items[0])
    else Find(items[1..], id)
  }

  function Put(items: seq<Item>, item: Item): seq<Item> {
    if items == [] then [item]
    else if items[0].itemId == item.itemId then [item] + items[1..]
    else [items[0]] + Put(items[1..], item)
  }

  predicate DistinctIds(items: seq<Item>) {
    forall i, j :: 0 <= i < j < |items| ==> items[i].itemId != items[j].itemId
  }

  lemma {:induction false} FindPut(items: seq<Item>, item: Item, id: string)
    ensures Find(Put(items, item), id) == if id == item.itemId then Some(item) else Find(items, id)
  {
    if items != [] && items[0].itemId != item.itemId {
      FindPut(items[1..], item, id);
    }
  }

  lemma {:induction false} FindInDistinct(items: seq<Item>, item: Item)
    requires DistinctIds(items)
    ensures item in items <==> Find(items, item.itemId) == Some(item)
  {
    if items != [] {
      FindInDistinct(items[1..], item);
    }
  }

  lemma {:induction false} FoundIsIn(items: seq<Item>, id: string)
    ensures Find(items, id).Some? ==> Find(items, id).value in items && Find(items, id).value.itemId == id
    ensures Find(items, id).None? ==> forall x :: x in items ==> x.itemId != id
  {
    if items != [] && items[0].itemId != id {
      FoundIsIn(items[1..], id);
    }
  }

  lemma {:induction false} PutKeepsDistinct(items: seq<Item>, item: Item)
    requires DistinctIds(items)
    ensures DistinctIds(Put(items, item))
    ensures forall x :: x in Put(items, item) ==> x == item || x in items
  {
    if items != [] && items[0].itemId != item.itemId {
      PutKeepsDistinct(items[1..], item);
      var tail := Put(items[1..], item);
      forall i | 0 <= i < |tail| ensures tail[i].itemId != items[0].itemId {
        assert tail[i] in tail;
      }
    }
  }

  // ---- Projection ----

  function Projected(records: seq<SourceRecord>, team: string): seq<Item> {
    if records == [] then []
    else
      var before := Projected(records[..|records| - 1], team);
      match ItemFor(records[|records| - 1], team)
      case None => before
      case Some(item) => Put(before, item)
  }

  /** Most urgent first, then by id. */
  predicate Ranks(a: Item, b: Item) {
    a.priority > b.priority || (a.priority == b.priority && StringLe(a.itemId, b.itemId))
  }

  lemma RankOrder()
    ensures TotalPreorder(Ranks)
    ensures forall a, b :: Ranks(a, b) && Ranks(b, a) ==> a.itemId == b.itemId
  {
    StringOrder();
  }

  function ProjectInboxForTeam(records: seq<SourceRecord>, team: string): seq<Item> {
    SortBy(Projected(records, team), Ranks)
  }

  /** The last record of the team that has this id in an attention state decides its item. */
  function LastItem(records: seq<SourceRecord>, team: string, id: string): Option<Item> {
    if records == [] then None
    else
      var item := ItemFor(records[|records| - 1], team);
      if item.Some? && item.value.itemId == id then item else LastItem(records[..|records| - 1], team, id)
  }

  lemma {:induction false} ProjectedFinds(records: seq<SourceRecord>, team: string, id: string)
    ensures Find(Projected(records, team), id) == LastItem(records, team, id)
    ensures DistinctIds(Projected(records, team))
  {
    if records != [] {
      var before := records[..|records| - 1];
      ProjectedFinds(before, team, id);
      var item := ItemFor(records[|records| - 1], team);
      if item.Some? {
        FindPut(Projected(before, team), item.value, id);
        PutKeepsDistinct(Projected(before, team), item.value);
      }
    }
  }

  lemma {:induction false} DistinctIdsAreDistinct(items: seq<Item>, sorted: seq<Item>)
    requires DistinctIds(items) && multiset(items) == multiset(sorted)
    ensures DistinctIds(sorted)
  {
    forall i, j | 0 <= i < j < |sorted| ensures sorted[i].itemId != sorted[j].itemId {
      SameElements(items, sorted, sorted[i]);
      SameElements(items, sorted, sorted[j]);
      if sorted[i] == sorted[j] {
        TwiceInMultiset(sorted, i, j);
        OnceInDistinct(items, sorted[i]);
      }
    }
  }

  lemma TwiceInMultiset(s: seq<Item>, i: nat, j: nat)
    requires i < j < |s| && s[i] == s[j]
    ensures multiset(s)[s[i]] >= 2
  {
    assert s == s[..j] + s[j..];
    assert s[i] in multiset(s[..j]) && s[j] in multiset(s[j..]) by {
      assert s[..j][i] == s[i] && s[j..][0] == s[j];
    }
  }

  lemma {:induction false} OnceInDistinct(items: seq<Item>, x: Item)
    requires DistinctIds(items)
    ensures multiset(items)[x] <= 1
  {
    if items != [] {
      assert items == [items[0]] + items[1..];
      OnceInDistinct(items[1..], x);
      if items[0] == x {
        assert x !in items[1..];
      }
    }
  }

  lemma SortedDistinctIsStrict(items: seq<Item>)
    requires DistinctIds(items) && Sorted(items, Ranks)
    ensures StrictlySorted(items, Ranks)
  {
    RankOrder();
  }

  /** The projection is strictly ordered, of one team, and holds exactly each id's latest item. */
  lemma ProjectionIsExact(records: seq<SourceRecord>, team: string)
    ensures var items := ProjectInboxForTeam(records, team);
      && StrictlySorted(items, Ranks) && DistinctIds(items)
      && (forall x :: x in items <==> LastItem(records, team, x.itemId) == Some(x))
  {
    var raw, items := Projected(records, team), ProjectInboxForTeam(records, team);
    RankOrder();
    SortBySorted(raw, Ranks);
    ProjectedFinds(records, team, "");
    DistinctIdsAreDistinct(raw, items);
    SortedDistinctIsStrict(items);
    forall x ensures x in items <==> LastItem(records, team, x.itemId) == Some(x) {
      SameElements(items, raw, x);
      FindInDistinct(raw, x);
      ProjectedFinds(records, team, x.itemId);
    }
  }

  lemma {:induction false} LastItemComesFromTheTeam(records: seq<SourceRecord>, team: string, id: string)
    requires LastItem(records, team, id).Some?
    ensures exists i :: (0 <= i < |records| && records[i].teamId == team
                         && BuildInboxItem(records[i], team) == LastItem(records, team, id))
    ensures LastItem(records, team, id).value.teamId == team
  {
    var n := |records|;
    if ItemFor(records[n - 1], team).Some? && ItemFor(records[n - 1], team).value.itemId == id {
      assert records[n - 1].teamId == team;
    } else {
      LastItemComesFromTheTeam(records[..n - 1], team, id);
    }
  }

  lemma SourceTypesHoldNoColon(sourceType: string, status: string)
    requires (sourceType, status) in KIND_BY_SOURCE
    ensures ':' !in sourceType
  {
  }

  lemma SplitAtColon(a: string, x: string, b: string, y: string)
    requires ':' !in a && ':' !in b && a + ":" + x == b + ":" + y
    ensures a == b && x == y
  {
    var whole := a + ":" + x;
    assert whole == b + ":" + y;
    assert whole[..|a|] == a && whole[..|b|] == b && whole[|a|] == ':' && whole[|b|] == ':';
    assert whole[|a| + 1..] == x && whole[|b| + 1..] == y;
  }

  /** Source types that produce items hold no colon, so an item's id names its source. */
  lemma {:induction false} ItemIdNamesItsSource(r: SourceRecord, s: SourceRecord, team: string)
    requires BuildInboxItem(r, team).Some? && BuildInboxItem(s, team).Some?
    requires BuildInboxItem(r, team).value.itemId == BuildInboxItem(s, team).value.itemId
    ensures r.sourceType == s.sourceType && r.sourceId == s.sourceId
  {
    SourceTypesHoldNoColon(r.sourceType, r.status);
    SourceTypesHoldNoColon(s.sourceType, s.status);
    SplitAtColon(r.sourceType, r.sourceId, s.sourceType, s.sourceId);
  }

  // ---- Reconciliation ----

  /** Refresh what comes from the record, keep what was decided in the inbox. */
  function Carry(previous: seq<Item>, item: Item): Item {
    match Find(previous, item.itemId)
    case None => item
    case Some(prior) =>
      item.(acknowledged := prior.acknowledged, ownerId := if prior.ownerId.Some? then prior.ownerId else item.ownerId)
  }

  function CarryAll(previous: seq<Item>, items: seq<Item>): (r: seq<Item>)
    ensures |r| == |items| && forall i :: 0 <= i < |r| ==> r[i] == Carry(previous, items[i])
  {
    seq(|items|, i requires 0 <= i < |items| => Carry(previous, items[i]))
  }

  function ReconcileInboxForTeam(previous: seq<Item>, records: seq<SourceRecord>, team: string): seq<Item> {
    CarryAll(previous, ProjectInboxForTeam(records, team))
  }

  predicate WellOrdered(items: seq<Item>, team: string) {
    StrictlySorted(items, Ranks) && DistinctIds(items) && forall x :: x in items ==> x.teamId == team
  }

  lemma ReconciledIsWellOrdered(previous: seq<Item>, records: seq<SourceRecord>, team: string)
    ensures WellOrdered(ReconcileInboxForTeam(previous, records, team), team)
  {
    var projected, items := ProjectInboxForTeam(records, team), ReconcileInboxForTeam(previous, records, team);
    ProjectionIsExact(records, team);
    forall x | x in items ensures x.teamId == team {
      var i :| 0 <= i < |items| && items[i] == x;
      assert projected[i] in projected;
      LastItemComesFromTheTeam(records, team, projected[i].itemId);
    }
    forall i, j | 0 <= i < j < |items| ensures Ranks(items[i], items[j]) && !Ranks(items[j], items[i]) {
      assert Ranks(projected[i], projected[j]) && !Ranks(projected[j], projected[i]);
    }
  }

  lemma {:induction false} FindCarried(previous: seq<Item>, items: seq<Item>, id: string)
    ensures Find(CarryAll(previous, items), id) ==
      match Find(items, id) case None => None case Some(item) => Some(Carry(previous, item))
  {
    if items != [] && items[0].itemId != id {
      assert CarryAll(previous, items)[1..] == CarryAll(previous, items[1..]);
      FindCarried(previous, items[1..], id);
    }
  }

  /**
   A surviving item is its latest record's item with the acknowledgement and the owner decided
   before; everything else, whether it is resolved included, is as the record says. An item that
   needs no attention is gone.
   */
  lemma ReconcileKeepsDecisions(previous: seq<Item>, records: seq<SourceRecord>, team: string, id: string)
    ensures var after := Find(ReconcileInboxForTeam(previous, records, team), id);
      var prior := Find(previous, id);
      && (after.Some? <==> LastItem(records, team, id).Some?)
      && (after.Some? && prior.Some? ==>
            after.value == LastItem(records, team, id).value.(
              acknowledged := prior.value.acknowledged,
              ownerId := if prior.value.ownerId.Some? then prior.value.ownerId else LastItem(records, team, id).value.ownerId))
      && (after.Some? && prior.None? ==> after == LastItem(records, team, id))
  {
    var projected := ProjectInboxForTeam(records, team);
    ProjectionIsExact(records, team);
    FindCarried(previous, projected, id);
    FoundIsIn(projected, id);
    if LastItem(records, team, id).Some? {
      ProjectedFinds(records, team, id);
      FoundIsIn(Projected(records, team), id);
      assert LastItem(records, team, id).value in projected;
      FindInDistinct(projected, LastItem(records, team, id).value);
    }
  }

  /** A local resolve survives the next reconciliation exactly when the latest record of the item is resolved too. */
  lemma {:induction false} ResolveSurvivesWithItsRecord(previous: seq<Item>, records: seq<SourceRecord>, team: string, id: string)
    requires Find(previous, id).Some? && LastItem(records, team, id).Some?
    ensures var before := DecideItem(previous, id, Resolve);
      var after := Find(ReconcileInboxForTeam(before, records, team), id);
      && Find(before, id).Some? && Find(before, id).value.resolved && after.Some?
      && (after.value.resolved <==> LastItem(records, team, id).value.resolved)
  {
    ReconcileKeepsDecisions(DecideItem(previous, id, Resolve), records, team, id);
    FindDecided(previous, id, Resolve);
  }

  lemma {:induction false} FindDecided(items: seq<Item>, id: string, decision: Decision)
    ensures Find(DecideItem(items, id, decision), id) ==
      if Find(items, id).Some? then Some(Decide(decision, Find(items, id).value)) else None
  {
    if items != [] {
      FindDecided(items[1..], id, decision);
      assert DecideItem(items, id, decision)[1..] == DecideItem(items[1..], id, decision);
    }
  }

  lemma ReconcileIsIdempotent(previous: seq<Item>, records: seq<SourceRecord>, team: string)
    ensures var once := ReconcileInboxForTeam(previous, records, team);
      ReconcileInboxForTeam(once, records, team) == once
  {
    var projected, once := ProjectInboxForTeam(records, team), ReconcileInboxForTeam(previous, records, team);
    ProjectionIsExact(records, team);
    forall i | 0 <= i < |projected| ensures Carry(once, projected[i]) == once[i] {
      FindInDistinct(projected, projected[i]);
      FindCarried(previous, projected, projected[i].itemId);
    }
  }

  // ---- Inbox-local decisions ----

  datatype Decision = Acknowledge | Assign(owner: string) | Resolve

  function Decide(decision: Decision, item: Item): Item {
    match decision
    case Acknowledge => item.(acknowledged := true)
    case Assign(owner) => item.(ownerId := Some(owner))
    case Resolve => item.(resolved := true)
  }

  function DecideItem(items: seq<Item>, id: string, decision: Decision): (r: seq<Item>)
    ensures |r| == |items|
    ensures forall i :: 0 <= i < |r| ==> r[i] == if items[i].itemId == id then Decide(decision, items[i]) else items[i]
  {
    seq(|items|, i requires 0 <= i < |items| => if items[i].itemId == id then Decide(decision, items[i]) else items[i])
  }

  lemma {:induction false} DecideKeepsOrder(items: seq<Item>, team: string, id: string, decision: Decision)
    requires WellOrdered(items, team)
    ensures WellOrdered(DecideItem(items, id, decision), team)
  {
    var after := DecideItem(items, id, decision);
    forall x | x in after ensures x.teamId == team {
      var i :| 0 <= i < |after| && after[i] == x;
      assert items[i] in items;
    }
    forall i, j | 0 <= i < j < |after| ensures Ranks(after[i], after[j]) && !Ranks(after[j], after[i]) {
      assert Ranks(items[i], items[j]) && !Ranks(items[j], items[i]);
    }
  }
}
