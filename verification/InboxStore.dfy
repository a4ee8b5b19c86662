/**
 The inbox-local store and the event stream it publishes to: both keyed by team and updated in
 place, and what any mix of operations keeps for a team.
 */
module InboxStore {
  import opened Wrappers
  import opened Sorting
  import opened Inbox
  import opened InboxEvents

  class InboxEventStream {
    var events: map<string, seq<InboxEvent>>
    var sequence: map<string, nat>
    var snapshots: map<string, Snapshot>

    ghost function Log(team: string): TeamLog
      reads this
    {
      TeamLog(Get(events, team).GetOr([]), Get(sequence, team).GetOr(0), Get(snapshots, team).GetOr(map[]))
    }

    constructor ()
      ensures forall team :: Log(team) == NO_LOG
    {
      events, sequence, snapshots := map[], map[], map[];
    }

    method Reset()
      modifies this
      ensures forall team :: Log(team) == NO_LOG
    {
      events, sequence, snapshots := map[], map[], map[];
    }

    method Append(team: string, change: Change, unread: nat) returns (e: InboxEvent)
      modifies `events, `sequence
      ensures Log(team) == InboxEvents.Append(old(Log(team)), team, change, unread)
      ensures Log(team).events == old(Log(team)).events + [e]
      ensures forall other :: other != team ==> Log(other) == old(Log(other))
    {
      var next := Get(sequence, team).GetOr(0) + 1;
      sequence := sequence[team := next];
      e := InboxEvent(next, team, change, unread);
      events := events[team := Get(events, team).GetOr([]) + [e]];
    }

    method AppendGone(team: string, gone: seq<string>, unread: nat) returns (emitted: seq<InboxEvent>)
      modifies `events, `sequence
      ensures Log(team) == AppendRemovals(old(Log(team)), team, gone, unread)
      ensures Log(team).events == old(Log(team)).events + emitted
      ensures forall other :: other != team ==> Log(other) == old(Log(other))
    {
      emitted := [];
      NothingAppended(Log(team), team, map[], unread);
      for k := 0 to |gone|
        invariant Log(team) == AppendRemovals(old(Log(team)), team, gone[..k], unread)
        invariant Log(team).events == old(Log(team)).events + emitted
        invariant forall other :: other != team ==> Log(other) == old(Log(other))
      {
        OneMoreRemoval(old(Log(team)), team, gone[..k], gone[k], unread);
        assert gone[..k + 1] == gone[..k] + [gone[k]];
        var e := Append(team, Remove(gone[k]), unread);
        emitted := emitted + [e];
      }
      assert gone[..|gone|] == gone;
    }

    method AppendChanged(team: string, kept: seq<string>, current: Snapshot,
        unread: nat) returns (emitted: seq<InboxEvent>)
      requires forall id :: id in kept ==> id in current
      modifies `events, `sequence
      ensures Log(team) == AppendUpserts(old(Log(team)), team, kept, current, unread)
      ensures Log(team).events == old(Log(team)).events + emitted
      ensures forall other :: other != team ==> Log(other) == old(Log(other))
    {
      var previous := Get(snapshots, team).GetOr(map[]);
      emitted := [];
      NothingAppended(Log(team), team, current, unread);
      for k := 0 to |kept|
        invariant Log(team) == AppendUpserts(old(Log(team)), team, kept[..k], current, unread)
        invariant Log(team).events == old(Log(team)).events + emitted
        invariant forall other :: other != team ==> Log(other) == old(Log(other))
      {
        OneMoreUpsert(old(Log(team)), team, kept[..k], kept[k], current, unread);
        assert kept[..k + 1] == kept[..k] + [kept[k]];
        if Get(previous, kept[k]) != Some(current[kept[k]]) {
          var e := Append(team, Upsert(current[kept[k]]), unread);
          emitted := emitted + [e];
        }
      }
      assert kept[..|kept|] == kept;
    }

    method AppendCount(team: string, previous: Snapshot, unread: nat) returns (emitted: seq<InboxEvent>)
      modifies `events, `sequence
      ensures Log(team) ==
        if old(Log(team)).events == [] || |UnreadIds(previous)| != unread
        then InboxEvents.Append(old(Log(team)), team, UnreadCount, unread) else old(Log(team))
      ensures Log(team).events == old(Log(team)).events + emitted
      ensures forall other :: other != team ==> Log(other) == old(Log(other))
    {
      emitted := [];
      var previousUnread := CountSnapshot(previous);
      if Get(events, team).GetOr([]) == [] || previousUnread != unread {
        var e := Append(team, UnreadCount, unread);
        emitted := [e];
      }
    }

    method Publish(team: string, items: seq<Item>) returns (emitted: seq<InboxEvent>)
      modifies this
      ensures Publishes(old(Log(team)), team, items, Log(team))
      ensures Log(team).events == old(Log(team)).events + emitted
      ensures forall other :: other != team ==> Log(other) == old(Log(other))
    {
      hide AppendRemovals, AppendUpserts, InboxEvents.Append, ById, CountUnread, UnreadIds, SortedIds;
      var previous := Get(snapshots, team).GetOr(map[]);
      var current := Index(items);
      var unread := Count(items);
      var gone := SortIds(previous.Keys - current.Keys);
      var kept := SortIds(current.Keys);
      SortedIdsAre(kept, current.Keys);
      emitted := AppendChanges(team, gone, kept, current, unread);
      label Appended:
      snapshots := snapshots[team := current];
      forall other | other != team ensures Log(other) == old(Log(other)) {
        assert old@Appended(Log(other)) == old(Log(other));
      }
      assert Log(team) == PublishOrdered(old(Log(team)), team, items, gone, kept);
    }

    /** The removals, the upserts and the count, before the snapshot is replaced. */
    method AppendChanges(team: string, gone: seq<string>, kept: seq<string>, current: Snapshot,
        unread: nat) returns (emitted: seq<InboxEvent>)
      requires forall id :: id in kept ==> id in current
      modifies `events, `sequence
      ensures Log(team) == WithChanges(old(Log(team)), team, gone, kept, current, unread)
      ensures Log(team).events == old(Log(team)).events + emitted
      ensures forall other :: other != team ==> Log(other) == old(Log(other))
    {
      hide AppendRemovals, AppendUpserts, InboxEvents.Append, UnreadIds;
      var previous := Get(snapshots, team).GetOr(map[]);
      var removed := AppendGone(team, gone, unread);
      label Removed:
      var changed := AppendChanged(team, kept, current, unread);
      label Changed:
      var counted := AppendCount(team, previous, unread);
      emitted := removed + (changed + counted);
      forall other | other != team ensures Log(other) == old(Log(other)) {
        assert old@Changed(Log(other)) == old@Removed(Log(other));
      }
    }

    method EventsAfter(team: string, cursor: Option<int>) returns (replayed: seq<InboxEvent>)
      ensures replayed == InboxEvents.EventsAfter(Log(team), cursor)
    {
      var safe := if cursor.Some? && cursor.value >= 0 then cursor.value else 0;
      replayed := Filter(Get(events, team).GetOr([]), IsLater(safe));
    }

    method Cursor(team: string) returns (cursor: nat)
      ensures cursor == Log(team).sequence
    {
      cursor := Get(sequence, team).GetOr(0);
    }
  }

  lemma SortedIdsAre(sorted: seq<string>, ids: set<string>)
    requires SortedIds(sorted, ids)
    ensures forall id :: id in sorted <==> id in ids
  {
  }

  lemma NothingAppended(log: TeamLog, team: string, current: Snapshot, unread: nat)
    ensures AppendRemovals(log, team, [], unread) == log && AppendUpserts(log, team, [], current, unread) == log
  {
  }

  lemma OneMoreRemoval(log: TeamLog, team: string, ids: seq<string>, id: string, unread: nat)
    ensures AppendRemovals(log, team, ids + [id], unread)
      == InboxEvents.Append(AppendRemovals(log, team, ids, unread), team, Remove(id), unread)
  {
    assert (ids + [id])[..|ids|] == ids;
  }

  lemma OneMoreUpsert(log: TeamLog, team: string, ids: seq<string>, id: string, current: Snapshot, unread: nat)
    ensures var before := AppendUpserts(log, team, ids, current, unread);
      AppendUpserts(log, team, ids + [id], current, unread)
      == if Changed(log, current, id) then InboxEvents.Append(before, team, Upsert(current[id]), unread) else before
  {
    assert (ids + [id])[..|ids|] == ids;
  }

  method Index(items: seq<Item>) returns (current: Snapshot)
    ensures current == ById(items)
  {
    current := map[];
    for k := 0 to |items|
      invariant current == ById(items[..k])
    {
      assert items[..k + 1][..k] == items[..k];
      current := current[items[k].itemId := items[k]];
    }
    assert items[..|items|] == items;
  }

  method Count(items: seq<Item>) returns (unread: nat)
    ensures unread == CountUnread(items)
  {
    unread := 0;
    for k := 0 to |items|
      invariant unread == CountUnread(items[..k])
    {
      assert items[..k + 1][..k] == items[..k];
      if !items[k].acknowledged && !items[k].resolved { unread := unread + 1; }
    }
    assert items[..|items|] == items;
  }

  /** `count_unread(list(snapshot.values()))`. */
  method CountSnapshot(snapshot: Snapshot) returns (unread: nat)
    ensures unread == |UnreadIds(snapshot)|
  {
    unread := 0;
    var todo := snapshot.Keys;
    ghost var counted: set<string> := {};
    while todo != {}
      invariant todo <= snapshot.Keys && todo !! counted && unread == |counted|
      invariant forall id :: id in counted <==> id in UnreadIds(snapshot) && id !in todo
      decreases todo
    {
      var id :| id in todo;
      if Unread(snapshot[id]) {
        unread := unread + 1;
        counted := counted + {id};
      }
      todo := todo - {id};
    }
    assert counted == UnreadIds(snapshot);
  }

  method SortIds(ids: set<string>) returns (sorted: seq<string>)
    ensures SortedIds(sorted, ids)
  {
    hide SortedIds, Insert;
    sorted := [];
    var todo := ids;
    NothingSorted();
    assert ids - todo == {};
    while todo != {}
      invariant todo <= ids && SortedIds(sorted, ids - todo)
      decreases todo
    {
      var id :| id in todo;
      InsertKeepsStrict(id, sorted, ids - todo);
      assert ids - (todo - {id}) == ids - todo + {id};
      sorted := Insert(id, sorted, StringLe);
      todo := todo - {id};
    }
    assert ids - todo == ids;
  }

  lemma NothingSorted()
    ensures SortedIds([], {})
  {
  }

  lemma StringPreorder()
    ensures TotalPreorder(StringLe)
  {
    StringOrder();
  }

  lemma InsertKeepsStrict(id: string, sorted: seq<string>, ids: set<string>)
    requires SortedIds(sorted, ids) && id !in ids
    ensures SortedIds(Insert(id, sorted, StringLe), ids + {id})
  {
    hide StringLe, Insert;
    StringPreorder();
    var after := Insert(id, sorted, StringLe);
    InsertSorted(id, sorted, StringLe);
    forall x ensures x in after <==> x in ids + {id} {
      assert x in after <==> x in multiset(after);
      assert x in multiset(sorted) <==> x in sorted;
    }
    InsertDistinct(id, sorted);
    forall i, j | 0 <= i < j < |after| ensures !StringLe(after[j], after[i]) {
      assert after[i] != after[j];
      StringLeTotal(after[i], after[j]);
    }
  }

  lemma {:induction false} InsertDistinct(id: string, s: seq<string>)
    requires StrictlySorted(s, StringLe) && id !in s
    ensures forall i, j :: 0 <= i < j < |Insert(id, s, StringLe)| ==> Insert(id, s, StringLe)[i] != Insert(id, s, StringLe)[j]
  {
    if s != [] && !StringLe(id, s[0]) {
      InsertDistinct(id, s[1..]);
      var tail := Insert(id, s[1..], StringLe);
      forall i | 0 <= i < |tail| ensures tail[i] != s[0] {
        assert tail[i] in multiset(tail);
        assert tail[i] == id || tail[i] in s[1..];
      }
    }
  }

  // ---- The store ----

  datatype TeamInbox = TeamInbox(items: seq<Item>, log: TeamLog)

  datatype Op = Reconcile(records: seq<SourceRecord>) | Decide(itemId: string, decision: Decision)

  /** One operation on a team's inbox; deciding about an item that is not there does nothing. */
  ghost predicate Step(team: string, before: TeamInbox, op: Op, after: TeamInbox) {
    match op
    case Reconcile(records) =>
      && after.items == ReconcileInboxForTeam(before.items, records, team)
      && Publishes(before.log, team, after.items, after.log)
    case Decide(id, decision) =>
      if Find(before.items, id).None? then after == before
      else
        && after.items == DecideItem(before.items, id, decision)
        && Publishes(before.log, team, after.items, after.log)
  }

  class InboxStore {
    var items: map<string, seq<Item>>
    const stream: InboxEventStream

    ghost function Of(team: string): TeamInbox
      reads this, stream
    {
      TeamInbox(Get(items, team).GetOr([]), stream.Log(team))
    }

    constructor (stream: InboxEventStream)
      ensures this.stream == stream && items == map[]
    {
      this.stream := stream;
      items := map[];
    }

    method Reconcile(team: string, records: seq<SourceRecord>) returns (current: seq<Item>)
      modifies this, stream
      ensures Step(team, old(Of(team)), Op.Reconcile(records), Of(team)) && current == Of(team).items
      ensures forall other :: other != team ==> Of(other) == old(Of(other))
    {
      current := ReconcileItems(Get(items, team).GetOr([]), records, team);
      items := items[team := current];
      var _ := stream.Publish(team, current);
    }

    /** `acknowledge`, `assign` and `resolve`. */
    method Update(team: string, itemId: string, decision: Decision) returns (found: bool)
      modifies this, stream
      ensures Step(team, old(Of(team)), Op.Decide(itemId, decision), Of(team))
      ensures found <==> Find(old(Of(team)).items, itemId).Some?
      ensures forall other :: other != team ==> Of(other) == old(Of(other))
    {
      var current := Get(items, team).GetOr([]);
      FoundIsIn(current, itemId);
      if !(exists x :: x in current && x.itemId == itemId) { return false; }
      items := items[team := DecideItem(current, itemId, decision)];
      var _ := stream.Publish(team, items[team]);
      return true;
    }
  }

  method ProjectItems(records: seq<SourceRecord>, team: string) returns (items: seq<Item>)
    ensures items == ProjectInboxForTeam(records, team)
  {
    items := [];
    for k := 0 to |records|
      invariant items == Projected(records[..k], team)
    {
      assert records[..k + 1][..k] == records[..k];
      if records[k].teamId == team {
        var item := BuildInboxItem(records[k], team);
        if item.Some? { items := Put(items, item.value); }
      }
    }
    assert records[..|records|] == records;
    items := SortBy(items, Ranks);
  }

  /** `reconcile_inbox_for_team`: the second dictionary and the second sort change nothing. */
  method ReconcileItems(previous: seq<Item>, records: seq<SourceRecord>, team: string) returns (items: seq<Item>)
    ensures items == ReconcileInboxForTeam(previous, records, team)
  {
    var projected := ProjectItems(records, team);
    items := [];
    ghost var goal := ReconcileInboxForTeam(previous, records, team);
    ReconciledIsWellOrdered(previous, records, team);
    for k := 0 to |projected|
      invariant items == goal[..k]
    {
      PutNew(goal[..k], goal[k]);
      items := Put(items, Carry(previous, projected[k]));
    }
    RankOrder();
    assert items == goal;
    SortRestores(items, goal, Ranks);
    items := SortBy(items, Ranks);
  }

  lemma {:induction false} PutNew(items: seq<Item>, item: Item)
    requires forall x :: x in items ==> x.itemId != item.itemId
    ensures Put(items, item) == items + [item]
  {
    if items != [] {
      PutNew(items[1..], item);
    }
  }

  // ---- Every mix of operations ----

  /** Ordered, of one team, without duplicates; the log agrees with it and so does the last count announced. */
  ghost predicate TeamInvariant(team: string, t: TeamInbox) {
    && WellOrdered(t.items, team)
    && Consistent(t.log, team)
    && t.log.snapshot == ById(t.items)
    && LatestUnread(t.log.events) == CountUnread(t.items)
  }

  lemma StepKeepsInvariant(team: string, before: TeamInbox, op: Op, after: TeamInbox)
    requires TeamInvariant(team, before) && Step(team, before, op, after)
    ensures TeamInvariant(team, after)
  {
    hide Consistent, Publishes;
    match op {
      case Reconcile(records) => ReconciledIsWellOrdered(before.items, records, team);
      case Decide(id, decision) => DecideKeepsOrder(before.items, team, id, decision);
    }
    if after != before {
      PublishKeepsConsistent(before.log, team, after.items, after.log);
      CountIsUnreadIds(after.items);
      ConsistentCount(after.log, team);
    }
  }

  lemma ConsistentCount(log: TeamLog, team: string)
    requires Consistent(log, team)
    ensures LatestUnread(log.events) == |UnreadIds(log.snapshot)|
  {
  }

  ghost predicate Steps(team: string, states: seq<TeamInbox>, ops: seq<Op>) {
    && |states| == |ops| + 1
    && states[0] == TeamInbox([], NO_LOG)
    && forall i :: 0 <= i < |ops| ==> Step(team, states[i], ops[i], states[i + 1])
  }

  lemma NewInbox(team: string)
    ensures TeamInvariant(team, TeamInbox([], NO_LOG))
  {
    assert UnreadIds(map[]) == {};
  }

  /** After any mix of reconcile, acknowledge, assign and resolve. */
  lemma {:induction false} InboxAndLogAgree(team: string, states: seq<TeamInbox>, ops: seq<Op>, n: nat)
    requires Steps(team, states, ops) && n < |states|
    ensures TeamInvariant(team, states[n])
  {
    hide TeamInvariant, Step;
    if n > 0 {
      InboxAndLogAgree(team, states, ops, n - 1);
      StepKeepsInvariant(team, states[n - 1], ops[n - 1], states[n]);
    } else {
      NewInbox(team);
    }
  }
}
