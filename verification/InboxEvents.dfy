/** A team's event log: what each publication appends, and what a client can rebuild from it. */
module InboxEvents {
  import opened Wrappers
  import opened Sorting
  import opened Inbox

  datatype Change = Upsert(item: Item) | Remove(itemId: string) | UnreadCount

  datatype InboxEvent = InboxEvent(sequence: nat, teamId: string, change: Change, unread: nat)

  type Snapshot = map<string, Item>

  datatype TeamLog = TeamLog(events: seq<InboxEvent>, sequence: nat, snapshot: Snapshot)

  const NO_LOG: TeamLog := TeamLog([], 0, map[])

  // ---- Counting unread ----

  predicate Unread(item: Item) { !item.acknowledged && !item.resolved }

  function CountUnread(items: seq<Item>): nat {
    if items == [] then 0 else CountUnread(items[..|items| - 1]) + (if Unread(items[|items| - 1]) then 1 else 0)
  }

  /** The ids of a snapshot's unread items; their number is `count_unread` of its values. */
  function UnreadIds(snapshot: Snapshot): set<string> {
    set id | id in snapshot && Unread(snapshot[id])
  }

  /** `{item.item_id: item for item in items}`. */
  function ById(items: seq<Item>): Snapshot {
    if items == [] then map[] else ById(items[..|items| - 1])[items[|items| - 1].itemId := items[|items| - 1]]
  }

  lemma {:induction false} ByIdKeys(items: seq<Item>, id: string)
    ensures id in ById(items) <==> exists i :: 0 <= i < |items| && items[i].itemId == id
  {
    if items != [] {
      var init := items[..|items| - 1];
      ByIdKeys(init, id);
      if id in ById(init) {
        var i :| 0 <= i < |init| && init[i].itemId == id;
        assert items[i].itemId == id;
      }
      assert forall i :: 0 <= i < |init| ==> init[i] == items[i];
    }
  }

  lemma {:induction false} ByIdAt(items: seq<Item>, i: nat)
    requires DistinctIds(items) && i < |items|
    ensures items[i].itemId in ById(items) && ById(items)[items[i].itemId] == items[i]
  {
    if i < |items| - 1 {
      ByIdAt(items[..|items| - 1], i);
    }
  }

  lemma ByIdHolds(items: seq<Item>)
    requires DistinctIds(items)
    ensures forall id :: id in ById(items) <==> exists i :: 0 <= i < |items| && items[i].itemId == id
    ensures forall i :: 0 <= i < |items| ==> items[i].itemId in ById(items) && ById(items)[items[i].itemId] == items[i]
  {
    hide ById;
    forall id ensures id in ById(items) <==> exists i :: 0 <= i < |items| && items[i].itemId == id {
      ByIdKeys(items, id);
    }
    forall i | 0 <= i < |items| ensures items[i].itemId in ById(items) && ById(items)[items[i].itemId] == items[i] {
      ByIdAt(items, i);
    }
  }

  lemma OneMoreUnread(snapshot: Snapshot, item: Item)
    requires item.itemId !in snapshot
    ensures |UnreadIds(snapshot[item.itemId := item])| == |UnreadIds(snapshot)| + if Unread(item) then 1 else 0
  {
    assert UnreadIds(snapshot[item.itemId := item]) == UnreadIds(snapshot) + if Unread(item) then {item.itemId} else {};
  }

  lemma {:induction false} CountIsUnreadIds(items: seq<Item>)
    requires DistinctIds(items)
    ensures CountUnread(items) == |UnreadIds(ById(items))|
  {
    if items != [] {
      var init, last := items[..|items| - 1], items[|items| - 1];
      CountIsUnreadIds(init);
      ByIdHolds(init);
      assert last.itemId !in ById(init);
      OneMoreUnread(ById(init), last);
    } else {
      assert UnreadIds(ById(items)) == {};
    }
  }

  // ---- Publishing ----

  function Append(log: TeamLog, team: string, change: Change, unread: nat): TeamLog {
    log.(sequence := log.sequence + 1,
         events := log.events + [InboxEvent(log.sequence + 1, team, change, unread)])
  }

  function AppendRemovals(log: TeamLog, team: string, ids: seq<string>, unread: nat): TeamLog {
    if ids == [] then log
    else Append(AppendRemovals(log, team, ids[..|ids| - 1], unread), team, Remove(ids[|ids| - 1]), unread)
  }

  function AppendUpserts(log: TeamLog, team: string, ids: seq<string>, current: Snapshot, unread: nat): TeamLog {
    if ids == [] then log
    else
      var before := AppendUpserts(log, team, ids[..|ids| - 1], current, unread);
      var id := ids[|ids| - 1];
      if id in current && !(id in log.snapshot && log.snapshot[id] == current[id])
      then Append(before, team, Upsert(current[id]), unread)
      else before
  }

  /** `sorted(ids)`. */
  ghost predicate SortedIds(sorted: seq<string>, ids: set<string>) {
    StrictlySorted(sorted, StringLe) && forall id :: id in sorted <==> id in ids
  }

  function PublishOrdered(log: TeamLog, team: string, items: seq<Item>, gone: seq<string>, kept: seq<string>): TeamLog {
    WithChanges(log, team, gone, kept, ById(items), CountUnread(items)).(snapshot := ById(items))
  }

  /** The log before its snapshot is replaced: the count comes when it is the first event or another than before. */
  function WithChanges(log: TeamLog, team: string, gone: seq<string>, kept: seq<string>, current: Snapshot,
      unread: nat): TeamLog {
    var changed := AppendUpserts(AppendRemovals(log, team, gone, unread), team, kept, current, unread);
    if changed.events == [] || |UnreadIds(log.snapshot)| != unread then Append(changed, team, UnreadCount, unread) else changed
  }

  /** The log after publishing `items`: removals in id order, then new or changed items in id order, then the count. */
  ghost predicate Publishes(log: TeamLog, team: string, items: seq<Item>, after: TeamLog) {
    exists gone, kept ::
      && SortedIds(gone, log.snapshot.Keys - ById(items).Keys)
      && SortedIds(kept, ById(items).Keys)
      && after == PublishOrdered(log, team, items, gone, kept)
  }

  lemma {:induction false} StrictSetIsUnique(s: seq<string>, t: seq<string>)
    requires StrictlySorted(s, StringLe) && StrictlySorted(t, StringLe) && forall x :: x in s <==> x in t
    ensures s == t
  {
    assert (s != [] ==> s[0] in t) && (t != [] ==> t[0] in s);
    if s != [] {
      var i :| 0 <= i < |t| && t[i] == s[0];
      var j :| 0 <= j < |s| && s[j] == t[0];
      StringLeTotal(s[0], t[0]);
      assert s == [s[0]] + s[1..] && t == [t[0]] + t[1..];
      forall x ensures x in s[1..] <==> x in t[1..] {
        StrictTail(s, x);
        StrictTail(t, x);
      }
      StrictSetIsUnique(s[1..], t[1..]);
    }
  }

  lemma StrictTail(s: seq<string>, x: string)
    requires StrictlySorted(s, StringLe) && s != []
    ensures x in s[1..] <==> x in s && x != s[0]
  {
    assert s == [s[0]] + s[1..];
  }

  /** There is only one log a publication can produce. */
  lemma {:induction false} PublicationIsDetermined(log: TeamLog, team: string, items: seq<Item>, a: TeamLog, b: TeamLog)
    requires Publishes(log, team, items, a) && Publishes(log, team, items, b)
    ensures a == b
  {
    var ids, current := log.snapshot.Keys - ById(items).Keys, ById(items).Keys;
    var ga, ka :| SortedIds(ga, ids) && SortedIds(ka, current) && a == PublishOrdered(log, team, items, ga, ka);
    var gb, kb :| SortedIds(gb, ids) && SortedIds(kb, current) && b == PublishOrdered(log, team, items, gb, kb);
    StrictSetIsUnique(ga, gb);
    StrictSetIsUnique(ka, kb);
  }

  // ---- What a client rebuilds ----

  function See(view: Snapshot, e: InboxEvent): Snapshot {
    match e.change
    case Upsert(item) => view[item.itemId := item]
    case Remove(id) => view - {id}
    case UnreadCount => view
  }

  function Fold(view: Snapshot, events: seq<InboxEvent>): Snapshot {
    if events == [] then view else See(Fold(view, events[..|events| - 1]), events[|events| - 1])
  }

  /** None until a count has been announced. */
  function LatestUnread(events: seq<InboxEvent>): nat {
    if events == [] then 0
    else if events[|events| - 1].change.UnreadCount? then events[|events| - 1].unread
    else LatestUnread(events[..|events| - 1])
  }

  /** Replay strictly after the cursor; a missing or negative one replays everything. */
  function EventsAfter(log: TeamLog, cursor: Option<int>): seq<InboxEvent> {
    var safe := if cursor.Some? && cursor.value >= 0 then cursor.value else 0;
    Filter(log.events, IsLater(safe))
  }

  function IsLater(cursor: int): InboxEvent -> bool { (e: InboxEvent) => e.sequence > cursor }

  ghost predicate Numbered(log: TeamLog, team: string) {
    && log.sequence == |log.events|
    && forall i :: 0 <= i < |log.events| ==> log.events[i].sequence == i + 1 && log.events[i].teamId == team
  }

  ghost predicate Consistent(log: TeamLog, team: string) {
    && Numbered(log, team)
    && Fold(map[], log.events) == log.snapshot
    && LatestUnread(log.events) == |UnreadIds(log.snapshot)|
    && (forall id :: id in log.snapshot ==> log.snapshot[id].itemId == id)
  }

  /** What a client that folded the whole log knows of an item. */
  function Known(log: TeamLog, id: string): Option<Item> { Get(Fold(map[], log.events), id) }

  lemma AppendEffect(log: TeamLog, team: string, change: Change, unread: nat, id: string)
    requires Numbered(log, team)
    ensures var after := Append(log, team, change, unread);
      && Numbered(after, team) && after.snapshot == log.snapshot
      && LatestUnread(after.events) == (if change.UnreadCount? then unread else LatestUnread(log.events))
      && Known(after, id) == (
           if change.Upsert? && change.item.itemId == id then Some(change.item)
           else if change == Remove(id) then None
           else Known(log, id))
  {
    assert Append(log, team, change, unread).events[..|log.events|] == log.events;
  }

  lemma {:induction false} RemovalsEffect(log: TeamLog, team: string, ids: seq<string>, unread: nat, id: string)
    requires Numbered(log, team)
    ensures var after := AppendRemovals(log, team, ids, unread);
      && Numbered(after, team) && after.snapshot == log.snapshot && LatestUnread(after.events) == LatestUnread(log.events)
      && (after.events == [] ==> log.events == [])
      && Known(after, id) == if id in ids then None else Known(log, id)
  {
    hide Known, LatestUnread, Numbered;
    if ids != [] {
      var init, last := ids[..|ids| - 1], ids[|ids| - 1];
      RemovalsEffect(log, team, init, unread, id);
      AppendEffect(AppendRemovals(log, team, init, unread), team, Remove(last), unread, id);
      assert ids == init + [last];
    }
  }

  predicate Changed(log: TeamLog, current: Snapshot, id: string) {
    id in current && !(id in log.snapshot && log.snapshot[id] == current[id])
  }

  lemma {:induction false} UpsertsEffect(log: TeamLog, team: string, ids: seq<string>, current: Snapshot, unread: nat,
      id: string)
    requires Numbered(log, team)
    requires forall x :: x in current ==> current[x].itemId == x
    ensures var after := AppendUpserts(log, team, ids, current, unread);
      && Numbered(after, team) && after.snapshot == log.snapshot && LatestUnread(after.events) == LatestUnread(log.events)
      && (after.events == [] ==> log.events == [])
      && Known(after, id) == if id in ids && Changed(log, current, id) then Some(current[id]) else Known(log, id)
  {
    hide Known, LatestUnread, Numbered;
    if ids != [] {
      var init, last := ids[..|ids| - 1], ids[|ids| - 1];
      assert ids == init + [last];
      UpsertsEffect(log, team, init, current, unread, id);
      if Changed(log, current, last) {
        AppendEffect(AppendUpserts(log, team, init, current, unread), team, Upsert(current[last]), unread, id);
      }
    }
  }

  /** After the removals and the upserts a client knows exactly what was published. */
  lemma ChangesGiveCurrent(log: TeamLog, team: string, gone: seq<string>, kept: seq<string>, current: Snapshot,
      unread: nat, id: string)
    requires Numbered(log, team) && Fold(map[], log.events) == log.snapshot
    requires forall x :: x in current ==> current[x].itemId == x
    requires forall x :: x in gone <==> x in log.snapshot.Keys - current.Keys
    requires forall x :: x in kept <==> x in current.Keys
    ensures var changed := AppendUpserts(AppendRemovals(log, team, gone, unread), team, kept, current, unread);
      && Numbered(changed, team) && changed.snapshot == log.snapshot && LatestUnread(changed.events) == LatestUnread(log.events)
      && (changed.events == [] ==> log.events == [])
      && Known(changed, id) == Get(current, id)
  {
    RemovalsEffect(log, team, gone, unread, id);
    UpsertsEffect(AppendRemovals(log, team, gone, unread), team, kept, current, unread, id);
  }

  lemma OrderedPublicationKeeps(log: TeamLog, team: string, items: seq<Item>, gone: seq<string>, kept: seq<string>)
    requires Consistent(log, team) && DistinctIds(items)
    requires SortedIds(gone, log.snapshot.Keys - ById(items).Keys) && SortedIds(kept, ById(items).Keys)
    ensures Consistent(PublishOrdered(log, team, items, gone, kept), team)
  {
    hide AppendUpserts, AppendRemovals, LatestUnread, Fold, CountUnread, UnreadIds, ById;
    var current, unread := ById(items), CountUnread(items);
    ByIdHolds(items);
    CountIsUnreadIds(items);
    var changed := AppendUpserts(AppendRemovals(log, team, gone, unread), team, kept, current, unread);
    var after := PublishOrdered(log, team, items, gone, kept);
    ChangesGiveCurrent(log, team, gone, kept, current, unread, "");
    AppendEffect(changed, team, UnreadCount, unread, "");
    forall id ensures Get(Fold(map[], after.events), id) == Get(current, id) {
      ChangesGiveCurrent(log, team, gone, kept, current, unread, id);
      AppendEffect(changed, team, UnreadCount, unread, id);
    }
    SameMap(Fold(map[], after.events), current);
  }

  /** Publishing keeps the log numbered, equal to its snapshot and right about the unread count. */
  lemma {:induction false} PublishKeepsConsistent(log: TeamLog, team: string, items: seq<Item>, after: TeamLog)
    requires Consistent(log, team) && DistinctIds(items) && Publishes(log, team, items, after)
    ensures Consistent(after, team) && after.snapshot == ById(items)
  {
    var gone, kept :| SortedIds(gone, log.snapshot.Keys - ById(items).Keys) && SortedIds(kept, ById(items).Keys)
      && after == PublishOrdered(log, team, items, gone, kept);
    OrderedPublicationKeeps(log, team, items, gone, kept);
  }

  // ---- What a publication tells ----

  predicate IsAbout(e: InboxEvent, id: string) { e.change == Remove(id) || (e.change.Upsert? && e.change.item.itemId == id) }

  /** How many events are about the item. */
  function Mentions(events: seq<InboxEvent>, id: string): nat {
    if events == [] then 0 else Mentions(events[..|events| - 1], id) + if IsAbout(events[|events| - 1], id) then 1 else 0
  }

  /** How many events announce the unread count. */
  function Announcements(events: seq<InboxEvent>): nat {
    if events == [] then 0
    else Announcements(events[..|events| - 1]) + if events[|events| - 1].change.UnreadCount? then 1 else 0
  }

  /** The log was only added to, with events that all carry this count. */
  ghost predicate Extends(log: TeamLog, after: TeamLog, unread: nat) {
    log.events <= after.events && forall i :: |log.events| <= i < |after.events| ==> after.events[i].unread == unread
  }

  lemma AppendMentions(log: TeamLog, team: string, change: Change, unread: nat, id: string)
    ensures var after := Append(log, team, change, unread);
      && Mentions(after.events, id) ==
           Mentions(log.events, id) + (if change == Remove(id) || (change.Upsert? && change.item.itemId == id) then 1 else 0)
      && Announcements(after.events) == Announcements(log.events) + (if change.UnreadCount? then 1 else 0)
      && Extends(log, after, unread)
  {
    assert Append(log, team, change, unread).events[..|log.events|] == log.events;
  }

  predicate Distinct(ids: seq<string>) { forall i, j :: 0 <= i < j < |ids| ==> ids[i] != ids[j] }

  lemma {:induction false} RemovalsMention(log: TeamLog, team: string, ids: seq<string>, unread: nat, id: string)
    requires Distinct(ids)
    ensures var after := AppendRemovals(log, team, ids, unread);
      && Mentions(after.events, id) == Mentions(log.events, id) + (if id in ids then 1 else 0)
      && Announcements(after.events) == Announcements(log.events) && Extends(log, after, unread)
      && after.snapshot == log.snapshot
  {
    hide Mentions, Announcements;
    if ids != [] {
      var init, last := ids[..|ids| - 1], ids[|ids| - 1];
      assert ids == init + [last];
      RemovalsMention(log, team, init, unread, id);
      AppendMentions(AppendRemovals(log, team, init, unread), team, Remove(last), unread, id);
    }
  }

  lemma {:induction false} UpsertsMention(log: TeamLog, team: string, ids: seq<string>, current: Snapshot, unread: nat, id: string)
    requires Distinct(ids) && forall x :: x in current ==> current[x].itemId == x
    ensures var after := AppendUpserts(log, team, ids, current, unread);
      && Mentions(after.events, id) == Mentions(log.events, id) + (if id in ids && Changed(log, current, id) then 1 else 0)
      && Announcements(after.events) == Announcements(log.events) && Extends(log, after, unread)
      && after.snapshot == log.snapshot
  {
    hide Mentions, Announcements;
    if ids != [] {
      var init, last := ids[..|ids| - 1], ids[|ids| - 1];
      assert ids == init + [last];
      UpsertsMention(log, team, init, current, unread, id);
      if Changed(log, current, last) {
        AppendMentions(AppendUpserts(log, team, init, current, unread), team, Upsert(current[last]), unread, id);
      }
    }
  }

  lemma SortedAreDistinct(sorted: seq<string>, ids: set<string>)
    requires SortedIds(sorted, ids)
    ensures Distinct(sorted)
  {
  }

  lemma ChangesMention(log: TeamLog, team: string, gone: seq<string>, kept: seq<string>, current: Snapshot, unread: nat, id: string)
    requires Distinct(gone) && Distinct(kept) && forall x :: x in current ==> current[x].itemId == x
    requires forall x :: x in gone <==> x in log.snapshot.Keys - current.Keys
    requires forall x :: x in kept <==> x in current.Keys
    ensures var changed := AppendUpserts(AppendRemovals(log, team, gone, unread), team, kept, current, unread);
      && Mentions(changed.events, id) == Mentions(log.events, id) + (if Get(log.snapshot, id) == Get(current, id) then 0 else 1)
      && Announcements(changed.events) == Announcements(log.events) && Extends(log, changed, unread)
  {
    RemovalsMention(log, team, gone, unread, id);
    UpsertsMention(AppendRemovals(log, team, gone, unread), team, kept, current, unread, id);
  }

  /**
   A publication adds one event for each item that is new, gone or another than before, and none for
   any other; it announces the count exactly when that changed or nothing was ever published.
   */
  lemma {:induction false} PublicationsTellWhatChanged(log: TeamLog, team: string, items: seq<Item>, after: TeamLog, id: string)
    requires DistinctIds(items) && Publishes(log, team, items, after)
    ensures Extends(log, after, CountUnread(items)) && after.snapshot == ById(items)
    ensures Mentions(after.events, id) == Mentions(log.events, id) + (if Get(log.snapshot, id) == Get(after.snapshot, id) then 0 else 1)
    ensures Announcements(after.events) == Announcements(log.events)
      + (if |UnreadIds(log.snapshot)| != CountUnread(items) || (log.events == [] && log.snapshot == after.snapshot) then 1 else 0)
  {
    hide Append, AppendUpserts, AppendRemovals, Mentions, Announcements, CountUnread, UnreadIds, ById;
    var gone, kept :| SortedIds(gone, log.snapshot.Keys - ById(items).Keys) && SortedIds(kept, ById(items).Keys)
      && after == PublishOrdered(log, team, items, gone, kept);
    SortedAreDistinct(gone, log.snapshot.Keys - ById(items).Keys);
    SortedAreDistinct(kept, ById(items).Keys);
    ByIdHolds(items);
    ChangesMention(log, team, gone, kept, ById(items), CountUnread(items), id);
    var changed := AppendUpserts(AppendRemovals(log, team, gone, CountUnread(items)), team, kept, ById(items), CountUnread(items));
    AppendMentions(changed, team, UnreadCount, CountUnread(items), id);
    NothingChanged(log, team, gone, kept, ById(items), CountUnread(items));
  }

  lemma {:induction false} NothingUpserted(log: TeamLog, team: string, ids: seq<string>, current: Snapshot, unread: nat)
    requires forall id :: id in ids ==> !Changed(log, current, id)
    ensures AppendUpserts(log, team, ids, current, unread) == log
  {
    if ids != [] {
      assert ids[|ids| - 1] in ids && forall id :: id in ids[..|ids| - 1] ==> id in ids;
      NothingUpserted(log, team, ids[..|ids| - 1], current, unread);
    }
  }

  lemma SomeOrNone(s: seq<string>)
    ensures s == [] || s[0] in s
  {
  }

  lemma NothingChanged(log: TeamLog, team: string, gone: seq<string>, kept: seq<string>, current: Snapshot, unread: nat)
    requires Distinct(gone) && Distinct(kept) && forall x :: x in current ==> current[x].itemId == x
    requires forall x :: x in gone <==> x in log.snapshot.Keys - current.Keys
    requires forall x :: x in kept <==> x in current.Keys
    ensures AppendUpserts(AppendRemovals(log, team, gone, unread), team, kept, current, unread).events == [] <==>
      log.events == [] && log.snapshot == current
  {
    var changed := AppendUpserts(AppendRemovals(log, team, gone, unread), team, kept, current, unread);
    if log.snapshot == current {
      SomeOrNone(gone);
      NothingUpserted(log, team, kept, current, unread);
    } else if changed.events == [] {
      forall id ensures Get(log.snapshot, id) == Get(current, id) {
        ChangesMention(log, team, gone, kept, current, unread, id);
      }
      SameMap(log.snapshot, current);
    }
    ChangesMention(log, team, gone, kept, current, unread, "");
  }

  // ---- Replay from any cursor ----

  lemma {:induction false} FoldConcat(view: Snapshot, a: seq<InboxEvent>, b: seq<InboxEvent>)
    ensures Fold(view, a + b) == Fold(Fold(view, a), b)
  {
    if b == [] {
      assert a + b == a;
    } else {
      assert (a + b)[..|a + b| - 1] == a + b[..|b| - 1];
      FoldConcat(view, a, b[..|b| - 1]);
    }
  }

  predicate Touches(e: InboxEvent, id: string) {
    (e.change.Upsert? && e.change.item.itemId == id) || (e.change.Remove? && e.change.itemId == id)
  }

  /** An item a stretch of events speaks of ends up the same whatever was seen before; others are left alone. */
  lemma {:induction false} LastWordCounts(view: Snapshot, other: Snapshot, events: seq<InboxEvent>, id: string)
    ensures (exists i :: 0 <= i < |events| && Touches(events[i], id)) ==>
      Get(Fold(view, events), id) == Get(Fold(other, events), id)
    ensures !(exists i :: 0 <= i < |events| && Touches(events[i], id)) ==>
      Get(Fold(view, events), id) == Get(view, id) && Get(Fold(other, events), id) == Get(other, id)
  {
    if events != [] {
      var init, last := events[..|events| - 1], events[|events| - 1];
      LastWordCounts(view, other, init, id);
      if !Touches(last, id) {
        assert Get(Fold(view, events), id) == Get(Fold(view, init), id);
        assert Get(Fold(other, events), id) == Get(Fold(other, init), id);
        forall i | 0 <= i < |events| && Touches(events[i], id) ensures 0 <= i < |init| && Touches(init[i], id) {}
      } else {
        assert Touches(events[|events| - 1], id);
      }
    }
  }

  lemma {:induction false} SuffixBySequence(log: TeamLog, team: string, cursor: nat)
    requires Numbered(log, team)
    ensures EventsAfter(log, Some(cursor)) == if cursor <= |log.events| then log.events[cursor..] else []
  {
    hide Filter;
    var keep := IsLater(cursor);
    var k := if cursor <= |log.events| then cursor else |log.events|;
    FilterConcat(log.events[..k], log.events[k..], keep);
    assert log.events == log.events[..k] + log.events[k..];
    forall e | e in log.events ensures keep(e) <==> e.sequence > cursor {
    }
    EarlierAreNotLater(log, team, k);
    FilterNone(log.events[..k], keep);
    FilterAll(log.events[k..], keep);
  }

  lemma EarlierAreNotLater(log: TeamLog, team: string, k: nat)
    requires Numbered(log, team) && k <= |log.events|
    ensures forall e :: e in log.events[..k] ==> e.sequence <= k
    ensures forall e :: e in log.events[k..] ==> e.sequence > k
  {
  }

  /** Hearing `again` once more, before what follows it, makes no difference to any item. */
  lemma RedeliveryIsHarmless(view: Snapshot, again: seq<InboxEvent>, rest: seq<InboxEvent>, id: string)
    ensures Get(Fold(Fold(view, again), again + rest), id) == Get(Fold(view, again + rest), id)
  {
    var replayed := again + rest;
    LastWordCounts(Fold(view, again), view, replayed, id);
    LastWordCounts(view, view, again, id);
    if exists i :: 0 <= i < |again| && Touches(again[i], id) {
      var i :| 0 <= i < |again| && Touches(again[i], id);
      assert Touches(replayed[i], id);
    }
  }

  /**
   A client that has seen everything up to `seen` and replays from any cursor at or before it, or
   from none at all, ends with the current snapshot: redelivery of what it knew changes nothing.
   */
  lemma {:induction false} OverlappingReplayConverges(log: TeamLog, team: string, seen: nat, cursor: Option<int>)
    requires Consistent(log, team) && seen <= |log.events|
    requires cursor.Some? ==> cursor.value <= seen
    ensures Fold(Fold(map[], log.events[..seen]), EventsAfter(log, cursor)) == log.snapshot
  {
    hide Filter, Fold, Touches;
    var from: nat := if cursor.Some? && cursor.value >= 0 then cursor.value else 0;
    SuffixBySequence(log, team, from);
    assert EventsAfter(log, cursor) == EventsAfter(log, Some(from));
    Split(log.events, from, seen);
    SplitReplayConverges(log.events[..from], log.events[from..seen], log.events[seen..]);
  }

  lemma SplitReplayConverges(first: seq<InboxEvent>, again: seq<InboxEvent>, rest: seq<InboxEvent>)
    ensures Fold(Fold(map[], first + again), again + rest) == Fold(map[], first + (again + rest))
  {
    FoldConcat(map[], first, again);
    FoldConcat(map[], first, again + rest);
    var view := Fold(map[], first);
    forall id ensures Get(Fold(Fold(view, again), again + rest), id) == Get(Fold(view, again + rest), id) {
      RedeliveryIsHarmless(view, again, rest, id);
    }
    SameMap(Fold(Fold(view, again), again + rest), Fold(view, again + rest));
  }

  lemma SameMap(a: Snapshot, b: Snapshot)
    requires forall id :: Get(a, id) == Get(b, id)
    ensures a == b
  {
    forall id ensures id in a <==> id in b {
      assert Get(a, id) == Get(b, id);
    }
    forall id | id in a ensures a[id] == b[id] {
      assert Get(a, id) == Get(b, id);
    }
  }
}
