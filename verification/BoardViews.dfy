/**
 Planning projections of a board: the filtered cards, their groupings by status, assignee and due
 date, and the due-date timeline. Reading an ISO date is an input, a function from text to an
 optional day number.
 */
module BoardViews {
  import opened Wrappers
  import opened Sorting

  datatype Card = Card(id: string, columnId: string, assigneeId: string, assigneeKind: string, assigneeName: string,
                       labels: seq<string>, priority: string, dueDate: string)

  datatype Column = Column(id: string, name: string, cards: seq<Card>)

  /** Absent filters are empty strings, which Crewspace treats alike. */
  datatype FilterSpec = FilterSpec(assigneeId: string, agentId: string, tag: string, priority: string, due: string,
    status: string)

  datatype Group = Group(key: string, caption: string, cards: seq<Card>)

  datatype TimelineBucket = TimelineBucket(key: string, overdue: bool, cards: seq<Card>)

  datatype GroupDimension = ByStatus | ByAssignee | ByAgent | ByDue | ByPriority | ByLabel

  datatype View = View(cards: seq<Card>, groups: seq<Group>, timeline: seq<TimelineBucket>,
                       totalCards: nat, completedCards: nat, overdueCards: nat)

  type Calendar = string -> Option<int>

  // ---- One card ----

  function DueBucket(dueDate: string, parse: Calendar, today: int): string {
    if dueDate == "" || parse(dueDate).None? then "unscheduled"
    else if parse(dueDate).value < today then "overdue"
    else if parse(dueDate).value == today then "today"
    else "upcoming"
  }

  predicate Matches(card: Card, f: Option<FilterSpec>, parse: Calendar, today: int) {
    f.None? ||
    (var spec := f.value;
    && (spec.assigneeId != "" ==> card.assigneeId == spec.assigneeId)
    && (spec.agentId != "" ==> card.assigneeId == spec.agentId && card.assigneeKind == "agent")
    && (spec.tag != "" ==> spec.tag in card.labels)
    && (spec.priority != "" ==> card.priority == spec.priority)
    && (spec.due != "" ==> DueBucket(card.dueDate, parse, today) == spec.due)
    && (spec.status != "" ==> card.columnId == spec.status))
  }

  function AllCards(columns: seq<Column>): seq<Card> {
    if columns == [] then [] else AllCards(columns[..|columns| - 1]) + columns[|columns| - 1].cards
  }

  // ---- Grouping by a key ----

  function HasKey<T>(key: T -> string, k: string): T -> bool { x => key(x) == k }

  /** The keys of a list, each once, in the order they first appear. */
  function FirstSeen<T>(items: seq<T>, key: T -> string): seq<string> {
    if items == [] then []
    else
      var before := FirstSeen(items[..|items| - 1], key);
      var k := key(items[|items| - 1]);
      if k in before then before else before + [k]
  }

  predicate Distinct(keys: seq<string>) {
    forall i, j :: 0 <= i < j < |keys| ==> keys[i] != keys[j]
  }

  lemma {:induction false} FirstSeenIsExact<T>(items: seq<T>, key: T -> string)
    ensures Distinct(FirstSeen(items, key))
    ensures forall x :: x in items ==> key(x) in FirstSeen(items, key)
    ensures forall k :: k in FirstSeen(items, key) ==> exists x :: x in items && key(x) == k
  {
    if items != [] {
      var rest, last := items[..|items| - 1], items[|items| - 1];
      FirstSeenIsExact(rest, key);
      assert items == rest + [last];
      forall k | k in FirstSeen(items, key) ensures exists x :: x in items && key(x) == k {
        if k == key(last) {
          assert last in items;
        } else {
          var x :| x in rest && key(x) == k;
          assert x in items;
        }
      }
    }
  }

  /** The items under each of the keys, one list behind the other. */
  function Gathered<T(!new)>(items: seq<T>, key: T -> string, keys: seq<string>): seq<T> {
    if keys == [] then [] else Filter(items, HasKey(key, keys[0])) + Gathered(items, key, keys[1..])
  }

  /** Distinct keys share an item out to exactly one list. */
  lemma {:induction false} GatheredOnce<T(!new)>(items: seq<T>, key: T -> string, keys: seq<string>, x: T)
    requires Distinct(keys)
    ensures multiset(Gathered(items, key, keys))[x] == if key(x) in keys then multiset(items)[x] else 0
  {
    if keys != [] {
      assert Distinct(keys[1..]);
      GatheredOnce(items, key, keys[1..], x);
      FilterMultiplicity(items, HasKey(key, keys[0]), x);
      assert keys == [keys[0]] + keys[1..];
      if key(x) == keys[0] {
        assert key(x) !in keys[1..];
      }
    }
  }

  lemma OneMoreItem<T(!new)>(items: seq<T>, key: T -> string, x: T)
    ensures forall k :: Filter(items + [x], HasKey(key, k)) == Filter(items, HasKey(key, k)) + (if k == key(x) then [x] else [])
    ensures FirstSeen(items + [x], key) == if key(x) in FirstSeen(items, key) then FirstSeen(items,
      key) else FirstSeen(items, key) + [key(x)]
    ensures key(x) !in FirstSeen(items, key) ==> Filter(items, HasKey(key, key(x))) == []
  {
    assert (items + [x])[..|items|] == items;
    forall k ensures Filter(items + [x], HasKey(key, k)) == Filter(items, HasKey(key, k)) + (if k == key(x) then [x] else []) {
      FilterConcat(items, [x], HasKey(key, k));
      FilterOne(x, HasKey(key, k));
    }
    if key(x) !in FirstSeen(items, key) {
      NothingSeen(items, key, key(x));
    }
  }

  lemma NothingYet<T(!new)>(key: T -> string)
    ensures FirstSeen([], key) == [] && forall k :: Filter([], HasKey(key, k)) == []
  {
  }

  /** The buckets of a dictionary filled in one pass: its keys in insertion order and what each holds. */
  method FillBuckets<T(!new)>(items: seq<T>, key: T -> string) returns (order: seq<string>,
      buckets: map<string, seq<T>>)
    ensures order == FirstSeen(items, key)
    ensures forall k :: k in buckets <==> k in order
    ensures forall k :: k in buckets ==> buckets[k] == Filter(items, HasKey(key, k))
  {
    hide Filter, FirstSeen;
    order, buckets := [], map[];
    NothingYet(key);
    for i := 0 to |items|
      invariant order == FirstSeen(items[..i], key)
      invariant forall k :: k in buckets <==> k in order
      invariant forall k :: k in buckets ==> buckets[k] == Filter(items[..i], HasKey(key, k))
    {
      var k := key(items[i]);
      assert items[..i + 1] == items[..i] + [items[i]];
      OneMoreItem(items[..i], key, items[i]);
      if k !in buckets {
        order := order + [k];
        buckets := buckets[k := []];
      }
      buckets := buckets[k := buckets[k] + [items[i]]];
    }
    assert items[..|items|] == items;
  }

  lemma NothingSeen<T(!new)>(items: seq<T>, key: T -> string, k: string)
    requires k !in FirstSeen(items, key)
    ensures Filter(items, HasKey(key, k)) == []
  {
    FirstSeenIsExact(items, key);
    FilterNone(items, HasKey(key, k));
  }

  // ---- The groupings ----

  function StatusKey(c: Card): string { c.columnId }

  function AssigneeKey(c: Card): string { if c.assigneeId != "" then c.assigneeId else "unassigned" }

  function DueKey(parse: Calendar, today: int): Card -> string { (c: Card) => DueBucket(c.dueDate, parse, today) }

  function KeyOf(dimension: GroupDimension, parse: Calendar, today: int): Card -> string {
    match dimension
    case ByStatus => StatusKey
    case ByDue => DueKey(parse, today)
    case ByPriority => PriorityKey
    case _ => AssigneeKey
  }

  function StatusLabel(columns: seq<Column>, key: string): string {
    if columns == [] then key
    else if columns[|columns| - 1].id == key then columns[|columns| - 1].name
    else StatusLabel(columns[..|columns| - 1], key)
  }

  function AssigneeLabel(c: Card): string {
    if c.assigneeId == "" then "Unassigned" else if c.assigneeName != "" then c.assigneeName else c.assigneeId
  }

  const DUE_ORDER: seq<string> := ["overdue", "today", "upcoming", "unscheduled"]

  function DueLabel(key: string): string {
    match key
    case "overdue" => "Overdue"
    case "today" => "Today"
    case "upcoming" => "Upcoming"
    case _ => "Unscheduled"
  }

  function PriorityKey(c: Card): string { if c.priority != "" then c.priority else "unassigned" }

  const PRIORITY_ORDER: seq<string> := ["urgent", "high", "medium", "low", "unassigned"]

  /** Cards of a priority not listed appear in no group. */
  predicate HasKnownPriority(c: Card) { PriorityKey(c) in PRIORITY_ORDER }

  // ---- Done cards ----

  /** `name.lower() == "done"`: no other characters have these four as their lower case. */
  predicate ReadsDone(name: string) {
    |name| == 4 && name[0] in {'d', 'D'} && name[1] in {'o', 'O'} && name[2] in {'n', 'N'} && name[3] in {'e', 'E'}
  }

  /** A card is done by the id or by the name of its column. */
  predicate IsDone(c: Card, columns: seq<Column>) { ReadsDone(c.columnId) || ReadsDone(StatusLabel(columns, c.columnId)) }

  function IsCompleted(columns: seq<Column>): Card -> bool { (c: Card) => IsDone(c, columns) }

  /** The agent view leaves out cards assigned to anyone but an agent. */
  predicate InAgentView(c: Card) { c.assigneeId == "" || c.assigneeKind == "agent" }

  function Shown(cards: seq<Card>, dimension: GroupDimension): seq<Card> {
    match dimension
    case ByAgent => Filter(cards, InAgentView)
    case ByPriority => Filter(cards, HasKnownPriority)
    case _ => cards
  }

  /** Groups that hold, under distinct keys and in their order, exactly the cards of each key. */
  ghost predicate AreGroups(groups: seq<Group>, cards: seq<Card>, key: Card -> string) {
    && (forall i, j :: 0 <= i < j < |groups| ==> groups[i].key != groups[j].key)
    && (forall i :: 0 <= i < |groups| ==> groups[i].cards != [] && groups[i].cards == Filter(cards, HasKey(key, groups[i].key)))
    && (forall c :: c in cards ==> exists i :: 0 <= i < |groups| && groups[i].key == key(c))
  }

  function CardsOf(groups: seq<Group>): seq<Card> {
    if groups == [] then [] else groups[0].cards + CardsOf(groups[1..])
  }

  function KeysOf(groups: seq<Group>): (keys: seq<string>)
    ensures |keys| == |groups| && forall i :: 0 <= i < |keys| ==> keys[i] == groups[i].key
  {
    seq(|groups|, i requires 0 <= i < |groups| => groups[i].key)
  }

  lemma {:induction false} CardsAreGathered(groups: seq<Group>, cards: seq<Card>, key: Card -> string)
    requires forall i :: 0 <= i < |groups| ==> groups[i].cards == Filter(cards, HasKey(key, groups[i].key))
    ensures CardsOf(groups) == Gathered(cards, key, KeysOf(groups))
  {
    if groups != [] {
      CardsAreGathered(groups[1..], cards, key);
      assert KeysOf(groups)[1..] == KeysOf(groups[1..]);
    }
  }

  /** The same cards, each as often. */
  ghost predicate SameCards(a: seq<Card>, b: seq<Card>) { multiset(a) == multiset(b) }

  /** Such groups partition the cards. */
  lemma {:induction false} GroupsPartition(groups: seq<Group>, cards: seq<Card>, key: Card -> string)
    requires AreGroups(groups, cards, key)
    ensures SameCards(CardsOf(groups), cards)
  {
    CardsAreGathered(groups, cards, key);
    forall c ensures multiset(CardsOf(groups))[c] == multiset(cards)[c] {
      GatheredOnce(cards, key, KeysOf(groups), c);
      if c in cards {
        var i :| 0 <= i < |groups| && groups[i].key == key(c);
        assert KeysOf(groups)[i] == key(c);
      } else {
        assert c !in multiset(cards);
      }
    }
  }

  lemma KeyHasCards(cards: seq<Card>, key: Card -> string, k: string)
    requires k in FirstSeen(cards, key)
    ensures Filter(cards, HasKey(key, k)) != []
  {
    FirstSeenIsExact(cards, key);
    var x :| x in cards && key(x) == k;
    assert x in Filter(cards, HasKey(key, k));
  }

  function GroupOf(cards: seq<Card>, key: Card -> string, caption: string -> string, k: string): Group {
    Group(k, caption(k), Filter(cards, HasKey(key, k)))
  }

  /** A group for each of the keys. */
  function GroupsFor(keys: seq<string>, cards: seq<Card>, key: Card -> string,
      caption: string -> string): (groups: seq<Group>)
    ensures KeysOf(groups) == keys
  {
    seq(|keys|, i requires 0 <= i < |keys| => GroupOf(cards, key, caption, keys[i]))
  }

  lemma OneMoreGroup(keys: seq<string>, cards: seq<Card>, key: Card -> string, caption: string -> string, k: string)
    ensures GroupsFor(keys + [k], cards, key, caption) == GroupsFor(keys, cards, key, caption) + [GroupOf(cards, key,
      caption, k)]
  {
  }

  /** Groups for distinct keys that have cards, and cover the cards, are as they should be. */
  lemma GroupsForAreGroups(keys: seq<string>, cards: seq<Card>, key: Card -> string, caption: string -> string)
    requires Distinct(keys)
    requires forall k :: k in keys ==> k in FirstSeen(cards, key)
    requires forall c :: c in cards ==> key(c) in keys
    ensures AreGroups(GroupsFor(keys, cards, key, caption), cards, key)
  {
    hide Filter, FirstSeen;
    var groups := GroupsFor(keys, cards, key, caption);
    forall i | 0 <= i < |groups| ensures groups[i].cards != [] {
      KeyHasCards(cards, key, keys[i]);
    }
    forall c | c in cards ensures exists i :: 0 <= i < |groups| && groups[i].key == key(c) {
      var i :| 0 <= i < |keys| && keys[i] == key(c);
      assert groups[i].key == key(c);
    }
  }

  lemma FirstSeenGroups(cards: seq<Card>, key: Card -> string, caption: string -> string)
    ensures AreGroups(GroupsFor(FirstSeen(cards, key), cards, key, caption), cards, key)
  {
    hide Filter, FirstSeen, AreGroups;
    FirstSeenIsExact(cards, key);
    GroupsForAreGroups(FirstSeen(cards, key), cards, key, caption);
  }

  // ---- By status ----

  function StatusCaption(columns: seq<Column>): string -> string { k => StatusLabel(columns, k) }

  function StatusGroups(cards: seq<Card>, columns: seq<Column>): seq<Group> {
    GroupsFor(FirstSeen(cards, StatusKey), cards, StatusKey, StatusCaption(columns))
  }

  method GroupStatus(cards: seq<Card>, columns: seq<Column>) returns (groups: seq<Group>)
    ensures groups == StatusGroups(cards, columns)
    ensures AreGroups(groups, cards, StatusKey)
  {
    hide Filter, FirstSeen, AreGroups;
    var order, buckets := FillBuckets(cards, StatusKey);
    groups := [];
    for i := 0 to |order|
      invariant groups == GroupsFor(order[..i], cards, StatusKey, StatusCaption(columns))
    {
      assert order[..i + 1] == order[..i] + [order[i]] && order[i] in buckets;
      OneMoreGroup(order[..i], cards, StatusKey, StatusCaption(columns), order[i]);
      groups := groups + [Group(order[i], StatusLabel(columns, order[i]), buckets[order[i]])];
    }
    assert order[..|order|] == order;
    FirstSeenGroups(cards, StatusKey, StatusCaption(columns));
  }

  // ---- By due date ----

  function HasCards(cards: seq<Card>, key: Card -> string): string -> bool { k => k in FirstSeen(cards, key) }

  function DueGroups(cards: seq<Card>, parse: Calendar, today: int): seq<Group> {
    var key := DueKey(parse, today);
    GroupsFor(Filter(DUE_ORDER, HasCards(cards, key)), cards, key, DueLabel)
  }

  method GroupDue(cards: seq<Card>, parse: Calendar, today: int) returns (groups: seq<Group>)
    ensures groups == DueGroups(cards, parse, today)
    ensures AreGroups(groups, cards, DueKey(parse, today))
  {
    var key := DueKey(parse, today);
    hide FirstSeen, AreGroups, DueKey, GroupsFor;
    var order, buckets := FillBuckets(cards, key);
    ghost var present := [];
    groups := [];
    assert GroupsFor([], cards, key, DueLabel) == [];
    for i := 0 to |DUE_ORDER|
      invariant present == Filter(DUE_ORDER[..i], HasCards(cards, key))
      invariant groups == GroupsFor(present, cards, key, DueLabel)
    {
      var k := DUE_ORDER[i];
      assert DUE_ORDER[..i + 1] == DUE_ORDER[..i] + [k];
      FilterConcat(DUE_ORDER[..i], [k], HasCards(cards, key));
      FilterOne(k, HasCards(cards, key));
      if k in buckets {
        OneMoreGroup(present, cards, key, DueLabel, k);
        groups := groups + [Group(k, DueLabel(k), buckets[k])];
        present := present + [k];
      }
    }
    assert DUE_ORDER[..|DUE_ORDER|] == DUE_ORDER;
    DueGroupsAreGroups(cards, parse, today);
  }

  lemma DueGroupsAreGroups(cards: seq<Card>, parse: Calendar, today: int)
    ensures AreGroups(DueGroups(cards, parse, today), cards, DueKey(parse, today))
  {
    var key := DueKey(parse, today);
    FirstSeenIsExact(cards, key);
    FilterDistinct(DUE_ORDER, HasCards(cards, key));
    forall c | c in cards ensures key(c) in Filter(DUE_ORDER, HasCards(cards, key)) {
      DueKeysAreKnown(c, parse, today);
    }
    hide Filter, FirstSeen, AreGroups, DueKey;
    GroupsForAreGroups(Filter(DUE_ORDER, HasCards(cards, key)), cards, key, DueLabel);
  }

  lemma DueKeysAreKnown(c: Card, parse: Calendar, today: int)
    ensures DueKey(parse, today)(c) in DUE_ORDER
  {
    assert DUE_ORDER[0] == "overdue" && DUE_ORDER[1] == "today" && DUE_ORDER[2] == "upcoming" && DUE_ORDER[3] == "unscheduled";
  }

  lemma {:induction false} FilterDistinct(keys: seq<string>, keep: string -> bool)
    requires Distinct(keys)
    ensures Distinct(Filter(keys, keep))
  {
    if keys != [] {
      FilterDistinct(keys[1..], keep);
      assert keys[0] !in keys[1..];
    }
  }

  // ---- By priority ----

  function SameCaption(): string -> string { (k: string) => k }

  function PriorityGroups(cards: seq<Card>): seq<Group> {
    GroupsFor(Filter(PRIORITY_ORDER, HasCards(cards, PriorityKey)), cards, PriorityKey, SameCaption())
  }

  method GroupPriority(cards: seq<Card>) returns (groups: seq<Group>)
    ensures groups == PriorityGroups(cards)
    ensures AreGroups(groups, Filter(cards, HasKnownPriority), PriorityKey)
  {
    hide FirstSeen, AreGroups, GroupsFor, HasKnownPriority;
    var order, buckets := FillBuckets(cards, PriorityKey);
    ghost var present := [];
    groups := [];
    assert GroupsFor([], cards, PriorityKey, SameCaption()) == [];
    for i := 0 to |PRIORITY_ORDER|
      invariant present == Filter(PRIORITY_ORDER[..i], HasCards(cards, PriorityKey))
      invariant groups == GroupsFor(present, cards, PriorityKey, SameCaption())
    {
      var k := PRIORITY_ORDER[i];
      assert PRIORITY_ORDER[..i + 1] == PRIORITY_ORDER[..i] + [k];
      FilterConcat(PRIORITY_ORDER[..i], [k], HasCards(cards, PriorityKey));
      FilterOne(k, HasCards(cards, PriorityKey));
      if k in buckets {
        OneMoreGroup(present, cards, PriorityKey, SameCaption(), k);
        groups := groups + [Group(k, k, buckets[k])];
        present := present + [k];
      }
    }
    assert PRIORITY_ORDER[..|PRIORITY_ORDER|] == PRIORITY_ORDER;
    PriorityGroupsAreGroups(cards);
  }

  lemma {:induction false} KnownFilter(cards: seq<Card>, k: string)
    requires k in PRIORITY_ORDER
    ensures Filter(Filter(cards, HasKnownPriority), HasKey(PriorityKey, k)) == Filter(cards, HasKey(PriorityKey, k))
  {
    if cards != [] {
      KnownFilter(cards[1..], k);
      var rest := Filter(cards[1..], HasKnownPriority);
      FilterConcat([cards[0]], rest, HasKey(PriorityKey, k));
      FilterOne(cards[0], HasKey(PriorityKey, k));
    }
  }

  lemma KnownKeys(cards: seq<Card>, k: string)
    requires k in PRIORITY_ORDER
    ensures k in FirstSeen(cards, PriorityKey) <==> k in FirstSeen(Filter(cards, HasKnownPriority), PriorityKey)
  {
    var known := Filter(cards, HasKnownPriority);
    FirstSeenIsExact(cards, PriorityKey);
    FirstSeenIsExact(known, PriorityKey);
    hide Filter, FirstSeen;
    if x :| x in cards && PriorityKey(x) == k {
      assert x in known;
    }
  }

  lemma KnownCardsAreCovered(cards: seq<Card>, c: Card)
    requires c in Filter(cards, HasKnownPriority)
    ensures PriorityKey(c) in Filter(PRIORITY_ORDER, HasCards(cards, PriorityKey))
  {
    FirstSeenIsExact(cards, PriorityKey);
    hide Filter, FirstSeen;
  }

  lemma PriorityGroupsAreGroups(cards: seq<Card>)
    ensures AreGroups(PriorityGroups(cards), Filter(cards, HasKnownPriority), PriorityKey)
  {
    hide Filter, FirstSeen, AreGroups, HasKnownPriority;
    var known, keys := Filter(cards, HasKnownPriority), Filter(PRIORITY_ORDER, HasCards(cards, PriorityKey));
    FilterDistinct(PRIORITY_ORDER, HasCards(cards, PriorityKey));
    forall k | k in keys
      ensures k in FirstSeen(known, PriorityKey)
      ensures Filter(known, HasKey(PriorityKey, k)) == Filter(cards, HasKey(PriorityKey, k))
    {
      KnownFilter(cards, k);
      KnownKeys(cards, k);
    }
    forall c | c in known ensures PriorityKey(c) in keys {
      KnownCardsAreCovered(cards, c);
    }
    GroupsForAreGroups(keys, known, PriorityKey, SameCaption());
    assert PriorityGroups(cards) == GroupsFor(keys, known, PriorityKey, SameCaption());
  }

  // ---- By label ----

  function Labels(cards: seq<Card>): seq<string> {
    if cards == [] then [] else Labels(cards[..|cards| - 1]) + cards[|cards| - 1].labels
  }

  /** The card, once for each time the label is among these. */
  function Copies(labels: seq<string>, k: string, c: Card): seq<Card> {
    if labels == [] then []
    else Copies(labels[..|labels| - 1], k, c) + if labels[|labels| - 1] == k then [c] else []
  }

  /** The cards of a label, in their order. */
  function Under(cards: seq<Card>, k: string): seq<Card> {
    if cards == [] then []
    else Under(cards[..|cards| - 1], k) + Copies(cards[|cards| - 1].labels, k, cards[|cards| - 1])
  }

  function LabelKeys(cards: seq<Card>): seq<string> { SortBy(FirstSeen(Labels(cards), SameCaption()), StringLe) }

  function LabelGroups(cards: seq<Card>): seq<Group> {
    var keys := LabelKeys(cards);
    seq(|keys|, i requires 0 <= i < |keys| => Group(keys[i], keys[i], Under(cards, keys[i])))
  }

  /** The cards of a label once these labels of a card are dealt with, after the cards before it. */
  function UnderSoFar(before: seq<Card>, labels: seq<string>, c: Card, k: string): seq<Card> {
    Under(before, k) + Copies(labels, k, c)
  }

  /** What the buckets hold then. */
  ghost predicate AreBuckets(buckets: map<string, seq<Card>>, order: seq<string>, before: seq<Card>, labels: seq<string>, c: Card) {
    && order == FirstSeen(Labels(before) + labels, SameCaption())
    && (forall k :: k in buckets <==> k in order)
    && (forall k :: UnderSoFar(before, labels, c, k) == if k in buckets then buckets[k] else [])
  }

  lemma NoLabelYet(buckets: map<string, seq<Card>>, order: seq<string>, cards: seq<Card>, c: Card)
    requires AreBuckets(buckets, order, cards, [], c)
    ensures forall d :: AreBuckets(buckets, order, cards, [], d)
  {
    hide Under, Labels, FirstSeen;
  }

  lemma OneMoreLabel(buckets: map<string, seq<Card>>, order: seq<string>, before: seq<Card>, labels: seq<string>, c: Card,
                     k: string)
    requires AreBuckets(buckets, order, before, labels, c)
    ensures AreBuckets(buckets[k := (if k in buckets then buckets[k] else []) + [c]],
                       if k in buckets then order else order + [k], before, labels + [k], c)
  {
    hide UnderSoFar, Labels, FirstSeen;
    OneMoreSeen(Labels(before) + labels, k);
    assert Labels(before) + (labels + [k]) == Labels(before) + labels + [k];
    forall j ensures UnderSoFar(before, labels + [k], c, j) == UnderSoFar(before, labels, c, j) + (if k == j then [c] else []) {
      OneMoreCopy(before, labels, k, c, j);
    }
    var none: seq<Card> := [];
    assert none + [c] == [c] && forall cards: seq<Card> :: cards + none == cards;
  }

  lemma OneMoreSeen(seen: seq<string>, k: string)
    ensures var order := FirstSeen(seen, SameCaption());
      FirstSeen(seen + [k], SameCaption()) == if k in order then order else order + [k]
  {
    assert (seen + [k])[..|seen|] == seen;
  }

  lemma OneMoreCopy(before: seq<Card>, labels: seq<string>, k: string, c: Card, j: string)
    ensures UnderSoFar(before, labels + [k], c, j) == UnderSoFar(before, labels, c, j) + if k == j then [c] else []
  {
    hide Under;
    assert (labels + [k])[..|labels|] == labels;
  }

  lemma AllLabelsOfCard(buckets: map<string, seq<Card>>, order: seq<string>, before: seq<Card>, c: Card)
    requires AreBuckets(buckets, order, before, c.labels, c)
    ensures AreBuckets(buckets, order, before + [c], [], c)
  {
    assert (before + [c])[..|before|] == before;
    assert Labels(before + [c]) + [] == Labels(before) + c.labels;
    forall k ensures UnderSoFar(before + [c], [], c, k) == UnderSoFar(before, c.labels, c, k) {
    }
  }

  method GroupLabel(cards: seq<Card>) returns (groups: seq<Group>)
    ensures groups == LabelGroups(cards)
  {
    hide Under, Labels, FirstSeen, Copies, AreBuckets, SortBy;
    groups := [];
    var order: seq<string>, buckets: map<string, seq<Card>> := [], map[];
    if cards == [] {
      NoCardsNoLabels();
      return;
    }
    NothingBucketed(cards[0]);
    for i := 0 to |cards|
      invariant AreBuckets(buckets, order, cards[..i], [], cards[0])
    {
      var card := cards[i];
      NoLabelYet(buckets, order, cards[..i], cards[0]);
      assert card.labels[..0] == [];
      for j := 0 to |card.labels|
        invariant AreBuckets(buckets, order, cards[..i], card.labels[..j], card)
      {
        var k := card.labels[j];
        assert card.labels[..j + 1] == card.labels[..j] + [k];
        OneMoreLabel(buckets, order, cards[..i], card.labels[..j], card, k);
        ghost var more := buckets[k := (if k in buckets then buckets[k] else []) + [card]];
        if k !in buckets {
          order := order + [k];
          buckets := buckets[k := []];
        }
        buckets := buckets[k := buckets[k] + [card]];
        assert buckets == more;
      }
      assert card.labels[..|card.labels|] == card.labels && cards[..i + 1] == cards[..i] + [card];
      AllLabelsOfCard(buckets, order, cards[..i], card);
      NoLabelYet(buckets, order, cards[..i + 1], card);
    }
    assert cards[..|cards|] == cards;
    BucketsAreFull(buckets, order, cards, cards[0]);
    var keys := SortBy(order, StringLe);
    for i := 0 to |keys|
      invariant groups == LabelGroups(cards)[..i]
    {
      SameElements(keys, order, keys[i]);
      assert LabelGroups(cards)[..i + 1] == LabelGroups(cards)[..i] + [LabelGroups(cards)[i]];
      groups := groups + [Group(keys[i], keys[i], buckets[keys[i]])];
    }
  }

  lemma NoCardsNoLabels()
    ensures LabelGroups([]) == []
  {
  }

  lemma NothingBucketed(c: Card)
    ensures AreBuckets(map[], [], [], [], c)
  {
  }

  lemma BucketsAreFull(buckets: map<string, seq<Card>>, order: seq<string>, cards: seq<Card>, c: Card)
    requires AreBuckets(buckets, order, cards, [], c)
    ensures LabelKeys(cards) == SortBy(order, StringLe) && forall k :: k in order <==> k in buckets
    ensures forall k :: k in buckets ==> buckets[k] == Under(cards, k)
  {
    hide Under, Labels, FirstSeen, SortBy;
    assert Labels(cards) + [] == Labels(cards);
    forall k | k in buckets ensures buckets[k] == Under(cards, k) {
      assert UnderSoFar(cards, [], c, k) == Under(cards, k);
    }
  }

  // ---- By assignee ----

  /** A group is named after the first card in it. */
  function AssigneeCaption(cards: seq<Card>): string -> string {
    k => var own := Filter(cards, HasKey(AssigneeKey, k)); if own == [] then "" else AssigneeLabel(own[0])
  }

  function AssigneeGroups(cards: seq<Card>): seq<Group> {
    GroupsFor(FirstSeen(cards, AssigneeKey), cards, AssigneeKey, AssigneeCaption(cards))
  }

  /** The index of each key among the groups. */
  ghost predicate Indexes(order: map<string, nat>, keys: seq<string>) {
    && (forall k :: k in order <==> k in keys)
    && (forall k :: k in order ==> order[k] < |keys| && keys[order[k]] == k)
  }

  lemma IndexesGrow(order: map<string, nat>, keys: seq<string>, k: string)
    requires Indexes(order, keys) && k !in order
    ensures Indexes(order[k := |keys|], keys + [k])
  {
  }

  lemma IndexIsInRange(order: map<string, nat>, keys: seq<string>, k: string)
    requires Indexes(order, keys) && k in order
    ensures order[k] < |keys|
  {
  }

  lemma OneMoreCard(seen: seq<Card>, card: Card, order: map<string, nat>)
    requires Indexes(order, FirstSeen(seen, AssigneeKey))
    ensures var groups, k := AssigneeGroups(seen), AssigneeKey(card);
      AssigneeGroups(seen + [card]) ==
        if k in order then groups[order[k] := groups[order[k]].(cards := groups[order[k]].cards + [card])]
        else groups + [Group(k, AssigneeLabel(card), [card])]
    ensures FirstSeen(seen + [card], AssigneeKey) ==
      if AssigneeKey(card) in order then FirstSeen(seen, AssigneeKey) else FirstSeen(seen, AssigneeKey) + [AssigneeKey(card)]
  {
    hide Filter, FirstSeen, GroupOf, AssigneeCaption;
    var keys := FirstSeen(seen, AssigneeKey);
    OneMoreItem(seen, AssigneeKey, card);
    FirstSeenIsExact(seen, AssigneeKey);
    forall i | 0 <= i < |keys| ensures AssigneeGroup(seen + [card], keys[i]) ==
      if keys[i] == AssigneeKey(card) then AssigneeGroup(seen, keys[i]).(cards := AssigneeGroup(seen, keys[i]).cards + [card])
      else AssigneeGroup(seen, keys[i])
    {
      GroupGains(seen, card, keys[i]);
    }
    if AssigneeKey(card) !in order {
      GroupStarts(seen, card);
    }
  }

  function AssigneeGroup(seen: seq<Card>, k: string): Group { GroupOf(seen, AssigneeKey, AssigneeCaption(seen), k) }

  lemma GroupGains(seen: seq<Card>, card: Card, k: string)
    requires k in FirstSeen(seen, AssigneeKey)
    ensures AssigneeGroup(seen + [card], k) ==
      if k == AssigneeKey(card) then AssigneeGroup(seen, k).(cards := AssigneeGroup(seen,
        k).cards + [card]) else AssigneeGroup(seen, k)
  {
    hide Filter, FirstSeen;
    OneMoreItem(seen, AssigneeKey, card);
    KeyHasCards(seen, AssigneeKey, k);
  }

  lemma GroupStarts(seen: seq<Card>, card: Card)
    requires AssigneeKey(card) !in FirstSeen(seen, AssigneeKey)
    ensures AssigneeGroup(seen + [card], AssigneeKey(card)) == Group(AssigneeKey(card), AssigneeLabel(card), [card])
  {
    hide Filter, FirstSeen;
    OneMoreItem(seen, AssigneeKey, card);
  }

  lemma NoGroupsYet()
    ensures AssigneeGroups([]) == [] && Filter([], InAgentView) == [] && Indexes(map[], FirstSeen([], AssigneeKey))
  {
  }

  lemma AssigneeGroupsAreGroups(cards: seq<Card>)
    ensures KeysOf(AssigneeGroups(cards)) == FirstSeen(cards, AssigneeKey)
    ensures AreGroups(AssigneeGroups(cards), cards, AssigneeKey)
  {
    FirstSeenGroups(cards, AssigneeKey, AssigneeCaption(cards));
  }

  method GroupAssignee(cards: seq<Card>, agentsOnly: bool) returns (groups: seq<Group>)
    ensures groups == AssigneeGroups(if agentsOnly then Filter(cards, InAgentView) else cards)
    ensures AreGroups(groups, if agentsOnly then Filter(cards, InAgentView) else cards, AssigneeKey)
  {
    hide FirstSeen, AreGroups, AssigneeGroups, Filter, Indexes;
    ghost var seen := [];
    groups := [];
    var order: map<string, nat> := map[];
    NoGroupsYet();
    for i := 0 to |cards|
      invariant seen == if agentsOnly then Filter(cards[..i], InAgentView) else cards[..i]
      invariant groups == AssigneeGroups(seen)
      invariant Indexes(order, FirstSeen(seen, AssigneeKey))
    {
      var card := cards[i];
      assert cards[..i + 1] == cards[..i] + [card];
      FilterConcat(cards[..i], [card], InAgentView);
      FilterOne(card, InAgentView);
      assert seen + [] == seen && [] + [card] == [card];
      if !agentsOnly || InAgentView(card) {
        var key := AssigneeKey(card);
        OneMoreCard(seen, card, order);
        AssigneeGroupsAreGroups(seen);
        if key !in order {
          IndexesGrow(order, FirstSeen(seen, AssigneeKey), key);
          order := order[key := |groups|];
          groups := groups + [Group(key, AssigneeLabel(card), [])];
        } else {
          IndexIsInRange(order, FirstSeen(seen, AssigneeKey), key);
        }
        var at := order[key];
        groups := groups[at := groups[at].(cards := groups[at].cards + [card])];
        seen := seen + [card];
      }
    }
    assert cards[..|cards|] == cards;
    AssigneeGroupsAreGroups(seen);
  }

  // ---- Any dimension ----

  /** The groups of the view, whatever they go by. */
  function GroupsOf(cards: seq<Card>, columns: seq<Column>, dimension: GroupDimension, parse: Calendar, today: int): seq<Group> {
    match dimension
    case ByStatus => StatusGroups(cards, columns)
    case ByDue => DueGroups(cards, parse, today)
    case ByPriority => PriorityGroups(cards)
    case ByAgent => AssigneeGroups(Filter(cards, InAgentView))
    case ByAssignee => AssigneeGroups(cards)
    case ByLabel => LabelGroups(cards)
  }
}
