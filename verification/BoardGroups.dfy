/**
 What the groups of a board view say: which cards stand under which key, what a group is called, and
 in which order the groups stand.
 */
module BoardGroups {
  import opened Wrappers
  import opened Sorting
  import opened BoardViews
  import opened BoardTimeline

  // ---- Cards and captions ----

  /** The card stands under this key. A card of nobody, or of no priority, is unassigned. */
  predicate Belongs(c: Card, dimension: GroupDimension, key: string, parse: Calendar, today: int) {
    match dimension
    case ByStatus => key == c.columnId
    case ByAssignee => key == c.assigneeId != "" || (c.assigneeId == "" && key == "unassigned")
    case ByAgent => (key == c.assigneeId != "" && c.assigneeKind == "agent") || (c.assigneeId == "" && key == "unassigned")
    case ByDue => IsDue(c.dueDate, key, parse, today)
    case ByPriority =>
      && key in {"urgent", "high", "medium", "low", "unassigned"}
      && (key == c.priority || (c.priority == "" && key == "unassigned"))
    case ByLabel => key in c.labels
  }

  /** A status is called by the name of the last column with its id, if there is one, and an assignee by the first card. */
  ghost predicate IsNamed(g: Group, dimension: GroupDimension, columns: seq<Column>)
    requires g.cards != []
  {
    match dimension
    case ByStatus => IsColumnName(g.caption, columns, g.key)
    case ByDue =>
      (g.key, g.caption) in
        {("overdue", "Overdue"), ("today", "Today"), ("upcoming", "Upcoming"), ("unscheduled", "Unscheduled")}
    case ByPriority => g.caption == g.key
    case ByLabel => g.caption == g.key
    case _ =>
      var first := g.cards[0];
      if first.assigneeId == "" then g.caption == "Unassigned"
      else if first.assigneeName == "" then g.caption == first.assigneeId
      else g.caption == first.assigneeName
  }

  ghost predicate IsColumnName(caption: string, columns: seq<Column>, id: string) {
    || (caption == id && forall c :: c in columns ==> c.id != id)
    || exists i :: 0 <= i < |columns| && IsLastNamed(columns, i, id, caption)
  }

  predicate IsLastNamed(columns: seq<Column>, i: nat, id: string, name: string) {
    i < |columns| && columns[i].id == id && columns[i].name == name && forall j :: i < j < |columns| ==> columns[j].id != id
  }

  /** Every group holds exactly the cards that belong under its key, at least one, and is called accordingly. */
  lemma {:induction false} GroupsHoldWhatTheySay(cards: seq<Card>, columns: seq<Column>, dimension: GroupDimension, parse: Calendar,
                                                 today: int, i: nat)
    requires i < |GroupsOf(cards, columns, dimension, parse, today)|
    ensures var g := GroupsOf(cards, columns, dimension, parse, today)[i];
      && g.cards != [] && IsNamed(g, dimension, columns)
      && forall c :: c in g.cards <==> c in cards && Belongs(c, dimension, g.key, parse, today)
  {
    hide Filter, FirstSeen, IsNamed, Belongs;
    match dimension
    case ByStatus => StatusGroupHolds(cards, columns, parse, today, i);
    case ByDue => DueGroupHolds(cards, columns, parse, today, i);
    case ByPriority => PriorityGroupHolds(cards, columns, parse, today, i);
    case ByAssignee => AssigneeGroupHolds(cards, columns, parse, today, i);
    case ByAgent => AgentGroupHolds(cards, columns, parse, today, i);
    case ByLabel => LabelGroupHolds(cards, columns, parse, today, i);
  }

  lemma GroupHolds(cards: seq<Card>, key: Card -> string, caption: string -> string, k: string)
    requires k in FirstSeen(cards, key)
    ensures var g := GroupOf(cards, key, caption, k);
      g.cards != [] && g.key == k && g.caption == caption(k) && forall c :: c in g.cards <==> c in cards && key(c) == k
  {
    hide Filter, FirstSeen;
    KeyHasCards(cards, key, k);
  }

  lemma StatusGroupHolds(cards: seq<Card>, columns: seq<Column>, parse: Calendar, today: int, i: nat)
    requires i < |StatusGroups(cards, columns)|
    ensures var g := StatusGroups(cards, columns)[i];
      && g.cards != [] && IsNamed(g, ByStatus, columns)
      && forall c :: c in g.cards <==> c in cards && Belongs(c, ByStatus, g.key, parse, today)
  {
    hide FirstSeen, GroupOf, StatusLabel, IsColumnName;
    var k := FirstSeen(cards, StatusKey)[i];
    GroupHolds(cards, StatusKey, StatusCaption(columns), k);
    LabelIsColumnName(columns, k);
    assert forall c :: StatusKey(c) == k <==> Belongs(c, ByStatus, k, parse, today);
  }

  lemma {:induction false} LabelIsColumnName(columns: seq<Column>, key: string)
    ensures IsColumnName(StatusLabel(columns, key), columns, key)
  {
    if columns != [] {
      var rest, last := columns[..|columns| - 1], columns[|columns| - 1];
      assert columns == rest + [last];
      if last.id == key {
        assert IsLastNamed(columns, |rest|, key, last.name);
      } else {
        LabelIsColumnName(rest, key);
        if i :| 0 <= i < |rest| && IsLastNamed(rest, i, key, StatusLabel(rest, key)) {
          assert IsLastNamed(columns, i, key, StatusLabel(rest, key));
        }
      }
    }
  }

  lemma DueGroupHolds(cards: seq<Card>, columns: seq<Column>, parse: Calendar, today: int, i: nat)
    requires i < |DueGroups(cards, parse, today)|
    ensures var g := DueGroups(cards, parse, today)[i];
      && g.cards != [] && IsNamed(g, ByDue, columns)
      && forall c :: c in g.cards <==> c in cards && Belongs(c, ByDue, g.key, parse, today)
  {
    var key := DueKey(parse, today);
    var k := Filter(DUE_ORDER, HasCards(cards, key))[i];
    assert k in DUE_ORDER && HasCards(cards, key)(k);
    hide Filter, FirstSeen, GroupOf;
    GroupHolds(cards, key, DueLabel, k);
    hide Belongs, DueKey;
    forall c ensures key(c) == k <==> Belongs(c, ByDue, k, parse, today) {
      DueKeyBelongs(c, k, parse, today);
    }
  }

  lemma DueKeyBelongs(c: Card, k: string, parse: Calendar, today: int)
    ensures DueKey(parse, today)(c) == k <==> Belongs(c, ByDue, k, parse, today)
  {
  }

  lemma PriorityGroupHolds(cards: seq<Card>, columns: seq<Column>, parse: Calendar, today: int, i: nat)
    requires i < |PriorityGroups(cards)|
    ensures var g := PriorityGroups(cards)[i];
      && g.cards != [] && IsNamed(g, ByPriority, columns)
      && forall c :: c in g.cards <==> c in cards && Belongs(c, ByPriority, g.key, parse, today)
  {
    var k := Filter(PRIORITY_ORDER, HasCards(cards, PriorityKey))[i];
    assert k in PRIORITY_ORDER && HasCards(cards, PriorityKey)(k);
    hide Filter, FirstSeen, GroupOf, HasCards;
    GroupHolds(cards, PriorityKey, SameCaption(), k);
    assert forall c :: PriorityKey(c) == k <==> Belongs(c, ByPriority, k, parse, today);
  }

  lemma AssigneeGroupHolds(cards: seq<Card>, columns: seq<Column>, parse: Calendar, today: int, i: nat)
    requires i < |AssigneeGroups(cards)|
    ensures var g := AssigneeGroups(cards)[i];
      && g.cards != [] && IsNamed(g, ByAssignee, columns) && IsNamed(g, ByAgent, columns)
      && forall c :: c in g.cards <==> c in cards && Belongs(c, ByAssignee, g.key, parse, today)
  {
    var k := FirstSeen(cards, AssigneeKey)[i];
    GroupHolds(cards, AssigneeKey, AssigneeCaption(cards), k);
    hide Filter, FirstSeen;
    assert forall c :: AssigneeKey(c) == k <==> Belongs(c, ByAssignee, k, parse, today);
  }

  lemma AgentGroupHolds(cards: seq<Card>, columns: seq<Column>, parse: Calendar, today: int, i: nat)
    requires i < |AssigneeGroups(Filter(cards, InAgentView))|
    ensures var g := AssigneeGroups(Filter(cards, InAgentView))[i];
      && g.cards != [] && IsNamed(g, ByAgent, columns)
      && forall c :: c in g.cards <==> c in cards && Belongs(c, ByAgent, g.key, parse, today)
  {
    hide Filter, FirstSeen, AssigneeGroups, IsNamed;
    AssigneeGroupHolds(Filter(cards, InAgentView), columns, parse, today, i);
  }

  // ---- Labels ----

  /** Exactly the labels of the cards have a group. */
  lemma {:induction false} LabelsHaveTheirGroups(cards: seq<Card>, k: string)
    ensures (exists g :: g in LabelGroups(cards) && g.key == k) <==> (exists d :: d in cards && k in d.labels)
  {
    KeysAreLabels(cards, k);
    hide Under, LabelKeys;
    if k in LabelKeys(cards) {
      var i :| 0 <= i < |LabelKeys(cards)| && LabelKeys(cards)[i] == k;
      assert LabelGroups(cards)[i].key == k;
    }
  }

  /** A card stands in a group as often as it has the label, each time it is on the board. */
  lemma {:induction false} CardsStandUnderEachLabel(cards: seq<Card>, i: nat, c: Card)
    requires i < |LabelGroups(cards)|
    ensures var g := LabelGroups(cards)[i]; multiset(g.cards)[c] == multiset(cards)[c] * multiset(c.labels)[g.key]
  {
    CardsUnder(cards, LabelKeys(cards)[i], c);
    hide Under, LabelKeys;
  }

  lemma KeysAreLabels(cards: seq<Card>, k: string)
    ensures k in LabelKeys(cards) <==> exists d :: d in cards && k in d.labels
  {
    hide FirstSeen, SortBy;
    FirstSeenIsExact(Labels(cards), SameCaption());
    SameElements(LabelKeys(cards), FirstSeen(Labels(cards), SameCaption()), k);
    LabelsOfCards(cards, k);
    if k in Labels(cards) {
      assert SameCaption()(k) == k;
    }
  }

  lemma {:induction false} LabelsOfCards(cards: seq<Card>, k: string)
    ensures k in Labels(cards) <==> exists d :: d in cards && k in d.labels
  {
    if cards != [] {
      var rest, last := cards[..|cards| - 1], cards[|cards| - 1];
      LabelsOfCards(rest, k);
      assert cards == rest + [last];
      if k in last.labels {
        assert last in cards;
      }
    }
  }

  function Product(a: nat, b: nat): nat { a * b }

  lemma {:induction false} CardsUnder(cards: seq<Card>, k: string, c: Card)
    ensures multiset(Under(cards, k))[c] == Product(multiset(cards)[c], multiset(c.labels)[k])
  {
    hide Copies, Under, Product;
    if cards == [] {
      NothingUnder(k, c);
    } else {
      var rest, last := cards[..|cards| - 1], cards[|cards| - 1];
      assert cards == rest + [last];
      CardsUnder(rest, k, c);
      CopiesOf(last.labels, k, last, c);
      OneMoreTime(multiset(rest)[c], multiset(c.labels)[k]);
      UnderOneMore(rest, last, k);
      CountsAdd(rest, [last], c);
      CountsAdd(Under(rest, k), Copies(last.labels, k, last), c);
      OneCounts(last, c);
    }
  }

  lemma NothingUnder(k: string, c: Card)
    ensures multiset(Under([], k))[c] == Product(multiset([])[c], multiset(c.labels)[k])
  {
  }

  lemma OneCounts(last: Card, c: Card)
    ensures multiset([last])[c] == if c == last then 1 else 0
  {
  }

  lemma CountsAdd(a: seq<Card>, b: seq<Card>, c: Card)
    ensures multiset(a + b)[c] == multiset(a)[c] + multiset(b)[c]
  {
  }

  lemma UnderOneMore(cards: seq<Card>, last: Card, k: string)
    ensures Under(cards + [last], k) == Under(cards, k) + Copies(last.labels, k, last)
  {
    hide Copies;
    assert (cards + [last])[..|cards|] == cards;
  }

  lemma OneMoreTime(a: nat, b: nat)
    ensures Product(a + 1, b) == Product(a, b) + b
  {
  }

  lemma {:induction false} CopiesOf(labels: seq<string>, k: string, c: Card, d: Card)
    ensures multiset(Copies(labels, k, c))[d] == if d == c then multiset(labels)[k] else 0
  {
    if labels != [] {
      CopiesOf(labels[..|labels| - 1], k, c, d);
      assert labels == labels[..|labels| - 1] + [labels[|labels| - 1]];
    }
  }

  lemma LabelGroupHolds(cards: seq<Card>, columns: seq<Column>, parse: Calendar, today: int, i: nat)
    requires i < |LabelGroups(cards)|
    ensures var g := LabelGroups(cards)[i];
      && g.cards != [] && IsNamed(g, ByLabel, columns)
      && forall c :: c in g.cards <==> c in cards && Belongs(c, ByLabel, g.key, parse, today)
  {
    hide Under, LabelKeys;
    var k := LabelKeys(cards)[i];
    KeysAreLabels(cards, k);
    forall c ensures c in Under(cards, k) <==> c in cards && k in c.labels {
      CardsUnder(cards, k, c);
      Occurs(Under(cards, k), c);
      Occurs(cards, c);
      OccursLabel(c.labels, k);
      PositiveProduct(multiset(cards)[c], multiset(c.labels)[k]);
    }
    var d :| d in cards && k in d.labels;
    assert d in Under(cards, k);
  }

  lemma Occurs(cards: seq<Card>, c: Card)
    ensures c in cards <==> multiset(cards)[c] > 0
  {
  }

  lemma OccursLabel(labels: seq<string>, k: string)
    ensures k in labels <==> multiset(labels)[k] > 0
  {
  }

  lemma PositiveProduct(a: nat, b: nat)
    ensures Product(a, b) > 0 <==> a > 0 && b > 0
  {
  }

  lemma LabelsIncrease(cards: seq<Card>, i: nat, j: nat)
    requires i < j < |LabelKeys(cards)|
    ensures LabelKeys(cards)[i] != LabelKeys(cards)[j] && StringLe(LabelKeys(cards)[i], LabelKeys(cards)[j])
  {
    hide FirstSeen, SortBy;
    var keys, seen := LabelKeys(cards), FirstSeen(Labels(cards), SameCaption());
    FirstSeenIsExact(Labels(cards), SameCaption());
    StringOrder();
    SortBySorted(seen, StringLe);
    DistinctTwice(seen, keys, i, j);
  }

  lemma DistinctTwice(seen: seq<string>, keys: seq<string>, i: nat, j: nat)
    requires Distinct(seen) && multiset(keys) == multiset(seen) && i < j < |keys|
    ensures keys[i] != keys[j]
  {
    if keys[i] == keys[j] {
      TwiceThere(keys, i, j);
    }
    OnceEach(seen, keys[i]);
  }

  lemma TwiceThere(keys: seq<string>, i: nat, j: nat)
    requires i < j < |keys| && keys[i] == keys[j]
    ensures multiset(keys)[keys[i]] >= 2
  {
    assert keys == keys[..j] + [keys[j]] + keys[j + 1..];
    assert keys[..j][i] == keys[i];
  }

  lemma {:induction false} OnceEach(seen: seq<string>, k: string)
    requires Distinct(seen)
    ensures multiset(seen)[k] <= 1
  {
    if seen != [] {
      OnceEach(seen[1..], k);
      assert seen == [seen[0]] + seen[1..];
      if seen[0] == k {
        assert k !in seen[1..];
      }
    }
  }

  // ---- Order ----

  function Rank(order: seq<string>, k: string): nat {
    if order == [] || order[0] == k then 0 else 1 + Rank(order[1..], k)
  }

  /** The first card of the one group stands before all cards of the other. */
  ghost predicate Leads(cards: seq<Card>, g: Group, h: Group) {
    exists p :: 0 <= p < |cards| && cards[p] in g.cards && forall c :: c in cards[..p + 1] ==> c !in h.cards
  }

  /** Due dates and priorities stand in their fixed order, other groups in that of their first cards. */
  lemma {:induction false} GroupsStandInOrder(cards: seq<Card>, columns: seq<Column>, dimension: GroupDimension, parse: Calendar,
                                              today: int, i: nat, j: nat)
    requires i < j < |GroupsOf(cards, columns, dimension, parse, today)|
    ensures var g, h := GroupsOf(cards, columns, dimension, parse, today)[i], GroupsOf(cards, columns, dimension, parse, today)[j];
      match dimension
      case ByDue =>
        var order := ["overdue", "today", "upcoming", "unscheduled"];
        Rank(order, g.key) < Rank(order, h.key)
      case ByPriority =>
        var order := ["urgent", "high", "medium", "low", "unassigned"];
        Rank(order, g.key) < Rank(order, h.key)
      case ByAgent => Leads(Filter(cards, InAgentView), g, h)
      case ByLabel => g.key != h.key && StringLe(g.key, h.key)
      case _ => Leads(cards, g, h)
  {
    hide Filter, FirstSeen, Leads, Rank;
    match dimension
    case ByStatus => FirstCardsLead(cards, StatusKey, StatusCaption(columns), i, j);
    case ByDue =>
      OrdersAreDistinct();
      KeptInOrder(DUE_ORDER, HasCards(cards, DueKey(parse, today)), i, j);
    case ByPriority =>
      OrdersAreDistinct();
      KeptInOrder(PRIORITY_ORDER, HasCards(cards, PriorityKey), i, j);
    case ByAssignee => FirstCardsLead(cards, AssigneeKey, AssigneeCaption(cards), i, j);
    case ByAgent =>
      var shown := Filter(cards, InAgentView);
      FirstCardsLead(shown, AssigneeKey, AssigneeCaption(shown), i, j);
    case ByLabel => LabelsIncrease(cards, i, j);
  }

  lemma OrdersAreDistinct()
    ensures Distinct(DUE_ORDER) && Distinct(PRIORITY_ORDER)
  {
  }

  lemma {:induction false} KeptInOrder(order: seq<string>, keep: string -> bool, i: nat, j: nat)
    requires Distinct(order) && i < j < |Filter(order, keep)|
    ensures Rank(order, Filter(order, keep)[i]) < Rank(order, Filter(order, keep)[j])
  {
    hide Filter, Rank, Distinct;
    KeptTail(order, keep);
    var rest := Filter(order[1..], keep);
    var first := if keep(order[0]) then 1 else 0;
    RankBehind(order, rest[j - first]);
    if i >= first {
      KeptInOrder(order[1..], keep, i - first, j - first);
      RankBehind(order, rest[i - first]);
    }
  }

  lemma KeptTail(order: seq<string>, keep: string -> bool)
    requires Filter(order, keep) != []
    ensures order != [] && (Distinct(order) ==> Distinct(order[1..]))
    ensures Filter(order, keep) == (if keep(order[0]) then [order[0]] else []) + Filter(order[1..], keep)
    ensures forall n :: 0 <= n < |Filter(order[1..], keep)| ==> Filter(order[1..], keep)[n] in order[1..]
  {
  }

  lemma RankBehind(order: seq<string>, k: string)
    requires order != [] && Distinct(order) && k in order[1..]
    ensures Rank(order, order[0]) == 0 && Rank(order, k) == 1 + Rank(order[1..], k)
  {
  }

  lemma FirstCardsLead(cards: seq<Card>, key: Card -> string, caption: string -> string, i: nat, j: nat)
    requires i < j < |FirstSeen(cards, key)|
    ensures var groups := GroupsFor(FirstSeen(cards, key), cards, key, caption); Leads(cards, groups[i], groups[j])
  {
    hide Filter, FirstSeen;
    var p := SeenEarlier(cards, key, i, j);
  }

  /** The key seen first has an item before all items of the other. */
  lemma {:induction false} SeenEarlier<T(!new)>(items: seq<T>, key: T -> string, i: nat, j: nat) returns (p: nat)
    requires i < j < |FirstSeen(items, key)|
    ensures p < |items| && key(items[p]) == FirstSeen(items, key)[i]
    ensures forall x :: x in items[..p + 1] ==> key(x) != FirstSeen(items, key)[j]
  {
    var rest, last := items[..|items| - 1], items[|items| - 1];
    FirstSeenIsExact(rest, key);
    if j < |FirstSeen(rest, key)| {
      p := SeenEarlier(rest, key, i, j);
      assert items[..p + 1] == rest[..p + 1];
    } else {
      assert FirstSeen(items, key)[i] == FirstSeen(rest, key)[i] && FirstSeen(rest, key)[i] in FirstSeen(rest, key);
      var x :| x in rest && key(x) == FirstSeen(rest, key)[i];
      p :| 0 <= p < |rest| && rest[p] == x;
      assert items[..p + 1] == rest[..p + 1];
    }
  }

  // ---- Done cards ----

  function Lower(c: char): char { if 'A' <= c <= 'Z' then ((c as int) + 32) as char else c }

  function LowerCase(s: string): string { seq(|s|, i requires 0 <= i < |s| => Lower(s[i])) }

  /** A card is done exactly when the id of its column, or the name of that column, is "done" in any case. */
  lemma {:induction false} DoneCardsStandInDone(c: Card, columns: seq<Column>)
    ensures IsDone(c, columns) <==>
      || LowerCase(c.columnId) == "done"
      || exists i, name :: IsLastNamed(columns, i, c.columnId, name) && LowerCase(name) == "done"
  {
    LabelIsColumnName(columns, c.columnId);
    var label' := StatusLabel(columns, c.columnId);
    DoneInAnyCase(c.columnId);
    DoneInAnyCase(label');
    forall i, name | IsLastNamed(columns, i, c.columnId, name) ensures name == label' {
      LastNameIsLabel(columns, i, c.columnId, name);
    }
    hide ReadsDone, LowerCase, StatusLabel;
  }

  lemma LastNameIsLabel(columns: seq<Column>, i: nat, id: string, name: string)
    requires IsLastNamed(columns, i, id, name)
    ensures StatusLabel(columns, id) == name
  {
    LabelIsColumnName(columns, id);
  }

  lemma DoneInAnyCase(name: string)
    ensures ReadsDone(name) <==> LowerCase(name) == "done"
  {
    if |name| == 4 {
      assert LowerCase(name) == [Lower(name[0]), Lower(name[1]), Lower(name[2]), Lower(name[3])];
    }
  }
}
