/** The due-date timeline of a board and the planning view that holds it, with what they promise of the filtered cards. */
module BoardTimeline {
  import opened Wrappers
  import opened Sorting
  import opened BoardViews
  import opened IsoDates

  // ---- The timeline ----

  predicate HasDate(c: Card, parse: Calendar) { c.dueDate != "" && parse(c.dueDate).Some? }

  function IsDated(parse: Calendar): Card -> bool { (c: Card) => HasDate(c, parse) }

  function IsUndated(parse: Calendar): Card -> bool { (c: Card) => !HasDate(c, parse) }

  function TextKey(c: Card): string { c.dueDate }

  predicate DueLe(a: Card, b: Card) { StringLe(a.dueDate, b.dueDate) }

  predicate IsLate(key: string, parse: Calendar, today: int) { parse(key).Some? && parse(key).value < today }

  function Dated(cards: seq<Card>, parse: Calendar): seq<Card> { SortBy(Filter(cards, IsDated(parse)), DueLe) }

  function BucketOf(cards: seq<Card>, parse: Calendar, today: int, k: string): TimelineBucket {
    TimelineBucket(k, IsLate(k, parse, today), Filter(cards, HasKey(TextKey, k)))
  }

  function BucketsFor(keys: seq<string>, cards: seq<Card>, parse: Calendar, today: int): (buckets: seq<TimelineBucket>)
    ensures |buckets| == |keys| && forall i :: 0 <= i < |keys| ==> buckets[i] == BucketOf(cards, parse, today, keys[i])
  {
    seq(|keys|, i requires 0 <= i < |keys| => BucketOf(cards, parse, today, keys[i]))
  }

  function DatedKeys(cards: seq<Card>, parse: Calendar): seq<string> { FirstSeen(Dated(cards, parse), TextKey) }

  function Timeline(cards: seq<Card>, parse: Calendar, today: int): seq<TimelineBucket> {
    var undated := Filter(cards, IsUndated(parse));
    BucketsFor(DatedKeys(cards, parse), Dated(cards, parse), parse, today)
    + if undated == [] then [] else [TimelineBucket("unscheduled", false, undated)]
  }

  method BuildTimeline(cards: seq<Card>, parse: Calendar, today: int) returns (buckets: seq<TimelineBucket>)
    ensures buckets == Timeline(cards, parse, today)
  {
    hide Filter, FirstSeen, SortBy, BucketOf;
    var dated, unscheduled := [], [];
    NoneSplit(parse);
    for i := 0 to |cards|
      invariant dated == Filter(cards[..i], IsDated(parse))
      invariant unscheduled == Filter(cards[..i], IsUndated(parse))
    {
      var card := cards[i];
      assert cards[..i + 1] == cards[..i] + [card];
      OneMoreSplit(cards[..i], card, parse);
      if card.dueDate != "" && parse(card.dueDate).Some? {
        dated := dated + [card];
      } else {
        unscheduled := unscheduled + [card];
      }
    }
    assert cards[..|cards|] == cards;
    dated := SortBy(dated, DueLe);
    var order, groups := FillBuckets(dated, TextKey);
    buckets := [];
    for i := 0 to |order|
      invariant buckets == BucketsFor(order[..i], dated, parse, today)
    {
      assert order[..i + 1] == order[..i] + [order[i]] && order[i] in groups;
      assert BucketOf(dated, parse, today, order[i]) == TimelineBucket(order[i], IsLate(order[i], parse, today),
        groups[order[i]]) by {
        OneBucket(dated, parse, today, order[i]);
      }
      buckets := buckets + [TimelineBucket(order[i], IsLate(order[i], parse, today), groups[order[i]])];
    }
    assert order[..|order|] == order;
    if unscheduled != [] {
      buckets := buckets + [TimelineBucket("unscheduled", false, unscheduled)];
    }
  }

  lemma OneBucket(cards: seq<Card>, parse: Calendar, today: int, k: string)
    ensures BucketOf(cards, parse, today, k) == TimelineBucket(k, IsLate(k, parse, today), Filter(cards, HasKey(TextKey, k)))
  {
  }

  lemma NoneSplit(parse: Calendar)
    ensures Filter([], IsDated(parse)) == [] && Filter([], IsUndated(parse)) == []
  {
  }

  lemma OneMoreSplit(cards: seq<Card>, c: Card, parse: Calendar)
    ensures Filter(cards + [c], IsDated(parse)) == if HasDate(c, parse) then Filter(cards,
      IsDated(parse)) + [c] else Filter(cards, IsDated(parse))
    ensures Filter(cards + [c], IsUndated(parse)) == if HasDate(c, parse) then Filter(cards,
      IsUndated(parse)) else Filter(cards, IsUndated(parse)) + [c]
  {
    FilterConcat(cards, [c], IsDated(parse));
    FilterConcat(cards, [c], IsUndated(parse));
    FilterOne(c, IsDated(parse));
    FilterOne(c, IsUndated(parse));
  }

  // ---- Order ----

  lemma DueOrder()
    ensures TotalPreorder(DueLe)
  {
    hide StringLe;
    StringOrder();
  }

  /** The keys of a list sorted by key come strictly increasing. */
  lemma {:induction false} KeysIncrease(cards: seq<Card>)
    requires Sorted(cards, DueLe)
    ensures StrictlySorted(FirstSeen(cards, TextKey), StringLe)
  {
    if cards != [] {
      var rest, last := cards[..|cards| - 1], cards[|cards| - 1];
      KeysIncrease(rest);
      FirstSeenIsExact(rest, TextKey);
      var before := FirstSeen(rest, TextKey);
      forall i | 0 <= i < |before| && last.dueDate !in before
        ensures StringLe(before[i], last.dueDate) && !StringLe(last.dueDate, before[i]) {
        assert before[i] in before;
        var x :| x in rest && TextKey(x) == before[i];
        var k :| 0 <= k < |rest| && rest[k] == x;
        assert DueLe(cards[k], cards[|cards| - 1]);
        StringLeTotal(before[i], last.dueDate);
      }
    }
  }

  /** The dated keys of a timeline strictly increase as text. */
  lemma DatedKeysIncrease(cards: seq<Card>, parse: Calendar)
    ensures StrictlySorted(DatedKeys(cards, parse), StringLe)
  {
    DueOrder();
    SortBySorted(Filter(cards, IsDated(parse)), DueLe);
    KeysIncrease(Dated(cards, parse));
  }

  lemma {:induction false} InsertIsStable(x: Card, s: seq<Card>, k: string)
    ensures Filter(Insert(x, s, DueLe), HasKey(TextKey, k)) == Filter([x], HasKey(TextKey, k)) + Filter(s, HasKey(TextKey, k))
  {
    hide Filter, StringLe;
    var keep := HasKey(TextKey, k);
    if s == [] {
      NoneKept(keep);
      assert Filter([x], keep) + [] == Filter([x], keep);
    } else if DueLe(x, s[0]) {
      FilterConcat([x], s, keep);
    } else {
      InsertIsStable(x, s[1..], k);
      assert s == [s[0]] + s[1..];
      FilterConcat([s[0]], s[1..], keep);
      FilterConcat([s[0]], Insert(x, s[1..], DueLe), keep);
      OneIsLeftOut(x, s[0], k);
    }
  }

  lemma NoneKept(keep: Card -> bool)
    ensures Filter([], keep) == []
  {
  }

  lemma OneIsLeftOut(x: Card, y: Card, k: string)
    requires !DueLe(x, y)
    ensures Filter([x], HasKey(TextKey, k)) == [] || Filter([y], HasKey(TextKey, k)) == []
  {
    FilterOne(x, HasKey(TextKey, k));
    FilterOne(y, HasKey(TextKey, k));
    DifferentKeys(x, y);
  }

  lemma DifferentKeys(a: Card, b: Card)
    requires !DueLe(a, b)
    ensures TextKey(a) != TextKey(b)
  {
    StringLeTotal(a.dueDate, b.dueDate);
  }

  lemma {:induction false} SortIsStable(s: seq<Card>, k: string)
    ensures Filter(SortBy(s, DueLe), HasKey(TextKey, k)) == Filter(s, HasKey(TextKey, k))
  {
    if s != [] {
      SortIsStable(s[1..], k);
      InsertIsStable(s[0], SortBy(s[1..], DueLe), k);
      FilterOne(s[0], HasKey(TextKey, k));
    }
  }

  /** Sorting is stable: each bucket holds the cards due on its text in the order of the board. */
  lemma {:induction false} BucketsKeepBoardOrder(cards: seq<Card>, parse: Calendar, today: int, i: nat)
    requires i < |DatedKeys(cards, parse)|
    ensures var b := Timeline(cards, parse, today)[i];
      && b.key == DatedKeys(cards, parse)[i] && (b.overdue <==> IsLate(b.key, parse, today))
      && b.cards == Filter(Filter(cards, IsDated(parse)), HasKey(TextKey, b.key))
  {
    SortIsStable(Filter(cards, IsDated(parse)), DatedKeys(cards, parse)[i]);
  }

  ghost predicate Chronological(keys: seq<string>, parse: Calendar) {
    forall i, j :: 0 <= i < j < |keys| && parse(keys[i]).Some? && parse(keys[j]).Some? ==>
      parse(keys[i]).value <= parse(keys[j]).value
  }

  lemma DatedKeysAreTexts(cards: seq<Card>, parse: Calendar)
    ensures forall k :: k in DatedKeys(cards, parse) <==> exists c :: c in cards && HasDate(c, parse) && c.dueDate == k
  {
    var dated := Filter(cards, IsDated(parse));
    FirstSeenIsExact(Dated(cards, parse), TextKey);
    forall k ensures k in DatedKeys(cards, parse) <==> exists c :: c in cards && HasDate(c, parse) && c.dueDate == k {
      if k in DatedKeys(cards, parse) {
        var c :| c in Dated(cards, parse) && TextKey(c) == k;
        SameElements(Dated(cards, parse), dated, c);
      }
      if c :| c in cards && HasDate(c, parse) && c.dueDate == k {
        SameElements(Dated(cards, parse), dated, c);
        assert TextKey(c) in DatedKeys(cards, parse);
      }
    }
  }

  lemma OrderedIndexes(keys: seq<string>, i: nat, j: nat)
    requires StrictlySorted(keys, StringLe) && i < |keys| && j < |keys| && StringLe(keys[i], keys[j])
    ensures i <= j
  {
  }

  lemma ChronologicalAsTexts(cards: seq<Card>, parse: Calendar)
    ensures Chronological(DatedKeys(cards, parse), parse) <==>
      forall a, b :: a in cards && b in cards && HasDate(a, parse) && HasDate(b, parse) && StringLe(a.dueDate, b.dueDate)
        ==> parse(a.dueDate).value <= parse(b.dueDate).value
  {
    hide Filter, SortBy, FirstSeen, DatedKeys;
    var keys := DatedKeys(cards, parse);
    DatedKeysAreTexts(cards, parse);
    DatedKeysIncrease(cards, parse);
    if Chronological(keys, parse) {
      forall a, b | a in cards && b in cards && HasDate(a, parse) && HasDate(b, parse) && StringLe(a.dueDate, b.dueDate)
        ensures parse(a.dueDate).value <= parse(b.dueDate).value
      {
        assert a.dueDate in keys && b.dueDate in keys;
        var i :| 0 <= i < |keys| && keys[i] == a.dueDate;
        var j :| 0 <= j < |keys| && keys[j] == b.dueDate;
        OrderedIndexes(keys, i, j);
      }
    } else {
      var i, j :| 0 <= i < j < |keys| && parse(keys[i]).Some? && parse(keys[j]).Some?
        && parse(keys[i]).value > parse(keys[j]).value;
      assert keys[i] in keys && keys[j] in keys;
      var a :| a in cards && HasDate(a, parse) && a.dueDate == keys[i];
      var b :| b in cards && HasDate(b, parse) && b.dueDate == keys[j];
      assert StringLe(keys[i], keys[j]);
    }
  }

  ghost predicate ReadsCalendarDates(parse: Calendar) {
    forall s :: IsExtended(s) || IsBasic(s) ==> parse(s) == ReadCalendarDate(s)
  }

  predicate IsCalendarText(s: string) { IsExtended(s) || IsBasic(s) }

  /** Within a year no extended date of the board is later than a basic one. */
  ghost predicate FormatsKeepOrder(cards: seq<Card>, parse: Calendar)
    requires forall c :: c in cards && HasDate(c, parse) ==> IsCalendarText(c.dueDate)
  {
    forall a, b :: (
      a in cards && b in cards && HasDate(a, parse) && HasDate(b, parse)
      && IsExtended(a.dueDate) && IsBasic(b.dueDate) && Year(a.dueDate) == Year(b.dueDate)
      ==> Stamp(a.dueDate) <= Stamp(b.dueDate))
  }

  lemma TextsCompare(a: string, b: string)
    requires IsCalendarText(a) && IsCalendarText(b) && StringLe(a, b)
    ensures Stamp(a) <= Stamp(b) || (IsExtended(a) && IsBasic(b) && Year(a) == Year(b))
  {
    if IsExtended(a) && IsExtended(b) {
      ExtendedCompare(a, b);
    } else if IsBasic(a) && IsBasic(b) {
      BasicCompare(a, b);
    } else if IsExtended(a) {
      MixedCompare(a, b);
      if Year(a) < Year(b) {
        YearDecides(a, b);
      }
    } else {
      MixedCompare(b, a);
      YearDecides(a, b);
    }
  }

  /**
   The timeline sorts the text of its dates. On a board whose dates are written in the two calendar
   formats that is the order of the dates exactly when no year has an extended date later than a
   basic one; a board that keeps to one format is always in order.
   */
  lemma {:induction false} ChronologicalExactlyWhenFormatsKeepOrder(cards: seq<Card>, parse: Calendar)
    requires ReadsCalendarDates(parse) && forall c :: c in cards && HasDate(c, parse) ==> IsCalendarText(c.dueDate)
    ensures Chronological(DatedKeys(cards, parse), parse) <==> FormatsKeepOrder(cards, parse)
    ensures (forall c :: c in cards && HasDate(c, parse) ==> IsExtended(c.dueDate)) ==>
      Chronological(DatedKeys(cards, parse), parse)
    ensures (forall c :: c in cards && HasDate(c, parse) ==> IsBasic(c.dueDate)) ==>
      Chronological(DatedKeys(cards, parse), parse)
  {
    hide Chronological, DatedKeys, Year, Stamp, StringLe, IsExtended, IsBasic;
    ChronologicalAsTexts(cards, parse);
    forall c | c in cards && HasDate(c, parse) ensures parse(c.dueDate).value == Stamp(c.dueDate) {
      ReadIsStamp(c.dueDate);
    }
    forall a, b | a in cards && b in cards && HasDate(a, parse) && HasDate(b, parse) && StringLe(a.dueDate, b.dueDate)
      ensures Stamp(a.dueDate) <= Stamp(b.dueDate)
              || (IsExtended(a.dueDate) && IsBasic(b.dueDate) && Year(a.dueDate) == Year(b.dueDate))
    {
      TextsCompare(a.dueDate, b.dueDate);
    }
    forall a, b | a in cards && b in cards && HasDate(a, parse) && HasDate(b, parse)
      && IsExtended(a.dueDate) && IsBasic(b.dueDate) && Year(a.dueDate) == Year(b.dueDate)
      ensures StringLe(a.dueDate, b.dueDate)
    {
      MixedCompare(a.dueDate, b.dueDate);
    }
    OneFormat();
  }

  lemma ReadIsStamp(s: string)
    requires IsCalendarText(s)
    ensures ReadCalendarDate(s).Some? ==> ReadCalendarDate(s).value == Stamp(s)
  {
  }

  lemma OneFormat()
    ensures forall s :: !(IsExtended(s) && IsBasic(s))
  {
  }

  /** A board with an extended date of December and a basic one of January of the same year is out of order. */
  lemma {:induction false} MixedBoardIsOutOfOrder(december: Card, january: Card, parse: Calendar)
    requires ReadsCalendarDates(parse) && december.dueDate == "2025-12-31" && january.dueDate == "20250101"
    ensures !Chronological(DatedKeys([december, january], parse), parse)
  {
    TwoDates();
    assert HasDate(december, parse) && HasDate(january, parse);
    hide Chronological, DatedKeys, Year, Stamp, Number;
    ChronologicalExactlyWhenFormatsKeepOrder([december, january], parse);
    assert december in [december, january] && january in [december, january];
  }

  lemma TwoDates()
    ensures IsExtended("2025-12-31") && IsBasic("20250101")
    ensures Year("2025-12-31") == Year("20250101") && Stamp("2025-12-31") > Stamp("20250101")
    ensures ReadCalendarDate("2025-12-31").Some? && ReadCalendarDate("20250101").Some?
  {
    var e, b := "2025-12-31", "20250101";
    assert e[..4] == "2025" == b[..4] && e[5..7] == "12" && e[8..] == "31" && b[4..6] == "01" == b[6..];
    FourDigits();
    TwoDigits("12");
    TwoDigits("31");
    TwoDigits("01");
  }

  lemma TwoDigits(s: string)
    requires |s| == 2 && Digits(s)
    ensures Number(s) == 10 * (s[0] as int - '0' as int) + (s[1] as int - '0' as int)
  {
    assert s[..1][..0] == [];
    assert Number(s[..1]) == 10 * Number(s[..1][..0]) + (s[0] as int - '0' as int);
  }

  lemma FourDigits()
    ensures Number("2025") == 2025
  {
    assert "2025"[..3] == "202" && "202"[..2] == "20";
    TwoDigits("20");
    assert Number("202") == 202;
  }

  // ---- Partition and overdue cards ----

  function AllIn(buckets: seq<TimelineBucket>): seq<Card> {
    if buckets == [] then [] else buckets[0].cards + AllIn(buckets[1..])
  }

  function OverdueIn(buckets: seq<TimelineBucket>): seq<Card> {
    if buckets == [] then [] else (if buckets[0].overdue then buckets[0].cards else []) + OverdueIn(buckets[1..])
  }

  lemma {:induction false} InConcat(a: seq<TimelineBucket>, b: seq<TimelineBucket>)
    ensures AllIn(a + b) == AllIn(a) + AllIn(b) && OverdueIn(a + b) == OverdueIn(a) + OverdueIn(b)
  {
    if a == [] {
      assert a + b == b;
    } else {
      assert (a + b)[0] == a[0] && (a + b)[1..] == a[1..] + b;
      InConcat(a[1..], b);
      var late := if a[0].overdue then a[0].cards else [];
      assert (a[0].cards + AllIn(a[1..])) + AllIn(b) == a[0].cards + (AllIn(a[1..]) + AllIn(b));
      assert (late + OverdueIn(a[1..])) + OverdueIn(b) == late + (OverdueIn(a[1..]) + OverdueIn(b));
    }
  }

  function LateKey(parse: Calendar, today: int): string -> bool { k => IsLate(k, parse, today) }

  lemma {:induction false} BucketsAreGathered(keys: seq<string>, cards: seq<Card>, parse: Calendar, today: int)
    ensures AllIn(BucketsFor(keys, cards, parse, today)) == Gathered(cards, TextKey, keys)
    ensures OverdueIn(BucketsFor(keys, cards, parse, today)) == Gathered(cards, TextKey, Filter(keys, LateKey(parse, today)))
  {
    if keys != [] {
      var buckets := BucketsFor(keys, cards, parse, today);
      assert buckets[1..] == BucketsFor(keys[1..], cards, parse, today);
      BucketsAreGathered(keys[1..], cards, parse, today);
      GatheredOneMore(cards, keys[0], Filter(keys[1..], LateKey(parse, today)));
    }
  }

  lemma GatheredOneMore(cards: seq<Card>, k: string, keys: seq<string>)
    ensures Gathered(cards, TextKey, [k] + keys) == Filter(cards, HasKey(TextKey, k)) + Gathered(cards, TextKey, keys)
  {
    assert ([k] + keys)[1..] == keys;
  }

  function LastBucket(cards: seq<Card>, parse: Calendar): seq<TimelineBucket> {
    var undated := Filter(cards, IsUndated(parse));
    if undated == [] then [] else [TimelineBucket("unscheduled", false, undated)]
  }

  lemma LastBucketHolds(cards: seq<Card>, parse: Calendar)
    ensures AllIn(LastBucket(cards, parse)) == Filter(cards, IsUndated(parse)) && OverdueIn(LastBucket(cards, parse)) == []
  {
    hide Filter;
    var last := LastBucket(cards, parse);
    if last != [] {
      assert last[1..] == [];
    }
  }

  lemma TimelineHolds(cards: seq<Card>, parse: Calendar, today: int)
    ensures AllIn(Timeline(cards, parse, today)) == Gathered(Dated(cards, parse), TextKey, DatedKeys(cards,
      parse)) + Filter(cards, IsUndated(parse))
    ensures OverdueIn(Timeline(cards, parse, today)) == Gathered(Dated(cards, parse), TextKey,
      Filter(DatedKeys(cards, parse), LateKey(parse, today)))
  {
    hide Filter, SortBy, FirstSeen, BucketOf, AllIn, OverdueIn, Gathered;
    var dated := BucketsFor(DatedKeys(cards, parse), Dated(cards, parse), parse, today);
    assert Timeline(cards, parse, today) == dated + LastBucket(cards, parse);
    InConcat(dated, LastBucket(cards, parse));
    BucketsAreGathered(DatedKeys(cards, parse), Dated(cards, parse), parse, today);
    LastBucketHolds(cards, parse);
    assert OverdueIn(dated) + [] == OverdueIn(dated);
  }

  lemma DatedCount(cards: seq<Card>, parse: Calendar, c: Card)
    ensures multiset(Dated(cards, parse))[c] == if HasDate(c, parse) then multiset(cards)[c] else 0
    ensures multiset(Filter(cards, IsUndated(parse)))[c] == if HasDate(c, parse) then 0 else multiset(cards)[c]
    ensures c in cards && HasDate(c, parse) ==> c.dueDate in DatedKeys(cards, parse)
  {
    FilterMultiplicity(cards, IsDated(parse), c);
    FilterMultiplicity(cards, IsUndated(parse), c);
    if c in cards && HasDate(c, parse) {
      SameElements(Dated(cards, parse), Filter(cards, IsDated(parse)), c);
      FirstSeenIsExact(Dated(cards, parse), TextKey);
      assert TextKey(c) in DatedKeys(cards, parse);
    }
  }

  /** The timeline partitions the cards. */
  lemma TimelinePartitions(cards: seq<Card>, parse: Calendar, today: int)
    ensures SameCards(AllIn(Timeline(cards, parse, today)), cards)
  {
    hide Filter, SortBy, FirstSeen, AllIn, Timeline, Gathered, Dated, DatedKeys;
    TimelineHolds(cards, parse, today);
    KeysAreDistinct(cards, parse);
    forall c ensures multiset(AllIn(Timeline(cards, parse, today)))[c] == multiset(cards)[c] {
      GatheredOnce(Dated(cards, parse), TextKey, DatedKeys(cards, parse), c);
      DatedCount(cards, parse, c);
      assert c in cards <==> multiset(cards)[c] > 0;
    }
  }

  lemma KeysAreDistinct(cards: seq<Card>, parse: Calendar)
    ensures Distinct(DatedKeys(cards, parse))
    ensures forall keep :: Distinct(Filter(DatedKeys(cards, parse), keep))
  {
    FirstSeenIsExact(Dated(cards, parse), TextKey);
    forall keep ensures Distinct(Filter(DatedKeys(cards, parse), keep)) {
      FilterDistinct(DatedKeys(cards, parse), keep);
    }
  }

  function IsOverdue(parse: Calendar, today: int): Card -> bool { (c: Card) => DueBucket(c.dueDate, parse,
      today) == "overdue" }

  function OverdueCards(cards: seq<Card>, parse: Calendar, today: int): nat {
    |Filter(cards, IsOverdue(parse, today))|
  }

  lemma OverdueIsLate(c: Card, parse: Calendar, today: int)
    ensures IsOverdue(parse, today)(c) <==> HasDate(c, parse) && IsLate(c.dueDate, parse, today)
  {
    assert "today"[0] != "overdue"[0] && "upcoming"[0] != "overdue"[0] && "unscheduled"[0] != "overdue"[0];
  }

  /** The overdue buckets hold exactly the overdue cards. */
  lemma OverdueBucketsHoldOverdueCards(cards: seq<Card>, parse: Calendar, today: int)
    ensures SameCards(OverdueIn(Timeline(cards, parse, today)), Filter(cards, IsOverdue(parse, today)))
    ensures |OverdueIn(Timeline(cards, parse, today))| == OverdueCards(cards, parse, today)
  {
    hide Filter, SortBy, FirstSeen, OverdueIn, Timeline, Gathered, Dated, DatedKeys, DueBucket;
    TimelineHolds(cards, parse, today);
    KeysAreDistinct(cards, parse);
    var late := Filter(DatedKeys(cards, parse), LateKey(parse, today));
    var held, overdue := OverdueIn(Timeline(cards, parse, today)), Filter(cards, IsOverdue(parse, today));
    forall c ensures multiset(held)[c] == multiset(overdue)[c] {
      GatheredOnce(Dated(cards, parse), TextKey, late, c);
      DatedCount(cards, parse, c);
      FilterMultiplicity(cards, IsOverdue(parse, today), c);
      OverdueIsLate(c, parse, today);
      assert c in cards <==> multiset(cards)[c] > 0;
    }
    SameSize(held, overdue);
  }

  /** The overdue group of the grouping by due date holds exactly the overdue cards; without it there are none. */
  lemma {:induction false} OverdueGroupHoldsOverdueCards(groups: seq<Group>, cards: seq<Card>, parse: Calendar, today: int)
    requires AreGroups(groups, cards, DueKey(parse, today))
    ensures forall i :: 0 <= i < |groups| && groups[i].key == "overdue" ==>
      |groups[i].cards| == OverdueCards(cards, parse, today)
    ensures (forall i :: 0 <= i < |groups| ==> groups[i].key != "overdue") ==> OverdueCards(cards, parse, today) == 0
  {
    hide DueBucket;
    SameFilter(cards, HasKey(DueKey(parse, today), "overdue"), IsOverdue(parse, today));
    if forall i :: 0 <= i < |groups| ==> groups[i].key != "overdue" {
      forall c | c in cards ensures !IsOverdue(parse, today)(c) {
        var i :| 0 <= i < |groups| && groups[i].key == DueKey(parse, today)(c);
      }
      FilterNone(cards, IsOverdue(parse, today));
    }
  }

  lemma {:induction false} SameFilter(cards: seq<Card>, f: Card -> bool, g: Card -> bool)
    requires forall c :: f(c) == g(c)
    ensures Filter(cards, f) == Filter(cards, g)
  {
    if cards != [] {
      SameFilter(cards[1..], f, g);
    }
  }

  // ---- The planning view ----

  function IsMatch(f: Option<FilterSpec>, parse: Calendar, today: int): Card -> bool { (c: Card) => Matches(c, f,
      parse, today) }

  function Filtered(columns: seq<Column>, f: Option<FilterSpec>, parse: Calendar, today: int): seq<Card> {
    Filter(AllCards(columns), IsMatch(f, parse, today))
  }

  /** The card has what each filter that is set asks for. */
  predicate Fits(c: Card, spec: FilterSpec, parse: Calendar, today: int) {
    && (spec.assigneeId == "" || spec.assigneeId == c.assigneeId)
    && (spec.agentId == "" || (spec.agentId == c.assigneeId && c.assigneeKind == "agent"))
    && (spec.tag == "" || spec.tag in c.labels)
    && (spec.priority == "" || spec.priority == c.priority)
    && (spec.status == "" || spec.status == c.columnId)
    && (spec.due == "" || IsDue(c.dueDate, spec.due, parse, today))
  }

  /** How the due date lies to today; a text that is no date is no due date. */
  predicate IsDue(dueDate: string, bucket: string, parse: Calendar, today: int) {
    var date := if dueDate == "" then None else parse(dueDate);
    match date
    case None => bucket == "unscheduled"
    case Some(d) =>
      || (bucket == "overdue" && d < today) || (bucket == "today" && d == today) || (bucket == "upcoming" && d > today)
  }

  /** How often the card stands on the board. */
  function OnBoard(columns: seq<Column>, c: Card): nat {
    if columns == [] then 0 else multiset(columns[0].cards)[c] + OnBoard(columns[1..], c)
  }

  lemma {:induction false} AllCardsAreOnTheBoard(columns: seq<Column>, c: Card)
    ensures multiset(AllCards(columns))[c] == OnBoard(columns, c)
    decreases columns
  {
    if columns != [] {
      AllCardsJoin([columns[0]], columns[1..]);
      assert columns == [columns[0]] + columns[1..];
      AllCardsAreOnTheBoard(columns[1..], c);
      assert [columns[0]][..0] == [];
      assert AllCards([columns[0]]) == columns[0].cards;
    }
  }

  /** The board is read column by column, each from top to bottom. */
  lemma {:induction false} AllCardsJoin(a: seq<Column>, b: seq<Column>)
    ensures AllCards(a + b) == AllCards(a) + AllCards(b)
  {
    if b == [] {
      assert a + b == a;
    } else {
      assert (a + b)[..|a + b| - 1] == a + b[..|b| - 1];
      AllCardsJoin(a, b[..|b| - 1]);
    }
  }

  /** A view shows each card that fits its filters as often as it stands on the board, and no other. */
  lemma {:induction false} ViewsShowWhatFits(columns: seq<Column>, f: Option<FilterSpec>, parse: Calendar, today: int, c: Card)
    ensures multiset(Filtered(columns, f, parse, today))[c] ==
      if f == None || Fits(c, f.value, parse, today) then OnBoard(columns, c) else 0
  {
    AllCardsAreOnTheBoard(columns, c);
    FilterMultiplicity(AllCards(columns), IsMatch(f, parse, today), c);
    hide AllCards, OnBoard, Filter;
    if f.Some? {
      FittingMatches(c, f.value, parse, today);
    }
  }

  lemma FittingMatches(c: Card, spec: FilterSpec, parse: Calendar, today: int)
    ensures Matches(c, Some(spec), parse, today) <==> Fits(c, spec, parse, today)
  {
  }

  /**
   The view of a board. Its timeline, or its groups but for those by label, hold between them each
   card they show exactly once, and the overdue cards it counts are those its overdue buckets or its overdue group hold.
   */
  method BuildBoardPlanningView(columns: seq<Column>, f: Option<FilterSpec>, group: Option<GroupDimension>,
                                timelineView: bool, parse: Calendar, today: int) returns (view: View)
    ensures view.cards == Filtered(columns, f, parse, today)
    ensures view.totalCards == |view.cards| && view.overdueCards == OverdueCards(view.cards, parse, today)
    ensures view.completedCards == |Filter(view.cards, IsCompleted(columns))|
    ensures timelineView ==>
      && view.groups == [] && view.timeline == Timeline(view.cards, parse, today)
      && SameCards(AllIn(view.timeline), view.cards)
      && |OverdueIn(view.timeline)| == view.overdueCards
    ensures !timelineView ==> view.timeline == [] && (group.None? ==> view.groups == [])
    ensures !timelineView && group.Some? ==> view.groups == GroupsOf(view.cards, columns, group.value, parse, today)
    ensures !timelineView && group.Some? && group.value != ByLabel ==>
      && AreGroups(view.groups, Shown(view.cards, group.value), KeyOf(group.value, parse, today))
      && SameCards(CardsOf(view.groups), Shown(view.cards, group.value))
  {
    hide SameCards, AreGroups, Filter, Timeline, DueBucket, AllCards, Matches, AllIn, OverdueIn, IsDone, StatusGroups,
      DueGroups, PriorityGroups, AssigneeGroups, LabelGroups;
    var all := AllCards(columns);
    var cards := FilterCards(all, IsMatch(f, parse, today));
    var groups: seq<Group> := [];
    var timeline: seq<TimelineBucket> := [];
    if timelineView {
      timeline := BuildTimeline(cards, parse, today);
      TimelinePartitions(cards, parse, today);
      OverdueBucketsHoldOverdueCards(cards, parse, today);
    } else if group.Some? {
      match group.value {
        case ByStatus => groups := GroupStatus(cards, columns);
        case ByDue => groups := GroupDue(cards, parse, today);
        case ByPriority => groups := GroupPriority(cards);
        case ByAgent => groups := GroupAssignee(cards, true);
        case ByAssignee => groups := GroupAssignee(cards, false);
        case ByLabel => groups := GroupLabel(cards);
      }
      if group.value != ByLabel {
        GroupsPartition(groups, Shown(cards, group.value), KeyOf(group.value, parse, today));
      }
    }
    var overdue := FilterCards(cards, IsOverdue(parse, today));
    var completed := FilterCards(cards, IsCompleted(columns));
    view := View(cards, groups, timeline, |cards|, |completed|, |overdue|);
  }

  method FilterCards(cards: seq<Card>, keep: Card -> bool) returns (kept: seq<Card>)
    ensures kept == Filter(cards, keep)
  {
    kept := [];
    for i := 0 to |cards|
      invariant kept == Filter(cards[..i], keep)
    {
      assert cards[..i + 1] == cards[..i] + [cards[i]];
      FilterConcat(cards[..i], [cards[i]], keep);
      FilterOne(cards[i], keep);
      if keep(cards[i]) {
        kept := kept + [cards[i]];
      }
    }
    assert cards[..|cards|] == cards;
  }
}
