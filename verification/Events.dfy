/**
 Ordered resume and deduplication of execution events: per-run numbering, the total order used for
 replay, the tail after a cursor, and the store of ids already delivered.
 */
module Events {
  import opened Wrappers
  import opened Sorting

  datatype Event = Event(id: string, run: Option<string>, sequence: Option<nat>, payload: string)

  /** A position in the canonical order; a cursor is such a position. */
  datatype Position = Position(run: string, sequence: int, id: string)

  function OrderKey(e: Event): Position {
    Position(e.run.GetOr(""), if e.sequence.Some? then e.sequence.value else -1, e.id)
  }

  predicate PositionLe(a: Position, b: Position) {
    if a.run != b.run then StringLe(a.run, b.run)
    else if a.sequence != b.sequence then a.sequence < b.sequence
    else StringLe(a.id, b.id)
  }

  predicate EventLe(a: Event, b: Event) { PositionLe(OrderKey(a), OrderKey(b)) }

  predicate DistinctIds(events: seq<Event>) {
    forall i, j :: 0 <= i < j < |events| ==> events[i].id != events[j].id
  }

  lemma PositionOrder()
    ensures forall a, b :: PositionLe(a, b) || PositionLe(b, a)
    ensures forall a, b :: PositionLe(a, b) && PositionLe(b, a) ==> a == b
    ensures forall a, b, c :: PositionLe(a, b) && PositionLe(b, c) ==> PositionLe(a, c)
  {
    hide StringLe;
    StringOrder();
  }

  lemma EventOrder()
    ensures TotalPreorder(EventLe)
  {
    hide PositionLe;
    PositionOrder();
  }

  /**
   The canonical order: events without a run come first, then run by run; within a run those without
   a number come first, then number by number; what is left is decided by the ids.
   */
  lemma {:induction false} EventsAreOrderedByRunThenNumber(a: Event, b: Event)
    ensures a.run == None && b.run.Some? && b.run.value != "" ==> EventLe(a, b) && !EventLe(b, a)
    ensures a.run.Some? && b.run.Some? && a.run != b.run ==> (EventLe(a, b) <==> StringLe(a.run.value, b.run.value))
    ensures a.run == b.run && a.sequence == None && b.sequence.Some? ==> EventLe(a, b) && !EventLe(b, a)
    ensures a.run == b.run && a.sequence.Some? && b.sequence.Some? && a.sequence.value < b.sequence.value ==>
      EventLe(a, b) && !EventLe(b, a)
    ensures a.run == b.run && a.sequence == b.sequence ==> (EventLe(a, b) <==> StringLe(a.id, b.id))
    ensures a.run == None && b.run == Some("") && a.sequence == b.sequence ==> (EventLe(a, b) <==> StringLe(a.id, b.id))
    ensures forall n :: a.sequence == None ==> (After(Some(Position(a.run.GetOr(""), n, a.id)), a) <==> n < -1)
  {
    PositionOrder();
  }

  // ---- Events after a cursor ----

  predicate After(cursor: Option<Position>, e: Event) {
    cursor.None? || !PositionLe(OrderKey(e), cursor.value)
  }

  function IsAfter(cursor: Option<Position>): Event -> bool { e => After(cursor, e) }

  function Ordered(events: seq<Event>): seq<Event> { SortBy(events, EventLe) }

  /** The events strictly above the cursor, in canonical order. */
  function Tail(cursor: Option<Position>, events: seq<Event>): seq<Event> {
    Filter(Ordered(events), IsAfter(cursor))
  }

  lemma AfterIsUpward(cursor: Option<Position>, a: Event, b: Event)
    requires EventLe(a, b)
    ensures After(cursor, a) ==> After(cursor, b)
  {
    PositionOrder();
    hide PositionLe;
  }

  /** In an ordered list nothing up to a position is after it, and everything behind an event after a cursor is. */
  lemma BelowIsNotAfter(ordered: seq<Event>, k: nat, i: nat)
    requires Sorted(ordered, EventLe) && k <= i < |ordered|
    ensures !After(Some(OrderKey(ordered[i])), ordered[k])
  {
    PositionOrder();
    assert k < i ==> EventLe(ordered[k], ordered[i]);
  }

  lemma AboveIsAfter(cursor: Option<Position>, ordered: seq<Event>, start: nat, x: Event)
    requires Sorted(ordered, EventLe) && start < |ordered| && After(cursor, ordered[start]) && x in ordered[start..]
    ensures After(cursor, x)
  {
    hide After, EventLe;
    var i :| start <= i < |ordered| && ordered[i] == x;
    if i > start {
      AfterIsUpward(cursor, ordered[start], ordered[i]);
    }
  }

  lemma TailIsSuffix(cursor: Option<Position>, ordered: seq<Event>, start: nat)
    requires Sorted(ordered, EventLe) && start <= |ordered|
    requires forall i :: 0 <= i < start ==> !After(cursor, ordered[i])
    requires start < |ordered| ==> After(cursor, ordered[start])
    ensures Filter(ordered, IsAfter(cursor)) == ordered[start..]
  {
    hide After, EventLe, Filter;
    var keep := IsAfter(cursor);
    assert ordered == ordered[..start] + ordered[start..];
    FilterConcat(ordered[..start], ordered[start..], keep);
    FilterNone(ordered[..start], keep);
    forall x | x in ordered[start..] ensures keep(x) {
      AboveIsAfter(cursor, ordered, start, x);
    }
    FilterAll(ordered[start..], keep);
  }

  lemma StrictlyOrdered(events: seq<Event>)
    requires DistinctIds(events)
    ensures StrictlySorted(Ordered(events), EventLe)
    ensures DistinctIds(Ordered(events))
  {
    EventOrder();
    SortBySorted(events, EventLe);
    var ordered := Ordered(events);
    DistinctIsKept(ordered, events);
    forall i, j | 0 <= i < j < |ordered| ensures EventLe(ordered[i], ordered[j]) && !EventLe(ordered[j], ordered[i]) {
      if EventLe(ordered[j], ordered[i]) {
        EventAntisymmetric(ordered[i], ordered[j]);
      }
    }
  }

  lemma EventAntisymmetric(a: Event, b: Event)
    requires EventLe(a, b) && EventLe(b, a)
    ensures a.id == b.id
  {
    PositionOrder();
  }

  /** Any arrangement of events with distinct ids has distinct ids. */
  lemma DistinctIsKept(s: seq<Event>, t: seq<Event>)
    requires multiset(s) == multiset(t) && DistinctIds(t)
    ensures DistinctIds(s)
  {
    forall i, j | 0 <= i < j < |s| ensures s[i].id != s[j].id {
      if s[i].id == s[j].id {
        SameElements(s, t, s[i]);
        SameElements(s, t, s[j]);
        SameIdIsSame(t, s[i], s[j]);
        OnceInDistinct(t, s[i]);
        TwoOccurrences(s, i, j);
      }
    }
  }

  lemma SameIdIsSame(t: seq<Event>, a: Event, b: Event)
    requires DistinctIds(t) && a in t && b in t && a.id == b.id
    ensures a == b
  {
  }

  lemma TwoOccurrences(s: seq<Event>, i: nat, j: nat)
    requires i < j < |s| && s[i] == s[j]
    ensures multiset(s)[s[i]] >= 2
  {
    assert s == s[..i] + [s[i]] + s[i + 1..j] + [s[j]] + s[j + 1..];
  }

  lemma {:induction false} OnceInDistinct(t: seq<Event>, e: Event)
    requires DistinctIds(t)
    ensures multiset(t)[e] <= 1
  {
    if t != [] {
      OnceInDistinct(t[1..], e);
      assert t == [t[0]] + t[1..];
      assert forall j :: 1 <= j < |t| ==> t[0] != t[j];
      assert t[0] !in t[1..];
    }
  }

  /** The tail holds exactly the events strictly above the cursor, each as often as it was given, in order. */
  lemma TailIsExact(cursor: Option<Position>, events: seq<Event>)
    ensures Sorted(Tail(cursor, events), EventLe)
    ensures forall e :: multiset(Tail(cursor, events))[e] == if After(cursor, e) then multiset(events)[e] else 0
  {
    EventOrder();
    SortBySorted(events, EventLe);
    FilterSorted(Ordered(events), IsAfter(cursor), EventLe);
    forall e ensures multiset(Tail(cursor, events))[e] == if After(cursor, e) then multiset(events)[e] else 0 {
      FilterMultiplicity(Ordered(events), IsAfter(cursor), e);
    }
  }

  /** However the events arrive, what was delivered up to any of them and the tail after it rebuild the ordered list. */
  lemma {:induction false} PrefixAndTailRebuild(events: seq<Event>, arrived: seq<Event>, i: nat)
    requires DistinctIds(events) && multiset(arrived) == multiset(events) && i < |events|
    ensures |Ordered(events)| == |events|
    ensures Ordered(events)[..i + 1] + Tail(Some(OrderKey(Ordered(events)[i])), arrived) == Ordered(events)
  {
    hide PositionLe, SortBy, Filter;
    var ordered := Ordered(events);
    SameSize(ordered, events);
    StrictlyOrdered(events);
    EventOrder();
    SortRestores(arrived, ordered, EventLe);
    var cursor := Some(OrderKey(ordered[i]));
    forall k | 0 <= k <= i ensures !After(cursor, ordered[k]) {
      BelowIsNotAfter(ordered, k, i);
    }
    assert i + 1 < |ordered| ==> After(cursor, ordered[i + 1]);
    TailIsSuffix(cursor, ordered, i + 1);
  }

  lemma SameTail(cursor: Option<Position>, events: seq<Event>, late: seq<Event>)
    requires forall e :: e in events ==> !After(cursor, e)
    requires forall e :: e in late ==> After(cursor, e)
    ensures multiset(Tail(cursor, events + late)) == multiset(late)
  {
    TailIsExact(cursor, events + late);
    var tail := Tail(cursor, events + late);
    forall e ensures multiset(tail)[e] == multiset(late)[e] {
      assert multiset(events + late)[e] == multiset(events)[e] + multiset(late)[e];
      assert e in multiset(events) <==> e in events;
      assert e in multiset(late) <==> e in late;
    }
  }

  /**
   Resuming after everything delivered so far is free of gaps exactly when each event that came
   since sorts above the cursor. An event that sorts below it (of a run with a smaller id, say) is
   never sent, although the documentation of events_after speaks of including it.
   */
  lemma {:induction false} ResumeIsGapFree(delivered: seq<Event>, since: seq<Event>)
    requires DistinctIds(delivered + since) && delivered != []
    ensures |Ordered(delivered)| == |delivered|
    ensures var cursor := Some(OrderKey(Ordered(delivered)[|delivered| - 1]));
      Tail(cursor, delivered + since) == Ordered(since) <==> forall e :: e in since ==> After(cursor, e)
  {
    hide PositionLe, SortBy, Filter;
    var ordered := Ordered(delivered);
    SameSize(ordered, delivered);
    var cursor := Some(OrderKey(ordered[|delivered| - 1]));
    if forall e :: e in since ==> After(cursor, e) {
      EventOrder();
      SortBySorted(delivered, EventLe);
      forall e | e in delivered ensures !After(cursor, e) {
        SameElements(ordered, delivered, e);
        var k :| 0 <= k < |ordered| && ordered[k] == e;
        BelowIsNotAfter(ordered, k, |delivered| - 1);
      }
      TailIsTheLateEvents(cursor, delivered, since);
    } else {
      var e :| e in since && !After(cursor, e);
      SameElements(Ordered(since), since, e);
      assert e !in Tail(cursor, delivered + since);
    }
  }

  /** Such an event: one of run "a" that comes after one of run "b" was delivered is not in the tail. */
  lemma {:induction false} EarlierRunIsMissed(delivered: Event, late: Event)
    requires delivered.run == Some("b") && late.run == Some("a") && delivered.id != late.id
    ensures Ordered([delivered]) == [delivered] && Ordered([late]) == [late]
    ensures Tail(Some(OrderKey(delivered)), [delivered] + [late]) != Ordered([late])
  {
    assert [delivered][1..] == [] && [late][1..] == [];
    assert !After(Some(OrderKey(delivered)), late);
    ResumeIsGapFree([delivered], [late]);
  }

  lemma TailIsTheLateEvents(cursor: Option<Position>, delivered: seq<Event>, since: seq<Event>)
    requires DistinctIds(delivered + since)
    requires forall e :: e in delivered ==> !After(cursor, e)
    requires forall e :: e in since ==> After(cursor, e)
    ensures Tail(cursor, delivered + since) == Ordered(since)
  {
    hide After, EventLe, SortBy, Filter;
    SameTail(cursor, delivered, since);
    TailIsExact(cursor, delivered + since);
    assert forall k :: 0 <= k < |since| ==> since[k] == (delivered + since)[|delivered| + k];
    StrictlyOrdered(since);
    SortedIsUnique(Tail(cursor, delivered + since), Ordered(since), EventLe);
  }

  // ---- Deduplication ----

  function Ids(events: seq<Event>): set<string> { set e | e in events :: e.id }

  /** The events whose id was not seen before, the first of each id only. */
  function Unseen(events: seq<Event>, seen: set<string>): seq<Event> {
    if events == [] then []
    else
      var before := Unseen(events[..|events| - 1], seen);
      var e := events[|events| - 1];
      if e.id in seen || e.id in Ids(events[..|events| - 1]) then before else before + [e]
  }

  lemma {:induction false} UnseenIsExact(events: seq<Event>, seen: set<string>)
    ensures DistinctIds(Unseen(events, seen))
    ensures Ids(Unseen(events, seen)) == Ids(events) - seen
    ensures forall e :: e in Unseen(events, seen) ==> e in events
  {
    if events != [] {
      var rest, e := events[..|events| - 1], events[|events| - 1];
      UnseenIsExact(rest, seen);
      assert events == rest + [e];
      assert Ids(events) == Ids(rest) + {e.id};
      var before := Unseen(rest, seen);
      if e.id !in seen && e.id !in Ids(rest) {
        assert Ids(before + [e]) == Ids(before) + {e.id};
        assert forall i :: 0 <= i < |before| ==> before[i].id in Ids(before);
      }
    }
  }

  datatype Request = Request(cursor: Option<Position>, events: seq<Event>)

  /** The ids marked by a series of calls on one store. */
  function SeenAfter(seen: set<string>, calls: seq<Request>): set<string> {
    if calls == [] then seen
    else SeenAfter(seen, calls[..|calls| - 1]) + Ids(Tail(calls[|calls| - 1].cursor, calls[|calls| - 1].events))
  }

  function Answer(seen: set<string>, calls: seq<Request>, i: nat): seq<Event>
    requires i < |calls|
  {
    Unseen(Tail(calls[i].cursor, calls[i].events), SeenAfter(seen, calls[..i]))
  }

  lemma {:induction false} SeenGrows(seen: set<string>, calls: seq<Request>, i: nat)
    requires i < |calls|
    ensures SeenAfter(seen, calls[..i]) + Ids(Tail(calls[i].cursor, calls[i].events)) <= SeenAfter(seen, calls)
  {
    if i == |calls| - 1 {
    } else {
      var before := calls[..|calls| - 1];
      SeenGrows(seen, before, i);
      assert before[..i] == calls[..i];
    }
  }

  /**
   Over any series of calls sharing one store no id is returned twice, neither by one call nor by
   two, and no id above a caller's cursor is lost: it is returned by this call or was seen before.
   */
  lemma {:induction false} NoIdIsReturnedTwice(seen: set<string>, calls: seq<Request>, i: nat, j: nat)
    requires i < j < |calls|
    ensures DistinctIds(Answer(seen, calls, i)) && DistinctIds(Answer(seen, calls, j))
    ensures Ids(Answer(seen, calls, i)) !! Ids(Answer(seen, calls, j))
    ensures Ids(Answer(seen, calls, i)) !! seen
    ensures Ids(Tail(calls[j].cursor, calls[j].events)) <= Ids(Answer(seen, calls, j)) + SeenAfter(seen, calls[..j])
  {
    hide Tail, Unseen, Ids;
    UnseenIsExact(Tail(calls[i].cursor, calls[i].events), SeenAfter(seen, calls[..i]));
    UnseenIsExact(Tail(calls[j].cursor, calls[j].events), SeenAfter(seen, calls[..j]));
    SeenGrows(seen, calls[..j], i);
    assert calls[..j][..i] == calls[..i];
    SeenHoldsInitial(seen, calls[..i]);
  }

  lemma {:induction false} SeenHoldsInitial(seen: set<string>, calls: seq<Request>)
    ensures seen <= SeenAfter(seen, calls)
  {
    if calls != [] {
      SeenHoldsInitial(seen, calls[..|calls| - 1]);
    }
  }

  // ---- Per-run numbering ----

  function Count(counters: map<string, nat>, run: string): nat { if run in counters then counters[run] else 0 }

  datatype Emission = Emission(run: string, id: string, payload: string)

  /** The counters after numbering, and the events numbered in the order of their emission. */
  function CountersAfter(counters: map<string, nat>, emitted: seq<Emission>): map<string, nat> {
    if emitted == [] then counters
    else
      var before := CountersAfter(counters, emitted[..|emitted| - 1]);
      var run := emitted[|emitted| - 1].run;
      before[run := Count(before, run) + 1]
  }

  function Numbered(counters: map<string, nat>, emitted: seq<Emission>): (events: seq<Event>)
    ensures |events| == |emitted|
  {
    if emitted == [] then []
    else
      var last := emitted[|emitted| - 1];
      var before := CountersAfter(counters, emitted[..|emitted| - 1]);
      Numbered(counters, emitted[..|emitted| - 1]) + [Event(last.id, Some(last.run), Some(Count(before, last.run)),
        last.payload)]
  }

  predicate OfRun(run: string, e: Event) { e.run == Some(run) }

  function IsOfRun(run: string): Event -> bool { e => OfRun(run, e) }

  lemma CountsOn(counters: map<string, nat>, emitting: string, run: string)
    ensures Count(counters[emitting := Count(counters, emitting) + 1], run) == Count(counters, run) + if run ==
      emitting then 1 else 0
  {
  }

  /** All of one run, numbered on from a first number. */
  predicate NumberedOn(own: seq<Event>, run: string, first: nat) {
    forall k :: 0 <= k < |own| ==> own[k].run == Some(run) && own[k].sequence == Some(first + k)
  }

  lemma NumbersOneMore(counters: map<string, nat>, emitted: seq<Emission>)
    requires emitted != []
    ensures var rest, last := emitted[..|emitted| - 1], emitted[|emitted| - 1];
      var before := CountersAfter(counters, rest);
      && CountersAfter(counters, emitted) == before[last.run := Count(before, last.run) + 1]
      && Numbered(counters, emitted) == Numbered(counters, rest) + [Event(last.id, Some(last.run),
        Some(Count(before, last.run)), last.payload)]
  {
    hide Count;
  }

  lemma OneMoreNumber(own: seq<Event>, run: string, first: nat, e: Event)
    requires NumberedOn(own, run, first) && e.run == Some(run) && e.sequence == Some(first + |own|)
    ensures NumberedOn(own + [e], run, first)
  {
  }

  lemma OwnOneMore(counters: map<string, nat>, emitted: seq<Emission>, run: string)
    requires emitted != []
    ensures var rest, last := emitted[..|emitted| - 1], emitted[|emitted| - 1];
      var own := Filter(Numbered(counters, rest), IsOfRun(run));
      var e := Event(last.id, Some(last.run), Some(Count(CountersAfter(counters, rest), last.run)), last.payload);
      Filter(Numbered(counters, emitted), IsOfRun(run)) == if last.run == run then own + [e] else own
  {
    hide Filter, Count, Numbered, CountersAfter;
    var rest, last := emitted[..|emitted| - 1], emitted[|emitted| - 1];
    var e := Event(last.id, Some(last.run), Some(Count(CountersAfter(counters, rest), last.run)), last.payload);
    NumbersOneMore(counters, emitted);
    FilterConcat(Numbered(counters, rest), [e], IsOfRun(run));
    FilterOne(e, IsOfRun(run));
    var own := Filter(Numbered(counters, rest), IsOfRun(run));
    assert own + [] == own;
  }

  /** The run's events in what was emitted carry consecutive numbers from its counter, which stands behind them. */
  predicate Continues(counters: map<string, nat>, emitted: seq<Emission>, run: string) {
    var own := Filter(Numbered(counters, emitted), IsOfRun(run));
    && Count(CountersAfter(counters, emitted), run) == Count(counters, run) + |own|
    && NumberedOn(own, run, Count(counters, run))
  }

  lemma ContinuesOneMore(counters: map<string, nat>, emitted: seq<Emission>, run: string)
    requires emitted != [] && Continues(counters, emitted[..|emitted| - 1], run)
    ensures Continues(counters, emitted, run)
  {
    hide Filter, Count, NumberedOn, Numbered, CountersAfter;
    var rest, last := emitted[..|emitted| - 1], emitted[|emitted| - 1];
    NumbersOneMore(counters, emitted);
    OwnOneMore(counters, emitted, run);
    CountsOn(CountersAfter(counters, rest), last.run, run);
    if last.run == run {
      OneMoreNumber(Filter(Numbered(counters, rest), IsOfRun(run)), run, Count(counters, run),
        Event(last.id, Some(last.run), Some(Count(CountersAfter(counters, rest), last.run)), last.payload));
    }
  }

  /** Each run's events carry consecutive numbers from its own counter, whatever other runs emit between them. */
  lemma {:induction false} NumbersAreConsecutive(counters: map<string, nat>, emitted: seq<Emission>, run: string)
    ensures Continues(counters, emitted, run)
  {
    if emitted == [] {
      assert Filter(Numbered(counters, emitted), IsOfRun(run)) == [];
    } else {
      hide Continues;
      NumbersAreConsecutive(counters, emitted[..|emitted| - 1], run);
      ContinuesOneMore(counters, emitted, run);
    }
  }

  /** A run that emitted nothing before starts at nought. */
  lemma {:induction false} NumbersStartAtNought(emitted: seq<Emission>, run: string)
    ensures NumberedOn(Filter(Numbered(map[], emitted), IsOfRun(run)), run, 0)
  {
    hide Filter, NumberedOn, Numbered, CountersAfter;
    NumbersAreConsecutive(map[], emitted, run);
  }

  lemma NumberedIsSorted(counters: map<string, nat>, emitted: seq<Emission>, run: string)
    ensures StrictlySorted(Filter(Numbered(counters, emitted), IsOfRun(run)), EventLe)
  {
    hide Filter, Numbered;
    NumbersAreConsecutive(counters, emitted, run);
  }

  /** Sorting any shuffle of numbered events gives every run its events back in the order it emitted them. */
  lemma {:induction false} SortingRestoresEmissionOrder(counters: map<string, nat>, emitted: seq<Emission>, shuffled: seq<Event>,
      run: string)
    requires multiset(shuffled) == multiset(Numbered(counters, emitted))
    ensures Filter(Ordered(shuffled), IsOfRun(run)) == Filter(Numbered(counters, emitted), IsOfRun(run))
  {
    var keep := IsOfRun(run);
    var own := Filter(Numbered(counters, emitted), keep);
    var sorted := Filter(Ordered(shuffled), keep);
    hide Filter, SortBy, EventLe;
    NumberedIsSorted(counters, emitted, run);
    EventOrder();
    SortBySorted(shuffled, EventLe);
    FilterSorted(Ordered(shuffled), keep, EventLe);
    forall e ensures multiset(sorted)[e] == multiset(own)[e] {
      FilterMultiplicity(Ordered(shuffled), keep, e);
      FilterMultiplicity(Numbered(counters, emitted), keep, e);
    }
    SortedIsUnique(sorted, own, EventLe);
  }

  // ---- The objects that change in place ----

  class RunSequencer {
    var counters: map<string, nat>

    constructor ()
      ensures counters == map[]
    {
      counters := map[];
    }

    method Next(run: string) returns (n: nat)
      modifies this
      ensures n == Count(old(counters), run)
      ensures counters == old(counters)[run := n + 1]
    {
      n := if run in counters then counters[run] else 0;
      counters := counters[run := n + 1];
    }

    method Peek(run: string) returns (n: nat)
      ensures n == Count(counters, run)
    {
      n := if run in counters then counters[run] else 0;
    }

    method Reset(run: Option<string>)
      modifies this
      ensures counters == if run.None? then map[] else old(counters) - {run.value}
      ensures run.Some? ==> Count(counters, run.value) == 0
    {
      counters := if run.None? then map[] else counters - {run.value};
    }
  }

  /** A producer that numbers what it emits continues the numbered events of everything emitted before. */
  method NumberEvent(sequencer: RunSequencer, e: Emission, ghost start: map<string, nat>, ghost emitted: seq<Emission>)
    returns (event: Event)
    requires sequencer.counters == CountersAfter(start, emitted)
    modifies sequencer
    ensures sequencer.counters == CountersAfter(start, emitted + [e])
    ensures Numbered(start, emitted + [e]) == Numbered(start, emitted) + [event]
  {
    var n := sequencer.Next(e.run);
    assert (emitted + [e])[..|emitted|] == emitted;
    return Event(e.id, Some(e.run), Some(n), e.payload);
  }

  class EventDedupeStore {
    var seen: set<string>

    constructor ()
      ensures seen == {}
    {
      seen := {};
    }

    method Observe(id: string) returns (known: bool)
      modifies this
      ensures known <==> id in old(seen)
      ensures seen == old(seen) + {id}
    {
      if id in seen {
        return true;
      }
      seen := seen + {id};
      return false;
    }

    method Reset(id: Option<string>)
      modifies this
      ensures seen == if id.None? then {} else old(seen) - {id.value}
    {
      seen := if id.None? then {} else seen - {id.value};
    }
  }

  /** The tail after a cursor, without a store. */
  method TailAfter(cursor: Option<Position>, events: seq<Event>) returns (tail: seq<Event>)
    ensures tail == Tail(cursor, events)
  {
    hide After, EventLe, SortBy, Filter;
    var ordered := Ordered(events);
    EventOrder();
    SortBySorted(events, EventLe);
    var start := 0;
    if cursor.Some? {
      while start < |ordered| && !After(cursor, ordered[start])
        invariant start <= |ordered|
        invariant forall i :: 0 <= i < start ==> !After(cursor, ordered[i])
      {
        start := start + 1;
      }
    } else {
      NothingBeforeNoCursor();
    }
    TailIsSuffix(cursor, ordered, start);
    return ordered[start..];
  }

  lemma NothingBeforeNoCursor()
    ensures forall e :: After(None, e)
  {
  }

  method EventsAfter(cursor: Option<Position>, events: seq<Event>,
      dedupe: EventDedupeStore) returns (result: seq<Event>)
    modifies dedupe
    ensures result == Unseen(Tail(cursor, events), old(dedupe.seen))
    ensures dedupe.seen == SeenAfter(old(dedupe.seen), [Request(cursor, events)])
  {
    hide Tail;
    var tail := TailAfter(cursor, events);
    result := [];
    assert Ids(tail[..0]) == {};
    for i := 0 to |tail|
      invariant result == Unseen(tail[..i], old(dedupe.seen))
      invariant dedupe.seen == old(dedupe.seen) + Ids(tail[..i])
    {
      assert tail[..i + 1][..i] == tail[..i];
      assert Ids(tail[..i + 1]) == Ids(tail[..i]) + {tail[i].id};
      var known := dedupe.Observe(tail[i].id);
      if !known {
        result := result + [tail[i]];
      }
    }
    assert tail[..|tail|] == tail;
    OneCall(old(dedupe.seen), Request(cursor, events));
  }

  lemma OneCall(seen: set<string>, call: Request)
    ensures SeenAfter(seen, [call]) == seen + Ids(Tail(call.cursor, call.events))
  {
    assert [call][..0] == [];
  }
}
