/**
 Seeding comes first: a cycle sweeps only once every booking has been read, so one that cannot
 be read stops the sweep for good.
 */
module SeedCoverage {
  import opened Wrappers
  import opened Texts
  import opened Sorting
  import opened ConversationActivity
  import opened InboxView
  import opened IndexMaintenance
  import opened SweepCoverage

  /** What one cycle looks at: new bookings if there are any, the least recently refreshed rows if not. */
  function CycleLook(index: Index, bookings: seq<string>, seedBatch: nat, sweepSize: nat): Look {
    if Unseeded(index, bookings) != [] then Seeding(bookings, seedBatch) else Sweeping(sweepSize)
  }

  datatype Cycle = Cycle(bookings: seq<string>, view: View, stamp: string -> int)

  function CycleOnce(index: Index, seedBatch: nat, sweepSize: nat, c: Cycle): Index {
    Apply(index, CycleLook(index, c.bookings, seedBatch, sweepSize), c.view, c.stamp)
  }

  function CycleAll(index: Index, seedBatch: nat, sweepSize: nat, cycles: seq<Cycle>): Index {
    if cycles == [] then index
    else
      CycleOnce(CycleAll(index, seedBatch, sweepSize, cycles[..|cycles| - 1]), seedBatch, sweepSize, cycles[|cycles| - 1])
  }

  function Observed(refs: seq<string>, view: View): nat {
    Count(refs, (r: string) => view(r).Some?)
  }

  /** Seeding adds one row for each reference of the batch that was observed, and touches no other. */
  lemma {:induction false} SeedingIs(index: Index, refs: seq<string>, view: View, stamp: string -> int)
    requires Faithful(view) && NoRepeats(refs) && forall r :: r in refs ==> PositionOf(index, r) == |index|
    ensures
      var after := TakeAll(index, Unjudged(), refs, view, stamp);
      && index <= after && |after| == |index| + Observed(refs, view)
      && forall r :: PositionOf(after, r) < |after| <==>
                     PositionOf(index, r) < |index| || (r in refs && view(r).Some?)
  {
    if refs != [] {
      var n := |refs| - 1;
      var init, last := refs[..n], refs[n];
      assert refs == init + [last] && last in refs && last !in init;
      forall r | r in init ensures PositionOf(index, r) == |index| {
        assert r in refs;
      }
      SeedingIs(index, init, view, stamp);
      var mid := TakeAll(index, Unjudged(), init, view, stamp);
      CountConcat(init, [last], (r: string) => view(r).Some?);
      assert PositionOf(mid, last) == |mid|;
      if view(last).Some? {
        AddedLast(mid, view(last).value, stamp(last));
      }
    }
  }

  lemma AddedLast(index: Index, latest: Summary, now: int)
    requires PositionOf(index, latest.ref) == |index|
    ensures Upserted(index, latest, now) == index + [Activity(latest, now, now)]
    ensures forall r :: PositionOf(Upserted(index, latest, now), r) < |index| + 1 <==>
                        PositionOf(index, r) < |index| || r == latest.ref
  {
    var after := Upserted(index, latest, now);
    forall r ensures PositionOf(after, r) < |index| + 1 <==> PositionOf(index, r) < |index| || r == latest.ref {
      var k := PositionOf(index, r);
      if k < |index| { assert Ref(after[k]) == r; }
      assert Ref(after[|index|]) == latest.ref;
      var j := PositionOf(after, r);
      if j < |index| { assert Ref(index[j]) == r; }
    }
  }

  /** Each new conversation seeded is one fewer left to seed. */
  lemma {:induction false} UnseededDrops(index: Index, bookings: seq<string>, latest: Summary, now: int)
    requires PositionOf(index, latest.ref) == |index|
    ensures |Unseeded(Upserted(index, latest, now), bookings)| ==
            |Unseeded(index, bookings)| - if latest.ref in bookings then 1 else 0
  {
    if bookings != [] {
      UnseededDrops(index, bookings[1..], latest, now);
      assert bookings == [bookings[0]] + bookings[1..];
      AddedLast(index, latest, now);
    }
  }

  lemma {:induction false} UnseededAfter(index: Index, bookings: seq<string>, refs: seq<string>, view: View,
                                         stamp: string -> int)
    requires Faithful(view) && NoRepeats(refs)
    requires forall r :: r in refs ==> r in bookings && PositionOf(index, r) == |index|
    ensures |Unseeded(TakeAll(index, Unjudged(), refs, view, stamp), bookings)| ==
            |Unseeded(index, bookings)| - Observed(refs, view)
  {
    if refs != [] {
      var n := |refs| - 1;
      var init, last := refs[..n], refs[n];
      assert refs == init + [last] && last in refs && last !in init;
      forall r | r in init ensures r in bookings && PositionOf(index, r) == |index| {
        assert r in refs;
      }
      UnseededAfter(index, bookings, init, view, stamp);
      SeedingIs(index, init, view, stamp);
      CountConcat(init, [last], (r: string) => view(r).Some?);
      hide Unseeded, Count, TakeAll, NoRepeats, Upserted, PositionOf;
      if view(last).Some? {
        UnseededDrops(TakeAll(index, Unjudged(), init, view, stamp), bookings, view(last).value, stamp(last));
      }
      TakesLast(index, init, last, view, stamp);
    }
  }

  lemma TakesLast(index: Index, init: seq<string>, last: string, view: View, stamp: string -> int)
    ensures
      TakeAll(index, Unjudged(), init + [last], view, stamp) ==
      var mid := TakeAll(index, Unjudged(), init, view, stamp);
      if view(last).Some? then Upserted(mid, view(last).value, stamp(last)) else mid
  {
    assert (init + [last])[..|init|] == init;
  }

  /** A cycle with bookings left to seed does nothing at all if and only if none of its batch is observed. */
  lemma SeedingMovesIffObserved(index: Index, seedBatch: nat, sweepSize: nat, c: Cycle)
    requires Faithful(c.view) && Unseeded(index, c.bookings) != []
    ensures CycleOnce(index, seedBatch, sweepSize, c) == index <==>
            forall r :: r in LookedAt(index, Seeding(c.bookings, seedBatch)) ==> c.view(r).None?
  {
    var refs := LookedAt(index, Seeding(c.bookings, seedBatch));
    BatchIsUnseeded(index, c.bookings, seedBatch);
    SeedingIs(index, refs, c.view, c.stamp);
    NoneIsObserved(refs, c.view);
  }

  lemma {:induction false} NoneIsObserved(refs: seq<string>, view: View)
    ensures Observed(refs, view) == 0 <==> forall r :: r in refs ==> view(r).None?
    ensures (forall r :: r in refs ==> view(r).Some?) ==> Observed(refs, view) == |refs|
  {
    if refs != [] {
      NoneIsObserved(refs[1..], view);
      assert refs == [refs[0]] + refs[1..];
    }
  }

  /**
   One booking that is not in the index and cannot be read stops sweeping for good: every row
   the index holds stays as it is, however many cycles run, and that booking is never indexed.
   */
  lemma {:induction false} OneUnreadableBookingStopsSweeping(index: Index, seedBatch: nat, sweepSize: nat,
                                                             cycles: seq<Cycle>, r: string)
    requires PositionOf(index, r) == |index|
    requires forall i :: 0 <= i < |cycles| ==> Faithful(cycles[i].view) && r in cycles[i].bookings && cycles[i].view(r).None?
    ensures
      var after := CycleAll(index, seedBatch, sweepSize, cycles);
      index <= after && PositionOf(after, r) == |after|
  {
    if cycles != [] {
      var n := |cycles| - 1;
      OneUnreadableBookingStopsSweeping(index, seedBatch, sweepSize, cycles[..n], r);
      var before, c := CycleAll(index, seedBatch, sweepSize, cycles[..n]), cycles[n];
      UnseededAre(before, c.bookings);
      BatchIsUnseeded(before, c.bookings, seedBatch);
      SeedingIs(before, LookedAt(before, Seeding(c.bookings, seedBatch)), c.view, c.stamp);
    }
  }

  /** All the while the same bookings are listed, and the same of them cannot be read. */
  ghost predicate SameReadable(cycles: seq<Cycle>, bookings: seq<string>, dead: set<string>) {
    forall i :: 0 <= i < |cycles| ==>
                  && Faithful(cycles[i].view) && cycles[i].bookings == bookings
                  && forall r :: r in bookings ==> (cycles[i].view(r).None? <==> r in dead)
  }

  /** A sweep makes nobody unseeded and nobody seeded. */
  lemma {:induction false} SweepSeedsNobody(index: Index, after: Index, bookings: seq<string>)
    requires |after| == |index| && forall i :: 0 <= i < |index| ==> Ref(after[i]) == Ref(index[i])
    ensures Unseeded(after, bookings) == Unseeded(index, bookings)
  {
    if bookings != [] {
      SweepSeedsNobody(index, after, bookings[1..]);
      var k, j := PositionOf(index, bookings[0]), PositionOf(after, bookings[0]);
      if k < |index| { assert Ref(after[k]) == bookings[0]; }
      if j < |index| { assert Ref(index[j]) == bookings[0]; }
    }
  }

  /** With all it takes to be seeded readable, a cycle seeds a full batch or all that is left. */
  lemma ReadableBatchIsSeeded(index: Index, seedBatch: nat, sweepSize: nat, c: Cycle)
    requires Distinct(index) && Faithful(c.view)
    requires forall r :: r in Unseeded(index, c.bookings) ==> c.view(r).Some?
    ensures
      var after := CycleOnce(index, seedBatch, sweepSize, c);
      && Distinct(after)
      && |Unseeded(after, c.bookings)| == Bounded(|Unseeded(index, c.bookings)| - seedBatch)
      && forall r :: r in Unseeded(after, c.bookings) ==> r in Unseeded(index, c.bookings)
  {
    hide Apply, Unseeded, Oldest, RefsOf;
    if Unseeded(index, c.bookings) == [] {
      SweptIs(index, sweepSize, c.view, c.stamp);
      SweepSeedsNobody(index, CycleOnce(index, seedBatch, sweepSize, c), c.bookings);
    } else {
      FullBatch(index, c.bookings, seedBatch, c.view, c.stamp);
    }
  }

  lemma FullBatch(index: Index, bookings: seq<string>, limit: nat, view: View, stamp: string -> int)
    requires Distinct(index) && Faithful(view)
    requires forall r :: r in Unseeded(index, bookings) ==> view(r).Some?
    ensures
      var after := Apply(index, Seeding(bookings, limit), view, stamp);
      && Distinct(after)
      && |Unseeded(after, bookings)| == Bounded(|Unseeded(index, bookings)| - limit)
      && forall r :: r in Unseeded(after, bookings) ==> r in Unseeded(index, bookings)
  {
    var refs := LookedAt(index, Seeding(bookings, limit));
    UnseededAre(index, bookings);
    UnseededAre(Apply(index, Seeding(bookings, limit), view, stamp), bookings);
    BatchIsUnseeded(index, bookings, limit);
    assert |refs| == |Unseeded(index, bookings)| - Bounded(|Unseeded(index, bookings)| - limit);
    hide Unseeded, StableSort, TakeAll, LookedAt, Distinct, NoRepeats, Observed, Batch;
    SeedingIs(index, refs, view, stamp);
    NoneIsObserved(refs, view);
    UnseededAfter(index, bookings, refs, view, stamp);
    TakeAllDistinct(index, Unjudged(), refs, view, stamp);
  }

  lemma {:induction false} TakeAllDistinct(index: Index, copies: Copies, refs: seq<string>, view: View, stamp: string -> int)
    requires Distinct(index)
    ensures Distinct(TakeAll(index, copies, refs, view, stamp))
  {
    if refs != [] {
      var n := |refs| - 1;
      TakeAllDistinct(index, copies, refs[..n], view, stamp);
      if view(refs[n]).Some? {
        UpsertedRefs(TakeAll(index, copies, refs[..n], view, stamp), view(refs[n]).value, stamp(refs[n]));
      }
    }
  }

  lemma {:induction false} ReadableBookingsAreSeeded(index: Index, seedBatch: nat, sweepSize: nat, cycles: seq<Cycle>,
                                                     bookings: seq<string>, dead: set<string>)
    requires Distinct(index) && SameReadable(cycles, bookings, dead)
    requires forall r :: r in Unseeded(index, bookings) ==> r !in dead
    ensures
      var after := CycleAll(index, seedBatch, sweepSize, cycles);
      && Distinct(after)
      && |Unseeded(after, bookings)| <= Bounded(|Unseeded(index, bookings)| - Room(|cycles|, seedBatch))
      && forall r :: r in Unseeded(after, bookings) ==> r in Unseeded(index, bookings)
  {
    hide Unseeded, Distinct, CycleOnce, Room;
    OneMoreSweep(|cycles| - if cycles == [] then 0 else 1, seedBatch);
    if cycles != [] {
      var n := |cycles| - 1;
      ReadableBookingsAreSeeded(index, seedBatch, sweepSize, cycles[..n], bookings, dead);
      var before := CycleAll(index, seedBatch, sweepSize, cycles[..n]);
      forall r | r in Unseeded(before, bookings) ensures cycles[n].view(r).Some? {
        UnseededAre(index, bookings);
      }
      ReadableBatchIsSeeded(before, seedBatch, sweepSize, cycles[n]);
    }
  }

  /**
   Exactly when cycles come to sweep: once they had room for all that was unseeded, nothing is
   left to seed if and only if all of it could be read.
   */
  lemma SweepingIsReachedIffAllReadable(index: Index, seedBatch: nat, sweepSize: nat, cycles: seq<Cycle>,
                                        bookings: seq<string>, dead: set<string>)
    requires Distinct(index) && SameReadable(cycles, bookings, dead)
    requires Room(|cycles|, seedBatch) >= |Unseeded(index, bookings)|
    ensures Unseeded(CycleAll(index, seedBatch, sweepSize, cycles), bookings) == [] <==>
            forall r :: r in Unseeded(index, bookings) ==> r !in dead
  {
    var after := CycleAll(index, seedBatch, sweepSize, cycles);
    hide CycleAll, Unseeded, Room;
    UnseededAre(index, bookings);
    if r :| r in Unseeded(index, bookings) && r in dead {
      OneUnreadableBookingStopsSweeping(index, seedBatch, sweepSize, cycles, r);
      UnseededAre(after, bookings);
      assert r in Unseeded(after, bookings);
    } else {
      ReadableBookingsAreSeeded(index, seedBatch, sweepSize, cycles, bookings, dead);
    }
  }
}
