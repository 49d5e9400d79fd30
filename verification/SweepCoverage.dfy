/**
 Whom sweeping reaches and whom it starves: it goes round the index for as long as fewer rows
 are stuck than it has places.
 */
module SweepCoverage {
  import opened Wrappers
  import opened Texts
  import opened Sorting
  import opened ConversationActivity
  import opened InboxView
  import opened IndexMaintenance

  // -- what a sweep does -------------------------------------------------

  /** A look at this row would be written. */
  predicate Serves(view: View, a: Activity) {
    view(Ref(a)).Some? && Supersedes(a.summary, view(Ref(a)).value)
  }

  /** A row after a sweep that looked at `refs`. */
  function After(a: Activity, refs: seq<string>, view: View, stamp: string -> int): Activity {
    if Ref(a) in refs && Serves(view, a) then Refreshed(a, view(Ref(a)).value, stamp(Ref(a))) else a
  }

  function Swept(index: Index, size: nat, view: View, stamp: string -> int): Index {
    Apply(index, Sweeping(size), view, stamp)
  }

  lemma RefAtItsPlace(index: Index, i: nat)
    requires Distinct(index) && i < |index|
    ensures PositionOf(index, Ref(index[i])) == i
  {
  }

  /** A write for the row at k, which stands as the copy has it. */
  lemma TakeIs(was: Index, now: Index, k: nat, view: View, stamp: string -> int)
    requires Distinct(was) && Faithful(view) && |now| == |was| && k < |was| && now[k] == was[k]
    requires forall i :: 0 <= i < |was| ==> Ref(now[i]) == Ref(was[i])
    ensures Take(now, CopyOf(was), Ref(was[k]), view, stamp) == now[k := After(was[k], [Ref(was[k])], view, stamp)]
  {
    RefAtItsPlace(was, k);
    assert Distinct(now);
    RefAtItsPlace(now, k);
  }

  /** Rows keep their places; those looked at and served are refreshed, and nothing else is touched. */
  lemma {:induction false} TakeAllIs(index: Index, refs: seq<string>, view: View, stamp: string -> int)
    requires Distinct(index) && Faithful(view) && NoRepeats(refs)
    requires forall r :: r in refs ==> PositionOf(index, r) < |index|
    ensures
      var after := TakeAll(index, CopyOf(index), refs, view, stamp);
      |after| == |index| && forall i :: 0 <= i < |index| ==> after[i] == After(index[i], refs, view, stamp)
  {
    if refs != [] {
      var n := |refs| - 1;
      var init, r := refs[..n], refs[n];
      forall q | q in init ensures PositionOf(index, q) < |index| {
        assert q in refs;
      }
      TakeAllIs(index, init, view, stamp);
      var mid := TakeAll(index, CopyOf(index), init, view, stamp);
      assert r in refs && r !in init && refs == init + [r];
      var k := PositionOf(index, r);
      TakeIs(index, mid, k, view, stamp);
      forall i | 0 <= i < |index| && i != k ensures Ref(index[i]) != r {
        RefAtItsPlace(index, i);
      }
    }
  }

  lemma OldestAreRows(index: Index, size: nat)
    requires Distinct(index)
    ensures NoRepeats(RefsOf(Oldest(index, size)))
    ensures forall a :: a in Oldest(index, size) ==> a in index
  {
    var sorted, picked := StableSort(index, RefreshedBefore), Oldest(index, size);
    OldestComeFirst(index, size);
    forall a | a in picked ensures a in index {
      assert a in sorted;
      SameElements(sorted, index, a);
    }
    forall i, j | 0 <= i < j < |picked| ensures Ref(picked[i]) != Ref(picked[j]) {
      assert picked[i] == sorted[i] && picked[j] == sorted[j];
      assert RefreshedBefore(sorted[i], sorted[j]);
      SameElements(sorted, index, sorted[i]);
      SameElements(sorted, index, sorted[j]);
      StrLtTotal(Ref(sorted[i]), Ref(sorted[j]));
      RefDecides(index, sorted[i], sorted[j]);
    }
  }

  lemma RefDecides(index: Index, a: Activity, b: Activity)
    requires Distinct(index) && a in index && b in index && RefreshedBefore(a, b)
    ensures Ref(a) != Ref(b)
  {
    StrLtTotal(Ref(a), Ref(a));
  }

  lemma SweptIs(index: Index, size: nat, view: View, stamp: string -> int)
    requires Distinct(index) && Faithful(view)
    ensures
      var refs, after := RefsOf(Oldest(index, size)), Swept(index, size, view, stamp);
      |after| == |index| && forall i :: 0 <= i < |index| ==> after[i] == After(index[i], refs, view, stamp)
  {
    var picked := Oldest(index, size);
    var refs := RefsOf(picked);
    OldestAreRows(index, size);
    forall r | r in refs ensures PositionOf(index, r) < |index| {
      var i :| 0 <= i < |refs| && refs[i] == r;
      assert picked[i] in index;
      var k :| 0 <= k < |index| && index[k] == picked[i];
      assert Ref(index[k]) == r;
    }
    TakeAllIs(index, refs, view, stamp);
  }

  // -- waiting and stuck -------------------------------------------------

  /** The rows no look at them is written for: not observed, or known and read as empty. */
  ghost predicate Splits(index: Index, view: View, stuck: set<string>) {
    Faithful(view) && forall i :: 0 <= i < |index| ==> (Serves(view, index[i]) <==> Ref(index[i]) !in stuck)
  }

  predicate IsStuck(a: Activity, stuck: set<string>) {
    Ref(a) in stuck
  }

  function StuckRows(rows: seq<Activity>, stuck: set<string>): nat {
    Count(rows, (a: Activity) => IsStuck(a, stuck))
  }

  /** A row that is not stuck and has not been refreshed since t0. */
  predicate Waits(a: Activity, stuck: set<string>, t0: int) {
    a.lastRefreshedAt < t0 && Ref(a) !in stuck
  }

  function Waiting(rows: seq<Activity>, stuck: set<string>, t0: int): nat {
    Count(rows, (a: Activity) => Waits(a, stuck, t0))
  }

  /** Rows that wait and that a sweep does not look at. */
  function Missed(rows: seq<Activity>, refs: seq<string>, stuck: set<string>, t0: int): nat {
    Count(rows, (a: Activity) => Waits(a, stuck, t0) && Ref(a) !in refs)
  }

  function Bounded(x: int): nat {
    if x < 0 then 0 else x
  }

  /** Rows mapped one by one, where the mapped row counts only if the row did. */
  lemma {:induction false} CountMapped(before: seq<Activity>, after: seq<Activity>, p: Activity -> bool, q: Activity -> bool)
    requires |before| == |after| && forall i :: 0 <= i < |before| && q(after[i]) ==> p(before[i])
    ensures Count(after, q) <= Count(before, p)
  {
    if before != [] {
      CountMapped(before[1..], after[1..], p, q);
    }
  }

  lemma {:induction false} WitnessOf(rows: seq<Activity>, p: Activity -> bool) returns (j: nat)
    requires Count(rows, p) > 0
    ensures j < |rows| && p(rows[j])
  {
    if p(rows[0]) {
      j := 0;
    } else {
      j := WitnessOf(rows[1..], p);
      j := j + 1;
    }
  }

  lemma {:induction false} CountsOne(rows: seq<Activity>, p: Activity -> bool, a: Activity)
    requires a in rows && p(a)
    ensures Count(rows, p) > 0
  {
    if rows[0] != a {
      CountsOne(rows[1..], p, a);
    }
  }

  lemma {:induction false} WaitOrStuck(rows: seq<Activity>, stuck: set<string>, t0: int)
    ensures Waiting(rows, stuck, t0) + StuckRows(rows, stuck) <= |rows|
    ensures (forall i :: 0 <= i < |rows| ==> rows[i].lastRefreshedAt < t0) ==>
              Waiting(rows, stuck, t0) + StuckRows(rows, stuck) == |rows|
  {
    if rows != [] {
      WaitOrStuck(rows[1..], stuck, t0);
    }
  }

  lemma CutCounts(index: Index, size: nat, p: Activity -> bool)
    requires size < |index|
    ensures
      var sorted := StableSort(index, RefreshedBefore);
      Count(index, p) == Count(sorted[..size], p) + Count(sorted[size..], p)
  {
    hide StableSort, Count;
    var sorted := StableSort(index, RefreshedBefore);
    assert sorted == sorted[..size] + sorted[size..];
    CountSorted(index, RefreshedBefore, p);
    CountConcat(sorted[..size], sorted[size..], p);
  }

  lemma HeadAndRest(index: Index, size: nat, stuck: set<string>, t0: int)
    requires size < |index|
    ensures
      var sorted := StableSort(index, RefreshedBefore);
      && sorted[..size] == Oldest(index, size)
      && Waiting(index, stuck, t0) == Waiting(sorted[..size], stuck, t0) + Waiting(sorted[size..], stuck, t0)
      && StuckRows(index, stuck) == StuckRows(sorted[..size], stuck) + StuckRows(sorted[size..], stuck)
  {
    CutCounts(index, size, (a: Activity) => Waits(a, stuck, t0));
    CutCounts(index, size, (a: Activity) => IsStuck(a, stuck));
  }

  /** Behind a head that leaves someone waiting, all of the head is from before t0. */
  lemma OldHead(index: Index, size: nat, stuck: set<string>, t0: int)
    requires Distinct(index) && size < |index|
    requires Waiting(StableSort(index, RefreshedBefore)[size..], stuck, t0) > 0
    ensures forall i :: 0 <= i < size ==> Oldest(index, size)[i].lastRefreshedAt < t0
  {
    var sorted := StableSort(index, RefreshedBefore);
    OldestComeFirst(index, size);
    var j := WitnessOf(sorted[size..], (a: Activity) => Waits(a, stuck, t0));
    forall i | 0 <= i < size ensures sorted[i].lastRefreshedAt < t0 {
      assert RefreshedBefore(sorted[i], sorted[size + j]);
    }
  }

  /** Either every waiting row gets its turn, or all places go to waiting rows and to stuck ones. */
  lemma PickedServe(index: Index, size: nat, stuck: set<string>, t0: int)
    requires Distinct(index) && StuckRows(index, stuck) <= size < |index|
    ensures
      Waiting(StableSort(index, RefreshedBefore)[size..], stuck, t0) <=
      Bounded(Waiting(index, stuck, t0) - (size - StuckRows(index, stuck)))
  {
    var sorted := StableSort(index, RefreshedBefore);
    hide Waiting, StuckRows, StableSort;
    HeadAndRest(index, size, stuck, t0);
    if Waiting(sorted[size..], stuck, t0) > 0 {
      OldHead(index, size, stuck, t0);
      WaitOrStuck(sorted[..size], stuck, t0);
    }
  }

  lemma PickedAreListed(picked: seq<Activity>)
    ensures forall i :: 0 <= i < |picked| ==> Ref(picked[i]) in RefsOf(picked)
  {
    assert forall i :: 0 <= i < |picked| ==> RefsOf(picked)[i] == Ref(picked[i]);
  }

  lemma ServedWaitsNoMore(a: Activity, refs: seq<string>, view: View, stamp: string -> int, stuck: set<string>, t0: int)
    requires Faithful(view) && (Serves(view, a) <==> Ref(a) !in stuck) && stamp(Ref(a)) >= t0
    requires Waits(After(a, refs, view, stamp), stuck, t0)
    ensures Waits(a, stuck, t0) && Ref(a) !in refs
  {
  }

  lemma StillWaitingWereMissed(index: Index, size: nat, view: View, stamp: string -> int, stuck: set<string>, t0: int)
    requires Distinct(index) && Splits(index, view, stuck) && forall ref :: stamp(ref) >= t0
    ensures Waiting(Swept(index, size, view, stamp), stuck, t0) <=
            Missed(StableSort(index, RefreshedBefore), RefsOf(Oldest(index, size)), stuck, t0)
  {
    var refs, after := RefsOf(Oldest(index, size)), Swept(index, size, view, stamp);
    var waits := (a: Activity) => Waits(a, stuck, t0);
    var missed := (a: Activity) => Waits(a, stuck, t0) && Ref(a) !in refs;
    SweptIs(index, size, view, stamp);
    hide Swept, Oldest, StableSort, RefsOf, After, Serves, Waits, Count;
    forall i | 0 <= i < |index| && waits(after[i]) ensures missed(index[i]) {
      ServedWaitsNoMore(index[i], refs, view, stamp, stuck, t0);
    }
    CountMapped(index, after, missed, waits);
    CountSorted(index, RefreshedBefore, missed);
  }

  lemma MissedSplits(a: seq<Activity>, b: seq<Activity>, refs: seq<string>, stuck: set<string>, t0: int)
    ensures Missed(a + b, refs, stuck, t0) == Missed(a, refs, stuck, t0) + Missed(b, refs, stuck, t0)
    ensures Missed(b, refs, stuck, t0) <= Waiting(b, stuck, t0)
  {
    var missed := (x: Activity) => Waits(x, stuck, t0) && Ref(x) !in refs;
    CountConcat(a, b, missed);
    CountMonotone(b, missed, (x: Activity) => Waits(x, stuck, t0));
  }

  lemma {:induction false} NonePickedIsMissed(picked: seq<Activity>, refs: seq<string>, stuck: set<string>, t0: int)
    requires forall i :: 0 <= i < |picked| ==> Ref(picked[i]) in refs
    ensures Missed(picked, refs, stuck, t0) == 0
  {
    if picked != [] {
      NonePickedIsMissed(picked[1..], refs, stuck, t0);
    }
  }

  lemma HeadThenRest(index: Index, size: nat)
    ensures
      var sorted, picked := StableSort(index, RefreshedBefore), Oldest(index, size);
      if size < |index| then sorted == picked + sorted[size..] else sorted == picked
  {
    hide StableSort;
  }

  /** What still waits after a sweep is what waited behind the rows it looked at. */
  lemma SweepLeaves(index: Index, size: nat, view: View, stamp: string -> int, stuck: set<string>, t0: int)
    requires Distinct(index) && Splits(index, view, stuck) && forall ref :: stamp(ref) >= t0
    ensures Waiting(Swept(index, size, view, stamp), stuck, t0) <=
            if size < |index| then Waiting(StableSort(index, RefreshedBefore)[size..], stuck, t0) else 0
  {
    hide Waiting, Missed, Swept, Splits, RefsOf, Oldest, StableSort, Distinct;
    var sorted, picked := StableSort(index, RefreshedBefore), Oldest(index, size);
    PickedAreListed(picked);
    StillWaitingWereMissed(index, size, view, stamp, stuck, t0);
    NonePickedIsMissed(picked, RefsOf(picked), stuck, t0);
    HeadThenRest(index, size);
    if size < |index| {
      MissedSplits(picked, sorted[size..], RefsOf(picked), stuck, t0);
    }
  }

  /** Sweeping moves no row and leaves as many stuck as there were. */
  lemma SweepKeeps(index: Index, size: nat, view: View, stamp: string -> int, stuck: set<string>)
    requires Distinct(index) && Faithful(view)
    ensures
      var after := Swept(index, size, view, stamp);
      Distinct(after) && |after| == |index| && StuckRows(after, stuck) == StuckRows(index, stuck)
  {
    var after := Swept(index, size, view, stamp);
    var p := (a: Activity) => IsStuck(a, stuck);
    SweptIs(index, size, view, stamp);
    forall i | 0 <= i < |index| ensures Ref(after[i]) == Ref(index[i]) {
    }
    CountMapped(index, after, p, p);
    CountMapped(after, index, p, p);
  }

  /** One sweep serves all that wait, or as many as it has places not taken by the stuck. */
  lemma SweepServes(index: Index, size: nat, view: View, stamp: string -> int, stuck: set<string>, t0: int)
    requires Distinct(index) && StuckRows(index, stuck) <= size && Splits(index, view, stuck)
    requires forall ref :: stamp(ref) >= t0
    ensures Waiting(Swept(index, size, view, stamp), stuck, t0) <=
            Bounded(Waiting(index, stuck, t0) - (size - StuckRows(index, stuck)))
  {
    hide Waiting, StuckRows, Swept, Splits;
    SweepLeaves(index, size, view, stamp, stuck, t0);
    if size < |index| {
      PickedServe(index, size, stuck, t0);
    }
  }

  // -- whom sweeping reaches ---------------------------------------------

  function SweepAll(index: Index, size: nat, views: seq<View>, stamps: seq<string -> int>): Index
    requires |views| == |stamps|
  {
    if views == [] then index
    else
      var n := |views| - 1;
      Swept(SweepAll(index, size, views[..n], stamps[..n]), size, views[n], stamps[n])
  }

  /** All the while the same conversations are stuck, and every write is stamped from t0 on. */
  ghost predicate Steady(index: Index, size: nat, views: seq<View>, stamps: seq<string -> int>, stuck: set<string>, t0: int)
    requires |views| == |stamps|
  {
    views == [] ||
    var n := |views| - 1;
    && Steady(index, size, views[..n], stamps[..n], stuck, t0)
    && Splits(SweepAll(index, size, views[..n], stamps[..n]), views[n], stuck)
    && forall ref :: stamps[n](ref) >= t0
  }

  /** What `n` sweeps of `places` places each have room for. */
  function Room(n: nat, places: nat): nat {
    n * places
  }

  lemma OneMoreSweep(n: nat, places: nat)
    ensures Room(0, places) == 0 && Room(n + 1, places) == Room(n, places) + places
  {
    assert (n + 1) * places == n * places + places;
  }

  lemma {:induction false} SweepsKeep(index: Index, size: nat, views: seq<View>, stamps: seq<string -> int>,
                                      stuck: set<string>, t0: int)
    requires |views| == |stamps| && Distinct(index) && Steady(index, size, views, stamps, stuck, t0)
    ensures
      var after := SweepAll(index, size, views, stamps);
      Distinct(after) && |after| == |index| && StuckRows(after, stuck) == StuckRows(index, stuck)
  {
    hide StuckRows, Distinct, Swept;
    if views != [] {
      var n := |views| - 1;
      SweepsKeep(index, size, views[..n], stamps[..n], stuck, t0);
      SweepKeeps(SweepAll(index, size, views[..n], stamps[..n]), size, views[n], stamps[n], stuck);
    }
  }

  lemma {:induction false} SweepsServe(index: Index, size: nat, views: seq<View>, stamps: seq<string -> int>,
                                       stuck: set<string>, t0: int)
    requires |views| == |stamps| && Distinct(index) && StuckRows(index, stuck) <= size
    requires Steady(index, size, views, stamps, stuck, t0)
    ensures Waiting(SweepAll(index, size, views, stamps), stuck, t0) <=
            Bounded(Waiting(index, stuck, t0) - Room(|views|, size - StuckRows(index, stuck)))
  {
    hide Waiting, StuckRows, Distinct, Swept, Room, Splits;
    OneMoreSweep(|views| - if views == [] then 0 else 1, size - StuckRows(index, stuck));
    if views != [] {
      var n := |views| - 1;
      SweepsServe(index, size, views[..n], stamps[..n], stuck, t0);
      SweepsKeep(index, size, views[..n], stamps[..n], stuck, t0);
      SweepServes(SweepAll(index, size, views[..n], stamps[..n]), size, views[n], stamps[n], stuck, t0);
    }
  }

  /**
   Whom the sweep reaches.  While fewer rows are stuck than one sweep has places, every other
   row is refreshed within as many sweeps as the remaining places need to cover the others:
   with none stuck, within the size of the index over the size of a sweep, rounded up.
   */
  lemma SweepsReachEverybody(index: Index, size: nat, views: seq<View>, stamps: seq<string -> int>,
                             stuck: set<string>, t0: int)
    requires |views| == |stamps| && Distinct(index) && StuckRows(index, stuck) < size
    requires Steady(index, size, views, stamps, stuck, t0)
    requires Room(|views|, size - StuckRows(index, stuck)) >= |index| - StuckRows(index, stuck)
    ensures forall a :: a in SweepAll(index, size, views, stamps) && Ref(a) !in stuck ==> a.lastRefreshedAt >= t0
  {
    var after := SweepAll(index, size, views, stamps);
    assert Waiting(after, stuck, t0) == 0 by {
      hide Waiting, StuckRows, Steady, SweepAll, Room;
      SweepsServe(index, size, views, stamps, stuck, t0);
      WaitOrStuck(index, stuck, t0);
    }
    var p := (a: Activity) => Waits(a, stuck, t0);
    forall a | a in after && Ref(a) !in stuck ensures a.lastRefreshedAt >= t0 {
      if p(a) { CountsOne(after, p, a); }
    }
  }

  // -- whom it starves ---------------------------------------------------

  /** All that a sweep would look at is stuck. */
  ghost predicate HeadIsStuck(index: Index, size: nat, stuck: set<string>) {
    forall a :: a in Oldest(index, size) ==> Ref(a) in stuck
  }

  /** The stuck rows have not been refreshed since t0. */
  ghost predicate StuckAreOld(index: Index, stuck: set<string>, t0: int) {
    forall i :: 0 <= i < |index| && Ref(index[i]) in stuck ==> index[i].lastRefreshedAt < t0
  }

  lemma StuckStayOld(index: Index, size: nat, view: View, stamp: string -> int, stuck: set<string>, t0: int)
    requires Distinct(index) && Splits(index, view, stuck) && StuckAreOld(index, stuck, t0)
    ensures StuckAreOld(Swept(index, size, view, stamp), stuck, t0)
  {
    SweptIs(index, size, view, stamp);
    hide Swept, Oldest, RefsOf;
  }

  /** With old stuck rows for every place, the head is from before t0. */
  lemma StuckFillTheHead(index: Index, size: nat, stuck: set<string>, t0: int)
    requires Distinct(index) && size < |index| && StuckRows(index, stuck) >= size && StuckAreOld(index, stuck, t0)
    requires !HeadIsStuck(index, size, stuck)
    ensures Waiting(Oldest(index, size), stuck, t0) > 0
  {
    var sorted, head := StableSort(index, RefreshedBefore), Oldest(index, size);
    HeadAndRest(index, size, stuck, t0);
    var a :| a in head && Ref(a) !in stuck;
    if StuckRows(sorted[size..], stuck) == 0 {
      WaitOrStuck(head, stuck, a.lastRefreshedAt);
      AllOrOneIsNot(head, stuck, a);
    } else {
      var j := WitnessOf(sorted[size..], (b: Activity) => IsStuck(b, stuck));
      var i :| 0 <= i < |head| && head[i] == a;
      OldestComeFirst(index, size);
      assert RefreshedBefore(sorted[i], sorted[size + j]);
      SameElements(sorted, index, sorted[size + j]);
      CountsOne(head, (b: Activity) => Waits(b, stuck, t0), a);
    }
  }

  lemma {:induction false} AllOrOneIsNot(rows: seq<Activity>, stuck: set<string>, a: Activity)
    requires a in rows && Ref(a) !in stuck
    ensures StuckRows(rows, stuck) < |rows|
  {
    var p := (b: Activity) => IsStuck(b, stuck);
    CountMonotone(rows[1..], p, p);
    if rows[0] != a {
      AllOrOneIsNot(rows[1..], stuck, a);
    }
  }

  /** A stuck head stays: a sweep that serves nothing changes nothing. */
  lemma StuckHeadChangesNothing(index: Index, size: nat, view: View, stamp: string -> int, stuck: set<string>)
    requires Distinct(index) && Splits(index, view, stuck) && HeadIsStuck(index, size, stuck)
    ensures Swept(index, size, view, stamp) == index
  {
    var picked := Oldest(index, size);
    var refs := RefsOf(picked);
    SweptIs(index, size, view, stamp);
    hide Swept, Oldest;
    forall i | 0 <= i < |index| ensures After(index[i], refs, view, stamp) == index[i] {
      if Ref(index[i]) in refs {
        var j :| 0 <= j < |refs| && refs[j] == Ref(index[i]);
        assert picked[j] in picked;
      }
    }
  }

  /** Each sweep gets one waiting row out of the way, until the stuck rows have every place. */
  lemma {:induction false} StuckRowsGather(index: Index, size: nat, views: seq<View>, stamps: seq<string -> int>,
                                           stuck: set<string>, t0: int)
    requires |views| == |stamps| && Distinct(index) && StuckRows(index, stuck) >= size
    requires Steady(index, size, views, stamps, stuck, t0) && StuckAreOld(index, stuck, t0)
    ensures
      var after := SweepAll(index, size, views, stamps);
      && StuckAreOld(after, stuck, t0)
      && (HeadIsStuck(after, size, stuck) ||
          Waiting(after, stuck, t0) + |views| <= Waiting(index, stuck, t0))
  {
    hide Waiting, StuckRows, Distinct, Swept, Splits, HeadIsStuck, StuckAreOld;
    if views != [] {
      var n := |views| - 1;
      StuckRowsGather(index, size, views[..n], stamps[..n], stuck, t0);
      SweepsKeep(index, size, views[..n], stamps[..n], stuck, t0);
      OneIsOutOfTheWay(SweepAll(index, size, views[..n], stamps[..n]), size, views[n], stamps[n], stuck, t0);
    }
  }

  lemma AllStuck(index: Index, size: nat, stuck: set<string>)
    requires StuckRows(index, stuck) >= |index|
    ensures HeadIsStuck(index, size, stuck)
  {
    forall a | a in Oldest(index, size) ensures Ref(a) in stuck {
      SameElements(StableSort(index, RefreshedBefore), index, a);
      if Ref(a) !in stuck { AllOrOneIsNot(index, stuck, a); }
    }
  }

  lemma OneIsOutOfTheWay(index: Index, size: nat, view: View, stamp: string -> int, stuck: set<string>, t0: int)
    requires Distinct(index) && StuckRows(index, stuck) >= size && Splits(index, view, stuck)
    requires StuckAreOld(index, stuck, t0) && forall ref :: stamp(ref) >= t0
    ensures
      var after := Swept(index, size, view, stamp);
      && StuckAreOld(after, stuck, t0)
      && (if HeadIsStuck(index, size, stuck) then after == index
          else Waiting(after, stuck, t0) + 1 <= Waiting(index, stuck, t0))
  {
    hide Waiting, StuckRows, Distinct, Swept, Splits, HeadIsStuck, StuckAreOld;
    StuckStayOld(index, size, view, stamp, stuck, t0);
    if HeadIsStuck(index, size, stuck) {
      StuckHeadChangesNothing(index, size, view, stamp, stuck);
    } else if size < |index| {
      SweepLeaves(index, size, view, stamp, stuck, t0);
      StuckFillTheHead(index, size, stuck, t0);
      HeadAndRest(index, size, stuck, t0);
    } else {
      AllStuck(index, size, stuck);
    }
  }

  lemma NobodyWaiting(index: Index, size: nat, stuck: set<string>, t0: int)
    requires Distinct(index) && StuckRows(index, stuck) >= size && StuckAreOld(index, stuck, t0)
    ensures HeadIsStuck(index, size, stuck) || Waiting(index, stuck, t0) > 0
  {
    hide Waiting, StuckRows, Distinct, HeadIsStuck, StuckAreOld;
    if size >= |index| {
      AllStuck(index, size, stuck);
    } else if !HeadIsStuck(index, size, stuck) {
      StuckFillTheHead(index, size, stuck, t0);
      HeadAndRest(index, size, stuck, t0);
    }
  }

  /**
   Whom it starves.  With as many stuck rows as a sweep has places, wherever in the index they
   are, after at most as many sweeps as there are other rows the stuck have every place, and
   from then on no sweep changes anything.
   */
  lemma {:induction false} StuckRowsStarveTheRest(index: Index, size: nat, views: seq<View>, stamps: seq<string -> int>,
                                                  stuck: set<string>, t0: int, n: nat)
    requires |views| == |stamps| && Distinct(index) && StuckRows(index, stuck) >= size
    requires Steady(index, size, views, stamps, stuck, t0) && StuckAreOld(index, stuck, t0)
    requires |index| - StuckRows(index, stuck) <= n <= |views|
    ensures SweepAll(index, size, views, stamps) == SweepAll(index, size, views[..n], stamps[..n])
    ensures HeadIsStuck(SweepAll(index, size, views, stamps), size, stuck)
  {
    hide Waiting, StuckRows, Distinct, Swept, Splits, HeadIsStuck, StuckAreOld;
    var m := |views|;
    if n < m {
      StuckRowsStarveTheRest(index, size, views[..m - 1], stamps[..m - 1], stuck, t0, n);
      assert views[..m - 1][..n] == views[..n] && stamps[..m - 1][..n] == stamps[..n];
      SweepsKeep(index, size, views[..m - 1], stamps[..m - 1], stuck, t0);
      StuckHeadChangesNothing(SweepAll(index, size, views[..m - 1], stamps[..m - 1]), size, views[m - 1], stamps[m - 1], stuck);
    } else {
      assert views[..n] == views && stamps[..n] == stamps;
      StuckRowsGather(index, size, views, stamps, stuck, t0);
      WaitOrStuck(index, stuck, t0);
      SweepsKeep(index, size, views, stamps, stuck, t0);
      NobodyWaiting(SweepAll(index, size, views, stamps), size, stuck, t0);
    }
  }

  /**
   Exactly when sweeping goes on: once there was time for the stuck rows to gather, another
   sweep, stamped later than every row, changes something if and only if it has more places
   than there are stuck rows and some row is not stuck.
   */
  lemma SweepingGoesOnIffThereIsRoom(index: Index, size: nat, views: seq<View>, stamps: seq<string -> int>,
                                     stuck: set<string>, t0: int, view: View, stamp: string -> int)
    requires |views| == |stamps| && Distinct(index) && |views| >= |index|
    requires Steady(index, size, views, stamps, stuck, t0) && StuckAreOld(index, stuck, t0)
    requires Splits(SweepAll(index, size, views, stamps), view, stuck)
    requires forall a :: a in SweepAll(index, size, views, stamps) ==> a.lastRefreshedAt < stamp(Ref(a))
    ensures
      var final := SweepAll(index, size, views, stamps);
      Swept(final, size, view, stamp) != final <==>
      StuckRows(index, stuck) < size && StuckRows(index, stuck) < |index|
  {
    var final := SweepAll(index, size, views, stamps);
    hide Waiting, StuckRows, Distinct, Swept, Splits, StuckAreOld, SweepAll, Steady, Oldest;
    SweepsKeep(index, size, views, stamps, stuck, t0);
    if StuckRows(index, stuck) >= size {
      StuckRowsStarveTheRest(index, size, views, stamps, stuck, t0, |views|);
      StuckHeadChangesNothing(final, size, view, stamp, stuck);
    } else if StuckRows(index, stuck) >= |index| {
      AllStuck(final, size, stuck);
      StuckHeadChangesNothing(final, size, view, stamp, stuck);
    } else {
      SomeoneIsServed(final, size, view, stamp, stuck);
    }
  }

  lemma SomeoneIsServed(index: Index, size: nat, view: View, stamp: string -> int, stuck: set<string>)
    requires Distinct(index) && StuckRows(index, stuck) < size && StuckRows(index, stuck) < |index|
    requires Splits(index, view, stuck)
    requires forall a :: a in index ==> a.lastRefreshedAt < stamp(Ref(a))
    ensures Swept(index, size, view, stamp) != index
  {
    var head := Oldest(index, size);
    HeadHoldsOther(index, size, stuck);
    var a :| a in head && Ref(a) !in stuck;
    OldestAreRows(index, size);
    var k :| 0 <= k < |index| && index[k] == a;
    PickedAreListed(head);
    SweptIs(index, size, view, stamp);
    assert Swept(index, size, view, stamp)[k].lastRefreshedAt == stamp(Ref(a));
  }

  lemma HeadHoldsOther(index: Index, size: nat, stuck: set<string>)
    requires StuckRows(index, stuck) < size && StuckRows(index, stuck) < |index|
    ensures exists a :: a in Oldest(index, size) && Ref(a) !in stuck
  {
    var head := Oldest(index, size);
    if size < |index| {
      HeadAndRest(index, size, stuck, 0);
    } else {
      CountSorted(index, RefreshedBefore, (a: Activity) => IsStuck(a, stuck));
    }
    var i := OtherIn(head, stuck);
    assert head[i] in head;
  }

  lemma {:induction false} OtherIn(rows: seq<Activity>, stuck: set<string>) returns (i: nat)
    requires StuckRows(rows, stuck) < |rows|
    ensures i < |rows| && Ref(rows[i]) !in stuck
  {
    if Ref(rows[0]) in stuck {
      i := OtherIn(rows[1..], stuck);
      i := i + 1;
    } else {
      i := 0;
    }
  }
}
