/** The index of conversation activity: its rows, its orderings, and its two chunked lookups. */
module ConversationActivity {
  import opened Wrappers
  import opened Texts
  import opened Sorting

  /** What one thread read reports.  Fields that are only carried along stand in `details`. */
  datatype Summary = Summary(
    ref: string,
    lastMessageAt: Option<string>,
    messageCount: nat,
    fingerprint: string,
    status: string,
    propertySlug: Option<string>,
    details: string)

  /** A row: the last summary written, and the two stamps (instants, as IsoStamps orders them). */
  datatype Activity = Activity(summary: Summary, firstSeenAt: int, lastRefreshedAt: int)

  /** The table, in row order. */
  type Index = seq<Activity>

  function Ref(a: Activity): string {
    a.summary.ref
  }

  ghost predicate Distinct(index: Index) {
    forall i, j :: 0 <= i < j < |index| ==> Ref(index[i]) != Ref(index[j])
  }

  predicate Knows(index: Index, ref: string) {
    exists i :: 0 <= i < |index| && Ref(index[i]) == ref
  }

  // -- orderings ---------------------------------------------------------

  predicate RefBefore(a: Activity, b: Activity) {
    StrLt(Ref(a), Ref(b))
  }

  predicate RefreshedBefore(a: Activity, b: Activity) {
    a.lastRefreshedAt < b.lastRefreshedAt || (a.lastRefreshedAt == b.lastRefreshedAt && StrLt(Ref(a), Ref(b)))
  }

  /** `least_recently_refreshed`. */
  function Oldest(index: Index, limit: nat): (r: seq<Activity>)
    ensures |r| == if limit < |index| then limit else |index|
  {
    var sorted := StableSort(index, RefreshedBefore);
    if limit < |sorted| then sorted[..limit] else sorted
  }

  /** The newer last message first, a missing one last, and the reference ascending. */
  predicate ActivityBefore(a: Activity, b: Activity) {
    var x, y := a.summary.lastMessageAt, b.summary.lastMessageAt;
    if x == y then StrLt(Ref(a), Ref(b))
    else x.Some? && (y.None? || StrLt(y.value, x.value))
  }

  lemma RefreshedIsOrder()
    ensures WeakOrder(RefreshedBefore)
    ensures forall a, b :: RefreshedBefore(a, b) ==> !RefreshedBefore(b, a)
    ensures forall a, b :: Ref(a) != Ref(b) ==> RefreshedBefore(a, b) || RefreshedBefore(b, a)
  {
    StringsAreOrdered();
  }

  lemma ActivityIsOrder()
    ensures WeakOrder(ActivityBefore)
    ensures forall a, b :: ActivityBefore(a, b) ==> !ActivityBefore(b, a)
    ensures forall a, b :: Ref(a) != Ref(b) ==> ActivityBefore(a, b) || ActivityBefore(b, a)
  {
    StringsAreOrdered();
  }

  /** Every row before the cut was refreshed no later than any row after it. */
  lemma OldestComeFirst(index: Index, limit: nat)
    requires Distinct(index)
    ensures SortedBy(StableSort(index, RefreshedBefore), RefreshedBefore)
    ensures Oldest(index, limit) <= StableSort(index, RefreshedBefore)
  {
    RefreshedIsOrder();
    TotalSort(index, RefreshedBefore);
  }

  // -- writes ------------------------------------------------------------

  function Refreshed(a: Activity, latest: Summary, now: int): Activity {
    Activity(latest, a.firstSeenAt, now)
  }

  /** Where the reference's row is; past the end if it has none. */
  function PositionOf(index: Index, ref: string): (k: nat)
    ensures k <= |index| && (k < |index| ==> Ref(index[k]) == ref)
    ensures forall i :: 0 <= i < k ==> Ref(index[i]) != ref
  {
    if index == [] || Ref(index[0]) == ref then 0 else 1 + PositionOf(index[1..], ref)
  }

  /** `upsert`: `first_seen_at` is written once, `last_refreshed_at` every time. */
  function Upserted(index: Index, latest: Summary, now: int): Index {
    var k := PositionOf(index, latest.ref);
    if k < |index| then index[k := Refreshed(index[k], latest, now)] else index + [Activity(latest, now, now)]
  }

  lemma UpsertedRefs(index: Index, latest: Summary, now: int)
    requires Distinct(index)
    ensures Distinct(Upserted(index, latest, now))
    ensures forall ref :: Knows(Upserted(index, latest, now), ref) <==> Knows(index, ref) || ref == latest.ref
  {
    var after := Upserted(index, latest, now);
    var k := PositionOf(index, latest.ref);
    assert forall i :: 0 <= i < |index| ==> Ref(after[i]) == Ref(index[i]);
    assert Ref(after[k]) == latest.ref;
    forall ref ensures Knows(after, ref) <==> Knows(index, ref) || ref == latest.ref {
      if i :| 0 <= i < |index| && Ref(index[i]) == ref { assert Ref(after[i]) == ref; }
    }
  }

  /** A row that stands for the reference keeps when it was first seen; without one, a row is added; no other changes. */
  lemma UpsertedMeans(index: Index, latest: Summary, now: int)
    requires Distinct(index)
    ensures
      var after := Upserted(index, latest, now);
      && |after| >= |index|
      && (forall i :: 0 <= i < |index| ==>
            after[i] == if Ref(index[i]) == latest.ref then Activity(latest, index[i].firstSeenAt, now) else index[i])
      && (if Knows(index, latest.ref) then |after| == |index| else after == index + [Activity(latest, now, now)])
  {
    var k := PositionOf(index, latest.ref);
    if k < |index| { assert Ref(index[k]) == latest.ref; }
  }

  // -- the chunked lookups -----------------------------------------------

  const IN_CHUNK := 400

  function Within(index: Index, refs: seq<string>): set<string> {
    set a | a in index && Ref(a) in refs :: Ref(a)
  }

  /** `min(last_refreshed_at)` of one query; None where no row matches. */
  function LeastStamp(index: Index, refs: seq<string>): Option<int> {
    if index == [] then None
    else
      var rest := LeastStamp(index[1..], refs);
      if Ref(index[0]) !in refs then rest
      else if rest.None? || index[0].lastRefreshedAt < rest.value then Some(index[0].lastRefreshedAt)
      else rest
  }

  predicate IsLeastStamp(index: Index, refs: seq<string>, least: Option<int>) {
    && (least.None? <==> forall a :: a in index ==> Ref(a) !in refs)
    && (least.Some? ==>
          (exists a :: a in index && Ref(a) in refs && a.lastRefreshedAt == least.value)
          && forall a :: a in index && Ref(a) in refs ==> least.value <= a.lastRefreshedAt)
  }

  lemma {:induction false} LeastStampIsLeast(index: Index, refs: seq<string>)
    ensures IsLeastStamp(index, refs, LeastStamp(index, refs))
  {
    if index != [] {
      LeastStampIsLeast(index[1..], refs);
      assert index[0] in index;
      assert forall a :: a in index <==> a == index[0] || a in index[1..];
    }
  }

  class ConversationActivityStore {
    var index: Index

    ghost predicate Valid()
      reads this
    {
      Distinct(index)
    }

    constructor ()
      ensures Valid() && index == []
    {
      index := [];
    }

    method Upsert(latest: Summary, now: int)
      requires Valid()
      modifies this
      ensures Valid() && index == Upserted(old(index), latest, now)
    {
      UpsertedRefs(index, latest, now);
      var k := PositionOf(index, latest.ref);
      if k == |index| {
        index := index + [Activity(latest, now, now)];
      } else {
        var record := index[k];
        record := record.(summary := latest);
        record := record.(lastRefreshedAt := now);
        index := index[k := record];
      }
    }

    /** `known_refs`: chunk by chunk, what one unbounded query would answer. */
    method KnownRefs(wanted: seq<string>) returns (found: set<string>)
      ensures found == Within(index, wanted)
    {
      found := {};
      var start := 0;
      while start < |wanted|
        invariant 0 <= start <= |wanted| && found == Within(index, wanted[..start])
      {
        var stop := if start + IN_CHUNK < |wanted| then start + IN_CHUNK else |wanted|;
        var chunk := wanted[start..stop];
        found := found + Within(index, chunk);
        assert wanted[..stop] == wanted[..start] + chunk;
        start := stop;
      }
      assert wanted[..|wanted|] == wanted;
    }

    /** `oldest_refreshed_at`: likewise, the least over all chunks. */
    method OldestRefreshedAt(wanted: seq<string>) returns (oldest: Option<int>)
      ensures IsLeastStamp(index, wanted, oldest)
    {
      oldest := None;
      var start := 0;
      while start < |wanted|
        invariant 0 <= start <= |wanted| && IsLeastStamp(index, wanted[..start], oldest)
      {
        var stop := if start + IN_CHUNK < |wanted| then start + IN_CHUNK else |wanted|;
        var chunk := wanted[start..stop];
        var value := LeastStamp(index, chunk);
        LeastStampIsLeast(index, chunk);
        assert wanted[..stop] == wanted[..start] + chunk;
        if value.Some? && (oldest.None? || value.value < oldest.value) {
          oldest := value;
        }
        start := stop;
      }
      assert wanted[..|wanted|] == wanted;
    }
  }
}
