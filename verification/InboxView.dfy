/** Composing the Inbox: who is looked at first, and what a look may do to the index. */
module InboxView {
  import opened Wrappers
  import opened Texts
  import opened Sorting
  import opened ConversationActivity

  // -- discovery order ---------------------------------------------------

  predicate NewerFirst(a: Activity, b: Activity) {
    var x, y := a.summary.lastMessageAt, b.summary.lastMessageAt;
    x != y && x.Some? && (y.None? || StrLt(y.value, x.value))
  }

  function RefsOf(rows: seq<Activity>): (refs: seq<string>)
    ensures |refs| == |rows| && forall i :: 0 <= i < |rows| ==> refs[i] == Ref(rows[i])
  {
    if rows == [] then [] else [Ref(rows[0])] + RefsOf(rows[1..])
  }

  function Unindexed(refs: seq<string>, indexed: map<string, Activity>): seq<string> {
    if refs == [] then []
    else (if refs[0] in indexed then [] else [refs[0]]) + Unindexed(refs[1..], indexed)
  }

  /** The rows of the indexed refs, with or without a last message. */
  function Rows(refs: seq<string>, indexed: map<string, Activity>, timed: bool): seq<Activity> {
    if refs == [] then []
    else (if refs[0] in indexed && indexed[refs[0]].summary.lastMessageAt.Some? == timed then [indexed[refs[0]]] else [])
         + Rows(refs[1..], indexed, timed)
  }

  function Timed(refs: seq<string>, indexed: map<string, Activity>): seq<Activity> {
    StableSort(StableSort(Rows(refs, indexed, true), RefBefore), NewerFirst)
  }

  function Undated(refs: seq<string>, indexed: map<string, Activity>): seq<Activity> {
    StableSort(Rows(refs, indexed, false), RefBefore)
  }

  /** `_discovery_order`. */
  function DiscoveryOrder(refs: seq<string>, indexed: map<string, Activity>): seq<string> {
    StableSort(Unindexed(refs, indexed), StrLt) + RefsOf(Timed(refs, indexed)) + RefsOf(Undated(refs, indexed))
  }

  ghost predicate KeyedByRef(indexed: map<string, Activity>) {
    forall ref :: ref in indexed ==> Ref(indexed[ref]) == ref
  }

  ghost predicate NoRepeats(refs: seq<string>) {
    forall i, j :: 0 <= i < j < |refs| ==> refs[i] != refs[j]
  }

  lemma {:induction false} RefsOfConcat(a: seq<Activity>, b: seq<Activity>)
    ensures RefsOf(a + b) == RefsOf(a) + RefsOf(b)
  {
    assert forall i :: 0 <= i < |a + b| ==> RefsOf(a + b)[i] == (RefsOf(a) + RefsOf(b))[i];
  }

  lemma {:induction false} RefsOfInsert(x: Activity, ys: seq<Activity>, before: (Activity, Activity) -> bool)
    ensures multiset(RefsOf(Insert(x, ys, before))) == multiset([Ref(x)]) + multiset(RefsOf(ys))
  {
    if ys == [] || !before(ys[0], x) {
      assert RefsOf([x] + ys) == [Ref(x)] + RefsOf(ys);
    } else {
      RefsOfInsert(x, ys[1..], before);
      assert RefsOf([ys[0]] + Insert(x, ys[1..], before)) == [Ref(ys[0])] + RefsOf(Insert(x, ys[1..], before));
      assert RefsOf(ys) == [Ref(ys[0])] + RefsOf(ys[1..]);
    }
  }

  lemma {:induction false} RefsOfSorted(rows: seq<Activity>, before: (Activity, Activity) -> bool)
    ensures multiset(RefsOf(StableSort(rows, before))) == multiset(RefsOf(rows))
  {
    if rows != [] {
      RefsOfSorted(rows[1..], before);
      RefsOfInsert(rows[0], StableSort(rows[1..], before), before);
      assert RefsOf(rows) == [Ref(rows[0])] + RefsOf(rows[1..]);
    }
  }

  lemma RefsOfRows(refs: seq<string>, indexed: map<string, Activity>, timed: bool)
    requires KeyedByRef(indexed) && refs != []
    ensures RefsOf(Rows(refs, indexed, timed)) ==
            (if refs[0] in indexed && indexed[refs[0]].summary.lastMessageAt.Some? == timed then [refs[0]] else [])
            + RefsOf(Rows(refs[1..], indexed, timed))
  {
    if refs[0] in indexed && indexed[refs[0]].summary.lastMessageAt.Some? == timed {
      RefsOfConcat([indexed[refs[0]]], Rows(refs[1..], indexed, timed));
      assert RefsOf([indexed[refs[0]]]) == [refs[0]];
    } else {
      assert Rows(refs, indexed, timed) == Rows(refs[1..], indexed, timed);
    }
  }

  /** What the three parts of a reference list hold together. */
  ghost predicate Makes<T>(whole: seq<T>, a: seq<T>, b: seq<T>, c: seq<T>) {
    multiset(whole) == multiset(a) + multiset(b) + multiset(c)
  }

  lemma PartsGrow<T>(x: T, whole: seq<T>, a: seq<T>, b: seq<T>, c: seq<T>)
    requires Makes(whole, a, b, c)
    ensures Makes([x] + whole, [x] + a, [] + b, [] + c)
    ensures Makes([x] + whole, [] + a, [x] + b, [] + c)
    ensures Makes([x] + whole, [] + a, [] + b, [x] + c)
  {
    assert [] + a == a && [] + b == b && [] + c == c;
  }

  lemma {:induction false} PartsMakeWhole(refs: seq<string>, indexed: map<string, Activity>)
    requires KeyedByRef(indexed)
    ensures Makes(refs, Unindexed(refs, indexed), RefsOf(Rows(refs, indexed, true)), RefsOf(Rows(refs, indexed, false)))
  {
    if refs != [] {
      var rest := refs[1..];
      PartsMakeWhole(rest, indexed);
      RefsOfRows(refs, indexed, true);
      RefsOfRows(refs, indexed, false);
      PartsGrow(refs[0], rest, Unindexed(rest, indexed), RefsOf(Rows(rest, indexed, true)),
                RefsOf(Rows(rest, indexed, false)));
      hide Makes, Rows, RefsOf;
      HeadAndTail(refs);
    }
  }

  lemma HeadAndTail<T>(xs: seq<T>)
    requires xs != []
    ensures [xs[0]] + xs[1..] == xs
  {
  }

  lemma Associative<T>(a: seq<T>, b: seq<T>, c: seq<T>)
    ensures a + b + c == a + (b + c)
  {
  }

  /** Nobody is lost and nobody is listed twice. */
  lemma DiscoveryIsPermutation(refs: seq<string>, indexed: map<string, Activity>)
    requires KeyedByRef(indexed)
    ensures multiset(DiscoveryOrder(refs, indexed)) == multiset(refs)
  {
    PartsMakeWhole(refs, indexed);
    RefsOfSorted(Rows(refs, indexed, true), RefBefore);
    RefsOfSorted(StableSort(Rows(refs, indexed, true), RefBefore), NewerFirst);
    RefsOfSorted(Rows(refs, indexed, false), RefBefore);
    hide Rows, RefsOf, StableSort, Unindexed;
  }

  lemma {:induction false} UnindexedAre(refs: seq<string>, indexed: map<string, Activity>, ref: string)
    ensures ref in Unindexed(refs, indexed) <==> ref in refs && ref !in indexed
  {
    if refs != [] {
      UnindexedAre(refs[1..], indexed, ref);
      assert refs == [refs[0]] + refs[1..];
    }
  }

  lemma {:induction false} RowsAre(refs: seq<string>, indexed: map<string, Activity>, timed: bool, a: Activity)
    requires KeyedByRef(indexed)
    ensures a in Rows(refs, indexed, timed) <==>
            Ref(a) in refs && Ref(a) in indexed && indexed[Ref(a)] == a && a.summary.lastMessageAt.Some? == timed
  {
    if refs != [] {
      RowsAre(refs[1..], indexed, timed, a);
      assert refs == [refs[0]] + refs[1..];
    }
  }

  lemma {:induction false} RowsDistinct(refs: seq<string>, indexed: map<string, Activity>, timed: bool)
    requires KeyedByRef(indexed) && NoRepeats(refs)
    ensures Distinct(Rows(refs, indexed, timed))
  {
    if refs != [] {
      var rest := refs[1..];
      RowsDistinct(rest, indexed, timed);
      var tail := Rows(rest, indexed, timed);
      forall a | a in tail ensures Ref(a) != refs[0] {
        RowsAre(rest, indexed, timed, a);
      }
    }
  }

  /** Every conversation never evaluated comes before every one that was. */
  lemma UnindexedComeFirst(refs: seq<string>, indexed: map<string, Activity>)
    requires KeyedByRef(indexed)
    ensures
      var n := |Unindexed(refs, indexed)|;
      var order := DiscoveryOrder(refs, indexed);
      && n <= |order|
      && (forall i :: 0 <= i < n ==> order[i] !in indexed)
      && (forall i :: n <= i < |order| ==> order[i] in indexed)
  {
    hide StableSort, Rows, Unindexed, RefsOf, Timed, Undated;
    var n := |Unindexed(refs, indexed)|;
    var timed, undated := Timed(refs, indexed), Undated(refs, indexed);
    var order := DiscoveryOrder(refs, indexed);
    forall i | 0 <= i < n ensures order[i] !in indexed {
      SameElements(StableSort(Unindexed(refs, indexed), StrLt), Unindexed(refs, indexed), order[i]);
      UnindexedAre(refs, indexed, order[i]);
    }
    forall i | 0 <= i < |timed| ensures Ref(timed[i]) in indexed {
      TimedOrNot(refs, indexed, timed[i]);
    }
    forall i | 0 <= i < |undated| ensures Ref(undated[i]) in indexed {
      TimedOrNot(refs, indexed, undated[i]);
    }
  }

  lemma RefAndNewerAreOrders()
    ensures WeakOrder(RefBefore) && WeakOrder(NewerFirst)
  {
    StringsAreOrdered();
  }

  lemma RefSorts(rows: seq<Activity>)
    requires Distinct(rows)
    ensures SortedBy(StableSort(rows, RefBefore), RefBefore)
  {
    RefAndNewerAreOrders();
    forall i, j | 0 <= i < j < |rows| ensures RefBefore(rows[i], rows[j]) || RefBefore(rows[j], rows[i]) {
      StrLtTotal(Ref(rows[i]), Ref(rows[j]));
    }
    TotalSort(rows, RefBefore);
  }

  /** The two stable sorts put the rows in the order the database's one ORDER BY names. */
  lemma TwoSortsAreOneOrder(refs: seq<string>, indexed: map<string, Activity>)
    requires KeyedByRef(indexed) && NoRepeats(refs)
    ensures SortedBy(Timed(refs, indexed) + Undated(refs, indexed), ActivityBefore)
  {
    var timed, undated := Timed(refs, indexed), Undated(refs, indexed);
    RowsDistinct(refs, indexed, true);
    RowsDistinct(refs, indexed, false);
    RefSorts(Rows(refs, indexed, true));
    RefSorts(Rows(refs, indexed, false));
    RefAndNewerAreOrders();
    StableSortRefines(StableSort(Rows(refs, indexed, true), RefBefore), NewerFirst, RefBefore);
    var all := timed + undated;
    forall i, j | 0 <= i < j < |all| ensures ActivityBefore(all[i], all[j]) {
      TimedOrNot(refs, indexed, all[i]);
      TimedOrNot(refs, indexed, all[j]);
      if j < |timed| {
        assert Lex(NewerFirst, RefBefore, timed[i], timed[j]);
        LexIsActivityOrder(timed[i], timed[j]);
      } else if i >= |timed| {
        assert RefBefore(undated[i - |timed|], undated[j - |timed|]);
      }
    }
  }

  lemma TimedOrNot(refs: seq<string>, indexed: map<string, Activity>, a: Activity)
    requires KeyedByRef(indexed)
    ensures a in Timed(refs, indexed) ==> a.summary.lastMessageAt.Some? && Ref(a) in indexed
    ensures a in Undated(refs, indexed) ==> a.summary.lastMessageAt.None? && Ref(a) in indexed
  {
    var inner := StableSort(Rows(refs, indexed, true), RefBefore);
    SameElements(Timed(refs, indexed), inner, a);
    SameElements(inner, Rows(refs, indexed, true), a);
    SameElements(Undated(refs, indexed), Rows(refs, indexed, false), a);
    RowsAre(refs, indexed, true, a);
    RowsAre(refs, indexed, false, a);
  }

  lemma LexIsActivityOrder(a: Activity, b: Activity)
    requires Lex(NewerFirst, RefBefore, a, b) && a.summary.lastMessageAt.Some? && b.summary.lastMessageAt.Some?
    ensures ActivityBefore(a, b)
  {
    StrLtTotal(a.summary.lastMessageAt.value, b.summary.lastMessageAt.value);
  }

  /** So the indexed part of a discovery is exactly what ordering those rows in the database gives. */
  lemma DiscoveryAgreesWithDatabase(refs: seq<string>, indexed: map<string, Activity>)
    requires KeyedByRef(indexed) && NoRepeats(refs)
    ensures
      var rows := Rows(refs, indexed, true) + Rows(refs, indexed, false);
      DiscoveryOrder(refs, indexed) ==
      StableSort(Unindexed(refs, indexed), StrLt) + RefsOf(StableSort(rows, ActivityBefore))
  {
    var timed, undated := Timed(refs, indexed), Undated(refs, indexed);
    RowsInOrder(refs, indexed);
    RefsOfConcat(timed, undated);
    Associative(StableSort(Unindexed(refs, indexed), StrLt), RefsOf(timed), RefsOf(undated));
    hide Rows, RefsOf, StableSort, Unindexed, Timed, Undated, NoRepeats, KeyedByRef;
  }

  lemma RowsInOrder(refs: seq<string>, indexed: map<string, Activity>)
    requires KeyedByRef(indexed) && NoRepeats(refs)
    ensures Timed(refs, indexed) + Undated(refs, indexed) ==
            StableSort(Rows(refs, indexed, true) + Rows(refs, indexed, false), ActivityBefore)
  {
    var rows := Rows(refs, indexed, true) + Rows(refs, indexed, false);
    var both := Timed(refs, indexed) + Undated(refs, indexed);
    TwoSortsAreOneOrder(refs, indexed);
    AllRowsDistinct(refs, indexed);
    assert multiset(both) == multiset(rows) by {
      hide Rows, StableSort;
    }
    ActivitySorts(rows);
    ActivityIsOrder();
    hide Rows, StableSort, Timed, Undated, WeakOrder, ActivityBefore, SortedBy;
    SortedIsUnique(both, StableSort(rows, ActivityBefore), ActivityBefore);
  }

  lemma ActivitySorts(rows: seq<Activity>)
    requires Distinct(rows)
    ensures SortedBy(StableSort(rows, ActivityBefore), ActivityBefore)
  {
    ActivityIsOrder();
    hide WeakOrder, ActivityBefore;
    TotalSort(rows, ActivityBefore);
  }

  lemma AllRowsDistinct(refs: seq<string>, indexed: map<string, Activity>)
    requires KeyedByRef(indexed) && NoRepeats(refs)
    ensures Distinct(Rows(refs, indexed, true) + Rows(refs, indexed, false))
  {
    RowsDistinct(refs, indexed, true);
    RowsDistinct(refs, indexed, false);
    var t, u := Rows(refs, indexed, true), Rows(refs, indexed, false);
    forall a, b | a in t && b in u ensures Ref(a) != Ref(b) {
      RowsAre(refs, indexed, true, a);
      RowsAre(refs, indexed, false, b);
    }
  }
}
