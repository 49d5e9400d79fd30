/** The cycle and the page as they are written: rows are upserted one at a time. */
module InboxIndexer {
  import opened Wrappers
  import opened Texts
  import opened Sorting
  import opened ConversationActivity
  import opened InboxView
  import opened IndexMaintenance
  import opened SweepCoverage
  import opened SeedCoverage

  datatype IndexCycle = IndexCycle(seeded: nat, swept: nat, unseededRemaining: nat)

  datatype PageRow = PageRow(summary: Summary, previewUnavailable: bool)

  /** How many of these references were observed, of those their copies let through. */
  function Served(copies: Copies, refs: seq<string>, view: View): nat {
    Count(refs, (r: string) => Passes(copies(r), view(r)))
  }

  /** The next write, and what it adds to the count. */
  lemma TurnIs(index: Index, copies: Copies, refs: seq<string>, n: nat, view: View, stamp: string -> int)
    requires n < |refs|
    ensures TakeAll(index, copies, refs[..n + 1], view, stamp) ==
            Take(TakeAll(index, copies, refs[..n], view, stamp), copies, refs[n], view, stamp)
    ensures Served(copies, refs[..n + 1], view) ==
            Served(copies, refs[..n], view) + if Passes(copies(refs[n]), view(refs[n])) then 1 else 0
  {
    hide Passes, Take;
    PrefixGrows(refs, n);
    CountConcat(refs[..n], [refs[n]], (r: string) => Passes(copies(r), view(r)));
  }

  /** Only the copies of the references written matter. */
  lemma {:induction false} CopiesAgree(index: Index, a: Copies, b: Copies, refs: seq<string>, view: View, stamp: string -> int)
    requires forall r :: r in refs ==> a(r) == b(r)
    ensures TakeAll(index, a, refs, view, stamp) == TakeAll(index, b, refs, view, stamp)
    ensures Served(a, refs, view) == Served(b, refs, view)
  {
    if refs != [] {
      var n := |refs| - 1;
      SplitLast(refs);
      assert refs[n] in refs;
      forall r | r in refs[..n] ensures a(r) == b(r) {
        assert r in refs;
      }
      CopiesAgree(index, a, b, refs[..n], view, stamp);
      hide Passes;
      TurnIs(index, a, refs, n, view, stamp);
      TurnIs(index, b, refs, n, view, stamp);
      WholePrefix(refs);
    }
  }

  /** Rows picked from a table are, as copies, the table's own. */
  lemma PickedAreCopies(index: Index, picked: seq<Activity>)
    requires Distinct(index) && NoRepeats(RefsOf(picked)) && forall a :: a in picked ==> a in index
    ensures forall r :: r in RefsOf(picked) ==> CopyOf(picked)(r) == CopyOf(index)(r)
  {
    forall r | r in RefsOf(picked) ensures SummaryAt(picked, r) == SummaryAt(index, r) {
      var i :| 0 <= i < |picked| && RefsOf(picked)[i] == r;
      CopyAt(picked, i);
      assert picked[i] in index;
      var k :| 0 <= k < |index| && index[k] == picked[i];
      RefAtItsPlace(index, k);
    }
  }

  lemma CopyAt(picked: seq<Activity>, i: nat)
    requires NoRepeats(RefsOf(picked)) && i < |picked|
    ensures SummaryAt(picked, Ref(picked[i])) == Some(picked[i].summary)
  {
    hide Distinct, NoRepeats, PositionOf, RefsOf;
    DistinctRefs(picked);
    RefAtItsPlace(picked, i);
  }

  lemma DistinctRefs(rows: seq<Activity>)
    ensures NoRepeats(RefsOf(rows)) <==> Distinct(rows)
  {
    hide RefsOf;
    var refs := RefsOf(rows);
    assert forall i :: 0 <= i < |rows| ==> refs[i] == Ref(rows[i]);
    if !Distinct(rows) {
      var i, j :| 0 <= i < j < |rows| && Ref(rows[i]) == Ref(rows[j]);
      assert refs[i] == refs[j];
    }
  }

  // -- a page ------------------------------------------------------------

  function PageRefs(page: seq<PageRow>): (refs: seq<string>)
    ensures |refs| == |page| && forall i :: 0 <= i < |page| ==> refs[i] == page[i].summary.ref
  {
    if page == [] then [] else [page[0].summary.ref] + PageRefs(page[1..])
  }

  /** The rows of a page are what its reads are judged by. */
  function PageCopies(page: seq<PageRow>): Copies {
    (ref: string) => SummaryOn(page, ref)
  }

  function SummaryOn(page: seq<PageRow>, ref: string): Option<Summary> {
    if page == [] then None
    else if page[0].summary.ref == ref then Some(page[0].summary)
    else SummaryOn(page[1..], ref)
  }

  /** Only threads without a preview are asked for. */
  function Asked(page: seq<PageRow>, view: View): View {
    (ref: string) => if AsksFor(page, ref) then view(ref) else None
  }

  predicate AsksFor(page: seq<PageRow>, ref: string) {
    exists i :: 0 <= i < |page| && page[i].previewUnavailable && page[i].summary.ref == ref
  }

  function Enriched(row: PageRow, latest: Option<Summary>): PageRow {
    if latest.Some? && Supersedes(row.summary, latest.value) then PageRow(latest.value, false)
    else if latest.Some? then row.(previewUnavailable := true)
    else row
  }

  lemma {:induction false} SummaryOnIs(page: seq<PageRow>, n: nat)
    requires n < |page| && forall i :: 0 <= i < n ==> page[i].summary.ref != page[n].summary.ref
    ensures SummaryOn(page, page[n].summary.ref) == Some(page[n].summary)
  {
    if n > 0 {
      assert page[0].summary.ref != page[n].summary.ref;
      forall i | 0 <= i < n - 1 ensures page[1..][i].summary.ref != page[n].summary.ref {
        assert page[1..][i] == page[i + 1];
      }
      SummaryOnIs(page[1..], n - 1);
    }
  }

  lemma RowIsItsCopy(page: seq<PageRow>, n: nat)
    requires n < |page| && NoRepeats(PageRefs(page))
    ensures SummaryOn(page, page[n].summary.ref) == Some(page[n].summary)
    ensures AsksFor(page, page[n].summary.ref) <==> page[n].previewUnavailable
  {
    hide PageRefs, SummaryOn;
    PageRefsDiffer(page, n);
    SummaryOnIs(page, n);
  }

  lemma PageRefsDiffer(page: seq<PageRow>, n: nat)
    requires n < |page| && NoRepeats(PageRefs(page))
    ensures forall i :: 0 <= i < |page| && i != n ==> page[i].summary.ref != page[n].summary.ref
  {
    hide PageRefs;
    var refs := PageRefs(page);
    forall i | 0 <= i < |page| && i != n ensures page[i].summary.ref != page[n].summary.ref {
      assert refs[i] == page[i].summary.ref && refs[n] == page[n].summary.ref;
    }
  }

  /** The index's own rows, before anything is read. */
  function Rendered(rows: seq<Activity>): (page: seq<PageRow>)
    ensures |page| == |rows| && forall i :: 0 <= i < |rows| ==> page[i] == PageRow(rows[i].summary, true)
  {
    if rows == [] then [] else [PageRow(rows[0].summary, true)] + Rendered(rows[1..])
  }

  class ActivityIndexer {
    const store: ConversationActivityStore

    constructor (store: ConversationActivityStore)
      ensures this.store == store
    {
      this.store := store;
    }

    /** `_seed`: what was observed is written, whatever the index has come to hold since it was read. */
    method Seed(refs: seq<string>, view: View, stamp: string -> int) returns (seeded: nat)
      requires store.Valid() && Faithful(view)
      modifies store
      ensures store.Valid() && store.index == TakeAll(old(store.index), Unjudged(), refs, view, stamp)
      ensures seeded == Observed(refs, view)
    {
      ghost var was := store.index;
      seeded := 0;
      hide *;
      Begins(was, Unjudged(), refs, view, stamp);
      for n := 0 to |refs|
        invariant store.Valid() && store.index == TakeAll(was, Unjudged(), refs[..n], view, stamp)
        invariant seeded == Served(Unjudged(), refs[..n], view)
      {
        TurnIs(was, Unjudged(), refs, n, view, stamp);
        SeedTurn(store.index, refs[n], view, stamp);
        var summary := view(refs[n]);
        if summary.Some? {
          store.Upsert(summary.value, stamp(refs[n]));
          seeded := seeded + 1;
        }
      }
      WholePrefix(refs);
      SeedsAreObserved(refs, view);
    }

    /** The rows of a sweep, judged as they were read, written to the index as it is now. */
    method SweepRows(rows: seq<Activity>, view: View, stamp: string -> int) returns (swept: nat)
      requires store.Valid() && Faithful(view) && NoRepeats(RefsOf(rows))
      modifies store
      ensures store.Valid() && store.index == TakeAll(old(store.index), CopyOf(rows), RefsOf(rows), view, stamp)
      ensures swept == Served(CopyOf(rows), RefsOf(rows), view)
    {
      ghost var was := store.index;
      ghost var refs := RefsOf(rows);
      swept := 0;
      hide *;
      Begins(was, CopyOf(rows), refs, view, stamp);
      for n := 0 to |rows|
        invariant store.Valid() && store.index == TakeAll(was, CopyOf(rows), refs[..n], view, stamp)
        invariant swept == Served(CopyOf(rows), refs[..n], view)
      {
        TurnIs(was, CopyOf(rows), refs, n, view, stamp);
        SweepTurn(store.index, rows, n, view, stamp);
        var ref := Ref(rows[n]);
        var latest := view(ref);
        if latest.Some? && Supersedes(rows[n].summary, latest.value) {
          store.Upsert(latest.value, stamp(ref));
          swept := swept + 1;
        }
      }
      WholePrefix(refs);
    }

    /** `_sweep`: a worse observation than what is stored writes nothing. */
    method Sweep(size: nat, view: View, stamp: string -> int) returns (swept: nat)
      requires store.Valid() && Faithful(view)
      modifies store
      ensures store.Valid() && store.index == Swept(old(store.index), size, view, stamp)
      ensures swept == Served(CopyOf(old(store.index)), RefsOf(Oldest(old(store.index), size)), view)
    {
      var rows := Oldest(store.index, size);
      ghost var was := store.index;
      OldestAreRows(was, size);
      PickedAreCopies(was, rows);
      swept := SweepRows(rows, view, stamp);
      CopiesAgree(was, CopyOf(rows), CopyOf(was), RefsOf(rows), view, stamp);
    }

    /** `prepare_activity_index`: seeding outranks sweeping, and what it reports as left to seed is what is left. */
    method Prepare(bookings: seq<string>, seedBatch: nat, sweepSize: nat, view: View, stamp: string -> int)
      returns (cycle: IndexCycle)
      requires store.Valid() && Faithful(view)
      modifies store
      ensures store.Valid()
      ensures store.index == CycleOnce(old(store.index), seedBatch, sweepSize, Cycle(bookings, view, stamp))
      ensures cycle.seeded > 0 ==> cycle.swept == 0
      ensures cycle.unseededRemaining == |Unseeded(store.index, bookings)|
      ensures Unseeded(old(store.index), bookings) != [] ==> cycle.swept == 0
    {
      ghost var was := store.index;
      var unseeded := StableSort(Unseeded(store.index, bookings), StrLt);
      if unseeded != [] {
        BatchIsUnseeded(was, bookings, seedBatch);
        var seeded := Seed(Batch(unseeded, seedBatch), view, stamp);
        UnseededAfter(was, bookings, Batch(unseeded, seedBatch), view, stamp);
        cycle := IndexCycle(seeded, 0, |unseeded| - seeded);
      } else {
        var swept := Sweep(sweepSize, view, stamp);
        SweptSeedsNobody(was, bookings, sweepSize, view, stamp);
        cycle := IndexCycle(0, swept, 0);
      }
    }

    /** What the loop of `_enrich` does with one row of the page. */
    method EnrichRow(page: array<PageRow>, n: nat, view: View, stamp: string -> int)
      requires store.Valid() && Faithful(view) && n < page.Length
      modifies store, page
      ensures store.Valid()
      ensures forall i :: 0 <= i < page.Length && i != n ==> page[i] == old(page[i])
      ensures
        var row := old(page[n]);
        var latest := if row.previewUnavailable then view(row.summary.ref) else None;
        && page[n] == Enriched(row, latest)
        && store.index == if latest.Some? && Supersedes(row.summary, latest.value)
                          then Upserted(old(store.index), latest.value, stamp(row.summary.ref)) else old(store.index)
    {
      hide Supersedes, Upserted;
      var row := page[n];
      if !row.previewUnavailable {
        return;
      }
      var latest := view(row.summary.ref);
      if latest.Some? {
        if Supersedes(row.summary, latest.value) {
          page[n] := PageRow(latest.value, false);
          store.Upsert(latest.value, stamp(row.summary.ref));
        } else {
          page[n] := row.(previewUnavailable := true);
        }
      }
    }

    /** `_enrich`: a row that cannot be read, or reads worse, stays as the page has it. */
    method Enrich(page: array<PageRow>, view: View, stamp: string -> int)
      requires store.Valid() && Faithful(view) && NoRepeats(PageRefs(page[..]))
      modifies store, page
      ensures store.Valid()
      ensures store.index == TakeAll(old(store.index), PageCopies(old(page[..])), PageRefs(old(page[..])),
                                     Asked(old(page[..]), view), stamp)
      ensures forall i :: 0 <= i < page.Length ==>
                page[i] == Enriched(old(page[..])[i], Asked(old(page[..]), view)(old(page[..])[i].summary.ref))
    {
      ghost var was := store.index;
      ghost var rows := page[..];
      ghost var refs := PageRefs(rows);
      ghost var asked := Asked(rows, view);
      hide *;
      Begins(was, PageCopies(rows), refs, asked, stamp);
      for n := 0 to page.Length
        invariant store.Valid() && store.index == TakeAll(was, PageCopies(rows), refs[..n], asked, stamp)
        invariant forall i :: 0 <= i < n ==> page[i] == Enriched(rows[i], asked(rows[i].summary.ref))
        invariant forall i :: n <= i < page.Length ==> page[i] == rows[i]
      {
        TurnIs(was, PageCopies(rows), refs, n, asked, stamp);
        PageTurn(store.index, rows, n, view, stamp);
        EnrichRow(page, n, view, stamp);
      }
      WholePrefix(refs);
    }

    /** `build_inbox`: a page is rendered from the index and then enriched. */
    method BuildPage(slug: Option<string>, limit: nat, view: View, stamp: string -> int) returns (page: array<PageRow>)
      requires store.Valid() && Faithful(view)
      modifies store
      ensures store.Valid() && store.index == Apply(old(store.index), Paging(slug, limit), view, stamp)
      ensures fresh(page) && page.Length == |PageOf(old(store.index), slug, limit)|
      ensures forall i :: 0 <= i < page.Length ==>
                var row := PageOf(old(store.index), slug, limit)[i];
                page[i] == Enriched(PageRow(row.summary, true), view(Ref(row)))
    {
      ghost var was := store.index;
      var rows := PageOf(store.index, slug, limit);
      var rendered := Rendered(rows);
      page := new PageRow[|rows|](i requires 0 <= i < |rows| => rendered[i]);
      assert page[..] == rendered;
      hide *;
      RenderedPage(was, slug, limit, view, stamp);
      Enrich(page, view, stamp);
    }
  }

  lemma Begins(index: Index, copies: Copies, refs: seq<string>, view: View, stamp: string -> int)
    ensures TakeAll(index, copies, refs[..0], view, stamp) == index && Served(copies, refs[..0], view) == 0
  {
  }

  lemma SeedTurn(now: Index, ref: string, view: View, stamp: string -> int)
    requires Faithful(view)
    ensures Passes(Unjudged()(ref), view(ref)) <==> view(ref).Some?
    ensures Take(now, Unjudged(), ref, view, stamp) ==
            if view(ref).Some? then Upserted(now, view(ref).value, stamp(ref)) else now
  {
  }

  lemma {:induction false} SeedsAreObserved(refs: seq<string>, view: View)
    ensures Served(Unjudged(), refs, view) == Observed(refs, view)
  {
    if refs != [] {
      SeedsAreObserved(refs[1..], view);
    }
  }

  lemma TakeBy(now: Index, copies: Copies, ref: string, view: View, stamp: string -> int, copy: Summary)
    requires copies(ref) == Some(copy)
    ensures Passes(copies(ref), view(ref)) <==> view(ref).Some? && Supersedes(copy, view(ref).value)
    ensures Take(now, copies, ref, view, stamp) ==
            if view(ref).Some? && Supersedes(copy, view(ref).value) then Upserted(now, view(ref).value, stamp(ref)) else now
  {
    hide Upserted, Supersedes;
  }

  lemma SweepTurn(now: Index, rows: seq<Activity>, n: nat, view: View, stamp: string -> int)
    requires NoRepeats(RefsOf(rows)) && n < |rows|
    ensures
      var ref, latest := RefsOf(rows)[n], view(RefsOf(rows)[n]);
      && ref == Ref(rows[n])
      && (Passes(CopyOf(rows)(ref), latest) <==> latest.Some? && Supersedes(rows[n].summary, latest.value))
      && Take(now, CopyOf(rows), ref, view, stamp) ==
         if latest.Some? && Supersedes(rows[n].summary, latest.value) then Upserted(now, latest.value, stamp(ref)) else now
  {
    hide NoRepeats, RefsOf, CopyOf, Passes, Take, Upserted, Supersedes;
    CopyIs(rows, n);
    TakeBy(now, CopyOf(rows), Ref(rows[n]), view, stamp, rows[n].summary);
  }

  lemma CopyIs(rows: seq<Activity>, n: nat)
    requires NoRepeats(RefsOf(rows)) && n < |rows|
    ensures CopyOf(rows)(Ref(rows[n])) == Some(rows[n].summary)
  {
    hide NoRepeats, RefsOf, SummaryAt;
    CopyAt(rows, n);
  }

  lemma SweptSeedsNobody(was: Index, bookings: seq<string>, size: nat, view: View, stamp: string -> int)
    requires Distinct(was) && Faithful(view)
    ensures Unseeded(Swept(was, size, view, stamp), bookings) == Unseeded(was, bookings)
  {
    SweptIs(was, size, view, stamp);
    hide Swept, Oldest, RefsOf, Unseeded;
    SweepSeedsNobody(was, Swept(was, size, view, stamp), bookings);
  }

  lemma PageTurn(now: Index, page: seq<PageRow>, n: nat, view: View, stamp: string -> int)
    requires NoRepeats(PageRefs(page)) && n < |page|
    ensures
      var ref, row := PageRefs(page)[n], page[n];
      var latest := if row.previewUnavailable then view(ref) else None;
      && ref == row.summary.ref && Asked(page, view)(ref) == latest
      && Take(now, PageCopies(page), ref, Asked(page, view), stamp) ==
         if latest.Some? && Supersedes(row.summary, latest.value) then Upserted(now, latest.value, stamp(ref)) else now
  {
    hide NoRepeats, PageRefs, Asked, PageCopies, Take, Upserted, Supersedes;
    AskedAt(page, n, view);
    TakeBy(now, PageCopies(page), page[n].summary.ref, Asked(page, view), stamp, page[n].summary);
  }

  lemma AskedAt(page: seq<PageRow>, n: nat, view: View)
    requires NoRepeats(PageRefs(page)) && n < |page|
    ensures PageCopies(page)(page[n].summary.ref) == Some(page[n].summary)
    ensures Asked(page, view)(page[n].summary.ref) == if page[n].previewUnavailable then view(page[n].summary.ref) else None
  {
    hide NoRepeats, PageRefs, SummaryOn, AsksFor;
    RowIsItsCopy(page, n);
  }

  lemma {:induction false} ViewsAgree(index: Index, copies: Copies, refs: seq<string>, a: View, b: View, stamp: string -> int)
    requires forall r :: r in refs ==> a(r) == b(r)
    ensures TakeAll(index, copies, refs, a, stamp) == TakeAll(index, copies, refs, b, stamp)
  {
    if refs != [] {
      var n := |refs| - 1;
      assert refs[n] in refs;
      forall r | r in refs[..n] ensures a(r) == b(r) {
        assert r in refs;
      }
      ViewsAgree(index, copies, refs[..n], a, b, stamp);
    }
  }

  lemma PagingIs(index: Index, slug: Option<string>, limit: nat, view: View, stamp: string -> int)
    ensures Apply(index, Paging(slug, limit), view, stamp) ==
            TakeAll(index, CopyOf(index), RefsOf(PageOf(index, slug, limit)), view, stamp)
  {
  }

  lemma {:induction false} OfPropertyIs(index: Index, slug: Option<string>)
    requires Distinct(index)
    ensures Distinct(OfProperty(index, slug)) && forall a :: a in OfProperty(index, slug) ==> a in index
  {
    if index != [] {
      OfPropertyIs(index[1..], slug);
      forall a | a in OfProperty(index[1..], slug) ensures Ref(a) != Ref(index[0]) {
        var k :| 0 <= k < |index[1..]| && index[1..][k] == a;
        assert Ref(index[0]) != Ref(index[k + 1]);
      }
    }
  }

  /** A page lists rows of the index, each once. */
  lemma PageIsDistinct(index: Index, slug: Option<string>, limit: nat)
    requires Distinct(index)
    ensures NoRepeats(RefsOf(PageOf(index, slug, limit)))
    ensures forall a :: a in PageOf(index, slug, limit) ==> a in index
  {
    var rows := OfProperty(index, slug);
    var sorted := StableSort(rows, ActivityBefore);
    OfPropertyIs(index, slug);
    RefsOfSorted(rows, ActivityBefore);
    DistinctRefs(rows);
    hide StableSort, OfProperty, RefsOf, Distinct;
    SortedRefsDistinct(RefsOf(sorted), RefsOf(rows));
    FirstAreDistinct(sorted, limit);
    forall a | a in Batch(sorted, limit) ensures a in index {
      SameElements(sorted, rows, a);
    }
  }

  lemma {:induction false} PropertyRows(index: Index, slug: Option<string>, a: Activity)
    ensures a in OfProperty(index, slug) <==> a in index && (slug.None? || a.summary.propertySlug == slug)
  {
    if index != [] {
      PropertyRows(index[1..], slug, a);
      assert index == [index[0]] + index[1..];
    }
  }

  lemma RowsAreSorted(index: Index, slug: Option<string>)
    requires Distinct(index)
    ensures SortedBy(StableSort(OfProperty(index, slug), ActivityBefore), ActivityBefore)
  {
    hide ActivityBefore, OfProperty, StableSort, StrLt;
    OfPropertyIs(index, slug);
    ActivityIsOrder();
    TotalSort(OfProperty(index, slug), ActivityBefore);
  }

  /**
   A page holds rows of its property alone, or of any, in activity order; and a row of the property
   that is not on it stands behind all that are, on a page that is full.
   */
  lemma PageIsTheFirstOfItsProperty(index: Index, slug: Option<string>, limit: nat, a: Activity)
    requires Distinct(index)
    ensures
      var page := PageOf(index, slug, limit);
      && |page| <= limit && SortedBy(page, ActivityBefore)
      && (a in page ==> a in index && (slug.None? || a.summary.propertySlug == slug))
      && (a in index && (slug.None? || a.summary.propertySlug == slug) && a !in page ==>
            |page| == limit && forall b :: b in page ==> ActivityBefore(b, a))
  {
    hide StableSort, OfProperty, ActivityBefore, Distinct;
    var rows := OfProperty(index, slug);
    var sorted := StableSort(rows, ActivityBefore);
    PropertyRows(index, slug, a);
    RowsAreSorted(index, slug);
    SameElements(sorted, rows, a);
    var page := PageOf(index, slug, limit);
    assert page <= sorted;
    if a in rows && a !in page {
      var k :| 0 <= k < |sorted| && sorted[k] == a;
      assert k >= |page|;
      forall b | b in page ensures ActivityBefore(b, a) {
        var i :| 0 <= i < |page| && page[i] == b;
        assert sorted[i] == b;
      }
    }
  }

  lemma FirstAreDistinct(sorted: seq<Activity>, limit: nat)
    requires NoRepeats(RefsOf(sorted))
    ensures NoRepeats(RefsOf(Batch(sorted, limit)))
  {
    var batch := Batch(sorted, limit);
    forall i, j | 0 <= i < j < |batch| ensures RefsOf(batch)[i] != RefsOf(batch)[j] {
      assert RefsOf(sorted)[i] != RefsOf(sorted)[j];
    }
  }

  lemma {:induction false} OnceEach(refs: seq<string>)
    ensures NoRepeats(refs) <==> forall r :: r in refs ==> multiset(refs)[r] == 1
  {
    if refs != [] {
      OnceEach(refs[1..]);
      SplitFirst(refs);
      assert forall r :: multiset(refs)[r] == multiset(refs[1..])[r] + if r == refs[0] then 1 else 0;
      assert refs[0] in refs[1..] <==> multiset(refs[1..])[refs[0]] > 0;
    }
  }

  lemma SortedRefsDistinct(a: seq<string>, b: seq<string>)
    requires multiset(a) == multiset(b) && NoRepeats(b)
    ensures NoRepeats(a)
  {
    OnceEach(a);
    OnceEach(b);
    forall r | r in a ensures multiset(a)[r] == 1 {
      SameElements(a, b, r);
    }
  }

  /** Enriching the rendered page is the page's one-step poll, row by row. */
  lemma RenderedPage(index: Index, slug: Option<string>, limit: nat, view: View, stamp: string -> int)
    requires Distinct(index)
    ensures
      var rows := PageOf(index, slug, limit);
      var page := Rendered(rows);
      && NoRepeats(PageRefs(page))
      && TakeAll(index, PageCopies(page), PageRefs(page), Asked(page, view), stamp) == Apply(index, Paging(slug, limit), view, stamp)
      && forall i :: 0 <= i < |rows| ==> Asked(page, view)(page[i].summary.ref) == view(Ref(rows[i]))
  {
    var rows := PageOf(index, slug, limit);
    var page := Rendered(rows);
    hide *;
    PageIsDistinct(index, slug, limit);
    RenderedIs(index, rows, view);
    CopiesAgree(index, PageCopies(page), CopyOf(index), RefsOf(rows), Asked(page, view), stamp);
    ViewsAgree(index, CopyOf(index), RefsOf(rows), Asked(page, view), view, stamp);
    PagingIs(index, slug, limit, view, stamp);
    forall i | 0 <= i < |rows| ensures Asked(page, view)(page[i].summary.ref) == view(Ref(rows[i])) {
      assert PageRefs(page)[i] == page[i].summary.ref && RefsOf(rows)[i] == Ref(rows[i]);
      assert RefsOf(rows)[i] in RefsOf(rows);
    }
  }

  lemma RenderedIs(index: Index, rows: seq<Activity>, view: View)
    requires Distinct(index) && NoRepeats(RefsOf(rows)) && forall a :: a in rows ==> a in index
    ensures
      var page := Rendered(rows);
      && PageRefs(page) == RefsOf(rows)
      && (forall r :: r in RefsOf(rows) ==> PageCopies(page)(r) == CopyOf(index)(r) && Asked(page, view)(r) == view(r))
  {
    var page := Rendered(rows);
    assert PageRefs(page) == RefsOf(rows);
    PickedAreCopies(index, rows);
    forall r | r in RefsOf(rows) ensures SummaryOn(page, r) == SummaryAt(index, r) && AsksFor(page, r) {
      var i :| 0 <= i < |rows| && RefsOf(rows)[i] == r;
      RowIsItsCopy(page, i);
      CopyAt(rows, i);
      assert CopyOf(rows)(r) == CopyOf(index)(r);
    }
  }
}
