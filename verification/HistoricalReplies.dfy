/** Turning a thread into question-and-answer pairs, and indexing them once each. */
module HistoricalReplies {
  import opened Wrappers
  import opened Texts
  import opened Hospitality

  const MIN_TEXT_LENGTH := 3
  const MAX_TEXT_LENGTH := 1200

  /** One message, its body already redacted. */
  datatype Row = Row(sender: Sender, body: string, isSystem: bool, createdAt: Option<string>)

  /** A fingerprint stands for what it is taken of. */
  datatype Identity = Identity(slug: string, guestText: string, ownerText: string, day: string)

  datatype Exchange = Exchange(ref: Identity, slug: Option<string>, source: Option<string>, createdAt: Option<string>)

  // -- the runs, read off the thread -------------------------------------

  /** A maximal guest run begins here. */
  predicate Starts(rows: seq<Row>, a: nat) {
    a < |rows| && rows[a].sender == Renter && (a == 0 || rows[a - 1].sender != Renter)
  }

  /** Rows a to b are all this sender's. */
  predicate AllFrom(rows: seq<Row>, a: nat, b: nat, sender: Sender) {
    a <= b <= |rows| && forall i :: a <= i < b ==> rows[i].sender == sender
  }

  /** Rows a to b are a run of this sender's that cannot be extended to the right. */
  predicate RunTo(rows: seq<Row>, a: nat, b: nat, sender: Sender) {
    AllFrom(rows, a, b, sender) && (b < |rows| ==> rows[b].sender != sender)
  }

  function RunEnd(rows: seq<Row>, a: nat, sender: Sender): (b: nat)
    requires a <= |rows|
    ensures RunTo(rows, a, b, sender)
    decreases |rows| - a
  {
    if a < |rows| && rows[a].sender == sender then RunEnd(rows, a + 1, sender) else a
  }

  predicate Speaks(r: Row) {
    r.body != "" && !(r.sender == Owner && r.isSystem)
  }

  function Bodies(rows: seq<Row>): seq<string> {
    if rows == [] then []
    else Bodies(rows[..|rows| - 1]) + if Speaks(rows[|rows| - 1]) then [rows[|rows| - 1].body] else []
  }

  /** The first stamp among rows that say something. */
  function FirstCreated(rows: seq<Row>): Option<string> {
    if rows == [] then None
    else
      var earlier := FirstCreated(rows[..|rows| - 1]);
      if earlier.Some? || !Speaks(rows[|rows| - 1]) then earlier else rows[|rows| - 1].createdAt
  }

  function Clip(parts: seq<string>): string {
    var text := Strip(JoinWords(parts));
    if |text| > MAX_TEXT_LENGTH then text[..MAX_TEXT_LENGTH] else text
  }

  function Day(createdAt: Option<string>): string {
    var stamp := if createdAt.Some? then createdAt.value else "";
    if |stamp| > 10 then stamp[..10] else stamp
  }

  function Built(slug: Option<string>, source: Option<string>, guest: seq<Row>, owner: seq<Row>): Exchange {
    var created := FirstCreated(guest);
    Exchange(Identity(if slug.Some? then slug.value else "", Clip(Bodies(guest)), Clip(Bodies(owner)), Day(created)),
             slug, source, created)
  }

  /** The pair of the guest run that starts at a: that run, and the owner run at once behind it, if any. */
  function PairAt(rows: seq<Row>, slug: Option<string>, source: Option<string>, a: nat): Exchange
    requires a < |rows|
  {
    var b := RunEnd(rows, a, Renter);
    var c := RunEnd(rows, b, Owner);
    Built(slug, source, rows[a..b], rows[b..c])
  }

  predicate LongEnough(e: Exchange) {
    |e.ref.guestText| >= MIN_TEXT_LENGTH && |e.ref.ownerText| >= MIN_TEXT_LENGTH
  }

  function RefsOf(es: seq<Exchange>): set<Identity> {
    set e | e in es :: e.ref
  }

  /** Short sides and repeats are left out. */
  function Added(es: seq<Exchange>, e: Exchange): seq<Exchange> {
    if LongEnough(e) && e.ref !in RefsOf(es) then es + [e] else es
  }

  /** One exchange for each maximal guest run among the first n rows, in order. */
  function ExchangesUpTo(rows: seq<Row>, slug: Option<string>, source: Option<string>, n: nat): seq<Exchange>
    requires n <= |rows|
  {
    if n == 0 then []
    else
      var before := ExchangesUpTo(rows, slug, source, n - 1);
      if Starts(rows, n - 1) then Added(before, PairAt(rows, slug, source, n - 1)) else before
  }

  function Exchanges(rows: seq<Row>, slug: Option<string>, source: Option<string>): seq<Exchange> {
    ExchangesUpTo(rows, slug, source, |rows|)
  }

  // -- what the reading promises -----------------------------------------

  ghost predicate UniqueRefs(es: seq<Exchange>) {
    forall i, j :: 0 <= i < j < |es| ==> es[i].ref != es[j].ref
  }

  /** e is the exchange of the guest run from a to b and the owner run from b to c. */
  ghost predicate PairOf(rows: seq<Row>, slug: Option<string>, source: Option<string>, a: nat, b: nat, c: nat, e: Exchange) {
    Starts(rows, a) && a < b && RunTo(rows, a, b, Renter) && RunTo(rows, b, c, Owner)
    && e.slug == slug && e.source == source && e.ref.slug == (if slug.Some? then slug.value else "")
    && e.ref.guestText == Clip(Bodies(rows[a..b])) && e.ref.ownerText == Clip(Bodies(rows[b..c]))
    && e.createdAt == FirstCreated(rows[a..b]) && e.ref.day == Day(e.createdAt)
  }

  /** What a run says: each row's words, in order, if it has any and is not a system message of ours. */
  lemma BodiesMean(a: seq<Row>, b: seq<Row>, r: Row)
    ensures Bodies(a + b) == Bodies(a) + Bodies(b)
    ensures Bodies([r]) == if r.body == "" || (r.sender == Owner && r.isSystem) then [] else [r.body]
  {
    BodiesConcat(a, b);
    assert [r][..0] == [];
  }

  lemma {:induction false} BodiesConcat(a: seq<Row>, b: seq<Row>)
    ensures Bodies(a + b) == Bodies(a) + Bodies(b)
    decreases |b|
  {
    hide Speaks;
    if b == [] {
      assert a + b == a;
    } else {
      var n := |b| - 1;
      BodiesConcat(a, b[..n]);
      assert (a + b)[..|a| + n] == a + b[..n];
    }
  }

  /** The day of an exchange is that of the first row of the guest's that says something and has a stamp. */
  lemma {:induction false} FirstCreatedMeans(rows: seq<Row>)
    ensures
      match FirstCreated(rows)
      case None => forall i :: 0 <= i < |rows| && Speaks(rows[i]) ==> rows[i].createdAt.None?
      case Some(stamp) =>
        exists i :: 0 <= i < |rows| && Speaks(rows[i]) && rows[i].createdAt == Some(stamp)
                    && forall j :: 0 <= j < i && Speaks(rows[j]) ==> rows[j].createdAt.None?
  {
    if rows != [] {
      var n := |rows| - 1;
      FirstCreatedMeans(rows[..n]);
      assert forall i :: 0 <= i < n ==> rows[..n][i] == rows[i];
    }
  }

  /** A side is its words, stripped, and no more than the first twelve hundred characters. */
  lemma ClipMeans(parts: seq<string>)
    ensures Clip(parts) <= Strip(JoinWords(parts)) && |Clip(parts)| <= 1200
    ensures |Clip(parts)| < 1200 ==> Clip(parts) == Strip(JoinWords(parts))
  {
  }

  /** A day is the stamp's first ten characters, or all of a shorter one. */
  lemma DayMeans(createdAt: Option<string>)
    ensures createdAt.None? ==> Day(createdAt) == ""
    ensures createdAt.Some? ==> Day(createdAt) <= createdAt.value && |Day(createdAt)| <= 10
    ensures createdAt.Some? && |Day(createdAt)| < 10 ==> Day(createdAt) == createdAt.value
  {
  }

  lemma PairAtIs(rows: seq<Row>, slug: Option<string>, source: Option<string>, a: nat)
    requires Starts(rows, a)
    ensures exists b: nat, c: nat :: PairOf(rows, slug, source, a, b, c, PairAt(rows, slug, source, a))
  {
    hide Clip, Bodies, FirstCreated, Day;
    var b := RunEnd(rows, a, Renter);
    var c := RunEnd(rows, b, Owner);
    assert PairOf(rows, slug, source, a, b, c, PairAt(rows, slug, source, a));
  }

  lemma {:induction false} UpToIs(rows: seq<Row>, slug: Option<string>, source: Option<string>, n: nat)
    requires n <= |rows|
    ensures
      var es := ExchangesUpTo(rows, slug, source, n);
      && UniqueRefs(es)
      && (forall e :: e in es ==>
            LongEnough(e) && exists a: nat :: a < n && Starts(rows, a) && e == PairAt(rows, slug, source, a))
      && (forall a: nat :: a < n && Starts(rows, a) && LongEnough(PairAt(rows, slug, source, a)) ==>
            PairAt(rows, slug, source, a).ref in RefsOf(es))
  {
    hide PairAt, LongEnough;
    if n > 0 {
      UpToIs(rows, slug, source, n - 1);
    }
  }

  /** There is one way to pair what starts at a. */
  lemma PairIsUnique(rows: seq<Row>, slug: Option<string>, source: Option<string>, a: nat, b: nat, c: nat, e: Exchange)
    requires PairOf(rows, slug, source, a, b, c, e)
    ensures e == PairAt(rows, slug, source, a)
  {
    hide Clip, Bodies, FirstCreated, Day;
    RunEndIs(rows, a, b, Renter);
    RunEndIs(rows, b, c, Owner);
  }

  /**
   Every exchange pairs a maximal guest run with the owner run at once behind it, both long
   enough; every such pair is there under its reference; and no reference is there twice.
   */
  lemma ExchangesAreThePairs(rows: seq<Row>, slug: Option<string>, source: Option<string>)
    ensures
      var es := Exchanges(rows, slug, source);
      && UniqueRefs(es)
      && (forall e :: e in es ==>
            |e.ref.guestText| >= 3 && |e.ref.ownerText| >= 3
            && exists a: nat, b: nat, c: nat :: PairOf(rows, slug, source, a, b, c, e))
      && (forall a: nat, b: nat, c: nat, e ::
            PairOf(rows, slug, source, a, b, c, e) && |e.ref.guestText| >= 3 && |e.ref.ownerText| >= 3 ==> e.ref in RefsOf(es))
  {
    hide PairAt, PairOf;
    UpToIs(rows, slug, source, |rows|);
    var es := Exchanges(rows, slug, source);
    forall e | e in es ensures exists a: nat, b: nat, c: nat :: PairOf(rows, slug, source, a, b, c, e) {
      var a: nat :| a < |rows| && Starts(rows, a) && e == PairAt(rows, slug, source, a);
      PairAtIs(rows, slug, source, a);
    }
    forall a: nat, b: nat, c: nat, e |
      PairOf(rows, slug, source, a, b, c, e) && |e.ref.guestText| >= 3 && |e.ref.ownerText| >= 3
      ensures e.ref in RefsOf(es)
    {
      PairIsUnique(rows, slug, source, a, b, c, e);
      PairStarts(rows, slug, source, a, b, c, e);
    }
  }

  lemma PairStarts(rows: seq<Row>, slug: Option<string>, source: Option<string>, a: nat, b: nat, c: nat, e: Exchange)
    requires PairOf(rows, slug, source, a, b, c, e)
    ensures Starts(rows, a) && a < |rows|
  {
  }

  // -- the scanner -------------------------------------------------------

  /** Between two guest runs nothing starts. */
  lemma {:induction false} NothingStarts(rows: seq<Row>, slug: Option<string>, source: Option<string>, a: nat, b: nat)
    requires a <= b <= |rows| && forall i: nat :: a <= i < b ==> !Starts(rows, i)
    ensures ExchangesUpTo(rows, slug, source, b) == ExchangesUpTo(rows, slug, source, a)
    decreases b
  {
    hide PairAt;
    if a < b {
      NothingStarts(rows, slug, source, a, b - 1);
    }
  }

  lemma RunEndIs(rows: seq<Row>, a: nat, b: nat, sender: Sender)
    requires RunTo(rows, a, b, sender)
    ensures RunEnd(rows, a, sender) == b
  {
    var e := RunEnd(rows, a, sender);
    assert RunTo(rows, a, e, sender);
  }

  /** `extract_exchanges`: one walk, with an inner walk over each run. */
  method ExtractExchanges(rows: seq<Row>, slug: Option<string>, source: Option<string>) returns (exchanges: seq<Exchange>)
    ensures exchanges == Exchanges(rows, slug, source)
  {
    hide Built, Clip, Bodies, FirstCreated, Day, LongEnough;
    exchanges := [];
    var seen: set<Identity> := {};
    var index := 0;
    while index < |rows|
      invariant index <= |rows| && exchanges == ExchangesUpTo(rows, slug, source, index) && seen == RefsOf(exchanges)
      invariant index < |rows| && rows[index].sender == Renter ==> Starts(rows, index)
    {
      if rows[index].sender != Renter {
        index := index + 1;
        continue;
      }
      var start := index;
      var guestParts, created, split := ReadGuestRun(rows, start);
      var ownerParts, stop := ReadOwnerRun(rows, split);
      index := stop;
      RunEndIs(rows, start, split, Renter);
      RunEndIs(rows, split, stop, Owner);
      var pair := PairAt(rows, slug, source, start);
      forall i: nat | start + 1 <= i < index ensures !Starts(rows, i) {
        if i < split { assert rows[i - 1].sender == Renter; }
      }
      NothingStarts(rows, slug, source, start + 1, index);
      assert index < |rows| && rows[index].sender == Renter ==> index > split;

      var guestText, ownerText := Clip(guestParts), Clip(ownerParts);
      var exchange := Exchange(Identity(if slug.Some? then slug.value else "", guestText, ownerText, Day(created)),
                               slug, source, created);
      IsBuilt(slug, source, rows[start..split], rows[split..stop]);
      assert exchange == pair;
      if !LongEnough(exchange) || exchange.ref in seen {
        continue;
      }
      seen := seen + {exchange.ref};
      exchanges := exchanges + [exchange];
    }
  }

  lemma IsBuilt(slug: Option<string>, source: Option<string>, guest: seq<Row>, owner: seq<Row>)
    ensures Built(slug, source, guest, owner) ==
            Exchange(Identity(if slug.Some? then slug.value else "", Clip(Bodies(guest)), Clip(Bodies(owner)),
                              Day(FirstCreated(guest))), slug, source, FirstCreated(guest))
  {
  }

  lemma NothingRead(rows: seq<Row>, start: nat)
    requires start <= |rows|
    ensures Bodies(rows[start..start]) == [] && FirstCreated(rows[start..start]) == None
  {
  }

  /** One row more of a run, seen from the loop that reads it. */
  lemma RunGrows(rows: seq<Row>, start: nat, index: nat)
    requires start <= index < |rows|
    ensures Bodies(rows[start..index + 1]) ==
            Bodies(rows[start..index]) + if Speaks(rows[index]) then [rows[index].body] else []
    ensures FirstCreated(rows[start..index + 1]) ==
            var earlier := FirstCreated(rows[start..index]);
            if earlier.Some? || !Speaks(rows[index]) then earlier else rows[index].createdAt
  {
    var run := rows[start..index + 1];
    assert run[..|run| - 1] == rows[start..index] && run[|run| - 1] == rows[index];
  }

  method ReadGuestRun(rows: seq<Row>, start: nat) returns (parts: seq<string>, created: Option<string>, index: nat)
    requires start < |rows| && rows[start].sender == Renter
    ensures start < index && RunTo(rows, start, index, Renter)
    ensures parts == Bodies(rows[start..index]) && created == FirstCreated(rows[start..index])
  {
    hide Bodies, FirstCreated;
    NothingRead(rows, start);
    parts, created, index := [], None, start;
    while index < |rows| && rows[index].sender == Renter
      invariant AllFrom(rows, start, index, Renter)
      invariant parts == Bodies(rows[start..index]) && created == FirstCreated(rows[start..index])
    {
      RunGrows(rows, start, index);
      if rows[index].body != "" {
        parts := parts + [rows[index].body];
        if created.None? {
          created := rows[index].createdAt;
        }
      }
      index := index + 1;
    }
  }

  method ReadOwnerRun(rows: seq<Row>, start: nat) returns (parts: seq<string>, index: nat)
    requires start <= |rows|
    ensures RunTo(rows, start, index, Owner) && parts == Bodies(rows[start..index])
  {
    hide Bodies, FirstCreated;
    NothingRead(rows, start);
    parts, index := [], start;
    while index < |rows| && rows[index].sender == Owner
      invariant AllFrom(rows, start, index, Owner) && parts == Bodies(rows[start..index])
    {
      RunGrows(rows, start, index);
      if !rows[index].isSystem {
        if rows[index].body != "" {
          parts := parts + [rows[index].body];
        }
      }
      index := index + 1;
    }
  }

  // -- the index ---------------------------------------------------------

  function Indexed(rows: map<Identity, Exchange>, es: seq<Exchange>): map<Identity, Exchange> {
    if es == [] then rows
    else
      var before, e := Indexed(rows, es[..|es| - 1]), es[|es| - 1];
      before[e.ref := if e.ref in before then before[e.ref].(slug := e.slug, source := e.source) else e]
  }

  lemma {:induction false} IndexedKeys(rows: map<Identity, Exchange>, es: seq<Exchange>)
    ensures Indexed(rows, es).Keys == rows.Keys + RefsOf(es)
  {
    if es != [] {
      var init, e := es[..|es| - 1], es[|es| - 1];
      IndexedKeys(rows, init);
      assert es == init + [e];
      assert RefsOf(es) == RefsOf(init) + {e.ref};
    }
  }

  class HistoricalReplyStore {
    var rows: map<Identity, Exchange>

    /** `upsert`: what is there is refreshed, what is not is inserted, and every exchange counts once. */
    method Upsert(es: seq<Exchange>) returns (created: nat, updated: nat)
      modifies this
      ensures rows == Indexed(old(rows), es)
      ensures created + updated == |es| && created == |rows| - |old(rows)|
    {
      created, updated := 0, 0;
      ghost var was := rows;
      for n := 0 to |es|
        invariant rows == Indexed(was, es[..n])
        invariant created + updated == n && created == |rows| - |was|
      {
        assert es[..n + 1][..n] == es[..n];
        var e := es[n];
        ghost var before := rows;
        if e.ref !in rows {
          rows := rows[e.ref := e];
          assert rows.Keys == before.Keys + {e.ref};
          created := created + 1;
        } else {
          rows := rows[e.ref := rows[e.ref].(slug := e.slug, source := e.source)];
          assert rows.Keys == before.Keys;
          updated := updated + 1;
        }
        KeyCount(rows);
        KeyCount(before);
      }
      assert es[..|es|] == es;
    }
  }

  ghost predicate IsFirstOf(es: seq<Exchange>, i: int, ref: Identity) {
    0 <= i < |es| && es[i].ref == ref && forall j :: 0 <= j < i ==> es[j].ref != ref
  }

  ghost predicate IsLastOf(es: seq<Exchange>, i: int, ref: Identity) {
    0 <= i < |es| && es[i].ref == ref && forall j :: i < j < |es| ==> es[j].ref != ref
  }

  /** A row keeps the stamp of the first exchange it was ever given, whatever comes after it. */
  lemma {:induction false} FirstStampStays(rows: map<Identity, Exchange>, es: seq<Exchange>, ref: Identity)
    requires ref in Indexed(rows, es)
    ensures ref in rows ==> Indexed(rows, es)[ref].createdAt == rows[ref].createdAt
    ensures ref !in rows ==> exists i :: IsFirstOf(es, i, ref) && Indexed(rows, es)[ref].createdAt == es[i].createdAt
  {
    if es != [] {
      var n := |es| - 1;
      var before := Indexed(rows, es[..n]);
      if ref in before {
        FirstStampStays(rows, es[..n], ref);
        assert Indexed(rows, es)[ref].createdAt == before[ref].createdAt;
        hide Indexed;
        if ref !in rows {
          var i :| IsFirstOf(es[..n], i, ref) && before[ref].createdAt == es[..n][i].createdAt;
          assert IsFirstOf(es, i, ref);
        }
      } else {
        NewIsFirst(rows, es, ref);
        assert Indexed(rows, es)[ref] == es[n];
      }
    }
  }

  lemma NewIsFirst(rows: map<Identity, Exchange>, es: seq<Exchange>, ref: Identity)
    requires es != [] && ref !in Indexed(rows, es[..|es| - 1]) && ref in Indexed(rows, es)
    ensures ref !in rows && IsFirstOf(es, |es| - 1, ref)
  {
    var n := |es| - 1;
    IndexedKeys(rows, es[..n]);
    IndexedKeys(rows, es);
    hide Indexed;
    forall j | 0 <= j < n ensures es[j].ref != ref {
      assert es[..n][j].ref in RefsOf(es[..n]);
    }
    assert forall e :: e in es <==> e in es[..n] || e == es[n];
  }

  /** Its property and source are those of the last exchange it was given; a row given none is as it was. */
  lemma {:induction false} LastSourceCounts(rows: map<Identity, Exchange>, es: seq<Exchange>, ref: Identity)
    requires ref in Indexed(rows, es)
    ensures
      var row := Indexed(rows, es)[ref];
      || (exists i :: IsLastOf(es, i, ref) && row.slug == es[i].slug && row.source == es[i].source)
      || ((forall i :: 0 <= i < |es| ==> es[i].ref != ref) && ref in rows && row == rows[ref])
  {
    if es != [] {
      var n := |es| - 1;
      if es[n].ref == ref {
        assert IsLastOf(es, n, ref);
      } else {
        var row := Indexed(rows, es[..n])[ref];
        LastSourceCounts(rows, es[..n], ref);
        if i :| IsLastOf(es[..n], i, ref) && row.slug == es[i].slug && row.source == es[i].source {
          assert IsLastOf(es, i, ref);
        } else {
          assert forall i :: 0 <= i < n ==> es[..n][i] == es[i];
        }
      }
    }
  }

  /** Indexing the same exchanges again adds no row, so `Upsert` reports none created. */
  lemma IndexingAgainCreatesNothing(rows: map<Identity, Exchange>, es: seq<Exchange>)
    ensures Indexed(Indexed(rows, es), es).Keys == Indexed(rows, es).Keys
    ensures |Indexed(Indexed(rows, es), es)| == |Indexed(rows, es)|
  {
    var once, twice := Indexed(rows, es), Indexed(Indexed(rows, es), es);
    IndexedKeys(rows, es);
    IndexedKeys(once, es);
    assert twice.Keys == once.Keys;
    KeyCount(once);
    KeyCount(twice);
  }

  lemma KeyCount<K, V>(m: map<K, V>)
    ensures |m| == |m.Keys|
  {
  }
}
