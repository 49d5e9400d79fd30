/**
 Seeding, sweeping and enriching: what a look at a thread does to the index, and exactly when
 it loses what was known of it.  A poll reads the index, then the threads, then writes row by
 row; other polls and webhooks may act between any two of these.
 */
module IndexMaintenance {
  import opened Wrappers
  import opened Texts
  import opened Sorting
  import opened ConversationActivity
  import opened InboxView

  /** One round of thread reads: what each reference answers, or None where it was not observed. */
  type View = string -> Option<Summary>

  /** The row copies a poll judges its reads by: None for a reference it took to be new. */
  type Copies = string -> Option<Summary>

  ghost predicate Faithful(view: View) {
    forall ref :: view(ref).Some? ==> view(ref).value.ref == ref
  }

  predicate KnownGood(s: Summary) {
    s.lastMessageAt.Some? || s.messageCount > 0
  }

  /** `_supersedes`: an empty read does not replace known activity. */
  predicate Supersedes(known: Summary, latest: Summary) {
    !(KnownGood(known) && !KnownGood(latest))
  }

  /** A read is written when it was made, and supersedes the copy it is judged by, if there is one. */
  predicate Passes(copy: Option<Summary>, read: Option<Summary>) {
    read.Some? && (copy.None? || Supersedes(copy.value, read.value))
  }

  /** One write of a poll, whatever has become of the index since the copy was taken. */
  function Take(index: Index, copies: Copies, ref: string, view: View, stamp: string -> int): Index {
    if Passes(copies(ref), view(ref)) then Upserted(index, view(ref).value, stamp(ref)) else index
  }

  function TakeAll(index: Index, copies: Copies, refs: seq<string>, view: View, stamp: string -> int): Index {
    if refs == [] then index
    else Take(TakeAll(index, copies, refs[..|refs| - 1], view, stamp), copies, refs[|refs| - 1], view, stamp)
  }

  function SummaryAt(index: Index, ref: string): Option<Summary> {
    var k := PositionOf(index, ref);
    if k < |index| then Some(index[k].summary) else None
  }

  /** What a sweep or a page judges by: the rows as they were read. */
  function CopyOf(index: Index): Copies {
    (ref: string) => SummaryAt(index, ref)
  }

  /** What a seed judges by: nothing, because it takes nothing to be known. */
  function Unjudged(): Copies {
    (ref: string) => None
  }

  /** The bookings no row stands for, each once. */
  function Unseeded(index: Index, bookings: seq<string>): seq<string> {
    if bookings == [] then []
    else
      (if PositionOf(index, bookings[0]) < |index| || bookings[0] in bookings[1..] then [] else [bookings[0]])
      + Unseeded(index, bookings[1..])
  }

  function Batch<T>(rows: seq<T>, limit: nat): seq<T> {
    if limit < |rows| then rows[..limit] else rows
  }

  function OfProperty(index: Index, slug: Option<string>): Index {
    if index == [] then []
    else (if slug.None? || index[0].summary.propertySlug == slug then [index[0]] else []) + OfProperty(index[1..], slug)
  }

  /** The rows of one page of the Inbox. */
  function PageOf(index: Index, slug: Option<string>, limit: nat): seq<Activity> {
    Batch(StableSort(OfProperty(index, slug), ActivityBefore), limit)
  }

  /** What a poll sets out to look at. */
  datatype Look =
    | Seeding(bookings: seq<string>, batch: nat)
    | Sweeping(size: nat)
    | Paging(slug: Option<string>, limit: nat)

  function LookedAt(index: Index, look: Look): seq<string> {
    match look
    case Seeding(bookings, batch) => Batch(StableSort(Unseeded(index, bookings), StrLt), batch)
    case Sweeping(size) => RefsOf(Oldest(index, size))
    case Paging(slug, limit) => RefsOf(PageOf(index, slug, limit))
  }

  function JudgedBy(index: Index, look: Look): Copies {
    if look.Seeding? then Unjudged() else CopyOf(index)
  }

  /** A poll with nobody between its reads and its writes. */
  function Apply(index: Index, look: Look, view: View, stamp: string -> int): Index {
    TakeAll(index, JudgedBy(index, look), LookedAt(index, look), view, stamp)
  }

  // -- one write ---------------------------------------------------------

  /** The index knows of activity in this conversation. */
  predicate Holds(index: Index, ref: string) {
    SummaryAt(index, ref).Some? && KnownGood(SummaryAt(index, ref).value)
  }

  predicate ReadsEmpty(view: View, ref: string) {
    view(ref).Some? && !KnownGood(view(ref).value)
  }

  predicate JudgedEmpty(copies: Copies, ref: string) {
    copies(ref).None? || !KnownGood(copies(ref).value)
  }

  lemma UpsertedSummary(index: Index, latest: Summary, now: int, ref: string)
    ensures SummaryAt(Upserted(index, latest, now), ref) == if ref == latest.ref then Some(latest) else SummaryAt(index, ref)
  {
    var after := Upserted(index, latest, now);
    assert forall i :: 0 <= i < |index| ==> Ref(after[i]) == Ref(index[i]);
    var k := PositionOf(index, ref);
    if k < |index| {
      assert Ref(after[k]) == ref;
    }
    if |after| > |index| {
      assert Ref(after[|index|]) == latest.ref;
    }
  }

  /**
   Known activity is lost by a write if and only if the row holds some, the read is empty, and
   the copy it is judged by, if any, held none.
   */
  lemma LossIsExact(index: Index, copies: Copies, ref: string, view: View, stamp: string -> int, lost: string)
    requires Faithful(view)
    ensures Holds(index, lost) && !Holds(Take(index, copies, ref, view, stamp), lost) <==>
            lost == ref && Holds(index, ref) && ReadsEmpty(view, ref) && JudgedEmpty(copies, ref)
  {
    if view(ref).Some? {
      UpsertedSummary(index, view(ref).value, stamp(ref), lost);
    }
  }

  /** The same, by what the row, the read and the copy say: a last message or a count of messages. */
  lemma LossMeans(index: Index, copies: Copies, ref: string, view: View, stamp: string -> int, row: Summary)
    requires Faithful(view) && SummaryAt(index, ref) == Some(row) && (row.lastMessageAt.Some? || row.messageCount > 0)
    ensures
      var after := SummaryAt(Take(index, copies, ref, view, stamp), ref);
      after.Some? && after.value.lastMessageAt.None? && after.value.messageCount == 0 <==>
      && view(ref).Some? && view(ref).value.lastMessageAt.None? && view(ref).value.messageCount == 0
      && (copies(ref).None? || (copies(ref).value.lastMessageAt.None? && copies(ref).value.messageCount == 0))
  {
    if view(ref).Some? {
      UpsertedSummary(index, view(ref).value, stamp(ref), ref);
    }
  }

  // -- polls that race ---------------------------------------------------

  datatype Poll = Poll(copies: Copies, refs: seq<string>, view: View, stamp: string -> int, done: nat)

  datatype State = State(index: Index, polls: seq<Poll>)

  datatype Action =
    | Begin(look: Look, view: View, stamp: string -> int)
    | WriteNext(poll: nat)
    | Deliver(latest: Summary, now: int)      // the webhook, which writes unguarded

  function Move(s: State, a: Action): State {
    match a
    case Begin(look, view, stamp) =>
      s.(polls := s.polls + [Poll(JudgedBy(s.index, look), LookedAt(s.index, look), view, stamp, 0)])
    case WriteNext(k) =>
      if k < |s.polls| && s.polls[k].done < |s.polls[k].refs| then
        var p := s.polls[k];
        State(Take(s.index, p.copies, p.refs[p.done], p.view, p.stamp), s.polls[k := p.(done := p.done + 1)])
      else s
    case Deliver(latest, now) => s.(index := Upserted(s.index, latest, now))
  }

  function Run(s: State, actions: seq<Action>): State {
    if actions == [] then s else Move(Run(s, actions[..|actions| - 1]), actions[|actions| - 1])
  }

  ghost predicate TrueReads(s: State, actions: seq<Action>) {
    && (forall k :: 0 <= k < |s.polls| ==> Faithful(s.polls[k].view))
    && (forall i :: 0 <= i < |actions| && actions[i].Begin? ==> Faithful(actions[i].view))
  }

  lemma {:induction false} ReadsStayTrue(s: State, actions: seq<Action>)
    requires TrueReads(s, actions)
    ensures TrueReads(Run(s, actions), [])
  {
    if actions != [] {
      ReadsStayTrue(s, actions[..|actions| - 1]);
    }
  }

  /** The next write of a poll is an empty read, judged by a copy that held nothing, of a row that holds something. */
  predicate Overwrites(s: State, a: Action, ref: string) {
    match a
    case Begin(_, _, _) => false
    case WriteNext(k) =>
      && k < |s.polls| && s.polls[k].done < |s.polls[k].refs| && s.polls[k].refs[s.polls[k].done] == ref
      && Holds(s.index, ref) && ReadsEmpty(s.polls[k].view, ref) && JudgedEmpty(s.polls[k].copies, ref)
    case Deliver(latest, _) => latest.ref == ref && Holds(s.index, ref) && !KnownGood(latest)
  }

  lemma StepLosesExactly(s: State, a: Action, ref: string)
    requires TrueReads(s, [])
    ensures Holds(s.index, ref) && !Holds(Move(s, a).index, ref) <==> Overwrites(s, a, ref)
  {
    hide Holds, ReadsEmpty, JudgedEmpty, Take, KnownGood, LookedAt, JudgedBy;
    match a
    case Begin(_, _, _) =>
    case WriteNext(k) =>
      if k < |s.polls| && s.polls[k].done < |s.polls[k].refs| {
        var p := s.polls[k];
        LossIsExact(s.index, p.copies, p.refs[p.done], p.view, p.stamp, ref);
      }
    case Deliver(latest, now) => DeliveryLoses(s.index, latest, now, ref);
  }

  lemma DeliveryLoses(index: Index, latest: Summary, now: int, ref: string)
    ensures Holds(index, ref) && !Holds(Upserted(index, latest, now), ref) <==>
            latest.ref == ref && Holds(index, ref) && !KnownGood(latest)
  {
    UpsertedSummary(index, latest, now, ref);
  }

  /** Over any run, activity that is gone was lost at one such write; without one it stays. */
  lemma {:induction false} LostByAnOverwrite(s: State, actions: seq<Action>, ref: string)
    requires TrueReads(s, actions) && Holds(s.index, ref)
    ensures Holds(Run(s, actions).index, ref) ||
            exists i :: 0 <= i < |actions| && Overwrites(Run(s, actions[..i]), actions[i], ref)
  {
    hide Holds, Move, Overwrites;
    if actions != [] {
      var n := |actions| - 1;
      var init := actions[..n];
      LostByAnOverwrite(s, init, ref);
      if Holds(Run(s, init).index, ref) {
        ReadsStayTrue(s, init);
        StepLosesExactly(Run(s, init), actions[n], ref);
      } else {
        var i :| 0 <= i < |init| && Overwrites(Run(s, init[..i]), init[i], ref);
        assert init[..i] == actions[..i] && init[i] == actions[i];
      }
    }
  }

  function Only(read: Summary): View {
    (ref: string) => if ref == read.ref then Some(read) else None
  }

  /** Two polls both find a booking unindexed before either has written it; the emptier read is written last. */
  lemma SeedsRace(index: Index, empty: Summary, full: Summary, stamp: string -> int)
    requires empty.ref == full.ref && !KnownGood(empty) && KnownGood(full) && SummaryAt(index, full.ref).None?
    ensures
      var seed := Seeding([full.ref], 1);
      var begun := [Begin(seed, Only(empty), stamp), Begin(seed, Only(full), stamp)];
      && Holds(Run(State(index, []), begun + [WriteNext(1)]).index, full.ref)
      && !Holds(Run(State(index, []), begun + [WriteNext(1), WriteNext(0)]).index, full.ref)
  {
    var seed := Seeding([full.ref], 1);
    var a, b := Begin(seed, Only(empty), stamp), Begin(seed, Only(full), stamp);
    var s := State(index, []);
    assert Unseeded(index, [full.ref]) == [full.ref];
    assert LookedAt(index, seed) == [full.ref];
    var p := Poll(Unjudged(), [full.ref], Only(empty), stamp, 0);
    var q := Poll(Unjudged(), [full.ref], Only(full), stamp, 0);
    var actions := [a, b] + [WriteNext(1), WriteNext(0)];
    assert actions[..3] == [a, b] + [WriteNext(1)] && actions[..3][..2] == [a, b] && [a, b][..1] == [a] && [a][..0] == [];
    assert Run(s, [a]) == State(index, [p]);
    assert Run(s, [a, b]) == State(index, [p, q]);
    var after := Upserted(index, full, stamp(full.ref));
    assert Run(s, actions[..3]) == Move(State(index, [p, q]), WriteNext(1));
    assert Run(s, actions[..3]).index == after;
    UpsertedSummary(index, full, stamp(full.ref), full.ref);
    assert Run(s, actions) == Move(Run(s, actions[..3]), WriteNext(0));
    assert Run(s, actions).index == Upserted(after, empty, stamp(full.ref));
    UpsertedSummary(after, empty, stamp(full.ref), full.ref);
  }

  // -- polls that do not -------------------------------------------------

  function Writes(poll: nat, n: nat): seq<Action> {
    if n == 0 then [] else Writes(poll, n - 1) + [WriteNext(poll)]
  }

  lemma TakeAllGrows(index: Index, copies: Copies, refs: seq<string>, n: nat, view: View, stamp: string -> int)
    requires n < |refs|
    ensures TakeAll(index, copies, refs[..n + 1], view, stamp) ==
            Take(TakeAll(index, copies, refs[..n], view, stamp), copies, refs[n], view, stamp)
  {
    hide Take;
    PrefixGrows(refs, n);
  }

  lemma RunGrows(s: State, actions: seq<Action>, a: Action)
    ensures Run(s, actions + [a]) == Move(Run(s, actions), a)
  {
    hide Move;
    assert (actions + [a])[..|actions|] == actions;
  }

  /** The n writes of one poll, with nothing else between them. */
  lemma {:induction false} WritesInARow(s: State, poll: nat, n: nat)
    requires poll < |s.polls| && s.polls[poll].done == 0 && n <= |s.polls[poll].refs|
    ensures
      var p, t := s.polls[poll], Run(s, Writes(poll, n));
      && t.index == TakeAll(s.index, p.copies, p.refs[..n], p.view, p.stamp)
      && t.polls == s.polls[poll := p.(done := n)]
  {
    hide Take;
    var p := s.polls[poll];
    assert p.refs[..0] == [];
    if n == 0 {
      assert p.(done := 0) == p;
    } else {
      WritesInARow(s, poll, n - 1);
      hide TakeAll;
      TakeAllGrows(s.index, p.copies, p.refs, n - 1, p.view, p.stamp);
      RunGrows(s, Writes(poll, n - 1), WriteNext(poll));
    }
  }

  /** Undisturbed, a poll is the one step `Apply`. */
  lemma UndisturbedPollIsOneStep(index: Index, look: Look, view: View, stamp: string -> int)
    ensures
      var begun := Run(State(index, []), [Begin(look, view, stamp)]);
      Run(begun, Writes(0, |LookedAt(index, look)|)).index == Apply(index, look, view, stamp)
  {
    hide LookedAt, JudgedBy, TakeAll;
    var begin := [Begin(look, view, stamp)];
    assert begin[..0] == [];
    var refs := LookedAt(index, look);
    var s := State(index, [Poll(JudgedBy(index, look), refs, view, stamp, 0)]);
    assert Run(State(index, []), begin) == s;
    WritesInARow(s, 0, |refs|);
    WholePrefix(refs);
  }

  lemma {:induction false} UnseededAre(index: Index, bookings: seq<string>)
    ensures NoRepeats(Unseeded(index, bookings))
    ensures forall r :: r in Unseeded(index, bookings) <==> r in bookings && PositionOf(index, r) == |index|
  {
    if bookings != [] {
      UnseededAre(index, bookings[1..]);
      assert bookings == [bookings[0]] + bookings[1..];
    }
  }

  lemma BatchIsUnseeded(index: Index, bookings: seq<string>, limit: nat)
    ensures
      var batch := Batch(StableSort(Unseeded(index, bookings), StrLt), limit);
      NoRepeats(batch) && forall r :: r in batch ==> r in bookings && PositionOf(index, r) == |index|
  {
    var unseeded := Unseeded(index, bookings);
    var sorted := StableSort(unseeded, StrLt);
    UnseededAre(index, bookings);
    SortHasNoRepeats(unseeded);
    hide StableSort, Unseeded, StrLt;
    forall r | r in sorted ensures r in unseeded {
      SameElements(sorted, unseeded, r);
    }
  }

  lemma SortHasNoRepeats(refs: seq<string>)
    requires NoRepeats(refs)
    ensures NoRepeats(StableSort(refs, StrLt)) && multiset(StableSort(refs, StrLt)) == multiset(refs)
  {
    StringSort(refs);
    StringsAreOrdered();
    hide StableSort, StrLt;
  }

  lemma StringSort(refs: seq<string>)
    requires NoRepeats(refs)
    ensures SortedBy(StableSort(refs, StrLt), StrLt)
  {
    StringsAreOrdered();
    assert WeakOrder<string>(StrLt);
    TotalSort(refs, StrLt);
  }

  /** What a poll has just read to judge by is what the index holds. */
  lemma JudgedAsItIs(index: Index, look: Look, r: string)
    requires r in LookedAt(index, look)
    ensures JudgedEmpty(JudgedBy(index, look), r) <==> !Holds(index, r)
  {
    if look.Seeding? {
      BatchIsUnseeded(index, look.bookings, look.batch);
    }
  }

  /** The copy a poll judges by lets a read through or not; a poll that sees one thread writes nothing else. */
  lemma {:induction false} OneReadTaken(index: Index, copies: Copies, refs: seq<string>, read: Summary, stamp: string -> int)
    ensures SummaryAt(TakeAll(index, copies, refs, Only(read), stamp), read.ref) ==
            if read.ref in refs && Passes(copies(read.ref), Some(read)) then Some(read) else SummaryAt(index, read.ref)
  {
    hide Upserted, SummaryAt;
    if refs != [] {
      var n := |refs| - 1;
      var before := TakeAll(index, copies, refs[..n], Only(read), stamp);
      OneReadTaken(index, copies, refs[..n], read, stamp);
      SplitLast(refs);
      UpsertedSummary(before, read, stamp(read.ref), read.ref);
    }
  }

  /**
   Two polls of one kind begin together and see one thread, the first as empty, the second with
   activity; the second writes all it has, then the first.  What the second wrote is lost exactly
   if the index held nothing of that thread when they began.
   */
  lemma TwoPollsRace(index: Index, look: Look, empty: Summary, full: Summary, stamp: string -> int)
    requires empty.ref == full.ref && !KnownGood(empty) && KnownGood(full) && full.ref in LookedAt(index, look)
    ensures
      var n := |LookedAt(index, look)|;
      var begun := Run(State(index, []), [Begin(look, Only(empty), stamp), Begin(look, Only(full), stamp)]);
      var between := Run(begun, Writes(1, n));
      && Holds(between.index, full.ref)
      && (Holds(Run(between, Writes(0, n)).index, full.ref) <==> Holds(index, full.ref))
  {
    var refs, copies := LookedAt(index, look), JudgedBy(index, look);
    hide LookedAt, JudgedBy, TakeAll, Take, Upserted, Run, Writes, SummaryAt, Only, KnownGood, Faithful;
    var begun := BegunTogether(index, look, Only(empty), Only(full), stamp);
    WritesInARow(begun, 1, |refs|);
    var between := Run(begun, Writes(1, |refs|));
    WritesInARow(between, 0, |refs|);
    WholePrefix(refs);
    OneReadTaken(index, copies, refs, full, stamp);
    OneReadTaken(between.index, copies, refs, empty, stamp);
    JudgedAsItIs(index, look, full.ref);
  }

  lemma BegunTogether(index: Index, look: Look, a: View, b: View, stamp: string -> int) returns (begun: State)
    ensures begun == Run(State(index, []), [Begin(look, a, stamp), Begin(look, b, stamp)])
    ensures
      var refs, copies := LookedAt(index, look), JudgedBy(index, look);
      begun == State(index, [Poll(copies, refs, a, stamp, 0), Poll(copies, refs, b, stamp, 0)])
  {
    hide LookedAt, JudgedBy;
    var x, y := Begin(look, a, stamp), Begin(look, b, stamp);
    begun := Run(State(index, []), [x, y]);
    RunGrows(State(index, []), [x], y);
    RunGrows(State(index, []), [], x);
    assert [] + [x] == [x] && [x] + [y] == [x, y];
  }

  lemma {:induction false} JudgedByNowLosesNothing(index: Index, copies: Copies, refs: seq<string>, view: View,
                                                   stamp: string -> int, ref: string)
    requires Faithful(view) && Holds(index, ref)
    requires ref in refs ==> !JudgedEmpty(copies, ref)
    ensures Holds(TakeAll(index, copies, refs, view, stamp), ref)
  {
    hide Holds, JudgedEmpty, ReadsEmpty, Take;
    if refs != [] {
      var n := |refs| - 1;
      assert refs[n] in refs;
      JudgedByNowLosesNothing(index, copies, refs[..n], view, stamp, ref);
      LossIsExact(TakeAll(index, copies, refs[..n], view, stamp), copies, refs[n], view, stamp, ref);
    }
  }

  datatype Step = Step(look: Look, view: View, stamp: string -> int)

  function Exec(index: Index, steps: seq<Step>): Index {
    if steps == [] then index
    else
      var last := steps[|steps| - 1];
      Apply(Exec(index, steps[..|steps| - 1]), last.look, last.view, last.stamp)
  }

  /** Polls that do not overlap never turn known activity into none, whatever they look at and read. */
  lemma {:induction false} KnownActivitySurvives(index: Index, steps: seq<Step>, ref: string)
    requires Holds(index, ref) && forall i :: 0 <= i < |steps| ==> Faithful(steps[i].view)
    ensures Holds(Exec(index, steps), ref)
  {
    hide Holds, JudgedEmpty, LookedAt, JudgedBy, TakeAll, Faithful;
    if steps != [] {
      var n := |steps| - 1;
      KnownActivitySurvives(index, steps[..n], ref);
      var before, look := Exec(index, steps[..n]), steps[n].look;
      if ref in LookedAt(before, look) {
        JudgedAsItIs(before, look, ref);
      }
      JudgedByNowLosesNothing(before, JudgedBy(before, look), LookedAt(before, look), steps[n].view, steps[n].stamp, ref);
    }
  }
}
