/** What the reconciliation protocol guarantees over whole runs. */
module OutcomeSafety {
  import opened Wrappers
  import opened Texts
  import opened Outcomes
  import opened OutcomeProtocol
  import IsoStamps

  /** Evidence is write-once: nothing later changes or erases it, whatever races. */
  lemma {:induction false} EvidenceIsWriteOnce(clock: Clock, s: State, actions: seq<Action>, more: seq<Action>)
    requires Initial(s)
    ensures Keeps(Exec(clock, s, actions).row, Exec(clock, s, actions + more).row)
    decreases |more|
  {
    hide Apply;
    if more == [] {
      assert actions + more == actions;
    } else {
      var n := |more| - 1;
      var all := actions + more;
      assert all[..|all| - 1] == actions + more[..n] && all[|all| - 1] == more[n];
      EvidenceIsWriteOnce(clock, s, actions, more[..n]);
      ExecKeepsInv(clock, s, actions + more[..n]);
      ApplyKeepsInv(clock, Exec(clock, s, actions + more[..n]), more[n]);
    }
  }

  /** A recorded first booking is one a provider showed: made after the action, and covering the night. */
  lemma FirstBookingQualified(clock: Clock, s: State, actions: seq<Action>) returns (r: Reservation)
    requires Initial(s) && Exec(clock, s, actions).row.first.Some?
    ensures
      var t := Exec(clock, s, actions);
      && r in t.seen && Observe(r) == t.row.first
      && r.isBooked && BookedMoment(clock, r).Some? && BookedMoment(clock, r).value > s.row.executedAt
      && r.checkIn.Some? && r.checkOut.Some? && r.checkIn.value <= s.row.stayDate < r.checkOut.value
  {
    hide Apply;
    ExecKeepsInv(clock, s, actions);
    assert actions[..0] == [];
    EvidenceIsWriteOnce(clock, s, [], actions);
    assert [] + actions == actions;
    var t := Exec(clock, s, actions);
    r :| r in t.seen && NamedBy(clock, t.row, r);
    CoversIffBetween(r, t.row.stayDate);
  }

  /** A reservation named as holding the night is one shown, made after the action, that covers it; the night is BOOKED. */
  lemma CurrentBookingQualified(clock: Clock, s: State, actions: seq<Action>) returns (r: Reservation)
    requires Initial(s) && Exec(clock, s, actions).row.currentReservation.Some?
    ensures
      var t := Exec(clock, s, actions);
      && t.row.status == Some(Booked) && r in t.seen && r.reservationId == t.row.currentReservation
      && Qualifies(clock, r, s.row.stayDate, s.row.executedAt)
  {
    hide Apply, Qualifies;
    ExecKeepsInv(clock, s, actions);
    SameNight(clock, s, actions);
    var t := Exec(clock, s, actions);
    r :| r in t.seen && Occupies(clock, t.row, r);
  }

  /** CANCELLED is said only of a night that was booked, and with the time it was first noticed. */
  lemma CancellationsAreOfBookings(clock: Clock, s: State, actions: seq<Action>)
    requires Initial(s)
    ensures
      var row := Exec(clock, s, actions).row;
      && (row.status == Some(CancelledBooking) ==> row.first.Some?)
      && row.cancelledAfterBooking != Some(false)
      && (row.cancelledAfterBooking == Some(true) <==> row.cancellationObservedAt.Some?)
      && (row.cancelledAfterBooking == Some(true) ==> row.first.Some?)
  {
    ExecKeepsInv(clock, s, actions);
  }

  /** A row is finalized only after three passes, and thirty days after its night at the earliest. */
  lemma FinalizedRowsAreSettled(clock: Clock, s: State, actions: seq<Action>)
    requires Initial(s)
    ensures
      var row := Exec(clock, s, actions).row;
      row.finalizedAt.Some? ==>
        row.passCount >= 3 && DateOf(row.finalizedAt.value) >= row.stayDate + 30
  {
    ExecKeepsInv(clock, s, actions);
  }

  // -- what a pass concludes ---------------------------------------------

  /** A booking of the night, made after the action. */
  ghost predicate Counts(clock: Clock, r: Reservation, record: OutcomeRow) {
    && r.isBooked && r.bookedAt.Some? && r.bookedAt.value != ""
    && clock(r.bookedAt.value).Some? && clock(r.bookedAt.value).value > record.executedAt
    && r.checkIn.Some? && r.checkOut.Some? && r.checkIn.value <= record.stayDate < r.checkOut.value
  }

  ghost predicate AnyQualifies(clock: Clock, rows: seq<Reservation>, record: OutcomeRow) {
    exists r :: r in rows && Counts(clock, r, record)
  }

  lemma QualifiesMeans(clock: Clock, r: Reservation, record: OutcomeRow)
    ensures Qualifies(clock, r, record.stayDate, record.executedAt) <==> Counts(clock, r, record)
  {
    CoversIffBetween(r, record.stayDate);
    hide Covers;
  }

  lemma QualifyingMeans(clock: Clock, p: Pass)
    ensures QualifyingFor(clock, p) != [] <==> AnyQualifies(clock, p.rows, p.record)
  {
    hide Qualifies, Counts;
    var q := QualifyingFor(clock, p);
    if q != [] {
      assert q[0] in q;
      QualifiesMeans(clock, q[0], p.record);
    }
    if r :| r in p.rows && Counts(clock, r, p.record) {
      QualifiesMeans(clock, r, p.record);
      assert r in q;
    }
  }

  /** Of the bookings that count, one with the least stamp as text; what the row names of it, if it can be read. */
  ghost predicate IsNamed(clock: Clock, row: OutcomeRow, p: Pass, r: Reservation) {
    && r in p.rows && Counts(clock, r, p.record)
    && IsLeast(clock, p, r)
    && (if Truthy(r.reservationId)
        then row.currentReservation == r.reservationId && row.currentAdr == r.adr && row.currentChannel == r.channel
        else row.currentReservation.None? && row.currentAdr.None? && row.currentChannel.None?)
  }

  /** A pass that was shown nothing that counts, of a row it had read a first booking on, is about to conclude. */
  ghost predicate Cancels(clock: Clock, s: State, a: Action) {
    && a.Step? && a.pass < |s.passes| && s.passes[a.pass].pc == Setting
    && !AnyQualifies(clock, s.passes[a.pass].rows, s.passes[a.pass].record) && s.passes[a.pass].record.first.Some?
  }

  /** What the concluding step of a pass makes of the row, whatever has become of it since the pass read it. */
  lemma PassConcludes(clock: Clock, s: State, k: nat)
    requires k < |s.passes| && s.passes[k].pc == Setting
    ensures
      var p, row := s.passes[k], Apply(clock, s, Step(k)).row;
      var any := AnyQualifies(clock, p.rows, p.record);
      && (row.status == Some(Booked) <==> any)
      && (row.status == Some(CancelledBooking) <==> !any && p.record.first.Some?)
      && (row.status == Some(NoBooking) <==> !any && p.record.first.None?)
      && (any ==> exists r :: IsNamed(clock, row, p, r))
      && (!any ==> row.currentReservation.None? && row.currentAdr.None? && row.currentChannel.None?)
      && row.lastReconciledAt == Some(p.moment) && row.passCount == s.row.passCount + 1
      && row.first == s.row.first && row.finalizedAt == s.row.finalizedAt && row.reopenedAt == s.row.reopenedAt
      && (if Cancels(clock, s, Step(k)) then
            && row.cancelledAfterBooking == Some(true)
            && row.cancellationObservedAt ==
               if s.row.cancellationObservedAt.Some? then s.row.cancellationObservedAt else Some(p.moment)
          else
            && row.cancelledAfterBooking == s.row.cancelledAfterBooking
            && row.cancellationObservedAt == s.row.cancellationObservedAt)
  {
    var p, row := s.passes[k], Apply(clock, s, Step(k)).row;
    QualifyingMeans(clock, p);
    hide QualifyingFor, Counts;
    if AnyQualifies(clock, p.rows, p.record) {
      EarliestCounts(clock, p);
      assert IsNamed(clock, row, p, Earliest(QualifyingFor(clock, p)));
    }
  }

  lemma EarliestCounts(clock: Clock, p: Pass)
    requires QualifyingFor(clock, p) != []
    ensures
      var r := Earliest(QualifyingFor(clock, p));
      && r in p.rows && Counts(clock, r, p.record) && r.bookedAt.Some? && r.bookedAt.value != ""
      && IsLeast(clock, p, r)
  {
    hide Qualifies, StrLe, BookedText;
    var list := QualifyingFor(clock, p);
    var r := Earliest(list);
    QualifiesMeans(clock, r, p.record);
    forall q | q in p.rows && Counts(clock, q, p.record) ensures StrLe(BookedText(r), BookedText(q)) {
      QualifiesMeans(clock, q, p.record);
      EarliestIsLeast(list, q);
    }
  }

  /** A pass begins exactly on a row that is not finalized and is due; it keeps the row as it reads it. */
  lemma PassesBegin(clock: Clock, s: State, rows: seq<Reservation>, moment: int)
    ensures
      var t, last := Apply(clock, s, Begin(rows, moment)), s.row.lastReconciledAt;
      && t.row == s.row
      && t.passes == s.passes +
           if s.row.finalizedAt.None?
              && (last.None? || (moment >= last.value + DAY && DateOf(moment) <= s.row.stayDate) || moment >= last.value + 7 * DAY)
           then [Pass(s.row, rows, moment, Noting)] else []
  {
    if s.row.lastReconciledAt.Some? {
      DueMeans(s.row, s.row.lastReconciledAt.value, moment);
    }
    assert s.passes + [] == s.passes;
  }

  /** What the first step of a pass makes of the row: the booking noted, if its copy held none and nobody was faster. */
  lemma PassNotes(clock: Clock, s: State, k: nat)
    requires k < |s.passes| && s.passes[k].pc == Noting
    ensures
      var p, row := s.passes[k], Apply(clock, s, Step(k)).row;
      && row == s.row.(first := row.first)
      && (s.row.first.Some? || p.record.first.Some? || !AnyQualifies(clock, p.rows, p.record) ==> row.first == s.row.first)
      && (s.row.first.None? && p.record.first.None? && AnyQualifies(clock, p.rows, p.record) ==>
            exists r :: r in p.rows && Counts(clock, r, p.record) && IsLeast(clock, p, r) && row.first == Observe(r))
  {
    var p := s.passes[k];
    QualifyingMeans(clock, p);
    hide QualifyingFor, Counts, Observe;
    if AnyQualifies(clock, p.rows, p.record) {
      EarliestCounts(clock, p);
      assert IsLeast(clock, p, Earliest(QualifyingFor(clock, p)));
    }
  }

  ghost predicate IsLeast(clock: Clock, p: Pass, r: Reservation) {
    forall q :: q in p.rows && Counts(clock, q, p.record) ==> StrLe(BookedText(r), BookedText(q))
  }

  /** The moment of the first pass that concluded a cancellation. */
  ghost function CancelStamp(clock: Clock, s: State, actions: seq<Action>): Option<int> {
    if actions == [] then None
    else
      var n := |actions| - 1;
      var earlier, before := CancelStamp(clock, s, actions[..n]), Exec(clock, s, actions[..n]);
      if earlier.Some? then earlier
      else if Cancels(clock, before, actions[n]) then Some(before.passes[actions[n].pass].moment)
      else None
  }

  lemma OnlyConcludingCancels(clock: Clock, s: State, a: Action)
    requires !Cancels(clock, s, a)
    ensures
      var row := Apply(clock, s, a).row;
      row.cancelledAfterBooking == s.row.cancelledAfterBooking && row.cancellationObservedAt == s.row.cancellationObservedAt
  {
    hide QualifyingFor, AnyQualifies, Finalizable, ObservedStatus;
    if a.Step? && a.pass < |s.passes| {
      QualifyingMeans(clock, s.passes[a.pass]);
    }
  }

  /** The flag and the stamp of a cancellation are there exactly from the first pass that concluded one, at its moment. */
  lemma {:induction false} FirstCancellationIsKept(clock: Clock, s: State, actions: seq<Action>)
    requires Initial(s)
    ensures
      var row, stamp := Exec(clock, s, actions).row, CancelStamp(clock, s, actions);
      row.cancellationObservedAt == stamp && row.cancelledAfterBooking == if stamp.Some? then Some(true) else None
  {
    hide Apply, Cancels, AnyQualifies;
    if actions != [] {
      var n := |actions| - 1;
      FirstCancellationIsKept(clock, s, actions[..n]);
      var before := Exec(clock, s, actions[..n]);
      if Cancels(clock, before, actions[n]) {
        CancelsSteps(clock, before, actions[n]);
        PassConcludes(clock, before, actions[n].pass);
      } else {
        OnlyConcludingCancels(clock, before, actions[n]);
      }
    }
  }

  lemma CancelsSteps(clock: Clock, s: State, a: Action)
    requires Cancels(clock, s, a)
    ensures a.Step? && a.pass < |s.passes| && s.passes[a.pass].pc == Setting
  {
  }

  // -- the first booking is the earliest ----------------------------------

  /** The first booking on the row is the one some pass took for it, from what that pass was shown. */
  lemma {:induction false} FirstIsOfAPass(clock: Clock, s: State, actions: seq<Action>) returns (k: nat)
    requires Initial(s) && Exec(clock, s, actions).row.first.Some?
    ensures
      var t := Exec(clock, s, actions);
      k < |t.passes| && t.row.first == FirstSeen(clock, t.passes[k])
  {
    hide FirstSeen, Inv, Finalizable, Covering, CurrentSet;
    var n := |actions| - 1;
    var before, a := Exec(clock, s, actions[..n]), actions[n];
    if before.row.first.Some? {
      k := FirstIsOfAPass(clock, s, actions[..n]);
      ExecKeepsInv(clock, s, actions[..n]);
      ApplyKeepsInv(clock, before, a);
      PassesKeepWhatTheyWereShown(clock, before, a, k);
    } else {
      k := a.pass;
      FirstIsNotedByItsPass(clock, before, a);
      PassesKeepWhatTheyWereShown(clock, before, a, k);
    }
  }

  lemma PassesKeepWhatTheyWereShown(clock: Clock, s: State, a: Action, k: nat)
    requires k < |s.passes|
    ensures k < |Apply(clock, s, a).passes|
    ensures FirstSeen(clock, Apply(clock, s, a).passes[k]) == FirstSeen(clock, s.passes[k])
  {
    hide Qualifying, Observe, Earliest, Finalizable, Covering, CurrentSet;
  }

  lemma FirstIsNotedByItsPass(clock: Clock, s: State, a: Action)
    requires s.row.first.None? && Apply(clock, s, a).row.first.Some?
    ensures a.Step? && a.pass < |s.passes| && Apply(clock, s, a).row.first == FirstSeen(clock, s.passes[a.pass])
  {
    hide Qualifying, Observe, Earliest, Finalizable, Covering;
  }

  /** A booking of these the pass would take for the first, earliest in time of all that qualify. */
  ghost predicate PicksEarliest(clock: Clock, rows: seq<Reservation>, stayDate: int, executedAt: int) {
    var q := Qualifying(clock, rows, stayDate, executedAt);
    forall r :: r in q ==> BookedMoment(clock, Earliest(q)).value <= BookedMoment(clock, r).value
  }

  predicate InOrder(clock: Clock, a: Reservation, b: Reservation, stayDate: int, executedAt: int) {
    Qualifies(clock, a, stayDate, executedAt) && Qualifies(clock, b, stayDate, executedAt)
    && StrLe(BookedText(a), BookedText(b)) ==>
      BookedMoment(clock, a).value <= BookedMoment(clock, b).value
  }

  /** Among those that qualify, the order of the stamps as text is the order of the instants. */
  ghost predicate TextAgrees(clock: Clock, shown: set<Reservation>, stayDate: int, executedAt: int) {
    forall a, b :: a in shown && b in shown ==> InOrder(clock, a, b, stayDate, executedAt)
  }

  /**
   The least stamp as text is the earliest booking exactly when the two orders agree: every
   list that can be drawn from these reservations gives its earliest qualifying one if and only
   if, on the pairs that qualify, text order is time order.
   */
  lemma EarliestIffTextAgrees(clock: Clock, shown: set<Reservation>, stayDate: int, executedAt: int)
    ensures (forall rows: seq<Reservation> :: (forall r :: r in rows ==> r in shown) ==>
               PicksEarliest(clock, rows, stayDate, executedAt)) <==>
            TextAgrees(clock, shown, stayDate, executedAt)
  {
    hide InOrder, PicksEarliest;
    if TextAgrees(clock, shown, stayDate, executedAt) {
      forall rows: seq<Reservation> | forall r :: r in rows ==> r in shown
        ensures PicksEarliest(clock, rows, stayDate, executedAt)
      {
        LeastTextIsEarliest(clock, shown, rows, stayDate, executedAt);
      }
    } else {
      var a, b :| a in shown && b in shown && !InOrder(clock, a, b, stayDate, executedAt);
      PairPicksFirst(clock, a, b, stayDate, executedAt);
      assert forall r :: r in [a, b] ==> r in shown;
    }
  }

  lemma LeastTextIsEarliest(clock: Clock, shown: set<Reservation>, rows: seq<Reservation>, stayDate: int, executedAt: int)
    requires TextAgrees(clock, shown, stayDate, executedAt) && forall r :: r in rows ==> r in shown
    ensures PicksEarliest(clock, rows, stayDate, executedAt)
  {
    var q := Qualifying(clock, rows, stayDate, executedAt);
    hide StrLe, Covers;
    forall r | r in q ensures BookedMoment(clock, Earliest(q)).value <= BookedMoment(clock, r).value {
      EarliestIsLeast(q, r);
      assert InOrder(clock, Earliest(q), r, stayDate, executedAt);
    }
  }

  lemma PairPicksFirst(clock: Clock, a: Reservation, b: Reservation, stayDate: int, executedAt: int)
    requires !InOrder(clock, a, b, stayDate, executedAt)
    ensures !PicksEarliest(clock, [a, b], stayDate, executedAt)
  {
    hide Qualifies, BookedMoment, StrLe;
    assert [a, b][1..] == [b] && [b][1..] == [];
    assert Qualifying(clock, [b], stayDate, executedAt) == [b];
    assert Qualifying(clock, [a, b], stayDate, executedAt) == [a, b];
    assert Earliest([b]) == b;
    assert Earliest([a, b]) == a;
    assert b in [a, b];
  }

  /** The stamps this system writes itself agree: UTC, as `isoformat` has them. */
  lemma IsoStampsAgree(clock: Clock, shown: set<Reservation>, stayDate: int, executedAt: int)
    requires forall t: IsoStamps.Instant :: clock(IsoStamps.Iso(t)) == Some(t)
    requires forall r :: r in shown && Qualifies(clock, r, stayDate, executedAt) ==>
               exists t: IsoStamps.Instant :: r.bookedAt == Some(IsoStamps.Iso(t))
    ensures TextAgrees(clock, shown, stayDate, executedAt)
  {
    hide Covers, StrLe, BookedText, BookedMoment, IsoStamps.Iso;
    forall a, b | a in shown && b in shown ensures InOrder(clock, a, b, stayDate, executedAt) {
      if Qualifies(clock, a, stayDate, executedAt) && Qualifies(clock, b, stayDate, executedAt)
         && StrLe(BookedText(a), BookedText(b)) {
        var t: IsoStamps.Instant :| a.bookedAt == Some(IsoStamps.Iso(t));
        var u: IsoStamps.Instant :| b.bookedAt == Some(IsoStamps.Iso(u));
        IsoPair(clock, a, b, t, u);
      }
    }
  }

  lemma IsoPair(clock: Clock, a: Reservation, b: Reservation, t: IsoStamps.Instant, u: IsoStamps.Instant)
    requires a.bookedAt == Some(IsoStamps.Iso(t)) && b.bookedAt == Some(IsoStamps.Iso(u))
    requires clock(IsoStamps.Iso(t)) == Some(t) && clock(IsoStamps.Iso(u)) == Some(u)
    requires StrLe(BookedText(a), BookedText(b))
    ensures BookedMoment(clock, a) == Some(t) && BookedMoment(clock, b) == Some(u) && t <= u
  {
    hide IsoStamps.Iso, StrLe;
    IsoStamps.IsoOrder(t, u);
  }

  /**
   Over any run: the first booking on the row is the earliest qualifying one shown to the pass
   that recorded it, if the stamps that pass was shown agree with time.
   */
  lemma FirstIsEarliest(clock: Clock, s: State, actions: seq<Action>) returns (k: nat)
    requires Initial(s) && Exec(clock, s, actions).row.first.Some?
    ensures
      var t := Exec(clock, s, actions);
      && k < |t.passes| && QualifyingFor(clock, t.passes[k]) != []
      && t.row.first == Observe(Earliest(QualifyingFor(clock, t.passes[k])))
      && t.passes[k].record.stayDate == s.row.stayDate && t.passes[k].record.executedAt == s.row.executedAt
      && (TextAgrees(clock, Shown(t.passes[k].rows), s.row.stayDate, s.row.executedAt) ==>
            forall r :: r in t.passes[k].rows && Qualifies(clock, r, s.row.stayDate, s.row.executedAt) ==>
              clock(t.row.first.value.bookedAt).Some?
              && clock(t.row.first.value.bookedAt).value <= BookedMoment(clock, r).value)
  {
    k := FirstIsOfAPass(clock, s, actions);
    hide Exec, StrLe, Covers;
    var p := Exec(clock, s, actions).passes[k];
    SameNight(clock, s, actions);
    ExecKeepsInv(clock, s, actions);
    if TextAgrees(clock, Shown(p.rows), s.row.stayDate, s.row.executedAt) {
      LeastTextIsEarliest(clock, Shown(p.rows), p.rows, s.row.stayDate, s.row.executedAt);
      assert Earliest(QualifyingFor(clock, p)) in QualifyingFor(clock, p);
    }
  }

  const EAST := "2026-01-02T00:00:00+14:00"     // 10:00 UTC on the first of January
  const NOON := "2026-01-01T12:00:00+00:00"

  const HOUR: int := 3_600_000_000

  function BookingOf(id: string, stamp: string, night: int): Reservation {
    Reservation(Some(id), Some(stamp), true, None, None, Some(night), Some(night + 1))
  }

  /** With offsets it can be the later one: a booking made at noon is recorded before one made at ten. */
  lemma LaterBookingRecordedFirst(clock: Clock, s: State, noon: int, moment: int)
    requires Initial(s) && clock(NOON) == Some(noon) && clock(EAST) == Some(noon - 2 * HOUR)
    requires s.row.executedAt < noon - 2 * HOUR
    ensures
      var early, late := BookingOf("A", EAST, s.row.stayDate), BookingOf("B", NOON, s.row.stayDate);
      && Qualifies(clock, early, s.row.stayDate, s.row.executedAt)
      && Exec(clock, s, [Begin([early, late], moment), Step(0)]).row.first == Observe(late)
      && Observe(late).Some? && BookedMoment(clock, early).value < BookedMoment(clock, late).value
  {
    var early, late := BookingOf("A", EAST, s.row.stayDate), BookingOf("B", NOON, s.row.stayDate);
    var rows, p := [early, late], Pass(s.row, [early, late], moment, Noting);
    CoversIffBetween(early, s.row.stayDate);
    CoversIffBetween(late, s.row.stayDate);
    LaterIsPicked(clock, early, late, s.row.stayDate, s.row.executedAt);
    FirstIsNoted(clock, s, rows, moment, late);
  }

  lemma FirstIsNoted(clock: Clock, s: State, rows: seq<Reservation>, moment: int, r: Reservation)
    requires Initial(s) && Observe(r).Some?
    requires Qualifying(clock, rows, s.row.stayDate, s.row.executedAt) != []
    requires Earliest(Qualifying(clock, rows, s.row.stayDate, s.row.executedAt)) == r
    ensures Exec(clock, s, [Begin(rows, moment), Step(0)]).row.first == Observe(r)
  {
    hide Qualifying, Earliest, Exec, Observe;
    var p := Pass(s.row, rows, moment, Noting);
    TwoSteps(clock, s, Begin(rows, moment), Step(0));
    assert Apply(clock, s, Begin(rows, moment)).passes == [p];
  }

  lemma LaterIsPicked(clock: Clock, early: Reservation, late: Reservation, night: int, acted: int)
    requires Qualifies(clock, early, night, acted) && Qualifies(clock, late, night, acted)
    requires early.bookedAt == Some(EAST) && late.bookedAt == Some(NOON)
    ensures Qualifying(clock, [early, late], night, acted) == [early, late]
    ensures Earliest([early, late]) == late
  {
    hide Qualifies, StrLt;
    NoonIsLess();
    assert [early, late][1..] == [late] && [late][1..] == [];
    assert Qualifying(clock, [late], night, acted) == [late];
    assert Earliest([late]) == late;
  }

  lemma NoonIsLess()
    ensures StrLt(NOON, EAST) && !StrLe(EAST, NOON)
  {
    var day := "2026-01-0";
    assert NOON == day + "1T12:00:00+00:00" && EAST == day + "2T00:00:00+14:00";
    StrLtConcat(day, day, "1T12:00:00+00:00", "2T00:00:00+14:00");
    StrLtTotal(NOON, EAST);
  }

  // -- nothing is made of nights sold before -----------------------------

  ghost predicate Untouched(clock: Clock, s: State) {
    && s.row.first.None? && (s.row.status.None? || s.row.status == Some(NoBooking))
    && forall k :: 0 <= k < |s.passes| ==>
         s.passes[k].record.first.None? && s.passes[k].pc != Reopening && s.passes[k].pc != Resetting
  }

  /**
   While no reservation shown to any pass qualifies, polling makes neither a booking nor a
   cancellation of the row, however many bookings from before the action cover its night.
   */
  lemma {:induction false} OldBookingsCountForNothing(clock: Clock, s: State, actions: seq<Action>)
    requires Initial(s)
    requires forall i :: 0 <= i < |actions| ==> !actions[i].BeginReopen?
    requires forall r :: r in Exec(clock, s, actions).seen ==> !Qualifies(clock, r, s.row.stayDate, s.row.executedAt)
    ensures Untouched(clock, Exec(clock, s, actions))
  {
    if actions != [] {
      var n := |actions| - 1;
      var before := Exec(clock, s, actions[..n]);
      assert Exec(clock, s, actions) == Apply(clock, before, actions[n]);
      SeenGrows(clock, before, actions[n]);
      OldBookingsCountForNothing(clock, s, actions[..n]);
      ExecKeepsInv(clock, s, actions[..n]);
      SameNight(clock, s, actions[..n]);
      UntouchedStays(clock, before, actions[n]);
    }
  }

  lemma SeenGrows(clock: Clock, s: State, a: Action)
    ensures s.seen <= Apply(clock, s, a).seen
  {
  }

  lemma SameNight(clock: Clock, s: State, actions: seq<Action>)
    requires Initial(s)
    ensures Exec(clock, s, actions).row.stayDate == s.row.stayDate
            && Exec(clock, s, actions).row.executedAt == s.row.executedAt
  {
    EvidenceIsWriteOnce(clock, s, [], actions);
    assert [] + actions == actions;
  }

  lemma UntouchedStays(clock: Clock, s: State, a: Action)
    requires Untouched(clock, s) && Inv(clock, s) && !a.BeginReopen?
    requires forall r :: r in Apply(clock, s, a).seen ==> !Qualifies(clock, r, s.row.stayDate, s.row.executedAt)
    ensures Untouched(clock, Apply(clock, s, a))
  {
    hide Qualifies, RowOk, Observe, Earliest, Covering, Finalizable;
    if a.Step? && a.pass < |s.passes| {
      var p := s.passes[a.pass];
      assert PassOk(s.row, s.seen, p);
      assert forall i :: 0 <= i < |QualifyingFor(clock, p)| ==> QualifyingFor(clock, p)[i] in QualifyingFor(clock, p);
    }
  }

  // -- reopening goes by what covers the night -----------------------------

  predicate HeldByBooking(rows: seq<Reservation>, stayDate: int) {
    exists r :: r in rows && Covers(r, stayDate) && r.isBooked
  }

  /** What covers the night, and whether the copy held a first booking, is what the night is taken to be. */
  ghost predicate IsObserved(status: BookingStatus, rows: seq<Reservation>, record: OutcomeRow) {
    && (status == Booked <==> HeldByBooking(rows, record.stayDate))
    && (status == CancelledBooking <==> !HeldByBooking(rows, record.stayDate) && record.first.Some?)
    && (status == NoBooking <==> !HeldByBooking(rows, record.stayDate) && record.first.None?)
  }

  /** `reopen_if_changed` with nobody between its two writes. */
  function Reopened(clock: Clock, s: State, rows: seq<Reservation>, moment: int): State {
    Exec(clock, s, [BeginReopen(rows, moment), Step(|s.passes|), Step(|s.passes|)])
  }

  lemma ReopenedIs(clock: Clock, s: State, rows: seq<Reservation>, moment: int)
    ensures
      var p := Pass(s.row, rows, moment, Reopening);
      Reopened(clock, s, rows, moment).row ==
      if s.row.status == Some(ObservedStatus(p)) then s.row
      else CurrentSet(ReopenedRow(s.row, moment), ObservedStatus(p), None, None, None, moment)
  {
    hide ObservedStatus, CurrentSet, Exec;
    var k, b := |s.passes|, BeginReopen(rows, moment);
    var p := Pass(s.row, rows, moment, Reopening);
    ThreeSteps(clock, s, b, Step(k), Step(k));
    var one := Apply(clock, s, b);
    assert one.passes[k] == p && one.row == s.row;
    var two := Apply(clock, one, Step(k));
    SameObserved(p, two.passes[k].pc);
    assert two.passes[k] == p.(pc := two.passes[k].pc);
  }

  lemma SameObserved(p: Pass, pc: Pc)
    ensures ObservedStatus(p.(pc := pc)) == ObservedStatus(p)
  {
  }

  /**
   Whatever the row and its history: reopening leaves it BOOKED if and only if a booked
   reservation that covers the night is shown; and it does so without any booking made after
   the action if and only if, besides, all of those were made before it or cannot be dated.
   */
  lemma ReopeningGoesByCover(clock: Clock, s: State, rows: seq<Reservation>, moment: int)
    ensures
      var after, night := Reopened(clock, s, rows, moment).row, s.row.stayDate;
      && (after.status == Some(Booked) <==> HeldByBooking(rows, night))
      && (after.status == Some(CancelledBooking) <==> !HeldByBooking(rows, night) && s.row.first.Some?)
      && (after.status == Some(NoBooking) <==> !HeldByBooking(rows, night) && s.row.first.None?)
      && (after.status == Some(Booked) && Qualifying(clock, rows, night, s.row.executedAt) == [] <==>
          && HeldByBooking(rows, night)
          && forall r :: r in rows && Covers(r, night) && r.isBooked ==>
               BookedMoment(clock, r).None? || BookedMoment(clock, r).value <= s.row.executedAt)
      && (after.finalizedAt.Some? ==> after == s.row)
      && after.first == s.row.first
  {
    hide Covers, BookedMoment;
    ReopenedIs(clock, s, rows, moment);
    NoneQualifies(clock, rows, s.row.stayDate, s.row.executedAt);
  }

  lemma NoneQualifies(clock: Clock, rows: seq<Reservation>, stayDate: int, executedAt: int)
    ensures Qualifying(clock, rows, stayDate, executedAt) == [] <==>
            forall r :: r in rows ==> !Qualifies(clock, r, stayDate, executedAt)
  {
    hide Qualifies;
    var q := Qualifying(clock, rows, stayDate, executedAt);
    if q != [] { assert q[0] in q; }
  }

  /** A daily or weekly pass that is shown nothing. */
  function QuietPass(k: nat, moment: int): seq<Action> {
    [Begin([], moment), Step(k), Step(k), Step(k)]
  }

  lemma QuietPassIs(clock: Clock, s: State, moment: int)
    requires s.row.finalizedAt.None? && s.row.first.None? && IsDueForLook(s.row, moment)
    ensures
      var k := |s.passes|;
      var t := Exec(clock, s, QuietPass(k, moment));
      && t.row == CurrentSet(s.row, NoBooking, None, None, None, moment)
      && |t.passes| == k + 1
      && t.passes[k] == Pass(s.row, [], moment, if Finalizable(t.row, [], moment) then Finalizing else Ended)
  {
    hide Finalizable, IsDueForLook, Exec;
    var k, b, p := |s.passes|, Begin([], moment), Pass(s.row, [], moment, Noting);
    assert Qualifying(clock, [], s.row.stayDate, s.row.executedAt) == [] && Covering([], s.row.stayDate) == [];
    ThreeSteps(clock, s, b, Step(k), Step(k));
    var one := Apply(clock, s, b);
    assert one.passes[k] == p;
    var two := Apply(clock, one, Step(k));
    assert two.passes[k] == p.(pc := Setting) && two.row == s.row;
    var three := Apply(clock, two, Step(k));
    assert three.passes[k] == p.(pc := Closing);
    ExecExtends(clock, s, [b, Step(k), Step(k)], [Step(k)]);
    OneStep(clock, three, Step(k));
    assert QuietPass(k, moment) == [b, Step(k), Step(k)] + [Step(k)];
  }

  /** The row after one more pass that saw nothing. */
  ghost predicate StillQuiet(s: State, t: State, moment: int) {
    && t.row.stayDate == s.row.stayDate && t.row.executedAt == s.row.executedAt
    && t.row.first.None? && t.row.finalizedAt.None? && t.row.status == Some(NoBooking)
    && t.row.lastReconciledAt == Some(moment) && t.row.passCount == s.row.passCount + 1
    && |t.passes| == |s.passes| + 1
  }

  lemma QuietWeek(clock: Clock, s: State, moment: int)
    requires s.row.finalizedAt.None? && s.row.first.None?
    requires s.row.lastReconciledAt.None? || moment - s.row.lastReconciledAt.value >= 7 * DAY
    ensures
      var t := Exec(clock, s, QuietPass(|s.passes|, moment));
      && StillQuiet(s, t, moment)
      && (Finalizable(t.row, [], moment) ==> t.passes[|s.passes|].pc == Finalizing)
  {
    hide Exec, QuietPass, Finalizable;
    QuietPassIs(clock, s, moment);
  }

  /** Three quiet weeks, a month after the night, and the row is finalized. */
  function QuietWeeks(s: State): seq<Action> {
    var m := (s.row.stayDate + FINALIZATION_DAYS_AFTER_CHECKOUT) * DAY;
    QuietPass(0, m) + QuietPass(1, m + 7 * DAY) + QuietPass(2, m + 14 * DAY) + [Step(2)]
  }

  lemma QuietWeeksAre(clock: Clock, s: State)
    ensures
      var m := (s.row.stayDate + FINALIZATION_DAYS_AFTER_CHECKOUT) * DAY;
      Exec(clock, s, QuietWeeks(s)) ==
      Exec(clock, Exec(clock, Exec(clock, Exec(clock, s, QuietPass(0, m)), QuietPass(1, m + 7 * DAY)),
                       QuietPass(2, m + 14 * DAY)), [Step(2)])
  {
    hide Exec, QuietPass, Apply;
    var m := (s.row.stayDate + FINALIZATION_DAYS_AFTER_CHECKOUT) * DAY;
    var one, two, three := QuietPass(0, m), QuietPass(1, m + 7 * DAY), QuietPass(2, m + 14 * DAY);
    ExecExtends(clock, s, one, two);
    ExecExtends(clock, s, one + two, three);
    ExecExtends(clock, s, one + two + three, [Step(2)]);
  }

  lemma QuietWeeksFinalize(clock: Clock, s: State)
    requires Initial(s)
    ensures
      var t := Exec(clock, s, QuietWeeks(s));
      && t.row.finalizedAt.Some? && t.row.status == Some(NoBooking) && t.row.first.None? && |t.passes| == 3
      && t.row.stayDate == s.row.stayDate && t.row.executedAt == s.row.executedAt
  {
    hide Exec, QuietPass, Finalizable, Apply, QuietWeeks;
    var m := (s.row.stayDate + FINALIZATION_DAYS_AFTER_CHECKOUT) * DAY;
    QuietWeeksAre(clock, s);
    QuietWeek(clock, s, m);
    var a := Exec(clock, s, QuietPass(0, m));
    QuietWeek(clock, a, m + 7 * DAY);
    var b := Exec(clock, a, QuietPass(1, m + 7 * DAY));
    QuietWeek(clock, b, m + 14 * DAY);
    var c := Exec(clock, b, QuietPass(2, m + 14 * DAY));
    DateAfterWeeks(s.row.stayDate);
    ThirdIsFinalizable(c.row, m + 14 * DAY);
    LastStepFinalizes(clock, c);
  }

  lemma DateAfterWeeks(night: int)
    ensures DateOf((night + FINALIZATION_DAYS_AFTER_CHECKOUT) * DAY + 14 * DAY) >= night + FINALIZATION_DAYS_AFTER_CHECKOUT
  {
    var n := night + FINALIZATION_DAYS_AFTER_CHECKOUT;
    assert n * DAY + 14 * DAY == (n + 14) * DAY;
  }

  lemma ThirdIsFinalizable(row: OutcomeRow, moment: int)
    requires row.passCount >= 3 && DateOf(moment) >= row.stayDate + FINALIZATION_DAYS_AFTER_CHECKOUT
    ensures Finalizable(row, [], moment)
  {
  }

  lemma LastStepFinalizes(clock: Clock, s: State)
    requires |s.passes| == 3 && s.passes[2].pc == Finalizing
    ensures Exec(clock, s, [Step(2)]) ==
            State(FinalizedRow(s.row, s.passes[2].moment), s.passes[2 := s.passes[2].(pc := Ended)], s.seen)
  {
    OneStep(clock, s, Step(2));
  }

  /** A night finalized as never booked after the action is BOOKED again by a stay sold before it. */
  lemma OldBookingReopensFinalized(clock: Clock, s: State, r: Reservation, moment: int)
    requires Initial(s) && r.isBooked && Covers(r, s.row.stayDate)
    requires BookedMoment(clock, r).Some? && BookedMoment(clock, r).value <= s.row.executedAt
    ensures
      var quiet := Exec(clock, s, QuietWeeks(s));
      var reopened := Exec(clock, s, QuietWeeks(s) + [BeginReopen([r], moment), Step(3), Step(3)]).row;
      && quiet.row.finalizedAt.Some? && quiet.row.status == Some(NoBooking)
      && reopened.status == Some(Booked) && reopened.finalizedAt.None? && reopened.first.None?
      && Qualifying(clock, [r], s.row.stayDate, s.row.executedAt) == []
  {
    hide Exec, QuietWeeks, Covers, BookedMoment;
    var quiet := Exec(clock, s, QuietWeeks(s));
    QuietWeeksFinalize(clock, s);
    ReopeningGoesByCover(clock, quiet, [r], moment);
    assert r in [r];
    ExecExtends(clock, s, QuietWeeks(s), [BeginReopen([r], moment), Step(3), Step(3)]);
    NoneQualifies(clock, [r], s.row.stayDate, s.row.executedAt);
  }
}
