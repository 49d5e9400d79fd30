/**
 Every interleaving of reconciliation passes around one outcome row.  A pass keeps the copy
 of the row it started from and the reservations it fetched; each of its store calls is one
 atomic step, and any number of other passes may act between two of them.
 */
module OutcomeProtocol {
  import opened Wrappers
  import opened Texts
  import opened Outcomes

  datatype Pc = Noting | Setting | Closing | Finalizing | Reopening | Resetting | Ended

  datatype Pass = Pass(record: OutcomeRow, rows: seq<Reservation>, moment: int, pc: Pc)

  /** `seen`: every reservation any pass has been shown. */
  datatype State = State(row: OutcomeRow, passes: seq<Pass>, seen: set<Reservation>)

  datatype Action =
    | Begin(rows: seq<Reservation>, moment: int)          // run_once reaches this row
    | BeginReopen(rows: seq<Reservation>, moment: int)    // reopen_if_changed is called with a copy
    | Step(pass: nat)

  function QualifyingFor(clock: Clock, p: Pass): seq<Reservation> {
    Qualifying(clock, p.rows, p.record.stayDate, p.record.executedAt)
  }

  /** The booking `_reconcile` would note first: None when none qualifies, or it cannot be read. */
  function FirstSeen(clock: Clock, p: Pass): Option<Observation> {
    var q := QualifyingFor(clock, p);
    if q == [] then None else Observe(Earliest(q))
  }

  /** `set_current` as `_reconcile` calls it, deciding by the copy it holds. */
  function Concluded(clock: Clock, row: OutcomeRow, p: Pass): OutcomeRow {
    if QualifyingFor(clock, p) != [] then CurrentSet(row, Booked, FirstSeen(clock, p), None, None, p.moment)
    else if p.record.first.Some? then CurrentSet(row, CancelledBooking, None, Some(true), Some(p.moment), p.moment)
    else CurrentSet(row, NoBooking, None, None, None, p.moment)
  }

  /** What `reopen_if_changed` takes the night to be now. */
  function ObservedStatus(p: Pass): BookingStatus {
    if exists r :: r in p.rows && Covers(r, p.record.stayDate) && r.isBooked then Booked
    else if p.record.first.Some? then CancelledBooking
    else NoBooking
  }

  function Advance(clock: Clock, row: OutcomeRow, p: Pass): (OutcomeRow, Pc) {
    match p.pc
    case Noting =>
      (if p.record.first.None? && FirstSeen(clock, p).Some? then NotedFirst(row, FirstSeen(clock, p).value) else row,
       Setting)
    case Setting => (Concluded(clock, row, p), Closing)
    case Closing => (row, if Finalizable(row, Covering(p.rows, p.record.stayDate), p.moment) then Finalizing else Ended)
    case Finalizing => (FinalizedRow(row, p.moment), Ended)
    case Reopening => if p.record.status == Some(ObservedStatus(p)) then (row, Ended) else (ReopenedRow(row, p.moment), Resetting)
    case Resetting => (CurrentSet(row, ObservedStatus(p), None, None, None, p.moment), Ended)
    case Ended => (row, Ended)
  }

  function Shown(rows: seq<Reservation>): set<Reservation> {
    set r | r in rows
  }

  function Apply(clock: Clock, s: State, a: Action): State {
    match a
    case Begin(rows, moment) =>
      if s.row.finalizedAt.None? && IsDueForLook(s.row, moment)
      then s.(passes := s.passes + [Pass(s.row, rows, moment, Noting)], seen := s.seen + Shown(rows)) else s
    case BeginReopen(rows, moment) =>
      s.(passes := s.passes + [Pass(s.row, rows, moment, Reopening)], seen := s.seen + Shown(rows))
    case Step(k) =>
      if k < |s.passes| then
        var (row, pc) := Advance(clock, s.row, s.passes[k]);
        s.(row := row, passes := s.passes[k := s.passes[k].(pc := pc)])
      else s
  }

  function Exec(clock: Clock, s: State, actions: seq<Action>): State {
    if actions == [] then s else Apply(clock, Exec(clock, s, actions[..|actions| - 1]), actions[|actions| - 1])
  }

  /** A row as `record_execution` leaves it. */
  predicate Initial(s: State) {
    && s.passes == [] && s.seen == {}
    && s.row.first.None? && s.row.status.None? && s.row.currentReservation.None? && s.row.cancelledAfterBooking.None?
    && s.row.cancellationObservedAt.None? && s.row.lastReconciledAt.None? && s.row.passCount == 0
    && s.row.finalizedAt.None? && s.row.reopenedAt.None?
  }

  // -- the invariant -----------------------------------------------------

  /** The reservation a recorded first booking was read from. */
  ghost predicate NamedBy(clock: Clock, row: OutcomeRow, r: Reservation) {
    Qualifies(clock, r, row.stayDate, row.executedAt) && row.first.Some? && Observe(r) == row.first
  }

  /** The reservation the row says holds the night now. */
  ghost predicate Occupies(clock: Clock, row: OutcomeRow, r: Reservation) {
    Qualifies(clock, r, row.stayDate, row.executedAt) && r.reservationId == row.currentReservation
  }

  ghost predicate RowOk(clock: Clock, row: OutcomeRow, seen: set<Reservation>) {
    && (row.first.Some? ==> exists r :: r in seen && NamedBy(clock, row, r))
    && (row.currentReservation.Some? ==> row.status == Some(Booked) && exists r :: r in seen && Occupies(clock, row, r))
    && (row.status == Some(CancelledBooking) ==> row.first.Some?)
    && (row.cancelledAfterBooking.Some? ==> row.cancelledAfterBooking.value && row.first.Some?)
    && (row.cancelledAfterBooking.Some? <==> row.cancellationObservedAt.Some?)
    && (row.finalizedAt.Some? ==> LongOver(row, row.finalizedAt.value))
  }

  /** Three passes at least, and the waiting time after the night itself. */
  predicate LongOver(row: OutcomeRow, moment: int) {
    row.passCount >= FINALIZATION_MIN_PASSES && DateOf(moment) >= row.stayDate + FINALIZATION_DAYS_AFTER_CHECKOUT
  }

  /** A copy is of this row, at an earlier time. */
  ghost predicate PassOk(row: OutcomeRow, seen: set<Reservation>, p: Pass) {
    && p.record.stayDate == row.stayDate && p.record.executedAt == row.executedAt
    && (p.record.first.Some? ==> row.first == p.record.first)
    && (forall r :: r in p.rows ==> r in seen)
    && (p.pc == Finalizing ==> LongOver(row, p.moment))
  }

  ghost predicate Inv(clock: Clock, s: State) {
    RowOk(clock, s.row, s.seen) && forall k :: 0 <= k < |s.passes| ==> PassOk(s.row, s.seen, s.passes[k])
  }

  /** What a row never takes back. */
  ghost predicate Keeps(before: OutcomeRow, after: OutcomeRow) {
    && after.stayDate == before.stayDate && after.executedAt == before.executedAt
    && (before.first.Some? ==> after.first == before.first)
    && (before.cancelledAfterBooking == Some(true) ==> after.cancelledAfterBooking == Some(true))
    && (before.cancellationObservedAt.Some? ==> after.cancellationObservedAt == before.cancellationObservedAt)
    && before.passCount <= after.passCount
  }

  lemma AdvanceKeeps(clock: Clock, row: OutcomeRow, p: Pass)
    ensures Keeps(row, Advance(clock, row, p).0)
  {
  }

  /** The row stays sound under any one step of a sound pass. */
  lemma AdvanceOk(clock: Clock, row: OutcomeRow, seen: set<Reservation>, p: Pass)
    requires RowOk(clock, row, seen) && PassOk(row, seen, p)
    ensures RowOk(clock, Advance(clock, row, p).0, seen)
    ensures Advance(clock, row, p).1 == Finalizing ==> LongOver(row, p.moment)
  {
    hide Qualifies, Observe, Earliest, Qualifying, Covering, Finalizable, Covers, OccupiedNights;
    var after := Advance(clock, row, p).0;
    if p.pc == Noting && row.first.None? && after.first.Some? {
      var q := QualifyingFor(clock, p);
      assert NamedBy(clock, after, Earliest(q));
    } else if row.first.Some? {
      var r :| r in seen && NamedBy(clock, row, r);
      assert NamedBy(clock, after, r);
    }
    if p.pc == Setting {
      if QualifyingFor(clock, p) != [] && FirstSeen(clock, p).Some? {
        CurrentIsNamed(clock, after, p);
      }
    } else if row.currentReservation.Some? {
      var r :| r in seen && Occupies(clock, row, r);
      assert Occupies(clock, after, r) || after.currentReservation.None?;
    }
    if p.pc == Closing && Advance(clock, row, p).1 == Finalizing {
      FinalizingIsLate(row, p);
    }
  }

  lemma CurrentIsNamed(clock: Clock, row: OutcomeRow, p: Pass)
    requires p.record.stayDate == row.stayDate && p.record.executedAt == row.executedAt
    requires QualifyingFor(clock, p) != [] && FirstSeen(clock, p).Some?
    requires row.currentReservation == Some(FirstSeen(clock, p).value.reservationId)
    ensures Earliest(QualifyingFor(clock, p)) in p.rows && Occupies(clock, row, Earliest(QualifyingFor(clock, p)))
  {
  }

  lemma FinalizingIsLate(row: OutcomeRow, p: Pass)
    requires p.record.stayDate == row.stayDate
    requires Finalizable(row, Covering(p.rows, p.record.stayDate), p.moment)
    ensures LongOver(row, p.moment)
  {
    FinalizableIsLate(row, p.rows, p.moment, Reservation(None, None, false, None, None, None, None));
  }

  lemma OthersStayOk(before: OutcomeRow, after: OutcomeRow, seen: set<Reservation>, p: Pass)
    requires PassOk(before, seen, p) && Keeps(before, after)
    ensures PassOk(after, seen, p)
  {
  }

  lemma ApplyKeepsInv(clock: Clock, s: State, a: Action)
    requires Inv(clock, s)
    ensures Inv(clock, Apply(clock, s, a)) && Keeps(s.row, Apply(clock, s, a).row)
  {
    hide RowOk, Advance, ObservedStatus, LongOver;
    var t := Apply(clock, s, a);
    if a.Step? && a.pass < |s.passes| {
      var p := s.passes[a.pass];
      AdvanceKeeps(clock, s.row, p);
      AdvanceOk(clock, s.row, s.seen, p);
      assert t.row == Advance(clock, s.row, p).0;
      forall k | 0 <= k < |t.passes| ensures PassOk(t.row, t.seen, t.passes[k]) {
        OthersStayOk(s.row, t.row, s.seen, s.passes[k]);
        if k == a.pass { LongOverStays(s.row, t.row, p.moment); }
      }
    } else {
      MoreSeen(clock, s.row, s.seen, t.seen);
    }
  }

  lemma LongOverStays(before: OutcomeRow, after: OutcomeRow, moment: int)
    requires Keeps(before, after)
    ensures LongOver(before, moment) ==> LongOver(after, moment)
  {
  }

  lemma MoreSeen(clock: Clock, row: OutcomeRow, seen: set<Reservation>, more: set<Reservation>)
    requires RowOk(clock, row, seen) && seen <= more
    ensures RowOk(clock, row, more)
  {
    if row.first.Some? {
      var r :| r in seen && NamedBy(clock, row, r);
      assert r in more && NamedBy(clock, row, r);
    }
    if row.currentReservation.Some? {
      var r :| r in seen && Occupies(clock, row, r);
      assert r in more && Occupies(clock, row, r);
    }
  }

  lemma {:induction false} ExecKeepsInv(clock: Clock, s: State, actions: seq<Action>)
    requires Initial(s)
    ensures Inv(clock, Exec(clock, s, actions))
  {
    hide Apply;
    if actions != [] {
      ExecKeepsInv(clock, s, actions[..|actions| - 1]);
      ApplyKeepsInv(clock, Exec(clock, s, actions[..|actions| - 1]), actions[|actions| - 1]);
    }
  }

  /** A run may be cut anywhere. */
  lemma {:induction false} ExecExtends(clock: Clock, s: State, actions: seq<Action>, more: seq<Action>)
    ensures Exec(clock, s, actions + more) == Exec(clock, Exec(clock, s, actions), more)
  {
    hide Apply;
    if more == [] {
      assert actions + more == actions;
    } else {
      var n := |more| - 1;
      assert (actions + more)[..|actions| + n] == actions + more[..n];
      ExecExtends(clock, s, actions, more[..n]);
    }
  }

  lemma OneStep(clock: Clock, s: State, a: Action)
    ensures Exec(clock, s, [a]) == Apply(clock, s, a)
  {
    hide Apply;
    assert [a][..0] == [];
    assert Exec(clock, s, []) == s;
  }

  lemma TwoSteps(clock: Clock, s: State, a: Action, b: Action)
    ensures Exec(clock, s, [a, b]) == Apply(clock, Apply(clock, s, a), b)
  {
    hide Apply;
    OneStep(clock, s, a);
    assert [a, b][..1] == [a];
  }

  lemma ThreeSteps(clock: Clock, s: State, a: Action, b: Action, c: Action)
    ensures Exec(clock, s, [a, b, c]) == Apply(clock, Apply(clock, Apply(clock, s, a), b), c)
  {
    hide Apply;
    TwoSteps(clock, s, a, b);
    assert [a, b, c][..2] == [a, b];
  }
}
