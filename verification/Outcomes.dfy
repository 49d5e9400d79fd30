/**
 What was observed of a night after a price action: the row, the store's conditional
 updates of it, and how a provider's reservations are read.
 */
module Outcomes {
  import opened Wrappers
  import opened Texts

  const DAY: int := 86_400_000_000
  const FINALIZATION_DAYS_AFTER_CHECKOUT := 30
  const FINALIZATION_MIN_PASSES := 3

  datatype BookingStatus = Booked | CancelledBooking | NoBooking

  /** One reservation the provider returns; nights are day numbers, None where unreadable. */
  datatype Reservation = Reservation(
    reservationId: Option<string>,
    bookedAt: Option<string>,
    isBooked: bool,
    adr: Option<real>,
    channel: Option<string>,
    checkIn: Option<int>,
    checkOut: Option<int>)

  datatype Observation = Observation(
    bookedAt: string,
    reservationId: string,
    adr: Option<real>,
    channel: Option<string>)

  /** `executedAt` and the other instants are microseconds; the six `first_*` columns are written as one. */
  datatype OutcomeRow = OutcomeRow(
    stayDate: int,
    executedAt: int,
    first: Option<Observation>,
    status: Option<BookingStatus>,
    currentReservation: Option<string>,
    currentAdr: Option<real>,
    currentChannel: Option<string>,
    cancelledAfterBooking: Option<bool>,
    cancellationObservedAt: Option<int>,
    lastReconciledAt: Option<int>,
    passCount: nat,
    finalizedAt: Option<int>,
    reopenedAt: Option<int>)

  /** How a provider's stamp reads as an instant, if it does. */
  type Clock = string -> Option<int>

  function DateOf(instant: int): int {
    instant / DAY
  }

  // -- reading reservations ----------------------------------------------

  /** `occupied_nights`: check-out is excluded. */
  function OccupiedNights(r: Reservation): seq<int> {
    if r.checkIn.None? || r.checkOut.None? || r.checkOut.value <= r.checkIn.value then []
    else seq(r.checkOut.value - r.checkIn.value, n requires 0 <= n => r.checkIn.value + n)
  }

  predicate Covers(r: Reservation, night: int) {
    night in OccupiedNights(r)
  }

  /** A night is occupied from check-in until, and not on, check-out. */
  lemma CoversIffBetween(r: Reservation, night: int)
    ensures Covers(r, night) <==>
            r.checkIn.Some? && r.checkOut.Some? && r.checkIn.value <= night < r.checkOut.value
  {
    if r.checkIn.Some? && r.checkOut.Some? && r.checkIn.value <= night < r.checkOut.value {
      assert OccupiedNights(r)[night - r.checkIn.value] == night;
    }
  }

  function BookedMoment(clock: Clock, r: Reservation): Option<int> {
    if Truthy(r.bookedAt) then clock(r.bookedAt.value) else None
  }

  /** `qualifies`: booked, after the action, and covering the night. */
  predicate Qualifies(clock: Clock, r: Reservation, stayDate: int, executedAt: int) {
    && r.isBooked
    && BookedMoment(clock, r).Some? && BookedMoment(clock, r).value > executedAt
    && Covers(r, stayDate)
  }

  /** `observation`. */
  function Observe(r: Reservation): Option<Observation> {
    if Truthy(r.reservationId) && Truthy(r.bookedAt)
    then Some(Observation(r.bookedAt.value, r.reservationId.value, r.adr, r.channel)) else None
  }

  function Covering(rows: seq<Reservation>, stayDate: int): (c: seq<Reservation>)
    ensures forall r :: r in c <==> r in rows && Covers(r, stayDate)
  {
    if rows == [] then []
    else (if Covers(rows[0], stayDate) then [rows[0]] else []) + Covering(rows[1..], stayDate)
  }

  function Qualifying(clock: Clock, rows: seq<Reservation>, stayDate: int, executedAt: int): (q: seq<Reservation>)
    ensures forall r :: r in q <==> r in rows && Qualifies(clock, r, stayDate, executedAt)
  {
    if rows == [] then []
    else (if Qualifies(clock, rows[0], stayDate, executedAt) then [rows[0]] else [])
         + Qualifying(clock, rows[1..], stayDate, executedAt)
  }

  function BookedText(r: Reservation): string {
    if r.bookedAt.Some? then r.bookedAt.value else "None"
  }

  /** `min(rows, key=booked_date)`: the first of the least, as text. */
  function Earliest(rows: seq<Reservation>): (e: Reservation)
    requires rows != []
    ensures e in rows
  {
    if |rows| == 1 then rows[0]
    else
      var rest := Earliest(rows[1..]);
      if StrLe(BookedText(rows[0]), BookedText(rest)) then rows[0] else rest
  }

  lemma {:induction false} EarliestIsLeast(rows: seq<Reservation>, r: Reservation)
    requires r in rows
    ensures StrLe(BookedText(Earliest(rows)), BookedText(r))
  {
    if |rows| > 1 {
      var rest := rows[1..];
      StrLtTotal(BookedText(rows[0]), BookedText(Earliest(rest)));
      if r in rest {
        EarliestIsLeast(rest, r);
        var a, b, c := BookedText(rows[0]), BookedText(Earliest(rest)), BookedText(r);
        if StrLt(a, b) && StrLt(b, c) { StrLtTransitive(a, b, c); }
      }
    }
  }

  // -- the store's updates -----------------------------------------------

  /** `note_first_booking`: the guard is the WHERE clause. */
  function NotedFirst(row: OutcomeRow, o: Observation): OutcomeRow {
    if row.first.None? then row.(first := Some(o)) else row
  }

  /** `set_current`; the cancellation columns only where the caller gives them. */
  function CurrentSet(row: OutcomeRow, status: BookingStatus, seen: Option<Observation>, cancelled: Option<bool>,
                      cancellationAt: Option<int>, now: int): OutcomeRow
  {
    row.(status := Some(status),
         currentReservation := if seen.Some? then Some(seen.value.reservationId) else None,
         currentAdr := if seen.Some? then seen.value.adr else None,
         currentChannel := if seen.Some? then seen.value.channel else None,
         lastReconciledAt := Some(now),
         passCount := row.passCount + 1,
         cancelledAfterBooking := if cancelled.Some? then cancelled else row.cancelledAfterBooking,
         cancellationObservedAt :=
           if cancellationAt.Some? && row.cancellationObservedAt.None? then cancellationAt
           else row.cancellationObservedAt)
  }

  function FinalizedRow(row: OutcomeRow, now: int): OutcomeRow {
    row.(finalizedAt := Some(now))
  }

  function ReopenedRow(row: OutcomeRow, now: int): OutcomeRow {
    row.(finalizedAt := None, reopenedAt := Some(now))
  }

  // -- what a pass concludes ---------------------------------------------

  /** `_due`: daily up to the stay, weekly after it; a row never polled is due. */
  predicate IsDueForLook(row: OutcomeRow, now: int) {
    row.lastReconciledAt.None?
    || now - row.lastReconciledAt.value >= (if DateOf(now) > row.stayDate then 7 * DAY else DAY)
  }

  /** Due from a day after the last look while the stay date has not passed, from a week after it in any case, and not before. */
  lemma DueMeans(row: OutcomeRow, last: int, now: int)
    requires row.lastReconciledAt == Some(last)
    ensures IsDueForLook(row, now) <==> (now >= last + DAY && DateOf(now) <= row.stayDate) || now >= last + 7 * DAY
    ensures IsDueForLook(row.(lastReconciledAt := None), now)
  {
  }

  /** So a look that was due and not taken lapses when the stay date passes, until the week is over. */
  lemma DueLapses(row: OutcomeRow, last: int, due: int, now: int)
    requires row.lastReconciledAt == Some(last) && due < now && IsDueForLook(row, due)
    ensures !IsDueForLook(row, now) <==> DateOf(now) > row.stayDate && now < last + 7 * DAY
  {
    hide IsDueForLook;
    DueMeans(row, last, due);
    DueMeans(row, last, now);
  }

  function LatestCheckOut(covering: seq<Reservation>): Option<int> {
    if covering == [] then None
    else
      var rest := LatestCheckOut(covering[1..]);
      if covering[0].checkOut.None? then rest
      else if rest.None? || covering[0].checkOut.value > rest.value then covering[0].checkOut
      else rest
  }

  /** `_finalizable`, measured from the last check-out that covers the night. */
  predicate Finalizable(row: OutcomeRow, covering: seq<Reservation>, now: int) {
    var anchor := LatestCheckOut(covering);
    && row.passCount >= FINALIZATION_MIN_PASSES
    && DateOf(now) >= (if anchor.Some? then anchor.value else row.stayDate) + FINALIZATION_DAYS_AFTER_CHECKOUT
  }

  /** Every stay that covers the night has been over for the whole waiting time. */
  lemma {:induction false} FinalizableIsLate(row: OutcomeRow, rows: seq<Reservation>, now: int, r: Reservation)
    requires Finalizable(row, Covering(rows, row.stayDate), now)
    ensures DateOf(now) >= row.stayDate + FINALIZATION_DAYS_AFTER_CHECKOUT
    ensures r in rows && Covers(r, row.stayDate) ==>
              DateOf(now) >= r.checkOut.value + FINALIZATION_DAYS_AFTER_CHECKOUT
  {
    var covering := Covering(rows, row.stayDate);
    forall q | q in covering ensures q.checkOut.Some? && q.checkOut.value > row.stayDate {
      CoversIffBetween(q, row.stayDate);
    }
    LatestIsLatest(covering);
  }

  /** Three looks, and a month after every stay that covers the night, or after the night where none does. */
  lemma FinalizableExactly(row: OutcomeRow, rows: seq<Reservation>, now: int)
    ensures Finalizable(row, Covering(rows, row.stayDate), now) <==>
              row.passCount >= 3 && MonthOver(rows, row.stayDate, now)
  {
    var covering := Covering(rows, row.stayDate);
    forall q | q in covering ensures q.checkOut.Some? && q.checkOut.value > row.stayDate && q.checkIn.Some? {
      CoversIffBetween(q, row.stayDate);
    }
    forall q | q in rows ensures q in covering <==>
      q.checkIn.Some? && q.checkOut.Some? && q.checkIn.value <= row.stayDate < q.checkOut.value
    {
      CoversIffBetween(q, row.stayDate);
    }
    LatestIsLatest(covering);
  }

  ghost predicate MonthOver(rows: seq<Reservation>, night: int, now: int) {
    && (forall r :: r in rows && r.checkIn.Some? && r.checkOut.Some? && r.checkIn.value <= night < r.checkOut.value ==>
          DateOf(now) >= r.checkOut.value + 30)
    && DateOf(now) >= night + 30
  }

  lemma {:induction false} LatestIsLatest(covering: seq<Reservation>)
    ensures forall q :: q in covering && q.checkOut.Some? ==>
              LatestCheckOut(covering).Some? && q.checkOut.value <= LatestCheckOut(covering).value
    ensures LatestCheckOut(covering).Some? ==> exists q :: q in covering && q.checkOut == LatestCheckOut(covering)
  {
    if covering != [] {
      LatestIsLatest(covering[1..]);
      assert covering[0] in covering;
    }
  }

  // -- racing to record the first booking --------------------------------

  /** The row after these observations were offered as its first, one call after the other. */
  function NotedAll(row: OutcomeRow, offered: seq<Observation>): OutcomeRow {
    if offered == [] then row else NotedFirst(NotedAll(row, offered[..|offered| - 1]), offered[|offered| - 1])
  }

  /** The answer of the i-th of these calls. */
  predicate Wrote(row: OutcomeRow, offered: seq<Observation>, i: nat)
    requires i < |offered|
  {
    NotedAll(row, offered[..i]).first.None?
  }

  /** However many passes race, only the first to arrive is told that it wrote, and what it wrote stays. */
  lemma {:induction false} OneRacerWrites(row: OutcomeRow, offered: seq<Observation>)
    ensures forall i: nat :: i < |offered| ==> (Wrote(row, offered, i) <==> i == 0 && row.first.None?)
    ensures NotedAll(row, offered) ==
            if row.first.None? && offered != [] then row.(first := Some(offered[0])) else row
  {
    if offered != [] {
      var n := |offered| - 1;
      OneRacerWrites(row, offered[..n]);
      forall i: nat | i < |offered| ensures Wrote(row, offered, i) <==> i == 0 && row.first.None? {
        if i < n {
          assert offered[..n][..i] == offered[..i];
          assert Wrote(row, offered[..n], i) <==> Wrote(row, offered, i);
        }
      }
    }
  }

  class PricingOutcomeStore {
    var rows: map<string, OutcomeRow>

    constructor (rows: map<string, OutcomeRow>)
      ensures this.rows == rows
    {
      this.rows := rows;
    }

    /** `note_first_booking`: the guard is the WHERE clause, and the answer is whether it matched. */
    method NoteFirstBooking(id: string, seen: Observation) returns (wrote: bool)
      modifies `rows
      ensures wrote <==> id in old(rows) && old(rows)[id].first.None?
      ensures rows == if wrote then old(rows)[id := NotedFirst(old(rows)[id], seen)] else old(rows)
      ensures id in rows ==> rows[id].first.Some?
    {
      if id !in rows {
        return false;
      }
      var r := rows[id];
      if r.first.Some? {
        return false;
      }
      rows := rows[id := r.(first := Some(seen))];
      return true;
    }

    method SetCurrent(id: string, status: BookingStatus, seen: Option<Observation>, cancelled: Option<bool>,
                      cancellationAt: Option<int>, now: int)
      modifies `rows
      ensures rows == if id in old(rows)
                      then old(rows)[id := CurrentSet(old(rows)[id], status, seen, cancelled, cancellationAt, now)]
                      else old(rows)
    {
      if id !in rows {
        return;
      }
      var r := rows[id];
      var next := r.(status := Some(status), lastReconciledAt := Some(now), passCount := r.passCount + 1);
      next := if seen.Some?
             then next.(currentReservation := Some(seen.value.reservationId), currentAdr := seen.value.adr,
                       currentChannel := seen.value.channel)
             else next.(currentReservation := None, currentAdr := None, currentChannel := None);
      if cancelled.Some? {
        next := next.(cancelledAfterBooking := cancelled);
      }
      if cancellationAt.Some? && next.cancellationObservedAt.None? {
        next := next.(cancellationObservedAt := cancellationAt);
      }
      rows := rows[id := next];
    }

    method Finalize(id: string, now: int)
      modifies `rows
      ensures rows == if id in old(rows) then old(rows)[id := FinalizedRow(old(rows)[id], now)] else old(rows)
      ensures id in rows ==> rows[id] == old(rows)[id].(finalizedAt := Some(now))
    {
      if id in rows {
        rows := rows[id := rows[id].(finalizedAt := Some(now))];
      }
    }

    method Reopen(id: string, now: int)
      modifies `rows
      ensures rows == if id in old(rows) then old(rows)[id := ReopenedRow(old(rows)[id], now)] else old(rows)
      ensures id in rows ==> rows[id] == old(rows)[id].(finalizedAt := None, reopenedAt := Some(now))
    {
      if id in rows {
        rows := rows[id := rows[id].(finalizedAt := None, reopenedAt := Some(now))];
      }
    }

    method Get(id: string) returns (row: Option<OutcomeRow>)
      ensures row == if id in rows then Some(rows[id]) else None
    {
      row := if id in rows then Some(rows[id]) else None;
    }
  }
}
