/**
 One reconciliation pass over one row, as it is written: a handful of store calls, with other
 passes acting on the row between any two of them.  The pass is shown to be a run of the
 protocol.
 */
module OutcomeReconciler {
  import opened Wrappers
  import opened Texts
  import opened Outcomes
  import opened OutcomeProtocol
  import opened OutcomeSafety

  datatype ReconcileOutcome = ReconcileOutcome(
    status: BookingStatus,
    firstBookingRecorded: bool,
    cancellationObserved: bool,
    finalized: bool)

  /** What others do leaves a pass that is not theirs where it stood, and keeps what the row keeps. */
  lemma {:induction false} OthersLeavePass(clock: Clock, s: State, actions: seq<Action>, k: nat)
    requires Inv(clock, s) && k < |s.passes| && Step(k) !in actions
    ensures
      var t := Exec(clock, s, actions);
      Inv(clock, t) && k < |t.passes| && t.passes[k] == s.passes[k] && Keeps(s.row, t.row)
  {
    hide Inv;
    if actions != [] {
      var n := |actions| - 1;
      assert actions[n] in actions;
      OthersLeavePass(clock, s, actions[..n], k);
      ApplyKeepsInv(clock, Exec(clock, s, actions[..n]), actions[n]);
    }
  }

  class RowReconciler {
    const clock: Clock
    const others: nat -> seq<Action>
    const outcomes: PricingOutcomeStore
    const id: string
    ghost const initial: State
    var state: State
    ghost var actions: seq<Action>
    var tick: nat

    /** What happened is a run of the protocol; pass k is this one, and only this one steps it. */
    ghost predicate IsRun(k: nat)
      reads this
    {
      && Initial(initial) && state == Exec(clock, initial, actions) && Inv(clock, state)
      && k < |state.passes|
      && forall n: nat :: Step(k) !in others(n)
    }

    /** And the table holds the row of that run. */
    ghost predicate Valid(k: nat)
      reads this, outcomes
    {
      IsRun(k) && id in outcomes.rows && outcomes.rows[id] == state.row
    }

    constructor (clock: Clock, others: nat -> seq<Action>, outcomes: PricingOutcomeStore, id: string, ghost initial: State,
                 state: State, ghost actions: seq<Action>, k: nat)
      requires Initial(initial) && state == Exec(clock, initial, actions)
      requires k < |state.passes| && forall n: nat :: Step(k) !in others(n)
      requires id in outcomes.rows && outcomes.rows[id] == state.row
      ensures Valid(k) && this.clock == clock && this.others == others && this.state == state
      ensures this.outcomes == outcomes && this.id == id
    {
      this.clock := clock;
      this.others := others;
      this.outcomes := outcomes;
      this.id := id;
      this.initial := initial;
      this.state := state;
      this.actions := actions;
      tick := 0;
      ExecKeepsInv(clock, initial, actions);
    }

    /** Whatever other passes do to the row before the next store call of this one. */
    method Interfere(k: nat)
      requires Valid(k)
      modifies `state, `actions, `tick, outcomes
      ensures Valid(k) && old(actions) <= actions
      ensures state.passes[k] == old(state).passes[k] && Keeps(old(state).row, state.row)
    {
      hide Inv, Initial;
      OthersLeavePass(clock, state, others(tick), k);
      ExecExtends(clock, initial, actions, others(tick));
      state := Exec(clock, state, others(tick));
      outcomes.rows := outcomes.rows[id := state.row];
      actions := actions + others(tick);
      tick := tick + 1;
    }

    /** The store call just made is the step the protocol allows this pass next. */
    method Commit(k: nat, pc: Pc)
      requires IsRun(k) && id in outcomes.rows
      requires (outcomes.rows[id], pc) == Advance(clock, state.row, state.passes[k])
      modifies `state, `actions
      ensures Valid(k) && old(actions) <= actions
      ensures state.row == outcomes.rows[id] && state.passes[k] == old(state).passes[k].(pc := pc)
      ensures Keeps(old(state).row, state.row)
    {
      hide Inv, Advance, Initial, Keeps;
      ApplyKeepsInv(clock, state, Step(k));
      assert (actions + [Step(k)])[..|actions|] == actions;
      actions := actions + [Step(k)];
      state := state.(row := outcomes.rows[id], passes := state.passes[k := state.passes[k].(pc := pc)]);
    }

    /** `_reconcile`. */
    method Reconcile(k: nat, record: OutcomeRow, rows: seq<Reservation>, moment: int) returns (o: ReconcileOutcome)
      requires Valid(k) && state.passes[k] == Pass(record, rows, moment, Noting)
      modifies `state, `actions, `tick, outcomes
      ensures Valid(k) && old(actions) <= actions && Keeps(old(state).row, outcomes.rows[id])
      ensures state.passes[k] == Pass(record, rows, moment, Ended)
      ensures o.status == Booked <==> AnyQualifies(clock, rows, record)
      ensures o.status == CancelledBooking <==> !AnyQualifies(clock, rows, record) && record.first.Some?
      ensures o.status == NoBooking <==> !AnyQualifies(clock, rows, record) && record.first.None?
      ensures o.firstBookingRecorded ==>
                outcomes.rows[id].first.Some? && outcomes.rows[id].first == FirstSeen(clock, old(state).passes[k])
      ensures o.status == CancelledBooking ==>
                && outcomes.rows[id].first.Some? && outcomes.rows[id].cancelledAfterBooking == Some(true)
                && outcomes.rows[id].cancellationObservedAt.Some?
      ensures record.first.None? && FirstSeen(clock, old(state).passes[k]).Some? ==> outcomes.rows[id].first.Some?
      ensures o.finalized ==>
                && MonthOver(rows, record.stayDate, moment) && outcomes.rows[id].passCount >= 3
                && outcomes.rows[id].finalizedAt == Some(moment)
      ensures MonthOver(rows, record.stayDate, moment) && old(state).row.passCount + 1 >= 3 ==> o.finalized
      ensures o.cancellationObserved <==> o.status == CancelledBooking && record.cancelledAfterBooking != Some(true)
    {
      hide Inv, Keeps, Initial, Exec, AnyQualifies;
      ghost var start := state.row;
      var qualifying := QualifyingFor(clock, Pass(record, rows, moment, Noting));
      SameQualifying(clock, state.passes[k], Setting);
      QualifyingMeans(clock, state.passes[k]);
      var recorded := Note(k, record, qualifying);
      ghost var noted := state.row;
      var status := Conclude(k, record, moment, qualifying);
      var cancellation := status == CancelledBooking && record.cancelledAfterBooking != Some(true);
      ghost var concluded := state.row;
      var finalized := Settle(k, record, rows, moment);
      KeepsTransitive(start, noted, concluded);
      KeepsFirst(start, noted);
      KeepsTransitive(start, concluded, state.row);
      KeepsFirst(noted, concluded);
      KeepsFirst(concluded, state.row);
      o := ReconcileOutcome(status, recorded, cancellation, finalized);
    }

    /** The first store call: the earliest qualifying booking, if the copy held none and it can be read. */
    method Note(k: nat, record: OutcomeRow, qualifying: seq<Reservation>) returns (recorded: bool)
      requires Valid(k) && state.passes[k].pc == Noting && record == state.passes[k].record
      requires qualifying == QualifyingFor(clock, state.passes[k])
      modifies `state, `actions, `tick, outcomes
      ensures Valid(k) && old(actions) <= actions && Keeps(old(state).row, state.row)
      ensures state.passes[k] == old(state).passes[k].(pc := Setting)
      ensures recorded ==> state.row.first.Some? && state.row.first == FirstSeen(clock, old(state).passes[k])
      ensures record.first.None? && FirstSeen(clock, old(state).passes[k]).Some? ==> state.row.first.Some?
    {
      hide Inv, Initial, Exec, QualifyingFor, Earliest, Observe;
      Interfere(k);
      recorded := false;
      if qualifying != [] && record.first.None? {
        var seen := Observe(Earliest(qualifying));
        if seen.Some? {
          recorded := outcomes.NoteFirstBooking(id, seen.value);
        }
      }
      Commit(k, Setting);
    }

    /** The second: what is true now. */
    method Conclude(k: nat, record: OutcomeRow, moment: int, qualifying: seq<Reservation>) returns (status: BookingStatus)
      requires Valid(k) && state.passes[k].pc == Setting
      requires record == state.passes[k].record && moment == state.passes[k].moment
      requires qualifying == QualifyingFor(clock, state.passes[k])
      modifies `state, `actions, `tick, outcomes
      ensures Valid(k) && old(actions) <= actions && Keeps(old(state).row, state.row)
      ensures state.passes[k] == old(state).passes[k].(pc := Closing)
      ensures status == Booked <==> qualifying != []
      ensures status == CancelledBooking <==> qualifying == [] && record.first.Some?
      ensures status == NoBooking <==> qualifying == [] && record.first.None?
      ensures status == CancelledBooking ==>
                && state.row.first.Some? && state.row.cancelledAfterBooking == Some(true)
                && state.row.cancellationObservedAt.Some?
      ensures state.row.passCount >= old(state).row.passCount + 1
    {
      hide Initial, Exec, QualifyingFor, Earliest, Observe, RowOk;
      Interfere(k);
      assert PassOk(state.row, state.seen, state.passes[k]);
      if qualifying != [] {
        status := Booked;
        outcomes.SetCurrent(id, Booked, Observe(Earliest(qualifying)), None, None, moment);
      } else if record.first.Some? {
        status := CancelledBooking;
        outcomes.SetCurrent(id, CancelledBooking, None, Some(true), Some(moment), moment);
      } else {
        status := NoBooking;
        outcomes.SetCurrent(id, NoBooking, None, None, None, moment);
      }
      Commit(k, Closing);
    }

    lemma SameNightAsCopy(k: nat)
      requires Valid(k)
      ensures state.passes[k].record.stayDate == state.row.stayDate
    {
      assert PassOk(state.row, state.seen, state.passes[k]);
    }

    /** The last: read the row again, and stop polling it once it is settled. */
    method Settle(k: nat, record: OutcomeRow, rows: seq<Reservation>, moment: int) returns (finalized: bool)
      requires Valid(k) && state.passes[k] == Pass(record, rows, moment, Closing)
      modifies `state, `actions, `tick, outcomes
      ensures Valid(k) && old(actions) <= actions && Keeps(old(state).row, state.row)
      ensures state.passes[k] == Pass(record, rows, moment, Ended)
      ensures finalized ==>
                && MonthOver(rows, record.stayDate, moment) && state.row.passCount >= 3
                && state.row.finalizedAt == Some(moment)
      ensures MonthOver(rows, record.stayDate, moment) && old(state).row.passCount >= 3 ==> finalized
    {
      hide Inv, Initial, Exec, Keeps, Finalizable, Covering;
      ghost var start := state.row;
      Interfere(k);
      ghost var met := state.row;
      KeepsFirst(start, met);
      var refreshed := outcomes.Get(id);
      FinalizableExactly(state.row, rows, moment);
      SameNightAsCopy(k);
      finalized := refreshed.Some? && Finalizable(refreshed.value, Covering(rows, record.stayDate), moment);
      Commit(k, if finalized then Finalizing else Ended);
      KeepsTransitive(start, met, state.row);
      if finalized {
        ghost var read := state.row;
        Interfere(k);
        ghost var last := state.row;
        KeepsFirst(read, last);
        outcomes.Finalize(id, moment);
        Commit(k, Ended);
        KeepsTransitive(start, read, last);
        KeepsTransitive(start, last, state.row);
      }
    }

    /**
     `reopen_if_changed`: when what covers the night disagrees with the copy, the row is opened
     again and says what covers it; otherwise nothing is written.
     */
    method ReopenIfChanged(k: nat, record: OutcomeRow, rows: seq<Reservation>, moment: int) returns (reopened: bool)
      requires Valid(k) && state.passes[k] == Pass(record, rows, moment, Reopening)
      modifies `state, `actions, `tick, outcomes
      ensures Valid(k) && old(actions) <= actions && Keeps(old(state).row, outcomes.rows[id])
      ensures state.passes[k] == Pass(record, rows, moment, Ended)
      ensures reopened ==> outcomes.rows[id].status.Some? && IsObserved(outcomes.rows[id].status.value, rows, record)
      ensures reopened <==> record.status.None? || !IsObserved(record.status.value, rows, record)
    {
      hide Inv, Initial, Exec, Keeps, Covers;
      ghost var start := state.row;
      Interfere(k);
      ghost var met := state.row;
      var observed := if HeldByBooking(rows, record.stayDate) then Booked
                      else if record.first.Some? then CancelledBooking else NoBooking;
      if record.status == Some(observed) {
        Commit(k, Ended);
        KeepsTransitive(start, met, state.row);
        return false;
      }
      outcomes.Reopen(id, moment);
      Commit(k, Resetting);
      KeepsTransitive(start, met, state.row);
      ghost var open := state.row;
      Interfere(k);
      ghost var last := state.row;
      SameObserved(Pass(record, rows, moment, Reopening), Resetting);
      outcomes.SetCurrent(id, observed, None, None, None, moment);
      Commit(k, Ended);
      KeepsTransitive(start, open, last);
      KeepsTransitive(start, last, state.row);
      return true;
    }
  }

  lemma SameQualifying(clock: Clock, p: Pass, pc: Pc)
    ensures QualifyingFor(clock, p.(pc := pc)) == QualifyingFor(clock, p)
  {
  }

  lemma KeepsTransitive(a: OutcomeRow, b: OutcomeRow, c: OutcomeRow)
    requires Keeps(a, b) && Keeps(b, c)
    ensures Keeps(a, c)
  {
  }

  lemma KeepsFirst(a: OutcomeRow, b: OutcomeRow)
    requires Keeps(a, b)
    ensures a.first.Some? ==> b.first == a.first
    ensures a.cancelledAfterBooking == Some(true) ==> b.cancelledAfterBooking == Some(true)
    ensures a.cancellationObservedAt.Some? ==> b.cancellationObservedAt.Some?
    ensures a.passCount <= b.passCount
  {
  }
}
