/**
 The cleanup runner as it is written: one pass, row after row, while other processes
 and people act on the same table between any two of its steps.

 Everything outside the pass is an `Environment` of oracles indexed by a step counter, so
 a statement about the pass is a statement about every environment.  The pass is shown
 to be a run of the protocol, which is what makes the protocol's promises its own.
 */
module CleanupRunner {
  import opened Wrappers
  import opened IsoStamps
  import opened CleanupOwnership
  import opened CleanupStore
  import opened CleanupProtocol
  import opened CleanupSafety
  import opened CleanupVerdicts

  datatype Environment = Environment(
    others: nat -> seq<Event>,        // what other parties do before step n
    picks: nat -> seq<string>,        // the ids a query returns, in its own order
    tokens: nat -> Token,             // uuid4
    banded: nat -> bool,              // bands_for(listing) is not None
    answers: nat -> ReadAnswer,       // the provider read
    switches: nat -> bool,            // both kill switches
    removals: nat -> RemoveAnswer,    // remove_override
    clock: nat -> Instant,            // datetime.now
    texts: nat -> string)             // details

  datatype Outcome = Outcome(
    recordId: string,
    listingId: string,
    stayDate: string,
    state: CleanupState,
    deleted: bool,
    committed: bool)

  datatype Reported = Settled(state: CleanupState) | OwnershipLost

  function ReportedState(o: Outcome): Reported {
    if o.committed then Reported.Settled(o.state) else OwnershipLost
  }

  function TokenOf(a: Action): Option<Token> {
    match a
    case Claim(_, token, _, _) => Some(token)
    case ReadProvider(token, _, _, _) => Some(token)
    case BeginDelete(token) => Some(token)
    case Remove(token, _) => Some(token)
    case Settle(token, _, _) => Some(token)
    case Release(token) => Some(token)
    case _ => None
  }

  /** An event that is not made with this token. */
  predicate Without(e: Event, token: Token) {
    e.Happened? ==> TokenOf(e.action) != Some(token)
  }

  /** Behind the fence: what is reported is what the provider answered. */
  predicate SentAs(o: Outcome, removal: RemoveAnswer) {
    if removal == WritesDisabled then o.state == Active && !o.deleted else o.deleted && FitsRemoval(o.state, removal)
  }

  predicate LostTheFence(o: Outcome) {
    o.state == DeleteStarted && !o.deleted && !o.committed
  }

  /** One row's outcome against all its pass was told: the bands, the read, the switches and the removal. */
  predicate ReportedAs(record: Row, banded: bool, answer: ReadAnswer, on: bool, removal: RemoveAnswer, o: Outcome) {
    if banded && Ours(record, answer) && on then LostTheFence(o) || SentAs(o, removal)
    else
      && !o.deleted
      && (o.state == Active <==> Reversible(record, banded, answer, on))
      && (o.state != Active ==> FitsRead(record, o.state, banded, answer))
  }

  /** Since then this pass asked for the row, and won it exactly if it was ACTIVE. */
  ghost predicate Tried(events: seq<Event>, since: nat, record: Row, won: bool) {
    exists n: nat :: TriedAt(events, since, record, won, n)
  }

  ghost predicate TriedAt(events: seq<Event>, since: nat, record: Row, won: bool, n: nat) {
    && since <= n < |events| && events[n].Happened? && events[n].id == record.id
    && events[n].action.Claim? && events[n].action.record == record
    && record.id in ExecEvents(events[..n]) && (won <==> ExecEvents(events[..n])[record.id].row.state == Active)
  }

  lemma JustTried(events: seq<Event>, since: nat, record: Row, token: Token, stamp: string, until: string, won: bool)
    requires since <= |events| && record.id in ExecEvents(events)
    requires won <==> ExecEvents(events)[record.id].row.state == Active
    ensures Tried(events + [Happened(record.id, Claim(record, token, stamp, until))], since, record, won)
  {
    hide ExecEvents;
    var all := events + [Happened(record.id, Claim(record, token, stamp, until))];
    assert all[..|events|] == events;
    assert TriedAt(all, since, record, won, |events|);
  }

  lemma TriedStays(events: seq<Event>, longer: seq<Event>, since: nat, earlier: nat, record: Row, won: bool)
    requires Tried(events, since, record, won) && events <= longer && earlier <= since
    ensures Tried(longer, earlier, record, won)
  {
    var n: nat :| TriedAt(events, since, record, won, n);
    assert longer[..n] == events[..n];
    assert TriedAt(longer, earlier, record, won, n);
  }

  ghost predicate IsTried(events: seq<Event>, since: nat, row: Row, outcomes: seq<Outcome>) {
    exists won :: Tried(events, since, row, won) && (won ==> exists o :: o in outcomes && o.recordId == row.id)
  }

  /** Each of these rows was asked for, and each one won has its outcome. */
  ghost predicate AllTried(events: seq<Event>, since: nat, rows: seq<Row>, outcomes: seq<Outcome>) {
    forall row :: row in rows ==> IsTried(events, since, row, outcomes)
  }

  lemma WonIsReported(events: seq<Event>, since: nat, row: Row, before: seq<Outcome>, o: Outcome)
    requires Tried(events, since, row, true) && o.recordId == row.id
    ensures IsTried(events, since, row, before + [o])
  {
    assert (before + [o])[|before|] == o;
  }

  lemma IsTriedStays(events: seq<Event>, longer: seq<Event>, since: nat, earlier: nat, row: Row, outcomes: seq<Outcome>,
                     more: seq<Outcome>)
    requires IsTried(events, since, row, outcomes) && events <= longer && earlier <= since && outcomes <= more
    ensures IsTried(longer, earlier, row, more)
  {
    hide Tried;
    var won :| Tried(events, since, row, won) && (won ==> exists o :: o in outcomes && o.recordId == row.id);
    TriedStays(events, longer, since, earlier, row, won);
    if won {
      var o :| o in outcomes && o.recordId == row.id;
      assert o in more;
    }
  }

  lemma AllTriedStays(events: seq<Event>, longer: seq<Event>, since: nat, rows: seq<Row>, outcomes: seq<Outcome>,
                      more: seq<Outcome>)
    requires AllTried(events, since, rows, outcomes) && events <= longer && outcomes <= more
    ensures AllTried(longer, since, rows, more)
  {
    hide IsTried;
    forall row | row in rows ensures IsTried(longer, since, row, more) {
      IsTriedStays(events, longer, since, since, row, outcomes, more);
    }
  }

  lemma AllTriedSince(events: seq<Event>, since: nat, earlier: nat, rows: seq<Row>, outcomes: seq<Outcome>)
    requires AllTried(events, since, rows, outcomes) && earlier <= since
    ensures AllTried(events, earlier, rows, outcomes)
  {
    hide IsTried;
    forall row | row in rows ensures IsTried(events, earlier, row, outcomes) {
      IsTriedStays(events, events, since, earlier, row, outcomes, outcomes);
    }
  }

  lemma NobodyTried(events: seq<Event>, since: nat, outcomes: seq<Outcome>)
    ensures AllTried(events, since, [], outcomes)
  {
  }

  lemma OneMoreTried(events: seq<Event>, since: nat, earlier: nat, rows: seq<Row>, i: nat, outcomes: seq<Outcome>)
    requires i < |rows| && earlier <= since
    requires AllTried(events, earlier, rows[..i], outcomes) && IsTried(events, since, rows[i], outcomes)
    ensures AllTried(events, earlier, rows[..i + 1], outcomes)
  {
    hide IsTried;
    IsTriedStays(events, events, since, earlier, rows[i], outcomes, outcomes);
    assert rows[..i + 1] == rows[..i] + [rows[i]];
  }

  /** The rows a query found in this table, in its own order. */
  ghost predicate Found(table: Table, ids: seq<string>, p: Row -> bool, rows: seq<Row>) {
    && (forall row :: row in rows ==> p(row))
    && forall id :: id in ids && id in table && p(table[id]) ==> table[id] in rows
  }

  /** A DELETE was attempted under this token. */
  ghost predicate SentBy(s: State, token: Token) {
    exists e :: e in s.log && e.token == token
  }

  function ApplyEvents(y: System, es: seq<Event>): System {
    if es == [] then y else ApplyEvent(ApplyEvents(y, es[..|es| - 1]), es[|es| - 1])
  }

  lemma {:induction false} ExecExtends(events: seq<Event>, es: seq<Event>)
    ensures ExecEvents(events + es) == ApplyEvents(ExecEvents(events), es)
  {
    if es == [] {
      assert events + es == events;
    } else {
      ExecExtends(events, es[..|es| - 1]);
      assert (events + es)[..|events| + |es| - 1] == events + es[..|es| - 1];
    }
  }

  lemma ActionKeepsAttempt(s: State, a: Action, token: Token)
    requires TokenOf(a) != Some(token)
    ensures token in Apply(s, a).attempts <==> token in s.attempts
    ensures token in s.attempts ==> Apply(s, a).attempts[token] == s.attempts[token]
    ensures SentBy(Apply(s, a), token) <==> SentBy(s, token)
  {
  }

  /** Nothing is forgotten: logs and row copies only grow. */
  ghost predicate Later(y: System, z: System) {
    forall id :: id in y ==>
      id in z && y[id].log <= z[id].log && y[id].candidates <= z[id].candidates && y[id].snapshots <= z[id].snapshots
  }

  /** The attempts under this environment's tokens stand where they stood. */
  ghost predicate Undisturbed(y: System, z: System, tokens: nat -> Token) {
    && (forall id, k: nat :: id in z ==>
          (tokens(k) in z[id].attempts <==> id in y && tokens(k) in y[id].attempts))
    && (forall id, k: nat :: id in y && id in z && tokens(k) in y[id].attempts && tokens(k) in z[id].attempts ==>
          z[id].attempts[tokens(k)] == y[id].attempts[tokens(k)])
    && (forall id, k: nat :: id in y && id in z ==> (SentBy(z[id], tokens(k)) <==> SentBy(y[id], tokens(k))))
  }

  lemma OthersActOnce(y: System, e: Event, tokens: nat -> Token)
    requires forall k: nat :: Without(e, tokens(k))
    ensures Later(y, ApplyEvent(y, e)) && Undisturbed(y, ApplyEvent(y, e), tokens)
  {
    if e.Happened? && e.id in y {
      forall k: nat ensures TokenOf(e.action) != Some(tokens(k)) {
        assert Without(e, tokens(k));
      }
      forall k: nat {
        ActionKeepsAttempt(y[e.id], e.action, tokens(k));
      }
      ActionKeepsCopies(y[e.id], e.action);
    }
  }

  lemma ActionKeepsCopies(s: State, a: Action)
    ensures s.log <= Apply(s, a).log
    ensures s.candidates <= Apply(s, a).candidates && s.snapshots <= Apply(s, a).snapshots
  {
  }

  lemma UndisturbedTransitive(x: System, y: System, z: System, tokens: nat -> Token)
    requires Later(x, y) && Later(y, z) && Undisturbed(x, y, tokens) && Undisturbed(y, z, tokens)
    ensures Later(x, z) && Undisturbed(x, z, tokens)
  {
    forall id, k: nat | id in z
      ensures tokens(k) in z[id].attempts <==> id in x && tokens(k) in x[id].attempts
    {
      assert tokens(k) in z[id].attempts <==> id in y && tokens(k) in y[id].attempts;
    }
  }

  /** Whatever the others do, they leave the attempts of this pass where they were. */
  lemma {:induction false} OthersAct(y: System, es: seq<Event>, tokens: nat -> Token)
    requires forall e, k: nat :: e in es ==> Without(e, tokens(k))
    ensures Later(y, ApplyEvents(y, es)) && Undisturbed(y, ApplyEvents(y, es), tokens)
  {
    if es != [] {
      var init := es[..|es| - 1];
      forall e, k: nat | e in init ensures Without(e, tokens(k)) {
        assert e in es;
      }
      OthersAct(y, init, tokens);
      assert es[|es| - 1] in es;
      OthersActOnce(ApplyEvents(y, init), es[|es| - 1], tokens);
      UndisturbedTransitive(y, ApplyEvents(y, init), ApplyEvents(y, es), tokens);
    }
  }

  /** The table as the runs of its records have left it. */
  function RowsOf(y: System): Table {
    map id | id in y :: y[id].row
  }

  lemma RowsAre(y: System, id: string)
    ensures id in RowsOf(y) <==> id in y
    ensures id in y ==> RowsOf(y)[id] == y[id].row
  {
  }

  /** A write to one row, seen from the table and from the runs. */
  lemma RowMoved(y: System, rows: Table, id: string, s: State)
    requires id in y && id in rows && OnlyMoves(RowsOf(y), rows, id) && rows[id] == s.row
    ensures rows == RowsOf(y[id := s])
  {
  }

  /** The ids of the table, in the order the rows came. */
  function InsertedBy(es: seq<Event>, ids: seq<string>): seq<string> {
    if es == [] then ids
    else
      var before := InsertedBy(es[..|es| - 1], ids);
      match es[|es| - 1]
      case Created(row) => if row.id in before || !Initial(Fresh(row)) then before else before + [row.id]
      case Happened(_, _) => before
  }

  ghost predicate Lists(ids: seq<string>, y: System) {
    && (forall id :: id in ids <==> id in y)
    && (forall i, j :: 0 <= i < j < |ids| ==> ids[i] != ids[j])
  }

  lemma {:induction false} InsertedAreListed(y: System, es: seq<Event>, ids: seq<string>)
    requires Lists(ids, y)
    ensures Lists(InsertedBy(es, ids), ApplyEvents(y, es))
  {
    if es != [] {
      InsertedAreListed(y, es[..|es| - 1], ids);
    }
  }

  class PricingCleanupRunner {
    const env: Environment
    const store: PricingCleanupStore
    var system: System
    ghost var events: seq<Event>
    var tick: nat
    var used: nat

    /** What happened is a run of events, and uuid4 never repeats a token anybody else has. */
    ghost predicate IsRun()
      reads this
    {
      && system == ExecEvents(events)
      && (forall i: nat, j: nat :: i != j ==> env.tokens(i) != env.tokens(j))
      && (forall n: nat, e, k: nat :: e in env.others(n) ==> Without(e, env.tokens(k)))
      && (forall id, k: nat :: id in system && used <= k ==> env.tokens(k) !in system[id].attempts)
    }

    /** And the table holds the rows of that run. */
    ghost predicate Valid()
      reads this, store
    {
      IsRun() && store.Valid() && store.rows == RowsOf(system)
    }

    constructor (env: Environment)
      requires forall i: nat, j: nat :: i != j ==> env.tokens(i) != env.tokens(j)
      requires forall n: nat, e, k: nat :: e in env.others(n) ==> Without(e, env.tokens(k))
      ensures Valid() && this.env == env && events == [] && used == 0 && fresh(store)
    {
      this.env := env;
      store := new PricingCleanupStore();
      system := map[];
      events := [];
      tick, used := 0, 0;
    }

    /** Anything the other processes and people do to the table before the next step of this pass. */
    method Interfere()
      requires Valid()
      modifies this`system, this`events, this`tick, store
      ensures Valid() && old(events) <= events
      ensures Later(old(system), system) && Undisturbed(old(system), system, env.tokens)
      ensures tick == old(tick) + 1
    {
      var es := env.others(tick);
      ExecExtends(events, es);
      OthersAct(system, es, env.tokens);
      InsertedAreListed(system, es, store.ids);
      system := ApplyEvents(system, es);
      store.rows, store.ids := RowsOf(system), InsertedBy(es, store.ids);
      events := events + es;
      tick := tick + 1;
    }

    /** One step of this pass; whatever it does to the row has been done by the store. */
    method Do(id: string, action: Action)
      requires IsRun() && store.Valid() && id in system && id in store.rows
      requires OnlyMoves(RowsOf(system), store.rows, id) && store.rows[id] == Apply(system[id], action).row
      requires forall k: nat :: used <= k ==> TokenOf(action) != Some(env.tokens(k))
      modifies this`system, this`events
      ensures Valid() && events == old(events) + [Happened(id, action)]
      ensures system == old(system)[id := Apply(old(system)[id], action)]
      ensures Later(old(system), system)
    {
      hide Apply, RowsOf, OnlyMoves;
      var e := Happened(id, action);
      RowMoved(system, store.rows, id, Apply(system[id], action));
      assert (events + [e])[..|events|] == events;
      forall k: nat | used <= k
        ensures env.tokens(k) in Apply(system[id], action).attempts <==> env.tokens(k) in system[id].attempts
      {
        ActionKeepsAttempt(system[id], action, env.tokens(k));
      }
      ActionKeepsCopies(system[id], action);
      system := ApplyEvent(system, e);
      events := events + [e];
    }

    /** A step of the attempt under token `k` that only asks the provider, after whatever the others did first. */
    method Ask(id: string, k: nat, action: Action) returns (ghost before: State)
      requires Valid() && k < used && id in system && env.tokens(k) in system[id].attempts
      requires TokenOf(action) == Some(env.tokens(k)) && (action.ReadProvider? || action.Remove?)
      modifies this`system, this`events, this`tick, store
      ensures Valid() && old(events) <= events && Later(old(system), system)
      ensures env.tokens(k) in before.attempts
      ensures before.attempts[env.tokens(k)] == old(system)[id].attempts[env.tokens(k)]
      ensures SentBy(before, env.tokens(k)) <==> SentBy(old(system)[id], env.tokens(k))
      ensures id in system && system[id] == Apply(before, action)
      ensures tick == old(tick) + 1
    {
      hide Apply, RowsOf, ExecEvents;
      Interfere();
      before := system[id];
      AskingWritesNothing(before, action);
      RowsAre(system, id);
      Do(id, action);
    }

    /** This pass holds the attempt, and nothing has been sent under its token. */
    ghost predicate At(id: string, k: nat, record: Row, pc: Pc)
      reads this
    {
      && k < used && id in system
      && env.tokens(k) in system[id].attempts
      && system[id].attempts[env.tokens(k)] == Attempt(record, pc)
      && !SentBy(system[id], env.tokens(k))
    }

    function Report(record: Row, state: CleanupState, deleted: bool, committed: bool): Outcome {
      Outcome(record.id, record.origin.listingId, record.origin.stayDate, state, deleted, committed)
    }

    /** `_resolve`: commit the verdict, and report only what landed. */
    method Resolve(record: Row, k: nat, verdict: CleanupState, deleted: bool) returns (o: Outcome)
      requires Valid() && k < used && record.id in system
      requires env.tokens(k) in system[record.id].attempts
      requires system[record.id].attempts[env.tokens(k)] == Attempt(record, Settling(verdict, deleted))
      modifies this`system, this`events, this`tick, store
      ensures Valid() && old(events) <= events && Later(old(system), system)
      ensures o == Report(record, verdict, deleted, o.committed)
      ensures o.committed ==> system[record.id].row.state == verdict && system[record.id].row.claimToken == None
      ensures SentBy(system[record.id], env.tokens(k)) <==> SentBy(old(system)[record.id], env.tokens(k))
    {
      hide Apply, RowsOf, ExecEvents, ResolvedRow, OnlyMoves, Iso;
      var token, detail, now := env.tokens(k), env.texts(tick), env.clock(tick);
      Interfere();
      ghost var before := system[record.id];
      SettleLands(before, token, detail, Iso(now));
      RowsAre(system, record.id);
      var committed := store.Resolve(record.id, verdict, detail, token, now);
      Do(record.id, Settle(token, detail, Iso(now)));
      o := Report(record, verdict, deleted, committed);
    }

    /** `_resolve` where nothing was sent. */
    method ResolveRead(record: Row, k: nat, verdict: CleanupState) returns (o: Outcome)
      requires Valid() && At(record.id, k, record, Settling(verdict, false))
      modifies this`system, this`events, this`tick, store
      ensures Valid() && old(events) <= events && Later(old(system), system)
      ensures o == Report(record, verdict, false, o.committed) && !SentBy(system[record.id], env.tokens(k))
      ensures o.committed ==> system[record.id].row.state == verdict
    {
      hide SentBy, Valid, Later;
      o := Resolve(record, k, verdict, false);
    }

    /** The paths that decide nothing: the answer of `release` is not looked at. */
    method PutDown(record: Row, k: nat) returns (o: Outcome)
      requires Valid() && At(record.id, k, record, Releasing)
      modifies this`system, this`events, this`tick, store
      ensures Valid() && old(events) <= events && Later(old(system), system)
      ensures o == Report(record, Active, false, true)
      ensures !SentBy(system[record.id], env.tokens(k))
    {
      hide Apply, RowsOf, ExecEvents, ReleasedRow, OnlyMoves;
      var token := env.tokens(k);
      Interfere();
      ReleaseLands(system[record.id], token);
      RowsAre(system, record.id);
      var released := store.Release(record.id, token);
      Do(record.id, Release(token));
      o := Report(record, Active, false, true);
    }

    /** The fence: true when this pass now stands behind it. */
    method BeginDeleteRow(record: Row, k: nat, proof: Proof) returns (begun: bool)
      requires Valid() && At(record.id, k, record, Proven(proof))
      modifies this`system, this`events, this`tick, store
      ensures Valid() && old(events) <= events && Later(old(system), system)
      ensures record.id in system && !SentBy(system[record.id], env.tokens(k))
      ensures begun ==> At(record.id, k, record, Fenced(proof))
      ensures tick == old(tick) + 1
    {
      hide Apply, RowsOf, ExecEvents, FencedRow, OnlyMoves;
      var token := env.tokens(k);
      Interfere();
      FenceLeads(system[record.id], token);
      RowsAre(system, record.id);
      begun := store.BeginDelete(record.id, token);
      Do(record.id, BeginDelete(token));
    }

    /** `_process` from the fence on: everything below it may reach a third party. */
    method DeleteProven(record: Row, k: nat, proof: Proof) returns (o: Outcome)
      requires Valid() && At(record.id, k, record, Proven(proof))
      modifies this`system, this`events, this`tick, store
      ensures Valid() && old(events) <= events && Later(old(system), system)
      ensures o.recordId == record.id
      ensures o.deleted <==> SentBy(system[record.id], env.tokens(k))
      ensures o.committed && o.state != Active ==> system[record.id].row.state == o.state
      ensures o.state == Active ==> !o.deleted && o.committed
      ensures !o.deleted ==> o.state != CleanedUp && o.state != UnknownCleanupState
      ensures LostTheFence(o) || SentAs(o, env.removals(old(tick) + 1))
    {
      hide IsRun, RowsOf, SentBy;
      var begun := BeginDeleteRow(record, k, proof);
      if !begun {
        return Report(record, DeleteStarted, false, false);
      }
      o := SendDelete(record, k, proof);
    }

    /** `remove_override` and what becomes of its answer. */
    method SendDelete(record: Row, k: nat, proof: Proof) returns (o: Outcome)
      requires Valid() && At(record.id, k, record, Fenced(proof))
      modifies this`system, this`events, this`tick, store
      ensures Valid() && old(events) <= events && Later(old(system), system)
      ensures o.recordId == record.id
      ensures o.deleted <==> SentBy(system[record.id], env.tokens(k))
      ensures o.committed && o.state != Active ==> system[record.id].row.state == o.state
      ensures o.state == Active ==> !o.deleted && o.committed
      ensures !o.deleted ==> o.state == Active
      ensures SentAs(o, env.removals(old(tick)))
    {
      hide Apply, RowsOf, ExecEvents, AfterRemove, FitsRemoval;
      var token, answer := env.tokens(k), env.removals(tick);
      ghost var before := Ask(record.id, k, Remove(token, answer));
      RemoveLeads(before, token, answer);
      RemoveDecides(answer);
      if answer.WritesDisabled? {
        o := PutDown(record, k);
      } else {
        o := Resolve(record, k, AfterRemove(answer).verdict, true);
      }
    }

    /** What the provider shows, and the step it leads to. */
    method ReadRow(record: Row, k: nat) returns (pc: Pc)
      requires Valid() && At(record.id, k, record, Holding)
      modifies this`system, this`events, this`tick, store
      ensures Valid() && old(events) <= events && Later(old(system), system)
      ensures pc == AfterRead(record, env.banded(old(tick)), env.answers(old(tick)), env.switches(old(tick)))
      ensures At(record.id, k, record, pc) && tick == old(tick) + 1
      ensures pc.Releasing? || pc.Proven? || (pc.Settling? && !pc.deleted && (pc.verdict == NeedsReview || pc.verdict == Vanished))
    {
      hide Apply, RowsOf, ExecEvents, AfterRead, IsRun, Later, Valid, Undisturbed;
      var token := env.tokens(k);
      var banded, answer, on := env.banded(tick), env.answers(tick), env.switches(tick);
      ghost var before := Ask(record.id, k, ReadProvider(token, banded, answer, on));
      pc := AfterRead(record, banded, answer, on);
      ReadLeads(before, token, banded, answer, on);
    }

    /** `_process`: one claimed row, from the provider read to the verdict. */
    method Process(record: Row, k: nat) returns (o: Outcome)
      requires Valid() && At(record.id, k, record, Holding)
      modifies this`system, this`events, this`tick, store
      ensures Valid() && old(events) <= events && Later(old(system), system)
      ensures o.recordId == record.id
      ensures o.deleted <==> SentBy(system[record.id], env.tokens(k))
      ensures o.committed && o.state != Active ==> system[record.id].row.state == o.state
      ensures o.state == Active ==> !o.deleted && o.committed
      ensures !o.deleted ==> o.state != CleanedUp && o.state != UnknownCleanupState
      ensures ReportedAs(record, env.banded(old(tick)), env.answers(old(tick)), env.switches(old(tick)),
                         env.removals(old(tick) + 2), o)
    {
      hide Apply, RowsOf, ExecEvents, AfterRead, IsRun, Valid, Later, SentBy, SentAs, LostTheFence, ReportedAs, CheckOwnership, At;
      ghost var was := system;
      ghost var banded, answer, on := env.banded(tick), env.answers(tick), env.switches(tick);
      ghost var removal := env.removals(tick + 2);
      var pc := ReadRow(record, k);
      ghost var between := system;
      if pc.Releasing? {
        o := PutDown(record, k);
      } else if pc.Settling? {
        o := ResolveRead(record, k, pc.verdict);
      } else {
        o := DeleteProven(record, k, pc.proof);
      }
      ReadingReported(record, banded, answer, on, removal, o);
      LaterTransitive(was, between, system);
    }

    /** `_reconcile` with the row copy the query returned: a provider read for the text, no DELETE. */
    method Reconcile(copy: Row) returns (o: Outcome)
      requires Valid() && copy.id in system && copy in system[copy.id].snapshots
      modifies this`system, this`events, this`tick, store
      ensures Valid() && old(events) <= events && Later(old(system), system)
      ensures o == Report(copy, NeedsReview, false, o.committed)
      ensures o.committed ==> system[copy.id].row.state == NeedsReview && system[copy.id].row.claimToken == None
    {
      hide Apply, RowsOf, IsRun, Undisturbed, ResolvedRow, ResolvedUnclaimedRow, OnlyMoves, Iso;
      var detail, now := env.texts(tick), env.clock(tick);
      Interfere();
      ReconcileLands(system[copy.id], copy, detail, Iso(now));
      RowsAre(system, copy.id);
      var committed;
      if copy.claimToken.Some? {
        committed := store.Resolve(copy.id, NeedsReview, detail, copy.claimToken.value, now);
      } else {
        committed := store.ResolveUnclaimed(copy.id, NeedsReview, detail, now);
      }
      Do(copy.id, Action.Reconcile(copy, detail, Iso(now)));
      o := Report(copy, NeedsReview, false, committed);
    }

    method CopyExpired(id: string, moment: string) returns (row: Row)
      requires Valid() && id in store.rows && IsExpired(store.rows[id], moment)
      modifies this`system, this`events
      ensures Valid() && old(events) <= events && Later(old(system), system)
      ensures row == store.rows[id] && row.id == id && id in system && row in system[id].snapshots
    {
      hide RowsOf, ExecEvents, Inv;
      RowsAre(system, id);
      RecordKeepsInv(events, id);
      row := store.rows[id];
      CopyingWritesNothing(system[id], ReadExpired(moment));
      Do(id, ReadExpired(moment));
    }

    /** `expired_claims`: the copies a reconciler carries away. */
    method ReadExpiredRows(moment: string) returns (rows: seq<Row>)
      requires Valid()
      modifies this`system, this`events
      ensures Valid() && old(events) <= events && Later(old(system), system)
      ensures forall row :: row in rows ==> row.id in system && row in system[row.id].snapshots
      ensures Found(store.rows, env.picks(tick), (row: Row) => IsExpired(row, moment), rows)
    {
      hide RowsOf, ExecEvents;
      rows := [];
      var ids, i := env.picks(tick), 0;
      while i < |ids|
        invariant i <= |ids|
        invariant Valid() && old(events) <= events && Later(old(system), system)
        invariant forall row :: row in rows ==> row.id in system && row in system[row.id].snapshots
        invariant Found(store.rows, ids[..i], (row: Row) => IsExpired(row, moment), rows)
      {
        if ids[i] in store.rows && IsExpired(store.rows[ids[i]], moment) {
          var row := CopyExpired(ids[i], moment);
          rows := rows + [row];
        }
        i := i + 1;
      }
      assert ids[..i] == ids;
    }

    method CopyDue(id: string, moment: string) returns (row: Row)
      requires Valid() && id in store.rows && IsDue(store.rows[id], moment)
      modifies this`system, this`events
      ensures Valid() && old(events) <= events && Later(old(system), system)
      ensures row == store.rows[id] && row.id == id && id in system && row in system[id].candidates
    {
      hide RowsOf, ExecEvents, Inv;
      RowsAre(system, id);
      RecordKeepsInv(events, id);
      row := store.rows[id];
      CopyingWritesNothing(system[id], ReadDue(moment));
      Do(id, ReadDue(moment));
    }

    /** `due`: the rows a pass may attempt. */
    method ReadDueRows(moment: string) returns (rows: seq<Row>)
      requires Valid()
      modifies this`system, this`events
      ensures Valid() && old(events) <= events && Later(old(system), system)
      ensures AreCandidates(system, rows)
      ensures Found(store.rows, env.picks(tick), (row: Row) => IsDue(row, moment), rows)
    {
      hide RowsOf, ExecEvents;
      rows := [];
      var ids, i := env.picks(tick), 0;
      while i < |ids|
        invariant i <= |ids|
        invariant Valid() && old(events) <= events && Later(old(system), system)
        invariant forall row :: row in rows ==> row.id in system && row in system[row.id].candidates
        invariant Found(store.rows, ids[..i], (row: Row) => IsDue(row, moment), rows)
      {
        if ids[i] in store.rows && IsDue(store.rows[ids[i]], moment) {
          var row := CopyDue(ids[i], moment);
          rows := rows + [row];
        }
        i := i + 1;
      }
      assert ids[..i] == ids;
    }

    /** `claim` with a fresh token; true when this pass now holds the row. */
    method ClaimRow(record: Row, now: Moment) returns (ok: bool)
      requires Valid() && record.id in system && record in system[record.id].candidates
      modifies this`system, this`events, this`tick, this`used, store
      ensures Valid() && old(events) <= events && Later(old(system), system)
      ensures used == old(used) + 1
      ensures ok ==> At(record.id, old(used), record, Holding)
      ensures Tried(events, |old(events)|, record, ok)
    {
      hide Apply, RowsOf, ExecEvents, ClaimedRow, OnlyMoves, Inv, Iso, Tried;
      Interfere();
      var k := used;
      used := used + 1;
      RecordKeepsInv(events, record.id);
      ClaimLeads(system[record.id], record, env.tokens(k), Iso(now), Iso(LeaseEnd(now)));
      RowsAre(system, record.id);
      ok := store.Claim(record.id, env.tokens(k), now);
      JustTried(events, |old(events)|, record, env.tokens(k), Iso(now), Iso(LeaseEnd(now)), ok);
      Do(record.id, Claim(record, env.tokens(k), Iso(now), Iso(LeaseEnd(now))));
    }

    /**
     `run_once`.  The pass is a run of the protocol, whatever happens around it; every reported
     deletion is a logged DELETE, and no two of them are for one record.  It settles every lapsed
     claim its query showed, asks for every due row, and reports each one it won.
     */
    method RunOnce(now: Moment) returns (outcomes: seq<Outcome>, ghost due: seq<Row>, ghost at: nat, ghost met: nat)
      requires Valid()
      modifies this`system, this`events, this`tick, this`used, store
      ensures Valid() && old(events) <= events && Later(old(system), system)
      ensures Accounted(system, outcomes)
      ensures SettlesAll(old(store.rows), env.picks(old(tick)), Iso(now), outcomes)
      ensures |old(events)| <= met <= |events|
      ensures Found(RowsOf(ExecEvents(events[..met])), env.picks(at), (row: Row) => IsDue(row, Iso(now)), due)
      ensures AllTried(events, |old(events)|, due, outcomes)
    {
      hide RowsOf, ExecEvents, IsExpired, IsDue;
      var settled := ReconcileAll(Iso(now));
      ghost var before := events;
      outcomes, due, at, met := ProcessAll(settled, now);
      assert settled <= outcomes;
      AllTriedSince(events, |before|, |old(events)|, due, outcomes);
    }

    method ReconcileAll(moment: string) returns (outcomes: seq<Outcome>)
      requires Valid()
      modifies this`system, this`events, this`tick, store
      ensures Valid() && old(events) <= events && Later(old(system), system)
      ensures Accounted(system, outcomes) && forall o :: o in outcomes ==> !o.deleted
      ensures SettlesAll(old(store.rows), env.picks(old(tick)), moment, outcomes)
    {
      hide RowsOf, ExecEvents, IsRun, IsExpired;
      outcomes := [];
      var expired := ReadExpiredRows(moment);
      var i := 0;
      while i < |expired|
        invariant Valid() && old(events) <= events && Later(old(system), system)
        invariant forall row :: row in expired ==> row.id in system && row in system[row.id].snapshots
        invariant forall o :: o in outcomes ==> o.recordId in system && !o.deleted
        invariant i <= |expired| && |outcomes| == i
        invariant forall j :: 0 <= j < i ==> outcomes[j].recordId == expired[j].id && outcomes[j].state == NeedsReview
      {
        var o := Reconcile(expired[i]);
        outcomes := outcomes + [o];
        i := i + 1;
      }
    }

    method ProcessAll(before: seq<Outcome>, now: Moment)
      returns (outcomes: seq<Outcome>, ghost tried: seq<Row>, ghost at: nat, ghost met: nat)
      requires Valid() && Accounted(system, before)
      modifies this`system, this`events, this`tick, this`used, store
      ensures Valid() && old(events) <= events && Later(old(system), system)
      ensures Accounted(system, outcomes) && before <= outcomes
      ensures |old(events)| <= met <= |events|
      ensures Found(RowsOf(ExecEvents(events[..met])), env.picks(at), (row: Row) => IsDue(row, Iso(now)), tried)
      ensures AllTried(events, |old(events)|, tried, outcomes)
    {
      hide IsRun, RowsOf, Accounted, Undisturbed, Later, AreCandidates, AllTried, IsDue, ExecEvents;
      outcomes := before;
      Interfere();
      ghost var start := system;
      met, at := |events|, tick;
      ghost var shown := events;
      TableIsOfTheRun();
      var due := ReadDueRows(Iso(now));
      tried := due;
      LaterTransitive(old(system), start, system);
      AccountedLater(old(system), system, outcomes);
      var i := 0;
      NobodyTried(events, |old(events)|, outcomes);
      assert due[..0] == [];
      while i < |due|
        invariant Valid() && old(events) <= events && Later(old(system), system) && shown <= events
        invariant AreCandidates(system, due) && i <= |due|
        invariant Accounted(system, outcomes) && before <= outcomes
        invariant AllTried(events, |old(events)|, due[..i], outcomes)
      {
        ghost var start, earlier, had := system, events, outcomes;
        IsCandidate(system, due, i);
        outcomes := ProcessOne(due[i], outcomes, now);
        LaterTransitive(old(system), start, system);
        CandidatesLater(start, system, due);
        AllTriedStays(earlier, events, |old(events)|, due[..i], had, outcomes);
        OneMoreTried(events, |earlier|, |old(events)|, due, i, outcomes);
        i := i + 1;
      }
      assert due[..|due|] == due;
      assert events[..met] == shown;
    }

    lemma TableIsOfTheRun()
      requires Valid()
      ensures store.rows == RowsOf(ExecEvents(events))
    {
    }

    /** The body of the pass's loop: a row that is not won is skipped without a provider call. */
    method ProcessOne(record: Row, before: seq<Outcome>, now: Moment) returns (outcomes: seq<Outcome>)
      requires Valid() && Accounted(system, before)
      requires record.id in system && record in system[record.id].candidates
      modifies this`system, this`events, this`tick, this`used, store
      ensures Valid() && old(events) <= events && Later(old(system), system)
      ensures Accounted(system, outcomes) && before <= outcomes
      ensures IsTried(events, |old(events)|, record, outcomes)
      ensures |outcomes| <= |before| + 1
    {
      hide Accounted, Inv, Apply, ExecEvents, Tried, ReportedAs, RowsOf;
      var claimed := ClaimRow(record, now);
      AccountedLater(old(system), system, before);
      if !claimed {
        assert IsTried(events, |old(events)|, record, before);
        return before;
      }
      ghost var held, asked := system, events;
      var o := Process(record, used - 1);
      AccountedLater(held, system, before);
      RecordKeepsInv(events, record.id);
      if o.deleted {
        FirstDelete(held[record.id], system[record.id], env.tokens(used - 1));
      }
      outcomes := before + [o];
      AccountedGrows(held, system, before, o);
      TriedStays(asked, events, |old(events)|, |old(events)|, record, true);
      WonIsReported(events, |old(events)|, record, before, o);
    }
  }

  /** Every lapsed claim that the query shows is reported NEEDS_REVIEW. */
  ghost predicate SettlesAll(table: Table, ids: seq<string>, moment: string, outcomes: seq<Outcome>) {
    forall id :: id in ids && id in table && IsExpired(table[id], moment) ==>
      exists o :: o in outcomes && o.recordId == table[id].id && o.state == NeedsReview
  }

  /**
   What a pass may say about the outcomes it collected: each reported deletion has its
   record's DELETE in the log, and no two of them are for one record.
   */
  ghost predicate Accounted(y: System, outcomes: seq<Outcome>) {
    && (forall o :: o in outcomes ==> o.recordId in y && (o.deleted ==> y[o.recordId].log != []))
    && (forall i, j :: 0 <= i < j < |outcomes| && outcomes[i].deleted && outcomes[j].deleted ==>
          outcomes[i].recordId != outcomes[j].recordId)
  }

  ghost predicate AreCandidates(y: System, rows: seq<Row>) {
    forall row :: row in rows ==> row.id in y && row in y[row.id].candidates
  }

  lemma IsCandidate(y: System, rows: seq<Row>, i: nat)
    requires AreCandidates(y, rows) && i < |rows|
    ensures rows[i].id in y && rows[i] in y[rows[i].id].candidates
  {
  }

  lemma CandidatesLater(y: System, z: System, rows: seq<Row>)
    requires AreCandidates(y, rows) && Later(y, z)
    ensures AreCandidates(z, rows)
  {
  }

  lemma LaterTransitive(x: System, y: System, z: System)
    requires Later(x, y) && Later(y, z)
    ensures Later(x, z)
  {
  }

  lemma AccountedLater(y: System, z: System, outcomes: seq<Outcome>)
    requires Later(y, z) && Accounted(y, outcomes)
    ensures Accounted(z, outcomes)
  {
    forall o | o in outcomes ensures o.recordId in z && (o.deleted ==> z[o.recordId].log != []) {
      assert o.recordId in y;
    }
  }

  lemma AccountedGrows(y: System, z: System, outcomes: seq<Outcome>, o: Outcome)
    requires Accounted(y, outcomes) && Accounted(z, outcomes) && o.recordId in y && o.recordId in z
    requires o.deleted ==> y[o.recordId].log == [] && z[o.recordId].log != []
    ensures Accounted(z, outcomes + [o])
  {
    if o.deleted {
      forall i | 0 <= i < |outcomes| && outcomes[i].deleted ensures outcomes[i].recordId != o.recordId {
        assert outcomes[i] in outcomes;
      }
    }
  }

  lemma ClaimLeads(s: State, record: Row, token: Token, stamp: string, until: string)
    requires Inv(s) && record in s.candidates && token !in s.attempts
    ensures
      var q := Apply(s, Claim(record, token, stamp, until));
      && q.row == ClaimedRow(s.row, token, stamp, until)
      && (s.row.state == Active ==>
        token in q.attempts && q.attempts[token] == Attempt(record, Holding) && !SentBy(q, token))
  {
  }

  lemma FirstDelete(before: State, after: State, token: Token)
    requires before.log <= after.log && |after.log| <= 1
    requires SentBy(after, token) && !SentBy(before, token)
    ensures before.log == []
  {
  }

  /** `summarise`: how many outcomes reported each state, and how many attempted a DELETE. */
  method Summarise(outcomes: seq<Outcome>) returns (counts: map<Reported, nat>, deleted: nat)
    ensures forall r :: (if r in counts then counts[r] else 0) == Tally(outcomes, r)
    ensures deleted == Deletions(outcomes)
  {
    counts, deleted := map[], 0;
    var i := 0;
    while i < |outcomes|
      invariant 0 <= i <= |outcomes|
      invariant forall r :: (if r in counts then counts[r] else 0) == Tally(outcomes[..i], r)
      invariant deleted == Deletions(outcomes[..i])
    {
      assert outcomes[..i + 1][..i] == outcomes[..i];
      var r := ReportedState(outcomes[i]);
      counts := counts[r := (if r in counts then counts[r] else 0) + 1];
      if outcomes[i].deleted { deleted := deleted + 1; }
      i := i + 1;
    }
    assert outcomes[..i] == outcomes;
  }

  function Tally(outcomes: seq<Outcome>, r: Reported): nat {
    if outcomes == [] then 0
    else Tally(outcomes[..|outcomes| - 1], r) + if ReportedState(outcomes[|outcomes| - 1]) == r then 1 else 0
  }

  function Deletions(outcomes: seq<Outcome>): nat {
    if outcomes == [] then 0
    else Deletions(outcomes[..|outcomes| - 1]) + if outcomes[|outcomes| - 1].deleted then 1 else 0
  }

  lemma ReadLeads(s: State, token: Token, banded: bool, answer: ReadAnswer, on: bool)
    requires token in s.attempts && s.attempts[token].pc.Holding?
    ensures
      var q := Apply(s, ReadProvider(token, banded, answer, on));
      var pc := AfterRead(s.attempts[token].record, banded, answer, on);
      && token in q.attempts && q.attempts[token] == s.attempts[token].(pc := pc) && q.log == s.log
      && (pc.Releasing? || pc.Proven? || (pc.Settling? && !pc.deleted && pc.verdict in {NeedsReview, Vanished}))
  {
  }

  lemma ReadDecides(record: Row, banded: bool, answer: ReadAnswer, on: bool)
    ensures
      var pc := AfterRead(record, banded, answer, on);
      && (pc.Releasing? <==> Reversible(record, banded, answer, on))
      && (pc.Proven? <==> banded && Ours(record, answer) && on)
      && (pc.Settling? ==> pc.verdict != Active && FitsRead(record, pc.verdict, banded, answer))
  {
    hide CheckOwnership;
  }

  /** So what is reported fits what was read, whichever way it went. */
  lemma ReadingReported(record: Row, banded: bool, answer: ReadAnswer, on: bool, removal: RemoveAnswer, o: Outcome)
    requires
      match AfterRead(record, banded, answer, on)
      case Releasing => o.state == Active && !o.deleted
      case Settling(verdict, _) => o.state == verdict && !o.deleted
      case _ => LostTheFence(o) || SentAs(o, removal)
    ensures ReportedAs(record, banded, answer, on, removal, o)
  {
    ReadDecides(record, banded, answer, on);
    hide CheckOwnership, FitsRead, Ours, Reversible, SentAs, LostTheFence;
  }

  lemma RemoveDecides(answer: RemoveAnswer)
    ensures
      var pc := AfterRemove(answer);
      if answer == WritesDisabled then pc == Releasing
      else
        && pc.Settling? && pc.deleted && FitsRemoval(pc.verdict, answer)
        && (pc.verdict == CleanedUp || pc.verdict == UnknownCleanupState || pc.verdict == NeedsReview)
  {
  }

  lemma AskingWritesNothing(s: State, a: Action)
    requires a.ReadProvider? || a.Remove?
    ensures Apply(s, a).row == s.row
  {
  }

  lemma CopyingWritesNothing(s: State, a: Action)
    requires a.ReadDue? || a.ReadExpired?
    ensures Apply(s, a).row == s.row
  {
  }

  lemma ReleaseLands(s: State, token: Token)
    requires token in s.attempts && s.attempts[token].pc.Releasing?
    ensures
      var q := Apply(s, Release(token));
      q.row == ReleasedRow(s.row, token) && q.log == s.log && token in q.attempts
  {
  }

  lemma ReconcileLands(s: State, copy: Row, detail: string, stamp: string)
    requires copy in s.snapshots
    ensures
      Apply(s, Action.Reconcile(copy, detail, stamp)).row ==
      if copy.claimToken.Some? then ResolvedRow(s.row, NeedsReview, detail, copy.claimToken.value, stamp)
      else ResolvedUnclaimedRow(s.row, NeedsReview, detail, stamp)
  {
  }

  lemma FenceLeads(s: State, token: Token)
    requires token in s.attempts && s.attempts[token].pc.Proven?
    ensures
      var q := Apply(s, BeginDelete(token));
      && token in q.attempts && q.log == s.log && q.row == FencedRow(s.row, token)
      && q.attempts[token] == s.attempts[token].(pc := q.attempts[token].pc)
      && (q.attempts[token].pc == Fenced(s.attempts[token].pc.proof) <==> MayBeginDelete(s.row, token))
      && (q.attempts[token].pc.Fenced? <==> MayBeginDelete(s.row, token))
  {
  }

  lemma RemoveLeads(s: State, token: Token, answer: RemoveAnswer)
    requires token in s.attempts && s.attempts[token].pc.Fenced?
    ensures
      var q := Apply(s, Remove(token, answer));
      && token in q.attempts && q.attempts[token] == s.attempts[token].(pc := AfterRemove(answer))
      && (answer.WritesDisabled? ==> q.log == s.log)
      && (!answer.WritesDisabled? ==> SentBy(q, token) && AfterRemove(answer).Settling?)
  {
    if !answer.WritesDisabled? {
      var q := Apply(s, Remove(token, answer));
      assert q.log[|q.log| - 1].token == token;
    }
  }

  lemma SettleLands(s: State, token: Token, detail: string, stamp: string)
    requires token in s.attempts && s.attempts[token].pc.Settling?
    ensures
      var q := Apply(s, Settle(token, detail, stamp));
      && q.log == s.log && token in q.attempts && q.attempts[token].pc == Done(HeldBy(s.row, token))
      && q.row == ResolvedRow(s.row, s.attempts[token].pc.verdict, detail, token, stamp)
      && (HeldBy(s.row, token) ==> q.row.state == s.attempts[token].pc.verdict && q.row.claimToken == None)
  {
  }
}
