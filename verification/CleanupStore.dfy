/**
 The table of temporary overrides awaiting cleanup.

 Each store call is one committed UPDATE: a guard over one row, and the fields it sets.
 The functions give the row after the call; `PricingCleanupStore` performs it.
 */
module CleanupStore {
  import opened Wrappers
  import opened Texts
  import opened Sorting
  import opened IsoStamps
  import opened CleanupOwnership

  type Token = string

  datatype CleanupState =
    | PendingWrite
    | Active
    | Claimed
    | DeleteStarted
    | CleanedUp
    | Vanished
    | NeedsReview
    | UnknownCleanupState
    | ManuallyResolved

  const TERMINAL_STATES: set<CleanupState> :=
    {CleanedUp, Vanished, NeedsReview, UnknownCleanupState, ManuallyResolved}

  /** The states a person may close by hand: the ones automation has already given up on. */
  predicate ManuallyResolvable(s: CleanupState) {
    s == NeedsReview || s == UnknownCleanupState
  }

  const CLAIM_LEASE_SECONDS: nat := 900

  /** A clock reading from which a lease can still be computed. */
  type Moment = t: nat | t + CLAIM_LEASE_SECONDS * MICROS_PER_SECOND < INSTANT_LIMIT witness 0

  function LeaseEnd(now: Moment): Instant {
    now + CLAIM_LEASE_SECONDS * MICROS_PER_SECOND
  }

  datatype Origin = Origin(
    listingId: string,
    pms: string,
    stayDate: string,
    oldPrice: Option<real>,
    currency: string,
    approvalId: Option<string>,
    runId: Option<string>,
    createdAt: string)

  datatype Row = Row(
    id: string,
    origin: Origin,
    identity: Identity,
    cleanupAt: string,
    state: CleanupState,
    reasonSent: Option<string>,
    claimToken: Option<Token>,
    claimedAt: Option<string>,
    leaseUntil: Option<string>,
    resolution: Option<string>,
    resolvedAt: Option<string>,
    manualResolution: Option<string>,
    resolvedByUserId: Option<string>,
    manuallyResolvedAt: Option<string>)

  type Table = map<string, Row>

  // -- the writer's side -------------------------------------------------

  function IntentRow(id: string, origin: Origin, newPrice: real, cleanupAt: string): Row {
    Row(id, origin, Identity(false, Some(id), newPrice, None), cleanupAt, PendingWrite,
        None, None, None, None, None, None, None, None, None)
  }

  function AdoptedRow(id: string, origin: Origin, newPrice: real, cleanupAt: string,
                      providerCreatedAt: Option<string>, resolution: string): Row
  {
    Row(id, origin.(oldPrice := None), Identity(true, None, newPrice, providerCreatedAt), cleanupAt, Active,
        None, None, None, None, Some(resolution), None, None, None, None)
  }

  function ReasonSent(r: Row, reason: string): Row {
    if r.state == PendingWrite then r.(reasonSent := Some(reason)) else r
  }

  /** `resolve` without a token: unconditional. */
  function Settled(r: Row, state: CleanupState, resolution: string, stamp: string): Row {
    r.(state := state, resolution := Some(resolution), resolvedAt := Some(stamp),
       claimToken := None, leaseUntil := None)
  }

  /** Whether `mark_active` refuses to call the override confirmed. */
  predicate CannotConfirm(r: Row, createdAt: Option<string>, updatedAt: Option<string>) {
    !r.identity.adopted && (!Truthy(createdAt) || (updatedAt.Some? && updatedAt != createdAt))
  }

  const NOT_CONFIRMED := "the override cannot be verified as ours later and needs a person"

  function MarkedActive(r: Row, createdAt: Option<string>, updatedAt: Option<string>, reason: string,
                        stamp: string): Row
  {
    if CannotConfirm(r, createdAt, updatedAt) then Settled(r, NeedsReview, NOT_CONFIRMED, stamp)
    else r.(state := Active, identity := r.identity.(providerCreatedAt := createdAt), reasonSent := Some(reason))
  }

  /** Closed with this verdict, the claim gone, and all else as it was. */
  ghost predicate IsSettled(before: Row, after: Row, state: CleanupState, stamp: string) {
    && after.state == state && after.resolvedAt == Some(stamp) && after.resolution.Some?
    && after == before.(state := after.state, resolution := after.resolution, resolvedAt := after.resolvedAt,
                        claimToken := None, leaseUntil := None)
  }

  /** Nobody has claimed, settled or closed it. */
  ghost predicate Untouched(row: Row) {
    && row.reasonSent.None? && row.claimToken.None? && row.claimedAt.None? && row.leaseUntil.None? && row.resolvedAt.None?
    && row.manualResolution.None? && row.resolvedByUserId.None? && row.manuallyResolvedAt.None?
  }

  /** The call changed at most this row. */
  ghost predicate OnlyMoves(before: Table, after: Table, id: string) {
    after.Keys == before.Keys && forall other :: other in before && other != id ==> after[other] == before[other]
  }

  // -- the compare-and-swap updates --------------------------------------

  function ClaimedRow(r: Row, token: Token, stamp: string, until: string): Row {
    if r.state == Active then
      r.(state := Claimed, claimToken := Some(token), claimedAt := Some(stamp), leaseUntil := Some(until))
    else r
  }

  predicate MayBeginDelete(r: Row, token: Token) {
    r.state == Claimed && r.claimToken == Some(token)
  }

  function FencedRow(r: Row, token: Token): Row {
    if MayBeginDelete(r, token) then r.(state := DeleteStarted) else r
  }

  predicate HeldBy(r: Row, token: Token) {
    r.claimToken == Some(token)
  }

  function ReleasedRow(r: Row, token: Token): Row {
    if HeldBy(r, token) then
      r.(state := Active, claimToken := None, claimedAt := None, leaseUntil := None)
    else r
  }

  function ResolvedRow(r: Row, state: CleanupState, resolution: string, token: Token, stamp: string): Row {
    if HeldBy(r, token) then Settled(r, state, resolution, stamp) else r
  }

  predicate Unclaimed(r: Row) {
    r.state == Claimed && r.claimToken == None
  }

  function ResolvedUnclaimedRow(r: Row, state: CleanupState, resolution: string, stamp: string): Row {
    if Unclaimed(r) then Settled(r, state, resolution, stamp) else r
  }

  function ClosedByHand(r: Row, text: string, user: string, stamp: string): Row {
    if ManuallyResolvable(r.state) then
      r.(state := ManuallyResolved, manualResolution := Some(text), resolvedByUserId := Some(user),
         manuallyResolvedAt := Some(stamp))
    else r
  }

  // -- the candidate sets ------------------------------------------------

  predicate IsDue(row: Row, moment: string) {
    row.state == Active && StrLe(row.cleanupAt, moment)
  }

  predicate IsExpired(row: Row, moment: string) {
    row.state == Claimed && row.leaseUntil.Some? && StrLe(row.leaseUntil.value, moment)
  }

  /** A row whose cleanup time is `at` is a candidate exactly when that instant has come. */
  lemma DueMeansArrived(row: Row, at: Instant, now: Instant)
    requires row.cleanupAt == Iso(at)
    ensures IsDue(row, Iso(now)) <==> row.state == Active && at <= now
  {
    IsoOrder(at, now);
  }

  lemma ExpiredMeansArrived(row: Row, until: Instant, now: Instant)
    requires row.leaseUntil == Some(Iso(until))
    ensures IsExpired(row, Iso(now)) <==> row.state == Claimed && until <= now
  {
    IsoOrder(until, now);
  }

  /** A claim lapses exactly fifteen minutes after it was taken, to the microsecond. */
  lemma ExpiredMeansLapsed(r: Row, token: Token, claimed: Moment, now: Instant)
    requires r.state == Active
    ensures IsExpired(ClaimedRow(r, token, Iso(claimed), Iso(LeaseEnd(claimed))), Iso(now)) <==>
            claimed + 900 * 1_000_000 <= now
  {
    ExpiredMeansArrived(ClaimedRow(r, token, Iso(claimed), Iso(LeaseEnd(claimed))), LeaseEnd(claimed), now);
  }

  // -- queries over the table --------------------------------------------

  predicate SortedByCleanup(rows: seq<Row>) {
    forall i, j :: 0 <= i < j < |rows| ==> StrLe(rows[i].cleanupAt, rows[j].cleanupAt)
  }

  function Where(rows: seq<Row>, p: Row -> bool): (r: seq<Row>)
    ensures forall x :: x in r <==> x in rows && p(x)
    ensures |r| <= |rows|
  {
    if rows == [] then []
    else if p(rows[0]) then [rows[0]] + Where(rows[1..], p)
    else Where(rows[1..], p)
  }

  predicate EarlierCleanup(a: Row, b: Row) {
    StrLt(a.cleanupAt, b.cleanupAt)
  }

  /** `ORDER BY cleanup_at`. */
  function OrderByCleanup(rows: seq<Row>): (r: seq<Row>)
    ensures SortedByCleanup(r)
    ensures multiset(r) == multiset(rows)
  {
    CleanupOrder(rows);
    StableSort(rows, EarlierCleanup)
  }

  lemma CleanupOrder(rows: seq<Row>)
    ensures SortedByCleanup(StableSort(rows, EarlierCleanup))
  {
    StringsAreOrdered();
    NothingOutOfPlace(rows, EarlierCleanup);
  }

  lemma {:induction false} CountWhere(rows: seq<Row>, q: Row -> bool, p: Row -> bool)
    requires forall x :: p(x) ==> q(x)
    ensures Count(Where(rows, q), p) == Count(rows, p)
  {
    if rows != [] {
      CountWhere(rows[1..], q, p);
      if q(rows[0]) {
        assert Where(rows, q)[1..] == Where(rows[1..], q);
      }
    }
  }

  lemma {:induction false} SelectedCount(rows: seq<Row>, p: Row -> bool)
    ensures |Where(rows, p)| == Count(rows, p)
  {
    if rows != [] {
      SelectedCount(rows[1..], p);
    }
  }

  /** `due`: the rows a pass may attempt, oldest first. */
  function Due(rows: seq<Row>, moment: string): (r: seq<Row>)
    ensures SortedByCleanup(r)
  {
    OrderByCleanup(Where(rows, (row: Row) => IsDue(row, moment)))
  }

  const OPEN_STATES: set<CleanupState> :=
    {PendingWrite, Active, Claimed, DeleteStarted, NeedsReview, UnknownCleanupState}

  const OVERDUE_STATES: set<CleanupState> := {Active, Claimed, DeleteStarted}

  const NEEDS_A_PERSON: set<CleanupState> := {DeleteStarted, NeedsReview, UnknownCleanupState}

  function OpenRecords(rows: seq<Row>): (r: seq<Row>)
    ensures SortedByCleanup(r)
  {
    OrderByCleanup(Where(rows, (row: Row) => row.state in OPEN_STATES))
  }

  function NeedingAPerson(records: seq<Row>): seq<Row> {
    Where(records, (row: Row) => row.state in NEEDS_A_PERSON)
  }

  /** `due` loses no arrived row and adds none. */
  lemma DueIsExact(rows: seq<Row>, now: Instant, row: Row, at: Instant)
    requires row.cleanupAt == Iso(at)
    ensures row in Due(rows, Iso(now)) <==> row in rows && row.state == Active && at <= now
  {
    DueMeansArrived(row, at, now);
    var moment := Iso(now);
    var picked := Where(rows, (r: Row) => IsDue(r, moment));
    assert row in Due(rows, moment) <==> row in multiset(OrderByCleanup(picked));
    assert row in picked <==> row in multiset(picked);
  }

  lemma OpenCount(rows: seq<Row>, p: Row -> bool)
    requires forall row :: p(row) ==> row.state in OPEN_STATES
    ensures Count(OpenRecords(rows), p) == Count(rows, p)
  {
    var isOpen := (row: Row) => row.state in OPEN_STATES;
    CountWhere(rows, isOpen, p);
    CountSorted(Where(rows, isOpen), EarlierCleanup, p);
  }

  datatype ManualOutcome = BlankResolution | BlankUser | NotMatched | Recorded

  datatype WorkloadReport = WorkloadReport(
    countedAt: string,
    counts: map<CleanupState, nat>,
    dueNow: nat,
    oldestOverdueAt: Option<string>,
    needsAttention: seq<Row>)

  /** Past its time, and either waiting or in somebody's hands. */
  predicate IsStuck(row: Row, moment: string) {
    StrLe(row.cleanupAt, moment) && (row.state == Active || row.state == Claimed || row.state == DeleteStarted)
  }

  function Older(oldest: Option<string>, row: Row, moment: string): Option<string> {
    if StrLe(row.cleanupAt, moment) && row.state in OVERDUE_STATES && (oldest.None? || StrLt(row.cleanupAt, oldest.value)) then Some(row.cleanupAt)
    else oldest
  }

  /** The database table behind every cleanup, and the calls that change one row of it. */
  class PricingCleanupStore {
    var rows: Table
    var ids: seq<string>

    ghost predicate Valid()
      reads this
    {
      && (forall id :: id in ids <==> id in rows)
      && (forall i, j :: 0 <= i < j < |ids| ==> ids[i] != ids[j])
    }

    constructor ()
      ensures Valid() && rows == map[] && ids == []
    {
      rows := map[];
      ids := [];
    }

    /** Every row, in the order it was inserted. */
    function Scan(): (r: seq<Row>)
      requires Valid()
      reads this
      ensures |r| == |ids|
      ensures forall i :: 0 <= i < |r| ==> ids[i] in rows && r[i] == rows[ids[i]]
    {
      seq(|ids|, i requires 0 <= i < |ids| && ids[i] in rows reads this => rows[ids[i]])
    }

    /** `record_intent`; the id doubles as the marker and is a fresh uuid. */
    method RecordIntent(id: string, origin: Origin, newPrice: real, cleanupAt: string) returns (row: Row)
      requires Valid() && id !in rows
      modifies this
      ensures Valid()
      ensures row.id == id && row.origin == origin && row.cleanupAt == cleanupAt && row.state == PendingWrite
      ensures row.identity == Identity(false, Some(id), newPrice, None) && Untouched(row) && row.resolution.None?
      ensures rows == old(rows)[id := row] && ids == old(ids) + [id]
    {
      row := IntentRow(id, origin, newPrice, cleanupAt);
      rows := rows[id := row];
      ids := ids + [id];
    }

    method Adopt(id: string, origin: Origin, newPrice: real, cleanupAt: string,
                 providerCreatedAt: Option<string>, resolution: string) returns (row: Row)
      requires Valid() && id !in rows
      modifies this
      ensures Valid()
      ensures row.id == id && row.origin == origin.(oldPrice := None) && row.cleanupAt == cleanupAt && row.state == Active
      ensures row.identity == Identity(true, None, newPrice, providerCreatedAt)
      ensures Untouched(row) && row.resolution == Some(resolution)
      ensures rows == old(rows)[id := row] && ids == old(ids) + [id]
    {
      row := AdoptedRow(id, origin, newPrice, cleanupAt, providerCreatedAt, resolution);
      rows := rows[id := row];
      ids := ids + [id];
    }

    /** `record_reason_sent`: intent is recordable only while the write has not happened. */
    method RecordReasonSent(id: string, reason: string) returns (ok: bool)
      requires Valid()
      modifies this`rows
      ensures ok <==> id in old(rows) && old(rows)[id].state == PendingWrite
      ensures Valid() && OnlyMoves(old(rows), rows, id)
      ensures id in rows ==> rows[id] == ReasonSent(old(rows)[id], reason)
      ensures ok ==> rows[id] == old(rows)[id].(reasonSent := Some(reason))
      ensures !ok ==> rows == old(rows)
    {
      if id !in rows || rows[id].state != PendingWrite {
        return false;
      }
      rows := rows[id := rows[id].(reasonSent := Some(reason))];
      return true;
    }

    /** `mark_active`: the one door into ACTIVE, and the state actually reached. */
    method MarkActive(id: string, createdAt: Option<string>, reason: string, updatedAt: Option<string>,
                      now: Instant) returns (reached: CleanupState)
      requires Valid()
      modifies this`rows
      ensures Valid() && OnlyMoves(old(rows), rows, id)
      ensures id in rows ==>
                rows[id] == MarkedActive(old(rows)[id], createdAt, updatedAt, reason, Iso(now)) && rows[id].state == reached
      ensures id in rows ==>
                (reached == Active <==> || old(rows)[id].identity.adopted
                                        || (createdAt.Some? && createdAt.value != "" && (updatedAt.None? || updatedAt == createdAt)))
      ensures id in rows && reached == Active ==>
                rows[id] == old(rows)[id].(state := Active, reasonSent := Some(reason),
                                           identity := old(rows)[id].identity.(providerCreatedAt := createdAt))
      ensures reached != Active ==> id in rows && reached == NeedsReview && IsSettled(old(rows)[id], rows[id], NeedsReview, Iso(now))
    {
      hide Iso;
      if id in rows && !rows[id].identity.adopted && !Truthy(createdAt) {
        rows := rows[id := Settled(rows[id], NeedsReview, NOT_CONFIRMED, Iso(now))];
        return NeedsReview;
      }
      if id in rows && !rows[id].identity.adopted && updatedAt.Some? && updatedAt != createdAt {
        rows := rows[id := Settled(rows[id], NeedsReview, NOT_CONFIRMED, Iso(now))];
        return NeedsReview;
      }
      if id in rows {
        var r := rows[id];
        r := r.(state := Active);
        r := r.(identity := r.identity.(providerCreatedAt := createdAt));
        r := r.(reasonSent := Some(reason));
        rows := rows[id := r];
      }
      return Active;
    }

    /** `claim`: true means that from here this token holds the row, false that nothing was done. */
    method Claim(id: string, token: Token, now: Moment) returns (ok: bool)
      requires Valid()
      modifies this`rows
      ensures ok <==> id in old(rows) && old(rows)[id].state == Active
      ensures Valid() && OnlyMoves(old(rows), rows, id)
      ensures id in rows ==> rows[id] == ClaimedRow(old(rows)[id], token, Iso(now), Iso(LeaseEnd(now)))
      ensures ok ==> rows[id] == old(rows)[id].(state := Claimed, claimToken := Some(token), claimedAt := Some(Iso(now)),
                                                leaseUntil := Some(Iso(now + 900 * 1_000_000)))
      ensures ok ==> MayBeginDelete(rows[id], token) && !IsExpired(rows[id], Iso(now))
      ensures !ok ==> rows == old(rows)
    {
      if id !in rows || rows[id].state != Active {
        return false;
      }
      var r := rows[id];
      r := r.(state := Claimed, claimToken := Some(token));
      r := r.(claimedAt := Some(Iso(now)), leaseUntil := Some(Iso(LeaseEnd(now))));
      IsoOrder(LeaseEnd(now), now);
      rows := rows[id := r];
      return true;
    }

    /** `begin_delete`: true means the fence is crossed, by the token that held the claim. */
    method BeginDelete(id: string, token: Token) returns (ok: bool)
      requires Valid()
      modifies this`rows
      ensures ok <==> id in old(rows) && MayBeginDelete(old(rows)[id], token)
      ensures Valid() && OnlyMoves(old(rows), rows, id)
      ensures id in rows ==> rows[id] == FencedRow(old(rows)[id], token)
      ensures ok ==> rows[id] == old(rows)[id].(state := DeleteStarted) && HeldBy(rows[id], token)
      ensures !ok ==> rows == old(rows)
    {
      if id !in rows || rows[id].state != Claimed || rows[id].claimToken != Some(token) {
        return false;
      }
      rows := rows[id := rows[id].(state := DeleteStarted)];
      return true;
    }

    /** `release`: true means the row is back in the queue, with no trace of the claim. */
    method Release(id: string, token: Token) returns (ok: bool)
      requires Valid()
      modifies this`rows
      ensures ok <==> id in old(rows) && HeldBy(old(rows)[id], token)
      ensures Valid() && OnlyMoves(old(rows), rows, id)
      ensures id in rows ==> rows[id] == ReleasedRow(old(rows)[id], token)
      ensures ok ==> rows[id] == old(rows)[id].(state := Active, claimToken := None, claimedAt := None, leaseUntil := None)
      ensures !ok ==> rows == old(rows)
    {
      if id !in rows || rows[id].claimToken != Some(token) {
        return false;
      }
      var r := rows[id];
      r := r.(state := Active, claimToken := None);
      r := r.(claimedAt := None, leaseUntil := None);
      rows := rows[id := r];
      return true;
    }

    /** `resolve` with an expected token: true means the verdict is on the row and the claim is gone. */
    method Resolve(id: string, state: CleanupState, resolution: string, token: Token, now: Instant)
      returns (ok: bool)
      requires Valid()
      modifies this`rows
      ensures ok <==> id in old(rows) && HeldBy(old(rows)[id], token)
      ensures Valid() && OnlyMoves(old(rows), rows, id)
      ensures id in rows ==> rows[id] == ResolvedRow(old(rows)[id], state, resolution, token, Iso(now))
      ensures ok ==> IsSettled(old(rows)[id], rows[id], state, Iso(now)) && rows[id].resolution == Some(resolution)
      ensures !ok ==> rows == old(rows)
    {
      if id !in rows || rows[id].claimToken != Some(token) {
        return false;
      }
      rows := rows[id := Settled(rows[id], state, resolution, Iso(now))];
      return true;
    }

    /** `resolve_unclaimed`: its own guard, so that no token is bypassed. */
    method ResolveUnclaimed(id: string, state: CleanupState, resolution: string, now: Instant)
      returns (ok: bool)
      requires Valid()
      modifies this`rows
      ensures ok <==> id in old(rows) && Unclaimed(old(rows)[id])
      ensures Valid() && OnlyMoves(old(rows), rows, id)
      ensures id in rows ==> rows[id] == ResolvedUnclaimedRow(old(rows)[id], state, resolution, Iso(now))
      ensures ok ==> IsSettled(old(rows)[id], rows[id], state, Iso(now)) && rows[id].resolution == Some(resolution)
      ensures !ok ==> rows == old(rows)
    {
      if id !in rows || rows[id].state != Claimed || rows[id].claimToken.Some? {
        return false;
      }
      rows := rows[id := Settled(rows[id], state, resolution, Iso(now))];
      return true;
    }

    method RecordManualResolution(id: string, resolution: string, user: string, now: Instant)
      returns (outcome: ManualOutcome)
      requires Valid()
      modifies this`rows
      ensures Valid()
      ensures outcome == BlankResolution <==> Strip(resolution) == ""
      ensures outcome == BlankUser ==> Strip(user) == ""
      ensures outcome == Recorded <==>
                Strip(resolution) != "" && Strip(user) != "" &&
                id in old(rows) && ManuallyResolvable(old(rows)[id].state)
      ensures outcome != Recorded ==> rows == old(rows)
      ensures outcome == Recorded ==>
                && rows == old(rows)[id := ClosedByHand(old(rows)[id], Strip(resolution), user, Iso(now))]
                && rows[id] == old(rows)[id].(state := ManuallyResolved, manualResolution := Some(Strip(resolution)),
                                              resolvedByUserId := Some(user), manuallyResolvedAt := Some(Iso(now)))
    {
      var text := Strip(resolution);
      if text == "" { return BlankResolution; }
      if Strip(user) == "" { return BlankUser; }
      if id !in rows || !ManuallyResolvable(rows[id].state) { return NotMatched; }
      var r := rows[id].(state := ManuallyResolved, manualResolution := Some(text));
      rows := rows[id := r.(resolvedByUserId := Some(user), manuallyResolvedAt := Some(Iso(now)))];
      return Recorded;
    }

    /**
     `workload`: one pass over the open rows.  The number shown as due is the number of
     rows `due` would hand a pass started at the same moment.
     */
    method Workload(now: Instant) returns (w: WorkloadReport)
      requires Valid()
      ensures w.dueNow == |Due(Scan(), Iso(now))|
      ensures Tallied(Scan(), w.counts, w.dueNow, Iso(now))
      ensures w.countedAt == Iso(now)
      ensures IsOldest(Scan(), w.oldestOverdueAt, Iso(now))
      ensures forall row :: row in w.needsAttention <==>
                row in Scan() && (row.state == DeleteStarted || row.state == NeedsReview || row.state == UnknownCleanupState)
    {
      hide *;
      var moment := Iso(now);
      var records := OpenRecords(Scan());
      var counts, dueNow, oldest := WalkOpen(records, moment);
      OpenCounts(Scan(), counts, dueNow, moment);
      OpenOldest(Scan(), oldest, moment);
      PeopleAreNamed(Scan());
      w := WorkloadReport(moment, counts, dueNow, oldest, NeedingAPerson(records));
    }
  }

  /** The loop of `workload`, over the open rows it was given. */
  method WalkOpen(records: seq<Row>, moment: string)
    returns (counts: map<CleanupState, nat>, dueNow: nat, oldest: Option<string>)
    ensures Tallied(records, counts, dueNow, moment)
    ensures IsOldest(records, oldest, moment)
  {
    counts := map s: CleanupState | s in OPEN_STATES + TERMINAL_STATES :: 0;
    dueNow := 0;
    oldest := None;
    var i := 0;
    while i < |records|
      invariant 0 <= i <= |records|
      invariant Tallied(records[..i], counts, dueNow, moment)
      invariant IsOldest(records[..i], oldest, moment)
    {
      var row := records[i];
      TallyGrows(records, i, counts, dueNow, moment);
      OldestGrows(records, i, oldest, moment);
      counts := counts[row.state := counts[row.state] + 1];
      if IsDue(row, moment) { dueNow := dueNow + 1; }
      oldest := Older(oldest, row, moment);
      i := i + 1;
    }
    assert records[..i] == records;
  }

  /** `counts` and `dueNow` are the true counts over `rows`. */
  ghost predicate Tallied(rows: seq<Row>, counts: map<CleanupState, nat>, dueNow: nat, moment: string) {
    && counts.Keys == OPEN_STATES + TERMINAL_STATES
    && dueNow == Count(rows, (row: Row) => IsDue(row, moment))
    && forall s :: s in OPEN_STATES ==> counts[s] == Count(rows, (row: Row) => row.state == s)
  }

  /** `oldest` is the least cleanup stamp among the stuck rows, or absent when none is stuck. */
  ghost predicate IsOldest(rows: seq<Row>, oldest: Option<string>, moment: string) {
    && (oldest.None? <==> forall row :: row in rows ==> !IsStuck(row, moment))
    && (oldest.Some? ==> exists row :: row in rows && IsStuck(row, moment) && row.cleanupAt == oldest.value)
    && (oldest.Some? ==> forall row :: row in rows && IsStuck(row, moment) ==> StrLe(oldest.value, row.cleanupAt))
  }

  lemma TallyGrows(rows: seq<Row>, i: nat, counts: map<CleanupState, nat>, dueNow: nat, moment: string)
    requires i < |rows| && Tallied(rows[..i], counts, dueNow, moment)
    ensures rows[i].state in counts
    ensures Tallied(rows[..i + 1], counts[rows[i].state := counts[rows[i].state] + 1],
                    dueNow + if IsDue(rows[i], moment) then 1 else 0, moment)
  {
    assert rows[i].state in OPEN_STATES + TERMINAL_STATES;
    CountGrows(rows, i, (row: Row) => IsDue(row, moment));
    forall s | s in OPEN_STATES
      ensures Count(rows[..i + 1], (row: Row) => row.state == s) ==
              Count(rows[..i], (row: Row) => row.state == s) + if rows[i].state == s then 1 else 0
    {
      CountGrows(rows, i, (row: Row) => row.state == s);
    }
  }

  lemma OldestGrows(rows: seq<Row>, i: nat, oldest: Option<string>, moment: string)
    requires i < |rows| && IsOldest(rows[..i], oldest, moment)
    ensures IsOldest(rows[..i + 1],
                     Older(oldest, rows[i], moment), moment)
  {
    var row := rows[i];
    assert rows[..i + 1] == rows[..i] + [row];
    if IsStuck(row, moment) && oldest.Some? {
      StrLtTotal(row.cleanupAt, oldest.value);
      if StrLt(row.cleanupAt, oldest.value) {
        forall other | other in rows[..i] && IsStuck(other, moment) ensures StrLe(row.cleanupAt, other.cleanupAt) {
          StrLeTransitive(row.cleanupAt, oldest.value, other.cleanupAt);
        }
      }
    }
  }

  lemma CountGrows(rows: seq<Row>, i: nat, p: Row -> bool)
    requires i < |rows|
    ensures Count(rows[..i + 1], p) == Count(rows[..i], p) + if p(rows[i]) then 1 else 0
  {
    CountConcat(rows[..i], [rows[i]], p);
    assert rows[..i + 1] == rows[..i] + [rows[i]];
  }

  lemma OpenMembers(rows: seq<Row>)
    ensures forall row :: row in OpenRecords(rows) <==> row in rows && row.state in OPEN_STATES
  {
    var isOpen := (row: Row) => row.state in OPEN_STATES;
    var picked := Where(rows, isOpen);
    forall row ensures row in OpenRecords(rows) <==> row in picked {
      assert row in OpenRecords(rows) <==> row in multiset(OrderByCleanup(picked));
      assert row in picked <==> row in multiset(picked);
    }
  }

  /** The open rows are all that nothing and nobody has closed. */
  lemma OpenIsNotClosed(rows: seq<Row>, row: Row)
    ensures row in OpenRecords(rows) <==>
            row in rows && row.state != CleanedUp && row.state != Vanished && row.state != ManuallyResolved
  {
    hide OpenRecords;
    OpenMembers(rows);
  }

  lemma PeopleAreNamed(rows: seq<Row>)
    ensures forall row :: row in NeedingAPerson(OpenRecords(rows)) <==>
              row in rows && (row.state == DeleteStarted || row.state == NeedsReview || row.state == UnknownCleanupState)
  {
    OpenMembers(rows);
  }

  lemma OpenOldest(rows: seq<Row>, oldest: Option<string>, moment: string)
    requires IsOldest(OpenRecords(rows), oldest, moment)
    ensures IsOldest(rows, oldest, moment)
  {
    OpenMembers(rows);
    forall row | row in rows && IsStuck(row, moment) ensures row in OpenRecords(rows) {
    }
  }

  /** Counts over the open rows are the table's own counts, and the size of `due`. */
  lemma OpenCounts(rows: seq<Row>, counts: map<CleanupState, nat>, dueNow: nat, moment: string)
    requires Tallied(OpenRecords(rows), counts, dueNow, moment)
    ensures Tallied(rows, counts, dueNow, moment)
    ensures dueNow == |Due(rows, moment)|
  {
    var isDue := (row: Row) => IsDue(row, moment);
    OpenCount(rows, isDue);
    SelectedCount(rows, isDue);
    assert |Due(rows, moment)| == |Where(rows, isDue)| by {
      assert multiset(Due(rows, moment)) == multiset(Where(rows, isDue));
      assert |multiset(Due(rows, moment))| == |Due(rows, moment)|;
      assert |multiset(Where(rows, isDue))| == |Where(rows, isDue)|;
    }
    forall s | s in OPEN_STATES
      ensures Count(OpenRecords(rows), (row: Row) => row.state == s) == Count(rows, (row: Row) => row.state == s)
    {
      OpenCount(rows, (row: Row) => row.state == s);
    }
  }
}
