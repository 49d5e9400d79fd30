/**
 Every interleaving of the cleanup protocol around one record.

 A state is the row, the copies of it that passes are still holding, the attempts (one
 pass of one process over the record, named by its claim token), the provider's DELETE
 log, and for the proofs alone the token that last crossed the fence.  An action is one
 atomic step of some party.  `Apply` is total: an action that is not enabled changes
 nothing, so the runs are exactly the action sequences, and a process that stalls or dies
 is one whose next action never comes.  No two actions share a clock: each carries
 whatever its own process read.
 */
module CleanupProtocol {
  import opened Wrappers
  import opened CleanupOwnership
  import opened CleanupStore

  /** Where one attempt stands between its atomic steps. */
  datatype Pc =
    | Holding                                             // claimed, provider not read yet
    | Proven(proof: Proof)                             // ownership proved, switches on
    | Fenced(proof: Proof)                             // DELETE_STARTED committed
    | Settling(verdict: CleanupState, deleted: bool)      // verdict reached, not written yet
    | Releasing                                           // about to put the claim down
    | Done(committed: bool)

  datatype Attempt = Attempt(record: Row, pc: Pc)

  /** One attempted provider DELETE, with the proof of ownership its sender held. */
  datatype DeleteAttempt = DeleteAttempt(token: Token, proof: Proof)

  datatype State = State(
    row: Row,
    candidates: set<Row>,
    snapshots: set<Row>,
    attempts: map<Token, Attempt>,
    log: seq<DeleteAttempt>,
    lastFence: Option<Token>)

  datatype ReadAnswer = Unreadable | Read(found: Option<Override>)

  /** How `remove_override` ended. */
  datatype RemoveAnswer = WritesDisabled | NoAnswer | ConfirmedApplied | UnknownWriteState | ConfirmedFailed

  datatype Action =
    | RecordReasonSent(reason: string)
    | MarkActive(createdAt: Option<string>, updatedAt: Option<string>, reason: string, stamp: string)
    | AbandonWrite(unknown: bool, resolution: string, stamp: string)
    | ReadDue(moment: string)
    | Claim(record: Row, token: Token, stamp: string, until: string)
    | ReadProvider(token: Token, banded: bool, answer: ReadAnswer, switchesOn: bool)
    | BeginDelete(token: Token)
    | Remove(token: Token, outcome: RemoveAnswer)
    | Settle(token: Token, detail: string, stamp: string)
    | Release(token: Token)
    | ReadExpired(moment: string)
    | Reconcile(snapshot: Row, detail: string, stamp: string)
    | ReconcileAtOnce(moment: string, detail: string, stamp: string)
    | CloseByHand(text: string, user: string, stamp: string)

  /** The verdict `_process` reaches on what it read, or the step it takes next. */
  function AfterRead(record: Row, banded: bool, answer: ReadAnswer, switchesOn: bool): Pc {
    if !banded then Settling(NeedsReview, false)
    else if answer.Unreadable? then Releasing
    else if answer.found.None? then Settling(Vanished, false)
    else if CheckOwnership(record.identity, answer.found) != Owned then Settling(NeedsReview, false)
    else if !switchesOn then Releasing
    else Proven(Evidence(record.identity, answer.found.value))
  }

  function AfterRemove(outcome: RemoveAnswer): Pc {
    match outcome
    case WritesDisabled => Releasing
    case NoAnswer => Settling(UnknownCleanupState, true)
    case ConfirmedApplied => Settling(CleanedUp, true)
    case UnknownWriteState => Settling(UnknownCleanupState, true)
    case ConfirmedFailed => Settling(NeedsReview, true)
  }

  /** `_reconcile` with the row copy it was handed: the token on the copy is what it compares. */
  function Reconciled(r: Row, copy: Row, detail: string, stamp: string): Row {
    if copy.claimToken.Some? then ResolvedRow(r, NeedsReview, detail, copy.claimToken.value, stamp)
    else ResolvedUnclaimedRow(r, NeedsReview, detail, stamp)
  }

  function Move(s: State, token: Token, pc: Pc): State
    requires token in s.attempts
  {
    s.(attempts := s.attempts[token := s.attempts[token].(pc := pc)])
  }

  function Apply(s: State, a: Action): State {
    match a
    case RecordReasonSent(reason) => s.(row := ReasonSent(s.row, reason))
    case MarkActive(created, updated, reason, stamp) =>
      if s.row.state == PendingWrite then s.(row := MarkedActive(s.row, created, updated, reason, stamp)) else s
    case AbandonWrite(unknown, resolution, stamp) =>
      if s.row.state == PendingWrite
      then s.(row := Settled(s.row, if unknown then NeedsReview else Vanished, resolution, stamp)) else s
    case ReadDue(moment) => if IsDue(s.row, moment) then s.(candidates := s.candidates + {s.row}) else s
    case Claim(record, token, stamp, until) =>
      if record in s.candidates && token !in s.attempts && s.row.state == Active
      then s.(row := ClaimedRow(s.row, token, stamp, until), attempts := s.attempts[token := Attempt(record, Holding)])
      else s
    case ReadExpired(moment) => if IsExpired(s.row, moment) then s.(snapshots := s.snapshots + {s.row}) else s
    case Reconcile(copy, detail, stamp) =>
      if copy in s.snapshots then s.(row := Reconciled(s.row, copy, detail, stamp)) else s
    case ReconcileAtOnce(moment, detail, stamp) =>
      if IsExpired(s.row, moment) then s.(row := Reconciled(s.row, s.row, detail, stamp)) else s
    case CloseByHand(text, user, stamp) => s.(row := ClosedByHand(s.row, text, user, stamp))
    case _ => if a.token in s.attempts then Advance(s, a) else s
  }

  /** The steps of an attempt after its claim: `_process` and `_resolve`. */
  function Advance(s: State, a: Action): State
    requires a.ReadProvider? || a.BeginDelete? || a.Remove? || a.Settle? || a.Release?
    requires a.token in s.attempts
  {
    var at := s.attempts[a.token];
    match (a, at.pc)
    case (ReadProvider(token, banded, answer, switchesOn), Holding) =>
      Move(s, token, AfterRead(at.record, banded, answer, switchesOn))
    case (BeginDelete(token), Proven(proof)) =>
      if MayBeginDelete(s.row, token)
      then Move(s.(row := FencedRow(s.row, token), lastFence := Some(token)), token, Fenced(proof))
      else Move(s, token, Done(false))
    case (Remove(token, outcome), Fenced(proof)) =>
      if outcome.WritesDisabled? then Move(s, token, Releasing)
      else Move(s.(log := s.log + [DeleteAttempt(token, proof)]), token, AfterRemove(outcome))
    case (Settle(token, detail, stamp), Settling(verdict, _)) =>
      Move(s.(row := ResolvedRow(s.row, verdict, detail, token, stamp)), token, Done(HeldBy(s.row, token)))
    case (Release(token), Releasing) =>
      Move(s.(row := ReleasedRow(s.row, token)), token, Done(HeldBy(s.row, token)))
    case _ => s
  }

  function Exec(s: State, actions: seq<Action>): State {
    if actions == [] then s else Apply(Exec(s, actions[..|actions| - 1]), actions[|actions| - 1])
  }

  /** A record as `record_intent` or `adopt` leaves it. */
  predicate Initial(s: State) {
    && s.candidates == {} && s.snapshots == {} && s.attempts == map[] && s.log == [] && s.lastFence == None
    && s.row.claimToken == None
    && (s.row.identity.adopted ==> s.row.state == Active)
    && (!s.row.identity.adopted ==> s.row.state == PendingWrite && s.row.identity.marker == Some(s.row.id))
  }

  // -- the invariant -----------------------------------------------------

  /** States a row may be in once its DELETE has been attempted. */
  predicate PastDelete(s: CleanupState) {
    s == DeleteStarted || s == CleanedUp || s == NeedsReview || s == UnknownCleanupState || s == ManuallyResolved
  }

  /** The states that mean somebody is working on the row. */
  predicate InHands(s: CleanupState) {
    s == Claimed || s == DeleteStarted
  }

  /** The verdicts an attempt may be about to write. */
  predicate PossibleVerdict(v: CleanupState, deleted: bool) {
    v == NeedsReview || (if deleted then v == CleanedUp || v == UnknownCleanupState else v == Vanished)
  }

  predicate Crossed(pc: Pc) {
    pc.Fenced? || (pc.Settling? && pc.deleted)
  }

  predicate BeforeFence(pc: Pc) {
    pc.Holding? || pc.Proven? || pc.Releasing? || (pc.Settling? && !pc.deleted)
  }

  predicate AfterSend(pc: Pc) {
    pc.Done? || (pc.Settling? && pc.deleted)
  }

  /** The row alone: a token exactly while it is in somebody's hands, and its own marker. */
  ghost predicate RowOk(r: Row) {
    && (r.claimToken.Some? <==> InHands(r.state))
    && (!r.identity.adopted ==> r.identity.marker == Some(r.id))
    && ((r.state == Active || InHands(r.state)) && !r.identity.adopted ==> Truthy(r.identity.providerCreatedAt))
  }

  /** The token on the row names the attempt that the row's state speaks of. */
  ghost predicate HolderOk(s: State) {
    && (s.row.claimToken.Some? ==> s.row.claimToken.value in s.attempts)
    && (s.row.state == Claimed && s.row.claimToken.Some? ==> BeforeFence(s.attempts[s.row.claimToken.value].pc))
    && (s.row.state == DeleteStarted && s.row.claimToken.Some? ==>
          var pc := s.attempts[s.row.claimToken.value].pc; Crossed(pc) || pc.Releasing?)
  }

  /** A copy taken once the write was confirmed still names the same override. */
  ghost predicate CopyOk(r: Row, copy: Row) {
    copy.id == r.id && copy.identity == r.identity && copy.origin == r.origin && r.state != PendingWrite
  }

  ghost predicate AttemptOk(r: Row, lastFence: Option<Token>, t: Token, at: Attempt) {
    && CopyOk(r, at.record)
    && (at.pc.Proven? || at.pc.Fenced? ==> at.pc.proof.identity == r.identity)
    && (at.pc.Settling? ==>
          PossibleVerdict(at.pc.verdict, at.pc.deleted))
    && (Crossed(at.pc) ==> lastFence == Some(t))
    && (Crossed(at.pc) ==>
          (r.state == DeleteStarted && r.claimToken == Some(t)) || r.state == NeedsReview || r.state == ManuallyResolved)
  }

  /** What holds from the moment a DELETE has been attempted. */
  ghost predicate LogOk(s: State) {
    && |s.log| <= 1
    && (s.log != [] ==>
          && PastDelete(s.row.state)
          && s.log[0].token in s.attempts
          && s.log[0].proof.identity == s.row.identity
          && AfterSend(s.attempts[s.log[0].token].pc)
          && (s.row.state == DeleteStarted ==> s.row.claimToken == Some(s.log[0].token))
          && (forall t :: t in s.attempts ==> !s.attempts[t].pc.Fenced?))
  }

  ghost predicate Inv(s: State) {
    && RowOk(s.row)
    && HolderOk(s)
    && (forall t :: t in s.attempts ==> AttemptOk(s.row, s.lastFence, t, s.attempts[t]))
    && (forall c :: c in s.candidates ==> CopyOk(s.row, c))
    && (forall c :: c in s.snapshots ==> CopyOk(s.row, c) && c.claimToken.Some?)
    && LogOk(s)
  }

  lemma InitialInv(s: State)
    requires Initial(s)
    ensures Inv(s)
  {
  }

  lemma KeepsRecordReasonSent(s: State, a: Action)
    requires Inv(s) && a.RecordReasonSent?
    ensures Inv(Apply(s, a))
  {
  }

  lemma KeepsMarkActive(s: State, a: Action)
    requires Inv(s) && a.MarkActive?
    ensures Inv(Apply(s, a))
  {
  }

  lemma KeepsAbandonWrite(s: State, a: Action)
    requires Inv(s) && a.AbandonWrite?
    ensures Inv(Apply(s, a))
  {
  }

  lemma KeepsReadDue(s: State, a: Action)
    requires Inv(s) && a.ReadDue?
    ensures Inv(Apply(s, a))
  {
  }

  lemma KeepsClaim(s: State, a: Action)
    requires Inv(s) && a.Claim?
    ensures Inv(Apply(s, a))
  {
    var s' := Apply(s, a);
    if s' != s {
      forall t | t in s'.attempts ensures AttemptOk(s'.row, s'.lastFence, t, s'.attempts[t]) {
        if t != a.token { assert s'.attempts[t] == s.attempts[t]; }
      }
      assert LogOk(s');
    }
  }

  lemma KeepsReadProvider(s: State, a: Action)
    requires Inv(s) && a.ReadProvider?
    ensures Inv(Apply(s, a))
  {
    var s' := Apply(s, a);
    if s' != s {
      forall t | t in s'.attempts ensures AttemptOk(s'.row, s'.lastFence, t, s'.attempts[t]) {
        if t != a.token { assert s'.attempts[t] == s.attempts[t]; }
      }
      assert LogOk(s');
    }
  }

  /** An attempt that moves on without touching the row. */
  lemma MoveKeeps(s: State, token: Token, pc: Pc)
    requires Inv(s) && token in s.attempts
    requires (pc == Done(false) && s.row.claimToken != Some(token)) || (pc.Releasing? && s.attempts[token].pc.Fenced?)
    ensures Inv(Move(s, token, pc))
  {
    var s' := Move(s, token, pc);
    forall t | t in s'.attempts ensures AttemptOk(s'.row, s'.lastFence, t, s'.attempts[t]) {
      assert AttemptOk(s.row, s.lastFence, t, s.attempts[t]);
    }
  }

  lemma KeepsBeginDelete(s: State, a: Action)
    requires Inv(s) && a.BeginDelete?
    ensures Inv(Apply(s, a))
  {
    if a.token in s.attempts && s.attempts[a.token].pc.Proven? {
      if MayBeginDelete(s.row, a.token) {
        FenceKeeps(s, a.token, s.attempts[a.token].pc.proof);
      } else {
        MoveKeeps(s, a.token, Done(false));
      }
    }
    hide Inv, Move;
  }

  lemma FenceKeeps(s: State, token: Token, proof: Proof)
    requires Inv(s) && token in s.attempts && s.attempts[token].pc == Proven(proof) && MayBeginDelete(s.row, token)
    ensures Inv(Move(s.(row := FencedRow(s.row, token), lastFence := Some(token)), token, Fenced(proof)))
  {
    var s' := Move(s.(row := FencedRow(s.row, token), lastFence := Some(token)), token, Fenced(proof));
    assert s.log == [];
    forall t | t in s'.attempts ensures AttemptOk(s'.row, s'.lastFence, t, s'.attempts[t]) {
      assert AttemptOk(s.row, s.lastFence, t, s.attempts[t]);
      assert !Crossed(s.attempts[t].pc);
    }
  }

  lemma KeepsRemove(s: State, a: Action)
    requires Inv(s) && a.Remove?
    ensures Inv(Apply(s, a))
  {
    if a.token in s.attempts && s.attempts[a.token].pc.Fenced? {
      if a.outcome.WritesDisabled? {
        MoveKeeps(s, a.token, Releasing);
      } else {
        SendKeeps(s, a.token, a.outcome);
      }
    }
    hide Inv, Move, AfterRemove;
  }

  lemma SendKeeps(s: State, token: Token, outcome: RemoveAnswer)
    requires Inv(s) && token in s.attempts && s.attempts[token].pc.Fenced? && !outcome.WritesDisabled?
    ensures
      var proof := s.attempts[token].pc.proof;
      Inv(Move(s.(log := s.log + [DeleteAttempt(token, proof)]), token, AfterRemove(outcome)))
  {
    var s' := Move(s.(log := s.log + [DeleteAttempt(token, s.attempts[token].pc.proof)]), token, AfterRemove(outcome));
    assert s.log == [];
    forall t | t in s'.attempts
      ensures AttemptOk(s'.row, s'.lastFence, t, s'.attempts[t]) && !s'.attempts[t].pc.Fenced?
    {
      assert AttemptOk(s.row, s.lastFence, t, s.attempts[t]) && AttemptOk(s.row, s.lastFence, token, s.attempts[token]);
    }
  }

  lemma KeepsSettle(s: State, a: Action)
    requires Inv(s) && a.Settle?
    ensures Inv(Apply(s, a))
  {
    if a.token in s.attempts && s.attempts[a.token].pc.Settling? {
      SettleKeeps(s, a.token, a.detail, a.stamp);
    }
    hide Inv, Move, ResolvedRow;
  }

  lemma SettleKeeps(s: State, token: Token, detail: string, stamp: string)
    requires Inv(s) && token in s.attempts && s.attempts[token].pc.Settling?
    ensures
      var row := ResolvedRow(s.row, s.attempts[token].pc.verdict, detail, token, stamp);
      Inv(Move(s.(row := row), token, Done(HeldBy(s.row, token))))
  {
    var row := ResolvedRow(s.row, s.attempts[token].pc.verdict, detail, token, stamp);
    var s' := Move(s.(row := row), token, Done(HeldBy(s.row, token)));
    forall t | t in s'.attempts ensures AttemptOk(s'.row, s'.lastFence, t, s'.attempts[t]) {
      assert AttemptOk(s.row, s.lastFence, t, s.attempts[t]);
    }
  }

  lemma KeepsRelease(s: State, a: Action)
    requires Inv(s) && a.Release?
    ensures Inv(Apply(s, a))
  {
    if a.token in s.attempts && s.attempts[a.token].pc.Releasing? {
      ReleaseKeeps(s, a.token);
    }
    hide Inv, Move, ReleasedRow;
  }

  lemma ReleaseKeeps(s: State, token: Token)
    requires Inv(s) && token in s.attempts && s.attempts[token].pc.Releasing?
    ensures Inv(Move(s.(row := ReleasedRow(s.row, token)), token, Done(HeldBy(s.row, token))))
  {
    var s' := Move(s.(row := ReleasedRow(s.row, token)), token, Done(HeldBy(s.row, token)));
    forall t | t in s'.attempts ensures AttemptOk(s'.row, s'.lastFence, t, s'.attempts[t]) {
      assert AttemptOk(s.row, s.lastFence, t, s.attempts[t]);
    }
  }

  lemma KeepsReadExpired(s: State, a: Action)
    requires Inv(s) && a.ReadExpired?
    ensures Inv(Apply(s, a))
  {
  }

  lemma KeepsReconcile(s: State, a: Action)
    requires Inv(s) && a.Reconcile?
    ensures Inv(Apply(s, a))
  {
  }

  lemma KeepsReconcileAtOnce(s: State, a: Action)
    requires Inv(s) && a.ReconcileAtOnce?
    ensures Inv(Apply(s, a))
  {
  }

  lemma KeepsCloseByHand(s: State, a: Action)
    requires Inv(s) && a.CloseByHand?
    ensures Inv(Apply(s, a))
  {
  }

  lemma ApplyKeepsInv(s: State, a: Action)
    requires Inv(s)
    ensures Inv(Apply(s, a))
  {
    match a
    case RecordReasonSent(_) => KeepsRecordReasonSent(s, a);
    case MarkActive(_, _, _, _) => KeepsMarkActive(s, a);
    case AbandonWrite(_, _, _) => KeepsAbandonWrite(s, a);
    case ReadDue(_) => KeepsReadDue(s, a);
    case Claim(_, _, _, _) => KeepsClaim(s, a);
    case ReadProvider(_, _, _, _) => KeepsReadProvider(s, a);
    case BeginDelete(_) => KeepsBeginDelete(s, a);
    case Remove(_, _) => KeepsRemove(s, a);
    case Settle(_, _, _) => KeepsSettle(s, a);
    case Release(_) => KeepsRelease(s, a);
    case ReadExpired(_) => KeepsReadExpired(s, a);
    case Reconcile(_, _, _) => KeepsReconcile(s, a);
    case ReconcileAtOnce(_, _, _) => KeepsReconcileAtOnce(s, a);
    case CloseByHand(_, _, _) => KeepsCloseByHand(s, a);
  }

  /** Every reachable state of the protocol satisfies the invariant. */
  lemma {:induction false} ExecKeepsInv(s: State, actions: seq<Action>)
    requires Inv(s)
    ensures Inv(Exec(s, actions))
  {
    if actions != [] {
      ExecKeepsInv(s, actions[..|actions| - 1]);
      ApplyKeepsInv(Exec(s, actions[..|actions| - 1]), actions[|actions| - 1]);
    }
  }
}
