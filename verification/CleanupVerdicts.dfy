/** What a verdict says of the provider: each one is written on the answer it stands for, and on no other. */
module CleanupVerdicts {
  import opened Wrappers
  import opened CleanupOwnership
  import opened CleanupStore
  import opened CleanupProtocol
  import opened CleanupSafety

  /** What may be said of a row once `remove_override` has ended in this way. */
  predicate FitsRemoval(verdict: CleanupState, outcome: RemoveAnswer) {
    && outcome != WritesDisabled
    && (verdict == CleanedUp <==> outcome == ConfirmedApplied)
    && (verdict == UnknownCleanupState <==> outcome == NoAnswer || outcome == UnknownWriteState)
    && (verdict == NeedsReview <==> outcome == ConfirmedFailed)
  }

  /** An override that is there, and not provably the record's own. */
  predicate NotOurs(record: Row, answer: ReadAnswer) {
    answer.Read? && answer.found.Some? && CheckOwnership(record.identity, answer.found) != Owned
  }

  predicate Ours(record: Row, answer: ReadAnswer) {
    answer.Read? && answer.found.Some? && CheckOwnership(record.identity, answer.found) == Owned
  }

  /** And where nothing was sent. */
  predicate FitsRead(record: Row, verdict: CleanupState, banded: bool, answer: ReadAnswer) {
    && (verdict == Vanished <==> banded && answer == Read(None))
    && (verdict == NeedsReview <==> !banded || NotOurs(record, answer))
    && (verdict == Vanished || verdict == NeedsReview)
  }

  /** Why an attempt puts its claim down: the read failed, or a switch is off. */
  predicate Reversible(record: Row, banded: bool, answer: ReadAnswer, switchesOn: bool) {
    banded && (answer.Unreadable? || (Ours(record, answer) && !switchesOn))
  }

  /** At action d attempt t, behind its fence, heard how its removal ended. */
  ghost predicate RemovedAt(s: State, actions: seq<Action>, t: Token, outcome: RemoveAnswer, d: nat) {
    && d < |actions| && actions[d] == Remove(t, outcome)
    && t in StateAt(s, actions, d).attempts && StateAt(s, actions, d).attempts[t].pc.Fenced?
  }

  /** At action d attempt t, holding its claim, heard what the provider shows. */
  ghost predicate ReadAt(s: State, actions: seq<Action>, t: Token, banded: bool, answer: ReadAnswer, on: bool, d: nat) {
    && d < |actions| && actions[d] == ReadProvider(t, banded, answer, on)
    && t in StateAt(s, actions, d).attempts && StateAt(s, actions, d).attempts[t].pc.Holding?
  }

  /** The attempt's answer, at action d, that this verdict stands for. */
  ghost predicate HeardAt(s: State, actions: seq<Action>, t: Token, verdict: CleanupState, deleted: bool, d: nat) {
    if deleted then
      exists outcome :: RemovedAt(s, actions, t, outcome, d) && FitsRemoval(verdict, outcome)
    else
      exists banded, answer, on :: ReadAt(s, actions, t, banded, answer, on, d) &&
                                   FitsRead(StateAt(s, actions, d).attempts[t].record, verdict, banded, answer)
  }

  lemma HeardEarlier(s: State, actions: seq<Action>, n: nat, t: Token, verdict: CleanupState, deleted: bool, d: nat)
    requires n <= |actions| && HeardAt(s, actions[..n], t, verdict, deleted, d)
    ensures HeardAt(s, actions, t, verdict, deleted, d)
  {
    assert actions[..n][..d] == actions[..d];
    assert StateAt(s, actions[..n], d) == StateAt(s, actions, d);
    if deleted {
      var outcome :| RemovedAt(s, actions[..n], t, outcome, d) && FitsRemoval(verdict, outcome);
      assert RemovedAt(s, actions, t, outcome, d);
    } else {
      var banded, answer, on :| ReadAt(s, actions[..n], t, banded, answer, on, d) &&
                                FitsRead(StateAt(s, actions[..n], d).attempts[t].record, verdict, banded, answer);
      assert ReadAt(s, actions, t, banded, answer, on, d);
    }
  }

  /** How an attempt comes to its verdict. */
  lemma BecomesSettling(s: State, a: Action, t: Token)
    requires t in Apply(s, a).attempts && Apply(s, a).attempts[t].pc.Settling?
    ensures
      var pc := Apply(s, a).attempts[t].pc;
      && t in s.attempts
      && (s.attempts[t].pc != pc && pc.deleted ==>
            a.Remove? && a.token == t && s.attempts[t].pc.Fenced? && FitsRemoval(pc.verdict, a.outcome))
      && (s.attempts[t].pc != pc && !pc.deleted ==>
            a.ReadProvider? && a.token == t && s.attempts[t].pc.Holding?
            && FitsRead(s.attempts[t].record, pc.verdict, a.banded, a.answer))
  {
    hide CheckOwnership;
  }

  lemma {:induction false} SettlingHistory(s: State, actions: seq<Action>, t: Token) returns (d: nat)
    requires Initial(s) && t in Exec(s, actions).attempts && Exec(s, actions).attempts[t].pc.Settling?
    ensures var pc := Exec(s, actions).attempts[t].pc; HeardAt(s, actions, t, pc.verdict, pc.deleted, d)
    decreases |actions|
  {
    hide HeardAt, FitsRead, FitsRemoval;
    var n := |actions| - 1;
    LastStep(s, actions);
    var before, a, pc := StateAt(s, actions, n), actions[n], Exec(s, actions).attempts[t].pc;
    BecomesSettling(before, a, t);
    if before.attempts[t].pc == pc {
      d := SettlingHistory(s, actions[..n], t);
      HeardEarlier(s, actions, n, t, pc.verdict, pc.deleted, d);
    } else {
      d := n;
      JustHeard(s, actions, t, pc.verdict, pc.deleted);
    }
  }

  lemma JustHeard(s: State, actions: seq<Action>, t: Token, verdict: CleanupState, deleted: bool)
    requires actions != []
    requires
      var n := |actions| - 1;
      var before, a := StateAt(s, actions, n), actions[n];
      && t in before.attempts
      && (if deleted then a.Remove? && a.token == t && before.attempts[t].pc.Fenced? && FitsRemoval(verdict, a.outcome)
          else a.ReadProvider? && a.token == t && before.attempts[t].pc.Holding?
               && FitsRead(before.attempts[t].record, verdict, a.banded, a.answer))
    ensures HeardAt(s, actions, t, verdict, deleted, |actions| - 1)
  {
    hide FitsRead, FitsRemoval;
    var n := |actions| - 1;
    var a := actions[n];
    if deleted {
      assert RemovedAt(s, actions, t, a.outcome, n);
    } else {
      assert ReadAt(s, actions, t, a.banded, a.answer, a.switchesOn, n);
    }
  }

  /** The verdict of attempt t landed at action e: its token was on the row. */
  ghost predicate LandedAt(s: State, actions: seq<Action>, t: Token, e: nat) {
    && e < |actions| && actions[e].Settle? && actions[e].token == t
    && t in StateAt(s, actions, e).attempts && StateAt(s, actions, e).attempts[t].pc.Settling?
    && StateAt(s, actions, e).row.claimToken == Some(t)
  }

  /** Every verdict that lands is the one its attempt's answer stands for. */
  lemma LandedAsHeard(s: State, actions: seq<Action>, t: Token, e: nat) returns (deleted: bool, d: nat)
    requires Initial(s) && LandedAt(s, actions, t, e)
    ensures d < e && HeardAt(s, actions, t, StateAt(s, actions, e + 1).row.state, deleted, d)
    ensures StateAt(s, actions, e + 1).row.claimToken == None
  {
    hide HeardAt;
    StateAtStep(s, actions, e);
    var at := StateAt(s, actions, e);
    deleted := at.attempts[t].pc.deleted;
    d := SettlingHistory(s, actions[..e], t);
    HeardBefore(s, actions[..e], t, at.attempts[t].pc.verdict, deleted, d);
    HeardEarlier(s, actions, e, t, at.attempts[t].pc.verdict, deleted, d);
  }

  lemma HeardBefore(s: State, actions: seq<Action>, t: Token, verdict: CleanupState, deleted: bool, d: nat)
    requires HeardAt(s, actions, t, verdict, deleted, d)
    ensures d < |actions|
  {
  }

  /** Only a landed verdict makes a row CLEANED_UP or UNKNOWN. */
  lemma BecomesDecided(s: State, a: Action)
    requires Inv(s) && (Apply(s, a).row.state == CleanedUp || Apply(s, a).row.state == UnknownCleanupState)
    ensures
      || s.row.state == Apply(s, a).row.state
      || (a.Settle? && a.token in s.attempts && s.attempts[a.token].pc == Settling(Apply(s, a).row.state, true)
          && s.row.claimToken == Some(a.token))
  {
    hide LogOk, CheckOwnership, AfterRead, AfterRemove;
  }

  lemma {:induction false} DecidedBy(s: State, actions: seq<Action>) returns (t: Token, e: nat)
    requires Initial(s) && (Exec(s, actions).row.state == CleanedUp || Exec(s, actions).row.state == UnknownCleanupState)
    ensures LandedAt(s, actions, t, e) && StateAt(s, actions, e).attempts[t].pc == Settling(Exec(s, actions).row.state, true)
    decreases |actions|
  {
    var n := |actions| - 1;
    LastStep(s, actions);
    InitialInv(s);
    ExecKeepsInv(s, actions[..n]);
    hide Inv, Apply;
    BecomesDecided(StateAt(s, actions, n), actions[n]);
    if StateAt(s, actions, n).row.state == Exec(s, actions).row.state {
      t, e := DecidedBy(s, actions[..n]);
      StateAtPrefix(s, actions, n);
      assert StateAt(s, actions[..n], e) == StateAt(s, actions, e);
    } else {
      t, e := actions[n].token, n;
    }
  }

  /**
   A row is CLEANED_UP only on the provider's word that the removal was applied, and UNKNOWN only
   where it gave no such word: the attempt that crossed the fence heard it, and wrote the verdict
   with its token still on the row.
   */
  lemma DecidedAsHeard(s: State, actions: seq<Action>)
    returns (t: Token, outcome: RemoveAnswer, b: nat, d: nat, e: nat)
    requires Initial(s) && (Exec(s, actions).row.state == CleanedUp || Exec(s, actions).row.state == UnknownCleanupState)
    ensures FencedAt(s, actions, t, b) && RemovedAt(s, actions, t, outcome, d) && LandedAt(s, actions, t, e) && b < d < e
    ensures Exec(s, actions).row.state == CleanedUp <==> outcome == ConfirmedApplied
    ensures Exec(s, actions).row.state == UnknownCleanupState <==> outcome == NoAnswer || outcome == UnknownWriteState
  {
    t, e := DecidedBy(s, actions);
    hide Apply, Initial, FencedAt, LandedAt, HeardAt;
    assert t in Exec(s, actions[..e]).attempts && Exec(s, actions[..e]).attempts[t].pc == StateAt(s, actions, e).attempts[t].pc
      by { LandedIsThere(s, actions, t, e); }
    d := SettlingHistory(s, actions[..e], t);
    HeardBefore(s, actions[..e], t, Exec(s, actions).row.state, true, d);
    HeardEarlier(s, actions, e, t, Exec(s, actions).row.state, true, d);
    outcome := HeardOutcome(s, actions, t, Exec(s, actions).row.state, d);
    var c, r;
    c, r, b := FenceHistory(s, actions[..d], t);
    FencedBefore(s, actions[..d], t, b);
    HistoriesExtend(s, actions, d);
  }

  lemma LandedIsThere(s: State, actions: seq<Action>, t: Token, e: nat)
    requires LandedAt(s, actions, t, e)
    ensures e < |actions| && t in StateAt(s, actions, e).attempts && StateAt(s, actions, e) == Exec(s, actions[..e])
  {
  }

  lemma FencedBefore(s: State, actions: seq<Action>, t: Token, b: nat)
    requires FencedAt(s, actions, t, b)
    ensures b < |actions|
  {
  }

  lemma HeardOutcome(s: State, actions: seq<Action>, t: Token, verdict: CleanupState, d: nat) returns (outcome: RemoveAnswer)
    requires HeardAt(s, actions, t, verdict, true, d)
    ensures RemovedAt(s, actions, t, outcome, d) && FitsRemoval(verdict, outcome)
  {
    outcome :| RemovedAt(s, actions, t, outcome, d) && FitsRemoval(verdict, outcome);
  }

  // -- and each answer comes to its verdict -------------------------------

  /** An attempt whose token is on the row keeps the decision it came to until it writes it. */
  lemma {:induction false} StaysDecided(s: State, actions: seq<Action>, t: Token, i: nat, k: nat)
    requires i <= k <= |actions| && t in StateAt(s, actions, i).attempts
    requires StateAt(s, actions, i).attempts[t].pc.Settling? || StateAt(s, actions, i).attempts[t].pc.Releasing?
    requires StateAt(s, actions, k).row.claimToken == Some(t)
    ensures t in StateAt(s, actions, k).attempts && StateAt(s, actions, k).attempts[t].pc == StateAt(s, actions, i).attempts[t].pc
    decreases k
  {
    if i < k {
      AttemptsStay(s, actions, i, k - 1, t);
      TokenStays(s, actions, k - 1, k, t);
      StaysDecided(s, actions, t, i, k - 1);
      StateAtStep(s, actions, k - 1);
      DecisionStays(StateAt(s, actions, k - 1), actions[k - 1], t);
    }
  }

  lemma DecisionStays(s: State, a: Action, t: Token)
    requires t in s.attempts && (s.attempts[t].pc.Settling? || s.attempts[t].pc.Releasing?)
    requires s.row.claimToken == Some(t) && Apply(s, a).row.claimToken == Some(t)
    ensures t in Apply(s, a).attempts && Apply(s, a).attempts[t] == s.attempts[t]
  {
    hide CheckOwnership, AfterRead, AfterRemove;
  }

  lemma SettleWrites(s: State, a: Action)
    requires a.Settle? && a.token in s.attempts && s.attempts[a.token].pc.Settling? && s.row.claimToken == Some(a.token)
    ensures Apply(s, a).row.state == s.attempts[a.token].pc.verdict
  {
  }

  lemma RemovalDecides(s: State, t: Token, outcome: RemoveAnswer)
    requires t in s.attempts && s.attempts[t].pc.Fenced? && outcome != WritesDisabled
    ensures
      var u := Apply(s, Remove(t, outcome));
      t in u.attempts && u.attempts[t].pc.Settling? && FitsRemoval(u.attempts[t].pc.verdict, outcome)
  {
  }

  /** A sender whose token is still on the row writes what its answer stands for. */
  lemma RemovalIsWritten(s: State, actions: seq<Action>, t: Token, outcome: RemoveAnswer, d: nat, e: nat)
    requires RemovedAt(s, actions, t, outcome, d) && outcome != WritesDisabled && d < e < |actions|
    requires actions[e].Settle? && actions[e].token == t && StateAt(s, actions, e).row.claimToken == Some(t)
    ensures FitsRemoval(StateAt(s, actions, e + 1).row.state, outcome)
  {
    hide Exec, Apply, StateAt, FitsRemoval;
    StateAtStep(s, actions, d);
    RemovalDecides(StateAt(s, actions, d), t, outcome);
    StaysDecided(s, actions, t, d + 1, e);
    StateAtStep(s, actions, e);
    SettleWrites(StateAt(s, actions, e), actions[e]);
  }

  /** And so does a reader that goes no further. */
  lemma ReadingIsWritten(s: State, actions: seq<Action>, t: Token, banded: bool, answer: ReadAnswer, on: bool, d: nat, e: nat)
    requires ReadAt(s, actions, t, banded, answer, on, d) && d < e < |actions|
    requires !banded || answer == Read(None) || NotOurs(StateAt(s, actions, d).attempts[t].record, answer)
    requires actions[e].Settle? && actions[e].token == t && StateAt(s, actions, e).row.claimToken == Some(t)
    ensures FitsRead(StateAt(s, actions, d).attempts[t].record, StateAt(s, actions, e + 1).row.state, banded, answer)
  {
    hide CheckOwnership;
    StateAtStep(s, actions, d);
    assert StateAt(s, actions, d + 1).attempts[t].pc.Settling?;
    StaysDecided(s, actions, t, d + 1, e);
    StateAtStep(s, actions, e);
    hide Exec;
  }

  /** Where nothing can have been sent, the row goes back to ACTIVE. */
  lemma PutDownIsActive(s: State, actions: seq<Action>, t: Token, banded: bool, answer: ReadAnswer, on: bool, d: nat, e: nat)
    requires d < e < |actions|
    requires
      || RemovedAt(s, actions, t, WritesDisabled, d)
      || (ReadAt(s, actions, t, banded, answer, on, d)
          && Reversible(StateAt(s, actions, d).attempts[t].record, banded, answer, on))
    requires actions[e] == Release(t) && StateAt(s, actions, e).row.claimToken == Some(t)
    ensures StateAt(s, actions, e + 1).row.state == Active && StateAt(s, actions, e + 1).row.claimToken == None
    ensures StateAt(s, actions, d + 1).log == StateAt(s, actions, d).log
  {
    hide CheckOwnership;
    StateAtStep(s, actions, d);
    assert StateAt(s, actions, d + 1).attempts[t].pc.Releasing?;
    StaysDecided(s, actions, t, d + 1, e);
    StateAtStep(s, actions, e);
    hide Exec;
  }

  // -- the writer, and people ---------------------------------------------

  /** Before the write is confirmed: what was sent, and how a write that was not confirmed is put away. */
  lemma WriterSteps(s: State, reason: string, unknown: bool, resolution: string, stamp: string)
    requires s.row.state == PendingWrite
    ensures Apply(s, RecordReasonSent(reason)) == s.(row := s.row.(reasonSent := Some(reason)))
    ensures
      var t := Apply(s, AbandonWrite(unknown, resolution, stamp));
      && t == s.(row := t.row) && IsSettled(s.row, t.row, if unknown then NeedsReview else Vanished, stamp)
      && t.row.resolution == Some(resolution)
  {
  }

  /** A person closes exactly what automation has given up on, under the text and the name given. */
  lemma PeopleClose(s: State, text: string, user: string, stamp: string)
    ensures
      var t := Apply(s, CloseByHand(text, user, stamp));
      t == s.(row :=
        if s.row.state == NeedsReview || s.row.state == UnknownCleanupState
        then s.row.(state := ManuallyResolved, manualResolution := Some(text), resolvedByUserId := Some(user),
                    manuallyResolvedAt := Some(stamp))
        else s.row)
  {
  }
}
