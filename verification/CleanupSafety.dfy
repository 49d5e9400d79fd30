/** What the cleanup protocol promises over every run. */
module CleanupSafety {
  import opened Wrappers
  import opened Texts
  import opened IsoStamps
  import opened CleanupOwnership
  import opened CleanupStore
  import opened CleanupProtocol

  /** The state before action `k`. */
  function StateAt(s: State, actions: seq<Action>, k: nat): State
    requires k <= |actions|
  {
    Exec(s, actions[..k])
  }

  lemma StateAtStep(s: State, actions: seq<Action>, k: nat)
    requires k < |actions|
    ensures StateAt(s, actions, k + 1) == Apply(StateAt(s, actions, k), actions[k])
  {
    assert actions[..k + 1][..k] == actions[..k];
  }

  lemma StateAtPrefix(s: State, actions: seq<Action>, n: nat)
    requires n <= |actions|
    ensures forall k :: 0 <= k <= n ==> StateAt(s, actions[..n], k) == StateAt(s, actions, k)
  {
    forall k | 0 <= k <= n ensures actions[..n][..k] == actions[..k] {
    }
  }

  lemma {:induction false} ExecConcat(s: State, xs: seq<Action>, ys: seq<Action>)
    ensures Exec(s, xs + ys) == Exec(Exec(s, xs), ys)
  {
    if ys == [] {
      assert xs + ys == xs;
    } else {
      var n := |ys| - 1;
      ExecConcat(s, xs, ys[..n]);
      assert (xs + ys)[..|xs| + n] == xs + ys[..n];
    }
  }

  // -- at most one DELETE ------------------------------------------------

  /** However the parties interleave, stall, crash or come back: one DELETE, or none. */
  lemma AtMostOneDelete(s: State, actions: seq<Action>)
    requires Initial(s)
    ensures |Exec(s, actions).log| <= 1
  {
    InitialInv(s);
    ExecKeepsInv(s, actions);
  }

  lemma {:induction false} LogOnlyGrows(s: State, actions: seq<Action>)
    ensures s.log <= Exec(s, actions).log
  {
    if actions != [] {
      LogOnlyGrows(s, actions[..|actions| - 1]);
    }
  }

  /** Once a DELETE has been attempted the row is never ACTIVE, CLAIMED or VANISHED again. */
  lemma NoWayBackAfterDelete(s: State, xs: seq<Action>, ys: seq<Action>)
    requires Initial(s)
    requires Exec(s, xs).log != []
    ensures PastDelete(Exec(s, xs + ys).row.state)
    ensures Exec(s, xs + ys).log == Exec(s, xs).log
  {
    AtMostOneDelete(s, xs + ys);
    ExecConcat(s, xs, ys);
    LogOnlyGrows(Exec(s, xs), ys);
    InitialInv(s);
    ExecKeepsInv(s, xs + ys);
  }

  // -- only a worker that held the row throughout ------------------------

  /** A token that has left the row never returns to it: claims use fresh tokens. */
  lemma TokenGone(s: State, a: Action, t: Token)
    requires t in s.attempts && s.row.claimToken != Some(t)
    ensures t in Apply(s, a).attempts && Apply(s, a).row.claimToken != Some(t)
  {
  }

  lemma {:induction false} TokenStays(s: State, actions: seq<Action>, i: nat, j: nat, t: Token)
    requires i <= j <= |actions|
    requires t in StateAt(s, actions, i).attempts
    requires StateAt(s, actions, j).row.claimToken == Some(t)
    ensures StateAt(s, actions, i).row.claimToken == Some(t)
    decreases j - i
  {
    if i < j {
      StateAtStep(s, actions, i);
      assert t in StateAt(s, actions, i + 1).attempts;
      TokenStays(s, actions, i + 1, j, t);
      if StateAt(s, actions, i).row.claimToken != Some(t) {
        TokenGone(StateAt(s, actions, i), actions[i], t);
      }
    }
  }

  /** Attempt `t` began at action `c`, by a claim that won the row. */
  ghost predicate ClaimedAt(s: State, actions: seq<Action>, t: Token, c: nat) {
    && c < |actions|
    && actions[c].Claim? && actions[c].token == t
    && t in StateAt(s, actions, c + 1).attempts
    && StateAt(s, actions, c + 1).row.claimToken == Some(t)
  }

  /** At action `r` attempt `t` read the provider with every switch on, and its proof held. */
  ghost predicate ProvedAt(actions: seq<Action>, t: Token, proof: Proof, r: nat) {
    r < |actions| && actions[r] == ReadProvider(t, true, Read(Some(proof.found)), true)
  }

  ghost predicate FencedAt(s: State, actions: seq<Action>, t: Token, b: nat) {
    && b < |actions|
    && actions[b] == BeginDelete(t)
    && MayBeginDelete(StateAt(s, actions, b).row, t)
    && StateAt(s, actions, b + 1).row.state == DeleteStarted
  }

  lemma HistoriesExtend(s: State, actions: seq<Action>, n: nat)
    requires n <= |actions|
    ensures forall t, c: nat :: ClaimedAt(s, actions[..n], t, c) ==> ClaimedAt(s, actions, t, c)
    ensures forall t, b: nat :: FencedAt(s, actions[..n], t, b) ==> FencedAt(s, actions, t, b)
  {
    StateAtPrefix(s, actions, n);
    forall t, c: nat | ClaimedAt(s, actions[..n], t, c) ensures ClaimedAt(s, actions, t, c) {
      assert StateAt(s, actions[..n], c + 1) == StateAt(s, actions, c + 1);
    }
    forall t, b: nat | FencedAt(s, actions[..n], t, b) ensures FencedAt(s, actions, t, b) {
      assert StateAt(s, actions[..n], b) == StateAt(s, actions, b);
      assert StateAt(s, actions[..n], b + 1) == StateAt(s, actions, b + 1);
    }
  }

  lemma LastStep(s: State, actions: seq<Action>)
    requires actions != []
    ensures Exec(s, actions) == Apply(StateAt(s, actions, |actions| - 1), actions[|actions| - 1])
  {
  }

  lemma BecomesProven(s: State, a: Action, t: Token)
    requires t in Apply(s, a).attempts && Apply(s, a).attempts[t].pc.Proven?
    ensures t in s.attempts
    ensures s.attempts[t].pc == Apply(s, a).attempts[t].pc ||
            a == ReadProvider(t, true, Read(Some(Apply(s, a).attempts[t].pc.proof.found)), true)
  {
  }

  lemma BecomesFenced(s: State, a: Action, t: Token)
    requires t in Apply(s, a).attempts && Apply(s, a).attempts[t].pc.Fenced?
    ensures t in s.attempts
    ensures s.attempts[t].pc == Apply(s, a).attempts[t].pc ||
            (a == BeginDelete(t) && MayBeginDelete(s.row, t) && Apply(s, a).row.state == DeleteStarted &&
             s.attempts[t].pc == Proven(Apply(s, a).attempts[t].pc.proof))
  {
  }

  lemma LogStep(s: State, a: Action)
    requires |Apply(s, a).log| == 1
    ensures s.log == Apply(s, a).log ||
            (a.Remove? && a.token in s.attempts && Apply(s, a).log[0].token == a.token &&
             s.attempts[a.token].pc == Fenced(Apply(s, a).log[0].proof))
  {
  }

  lemma {:induction false} ClaimHistory(s: State, actions: seq<Action>, t: Token) returns (c: nat)
    requires Initial(s) && t in Exec(s, actions).attempts
    ensures ClaimedAt(s, actions, t, c)
    decreases |actions|
  {
    var n := |actions| - 1;
    LastStep(s, actions);
    if t in StateAt(s, actions, n).attempts {
      c := ClaimHistory(s, actions[..n], t);
      HistoriesExtend(s, actions, n);
    } else {
      c := n;
      assert actions[..n + 1] == actions;
    }
  }

  lemma {:induction false} ProofHistory(s: State, actions: seq<Action>, t: Token) returns (c: nat, r: nat)
    requires Initial(s) && t in Exec(s, actions).attempts && Exec(s, actions).attempts[t].pc.Proven?
    ensures ClaimedAt(s, actions, t, c) && c < r
    ensures ProvedAt(actions, t, Exec(s, actions).attempts[t].pc.proof, r)
    decreases |actions|
  {
    var n := |actions| - 1;
    LastStep(s, actions);
    var before := StateAt(s, actions, n);
    BecomesProven(before, actions[n], t);
    if before.attempts[t].pc.Proven? {
      c, r := ProofHistory(s, actions[..n], t);
    } else {
      c := ClaimHistory(s, actions[..n], t);
      r := n;
    }
    HistoriesExtend(s, actions, n);
  }

  lemma {:induction false} FenceHistory(s: State, actions: seq<Action>, t: Token) returns (c: nat, r: nat, b: nat)
    requires Initial(s) && t in Exec(s, actions).attempts && Exec(s, actions).attempts[t].pc.Fenced?
    ensures ClaimedAt(s, actions, t, c) && c < r < b
    ensures ProvedAt(actions, t, Exec(s, actions).attempts[t].pc.proof, r)
    ensures FencedAt(s, actions, t, b)
    decreases |actions|
  {
    var n := |actions| - 1;
    LastStep(s, actions);
    var before := StateAt(s, actions, n);
    BecomesFenced(before, actions[n], t);
    if before.attempts[t].pc.Fenced? {
      c, r, b := FenceHistory(s, actions[..n], t);
    } else {
      c, r := ProofHistory(s, actions[..n], t);
      b := n;
      assert actions[..n + 1] == actions;
    }
    HistoriesExtend(s, actions, n);
  }

  lemma {:induction false} SendHistory(s: State, actions: seq<Action>) returns (c: nat, r: nat, b: nat, d: nat)
    requires Initial(s) && |Exec(s, actions).log| == 1
    ensures
      var e := Exec(s, actions).log[0];
      && ClaimedAt(s, actions, e.token, c) && c < r < b < d < |actions|
      && ProvedAt(actions, e.token, e.proof, r)
      && FencedAt(s, actions, e.token, b)
      && actions[d].Remove? && actions[d].token == e.token
    decreases |actions|
  {
    var n := |actions| - 1;
    LastStep(s, actions);
    var before := StateAt(s, actions, n);
    LogStep(before, actions[n]);
    if before.log == Exec(s, actions).log {
      c, r, b, d := SendHistory(s, actions[..n]);
    } else {
      c, r, b := FenceHistory(s, actions[..n], actions[n].token);
      d := n;
    }
    HistoriesExtend(s, actions, n);
  }

  lemma {:induction false} AttemptsStay(s: State, actions: seq<Action>, i: nat, j: nat, t: Token)
    requires i <= j <= |actions| && t in StateAt(s, actions, i).attempts
    ensures t in StateAt(s, actions, j).attempts
    decreases j
  {
    if i < j {
      AttemptsStay(s, actions, i, j - 1, t);
      StateAtStep(s, actions, j - 1);
    }
  }

  /**
   Behind every DELETE there is one worker that claimed the row, then read the provider
   and proved the override its own, then crossed the fence, and whose token never left
   the row from the claim until the fence had committed.
   */
  lemma DeleteIsJustified(s: State, actions: seq<Action>) returns (c: nat, r: nat, b: nat, d: nat)
    requires Initial(s) && Exec(s, actions).log != []
    ensures
      var e := Exec(s, actions).log[0];
      && ClaimedAt(s, actions, e.token, c) && c < r < b < d < |actions|
      && ProvedAt(actions, e.token, e.proof, r)
      && FencedAt(s, actions, e.token, b)
      && actions[d].Remove? && actions[d].token == e.token
      && CheckOwnership(Exec(s, actions).row.identity, Some(e.proof.found)) == Owned
      && forall k :: c < k <= b ==> StateAt(s, actions, k).row.claimToken == Some(e.token)
  {
    InitialInv(s);
    ExecKeepsInv(s, actions);
    var e := Exec(s, actions).log[0];
    c, r, b, d := SendHistory(s, actions);
    forall k | c < k <= b ensures StateAt(s, actions, k).row.claimToken == Some(e.token) {
      AttemptsStay(s, actions, c + 1, k, e.token);
      TokenStays(s, actions, k, b, e.token);
    }
  }

  // -- which rows can still move -----------------------------------------

  predicate Closed(st: CleanupState) {
    st == CleanedUp || st == Vanished || st == ManuallyResolved
  }

  /** Whether `a` is a step of the attempt that holds the row. */
  predicate ByHolder(s: State, a: Action) {
    (a.Settle? || a.Release?) && s.row.claimToken == Some(a.token)
  }

  /** An action that is not an attempt's own step. */
  predicate FromOutside(a: Action) {
    !a.ReadProvider? && !a.BeginDelete? && !a.Remove? && !a.Settle? && !a.Release?
  }

  /** The only way a row moves, state by state. */
  ghost predicate Edge(s: State, a: Action) {
    var r, q := s.row, Apply(s, a).row;
    && (Closed(r.state) ==> q == r)
    && (ManuallyResolvable(r.state) && q != r ==>
          a.CloseByHand? && q == r.(state := ManuallyResolved, manualResolution := q.manualResolution,
                                    resolvedByUserId := q.resolvedByUserId,
                                    manuallyResolvedAt := q.manuallyResolvedAt))
    && (r.state == DeleteStarted && q != r ==>
          ByHolder(s, a) ||
          (a.Reconcile? && a.snapshot in s.snapshots && a.snapshot.claimToken == r.claimToken && q.state == NeedsReview))
    && (r.state == Claimed && q.state == DeleteStarted ==> q.claimToken.Some? && a == BeginDelete(q.claimToken.value))
    && (q.state == Active && r.state != Active ==> a.MarkActive? || (a.Release? && ByHolder(s, a)))
  }

  lemma OutsideEdges(s: State, a: Action)
    requires Inv(s) && FromOutside(a)
    ensures Edge(s, a)
  {
    hide Advance, LogOk, AttemptOk, CheckOwnership;
  }

  lemma AttemptEdges(s: State, a: Action)
    requires Inv(s) && !FromOutside(a)
    ensures Edge(s, a)
  {
    hide LogOk, CheckOwnership, AfterRead, AfterRemove;
  }

  lemma RowEdges(s: State, a: Action)
    requires Inv(s)
    ensures Edge(s, a)
  {
    hide Inv, Edge;
    if FromOutside(a) { OutsideEdges(s, a); } else { AttemptEdges(s, a); }
  }

  /** In every reachable state a row holds a token exactly while somebody is working on it. */
  lemma TokenExactlyInHands(s: State, actions: seq<Action>)
    requires Initial(s)
    ensures Exec(s, actions).row.claimToken.Some? <==> InHands(Exec(s, actions).row.state)
  {
    InitialInv(s);
    ExecKeepsInv(s, actions);
  }

  /** A closed row stays exactly as it is for the rest of any run. */
  lemma {:induction false} ClosedForever(s: State, actions: seq<Action>)
    requires Inv(s) && Closed(s.row.state)
    ensures Exec(s, actions).row == s.row
  {
    if actions != [] {
      var init := actions[..|actions| - 1];
      ClosedForever(s, init);
      ExecKeepsInv(s, init);
      RowEdges(Exec(s, init), actions[|actions| - 1]);
    }
  }

  /** What automation concluded about a row it gave up on survives whatever a person does. */
  lemma {:induction false} VerdictSurvives(s: State, actions: seq<Action>)
    requires Inv(s) && ManuallyResolvable(s.row.state)
    ensures
      var q := Exec(s, actions).row;
      && (q.state == s.row.state || q.state == ManuallyResolved)
      && q.resolution == s.row.resolution && q.resolvedAt == s.row.resolvedAt
      && q.identity == s.row.identity && q.origin == s.row.origin && q.reasonSent == s.row.reasonSent
  {
    if actions != [] {
      var init := actions[..|actions| - 1];
      VerdictSurvives(s, init);
      ExecKeepsInv(s, init);
      RowEdges(Exec(s, init), actions[|actions| - 1]);
    }
  }

  /** Putting a claim down makes the row ACTIVE exactly when the claim was still held. */
  lemma ReleaseReachesActive(s: State, token: Token)
    requires Inv(s) && token in s.attempts && s.attempts[token].pc.Releasing?
    ensures Apply(s, Release(token)).row.state == Active <==> s.row.state == Active || HeldBy(s.row, token)
    ensures HeldBy(s.row, token) || Apply(s, Release(token)).row == s.row
  {
  }

  /** Every claim has a token, so the branch of `_reconcile` for a claim without one never runs. */
  lemma NoTokenlessClaim(s: State, actions: seq<Action>, copy: Row)
    requires Initial(s) && copy in Exec(s, actions).snapshots
    ensures copy.claimToken.Some?
    ensures !Unclaimed(Exec(s, actions).row)
  {
    InitialInv(s);
    ExecKeepsInv(s, actions);
  }

  // -- reconciliation against the fence ----------------------------------

  /**
   A reconciler spares a fenced row exactly when the copy it read carries another token
   than the row.  Comparing the token is not comparing the state.
   */
  lemma ReconcileSparesTheFence(s: State, copy: Row, detail: string, stamp: string)
    requires Inv(s) && s.row.state == DeleteStarted && copy in s.snapshots
    ensures Apply(s, Reconcile(copy, detail, stamp)).row == s.row <==> copy.claimToken != s.row.claimToken
  {
  }

  /** Runs in which each reconciler reads and writes in one step. */
  predicate ReadsAndWritesAtOnce(actions: seq<Action>) {
    forall a :: a in actions ==> !a.Reconcile?
  }

  /** With that, whoever has crossed the fence still holds the row. */
  ghost predicate FenceHeld(s: State) {
    forall t :: t in s.attempts && Crossed(s.attempts[t].pc) ==>
                  s.row.state == DeleteStarted && s.row.claimToken == Some(t)
  }

  lemma FenceHeldStep(s: State, a: Action)
    requires Inv(s) && FenceHeld(s) && !a.Reconcile?
    ensures FenceHeld(Apply(s, a))
  {
    RowEdges(s, a);
  }

  lemma {:induction false} FenceHeldThroughout(s: State, actions: seq<Action>)
    requires Initial(s) && ReadsAndWritesAtOnce(actions)
    ensures FenceHeld(Exec(s, actions))
  {
    if actions != [] {
      var init := actions[..|actions| - 1];
      FenceHeldThroughout(s, init);
      InitialInv(s);
      ExecKeepsInv(s, init);
      FenceHeldStep(Exec(s, init), actions[|actions| - 1]);
    }
  }

  /** When reconciling is atomic a DELETE is only ever sent for a row still fenced by its sender. */
  lemma AtomicDeleteIsFenced(s: State, actions: seq<Action>, a: Action)
    requires Initial(s) && ReadsAndWritesAtOnce(actions)
    requires Apply(Exec(s, actions), a).log != Exec(s, actions).log
    ensures a.Remove?
    ensures Exec(s, actions).row.state == DeleteStarted && Exec(s, actions).row.claimToken == Some(a.token)
  {
    FenceHeldThroughout(s, actions);
  }

  /** When reconciling is atomic, only the worker that fenced a row moves it off DELETE_STARTED. */
  lemma AtomicFenceMovesOnlyByHolder(s: State, actions: seq<Action>, a: Action)
    requires Initial(s) && ReadsAndWritesAtOnce(actions + [a])
    requires Exec(s, actions).row.state == DeleteStarted
    ensures Apply(Exec(s, actions), a).row != Exec(s, actions).row ==> ByHolder(Exec(s, actions), a)
  {
    InitialInv(s);
    ExecKeepsInv(s, actions);
    RowEdges(Exec(s, actions), a);
    assert a in actions + [a];
  }

  lemma Steps(s: State, a: Action, b: Action, c: Action, d: Action)
    ensures Exec(s, [a]) == Apply(s, a)
    ensures Exec(s, [a, b]) == Apply(Apply(s, a), b)
    ensures Exec(s, [a, b, c]) == Apply(Apply(Apply(s, a), b), c)
    ensures Exec(s, [a, b, c, d]) == Apply(Apply(Apply(Apply(s, a), b), c), d)
  {
    hide Apply;
    StepMore(s, [], a);
    StepMore(s, [a], b);
    StepMore(s, [a, b], c);
    StepMore(s, [a, b, c], d);
    assert [] + [a] == [a] && [a] + [b] == [a, b] && [a, b] + [c] == [a, b, c] && [a, b, c] + [d] == [a, b, c, d];
  }

  lemma StepMore(s: State, actions: seq<Action>, a: Action)
    ensures Exec(s, actions + [a]) == Apply(Exec(s, actions), a)
    ensures Exec(s, []) == s
  {
    hide Apply;
    assert (actions + [a])[..|actions|] == actions;
  }

  /** The owner is about to fence a claim that a reconciler has already read as lapsed. */
  predicate Overtaken(s: State, t: Token, copy: Row) {
    && t in s.attempts && s.attempts[t].pc.Proven?
    && MayBeginDelete(s.row, t)
    && copy in s.snapshots && copy.claimToken == Some(t)
    && s.log == []
  }

  /**
   With reading and writing split the promise about DELETE_STARTED fails: from every such
   state the reconciler settles the fenced row, a person closes it, and the DELETE is sent
   all the same.  It is still the only one.
   */
  lemma StaleCopyOutrunsTheFence(s: State, t: Token, copy: Row, text: string, stamp: string, outcome: RemoveAnswer)
    requires Overtaken(s, t, copy) && !outcome.WritesDisabled?
    ensures
      var fenced := Apply(s, BeginDelete(t));
      var settled := Apply(fenced, Reconcile(copy, text, stamp));
      var closed := Apply(settled, CloseByHand(text, text, stamp));
      var sent := Apply(closed, Remove(t, outcome));
      && fenced.row.state == DeleteStarted
      && settled.row.state == NeedsReview
      && closed.row.state == ManuallyResolved && closed.log == []
      && |sent.log| == 1 && sent.row.state == ManuallyResolved
  {
  }

  /** The provider's copy of an override nobody has touched since it was written. */
  function Untouched(id: string, price: real, created: string): Override {
    Override(Some(BuildReason(id, "")), Some(price), Some(created), Some(created))
  }

  lemma UntouchedIsOwned(id: string, price: real, created: string)
    requires IsMarker(id) && created != ""
    ensures CheckOwnership(Identity(false, Some(id), price, Some(created)), Some(Untouched(id, price, created))) == Owned
  {
    var reason := BuildReason(id, "");
    assert reason[..|reason|] == reason;
    OwnedExactly(Identity(false, Some(id), price, Some(created)), "", |reason|, Untouched(id, price, created));
  }

  /** Every record the system writes can get into that position, once it is due. */
  lemma OvertakenIsReachable(s: State, at: Instant, now: Moment)
    returns (opening: seq<Action>, closing: seq<Action>, copy: Row)
    requires Initial(s) && !s.row.identity.adopted && IsMarker(s.row.id)
    requires s.row.cleanupAt == Iso(at) && at <= now
    ensures Overtaken(Exec(s, opening + closing), "k", copy)
    ensures copy.claimedAt == Some(Iso(now)) && copy.leaseUntil == Some(Iso(LeaseEnd(now)))
  {
    hide *;
    var stamp, until := Iso(now), Iso(LeaseEnd(now));
    var found := Untouched(s.row.id, s.row.identity.newPrice, stamp);
    UntouchedIsOwned(s.row.id, s.row.identity.newPrice, stamp);
    IsoOrder(at, now);
    OpeningLeads(s, stamp, until);
    var confirm, look := MarkActive(Some(stamp), Some(stamp), "", stamp), ReadDue(stamp);
    var claim, lapse := Claim(Apply(s, confirm).row, "k", stamp, until), ReadExpired(until);
    var read := ReadProvider("k", true, Read(Some(found)), true);
    opening, closing := [confirm, look, claim, lapse], [read];
    Steps(s, confirm, look, claim, lapse);
    copy := Exec(s, opening).row;
    ProofLeads(Exec(s, opening), copy, found);
    Steps(Exec(s, opening), read, read, read, read);
    ExecConcat(s, opening, closing);
  }

  /** Confirmed, found due, claimed, and read by a reconciler once the lease is up. */
  lemma OpeningLeads(s: State, stamp: string, until: string)
    requires Initial(s) && !s.row.identity.adopted && stamp != "" && StrLe(s.row.cleanupAt, stamp)
    ensures
      var active := Apply(s, MarkActive(Some(stamp), Some(stamp), "", stamp));
      var claimed := Apply(Apply(active, ReadDue(stamp)), Claim(active.row, "k", stamp, until));
      var read := Apply(claimed, ReadExpired(until));
      && read.row == ClaimedRow(active.row, "k", stamp, until) && read.row.state == Claimed
      && read.row.claimToken == Some("k") && read.row.claimedAt == Some(stamp) && read.row.leaseUntil == Some(until)
      && active.row.identity == Identity(false, Some(s.row.id), s.row.identity.newPrice, Some(stamp))
      && read.attempts == map["k" := Attempt(active.row, Holding)] && read.row in read.snapshots && read.log == []
  {
    hide StrLt;
  }

  lemma ProofLeads(s: State, copy: Row, found: Override)
    requires "k" in s.attempts && s.attempts["k"].pc == Holding && s.log == []
    requires CheckOwnership(s.attempts["k"].record.identity, Some(found)) == Owned
    requires copy == s.row && copy in s.snapshots && copy.state == Claimed && copy.claimToken == Some("k")
    ensures Overtaken(Apply(s, ReadProvider("k", true, Read(Some(found)), true)), "k", copy)
  {
    hide CheckOwnership;
  }

  // -- across records ----------------------------------------------------

  /** No override can be proved to belong to two records that the system itself wrote. */
  lemma OneRecordOwnsAnOverride(a: State, b: State, o: Override)
    requires Inv(a) && Inv(b) && !a.row.identity.adopted && !b.row.identity.adopted
    requires CheckOwnership(a.row.identity, Some(o)) == Owned && CheckOwnership(b.row.identity, Some(o)) == Owned
    ensures a.row.id == b.row.id
  {
    OneOwner(a.row.identity, b.row.identity, o);
  }

  /** A step of the whole table: a record is created, or something happens to one. */
  datatype Event = Created(row: Row) | Happened(id: string, action: Action)

  type System = map<string, State>

  function Fresh(row: Row): State {
    State(row, {}, {}, map[], [], None)
  }

  function ApplyEvent(y: System, e: Event): System {
    match e
    case Created(row) => if row.id in y || !Initial(Fresh(row)) then y else y[row.id := Fresh(row)]
    case Happened(id, action) => if id in y then y[id := Apply(y[id], action)] else y
  }

  function ExecEvents(events: seq<Event>): System {
    if events == [] then map[] else ApplyEvent(ExecEvents(events[..|events| - 1]), events[|events| - 1])
  }

  /** What happens to one record of the table is a run of the protocol around that record. */
  lemma {:induction false} EachRecordRunsAlone(events: seq<Event>, id: string)
    returns (start: State, actions: seq<Action>)
    requires id in ExecEvents(events)
    ensures Initial(start) && start.row.id == id
    ensures ExecEvents(events)[id] == Exec(start, actions)
  {
    var init, last := events[..|events| - 1], events[|events| - 1];
    if id !in ExecEvents(init) {
      start, actions := Fresh(last.row), [];
    } else {
      start, actions := EachRecordRunsAlone(init, id);
      if last.Happened? && last.id == id {
        assert (actions + [last.action])[..|actions|] == actions;
        actions := actions + [last.action];
      }
    }
  }

  lemma {:induction false} IdStays(s: State, actions: seq<Action>)
    ensures Exec(s, actions).row.id == s.row.id
    ensures Exec(s, actions).row.identity.adopted == s.row.identity.adopted
  {
    if actions != [] {
      IdStays(s, actions[..|actions| - 1]);
    }
  }

  /** Each record of each reachable table keeps the protocol's invariant, under its own id. */
  lemma RecordKeepsInv(events: seq<Event>, id: string)
    requires id in ExecEvents(events)
    ensures Inv(ExecEvents(events)[id]) && ExecEvents(events)[id].row.id == id
    ensures |ExecEvents(events)[id].log| <= 1
  {
    var start, actions := EachRecordRunsAlone(events, id);
    InitialInv(start);
    ExecKeepsInv(start, actions);
    IdStays(start, actions);
  }

  /**
   The whole table, over every sequence of events: each record had at most one DELETE
   attempted, and no override was ever proved to belong to two of its records.
   */
  lemma TableIsSafe(events: seq<Event>)
    ensures forall id :: id in ExecEvents(events) ==> |ExecEvents(events)[id].log| <= 1
    ensures forall id, other :: id in ExecEvents(events) && other in ExecEvents(events) && id != other ==>
              var a, b := ExecEvents(events)[id], ExecEvents(events)[other];
              a.log != [] && b.log != [] && !a.row.identity.adopted && !b.row.identity.adopted ==>
                a.log[0].proof.found != b.log[0].proof.found
  {
    var y := ExecEvents(events);
    forall id | id in y {
      RecordKeepsInv(events, id);
    }
    forall id, other | id in y && other in y && id != other && y[id].log != [] && y[other].log != [] &&
                       !y[id].row.identity.adopted && !y[other].row.identity.adopted
      ensures y[id].log[0].proof.found != y[other].log[0].proof.found
    {
      if y[id].log[0].proof.found == y[other].log[0].proof.found {
        OneRecordOwnsAnOverride(y[id], y[other], y[id].log[0].proof.found);
      }
    }
  }
}
