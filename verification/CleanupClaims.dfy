/**
 What the answers of the store are worth to whoever gets them: over any sequence of
 conditional updates of one row, by any number of parties.
 */
module CleanupClaims {
  import opened Wrappers
  import opened CleanupStore

  /** One conditional UPDATE of the row. */
  datatype Call =
    | Claim(token: Token, stamp: string, until: string)
    | BeginDelete(token: Token)
    | Release(token: Token)
    | Resolve(state: CleanupState, resolution: string, token: Token, stamp: string)
    | ResolveUnclaimed(state: CleanupState, resolution: string, stamp: string)
    | CloseByHand(text: string, user: string, stamp: string)

  /** Whether its WHERE clause matches. */
  predicate Answer(r: Row, c: Call) {
    match c
    case Claim(_, _, _) => r.state == Active
    case BeginDelete(token) => MayBeginDelete(r, token)
    case Release(token) => HeldBy(r, token)
    case Resolve(_, _, token, _) => HeldBy(r, token)
    case ResolveUnclaimed(_, _, _) => Unclaimed(r)
    case CloseByHand(_, _, _) => ManuallyResolvable(r.state)
  }

  function After(r: Row, c: Call): Row {
    match c
    case Claim(token, stamp, until) => ClaimedRow(r, token, stamp, until)
    case BeginDelete(token) => FencedRow(r, token)
    case Release(token) => ReleasedRow(r, token)
    case Resolve(state, resolution, token, stamp) => ResolvedRow(r, state, resolution, token, stamp)
    case ResolveUnclaimed(state, resolution, stamp) => ResolvedUnclaimedRow(r, state, resolution, stamp)
    case CloseByHand(text, user, stamp) => ClosedByHand(r, text, user, stamp)
  }

  function AfterAll(r: Row, calls: seq<Call>): Row {
    if calls == [] then r else After(AfterAll(r, calls[..|calls| - 1]), calls[|calls| - 1])
  }

  /** The i-th of these calls matched. */
  predicate Won(r: Row, calls: seq<Call>, i: nat) {
    i < |calls| && Answer(AfterAll(r, calls[..i]), calls[i])
  }

  /** The calls by which this token's holder, or a reconciler with a copy of the row, gives the row up. */
  predicate Leaves(c: Call, token: Token) {
    (c.Release? || c.Resolve?) && c.token == token
  }

  /** The calls that only a holder of another token, or no holder at all, could win. */
  predicate Foreign(c: Call, token: Token) {
    c.Claim? || c.ResolveUnclaimed? || c.CloseByHand? || c.token != token
  }

  lemma WonAtPrefix(r: Row, calls: seq<Call>, n: nat, i: nat)
    requires i < n <= |calls|
    ensures Won(r, calls[..n], i) <==> Won(r, calls, i)
  {
    assert calls[..n][..i] == calls[..i];
  }

  /** A false answer means that nothing changed. */
  lemma {:induction false} LosersChangeNothing(r: Row, calls: seq<Call>)
    requires forall i: nat :: i < |calls| ==> !Won(r, calls, i)
    ensures AfterAll(r, calls) == r
  {
    if calls != [] {
      var n := |calls| - 1;
      forall i: nat | i < n ensures !Won(r, calls[..n], i) {
        WonAtPrefix(r, calls, n, i);
      }
      LosersChangeNothing(r, calls[..n]);
      assert !Won(r, calls, n);
    }
  }

  /**
   A true `claim` means this token alone holds the row until it leaves: until then the row is in
   its hands, and whatever anybody else calls is refused.
   */
  lemma {:induction false} TrueClaimHoldsAlone(r: Row, token: Token, stamp: string, until: string, calls: seq<Call>)
    requires r.state == Active && forall i: nat :: i < |calls| ==> !Leaves(calls[i], token)
    ensures
      var held := After(r, Claim(token, stamp, until));
      && HeldBy(AfterAll(held, calls), token)
      && (AfterAll(held, calls).state == Claimed || AfterAll(held, calls).state == DeleteStarted)
      && forall i: nat :: i < |calls| && Foreign(calls[i], token) ==> !Won(held, calls, i)
  {
    if calls != [] {
      var n := |calls| - 1;
      var held := After(r, Claim(token, stamp, until));
      TrueClaimHoldsAlone(r, token, stamp, until, calls[..n]);
      forall i: nat | i < n && Foreign(calls[i], token) ensures !Won(held, calls, i) {
        WonAtPrefix(held, calls, n, i);
      }
    }
  }

  /** And once it has left, the row is nobody's, or in the hands of whoever claimed it since. */
  lemma {:induction false} SpentTokenWinsNothing(r: Row, token: Token, calls: seq<Call>)
    requires !HeldBy(r, token) && forall i: nat :: i < |calls| ==> !(calls[i].Claim? && calls[i].token == token)
    ensures !HeldBy(AfterAll(r, calls), token)
    ensures forall i: nat :: i < |calls| && !Foreign(calls[i], token) ==> !Won(r, calls, i)
  {
    if calls != [] {
      var n := |calls| - 1;
      SpentTokenWinsNothing(r, token, calls[..n]);
      forall i: nat | i < n && !Foreign(calls[i], token) ensures !Won(r, calls, i) {
        WonAtPrefix(r, calls, n, i);
      }
    }
  }

  /** A verdict is one of the states automation ends in. */
  predicate EndsThere(c: Call) {
    c.Resolve? || c.ResolveUnclaimed? ==> c.state in TERMINAL_STATES
  }

  ghost predicate ReleasedByHolder(r: Row, token: Token, calls: seq<Call>) {
    exists k: nat :: k < |calls| && calls[k] == Release(token) && Won(r, calls, k)
  }

  /**
   A claim ends in one of two ways: a verdict closes the row, or its holder puts it down.  So a
   row that is ACTIVE again after a claim was released by the token that had claimed it.
   */
  lemma {:induction false} ActiveAgainMeansReleased(r: Row, token: Token, stamp: string, until: string, calls: seq<Call>)
    requires r.state == Active && forall i: nat :: i < |calls| ==> EndsThere(calls[i])
    ensures
      var held := After(r, Claim(token, stamp, until));
      var now := AfterAll(held, calls);
      || (HeldBy(now, token) && (now.state == Claimed || now.state == DeleteStarted))
      || (now.claimToken.None? && now.state in TERMINAL_STATES)
      || ReleasedByHolder(held, token, calls)
  {
    if calls != [] {
      var n := |calls| - 1;
      var held := After(r, Claim(token, stamp, until));
      ActiveAgainMeansReleased(r, token, stamp, until, calls[..n]);
      if ReleasedByHolder(held, token, calls[..n]) {
        var k: nat :| k < n && calls[..n][k] == Release(token) && Won(held, calls[..n], k);
        WonAtPrefix(held, calls, n, k);
      } else if calls[n] == Release(token) {
        assert Won(held, calls, n) <==> HeldBy(AfterAll(held, calls[..n]), token);
      }
    }
  }
}
