/** What following the decisions day after day comes to. */
module PricingReplay {
  import opened Wrappers
  import opened PyNumbers
  import opened PricingConfig
  import opened PricingPolicy
  import opened PricingRecommendations

  /** The same night at another price. */
  function At(n: Night, price: real): Night {
    n.(state := n.state.(currentPrice := Some(price)))
  }

  predicate LowersAt(n: Night, price: real) {
    RecommendNight(At(n, price)).action == LOWER
  }

  lemma EachLowerSinks(n: Night, price: real)
    requires price > 0.0 && LowersAt(n, price)
    ensures
      var r := RecommendNight(At(n, price));
      && n.bands.Some? && n.historyAdr.Some?
      && r.proposedPrice.Some?
      && n.bands.value.hardFloor <= r.proposedPrice.value < price
      && n.historyAdr.value - 0.5 <= r.proposedPrice.value
      && RoundHalfEven(r.proposedPrice.value) < RoundHalfEven(price)
      && r.proposedPrice.value == RoundHalfEven(r.proposedPrice.value) as real
  {
    hide RecommendNight;
    SurvivingLower(At(n, price));
    var p := RecommendNight(At(n, price)).proposedPrice.value.Floor;
    WholeRounds(p);
    LowerRoundsDown(At(n, price));
    RoundMonotone(p as real, price);
  }

  lemma LowerRoundsDown(n: Night)
    requires RecommendNight(n).action == LOWER && n.state.currentPrice.Some? && n.state.currentPrice.value > 0.0
    ensures RecommendNight(n).proposedPrice.Some?
    ensures RoundHalfEven(RecommendNight(n).proposedPrice.value) != RoundHalfEven(n.state.currentPrice.value)
  {
    hide RoundHalfEven, Ceil, BelowOwnerFloorOf;
    var price := n.state.currentPrice.value;
    var p := CapSafePrice(price, LowerTarget(price, n.historyAdr.value));
    WritesPassedTheGate(Candidate(n, LOWER, Some(p as real), RaisesOnMarket(n, price)));
  }

  /** The prices that come of feeding each surviving LOWER back in as the next price. */
  function Replay(n: Night, price: real): (prices: seq<real>)
    requires price > 0.0 && (n.bands.Some? ==> n.bands.value.hardFloor > 0.0)
    decreases RoundHalfEven(price)
  {
    if !LowersAt(n, price) then []
    else
      EachLowerSinks(n, price);
      var next := RecommendNight(At(n, price)).proposedPrice.value;
      [next] + Replay(n, next)
  }

  /**
   The replay always stops: at a price the rules no longer lower, after at most one step per
   dollar above the floor, and without ever passing the hard floor or half a dollar under the
   price the property has converted at.
   */
  lemma {:induction false} ReplayStops(n: Night, price: real)
    requires price > 0.0 && (n.bands.Some? ==> n.bands.value.hardFloor > 0.0)
    ensures
      var prices := Replay(n, price);
      && !LowersAt(n, if prices == [] then price else prices[|prices| - 1])
      && (prices != [] ==>
            n.bands.Some? && n.historyAdr.Some? && Sinks(n, price, prices)
            && |prices| <= RoundHalfEven(price) - Ceil(n.bands.value.hardFloor))
    decreases RoundHalfEven(price)
  {
    hide LowersAt, RecommendNight, RoundHalfEven, Ceil;
    if LowersAt(n, price) {
      EachLowerSinks(n, price);
      var next := RecommendNight(At(n, price)).proposedPrice.value;
      ReplayStops(n, next);
      var rest := Replay(n, next);
      assert Ceil(n.bands.value.hardFloor) <= RoundHalfEven(next);
      Prepends(n, price, next, rest);
    }
  }

  /** Prices each below the one before, starting under `price`, and above the floor and the history. */
  ghost predicate Sinks(n: Night, price: real, prices: seq<real>)
    requires n.bands.Some? && n.historyAdr.Some?
  {
    forall i :: 0 <= i < |prices| ==>
      && n.bands.value.hardFloor <= prices[i] && n.historyAdr.value - 0.5 <= prices[i]
      && prices[i] < Before(price, prices, i)
  }

  function Before(price: real, prices: seq<real>, i: nat): real
    requires i < |prices|
  {
    if i == 0 then price else prices[i - 1]
  }

  lemma Prepends(n: Night, price: real, next: real, rest: seq<real>)
    requires n.bands.Some? && n.historyAdr.Some? && Sinks(n, next, rest)
    requires n.bands.value.hardFloor <= next < price && n.historyAdr.value - 0.5 <= next
    ensures Sinks(n, price, [next] + rest)
  {
    var prices := [next] + rest;
    forall i | 0 <= i < |prices|
      ensures n.bands.value.hardFloor <= prices[i] && n.historyAdr.value - 0.5 <= prices[i]
      ensures prices[i] < Before(price, prices, i)
    {
      if i > 0 {
        assert prices[i] == rest[i - 1] && rest[i - 1] < Before(next, rest, i - 1);
      }
    }
  }

  /** Without signals a near-term night that is not pinned is lowered or held. */
  lemma QuietNightsAreLoweredOrHeld(n: Night)
    requires n.daysOut <= NEAR_TERM_DAYS && !n.isPinned && DateStrength(n.state) == []
    ensures RecommendNight(n).action == LOWER || RecommendNight(n).action == HOLD
  {
    hide CheckGuardrails, DateStrength, CapSafePrice, LowersOnHistory, BelowOwnerFloorOf;
  }

  /** On a date without strength signals a replayed near-term night comes to rest on HOLD. */
  lemma ReplayRests(n: Night, price: real)
    requires price > 0.0 && (n.bands.Some? ==> n.bands.value.hardFloor > 0.0)
    requires n.daysOut <= NEAR_TERM_DAYS && !n.isPinned && DateStrength(n.state) == []
    ensures
      var prices := Replay(n, price);
      RecommendNight(At(n, if prices == [] then price else prices[|prices| - 1])).action == HOLD
  {
    hide RecommendNight;
    ReplayStops(n, price);
    var prices := Replay(n, price);
    QuietNightsAreLoweredOrHeld(At(n, if prices == [] then price else prices[|prices| - 1]));
  }

  // -- following LOWER and RAISE alike -------------------------------------

  /** The price the next decision moves to, if it moves the price. */
  function Next(n: Night, price: real): Option<real> {
    var r := RecommendNight(At(n, price));
    if r.action == LOWER || r.action == RAISE then r.proposedPrice else None
  }

  /** The price after k decisions. */
  function Follow(n: Night, price: real, k: nat): real {
    if k == 0 then price
    else
      var before := Follow(n, price, k - 1);
      if Next(n, before).Some? then Next(n, before).value else before
  }

  lemma {:induction false} FollowFromNext(n: Night, price: real, k: nat)
    requires Next(n, price).Some?
    ensures Follow(n, price, k + 1) == Follow(n, Next(n, price).value, k)
  {
    hide Next;
    if k > 0 {
      FollowFromNext(n, price, k - 1);
    }
  }

  predicate RaisesAt(n: Night, price: real) {
    RecommendNight(At(n, price)).action == RAISE
  }

  lemma EachRaiseClimbs(n: Night, price: real)
    requires price > 0.0 && RaisesAt(n, price)
    ensures
      var r := RecommendNight(At(n, price));
      && r.proposedPrice.Some? && n.state.marketP25.Some?
      && price < n.state.marketP25.value && price < r.proposedPrice.value <= n.state.marketP25.value + 0.5
      && RoundHalfEven(price) < RoundHalfEven(r.proposedPrice.value)
  {
    hide RecommendNight;
    SurvivingRaise(At(n, price));
    var p := RecommendNight(At(n, price)).proposedPrice.value.Floor;
    WholeRounds(p);
    RaiseMovesTheRound(At(n, price));
    RoundMonotone(price, p as real);
  }

  lemma RaiseMovesTheRound(n: Night)
    requires RecommendNight(n).action == RAISE && n.state.currentPrice.Some? && n.state.currentPrice.value > 0.0
    ensures RecommendNight(n).proposedPrice.Some? && n.state.marketP25.Some?
    ensures n.state.currentPrice.value < n.state.marketP25.value
    ensures RoundHalfEven(RecommendNight(n).proposedPrice.value) != RoundHalfEven(n.state.currentPrice.value)
  {
    hide RoundHalfEven, Ceil, BelowOwnerFloorOf;
    var price := n.state.currentPrice.value;
    var p := CapSafePrice(price, RaiseTarget(price, n.state.marketP25.value));
    WritesPassedTheGate(Candidate(n, RAISE, Some(p as real), false));
  }

  /** No price a RAISE may reach is one the history rule lowers. */
  ghost predicate RaisesAreFinal(n: Night) {
    n.state.marketP25.Some? ==> forall p: real :: 0.0 < p <= n.state.marketP25.value + 0.5 ==> !LowersAt(n, p)
  }

  /** The whole dollars a RAISE may still climb. */
  function Headroom(n: Night, price: real): nat {
    if n.state.marketP25.None? then 0
    else
      var room := Ceil(n.state.marketP25.value) + 2 - RoundHalfEven(price);
      if room < 0 then 0 else room
  }

  lemma {:induction false} RaisesRest(n: Night, price: real) returns (k: nat)
    requires price > 0.0 && RaisesAreFinal(n) && !LowersAt(n, price)
    ensures Next(n, Follow(n, price, k)).None? && k <= Headroom(n, price)
    decreases Headroom(n, price)
  {
    hide RecommendNight, Ceil, RoundHalfEven;
    k := 0;
    if Next(n, price).Some? {
      EachRaiseClimbs(n, price);
      var next := Next(n, price).value;
      HeadroomShrinks(n, price, next);
      k := RaisesRest(n, next);
      FollowFromNext(n, price, k);
      k := k + 1;
    }
  }

  lemma HeadroomShrinks(n: Night, price: real, next: real)
    requires n.state.marketP25.Some? && RoundHalfEven(price) < RoundHalfEven(next)
    requires next <= n.state.marketP25.value + 0.5
    ensures Headroom(n, next) < Headroom(n, price)
  {
    hide Ceil, RoundHalfEven;
    assert RoundHalfEven(next) <= Ceil(n.state.marketP25.value) + 1;
  }

  /** Nights whose two rules cannot take turns. */
  predicate Settles(n: Night) {
    || n.daysOut > NEAR_TERM_DAYS
    || DateStrength(n.state) == []
    || n.state.demand.None? || n.state.demand.value !in WEAK_DEMAND
    || n.historyAdr.None? || n.historyAdr.value == 0.0
    || n.state.marketP25.None? || n.state.marketP25.value + 0.5 <= n.historyAdr.value * HIST_OVER
  }

  lemma SettlingNights(n: Night, price: real)
    requires Settles(n) && price > 0.0
    ensures RaisesAreFinal(n) || (Next(n, price).Some? ==> LowersAt(n, price))
  {
    if n.daysOut <= NEAR_TERM_DAYS && DateStrength(n.state) == [] {
      if !n.isPinned {
        QuietNightsAreLoweredOrHeld(At(n, price));
      } else {
        PinnedNightsAreReleasedOrKept(At(n, price));
      }
    } else if n.state.marketP25.Some? {
      hide RecommendNight, DateStrength;
      forall p: real | 0.0 < p <= n.state.marketP25.value + 0.5 ensures !LowersAt(n, p) {
        if LowersAt(n, p) { SurvivingLower(At(n, p)); }
      }
    }
  }

  /**
   Following LOWER and RAISE alike comes to rest: without signals, beyond fourteen days, without
   weak demand or history, and wherever no price under the market's p25 is over the history
   rule's line by more than the half dollar of rounding.
   */
  lemma {:induction false} MixedReplayRests(n: Night, price: real) returns (k: nat)
    requires price > 0.0 && (n.bands.Some? ==> n.bands.value.hardFloor > 0.0) && Settles(n)
    ensures Next(n, Follow(n, price, k)).None?
    ensures k <= RoundHalfEven(price) + Headroom(n, 0.0)
    decreases RoundHalfEven(price)
  {
    hide RecommendNight, Ceil, RoundHalfEven, Settles, RaisesAreFinal;
    if LowersAt(n, price) {
      EachLowerSinks(n, price);
      var next := Next(n, price).value;
      k := MixedReplayRests(n, next);
      FollowFromNext(n, price, k);
      k := k + 1;
    } else {
      SettlingNights(n, price);
      if RaisesAreFinal(n) {
        k := RaisesRest(n, price);
        RoundMonotone(0.0, price);
      } else {
        k := 0;
      }
    }
  }

  // -- when it is decided ------------------------------------------------

  /** The k-th decision moves the price no more. */
  predicate Rests(n: Night, price: real, k: nat) {
    Next(n, Follow(n, price, k)).None?
  }

  /** No price that is ever followed is over this many dollars. */
  function TopDollar(n: Night, price: real): int {
    Ceil(if n.state.marketP25.Some? then Max(price, n.state.marketP25.value + 0.5) else price)
  }

  lemma NextInRange(n: Night, price: real)
    requires price > 0.0 && (n.bands.Some? ==> n.bands.value.hardFloor > 0.0) && Next(n, price).Some?
    ensures
      var next := Next(n, price).value;
      && next == next.Floor as real && next.Floor >= 1
      && (next <= price || (n.state.marketP25.Some? && next <= n.state.marketP25.value + 0.5))
  {
    hide RecommendNight;
    if LowersAt(n, price) { SurvivingLower(At(n, price)); } else { SurvivingRaise(At(n, price)); }
  }

  lemma {:induction false} FollowedInRange(n: Night, price: real, k: nat)
    requires price > 0.0 && (n.bands.Some? ==> n.bands.value.hardFloor > 0.0)
    requires forall m: nat :: m < k ==> !Rests(n, price, m)
    ensures Follow(n, price, k) > 0.0 && Follow(n, price, k) <= TopDollar(n, price) as real
    ensures k > 0 ==> var d := Follow(n, price, k).Floor; Follow(n, price, k) == d as real && 1 <= d <= TopDollar(n, price)
  {
    hide Next;
    if k > 0 {
      FollowedInRange(n, price, k - 1);
      assert !Rests(n, price, k - 1);
      NextInRange(n, Follow(n, price, k - 1));
    }
  }

  /** Once a price comes back, so do all that followed it. */
  lemma {:induction false} FollowRepeats(n: Night, price: real, i: nat, j: nat, m: nat)
    requires Follow(n, price, i) == Follow(n, price, j)
    ensures Follow(n, price, i + m) == Follow(n, price, j + m)
  {
    hide Next;
    if m > 0 {
      FollowRepeats(n, price, i, j, m - 1);
    }
  }

  lemma {:induction false} NeverRestsOnACycle(n: Night, price: real, i: nat, j: nat, k: nat)
    requires i < j && Follow(n, price, i) == Follow(n, price, j)
    requires forall m: nat :: m < j ==> !Rests(n, price, m)
    ensures !Rests(n, price, k)
    decreases k
  {
    hide Next;
    if k >= j {
      FollowRepeats(n, price, i, j, k - j);
      NeverRestsOnACycle(n, price, i, j, k - (j - i));
      assert i + (k - j) == k - (j - i) && j + (k - j) == k;
    }
  }

  function Dollars(f: nat -> int, k: nat): set<int> {
    if k == 0 then {} else Dollars(f, k - 1) + {f(k)}
  }

  function UpTo(top: nat): (s: set<int>)
    ensures |s| == top && forall d :: d in s <==> 1 <= d <= top
  {
    if top == 0 then {} else UpTo(top - 1) + {top}
  }

  lemma {:induction false} DollarsAre(f: nat -> int, k: nat, d: int)
    ensures d in Dollars(f, k) <==> exists m: nat :: 1 <= m <= k && f(m) == d
  {
    if k > 0 {
      DollarsAre(f, k - 1, d);
    }
  }

  /** More decisions than dollars, and one price comes back. */
  lemma {:induction false} SomePriceReturns(f: nat -> int, k: nat) returns (i: nat, j: nat)
    requires |Dollars(f, k)| < k
    ensures 1 <= i < j <= k && f(i) == f(j)
  {
    if f(k) in Dollars(f, k - 1) {
      DollarsAre(f, k - 1, f(k));
      i :| 1 <= i <= k - 1 && f(i) == f(k);
      j := k;
    } else {
      i, j := SomePriceReturns(f, k - 1);
    }
  }

  lemma SubsetIsNoLarger(a: set<int>, b: set<int>)
    requires a <= b
    ensures |a| <= |b|
  {
    assert a * b == a && a + b == b;
    assert |b| == |b - a| + |a|;
  }

  /**
   Whatever the night, following LOWER and RAISE alike is decided within as many steps as there
   are dollars to move in: if it has not come to rest by then it never will.
   */
  lemma MixedReplayIsDecided(n: Night, price: real)
    requires price > 0.0 && (n.bands.Some? ==> n.bands.value.hardFloor > 0.0)
    ensures (exists k: nat :: Rests(n, price, k)) <==>
            exists k: nat :: k <= TopDollar(n, price) + 1 && Rests(n, price, k)
  {
    hide Rests, Follow, TopDollar;
    var top := TopDollar(n, price);
    FollowedInRange(n, price, 0);
    if forall k: nat :: k <= top + 1 ==> !Rests(n, price, k) {
      var f := (k: nat) => Follow(n, price, k).Floor;
      forall k: nat | 1 <= k <= top + 1 ensures 1 <= f(k) <= top && Follow(n, price, k) == f(k) as real {
        FollowedInRange(n, price, k);
      }
      forall d | d in Dollars(f, top + 1) ensures d in UpTo(top) {
        DollarsAre(f, top + 1, d);
      }
      SubsetIsNoLarger(Dollars(f, top + 1), UpTo(top));
      var i, j := SomePriceReturns(f, top + 1);
      forall k: nat ensures !Rests(n, price, k) {
        NeverRestsOnACycle(n, price, i, j, k);
      }
    }
  }

  // -- and where it swings -----------------------------------------------

  /** Where the history rule starts to lower. */
  function Line(n: Night): real
    requires n.historyAdr.Some?
  {
    n.historyAdr.value * HIST_OVER
  }

  /** Weak demand on a strong date, with the market's p25 a tenth above the line and no limit in the way. */
  predicate Torn(n: Night) {
    && n.daysOut <= NEAR_TERM_DAYS && !n.isPinned && n.isOpen
    && n.bands.Some? && n.state.marketP25.Some? && n.state.bookedMedian.Some? && n.state.marketOccupancy.Some?
    && n.state.demand.Some? && n.state.demand.value in WEAK_DEMAND && DateStrength(n.state) != []
    && n.historyAdr.Some? && Line(n) >= 17.0
    && n.bands.value.hardFloor <= 0.9 * Line(n) && n.state.marketP25.value >= 1.1 * Line(n)
    && n.bands.value.autoRaiseCeiling >= 1.1 * Line(n) && n.bands.value.absoluteCeiling >= 1.1 * Line(n)
  }

  lemma StepDownMoves(price: real)
    requires price >= 15.0
    ensures RoundHalfEven(Ceil(price * 0.9) as real) != RoundHalfEven(price)
  {
    WholeRounds(Ceil(price * 0.9));
  }

  lemma StepUpMoves(price: real)
    requires price >= 15.0
    ensures RoundHalfEven((price * 1.1).Floor as real) != RoundHalfEven(price)
  {
    WholeRounds((price * 1.1).Floor);
  }

  /** Above the line the whole tenth is taken off. */
  lemma TornLowers(n: Night, price: real)
    requires Torn(n) && price >= 15.0 && price > Line(n)
    ensures Next(n, price) == Some(Ceil(price * 0.9) as real)
  {
    var adr := n.historyAdr.value;
    var p := CapSafePrice(price, LowerTarget(price, adr));
    assert LowerTarget(price, adr) == price * 0.9;
    FullStepDown(price, LowerTarget(price, adr), 0);
    CapNeverRefusesItsOwn(price, LowerTarget(price, adr));
    StepDownMoves(price);
    hide CapSafePrice, Ceil, RoundHalfEven, DateStrength, BelowOwnerFloorOf, Exceeds;
    var m := At(n, price);
    assert LowersOnHistory(m, price);
    WritesPassedTheGate(Candidate(m, LOWER, Some(p as real), RaisesOnMarket(m, price)));
  }

  /** Up to the line a whole tenth is put on. */
  lemma TornRaises(n: Night, price: real)
    requires Torn(n) && 15.0 <= price <= Line(n)
    ensures Next(n, price) == Some((price * 1.1).Floor as real)
  {
    var p25 := n.state.marketP25.value;
    var p := CapSafePrice(price, RaiseTarget(price, p25));
    assert RaiseTarget(price, p25) == price * 1.1;
    FullStepUp(price, RaiseTarget(price, p25), 0);
    CapNeverRefusesItsOwn(price, RaiseTarget(price, p25));
    StepUpMoves(price);
    hide CapSafePrice, Ceil, RoundHalfEven, DateStrength, BelowOwnerFloorOf, Exceeds;
    var m := At(n, price);
    assert !LowersOnHistory(m, price) && RaisesOnMarket(m, price);
    WritesPassedTheGate(Candidate(m, RAISE, Some(p as real), false));
  }

  /** On such a night the two rules undo each other for ever: from no price does it come to rest. */
  lemma {:induction false} TornNightsNeverRest(n: Night, price: real, k: nat)
    requires Torn(n) && price >= 15.0
    ensures Follow(n, price, k) >= 15.0 && Next(n, Follow(n, price, k)).Some?
  {
    hide Next, Ceil, Torn;
    if k > 0 {
      TornNightsNeverRest(n, price, k - 1);
    }
    TornMoves(n, Follow(n, price, if k == 0 then 0 else k - 1));
    TornMoves(n, Follow(n, price, k));
  }

  lemma TornMoves(n: Night, price: real)
    requires Torn(n) && price >= 15.0
    ensures Next(n, price).Some? && Next(n, price).value >= 15.0
  {
    hide Next, Ceil;
    if price > Line(n) { TornLowers(n, price); } else { TornRaises(n, price); }
  }

  /** There is such a night. */
  lemma SomeNightIsTorn()
    ensures Torn(SWINGING)
    ensures Next(SWINGING, 99.0) == Some(90.0) && Next(SWINGING, 90.0) == Some(99.0)
  {
    assert DateStrength(SWINGING.state) == [StrongOccupancy];
    hide RecommendNight;
    TornLowers(SWINGING, 99.0);
    TornRaises(SWINGING, 90.0);
    assert Ceil(89.1) == 90;
  }

  const SWINGING := Night(
    Some(PricingBands("example", 50.0, 60.0, 200.0, 300.0, false, [])), 6, 7,
    MarketState(None, Some(120.0), Some(130.0), Some(50.0), Some("Low Demand"), None), None, Some(80.0), 3, false, true)
}
