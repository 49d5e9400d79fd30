/** One night, one decision. */
module PricingRecommendations {
  import opened Wrappers
  import opened PyNumbers
  import opened PricingConfig
  import opened PricingPolicy

  const OCC_GAP_PTS := 16.0
  const DATE_OCC_STRONG := 45.4
  const DATE_PICKUP_STRONG := 8.9
  const NEAR_TERM_DAYS := 14
  const HIST_OVER := 1.15
  const STRONG_DEMAND := {"High Demand", "Good Demand"}
  const WEAK_DEMAND := {"Low Demand", "Normal Demand"}

  datatype MarketState = MarketState(
    currentPrice: Option<real>,
    marketP25: Option<real>,
    bookedMedian: Option<real>,
    marketOccupancy: Option<real>,
    demand: Option<string>,
    pickup: Option<real>)

  datatype Signal = StrongDemand | StrongOccupancy | StrongPickup

  /** Everything about a night but its price. */
  datatype Night = Night(
    bands: Option<PricingBands>,
    month: nat,
    daysOut: int,
    state: MarketState,
    occupancyGap: Option<real>,
    historyAdr: Option<real>,
    historyCount: nat,
    isPinned: bool,
    isOpen: bool)

  function DateStrength(s: MarketState): seq<Signal> {
    (if s.demand.Some? && s.demand.value in STRONG_DEMAND then [StrongDemand] else [])
    + (if s.marketOccupancy.Some? && s.marketOccupancy.value >= DATE_OCC_STRONG then [StrongOccupancy] else [])
    + (if s.pickup.Some? && s.pickup.value >= DATE_PICKUP_STRONG then [StrongPickup] else [])
  }

  function ConfidenceFor(s: MarketState, historyCount: nat): Confidence {
    if s.marketP25.None? || s.bookedMedian.None? || s.marketOccupancy.None? || s.currentPrice.None? then Low
    else if historyCount >= 3 && s.demand.Some? && s.demand.value != "" then High
    else Medium
  }

  function Candidate(n: Night, action: PriceAction, proposed: Option<real>, conflict: bool): Recommendation {
    Recommendation(n.month, n.daysOut, action, n.state.currentPrice, proposed,
                   ConfidenceFor(n.state, n.historyCount), n.bands, None, false, [], conflict)
  }

  /** The history rule of a near-term night; an average of zero counts as absent. */
  predicate LowersOnHistory(n: Night, price: real) {
    && n.historyAdr.Some? && n.historyAdr.value != 0.0 && price > n.historyAdr.value * HIST_OVER
    && n.state.demand.Some? && n.state.demand.value in WEAK_DEMAND
  }

  predicate RaisesOnMarket(n: Night, price: real)
    requires n.state.marketP25.Some?
  {
    price < n.state.marketP25.value && DateStrength(n.state) != []
  }

  /** `recommend_night`, without the wording of its reasons. */
  function RecommendNight(n: Night): Recommendation {
    var s := n.state;
    if n.isPinned then
      if n.isOpen && DateStrength(s) != [] && s.marketP25.Some? && s.marketP25.value != 0.0 && s.currentPrice.Some?
         && s.currentPrice.value < s.marketP25.value
      then Finalise(Candidate(n, REMOVE_PIN, None, false))
      else Finalise(Candidate(n, KEEP_PIN, s.currentPrice, false))
    else if !n.isOpen || s.currentPrice.None? || s.marketP25.None? || s.bookedMedian.None? then
      Finalise(Candidate(n, HOLD, s.currentPrice, false))
    else
      var price := s.currentPrice.value;
      if n.daysOut <= NEAR_TERM_DAYS then
        if LowersOnHistory(n, price) then LowerTo(n, price)
        else if RaisesOnMarket(n, price) then RaiseTo(n, price)
        else Finalise(Candidate(n, HOLD, Some(price), false))
      else if price < s.marketP25.value
              && ((n.occupancyGap.Some? && n.occupancyGap.value >= OCC_GAP_PTS) || DateStrength(s) != [])
      then RaiseTo(n, price)
      else Finalise(Candidate(n, HOLD, Some(price), false))
  }

  function LowerTarget(price: real, adr: real): real {
    Max(adr, price * 0.9)
  }

  function LowerTo(n: Night, price: real): Recommendation
    requires n.state.currentPrice == Some(price) && n.state.marketP25.Some? && LowersOnHistory(n, price)
  {
    var proposed := CapSafePrice(price, LowerTarget(price, n.historyAdr.value));
    LowerDivides(price, n.historyAdr.value);
    Finalise(Candidate(n, LOWER, Some(proposed as real), RaisesOnMarket(n, price)))
  }

  function RaiseTarget(price: real, p25: real): real {
    Min(p25, price * 1.1)
  }

  function RaiseTo(n: Night, price: real): Recommendation
    requires n.state.currentPrice == Some(price) && n.state.marketP25.Some?
  {
    var proposed := CapSafePrice(price, RaiseTarget(price, n.state.marketP25.value));
    RaiseDivides(price, n.state.marketP25.value);
    Finalise(Candidate(n, RAISE, Some(proposed as real), false))
  }

  /** A price of zero is proposed again, so the guardrail never divides by it. */
  lemma LowerDivides(price: real, adr: real)
    ensures Divides(Some(price), Some(CapSafePrice(price, LowerTarget(price, adr)) as real))
  {
  }

  lemma RaiseDivides(price: real, p25: real)
    ensures Divides(Some(price), Some(CapSafePrice(price, RaiseTarget(price, p25)) as real))
  {
  }

  predicate IsWhole(x: real) {
    x == x.Floor as real
  }

  // -- one decision ------------------------------------------------------

  /** A LOWER that comes out moves down, within the cap, to no less than the hard floor and the history allow. */
  lemma SurvivingLower(n: Night)
    requires RecommendNight(n).action == LOWER && n.state.currentPrice.Some? && n.state.currentPrice.value > 0.0
    ensures
      var r, price := RecommendNight(n), n.state.currentPrice.value;
      && n.bands.Some? && r.proposedPrice.Some?
      && IsWhole(r.proposedPrice.value)
      && n.bands.value.hardFloor <= r.proposedPrice.value < price
      && price - r.proposedPrice.value <= price * (MAX_CHANGE_PER_RUN + SLACK)
      && n.daysOut <= NEAR_TERM_DAYS && LowersOnHistory(n, price)
      && r.proposedPrice.value >= n.historyAdr.value - 0.5
  {
    hide RoundHalfEven, Ceil, BelowOwnerFloorOf;
    var price := n.state.currentPrice.value;
    var p := CapSafePrice(price, LowerTarget(price, n.historyAdr.value));
    WritesPassedTheGate(Candidate(n, LOWER, Some(p as real), RaisesOnMarket(n, price)));
    SmallMove(price, p as real);
    LowerGoesDown(price, n.historyAdr.value);
  }

  /** What the guardrails let through of a downward move is downward. */
  lemma LowerGoesDown(price: real, adr: real)
    requires price > 0.0 && price > adr * HIST_OVER
    requires
      var p := CapSafePrice(price, LowerTarget(price, adr));
      RoundHalfEven(p as real) != RoundHalfEven(price) && Abs(p as real - price) <= (MAX_CHANGE_PER_RUN + SLACK) * price
    ensures
      var p := CapSafePrice(price, LowerTarget(price, adr));
      adr - 0.5 <= p as real < price
  {
    hide RoundHalfEven, Ceil;
    var target := ClampMove(price, LowerTarget(price, adr));
    var lower, upper := price * (1.0 - MAX_CHANGE_PER_RUN), price * (1.0 + MAX_CHANGE_PER_RUN);
    assert lower <= target < price && adr <= target;
    RoundMonotone(target, price);
    var nearest := RoundHalfEven(target);
    var p := CapSafePrice(price, LowerTarget(price, adr));
    WholeRounds(p);
    if nearest as real < lower {
      assert p == Ceil(lower) && nearest + 1 <= p;
    }
  }

  lemma WholeRounds(n: int)
    ensures RoundHalfEven(n as real) == n
  {
  }

  /** A RAISE that comes out moves up, within the cap, to no more than either ceiling. */
  lemma SurvivingRaise(n: Night)
    requires RecommendNight(n).action == RAISE && n.state.currentPrice.Some? && n.state.currentPrice.value > 0.0
    ensures
      var r, price := RecommendNight(n), n.state.currentPrice.value;
      && n.bands.Some? && r.proposedPrice.Some?
      && IsWhole(r.proposedPrice.value)
      && price < r.proposedPrice.value <= Min(n.bands.value.autoRaiseCeiling, n.bands.value.absoluteCeiling)
      && r.proposedPrice.value - price <= price * (MAX_CHANGE_PER_RUN + SLACK)
      && n.state.marketP25.Some? && r.proposedPrice.value <= n.state.marketP25.value + 0.5
      && (r.requiresHuman <==> n.bands.value.raiseRequiresHuman)
  {
    hide RoundHalfEven, Ceil, BelowOwnerFloorOf;
    var price := n.state.currentPrice.value;
    var p := CapSafePrice(price, RaiseTarget(price, n.state.marketP25.value));
    WritesPassedTheGate(Candidate(n, RAISE, Some(p as real), false));
    SmallMove(price, p as real);
    RaiseGoesUp(price, n.state.marketP25.value);
  }

  lemma RaiseGoesUp(price: real, p25: real)
    requires price > 0.0 && price < p25
    requires
      var p := CapSafePrice(price, RaiseTarget(price, p25));
      RoundHalfEven(p as real) != RoundHalfEven(price) && Abs(p as real - price) <= (MAX_CHANGE_PER_RUN + SLACK) * price
    ensures
      var p := CapSafePrice(price, RaiseTarget(price, p25));
      price < p as real <= p25 + 0.5
  {
    hide RoundHalfEven, Ceil;
    var target := ClampMove(price, RaiseTarget(price, p25));
    var lower, upper := price * (1.0 - MAX_CHANGE_PER_RUN), price * (1.0 + MAX_CHANGE_PER_RUN);
    assert price < target <= upper && target <= p25;
    RoundMonotone(price, target);
    var nearest := RoundHalfEven(target);
    var p := CapSafePrice(price, RaiseTarget(price, p25));
    WholeRounds(p);
    if nearest as real > upper {
      assert p == upper.Floor && p <= nearest - 1;
    }
  }

  /** A pinned night is never repriced: at most its pin is removed, on a strong date the market has passed. */
  lemma PinnedNightsAreReleasedOrKept(n: Night)
    requires n.isPinned
    ensures
      var r := RecommendNight(n);
      && (r.action == REMOVE_PIN || r.action == KEEP_PIN)
      && (r.action == REMOVE_PIN ==>
            && r.proposedPrice.None? && n.isOpen && DateStrength(n.state) != [] && n.bands.Some?
            && n.state.currentPrice.Some? && n.state.marketP25.Some?
            && n.state.currentPrice.value < n.state.marketP25.value)
  {
  }
}
