/** Which move a night is given, both ways: the rules from its fields, and then whether the guardrails let it out. */
module PricingDecisions {
  import opened Wrappers
  import opened PyNumbers
  import opened PricingConfig
  import opened PricingPolicy
  import opened PricingRecommendations

  /** Demand, occupancy or pickup says that the date is strong. */
  predicate StrongDate(s: MarketState) {
    || s.demand == Some("High Demand") || s.demand == Some("Good Demand")
    || (s.marketOccupancy.Some? && s.marketOccupancy.value >= 45.4)
    || (s.pickup.Some? && s.pickup.value >= 8.9)
  }

  /** An open night with a price and a market to compare it with. */
  predicate Comparable(n: Night) {
    !n.isPinned && n.isOpen && n.state.currentPrice.Some? && n.state.marketP25.Some? && n.state.bookedMedian.Some?
  }

  /** Within fourteen days, in weak demand, priced over what the property has converted at by more than fifteen per cent. */
  predicate HistoryRule(n: Night)
    requires Comparable(n)
  {
    && n.daysOut <= 14 && n.historyAdr.Some? && n.historyAdr.value != 0.0
    && n.state.currentPrice.value > n.historyAdr.value * 1.15
    && (n.state.demand == Some("Low Demand") || n.state.demand == Some("Normal Demand"))
  }

  /** Priced under the market's p25: near, on a strong date; further out, on a strong date or sixteen points ahead. */
  predicate MarketRule(n: Night)
    requires Comparable(n)
  {
    && n.state.currentPrice.value < n.state.marketP25.value
    && (StrongDate(n.state) || (n.daysOut > 14 && n.occupancyGap.Some? && n.occupancyGap.value >= 16.0))
  }

  lemma StrengthMeans(s: MarketState)
    ensures DateStrength(s) != [] <==> StrongDate(s)
  {
  }

  predicate HeldBack(r: Recommendation) {
    r.action == HOLD && r.refused.Some?
  }

  /**
   A comparable night is proposed a LOWER exactly under the history rule, a RAISE exactly under the
   market rule where the history rule does not come first, and is held otherwise; a proposal that
   does not come out is held as refused.  Any other night that is not pinned is held.
   */
  lemma NightIsDecided(n: Night)
    requires !n.isPinned
    ensures
      var r := RecommendNight(n);
      if Comparable(n) && HistoryRule(n) then (r.action == LOWER && r.refused.None?) || HeldBack(r)
      else if Comparable(n) && MarketRule(n) then (r.action == RAISE && r.refused.None?) || HeldBack(r)
      else r.action == HOLD && r.refused.None? && r.proposedPrice == n.state.currentPrice
    ensures RecommendNight(n).currentPrice == n.state.currentPrice
    ensures HeldBack(RecommendNight(n)) ==> RecommendNight(n).proposedPrice == n.state.currentPrice
    ensures RecommendNight(n).marketSignalConflict <==>
              && Comparable(n) && HistoryRule(n)
              && n.state.currentPrice.value < n.state.marketP25.value && StrongDate(n.state)
  {
    hide CheckGuardrails, CapSafePrice, DateStrength, BelowOwnerFloorOf, StrongDate, Divides, LowerTarget, RaiseTarget;
    StrengthMeans(n.state);
  }

  /** What stands behind the proposal: everything, and enough history; everything; or something is missing. */
  lemma ConfidenceMeans(n: Night)
    requires Comparable(n)
    ensures
      var c := RecommendNight(n).confidence;
      && (c == Low <==> n.state.marketOccupancy.None?)
      && (c == High <==> n.state.marketOccupancy.Some? && n.historyCount >= 3 && n.state.demand.Some? && n.state.demand.value != "")
  {
    hide CheckGuardrails, CapSafePrice, DateStrength, BelowOwnerFloorOf, Divides, LowerTarget, RaiseTarget;
  }

  /** The guardrails leave the size of a step to the whole dollars under the cap. */
  predicate IsAMove(price: real, p: int) {
    RoundHalfEven(p as real) != RoundHalfEven(price) && Abs(p as real - price) <= price * (MAX_CHANGE_PER_RUN + SLACK)
  }

  /** A LOWER aims at the history, or a tenth down if that is less far, and comes out exactly above the hard floor. */
  lemma LowerComesOut(n: Night)
    requires Comparable(n) && HistoryRule(n) && n.state.currentPrice.value > 0.0
    ensures
      var r, price := RecommendNight(n), n.state.currentPrice.value;
      var p := CapSafePrice(price, Max(n.historyAdr.value, price * 0.9));
      && (r.action == LOWER <==>
            n.bands.Some? && n.state.marketOccupancy.Some? && IsAMove(price, p) && n.bands.value.hardFloor <= p as real)
      && (r.action == LOWER ==> r.proposedPrice == Some(p as real) && !r.requiresHuman)
  {
    hide RoundHalfEven, Ceil, BelowOwnerFloorOf, CapSafePrice, DateStrength;
    var price := n.state.currentPrice.value;
    var p := CapSafePrice(price, Max(n.historyAdr.value, price * 0.9));
    LowerDivides(price, n.historyAdr.value);
    WritesPassedTheGate(Candidate(n, LOWER, Some(p as real), RaisesOnMarket(n, price)));
    SmallMove(price, p as real);
  }

  /** A RAISE aims at p25, or a tenth up if that is less far, and comes out exactly under both ceilings. */
  lemma RaiseComesOut(n: Night)
    requires Comparable(n) && !HistoryRule(n) && MarketRule(n) && n.state.currentPrice.value > 0.0
    ensures
      var r, price := RecommendNight(n), n.state.currentPrice.value;
      var p := CapSafePrice(price, Min(n.state.marketP25.value, price * 1.1));
      && (r.action == RAISE <==>
            && n.bands.Some? && n.state.marketOccupancy.Some? && IsAMove(price, p)
            && p as real <= n.bands.value.autoRaiseCeiling && p as real <= n.bands.value.absoluteCeiling)
      && (r.action == RAISE ==>
            r.proposedPrice == Some(p as real) && (r.requiresHuman <==> n.bands.value.raiseRequiresHuman))
  {
    hide RoundHalfEven, Ceil, BelowOwnerFloorOf, CapSafePrice, DateStrength, StrongDate;
    StrengthMeans(n.state);
    var price := n.state.currentPrice.value;
    var p := CapSafePrice(price, Min(n.state.marketP25.value, price * 1.1));
    RaiseDivides(price, n.state.marketP25.value);
    WritesPassedTheGate(Candidate(n, RAISE, Some(p as real), false));
    SmallMove(price, p as real);
  }

  /** A pin is removed exactly on an open night of a strong date that the market has passed, and where all is known. */
  lemma PinnedNightIsDecided(n: Night)
    requires n.isPinned
    ensures
      var r, s := RecommendNight(n), n.state;
      var passed := n.isOpen && StrongDate(s) && s.currentPrice.Some? && s.marketP25.Some? && s.marketP25.value != 0.0
                    && s.currentPrice.value < s.marketP25.value;
      && (r.action == REMOVE_PIN <==> passed && n.bands.Some? && s.bookedMedian.Some? && s.marketOccupancy.Some?)
      && (r.action == KEEP_PIN <==> r.action != REMOVE_PIN)
      && (r.refused.Some? <==> passed && r.action == KEEP_PIN)
      && r.proposedPrice == (if r.action == REMOVE_PIN then None else s.currentPrice)
      && !r.marketSignalConflict && !r.requiresHuman
  {
    hide DateStrength, StrongDate, BelowOwnerFloorOf;
    StrengthMeans(n.state);
  }

  /** A LOWER under the floor the owner wants for the night says so; a RAISE that needs a person says so; nothing else is noted. */
  lemma NotesAreTrue(n: Night, floor: real)
    requires Comparable(n)
    ensures
      var r := RecommendNight(n);
      && (HumanDecision in r.notes <==> r.requiresHuman)
      && (BelowOwnerFloor(floor) in r.notes <==>
            && r.action == LOWER && r.proposedPrice.value < floor
            && var scheduled := DynamicFloor(n.bands, n.month, n.daysOut);
               floor == if scheduled.Some? then scheduled.value else n.bands.value.normalFloor)
  {
    hide CapSafePrice, DateStrength, Divides, LowerTarget, RaiseTarget, DynamicFloor, Exceeds, RoundHalfEven;
  }
}
