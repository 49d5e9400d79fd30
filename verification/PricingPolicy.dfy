/** Moves under the per-run cap, the guardrails, and what they make of a recommendation. */
module PricingPolicy {
  import opened Wrappers
  import opened PyNumbers
  import opened PricingConfig

  const MAX_CHANGE_PER_RUN := 0.1
  const SLACK := 0.000000001

  datatype PriceAction = LOWER | RAISE | REMOVE_PIN | HOLD | KEEP_PIN

  datatype Confidence = High | Medium | Low

  datatype Refusal =
    | NO_BANDS | BELOW_HARD_FLOOR | ABOVE_AUTO_CEILING | ABOVE_ABSOLUTE_CEILING
    | EXCEEDS_MAX_CHANGE | LOW_CONFIDENCE | NO_CHANGE

  datatype Note = HumanDecision | BelowOwnerFloor(floor: real)

  datatype Recommendation = Recommendation(
    month: nat,
    daysOut: int,
    action: PriceAction,
    currentPrice: Option<real>,
    proposedPrice: Option<real>,
    confidence: Confidence,
    bands: Option<PricingBands>,
    refused: Option<Refusal>,
    requiresHuman: bool,
    notes: seq<Note>,
    marketSignalConflict: bool)

  predicate IsWrite(a: PriceAction) {
    a == LOWER || a == RAISE || a == REMOVE_PIN
  }

  // -- the cap -----------------------------------------------------------

  /** `clamp_move`. */
  function ClampMove(current: real, proposed: real): real {
    var cap := current * MAX_CHANGE_PER_RUN;
    if proposed > current then Min(proposed, current + cap) else Max(proposed, current - cap)
  }

  /** `cap_safe_price`. */
  function CapSafePrice(current: real, proposed: real): int {
    var nearest := RoundHalfEven(ClampMove(current, proposed));
    var lower := current * (1.0 - MAX_CHANGE_PER_RUN);
    var upper := current * (1.0 + MAX_CHANGE_PER_RUN);
    if nearest as real < lower then Ceil(lower)
    else if nearest as real > upper then upper.Floor
    else nearest
  }

  /** A whole-dollar price within the cap. */
  predicate WithinCap(current: real, n: int) {
    current * (1.0 - MAX_CHANGE_PER_RUN) <= n as real <= current * (1.0 + MAX_CHANGE_PER_RUN)
  }

  /** The cap admits some whole-dollar price just when it admits the one proposed. */
  lemma CapSafeIffPossible(current: real, proposed: real)
    requires current > 0.0
    ensures WithinCap(current, CapSafePrice(current, proposed)) <==> exists n :: WithinCap(current, n)
  {
    if n :| WithinCap(current, n) {
      assert WithinCap(current, CapSafePrice(current, proposed));
    }
  }

  /** From five dollars up there always is one. */
  lemma CapAdmitsAWholeDollar(current: real)
    requires current >= 5.0
    ensures WithinCap(current, Ceil(current * (1.0 - MAX_CHANGE_PER_RUN)))
  {
  }

  /** Of the whole-dollar prices within the cap, the proposal is one nearest to the target, or to the cap it is past. */
  lemma CapSafeIsNearest(current: real, proposed: real, n: int)
    requires current > 0.0 && WithinCap(current, n)
    ensures
      var p := CapSafePrice(current, proposed);
      var lower, upper := current * (1.0 - MAX_CHANGE_PER_RUN), current * (1.0 + MAX_CHANGE_PER_RUN);
      var target := if proposed < lower then lower else if proposed > upper then upper else proposed;
      && WithinCap(current, p)
      && Abs(p as real - target) <= Abs(n as real - target)
  {
    hide RoundHalfEven, Ceil;
    var lower, upper := current * (1.0 - MAX_CHANGE_PER_RUN), current * (1.0 + MAX_CHANGE_PER_RUN);
    var target := ClampMove(current, proposed);
    assert lower <= target <= upper;
    NearestWithin(lower, upper, target, n);
  }

  /** Rounding to nearest, and stepping back inside when that crosses, is rounding to nearest inside. */
  lemma NearestWithin(lower: real, upper: real, target: real, n: int)
    requires lower <= target <= upper && lower <= n as real <= upper
    ensures
      var nearest := RoundHalfEven(target);
      var p := if nearest as real < lower then Ceil(lower) else if nearest as real > upper then upper.Floor else nearest;
      lower <= p as real <= upper && Abs(p as real - target) <= Abs(n as real - target)
  {
    hide RoundHalfEven, Ceil;
    var nearest := RoundHalfEven(target);
    if nearest as real < lower {
      assert nearest < Ceil(lower) <= n;
    } else if nearest as real > upper {
      assert n <= upper.Floor < nearest;
    } else if n > nearest {
      assert n as real >= nearest as real + 1.0;
    } else if n < nearest {
      assert n as real <= nearest as real - 1.0;
    }
  }

  /** A target at or past the cap gets the largest whole-dollar step the cap allows. */
  lemma FullStepDown(current: real, proposed: real, n: int)
    requires current >= 5.0 && proposed <= current * (1.0 - MAX_CHANGE_PER_RUN)
    ensures CapSafePrice(current, proposed) == Ceil(current * (1.0 - MAX_CHANGE_PER_RUN))
    ensures WithinCap(current, n) ==> CapSafePrice(current, proposed) <= n
  {
  }

  lemma FullStepUp(current: real, proposed: real, n: int)
    requires current >= 5.0 && proposed >= current * (1.0 + MAX_CHANGE_PER_RUN)
    ensures CapSafePrice(current, proposed) == (current * (1.0 + MAX_CHANGE_PER_RUN)).Floor
    ensures WithinCap(current, n) ==> n <= CapSafePrice(current, proposed)
  {
  }

  // -- the guardrails ----------------------------------------------------

  predicate Exceeds(current: real, proposed: real)
    requires current != 0.0
  {
    Abs(proposed - current) / current > MAX_CHANGE_PER_RUN + SLACK
  }

  /** The division the guardrail makes is defined. */
  predicate Divides(current: Option<real>, proposed: Option<real>) {
    current.Some? && proposed.Some? && current.value == 0.0 ==> RoundHalfEven(proposed.value) == 0
  }

  /** `check_guardrails`; None lets the write proceed. */
  function CheckGuardrails(action: PriceAction, current: Option<real>, proposed: Option<real>,
                           bands: Option<PricingBands>, confidence: Confidence): Option<Refusal>
    requires Divides(current, proposed)
  {
    if bands.None? then Some(NO_BANDS)
    else if confidence == Low then Some(LOW_CONFIDENCE)
    else if action == REMOVE_PIN then None
    else if current.None? || proposed.None? then Some(NO_CHANGE)
    else if RoundHalfEven(proposed.value) == RoundHalfEven(current.value) then Some(NO_CHANGE)
    else if Exceeds(current.value, proposed.value) then Some(EXCEEDS_MAX_CHANGE)
    else if action == LOWER && proposed.value < bands.value.hardFloor then Some(BELOW_HARD_FLOOR)
    else if action == RAISE && proposed.value > bands.value.absoluteCeiling then Some(ABOVE_ABSOLUTE_CEILING)
    else if action == RAISE && proposed.value > bands.value.autoRaiseCeiling then Some(ABOVE_AUTO_CEILING)
    else None
  }

  /** The refusal named is one that applies: what is missing first, then the size of the step, then the limits. */
  lemma RefusalsAreTrue(action: PriceAction, current: Option<real>, proposed: Option<real>, bands: Option<PricingBands>,
                        confidence: Confidence)
    requires Divides(current, proposed) && (current.Some? ==> current.value > 0.0)
    ensures
      var r := CheckGuardrails(action, current, proposed, bands, confidence);
      && (r == Some(NO_BANDS) <==> bands.None?)
      && (r == Some(LOW_CONFIDENCE) <==> bands.Some? && confidence == Low)
      && (action == REMOVE_PIN ==> r.None? || r == Some(NO_BANDS) || r == Some(LOW_CONFIDENCE))
      && (r == Some(NO_CHANGE) ==>
            current.None? || proposed.None? || RoundHalfEven(proposed.value) == RoundHalfEven(current.value))
      && (r == Some(EXCEEDS_MAX_CHANGE) ==> Abs(proposed.value - current.value) > (MAX_CHANGE_PER_RUN + SLACK) * current.value)
      && (r == Some(BELOW_HARD_FLOOR) ==> action == LOWER && proposed.value < bands.value.hardFloor)
      && (r == Some(ABOVE_ABSOLUTE_CEILING) ==> action == RAISE && bands.value.absoluteCeiling < proposed.value)
      && (r == Some(ABOVE_AUTO_CEILING) ==>
            action == RAISE && bands.value.autoRaiseCeiling < proposed.value <= bands.value.absoluteCeiling)
  {
    if current.Some? && proposed.Some? {
      SmallMove(current.value, proposed.value);
    }
    hide Exceeds, RoundHalfEven;
  }

  /** A cap-safe proposal is refused for its size only where no whole-dollar price would do. */
  lemma CapNeverRefusesItsOwn(current: real, proposed: real)
    requires current >= 5.0
    ensures !Exceeds(current, CapSafePrice(current, proposed) as real)
  {
    CapAdmitsAWholeDollar(current);
    CapSafeIffPossible(current, proposed);
    SmallMove(current, CapSafePrice(current, proposed) as real);
  }

  lemma SmallMove(current: real, p: real)
    requires current > 0.0
    ensures Exceeds(current, p) <==> Abs(p - current) > (MAX_CHANGE_PER_RUN + SLACK) * current
  {
    var d := Abs(p - current);
    assert d == (d / current) * current;
  }

  // -- finalise ----------------------------------------------------------

  /** `effective_floor`, without the wording of its basis. */
  function EffectiveFloor(r: Recommendation): Option<real> {
    if r.bands.None? then None
    else
      var resolved := DynamicFloor(r.bands, r.month, r.daysOut);
      if resolved.Some? then resolved else Some(r.bands.value.normalFloor)
  }

  /** `below_owner_floor`. */
  function BelowOwnerFloorOf(r: Recommendation): Option<real> {
    if r.action != LOWER || r.bands.None? || r.proposedPrice.None? then None
    else
      var floor := EffectiveFloor(r).value;
      if r.bands.value.hardFloor <= r.proposedPrice.value < floor then Some(floor) else None
  }

  /** `finalise`. */
  function Finalise(c: Recommendation): Recommendation
    requires Divides(c.currentPrice, c.proposedPrice)
  {
    if !IsWrite(c.action) then c
    else
      match CheckGuardrails(c.action, c.currentPrice, c.proposedPrice, c.bands, c.confidence)
      case None =>
        var human := c.action == RAISE && c.bands.value.raiseRequiresHuman;
        var undercut := BelowOwnerFloorOf(c);
        c.(requiresHuman := human,
           notes := c.notes + (if human then [HumanDecision] else [])
                    + (if undercut.Some? then [BelowOwnerFloor(undercut.value)] else []))
      case Some(refusal) =>
        c.(action := if c.action == REMOVE_PIN then KEEP_PIN else HOLD,
           proposedPrice := c.currentPrice,
           refused := Some(refusal))
  }

  /** The rules a write must meet, as the policy lists them. */
  ghost predicate Admissible(c: Recommendation) {
    && IsWrite(c.action) && c.bands.Some? && c.confidence != Low
    && (c.action != REMOVE_PIN ==>
          && c.currentPrice.Some? && c.proposedPrice.Some?
          && RoundHalfEven(c.proposedPrice.value) != RoundHalfEven(c.currentPrice.value)
          && !(c.currentPrice.value != 0.0 && Exceeds(c.currentPrice.value, c.proposedPrice.value)))
    && (c.action == LOWER ==> c.bands.value.hardFloor <= c.proposedPrice.value)
    && (c.action == RAISE ==>
          c.proposedPrice.value <= Min(c.bands.value.autoRaiseCeiling, c.bands.value.absoluteCeiling))
  }

  /** A write comes out exactly when every rule admits it, and then it is the one that went in. */
  lemma WritesPassedTheGate(c: Recommendation)
    requires Divides(c.currentPrice, c.proposedPrice)
    ensures IsWrite(Finalise(c).action) <==> Admissible(c)
    ensures IsWrite(Finalise(c).action) ==>
              var r := Finalise(c);
              && r.action == c.action && r.proposedPrice == c.proposedPrice && r.currentPrice == c.currentPrice
              && r.bands == c.bands && r.refused == c.refused
              && (r.requiresHuman <==> r.action == RAISE && r.bands.value.raiseRequiresHuman)
  {
  }
}
