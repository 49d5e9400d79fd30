/** The owner's bands, and the floor they set for one night. */
module PricingConfig {
  import opened Wrappers

  /** A band matches a night when every constraint it sets is met; None sets none. */
  datatype FloorBand = FloorBand(
    floor: real,
    months: Option<set<nat>>,
    minDaysOut: Option<int>,
    maxDaysOut: Option<int>)

  datatype PricingBands = PricingBands(
    slug: string,
    hardFloor: real,
    normalFloor: real,
    autoRaiseCeiling: real,
    absoluteCeiling: real,
    raiseRequiresHuman: bool,
    floorSchedule: seq<FloorBand>)

  const WINTER_MONTHS: set<nat> := {1, 2, 3}

  function AnyMonth(floor: real, minDaysOut: Option<int>, maxDaysOut: Option<int>): FloorBand {
    FloorBand(floor, None, minDaysOut, maxDaysOut)
  }

  const BANDS: map<string, PricingBands> := map[
    "680420___747399" := PricingBands("roslindale-3rd-floor", 143.0, 143.0, 222.0, 291.0, false,
                                      [AnyMonth(143.0, None, None)]),
    "680434___747413" := PricingBands("renovated-2nd-floor", 170.0, 215.0, 392.0, 541.0, false, SECOND_FLOOR_SCHEDULE),
    "680444___747423" := PricingBands("boston-bunkers", 143.0, 143.0, 252.0, 324.0, false,
                                      [AnyMonth(143.0, None, None)]),
    "680447___747426" := PricingBands("modern-condo", 199.0, 219.0, 424.0, 662.0, false, []),
    "681286___748333" := PricingBands("harvard", 338.0, 360.0, 831.0, 1111.0, true, []),
    "681293___748340" := PricingBands("boston-condo-second-floor", 189.0, 221.0, 424.0, 637.0, false, []),
    "681301___748348" := PricingBands("arboretum", 189.0, 221.0, 442.0, 748.0, false,
                                      [FloorBand(189.0, Some(WINTER_MONTHS), None, None), AnyMonth(205.0, None, None)])]

  const SECOND_FLOOR_SCHEDULE: seq<FloorBand> := [
    AnyMonth(240.0, Some(30), None),
    AnyMonth(175.0, Some(15), Some(29)),
    AnyMonth(170.0, Some(8), Some(14)),
    AnyMonth(170.0, Some(4), Some(7)),
    AnyMonth(170.0, None, Some(3))]

  predicate Matches(b: FloorBand, month: nat, daysOut: int) {
    && (b.months.Some? ==> month in b.months.value)
    && (b.minDaysOut.Some? ==> b.minDaysOut.value <= daysOut)
    && (b.maxDaysOut.Some? ==> daysOut <= b.maxDaysOut.value)
  }

  function FirstMatch(schedule: seq<FloorBand>, month: nat, daysOut: int): Option<FloorBand> {
    if schedule == [] then None
    else if Matches(schedule[0], month, daysOut) then Some(schedule[0])
    else FirstMatch(schedule[1..], month, daysOut)
  }

  /** `dynamic_floor`, without the wording of its basis. */
  function DynamicFloor(bands: Option<PricingBands>, month: nat, daysOut: int): Option<real> {
    if bands.None? then None
    else
      match FirstMatch(bands.value.floorSchedule, month, daysOut)
      case None => None
      case Some(b) => Some(if b.floor >= bands.value.hardFloor then b.floor else bands.value.hardFloor)
  }


  // -- what the schedule promises ----------------------------------------

  /** The first band to match decides, and the schedule only ever raises the hard floor. */
  lemma {:induction false} FirstMatchDecides(schedule: seq<FloorBand>, month: nat, daysOut: int)
    ensures
      match FirstMatch(schedule, month, daysOut)
      case None => forall i :: 0 <= i < |schedule| ==> !Matches(schedule[i], month, daysOut)
      case Some(b) =>
        exists i :: 0 <= i < |schedule| && schedule[i] == b && Matches(b, month, daysOut) &&
                    forall j :: 0 <= j < i ==> !Matches(schedule[j], month, daysOut)
  {
    if schedule != [] && !Matches(schedule[0], month, daysOut) {
      var rest := schedule[1..];
      FirstMatchDecides(rest, month, daysOut);
      match FirstMatch(rest, month, daysOut)
      case None =>
        forall i | 0 <= i < |schedule| ensures !Matches(schedule[i], month, daysOut) {
          if i > 0 { assert schedule[i] == rest[i - 1]; }
        }
      case Some(b) =>
        var i :| 0 <= i < |rest| && rest[i] == b && Matches(b, month, daysOut) &&
                 forall j :: 0 <= j < i ==> !Matches(rest[j], month, daysOut);
        assert schedule[i + 1] == b;
        forall j | 0 <= j < i + 1 ensures !Matches(schedule[j], month, daysOut) {
          if j > 0 { assert schedule[j] == rest[j - 1]; }
        }
    }
  }

  lemma DynamicFloorIsSafe(bands: PricingBands, month: nat, daysOut: int)
    ensures
      var floor := DynamicFloor(Some(bands), month, daysOut);
      floor.Some? ==> floor.value >= bands.hardFloor
                      && exists i :: 0 <= i < |bands.floorSchedule|
                                     && Matches(bands.floorSchedule[i], month, daysOut)
                                     && floor.value >= bands.floorSchedule[i].floor
  {
    FirstMatchDecides(bands.floorSchedule, month, daysOut);
  }

  /** Every listing's limits are ordered, and every schedule in use names a floor for every night. */
  lemma BandsAreSound(listing: string, month: nat, daysOut: int)
    requires listing in BANDS
    ensures
      var b := BANDS[listing];
      && 0.0 < b.hardFloor <= b.normalFloor <= b.autoRaiseCeiling <= b.absoluteCeiling
      && (b.floorSchedule != [] <==> DynamicFloor(Some(b), month, daysOut).Some?)
  {
    var b := BANDS[listing];
    FirstMatchDecides(b.floorSchedule, month, daysOut);
    if b.floorSchedule != [] && b.slug != "renovated-2nd-floor" {
      assert Matches(b.floorSchedule[|b.floorSchedule| - 1], month, daysOut);
    } else if b.floorSchedule != [] {
      SecondFloorCovers(month, daysOut);
    }
  }

  lemma SecondFloorCovers(month: nat, daysOut: int)
    ensures exists i :: 0 <= i < |SECOND_FLOOR_SCHEDULE| && Matches(SECOND_FLOOR_SCHEDULE[i], month, daysOut)
  {
    var i := if daysOut >= 30 then 0 else if daysOut >= 15 then 1 else if daysOut >= 8 then 2
             else if daysOut >= 4 then 3 else 4;
    assert Matches(SECOND_FLOOR_SCHEDULE[i], month, daysOut);
  }
}
