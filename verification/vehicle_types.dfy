/**
 * The vehicle record and the fuel-level rules of src/types/Vehicle.ts:
 * a three-way status, its display colour, and the weeks-until-refuel forecast.
 * A fuel level is a percentage of the tank, held as a `real`.
 */
module VehicleTypes {

  /** A registered vehicle. */
  datatype Vehicle = Vehicle(id: string, licensePlate: string, fuelLevel: real)

  /** A vehicle without its id: what the form submits (`Omit<Vehicle, 'id'>`). */
  datatype VehicleData = VehicleData(licensePlate: string, fuelLevel: real)

  /** The record a submission becomes once it is given an id. */
  function WithId(data: VehicleData, id: string): (v: Vehicle)
    ensures v.id == id
    ensures VehicleData(v.licensePlate, v.fuelLevel) == data
  {
    Vehicle(id, data.licensePlate, data.fuelLevel)
  }

  // ---------------------------------------------------------------- status and colour

  datatype FuelStatus = High | Medium | Low

  /** The order of the statuses, lowest first. */
  function Rank(s: FuelStatus): nat {
    match s
    case Low => 0
    case Medium => 1
    case High => 2
  }

  /** `getFuelStatus`: above 80 is high, above 30 is medium, anything else is low. */
  function GetFuelStatus(fuelLevel: real): (s: FuelStatus)
    ensures s == High <==> fuelLevel > 80.0
    ensures s == Medium <==> 30.0 < fuelLevel <= 80.0
    ensures s == Low <==> fuelLevel <= 30.0
  {
    if fuelLevel > 80.0 then High
    else if fuelLevel > 30.0 then Medium
    else Low
  }

  /** A fuller tank never shows a lower status. */
  lemma StatusMonotone(f: real, g: real)
    requires f <= g
    ensures Rank(GetFuelStatus(f)) <= Rank(GetFuelStatus(g))
  {
  }

  /** The colour each status is drawn in. */
  function StatusColor(s: FuelStatus): string {
    match s
    case High => "#4CAF50"
    case Medium => "#FFC107"
    case Low => "#F44336"
  }

  /** `getFuelColor`: green above 80, amber above 30, red otherwise. */
  function GetFuelColor(fuelLevel: real): (c: string)
    ensures c == "#4CAF50" <==> fuelLevel > 80.0
    ensures c == "#FFC107" <==> 30.0 < fuelLevel <= 80.0
    ensures c == "#F44336" <==> fuelLevel <= 30.0
  {
    StatusColor(GetFuelStatus(fuelLevel))
  }

  /** Two fuel levels share a colour exactly when they share a status: the three colours are distinct. */
  lemma ColorDeterminesStatus(f: real, g: real)
    ensures GetFuelColor(f) == GetFuelColor(g) <==> GetFuelStatus(f) == GetFuelStatus(g)
  {
  }

  // ---------------------------------------------------------------- forecast

  /** `Math.round`: the nearest integer, a tie going up (towards +∞). */
  function MathRound(x: real): (n: int)
    ensures n as real - 0.5 <= x < n as real + 0.5
  {
    (x + 0.5).Floor
  }

  /**
   * `calculateFuelWeeks`: a 55-litre tank at 10 km per litre, 12 km a week,
   * so round(level · 55 · 10 / 12 / 100) — 11·level/24 rounded half up.
   */
  function CalculateFuelWeeks(fuelLevel: real): (weeks: int)
    ensures 24.0 * weeks as real - 12.0 <= 11.0 * fuelLevel < 24.0 * weeks as real + 12.0
  {
    MathRound(fuelLevel * 55.0 * 10.0 / 12.0 / 100.0)
  }

  /** The forecast never shrinks as the tank fills. */
  lemma {:induction false} FuelWeeksMonotone(f: real, g: real)
    requires f <= g
    ensures CalculateFuelWeeks(f) <= CalculateFuelWeeks(g)
  {
    var a, b := CalculateFuelWeeks(f), CalculateFuelWeeks(g);
    assert 24.0 * a as real - 12.0 < 24.0 * b as real + 12.0;
  }

  /** Over the valid range the forecast lies between 0 and 46 weeks. */
  lemma FuelWeeksBounds(fuelLevel: real)
    requires 0.0 <= fuelLevel <= 100.0
    ensures 0 <= CalculateFuelWeeks(fuelLevel) <= 46
  {
  }

  /** An empty tank forecasts 0 weeks, 12% is the exact tie 5.5 and rounds up to 6, a full tank gives 46. */
  lemma FuelWeeksExamples()
    ensures CalculateFuelWeeks(0.0) == 0
    ensures CalculateFuelWeeks(12.0) == 6
    ensures CalculateFuelWeeks(100.0) == 46
  {
  }
}
