/**
 * The two rules of the electricity page that sit between the forms and the
 * engine: a billing period must end in a later month than it starts, and a
 * calculation runs only when the period has bills and readings and the
 * readings pass validation, on the sum of the period's floor bills.
 *
 * As written, the bills reach the engine as `Decimal` values and the readings
 * as floats, and the engine's first subtraction of one from the other raises;
 * `GateAsWritten` keeps that behaviour, and `Gate` is the page with the bill
 * sums in the readings' number type.
 */
module ElectricityPage {
  import opened Wrappers
  import opened Calculator
  import opened Storage
  import RoomConfig

  /** What the calculate button leads to. */
  datatype Outcome =
    | NoBills
    | NoReadings
    | InvalidReadings(errors: seq<ReadingError>)
    | CalcFailed(error: CalcError)
    | Calculated(allocation: Allocation)

  /** What the create-period button leads to. */
  datatype PeriodOutcome =
    | RangeRejected
    | PeriodCreated(id: int)
    | PeriodExists(id: int)

  /** `df_bills['amount'].sum()` */
  function BillsAmount(bills: seq<BillRow>): real {
    if bills == [] then 0.0 else BillsAmount(bills[..|bills| - 1]) + bills[|bills| - 1].amount
  }

  /** `df_bills['kwh'].sum()` */
  function BillsKwh(bills: seq<BillRow>): real {
    if bills == [] then 0.0 else BillsKwh(bills[..|bills| - 1]) + bills[|bills| - 1].kwh
  }

  /**
   * A number together with its Python type: the driver returns a `DECIMAL`
   * column as `Decimal`, `float(...)` gives a float, and `sum` of no values is
   * the integer 0.
   */
  datatype PyNumber = Dec(value: real) | Float(value: real) | Int(value: real)

  /** Python refuses arithmetic between a `Decimal` and a float; an integer mixes with either. */
  predicate Clash(x: PyNumber, y: PyNumber) {
    (x.Dec? && y.Float?) || (x.Float? && y.Dec?)
  }

  /** Python's `-`: an integer mixes with either kind, a `Decimal` and a float do not. */
  function Minus(x: PyNumber, y: PyNumber): (r: Option<PyNumber>)
    ensures r.None? <==> (x.Dec? && y.Float?) || (x.Float? && y.Dec?)
    ensures r.Some? ==> r.value.value == x.value - y.value
    ensures r.Some? && (x.Dec? || y.Dec?) ==> r.value.Dec?
  {
    if (x.Dec? && y.Float?) || (x.Float? && y.Dec?) then None
    else if x.Dec? || y.Dec? then Some(Dec(x.value - y.value))
    else if x.Float? || y.Float? then Some(Float(x.value - y.value))
    else Some(Int(x.value - y.value))
  }

  /**
   * Python's true division `/` by a non-zero number: refused between a
   * `Decimal` and a float, a `Decimal` when either side is one, and a float
   * otherwise, even for two integers.
   */
  function Divide(x: PyNumber, y: PyNumber): (r: Option<PyNumber>)
    requires y.value != 0.0
    ensures r.None? <==> Clash(x, y)
    ensures r.Some? ==> r.value.value == x.value / y.value
    ensures r.Some? ==> (r.value.Dec? <==> x.Dec? || y.Dec?) && !r.value.Int?
  {
    if Clash(x, y) then None
    else if x.Dec? || y.Dec? then Some(Dec(x.value / y.value))
    else Some(Float(x.value / y.value))
  }

  /** `sum(room_readings.values())` over the float readings of `get_meter_readings`. */
  function ReadingsTotal(readings: seq<Reading>): (r: PyNumber)
    ensures r.value == ReadingsSum(readings)
    ensures r.Float? <==> readings != []
  {
    if readings == [] then Int(0.0) else Float(ReadingsSum(readings))
  }

  /**
   * `calculate_all_rooms` on the numbers as the page passes them, with their
   * Python types. The kWh check of `calculate_unit_price` comes first; then
   * its division, which raises on a `Decimal` against a float and otherwise
   * gives a `Decimal` price when either side is one; then the subtraction in
   * `calculate_public_electricity`, which raises on a `Decimal` bill kWh
   * against the float reading total; then, for every reading, the float
   * total kWh times the price, which raises on a `Decimal` price. `round`
   * keeps a number's type, so these are all the clashes. Once past them, the
   * allocation is the one specified.
   */
  function AllocateAsWritten(engine: ElectricityCalculator, amount: PyNumber, kwh: PyNumber, readings: seq<Reading>)
    : (r: Result<Allocation, CalcError>)
    requires DistinctRooms(readings)
    ensures r.Err? <==> || kwh.value <= 0.0
                        || Clash(amount, kwh)
                        || Minus(kwh, ReadingsTotal(readings)).None?
                        || ((amount.Dec? || kwh.Dec?) && readings != [])
    ensures kwh.value <= 0.0 ==> r == Err(NonPositiveKwh)
    ensures kwh.value > 0.0 && r.Err? ==> r == Err(MixedNumberTypes)
    ensures kwh.value > 0.0 && kwh.Dec? && readings != [] ==> r == Err(MixedNumberTypes)
    ensures !amount.Dec? && !kwh.Dec? ==> r == engine.Allocate(amount.value, kwh.value, readings)
    ensures r.Ok? ==> r == engine.Allocate(amount.value, kwh.value, readings)
  {
    if kwh.value <= 0.0 then Err(NonPositiveKwh)
    else match Divide(amount, kwh)
      case None => Err(MixedNumberTypes)
      case Some(price) =>
        match Minus(kwh, ReadingsTotal(readings))
        case None => Err(MixedNumberTypes)
        case Some(_) =>
          if price.Dec? && readings != [] then Err(MixedNumberTypes)
          else engine.Allocate(amount.value, kwh.value, readings)
  }

  /**
   * The three ways a `Decimal` meets a float before any line is produced: in
   * the unit price's division either way round, and in a line's charge once
   * a `Decimal` amount over an integer kWh has made the price a `Decimal`.
   */
  lemma MixedArgumentsFailAsWritten(engine: ElectricityCalculator)
    ensures AllocateAsWritten(engine, Dec(1000.0), Float(300.0), [Reading("2A", 100.0)]) == Err(MixedNumberTypes)
    ensures AllocateAsWritten(engine, Float(1000.0), Dec(300.0), []) == Err(MixedNumberTypes)
    ensures AllocateAsWritten(engine, Dec(1000.0), Int(300.0), [Reading("2A", 100.0)]) == Err(MixedNumberTypes)
  {
  }

  /**
   * The calculate button as written: the bill sums are the `Decimal` values
   * of `get_taipower_bills`, the readings the floats of `get_meter_readings`.
   */
  function GateAsWritten(engine: ElectricityCalculator, bills: seq<BillRow>, readings: seq<Reading>,
                         previous: map<string, real>): Outcome
    requires DistinctRooms(readings)
  {
    if bills == [] then NoBills
    else if readings == [] then NoReadings
    else
      var errors := NegativeErrors(readings) + RegressionErrors(readings, previous);
      if errors != [] then InvalidReadings(errors)
      else match AllocateAsWritten(engine, Dec(BillsAmount(bills)), Dec(BillsKwh(bills)), readings)
        case Err(e) => CalcFailed(e)
        case Ok(a) => Calculated(a)
  }

  /**
   * As written no calculation ever succeeds: wherever the page with matching
   * number types calculates, it reports the clash instead, and everywhere
   * else the two agree.
   */
  lemma NeverCalculatedAsWritten(engine: ElectricityCalculator, bills: seq<BillRow>, readings: seq<Reading>,
                                 previous: map<string, real>)
    requires DistinctRooms(readings)
    ensures !GateAsWritten(engine, bills, readings, previous).Calculated?
    ensures GateAsWritten(engine, bills, readings, previous)
      == if Gate(engine, bills, readings, previous).Calculated? then CalcFailed(MixedNumberTypes)
         else Gate(engine, bills, readings, previous)
  {
  }

  /**
   * One floor bill of 1000 for 300 kWh and two clean readings: the page
   * calculates once the bill sums are floats, and as written it fails.
   */
  lemma StoredBillFailsAsWritten(engine: ElectricityCalculator)
    ensures var bills := [BillRow("1F", 1000.0, 300.0)];
      var readings := [Reading("2A", 100.33), Reading("2B", 99.67)];
      && Gate(engine, bills, readings, map[]).Calculated?
      && GateAsWritten(engine, bills, readings, map[]) == CalcFailed(MixedNumberTypes)
  {
    var bills := [BillRow("1F", 1000.0, 300.0)];
    var readings := [Reading("2A", 100.33), Reading("2B", 99.67)];
    assert BillsKwh(bills) == 300.0 by {
      assert bills[..0] == [];
    }
    assert DistinctRooms(readings);
    ValidationPassesIff(readings, map[]);
    CalculatedOnlyWhenClean(engine, bills, readings, map[]);
    NeverCalculatedAsWritten(engine, bills, readings, map[]);
  }

  /** The page's calculator: the building's sharing and exclusive tables. */
  method NewCalculator() returns (engine: ElectricityCalculator)
    ensures engine.sharingRooms == RoomConfig.SharingRooms
    ensures engine.exclusiveRooms == RoomConfig.ExclusiveRooms
  {
    engine := new ElectricityCalculator(RoomConfig.SharingRooms, RoomConfig.ExclusiveRooms);
  }

  /**
   * The outcome of the calculate button, checking in the page's order, with
   * the bill sums in the same number type as the readings.
   */
  function Gate(engine: ElectricityCalculator, bills: seq<BillRow>, readings: seq<Reading>,
                previous: map<string, real>): Outcome
    requires DistinctRooms(readings)
  {
    if bills == [] then NoBills
    else if readings == [] then NoReadings
    else
      var errors := NegativeErrors(readings) + RegressionErrors(readings, previous);
      if errors != [] then InvalidReadings(errors)
      else match engine.Allocate(BillsAmount(bills), BillsKwh(bills), readings)
        case Err(e) => CalcFailed(e)
        case Ok(a) => Calculated(a)
  }

  /** The calculate button: the checks, then the engine on the summed bills. */
  method RunCalculation(engine: ElectricityCalculator, bills: seq<BillRow>, readings: seq<Reading>,
                        previous: map<string, real>) returns (outcome: Outcome)
    requires DistinctRooms(readings)
    ensures outcome == Gate(engine, bills, readings, previous)
  {
    if |bills| == 0 {
      return NoBills;
    }
    if |readings| == 0 {
      return NoReadings;
    }
    var valid, errors := engine.ValidateReadings(readings, previous);
    if !valid {
      return InvalidReadings(errors);
    }
    var result := engine.CalculateAllRooms(BillsAmount(bills), BillsKwh(bills), readings);
    match result
    case Err(e) => outcome := CalcFailed(e);
    case Ok(a) => outcome := Calculated(a);
  }

  /**
   * A calculation only happens for a period with bills and readings, every
   * reading non-negative and none below its previous reading; it then has one
   * line per reading. It fails exactly when the bills add up to no kWh, and
   * it succeeds whenever the checks pass and the bills have positive kWh.
   */
  lemma CalculatedOnlyWhenClean(engine: ElectricityCalculator, bills: seq<BillRow>, readings: seq<Reading>,
                                previous: map<string, real>)
    requires DistinctRooms(readings)
    ensures Gate(engine, bills, readings, previous).Calculated? ==>
      && bills != [] && readings != []
      && (forall i :: 0 <= i < |readings| ==> readings[i].kwh >= 0.0)
      && (forall i :: 0 <= i < |readings| && readings[i].room in previous ==> readings[i].kwh >= previous[readings[i].room])
      && |Gate(engine, bills, readings, previous).allocation.roomCharges| == |readings|
    ensures Gate(engine, bills, readings, previous).CalcFailed? <==>
      && bills != [] && readings != []
      && NegativeErrors(readings) + RegressionErrors(readings, previous) == []
      && BillsKwh(bills) <= 0.0
    ensures (&& bills != [] && readings != []
             && NegativeErrors(readings) + RegressionErrors(readings, previous) == []
             && BillsKwh(bills) > 0.0)
      ==> Gate(engine, bills, readings, previous).Calculated?
  {
    ValidationPassesIff(readings, previous);
    if bills != [] && readings != [] && BillsKwh(bills) > 0.0 {
      AllocationLines(engine, BillsAmount(bills), BillsKwh(bills), readings);
    }
  }

  /**
   * The create-period button: a period that does not end after it starts is
   * refused before the store is asked; otherwise the store's answer.
   */
  method SubmitPeriod(store: ElectricityStorage, year: int, monthStart: int, monthEnd: int)
    returns (outcome: PeriodOutcome)
    requires store.Valid()
    modifies store
    ensures store.Valid()
    ensures monthEnd <= monthStart ==> outcome == RangeRejected && store.periods == old(store.periods)
    ensures monthEnd > monthStart ==> !outcome.RangeRejected?
    ensures outcome.PeriodCreated? ==>
      outcome.id !in old(store.periods) && store.periods == old(store.periods)[outcome.id := Period(year, monthStart, monthEnd)]
    ensures outcome.PeriodExists? ==>
      store.periods == old(store.periods) && outcome.id in store.periods
      && store.periods[outcome.id] == Period(year, monthStart, monthEnd)
  {
    if monthEnd <= monthStart {
      return RangeRejected;
    }
    var created, id := store.CreatePeriod(year, monthStart, monthEnd);
    if created {
      outcome := PeriodCreated(id);
    } else {
      outcome := PeriodExists(id);
    }
  }
}
