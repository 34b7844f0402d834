/**
 * The electricity cost allocation engine and the meter-reading validator.
 *
 * The utility bills the building as a whole (an amount and a consumption in
 * kWh); each room has its own sub-meter. The engine derives a blended price
 * per kWh, treats whatever the sub-meters do not account for as common-area
 * consumption, splits that equally between the sharing rooms present, and
 * charges every room a whole amount for its own plus its shared kWh.
 *
 * A reading map is an insertion-ordered dictionary room -> kWh; it is modelled
 * as a list of readings whose rooms are distinct.
 */
module Calculator {
  import opened Wrappers
  import opened Rounding
  import RoomConfig

  datatype Reading = Reading(room: string, kwh: real)

  /** One room's line of the allocation. */
  datatype ChargeRow = ChargeRow(
    room: string,
    roomKwh: real,
    sharedKwh: real,
    totalKwh: real,
    charge: int,
    isSharing: bool)

  /** The allocation of one bill: the period summary and the per-room lines. */
  datatype Allocation = Allocation(
    unitPrice: real,
    publicKwh: real,
    sharedKwhPerRoom: real,
    sharingRoomCount: nat,
    roomCharges: seq<ChargeRow>,
    totalCharge: int,
    taipowerAmount: real,
    difference: real)

  datatype CalcError =
    /** The bill's consumption is zero or negative, so no price per kWh exists. */
    | NonPositiveKwh
    /**
     * A decimal bill total met a float reading total in a subtraction, which
     * Python refuses with a `TypeError`; only the page as written reaches it.
     */
    | MixedNumberTypes

  datatype ReadingError =
    | NegativeReading(room: string, value: real)
    | DecreasedReading(room: string, current: real, previous: real)

  // ---------------------------------------------------------------------
  // Readings

  /** A dictionary has each key once. */
  predicate DistinctRooms(rs: seq<Reading>) {
    forall i, j :: 0 <= i < j < |rs| ==> rs[i].room != rs[j].room
  }

  /** The rooms that have a reading. */
  function RoomSet(rs: seq<Reading>): set<string> {
    set i | 0 <= i < |rs| :: rs[i].room
  }

  /** `sum(room_readings.values())` */
  function ReadingsSum(rs: seq<Reading>): real {
    if rs == [] then 0.0 else ReadingsSum(rs[..|rs| - 1]) + rs[|rs| - 1].kwh
  }

  /** Sum of the whole-amount charges of a list of lines. */
  function ChargeSum(cs: seq<ChargeRow>): int {
    if cs == [] then 0 else cs[0].charge + ChargeSum(cs[1..])
  }

  /** Sum of the total kWh of a list of lines. */
  function KwhSum(cs: seq<ChargeRow>): real {
    if cs == [] then 0.0 else cs[0].totalKwh + KwhSum(cs[1..])
  }

  /** Every reading is a whole number of hundredths, as a `DECIMAL(10,2)` column holds it. */
  predicate ReadingsOnCents(rs: seq<Reading>) {
    forall i :: 0 <= i < |rs| ==> OnCents(rs[i].kwh)
  }

  // ---------------------------------------------------------------------
  // Ordering of room identifiers: Python compares strings lexicographically.

  predicate LexLess(a: string, b: string) {
    if |a| == 0 then |b| > 0
    else if |b| == 0 then false
    else if a[0] != b[0] then a[0] < b[0]
    else LexLess(a[1..], b[1..])
  }

  /** Two different room identifiers are always ordered one way or the other. */
  lemma {:induction false} LexLessTotal(a: string, b: string)
    requires a != b
    ensures LexLess(a, b) || LexLess(b, a)
  {
    if |a| > 0 && |b| > 0 && a[0] == b[0] {
      assert a == [a[0]] + a[1..] && b == [b[0]] + b[1..];
      LexLessTotal(a[1..], b[1..]);
    }
  }

  /** Never both ways round: the order is asymmetric. */
  lemma {:induction false} LexLessAsymmetric(a: string, b: string)
    ensures !(LexLess(a, b) && LexLess(b, a))
  {
    if |a| > 0 && |b| > 0 && a[0] == b[0] {
      LexLessAsymmetric(a[1..], b[1..]);
    }
  }

  /** The order is transitive. */
  lemma {:induction false} LexLessTransitive(a: string, b: string, c: string)
    requires LexLess(a, b) && LexLess(b, c)
    ensures LexLess(a, c)
  {
    if |a| > 0 && |b| > 0 && |c| > 0 && a[0] == b[0] && b[0] == c[0] {
      LexLessTransitive(a[1..], b[1..], c[1..]);
    }
  }

  /** Lines in strictly increasing room order. */
  predicate SortedByRoom(cs: seq<ChargeRow>) {
    forall i :: 0 < i < |cs| ==> LexLess(cs[i - 1].room, cs[i].room)
  }

  predicate DistinctChargeRooms(cs: seq<ChargeRow>) {
    forall i, j :: 0 <= i < j < |cs| ==> cs[i].room != cs[j].room
  }

  /** In a list sorted by room, every room comes before every later one. */
  lemma {:induction false} SortedChain(cs: seq<ChargeRow>, i: nat, j: nat)
    requires SortedByRoom(cs) && i < j < |cs|
    ensures LexLess(cs[i].room, cs[j].room)
    decreases j - i
  {
    if j > i + 1 {
      SortedChain(cs, i, j - 1);
      LexLessTransitive(cs[i].room, cs[j - 1].room, cs[j].room);
    }
  }

  /** A list sorted by room has no room twice. */
  lemma SortedDistinct(cs: seq<ChargeRow>)
    requires SortedByRoom(cs)
    ensures DistinctChargeRooms(cs)
  {
    forall i, j | 0 <= i < j < |cs|
      ensures cs[i].room != cs[j].room
    {
      SortedChain(cs, i, j);
      LexLessAsymmetric(cs[i].room, cs[j].room);
    }
  }

  /** Put one line into a list sorted by room, keeping it sorted. */
  function InsertByRoom(c: ChargeRow, cs: seq<ChargeRow>): (r: seq<ChargeRow>)
    requires SortedByRoom(cs)
    requires forall k :: 0 <= k < |cs| ==> cs[k].room != c.room
    ensures |r| == |cs| + 1 && SortedByRoom(r)
    ensures r[0] == c || (|cs| > 0 && r[0] == cs[0])
    ensures multiset(r) == multiset(cs) + multiset{c}
    ensures ChargeSum(r) == ChargeSum(cs) + c.charge
  {
    if cs == [] || LexLess(c.room, cs[0].room) then
      assert ([c] + cs)[1..] == cs;
      [c] + cs
    else
      LexLessTotal(c.room, cs[0].room);
      var tail := cs[1..];
      TailSorted(cs);
      var rest := InsertByRoom(c, tail);
      assert LexLess(cs[0].room, rest[0].room);
      assert ([cs[0]] + rest)[1..] == rest;
      assert cs == [cs[0]] + tail;
      [cs[0]] + rest
  }

  /** The tail of a sorted list is sorted. */
  lemma TailSorted(cs: seq<ChargeRow>)
    requires SortedByRoom(cs) && cs != []
    ensures SortedByRoom(cs[1..])
  {
    var tail := cs[1..];
    forall i | 0 < i < |tail| ensures LexLess(tail[i - 1].room, tail[i].room) {
      assert tail[i - 1] == cs[i] && tail[i] == cs[i + 1];
    }
  }

  /** `sorted(room_charges, key=room)`: the same lines in room order. */
  function SortByRoom(cs: seq<ChargeRow>): (r: seq<ChargeRow>)
    requires DistinctChargeRooms(cs)
    ensures |r| == |cs| && SortedByRoom(r)
    ensures multiset(r) == multiset(cs)
    ensures ChargeSum(r) == ChargeSum(cs)
  {
    if cs == [] then []
    else
      var rest := SortByRoom(cs[1..]);
      HeadNotInRest(cs, rest);
      assert cs == [cs[0]] + cs[1..];
      InsertByRoom(cs[0], rest)
  }

  /** Lines already in room order are left as they are. */
  lemma {:induction false} SortKeepsSorted(cs: seq<ChargeRow>)
    requires DistinctChargeRooms(cs) && SortedByRoom(cs)
    ensures SortByRoom(cs) == cs
  {
    if cs != [] {
      var tail := cs[1..];
      assert SortedByRoom(tail) by {
        forall i | 0 < i < |tail| ensures LexLess(tail[i - 1].room, tail[i].room) {
          assert tail[i - 1] == cs[i] && tail[i] == cs[i + 1];
        }
      }
      SortKeepsSorted(tail);
      assert cs == [cs[0]] + tail;
    }
  }

  lemma HeadNotInRest(cs: seq<ChargeRow>, rest: seq<ChargeRow>)
    requires cs != [] && DistinctChargeRooms(cs)
    requires multiset(rest) == multiset(cs[1..])
    ensures forall k :: 0 <= k < |rest| ==> rest[k].room != cs[0].room
  {
    forall k | 0 <= k < |rest|
      ensures rest[k].room != cs[0].room
    {
      assert rest[k] in multiset(cs[1..]);
      var j :| 0 <= j < |cs[1..]| && cs[1..][j] == rest[k];
      assert cs[j + 1] == rest[k];
    }
  }

  // ---------------------------------------------------------------------
  // Validation of readings

  /** One error per negative reading, in reading order. */
  function NegativeErrors(rs: seq<Reading>): seq<ReadingError> {
    if rs == [] then []
    else
      var last := rs[|rs| - 1];
      NegativeErrors(rs[..|rs| - 1]) + (if last.kwh < 0.0 then [NegativeReading(last.room, last.kwh)] else [])
  }

  /** One error per reading below the previous period's reading of the same room. */
  function RegressionErrors(rs: seq<Reading>, previous: map<string, real>): seq<ReadingError> {
    if rs == [] then []
    else
      var last := rs[|rs| - 1];
      RegressionErrors(rs[..|rs| - 1], previous)
        + (if last.room in previous && last.kwh < previous[last.room]
           then [DecreasedReading(last.room, last.kwh, previous[last.room])] else [])
  }

  /** Without previous readings nothing can regress. */
  lemma {:induction false} NoPreviousNoRegression(rs: seq<Reading>)
    ensures RegressionErrors(rs, map[]) == []
  {
    if rs != [] {
      NoPreviousNoRegression(rs[..|rs| - 1]);
    }
  }

  /** The negative-reading errors are exactly one per negative reading. */
  lemma {:induction false} NegativeErrorsExact(rs: seq<Reading>)
    ensures forall e :: e in NegativeErrors(rs) <==>
      exists i :: 0 <= i < |rs| && rs[i].kwh < 0.0 && e == NegativeReading(rs[i].room, rs[i].kwh)
    ensures |NegativeErrors(rs)| <= |rs|
  {
    if rs != [] {
      var init := rs[..|rs| - 1];
      NegativeErrorsExact(init);
      forall e
        ensures e in NegativeErrors(rs) <==>
          exists i :: 0 <= i < |rs| && rs[i].kwh < 0.0 && e == NegativeReading(rs[i].room, rs[i].kwh)
      {
        if e in NegativeErrors(init) {
          var i :| 0 <= i < |init| && init[i].kwh < 0.0 && e == NegativeReading(init[i].room, init[i].kwh);
          assert rs[i] == init[i];
        }
        if exists i :: 0 <= i < |rs| && rs[i].kwh < 0.0 && e == NegativeReading(rs[i].room, rs[i].kwh) {
          var i :| 0 <= i < |rs| && rs[i].kwh < 0.0 && e == NegativeReading(rs[i].room, rs[i].kwh);
          if i < |init| {
            assert init[i] == rs[i];
          }
        }
      }
    }
  }

  /**
   * The regression errors are exactly one per reading whose room has a
   * previous reading greater than the current one; rooms without a previous
   * reading are never flagged.
   */
  lemma {:induction false} RegressionErrorsExact(rs: seq<Reading>, previous: map<string, real>)
    ensures forall e :: e in RegressionErrors(rs, previous) <==>
      exists i :: 0 <= i < |rs| && rs[i].room in previous && rs[i].kwh < previous[rs[i].room]
        && e == DecreasedReading(rs[i].room, rs[i].kwh, previous[rs[i].room])
  {
    if rs != [] {
      var init := rs[..|rs| - 1];
      RegressionErrorsExact(init, previous);
      forall e
        ensures e in RegressionErrors(rs, previous) <==>
          exists i :: 0 <= i < |rs| && rs[i].room in previous && rs[i].kwh < previous[rs[i].room]
            && e == DecreasedReading(rs[i].room, rs[i].kwh, previous[rs[i].room])
      {
        if e in RegressionErrors(init, previous) {
          var i :| 0 <= i < |init| && init[i].room in previous && init[i].kwh < previous[init[i].room]
            && e == DecreasedReading(init[i].room, init[i].kwh, previous[init[i].room]);
          assert rs[i] == init[i];
        }
        if exists i :: 0 <= i < |rs| && rs[i].room in previous && rs[i].kwh < previous[rs[i].room]
            && e == DecreasedReading(rs[i].room, rs[i].kwh, previous[rs[i].room]) {
          var i :| 0 <= i < |rs| && rs[i].room in previous && rs[i].kwh < previous[rs[i].room]
            && e == DecreasedReading(rs[i].room, rs[i].kwh, previous[rs[i].room]);
          if i < |init| {
            assert init[i] == rs[i];
          }
        }
      }
    }
  }

  /**
   * Validation passes exactly when no reading is negative and no room's
   * reading is below its previous reading.
   */
  lemma ValidationPassesIff(rs: seq<Reading>, previous: map<string, real>)
    ensures NegativeErrors(rs) + RegressionErrors(rs, previous) == [] <==>
      (forall i :: 0 <= i < |rs| ==> rs[i].kwh >= 0.0) &&
      (forall i :: 0 <= i < |rs| && rs[i].room in previous ==> rs[i].kwh >= previous[rs[i].room])
  {
    NegativeErrorsExact(rs);
    RegressionErrorsExact(rs, previous);
    if NegativeErrors(rs) + RegressionErrors(rs, previous) == [] {
      forall i | 0 <= i < |rs|
        ensures rs[i].kwh >= 0.0
        ensures rs[i].room in previous ==> rs[i].kwh >= previous[rs[i].room]
      {
        assert NegativeReading(rs[i].room, rs[i].kwh) !in NegativeErrors(rs);
        if rs[i].room in previous {
          assert DecreasedReading(rs[i].room, rs[i].kwh, previous[rs[i].room]) !in RegressionErrors(rs, previous);
        }
      }
    } else {
      var e := (NegativeErrors(rs) + RegressionErrors(rs, previous))[0];
      assert e in NegativeErrors(rs) || e in RegressionErrors(rs, previous);
    }
  }

  /** A room read at 50 after 80 last period fails with one error naming it. */
  lemma RegressionExample()
    ensures NegativeErrors([Reading("A", 50.0)]) + RegressionErrors([Reading("A", 50.0)], map["A" := 80.0])
      == [DecreasedReading("A", 50.0, 80.0)]
  {
    assert [Reading("A", 50.0)][..0] == [];
  }

  // ---------------------------------------------------------------------
  // The calculator

  /**
   * The whole amount a room pays for `totalKwh` at `unitPrice`: the product
   * rounded to the nearest whole amount, ties to even.
   */
  function ChargeFor(totalKwh: real, unitPrice: real): (charge: int)
    ensures totalKwh * unitPrice - 0.5 <= charge as real <= totalKwh * unitPrice + 0.5
  {
    Round0(totalKwh * unitPrice)
  }

  class ElectricityCalculator {
    /** Rooms that split the common-area consumption. */
    const sharingRooms: seq<string>
    /** Rooms with a private meter; kept by the calculator but never consulted. */
    const exclusiveRooms: seq<string>

    constructor(sharing: seq<string>, exclusive: seq<string>)
      ensures sharingRooms == sharing && exclusiveRooms == exclusive
    {
      sharingRooms := sharing;
      exclusiveRooms := exclusive;
    }

    /** `calculate_unit_price`: the bill amount per kWh, to the cent. */
    function UnitPrice(totalAmount: real, totalKwh: real): (r: Result<real, CalcError>)
      ensures r.Err? <==> totalKwh <= 0.0
      ensures r.Ok? ==>
        OnCents(r.value) && totalAmount / totalKwh - 0.005 <= r.value <= totalAmount / totalKwh + 0.005
      ensures totalKwh > 0.0 ==> r == Ok(Round2(totalAmount / totalKwh))
    {
      if totalKwh <= 0.0 then Err(NonPositiveKwh)
      else Ok(Round2(totalAmount / totalKwh))
    }

    /**
     * `calculate_public_electricity`: what the sub-meters do not account for,
     * to the hundredth, and 0 when they account for more than the bill.
     */
    function PublicKwh(taipowerKwh: real, readings: seq<Reading>): (r: real)
      ensures r >= 0.0
      ensures taipowerKwh - ReadingsSum(readings) < 0.0 ==> r == 0.0
      ensures taipowerKwh - ReadingsSum(readings) >= 0.0 ==>
        OnCents(r) && taipowerKwh - ReadingsSum(readings) - 0.005 <= r <= taipowerKwh - ReadingsSum(readings) + 0.005
    {
      var publicKwh := taipowerKwh - ReadingsSum(readings);
      if publicKwh < 0.0 then 0.0
      else
        Round2NonNegative(publicKwh);
        Round2(publicKwh)
    }

    /** `calculate_shared_electricity`: an equal share per sharing room, to the hundredth. */
    function SharedPerRoom(publicKwh: real, sharingRoomCount: int): (r: real)
      ensures sharingRoomCount <= 0 ==> r == 0.0
      ensures OnCents(r)
      ensures sharingRoomCount > 0 ==>
        publicKwh / sharingRoomCount as real - 0.005 <= r <= publicKwh / sharingRoomCount as real + 0.005
      ensures publicKwh >= 0.0 ==> r >= 0.0
    {
      if sharingRoomCount <= 0 then
        Round2OnCents(0.0);
        0.0
      else
        var share := publicKwh / sharingRoomCount as real;
        if share >= 0.0 then
          Round2NonNegative(share);
          Round2(share)
        else Round2(share)
    }

    /** Whether a room is on the calculator's sharing list. */
    predicate IsSharing(room: string) {
      room in sharingRooms
    }

    /**
     * `calculate_room_charge`: a sharing room adds the share to its own kWh,
     * any other room adds nothing; the charge is the whole amount nearest to
     * total kWh times the unit price.
     */
    function RoomCharge(room: string, roomKwh: real, unitPrice: real, sharedKwh: real): (c: ChargeRow)
      ensures c.room == room && c.isSharing == IsSharing(room)
      ensures !c.isSharing ==> c.sharedKwh == 0.0
      ensures c.isSharing ==> c.sharedKwh == Round2(sharedKwh)
      ensures OnCents(c.roomKwh) && OnCents(c.totalKwh)
      ensures c.roomKwh == Round2(roomKwh)
      ensures roomKwh - 0.005 <= c.roomKwh <= roomKwh + 0.005
      ensures var total := roomKwh + (if c.isSharing then sharedKwh else 0.0);
        c.totalKwh == Round2(total) && total - 0.005 <= c.totalKwh <= total + 0.005
      ensures c.charge == ChargeFor(roomKwh + (if c.isSharing then sharedKwh else 0.0), unitPrice)
    {
      var isSharing := IsSharing(room);
      var actualShared := if isSharing then sharedKwh else 0.0;
      var totalKwh := roomKwh + actualShared;
      Round2OnCents(0.0);
      ChargeRow(room, Round2(roomKwh), Round2(actualShared), Round2(totalKwh),
                ChargeFor(totalKwh, unitPrice), isSharing)
    }

    /**
     * `len([r for r in room_readings.keys() if r in self.sharing_rooms])`;
     * `SharingCountIsSharingRoomsRead` shows that with distinct rooms this is
     * the number of rooms read that are on the sharing list.
     */
    function SharingCount(readings: seq<Reading>): (n: nat)
      ensures n <= |readings|
    {
      if readings == [] then 0
      else SharingCount(readings[..|readings| - 1]) + (if IsSharing(readings[|readings| - 1].room) then 1 else 0)
    }

    /** The charge lines in reading order. */
    function Charges(readings: seq<Reading>, unitPrice: real, sharedKwh: real): (cs: seq<ChargeRow>)
      ensures |cs| == |readings|
      ensures forall i :: 0 <= i < |readings| ==>
        cs[i] == RoomCharge(readings[i].room, readings[i].kwh, unitPrice, sharedKwh)
    {
      seq(|readings|, i requires 0 <= i < |readings| =>
        RoomCharge(readings[i].room, readings[i].kwh, unitPrice, sharedKwh))
    }

    /**
     * The allocation of a bill: fails when the bill has no consumption, and
     * otherwise gives the summary and the lines sorted by room.
     */
    function Allocate(taipowerAmount: real, taipowerKwh: real, readings: seq<Reading>): (r: Result<Allocation, CalcError>)
      requires DistinctRooms(readings)
      ensures r.Err? <==> taipowerKwh <= 0.0
    {
      match UnitPrice(taipowerAmount, taipowerKwh)
      case Err(e) => Err(e)
      case Ok(unitPrice) =>
        var publicKwh := PublicKwh(taipowerKwh, readings);
        var count := SharingCount(readings);
        var share := SharedPerRoom(publicKwh, count);
        var lines := Charges(readings, unitPrice, share);
        assert DistinctChargeRooms(lines);
        var total := ChargeSum(lines);
        Ok(Allocation(unitPrice, publicKwh, share, count, SortByRoom(lines), total,
                      taipowerAmount, Round2(total as real - taipowerAmount)))
    }

    /** Step 4 of `calculate_all_rooms`: one charge line appended per reading, in reading order. */
    method ChargeLines(readings: seq<Reading>, unitPrice: real, share: real) returns (lines: seq<ChargeRow>)
      ensures lines == Charges(readings, unitPrice, share)
    {
      lines := [];
      var i := 0;
      while i < |readings|
        invariant 0 <= i <= |readings|
        invariant lines == Charges(readings, unitPrice, share)[..i]
      {
        lines := lines + [RoomCharge(readings[i].room, readings[i].kwh, unitPrice, share)];
        i := i + 1;
      }
    }

    /**
     * `calculate_all_rooms`: builds the lines by appending one per reading,
     * then sums and sorts them; an error is passed on with no partial result.
     */
    method CalculateAllRooms(taipowerAmount: real, taipowerKwh: real, readings: seq<Reading>)
      returns (r: Result<Allocation, CalcError>)
      requires DistinctRooms(readings)
      ensures r == Allocate(taipowerAmount, taipowerKwh, readings)
    {
      var price := UnitPrice(taipowerAmount, taipowerKwh);
      if price.Err? {
        return Err(price.error);
      }
      var unitPrice := price.value;
      var publicKwh := PublicKwh(taipowerKwh, readings);
      var count := SharingCount(readings);
      var share := SharedPerRoom(publicKwh, count);
      var lines := ChargeLines(readings, unitPrice, share);
      var total := ChargeSum(lines);
      r := Ok(Allocation(unitPrice, publicKwh, share, count, SortByRoom(lines), total,
                         taipowerAmount, Round2(total as real - taipowerAmount)));
      assert Allocate(taipowerAmount, taipowerKwh, readings) == r by {
        assert UnitPrice(taipowerAmount, taipowerKwh) == Ok(unitPrice);
      }
    }

    /**
     * `validate_readings`: every negative reading is reported first, then,
     * when there are previous readings, every room whose reading went down.
     */
    method ValidateReadings(current: seq<Reading>, previous: map<string, real>)
      returns (ok: bool, errors: seq<ReadingError>)
      ensures errors == NegativeErrors(current) + RegressionErrors(current, previous)
      ensures ok <==> errors == []
    {
      errors := [];
      var i := 0;
      while i < |current|
        invariant 0 <= i <= |current|
        invariant errors == NegativeErrors(current[..i])
      {
        assert current[..i + 1][..i] == current[..i];
        if current[i].kwh < 0.0 {
          errors := errors + [NegativeReading(current[i].room, current[i].kwh)];
        }
        i := i + 1;
      }
      assert current[..|current|] == current;
      var negatives := errors;
      if previous != map[] {
        i := 0;
        while i < |current|
          invariant 0 <= i <= |current|
          invariant errors == negatives + RegressionErrors(current[..i], previous)
        {
          assert current[..i + 1][..i] == current[..i];
          var room := current[i].room;
          if room in previous {
            if current[i].kwh < previous[room] {
              errors := errors + [DecreasedReading(room, current[i].kwh, previous[room])];
            }
          }
          i := i + 1;
        }
      } else {
        NoPreviousNoRegression(current);
      }
      ok := |errors| == 0;
    }
  }

  // ---------------------------------------------------------------------
  // Properties of the allocation

  /** A failed allocation is exactly a bill with no consumption. */
  lemma AllocationFailsOnlyWithoutConsumption(engine: ElectricityCalculator, amount: real, kwh: real, readings: seq<Reading>)
    requires DistinctRooms(readings)
    ensures engine.Allocate(amount, kwh, readings) == Err(NonPositiveKwh) <==> kwh <= 0.0
  {
  }

  /** The allocation carries the bill it was computed from. */
  lemma AllocationBill(engine: ElectricityCalculator, amount: real, kwh: real, readings: seq<Reading>)
    requires DistinctRooms(readings) && kwh > 0.0
    ensures engine.Allocate(amount, kwh, readings).value.taipowerAmount == amount
  {
  }

  /**
   * The lines are the per-reading charge lines (one per reading, each the
   * charge of its own reading) rearranged into room order; the total is their
   * sum and the difference is that total less the bill, to the cent.
   */
  lemma AllocationLines(engine: ElectricityCalculator, amount: real, kwh: real, readings: seq<Reading>)
    requires DistinctRooms(readings) && kwh > 0.0
    ensures var a := engine.Allocate(amount, kwh, readings).value;
      && |a.roomCharges| == |readings|
      && SortedByRoom(a.roomCharges)
      && multiset(a.roomCharges) == multiset(engine.Charges(readings, a.unitPrice, a.sharedKwhPerRoom))
      && a.totalCharge == ChargeSum(a.roomCharges)
      && a.difference == Round2(a.totalCharge as real - amount)
      && a.totalCharge as real - amount - 0.005 <= a.difference <= a.totalCharge as real - amount + 0.005
  {
    var price := engine.UnitPrice(amount, kwh).value;
    var publicKwh := engine.PublicKwh(kwh, readings);
    var count := engine.SharingCount(readings);
    var share := engine.SharedPerRoom(publicKwh, count);
    var lines := engine.Charges(readings, price, share);
    var total := ChargeSum(lines);
    assert engine.UnitPrice(amount, kwh) == Ok(price);
    assert DistinctChargeRooms(lines);
    var sorted := SortByRoom(lines);
    assert engine.Allocate(amount, kwh, readings)
      == Ok(Allocation(price, publicKwh, share, count, sorted, total, amount, Round2(total as real - amount)));
  }

  /**
   * Every sharing room is given the same shared kWh, the per-room share,
   * whatever its own reading; every other room is given none.
   */
  lemma SharingRoomsShareEqually(engine: ElectricityCalculator, amount: real, kwh: real, readings: seq<Reading>)
    requires DistinctRooms(readings) && kwh > 0.0
    ensures var a := engine.Allocate(amount, kwh, readings).value;
      forall k :: 0 <= k < |a.roomCharges| ==>
        && (a.roomCharges[k].isSharing <==> a.roomCharges[k].room in engine.sharingRooms)
        && (a.roomCharges[k].isSharing ==> a.roomCharges[k].sharedKwh == a.sharedKwhPerRoom)
        && (!a.roomCharges[k].isSharing ==> a.roomCharges[k].sharedKwh == 0.0)
  {
    var a := engine.Allocate(amount, kwh, readings).value;
    AllocationLines(engine, amount, kwh, readings);
    LinesShareEqually(engine, readings, a.unitPrice, a.sharedKwhPerRoom, a.roomCharges);
  }

  /** Any rearrangement of the charge lines for a share on the cent grid. */
  lemma LinesShareEqually(engine: ElectricityCalculator, readings: seq<Reading>, price: real, share: real,
                          rows: seq<ChargeRow>)
    requires OnCents(share)
    requires multiset(rows) == multiset(engine.Charges(readings, price, share))
    ensures forall k :: 0 <= k < |rows| ==>
      && (rows[k].isSharing <==> rows[k].room in engine.sharingRooms)
      && (rows[k].isSharing ==> rows[k].sharedKwh == share)
      && (!rows[k].isSharing ==> rows[k].sharedKwh == 0.0)
  {
    var lines := engine.Charges(readings, price, share);
    Round2OnCents(share);
    forall k | 0 <= k < |rows|
      ensures rows[k].isSharing <==> rows[k].room in engine.sharingRooms
      ensures rows[k].isSharing ==> rows[k].sharedKwh == share
      ensures !rows[k].isSharing ==> rows[k].sharedKwh == 0.0
    {
      assert rows[k] in multiset(lines);
      var i :| 0 <= i < |lines| && rows[k] == lines[i];
    }
  }

  /**
   * With distinct rooms, the sharing count is the number of rooms with a
   * reading that are on the sharing list; other rooms are not counted.
   */
  lemma {:induction false} SharingCountIsSharingRoomsRead(engine: ElectricityCalculator, readings: seq<Reading>)
    requires DistinctRooms(readings)
    ensures engine.SharingCount(readings) == |RoomSet(readings) * (set r | r in engine.sharingRooms)|
  {
    var shared := set r | r in engine.sharingRooms;
    if readings == [] {
      assert RoomSet(readings) == {};
    } else {
      var init := readings[..|readings| - 1];
      var last := readings[|readings| - 1];
      DropLastReading(readings);
      SharingCountIsSharingRoomsRead(engine, init);
      IntersectionGrows(RoomSet(init), last.room, shared);
      assert last.room in shared <==> engine.IsSharing(last.room);
    }
  }

  /** Without its last reading, a dictionary of readings still has distinct rooms, none of them the last one's. */
  lemma DropLastReading(readings: seq<Reading>)
    requires DistinctRooms(readings) && readings != []
    ensures var init := readings[..|readings| - 1];
      && DistinctRooms(init)
      && readings[|readings| - 1].room !in RoomSet(init)
      && RoomSet(readings) == RoomSet(init) + {readings[|readings| - 1].room}
  {
    var init := readings[..|readings| - 1];
    var last := readings[|readings| - 1];
    assert forall i :: 0 <= i < |init| ==> init[i] == readings[i];
    assert readings == init + [last];
  }

  /** Adding an element that is new to a set grows its intersection with another set by at most that element. */
  lemma IntersectionGrows(a: set<string>, x: string, b: set<string>)
    requires x !in a
    ensures |(a + {x}) * b| == |a * b| + (if x in b then 1 else 0)
  {
    if x in b {
      assert (a + {x}) * b == a * b + {x};
    } else {
      assert (a + {x}) * b == a * b;
    }
  }

  /**
   * The public consumption is never negative; it is the bill's kWh less the
   * readings when that is non-negative, and 0 otherwise.
   */
  lemma PublicNeverNegative(engine: ElectricityCalculator, amount: real, kwh: real, readings: seq<Reading>)
    requires DistinctRooms(readings) && kwh > 0.0
    ensures var a := engine.Allocate(amount, kwh, readings).value;
      && a.publicKwh >= 0.0
      && a.sharedKwhPerRoom >= 0.0
      && (a.sharingRoomCount == 0 ==> a.sharedKwhPerRoom == 0.0)
  {
  }

  // ---------------------------------------------------------------------
  // Where the bill's kWh go

  /**
   * The lines' total kWh add up to the bill's kWh, up to the rounding: half a
   * hundredth for the public kWh, one per share and one per line. With no
   * sharing room read, or with the rooms reading more than the bill, the
   * lines carry the readings alone and the public kWh go to no room.
   */
  lemma KwhConservation(engine: ElectricityCalculator, amount: real, kwh: real, readings: seq<Reading>)
    requires DistinctRooms(readings) && kwh > 0.0
    ensures var a := engine.Allocate(amount, kwh, readings).value;
      var read := ReadingsSum(readings);
      var slack := (|readings| + a.sharingRoomCount + 1) as real * 0.005;
      && (a.sharingRoomCount > 0 && kwh >= read ==> kwh - slack <= KwhSum(a.roomCharges) <= kwh + slack)
      && (a.sharingRoomCount == 0 || kwh < read ==>
            read - |readings| as real * 0.005 <= KwhSum(a.roomCharges) <= read + |readings| as real * 0.005)
  {
    var a := engine.Allocate(amount, kwh, readings).value;
    AllocationKwh(engine, amount, kwh, readings);
    LinesBudget(engine, kwh, readings, a.unitPrice);
  }

  /**
   * With readings on the cent grid the lines' kWh are exact: they add up to
   * the bill's kWh within half a hundredth per share plus one, and to the
   * readings exactly when no public kWh is shared out.
   */
  lemma KwhConservationOnCents(engine: ElectricityCalculator, amount: real, kwh: real, readings: seq<Reading>)
    requires DistinctRooms(readings) && kwh > 0.0 && ReadingsOnCents(readings)
    ensures var a := engine.Allocate(amount, kwh, readings).value;
      var read := ReadingsSum(readings);
      var slack := (a.sharingRoomCount + 1) as real * 0.005;
      && (a.sharingRoomCount > 0 && kwh >= read ==> kwh - slack <= KwhSum(a.roomCharges) <= kwh + slack)
      && (a.sharingRoomCount == 0 || kwh < read ==> KwhSum(a.roomCharges) == read)
  {
    var a := engine.Allocate(amount, kwh, readings).value;
    AllocationKwh(engine, amount, kwh, readings);
    LinesBudget(engine, kwh, readings, a.unitPrice);
  }

  /** The kWh budget of the per-reading lines, for the public kWh and share the engine computes. */
  lemma LinesBudget(engine: ElectricityCalculator, kwh: real, readings: seq<Reading>, price: real)
    ensures var read := ReadingsSum(readings);
      var n, count := |readings|, engine.SharingCount(readings);
      var sum := KwhSum(engine.Charges(readings, price, engine.SharedPerRoom(engine.PublicKwh(kwh, readings), count)));
      && (count > 0 && kwh >= read ==> kwh - (n + count + 1) as real * 0.005 <= sum <= kwh + (n + count + 1) as real * 0.005)
      && (count > 0 && kwh >= read && ReadingsOnCents(readings) ==>
            kwh - (count + 1) as real * 0.005 <= sum <= kwh + (count + 1) as real * 0.005)
      && (count == 0 || kwh < read ==> read - n as real * 0.005 <= sum <= read + n as real * 0.005)
      && ((count == 0 || kwh < read) && ReadingsOnCents(readings) ==> sum == read)
  {
    var count := engine.SharingCount(readings);
    var publicKwh := engine.PublicKwh(kwh, readings);
    var share := engine.SharedPerRoom(publicKwh, count);
    ChargesKwh(engine, readings, price, share);
    HandedOutBound(engine, readings, publicKwh);
    ShareArithmetic(kwh, ReadingsSum(readings), |readings|, count, publicKwh, SharesHandedOut(engine, readings, share),
                    KwhSum(engine.Charges(readings, price, share)), ReadingsOnCents(readings));
  }

  /** The allocation's sorted lines carry the same kWh as the per-reading lines it was built from. */
  lemma AllocationKwh(engine: ElectricityCalculator, amount: real, kwh: real, readings: seq<Reading>)
    requires DistinctRooms(readings) && kwh > 0.0
    ensures var a := engine.Allocate(amount, kwh, readings).value;
      && KwhSum(a.roomCharges) == KwhSum(engine.Charges(readings, a.unitPrice, a.sharedKwhPerRoom))
      && OnCents(a.sharedKwhPerRoom)
      && a.sharingRoomCount == engine.SharingCount(readings)
      && a.publicKwh == engine.PublicKwh(kwh, readings)
      && a.sharedKwhPerRoom == engine.SharedPerRoom(a.publicKwh, a.sharingRoomCount)
  {
    var a := engine.Allocate(amount, kwh, readings).value;
    AllocationLines(engine, amount, kwh, readings);
    KwhSumPermutation(a.roomCharges, engine.Charges(readings, a.unitPrice, a.sharedKwhPerRoom));
  }

  /**
   * `sum` kWh of `n` lines account for a bill of `kwh` whose rooms read `read`
   * and `count` of which share: within the rounding of the public kWh, the
   * shares and the lines when public kWh are shared out, and otherwise the
   * readings alone; `exact` lines lose nothing to their own rounding.
   */
  predicate WithinBudget(kwh: real, read: real, n: nat, count: nat, sum: real, exact: bool) {
    && (count > 0 && kwh >= read ==> kwh - (n + count + 1) as real * 0.005 <= sum <= kwh + (n + count + 1) as real * 0.005)
    && (count > 0 && kwh >= read && exact ==> kwh - (count + 1) as real * 0.005 <= sum <= kwh + (count + 1) as real * 0.005)
    && (count == 0 || kwh < read ==> read - n as real * 0.005 <= sum <= read + n as real * 0.005)
    && ((count == 0 || kwh < read) && exact ==> sum == read)
  }

  /**
   * The shares handed out with the lines make up the public kWh within half
   * a hundredth per sharing room read, and nothing is handed out when no room
   * shares or when there is no public consumption.
   */
  lemma HandedOutBound(engine: ElectricityCalculator, readings: seq<Reading>, publicKwh: real)
    requires publicKwh >= 0.0
    ensures var count := engine.SharingCount(readings);
      var handed := SharesHandedOut(engine, readings, engine.SharedPerRoom(publicKwh, count));
      && (count > 0 ==> publicKwh - count as real * 0.005 <= handed <= publicKwh + count as real * 0.005)
      && (count == 0 || publicKwh == 0.0 ==> handed == 0.0)
  {
    var count := engine.SharingCount(readings);
    var share := engine.SharedPerRoom(publicKwh, count);
    SharesHandedOutCount(engine, readings, share);
    if count > 0 {
      TimesBound(publicKwh, count, share);
    }
  }

  /** `n` copies of `x` added up. */
  function Times(n: nat, x: real): real {
    if n == 0 then 0.0 else Times(n - 1, x) + x
  }

  /** `n` copies of `x` are `n` times `x`. */
  lemma {:induction false} TimesIsProduct(n: nat, x: real)
    ensures Times(n, x) == n as real * x
  {
    if n > 0 {
      TimesIsProduct(n - 1, x);
      assert (n - 1) as real * x + x == n as real * x;
    }
  }

  /**
   * `count` shares, each within half a hundredth of `p / count`, are within
   * `count` half-hundredths of `p`; when `p` is 0 a share on the cent grid is 0.
   */
  lemma TimesBound(p: real, count: nat, share: real)
    requires count > 0
    requires p / count as real - 0.005 <= share <= p / count as real + 0.005
    requires OnCents(share) && share >= 0.0
    ensures p - count as real * 0.005 <= Times(count, share) <= p + count as real * 0.005
    ensures p == 0.0 ==> Times(count, share) == 0.0
  {
    TimesIsProduct(count, share);
    CountTimesShare(p, count, share);
    if p == 0.0 {
      assert p / count as real == 0.0;
      NoCentBelowHalf(share);
    }
  }

  /**
   * The arithmetic of the kWh budget: lines within `n` half-hundredths of the
   * readings plus the shares handed out, the shares within `count`
   * half-hundredths of the public kWh, and the public kWh within half a
   * hundredth of what the readings leave of the bill.
   */
  lemma ShareArithmetic(kwh: real, read: real, n: nat, count: nat, publicKwh: real, handed: real, sum: real, exact: bool)
    requires && read + handed - n as real * 0.005 <= sum <= read + handed + n as real * 0.005
             && (exact ==> sum == read + handed)
    requires kwh - read < 0.0 ==> publicKwh == 0.0
    requires kwh - read >= 0.0 ==> kwh - read - 0.005 <= publicKwh <= kwh - read + 0.005
    requires count > 0 ==> publicKwh - count as real * 0.005 <= handed <= publicKwh + count as real * 0.005
    requires count == 0 || publicKwh == 0.0 ==> handed == 0.0
    ensures WithinBudget(kwh, read, n, count, sum, exact)
  {
  }

  /** The only whole number of hundredths from 0 to half a hundredth is 0. */
  lemma NoCentBelowHalf(x: real)
    requires OnCents(x) && 0.0 <= x <= 0.005
    ensures x == 0.0
  {
    var k := (x * 100.0).Floor;
    assert 0.0 <= k as real <= 0.5;
  }

  /** A share within half a hundredth of `p / count`, taken `count` times, is within `count` half-hundredths of `p`. */
  lemma CountTimesShare(p: real, count: nat, share: real)
    requires count > 0
    requires p / count as real - 0.005 <= share <= p / count as real + 0.005
    ensures p - count as real * 0.005 <= count as real * share <= p + count as real * 0.005
  {
    var c := count as real;
    assert c * (p / c) == p;
    assert c * share - p == c * (share - p / c);
    MulBound(c, share - p / c, 0.005);
  }

  lemma MulBound(c: real, d: real, e: real)
    requires c > 0.0 && -e <= d <= e
    ensures -(c * e) <= c * d <= c * e
  {
  }

  /** The public kWh handed out with the lines: one share per reading of a sharing room. */
  function SharesHandedOut(engine: ElectricityCalculator, readings: seq<Reading>, share: real): real {
    if readings == [] then 0.0
    else
      var last := readings[|readings| - 1];
      SharesHandedOut(engine, readings[..|readings| - 1], share) + (if engine.IsSharing(last.room) then share else 0.0)
  }

  /** The shares handed out are the sharing count's worth of shares. */
  lemma {:induction false} SharesHandedOutCount(engine: ElectricityCalculator, readings: seq<Reading>, share: real)
    ensures SharesHandedOut(engine, readings, share) == Times(engine.SharingCount(readings), share)
  {
    if readings != [] {
      SharesHandedOutCount(engine, readings[..|readings| - 1], share);
    }
  }

  /** The per-reading lines carry the readings plus the shares, up to one rounding per line. */
  lemma {:induction false} ChargesKwh(engine: ElectricityCalculator, readings: seq<Reading>, price: real, share: real)
    requires OnCents(share)
    ensures var exact := ReadingsSum(readings) + SharesHandedOut(engine, readings, share);
      var sum := KwhSum(engine.Charges(readings, price, share));
      && exact - |readings| as real * 0.005 <= sum <= exact + |readings| as real * 0.005
      && (ReadingsOnCents(readings) ==> sum == exact)
  {
    if readings != [] {
      var n := |readings| - 1;
      var init, last := readings[..n], readings[n];
      var front := engine.Charges(init, price, share);
      var c := engine.RoomCharge(last.room, last.kwh, price, share);
      ChargesKwh(engine, init, price, share);
      ChargesSnoc(engine, readings, price, share);
      KwhSumAppend(front, c);
      LineKwh(engine, last, price, share);
      if ReadingsOnCents(readings) {
        InitOnCents(readings);
      }
    }
  }

  /** The lines of all readings are the lines of all but the last, then the last one's line. */
  lemma ChargesSnoc(engine: ElectricityCalculator, readings: seq<Reading>, price: real, share: real)
    requires readings != []
    ensures var n := |readings| - 1;
      engine.Charges(readings, price, share)
        == engine.Charges(readings[..n], price, share) + [engine.RoomCharge(readings[n].room, readings[n].kwh, price, share)]
  {
    var n := |readings| - 1;
    var front := engine.Charges(readings[..n], price, share);
    forall i | 0 <= i < n ensures engine.Charges(readings, price, share)[i] == front[i] {
      assert readings[..n][i] == readings[i];
    }
  }

  /** A line's total kWh is its reading plus its share, to the cent, and exactly that for a reading on the cent grid. */
  lemma LineKwh(engine: ElectricityCalculator, r: Reading, price: real, share: real)
    requires OnCents(share)
    ensures var c := engine.RoomCharge(r.room, r.kwh, price, share);
      var exact := r.kwh + (if engine.IsSharing(r.room) then share else 0.0);
      && exact - 0.005 <= c.totalKwh <= exact + 0.005
      && (OnCents(r.kwh) ==> c.totalKwh == exact)
  {
    var exact := r.kwh + (if engine.IsSharing(r.room) then share else 0.0);
    if OnCents(r.kwh) {
      assert OnCents(0.0);
      OnCentsAdd(r.kwh, if engine.IsSharing(r.room) then share else 0.0);
      Round2OnCents(exact);
    }
  }

  /** Readings on the cent grid stay on it without their last one. */
  lemma InitOnCents(readings: seq<Reading>)
    requires readings != [] && ReadingsOnCents(readings)
    ensures ReadingsOnCents(readings[..|readings| - 1])
  {
    var init := readings[..|readings| - 1];
    forall i | 0 <= i < |init| ensures OnCents(init[i].kwh) {
      assert init[i] == readings[i];
    }
  }

  /** Appending a line adds its kWh to the sum. */
  lemma {:induction false} KwhSumAppend(cs: seq<ChargeRow>, c: ChargeRow)
    ensures KwhSum(cs + [c]) == KwhSum(cs) + c.totalKwh
  {
    if cs != [] {
      assert (cs + [c])[1..] == cs[1..] + [c];
      KwhSumAppend(cs[1..], c);
    }
  }

  /** Taking one line out of a list takes its kWh out of the sum. */
  lemma {:induction false} KwhSumRemove(cs: seq<ChargeRow>, j: nat)
    requires j < |cs|
    ensures KwhSum(cs) == cs[j].totalKwh + KwhSum(cs[..j] + cs[j + 1..])
  {
    if j > 0 {
      KwhSumRemove(cs[1..], j - 1);
      assert cs[1..][..j - 1] + cs[1..][j..] == (cs[..j] + cs[j + 1..])[1..];
    } else {
      assert cs[..0] + cs[1..] == cs[1..];
    }
  }

  /** Rearranging lines does not change their kWh sum. */
  lemma {:induction false} KwhSumPermutation(xs: seq<ChargeRow>, ys: seq<ChargeRow>)
    requires multiset(xs) == multiset(ys)
    ensures KwhSum(xs) == KwhSum(ys)
    decreases |xs|
  {
    if xs == [] {
      assert |ys| == |multiset(ys)| == 0;
    } else {
      assert xs[0] in multiset(ys);
      var j :| 0 <= j < |ys| && ys[j] == xs[0];
      var rest := ys[..j] + ys[j + 1..];
      RemoveOne(xs, ys, j);
      KwhSumPermutation(xs[1..], rest);
      KwhSumRemove(ys, j);
    }
  }

  /** Taking the same line off two arrangements of the same lines leaves two arrangements of the rest. */
  lemma RemoveOne(xs: seq<ChargeRow>, ys: seq<ChargeRow>, j: nat)
    requires multiset(xs) == multiset(ys) && xs != [] && j < |ys| && ys[j] == xs[0]
    ensures multiset(xs[1..]) == multiset(ys[..j] + ys[j + 1..])
  {
    assert xs == [xs[0]] + xs[1..];
    assert ys == ys[..j] + [ys[j]] + ys[j + 1..];
    calc {
      multiset(xs[1..]) + multiset{xs[0]};
      multiset(xs);
      multiset(ys);
      multiset(ys[..j] + ys[j + 1..]) + multiset{ys[j]};
    }
    var a, b := multiset(xs[1..]), multiset(ys[..j] + ys[j + 1..]);
    forall e ensures a[e] == b[e] {
      assert (a + multiset{xs[0]})[e] == (b + multiset{xs[0]})[e];
    }
  }


  /**
   * A bill of 10000 for 1000 kWh, with one exclusive room reading 100 and two
   * sharing rooms reading 200 and 300: 400 kWh of common area, 200 to each
   * sharing room, and charges of 1000, 4000 and 5000 that add up to the bill.
   */
  lemma EndToEndScenario(engine: ElectricityCalculator)
    requires engine.sharingRooms == RoomConfig.SharingRooms
    ensures engine.Allocate(10000.0, 1000.0,
      [Reading("1A", 100.0), Reading("2A", 200.0), Reading("2B", 300.0)])
      == Ok(Allocation(10.0, 400.0, 200.0, 2,
              [ChargeRow("1A", 100.0, 0.0, 100.0, 1000, false),
               ChargeRow("2A", 200.0, 200.0, 400.0, 4000, true),
               ChargeRow("2B", 300.0, 200.0, 500.0, 5000, true)],
              10000, 10000.0, 0.0))
  {
    var readings := [Reading("1A", 100.0), Reading("2A", 200.0), Reading("2B", 300.0)];
    assert readings[..2] == [Reading("1A", 100.0), Reading("2A", 200.0)];
    assert readings[..2][..1] == [Reading("1A", 100.0)];
    assert ReadingsSum([Reading("1A", 100.0)]) == 100.0 by {
      assert [Reading("1A", 100.0)][..0] == [];
    }
    assert ReadingsSum(readings) == 600.0;
    Round2OnCents(10.0);
    Round2OnCents(400.0);
    Round2OnCents(200.0);
    assert engine.SharingCount(readings) == 2;
    EndToEndLines(engine);
  }

  lemma EndToEndLines(engine: ElectricityCalculator)
    requires engine.sharingRooms == RoomConfig.SharingRooms
    ensures var lines := engine.Charges([Reading("1A", 100.0), Reading("2A", 200.0), Reading("2B", 300.0)], 10.0, 200.0);
      && lines == [ChargeRow("1A", 100.0, 0.0, 100.0, 1000, false),
                   ChargeRow("2A", 200.0, 200.0, 400.0, 4000, true),
                   ChargeRow("2B", 300.0, 200.0, 500.0, 5000, true)]
      && SortByRoom(lines) == lines
      && ChargeSum(lines) == 10000
  {
    var readings := [Reading("1A", 100.0), Reading("2A", 200.0), Reading("2B", 300.0)];
    var lines := engine.Charges(readings, 10.0, 200.0);
    assert |lines| == 3;
    assert lines[0] == engine.RoomCharge("1A", 100.0, 10.0, 200.0);
    assert lines[1] == engine.RoomCharge("2A", 200.0, 10.0, 200.0);
    assert lines[2] == engine.RoomCharge("2B", 300.0, 10.0, 200.0);
    assert lines == [lines[0], lines[1], lines[2]];
    EndToEndRows(engine);
    EndToEndSorted();
  }

  lemma EndToEndSorted()
    ensures var lines := [ChargeRow("1A", 100.0, 0.0, 100.0, 1000, false),
                          ChargeRow("2A", 200.0, 200.0, 400.0, 4000, true),
                          ChargeRow("2B", 300.0, 200.0, 500.0, 5000, true)];
      SortByRoom(lines) == lines && ChargeSum(lines) == 10000
  {
    var lines := [ChargeRow("1A", 100.0, 0.0, 100.0, 1000, false),
                  ChargeRow("2A", 200.0, 200.0, 400.0, 4000, true),
                  ChargeRow("2B", 300.0, 200.0, 500.0, 5000, true)];
    assert LexLess(lines[0].room, lines[1].room) && LexLess(lines[1].room, lines[2].room);
    SortKeepsSorted(lines);
    assert lines[1..][1..][1..] == [];
  }

  lemma EndToEndRows(engine: ElectricityCalculator)
    requires engine.sharingRooms == RoomConfig.SharingRooms
    ensures engine.RoomCharge("1A", 100.0, 10.0, 200.0) == ChargeRow("1A", 100.0, 0.0, 100.0, 1000, false)
    ensures engine.RoomCharge("2A", 200.0, 10.0, 200.0) == ChargeRow("2A", 200.0, 200.0, 400.0, 4000, true)
    ensures engine.RoomCharge("2B", 300.0, 10.0, 200.0) == ChargeRow("2B", 300.0, 200.0, 500.0, 5000, true)
  {
    Round2OnCents(200.0);
    Round2OnCents(100.0);
    Round2OnCents(300.0);
    Round2OnCents(400.0);
    Round2OnCents(500.0);
    Round2OnCents(0.0);
    Round0OfInt(1000);
    Round0OfInt(4000);
    Round0OfInt(5000);
    assert ChargeFor(100.0, 10.0) == 1000;
    assert ChargeFor(400.0, 10.0) == 4000;
    assert ChargeFor(500.0, 10.0) == 5000;
    assert "1A" !in engine.sharingRooms && "2A" in engine.sharingRooms && "2B" in engine.sharingRooms;
  }

  /**
   * A bill of 1000 for 300 kWh gives a price of 3.33; two sharing rooms
   * reading 100.33 and 99.67 each take 50 kWh of common area, totals of
   * 150.33 and 149.67 are charged 501 and 498, and the 1 short of the bill is
   * reported as a difference of -1.
   */
  lemma RoundingDifferenceScenario(engine: ElectricityCalculator)
    requires engine.sharingRooms == RoomConfig.SharingRooms
    ensures engine.Allocate(1000.0, 300.0, [Reading("2A", 100.33), Reading("2B", 99.67)])
      == Ok(Allocation(3.33, 100.0, 50.0, 2,
              [ChargeRow("2A", 100.33, 50.0, 150.33, 501, true),
               ChargeRow("2B", 99.67, 50.0, 149.67, 498, true)],
              999, 1000.0, -1.0))
  {
    var readings := [Reading("2A", 100.33), Reading("2B", 99.67)];
    assert readings[..1] == [Reading("2A", 100.33)];
    assert ReadingsSum(readings) == 200.0;
    assert Round2(1000.0 / 300.0) == 3.33;
    Round2OnCents(100.0);
    Round2OnCents(50.0);
    Round2OnCents(-1.0);
    assert engine.SharingCount(readings) == 2;
    RoundingDifferenceLines(engine);
  }

  lemma RoundingDifferenceLines(engine: ElectricityCalculator)
    requires engine.sharingRooms == RoomConfig.SharingRooms
    ensures var lines := engine.Charges([Reading("2A", 100.33), Reading("2B", 99.67)], 3.33, 50.0);
      && lines == [ChargeRow("2A", 100.33, 50.0, 150.33, 501, true),
                   ChargeRow("2B", 99.67, 50.0, 149.67, 498, true)]
      && SortByRoom(lines) == lines
      && ChargeSum(lines) == 999
  {
    RoundingDifferenceRows(engine);
    RoundingDifferenceSorted();
  }

  lemma RoundingDifferenceSorted()
    ensures var lines := [ChargeRow("2A", 100.33, 50.0, 150.33, 501, true),
                          ChargeRow("2B", 99.67, 50.0, 149.67, 498, true)];
      SortByRoom(lines) == lines && ChargeSum(lines) == 999
  {
    var lines := [ChargeRow("2A", 100.33, 50.0, 150.33, 501, true),
                  ChargeRow("2B", 99.67, 50.0, 149.67, 498, true)];
    assert LexLess(lines[0].room, lines[1].room);
    SortKeepsSorted(lines);
    assert lines[1..][1..] == [];
  }

  lemma RoundingDifferenceRows(engine: ElectricityCalculator)
    requires engine.sharingRooms == RoomConfig.SharingRooms
    ensures engine.RoomCharge("2A", 100.33, 3.33, 50.0) == ChargeRow("2A", 100.33, 50.0, 150.33, 501, true)
    ensures engine.RoomCharge("2B", 99.67, 3.33, 50.0) == ChargeRow("2B", 99.67, 50.0, 149.67, 498, true)
  {
    Round2OnCents(50.0);
    Round2OnCents(100.33);
    Round2OnCents(99.67);
    Round2OnCents(150.33);
    Round2OnCents(149.67);
    assert ChargeFor(150.33, 3.33) == 501;
    assert ChargeFor(149.67, 3.33) == 498;
    assert "2A" in engine.sharingRooms && "2B" in engine.sharingRooms;
  }
}
