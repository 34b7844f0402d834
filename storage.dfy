/**
 * The electricity store: billing periods, the utility's bills per floor
 * label, meter readings per room, and the saved allocation of each period.
 *
 * Each table is a map keyed by the table's UNIQUE key; the foreign key from
 * every other table to the periods is an invariant, and a write that would
 * break it fails and leaves every table as it was (the transaction is rolled
 * back). A period id is the next value of the table's serial counter.
 */
module Storage {
  import opened Wrappers
  import opened Calculator
  import opened Rounding

  datatype Period = Period(year: int, monthStart: int, monthEnd: int)

  datatype Bill = Bill(amount: real, kwh: real)

  /** A row of the bills query: one floor label and its bill. */
  datatype BillRow = BillRow(floor: string, amount: real, kwh: real)

  /** A reading and the day it was taken. */
  datatype MeterReading = MeterReading(value: real, readingDate: int)

  /** The period summary row of a saved allocation. */
  datatype Summary = Summary(
    unitPrice: real,
    publicKwh: real,
    sharedKwhPerRoom: real,
    totalCharge: int,
    taipowerAmount: real,
    difference: real)

  function SummaryOf(a: Allocation): (s: Summary)
    ensures s.unitPrice == a.unitPrice && s.publicKwh == a.publicKwh
    ensures s.sharedKwhPerRoom == a.sharedKwhPerRoom && s.totalCharge == a.totalCharge
    ensures s.taipowerAmount == a.taipowerAmount && s.difference == a.difference
  {
    Summary(a.unitPrice, a.publicKwh, a.sharedKwhPerRoom, a.totalCharge, a.taipowerAmount, a.difference)
  }

  /** The charge rows of one period, keyed by (period, room). */
  function ChargeTable(periodId: int, rows: seq<ChargeRow>): map<(int, string), ChargeRow> {
    if rows == [] then map[]
    else ChargeTable(periodId, rows[..|rows| - 1])[(periodId, rows[|rows| - 1].room) := rows[|rows| - 1]]
  }

  /** A table with the rows of one period deleted. */
  function WithoutPeriod<V>(table: map<(int, string), V>, periodId: int): (r: map<(int, string), V>)
    ensures forall k :: k in r <==> k in table && k.0 != periodId
    ensures forall k :: k in r ==> r[k] == table[k]
  {
    map k | k in table && k.0 != periodId :: table[k]
  }

  /**
   * With distinct rooms the period's table holds exactly one row per line,
   * keyed by the line's room, and nothing for any other period.
   */
  lemma {:induction false} ChargeTableHoldsRows(periodId: int, rows: seq<ChargeRow>)
    requires DistinctChargeRooms(rows)
    ensures forall k :: k in ChargeTable(periodId, rows) <==>
      k.0 == periodId && exists i :: 0 <= i < |rows| && rows[i].room == k.1
    ensures forall i :: 0 <= i < |rows| ==>
      (periodId, rows[i].room) in ChargeTable(periodId, rows) && ChargeTable(periodId, rows)[(periodId, rows[i].room)] == rows[i]
  {
    if rows != [] {
      var init := rows[..|rows| - 1];
      var last := rows[|rows| - 1];
      ChargeTableHoldsRows(periodId, init);
      forall k
        ensures k in ChargeTable(periodId, rows) <==>
          k.0 == periodId && exists i :: 0 <= i < |rows| && rows[i].room == k.1
      {
        if k in ChargeTable(periodId, init) {
          var i :| 0 <= i < |init| && init[i].room == k.1;
          assert rows[i] == init[i];
        }
        if k.0 == periodId && exists i :: 0 <= i < |rows| && rows[i].room == k.1 {
          var i :| 0 <= i < |rows| && rows[i].room == k.1;
          if i < |init| {
            assert init[i] == rows[i];
          }
        }
      }
      forall i | 0 <= i < |rows|
        ensures (periodId, rows[i].room) in ChargeTable(periodId, rows)
        ensures ChargeTable(periodId, rows)[(periodId, rows[i].room)] == rows[i]
      {
        if i < |init| {
          assert init[i] == rows[i];
          assert rows[i].room != last.room;
        }
      }
    }
  }

  /** Updating a union updates its right operand. */
  lemma UpdateRightOperand<K, V>(a: map<K, V>, b: map<K, V>, k: K, v: V)
    ensures (a + b)[k := v] == a + b[k := v]
  {
  }

  /** Bill rows in strictly increasing order of floor label. */
  predicate SortedByFloor(rows: seq<BillRow>) {
    forall i :: 0 < i < |rows| ==> LexLess(rows[i - 1].floor, rows[i].floor)
  }

  /** Put one bill row into rows sorted by floor label, keeping them sorted. */
  function InsertByFloor(row: BillRow, rows: seq<BillRow>): (r: seq<BillRow>)
    requires SortedByFloor(rows)
    requires forall i :: 0 <= i < |rows| ==> rows[i].floor != row.floor
    ensures |r| == |rows| + 1 && SortedByFloor(r)
    ensures r[0] == row || (|rows| > 0 && r[0] == rows[0])
    ensures forall x :: x in r <==> x == row || x in rows
  {
    if rows == [] || LexLess(row.floor, rows[0].floor) then [row] + rows
    else
      LexLessTotal(row.floor, rows[0].floor);
      [rows[0]] + InsertByFloor(row, rows[1..])
  }

  /**
   * One step of the replacement: a line whose room is new to the lines before
   * it keeps the rooms distinct and adds its own entry to the table.
   */
  lemma AppendRow(table: map<(int, string), ChargeRow>, periodId: int, rows: seq<ChargeRow>, i: nat)
    requires i < |rows| && DistinctChargeRooms(rows[..i])
    requires forall j :: 0 <= j < i ==> rows[j].room != rows[i].room
    ensures DistinctChargeRooms(rows[..i + 1])
    ensures WithoutPeriod(table, periodId) + ChargeTable(periodId, rows[..i + 1])
      == (WithoutPeriod(table, periodId) + ChargeTable(periodId, rows[..i]))[(periodId, rows[i].room) := rows[i]]
  {
    var prefix := rows[..i];
    assert rows[..i + 1] == prefix + [rows[i]];
    assert (prefix + [rows[i]])[..i] == prefix;
    assert ChargeTable(periodId, rows[..i + 1]) == ChargeTable(periodId, prefix)[(periodId, rows[i].room) := rows[i]];
    UpdateRightOperand(WithoutPeriod(table, periodId), ChargeTable(periodId, prefix), (periodId, rows[i].room), rows[i]);
  }

  /**
   * Deletes a period's rows from a charge table and inserts one row per line,
   * in order; a line whose room is already in the period fails, as the
   * (period, room) key refuses it.
   */
  method ReplaceRows(table: map<(int, string), ChargeRow>, periodId: int, rows: seq<ChargeRow>)
    returns (ok: bool, replaced: map<(int, string), ChargeRow>)
    ensures ok <==> DistinctChargeRooms(rows)
    ensures ok ==> replaced == WithoutPeriod(table, periodId) + ChargeTable(periodId, rows)
  {
    replaced := WithoutPeriod(table, periodId);
    var i := 0;
    while i < |rows|
      invariant 0 <= i <= |rows|
      invariant DistinctChargeRooms(rows[..i])
      invariant replaced == WithoutPeriod(table, periodId) + ChargeTable(periodId, rows[..i])
    {
      var prefix := rows[..i];
      ChargeTableHoldsRows(periodId, prefix);
      var key := (periodId, rows[i].room);
      if key in replaced {
        assert key !in WithoutPeriod(table, periodId);
        assert key in ChargeTable(periodId, prefix);
        var j :| 0 <= j < i && prefix[j].room == rows[i].room;
        assert rows[j] == prefix[j];
        assert !DistinctChargeRooms(rows) by {
          assert j < i && rows[j].room == rows[i].room;
        }
        return false, replaced;
      }
      forall j | 0 <= j < i
        ensures rows[j].room != rows[i].room
      {
        assert prefix[j] == rows[j];
        assert (periodId, prefix[j].room) in replaced;
      }
      AppendRow(table, periodId, rows, i);
      replaced := replaced[(periodId, rows[i].room) := rows[i]];
      i := i + 1;
    }
    assert rows[..|rows|] == rows;
    ok := true;
  }

  /** The rows of one period in a table. */
  function PeriodRows<V>(table: map<(int, string), V>, periodId: int): (r: map<(int, string), V>)
    ensures forall k :: k in r <==> k in table && k.0 == periodId
    ensures forall k :: k in r ==> r[k] == table[k]
  {
    map k | k in table && k.0 == periodId :: table[k]
  }

  /** The sum of the charges of a table's rows, `SUM(charge_amount)`. */
  ghost function TableChargeSum(table: map<(int, string), ChargeRow>): int
    decreases |table|
  {
    if table == map[] then 0
    else
      var k :| k in table;
      table[k].charge + TableChargeSum(table - {k})
  }

  /** The table sum does not depend on the row taken out first. */
  lemma {:induction false} TableChargeSumRemove(table: map<(int, string), ChargeRow>, k: (int, string))
    requires k in table
    ensures TableChargeSum(table) == table[k].charge + TableChargeSum(table - {k})
    decreases |table|
  {
    var j :| j in table && TableChargeSum(table) == table[j].charge + TableChargeSum(table - {j});
    if j != k {
      TableChargeSumRemove(table - {j}, k);
      TableChargeSumRemove(table - {k}, j);
      assert table - {j} - {k} == table - {k} - {j};
    }
  }

  /** The charge of one more line at the end adds to the sum of the lines. */
  lemma {:induction false} ChargeSumAppend(rows: seq<ChargeRow>, last: ChargeRow)
    ensures ChargeSum(rows + [last]) == ChargeSum(rows) + last.charge
  {
    if rows != [] {
      ChargeSumAppend(rows[1..], last);
      assert (rows + [last])[1..] == rows[1..] + [last];
    }
  }

  /** With distinct rooms the period's table adds up to the sum of its lines. */
  lemma {:induction false} ChargeTableSum(periodId: int, rows: seq<ChargeRow>)
    requires DistinctChargeRooms(rows)
    ensures TableChargeSum(ChargeTable(periodId, rows)) == ChargeSum(rows)
  {
    if rows == [] {
      assert ChargeTable(periodId, rows) == map[];
    } else {
      var init := rows[..|rows| - 1];
      var last := rows[|rows| - 1];
      var key := (periodId, last.room);
      ChargeTableSum(periodId, init);
      LastKeyIsNew(periodId, rows);
      TableChargeSumRemove(ChargeTable(periodId, rows), key);
      RemoveJustAdded(ChargeTable(periodId, init), key, last);
      ChargeSumAppend(init, last);
      assert init + [last] == rows;
    }
  }

  /** With distinct rooms the last line's key is not in the table of the lines before it. */
  lemma LastKeyIsNew(periodId: int, rows: seq<ChargeRow>)
    requires DistinctChargeRooms(rows) && rows != []
    ensures (periodId, rows[|rows| - 1].room) !in ChargeTable(periodId, rows[..|rows| - 1])
  {
    var init := rows[..|rows| - 1];
    ChargeTableHoldsRows(periodId, init);
    forall i | 0 <= i < |init|
      ensures init[i].room != rows[|rows| - 1].room
    {
      assert init[i] == rows[i];
    }
  }

  /** Taking out a key just added gives back the table it was added to. */
  lemma RemoveJustAdded(table: map<(int, string), ChargeRow>, key: (int, string), v: ChargeRow)
    requires key !in table
    ensures table[key := v] - {key} == table
  {
  }

  /**
   * After the replacement of a period's lines, the period's rows are exactly
   * the new lines and add up to their sum.
   */
  lemma ReplacedRowsSum(charges: map<(int, string), ChargeRow>, periodId: int, rows: seq<ChargeRow>)
    requires DistinctChargeRooms(rows)
    ensures PeriodRows(WithoutPeriod(charges, periodId) + ChargeTable(periodId, rows), periodId)
      == ChargeTable(periodId, rows)
    ensures TableChargeSum(PeriodRows(WithoutPeriod(charges, periodId) + ChargeTable(periodId, rows), periodId))
      == ChargeSum(rows)
  {
    ChargeTableHoldsRows(periodId, rows);
    ChargeTableSum(periodId, rows);
    var stored := WithoutPeriod(charges, periodId) + ChargeTable(periodId, rows);
    assert PeriodRows(stored, periodId) == ChargeTable(periodId, rows);
  }

  /**
   * The summary of an allocation whose total is the sum of its sorted lines
   * agrees with the charge table written beside it: its total is the sum of
   * the period's stored charges and its difference that sum less the bill,
   * to the cent.
   */
  lemma SummaryMatchesStoredLines(a: Allocation, charges: map<(int, string), ChargeRow>, periodId: int)
    requires SortedByRoom(a.roomCharges) && a.totalCharge == ChargeSum(a.roomCharges)
    requires a.difference == Round2(a.totalCharge as real - a.taipowerAmount)
    ensures var stored := WithoutPeriod(charges, periodId) + ChargeTable(periodId, a.roomCharges);
      && DistinctChargeRooms(a.roomCharges)
      && SummaryOf(a).totalCharge == TableChargeSum(PeriodRows(stored, periodId))
      && SummaryOf(a).difference == Round2(TableChargeSum(PeriodRows(stored, periodId)) as real - a.taipowerAmount)
  {
    SortedDistinct(a.roomCharges);
    ReplacedRowsSum(charges, periodId, a.roomCharges);
  }

  /**
   * The summary `SaveChargeResults` writes for a calculated allocation agrees
   * with the charge lines it writes beside it: `stored` is the charge table it
   * leaves when it succeeds, and the summary's total is the sum of the
   * period's stored charges, its bill amount the bill, and its difference that
   * sum less the bill, to the cent.
   */
  lemma SavedSummaryMatchesLines(engine: ElectricityCalculator, amount: real, kwh: real, readings: seq<Reading>,
                                 charges: map<(int, string), ChargeRow>, periodId: int)
    requires DistinctRooms(readings) && kwh > 0.0
    ensures var a := engine.Allocate(amount, kwh, readings).value;
      var stored := WithoutPeriod(charges, periodId) + ChargeTable(periodId, a.roomCharges);
      && DistinctChargeRooms(a.roomCharges)
      && SummaryOf(a).totalCharge == TableChargeSum(PeriodRows(stored, periodId))
      && SummaryOf(a).taipowerAmount == amount
      && SummaryOf(a).difference == Round2(TableChargeSum(PeriodRows(stored, periodId)) as real - amount)
  {
    var a := engine.Allocate(amount, kwh, readings).value;
    AllocationLines(engine, amount, kwh, readings);
    AllocationBill(engine, amount, kwh, readings);
    SummaryMatchesStoredLines(a, charges, periodId);
  }

  /**
   * The rows list, sorted by floor label, exactly the period's bills whose
   * keys are in `done`.
   */
  predicate BillsListed(bills: map<(int, string), Bill>, periodId: int, rows: seq<BillRow>, done: set<(int, string)>) {
    && SortedByFloor(rows)
    && (forall i :: 0 <= i < |rows| ==>
          && (periodId, rows[i].floor) in done && (periodId, rows[i].floor) in bills
          && bills[(periodId, rows[i].floor)] == Bill(rows[i].amount, rows[i].kwh))
    && (forall k :: k in done ==> exists i :: 0 <= i < |rows| && rows[i].floor == k.1)
  }

  /** Listing one more of the period's bills keeps the rows exactly the bills listed so far. */
  lemma ListBillStep(bills: map<(int, string), Bill>, periodId: int, rows: seq<BillRow>, done: set<(int, string)>,
                     k: (int, string))
    requires BillsListed(bills, periodId, rows, done)
    requires k in bills && k.0 == periodId && k !in done
    ensures forall i :: 0 <= i < |rows| ==> rows[i].floor != k.1
    ensures BillsListed(bills, periodId, InsertByFloor(BillRow(k.1, bills[k].amount, bills[k].kwh), rows), done + {k})
  {
    forall i | 0 <= i < |rows|
      ensures rows[i].floor != k.1
    {
      assert (periodId, rows[i].floor) in done;
    }
    var row := BillRow(k.1, bills[k].amount, bills[k].kwh);
    var next := ListedFloorsCovered(rows, row, done, k);
    ListedRowsBilled(bills, periodId, rows, row, done, k);
    assert SortedByFloor(next);
  }

  /** After the insertion every listed key, and the new one, has a row. */
  lemma ListedFloorsCovered(rows: seq<BillRow>, row: BillRow, done: set<(int, string)>, k: (int, string))
    returns (next: seq<BillRow>)
    requires SortedByFloor(rows) && (forall i :: 0 <= i < |rows| ==> rows[i].floor != row.floor)
    requires row.floor == k.1
    requires forall x :: x in done ==> exists i :: 0 <= i < |rows| && rows[i].floor == x.1
    ensures next == InsertByFloor(row, rows)
    ensures forall x :: x in done + {k} ==> exists i :: 0 <= i < |next| && next[i].floor == x.1
  {
    next := InsertByFloor(row, rows);
    forall x | x in done + {k}
      ensures exists i :: 0 <= i < |next| && next[i].floor == x.1
    {
      if x == k {
        assert row in next;
        var i :| 0 <= i < |next| && next[i] == row;
        assert next[i].floor == x.1;
      } else {
        var j :| 0 <= j < |rows| && rows[j].floor == x.1;
        assert rows[j] in next;
        var i :| 0 <= i < |next| && next[i] == rows[j];
        assert next[i].floor == x.1;
      }
    }
  }

  /** After the insertion every row is one of the period's bills listed so far, or the new one. */
  lemma ListedRowsBilled(bills: map<(int, string), Bill>, periodId: int, rows: seq<BillRow>, row: BillRow,
                         done: set<(int, string)>, k: (int, string))
    requires SortedByFloor(rows) && (forall i :: 0 <= i < |rows| ==> rows[i].floor != row.floor)
    requires k in bills && k.0 == periodId && row == BillRow(k.1, bills[k].amount, bills[k].kwh)
    requires forall i :: 0 <= i < |rows| ==>
      && (periodId, rows[i].floor) in done && (periodId, rows[i].floor) in bills
      && bills[(periodId, rows[i].floor)] == Bill(rows[i].amount, rows[i].kwh)
    ensures var next := InsertByFloor(row, rows);
      forall i :: 0 <= i < |next| ==>
        && (periodId, next[i].floor) in done + {k} && (periodId, next[i].floor) in bills
        && bills[(periodId, next[i].floor)] == Bill(next[i].amount, next[i].kwh)
  {
    var next := InsertByFloor(row, rows);
    forall i | 0 <= i < |next|
      ensures (periodId, next[i].floor) in done + {k} && (periodId, next[i].floor) in bills
      ensures bills[(periodId, next[i].floor)] == Bill(next[i].amount, next[i].kwh)
    {
      assert next[i] == row || next[i] in rows;
    }
  }

  /** The greatest of the ids below `current`, or none when no id lies below it. */
  method GreatestBelow(ids: set<int>, current: int) returns (latest: Option<int>)
    ensures latest.None? <==> forall id :: id in ids ==> id >= current
    ensures latest.Some? ==>
      latest.value in ids && latest.value < current && forall id :: id in ids && id < current ==> id <= latest.value
  {
    var todo := set id | id in ids && id < current;
    var seen: set<int> := {};
    latest := None;
    while todo != {}
      invariant todo !! seen
      invariant forall id :: id in ids && id < current <==> id in todo || id in seen
      invariant latest.None? <==> seen == {}
      invariant latest.Some? ==> latest.value in seen && forall id :: id in seen ==> id <= latest.value
      decreases |todo|
    {
      var id :| id in todo;
      if latest.None? || id > latest.value {
        latest := Some(id);
      }
      todo := todo - {id};
      seen := seen + {id};
    }
    assert forall id :: id in ids && id < current ==> id in seen;
  }

  class ElectricityStorage {
    var periods: map<int, Period>
    /** The next value of the periods' serial id. */
    var nextId: int
    var bills: map<(int, string), Bill>
    var readings: map<(int, string), MeterReading>
    var charges: map<(int, string), ChargeRow>
    var summaries: map<int, Summary>

    /** The UNIQUE keys and the foreign keys to the periods. */
    ghost predicate Valid()
      reads this
    {
      && nextId >= 1
      && (forall id :: id in periods ==> 1 <= id < nextId)
      && (forall a, b :: a in periods && b in periods && periods[a] == periods[b] ==> a == b)
      && (forall k :: k in bills ==> k.0 in periods)
      && (forall k :: k in readings ==> k.0 in periods)
      && (forall k :: k in charges ==> k.0 in periods)
      && (forall id :: id in summaries ==> id in periods)
    }

    constructor()
      ensures Valid()
      ensures periods == map[] && bills == map[] && readings == map[]
      ensures charges == map[] && summaries == map[] && nextId == 1
    {
      periods := map[];
      nextId := 1;
      bills := map[];
      readings := map[];
      charges := map[];
      summaries := map[];
    }

    /**
     * `create_period`: a period that already exists is reported with its id
     * and nothing is added; otherwise the period is added under a fresh id.
     */
    method CreatePeriod(year: int, monthStart: int, monthEnd: int) returns (created: bool, id: int)
      requires Valid()
      modifies this
      ensures Valid()
      ensures created <==> forall k :: k in old(periods) ==> old(periods)[k] != Period(year, monthStart, monthEnd)
      ensures !created ==>
        id in periods && periods[id] == Period(year, monthStart, monthEnd) && periods == old(periods) && nextId == old(nextId)
      ensures created ==>
        id !in old(periods) && periods == old(periods)[id := Period(year, monthStart, monthEnd)] && nextId == old(nextId) + 1
      ensures bills == old(bills) && readings == old(readings)
      ensures charges == old(charges) && summaries == old(summaries)
    {
      var p := Period(year, monthStart, monthEnd);
      if existing :| existing in periods && periods[existing] == p {
        return false, existing;
      }
      id := nextId;
      periods := periods[id := p];
      nextId := nextId + 1;
      created := true;
    }

    /**
     * `save_taipower_bill`: an upsert on (period, floor label). It fails,
     * changing nothing, when the period does not exist.
     */
    method SaveTaipowerBill(periodId: int, floor: string, amount: real, kwh: real) returns (ok: bool)
      requires Valid()
      modifies this
      ensures Valid()
      ensures ok <==> periodId in periods
      ensures ok ==> bills == old(bills)[(periodId, floor) := Bill(amount, kwh)]
      ensures !ok ==> bills == old(bills)
      ensures periods == old(periods) && nextId == old(nextId) && readings == old(readings)
      ensures charges == old(charges) && summaries == old(summaries)
    {
      if periodId !in periods {
        return false;
      }
      bills := bills[(periodId, floor) := Bill(amount, kwh)];
      ok := true;
    }

    /**
     * `get_taipower_bills`: the period's bills, one row per floor label, in
     * order of floor label.
     */
    method GetTaipowerBills(periodId: int) returns (rows: seq<BillRow>)
      ensures SortedByFloor(rows)
      ensures forall i :: 0 <= i < |rows| ==>
        (periodId, rows[i].floor) in bills && bills[(periodId, rows[i].floor)] == Bill(rows[i].amount, rows[i].kwh)
      ensures forall k :: k in bills && k.0 == periodId ==>
        exists i :: 0 <= i < |rows| && rows[i].floor == k.1
    {
      rows := [];
      var todo := set k | k in bills && k.0 == periodId;
      var done: set<(int, string)> := {};
      while todo != {}
        invariant todo !! done
        invariant forall k :: k in bills && k.0 == periodId <==> k in todo || k in done
        invariant BillsListed(bills, periodId, rows, done)
        decreases |todo|
      {
        var k :| k in todo;
        ListBillStep(bills, periodId, rows, done, k);
        var next := InsertByFloor(BillRow(k.1, bills[k].amount, bills[k].kwh), rows);
        rows := next;
        todo := todo - {k};
        done := done + {k};
      }
    }

    /**
     * `save_meter_reading`: an upsert on (period, room). It fails, changing
     * nothing, when the period does not exist.
     */
    method SaveMeterReading(periodId: int, room: string, value: real, readingDate: int) returns (ok: bool)
      requires Valid()
      modifies this
      ensures Valid()
      ensures ok <==> periodId in periods
      ensures ok ==> readings == old(readings)[(periodId, room) := MeterReading(value, readingDate)]
      ensures !ok ==> readings == old(readings)
      ensures periods == old(periods) && nextId == old(nextId) && bills == old(bills)
      ensures charges == old(charges) && summaries == old(summaries)
    {
      if periodId !in periods {
        return false;
      }
      readings := readings[(periodId, room) := MeterReading(value, readingDate)];
      ok := true;
    }

    /** `get_meter_readings`: the period's readings as a room -> value map. */
    function MeterReadings(periodId: int): (r: map<string, real>)
      reads this
      ensures forall room :: room in r <==> (periodId, room) in readings
      ensures forall room :: room in r ==> r[room] == readings[(periodId, room)].value
    {
      map k | k in readings && k.0 == periodId :: k.1 := readings[k].value
    }

    /** `id` is the greatest period id below `current`. */
    ghost predicate IsLatestBefore(id: int, current: int)
      reads this
    {
      id in periods && id < current && forall other :: other in periods && other < current ==> other <= id
    }

    /**
     * `get_previous_readings`: the readings of the period with the greatest
     * id below the current one (an id order, not a calendar order), or none
     * when there is no such period.
     */
    method GetPreviousReadings(currentPeriodId: int) returns (r: map<string, real>)
      ensures (forall id :: id in periods ==> id >= currentPeriodId) ==> r == map[]
      ensures forall p :: IsLatestBefore(p, currentPeriodId) ==> r == MeterReadings(p)
    {
      var latest := GreatestBelow(periods.Keys, currentPeriodId);
      if latest.None? {
        return map[];
      }
      var found := latest.value;
      assert IsLatestBefore(found, currentPeriodId);
      forall p | IsLatestBefore(p, currentPeriodId)
        ensures p == found
      {
        assert p <= found && found <= p;
      }
      r := MeterReadings(found);
    }

    /**
     * `save_charge_results`: the period's charge rows are replaced by the
     * allocation's lines and its summary row is upserted. A line whose room is
     * repeated breaks the (period, room) key, and a missing period breaks the
     * foreign key; either way nothing is saved.
     */
    method SaveChargeResults(periodId: int, result: Allocation) returns (ok: bool)
      requires Valid()
      modifies this
      ensures Valid()
      ensures ok <==> periodId in periods && DistinctChargeRooms(result.roomCharges)
      ensures ok ==> charges == WithoutPeriod(old(charges), periodId) + ChargeTable(periodId, result.roomCharges)
      ensures ok ==> summaries == old(summaries)[periodId := SummaryOf(result)]
      ensures !ok ==> charges == old(charges) && summaries == old(summaries)
      ensures periods == old(periods) && nextId == old(nextId)
      ensures bills == old(bills) && readings == old(readings)
    {
      var distinct, table := ReplaceRows(charges, periodId, result.roomCharges);
      if !distinct || periodId !in periods {
        return false;
      }
      ChargeTableHoldsRows(periodId, result.roomCharges);
      charges := table;
      summaries := summaries[periodId := SummaryOf(result)];
      ok := true;
    }
  }
}
