/**
 * Rent helpers: the monthly amount a tenant owes, and the batch generator
 * that files one payment schedule per month for a run of consecutive
 * calendar months. The schedule table is keyed by (room, year, month) and
 * refuses a second schedule for the same key.
 */
module Rent {

  /** The water fee deducted from the rent of a tenant who pays their own water. */
  const DefaultWaterFee: real := 100.0

  /** The due date of every schedule is this day of its month. */
  const DueDay: int := 5

  datatype Date = Date(year: int, month: int, day: int)

  datatype YearMonth = YearMonth(year: int, month: int)

  datatype Schedule = Schedule(tenantName: string, amount: real, paymentMethod: string, dueDate: Date)

  /**
   * `calculate_monthly_rent`: the base rent less the water fee when it
   * applies. The payment method is accepted and has no effect.
   */
  function MonthlyRent(baseRent: real, hasWaterFee: bool, paymentMethod: string): (amount: real)
    ensures baseRent - amount == (if hasWaterFee then DefaultWaterFee else 0.0)
  {
    var amount := baseRent;
    if hasWaterFee then amount - DefaultWaterFee else amount
  }

  /** The payment method never changes the amount. */
  lemma PaymentMethodIrrelevant(baseRent: real, hasWaterFee: bool, m1: string, m2: string)
    ensures MonthlyRent(baseRent, hasWaterFee, m1) == MonthlyRent(baseRent, hasWaterFee, m2)
  {
  }

  /** A month's position on a single count of months. */
  function MonthIndex(ym: YearMonth): int {
    ym.year * 12 + (ym.month - 1)
  }

  /**
   * The calendar month `i` months after (`year`, `month`), as the start date
   * plus `relativedelta(months=i)` has it; the day of the month plays no part.
   */
  function MonthAt(year: int, month: int, i: nat): (ym: YearMonth)
    requires 1 <= month <= 12
    ensures 1 <= ym.month <= 12
    ensures MonthIndex(ym) == MonthIndex(YearMonth(year, month)) + i
  {
    var index := year * 12 + (month - 1) + i;
    YearMonth(index / 12, index % 12 + 1)
  }

  /** Month 0 is the start month. */
  lemma MonthAtStart(year: int, month: int)
    requires 1 <= month <= 12
    ensures MonthAt(year, month, 0) == YearMonth(year, month)
  {
  }

  /**
   * Each step goes to the next calendar month: from December to January of
   * the following year, otherwise to the next month of the same year.
   */
  lemma MonthAtStep(year: int, month: int, i: nat)
    requires 1 <= month <= 12
    ensures var ym := MonthAt(year, month, i);
      MonthAt(year, month, i + 1) ==
        if ym.month == 12 then YearMonth(ym.year + 1, 1) else YearMonth(ym.year, ym.month + 1)
  {
    var ym := MonthAt(year, month, i);
    var next := MonthAt(year, month, i + 1);
    assert MonthIndex(next) == MonthIndex(ym) + 1;
  }

  /** Different steps are different calendar months. */
  lemma MonthAtInjective(year: int, month: int, i: nat, j: nat)
    requires 1 <= month <= 12 && i != j
    ensures MonthAt(year, month, i) != MonthAt(year, month, j)
  {
  }

  /** The number of the first `n` months that have no schedule for the room in `rows`. */
  function NewMonths(rows: map<(string, int, int), Schedule>, room: string, year: int, month: int, n: nat): (c: nat)
    requires 1 <= month <= 12
    ensures c <= n
  {
    if n == 0 then 0
    else
      var ym := MonthAt(year, month, n - 1);
      NewMonths(rows, room, year, month, n - 1) + (if (room, ym.year, ym.month) in rows then 0 else 1)
  }

  /** The schedule table, keyed by (room, year, month). */
  class ScheduleBook {
    var rows: map<(string, int, int), Schedule>

    constructor()
      ensures rows == map[]
    {
      rows := map[];
    }

    /** `check_schedule_exists` */
    predicate Exists(room: string, year: int, month: int)
      reads this
    {
      (room, year, month) in rows
    }

    /**
     * `add_payment_schedule`: refuses a second schedule for the same room
     * and month, otherwise files the new one.
     */
    method Add(room: string, tenantName: string, year: int, month: int, amount: real,
               paymentMethod: string, dueDate: Date) returns (ok: bool)
      modifies this
      ensures ok <==> (room, year, month) !in old(rows)
      ensures ok ==> rows == old(rows)[(room, year, month) := Schedule(tenantName, amount, paymentMethod, dueDate)]
      ensures !ok ==> rows == old(rows)
    {
      if (room, year, month) in rows {
        return false;
      }
      rows := rows[(room, year, month) := Schedule(tenantName, amount, paymentMethod, dueDate)];
      ok := true;
    }
  }

  /**
   * The schedule table after the first `n` months of a batch: each month
   * without a schedule for the room gets one due on day 5 of that month.
   */
  function BatchRows(rows: map<(string, int, int), Schedule>, room: string, tenantName: string, amount: real,
                     paymentMethod: string, year: int, month: int, n: nat): map<(string, int, int), Schedule>
    requires 1 <= month <= 12
  {
    if n == 0 then rows
    else
      var before := BatchRows(rows, room, tenantName, amount, paymentMethod, year, month, n - 1);
      var ym := MonthAt(year, month, n - 1);
      if (room, ym.year, ym.month) in before then before
      else before[(room, ym.year, ym.month) := Schedule(tenantName, amount, paymentMethod, Date(ym.year, ym.month, DueDay))]
  }

  /** A month the batch has not reached yet has a schedule only if it had one before. */
  lemma {:induction false} LaterMonthUntouched(rows: map<(string, int, int), Schedule>, room: string, tenantName: string,
                                               amount: real, paymentMethod: string, year: int, month: int, n: nat, m: nat)
    requires 1 <= month <= 12 && n <= m
    ensures var key := (room, MonthAt(year, month, m).year, MonthAt(year, month, m).month);
      key in BatchRows(rows, room, tenantName, amount, paymentMethod, year, month, n) <==> key in rows
  {
    if n > 0 {
      LaterMonthUntouched(rows, room, tenantName, amount, paymentMethod, year, month, n - 1, m);
      MonthAtInjective(year, month, n - 1, m);
    }
  }

  /** A batch keeps every schedule the table held before it. */
  lemma {:induction false} BatchKeepsRows(rows: map<(string, int, int), Schedule>, room: string, tenantName: string,
                                          amount: real, paymentMethod: string, year: int, month: int, n: nat)
    requires 1 <= month <= 12
    ensures var after := BatchRows(rows, room, tenantName, amount, paymentMethod, year, month, n);
      forall key :: key in rows ==> key in after && after[key] == rows[key]
  {
    if n > 0 {
      BatchKeepsRows(rows, room, tenantName, amount, paymentMethod, year, month, n - 1);
    }
  }

  /** A schedule a batch adds is for the room and for one of the batch's months. */
  lemma {:induction false} BatchAddsOnlyMonths(rows: map<(string, int, int), Schedule>, room: string, tenantName: string,
                                               amount: real, paymentMethod: string, year: int, month: int, n: nat)
    requires 1 <= month <= 12
    ensures var after := BatchRows(rows, room, tenantName, amount, paymentMethod, year, month, n);
      forall key :: key in after && key !in rows ==>
        key.0 == room && exists i :: 0 <= i < n && MonthAt(year, month, i) == YearMonth(key.1, key.2)
  {
    if n > 0 {
      BatchAddsOnlyMonths(rows, room, tenantName, amount, paymentMethod, year, month, n - 1);
      var before := BatchRows(rows, room, tenantName, amount, paymentMethod, year, month, n - 1);
      var after := BatchRows(rows, room, tenantName, amount, paymentMethod, year, month, n);
      var ym := MonthAt(year, month, n - 1);
      forall key | key in after && key !in rows
        ensures key.0 == room && exists i :: 0 <= i < n && MonthAt(year, month, i) == YearMonth(key.1, key.2)
      {
        if key in before {
          var i :| 0 <= i < n - 1 && MonthAt(year, month, i) == YearMonth(key.1, key.2);
          assert 0 <= i < n;
        } else {
          assert key == (room, ym.year, ym.month);
          assert MonthAt(year, month, n - 1) == YearMonth(key.1, key.2);
        }
      }
    }
  }

  /** After a batch every one of its months has a schedule, the new ones due on day 5 for the batch's amount. */
  lemma {:induction false} BatchCoversMonths(rows: map<(string, int, int), Schedule>, room: string, tenantName: string,
                                             amount: real, paymentMethod: string, year: int, month: int, n: nat)
    requires 1 <= month <= 12
    ensures var after := BatchRows(rows, room, tenantName, amount, paymentMethod, year, month, n);
      forall i :: 0 <= i < n ==>
        var ym := MonthAt(year, month, i);
        (room, ym.year, ym.month) in after
        && ((room, ym.year, ym.month) !in rows ==>
            after[(room, ym.year, ym.month)] == Schedule(tenantName, amount, paymentMethod, Date(ym.year, ym.month, DueDay)))
  {
    if n > 0 {
      BatchCoversMonths(rows, room, tenantName, amount, paymentMethod, year, month, n - 1);
      var before := BatchRows(rows, room, tenantName, amount, paymentMethod, year, month, n - 1);
      var after := BatchRows(rows, room, tenantName, amount, paymentMethod, year, month, n);
      var last := MonthAt(year, month, n - 1);
      LaterMonthUntouched(rows, room, tenantName, amount, paymentMethod, year, month, n - 1, n - 1);
      forall i | 0 <= i < n
        ensures var ymi := MonthAt(year, month, i);
          && (room, ymi.year, ymi.month) in after
          && ((room, ymi.year, ymi.month) !in rows ==>
              after[(room, ymi.year, ymi.month)] == Schedule(tenantName, amount, paymentMethod, Date(ymi.year, ymi.month, DueDay)))
      {
        if i < n - 1 {
          var ymi := MonthAt(year, month, i);
          MonthAtInjective(year, month, i, n - 1);
          assert (room, ymi.year, ymi.month) != (room, last.year, last.month);
          assert (room, ymi.year, ymi.month) in before;
          assert after[(room, ymi.year, ymi.month)] == before[(room, ymi.year, ymi.month)];
        }
      }
    }
  }

  /**
   * A batch over `n` months keeps every existing schedule as it was, adds
   * schedules only for the room and only for those months, and leaves every
   * one of those months with a schedule, the new ones due on day 5 of their
   * month for the batch's amount.
   */
  lemma {:induction false} BatchRowsContents(rows: map<(string, int, int), Schedule>, room: string, tenantName: string,
                                             amount: real, paymentMethod: string, year: int, month: int, n: nat)
    requires 1 <= month <= 12
    ensures var after := BatchRows(rows, room, tenantName, amount, paymentMethod, year, month, n);
      && (forall key :: key in rows ==> key in after && after[key] == rows[key])
      && (forall key :: key in after && key !in rows ==>
            key.0 == room && exists i :: 0 <= i < n && MonthAt(year, month, i) == YearMonth(key.1, key.2))
      && (forall i :: 0 <= i < n ==>
            var ym := MonthAt(year, month, i);
            (room, ym.year, ym.month) in after
            && ((room, ym.year, ym.month) !in rows ==>
                after[(room, ym.year, ym.month)] == Schedule(tenantName, amount, paymentMethod, Date(ym.year, ym.month, DueDay))))
  {
    BatchKeepsRows(rows, room, tenantName, amount, paymentMethod, year, month, n);
    BatchAddsOnlyMonths(rows, room, tenantName, amount, paymentMethod, year, month, n);
    BatchCoversMonths(rows, room, tenantName, amount, paymentMethod, year, month, n);
  }

  /**
   * `generate_payment_schedule_batch`: one attempt per month for `months`
   * consecutive months from the start month. A month that already has a
   * schedule is counted as skipped when `skipExisting` holds and is refused
   * by the table otherwise; every other month gets a schedule due on day 5,
   * for the amount worked out once before the loop.
   */
  method GenerateBatch(book: ScheduleBook, room: string, tenantName: string, baseRent: real,
                       hasWaterFee: bool, paymentMethod: string, startYear: int, startMonth: int,
                       months: int, skipExisting: bool) returns (success: nat, skip: nat)
    requires 1 <= startMonth <= 12
    modifies book
    ensures var n := if months < 0 then 0 else months;
      && success == NewMonths(old(book.rows), room, startYear, startMonth, n)
      && skip == (if skipExisting then n - success else 0)
      && book.rows == BatchRows(old(book.rows), room, tenantName, MonthlyRent(baseRent, hasWaterFee, paymentMethod),
                                paymentMethod, startYear, startMonth, n)
  {
    var n := if months < 0 then 0 else months;
    var amount := MonthlyRent(baseRent, hasWaterFee, paymentMethod);
    success, skip := 0, 0;
    var i := 0;
    while i < n
      invariant 0 <= i <= n
      invariant success == NewMonths(old(book.rows), room, startYear, startMonth, i)
      invariant skip == (if skipExisting then i - success else 0)
      invariant book.rows == BatchRows(old(book.rows), room, tenantName, amount, paymentMethod, startYear, startMonth, i)
    {
      var target := MonthAt(startYear, startMonth, i);
      // Only earlier months were filed in this run, so this month has a
      // schedule now exactly when it had one before the run.
      LaterMonthUntouched(old(book.rows), room, tenantName, amount, paymentMethod, startYear, startMonth, i, i);
      if skipExisting && book.Exists(room, target.year, target.month) {
        skip := skip + 1;
      } else {
        var ok := book.Add(room, tenantName, target.year, target.month, amount, paymentMethod,
                           Date(target.year, target.month, DueDay));
        if ok {
          success := success + 1;
        }
      }
      i := i + 1;
    }
  }

  /** One month of a batch adds one key exactly when that month had no schedule before the run. */
  lemma BatchStepKeys(rows: map<(string, int, int), Schedule>, room: string, tenantName: string,
                      amount: real, paymentMethod: string, year: int, month: int, n: nat)
    requires 1 <= month <= 12 && n > 0
    ensures var ym := MonthAt(year, month, n - 1);
      |BatchRows(rows, room, tenantName, amount, paymentMethod, year, month, n).Keys|
      == |BatchRows(rows, room, tenantName, amount, paymentMethod, year, month, n - 1).Keys|
         + (if (room, ym.year, ym.month) in rows then 0 else 1)
  {
    LaterMonthUntouched(rows, room, tenantName, amount, paymentMethod, year, month, n - 1, n - 1);
    var before := BatchRows(rows, room, tenantName, amount, paymentMethod, year, month, n - 1);
    var ym := MonthAt(year, month, n - 1);
    var key := (room, ym.year, ym.month);
    var after := BatchRows(rows, room, tenantName, amount, paymentMethod, year, month, n);
    if key !in before {
      assert after.Keys == before.Keys + {key};
    }
  }

  /**
   * The success count of a batch is the number of schedules it adds to the
   * table: a month counts exactly when its insert went through.
   */
  lemma {:induction false} NewMonthsAreAdded(rows: map<(string, int, int), Schedule>, room: string, tenantName: string,
                                             amount: real, paymentMethod: string, year: int, month: int, n: nat)
    requires 1 <= month <= 12
    ensures |BatchRows(rows, room, tenantName, amount, paymentMethod, year, month, n).Keys|
      == |rows.Keys| + NewMonths(rows, room, year, month, n)
  {
    if n > 0 {
      NewMonthsAreAdded(rows, room, tenantName, amount, paymentMethod, year, month, n - 1);
      BatchStepKeys(rows, room, tenantName, amount, paymentMethod, year, month, n);
    }
  }
}
