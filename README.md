# Rental property electricity, rent and dashboard core in Dafny

This project models the core of a small rental-property manager: a building of
twelve rooms. Two rooms on the first floor are exclusive and pay only for
their own meter. The other ten are sharing rooms and split the building's
public consumption equally. The model covers six parts:

- **Electricity allocation engine** (`calculator.dfy`, module `Calculator`). It covers:
  - the unit price (the utility bill's amount over its kWh, rounded to cents);
  - public consumption: the bill's kWh less the sum of the room meters, never below zero;
  - the per-room share of public consumption;
  - each room's charge, rounded to whole currency units;
  - the full allocation, with its lines sorted by room;
  - validation of the meter readings.
- **Room and tariff tables** (`rooms.dfy`, `tariff.dfy`, modules `RoomConfig` and
  `Tariff`): the room lists, the room-type lookup, and the progressive
  (tiered) fee with its summer and non-summer brackets.
- **Electricity store** (`storage.dfy`, module `Storage`). A class whose
  tables are maps keyed by the database's unique keys. It holds periods, floor
  bills, meter readings, charge lines and the per-period summary. A save that
  names a missing period fails, as the foreign key makes it fail.
- **Electricity page rules** (`page.dfy`, module `ElectricityPage`):
  - the period-range check before a period is created;
  - the order of the checks before a calculation.
- **Rent helpers** (`rent.dfy`, module `Rent`): the monthly amount, and the
  batch generator that files one payment schedule per calendar month. The
  schedule table refuses duplicates.
- **Dashboard helpers** (`dashboard.dfy`, module `Dashboard`):
  - the key counts;
  - the expiring-lease window, sorted by the days left;
  - the urgent, warning and notice lists;
  - the room status rule.

Modelling conventions:

- **Money and kWh** are `real`.
- **Python's `round`** rounds half to even on the exact value (`Rounding`).
- **Dates** are day numbers. Today's date is a parameter.
- **Date-string parsing** is the parameter `parse: string -> Option<int>`.
- **Database statements** become updates of the store's maps. A transaction
  that rolls back leaves the maps as they were.

Two worked consequences of the code's arithmetic:

- **Rounding difference.** A bill of 1000 for 300 kWh, with room readings of
  100.33 and 99.67 and both rooms sharing, gives a price of 3.33 and charges of
  501 and 498. The total is 999 and the difference −1.
  `Calculator.RoundingDifferenceScenario` proves these figures.
- **First bracket.** `Tariff.FirstBracketFee` holds for 0 to 120 kWh: the fee is
  the first bracket's rate times the kWh, rounded to cents. A negative
  consumption bills 0.

## Model

| member | source | states |
|---|---|---|
| Rounding.RoundHalfEven | views/electricity/calculator.py:41 | the rounded integer is within one half of the value, and an exact tie goes to the even neighbour, as Python's `round` does |
| Rounding.Round2 | views/electricity/calculator.py:41 | rounding to cents lands on a whole number of cents within half a cent of the value, and an exact half-cent tie goes to the even number of cents |
| Rounding.Round2Monotone | views/electricity/calculator.py:63 | rounding to cents preserves order |
| Rounding.Round2Idempotent | views/electricity/calculator.py:81 | rounding an already rounded value to cents changes nothing |
| RoomConfig.GetRoomType | config/constants.py:28-34 | a room is exclusive exactly when it is in the exclusive list, sharing exactly when it is only in the sharing list, unknown exactly when it is in neither |
| RoomConfig.IsSharingRoom | config/constants.py:162-164 | a room is a sharing room exactly when its type is sharing |
| RoomConfig.TablesPartitionRooms | config/constants.py:17-26 | the room lists have no duplicates, and the exclusive and sharing lists split the twelve rooms between them |
| RoomConfig.GetAllRooms | config/constants.py:147-149 | returns a fresh array holding the room list, so the caller cannot change the table |
| RoomConfig.GetSharingRooms | config/constants.py:152-154 | returns a fresh array holding the sharing list |
| RoomConfig.GetExclusiveRooms | config/constants.py:157-159 | returns a fresh array holding the exclusive list |
| Tariff.ProgressiveFee | config/constants.py:88-113 | the bracket loop's fee is the sum of each bracket's billed kWh times its rate, rounded to cents |
| Tariff.TablesWellFormed | config/constants.py:68-86 | both tables have strictly increasing bracket limits, with an unbounded last bracket, and non-negative rates |
| Tariff.BilledSumsToConsumption | config/constants.py:104-111 | the kWh billed across the brackets add up to the consumption, or to zero when it is negative |
| Tariff.FeeZeroWhenNoConsumption | config/constants.py:105-106 | no consumption, or a negative one, costs nothing |
| Tariff.FeeMonotone | config/constants.py:88-113 | more consumption never costs less |
| Tariff.FirstBracketFee | config/constants.py:71 | up to 120 kWh the fee is the first bracket's rate times the kWh, rounded to cents |
| Tariff.SummerCostsAtLeastNonSummer | config/constants.py:70-86 | for every consumption the summer fee is at least the non-summer fee |
| Calculator.LexLessTotal | views/electricity/calculator.py:172 | two different room names are ordered one way or the other |
| Calculator.LexLessTransitive | views/electricity/calculator.py:172 | the order of room names used by the sort is transitive |
| Calculator.SortByRoom | views/electricity/calculator.py:172 | the sorted lines are ordered by room, are a permutation of the lines and have the same total charge |
| Calculator.SortKeepsSorted | views/electricity/calculator.py:172 | lines already in room order come out of the sort unchanged |
| Calculator.NegativeErrorsExact | views/electricity/calculator.py:197-200 | an error for a negative reading is reported exactly for each room whose reading is below zero |
| Calculator.RegressionErrorsExact | views/electricity/calculator.py:202-210 | a regression error is reported exactly for each room that has a previous reading above its current one |
| Calculator.NoPreviousNoRegression | views/electricity/calculator.py:203 | without previous readings no regression is reported |
| Calculator.ValidationPassesIff | views/electricity/calculator.py:195-212 | validation passes exactly when every reading is non-negative and none is below its previous reading |
| Calculator.RegressionExample | views/electricity/calculator.py:207-210 | a reading of 50 after 80 is reported as a regression with both values |
| Calculator.ChargeFor | views/electricity/calculator.py:104 | a room's charge is within half a currency unit of its kWh times the unit price |
| Calculator.ElectricityCalculator.constructor | views/electricity/calculator.py:16-25 | the calculator keeps the sharing and exclusive lists it is given |
| Calculator.ElectricityCalculator.UnitPrice | views/electricity/calculator.py:27-41 | fails exactly when the kWh is not positive; otherwise it is the amount over the kWh rounded to cents, ties to even: on cents and within half a cent of it |
| Calculator.ElectricityCalculator.PublicKwh | views/electricity/calculator.py:43-63 | never negative; zero when the rooms read more than the bill; otherwise on cents and within half a cent of the bill's kWh less the room total |
| Calculator.ElectricityCalculator.SharedPerRoom | views/electricity/calculator.py:65-81 | zero without sharing rooms; otherwise on cents and within half a cent of the public kWh over the count; non-negative for non-negative public kWh |
| Calculator.ElectricityCalculator.RoomCharge | views/electricity/calculator.py:83-120 | a sharing room carries the rounded share and an exclusive room none; the room kWh is the reading rounded to cents (within half a cent of it, ties to even); the total kWh is the room's own kWh plus its share rounded to cents, within half a cent of it; the charge is the unrounded total times the unit price, rounded to a whole unit |
| Calculator.ElectricityCalculator.SharingCount | views/electricity/calculator.py:152 | the count of sharing rooms never exceeds the number of readings |
| Calculator.ElectricityCalculator.Charges | views/electricity/calculator.py:156-161 | one line per reading, in reading order, each the room charge of that reading |
| Calculator.ElectricityCalculator.ChargeLines | views/electricity/calculator.py:155-161 | the loop appends exactly the per-reading charge lines, in reading order |
| Calculator.ElectricityCalculator.Allocate | views/electricity/calculator.py:122-180 | the allocation fails exactly when the bill's kWh is not positive |
| Calculator.ElectricityCalculator.CalculateAllRooms | views/electricity/calculator.py:122-180 | the engine's steps produce exactly the specified allocation |
| Calculator.ElectricityCalculator.ValidateReadings | views/electricity/calculator.py:182-212 | the error list holds the negative-reading errors in reading order, then the regression errors; the check passes exactly when the list is empty |
| Calculator.AllocationFailsOnlyWithoutConsumption | views/electricity/calculator.py:36-41 | the only failure of the allocation is a bill with no positive kWh |
| Calculator.AllocationLines | views/electricity/calculator.py:156-176 | one line per reading, sorted by room, a permutation of the per-reading charges; the total is the sum of the charges; the difference is the total less the bill amount, rounded to cents |
| Calculator.SharingRoomsShareEqually | views/electricity/calculator.py:65-120 | in an allocation every sharing room carries the same share of public kWh and every exclusive room none |
| Calculator.LinesShareEqually | views/electricity/calculator.py:83-120 | in any rearrangement of the lines, a line shares exactly when its room is a sharing room, and the share is the same for every sharing line |
| Calculator.SharingCountIsSharingRoomsRead | views/electricity/calculator.py:152 | the sharing count is the number of read rooms that are sharing rooms |
| Calculator.KwhConservation | views/electricity/calculator.py:43-176 | when sharing rooms are read and the rooms read no more than the bill, the lines' total kWh equal the bill's kWh to within half a hundredth per line, per sharing room and once more for the public kWh; otherwise the lines carry the readings alone, to within half a hundredth per line, and the public kWh reach no room |
| Calculator.KwhConservationOnCents | views/electricity/calculator.py:43-176 | with readings on the cent grid, the lines' total kWh equal the bill's kWh to within half a hundredth per sharing room plus one, and equal the readings exactly when no public kWh is shared out |
| Calculator.PublicNeverNegative | views/electricity/calculator.py:58-61 | an allocation's public kWh and shared kWh are never negative |
| Calculator.EndToEndScenario | views/electricity/calculator.py:122-176 | a bill of 10000 for 1000 kWh with readings 1A 100, 2A 200, 2B 300 gives price 10, public 400, share 200, charges 1000, 4000 and 5000, and difference 0 |
| Calculator.RoundingDifferenceScenario | views/electricity/calculator.py:122-176 | a bill of 1000 for 300 kWh with readings 100.33 and 99.67 gives price 3.33, share 50, charges 501 and 498, total 999 and difference −1 |
| Storage.SummaryMatchesStoredLines | views/electricity/storage.py:333-379 | for an allocation whose total is the sum of its room-ordered lines, the summary row's total is the sum of the charges stored for the period, and its difference that sum less the bill, to the cent |
| Storage.SavedSummaryMatchesLines | views/electricity/storage.py:333-379 | after a calculated allocation is saved, the summary row agrees with the charge rows saved beside it: total equal to the sum of the period's stored charges, bill amount equal to the bill, difference equal to that sum less the bill, to the cent |
| Storage.ChargeTableSum | views/electricity/storage.py:339-354 | with distinct rooms, the charges inserted for a period add up to the sum of the lines |
| Storage.WithoutPeriod | views/electricity/storage.py:333-337 | deleting a period's rows keeps exactly the rows of other periods, unchanged |
| Storage.ChargeTableHoldsRows | views/electricity/storage.py:339-354 | the inserted charge table holds exactly one entry per line, keyed by the period and the line's room |
| Storage.InsertByFloor | views/electricity/storage.py:196-199 | inserting a bill row into rows ordered by floor keeps them ordered and adds just that row |
| Storage.ReplaceRows | views/electricity/storage.py:333-354 | the replacement succeeds exactly when the lines have distinct rooms, and then the period's old lines are replaced by the new ones |
| Storage.ElectricityStorage.constructor | views/electricity/storage.py:429-505 | the store starts empty with ids from 1, its invariant holding |
| Storage.ElectricityStorage.CreatePeriod | views/electricity/storage.py:28-71 | a new period is created exactly when no period has the same year and months; an existing one is returned unchanged; the invariant (unique periods, fresh ids) is kept |
| Storage.ElectricityStorage.SaveTaipowerBill | views/electricity/storage.py:142-179 | succeeds exactly when the period exists, and then inserts or overwrites that floor's bill; nothing else changes |
| Storage.ElectricityStorage.GetTaipowerBills | views/electricity/storage.py:181-208 | returns the period's bills ordered by floor, every bill of the period and nothing else |
| Storage.ElectricityStorage.SaveMeterReading | views/electricity/storage.py:212-248 | succeeds exactly when the period exists, and then inserts or overwrites that room's reading; nothing else changes |
| Storage.ElectricityStorage.MeterReadings | views/electricity/storage.py:250-273 | maps exactly the rooms read in the period to their reading values |
| Storage.ElectricityStorage.GetPreviousReadings | views/electricity/storage.py:275-312 | empty when no period has a smaller id; otherwise the readings of the period with the largest smaller id |
| Storage.GreatestBelow | views/electricity/storage.py:290-299 | the previous-period query finds nothing exactly when no id lies below the current one, and otherwise the largest id below it |
| Storage.ElectricityStorage.SaveChargeResults | views/electricity/storage.py:316-385 | succeeds exactly when the period exists and the lines have distinct rooms; then the period's charge lines are replaced and its summary is written; otherwise nothing changes |
| ElectricityPage.NewCalculator | views/electricity.py:48-55 | the page's calculator uses the building's sharing and exclusive lists |
| ElectricityPage.RunCalculation | views/electricity.py:318-352 | checks bills, then readings, then validation, then runs the engine on the summed bills, in the readings' number type, as the gate specifies |
| ElectricityPage.CalculatedOnlyWhenClean | views/electricity.py:318-352 | with the bill sums in the readings' number type: a calculation happens only with bills and readings, all readings non-negative and none regressing, and then has one line per reading; it fails exactly when the checks pass and the bills add up to no positive kWh, and succeeds whenever they add up to positive kWh |
| ElectricityPage.Minus | views/electricity/calculator.py:57 | Python's subtraction refuses a `Decimal` and a float, and otherwise gives the difference, a `Decimal` when either side is one |
| ElectricityPage.ReadingsTotal | views/electricity/calculator.py:56 | the total of the float readings is their sum, a float for any reading and the integer 0 for none |
| ElectricityPage.Divide | views/electricity/calculator.py:41 | Python's true division refuses a `Decimal` and a float, gives a `Decimal` when either side is one, and a float otherwise |
| ElectricityPage.AllocateAsWritten | views/electricity/calculator.py:143-161 | as written, the engine fails on no positive kWh; it fails on a type clash in the unit price's division (line 41), in the bill kWh less the float reading total (line 57), or in a float line total times a `Decimal` price (line 111); with no `Decimal` argument it is exactly the specified allocation, and whenever it succeeds it gives that allocation |
| ElectricityPage.MixedArgumentsFailAsWritten | views/electricity/calculator.py:36-111 | a `Decimal` amount over float kWh, float amount over `Decimal` kWh, and a `Decimal` amount over integer kWh with a reading all fail with the type clash |
| ElectricityPage.NeverCalculatedAsWritten | views/electricity.py:343-352 | as written, the calculate button never yields an allocation: wherever the page with matching number types calculates, it reports the type clash, and elsewhere the two agree |
| ElectricityPage.StoredBillFailsAsWritten | views/electricity.py:343-352 | a bill of 1000 for 300 kWh with clean readings 100.33 and 99.67 is calculated once the sums are floats, and fails as written |
| ElectricityPage.SubmitPeriod | views/electricity.py:103-113 | a range whose end month is not after its start is refused and the store is untouched; otherwise the store creates the period or returns the existing one |
| Rent.MonthlyRent | views/rent.py:41-60 | the amount is the base rent less the 100 water fee when it applies, and the base rent otherwise |
| Rent.PaymentMethodIrrelevant | views/rent.py:41-60 | the payment method never changes the amount |
| Rent.MonthAt | views/rent.py:125-127 | the i-th month of the batch is a valid month exactly i months after the start |
| Rent.MonthAtStep | views/rent.py:125 | each step goes to the next calendar month, December to January of the next year |
| Rent.MonthAtInjective | views/rent.py:124-127 | different steps of a batch are different calendar months |
| Rent.ScheduleBook.Add | services/db.py:286-314 | a schedule is filed exactly when its room and month have none, and the table is otherwise unchanged |
| Rent.NewMonths | views/rent.py:124-146 | the number of months that get a new schedule never exceeds the number of months |
| Rent.GenerateBatch | views/rent.py:93-146 | the success count is the number of months without a schedule; the skip count is the rest when skipping and zero otherwise; the table is the batch's specified table |
| Rent.LaterMonthUntouched | views/rent.py:124-146 | a month the batch has not reached yet has a schedule only if it had one before the batch |
| Rent.BatchRowsContents | views/rent.py:124-146 | the batch keeps every existing schedule, adds schedules only for the room's batch months, and leaves each batch month with a schedule, the new ones for the batch amount and due on day 5 |
| Rent.BatchKeepsRows | views/rent.py:124-146 | a batch never changes or drops a schedule that was already in the table |
| Rent.BatchAddsOnlyMonths | views/rent.py:124-146 | every schedule a batch adds is for its room and one of its months |
| Rent.BatchCoversMonths | views/rent.py:124-146 | after a batch every batch month has a schedule, the new ones due on day 5 for the batch amount |
| Rent.NewMonthsAreAdded | views/rent.py:143-144 | the success count is the number of schedules the batch adds to the table |
| Dashboard.SafeParseDateAsWritten | views/dashboard.py:24-47 | as written, nothing for a missing value or a malformed string, a date unchanged, the parsed date of a well-formed string, and a date and time unchanged instead of as its date |
| Dashboard.SafeParseDate | views/dashboard.py:24-47 | nothing for a missing value or a malformed string; the day of a date or a date and time; the parsed day of a well-formed string |
| Dashboard.SafeParseDateCorrectsDateTime | views/dashboard.py:37-41 | the corrected parser agrees with the one as written on what parses, and yields the day of a date and time |
| Dashboard.ExpiringCheckAsWritten | views/dashboard.py:100-102 | as written, the window check raises exactly for a lease end stored with a time of day, and otherwise answers the window test |
| Dashboard.DateTimeLeaseRaisesAsWritten | views/dashboard.py:37-41 | a lease ending ten days from today, stored with a time of day, raises as written but is in the window once corrected |
| Dashboard.Entry | views/dashboard.py:103-109 | an expiring row carries the tenant's room and name, the parsed lease end, and the days from today to it |
| Dashboard.Window | views/dashboard.py:95-109 | every row in the window has between 0 and `days` days left, the lease end less today |
| Dashboard.WindowMembers | views/dashboard.py:99-109 | a tenant yields a row exactly when its lease end parses and lies between today and `days` days from today |
| Dashboard.SortByDaysLeft | views/dashboard.py:111 | the sorted leases are in ascending days left and a permutation of the input |
| Dashboard.GetExpiringLeases | views/dashboard.py:81-111 | nothing for an empty table; otherwise the window's rows sorted by days left, with all rows in the window and no other |
| Dashboard.AlertLeases | views/dashboard.py:172-174 | each alert list holds exactly the leases whose days left fall in its range |
| Dashboard.AlertsPartition | views/dashboard.py:172-174 | the urgent, warning and notice lists split the expiring leases between them, every lease in exactly one |
| Dashboard.AlertMultiplicity | views/dashboard.py:172-174 | a lease occurs in an alert list as often as in the expiring list when its days left fall in that list's range, and never otherwise |
| Dashboard.LeaseStatus | views/dashboard.py:221-225 | a tenant row is never shown as vacant |
| Dashboard.StatusTable | views/dashboard.py:217-231 | every room in the table has a tenant row |
| Dashboard.RoomStatuses | views/dashboard.py:213-231 | the loop builds the specified room status table |
| Dashboard.LastRowWins | views/dashboard.py:227-231 | a room's entry comes from its last tenant row |
| Dashboard.RoomStatusRule | views/dashboard.py:217-250 | a room is vacant exactly when it has no tenant row; otherwise it is flagged exactly when its last row's lease end parses and is at most 45 days from today, past dates included |
| Dashboard.CalculateMetrics | views/dashboard.py:62-78 | 12 rooms in total, one occupied per tenant row, vacant the rest (negative only with more than 12 rows), overdue count the number of overdue rows and amount their sum |

## Left out

- Database connections, retries, logging and exceptions are not modelled. A failed
  statement that rolls back is modelled as leaving the maps unchanged.
  - `check_schedule_exists` returns False on a database error; the model has no such
    error, and neither does the `-1` id of a failed `create_period`.
- Column types are not modelled. Values are stored as given:
  - the `INT` columns `charge_amount`, `total_charge`, `taipower_amount` and
    `difference` round an assigned decimal value to a whole number; the model keeps
    the summary's bill amount and difference as exact reals;
  - every `DECIMAL(10,2)` column rounds a stored kWh, reading, amount or price to
    cents on write;
  - `get_taipower_bills` returns the driver's decimal values as they are, while
    `get_meter_readings` and `get_previous_readings` convert them with `float(...)`;
    the model has one real type for all of them, except in
    `ElectricityPage.GateAsWritten`, which keeps the bill sums `Decimal` and the
    readings float (see "## Findings").
- Storage.ElectricityStorage.GetTaipowerBills: orders floor labels by code point
  (`LexLess`), whereas `ORDER BY floor_label` uses the database's collation, which
  can order some labels differently.
- Storage.ElectricityStorage.SaveTaipowerBill: "ok exactly when the period exists"
  leaves out the failures of the column constraints: a floor label longer than 20
  characters, or an amount or kWh outside `DECIMAL(10,2)`, rolls the insert back.
- Storage.ElectricityStorage.SaveMeterReading: "ok exactly when the period exists"
  leaves out a room number longer than 10 characters and a reading outside
  `DECIMAL(10,2)`, either of which rolls the insert back.
- Storage.ElectricityStorage.SaveChargeResults: "ok exactly when the period exists
  and the rooms are distinct" leaves out a room number longer than 10 characters
  and a kWh, price or amount outside its column's range, any of which rolls the
  whole save back.
- Binary floating point is not modelled: values are exact reals, so float
  artefacts near a rounding tie are out of scope.
- Operations not modelled:
  - `get_periods`, `get_period_by_id` and `get_charge_history` only list rows for display;
  - `format_charge_summary` and `export_charge_details` only format text;
  - `occupancy_rate` and the progress fractions are floating-point display values;
  - rendering of cards, markdown and the 3-column room grid.
- Date handling:
  - `date.today()` is a parameter;
  - `strptime` is the parameter `parse`;
  - year bounds (1 to 9999) and timestamps are not modelled.
- Dashboard.SortByDaysLeft: inserts each lease after the earlier ones with equal
  days left, as Python's stable sort does, but stability itself is not proved.
- Rent.ScheduleBook.Add: the new row's `paid_amount` of 0 and unpaid status are
  not part of the modelled schedule.

## Findings

| source | as written | input that shows it | evidently intended | confidence | as-written member | corrected member |
|---|---|---|---|---|---|---|
| views/electricity.py:345-349 | `df_bills['amount'].sum()` and `df_bills['kwh'].sum()` sum the `Decimal` values that `get_taipower_bills` (views/electricity/storage.py:194-205) returns without conversion, while `get_meter_readings` returns floats. `calculate_public_electricity` then computes `taipower_kwh - sum(room_readings.values())` (views/electricity/calculator.py:57), a `Decimal` minus a float, which raises `TypeError`; the page reports the calculation as failed | any period with a floor bill of positive kWh and valid readings, e.g. one bill of 1000 for 300 kWh and readings 100.33 and 99.67 | the bill sums are converted to float like the readings, and the calculation succeeds whenever the checks pass and the bills have positive kWh | not executed; Python's documented refusal to subtract a float from a `Decimal`, and psycopg2's documented return of `NUMERIC` columns as `Decimal` | ElectricityPage.NeverCalculatedAsWritten | ElectricityPage.CalculatedOnlyWhenClean |
| views/dashboard.py:37-41 | the `isinstance(date_value, date)` test comes before the datetime test, and a datetime is a date, so a datetime is returned unchanged. Comparing it with today's date in the window check (line 102) or the status rule (line 222) raises | a tenant row whose `lease_end` holds a datetime ten days from today | a datetime yields its date, so the lease is reported as expiring in 10 days | not executed; Python's documented refusal to order a datetime against a date; whether the page reaches it depends on the type of the tenants' `lease_end` column, which is not part of this model (the driver returns a `DATE` column as a date and a `TIMESTAMP` column as a datetime) | Dashboard.ExpiringCheckAsWritten | Dashboard.SafeParseDate |
