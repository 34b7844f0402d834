/**
 * The dashboard's calculations: the key counts, the leases that end within
 * a window of days (sorted by the days left, then split into urgent, warning
 * and notice lists), and the status of every room. Dates are day numbers;
 * `today` is a parameter, and parsing a date string is the parameter
 * `parse`, a partial function that yields no value for a malformed string.
 */
module Dashboard {
  import opened Wrappers
  import RoomConfig

  /** A lease end as a tenant row may hold it: missing, a date, a date and time, or text. */
  datatype DateValue =
    | NoValue
    | DateVal(day: int)
    | DateTimeVal(day: int, seconds: int)
    | TextVal(text: string)

  /** Why a comparison raised instead of answering. */
  datatype CompareFailure = DateTimeComparedWithDate

  /**
   * `safe_parse_date` as written: the date test comes first, and a date and
   * time passes it too, so it comes back unchanged instead of as its date.
   */
  function SafeParseDateAsWritten(v: DateValue, parse: string -> Option<int>): (r: Option<DateValue>)
    ensures v.DateTimeVal? ==> r == Some(v)
    ensures v.DateVal? ==> r == Some(v)
    ensures v.NoValue? ==> r.None?
    ensures v.TextVal? ==> r == (if parse(v.text).Some? then Some(DateVal(parse(v.text).value)) else None)
    ensures r.Some? ==> r.value.DateVal? || r.value.DateTimeVal?
  {
    match v
    case NoValue => None
    case DateVal(_) => Some(v)
    case DateTimeVal(_, _) => Some(v)
    case TextVal(s) =>
      match parse(s)
      case None => None
      case Some(d) => Some(DateVal(d))
  }

  /**
   * `safe_parse_date` with its evidently intended datetime branch: a date and
   * time yields its date. Missing values and malformed strings yield nothing.
   */
  function SafeParseDate(v: DateValue, parse: string -> Option<int>): (r: Option<int>)
    ensures r.None? <==> v.NoValue? || (v.TextVal? && parse(v.text).None?)
    ensures (v.DateVal? || v.DateTimeVal?) ==> r == Some(v.day)
    ensures v.TextVal? ==> r == parse(v.text)
  {
    match v
    case NoValue => None
    case DateVal(d) => Some(d)
    case DateTimeVal(d, _) => Some(d)
    case TextVal(s) => parse(s)
  }

  /**
   * The corrected parser agrees with the one as written wherever that one
   * returns a plain date or nothing, and turns the date and time it lets
   * through into that value's own day.
   */
  lemma SafeParseDateCorrectsDateTime(v: DateValue, parse: string -> Option<int>)
    ensures SafeParseDateAsWritten(v, parse).None? <==> SafeParseDate(v, parse).None?
    ensures SafeParseDateAsWritten(v, parse).Some? ==>
      SafeParseDate(v, parse) == Some(SafeParseDateAsWritten(v, parse).value.day)
  {
  }

  /** A tenant row: the room, the tenant, the lease end as stored, the base rent. */
  datatype Tenant = Tenant(room: string, tenantName: string, leaseEnd: DateValue, baseRent: real)

  /** A lease that ends within the window, with its days left. */
  datatype ExpiringLease = ExpiringLease(room: string, tenant: string, leaseEnd: int, daysLeft: int)

  /** The tenant's lease end parses and lies between today and `days` days from today, both included. */
  predicate InWindow(t: Tenant, today: int, days: int, parse: string -> Option<int>) {
    var d := SafeParseDate(t.leaseEnd, parse);
    d.Some? && today <= d.value <= today + days
  }

  /** The row the window check of `get_expiring_leases` appends for a tenant whose lease end parses. */
  function Entry(t: Tenant, today: int, parse: string -> Option<int>): (e: ExpiringLease)
    requires SafeParseDate(t.leaseEnd, parse).Some?
    ensures e.room == t.room && e.tenant == t.tenantName
    ensures Some(e.leaseEnd) == SafeParseDate(t.leaseEnd, parse) && e.leaseEnd - e.daysLeft == today
  {
    var d := SafeParseDate(t.leaseEnd, parse).value;
    ExpiringLease(t.room, t.tenantName, d, d - today)
  }

  /**
   * The window check of `get_expiring_leases` as written: the parsed value is
   * compared with today's date, and comparing a date and time with a date
   * raises.
   */
  function ExpiringCheckAsWritten(t: Tenant, today: int, days: int, parse: string -> Option<int>): (r: Result<bool, CompareFailure>)
    ensures r.Err? <==> t.leaseEnd.DateTimeVal?
    ensures r.Ok? ==> (r.value <==> InWindow(t, today, days, parse))
  {
    match SafeParseDateAsWritten(t.leaseEnd, parse)
    case None => Ok(false)
    case Some(v) =>
      if v.DateTimeVal? then Err(DateTimeComparedWithDate)
      else Ok(v.DateVal? && today <= v.day <= today + days)
  }

  /**
   * A lease stored with a time of day, ending ten days from today, raises in
   * the window check as written; the corrected parser puts it in the window.
   */
  lemma DateTimeLeaseRaisesAsWritten()
    ensures var t := Tenant("2A", "Lin", DateTimeVal(100, 3600), 8000.0);
      && ExpiringCheckAsWritten(t, 90, 45, (s: string) => None).Err?
      && InWindow(t, 90, 45, (s: string) => None)
  {
  }

  /** The rows appended by the loop of `get_expiring_leases`, in table order. */
  function Window(tenants: seq<Tenant>, today: int, days: int, parse: string -> Option<int>): (w: seq<ExpiringLease>)
    ensures |w| <= |tenants|
    ensures forall e :: e in w ==> 0 <= e.daysLeft <= days && e.daysLeft == e.leaseEnd - today
  {
    if tenants == [] then []
    else
      var t := tenants[|tenants| - 1];
      var w0 := Window(tenants[..|tenants| - 1], today, days, parse);
      if InWindow(t, today, days, parse) then w0 + [Entry(t, today, parse)] else w0
  }

  /**
   * A tenant contributes a row exactly when its lease end parses and lies in
   * the window, and the window holds no other rows.
   */
  lemma {:induction false} WindowMembers(tenants: seq<Tenant>, today: int, days: int, parse: string -> Option<int>)
    ensures forall i :: 0 <= i < |tenants| && InWindow(tenants[i], today, days, parse) ==>
      Entry(tenants[i], today, parse) in Window(tenants, today, days, parse)
    ensures forall e :: e in Window(tenants, today, days, parse) ==>
      exists i :: 0 <= i < |tenants| && InWindow(tenants[i], today, days, parse) && e == Entry(tenants[i], today, parse)
  {
    if tenants != [] {
      var n := |tenants| - 1;
      var prefix := tenants[..n];
      WindowMembers(prefix, today, days, parse);
      var w := Window(tenants, today, days, parse);
      var w0 := Window(prefix, today, days, parse);
      assert forall e :: e in w0 ==> e in w;
      forall e | e in w
        ensures exists i :: 0 <= i < |tenants| && InWindow(tenants[i], today, days, parse) && e == Entry(tenants[i], today, parse)
      {
        if e in w0 {
          var i :| 0 <= i < n && InWindow(prefix[i], today, days, parse) && e == Entry(prefix[i], today, parse);
          assert prefix[i] == tenants[i];
        } else {
          assert InWindow(tenants[n], today, days, parse) && e == Entry(tenants[n], today, parse);
        }
      }
      forall i | 0 <= i < |tenants| && InWindow(tenants[i], today, days, parse)
        ensures Entry(tenants[i], today, parse) in w
      {
        if i < n {
          assert prefix[i] == tenants[i];
        }
      }
    }
  }

  /** Ascending days left. */
  predicate SortedByDaysLeft(s: seq<ExpiringLease>) {
    forall i, j :: 0 <= i < j < |s| ==> s[i].daysLeft <= s[j].daysLeft
  }

  /** Inserts a lease after every lease with no more days left, keeping the order. */
  function InsertByDaysLeft(e: ExpiringLease, s: seq<ExpiringLease>): (r: seq<ExpiringLease>)
    requires SortedByDaysLeft(s)
    ensures SortedByDaysLeft(r)
    ensures |r| == |s| + 1
    ensures r[0] == e || (|s| > 0 && r[0] == s[0])
    ensures multiset(r) == multiset(s) + multiset{e}
  {
    if s == [] then [e]
    else if e.daysLeft < s[0].daysLeft then [e] + s
    else
      assert s == [s[0]] + s[1..];
      [s[0]] + InsertByDaysLeft(e, s[1..])
  }

  /**
   * `sorted(..., key=days_left)`: an insertion sort that places each lease
   * after the earlier ones with the same days left.
   */
  function SortByDaysLeft(s: seq<ExpiringLease>): (r: seq<ExpiringLease>)
    ensures SortedByDaysLeft(r)
    ensures multiset(r) == multiset(s)
  {
    if s == [] then []
    else
      assert s == s[..|s| - 1] + [s[|s| - 1]];
      InsertByDaysLeft(s[|s| - 1], SortByDaysLeft(s[..|s| - 1]))
  }

  /**
   * `get_expiring_leases`: nothing for an empty table; otherwise the rows of
   * the tenants whose lease ends between today and `days` days from today,
   * sorted by the days left.
   */
  method GetExpiringLeases(tenants: seq<Tenant>, today: int, days: int, parse: string -> Option<int>)
    returns (r: seq<ExpiringLease>)
    ensures tenants == [] ==> r == []
    ensures r == SortByDaysLeft(Window(tenants, today, days, parse))
    ensures SortedByDaysLeft(r)
    ensures forall e :: e in r ==> 0 <= e.daysLeft <= days && e.daysLeft == e.leaseEnd - today
    ensures forall i :: 0 <= i < |tenants| && InWindow(tenants[i], today, days, parse) ==> Entry(tenants[i], today, parse) in r
    ensures forall e :: e in r ==>
      exists i :: 0 <= i < |tenants| && InWindow(tenants[i], today, days, parse) && e == Entry(tenants[i], today, parse)
  {
    if |tenants| == 0 {
      return [];
    }
    var expiring := [];
    var i := 0;
    while i < |tenants|
      invariant 0 <= i <= |tenants|
      invariant expiring == Window(tenants[..i], today, days, parse)
    {
      var t := tenants[i];
      var leaseEnd := SafeParseDate(t.leaseEnd, parse);
      if leaseEnd.Some? && today <= leaseEnd.value <= today + days {
        expiring := expiring + [ExpiringLease(t.room, t.tenantName, leaseEnd.value, leaseEnd.value - today)];
      }
      assert tenants[..i + 1][..i] == tenants[..i];
      i := i + 1;
    }
    assert tenants[..i] == tenants;
    r := SortByDaysLeft(expiring);
    WindowMembers(tenants, today, days, parse);
    assert forall e :: e in r <==> e in expiring by {
      assert multiset(r) == multiset(expiring);
      forall e ensures e in r <==> e in expiring {
        assert e in r <==> e in multiset(r);
        assert e in expiring <==> e in multiset(expiring);
      }
    }
  }

  /** The three lists of the lease alerts. */
  datatype Alert = UrgentAlert | WarningAlert | NoticeAlert

  /** Urgent: at most 14 days left; warning: 15 to 30; notice: more than 30. */
  predicate InAlert(daysLeft: int, a: Alert) {
    match a
    case UrgentAlert => daysLeft <= 14
    case WarningAlert => 14 < daysLeft <= 30
    case NoticeAlert => daysLeft > 30
  }

  /** The leases of one alert list, in the order of the expiring list. */
  function AlertLeases(leases: seq<ExpiringLease>, a: Alert): (r: seq<ExpiringLease>)
    ensures |r| <= |leases|
    ensures forall e :: e in r <==> e in leases && InAlert(e.daysLeft, a)
  {
    if leases == [] then []
    else (if InAlert(leases[0].daysLeft, a) then [leases[0]] else []) + AlertLeases(leases[1..], a)
  }

  /** A lease occurs in an alert list as often as in the expiring list when it falls in that list's range, else never. */
  lemma {:induction false} AlertMultiplicity(leases: seq<ExpiringLease>, a: Alert, e: ExpiringLease)
    ensures multiset(AlertLeases(leases, a))[e] == if InAlert(e.daysLeft, a) then multiset(leases)[e] else 0
  {
    if leases != [] {
      var x, tail := leases[0], leases[1..];
      var head := if InAlert(x.daysLeft, a) then [x] else [];
      AlertMultiplicity(tail, a, e);
      assert AlertLeases(leases, a) == head + AlertLeases(tail, a);
      assert multiset(AlertLeases(leases, a)) == multiset(head) + multiset(AlertLeases(tail, a));
      assert multiset(leases) == multiset{x} + multiset(tail) by {
        assert leases == [x] + tail;
      }
    }
  }

  /** Every lease is in exactly one of the three alert lists. */
  lemma AlertsPartition(leases: seq<ExpiringLease>)
    ensures |AlertLeases(leases, UrgentAlert)| + |AlertLeases(leases, WarningAlert)| + |AlertLeases(leases, NoticeAlert)|
      == |leases|
    ensures multiset(AlertLeases(leases, UrgentAlert)) + multiset(AlertLeases(leases, WarningAlert))
      + multiset(AlertLeases(leases, NoticeAlert)) == multiset(leases)
  {
    var u, w, n := multiset(AlertLeases(leases, UrgentAlert)), multiset(AlertLeases(leases, WarningAlert)),
                   multiset(AlertLeases(leases, NoticeAlert));
    forall e ensures (u + w + n)[e] == multiset(leases)[e] {
      AlertMultiplicity(leases, UrgentAlert, e);
      AlertMultiplicity(leases, WarningAlert, e);
      AlertMultiplicity(leases, NoticeAlert, e);
    }
    assert u + w + n == multiset(leases);
    assert |u + w + n| == |u| + |w| + |n|;
  }

  /** The status a room card shows. */
  datatype RoomStatus = Occupied | LeaseWarning | Vacant

  /** What the room status table holds for a room with a tenant row. */
  datatype RoomInfo = RoomInfo(tenant: string, status: RoomStatus, rent: real)

  /** A lease that ends within this many days of today, or has ended, is flagged. */
  const StatusWarningDays: int := 45

  /** The status rule of `render_room_status` for a tenant row. */
  function LeaseStatus(leaseEnd: Option<int>, today: int): (s: RoomStatus)
    ensures s != Vacant
  {
    if leaseEnd.Some? && leaseEnd.value <= today + StatusWarningDays then LeaseWarning else Occupied
  }

  /** The entry a tenant row writes into the room status table. */
  function RowInfo(t: Tenant, today: int, parse: string -> Option<int>): RoomInfo {
    RoomInfo(t.tenantName, LeaseStatus(SafeParseDate(t.leaseEnd, parse), today), t.baseRent)
  }

  /** The room status table after the rows of `tenants`: a later row for the same room overwrites. */
  function StatusTable(tenants: seq<Tenant>, today: int, parse: string -> Option<int>): (table: map<string, RoomInfo>)
    ensures forall room :: room in table ==> exists i :: 0 <= i < |tenants| && tenants[i].room == room
  {
    if tenants == [] then map[]
    else
      var t := tenants[|tenants| - 1];
      StatusTable(tenants[..|tenants| - 1], today, parse)[t.room := RowInfo(t, today, parse)]
  }

  /** The loop of `render_room_status` that fills the room status table. */
  method RoomStatuses(tenants: seq<Tenant>, today: int, parse: string -> Option<int>)
    returns (table: map<string, RoomInfo>)
    ensures table == StatusTable(tenants, today, parse)
  {
    table := map[];
    var i := 0;
    while i < |tenants|
      invariant 0 <= i <= |tenants|
      invariant table == StatusTable(tenants[..i], today, parse)
    {
      var t := tenants[i];
      var leaseEnd := SafeParseDate(t.leaseEnd, parse);
      var status := if leaseEnd.Some? && leaseEnd.value <= today + 45 then LeaseWarning else Occupied;
      table := table[t.room := RoomInfo(t.tenantName, status, t.baseRent)];
      assert tenants[..i + 1][..i] == tenants[..i];
      i := i + 1;
    }
    assert tenants[..i] == tenants;
  }

  /** The card of a room: its table entry's status, or vacant when it has none. */
  function StatusOf(table: map<string, RoomInfo>, room: string): RoomStatus {
    if room in table then table[room].status else Vacant
  }

  /** The last row for a room decides its entry in the table. */
  lemma {:induction false} LastRowWins(tenants: seq<Tenant>, today: int, parse: string -> Option<int>, i: nat)
    requires i < |tenants|
    requires forall j :: i < j < |tenants| ==> tenants[j].room != tenants[i].room
    ensures tenants[i].room in StatusTable(tenants, today, parse)
    ensures StatusTable(tenants, today, parse)[tenants[i].room] == RowInfo(tenants[i], today, parse)
  {
    var n := |tenants| - 1;
    var prefix := tenants[..n];
    var t := tenants[n];
    assert StatusTable(tenants, today, parse) == StatusTable(prefix, today, parse)[t.room := RowInfo(t, today, parse)];
    if i < n {
      assert prefix[i] == tenants[i];
      assert forall j :: i < j < |prefix| ==> prefix[j] == tenants[j];
      LastRowWins(prefix, today, parse, i);
      assert t.room != tenants[i].room;
    }
  }

  /**
   * The status rule: a room without a tenant row is vacant; otherwise the
   * room's last row decides, and the room is flagged exactly when that row's
   * lease end parses and is no later than 45 days from today, past dates
   * included; otherwise it is occupied.
   */
  lemma RoomStatusRule(tenants: seq<Tenant>, today: int, parse: string -> Option<int>, room: string)
    ensures StatusOf(StatusTable(tenants, today, parse), room) == Vacant <==>
      forall i :: 0 <= i < |tenants| ==> tenants[i].room != room
    ensures forall i :: (0 <= i < |tenants| && tenants[i].room == room
                         && (forall j :: i < j < |tenants| ==> tenants[j].room != room)) ==>
        (StatusOf(StatusTable(tenants, today, parse), room) == LeaseWarning <==>
          SafeParseDate(tenants[i].leaseEnd, parse).Some?
          && SafeParseDate(tenants[i].leaseEnd, parse).value <= today + StatusWarningDays)
  {
    var table := StatusTable(tenants, today, parse);
    forall i | 0 <= i < |tenants| && tenants[i].room == room && (forall j :: i < j < |tenants| ==> tenants[j].room != room)
      ensures room in table && table[room].status == LeaseStatus(SafeParseDate(tenants[i].leaseEnd, parse), today)
    {
      LastRowWins(tenants, today, parse, i);
    }
    if exists i :: 0 <= i < |tenants| && tenants[i].room == room {
      var k :| 0 <= k < |tenants| && tenants[k].room == room;
      LastRowExists(tenants, room, k);
    }
  }

  /** A room with a row has a last row. */
  lemma {:induction false} LastRowExists(tenants: seq<Tenant>, room: string, k: nat)
    requires k < |tenants| && tenants[k].room == room
    ensures exists i :: (0 <= i < |tenants| && tenants[i].room == room
                         && (forall j :: i < j < |tenants| ==> tenants[j].room != room))
    decreases |tenants| - k
  {
    if exists j :: k < j < |tenants| && tenants[j].room == room {
      var j :| k < j < |tenants| && tenants[j].room == room;
      LastRowExists(tenants, room, j);
    } else {
      assert forall j :: k < j < |tenants| ==> tenants[j].room != room;
    }
  }

  /** An overdue payment row. */
  datatype Overdue = Overdue(room: string, amount: real)

  /** The dashboard's key counts. */
  datatype Metrics = Metrics(totalRooms: int, occupied: int, vacant: int, overdueAmount: real, overdueCount: int)

  /** `df_overdue['amount'].sum()` */
  function OverdueSum(rows: seq<Overdue>): real {
    if rows == [] then 0.0 else OverdueSum(rows[..|rows| - 1]) + rows[|rows| - 1].amount
  }

  /**
   * `calculate_metrics` (counts only): the building's 12 rooms, one occupied
   * room per tenant row, the rest vacant (negative when there are more rows
   * than rooms), and the number and total of the overdue rows.
   */
  function CalculateMetrics(tenants: seq<Tenant>, overdue: seq<Overdue>): (m: Metrics)
    ensures m.totalRooms == 12
    ensures m.occupied == |tenants| && m.occupied + m.vacant == m.totalRooms
    ensures m.vacant >= 0 <==> |tenants| <= 12
    ensures m.overdueCount == |overdue|
    ensures overdue == [] ==> m.overdueAmount == 0.0
    ensures m.overdueAmount == OverdueSum(overdue)
  {
    var totalRooms := |RoomConfig.AllRooms|;
    var occupied := if tenants == [] then 0 else |tenants|;
    var overdueAmount := if overdue == [] then 0.0 else OverdueSum(overdue);
    var overdueCount := if overdue == [] then 0 else |overdue|;
    Metrics(totalRooms, occupied, totalRooms - occupied, overdueAmount, overdueCount)
  }
}
