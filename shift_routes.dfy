/**
 * The `/api/shifts` route: POST creates a shift, and for a recurring one
 * also a copy on every later week of the same month, all in one batch; GET
 * lists the caller's shifts by date.
 *
 * The session is an explicit parameter: `None` when there is no session,
 * otherwise the user it carries, whose id may be missing.
 */
module ShiftRoutes {
  import opened Wrappers
  import opened Calendar
  import opened Shifts
  import opened ShiftSchema

  datatype SessionUser = SessionUser(id: Option<string>)

  /** The user id a session vouches for; an empty id is falsy and counts as none. */
  function SessionUserId(session: Option<SessionUser>): (r: Option<string>)
    ensures r.Some? <==> session.Some? && session.value.id.Some? && session.value.id.value != ""
    ensures r.Some? ==> r.value != "" && r == session.value.id
  {
    if session.Some? && session.value.id.Some? && session.value.id.value != "" then session.value.id
    else None
  }

  /** 401, 400 with the failing keys, or 201 with the number of rows created. */
  datatype PostResponse = Unauthorized | ValidationFailed(issues: seq<Field>) | Created(count: nat)

  datatype GetResponse = GetUnauthorized | Listed(shifts: seq<Shift>)

  /** The record the handler builds for the requested date. */
  function FirstRecord(data: ShiftData, body: ShiftBody, userId: string): (s: Shift)
    ensures s.className == data.className && s.grade == data.grade && s.status == data.status
    ensures s.startTime == data.startTime && s.endTime == data.endTime
    ensures s.date == data.date && s.userId == Some(userId)
    ensures s.recurring <==> body.recurring == Present(true)
  {
    Shift(data.className, data.grade, data.status, data.date, data.startTime, data.endTime,
          body.recurring == Present(true), Some(userId))
  }

  /** How many records the expansion of `first` yields: one per remaining week of its month. */
  function WeeklyCount(first: Shift): (n: int)
    requires ValidDate(first.date)
    ensures 1 <= n <= 5
    ensures !first.recurring ==> n == 1
  {
    if first.recurring then (DaysInMonth(first.date.year, first.date.month) - first.date.day) / 7 + 1
    else 1
  }

  /**
   * The expansion in closed form: `first` itself, then for a recurring shift
   * the same record on day d + 7, d + 14, ... of the month as long as the
   * month has that day.
   */
  function WeeklyRecords(first: Shift): (r: seq<Shift>)
    requires ValidDate(first.date)
    ensures |r| == WeeklyCount(first)
    ensures r[0] == first
    ensures forall i :: 0 <= i < |r| ==> r[i] == first.(date := r[i].date)
    ensures forall i :: 0 <= i < |r| ==> ValidDate(r[i].date) && SameMonth(r[i].date, first.date)
  {
    WeeklyPrefix(first, WeeklyCount(first))
  }

  /**
   * The handler's push loop: push the first record and, when recurring,
   * keep moving a week ahead and pushing while the date is before the end of
   * the first date's month.
   */
  method ExpandShift(first: Shift) returns (records: seq<Shift>)
    requires ValidDate(first.date)
    ensures records == WeeklyRecords(first)
  {
    var shiftDate := first.date;
    var lastDayOfMonth := EndOfMonth(shiftDate);
    records := [first];
    WeeklyPrefixFirst(first);
    if first.recurring {
      shiftDate := AddWeeks(shiftDate, 1);
      while IsBefore(StartOfDay(shiftDate), lastDayOfMonth)
        invariant 1 <= |records| && WeeksFit(first.date, |records| - 1)
        invariant records == WeeklyPrefix(first, |records|)
        invariant shiftDate == AddWeeks(first.date, |records|)
        decreases DaysInMonth(first.date.year, first.date.month) + 7 - first.date.day - 7 * |records|
      {
        WeeklyLoopStep(first, |records|);
        records := records + [first.(date := shiftDate)];
        shiftDate := AddWeeks(shiftDate, 1);
      }
      WeeklyLoopExit(first, |records|);
    }
  }

  /** The month of `d` still has the day `k` weeks after it. */
  predicate WeeksFit(d: Date, k: int)
    requires ValidDate(d)
  {
    d.day + 7 * k <= DaysInMonth(d.year, d.month)
  }

  /** The first `k` records of the expansion. */
  function WeeklyPrefix(first: Shift, k: nat): seq<Shift>
  {
    var d := first.date;
    seq(k, i requires 0 <= i < k => first.(date := Date(d.year, d.month, d.day + 7 * i)))
  }

  lemma WeeklyPrefixFirst(first: Shift)
    ensures WeeklyPrefix(first, 1) == [first]
  {
    var d := first.date;
    assert first.(date := Date(d.year, d.month, d.day)) == first;
  }

  /**
   * The loop guard on the date `k` weeks after `d` holds exactly when the
   * month still has that day, and the date is then that day of the month.
   */
  lemma WeekAhead(d: Date, k: nat)
    requires ValidDate(d)
    ensures IsBefore(StartOfDay(AddWeeks(d, k)), EndOfMonth(d)) <==> WeeksFit(d, k)
    ensures WeeksFit(d, k) ==> AddWeeks(d, k) == Date(d.year, d.month, d.day + 7 * k)
  {
    if WeeksFit(d, k) {
      AddDaysWithinMonth(d, 7 * k);
    } else {
      AddDaysPastMonth(d, 7 * k);
    }
  }

  /** One pass of the loop pushes the record for week `k` and moves the date one week on. */
  lemma WeeklyLoopStep(first: Shift, k: nat)
    requires ValidDate(first.date)
    requires IsBefore(StartOfDay(AddWeeks(first.date, k)), EndOfMonth(first.date))
    ensures WeeksFit(first.date, k)
    ensures AddWeeks(AddWeeks(first.date, k), 1) == AddWeeks(first.date, k + 1)
    ensures WeeklyPrefix(first, k + 1) == WeeklyPrefix(first, k) + [first.(date := AddWeeks(first.date, k))]
  {
    WeekAhead(first.date, k);
    AddWeeksStep(first.date, k);
    WeeklyPrefixGrows(first, k);
  }

  lemma WeeklyPrefixGrows(first: Shift, k: nat)
    ensures var d := first.date;
            WeeklyPrefix(first, k + 1) == WeeklyPrefix(first, k) + [first.(date := Date(d.year, d.month, d.day + 7 * k))]
  {
    var d := first.date;
    var a := WeeklyPrefix(first, k + 1);
    var b := WeeklyPrefix(first, k) + [first.(date := Date(d.year, d.month, d.day + 7 * k))];
    assert |a| == |b|;
    forall i | 0 <= i < |a| ensures a[i] == b[i] {
    }
  }

  /** When the guard fails after `k` records, those are the whole expansion. */
  lemma WeeklyLoopExit(first: Shift, k: nat)
    requires ValidDate(first.date) && first.recurring && 1 <= k
    requires WeeksFit(first.date, k - 1)
    requires !IsBefore(StartOfDay(AddWeeks(first.date, k)), EndOfMonth(first.date))
    ensures WeeklyPrefix(first, k) == WeeklyRecords(first)
  {
    WeekAhead(first.date, k);
    var n := DaysInMonth(first.date.year, first.date.month) - first.date.day;
    assert 0 <= n && 7 * (k - 1) <= n < 7 * k;
    assert n / 7 == k - 1;
  }

  /** Consecutive records are exactly one week apart, each in the first date's month. */
  lemma WeeklyRecordsOneWeekApart(first: Shift, i: int)
    requires ValidDate(first.date)
    requires 0 < i < |WeeklyRecords(first)|
    ensures WeeklyRecords(first)[i].date == AddWeeks(WeeklyRecords(first)[i - 1].date, 1)
  {
    var r := WeeklyRecords(first);
    AddDaysWithinMonth(r[i - 1].date, 7);
  }

  /** Every record starts before `endOfMonth` of the first date, so the handler's guard held for it. */
  lemma WeeklyRecordsBeforeMonthEnd(first: Shift)
    requires ValidDate(first.date)
    ensures forall i :: 0 <= i < |WeeklyRecords(first)| ==>
              IsBefore(StartOfDay(WeeklyRecords(first)[i].date), EndOfMonth(first.date))
  {
    var r := WeeklyRecords(first);
    forall i | 0 <= i < |r|
      ensures IsBefore(StartOfDay(r[i].date), EndOfMonth(first.date))
    {
      StartOfDayBeforeEndOfMonth(first.date, r[i].date);
    }
  }

  /** One more week after the last record would not start before `endOfMonth`: nothing is missing. */
  lemma WeeklyRecordsComplete(first: Shift)
    requires ValidDate(first.date) && first.recurring
    ensures var last := WeeklyRecords(first)[|WeeklyRecords(first)| - 1];
            !IsBefore(StartOfDay(AddWeeks(last.date, 1)), EndOfMonth(first.date))
  {
    var d := first.date;
    var k := WeeklyCount(first);
    WeeklyCountBounds(first);
    WeekAhead(d, k - 1);
    assert WeeklyRecords(first)[k - 1].date == AddWeeks(d, k - 1);
    AddWeeksStep(d, k - 1);
    WeekAhead(d, k);
  }

  /** A recurring expansion of `k` records reaches week `k - 1` of the month but not week `k`. */
  lemma WeeklyCountBounds(first: Shift)
    requires ValidDate(first.date) && first.recurring
    ensures WeeksFit(first.date, WeeklyCount(first) - 1) && !WeeksFit(first.date, WeeklyCount(first))
  {
  }

  /** The first Monday of January 2025 repeats on the 13th, 20th and 27th, and nowhere else. */
  lemma WeeklyRecordsJanuaryExample(first: Shift)
    requires first.date == Date(2025, 1, 6) && first.recurring
    ensures |WeeklyRecords(first)| == 4
    ensures WeeklyRecords(first)[3].date == Date(2025, 1, 27)
  {
  }

  /**
   * The POST handler: 401 without a session user, 400 when the schema
   * rejects the body, otherwise the whole expansion appended in one batch.
   */
  method Post(table: ShiftTable, session: Option<SessionUser>, body: ShiftBody) returns (response: PostResponse)
    modifies table
    ensures SessionUserId(session).None? ==> response == Unauthorized && table.rows == old(table.rows)
    ensures SessionUserId(session).Some? && SafeParse(body).Failure? ==>
              response == ValidationFailed(SafeParse(body).issues) && table.rows == old(table.rows)
    ensures SessionUserId(session).Some? && SafeParse(body).Success? ==>
              var batch := WeeklyRecords(FirstRecord(SafeParse(body).data, body, SessionUserId(session).value));
              response == Created(|batch|) && table.rows == old(table.rows) + batch
  {
    var userId := SessionUserId(session);
    if userId.None? {
      return Unauthorized;
    }
    var validation := SafeParse(body);
    if validation.Failure? {
      return ValidationFailed(validation.issues);
    }
    var shiftsToCreate := ExpandShift(FirstRecord(validation.data, body, userId.value));
    table.CreateMany(shiftsToCreate);
    response := Created(|shiftsToCreate|);
  }

  /** The rows owned by `userId`, in table order. */
  function OwnedBy(rows: seq<Shift>, userId: string): (r: seq<Shift>)
    ensures forall s :: s in r <==> s in rows && s.userId == Some(userId)
    ensures |r| <= |rows|
  {
    if rows == [] then []
    else (if rows[0].userId == Some(userId) then [rows[0]] else []) + OwnedBy(rows[1..], userId)
  }

  /** Each of the user's rows is kept as often as it occurs, and no other row is kept. */
  lemma {:induction false} OwnedByCounts(rows: seq<Shift>, userId: string, x: Shift)
    ensures multiset(OwnedBy(rows, userId))[x] == if x.userId == Some(userId) then multiset(rows)[x] else 0
  {
    if rows != [] {
      OwnedByCounts(rows[1..], userId, x);
      assert rows == [rows[0]] + rows[1..];
    }
  }

  /** The filter keeps table order: filtering joined rows is joining the filtered parts. */
  lemma {:induction false} OwnedByConcat(a: seq<Shift>, b: seq<Shift>, userId: string)
    ensures OwnedBy(a + b, userId) == OwnedBy(a, userId) + OwnedBy(b, userId)
  {
    if a == [] {
      assert a + b == b;
    } else {
      assert (a + b)[1..] == a[1..] + b;
      OwnedByConcat(a[1..], b, userId);
    }
  }

  predicate SortedByDate(s: seq<Shift>) {
    forall i, j :: 0 <= i < j < |s| ==> DateLe(s[i].date, s[j].date)
  }

  lemma HeadIsEarliest(s: seq<Shift>)
    requires SortedByDate(s) && s != []
    ensures forall e :: e in s ==> DateLe(s[0].date, e.date)
  {
    forall e | e in s ensures DateLe(s[0].date, e.date) {
      var k :| 0 <= k < |s| && s[k] == e;
    }
  }

  /** Places `x` into a date-sorted list. */
  function InsertByDate(x: Shift, s: seq<Shift>): (r: seq<Shift>)
    requires SortedByDate(s)
    ensures SortedByDate(r)
    ensures multiset(r) == multiset(s) + multiset{x}
    ensures forall e :: e in r <==> e == x || e in s
  {
    if s == [] then [x]
    else if DateLe(x.date, s[0].date) then
      HeadIsEarliest(s);
      assert forall j :: 0 <= j < |s| ==> s[j] in s;
      [x] + s
    else
      assert s == [s[0]] + s[1..];
      var rest := InsertByDate(x, s[1..]);
      HeadIsEarliest(s);
      assert forall e :: e in rest ==> DateLe(s[0].date, e.date);
      assert forall j :: 0 <= j < |rest| ==> rest[j] in rest;
      [s[0]] + rest
  }

  /** `orderBy: { date: "asc" }`. */
  function SortByDate(s: seq<Shift>): (r: seq<Shift>)
    ensures SortedByDate(r)
    ensures multiset(r) == multiset(s)
  {
    if s == [] then []
    else
      assert s == [s[0]] + s[1..];
      InsertByDate(s[0], SortByDate(s[1..]))
  }

  /** The GET handler: 401 without a session user, otherwise that user's rows by ascending date. */
  function Get(rows: seq<Shift>, session: Option<SessionUser>): (r: GetResponse)
    ensures r.GetUnauthorized? <==> SessionUserId(session).None?
    ensures r.Listed? ==> SortedByDate(r.shifts)
    ensures r.Listed? ==> multiset(r.shifts) == multiset(OwnedBy(rows, SessionUserId(session).value))
    ensures r.Listed? ==> forall s :: s in r.shifts <==> s in rows && s.userId == SessionUserId(session)
  {
    var userId := SessionUserId(session);
    if userId.None? then GetUnauthorized
    else
      var owned := OwnedBy(rows, userId.value);
      var sorted := SortByDate(owned);
      assert forall s :: s in sorted <==> s in multiset(sorted);
      Listed(sorted)
  }
}
