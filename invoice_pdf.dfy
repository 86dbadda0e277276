/**
 * The figures of the invoice document: a fixed number of hours per shift,
 * the hourly rate with its fallback, one table row per shift, and the
 * total row.
 */
module InvoicePdf {
  import opened Wrappers
  import opened Shifts

  const HoursPerShift: int := 2
  const FallbackRate: int := 40
  const RowPrefix: string := "Adi Substitute - "

  /** `user.wagePerHour || 40`: a missing or zero rate falls back to 40. */
  function EffectiveRate(wagePerHour: Option<int>): (rate: int)
    ensures rate != 0
    ensures wagePerHour.Some? && wagePerHour.value != 0 ==> rate == wagePerHour.value
    ensures wagePerHour.None? || wagePerHour.value == 0 ==> rate == FallbackRate
  {
    if wagePerHour.None? || wagePerHour.value == 0 then FallbackRate else wagePerHour.value
  }

  function TotalHours(shifts: seq<Shift>): int {
    |shifts| * HoursPerShift
  }

  function TotalWage(shifts: seq<Shift>, wagePerHour: Option<int>): int {
    TotalHours(shifts) * EffectiveRate(wagePerHour)
  }

  /** A row of the class table. The day and date columns are formatting and are not modelled. */
  datatype Row = Row(description: string, hours: int, wage: int)

  /** The row `shifts.map` draws for one shift. */
  function ShiftRow(s: Shift, rate: int): Row {
    Row(RowPrefix + s.className, HoursPerShift, HoursPerShift * rate)
  }

  /** The data rows, one per shift, in the order given. */
  function Rows(shifts: seq<Shift>, rate: int): (rows: seq<Row>)
    ensures |rows| == |shifts|
  {
    if shifts == [] then [] else [ShiftRow(shifts[0], rate)] + Rows(shifts[1..], rate)
  }

  /** The class-details section: a table with a total row, or the "no shifts" text. */
  datatype ClassDetails = NoShiftsFound | Table(rows: seq<Row>, totalHours: int, totalWage: int)

  function ClassDetailsSection(shifts: seq<Shift>, wagePerHour: Option<int>): (c: ClassDetails)
    ensures c.NoShiftsFound? <==> |shifts| == 0
    ensures c.Table? ==> c.rows == Rows(shifts, EffectiveRate(wagePerHour))
    ensures c.Table? ==> c.totalHours == TotalHours(shifts) && c.totalWage == TotalWage(shifts, wagePerHour)
  {
    if |shifts| > 0 then
      Table(Rows(shifts, EffectiveRate(wagePerHour)), TotalHours(shifts), TotalWage(shifts, wagePerHour))
    else NoShiftsFound
  }

  function SumHours(rows: seq<Row>): int {
    if rows == [] then 0 else rows[0].hours + SumHours(rows[1..])
  }

  function SumWages(rows: seq<Row>): int {
    if rows == [] then 0 else rows[0].wage + SumWages(rows[1..])
  }

  /** Row `i` belongs to shift `i`: two hours, two hours' pay, and the shift's class in the description. */
  lemma {:induction false} RowOfShift(shifts: seq<Shift>, rate: int, i: nat)
    requires i < |shifts|
    ensures Rows(shifts, rate)[i].hours == HoursPerShift
    ensures Rows(shifts, rate)[i].wage == HoursPerShift * rate
    ensures Rows(shifts, rate)[i].description == RowPrefix + shifts[i].className
  {
    if i > 0 {
      RowOfShift(shifts[1..], rate, i - 1);
    }
  }

  /** Rows follow the list: the rows of a joined list are the joined rows. */
  lemma {:induction false} RowsConcat(a: seq<Shift>, b: seq<Shift>, rate: int)
    ensures Rows(a + b, rate) == Rows(a, rate) + Rows(b, rate)
  {
    if a == [] {
      assert a + b == b;
    } else {
      assert (a + b)[1..] == a[1..] + b;
      RowsConcat(a[1..], b, rate);
    }
  }

  /** The rows add up to the total row: hours and wages alike. */
  lemma {:induction false} RowsAddUp(shifts: seq<Shift>, rate: int)
    ensures SumHours(Rows(shifts, rate)) == |shifts| * HoursPerShift
    ensures SumWages(Rows(shifts, rate)) == |shifts| * HoursPerShift * rate
  {
    if shifts != [] {
      RowsAddUp(shifts[1..], rate);
    }
  }

  /** In the table, the total row is the sum of the data rows, and the total wage is the total hours at the rate. */
  lemma TableTotalsAgree(shifts: seq<Shift>, wagePerHour: Option<int>)
    requires |shifts| > 0
    ensures var c := ClassDetailsSection(shifts, wagePerHour);
      && c.Table?
      && |c.rows| == |shifts|
      && c.totalHours == SumHours(c.rows) == 2 * |shifts|
      && c.totalWage == SumWages(c.rows) == c.totalHours * EffectiveRate(wagePerHour)
  {
    RowsAddUp(shifts, EffectiveRate(wagePerHour));
  }
}
