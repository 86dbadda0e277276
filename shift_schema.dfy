/**
 * The shift-creation schema (`createShiftSchema`): what a request body must
 * look like before the shift routes act on it, and the value the schema
 * produces when it accepts one.
 */
module ShiftSchema {
  import opened Wrappers
  import opened Calendar
  import opened Shifts
  import opened DecimalText

  /** A JSON boolean field that may be absent or hold something else. */
  datatype Flag = Absent | Present(b: bool) | NotBoolean

  /**
   * A request body as far as the schema looks at it. A string field is
   * `None` when it is missing or not a string; `date` is `None` when the value
   * does not coerce to a valid date.
   */
  datatype ShiftBody = ShiftBody(
    className: Option<string>,
    grade: Option<string>,
    status: Option<string>,
    date: Option<Date>,
    startTime: Option<string>,
    endTime: Option<string>,
    recurring: Flag)

  /** The schema's keys, in declaration order. */
  datatype Field = ClassField | GradeField | StatusField | DateField | StartTimeField | EndTimeField | RecurringField

  /** What a successful parse yields. */
  datatype ShiftData = ShiftData(
    className: string,
    grade: string,
    status: Status,
    date: Date,
    startTime: string,
    endTime: string,
    recurring: bool)

  datatype ParseResult = Success(data: ShiftData) | Failure(issues: seq<Field>)

  /** `z.string().min(1).max(255)`. */
  predicate BoundedText(s: Option<string>) {
    s.Some? && 1 <= |s.value| <= 255
  }

  /** The hour alternative `[0-1]?[0-9]|2[0-3]`. */
  predicate HourText(h: string) {
    (|h| == 1 && IsDigit(h[0]))
    || (|h| == 2 && '0' <= h[0] <= '1' && IsDigit(h[1]))
    || (|h| == 2 && h[0] == '2' && '0' <= h[1] <= '3')
  }

  /** The minute part `[0-5][0-9]`. */
  predicate MinuteText(m: string) {
    |m| == 2 && '0' <= m[0] <= '5' && IsDigit(m[1])
  }

  /**
   * The anchored pattern `^([0-1]?[0-9]|2[0-3]):[0-5][0-9]$`: an hour part, a
   * colon, a minute part. Neither part contains a colon, so the colon can
   * only be the third character from the end.
   */
  predicate TimeText(s: string) {
    |s| >= 3 && s[|s| - 3] == ':' && HourText(s[..|s| - 3]) && MinuteText(s[|s| - 2..])
  }

  predicate TimeField(s: Option<string>) {
    s.Some? && TimeText(s.value)
  }

  predicate RecurringOk(f: Flag) {
    !f.NotBoolean?
  }

  predicate FieldOk(b: ShiftBody, f: Field) {
    match f
    case ClassField => BoundedText(b.className)
    case GradeField => BoundedText(b.grade)
    case StatusField => b.status.Some? && StatusFromName(b.status.value).Some?
    case DateField => b.date.Some? && ValidDate(b.date.value)
    case StartTimeField => TimeField(b.startTime)
    case EndTimeField => TimeField(b.endTime)
    case RecurringField => RecurringOk(b.recurring)
  }

  const SchemaFields: seq<Field> :=
    [ClassField, GradeField, StatusField, DateField, StartTimeField, EndTimeField, RecurringField]

  lemma SchemaListsEveryField()
    ensures forall f: Field :: f in SchemaFields
  {
    forall f: Field ensures f in SchemaFields {
      match f
      case ClassField =>
      case GradeField =>
      case StatusField =>
      case DateField =>
      case StartTimeField =>
      case EndTimeField =>
      case RecurringField =>
    }
  }

  /** The failing keys of `b`, in schema order. */
  function Issues(b: ShiftBody, fields: seq<Field>): (r: seq<Field>)
    ensures forall f :: f in r <==> f in fields && !FieldOk(b, f)
  {
    if fields == [] then []
    else (if FieldOk(b, fields[0]) then [] else [fields[0]]) + Issues(b, fields[1..])
  }

  /**
   * `createShiftSchema.safeParse`: every key is checked and every failing
   * key reported; an absent `recurring` becomes `false`.
   */
  function SafeParse(b: ShiftBody): (r: ParseResult)
    ensures r.Success? <==> forall f :: FieldOk(b, f)
    ensures r.Failure? ==> r.issues != [] && forall f :: f in r.issues <==> !FieldOk(b, f)
    ensures r.Success? ==>
      && Some(r.data.className) == b.className && Some(r.data.grade) == b.grade
      && Some(StatusName(r.data.status)) == b.status && Some(r.data.date) == b.date && ValidDate(r.data.date)
      && Some(r.data.startTime) == b.startTime && Some(r.data.endTime) == b.endTime
      && r.data.recurring == (b.recurring == Present(true))
  {
    SchemaListsEveryField();
    var issues := Issues(b, SchemaFields);
    if issues != [] then assert issues[0] in issues; Failure(issues)
    else
      assert FieldOk(b, ClassField) && FieldOk(b, GradeField) && FieldOk(b, StatusField) && FieldOk(b, DateField);
      assert FieldOk(b, StartTimeField) && FieldOk(b, EndTimeField);
      Success(ShiftData(
        b.className.value, b.grade.value, StatusFromName(b.status.value).value, b.date.value,
        b.startTime.value, b.endTime.value,
        b.recurring == Present(true)))
  }

  /** The decimal text of a number below 100, zero-padded to two digits when `padded`. */
  function TwoDigitText(n: int, padded: bool): (s: string)
    requires 0 <= n < 100
  {
    var tens := ('0' as int + n / 10) as char;
    var ones := ('0' as int + n % 10) as char;
    if n < 10 && !padded then [ones] else [tens, ones]
  }

  /** A clock time written as the hour (with or without a leading zero), a colon and two minute digits. */
  function FormatTime(h: int, m: int, padded: bool): string
    requires 0 <= h <= 23 && 0 <= m <= 59
  {
    TwoDigitText(h, padded) + ":" + TwoDigitText(m, true)
  }

  function HourValue(s: string): int
    requires TimeText(s)
  {
    var h := s[..|s| - 3];
    if |h| == 1 then DigitValue(h[0]) else 10 * DigitValue(h[0]) + DigitValue(h[1])
  }

  function MinuteValue(s: string): int
    requires TimeText(s)
  {
    10 * DigitValue(s[|s| - 2]) + DigitValue(s[|s| - 1])
  }

  /** Every accepted time is an hour 0-23 and a minute 0-59 written out. */
  lemma TimeTextSound(s: string)
    requires TimeText(s)
    ensures 0 <= HourValue(s) <= 23 && 0 <= MinuteValue(s) <= 59
    ensures s == FormatTime(HourValue(s), MinuteValue(s), |s| == 5)
  {
    var h := s[..|s| - 3];
    var hv := HourValue(s);
    var mv := MinuteValue(s);
    assert TwoDigitText(mv, true) == s[|s| - 2..];
    if |h| == 1 {
      assert TwoDigitText(hv, false) == h;
    } else {
      assert TwoDigitText(hv, true) == h;
    }
    assert s == h + ":" + s[|s| - 2..];
  }

  /** Every hour 0-23 and minute 0-59, with or without a leading zero on the hour, is accepted. */
  lemma TimeTextComplete(h: int, m: int, padded: bool)
    requires 0 <= h <= 23 && 0 <= m <= 59
    ensures TimeText(FormatTime(h, m, padded))
    ensures HourValue(FormatTime(h, m, padded)) == h && MinuteValue(FormatTime(h, m, padded)) == m
  {
    var s := FormatTime(h, m, padded);
    var hs := TwoDigitText(h, padded);
    assert s[..|s| - 3] == hs;
    assert s[|s| - 2..] == TwoDigitText(m, true);
  }

  /** Sample inputs from the pattern's intent. */
  lemma TimeTextExamples()
    ensures TimeText("9:05") && TimeText("09:05") && TimeText("23:59") && TimeText("0:00")
    ensures !TimeText("24:00") && !TimeText("12:60") && !TimeText("9:5") && !TimeText("123:45")
  {
    assert "9:05"[..1] == "9" && "9:05"[2..] == "05";
    assert "09:05"[..2] == "09" && "09:05"[3..] == "05";
    assert "23:59"[..2] == "23" && "23:59"[3..] == "59";
    assert "0:00"[..1] == "0" && "0:00"[2..] == "00";
    assert "24:00"[..2] == "24";
    assert "12:60"[3..] == "60";
    assert "123:45"[..3] == "123";
  }

  /** No key relates the two times: an end before the start is accepted. */
  lemma EndBeforeStartAccepted(b: ShiftBody)
    requires b.startTime == Some("10:00") && b.endTime == Some("9:00")
    requires BoundedText(b.className) && BoundedText(b.grade)
    requires b.status == Some("UPCOMING") && b.date.Some? && ValidDate(b.date.value)
    requires b.recurring == Absent
    ensures SafeParse(b).Success? && !SafeParse(b).data.recurring
  {
    assert "10:00"[..2] == "10" && "10:00"[3..] == "00";
    assert "9:00"[..1] == "9" && "9:00"[2..] == "00";
    assert forall f :: FieldOk(b, f);
  }
}
