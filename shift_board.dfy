/**
 * The shift-management page: a list of shifts kept in the page's own state,
 * a draft for the next shift, completed/denied marks set by id, and the
 * split of the list into upcoming and past shifts.
 */
module ShiftBoard {
  import opened Wrappers
  import opened Calendar
  import opened DecimalText

  datatype StatusChoice = Completed | Denied

  /**
   * A shift on the page. `date` is `None` for an invalid `Date`; the two
   * marks are `None` until a status is first set.
   */
  datatype LocalShift = LocalShift(
    id: string,
    date: Option<Instant>,
    startTime: string,
    endTime: string,
    isCompleted: Option<bool>,
    isDenied: Option<bool>)

  /** The three inputs of the "Schedule New Shift" card. */
  datatype Draft = Draft(date: string, startTime: string, endTime: string)

  const EmptyDraft := Draft("", "", "")

  /**
   * `new Date(value)` on the value of a date input: `YYYY-MM-DD` names the
   * start of that day, anything else is an invalid date.
   */
  function ParseDateInput(s: string): (r: Option<Instant>)
    ensures r.Some? ==> ValidInstant(r.value) && r.value.millis == 0
  {
    if |s| == 10 && s[4] == '-' && s[7] == '-'
       && AllDigits(s[..4]) && AllDigits(s[5..7]) && AllDigits(s[8..])
       && ValidDate(Date(DigitsValue(s[..4]), DigitsValue(s[5..7]), DigitsValue(s[8..])))
    then Some(StartOfDay(Date(DigitsValue(s[..4]), DigitsValue(s[5..7]), DigitsValue(s[8..]))))
    else None
  }

  /** The value a date input holds for a chosen day. */
  function DateInputValue(d: Date): (s: string)
    requires ValidDate(d) && 0 <= d.year <= 9999
  {
    PadStart(NatText(d.year), 4, '0') + "-" + PadStart(NatText(d.month), 2, '0') + "-" + PadStart(NatText(d.day), 2, '0')
  }

  lemma {:induction false} NatTextShort(n: nat, k: nat)
    requires n < Pow10(k) && k >= 1
    ensures |NatText(n)| <= k
  {
    if n >= 10 {
      NatTextShort(n / 10, k - 1);
    }
  }

  lemma PaddedPart(n: nat, width: nat)
    requires 1 <= width <= 4 && n < Pow10(width)
    ensures |PadStart(NatText(n), width, '0')| == width
    ensures AllDigits(PadStart(NatText(n), width, '0')) && DigitsValue(PadStart(NatText(n), width, '0')) == n
  {
    NatTextShort(n, width);
    PadStartValue(n, width);
  }

  /** The three fields of a `YYYY-MM-DD` text sit at fixed places. */
  lemma DateTextFields(y: string, m: string, dd: string)
    requires |y| == 4 && |m| == 2 && |dd| == 2
    ensures var s := y + "-" + m + "-" + dd;
      |s| == 10 && s[4] == '-' && s[7] == '-' && s[..4] == y && s[5..7] == m && s[8..] == dd
  {
  }

  /** Every day a date input can hold is read back as the start of that day. */
  lemma DateInputRoundTrip(d: Date)
    requires ValidDate(d) && 0 <= d.year <= 9999
    ensures ParseDateInput(DateInputValue(d)) == Some(StartOfDay(d))
  {
    var y := PadStart(NatText(d.year), 4, '0');
    var m := PadStart(NatText(d.month), 2, '0');
    var dd := PadStart(NatText(d.day), 2, '0');
    PaddedPart(d.year, 4);
    PaddedPart(d.month, 2);
    PaddedPart(d.day, 2);
    DateTextFields(y, m, dd);
  }

  /** An empty date input gives an invalid date. */
  lemma EmptyDateInvalid()
    ensures ParseDateInput("") == None
  {
  }

  /** `isPast(date)`: the date lies before now; an invalid date never does. */
  predicate IsPast(date: Option<Instant>, now: Instant) {
    date.Some? && IsBefore(date.value, now)
  }

  /** The shift with both marks set for `status`. */
  function Marked(s: LocalShift, status: StatusChoice): LocalShift {
    s.(isCompleted := Some(status == Completed), isDenied := Some(status == Denied))
  }

  /** `shifts.map(...)` in `handleShiftStatus`: mark every shift with the given id. */
  function SetStatus(shifts: seq<LocalShift>, id: string, status: StatusChoice): (r: seq<LocalShift>)
    ensures |r| == |shifts|
  {
    if shifts == [] then []
    else [if shifts[0].id == id then Marked(shifts[0], status) else shifts[0]] + SetStatus(shifts[1..], id, status)
  }

  /**
   * A shift with the id gets `isCompleted` exactly for Completed and
   * `isDenied` exactly for Denied, so never both; every other field stays;
   * a shift with another id is untouched.
   */
  lemma {:induction false} SetStatusEffect(shifts: seq<LocalShift>, id: string, status: StatusChoice, i: nat)
    requires i < |shifts|
    ensures var r := SetStatus(shifts, id, status);
      if shifts[i].id == id then
        && r[i].isCompleted == Some(status == Completed)
        && r[i].isDenied == Some(status == Denied)
        && !(r[i].isCompleted == Some(true) && r[i].isDenied == Some(true))
        && r[i].(isCompleted := shifts[i].isCompleted, isDenied := shifts[i].isDenied) == shifts[i]
      else r[i] == shifts[i]
  {
    if i > 0 {
      SetStatusEffect(shifts[1..], id, status, i - 1);
    }
  }

  /** The later of two statuses set on the same id is the one that counts; setting one twice is setting it once. */
  lemma {:induction false} SetStatusLastWins(shifts: seq<LocalShift>, id: string, first: StatusChoice, second: StatusChoice)
    ensures SetStatus(SetStatus(shifts, id, first), id, second) == SetStatus(shifts, id, second)
  {
    if shifts != [] {
      SetStatusLastWins(shifts[1..], id, first, second);
      var once := SetStatus(shifts, id, first);
      assert once[1..] == SetStatus(shifts[1..], id, first);
    }
  }

  lemma SetStatusIdempotent(shifts: seq<LocalShift>, id: string, status: StatusChoice)
    ensures SetStatus(SetStatus(shifts, id, status), id, status) == SetStatus(shifts, id, status)
  {
    SetStatusLastWins(shifts, id, status, status);
  }

  /** The shifts of `shifts` on the given side of now, in list order: `filter` with `isPast` or its negation. */
  function Side(shifts: seq<LocalShift>, now: Instant, past: bool): (r: seq<LocalShift>)
    ensures |r| <= |shifts|
  {
    if shifts == [] then []
    else (if IsPast(shifts[0].date, now) == past then [shifts[0]] else []) + Side(shifts[1..], now, past)
  }

  /** A shift is on a side exactly when it is in the list and on that side of now. */
  lemma {:induction false} SideMembers(shifts: seq<LocalShift>, now: Instant, past: bool, x: LocalShift)
    ensures x in Side(shifts, now, past) <==> x in shifts && IsPast(x.date, now) == past
  {
    if shifts != [] {
      SideMembers(shifts[1..], now, past, x);
      assert shifts == [shifts[0]] + shifts[1..];
    }
  }

  function UpcomingShifts(shifts: seq<LocalShift>, now: Instant): seq<LocalShift> {
    Side(shifts, now, false)
  }

  function PastShifts(shifts: seq<LocalShift>, now: Instant): seq<LocalShift> {
    Side(shifts, now, true)
  }

  /** Together the two sides hold every shift exactly as often as the list does. */
  lemma {:induction false} SidesPartition(shifts: seq<LocalShift>, now: Instant)
    ensures multiset(UpcomingShifts(shifts, now)) + multiset(PastShifts(shifts, now)) == multiset(shifts)
  {
    if shifts != [] {
      var rest := shifts[1..];
      SidesPartition(rest, now);
      assert multiset(shifts) == multiset([shifts[0]]) + multiset(rest) by {
        assert shifts == [shifts[0]] + rest;
      }
      if IsPast(shifts[0].date, now) {
        assert UpcomingShifts(shifts, now) == UpcomingShifts(rest, now);
        assert PastShifts(shifts, now) == [shifts[0]] + PastShifts(rest, now);
      } else {
        assert UpcomingShifts(shifts, now) == [shifts[0]] + UpcomingShifts(rest, now);
        assert PastShifts(shifts, now) == PastShifts(rest, now);
      }
    }
  }

  /** Each side keeps the list's order: splitting the list splits each side the same way. */
  lemma {:induction false} SideConcat(a: seq<LocalShift>, b: seq<LocalShift>, now: Instant, past: bool)
    ensures Side(a + b, now, past) == Side(a, now, past) + Side(b, now, past)
  {
    if a == [] {
      assert a + b == b;
    } else {
      assert (a + b)[1..] == a[1..] + b;
      SideConcat(a[1..], b, now, past);
    }
  }

  /** Marking a shift never moves it between the two sides. */
  lemma {:induction false} SetStatusKeepsSides(shifts: seq<LocalShift>, id: string, status: StatusChoice, now: Instant, past: bool)
    ensures Side(SetStatus(shifts, id, status), now, past) == SetStatus(Side(shifts, now, past), id, status)
  {
    if shifts != [] {
      SetStatusKeepsSides(shifts[1..], id, status, now, past);
      var r := SetStatus(shifts, id, status);
      assert r[1..] == SetStatus(shifts[1..], id, status);
      assert r[0].date == shifts[0].date;
      var side := Side(shifts, now, past);
      if IsPast(shifts[0].date, now) == past {
        assert side[0] == shifts[0] && side[1..] == Side(shifts[1..], now, past);
      } else {
        assert side == Side(shifts[1..], now, past);
      }
    }
  }

  /** The page's state. */
  class ShiftPage {
    var shifts: seq<LocalShift>
    var newShift: Draft

    constructor ()
      ensures shifts == [] && newShift == EmptyDraft
    {
      shifts, newShift := [], EmptyDraft;
    }

    method SetDraftDate(value: string)
      modifies this`newShift
      ensures newShift == old(newShift).(date := value)
    {
      newShift := newShift.(date := value);
    }

    method SetDraftStartTime(value: string)
      modifies this`newShift
      ensures newShift == old(newShift).(startTime := value)
    {
      newShift := newShift.(startTime := value);
    }

    method SetDraftEndTime(value: string)
      modifies this`newShift
      ensures newShift == old(newShift).(endTime := value)
    {
      newShift := newShift.(endTime := value);
    }

    /**
     * `handleAddShift`: append one shift built from the draft under the
     * given id, and clear the draft.
     */
    method HandleAddShift(id: string)
      modifies this
      ensures |shifts| == |old(shifts)| + 1 && shifts[..|old(shifts)|] == old(shifts)
      ensures shifts[|old(shifts)|] ==
                LocalShift(id, ParseDateInput(old(newShift).date), old(newShift).startTime, old(newShift).endTime, None, None)
      ensures newShift == EmptyDraft
    {
      var shift := LocalShift(id, ParseDateInput(newShift.date), newShift.startTime, newShift.endTime, None, None);
      shifts := shifts + [shift];
      newShift := EmptyDraft;
    }

    /** `handleShiftStatus`. */
    method HandleShiftStatus(id: string, status: StatusChoice)
      modifies this`shifts
      ensures shifts == SetStatus(old(shifts), id, status)
    {
      shifts := SetStatus(shifts, id, status);
    }
  }
}
