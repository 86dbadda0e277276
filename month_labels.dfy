/**
 * The navigation bar's invoices link: the current month written as
 * `YYYY-MM`, the month zero-padded to two digits.
 */
module NavBar {
  import opened Calendar
  import opened DecimalText

  /** `Date.prototype.getMonth`: the month counted from zero. */
  function JsGetMonth(d: Date): int { d.month - 1 }

  /** `String(getMonth() + 1).padStart(2, "0")`. */
  function MonthPart(now: Date): (mm: string)
    requires ValidDate(now)
    ensures |mm| == 2 && NoDash(mm)
  {
    PadStart(NatText(JsGetMonth(now) + 1), 2, '0')
  }

  /** The month part is two digits denoting the month, with a leading zero exactly before October. */
  lemma MonthPartDigits(now: Date)
    requires ValidDate(now)
    ensures AllDigits(MonthPart(now)) && DigitsValue(MonthPart(now)) == now.month
    ensures MonthPart(now)[0] == '0' <==> now.month < 10
  {
    PadStartValue(now.month, 2);
    NatTextRoundTrip(now.month);
  }

  /** `getCurrentMonth`: the year, a dash and the padded month. */
  function CurrentMonth(now: Date): (text: string)
    requires ValidDate(now) && now.year >= 0
    ensures |text| == |NatText(now.year)| + 3
    ensures text[..|NatText(now.year)|] == NatText(now.year) && text[|NatText(now.year)|] == '-'
    ensures text[|NatText(now.year)| + 1..] == MonthPart(now)
  {
    var year := NatText(now.year);
    var month := MonthPart(now);
    assert (year + "-" + month)[..|year|] == year;
    assert (year + "-" + month)[|year| + 1..] == month;
    year + "-" + month
  }

  /** The Invoices link. */
  function InvoicesLink(now: Date): (href: string)
    requires ValidDate(now) && now.year >= 0
    ensures |href| > 10 && href[..10] == "/invoices/" && href[10..] == CurrentMonth(now)
  {
    "/invoices/" + CurrentMonth(now)
  }

  /** Two dates give the same label exactly when they fall in the same month. */
  lemma CurrentMonthIdentifiesMonth(a: Date, b: Date)
    requires ValidDate(a) && a.year >= 0 && ValidDate(b) && b.year >= 0
    ensures CurrentMonth(a) == CurrentMonth(b) <==> SameMonth(a, b)
  {
    if CurrentMonth(a) == CurrentMonth(b) {
      DashJoinSplit(NatText(a.year), MonthPart(a), NatText(b.year), MonthPart(b));
      NatTextInjective(a.year, b.year);
      MonthPartDigits(a);
      MonthPartDigits(b);
    }
  }

  /** A month before October gets its leading zero. */
  lemma MarchExample()
    ensures CurrentMonth(Date(2025, 3, 14)) == "2025-03"
  {
    assert NatText(2025) == "2025" by {
      assert NatText(2) == "2" && NatText(20) == "20" && NatText(202) == "202";
    }
    assert PadStart("3", 2, '0') == "03";
  }

  /** A two-digit month is written as it is. */
  lemma DecemberExample()
    ensures CurrentMonth(Date(2024, 12, 31)) == "2024-12"
  {
    assert NatText(2024) == "2024" by {
      assert NatText(2) == "2" && NatText(20) == "20" && NatText(202) == "202";
    }
    var twelve := NatText(12);
    assert twelve == "12" by {
      assert NatText(1) == "1";
    }
    assert MonthPart(Date(2024, 12, 31)) == PadStart(twelve, 2, '0') == "12";
  }
}

/**
 * The dashboard page: who is sent elsewhere, and the invoices link, whose
 * month is written `YYYY-M` without padding.
 */
module Dashboard {
  import opened Wrappers
  import opened Calendar
  import opened DecimalText
  import NavBar

  /** `getCurrentMonthYear`: the year, a dash and the unpadded month. */
  function CurrentMonthYear(now: Date): (text: string)
    requires ValidDate(now) && now.year >= 0
    ensures |text| == |NatText(now.year)| + (if now.month < 10 then 2 else 3)
    ensures text[..|NatText(now.year)|] == NatText(now.year) && text[|NatText(now.year)|] == '-'
    ensures text[|NatText(now.year)| + 1..] == NatText(NavBar.JsGetMonth(now) + 1)
  {
    NatText(now.year) + "-" + NatText(NavBar.JsGetMonth(now) + 1)
  }

  /** Two dates give the same label exactly when they fall in the same month. */
  lemma CurrentMonthYearIdentifiesMonth(a: Date, b: Date)
    requires ValidDate(a) && a.year >= 0 && ValidDate(b) && b.year >= 0
    ensures CurrentMonthYear(a) == CurrentMonthYear(b) <==> SameMonth(a, b)
  {
    if CurrentMonthYear(a) == CurrentMonthYear(b) {
      DashJoinSplit(NatText(a.year), NatText(a.month), NatText(b.year), NatText(b.month));
      NatTextInjective(a.year, b.year);
      NatTextInjective(a.month, b.month);
    }
  }

  /** From October on, the padded month is the plain month. */
  lemma TwoDigitMonthUnpadded(now: Date)
    requires ValidDate(now) && now.month >= 10
    ensures NavBar.MonthPart(now) == NatText(now.month)
  {
    NatTextWide(now.month);
  }

  /** The dashboard's label and the navigation bar's agree exactly from October on. */
  lemma LabelsAgreeFromOctober(now: Date)
    requires ValidDate(now) && now.year >= 0
    ensures CurrentMonthYear(now) == NavBar.CurrentMonth(now) <==> now.month >= 10
  {
    if now.month >= 10 {
      TwoDigitMonthUnpadded(now);
    } else {
      assert |CurrentMonthYear(now)| != |NavBar.CurrentMonth(now)|;
    }
  }

  /** The role a session carries; an empty role is as good as none. */
  datatype Session = Session(role: Option<string>)

  datatype Page = RedirectTo(path: string) | Render(invoicesLink: string)

  /** The page's decision: sign in first, then complete the profile, then the dashboard. */
  function DashboardPage(session: Option<Session>, now: Date): (p: Page)
    requires ValidDate(now) && now.year >= 0
    ensures p == RedirectTo("/login") <==> session.None?
    ensures p == RedirectTo("/login/complete-profile") <==>
              session.Some? && (session.value.role.None? || session.value.role.value == "")
    ensures p.Render? <==> session.Some? && session.value.role.Some? && session.value.role.value != ""
    ensures p.Render? ==> p.invoicesLink == "/invoices/" + CurrentMonthYear(now)
  {
    if session.None? then RedirectTo("/login")
    else if session.value.role.None? || session.value.role.value == "" then RedirectTo("/login/complete-profile")
    else Render("/invoices/" + CurrentMonthYear(now))
  }

  /** The example from the helper's comment: March 2025 is written "2025-3". */
  lemma MarchExample()
    ensures CurrentMonthYear(Date(2025, 3, 14)) == "2025-3"
  {
    assert NatText(2025) == "2025" by {
      assert NatText(2) == "2" && NatText(20) == "20" && NatText(202) == "202";
    }
  }
}
