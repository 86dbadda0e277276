/**
 * The profile-completion form: the ordered checks of `validateForm`, the
 * digit-only input filters, and the submit handler that sends the profile
 * only when every check passes.
 */
module CompleteProfile {
  import opened Wrappers
  import opened DecimalText

  /** `value.replace(/\D/g, "")`: drop every character that is not a digit. */
  function KeepDigits(s: string): (r: string)
    ensures AllDigits(r) && |r| <= |s|
    ensures AllDigits(s) ==> r == s
  {
    if s == [] then []
    else (if IsDigit(s[0]) then [s[0]] else []) + KeepDigits(s[1..])
  }

  /** The filter keeps every digit as often as it occurs and nothing else. */
  lemma {:induction false} KeepDigitsCounts(s: string, c: char)
    ensures multiset(KeepDigits(s))[c] == if IsDigit(c) then multiset(s)[c] else 0
  {
    if s != [] {
      KeepDigitsCounts(s[1..], c);
      assert s == [s[0]] + s[1..];
    }
  }

  /** Filtering a pasted or typed text piecewise gives the same digits in the same order. */
  lemma {:induction false} KeepDigitsConcat(a: string, b: string)
    ensures KeepDigits(a + b) == KeepDigits(a) + KeepDigits(b)
  {
    if a != [] {
      assert (a + b)[1..] == a[1..] + b;
      KeepDigitsConcat(a[1..], b);
    } else {
      assert a + b == b;
    }
  }

  /** Filtering an already filtered value changes nothing. */
  lemma KeepDigitsIdempotent(s: string)
    ensures KeepDigits(KeepDigits(s)) == KeepDigits(s)
  {
  }

  /** `/^\d{n}$/` and `/^\d{lo,hi}$/`: only digits, with a length in range. */
  predicate DigitCount(s: string, lo: nat, hi: nat) {
    lo <= |s| <= hi && AllDigits(s)
  }

  /** The characters `String.prototype.trim` removes: ECMAScript white space and line terminators. */
  predicate IsJsWhitespace(c: char) {
    c == '\t' || c == '\n' || c == '\U{000B}' || c == '\U{000C}' || c == '\r' || c == ' '
    || c == '\U{00A0}' || c == '\U{1680}' || ('\U{2000}' <= c <= '\U{200A}')
    || c == '\U{2028}' || c == '\U{2029}' || c == '\U{202F}' || c == '\U{205F}'
    || c == '\U{3000}' || c == '\U{FEFF}'
  }

  function TrimStart(s: string): (r: string)
    ensures |r| <= |s| && r == s[|s| - |r|..]
    ensures r != [] ==> !IsJsWhitespace(r[0])
    ensures forall i :: 0 <= i < |s| - |r| ==> IsJsWhitespace(s[i])
  {
    if s != [] && IsJsWhitespace(s[0]) then TrimStart(s[1..]) else s
  }

  function TrimEnd(s: string): (r: string)
    ensures |r| <= |s| && r == s[..|r|]
    ensures r != [] ==> !IsJsWhitespace(r[|r| - 1])
    ensures forall i :: |r| <= i < |s| ==> IsJsWhitespace(s[i])
  {
    if s != [] && IsJsWhitespace(s[|s| - 1]) then TrimEnd(s[..|s| - 1]) else s
  }

  /** `String.prototype.trim`. */
  function Trim(s: string): string {
    TrimEnd(TrimStart(s))
  }

  /** A name trims to nothing exactly when every character in it is white space. */
  lemma TrimEmptyIffBlank(s: string)
    ensures |Trim(s)| == 0 <==> forall i :: 0 <= i < |s| ==> IsJsWhitespace(s[i])
  {
  }

  /** The longest run of digits at the start of `s`. */
  function LeadingDigits(s: string): (r: string)
    ensures AllDigits(r) && |r| <= |s| && r == s[..|r|]
    ensures |r| < |s| ==> !IsDigit(s[|r|])
  {
    if s != [] && IsDigit(s[0]) then [s[0]] + LeadingDigits(s[1..]) else []
  }

  predicate HasNonZeroDigit(ds: string) {
    exists i :: 0 <= i < |ds| && ds[i] != '0'
  }

  /** A run of digits is worth more than zero exactly when one of them is not zero. */
  lemma {:induction false} DigitsValuePositive(ds: string)
    requires AllDigits(ds)
    ensures DigitsValue(ds) > 0 <==> HasNonZeroDigit(ds)
  {
    if ds != [] {
      var init := ds[..|ds| - 1];
      DigitsValuePositive(init);
      if HasNonZeroDigit(init) {
        var i :| 0 <= i < |init| && init[i] != '0';
        assert ds[i] != '0';
      }
      if HasNonZeroDigit(ds) && !HasNonZeroDigit(init) {
        var i :| 0 <= i < |ds| && ds[i] != '0';
        if i < |init| {
          assert init[i] != '0';
        }
      }
    }
  }

  /** The parts `parseFloat` reads: a sign, integer digits and, after a point, fraction digits. */
  datatype NumberText = NumberText(negative: bool, intDigits: string, fracDigits: string)

  function ScanNumber(s: string): (t: NumberText)
    ensures AllDigits(t.intDigits) && AllDigits(t.fracDigits)
  {
    var negative := s != [] && s[0] == '-';
    var rest := if s != [] && (s[0] == '-' || s[0] == '+') then s[1..] else s;
    var intDigits := LeadingDigits(rest);
    NumberText(negative, intDigits, FractionDigits(rest[|intDigits|..]))
  }

  /** The fraction digits after the integer part: a point and the digits that follow it, if any. */
  function FractionDigits(after: string): (r: string)
    ensures AllDigits(r)
  {
    if after != [] && after[0] == '.' then LeadingDigits(after[1..]) else []
  }

  /**
   * `parseFloat` on decimal text: the longest numeric prefix, or `None` for
   * NaN when the prefix holds no digit.
   */
  function ParseFloat(s: string): (r: Option<real>)
    ensures r.None? <==> ScanNumber(s).intDigits == [] && ScanNumber(s).fracDigits == []
  {
    var t := ScanNumber(s);
    if t.intDigits == [] && t.fracDigits == [] then None else Some(NumberValue(t))
  }

  /** The signed value of scanned number text: integer part plus fraction over its power of ten. */
  function NumberValue(t: NumberText): real
    requires AllDigits(t.intDigits) && AllDigits(t.fracDigits)
  {
    if t.negative then -DecimalValue(t.intDigits, t.fracDigits) else DecimalValue(t.intDigits, t.fracDigits)
  }

  /** The value of `ip.fp` written in decimal: the integer digits plus the fraction digits over their power of ten. */
  function DecimalValue(ip: string, fp: string): real
    requires AllDigits(ip) && AllDigits(fp)
  {
    DigitsValue(ip) as real + DigitsValue(fp) as real / Pow10(|fp|) as real
  }

  /** A run of digits followed by anything but a digit is read as exactly that run. */
  lemma {:induction false} LeadingDigitsStop(ds: string, rest: string)
    requires AllDigits(ds) && (rest == [] || !IsDigit(rest[0]))
    ensures LeadingDigits(ds + rest) == ds
  {
    if ds == [] {
      assert ds + rest == rest;
    } else {
      assert (ds + rest)[1..] == ds[1..] + rest;
      LeadingDigitsStop(ds[1..], rest);
    }
  }

  /** The text after an optional sign: the sign is read off and the rest is scanned. */
  lemma ScanAfterSign(sign: string, body: string)
    requires sign == "" || sign == "-" || sign == "+"
    requires body == [] || (body[0] != '-' && body[0] != '+')
    ensures ScanNumber(sign + body) ==
      NumberText(sign == "-", LeadingDigits(body), FractionDigits(body[|LeadingDigits(body)|..]))
  {
    if sign == "" {
      assert sign + body == body;
    } else {
      assert (sign + body)[1..] == body;
    }
  }

  /** Once the scan is known to hold a digit, `parseFloat` is its value. */
  lemma ParseFloatOfScan(s: string, t: NumberText)
    requires ScanNumber(s) == t && (t.intDigits != [] || t.fracDigits != [])
    ensures AllDigits(t.intDigits) && AllDigits(t.fracDigits)
    ensures ParseFloat(s) == Some(NumberValue(t))
  {
  }

  /** Without fraction digits, the value is the signed integer part. */
  lemma NumberValueWhole(negative: bool, ip: string)
    requires AllDigits(ip)
    ensures NumberValue(NumberText(negative, ip, [])) ==
      if negative then -(DigitsValue(ip) as real) else DigitsValue(ip) as real
  {
    assert DigitsValue([]) == 0 && Pow10(0) == 1;
  }

  /** Scanning a signed run of digits that the rest does not continue. */
  lemma ScanInteger(sign: string, ip: string, rest: string)
    requires sign == "" || sign == "-" || sign == "+"
    requires ip != [] && AllDigits(ip)
    requires rest == [] || (!IsDigit(rest[0]) && rest[0] != '.')
    ensures ScanNumber(sign + ip + rest) == NumberText(sign == "-", ip, [])
  {
    var body := ip + rest;
    assert sign + ip + rest == sign + body;
    assert body[0] == ip[0];
    LeadingDigitsStop(ip, rest);
    assert body[|ip|..] == rest;
    ScanAfterSign(sign, body);
  }

  /** Scanning a signed decimal with a point and fraction digits that the rest does not continue. */
  lemma ScanFraction(sign: string, ip: string, fp: string, rest: string)
    requires sign == "" || sign == "-" || sign == "+"
    requires AllDigits(ip) && fp != [] && AllDigits(fp)
    requires rest == [] || !IsDigit(rest[0])
    ensures ScanNumber(sign + ip + "." + fp + rest) == NumberText(sign == "-", ip, fp)
  {
    var body := ip + ("." + fp + rest);
    assert sign + ip + "." + fp + rest == sign + body;
    FractionBody(ip, fp, rest);
    ScanAfterSign(sign, body);
  }

  /** Digits, a point, fraction digits and a rest that does not continue them split back into those parts. */
  lemma FractionBody(ip: string, fp: string, rest: string)
    requires AllDigits(ip) && fp != [] && AllDigits(fp)
    requires rest == [] || !IsDigit(rest[0])
    ensures var body := ip + ("." + fp + rest);
      && body[0] != '-' && body[0] != '+'
      && LeadingDigits(body) == ip
      && FractionDigits(body[|ip|..]) == fp
  {
    var tail := "." + fp + rest;
    var body := ip + tail;
    assert body[0] == (if ip == [] then '.' else ip[0]);
    LeadingDigitsStop(ip, tail);
    assert body[|ip|..] == tail;
    assert tail[1..] == fp + rest;
    LeadingDigitsStop(fp, rest);
  }

  /** An optional sign and digits, followed by anything but a digit or a point, read as the signed integer. */
  lemma ParseFloatInteger(sign: string, ip: string, rest: string)
    requires sign == "" || sign == "-" || sign == "+"
    requires ip != [] && AllDigits(ip)
    requires rest == [] || (!IsDigit(rest[0]) && rest[0] != '.' && rest[0] != 'e' && rest[0] != 'E')
    ensures ParseFloat(sign + ip + rest) ==
      Some(if sign == "-" then -(DigitsValue(ip) as real) else DigitsValue(ip) as real)
  {
    ScanInteger(sign, ip, rest);
    ParseFloatOfScan(sign + ip + rest, NumberText(sign == "-", ip, []));
    NumberValueWhole(sign == "-", ip);
  }

  /**
   * An optional sign, integer digits (possibly none), a point and fraction
   * digits, followed by anything but a digit, read as the signed decimal.
   */
  lemma ParseFloatFraction(sign: string, ip: string, fp: string, rest: string)
    requires sign == "" || sign == "-" || sign == "+"
    requires AllDigits(ip) && fp != [] && AllDigits(fp)
    requires rest == [] || (!IsDigit(rest[0]) && rest[0] != 'e' && rest[0] != 'E')
    ensures ParseFloat(sign + ip + "." + fp + rest) ==
      Some(if sign == "-" then -DecimalValue(ip, fp) else DecimalValue(ip, fp))
  {
    ScanFraction(sign, ip, fp, rest);
    ParseFloatOfScan(sign + ip + "." + fp + rest, NumberText(sign == "-", ip, fp));
  }

  /** `parseFloat(String(n) + rest)` is n when `rest` does not continue the number. */
  lemma ParseFloatNatText(n: nat, rest: string)
    requires rest == [] || (!IsDigit(rest[0]) && rest[0] != '.' && rest[0] != 'e' && rest[0] != 'E')
    ensures ParseFloat(NatText(n) + rest) == Some(n as real)
  {
    var digits := NatText(n);
    assert "" + digits + rest == digits + rest;
    ParseFloatInteger("", digits, rest);
    NatTextRoundTrip(n);
    assert DigitsValue(digits) as real == n as real;
  }

  /** The wage check `!w || isNaN(parseFloat(w)) || parseFloat(w) <= 0`, negated. */
  predicate WageOk(w: string) {
    w != "" && ParseFloat(w).Some? && ParseFloat(w).value > 0.0
  }

  /** `parseFloat("12.25x")` reads the number and ignores the rest. */
  lemma ParseFloatStopsAtSuffix()
    ensures ParseFloat("12.25x") == Some(12.25)
  {
    var s := "12.25x";
    assert LeadingDigits(s[2..]) == [];
    assert LeadingDigits(s[1..]) == "2";
    assert LeadingDigits(s) == "12";
    assert s[2..][1..] == "25x";
    assert LeadingDigits("x") == [];
    assert LeadingDigits("5x") == "5";
    assert LeadingDigits("25x") == "25";
    assert ScanNumber(s) == NumberText(false, "12", "25");
    assert DigitsValue("1") == 1 && DigitsValue("2") == 2;
    assert DigitsValue("12") == 12 && DigitsValue("25") == 25;
    assert NumberValue(NumberText(false, "12", "25")) == 12.25;
  }

  /** Text without a digit before any other character is NaN. */
  lemma ParseFloatNaN()
    ensures ParseFloat("abc") == None && ParseFloat("-.") == None && ParseFloat("") == None
  {
    assert LeadingDigits("abc") == [];
    assert "-."[1..] == ".";
    assert LeadingDigits(".") == [];
    assert LeadingDigits("") == [];
  }

  /** A zero wage is refused, however many zeros it is written with. */
  lemma ZeroWageRefused()
    ensures !WageOk("0.00")
  {
    assert LeadingDigits("0.00") == "0" by {
      assert LeadingDigits(".00") == [];
    }
    assert ".00"[1..] == "00";
    assert LeadingDigits("00") == "00" by {
      assert LeadingDigits("0") == "0";
    }
    assert ScanNumber("0.00") == NumberText(false, "0", "00");
    WageOkIff("0.00");
  }

  /** A negative wage is refused. */
  lemma NegativeWageRefused()
    ensures !WageOk("-3")
  {
    WageOkIff("-3");
  }

  lemma MagnitudePositive(a: nat, b: nat, p: nat)
    requires p >= 1
    ensures a as real + b as real / p as real > 0.0 <==> a > 0 || b > 0
  {
    assert b as real / p as real >= 0.0;
    if b > 0 {
      assert b as real / p as real > 0.0;
    }
  }

  /** A wage passes exactly when its number has no minus sign and a digit other than zero. */
  lemma WageOkIff(w: string)
    ensures WageOk(w) <==>
      var t := ScanNumber(w);
      !t.negative && (HasNonZeroDigit(t.intDigits) || HasNonZeroDigit(t.fracDigits))
  {
    var t := ScanNumber(w);
    DigitsValuePositive(t.intDigits);
    DigitsValuePositive(t.fracDigits);
    MagnitudePositive(DigitsValue(t.intDigits), DigitsValue(t.fracDigits), Pow10(|t.fracDigits|));
  }

  /** The form's six inputs, as the text the inputs hold. */
  datatype ProfileInput = ProfileInput(
    role: string,
    wagePerHour: string,
    contactNumber: string,
    managerName: string,
    bsb: string,
    accountNumber: string)

  /** Check `i` of `validateForm`, in the order it makes them. */
  predicate Check(f: ProfileInput, i: nat) {
    if i == 0 then f.role != ""
    else if i == 1 then WageOk(f.wagePerHour)
    else if i == 2 then DigitCount(f.contactNumber, 10, 10)
    else if i == 3 then f.managerName != "" && |Trim(f.managerName)| != 0
    else if i == 4 then DigitCount(f.bsb, 6, 6)
    else DigitCount(f.accountNumber, 6, 9)
  }

  const Messages: seq<string> := [
    "Please select a role.",
    "Wage per hour must be a positive number.",
    "Contact number must be a 10-digit number.",
    "Manager's name cannot be empty.",
    "BSB must be a 6-digit number.",
    "Account number must be between 6 and 9 digits."
  ]

  /**
   * `validateForm`: the message of the first failing check, or `None` when
   * all pass.
   */
  function ValidateForm(f: ProfileInput): Option<string> {
    if f.role == "" then Some("Please select a role.")
    else if !WageOk(f.wagePerHour) then
      Some("Wage per hour must be a positive number.")
    else if f.contactNumber == "" || !DigitCount(f.contactNumber, 10, 10) then
      Some("Contact number must be a 10-digit number.")
    else if f.managerName == "" || |Trim(f.managerName)| == 0 then
      Some("Manager's name cannot be empty.")
    else if f.bsb == "" || !DigitCount(f.bsb, 6, 6) then
      Some("BSB must be a 6-digit number.")
    else if f.accountNumber == "" || !DigitCount(f.accountNumber, 6, 9) then
      Some("Account number must be between 6 and 9 digits.")
    else None
  }

  /** The form is accepted exactly when all six checks pass. */
  lemma ValidateFormAccepts(f: ProfileInput)
    ensures ValidateForm(f).None? <==> forall j :: 0 <= j < 6 ==> Check(f, j)
  {
    if ValidateForm(f).None? {
      forall j | 0 <= j < 6 ensures Check(f, j) {
        ValidateFormFirstFailure(f, j);
      }
    } else {
      ValidateFormFirstFailure(f, 0);
      ValidateFormFirstFailure(f, 1);
      ValidateFormFirstFailure(f, 2);
      ValidateFormFirstFailure(f, 3);
      ValidateFormFirstFailure(f, 4);
      ValidateFormFirstFailure(f, 5);
    }
  }

  /** The message shown is that of check `i` exactly when check `i` fails and every earlier one passes. */
  lemma ValidateFormFirstFailure(f: ProfileInput, i: nat)
    requires i < 6
    ensures ValidateForm(f) == Some(Messages[i]) <==> !Check(f, i) && forall j :: 0 <= j < i ==> Check(f, j)
  {
    var r := ValidateForm(f);
    if !Check(f, 0) {
      assert r == Some(Messages[0]);
    } else if !Check(f, 1) {
      assert r == Some(Messages[1]);
    } else if !Check(f, 2) {
      assert r == Some(Messages[2]);
    } else if !Check(f, 3) {
      assert r == Some(Messages[3]);
    } else if !Check(f, 4) {
      assert r == Some(Messages[4]);
    } else if !Check(f, 5) {
      assert r == Some(Messages[5]);
    }
  }

  /** An empty role is reported before anything else, whatever the other fields hold. */
  lemma EmptyRoleFirst(f: ProfileInput)
    requires f.role == ""
    ensures ValidateForm(f) == Some("Please select a role.")
  {
  }

  /** The body of the PATCH request to `/api/users/<id>`. */
  datatype ProfilePatch = ProfilePatch(
    url: string,
    role: string,
    wagePerHour: real,
    contactNumber: string,
    managerName: string,
    bsb: string,
    accountNumber: string)

  /** The component's state. */
  class ProfileForm {
    var role: string
    var wagePerHour: string
    var contactNumber: string
    var managerName: string
    var bsb: string
    var accountNumber: string
    var error: Option<string>
    var loading: bool

    constructor ()
      ensures role == "" && wagePerHour == "" && contactNumber == "" && managerName == ""
      ensures bsb == "" && accountNumber == "" && error == None && !loading
    {
      role, wagePerHour, contactNumber, managerName := "", "", "", "";
      bsb, accountNumber, error, loading := "", "", None, false;
    }

    function Input(): ProfileInput
      reads this
    {
      ProfileInput(role, wagePerHour, contactNumber, managerName, bsb, accountNumber)
    }

    method SetRole(value: string)
      modifies this`role
      ensures role == value
    {
      role := value;
    }

    method SetWagePerHour(value: string)
      modifies this`wagePerHour
      ensures wagePerHour == value
    {
      wagePerHour := value;
    }

    method SetManagerName(value: string)
      modifies this`managerName
      ensures managerName == value
    {
      managerName := value;
    }

    /** The contact-number input keeps only the digits typed. */
    method SetContactNumber(value: string)
      modifies this`contactNumber
      ensures contactNumber == KeepDigits(value) && AllDigits(contactNumber)
    {
      contactNumber := KeepDigits(value);
    }

    method SetBsb(value: string)
      modifies this`bsb
      ensures bsb == KeepDigits(value) && AllDigits(bsb)
    {
      bsb := KeepDigits(value);
    }

    method SetAccountNumber(value: string)
      modifies this`accountNumber
      ensures accountNumber == KeepDigits(value) && AllDigits(accountNumber)
    {
      accountNumber := KeepDigits(value);
    }

    /**
     * `handleSubmit`: on a failed check, show its message and send nothing;
     * otherwise send the profile for `userId` and, depending on whether the
     * request succeeds, go to the dashboard or show the failure message.
     */
    method HandleSubmit(userId: string, requestSucceeds: bool) returns (sent: Option<ProfilePatch>, navigatedTo: Option<string>)
      modifies this`error, this`loading
      ensures ValidateForm(Input()).Some? ==>
                sent == None && navigatedTo == None && error == ValidateForm(Input()) && loading == old(loading)
      ensures ValidateForm(Input()).None? ==>
                && sent == Some(ProfilePatch("/api/users/" + userId, role, ParseFloat(wagePerHour).value,
                                             contactNumber, managerName, bsb, accountNumber))
                && sent.value.wagePerHour > 0.0
                && !loading
                && navigatedTo == (if requestSucceeds then Some("/dashboard") else None)
                && error == (if requestSucceeds then None else Some("Failed to update profile. Please try again."))
    {
      var validationError := ValidateForm(Input());
      if validationError.Some? {
        error := validationError;
        return None, None;
      }
      loading := true;
      error := None;
      sent := Some(ProfilePatch("/api/users/" + userId, role, ParseFloat(wagePerHour).value,
                                contactNumber, managerName, bsb, accountNumber));
      if requestSucceeds {
        navigatedTo := Some("/dashboard");
      } else {
        error := Some("Failed to update profile. Please try again.");
        navigatedTo := None;
      }
      loading := false;
    }
  }
}
