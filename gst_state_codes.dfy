/**
 * GST state codes and the intra-/inter-State decision: a supply is
 * intra-State exactly when the supplier's and the customer's normalised
 * two-digit state codes are equal (sections 7 and 8 of the Integrated Goods
 * and Services Tax Act, 2017, reduced to a comparison of state codes).
 */
module GstStateCodes {
  import opened Wrappers
  import opened Text

  /**
   * The authoritative state codes and their names. The source keys the table
   * by the two-digit strings "01" .. "38", "97" and "99"; here it is looked up
   * by their numeric value, and `IsStateCode` says which strings are keys.
   */
  function StateNameOf(v: int): Option<string>
  {
    match v
    case 1 => Some("Jammu & Kashmir")
    case 2 => Some("Himachal Pradesh")
    case 3 => Some("Punjab")
    case 4 => Some("Chandigarh")
    case 5 => Some("Uttarakhand")
    case 6 => Some("Haryana")
    case 7 => Some("Delhi (NCT)")
    case 8 => Some("Rajasthan")
    case 9 => Some("Uttar Pradesh")
    case 10 => Some("Bihar")
    case 11 => Some("Sikkim")
    case 12 => Some("Arunachal Pradesh")
    case 13 => Some("Nagaland")
    case 14 => Some("Manipur")
    case 15 => Some("Mizoram")
    case 16 => Some("Tripura")
    case 17 => Some("Meghalaya")
    case 18 => Some("Assam")
    case 19 => Some("West Bengal")
    case 20 => Some("Jharkhand")
    case 21 => Some("Odisha")
    case 22 => Some("Chhattisgarh")
    case 23 => Some("Madhya Pradesh")
    case 24 => Some("Gujarat")
    case 25 => Some("Daman & Diu")
    case 26 => Some("Dadra & Nagar Haveli and Daman & Diu")
    case 27 => Some("Maharashtra")
    case 28 => Some("Andhra Pradesh (Old)")
    case 29 => Some("Karnataka")
    case 30 => Some("Goa")
    case 31 => Some("Lakshadweep")
    case 32 => Some("Kerala")
    case 33 => Some("Tamil Nadu")
    case 34 => Some("Puducherry")
    case 35 => Some("Andaman & Nicobar Islands")
    case 36 => Some("Telangana")
    case 37 => Some("Andhra Pradesh")
    case 38 => Some("Ladakh")
    case 97 => Some("Other Territory")
    case 99 => Some("Centre Jurisdiction")
    case _ => None
  }

  /** The Union Territories; the decision itself treats them like states. */
  const UtCodes: set<int> := {1, 4, 7, 25, 26, 31, 34, 35, 38}

  /** The key set of the table, as a range test. */
  predicate KnownNumber(v: int)
  {
    1 <= v <= 38 || v == 97 || v == 99
  }

  lemma StateNamesKeys(v: int)
    ensures StateNameOf(v).Some? <==> KnownNumber(v)
  {
  }

  function CodeValue(s: string): (v: int)
    requires |s| == 2 && IsDigit(s[0]) && IsDigit(s[1])
    ensures 0 <= v <= 99
  {
    (s[0] as int - '0' as int) * 10 + (s[1] as int - '0' as int)
  }

  /** `s in STATE_CODE_MAP`: exactly two digits naming a known code. */
  predicate IsStateCode(s: string)
  {
    |s| == 2 && IsDigit(s[0]) && IsDigit(s[1]) && KnownNumber(CodeValue(s))
  }

  /** `STATE_CODE_MAP.get(s)`. */
  function StateName(s: string): (r: Option<string>)
    ensures r.Some? <==> IsStateCode(s)
  {
    if IsStateCode(s) then (StateNamesKeys(CodeValue(s)); StateNameOf(CodeValue(s))) else None
  }

  /** A state code is passed either as a Python `int` or as a `str`. */
  datatype CodeInput = IntCode(n: int) | StrCode(s: string)

  /** The two `ValueError`s raised while normalising. */
  datatype CodeError = NotNumeric(input: CodeInput) | UnknownCode(code: string)

  datatype GstType = IntraState | InterState

  /** `str(code)`. */
  function PyStr(code: CodeInput): string
  {
    match code
    case IntCode(n) => if n >= 0 then NatToString(n) else "-" + NatToString(-n)
    case StrCode(s) => s
  }

  /** `str(code).strip()`. */
  function Stripped(code: CodeInput): string
  {
    Strip(PyStr(code))
  }

  /** `s.zfill(width)` for a string of digits: left-pad with '0' up to `width`. */
  function ZFill(s: string, width: nat): (r: string)
    ensures |r| == if |s| < width then width else |s|
    ensures r[|r| - |s|..] == s
    decreases width - |s|
  {
    if |s| < width then
      var r := ZFill(['0'] + s, width);
      assert r[|r| - |s|..] == r[|r| - |s| - 1..][1..];
      r
    else s
  }

  /** `_normalize_state_code`: strip, require digits, zero-pad to two, look up. */
  function NormalizeStateCode(code: CodeInput): (r: Result<string, CodeError>)
    ensures r.Ok? ==> IsStateCode(r.value)
    ensures r == Err(NotNumeric(code)) <==> !AllDigits(Stripped(code))
    ensures r.Ok? ==> r.value == ZFill(Stripped(code), 2)
  {
    var s := Stripped(code);
    if !AllDigits(s) then Err(NotNumeric(code))
    else
      var s2 := ZFill(s, 2);
      if !IsStateCode(s2) then Err(UnknownCode(s2)) else Ok(s2)
  }

  /** Normalising an already normalised code gives it back. */
  lemma NormalizeIdempotent(code: CodeInput)
    requires NormalizeStateCode(code).Ok?
    ensures NormalizeStateCode(StrCode(NormalizeStateCode(code).value)) == NormalizeStateCode(code)
  {
    StateCodeNormal(NormalizeStateCode(code).value);
  }

  /** A state code is its own normal form. */
  lemma StateCodeNormal(r: string)
    requires IsStateCode(r)
    ensures NormalizeStateCode(StrCode(r)) == Ok(r)
  {
    assert AllDigits(r) by { assert IsDigit(r[0]) && IsDigit(r[1]); }
    assert ZFill(r, 2) == r;
    NormalizeDigitString(r);
  }

  /** `determine_gst_type`: the company's code is normalised (and may fail) first. */
  function DetermineGstType(company: CodeInput, customer: CodeInput): (r: Result<GstType, CodeError>)
    ensures r.Ok? <==> NormalizeStateCode(company).Ok? && NormalizeStateCode(customer).Ok?
    ensures NormalizeStateCode(company).Err? ==> r == Err(NormalizeStateCode(company).error)
    ensures NormalizeStateCode(company).Ok? && NormalizeStateCode(customer).Err? ==>
              r == Err(NormalizeStateCode(customer).error)
    ensures r.Ok? ==> (r.value == IntraState <==> NormalizeStateCode(company) == NormalizeStateCode(customer))
  {
    match NormalizeStateCode(company)
    case Err(e) => Err(e)
    case Ok(comp) =>
      match NormalizeStateCode(customer)
      case Err(e) => Err(e)
      case Ok(cust) => Ok(if comp == cust then IntraState else InterState)
  }

  /** The decision does not depend on which side is the supplier. */
  lemma DetermineGstTypeSymmetric(a: CodeInput, b: CodeInput)
    requires DetermineGstType(a, b).Ok?
    ensures DetermineGstType(b, a) == DetermineGstType(a, b)
  {
  }

  /** A code given as a string of one or two digits normalises to its two-digit form. */
  lemma NormalizeDigitString(s: string)
    requires AllDigits(s) && |s| <= 2
    requires IsStateCode(ZFill(s, 2))
    ensures NormalizeStateCode(StrCode(s)) == Ok(ZFill(s, 2))
  {
    StrippedDigits(s);
  }

  /** A string of digits is its own strip. */
  lemma StrippedDigits(s: string)
    requires AllDigits(s)
    ensures Stripped(StrCode(s)) == s
  {
    assert IsDigit(s[0]) && IsDigit(s[|s| - 1]);
    StripNoop(s);
  }

  /** "7" and "07" normalise to "07". */
  lemma NormalizeSevenStrings()
    ensures NormalizeStateCode(StrCode("7")) == Ok("07")
    ensures NormalizeStateCode(StrCode("07")) == Ok("07")
  {
    SevenIsStateCode();
    NormalizeSeven();
    NormalizeZeroSeven();
  }

  lemma SevenIsStateCode()
    ensures IsStateCode("07")
  {
  }

  lemma NormalizeSeven()
    requires IsStateCode("07")
    ensures NormalizeStateCode(StrCode("7")) == Ok("07")
  {
    assert AllDigits("7");
    assert ZFill("7", 2) == "07";
    NormalizeDigitString("7");
  }

  lemma NormalizeZeroSeven()
    requires IsStateCode("07")
    ensures NormalizeStateCode(StrCode("07")) == Ok("07")
  {
    assert AllDigits("07");
    assert ZFill("07", 2) == "07";
    NormalizeDigitString("07");
  }

  /** A non-negative integer code is normalised as its decimal rendering. */
  lemma IntCodeAsString(n: int)
    requires n >= 0
    ensures Stripped(IntCode(n)) == NatToString(n)
  {
    StrippedDigits(NatToString(n));
  }

  lemma NatToStringOneDigit(n: nat)
    requires n < 10
    ensures NatToString(n) == [DigitChar(n)]
  {
  }

  lemma NatToStringTwoDigits(n: nat)
    requires 10 <= n < 100
    ensures NatToString(n) == [DigitChar(n / 10), DigitChar(n % 10)]
  {
    NatToStringOneDigit(n / 10);
  }

  /** The integer 7 normalises like the string "7". */
  lemma NormalizeSevenInt()
    ensures NormalizeStateCode(IntCode(7)) == Ok("07")
  {
    NormalizeSevenStrings();
    IntCodeAsString(7);
    NatToStringOneDigit(7);
    assert [DigitChar(7)] == "7";
    SameStrippedSameResult(IntCode(7), StrCode("7"));
  }

  /** One character between two blanks strips to that character. */
  lemma StripPaddedChar(c: char)
    requires !IsWs(c)
    ensures Strip([' ', c, ' ']) == [c]
  {
    assert SkipWs([' ', c, ' '], 0) == 1;
    assert SkipWsBack([' ', c, ' '], 1, 3) == 2;
  }

  /** Surrounding blanks are stripped before the digits are checked. */
  lemma NormalizeSevenPadded()
    ensures NormalizeStateCode(StrCode(" 7 ")) == Ok("07")
  {
    SevenIsStateCode();
    NormalizeSeven();
    PaddedSevenStrips();
    SameStrippedSameResult(StrCode(" 7 "), StrCode("7"));
  }

  lemma PaddedSevenStrips()
    ensures Stripped(StrCode(" 7 ")) == Stripped(StrCode("7"))
  {
    StripPaddedChar('7');
    assert " 7 " == [' ', '7', ' '];
    StrippedDigits("7");
  }

  /** Normalisation only looks at the stripped text of the code. */
  lemma SameStrippedSameResult(a: CodeInput, b: CodeInput)
    requires Stripped(a) == Stripped(b)
    requires NormalizeStateCode(b).Ok?
    ensures NormalizeStateCode(a) == NormalizeStateCode(b)
  {
  }

  /** More than two digits are never padded or cut, so they are never a known code ("007" is rejected). */
  lemma LongDigitsUnknown(s: string)
    requires AllDigits(s) && |s| > 2
    ensures NormalizeStateCode(StrCode(s)) == Err(UnknownCode(s))
  {
    StrippedDigits(s);
    assert ZFill(s, 2) == s;
  }

  /** A negative integer renders with a leading '-', which is not a digit. */
  lemma NegativeIntNotNumeric(n: int)
    requires n < 0
    ensures NormalizeStateCode(IntCode(n)) == Err(NotNumeric(IntCode(n)))
  {
    var t := PyStr(IntCode(n));
    assert t == "-" + NatToString(-n);
    assert t[0] == '-' && IsDigit(t[|t| - 1]);
    StripNoop(t);
    assert !IsDigit(Stripped(IntCode(n))[0]);
  }

  /** A code whose stripped text holds a non-digit is rejected as non-numeric ("7a"). */
  lemma NonDigitNotNumeric(s: string, i: int)
    requires 0 <= i < |s| && !IsDigit(s[i])
    requires !IsWs(s[0]) && !IsWs(s[|s| - 1])
    ensures NormalizeStateCode(StrCode(s)) == Err(NotNumeric(StrCode(s)))
  {
    StripNoop(s);
  }

  lemma NormalizeRejectExamples()
    ensures NormalizeStateCode(StrCode("007")) == Err(UnknownCode("007"))
    ensures NormalizeStateCode(StrCode("7a")) == Err(NotNumeric(StrCode("7a")))
    ensures NormalizeStateCode(IntCode(-7)) == Err(NotNumeric(IntCode(-7)))
  {
    assert AllDigits("007");
    LongDigitsUnknown("007");
    NonDigitNotNumeric("7a", 1);
    NegativeIntNotNumeric(-7);
  }

  lemma NormalizeTwoDigitExample(s: string)
    requires s == "29" || s == "26" || s == "25"
    ensures NormalizeStateCode(StrCode(s)) == Ok(s)
  {
    assert AllDigits(s);
    assert ZFill(s, 2) == s;
    assert IsStateCode(s);
    NormalizeDigitString(s);
  }

  lemma TwentyNineRendering()
    ensures Stripped(IntCode(29)) == "29"
  {
    IntCodeAsString(29);
    NatToStringTwoDigits(29);
    assert [DigitChar(2), DigitChar(9)] == "29";
  }

  /** The integer 29 normalises like the string "29". */
  lemma NormalizeTwentyNineInt()
    ensures NormalizeStateCode(IntCode(29)) == Ok("29")
  {
    NormalizeTwoDigitExample("29");
    TwentyNineRendering();
    assert AllDigits("29");
    StrippedDigits("29");
    SameStrippedSameResult(IntCode(29), StrCode("29"));
  }

  lemma DetermineFromNormalized(a: CodeInput, b: CodeInput, x: string, y: string)
    requires NormalizeStateCode(a) == Ok(x) && NormalizeStateCode(b) == Ok(y)
    ensures DetermineGstType(a, b) == Ok(if x == y then IntraState else InterState)
  {
  }

  /** The intra-State examples of the `determine_gst_type` docstring. */
  lemma DetermineGstTypeIntraExamples()
    ensures DetermineGstType(StrCode("29"), StrCode("29")) == Ok(IntraState)
    ensures DetermineGstType(StrCode("07"), StrCode("07")) == Ok(IntraState)
  {
    NormalizeSevenStrings();
    NormalizeTwoDigitExample("29");
    DetermineFromNormalized(StrCode("29"), StrCode("29"), "29", "29");
    DetermineFromNormalized(StrCode("07"), StrCode("07"), "07", "07");
  }

  /** The inter-State examples of the `determine_gst_type` docstring. */
  lemma DetermineGstTypeInterExamples()
    ensures DetermineGstType(IntCode(29), IntCode(7)) == Ok(InterState)
    ensures DetermineGstType(StrCode("26"), StrCode("25")) == Ok(InterState)
  {
    NormalizeSevenInt();
    NormalizeTwentyNineInt();
    NormalizeTwoDigitExample("26");
    NormalizeTwoDigitExample("25");
    assert "29" != "07" by { assert "29"[0] != "07"[0]; }
    assert "26" != "25" by { assert "26"[1] != "25"[1]; }
    DetermineFromNormalized(IntCode(29), IntCode(7), "29", "07");
    DetermineFromNormalized(StrCode("26"), StrCode("25"), "26", "25");
  }

  /** Every Union Territory code is a known state code. */
  lemma UtCodesAreStateCodes()
    ensures forall v :: v in UtCodes ==> StateNameOf(v).Some?
  {
  }
}
