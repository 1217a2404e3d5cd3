/**
 * The customer master record: the GSTIN, state-code and phone validators,
 * the field bounds `full_clean` checks, the `clean()` normaliser and `save`.
 *
 * Django's `full_clean` validates each field's raw value first and calls
 * `clean()` afterwards (even when a field failed), then raises if anything
 * failed; `save` persists only when `full_clean` did not raise.
 */
module SalesModels {
  import opened Wrappers
  import opened Text

  // ------------------------------------------------------------ validators

  /**
   * Python's `re.search` with a pattern `^body$`: `$` also matches just
   * before a final newline, so the body may be followed by one '\n'.
   */
  predicate AnchoredMatch(body: string -> bool, s: string)
  {
    body(s) || (|s| >= 1 && s[|s| - 1] == '\n' && body(s[..|s| - 1]))
  }

  predicate IsUpperOrDigit(c: char) { IsUpper(c) || IsDigit(c) }

  /** `[0-9]{2}[A-Z]{5}[0-9]{4}[A-Z]{1}[1-9A-Z]{1}Z[0-9A-Z]{1}`, matched in full. */
  predicate GstinBody(s: string)
  {
    && |s| == 15
    && IsDigit(s[0]) && IsDigit(s[1])
    && (forall i :: 2 <= i < 7 ==> IsUpper(s[i]))
    && (forall i :: 7 <= i < 11 ==> IsDigit(s[i]))
    && IsUpper(s[11])
    && (('1' <= s[12] <= '9') || IsUpper(s[12]))
    && s[13] == 'Z'
    && IsUpperOrDigit(s[14])
  }

  /** `[0-9]{2}`, matched in full. */
  predicate StateCodeBody(s: string)
  {
    |s| == 2 && IsDigit(s[0]) && IsDigit(s[1])
  }

  predicate IsPhoneChar(c: char)
  {
    IsDigit(c) || c == '+' || c == '(' || c == ')' || c == '-' || IsWs(c)
  }

  /** `[0-9+()\-\s]{6,20}`, matched in full. */
  predicate PhoneBody(s: string)
  {
    6 <= |s| <= 20 && forall i :: 0 <= i < |s| ==> IsPhoneChar(s[i])
  }

  /** A GSTIN is fifteen characters, optionally followed by one newline. */
  function ValidGstin(s: string): (r: bool)
    ensures r ==> |s| == 15 || (|s| == 16 && s[15] == '\n')
    ensures |s| == 15 ==> (r <==> GstinBody(s))
  {
    AnchoredMatch(GstinBody, s)
  }

  /** A state code is two digits, optionally followed by one newline. */
  function ValidStateCode(s: string): (r: bool)
    ensures r ==> |s| == 2 || (|s| == 3 && s[2] == '\n')
    ensures |s| == 2 ==> (r <==> IsDigit(s[0]) && IsDigit(s[1]))
  {
    AnchoredMatch(StateCodeBody, s)
  }

  /** A phone number is 6 to 20 allowed characters, optionally followed by one newline. */
  function ValidPhone(s: string): (r: bool)
    ensures r ==> 6 <= |s| <= 21
    ensures r && |s| == 21 ==> s[20] == '\n'
  {
    AnchoredMatch(PhoneBody, s)
  }

  /** The example the GSTIN validator's message quotes is accepted. */
  lemma GstinMessageExampleValid()
    ensures ValidGstin("22AAAAA0000A1Z5")
  {
    assert GstinBody("22AAAAA0000A1Z5");
  }

  // ------------------------------------------------------------ the record

  /** The editable fields of a customer. `gstin` is the only nullable one. */
  datatype CustomerFields = CustomerFields(
    customerCode: string,
    name: string,
    contactPerson: string,
    phone: string,
    email: string,
    billingAddress: string,
    shippingAddress: string,
    gstin: Option<string>,
    stateCode: string,
    creditLimit: real,
    paymentTerms: int,
    isActive: bool)

  datatype FieldName =
    CustomerCode | Name | ContactPerson | Phone | Email | Gstin | StateCode | CreditLimit | PaymentTerms

  const CodeMaxLength := 32
  const NameMaxLength := 255
  const ContactMaxLength := 100
  const PhoneMaxLength := 20
  const EmailMaxLength := 254
  const GstinMaxLength := 15
  const StateCodeMaxLength := 2
  const MaxPaymentTerms := 3650
  /** `max_digits=14, decimal_places=2`: at most twelve digits before the point. */
  const CreditLimitBound: real := 1000000000000.0

  /** A blank-allowed text field: empty skips every check, anything else is bounded and validated. */
  predicate OptionalTextOk(s: string, maxLength: nat, valid: string -> bool)
  {
    s == "" || (|s| <= maxLength && valid(s))
  }

  /** A required text field: empty is "This field cannot be blank.", otherwise bounded. */
  predicate RequiredTextOk(s: string, maxLength: nat)
  {
    s != "" && |s| <= maxLength
  }

  /** Two decimal places at most, within the digit bound, and not negative. */
  predicate CreditLimitOk(x: real)
  {
    0.0 <= x < CreditLimitBound && (x * 100.0).Floor as real == x * 100.0
  }

  /** Whether one field passes `clean_fields`, checked on its raw value; the e-mail syntax check is a parameter. */
  predicate FieldOk(f: CustomerFields, n: FieldName, emailOk: string -> bool)
  {
    match n
    case CustomerCode => RequiredTextOk(f.customerCode, CodeMaxLength)
    case Name => RequiredTextOk(f.name, NameMaxLength)
    case ContactPerson => |f.contactPerson| <= ContactMaxLength
    case Phone => OptionalTextOk(f.phone, PhoneMaxLength, ValidPhone)
    case Email => OptionalTextOk(f.email, EmailMaxLength, emailOk)
    case Gstin => f.gstin.None? || OptionalTextOk(f.gstin.value, GstinMaxLength, ValidGstin)
    case StateCode => OptionalTextOk(f.stateCode, StateCodeMaxLength, ValidStateCode)
    case CreditLimit => CreditLimitOk(f.creditLimit)
    case PaymentTerms => 0 <= f.paymentTerms <= MaxPaymentTerms
  }

  /** The fields `clean_fields` rejects. */
  function FieldErrors(f: CustomerFields, emailOk: string -> bool): (errs: set<FieldName>)
    ensures forall n :: n in errs <==> !FieldOk(f, n, emailOk)
  {
    set n: FieldName | !FieldOk(f, n, emailOk)
  }

  /** The text fields: a required one fails when empty or too long, a blank-allowed one only when non-empty and too long or malformed. */
  lemma TextFieldErrors(f: CustomerFields, emailOk: string -> bool)
    ensures var errs := FieldErrors(f, emailOk);
      && (CustomerCode in errs <==> f.customerCode == "" || |f.customerCode| > CodeMaxLength)
      && (Name in errs <==> f.name == "" || |f.name| > NameMaxLength)
      && (ContactPerson in errs <==> |f.contactPerson| > ContactMaxLength)
      && (Phone in errs <==> f.phone != "" && (|f.phone| > PhoneMaxLength || !ValidPhone(f.phone)))
      && (Email in errs <==> f.email != "" && (|f.email| > EmailMaxLength || !emailOk(f.email)))
  {
    assert FieldOk(f, CustomerCode, emailOk) <==> RequiredTextOk(f.customerCode, CodeMaxLength);
    assert FieldOk(f, Name, emailOk) <==> RequiredTextOk(f.name, NameMaxLength);
    assert FieldOk(f, Phone, emailOk) <==> OptionalTextOk(f.phone, PhoneMaxLength, ValidPhone);
    assert FieldOk(f, Email, emailOk) <==> OptionalTextOk(f.email, EmailMaxLength, emailOk);
  }

  /** The GSTIN (nullable), the state code and the two numeric bounds. */
  lemma CodedFieldErrors(f: CustomerFields, emailOk: string -> bool)
    ensures var errs := FieldErrors(f, emailOk);
      && (Gstin in errs <==> f.gstin.Some? && f.gstin.value != ""
                              && (|f.gstin.value| > GstinMaxLength || !ValidGstin(f.gstin.value)))
      && (StateCode in errs <==> f.stateCode != "" && (|f.stateCode| > StateCodeMaxLength || !ValidStateCode(f.stateCode)))
      && (CreditLimit in errs <==> !CreditLimitOk(f.creditLimit))
      && (PaymentTerms in errs <==> f.paymentTerms < 0 || f.paymentTerms > MaxPaymentTerms)
  {
    assert FieldOk(f, Gstin, emailOk) <==> f.gstin.None? || OptionalTextOk(f.gstin.value, GstinMaxLength, ValidGstin);
    assert FieldOk(f, StateCode, emailOk) <==> OptionalTextOk(f.stateCode, StateCodeMaxLength, ValidStateCode);
  }

  /**
   * The length bound closes the gap the trailing-newline rule of `$` opens:
   * a state code that passes is empty or exactly two digits.
   */
  lemma StateCodeFieldExact(s: string)
    ensures OptionalTextOk(s, StateCodeMaxLength, ValidStateCode) <==> s == "" || StateCodeBody(s)
  {
  }

  /** Likewise a GSTIN that passes is empty or exactly the fifteen-character pattern. */
  lemma GstinFieldExact(s: string)
    ensures OptionalTextOk(s, GstinMaxLength, ValidGstin) <==> s == "" || GstinBody(s)
  {
  }

  /**
   * A phone number may end in a newline on top of twenty characters of the
   * pattern, which the length bound rejects; within the bound the newline is
   * itself one of the pattern's whitespace characters.
   */
  lemma PhoneFieldExact(s: string)
    ensures OptionalTextOk(s, PhoneMaxLength, ValidPhone) <==> s == "" || PhoneBody(s)
  {
    if |s| <= PhoneMaxLength && |s| >= 1 && s[|s| - 1] == '\n' && PhoneBody(s[..|s| - 1]) {
      NewlineExtendsPhone(s);
    }
  }

  lemma NewlineExtendsPhone(s: string)
    requires |s| <= PhoneMaxLength && |s| >= 1 && s[|s| - 1] == '\n' && PhoneBody(s[..|s| - 1])
    ensures PhoneBody(s)
  {
    var t := s[..|s| - 1];
    forall i | 0 <= i < |s| ensures IsPhoneChar(s[i]) {
      if i < |t| {
        assert s[i] == t[i];
      }
    }
  }

  // ------------------------------------------------------------ clean()

  predicate NoLower(s: string)
  {
    forall i :: 0 <= i < |s| ==> !IsLower(s[i])
  }

  /** Stripped: no whitespace at either end. */
  predicate Trimmed(s: string)
  {
    s == [] || (!IsWs(s[0]) && !IsWs(s[|s| - 1]))
  }

  /** `Customer.clean()` on values: strip the code and the name, upper-case then strip a truthy GSTIN. */
  function CleanValues(f: CustomerFields): (r: CustomerFields)
  {
    var gstin := if f.gstin.Some? && f.gstin.value != "" then Some(Strip(Upper(f.gstin.value))) else f.gstin;
    f.(customerCode := Strip(f.customerCode), name := Strip(f.name), gstin := gstin)
  }

  /**
   * The errors `full_clean` raises: those of `clean_fields` on the raw
   * values, and, for a code that passed its own check, `validate_unique` on
   * the code `clean()` produced against the codes of the other stored
   * customers.
   */
  function SaveErrors(raw: CustomerFields, emailOk: string -> bool, otherCodes: set<string>): (errs: set<FieldName>)
    ensures forall n :: n != CustomerCode ==> (n in errs <==> !FieldOk(raw, n, emailOk))
    ensures CustomerCode in errs <==> !FieldOk(raw, CustomerCode, emailOk) || CleanValues(raw).customerCode in otherCodes
    ensures errs == {} <==> FieldErrors(raw, emailOk) == {} && CleanValues(raw).customerCode !in otherCodes
  {
    FieldErrors(raw, emailOk)
      + if FieldOk(raw, CustomerCode, emailOk) && CleanValues(raw).customerCode in otherCodes then {CustomerCode} else {}
  }

  /** A record whose fields all pass is still refused when another customer already has its cleaned code. */
  lemma DuplicateCodeRefused(raw: CustomerFields, emailOk: string -> bool, otherCodes: set<string>)
    requires FieldErrors(raw, emailOk) == {} && CleanValues(raw).customerCode in otherCodes
    ensures SaveErrors(raw, emailOk, otherCodes) == {CustomerCode}
  {
    assert FieldOk(raw, CustomerCode, emailOk);
  }

  /** The normal form `clean()` produces. */
  predicate Cleaned(f: CustomerFields)
  {
    Trimmed(f.customerCode) && Trimmed(f.name)
    && (f.gstin.Some? ==> Trimmed(f.gstin.value) && NoLower(f.gstin.value))
  }

  lemma StripKeepsNoLower(s: string)
    requires NoLower(s)
    ensures NoLower(Strip(s))
  {
    StripRemovesOnlyWhitespace(s);
  }

  lemma UpperNoop(s: string)
    requires NoLower(s)
    ensures Upper(s) == s
  {
  }

  /**
   * `clean()` reaches the normal form, touches only the code, the name and
   * the GSTIN, removes only surrounding whitespace from the first two, and
   * leaves an empty or missing GSTIN alone.
   */
  lemma CleanNormalises(f: CustomerFields)
    ensures Cleaned(CleanValues(f))
    ensures var r := CleanValues(f);
            r.(customerCode := f.customerCode, name := f.name, gstin := f.gstin) == f
    ensures f.gstin.None? ==> CleanValues(f).gstin.None?
    ensures f.gstin == Some("") ==> CleanValues(f).gstin == Some("")
    ensures f.customerCode == "" ==> CleanValues(f).customerCode == ""
    ensures f.name == "" ==> CleanValues(f).name == ""
  {
    if f.gstin.Some? && f.gstin.value != "" {
      StripKeepsNoLower(Upper(f.gstin.value));
    }
  }

  /** A record already in normal form is left as it is. */
  lemma CleanFixesCleaned(f: CustomerFields)
    requires Cleaned(f)
    ensures CleanValues(f) == f
  {
    StripNoop(f.customerCode);
    StripNoop(f.name);
    if f.gstin.Some? && f.gstin.value != "" {
      UpperNoop(f.gstin.value);
      StripNoop(f.gstin.value);
    }
  }

  /** Cleaning twice is cleaning once. */
  lemma CleanIdempotent(f: CustomerFields)
    ensures CleanValues(CleanValues(f)) == CleanValues(f)
  {
    CleanNormalises(f);
    CleanFixesCleaned(CleanValues(f));
  }

  /**
   * A whitespace-only name is not blank to the field check, so it passes
   * validation, and `clean()` then empties it.
   */
  lemma WhitespaceNameCleanedToEmpty(f: CustomerFields, emailOk: string -> bool)
    requires f.name == "   "
    ensures Name !in FieldErrors(f, emailOk)
    ensures CleanValues(f).name == ""
  {
    assert SkipWs(f.name, 0) == 3;
  }

  // ------------------------------------------------------------ the model instance

  class Customer {
    var customerCode: string
    var name: string
    var contactPerson: string
    var phone: string
    var email: string
    var billingAddress: string
    var shippingAddress: string
    var gstin: Option<string>
    var stateCode: string
    var creditLimit: real
    var paymentTerms: int
    var isActive: bool
    /** The row last written to the database, if any. */
    var persisted: Option<CustomerFields>

    function Fields(): CustomerFields
      reads this
    {
      CustomerFields(customerCode, name, contactPerson, phone, email, billingAddress,
                     shippingAddress, gstin, stateCode, creditLimit, paymentTerms, isActive)
    }

    /** A new, unsaved customer with the model's defaults for the fields not given. */
    constructor(customerCode: string, name: string)
      ensures Fields() == CustomerFields(customerCode, name, "", "", "", "", "", None, "", 0.0, 0, true)
      ensures persisted.None?
    {
      this.customerCode := customerCode;
      this.name := name;
      contactPerson := "";
      phone := "";
      email := "";
      billingAddress := "";
      shippingAddress := "";
      gstin := None;
      stateCode := "";
      creditLimit := 0.0;
      paymentTerms := 0;
      isActive := true;
      persisted := None;
    }

    /** `clean()`: rewrite the code, the name and the GSTIN in place. */
    method Clean()
      modifies this
      ensures Fields() == CleanValues(old(Fields()))
      ensures Cleaned(Fields())
      ensures persisted == old(persisted)
    {
      CleanNormalises(Fields());
      if customerCode != "" {
        customerCode := Strip(customerCode);
      }
      if name != "" {
        name := Strip(name);
      }
      if gstin.Some? && gstin.value != "" {
        gstin := Some(Strip(Upper(gstin.value)));
      }
    }

    /**
     * `save`: `full_clean` validates the raw values, normalises the record
     * whatever the outcome, and raises if a field failed; only a clean pass
     * reaches the database, which then holds the normalised record.
     */
    method Save(emailOk: string -> bool, otherCodes: set<string>) returns (r: Result<(), set<FieldName>>)
      modifies this
      ensures Fields() == CleanValues(old(Fields()))
      ensures r.Ok? <==> SaveErrors(old(Fields()), emailOk, otherCodes) == {}
      ensures r.Err? ==> r.error == SaveErrors(old(Fields()), emailOk, otherCodes) && persisted == old(persisted)
      ensures r.Ok? ==> persisted == Some(Fields())
    {
      var errs := SaveErrors(Fields(), emailOk, otherCodes);
      Clean();
      if errs == {} {
        persisted := Some(Fields());
        r := Ok(());
      } else {
        r := Err(errs);
      }
    }

    /** The save the normaliser's comment describes: validate what `clean()` produced. */
    method SaveCleanFirst(emailOk: string -> bool, otherCodes: set<string>) returns (r: Result<(), set<FieldName>>)
      modifies this
      ensures Fields() == CleanValues(old(Fields()))
      ensures r.Ok? <==> SaveErrors(Fields(), emailOk, otherCodes) == {}
      ensures r.Err? ==> r.error == SaveErrors(Fields(), emailOk, otherCodes) && persisted == old(persisted)
      ensures r.Ok? ==> persisted == Some(Fields()) && Cleaned(Fields()) && Fields().customerCode !in otherCodes
    {
      Clean();
      CleanFixesCleaned(Fields());
      var errs := SaveErrors(Fields(), emailOk, otherCodes);
      if errs == {} {
        persisted := Some(Fields());
        r := Ok(());
      } else {
        r := Err(errs);
      }
    }
  }

  // ------------------------------------------------------------ lower-case GSTIN

  const LowerGstin: string := "22aaaaa0000a1z5"
  const UpperGstin: string := "22AAAAA0000A1Z5"

  lemma UpperOfLowerGstin()
    ensures Upper(LowerGstin) == UpperGstin
  {
    assert forall i :: 0 <= i < 15 ==> Upper(LowerGstin)[i] == UpperGstin[i];
  }

  /**
   * As written, a lower-case GSTIN fails the field check on its raw value,
   * although `clean()` would have turned it into a valid one.
   */
  lemma LowercaseGstinRejected(f: CustomerFields, emailOk: string -> bool)
    requires f.gstin == Some(LowerGstin)
    ensures Gstin in FieldErrors(f, emailOk)
    ensures Gstin !in FieldErrors(CleanValues(f), emailOk)
  {
    assert !IsUpper(LowerGstin[2]);
    assert LowerGstin[14] == '5';
    UpperOfLowerGstin();
    StripNoop(UpperGstin);
    GstinMessageExampleValid();
  }

  /** Validating the cleaned record accepts the lower-case GSTIN and stores it upper-cased. */
  lemma CleanFirstAcceptsLowercase(f: CustomerFields)
    requires f.gstin == Some(LowerGstin)
    ensures CleanValues(f).gstin == Some(UpperGstin)
    ensures ValidGstin(CleanValues(f).gstin.value)
  {
    UpperOfLowerGstin();
    StripNoop(UpperGstin);
    GstinMessageExampleValid();
  }
}
