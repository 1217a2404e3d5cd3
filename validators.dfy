/**
 * The reusable form-field validators and `validate`, which runs a list of
 * them and reports the first message.
 *
 * A validator's result is a message or `None` (`null`); reading the text
 * of a numeric string is a parameter of `Number(...)`.
 */
module Validators {
  import opened Wrappers
  import opened Text
  import opened JsValues

  datatype Validator =
    | Required(fieldName: string)
    | MinLength(n: nat, fieldName: string)
    | MaxLength(n: nat, fieldName: string)
    | IsEmail
    | IsPositiveNumber
    | Custom(check: JsValue -> Option<string>)

  /** The field label used when none is given. */
  const DefaultLabel: string := "Field"

  /** A character the regular expression's `.` does not match. */
  predicate LineTerminator(c: char)
  {
    c == '\n' || c == '\r' || c == '\U{2028}' || c == '\U{2029}'
  }

  /** `/.+@.+\..+/.test(s)`: somewhere a character, `@`, characters, `.`, a character, all on one line. */
  predicate LooksLikeEmail(s: string)
  {
    exists i, j :: 1 <= i && i + 2 <= j && j + 2 <= |s| && s[i] == '@' && s[j] == '.' &&
      forall k :: i - 1 <= k <= j + 1 ==> !LineTerminator(s[k])
  }

  /** What one validator says about a value. */
  function Check(v: Validator, value: JsValue, parse: string -> Option<real>): (r: Option<string>)
    ensures v.Custom? ==> r == v.check(value)
    ensures (v.MinLength? || v.MaxLength? || v.IsEmail?) && !Truthy(value) ==> r.None?
    ensures v.MinLength? && r.Some? ==> value.Str? && |value.s| < v.n
    ensures v.MaxLength? && r.Some? ==> value.Str? && |value.s| > v.n
    ensures v.IsEmail? && r.Some? ==> r == Some("Invalid email")
    ensures v.IsPositiveNumber? && (value == Null || value == Undefined) ==> r.None?
  {
    match v
    case Required(fieldName) =>
      if value == Undefined || value == Null || value == Str("") then Some(fieldName + " is required") else None
    case MinLength(n, fieldName) =>
      if Truthy(value) && value.Str? && |value.s| < n then Some(fieldName + " must be at least " + NatToString(n) + " characters") else None
    case MaxLength(n, fieldName) =>
      if Truthy(value) && value.Str? && |value.s| > n then Some(fieldName + " must be at most " + NatToString(n) + " characters") else None
    case IsEmail =>
      if Truthy(value) && !(value.Str? && LooksLikeEmail(value.s)) then Some("Invalid email") else None
    case IsPositiveNumber =>
      var num := ToNumber(value, parse);
      if value != Null && value != Undefined && num.Some? && num.value <= 0.0 then Some("Must be positive") else None
    case Custom(check) => check(value)
  }

  /** `required` complains exactly about `undefined`, `null` and the empty string. */
  lemma RequiredFlagsOnlyMissing(fieldName: string, value: JsValue, parse: string -> Option<real>)
    ensures Check(Required(fieldName), value, parse).Some? <==> value == Undefined || value == Null || value == Str("")
  {
  }

  /** The length checks let empty and falsy values through and flag only strings outside the bound. */
  lemma LengthChecksFlagOnlyStrings(n: nat, fieldName: string, value: JsValue, parse: string -> Option<real>)
    ensures Check(MinLength(n, fieldName), value, parse).Some? <==> value.Str? && value.s != "" && |value.s| < n
    ensures Check(MaxLength(n, fieldName), value, parse).Some? <==> value.Str? && |value.s| > n
  {
  }

  /** `isEmail` passes empty values and addresses shaped like `a@b.c`, and flags the rest. */
  lemma EmailExamples(parse: string -> Option<real>)
    ensures Check(IsEmail, Str("a@b.c"), parse).None?
    ensures Check(IsEmail, Str("a@b"), parse) == Some("Invalid email")
    ensures Check(IsEmail, Str(""), parse).None?
    ensures Check(IsEmail, Num(1.0), parse) == Some("Invalid email")
  {
    var s := "a@b.c";
    assert s[1] == '@' && s[3] == '.';
    assert forall k :: 0 <= k <= 4 ==> !LineTerminator(s[k]);
  }

  /** `isPositiveNumber` flags present values whose number is not above zero, and passes `NaN`. */
  lemma PositiveNumberFlags(value: JsValue, parse: string -> Option<real>)
    ensures Check(IsPositiveNumber, value, parse).Some? <==>
              value != Null && value != Undefined && ToNumber(value, parse).Some? && ToNumber(value, parse).value <= 0.0
    ensures Check(IsPositiveNumber, Str(""), parse).Some?
    ensures Check(IsPositiveNumber, Num(0.5), parse).None?
  {
  }

  /** The built-in validators' messages are never empty, so each of their messages stops `validate`. */
  lemma BuiltinMessagesNonEmpty(v: Validator, value: JsValue, parse: string -> Option<real>)
    requires !v.Custom?
    ensures Check(v, value, parse).Some? ==> Check(v, value, parse).value != ""
  {
  }

  /** A message that stops `validate`: present and not empty. */
  predicate Reports(r: Option<string>)
  {
    r.Some? && r.value != ""
  }

  /**
   * `validate`: the first message, in list order, of a validator that
   * reports one; `None` when none does.
   */
  method Validate(value: JsValue, validators: seq<Validator>, parse: string -> Option<real>) returns (r: Option<string>)
    ensures r.None? <==> forall i :: 0 <= i < |validators| ==> !Reports(Check(validators[i], value, parse))
    ensures r.Some? ==> exists k :: 0 <= k < |validators| && Check(validators[k], value, parse) == r && Reports(r) &&
                          forall i :: 0 <= i < k ==> !Reports(Check(validators[i], value, parse))
  {
    var i := 0;
    while i < |validators|
      invariant 0 <= i <= |validators|
      invariant forall j :: 0 <= j < i ==> !Reports(Check(validators[j], value, parse))
    {
      var m := Check(validators[i], value, parse);
      if Reports(m) {
        return m;
      }
      i := i + 1;
    }
    return None;
  }
}
