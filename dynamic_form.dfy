/**
 * The schema-driven form: evaluation of per-field settings against the
 * current values, which fields and sections are shown, each section's
 * completion ratio and its error count.
 *
 * The form library's state is a parameter: the current values as a record
 * and the set of field names that currently carry a validation error.
 */
module DynamicForm {
  import opened Seqs
  import opened Text
  import opened JsValues

  /** A field setting such as `visible`: a fixed value, or a function of the current values. */
  datatype Setting = Fixed(v: JsValue) | Computed(f: Record -> JsValue)

  /** An omitted setting is `undefined`. */
  const Omitted: Setting := Fixed(Undefined)

  datatype Field = Field(name: string, required: bool, visible: Setting)

  datatype Section = Section(id: string, fields: seq<Field>)

  /** `evaluate`: a function-valued setting is applied to the values, any other is itself. */
  function Evaluate(s: Setting, values: Record): JsValue
  {
    match s
    case Fixed(v) => v
    case Computed(f) => f(values)
  }

  /** A fixed setting reads the same whatever the form holds. */
  lemma FixedSettingIgnoresValues(v: JsValue, a: Record, b: Record)
    ensures Evaluate(Fixed(v), a) == Evaluate(Fixed(v), b) == v
  {
  }

  /** Shown unless `visible` evaluates to exactly `false`. */
  predicate IsVisible(f: Field, values: Record)
  {
    Evaluate(f.visible, values) != Bool(false)
  }

  /** Only `false` hides a field: an omitted setting, `0`, `''` and `null` all show it. */
  lemma HiddenOnlyByFalse(f: Field, values: Record)
    ensures !IsVisible(f, values) <==> Evaluate(f.visible, values) == Bool(false)
    ensures f.visible == Omitted ==> IsVisible(f, values)
    ensures f.visible == Fixed(Num(0.0)) || f.visible == Fixed(Str("")) || f.visible == Fixed(Null) ==> IsVisible(f, values)
  {
  }

  function VisibleFields(sec: Section, values: Record): (r: seq<Field>)
    ensures forall f :: f in r <==> f in sec.fields && IsVisible(f, values)
  {
    Filter(sec.fields, (f: Field) => IsVisible(f, values))
  }

  /** A section is rendered only when some field of it is visible. */
  predicate Rendered(sec: Section, values: Record)
  {
    |VisibleFields(sec, values)| > 0
  }

  lemma RenderedIffSomeFieldVisible(sec: Section, values: Record)
    ensures Rendered(sec, values) <==> exists f :: f in sec.fields && IsVisible(f, values)
  {
    var v := VisibleFields(sec, values);
    if exists f :: f in sec.fields && IsVisible(f, values) {
      var f :| f in sec.fields && IsVisible(f, values);
      assert f in v;
    }
    if |v| > 0 {
      assert v[0] in v;
    }
  }

  /** A value counts as filled unless it is `undefined`, `null` or a blank string. */
  predicate Filled(v: JsValue)
  {
    !v.Undefined? && !v.Null? && !(v.Str? && Strip(v.s) == "")
  }

  predicate RequiredAndVisible(f: Field, values: Record)
  {
    f.required && IsVisible(f, values)
  }

  function RequiredFields(sec: Section, values: Record): seq<Field>
  {
    Filter(sec.fields, (f: Field) => RequiredAndVisible(f, values))
  }

  predicate FieldFilled(f: Field, values: Record)
  {
    Filled(Get(values, f.name))
  }

  function FilledRequired(sec: Section, values: Record): seq<Field>
  {
    Filter(RequiredFields(sec, values), FilledTest(values))
  }

  function FilledTest(values: Record): Field -> bool
  {
    (f: Field) => FieldFilled(f, values)
  }

  /**
   * `getSectionCompletion`: the share of the visible required fields that
   * are filled, and 1 when there are none.
   */
  function Completion(sec: Section, values: Record): (ratio: real)
    ensures 0.0 <= ratio <= 1.0
    ensures |RequiredFields(sec, values)| == 0 ==> ratio == 1.0
  {
    var req := RequiredFields(sec, values);
    if |req| == 0 then 1.0
    else
      var filled := |FilledRequired(sec, values)|;
      RatioBounds(filled, |req|);
      filled as real / |req| as real
  }

  lemma RatioBounds(a: nat, b: nat)
    requires 0 < b && a <= b
    ensures 0.0 <= a as real / b as real <= 1.0
  {
  }

  lemma RatioIsOne(a: nat, b: nat)
    requires 0 < b && a <= b
    ensures a as real / b as real == 1.0 <==> a == b
  {
    if a as real / b as real == 1.0 {
      assert a as real == b as real;
    }
  }

  /** Every visible required field of the section is filled. */
  predicate AllRequiredFilled(sec: Section, values: Record)
  {
    forall i :: 0 <= i < |sec.fields| && RequiredAndVisible(sec.fields[i], values) ==> FieldFilled(sec.fields[i], values)
  }

  lemma AllFilledComplete(sec: Section, values: Record)
    requires AllRequiredFilled(sec, values)
    ensures Completion(sec, values) == 1.0
  {
    var req := RequiredFields(sec, values);
    var p := FilledTest(values);
    assert forall f :: f in req ==> p(f) by {
      forall f | f in req ensures p(f) {
        var i :| 0 <= i < |sec.fields| && sec.fields[i] == f;
      }
    }
    FilterKeepsAll(req, p);
    assert FilledRequired(sec, values) == req;
    if |req| > 0 {
      RatioIsOne(|req|, |req|);
    }
  }

  lemma UnfilledIncomplete(sec: Section, values: Record, f: Field)
    requires f in sec.fields && RequiredAndVisible(f, values) && !FieldFilled(f, values)
    ensures Completion(sec, values) < 1.0
  {
    var req := RequiredFields(sec, values);
    var p := FilledTest(values);
    assert f in req;
    var i :| 0 <= i < |req| && req[i] == f;
    FilterDropsSome(req, p, i);
    assert |FilledRequired(sec, values)| < |req|;
    RatioIsOne(|FilledRequired(sec, values)|, |req|);
  }

  /** A section is complete exactly when every visible required field is filled. */
  lemma CompleteIffAllFilled(sec: Section, values: Record)
    ensures Completion(sec, values) == 1.0 <==> AllRequiredFilled(sec, values)
  {
    if AllRequiredFilled(sec, values) {
      AllFilledComplete(sec, values);
    } else {
      var i :| 0 <= i < |sec.fields| && RequiredAndVisible(sec.fields[i], values) && !FieldFilled(sec.fields[i], values);
      UnfilledIncomplete(sec, values, sec.fields[i]);
    }
  }

  /** `getSectionErrors`: the number of fields carrying a validation error. */
  function ErrorCount(fields: seq<Field>, errors: set<string>): (n: nat)
    ensures n <= |fields|
    ensures n == 0 <==> forall f :: f in fields ==> f.name !in errors
  {
    if fields == [] then 0
    else ErrorCount(fields[..|fields| - 1], errors) + (if fields[|fields| - 1].name in errors then 1 else 0)
  }
}
