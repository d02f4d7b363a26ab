/**
 * The form state store: the record from field code to current value, how it
 * is built from the catalog defaults (src/App.tsx:446-451) and the counter
 * adjustment (`handleCounter`, src/App.tsx:473-487). The plain set
 * (`handleInputChange`, src/App.tsx:466-471) is `JsObject.Put`.
 */
module FormState {
  import opened Wrappers
  import opened Schema
  import opened JsObjects
  import Decimal

  type Form = JsObject<Value>

  /** The defaults of the fields, in field order. */
  function Defaults(fields: seq<FieldDescriptor>): (r: seq<Value>)
    ensures |r| == |fields|
    ensures forall i :: 0 <= i < |fields| ==> r[i] == fields[i].defaultValue
  {
    seq(|fields|, i requires 0 <= i < |fields| => fields[i].defaultValue)
  }

  /**
   * The initial form state: the `reduce` over the field list starting from
   * `{}`, each field writing its default under its code.
   */
  function InitialForm(fields: seq<FieldDescriptor>): (r: Form)
    ensures r.Valid()
  {
    Assign(Empty(), Codes(fields), Defaults(fields))
  }

  lemma CodesCons(fields: seq<FieldDescriptor>)
    requires fields != []
    ensures Codes(fields) == [fields[0].code] + Codes(fields[1..])
  {
  }

  /**
   * With pairwise-distinct codes the initial state has exactly one entry per
   * field, in field order, and each entry is that field's default.
   */
  lemma InitialFormDefaults(fields: seq<FieldDescriptor>)
    requires Distinct(Codes(fields))
    ensures InitialForm(fields).order == Codes(fields)
    ensures forall k :: k in InitialForm(fields).entries <==> k in Codes(fields)
    ensures forall i :: 0 <= i < |fields| ==>
              InitialForm(fields).Get(fields[i].code) == Some(fields[i].defaultValue)
  {
    var codes := Codes(fields);
    AssignOrder(Empty(), codes, Defaults(fields));
    AssignValues(Empty(), codes, Defaults(fields));
    assert [] + codes == codes;
    forall i | 0 <= i < |fields|
      ensures InitialForm(fields).Get(fields[i].code) == Some(fields[i].defaultValue)
    {
      assert fields[i].code == codes[i];
    }
  }

  /** `fields[i]` carries `code` and no field before it does. */
  ghost predicate FirstWithCode(fields: seq<FieldDescriptor>, code: string, i: int)
  {
    && 0 <= i < |fields|
    && fields[i].code == code
    && forall j :: 0 <= j < i ==> fields[j].code != code
  }

  /** A first match in the tail of `fields` is a first match in `fields` one place on. */
  lemma FirstWithCodeShift(fields: seq<FieldDescriptor>, code: string, v: FieldDescriptor)
    requires fields != [] && fields[0].code != code
    requires exists i :: FirstWithCode(fields[1..], code, i) && fields[1..][i] == v
    ensures exists i :: FirstWithCode(fields, code, i) && fields[i] == v
  {
    var i :| FirstWithCode(fields[1..], code, i) && fields[1..][i] == v;
    forall j | 0 <= j < i + 1
      ensures fields[j].code != code
    {
      if j > 0 {
        assert fields[j] == fields[1..][j - 1];
      }
    }
    assert fields[i + 1] == v;
  }

  /** `fields.find(f => f.code === code)`: the first field carrying `code`. */
  function FindField(fields: seq<FieldDescriptor>, code: string): (r: Option<FieldDescriptor>)
    ensures r.None? <==> code !in Codes(fields)
    ensures r.Some? ==> r.value in fields && r.value.code == code
    ensures r.Some? ==> exists i :: FirstWithCode(fields, code, i) && fields[i] == r.value
    decreases |fields|
  {
    if fields == [] then None
    else if fields[0].code == code then
      assert FirstWithCode(fields, code, 0);
      Some(fields[0])
    else
      CodesCons(fields);
      var r := FindField(fields[1..], code);
      if r.None? then r
      else
        FirstWithCodeShift(fields, code, r.value);
        r
  }

  /** `field.step || 1`: an absent or zero step counts as 1. */
  function StepOf(f: FieldDescriptor): (s: int)
    ensures s != 0
    ensures f.step.Some? && f.step.value != 0 ==> s == f.step.value
    ensures f.step.None? || f.step == Some(0) ==> s == 1
  {
    if f.step.Some? && f.step.value != 0 then f.step.value else 1
  }

  /**
   * The number `prev[code] || 0` stands for in the counter arithmetic: an absent
   * or falsy value (`undefined`, `0`, `""`, `false`) is 0 and `true` is 1. A
   * non-empty string has no such number (`+` concatenates instead): None.
   */
  function CounterOperand(v: Option<Value>): (r: Option<int>)
    ensures r.None? <==> v.Some? && v.value.StrValue? && v.value.s != ""
    ensures v.Some? && v.value.NumValue? ==> r == Some(v.value.n)
    ensures v.None? || v == Some(StrValue("")) ==> r == Some(0)
    ensures v.Some? && v.value.BoolValue? ==> r == Some(if v.value.b then 1 else 0)
  {
    match v
    case None => Some(0)
    case Some(NumValue(n)) => Some(n)
    case Some(BoolValue(b)) => Some(if b then 1 else 0)
    case Some(StrValue(s)) => if s == "" then Some(0) else None
  }

  /**
   * `handleCounter(code, increment)` over the fields `lookup` it searches:
   * no-op for a code none of them carries; otherwise `current + step` or
   * `Math.max(0, current - step)` under `code`.
   */
  function AdjustCounter(lookup: seq<FieldDescriptor>, form: Form, code: string, increment: bool): (r: Form)
    requires form.Valid()
    ensures r.Valid()
    ensures code !in Codes(lookup) ==> r == form
    ensures forall k :: k != code ==> r.Get(k) == form.Get(k)
    ensures r.entries.Keys <= form.entries.Keys + {code}
  {
    match FindField(lookup, code)
    case None => form
    case Some(field) =>
      var step := StepOf(field);
      match CounterOperand(form.Get(code))
      case Some(current) =>
        form.Put(code, NumValue(if increment then current + step else Max(0, current - step)))
      case None =>
        if increment then form.Put(code, StrValue(form.Get(code).value.s + Decimal.IntToString(step)))
        else form
  }

  /** `Math.max(a, b)`: the larger of the two. */
  function Max(a: int, b: int): (m: int)
    ensures m >= a && m >= b && (m == a || m == b)
  {
    if a < b then b else a
  }

  /**
   * The counter rule, for a code some lookup field carries and a current value
   * that is a number (or absent or falsy): increment adds the step; decrement
   * subtracts it but never goes below 0, landing on 0 exactly when the step
   * exceeds the current value.
   */
  lemma CounterRule(lookup: seq<FieldDescriptor>, form: Form, code: string, increment: bool)
    requires form.Valid() && code in Codes(lookup)
    requires CounterOperand(form.Get(code)).Some?
    ensures var current := CounterOperand(form.Get(code)).value;
            var step := StepOf(FindField(lookup, code).value);
            var after := AdjustCounter(lookup, form, code, increment).Get(code);
            && after.Some? && after.value.NumValue?
            && (increment ==> after.value.n == current + step)
            && (!increment ==> after.value.n >= 0)
            && (!increment && current >= step ==> after.value.n == current - step)
            && (!increment && current < step ==> after.value.n == 0)
  {
  }

  /** With a positive step, a counter that is not negative stays not negative. */
  lemma CounterStaysNonNegative(lookup: seq<FieldDescriptor>, form: Form, code: string, increment: bool)
    requires form.Valid() && code in Codes(lookup) && StepOf(FindField(lookup, code).value) > 0
    requires form.Get(code).Some? && form.Get(code).value.NumValue? && form.Get(code).value.n >= 0
    ensures AdjustCounter(lookup, form, code, increment).Get(code).value.NumValue?
    ensures AdjustCounter(lookup, form, code, increment).Get(code).value.n >= 0
  {
  }

  /**
   * A counter with step 1 at 0: decrement stays at 0, increment then gives 1,
   * and a second decrement gives 0 again.
   */
  lemma UnitCounterScenario(lookup: seq<FieldDescriptor>, form: Form, code: string)
    requires form.Valid() && FindField(lookup, code).Some? && StepOf(FindField(lookup, code).value) == 1
    requires form.Get(code) == Some(NumValue(0))
    ensures var f1 := AdjustCounter(lookup, form, code, false);
            var f2 := AdjustCounter(lookup, f1, code, true);
            var f3 := AdjustCounter(lookup, f2, code, false);
            && f1.Get(code) == Some(NumValue(0))
            && f2.Get(code) == Some(NumValue(1))
            && f3.Get(code) == Some(NumValue(0))
  {
    var f1 := AdjustCounter(lookup, form, code, false);
    CounterRule(lookup, form, code, false);
    var f2 := AdjustCounter(lookup, f1, code, true);
    CounterRule(lookup, f1, code, true);
    CounterRule(lookup, f2, code, false);
  }
}
