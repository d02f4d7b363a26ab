/**
 * The shape of one field descriptor of the scouting form (`ScoutField` in
 * src/types.ts) and of the values the form stores.
 */
module Schema {
  import opened Wrappers

  /** A stored form value: JavaScript `string | number | boolean`, numbers being integers here. */
  datatype Value = StrValue(s: string) | NumValue(n: int) | BoolValue(b: bool)

  /** The seven control kinds a field can have. */
  datatype FieldKind = Text | Number | Select | Boolean | Counter | Timer | Range

  /** What a reset for the next match is meant to do with the field (declared, never acted on). */
  datatype ResetBehavior = Preserve | Increment | Reset

  /** One entry of a select's `choices`: the stored value and its display caption. */
  datatype Choice = Choice(value: string, caption: string)

  datatype FieldDescriptor = FieldDescriptor(
    kind: FieldKind,
    required: bool,
    code: string,
    formResetBehavior: ResetBehavior,
    defaultValue: Value,
    choices: Option<seq<Choice>>,
    min: Option<int>,
    max: Option<int>,
    step: Option<int>,
    outputType: Option<string>)

  /** The stored values a select field can take: its choice keys. */
  function ChoiceKeys(choices: seq<Choice>): (r: seq<string>)
    ensures |r| == |choices|
    ensures forall i :: 0 <= i < |choices| ==> r[i] == choices[i].value
  {
    seq(|choices|, i requires 0 <= i < |choices| => choices[i].value)
  }

  /** `v` lies within the optional bounds `lo` and `hi`. */
  predicate WithinBounds(v: int, lo: Option<int>, hi: Option<int>) {
    (lo.Some? ==> lo.value <= v) && (hi.Some? ==> v <= hi.value)
  }

  /**
   * The default agrees with the field's kind and constraints: text and select
   * fields hold strings, a select default is the empty "Select..." option or one
   * of its choice keys, boolean fields hold booleans, and the numeric kinds hold
   * a number within `min` and `max`.
   */
  predicate DefaultConforms(f: FieldDescriptor) {
    match f.kind
    case Text => f.defaultValue.StrValue?
    case Select =>
      && f.defaultValue.StrValue? && f.choices.Some?
      && (f.defaultValue.s == "" || f.defaultValue.s in ChoiceKeys(f.choices.value))
    case Boolean => f.defaultValue.BoolValue?
    case Number | Counter | Timer | Range =>
      f.defaultValue.NumValue? && WithinBounds(f.defaultValue.n, f.min, f.max)
  }

  /** The codes of a list of fields, in list order. */
  function Codes(fields: seq<FieldDescriptor>): (r: seq<string>)
    ensures |r| == |fields|
    ensures forall i :: 0 <= i < |fields| ==> r[i] == fields[i].code
  {
    seq(|fields|, i requires 0 <= i < |fields| => fields[i].code)
  }
}
