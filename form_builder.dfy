/**
 * The configuration-driven form: whether a field is shown given the other
 * fields' values, the value, error and disabled flag a shown field gets, and
 * the value a change event hands to `handleChange`.
 */
module FormBuilder {
  import opened Js

  datatype FieldType =
    | TextField | EmailField | PasswordField | NumberField | SelectField | MultiselectField
    | CheckboxField | RadioField | DateField | TextareaField | SwitchField | SliderField
    | DividerField | CustomField

  datatype Condition = Equals | NotEquals | Contains | GreaterThan | LessThan

  /** `dependsOn`: the field watched, the value compared against, and how; no condition means equality. */
  datatype Dependency = Dependency(field: string, value: JsValue, condition: Option<Condition>)

  datatype FormField = FormField(
    name: string,
    kind: FieldType,
    defaultValue: JsValue,
    disabled: bool,
    dependsOn: Option<Dependency>)

  /** `values`, `errors` and `touched` are records keyed by field name. */
  type Record = seq<Prop>

  /** `Array.prototype.includes` on integers, strings and references. */
  predicate ArrayIncludes(items: seq<JsValue>, v: JsValue)
  {
    exists i :: 0 <= i < |items| && StrictEquals(items[i], v)
  }

  /** Whether a dependent value satisfies the condition against the expected value. */
  predicate Satisfies(actual: JsValue, condition: Option<Condition>, expected: JsValue)
  {
    match condition
    case Some(NotEquals) => !StrictEquals(actual, expected)
    case Some(Contains) =>
      if actual.Arr? then ArrayIncludes(actual.items, expected)
      else Includes(ToString(actual), ToString(expected))
    case Some(GreaterThan) =>
      var a, e := ToNumber(actual), ToNumber(expected);
      a.Some? && e.Some? && a.value > e.value
    case Some(LessThan) =>
      var a, e := ToNumber(actual), ToNumber(expected);
      a.Some? && e.Some? && a.value < e.value
    case _ => StrictEquals(actual, expected)
  }

  /** `isFieldVisible`. */
  predicate IsFieldVisible(f: FormField, values: Record)
  {
    f.dependsOn.None? || Satisfies(Get(values, f.dependsOn.value.field), f.dependsOn.value.condition, f.dependsOn.value.value)
  }

  /**
   * How the conditions relate: no dependency shows the field; a missing
   * condition is 'equals'; 'notEquals' is its negation; 'greaterThan' and
   * 'lessThan' never both hold and fail when either side is not a number.
   */
  lemma VisibilityConditions(f: FormField, values: Record, dep: Dependency)
    ensures f.dependsOn.None? ==> IsFieldVisible(f, values)
    ensures var actual := Get(values, dep.field);
      Satisfies(actual, None, dep.value) == Satisfies(actual, Some(Equals), dep.value)
      && Satisfies(actual, Some(NotEquals), dep.value) == !Satisfies(actual, Some(Equals), dep.value)
      && !(Satisfies(actual, Some(GreaterThan), dep.value) && Satisfies(actual, Some(LessThan), dep.value))
      && (ToNumber(actual).None? ==> !Satisfies(actual, Some(GreaterThan), dep.value) && !Satisfies(actual, Some(LessThan), dep.value))
  {
  }

  /** 'contains' on an array is membership; on anything else it is a substring of the string forms. */
  lemma ContainsCases(ref: nat, items: seq<JsValue>, s: string, t: string)
    ensures forall i :: 0 <= i < |items| && !items[i].Arr? && !items[i].Obj? ==>
      Satisfies(Arr(ref, items), Some(Contains), items[i])
    ensures Satisfies(Arr(ref, items), Some(Contains), Str(t)) <==> Str(t) in items
    ensures Satisfies(Str(s), Some(Contains), Str(t)) <==> Includes(s, t)
    ensures Satisfies(Undefined, Some(Contains), Str("def"))
  {
    forall i | 0 <= i < |items| && !items[i].Arr? && !items[i].Obj?
      ensures Satisfies(Arr(ref, items), Some(Contains), items[i])
    {
      StrictEqualsLaws(items[i], items[i]);
    }
    if Str(t) in items {
      var i :| 0 <= i < |items| && items[i] == Str(t);
      assert StrictEquals(items[i], Str(t));
    }
    assert OccursAt("undefined", "def", 2);
  }

  /** The value a field shows: the stored one if defined, else a truthy default, else ''. */
  function EffectiveValue(values: Record, name: string, defaultValue: JsValue): (r: JsValue)
    ensures !r.Undefined?
    ensures !Get(values, name).Undefined? ==> r == Get(values, name)
    ensures Get(values, name).Undefined? ==> r == (if Truthy(defaultValue) then defaultValue else Str(""))
  {
    var v := Get(values, name);
    if !v.Undefined? then v else if Truthy(defaultValue) then defaultValue else Str("")
  }

  /** The error text shown: only for a touched field that has an error, '' otherwise. */
  function ShownError(errors: Record, touched: Record, name: string): (r: JsValue)
    ensures Truthy(r) <==> Truthy(Get(touched, name)) && Truthy(Get(errors, name))
    ensures Truthy(r) ==> r == Get(errors, name)
    ensures !Truthy(r) ==> r == Str("")
  {
    if Truthy(Get(touched, name)) && Truthy(Get(errors, name)) then Get(errors, name) else Str("")
  }

  /** What a shown field is rendered with. */
  datatype FieldView = FieldView(value: JsValue, error: JsValue, disabled: bool)

  /** `renderField`: nothing for an invisible field. */
  function RenderField(f: FormField, values: Record, errors: Record, touched: Record,
                       formDisabled: bool, isSubmitting: bool): (r: Option<FieldView>)
    ensures r.None? <==> !IsFieldVisible(f, values)
    ensures r.Some? ==> r.value.value == EffectiveValue(values, f.name, f.defaultValue)
    ensures r.Some? ==> r.value.error == ShownError(errors, touched, f.name)
    ensures r.Some? ==> (r.value.disabled <==> formDisabled || f.disabled || isSubmitting)
  {
    if !IsFieldVisible(f, values) then None
    else Some(FieldView(EffectiveValue(values, f.name, f.defaultValue), ShownError(errors, touched, f.name),
                        formDisabled || f.disabled || isSubmitting))
  }

  /** What a change handler receives: no event, an event with a target, or some other value. */
  datatype ChangeEvent = NoEvent | TargetEvent(checked: bool, value: JsValue) | OtherEvent(raw: JsValue)

  /**
   * `handleFieldChange`: a value passed directly when there is no event, a
   * checkbox's `checked`, a target's `value`, or the argument itself.
   */
  function FieldChangeValue(kind: FieldType, e: ChangeEvent, newValue: JsValue): (r: JsValue)
    ensures e.NoEvent? && !newValue.Undefined? ==> r == newValue
    ensures e.NoEvent? && newValue.Undefined? ==> r == Null
    ensures e.TargetEvent? && kind == CheckboxField ==> r == Bool(e.checked)
    ensures e.TargetEvent? && kind != CheckboxField ==> r == e.value
    ensures e.OtherEvent? ==> r == e.raw
  {
    match e
    case NoEvent => if !newValue.Undefined? then newValue else Null
    case TargetEvent(checked, value) => if kind == CheckboxField then Bool(checked) else value
    case OtherEvent(raw) => raw
  }
}
