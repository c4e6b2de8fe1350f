/** The value-handling rules of the form builder's field registry: the shape validator of
    each props type, and what each field type's change handlers pass to `setValue`. */
module FormBuilderComponents {
  import opened Wrappers
  import opened JsValues
  import Seqs
  import Decimal

  // ---------------------------------------------------------------------------
  // isValidValueProp
  // ---------------------------------------------------------------------------

  /** The shapes a field's value may take. */
  datatype PropsType = Boolean | Multiselect | ObjectiveWithInput | Select | Text | TextList | Variants

  /** `elems.every((v) => typeof v === "string")` */
  predicate EveryString(elems: seq<JsValue>)
  {
    if elems == [] then true else TypeOf(elems[0]) == "string" && EveryString(elems[1..])
  }

  lemma {:induction false} EveryStringIff(elems: seq<JsValue>)
    ensures EveryString(elems) <==> forall i :: 0 <= i < |elems| ==> elems[i].Str?
  {
    if elems != [] {
      EveryStringIff(elems[1..]);
      assert forall i :: 1 <= i < |elems| ==> elems[i] == elems[1..][i - 1];
    }
  }

  /** `isValidValueProp[propsType](val)`; no props type accepts undefined or null. */
  predicate IsValidValueProp(propsType: PropsType, val: JsValue): (valid: bool)
    ensures valid ==> val != Undefined && val != Null
  {
    match propsType
    case Boolean => TypeOf(val) == "boolean"
    case Multiselect => val.Arr? && EveryString(val.elems)
    case ObjectiveWithInput => if IsNonNullObject(val) then HasProperty(val, "value") else false
    case Select => TypeOf(val) == "string"
    case Text => TypeOf(val) == "string"
    case TextList => val.Arr? && EveryString(val.elems)
    case Variants => IsNonNullObject(val) || TypeOf(val) == "string"
  }

  lemma BooleanAcceptsExactlyBooleans(val: JsValue)
    ensures IsValidValueProp(Boolean, val) <==> val.Bool?
  {
  }

  lemma TextAndSelectAcceptExactlyStrings(val: JsValue)
    ensures IsValidValueProp(Text, val) <==> val.Str?
    ensures IsValidValueProp(Select, val) <==> val.Str?
  {
  }

  /** Both list shapes accept exactly the arrays all of whose elements are strings; so `[]` is valid. */
  lemma StringListsAcceptExactlyStringArrays(val: JsValue)
    ensures IsValidValueProp(Multiselect, val) <==> val.Arr? && forall i :: 0 <= i < |val.elems| ==> val.elems[i].Str?
    ensures IsValidValueProp(TextList, val) <==> val.Arr? && forall i :: 0 <= i < |val.elems| ==> val.elems[i].Str?
    ensures IsValidValueProp(Multiselect, Arr([])) && IsValidValueProp(TextList, Arr([]))
  {
    if val.Arr? {
      EveryStringIff(val.elems);
    }
    EveryStringIff([]);
  }

  /** Only a record that has a `value` key is accepted; arrays, which are objects too, never have one. */
  lemma ObjectiveWithInputAcceptsRecordsWithValue(val: JsValue)
    ensures IsValidValueProp(ObjectiveWithInput, val) <==> val.Obj? && "value" in val.props
  {
    if val.Arr? {
      WordKeyNotOnArray(val.elems, "value");
    }
  }

  /** Any string, and any non-null object, arrays included. */
  lemma VariantsAcceptsObjectsAndStrings(val: JsValue)
    ensures IsValidValueProp(Variants, val) <==> val.Obj? || val.Arr? || val.Str?
  {
  }

  // ---------------------------------------------------------------------------
  // name
  // ---------------------------------------------------------------------------

  const FullName: string := "fullName"
  const FirstAndLastName: string := "firstAndLastName"

  /** One input of a name variant. */
  datatype VariantField = VariantField(name: string, labelText: string, placeholder: string, required: bool)

  /** The configuration of one variant: its inputs, in display order. */
  datatype VariantConfig = VariantConfig(fields: seq<VariantField>)

  /** What rendering a field can throw: the registry's own configuration errors, and the
      TypeError JavaScript raises when the code reads a property of `undefined` or `null`. */
  datatype RenderError = ConfigError(message: string) | TypeError

  /** The inputs a name field renders: one text input bound to the full name,
      or one input per configured sub-field reading from a record. */
  datatype NameControl =
    | FullNameInput(text: string, field: VariantField)
    | SplitNameInputs(record: JsValue, fields: seq<VariantField>)

  const VariantsRequiredMessage: string := "'variants' is required for 'name' type of field"
  const InvalidNameValueMessage: string := "Invalid value for 'fullName' variant"

  function InvalidVariantMessage(variantName: string): string
  {
    "Invalid variant name '" + variantName + "' for 'name' type of field"
  }

  /** The destructuring default `variant: variantName = "fullName"`. */
  function VariantName(variant: Option<string>): (name: string)
    ensures variant.None? ==> name == FullName
    ensures variant.Some? ==> name == variant.value
  {
    GetOr(variant, FullName)
  }

  /** The `name` factory up to its inputs. `preprocess` stands for
      `preprocessNameFieldDataWithVariant`, which is defined elsewhere. */
  function NameFactory(variant: Option<string>, variants: Option<map<string, VariantConfig>>, value: JsValue,
                       preprocess: (string, JsValue) -> JsValue): (r: Result<NameControl, RenderError>)
    ensures variants.None? ==> r == Failure(ConfigError(VariantsRequiredMessage))
    ensures variants.Some? && VariantName(variant) != FullName && VariantName(variant) != FirstAndLastName ==>
              r == Failure(ConfigError(InvalidVariantMessage(VariantName(variant))))
    ensures variants.Some? && VariantName(variant) == FullName && !preprocess(FullName, value).Str? ==>
              r == Failure(ConfigError(InvalidNameValueMessage))
    ensures variants.Some? && VariantName(variant) == FirstAndLastName && TypeOf(preprocess(FirstAndLastName, value)) != "object" ==>
              r == Failure(ConfigError(InvalidNameValueMessage))
    ensures variants.Some? && VariantName(variant) == FullName && preprocess(FullName, value).Str? ==>
              if FullName in variants.value && |variants.value[FullName].fields| > 0
              then r == Success(FullNameInput(preprocess(FullName, value).s, variants.value[FullName].fields[0]))
              else r == Failure(TypeError)
    ensures variants.Some? && VariantName(variant) == FirstAndLastName && TypeOf(preprocess(FirstAndLastName, value)) == "object" ==>
              if FirstAndLastName !in variants.value ||
                 (preprocess(FirstAndLastName, value) == Null && |variants.value[FirstAndLastName].fields| > 0)
              then r == Failure(TypeError)
              else r == Success(SplitNameInputs(preprocess(FirstAndLastName, value), variants.value[FirstAndLastName].fields))
    ensures r.Success? && r.value.FullNameInput? ==>
              VariantName(variant) == FullName && preprocess(FullName, value) == Str(r.value.text)
    ensures r.Success? && r.value.SplitNameInputs? ==>
              VariantName(variant) == FirstAndLastName && r.value.record == preprocess(FirstAndLastName, value) &&
              TypeOf(r.value.record) == "object" && FirstAndLastName in variants.value &&
              r.value.fields == variants.value[FirstAndLastName].fields
  {
    var variantName := VariantName(variant);
    if variants.None? then Failure(ConfigError(VariantsRequiredMessage))
    else if variantName != FirstAndLastName && variantName != FullName then
      Failure(ConfigError(InvalidVariantMessage(variantName)))
    else
      var pre := preprocess(variantName, value);
      if variantName == FullName then
        if TypeOf(pre) != "string" then Failure(ConfigError(InvalidNameValueMessage))
        // `variant.fields[0]` reads through an absent variant or an absent first field
        else if FullName !in variants.value || |variants.value[FullName].fields| == 0 then Failure(TypeError)
        else Success(FullNameInput(pre.s, variants.value[FullName].fields[0]))
      else
        if TypeOf(pre) != "object" then Failure(ConfigError(InvalidNameValueMessage))
        // `variant.fields.map` on an absent variant, or `value[field.name]` on a null value
        else if FirstAndLastName !in variants.value then Failure(TypeError)
        else if pre == Null && |variants.value[FirstAndLastName].fields| > 0 then Failure(TypeError)
        else Success(SplitNameInputs(pre, variants.value[FirstAndLastName].fields))
  }

  /** Leaving the variant out is the same as asking for `fullName`. */
  lemma NameVariantDefaultsToFullName(variants: Option<map<string, VariantConfig>>, value: JsValue,
                                      preprocess: (string, JsValue) -> JsValue)
    ensures NameFactory(None, variants, value, preprocess) == NameFactory(Some(FullName), variants, value, preprocess)
  {
  }

  /** The full-name input's change handler stores the typed text itself. */
  function FullNameChange(text: string): (next: JsValue)
    ensures IsValidValueProp(Variants, next) && IsValidValueProp(Text, next)
    ensures next.Str? && next.s == text
  {
    Str(text)
  }

  /** The split inputs' `onChange(name, value)`: a value that is not an object counts as `{}`;
      the record's entries are copied and the one sub-field set. */
  function NameSubFieldChange(current: JsValue, name: string, text: string): (next: JsValue)
    ensures next.Obj? && IsValidValueProp(Variants, next)
    ensures name in next.props && next.props[name] == Str(text)
    ensures current.Obj? ==> next.props.Keys == current.props.Keys + {name}
    ensures current.Obj? ==> forall k :: k in current.props && k != name ==> next.props[k] == current.props[k]
    ensures TypeOf(current) != "object" || current == Null ==> next.props == map[name := Str(text)]
  {
    var base := if TypeOf(current) != "object" then Obj(map[]) else current;
    Obj(SpreadEntries(base)[name := Str(text)])
  }

  /** On an array value the spread copies each element under its index, and adds no other key
      than the sub-field's. */
  lemma NameSubFieldChangeOnArray(elems: seq<JsValue>, name: string, text: string, i: nat)
    requires i < |elems| && Decimal.NatToString(i) != name
    ensures Decimal.NatToString(i) in NameSubFieldChange(Arr(elems), name, text).props
    ensures NameSubFieldChange(Arr(elems), name, text).props[Decimal.NatToString(i)] == elems[i]
    ensures forall key :: key in NameSubFieldChange(Arr(elems), name, text).props ==>
              key == name || exists j: nat :: 0 <= j < |elems| && Decimal.NatToString(j) == key
  {
    IndexEntriesAt(elems, i);
    forall key | key in IndexEntries(elems) {
      IndexEntriesKeys(elems, key);
    }
    assert SpreadEntries(Arr(elems)) == IndexEntries(elems);
    assert NameSubFieldChange(Arr(elems), name, text).props == IndexEntries(elems)[name := Str(text)];
    assert forall key :: key in IndexEntries(elems) ==> exists j: nat :: 0 <= j < |elems| && Decimal.NatToString(j) == key;
  }

  /** Changes to two different sub-fields commute, and repeating a change changes nothing. */
  lemma NameSubFieldChangesCommute(current: JsValue, a: string, x: string, b: string, y: string)
    requires a != b
    ensures NameSubFieldChange(NameSubFieldChange(current, a, x), b, y) ==
            NameSubFieldChange(NameSubFieldChange(current, b, y), a, x)
    ensures NameSubFieldChange(NameSubFieldChange(current, a, x), a, x) == NameSubFieldChange(current, a, x)
  {
  }

  // ---------------------------------------------------------------------------
  // multiemail
  // ---------------------------------------------------------------------------

  /** The array of guest emails that the multiemail field edits in place and hands back to `setValue`. */
  class EmailList {
    var items: seq<string>

    constructor ()
      ensures items == []
    {
      items := [];
    }

    /** The "add" buttons: `value.push("")` */
    method Add() returns (passed: EmailList)
      modifies this
      ensures passed == this
      ensures items == old(items) + [""]
      ensures |items| == |old(items)| + 1
    {
      items := items + [""];
      passed := this;
    }

    /** An email input's change: `value[index] = e.target.value` */
    method Edit(index: nat, email: string) returns (passed: EmailList)
      requires index < |items|
      modifies this
      ensures passed == this
      ensures items == old(items)[index := email]
      ensures |items| == |old(items)|
      ensures forall j :: 0 <= j < |items| && j != index ==> items[j] == old(items)[j]
    {
      items := items[index := email];
      passed := this;
    }

    /** The remove button: `value.splice(index, 1)` */
    method Remove(index: nat) returns (passed: EmailList)
      requires index < |items|
      modifies this
      ensures passed == this
      ensures items == old(items)[..index] + old(items)[index + 1..]
      ensures |items| == |old(items)| - 1
      ensures forall j :: 0 <= j < index ==> items[j] == old(items)[j]
      ensures forall j :: index <= j < |items| ==> items[j] == old(items)[j + 1]
    {
      items := items[..index] + items[index + 1..];
      passed := this;
    }
  }

  /** `value = value || []`: an absent list is replaced by a fresh empty one; a present one is used, and later changed, as it is. */
  method NormaliseEmails(value: EmailList?) returns (list: EmailList)
    ensures value != null ==> list == value
    ensures value == null ==> fresh(list) && list.items == []
  {
    if value == null {
      list := new EmailList();
    } else {
      list := value;
    }
  }

  /** Which "add" button the field shows. */
  datatype AddEmailButton = AddGuests | AddAnotherGuest

  function AddEmailButtonShown(count: nat, readOnly: bool): (button: Option<AddEmailButton>)
    ensures readOnly <==> button.None?
    ensures button == Some(AddGuests) <==> !readOnly && count == 0
    ensures button == Some(AddAnotherGuest) <==> !readOnly && count > 0
  {
    if readOnly then None else if count > 0 then Some(AddAnotherGuest) else Some(AddGuests)
  }

  // ---------------------------------------------------------------------------
  // checkbox
  // ---------------------------------------------------------------------------

  /** The selection after toggling `optionValue`: every copy of it removed, then appended once if checked. */
  function Toggled(selection: seq<string>, optionValue: string, checked: bool): seq<string>
  {
    Seqs.Filter(selection, (v: string) => v != optionValue) + (if checked then [optionValue] else [])
  }

  /** The checkbox's `onChange`: `value || []` filtered, then pushed to. */
  method CheckboxToggle(value: Option<seq<string>>, optionValue: string, checked: bool) returns (newValue: seq<string>)
    ensures newValue == Toggled(GetOr(value, []), optionValue, checked)
  {
    var current := GetOr(value, []);
    ghost var keep := (v: string) => v != optionValue;
    newValue := [];
    var i := 0;
    while i < |current|
      invariant 0 <= i <= |current|
      invariant newValue + Seqs.Filter(current[i..], keep) == Seqs.Filter(current, keep)
    {
      assert current[i..][1..] == current[i + 1..];
      if current[i] != optionValue {
        newValue := newValue + [current[i]];
      }
      i := i + 1;
    }
    if checked {
      newValue := newValue + [optionValue];
    }
  }

  /** `checked={value.includes(option.value)}` */
  predicate IsChecked(selection: seq<string>, optionValue: string)
  {
    optionValue in selection
  }

  /** After a toggle the box shows the state it was toggled to, and every other box keeps its state. */
  lemma ToggleSetsCheckedState(selection: seq<string>, optionValue: string, checked: bool, other: string)
    requires other != optionValue
    ensures IsChecked(Toggled(selection, optionValue, checked), optionValue) == checked
    ensures IsChecked(Toggled(selection, optionValue, checked), other) == IsChecked(selection, other)
  {
    var keep := (v: string) => v != optionValue;
    Seqs.FilterMembership(selection, keep, optionValue);
    Seqs.FilterMembership(selection, keep, other);
  }

  /** The toggled value occurs at most once; every other value keeps its count and its relative order. */
  lemma ToggleCountsAndOrder(selection: seq<string>, optionValue: string, checked: bool, other: string)
    requires other != optionValue
    ensures multiset(Toggled(selection, optionValue, checked))[optionValue] == if checked then 1 else 0
    ensures multiset(Toggled(selection, optionValue, checked))[other] == multiset(selection)[other]
    ensures Seqs.IsSubsequence(Seqs.Filter(selection, (v: string) => v != optionValue), selection)
  {
    var keep := (v: string) => v != optionValue;
    Seqs.FilterCount(selection, keep, optionValue);
    Seqs.FilterCount(selection, keep, other);
    Seqs.FilterIsSubsequence(selection, keep);
  }

  /** Checking a box that was not checked appends it; unchecking it again restores the selection. */
  lemma ToggleOnThenOff(selection: seq<string>, optionValue: string)
    requires optionValue !in selection
    ensures Toggled(selection, optionValue, true) == selection + [optionValue]
    ensures Toggled(Toggled(selection, optionValue, true), optionValue, false) == selection
  {
    var keep := (v: string) => v != optionValue;
    Seqs.FilterKeepsAll(selection, keep);
    assert Seqs.Filter([optionValue], keep) == [];
    Seqs.FilterAppend(selection, [optionValue], keep);
  }

  // ---------------------------------------------------------------------------
  // select, multiselect, boolean
  // ---------------------------------------------------------------------------

  /** An option of a select-like field. */
  datatype FieldOption = FieldOption(labelText: string, value: string)

  /** An entry of the selection widgets' `listValues`. */
  datatype ListValue = ListValue(title: string, value: string)

  /** The selection widgets' entries: each option's label as the title, its value unchanged. */
  function ListValues(options: seq<FieldOption>): (list: seq<ListValue>)
    ensures |list| == |options|
    ensures forall i :: 0 <= i < |options| ==> list[i].title == options[i].labelText && list[i].value == options[i].value
  {
    Seqs.MapSeq(options, (o: FieldOption) => ListValue(o.labelText, o.value))
  }

  /** The boolean checkbox stores whether it is checked. */
  function BooleanChange(checked: bool): (next: JsValue)
    ensures IsValidValueProp(Boolean, next)
    ensures Truthy(next) <==> checked
  {
    if checked then Bool(true) else Bool(false)
  }

  // ---------------------------------------------------------------------------
  // radio
  // ---------------------------------------------------------------------------

  /** The `value` of each radio item: the option's label. */
  function RadioItemValues(options: seq<FieldOption>): (items: seq<string>)
    ensures |items| == |options|
    ensures forall i :: 0 <= i < |options| ==> items[i] == options[i].labelText
  {
    Seqs.MapSeq(options, (o: FieldOption) => o.labelText)
  }

  /** `onValueChange(e)` stores the chosen item's value as it is. */
  function RadioChange(itemValue: string): (next: JsValue)
    ensures IsValidValueProp(Select, next) && next.s == itemValue
  {
    Str(itemValue)
  }

  /** The group marks an item checked when the stored value equals the item's value. */
  predicate RadioItemChecked(options: seq<FieldOption>, value: JsValue, i: nat)
    requires i < |options|
  {
    value == Str(RadioItemValues(options)[i])
  }

  /** Choosing option `i` stores its label, not its value; afterwards exactly the options
      with that label show as checked. */
  lemma RadioStoresLabel(options: seq<FieldOption>, i: nat, j: nat)
    requires i < |options| && j < |options|
    ensures RadioChange(RadioItemValues(options)[i]) == Str(options[i].labelText)
    ensures options[i].labelText != options[i].value ==> RadioChange(RadioItemValues(options)[i]) != Str(options[i].value)
    ensures RadioItemChecked(options, RadioChange(RadioItemValues(options)[i]), j) <==> options[j].labelText == options[i].labelText
  {
  }

  // ---------------------------------------------------------------------------
  // radioInput
  // ---------------------------------------------------------------------------

  /** `{ value: choice, optionValue: optionValue }` */
  function RadioInputRecord(choice: JsValue, optionValue: JsValue): JsValue
  {
    Obj(map["value" := choice, "optionValue" := optionValue])
  }

  /** `v?.value`: the `value` entry of a record; undefined for anything else. */
  function ValueField(v: JsValue): JsValue
  {
    if v.Obj? && "value" in v.props then v.props["value"] else Undefined
  }

  /** `v?.optionValue` */
  function OptionValueField(v: JsValue): JsValue
  {
    if v.Obj? && "optionValue" in v.props then v.props["optionValue"] else Undefined
  }

  /** The effect run on each render: a falsy value is replaced by
      `{ value: options[0]?.value, optionValue: "" }`; otherwise nothing is set. */
  function RadioInputInit(options: seq<FieldOption>, value: JsValue): (init: Option<JsValue>)
    ensures init.Some? <==> !Truthy(value)
    ensures init.Some? ==> IsValidValueProp(ObjectiveWithInput, init.value) && OptionValueField(init.value) == Str("")
    ensures init.Some? ==> init.value.Obj? && init.value.props.Keys == {"value", "optionValue"}
    ensures init.Some? && options != [] ==> ValueField(init.value) == Str(options[0].value)
    ensures init.Some? && options == [] ==> ValueField(init.value) == Undefined
  {
    if Truthy(value) then None
    else Some(RadioInputRecord(if options != [] then Str(options[0].value) else Undefined, Str("")))
  }

  /** The initial value is truthy, so the effect sets the value at most once. */
  lemma RadioInputInitIsOneShot(options: seq<FieldOption>, value: JsValue)
    requires RadioInputInit(options, value).Some?
    ensures RadioInputInit(options, RadioInputInit(options, value).value).None?
  {
  }

  /** Choosing a radio option (shown only when there is more than one) stores the option's
      value and resets the dependent input. */
  function RadioInputChoose(options: seq<FieldOption>, i: nat): (next: JsValue)
    requires 1 < |options| && i < |options|
    ensures IsValidValueProp(ObjectiveWithInput, next)
    ensures ValueField(next) == Str(options[i].value) && OptionValueField(next) == Str("")
    ensures next.Obj? && next.props.Keys == {"value", "optionValue"}
  {
    RadioInputRecord(Str(options[i].value), Str(""))
  }

  /** `checked={value?.value === option.value}` */
  predicate RadioInputChecked(value: JsValue, option: FieldOption)
  {
    ValueField(value) == Str(option.value)
  }

  lemma RadioInputChooseChecks(options: seq<FieldOption>, i: nat, j: nat)
    requires 1 < |options| && i < |options| && j < |options|
    ensures RadioInputChecked(RadioInputChoose(options, i), options[j]) <==> options[j].value == options[i].value
  {
  }

  /** The dependent input's `setValue(val)`: the chosen option is kept and `val || ""` stored. */
  function RadioInputSubFieldChange(value: JsValue, val: JsValue): (next: JsValue)
    ensures IsValidValueProp(ObjectiveWithInput, next)
    ensures ValueField(next) == ValueField(value)
    ensures Truthy(val) ==> OptionValueField(next) == val
    ensures !Truthy(val) ==> OptionValueField(next) == Str("")
    ensures next.Obj? && next.props.Keys == {"value", "optionValue"}
  {
    RadioInputRecord(ValueField(value), if Truthy(val) then val else Str(""))
  }
}
