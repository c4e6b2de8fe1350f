/** The JavaScript values that form fields hold, with the parts of the language's
    semantics the modelled code relies on: `typeof`, truthiness, object spread and `in`. */
module JsValues {
  import Decimal

  /** A JavaScript value. Numbers are integers here; functions and symbols do not occur. */
  datatype JsValue =
    | Undefined
    | Null
    | Bool(b: bool)
    | Num(n: int)
    | Str(s: string)
    | Arr(elems: seq<JsValue>)
    | Obj(props: map<string, JsValue>)

  /** `typeof v`: JavaScript reports "object" for null and for arrays as well as for records. */
  function TypeOf(v: JsValue): string
  {
    match v
    case Undefined => "undefined"
    case Null => "object"
    case Bool(_) => "boolean"
    case Num(_) => "number"
    case Str(_) => "string"
    case Arr(_) => "object"
    case Obj(_) => "object"
  }

  /** `!!v`: undefined, null, false, 0 and "" are falsy; every object, even an empty one, is truthy. */
  predicate Truthy(v: JsValue)
  {
    match v
    case Undefined => false
    case Null => false
    case Bool(b) => b
    case Num(n) => n != 0
    case Str(s) => s != ""
    case Arr(_) => true
    case Obj(_) => true
  }

  /** `typeof v === "object" && v !== null` */
  predicate IsNonNullObject(v: JsValue)
  {
    TypeOf(v) == "object" && v != Null
  }

  /** The own properties of an array: one per index, keyed by the index's decimal numeral. */
  function IndexEntries(elems: seq<JsValue>): map<string, JsValue>
  {
    if elems == [] then map[]
    else IndexEntries(elems[..|elems| - 1])[Decimal.NatToString(|elems| - 1) := elems[|elems| - 1]]
  }

  lemma {:induction false} IndexEntriesAt(elems: seq<JsValue>, i: nat)
    requires i < |elems|
    ensures Decimal.NatToString(i) in IndexEntries(elems)
    ensures IndexEntries(elems)[Decimal.NatToString(i)] == elems[i]
  {
    var n := |elems| - 1;
    if i < n {
      IndexEntriesAt(elems[..n], i);
      if Decimal.NatToString(i) == Decimal.NatToString(n) {
        Decimal.NatToStringInjective(i, n);
      }
    }
  }

  lemma {:induction false} IndexEntriesKeys(elems: seq<JsValue>, key: string)
    requires key in IndexEntries(elems)
    ensures exists i :: 0 <= i < |elems| && Decimal.NatToString(i) == key
  {
    var n := |elems| - 1;
    if key != Decimal.NatToString(n) {
      IndexEntriesKeys(elems[..n], key);
    }
  }

  /** The entries `{...v}` copies from an object-typed value: none from null,
      the record's own from a record, the indexed elements from an array. */
  function SpreadEntries(v: JsValue): map<string, JsValue>
    requires TypeOf(v) == "object"
  {
    match v
    case Null => map[]
    case Obj(props) => props
    case Arr(elems) => IndexEntries(elems)
  }

  /** `key in v` for a non-null object: a record's own keys, an array's indices and "length".
      Keys inherited from `Object.prototype` are not modelled. */
  predicate HasProperty(v: JsValue, key: string)
    requires IsNonNullObject(v)
  {
    match v
    case Obj(props) => key in props
    case Arr(elems) => key == "length" || exists i :: 0 <= i < |elems| && Decimal.NatToString(i) == key
  }

  /** A key that starts with a letter is never an array index. */
  lemma WordKeyNotOnArray(elems: seq<JsValue>, key: string)
    requires key != "length" && |key| > 0 && !Decimal.IsDigit(key[0])
    ensures !HasProperty(Arr(elems), key)
  {
  }
}
