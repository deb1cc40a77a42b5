/**
 * The schema fields of py_schema and the pure reference validator.
 *
 * A field is immutable schema data; the value under check and the current
 * path are explicit arguments instead of state stored on the field objects.
 * `Validate` is `BaseField.validate`: the required check, then the kind's
 * own `validator`.  A failure is returned as `Fail(Error(kind, path))`,
 * where `path` is the whole path stack at the point where `raise_error`
 * would have been called; the first failure in traversal order ends the
 * call.
 */
module Fields {
  import opened Wrappers
  import opened Values
  import Text

  /** A numeric bound as the caller wrote it: an int or a float literal. */
  datatype Number = IntBound(n: int) | FloatBound(x: real)
  {
    function AsReal(): real
    {
      match this
      case IntBound(n) => n as real
      case FloatBound(x) => x
    }
  }

  /**
   * The field classes as built data.  A `DictField`'s `schema` comes from a
   * Python dict, so its keys satisfy `Values.DistinctKeys`; the validator
   * does not rely on that, and with repeated keys it would visit each entry.
   */
  datatype Field =
    | IntField(required: bool, min: Option<Number>, max: Option<Number>)
    | FloatField(required: bool, min: Option<Number>, max: Option<Number>)
    | StrField(required: bool, minLength: Option<int>, maxLength: Option<int>)
    | BoolField(required: bool)
    | DictField(required: bool, schema: seq<(string, Field)>, optionalProps: seq<string>, strict: bool)
    | ListField(required: bool, itemSchema: Field, minLength: Option<int>, maxLength: Option<int>)
    | EnumField(required: bool, accept: seq<Value>)

  /** One constructor per message the validator can raise. */
  datatype ErrorKind =
    | Required
    | NotInt
    | NotFloat
    | NotStr
    | NotBool
    | NotDict
    | NotList
    | LessThan(bound: Number)
    | GreaterThan(bound: Number)
    | LengthLessThan(length: int)
    | LengthMoreThan(length: int)
    | ItemsLessThan(count: int)
    | ItemsMoreThan(count: int)
    | NotAllowed(key: string)
    | Missing(key: string)
    | NotAccepted

  /** The failure: its kind and the path stack when it was raised. */
  datatype Error = Error(kind: ErrorKind, path: seq<string>)

  datatype Outcome = Pass | Fail(error: Error)

  /** What `SchemaValidationError` carries: the message and the rendered path. */
  datatype SchemaValidationError = SchemaValidationError(message: string, path: string)

  /** The path stack of a fresh `SchemaValidator`. */
  const Root: seq<string> := ["$root"]

  /** The path segment pushed for list element `index`: "$" and the decimal index. */
  function IndexSegment(index: nat): (s: string)
    ensures |s| >= 2 && s[0] == '$'
    ensures forall k :: 1 <= k < |s| ==> Text.IsDigit(s[k])
  {
    "$" + Text.NatToString(index)
  }

  // ---------------------------------------------------------------- messages

  /**
   * A bound whose `str` is known: any int, and a float with an integral
   * value below 10^16 in magnitude, which Python prints as digits and ".0".
   */
  predicate NumberRenderable(b: Number)
  {
    b.FloatBound? ==> b.x == b.x.Floor as real && -10000000000000000.0 < b.x < 10000000000000000.0
  }

  /** `str` of a bound: an int's digits read back as the int, a float's as its value before ".0". */
  function NumberText(b: Number): (s: string)
    requires NumberRenderable(b)
    ensures b.IntBound? ==> Text.IsIntText(s) && Text.ParseInt(s) == b.n
    ensures b.FloatBound? ==>
              |s| >= 3 && s[|s| - 2..] == ".0" && Text.IsIntText(s[..|s| - 2]) && Text.ParseInt(s[..|s| - 2]) as real == b.x
  {
    match b
    case IntBound(n) =>
      Text.IntToStringRoundTrip(n);
      Text.IntToString(n)
    case FloatBound(x) =>
      Text.IntToStringRoundTrip(x.Floor);
      var digits := Text.IntToString(x.Floor);
      assert (digits + ".0")[..|digits|] == digits;
      digits + ".0"
  }

  predicate Renderable(k: ErrorKind)
  {
    (k.LessThan? || k.GreaterThan?) ==> NumberRenderable(k.bound)
  }

  /** The message text, with the source's spellings. */
  function Message(k: ErrorKind): (m: string)
    requires Renderable(k)
    ensures k.NotAllowed? || k.Missing? ==> |m| >= 14 && m[..14] == "The property \""
    ensures !(k.NotAllowed? || k.Missing?) ==> |m| >= 10 && m[..10] == "The value "
  {
    match k
    case Required => "The value is required"
    case NotInt => "The value is not an int"
    case NotFloat => "The value is not a float"
    case NotStr => "The value is not a str"
    case NotBool => "The value is not a bool"
    case NotDict => "The value is not a dict"
    case NotList => "The value is not a list"
    case LessThan(b) => "The value is less than " + NumberText(b)
    case GreaterThan(b) => "The value is greater than " + NumberText(b)
    case LengthLessThan(n) => "The value has less then " + Text.IntToString(n) + " length"
    case LengthMoreThan(n) => "The value has more then " + Text.IntToString(n) + " length"
    case ItemsLessThan(n) => "The value have less then " + Text.IntToString(n) + " item(s)"
    case ItemsMoreThan(n) => "The value have more then " + Text.IntToString(n) + " item(s)"
    case NotAllowed(key) => "The property \"" + key + "\" is not allowed"
    case Missing(key) => "The property \"" + key + "\" is missing"
    case NotAccepted => "The value is not accepted"
  }

  /** `raise_error`: the exception for a failure, with the path joined by dots. */
  function Raise(e: Error): (r: SchemaValidationError)
    requires Renderable(e.kind)
    ensures e.path != [] ==> |e.path[0]| <= |r.path| && r.path[..|e.path[0]|] == e.path[0]
    ensures e.path != [] ==>
              |e.path[|e.path| - 1]| <= |r.path| && r.path[|r.path| - |e.path[|e.path| - 1]|..] == e.path[|e.path| - 1]
  {
    if |e.path| > 1 then
      var last := e.path[|e.path| - 1];
      assert e.path[..|e.path| - 1] + [last] == e.path;
      Text.JoinAppend(e.path[..|e.path| - 1], last, ".");
      SchemaValidationError(Message(e.kind), Text.Join(e.path, "."))
    else
      SchemaValidationError(Message(e.kind), Text.Join(e.path, "."))
  }

  // ------------------------------------------------------- the scalar checks

  /** `validate_required`: only a required field rejects None here. */
  function CheckRequired(required: bool, v: Value, path: seq<string>): (r: Outcome)
    ensures r.Fail? <==> required && v.PyNone?
    ensures r.Fail? ==> r.error == Error(Required, path)
  {
    if required && v.PyNone? then Fail(Error(Required, path)) else Pass
  }

  /** The inclusive range an absent bound leaves open on its side. */
  predicate WithinBounds(x: real, min: Option<Number>, max: Option<Number>)
  {
    (min.Some? ==> min.value.AsReal() <= x) && (max.Some? ==> x <= max.value.AsReal())
  }

  /** The `min` then `max` tests shared by `IntField` and `FloatField`. */
  function CheckBounds(x: real, min: Option<Number>, max: Option<Number>, path: seq<string>): (r: Outcome)
    ensures r.Pass? <==> WithinBounds(x, min, max)
    ensures min.Some? && x < min.value.AsReal() ==> r == Fail(Error(LessThan(min.value), path))
    ensures (min.None? || min.value.AsReal() <= x) && max.Some? && x > max.value.AsReal() ==>
              r == Fail(Error(GreaterThan(max.value), path))
  {
    if min.Some? && x < min.value.AsReal() then Fail(Error(LessThan(min.value), path))
    else if max.Some? && x > max.value.AsReal() then Fail(Error(GreaterThan(max.value), path))
    else Pass
  }

  /** `IntField.validator`: exactly an int (a bool is not one), then the bounds. */
  function CheckInt(min: Option<Number>, max: Option<Number>, v: Value, path: seq<string>): (r: Outcome)
    ensures r.Pass? <==> v.PyInt? && WithinBounds(v.i as real, min, max)
    ensures !v.PyInt? ==> r == Fail(Error(NotInt, path))
    ensures r.Fail? ==> r.error.path == path
  {
    if !v.PyInt? then Fail(Error(NotInt, path)) else CheckBounds(v.i as real, min, max, path)
  }

  /** `FloatField.validator`: exactly a float (an int is not one), then the bounds. */
  function CheckFloat(min: Option<Number>, max: Option<Number>, v: Value, path: seq<string>): (r: Outcome)
    ensures r.Pass? <==> v.PyFloat? && WithinBounds(v.x, min, max)
    ensures !v.PyFloat? ==> r == Fail(Error(NotFloat, path))
    ensures r.Fail? ==> r.error.path == path
  {
    if !v.PyFloat? then Fail(Error(NotFloat, path)) else CheckBounds(v.x, min, max, path)
  }

  /** Inclusive length bounds; an absent bound never fails. */
  predicate LengthWithin(n: int, minLength: Option<int>, maxLength: Option<int>)
  {
    (minLength.Some? ==> minLength.value <= n) && (maxLength.Some? ==> n <= maxLength.value)
  }

  /** `StrField.validator`: exactly a str, then `len` against the bounds. */
  function CheckStr(minLength: Option<int>, maxLength: Option<int>, v: Value, path: seq<string>): (r: Outcome)
    ensures r.Pass? <==> v.PyStr? && LengthWithin(|v.s|, minLength, maxLength)
    ensures !v.PyStr? ==> r == Fail(Error(NotStr, path))
    ensures v.PyStr? && minLength.Some? && |v.s| < minLength.value ==>
              r == Fail(Error(LengthLessThan(minLength.value), path))
    ensures v.PyStr? && (minLength.None? || minLength.value <= |v.s|) && maxLength.Some? && |v.s| > maxLength.value ==>
              r == Fail(Error(LengthMoreThan(maxLength.value), path))
    ensures r.Fail? ==> r.error.path == path
  {
    if !v.PyStr? then Fail(Error(NotStr, path))
    else if minLength.Some? && |v.s| < minLength.value then Fail(Error(LengthLessThan(minLength.value), path))
    else if maxLength.Some? && |v.s| > maxLength.value then Fail(Error(LengthMoreThan(maxLength.value), path))
    else Pass
  }

  /** `BoolField.validator`: exactly a bool. */
  function CheckBool(v: Value, path: seq<string>): (r: Outcome)
    ensures r.Pass? <==> v.PyBool?
    ensures r.Fail? ==> r.error == Error(NotBool, path)
  {
    if !v.PyBool? then Fail(Error(NotBool, path)) else Pass
  }

  /** `EnumField.validator`: membership, with no type check before it. */
  function CheckEnum(accept: seq<Value>, v: Value, path: seq<string>): (r: Outcome)
    ensures r.Pass? <==> exists i :: 0 <= i < |accept| && accept[i] == v
    ensures r.Fail? ==> r.error == Error(NotAccepted, path)
  {
    if v !in accept then Fail(Error(NotAccepted, path)) else Pass
  }

  /** The `min_length` then `max_length` tests of `ListField.validator`. */
  function CheckItemCount(count: nat, minLength: Option<int>, maxLength: Option<int>, path: seq<string>): (r: Outcome)
    ensures r.Pass? <==> LengthWithin(count, minLength, maxLength)
    ensures minLength.Some? && count < minLength.value ==> r == Fail(Error(ItemsLessThan(minLength.value), path))
    ensures (minLength.None? || minLength.value <= count) && maxLength.Some? && count > maxLength.value ==>
              r == Fail(Error(ItemsMoreThan(maxLength.value), path))
  {
    if minLength.Some? && count < minLength.value then Fail(Error(ItemsLessThan(minLength.value), path))
    else if maxLength.Some? && count > maxLength.value then Fail(Error(ItemsMoreThan(maxLength.value), path))
    else Pass
  }

  // ------------------------------------------------------- the strict scan

  /** A value key a strict dict accepts: declared in `schema` or in `optional_props`. */
  predicate Allowed(f: Field, key: string)
    requires f.DictField?
  {
    key in Keys(f.schema) || key in f.optionalProps
  }

  /** The first key, from position `from` on in value order, that a strict dict rejects. */
  function FirstDisallowed(f: Field, entries: seq<(string, Value)>, from: nat): (r: Option<string>)
    requires f.DictField? && from <= |entries|
    decreases |entries| - from
    ensures r.None? <==> forall j :: from <= j < |entries| ==> Allowed(f, entries[j].0)
    ensures r.Some? ==> exists j :: from <= j < |entries| && entries[j].0 == r.value && !Allowed(f, r.value)
                                    && forall k :: from <= k < j ==> Allowed(f, entries[k].0)
  {
    if from == |entries| then None
    else if !Allowed(f, entries[from].0) then Some(entries[from].0)
    else FirstDisallowed(f, entries, from + 1)
  }

  // ------------------------------------------------------- the traversal

  /** `BaseField.validate`: the required check, then the field's own checks. */
  function Validate(f: Field, v: Value, path: seq<string>): (r: Outcome)
    decreases f, 2
    ensures r.Fail? ==> path <= r.error.path
  {
    var required := CheckRequired(f.required, v, path);
    if required.Fail? then required else Validator(f, v, path)
  }

  /** The `validator` method of each field class. */
  function Validator(f: Field, v: Value, path: seq<string>): (r: Outcome)
    decreases f, 1
    ensures r.Fail? ==> path <= r.error.path
  {
    match f
    case IntField(_, min, max) => CheckInt(min, max, v, path)
    case FloatField(_, min, max) => CheckFloat(min, max, v, path)
    case StrField(_, minLength, maxLength) => CheckStr(minLength, maxLength, v, path)
    case BoolField(_) => CheckBool(v, path)
    case EnumField(_, accept) => CheckEnum(accept, v, path)
    case DictField(_, _, _, strict) =>
      if !v.PyDict? then Fail(Error(NotDict, path))
      else if strict && FirstDisallowed(f, v.entries, 0).Some? then
        Fail(Error(NotAllowed(FirstDisallowed(f, v.entries, 0).value), path))
      else ValidateProps(f, v.entries, 0, path)
    case ListField(_, _, minLength, maxLength) =>
      if !v.PyList? then Fail(Error(NotList, path))
      else
        var count := CheckItemCount(|v.items|, minLength, maxLength, path);
        if count.Fail? then count else ValidateItems(f, v.items, 0, path)
  }

  /**
   * One declared property of a dict: a missing key fails unless it is
   * optional; a present one is checked by its field one segment deeper.
   */
  function PropertyOutcome(f: Field, entries: seq<(string, Value)>, i: nat, path: seq<string>): (r: Outcome)
    requires f.DictField? && i < |f.schema|
    decreases f, 0, 0
    ensures r.Fail? ==> path <= r.error.path
  {
    var key := f.schema[i].0;
    assert f.schema[i] in f.schema;
    match Lookup(entries, key)
    case None => if key in f.optionalProps then Pass else Fail(Error(Missing(key), path))
    case Some(x) => Validate(f.schema[i].1, x, path + [key])
  }

  /** The declared properties from position `i` on, in declaration order. */
  function ValidateProps(f: Field, entries: seq<(string, Value)>, i: nat, path: seq<string>): (r: Outcome)
    requires f.DictField? && i <= |f.schema|
    decreases f, 0, |f.schema| - i
    ensures r.Fail? ==> path <= r.error.path
  {
    if i == |f.schema| then Pass
    else
      var r := PropertyOutcome(f, entries, i, path);
      if r.Fail? then r else ValidateProps(f, entries, i + 1, path)
  }

  /** The list elements from index `i` on, each one `$i` segment deeper. */
  function ValidateItems(f: Field, items: seq<Value>, i: nat, path: seq<string>): (r: Outcome)
    requires f.ListField? && i <= |items|
    decreases f, 0, |items| - i
    ensures r.Fail? ==> path <= r.error.path
  {
    if i == |items| then Pass
    else
      var r := Validate(f.itemSchema, items[i], path + [IndexSegment(i)]);
      if r.Fail? then r else ValidateItems(f, items, i + 1, path)
  }
}
