/**
 * What the validator promises, stated over the pure `Fields.Validate`:
 * the required check and the kind check come first, dicts and lists pass
 * exactly when all their children do, the first failure in traversal order
 * is the one reported, and a child's failure is located at the parent's
 * path plus the child's segment.
 */
module Properties {
  import opened Wrappers
  import opened Values
  import opened Fields
  import Text

  // ------------------------------------------- required check and kind check

  /** The exact Python type each field kind demands (`EnumField` demands none). */
  predicate KindMatches(f: Field, v: Value)
  {
    match f
    case IntField(_, _, _) => v.PyInt?
    case FloatField(_, _, _) => v.PyFloat?
    case StrField(_, _, _) => v.PyStr?
    case BoolField(_) => v.PyBool?
    case DictField(_, _, _, _) => v.PyDict?
    case ListField(_, _, _, _) => v.PyList?
    case EnumField(_, _) => true
  }

  /** The fixed message of each kind's type check. */
  function KindError(f: Field): ErrorKind
    requires !f.EnumField?
  {
    match f
    case IntField(_, _, _) => NotInt
    case FloatField(_, _, _) => NotFloat
    case StrField(_, _, _) => NotStr
    case BoolField(_) => NotBool
    case DictField(_, _, _, _) => NotDict
    case ListField(_, _, _, _) => NotList
  }

  /**
   * None given to a required field fails "The value is required" at the
   * current path, whatever the kind.  A field that is not required gets no
   * exemption: its own checks still run, so None passes only an enum that
   * accepts None.
   */
  lemma NoneHandling(f: Field, path: seq<string>)
    ensures f.required ==> Validate(f, PyNone, path) == Fail(Error(Required, path))
    ensures !f.required ==> Validate(f, PyNone, path) == Validator(f, PyNone, path)
    ensures !f.required ==> (Validate(f, PyNone, path).Pass? <==> f.EnumField? && PyNone in f.accept)
  {
  }

  /**
   * The exact type check gates everything after it: a value of another
   * type fails with the kind's fixed message at the current path, and no
   * value of another type ever passes.
   */
  lemma TypeGate(f: Field, v: Value, path: seq<string>)
    requires !f.EnumField?
    ensures !(f.required && v.PyNone?) && !KindMatches(f, v) ==>
              Validate(f, v, path) == Fail(Error(KindError(f), path))
    ensures Validate(f, v, path).Pass? ==> KindMatches(f, v)
  {
  }

  // ------------------------------------------------------------------ dicts

  /** Declared property `i` is satisfied by the dict entries. */
  predicate PropertyAccepted(f: Field, entries: seq<(string, Value)>, i: nat, path: seq<string>)
    requires f.DictField? && i < |f.schema|
  {
    var key := f.schema[i].0;
    if key in Keys(entries) then Validate(f.schema[i].1, Lookup(entries, key).value, path + [key]).Pass?
    else key in f.optionalProps
  }

  /**
   * One declared key: present, it is checked by its field one segment
   * deeper; absent and optional, it is skipped without looking at the
   * field; absent otherwise, it fails `The property "k" is missing` at the
   * dict's own path.
   */
  lemma PropertyOutcomeCases(f: Field, entries: seq<(string, Value)>, i: nat, path: seq<string>)
    requires f.DictField? && i < |f.schema|
    ensures PropertyOutcome(f, entries, i, path).Pass? <==> PropertyAccepted(f, entries, i, path)
    ensures f.schema[i].0 in Keys(entries) ==>
              PropertyOutcome(f, entries, i, path) ==
              Validate(f.schema[i].1, Lookup(entries, f.schema[i].0).value, path + [f.schema[i].0])
    ensures f.schema[i].0 !in Keys(entries) && f.schema[i].0 in f.optionalProps ==>
              PropertyOutcome(f, entries, i, path) == Pass
    ensures f.schema[i].0 !in Keys(entries) && f.schema[i].0 !in f.optionalProps ==>
              PropertyOutcome(f, entries, i, path) == Fail(Error(Missing(f.schema[i].0), path))
  {
  }

  lemma {:induction false} PropsPassIff(f: Field, entries: seq<(string, Value)>, i: nat, path: seq<string>)
    requires f.DictField? && i <= |f.schema|
    decreases |f.schema| - i
    ensures ValidateProps(f, entries, i, path).Pass? <==>
              forall j :: i <= j < |f.schema| ==> PropertyAccepted(f, entries, j, path)
  {
    if i < |f.schema| {
      PropertyOutcomeCases(f, entries, i, path);
      PropsPassIff(f, entries, i + 1, path);
    }
  }

  /**
   * A dict passes exactly when it is a dict, (if strict) every value key is
   * declared or optional, and every declared key is either present and
   * accepted by its field one segment deeper, or absent and optional (the
   * field's own `required` is then never consulted).
   */
  lemma DictPassesIff(f: Field, v: Value, path: seq<string>)
    requires f.DictField?
    ensures Validator(f, v, path).Pass? <==>
              && v.PyDict?
              && (f.strict ==> forall j :: 0 <= j < |v.entries| ==> Allowed(f, v.entries[j].0))
              && forall i :: 0 <= i < |f.schema| ==> PropertyAccepted(f, v.entries, i, path)
  {
    if v.PyDict? {
      PropsPassIff(f, v.entries, 0, path);
    }
  }

  /** The strict scan stops at the first key it rejects. */
  lemma {:induction false} FirstDisallowedFinds(f: Field, entries: seq<(string, Value)>, from: nat, i: nat)
    requires f.DictField? && from <= i < |entries| && !Allowed(f, entries[i].0)
    requires forall j :: from <= j < i ==> Allowed(f, entries[j].0)
    decreases i - from
    ensures FirstDisallowed(f, entries, from) == Some(entries[i].0)
  {
    if from < i {
      FirstDisallowedFinds(f, entries, from + 1, i);
    }
  }

  /**
   * In strict mode the first value key, in value order, that is neither
   * declared nor optional fails `The property "k" is not allowed` at the
   * dict's own path, before any missing-key or child check.
   */
  lemma StrictRejectsFirstUnknownKey(f: Field, entries: seq<(string, Value)>, i: nat, path: seq<string>)
    requires f.DictField? && f.strict
    requires i < |entries| && !Allowed(f, entries[i].0)
    requires forall j :: 0 <= j < i ==> Allowed(f, entries[j].0)
    ensures Validator(f, PyDict(entries), path) == Fail(Error(NotAllowed(entries[i].0), path))
  {
    FirstDisallowedFinds(f, entries, 0, i);
  }

  /** The names of the declared properties. */
  predicate Declared(f: Field, key: string)
    requires f.DictField?
  {
    key in Keys(f.schema)
  }

  lemma PropertySeesOnlyItsKey(f: Field, e1: seq<(string, Value)>, e2: seq<(string, Value)>, i: nat, path: seq<string>)
    requires f.DictField? && i < |f.schema|
    requires Lookup(e1, f.schema[i].0) == Lookup(e2, f.schema[i].0)
    ensures PropertyOutcome(f, e1, i, path) == PropertyOutcome(f, e2, i, path)
  {
  }

  lemma {:induction false} PropsSeeOnlyDeclared(f: Field, e1: seq<(string, Value)>, e2: seq<(string, Value)>, i: nat, path: seq<string>)
    requires f.DictField? && i <= |f.schema|
    requires forall k :: Declared(f, k) ==> Lookup(e1, k) == Lookup(e2, k)
    decreases |f.schema| - i
    ensures ValidateProps(f, e1, i, path) == ValidateProps(f, e2, i, path)
  {
    if i < |f.schema| {
      var key := f.schema[i].0;
      assert Declared(f, key);
      PropertySeesOnlyItsKey(f, e1, e2, i, path);
      PropsSeeOnlyDeclared(f, e1, e2, i + 1, path);
    }
  }

  /**
   * A dict that is not strict looks only at its declared keys: two dicts
   * that agree on those get the same outcome, whatever else they hold.
   */
  lemma NonStrictIgnoresUndeclared(f: Field, e1: seq<(string, Value)>, e2: seq<(string, Value)>, path: seq<string>)
    requires f.DictField? && !f.strict
    requires forall k :: Declared(f, k) ==> Lookup(e1, k) == Lookup(e2, k)
    ensures Validate(f, PyDict(e1), path) == Validate(f, PyDict(e2), path)
  {
    PropsSeeOnlyDeclared(f, e1, e2, 0, path);
  }

  /** Declared properties `i` to `j - 1` pass and property `j` decides the outcome. */
  predicate PropsFailAt(f: Field, entries: seq<(string, Value)>, i: nat, j: nat, path: seq<string>)
    requires f.DictField? && i <= j < |f.schema|
  {
    && (forall k :: i <= k < j ==> PropertyOutcome(f, entries, k, path).Pass?)
    && ValidateProps(f, entries, i, path) == PropertyOutcome(f, entries, j, path)
  }

  /**
   * Declared keys are visited in declaration order and only the first
   * failure is reported: when the declared properties from `i` on fail,
   * the outcome is that of the first of them that fails, all before it
   * having passed (see `PropertyOutcomeCases` for what each one does).
   */
  lemma {:induction false} PropsFirstFailure(f: Field, entries: seq<(string, Value)>, i: nat, path: seq<string>)
    requires f.DictField? && i <= |f.schema|
    requires ValidateProps(f, entries, i, path).Fail?
    decreases |f.schema| - i
    ensures exists j :: i <= j < |f.schema| && PropsFailAt(f, entries, i, j, path)
  {
    var here := PropertyOutcome(f, entries, i, path);
    if here.Pass? {
      PropsFirstFailure(f, entries, i + 1, path);
      var j :| i + 1 <= j < |f.schema| && PropsFailAt(f, entries, i + 1, j, path);
      assert PropsFailAt(f, entries, i, j, path);
    } else {
      assert PropsFailAt(f, entries, i, i, path);
    }
  }

  // ------------------------------------------------------------------ lists

  lemma {:induction false} ItemsPassIff(f: Field, items: seq<Value>, i: nat, path: seq<string>)
    requires f.ListField? && i <= |items|
    decreases |items| - i
    ensures ValidateItems(f, items, i, path).Pass? <==>
              forall j :: i <= j < |items| ==> Validate(f.itemSchema, items[j], path + [IndexSegment(j)]).Pass?
  {
    if i < |items| {
      ItemsPassIff(f, items, i + 1, path);
    }
  }

  /**
   * A list passes exactly when it is a list, its length is within the
   * inclusive bounds, and every element `i` passes the item field at the
   * path extended by `$i`.
   */
  lemma ListPassesIff(f: Field, v: Value, path: seq<string>)
    requires f.ListField?
    ensures Validator(f, v, path).Pass? <==>
              && v.PyList?
              && LengthWithin(|v.items|, f.minLength, f.maxLength)
              && forall i :: 0 <= i < |v.items| ==> Validate(f.itemSchema, v.items[i], path + [IndexSegment(i)]).Pass?
  {
    if v.PyList? {
      ItemsPassIff(f, v.items, 0, path);
    }
  }

  /**
   * The length is checked before any element is visited: a list of the
   * wrong length fails at the list's own path whatever its elements are.
   */
  lemma ListLengthFirst(f: Field, items: seq<Value>, path: seq<string>)
    requires f.ListField? && !LengthWithin(|items|, f.minLength, f.maxLength)
    ensures Validator(f, PyList(items), path).Fail?
    ensures Validator(f, PyList(items), path).error.path == path
    ensures Validator(f, PyList(items), path).error.kind ==
              if f.minLength.Some? && |items| < f.minLength.value then ItemsLessThan(f.minLength.value)
              else ItemsMoreThan(f.maxLength.value)
  {
  }

  lemma {:induction false} ItemsFirstFailure(f: Field, items: seq<Value>, i: nat, path: seq<string>)
    requires f.ListField? && i <= |items|
    requires ValidateItems(f, items, i, path).Fail?
    decreases |items| - i
    ensures exists j :: i <= j < |items|
                        && (forall k :: i <= k < j ==> Validate(f.itemSchema, items[k], path + [IndexSegment(k)]).Pass?)
                        && ValidateItems(f, items, i, path) == Validate(f.itemSchema, items[j], path + [IndexSegment(j)])
  {
    if Validate(f.itemSchema, items[i], path + [IndexSegment(i)]).Pass? {
      ItemsFirstFailure(f, items, i + 1, path);
    }
  }

  // ------------------------------------------------------------------ paths

  /** An outcome computed under the empty stack, moved under `prefix`. */
  function Under(prefix: seq<string>, r: Outcome): Outcome
  {
    match r
    case Pass => Pass
    case Fail(Error(kind, suffix)) => Fail(Error(kind, prefix + suffix))
  }

  lemma UnderUnder(p: seq<string>, q: seq<string>, r: Outcome)
    ensures Under(p, Under(q, r)) == Under(p + q, r)
  {
    if r.Fail? {
      assert p + (q + r.error.path) == (p + q) + r.error.path;
    }
  }

  /**
   * The stack the validation starts from only locates the failure: the
   * outcome under `path` is the outcome under the empty stack with `path`
   * put in front of the failure's path.  Hence a failure inside dict key
   * `k` or list element `i` is reported at the parent's path plus `k` or
   * `$i`, and no call depends on anything left over from another.
   */
  lemma {:induction false} ValidateUnder(f: Field, v: Value, path: seq<string>)
    decreases f, 2
    ensures Validate(f, v, path) == Under(path, Validate(f, v, []))
  {
    if !(f.required && v.PyNone?) {
      match f
      case DictField(_, _, _, strict) =>
        if v.PyDict? && !(strict && FirstDisallowed(f, v.entries, 0).Some?) {
          PropsUnder(f, v.entries, 0, path);
        }
      case ListField(_, _, minLength, maxLength) =>
        if v.PyList? && LengthWithin(|v.items|, minLength, maxLength) {
          ItemsUnder(f, v.items, 0, path);
        }
      case _ =>
    }
  }

  lemma {:induction false} PropsUnder(f: Field, entries: seq<(string, Value)>, i: nat, path: seq<string>)
    requires f.DictField? && i <= |f.schema|
    decreases f, 0, |f.schema| - i
    ensures ValidateProps(f, entries, i, path) == Under(path, ValidateProps(f, entries, i, []))
  {
    if i < |f.schema| {
      var key := f.schema[i].0;
      assert f.schema[i] in f.schema;
      var found := Lookup(entries, key);
      if found.Some? {
        var child := f.schema[i].1;
        ValidateUnder(child, found.value, path + [key]);
        ValidateUnder(child, found.value, [key]);
        UnderUnder(path, [key], Validate(child, found.value, []));
        assert [] + [key] == [key];
      }
      PropsUnder(f, entries, i + 1, path);
    }
  }

  lemma {:induction false} ItemsUnder(f: Field, items: seq<Value>, i: nat, path: seq<string>)
    requires f.ListField? && i <= |items|
    decreases f, 0, |items| - i
    ensures ValidateItems(f, items, i, path) == Under(path, ValidateItems(f, items, i, []))
  {
    if i < |items| {
      var segment := IndexSegment(i);
      ValidateUnder(f.itemSchema, items[i], path + [segment]);
      ValidateUnder(f.itemSchema, items[i], [segment]);
      UnderUnder(path, [segment], Validate(f.itemSchema, items[i], []));
      assert [] + [segment] == [segment];
      ItemsUnder(f, items, i + 1, path);
    }
  }

  /**
   * A failure reported from the root renders as "$root" followed by a dot
   * and a segment for each level of dict or list descent, in order: the
   * segments are those of the failure computed from the empty stack.
   */
  lemma RenderedFromRoot(f: Field, v: Value)
    requires Validate(f, v, Root).Fail?
    ensures Validate(f, v, []).Fail?
    ensures Validate(f, v, Root).error.path == Root + Validate(f, v, []).error.path
    ensures Text.Join(Validate(f, v, Root).error.path, ".") ==
              "$root" + Text.Prefixed(Validate(f, v, []).error.path, ".")
  {
    ValidateUnder(f, v, Root);
    Text.JoinFirst("$root", Validate(f, v, []).error.path, ".");
  }

  /** Distinct list indices give distinct path segments. */
  lemma IndexSegmentInjective(i: nat, j: nat)
    requires IndexSegment(i) == IndexSegment(j)
    ensures i == j
  {
    assert IndexSegment(i)[1..] == Text.NatToString(i);
    assert IndexSegment(j)[1..] == Text.NatToString(j);
    Text.ParseNatToString(i);
    Text.ParseNatToString(j);
  }
}
