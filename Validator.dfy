/**
 * `SchemaValidator`: the checking context with its mutable path stack.
 *
 * The stack starts as `["$root"]`; a dict pushes the property name and a
 * list pushes `$i` around each child, and pops it after the child passes.
 * A failure leaves the stack where it was when the failure was raised, as
 * the exception in the source unwinds without popping.  Each traversal
 * method is proved to return exactly what the pure model returns for the
 * stack it started from: `Validate` and `ValidateField` equal
 * `Fields.Validate`, and `RunValidator`, `ValidateDict` and `ValidateList`
 * equal `Fields.Validator`.
 */
module Validator {
  import opened Wrappers
  import opened Values
  import opened Fields

  class SchemaValidator {
    const schema: Field
    const value: Value
    var path: seq<string>

    constructor (schema: Field, value: Value)
      ensures this.schema == schema && this.value == value
      ensures path == Root
    {
      this.schema := schema;
      this.value := value;
      path := Root;
    }

    method AddToPath(key: string)
      modifies this
      ensures path == old(path) + [key]
    {
      path := path + [key];
    }

    method PopPath()
      requires path != []
      modifies this
      ensures path == old(path)[..|old(path)| - 1]
    {
      path := path[..|path| - 1];
    }

    /** The failure `raise_error` signals: the kind and the current stack. */
    method RaiseError(kind: ErrorKind) returns (r: Outcome)
      ensures r.Fail? && r.error.kind == kind && r.error.path == path
    {
      r := Fail(Error(kind, path));
    }

    /** `SchemaValidator.validate`: the root field against the root value. */
    method Validate() returns (r: Outcome)
      modifies this
      ensures r == Fields.Validate(schema, value, old(path))
      ensures r.Pass? ==> path == old(path)
      ensures r.Fail? ==> path == r.error.path
    {
      r := ValidateField(schema, value);
    }

    /** `BaseField.validate` for `f` holding the value `v`. */
    method ValidateField(f: Field, v: Value) returns (r: Outcome)
      modifies this
      decreases f, 2
      ensures r == Fields.Validate(f, v, old(path))
      ensures r.Pass? ==> path == old(path)
      ensures r.Fail? ==> path == r.error.path
    {
      r := CheckRequired(f.required, v, path);
      if r.Fail? {
        return;
      }
      r := RunValidator(f, v);
    }

    /** Dispatch to the `validator` of `f`'s class. */
    method RunValidator(f: Field, v: Value) returns (r: Outcome)
      modifies this
      decreases f, 1
      ensures r == Validator(f, v, old(path))
      ensures r.Pass? ==> path == old(path)
      ensures r.Fail? ==> path == r.error.path
    {
      match f
      case IntField(_, min, max) => r := CheckInt(min, max, v, path);
      case FloatField(_, min, max) => r := CheckFloat(min, max, v, path);
      case StrField(_, minLength, maxLength) => r := CheckStr(minLength, maxLength, v, path);
      case BoolField(_) => r := CheckBool(v, path);
      case EnumField(_, accept) => r := CheckEnum(accept, v, path);
      case DictField(_, _, _, _) => r := ValidateDict(f, v);
      case ListField(_, _, _, _) => r := ValidateList(f, v);
    }

    /** `DictField.validator`: the strict scan, then the declared keys in order. */
    method ValidateDict(f: Field, v: Value) returns (r: Outcome)
      requires f.DictField?
      modifies this
      decreases f, 0
      ensures r == Validator(f, v, old(path))
      ensures r.Pass? ==> path == old(path)
      ensures r.Fail? ==> path == r.error.path
    {
      if !v.PyDict? {
        r := RaiseError(NotDict);
        return;
      }
      var entries := v.entries;
      if f.strict {
        for j := 0 to |entries|
          invariant FirstDisallowed(f, entries, 0) == FirstDisallowed(f, entries, j)
        {
          if !Allowed(f, entries[j].0) {
            r := RaiseError(NotAllowed(entries[j].0));
            return;
          }
        }
      }
      ghost var start := path;
      var i := 0;
      while i < |f.schema|
        invariant 0 <= i <= |f.schema|
        invariant path == start
        invariant ValidateProps(f, entries, 0, start) == ValidateProps(f, entries, i, start)
      {
        var key := f.schema[i].0;
        var child := f.schema[i].1;
        assert f.schema[i] in f.schema;
        var found := Lookup(entries, key);
        if found.None? {
          if key in f.optionalProps {
            i := i + 1;
            continue;
          }
          r := RaiseError(Missing(key));
          return;
        }
        AddToPath(key);
        r := ValidateField(child, found.value);
        if r.Fail? {
          return;
        }
        PopPath();
        i := i + 1;
      }
      r := Pass;
    }

    /** `ListField.validator`: the length bounds, then every element in index order. */
    method ValidateList(f: Field, v: Value) returns (r: Outcome)
      requires f.ListField?
      modifies this
      decreases f, 0
      ensures r == Validator(f, v, old(path))
      ensures r.Pass? ==> path == old(path)
      ensures r.Fail? ==> path == r.error.path
    {
      if !v.PyList? {
        r := RaiseError(NotList);
        return;
      }
      var items := v.items;
      r := CheckItemCount(|items|, f.minLength, f.maxLength, path);
      if r.Fail? {
        return;
      }
      ghost var start := path;
      for i := 0 to |items|
        invariant path == start
        invariant ValidateItems(f, items, 0, start) == ValidateItems(f, items, i, start)
      {
        AddToPath(IndexSegment(i));
        r := ValidateField(f.itemSchema, items[i]);
        if r.Fail? {
          return;
        }
        PopPath();
      }
      r := Pass;
    }
  }

  /**
   * One validation call as callers make it: a fresh `SchemaValidator` for
   * the schema and the value, then `validate()`.  Its outcome is the pure
   * one from the root path, so independent calls agree.
   */
  method ValidateValue(schema: Field, value: Value) returns (r: Outcome)
    ensures r == Fields.Validate(schema, value, Root)
    ensures r.Fail? ==> Root <= r.error.path
  {
    var validator := new SchemaValidator(schema, value);
    r := validator.Validate();
  }
}
