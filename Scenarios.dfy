/**
 * The behaviour the repository's unit tests assert, as lemmas about the
 * model: each failing case yields the exact message and dotted path of the
 * test, each passing case passes.
 */
module Scenarios {
  import opened Wrappers
  import opened Values
  import opened Fields
  import opened Properties

  /** `IntField(required=True)` given None. */
  lemma RequiredNone()
    ensures Validate(IntField(true, None, None), PyNone, Root) == Fail(Error(Required, Root))
    ensures Raise(Validate(IntField(true, None, None), PyNone, Root).error)
            == SchemaValidationError("The value is required", "$root")
  {
    RaiseAtRoot(Required);
  }

  /** The texts of the small numbers and of the root path that the messages below use. */
  lemma SmallTexts()
    ensures Text.IntToString(1) == "1" && Text.IntToString(4) == "4"
    ensures NumberText(IntBound(1)) == "1"
    ensures Text.Join(Root, ".") == "$root"
  {
    assert Text.NatToString(1) == "1";
    assert Text.NatToString(4) == "4";
  }

  /** The texts of the two key errors that the dict scenarios raise. */
  lemma KeyMessages()
    ensures Message(NotAllowed("baz")) == "The property \"baz\" is not allowed"
    ensures Message(Missing("bar")) == "The property \"bar\" is missing"
  {
  }

  /** A failure at the root renders with the path "$root". */
  lemma RaiseAtRoot(kind: ErrorKind)
    requires Renderable(kind)
    ensures Raise(Error(kind, Root)) == SchemaValidationError(Message(kind), "$root")
  {
    SmallTexts();
  }

  /** `IntField(required=True)` given 'abc'. */
  lemma IntNotInt()
    ensures Validate(IntField(true, None, None), PyStr("abc"), Root) == Fail(Error(NotInt, Root))
    ensures Raise(Validate(IntField(true, None, None), PyStr("abc"), Root).error) == SchemaValidationError("The value is not an int", "$root")
  {
    SmallTexts();
    RaiseAtRoot(NotInt);
    assert Message(NotInt) == "The value is not an int";
  }

  /** `IntField(min=1)` given 0. */
  lemma IntLessThanMin()
    ensures Validate(IntField(true, Some(IntBound(1)), None), PyInt(0), Root) == Fail(Error(LessThan(IntBound(1)), Root))
    ensures Raise(Validate(IntField(true, Some(IntBound(1)), None), PyInt(0), Root).error) == SchemaValidationError("The value is less than 1", "$root")
  {
    SmallTexts();
    RaiseAtRoot(LessThan(IntBound(1)));
    assert Message(LessThan(IntBound(1))) == "The value is less than 1";
  }

  /** `IntField(max=1)` given 2. */
  lemma IntGreaterThanMax()
    ensures Validate(IntField(true, None, Some(IntBound(1))), PyInt(2), Root) == Fail(Error(GreaterThan(IntBound(1)), Root))
    ensures Raise(Validate(IntField(true, None, Some(IntBound(1))), PyInt(2), Root).error) == SchemaValidationError("The value is greater than 1", "$root")
  {
    SmallTexts();
    RaiseAtRoot(GreaterThan(IntBound(1)));
    assert Message(GreaterThan(IntBound(1))) == "The value is greater than 1";
  }

  /** `IntField(min=1, max=10)` given 5. */
  lemma IntWithinBounds()
    ensures Validate(IntField(true, Some(IntBound(1)), Some(IntBound(10))), PyInt(5), Root) == Pass
  {
  }

  /** `IntField()` given True: a bool is not an int. */
  lemma IntRejectsBool()
    ensures Validate(IntField(true, None, None), PyBool(true), Root) == Fail(Error(NotInt, Root))
    ensures Raise(Validate(IntField(true, None, None), PyBool(true), Root).error) == SchemaValidationError("The value is not an int", "$root")
  {
    SmallTexts();
    RaiseAtRoot(NotInt);
    assert Message(NotInt) == "The value is not an int";
  }

  /** `StrField()` given 123. */
  lemma StrNotStr()
    ensures Validate(StrField(true, None, None), PyInt(123), Root) == Fail(Error(NotStr, Root))
    ensures Raise(Validate(StrField(true, None, None), PyInt(123), Root).error) == SchemaValidationError("The value is not a str", "$root")
  {
    SmallTexts();
    RaiseAtRoot(NotStr);
    assert Message(NotStr) == "The value is not a str";
  }

  /** `StrField(min_length=4)` given 'abc'. */
  lemma StrTooShort()
    ensures Validate(StrField(true, Some(4), None), PyStr("abc"), Root) == Fail(Error(LengthLessThan(4), Root))
    ensures Raise(Validate(StrField(true, Some(4), None), PyStr("abc"), Root).error) == SchemaValidationError("The value has less then 4 length", "$root")
  {
    SmallTexts();
    RaiseAtRoot(LengthLessThan(4));
    assert Message(LengthLessThan(4)) == "The value has less then 4 length";
  }

  /** `StrField(max_length=4)` given 'abcde'. */
  lemma StrTooLong()
    ensures Validate(StrField(true, None, Some(4)), PyStr("abcde"), Root) == Fail(Error(LengthMoreThan(4), Root))
    ensures Raise(Validate(StrField(true, None, Some(4)), PyStr("abcde"), Root).error) == SchemaValidationError("The value has more then 4 length", "$root")
  {
    SmallTexts();
    RaiseAtRoot(LengthMoreThan(4));
    assert Message(LengthMoreThan(4)) == "The value has more then 4 length";
  }

  /** `StrField(min_length=1, max_length=5)` given 'abcde'. */
  lemma StrWithinLengths()
    ensures Validate(StrField(true, Some(1), Some(5)), PyStr("abcde"), Root) == Pass
  {
  }

  /** `BoolField()` given 'abc'. */
  lemma BoolNotBool()
    ensures Validate(BoolField(true), PyStr("abc"), Root) == Fail(Error(NotBool, Root))
    ensures Raise(Validate(BoolField(true), PyStr("abc"), Root).error) == SchemaValidationError("The value is not a bool", "$root")
  {
    SmallTexts();
    RaiseAtRoot(NotBool);
    assert Message(NotBool) == "The value is not a bool";
  }

  /** `BoolField()` given False. */
  lemma BoolPasses()
    ensures Validate(BoolField(true), PyBool(false), Root) == Pass
  {
  }

  /** `FloatField()` given 'abc'. */
  lemma FloatNotFloat()
    ensures Validate(FloatField(true, None, None), PyStr("abc"), Root) == Fail(Error(NotFloat, Root))
    ensures Raise(Validate(FloatField(true, None, None), PyStr("abc"), Root).error) == SchemaValidationError("The value is not a float", "$root")
  {
    SmallTexts();
    RaiseAtRoot(NotFloat);
    assert Message(NotFloat) == "The value is not a float";
  }

  /** `FloatField(min=1)` given 0.0: the int bound is printed as written. */
  lemma FloatLessThanMin()
    ensures Validate(FloatField(true, Some(IntBound(1)), None), PyFloat(0.0), Root) == Fail(Error(LessThan(IntBound(1)), Root))
    ensures Raise(Validate(FloatField(true, Some(IntBound(1)), None), PyFloat(0.0), Root).error) == SchemaValidationError("The value is less than 1", "$root")
  {
    SmallTexts();
    RaiseAtRoot(LessThan(IntBound(1)));
    assert Message(LessThan(IntBound(1))) == "The value is less than 1";
  }

  /** `FloatField(max=1)` given 2.0. */
  lemma FloatGreaterThanMax()
    ensures Validate(FloatField(true, None, Some(IntBound(1))), PyFloat(2.0), Root) == Fail(Error(GreaterThan(IntBound(1)), Root))
    ensures Raise(Validate(FloatField(true, None, Some(IntBound(1))), PyFloat(2.0), Root).error) == SchemaValidationError("The value is greater than 1", "$root")
  {
    SmallTexts();
    RaiseAtRoot(GreaterThan(IntBound(1)));
    assert Message(GreaterThan(IntBound(1))) == "The value is greater than 1";
  }

  /** `FloatField(min=1, max=10)` given 5.0. */
  lemma FloatWithinBounds()
    ensures Validate(FloatField(true, Some(IntBound(1)), Some(IntBound(10))), PyFloat(5.0), Root) == Pass
  {
  }

  /** `DictField(schema={})` given 'abc'. */
  lemma DictNotDict()
    ensures Validate(DictField(true, [], [], false), PyStr("abc"), Root) == Fail(Error(NotDict, Root))
    ensures Raise(Validate(DictField(true, [], [], false), PyStr("abc"), Root).error) == SchemaValidationError("The value is not a dict", "$root")
  {
    SmallTexts();
    RaiseAtRoot(NotDict);
    assert Message(NotDict) == "The value is not a dict";
  }

  /** `ListField(item_schema=BoolField())` given 'abc'. */
  lemma ListNotList()
    ensures Validate(ListField(true, BoolField(true), None, None), PyStr("abc"), Root) == Fail(Error(NotList, Root))
    ensures Raise(Validate(ListField(true, BoolField(true), None, None), PyStr("abc"), Root).error) == SchemaValidationError("The value is not a list", "$root")
  {
    SmallTexts();
    RaiseAtRoot(NotList);
    assert Message(NotList) == "The value is not a list";
  }

  /** `ListField(item_schema=BoolField(), min_length=1)` given `[]`. */
  lemma ListTooShort()
    ensures Validate(ListField(true, BoolField(true), Some(1), None), PyList([]), Root) == Fail(Error(ItemsLessThan(1), Root))
    ensures Raise(Validate(ListField(true, BoolField(true), Some(1), None), PyList([]), Root).error) == SchemaValidationError("The value have less then 1 item(s)", "$root")
  {
    SmallTexts();
    RaiseAtRoot(ItemsLessThan(1));
    assert Message(ItemsLessThan(1)) == "The value have less then 1 item(s)";
  }

  /** `ListField(item_schema=BoolField(), max_length=1)` given `[True, False]`. */
  lemma ListTooLong()
    ensures Validate(ListField(true, BoolField(true), None, Some(1)), PyList([PyBool(true), PyBool(false)]), Root) == Fail(Error(ItemsMoreThan(1), Root))
    ensures Raise(Validate(ListField(true, BoolField(true), None, Some(1)), PyList([PyBool(true), PyBool(false)]), Root).error) == SchemaValidationError("The value have more then 1 item(s)", "$root")
  {
    SmallTexts();
    RaiseAtRoot(ItemsMoreThan(1));
    assert Message(ItemsMoreThan(1)) == "The value have more then 1 item(s)";
  }

  const Zelda := PyList([PyBool(true), PyBool(false), PyStr("zelda")])

  /** `ListField(item_schema=BoolField())` given `[True, False, 'zelda']`. */
  lemma ListItemPath()
    ensures Validate(ListField(true, BoolField(true), None, None), Zelda, Root) == Fail(Error(NotBool, ["$root", "$2"]))
    ensures Raise(Validate(ListField(true, BoolField(true), None, None), Zelda, Root).error)
            == SchemaValidationError("The value is not a bool", "$root.$2")
  {
    assert IndexSegment(0) == "$0";
    assert IndexSegment(1) == "$1";
    assert IndexSegment(2) == "$2";
    assert Text.Join(["$root", "$2"], ".") == "$root.$2";
  }

  const Inner := DictField(true, [("values", ListField(true, BoolField(true), None, None))], [], false)

  const InnerValue := PyDict([("values", PyList([PyBool(true), PyBool(false), PyStr("Link")]))])

  lemma InnerFailure(path: seq<string>)
    ensures Validate(Inner, InnerValue, path) == Fail(Error(NotBool, path + ["values", "$2"]))
  {
    assert IndexSegment(0) == "$0";
    assert IndexSegment(1) == "$1";
    assert IndexSegment(2) == "$2";
    assert path + ["values"] + ["$2"] == path + ["values", "$2"];
  }

  /** A list of dicts holding a list: the failure is at `$root.$0.values.$2`. */
  lemma NestedListOutcome()
    ensures Validate(ListField(true, Inner, None, None), PyList([InnerValue]), Root)
            == Fail(Error(NotBool, ["$root", "$0", "values", "$2"]))
  {
    var f := ListField(true, Inner, None, None);
    assert IndexSegment(0) == "$0";
    InnerFailure(Root + ["$0"]);
    assert Root + ["$0"] + ["values", "$2"] == ["$root", "$0", "values", "$2"];
    assert ValidateItems(f, [InnerValue], 0, Root) == Validate(Inner, InnerValue, Root + ["$0"]);
    assert CheckItemCount(1, None, None, Root) == Pass;
  }

  /** The same failure as the exception renders it. */
  lemma NestedListPath()
    ensures Validate(ListField(true, Inner, None, None), PyList([InnerValue]), Root)
            == Fail(Error(NotBool, ["$root", "$0", "values", "$2"]))
    ensures Raise(Validate(ListField(true, Inner, None, None), PyList([InnerValue]), Root).error)
            == SchemaValidationError("The value is not a bool", "$root.$0.values.$2")
  {
    NestedListOutcome();
    assert Text.Join(["$2"], ".") == "$2";
    assert Text.Join(["values", "$2"], ".") == "values.$2";
    assert Text.Join(["$0", "values", "$2"], ".") == "$0.values.$2";
    assert Text.Join(["$root", "$0", "values", "$2"], ".") == "$root.$0.values.$2";
    assert Message(NotBool) == "The value is not a bool";
  }

  const FooBar := [("foo", BoolField(true)), ("bar", BoolField(true))]

  const Strict := DictField(true, FooBar, [], true)

  const WithBaz := [("foo", PyBool(true)), ("bar", PyBool(false)), ("baz", PyNone)]

  /** A strict dict given the undeclared key "baz" (mapped to None). */
  lemma StrictNotAllowedOutcome()
    ensures Validate(Strict, PyDict(WithBaz), Root) == Fail(Error(NotAllowed("baz"), Root))
  {
    assert Keys(FooBar) == ["foo", "bar"];
    assert Allowed(Strict, WithBaz[0].0) && Allowed(Strict, WithBaz[1].0) && !Allowed(Strict, WithBaz[2].0);
    StrictRejectsFirstUnknownKey(Strict, WithBaz, 2, Root);
    assert CheckRequired(true, PyDict(WithBaz), Root) == Pass;
  }

  /** The same failure as the exception renders it. */
  lemma StrictNotAllowed()
    ensures Validate(Strict, PyDict(WithBaz), Root) == Fail(Error(NotAllowed("baz"), Root))
    ensures Raise(Validate(Strict, PyDict(WithBaz), Root).error)
            == SchemaValidationError("The property \"baz\" is not allowed", "$root")
  {
    StrictNotAllowedOutcome();
    KeyMessages();
    RaiseAtRoot(NotAllowed("baz"));
  }

  const WithAbc := [("foo", PyBool(true)), ("bar", PyStr("abc"))]

  /** A strict dict whose declared "bar" holds a str: the failure is at `$root.bar`. */
  lemma PropInvalidValueOutcome()
    ensures Validate(Strict, PyDict(WithAbc), Root) == Fail(Error(NotBool, ["$root", "bar"]))
  {
    assert Keys(FooBar) == ["foo", "bar"];
    assert Keys(WithAbc) == ["foo", "bar"];
    assert Allowed(Strict, WithAbc[0].0) && Allowed(Strict, WithAbc[1].0);
    assert FirstDisallowed(Strict, WithAbc, 0) == None;
    assert PropertyOutcome(Strict, WithAbc, 0, Root) == Validate(BoolField(true), PyBool(true), Root + ["foo"]) == Pass;
    assert PropertyOutcome(Strict, WithAbc, 1, Root) == Validate(BoolField(true), PyStr("abc"), Root + ["bar"]);
    assert ValidateProps(Strict, WithAbc, 0, Root) == ValidateProps(Strict, WithAbc, 1, Root);
  }

  /** The same failure as the exception renders it. */
  lemma PropInvalidValue()
    ensures Validate(Strict, PyDict(WithAbc), Root) == Fail(Error(NotBool, ["$root", "bar"]))
    ensures Raise(Validate(Strict, PyDict(WithAbc), Root).error)
            == SchemaValidationError("The value is not a bool", "$root.bar")
  {
    PropInvalidValueOutcome();
    assert Text.Join(["$root", "bar"], ".") == "$root.bar";
  }

  /** An optional key may be absent from a strict dict; a key that is not optional may not. */
  lemma OptionalAbsent()
    ensures Validate(DictField(true, FooBar, ["bar"], true), PyDict([("foo", PyBool(true))]), Root) == Pass
    ensures Validate(DictField(true, FooBar, [], false), PyDict([("foo", PyBool(true))]), Root)
            == Fail(Error(Missing("bar"), Root))
  {
    assert Keys(FooBar) == ["foo", "bar"];
    assert Keys([("foo", PyBool(true))]) == ["foo"];
  }

  /** A declared key absent from the dict renders as `The property "bar" is missing` at `$root`. */
  lemma MissingRendered()
    ensures Validate(DictField(true, FooBar, [], false), PyDict([("foo", PyBool(true))]), Root).Fail?
    ensures Raise(Validate(DictField(true, FooBar, [], false), PyDict([("foo", PyBool(true))]), Root).error)
            == SchemaValidationError("The property \"bar\" is missing", "$root")
  {
    OptionalAbsent();
    KeyMessages();
    RaiseAtRoot(Missing("bar"));
  }

  const Baz := DictField(true, [("baz", BoolField(true))], [], false)

  const BazValue := PyDict([("baz", PyInt(123))])

  const Outer := DictField(true, [("foo", BoolField(true)), ("bar", Baz)], [], true)

  const OuterEntries := [("foo", PyBool(true)), ("bar", BazValue)]

  lemma BazFailure(path: seq<string>)
    ensures Validate(Baz, BazValue, path) == Fail(Error(NotBool, path + ["baz"]))
  {
    assert Keys(BazValue.entries) == ["baz"];
    assert PropertyOutcome(Baz, BazValue.entries, 0, path) == Validate(BoolField(true), PyInt(123), path + ["baz"]);
  }

  /** A nested dict: the failure is at `$root.bar.baz`. */
  lemma NestedDictOutcome()
    ensures Validate(Outer, PyDict(OuterEntries), Root) == Fail(Error(NotBool, ["$root", "bar", "baz"]))
  {
    assert Keys(Outer.schema) == ["foo", "bar"];
    assert Keys(OuterEntries) == ["foo", "bar"];
    assert Allowed(Outer, OuterEntries[0].0) && Allowed(Outer, OuterEntries[1].0);
    assert FirstDisallowed(Outer, OuterEntries, 0) == None;
    assert PropertyOutcome(Outer, OuterEntries, 0, Root) == Validate(BoolField(true), PyBool(true), Root + ["foo"]) == Pass;
    BazFailure(Root + ["bar"]);
    assert Root + ["bar"] + ["baz"] == ["$root", "bar", "baz"];
    assert PropertyOutcome(Outer, OuterEntries, 1, Root) == Validate(Baz, BazValue, Root + ["bar"]);
    assert ValidateProps(Outer, OuterEntries, 0, Root) == ValidateProps(Outer, OuterEntries, 1, Root);
  }

  /** The same failure as the exception renders it. */
  lemma NestedDictPath()
    ensures Validate(Outer, PyDict(OuterEntries), Root) == Fail(Error(NotBool, ["$root", "bar", "baz"]))
    ensures Raise(Validate(Outer, PyDict(OuterEntries), Root).error)
            == SchemaValidationError("The value is not a bool", "$root.bar.baz")
  {
    NestedDictOutcome();
    assert Text.Join(["$root", "bar", "baz"], ".") == "$root.bar.baz";
  }

  /** `EnumField(accept=['123'])` given '456'. */
  lemma EnumNotAccepted()
    ensures Validate(EnumField(true, [PyStr("123")]), PyStr("456"), Root) == Fail(Error(NotAccepted, Root))
    ensures Raise(Validate(EnumField(true, [PyStr("123")]), PyStr("456"), Root).error)
            == SchemaValidationError("The value is not accepted", "$root")
  {
    RaiseAtRoot(NotAccepted);
  }

  /** The record schema of the full-schema test. */
  const Name := StrField(true, Some(2), Some(50))
  const Age := IntField(true, Some(IntBound(0)), Some(IntBound(120)))
  const Money := FloatField(true, Some(FloatBound(0.0)), Some(FloatBound(999.9)))
  const Alive := BoolField(true)
  const Gender := EnumField(true, [PyStr("M"), PyStr("F"), PyStr("O")])

  const Person: Field :=
    DictField(true, [("name", Name), ("age", Age), ("money", Money), ("alive", Alive), ("gender", Gender)],
              ["gender"], true)

  const Batman: Value :=
    PyDict([("name", PyStr("Batman")), ("age", PyInt(31)), ("money", PyFloat(999.0)),
            ("alive", PyBool(true)), ("gender", PyStr("M"))])

  const Superman: Value :=
    PyDict([("name", PyStr("Superman")), ("age", PyInt(29)), ("money", PyFloat(0.0)),
            ("alive", PyBool(true))])

  /** A declared key that is present and whose value its field accepts passes. */
  lemma PresentPropertyPasses(f: Field, entries: seq<(string, Value)>, i: nat, path: seq<string>, key: string, child: Field, x: Value)
    requires f.DictField? && i < |f.schema| && f.schema[i] == (key, child)
    requires Lookup(entries, key) == Some(x) && Validate(child, x, path + [key]) == Pass
    ensures PropertyOutcome(f, entries, i, path) == Pass
  {
  }

  /** The strict scan of a record: every key of the value is declared. */
  lemma RecordKeysDeclared(v: Value)
    requires v == Batman || v == Superman
    ensures FirstDisallowed(Person, v.entries, 0) == None
  {
    assert Keys(Person.schema) == ["name", "age", "money", "alive", "gender"];
    assert Keys(Batman.entries) == ["name", "age", "money", "alive", "gender"];
    assert Keys(Superman.entries) == ["name", "age", "money", "alive"];
  }

  lemma BatmanName(path: seq<string>)
    ensures PropertyOutcome(Person, Batman.entries, 0, path) == Pass
  {
    assert Validate(Name, PyStr("Batman"), path + ["name"]) == Pass;
    PresentPropertyPasses(Person, Batman.entries, 0, path, "name", Name, PyStr("Batman"));
  }

  lemma BatmanAge(path: seq<string>)
    ensures PropertyOutcome(Person, Batman.entries, 1, path) == Pass
  {
    assert Validate(Age, PyInt(31), path + ["age"]) == Pass;
    PresentPropertyPasses(Person, Batman.entries, 1, path, "age", Age, PyInt(31));
  }

  lemma BatmanMoney(path: seq<string>)
    ensures PropertyOutcome(Person, Batman.entries, 2, path) == Pass
  {
    assert Validate(Money, PyFloat(999.0), path + ["money"]) == Pass;
    PresentPropertyPasses(Person, Batman.entries, 2, path, "money", Money, PyFloat(999.0));
  }

  lemma BatmanAlive(path: seq<string>)
    ensures PropertyOutcome(Person, Batman.entries, 3, path) == Pass
  {
    assert Validate(Alive, PyBool(true), path + ["alive"]) == Pass;
    PresentPropertyPasses(Person, Batman.entries, 3, path, "alive", Alive, PyBool(true));
  }

  lemma BatmanGender(path: seq<string>)
    ensures PropertyOutcome(Person, Batman.entries, 4, path) == Pass
  {
    assert Validate(Gender, PyStr("M"), path + ["gender"]) == Pass;
    PresentPropertyPasses(Person, Batman.entries, 4, path, "gender", Gender, PyStr("M"));
  }

  lemma SupermanName(path: seq<string>)
    ensures PropertyOutcome(Person, Superman.entries, 0, path) == Pass
  {
    assert Validate(Name, PyStr("Superman"), path + ["name"]) == Pass;
    PresentPropertyPasses(Person, Superman.entries, 0, path, "name", Name, PyStr("Superman"));
  }

  lemma SupermanAge(path: seq<string>)
    ensures PropertyOutcome(Person, Superman.entries, 1, path) == Pass
  {
    assert Validate(Age, PyInt(29), path + ["age"]) == Pass;
    PresentPropertyPasses(Person, Superman.entries, 1, path, "age", Age, PyInt(29));
  }

  lemma SupermanMoney(path: seq<string>)
    ensures PropertyOutcome(Person, Superman.entries, 2, path) == Pass
  {
    assert Validate(Money, PyFloat(0.0), path + ["money"]) == Pass;
    PresentPropertyPasses(Person, Superman.entries, 2, path, "money", Money, PyFloat(0.0));
  }

  lemma SupermanAlive(path: seq<string>)
    ensures PropertyOutcome(Person, Superman.entries, 3, path) == Pass
  {
    assert Validate(Alive, PyBool(true), path + ["alive"]) == Pass;
    PresentPropertyPasses(Person, Superman.entries, 3, path, "alive", Alive, PyBool(true));
  }

  /** "gender" is optional, so the record without it is not asked for it. */
  lemma SupermanGender(path: seq<string>)
    ensures PropertyOutcome(Person, Superman.entries, 4, path) == Pass
  {
    assert Keys(Superman.entries) == ["name", "age", "money", "alive"];
    assert Person.schema[4] == ("gender", Gender);
  }

  lemma BatmanProperties(path: seq<string>)
    ensures forall i :: 0 <= i < |Person.schema| ==> PropertyOutcome(Person, Batman.entries, i, path) == Pass
  {
    assert |Person.schema| == 5;
    forall i | 0 <= i < 5 ensures PropertyOutcome(Person, Batman.entries, i, path) == Pass {
      if i == 0 { BatmanName(path); }
      else if i == 1 { BatmanAge(path); }
      else if i == 2 { BatmanMoney(path); }
      else if i == 3 { BatmanAlive(path); }
      else { BatmanGender(path); }
    }
  }

  lemma SupermanProperties(path: seq<string>)
    ensures forall i :: 0 <= i < |Person.schema| ==> PropertyOutcome(Person, Superman.entries, i, path) == Pass
  {
    assert |Person.schema| == 5;
    forall i | 0 <= i < 5 ensures PropertyOutcome(Person, Superman.entries, i, path) == Pass {
      if i == 0 { SupermanName(path); }
      else if i == 1 { SupermanAge(path); }
      else if i == 2 { SupermanMoney(path); }
      else if i == 3 { SupermanAlive(path); }
      else { SupermanGender(path); }
    }
  }

  /** A strict record whose declared properties all pass, passes. */
  lemma RecordPasses(v: Value, path: seq<string>)
    requires v.PyDict? && FirstDisallowed(Person, v.entries, 0) == None
    requires forall i :: 0 <= i < |Person.schema| ==> PropertyOutcome(Person, v.entries, i, path) == Pass
    ensures Validate(Person, v, path) == Pass
  {
    forall i | 0 <= i < |Person.schema| ensures PropertyAccepted(Person, v.entries, i, path) {
      PropertyOutcomeCases(Person, v.entries, i, path);
    }
    PropsPassIff(Person, v.entries, 0, path);
  }

  lemma BatmanPasses(path: seq<string>)
    ensures Validate(Person, Batman, path) == Pass
  {
    RecordKeysDeclared(Batman);
    BatmanProperties(path);
    RecordPasses(Batman, path);
  }

  lemma SupermanPasses(path: seq<string>)
    ensures Validate(Person, Superman, path) == Pass
  {
    RecordKeysDeclared(Superman);
    SupermanProperties(path);
    RecordPasses(Superman, path);
  }

  /** Two well-formed records, the second without the optional "gender", pass. */
  lemma FullSchemaPasses()
    ensures Validate(ListField(true, Person, Some(1), Some(3)), PyList([Batman, Superman]), Root) == Pass
  {
    var f := ListField(true, Person, Some(1), Some(3));
    BatmanPasses(Root + [IndexSegment(0)]);
    SupermanPasses(Root + [IndexSegment(1)]);
    assert ValidateItems(f, [Batman, Superman], 2, Root) == Pass;
    assert ValidateItems(f, [Batman, Superman], 1, Root) == Pass;
    assert ValidateItems(f, [Batman, Superman], 0, Root) == Pass;
  }
}
