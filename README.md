# py_schema in Dafny

A model of `py_schema`, a small schema validator for Python values. A
schema is a tree of fields: `IntField`, `FloatField`, `StrField`,
`BoolField`, `EnumField`, `DictField` (named properties, optional keys,
strict mode) and `ListField` (one item field for every element). A
`SchemaValidator` walks a value against the schema depth first, keeping a
stack of path segments that starts as `["$root"]`. It stops at the first
failure and raises `SchemaValidationError`, whose message is fixed per
check and whose path is the stack joined with dots (`$root.bar.baz`,
`$root.$0.values.$2`).

The project has these modules:

- `Values`: the Python values a schema sees.
- `Text`: `str(n)` for integers and `'.'.join`.
- `Fields`: the fields as data, the error kinds with their verbatim
  messages, and the pure reference validator `Validate`. `Validate` runs
  the required check, then the field's `validator`.
- `Validator`: the imperative `SchemaValidator`. It is a class with a
  mutable `path` field, push and pop methods, and loops over dict
  properties and list elements. Each traversal method is proved to return
  exactly what the pure model returns from the stack it started on:
  `Validate` and `ValidateField` equal `Fields.Validate`, and
  `RunValidator`, `ValidateDict` and `ValidateList` equal
  `Fields.Validator`. On success the stack is left as it was. On failure
  it is left at the failing element, as the unwinding exception leaves
  it. `AddToPath`, `PopPath` and `RaiseError` change or read the stack
  only.
- `Properties`: what the validator promises, stated over `Validate`.
- `Scenarios`: the cases of the repository's unit tests, stated as lemmas
  with their exact messages and paths.

A raised exception is modelled as the outcome `Fail(Error(kind, path))`.
`Raise` turns that outcome into the message and dotted path that
`SchemaValidationError` carries.

## Model

| member | source | states |
|---|---|---|
| Fields.CheckRequired | py_schema.py:39-41 | fails exactly when the field is required and the value is None, with "The value is required" at the current path |
| Fields.CheckBounds | py_schema.py:63-71 | passes exactly when the number lies within the inclusive bounds; below `min` fails "less than min" before `max` is looked at; above `max` fails "greater than max" |
| Fields.CheckInt | py_schema.py:57-71 | passes exactly when the value is an int (not a bool) within the bounds; any other type fails "The value is not an int"; failures stay at the current path |
| Fields.CheckFloat | py_schema.py:80-94 | passes exactly when the value is a float (not an int) within the bounds; any other type fails "The value is not a float" |
| Fields.CheckStr | py_schema.py:103-117 | passes exactly when the value is a str whose length is within the inclusive bounds; names the failing bound, with min tested before max |
| Fields.CheckBool | py_schema.py:121-125 | passes exactly when the value is a bool, otherwise fails "The value is not a bool" at the current path |
| Fields.CheckEnum | py_schema.py:207-211 | passes exactly when some element of `accept` equals the value, with no type check first; otherwise fails "The value is not accepted" |
| Fields.CheckItemCount | py_schema.py:182-190 | passes exactly when the list length is within the inclusive bounds; names the failing bound, with min tested before max |
| Fields.FirstDisallowed | py_schema.py:141-146 | none exactly when every value key is declared or optional; otherwise the first such key, in value order, that is neither |
| Fields.Validate | py_schema.py:46-48 | the required check, then the field's own checks; a failure is located at or below the starting path |
| Fields.Validator | py_schema.py:57-211 | a failure raised by any field's `validator` is located at or below the starting path |
| Fields.PropertyOutcome | py_schema.py:149-164 | a failure from one declared property is located at or below the dict's path |
| Fields.ValidateProps | py_schema.py:148-166 | a failure from the declared properties is located at or below the dict's path |
| Fields.ValidateItems | py_schema.py:192-199 | a failure from the list elements is located at or below the list's path |
| Fields.IndexSegment | py_schema.py:193 | the segment `f'${index}'`: a "$" followed by decimal digits only |
| Fields.NumberText | py_schema.py:63-71 | `str` of a bound: an int bound's text reads back as the int; an integral float bound's text is digits that read back as its value, then ".0" |
| Fields.Message | py_schema.py:39-211 | a key error's message begins `The property "` and every other message begins "The value "; the full verbatim text of every kind is checked by a Scenarios rendering |
| Fields.Raise | py_schema.py:21-25 | the exception's dotted path begins with the first segment of the stack and ends with the last; the exact texts are checked by the Scenarios renderings |
| Values.Keys | py_schema.py:142 | the value keys, one per entry, in insertion order |
| Values.Lookup | py_schema.py:149-161 | `key in d` exactly when a value is found, and the value found is stored under that key |
| Values.LookupDistinct | py_schema.py:157-161 | in a dict without repeated keys, as every Python dict is, `d[key]` is the value of the one entry holding `key` |
| Text.NatToString | py_schema.py:193 | `str(n)` of a natural: at least one digit, all decimal digits, no leading zero |
| Text.ParseNatToString | py_schema.py:193 | the decimal text of a natural reads back as that natural, so distinct indices give distinct `$i` segments |
| Text.IntToString | py_schema.py:65 | `str(i)`: a minus sign exactly when `i` is negative, then at least one decimal digit and nothing else, with no leading zero unless the text is "0" |
| Text.IntToStringRoundTrip | py_schema.py:65 | the text of an int reads back as that int, so distinct bounds print differently |
| Text.Join | py_schema.py:24 | `'.'.join(path)` begins with the first segment |
| Text.JoinAppend | py_schema.py:24 | joining one more segment appends the separator and the segment to the rendered path |
| Text.JoinFirst | py_schema.py:24 | the join is the first segment followed, for each further segment in order, by the separator and that segment |
| Validator.SchemaValidator.constructor | py_schema.py:10-13 | a new validator holds the schema and the value, and its stack is `["$root"]` |
| Validator.SchemaValidator.AddToPath | py_schema.py:15-16 | appends the segment to the stack |
| Validator.SchemaValidator.PopPath | py_schema.py:18-19 | drops the last segment of the stack |
| Validator.SchemaValidator.RaiseError | py_schema.py:21-25 | a failure with the given kind at the current stack |
| Validator.SchemaValidator.Validate | py_schema.py:27-30 | the outcome of the root field on the root value, equal to the pure `Validate` from the current stack; the stack is restored on success and left at the failure on failure, so a validator reused after a failure starts from the stack that failure left |
| Validator.SchemaValidator.ValidateField | py_schema.py:46-48 | the required check, then the field's own checks, equal to the pure `Validate`; the stack is restored on success and left at the failure on failure |
| Validator.SchemaValidator.RunValidator | py_schema.py:43-44 | dispatches to the `validator` of the field's class, equal to the pure `Validator`, with the same stack discipline |
| Validator.SchemaValidator.ValidateDict | py_schema.py:135-166 | the type check, the strict scan in value order, then each declared key in order, with a push and pop around each child; equal to the pure `Validator`, and the stack is balanced on success |
| Validator.SchemaValidator.ValidateList | py_schema.py:176-199 | the type check, the length bounds, then each element with `$i` pushed and popped; equal to the pure `Validator`, and the stack is balanced on success |
| Validator.ValidateValue | py_schema.py:9-30 | a fresh validator called once yields the pure outcome from `["$root"]`, and any failure path starts with `$root` |
| Properties.NoneHandling | py_schema.py:39-48 | None fails "The value is required" at the current path for every required field; a non-required field still runs its own checks, so None passes only an enum whose `accept` holds None |
| Properties.TypeGate | py_schema.py:58-61 | for every field except an enum, a value of another type that escapes the required check fails with that kind's message at the current path, and nothing of another type ever passes |
| Properties.PropertyOutcomeCases | py_schema.py:149-164 | one declared key passes exactly when it is accepted; present, it is checked one segment deeper; absent and optional, it passes without its field; absent otherwise, it fails "The property \"k\" is missing" at the dict's path |
| Properties.PropsPassIff | py_schema.py:148-166 | the declared keys from position `i` on pass exactly when every one of them is accepted |
| Properties.DictPassesIff | py_schema.py:135-166 | a dict field passes exactly when the value is a dict, a strict one holds only declared or optional keys, and every declared key is accepted |
| Properties.FirstDisallowedFinds | py_schema.py:141-146 | the strict scan returns the first key it rejects |
| Properties.StrictRejectsFirstUnknownKey | py_schema.py:141-146 | a strict dict fails "The property \"k\" is not allowed" for its first unknown key, at its own path, before any missing-key or child check |
| Properties.PropertySeesOnlyItsKey | py_schema.py:149-164 | a declared property's outcome depends only on the value stored under its own key |
| Properties.PropsSeeOnlyDeclared | py_schema.py:148-166 | the declared-key pass depends only on the values stored under declared keys |
| Properties.NonStrictIgnoresUndeclared | py_schema.py:141-166 | a dict that is not strict gets the same outcome for any two values that agree on the declared keys, whatever extra keys they hold |
| Properties.PropsFirstFailure | py_schema.py:148-166 | when the declared keys fail, the outcome is that of the first failing key, and all earlier keys pass |
| Properties.ItemsPassIff | py_schema.py:192-199 | the elements from index `i` on pass exactly when each passes the item field at the path extended by `$i` |
| Properties.ListPassesIff | py_schema.py:176-199 | a list field passes exactly when the value is a list with a length within bounds whose every element passes at `$i` |
| Properties.ListLengthFirst | py_schema.py:182-190 | a list of the wrong length fails at the list's own path with the bound it breaks, whatever its elements |
| Properties.ItemsFirstFailure | py_schema.py:192-199 | when the elements fail, the outcome is that of the first failing element, and all earlier elements pass |
| Properties.UnderUnder | py_schema.py:159 | moving a failure under two prefixes in turn moves it under their concatenation |
| Properties.ValidateUnder | py_schema.py:159-166 | the outcome from any stack is the outcome from the empty stack with that stack put in front of the failure path, so a failure in key `k` or element `i` is at the parent's path plus `k` or `$i` |
| Properties.PropsUnder | py_schema.py:148-166 | the same relocation for the declared-key pass of a dict |
| Properties.ItemsUnder | py_schema.py:192-199 | the same relocation for the element pass of a list |
| Properties.RenderedFromRoot | py_schema.py:13-25 | a failure reported from the root is at `$root` followed by the segments of the same failure computed from the empty stack, and renders as `$root` followed by a dot and each of those segments in order |
| Properties.IndexSegmentInjective | py_schema.py:193 | distinct list indices push distinct segments |
| Scenarios.RequiredNone | py_schema_test.py:9-29 | a required int field given None: "The value is required" at `$root` |
| Scenarios.IntNotInt | py_schema_test.py:84-104 | `IntField(required=True)` given 'abc': "The value is not an int" at `$root` |
| Scenarios.IntLessThanMin | py_schema_test.py:106-126 | `IntField(min=1)` given 0: "The value is less than 1" at `$root` |
| Scenarios.IntGreaterThanMax | py_schema_test.py:128-148 | `IntField(max=1)` given 2: "The value is greater than 1" at `$root` |
| Scenarios.IntWithinBounds | py_schema_test.py:150-164 | `IntField(min=1, max=10)` given 5 passes |
| Scenarios.IntRejectsBool | py_schema.py:57-61 | a bool given to an int field fails "The value is not an int", as the exact `type(...) is int` test demands |
| Scenarios.StrNotStr | py_schema_test.py:166-184 | `StrField()` given 123: "The value is not a str" at `$root` |
| Scenarios.StrTooShort | py_schema_test.py:186-206 | `StrField(min_length=4)` given 'abc': "The value has less then 4 length" at `$root` |
| Scenarios.StrTooLong | py_schema_test.py:208-228 | `StrField(max_length=4)` given 'abcde': "The value has more then 4 length" at `$root` |
| Scenarios.StrWithinLengths | py_schema_test.py:230-244 | `StrField(min_length=1, max_length=5)` given 'abcde' passes |
| Scenarios.BoolNotBool | py_schema_test.py:246-264 | `BoolField()` given 'abc': "The value is not a bool" at `$root` |
| Scenarios.BoolPasses | py_schema_test.py:266-276 | `BoolField()` given False passes |
| Scenarios.FloatNotFloat | py_schema_test.py:279-297 | `FloatField()` given 'abc': "The value is not a float" at `$root` |
| Scenarios.FloatLessThanMin | py_schema_test.py:299-319 | `FloatField(min=1)` given 0.0: "The value is less than 1" at `$root`, the int bound printed as written |
| Scenarios.FloatGreaterThanMax | py_schema_test.py:321-341 | `FloatField(max=1)` given 2.0: "The value is greater than 1" at `$root` |
| Scenarios.FloatWithinBounds | py_schema_test.py:343-357 | `FloatField(min=1, max=10)` given 5.0 passes |
| Scenarios.DictNotDict | py_schema_test.py:359-379 | `DictField(schema={})` given 'abc': "The value is not a dict" at `$root` |
| Scenarios.ListNotList | py_schema_test.py:497-517 | `ListField(item_schema=BoolField())` given 'abc': "The value is not a list" at `$root` |
| Scenarios.ListTooShort | py_schema_test.py:519-540 | `ListField(min_length=1)` given `[]`: "The value have less then 1 item(s)" at `$root` |
| Scenarios.ListTooLong | py_schema_test.py:542-563 | `ListField(max_length=1)` given `[True, False]`: "The value have more then 1 item(s)" at `$root` |
| Scenarios.ListItemPath | py_schema_test.py:565-585 | `[True, False, 'zelda']` against bool items fails "not a bool" at `$root.$2` |
| Scenarios.InnerFailure | py_schema_test.py:587-617 | the inner dict of the nested-list test fails at its path plus `values.$2` |
| Scenarios.NestedListOutcome | py_schema_test.py:587-617 | the nested-list test fails "not a bool" at `["$root", "$0", "values", "$2"]` |
| Scenarios.NestedListPath | py_schema_test.py:587-617 | and renders as "The value is not a bool" at `$root.$0.values.$2` |
| Scenarios.StrictNotAllowedOutcome | py_schema_test.py:381-409 | a strict dict given the unknown key "baz" fails "not allowed" at `$root` |
| Scenarios.StrictNotAllowed | py_schema_test.py:381-409 | and renders as `The property "baz" is not allowed` at `$root` |
| Scenarios.PropInvalidValueOutcome | py_schema_test.py:431-458 | a strict dict whose "bar" holds a str fails "not a bool" at `["$root", "bar"]` |
| Scenarios.PropInvalidValue | py_schema_test.py:431-458 | and renders as "The value is not a bool" at `$root.bar` |
| Scenarios.OptionalAbsent | py_schema_test.py:411-429 | an optional key may be absent from a strict dict; the same key, not optional, fails "missing" |
| Scenarios.MissingRendered | py_schema.py:148-154 | a declared, non-optional key absent from the dict raises `The property "bar" is missing` at `$root` |
| Scenarios.BazFailure | py_schema_test.py:460-493 | the inner dict of the nested-dict test fails at its path plus `baz` |
| Scenarios.NestedDictOutcome | py_schema_test.py:460-493 | the nested-dict test fails "not a bool" at `["$root", "bar", "baz"]` |
| Scenarios.NestedDictPath | py_schema_test.py:460-493 | and renders as "The value is not a bool" at `$root.bar.baz` |
| Scenarios.EnumNotAccepted | py_schema_test.py:621-640 | '456' against `accept=['123']` fails "The value is not accepted" at `$root` |
| Scenarios.BatmanPasses | py_schema_test.py:31-82 | the first record of the full-schema test passes the person schema at any path |
| Scenarios.SupermanPasses | py_schema_test.py:31-82 | the second record, which leaves out the optional "gender", passes at any path |
| Scenarios.FullSchemaPasses | py_schema_test.py:31-82 | the list of both records passes the full schema |

## Left out

- Python exceptions are not modelled as such. `raise_error` becomes an early-returned `Fail` outcome, and `Raise` gives the message and path the exception would carry.
- IEEE floats are not modelled. Float values and bounds are `real`, and comparisons are exact. A float bound's message text is defined only for integral bounds below 10^16 in magnitude, which `str` prints as digits and ".0". Other float bounds, such as `999.9`, have no rendered text in the model. A bound such as `999.9` is compared as an exact real. NaN and infinite bounds and values have no counterpart in the model. In the source a NaN bound never fails, because every comparison with NaN is false, and neither does `max=float('inf')`.
- Fields.CheckEnum: membership is structural equality on `Value`, which differs from Python's `==` behind `in` (py_schema.py:208) in three ways. Python equates `True`, `1` and `1.0` across types, and the model does not. Every `PyOther` equals every other, so `accept=[(1, 2)]` given `(3, 4)` passes in the model but fails in the source. Dicts compare entry by entry in insertion order, so `accept=[{'a': 1, 'b': 2}]` given `{'b': 2, 'a': 1}` fails in the model but passes in the source.
- Constructor quirks are not modelled, because fields are taken as already-built data. This covers `StrField` forwarding `*kwargs` instead of `**kwargs` (py_schema.py:99), which makes `StrField(required=False)` required. It also covers the shared mutable default `optional_props=[]` (py_schema.py:129).
- Per-call state stored on field objects is not modelled. The source stores `value` and `ctx` on field objects (py_schema.py:28-29, 161-162, 195-196). The model passes the value explicitly, so it does not capture self-referential schemas re-reading a stale `self.value`.
- Values that are not plain None, int, float, str, bool, list or dict are not distinguished. Subclasses of dict or list, tuples and other objects are one value, `PyOther`, which fails every exact type check alike.
- Dicts with keys that are not strings are outside the model: dict keys are strings. In the source such a dict passes the dict type check (py_schema.py:136), so a non-strict `DictField(schema={})` accepts `{1: 'x'}` and a strict one fails `The property "1" is not allowed`. The model has no value for it.
- Dict values and dict schemas may hold a key twice in the model, which no Python dict can. `Lookup` then takes the first entry and `ValidateProps` visits each declared entry. `Values.DistinctKeys` names the domain of real dicts, and `Values.LookupDistinct` shows that lookup is exact there.
- Validator.SchemaValidator.PopPath: requires a non-empty stack. `list.pop()` on an empty list raises, and the validator never pops more than it pushed.
- Absent bounds and lengths are `None`. A bound given as `0` is a present bound, as `is not None` demands.
- A non-required field given None does not pass outright. One might read `required=False` as a vacuous pass, but the code runs the field's own checks on None (py_schema.py:46-48). The model follows the code (see `Properties.NoneHandling`).
- py_schema_test.py is the unittest suite. It is used only as the source of the scenarios' messages and paths.
