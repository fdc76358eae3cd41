# dict2any decoders in Dafny

dict2any decodes untyped data (dicts, lists and scalars, as they come from
JSON or YAML) into typed Python values. A field type directs the decoding. The
decoding is split into per-shape decoders. Each one has two steps:

- `can_parse(stage, path, field_type)` says whether it claims a field type at a
  dispatch stage (Override, Exact or Fallback).
- `parse` turns the data into a value of that type, or raises. It decodes
  nested values through a `subparse(path, field_type, data)` callback, at a
  child path.

This project models the four decoders under `dict2any/parsers/` and the
vocabulary they share:

- the primitive decoder (`BaseParser`, instantiated for bool, int, float and
  str);
- the list decoder;
- the tuple decoder;
- the dict decoder.

## How the model is laid out

| file | module | what it holds |
|---|---|---|
| `options.dfy` | `Options` | `Option` |
| `classes.dfy` | `Classes` | the runtime classes and `issubclass` over them |
| `values.dfy` | `Values` | runtime values (each carries its class), `type()`, `isinstance`, `str()`, calling a class on a value |
| `types.dfy` | `Types` | field types as `get_origin`, `get_args` and `inspect.isclass` see them |
| `jq_path.dfy` | `JqPath` | paths as non-empty sequences of name/index hops |
| `parser.dfy` | `Parser` | `Stage`, errors, `Result`, `Subparse`, the call record, building the requested class, running a sequence of `subparse` calls |
| `base_types.dfy` | `BaseTypes` | the primitive decoder |
| `list.dfy` | `ListParser` | the list decoder |
| `tuple.dfy` | `TupleParser` | the tuple decoder |
| `dict.dfy` | `DictParser` | the dict decoder, and dict-comprehension assembly |
| `test_cases.dfy` | `TestCases` | the tests' checking `subparse`, and the cases the test tables list |

Python reflection is replaced by explicit data:

- A `ClassName` is a built-in class, an abstract collection class
  (`Sequence`, `MutableSequence`, `Mapping`, `MutableMapping`), `typing.Any`,
  or a user class with its direct bases. Because a user class holds its
  bases, `IsSubclass` is acyclic by construction.
- A field type `Ty` is one of:
  - a bare class (`Class`);
  - a parameterised alias (`Generic(origin, args)`), which is not a class, as
    `inspect.isclass` reports on Python 3.11;
  - `None`;
  - the `...` of `tuple[int, ...]`.
- `typing.Any` is a class, as it is on Python 3.11. The source needs 3.11
  because it uses `StrEnum`.

Each decoder has two layers:

- `ParseRun` returns the outcome together with the list of `subparse` calls it
  made, in order. This is what the tests read off their `Mock`.
- `Parse` is the outcome alone.

Exceptions become `Result` errors:

- `InvalidType` and `InvalidTupleLength` are the `ValueError`s the decoders
  raise themselves.
- `NotIterable` is the `TypeError` raised by iterating or indexing
  non-sequence data.
- `NotConstructible` is the `TypeError` raised by calling the field type.

The list and tuple elements are decoded the way a comprehension or loop does
it. The calls are made in order, the first failure propagates, and no later
call is made. `Parser.RunPlan` runs such a sequence of calls. The dict decoder
decodes, for each entry, the key and then the value. It assembles the decoded
pairs as a dict comprehension does: a later pair whose key equals an earlier
one overwrites that value in place.

Quirks of the code that the model keeps:

- `BaseParser.parse` has no case for Override, so at Override it returns None
  (`BaseTypes.Parse`).
- `ListParser.parse` checks nothing at Override and decodes any iterable. A
  dict yields its keys (`ListParser.OverrideDecodesAnyIterable`).
- `TupleParser.parse` and `DictParser.parse` take no stage.
- `tuple[()]` has no type arguments, so the tuple decoder resolves it like the
  bare `tuple` and accepts every length (`TupleParser.EmptyAliasIsOpenArity`).

Where the tests and the code disagree, the model follows the code:

- `tests/test_list.py:93` expects `MyGenericCustomSequence[int]` to be claimed
  at Fallback. The code does not claim it: the alias is not a class, and its
  origin does not derive from `list` (`TestCases.ListClaimTableFallback`).
- `tests/test_list.py:127` calls `ListParser.parse` without the `stage`
  argument that its signature requires. The model takes the stage.
- The `Subparse` protocol at `dict2any/parsers/parser.py:13-15` declares a
  `stage` parameter. Every decoder calls `subparse` with only the path, field
  type and data. The model's `Subparse` follows the calls.
- `tests/test_class.py` uses a `Stage.LastChance` that
  `dict2any/parsers/parser.py:7-10` does not define. The model has the three
  stages the code defines.

## Model

| member | source | states |
|---|---|---|
| `Parser.RunPlan` | dict2any/parsers/list.py:34-36 | running calls in order: it succeeds exactly when every call succeeds, and then returns their results in order; on failure the record holds the calls up to and including the first failing one, every earlier call succeeded, and the error is that call's |
| `Parser.FirstFailurePropagates` | dict2any/parsers/tuple.py:28-29 | if call k is the first that fails, the run fails with call k's error after exactly k + 1 calls |
| `Parser.PlanStopsAtFirstFailure` | dict2any/parsers/list.py:34-36 | a run of calls stops at the first failure: every recorded call but the last succeeded, a run shorter than its plan ends on a failing call, and a run ending on a failing call fails with that call's error |
| `Parser.PositionalOutcome` | dict2any/parsers/tuple.py:27-29 | decoding positions one by one succeeds exactly when every position decodes, and then gives each position's decode in order; the calls made are the first positions', at `path.[i]` |
| `JqPath.ParentOfChild` | tests/test_jq_path.py:48-80 | the parent of `p.child(x)` is `p` |
| `JqPath.ChildInjective` | tests/test_jq_path.py:67-80 | different hops from one path give different children, and a child never equals its parent |
| `BaseTypes.Parse` | dict2any/parsers/base_types.py:23-32 | at Exact it succeeds exactly when the runtime type is the decoder's type, and then returns the data unchanged; any other runtime type, a subclass instance included, is a ValueError naming that type; at Fallback it succeeds exactly when the data is an instance and the field type can be called, and then returns an instance of the requested class; a non-instance is a ValueError at both stages; at Override it returns None |
| `BaseTypes.ExactClaimsAreDisjoint` | dict2any/parsers/base_types.py:16-17 | no two primitive decoders claim the same field type at Exact |
| `BaseTypes.FallbackClaimsSubclasses` | dict2any/parsers/base_types.py:14-21 | at Fallback a decoder claims a class exactly when it derives from the decoder's type; an Exact claim implies a Fallback claim; a proper subclass is never claimed at Exact |
| `BaseTypes.NoClaimOutsideClasses` | dict2any/parsers/base_types.py:18-21 | nothing is claimed at Override, and a parameterised alias, None or `...` is never claimed |
| `BaseTypes.ExactAgreesWithFallback` | dict2any/parsers/base_types.py:23-32 | on the decoder's own type, whatever Exact accepts Fallback accepts too, with the same result |
| `BaseTypes.FallbackRebuildsAsFieldType` | dict2any/parsers/base_types.py:29-32 | a Fallback decode into a claimed class succeeds on every instance, returns an instance of exactly that class, and compares equal to the data (for `bool` from an int, only for 0 and 1) |
| `BaseTypes.ScalarClassConstructs` | dict2any/parsers/base_types.py:29-32 | a class deriving from a scalar type can be called on the data: it is neither `Any` nor a `defaultdict` |
| `BaseTypes.NeverCallsSubparse` | dict2any/parsers/base_types.py:23-32 | the result does not depend on `subparse` |
| `ListParser.Parse` | dict2any/parsers/list.py:23-37 | data the stage refuses is a ValueError; otherwise it succeeds exactly when the data is iterable, every element decodes at `path.[i]` with the element type, and the class can be called; a success is an instance of the requested class, with one item per element, item i being element i's decode |
| `ListParser.RunOutcome` | dict2any/parsers/list.py:32-37 | on accepted iterable data the decode succeeds exactly when every element decodes and the class can be called; the result holds each element's decode in order; the calls follow the elements in order, one per element on success |
| `ListParser.SubparseCalls` | dict2any/parsers/list.py:34-36 | `subparse` is called once per element, in index order, with `path.[i]`, the element type (first type argument, else `Any`) and element i; every call but the last succeeded, and fewer calls than elements means the last one failed and its error is the result; refused data makes no call |
| `ListParser.ElementFailurePropagates` | dict2any/parsers/list.py:34-36 | if element k is the first that fails, the decode fails with its error after k + 1 calls |
| `ListParser.IdentityRoundTrip` | dict2any/parsers/list.py:23-37 | with a `subparse` that returns elements unchanged, an accepted sequence decodes to the requested container holding the same elements in the same order |
| `ListParser.OverrideDecodesAnyIterable` | dict2any/parsers/list.py:23-30 | at Override there is no input check: any iterable (a dict's keys, a string's characters) is decoded |
| `ListParser.ExactClaimImpliesFallbackClaim` | dict2any/parsers/list.py:10-21 | whatever is claimed at Exact is claimed at Fallback |
| `ListParser.ListSubclassesClaimedAtFallbackOnly` | dict2any/parsers/list.py:12-19 | every class deriving from `list` is claimed at Fallback, and at Exact only `list` itself |
| `ListParser.NeverClaimsTuples` | dict2any/parsers/list.py:10-21 | no tuple shape, bare or parameterised, is claimed at any stage |
| `TupleParser.ResolveArgs` | dict2any/parsers/tuple.py:19-23 | the resolved arity is the data's length n exactly when the declaration is `(T, ...)`, empty, or lists n types; `(T, ...)` gives T at each position, and any other non-empty declaration is used as it is |
| `TupleParser.Parse` | dict2any/parsers/tuple.py:16-30 | non-Sequence data is a ValueError; a length other than the resolved arity is a ValueError; otherwise it succeeds exactly when every position decodes and the class can be called; a success has the data's length, position i holding position i's decode with the i-th resolved type |
| `TupleParser.RunOutcome` | dict2any/parsers/tuple.py:25-30 | once the arity matches, the decode succeeds exactly when every position decodes with its resolved type and the class can be called; the result holds each position's decode in order, after calls that follow the positions |
| `TupleParser.SubparseCalls` | dict2any/parsers/tuple.py:25-29 | a length mismatch is reported with no `subparse` call; otherwise position i is decoded by the i-th call, at `path.[i]`, every call but the last succeeded, and fewer calls than positions means the last one failed and its error is the result |
| `TupleParser.LengthCheckedFirst` | dict2any/parsers/tuple.py:19-26 | a Sequence is refused on its length, with no `subparse` call, exactly when the declaration is neither `(T, ...)` nor empty and does not list as many types as the data has elements |
| `TupleParser.PairRejectsSingleton` | dict2any/parsers/tuple.py:25-26 | a two-type declaration refuses a one-element tuple before decoding it |
| `TupleParser.ElementFailurePropagates` | dict2any/parsers/tuple.py:27-29 | if position k is the first that fails, the decode fails with its error after exactly k + 1 calls |
| `TupleParser.OpenArityAcceptsAnyLength` | dict2any/parsers/tuple.py:19-23 | bare `tuple` and `tuple[T, ...]` accept a Sequence of any length: when every position decodes to itself, a list comes back as a tuple of the same elements |
| `TupleParser.IdentityRoundTrip` | dict2any/parsers/tuple.py:16-30 | with a `subparse` that returns positions unchanged and a matching arity, the decode is the requested class holding the same elements in order |
| `TupleParser.EmptyAliasIsOpenArity` | dict2any/parsers/tuple.py:19-23 | `tuple[()]` decodes exactly as bare `tuple` does |
| `TupleParser.ClaimsOnlyTuples` | dict2any/parsers/tuple.py:9-14 | a claim is only ever made at Exact and for a tuple shape |
| `DictParser.AssembleDistinct` | dict2any/parsers/dict.py:34-41 | the assembled dict never holds a key twice |
| `DictParser.AssembleLastWins` | dict2any/parsers/dict.py:34-41 | looking a key up in the assembled dict gives the value of the last pair with that key |
| `DictParser.AssembleKeepsDistinctPairs` | dict2any/parsers/dict.py:34-41 | pairs with distinct keys are kept as they are, in order |
| `DictParser.Parse` | dict2any/parsers/dict.py:24-41 | non-Mapping data is a ValueError; otherwise it succeeds exactly when every entry's key and value decode and the class can be called; a success is an instance of the requested class whose entries are the dict the decoded pairs build, with distinct keys |
| `DictParser.SubparseCalls` | dict2any/parsers/dict.py:34-40 | for each entry in iteration order, the key is decoded with the key type and then the value with the value type, both at `path.<str(key)>`; every call but the last succeeded, and fewer calls than two per entry means the last one failed and its error is the result; refused data makes no call |
| `DictParser.StringKeyNamesPath` | dict2any/parsers/dict.py:36-38 | a string key is decoded at `path.<key>` |
| `DictParser.EntryFailurePropagates` | dict2any/parsers/dict.py:34-41 | if entry k is the first that fails, the decode fails with the key's error after 2k + 1 calls if the key failed, else with the value's error after 2k + 2 calls |
| `DictParser.PlanFailsAt` | dict2any/parsers/dict.py:34-40 | when entry k is the first whose key or value fails, decoding the entries in order fails with that entry's error, the key's when the key failed, after 2k + 1 calls when the key failed and 2k + 2 otherwise |
| `DictParser.IdentityRoundTrip` | dict2any/parsers/dict.py:24-41 | with a `subparse` that returns keys and values unchanged, a mapping with distinct keys decodes to the requested class holding the same entries in order |
| `DictParser.LastDecodedValueWins` | dict2any/parsers/dict.py:34-41 | when two entries decode to the same key, the result holds the later one's value |
| `DictParser.DictLikeClaims` | dict2any/parsers/dict.py:12-22 | an Exact claim implies a Fallback claim; every class deriving from `dict` is claimed at Fallback; at Exact a class is claimed exactly when it is `dict` or `OrderedDict` |
| `TestCases.CheckPassesAny` | tests/conftest.py:17-20 | with `Any` as the field type the tests' `subparse` returns the data unchanged |
| `TestCases.CheckedBareListIsIdentity` | tests/test_list.py:110-112 | a list or tuple decoded as bare `list` with the tests' `subparse` gives a list of the same items |
| `TestCases.CheckedBareDictIsIdentity` | tests/test_dict.py:122-124 | a mapping decoded as bare `dict` with the tests' `subparse` gives a dict of the same entries |
| `TestCases.PrimitiveClaimTable` | tests/test_base_types.py:29-56 | the primitive decoders' claim table |
| `TestCases.PrimitiveParseExact` | tests/test_base_types.py:60-63 | each primitive decoder returns its own type unchanged at Exact |
| `TestCases.PrimitiveParseSubclass` | tests/test_base_types.py:64 | at Fallback the `str` decoder returns a `str` subclass instance as that subclass |
| `TestCases.PrimitiveParseRefusesInt` | tests/test_base_types.py:67-75 | 42 given to the `str` decoder is a ValueError at Exact and at Fallback, whether `str` or a subclass is requested |
| `TestCases.PrimitiveParseRefusesNone` | tests/test_base_types.py:77-78 | None given to the `str` decoder is a ValueError |
| `TestCases.ListClaimTableExact` | tests/test_list.py:63-79 | at Exact `list` and `list[...]` are claimed; `tuple`, `tuple[int]`, a list subclass and a custom sequence are not |
| `TestCases.ListClaimTableFallback` | tests/test_list.py:82-104 | at Fallback mutable sequences and `list[...]` are claimed and tuple shapes are not, with `MyGenericCustomSequence[int]` unclaimed as the code has it; at Override `list` is not claimed |
| `TestCases.ListParseTuple` | tests/test_list.py:116 | a tuple decodes to a plain list of the same items |
| `TestCases.ListParseTyped` | tests/test_list.py:114 | a list of ints decodes unchanged under `list[int]` |
| `TestCases.ListParseIntoSubclass` | tests/test_list.py:120 | at Fallback a tuple decodes into a list subclass holding the same items |
| `TestCases.ListParseAbstractFails` | dict2any/parsers/list.py:37 | at Fallback the abstract `MutableSequence` is claimed but cannot be called: a TypeError |
| `TestCases.ListParseFromCustomSequence` | tests/test_list.py:113 | at Fallback a custom sequence is read into a plain list |
| `TestCases.ListParseElementFails` | dict2any/parsers/list.py:34-36 | under `list[int]` a string element fails the whole list |
| `TestCases.ListParseRejectsDictExact` | tests/test_list.py:136-141 | a dict is refused at Exact with a ValueError |
| `TestCases.ListParseRejectsDictFallback` | tests/test_list.py:136-141 | a dict is refused at Fallback with a ValueError, not being a Sequence |
| `TestCases.ListParseOverrideDict` | dict2any/parsers/list.py:23-37 | at Override a dict decodes to the list of its keys |
| `TestCases.DictParseCollidingKeys` | dict2any/parsers/dict.py:34-41 | two keys that decode to the same key leave one entry holding the later value |
| `TestCases.TupleClaimTable` | tests/test_tuple_parser.py:19-38 | the tuple decoder's claim table |
| `TestCases.TupleParseBareFromList` | tests/test_tuple_parser.py:50 | bare `tuple` turns a list into a tuple of the same elements |
| `TestCases.TupleParseBareFromNamedTuple` | tests/test_tuple_parser.py:51 | bare `tuple` turns a named tuple into a plain tuple of the same elements |
| `TestCases.TupleParseBareRejectsNone` | tests/test_tuple_parser.py:63 | bare `tuple` refuses None with a ValueError |
| `TestCases.TupleParseFixed` | tests/test_tuple_parser.py:54 | `tuple[int, int]` decodes `(1, 2)` |
| `TestCases.TupleParsePairOfOne` | tests/test_tuple_parser.py:55 | `tuple[int, int]` refuses `(1,)` on its length |
| `TestCases.TupleParseString` | tests/test_tuple_parser.py:58 | `tuple[int]` refuses `"hello"` on its length |
| `TestCases.TupleParseFixedElementFails` | tests/test_tuple_parser.py:57 | `tuple[int, int, str]` refuses `(1, 2, 3)` on position 2 |
| `TestCases.TupleParseVariadicElementFails` | tests/test_tuple_parser.py:62 | `tuple[int, ...]` refuses `(1, 2, "hello")` on position 2 |
| `TestCases.TupleParseVariadicEmpty` | tests/test_tuple_parser.py:59 | `tuple[int, ...]` accepts the empty tuple |
| `TestCases.DictClaimTableExact` | tests/test_dict.py:79-115 | at Exact only `dict`, `OrderedDict` and their aliases are claimed; at Override nothing |
| `TestCases.DictClaimTableFallback` | tests/test_dict.py:79-115 | at Fallback every mapping class and alias is claimed, `defaultdict` included, but not None or `list` |
| `TestCases.DictParseRejectsNone` | tests/test_dict.py:121 | None is refused as `dict` and as `dict[str, Any]` |
| `TestCases.DictParseEmpty` | tests/test_dict.py:122 | `{}` decodes to an empty dict |
| `TestCases.DictParseTyped` | tests/test_dict.py:125 | `dict[str, str]` decodes `{"hello": "world"}` unchanged |
| `TestCases.DictParseValueFails` | tests/test_dict.py:126 | `dict[str, int]` refuses `{"hello": "world"}` on the value |
| `TestCases.DictParseIntoSubclass` | tests/test_dict.py:135 | a dict is rebuilt as a requested dict subclass |
| `TestCases.DictParseFromCustomMapping` | tests/test_dict.py:136 | a custom mapping is read into a plain dict |
| `TestCases.DictParseDefaultDict` | tests/test_dict.py:141 | `defaultdict` cannot be built from a mapping: a TypeError |

## Left out

- Python reflection (`get_origin`, `get_args`, `isclass`, `issubclass`, `isinstance`, `type(x) is`) is replaced by the explicit class, type and value datatypes above; the runtime type system itself is not modelled.
- `Parser.Construct`: calling the field type is modelled as tagging the data with the requested class, with `bool(...)` as truthiness and `int(...)` of a bool as 0 or 1. `typing.Any`, `defaultdict` and the abstract `Sequence`, `MutableSequence`, `Mapping` and `MutableMapping` fail with a TypeError. User subclasses of those abstract classes are taken to implement their abstract methods, so they can be called. User classes with their own `__init__`, and constructors that raise for other reasons, are not modelled.
- `Parser.Construct`: calling a `TypedDict` class returns a plain `dict` in Python; the model tags the result with the `TypedDict` class.
- `Parser.Construct`: the field type is the class a `Generic` alias names, so `typing.List[int]`, `typing.Dict[str, int]` and `typing.Tuple[int]` are called as `list`, `dict` and `tuple`. In Python those aliases cannot be called and raise a TypeError.
- `DictParser.Parse`: a decoded key that is a list or a dict is unhashable, so the dict comprehension raises a TypeError in Python; the model stores such a key like any other.
- Key equality across types: Python treats `1`, `1.0` and `True` as the same dict key; the model compares keys structurally, so it does not merge such keys.
- `Values.Text`: `str()` of keys renders scalars as Python does. Every sequence is rendered as a list or tuple literal and every mapping as a dict literal, with no escaping inside strings. Python differs for `OrderedDict` (`OrderedDict(...)`), named tuples (`Point(x=..., y=...)`) and user classes without their own `__repr__` (`<... object at ...>`). Other objects are rendered as a fixed placeholder.
- Path text: the `jq_path.py` parser and renderer are not part of this model. Paths are sequences of hops, and `child` appends one.
- The Union, Class, Dataclass, Path, Any and NamedTuple decoders are not part of this model; only their tests are available.
- The top-level dispatcher and the decoder registry are not part of this model: `dict2any/parser.py` is an empty stub.
- Test plumbing: the `Mock` call record is modelled by the call list of `ParseRun`; `pytest` fixtures are not modelled.
- Floats are opaque values identified by their `repr`; no float arithmetic is modelled.
- Iteration of user-defined sequences and mappings: their items are the value's payload; a user `__iter__`, `__len__` or `__getitem__` with other behaviour is not modelled.
- Errors raised inside `subparse` are whatever the callback returns; the model does not distinguish exception classes beyond the four error kinds.
