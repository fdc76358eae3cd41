/** The decoders instantiated with the checking `subparse` the test suite uses,
    and the cases its tables list, stated about the model. Where a table entry
    disagrees with what the decoder code does, the lemma states what the code
    does and says so. */
module TestCases {
  import opened Options
  import opened Classes
  import opened Values
  import opened Types
  import opened JqPath
  import opened Parser
  import BaseTypes
  import ListParser
  import TupleParser
  import DictParser

  /** The tests' `subparse`: when the field type is a class other than `Any`,
      the data must be an instance of it, else a ValueError; the data is then
      returned as it is. */
  function Check(path: Path, ft: Ty, data: Value): (r: Result<Value>)
    ensures r.Ok? <==> !(IsClass(ft) && ft != AnyTy && !IsInstance(data, ft.c))
    ensures r.Ok? ==> r.value == data
    ensures r.Err? ==> IsValueError(r.error)
  {
    if IsClass(ft) && ft != AnyTy && !IsInstance(data, ft.c) then Err(InvalidType(TypeOf(data))) else Ok(data)
  }

  /** The checking `subparse` accepts anything for an `Any` field type and
      returns it unchanged, so it is the identity wherever the decoders pass
      `Any`. */
  lemma CheckPassesAny(path: Path, data: Value)
    ensures Check(path, AnyTy, data) == Ok(data)
  {
  }

  /** A bare `list` or `tuple` decoded with the checking `subparse` comes back
      with the same items, as the requested class. */
  lemma CheckedBareListIsIdentity(stage: Stage, path: Path, cls: ClassName, xs: seq<Value>)
    requires stage == Exact || stage == Fallback
    requires cls == List || cls == Tuple
    ensures ListParser.Parse(stage, path, Class(List), SeqV(cls, xs), Check) == Ok(SeqV(List, xs))
  {
    ListParser.IdentityRoundTrip(stage, path, Class(List), xs, cls, Check);
  }

  /** A mapping with distinct keys decoded as a bare `dict` with the checking
      `subparse` comes back as a `dict` holding the same entries in order. */
  lemma CheckedBareDictIsIdentity(path: Path, cls: ClassName, es: seq<Entry>)
    requires IsSubclass(cls, Mapping) && DistinctKeys(es)
    ensures DictParser.Parse(path, Class(Dict), MapV(cls, es), Check) == Ok(MapV(Dict, es))
  {
    DictParser.IdentityRoundTrip(path, Class(Dict), cls, es, Check);
  }

  // Classes the tests declare.
  const MyStr := User("MyStr", [Str])
  const SubList := User("SubList", [List])
  const MyCustomSequence := User("MyCustomSequence", [MutableSequence])
  const MyGenericCustomSequence := User("MyGenericCustomSequence", [MyCustomSequence])
  const UntypedTuple := User("UntypedTuple", [Tuple])
  const TypedTuple := User("TypedTuple", [Tuple])
  const MyTypedDict := User("MyTypedDict", [Dict])
  const UserDict := User("UserDict", [MutableMapping])
  const MyUserDict := User("MyUserDict", [UserDict])
  const MySubclassDict := User("MySubclassDict", [Dict])
  const MyCustomMapping := User("MyCustomMapping", [Mapping])
  const MyCustomMutableMapping := User("MyCustomMutableMapping", [MutableMapping])

  function I(i: int): Value { IntV(Int, i) }

  /** A `subparse` that decodes every string to "k" and returns anything else
      as it is, so that distinct keys can decode to the same key. */
  function Collapse(path: Path, ft: Ty, data: Value): Result<Value>
  {
    if data.StrV? then Ok(StrV(Str, "k")) else Ok(data)
  }

  function S(s: string): Value { StrV(Str, s) }

  /** The primitive decoders' claim table: each claims its own type at Exact
      and nothing else there; a `str` subclass is claimed only at Fallback;
      a parameterised list or None is never claimed; Override claims nothing. */
  lemma PrimitiveClaimTable(p: BaseTypes.Primitive)
    ensures BaseTypes.CanParse(p, Exact, Root(), Class(BaseTypes.Own(p)))
    ensures !BaseTypes.CanParse(BaseTypes.BoolType, Exact, Root(), Class(Int))
    ensures !BaseTypes.CanParse(BaseTypes.IntType, Exact, Root(), Class(Float))
    ensures !BaseTypes.CanParse(BaseTypes.FloatType, Exact, Root(), Class(Str))
    ensures !BaseTypes.CanParse(BaseTypes.StrType, Exact, Root(), Class(List))
    ensures !BaseTypes.CanParse(BaseTypes.StrType, Exact, Root(), Generic(List, [Class(Int)]))
    ensures BaseTypes.CanParse(BaseTypes.StrType, Fallback, Root(), Class(MyStr))
    ensures !BaseTypes.CanParse(BaseTypes.StrType, Exact, Root(), Class(MyStr))
    ensures !BaseTypes.CanParse(BaseTypes.StrType, Fallback, Root(), Generic(List, [Class(Int)]))
    ensures !BaseTypes.CanParse(BaseTypes.StrType, Fallback, Root(), NoneTy)
    ensures !BaseTypes.CanParse(p, Override, Root(), Class(BaseTypes.Own(p)))
  {
    assert MyStr.bases[0] == Str;
  }

  /** Each primitive decoder gives its own type back unchanged at Exact. */
  lemma PrimitiveParseExact(path: Path)
    ensures BaseTypes.Parse(BaseTypes.BoolType, Exact, path, Class(Bool), BoolV(true), Check) == Ok(BoolV(true))
    ensures BaseTypes.Parse(BaseTypes.IntType, Exact, path, Class(Int), I(42), Check) == Ok(I(42))
    ensures BaseTypes.Parse(BaseTypes.FloatType, Exact, path, Class(Float), FloatV(Float, "42.0"), Check)
      == Ok(FloatV(Float, "42.0"))
    ensures BaseTypes.Parse(BaseTypes.StrType, Exact, path, Class(Str), S("42"), Check) == Ok(S("42"))
  {
  }

  /** At Fallback a `str` subclass instance comes back as that subclass. */
  lemma PrimitiveParseSubclass(path: Path)
    ensures BaseTypes.Parse(BaseTypes.StrType, Fallback, path, Class(MyStr), StrV(MyStr, "42"), Check)
      == Ok(StrV(MyStr, "42"))
  {
    assert MyStr.bases[0] == Str;
  }

  /** 42 given to the `str` decoder is a ValueError at either stage. */
  lemma PrimitiveParseRefusesInt(path: Path)
    ensures BaseTypes.Parse(BaseTypes.StrType, Exact, path, Class(Str), I(42), Check) == Err(InvalidType(Int))
    ensures BaseTypes.Parse(BaseTypes.StrType, Fallback, path, Class(Str), I(42), Check) == Err(InvalidType(Int))
    ensures BaseTypes.Parse(BaseTypes.StrType, Exact, path, Class(MyStr), I(42), Check) == Err(InvalidType(Int))
  {
  }

  /** None given to the `str` decoder is a ValueError. */
  lemma PrimitiveParseRefusesNone(path: Path)
    ensures BaseTypes.Parse(BaseTypes.StrType, Exact, path, Class(Str), NoneV, Check) == Err(InvalidType(NoneType))
  {
  }

  /** The list decoder's claims at Exact: `list` and `list[...]` only, not a
      list subclass, a custom sequence or a tuple shape. */
  lemma ListClaimTableExact(path: Path)
    ensures ListParser.CanParse(Exact, path, Class(List))
    ensures !ListParser.CanParse(Exact, path, Class(Tuple))
    ensures !ListParser.CanParse(Exact, path, Class(SubList))
    ensures !ListParser.CanParse(Exact, path, Class(MyCustomSequence))
    ensures ListParser.CanParse(Exact, path, Generic(List, [Class(Int)]))
    ensures ListParser.CanParse(Exact, path, Generic(List, [Generic(List, [Class(Str)])]))
    ensures !ListParser.CanParse(Exact, path, Generic(Tuple, [Class(Int)]))
  {
  }

  /** The list decoder's claims at Fallback: mutable sequences and
      `list[...]`, never a tuple shape; at Override nothing. The tests also expect
      `MyGenericCustomSequence[int]` to be claimed here, but the code does not
      claim it: the alias is not a class, and its origin does not derive from
      `list`. */
  lemma ListClaimTableFallback(path: Path)
    ensures ListParser.CanParse(Fallback, path, Class(MyCustomSequence))
    ensures ListParser.CanParse(Fallback, path, Class(SubList))
    ensures ListParser.CanParse(Fallback, path, Class(List))
    ensures !ListParser.CanParse(Fallback, path, Class(Tuple))
    ensures ListParser.CanParse(Fallback, path, Generic(List, [Class(Str)]))
    ensures !ListParser.CanParse(Fallback, path, Generic(MyGenericCustomSequence, [Class(Int)]))
    ensures !ListParser.CanParse(Fallback, path, Generic(Tuple, [Class(List)]))
    ensures !ListParser.CanParse(Override, path, Class(List))
  {
    assert SubList.bases[0] == List;
    assert MyCustomSequence.bases[0] == MutableSequence;
    assert MyGenericCustomSequence.bases[0] == MyCustomSequence;
    assert !IsSubclass(MutableSequence, List);
    assert !IsSubclass(MyCustomSequence, List);
  }

  /** A tuple decodes to a plain list at Exact. */
  lemma ListParseTuple(path: Path)
    ensures ListParser.Parse(Exact, path, Class(List), SeqV(Tuple, [I(1), I(2)]), Check) == Ok(SeqV(List, [I(1), I(2)]))
  {
    ListParser.IdentityRoundTrip(Exact, path, Class(List), [I(1), I(2)], Tuple, Check);
  }

  /** A list of ints decodes unchanged under `list[int]`. */
  lemma ListParseTyped(path: Path)
    ensures ListParser.Parse(Exact, path, Generic(List, [Class(Int)]), SeqV(List, [I(1), I(2)]), Check)
      == Ok(SeqV(List, [I(1), I(2)]))
  {
    ListParser.IdentityRoundTrip(Exact, path, Generic(List, [Class(Int)]), [I(1), I(2)], List, Check);
  }

  /** At Fallback a list subclass is built from a tuple. */
  lemma ListParseIntoSubclass(path: Path)
    ensures ListParser.Parse(Fallback, path, Class(SubList), SeqV(Tuple, [I(1), I(2)]), Check)
      == Ok(SeqV(SubList, [I(1), I(2)]))
  {
    assert SubList.bases[0] == List;
    ListParser.IdentityRoundTrip(Fallback, path, Class(SubList), [I(1), I(2)], Tuple, Check);
  }

  /** At Fallback `MutableSequence` itself is claimed, but it is abstract:
      calling it on the decoded list is a TypeError. */
  lemma ListParseAbstractFails(path: Path)
    ensures ListParser.Parse(Fallback, path, Class(MutableSequence), SeqV(List, [I(1)]), Check)
      == Err(NotConstructible(Class(MutableSequence)))
  {
    assert !Constructs(Class(MutableSequence));
  }

  /** At Fallback a custom sequence is read into a plain list. */
  lemma ListParseFromCustomSequence(path: Path)
    ensures ListParser.Parse(Fallback, path, Class(List), SeqV(MyCustomSequence, [I(1), I(2)]), Check)
      == Ok(SeqV(List, [I(1), I(2)]))
  {
    assert MyCustomSequence.bases[0] == MutableSequence;
    ListParser.IdentityRoundTrip(Fallback, path, Class(List), [I(1), I(2)], MyCustomSequence, Check);
  }

  /** An element failing the declared element type fails the list. */
  lemma ListParseElementFails(path: Path)
    ensures ListParser.Parse(Exact, path, Generic(List, [Class(Int)]), SeqV(List, [I(1), S("a")]), Check)
      == Err(InvalidType(Str))
  {
    ListParser.ElementFailurePropagates(Exact, path, Generic(List, [Class(Int)]), SeqV(List, [I(1), S("a")]), Check, 1);
  }

  /** A dict is refused at Exact: its type is neither list nor tuple. */
  lemma ListParseRejectsDictExact(path: Path)
    ensures ListParser.Parse(Exact, path, Class(List), MapV(Dict, [Entry(S("hello"), S("world"))]), Check)
      == Err(InvalidType(Dict))
  {
    assert !ListParser.Accepts(Exact, MapV(Dict, [Entry(S("hello"), S("world"))]));
  }

  /** A dict is refused at Fallback: it is not a Sequence. */
  lemma ListParseRejectsDictFallback(path: Path)
    ensures ListParser.Parse(Fallback, path, Class(List), MapV(Dict, [Entry(S("hello"), S("world"))]), Check)
      == Err(InvalidType(Dict))
  {
    assert !IsSubclass(Dict, Sequence);
    assert !ListParser.Accepts(Fallback, MapV(Dict, [Entry(S("hello"), S("world"))]));
  }

  /** At Override nothing is checked: a dict decodes to the list of its keys. */
  lemma ListParseOverrideDict(path: Path)
    ensures ListParser.Parse(Override, path, Class(List), MapV(Dict, [Entry(S("hello"), S("world"))]), Check)
      == Ok(SeqV(List, [S("hello")]))
  {
    assert Iter(MapV(Dict, [Entry(S("hello"), S("world"))])).value == [S("hello")];
    ListParser.OverrideDecodesAnyIterable(path, Class(List), MapV(Dict, [Entry(S("hello"), S("world"))]), Check);
  }

  /** The pairs `Collapse` decodes from `{"x": 1, "y": 2}`, and the dict
      they build. */
  lemma CollapsedPairs(path: Path)
    ensures var es := [Entry(S("x"), I(1)), Entry(S("y"), I(2))];
      && (forall j :: 0 <= j < |es| ==> DictParser.EntryOk(Collapse, path, AnyTy, AnyTy, es, j))
      && DictParser.Assemble(DictParser.Decoded(Collapse, path, AnyTy, AnyTy, es)) == [Entry(S("k"), I(2))]
  {
    var es := [Entry(S("x"), I(1)), Entry(S("y"), I(2))];
    assert DictParser.EntryOk(Collapse, path, AnyTy, AnyTy, es, 0);
    assert DictParser.EntryOk(Collapse, path, AnyTy, AnyTy, es, 1);
    var ds := DictParser.Decoded(Collapse, path, AnyTy, AnyTy, es);
    assert ds[0] == Entry(S("k"), I(1));
    assert ds[1] == Entry(S("k"), I(2));
    assert ds[..1] == [Entry(S("k"), I(1))];
    assert DictParser.Assemble(ds[..1]) == [Entry(S("k"), I(1))];
  }

  /** Two keys that decode to the same key collapse into one entry holding the
      later value. */
  lemma DictParseCollidingKeys(path: Path)
    ensures DictParser.Parse(path, Class(Dict), MapV(Dict, [Entry(S("x"), I(1)), Entry(S("y"), I(2))]), Collapse)
      == Ok(MapV(Dict, [Entry(S("k"), I(2))]))
  {
    CollapsedPairs(path);
  }

  /** The tuple decoder's claim table: `tuple` and `tuple[...]` at Exact, not
      named tuples nor `list`; nothing at Fallback. */
  lemma TupleClaimTable(path: Path)
    ensures TupleParser.CanParse(Exact, path, Class(Tuple))
    ensures TupleParser.CanParse(Exact, path, Generic(Tuple, [Class(Int)]))
    ensures TupleParser.CanParse(Exact, path, Generic(Tuple, [Class(Int), Class(Str), Class(Str)]))
    ensures TupleParser.CanParse(Exact, path, Generic(Tuple, [Class(Int), EllipsisTy]))
    ensures !TupleParser.CanParse(Exact, path, Class(UntypedTuple))
    ensures !TupleParser.CanParse(Exact, path, Class(TypedTuple))
    ensures !TupleParser.CanParse(Exact, path, Class(List))
    ensures !TupleParser.CanParse(Fallback, path, Class(Tuple))
  {
  }

  /** The bare `tuple` builds a plain tuple from a list. */
  lemma TupleParseBareFromList(path: Path)
    ensures TupleParser.Parse(path, Class(Tuple), SeqV(List, [I(1), I(2)]), Check) == Ok(SeqV(Tuple, [I(1), I(2)]))
  {
    TupleParser.IdentityRoundTrip(path, Class(Tuple), SeqV(List, [I(1), I(2)]), Check);
  }

  /** The bare `tuple` builds a plain tuple from a named tuple. */
  lemma TupleParseBareFromNamedTuple(path: Path)
    ensures TupleParser.Parse(path, Class(Tuple), SeqV(TypedTuple, [I(1), S("hello")]), Check)
      == Ok(SeqV(Tuple, [I(1), S("hello")]))
  {
    assert TypedTuple.bases[0] == Tuple;
    TupleParser.IdentityRoundTrip(path, Class(Tuple), SeqV(TypedTuple, [I(1), S("hello")]), Check);
  }

  /** The bare `tuple` refuses None. */
  lemma TupleParseBareRejectsNone(path: Path)
    ensures TupleParser.Parse(path, Class(Tuple), NoneV, Check) == Err(InvalidType(NoneType))
  {
  }

  /** A fixed arity with matching length decodes position by position. */
  lemma TupleParseFixed(path: Path)
    ensures TupleParser.Parse(path, Generic(Tuple, [Class(Int), Class(Int)]), SeqV(Tuple, [I(1), I(2)]), Check)
      == Ok(SeqV(Tuple, [I(1), I(2)]))
  {
    TupleParser.IdentityRoundTrip(path, Generic(Tuple, [Class(Int), Class(Int)]), SeqV(Tuple, [I(1), I(2)]), Check);
  }

  /** A pair declaration refuses a one-element tuple. */
  lemma TupleParsePairOfOne(path: Path)
    ensures TupleParser.Parse(path, Generic(Tuple, [Class(Int), Class(Int)]), SeqV(Tuple, [I(1)]), Check)
      == Err(InvalidTupleLength)
  {
    TupleParser.PairRejectsSingleton(path, Class(Int), Class(Int), I(1), Check);
  }

  /** A string is a Sequence of characters, so `tuple[int]` given "hello"
      fails on its length, not its type. */
  lemma TupleParseString(path: Path)
    ensures TupleParser.Parse(path, Generic(Tuple, [Class(Int)]), S("hello"), Check) == Err(InvalidTupleLength)
  {
  }

  /** A position failing its declared fixed type fails the whole tuple. */
  lemma TupleParseFixedElementFails(path: Path)
    ensures TupleParser.Parse(path, Generic(Tuple, [Class(Int), Class(Int), Class(Str)]), SeqV(Tuple, [I(1), I(2), I(3)]), Check)
      == Err(InvalidType(Int))
  {
    var tys := [Class(Int), Class(Int), Class(Str)];
    var xs := [I(1), I(2), I(3)];
    assert TupleParser.ResolveArgs(tys, 3) == tys;
    assert Indexable(SeqV(Tuple, xs)) == Some(xs);
    assert Check(Child(path, Index(2)), Class(Str), I(3)) == Err(InvalidType(Int));
    TupleParser.ElementFailurePropagates(path, Generic(Tuple, tys), SeqV(Tuple, xs), Check, 2);
  }

  /** A position failing the repeated variadic type fails the whole tuple. */
  lemma TupleParseVariadicElementFails(path: Path)
    ensures TupleParser.Parse(path, Generic(Tuple, [Class(Int), EllipsisTy]), SeqV(Tuple, [I(1), I(2), S("hello")]), Check)
      == Err(InvalidType(Str))
  {
    var xs := [I(1), I(2), S("hello")];
    var tys := TupleParser.ResolveArgs([Class(Int), EllipsisTy], 3);
    assert tys == [Class(Int), Class(Int), Class(Int)];
    assert Indexable(SeqV(Tuple, xs)) == Some(xs);
    assert Check(Child(path, Index(2)), Class(Int), S("hello")) == Err(InvalidType(Str));
    TupleParser.ElementFailurePropagates(path, Generic(Tuple, [Class(Int), EllipsisTy]), SeqV(Tuple, xs), Check, 2);
  }

  /** The variadic form accepts the empty tuple. */
  lemma TupleParseVariadicEmpty(path: Path)
    ensures TupleParser.Parse(path, Generic(Tuple, [Class(Int), EllipsisTy]), SeqV(Tuple, []), Check)
      == Ok(SeqV(Tuple, []))
  {
  }

  /** The dict decoder's claims at Exact: `dict`, `OrderedDict` and their
      aliases only, not the subclasses, custom mappings or `defaultdict`. */
  lemma DictClaimTableExact(path: Path)
    ensures DictParser.CanParse(Exact, path, Class(Dict))
    ensures DictParser.CanParse(Exact, path, Class(OrderedDict))
    ensures DictParser.CanParse(Exact, path, Generic(Dict, [Class(Str), Class(Int)]))
    ensures !DictParser.CanParse(Exact, path, Class(List))
    ensures !DictParser.CanParse(Exact, path, Class(MyTypedDict))
    ensures !DictParser.CanParse(Exact, path, Class(MyUserDict))
    ensures !DictParser.CanParse(Exact, path, Class(MySubclassDict))
    ensures !DictParser.CanParse(Exact, path, Class(MyCustomMapping))
    ensures !DictParser.CanParse(Exact, path, Class(MyCustomMutableMapping))
    ensures !DictParser.CanParse(Exact, path, Class(DefaultDict))
    ensures !DictParser.CanParse(Exact, path, NoneTy)
    ensures !DictParser.CanParse(Override, path, Class(Dict))
  {
  }

  /** The dict decoder's claims at Fallback: every mapping class and alias,
      but neither None nor `list`. */
  lemma DictClaimTableFallback(path: Path)
    ensures DictParser.CanParse(Fallback, path, Class(Dict))
    ensures DictParser.CanParse(Fallback, path, Class(OrderedDict))
    ensures DictParser.CanParse(Fallback, path, Generic(Dict, [Class(Str), Class(Str)]))
    ensures DictParser.CanParse(Fallback, path, Class(MyTypedDict))
    ensures DictParser.CanParse(Fallback, path, Class(MyUserDict))
    ensures DictParser.CanParse(Fallback, path, Class(MySubclassDict))
    ensures DictParser.CanParse(Fallback, path, Class(MyCustomMapping))
    ensures DictParser.CanParse(Fallback, path, Class(MyCustomMutableMapping))
    ensures DictParser.CanParse(Fallback, path, Class(DefaultDict))
    ensures !DictParser.CanParse(Fallback, path, NoneTy)
    ensures !DictParser.CanParse(Fallback, path, Class(List))
  {
    assert MyTypedDict.bases[0] == Dict;
    assert MySubclassDict.bases[0] == Dict;
    assert MyCustomMapping.bases[0] == Mapping;
    assert MyCustomMutableMapping.bases[0] == MutableMapping;
    assert UserDict.bases[0] == MutableMapping;
    assert IsSubclass(UserDict, Mapping);
    assert MyUserDict.bases[0] == UserDict;
  }

  /** None is refused whatever the declared key and value types. */
  lemma DictParseRejectsNone(path: Path)
    ensures DictParser.Parse(path, Class(Dict), NoneV, Check) == Err(InvalidType(NoneType))
    ensures DictParser.Parse(path, Generic(Dict, [Class(Str), AnyTy]), NoneV, Check) == Err(InvalidType(NoneType))
  {
  }

  /** An empty mapping decodes to an empty dict. */
  lemma DictParseEmpty(path: Path)
    ensures DictParser.Parse(path, Class(Dict), MapV(Dict, []), Check) == Ok(MapV(Dict, []))
  {
    DictParser.IdentityRoundTrip(path, Class(Dict), Dict, [], Check);
  }

  /** Entries matching the declared key and value types come back unchanged. */
  lemma DictParseTyped(path: Path)
    ensures DictParser.Parse(path, Generic(Dict, [Class(Str), Class(Str)]), MapV(Dict, [Entry(S("hello"), S("world"))]), Check)
      == Ok(MapV(Dict, [Entry(S("hello"), S("world"))]))
  {
    DictParser.IdentityRoundTrip(path, Generic(Dict, [Class(Str), Class(Str)]), Dict, [Entry(S("hello"), S("world"))], Check);
  }

  /** A plain dict is rebuilt as a requested dict subclass. */
  lemma DictParseIntoSubclass(path: Path)
    ensures DictParser.Parse(path, Class(MySubclassDict), MapV(Dict, [Entry(S("hello"), S("world"))]), Check)
      == Ok(MapV(MySubclassDict, [Entry(S("hello"), S("world"))]))
  {
    assert MySubclassDict.bases[0] == Dict;
    DictParser.IdentityRoundTrip(path, Class(MySubclassDict), Dict, [Entry(S("hello"), S("world"))], Check);
  }

  /** A custom mapping is read into a plain dict. */
  lemma DictParseFromCustomMapping(path: Path)
    ensures DictParser.Parse(path, Class(Dict), MapV(MyCustomMapping, [Entry(S("hello"), S("world"))]), Check)
      == Ok(MapV(Dict, [Entry(S("hello"), S("world"))]))
  {
    assert MyCustomMapping.bases[0] == Mapping;
    DictParser.IdentityRoundTrip(path, Class(Dict), MyCustomMapping, [Entry(S("hello"), S("world"))], Check);
  }

  /** A value failing the declared value type fails the whole dict. */
  lemma DictParseValueFails(path: Path)
    ensures DictParser.Parse(path, Generic(Dict, [Class(Str), Class(Int)]), MapV(Dict, [Entry(S("hello"), S("world"))]), Check)
      == Err(InvalidType(Str))
  {
    DictParser.EntryFailurePropagates(path, Generic(Dict, [Class(Str), Class(Int)]),
      MapV(Dict, [Entry(S("hello"), S("world"))]), Check, 0);
  }

  /** `defaultdict` cannot be built from a mapping: a TypeError. */
  lemma DictParseDefaultDict(path: Path)
    ensures DictParser.Parse(path, Class(DefaultDict), MapV(Dict, [Entry(S("hello"), S("world"))]), Check)
      == Err(NotConstructible(Class(DefaultDict)))
  {
    assert !Constructs(Class(DefaultDict));
  }
}
