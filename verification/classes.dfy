/** The runtime classes the decoders inspect, and Python's `issubclass` over them.

    Reflection is replaced by an explicit class universe: the built-in classes the
    decoders name, the abstract collection classes they test against, `typing.Any`
    (a class since Python 3.11), and user classes that declare their direct bases.
    Because a user class holds its bases, the subclass relation is acyclic by
    construction. */
module Classes {

  datatype ClassName =
    | Object
    | NoneType
    | Bool
    | Int
    | Float
    | Str
    | List
    | Tuple
    | Dict
    | OrderedDict
    | DefaultDict
    | Sequence
    | MutableSequence
    | Mapping
    | MutableMapping
    | AnyClass
    | User(name: string, bases: seq<ClassName>)

  /** The proper ancestors of a built-in class other than `object`, closed under
      transitivity. The abstract collections count as ancestors the way their
      registration makes `issubclass` report them (`str` is a Sequence, `list`
      a MutableSequence, `dict` a MutableMapping). */
  function BuiltinAncestors(c: ClassName): set<ClassName>
  {
    match c
    case Bool => {Int}
    case Str => {Sequence}
    case Tuple => {Sequence}
    case MutableSequence => {Sequence}
    case List => {MutableSequence, Sequence}
    case MutableMapping => {Mapping}
    case Dict => {MutableMapping, Mapping}
    case OrderedDict => {Dict, MutableMapping, Mapping}
    case DefaultDict => {Dict, MutableMapping, Mapping}
    case _ => {}
  }

  /** `issubclass(c, d)`: reflexive, everything derives from `object`, built-ins
      follow their fixed ancestry, user classes inherit through their bases. */
  predicate IsSubclass(c: ClassName, d: ClassName)
  {
    || c == d
    || d == Object
    || d in BuiltinAncestors(c)
    || (c.User? && exists i :: 0 <= i < |c.bases| && IsSubclass(c.bases[i], d))
  }

  /** `issubclass` is transitive. */
  lemma {:induction false} SubclassTransitive(a: ClassName, b: ClassName, c: ClassName)
    requires IsSubclass(a, b) && IsSubclass(b, c)
    ensures IsSubclass(a, c)
    decreases a
  {
    if a == b || c == Object {
    } else if b in BuiltinAncestors(a) {
      // a is built-in, so b is built-in and reaches c through the closed table
      assert !b.User?;
    } else {
      var i :| 0 <= i < |a.bases| && IsSubclass(a.bases[i], b);
      SubclassTransitive(a.bases[i], b, c);
    }
  }

  /** Deriving from b carries over to every ancestor c of b. */
  lemma InheritsAncestor(a: ClassName, b: ClassName, c: ClassName)
    requires IsSubclass(b, c)
    ensures IsSubclass(a, b) ==> IsSubclass(a, c)
  {
    if IsSubclass(a, b) {
      SubclassTransitive(a, b, c);
    }
  }

  /** How many of the built-in classes with incompatible instance layouts a
      class derives from. */
  function LayoutCount(c: ClassName): nat
  {
    (if IsSubclass(c, Int) then 1 else 0)
    + (if IsSubclass(c, Float) then 1 else 0)
    + (if IsSubclass(c, Str) then 1 else 0)
    + (if IsSubclass(c, List) then 1 else 0)
    + (if IsSubclass(c, Tuple) then 1 else 0)
    + (if IsSubclass(c, Dict) then 1 else 0)
  }

  /** Python refuses to create a class deriving from two of `int`, `float`,
      `str`, `list`, `tuple` and `dict` ("instance lay-out conflict"); every
      class that can exist at runtime satisfies this. */
  predicate SoundLayout(c: ClassName)
  {
    LayoutCount(c) <= 1
  }
}
