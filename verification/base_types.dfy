/** The primitive decoders: one per built-in scalar type (bool, int, float, str).
    At Exact the data's runtime type must be the decoder's type itself and the
    data is returned unchanged; at Fallback the data need only be an instance of
    it and is rebuilt as the requested type. They never call `subparse`. */
module BaseTypes {
  import opened Options
  import opened Classes
  import opened Values
  import opened Types
  import opened JqPath
  import opened Parser

  /** Which of the four instantiations (BoolParser, IntParser, FloatParser, StringParser). */
  datatype Primitive = BoolType | IntType | FloatType | StrType

  /** The decoder's own type. */
  function Own(p: Primitive): ClassName
  {
    match p
    case BoolType => Bool
    case IntType => Int
    case FloatType => Float
    case StrType => Str
  }

  /** `can_parse`: at Exact the field type is the decoder's type itself; at
      Fallback it is any class deriving from it; no other stage. */
  predicate CanParse(p: Primitive, stage: Stage, path: Path, ft: Ty)
  {
    match stage
    case Exact => ft == Class(Own(p))
    case Fallback => IsClass(ft) && IsSubclass(ft.c, Own(p))
    case Override => false
  }

  /** `parse`. A stage other than Exact and Fallback matches no case and the
      method falls off its end, returning None. */
  function Parse(p: Primitive, stage: Stage, path: Path, ft: Ty, data: Value, sp: Subparse): (r: Result<Value>)
    ensures stage == Exact ==> (r.Ok? <==> TypeOf(data) == Own(p))
    ensures stage == Exact && TypeOf(data) != Own(p) ==> r == Err(InvalidType(TypeOf(data)))
    ensures stage == Exact && r.Ok? ==> r.value == data
    ensures stage == Fallback ==> (r.Ok? <==> IsInstance(data, Own(p)) && Constructs(ft))
    ensures stage == Fallback && r.Ok? ==> TypeOf(r.value) == Callable(ft).value
    ensures stage != Override && !IsInstance(data, Own(p)) ==> r == Err(InvalidType(TypeOf(data)))
    ensures stage == Override ==> r == Ok(NoneV)
  {
    match stage
    case Exact =>
      if TypeOf(data) != Own(p) then Err(InvalidType(TypeOf(data))) else Ok(data)
    case Fallback =>
      if !IsInstance(data, Own(p)) then Err(InvalidType(TypeOf(data))) else Construct(ft, data)
    case Override => Ok(NoneV)
  }

  /** At Exact each decoder claims only its own type, so no two primitive
      decoders claim the same field type (IntParser does not claim float,
      BoolParser does not claim int). */
  lemma ExactClaimsAreDisjoint(p: Primitive, q: Primitive, path: Path, ft: Ty)
    requires CanParse(p, Exact, path, ft) && CanParse(q, Exact, path, ft)
    ensures p == q
  {
  }

  /** Whatever a decoder claims at Exact it also claims at Fallback, and at
      Fallback it claims exactly the classes deriving from its type: a `str`
      subclass is claimed at Fallback but not at Exact. */
  lemma FallbackClaimsSubclasses(p: Primitive, path: Path, c: ClassName)
    ensures CanParse(p, Fallback, path, Class(c)) <==> IsSubclass(c, Own(p))
    ensures CanParse(p, Exact, path, Class(c)) ==> CanParse(p, Fallback, path, Class(c))
    ensures c != Own(p) ==> !CanParse(p, Exact, path, Class(c))
  {
  }

  /** A decoder never claims anything that is not a class at Fallback, and
      claims nothing at all at Override. */
  lemma NoClaimOutsideClasses(p: Primitive, stage: Stage, path: Path, ft: Ty)
    requires stage == Override || !ft.Class?
    ensures !CanParse(p, stage, path, ft)
  {
  }

  /** Exact is the strict special case of Fallback: on the decoder's own type,
      whatever Exact accepts Fallback accepts too, with the same result. */
  lemma ExactAgreesWithFallback(p: Primitive, path: Path, data: Value, sp: Subparse)
    requires WellFormed(data)
    requires Parse(p, Exact, path, Class(Own(p)), data, sp).Ok?
    ensures Parse(p, Fallback, path, Class(Own(p)), data, sp) == Parse(p, Exact, path, Class(Own(p)), data, sp)
  {
  }

  /** A Fallback decode of a claimed class rebuilds the data as that class: the
      result is an instance of exactly the requested class and compares equal
      (Python `==`) to the data. The one exception is `bool` requested from the
      int decoder with an int other than 0 or 1: `bool(5)` is `True`, not `5`. */
  lemma FallbackRebuildsAsFieldType(p: Primitive, path: Path, c: ClassName, data: Value, sp: Subparse)
    requires CanParse(p, Fallback, path, Class(c)) && SoundLayout(c)
    requires WellFormed(data) && IsInstance(data, Own(p))
    requires c == Bool && data.IntV? ==> data.i == 0 || data.i == 1
    ensures Parse(p, Fallback, path, Class(c), data, sp).Ok?
    ensures TypeOf(Parse(p, Fallback, path, Class(c), data, sp).value) == c
    ensures ScalarEq(Parse(p, Fallback, path, Class(c), data, sp).value, data)
  {
    // Deriving from bool means deriving from int; a defaultdict is a dict,
    // which no class deriving from a scalar type can also be.
    ScalarClassConstructs(p, c);
    InheritsAncestor(c, Bool, Int);
    InheritsAncestor(TypeOf(data), Bool, Int);
    assert Parse(p, Fallback, path, Class(c), data, sp) == Ok(Retag(c, data));
  }

  /** A class deriving from a scalar type can be called on data: it is neither
      `typing.Any` nor, since its layout is a scalar's, a `defaultdict`. */
  lemma ScalarClassConstructs(p: Primitive, c: ClassName)
    requires IsSubclass(c, Own(p)) && SoundLayout(c)
    ensures Constructs(Class(c))
  {
    InheritsAncestor(c, DefaultDict, Dict);
    InheritsAncestor(c, Bool, Int);
    assert IsSubclass(c, Dict) ==> LayoutCount(c) >= 2;
  }

  /** A primitive decode depends only on its stage, field type and data: it
      never consults `subparse`. */
  lemma NeverCallsSubparse(p: Primitive, stage: Stage, path: Path, ft: Ty, data: Value, sp1: Subparse, sp2: Subparse)
    ensures Parse(p, stage, path, ft, data, sp1) == Parse(p, stage, path, ft, data, sp2)
  {
  }
}
