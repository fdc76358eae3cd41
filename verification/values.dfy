/** Runtime Python values as the decoders see them: each value carries its
    runtime class (`type(x)`), so `type(x) is T` and `isinstance(x, T)` become
    comparisons against the class universe. Floats are opaque and identified by
    their `repr`. */
module Values {
  import opened Options
  import opened Classes

  datatype Value =
    | NoneV
    | BoolV(b: bool)
    | IntV(cls: ClassName, i: int)
    | FloatV(cls: ClassName, repr: string)
    | StrV(cls: ClassName, s: string)
    | SeqV(cls: ClassName, items: seq<Value>)
    | MapV(cls: ClassName, entries: seq<Entry>)
    | ObjV(cls: ClassName)

  /** One key/value pair of a mapping, in iteration order. */
  datatype Entry = Entry(key: Value, val: Value)

  /** `type(v)`. `bool` cannot be subclassed, so a bool value has no class field. */
  function TypeOf(v: Value): ClassName
  {
    match v
    case NoneV => NoneType
    case BoolV(_) => Bool
    case IntV(c, _) => c
    case FloatV(c, _) => c
    case StrV(c, _) => c
    case SeqV(c, _) => c
    case MapV(c, _) => c
    case ObjV(c) => c
  }

  /** `isinstance(v, c)`. */
  predicate IsInstance(v: Value, c: ClassName)
  {
    IsSubclass(TypeOf(v), c)
  }

  /** The one-character strings iterating a string yields. */
  function Chars(s: string): (r: seq<Value>)
    ensures |r| == |s|
    ensures forall i :: 0 <= i < |s| ==> r[i] == StrV(Str, [s[i]])
  {
    seq(|s|, i requires 0 <= i < |s| => StrV(Str, [s[i]]))
  }

  function Keys(es: seq<Entry>): (r: seq<Value>)
    ensures |r| == |es|
    ensures forall i :: 0 <= i < |es| ==> r[i] == es[i].key
  {
    seq(|es|, i requires 0 <= i < |es| => es[i].key)
  }

  /** What `for x in v` visits, or None when iterating `v` raises TypeError. */
  function Iter(v: Value): Option<seq<Value>>
  {
    match v
    case SeqV(_, xs) => Some(xs)
    case StrV(_, s) => Some(Chars(s))
    case MapV(_, es) => Some(Keys(es))
    case _ => None
  }

  /** What `len(v)` and `v[i]` see, or None when `v` cannot be indexed by position. */
  function Indexable(v: Value): Option<seq<Value>>
  {
    match v
    case SeqV(_, xs) => Some(xs)
    case StrV(_, s) => Some(Chars(s))
    case _ => None
  }

  /** What `v.items()` yields for a mapping, or None when `v` has no items. */
  function Items(v: Value): Option<seq<Entry>>
  {
    match v
    case MapV(_, es) => Some(es)
    case _ => None
  }

  /** The integer value of a bool or int, as Python's numeric `==` sees it. */
  function IntValue(v: Value): Option<int>
  {
    match v
    case BoolV(b) => Some(if b then 1 else 0)
    case IntV(_, i) => Some(i)
    case _ => None
  }

  /** Python's `==` restricted to scalars: bools and ints compare numerically
      (`True == 1`), strings by content whatever their class, floats by repr. */
  predicate ScalarEq(a: Value, b: Value)
  {
    || (IntValue(a).Some? && IntValue(a) == IntValue(b))
    || (a.FloatV? && b.FloatV? && a.repr == b.repr)
    || (a.StrV? && b.StrV? && a.s == b.s)
    || (a.NoneV? && b.NoneV?)
  }

  /** A value whose constructor agrees with its class, as every value Python can
      create does: an int-like payload belongs to a subclass of `int` (not of
      `bool`), and so on, and the class itself has a sound layout. */
  predicate WellFormed(v: Value)
  {
    && SoundLayout(TypeOf(v))
    && match v
       case NoneV => true
       case BoolV(_) => true
       case IntV(c, _) => IsSubclass(c, Int) && !IsSubclass(c, Bool)
       case FloatV(c, _) => IsSubclass(c, Float)
       case StrV(c, _) => IsSubclass(c, Str)
       case _ => !IsSubclass(TypeOf(v), Int) && !IsSubclass(TypeOf(v), Float) && !IsSubclass(TypeOf(v), Str)
  }

  /** Calling class `c` on `v`, as `field_type(v)` does: the payload is kept and
      tagged with the requested class; `bool(...)` and `int(...)` convert
      between the two numeric kinds. */
  function Retag(c: ClassName, v: Value): (r: Value)
    ensures TypeOf(r) == c
  {
    match v
    case NoneV => if c == Bool then BoolV(false) else ObjV(c)
    case BoolV(b) => if c == Bool then v else IntV(c, if b then 1 else 0)
    case IntV(_, i) => if c == Bool then BoolV(i != 0) else IntV(c, i)
    case FloatV(_, r) => if c == Bool then BoolV(true) else FloatV(c, r)
    case StrV(_, s) => if c == Bool then BoolV(s != "") else StrV(c, s)
    case SeqV(_, xs) => if c == Bool then BoolV(xs != []) else SeqV(c, xs)
    case MapV(_, es) => if c == Bool then BoolV(es != []) else MapV(c, es)
    case ObjV(_) => if c == Bool then BoolV(true) else ObjV(c)
  }

  function DigitChar(d: nat): char
    requires d < 10
  {
    "0123456789"[d]
  }

  function Digits(n: nat): string
  {
    if n < 10 then [DigitChar(n)] else Digits(n / 10) + [DigitChar(n % 10)]
  }

  /** `str(i)` for an int: base-10 digits with a leading `-` when negative. */
  function Decimal(i: int): string
  {
    if i < 0 then "-" + Digits(-i) else Digits(i)
  }

  function Join(parts: seq<string>): string
  {
    if |parts| == 0 then ""
    else if |parts| == 1 then parts[0]
    else parts[0] + ", " + Join(parts[1..])
  }

  /** `str(v)`, used to name a mapping key in a path. */
  function Text(v: Value): string
    decreases v, 0
  {
    match v
    case NoneV => "None"
    case BoolV(b) => if b then "True" else "False"
    case IntV(_, i) => Decimal(i)
    case FloatV(_, r) => r
    case StrV(_, s) => s
    case SeqV(c, xs) =>
      var inner := Join(seq(|xs|, i requires 0 <= i < |xs| => Repr(xs[i])));
      if IsSubclass(c, Tuple) then "(" + inner + (if |xs| == 1 then "," else "") + ")"
      else "[" + inner + "]"
    case MapV(_, es) =>
      "{" + Join(seq(|es|, i requires 0 <= i < |es| => Repr(es[i].key) + ": " + Repr(es[i].val))) + "}"
    case ObjV(_) => "<object>"
  }

  /** `repr(v)`, used for the items of a container rendered by `str`. */
  function Repr(v: Value): string
    decreases v, 1
  {
    match v
    case StrV(_, s) => "'" + s + "'"
    case _ => Text(v)
  }

  /** The keys of a mapping are pairwise distinct. */
  predicate DistinctKeys(es: seq<Entry>)
  {
    forall i, j :: 0 <= i < j < |es| ==> es[i].key != es[j].key
  }
}
