/** Field types as Python's typing introspection sees them: `get_origin`,
    `get_args` and `inspect.isclass` become total functions over an explicit
    type datatype. */
module Types {
  import opened Options
  import opened Classes

  datatype Ty =
    | Class(c: ClassName)                        // a bare class: int, list, MyStr, typing.Any
    | Generic(origin: ClassName, args: seq<Ty>)  // a parameterised alias: list[int], dict[str, int]
    | NoneTy                                     // the None object used where a type is expected
    | EllipsisTy                                 // the `...` of tuple[int, ...]

  /** `typing.Any`, a class since Python 3.11. */
  const AnyTy: Ty := Class(AnyClass)

  /** `get_origin(t)`: the class a parameterised alias stands for; None for anything else. */
  function Origin(t: Ty): Option<ClassName>
  {
    match t
    case Generic(o, _) => Some(o)
    case _ => None
  }

  /** `get_args(t)`: the type arguments; empty for anything that is not parameterised. */
  function Args(t: Ty): seq<Ty>
  {
    match t
    case Generic(_, a) => a
    case _ => []
  }

  /** `inspect.isclass(t)`: true for bare classes only; a parameterised alias is not a class. */
  predicate IsClass(t: Ty)
  {
    t.Class?
  }

  /** The class that calling `t` instantiates: a class itself, or the origin of
      a parameterised alias. None and `...` cannot be called. */
  function Callable(t: Ty): Option<ClassName>
  {
    match t
    case Class(c) => Some(c)
    case Generic(o, _) => Some(o)
    case _ => None
  }
}
