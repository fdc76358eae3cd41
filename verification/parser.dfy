/** The vocabulary shared by the decoders: the dispatch stages, the errors a
    decode can raise, the `subparse` callback, the record of the calls a decoder
    makes through it, building the requested type, and the positional
    element-by-element decode that the list and tuple decoders share. */
module Parser {
  import opened Options
  import opened Classes
  import opened Values
  import opened Types
  import opened JqPath

  /** The dispatch tiers, in priority order. */
  datatype Stage = Override | Exact | Fallback

  datatype Error =
    | InvalidType(found: ClassName)   // ValueError "Invalid type" from a decoder's input check
    | InvalidTupleLength              // ValueError "Invalid tuple length"
    | NotIterable(found: ClassName)   // TypeError from iterating or indexing the data
    | NotConstructible(target: Ty)    // TypeError from calling the requested type

  /** The errors the decoders raise as `ValueError`. */
  predicate IsValueError(e: Error)
  {
    e.InvalidType? || e.InvalidTupleLength?
  }

  /** A decode either returns a value or raises. */
  datatype Result<+T> = Ok(value: T) | Err(error: Error) {
    predicate IsFailure()
    {
      Err?
    }

    function PropagateFailure<U>(): Result<U>
      requires Err?
    {
      Err(error)
    }

    function Extract(): T
      requires Ok?
    {
      value
    }
  }

  /** The callback through which a decoder decodes a nested value at a child path. */
  type Subparse = (Path, Ty, Value) -> Result<Value>

  /** One invocation of `subparse`, with its arguments. */
  datatype Call = Call(path: Path, ty: Ty, data: Value)

  /** A decoder's outcome together with the `subparse` calls it made, in order. */
  datatype Run<+T> = Run(result: Result<T>, calls: seq<Call>)

  /** The abstract collection classes: calling one raises "Can't instantiate
      abstract class". */
  predicate IsAbstract(c: ClassName)
  {
    c == Sequence || c == MutableSequence || c == Mapping || c == MutableMapping
  }

  /** The requested type can be called on assembled data: `typing.Any` and the
      abstract collection classes cannot be instantiated, and a `defaultdict`
      refuses a mapping as its first argument. */
  predicate Constructs(ft: Ty)
  {
    && Callable(ft).Some?
    && Callable(ft).value != AnyClass
    && !IsAbstract(Callable(ft).value)
    && !IsSubclass(Callable(ft).value, DefaultDict)
  }

  /** `field_type(v)`: the result is an instance of exactly the requested class. */
  function Construct(ft: Ty, v: Value): (r: Result<Value>)
    ensures r.Ok? <==> Constructs(ft)
    ensures r.Err? ==> r.error == NotConstructible(ft)
    ensures r.Ok? ==> TypeOf(r.value) == Callable(ft).value
  {
    if Constructs(ft) then Ok(Retag(Callable(ft).value, v)) else Err(NotConstructible(ft))
  }

  /** A container class (neither `bool` nor `typing.Any`) keeps the items it is built from. */
  lemma ConstructKeepsItems(ft: Ty, xs: seq<Value>)
    requires Constructs(ft) && Callable(ft).value != Bool
    ensures Construct(ft, SeqV(List, xs)) == Ok(SeqV(Callable(ft).value, xs))
  {
  }

  function Repeat(t: Ty, n: nat): (r: seq<Ty>)
    ensures |r| == n
    ensures forall i :: 0 <= i < n ==> r[i] == t
  {
    seq(n, _ => t)
  }

  /** Performs one call through `subparse`. */
  function Invoke(sp: Subparse, c: Call): Result<Value>
  {
    sp(c.path, c.ty, c.data)
  }

  /** Performs the planned calls `from` .. |plan|-1 in order and stops at the
      first failure. The calls made are a prefix of the plan; on success there
      is one result per call, in plan order; on failure every call but the last
      succeeded and the last one's error is the outcome. */
  function RunPlan(sp: Subparse, plan: seq<Call>, from: nat): (run: Run<seq<Value>>)
    requires from <= |plan|
    decreases |plan| - from
    ensures from + |run.calls| <= |plan|
    ensures forall j :: from <= j < from + |run.calls| ==> run.calls[j - from] == plan[j]
    ensures run.result.Ok? <==> forall j :: from <= j < |plan| ==> Invoke(sp, plan[j]).Ok?
    ensures run.result.Ok? ==>
      && from + |run.calls| == |plan|
      && |run.result.value| == |plan| - from
      && forall j :: from <= j < |plan| ==> run.result.value[j - from] == Invoke(sp, plan[j]).value
    ensures run.result.Err? ==>
      && 0 < |run.calls|
      && (forall j :: from <= j < from + |run.calls| - 1 ==> Invoke(sp, plan[j]).Ok?)
      && Invoke(sp, plan[from + |run.calls| - 1]) == Err(run.result.error)
  {
    if from == |plan| then Run(Ok([]), [])
    else
      match Invoke(sp, plan[from])
      case Err(e) => Run(Err(e), [plan[from]])
      case Ok(v) =>
        var rest := RunPlan(sp, plan, from + 1);
        Run(if rest.result.Ok? then Ok([v] + rest.result.value) else Err(rest.result.error), [plan[from]] + rest.calls)
  }

  /** If call k is the first of the plan to fail, running the plan fails with
      its error after exactly k + 1 calls. */
  lemma FirstFailurePropagates(sp: Subparse, plan: seq<Call>, k: nat)
    requires k < |plan|
    requires forall i :: 0 <= i < k ==> Invoke(sp, plan[i]).Ok?
    requires Invoke(sp, plan[k]).Err?
    ensures RunPlan(sp, plan, 0).result == Err(Invoke(sp, plan[k]).error)
    ensures |RunPlan(sp, plan, 0).calls| == k + 1
  {
  }

  /** The calls of a run stop at the first failure: every call but the last
      succeeded; fewer than n calls means the last one failed; and a failing
      last call's error is the outcome. */
  predicate StopsAtFirstFailure<T>(sp: Subparse, run: Run<T>, n: nat)
  {
    && (forall i :: 0 <= i < |run.calls| - 1 ==> Invoke(sp, run.calls[i]).Ok?)
    && (|run.calls| < n ==> 0 < |run.calls| && Invoke(sp, run.calls[|run.calls| - 1]).Err?)
    && (0 < |run.calls| && Invoke(sp, run.calls[|run.calls| - 1]).Err? ==>
          run.result == Err(Invoke(sp, run.calls[|run.calls| - 1]).error))
  }

  /** Running a plan stops at its first failing call, and no earlier. */
  lemma PlanStopsAtFirstFailure(sp: Subparse, plan: seq<Call>)
    ensures StopsAtFirstFailure(sp, RunPlan(sp, plan, 0), |plan|)
  {
    var run := RunPlan(sp, plan, 0);
    forall i | 0 <= i < |run.calls|
      ensures run.calls[i] == plan[i]
    {
      assert run.calls[i - 0] == plan[i];
    }
    if run.result.Ok? && 0 < |run.calls| {
      assert Invoke(sp, plan[|run.calls| - 1]).Ok?;
    }
  }

  /** A decoder that makes a plan's calls and, when the plan fails, fails with
      its error, stops where the plan stops. */
  lemma StopsLikeItsPlan<T, U>(sp: Subparse, items: Run<T>, run: Run<U>, n: nat)
    requires StopsAtFirstFailure(sp, items, n)
    requires run.calls == items.calls
    requires items.result.Err? ==> run.result == Err(items.result.error)
    ensures StopsAtFirstFailure(sp, run, n)
  {
  }

  /** The positional plan: position i is decoded at `path.child(index=i)` with
      type `tys[i]` and data `xs[i]`. */
  function PositionalPlan(path: Path, tys: seq<Ty>, xs: seq<Value>): (plan: seq<Call>)
    requires |tys| == |xs|
    ensures |plan| == |xs|
    ensures forall i :: 0 <= i < |xs| ==> plan[i] == Call(Child(path, Index(i)), tys[i], xs[i])
  {
    seq(|xs|, i requires 0 <= i < |xs| => Call(Child(path, Index(i)), tys[i], xs[i]))
  }

  /** Running a positional plan: it succeeds exactly when every position
      decodes, and then returns each position's decode in order; the calls made
      are the plan's first calls. */
  lemma PositionalOutcome(sp: Subparse, path: Path, tys: seq<Ty>, xs: seq<Value>)
    requires |tys| == |xs|
    ensures var run := RunPlan(sp, PositionalPlan(path, tys, xs), 0);
      && (run.result.Ok? <==> forall i :: 0 <= i < |xs| ==> sp(Child(path, Index(i)), tys[i], xs[i]).Ok?)
      && (run.result.Ok? ==>
            && |run.result.value| == |xs|
            && forall i :: 0 <= i < |xs| ==> run.result.value[i] == sp(Child(path, Index(i)), tys[i], xs[i]).value)
      && |run.calls| <= |xs|
      && (run.result.Ok? ==> |run.calls| == |xs|)
      && forall i :: 0 <= i < |run.calls| ==> run.calls[i] == Call(Child(path, Index(i)), tys[i], xs[i])
  {
    var plan := PositionalPlan(path, tys, xs);
    var run := RunPlan(sp, plan, 0);
    forall i | 0 <= i < |xs|
      ensures Invoke(sp, plan[i]) == sp(Child(path, Index(i)), tys[i], xs[i])
    {
    }
    forall i | 0 <= i < |run.calls|
      ensures run.calls[i] == Call(Child(path, Index(i)), tys[i], xs[i])
    {
      assert run.calls[i - 0] == plan[i];
    }
  }
}
