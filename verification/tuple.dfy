/** The fixed-tuple decoder. It claims `tuple` and its parameterised forms at
    Exact only. It resolves one element type per position from the declared
    arguments and checks the length before decoding anything. Position i is
    decoded at `path.[i]`. */
module TupleParser {
  import opened Options
  import opened Classes
  import opened Values
  import opened Types
  import opened JqPath
  import opened Parser

  /** `can_parse`: at Exact the bare `tuple` or an alias whose origin is
      `tuple`; no other stage. */
  predicate CanParse(stage: Stage, path: Path, ft: Ty)
  {
    stage == Exact && (ft == Class(Tuple) || Origin(ft) == Some(Tuple))
  }

  /** `tuple[T, ...]`: two arguments, the second the ellipsis. */
  predicate IsVariadic(args: seq<Ty>)
  {
    |args| == 2 && args[1] == EllipsisTy
  }

  /** The element types for n positions: a variadic tail repeats its type once
      per position, no arguments means `Any` at every position, and otherwise
      the declared arguments are used as they are. */
  function ResolveArgs(args: seq<Ty>, n: nat): (r: seq<Ty>)
    ensures |r| == n <==> IsVariadic(args) || |args| == 0 || |args| == n
    ensures |r| == n || (r == args && !IsVariadic(args) && |args| != 0)
    ensures IsVariadic(args) ==> forall i :: 0 <= i < |r| ==> r[i] == args[0]
    ensures |args| == 0 ==> forall i :: 0 <= i < |r| ==> r[i] == AnyTy
  {
    if IsVariadic(args) then Repeat(args[0], n)
    else if |args| == 0 then Repeat(AnyTy, n)
    else args
  }

  /** `parse`, with the `subparse` calls it makes. It takes no stage. */
  function ParseRun(path: Path, ft: Ty, data: Value, sp: Subparse): (run: Run<Value>)
  {
    if !IsInstance(data, Sequence) then Run(Err(InvalidType(TypeOf(data))), [])
    else
      match Indexable(data)
      case None => Run(Err(NotIterable(TypeOf(data))), [])
      case Some(xs) =>
        var tys := ResolveArgs(Args(ft), |xs|);
        if |tys| != |xs| then Run(Err(InvalidTupleLength), [])
        else
          var items := RunPlan(sp, PositionalPlan(path, tys, xs), 0);
          if items.result.Err? then Run(Err(items.result.error), items.calls)
          else Run(Construct(ft, SeqV(List, items.result.value)), items.calls)
  }

  /** `parse`: non-Sequence data is refused with a ValueError, and so is a
      length that differs from the resolved arity; otherwise position i holds
      what `subparse` returned at `path.[i]` with the i-th resolved type, and
      the result has the data's length and order, built as the requested
      class. */
  function Parse(path: Path, ft: Ty, data: Value, sp: Subparse): (r: Result<Value>)
    ensures !IsInstance(data, Sequence) ==> r == Err(InvalidType(TypeOf(data)))
    ensures IsInstance(data, Sequence) && Indexable(data).Some?
            && |ResolveArgs(Args(ft), |Indexable(data).value|)| != |Indexable(data).value|
            ==> r == Err(InvalidTupleLength)
    ensures r.Ok? <==>
      && IsInstance(data, Sequence)
      && Indexable(data).Some?
      && |ResolveArgs(Args(ft), |Indexable(data).value|)| == |Indexable(data).value|
      && (forall i :: 0 <= i < |Indexable(data).value| ==>
            sp(Child(path, Index(i)), ResolveArgs(Args(ft), |Indexable(data).value|)[i], Indexable(data).value[i]).Ok?)
      && Constructs(ft)
    ensures r.Ok? ==>
      && (!IsVariadic(Args(ft)) && |Args(ft)| != 0 ==> |Indexable(data).value| == |Args(ft)|)
      && TypeOf(r.value) == Callable(ft).value
      && (Callable(ft).value != Bool ==>
            var xs := Indexable(data).value;
            var tys := ResolveArgs(Args(ft), |xs|);
            && r.value.SeqV?
            && |r.value.items| == |xs|
            && forall i :: 0 <= i < |xs| ==> r.value.items[i] == sp(Child(path, Index(i)), tys[i], xs[i]).value)
  {
    RunOutcome(path, ft, data, sp);
    ParseRun(path, ft, data, sp).result
  }

  /** What `ParseRun` returns once the data passed the Sequence and arity
      checks: the positional run's outcome, built as the requested class, after
      calls that follow the positions in order. */
  lemma RunOutcome(path: Path, ft: Ty, data: Value, sp: Subparse)
    ensures IsInstance(data, Sequence) && Indexable(data).Some?
            && |ResolveArgs(Args(ft), |Indexable(data).value|)| == |Indexable(data).value| ==>
      var xs := Indexable(data).value;
      var tys := ResolveArgs(Args(ft), |xs|);
      var run := ParseRun(path, ft, data, sp);
      var r := run.result;
      && (r.Ok? <==> (forall i :: 0 <= i < |xs| ==> sp(Child(path, Index(i)), tys[i], xs[i]).Ok?) && Constructs(ft))
      && (r.Ok? ==>
            && TypeOf(r.value) == Callable(ft).value
            && (Callable(ft).value != Bool ==>
                  && r.value.SeqV?
                  && |r.value.items| == |xs|
                  && forall i :: 0 <= i < |xs| ==> r.value.items[i] == sp(Child(path, Index(i)), tys[i], xs[i]).value))
      && |run.calls| <= |xs|
      && (r.Ok? ==> |run.calls| == |xs|)
      && forall i :: 0 <= i < |run.calls| ==> run.calls[i] == Call(Child(path, Index(i)), tys[i], xs[i])
  {
    if IsInstance(data, Sequence) && Indexable(data).Some?
       && |ResolveArgs(Args(ft), |Indexable(data).value|)| == |Indexable(data).value|
    {
      var xs := Indexable(data).value;
      var tys := ResolveArgs(Args(ft), |xs|);
      var items := RunPlan(sp, PositionalPlan(path, tys, xs), 0);
      PositionalOutcome(sp, path, tys, xs);
      assert ParseRun(path, ft, data, sp).calls == items.calls;
      if items.result.Ok? && Constructs(ft) && Callable(ft).value != Bool {
        ConstructKeepsItems(ft, items.result.value);
      }
    }
  }

  /** A length mismatch is reported before any element is decoded: no
      `subparse` call is made. Otherwise position i is decoded by the i-th
      call, with `path.child(index=i)`, the i-th resolved type and `data[i]`,
      stopping after the first failure. */
  lemma SubparseCalls(path: Path, ft: Ty, data: Value, sp: Subparse)
    ensures IsInstance(data, Sequence) && Indexable(data).Some?
            && |ResolveArgs(Args(ft), |Indexable(data).value|)| != |Indexable(data).value|
            ==> ParseRun(path, ft, data, sp) == Run(Err(InvalidTupleLength), [])
    ensures IsInstance(data, Sequence) && Indexable(data).Some? ==>
      var run := ParseRun(path, ft, data, sp);
      var xs := Indexable(data).value;
      var tys := ResolveArgs(Args(ft), |xs|);
      && |run.calls| <= |xs|
      && (run.result.Ok? ==> |run.calls| == |xs|)
      && (forall i :: 0 <= i < |run.calls| ==> run.calls[i] == Call(Child(path, Index(i)), tys[i], xs[i]))
      && (|tys| == |xs| ==> StopsAtFirstFailure(sp, run, |xs|))
  {
    RunOutcome(path, ft, data, sp);
    if IsInstance(data, Sequence) && Indexable(data).Some?
       && |ResolveArgs(Args(ft), |Indexable(data).value|)| == |Indexable(data).value|
    {
      var xs := Indexable(data).value;
      var plan := PositionalPlan(path, ResolveArgs(Args(ft), |xs|), xs);
      PlanStopsAtFirstFailure(sp, plan);
      StopsLikeItsPlan(sp, RunPlan(sp, plan, 0), ParseRun(path, ft, data, sp), |xs|);
    }
  }

  /** Arity: a Sequence of n elements is refused on its length, before any
      element is decoded, exactly when the declaration is neither variadic nor
      empty and does not list n types. */
  lemma LengthCheckedFirst(path: Path, ft: Ty, data: Value, sp: Subparse)
    requires IsInstance(data, Sequence) && Indexable(data).Some?
    ensures var n := |Indexable(data).value|;
      !(IsVariadic(Args(ft)) || |Args(ft)| == 0 || |Args(ft)| == n)
      <==> ParseRun(path, ft, data, sp) == Run(Err(InvalidTupleLength), [])
  {
    var xs := Indexable(data).value;
    var tys := ResolveArgs(Args(ft), |xs|);
    if |tys| == |xs| && 0 < |xs| {
      RunOutcome(path, ft, data, sp);
      assert ParseRun(path, ft, data, sp).calls[0] == Call(Child(path, Index(0)), tys[0], xs[0]);
    }
  }

  /** Arity: a fixed declaration of two types never accepts one element,
      whether or not that element would decode. */
  lemma PairRejectsSingleton(path: Path, a: Ty, b: Ty, x: Value, sp: Subparse)
    requires b != EllipsisTy
    ensures Parse(path, Generic(Tuple, [a, b]), SeqV(Tuple, [x]), sp) == Err(InvalidTupleLength)
    ensures ParseRun(path, Generic(Tuple, [a, b]), SeqV(Tuple, [x]), sp).calls == []
  {
  }

  /** If position k is the first whose decode fails, the tuple decode fails
      with that error after exactly k + 1 calls. */
  lemma ElementFailurePropagates(path: Path, ft: Ty, data: Value, sp: Subparse, k: nat)
    requires IsInstance(data, Sequence) && Indexable(data).Some?
    requires |ResolveArgs(Args(ft), |Indexable(data).value|)| == |Indexable(data).value|
    requires k < |Indexable(data).value|
    requires var xs := Indexable(data).value; var tys := ResolveArgs(Args(ft), |xs|);
      && (forall i :: 0 <= i < k ==> sp(Child(path, Index(i)), tys[i], xs[i]).Ok?)
      && sp(Child(path, Index(k)), tys[k], xs[k]).Err?
    ensures var xs := Indexable(data).value; var tys := ResolveArgs(Args(ft), |xs|);
      Parse(path, ft, data, sp) == Err(sp(Child(path, Index(k)), tys[k], xs[k]).error)
    ensures |ParseRun(path, ft, data, sp).calls| == k + 1
  {
    var xs := Indexable(data).value;
    var plan := PositionalPlan(path, ResolveArgs(Args(ft), |xs|), xs);
    FirstFailurePropagates(sp, plan, k);
    assert ParseRun(path, ft, data, sp).calls == RunPlan(sp, plan, 0).calls;
  }

  /** The variadic and unparameterised forms accept every length: when
      `subparse` returns every position's data, a Sequence of any length
      decodes to a tuple of the same elements, even when the input was a list. */
  lemma {:induction false} OpenArityAcceptsAnyLength(path: Path, ft: Ty, data: Value, sp: Subparse)
    requires CanParse(Exact, path, ft)
    requires ft == Class(Tuple) || IsVariadic(Args(ft))
    requires IsInstance(data, Sequence) && Indexable(data).Some?
    requires var xs := Indexable(data).value; var tys := ResolveArgs(Args(ft), |xs|);
      forall i :: 0 <= i < |xs| ==> sp(Child(path, Index(i)), tys[i], xs[i]) == Ok(xs[i])
    ensures Parse(path, ft, data, sp) == Ok(SeqV(Tuple, Indexable(data).value))
  {
    IdentityRoundTrip(path, ft, data, sp);
  }

  /** Identity: when `subparse` returns the data of every position unchanged
      and the length matches the resolved arity, the decode holds the same
      elements in the same order, as the requested class. */
  lemma {:induction false} IdentityRoundTrip(path: Path, ft: Ty, data: Value, sp: Subparse)
    requires IsInstance(data, Sequence) && Indexable(data).Some?
    requires |ResolveArgs(Args(ft), |Indexable(data).value|)| == |Indexable(data).value|
    requires Constructs(ft) && Callable(ft).value != Bool
    requires var xs := Indexable(data).value; var tys := ResolveArgs(Args(ft), |xs|);
      forall i :: 0 <= i < |xs| ==> sp(Child(path, Index(i)), tys[i], xs[i]) == Ok(xs[i])
    ensures Parse(path, ft, data, sp) == Ok(SeqV(Callable(ft).value, Indexable(data).value))
  {
    var r := Parse(path, ft, data, sp);
    assert r.value.items == Indexable(data).value;
  }

  /** `tuple[()]` declares the empty tuple, but it has no type arguments, so
      it is resolved like the bare `tuple`: every length is accepted. */
  lemma EmptyAliasIsOpenArity(path: Path, data: Value, sp: Subparse)
    ensures Parse(path, Generic(Tuple, []), data, sp) == Parse(path, Class(Tuple), data, sp)
  {
    assert Args(Generic(Tuple, [])) == Args(Class(Tuple));
    assert Constructs(Generic(Tuple, [])) && Constructs(Class(Tuple));
    assert forall v :: Construct(Generic(Tuple, []), v) == Construct(Class(Tuple), v);
  }

  /** Only `tuple` shapes are claimed: not `list`, and nothing at Fallback. */
  lemma ClaimsOnlyTuples(stage: Stage, path: Path, ft: Ty)
    requires CanParse(stage, path, ft)
    ensures stage == Exact && Callable(ft) == Some(Tuple)
  {
  }
}
