/** The list decoder. It claims `list` and its parameterised forms at Exact,
    and mutable sequences at Fallback, never a tuple shape. It checks the data
    according to the stage and decodes every element at `path.[i]`. It builds
    the result as the requested container class. */
module ListParser {
  import opened Options
  import opened Classes
  import opened Values
  import opened Types
  import opened JqPath
  import opened Parser

  /** `can_parse`: at Exact the bare `list` or an alias whose origin is `list`;
      at Fallback any class deriving from MutableSequence, or an alias whose
      origin derives from `list`; no other stage. */
  predicate CanParse(stage: Stage, path: Path, ft: Ty)
  {
    match stage
    case Exact => ft == Class(List) || Origin(ft) == Some(List)
    case Fallback =>
      || (IsClass(ft) && IsSubclass(ft.c, MutableSequence))
      || (Origin(ft).Some? && IsSubclass(Origin(ft).value, List))
    case Override => false
  }

  /** The stage-dependent input check of `parse`: at Exact the data's runtime
      type is exactly `list` or `tuple`; at Fallback the data is a Sequence; any
      other stage checks nothing. */
  predicate Accepts(stage: Stage, data: Value)
  {
    match stage
    case Exact => TypeOf(data) == List || TypeOf(data) == Tuple
    case Fallback => IsInstance(data, Sequence)
    case Override => true
  }

  /** The declared element type: the first type argument, or `Any` when there is none. */
  function ElementType(ft: Ty): Ty
  {
    if |Args(ft)| == 0 then AnyTy else Args(ft)[0]
  }

  /** `parse`, with the `subparse` calls it makes. */
  function ParseRun(stage: Stage, path: Path, ft: Ty, data: Value, sp: Subparse): (run: Run<Value>)
  {
    if !Accepts(stage, data) then Run(Err(InvalidType(TypeOf(data))), [])
    else
      match Iter(data)
      case None => Run(Err(NotIterable(TypeOf(data))), [])
      case Some(xs) =>
        var items := RunPlan(sp, PositionalPlan(path, Repeat(ElementType(ft), |xs|), xs), 0);
        if items.result.Err? then Run(Err(items.result.error), items.calls)
        else Run(Construct(ft, SeqV(List, items.result.value)), items.calls)
  }

  /** `parse`: rejects data the stage's check refuses with a ValueError; otherwise
      the result holds, in input order, what `subparse` returned for each element
      at `path.[i]` with the element type, built as the requested class. */
  function Parse(stage: Stage, path: Path, ft: Ty, data: Value, sp: Subparse): (r: Result<Value>)
    ensures !Accepts(stage, data) ==> r == Err(InvalidType(TypeOf(data)))
    ensures r.Ok? <==>
      && Accepts(stage, data)
      && Iter(data).Some?
      && (forall i :: 0 <= i < |Iter(data).value| ==>
            sp(Child(path, Index(i)), ElementType(ft), Iter(data).value[i]).Ok?)
      && Constructs(ft)
    ensures r.Ok? ==>
      && TypeOf(r.value) == Callable(ft).value
      && (Callable(ft).value != Bool ==>
            && r.value.SeqV?
            && |r.value.items| == |Iter(data).value|
            && forall i :: 0 <= i < |Iter(data).value| ==>
                 r.value.items[i] == sp(Child(path, Index(i)), ElementType(ft), Iter(data).value[i]).value)
  {
    RunOutcome(stage, path, ft, data, sp);
    ParseRun(stage, path, ft, data, sp).result
  }

  /** What `ParseRun` does with accepted, iterable data: the positional run over
      its elements, each with the element type, built as the requested class. */
  lemma RunOutcome(stage: Stage, path: Path, ft: Ty, data: Value, sp: Subparse)
    ensures Accepts(stage, data) && Iter(data).Some? ==>
      var xs := Iter(data).value;
      var run := ParseRun(stage, path, ft, data, sp);
      && (run.result.Ok? <==>
            (forall i :: 0 <= i < |xs| ==> sp(Child(path, Index(i)), ElementType(ft), xs[i]).Ok?) && Constructs(ft))
      && (run.result.Ok? ==>
            && TypeOf(run.result.value) == Callable(ft).value
            && (Callable(ft).value != Bool ==>
                  && run.result.value.SeqV?
                  && |run.result.value.items| == |xs|
                  && forall i :: 0 <= i < |xs| ==>
                       run.result.value.items[i] == sp(Child(path, Index(i)), ElementType(ft), xs[i]).value))
      && |run.calls| <= |xs|
      && (run.result.Ok? ==> |run.calls| == |xs|)
      && forall i :: 0 <= i < |run.calls| ==> run.calls[i] == Call(Child(path, Index(i)), ElementType(ft), xs[i])
  {
    if Accepts(stage, data) && Iter(data).Some? {
      var xs := Iter(data).value;
      var tys := Repeat(ElementType(ft), |xs|);
      var items := RunPlan(sp, PositionalPlan(path, tys, xs), 0);
      PositionalOutcome(sp, path, tys, xs);
      assert ParseRun(stage, path, ft, data, sp).calls == items.calls;
      if items.result.Ok? && Constructs(ft) && Callable(ft).value != Bool {
        ConstructKeepsItems(ft, items.result.value);
      }
    }
  }

  /** `subparse` is called once per element, in index order, with
      `path.child(index=i)`, the element type and `data[i]`, stopping after the
      first failure; when the data is refused no call is made. */
  lemma SubparseCalls(stage: Stage, path: Path, ft: Ty, data: Value, sp: Subparse)
    ensures !Accepts(stage, data) || Iter(data).None? ==> ParseRun(stage, path, ft, data, sp).calls == []
    ensures Accepts(stage, data) && Iter(data).Some? ==>
      var run := ParseRun(stage, path, ft, data, sp);
      var xs := Iter(data).value;
      && |run.calls| <= |xs|
      && (run.result.Ok? ==> |run.calls| == |xs|)
      && (forall i :: 0 <= i < |run.calls| ==> run.calls[i] == Call(Child(path, Index(i)), ElementType(ft), xs[i]))
      && StopsAtFirstFailure(sp, run, |xs|)
  {
    RunOutcome(stage, path, ft, data, sp);
    if Accepts(stage, data) && Iter(data).Some? {
      var xs := Iter(data).value;
      var plan := PositionalPlan(path, Repeat(ElementType(ft), |xs|), xs);
      PlanStopsAtFirstFailure(sp, plan);
      StopsLikeItsPlan(sp, RunPlan(sp, plan, 0), ParseRun(stage, path, ft, data, sp), |xs|);
    }
  }

  /** If element k is the first whose decode fails, the list decode fails with
      that element's error after exactly k + 1 calls. */
  lemma ElementFailurePropagates(stage: Stage, path: Path, ft: Ty, data: Value, sp: Subparse, k: nat)
    requires Accepts(stage, data) && Iter(data).Some? && k < |Iter(data).value|
    requires forall i :: 0 <= i < k ==> sp(Child(path, Index(i)), ElementType(ft), Iter(data).value[i]).Ok?
    requires sp(Child(path, Index(k)), ElementType(ft), Iter(data).value[k]).Err?
    ensures Parse(stage, path, ft, data, sp) == Err(sp(Child(path, Index(k)), ElementType(ft), Iter(data).value[k]).error)
    ensures |ParseRun(stage, path, ft, data, sp).calls| == k + 1
  {
    var xs := Iter(data).value;
    var plan := PositionalPlan(path, Repeat(ElementType(ft), |xs|), xs);
    FirstFailurePropagates(sp, plan, k);
  }

  /** With a `subparse` that returns every element unchanged, accepted
      iterable data decodes into a claimed class holding its elements. */
  lemma IdentityOnElements(stage: Stage, path: Path, ft: Ty, data: Value, sp: Subparse)
    requires Accepts(stage, data) && Iter(data).Some?
    requires CanParse(Fallback, path, ft) && Constructs(ft)
    requires forall i :: 0 <= i < |Iter(data).value| ==>
      sp(Child(path, Index(i)), ElementType(ft), Iter(data).value[i]) == Ok(Iter(data).value[i])
    ensures Parse(stage, path, ft, data, sp) == Ok(SeqV(Callable(ft).value, Iter(data).value))
  {
    var xs := Iter(data).value;
    InheritsAncestor(Bool, List, MutableSequence);
    assert Callable(ft).value != Bool;
    var r := Parse(stage, path, ft, data, sp);
    assert r.Ok?;
    assert |r.value.items| == |xs|;
    forall i | 0 <= i < |xs|
      ensures r.value.items[i] == xs[i]
    {
      assert sp(Child(path, Index(i)), ElementType(ft), xs[i]) == Ok(xs[i]);
    }
    assert r.value.items == xs;
  }

  /** Identity: when `subparse` returns every element unchanged, decoding a
      sequence the stage's check accepts into a claimed container class gives
      that class holding the same elements in the same order. */
  lemma IdentityRoundTrip(stage: Stage, path: Path, ft: Ty, xs: seq<Value>, cls: ClassName, sp: Subparse)
    requires Accepts(stage, SeqV(cls, xs))
    requires CanParse(Fallback, path, ft) && Constructs(ft)
    requires forall i :: 0 <= i < |xs| ==> sp(Child(path, Index(i)), ElementType(ft), xs[i]) == Ok(xs[i])
    ensures Parse(stage, path, ft, SeqV(cls, xs), sp) == Ok(SeqV(Callable(ft).value, xs))
  {
    IdentityOnElements(stage, path, ft, SeqV(cls, xs), sp);
  }

  /** At Override the input check is skipped: anything iterable is decoded,
      so a dict yields its keys and a string its characters. */
  lemma OverrideDecodesAnyIterable(path: Path, ft: Ty, data: Value, sp: Subparse)
    requires Iter(data).Some?
    requires CanParse(Fallback, path, ft) && Constructs(ft)
    requires forall i :: 0 <= i < |Iter(data).value| ==>
      sp(Child(path, Index(i)), ElementType(ft), Iter(data).value[i]) == Ok(Iter(data).value[i])
    ensures Parse(Override, path, ft, data, sp) == Ok(SeqV(Callable(ft).value, Iter(data).value))
  {
    IdentityOnElements(Override, path, ft, data, sp);
  }

  /** Whatever is claimed at Exact is claimed at Fallback. */
  lemma ExactClaimImpliesFallbackClaim(path: Path, ft: Ty)
    requires CanParse(Exact, path, ft)
    ensures CanParse(Fallback, path, ft)
  {
  }

  /** At Fallback every class deriving from `list` is claimed, at Exact none but
      `list` itself. */
  lemma {:induction false} ListSubclassesClaimedAtFallbackOnly(path: Path, c: ClassName)
    requires IsSubclass(c, List)
    ensures CanParse(Fallback, path, Class(c))
    ensures CanParse(Exact, path, Class(c)) <==> c == List
  {
    InheritsAncestor(c, List, MutableSequence);
  }

  /** No tuple shape is claimed at any stage, bare or parameterised. */
  lemma NeverClaimsTuples(stage: Stage, path: Path, args: seq<Ty>)
    ensures !CanParse(stage, path, Class(Tuple))
    ensures !CanParse(stage, path, Generic(Tuple, args))
  {
  }
}
