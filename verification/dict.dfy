/** The dict decoder. It claims `dict`, `OrderedDict` and their parameterised
    forms at Exact, and any Mapping at Fallback. It decodes every key and every
    value at `path.<str(key)>`, and it builds the result as the requested
    mapping class. Like a dict display, a later entry whose decoded key equals
    an earlier one overwrites that entry's value in place. */
module DictParser {
  import opened Options
  import opened Classes
  import opened Values
  import opened Types
  import opened JqPath
  import opened Parser

  /** `can_parse`: at Exact `dict`, `OrderedDict`, or an alias whose origin is
      one of them; at Fallback any class deriving from Mapping, or an alias whose
      origin derives from Mapping; no other stage. */
  predicate CanParse(stage: Stage, path: Path, ft: Ty)
  {
    match stage
    case Exact =>
      || ft == Class(Dict) || ft == Class(OrderedDict)
      || Origin(ft) == Some(Dict) || Origin(ft) == Some(OrderedDict)
    case Fallback =>
      || (IsClass(ft) && IsSubclass(ft.c, Mapping))
      || (Origin(ft).Some? && IsSubclass(Origin(ft).value, Mapping))
    case Override => false
  }

  /** The key and value types: the two type arguments, or `(Any, Any)` when
      there are not exactly two. */
  function KeyValueTypes(ft: Ty): (r: (Ty, Ty))
    ensures |Args(ft)| == 2 ==> r == (Args(ft)[0], Args(ft)[1])
    ensures |Args(ft)| != 2 ==> r == (AnyTy, AnyTy)
  {
    if |Args(ft)| == 2 then (Args(ft)[0], Args(ft)[1]) else (AnyTy, AnyTy)
  }

  /** Where an entry is decoded: `path.child(name=str(key))`, for key and value alike. */
  function EntryPath(path: Path, e: Entry): Path
  {
    Child(path, Name(Text(e.key)))
  }

  function KeyCall(path: Path, kt: Ty, es: seq<Entry>, j: nat): Call
    requires j < |es|
  {
    Call(EntryPath(path, es[j]), kt, es[j].key)
  }

  function ValCall(path: Path, vt: Ty, es: seq<Entry>, j: nat): Call
    requires j < |es|
  {
    Call(EntryPath(path, es[j]), vt, es[j].val)
  }

  /** What `subparse` returns for the key of entry j. */
  function KeyAt(sp: Subparse, path: Path, kt: Ty, es: seq<Entry>, j: nat): Result<Value>
    requires j < |es|
  {
    sp(EntryPath(path, es[j]), kt, es[j].key)
  }

  /** What `subparse` returns for the value of entry j. */
  function ValAt(sp: Subparse, path: Path, vt: Ty, es: seq<Entry>, j: nat): Result<Value>
    requires j < |es|
  {
    sp(EntryPath(path, es[j]), vt, es[j].val)
  }

  predicate EntryOk(sp: Subparse, path: Path, kt: Ty, vt: Ty, es: seq<Entry>, j: nat)
    requires j < |es|
  {
    KeyAt(sp, path, kt, es, j).Ok? && ValAt(sp, path, vt, es, j).Ok?
  }

  /** The error of a failing entry: the key is decoded first. */
  function EntryError(sp: Subparse, path: Path, kt: Ty, vt: Ty, es: seq<Entry>, j: nat): Error
    requires j < |es| && !EntryOk(sp, path, kt, vt, es, j)
  {
    if KeyAt(sp, path, kt, es, j).Err? then KeyAt(sp, path, kt, es, j).error else ValAt(sp, path, vt, es, j).error
  }

  /** The calls decoding the entries: for entry j, call 2j decodes the key and
      call 2j + 1 the value, both at `path.child(name=str(key))`. */
  function EntryPlan(path: Path, kt: Ty, vt: Ty, es: seq<Entry>): (plan: seq<Call>)
    ensures |plan| == 2 * |es|
  {
    seq(2 * |es|, i requires 0 <= i < 2 * |es| =>
      if i % 2 == 0 then KeyCall(path, kt, es, i / 2) else ValCall(path, vt, es, i / 2))
  }

  /** Entry j's two calls in the plan. */
  lemma PlanEntry(path: Path, kt: Ty, vt: Ty, es: seq<Entry>, j: nat)
    requires j < |es|
    ensures 2 * j + 1 < |EntryPlan(path, kt, vt, es)|
    ensures EntryPlan(path, kt, vt, es)[2 * j] == KeyCall(path, kt, es, j)
    ensures EntryPlan(path, kt, vt, es)[2 * j + 1] == ValCall(path, vt, es, j)
  {
    var plan := EntryPlan(path, kt, vt, es);
    assert (2 * j) % 2 == 0 && (2 * j) / 2 == j;
    assert (2 * j + 1) % 2 == 1 && (2 * j + 1) / 2 == j;
  }

  /** Every call of the plan belongs to one entry, as its key or its value. */
  lemma CallEntry(i: nat) returns (j: nat)
    ensures i == 2 * j || i == 2 * j + 1
  {
    j := i / 2;
  }

  /** Regroups the results of an entry plan into key/value pairs. */
  function Pairs(vs: seq<Value>): (r: seq<Entry>)
    requires |vs| % 2 == 0
    ensures |r| == |vs| / 2
    ensures forall j :: 0 <= j < |r| ==> r[j] == Entry(vs[2 * j], vs[2 * j + 1])
  {
    seq(|vs| / 2, j requires 0 <= j < |vs| / 2 => Entry(vs[2 * j], vs[2 * j + 1]))
  }

  /** The decoded pairs, entry by entry, when every entry decodes. */
  function Decoded(sp: Subparse, path: Path, kt: Ty, vt: Ty, es: seq<Entry>): (r: seq<Entry>)
    requires forall j :: 0 <= j < |es| ==> EntryOk(sp, path, kt, vt, es, j)
    ensures |r| == |es|
  {
    seq(|es|, j requires 0 <= j < |es| =>
      assert EntryOk(sp, path, kt, vt, es, j);
      Entry(KeyAt(sp, path, kt, es, j).value, ValAt(sp, path, vt, es, j).value))
  }

  /** The value stored under key k, looked up in iteration order. */
  function Lookup(m: seq<Entry>, k: Value): Option<Value>
  {
    if |m| == 0 then None else if m[0].key == k then Some(m[0].val) else Lookup(m[1..], k)
  }

  /** The value of the last pair with key k: what a dict built from the pairs
      one at a time must end up holding for k. */
  function LastValue(pairs: seq<Entry>, k: Value): Option<Value>
  {
    if |pairs| == 0 then None
    else if pairs[|pairs| - 1].key == k then Some(pairs[|pairs| - 1].val)
    else LastValue(pairs[..|pairs| - 1], k)
  }

  /** `d[key] = val`: overwrite in place when the key is present, else append. */
  function Insert(m: seq<Entry>, e: Entry): seq<Entry>
  {
    if |m| == 0 then [e]
    else if m[0].key == e.key then [Entry(m[0].key, e.val)] + m[1..]
    else [m[0]] + Insert(m[1..], e)
  }

  /** The dict a comprehension builds from the decoded pairs, in order. */
  function Assemble(pairs: seq<Entry>): seq<Entry>
  {
    if |pairs| == 0 then [] else Insert(Assemble(pairs[..|pairs| - 1]), pairs[|pairs| - 1])
  }

  lemma {:induction false} InsertLookup(m: seq<Entry>, e: Entry, k: Value)
    ensures Lookup(Insert(m, e), k) == if k == e.key then Some(e.val) else Lookup(m, k)
  {
    if |m| > 0 && m[0].key != e.key {
      InsertLookup(m[1..], e, k);
    }
  }

  /** Inserting a fresh key appends it. */
  lemma {:induction false} InsertFresh(m: seq<Entry>, e: Entry)
    requires forall i :: 0 <= i < |m| ==> m[i].key != e.key
    ensures Insert(m, e) == m + [e]
  {
    if |m| > 0 {
      InsertFresh(m[1..], e);
    }
  }

  /** Every key of `Insert(m, e)` is a key of m or the inserted key. */
  lemma {:induction false} InsertKeys(m: seq<Entry>, e: Entry)
    ensures |Insert(m, e)| >= 1
    ensures forall i :: 0 <= i < |Insert(m, e)| ==>
      Insert(m, e)[i].key == e.key || exists j :: 0 <= j < |m| && m[j].key == Insert(m, e)[i].key
  {
    if |m| > 0 && m[0].key != e.key {
      InsertKeys(m[1..], e);
      var r := Insert(m, e);
      forall i | 0 <= i < |r|
        ensures r[i].key == e.key || exists j :: 0 <= j < |m| && m[j].key == r[i].key
      {
        if i > 0 && r[i].key != e.key {
          var j :| 0 <= j < |m[1..]| && m[1..][j].key == r[i].key;
          assert m[j + 1].key == r[i].key;
        }
      }
    }
  }

  lemma {:induction false} InsertKeepsDistinct(m: seq<Entry>, e: Entry)
    requires DistinctKeys(m)
    ensures DistinctKeys(Insert(m, e))
  {
    if |m| > 0 && m[0].key != e.key {
      InsertKeepsDistinct(m[1..], e);
      InsertKeys(m[1..], e);
      var rest := Insert(m[1..], e);
      assert Insert(m, e) == [m[0]] + rest;
      forall i | 0 <= i < |rest|
        ensures rest[i].key != m[0].key
      {
        if rest[i].key != e.key {
          var j :| 0 <= j < |m[1..]| && m[1..][j].key == rest[i].key;
          assert m[j + 1].key == rest[i].key;
        }
      }
    }
  }

  /** The assembled dict never holds a key twice. */
  lemma {:induction false} AssembleDistinct(pairs: seq<Entry>)
    ensures DistinctKeys(Assemble(pairs))
  {
    if |pairs| > 0 {
      AssembleDistinct(pairs[..|pairs| - 1]);
      InsertKeepsDistinct(Assemble(pairs[..|pairs| - 1]), pairs[|pairs| - 1]);
    }
  }

  /** Last write wins: the assembled dict holds, for every key, the value of
      the last pair with that key. */
  lemma {:induction false} AssembleLastWins(pairs: seq<Entry>, k: Value)
    ensures Lookup(Assemble(pairs), k) == LastValue(pairs, k)
  {
    if |pairs| > 0 {
      AssembleLastWins(pairs[..|pairs| - 1], k);
      InsertLookup(Assemble(pairs[..|pairs| - 1]), pairs[|pairs| - 1], k);
    }
  }

  /** Pairs with distinct keys are kept as they are, in order. */
  lemma {:induction false} AssembleKeepsDistinctPairs(pairs: seq<Entry>)
    requires DistinctKeys(pairs)
    ensures Assemble(pairs) == pairs
  {
    if |pairs| > 0 {
      var init := pairs[..|pairs| - 1];
      var last := pairs[|pairs| - 1];
      assert DistinctKeys(init);
      AssembleKeepsDistinctPairs(init);
      assert forall i :: 0 <= i < |init| ==> init[i].key != last.key;
      InsertFresh(init, last);
      assert init + [last] == pairs;
    }
  }

  /** `parse`, with the `subparse` calls it makes. It takes no stage. */
  function ParseRun(path: Path, ft: Ty, data: Value, sp: Subparse): (run: Run<Value>)
  {
    if !IsInstance(data, Mapping) then Run(Err(InvalidType(TypeOf(data))), [])
    else
      match Items(data)
      case None => Run(Err(NotIterable(TypeOf(data))), [])
      case Some(es) =>
        var (kt, vt) := KeyValueTypes(ft);
        var run := RunPlan(sp, EntryPlan(path, kt, vt, es), 0);
        if run.result.Err? then Run(Err(run.result.error), run.calls)
        else Run(Construct(ft, MapV(Dict, Assemble(Pairs(run.result.value)))), run.calls)
  }

  /** `parse`: non-Mapping data is refused with a ValueError; otherwise every
      entry's key and value are decoded with the key and value types at
      `path.<str(key)>`, and the result is the dict those pairs build, as the
      requested class. */
  function Parse(path: Path, ft: Ty, data: Value, sp: Subparse): (r: Result<Value>)
    ensures !IsInstance(data, Mapping) ==> r == Err(InvalidType(TypeOf(data)))
    ensures r.Ok? <==>
      && IsInstance(data, Mapping)
      && Items(data).Some?
      && (forall j :: 0 <= j < |Items(data).value| ==>
            EntryOk(sp, path, KeyValueTypes(ft).0, KeyValueTypes(ft).1, Items(data).value, j))
      && Constructs(ft)
    ensures r.Ok? ==>
      && TypeOf(r.value) == Callable(ft).value
      && (Callable(ft).value != Bool ==>
            && r.value.MapV?
            && DistinctKeys(r.value.entries)
            && r.value.entries == Assemble(Decoded(sp, path, KeyValueTypes(ft).0, KeyValueTypes(ft).1, Items(data).value)))
  {
    var run := ParseRun(path, ft, data, sp);
    if IsInstance(data, Mapping) && Items(data).Some? then
      var es := Items(data).value;
      var (kt, vt) := KeyValueTypes(ft);
      PlanOutcome(sp, path, kt, vt, es);
      run.result
    else
      run.result
  }

  /** A successful run of the entry plan means every entry decoded. */
  lemma PlanOkEntries(sp: Subparse, path: Path, kt: Ty, vt: Ty, es: seq<Entry>, j: nat)
    requires j < |es|
    requires RunPlan(sp, EntryPlan(path, kt, vt, es), 0).result.Ok?
    ensures EntryOk(sp, path, kt, vt, es, j)
  {
    var plan := EntryPlan(path, kt, vt, es);
    PlanEntry(path, kt, vt, es, j);
    assert Invoke(sp, plan[2 * j]).Ok? && Invoke(sp, plan[2 * j + 1]).Ok?;
  }

  /** A successful run of the entry plan regroups into the decoded pairs. */
  lemma PlanOkPair(sp: Subparse, path: Path, kt: Ty, vt: Ty, es: seq<Entry>, j: nat)
    requires j < |es|
    requires RunPlan(sp, EntryPlan(path, kt, vt, es), 0).result.Ok?
    requires forall i :: 0 <= i < |es| ==> EntryOk(sp, path, kt, vt, es, i)
    ensures Pairs(RunPlan(sp, EntryPlan(path, kt, vt, es), 0).result.value)[j] == Decoded(sp, path, kt, vt, es)[j]
  {
    var plan := EntryPlan(path, kt, vt, es);
    var vs := RunPlan(sp, plan, 0).result.value;
    PlanEntry(path, kt, vt, es, j);
    assert vs[2 * j] == Invoke(sp, plan[2 * j]).value;
    assert vs[2 * j + 1] == Invoke(sp, plan[2 * j + 1]).value;
  }

  /** A failed run of the entry plan means some entry did not decode. */
  lemma PlanErrEntry(sp: Subparse, path: Path, kt: Ty, vt: Ty, es: seq<Entry>) returns (j: nat)
    requires RunPlan(sp, EntryPlan(path, kt, vt, es), 0).result.Err?
    ensures j < |es| && !EntryOk(sp, path, kt, vt, es, j)
  {
    var plan := EntryPlan(path, kt, vt, es);
    var run := RunPlan(sp, plan, 0);
    var m := |run.calls| - 1;
    assert Invoke(sp, plan[m]).Err?;
    j := CallEntry(m);
    PlanEntry(path, kt, vt, es, j);
    if m == 2 * j {
      assert KeyAt(sp, path, kt, es, j).Err?;
    } else {
      assert ValAt(sp, path, vt, es, j).Err?;
    }
  }

  /** Running the entry plan succeeds exactly when every entry decodes, and
      then regroups into the decoded pairs. */
  lemma PlanOutcome(sp: Subparse, path: Path, kt: Ty, vt: Ty, es: seq<Entry>)
    ensures var run := RunPlan(sp, EntryPlan(path, kt, vt, es), 0);
      && (run.result.Ok? <==> forall j :: 0 <= j < |es| ==> EntryOk(sp, path, kt, vt, es, j))
      && (run.result.Ok? ==> Pairs(run.result.value) == Decoded(sp, path, kt, vt, es))
      && DistinctKeys(Assemble(if run.result.Ok? then Pairs(run.result.value) else []))
  {
    var run := RunPlan(sp, EntryPlan(path, kt, vt, es), 0);
    if run.result.Ok? {
      forall j | 0 <= j < |es|
        ensures EntryOk(sp, path, kt, vt, es, j)
      {
        PlanOkEntries(sp, path, kt, vt, es, j);
      }
      var ps := Pairs(run.result.value);
      var ds := Decoded(sp, path, kt, vt, es);
      forall j | 0 <= j < |es|
        ensures ps[j] == ds[j]
      {
        PlanOkPair(sp, path, kt, vt, es, j);
      }
      assert ps == ds;
      AssembleDistinct(ps);
    } else {
      var j := PlanErrEntry(sp, path, kt, vt, es);
    }
  }

  /** The calls a run of the entry plan makes are a prefix of the plan. */
  lemma PlanCall(sp: Subparse, path: Path, kt: Ty, vt: Ty, es: seq<Entry>, j: nat)
    requires j < |es|
    ensures var calls := RunPlan(sp, EntryPlan(path, kt, vt, es), 0).calls;
      && (2 * j < |calls| ==> calls[2 * j] == KeyCall(path, kt, es, j))
      && (2 * j + 1 < |calls| ==> calls[2 * j + 1] == ValCall(path, vt, es, j))
  {
    var plan := EntryPlan(path, kt, vt, es);
    var calls := RunPlan(sp, plan, 0).calls;
    PlanEntry(path, kt, vt, es, j);
    if 2 * j < |calls| {
      assert calls[2 * j] == plan[2 * j];
    }
    if 2 * j + 1 < |calls| {
      assert calls[2 * j + 1] == plan[2 * j + 1];
    }
  }

  /** For every entry, `subparse` is called for the key and then for the
      value, both at `path.child(name=str(key))`, entry by entry in iteration
      order, stopping after the first failure; refused data makes no call. */
  lemma SubparseCalls(path: Path, ft: Ty, data: Value, sp: Subparse)
    ensures !IsInstance(data, Mapping) || Items(data).None? ==> ParseRun(path, ft, data, sp).calls == []
    ensures IsInstance(data, Mapping) && Items(data).Some? ==>
      var run := ParseRun(path, ft, data, sp);
      var es := Items(data).value;
      && |run.calls| <= 2 * |es|
      && (run.result.Ok? ==> |run.calls| == 2 * |es|)
      && (forall j :: 0 <= j < |es| && 2 * j < |run.calls| ==>
            run.calls[2 * j] == Call(Child(path, Name(Text(es[j].key))), KeyValueTypes(ft).0, es[j].key))
      && (forall j :: 0 <= j < |es| && 2 * j + 1 < |run.calls| ==>
            run.calls[2 * j + 1] == Call(Child(path, Name(Text(es[j].key))), KeyValueTypes(ft).1, es[j].val))
      && StopsAtFirstFailure(sp, run, 2 * |es|)
  {
    if IsInstance(data, Mapping) && Items(data).Some? {
      var es := Items(data).value;
      var (kt, vt) := KeyValueTypes(ft);
      var calls := RunPlan(sp, EntryPlan(path, kt, vt, es), 0).calls;
      assert ParseRun(path, ft, data, sp).calls == calls;
      PlanStopsAtFirstFailure(sp, EntryPlan(path, kt, vt, es));
      StopsLikeItsPlan(sp, RunPlan(sp, EntryPlan(path, kt, vt, es), 0), ParseRun(path, ft, data, sp), 2 * |es|);
      forall j | 0 <= j < |es|
        ensures 2 * j < |calls| ==> calls[2 * j] == KeyCall(path, kt, es, j)
        ensures 2 * j + 1 < |calls| ==> calls[2 * j + 1] == ValCall(path, vt, es, j)
      {
        PlanCall(sp, path, kt, vt, es, j);
      }
    }
  }

  /** A string key names its child path by itself: `path.<key>`. */
  lemma StringKeyNamesPath(path: Path, c: ClassName, s: string, v: Value)
    ensures EntryPath(path, Entry(StrV(c, s), v)) == Child(path, Name(s))
  {
  }

  /** The calls before the failing one of entry k all succeed. */
  lemma PlanPrefixOk(sp: Subparse, path: Path, kt: Ty, vt: Ty, es: seq<Entry>, k: nat, i: nat)
    requires k < |es|
    requires forall j :: 0 <= j < k ==> EntryOk(sp, path, kt, vt, es, j)
    requires i < 2 * k || (i == 2 * k && KeyAt(sp, path, kt, es, k).Ok?)
    ensures i < |EntryPlan(path, kt, vt, es)| && Invoke(sp, EntryPlan(path, kt, vt, es)[i]).Ok?
  {
    var j := CallEntry(i);
    PlanEntry(path, kt, vt, es, j);
    if j < k {
      assert EntryOk(sp, path, kt, vt, es, j);
    }
  }

  /** If entry k is the first that fails, running the entry plan fails with
      its error. */
  lemma PlanFailsAt(sp: Subparse, path: Path, kt: Ty, vt: Ty, es: seq<Entry>, k: nat)
    requires k < |es|
    requires forall j :: 0 <= j < k ==> EntryOk(sp, path, kt, vt, es, j)
    requires !EntryOk(sp, path, kt, vt, es, k)
    ensures RunPlan(sp, EntryPlan(path, kt, vt, es), 0).result == Err(EntryError(sp, path, kt, vt, es, k))
    ensures |RunPlan(sp, EntryPlan(path, kt, vt, es), 0).calls|
      == if KeyAt(sp, path, kt, es, k).Err? then 2 * k + 1 else 2 * k + 2
  {
    var plan := EntryPlan(path, kt, vt, es);
    var m := if KeyAt(sp, path, kt, es, k).Err? then 2 * k else 2 * k + 1;
    PlanEntry(path, kt, vt, es, k);
    forall i | 0 <= i < m
      ensures Invoke(sp, plan[i]).Ok?
    {
      PlanPrefixOk(sp, path, kt, vt, es, k, i);
    }
    FirstFailurePropagates(sp, plan, m);
  }

  /** If entry k is the first that fails, the whole decode fails with its
      error: the key's error when the key fails, else the value's. The key's
      failure is the last call; a value's failure comes one call later. */
  lemma EntryFailurePropagates(path: Path, ft: Ty, data: Value, sp: Subparse, k: nat)
    requires IsInstance(data, Mapping) && Items(data).Some? && k < |Items(data).value|
    requires var es := Items(data).value; var (kt, vt) := KeyValueTypes(ft);
      && (forall j :: 0 <= j < k ==> EntryOk(sp, path, kt, vt, es, j))
      && !EntryOk(sp, path, kt, vt, es, k)
    ensures var es := Items(data).value; var (kt, vt) := KeyValueTypes(ft);
      Parse(path, ft, data, sp) == Err(EntryError(sp, path, kt, vt, es, k))
    ensures var es := Items(data).value; var (kt, vt) := KeyValueTypes(ft);
      |ParseRun(path, ft, data, sp).calls| == if KeyAt(sp, path, kt, es, k).Err? then 2 * k + 1 else 2 * k + 2
  {
    var (kt, vt) := KeyValueTypes(ft);
    PlanFailsAt(sp, path, kt, vt, Items(data).value, k);
  }

  /** Identity: when `subparse` returns every key and value unchanged, a
      mapping with distinct keys decodes to the requested class holding the same
      entries in the same order. */
  lemma {:induction false} IdentityRoundTrip(path: Path, ft: Ty, cls: ClassName, es: seq<Entry>, sp: Subparse)
    requires IsSubclass(cls, Mapping) && DistinctKeys(es)
    requires Constructs(ft) && Callable(ft).value != Bool
    requires var (kt, vt) := KeyValueTypes(ft);
      forall j :: 0 <= j < |es| ==> KeyAt(sp, path, kt, es, j) == Ok(es[j].key) && ValAt(sp, path, vt, es, j) == Ok(es[j].val)
    ensures Parse(path, ft, MapV(cls, es), sp) == Ok(MapV(Callable(ft).value, es))
  {
    var (kt, vt) := KeyValueTypes(ft);
    forall j | 0 <= j < |es|
      ensures EntryOk(sp, path, kt, vt, es, j)
    {
    }
    var ds := Decoded(sp, path, kt, vt, es);
    forall j | 0 <= j < |es|
      ensures ds[j] == es[j]
    {
    }
    assert ds == es;
    AssembleKeepsDistinctPairs(es);
  }

  /** When two entries decode to the same key, the decoded dict holds the
      value of the later one, as a dict comprehension does. */
  lemma LastDecodedValueWins(path: Path, ft: Ty, data: Value, sp: Subparse, k: Value)
    requires Parse(path, ft, data, sp).Ok? && Callable(ft).value != Bool
    ensures Lookup(Parse(path, ft, data, sp).value.entries, k)
      == LastValue(Decoded(sp, path, KeyValueTypes(ft).0, KeyValueTypes(ft).1, Items(data).value), k)
  {
    AssembleLastWins(Decoded(sp, path, KeyValueTypes(ft).0, KeyValueTypes(ft).1, Items(data).value), k);
  }

  /** Whatever is claimed at Exact is claimed at Fallback, and at Fallback
      every class deriving from `dict` is claimed (a `defaultdict` or a dict
      subclass only there). */
  lemma {:induction false} DictLikeClaims(path: Path, ft: Ty, c: ClassName)
    ensures CanParse(Exact, path, ft) ==> CanParse(Fallback, path, ft)
    ensures IsSubclass(c, Dict) ==> CanParse(Fallback, path, Class(c))
    ensures CanParse(Exact, path, Class(c)) <==> c == Dict || c == OrderedDict
  {
    InheritsAncestor(c, Dict, Mapping);
  }
}
