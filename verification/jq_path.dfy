/** The location of a value inside the data being decoded: a non-empty sequence
    of hops, each a field name or a list index. The first part is the root and
    carries an empty name. Its text form is not part of this model. */
module JqPath {
  import opened Options

  /** One hop: exactly one of a name or an index, which the datatype enforces. */
  datatype PathPart = Name(name: string) | Index(index: nat)

  /** A path always has at least one part. */
  type Path = p: seq<PathPart> | |p| > 0 witness [Name("")]

  /** The path `.` */
  function Root(): Path
  {
    [Name("")]
  }

  /** `path.child(name=...)` / `path.child(index=...)`: one more hop at the end. */
  function Child(p: Path, part: PathPart): (r: Path)
    ensures |r| == |p| + 1 && r[..|p|] == p && r[|p|] == part
  {
    p + [part]
  }

  /** `path.parent()`: the path without its last hop; None at the root. */
  function Parent(p: Path): (r: Option<Path>)
    ensures r.None? <==> |p| == 1
    ensures r.Some? ==> |r.value| == |p| - 1 && r.value == p[..|p| - 1]
  {
    if |p| == 1 then None else Some(p[..|p| - 1])
  }

  /** The parent of a child is the path it was made from. */
  lemma ParentOfChild(p: Path, part: PathPart)
    ensures Parent(Child(p, part)) == Some(p)
  {
  }

  /** Distinct hops from the same path give distinct children, and a child is
      never equal to its parent. */
  lemma ChildInjective(p: Path, a: PathPart, b: PathPart)
    ensures Child(p, a) == Child(p, b) <==> a == b
    ensures Child(p, a) != p
  {
    if Child(p, a) == Child(p, b) {
      assert Child(p, a)[|p|] == Child(p, b)[|p|];
    }
    assert |Child(p, a)| != |p|;
  }
}
