/** The part of a storage path that the relocation engine looks at: a
    normalised sequence of segments. Equality is equality of the segments,
    `Parent` is `getParent`, `Name` is `getName` and `Child(n)` is
    `new Path(this, new Path(n))`. */
module Paths {
  import opened Outcomes

  datatype Path = Path(segments: seq<string>) {

    /** `getParent`: the path without its last segment; the root (no
        segments) has no parent, where the library returns null. */
    function Parent(): (r: Option<Path>)
      ensures r.None? <==> segments == []
      ensures r.Some? ==> r.value.segments + [segments[|segments| - 1]] == segments
    {
      if segments == [] then None else Some(Path(segments[..|segments| - 1]))
    }

    /** `getName`: the last segment; the root's name is empty. */
    function Name(): (r: string)
      ensures segments == [] ==> r == ""
      ensures segments != [] ==> Parent().value.segments + [r] == segments
    {
      if segments == [] then "" else segments[|segments| - 1]
    }

    /** `new Path(this, new Path(name))`: this path with one more segment. */
    function Child(name: string): (r: Path)
      ensures |r.segments| == |segments| + 1 && r.segments[..|segments|] == segments
    {
      Path(segments + [name])
    }
  }

  /** `a` is `b` or one of its ancestors. */
  predicate IsPrefixOf(a: Path, b: Path) {
    a.segments <= b.segments
  }

  /** `p` lies directly under `root`: its parent is `root`. */
  predicate IsChildOf(p: Path, root: Path) {
    |p.segments| == |root.segments| + 1 && IsPrefixOf(root, p)
  }

  /** Every path but the root is its parent's child with its own name. */
  lemma ParentChildName(p: Path)
    requires p.segments != []
    ensures p.Parent().Some? && p.Parent().value.Child(p.Name()) == p
  {
  }
}
