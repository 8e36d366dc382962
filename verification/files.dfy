/**
 * The part of `java.io.File` the activities use: building a pathname from a
 * parent and a child name, and taking a pathname's parent and name apart.
 */
module Files {
  import opened Wrappers

  /** A name component: not empty and without the separator '/'. */
  predicate ValidName(name: string) {
    name != "" && '/' !in name
  }

  /** A pathname: absolute ("/a/b") or relative ("a/b"), with its name components. */
  datatype Path = Path(absolute: bool, names: seq<string>) {
    predicate Valid() {
      forall i :: 0 <= i < |names| ==> ValidName(names[i])
    }
  }

  /** `File.getParent()`: `None` is the null returned for "/" and for a single relative name. */
  function GetParent(p: Path): (r: Option<Path>)
    ensures r.Some? ==> r.value.absolute == p.absolute && |r.value.names| + 1 == |p.names|
    ensures r.Some? ==> r.value.absolute || |r.value.names| > 0
    ensures r.None? <==> |p.names| == 0 || (!p.absolute && |p.names| == 1)
  {
    if |p.names| == 0 || (!p.absolute && |p.names| == 1) then None
    else Some(Path(p.absolute, p.names[..|p.names| - 1]))
  }

  /** `File.getName()`: the last name component, or "" for "/". */
  function GetName(p: Path): string {
    if |p.names| == 0 then "" else p.names[|p.names| - 1]
  }

  /** `new File(parent, child)`; a null parent gives the relative pathname `child`. */
  function Child(parent: Option<Path>, child: string): Path
    requires ValidName(child)
  {
    match parent
    case None => Path(false, [child])
    case Some(p) => Path(p.absolute, p.names + [child])
  }

  /** Child is undone by GetParent and GetName, for every parent that getParent can return. */
  lemma ChildParts(parent: Option<Path>, child: string)
    requires ValidName(child)
    requires parent.Some? ==> parent.value.absolute || |parent.value.names| > 0
    ensures GetName(Child(parent, child)) == child
    ensures GetParent(Child(parent, child)) == parent
  {
  }

  /** Conversely, every pathname with a name is the child of its parent. */
  lemma ParentAndName(p: Path)
    requires p.Valid() && |p.names| > 0
    ensures ValidName(GetName(p)) && Child(GetParent(p), GetName(p)) == p
  {
  }
}
