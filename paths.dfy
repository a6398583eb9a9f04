/** Filesystem paths as the sequence of their components, the view that
    `std::path::Path::components` gives, and the platforms the connector is
    built for. */
module Paths {

  /** One component of a path. */
  datatype Component = Prefix(raw: string) | RootDir | CurDir | ParentDir | Normal(name: string)

  type Path = seq<Component>

  /** The relative path made of the given plain names, in order. */
  function Normals(names: seq<string>): Path {
    seq(|names|, i requires 0 <= i < |names| => Normal(names[i]))
  }

  /** The absolute Unix path `/n1/n2/...`: the root, then one plain
      component per name. */
  function AbsPath(names: seq<string>): (p: Path)
    ensures |p| == |names| + 1 && p[0] == RootDir
    ensures forall i :: 0 <= i < |names| ==> p[i + 1] == Normal(names[i])
  {
    [RootDir] + Normals(names)
  }

  /** The operating systems the connector is compiled for. */
  datatype Platform = Linux | MacOS | Windows {
    /** True when the platform matches `target_family = "unix"`. */
    predicate IsUnixFamily() {
      !Windows?
    }
  }
}
