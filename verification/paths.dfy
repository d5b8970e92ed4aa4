/** File-system paths as sequences of components, as far as the layout needs them. */
module Paths {
  import opened Fallible

  /** A path: whether it starts at the root directory, then its components in order.
      `/usr/bin` is `Path(true, ["usr", "bin"])`; `lib/npm` is `Path(false, ["lib", "npm"])`. */
  datatype Path = Path(absolute: bool, parts: seq<string>) {

    /** `PathBuf::join` with a single relative component: the component becomes the
        last one and the path it was joined to becomes the parent. */
    function Join(component: string): (r: Path)
      ensures r.Parent() == Some(this)
      ensures r.FileName() == Some(component)
    {
      Path(absolute, parts + [component])
    }

    /** `Path::parent`: the path without its last component, if it has one. */
    function Parent(): Option<Path> {
      if |parts| == 0 then None else Some(Path(absolute, parts[..|parts| - 1]))
    }

    /** `Path::file_name`: the last component, if there is one. */
    function FileName(): Option<string> {
      if |parts| == 0 then None else Some(parts[|parts| - 1])
    }

    /** The path joined with each of `components`, left to right. */
    function JoinAll(components: seq<string>): (r: Path)
      ensures r.absolute == absolute
      ensures r.parts == parts + components
      decreases |components|
    {
      if |components| == 0 then this
      else Join(components[0]).JoinAll(components[1..])
    }
  }

  /** A component Rust keeps as written when it joins and compares paths: not empty,
      not `.` or `..`, and without a separator. */
  predicate IsNormalComponent(c: string) {
    c != "" && c != "." && c != ".." && '/' !in c
  }
}
