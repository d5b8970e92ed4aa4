/** The host environment the layout reads, and the helpers of the parent `path` module
    that the Unix layout builds on. The parent module is not part of this model: its
    helpers are given the shape the directory-tree comment of `path/unix.rs` documents,
    and `volta_home` and `node_archive_root_dir_name` stay abstract. */
module Layout {
  import opened Fallible
  import opened Paths

  /** The `ErrorDetails` variants the Unix layout raises; every other variant, raised by
      code outside this model, is `Other`. */
  datatype ErrorDetails =
    | NoHomeEnvironmentVar
    | ShimExecutableNotFound
    | Other(description: string)

  /** Everything the layout asks of the host, passed in explicitly. */
  datatype Host = Host(
    /** `dirs::home_dir()`. */
    homeDir: Option<Path>,
    /** `volta_home()` of the parent module, which may fail. */
    voltaHome: Result<Path, ErrorDetails>,
    /** `env::var_os("VOLTA_SHIM")`, taken as a path verbatim. */
    shimOverride: Option<Path>,
    /** The paths for which `Path::exists` holds. */
    existing: set<Path>,
    /** `node_archive_root_dir_name` of the parent module. */
    archiveRootDirName: string -> string)

  /** `shim_dir`: the `bin` directory directly under the Volta home. */
  function ShimDir(host: Host): (r: Result<Path, ErrorDetails>)
    ensures r.Ok? <==> host.voltaHome.Ok?
    ensures r.Ok? ==> r.value.Parent() == Some(host.voltaHome.value) && r.value.FileName() == Some("bin")
    ensures r.Err? ==> r.error == host.voltaHome.error
  {
    var home :- host.voltaHome;
    Ok(home.Join("bin"))
  }

  /** `node_image_dir(node, npm)`: `tools/image/node/<node>/<npm>` under the Volta home. */
  function NodeImageDir(host: Host, node: string, npm: string): (r: Result<Path, ErrorDetails>)
    ensures r.Ok? <==> host.voltaHome.Ok?
    ensures r.Ok? ==> r.value.absolute == host.voltaHome.value.absolute
    ensures r.Ok? ==> r.value.parts == host.voltaHome.value.parts + ["tools", "image", "node", node, npm]
    ensures r.Err? ==> r.error == host.voltaHome.error
  {
    var home :- host.voltaHome;
    Ok(home.JoinAll(["tools", "image", "node", node, npm]))
  }
}
