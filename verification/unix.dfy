/** The standard Volta layout on Unix-based operating systems: where the Volta home,
    the Node image `bin` directory, the npm manifest inside a Node archive, the shims
    and the marker file live, and which shim executable dispatches a command. */
module Unix {
  import opened Fallible
  import opened Paths
  import opened Layout

  /** `default_volta_home`: `.volta` inside the user's home directory. */
  function DefaultVoltaHome(host: Host): (r: Result<Path, ErrorDetails>)
    ensures host.homeDir.None? <==> r == Err(NoHomeEnvironmentVar)
    ensures host.homeDir.Some? ==> r.Ok?
    ensures r.Ok? ==> r.value.Parent() == host.homeDir && r.value.FileName() == Some(".volta")
  {
    match host.homeDir
    case None => Err(NoHomeEnvironmentVar)
    case Some(home) => Ok(home.Join(".volta"))
  }

  /** `archive_extension`: the extension of Node distribution archives. */
  function ArchiveExtension(): (ext: string)
    ensures ext == "tar.gz"
  {
    "tar.gz"
  }

  /** `node_image_bin_dir(node, npm)`: the `bin` directory of a Node image. */
  function NodeImageBinDir(host: Host, node: string, npm: string): (r: Result<Path, ErrorDetails>)
    ensures r.Ok? <==> NodeImageDir(host, node, npm).Ok?
    ensures r.Ok? ==> r.value.Parent() == Some(NodeImageDir(host, node, npm).value)
    ensures r.Ok? ==> r.value.FileName() == Some("bin")
    ensures r.Err? ==> r.error == NodeImageDir(host, node, npm).error
  {
    var image :- NodeImageDir(host, node, npm);
    Ok(image.Join("bin"))
  }

  /** `node_archive_npm_package_json_path(version)`: the npm manifest inside an unpacked
      Node archive, relative to the directory the archive is unpacked into. */
  function NodeArchiveNpmPackageJsonPath(host: Host, version: string): (r: Path)
    ensures !r.absolute
    ensures r.parts == [host.archiveRootDirName(version), "lib", "node_modules", "npm", "package.json"]
  {
    Path(false, [host.archiveRootDirName(version)])
      .Join("lib")
      .Join("node_modules")
      .Join("npm")
      .Join("package.json")
  }

  /** `shim_file(toolname)`: the shim for one command, directly in the shim directory. */
  function ShimFile(host: Host, toolname: string): (r: Result<Path, ErrorDetails>)
    ensures r.Ok? <==> ShimDir(host).Ok?
    ensures r.Ok? ==> r.value.Parent() == Some(ShimDir(host).value)
    ensures r.Ok? ==> r.value.FileName() == Some(toolname)
    ensures r.Err? ==> r.error == ShimDir(host).error
  {
    var dir :- ShimDir(host);
    Ok(dir.Join(toolname))
  }

  /** `volta_file`: the `volta` marker file directly under the Volta home. */
  function VoltaFile(host: Host): (r: Result<Path, ErrorDetails>)
    ensures r.Ok? <==> host.voltaHome.Ok?
    ensures r.Ok? ==> r.value.Parent() == Some(host.voltaHome.value)
    ensures r.Ok? ==> r.value.FileName() == Some("volta")
    ensures r.Err? ==> r.error == host.voltaHome.error
  {
    var home :- host.voltaHome;
    Ok(home.Join("volta"))
  }

  /** Where a system package installed as root puts the shim for non-root users. */
  const RpmShimExecutable: Path := Path(true, ["usr", "bin", "volta-lib", "shim"])

  /** `shim_executable`: the shared shim binary, chosen in a fixed order of priority:
      the `VOLTA_SHIM` override, unchecked; then `shim` under the Volta home, if it
      exists; then the system-package location, if it exists. */
  function ShimExecutable(host: Host): (r: Result<Path, ErrorDetails>)
    // The override wins outright: no existence check, and the Volta home is not consulted.
    ensures host.shimOverride.Some? ==> r == Ok(host.shimOverride.value)
    // Without an override, a Volta home failure is reported before any fallback is tried.
    ensures host.shimOverride.None? && host.voltaHome.Err? ==> r == Err(host.voltaHome.error)
    // The default location wins over the fallback whenever it exists.
    ensures host.shimOverride.None? && host.voltaHome.Ok? && host.voltaHome.value.Join("shim") in host.existing
            ==> r == Ok(host.voltaHome.value.Join("shim"))
    ensures host.shimOverride.None? && host.voltaHome.Ok? && host.voltaHome.value.Join("shim") !in host.existing
            ==> r == (if RpmShimExecutable in host.existing then Ok(RpmShimExecutable) else Err(ShimExecutableNotFound))
    // Any success is one of the three candidates, and only the override goes unchecked.
    ensures r.Ok? ==> || host.shimOverride == Some(r.value)
                      || (host.voltaHome.Ok? && r.value == host.voltaHome.value.Join("shim"))
                      || r.value == RpmShimExecutable
    ensures r.Ok? && host.shimOverride.None? ==> r.value in host.existing
  {
    if host.shimOverride.Some? then Ok(host.shimOverride.value)
    else
      var home :- host.voltaHome;
      var defaultShimExecutable := home.Join("shim");
      if defaultShimExecutable in host.existing then Ok(defaultShimExecutable)
      else if RpmShimExecutable in host.existing then Ok(RpmShimExecutable)
      else Err(ShimExecutableNotFound)
  }

  /** `env_paths`: the directories to put first on the executable search path. */
  function EnvPaths(host: Host): (r: Result<seq<Path>, ErrorDetails>)
    ensures r.Ok? <==> ShimDir(host).Ok?
    ensures r.Ok? ==> |r.value| == 1 && r.value[0] == ShimDir(host).value
    ensures r.Err? ==> r.error == ShimDir(host).error
  {
    var dir :- ShimDir(host);
    Ok([dir])
  }

  /** Distinct command names that are normal path components get distinct shim files. */
  lemma ShimFileInjective(host: Host, a: string, b: string)
    requires IsNormalComponent(a) && IsNormalComponent(b)
    requires ShimFile(host, a).Ok? && ShimFile(host, a) == ShimFile(host, b)
    ensures a == b
  {
  }

  /** Distinct (Node, npm) version pairs whose versions are normal path components get
      distinct image `bin` directories. */
  lemma NodeImageBinDirInjective(host: Host, node: string, npm: string, node': string, npm': string)
    requires IsNormalComponent(node) && IsNormalComponent(npm)
    requires IsNormalComponent(node') && IsNormalComponent(npm')
    requires NodeImageBinDir(host, node, npm).Ok?
    requires NodeImageBinDir(host, node, npm) == NodeImageBinDir(host, node', npm')
    ensures node == node' && npm == npm'
  {
    var home := host.voltaHome.value;
    var dir, dir' := NodeImageDir(host, node, npm).value, NodeImageDir(host, node', npm').value;
    assert dir == dir' by {
      assert Some(dir) == NodeImageBinDir(host, node, npm).value.Parent();
    }
    assert dir.parts[|home.parts| + 3] == node && dir'.parts[|home.parts| + 3] == node';
    assert dir.parts[|home.parts| + 4] == npm && dir'.parts[|home.parts| + 4] == npm';
  }

  /** The shim of a command, the marker file, the default shim executable and a Node image
      `bin` directory are four different places under the Volta home, for names and
      versions that are normal path components. */
  lemma LayoutCollisionFree(host: Host, toolname: string, node: string, npm: string)
    requires IsNormalComponent(toolname) && IsNormalComponent(node) && IsNormalComponent(npm)
    requires host.voltaHome.Ok?
    ensures var home := host.voltaHome.value;
      && ShimFile(host, toolname).value != VoltaFile(host).value
      && ShimFile(host, toolname).value != home.Join("shim")
      && ShimFile(host, toolname).value != NodeImageBinDir(host, node, npm).value
      && VoltaFile(host).value != home.Join("shim")
      && VoltaFile(host).value != NodeImageBinDir(host, node, npm).value
      && home.Join("shim") != NodeImageBinDir(host, node, npm).value
  {
  }

  /** `shim_executable` looks at the file system only through the existence of its two
      candidate paths: hosts that agree on the override, on the Volta home and on those
      two existence checks resolve to the same shim executable. */
  lemma ShimExecutableChecksOnlyCandidates(host: Host, host': Host)
    requires host.shimOverride == host'.shimOverride && host.voltaHome == host'.voltaHome
    requires host.voltaHome.Ok? ==>
               (host.voltaHome.value.Join("shim") in host.existing
                <==> host.voltaHome.value.Join("shim") in host'.existing)
    requires RpmShimExecutable in host.existing <==> RpmShimExecutable in host'.existing
    ensures ShimExecutable(host) == ShimExecutable(host')
  {
  }

  /** The layout of a user whose Volta home is the default one, `/home/u/.volta`: the image
      of Node 10.13.0 with npm 6.4.0 and its `bin` directory. */
  lemma DefaultHomeNodeImage(host: Host)
    requires host.homeDir == Some(Path(true, ["home", "u"]))
    requires host.voltaHome == DefaultVoltaHome(host)
    ensures NodeImageDir(host, "10.13.0", "6.4.0")
            == Ok(Path(true, ["home", "u", ".volta", "tools", "image", "node", "10.13.0", "6.4.0"]))
    ensures NodeImageBinDir(host, "10.13.0", "6.4.0")
            == Ok(Path(true, ["home", "u", ".volta", "tools", "image", "node", "10.13.0", "6.4.0", "bin"]))
  {
    assert host.voltaHome.value.parts == ["home", "u", ".volta"];
    assert NodeImageDir(host, "10.13.0", "6.4.0").value.parts
           == ["home", "u", ".volta"] + ["tools", "image", "node", "10.13.0", "6.4.0"]
           == ["home", "u", ".volta", "tools", "image", "node", "10.13.0", "6.4.0"];
    assert host.voltaHome.value.absolute;
    assert NodeImageBinDir(host, "10.13.0", "6.4.0").value.parts
           == ["home", "u", ".volta", "tools", "image", "node", "10.13.0", "6.4.0"] + ["bin"]
           == ["home", "u", ".volta", "tools", "image", "node", "10.13.0", "6.4.0", "bin"];
  }
}
