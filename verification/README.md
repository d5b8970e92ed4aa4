# Volta's Unix layout, shim resolver and `volta_fail` derive, in Dafny

This project models two small decision components of Volta, a JavaScript toolchain
manager that installs several versions of Node and its package managers and dispatches
each command to the right one through shims.

* **The Unix on-disk layout** (`crates/volta-core/src/path/unix.rs`): where the Volta home
  is by default, where a Node image keeps its `bin` directory, where the npm manifest sits
  inside an unpacked Node archive, where each command's shim and the `volta` marker file
  live, which directories go first on the executable search path, and which shared shim
  executable dispatches a command. That last one is chosen in a fixed order: the
  `VOLTA_SHIM` override, unchecked; then `<volta home>/shim` if it exists; then
  `/usr/bin/volta-lib/shim` if it exists; otherwise `ShimExecutableNotFound`.
* **The `#[derive(VoltaFail)]` macro** (`crates/volta-fail-derive/src/lib.rs`): a validator
  over the attributes of a type. Only attributes written `#[volta_fail(...)]` are read; each
  must be a list whose items are all `code = "<string>"`; at least one must be present; the
  last one names the `ExitCode` variant the generated `exit_code` returns.

Modules:

* `Fallible` (`fallible.dfy`): `Option` and `Result`, usable with `:-`.
* `Paths` (`paths.dfy`): a path is whether it is absolute plus its components; `Join`
  appends one component, `Parent` and `FileName` take it apart again.
* `Platform` (`platform.dfy`): the closed choice of target OS and architecture and the
  `OS`/`ARCH` strings they give.
* `Layout` (`layout.dfy`): `ErrorDetails`, the `Host` (everything read from the
  environment, passed explicitly), and the parent-module helpers `shim_dir` and
  `node_image_dir`, given the shape the layout comment in `unix.rs` documents.
  `volta_home` and `node_archive_root_dir_name` of the parent module are not part of this
  model and stay abstract as fields of `Host`.
* `Unix` (`unix.dfy`): the functions of `unix.rs` and lemmas about the layout.
* `VoltaFailDerive` (`volta_fail_derive.dfy`): the parsed attribute datatypes, the
  per-attribute filter and per-item check, a reference definition `Derive` of the macro's
  verdict over the stream of items it visits, the macro's nested loops as the methods
  `VoltaFail` and `ScanItems` proved equal to it, and lemmas about the verdict.

The host inputs are parameters: `dirs::home_dir()` is `Host.homeDir`, the parent module's
`volta_home()` is `Host.voltaHome`, `env::var_os("VOLTA_SHIM")` is `Host.shimOverride`,
and `Path::exists` is membership in `Host.existing`. A panic of the macro is an `Err`
carrying a `DeriveError` that names its message.

The home-directory failure is `NoHomeEnvironmentVar` (`unix.rs:89`). Without an override, a
`volta_home()` failure is returned at `unix.rs:128`, before the `/usr/bin/volta-lib/shim`
fallback is checked, so the fallback cannot rescue it.

## Model

| member | source | states |
|---|---|---|
| Platform.Os | crates/volta-core/src/path/unix.rs:20-30 | `OS` is always `darwin` or `linux`: `darwin` exactly for a macOS build and `linux` exactly for a Linux build |
| Platform.Arch | crates/volta-core/src/path/unix.rs:32-42 | `ARCH` is always `x86` or `x64`: `x86` exactly for a 32-bit x86 build and `x64` exactly for x86_64 |
| Layout.ShimDir | crates/volta-core/src/path/unix.rs:50-56 | the shim directory is the child `bin` of the Volta home; it fails exactly when the Volta home fails, with the same error |
| Layout.NodeImageDir | crates/volta-core/src/path/unix.rs:68-72 | the image of Node `node` with npm `npm` is `tools/image/node/<node>/<npm>` under the Volta home; it fails exactly when the Volta home fails |
| Unix.DefaultVoltaHome | crates/volta-core/src/path/unix.rs:88-91 | fails with `NoHomeEnvironmentVar` exactly when there is no home directory; otherwise its parent is the home directory and its file name is `.volta` |
| Unix.ArchiveExtension | crates/volta-core/src/path/unix.rs:93-95 | the archive extension is always `tar.gz` |
| Unix.NodeImageBinDir | crates/volta-core/src/path/unix.rs:97-99 | succeeds exactly when the image directory does; then its parent is that image directory and its file name is `bin`; otherwise it carries the image directory's error |
| Unix.NodeArchiveNpmPackageJsonPath | crates/volta-core/src/path/unix.rs:101-107 | never fails; a relative path made of the archive root directory name followed by `lib`, `node_modules`, `npm`, `package.json`, in that order |
| Unix.ShimFile | crates/volta-core/src/path/unix.rs:109-111 | succeeds exactly when the shim directory does; then its parent is the shim directory and its file name is the tool name; otherwise it carries the shim directory's error |
| Unix.ShimFileInjective | crates/volta-core/src/path/unix.rs:109-111 | two tool names that are normal path components and give the same shim file are the same name |
| Unix.VoltaFile | crates/volta-core/src/path/unix.rs:113-116 | succeeds exactly when the Volta home does; then its parent is the Volta home and its file name is `volta`; otherwise it carries the home's error |
| Unix.ShimExecutable | crates/volta-core/src/path/unix.rs:118-141 | a present override is returned verbatim whatever the home and the file system say; otherwise a home failure is propagated; otherwise `<home>/shim` if it exists, else `/usr/bin/volta-lib/shim` if it exists, else `ShimExecutableNotFound`; any success is one of those three paths, and an existing one unless it is the override |
| Unix.ShimExecutableChecksOnlyCandidates | crates/volta-core/src/path/unix.rs:126-138 | the result depends on the file system only through the existence of `<home>/shim` and `/usr/bin/volta-lib/shim` |
| Unix.EnvPaths | crates/volta-core/src/path/unix.rs:143-145 | a one-element list holding exactly the shim directory, or the shim directory's error |
| Unix.NodeImageBinDirInjective | crates/volta-core/src/path/unix.rs:68-72 | distinct (Node, npm) version pairs whose versions are normal path components have distinct image `bin` directories |
| Unix.LayoutCollisionFree | crates/volta-core/src/path/unix.rs:44-86 | for a tool name and versions that are normal path components, the shim file, the `volta` marker file, the default shim executable and the Node image `bin` directory are pairwise different paths |
| Unix.DefaultHomeNodeImage | crates/volta-core/src/path/unix.rs:68-72 | with home `/home/u` and the default Volta home, Node 10.13.0 with npm 6.4.0 is imaged at `/home/u/.volta/tools/image/node/10.13.0/6.4.0`, whose `bin` directory is that path plus `bin` |
| VoltaFailDerive.MetaItems | crates/volta-fail-derive/src/lib.rs:68-79 | an attribute whose path is not the single segment `volta_fail` yields nothing and no error; a `volta_fail` attribute yields its list items, and is rejected with `NotListOfAttributes` exactly when it is not in list form |
| VoltaFailDerive.CheckItem | crates/volta-fail-derive/src/lib.rs:22-50 | an item is accepted exactly when it is `code = "<string>"`, yielding that string; a literal, a nested list, a bare word, a non-string `code` and any other name are each rejected with their own error |
| VoltaFailDerive.ScanItems | crates/volta-fail-derive/src/lib.rs:22-50 | the inner loop: after a clean prefix, either the first rejected item's error is the stream's first error, or the code state again records exactly the last code set |
| VoltaFailDerive.VoltaFail | crates/volta-fail-derive/src/lib.rs:14-66 | the macro's loops, starting from `UnknownError` unset, return exactly the reference verdict `Derive` |
| VoltaFailDerive.FirstErrorNone | crates/volta-fail-derive/src/lib.rs:21-51 | no rejection is reported exactly when every visited step is accepted |
| VoltaFailDerive.FirstErrorIsFirst | crates/volta-fail-derive/src/lib.rs:21-51 | the rejection reported is that of the first rejected step |
| VoltaFailDerive.LastCodeIsLast | crates/volta-fail-derive/src/lib.rs:32-35 | no code is reported exactly when no step sets one; otherwise the code reported is set by a step that no later accepted step follows |
| VoltaFailDerive.DeriveAccepts | crates/volta-fail-derive/src/lib.rs:18-55 | the derive succeeds exactly when there is at least one item and every visited item is `code = "<string>"`, so the initial `UnknownError` placeholder is never emitted without a `code` item setting it |
| VoltaFailDerive.DeriveEmitsLastCode | crates/volta-fail-derive/src/lib.rs:32-63 | on success the impl is for the derived type and its `exit_code` returns the variant named by the last `code` item |
| VoltaFailDerive.DeriveRejectsFirstError | crates/volta-fail-derive/src/lib.rs:21-51 | when the first rejected step is at position `k`, the derive fails with that step's rejection |
| VoltaFailDerive.DeriveRejectsAnyError | crates/volta-fail-derive/src/lib.rs:21-51 | a rejected item or malformed attribute anywhere, even after a valid `code`, makes the derive fail, and never with the missing-code error |
| VoltaFailDerive.IgnoredAttribute | crates/volta-fail-derive/src/lib.rs:68-79 | inserting an attribute that is not `volta_fail` anywhere does not change the verdict |
| VoltaFailDerive.MalformedAttributeRejects | crates/volta-fail-derive/src/lib.rs:69-76 | a `volta_fail` attribute not in list form makes the derive fail, with `NotListOfAttributes` when nothing before it was rejected |
| VoltaFailDerive.LaterAttributesOverride | crates/volta-fail-derive/src/lib.rs:21-51 | when an earlier run of attributes has no rejection (whether or not it sets a code) and a later run derives, together they derive what the later run does |
| VoltaFailDerive.SoleItem | crates/volta-fail-derive/src/lib.rs:22-49 | a single `#[volta_fail(item)]` derives the item's code or fails with that item's own rejection |

## Left out

- `create_file_symlink` (`unix.rs:147-150`): a one-line call into the operating system's `symlink`, a file-system mutation whose errors the operating system defines.
- Reading the environment and the file system: the home-directory lookup, `VOLTA_SHIM` and `Path::exists` are fields of `Host`, not modelled host behaviour.
- The `cfg_if!`/`compile_error!` build-time platform selection: only the resulting closed set of `OS`/`ARCH` values is modelled, since an unsupported target never builds.
- The parent `path` module is not part of this model: `volta_home` and `node_archive_root_dir_name` are abstract fields of `Host`; `shim_dir` and `node_image_dir` follow the layout comment at `unix.rs:44-86`; the cache, inventory, user and distro file-name builders of that comment are not modelled.
- Unix.NodeArchiveNpmPackageJsonPath: takes the archive root directory name as one component; `Path::new` would split a name that contains `/`.
- `PathBuf::join` with a component that is not a normal one: an empty string, `.`, `..`, an absolute path, or a string containing `/`. Rust replaces the path, extends it by several components, or normalises such components away when comparing paths and taking `file_name`/`parent`. `Join` appends every string as one component. The joined strings that callers supply are the tool name of `shim_file` and the `node`/`npm` version strings of `node_image_bin_dir`. The layout's fixed names are all normal components.
- Unix.ShimFile: "the file name is the tool name" holds in Rust only for a normal component (`Paths.IsNormalComponent`); for `""` or `.` Rust's file name is `bin`.
- Unix.NodeImageBinDir: its parent and file name are as stated in Rust only when `node` and `npm` are normal components.
- Unix.ShimFileInjective: stated only for tool names that are normal components, because in Rust `shim_file("")` equals `shim_file(".")`.
- Unix.NodeImageBinDirInjective: stated only for versions that are normal components, because in Rust `node_image_bin_dir("", "x")` and `node_image_bin_dir("x", "")` are the same path.
- Unix.LayoutCollisionFree: stated only for a tool name and versions that are normal components, since Rust normalises `""`, `.` and `..` away.
- Unix.ShimExecutable: takes the `VOLTA_SHIM` value as an already-formed path; the conversion of the raw operating-system string is not modelled.
- The `syn::parse(...).unwrap()` of the derive input and the `quote!` token generation: attributes arrive parsed, and the output is the generated impl's type name and exit-code variant.
- VoltaFailDerive.CheckItem: accepts any string as a code name; `Ident::new` would also panic on a string that is not a valid Rust identifier, and whether the variant exists in `ExitCode` is checked by the compiler on the generated code.
- `crates/notion-core/src/style.rs`: terminal styling and progress-bar output, not part of the layout or the derive.
