/** The compile-time target identifiers used in Node distribution archive names. */
module Platform {

  /** The Unix operating systems the layout is built for. */
  datatype TargetOs = MacOs | Linux

  /** The processor architectures the layout is built for. */
  datatype TargetArch = X86 | X86_64

  /** The `OS` constant: the operating-system part of a Node tarball's name. */
  function Os(target: TargetOs): (name: string)
    ensures name == "darwin" || name == "linux"
    ensures name == "darwin" <==> target == MacOs
    ensures name == "linux" <==> target == Linux
  {
    match target
    case MacOs => "darwin"
    case Linux => "linux"
  }

  /** The `ARCH` constant: the architecture part of a Node tarball's name. */
  function Arch(target: TargetArch): (name: string)
    ensures name == "x86" || name == "x64"
    ensures name == "x86" <==> target == X86
    ensures name == "x64" <==> target == X86_64
  {
    match target
    case X86 => "x86"
    case X86_64 => "x64"
  }
}
