/**
 * The facts about the running machine that the hosting code asks
 * `RuntimeInformation` for: which operating system it is, and the process
 * architecture.
 */
module Platform {
  /** The platforms `IsOSPlatform` is asked about; every other one is `OtherOS`. */
  datatype OS = Windows | Linux | OSX | OtherOS

  /** The members of `System.Runtime.InteropServices.Architecture`. */
  datatype Architecture = X86 | X64 | Arm | Arm64 | Wasm | S390x | LoongArch64 | Armv6 | Ppc64le | RiscV64

  /** The enum member's name, which is what string interpolation prints. */
  function ArchitectureName(a: Architecture): (r: string)
    ensures r != "" && '_' !in r && '.' !in r
  {
    match a
    case X86 => "X86"
    case X64 => "X64"
    case Arm => "Arm"
    case Arm64 => "Arm64"
    case Wasm => "Wasm"
    case S390x => "S390x"
    case LoongArch64 => "LoongArch64"
    case Armv6 => "Armv6"
    case Ppc64le => "Ppc64le"
    case RiscV64 => "RiscV64"
  }
}
