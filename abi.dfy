/**
 * `ohos_abi`: the OpenHarmony ABI directory name for a target triple. Only
 * the architecture of the triple is consulted; the four OpenHarmony ABIs have
 * fixed names and every other architecture is named by its own textual form.
 */
module OhosAbi {

  datatype Aarch64Variant = Aarch64 | Aarch64be
  datatype ArmVariant = Arm | Armeb | Armv7 | Armv7a | Armv7s | Thumbv7neon
  datatype X86Variant = I386 | I586 | I686
  datatype Riscv64Variant = Riscv64 | Riscv64gc | Riscv64imac

  /** The architectures of a target triple (a closed subset of the lexicon's list). */
  datatype Architecture =
    | Unknown
    | Aarch64Arch(aarch64: Aarch64Variant)
    | ArmArch(arm: ArmVariant)
    | X86_64
    | X86_64h
    | X86_32(x86: X86Variant)
    | Riscv64Arch(riscv: Riscv64Variant)
    | LoongArch64
    | Powerpc64
    | Powerpc64le
    | S390x
    | Wasm32

  datatype Triple = Triple(architecture: Architecture, vendor: string, os: string, environment: string)

  /** The textual name of an architecture, as it appears in a target triple. */
  function ArchName(a: Architecture): string {
    match a
    case Unknown => "unknown"
    case Aarch64Arch(v) => (match v case Aarch64 => "aarch64" case Aarch64be => "aarch64_be")
    case ArmArch(v) =>
      (match v
       case Arm => "arm"
       case Armeb => "armeb"
       case Armv7 => "armv7"
       case Armv7a => "armv7a"
       case Armv7s => "armv7s"
       case Thumbv7neon => "thumbv7neon")
    case X86_64 => "x86_64"
    case X86_64h => "x86_64h"
    case X86_32(v) => (match v case I386 => "i386" case I586 => "i586" case I686 => "i686")
    case Riscv64Arch(v) =>
      (match v case Riscv64 => "riscv64" case Riscv64gc => "riscv64gc" case Riscv64imac => "riscv64imac")
    case LoongArch64 => "loongarch64"
    case Powerpc64 => "powerpc64"
    case Powerpc64le => "powerpc64le"
    case S390x => "s390x"
    case Wasm32 => "wasm32"
  }

  /** True for the four architecture families OpenHarmony has an ABI name for. */
  predicate HasOhosAbi(a: Architecture) {
    a.Aarch64Arch? || a.ArmArch? || a.X86_64? || a.X86_32?
  }

  const OhosAbiNames: set<string> := {"arm64-v8a", "armeabi-v7a", "x86_64", "x86"}

  /** `ohos_abi(triple)`. */
  function AbiDirName(t: Triple): (abi: string)
    ensures HasOhosAbi(t.architecture) <==> abi in OhosAbiNames
    ensures !HasOhosAbi(t.architecture) ==> abi == ArchName(t.architecture)
  {
    match t.architecture
    case Aarch64Arch(_) => "arm64-v8a"
    case ArmArch(_) => "armeabi-v7a"
    case X86_64 => "x86_64"
    case X86_32(_) => "x86"
    case _ => ArchName(t.architecture)
  }

  /** Each supported family has its own ABI name, whatever the sub-variant. */
  lemma AbiOfSupportedFamilies(t: Triple)
    ensures t.architecture.Aarch64Arch? <==> AbiDirName(t) == "arm64-v8a"
    ensures t.architecture.ArmArch? <==> AbiDirName(t) == "armeabi-v7a"
    ensures t.architecture.X86_64? <==> AbiDirName(t) == "x86_64"
    ensures t.architecture.X86_32? <==> AbiDirName(t) == "x86"
  {
  }

  /** The ABI name depends on the architecture only, never on vendor, OS or environment. */
  lemma AbiIgnoresVendorOsEnvironment(t: Triple, u: Triple)
    requires t.architecture == u.architecture
    ensures AbiDirName(t) == AbiDirName(u)
  {
  }

  /** The example of the function's documentation: `aarch64-unknown-linux-ohos`. */
  lemma AbiDocExample()
    ensures AbiDirName(Triple(Aarch64Arch(Aarch64), "unknown", "linux", "ohos")) == "arm64-v8a"
  {
  }
}
