/**
 * `OhosTooling`: where the HarmonyOS NDK keeps its LLVM tools, and the linker
 * flags Rust builds for OpenHarmony use. Every path is derived from the NDK
 * path alone; the host platform only decides the executable suffix.
 */
module OhosTools {
  import opened Wrappers
  import opened Paths
  import OhosAbi

  /** The platform the CLI was compiled for (`cfg(windows)` or not). */
  datatype HostPlatform = Windows | NotWindows

  datatype OhosTooling = OhosTooling(sdkPath: Path, ndkPath: Path, sdkVersion: Option<string>)

  /** `OhosTooling::new`: both paths kept, no SDK version yet. */
  function New(sdkPath: Path, ndkPath: Path): (t: OhosTooling)
    ensures t.sdkPath == sdkPath && t.ndkPath == ndkPath && t.sdkVersion == None
  {
    OhosTooling(sdkPath, ndkPath, None)
  }

  /** `exe_suffix`. */
  function ExeSuffix(host: HostPlatform): (s: string)
    ensures host == Windows ==> s == ".exe"
    ensures host == NotWindows ==> s == ""
  {
    match host
    case Windows => ".exe"
    case NotWindows => ""
  }

  /** `llvm_bin_dir`: two levels below the NDK path, the last one `bin`. */
  function LlvmBinDir(t: OhosTooling): (d: Path)
    ensures |d.components| == |t.ndkPath.components| + 2
    ensures d.components[|d.components| - 1] == "bin"
    ensures Parent(d).Some? && Parent(Parent(d).value) == Some(t.ndkPath)
  {
    Join(Join(t.ndkPath, "llvm"), "bin")
  }

  /** An LLVM tool named `stem`, with the platform suffix, inside the LLVM bin directory. */
  function Tool(t: OhosTooling, stem: Component, host: HostPlatform): (p: Path)
    ensures Parent(p) == Some(LlvmBinDir(t))
    ensures p.components[|p.components| - 1] == stem + ExeSuffix(host)
  {
    Join(LlvmBinDir(t), stem + ExeSuffix(host))
  }

  /** `ohos_cc`: `clang` in the LLVM bin directory. */
  function OhosCc(t: OhosTooling, host: HostPlatform): (p: Path)
    ensures Parent(p) == Some(LlvmBinDir(t))
    ensures p.components[|p.components| - 1] == "clang" + ExeSuffix(host)
  {
    Tool(t, "clang", host)
  }

  /** `ohos_cxx`: `clang++` in the LLVM bin directory. */
  function OhosCxx(t: OhosTooling, host: HostPlatform): (p: Path)
    ensures Parent(p) == Some(LlvmBinDir(t))
    ensures p.components[|p.components| - 1] == "clang++" + ExeSuffix(host)
  {
    Tool(t, "clang++", host)
  }

  /** `ar`: `llvm-ar` in the LLVM bin directory. */
  function Ar(t: OhosTooling, host: HostPlatform): (p: Path)
    ensures Parent(p) == Some(LlvmBinDir(t))
    ensures p.components[|p.components| - 1] == "llvm-ar" + ExeSuffix(host)
  {
    Tool(t, "llvm-ar", host)
  }

  /** `ranlib`: `llvm-ranlib` in the LLVM bin directory. */
  function Ranlib(t: OhosTooling, host: HostPlatform): (p: Path)
    ensures Parent(p) == Some(LlvmBinDir(t))
    ensures p.components[|p.components| - 1] == "llvm-ranlib" + ExeSuffix(host)
  {
    Tool(t, "llvm-ranlib", host)
  }

  /** `linker_flags`; the triple is accepted and ignored. */
  function LinkerFlags(t: OhosTooling, triple: OhosAbi.Triple): (flags: seq<string>)
    ensures |flags| == 5
    ensures |flags[0]| >= 2 && flags[0][..2] == "-L"
    ensures flags[1..] == ["-C", "link-arg=-unwindlib=c++_shared", "-C", "link-arg=-l:libc++_shared.so"]
  {
    [ "-L" + Display(JoinAll(t.ndkPath, ["llvm", "lib"])),
      "-C",
      "link-arg=-unwindlib=c++_shared",
      "-C",
      "link-arg=-l:libc++_shared.so" ]
  }

  /** `check_tools`, taking the two environment lookups as inputs. */
  function CheckTools(baseEnvAvailable: bool, ohosHome: Option<Path>): (r: Result<OhosTooling>)
    ensures r.Ok? <==> baseEnvAvailable && ohosHome.Some?
  {
    if !baseEnvAvailable then Err("Failed to initialize base environment")
    else if ohosHome.None? then
      Err("Failed to detect OpenHarmony environment. Please ensure HarmonyOS SDK is installed.")
    else
      var home := ohosHome.value;
      Ok(New(home, Join(home, "llvm")))
  }

  // ---- Properties ----

  /** The bin directory is the NDK path followed by `llvm` and `bin`, with the same root. */
  lemma LlvmBinDirLayout(t: OhosTooling)
    ensures LlvmBinDir(t).absolute == t.ndkPath.absolute
    ensures LlvmBinDir(t).components == t.ndkPath.components + ["llvm", "bin"]
  {
  }

  /** The four tools sit in the LLVM bin directory and their file names are the stem and the suffix. */
  lemma ToolPaths(t: OhosTooling, host: HostPlatform)
    ensures Parent(OhosCc(t, host)) == Some(LlvmBinDir(t))
    ensures Parent(OhosCxx(t, host)) == Some(LlvmBinDir(t))
    ensures Parent(Ar(t, host)) == Some(LlvmBinDir(t))
    ensures Parent(Ranlib(t, host)) == Some(LlvmBinDir(t))
    ensures OhosCc(t, host).components == t.ndkPath.components + ["llvm", "bin", "clang" + ExeSuffix(host)]
    ensures OhosCxx(t, host).components == t.ndkPath.components + ["llvm", "bin", "clang++" + ExeSuffix(host)]
    ensures Ar(t, host).components == t.ndkPath.components + ["llvm", "bin", "llvm-ar" + ExeSuffix(host)]
    ensures Ranlib(t, host).components == t.ndkPath.components + ["llvm", "bin", "llvm-ranlib" + ExeSuffix(host)]
  {
  }

  /** The four tools are four different files, on either platform. */
  lemma ToolsAreDistinct(t: OhosTooling, host: HostPlatform)
    ensures OhosCc(t, host) != OhosCxx(t, host) && OhosCc(t, host) != Ar(t, host)
    ensures OhosCc(t, host) != Ranlib(t, host) && OhosCxx(t, host) != Ar(t, host)
    ensures OhosCxx(t, host) != Ranlib(t, host) && Ar(t, host) != Ranlib(t, host)
  {
    var n := |LlvmBinDir(t).components|;
    var names := ["clang", "clang++", "llvm-ar", "llvm-ranlib"];
    assert OhosCc(t, host).components[n] == names[0] + ExeSuffix(host);
    assert OhosCxx(t, host).components[n] == names[1] + ExeSuffix(host);
    assert Ar(t, host).components[n] == names[2] + ExeSuffix(host);
    assert Ranlib(t, host).components[n] == names[3] + ExeSuffix(host);
    forall i, j | 0 <= i < j < 4
      ensures names[i] + ExeSuffix(host) != names[j] + ExeSuffix(host)
    {
      SuffixCancels(names[i], names[j], ExeSuffix(host));
    }
  }

  lemma SuffixCancels(a: string, b: string, suffix: string)
    ensures a != b ==> a + suffix != b + suffix
  {
    if a + suffix == b + suffix {
      assert a == (a + suffix)[..|a|];
      assert b == (b + suffix)[..|b|];
    }
  }

  /** The first flag is `-L` and the rendered NDK path followed by `/llvm/lib`. */
  lemma LinkerLibraryFlag(t: OhosTooling, triple: OhosAbi.Triple)
    ensures LinkerFlags(t, triple)[0]
      == "-L" + Display(t.ndkPath) + (if t.ndkPath.components == [] then "" else "/") + "llvm/lib"
  {
    var llvm := Join(t.ndkPath, "llvm");
    JoinAllIsRepeatedJoin(t.ndkPath, ["llvm", "lib"]);
    assert JoinAll(t.ndkPath, ["llvm", "lib"]) == Join(llvm, "lib");
    DisplayJoin(t.ndkPath, "llvm");
    DisplayJoin(llvm, "lib");
  }

  /** The flags do not depend on the target triple. */
  lemma LinkerFlagsIgnoreTriple(t: OhosTooling, a: OhosAbi.Triple, b: OhosAbi.Triple)
    ensures LinkerFlags(t, a) == LinkerFlags(t, b)
  {
  }

  /** A detected home `h` gives the SDK path `h` and the NDK path `h/llvm`. */
  lemma CheckToolsPaths(home: Path)
    ensures CheckTools(true, Some(home)) == Ok(OhosTooling(home, Join(home, "llvm"), None))
    ensures OhosCc(CheckTools(true, Some(home)).value, NotWindows).components
      == home.components + ["llvm", "llvm", "bin", "clang"]
  {
    ToolPaths(CheckTools(true, Some(home)).value, NotWindows);
    assert "clang" + ExeSuffix(NotWindows) == "clang";
  }
}
