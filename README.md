# OpenHarmony tooling of the Dioxus CLI, modelled in Dafny

This project models the OpenHarmony (OHOS) support of the Dioxus command-line tool:

- `relativize_path`, the path helper that turns a `base` and a `target` path into the relative path leading from `target` to `base` (`relativize.dfy`, module `RelativePath`);
- `ohos_abi`, the mapping from a target triple to an OpenHarmony ABI directory name (`abi.dfy`, module `OhosAbi`);
- `OhosTooling`, the NDK tool paths and linker flags, and `check_tools` (`tools.dfy`, module `OhosTools`);
- the OHOS part of `dx init`: project-name defaulting, the early OHOS dispatch, crate and bundle names, the template variables and the bundled template location (`init.dfy`, module `InitCommand`);
- OHOS project generation: the existence check, the template data, the template-directory choice and the recursive template copy (`project.dfy`, module `OhosProject`).

Two shared modules support them. `Wrappers` holds `Option` and `Result`. `Paths` is the slice of Rust's `PathBuf` these files use: an absolute flag, a sequence of non-empty components, `join`, `parent` and `display`.

The filesystem, the environment and the calls into other crates and modules are inputs to the model:

- the filesystem is a set of existing paths, plus a tree of entries for each readable template directory;
- environment variables and the executable path are `Option`/`Result` values;
- `init` records the calls that act on the outside world as a list of actions, in the order it makes them.

`relativize_path` and `copy_template_dir` are imperative in the source, so they are modelled as methods with loops. Each is proved equal to a specification function (`Relative`, `Filtered`), and the lemmas state what those functions guarantee. The main such lemma for `Relative` is that walking the result from `target` arrives at `base`.

## Model

| member | source | states |
|---|---|---|
| `RelativePath.RelativizePath` | packages/cli/test_path.rs:3-53 | the loop strips the common prefix and builds exactly `Relative(base, target)`: one `..` per leftover target component, then the leftover base components; `.` if that would be empty |
| `RelativePath.Remaining` | packages/cli/test_path.rs:21-32 | once the iterator has yielded `i` items, what is collected is the mismatching item and everything after it, i.e. `s[i..]` |
| `RelativePath.CommonPrefixLen` | packages/cli/test_path.rs:17-19 | the number of skipped leading components fits within both paths |
| `RelativePath.Relative` | packages/cli/test_path.rs:41-51 | the result is never empty |
| `RelativePath.CommonPrefixIsLongest` | packages/cli/test_path.rs:17-19 | the skipped prefix is common to both paths, and it stops where one path runs out or the components differ |
| `RelativePath.RelativeToSelf` | packages/cli/test_path.rs:17-19 | identical component sequences give exactly `.` |
| `RelativePath.RelativeIsCurDirOnlyForSamePath` | packages/cli/test_path.rs:48-50 | for a base without `.` components, the result is `.` if and only if base and target are equal |
| `RelativePath.RelativeLayout` | packages/cli/test_path.rs:41-46 | for different paths, the number of leading `..` equals the number of target components after the common prefix, and the rest is the base suffix in order |
| `RelativePath.BaseIsPrefixOfTarget` | packages/cli/test_path.rs:41-46 | a base that is a strict prefix of the target gives only `..`, one per extra target component |
| `RelativePath.TargetIsPrefixOfBase` | packages/cli/test_path.rs:41-46 | a target that is a strict prefix of the base gives the base suffix, with no `..` run |
| `RelativePath.MainExamples` | packages/cli/test_path.rs:55-65 | the two calls in `main` give `..` and `../..` |
| `RelativePath.RelativeRoundTrip` | packages/cli/test_path.rs:3-53 | for a canonical base (no `.` or `..` components), following the result from `target` leads back to `base` |
| `OhosAbi.AbiDirName` | packages/cli/src/ohos/util.rs:22-30 | the result is one of the four OHOS ABI names exactly for the four supported families; any other architecture maps to its own textual name |
| `OhosAbi.AbiOfSupportedFamilies` | packages/cli/src/ohos/util.rs:24-27 | whatever the sub-variant: Aarch64 gives `arm64-v8a`, Arm gives `armeabi-v7a`, X86_64 gives `x86_64`, X86_32 gives `x86`, each in both directions |
| `OhosAbi.AbiIgnoresVendorOsEnvironment` | packages/cli/src/ohos/util.rs:23 | triples with the same architecture get the same ABI name |
| `OhosAbi.AbiDocExample` | packages/cli/src/ohos/util.rs:18-20 | `aarch64-unknown-linux-ohos` gives `arm64-v8a` |
| `OhosTools.New` | packages/cli/src/ohos/tools.rs:28-34 | both paths are stored unchanged and the SDK version is none |
| `OhosTools.ExeSuffix` | packages/cli/src/ohos/tools.rs:73-82 | `.exe` on Windows, empty elsewhere |
| `OhosTools.LlvmBinDir` | packages/cli/src/ohos/tools.rs:66-70 | the bin directory is two levels below the NDK path, whose grandparent it is, and its last component is `bin` |
| `OhosTools.Tool` | packages/cli/src/ohos/tools.rs:37-63 | every tool lies directly in the LLVM bin directory, and its file name is the stem followed by the platform suffix |
| `OhosTools.OhosCc` | packages/cli/src/ohos/tools.rs:37-39 | the C compiler is `clang` plus the platform suffix, directly in the LLVM bin directory |
| `OhosTools.OhosCxx` | packages/cli/src/ohos/tools.rs:42-44 | the C++ compiler is `clang++` plus the platform suffix, directly in the LLVM bin directory |
| `OhosTools.Ar` | packages/cli/src/ohos/tools.rs:47-49 | the archiver is `llvm-ar` plus the platform suffix, directly in the LLVM bin directory |
| `OhosTools.Ranlib` | packages/cli/src/ohos/tools.rs:61-63 | the indexer is `llvm-ranlib` plus the platform suffix, directly in the LLVM bin directory |
| `OhosTools.LlvmBinDirLayout` | packages/cli/src/ohos/tools.rs:66-70 | the bin directory is the NDK path followed by `llvm` and `bin`, with the same root |
| `OhosTools.ToolPaths` | packages/cli/src/ohos/tools.rs:37-63 | `clang`, `clang++`, `llvm-ar` and `llvm-ranlib`, each with the platform suffix, sit directly in the LLVM bin directory |
| `OhosTools.ToolsAreDistinct` | packages/cli/src/ohos/tools.rs:37-63 | the four tool paths are pairwise different on either platform |
| `OhosTools.LinkerFlags` | packages/cli/src/ohos/tools.rs:52-60 | exactly five flags: a `-L` search-path flag, then `-C link-arg=-unwindlib=c++_shared` and `-C link-arg=-l:libc++_shared.so`, in that order |
| `OhosTools.LinkerLibraryFlag` | packages/cli/src/ohos/tools.rs:54 | the first flag is `-L`, then the rendered NDK path, then `/llvm/lib`; the `/` is left out when the NDK path has no components |
| `OhosTools.LinkerFlagsIgnoreTriple` | packages/cli/src/ohos/tools.rs:52 | the flags do not depend on the triple |
| `OhosTools.CheckTools` | packages/cli/src/ohos/tools.rs:92-108 | succeeds if and only if the base environment and the OHOS home are both found |
| `OhosTools.CheckToolsPaths` | packages/cli/src/ohos/tools.rs:104-107 | the detected home is the SDK path and the NDK path is the home followed by `llvm`, so the C compiler is at `home/llvm/llvm/bin/clang` |
| `InitCommand.LowerChar` | packages/cli/src/cli/init.rs:109 | lower-casing leaves no upper-case ASCII letter, shifts `A`-`Z` to `a`-`z` and keeps every other character |
| `InitCommand.ToLower` | packages/cli/src/cli/init.rs:109-110 | lower-casing keeps the length and leaves no upper-case ASCII letter |
| `InitCommand.Replace` | packages/cli/src/cli/init.rs:109-110 | after replacing `c` by `r`, no `c` is left unless `r` contains one, and every character comes from the input or from `r` |
| `InitCommand.CrateName` | packages/cli/src/cli/init.rs:109 | the crate name has the project name's length and contains no `-` |
| `InitCommand.BundleName` | packages/cli/src/cli/init.rs:110 | the bundle name starts with `com.example.` and has no `-` after it |
| `InitCommand.CrateNameShape` | packages/cli/src/cli/init.rs:109 | the crate name has the project name's length and no `-`; at each position it has `_` where the name has `-`, otherwise the lower-cased character |
| `InitCommand.BundleNameShape` | packages/cli/src/cli/init.rs:110 | the bundle name is `com.example.` and a suffix with no `-` and no upper-case letter, one character shorter for every `-` in the name |
| `InitCommand.BundleNameOrder` | packages/cli/src/cli/init.rs:110 | the suffix keeps the name's order: the character at position `i`, when not `-`, is lower-cased and appears at `i` minus the number of `-` before `i` |
| `InitCommand.BundleKeepsOtherCharacters` | packages/cli/src/cli/init.rs:110 | every character other than `-` occurs in the bundle suffix as often as in the lower-cased name |
| `InitCommand.InitOhos` | packages/cli/src/cli/init.rs:105-166 | fails, doing nothing, exactly when the template directory is missing; otherwise creates the destination, generates, and initialises the VCS only when one is set. The variables are the six defaults (`project_name`, `crate_name`, `bundle_name`, `vendor`, `version`, `dioxus_git`, as `key=value`) followed by the user's options unchanged |
| `InitCommand.EffectiveName` | packages/cli/src/cli/init.rs:61-63 | a supplied name is kept, and the name derived from the path is used only when none was supplied |
| `InitCommand.InitProject` | packages/cli/src/cli/init.rs:59-102 | a failed name derivation stops everything. The OHOS flag leads to the OHOS path with no connectivity check and no template resolution; there it succeeds exactly when the bundled template exists, and then creates the destination and generates from that template with the six defaults for the effective name ahead of the user's options, into the destination path, and initialises version control only when one is set. Otherwise connectivity is checked exactly when no template is given, and is the only failure. Generation always gets the effective name, and on the non-OHOS path it gets the user's options and the resolved template and branch |
| `InitCommand.DefaultTemplateDir` | packages/cli/src/cli/init.rs:126-129 | without `CARGO_MANIFEST_DIR` the template is looked for at `./assets/ohos` |
| `InitCommand.OhosTemplateDir` | packages/cli/src/cli/init.rs:126-129 | the template directory is the manifest directory (same root, same components) followed by `assets` and `ohos`, or `./assets/ohos` without one |
| `OhosProject.ProjectExistsIff` | packages/cli/src/ohos/project.rs:46-59 | the project exists if and only if `gen-ohos`, `gen-ohos/entry/hvigorfile.ts` and `gen-ohos/AppScope/app.json5` all exist |
| `OhosProject.ProjectExists` | packages/cli/src/ohos/project.rs:46-59 | a project is never reported without the `gen-ohos` directory |
| `OhosProject.ProjectExistsOnRealFilesystem` | packages/cli/src/ohos/project.rs:46-59 | on a filesystem where every parent of an existing path exists, the two file checks alone decide it |
| `OhosProject.BuildAppData` | packages/cli/src/ohos/project.rs:105-112 | exactly the keys `name`, `identifier`, `publisher`, `version`, mapped to the app name, bundle name, publisher and version |
| `OhosProject.TemplateDirOrder` | packages/cli/src/ohos/project.rs:69-86 | the directory beside the executable if it exists, else the one in the manifest directory if it exists, else an error |
| `OhosProject.ChooseTemplateDir` | packages/cli/src/ohos/project.rs:69-86 | a chosen template directory always ends in `assets/openharmony`; an executable path with no parent gives the no-directory error |
| `OhosProject.ChosenTemplateDirExists` | packages/cli/src/ohos/project.rs:69-86 | a chosen directory exists; if the executable cannot be located, the result is that error even when the manifest copy exists |
| `OhosProject.CopyTemplateDir` | packages/cli/src/ohos/project.rs:115-144 | the loop with its recursion produces exactly `Filtered(src)` |
| `OhosProject.Filtered` | packages/cli/src/ohos/project.rs:115-144 | the copy has at most as many top-level entries as the source, and none of its top-level files is named `CLAUDE.md` |
| `OhosProject.CopiedFiles` | packages/cli/src/ohos/project.rs:121-139 | a file is in the copy at a given name path with given contents if and only if it is in the source there and is not named `CLAUDE.md` |
| `OhosProject.NoSkippedFileInCopy` | packages/cli/src/ohos/project.rs:134-136 | no file named `CLAUDE.md` remains anywhere in the copy |
| `OhosProject.CopiedDirs` | packages/cli/src/ohos/project.rs:130-131 | the copy has exactly the source's directories at the same name paths, including directories named `CLAUDE.md` |
| `OhosProject.SkipAppliesToFilesOnly` | packages/cli/src/ohos/project.rs:130-136 | example: a file named `CLAUDE.md` is dropped, while a directory of that name is kept and its contents are copied |
| `OhosProject.FilteredIdempotent` | packages/cli/src/ohos/project.rs:115-144 | copying a copy changes nothing |
| `OhosProject.GenerateOhosProject` | packages/cli/src/ohos/project.rs:65-102 | a failed template-directory choice is returned as is, and an unreadable template directory is an error. Otherwise the tree is the filtered template, and the data has five keys: the four app-data entries unchanged plus `lib_name` |

## Left out

- `canonicalize` and the `println!` calls in `relativize_path`: the inputs are taken as canonical component sequences that share their root. The root is not part of the sequences, and paths with different roots or Windows prefixes are not modelled.
- Rust's `Path::components` normalisation (repeated separators, interior `.`): inputs are already component sequences.
- `Paths.Display` renders with `/`. The Windows rendering of `join("llvm/lib")`, with mixed separators, is not modelled. `ExeSuffix` does cover the Windows case.
- `InitCommand.LowerChar`: lower-cases ASCII letters only. Rust's `to_lowercase` is Unicode-aware, and that case mapping is not modelled.
- `OhosAbi.ArchName`: covers a subset of the target lexicon's architectures, enough to show the four fixed names and the fall-through to the textual name.
- `InitCommand.InitProject`: several calls into the CLI's `create` module, whose source is not part of this model, are inputs: `create::name_from_path`, `create::check_connectivity` and `create::resolve_template_and_branch` (a function parameter). Version-control initialisation and `post_create` are recorded as actions.
- `InitCommand.InitProject` and `InitCommand.InitOhos`: `create_dir_all`, `cargo_generate::generate` and version-control initialisation are recorded as actions and assumed to succeed. Their failures are not modelled.
- How `cargo_generate` lets user options override the defaults: that happens inside the generator, which is not part of this model.
- The `clap` argument conflicts of `--ohos` (with `--template`, `--branch` and others): command-line validation is not modelled.
- `OhosProject.CopyTemplateDir`: several error paths are not modelled: creating each destination directory with `create_dir_all` (including those of subdirectories on recursion), reading a directory, a failing directory entry while iterating, an invalid or non-UTF-8 file name, `file_type`, and `fs::copy`. Entries are taken in the order the tree lists them.
- `OhosProject.CopyTemplateDir`: the destination is modelled as the tree the copy produces, assumed empty beforehand. Merging into an existing directory is not modelled.
- Symbolic links in a template directory are not modelled.
- `OhosProject.GenerateOhosProject`: `current_exe` is an input, and `CARGO_MANIFEST_DIR` is a compile-time input. The failure of `create_dir_all` on the output directory is not modelled.
- `tracing` logging.
- `packages/cli/src/mobile/mod.rs` and `packages/cli/src/ohos/mod.rs` hold only a type alias, a wrapper and module declarations.
- The example `lib.rs` (FFI exports) and the two `napi_init.cpp` files (N-API registration) are not part of this model.
- Dioxus's reactive runtime (signals, memos, effects, the scope tree, SSR hydration) lies outside the CLI and is not modelled.
