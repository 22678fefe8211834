/**
 * OpenHarmony project generation: the existence check for a generated
 * project, the template data, the choice of the template directory and the
 * recursive template copy. The filesystem is given as a set of existing paths
 * and, for each template directory, the tree of entries it holds.
 */
module OhosProject {
  import opened Wrappers
  import opened Paths

  datatype OhosProjectMetadata = OhosProjectMetadata(
    appName: string,
    bundleName: string,
    packageName: string,
    libName: string,
    publisher: string,
    version: string,
    projectRoot: Path,
    outputDir: Path)

  // ---- Existence of a generated project ----

  /** `ohos_project_exists`. */
  function ProjectExists(workspaceRoot: Path, existing: set<Path>): (b: bool)
    ensures b ==> Join(workspaceRoot, "gen-ohos") in existing
  {
    var ohosDir := Join(workspaceRoot, "gen-ohos");
    if ohosDir !in existing then false
    else
      var entryHvigorfile := Join(Join(ohosDir, "entry"), "hvigorfile.ts");
      var appScope := Join(Join(ohosDir, "AppScope"), "app.json5");
      entryHvigorfile in existing && appScope in existing
  }

  /** The project exists iff `gen-ohos`, `gen-ohos/entry/hvigorfile.ts` and `gen-ohos/AppScope/app.json5` all exist. */
  lemma ProjectExistsIff(w: Path, existing: set<Path>)
    ensures ProjectExists(w, existing) <==>
      && JoinAll(w, ["gen-ohos"]) in existing
      && JoinAll(w, ["gen-ohos", "entry", "hvigorfile.ts"]) in existing
      && JoinAll(w, ["gen-ohos", "AppScope", "app.json5"]) in existing
  {
    assert Join(w, "gen-ohos") == JoinAll(w, ["gen-ohos"]);
    assert Join(Join(Join(w, "gen-ohos"), "entry"), "hvigorfile.ts") == JoinAll(w, ["gen-ohos", "entry", "hvigorfile.ts"]);
    assert Join(Join(Join(w, "gen-ohos"), "AppScope"), "app.json5") == JoinAll(w, ["gen-ohos", "AppScope", "app.json5"]);
  }

  /** A filesystem in which the parent of every existing path exists. */
  ghost predicate ParentsExist(existing: set<Path>) {
    forall p {:trigger Parent(p)} :: p in existing && |p.components| > 0 ==> Parent(p).value in existing
  }

  lemma {:induction false} AncestorExists(existing: set<Path>, p: Path, n: nat)
    requires ParentsExist(existing) && p in existing && n <= |p.components|
    ensures Path(p.absolute, p.components[..n]) in existing
    decreases |p.components| - n
  {
    if n < |p.components| {
      var q := Parent(p).value;
      assert q == Path(p.absolute, p.components[..|p.components| - 1]);
      AncestorExists(existing, q, n);
      assert q.components[..n] == p.components[..n];
    } else {
      assert p.components[..n] == p.components;
    }
  }

  /** On such a filesystem the directory check is implied by the two file checks. */
  lemma ProjectExistsOnRealFilesystem(w: Path, existing: set<Path>)
    requires ParentsExist(existing)
    ensures ProjectExists(w, existing) <==>
      && JoinAll(w, ["gen-ohos", "entry", "hvigorfile.ts"]) in existing
      && JoinAll(w, ["gen-ohos", "AppScope", "app.json5"]) in existing
  {
    ProjectExistsIff(w, existing);
    var f := JoinAll(w, ["gen-ohos", "entry", "hvigorfile.ts"]);
    if f in existing {
      AncestorExists(existing, f, |w.components| + 1);
      assert Path(f.absolute, f.components[..|w.components| + 1]) == JoinAll(w, ["gen-ohos"]);
    }
  }

  // ---- Template data ----

  const AppDataKeys: set<string> := {"name", "identifier", "publisher", "version"}

  /** `build_app_data`: the four entries inserted one by one. */
  method BuildAppData(metadata: OhosProjectMetadata) returns (appData: map<string, string>)
    ensures appData.Keys == AppDataKeys
    ensures appData["name"] == metadata.appName
    ensures appData["identifier"] == metadata.bundleName
    ensures appData["publisher"] == metadata.publisher
    ensures appData["version"] == metadata.version
  {
    appData := map[];
    appData := appData["name" := metadata.appName];
    appData := appData["identifier" := metadata.bundleName];
    appData := appData["publisher" := metadata.publisher];
    appData := appData["version" := metadata.version];
  }

  // ---- Template directory ----

  const TemplatesNotFound: string := "OHOS templates not found. Please ensure Dioxus CLI is properly installed."
  const NoExecutableDirectory: string := "Failed to get executable directory"

  /**
   * The template directory: `<executable dir>/../assets/openharmony` if it
   * exists, else `<manifest dir>/assets/openharmony` if that exists, else an
   * error. Finding the executable or its directory can fail first.
   */
  function ChooseTemplateDir(currentExe: Result<Path>, manifestDir: Path, existing: set<Path>): (r: Result<Path>)
    ensures r.Ok? ==>
      |r.value.components| >= 2
      && r.value.components[|r.value.components| - 2..] == ["assets", "openharmony"]
    ensures currentExe.Ok? && Parent(currentExe.value).None? ==> r == Err(NoExecutableDirectory)
  {
    if currentExe.Err? then Err(currentExe.msg)
    else
      var parent := Parent(currentExe.value);
      if parent.None? then Err(NoExecutableDirectory)
      else
        var besideExe := JoinAll(parent.value, ["..", "assets", "openharmony"]);
        if besideExe in existing then Ok(besideExe)
        else
          var inManifest := JoinAll(manifestDir, ["assets", "openharmony"]);
          if inManifest in existing then Ok(inManifest)
          else Err(TemplatesNotFound)
  }

  /** The three outcomes of the choice, in the order they are tried. */
  lemma TemplateDirOrder(exe: Path, manifestDir: Path, existing: set<Path>)
    requires |exe.components| > 0
    ensures var besideExe := JoinAll(Parent(exe).value, ["..", "assets", "openharmony"]);
      var inManifest := JoinAll(manifestDir, ["assets", "openharmony"]);
      var r := ChooseTemplateDir(Ok(exe), manifestDir, existing);
      && (besideExe in existing ==> r == Ok(besideExe))
      && (besideExe !in existing && inManifest in existing ==> r == Ok(inManifest))
      && (besideExe !in existing && inManifest !in existing ==> r == Err(TemplatesNotFound))
  {
  }

  /** Whatever is chosen exists; and failing to locate the executable is an error even if the manifest copy exists. */
  lemma ChosenTemplateDirExists(currentExe: Result<Path>, manifestDir: Path, existing: set<Path>)
    ensures ChooseTemplateDir(currentExe, manifestDir, existing).Ok? ==>
      ChooseTemplateDir(currentExe, manifestDir, existing).value in existing
    ensures currentExe.Err? ==> ChooseTemplateDir(currentExe, manifestDir, existing) == Err(currentExe.msg)
  {
  }

  // ---- Template copy ----

  /** An entry of a template directory. */
  datatype Entry =
    | File(name: Component, contents: seq<bv8>)
    | Dir(name: Component, children: seq<Entry>)

  const SkippedName: Component := "CLAUDE.md"

  /** The tree that the copy produces: every file named `CLAUDE.md` left out, every directory kept. */
  function Filtered(es: seq<Entry>): (r: seq<Entry>)
    ensures |r| <= |es|
    ensures forall e :: e in r && e.File? ==> e.name != SkippedName
  {
    if es == [] then []
    else
      var rest := Filtered(es[1..]);
      match es[0]
      case File(n, _) => if n == SkippedName then rest else [es[0]] + rest
      case Dir(n, cs) => [Dir(n, Filtered(cs))] + rest
  }

  /**
   * `copy_template_dir`: walk the source entries in order, recurse into
   * directories, skip files named `CLAUDE.md` and copy every other file under
   * its own name.
   */
  method CopyTemplateDir(src: seq<Entry>) returns (dst: seq<Entry>)
    ensures dst == Filtered(src)
    decreases src
  {
    dst := [];
    for i := 0 to |src|
      invariant dst == Filtered(src[..i])
    {
      FilteredAppend(src[..i], [src[i]]);
      assert src[..i + 1] == src[..i] + [src[i]];
      match src[i]
      case Dir(name, children) =>
        var copied := CopyTemplateDir(children);
        dst := dst + [Dir(name, copied)];
      case File(name, contents) =>
        if name == SkippedName {
          continue;
        }
        dst := dst + [File(name, contents)];
    }
    assert src[..|src|] == src;
  }

  lemma {:induction false} FilteredAppend(a: seq<Entry>, b: seq<Entry>)
    ensures Filtered(a + b) == Filtered(a) + Filtered(b)
  {
    if a == [] {
      assert a + b == b;
    } else {
      assert (a + b)[0] == a[0] && (a + b)[1..] == a[1..] + b;
      FilteredAppend(a[1..], b);
    }
  }

  /** The file with contents `c` at name path `p` below `es`. */
  predicate HasFile(es: seq<Entry>, p: seq<Component>, c: seq<bv8>)
  {
    es != [] &&
    ((|p| > 0 && p[0] == es[0].name &&
      match es[0]
      case File(_, d) => |p| == 1 && d == c
      case Dir(_, cs) => HasFile(cs, p[1..], c))
     || HasFile(es[1..], p, c))
  }

  /** A directory at name path `p` below `es`. */
  predicate HasDir(es: seq<Entry>, p: seq<Component>)
  {
    es != [] &&
    ((|p| > 0 && p[0] == es[0].name && es[0].Dir? && (|p| == 1 || HasDir(es[0].children, p[1..])))
     || HasDir(es[1..], p))
  }

  lemma {:induction false} HasFileAppend(a: seq<Entry>, b: seq<Entry>, p: seq<Component>, c: seq<bv8>)
    ensures HasFile(a + b, p, c) <==> HasFile(a, p, c) || HasFile(b, p, c)
  {
    if a == [] {
      assert a + b == b;
    } else {
      assert (a + b)[0] == a[0] && (a + b)[1..] == a[1..] + b;
      HasFileAppend(a[1..], b, p, c);
    }
  }

  lemma {:induction false} HasDirAppend(a: seq<Entry>, b: seq<Entry>, p: seq<Component>)
    ensures HasDir(a + b, p) <==> HasDir(a, p) || HasDir(b, p)
  {
    if a == [] {
      assert a + b == b;
    } else {
      assert (a + b)[0] == a[0] && (a + b)[1..] == a[1..] + b;
      HasDirAppend(a[1..], b, p);
    }
  }

  /** Every file of the source is in the copy at the same path with the same contents, unless it is named `CLAUDE.md`; the copy has no other file. */
  lemma {:induction false} CopiedFiles(es: seq<Entry>, p: seq<Component>, c: seq<bv8>)
    ensures HasFile(Filtered(es), p, c) <==> HasFile(es, p, c) && |p| > 0 && p[|p| - 1] != SkippedName
  {
    if es != [] {
      var e := es[0];
      var rest := Filtered(es[1..]);
      CopiedFiles(es[1..], p, c);
      match e
      case File(n, d) =>
        if n == SkippedName {
          assert Filtered(es) == rest;
        } else {
          assert Filtered(es) == [e] + rest;
          HasFileAppend([e], rest, p, c);
        }
      case Dir(n, cs) =>
        assert Filtered(es) == [Dir(n, Filtered(cs))] + rest;
        HasFileAppend([Dir(n, Filtered(cs))], rest, p, c);
        if |p| > 0 {
          CopiedFiles(cs, p[1..], c);
          if |p| > 1 {
            assert p[1..][|p[1..]| - 1] == p[|p| - 1];
          } else {
            NoFileAtEmptyPath(cs, c);
            NoFileAtEmptyPath(Filtered(cs), c);
          }
        }
    }
  }

  lemma NoFileAtEmptyPath(es: seq<Entry>, c: seq<bv8>)
    ensures !HasFile(es, [], c)
  {
    if es != [] {
      NoFileAtEmptyPath(es[1..], c);
    }
  }

  /** No file named `CLAUDE.md` is left anywhere in the copy. */
  lemma NoSkippedFileInCopy(es: seq<Entry>, p: seq<Component>, c: seq<bv8>)
    requires |p| > 0 && p[|p| - 1] == SkippedName
    ensures !HasFile(Filtered(es), p, c)
  {
    CopiedFiles(es, p, c);
  }

  /** Every directory of the source is in the copy at the same path, even one named `CLAUDE.md`, and the copy has no other directory. */
  lemma {:induction false} CopiedDirs(es: seq<Entry>, p: seq<Component>)
    ensures HasDir(Filtered(es), p) <==> HasDir(es, p)
  {
    if es != [] {
      var e := es[0];
      var rest := Filtered(es[1..]);
      CopiedDirs(es[1..], p);
      match e
      case File(n, d) =>
        if n == SkippedName {
          assert Filtered(es) == rest;
        } else {
          assert Filtered(es) == [e] + rest;
          HasDirAppend([e], rest, p);
        }
      case Dir(n, cs) =>
        assert Filtered(es) == [Dir(n, Filtered(cs))] + rest;
        HasDirAppend([Dir(n, Filtered(cs))], rest, p);
        if |p| > 1 {
          CopiedDirs(cs, p[1..]);
        }
    }
  }

  /** Copying a copy changes nothing. */
  lemma {:induction false} FilteredIdempotent(es: seq<Entry>)
    ensures Filtered(Filtered(es)) == Filtered(es)
  {
    if es != [] {
      FilteredIdempotent(es[1..]);
      var rest := Filtered(es[1..]);
      match es[0]
      case File(n, _) =>
        if n != SkippedName {
          FilteredAppend([es[0]], rest);
          assert Filtered([es[0]]) == [es[0]];
        }
      case Dir(n, cs) =>
        FilteredIdempotent(cs);
        FilteredAppend([Dir(n, Filtered(cs))], rest);
        assert Filtered([Dir(n, Filtered(cs))]) == [Dir(n, Filtered(Filtered(cs)))];
    }
  }

  /** A directory named `CLAUDE.md` is still recursed into; a file of that name is dropped. */
  lemma SkipAppliesToFilesOnly(c: seq<bv8>)
    ensures Filtered([File(SkippedName, c)]) == []
    ensures Filtered([Dir(SkippedName, [File("README.md", c)])]) == [Dir(SkippedName, [File("README.md", c)])]
  {
    var inner := [File("README.md", c)];
    assert "README.md"[0] != SkippedName[0];
    assert inner[1..] == [];
    assert Filtered(inner) == inner;
    assert [Dir(SkippedName, inner)][1..] == [];
  }

  // ---- Generation ----

  datatype GeneratedProject = GeneratedProject(outputDir: Path, appData: map<string, string>, tree: seq<Entry>)

  const ReadDirFailed: string := "Failed to read source directory"

  /**
   * `generate_ohos_project`: choose the template directory, build the
   * template data and add `lib_name` to it, then copy the template tree.
   * `templates` gives the tree held by each readable directory.
   */
  method GenerateOhosProject(
    metadata: OhosProjectMetadata,
    currentExe: Result<Path>,
    manifestDir: Path,
    existing: set<Path>,
    templates: map<Path, seq<Entry>>)
    returns (r: Result<GeneratedProject>)
    ensures var chosen := ChooseTemplateDir(currentExe, manifestDir, existing);
      && (chosen.Err? ==> r == Err(chosen.msg))
      && (chosen.Ok? && chosen.value !in templates ==> r == Err(ReadDirFailed))
      && (chosen.Ok? && chosen.value in templates ==>
            r.Ok? && r.value.tree == Filtered(templates[chosen.value]))
    ensures r.Ok? ==> var data := r.value.appData;
      && r.value.outputDir == metadata.outputDir
      && data.Keys == AppDataKeys + {"lib_name"}
      && |data| == 5
      && data["lib_name"] == metadata.libName
      && data["name"] == metadata.appName
      && data["identifier"] == metadata.bundleName
      && data["publisher"] == metadata.publisher
      && data["version"] == metadata.version
  {
    var templateDir := ChooseTemplateDir(currentExe, manifestDir, existing);
    if templateDir.Err? {
      return Err(templateDir.msg);
    }
    var appData := BuildAppData(metadata);
    appData := appData["lib_name" := metadata.libName];
    assert appData.Keys == {"name", "identifier", "publisher", "version", "lib_name"};
    if templateDir.value !in templates {
      return Err(ReadDirFailed);
    }
    var tree := CopyTemplateDir(templates[templateDir.value]);
    r := Ok(GeneratedProject(metadata.outputDir, appData, tree));
  }
}
