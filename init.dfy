/**
 * The `init` command's OpenHarmony path: deriving the project name, the
 * crate and bundle names, the ordered list of template variables, and the
 * location of the bundled OHOS template. The calls into the CLI's `create`
 * module (name derivation, the connectivity check, template resolution),
 * whose source is not part of this model, are inputs;
 * the calls that act on the outside world are recorded as actions.
 */
module InitCommand {
  import opened Wrappers
  import opened Paths

  datatype Vcs = Git | NoVcs

  /** The command-line arguments of `init`. */
  datatype Init = Init(
    path: Path,
    name: Option<string>,
    template: Option<string>,
    ohos: bool,
    branch: Option<string>,
    revision: Option<string>,
    tag: Option<string>,
    subtemplate: Option<string>,
    option: seq<string>,
    yes: bool,
    vcs: Option<Vcs>)

  datatype TemplatePath = TemplatePath(
    autoPath: Option<string>,
    branch: Option<string>,
    revision: Option<string>,
    subfolder: Option<string>,
    tag: Option<string>)

  /** What is handed to the template generator. */
  datatype GenerateArgs = GenerateArgs(
    define: seq<string>,
    destination: Option<Path>,
    init: bool,
    name: Option<string>,
    silent: bool,
    vcs: Option<Vcs>,
    templatePath: TemplatePath)

  /** The calls with outside effects that `init` makes, in the order it makes them. */
  datatype Action =
    | CheckConnectivity
    | ResolveTemplateAndBranch
    | CreateDirAll(dir: Path)
    | Generate(args: GenerateArgs)
    | InitializeVcs(vcs: Vcs, dir: Path, headBranch: string)
    | PostCreate(vcs: Vcs)

  // ---- Names ----

  predicate IsUpperAscii(c: char) { 'A' <= c <= 'Z' }

  /** Lower-casing of one character (ASCII letters only). */
  function LowerChar(c: char): (l: char)
    ensures !IsUpperAscii(l)
    ensures IsUpperAscii(c) ==> l as int == c as int + 32
    ensures !IsUpperAscii(c) ==> l == c
  {
    if IsUpperAscii(c) then (c as int + 32) as char else c
  }

  /** `s.to_lowercase()` on ASCII letters: same length, no upper-case letter left. */
  function ToLower(s: string): (l: string)
    ensures |l| == |s|
    ensures forall i :: 0 <= i < |l| ==> !IsUpperAscii(l[i])
  {
    seq(|s|, i requires 0 <= i < |s| => LowerChar(s[i]))
  }

  /**
   * `s.replace(c, r)` for a single character `c`: no `c` is left unless `r`
   * brings one, and every character comes from `s` or from `r`.
   */
  function Replace(s: string, c: char, r: string): (t: string)
    ensures c !in r ==> c !in t
    ensures forall x :: x in t ==> x in s || x in r
  {
    if s == [] then []
    else (if s[0] == c then r else [s[0]]) + Replace(s[1..], c, r)
  }

  /** The number of occurrences of `c` in `s`. */
  function Count(s: string, c: char): nat {
    if s == [] then 0 else (if s[0] == c then 1 else 0) + Count(s[1..], c)
  }

  /** The crate name: lower-cased, every `-` turned into `_`. */
  function CrateName(projectName: string): (n: string)
    ensures |n| == |projectName| && '-' !in n
  {
    ReplaceLength(ToLower(projectName), '-', "_");
    Replace(ToLower(projectName), '-', "_")
  }

  const BundlePrefix: string := "com.example."

  /** The bundle name: `com.example.` and the lower-cased name with every `-` dropped. */
  function BundleName(projectName: string): (n: string)
    ensures |n| >= |BundlePrefix| && n[..|BundlePrefix|] == BundlePrefix
    ensures '-' !in n[|BundlePrefix|..]
  {
    var n := BundlePrefix + Replace(ToLower(projectName), '-', "");
    assert n[|BundlePrefix|..] == Replace(ToLower(projectName), '-', "");
    n
  }

  lemma {:induction false} ReplaceKeepsOthers(s: string, c: char, r: string, d: char)
    requires d != c && d !in r
    ensures Count(Replace(s, c, r), d) == Count(s, d)
  {
    if s != [] {
      ReplaceKeepsOthers(s[1..], c, r, d);
      CountConcat(if s[0] == c then r else [s[0]], Replace(s[1..], c, r), d);
      if s[0] == c { CountAbsent(r, d); }
    }
  }

  lemma {:induction false} CountAbsent(s: string, d: char)
    requires d !in s
    ensures Count(s, d) == 0
  {
    if s != [] { CountAbsent(s[1..], d); }
  }

  lemma {:induction false} CountConcat(a: string, b: string, d: char)
    ensures Count(a + b, d) == Count(a, d) + Count(b, d)
  {
    if a == [] {
      assert a + b == b;
    } else {
      assert (a + b)[1..] == a[1..] + b;
      CountConcat(a[1..], b, d);
    }
  }

  /** Each `c` becomes `r`, everything else stays: the length grows by `|r| - 1` per occurrence. */
  lemma {:induction false} ReplaceLength(s: string, c: char, r: string)
    ensures |Replace(s, c, r)| == |s| + Count(s, c) * (|r| - 1)
  {
    if s != [] {
      ReplaceLength(s[1..], c, r);
    }
  }

  /** Replacing by one character maps the string position by position. */
  lemma {:induction false} ReplaceByChar(s: string, c: char, d: char, i: nat)
    requires i < |s|
    ensures |Replace(s, c, [d])| == |s|
    ensures Replace(s, c, [d])[i] == if s[i] == c then d else s[i]
  {
    ReplaceLength(s, c, [d]);
    if i > 0 {
      ReplaceByChar(s[1..], c, d, i - 1);
    }
  }

  /** The crate name has the project name's length, no `-`, no upper-case letter, and is otherwise the lower-cased name. */
  lemma CrateNameShape(projectName: string)
    ensures |CrateName(projectName)| == |projectName|
    ensures '-' !in CrateName(projectName)
    ensures forall i :: 0 <= i < |projectName| ==>
      CrateName(projectName)[i] == if projectName[i] == '-' then '_' else LowerChar(projectName[i])
    ensures forall i :: 0 <= i < |projectName| ==> !IsUpperAscii(CrateName(projectName)[i])
  {
    var lower := ToLower(projectName);
    ReplaceLength(lower, '-', "_");
    forall i | 0 <= i < |projectName|
      ensures CrateName(projectName)[i] == if projectName[i] == '-' then '_' else LowerChar(projectName[i])
    {
      ReplaceByChar(lower, '-', '_', i);
    }
  }

  /** The bundle name is the fixed prefix and a suffix with every `-` removed, every other character kept lower-cased. */
  lemma BundleNameShape(projectName: string)
    ensures BundleName(projectName)[..|BundlePrefix|] == BundlePrefix
    ensures var suffix := BundleName(projectName)[|BundlePrefix|..];
      '-' !in suffix
      && |suffix| == |projectName| - Count(projectName, '-')
      && forall i :: 0 <= i < |suffix| ==> !IsUpperAscii(suffix[i])
  {
    var lower := ToLower(projectName);
    var suffix := Replace(lower, '-', "");
    assert BundleName(projectName) == BundlePrefix + suffix;
    ReplaceLength(lower, '-', "");
    LowerKeepsDashCount(projectName);
    forall i | 0 <= i < |suffix| ensures !IsUpperAscii(suffix[i]) {
      assert suffix[i] in lower;
    }
  }

  /**
   * The bundle suffix keeps the name's order: a character that is not `-`
   * moves left by the number of `-`s before it and is lower-cased.
   */
  lemma BundleNameOrder(projectName: string)
    ensures var suffix := BundleName(projectName)[|BundlePrefix|..];
      forall i :: 0 <= i < |projectName| && projectName[i] != '-' ==>
        0 <= i - Count(projectName[..i], '-') < |suffix|
        && suffix[i - Count(projectName[..i], '-')] == LowerChar(projectName[i])
  {
    var lower := ToLower(projectName);
    var suffix := Replace(lower, '-', "");
    assert BundleName(projectName)[|BundlePrefix|..] == suffix;
    forall i | 0 <= i < |projectName| && projectName[i] != '-'
      ensures 0 <= i - Count(projectName[..i], '-') < |suffix|
      ensures suffix[i - Count(projectName[..i], '-')] == LowerChar(projectName[i])
    {
      assert lower[..i] == ToLower(projectName[..i]);
      LowerKeepsDashCount(projectName[..i]);
      ReplaceByEmpty(lower, '-', i);
    }
  }

  /** Deleting every `c` moves the character at `i` left by the number of `c`s before it. */
  lemma {:induction false} ReplaceByEmpty(s: string, c: char, i: nat)
    requires i < |s| && s[i] != c
    ensures Count(s[..i], c) <= i
    ensures i - Count(s[..i], c) < |Replace(s, c, "")|
    ensures Replace(s, c, "")[i - Count(s[..i], c)] == s[i]
  {
    if i == 0 {
      assert s[..0] == [];
    } else {
      assert s[..i][1..] == s[1..][..i - 1];
      ReplaceByEmpty(s[1..], c, i - 1);
    }
  }

  /** Lower-casing neither adds nor removes a `-`. */
  lemma {:induction false} LowerKeepsDashCount(s: string)
    ensures Count(ToLower(s), '-') == Count(s, '-')
  {
    if s != [] {
      assert ToLower(s)[1..] == ToLower(s[1..]);
      LowerKeepsDashCount(s[1..]);
    }
  }

  /** The bundle suffix keeps every character other than `-`: each one's count is the lower-cased name's. */
  lemma BundleKeepsOtherCharacters(projectName: string, d: char)
    requires d != '-'
    ensures Count(BundleName(projectName)[|BundlePrefix|..], d) == Count(ToLower(projectName), d)
  {
    assert BundleName(projectName)[|BundlePrefix|..] == Replace(ToLower(projectName), '-', "");
    ReplaceKeepsOthers(ToLower(projectName), '-', "", d);
  }

  // ---- Template variables ----

  const DefaultKeys: seq<string> := ["project_name", "crate_name", "bundle_name", "vendor", "version", "dioxus_git"]

  /** The values of the six default variables, in the order of DefaultKeys. */
  function DefaultValues(projectName: string): seq<string> {
    [projectName, CrateName(projectName), BundleName(projectName), Vendor, Version, DioxusGit]
  }

  const Vendor: string := "Example"
  const Version: string := "0.1.0"
  const DioxusGit: string := "https://github.com/DioxusLabs/dioxus"

  /** The location of the bundled template: `<manifest dir or .>/assets/ohos`. */
  function OhosTemplateDir(manifestDir: Option<Path>): (p: Path)
    ensures |p.components| >= 2 && p.components[|p.components| - 2..] == ["assets", "ohos"]
    ensures manifestDir.Some? ==>
      p.absolute == manifestDir.value.absolute
      && p.components[..|p.components| - 2] == manifestDir.value.components
    ensures manifestDir.None? ==> p == Path(false, [".", "assets", "ohos"])
  {
    Join(Join(manifestDir.GetOr(Path(false, ["."])), "assets"), "ohos")
  }

  const TemplateNotFound: string := "OHOS template not found. Please ensure dioxus-cli is properly installed."

  /**
   * `init_ohos`: build the template variables (six defaults, then the user's
   * options), check that the bundled template exists, then create the
   * destination, generate into it and initialise version control if asked.
   */
  method InitOhos(self: Init, manifestDir: Option<Path>, existing: set<Path>)
      returns (actions: seq<Action>, r: Result<()>)
    requires self.name.Some?
    ensures r.Ok? <==> OhosTemplateDir(manifestDir) in existing
    ensures r.Err? ==> actions == [] && r.msg == TemplateNotFound
    ensures r.Ok? ==>
      && |actions| == (if self.vcs.Some? then 3 else 2)
      && actions[0] == CreateDirAll(self.path)
      && actions[1].Generate?
      && (self.vcs.Some? ==> actions[2] == InitializeVcs(self.vcs.value, self.path, "main"))
    ensures r.Ok? ==> var args := actions[1].args;
      && |args.define| == |DefaultKeys| + |self.option|
      && (forall i :: 0 <= i < |DefaultKeys| ==>
            args.define[i] == DefaultKeys[i] + "=" + DefaultValues(self.name.value)[i])
      && args.define[|DefaultKeys|..] == self.option
      && args.destination == Some(self.path)
      && args.init
      && args.name == self.name
      && args.silent == self.yes
      && args.vcs == self.vcs
      && args.templatePath == TemplatePath(Some(Display(OhosTemplateDir(manifestDir))), None, None, None, None)
  {
    var projectName := self.name.value;
    var crateName := CrateName(projectName);
    var bundleName := BundleName(projectName);

    var define := [
      "project_name=" + projectName,
      "crate_name=" + crateName,
      "bundle_name=" + bundleName,
      "vendor=" + Vendor,
      "version=" + Version,
      "dioxus_git=" + DioxusGit
    ];
    ghost var values := DefaultValues(projectName);
    assert define[0] == DefaultKeys[0] + "=" + values[0];
    assert define[1] == DefaultKeys[1] + "=" + values[1];
    assert define[2] == DefaultKeys[2] + "=" + values[2];
    assert define[3] == DefaultKeys[3] + "=" + values[3];
    assert define[4] == DefaultKeys[4] + "=" + values[4];
    assert define[5] == DefaultKeys[5] + "=" + values[5];
    // User options come after the defaults.
    define := define + self.option;

    var templatePath := OhosTemplateDir(manifestDir);
    if templatePath !in existing {
      return [], Err(TemplateNotFound);
    }

    actions := [CreateDirAll(self.path)];
    var args := GenerateArgs(define, Some(self.path), true, self.name, self.yes, self.vcs,
                             TemplatePath(Some(Display(templatePath)), None, None, None, None));
    actions := actions + [Generate(args)];
    if self.vcs.Some? {
      actions := actions + [InitializeVcs(self.vcs.value, self.path, "main")];
    }
    r := Ok(());
  }

  /** The name the command works with: the one given, else the one derived from the path. */
  function EffectiveName(self: Init, derivedName: Result<string>): (n: Option<string>)
    ensures self.name.Some? ==> n == self.name
    ensures self.name.None? && derivedName.Ok? ==> n == Some(derivedName.value)
    ensures n.None? <==> self.name.None? && derivedName.Err?
  {
    if self.name.Some? then self.name
    else if derivedName.Ok? then Some(derivedName.value)
    else None
  }

  /**
   * `init`: fill in a missing name, dispatch to the OHOS path at once when
   * asked, and otherwise check connectivity (only without a template),
   * resolve the template and branch, create the destination and generate.
   */
  method InitProject(
    self: Init,
    derivedName: Result<string>,
    connectivity: Result<()>,
    resolve: (Option<string>, Option<string>) -> (Option<string>, Option<string>),
    manifestDir: Option<Path>,
    existing: set<Path>)
    returns (actions: seq<Action>, r: Result<()>)
    // A failed name derivation stops everything.
    ensures EffectiveName(self, derivedName).None? ==> actions == [] && r == Err(derivedName.msg)
    // The OHOS path never checks connectivity nor resolves a template.
    ensures self.ohos ==> CheckConnectivity !in actions && ResolveTemplateAndBranch !in actions
    ensures self.ohos && EffectiveName(self, derivedName).Some? ==>
      (r.Ok? <==> OhosTemplateDir(manifestDir) in existing)
    // A failed OHOS path does nothing.
    ensures self.ohos && r.Err? ==> actions == []
    // On success the OHOS path creates the destination, then generates from the bundled
    // template with the six defaults for the effective name ahead of the user's options.
    ensures self.ohos && r.Ok? ==>
      && |actions| >= 2
      && actions[0] == CreateDirAll(self.path)
      && actions[1].Generate?
      && |actions[1].args.define| == |DefaultKeys| + |self.option|
      && actions[1].args.define[|DefaultKeys|..] == self.option
      && (forall i :: 0 <= i < |DefaultKeys| ==>
            actions[1].args.define[i]
            == DefaultKeys[i] + "=" + DefaultValues(EffectiveName(self, derivedName).value)[i])
      && actions[1].args.templatePath.autoPath == Some(Display(OhosTemplateDir(manifestDir)))
      && actions[1].args.destination == Some(self.path)
      && |actions| == (if self.vcs.Some? then 3 else 2)
      && (self.vcs.Some? ==> actions[2] == InitializeVcs(self.vcs.value, self.path, "main"))
    // The other path checks connectivity exactly when no template is given, and fails only there.
    ensures !self.ohos && EffectiveName(self, derivedName).Some? ==>
      && (CheckConnectivity in actions <==> self.template.None?)
      && (r.Err? <==> self.template.None? && connectivity.Err?)
      && (r.Ok? ==> ResolveTemplateAndBranch in actions)
    // Whatever is generated carries the effective name.
    ensures forall a :: a in actions && a.Generate? ==> a.args.name == EffectiveName(self, derivedName)
    ensures !self.ohos && r.Ok? ==>
      exists a :: (a in actions && a.Generate?
        && a.args.define == self.option
        && a.args.templatePath.autoPath == resolve(self.template, self.branch).0
        && a.args.templatePath.branch == resolve(self.template, self.branch).1)
  {
    var s := self;
    if s.name.None? {
      if derivedName.Err? {
        return [], Err(derivedName.msg);
      }
      s := s.(name := Some(derivedName.value));
    }

    if s.ohos {
      actions, r := InitOhos(s, manifestDir, existing);
      return;
    }

    actions := [];
    if s.template.None? {
      actions := actions + [CheckConnectivity];
      if connectivity.Err? {
        return actions, Err(connectivity.msg);
      }
    }

    var (template, branch) := resolve(s.template, s.branch);
    actions := actions + [ResolveTemplateAndBranch];
    s := s.(template := template, branch := branch);

    actions := actions + [CreateDirAll(s.path)];
    var args := GenerateArgs(s.option, Some(s.path), true, s.name, s.yes, s.vcs,
                             TemplatePath(s.template, s.branch, s.revision, s.subtemplate, s.tag));
    actions := actions + [Generate(args), PostCreate(s.vcs.GetOr(Git))];
    assert actions[|actions| - 2] == Generate(args);
    r := Ok(());
  }

  /** Without the manifest variable the template is looked for at `./assets/ohos`. */
  lemma DefaultTemplateDir()
    ensures Display(OhosTemplateDir(None)) == "./assets/ohos"
  {
  }
}
