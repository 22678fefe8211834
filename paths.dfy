/**
 * The slice of Rust's `PathBuf` that the OpenHarmony tooling relies on: a path
 * is an absolute flag (a leading root) and a sequence of components, `join`
 * appends relative components, `parent` drops the last one and `display`
 * renders the path with `/` separators.
 */
module Paths {
  import opened Wrappers

  /** A path component; the components Rust yields are never empty. */
  type Component = s: string | |s| > 0 witness "."

  datatype Path = Path(absolute: bool, components: seq<Component>)

  /** `p.join(c)` for a relative, single-component `c`. */
  function Join(p: Path, c: Component): Path {
    Path(p.absolute, p.components + [c])
  }

  /** `p.join("a/b/...")` for a relative multi-component argument. */
  function JoinAll(p: Path, cs: seq<Component>): Path {
    Path(p.absolute, p.components + cs)
  }

  /** `p.parent()`: none for the root and for the empty path. */
  function Parent(p: Path): (r: Option<Path>)
    ensures r.Some? <==> |p.components| > 0
    ensures r.Some? ==> Join(r.value, p.components[|p.components| - 1]) == p
  {
    if |p.components| == 0 then None
    else Some(Path(p.absolute, p.components[..|p.components| - 1]))
  }

  /** The components separated by `sep`. */
  function Intercalate(cs: seq<Component>, sep: string): string
  {
    if |cs| == 0 then ""
    else if |cs| == 1 then cs[0]
    else cs[0] + sep + Intercalate(cs[1..], sep)
  }

  /** `p.display()` on a platform whose separator is `/`. */
  function Display(p: Path): string {
    (if p.absolute then "/" else "") + Intercalate(p.components, "/")
  }

  lemma {:induction false} IntercalateSnoc(cs: seq<Component>, c: Component, sep: string)
    ensures Intercalate(cs + [c], sep) == Intercalate(cs, sep) + (if cs == [] then "" else sep) + c
    decreases |cs|
  {
    if |cs| == 0 {
      assert cs + [c] == [c];
    } else if |cs| == 1 {
      assert (cs + [c])[1..] == [c];
    } else {
      assert (cs + [c])[1..] == cs[1..] + [c];
      IntercalateSnoc(cs[1..], c, sep);
    }
  }

  /** Joining one component extends the rendering by a separator (if needed) and the component. */
  lemma DisplayJoin(p: Path, c: Component)
    ensures Display(Join(p, c)) == Display(p) + (if p.components == [] then "" else "/") + c
  {
    IntercalateSnoc(p.components, c, "/");
  }

  /** Joining several components, one after another, is the same as joining them at once. */
  lemma {:induction false} JoinAllIsRepeatedJoin(p: Path, cs: seq<Component>)
    ensures |cs| > 0 ==> JoinAll(p, cs) == Join(JoinAll(p, cs[..|cs| - 1]), cs[|cs| - 1])
  {
  }
}
