/**
 * `relativize_path(base, target)` from the CLI's path helper: strip the longest
 * common prefix of the two component sequences, then emit one `..` for every
 * target component left over, followed by the base components left over; an
 * empty result becomes `.`.
 *
 * Both inputs are taken as already-canonical component sequences that share
 * their root, so the root itself is not part of the sequences.
 */
module RelativePath {
  import opened Paths

  const ParentDir: Component := ".."
  const CurDir: Component := "."

  /** The length of the longest common prefix of `a` and `b`. */
  function CommonPrefixLen(a: seq<Component>, b: seq<Component>): (k: nat)
    ensures k <= |a| && k <= |b|
  {
    if |a| == 0 || |b| == 0 || a[0] != b[0] then 0
    else 1 + CommonPrefixLen(a[1..], b[1..])
  }

  /** `n` parent-directory components. */
  function Ups(n: nat): (r: seq<Component>)
    ensures |r| == n && forall i :: 0 <= i < n ==> r[i] == ParentDir
  {
    if n == 0 then [] else Ups(n - 1) + [ParentDir]
  }

  /** What `relativize_path` returns, stated over component sequences. */
  function Relative(base: seq<Component>, target: seq<Component>): (r: seq<Component>)
    ensures |r| > 0
  {
    var k := CommonPrefixLen(base, target);
    var joined := Ups(|target| - k) + base[k..];
    if joined == [] then [CurDir] else joined
  }

  /**
   * The loop of `relativize_path`: advance both component iterators while
   * they agree, collect what is left of each, then push one `..` per
   * remaining target component and every remaining base component.
   */
  method RelativizePath(base: seq<Component>, target: seq<Component>) returns (result: seq<Component>)
    ensures result == Relative(base, target)
  {
    var i := 0;
    while i < |base| && i < |target| && base[i] == target[i]
      invariant i <= |base| && i <= |target|
      invariant CommonPrefixLen(base, target) == i + CommonPrefixLen(base[i..], target[i..])
    {
      CommonPrefixStep(base, target, i);
      i := i + 1;
    }
    assert CommonPrefixLen(base[i..], target[i..]) == 0;
    ghost var k := i;

    // The first mismatching pair, then the rest of each iterator.
    var remainingBase := Remaining(base, i);
    var remainingTarget := Remaining(target, i);

    result := [];
    for n := 0 to |remainingTarget|
      invariant result == Ups(n)
    {
      result := result + [ParentDir];
    }
    assert result == Ups(|remainingTarget|) + remainingBase[..0];
    for n := 0 to |remainingBase|
      invariant result == Ups(|remainingTarget|) + remainingBase[..n]
    {
      assert remainingBase[..n + 1] == remainingBase[..n] + [remainingBase[n]];
      result := result + [remainingBase[n]];
    }
    assert remainingBase[..|remainingBase|] == base[k..];
    assert result == Ups(|target| - CommonPrefixLen(base, target)) + base[CommonPrefixLen(base, target)..];
    // An empty `PathBuf` is exactly one without components.
    if result == [] {
      result := result + [CurDir];
    }
  }

  /**
   * What is left of a component iterator that has yielded `i` items: the
   * `i`-th item (if any) is pushed, then everything after it.
   */
  method Remaining(s: seq<Component>, i: nat) returns (rest: seq<Component>)
    requires i <= |s|
    ensures rest == s[i..]
  {
    rest := [];
    var j := i;
    if j < |s| {
      rest := rest + [s[j]];
      j := j + 1;
    }
    while j < |s|
      invariant i <= j <= |s|
      invariant rest == s[i..j]
    {
      rest := rest + [s[j]];
      j := j + 1;
    }
  }

  lemma CommonPrefixStep(a: seq<Component>, b: seq<Component>, i: nat)
    requires i < |a| && i < |b| && a[i] == b[i]
    ensures CommonPrefixLen(a[i..], b[i..]) == 1 + CommonPrefixLen(a[i + 1..], b[i + 1..])
  {
  }

  /** A common prefix as long as both sequences means they are equal. */
  lemma {:induction false} FullCommonPrefix(a: seq<Component>, b: seq<Component>)
    ensures CommonPrefixLen(a, b) == |a| == |b| ==> a == b
  {
    if |a| > 0 && |b| > 0 && a[0] == b[0] {
      FullCommonPrefix(a[1..], b[1..]);
      if CommonPrefixLen(a, b) == |a| == |b| {
        assert a == [a[0]] + a[1..] && b == [b[0]] + b[1..];
      }
    }
  }

  lemma {:induction false} CommonPrefixIsLongest(a: seq<Component>, b: seq<Component>)
    ensures var k := CommonPrefixLen(a, b);
      a[..k] == b[..k] && (k == |a| || k == |b| || a[k] != b[k])
  {
    if |a| > 0 && |b| > 0 && a[0] == b[0] {
      CommonPrefixIsLongest(a[1..], b[1..]);
      var k := CommonPrefixLen(a, b);
      assert a[..k] == [a[0]] + a[1..][..k - 1];
      assert b[..k] == [b[0]] + b[1..][..k - 1];
    }
  }

  /** A sequence's common prefix with any extension of it is the whole sequence. */
  lemma {:induction false} CommonPrefixOfPrefix(a: seq<Component>, b: seq<Component>)
    requires |a| <= |b| && b[..|a|] == a
    ensures CommonPrefixLen(a, b) == |a|
  {
    if |a| > 0 {
      assert a[1..] == b[1..][..|a| - 1];
      CommonPrefixOfPrefix(a[1..], b[1..]);
    }
  }

  lemma CommonPrefixSymmetric(a: seq<Component>, b: seq<Component>)
    ensures CommonPrefixLen(a, b) == CommonPrefixLen(b, a)
  {
  }

  /** Relativising a path against itself gives `.`. */
  lemma RelativeToSelf(p: seq<Component>)
    ensures Relative(p, p) == [CurDir]
  {
    CommonPrefixOfPrefix(p, p);
  }

  /**
   * Whenever the two paths differ, the result is the `..` run, one per target
   * component after the common prefix, followed by the base components after
   * it, in their order.
   */
  lemma RelativeLayout(base: seq<Component>, target: seq<Component>)
    requires base != target
    ensures var k := CommonPrefixLen(base, target);
      var r := Relative(base, target);
      |r| == (|target| - k) + (|base| - k)
      && (forall i :: 0 <= i < |target| - k ==> r[i] == ParentDir)
      && r[|target| - k..] == base[k..]
  {
    FullCommonPrefix(base, target);
  }

  /** Both paths equal is the only way to get `.`, given canonical inputs. */
  lemma RelativeIsCurDirOnlyForSamePath(base: seq<Component>, target: seq<Component>)
    requires CurDir !in base
    ensures Relative(base, target) == [CurDir] <==> base == target
  {
    if base == target {
      RelativeToSelf(base);
    } else {
      RelativeLayout(base, target);
      var k := CommonPrefixLen(base, target);
      var r := Relative(base, target);
      if |target| - k > 0 {
        assert r[0] == ParentDir;
      } else {
        assert r[0] == base[k];
      }
    }
  }

  /** A base that is a strict prefix of the target gives only `..` components, one per extra target component. */
  lemma BaseIsPrefixOfTarget(base: seq<Component>, target: seq<Component>)
    requires |base| < |target| && target[..|base|] == base
    ensures Relative(base, target) == Ups(|target| - |base|)
  {
    CommonPrefixOfPrefix(base, target);
  }

  /** A target that is a strict prefix of the base gives the base suffix, with no `..` run. */
  lemma TargetIsPrefixOfBase(base: seq<Component>, target: seq<Component>)
    requires |target| < |base| && base[..|target|] == target
    ensures Relative(base, target) == base[|target|..]
  {
    CommonPrefixOfPrefix(target, base);
    CommonPrefixSymmetric(target, base);
  }

  /** The two calls of the helper's `main`. */
  lemma MainExamples()
    ensures Relative(["Users", "devel0per", "Code", "ohosdemo", "gen-ohos"],
                     ["Users", "devel0per", "Code", "ohosdemo", "gen-ohos", "entry"]) == [ParentDir]
    ensures Relative(["Users", "devel0per", "Code", "ohosdemo"],
                     ["Users", "devel0per", "Code", "ohosdemo", "gen-ohos", "entry"]) == [ParentDir, ParentDir]
  {
  }

  // ---- Resolving a relative path: the inverse direction ----

  /** One step of walking a relative path from `dir`: `..` goes up (not above the root), `.` stays. */
  function Step(dir: seq<Component>, c: Component): seq<Component> {
    if c == ParentDir then (if dir == [] then [] else dir[..|dir| - 1])
    else if c == CurDir then dir
    else dir + [c]
  }

  /** The directory reached by following `rel` from `dir`. */
  function Resolve(dir: seq<Component>, rel: seq<Component>): seq<Component>
    decreases |rel|
  {
    if rel == [] then dir else Resolve(Step(dir, rel[0]), rel[1..])
  }

  /** A canonical component sequence: no `.` and no `..`. */
  predicate Canonical(p: seq<Component>) {
    forall i :: 0 <= i < |p| ==> p[i] != ParentDir && p[i] != CurDir
  }

  /** Walking `n` ups then `rest` is walking `rest` from `n` levels higher. */
  lemma {:induction false} ResolveUps(dir: seq<Component>, n: nat, rest: seq<Component>)
    requires n <= |dir|
    ensures Resolve(dir, Ups(n) + rest) == Resolve(dir[..|dir| - n], rest)
    decreases n
  {
    if n == 0 {
      assert Ups(0) + rest == rest;
      assert dir[..|dir|] == dir;
    } else {
      // Ups(n) + rest == [..] + (Ups(n - 1) + rest), since every element is `..`.
      assert Ups(n) + rest == [ParentDir] + (Ups(n - 1) + rest) by {
        assert Ups(n) == [ParentDir] + Ups(n - 1) by {
          UpsCons(n);
        }
      }
      assert ([ParentDir] + (Ups(n - 1) + rest))[1..] == Ups(n - 1) + rest;
      var up := dir[..|dir| - 1];
      assert Step(dir, ParentDir) == up;
      ResolveUps(up, n - 1, rest);
      assert up[..|up| - (n - 1)] == dir[..|dir| - n];
    }
  }

  lemma {:induction false} UpsCons(n: nat)
    requires n > 0
    ensures Ups(n) == [ParentDir] + Ups(n - 1)
  {
  }

  /** Following canonical components from `dir` appends them. */
  lemma {:induction false} ResolveCanonical(dir: seq<Component>, cs: seq<Component>)
    requires Canonical(cs)
    ensures Resolve(dir, cs) == dir + cs
    decreases |cs|
  {
    if cs != [] {
      ResolveCanonical(dir + [cs[0]], cs[1..]);
      assert dir + [cs[0]] + cs[1..] == dir + cs;
    }
  }

  /**
   * The relative path leads from `target` back to `base`: walking the result,
   * starting at `target`, arrives at `base` whenever `base` is canonical.
   */
  lemma RelativeRoundTrip(base: seq<Component>, target: seq<Component>)
    requires Canonical(base)
    ensures Resolve(target, Relative(base, target)) == base
  {
    var k := CommonPrefixLen(base, target);
    CommonPrefixIsLongest(base, target);
    var joined := Ups(|target| - k) + base[k..];
    if joined == [] {
      assert base == base[..k] == target[..k] == target;
      assert Resolve(target, [CurDir]) == target;
    } else {
      ResolveUps(target, |target| - k, base[k..]);
      assert target[..|target| - (|target| - k)] == base[..k];
      ResolveCanonical(base[..k], base[k..]);
      assert base[..k] + base[k..] == base;
    }
  }
}
