/** Workspace paths and the two containment guards found in the source.

    A resolved absolute path is a sequence of segments (the root directory is
    the empty sequence). `Resolve` is `(root / p).resolve()` without symlinks:
    an absolute `p` replaces the root, empty and `.` segments vanish, and `..`
    removes the last segment (staying at `/`).

    The command-line agents accept a resolved path when it `is_relative_to`
    the workspace, a segment-wise prefix test. The networked backend accepts
    it when its string `startswith` the workspace's string, which also lets
    through siblings whose name extends the workspace's last segment
    (`/ws/s1` admits `/ws/s10/...`). `StringGuardIff` states exactly which
    paths the string guard accepts. */
module Paths {
  import opened Wrappers
  import opened Text

  type Path = seq<string>

  predicate ValidSegment(x: string)
  {
    x != "" && x != "." && x != ".." && '/' !in x
  }

  predicate ValidPath(p: Path)
  {
    forall k :: 0 <= k < |p| ==> ValidSegment(p[k])
  }

  /** Lexical normalisation of the `/`-separated `parts`, starting at `base`. */
  function Normalize(base: Path, parts: seq<string>): (r: Path)
    requires ValidPath(base)
    requires forall k :: 0 <= k < |parts| ==> '/' !in parts[k]
    ensures ValidPath(r)
    decreases |parts|
  {
    if parts == [] then base
    else
      var x := parts[0];
      var next :=
        if x == "" || x == "." then base
        else if x == ".." then (if base == [] then [] else base[..|base| - 1])
        else base + [x];
      Normalize(next, parts[1..])
  }

  predicate IsAbsolute(p: string)
  {
    |p| > 0 && p[0] == '/'
  }

  /** `(root / p).resolve()`, lexically. */
  function Resolve(root: Path, p: string): (r: Path)
    requires ValidPath(root)
    ensures ValidPath(r)
  {
    SplitOnPiecesFree(p, '/');
    Normalize(if IsAbsolute(p) then [] else root, SplitOn(p, '/'))
  }

  /** `str(path)` of a resolved path. */
  function Render(p: Path): (s: string)
    ensures |s| >= 1 && s[0] == '/'
  {
    if p == [] then "/" else Slashed(p)
  }

  function Slashed(p: Path): (s: string)
    ensures s == [] || s[0] == '/'
  {
    if p == [] then "" else "/" + p[0] + Slashed(p[1..])
  }

  /** `path.is_relative_to(root)`: the root's segments are a prefix of the path's. */
  predicate IsRelativeTo(path: Path, root: Path)
  {
    root <= path
  }

  /** `str(path).startswith(str(root))`. */
  predicate StringGuard(path: Path, root: Path)
  {
    Render(root) <= Render(path)
  }

  /** The paths the string guard lets through, described segment by segment:
      all segments of the root but the last agree, and the root's last
      segment is a string prefix of the path's segment at that position. */
  predicate SegmentwisePrefix(path: Path, root: Path)
  {
    root == []
    || (|root| <= |path| && root[..|root| - 1] == path[..|root| - 1]
        && root[|root| - 1] <= path[|root| - 1])
  }

  // ---------------------------------------------------------------------
  // The guards as the tools use them
  // ---------------------------------------------------------------------

  /** `safe_path` of the command-line agents. */
  function SafePath(root: Path, p: string): (r: Result<Path, string>)
    requires ValidPath(root)
    ensures r.Ok? <==> IsRelativeTo(Resolve(root, p), root)
    ensures r.Ok? ==> r.value == Resolve(root, p) && root <= r.value
    ensures r.Err? ==> r.error == "Path escapes workspace: " + p
  {
    var path := Resolve(root, p);
    if IsRelativeTo(path, root) then Ok(path) else Err("Path escapes workspace: " + p)
  }

  /** `AgentSession.safe_path` of the backend. */
  function PrefixSafePath(root: Path, p: string): (r: Result<Path, string>)
    requires ValidPath(root)
    ensures r.Ok? <==> SegmentwisePrefix(Resolve(root, p), root)
    ensures r.Ok? ==> r.value == Resolve(root, p)
    ensures r.Err? ==> r.error == "Path escapes workspace: " + p
  {
    var path := Resolve(root, p);
    StringGuardIff(path, root);
    if StringGuard(path, root) then Ok(path) else Err("Path escapes workspace: " + p)
  }

  // ---------------------------------------------------------------------
  // The relation between the two guards
  // ---------------------------------------------------------------------

  lemma PrefixAfterSlash(u: string, v: string)
    ensures ("/" + u <= "/" + v) <==> u <= v
  {
    if "/" + u <= "/" + v {
      assert u == ("/" + u)[1..] == ("/" + v)[1..|u| + 1] == v[..|u|];
    }
  }

  lemma PrefixAt(u: string, w: string, i: int)
    requires u <= w && 0 <= i < |u|
    ensures u[i] == w[i]
  {
  }

  /** The root's last segment against the path's segment at the same place. */
  lemma LastSegmentPrefix(a: string, b: string, y: string)
    requires '/' !in a && '/' !in b
    requires y == [] || y[0] == '/'
    ensures (a <= b + y) <==> a <= b
  {
    if a <= b + y {
      if |a| <= |b| {
        assert a == (b + y)[..|a|] == b[..|a|];
      } else {
        PrefixAt(a, b + y, |b|);
        assert false;
      }
    }
  }

  /** An inner segment of the root must equal the path's segment. */
  lemma InnerSegmentPrefix(a: string, b: string, x: string, y: string)
    requires '/' !in a && '/' !in b
    requires x != [] && x[0] == '/'
    requires y == [] || y[0] == '/'
    ensures (a + x <= b + y) <==> a == b && x <= y
  {
    if a + x <= b + y {
      if |a| < |b| {
        PrefixAt(a + x, b + y, |a|);
        assert false;
      } else if |a| > |b| {
        PrefixAt(a + x, b + y, |b|);
        assert false;
      } else {
        assert a == (a + x)[..|a|] == (b + y)[..|a|] == b;
        assert x == (a + x)[|a|..] == (b + y)[|a|..|a| + |x|] == y[..|x|];
      }
    }
  }

  lemma {:induction false} SlashedPrefix(path: Path, root: Path)
    requires ValidPath(path) && ValidPath(root) && root != []
    ensures Slashed(root) <= Slashed(path) <==> SegmentwisePrefix(path, root)
    decreases |root|
  {
    var r0, rs := root[0], root[1..];
    assert Slashed(root) == "/" + (r0 + Slashed(rs));
    assert ValidSegment(r0);
    if path == [] {
      assert |Slashed(root)| > 0;
    } else {
      var p0, ps := path[0], path[1..];
      assert Slashed(path) == "/" + (p0 + Slashed(ps));
      assert ValidSegment(p0);
      PrefixAfterSlash(r0 + Slashed(rs), p0 + Slashed(ps));
      if rs == [] {
        LastSegmentPrefix(r0, p0, Slashed(ps));
        assert r0 + Slashed(rs) == r0;
      } else {
        assert ValidSegment(rs[0]);
        InnerSegmentPrefix(r0, p0, Slashed(rs), Slashed(ps));
        assert ValidPath(ps) && ValidPath(rs);
        if ps == [] {
          assert !(Slashed(rs) <= Slashed(ps));
          assert !SegmentwisePrefix(ps, rs);
        } else {
          SlashedPrefix(ps, rs);
        }
        assert root[..|root| - 1] == [r0] + rs[..|rs| - 1];
        assert |path| >= |root| ==> path[..|root| - 1] == [p0] + ps[..|rs| - 1];
      }
    }
  }

  /** The string guard accepts exactly the segment-wise prefixes. */
  lemma StringGuardIff(path: Path, root: Path)
    requires ValidPath(path) && ValidPath(root)
    ensures StringGuard(path, root) <==> SegmentwisePrefix(path, root)
  {
    if root != [] {
      if path == [] {
        assert |Slashed(root)| > 1;
      } else {
        SlashedPrefix(path, root);
      }
    }
  }

  /** Every path `is_relative_to` accepts, the string guard accepts too. */
  lemma ComponentGuardImpliesStringGuard(path: Path, root: Path)
    requires ValidPath(path) && ValidPath(root)
    requires IsRelativeTo(path, root)
    ensures StringGuard(path, root)
  {
    StringGuardIff(path, root);
  }

  /** The path lies beside the workspace rather than in it: it agrees with
      the root up to the root's last segment, which it strictly extends. */
  predicate SiblingOf(path: Path, root: Path)
  {
    root != [] && |root| <= |path| && root[..|root| - 1] == path[..|root| - 1]
    && root[|root| - 1] < path[|root| - 1]
  }

  /** Segment-wise prefixes are the descendants plus the siblings. */
  lemma SegmentwisePrefixCases(path: Path, root: Path)
    ensures SegmentwisePrefix(path, root) <==> IsRelativeTo(path, root) || SiblingOf(path, root)
  {
    if root != [] && |root| <= |path| {
      var n := |root| - 1;
      if root[..n] == path[..n] && root[n] == path[n] {
        assert root == root[..n] + [root[n]];
        assert path[..n + 1] == path[..n] + [path[n]];
      }
      if IsRelativeTo(path, root) {
        assert path[..n] == root[..n] && path[n] == root[n];
      }
    }
  }

  /** The backend's guard accepts exactly what `is_relative_to` accepts plus
      the siblings of the workspace. */
  lemma PrefixGuardIsComponentGuardPlusSiblings(root: Path, p: string)
    requires ValidPath(root)
    ensures PrefixSafePath(root, p).Ok? <==>
      SafePath(root, p).Ok? || SiblingOf(Resolve(root, p), root)
    ensures SafePath(root, p).Ok? ==> PrefixSafePath(root, p) == SafePath(root, p)
  {
    SegmentwisePrefixCases(Resolve(root, p), root);
  }

  /** Every workspace below `/` has an escaping request the backend lets
      through: `../m`, where the name `m` strictly extends the workspace's own
      name (from `/ws/s1`, the request `../s10`). */
  lemma StringGuardAdmitsSibling(root: Path, m: string)
    requires ValidPath(root) && root != []
    requires ValidSegment(m) && root[|root| - 1] < m
    ensures Resolve(root, "../" + m) == root[..|root| - 1] + [m]
    ensures PrefixSafePath(root, "../" + m).Ok?
    ensures SafePath(root, "../" + m).Err?
  {
    var p := "../" + m;
    assert p == ".." + ['/'] + m;
    SplitOnFree(m, '/');
    SplitOnPiece("..", '/', m);
    assert SplitOn(p, '/') == ["..", m];
    assert !IsAbsolute(p);
    var path := root[..|root| - 1] + [m];
    assert Normalize(root, ["..", m]) == Normalize(root[..|root| - 1], [m]);
    assert Resolve(root, p) == path;
    assert path[..|root| - 1] == root[..|root| - 1];
    assert SiblingOf(path, root);
    assert !IsRelativeTo(path, root);
    PrefixGuardIsComponentGuardPlusSiblings(root, p);
  }

  // ---------------------------------------------------------------------
  // Which requests stay inside
  // ---------------------------------------------------------------------

  /** Normalising parts without `..` only extends the base. */
  lemma {:induction false} NormalizeExtends(base: Path, parts: seq<string>)
    requires ValidPath(base)
    requires forall k :: 0 <= k < |parts| ==> '/' !in parts[k] && parts[k] != ".."
    ensures base <= Normalize(base, parts)
    decreases |parts|
  {
    if parts != [] {
      var x := parts[0];
      var next := if x == "" || x == "." then base else base + [x];
      NormalizeExtends(next, parts[1..]);
    }
  }

  /** A relative request with no `..` segment always resolves inside the
      workspace, so `safe_path` accepts it. */
  lemma RelativeWithoutDotDotIsSafe(root: Path, p: string)
    requires ValidPath(root)
    requires !IsAbsolute(p)
    requires forall k :: 0 <= k < |SplitOn(p, '/')| ==> SplitOn(p, '/')[k] != ".."
    ensures SafePath(root, p).Ok?
  {
    SplitOnPiecesFree(p, '/');
    NormalizeExtends(root, SplitOn(p, '/'));
  }

  /** `..` can climb out of any workspace below `/`. */
  lemma DotDotEscapes(root: Path)
    requires ValidPath(root) && root != []
    ensures SafePath(root, "..").Err?
  {
    SplitOnFree("..", '/');
    assert !IsAbsolute("..");
    assert Normalize(root, [".."]) == Normalize(root[..|root| - 1], []);
    assert Resolve(root, "..") == root[..|root| - 1];
  }
}
