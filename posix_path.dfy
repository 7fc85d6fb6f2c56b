/**
 * The part of Python's `pathlib.PurePosixPath` that the SSM source relies on:
 * `is_absolute()`, parsing into root and segments, and `relative_to(...).as_posix()`.
 */
module PosixPath {
  import opened Results

  /** `PurePosixPath(p).is_absolute()`: the raw text starts with a slash. */
  predicate IsAbsolute(p: string) {
    |p| > 0 && p[0] == '/'
  }

  /**
   * The root as `posixpath.splitroot` computes it: exactly two leading slashes
   * are a root of their own, one or three and more collapse to "/".
   */
  function Root(p: string): (r: string)
    ensures r == "" <==> !IsAbsolute(p)
  {
    if |p| >= 2 && p[0] == '/' && p[1] == '/' && !(|p| >= 3 && p[2] == '/') then "//"
    else if |p| >= 1 && p[0] == '/' then "/"
    else ""
  }

  /** `s.split('/')`. */
  function Split(s: string): (r: seq<string>)
    ensures |r| >= 1
  {
    if s == [] then [""]
    else
      var rest := Split(s[1..]);
      if s[0] == '/' then [""] + rest
      else [[s[0]] + rest[0]] + rest[1..]
  }

  /** Drops the empty and "." parts, as pathlib does when it parses a path. */
  function Clean(parts: seq<string>): seq<string>
  {
    if parts == [] then []
    else (if parts[0] == "" || parts[0] == "." then [] else [parts[0]]) + Clean(parts[1..])
  }

  /** The segments of a path below its root (`PurePath._tail`). */
  function Segments(p: string): seq<string> {
    Clean(Split(p))
  }

  /** `'/'.join(segs)`. */
  function Join(segs: seq<string>): string
  {
    if segs == [] then ""
    else if |segs| == 1 then segs[0]
    else segs[0] + "/" + Join(segs[1..])
  }

  /** Segments that survive parsing unchanged: non-empty, not ".", slash-free. */
  predicate CleanSegments(segs: seq<string>) {
    forall i :: 0 <= i < |segs| ==> segs[i] != "" && segs[i] != "." && '/' !in segs[i]
  }

  /**
   * `PurePosixPath(path).relative_to(base).as_posix()`: `None` stands for the
   * `ValueError` raised when `base` is neither `path` nor one of its parents.
   * An empty remainder prints as ".". The result is a relative path which,
   * parsed again, gives exactly the segments of `path` below those of `base`.
   */
  function RelativeTo(path: string, base: string): (r: Option<string>)
    ensures r.Some? ==> Root(path) == Root(base)
    ensures r.Some? ==> Segments(path) == Segments(base) + Segments(r.value)
    ensures r.Some? ==> !IsAbsolute(r.value)
  {
    var pt, bt := Segments(path), Segments(base);
    if Root(path) == Root(base) && |bt| <= |pt| && pt[..|bt|] == bt then
      if |pt| == |bt| then
        DotHasNoSegments();
        Some(".")
      else
        SegmentsAreClean(path);
        RemainderOfPrefix(pt, bt);
        Some(Join(pt[|bt|..]))
    else None
  }

  /** The name a parameter `rel` has below `base` in the store: one slash between them. */
  function ChildPath(base: string, rel: string): string
  {
    if |base| > 0 && base[|base| - 1] == '/' then base + rel else base + "/" + rel
  }

  lemma {:induction false} SplitAppend(a: string, b: string)
    ensures Split(a + "/" + b) == Split(a) + Split(b)
  {
    if a == [] {
      assert a + "/" + b == "/" + b;
      assert ("/" + b)[1..] == b;
    } else {
      assert (a + "/" + b)[1..] == a[1..] + "/" + b;
      SplitAppend(a[1..], b);
    }
  }

  lemma {:induction false} CleanAppend(x: seq<string>, y: seq<string>)
    ensures Clean(x + y) == Clean(x) + Clean(y)
  {
    if x == [] {
      assert x + y == y;
    } else {
      assert (x + y)[1..] == x[1..] + y;
      CleanAppend(x[1..], y);
    }
  }

  lemma {:induction false} SplitNoSlash(s: string)
    requires '/' !in s
    ensures Split(s) == [s]
  {
    if s != [] {
      SplitNoSlash(s[1..]);
      assert [s[0]] + s[1..] == s;
    }
  }

  /** Joining clean segments and parsing the result gives the segments back. */
  lemma {:induction false} SegmentsOfJoin(segs: seq<string>)
    requires CleanSegments(segs)
    ensures Split(Join(segs)) == (if segs == [] then [""] else segs)
    ensures Segments(Join(segs)) == segs
  {
    if segs == [] {
    } else if |segs| == 1 {
      SplitNoSlash(segs[0]);
      assert Clean([segs[0]]) == [segs[0]] + Clean([]);
    } else {
      SegmentsOfJoin(segs[1..]);
      SplitNoSlash(segs[0]);
      SplitAppend(segs[0], Join(segs[1..]));
      assert Split(Join(segs)) == [segs[0]] + segs[1..];
      assert [segs[0]] + segs[1..] == segs;
      CleanAppend([segs[0]], segs[1..]);
      assert Clean([segs[0]]) == [segs[0]] + Clean([]);
    }
  }

  /** No part of `s.split('/')` holds a slash. */
  lemma {:induction false} SplitPartsSlashFree(s: string)
    ensures forall i :: 0 <= i < |Split(s)| ==> '/' !in Split(s)[i]
  {
    if s != [] {
      SplitPartsSlashFree(s[1..]);
    }
  }

  lemma {:induction false} CleanOfSlashFree(parts: seq<string>)
    requires forall i :: 0 <= i < |parts| ==> '/' !in parts[i]
    ensures CleanSegments(Clean(parts))
  {
    if parts != [] {
      CleanOfSlashFree(parts[1..]);
    }
  }

  /** The segments pathlib parses out of any text are clean. */
  lemma SegmentsAreClean(p: string)
    ensures CleanSegments(Segments(p))
  {
    SplitPartsSlashFree(p);
    CleanOfSlashFree(Split(p));
  }

  /** "." parses to no segments at all. */
  lemma DotHasNoSegments()
    ensures Segments(".") == [] && !IsAbsolute(".")
  {
    SplitNoSlash(".");
    assert Clean(["."]) == [] + Clean([]);
  }

  /** The segments after a proper prefix, joined, parse back to themselves and do not start with a slash. */
  lemma RemainderOfPrefix(pt: seq<string>, bt: seq<string>)
    requires CleanSegments(pt) && |bt| < |pt| && pt[..|bt|] == bt
    ensures pt == bt + Segments(Join(pt[|bt|..]))
    ensures !IsAbsolute(Join(pt[|bt|..]))
  {
    var rest := pt[|bt|..];
    assert CleanSegments(rest) by {
      forall i | 0 <= i < |rest| ensures rest[i] != "" && rest[i] != "." && '/' !in rest[i] {
        assert rest[i] == pt[|bt| + i];
      }
    }
    SegmentsOfJoin(rest);
    JoinStart(rest);
    assert rest[0][0] != '/' by {
      assert '/' !in rest[0] && |rest[0]| > 0;
    }
    assert pt == pt[..|bt|] + rest;
  }

  lemma {:induction false} JoinStart(segs: seq<string>)
    requires CleanSegments(segs) && segs != []
    ensures |Join(segs)| > 0 && Join(segs)[0] == segs[0][0]
  {
  }

  lemma SegmentsOfChild(base: string, segs: seq<string>)
    requires CleanSegments(segs) && segs != []
    ensures Segments(ChildPath(base, Join(segs))) == Segments(base) + segs
  {
    var rel := Join(segs);
    SegmentsOfJoin(segs);
    if |base| > 0 && base[|base| - 1] == '/' {
      var b' := base[..|base| - 1];
      assert base == b' + "/" + "";
      assert ChildPath(base, rel) == b' + "/" + rel;
      SplitAppend(b', "");
      SplitAppend(b', rel);
      CleanAppend(Split(b'), [""]);
      CleanAppend(Split(b'), Split(rel));
      assert Clean([""]) == [];
    } else {
      SplitAppend(base, rel);
      CleanAppend(Split(base), Split(rel));
    }
  }

  lemma RootOfChild(base: string, rel: string)
    requires IsAbsolute(base) && rel != [] && rel[0] != '/'
    ensures Root(ChildPath(base, rel)) == Root(base)
  {
    var path := ChildPath(base, rel);
    assert path[..|base|] == base;
    if |base| >= 3 {
      assert path[..3] == base[..3];
    } else if |base| == 2 {
      assert path[0] == base[0] && path[1] == base[1];
      if base[1] == '/' {
        assert path[2] == rel[0];
      } else {
        assert path[2] == '/';
      }
    } else {
      assert path[1] == rel[0];
    }
  }

  /**
   * A parameter stored at `ChildPath(base, Join(segs))` is `Join(segs)` relative
   * to `base`: the relative path carries no leading slash.
   */
  lemma RelativeToChild(base: string, segs: seq<string>)
    requires IsAbsolute(base) && CleanSegments(segs) && segs != []
    ensures RelativeTo(ChildPath(base, Join(segs)), base) == Some(Join(segs))
  {
    var path := ChildPath(base, Join(segs));
    SegmentsOfChild(base, segs);
    JoinStart(segs);
    RootOfChild(base, Join(segs));
    var pt, bt := Segments(path), Segments(base);
    assert pt[..|bt|] == bt;
    assert pt[|bt|..] == segs;
  }

  /** A path is relative to itself, and the remainder prints as ".". */
  lemma RelativeToSelf(p: string)
    ensures RelativeTo(p, p) == Some(".")
  {
    assert Segments(p)[..|Segments(p)|] == Segments(p);
  }
}
