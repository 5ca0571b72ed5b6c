/**
 * Unix path strings: joining a name onto a directory, the way the Rust
 * standard library's `Path::join` does it, and splitting a path at its
 * separators. The tray joins the icon theme name onto a search directory;
 * these definitions let the model say which path segments that produces.
 */
module Paths {

  const Separator: char := '/'

  /**
   * `base.join(name)` on Unix: an absolute name replaces the base; otherwise
   * a separator is inserted unless the base is empty or already ends in one.
   */
  function Join(base: string, name: string): (p: string)
    ensures |name| > 0 && name[0] == Separator ==> p == name
    ensures !(|name| > 0 && name[0] == Separator) ==>
      |base| + |name| <= |p| <= |base| + |name| + 1 && p[..|base|] == base && p[|p| - |name|..] == name
    ensures !(|name| > 0 && name[0] == Separator) && |p| == |base| + |name| + 1 ==> p[|base|] == Separator
  {
    if |name| > 0 && name[0] == Separator then name
    else if |base| == 0 || base[|base| - 1] == Separator then base + name
    else base + [Separator] + name
  }

  /** The segments of a path: the maximal runs of characters between separators. */
  function Segments(p: string): (segs: seq<string>)
    ensures |segs| >= 1
    ensures forall k :: 0 <= k < |segs| ==> Separator !in segs[k]
  {
    if |p| == 0 then [""]
    else
      var rest := Segments(p[1..]);
      if p[0] == Separator then [""] + rest
      else [[p[0]] + rest[0]] + rest[1..]
  }

  /** Puts segments back together with a separator between each two. */
  function Unsplit(segs: seq<string>): string
    requires |segs| >= 1
  {
    if |segs| == 1 then segs[0] else segs[0] + [Separator] + Unsplit(segs[1..])
  }

  /** The segments of a directory that a joined name is placed under: a trailing empty segment is dropped. */
  function Parent(segs: seq<string>): seq<string>
  {
    if |segs| > 0 && segs[|segs| - 1] == "" then segs[..|segs| - 1] else segs
  }

  /** Splitting loses nothing: the segments put back together give the path. */
  lemma {:induction false} UnsplitSegments(p: string)
    ensures Unsplit(Segments(p)) == p
  {
    if |p| > 0 {
      UnsplitSegments(p[1..]);
      var rest := Segments(p[1..]);
      if p[0] != Separator && |rest| > 1 {
        assert Unsplit(rest) == rest[0] + [Separator] + Unsplit(rest[1..]);
        assert ([p[0]] + rest[0]) + [Separator] + Unsplit(rest[1..]) == [p[0]] + Unsplit(rest);
      }
      assert p == [p[0]] + p[1..];
    }
  }

  /** A string without separators is a single segment. */
  lemma {:induction false} SegmentsOfName(s: string)
    requires Separator !in s
    ensures Segments(s) == [s]
  {
    if |s| > 0 {
      assert Separator !in s[1..];
      SegmentsOfName(s[1..]);
      assert s == [s[0]] + s[1..];
    }
  }

  /** A separator between two strings separates their segments. */
  lemma {:induction false} SegmentsOfSeparated(a: string, b: string)
    ensures Segments(a + [Separator] + b) == Segments(a) + Segments(b)
  {
    if |a| == 0 {
      assert a + [Separator] + b == [Separator] + b;
      assert ([Separator] + b)[1..] == b;
    } else {
      var x := a + [Separator] + b;
      assert x[0] == a[0] && x[1..] == a[1..] + [Separator] + b;
      SegmentsOfSeparated(a[1..], b);
      var tail, sb := Segments(a[1..]), Segments(b);
      assert Segments(x[1..]) == tail + sb;
      if a[0] != Separator {
        assert (tail + sb)[1..] == tail[1..] + sb;
        assert Segments(x) == [[a[0]] + tail[0]] + (tail[1..] + sb);
      }
    }
  }

  /** A path that does not end in a separator has a non-empty last segment. */
  lemma {:induction false} LastSegmentNonEmpty(p: string)
    requires |p| > 0 && p[|p| - 1] != Separator
    ensures Segments(p)[|Segments(p)| - 1] != ""
  {
    if |p| > 1 {
      LastSegmentNonEmpty(p[1..]);
    }
  }

  /**
   * Joining a name without separators onto any directory adds exactly one
   * segment, the name itself, after the directory's own segments.
   */
  lemma JoinAddsOneSegment(base: string, name: string)
    requires Separator !in name
    ensures Segments(Join(base, name)) == Parent(Segments(base)) + [name]
  {
    SegmentsOfName(name);
    if |base| == 0 {
      assert Join(base, name) == name;
    } else if base[|base| - 1] == Separator {
      var dir := base[..|base| - 1];
      assert base == dir + [Separator] + "";
      SegmentsOfSeparated(dir, "");
      assert Join(base, name) == dir + [Separator] + name;
      SegmentsOfSeparated(dir, name);
    } else {
      LastSegmentNonEmpty(base);
      SegmentsOfSeparated(base, name);
    }
  }
}
