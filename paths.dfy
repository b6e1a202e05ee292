/**
 * `std::path::Path` as the daemon and the validators use it, seen through `components()`.
 * Rust compares and hashes paths by their components, and `components()` skips repeated
 * separators, a trailing separator and every `.` except a leading one of a relative path,
 * so `a//b`, `a/b/` and `a/./b` name the same key as `a/b`.
 */
module Paths {
  import opened Wrappers

  /**
   * A path: whether it has a root, whether it starts with a `.` component (`CurDir`,
   * which only a relative path can), and its other components in order.
   */
  datatype PathBuf = PathBuf(absolute: bool, curDir: bool, components: seq<string>)

  /** `str::split('/')`: the pieces between separators, empty ones included. */
  function Segments(s: string): (r: seq<string>)
    ensures |r| >= 1
  {
    if s == [] then [[]]
    else
      var rest := Segments(s[1..]);
      if s[0] == '/' then [[]] + rest else [[s[0]] + rest[0]] + rest[1..]
  }

  /** A piece `components()` does not yield as a normal component: an empty one, or `.`. */
  predicate Skipped(part: string) {
    part == [] || part == "."
  }

  /** The pieces that are components, in order. */
  function Normals(parts: seq<string>): (r: seq<string>)
    ensures forall i :: 0 <= i < |r| ==> !Skipped(r[i])
  {
    if parts == [] then []
    else if Skipped(parts[0]) then Normals(parts[1..])
    else [parts[0]] + Normals(parts[1..])
  }

  /** `Path::new(s)`: rooted when `s` starts with `/`; `CurDir` first when a relative `s` starts with the piece `.`. */
  function FromStr(s: string): (p: PathBuf)
    ensures p.curDir ==> !p.absolute
    ensures forall i :: 0 <= i < |p.components| ==> !Skipped(p.components[i])
  {
    var absolute := |s| > 0 && s[0] == '/';
    PathBuf(absolute, !absolute && Segments(s)[0] == ".", Normals(Segments(s)))
  }

  /** `Path::is_relative`: no root. */
  predicate IsRelative(p: PathBuf) {
    !p.absolute
  }

  /**
   * `Path::parent`: the path without its last component. `None` when there is none or it
   * is the root; a lone `.` has the empty path as parent.
   */
  function Parent(p: PathBuf): (r: Option<PathBuf>)
    ensures r.None? <==> p.components == [] && !p.curDir
    ensures r.Some? && p.components != [] ==>
              r.value.absolute == p.absolute && r.value.curDir == p.curDir &&
              r.value.components + [p.components[|p.components| - 1]] == p.components
    ensures r.Some? && p.components == [] ==> r.value == PathBuf(false, false, [])
  {
    if p.components != [] then Some(PathBuf(p.absolute, p.curDir, p.components[..|p.components| - 1]))
    else if p.curDir then Some(PathBuf(false, false, []))
    else None
  }

  lemma {:induction false} SegmentsJoin(a: string, b: string)
    ensures Segments(a + "/" + b) == Segments(a) + Segments(b)
  {
    if a != [] {
      assert (a + "/" + b)[1..] == a[1..] + "/" + b;
      SegmentsJoin(a[1..], b);
    } else {
      assert ("/" + b)[1..] == b;
    }
  }

  lemma {:induction false} SegmentsWithoutSeparator(s: string)
    requires '/' !in s
    ensures Segments(s) == [s]
  {
    if s != [] {
      SegmentsWithoutSeparator(s[1..]);
      assert [s[0]] + s[1..] == s;
    }
  }

  lemma {:induction false} NormalsConcat(p: seq<string>, q: seq<string>)
    ensures Normals(p + q) == Normals(p) + Normals(q)
  {
    if p != [] {
      assert (p + q)[1..] == p[1..] + q;
      NormalsConcat(p[1..], q);
    } else {
      assert p + q == q;
    }
  }

  /** The first piece of `a/b` is the first piece of `a`, so joining keeps `a`'s root and leading `.`. */
  lemma JoinKeepsHead(a: string, b: string)
    requires a != []
    ensures FromStr(a + "/" + b).absolute == FromStr(a).absolute
    ensures FromStr(a + "/" + b).curDir == FromStr(a).curDir
  {
    SegmentsJoin(a, b);
    assert (a + "/" + b)[0] == a[0];
  }

  /** Components are joined by separators: `a/b` has the components of `a` followed by those of `b`. */
  lemma JoinComponents(a: string, b: string)
    ensures FromStr(a + "/" + b).components == FromStr(a).components + FromStr(b).components
  {
    SegmentsJoin(a, b);
    NormalsConcat(Segments(a), Segments(b));
  }

  /** A repeated separator is one separator: `a//b` and `a/b` are the same path. */
  lemma CollapseSeparator(a: string, b: string)
    ensures FromStr(a + "//" + b) == FromStr(a + "/" + b)
  {
    assert a + "//" + b == a + "/" + ("/" + b);
    JoinComponents(a, "/" + b);
    JoinComponents(a, b);
    assert "/" + b == [] + "/" + b;
    JoinComponents([], b);
    assert FromStr([]).components == [];
    if a != [] {
      JoinKeepsHead(a, "/" + b);
      JoinKeepsHead(a, b);
    }
  }

  /** A `.` between separators is no component: `a/./b` and `a/b` are the same path. */
  lemma SkipCurDir(a: string, b: string)
    ensures FromStr(a + "/./" + b) == FromStr(a + "/" + b)
  {
    assert a + "/./" + b == a + "/" + ("." + "/" + b);
    JoinComponents(a, "." + "/" + b);
    JoinComponents(".", b);
    JoinComponents(a, b);
    SegmentsWithoutSeparator(".");
    assert Normals(["."]) == [];
    if a != [] {
      JoinKeepsHead(a, "." + "/" + b);
      JoinKeepsHead(a, b);
    }
  }

  /** A name with no separator in it, other than `.`, is a single component. */
  lemma SingleComponent(name: string)
    requires name != [] && name != "." && '/' !in name
    ensures FromStr(name).components == [name]
  {
    SegmentsWithoutSeparator(name);
    assert Normals([name]) == [name] + Normals([]);
  }

  /** Every piece is skipped. */
  predicate AllSkipped(parts: seq<string>) {
    forall i :: 0 <= i < |parts| ==> Skipped(parts[i])
  }

  lemma {:induction false} NoComponentsIffSkipped(parts: seq<string>)
    ensures Normals(parts) == [] <==> AllSkipped(parts)
  {
    if parts != [] {
      NoComponentsIffSkipped(parts[1..]);
      assert forall i :: 1 <= i < |parts| ==> parts[i] == parts[1..][i - 1];
    }
  }

  /**
   * `parent()` is `None` exactly for the empty string and for the rooted strings whose
   * pieces are all empty or `.`: `/`, `//`, `/.`, `/./.`, …
   */
  lemma ParentNoneIff(s: string)
    ensures Parent(FromStr(s)).None? <==> s == [] || (s[0] == '/' && AllSkipped(Segments(s)))
  {
    var p := FromStr(s);
    NoComponentsIffSkipped(Segments(s));
    if s == [] {
      assert Segments(s) == [[]];
      assert !p.curDir && p.components == [];
    } else if s[0] == '/' {
      assert p.absolute && !p.curDir && p.components == Normals(Segments(s));
      assert Parent(p).None? <==> p.components == [];
    } else {
      var first := Segments(s)[0];
      assert first != [] && first[0] == s[0];
      if first != "." {
        assert !Skipped(Segments(s)[0]);
        assert p.components != [];
      } else {
        assert p.curDir;
      }
    }
  }

  /** `/.` has no parent, and the parent of `/x/.` is the root, not `/x`. */
  lemma DotParents()
    ensures Parent(FromStr("/.")).None?
    ensures Parent(FromStr("/x/.")) == Some(FromStr("/"))
  {
    SegmentsWithoutSeparator(".");
    SegmentsWithoutSeparator("x");
    assert "/." == [] + "/" + ".";
    SegmentsJoin([], ".");
    assert "/x/." == [] + "/" + ("x" + "/" + ".");
    SegmentsJoin("x", ".");
    SegmentsJoin([], "x/.");
    assert "/" == [] + "/" + [];
    SegmentsJoin([], []);
  }
}
