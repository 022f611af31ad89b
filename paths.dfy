/** POSIX paths as Python's `pathlib.PurePosixPath` represents them: an
    anchor (`""`, `"/"`, or `"//"`, which POSIX lets an implementation keep)
    followed by the significant parts. Parsing drops empty and `"."` parts. */
module Paths {
  import opened Text

  datatype Path = Path(root: string, parts: seq<string>)

  /** A part pathlib keeps: non-empty, not `"."`, and without a slash. */
  predicate IsPart(p: string)
  {
    p != "" && p != "." && '/' !in p
  }

  predicate Valid(p: Path)
  {
    (p.root == "" || p.root == "/" || p.root == "//")
    && forall i :: 0 <= i < |p.parts| ==> IsPart(p.parts[i])
  }

  /** The anchor of a path string: exactly two leading slashes are kept,
      one or three and more collapse to one. */
  function RootOf(s: string): (r: string)
  {
    if StartsWith(s, "//") && !StartsWith(s, "///") then "//"
    else if StartsWith(s, "/") then "/"
    else ""
  }

  /** Drops the empty and `"."` pieces of a split path. */
  function Significant(xs: seq<string>): (r: seq<string>)
    ensures |r| <= |xs|
  {
    if |xs| == 0 then []
    else (if xs[0] == "" || xs[0] == "." then [] else [xs[0]]) + Significant(xs[1..])
  }

  /** Of pieces without slashes, the significant ones are all parts. */
  lemma {:induction false} SignificantParts(xs: seq<string>)
    requires forall i :: 0 <= i < |xs| ==> '/' !in xs[i]
    ensures forall i :: 0 <= i < |Significant(xs)| ==> IsPart(Significant(xs)[i])
  {
    if |xs| > 0 {
      SignificantParts(xs[1..]);
      var head := if xs[0] == "" || xs[0] == "." then [] else [xs[0]];
      var r := Significant(xs);
      assert r == head + Significant(xs[1..]);
      forall i | 0 <= i < |r| ensures IsPart(r[i]) {
        if i >= |head| {
          assert r[i] == Significant(xs[1..])[i - |head|];
        }
      }
    }
  }

  lemma {:induction false} SignificantKeepsParts(xs: seq<string>)
    requires forall i :: 0 <= i < |xs| ==> IsPart(xs[i])
    ensures Significant(xs) == xs
  {
    if |xs| > 0 {
      SignificantKeepsParts(xs[1..]);
      assert [xs[0]] + xs[1..] == xs;
    }
  }

  /** `pathlib.PurePosixPath(s)`. */
  function Parse(s: string): (p: Path)
    ensures Valid(p)
  {
    var pieces := Split(s, '/');
    SignificantParts(pieces);
    Path(RootOf(s), Significant(pieces))
  }

  /** `str(path)`: the anchor, then the parts joined by `/`; an empty
      relative path is written `"."`. */
  function ToString(p: Path): (r: string)
  {
    if p.root == "" && |p.parts| == 0 then "." else p.root + Join("/", p.parts)
  }

  lemma JoinStartsWithFirst(xs: seq<string>)
    requires |xs| > 0
    ensures StartsWith(Join("/", xs), xs[0])
  {
  }

  lemma {:induction false} SplitSlashPrefix(x: string)
    ensures Split("/" + x, '/') == [""] + Split(x, '/')
  {
    assert ("/" + x)[1..] == x;
  }

  lemma {:induction false} SplitJoinParts(parts: seq<string>)
    requires |parts| > 0
    requires forall i :: 0 <= i < |parts| ==> IsPart(parts[i])
    ensures Split(Join("/", parts), '/') == parts
  {
    assert ['/'] == "/";
    SplitJoin(parts, '/');
  }

  lemma {:induction false} SplitRootPrefix(root: string, x: string)
    requires root == "" || root == "/" || root == "//"
    ensures Split(root + x, '/') == RootPieces(root) + Split(x, '/')
  {
    if root == "/" {
      SplitSlashPrefix(x);
    } else if root == "//" {
      assert root + x == "/" + ("/" + x);
      SplitSlashPrefix("/" + x);
      SplitSlashPrefix(x);
    } else {
      assert root + x == x;
    }
  }

  /** Splitting `str(path)` at its slashes yields the anchor's empty pieces
      followed by the parts. */
  lemma {:induction false} SplitToString(p: Path)
    requires Valid(p) && |p.parts| > 0
    ensures Split(ToString(p), '/') == RootPieces(p.root) + p.parts
  {
    var j := Join("/", p.parts);
    assert ToString(p) == p.root + j;
    SplitRootPrefix(p.root, j);
    SplitJoinParts(p.parts);
  }

  function RootPieces(root: string): (r: seq<string>)
  {
    if root == "//" then ["", ""] else if root == "/" then [""] else []
  }

  lemma {:induction false} SignificantDropsEmpty(xs: seq<string>)
    ensures Significant([""] + xs) == Significant(xs)
  {
    assert ([""] + xs)[1..] == xs;
  }

  lemma {:induction false} SignificantDropsRoot(root: string, parts: seq<string>)
    requires root == "" || root == "/" || root == "//"
    requires forall i :: 0 <= i < |parts| ==> IsPart(parts[i])
    ensures Significant(RootPieces(root) + parts) == parts
  {
    if root == "/" {
      assert RootPieces(root) + parts == [""] + parts;
      SignificantDropsEmpty(parts);
    } else if root == "//" {
      assert RootPieces(root) + parts == [""] + ([""] + parts);
      SignificantDropsEmpty([""] + parts);
      SignificantDropsEmpty(parts);
    } else {
      assert RootPieces(root) + parts == parts;
    }
    SignificantKeepsParts(parts);
  }

  lemma {:induction false} RootOfToString(p: Path)
    requires Valid(p)
    ensures RootOf(ToString(p)) == p.root
  {
    var s := ToString(p);
    if |p.parts| > 0 {
      JoinStartsWithFirst(p.parts);
      assert p.parts[0][0] != '/';
      assert s[|p.root|] == p.parts[0][0];
      if p.root == "//" {
        assert s[..3] != "///";
      }
    } else if p.root == "" {
      assert s == ".";
      assert !StartsWith(s, "/") by { assert s[0] != '/'; }
    }
  }

  /** Parsing the written form of a path gives the path back. */
  lemma {:induction false} ParseToString(p: Path)
    requires Valid(p)
    ensures Parse(ToString(p)) == p
  {
    var s := ToString(p);
    RootOfToString(p);
    if |p.parts| == 0 {
      if p.root == "" {
        assert s == ".";
        SplitNoSeparator(".", '/');
      } else if p.root == "/" {
        assert s == "/" + "";
        SplitSlashPrefix("");
      } else {
        assert s == "/" + ("/" + "");
        SplitSlashPrefix("");
        SplitSlashPrefix("/");
      }
      assert Significant(Split(s, '/')) == [];
    } else {
      SplitToString(p);
      SignificantDropsRoot(p.root, p.parts);
    }
  }

  /** The last piece of `str(path).split('/')`: the final part, `"."` for
      an empty relative path and `""` for a bare anchor. */
  lemma {:induction false} LastPieceOfString(p: Path)
    requires Valid(p)
    ensures var pieces := Split(ToString(p), '/');
            pieces[|pieces| - 1] == if |p.parts| > 0 then p.parts[|p.parts| - 1]
                                    else if p.root == "" then "." else ""
  {
    if |p.parts| > 0 {
      SplitToString(p);
    } else if p.root == "" {
      SplitNoSeparator(".", '/');
    } else if p.root == "/" {
      assert ToString(p) == "/" && ToString(p)[1..] == "";
    } else {
      assert ToString(p) == "//" && ToString(p)[1..] == "/" && ToString(p)[1..][1..] == "";
    }
  }

  /** `path / s`: an anchored right operand replaces the path, otherwise
      its parts are appended. */
  function Div(p: Path, s: string): (r: Path)
    requires Valid(p)
    ensures Valid(r)
  {
    var q := Parse(s);
    if q.root != "" then q else Path(p.root, p.parts + q.parts)
  }

  /** The path one part below `p`. */
  function Below(p: Path, part: string): (r: Path)
    requires Valid(p) && IsPart(part)
    ensures Valid(r)
  {
    Path(p.root, p.parts + [part])
  }

  /** Dividing by a single well-formed part adds exactly that part. */
  lemma {:induction false} DivPart(p: Path, part: string)
    requires Valid(p) && IsPart(part)
    ensures Div(p, part) == Below(p, part)
  {
    SplitNoSeparator(part, '/');
    assert RootOf(part) == "";
  }

  /** `path.name`. */
  function Name(p: Path): (r: string)
  {
    if |p.parts| == 0 then "" else p.parts[|p.parts| - 1]
  }

  /** `path.stem`: the name without its final suffix, where a suffix needs
      a dot that is neither the first nor the last character. */
  function Stem(p: Path): (r: string)
  {
    var name := Name(p);
    var i := LastIndexOf(name, '.');
    if 0 < i < |name| - 1 then name[..i] else name
  }

  /** `fnmatch(name, '*' + middle + '*' + ext)` for literal `middle` and `ext`:
      the name ends with `ext` and `middle` occurs in what precedes it. */
  predicate GlobMiddleExt(name: string, middle: string, ext: string)
  {
    EndsWith(name, ext) && Contains(name[..|name| - |ext|], middle)
  }

  /** `path.match('*S3*.zip')` (a one-part pattern looks only at the name). */
  predicate MatchesS3Zip(p: Path)
  {
    GlobMiddleExt(Name(p), "S3", ".zip")
  }

  /** `path.match('*S3*.SEN3')`. */
  predicate MatchesS3Sen3(p: Path)
  {
    GlobMiddleExt(Name(p), "S3", ".SEN3")
  }
}
