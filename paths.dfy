/**
 * POSIX path handling as Python's `pathlib.PurePosixPath` does it for the
 * paths this system builds: a path is a root ("/" or none) and its parts
 * (the '/'-separated pieces, with empty and "." pieces dropped).
 */
module Paths {
  import opened Text

  /** The pieces of `p` that name something: not empty, not ".". */
  function Parts(p: string): (r: seq<string>)
    ensures forall k :: 0 <= k < |r| ==> IsPart(r[k])
  {
    KeepParts(Split(p, '/'))
  }

  /** A single path component: non-empty, not ".", no separator. */
  predicate IsPart(x: string)
  {
    x != "" && x != "." && '/' !in x
  }

  /** The pieces that name something (pieces of a split never hold a separator). */
  function KeepParts(xs: seq<string>): (r: seq<string>)
    ensures forall k :: 0 <= k < |r| ==> IsPart(r[k])
    ensures |r| <= |xs|
  {
    if xs == [] then []
    else if IsPart(xs[0]) then [xs[0]] + KeepParts(xs[1..])
    else KeepParts(xs[1..])
  }

  predicate IsAbsolute(p: string)
  {
    StartsWith(p, "/")
  }

  /** The text of a path with the given root and parts, as `str(Path(...))` prints it. */
  function Render(absolute: bool, parts: seq<string>): string
  {
    if absolute then "/" + Join("/", parts)
    else if parts == [] then "."
    else Join("/", parts)
  }

  /** `str(Path(p))`. */
  function Normal(p: string): string
  {
    Render(IsAbsolute(p), Parts(p))
  }

  /** `Path(p).name`: the last part, or "" for a root or ".". */
  function Name(p: string): (r: string)
    ensures r == "" || IsPart(r)
  {
    var ps := Parts(p);
    if ps == [] then "" else ps[|ps| - 1]
  }

  /** `str(Path(p).parent)`. */
  function Parent(p: string): string
  {
    var ps := Parts(p);
    Render(IsAbsolute(p), if ps == [] then [] else ps[..|ps| - 1])
  }

  /** `str(Path(a) / b)`: an absolute `b` replaces `a`. */
  function JoinPath(a: string, b: string): string
  {
    if IsAbsolute(b) then Normal(b)
    else Render(IsAbsolute(a), Parts(a) + Parts(b))
  }

  /** `str(Path(p).absolute())` for a process whose working directory is `cwd`. */
  function Absolute(cwd: string, p: string): string
  {
    JoinPath(cwd, p)
  }

  lemma JoinSingle(x: string)
    requires IsPart(x)
    ensures Split(x, '/') == [x]
    ensures Parts(x) == [x]
  {
    SplitAbsent(x, '/');
  }

  /** The parts of a rendered path are the parts it was rendered from. */
  lemma {:induction false} PartsOfJoin(parts: seq<string>)
    requires forall k :: 0 <= k < |parts| ==> IsPart(parts[k])
    ensures Parts(Join("/", parts)) == parts
  {
    if parts == [] {
    } else if |parts| == 1 {
      JoinSingle(parts[0]);
    } else {
      PartsOfJoin(parts[1..]);
      JoinCons("/", parts[0], parts[1..]);
      assert parts == [parts[0]] + parts[1..];
      SplitFirst(parts[0], '/', Join("/", parts[1..]));
      assert parts[0] + "/" + Join("/", parts[1..]) == parts[0] + ['/'] + Join("/", parts[1..]);
    }
  }

  lemma PartsOfRender(absolute: bool, parts: seq<string>)
    requires forall k :: 0 <= k < |parts| ==> IsPart(parts[k])
    ensures Parts(Render(absolute, parts)) == parts
    ensures IsAbsolute(Render(absolute, parts)) == absolute
  {
    PartsOfJoin(parts);
    if absolute {
      var j := Join("/", parts);
      SplitFirst("", '/', j);
      assert "" + ['/'] + j == "/" + j;
    } else if parts == [] {
      SplitAbsent(".", '/');
    } else {
      assert parts[0] != "" && Join("/", parts)[0] != '/' by { JoinHead(parts); }
    }
  }

  lemma {:induction false} JoinHead(parts: seq<string>)
    requires parts != [] && IsPart(parts[0])
    ensures Join("/", parts) != "" && Join("/", parts)[0] == parts[0][0]
  {
    if |parts| > 1 {
      JoinCons("/", parts[0], parts[1..]);
      assert parts == [parts[0]] + parts[1..];
    }
  }

  /** Appending one component and reading the name back gives that component. */
  lemma NameOfJoin(d: string, x: string)
    requires IsPart(x)
    ensures Name(JoinPath(d, x)) == x
  {
    JoinSingle(x);
    assert !IsAbsolute(x);
    PartsOfRender(IsAbsolute(d), Parts(d) + [x]);
  }

  /** The name of a path written as `d + "/" + x` is its last component `x`. */
  lemma NameOfText(d: string, x: string)
    requires IsPart(x)
    ensures Name(d + "/" + x) == x
  {
    assert d + "/" + x == d + ['/'] + x;
    SplitLast(d, '/', x);
    KeepPartsAppend(Split(d, '/'), x);
  }

  lemma {:induction false} KeepPartsAppend(xs: seq<string>, x: string)
    requires IsPart(x)
    ensures KeepParts(xs + [x]) == KeepParts(xs) + [x]
  {
    if xs == [] {
      assert xs + [x] == [x];
      assert [x][1..] == [];
    } else {
      KeepPartsAppend(xs[1..], x);
      assert (xs + [x])[1..] == xs[1..] + [x];
    }
  }

  /** Appending one component and taking the parent gives the original directory. */
  lemma ParentOfJoin(d: string, x: string)
    requires IsPart(x)
    ensures Parent(JoinPath(d, x)) == Normal(d)
  {
    JoinSingle(x);
    PartsOfRender(IsAbsolute(d), Parts(d) + [x]);
    assert (Parts(d) + [x])[..|Parts(d)|] == Parts(d);
  }

  /** Normalising first does not change where a join leads. */
  lemma JoinNormal(d: string, x: string)
    ensures JoinPath(Normal(d), x) == JoinPath(d, x)
  {
    PartsOfRender(IsAbsolute(d), Parts(d));
  }

  /** `Path(name).suffixes`: `[]` for a name ending in "."; else its dotted tails. */
  function Suffixes(name: string): (r: seq<string>)
    ensures forall k :: 0 <= k < |r| ==> r[k] != "" && r[k][0] == '.'
  {
    if EndsWith(name, ".") then []
    else Dotted(Split(LStrip(name, {'.'}), '.')[1..])
  }

  function Dotted(xs: seq<string>): (r: seq<string>)
    ensures |r| == |xs|
    ensures forall k :: 0 <= k < |r| ==> r[k] == "." + xs[k]
  {
    if xs == [] then [] else ["." + xs[0]] + Dotted(xs[1..])
  }

  /**
   * The file-type key `"".join(Path(f).suffixes).lstrip(".")`: everything of
   * the file name after its first dot ("nii.gz" for "sub-01_dwi.nii.gz").
   */
  function SuffixKey(f: string): string
  {
    LStrip(Concat(Suffixes(Name(f))), {'.'})
  }

  function Concat(xs: seq<string>): (r: string)
  {
    if xs == [] then "" else xs[0] + Concat(xs[1..])
  }

  lemma {:induction false} ConcatDotted(xs: seq<string>)
    requires xs != []
    ensures Concat(Dotted(xs)) == "." + Join(".", xs)
  {
    if |xs| > 1 {
      ConcatDotted(xs[1..]);
      JoinCons(".", xs[0], xs[1..]);
      assert xs == [xs[0]] + xs[1..];
    }
  }

  /**
   * For a file name `stem.ext` whose stem has no dot, the key is exactly `ext`,
   * whatever directory the file is in.
   */
  lemma SuffixKeyOf(d: string, stem: string, ext: string)
    requires stem != "" && '.' !in stem && '/' !in stem
    requires ext != "" && ext[0] != '.' && ext[|ext| - 1] != '.' && '/' !in ext
    ensures SuffixKey(JoinPath(d, stem + "." + ext)) == ext
  {
    var name := stem + "." + ext;
    assert IsPart(name) by {
      assert name[0] == stem[0];
      assert forall k :: 0 <= k < |name| ==> name[k] != '/' by {
        forall k | 0 <= k < |name| ensures name[k] != '/' {
          if k < |stem| { assert name[k] == stem[k]; }
          else if k > |stem| { assert name[k] == ext[k - |stem| - 1]; }
        }
      }
    }
    NameOfJoin(d, name);
    assert !EndsWith(name, ".") by { assert name[|name| - 1] == ext[|ext| - 1]; }
    assert LStrip(name, {'.'}) == name by { assert name[0] == stem[0]; }
    assert name == stem + ['.'] + ext;
    SplitFirst(stem, '.', ext);
    assert Split(name, '.')[1..] == Split(ext, '.');
    ConcatDotted(Split(ext, '.'));
    JoinSplit(ext, '.');
    assert ("." + ext)[1..] == ext;
  }

  /** A file name without any dot has the empty key. */
  lemma SuffixKeyNoDot(f: string)
    requires '.' !in Name(f)
    ensures SuffixKey(f) == ""
  {
    var name := Name(f);
    if name != "" {
      assert name[|name| - 1] in name && name[0] in name;
      assert !EndsWith(name, ".") by { assert name[|name| - 1..] == [name[|name| - 1]]; }
      assert LStrip(name, {'.'}) == name;
      SplitAbsent(name, '.');
      assert Suffixes(name) == Dotted([]);
    }
  }
}
