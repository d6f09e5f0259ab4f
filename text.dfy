/**
 * The Python `str` operations the wiring code relies on, over `seq<char>`:
 * `in`, `startswith`/`endswith`, `replace`, `split` on a one-character
 * separator, `join`, `rpartition`, `lstrip`/`strip` and ASCII `lower`.
 */
module Text {

  predicate StartsWith(s: string, p: string)
  {
    |p| <= |s| && s[..|p|] == p
  }

  predicate EndsWith(s: string, p: string)
  {
    |p| <= |s| && s[|s| - |p|..] == p
  }

  /** `sub` occurs in `s` starting at index `i`. */
  predicate OccursAt(s: string, sub: string, i: int)
  {
    0 <= i && i + |sub| <= |s| && s[i..i + |sub|] == sub
  }

  /** `sub in s`: some window of `s` equals `sub`. */
  predicate Contains(s: string, sub: string)
  {
    exists i | 0 <= i <= |s| - |sub| :: OccursAt(s, sub, i)
  }

  lemma ContainsChar(s: string, c: char)
    ensures Contains(s, [c]) <==> c in s
  {
    if c in s {
      var i :| 0 <= i < |s| && s[i] == c;
      assert s[i..i + 1] == [c];
      assert OccursAt(s, [c], i);
    }
    if Contains(s, [c]) {
      var i :| 0 <= i <= |s| - 1 && OccursAt(s, [c], i);
      assert s[i] == s[i..i + 1][0];
    }
  }

  lemma ContainsPrefix(s: string, sub: string, t: string)
    requires Contains(s, sub)
    ensures Contains(s + t, sub)
  {
    var i :| 0 <= i <= |s| - |sub| && OccursAt(s, sub, i);
    assert (s + t)[i..i + |sub|] == s[i..i + |sub|];
    assert OccursAt(s + t, sub, i);
  }

  lemma ContainsSuffix(s: string, sub: string, t: string)
    requires Contains(s, sub)
    ensures Contains(t + s, sub)
  {
    var i :| 0 <= i <= |s| - |sub| && OccursAt(s, sub, i);
    assert (t + s)[|t| + i..|t| + i + |sub|] == s[i..i + |sub|];
    assert OccursAt(t + s, sub, |t| + i);
  }

  lemma ContainsMiddle(s: string, sub: string, t: string)
    ensures Contains(s + sub + t, sub)
  {
    assert (s + sub + t)[|s|..|s| + |sub|] == sub;
    assert OccursAt(s + sub + t, sub, |s|);
  }

  lemma ContainsTail(s: string, sub: string)
    requires s != []
    ensures Contains(s[1..], sub) ==> Contains(s, sub)
  {
    if Contains(s[1..], sub) {
      ContainsSuffix(s[1..], sub, [s[0]]);
      assert [s[0]] + s[1..] == s;
    }
  }

  /** Python's `s.replace(pat, rep)`: every non-overlapping occurrence, left to right. */
  function Replace(s: string, pat: string, rep: string): (r: string)
    decreases |s|
    ensures forall c :: c in r ==> c in s || c in rep
  {
    if pat == [] then ReplaceEmpty(s, rep)
    else if StartsWith(s, pat) then rep + Replace(s[|pat|..], pat, rep)
    else if s == [] then []
    else [s[0]] + Replace(s[1..], pat, rep)
  }

  /** `s.replace("", rep)` puts `rep` before every character and at the end. */
  function ReplaceEmpty(s: string, rep: string): (r: string)
    ensures forall c :: c in r ==> c in s || c in rep
  {
    if s == [] then rep else rep + [s[0]] + ReplaceEmpty(s[1..], rep)
  }

  /** Replacing a one-character string by text without that character removes it. */
  lemma {:induction false} ReplaceRemovesChar(s: string, c: char, rep: string)
    requires c !in rep
    ensures c !in Replace(s, [c], rep)
    decreases |s|
  {
    if StartsWith(s, [c]) {
      ReplaceRemovesChar(s[1..], c, rep);
    } else if s != [] {
      assert s[0] != c;
      ReplaceRemovesChar(s[1..], c, rep);
    }
  }

  /** A text without a single occurrence of `pat` is left as it is. */
  lemma {:induction false} ReplaceAbsent(s: string, pat: string, rep: string)
    requires pat != [] && !Contains(s, pat)
    ensures Replace(s, pat, rep) == s
    decreases |s|
  {
    if |s| >= |pat| {
      assert !OccursAt(s, pat, 0);
    }
    if s != [] && !StartsWith(s, pat) {
      ContainsTail(s, pat);
      ReplaceAbsent(s[1..], pat, rep);
    }
  }

  /** A text that starts with the pattern has that occurrence replaced first. */
  lemma ReplaceLeading(p: string, t: string, rep: string)
    requires p != []
    ensures Replace(p + t, p, rep) == rep + Replace(t, p, rep)
  {
    assert (p + t)[..|p|] == p;
    assert (p + t)[|p|..] == t;
  }

  /** A one-character pattern never spans two texts, so its replacement distributes over `+`. */
  lemma {:induction false} ReplaceCharConcat(x: string, y: string, c: char, rep: string)
    ensures Replace(x + y, [c], rep) == Replace(x, [c], rep) + Replace(y, [c], rep)
    decreases |x|
  {
    if x == [] {
      assert x + y == y;
    } else {
      ReplaceCharConcat(x[1..], y, c, rep);
      assert (x + y)[1..] == x[1..] + y;
      assert StartsWith(x + y, [c]) <==> x[0] == c;
      assert StartsWith(x, [c]) <==> x[0] == c;
      if x[0] == c {
        assert Replace(x + y, [c], rep) == rep + Replace(x[1..] + y, [c], rep);
        assert Replace(x, [c], rep) == rep + Replace(x[1..], [c], rep);
      } else {
        assert Replace(x + y, [c], rep) == [x[0]] + Replace(x[1..] + y, [c], rep);
        assert Replace(x, [c], rep) == [x[0]] + Replace(x[1..], [c], rep);
      }
    }
  }

  /**
   * When `pat` does not occur in `x` and its first character does not recur
   * in it, the only occurrence in `x + pat` is the final one.
   */
  lemma {:induction false} ReplaceTail(x: string, pat: string, rep: string)
    requires pat != [] && pat[0] !in pat[1..] && !Contains(x, pat)
    ensures Replace(x + pat, pat, rep) == x + rep
    decreases |x|
  {
    var s := x + pat;
    if x == [] {
      assert s == pat && StartsWith(s, pat) && s[|pat|..] == [];
    } else {
      NotStartingAt(x, pat);
      ContainsTail(x, pat);
      ReplaceTail(x[1..], pat, rep);
      assert s[1..] == x[1..] + pat;
      assert Replace(s, pat, rep) == [x[0]] + Replace(s[1..], pat, rep);
    }
  }

  /** The helper step of `ReplaceTail`: a non-empty `x` does not start an occurrence in `x + pat`. */
  lemma NotStartingAt(x: string, pat: string)
    requires x != [] && pat != [] && pat[0] !in pat[1..] && !Contains(x, pat)
    ensures !StartsWith(x + pat, pat)
  {
    var s := x + pat;
    if |x| >= |pat| {
      assert x[..|pat|] == s[..|pat|];
      assert !OccursAt(x, pat, 0);
    } else {
      assert s[..|pat|][|x|] == pat[0];
      assert pat[|x|] == pat[1..][|x| - 1];
    }
  }

  /** Python's `s.split(c)` for a one-character separator. */
  function Split(s: string, c: char): (r: seq<string>)
    ensures |r| >= 1
    ensures forall k :: 0 <= k < |r| ==> c !in r[k]
  {
    if s == [] then [""]
    else if s[0] == c then [""] + Split(s[1..], c)
    else
      var rest := Split(s[1..], c);
      [[s[0]] + rest[0]] + rest[1..]
  }

  /** `sep.join(parts)`. */
  function Join(sep: string, parts: seq<string>): (r: string)
    ensures |parts| == 1 ==> r == parts[0]
    ensures parts == [] ==> r == ""
  {
    if parts == [] then ""
    else if |parts| == 1 then parts[0]
    else parts[0] + sep + Join(sep, parts[1..])
  }

  lemma JoinCons(sep: string, p: string, parts: seq<string>)
    requires parts != []
    ensures Join(sep, [p] + parts) == p + sep + Join(sep, parts)
  {
    assert ([p] + parts)[1..] == parts;
  }

  /** Where the i-th part starts in `Join(sep, parts)`: the earlier parts, each followed by the separator. */
  function JoinOffset(sep: string, parts: seq<string>, i: nat): nat
    requires i <= |parts|
  {
    if i == 0 then 0 else JoinOffset(sep, parts, i - 1) + |parts[i - 1]| + |sep|
  }

  /** Dropping the first part moves every later part back by that part and one separator. */
  lemma {:induction false} JoinOffsetTail(sep: string, parts: seq<string>, i: nat)
    requires parts != [] && i < |parts|
    ensures JoinOffset(sep, parts, i + 1) == |parts[0]| + |sep| + JoinOffset(sep, parts[1..], i)
  {
    if i > 0 {
      JoinOffsetTail(sep, parts, i - 1);
    }
  }

  /** A join is its parts and one separator between each two neighbours, so long. */
  lemma {:induction false} JoinLength(sep: string, parts: seq<string>)
    requires parts != []
    ensures |Join(sep, parts)| + |sep| == JoinOffset(sep, parts, |parts|)
    decreases |parts|
  {
    if |parts| > 1 {
      JoinLength(sep, parts[1..]);
      JoinOffsetTail(sep, parts, |parts| - 1);
    }
  }

  /** A window of the second text, seen through a concatenation. */
  lemma SliceShift(a: string, b: string, lo: nat, hi: nat)
    requires lo <= hi <= |b|
    ensures (a + b)[|a| + lo..|a| + hi] == b[lo..hi]
  {
  }

  /** The i-th part of a join sits at the part's offset. */
  lemma {:induction false} JoinPartAt(sep: string, parts: seq<string>, i: nat)
    requires i < |parts|
    ensures JoinOffset(sep, parts, i) + |parts[i]| <= |Join(sep, parts)|
    ensures Join(sep, parts)[JoinOffset(sep, parts, i)..JoinOffset(sep, parts, i) + |parts[i]|] == parts[i]
    decreases |parts|
  {
    var r := Join(sep, parts);
    if i == 0 {
      assert r == parts[0] || r == parts[0] + sep + Join(sep, parts[1..]);
      assert r[0..|parts[0]|] == parts[0];
    } else {
      var tail := parts[1..];
      var rest := Join(sep, tail);
      assert r == (parts[0] + sep) + rest;
      JoinOffsetTail(sep, parts, i - 1);
      JoinPartAt(sep, tail, i - 1);
      var o := JoinOffset(sep, tail, i - 1);
      assert tail[i - 1] == parts[i];
      SliceShift(parts[0] + sep, rest, o, o + |parts[i]|);
    }
  }

  /** The separator sits just before every part but the first. */
  lemma {:induction false} JoinSepAt(sep: string, parts: seq<string>, i: nat)
    requires 0 < i < |parts|
    ensures |sep| <= JoinOffset(sep, parts, i) <= |Join(sep, parts)|
    ensures Join(sep, parts)[JoinOffset(sep, parts, i) - |sep|..JoinOffset(sep, parts, i)] == sep
    decreases |parts|
  {
    var tail := parts[1..];
    var rest := Join(sep, tail);
    var r := Join(sep, parts);
    assert r == (parts[0] + sep) + rest;
    JoinOffsetTail(sep, parts, i - 1);
    if i == 1 {
      assert JoinOffset(sep, tail, 0) == 0;
      assert r == parts[0] + (sep + rest);
      SliceShift(parts[0], sep + rest, 0, |sep|);
      assert (sep + rest)[0..|sep|] == sep;
    } else {
      JoinSepAt(sep, tail, i - 1);
      var o := JoinOffset(sep, tail, i - 1);
      SliceShift(parts[0] + sep, rest, o - |sep|, o);
    }
  }

  /** A later part starts after an earlier part and the separator that follows it. */
  lemma {:induction false} JoinOffsetAfter(sep: string, parts: seq<string>, i: nat, j: nat)
    requires i < j <= |parts|
    ensures JoinOffset(sep, parts, i) + |parts[i]| + |sep| <= JoinOffset(sep, parts, j)
    decreases j
  {
    if i < j - 1 {
      JoinOffsetAfter(sep, parts, i, j - 1);
    }
  }

  /** Joining the pieces of a split with the separator gives the text back. */
  lemma {:induction false} JoinSplit(s: string, c: char)
    ensures Join([c], Split(s, c)) == s
  {
    if s == [] {
    } else if s[0] == c {
      JoinSplit(s[1..], c);
      JoinCons([c], "", Split(s[1..], c));
      assert [c] + s[1..] == s;
    } else {
      var rest := Split(s[1..], c);
      JoinSplit(s[1..], c);
      if |rest| == 1 {
        assert Split(s, c) == [[s[0]] + rest[0]];
      } else {
        assert rest == [rest[0]] + rest[1..];
        JoinCons([c], rest[0], rest[1..]);
        JoinCons([c], [s[0]] + rest[0], rest[1..]);
      }
      assert [s[0]] + s[1..] == s;
    }
  }

  /** A text without the separator splits into itself. */
  lemma {:induction false} SplitAbsent(s: string, c: char)
    requires c !in s
    ensures Split(s, c) == [s]
  {
    if s != [] {
      SplitAbsent(s[1..], c);
      assert [s[0]] + s[1..] == s;
    }
  }

  /** Splitting `a + [c] + b` where `b` has no separator gives `b` last. */
  lemma {:induction false} SplitLast(a: string, c: char, b: string)
    requires c !in b
    ensures Split(a + [c] + b, c) == Split(a, c) + [b]
    decreases |a|
  {
    if a == [] {
      assert a + [c] + b == [c] + b;
      assert ([c] + b)[1..] == b;
      SplitAbsent(b, c);
    } else {
      SplitLast(a[1..], c, b);
      assert (a + [c] + b)[1..] == a[1..] + [c] + b;
    }
  }

  /** Splitting `a + [c] + b` where `a` has no separator gives `a` first. */
  lemma {:induction false} SplitFirst(a: string, c: char, b: string)
    requires c !in a
    ensures Split(a + [c] + b, c) == [a] + Split(b, c)
  {
    if a == [] {
      assert a + [c] + b == [c] + b;
      assert ([c] + b)[1..] == b;
    } else {
      SplitFirst(a[1..], c, b);
      assert (a + [c] + b)[1..] == a[1..] + [c] + b;
      assert [a[0]] + a[1..] == a;
    }
  }

  /** Start of the last occurrence of `sub` in `s`, or -1 (Python's `rfind`). */
  function RFind(s: string, sub: string): (i: int)
    ensures -1 <= i
    ensures i >= 0 ==> OccursAt(s, sub, i)
    ensures forall j | i < j :: !OccursAt(s, sub, j)
  {
    if |sub| > |s| then -1 else RFindBelow(s, sub, |s| - |sub|)
  }

  function RFindBelow(s: string, sub: string, k: int): (i: int)
    requires -1 <= k <= |s| - |sub|
    decreases k + 1
    ensures -1 <= i <= k
    ensures i >= 0 ==> OccursAt(s, sub, i)
    ensures forall j | i < j <= k :: !OccursAt(s, sub, j)
  {
    if k < 0 then -1
    else if s[k..k + |sub|] == sub then k
    else RFindBelow(s, sub, k - 1)
  }

  /**
   * Python's `s.rpartition(sep)`: the text before the last occurrence, the
   * separator, and the text after it; `("", "", s)` when there is none.
   * An empty separator raises in Python; it is excluded here.
   */
  function RPartition(s: string, sep: string): (r: (string, string, string))
    requires sep != []
    ensures r.1 == [] ==> r == ("", "", s) && !Contains(s, sep)
    ensures r.1 != [] ==> r.1 == sep && r.0 + sep + r.2 == s && !Contains(r.2, sep)
  {
    var i := RFind(s, sep);
    if i < 0 then ("", "", s)
    else
      var head, tail := s[..i], s[i + |sep|..];
      assert head + sep + tail == s by {
        assert s == s[..i] + s[i..i + |sep|] + s[i + |sep|..];
      }
      assert !Contains(tail, sep) by {
        if Contains(tail, sep) {
          var j :| 0 <= j <= |tail| - |sep| && OccursAt(tail, sep, j);
          assert s[i + |sep| + j..i + |sep| + j + |sep|] == tail[j..j + |sep|];
          assert OccursAt(s, sep, i + |sep| + j);
        }
      }
      (head, sep, tail)
  }

  /**
   * When the separator's first character does not recur in it, the last
   * occurrence in `a + sep + b` with `b` free of `sep` is the one after `a`.
   */
  lemma RPartitionAt(a: string, sep: string, b: string)
    requires sep != [] && sep[0] !in sep[1..] && !Contains(b, sep)
    ensures RPartition(a + sep + b, sep) == (a, sep, b)
  {
    var s := a + sep + b;
    assert s[|a|..|a| + |sep|] == sep;
    assert OccursAt(s, sep, |a|);
    var i := RFind(s, sep);
    if i >= |a| + |sep| {
      var j := i - |a| - |sep|;
      assert b[j..j + |sep|] == s[i..i + |sep|];
      assert OccursAt(b, sep, j);
      assert false;
    }
    assert s[..|a|] == a && s[|a| + |sep|..] == b;
  }

  /** A text lacking one of the characters of `sub` does not contain `sub`. */
  lemma MissingChar(s: string, sub: string, c: char)
    requires c in sub && c !in s
    ensures !Contains(s, sub)
  {
  }

  /** `s.lstrip(chars)`. */
  function LStrip(s: string, chars: set<char>): (r: string)
    ensures |r| <= |s| && r == s[|s| - |r|..]
    ensures r == [] || r[0] !in chars
    ensures forall k :: 0 <= k < |s| - |r| ==> s[k] in chars
  {
    if s != [] && s[0] in chars then LStrip(s[1..], chars) else s
  }

  /** `s.rstrip(chars)`. */
  function RStrip(s: string, chars: set<char>): (r: string)
    ensures |r| <= |s| && r == s[..|r|]
    ensures r == [] || r[|r| - 1] !in chars
    ensures forall k :: |r| <= k < |s| ==> s[k] in chars
  {
    if s != [] && s[|s| - 1] in chars then RStrip(s[..|s| - 1], chars) else s
  }

  /** `s.strip(chars)`. */
  function Strip(s: string, chars: set<char>): (r: string)
    ensures r == [] || (r[0] !in chars && r[|r| - 1] !in chars)
  {
    RStrip(LStrip(s, chars), chars)
  }

  function LowerChar(c: char): char
  {
    if 'A' <= c <= 'Z' then (c as int + 32) as char else c
  }

  /** `s.lower()` on the ASCII letters. */
  function Lower(s: string): (r: string)
    ensures |r| == |s|
    ensures forall k :: 0 <= k < |r| ==> !('A' <= r[k] <= 'Z')
    ensures forall k :: 0 <= k < |r| ==> r[k] == LowerChar(s[k])
  {
    if s == [] then [] else [LowerChar(s[0])] + Lower(s[1..])
  }

  /** Lower-casing twice is lower-casing once. */
  lemma LowerIdempotent(s: string)
    ensures Lower(Lower(s)) == Lower(s)
  {
  }
}
