/**
 * The earlier data collection (dwiprep/utils/bids_query/bids_query.py): four
 * fixed datatype queries, the user's identifiers used afterwards to keep only
 * the files whose names carry every `key-value` entity, and the paths of the
 * symbolic links mirroring those files under a scratch directory.
 */
module LegacyBidsQuery {
  import opened Py
  import opened Text
  import opened Paths
  import opened Dicts
  import opened Sorting
  import opened BidsLayout

  const DEFAULT_SYMLINK_DIR_NAME := "tmp"

  /** The four queries of `collect_data`, in their dict order. */
  const QUERIES: Dict<string, Query> :=
    [("fmap", [("datatype", Str("fmap"))]),
     ("dwi", [("datatype", Str("dwi")), ("suffix", Str("dwi"))]),
     ("t2w", [("datatype", Str("anat")), ("suffix", Str("T2w"))]),
     ("t1w", [("datatype", Str("anat")), ("suffix", Str("T1w"))])]

  /** What calling `.items()` on a None identifier raises. */
  const NONE_ITEMS := "'NoneType' object has no attribute 'items'"

  /** A value of the subject-data dictionary: a list of files, a single file, or the verdict on one. */
  datatype Entry = Files(files: seq<string>) | One(file: string) | Flag(ok: bool)

  /** `validate_file(rules, fname)`: one verdict per rule collected in a list, then `all` of it. */
  method ValidateFile(rules: Query, fname: string) returns (ok: bool)
    ensures ok <==> Passes(rules, fname)
    ensures rules == [] ==> ok
  {
    var valid: seq<bool> := [];
    for i := 0 to |rules|
      invariant |valid| == i
      invariant forall j :: 0 <= j < i ==> (valid[j] <==> Contains(fname, EntityText(rules[j].0, rules[j].1)))
    {
      var (key, value) := rules[i];
      if Contains(fname, key + "-" + ToStr(value)) {
        valid := valid + [true];
      } else {
        valid := valid + [false];
      }
    }
    ok := forall j :: 0 <= j < |valid| ==> valid[j];
  }

  /** `[val for val in files if validate_file(rules, val)]`. */
  function Kept(rules: Query, files: seq<string>): (r: seq<string>)
    ensures |r| <= |files|
    ensures forall f :: f in r <==> f in files && Passes(rules, f)
  {
    if files == [] then []
    else
      var last := files[|files| - 1];
      assert files == files[..|files| - 1] + [last];
      Kept(rules, files[..|files| - 1]) + (if Passes(rules, last) then [last] else [])
  }

  /** The comprehension, one `validate_file` call per file. */
  method KeepValid(rules: Query, files: seq<string>) returns (kept: seq<string>)
    ensures kept == Kept(rules, files)
  {
    kept := [];
    for i := 0 to |files|
      invariant kept == Kept(rules, files[..i])
    {
      var ok := ValidateFile(rules, files[i]);
      assert files[..i + 1][..i] == files[..i];
      if ok {
        kept := kept + [files[i]];
      }
    }
    assert files[..|files|] == files;
  }

  /** Filtering keeps the order, so a sorted list stays sorted. */
  lemma {:induction false} KeptSorted(rules: Query, files: seq<string>)
    requires Sorted(files)
    ensures Sorted(Kept(rules, files))
    decreases |files|
  {
    if files != [] {
      var n := |files| - 1;
      var init := files[..n];
      assert Sorted(init) by {
        forall i, j | 0 <= i < j < n ensures Le(init[i], init[j]) {
          assert init[i] == files[i] && init[j] == files[j];
        }
      }
      KeptSorted(rules, init);
      var before := Kept(rules, init);
      if Passes(rules, files[n]) {
        var r := before + [files[n]];
        forall i, j | 0 <= i < j < |r| ensures Le(r[i], r[j]) {
          if j < |before| {
            assert r[i] == before[i] && r[j] == before[j];
          } else {
            assert r[i] in init;
            var m :| 0 <= m < n && init[m] == r[i];
            assert files[m] == r[i];
          }
        }
      }
    }
  }

  /** The rules of a datatype: `identifiers.get(key)`, where a user identifier may itself be None. */
  function RulesFor(identifiers: Dict<string, Option<Query>>, key: string): Option<Query>
  {
    match Get(identifiers, key)
    case None => None
    case Some(rules) => rules
  }

  /**
   * One value of `identify_data_types`: a list is filtered (no call is made
   * for an empty list), a single file becomes its verdict. Calling
   * `validate_file` with None rules fails on `None.items()`; a boolean in
   * place of a file name fails on `in` as soon as there is a rule.
   */
  function IdentifiedEntry(rules: Option<Query>, value: Entry): Result<Entry>
  {
    match value
    case Files(fs) =>
      if fs == [] then Ok(Files([]))
      else if rules.None? then Err(AttributeError(NONE_ITEMS))
      else Ok(Files(Kept(rules.value, fs)))
    case One(f) =>
      if rules.None? then Err(AttributeError(NONE_ITEMS)) else Ok(Flag(Passes(rules.value, f)))
    case Flag(_) =>
      if rules.None? then Err(AttributeError(NONE_ITEMS))
      else if rules.value == [] then Ok(Flag(true))
      else Err(TypeError("argument of type 'bool' is not iterable"))
  }

  /** The dictionary `identify_data_types` has built after the entries of `subj`, or the first failure. */
  function Identified(subj: Dict<string, Entry>, identifiers: Dict<string, Option<Query>>): Result<Dict<string, Entry>>
  {
    if subj == [] then Ok([])
    else
      var (key, value) := subj[|subj| - 1];
      var before := Identified(subj[..|subj| - 1], identifiers);
      if before.Err? then before
      else
        var e := IdentifiedEntry(RulesFor(identifiers, key), value);
        if e.Err? then Err(e.error) else Ok(Set(before.value, key, e.value))
  }

  /** One entry of the loop of `identify_data_types`. */
  method IdentifyEntry(rules: Option<Query>, value: Entry) returns (r: Result<Entry>)
    ensures r == IdentifiedEntry(rules, value)
  {
    match value {
      case Files(fs) =>
        if fs == [] {
          r := Ok(Files([]));
        } else if rules.None? {
          r := Err(AttributeError(NONE_ITEMS));
        } else {
          var kept := KeepValid(rules.value, fs);
          r := Ok(Files(kept));
        }
      case One(f) =>
        if rules.None? {
          r := Err(AttributeError(NONE_ITEMS));
        } else {
          var ok := ValidateFile(rules.value, f);
          r := Ok(Flag(ok));
        }
      case Flag(_) =>
        if rules.None? {
          r := Err(AttributeError(NONE_ITEMS));
        } else if rules.value == [] {
          r := Ok(Flag(true));
        } else {
          r := Err(TypeError("argument of type 'bool' is not iterable"));
        }
    }
  }

  /** A failure stays a failure whatever entries follow. */
  lemma {:induction false} IdentifiedErrStays(subj: Dict<string, Entry>, identifiers: Dict<string, Option<Query>>, i: int)
    requires 0 <= i <= |subj| && Identified(subj[..i], identifiers).Err?
    ensures Identified(subj, identifiers) == Identified(subj[..i], identifiers)
    decreases |subj| - i
  {
    if i < |subj| {
      assert subj[..i + 1][..i] == subj[..i];
      IdentifiedErrStays(subj, identifiers, i + 1);
    } else {
      assert subj[..i] == subj;
    }
  }

  /** `identify_data_types(subj_data, identifiers)`. */
  method IdentifyDataTypes(subjData: Dict<string, Entry>, identifiers: Dict<string, Option<Query>>) returns (r: Result<Dict<string, Entry>>)
    ensures r == Identified(subjData, identifiers)
  {
    var identified: Dict<string, Entry> := [];
    for i := 0 to |subjData|
      invariant Identified(subjData[..i], identifiers) == Ok(identified)
    {
      var (key, value) := subjData[i];
      var rules := RulesFor(identifiers, key);
      var e := IdentifyEntry(rules, value);
      assert subjData[..i + 1][..i] == subjData[..i];
      if e.Err? {
        IdentifiedErrStays(subjData, identifiers, i + 1);
        return Err(e.error);
      }
      identified := Set(identified, key, e.value);
    }
    assert subjData[..|subjData|] == subjData;
    r := Ok(identified);
  }

  /** The call fails exactly when some entry fails. */
  lemma {:induction false} IdentifiedFails(subj: Dict<string, Entry>, identifiers: Dict<string, Option<Query>>)
    ensures Identified(subj, identifiers).Err?
      <==> exists i :: 0 <= i < |subj| && IdentifiedEntry(RulesFor(identifiers, subj[i].0), subj[i].1).Err?
    decreases |subj|
  {
    if subj != [] {
      var n := |subj| - 1;
      IdentifiedFails(subj[..n], identifiers);
      if exists i :: 0 <= i < n && IdentifiedEntry(RulesFor(identifiers, subj[..n][i].0), subj[..n][i].1).Err? {
        var i :| 0 <= i < n && IdentifiedEntry(RulesFor(identifiers, subj[..n][i].0), subj[..n][i].1).Err?;
        assert subj[i] == subj[..n][i];
      }
      if exists i :: 0 <= i < |subj| && IdentifiedEntry(RulesFor(identifiers, subj[i].0), subj[i].1).Err? {
        var i :| 0 <= i < |subj| && IdentifiedEntry(RulesFor(identifiers, subj[i].0), subj[i].1).Err?;
        if i < n {
          assert subj[..n][i] == subj[i];
        }
      }
    }
  }

  /**
   * `out` has the keys of `subj`, in its order, and each value is the
   * identified form of the input's.
   */
  predicate IdentifiedPairwise(subj: Dict<string, Entry>, identifiers: Dict<string, Option<Query>>, out: Dict<string, Entry>)
  {
    |out| == |subj|
    && forall i :: 0 <= i < |subj| ==>
         out[i].0 == subj[i].0 && IdentifiedEntry(RulesFor(identifiers, subj[i].0), subj[i].1) == Ok(out[i].1)
  }

  /** A successful call succeeded on every entry before the last, and assigned the last one. */
  lemma IdentifiedLast(subj: Dict<string, Entry>, identifiers: Dict<string, Option<Query>>)
    requires subj != [] && Identified(subj, identifiers).Ok?
    ensures Identified(subj[..|subj| - 1], identifiers).Ok?
    ensures IdentifiedEntry(RulesFor(identifiers, subj[|subj| - 1].0), subj[|subj| - 1].1).Ok?
    ensures Identified(subj, identifiers).value
      == Set(Identified(subj[..|subj| - 1], identifiers).value, subj[|subj| - 1].0,
             IdentifiedEntry(RulesFor(identifiers, subj[|subj| - 1].0), subj[|subj| - 1].1).value)
  {
  }

  /** One more entry, identified, extends a pairwise result. */
  lemma PairwiseAppend(subj: Dict<string, Entry>, identifiers: Dict<string, Option<Query>>, out: Dict<string, Entry>, key: string, value: Entry, e: Entry)
    requires IdentifiedPairwise(subj, identifiers, out)
    requires IdentifiedEntry(RulesFor(identifiers, key), value) == Ok(e)
    ensures IdentifiedPairwise(subj + [(key, value)], identifiers, out + [(key, e)])
  {
    var s2, o2 := subj + [(key, value)], out + [(key, e)];
    forall i | 0 <= i < |s2|
      ensures o2[i].0 == s2[i].0 && IdentifiedEntry(RulesFor(identifiers, s2[i].0), s2[i].1) == Ok(o2[i].1)
    {
      if i < |subj| {
        assert s2[i] == subj[i] && o2[i] == out[i];
      }
    }
  }

  /**
   * On success the result has the keys of the input, in its order, and each
   * value is the identified form of the input's: lists keep exactly the files
   * that pass, in order; single files become their verdict.
   */
  lemma {:induction false} IdentifiedShape(subj: Dict<string, Entry>, identifiers: Dict<string, Option<Query>>)
    requires Valid(subj) && Identified(subj, identifiers).Ok?
    ensures IdentifiedPairwise(subj, identifiers, Identified(subj, identifiers).value)
    decreases |subj|
  {
    if subj != [] {
      var n := |subj| - 1;
      var init := subj[..n];
      assert Valid(init) by {
        forall i, j | 0 <= i < j < n ensures init[i].0 != init[j].0 {
          assert init[i] == subj[i] && init[j] == subj[j];
        }
      }
      IdentifiedLast(subj, identifiers);
      IdentifiedShape(init, identifiers);
      var before := Identified(init, identifiers).value;
      var (key, value) := subj[n];
      assert key !in Keys(before) by {
        forall i | 0 <= i < |before| ensures Keys(before)[i] != key {
          assert before[i].0 == init[i].0 == subj[i].0;
        }
      }
      var e := IdentifiedEntry(RulesFor(identifiers, key), value).value;
      SetAbsent(before, key, e);
      PairwiseAppend(init, identifiers, before, key, value, e);
      assert init + [(key, value)] == subj;
    }
  }

  /** `create_symlink`'s target: the source with the dataset root's text removed and '/' stripped, under the link directory. */
  function SymlinkTarget(source: string, symlinkDir: string, bidsDir: string): string
  {
    JoinPath(symlinkDir, Strip(Replace(Normal(source), bidsDir, ""), {'/'}))
  }

  /** Stripping '/' from "/rel" leaves `rel` when `rel` neither starts nor ends with '/'. */
  lemma StripLeadingSlash(rel: string)
    requires rel != "" && rel[0] != '/' && rel[|rel| - 1] != '/'
    ensures Strip("/" + rel, {'/'}) == rel
  {
    assert ("/" + rel)[1..] == rel;
    assert LStrip("/" + rel, {'/'}) == LStrip(rel, {'/'});
  }

  /** A file `bids_dir/rel` is mirrored at `symlink_dir/rel`. */
  lemma SymlinkMirrors(symlinkDir: string, bidsDir: string, rel: string)
    requires bidsDir != "" && Normal(bidsDir + "/" + rel) == bidsDir + "/" + rel
    requires !Contains("/" + rel, bidsDir)
    requires rel != "" && rel[0] != '/' && rel[|rel| - 1] != '/'
    ensures SymlinkTarget(bidsDir + "/" + rel, symlinkDir, bidsDir) == JoinPath(symlinkDir, rel)
  {
    var source := bidsDir + "/" + rel;
    assert source == bidsDir + ("/" + rel);
    calc {
      Replace(Normal(source), bidsDir, "");
      Replace(bidsDir + ("/" + rel), bidsDir, "");
      { ReplaceLeading(bidsDir, "/" + rel, ""); }
      "" + Replace("/" + rel, bidsDir, "");
      { ReplaceAbsent("/" + rel, bidsDir, ""); }
      "" + ("/" + rel);
      "/" + rel;
    }
    StripLeadingSlash(rel);
  }

  /** `build_symlink_directory`'s value for one entry: `Path(True)` of a verdict raises. */
  function LinkedEntry(value: Entry, symlinkDir: string, bidsDir: string): Result<Entry>
  {
    match value
    case Files(fs) => Ok(Files(seq(|fs|, k requires 0 <= k < |fs| => SymlinkTarget(fs[k], symlinkDir, bidsDir))))
    case One(f) => Ok(One(SymlinkTarget(f, symlinkDir, bidsDir)))
    case Flag(_) => Err(TypeError("expected str, bytes or os.PathLike object, not bool"))
  }

  /** The dictionary `build_symlink_directory` has built after the entries of `data`, or the first failure. */
  function Linked(data: Dict<string, Entry>, symlinkDir: string, bidsDir: string): Result<Dict<string, Entry>>
  {
    if data == [] then Ok([])
    else
      var (key, value) := data[|data| - 1];
      var before := Linked(data[..|data| - 1], symlinkDir, bidsDir);
      if before.Err? then before
      else
        var e := LinkedEntry(value, symlinkDir, bidsDir);
        if e.Err? then Err(e.error) else Ok(Set(before.value, key, e.value))
  }

  /** The link directory `build_symlink_directory` falls back to: `tmp` beside the dataset. */
  function DefaultSymlinkDir(bidsDir: string): string
  {
    JoinPath(Parent(bidsDir), DEFAULT_SYMLINK_DIR_NAME)
  }

  /** The identifiers table of `collect_data`, in its dict order. */
  function Identifiers(dwi: Option<Query>, fmap: Option<Query>, t1w: Option<Query>, t2w: Option<Query>): Dict<string, Option<Query>>
  {
    [("fmap", fmap), ("dwi", dwi), ("t2w", t2w), ("t1w", t1w)]
  }

  /** The subject's sorted lists per query, as entries. */
  function SubjData(layout: Layout, subject: string): (r: Dict<string, Entry>)
    ensures Keys(r) == Keys(QUERIES)
    ensures forall i :: 0 <= i < |r| ==>
      r[i].1.Files? && Sorted(r[i].1.files)
      && multiset(r[i].1.files) == multiset(layout(subject, NII_EXTENSIONS, QUERIES[i].1))
  {
    NoClash();
    var lists := Collect(layout, subject, NII_EXTENSIONS, QUERIES).value;
    var r := seq(|lists|, i requires 0 <= i < |lists| => (lists[i].0, Files(lists[i].1)));
    assert Keys(r) == Keys(lists) by {
      assert forall i :: 0 <= i < |r| ==> Keys(r)[i] == Keys(lists)[i];
    }
    r
  }

  /** None of the four queries repeats a fixed keyword. */
  lemma NoClash()
    ensures !AnyClash(QUERIES)
  {
    forall i, j | 0 <= i < |QUERIES| && 0 <= j < |QUERIES[i].1|
      ensures QUERIES[i].1[j].0 !in FIXED_KEYWORDS
    {
      assert QUERIES[i].1[j].0 == "datatype" || QUERIES[i].1[j].0 == "suffix";
    }
  }

  /**
   * `collect_data(bids_dir, participant_label, ...)` for a dataset given by its
   * path: the identified data and the symbolic-link paths built from it.
   */
  method CollectData(layout: Layout, bidsDir: string, participantLabel: string,
                     dwiIdentifier: Option<Query>, fmapIdentifier: Option<Query>,
                     t1wIdentifier: Option<Query>, t2wIdentifier: Option<Query>)
    returns (r: Result<(Dict<string, Entry>, Dict<string, Entry>)>)
    ensures var identified := Identified(SubjData(layout, participantLabel),
                                         Identifiers(dwiIdentifier, fmapIdentifier, t1wIdentifier, t2wIdentifier));
      if identified.Err? then r == Err(identified.error)
      else
        var links := Linked(identified.value, DefaultSymlinkDir(bidsDir), bidsDir);
        if links.Err? then r == Err(links.error) else r == Ok((identified.value, links.value))
  {
    var subjData := SubjData(layout, participantLabel);
    var identifiers := Identifiers(dwiIdentifier, fmapIdentifier, t1wIdentifier, t2wIdentifier);
    var identified := IdentifyDataTypes(subjData, identifiers);
    if identified.Err? {
      return Err(identified.error);
    }
    var links := Linked(identified.value, DefaultSymlinkDir(bidsDir), bidsDir);
    if links.Err? {
      return Err(links.error);
    }
    r := Ok((identified.value, links.value));
  }

  /** The four query names, in their dict order. */
  lemma QueryNames()
    ensures Keys(QUERIES) == ["fmap", "dwi", "t2w", "t1w"]
  {
  }

  /** The subject's lists are keyed by distinct names. */
  lemma SubjDataValid(layout: Layout, subject: string)
    ensures Valid(SubjData(layout, subject))
  {
    var subj := SubjData(layout, subject);
    QueryNames();
    forall i, j | 0 <= i < j < |subj| ensures subj[i].0 != subj[j].0 {
      assert subj[i].0 == Keys(subj)[i] && subj[j].0 == Keys(subj)[j];
    }
  }

  /** Identifying a sorted list keeps it a sorted list. */
  lemma IdentifiedListSorted(rules: Option<Query>, fs: seq<string>, e: Entry)
    requires Sorted(fs) && IdentifiedEntry(rules, Files(fs)) == Ok(e)
    ensures e.Files? && Sorted(e.files)
  {
    if fs != [] {
      KeptSorted(rules.value, fs);
    }
  }

  /** The identified data of `collect_data` has the four datatypes as keys, each a sorted list of passing files. */
  lemma CollectedData(layout: Layout, subject: string, ids: Dict<string, Option<Query>>)
    requires Identified(SubjData(layout, subject), ids).Ok?
    ensures Keys(Identified(SubjData(layout, subject), ids).value) == ["fmap", "dwi", "t2w", "t1w"]
    ensures forall i :: 0 <= i < 4 ==>
      Identified(SubjData(layout, subject), ids).value[i].1.Files?
      && Sorted(Identified(SubjData(layout, subject), ids).value[i].1.files)
  {
    var subj := SubjData(layout, subject);
    QueryNames();
    SubjDataValid(layout, subject);
    IdentifiedShape(subj, ids);
    var out := Identified(subj, ids).value;
    assert Keys(out) == Keys(subj) by {
      assert forall i :: 0 <= i < |out| ==> Keys(out)[i] == Keys(subj)[i];
    }
    forall i | 0 <= i < 4 ensures out[i].1.Files? && Sorted(out[i].1.files) {
      IdentifiedListSorted(RulesFor(ids, subj[i].0), subj[i].1.files, out[i].1);
    }
  }
}
