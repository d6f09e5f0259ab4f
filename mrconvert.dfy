/**
 * The mrconvert keyword mapping (mrconvert.py): sorting a list of files into
 * the keyword arguments of MRtrix3's `mrconvert` by their extensions, and
 * renaming a dictionary keyed by file type into one keyed by keyword.
 */
module Mrconvert {
  import opened Py
  import opened Paths
  import opened Dicts

  /** `KWARGS_BY_FILE_TYPES`: the keyword each file type is handed to mrconvert as. */
  const KWARGS_BY_FILE_TYPES: Dict<string, string> :=
    [("nifti", "in_file"), ("bval", "in_bval"), ("bvec", "in_bvec"), ("json", "json_import")]

  /** `MAP_KWARGS_TO_SUFFIXES`: the file-type keys each keyword accepts. */
  const MAP_KWARGS_TO_SUFFIXES: Dict<string, seq<string>> :=
    [("json_import", ["json"]), ("in_bval", ["bval"]), ("in_bvec", ["bvec"]), ("in_file", ["nii", "nii.gz"])]

  /** Some entry of `mapping` for keyword `k` lists the type key `t`. */
  predicate Accepts(mapping: Dict<string, seq<string>>, k: string, t: string)
  {
    exists j :: 0 <= j < |mapping| && mapping[j].0 == k && t in mapping[j].1
  }

  /** The inner loop for one file of type key `t`: every entry whose list holds `t` gets the file. */
  function AssignFile(out: Dict<string, string>, f: string, t: string, mapping: Dict<string, seq<string>>): Dict<string, string>
  {
    if mapping == [] then out
    else
      var before := AssignFile(out, f, t, mapping[..|mapping| - 1]);
      var (key, val) := mapping[|mapping| - 1];
      if t in val then Set(before, key, f) else before
  }

  /** The dictionary `map_list_to_kwargs` has built after the files of `files`. */
  function MapList(files: seq<string>, mapping: Dict<string, seq<string>>): Dict<string, string>
  {
    if files == [] then []
    else
      var f := files[|files| - 1];
      AssignFile(MapList(files[..|files| - 1], mapping), f, SuffixKey(f), mapping)
  }

  /** The last file of `files` whose type key some entry for keyword `k` accepts. */
  function LastAccepted(files: seq<string>, mapping: Dict<string, seq<string>>, k: string): (r: Option<string>)
    ensures r.Some? ==> r.value in files && Accepts(mapping, k, SuffixKey(r.value))
  {
    if files == [] then None
    else if Accepts(mapping, k, SuffixKey(files[|files| - 1])) then Some(files[|files| - 1])
    else LastAccepted(files[..|files| - 1], mapping, k)
  }

  /** The inner loop of `map_list_to_kwargs` for the file `f` of type key `t`. */
  method AssignFileLoop(out: Dict<string, string>, f: string, t: string, mapping: Dict<string, seq<string>>)
    returns (outDict: Dict<string, string>)
    ensures outDict == AssignFile(out, f, t, mapping)
  {
    outDict := out;
    for j := 0 to |mapping|
      invariant outDict == AssignFile(out, f, t, mapping[..j])
    {
      var (key, val) := mapping[j];
      assert mapping[..j + 1][..j] == mapping[..j];
      if t in val {
        outDict := Set(outDict, key, f);
      }
    }
    assert mapping[..|mapping|] == mapping;
  }

  /** One more file extends the built dictionary by that file's inner loop. */
  lemma MapListStep(files: seq<string>, mapping: Dict<string, seq<string>>, i: nat)
    requires i < |files|
    ensures MapList(files[..i + 1], mapping) == AssignFile(MapList(files[..i], mapping), files[i], SuffixKey(files[i]), mapping)
  {
    assert files[..i + 1][..i] == files[..i];
  }

  /** `map_list_to_kwargs(file_names, mapping)`. */
  method MapListToKwargs(fileNames: seq<string>, mapping: Dict<string, seq<string>>) returns (outDict: Dict<string, string>)
    ensures outDict == MapList(fileNames, mapping)
  {
    outDict := [];
    for i := 0 to |fileNames|
      invariant outDict == MapList(fileNames[..i], mapping)
    {
      MapListStep(fileNames, mapping, i);
      outDict := AssignFileLoop(outDict, fileNames[i], SuffixKey(fileNames[i]), mapping);
    }
    assert fileNames[..|fileNames|] == fileNames;
  }

  /** After one file, a keyword holds that file if it accepts the file's type, and what it held before otherwise. */
  lemma {:induction false} GetAssignFile(out: Dict<string, string>, f: string, t: string, mapping: Dict<string, seq<string>>, k: string)
    ensures Get(AssignFile(out, f, t, mapping), k) == if Accepts(mapping, k, t) then Some(f) else Get(out, k)
    decreases |mapping|
  {
    if mapping != [] {
      var n := |mapping| - 1;
      var init := mapping[..n];
      GetAssignFile(out, f, t, init, k);
      var (key, val) := mapping[n];
      GetSet(AssignFile(out, f, t, init), key, f, k);
      if Accepts(mapping, k, t) && !(key == k && t in val) {
        var j :| 0 <= j < |mapping| && mapping[j].0 == k && t in mapping[j].1;
        assert j < n && init[j] == mapping[j];
      }
      if Accepts(init, k, t) {
        var j :| 0 <= j < |init| && init[j].0 == k && t in init[j].1;
        assert mapping[j] == init[j];
      }
    }
  }

  /**
   * Every keyword ends up with the LAST file, in input order, whose type key it
   * accepts; a keyword that accepts none of the files is not a key at all.
   */
  lemma {:induction false} LastFileWins(files: seq<string>, mapping: Dict<string, seq<string>>, k: string)
    ensures Get(MapList(files, mapping), k) == LastAccepted(files, mapping, k)
    decreases |files|
  {
    if files != [] {
      var f := files[|files| - 1];
      LastFileWins(files[..|files| - 1], mapping, k);
      GetAssignFile(MapList(files[..|files| - 1], mapping), f, SuffixKey(f), mapping, k);
    }
  }

  /** The keys of the result are keys of the mapping, and each maps to one of the input files of an accepted type. */
  lemma KeysFromMapping(files: seq<string>, mapping: Dict<string, seq<string>>, k: string)
    requires k in Keys(MapList(files, mapping))
    ensures k in Keys(mapping)
    ensures Get(MapList(files, mapping), k).Some?
    ensures Get(MapList(files, mapping), k).value in files
  {
    LastFileWins(files, mapping, k);
    var j :| 0 <= j < |mapping| && mapping[j].0 == k && SuffixKey(LastAccepted(files, mapping, k).value) in mapping[j].1;
    assert Keys(mapping)[j] == k;
  }

  /** A file whose type key no keyword accepts leaves the result as it was. */
  lemma UnmatchedFileIgnored(files: seq<string>, mapping: Dict<string, seq<string>>, f: string, k: string)
    requires forall j :: 0 <= j < |mapping| ==> SuffixKey(f) !in mapping[j].1
    ensures Get(MapList(files + [f], mapping), k) == Get(MapList(files, mapping), k)
  {
    assert (files + [f])[..|files|] == files;
    GetAssignFile(MapList(files, mapping), f, SuffixKey(f), mapping, k);
  }

  /** In the default table both "nii" and "nii.gz" go to `in_file`; json, bval and bvec to their own keywords. */
  lemma DefaultSuffixes()
    ensures Accepts(MAP_KWARGS_TO_SUFFIXES, "in_file", "nii") && Accepts(MAP_KWARGS_TO_SUFFIXES, "in_file", "nii.gz")
    ensures Accepts(MAP_KWARGS_TO_SUFFIXES, "json_import", "json")
    ensures Accepts(MAP_KWARGS_TO_SUFFIXES, "in_bval", "bval")
    ensures Accepts(MAP_KWARGS_TO_SUFFIXES, "in_bvec", "bvec")
  {
    assert MAP_KWARGS_TO_SUFFIXES[3].1[0] == "nii" && MAP_KWARGS_TO_SUFFIXES[3].1[1] == "nii.gz";
    assert MAP_KWARGS_TO_SUFFIXES[0].1[0] == "json";
    assert MAP_KWARGS_TO_SUFFIXES[1].1[0] == "bval";
    assert MAP_KWARGS_TO_SUFFIXES[2].1[0] == "bvec";
  }

  /**
   * With the default table, a compressed NIfTI `stem.nii.gz` appended to any
   * list of files becomes the `in_file` keyword, whatever came before it.
   */
  lemma CompressedNiftiIsInFile(files: seq<string>, dir: string, stem: string)
    requires stem != "" && '.' !in stem && '/' !in stem
    ensures Get(MapList(files + [JoinPath(dir, stem + ".nii.gz")], MAP_KWARGS_TO_SUFFIXES), "in_file")
      == Some(JoinPath(dir, stem + ".nii.gz"))
  {
    var f := JoinPath(dir, stem + ".nii.gz");
    assert stem + ".nii.gz" == stem + "." + "nii.gz";
    SuffixKeyOf(dir, stem, "nii.gz");
    DefaultSuffixes();
    assert (files + [f])[..|files|] == files;
    GetAssignFile(MapList(files, MAP_KWARGS_TO_SUFFIXES), f, SuffixKey(f), MAP_KWARGS_TO_SUFFIXES, "in_file");
  }

  /** The dictionary `mrconvert_map_types_to_kwargs` has built after the entries of `parsed`. */
  function Renamed<V>(parsed: Dict<string, V>): Dict<Option<string>, V>
  {
    if parsed == [] then []
    else
      var (key, value) := parsed[|parsed| - 1];
      Set(Renamed(parsed[..|parsed| - 1]), Get(KWARGS_BY_FILE_TYPES, key), value)
  }

  /** The value of the last entry of `parsed` whose file type renames to `kwarg`. */
  function LastRenamedTo<V(==)>(parsed: Dict<string, V>, kwarg: Option<string>): (r: Option<V>)
    ensures r.Some? ==> exists i :: 0 <= i < |parsed| && parsed[i].1 == r.value && Get(KWARGS_BY_FILE_TYPES, parsed[i].0) == kwarg
  {
    if parsed == [] then None
    else if Get(KWARGS_BY_FILE_TYPES, parsed[|parsed| - 1].0) == kwarg then Some(parsed[|parsed| - 1].1)
    else
      var r := LastRenamedTo(parsed[..|parsed| - 1], kwarg);
      if r.Some? then
        var i :| 0 <= i < |parsed| - 1 && parsed[..|parsed| - 1][i].1 == r.value
                 && Get(KWARGS_BY_FILE_TYPES, parsed[..|parsed| - 1][i].0) == kwarg;
        assert parsed[i] == parsed[..|parsed| - 1][i];
        r
      else r
  }

  /** `mrconvert_map_types_to_kwargs(parsed_files)`: `KWARGS_BY_FILE_TYPES.get(key)` as the new key, the value unchanged. */
  method MapTypesToKwargs<V>(parsedFiles: Dict<string, V>) returns (filesByKwargs: Dict<Option<string>, V>)
    ensures filesByKwargs == Renamed(parsedFiles)
  {
    filesByKwargs := [];
    for i := 0 to |parsedFiles|
      invariant filesByKwargs == Renamed(parsedFiles[..i])
    {
      var (key, value) := parsedFiles[i];
      var kwarg := Get(KWARGS_BY_FILE_TYPES, key);
      filesByKwargs := Set(filesByKwargs, kwarg, value);
      assert parsedFiles[..i + 1][..i] == parsedFiles[..i];
    }
    assert parsedFiles[..|parsedFiles|] == parsedFiles;
  }

  /**
   * Each keyword holds the value of the last entry renamed to it; an unknown
   * file type renames to None, so all unknown types share the key None and the
   * last of them wins.
   */
  lemma {:induction false} LastRenamedWins<V>(parsed: Dict<string, V>, kwarg: Option<string>)
    ensures Get(Renamed(parsed), kwarg) == LastRenamedTo(parsed, kwarg)
    decreases |parsed|
  {
    if parsed != [] {
      var (key, value) := parsed[|parsed| - 1];
      LastRenamedWins(parsed[..|parsed| - 1], kwarg);
      GetSet(Renamed(parsed[..|parsed| - 1]), Get(KWARGS_BY_FILE_TYPES, key), value, kwarg);
    }
  }

  /** The four known file types rename to their keywords. */
  lemma KnownTypes()
    ensures Get(KWARGS_BY_FILE_TYPES, "nifti") == Some("in_file")
    ensures Get(KWARGS_BY_FILE_TYPES, "bval") == Some("in_bval")
    ensures Get(KWARGS_BY_FILE_TYPES, "bvec") == Some("in_bvec")
    ensures Get(KWARGS_BY_FILE_TYPES, "json") == Some("json_import")
  {
    var d := KWARGS_BY_FILE_TYPES;
    assert d[1..][1..][1..] == [("json", "json_import")];
  }

  /** Any other file type renames to None. */
  lemma UnknownType(key: string)
    requires key != "nifti" && key != "bval" && key != "bvec" && key != "json"
    ensures Get(KWARGS_BY_FILE_TYPES, key) == None
  {
    var d := KWARGS_BY_FILE_TYPES;
    assert d[1..][1..][1..][1..] == [];
  }
}
