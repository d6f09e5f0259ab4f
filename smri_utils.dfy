/**
 * The smriprep tables of src/dwiprep/workflows/smri/utils/utils.py: which
 * command-line options take paths, which are flags, which the driver fills
 * in itself, the expected outputs, and the filter that keeps only the
 * queries smriprep accepts.
 */
module SmriUtils {
  import opened Py
  import opened Paths
  import opened Dicts

  const PATH_LIKE_KWARGS: seq<string> := ["bids-filter-file", "fs-license-file", "fs-subjects-dir", "work-dir", "w"]

  const FLAGS: seq<string> := [
    "skip_bids_validation", "low-mem", "boilerplate", "longitudinal", "skull-strip-fixed-seed",
    "no-submm-recon", "fs-no-reconall", "fast-track", "resource-monitor", "reports-only",
    "write-graph", "stop-on-first-crash", "notrack", "sloppy"
  ]

  /** Option name -> the driver attribute that supplies it. */
  const AUTOMATIC_KWARGS: Dict<string, string> := [
    ("participant_label", "participant_label"), ("work-dir", "work_dir"), ("bids-filter-file", "bids_filter_path")
  ]

  const ALLOWED_BIDS_ENTITIES: seq<string> := ["t1w", "t2w"]

  const DEFAULT_KWARGS: Dict<string, Value> := [("output-spaces", List(["MNI152NLin2009cAsym", "anat"]))]

  /** The smriprep outputs, all under `anat`: output key -> file pattern. */
  const SMRIPREP_OUTPUTS: seq<(string, string)> := [
    ("native_T1w", "desc-preproc_T1w.nii.gz"),
    ("native_brain_mask", "desc-brain_mask.nii.gz"),
    ("native_parcellation", "*dseg.nii.gz"),
    ("native_csf", "label-CSF_probseg.nii.gz"),
    ("native_gm", "label-GM_probseg.nii.gz"),
    ("native_wm", "label-WM_probseg.nii.gz"),
    ("standard_T1w", "space-MNI152NLin2009cAsym_desc-preproc_T1w.nii.gz"),
    ("standard_brain_mask", "space-MNI152NLin2009cAsym_desc-brain_mask.nii.gz"),
    ("standard_parcellation", "space-MNI152NLin2009cAsym_dseg.nii.gz"),
    ("standard_csf", "space-MNI152NLin2009cAsym_label-CSF_probseg.nii.gz"),
    ("standard_gm", "space-MNI152NLin2009cAsym_label-GM_probseg.nii.gz"),
    ("standard_wm", "space-MNI152NLin2009cAsym_label-WM_probseg.nii.gz"),
    ("native_to_mni_transform", "from-T1w_to-MNI152NLin2009cAsym_mode-image_xfm.h5"),
    ("mni_to_native_transform", "from-MNI152NLin2009cAsym_to-T1w_mode-image_xfm.h5"),
    ("native_to_fsnative_transform", "from-T1w_to-fsnative_mode-image_xfm.txt"),
    ("fsnative_to_native_transform", "from-fsnative_to-T1w_mode-image_xfm.txt"),
    ("smoothwm", "hemi-*_smoothwm.surf.gii"),
    ("pial", "hemi-*_pial.surf.gii"),
    ("midthickness", "hemi-*_midthickness.surf.gii"),
    ("inflated", "hemi-*_inflated.surf.gii")
  ]

  /** The FreeSurfer outputs: output key -> (sub-directory, file pattern). */
  const FREESURFER_OUTPUTS: seq<(string, string, string)> := [
    ("freesurfer_T1", "mri", "T1.mgz"),
    ("freesurfer_rawavg", "mri", "rawavg.mgz"),
    ("freesurfer_orig", "mri", "orig.mgz"),
    ("freesurfer_nu", "mri", "nu.mgz"),
    ("freesurfer_norm", "mri", "norm.mgz"),
    ("freesurfer_aseg", "mri", "aseg.mgz"),
    ("freesurfer_aseg_stats", "stats", "aseg.stats"),
    ("freesurfer_brain", "mri", "brain.mgz"),
    ("freesurfer_brainmask", "mri", "brainmask.mgz"),
    ("freesurfer_filled", "mri", "filled.mgz"),
    ("freesurfer_wm", "mri", "wm.mgz"),
    ("freesurfer_wmparc", "mri", "wmparc.mgz"),
    ("freesurfer_wmparc_stats", "stats", "wmparc.stats"),
    ("freesurfer_BA_stats", "stats", ".BA_exvivo*.stats")
  ]

  /**
   * `OUTPUTS`: output key -> (results directory, sub-directory, file
   * pattern), the smriprep entries first, in the table's order.
   */
  const OUTPUTS: Dict<string, seq<string>> := SmriprepEntries(SMRIPREP_OUTPUTS) + FreesurferEntries(FREESURFER_OUTPUTS)

  /** The smriprep rows of `OUTPUTS`. */
  function SmriprepEntries(files: seq<(string, string)>): (r: Dict<string, seq<string>>)
    ensures |r| == |files| && forall i :: 0 <= i < |r| ==> r[i] == (files[i].0, ["smriprep", "anat", files[i].1])
  {
    seq(|files|, i requires 0 <= i < |files| => (files[i].0, ["smriprep", "anat", files[i].1]))
  }

  /** The FreeSurfer rows of `OUTPUTS`. */
  function FreesurferEntries(files: seq<(string, string, string)>): (r: Dict<string, seq<string>>)
    ensures |r| == |files| && forall i :: 0 <= i < |r| ==> r[i] == (files[i].0, ["freesurfer", files[i].1, files[i].2])
  {
    seq(|files|, i requires 0 <= i < |files| => (files[i].0, ["freesurfer", files[i].1, files[i].2]))
  }

  /** An output description `find_output` can unpack and dispatch on. */
  predicate Unpackable(parts: seq<string>)
  {
    |parts| == 3 && (parts[0] == "smriprep" || parts[0] == "freesurfer")
  }

  /** Every expected output names three parts and one of the two result directories. */
  lemma OutputsShape()
    ensures |OUTPUTS| == 34
    ensures forall i :: 0 <= i < |OUTPUTS| ==> Unpackable(OUTPUTS[i].1)
  {
  }

  /**
   * `validate_queries(queries)`: the entries whose datatype smriprep can
   * query, values untouched, in their original order.
   */
  function ValidateQueries<V>(queries: Dict<string, V>): (r: Dict<string, V>)
    ensures forall p :: p in r ==> p in queries && p.0 in ALLOWED_BIDS_ENTITIES
    ensures forall i :: 0 <= i < |queries| && queries[i].0 in ALLOWED_BIDS_ENTITIES ==> queries[i] in r
  {
    if queries == [] then []
    else
      var init, last := queries[..|queries| - 1], queries[|queries| - 1];
      assert forall i :: 0 <= i < |init| ==> queries[i] == init[i];
      ValidateQueries(init) + (if last.0 in ALLOWED_BIDS_ENTITIES then [last] else [])
  }

  /** Exactly the allowed datatypes among the query names are kept. */
  lemma ValidateQueriesKeys<V>(queries: Dict<string, V>)
    ensures forall k :: k in Keys(ValidateQueries(queries)) <==> k in Keys(queries) && k in ALLOWED_BIDS_ENTITIES
  {
    var r := ValidateQueries(queries);
    forall k | k in Keys(r)
      ensures k in Keys(queries)
    {
      var i :| 0 <= i < |r| && Keys(r)[i] == k;
      assert r[i] in queries;
    }
    forall k | k in Keys(queries) && k in ALLOWED_BIDS_ENTITIES
      ensures k in Keys(r)
    {
      var i :| 0 <= i < |queries| && Keys(queries)[i] == k;
      var j :| 0 <= j < |r| && r[j] == queries[i];
      assert Keys(r)[j] == k;
    }
  }

  /** Filtering a concatenation filters each part: the kept entries stay in their order. */
  lemma {:induction false} ValidateQueriesAppend<V>(a: Dict<string, V>, b: Dict<string, V>)
    ensures ValidateQueries(a + b) == ValidateQueries(a) + ValidateQueries(b)
    decreases |b|
  {
    if b == [] {
      assert a + b == a;
    } else {
      var init, last := b[..|b| - 1], b[|b| - 1];
      assert (a + b)[..|a + b| - 1] == a + init && (a + b)[|a + b| - 1] == last;
      ValidateQueriesAppend(a, init);
    }
  }

  /** Filtering what has been filtered changes nothing. */
  lemma {:induction false} ValidateQueriesIdempotent<V>(queries: Dict<string, V>)
    ensures ValidateQueries(ValidateQueries(queries)) == ValidateQueries(queries)
    decreases |queries|
  {
    if queries != [] {
      var init, last := queries[..|queries| - 1], queries[|queries| - 1];
      ValidateQueriesIdempotent(init);
      var kept := if last.0 in ALLOWED_BIDS_ENTITIES then [last] else [];
      ValidateQueriesAppend(ValidateQueries(init), kept);
      if kept != [] {
        assert ValidateQueries(kept) == ValidateQueries(kept[..0]) + kept;
      }
    }
  }

  /** A filtered table of queries is still a dictionary. */
  lemma {:induction false} ValidateQueriesValid<V>(queries: Dict<string, V>)
    requires Dicts.Valid(queries)
    ensures Dicts.Valid(ValidateQueries(queries))
    decreases |queries|
  {
    if queries != [] {
      var init, last := queries[..|queries| - 1], queries[|queries| - 1];
      ValidateQueriesValid(init);
      var r := ValidateQueries(queries);
      forall i, j | 0 <= i < j < |r|
        ensures r[i].0 != r[j].0
      {
        if j == |r| - 1 && last.0 in ALLOWED_BIDS_ENTITIES {
          assert r[i] in ValidateQueries(init);
          var k :| 0 <= k < |init| && init[k] == r[i];
          assert queries[k] == r[i] && queries[|queries| - 1] == last;
        }
      }
    }
  }

  /** What `Path(None)` raises. */
  const NOT_A_PATH := "expected str, bytes or os.PathLike object, not NoneType"

  /**
   * `locate_fs_license_file()`: `license.txt` in the directory the
   * `FREESURFER_HOME` variable names (`fsHome`), when `isFile` finds it there; an
   * unset variable reaches `Path(None)` and raises `TypeError`.
   */
  function LocateFsLicenseFile(fsHome: Option<string>, isFile: string -> bool): (r: Result<Option<string>>)
    ensures r.Err? <==> fsHome.None?
    ensures r.Err? ==> r.error == TypeError(NOT_A_PATH)
    ensures r.Ok? && r.value.Some? ==>
      isFile(r.value.value) && Name(r.value.value) == "license.txt" && Parent(r.value.value) == Normal(fsHome.value)
    ensures r.Ok? && r.value.None? ==> !isFile(JoinPath(fsHome.value, "license.txt"))
  {
    if fsHome.None? then Err(TypeError(NOT_A_PATH))
    else
      var license := JoinPath(fsHome.value, "license.txt");
      assert IsPart("license.txt");
      NameOfJoin(fsHome.value, "license.txt");
      ParentOfJoin(fsHome.value, "license.txt");
      if isFile(license) then Ok(Some(license)) else Ok(None)
  }
}
