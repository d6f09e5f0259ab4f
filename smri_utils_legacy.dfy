/**
 * The first copy of the smriprep tables, dwiprep/workflows/smri/utils/smriprep.py,
 * which the smriprep manager imports. Its path-like options, allowed
 * datatypes, `validate_queries` and `locate_fs_license_file` are those of
 * `SmriUtils`; its default options are spelled with their leading dashes.
 */
module SmriUtilsLegacy {
  import opened Py
  import opened Dicts
  import SmriUtils

  const PATH_LIKE_KWARGS: seq<string> := SmriUtils.PATH_LIKE_KWARGS

  const DEFAULT_KWARGS: Dict<string, Value> := [("--output-spaces", List(["MNI152NLin2009cAsym", "anat"]))]

  /** The same default output spaces, under the option's full command-line spelling. */
  lemma DefaultKwargsDashed()
    ensures |DEFAULT_KWARGS| == |SmriUtils.DEFAULT_KWARGS| == 1
    ensures DEFAULT_KWARGS[0] == ("--" + SmriUtils.DEFAULT_KWARGS[0].0, SmriUtils.DEFAULT_KWARGS[0].1)
  {
    assert "--" + "output-spaces" == "--output-spaces";
  }
}
