/**
 * The data collection of src/dwiprep/utils/bids_query/bids_query.py: four
 * default datatype queries, each merged with the user's identifier (the
 * user's entities win), one sorted list of files per query, and the same
 * `key-value` file-name check as the earlier module.
 */
module BidsQuery {
  import opened Py
  import opened Text
  import opened Dicts
  import opened Sorting
  import opened BidsLayout

  const DWI_QUERY: Query := [("datatype", Str("dwi")), ("suffix", Str("dwi"))]
  const FMAP_QUERY: Query := [("datatype", Str("fmap"))]
  const T1W_QUERY: Query := [("datatype", Str("anat")), ("suffix", Str("T1w"))]
  const T2W_QUERY: Query := [("datatype", Str("anat")), ("suffix", Str("T2w"))]

  const FILE_EXTENSIONS: seq<string> := ["nii", "nii.gz"]

  /** `{**default, **user}`: the default entities, overridden and extended by the user's. */
  function Merged(default: Query, user: Query): Query
  {
    Update(default, user)
  }

  /** The `queries` table of `collect_data`, in its dict order. */
  function Queries(dwi: Query, fmap: Query, t1w: Query, t2w: Query): (r: Dict<string, Query>)
    ensures Keys(r) == ["dwi", "fmap", "t1w", "t2w"]
  {
    [("dwi", Merged(DWI_QUERY, dwi)),
     ("fmap", Merged(FMAP_QUERY, fmap)),
     ("t1w", Merged(T1W_QUERY, t1w)),
     ("t2w", Merged(T2W_QUERY, t2w))]
  }

  /**
   * In a merged query an entity has the user's value when the user gives
   * one, and the default's otherwise; the merged query names each entity once.
   */
  lemma UserWins(default: Query, user: Query, k: string)
    requires Valid(default) && Valid(user)
    ensures Valid(Merged(default, user))
    ensures Get(Merged(default, user), k) == if k in Keys(user) then Get(user, k) else Get(default, k)
  {
    ValidUpdate(default, user);
    GetUpdate(default, user, k);
  }

  /** The default datatype and suffix of the dwi query survive unless the user overrides them. */
  lemma DwiDefaultsKept(dwi: Query)
    requires Valid(dwi)
    ensures "datatype" !in Keys(dwi) ==> Get(Merged(DWI_QUERY, dwi), "datatype") == Some(Str("dwi"))
    ensures "suffix" !in Keys(dwi) ==> Get(Merged(DWI_QUERY, dwi), "suffix") == Some(Str("dwi"))
  {
    assert Valid(DWI_QUERY);
    UserWins(DWI_QUERY, dwi, "datatype");
    UserWins(DWI_QUERY, dwi, "suffix");
  }

  /** None of the default entities is a keyword `collect_data` passes itself. */
  lemma DefaultsDoNotClash(q: Query)
    requires q == DWI_QUERY || q == FMAP_QUERY || q == T1W_QUERY || q == T2W_QUERY
    ensures forall i :: 0 <= i < |q| ==> q[i].0 !in FIXED_KEYWORDS
  {
  }

  /** A merged query repeats a fixed keyword exactly when the user's identifier names one. */
  lemma MergedClashes(default: Query, user: Query)
    requires forall i :: 0 <= i < |default| ==> default[i].0 !in FIXED_KEYWORDS
    ensures Clashes(Merged(default, user)) <==> Clashes(user)
  {
    var m := Merged(default, user);
    if Clashes(m) {
      var i :| 0 <= i < |m| && m[i].0 in FIXED_KEYWORDS;
      InKeysUpdate(default, user, m[i].0);
      assert Keys(m)[i] == m[i].0;
      var j :| 0 <= j < |user| && Keys(user)[j] == m[i].0;
    }
    if Clashes(user) {
      var j :| 0 <= j < |user| && user[j].0 in FIXED_KEYWORDS;
      InKeysUpdate(default, user, user[j].0);
      assert Keys(user)[j] == user[j].0;
      var i :| 0 <= i < |m| && Keys(m)[i] == user[j].0;
    }
  }

  /** Some user identifier names `return_type`, `subject` or `extension`. */
  predicate UserClash(dwi: Query, fmap: Query, t1w: Query, t2w: Query)
  {
    Clashes(dwi) || Clashes(fmap) || Clashes(t1w) || Clashes(t2w)
  }

  /** The table clashes exactly when a user identifier does. */
  lemma QueriesClash(dwi: Query, fmap: Query, t1w: Query, t2w: Query)
    ensures AnyClash(Queries(dwi, fmap, t1w, t2w)) <==> UserClash(dwi, fmap, t1w, t2w)
  {
    var qs := Queries(dwi, fmap, t1w, t2w);
    DefaultsDoNotClash(DWI_QUERY);
    DefaultsDoNotClash(FMAP_QUERY);
    DefaultsDoNotClash(T1W_QUERY);
    DefaultsDoNotClash(T2W_QUERY);
    MergedClashes(DWI_QUERY, dwi);
    MergedClashes(FMAP_QUERY, fmap);
    MergedClashes(T1W_QUERY, t1w);
    MergedClashes(T2W_QUERY, t2w);
    assert qs[0].1 == Merged(DWI_QUERY, dwi) && qs[1].1 == Merged(FMAP_QUERY, fmap);
    assert qs[2].1 == Merged(T1W_QUERY, t1w) && qs[3].1 == Merged(T2W_QUERY, t2w);
  }

  /**
   * `collect_data(layout, participant_label, dwi, fmap, t1w, t2w)`: the
   * subject's sorted files per query, the layout and the merged queries; a
   * user identifier naming a keyword `layout.get` already receives raises
   * `TypeError`.
   */
  function CollectData(layout: Layout, participantLabel: string, dwi: Query, fmap: Query, t1w: Query, t2w: Query)
    : (r: Result<(Dict<string, seq<string>>, Layout, Dict<string, Query>)>)
    ensures r.Err? <==> UserClash(dwi, fmap, t1w, t2w)
    ensures r.Err? ==> r.error.TypeError?
    ensures r.Ok? ==> r.value.1 == layout && r.value.2 == Queries(dwi, fmap, t1w, t2w)
    ensures r.Ok? ==> Keys(r.value.0) == ["dwi", "fmap", "t1w", "t2w"]
    ensures r.Ok? ==> forall i :: 0 <= i < 4 ==>
      Sorted(r.value.0[i].1)
      && multiset(r.value.0[i].1) == multiset(layout(participantLabel, FILE_EXTENSIONS, Queries(dwi, fmap, t1w, t2w)[i].1))
  {
    var queries := Queries(dwi, fmap, t1w, t2w);
    QueriesClash(dwi, fmap, t1w, t2w);
    var subjData := Collect(layout, participantLabel, FILE_EXTENSIONS, queries);
    if subjData.Err? then Err(subjData.error) else Ok((subjData.value, layout, queries))
  }

  /** `validate_file(rules, file_name)`: each rule's verdict appended to a list, then `all` of it. */
  method ValidateFile(rules: Query, fileName: string) returns (ok: bool)
    ensures ok <==> Passes(rules, fileName)
  {
    var valid: seq<bool> := [];
    for i := 0 to |rules|
      invariant |valid| == i
      invariant forall j :: 0 <= j < i ==> valid[j] == Contains(fileName, EntityText(rules[j].0, rules[j].1))
    {
      var pattern := EntityText(rules[i].0, rules[i].1);
      valid := valid + [Contains(fileName, pattern)];
    }
    ok := forall j :: 0 <= j < |valid| ==> valid[j];
  }
}
