/**
 * The first dMRI driver, dwiprep/workflows/dmri/dmriprep.py: it checks a
 * subject's data for the entities preprocessing needs, keeps it as its raw
 * data, and places the working directory beside the output directory.
 */
module DmriPrepLegacy {
  import opened Py
  import opened Paths
  import opened Dicts
  import opened DmriSession

  /**
   * `validate_subject_data(subj_data)`: raises `FileNotFoundError` for a
   * missing mandatory entity, warns about each missing recommended one, and
   * otherwise hands the data back untouched.
   */
  method ValidateSubjectData<V>(subjData: Dict<string, V>) returns (r: Result<Dict<string, V>>, warned: seq<string>)
    ensures "dwi" !in Keys(subjData) ==> r == Err(FileNotFoundError("dwi"))
    ensures "dwi" in Keys(subjData) ==> r == Ok(subjData)
    ensures "dwi" in Keys(subjData) ==> warned == if "fmap" in Keys(subjData) then [] else ["fmap"]
  {
    SessionCheckCases(Keys(subjData));
    var keys := Keys(subjData);
    warned := [];
    for i := 0 to |MANDATORY_ENTITIES|
      invariant Missing(MANDATORY_ENTITIES[..i], keys) == []
    {
      MissingSnoc(MANDATORY_ENTITIES, keys, i);
      if MANDATORY_ENTITIES[i] !in keys {
        MissingFirst(MANDATORY_ENTITIES, keys, i);
        return Err(FileNotFoundError(MANDATORY_ENTITIES[i])), warned;
      }
    }
    assert MANDATORY_ENTITIES[..|MANDATORY_ENTITIES|] == MANDATORY_ENTITIES;
    for i := 0 to |RECOMMENDED_ENTITIES|
      invariant warned == Missing(RECOMMENDED_ENTITIES[..i], keys)
    {
      MissingSnoc(RECOMMENDED_ENTITIES, keys, i);
      if RECOMMENDED_ENTITIES[i] !in keys {
        warned := warned + [RECOMMENDED_ENTITIES[i]];
      }
    }
    assert RECOMMENDED_ENTITIES[..|RECOMMENDED_ENTITIES|] == RECOMMENDED_ENTITIES;
    r := Ok(subjData);
  }

  /**
   * `validate_working_directory(work_dir)`: an explicit directory is kept;
   * by default the directory `work` next to the destination.
   */
  lemma WorkingDirectoryRule(destination: string, workDir: Option<string>)
    ensures workDir.Some? ==> WorkDir(destination, workDir) == workDir.value
    ensures workDir.None? ==> Name(WorkDir(destination, workDir)) == "work"
    ensures workDir.None? ==> Parent(WorkDir(destination, workDir)) == Parent(destination)
  {
    if workDir.None? {
      assert IsPart("work");
      Child(Parent(destination), "work");
      var ps := Parts(destination);
      var kept := if ps == [] then [] else ps[..|ps| - 1];
      assert forall k :: 0 <= k < |kept| ==> IsPart(kept[k]);
      PartsOfRender(IsAbsolute(destination), kept);
    }
  }

  /** `DmriPrep(subj_data, destination, participant_label, run_kwargs, work_dir)` once it is built. */
  class DmriPrep<V> {
    var rawData: Dict<string, V>
    var destination: string
    var participantLabel: Option<string>
    var workDir: string

    constructor (rawData: Dict<string, V>, destination: string, participantLabel: Option<string>, workDir: string)
      ensures this.rawData == rawData && this.destination == destination
      ensures this.participantLabel == participantLabel && this.workDir == workDir
    {
      this.rawData := rawData;
      this.destination := destination;
      this.participantLabel := participantLabel;
      this.workDir := workDir;
    }
  }

  /**
   * The constructor as a whole: the validation runs first and its error
   * stops construction; otherwise the validated data is stored as it came,
   * the destination as a path, and the working directory by the rule above.
   */
  method Create<V>(subjData: Dict<string, V>, destination: string, participantLabel: Option<string>, workDir: Option<string>)
    returns (r: Result<DmriPrep<V>>)
    ensures "dwi" !in Keys(subjData) <==> r.Err?
    ensures r.Err? ==> r.error == FileNotFoundError("dwi")
    ensures r.Ok? ==> fresh(r.value) && r.value.rawData == subjData && r.value.destination == Normal(destination)
    ensures r.Ok? ==> r.value.workDir == WorkDir(Normal(destination), workDir)
  {
    var rawData, warned := ValidateSubjectData(subjData);
    if rawData.Err? {
      return Err(rawData.error);
    }
    var path := Normal(destination);
    var dmriprep := new DmriPrep(rawData.value, path, participantLabel, WorkDir(path, workDir));
    r := Ok(dmriprep);
  }
}
