/**
 * What the dMRI drafts share: the session data they receive (per datatype, a
 * list of runs, a single run, or nothing), the entities that must or should
 * be present in it (dmri/utils/utils.py), and the rules for the working and
 * output directories.
 */
module DmriSession {
  import opened Py
  import opened Text
  import opened Paths
  import opened Dicts

  /** One run's files by role: "nifti", "json", "bvec", "bval". */
  type RunFiles = map<string, string>

  /** A value of the session dictionary. */
  datatype SessionEntry = Runs(runs: seq<RunFiles>) | Run(files: RunFiles) | NoEntry

  type SessionData = Dict<string, SessionEntry>

  /** `run.get(key)`. */
  function Lookup(run: RunFiles, key: string): Option<string>
  {
    if key in run then Some(run[key]) else None
  }

  const MANDATORY_ENTITIES: seq<string> := ["dwi"]
  const RECOMMENDED_ENTITIES: seq<string> := ["fmap"]

  /** The names of `names` that are not keys, in order. */
  function Missing(names: seq<string>, keys: seq<string>): (r: seq<string>)
    ensures forall n :: n in r <==> n in names && n !in keys
  {
    if names == [] then []
    else (if names[0] in keys then [] else [names[0]]) + Missing(names[1..], keys)
  }

  /**
   * The check the drafts run on session data: the first missing mandatory
   * entity raises `FileNotFoundError`; otherwise the missing recommended
   * entities, each warned about, in order.
   */
  function SessionCheck(keys: seq<string>): Result<seq<string>>
  {
    var missing := Missing(MANDATORY_ENTITIES, keys);
    if missing != [] then Err(FileNotFoundError(missing[0]))
    else Ok(Missing(RECOMMENDED_ENTITIES, keys))
  }

  /** Only "dwi" is mandatory; a missing "fmap" is a warning and nothing more. */
  lemma SessionCheckCases(keys: seq<string>)
    ensures SessionCheck(keys).Err? <==> "dwi" !in keys
    ensures SessionCheck(keys).Err? ==> SessionCheck(keys).error == FileNotFoundError("dwi")
    ensures SessionCheck(keys).Ok? ==> SessionCheck(keys).value == (if "fmap" in keys then [] else ["fmap"])
  {
    assert Missing(MANDATORY_ENTITIES, keys) == (if "dwi" in keys then [] else ["dwi"]) + Missing([], keys);
    assert Missing(RECOMMENDED_ENTITIES, keys) == (if "fmap" in keys then [] else ["fmap"]) + Missing([], keys);
  }

  /**
   * `validate_session(session_data)` of the src and v3 drafts: the mandatory
   * loop raises, the recommended loop warns; the warnings are returned.
   */
  method ValidateSession<V>(sessionData: Dict<string, V>) returns (r: Result<seq<string>>)
    ensures r == SessionCheck(Keys(sessionData))
  {
    var keys := Keys(sessionData);
    for i := 0 to |MANDATORY_ENTITIES|
      invariant Missing(MANDATORY_ENTITIES[..i], keys) == []
    {
      MissingSnoc(MANDATORY_ENTITIES, keys, i);
      if MANDATORY_ENTITIES[i] !in keys {
        MissingFirst(MANDATORY_ENTITIES, keys, i);
        return Err(FileNotFoundError(MANDATORY_ENTITIES[i]));
      }
    }
    assert MANDATORY_ENTITIES[..|MANDATORY_ENTITIES|] == MANDATORY_ENTITIES;
    var warned: seq<string> := [];
    for i := 0 to |RECOMMENDED_ENTITIES|
      invariant warned == Missing(RECOMMENDED_ENTITIES[..i], keys)
    {
      MissingSnoc(RECOMMENDED_ENTITIES, keys, i);
      if RECOMMENDED_ENTITIES[i] !in keys {
        warned := warned + [RECOMMENDED_ENTITIES[i]];
      }
    }
    assert RECOMMENDED_ENTITIES[..|RECOMMENDED_ENTITIES|] == RECOMMENDED_ENTITIES;
    r := Ok(warned);
  }

  /** One more name checked. */
  lemma {:induction false} MissingSnoc(names: seq<string>, keys: seq<string>, i: nat)
    requires i < |names|
    ensures Missing(names[..i + 1], keys) == Missing(names[..i], keys) + (if names[i] in keys then [] else [names[i]])
    decreases i
  {
    if i > 0 {
      MissingSnoc(names[1..], keys, i - 1);
      assert names[1..][..i] == names[..i + 1][1..];
      assert names[1..][..i - 1] == names[..i][1..];
    } else {
      assert names[..1] == [names[0]];
    }
  }

  /** A missing name after only present ones is the first missing one. */
  lemma {:induction false} MissingFirst(names: seq<string>, keys: seq<string>, i: nat)
    requires i < |names| && Missing(names[..i], keys) == [] && names[i] !in keys
    ensures Missing(names, keys) != [] && Missing(names, keys)[0] == names[i]
    decreases i
  {
    if i > 0 {
      var init := names[..i];
      var head := names[0];
      assert init[0] == head && init[1..] == names[1..][..i - 1];
      assert Missing(init, keys) == (if head in keys then [] else [head]) + Missing(init[1..], keys);
      MissingFirst(names[1..], keys, i - 1);
    }
  }

  /** `validate_work_dir(destination, work_dir)`: the given directory, or `work` beside the destination. */
  function WorkDir(destination: string, workDir: Option<string>): string
  {
    if workDir.Some? then workDir.value else JoinPath(Parent(destination), "work")
  }

  /** With the destination already extended by `dmriprep`, the default lands in `destination/work`. */
  lemma DefaultWorkDirInsideDestination(destination: string)
    ensures WorkDir(JoinPath(destination, "dmriprep"), None) == JoinPath(destination, "work")
  {
    assert IsPart("dmriprep");
    ParentOfJoin(destination, "dmriprep");
    JoinNormal(destination, "work");
  }

  /** Python truthiness of an optional string. */
  predicate Given(s: Option<string>)
  {
    s.Some? && s.value != ""
  }

  /**
   * `set_destinations(destination, work_dir)`: the working and output
   * directories of the subject, and of the session when one is given.
   */
  function Destinations(destination: string, workDir: Option<string>, subject: string, session: Option<string>): (string, string)
  {
    var base := JoinPath(WorkDir(destination, workDir), "sub-" + subject);
    var output := JoinPath(destination, "sub-" + subject);
    if Given(session) then (JoinPath(base, "ses-" + session.value), JoinPath(output, "ses-" + session.value))
    else (base, output)
  }

  /** Joining a component gives a path already in normal form. */
  lemma NormalJoin(d: string, x: string)
    requires IsPart(x)
    ensures Normal(JoinPath(d, x)) == JoinPath(d, x)
  {
    JoinSingle(x);
    PartsOfRender(IsAbsolute(d), Parts(d) + [x]);
  }

  /** `d/x`, read back as a directory and a last component. */
  lemma Child(d: string, x: string)
    requires IsPart(x)
    ensures Name(JoinPath(d, x)) == x && Parent(JoinPath(d, x)) == Normal(d)
  {
    NameOfJoin(d, x);
    ParentOfJoin(d, x);
  }

  /**
   * Both directories end in `sub-<subject>`, followed by `ses-<session>`
   * exactly when a session is given, under the working and the output root.
   */
  lemma DestinationsLayout(destination: string, workDir: Option<string>, subject: string, session: Option<string>)
    requires '/' !in subject && (Given(session) ==> '/' !in session.value)
    ensures var (base, output) := Destinations(destination, workDir, subject, session);
      if Given(session) then
        Name(base) == "ses-" + session.value && Name(output) == "ses-" + session.value
        && Name(Parent(base)) == "sub-" + subject && Name(Parent(output)) == "sub-" + subject
        && Parent(Parent(base)) == Normal(WorkDir(destination, workDir)) && Parent(Parent(output)) == Normal(destination)
      else
        Name(base) == "sub-" + subject && Name(output) == "sub-" + subject
        && Parent(base) == Normal(WorkDir(destination, workDir)) && Parent(output) == Normal(destination)
  {
    var sub := "sub-" + subject;
    assert sub[..4] == "sub-" && IsPart(sub);
    var base := JoinPath(WorkDir(destination, workDir), sub);
    var output := JoinPath(destination, sub);
    Child(WorkDir(destination, workDir), sub);
    Child(destination, sub);
    if Given(session) {
      var ses := "ses-" + session.value;
      assert ses[..4] == "ses-" && IsPart(ses);
      Child(base, ses);
      Child(output, ses);
      NormalJoin(WorkDir(destination, workDir), sub);
      NormalJoin(destination, sub);
    }
  }

  /**
   * `infer_session(dwi)`: the instance's session when it is truthy, otherwise
   * the session entity the index parses from the run's NIfTI path.
   */
  function InferSession(session: Option<string>, parse: Option<string> -> map<string, string>, dwi: RunFiles): (r: Option<string>)
    ensures Given(session) ==> r == session
    ensures !Given(session) ==> (r.Some? <==> "session" in parse(Lookup(dwi, "nifti")))
    ensures !Given(session) && r.Some? ==> r.value == parse(Lookup(dwi, "nifti"))["session"]
  {
    if Given(session) then session
    else
      var entities := parse(Lookup(dwi, "nifti"));
      if "session" in entities then Some(entities["session"]) else None
  }
}
