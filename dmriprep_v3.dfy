/**
 * The third dMRI driver draft, src/dwiprep/workflows/dmri/dmriprep_v3.py:
 * each DWI run gets its own input node, filled from a copy of the session
 * data in which "dwi" is that run, and with a per-subject (and per-session)
 * working directory.
 */
module DmriPrepV3 {
  import opened Py
  import opened Paths
  import opened Dicts
  import opened Graph
  import opened DmriSession

  const OUTPUT_NAME := "dmriprep"

  const NONE_HAS_NO_GET := "'NoneType' object has no attribute 'get'"
  const LIST_HAS_NO_GET := "'list' object has no attribute 'get'"
  const STR_HAS_NO_GET := "'str' object has no attribute 'get'"
  const NOT_ITERABLE := "'NoneType' object is not iterable"

  /** An optional path as the value an input takes: the path, or `None`. */
  function OptStr(p: Option<string>): Value
  {
    if p.Some? then Str(p.value) else NoneV
  }

  /** Python truthiness of a session entry. */
  predicate EntryTruthy(e: SessionEntry)
  {
    match e
    case Runs(runs) => runs != []
    case Run(files) => files != map[]
    case NoEntry => false
  }

  /** `work_dir / "dmriprep_wf" / f"sub-{label}"`, then `/ f"ses-{session}"` for a truthy session. */
  function NodeWorkDir(workDir: string, participantLabel: string, session: Option<string>): string
  {
    var subject := JoinPath(JoinPath(workDir, "dmriprep_wf"), "sub-" + participantLabel);
    if Given(session) then JoinPath(subject, "ses-" + session.value) else subject
  }

  /** The inputs set before the run's files: label, working directory, session, BIDS root and destination. */
  function Header(inputs: map<string, Value>, participantLabel: string, workDir: string, session: Option<string>,
                  bidsDir: string, destination: string): map<string, Value>
  {
    var subject := JoinPath(JoinPath(workDir, "dmriprep_wf"), "sub-" + participantLabel);
    var named := inputs["participant_label" := Str(participantLabel)]["work_dir" := Str(subject)];
    var withSession := if Given(session) then named["session_id" := Str(session.value)]["work_dir" := Str(JoinPath(subject, "ses-" + session.value))] else named;
    withSession["bids_dir" := Str(bidsDir)]["destination" := Str(destination)]
  }

  /** The four DWI inputs, each the run's file of that role or `None`. */
  function WithDwi(inputs: map<string, Value>, files: RunFiles): map<string, Value>
  {
    inputs["dwi" := OptStr(Lookup(files, "nifti"))]["in_bval" := OptStr(Lookup(files, "bval"))]
          ["in_bvec" := OptStr(Lookup(files, "bvec"))]["in_json" := OptStr(Lookup(files, "json"))]
  }

  /** One fieldmap direction: its image and sidecar when the entry is truthy, nothing otherwise. */
  function WithFmap(inputs: map<string, Value>, entry: Option<SessionEntry>, field: string, jsonField: string): Result<map<string, Value>>
  {
    if entry.None? || !EntryTruthy(entry.value) then Ok(inputs)
    else if entry.value.Runs? then Err(AttributeError(LIST_HAS_NO_GET))
    else Ok(inputs[field := OptStr(Lookup(entry.value.files, "nifti"))][jsonField := OptStr(Lookup(entry.value.files, "json"))])
  }

  /** `run_data.get("dwi")` as `.get` can use it: a single run, or the error `.get` raises. */
  function DwiFiles(runData: SessionData): Result<RunFiles>
  {
    var entry := Get(runData, "dwi");
    if entry.None? || entry.value.NoEntry? then Err(AttributeError(NONE_HAS_NO_GET))
    else if entry.value.Runs? then Err(AttributeError(LIST_HAS_NO_GET))
    else Ok(entry.value.files)
  }

  /** The inputs `data_to_input_node` leaves on the node when it returns. */
  function NodeInputs(inputs: map<string, Value>, participantLabel: string, workDir: string, session: Option<string>,
                      bidsDir: string, destination: string, runData: SessionData): Result<map<string, Value>>
  {
    var header := Header(inputs, participantLabel, workDir, session, bidsDir, destination);
    var dwi := DwiFiles(runData);
    if dwi.Err? then Err(dwi.error)
    else
      var ap := WithFmap(WithDwi(header, dwi.value), Get(runData, "fmap_ap"), "fmap_ap", "fmap_ap_json");
      if ap.Err? then ap else WithFmap(ap.value, Get(runData, "fmap_pa"), "fmap_pa", "fmap_pa_json")
  }

  /**
   * The node's working directory ends in `sub-<label>`, followed by
   * `ses-<session>` exactly for a truthy session, under `work_dir/dmriprep_wf`.
   */
  lemma NodeWorkDirLayout(workDir: string, participantLabel: string, session: Option<string>)
    requires '/' !in participantLabel && (Given(session) ==> '/' !in session.value)
    ensures var w := NodeWorkDir(workDir, participantLabel, session);
      if Given(session) then
        Name(w) == "ses-" + session.value && Name(Parent(w)) == "sub-" + participantLabel
        && Parent(Parent(w)) == Normal(JoinPath(workDir, "dmriprep_wf"))
      else
        Name(w) == "sub-" + participantLabel && Parent(w) == Normal(JoinPath(workDir, "dmriprep_wf"))
  {
    var sub := "sub-" + participantLabel;
    assert sub[..4] == "sub-" && IsPart(sub);
    var root := JoinPath(workDir, "dmriprep_wf");
    Child(root, sub);
    if Given(session) {
      var ses := "ses-" + session.value;
      assert ses[..4] == "ses-" && IsPart(ses);
      Child(JoinPath(root, sub), ses);
      NormalJoin(root, sub);
    }
  }

  /**
   * The header sets the label, the BIDS root, the destination and the
   * working directory, and sets `session_id` exactly for a truthy session.
   */
  lemma HeaderRules(inputs: map<string, Value>, participantLabel: string, workDir: string, session: Option<string>,
                    bidsDir: string, destination: string)
    ensures var h := Header(inputs, participantLabel, workDir, session, bidsDir, destination);
      && h["participant_label"] == Str(participantLabel) && h["bids_dir"] == Str(bidsDir) && h["destination"] == Str(destination)
      && h["work_dir"] == Str(NodeWorkDir(workDir, participantLabel, session))
      && (Given(session) ==> "session_id" in h && h["session_id"] == Str(session.value))
      && (!Given(session) ==> ("session_id" in h <==> "session_id" in inputs) && ("session_id" in inputs ==> h["session_id"] == inputs["session_id"]))
  {
    HeaderFixed(inputs, participantLabel, workDir, session, bidsDir, destination);
    HeaderSession(inputs, participantLabel, workDir, session, bidsDir, destination);
  }

  lemma HeaderFixed(inputs: map<string, Value>, participantLabel: string, workDir: string, session: Option<string>,
                    bidsDir: string, destination: string)
    ensures var h := Header(inputs, participantLabel, workDir, session, bidsDir, destination);
      && h["participant_label"] == Str(participantLabel) && h["bids_dir"] == Str(bidsDir) && h["destination"] == Str(destination)
      && h["work_dir"] == Str(NodeWorkDir(workDir, participantLabel, session))
  {
  }

  lemma HeaderSession(inputs: map<string, Value>, participantLabel: string, workDir: string, session: Option<string>,
                      bidsDir: string, destination: string)
    ensures var h := Header(inputs, participantLabel, workDir, session, bidsDir, destination);
      && (Given(session) ==> "session_id" in h && h["session_id"] == Str(session.value))
      && (!Given(session) ==> ("session_id" in h <==> "session_id" in inputs) && ("session_id" in inputs ==> h["session_id"] == inputs["session_id"]))
  {
  }

  /** A falsy or missing fieldmap entry leaves the inputs untouched; a truthy single run sets both of its inputs. */
  lemma FmapRule(inputs: map<string, Value>, entry: Option<SessionEntry>, field: string, jsonField: string)
    requires field != jsonField
    ensures entry.None? || !EntryTruthy(entry.value) ==> WithFmap(inputs, entry, field, jsonField) == Ok(inputs)
    ensures entry.Some? && EntryTruthy(entry.value) ==> (WithFmap(inputs, entry, field, jsonField).Err? <==> entry.value.Runs?)
    ensures entry.Some? && EntryTruthy(entry.value) && entry.value.Run? ==>
      var r := WithFmap(inputs, entry, field, jsonField).value;
      r[field] == OptStr(Lookup(entry.value.files, "nifti")) && r[jsonField] == OptStr(Lookup(entry.value.files, "json"))
      && forall k :: k != field && k != jsonField ==> (k in r <==> k in inputs) && (k in inputs ==> r[k] == inputs[k])
  {
  }

  /** The DWI inputs come from the "dwi" run's nifti, bval, bvec and json files. */
  lemma DwiRule(inputs: map<string, Value>, files: RunFiles)
    ensures WithDwi(inputs, files)["dwi"] == OptStr(Lookup(files, "nifti"))
    ensures WithDwi(inputs, files)["in_bval"] == OptStr(Lookup(files, "bval"))
    ensures WithDwi(inputs, files)["in_bvec"] == OptStr(Lookup(files, "bvec"))
    ensures WithDwi(inputs, files)["in_json"] == OptStr(Lookup(files, "json"))
  {
  }

  /** `data_to_input_node` fails exactly when "dwi" is not a single run or a truthy fieldmap entry is a list. */
  lemma NodeInputsFails(inputs: map<string, Value>, participantLabel: string, workDir: string, session: Option<string>,
                        bidsDir: string, destination: string, runData: SessionData)
    ensures NodeInputs(inputs, participantLabel, workDir, session, bidsDir, destination, runData).Err? <==>
      !(Get(runData, "dwi").Some? && Get(runData, "dwi").value.Run?)
      || (Get(runData, "fmap_ap").Some? && EntryTruthy(Get(runData, "fmap_ap").value) && Get(runData, "fmap_ap").value.Runs?)
      || (Get(runData, "fmap_pa").Some? && EntryTruthy(Get(runData, "fmap_pa").value) && Get(runData, "fmap_pa").value.Runs?)
  {
  }

  /** A copy of the session data with "dwi" replaced by one run: same keys, the other entries unchanged. */
  lemma RunDataCopy(sessionData: SessionData, dwi: RunFiles, k: string)
    requires "dwi" in Keys(sessionData)
    ensures Keys(Set(sessionData, "dwi", Run(dwi))) == Keys(sessionData)
    ensures Get(Set(sessionData, "dwi", Run(dwi)), k) == if k == "dwi" then Some(Run(dwi)) else Get(sessionData, k)
  {
    KeysSet(sessionData, "dwi", Run(dwi));
    GetSet(sessionData, "dwi", Run(dwi), k);
  }

  /** What `preprocess_sessions` hands to the conversion workflow for one run. */
  datatype ConversionRequest = ConversionRequest(runData: SessionData, session: Option<string>, inputs: map<string, Value>)

  class DmriPrep {
    var sessionData: SessionData
    var participantLabel: string
    var session: Option<string>
    var destination: string
    var workDir: string
    /** `bids_query.bids_dir`. */
    var bidsDir: string
    /** `bids_query.layout.parse_file_entities`. */
    var parse: Option<string> -> map<string, string>

    constructor (bidsDir: string, parse: Option<string> -> map<string, string>, sessionData: SessionData,
                 participantLabel: string, destination: string, session: Option<string>, workDir: Option<string>)
      ensures this.bidsDir == bidsDir && this.parse == parse
      ensures this.sessionData == sessionData && this.participantLabel == participantLabel && this.session == session
      ensures this.destination == JoinPath(destination, OUTPUT_NAME)
      ensures this.workDir == WorkDir(JoinPath(destination, OUTPUT_NAME), workDir)
    {
      this.bidsDir := bidsDir;
      this.parse := parse;
      this.sessionData := sessionData;
      this.participantLabel := participantLabel;
      this.session := session;
      this.destination := JoinPath(destination, OUTPUT_NAME);
      this.workDir := WorkDir(JoinPath(destination, OUTPUT_NAME), workDir);
    }

    /**
     * `data_to_input_node(run_data, session)`: fills the node one input at a
     * time; an error leaves the inputs set before it in place.
     */
    method DataToInputNode(inputnode: InputNode, runData: SessionData, session: Option<string>) returns (r: Result<InputNode>)
      modifies inputnode
      ensures inputnode.name == old(inputnode.name) && inputnode.fields == old(inputnode.fields)
      ensures var expected := NodeInputs(old(inputnode.inputs), participantLabel, workDir, session, bidsDir, destination, runData);
        && (r.Ok? <==> expected.Ok?)
        && (r.Ok? ==> r.value == inputnode && inputnode.inputs == expected.value)
        && (r.Err? ==> r.error == expected.error)
      ensures DwiFiles(runData).Err? ==>
        inputnode.inputs == Header(old(inputnode.inputs), participantLabel, workDir, session, bidsDir, destination)
    {
      var subject, root, bids, dest := participantLabel, workDir, bidsDir, destination;
      ghost var start := inputnode.inputs;
      inputnode.SetInput("participant_label", Str(subject));
      var nodeWorkDir := JoinPath(JoinPath(root, "dmriprep_wf"), "sub-" + subject);
      inputnode.SetInput("work_dir", Str(nodeWorkDir));
      if Given(session) {
        inputnode.SetInput("session_id", Str(session.value));
        inputnode.SetInput("work_dir", Str(JoinPath(nodeWorkDir, "ses-" + session.value)));
      }
      inputnode.SetInput("bids_dir", Str(bids));
      inputnode.SetInput("destination", Str(dest));
      ghost var header := inputnode.inputs;
      assert header == Header(start, subject, root, session, bids, dest);
      var dwi := Get(runData, "dwi");
      if dwi.None? || dwi.value.NoEntry? {
        return Err(AttributeError(NONE_HAS_NO_GET));
      }
      if dwi.value.Runs? {
        return Err(AttributeError(LIST_HAS_NO_GET));
      }
      var files := dwi.value.files;
      inputnode.SetInput("dwi", OptStr(Lookup(files, "nifti")));
      inputnode.SetInput("in_bval", OptStr(Lookup(files, "bval")));
      inputnode.SetInput("in_bvec", OptStr(Lookup(files, "bvec")));
      inputnode.SetInput("in_json", OptStr(Lookup(files, "json")));
      ghost var withDwi := inputnode.inputs;
      assert withDwi == WithDwi(header, files);
      var ap := Get(runData, "fmap_ap");
      if ap.Some? && EntryTruthy(ap.value) {
        if ap.value.Runs? {
          return Err(AttributeError(LIST_HAS_NO_GET));
        }
        inputnode.SetInput("fmap_ap", OptStr(Lookup(ap.value.files, "nifti")));
        inputnode.SetInput("fmap_ap_json", OptStr(Lookup(ap.value.files, "json")));
      }
      ghost var withAp := inputnode.inputs;
      assert WithFmap(withDwi, ap, "fmap_ap", "fmap_ap_json") == Ok(withAp);
      var pa := Get(runData, "fmap_pa");
      if pa.Some? && EntryTruthy(pa.value) {
        if pa.value.Runs? {
          return Err(AttributeError(LIST_HAS_NO_GET));
        }
        inputnode.SetInput("fmap_pa", OptStr(Lookup(pa.value.files, "nifti")));
        inputnode.SetInput("fmap_pa_json", OptStr(Lookup(pa.value.files, "json")));
      }
      assert WithFmap(withAp, pa, "fmap_pa", "fmap_pa_json") == Ok(inputnode.inputs);
      r := Ok(inputnode);
    }

    /** The request `preprocess_sessions` builds for the run `files`. */
    ghost predicate Requested(req: ConversionRequest, files: RunFiles)
      reads this
    {
      req.runData == Set(sessionData, "dwi", Run(files))
      && req.session == InferSession(session, parse, files)
      && NodeInputs(map[], participantLabel, workDir, req.session, bidsDir, destination, req.runData) == Ok(req.inputs)
    }

    /** Whether the input node of one run of "dwi" cannot be filled, which ends the whole pass. */
    ghost predicate RunFails(files: RunFiles)
      reads this
    {
      NodeInputs(map[], participantLabel, workDir, InferSession(session, parse, files), bidsDir, destination,
                 Set(sessionData, "dwi", Run(files))).Err?
    }

    /**
     * A run's input node cannot be filled exactly when a truthy fieldmap
     * entry of the session holds a list of runs: the copy keeps those
     * entries and its "dwi" is a single run.
     */
    lemma RunFailsOnFieldmaps(files: RunFiles)
      ensures RunFails(files) <==>
        (Get(sessionData, "fmap_ap").Some? && EntryTruthy(Get(sessionData, "fmap_ap").value) && Get(sessionData, "fmap_ap").value.Runs?)
        || (Get(sessionData, "fmap_pa").Some? && EntryTruthy(Get(sessionData, "fmap_pa").value) && Get(sessionData, "fmap_pa").value.Runs?)
    {
      var runData := Set(sessionData, "dwi", Run(files));
      GetSet(sessionData, "dwi", Run(files), "dwi");
      GetSet(sessionData, "dwi", Run(files), "fmap_ap");
      GetSet(sessionData, "dwi", Run(files), "fmap_pa");
      NodeInputsFails(map[], participantLabel, workDir, InferSession(session, parse, files), bidsDir, destination, runData);
    }

    /**
     * `preprocess_sessions()`: for each run of "dwi", in order, the session
     * inferred for it and a copy of the session data whose "dwi" is that run,
     * turned into a freshly filled input node. The session data itself is
     * never written.
     */
    method PreprocessSessions() returns (r: Result<seq<ConversionRequest>>)
      ensures Get(sessionData, "dwi") in {None, Some(NoEntry)} ==> r == Err(TypeError(NOT_ITERABLE))
      ensures Get(sessionData, "dwi") == Some(Run(map[])) ==> r == Ok([])
      ensures forall f :: Get(sessionData, "dwi") == Some(Run(f)) && f != map[] ==> r == Err(AttributeError(STR_HAS_NO_GET))
      ensures r.Ok? && Get(sessionData, "dwi").value.Runs? ==>
        var runs := Get(sessionData, "dwi").value.runs;
        |r.value| == |runs|
        && forall i :: 0 <= i < |runs| ==>
             r.value[i].runData == Set(sessionData, "dwi", Run(runs[i]))
             && r.value[i].session == InferSession(session, parse, runs[i])
             && NodeInputs(map[], participantLabel, workDir, r.value[i].session, bidsDir, destination, r.value[i].runData)
                == Ok(r.value[i].inputs)
      ensures Get(sessionData, "dwi").Some? && Get(sessionData, "dwi").value.Runs? ==>
        var runs := Get(sessionData, "dwi").value.runs;
        r.Err? <==> exists i :: 0 <= i < |runs| && RunFails(runs[i])
    {
      var entry := Get(sessionData, "dwi");
      if entry.None? || entry.value.NoEntry? {
        return Err(TypeError(NOT_ITERABLE));
      }
      if entry.value.Run? {
        if entry.value.files == map[] {
          return Ok([]);
        }
        return Err(AttributeError(STR_HAS_NO_GET));
      }
      var runs := entry.value.runs;
      var requests: seq<ConversionRequest> := [];
      for i := 0 to |runs|
        invariant |requests| == i
        invariant forall k :: 0 <= k < i ==> Requested(requests[k], runs[k])
        invariant forall k :: 0 <= k < i ==> !RunFails(runs[k])
      {
        var runSession := InferSession(session, parse, runs[i]);
        var runData := Set(sessionData, "dwi", Run(runs[i]));
        var inputnode := new InputNode("inputnode", []);
        var node := DataToInputNode(inputnode, runData, runSession);
        if node.Err? {
          assert RunFails(runs[i]);
          return Err(node.error);
        }
        var request := ConversionRequest(runData, runSession, inputnode.inputs);
        assert Requested(request, runs[i]) && !RunFails(runs[i]);
        requests := requests + [request];
      }
      r := Ok(requests);
    }
  }
}
