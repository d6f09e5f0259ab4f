/**
 * The per-session dMRI driver of src/dwiprep/workflows/dmri/dmriprep.py:
 * `DmriPrep` holds one session's data and its directories, copies each DWI
 * run onto the shared scan-wise input node, and builds one preprocessing
 * workflow per run.
 */
module DmriPrepSrc {
  import opened Py
  import opened Text
  import opened Paths
  import opened Dicts
  import opened Graph
  import opened DmriSession
  import DmriBase
  import TensorEstimation

  /** Output directory name. */
  const OUTPUT_NAME := "dmriprep"

  /** The fields of the module-level `INPUTNODE` (utils/inputs.py). */
  const INPUTNODE_FIELDS: seq<string> :=
    ["output_dir", "dwi", "in_bvec", "in_bval", "in_json", "fmap_ap", "fmap_ap_json", "fmap_pa", "fmap_pa_json",
     "t1w_preproc", "t1w_mask", "t1w_dseg", "t1w_aseg", "t1w_aparc", "t1w_tpms", "template", "anat2std_xfm",
     "std2anat_xfm", "subjects_dir", "subject_id", "t1w2fsnative_xfm", "fsnative2t1w_xfm"]

  /** The input-node field each of the run's files is copied to, in assignment order. */
  const RUN_INPUTS: seq<(string, string)> := [("dwi_file", "nifti"), ("in_bvec", "bvec"), ("in_bval", "bval"), ("in_json", "json")]

  /** What iterating a missing "dwi" entry raises. */
  const NOT_ITERABLE := "'NoneType' object is not iterable"

  /** What calling `.get` on a run that is a dictionary key raises. */
  const STR_HAS_NO_GET := "'str' object has no attribute 'get'"

  /** The attribute of a sink's interface that names its output folder. */
  const OUT_PATH_BASE := "out_path_base"

  function NoRunFiles(participantLabel: string): string
  {
    "Could not found neccesary DWI-related files for subject " + participantLabel + "."
  }

  /** How many of `roles` the run has before the first one it lacks. */
  function Leading(run: RunFiles, roles: seq<(string, string)>): (n: nat)
    ensures n <= |roles|
    ensures forall k :: 0 <= k < n ==> roles[k].1 in run
    ensures n < |roles| ==> roles[n].1 !in run
  {
    if roles == [] || roles[0].1 !in run then 0 else 1 + Leading(run, roles[1..])
  }

  /** The inputs after copying, in order, the absolute path of each file the run has, up to the first it lacks. */
  function Assigned(inputs: map<string, Value>, run: RunFiles, cwd: string, roles: seq<(string, string)>): map<string, Value>
    decreases |roles|
  {
    if roles == [] || roles[0].1 !in run then inputs
    else Assigned(inputs[roles[0].0 := Str(Absolute(cwd, run[roles[0].1]))], run, cwd, roles[1..])
  }

  /** `node.set_input(key, value)` for each pair in turn. */
  function SetAll(inputs: map<string, Value>, pairs: Dict<string, Value>): map<string, Value>
    decreases |pairs|
  {
    if pairs == [] then inputs
    else SetAll(inputs, pairs[..|pairs| - 1])[pairs[|pairs| - 1].0 := pairs[|pairs| - 1].1]
  }

  /**
   * Copying sets each field of the leading present roles to the absolute path
   * of its file, and leaves every other input as it was.
   */
  lemma {:induction false} AssignedValues(inputs: map<string, Value>, run: RunFiles, cwd: string, roles: seq<(string, string)>, key: string)
    requires forall i, j :: 0 <= i < j < |roles| ==> roles[i].0 != roles[j].0
    ensures forall k :: 0 <= k < Leading(run, roles) ==>
      roles[k].0 in Assigned(inputs, run, cwd, roles) && Assigned(inputs, run, cwd, roles)[roles[k].0] == Str(Absolute(cwd, run[roles[k].1]))
    ensures (forall k :: 0 <= k < Leading(run, roles) ==> roles[k].0 != key) ==>
      (key in Assigned(inputs, run, cwd, roles) <==> key in inputs)
      && (key in inputs ==> Assigned(inputs, run, cwd, roles)[key] == inputs[key])
    decreases |roles|
  {
    if roles != [] && roles[0].1 in run {
      var next := inputs[roles[0].0 := Str(Absolute(cwd, run[roles[0].1]))];
      var a := Assigned(next, run, cwd, roles[1..]);
      assert a == Assigned(inputs, run, cwd, roles);
      assert Leading(run, roles) == 1 + Leading(run, roles[1..]);
      AssignedValues(next, run, cwd, roles[1..], key);
      AssignedValues(next, run, cwd, roles[1..], roles[0].0);
      forall k | 0 <= k < Leading(run, roles)
        ensures roles[k].0 in a && a[roles[k].0] == Str(Absolute(cwd, run[roles[k].1]))
      {
        if k > 0 {
          assert roles[1..][k - 1] == roles[k];
        }
      }
      if forall k :: 0 <= k < Leading(run, roles) ==> roles[k].0 != key {
        assert forall k :: 0 <= k < Leading(run, roles[1..]) ==> roles[1..][k].0 == roles[k + 1].0;
      }
    }
  }

  /** After the pairs are set in turn, a key has the value its pair gives it, or its old value when no pair names it. */
  lemma {:induction false} SetAllGet(inputs: map<string, Value>, pairs: Dict<string, Value>, key: string)
    requires Valid(pairs)
    ensures key in SetAll(inputs, pairs) <==> key in inputs || key in Keys(pairs)
    ensures key in Keys(pairs) ==> SetAll(inputs, pairs)[key] == Get(pairs, key).value
    ensures key !in Keys(pairs) && key in inputs ==> SetAll(inputs, pairs)[key] == inputs[key]
    decreases |pairs|
  {
    if pairs != [] {
      var init, last := pairs[..|pairs| - 1], pairs[|pairs| - 1];
      assert pairs == init + [last];
      assert SetAll(inputs, pairs) == SetAll(inputs, init)[last.0 := last.1];
      assert Valid(init) by {
        assert forall i :: 0 <= i < |init| ==> init[i] == pairs[i];
      }
      KeysSnoc(init, last);
      GetSnoc(init, last, key);
      if key != last.0 {
        SetAllGet(inputs, init, key);
      }
    }
  }

  /** `node.split(".")[-1].startswith("ds_")`: the nodes whose output folder is renamed. */
  predicate IsDerivativeNode(name: string)
  {
    var parts := Split(name, '.');
    StartsWith(parts[|parts| - 1], "ds_")
  }

  /** A top-level sink named `ds_<x>`, with no dot in `x`, is a derivative node. */
  lemma DerivativeName(x: string)
    requires '.' !in x
    ensures IsDerivativeNode("ds_" + x)
  {
    SplitAbsent("ds_" + x, '.');
    assert ("ds_" + x)[..3] == "ds_";
  }

  /** A node nested in a sub-workflow is judged by its own name only. */
  lemma NestedDerivativeName(wf: string, x: string)
    requires '.' !in x && '.' !in wf
    ensures IsDerivativeNode(wf + "." + x) <==> IsDerivativeNode(x)
  {
    assert wf + "." + x == wf + ['.'] + x;
    SplitLast(wf, '.', x);
    SplitAbsent(x, '.');
  }

  /** A sink after `out_path_base = "dmriprep"` when it is a derivative node. */
  function MarkSink(sink: DmriBase.Sink): DmriBase.Sink
  {
    if IsDerivativeNode(sink.name) then DmriBase.Sink(sink.name, sink.inputs[OUT_PATH_BASE := Str(OUTPUT_NAME)]) else sink
  }

  function Marked(sinks: seq<DmriBase.Sink>): (r: seq<DmriBase.Sink>)
  {
    seq(|sinks|, i requires 0 <= i < |sinks| => MarkSink(sinks[i]))
  }

  /** `dmriprep_wf.get_node(node).interface.out_path_base = "dmriprep"` for each derivative node, in turn. */
  method SetOutPathBase(sinks: seq<DmriBase.Sink>) returns (r: seq<DmriBase.Sink>)
    ensures r == Marked(sinks)
  {
    r := sinks;
    for i := 0 to |sinks|
      invariant |r| == |sinks|
      invariant forall j :: 0 <= j < i ==> r[j] == MarkSink(sinks[j])
      invariant forall j :: i <= j < |sinks| ==> r[j] == sinks[j]
    {
      if IsDerivativeNode(sinks[i].name) {
        r := r[i := DmriBase.Sink(sinks[i].name, sinks[i].inputs[OUT_PATH_BASE := Str(OUTPUT_NAME)])];
      }
    }
    assert r == Marked(sinks);
  }

  /** Marking keeps each sink's name and its other inputs, and points a derivative sink at `dmriprep`. */
  lemma MarkSinkKeeps(sink: DmriBase.Sink, key: string)
    ensures MarkSink(sink).name == sink.name
    ensures IsDerivativeNode(sink.name) ==> MarkSink(sink).inputs[OUT_PATH_BASE] == Str(OUTPUT_NAME)
    ensures key != OUT_PATH_BASE ==> (key in MarkSink(sink).inputs <==> key in sink.inputs)
    ensures key != OUT_PATH_BASE && key in sink.inputs ==> MarkSink(sink).inputs[key] == sink.inputs[key]
  {
  }

  /** One per-run workflow with the sinks hung on it. */
  datatype RunWorkflow = RunWorkflow(wf: Workflow, sinks: seq<DmriBase.Sink>)

  /** The sinks of the run built from `nifti`, each with its output folder renamed. */
  function RunSinks(destination: string, cwd: string, nifti: string): seq<DmriBase.Sink>
  {
    DmriBase.DwiPreprocSinks(TensorEstimation.OUT_FIELDS, Normal(destination), Absolute(cwd, nifti))
  }

  /**
   * The workflow of the run built from `nifti`: named after the file, based
   * in the working directory, with the run's sinks, each marked.
   */
  predicate Built(rw: RunWorkflow, nifti: string, destination: string, workDir: string, cwd: string)
    reads rw.wf
  {
    rw.wf.name == DmriBase.WfName(Name(nifti))
    && rw.wf.baseDir == Some(workDir) && rw.sinks == Marked(RunSinks(destination, cwd, nifti))
  }

  /** Each workflow was built from the run at the same position. */
  predicate AllBuilt(wfs: seq<RunWorkflow>, runs: seq<RunFiles>, destination: string, workDir: string, cwd: string)
    reads set k | 0 <= k < |wfs| :: wfs[k].wf
  {
    |wfs| <= |runs| && forall k :: 0 <= k < |wfs| ==> "nifti" in runs[k] && Built(wfs[k], runs[k]["nifti"], destination, workDir, cwd)
  }

  lemma AllBuiltSnoc(wfs: seq<RunWorkflow>, runs: seq<RunFiles>, rw: RunWorkflow, destination: string, workDir: string, cwd: string)
    requires AllBuilt(wfs, runs, destination, workDir, cwd) && |wfs| < |runs|
    requires "nifti" in runs[|wfs|] && Built(rw, runs[|wfs|]["nifti"], destination, workDir, cwd)
    ensures AllBuilt(wfs + [rw], runs, destination, workDir, cwd)
  {
    assert forall k :: 0 <= k < |wfs| ==> (wfs + [rw])[k] == wfs[k];
  }

  /** The shared node's inputs after a run is copied onto it: its four files, then its fieldmap pairs. */
  function CopiedInputs(inputs: map<string, Value>, run: RunFiles, cwd: string, fieldmaps: string -> Dict<string, Value>)
    : map<string, Value>
  {
    if "nifti" in run then SetAll(Assigned(inputs, run, cwd, RUN_INPUTS), fieldmaps(run["nifti"])) else inputs
  }

  /**
   * Whether the workflow of `run` is built on a node holding `inputs`: the
   * run is not empty, has its four files, and `add_fieldmaps_to_wf` accepts
   * the node once the run is copied onto it.
   */
  predicate RunOk(fields: seq<string>, inputs: map<string, Value>, run: RunFiles, cwd: string,
                  fieldmaps: string -> Dict<string, Value>)
  {
    run != map[] && Leading(run, RUN_INPUTS) == 4
    && DmriBase.FieldmapEntry(fields, CopiedInputs(inputs, run, cwd, fieldmaps)).Ok?
  }

  /** The shared node's inputs after the runs are copied onto it in turn. */
  function InputsAfter(inputs: map<string, Value>, runs: seq<RunFiles>, cwd: string, fieldmaps: string -> Dict<string, Value>)
    : map<string, Value>
    decreases |runs|
  {
    if runs == [] then inputs
    else CopiedInputs(InputsAfter(inputs, runs[..|runs| - 1], cwd, fieldmaps), runs[|runs| - 1], cwd, fieldmaps)
  }

  /** Whether every run is built in turn, each on the inputs the runs before it left on the shared node. */
  predicate AllRunsOk(fields: seq<string>, inputs: map<string, Value>, runs: seq<RunFiles>, cwd: string,
                      fieldmaps: string -> Dict<string, Value>)
    decreases |runs|
  {
    runs == []
    || (AllRunsOk(fields, inputs, runs[..|runs| - 1], cwd, fieldmaps)
        && RunOk(fields, InputsAfter(inputs, runs[..|runs| - 1], cwd, fieldmaps), runs[|runs| - 1], cwd, fieldmaps))
  }

  /** One more run: its copy follows the others', and it must build on what they left. */
  lemma RunsStep(fields: seq<string>, inputs: map<string, Value>, runs: seq<RunFiles>, i: nat, cwd: string,
                 fieldmaps: string -> Dict<string, Value>)
    requires i < |runs|
    ensures InputsAfter(inputs, runs[..i + 1], cwd, fieldmaps)
            == CopiedInputs(InputsAfter(inputs, runs[..i], cwd, fieldmaps), runs[i], cwd, fieldmaps)
    ensures AllRunsOk(fields, inputs, runs[..i + 1], cwd, fieldmaps)
            <==> AllRunsOk(fields, inputs, runs[..i], cwd, fieldmaps)
                 && RunOk(fields, InputsAfter(inputs, runs[..i], cwd, fieldmaps), runs[i], cwd, fieldmaps)
  {
    assert runs[..i + 1][..i] == runs[..i];
  }

  lemma OkAtInit(fields: seq<string>, inputs: map<string, Value>, runs: seq<RunFiles>, n: nat, i: nat, cwd: string,
                 fieldmaps: string -> Dict<string, Value>)
    requires i < n <= |runs|
    ensures RunOk(fields, InputsAfter(inputs, runs[..n][..i], cwd, fieldmaps), runs[..n][i], cwd, fieldmaps)
            == RunOk(fields, InputsAfter(inputs, runs[..i], cwd, fieldmaps), runs[i], cwd, fieldmaps)
  {
    assert runs[..n][..i] == runs[..i];
  }

  /** Each run of a chain that builds, builds on what the runs before it left. */
  lemma AllRunsOkOne(fields: seq<string>, inputs: map<string, Value>, runs: seq<RunFiles>, i: nat,
                     cwd: string, fieldmaps: string -> Dict<string, Value>)
    requires i < |runs| && AllRunsOk(fields, inputs, runs, cwd, fieldmaps)
    ensures RunOk(fields, InputsAfter(inputs, runs[..i], cwd, fieldmaps), runs[i], cwd, fieldmaps)
  {
    AllRunsOkPrefix(fields, inputs, runs, i + 1, cwd, fieldmaps);
    AllRunsOkLast(fields, inputs, runs[..i + 1], cwd, fieldmaps);
    OkAtInit(fields, inputs, runs, i + 1, i, cwd, fieldmaps);
  }

  lemma AllRunsOkLast(fields: seq<string>, inputs: map<string, Value>, runs: seq<RunFiles>, cwd: string,
                      fieldmaps: string -> Dict<string, Value>)
    requires runs != [] && AllRunsOk(fields, inputs, runs, cwd, fieldmaps)
    ensures AllRunsOk(fields, inputs, runs[..|runs| - 1], cwd, fieldmaps)
    ensures RunOk(fields, InputsAfter(inputs, runs[..|runs| - 1], cwd, fieldmaps), runs[|runs| - 1], cwd, fieldmaps)
  {
  }

  /** A chain whose every run builds on what the runs before it left, builds. */
  lemma {:induction false} AllRunsOkAll(fields: seq<string>, inputs: map<string, Value>, runs: seq<RunFiles>, cwd: string,
                                        fieldmaps: string -> Dict<string, Value>)
    requires forall i :: 0 <= i < |runs| ==> RunOk(fields, InputsAfter(inputs, runs[..i], cwd, fieldmaps), runs[i], cwd, fieldmaps)
    ensures AllRunsOk(fields, inputs, runs, cwd, fieldmaps)
    decreases |runs|
  {
    if runs != [] {
      var n := |runs| - 1;
      forall i | 0 <= i < n
        ensures RunOk(fields, InputsAfter(inputs, runs[..n][..i], cwd, fieldmaps), runs[..n][i], cwd, fieldmaps)
      {
        OkAtInit(fields, inputs, runs, n, i, cwd, fieldmaps);
      }
      AllRunsOkAll(fields, inputs, runs[..n], cwd, fieldmaps);
    }
  }

  /** The runs build exactly when each does on the inputs the runs before it left: the failing run, if any, is named. */
  lemma AllRunsOkAt(fields: seq<string>, inputs: map<string, Value>, runs: seq<RunFiles>, cwd: string,
                    fieldmaps: string -> Dict<string, Value>)
    ensures AllRunsOk(fields, inputs, runs, cwd, fieldmaps)
            <==> forall i :: 0 <= i < |runs| ==> RunOk(fields, InputsAfter(inputs, runs[..i], cwd, fieldmaps), runs[i], cwd, fieldmaps)
  {
    if AllRunsOk(fields, inputs, runs, cwd, fieldmaps) {
      forall i | 0 <= i < |runs|
        ensures RunOk(fields, InputsAfter(inputs, runs[..i], cwd, fieldmaps), runs[i], cwd, fieldmaps)
      {
        AllRunsOkOne(fields, inputs, runs, i, cwd, fieldmaps);
      }
    } else if forall i :: 0 <= i < |runs| ==> RunOk(fields, InputsAfter(inputs, runs[..i], cwd, fieldmaps), runs[i], cwd, fieldmaps) {
      AllRunsOkAll(fields, inputs, runs, cwd, fieldmaps);
    }
  }

  /** Copying `a` then `b` leaves what copying `a + b` leaves. */
  lemma {:induction false} InputsAfterAppend(inputs: map<string, Value>, a: seq<RunFiles>, b: seq<RunFiles>, cwd: string,
                                             fieldmaps: string -> Dict<string, Value>)
    ensures InputsAfter(inputs, a + b, cwd, fieldmaps) == InputsAfter(InputsAfter(inputs, a, cwd, fieldmaps), b, cwd, fieldmaps)
    decreases |b|
  {
    if b == [] {
      assert a + b == a;
    } else {
      var n := |b| - 1;
      assert (a + b)[..|a + b| - 1] == a + b[..n];
      InputsAfterAppend(inputs, a, b[..n], cwd, fieldmaps);
    }
  }

  /** The runs `a + b` build exactly when `a` do and then `b` do on what `a` left. */
  lemma {:induction false} AllRunsOkAppend(fields: seq<string>, inputs: map<string, Value>, a: seq<RunFiles>, b: seq<RunFiles>,
                                           cwd: string, fieldmaps: string -> Dict<string, Value>)
    ensures AllRunsOk(fields, inputs, a + b, cwd, fieldmaps)
            <==> AllRunsOk(fields, inputs, a, cwd, fieldmaps)
                 && AllRunsOk(fields, InputsAfter(inputs, a, cwd, fieldmaps), b, cwd, fieldmaps)
    decreases |b|
  {
    if b == [] {
      assert a + b == a;
    } else {
      var n := |b| - 1;
      assert (a + b)[..|a + b| - 1] == a + b[..n];
      assert (a + b)[|a + b| - 1] == b[n];
      AllRunsOkAppend(fields, inputs, a, b[..n], cwd, fieldmaps);
      InputsAfterAppend(inputs, a, b[..n], cwd, fieldmaps);
    }
  }

  /** A prefix of runs that all build also builds. */
  lemma AllRunsOkPrefix(fields: seq<string>, inputs: map<string, Value>, runs: seq<RunFiles>, j: nat, cwd: string,
                        fieldmaps: string -> Dict<string, Value>)
    requires j <= |runs| && AllRunsOk(fields, inputs, runs, cwd, fieldmaps)
    ensures AllRunsOk(fields, inputs, runs[..j], cwd, fieldmaps)
  {
    assert runs == runs[..j] + runs[j..];
    AllRunsOkAppend(fields, inputs, runs[..j], runs[j..], cwd, fieldmaps);
  }

  class DmriPrep {
    var sessionData: SessionData
    var participantLabel: string
    var session: Option<string>
    var destination: string
    var workDir: string

    /** `DmriPrep(bids_query, session_data, participant_label, destination, session, work_dir)`. */
    constructor (sessionData: SessionData, participantLabel: string, destination: string, session: Option<string>, workDir: Option<string>)
      ensures this.sessionData == sessionData && this.participantLabel == participantLabel && this.session == session
      ensures this.destination == JoinPath(destination, OUTPUT_NAME)
      ensures this.workDir == WorkDir(JoinPath(destination, OUTPUT_NAME), workDir)
    {
      this.sessionData := sessionData;
      this.participantLabel := participantLabel;
      this.session := session;
      this.destination := JoinPath(destination, OUTPUT_NAME);
      this.workDir := WorkDir(JoinPath(destination, OUTPUT_NAME), workDir);
    }

    /**
     * `data_to_input_node(run_data)`: copies the run's files, as absolute
     * paths, onto the shared input node and adds the run's fieldmaps; the
     * node returned is the shared node itself. An empty run raises
     * `FileNotFoundError`; a run lacking a file raises `TypeError` once the
     * files before it are already copied.
     */
    method DataToInputNode(inputnode: InputNode, runData: RunFiles, cwd: string, fieldmaps: string -> Dict<string, Value>)
      returns (r: Result<InputNode>)
      modifies inputnode
      ensures inputnode.name == old(inputnode.name) && inputnode.fields == old(inputnode.fields)
      ensures r.Ok? <==> runData != map[] && Leading(runData, RUN_INPUTS) == 4
      ensures runData == map[] ==> r == Err(FileNotFoundError(NoRunFiles(participantLabel))) && inputnode.inputs == old(inputnode.inputs)
      ensures runData != map[] && Leading(runData, RUN_INPUTS) < 4 ==>
        r == Err(TypeError(DmriBase.PATH_OF_NONE)) && inputnode.inputs == Assigned(old(inputnode.inputs), runData, cwd, RUN_INPUTS)
      ensures runData != map[] && Leading(runData, RUN_INPUTS) == 4 ==>
        r == Ok(inputnode)
        && inputnode.inputs == SetAll(Assigned(old(inputnode.inputs), runData, cwd, RUN_INPUTS), fieldmaps(runData["nifti"]))
    {
      var dwiNifti, dwiJson, dwiBvec, dwiBval := Lookup(runData, "nifti"), Lookup(runData, "json"), Lookup(runData, "bvec"), Lookup(runData, "bval");
      if runData == map[] {
        return Err(FileNotFoundError(NoRunFiles(participantLabel)));
      }
      ghost var start := inputnode.inputs;
      AssignedSteps(start, runData, cwd);
      LeadingSteps(runData);
      if dwiNifti.None? {
        return Err(TypeError(DmriBase.PATH_OF_NONE));
      }
      inputnode.SetInput("dwi_file", Str(Absolute(cwd, dwiNifti.value)));
      if dwiBvec.None? {
        return Err(TypeError(DmriBase.PATH_OF_NONE));
      }
      inputnode.SetInput("in_bvec", Str(Absolute(cwd, dwiBvec.value)));
      if dwiBval.None? {
        return Err(TypeError(DmriBase.PATH_OF_NONE));
      }
      inputnode.SetInput("in_bval", Str(Absolute(cwd, dwiBval.value)));
      if dwiJson.None? {
        return Err(TypeError(DmriBase.PATH_OF_NONE));
      }
      inputnode.SetInput("in_json", Str(Absolute(cwd, dwiJson.value)));
      var maps := fieldmaps(dwiNifti.value);
      ghost var copied := inputnode.inputs;
      for i := 0 to |maps|
        invariant inputnode.inputs == SetAll(copied, maps[..i])
        invariant inputnode.name == old(inputnode.name) && inputnode.fields == old(inputnode.fields)
      {
        assert maps[..i + 1][..i] == maps[..i];
        inputnode.SetInput(maps[i].0, maps[i].1);
      }
      assert maps[..|maps|] == maps;
      r := Ok(inputnode);
    }

    /** The body of the loop of `init_workflow_per_dwi()` for one run. */
    method BuildRun(inputnode: InputNode, run: RunFiles, cwd: string, fieldmaps: string -> Dict<string, Value>)
      returns (r: Result<RunWorkflow>)
      modifies inputnode
      ensures r.Ok? ==> "nifti" in run && fresh(r.value.wf) && Built(r.value, run["nifti"], destination, workDir, cwd)
      ensures r.Ok? ==> r.value.wf.name == DmriBase.WfName(Name(run["nifti"]))
      ensures inputnode.name == old(inputnode.name) && inputnode.fields == old(inputnode.fields)
      ensures r.Ok? <==> RunOk(inputnode.fields, old(inputnode.inputs), run, cwd, fieldmaps)
      ensures r.Ok? ==> inputnode.inputs == CopiedInputs(old(inputnode.inputs), run, cwd, fieldmaps)
    {
      var node := DataToInputNode(inputnode, run, cwd, fieldmaps);
      if node.Err? {
        return Err(node.error);
      }
      LeadingSteps(run);
      r := RunWorkflowOf(inputnode, run["nifti"], cwd);
    }

    /** The workflow of the run whose files are on the input node: built, based in the working directory, its sinks marked. */
    method RunWorkflowOf(inputnode: InputNode, nifti: string, cwd: string) returns (r: Result<RunWorkflow>)
      ensures r.Ok? <==> DmriBase.FieldmapEntry(inputnode.fields, inputnode.inputs).Ok?
      ensures r.Ok? ==> fresh(r.value.wf) && Built(r.value, nifti, destination, workDir, cwd)
    {
      var wf, sinks := DmriBase.InitDwiPreprocWf(nifti, inputnode, Some(destination), Some(workDir), cwd);
      if wf.Err? {
        return Err(wf.error);
      }
      wf.value.baseDir := Some(workDir);
      var marked := SetOutPathBase(sinks);
      r := Ok(RunWorkflow(wf.value, marked));
    }

    /**
     * `init_workflow_per_dwi()`: one workflow per DWI run of the session, in
     * order, each built after its run was copied onto the shared input node,
     * based in the working directory, with every derivative sink writing
     * under `dmriprep`.
     */
    method InitWorkflowPerDwi(inputnode: InputNode, cwd: string, fieldmaps: string -> Dict<string, Value>)
      returns (r: Result<seq<RunWorkflow>>)
      modifies inputnode
      ensures Get(sessionData, "dwi") in {None, Some(NoEntry)} ==> r == Err(TypeError(NOT_ITERABLE))
      ensures Get(sessionData, "dwi") == Some(Run(map[])) ==> r == Ok([])
      ensures forall f :: Get(sessionData, "dwi") == Some(Run(f)) && f != map[] ==> r == Err(AttributeError(STR_HAS_NO_GET))
      ensures r.Ok? && Get(sessionData, "dwi").value.Runs? ==>
        |r.value| == |Get(sessionData, "dwi").value.runs|
        && AllBuilt(r.value, Get(sessionData, "dwi").value.runs, destination, workDir, cwd)
      ensures inputnode.name == old(inputnode.name) && inputnode.fields == old(inputnode.fields)
      ensures Get(sessionData, "dwi").Some? && Get(sessionData, "dwi").value.Runs? ==>
        var runs := Get(sessionData, "dwi").value.runs;
        && (r.Ok? <==> AllRunsOk(inputnode.fields, old(inputnode.inputs), runs, cwd, fieldmaps))
        && (r.Ok? ==> inputnode.inputs == InputsAfter(old(inputnode.inputs), runs, cwd, fieldmaps))
      ensures Get(sessionData, "dwi") == Some(Run(map[])) ==> inputnode.inputs == old(inputnode.inputs)
    {
      var entry := Get(sessionData, "dwi");
      if entry.None? || entry.value.NoEntry? {
        return Err(TypeError(NOT_ITERABLE));
      }
      if entry.value.Run? {
        if entry.value.files == map[] {
          return Ok([]);
        }
        return Err(AttributeError(STR_HAS_NO_GET));
      }
      r := BuildRuns(inputnode, entry.value.runs, cwd, fieldmaps);
    }

    /** One pass of the loop below: the workflow of the next run appended to those built so far. */
    method BuildNext(inputnode: InputNode, runs: seq<RunFiles>, wfs: seq<RunWorkflow>, cwd: string,
                     fieldmaps: string -> Dict<string, Value>)
      returns (r: Result<seq<RunWorkflow>>)
      requires |wfs| < |runs| && AllBuilt(wfs, runs, destination, workDir, cwd)
      modifies inputnode
      ensures r.Ok? ==> |r.value| == |wfs| + 1 && AllBuilt(r.value, runs, destination, workDir, cwd)
      ensures inputnode.name == old(inputnode.name) && inputnode.fields == old(inputnode.fields)
      ensures r.Ok? <==> RunOk(inputnode.fields, old(inputnode.inputs), runs[|wfs|], cwd, fieldmaps)
      ensures r.Ok? ==> inputnode.inputs == CopiedInputs(old(inputnode.inputs), runs[|wfs|], cwd, fieldmaps)
    {
      var run := BuildRun(inputnode, runs[|wfs|], cwd, fieldmaps);
      if run.Err? {
        return Err(run.error);
      }
      AllBuiltSnoc(wfs, runs, run.value, destination, workDir, cwd);
      r := Ok(wfs + [run.value]);
    }

    /** The loop of `init_workflow_per_dwi()` over the session's runs. */
    method BuildRuns(inputnode: InputNode, runs: seq<RunFiles>, cwd: string, fieldmaps: string -> Dict<string, Value>)
      returns (r: Result<seq<RunWorkflow>>)
      modifies inputnode
      ensures r.Ok? ==> |r.value| == |runs|
      ensures r.Ok? ==> AllBuilt(r.value, runs, destination, workDir, cwd)
      ensures inputnode.name == old(inputnode.name) && inputnode.fields == old(inputnode.fields)
      ensures r.Ok? <==> AllRunsOk(inputnode.fields, old(inputnode.inputs), runs, cwd, fieldmaps)
      ensures r.Ok? ==> inputnode.inputs == InputsAfter(old(inputnode.inputs), runs, cwd, fieldmaps)
    {
      var outputDir, baseDir := destination, workDir;
      var dmriprepWfs: seq<RunWorkflow> := [];
      ghost var start, fields := inputnode.inputs, inputnode.fields;
      for i := 0 to |runs|
        invariant |dmriprepWfs| == i
        invariant outputDir == destination && baseDir == workDir
        invariant AllBuilt(dmriprepWfs, runs, outputDir, baseDir, cwd)
        invariant inputnode.name == old(inputnode.name) && inputnode.fields == fields
        invariant inputnode.inputs == InputsAfter(start, runs[..i], cwd, fieldmaps)
        invariant AllRunsOk(fields, start, runs[..i], cwd, fieldmaps)
      {
        RunsStep(fields, start, runs, i, cwd, fieldmaps);
        var built := BuildNext(inputnode, runs, dmriprepWfs, cwd, fieldmaps);
        if built.Err? {
          if AllRunsOk(fields, start, runs, cwd, fieldmaps) {
            AllRunsOkPrefix(fields, start, runs, i + 1, cwd, fieldmaps);
          }
          return Err(built.error);
        }
        dmriprepWfs := built.value;
      }
      assert runs[..|runs|] == runs;
      r := Ok(dmriprepWfs);
    }
  }

  /** The four files are looked up in the order nifti, bvec, bval, json. */
  lemma LeadingSteps(run: RunFiles)
    ensures Leading(run, RUN_INPUTS) ==
      if "nifti" !in run then 0 else if "bvec" !in run then 1 else if "bval" !in run then 2 else if "json" !in run then 3 else 4
  {
    var r1, r2, r3 := RUN_INPUTS[1..], RUN_INPUTS[2..], RUN_INPUTS[3..];
    assert r1[1..] == r2 && r2[1..] == r3 && r3[1..] == [];
    assert r1[0].1 == "bvec" && r2[0].1 == "bval" && r3[0].1 == "json";
    assert Leading(run, RUN_INPUTS) == if "nifti" !in run then 0 else 1 + Leading(run, r1);
    assert Leading(run, r1) == if "bvec" !in run then 0 else 1 + Leading(run, r2);
    assert Leading(run, r2) == if "bval" !in run then 0 else 1 + Leading(run, r3);
    assert Leading(run, r3) == if "json" !in run then 0 else 1 + Leading(run, []);
  }

  /** Copying stops at the first file the run lacks; each step copies one more. */
  lemma AssignedSteps(inputs: map<string, Value>, run: RunFiles, cwd: string)
    ensures "nifti" !in run ==> Assigned(inputs, run, cwd, RUN_INPUTS) == inputs
    ensures "nifti" in run ==>
      var a1 := inputs["dwi_file" := Str(Absolute(cwd, run["nifti"]))];
      && ("bvec" !in run ==> Assigned(inputs, run, cwd, RUN_INPUTS) == a1)
      && ("bvec" in run ==>
           var a2 := a1["in_bvec" := Str(Absolute(cwd, run["bvec"]))];
           && ("bval" !in run ==> Assigned(inputs, run, cwd, RUN_INPUTS) == a2)
           && ("bval" in run ==>
                var a3 := a2["in_bval" := Str(Absolute(cwd, run["bval"]))];
                && ("json" !in run ==> Assigned(inputs, run, cwd, RUN_INPUTS) == a3)
                && ("json" in run ==> Assigned(inputs, run, cwd, RUN_INPUTS) == a3["in_json" := Str(Absolute(cwd, run["json"]))])))
  {
    var r1, r2, r3 := RUN_INPUTS[1..], RUN_INPUTS[2..], RUN_INPUTS[3..];
    assert r1[1..] == r2 && r2[1..] == r3 && r3[1..] == [];
    assert r1[0] == ("in_bvec", "bvec") && r2[0] == ("in_bval", "bval") && r3[0] == ("in_json", "json");
    if "nifti" in run {
      var a1 := inputs["dwi_file" := Str(Absolute(cwd, run["nifti"]))];
      assert Assigned(inputs, run, cwd, RUN_INPUTS) == Assigned(a1, run, cwd, r1);
      if "bvec" in run {
        var a2 := a1["in_bvec" := Str(Absolute(cwd, run["bvec"]))];
        assert Assigned(a1, run, cwd, r1) == Assigned(a2, run, cwd, r2);
        if "bval" in run {
          var a3 := a2["in_bval" := Str(Absolute(cwd, run["bval"]))];
          assert Assigned(a2, run, cwd, r2) == Assigned(a3, run, cwd, r3);
          if "json" in run {
            var a4 := a3["in_json" := Str(Absolute(cwd, run["json"]))];
            assert Assigned(a3, run, cwd, r3) == Assigned(a4, run, cwd, []);
          }
        }
      }
    }
  }

  /** Every sink is a derivative node. */
  predicate AllDerivative(sinks: seq<DmriBase.Sink>)
  {
    forall j :: 0 <= j < |sinks| ==> IsDerivativeNode(sinks[j].name)
  }

  /** The sinks of `ds_<x>` for dot-free names `x`. */
  lemma {:induction false} PrefixedSinks(sinks: seq<DmriBase.Sink>, names: seq<string>)
    requires |sinks| == |names|
    requires forall j :: 0 <= j < |names| ==> '.' !in names[j] && sinks[j].name == "ds_" + names[j]
    ensures AllDerivative(sinks)
  {
    forall j | 0 <= j < |sinks| ensures IsDerivativeNode(sinks[j].name) {
      DerivativeName(names[j]);
    }
  }

  lemma AllDerivativeConcat(a: seq<DmriBase.Sink>, b: seq<DmriBase.Sink>)
    requires AllDerivative(a) && AllDerivative(b)
    ensures AllDerivative(a + b)
  {
    forall j | 0 <= j < |a + b| ensures IsDerivativeNode((a + b)[j].name) {
      if j >= |a| {
        assert (a + b)[j] == b[j - |a|];
      }
    }
  }

  lemma PreprocDerivative(base: string, source: string)
    ensures AllDerivative(DmriBase.PreprocSinks(base, source))
  {
    var sinks := DmriBase.PreprocSinks(base, source);
    forall j | 0 <= j < 6 ensures sinks[j].name == "ds_" + DmriBase.PREPROC_OUTPUTS[j] {
      DmriBase.PreprocSinkRule(base, source, j);
    }
    PrefixedSinks(sinks, DmriBase.PREPROC_OUTPUTS);
  }

  lemma MetricsDerivative(base: string, source: string)
    ensures AllDerivative(DmriBase.MetricSinks(TensorEstimation.OUT_FIELDS, base, source))
  {
    PrefixedSinks(DmriBase.MetricSinks(TensorEstimation.OUT_FIELDS, base, source), TensorEstimation.OUT_FIELDS);
  }

  lemma TransformedDerivative(base: string, source: string)
    ensures AllDerivative(DmriBase.TransformedMetricSinks(TensorEstimation.OUT_FIELDS, base, source))
  {
    var fields := TensorEstimation.OUT_FIELDS;
    PrefixedSinks(DmriBase.TransformedMetricSinks(fields, base, source), seq(9, k requires 0 <= k < 9 => "tranformed_" + fields[k]));
  }

  lemma AffinesDerivative(base: string, source: string)
    ensures AllDerivative(DmriBase.AffineSinks(base, source))
  {
    PrefixedSinks(DmriBase.AffineSinks(base, source), seq(2, k requires 0 <= k < 2 => DmriBase.AFFINES[k].0));
  }

  /** A single sink named `ds_<x>`, with no dot in `x`. */
  lemma SingleDerivative(sink: DmriBase.Sink, x: string)
    requires '.' !in x && sink.name == "ds_" + x
    ensures AllDerivative([sink])
  {
    DerivativeName(x);
  }

  lemma EpiRefDerivative(base: string, source: string)
    ensures AllDerivative([DmriBase.EpiRefToT1wSink(base, source)])
  {
    SingleDerivative(DmriBase.EpiRefToT1wSink(base, source), "epi_ref_to_T1w");
  }

  lemma TransformedDwiDerivative(base: string, source: string)
    ensures AllDerivative([DmriBase.TransformedDwiSink(base, source)])
  {
    SingleDerivative(DmriBase.TransformedDwiSink(base, source), "transformed_dwi");
  }

  /** Every sink of a run is named `ds_...` with no further dot, so every one is renamed. */
  lemma RunSinksAreDerivative(destination: string, cwd: string, nifti: string)
    ensures AllDerivative(RunSinks(destination, cwd, nifti))
  {
    var base, source := Normal(destination), Absolute(cwd, nifti);
    var fields := TensorEstimation.OUT_FIELDS;
    PreprocDerivative(base, source);
    MetricsDerivative(base, source);
    TransformedDerivative(base, source);
    AffinesDerivative(base, source);
    EpiRefDerivative(base, source);
    TransformedDwiDerivative(base, source);
    AllDerivativeConcat(DmriBase.AffineSinks(base, source), [DmriBase.EpiRefToT1wSink(base, source)]);
    AllDerivativeConcat(DmriBase.PreprocSinks(base, source), DmriBase.MetricSinks(fields, base, source));
    AllDerivativeConcat([DmriBase.TransformedDwiSink(base, source)], DmriBase.TransformedMetricSinks(fields, base, source));
    AllDerivativeConcat(DmriBase.AffineSinks(base, source) + [DmriBase.EpiRefToT1wSink(base, source)],
                        [DmriBase.TransformedDwiSink(base, source)] + DmriBase.TransformedMetricSinks(fields, base, source));
    AllDerivativeConcat(DmriBase.PreprocSinks(base, source) + DmriBase.MetricSinks(fields, base, source),
                        (DmriBase.AffineSinks(base, source) + [DmriBase.EpiRefToT1wSink(base, source)])
                        + ([DmriBase.TransformedDwiSink(base, source)] + DmriBase.TransformedMetricSinks(fields, base, source)));
  }

  /** Every sink of every run workflow writes under `dmriprep`. */
  lemma BuiltSinksWriteUnderDmriprep(rw: RunWorkflow, nifti: string, destination: string, workDir: string, cwd: string)
    requires Built(rw, nifti, destination, workDir, cwd)
    ensures forall j :: 0 <= j < |rw.sinks| ==> OUT_PATH_BASE in rw.sinks[j].inputs && rw.sinks[j].inputs[OUT_PATH_BASE] == Str(OUTPUT_NAME)
  {
    RunSinksAreDerivative(destination, cwd, nifti);
  }
}
