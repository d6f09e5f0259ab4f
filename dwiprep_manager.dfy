/**
 * The subject orchestrator, src/dwiprep/dwiprep.py: one workflow per
 * participant, holding the per-run dMRI workflows of every session, each
 * joined to the subject's single anatomical workflow port by port.
 */
module DmriPrepManager {
  import opened Py
  import opened Text
  import opened Paths
  import opened Dicts
  import opened Graph
  import opened DmriSession
  import DmriPrepSrc
  import DmriBase

  const OUTPUT_NAME := "dmriprep"

  /** The name smriprep gives the anatomical workflow the runs are joined to. */
  const ANAT_WF := "anat_preproc_wf"

  /** The anatomical outputs every dMRI run receives, in the order they are connected. */
  const ANAT_FIELDS: seq<string> := [
    "t1w_preproc", "t1w_mask", "t1w_dseg", "t1w_aseg", "t1w_aparc", "t1w_tpms",
    "template", "anat2std_xfm", "std2anat_xfm", "subjects_dir", "t1w2fsnative_xfm", "fsnative2t1w_xfm"
  ]

  /** The port pairs of `connect_anatomical_and_diffusion`, as written. */
  const ANAT_PORTS: seq<(string, string)> := [
    ("outputnode.t1w_preproc", "inputnode.t1w_preproc"),
    ("outputnode.t1w_mask", "inputnode.t1w_mask"),
    ("outputnode.t1w_dseg", "inputnode.t1w_dseg"),
    ("outputnode.t1w_aseg", "inputnode.t1w_aseg"),
    ("outputnode.t1w_aparc", "inputnode.t1w_aparc"),
    ("outputnode.t1w_tpms", "inputnode.t1w_tpms"),
    ("outputnode.template", "inputnode.template"),
    ("outputnode.anat2std_xfm", "inputnode.anat2std_xfm"),
    ("outputnode.std2anat_xfm", "inputnode.std2anat_xfm"),
    ("outputnode.subjects_dir", "inputnode.subjects_dir"),
    ("outputnode.t1w2fsnative_xfm", "inputnode.t1w2fsnative_xfm"),
    ("outputnode.fsnative2t1w_xfm", "inputnode.fsnative2t1w_xfm")
  ]

  /** The same field leaves the anatomical output node and enters the run's input node. */
  predicate SamePort(e: Edge)
  {
    exists j :: 0 <= j < |ANAT_FIELDS| && e.srcPort == "outputnode." + ANAT_FIELDS[j] && e.dstPort == "inputnode." + ANAT_FIELDS[j]
  }

  /** Twelve pairs, each joining a field to the field of the same name, no field twice. */
  lemma AnatPortsMatch()
    ensures |ANAT_PORTS| == |ANAT_FIELDS| == 12
    ensures forall j :: 0 <= j < 12 ==> ANAT_PORTS[j] == ("outputnode." + ANAT_FIELDS[j], "inputnode." + ANAT_FIELDS[j])
    ensures forall i, j :: 0 <= i < j < 12 ==> ANAT_FIELDS[i] != ANAT_FIELDS[j]
  {
    AnatPortsFrom0();
    AnatPortsFrom2();
    AnatPortsFrom4();
    AnatPortsFrom6();
    AnatPortsFrom8();
    AnatPortsFrom10();
    AnatPortsFrom11();
  }

  // The literal pairs checked two at a time, which keeps each proof small.
  lemma AnatPortsFrom0()
    ensures forall j :: 0 <= j < 2 ==> ANAT_PORTS[j].0 == "outputnode." + ANAT_FIELDS[j] && ANAT_PORTS[j].1 == "inputnode." + ANAT_FIELDS[j]
  {
  }

  lemma AnatPortsFrom2()
    ensures forall j :: 2 <= j < 4 ==> ANAT_PORTS[j].0 == "outputnode." + ANAT_FIELDS[j] && ANAT_PORTS[j].1 == "inputnode." + ANAT_FIELDS[j]
  {
  }

  lemma AnatPortsFrom4()
    ensures forall j :: 4 <= j < 6 ==> ANAT_PORTS[j].0 == "outputnode." + ANAT_FIELDS[j] && ANAT_PORTS[j].1 == "inputnode." + ANAT_FIELDS[j]
  {
  }

  lemma AnatPortsFrom6()
    ensures forall j :: 6 <= j < 8 ==> ANAT_PORTS[j].0 == "outputnode." + ANAT_FIELDS[j] && ANAT_PORTS[j].1 == "inputnode." + ANAT_FIELDS[j]
  {
  }

  lemma AnatPortsFrom8()
    ensures forall j :: 8 <= j < 10 ==> ANAT_PORTS[j].0 == "outputnode." + ANAT_FIELDS[j] && ANAT_PORTS[j].1 == "inputnode." + ANAT_FIELDS[j]
  {
  }

  lemma AnatPortsFrom10()
    ensures forall j :: 10 <= j < 11 ==> ANAT_PORTS[j].0 == "outputnode." + ANAT_FIELDS[j] && ANAT_PORTS[j].1 == "inputnode." + ANAT_FIELDS[j]
  {
  }

  lemma AnatPortsFrom11()
    ensures ANAT_PORTS[11].0 == "outputnode." + ANAT_FIELDS[11] && ANAT_PORTS[11].1 == "inputnode." + ANAT_FIELDS[11]
  {
  }

  /** The edges joining the anatomical workflow to one run's workflow. */
  function AnatEdges(anat: string, dwi: string): (r: seq<Edge>)
  {
    seq(|ANAT_PORTS|, k requires 0 <= k < |ANAT_PORTS| => Edge(anat, ANAT_PORTS[k].0, dwi, ANAT_PORTS[k].1))
  }

  /** Twelve edges, the k-th from the anatomical port to the run's port of the k-th pair. */
  lemma AnatEdgesAt(anat: string, dwi: string)
    ensures |AnatEdges(anat, dwi)| == 12
    ensures forall k :: 0 <= k < 12 ==> AnatEdges(anat, dwi)[k] == Edge(anat, ANAT_PORTS[k].0, dwi, ANAT_PORTS[k].1)
  {
  }

  /** The anatomical workflow joined to each of `dsts`, in order. */
  function Joins(anat: string, dsts: seq<string>): (r: seq<Edge>)
  {
    if dsts == [] then [] else Joins(anat, dsts[..|dsts| - 1]) + AnatEdges(anat, dsts[|dsts| - 1])
  }

  /**
   * Every join edge leaves the anatomical workflow for one of the runs and
   * keeps the field name; every run receives all twelve fields.
   */
  lemma {:induction false} JoinsShape(anat: string, dsts: seq<string>)
    ensures forall e :: e in Joins(anat, dsts) ==> e.srcNode == anat && e.dstNode in dsts && SamePort(e)
    ensures forall d, j :: d in dsts && 0 <= j < 12 ==>
      Edge(anat, "outputnode." + ANAT_FIELDS[j], d, "inputnode." + ANAT_FIELDS[j]) in Joins(anat, dsts)
    decreases |dsts|
  {
    AnatPortsMatch();
    if dsts != [] {
      var init, last := dsts[..|dsts| - 1], dsts[|dsts| - 1];
      JoinsShape(anat, init);
      var block := AnatEdges(anat, last);
      AnatEdgesAt(anat, last);
      forall e | e in block
        ensures e.srcNode == anat && e.dstNode == last && SamePort(e)
      {
        var k :| 0 <= k < 12 && block[k] == e;
        assert e.srcPort == "outputnode." + ANAT_FIELDS[k];
      }
      forall d, j | d in dsts && 0 <= j < 12
        ensures Edge(anat, "outputnode." + ANAT_FIELDS[j], d, "inputnode." + ANAT_FIELDS[j]) in Joins(anat, dsts)
      {
        if d == last {
          assert block[j] == Edge(anat, "outputnode." + ANAT_FIELDS[j], d, "inputnode." + ANAT_FIELDS[j]);
        } else {
          assert d in init;
        }
      }
    }
  }

  /** `init_subject_wf(participant_label)`'s name. */
  function SubjectWfName(participantLabel: string): string
  {
    "single_subject_" + participantLabel + "_wf"
  }

  /** The label can be read back from the name, so two labels never share a workflow name. */
  lemma SubjectWfNameInjective(a: string, b: string)
    ensures SubjectWfName(a)[15..|SubjectWfName(a)| - 3] == a
    ensures SubjectWfName(a) == SubjectWfName(b) ==> a == b
  {
    var n := SubjectWfName(a);
    assert n[15..|n| - 3] == a;
    var m := SubjectWfName(b);
    assert m[15..|m| - 3] == b;
  }

  /** The `sessions_data` comprehension: one query per session, or a single session-less one. */
  function SessionsToCollect(sessions: seq<string>): (r: seq<Option<string>>)
  {
    if sessions != [] then seq(|sessions|, i requires 0 <= i < |sessions| => Some(sessions[i])) else [None]
  }

  /** Data is collected once per session, and exactly once when the subject has no sessions. */
  lemma SessionsToCollectCount(sessions: seq<string>)
    ensures |SessionsToCollect(sessions)| == if sessions == [] then 1 else |sessions|
    ensures sessions == [] ==> SessionsToCollect(sessions) == [None]
    ensures forall i :: 0 <= i < |sessions| ==> SessionsToCollect(sessions)[i] == Some(sessions[i])
  {
  }

  /**
   * The runs `init_workflow_per_dwi` iterates over for this session data:
   * the "dwi" run list, nothing for an empty single run, `None` when it
   * raises before the first run.
   */
  function DwiRuns(sessionData: SessionData): Option<seq<RunFiles>>
  {
    var entry := Get(sessionData, "dwi");
    if entry.Some? && entry.value.Runs? then Some(entry.value.runs)
    else if entry == Some(Run(map[])) then Some([])
    else None
  }

  /** The runs of the sessions `collect` yields for these queries, counted. */
  function RunCount(subject: string, collect: (string, Option<string>) -> SessionData, queries: seq<Option<string>>): nat
  {
    if queries == [] then 0
    else
      var runs := DwiRuns(collect(subject, queries[|queries| - 1]));
      RunCount(subject, collect, queries[..|queries| - 1]) + (if runs.Some? then |runs.value| else 0)
  }

  /** The name of the workflow `init_dwi_preproc_wf` builds for a run: `dwi_preproc_` and the cleaned file name. */
  function RunWfName(run: RunFiles): string
  {
    if "nifti" in run then DmriBase.WfName(Name(run["nifti"])) else ""
  }

  /** The workflow names of the runs, in order. */
  function RunWfNames(runs: seq<RunFiles>): (r: seq<string>)
    ensures |r| == |runs|
  {
    seq(|runs|, k requires 0 <= k < |runs| => RunWfName(runs[k]))
  }

  /** The names of these run workflows, in order. */
  function WfNames(wfs: seq<DmriPrepSrc.RunWorkflow>): (r: seq<string>)
    reads set k | 0 <= k < |wfs| :: wfs[k].wf
    ensures |r| == |wfs| && forall k :: 0 <= k < |wfs| ==> r[k] == wfs[k].wf.name
  {
    seq(|wfs|, k requires 0 <= k < |wfs| reads set j | 0 <= j < |wfs| :: wfs[j].wf => wfs[k].wf.name)
  }

  /** The names of the run workflows of the sessions `collect` yields for these queries, session by session, run by run. */
  function RunNames(subject: string, collect: (string, Option<string>) -> SessionData, queries: seq<Option<string>>): seq<string>
  {
    if queries == [] then []
    else
      var runs := DwiRuns(collect(subject, queries[|queries| - 1]));
      RunNames(subject, collect, queries[..|queries| - 1]) + (if runs.Some? then RunWfNames(runs.value) else [])
  }

  /** Every query's session lists its runs, so that none stops the session loop. */
  predicate AllListed(subject: string, collect: (string, Option<string>) -> SessionData, queries: seq<Option<string>>)
  {
    forall i :: 0 <= i < |queries| ==> DwiRuns(collect(subject, queries[i])).Some?
  }

  lemma ListedAt(subject: string, collect: (string, Option<string>) -> SessionData, queries: seq<Option<string>>)
    requires AllListed(subject, collect, queries)
    ensures !exists i :: 0 <= i < |queries| && DwiRuns(collect(subject, queries[i])).None?
  {
  }

  /** There is one run name per counted run. */
  lemma {:induction false} RunNamesCount(subject: string, collect: (string, Option<string>) -> SessionData, queries: seq<Option<string>>)
    ensures |RunNames(subject, collect, queries)| == RunCount(subject, collect, queries)
    decreases |queries|
  {
    if queries != [] {
      RunNamesCount(subject, collect, queries[..|queries| - 1]);
    }
  }

  /**
   * One more session: the names of its runs follow those of the sessions
   * before it, and it lists its runs like them.
   */
  lemma {:induction false} RunNamesStep(subject: string, collect: (string, Option<string>) -> SessionData,
                                        queries: seq<Option<string>>, i: nat, runs: seq<RunFiles>)
    requires i < |queries| && DwiRuns(collect(subject, queries[i])) == Some(runs)
    ensures RunNames(subject, collect, queries[..i + 1]) == RunNames(subject, collect, queries[..i]) + RunWfNames(runs)
    ensures AllListed(subject, collect, queries[..i]) ==> AllListed(subject, collect, queries[..i + 1])
  {
    assert queries[..i + 1][..i] == queries[..i];
    if AllListed(subject, collect, queries[..i]) {
      forall k | 0 <= k < i + 1
        ensures DwiRuns(collect(subject, queries[k])).Some?
      {
        if k < i {
          assert queries[k] == queries[..i][k];
        }
      }
    }
  }

  /** The runs of the sessions `collect` yields for these queries, session by session, in the order they are built. */
  function SubjectRuns(subject: string, collect: (string, Option<string>) -> SessionData, queries: seq<Option<string>>)
    : seq<RunFiles>
  {
    if queries == [] then []
    else
      var runs := DwiRuns(collect(subject, queries[|queries| - 1]));
      SubjectRuns(subject, collect, queries[..|queries| - 1]) + (if runs.Some? then runs.value else [])
  }

  /**
   * One more session whose runs are listed: they are built after those of
   * the sessions before it, on the inputs those left on the shared node.
   */
  lemma SessionRunsStep(fields: seq<string>, start: map<string, Value>, subject: string,
                        collect: (string, Option<string>) -> SessionData, queries: seq<Option<string>>, q: nat,
                        runs: seq<RunFiles>, cwd: string, fieldmaps: string -> Dict<string, Value>)
    requires q < |queries| && DwiRuns(collect(subject, queries[q])) == Some(runs)
    ensures var before := DmriPrepSrc.InputsAfter(start, SubjectRuns(subject, collect, queries[..q]), cwd, fieldmaps);
      && (DmriPrepSrc.AllRunsOk(fields, start, SubjectRuns(subject, collect, queries[..q + 1]), cwd, fieldmaps)
          <==> DmriPrepSrc.AllRunsOk(fields, start, SubjectRuns(subject, collect, queries[..q]), cwd, fieldmaps)
               && DmriPrepSrc.AllRunsOk(fields, before, runs, cwd, fieldmaps))
      && DmriPrepSrc.InputsAfter(start, SubjectRuns(subject, collect, queries[..q + 1]), cwd, fieldmaps)
         == DmriPrepSrc.InputsAfter(before, runs, cwd, fieldmaps)
  {
    assert queries[..q + 1][..q] == queries[..q];
    var prefix := SubjectRuns(subject, collect, queries[..q]);
    assert SubjectRuns(subject, collect, queries[..q + 1]) == prefix + runs;
    DmriPrepSrc.AllRunsOkAppend(fields, start, prefix, runs, cwd, fieldmaps);
    DmriPrepSrc.InputsAfterAppend(start, prefix, runs, cwd, fieldmaps);
  }

  /** The runs of the first `j` sessions come first among a subject's runs. */
  lemma {:induction false} SubjectRunsPrefix(subject: string, collect: (string, Option<string>) -> SessionData,
                                             queries: seq<Option<string>>, j: nat)
    requires j <= |queries|
    ensures SubjectRuns(subject, collect, queries[..j]) <= SubjectRuns(subject, collect, queries)
    decreases |queries|
  {
    if j < |queries| {
      var n := |queries| - 1;
      SubjectRunsPrefix(subject, collect, queries[..n], j);
      assert queries[..n][..j] == queries[..j];
    } else {
      assert queries[..j] == queries;
    }
  }

  /** When all of a subject's runs build, so do those of its first `j` sessions. */
  lemma SubjectRunsOkPrefix(fields: seq<string>, start: map<string, Value>, subject: string,
                            collect: (string, Option<string>) -> SessionData, queries: seq<Option<string>>, j: nat,
                            cwd: string, fieldmaps: string -> Dict<string, Value>)
    requires j <= |queries| && DmriPrepSrc.AllRunsOk(fields, start, SubjectRuns(subject, collect, queries), cwd, fieldmaps)
    ensures DmriPrepSrc.AllRunsOk(fields, start, SubjectRuns(subject, collect, queries[..j]), cwd, fieldmaps)
  {
    var all, prefix := SubjectRuns(subject, collect, queries), SubjectRuns(subject, collect, queries[..j]);
    SubjectRunsPrefix(subject, collect, queries, j);
    DmriPrepSrc.AllRunsOkPrefix(fields, start, all, |prefix|, cwd, fieldmaps);
    assert all[..|prefix|] == prefix;
  }

  /**
   * Session `q` stops the session loop, having found the sessions before it
   * listed and their runs built: either it lists no runs, or one of its
   * runs fails on what the runs before it left, and then not all of the
   * subject's runs build.
   */
  lemma SessionFails(fields: seq<string>, start: map<string, Value>, subject: string,
                     collect: (string, Option<string>) -> SessionData, queries: seq<Option<string>>, q: nat,
                     cwd: string, fieldmaps: string -> Dict<string, Value>)
    requires q < |queries| && DmriPrepSrc.AllRunsOk(fields, start, SubjectRuns(subject, collect, queries[..q]), cwd, fieldmaps)
    requires var runs := DwiRuns(collect(subject, queries[q]));
      var before := DmriPrepSrc.InputsAfter(start, SubjectRuns(subject, collect, queries[..q]), cwd, fieldmaps);
      runs.Some? ==> !DmriPrepSrc.AllRunsOk(fields, before, runs.value, cwd, fieldmaps)
    ensures !(AllListed(subject, collect, queries) && DmriPrepSrc.AllRunsOk(fields, start, SubjectRuns(subject, collect, queries), cwd, fieldmaps))
  {
    var runs := DwiRuns(collect(subject, queries[q]));
    if runs.Some? {
      SessionRunsStep(fields, start, subject, collect, queries, q, runs.value, cwd, fieldmaps);
      if DmriPrepSrc.AllRunsOk(fields, start, SubjectRuns(subject, collect, queries), cwd, fieldmaps) {
        SubjectRunsOkPrefix(fields, start, subject, collect, queries, q + 1, cwd, fieldmaps);
      }
    }
  }

  /** The runs of every label's sessions, label by label, in the order `preprocess_subjects` builds them. */
  function LabelRuns(labels: seq<string>, collect: (string, Option<string>) -> SessionData, getSessions: string -> seq<string>)
    : seq<RunFiles>
  {
    if labels == [] then []
    else
      var l := labels[|labels| - 1];
      LabelRuns(labels[..|labels| - 1], collect, getSessions) + SubjectRuns(l, collect, SessionsToCollect(getSessions(l)))
  }

  /** Every label has its anatomical data and lists the runs of each of its sessions. */
  predicate SubjectsReady(labels: seq<string>, collect: (string, Option<string>) -> SessionData,
                          collectAnat: string -> Dict<string, seq<RunFiles>>, getSessions: string -> seq<string>)
  {
    forall l :: l in labels ==> HasAnatomy(collectAnat(l)) && AllListed(l, collect, SessionsToCollect(getSessions(l)))
  }

  /** One more subject: its runs are built after those of the labels before it, on the inputs those left. */
  lemma LabelRunsStep(fields: seq<string>, start: map<string, Value>, labels: seq<string>, s: nat,
                      collect: (string, Option<string>) -> SessionData, getSessions: string -> seq<string>,
                      cwd: string, fieldmaps: string -> Dict<string, Value>)
    requires s < |labels|
    ensures var before := DmriPrepSrc.InputsAfter(start, LabelRuns(labels[..s], collect, getSessions), cwd, fieldmaps);
      var runs := SubjectRuns(labels[s], collect, SessionsToCollect(getSessions(labels[s])));
      && (DmriPrepSrc.AllRunsOk(fields, start, LabelRuns(labels[..s + 1], collect, getSessions), cwd, fieldmaps)
          <==> DmriPrepSrc.AllRunsOk(fields, start, LabelRuns(labels[..s], collect, getSessions), cwd, fieldmaps)
               && DmriPrepSrc.AllRunsOk(fields, before, runs, cwd, fieldmaps))
      && DmriPrepSrc.InputsAfter(start, LabelRuns(labels[..s + 1], collect, getSessions), cwd, fieldmaps)
         == DmriPrepSrc.InputsAfter(before, runs, cwd, fieldmaps)
  {
    assert labels[..s + 1][..s] == labels[..s];
    var prefix := LabelRuns(labels[..s], collect, getSessions);
    var runs := SubjectRuns(labels[s], collect, SessionsToCollect(getSessions(labels[s])));
    assert LabelRuns(labels[..s + 1], collect, getSessions) == prefix + runs;
    DmriPrepSrc.AllRunsOkAppend(fields, start, prefix, runs, cwd, fieldmaps);
    DmriPrepSrc.InputsAfterAppend(start, prefix, runs, cwd, fieldmaps);
  }

  /** The first `s + 1` labels are ready when the first `s` are and label `s` is. */
  lemma ReadyStep(labels: seq<string>, s: nat, collect: (string, Option<string>) -> SessionData,
                  collectAnat: string -> Dict<string, seq<RunFiles>>, getSessions: string -> seq<string>)
    requires s < |labels| && SubjectsReady(labels[..s], collect, collectAnat, getSessions)
    requires HasAnatomy(collectAnat(labels[s])) && AllListed(labels[s], collect, SessionsToCollect(getSessions(labels[s])))
    ensures SubjectsReady(labels[..s + 1], collect, collectAnat, getSessions)
  {
    PrefixMembers(labels, s);
  }

  /** The runs of the first `j` labels come first. */
  lemma {:induction false} LabelRunsPrefix(labels: seq<string>, collect: (string, Option<string>) -> SessionData,
                                           getSessions: string -> seq<string>, j: nat)
    requires j <= |labels|
    ensures LabelRuns(labels[..j], collect, getSessions) <= LabelRuns(labels, collect, getSessions)
    decreases |labels|
  {
    if j < |labels| {
      var n := |labels| - 1;
      LabelRunsPrefix(labels[..n], collect, getSessions, j);
      assert labels[..n][..j] == labels[..j];
    } else {
      assert labels[..j] == labels;
    }
  }

  /** When all the labels' runs build, so do those of the first `j` labels. */
  lemma LabelRunsOkPrefix(fields: seq<string>, start: map<string, Value>, labels: seq<string>, j: nat,
                          collect: (string, Option<string>) -> SessionData, getSessions: string -> seq<string>,
                          cwd: string, fieldmaps: string -> Dict<string, Value>)
    requires j <= |labels| && DmriPrepSrc.AllRunsOk(fields, start, LabelRuns(labels, collect, getSessions), cwd, fieldmaps)
    ensures DmriPrepSrc.AllRunsOk(fields, start, LabelRuns(labels[..j], collect, getSessions), cwd, fieldmaps)
  {
    var all, prefix := LabelRuns(labels, collect, getSessions), LabelRuns(labels[..j], collect, getSessions);
    LabelRunsPrefix(labels, collect, getSessions, j);
    DmriPrepSrc.AllRunsOkPrefix(fields, start, all, |prefix|, cwd, fieldmaps);
    assert all[..|prefix|] == prefix;
  }

  /** `self.fs_subjects_dir = fs_subjects_dir or os.environ.get("SUBJECTS_DIR")`. */
  function FsSubjectsDir(fsSubjectsDir: Option<string>, environSubjectsDir: Option<string>): (r: Option<string>)
    ensures Given(fsSubjectsDir) ==> r == fsSubjectsDir
    ensures !Given(fsSubjectsDir) ==> r == environSubjectsDir
  {
    if Given(fsSubjectsDir) then fsSubjectsDir else environSubjectsDir
  }

  /** The collected anatomical data lists both T1w and T2w records, which `init_anatomical_wf` iterates over. */
  predicate HasAnatomy(data: Dict<string, seq<RunFiles>>)
  {
    "T1w" in Keys(data) && "T2w" in Keys(data)
  }

  /** What `init_anatomical_wf` sets on smriprep's anatomical workflow. */
  datatype AnatomicalSetup = AnatomicalSetup(
    subjectId: string,
    t1w: seq<Option<string>>,
    t2w: seq<Option<string>>,
    subjectsDir: Option<string>,
    /** The nodes whose `out_path_base` is set to "dmriprep". */
    redirected: seq<string>)

  /** The `nifti` of each record, `None` where a record has none. */
  function Niftis(records: seq<RunFiles>): (r: seq<Option<string>>)
    ensures |r| == |records|
    ensures forall i :: 0 <= i < |records| ==> r[i] == Lookup(records[i], "nifti")
  {
    seq(|records|, i requires 0 <= i < |records| => Lookup(records[i], "nifti"))
  }

  /** The node names whose last dotted component starts with "ds_", in order. */
  function Derivatives(names: seq<string>): (r: seq<string>)
    ensures |r| <= |names|
  {
    if names == [] then []
    else Derivatives(names[..|names| - 1]) + (if DmriPrepSrc.IsDerivativeNode(names[|names| - 1]) then [names[|names| - 1]] else [])
  }

  /** Exactly the sink nodes are redirected, each once per occurrence. */
  lemma {:induction false} DerivativesMembers(names: seq<string>)
    ensures forall n :: n in Derivatives(names) <==> n in names && DmriPrepSrc.IsDerivativeNode(n)
    decreases |names|
  {
    if names != [] {
      var init, last := names[..|names| - 1], names[|names| - 1];
      DerivativesMembers(init);
      assert names == init + [last];
    }
  }

  /**
   * The loop of `init_anatomical_wf` over `list_node_names()` that
   * redirects smriprep's sinks into the dmriprep output directory.
   */
  method RedirectSinks(nodeNames: seq<string>) returns (redirected: seq<string>)
    ensures redirected == Derivatives(nodeNames)
  {
    redirected := [];
    for i := 0 to |nodeNames|
      invariant redirected == Derivatives(nodeNames[..i])
    {
      assert nodeNames[..i + 1][..i] == nodeNames[..i];
      if DmriPrepSrc.IsDerivativeNode(nodeNames[i]) {
        redirected := redirected + [nodeNames[i]];
      }
    }
    assert nodeNames[..|nodeNames|] == nodeNames;
  }

  class Manager {
    var participantLabels: seq<string>
    var destination: string
    var fsSubjectsDir: Option<string>
    var workDir: string
    /** `bids_query.collect_data(subject, session)`. */
    var collect: (string, Option<string>) -> SessionData
    /** `bids_query.collect_data(subject)` as the anatomical step reads it: records per datatype. */
    var collectAnat: string -> Dict<string, seq<RunFiles>>
    /** `bids_query.get_sessions(subject)`. */
    var getSessions: string -> seq<string>

    /** `DmriPrepManager(bids_query, destination, smriprep_kwargs, fs_subjects_dir, work_dir)`. */
    constructor (participantLabels: seq<string>, destination: string, fsSubjectsDir: Option<string>, environSubjectsDir: Option<string>,
                 workDir: Option<string>, collect: (string, Option<string>) -> SessionData,
                 collectAnat: string -> Dict<string, seq<RunFiles>>, getSessions: string -> seq<string>)
      ensures this.participantLabels == participantLabels && this.destination == destination
      ensures this.fsSubjectsDir == FsSubjectsDir(fsSubjectsDir, environSubjectsDir)
      ensures this.workDir == WorkDir(destination, workDir)
      ensures this.collect == collect && this.collectAnat == collectAnat && this.getSessions == getSessions
    {
      this.participantLabels := participantLabels;
      this.destination := destination;
      this.fsSubjectsDir := FsSubjectsDir(fsSubjectsDir, environSubjectsDir);
      this.workDir := WorkDir(destination, workDir);
      this.collect := collect;
      this.collectAnat := collectAnat;
      this.getSessions := getSessions;
    }

    /**
     * `init_anatomical_wf(participant_label)` as far as this code decides it:
     * the subject id, the T1w and T2w files, the FreeSurfer directory, and
     * the sinks redirected into the dmriprep output directory.
     */
    method InitAnatomicalWf(participantLabel: string, nodeNames: seq<string>) returns (r: Result<AnatomicalSetup>)
      ensures var data := collectAnat(participantLabel);
        r.Err? <==> "T1w" !in Keys(data) || "T2w" !in Keys(data)
      ensures r.Err? ==> r.error == TypeError(DmriPrepSrc.NOT_ITERABLE)
      ensures r.Ok? ==> var data := collectAnat(participantLabel);
        r.value.subjectId == "sub-" + participantLabel && r.value.subjectsDir == fsSubjectsDir
        && r.value.t1w == Niftis(Get(data, "T1w").value) && r.value.t2w == Niftis(Get(data, "T2w").value)
      ensures r.Ok? ==> forall n :: n in r.value.redirected <==> n in nodeNames && DmriPrepSrc.IsDerivativeNode(n)
    {
      var subjData := collectAnat(participantLabel);
      var t1wRecords := Get(subjData, "T1w");
      var t2wRecords := Get(subjData, "T2w");
      if t1wRecords.None? || t2wRecords.None? {
        return Err(TypeError(DmriPrepSrc.NOT_ITERABLE));
      }
      var t1w := Niftis(t1wRecords.value);
      var t2w := Niftis(t2wRecords.value);
      var redirected := RedirectSinks(nodeNames);
      DerivativesMembers(nodeNames);
      r := Ok(AnatomicalSetup("sub-" + participantLabel, t1w, t2w, fsSubjectsDir, redirected));
    }

    /** `connect_anatomical_and_diffusion(subject_workflow, dwi_preproc_wf, anat_preproc_wf)`. */
    method ConnectAnatomicalAndDiffusion(subjectWorkflow: Workflow, dwiPreprocWf: string, anatPreprocWf: string)
      modifies subjectWorkflow
      ensures subjectWorkflow.edges == old(subjectWorkflow.edges) + AnatEdges(anatPreprocWf, dwiPreprocWf)
      ensures subjectWorkflow.name == old(subjectWorkflow.name) && subjectWorkflow.baseDir == old(subjectWorkflow.baseDir)
    {
      subjectWorkflow.Connect(anatPreprocWf, dwiPreprocWf, ANAT_PORTS);
      assert Connections(anatPreprocWf, dwiPreprocWf, ANAT_PORTS) == AnatEdges(anatPreprocWf, dwiPreprocWf);
    }

    /**
     * `preprocess_session(session_data, participant_label)` as written: the
     * manager's working directory is passed fifth, where `DmriPrep` expects
     * the session, so the runs are built in the driver's default working
     * directory, `destination/work`, whatever the manager was given.
     */
    method PreprocessSession(sessionData: SessionData, participantLabel: string, inputnode: InputNode, cwd: string,
                             fieldmaps: string -> Dict<string, Value>)
      returns (r: Result<seq<DmriPrepSrc.RunWorkflow>>)
      modifies inputnode
      ensures DwiRuns(sessionData).None? ==> r.Err?
      ensures r.Ok? ==> DwiRuns(sessionData).Some? && |r.value| == |DwiRuns(sessionData).value|
      ensures r.Ok? ==> DmriPrepSrc.AllBuilt(r.value, DwiRuns(sessionData).value, JoinPath(destination, OUTPUT_NAME),
                                             JoinPath(destination, "work"), cwd)
      ensures r.Ok? ==> forall k :: 0 <= k < |r.value| ==> r.value[k].wf.name == RunWfNames(DwiRuns(sessionData).value)[k]
      ensures inputnode.name == old(inputnode.name) && inputnode.fields == old(inputnode.fields)
      ensures DwiRuns(sessionData).Some? ==>
        && (r.Ok? <==> DmriPrepSrc.AllRunsOk(inputnode.fields, old(inputnode.inputs), DwiRuns(sessionData).value, cwd, fieldmaps))
        && (r.Ok? ==> inputnode.inputs == DmriPrepSrc.InputsAfter(old(inputnode.inputs), DwiRuns(sessionData).value, cwd, fieldmaps))
    {
      var outputDir, workingDir := destination, workDir;
      var dmriprep := new DmriPrepSrc.DmriPrep(sessionData, participantLabel, outputDir, Some(workingDir), None);
      DefaultWorkDirInsideDestination(outputDir);
      assert dmriprep.workDir == JoinPath(outputDir, "work");
      r := dmriprep.InitWorkflowPerDwi(inputnode, cwd, fieldmaps);
      ghost var entry := Get(sessionData, "dwi");
      if r.Ok? {
        assert entry.Some? && !entry.value.NoEntry?;
        if entry.value.Run? {
          assert entry.value.files == map[];
        } else {
          assert DmriPrepSrc.AllBuilt(r.value, entry.value.runs, JoinPath(outputDir, OUTPUT_NAME), JoinPath(outputDir, "work"), cwd);
        }
      }
    }

    /**
     * The call with the working directory bound by keyword: the runs are
     * built in the manager's own working directory.
     */
    method PreprocessSessionInWorkDir(sessionData: SessionData, participantLabel: string, inputnode: InputNode, cwd: string,
                                      fieldmaps: string -> Dict<string, Value>)
      returns (r: Result<seq<DmriPrepSrc.RunWorkflow>>)
      modifies inputnode
      ensures DwiRuns(sessionData).None? ==> r.Err?
      ensures r.Ok? ==> DwiRuns(sessionData).Some? && |r.value| == |DwiRuns(sessionData).value|
      ensures r.Ok? ==> DmriPrepSrc.AllBuilt(r.value, DwiRuns(sessionData).value, JoinPath(destination, OUTPUT_NAME), workDir, cwd)
      ensures inputnode.name == old(inputnode.name) && inputnode.fields == old(inputnode.fields)
      ensures DwiRuns(sessionData).Some? ==>
        && (r.Ok? <==> DmriPrepSrc.AllRunsOk(inputnode.fields, old(inputnode.inputs), DwiRuns(sessionData).value, cwd, fieldmaps))
        && (r.Ok? ==> inputnode.inputs == DmriPrepSrc.InputsAfter(old(inputnode.inputs), DwiRuns(sessionData).value, cwd, fieldmaps))
    {
      var outputDir, workingDir := destination, workDir;
      var dmriprep := new DmriPrepSrc.DmriPrep(sessionData, participantLabel, outputDir, None, Some(workingDir));
      r := dmriprep.InitWorkflowPerDwi(inputnode, cwd, fieldmaps);
      ghost var entry := Get(sessionData, "dwi");
      if r.Ok? {
        assert entry.Some? && !entry.value.NoEntry?;
        if entry.value.Run? {
          assert entry.value.files == map[];
        } else {
          assert DmriPrepSrc.AllBuilt(r.value, entry.value.runs, JoinPath(outputDir, OUTPUT_NAME), workingDir, cwd);
        }
      }
    }

    /**
     * The session loop of `preprocess_subjects` for one subject: the names
     * of the run workflows of every collected session, in order.
     */
    method SessionRunNames(subject: string, inputnode: InputNode, cwd: string, fieldmaps: string -> Dict<string, Value>)
      returns (r: Result<seq<string>>)
      modifies inputnode
      ensures var queries := SessionsToCollect(getSessions(subject));
        (exists i :: 0 <= i < |queries| && DwiRuns(collect(subject, queries[i])).None?) ==> r.Err?
      ensures r.Ok? ==> r.value == RunNames(subject, collect, SessionsToCollect(getSessions(subject)))
      ensures r.Ok? ==> |r.value| == RunCount(subject, collect, SessionsToCollect(getSessions(subject)))
      ensures inputnode.name == old(inputnode.name) && inputnode.fields == old(inputnode.fields)
      ensures var runs := SubjectRuns(subject, collect, SessionsToCollect(getSessions(subject)));
        && (r.Ok? <==> AllListed(subject, collect, SessionsToCollect(getSessions(subject)))
                       && DmriPrepSrc.AllRunsOk(inputnode.fields, old(inputnode.inputs), runs, cwd, fieldmaps))
        && (r.Ok? ==> inputnode.inputs == DmriPrepSrc.InputsAfter(old(inputnode.inputs), runs, cwd, fieldmaps))
    {
      var queries := SessionsToCollect(getSessions(subject));
      var collectData := collect;
      var names: seq<string> := [];
      ghost var start, fields := inputnode.inputs, inputnode.fields;
      for q := 0 to |queries|
        invariant collectData == collect
        invariant AllListed(subject, collectData, queries[..q])
        invariant names == RunNames(subject, collectData, queries[..q])
        invariant inputnode.name == old(inputnode.name) && inputnode.fields == fields
        invariant inputnode.inputs == DmriPrepSrc.InputsAfter(start, SubjectRuns(subject, collectData, queries[..q]), cwd, fieldmaps)
        invariant DmriPrepSrc.AllRunsOk(fields, start, SubjectRuns(subject, collectData, queries[..q]), cwd, fieldmaps)
      {
        var sessionData := collectData(subject, queries[q]);
        var wfs := PreprocessSession(sessionData, subject, inputnode, cwd, fieldmaps);
        if wfs.Err? {
          SessionFails(fields, start, subject, collectData, queries, q, cwd, fieldmaps);
          return Err(wfs.error);
        }
        ghost var runs := DwiRuns(sessionData).value;
        assert WfNames(wfs.value) == RunWfNames(runs);
        names := names + WfNames(wfs.value);
        RunNamesStep(subject, collectData, queries, q, runs);
        SessionRunsStep(fields, start, subject, collectData, queries, q, runs, cwd, fieldmaps);
      }
      assert queries[..|queries|] == queries;
      ListedAt(subject, collectData, queries);
      RunNamesCount(subject, collectData, queries);
      r := Ok(names);
    }

    /** The connect loop of `preprocess_subjects`: every run joined to the anatomical workflow. */
    method JoinRuns(wf: Workflow, names: seq<string>)
      modifies wf
      ensures wf.edges == old(wf.edges) + Joins(ANAT_WF, names)
      ensures wf.name == old(wf.name) && wf.baseDir == old(wf.baseDir)
    {
      ghost var before := wf.edges;
      for k := 0 to |names|
        invariant wf.edges == before + Joins(ANAT_WF, names[..k])
        invariant wf.name == old(wf.name) && wf.baseDir == old(wf.baseDir)
      {
        var prefix := names[..k + 1];
        assert prefix[..k] == names[..k] && prefix[k] == names[k];
        assert Joins(ANAT_WF, prefix) == Joins(ANAT_WF, names[..k]) + AnatEdges(ANAT_WF, names[k]);
        ConnectAnatomicalAndDiffusion(wf, names[k], ANAT_WF);
      }
      assert names[..|names|] == names;
    }

    /**
     * One pass of the subject loop of `preprocess_subjects`: the subject's
     * workflow, based in the working directory; the anatomical workflow,
     * whose TypeError on missing T1w or T2w data stops the pass before any
     * session is collected; then every run of every session joined to the
     * anatomical workflow, and the run names joined. `anatNodeNames` are the
     * node names of smriprep's anatomical workflow.
     */
    method PreprocessSubject(subject: string, anatNodeNames: seq<string>, inputnode: InputNode, cwd: string,
                             fieldmaps: string -> Dict<string, Value>)
      returns (r: Result<Workflow>, names: seq<string>)
      modifies inputnode
      ensures !HasAnatomy(collectAnat(subject)) ==> r == Err(TypeError(DmriPrepSrc.NOT_ITERABLE)) && unchanged(inputnode)
      ensures r.Ok? ==> HasAnatomy(collectAnat(subject))
      ensures r.Ok? ==> fresh(r.value) && r.value.name == SubjectWfName(subject) && r.value.baseDir == Some(workDir)
      ensures r.Ok? ==> r.value.edges == Joins(ANAT_WF, names) && |names| == RunCount(subject, collect, SessionsToCollect(getSessions(subject)))
      ensures r.Ok? ==> names == RunNames(subject, collect, SessionsToCollect(getSessions(subject)))
      ensures var queries := SessionsToCollect(getSessions(subject));
        (exists i :: 0 <= i < |queries| && DwiRuns(collect(subject, queries[i])).None?) ==> r.Err?
      ensures inputnode.name == old(inputnode.name) && inputnode.fields == old(inputnode.fields)
      ensures var queries := SessionsToCollect(getSessions(subject));
        var runs := SubjectRuns(subject, collect, queries);
        && (r.Ok? <==> HasAnatomy(collectAnat(subject)) && AllListed(subject, collect, queries)
                       && DmriPrepSrc.AllRunsOk(inputnode.fields, old(inputnode.inputs), runs, cwd, fieldmaps))
        && (r.Ok? ==> inputnode.inputs == DmriPrepSrc.InputsAfter(old(inputnode.inputs), runs, cwd, fieldmaps))
    {
      var baseDir := workDir;
      var wf := new Workflow(SubjectWfName(subject));
      wf.baseDir := Some(baseDir);
      var anatomicalWf := InitAnatomicalWf(subject, anatNodeNames);
      if anatomicalWf.Err? {
        return Err(anatomicalWf.error), [];
      }
      var runNames := SessionRunNames(subject, inputnode, cwd, fieldmaps);
      if runNames.Err? {
        return Err(runNames.error), [];
      }
      names := runNames.value;
      JoinRuns(wf, names);
      assert [] + Joins(ANAT_WF, names) == Joins(ANAT_WF, names);
      r := Ok(wf);
    }

    /**
     * One pass of the subject loop of `preprocess_subjects` over the
     * first `s` labels' table: label `s`'s workflow stored, its run names
     * recorded and its runs chained on the shared input node, or the
     * failure that stops the loop.
     */
    method AddSubject(labels: seq<string>, s: nat, anatNodeNames: seq<string>, inputnode: InputNode, cwd: string,
                      fieldmaps: string -> Dict<string, Value>, subjectsWf: Dict<string, Workflow>,
                      ghost runs: map<string, seq<string>>, ghost start: map<string, Value>, ghost fields: seq<string>)
      returns (r: Result<Dict<string, Workflow>>, ghost recorded: map<string, seq<string>>)
      requires s < |labels| && SubjectsReady(labels[..s], collect, collectAnat, getSessions)
      requires SubjectsBuilt(subjectsWf, runs, labels[..s], workDir) && RunsRecorded(runs, collect, getSessions)
      requires inputnode.fields == fields
      requires inputnode.inputs == DmriPrepSrc.InputsAfter(start, LabelRuns(labels[..s], collect, getSessions), cwd, fieldmaps)
      requires DmriPrepSrc.AllRunsOk(fields, start, LabelRuns(labels[..s], collect, getSessions), cwd, fieldmaps)
      modifies inputnode
      ensures inputnode.name == old(inputnode.name) && inputnode.fields == fields
      ensures r.Err? ==> !(SubjectsReady(labels, collect, collectAnat, getSessions)
                           && DmriPrepSrc.AllRunsOk(fields, start, LabelRuns(labels, collect, getSessions), cwd, fieldmaps))
      ensures r.Ok? ==> SubjectsReady(labels[..s + 1], collect, collectAnat, getSessions)
      ensures r.Ok? ==> SubjectsBuilt(r.value, recorded, labels[..s + 1], workDir) && RunsRecorded(recorded, collect, getSessions)
      ensures r.Ok? ==> inputnode.inputs == DmriPrepSrc.InputsAfter(start, LabelRuns(labels[..s + 1], collect, getSessions), cwd, fieldmaps)
      ensures r.Ok? ==> DmriPrepSrc.AllRunsOk(fields, start, LabelRuns(labels[..s + 1], collect, getSessions), cwd, fieldmaps)
    {
      var subject := labels[s];
      var wf, names := PreprocessSubject(subject, anatNodeNames, inputnode, cwd, fieldmaps);
      if wf.Err? {
        SubjectFails(fields, start, labels, s, collect, collectAnat, getSessions, cwd, fieldmaps);
        return Err(wf.error), runs;
      }
      SubjectAdded(subjectsWf, runs, labels, s, wf.value, names, workDir, collect, collectAnat, getSessions,
                   fields, start, inputnode.inputs, cwd, fieldmaps);
      recorded := runs[subject := names];
      r := Ok(Set(subjectsWf, subject, wf.value));
    }

    /**
     * `preprocess_subjects()`: one workflow per participant label, named
     * after it and based in the working directory, holding the joins of
     * all the subject's runs to the anatomical workflow; a later duplicate
     * label replaces the earlier workflow. A participant without T1w or
     * T2w data makes the whole call fail.
     */
    method PreprocessSubjects(anatNodeNames: seq<string>, inputnode: InputNode, cwd: string, fieldmaps: string -> Dict<string, Value>)
      returns (r: Result<Dict<string, Workflow>>, ghost runs: map<string, seq<string>>)
      modifies inputnode
      ensures (exists l :: l in participantLabels && !HasAnatomy(collectAnat(l))) ==> r.Err?
      ensures r.Ok? ==> Dicts.Valid(r.value) && forall l :: l in Keys(r.value) <==> l in participantLabels
      ensures r.Ok? ==> forall i :: 0 <= i < |r.value| ==> SubjectBuilt(r.value[i], runs, workDir)
      ensures r.Ok? ==> forall l :: l in runs ==> |runs[l]| == RunCount(l, collect, SessionsToCollect(getSessions(l)))
      ensures r.Ok? ==> forall l :: l in runs ==> runs[l] == RunNames(l, collect, SessionsToCollect(getSessions(l)))
      ensures inputnode.name == old(inputnode.name) && inputnode.fields == old(inputnode.fields)
      ensures var all := LabelRuns(participantLabels, collect, getSessions);
        && (r.Ok? <==> SubjectsReady(participantLabels, collect, collectAnat, getSessions)
                       && DmriPrepSrc.AllRunsOk(inputnode.fields, old(inputnode.inputs), all, cwd, fieldmaps))
        && (r.Ok? ==> inputnode.inputs == DmriPrepSrc.InputsAfter(old(inputnode.inputs), all, cwd, fieldmaps))
    {
      var labels, baseDir, collectData, sessionsOf, anatOf := participantLabels, workDir, collect, getSessions, collectAnat;
      var subjectsWf: Dict<string, Workflow> := [];
      runs := map[];
      ghost var start, fields := inputnode.inputs, inputnode.fields;
      for s := 0 to |labels|
        invariant labels == participantLabels && baseDir == workDir && collectData == collect && sessionsOf == getSessions
        invariant anatOf == collectAnat && SubjectsReady(labels[..s], collectData, anatOf, sessionsOf)
        invariant SubjectsBuilt(subjectsWf, runs, labels[..s], baseDir)
        invariant RunsRecorded(runs, collectData, sessionsOf)
        invariant inputnode.name == old(inputnode.name) && inputnode.fields == fields
        invariant inputnode.inputs == DmriPrepSrc.InputsAfter(start, LabelRuns(labels[..s], collectData, sessionsOf), cwd, fieldmaps)
        invariant DmriPrepSrc.AllRunsOk(fields, start, LabelRuns(labels[..s], collectData, sessionsOf), cwd, fieldmaps)
      {
        var next, recorded := AddSubject(labels, s, anatNodeNames, inputnode, cwd, fieldmaps, subjectsWf, runs, start, fields);
        if next.Err? {
          return Err(next.error), runs;
        }
        subjectsWf, runs := next.value, recorded;
      }
      assert labels[..|labels|] == labels;
      RecordedCounts(runs, collectData, sessionsOf);
      r := Ok(subjectsWf);
    }
  }

  /** Label `s` built: its workflow and run names recorded, its runs chained after those of the labels before it. */
  lemma SubjectAdded(subjectsWf: Dict<string, Workflow>, runs: map<string, seq<string>>, labels: seq<string>, s: nat,
                     wf: Workflow, names: seq<string>, workDir: string, collect: (string, Option<string>) -> SessionData,
                     collectAnat: string -> Dict<string, seq<RunFiles>>, getSessions: string -> seq<string>,
                     fields: seq<string>, start: map<string, Value>, inputs: map<string, Value>,
                     cwd: string, fieldmaps: string -> Dict<string, Value>)
    requires s < |labels| && SubjectsReady(labels[..s], collect, collectAnat, getSessions)
    requires SubjectsBuilt(subjectsWf, runs, labels[..s], workDir) && RunsRecorded(runs, collect, getSessions)
    requires var l := labels[s];
      var before := DmriPrepSrc.InputsAfter(start, LabelRuns(labels[..s], collect, getSessions), cwd, fieldmaps);
      var own := SubjectRuns(l, collect, SessionsToCollect(getSessions(l)));
      && HasAnatomy(collectAnat(l)) && AllListed(l, collect, SessionsToCollect(getSessions(l)))
      && wf.name == SubjectWfName(l) && wf.baseDir == Some(workDir) && wf.edges == Joins(ANAT_WF, names)
      && names == RunNames(l, collect, SessionsToCollect(getSessions(l)))
      && DmriPrepSrc.AllRunsOk(fields, start, LabelRuns(labels[..s], collect, getSessions), cwd, fieldmaps)
      && DmriPrepSrc.AllRunsOk(fields, before, own, cwd, fieldmaps) && inputs == DmriPrepSrc.InputsAfter(before, own, cwd, fieldmaps)
    ensures SubjectsReady(labels[..s + 1], collect, collectAnat, getSessions)
    ensures SubjectsBuilt(Set(subjectsWf, labels[s], wf), runs[labels[s] := names], labels[..s + 1], workDir)
    ensures RunsRecorded(runs[labels[s] := names], collect, getSessions)
    ensures inputs == DmriPrepSrc.InputsAfter(start, LabelRuns(labels[..s + 1], collect, getSessions), cwd, fieldmaps)
    ensures DmriPrepSrc.AllRunsOk(fields, start, LabelRuns(labels[..s + 1], collect, getSessions), cwd, fieldmaps)
  {
    LabelRunsStep(fields, start, labels, s, collect, getSessions, cwd, fieldmaps);
    ReadyStep(labels, s, collect, collectAnat, getSessions);
    SubjectsStep(subjectsWf, runs, labels[s], wf, names, workDir, labels, s);
  }

  /**
   * Label `s` stops the subject loop, the labels before it being ready and
   * their runs built: it lacks anatomical data or a session's runs, or one
   * of its runs fails on what the runs before it left, and then not every
   * label is ready or not all the runs build.
   */
  lemma SubjectFails(fields: seq<string>, start: map<string, Value>, labels: seq<string>, s: nat,
                     collect: (string, Option<string>) -> SessionData, collectAnat: string -> Dict<string, seq<RunFiles>>,
                     getSessions: string -> seq<string>, cwd: string, fieldmaps: string -> Dict<string, Value>)
    requires s < |labels| && DmriPrepSrc.AllRunsOk(fields, start, LabelRuns(labels[..s], collect, getSessions), cwd, fieldmaps)
    requires var l := labels[s];
      var before := DmriPrepSrc.InputsAfter(start, LabelRuns(labels[..s], collect, getSessions), cwd, fieldmaps);
      !(HasAnatomy(collectAnat(l)) && AllListed(l, collect, SessionsToCollect(getSessions(l)))
        && DmriPrepSrc.AllRunsOk(fields, before, SubjectRuns(l, collect, SessionsToCollect(getSessions(l))), cwd, fieldmaps))
    ensures !(SubjectsReady(labels, collect, collectAnat, getSessions)
              && DmriPrepSrc.AllRunsOk(fields, start, LabelRuns(labels, collect, getSessions), cwd, fieldmaps))
  {
    LabelRunsStep(fields, start, labels, s, collect, getSessions, cwd, fieldmaps);
    if SubjectsReady(labels, collect, collectAnat, getSessions)
       && DmriPrepSrc.AllRunsOk(fields, start, LabelRuns(labels, collect, getSessions), cwd, fieldmaps) {
      assert labels[s] in labels;
      LabelRunsOkPrefix(fields, start, labels, s + 1, collect, getSessions, cwd, fieldmaps);
    }
  }

  /** Each label's recorded names are those of its sessions' runs. */
  predicate RunsRecorded(runs: map<string, seq<string>>, collect: (string, Option<string>) -> SessionData,
                         getSessions: string -> seq<string>)
  {
    forall l :: l in runs ==> runs[l] == RunNames(l, collect, SessionsToCollect(getSessions(l)))
  }

  /** Each recorded label has one name per run of its sessions. */
  lemma RecordedCounts(runs: map<string, seq<string>>, collect: (string, Option<string>) -> SessionData,
                       getSessions: string -> seq<string>)
    requires RunsRecorded(runs, collect, getSessions)
    ensures forall l :: l in runs ==> |runs[l]| == RunCount(l, collect, SessionsToCollect(getSessions(l)))
  {
    forall l | l in runs
      ensures |runs[l]| == RunCount(l, collect, SessionsToCollect(getSessions(l)))
    {
      RunNamesCount(l, collect, SessionsToCollect(getSessions(l)));
    }
  }

  /** One entry of the result: named after its label, based in the working directory, joined to the runs recorded for it. */
  predicate SubjectBuilt(entry: (string, Workflow), runs: map<string, seq<string>>, workDir: string)
    reads entry.1
  {
    entry.1.name == SubjectWfName(entry.0) && entry.1.baseDir == Some(workDir)
    && entry.0 in runs && entry.1.edges == Joins(ANAT_WF, runs[entry.0])
  }

  /** The table built for the labels `labels`: one entry per distinct label, each built with the runs recorded for it. */
  ghost predicate SubjectsBuilt(subjectsWf: Dict<string, Workflow>, runs: map<string, seq<string>>, labels: seq<string>, workDir: string)
    reads set i | 0 <= i < |subjectsWf| :: subjectsWf[i].1
  {
    Dicts.Valid(subjectsWf) && (forall l :: l in Keys(subjectsWf) <==> l in labels)
    && forall i :: 0 <= i < |subjectsWf| ==> SubjectBuilt(subjectsWf[i], runs, workDir)
  }

  /**
   * The positional call at work: a manager given the working directory
   * "/scratch" builds its subject workflows there, while `PreprocessSession`
   * builds the runs in `destination/work` for every destination.
   */
  lemma SessionWorkDirDiffers(destination: string)
    ensures WorkDir(destination, Some("/scratch")) == "/scratch"
    ensures JoinPath(destination, "work") != "/scratch"
  {
    assert IsPart("work");
    NameOfJoin(destination, "work");
    ScratchName();
  }

  lemma ScratchName()
    ensures Name("/scratch") == "scratch"
  {
    assert IsPart("scratch");
    assert "" + "/" + "scratch" == "/scratch";
    NameOfText("", "scratch");
  }

  /** Storing a subject's workflow keeps every entry built, the replaced one included. */
  lemma SubjectsStep(subjectsWf: Dict<string, Workflow>, runs: map<string, seq<string>>, subject: string, wf: Workflow,
                     names: seq<string>, workDir: string, labels: seq<string>, s: nat)
    requires s < |labels| && labels[s] == subject && SubjectsBuilt(subjectsWf, runs, labels[..s], workDir)
    requires wf.name == SubjectWfName(subject) && wf.baseDir == Some(workDir) && wf.edges == Joins(ANAT_WF, names)
    ensures SubjectsBuilt(Set(subjectsWf, subject, wf), runs[subject := names], labels[..s + 1], workDir)
  {
    KeysSet(subjectsWf, subject, wf);
    PrefixMembers(labels, s);
    SetKeepsOthers(subjectsWf, subject, wf);
    ValidSet(subjectsWf, subject, wf);
    var after := Set(subjectsWf, subject, wf);
    forall i | 0 <= i < |after|
      ensures SubjectBuilt(after[i], runs[subject := names], workDir)
    {
      if after[i] != (subject, wf) {
        EntryKept(after[i], subjectsWf, runs, subject, names, workDir);
      }
    }
  }

  /** An entry for another label keeps its recorded runs when `subject`'s runs are recorded. */
  lemma EntryKept(e: (string, Workflow), subjectsWf: Dict<string, Workflow>, runs: map<string, seq<string>>,
                  subject: string, names: seq<string>, workDir: string)
    requires e in subjectsWf && e.0 != subject
    requires forall i :: 0 <= i < |subjectsWf| ==> SubjectBuilt(subjectsWf[i], runs, workDir)
    ensures SubjectBuilt(e, runs[subject := names], workDir)
  {
    var j :| 0 <= j < |subjectsWf| && subjectsWf[j] == e;
    assert SubjectBuilt(subjectsWf[j], runs, workDir);
  }

  /** The members of a list's first `s + 1` items: those of the first `s`, and item `s`. */
  lemma PrefixMembers<T>(xs: seq<T>, s: nat)
    requires s < |xs|
    ensures forall l :: l in xs[..s + 1] <==> l in xs[..s] || l == xs[s]
  {
    assert xs[..s + 1] == xs[..s] + [xs[s]];
  }

  /** Every entry after `Set` is the new pair or an untouched entry with another key. */
  lemma {:induction false} SetKeepsOthers<K, V>(d: Dict<K, V>, k: K, v: V)
    requires Dicts.Valid(d)
    ensures forall i :: 0 <= i < |Set(d, k, v)| ==> Set(d, k, v)[i] == (k, v) || (Set(d, k, v)[i] in d && Set(d, k, v)[i].0 != k)
    decreases |d|
  {
    if d != [] {
      var r := Set(d, k, v);
      if d[0].0 != k {
        SetKeepsOthers(d[1..], k, v);
        assert r == [d[0]] + Set(d[1..], k, v);
        forall i | 1 <= i < |r|
          ensures r[i] == (k, v) || (r[i] in d && r[i].0 != k)
        {
          assert r[i] == Set(d[1..], k, v)[i - 1];
        }
      } else {
        assert r == [(k, v)] + d[1..];
        forall i | 1 <= i < |r|
          ensures r[i] in d && r[i].0 != k
        {
          assert r[i] == d[i] && d[0].0 != d[i].0;
        }
      }
    }
  }
}
