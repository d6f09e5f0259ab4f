/**
 * The per-run dMRI workflow (dmri/base.py): `_get_wf_name`, which names the
 * workflow after the DWI file, and `init_dwi_preproc_wf`, which wires the
 * conversion, reference, fieldmap, preprocessing, tensor, coregistration and
 * resampling sub-workflows together and hangs one derivatives sink on every
 * output.
 */
module DmriBase {
  import opened Py
  import opened Text
  import opened Paths
  import opened Graph
  import FmapPrep
  import TensorEstimation
  import Coregister
  import ApplyTransform

  // ---------------------------------------------------------------------
  // _get_wf_name

  /** `.replace('.', '_').replace(' ', '').replace('-', '_')`. */
  function Clean(s: string): (r: string)
    ensures '.' !in r && ' ' !in r && '-' !in r
  {
    var a := Replace(s, ".", "_");
    var b := Replace(a, " ", "");
    ReplaceRemovesChar(s, '.', "_");
    ReplaceRemovesChar(a, ' ', "");
    ReplaceRemovesChar(b, '-', "_");
    Replace(b, "-", "_")
  }

  /** `Path(filename).name.rpartition(".nii")[0].replace("_dwi", "_wf")`. */
  function Stem(filename: string): string
  {
    Replace(RPartition(Name(filename), ".nii").0, "_dwi", "_wf")
  }

  /**
   * `_get_wf_name(filename)`: the stem without its first '_'-separated field,
   * cleaned, behind "dwi_preproc_".
   */
  function WfName(filename: string): (r: string)
    ensures |r| >= 12 && r[..12] == "dwi_preproc_"
    ensures '.' !in r[12..] && ' ' !in r[12..] && '-' !in r[12..]
  {
    var fields := Split(Stem(filename), '_');
    var r := "dwi_preproc_" + Clean(Join("_", fields[1..]));
    assert r[12..] == Clean(Join("_", fields[1..]));
    r
  }

  /** A name without ".nii" has an empty `rpartition` head, so only the prefix is left. */
  lemma WfNameWithoutNii(filename: string)
    requires !Contains(Name(filename), ".nii")
    ensures WfName(filename) == "dwi_preproc_"
  {
    assert RPartition(Name(filename), ".nii").0 == "";
    assert Stem(filename) == "";
    assert Split("", '_') == [""];
    assert Clean("") == "";
  }

  /** The first '_'-separated field (the subject) is dropped; the rest is kept and cleaned. */
  lemma WfNameDropsSubject(filename: string, subject: string, rest: string)
    requires '_' !in subject && Stem(filename) == subject + "_" + rest
    ensures WfName(filename) == "dwi_preproc_" + Clean(rest)
  {
    assert subject + "_" + rest == subject + ['_'] + rest;
    SplitFirst(subject, '_', rest);
    JoinSplit(rest, '_');
  }

  /**
   * For a BIDS run name `<subject>_<entities>_dwi.nii<ext>` whose only "_dwi"
   * is the suffix, the stem ends in "_wf" and the subject is dropped.
   */
  lemma WfNameOfRun(dir: string, subject: string, entities: string, ext: string)
    requires '_' !in subject && '/' !in subject + entities + ext
    requires !Contains(subject + "_" + entities, "_dwi") && !Contains(ext, ".nii")
    ensures WfName(dir + "/" + subject + "_" + entities + "_dwi.nii" + ext) == "dwi_preproc_" + Clean(entities + "_wf")
  {
    var f := dir + "/" + subject + "_" + entities + "_dwi.nii" + ext;
    var head := subject + "_" + entities;
    var name := head + "_dwi" + ".nii" + ext;
    assert f == dir + "/" + name;
    assert IsPart(name) by {
      assert name[0] in subject + "_";
      assert forall c :: c in name ==> c in subject + entities + ext || c in "_dwi.n";
    }
    NameOfText(dir, name);
    RPartitionAt(head + "_dwi", ".nii", ext);
    ReplaceTail(head, "_dwi", "_wf");
    assert Stem(f) == subject + "_" + (entities + "_wf");
    WfNameDropsSubject(f, subject, entities + "_wf");
  }

  /** A text with none of the three characters is left as it is. */
  lemma CleanPlain(s: string)
    requires '.' !in s && ' ' !in s && '-' !in s
    ensures Clean(s) == s
  {
    MissingChar(s, ".", '.');
    ReplaceAbsent(s, ".", "_");
    MissingChar(s, " ", ' ');
    ReplaceAbsent(s, " ", "");
    MissingChar(s, "-", '-');
    ReplaceAbsent(s, "-", "_");
  }

  /** Each '-' becomes '_', one at a time from the left. */
  lemma CleanDash(x: string, y: string)
    requires '.' !in x + y && ' ' !in x + y && '-' !in x
    ensures Clean(x + "-" + y) == x + "_" + Clean(y)
  {
    var s := x + "-" + y;
    MissingChar(s, ".", '.');
    ReplaceAbsent(s, ".", "_");
    MissingChar(s, " ", ' ');
    ReplaceAbsent(s, " ", "");
    MissingChar(y, ".", '.');
    ReplaceAbsent(y, ".", "_");
    MissingChar(y, " ", ' ');
    ReplaceAbsent(y, " ", "");
    ReplaceCharConcat(x + "-", y, '-', "_");
    ReplaceCharConcat(x, "-", '-', "_");
    MissingChar(x, "-", '-');
    ReplaceAbsent(x, "-", "_");
    assert Replace("-", "-", "_") == "_" + Replace("", "-", "_");
  }

  // ---------------------------------------------------------------------
  // init_dwi_preproc_wf

  /**
   * The sub-workflows and nodes, by the names they are created with. The
   * conversion workflow is referred to by the default name of
   * `init_conversion_wf`; base.py:129 passes the input node in its place.
   */
  const CONVERSION := "mif_conversion_wf"
  const EPI_REF := "epi_reference_wf"
  const PHASEDIFF := "phasediff_prep_wf"
  const PREPROCESS := "preprocess_wf"
  const PREPROC_EPI_REF := "preprocessed_epi_ref_wf"
  const NII_CONVERSION := "nii_conversion_wf"
  const TENSOR := "tensor_estimation_wf"
  const T1W_BRAIN := "t1w_brain"
  const EPI_REG := "epi_reg_wf"
  const APPLY := "apply_transform_wf"

  /** The message `Path(None)` raises its TypeError with. */
  const PATH_OF_NONE := "expected str, bytes or os.PathLike object, not NoneType"

  /** A `DerivativesDataSink` node: its name and the inputs given to it at construction or set afterwards. */
  datatype Sink = Sink(name: string, inputs: map<string, Value>)

  /** The preprocessed outputs that get a native-space sink, in loop order. */
  const PREPROC_OUTPUTS: seq<string> := ["dwi_file", "dwi_bvec", "dwi_bval", "dwi_json", "epi_ref_file", "epi_ref_json"]

  /** The two affines, where each maps from and to (the `zip` of the three lists). */
  const AFFINES: seq<(string, string, string)> := [("epi_to_t1w_aff", "epi", "T1w"), ("t1w_to_epi_aff", "T1w", "epi")]

  /** The suffix after one iteration: "dwi", else "sbref", else the previous iteration's value. */
  function SinkSuffix(orig: string, previous: Option<string>): Option<string>
  {
    if Contains(orig, "dwi") then Some("dwi")
    else if Contains(orig, "epi_ref") then Some("sbref")
    else previous
  }

  /** The value of `suffix` after iterating over `names` (None: never bound). */
  function CarriedSuffix(names: seq<string>): Option<string>
  {
    if names == [] then None else SinkSuffix(names[|names| - 1], CarriedSuffix(names[..|names| - 1]))
  }

  /** Which of the output names contain "dwi", "epi_ref" and "_file". */
  lemma PreprocOutputName(i: int)
    requires 0 <= i < |PREPROC_OUTPUTS|
    ensures i < 4 ==> OccursAt(PREPROC_OUTPUTS[i], "dwi", 0) && !Contains(PREPROC_OUTPUTS[i], "epi_ref")
    ensures 4 <= i ==> OccursAt(PREPROC_OUTPUTS[i], "epi_ref", 0) && !Contains(PREPROC_OUTPUTS[i], "dwi")
    ensures Contains(PREPROC_OUTPUTS[i], "_file") <==> i == 0 || i == 4
  {
    var name := PREPROC_OUTPUTS[i];
    if i < 4 {
      MissingChar(name, "epi_ref", 'p');
    } else {
      MissingChar(name, "dwi", 'w');
    }
    if i == 0 {
      assert OccursAt(name, "_file", 3);
    } else if i == 4 {
      assert OccursAt(name, "_file", 7);
    } else if i == 5 {
      MissingChar(name, "_file", 'l');
    } else {
      MissingChar(name, "_file", 'f');
    }
  }

  /** The value of `suffix` in iteration `i` of the loop over the outputs. */
  function SuffixAt(i: int): Option<string>
    requires 0 <= i < |PREPROC_OUTPUTS|
  {
    CarriedSuffix(PREPROC_OUTPUTS[..i + 1])
  }

  /**
   * Every output name binds `suffix` in its own iteration: "dwi" for the four
   * DWI outputs and "sbref" for the two reference outputs.
   */
  lemma PreprocSuffixes()
    ensures forall i :: 0 <= i < |PREPROC_OUTPUTS| ==> SuffixAt(i) == Some(if i < 4 then "dwi" else "sbref")
  {
    forall i | 0 <= i < |PREPROC_OUTPUTS|
      ensures SuffixAt(i) == Some(if i < 4 then "dwi" else "sbref")
    {
      assert PREPROC_OUTPUTS[..i + 1][..i] == PREPROC_OUTPUTS[..i];
      PreprocOutputName(i);
    }
  }

  /** The sink of one preprocessed output. */
  function PreprocSink(orig: string, suffix: string, base: string, source: string): Sink
  {
    Sink("ds_" + orig, map["base_directory" := Str(base), "space" := Str("dwi"), "desc" := Str("preproc"),
                           "suffix" := Str(suffix), "compress" := Bool(Contains(orig, "_file")),
                           "source_file" := Str(source)])
  }

  /** The six sinks of the preprocessed outputs, each with the suffix its iteration bound. */
  function PreprocSinks(base: string, source: string): (r: seq<Sink>)
    ensures |r| == |PREPROC_OUTPUTS|
  {
    PreprocSuffixes();
    seq(|PREPROC_OUTPUTS|, i requires 0 <= i < |PREPROC_OUTPUTS| =>
      PreprocSink(PREPROC_OUTPUTS[i], SuffixAt(i).value, base, source))
  }

  /**
   * The sink rule: `ds_<name>`; suffix "dwi" exactly for names containing
   * "dwi", "sbref" exactly for the others, which contain "epi_ref"; `compress`
   * exactly for names containing "_file".
   */
  lemma PreprocSinkRule(base: string, source: string, i: int)
    requires 0 <= i < |PREPROC_OUTPUTS|
    ensures PreprocSinks(base, source)[i].name == "ds_" + PREPROC_OUTPUTS[i]
    ensures PreprocSinks(base, source)[i].inputs["suffix"] == Str("dwi") <==> Contains(PREPROC_OUTPUTS[i], "dwi")
    ensures PreprocSinks(base, source)[i].inputs["suffix"] == Str("sbref") <==> Contains(PREPROC_OUTPUTS[i], "epi_ref")
    ensures PreprocSinks(base, source)[i].inputs["compress"] == Bool(Contains(PREPROC_OUTPUTS[i], "_file"))
    ensures PreprocSinks(base, source)[i].inputs["compress"] == Bool(true) <==> i == 0 || i == 4
  {
    PreprocSuffixes();
    PreprocOutputName(i);
  }

  /** The native-space sink of one tensor metric. */
  function MetricSink(metric: string, base: string, source: string): Sink
  {
    Sink("ds_" + metric, map["base_directory" := Str(base), "space" := Str("dwi"), "suffix" := Str(metric),
                             "datatype" := Str("tensor"), "extension" := Str("nii.gz"), "source_file" := Str(source)])
  }

  function MetricSinks(metrics: seq<string>, base: string, source: string): (r: seq<Sink>)
    ensures |r| == |metrics|
  {
    seq(|metrics|, i requires 0 <= i < |metrics| => MetricSink(metrics[i], base, source))
  }

  /** The sink of one affine; `from` is set on its inputs after construction. */
  function AffineSink(output: string, origin: string, target: string, base: string, source: string): Sink
  {
    Sink("ds_" + output, map["base_directory" := Str(base), "dismiss_entities" := List(["direction"]),
                             "suffix" := Str("xfm"), "mode" := Str("image"), "extension" := Str("txt"),
                             "to" := Str(target), "source_file" := Str(source), "from" := Str(origin)])
  }

  function AffineSinks(base: string, source: string): (r: seq<Sink>)
    ensures |r| == |AFFINES|
  {
    seq(|AFFINES|, i requires 0 <= i < |AFFINES| => AffineSink(AFFINES[i].0, AFFINES[i].1, AFFINES[i].2, base, source))
  }

  /** The T1w-space reference sink and the T1w-space series sink. */
  function EpiRefToT1wSink(base: string, source: string): Sink
  {
    Sink("ds_epi_ref_to_T1w", map["base_directory" := Str(base), "suffix" := Str("sbref"), "space" := Str("T1w"),
                                  "extension" := Str("nii.gz"), "desc" := Str("preproc"), "source_file" := Str(source)])
  }

  function TransformedDwiSink(base: string, source: string): Sink
  {
    Sink("ds_transformed_dwi", map["base_directory" := Str(base), "space" := Str("T1w"), "desc" := Str("preproc"),
                                   "suffix" := Str("dwi"), "compress" := Bool(true), "source_file" := Str(source)])
  }

  /** The T1w-space sink of one metric, under the name the source spells `ds_tranformed_<metric>`. */
  function TransformedMetricSink(metric: string, base: string, source: string): Sink
  {
    Sink("ds_tranformed_" + metric, map["base_directory" := Str(base), "space" := Str("T1w"), "suffix" := Str(metric),
                                        "datatype" := Str("tensor"), "extension" := Str("nii.gz"),
                                        "compress" := Bool(true), "source_file" := Str(source)])
  }

  function TransformedMetricSinks(metrics: seq<string>, base: string, source: string): (r: seq<Sink>)
    ensures |r| == |metrics|
  {
    seq(|metrics|, i requires 0 <= i < |metrics| => TransformedMetricSink(metrics[i], base, source))
  }

  /** Every sink the builder creates, in creation order. */
  function DwiPreprocSinks(metrics: seq<string>, base: string, source: string): seq<Sink>
  {
    (PreprocSinks(base, source) + MetricSinks(metrics, base, source))
    + ((AffineSinks(base, source) + [EpiRefToT1wSink(base, source)])
       + ([TransformedDwiSink(base, source)] + TransformedMetricSinks(metrics, base, source)))
  }

  /** The two affine sinks are mirror images: each maps from where the other maps to, and both drop "direction". */
  lemma AffineMirror(base: string, source: string)
    ensures AffineSinks(base, source)[0].name == "ds_epi_to_t1w_aff" && AffineSinks(base, source)[1].name == "ds_t1w_to_epi_aff"
    ensures AffineSinks(base, source)[0].inputs["from"] == AffineSinks(base, source)[1].inputs["to"] == Str("epi")
    ensures AffineSinks(base, source)[1].inputs["from"] == AffineSinks(base, source)[0].inputs["to"] == Str("T1w")
    ensures forall i :: 0 <= i < 2 ==> AffineSinks(base, source)[i].inputs["dismiss_entities"] == List(["direction"])
  {
  }

  /** Each metric has a native-space sink and a T1w-space sink named after it, both with the metric as suffix. */
  lemma MetricSinkPair(metrics: seq<string>, base: string, source: string, i: int)
    requires 0 <= i < |metrics|
    ensures MetricSinks(metrics, base, source)[i].name == "ds_" + metrics[i]
    ensures TransformedMetricSinks(metrics, base, source)[i].name == "ds_tranformed_" + metrics[i]
    ensures MetricSinks(metrics, base, source)[i].inputs["space"] == Str("dwi")
    ensures TransformedMetricSinks(metrics, base, source)[i].inputs["space"] == Str("T1w")
    ensures MetricSinks(metrics, base, source)[i].inputs["suffix"] == TransformedMetricSinks(metrics, base, source)[i].inputs["suffix"] == Str(metrics[i])
  {
  }

  // The edges, by stage, in connection order.

  /** The eight conversion inputs, fed from the input node's fields. */
  const CONVERSION_PORTS: seq<(string, string)> :=
    [("dwi_file", "inputnode.dwi_file"), ("in_bvec", "inputnode.in_bvec"), ("in_bval", "inputnode.in_bval"),
     ("in_json", "inputnode.dwi_json"), ("fmap_ap", "inputnode.fmap_ap"), ("fmap_ap_json", "inputnode.fmap_ap_json"),
     ("fmap_pa", "inputnode.fmap_pa"), ("fmap_pa_json", "inputnode.fmap_pa_json")]

  /** The converted series into the EPI reference workflow. */
  const EPI_REF_FEED := Edge(CONVERSION, "outputnode.dwi_file", EPI_REF, "inputnode.dwi_file")

  /** Preprocessing takes the converted series and the stacked fieldmaps; its result feeds the cloned reference and the NIfTI conversion. */
  function PreprocessEdges(): seq<Edge>
  {
    [Edge(CONVERSION, "outputnode.dwi_file", PREPROCESS, "inputnode.dwi_file"),
     Edge(PHASEDIFF, "outputnode.merged_phasediff", PREPROCESS, "inputnode.merged_phasediff"),
     Edge(PREPROCESS, "outputnode.dwi_preproc", PREPROC_EPI_REF, "inputnode.dwi_file"),
     Edge(PREPROCESS, "outputnode.dwi_preproc", NII_CONVERSION, "inputnode.dwi_file"),
     Edge(PREPROC_EPI_REF, "outputnode.epi_ref_file", NII_CONVERSION, "inputnode.epi_ref")]
  }

  /** One edge per name: `src.outputnode.<name> -> <prefix><name>.in_file`. */
  function SinkEdges(src: string, names: seq<string>, prefix: string): (r: seq<Edge>)
    ensures |r| == |names|
    ensures forall i :: 0 <= i < |r| ==> r[i].dstNode == prefix + names[i] && r[i].dstPort == "in_file"
  {
    seq(|names|, i requires 0 <= i < |names| => Edge(src, "outputnode." + names[i], prefix + names[i], "in_file"))
  }

  const TENSOR_FEED := Edge(PREPROCESS, "outputnode.dwi_preproc", TENSOR, "inputnode.dwi_file")

  /** The registration takes the T1w head, the masked T1w brain and the EPI reference. */
  function CoregEdges(inputnode: string): seq<Edge>
  {
    [Edge(inputnode, "t1w_preproc", EPI_REG, "inputnode.t1w_head"),
     Edge(inputnode, "t1w_preproc", T1W_BRAIN, "in_file"),
     Edge(inputnode, "t1w_mask", T1W_BRAIN, "in_mask"),
     Edge(T1W_BRAIN, "out_file", EPI_REG, "inputnode.t1w_brain"),
     Edge(NII_CONVERSION, "outputnode.epi_ref_file", EPI_REG, "inputnode.in_file")]
  }

  const EPI_REF_TO_T1W_FEED := Edge(EPI_REG, "outputnode.epi_to_t1w", "ds_epi_ref_to_T1w", "in_file")

  /** The resampling takes the NIfTI series, the EPI-to-T1w affine and the T1w brain. */
  function ApplyFeeds(): seq<Edge>
  {
    [Edge(NII_CONVERSION, "outputnode.dwi_file", APPLY, "inputnode.dwi_file"),
     Edge(EPI_REG, "outputnode.epi_to_t1w_aff", APPLY, "inputnode.epi_to_t1w_aff"),
     Edge(T1W_BRAIN, "out_file", APPLY, "inputnode.t1w_brain")]
  }

  const TRANSFORMED_DWI_FEED := Edge(APPLY, "outputnode.dwi_file", "ds_transformed_dwi", "in_file")

  /** Per metric: the native map into the resampling, and the resampled map into its T1w-space sink. */
  function TransformedEdges(metrics: seq<string>): (r: seq<Edge>)
    ensures |r| == 2 * |metrics|
  {
    if metrics == [] then []
    else
      var m := metrics[|metrics| - 1];
      TransformedEdges(metrics[..|metrics| - 1])
      + [Edge(TENSOR, "outputnode." + m, APPLY, "inputnode." + m), Edge(APPLY, "outputnode." + m, "ds_tranformed_" + m, "in_file")]
  }

  /** Conversion, reference, fieldmaps and preprocessing. */
  function FrontEdges(inputnode: string, fmap: seq<Edge>): seq<Edge>
  {
    Connections(inputnode, CONVERSION, CONVERSION_PORTS) + [EPI_REF_FEED] + fmap + PreprocessEdges()
  }

  /** The native-space sinks and the tensor workflow. */
  function NativeEdges(metrics: seq<string>): seq<Edge>
  {
    SinkEdges(NII_CONVERSION, PREPROC_OUTPUTS, "ds_") + [TENSOR_FEED] + SinkEdges(TENSOR, metrics, "ds_")
  }

  /** The registration, its affine sinks and the T1w-space reference sink. */
  function RegistrationEdges(inputnode: string): seq<Edge>
  {
    CoregEdges(inputnode) + SinkEdges(EPI_REG, AffineOutputs(), "ds_") + [EPI_REF_TO_T1W_FEED]
  }

  /** The resampling into T1w space and its sinks. */
  function ResamplingEdges(metrics: seq<string>): seq<Edge>
  {
    ApplyFeeds() + [TRANSFORMED_DWI_FEED] + TransformedEdges(metrics)
  }

  /** Every edge of the workflow, in connection order, given the fieldmap edges and the metric list. */
  function DwiPreprocEdges(inputnode: string, fmap: seq<Edge>, metrics: seq<string>): seq<Edge>
  {
    (FrontEdges(inputnode, fmap) + NativeEdges(metrics)) + (RegistrationEdges(inputnode) + ResamplingEdges(metrics))
  }

  function AffineOutputs(): (r: seq<string>)
    ensures |r| == |AFFINES|
  {
    seq(|AFFINES|, i requires 0 <= i < |AFFINES| => AFFINES[i].0)
  }

  /** The fieldmap edges `add_fieldmaps_to_wf` returns for the run's input node. */
  function FieldmapEntry(fields: seq<string>, inputs: map<string, Value>): Result<seq<Edge>>
  {
    FmapPrep.AddFieldmaps(FmapPrep.AttrOf(fields, inputs, "fmap_ap"), FmapPrep.AttrOf(fields, inputs, "fmap_pa"),
                          CONVERSION, EPI_REF, PHASEDIFF)
  }

  /** The suffix of iteration `i` is computed from the one carried out of iteration `i - 1`. */
  lemma SuffixStep(i: int)
    requires 0 <= i < |PREPROC_OUTPUTS|
    ensures SuffixAt(i) == SinkSuffix(PREPROC_OUTPUTS[i], CarriedSuffix(PREPROC_OUTPUTS[..i]))
    ensures SuffixAt(i) == CarriedSuffix(PREPROC_OUTPUTS[..i + 1])
  {
    assert PREPROC_OUTPUTS[..i + 1][..i] == PREPROC_OUTPUTS[..i];
  }

  /** One more name adds its one sink edge at the end. */
  lemma SinkEdgesStep(src: string, names: seq<string>, prefix: string, i: int)
    requires 0 <= i < |names|
    ensures SinkEdges(src, names[..i + 1], prefix) == SinkEdges(src, names[..i], prefix) + [SinkEdges(src, names, prefix)[i]]
  {
    assert names[..i + 1][..i] == names[..i];
  }

  /** One iteration of the loop over the preprocessed outputs: bind the suffix, create the sink, connect it. */
  method AddPreprocSink(wf: Workflow, i: int, suffix: Option<string>, base: string, source: string)
    returns (next: Option<string>, dsink: Sink)
    requires 0 <= i < |PREPROC_OUTPUTS| && suffix == CarriedSuffix(PREPROC_OUTPUTS[..i])
    modifies wf
    ensures next == CarriedSuffix(PREPROC_OUTPUTS[..i + 1])
    ensures dsink == PreprocSinks(base, source)[i]
    ensures wf.edges == old(wf.edges) + [SinkEdges(NII_CONVERSION, PREPROC_OUTPUTS, "ds_")[i]]
    ensures wf.name == old(wf.name) && wf.baseDir == old(wf.baseDir)
  {
    var orig := PREPROC_OUTPUTS[i];
    SuffixStep(i);
    PreprocSuffixes();
    next := SinkSuffix(orig, suffix);
    dsink := PreprocSink(orig, next.value, base, source);
    wf.Connect(NII_CONVERSION, dsink.name, [("outputnode." + orig, "in_file")]);
  }

  /** The loop over the preprocessed outputs: one sink per output, fed from the NIfTI conversion. */
  method AddPreprocSinks(wf: Workflow, base: string, source: string) returns (sinks: seq<Sink>)
    modifies wf
    ensures wf.edges == old(wf.edges) + SinkEdges(NII_CONVERSION, PREPROC_OUTPUTS, "ds_")
    ensures wf.name == old(wf.name) && wf.baseDir == old(wf.baseDir)
    ensures sinks == PreprocSinks(base, source)
  {
    sinks := [];
    var suffix: Option<string> := None;
    ghost var all := PreprocSinks(base, source);
    for i := 0 to |PREPROC_OUTPUTS|
      invariant wf.edges == old(wf.edges) + SinkEdges(NII_CONVERSION, PREPROC_OUTPUTS[..i], "ds_")
      invariant wf.name == old(wf.name) && wf.baseDir == old(wf.baseDir)
      invariant sinks == all[..i]
      invariant suffix == CarriedSuffix(PREPROC_OUTPUTS[..i])
    {
      var dsink;
      suffix, dsink := AddPreprocSink(wf, i, suffix, base, source);
      sinks := sinks + [dsink];
      SinkEdgesStep(NII_CONVERSION, PREPROC_OUTPUTS, "ds_", i);
      assert all[..i + 1] == all[..i] + [all[i]];
    }
    assert PREPROC_OUTPUTS[..|PREPROC_OUTPUTS|] == PREPROC_OUTPUTS;
    assert all[..|all|] == all;
  }

  /** The loop over the metrics: one native-space sink per metric, fed from the tensor workflow. */
  method AddMetricSinks(wf: Workflow, metrics: FieldList, base: string, source: string) returns (sinks: seq<Sink>)
    modifies wf
    ensures wf.edges == old(wf.edges) + SinkEdges(TENSOR, metrics.items, "ds_")
    ensures wf.name == old(wf.name) && wf.baseDir == old(wf.baseDir)
    ensures sinks == MetricSinks(metrics.items, base, source)
  {
    sinks := [];
    var names := metrics.items;
    for i := 0 to |names|
      invariant wf.edges == old(wf.edges) + SinkEdges(TENSOR, names[..i], "ds_")
      invariant wf.name == old(wf.name) && wf.baseDir == old(wf.baseDir)
      invariant sinks == MetricSinks(names[..i], base, source)
    {
      var metric := names[i];
      var dsink := MetricSink(metric, base, source);
      sinks := sinks + [dsink];
      wf.Connect(TENSOR, dsink.name, [("outputnode." + metric, "in_file")]);
      SinkEdgesStep(TENSOR, names, "ds_", i);
    }
    assert names[..|names|] == names;
  }

  /** The loop over the two affines: one sink each, `from` set after construction, fed from the registration. */
  method AddAffineSinks(wf: Workflow, base: string, source: string) returns (sinks: seq<Sink>)
    modifies wf
    ensures wf.edges == old(wf.edges) + SinkEdges(EPI_REG, AffineOutputs(), "ds_")
    ensures wf.name == old(wf.name) && wf.baseDir == old(wf.baseDir)
    ensures sinks == AffineSinks(base, source)
  {
    sinks := [];
    for i := 0 to |AFFINES|
      invariant wf.edges == old(wf.edges) + SinkEdges(EPI_REG, AffineOutputs()[..i], "ds_")
      invariant wf.name == old(wf.name) && wf.baseDir == old(wf.baseDir)
      invariant sinks == AffineSinks(base, source)[..i]
    {
      var (output, origin, target) := AFFINES[i];
      var dsink := Sink("ds_" + output, map["base_directory" := Str(base), "dismiss_entities" := List(["direction"]),
                                            "suffix" := Str("xfm"), "mode" := Str("image"), "extension" := Str("txt"),
                                            "to" := Str(target), "source_file" := Str(source)]);
      dsink := dsink.(inputs := dsink.inputs["from" := Str(origin)]);
      assert dsink == AffineSink(output, origin, target, base, source);
      sinks := sinks + [dsink];
      wf.Connect(EPI_REG, dsink.name, [("outputnode." + output, "in_file")]);
      SinkEdgesStep(EPI_REG, AffineOutputs(), "ds_", i);
      assert AffineSinks(base, source)[..i + 1] == AffineSinks(base, source)[..i] + [AffineSinks(base, source)[i]];
    }
    assert AffineOutputs()[..|AFFINES|] == AffineOutputs();
  }

  /** The last loop: per metric, the native map into the resampling and the resampled map into its T1w-space sink. */
  method AddTransformedMetrics(wf: Workflow, metrics: FieldList, base: string, source: string) returns (sinks: seq<Sink>)
    modifies wf
    ensures wf.edges == old(wf.edges) + TransformedEdges(metrics.items)
    ensures wf.name == old(wf.name) && wf.baseDir == old(wf.baseDir)
    ensures sinks == TransformedMetricSinks(metrics.items, base, source)
  {
    sinks := [];
    var names := metrics.items;
    for i := 0 to |names|
      invariant wf.edges == old(wf.edges) + TransformedEdges(names[..i])
      invariant wf.name == old(wf.name) && wf.baseDir == old(wf.baseDir)
      invariant sinks == TransformedMetricSinks(names[..i], base, source)
    {
      var metric := names[i];
      var dsink := TransformedMetricSink(metric, base, source);
      sinks := sinks + [dsink];
      wf.ConnectAll([Edge(TENSOR, "outputnode." + metric, APPLY, "inputnode." + metric),
                     Edge(APPLY, "outputnode." + metric, dsink.name, "in_file")]);
      assert names[..i + 1][..i] == names[..i];
    }
    assert names[..|names|] == names;
  }

  /** Lines 128-218: conversion, EPI reference, fieldmap entry, preprocessing, cloned reference, NIfTI conversion. */
  method WireFront(wf: Workflow, inputnode: string, fmap: seq<Edge>)
    modifies wf
    ensures wf.edges == old(wf.edges) + FrontEdges(inputnode, fmap)
    ensures wf.name == old(wf.name) && wf.baseDir == old(wf.baseDir)
  {
    wf.Connect(inputnode, CONVERSION, CONVERSION_PORTS);
    wf.ConnectAll([EPI_REF_FEED]);
    var phasediffWf := FmapPrep.InitPhasediffWf(PHASEDIFF);
    wf.ConnectAll(fmap);
    wf.ConnectAll(PreprocessEdges());
  }

  /** Lines 220-287: the native-space sinks, the tensor workflow and its metric list. */
  method WireNative(wf: Workflow, base: string, source: string) returns (metrics: FieldList, sinks: seq<Sink>)
    modifies wf
    ensures fresh(metrics) && metrics.items == TensorEstimation.OUT_FIELDS
    ensures wf.edges == old(wf.edges) + NativeEdges(TensorEstimation.OUT_FIELDS)
    ensures wf.name == old(wf.name) && wf.baseDir == old(wf.baseDir)
    ensures sinks == PreprocSinks(base, source) + MetricSinks(TensorEstimation.OUT_FIELDS, base, source)
  {
    var preprocSinks := AddPreprocSinks(wf, base, source);
    var tensorWf;
    tensorWf, metrics := TensorEstimation.InitTensorWf(TENSOR);
    wf.ConnectAll([TENSOR_FEED]);
    var metricSinks := AddMetricSinks(wf, metrics, base, source);
    sinks := preprocSinks + metricSinks;
  }

  /** Lines 288-351: the masked T1w, the registration, the affine sinks and the T1w-space reference sink. */
  method WireRegistration(wf: Workflow, inputnode: string, base: string, source: string) returns (sinks: seq<Sink>)
    modifies wf
    ensures wf.edges == old(wf.edges) + RegistrationEdges(inputnode)
    ensures wf.name == old(wf.name) && wf.baseDir == old(wf.baseDir)
    ensures sinks == AffineSinks(base, source) + [EpiRefToT1wSink(base, source)]
  {
    var epiRegWf := Coregister.InitEpiregWf(EPI_REG);
    wf.ConnectAll(CoregEdges(inputnode));
    var affineSinks := AddAffineSinks(wf, base, source);
    wf.ConnectAll([EPI_REF_TO_T1W_FEED]);
    sinks := affineSinks + [EpiRefToT1wSink(base, source)];
  }

  /**
   * Lines 352-413: the resampling workflow is built from a copy of the metric
   * list, so the caller's list keeps its nine metrics and the last loop runs
   * over exactly those.
   */
  method WireResampling(wf: Workflow, metrics: FieldList, base: string, source: string) returns (sinks: seq<Sink>)
    modifies wf
    ensures metrics.items == old(metrics.items)
    ensures wf.edges == old(wf.edges) + ResamplingEdges(metrics.items)
    ensures wf.name == old(wf.name) && wf.baseDir == old(wf.baseDir)
    ensures sinks == [TransformedDwiSink(base, source)] + TransformedMetricSinks(metrics.items, base, source)
  {
    var copy := metrics.Copy();
    var applyWf, applyInputnode, applyOutputnode := ApplyTransform.InitApplyTransform(copy, APPLY);
    wf.ConnectAll(ApplyFeeds());
    wf.ConnectAll([TRANSFORMED_DWI_FEED]);
    var transformedSinks := AddTransformedMetrics(wf, metrics, base, source);
    sinks := [TransformedDwiSink(base, source)] + transformedSinks;
  }

  /** Lines 128-287: up to the native-space sinks. */
  method WireNativeHalf(wf: Workflow, inputnode: string, fmap: seq<Edge>, base: string, source: string)
    returns (metrics: FieldList, sinks: seq<Sink>)
    modifies wf
    ensures fresh(metrics) && metrics.items == TensorEstimation.OUT_FIELDS
    ensures wf.edges == old(wf.edges) + (FrontEdges(inputnode, fmap) + NativeEdges(TensorEstimation.OUT_FIELDS))
    ensures wf.name == old(wf.name) && wf.baseDir == old(wf.baseDir)
    ensures sinks == PreprocSinks(base, source) + MetricSinks(TensorEstimation.OUT_FIELDS, base, source)
  {
    WireFront(wf, inputnode, fmap);
    metrics, sinks := WireNative(wf, base, source);
  }

  /** Lines 288-413: from the registration on. */
  method WireT1wHalf(wf: Workflow, inputnode: string, metrics: FieldList, base: string, source: string)
    returns (sinks: seq<Sink>)
    modifies wf
    ensures metrics.items == old(metrics.items)
    ensures wf.edges == old(wf.edges) + (RegistrationEdges(inputnode) + ResamplingEdges(metrics.items))
    ensures wf.name == old(wf.name) && wf.baseDir == old(wf.baseDir)
    ensures sinks == (AffineSinks(base, source) + [EpiRefToT1wSink(base, source)])
                     + ([TransformedDwiSink(base, source)] + TransformedMetricSinks(metrics.items, base, source))
  {
    var registrationSinks := WireRegistration(wf, inputnode, base, source);
    var resamplingSinks := WireResampling(wf, metrics, base, source);
    sinks := registrationSinks + resamplingSinks;
  }

  /** Lines 128-413: every stage in turn. */
  method WireRun(wf: Workflow, inputnode: string, fmap: seq<Edge>, base: string, source: string) returns (sinks: seq<Sink>)
    modifies wf
    ensures wf.edges == old(wf.edges) + DwiPreprocEdges(inputnode, fmap, TensorEstimation.OUT_FIELDS)
    ensures wf.name == old(wf.name) && wf.baseDir == old(wf.baseDir)
    ensures sinks == DwiPreprocSinks(TensorEstimation.OUT_FIELDS, base, source)
  {
    var metrics, nativeSinks := WireNativeHalf(wf, inputnode, fmap, base, source);
    var t1wSinks := WireT1wHalf(wf, inputnode, metrics, base, source);
    sinks := nativeSinks + t1wSinks;
  }

  /**
   * `init_dwi_preproc_wf(dwi_file, inputnode, output_dir, work_dir)` run from
   * working directory `cwd`: the workflow named after the DWI file, with
   * `work_dir` as its base directory, every edge in connection order, and the
   * sinks it created. `Path(None)` raises TypeError when no output directory
   * is given; `add_fieldmaps_to_wf` raises NotImplementedError when the input
   * node carries neither fieldmap.
   */
  method InitDwiPreprocWf(dwiFile: string, inputnode: InputNode, outputDir: Option<string>, workDir: Option<string>, cwd: string)
    returns (r: Result<Workflow>, sinks: seq<Sink>)
    ensures outputDir.None? ==> r == Err(TypeError(PATH_OF_NONE)) && sinks == []
    ensures outputDir.Some? ==> (r.Err? <==> FieldmapEntry(inputnode.fields, inputnode.inputs).Err?)
    ensures outputDir.Some? && r.Err? ==> r.error == NotImplementedError && sinks == []
    ensures r.Ok? ==> fresh(r.value) && r.value.name == WfName(Name(dwiFile)) && r.value.baseDir == workDir
    ensures r.Ok? ==> r.value.edges == DwiPreprocEdges(inputnode.name, FieldmapEntry(inputnode.fields, inputnode.inputs).value, TensorEstimation.OUT_FIELDS)
    ensures r.Ok? ==> sinks == DwiPreprocSinks(TensorEstimation.OUT_FIELDS, Normal(outputDir.value), Absolute(cwd, dwiFile))
  {
    sinks := [];
    if outputDir.None? {
      return Err(TypeError(PATH_OF_NONE)), [];
    }
    var base := Normal(outputDir.value);
    var source := Absolute(cwd, dwiFile);
    var workflow := new Workflow(WfName(Name(dwiFile)));
    workflow.baseDir := workDir;
    var entry := FieldmapEntry(inputnode.fields, inputnode.inputs);
    if entry.Err? {
      return Err(entry.error), [];
    }
    sinks := WireRun(workflow, inputnode.name, entry.value, base, source);
    r := Ok(workflow);
  }

  // Who feeds the stages of the run.

  /** The three stages whose single feeding edge the wiring fixes: the EPI reference, preprocessing and the tensor fit. */
  predicate FedStage(node: string)
  {
    node == EPI_REF || node == PREPROCESS || node == TENSOR
  }

  /** Sinks are named `ds_...`, which no stage's name starts like. */
  lemma SinkEdgesAvoid(src: string, names: seq<string>, node: string)
    requires FedStage(node)
    ensures Avoids(SinkEdges(src, names, "ds_"), node)
  {
    forall i | 0 <= i < |names|
      ensures SinkEdges(src, names, "ds_")[i].dstNode != node
    {
      assert SinkEdges(src, names, "ds_")[i].dstNode[0] == 'd';
    }
  }

  /** The last loop only feeds the resampling and the T1w-space sinks. */
  lemma {:induction false} TransformedEdgesAvoid(metrics: seq<string>, node: string)
    requires FedStage(node)
    ensures Avoids(TransformedEdges(metrics), node)
    decreases |metrics|
  {
    if metrics != [] {
      var m := metrics[|metrics| - 1];
      TransformedEdgesAvoid(metrics[..|metrics| - 1], node);
      assert ("ds_tranformed_" + m)[0] == 'd';
    }
  }

  /** In the first stage group, a stage is fed by the EPI-reference feed or by the preprocessing edges only. */
  lemma FrontInto(inputnode: string, fmap: seq<Edge>, node: string, port: string)
    requires FedStage(node) && Avoids(fmap, node)
    ensures Into(FrontEdges(inputnode, fmap), node, port) == Into([EPI_REF_FEED], node, port) + Into(PreprocessEdges(), node, port)
  {
    var conv := Connections(inputnode, CONVERSION, CONVERSION_PORTS);
    IntoAppend(conv + [EPI_REF_FEED] + fmap, PreprocessEdges(), node, port);
    IntoAppend(conv + [EPI_REF_FEED], fmap, node, port);
    IntoAppend(conv, [EPI_REF_FEED], node, port);
    IntoNone(conv, node, port);
    IntoNone(fmap, node, port);
  }

  /** In the native-space group, only the tensor feed ends in a stage. */
  lemma NativeInto(metrics: seq<string>, node: string, port: string)
    requires FedStage(node)
    ensures Into(NativeEdges(metrics), node, port) == Into([TENSOR_FEED], node, port)
  {
    var outs := SinkEdges(NII_CONVERSION, PREPROC_OUTPUTS, "ds_");
    var maps := SinkEdges(TENSOR, metrics, "ds_");
    IntoAppend(outs + [TENSOR_FEED], maps, node, port);
    IntoAppend(outs, [TENSOR_FEED], node, port);
    SinkEdgesAvoid(NII_CONVERSION, PREPROC_OUTPUTS, node);
    SinkEdgesAvoid(TENSOR, metrics, node);
    IntoNone(outs, node, port);
    IntoNone(maps, node, port);
  }

  /** Registration and resampling feed no stage. */
  lemma T1wInto(inputnode: string, metrics: seq<string>, node: string, port: string)
    requires FedStage(node)
    ensures Into(RegistrationEdges(inputnode) + ResamplingEdges(metrics), node, port) == []
  {
    var coreg := CoregEdges(inputnode);
    var affines := SinkEdges(EPI_REG, AffineOutputs(), "ds_");
    var last := TransformedEdges(metrics);
    IntoAppend(RegistrationEdges(inputnode), ResamplingEdges(metrics), node, port);
    IntoAppend(coreg + affines, [EPI_REF_TO_T1W_FEED], node, port);
    IntoAppend(coreg, affines, node, port);
    IntoAppend(ApplyFeeds() + [TRANSFORMED_DWI_FEED], last, node, port);
    IntoAppend(ApplyFeeds(), [TRANSFORMED_DWI_FEED], node, port);
    SinkEdgesAvoid(EPI_REG, AffineOutputs(), node);
    TransformedEdgesAvoid(metrics, node);
    IntoNone(coreg, node, port);
    IntoNone(affines, node, port);
    IntoNone([EPI_REF_TO_T1W_FEED], node, port);
    IntoNone(ApplyFeeds(), node, port);
    IntoNone([TRANSFORMED_DWI_FEED], node, port);
    IntoNone(last, node, port);
  }

  /** Across the whole run, a stage is fed only by the reference feed, the preprocessing edges and the tensor feed. */
  lemma StageInto(inputnode: string, fmap: seq<Edge>, metrics: seq<string>, node: string, port: string)
    requires FedStage(node) && Avoids(fmap, node)
    ensures Into(DwiPreprocEdges(inputnode, fmap, metrics), node, port)
      == Into([EPI_REF_FEED], node, port) + Into(PreprocessEdges(), node, port) + Into([TENSOR_FEED], node, port)
  {
    IntoAppend(FrontEdges(inputnode, fmap) + NativeEdges(metrics), RegistrationEdges(inputnode) + ResamplingEdges(metrics), node, port);
    IntoAppend(FrontEdges(inputnode, fmap), NativeEdges(metrics), node, port);
    FrontInto(inputnode, fmap, node, port);
    NativeInto(metrics, node, port);
    T1wInto(inputnode, metrics, node, port);
  }

  /** The converted series is the EPI reference's only input, and the tensor fit reads only the preprocessed series. */
  lemma ReferenceAndTensorInputs(inputnode: string, fmap: seq<Edge>, metrics: seq<string>)
    requires forall i :: 0 <= i < |fmap| ==> fmap[i].dstNode == PHASEDIFF
    ensures Into(DwiPreprocEdges(inputnode, fmap, metrics), EPI_REF, "inputnode.dwi_file")
      == [Edge(CONVERSION, "outputnode.dwi_file", EPI_REF, "inputnode.dwi_file")]
    ensures Into(DwiPreprocEdges(inputnode, fmap, metrics), TENSOR, "inputnode.dwi_file")
      == [Edge(PREPROCESS, "outputnode.dwi_preproc", TENSOR, "inputnode.dwi_file")]
  {
    StageInto(inputnode, fmap, metrics, EPI_REF, "inputnode.dwi_file");
    IntoNone(PreprocessEdges(), EPI_REF, "inputnode.dwi_file");
    IntoNone([TENSOR_FEED], EPI_REF, "inputnode.dwi_file");
    StageInto(inputnode, fmap, metrics, TENSOR, "inputnode.dwi_file");
    IntoNone([EPI_REF_FEED], TENSOR, "inputnode.dwi_file");
    IntoNone(PreprocessEdges(), TENSOR, "inputnode.dwi_file");
    IntoOnce([TENSOR_FEED], TENSOR, "inputnode.dwi_file", 0);
  }

  /** Preprocessing takes the converted series and the stacked fieldmaps of the phasediff workflow, each from that one edge. */
  lemma PreprocessInputs(inputnode: string, fmap: seq<Edge>, metrics: seq<string>)
    requires forall i :: 0 <= i < |fmap| ==> fmap[i].dstNode == PHASEDIFF
    ensures Into(DwiPreprocEdges(inputnode, fmap, metrics), PREPROCESS, "inputnode.dwi_file")
      == [Edge(CONVERSION, "outputnode.dwi_file", PREPROCESS, "inputnode.dwi_file")]
    ensures Into(DwiPreprocEdges(inputnode, fmap, metrics), PREPROCESS, "inputnode.merged_phasediff")
      == [Edge(PHASEDIFF, "outputnode.merged_phasediff", PREPROCESS, "inputnode.merged_phasediff")]
  {
    StageInto(inputnode, fmap, metrics, PREPROCESS, "inputnode.dwi_file");
    IntoNone([EPI_REF_FEED], PREPROCESS, "inputnode.dwi_file");
    IntoOnce(PreprocessEdges(), PREPROCESS, "inputnode.dwi_file", 0);
    IntoNone([TENSOR_FEED], PREPROCESS, "inputnode.dwi_file");
    StageInto(inputnode, fmap, metrics, PREPROCESS, "inputnode.merged_phasediff");
    IntoNone([EPI_REF_FEED], PREPROCESS, "inputnode.merged_phasediff");
    IntoOnce(PreprocessEdges(), PREPROCESS, "inputnode.merged_phasediff", 1);
    IntoNone([TENSOR_FEED], PREPROCESS, "inputnode.merged_phasediff");
  }
}
