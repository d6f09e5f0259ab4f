/**
 * Fieldmap preparation: the phasediff workflow that stacks the AP and PA
 * single-volume EPI images, and the decision of where each of its two inputs
 * comes from, given which fieldmaps the run's input node carries.
 */
module FmapPrep {
  import opened Py
  import opened Graph

  const INPUTNODE := "inputnode"
  const MERGE_FILES := "merge_files"
  const MRCAT := "mrcat"
  const OUTPUTNODE := "outputnode"

  /** The edges of `init_phasediff_wf`, in the order they are connected. */
  function PhasediffEdges(): (r: seq<Edge>)
    ensures |r| == 4
  {
    [Edge(INPUTNODE, "fmap_ap", MERGE_FILES, "in1"), Edge(INPUTNODE, "fmap_pa", MERGE_FILES, "in2"),
     Edge(MERGE_FILES, "out", MRCAT, "in_files"),
     Edge(MRCAT, "out_file", OUTPUTNODE, "merged_phasediff")]
  }

  /** `init_phasediff_wf(name)`: the two images merged, then stacked along the volume axis. */
  method InitPhasediffWf(name: string) returns (wf: Workflow)
    ensures fresh(wf) && wf.name == name && wf.baseDir == None
    ensures wf.edges == PhasediffEdges()
  {
    wf := new Workflow(name);
    wf.ConnectAll(PhasediffEdges());
  }

  /** The merge takes the AP image as its first input and the PA image as its second, each from one edge. */
  lemma MergeOrder()
    ensures Into(PhasediffEdges(), MERGE_FILES, "in1") == [Edge(INPUTNODE, "fmap_ap", MERGE_FILES, "in1")]
    ensures Into(PhasediffEdges(), MERGE_FILES, "in2") == [Edge(INPUTNODE, "fmap_pa", MERGE_FILES, "in2")]
  {
    IntoOnce(PhasediffEdges(), MERGE_FILES, "in1", 0);
    IntoOnce(PhasediffEdges(), MERGE_FILES, "in2", 1);
  }

  /** The concatenation takes the merged list, and the stacked image is the workflow's only output. */
  lemma StackedOutput()
    ensures Into(PhasediffEdges(), MRCAT, "in_files") == [Edge(MERGE_FILES, "out", MRCAT, "in_files")]
    ensures Into(PhasediffEdges(), OUTPUTNODE, "merged_phasediff") == [Edge(MRCAT, "out_file", OUTPUTNODE, "merged_phasediff")]
  {
    IntoOnce(PhasediffEdges(), MRCAT, "in_files", 2);
    IntoOnce(PhasediffEdges(), OUTPUTNODE, "merged_phasediff", 3);
  }

  /**
   * What `getattr(inputnode.inputs, key, None)` yields: no such attribute
   * (None), a declared field never set (nipype's `Undefined`, which is falsy
   * but not None), or the value set.
   */
  datatype Attr = Missing | Undefined | Given(v: Value)
  {
    /** `attr is None`. */
    predicate IsNone()
    {
      Missing? || (Given? && v.NoneV?)
    }

    /** `bool(attr)`. */
    predicate IsTruthy()
    {
      Given? && Truthy(v)
    }
  }

  /** The attribute `key` of an identity node with declared `fields` and the inputs set so far. */
  function AttrOf(fields: seq<string>, inputs: map<string, Value>, key: string): (a: Attr)
    ensures a.Missing? <==> key !in inputs && key !in fields
    ensures a.Given? ==> key in inputs && a.v == inputs[key]
  {
    if key in inputs then Given(inputs[key]) else if key in fields then Undefined else Missing
  }

  /**
   * `add_fieldmaps_to_wf`: the connections that feed the phasediff workflow's
   * `fmap_ap` and `fmap_pa`, from the conversion workflow's outputs of the
   * same name or, for a missing image, from the EPI reference.
   */
  function AddFieldmaps(ap: Attr, pa: Attr, conversion: string, epiRef: string, phasediff: string): (r: Result<seq<Edge>>)
    ensures r.Err? <==> ap.IsNone() && pa.IsNone()
    ensures r.Err? ==> r.error == NotImplementedError
    ensures r.Ok? ==> forall e :: e in r.value ==> e.dstNode == phasediff
  {
    if ap.IsTruthy() && pa.IsTruthy() then
      Ok([ConvertedAp(conversion, phasediff), ConvertedPa(conversion, phasediff)])
    else if !pa.IsNone() then
      Ok([ReferenceAsAp(epiRef, phasediff), ConvertedPa(conversion, phasediff)])
    else if !ap.IsNone() then
      Ok([ReferenceAsPa(epiRef, phasediff), ConvertedAp(conversion, phasediff)])
    else
      Err(NotImplementedError)
  }

  /** The phasediff slots fed from the conversion outputs of the same name. */
  function ConvertedAp(conversion: string, phasediff: string): Edge
  {
    Edge(conversion, "outputnode.fmap_ap", phasediff, "inputnode.fmap_ap")
  }

  function ConvertedPa(conversion: string, phasediff: string): Edge
  {
    Edge(conversion, "outputnode.fmap_pa", phasediff, "inputnode.fmap_pa")
  }

  /** The phasediff slots fed from the EPI reference instead. */
  function ReferenceAsAp(epiRef: string, phasediff: string): Edge
  {
    Edge(epiRef, "outputnode.epi_ref_file", phasediff, "inputnode.fmap_ap")
  }

  function ReferenceAsPa(epiRef: string, phasediff: string): Edge
  {
    Edge(epiRef, "outputnode.epi_ref_file", phasediff, "inputnode.fmap_pa")
  }

  /** Both images present: both slots come from the conversion outputs of the same name. */
  lemma BothFieldmaps(ap: Attr, pa: Attr, conversion: string, epiRef: string, phasediff: string)
    requires ap.IsTruthy() && pa.IsTruthy()
    ensures AddFieldmaps(ap, pa, conversion, epiRef, phasediff)
      == Ok([ConvertedAp(conversion, phasediff), ConvertedPa(conversion, phasediff)])
  {
  }

  /** Not both truthy and `fmap_pa` not None: AP is replaced by the EPI reference, PA converted. */
  lemma PaOnly(ap: Attr, pa: Attr, conversion: string, epiRef: string, phasediff: string)
    requires !(ap.IsTruthy() && pa.IsTruthy()) && !pa.IsNone()
    ensures AddFieldmaps(ap, pa, conversion, epiRef, phasediff)
      == Ok([ReferenceAsAp(epiRef, phasediff), ConvertedPa(conversion, phasediff)])
  {
  }

  /** `fmap_pa` None and `fmap_ap` not None: PA is replaced by the EPI reference, AP converted. */
  lemma ApOnly(ap: Attr, pa: Attr, conversion: string, epiRef: string, phasediff: string)
    requires pa.IsNone() && !ap.IsNone()
    ensures AddFieldmaps(ap, pa, conversion, epiRef, phasediff)
      == Ok([ReferenceAsPa(epiRef, phasediff), ConvertedAp(conversion, phasediff)])
  {
  }

  /** Whenever no exception is raised, each of the two phasediff slots receives exactly one edge. */
  lemma OneEdgePerSlot(ap: Attr, pa: Attr, conversion: string, epiRef: string, phasediff: string)
    requires AddFieldmaps(ap, pa, conversion, epiRef, phasediff).Ok?
    ensures |Into(AddFieldmaps(ap, pa, conversion, epiRef, phasediff).value, phasediff, "inputnode.fmap_ap")| == 1
    ensures |Into(AddFieldmaps(ap, pa, conversion, epiRef, phasediff).value, phasediff, "inputnode.fmap_pa")| == 1
  {
    var es := AddFieldmaps(ap, pa, conversion, epiRef, phasediff).value;
    if ap.IsTruthy() && pa.IsTruthy() {
      BothFieldmaps(ap, pa, conversion, epiRef, phasediff);
      IntoOnce(es, phasediff, "inputnode.fmap_ap", 0);
      IntoOnce(es, phasediff, "inputnode.fmap_pa", 1);
    } else if !pa.IsNone() {
      PaOnly(ap, pa, conversion, epiRef, phasediff);
      IntoOnce(es, phasediff, "inputnode.fmap_ap", 0);
      IntoOnce(es, phasediff, "inputnode.fmap_pa", 1);
    } else {
      ApOnly(ap, pa, conversion, epiRef, phasediff);
      IntoOnce(es, phasediff, "inputnode.fmap_ap", 1);
      IntoOnce(es, phasediff, "inputnode.fmap_pa", 0);
    }
  }

  /**
   * The first test is truthiness and the later ones are `is not None`: with
   * `fmap_ap` set and `fmap_pa` a declared but unset (falsy, not None) field,
   * the AP slot is fed from the EPI reference, not from the AP image.
   */
  lemma UndefinedPaOverridesAp(apValue: Value, conversion: string, epiRef: string, phasediff: string)
    requires Truthy(apValue)
    ensures Into(AddFieldmaps(Given(apValue), Undefined, conversion, epiRef, phasediff).value, phasediff, "inputnode.fmap_ap")
      == [ReferenceAsAp(epiRef, phasediff)]
  {
    PaOnly(Given(apValue), Undefined, conversion, epiRef, phasediff);
    var es := [ReferenceAsAp(epiRef, phasediff), ConvertedPa(conversion, phasediff)];
    IntoOnce(es, phasediff, "inputnode.fmap_ap", 0);
  }
}
