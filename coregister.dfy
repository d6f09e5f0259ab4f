/**
 * Coregistration (coregister.py): the `epi_reg` workflow that registers the
 * EPI reference to the T1w image and inverts the affine, and an earlier
 * apply-transform builder that wires every field of the extended list,
 * including the affine and the reference themselves, and returns nothing.
 */
module Coregister {
  import opened Py
  import opened Graph
  import ApplyTransform

  const INPUTNODE := "inputnode"
  const OUTPUTNODE := "outputnode"
  const EPI_REG := "epi_reg"
  const INVERT_XFM := "invert_xfm"

  /** The edges of `init_epireg_wf`, in the order of its single `connect`. */
  function EpiRegEdges(): (r: seq<Edge>)
    ensures |r| == 7
  {
    [Edge(INPUTNODE, "t1w_brain", EPI_REG, "t1_brain"),
     Edge(INPUTNODE, "t1w_head", EPI_REG, "t1_head"),
     Edge(INPUTNODE, "in_file", EPI_REG, "epi"),
     Edge(EPI_REG, "epi2str_mat", INVERT_XFM, "in_file"),
     Edge(EPI_REG, "epi2str_mat", OUTPUTNODE, "epi_to_t1w_aff"),
     Edge(EPI_REG, "out_file", OUTPUTNODE, "epi_to_t1w"),
     Edge(INVERT_XFM, "out_file", OUTPUTNODE, "t1w_to_epi_aff")]
  }

  /** `init_epireg_wf(name)`. */
  method InitEpiregWf(name: string) returns (wf: Workflow)
    ensures fresh(wf) && wf.name == name && wf.baseDir == None
    ensures wf.edges == EpiRegEdges()
  {
    wf := new Workflow(name);
    wf.ConnectAll(EpiRegEdges());
  }

  /**
   * The registration takes the brain, the head and the EPI image from the
   * inputs of those names; the EPI-to-T1w matrix is both an output and the
   * inverter's input, and the inverter's result is the T1w-to-EPI output. Each
   * of these ports is fed by that one edge only.
   */
  lemma EpiRegWiring()
    ensures FedOnceAt(EpiRegEdges(), EPI_REG, "t1_brain", 0) && EpiRegEdges()[0].srcPort == "t1w_brain"
    ensures FedOnceAt(EpiRegEdges(), EPI_REG, "t1_head", 1) && EpiRegEdges()[1].srcPort == "t1w_head"
    ensures FedOnceAt(EpiRegEdges(), EPI_REG, "epi", 2) && EpiRegEdges()[2].srcPort == "in_file"
    ensures FedOnceAt(EpiRegEdges(), INVERT_XFM, "in_file", 3) && EpiRegEdges()[3].srcPort == "epi2str_mat"
    ensures FedOnceAt(EpiRegEdges(), OUTPUTNODE, "epi_to_t1w_aff", 4) && EpiRegEdges()[4].srcPort == "epi2str_mat"
    ensures FedOnceAt(EpiRegEdges(), OUTPUTNODE, "t1w_to_epi_aff", 6) && EpiRegEdges()[6].srcNode == INVERT_XFM
  {
  }

  /** The one `connect` issued per field: the affine as `transforms`, the brain as reference, the field as input. */
  function DraftFieldEdges(field: string): (r: seq<Edge>)
    ensures |r| == 3
  {
    Connections(INPUTNODE, ApplyTransform.NodeName(field),
      [("epi_to_t1w_aff", "transforms"), ("t1w_brain", "reference_image"), (field, "input_image")])
  }

  /** The edges of the loop over `fields`, three per field, in order. */
  function DraftEdges(fields: seq<string>): (r: seq<Edge>)
    ensures |r| == 3 * |fields|
  {
    if fields == [] then [] else DraftEdges(fields[..|fields| - 1]) + DraftFieldEdges(fields[|fields| - 1])
  }

  /** Nothing the draft builder connects ends in its output node. */
  lemma {:induction false} DraftNeverOutputs(fields: seq<string>)
    ensures forall i :: 0 <= i < |DraftEdges(fields)| ==> DraftEdges(fields)[i].dstNode != OUTPUTNODE
    decreases |fields|
  {
    if fields != [] {
      DraftNeverOutputs(fields[..|fields| - 1]);
      var f := fields[|fields| - 1];
      assert ApplyTransform.NodeName(f)[0] == 'a';
    }
  }

  /** The three edges of field `k` sit at positions `3k .. 3k+2`. */
  lemma {:induction false} DraftEdgesAt(fields: seq<string>, k: int)
    requires 0 <= k < |fields|
    ensures DraftEdges(fields)[3 * k] == Edge(INPUTNODE, "epi_to_t1w_aff", ApplyTransform.NodeName(fields[k]), "transforms")
    ensures DraftEdges(fields)[3 * k + 1] == Edge(INPUTNODE, "t1w_brain", ApplyTransform.NodeName(fields[k]), "reference_image")
    ensures DraftEdges(fields)[3 * k + 2] == Edge(INPUTNODE, fields[k], ApplyTransform.NodeName(fields[k]), "input_image")
    decreases |fields|
  {
    var n := |fields|;
    if k < n - 1 {
      DraftEdgesAt(fields[..n - 1], k);
    }
  }

  /**
   * `init_apply_transform(in_fields, name)` of this draft: the caller's list
   * gains the three extra fields and one node is wired per field of the
   * EXTENDED list. The source returns None; the workflow it built is returned
   * here so that what was built can be stated.
   */
  method InitApplyTransform(inFields: FieldList, name: string) returns (built: Workflow)
    modifies inFields
    ensures fresh(built) && built.name == name && built.baseDir == None
    ensures inFields.items == old(inFields.items) + ApplyTransform.EXTRA_FIELDS
    ensures built.edges == DraftEdges(inFields.items)
  {
    built := new Workflow(name);
    inFields.Extend(ApplyTransform.EXTRA_FIELDS);
    var fields := inFields.items;
    for i := 0 to |fields|
      invariant built.edges == DraftEdges(fields[..i])
      invariant built.name == name && built.baseDir == None
      invariant inFields.items == fields
    {
      assert fields[..i + 1][..i] == fields[..i];
      built.Connect(INPUTNODE, ApplyTransform.NodeName(fields[i]),
        [("epi_to_t1w_aff", "transforms"), ("t1w_brain", "reference_image"), (fields[i], "input_image")]);
    }
    assert fields[..|fields|] == fields;
  }

  /**
   * Because the loop runs over the extended list, the affine gets a node of
   * its own, and that node receives the affine on two of its ports.
   */
  lemma AffineTransformsItself(fields: seq<string>)
    ensures var es := DraftEdges(fields + ApplyTransform.EXTRA_FIELDS);
      var k := |fields| + 1;
      es[3 * k] == Edge(INPUTNODE, "epi_to_t1w_aff", ApplyTransform.NodeName("epi_to_t1w_aff"), "transforms")
      && es[3 * k + 2] == Edge(INPUTNODE, "epi_to_t1w_aff", ApplyTransform.NodeName("epi_to_t1w_aff"), "input_image")
  {
    var all := fields + ApplyTransform.EXTRA_FIELDS;
    assert all[|fields| + 1] == "epi_to_t1w_aff";
    DraftEdgesAt(all, |fields| + 1);
  }
}
