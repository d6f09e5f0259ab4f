/**
 * The coregistration draft kept inside the `apply_transform.py/` directory:
 * the same `epi_reg` wiring as coregister.py, and an apply-transform builder
 * that behaves like the one of the apply_transform/ package (a snapshot of
 * the caller's list is taken before it is extended).
 */
module CoregisterDraft {
  import opened Py
  import opened Graph
  import Coregister
  import ApplyTransform

  /** `init_epireg_wf(name)`: the same seven edges as coregister.py. */
  method InitEpiregWf(name: string) returns (wf: Workflow)
    ensures fresh(wf) && wf.name == name && wf.baseDir == None
    ensures wf.edges == Coregister.EpiRegEdges()
  {
    wf := new Workflow(name);
    wf.Connect("inputnode", "epi_reg", [("t1w_brain", "t1_brain"), ("t1w_head", "t1_head"), ("in_file", "epi")]);
    wf.Connect("epi_reg", "invert_xfm", [("epi2str_mat", "in_file")]);
    wf.Connect("epi_reg", "outputnode", [("epi2str_mat", "epi_to_t1w_aff"), ("out_file", "epi_to_t1w")]);
    wf.Connect("invert_xfm", "outputnode", [("out_file", "t1w_to_epi_aff")]);
    ConnectedEpiReg();
  }

  /** The four `connect` tuples of the draft spell out the seven edges of coregister.py. */
  lemma ConnectedEpiReg()
    ensures Connections("inputnode", "epi_reg", [("t1w_brain", "t1_brain"), ("t1w_head", "t1_head"), ("in_file", "epi")])
      + Connections("epi_reg", "invert_xfm", [("epi2str_mat", "in_file")])
      + Connections("epi_reg", "outputnode", [("epi2str_mat", "epi_to_t1w_aff"), ("out_file", "epi_to_t1w")])
      + Connections("invert_xfm", "outputnode", [("out_file", "t1w_to_epi_aff")])
      == Coregister.EpiRegEdges()
  {
    var a := Connections("inputnode", "epi_reg", [("t1w_brain", "t1_brain"), ("t1w_head", "t1_head"), ("in_file", "epi")]);
    var b := Connections("epi_reg", "invert_xfm", [("epi2str_mat", "in_file")]);
    var c := Connections("epi_reg", "outputnode", [("epi2str_mat", "epi_to_t1w_aff"), ("out_file", "epi_to_t1w")]);
    var d := Connections("invert_xfm", "outputnode", [("out_file", "t1w_to_epi_aff")]);
    assert a == Coregister.EpiRegEdges()[..3];
    assert b == Coregister.EpiRegEdges()[3..4];
    assert c == Coregister.EpiRegEdges()[4..6];
    assert d == Coregister.EpiRegEdges()[6..];
  }

  /**
   * `init_apply_transform(in_fields, name)` of this draft: the caller's list
   * gains the three extra fields, the input and output identity nodes take
   * the extended list as their fields, and one `ApplyXFM` node is wired per
   * field of the list as it was on entry, followed by `dwi_file`.
   */
  method InitApplyTransform(inFields: FieldList, name: string) returns (wf: Workflow, inputnode: InputNode, outputnode: InputNode)
    modifies inFields
    ensures fresh(wf) && wf.name == name && wf.baseDir == None
    ensures inFields.items == old(inFields.items) + ApplyTransform.EXTRA_FIELDS
    ensures fresh(inputnode) && inputnode.name == "inputnode" && inputnode.fields == inFields.items && inputnode.inputs == map[]
    ensures fresh(outputnode) && outputnode.name == "outputnode" && outputnode.fields == inFields.items && outputnode.inputs == map[]
    ensures wf.edges == ApplyTransform.TransformEdges(old(inFields.items) + ["dwi_file"])
  {
    wf := new Workflow(name);
    var metrics := inFields.Copy();
    inFields.Extend(["dwi_file", "epi_to_t1w_aff", "t1w_brain"]);
    inputnode := new InputNode("inputnode", inFields.items);
    outputnode := new InputNode("outputnode", inFields.items);
    ApplyTransform.WireFields(wf, metrics.items + ["dwi_file"]);
    assert [] + ApplyTransform.TransformEdges(old(inFields.items) + ["dwi_file"]) == ApplyTransform.TransformEdges(old(inFields.items) + ["dwi_file"]);
  }
}
