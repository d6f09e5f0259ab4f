/**
 * `init_apply_transform` (apply_transform/ package): one `ApplyXFM` node per
 * metric plus the DWI series, each resampling its field into T1w space with the
 * EPI-to-T1w affine and the masked T1w as reference. The builder extends the
 * list it is given in place.
 */
module ApplyTransform {
  import opened Py
  import opened Graph

  const INPUTNODE := "inputnode"
  const OUTPUTNODE := "outputnode"

  /** The fields appended to the caller's list: the series, the affine and the reference. */
  const EXTRA_FIELDS: seq<string> := ["dwi_file", "epi_to_t1w_aff", "t1w_brain"]

  /** `f"apply_transform_{field}"`. */
  function NodeName(field: string): (r: string)
    ensures |r| == 16 + |field| && r[16..] == field
  {
    "apply_transform_" + field
  }

  /** The two `connect` tuples issued for one field: three inputs into its node, its output out. */
  function FieldEdges(field: string): (r: seq<Edge>)
    ensures |r| == 4
  {
    Connections(INPUTNODE, NodeName(field), [("epi_to_t1w_aff", "in_matrix_file"), ("t1w_brain", "reference"), (field, "in_file")])
    + Connections(NodeName(field), OUTPUTNODE, [("out_file", field)])
  }

  /** The edges of the loop over `fields`, four per field, in order. */
  function TransformEdges(fields: seq<string>): (r: seq<Edge>)
    ensures |r| == 4 * |fields|
  {
    if fields == [] then [] else TransformEdges(fields[..|fields| - 1]) + FieldEdges(fields[|fields| - 1])
  }

  /**
   * The four edges of field `k` sit at positions `4k .. 4k+3`: the affine into
   * `in_matrix_file`, the T1w brain into `reference`, the field itself into
   * `in_file`, and the node's `out_file` into the output port of the field's name.
   */
  lemma {:induction false} TransformEdgesAt(fields: seq<string>, k: int)
    requires 0 <= k < |fields|
    ensures TransformEdges(fields)[4 * k] == Edge(INPUTNODE, "epi_to_t1w_aff", NodeName(fields[k]), "in_matrix_file")
    ensures TransformEdges(fields)[4 * k + 1] == Edge(INPUTNODE, "t1w_brain", NodeName(fields[k]), "reference")
    ensures TransformEdges(fields)[4 * k + 2] == Edge(INPUTNODE, fields[k], NodeName(fields[k]), "in_file")
    ensures TransformEdges(fields)[4 * k + 3] == Edge(NodeName(fields[k]), "out_file", OUTPUTNODE, fields[k])
    decreases |fields|
  {
    var n := |fields|;
    if k < n - 1 {
      TransformEdgesAt(fields[..n - 1], k);
    }
  }

  /**
   * `init_apply_transform(in_fields, name)`: the caller's list gains the three
   * extra fields, the input and output identity nodes take the extended list
   * as their fields, and one node is wired per field of the list as it was
   * on entry, followed by `dwi_file`. The workflow is returned with its two
   * identity nodes, which the source keeps inside the workflow.
   */
  method InitApplyTransform(inFields: FieldList, name: string) returns (wf: Workflow, inputnode: InputNode, outputnode: InputNode)
    modifies inFields
    ensures fresh(wf) && wf.name == name && wf.baseDir == None
    ensures inFields.items == old(inFields.items) + EXTRA_FIELDS
    ensures fresh(inputnode) && inputnode.name == INPUTNODE && inputnode.fields == inFields.items && inputnode.inputs == map[]
    ensures fresh(outputnode) && outputnode.name == OUTPUTNODE && outputnode.fields == inFields.items && outputnode.inputs == map[]
    ensures wf.edges == TransformEdges(old(inFields.items) + ["dwi_file"])
  {
    wf := new Workflow(name);
    var metrics := inFields.Copy();
    inFields.Extend(EXTRA_FIELDS);
    inputnode := new InputNode(INPUTNODE, inFields.items);
    outputnode := new InputNode(OUTPUTNODE, inFields.items);
    WireFields(wf, metrics.items + ["dwi_file"]);
  }

  /** The loop of `init_apply_transform`: one node per field, wired in order. */
  method WireFields(wf: Workflow, fields: seq<string>)
    modifies wf
    ensures wf.edges == old(wf.edges) + TransformEdges(fields)
    ensures wf.name == old(wf.name) && wf.baseDir == old(wf.baseDir)
  {
    ghost var start := wf.edges;
    for i := 0 to |fields|
      invariant wf.edges == start + TransformEdges(fields[..i])
      invariant wf.name == old(wf.name) && wf.baseDir == old(wf.baseDir)
    {
      assert fields[..i + 1][..i] == fields[..i];
      ghost var before := wf.edges;
      var node := NodeName(fields[i]);
      wf.Connect(INPUTNODE, node, [("epi_to_t1w_aff", "in_matrix_file"), ("t1w_brain", "reference"), (fields[i], "in_file")]);
      wf.Connect(node, OUTPUTNODE, [("out_file", fields[i])]);
      assert wf.edges == before + FieldEdges(fields[i]);
    }
    assert fields[..|fields|] == fields;
  }

  /** Every edge of the builder enters or leaves the node of one of the fields. */
  lemma EveryEdgeOnAFieldNode(fields: seq<string>, i: int)
    requires 0 <= i < |TransformEdges(fields)|
    ensures exists k :: 0 <= k < |fields| && (TransformEdges(fields)[i].dstNode == NodeName(fields[k])
                                              || TransformEdges(fields)[i].srcNode == NodeName(fields[k]))
  {
    var k := i / 4;
    TransformEdgesAt(fields, k);
    assert 4 * k <= i < 4 * k + 4;
  }
}
