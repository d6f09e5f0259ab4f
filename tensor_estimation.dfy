/**
 * `init_tensor_wf`: fit a diffusion tensor to the preprocessed series and
 * derive one map per metric, each routed to the output port of its name.
 */
module TensorEstimation {
  import opened Py
  import opened Text
  import opened Dicts
  import opened Graph
  import opened TensorConfig

  /** The metric list the builder declares and returns. */
  const OUT_FIELDS: seq<string> := ["fa", "adc", "ad", "rd", "cl", "cp", "cs", "evec", "eval"]

  const INPUTNODE := "inputnode"
  const OUTPUTNODE := "outputnode"
  const FIT_TENSOR := "fit_tensor"
  const TENSOR2METRIC := "tensor2metric"

  /** `value.split(".")[0]`: the text before the first '.'. */
  function PortOf(value: string): (r: string)
    ensures '.' !in r
  {
    Split(value, '.')[0]
  }

  /** A file name `m.nii.gz` with a dot-free `m` names port `m`. */
  lemma PortOfFile(m: string)
    requires '.' !in m
    ensures PortOf(m + ".nii.gz") == m
  {
    assert m + ".nii.gz" == m + ['.'] + "nii.gz";
    SplitFirst(m, '.', "nii.gz");
  }

  /** `inputnode.dwi_file -> fit_tensor.in_file -> tensor2metric.in_file`. */
  function ChainEdges(): (r: seq<Edge>)
    ensures |r| == 2
    ensures r[0].srcNode == INPUTNODE && r[0].dstNode == FIT_TENSOR
    ensures r[1].srcNode == FIT_TENSOR && r[1].dstNode == TENSOR2METRIC
  {
    Connections(INPUTNODE, FIT_TENSOR, [("dwi_file", "in_file")])
    + Connections(FIT_TENSOR, TENSOR2METRIC, [("out_file", "in_file")])
  }

  /** The edge the loop adds for each keyword: `tensor2metric.key -> outputnode.<port of value>`. */
  function MetricEdges(kwargs: Dict<string, string>): (r: seq<Edge>)
    ensures |r| == |kwargs|
  {
    seq(|kwargs|, i requires 0 <= i < |kwargs| => Edge(TENSOR2METRIC, kwargs[i].0, OUTPUTNODE, PortOf(kwargs[i].1)))
  }

  /**
   * `init_tensor_wf(name)`: the two chain edges, then one edge per metric
   * keyword in dict order; the declared metric list is returned as a new list.
   */
  method InitTensorWf(name: string) returns (wf: Workflow, outFields: FieldList)
    ensures fresh(wf) && fresh(outFields)
    ensures wf.name == name && wf.baseDir == None
    ensures wf.edges == ChainEdges() + MetricEdges(MetricKwargs(OUT_FIELDS))
    ensures outFields.items == OUT_FIELDS
  {
    wf := new Workflow(name);
    outFields := new FieldList(OUT_FIELDS);
    var kwargs := MetricKwargs(outFields.items);
    wf.ConnectAll(ChainEdges());
    for i := 0 to |kwargs|
      invariant wf.edges == ChainEdges() + MetricEdges(kwargs[..i])
      invariant wf.name == name && wf.baseDir == None
      invariant outFields.items == OUT_FIELDS
    {
      assert kwargs[..i + 1][..i] == kwargs[..i];
      wf.Connect(TENSOR2METRIC, OUTPUTNODE, [(kwargs[i].0, PortOf(kwargs[i].1))]);
    }
    assert kwargs[..|kwargs|] == kwargs;
  }

  /** The declared list is the configured metric table. */
  lemma OutFieldsAreMetrics()
    ensures OUT_FIELDS == METRICS
  {
  }

  /** Each metric `m` leaves `tensor2metric` on `out_m` and arrives at `outputnode.m`, in metric order. */
  lemma MetricPorts()
    ensures |MetricEdges(MetricKwargs(OUT_FIELDS))| == |OUT_FIELDS|
    ensures forall i :: 0 <= i < |OUT_FIELDS| ==>
      MetricEdges(MetricKwargs(OUT_FIELDS))[i] == Edge(TENSOR2METRIC, "out_" + OUT_FIELDS[i], OUTPUTNODE, OUT_FIELDS[i])
  {
    MetricsWellFormed();
    MetricKwargsOfDistinct(OUT_FIELDS);
    forall i | 0 <= i < |OUT_FIELDS|
      ensures MetricEdges(MetricKwargs(OUT_FIELDS))[i] == Edge(TENSOR2METRIC, "out_" + OUT_FIELDS[i], OUTPUTNODE, OUT_FIELDS[i])
    {
      PortOfFile(OUT_FIELDS[i]);
    }
  }
}
