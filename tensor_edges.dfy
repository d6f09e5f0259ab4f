/**
 * The port pairs of the tensor-estimation pipeline: the fixed input chain and
 * one `(out_m, m)` pair per metric keyword, built by a loop over the keywords.
 */
module TensorEdges {
  import opened Text
  import opened Dicts
  import opened TensorConfig

  const INPUT_TO_DWI2TENSOR_EDGES: seq<(string, string)> := [("dwi_file", "in_file")]
  const DWI2TENSOR_TO_TENSOR2METRIC_EDGES: seq<(string, string)> := [("out_file", "in_file")]

  /** `key.split("_")[-1]`: the text after the last '_' (all of `key` when there is none). */
  function LastSegment(key: string): (r: string)
    ensures '_' !in r
  {
    var parts := Split(key, '_');
    parts[|parts| - 1]
  }

  /** `out_` followed by a name without '_' ends in exactly that name. */
  lemma LastSegmentOfOut(m: string)
    requires '_' !in m
    ensures LastSegment("out_" + m) == m
  {
    assert "out_" + m == "out" + ['_'] + m;
    SplitFirst("out", '_', m);
    SplitAbsent(m, '_');
  }

  /** The pair the loop appends for each keyword, in keyword order. */
  function OutputEdges(kwargs: Dict<string, string>): (r: seq<(string, string)>)
    ensures |r| == |kwargs|
  {
    seq(|kwargs|, i requires 0 <= i < |kwargs| => (kwargs[i].0, LastSegment(kwargs[i].0)))
  }

  /** The module-level loop that fills `TENSOR2METRIC_TO_OUTPUT_EDGES`. */
  method BuildOutputEdges(kwargs: Dict<string, string>) returns (edges: seq<(string, string)>)
    ensures edges == OutputEdges(kwargs)
  {
    edges := [];
    for i := 0 to |kwargs|
      invariant edges == OutputEdges(kwargs[..i])
    {
      assert kwargs[..i + 1][..i] == kwargs[..i];
      edges := edges + [(kwargs[i].0, LastSegment(kwargs[i].0))];
    }
    assert kwargs[..|kwargs|] == kwargs;
  }

  const TENSOR2METRIC_TO_OUTPUT_EDGES: seq<(string, string)> := OutputEdges(TENSOR2METRIC_KWARGS)

  /** One edge per metric, in metric order, from port `out_m` to port `m`. */
  lemma MetricOutputEdges()
    ensures |TENSOR2METRIC_TO_OUTPUT_EDGES| == |METRICS|
    ensures forall i :: 0 <= i < |METRICS| ==>
      TENSOR2METRIC_TO_OUTPUT_EDGES[i] == ("out_" + METRICS[i], METRICS[i])
  {
    Tensor2MetricKwargs();
    MetricsWellFormed();
    forall i | 0 <= i < |METRICS|
      ensures TENSOR2METRIC_TO_OUTPUT_EDGES[i] == ("out_" + METRICS[i], METRICS[i])
    {
      LastSegmentOfOut(METRICS[i]);
    }
  }
}
