/**
 * The derivatives nodes of src/dwiprep/workflows/dmri/pipelines/derivatives/nodes.py:
 * the metric a tensor-derived file holds is read off its file name, and the
 * tensor sinks take that metric as their BIDS suffix.
 */
module DerivativesNodes {
  import opened Text
  import opened Paths
  import opened Graph

  /**
   * `infer_metric(in_file)`: the file's name up to its first '.', ASCII lower-cased
   * ("fa" for ".../FA.nii.gz"). The metric is a single lower-case word: no
   * dot, no separator, no capital letter.
   */
  function InferMetric(inFile: string): (r: string)
    ensures '.' !in r && '/' !in r
    ensures forall k :: 0 <= k < |r| ==> !('A' <= r[k] <= 'Z')
  {
    var name := Name(inFile);
    var stem := Split(name, '.')[0];
    assert forall k :: 0 <= k < |stem| ==> Lower(stem)[k] == LowerChar(stem[k]);
    SplitFirstPiece(name, '.');
    assert forall k :: 0 <= k < |stem| ==> stem[k] == name[k];
    Lower(stem)
  }

  /** The first piece of a split is the text before the first separator, or all of it. */
  lemma {:induction false} SplitFirstPiece(s: string, c: char)
    ensures var p := Split(s, c)[0]; |p| <= |s| && p == s[..|p|] && c !in p
    ensures var p := Split(s, c)[0]; |p| == |s| || s[|p|] == c
    decreases |s|
  {
    if s != [] && s[0] != c {
      SplitFirstPiece(s[1..], c);
    }
  }

  /**
   * The metric is the name's first characters, lower-cased, and stops just
   * before the name's first '.' (or at its end).
   */
  lemma InferMetricPrefix(inFile: string)
    ensures var name, r := Name(inFile), InferMetric(inFile);
      |r| <= |name| && (forall k :: 0 <= k < |r| ==> r[k] == LowerChar(name[k]))
    ensures var name, r := Name(inFile), InferMetric(inFile);
      '.' !in name[..|r|] && (|r| == |name| || name[|r|] == '.')
  {
    SplitFirstPiece(Name(inFile), '.');
  }

  /** A file `m.ext` in any directory, with `m` free of dots, holds the metric `m` lower-cased. */
  lemma MetricOfFile(d: string, m: string, ext: string)
    requires IsPart(m) && '.' !in m && '/' !in ext
    ensures InferMetric(JoinPath(d, m + "." + ext)) == Lower(m)
  {
    var name := m + "." + ext;
    assert name == m + ['.'] + ext;
    assert IsPart(name) by {
      assert name[0] == m[0];
    }
    NameOfJoin(d, name);
    SplitFirst(m, '.', ext);
  }

  /** The directories leading to a file do not change its metric. */
  lemma InferMetricInDirectory(d: string, f: string)
    requires IsPart(f)
    ensures InferMetric(JoinPath(d, f)) == InferMetric(f)
  {
    NameOfJoin(d, f);
    JoinSingle(f);
  }

  /** Inferring the metric of a metric changes nothing. */
  lemma InferMetricIdempotent(inFile: string)
    ensures InferMetric(InferMetric(inFile)) == InferMetric(inFile)
  {
    var r := InferMetric(inFile);
    if r != "" {
      assert r != "." by {
        assert r[0] != '.';
      }
      JoinSingle(r);
    }
    assert Name(r) == r;
    SplitAbsent(r, '.');
    assert Lower(r) == r by {
      var stem := Split(Name(inFile), '.')[0];
      LowerIdempotent(stem);
    }
  }

  /** The metric-inference node and the sink of the native-space tensor workflow. */
  const NATIVE_INFER_METRIC_NODE := "native_infer_metric"
  const NATIVE_TENSOR_NODE := "ds_native_tensor"

  /** The metric-inference node and the sink of the coregistered tensor workflow. */
  const COREG_INFER_METRIC_NODE := "coreg_infer_metric"
  const COREG_TENSOR_NODE := "ds_coreg_tensor"

  /** The ports the tensor workflows wire from the inference node into the sink. */
  const TENSOR_PORTS: seq<(string, string)> := [("metric", "suffix"), ("in_file", "in_file")]

  /** The connections of a tensor workflow: the inferred metric becomes the sink's suffix, and the file goes along. */
  function TensorWorkflow(inferNode: string, sinkNode: string): (r: seq<Edge>)
    ensures |r| == 2
  {
    Connections(inferNode, sinkNode, TENSOR_PORTS)
  }

  /**
   * In a tensor workflow the sink's suffix is fed by the inferred metric
   * alone, and its file by the inference node's `in_file` port alone.
   */
  lemma TensorSinkFed(inferNode: string, sinkNode: string)
    ensures Into(TensorWorkflow(inferNode, sinkNode), sinkNode, "suffix") == [Edge(inferNode, "metric", sinkNode, "suffix")]
    ensures Into(TensorWorkflow(inferNode, sinkNode), sinkNode, "in_file") == [Edge(inferNode, "in_file", sinkNode, "in_file")]
  {
    var es := TensorWorkflow(inferNode, sinkNode);
    assert es[0] == Edge(inferNode, "metric", sinkNode, "suffix");
    assert es[1] == Edge(inferNode, "in_file", sinkNode, "in_file");
    assert "suffix" != "in_file";
    IntoOnce(es, sinkNode, "suffix", 0);
    IntoOnce(es, sinkNode, "in_file", 1);
  }

  /** Both tensor workflows, native and coregistered, wire their sinks that way. */
  lemma TensorWorkflowsFed()
    ensures Into(TensorWorkflow(NATIVE_INFER_METRIC_NODE, NATIVE_TENSOR_NODE), NATIVE_TENSOR_NODE, "suffix") ==
      [Edge(NATIVE_INFER_METRIC_NODE, "metric", NATIVE_TENSOR_NODE, "suffix")]
    ensures Into(TensorWorkflow(COREG_INFER_METRIC_NODE, COREG_TENSOR_NODE), COREG_TENSOR_NODE, "suffix") ==
      [Edge(COREG_INFER_METRIC_NODE, "metric", COREG_TENSOR_NODE, "suffix")]
  {
    TensorSinkFed(NATIVE_INFER_METRIC_NODE, NATIVE_TENSOR_NODE);
    TensorSinkFed(COREG_INFER_METRIC_NODE, COREG_TENSOR_NODE);
  }
}
