/**
 * The configuration tables of the tensor-estimation pipeline: the diffusion
 * tensor metrics that `tensor2metric` computes, the identity-node fields and
 * the keyword arguments that name one output file per metric.
 */
module TensorConfig {
  import opened Dicts

  /** The nine scalar and vector maps derived from the fitted tensor, in output order. */
  const METRICS: seq<string> := ["fa", "adc", "ad", "rd", "cl", "cp", "cs", "evec", "eval"]

  const INPUT_NODE_FIELDS: seq<string> := ["dwi_file"]
  const OUTPUT_NODE_FIELDS: seq<string> := ["metrics"]

  /** `dwi2tensor` is run with its defaults. */
  const DWI2TENSOR_KWARGS: Dict<string, string> := []

  /** No two entries of `xs` are equal. */
  predicate Distinct(xs: seq<string>)
  {
    forall i, j :: 0 <= i < j < |xs| ==> xs[i] != xs[j]
  }

  /** A metric name as used for ports and file names: no '_', '.' or '/' in it, and not empty. */
  predicate PlainName(m: string)
  {
    m != "" && '_' !in m && '.' !in m && '/' !in m
  }

  /**
   * The `{f"out_{m}": f"{m}.nii.gz" for m in metrics}` comprehension: one
   * keyword per metric, later duplicates overwriting earlier ones in place.
   */
  function MetricKwargs(metrics: seq<string>): (r: Dict<string, string>)
    ensures Valid(r)
  {
    var pairs := seq(|metrics|, i requires 0 <= i < |metrics| => ("out_" + metrics[i], metrics[i] + ".nii.gz"));
    ValidUpdate([], pairs);
    FromPairs(pairs)
  }

  /** With distinct metric names the keywords are exactly `out_m -> m.nii.gz`, one per metric, in order. */
  lemma MetricKwargsOfDistinct(metrics: seq<string>)
    requires Distinct(metrics)
    ensures |MetricKwargs(metrics)| == |metrics|
    ensures forall i :: 0 <= i < |metrics| ==>
      MetricKwargs(metrics)[i] == ("out_" + metrics[i], metrics[i] + ".nii.gz")
  {
    var pairs := seq(|metrics|, i requires 0 <= i < |metrics| => ("out_" + metrics[i], metrics[i] + ".nii.gz"));
    forall i, j | 0 <= i < j < |pairs| ensures pairs[i].0 != pairs[j].0 {
      assert pairs[i].0[4..] == metrics[i];
      assert pairs[j].0[4..] == metrics[j];
    }
    FromPairsValid(pairs);
  }

  /** The metric names are nine distinct plain names. */
  lemma MetricsWellFormed()
    ensures |METRICS| == 9 && Distinct(METRICS)
    ensures forall i :: 0 <= i < |METRICS| ==> PlainName(METRICS[i])
  {
  }

  /** `TENSOR2METRIC_KWARGS`. */
  const TENSOR2METRIC_KWARGS: Dict<string, string> := MetricKwargs(METRICS)

  /** `TENSOR2METRIC_KWARGS` has one `out_m -> m.nii.gz` entry per metric, in the order of `METRICS`. */
  lemma Tensor2MetricKwargs()
    ensures |TENSOR2METRIC_KWARGS| == |METRICS|
    ensures forall i :: 0 <= i < |METRICS| ==>
      TENSOR2METRIC_KWARGS[i] == ("out_" + METRICS[i], METRICS[i] + ".nii.gz")
  {
    MetricsWellFormed();
    MetricKwargsOfDistinct(METRICS);
  }

  /** `LISTIFY_KWARGS`: the merge node gathering the metrics has one input per metric. */
  const LISTIFY_NUMINPUTS: nat := |METRICS|
}
