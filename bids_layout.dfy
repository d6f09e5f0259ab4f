/**
 * The dataset index as the query code sees it: `BIDSLayout.get(return_type=
 * "file", subject=..., extension=..., **query)` is an opaque function of the
 * subject, the extensions and the entity query, and `collect_data` sorts
 * whatever it returns, one list per datatype query.
 */
module BidsLayout {
  import opened Py
  import opened Dicts
  import opened Sorting
  import opened Text

  /** Entity filters handed to `layout.get` as keyword arguments, in their dict order. */
  type Query = Dict<string, Value>

  /** `layout.get(return_type="file", subject=s, extension=exts, **query)`: the files the index returns. */
  type Layout = (string, seq<string>, Query) -> seq<string>

  /** The extensions every query is restricted to. */
  const NII_EXTENSIONS: seq<string> := ["nii", "nii.gz"]

  /** The keyword arguments `collect_data` passes to `layout.get` besides the query itself. */
  const FIXED_KEYWORDS: seq<string> := ["return_type", "subject", "extension"]

  const MULTIPLE_VALUES := "get() got multiple values for a keyword argument"

  /** The `key-value` text a file name carries for an entity: `f"{key}-{value}"`. */
  function EntityText(key: string, value: Value): string
  {
    key + "-" + ToStr(value)
  }

  /** Every rule's `key-value` text occurs in the file name. */
  predicate Passes(rules: Query, fname: string)
  {
    forall i :: 0 <= i < |rules| ==> Contains(fname, EntityText(rules[i].0, rules[i].1))
  }

  /** A query that names one of the fixed keywords hands `layout.get` that keyword twice. */
  predicate Clashes(q: Query)
  {
    exists i :: 0 <= i < |q| && q[i].0 in FIXED_KEYWORDS
  }

  /** Some query of the table clashes. */
  predicate AnyClash(queries: Dict<string, Query>)
  {
    exists i :: 0 <= i < |queries| && Clashes(queries[i].1)
  }

  /**
   * The comprehension `{dtype: sorted(layout.get(...)) for dtype, query in
   * queries.items()}`: one entry per query, in the table's order, holding the
   * index's files for that query in ascending order; a query that repeats a
   * fixed keyword raises `TypeError`.
   */
  function Collect(layout: Layout, subject: string, exts: seq<string>, queries: Dict<string, Query>): (r: Result<Dict<string, seq<string>>>)
    ensures r.Err? <==> AnyClash(queries)
    ensures r.Err? ==> r.error.TypeError?
    ensures r.Ok? ==> Keys(r.value) == Keys(queries)
    ensures r.Ok? ==> forall i :: 0 <= i < |queries| ==> Sorted(r.value[i].1)
    ensures r.Ok? ==> forall i :: 0 <= i < |queries| ==> multiset(r.value[i].1) == multiset(layout(subject, exts, queries[i].1))
  {
    if AnyClash(queries) then Err(TypeError(MULTIPLE_VALUES))
    else
      var lists := seq(|queries|, i requires 0 <= i < |queries| => (queries[i].0, Sort(layout(subject, exts, queries[i].1))));
      assert Keys(lists) == Keys(queries) by {
        assert forall i :: 0 <= i < |queries| ==> Keys(lists)[i] == Keys(queries)[i];
      }
      assert forall i :: 0 <= i < |queries| ==> lists[i].1 == Sort(layout(subject, exts, queries[i].1));
      Ok(lists)
  }

  /** The lists do not depend on the order the index returns its files in. */
  lemma CollectOrderFree(l1: Layout, l2: Layout, subject: string, exts: seq<string>, queries: Dict<string, Query>)
    requires forall i :: 0 <= i < |queries| ==> multiset(l1(subject, exts, queries[i].1)) == multiset(l2(subject, exts, queries[i].1))
    ensures Collect(l1, subject, exts, queries) == Collect(l2, subject, exts, queries)
  {
    if !AnyClash(queries) {
      forall i | 0 <= i < |queries|
        ensures Sort(l1(subject, exts, queries[i].1)) == Sort(l2(subject, exts, queries[i].1))
      {
        SortPermutation(l1(subject, exts, queries[i].1), l2(subject, exts, queries[i].1));
      }
      assert Collect(l1, subject, exts, queries).value == Collect(l2, subject, exts, queries).value;
    }
  }
}
