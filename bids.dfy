/**
 * The data collection of src/dwiprep/utils/bids_query/bids.py: seven default
 * datatype queries, narrowed in place by the user's `bids_filters` (the
 * filter's entities win), then one sorted list of NIfTI files per query.
 */
module Bids {
  import opened Py
  import opened Dicts
  import opened Sorting
  import opened BidsLayout

  /** The `queries` table of `collect_data`, in its dict order. */
  const QUERIES: Dict<string, Query> :=
    [("fmap", [("datatype", Str("fmap"))]),
     ("sbref", [("datatype", Str("dwi")), ("suffix", Str("sbref"))]),
     ("dwi", [("datatype", Str("dwi")), ("suffix", Str("dwi"))]),
     ("flair", [("datatype", Str("anat")), ("suffix", Str("FLAIR"))]),
     ("t2w", [("datatype", Str("anat")), ("suffix", Str("T2w"))]),
     ("t1w", [("datatype", Str("anat")), ("suffix", Str("T1w"))]),
     ("roi", [("datatype", Str("anat")), ("suffix", Str("roi"))])]

  const QUERY_NAMES: seq<string> := ["fmap", "sbref", "dwi", "flair", "t2w", "t1w", "roi"]

  /** `bids_filters or {}`: a missing filter table is an empty one. */
  function FiltersOrEmpty(bidsFilters: Option<Dict<string, Query>>): Dict<string, Query>
  {
    if bidsFilters.None? then [] else bidsFilters.value
  }

  /**
   * The table after `queries[acq].update(entities)` for each filter entry in
   * turn, or the `KeyError` of the first entry naming no query.
   */
  function Filtered(queries: Dict<string, Query>, filters: Dict<string, Query>): Result<Dict<string, Query>>
  {
    if filters == [] then Ok(queries)
    else
      var (acq, entities) := filters[|filters| - 1];
      var before := Filtered(queries, filters[..|filters| - 1]);
      if before.Err? then before
      else match Get(before.value, acq)
        case None => Err(KeyError(acq))
        case Some(q) => Ok(Set(before.value, acq, Update(q, entities)))
  }

  /**
   * The loop of `collect_data` over `bids_filters.items()`: each entry updates
   * the named query in the table in place.
   */
  method ApplyFilters(queries: Dict<string, Query>, bidsFilters: Option<Dict<string, Query>>) returns (r: Result<Dict<string, Query>>)
    ensures r == Filtered(queries, FiltersOrEmpty(bidsFilters))
  {
    var filters := FiltersOrEmpty(bidsFilters);
    var table := queries;
    for i := 0 to |filters|
      invariant Filtered(queries, filters[..i]) == Ok(table)
    {
      assert filters[..i + 1][..i] == filters[..i];
      var (acq, entities) := filters[i];
      var q := Get(table, acq);
      if q.None? {
        FilteredErrStays(queries, filters, i + 1);
        return Err(KeyError(acq));
      }
      table := Set(table, acq, Update(q.value, entities));
    }
    assert filters[..|filters|] == filters;
    r := Ok(table);
  }

  /** Once an entry fails, the later entries are not looked at. */
  lemma {:induction false} FilteredErrStays(queries: Dict<string, Query>, filters: Dict<string, Query>, i: nat)
    requires i <= |filters| && Filtered(queries, filters[..i]).Err?
    ensures Filtered(queries, filters) == Filtered(queries, filters[..i])
    decreases |filters|
  {
    if i == |filters| {
      assert filters[..i] == filters;
    } else {
      var n := |filters| - 1;
      assert filters[..n][..i] == filters[..i];
      FilteredErrStays(queries, filters[..n], i);
    }
  }

  /** Filtering never adds, drops or reorders a query. */
  lemma {:induction false} FilteredKeys(queries: Dict<string, Query>, filters: Dict<string, Query>)
    requires Filtered(queries, filters).Ok?
    ensures Keys(Filtered(queries, filters).value) == Keys(queries)
    decreases |filters|
  {
    if filters != [] {
      var n := |filters| - 1;
      FilteredKeys(queries, filters[..n]);
      var before := Filtered(queries, filters[..n]).value;
      KeysSet(before, filters[n].0, Update(Get(before, filters[n].0).value, filters[n].1));
    }
  }

  /** Some filter entry names a query the table lacks. */
  predicate NamesUnknown(queries: Dict<string, Query>, filters: Dict<string, Query>)
  {
    exists i :: 0 <= i < |filters| && filters[i].0 !in Keys(queries)
  }

  lemma UnknownSnoc(queries: Dict<string, Query>, filters: Dict<string, Query>)
    requires filters != []
    ensures NamesUnknown(queries, filters)
      <==> NamesUnknown(queries, filters[..|filters| - 1]) || filters[|filters| - 1].0 !in Keys(queries)
  {
    var init := filters[..|filters| - 1];
    assert forall i :: 0 <= i < |init| ==> init[i] == filters[i];
  }

  /** Filtering fails, with `KeyError`, exactly when some filter names no query. */
  lemma {:induction false} FilteredFails(queries: Dict<string, Query>, filters: Dict<string, Query>)
    ensures Filtered(queries, filters).Err? <==> NamesUnknown(queries, filters)
    ensures Filtered(queries, filters).Err? ==> Filtered(queries, filters).error.KeyError?
    decreases |filters|
  {
    if filters != [] {
      var n := |filters| - 1;
      var init := filters[..n];
      FilteredFails(queries, init);
      UnknownSnoc(queries, filters);
      if Filtered(queries, init).Ok? {
        FilteredKeys(queries, init);
      }
    }
  }

  /** The value the filters give entity `k` of query `acq`: the filter's own, else the default. */
  function Expected(queries: Dict<string, Query>, filters: Dict<string, Query>, acq: string, k: string): Option<Value>
    requires acq in Keys(queries)
  {
    match Get(filters, acq)
    case Some(f) => if k in Keys(f) then Get(f, k) else Get(Get(queries, acq).value, k)
    case None => Get(Get(queries, acq).value, k)
  }

  /**
   * After filtering, an entity of a query has the value the filter for that
   * query gives it, and the default value when the filter gives none.
   */
  lemma {:induction false} FilterWins(queries: Dict<string, Query>, filters: Dict<string, Query>, acq: string, k: string)
    requires Valid(filters) && forall i :: 0 <= i < |filters| ==> Valid(filters[i].1)
    requires Filtered(queries, filters).Ok? && acq in Keys(queries)
    ensures Get(Filtered(queries, filters).value, acq).Some?
    ensures Get(Get(Filtered(queries, filters).value, acq).value, k) == Expected(queries, filters, acq, k)
    decreases |filters|
  {
    if filters != [] {
      var n := |filters| - 1;
      var init := filters[..n];
      assert Valid(init) by {
        assert forall i :: 0 <= i < n ==> init[i] == filters[i];
      }
      assert forall i :: 0 <= i < n ==> Valid(init[i].1) by {
        assert forall i :: 0 <= i < n ==> init[i] == filters[i];
      }
      FilterWins(queries, init, acq, k);
      FilterWinsStep(queries, filters, acq, k);
    }
  }

  /** The last key of a dictionary does not occur before it. */
  lemma LastKeyFresh<V>(d: Dict<string, V>)
    requires d != [] && Valid(d)
    ensures d[|d| - 1].0 !in Keys(d[..|d| - 1])
  {
    var n := |d| - 1;
    forall i | 0 <= i < n ensures Keys(d[..n])[i] != d[n].0 {
      assert Keys(d[..n])[i] == d[i].0;
    }
  }

  /** The last filter entry touches only its own query, and lets its entities win there. */
  lemma FilterWinsStep(queries: Dict<string, Query>, filters: Dict<string, Query>, acq: string, k: string)
    requires filters != [] && Valid(filters) && Valid(filters[|filters| - 1].1)
    requires acq in Keys(queries)
    requires Filtered(queries, filters[..|filters| - 1]).Ok? && Filtered(queries, filters).Ok?
    requires Get(Filtered(queries, filters[..|filters| - 1]).value, acq).Some?
    requires Get(Get(Filtered(queries, filters[..|filters| - 1]).value, acq).value, k)
      == Expected(queries, filters[..|filters| - 1], acq, k)
    ensures Get(Filtered(queries, filters).value, acq).Some?
    ensures Get(Get(Filtered(queries, filters).value, acq).value, k) == Expected(queries, filters, acq, k)
  {
    var n := |filters| - 1;
    var init := filters[..n];
    var (a, entities) := filters[n];
    var before := Filtered(queries, init).value;
    var q := Get(before, a).value;
    var after := Filtered(queries, filters).value;
    assert after == Set(before, a, Update(q, entities));
    assert filters == init + [(a, entities)];
    GetSnoc(init, (a, entities), acq);
    GetSet(before, a, Update(q, entities), acq);
    if a == acq {
      LastKeyFresh(filters);
      assert Get(filters, acq) == Some(entities);
      assert Get(before, acq) == Some(q);
      GetUpdate(q, entities, k);
    } else {
      assert Get(filters, acq) == Get(init, acq);
      assert Get(after, acq) == Get(before, acq);
    }
  }

  /**
   * `collect_data(layout, participant_label, bids_filters=...)`: the subject's
   * sorted NIfTI files per query after filtering; an unknown filter name
   * raises `KeyError`, a filter naming a keyword `layout.get` already
   * receives raises `TypeError`.
   */
  function CollectData(layout: Layout, participantLabel: string, bidsFilters: Option<Dict<string, Query>>)
    : (r: Result<Dict<string, seq<string>>>)
  {
    var queries := Filtered(QUERIES, FiltersOrEmpty(bidsFilters));
    if queries.Err? then Err(queries.error)
    else Collect(layout, participantLabel, NII_EXTENSIONS, queries.value)
  }

  /** The result has one sorted list per default query, or the first error. */
  lemma CollectedLists(layout: Layout, participantLabel: string, bidsFilters: Option<Dict<string, Query>>)
    ensures CollectData(layout, participantLabel, bidsFilters).Err? <==>
      NamesUnknown(QUERIES, FiltersOrEmpty(bidsFilters))
      || (Filtered(QUERIES, FiltersOrEmpty(bidsFilters)).Ok? && AnyClash(Filtered(QUERIES, FiltersOrEmpty(bidsFilters)).value))
    ensures var r := CollectData(layout, participantLabel, bidsFilters);
      r.Ok? ==>
        Keys(r.value) == QUERY_NAMES
        && forall i :: 0 <= i < 7 ==>
             Sorted(r.value[i].1)
             && multiset(r.value[i].1)
                == multiset(layout(participantLabel, NII_EXTENSIONS, Filtered(QUERIES, FiltersOrEmpty(bidsFilters)).value[i].1))
  {
    var filters := FiltersOrEmpty(bidsFilters);
    assert Keys(QUERIES) == QUERY_NAMES;
    FilteredFails(QUERIES, filters);
    if Filtered(QUERIES, filters).Ok? {
      FilteredKeys(QUERIES, filters);
    }
  }

  /** A one-entry filter adding a new entity to the query at position `i`. */
  lemma AddEntity(queries: Dict<string, Query>, i: nat, acq: string, base: Query, k: string, v: Value)
    requires i < |queries| && queries[i] == (acq, base) && forall j :: 0 <= j < i ==> queries[j].0 != acq
    requires k !in Keys(base)
    ensures Filtered(queries, [(acq, [(k, v)])]) == Ok(queries[..i] + [(acq, base + [(k, v)])] + queries[i + 1..])
  {
    var filters: Dict<string, Query> := [(acq, [(k, v)])];
    assert filters[..0] == [];
    GetAt(queries, i, acq);
    assert Update(base, [(k, v)]) == base + [(k, v)] by {
      SetAbsent(base, k, v);
    }
    SetAt(queries, i, acq, base + [(k, v)]);
  }

  /** The T1w query comes sixth, after five queries of other names. */
  lemma T1wQuery()
    ensures QUERIES[5] == ("t1w", [("datatype", Str("anat")), ("suffix", Str("T1w"))])
    ensures forall j :: 0 <= j < 5 ==> QUERIES[j].0 != "t1w"
  {
  }

  /** The doctest's filter `{'t1w': {'run': 1}}` adds the run entity to the T1w query only. */
  lemma RunFilter()
    ensures Filtered(QUERIES, [("t1w", [("run", Int(1))])])
      == Ok(QUERIES[..5] + [("t1w", [("datatype", Str("anat")), ("suffix", Str("T1w")), ("run", Int(1))])] + QUERIES[6..])
  {
    var t1w: Query := [("datatype", Str("anat")), ("suffix", Str("T1w"))];
    T1wQuery();
    assert Keys(t1w) == ["datatype", "suffix"];
    AddEntity(QUERIES, 5, "t1w", t1w, "run", Int(1));
    assert t1w + [("run", Int(1))] == [("datatype", Str("anat")), ("suffix", Str("T1w")), ("run", Int(1))];
  }
}
