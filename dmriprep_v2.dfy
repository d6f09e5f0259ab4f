/**
 * The second dMRI driver draft, src/dwiprep/workflows/dmri/dmriprep_v2.py:
 * a subject's session data fetched from the BIDS index, checked for the
 * entities preprocessing needs, and mapped, per datatype, onto the keyword
 * arguments of mrconvert.
 */
module DmriPrepV2 {
  import opened Py
  import opened Dicts
  import opened Sorting
  import opened BidsLayout
  import opened DmriSession
  import Mrconvert

  /** `layout.get(**kwargs)` over the keyword arguments in the order they are passed. */
  type Getter = Query -> seq<string>

  /** The keyword arguments `get_session_data` always passes, and "session" when one is given. */
  function SessionKwargs(participantLabel: string, session: Option<string>): Query
  {
    [("return_type", Str("file")), ("subject", Str(participantLabel))]
    + (if session.Some? then [("session", Str(session.value))] else [])
  }

  /** The query names a keyword `get_session_data` passes itself, so `layout.get` receives it twice. */
  predicate ClashesWith(kwargs: Query, q: Query)
  {
    exists i :: 0 <= i < |q| && q[i].0 in Keys(kwargs)
  }

  /** Always the subject and file paths; the session exactly when it is not `None`, even an empty one. */
  lemma SessionKwargsRules(participantLabel: string, session: Option<string>)
    ensures Get(SessionKwargs(participantLabel, session), "return_type") == Some(Str("file"))
    ensures Get(SessionKwargs(participantLabel, session), "subject") == Some(Str(participantLabel))
    ensures Get(SessionKwargs(participantLabel, session), "session") == if session.Some? then Some(Str(session.value)) else None
    ensures Valid(SessionKwargs(participantLabel, session))
  {
    var kw := SessionKwargs(participantLabel, session);
    assert kw[0].0 == "return_type" && kw[1].0 == "subject";
    assert kw[1..][1..] == (if session.Some? then [("session", Str(session.value))] else []);
  }

  /**
   * `validate_session(session_data)` of this draft: `FileNotFoundError` for a
   * missing mandatory entity, otherwise whether no recommended one is missing.
   */
  method ValidateSession<V>(sessionData: Dict<string, V>) returns (r: Result<bool>)
    ensures var check := SessionCheck(Keys(sessionData));
      r == if check.Err? then Err(check.error) else Ok(check.value == [])
  {
    var keys := Keys(sessionData);
    for i := 0 to |MANDATORY_ENTITIES|
      invariant Missing(MANDATORY_ENTITIES[..i], keys) == []
    {
      MissingSnoc(MANDATORY_ENTITIES, keys, i);
      if MANDATORY_ENTITIES[i] !in keys {
        MissingFirst(MANDATORY_ENTITIES, keys, i);
        return Err(FileNotFoundError(MANDATORY_ENTITIES[i]));
      }
    }
    assert MANDATORY_ENTITIES[..|MANDATORY_ENTITIES|] == MANDATORY_ENTITIES;
    for i := 0 to |RECOMMENDED_ENTITIES|
      invariant Missing(RECOMMENDED_ENTITIES[..i], keys) == []
    {
      MissingSnoc(RECOMMENDED_ENTITIES, keys, i);
      if RECOMMENDED_ENTITIES[i] !in keys {
        MissingFirst(RECOMMENDED_ENTITIES, keys, i);
        return Ok(false);
      }
    }
    assert RECOMMENDED_ENTITIES[..|RECOMMENDED_ENTITIES|] == RECOMMENDED_ENTITIES;
    r := Ok(true);
  }

  /** The boolean check is true exactly when both "dwi" and "fmap" are present. */
  lemma ValidateSessionCases(keys: seq<string>)
    ensures SessionCheck(keys).Ok? <==> "dwi" in keys
    ensures SessionCheck(keys).Ok? ==> (SessionCheck(keys).value == [] <==> "fmap" in keys)
  {
    SessionCheckCases(keys);
  }

  /**
   * `validate_fieldmaps(session_data)`: the phase-encoding check on the
   * session's "fmap" and "dwi" entries when the session validates, and
   * (False, False) otherwise without consulting it.
   */
  method ValidateFieldmaps<V>(sessionData: Dict<string, V>, checkOppositePhaseEncoding: (Option<V>, Option<V>) -> (bool, bool))
    returns (r: Result<(bool, bool)>)
    ensures "dwi" !in Keys(sessionData) ==> r == Err(FileNotFoundError("dwi"))
    ensures "dwi" in Keys(sessionData) && "fmap" !in Keys(sessionData) ==> r == Ok((false, false))
    ensures "dwi" in Keys(sessionData) && "fmap" in Keys(sessionData) ==>
      r == Ok(checkOppositePhaseEncoding(Get(sessionData, "fmap"), Get(sessionData, "dwi")))
  {
    SessionCheckCases(Keys(sessionData));
    var valid := ValidateSession(sessionData);
    if valid.Err? {
      return Err(valid.error);
    }
    var extractB0, runSdc;
    if valid.value {
      var fmap := Get(sessionData, "fmap");
      var dwi := Get(sessionData, "dwi");
      extractB0, runSdc := checkOppositePhaseEncoding(fmap, dwi).0, checkOppositePhaseEncoding(fmap, dwi).1;
    } else {
      extractB0 := false;
      runSdc := false;
    }
    r := Ok((extractB0, runSdc));
  }

  class DmriPrep {
    var participantLabel: string
    /** `bids_query.queries`, a Python dictionary: no datatype appears twice. */
    var queries: Dict<string, Query>
    /** `bids_query.layout.get`. */
    var getter: Getter

    predicate Valid()
      reads this
    {
      Dicts.Valid(queries)
    }

    constructor (participantLabel: string, queries: Dict<string, Query>, getter: Getter)
      requires Dicts.Valid(queries)
      ensures Valid()
      ensures this.participantLabel == participantLabel && this.queries == queries && this.getter == getter
    {
      this.participantLabel := participantLabel;
      this.queries := queries;
      this.getter := getter;
    }

    /**
     * `get_session_data(session)`: one sorted list of files per query, in
     * the table's order, filtered by subject and, when given, by session; a
     * query naming one of those keywords raises `TypeError`.
     */
    function GetSessionData(session: Option<string>): (r: Result<Dict<string, seq<string>>>)
      reads this
      ensures r.Err? <==> exists i :: 0 <= i < |queries| && ClashesWith(SessionKwargs(participantLabel, session), queries[i].1)
      ensures r.Err? ==> r.error == TypeError(MULTIPLE_VALUES)
      ensures r.Ok? ==> Keys(r.value) == Keys(queries)
      ensures r.Ok? ==> forall i :: 0 <= i < |queries| ==>
        Sorted(r.value[i].1) && multiset(r.value[i].1) == multiset(getter(SessionKwargs(participantLabel, session) + queries[i].1))
    {
      var kwargs := SessionKwargs(participantLabel, session);
      if exists i :: 0 <= i < |queries| && ClashesWith(kwargs, queries[i].1) then Err(TypeError(MULTIPLE_VALUES))
      else Ok(SortedLists(queries, getter, kwargs))
    }

    /**
     * `map_session_data_to_mrconvert_kwargs(session_id)`: the same datatype
     * keys, in order, each with its files mapped onto mrconvert's keyword
     * arguments.
     */
    method MapSessionDataToMrconvertKwargs(session: Option<string>) returns (r: Result<Dict<string, Dict<string, string>>>)
      requires Valid()
      ensures r.Err? <==> GetSessionData(session).Err?
      ensures r.Err? ==> r.error == GetSessionData(session).error
      ensures r.Ok? ==> Keys(r.value) == Keys(queries)
      ensures r.Ok? ==> forall i :: 0 <= i < |r.value| ==>
        r.value[i].1 == Mrconvert.MapList(GetSessionData(session).value[i].1, Mrconvert.MAP_KWARGS_TO_SUFFIXES)
    {
      var data := GetSessionData(session);
      if data.Err? {
        return Err(data.error);
      }
      var items := data.value;
      var mappedData: Dict<string, Dict<string, string>> := [];
      for i := 0 to |items|
        invariant |mappedData| == i
        invariant forall k :: 0 <= k < i ==>
          mappedData[k] == (items[k].0, Mrconvert.MapList(items[k].1, Mrconvert.MAP_KWARGS_TO_SUFFIXES))
      {
        var mapped := Mrconvert.MapListToKwargs(items[i].1, Mrconvert.MAP_KWARGS_TO_SUFFIXES);
        FreshKey(items, mappedData, queries);
        SetAbsent(mappedData, items[i].0, mapped);
        ghost var before := mappedData;
        mappedData := Set(mappedData, items[i].0, mapped);
        assert mappedData == before + [(items[i].0, mapped)];
      }
      KeysAlong(items, mappedData);
      r := Ok(mappedData);
    }

    /**
     * `get_mif_conversion_nodes(session_id)`: the same datatype keys, in
     * order, each with the conversion node built from its mapped arguments.
     */
    method GetMifConversionNodes<N>(session: Option<string>, initMrconvertNode: (string, Dict<string, string>) -> N)
      returns (r: Result<Dict<string, N>>)
      requires Valid()
      ensures r.Err? <==> GetSessionData(session).Err?
      ensures r.Ok? ==> Keys(r.value) == Keys(queries)
      ensures r.Ok? ==> forall i :: 0 <= i < |r.value| ==>
        r.value[i].1 == initMrconvertNode(queries[i].0, Mrconvert.MapList(GetSessionData(session).value[i].1, Mrconvert.MAP_KWARGS_TO_SUFFIXES))
    {
      var kwargs := MapSessionDataToMrconvertKwargs(session);
      if kwargs.Err? {
        return Err(kwargs.error);
      }
      var items := kwargs.value;
      var nodes: Dict<string, N> := [];
      for i := 0 to |items|
        invariant |nodes| == i
        invariant forall k :: 0 <= k < i ==> nodes[k] == (items[k].0, initMrconvertNode(items[k].0, items[k].1))
      {
        var node := initMrconvertNode(items[i].0, items[i].1);
        FreshKey(items, nodes, queries);
        SetAbsent(nodes, items[i].0, node);
        ghost var before := nodes;
        nodes := Set(nodes, items[i].0, node);
        assert nodes == before + [(items[i].0, node)];
      }
      KeysAlong(items, nodes);
      r := Ok(nodes);
    }
  }

  /** Per query, in order, the sorted files `getter` returns for the keyword arguments followed by the query. */
  function SortedLists(queries: Dict<string, Query>, getter: Getter, kwargs: Query): (r: Dict<string, seq<string>>)
    ensures Keys(r) == Keys(queries)
    ensures forall i :: 0 <= i < |queries| ==> Sorted(r[i].1) && multiset(r[i].1) == multiset(getter(kwargs + queries[i].1))
  {
    seq(|queries|, i requires 0 <= i < |queries| => (queries[i].0, Sort(getter(kwargs + queries[i].1))))
  }

  /** A dictionary built along `items` so far does not yet hold the next key of `items`, whose keys are a valid table's. */
  lemma FreshKey<V, W>(items: Dict<string, V>, built: Dict<string, W>, table: Dict<string, Query>)
    requires Valid(table) && Keys(items) == Keys(table)
    requires |built| < |items| && forall k :: 0 <= k < |built| ==> built[k].0 == items[k].0
    ensures items[|built|].0 !in Keys(built)
  {
    forall k | 0 <= k < |built|
      ensures Keys(built)[k] != items[|built|].0
    {
      var n := |built|;
      assert table[k].0 != table[n].0;
      assert Keys(table)[k] == Keys(items)[k] && Keys(table)[n] == Keys(items)[n];
    }
  }

  /** A dictionary built along all of `items` has their keys. */
  lemma KeysAlong<V, W>(items: Dict<string, V>, built: Dict<string, W>)
    requires |built| == |items| && forall k :: 0 <= k < |built| ==> built[k].0 == items[k].0
    ensures Keys(built) == Keys(items)
  {
  }
}
