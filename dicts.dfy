/**
 * Python dictionaries where their insertion order is observable (keyword
 * arguments rendered into a command line, query tables iterated in order):
 * a sequence of key/value pairs with distinct keys. Assigning an existing key
 * keeps its position; a new key goes to the end.
 */
module Dicts {
  import opened Py

  type Dict<K, V> = seq<(K, V)>

  function Keys<K, V>(d: Dict<K, V>): (r: seq<K>)
    ensures |r| == |d|
    ensures forall i :: 0 <= i < |d| ==> r[i] == d[i].0
  {
    if d == [] then [] else [d[0].0] + Keys(d[1..])
  }

  /** No key appears twice. */
  predicate Valid<K(==), V>(d: Dict<K, V>)
  {
    forall i, j :: 0 <= i < j < |d| ==> d[i].0 != d[j].0
  }

  /** `d.get(k)`. */
  function Get<K(==), V>(d: Dict<K, V>, k: K): (r: Option<V>)
    ensures r.None? <==> k !in Keys(d)
    ensures r.Some? ==> (k, r.value) in d
  {
    if d == [] then None
    else if d[0].0 == k then Some(d[0].1)
    else Get(d[1..], k)
  }

  /** `d[k] = v`. */
  function Set<K(==), V>(d: Dict<K, V>, k: K, v: V): (r: Dict<K, V>)
  {
    if d == [] then [(k, v)]
    else if d[0].0 == k then [(k, v)] + d[1..]
    else [d[0]] + Set(d[1..], k, v)
  }

  /** `d.update(e)`, which is also `{**d, **e}`. */
  function Update<K(==), V>(d: Dict<K, V>, e: Dict<K, V>): Dict<K, V>
    decreases |e|
  {
    if e == [] then d else Update(Set(d, e[0].0, e[0].1), e[1..])
  }

  /** The keys of `ks` that are not already in `d`, in their order, each once. */
  function NewKeys<K(==)>(old_keys: seq<K>, ks: seq<K>): seq<K>
    decreases |ks|
  {
    if ks == [] then []
    else if ks[0] in old_keys then NewKeys(old_keys, ks[1..])
    else [ks[0]] + NewKeys(old_keys + [ks[0]], ks[1..])
  }

  lemma {:induction false} KeysSet<K, V>(d: Dict<K, V>, k: K, v: V)
    ensures Keys(Set(d, k, v)) == if k in Keys(d) then Keys(d) else Keys(d) + [k]
  {
    if d != [] && d[0].0 != k {
      KeysSet(d[1..], k, v);
      assert Keys(d) == [d[0].0] + Keys(d[1..]);
    }
  }

  /** Assigning a key changes only that key's value. */
  lemma {:induction false} GetSet<K, V>(d: Dict<K, V>, k: K, v: V, q: K)
    ensures Get(Set(d, k, v), q) == if q == k then Some(v) else Get(d, q)
  {
    if d != [] && d[0].0 != k {
      GetSet(d[1..], k, v, q);
    }
  }

  /** Assigning a key keeps the keys distinct. */
  lemma {:induction false} ValidSet<K, V>(d: Dict<K, V>, k: K, v: V)
    requires Valid(d)
    ensures Valid(Set(d, k, v))
  {
    if d == [] {
    } else if d[0].0 == k {
      ValidReplaceHead(d, k, v);
    } else {
      ValidSet(d[1..], k, v);
      KeysSet(d[1..], k, v);
      assert d[0].0 !in Keys(d[1..]) by {
        forall j | 0 <= j < |d| - 1 ensures Keys(d[1..])[j] != d[0].0 {
          assert Keys(d[1..])[j] == d[j + 1].0;
        }
      }
      ValidCons(d[0], Set(d[1..], k, v));
    }
  }

  /** Replacing the value of the first key keeps the keys distinct. */
  lemma ValidReplaceHead<K, V>(d: Dict<K, V>, k: K, v: V)
    requires Valid(d) && d != [] && d[0].0 == k
    ensures Valid([(k, v)] + d[1..])
  {
    var r := [(k, v)] + d[1..];
    forall i, j | 0 <= i < j < |r| ensures r[i].0 != r[j].0 {
      assert r[j] == d[j];
      assert r[i].0 == d[i].0;
    }
  }

  /** A pair whose key the rest lacks, in front of a dictionary with distinct keys. */
  lemma ValidCons<K, V>(p: (K, V), t: Dict<K, V>)
    requires Valid(t) && p.0 !in Keys(t)
    ensures Valid([p] + t)
  {
    var r := [p] + t;
    forall i, j | 0 <= i < j < |r| ensures r[i].0 != r[j].0 {
      assert r[j] == t[j - 1] && Keys(t)[j - 1] == r[j].0;
      if i > 0 {
        assert r[i] == t[i - 1];
      }
    }
  }

  /** After an update, a key has the value of the later dictionary if it has one there. */
  lemma {:induction false} GetUpdate<K, V>(d: Dict<K, V>, e: Dict<K, V>, q: K)
    requires Valid(e)
    ensures Get(Update(d, e), q) == if q in Keys(e) then Get(e, q) else Get(d, q)
    decreases |e|
  {
    if e != [] {
      GetUpdate(Set(d, e[0].0, e[0].1), e[1..], q);
      GetSet(d, e[0].0, e[0].1, q);
      assert Keys(e) == [e[0].0] + Keys(e[1..]);
      if q == e[0].0 {
        assert q !in Keys(e[1..]);
      }
    }
  }

  /** An update keeps the old keys in place and appends the new ones in their order. */
  lemma {:induction false} KeysUpdate<K, V>(d: Dict<K, V>, e: Dict<K, V>)
    ensures Keys(Update(d, e)) == Keys(d) + NewKeys(Keys(d), Keys(e))
    decreases |e|
  {
    if e != [] {
      var d' := Set(d, e[0].0, e[0].1);
      KeysSet(d, e[0].0, e[0].1);
      KeysUpdate(d', e[1..]);
      assert Keys(e) == [e[0].0] + Keys(e[1..]);
    }
  }

  lemma {:induction false} ValidUpdate<K, V>(d: Dict<K, V>, e: Dict<K, V>)
    requires Valid(d)
    ensures Valid(Update(d, e))
    decreases |e|
  {
    if e != [] {
      ValidSet(d, e[0].0, e[0].1);
      ValidUpdate(Set(d, e[0].0, e[0].1), e[1..]);
    }
  }

  /** Building a dictionary by successive assignments, as a dict literal does. */
  function FromPairs<K(==), V>(ps: seq<(K, V)>): Dict<K, V>
  {
    Update([], ps)
  }

  /** Assigning a key that is not there appends it. */
  lemma {:induction false} SetAbsent<K, V>(d: Dict<K, V>, k: K, v: V)
    requires k !in Keys(d)
    ensures Set(d, k, v) == d + [(k, v)]
  {
    if d != [] {
      assert Keys(d)[0] == d[0].0;
      assert Keys(d[1..]) == Keys(d)[1..];
      SetAbsent(d[1..], k, v);
      assert [d[0]] + (d[1..] + [(k, v)]) == d + [(k, v)];
    }
  }

  /** Adding pairs whose keys are all new keeps them in order, one entry each. */
  lemma {:induction false} UpdateFresh<K, V>(d: Dict<K, V>, e: Dict<K, V>)
    requires Valid(d + e)
    ensures Update(d, e) == d + e
    decreases |e|
  {
    if e != [] {
      assert e[0].0 !in Keys(d) by {
        forall i | 0 <= i < |d| ensures Keys(d)[i] != e[0].0 {
          assert (d + e)[i].0 != (d + e)[|d|].0;
        }
      }
      SetAbsent(d, e[0].0, e[0].1);
      assert d + [e[0]] + e[1..] == d + e;
      UpdateFresh(d + [e[0]], e[1..]);
    }
  }

  /** A dict literal with distinct keys is exactly its list of pairs. */
  lemma FromPairsValid<K, V>(ps: seq<(K, V)>)
    requires Valid(ps)
    ensures FromPairs(ps) == ps
  {
    assert [] + ps == ps;
    UpdateFresh([], ps);
  }

  /** The keys of an update are the keys of either dictionary. */
  lemma {:induction false} InKeysUpdate<K, V>(d: Dict<K, V>, e: Dict<K, V>, k: K)
    ensures k in Keys(Update(d, e)) <==> k in Keys(d) || k in Keys(e)
    decreases |e|
  {
    if e != [] {
      KeysSet(d, e[0].0, e[0].1);
      InKeysUpdate(Set(d, e[0].0, e[0].1), e[1..], k);
      assert Keys(e) == [e[0].0] + Keys(e[1..]);
    }
  }

  /** One more pair at the end adds its key at the end. */
  lemma KeysSnoc<K, V>(d: Dict<K, V>, p: (K, V))
    ensures Keys(d + [p]) == Keys(d) + [p.0]
  {
    assert forall i :: 0 <= i < |d| ==> (d + [p])[i] == d[i];
  }

  /** Looking a key up in a dictionary with one more pair at the end. */
  lemma {:induction false} GetSnoc<K, V>(d: Dict<K, V>, p: (K, V), q: K)
    ensures Get(d + [p], q) == if q in Keys(d) then Get(d, q) else if p.0 == q then Some(p.1) else None
  {
    if d != [] {
      assert (d + [p])[1..] == d[1..] + [p];
      assert Keys(d) == [d[0].0] + Keys(d[1..]);
      GetSnoc(d[1..], p, q);
    }
  }

  /** Looking up a key whose first occurrence is at `i`. */
  lemma {:induction false} GetAt<K, V>(d: Dict<K, V>, i: nat, k: K)
    requires i < |d| && d[i].0 == k && forall j :: 0 <= j < i ==> d[j].0 != k
    ensures Get(d, k) == Some(d[i].1)
  {
    if i > 0 {
      GetAt(d[1..], i - 1, k);
    }
  }

  /** Assigning a key whose first occurrence is at `i` replaces that pair in place. */
  lemma {:induction false} SetAt<K, V>(d: Dict<K, V>, i: nat, k: K, v: V)
    requires i < |d| && d[i].0 == k && forall j :: 0 <= j < i ==> d[j].0 != k
    ensures Set(d, k, v) == d[..i] + [(k, v)] + d[i + 1..]
  {
    if i > 0 {
      SetAt(d[1..], i - 1, k, v);
      assert d[1..][..i - 1] == d[1..i] && d[1..][i..] == d[i + 1..];
      assert [d[0]] + d[1..i] == d[..i];
    }
  }

  /**
   * One step of rewriting a dictionary in place towards `out`, which has
   * the same keys: the first `i` entries are done, and setting entry `i`'s
   * key to its new value does entry `i` and leaves the rest untouched.
   */
  lemma SetStep<K, V>(items: Dict<K, V>, updated: Dict<K, V>, out: Dict<K, V>, i: nat, v: V)
    requires Valid(items) && i < |items| && |updated| == |items| && |out| == |items|
    requires updated[..i] == out[..i] && updated[i..] == items[i..]
    requires forall j :: 0 <= j < |out| ==> out[j].0 == items[j].0
    requires out[i] == (items[i].0, v)
    ensures var next := Set(updated, items[i].0, v);
      |next| == |items| && next[..i + 1] == out[..i + 1] && next[i + 1..] == items[i + 1..]
  {
    var k := items[i].0;
    assert updated[i] == updated[i..][0] == items[i];
    forall j | 0 <= j < i
      ensures updated[j].0 != k
    {
      assert updated[j] == updated[..i][j] == out[j];
    }
    SetAt(updated, i, k, v);
    assert updated[i + 1..] == updated[i..][1..];
  }

  /** The same step when entry `i` keeps its value. */
  lemma KeepStep<K, V>(items: Dict<K, V>, updated: Dict<K, V>, out: Dict<K, V>, i: nat)
    requires i < |items| && |updated| == |items| && |out| == |items|
    requires updated[..i] == out[..i] && updated[i..] == items[i..]
    requires out[i] == items[i]
    ensures updated[..i + 1] == out[..i + 1] && updated[i + 1..] == items[i + 1..]
  {
    assert updated[i] == updated[i..][0];
    assert updated[i + 1..] == updated[i..][1..];
  }
}
