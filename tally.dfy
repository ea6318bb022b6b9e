/**
 * Counters kept in dictionaries: `d[k] = d.get(k, 0) + 1` and the sum of all
 * counts, used for the trigger histograms and for the lengths of the
 * per-field usage lists.
 */
module Tally {

  /** The sum of all counts in `m`. */
  ghost function Total<K>(m: map<K, nat>): nat
    decreases |m.Keys|
  {
    if m == map[] then 0
    else
      var k :| k in m;
      assert (m - {k}).Keys == m.Keys - {k};
      m[k] + Total(m - {k})
  }

  /** The sum does not depend on which key is taken first. */
  lemma {:induction false} TotalPick<K>(m: map<K, nat>, k: K)
    requires k in m
    ensures Total(m) == m[k] + Total(m - {k})
    decreases |m.Keys|
  {
    var j :| j in m && Total(m) == m[j] + Total(m - {j});
    if j != k {
      assert (m - {j}).Keys == m.Keys - {j};
      assert (m - {k}).Keys == m.Keys - {k};
      TotalPick(m - {j}, k);
      TotalPick(m - {k}, j);
      assert m - {j} - {k} == m - {k} - {j};
    }
  }

  /** Replacing one count changes the sum by the difference. */
  lemma TotalUpdate<K>(m: map<K, nat>, k: K, v: nat)
    ensures Total(m[k := v]) == Total(m) - (if k in m then m[k] else 0) + v
  {
    var m' := m[k := v];
    TotalPick(m', k);
    assert m' - {k} == m - {k};
    if k in m {
      TotalPick(m, k);
    } else {
      assert m - {k} == m;
    }
  }

  /** `d[k] = d.get(k, 0) + 1` */
  function Bump<K>(m: map<K, nat>, k: K): (r: map<K, nat>)
    ensures r.Keys == m.Keys + {k}
  {
    m[k := (if k in m then m[k] else 0) + 1]
  }

  /** The counter dictionary a loop builds by bumping each key of `keys` in order. */
  function Histogram<K>(keys: seq<K>): map<K, nat>
  {
    if keys == [] then map[] else Bump(Histogram(keys[..|keys| - 1]), keys[|keys| - 1])
  }

  /** A histogram has exactly the keys that occur, each with its number of occurrences. */
  lemma {:induction false} HistogramCounts<K>(keys: seq<K>)
    ensures forall k :: k in Histogram(keys) <==> k in keys
    ensures forall k :: k in Histogram(keys) ==> Histogram(keys)[k] == multiset(keys)[k]
  {
    if keys != [] {
      var init, last := keys[..|keys| - 1], keys[|keys| - 1];
      assert keys == init + [last];
      HistogramCounts(init);
    }
  }

  /** The counts of a histogram add up to the number of keys counted. */
  lemma {:induction false} HistogramTotal<K>(keys: seq<K>)
    ensures Total(Histogram(keys)) == |keys|
  {
    if keys != [] {
      var init, last := keys[..|keys| - 1], keys[|keys| - 1];
      HistogramTotal(init);
      TotalUpdate(Histogram(init), last, (if last in Histogram(init) then Histogram(init)[last] else 0) + 1);
    }
  }

  /** Counting one more key is one more bump. */
  lemma HistogramSnoc<K>(keys: seq<K>, k: K, m: map<K, nat>)
    requires m == Histogram(keys)
    ensures Bump(m, k) == Histogram(keys + [k])
  {
    assert (keys + [k])[..|keys|] == keys;
  }

  /** Taking one more element of `keys` after `prefix`. */
  lemma PrefixGrows<K>(prefix: seq<K>, keys: seq<K>, j: nat)
    requires j < |keys|
    ensures prefix + keys[..j + 1] == (prefix + keys[..j]) + [keys[j]]
  {
    assert keys[..j + 1] == keys[..j] + [keys[j]];
  }
}
