/**
 * Python dictionaries, which iterate in insertion order, modelled as sequences
 * of (key, value) entries with string keys.  A dictionary built by Python never holds a key twice:
 * that is `UniqueKeys`.
 */
module Dicts {
  import opened Wrappers

  type Dict<V> = seq<(string, V)>

  /** The keys in iteration order (`list(d)`). */
  function Keys<V>(d: Dict<V>): (ks: seq<string>)
    ensures |ks| == |d|
    ensures forall i :: 0 <= i < |d| ==> ks[i] == d[i].0
  {
    seq(|d|, i requires 0 <= i < |d| => d[i].0)
  }

  predicate UniqueKeys<V>(d: Dict<V>) {
    forall i, j :: 0 <= i < j < |d| ==> d[i].0 != d[j].0
  }

  /** `d[k]` when `k in d`, and `None` otherwise. */
  function Get<V>(d: Dict<V>, k: string): (r: Option<V>)
    ensures r.Some? <==> k in Keys(d)
    ensures r.Some? ==> (k, r.value) in d
  {
    if |d| == 0 then None
    else if d[0].0 == k then Some(d[0].1)
    else
      assert Keys(d) == [d[0].0] + Keys(d[1..]);
      Get(d[1..], k)
  }

  /** `d[k] = v`: overwrites the value in place when `k` is present, else appends a new entry. */
  function Put<V>(d: Dict<V>, k: string, v: V): Dict<V> {
    if |d| == 0 then [(k, v)]
    else if d[0].0 == k then [(k, v)] + d[1..]
    else [d[0]] + Put(d[1..], k, v)
  }

  lemma KeysCons<V>(e: (string, V), d: Dict<V>)
    ensures Keys([e] + d) == [e.0] + Keys(d)
  {
  }

  lemma KeysSnoc<V>(d: Dict<V>, e: (string, V))
    ensures Keys(d + [e]) == Keys(d) + [e.0]
  {
  }

  /** `d[k] = v` keeps the key order, adding `k` at the end when it is new. */
  lemma {:induction false} PutKeys<V>(d: Dict<V>, k: string, v: V)
    ensures Keys(Put(d, k, v)) == if k in Keys(d) then Keys(d) else Keys(d) + [k]
  {
    if |d| == 0 {
      assert Keys(Put(d, k, v)) == [k];
    } else {
      var rest := d[1..];
      assert d == [d[0]] + rest;
      KeysCons(d[0], rest);
      if d[0].0 == k {
        KeysCons((k, v), rest);
        assert k in Keys(d);
      } else {
        PutKeys(rest, k, v);
        KeysCons(d[0], Put(rest, k, v));
        assert k in Keys(d) <==> k in Keys(rest);
      }
    }
  }

  /** After `d[k] = v`, `d[k]` is `v` and every other key keeps its value. */
  lemma {:induction false} GetPut<V>(d: Dict<V>, k: string, v: V, k': string)
    ensures Get(Put(d, k, v), k') == if k' == k then Some(v) else Get(d, k')
  {
    if |d| > 0 && d[0].0 != k {
      assert Put(d, k, v)[1..] == Put(d[1..], k, v);
      GetPut(d[1..], k, v, k');
    }
  }

  /** In a dictionary without repeated keys, the lookup of the i-th key finds the i-th value. */
  lemma {:induction false} GetAt<V>(d: Dict<V>, i: nat)
    requires UniqueKeys(d) && i < |d|
    ensures Get(d, d[i].0) == Some(d[i].1)
  {
    if i > 0 {
      assert d[1..][i - 1] == d[i];
      GetAt(d[1..], i - 1);
    }
  }

  /** Looking up in a dictionary one entry longer: the old entries win, then the new one. */
  lemma {:induction false} GetAppend<V>(d: Dict<V>, e: (string, V), k: string)
    ensures Get(d + [e], k) ==
            if k in Keys(d) then Get(d, k) else if e.0 == k then Some(e.1) else None
  {
    if |d| > 0 {
      assert (d + [e])[1..] == d[1..] + [e];
      assert Keys(d) == [d[0].0] + Keys(d[1..]);
      GetAppend(d[1..], e, k);
    }
  }

  /** Assigning a key the dictionary does not have appends an entry at the end. */
  lemma {:induction false} PutFresh<V>(d: Dict<V>, k: string, v: V)
    requires k !in Keys(d)
    ensures Put(d, k, v) == d + [(k, v)]
  {
    if |d| > 0 {
      assert Keys(d) == [d[0].0] + Keys(d[1..]);
      assert d[0].0 != k;
      PutFresh(d[1..], k, v);
      assert Put(d, k, v) == [d[0]] + (d[1..] + [(k, v)]);
      assert d == [d[0]] + d[1..];
    }
  }

  /** Assigning again the key that was added last overwrites that entry only. */
  lemma {:induction false} PutLast<V>(d: Dict<V>, k: string, a: V, b: V)
    requires k !in Keys(d)
    ensures Put(d + [(k, a)], k, b) == d + [(k, b)]
  {
    if |d| > 0 {
      assert Keys(d) == [d[0].0] + Keys(d[1..]);
      assert (d + [(k, a)])[1..] == d[1..] + [(k, a)];
      PutLast(d[1..], k, a, b);
    }
  }

  /** Scanning entries in order: without repeated keys, entry j is the only one that can match its key. */
  lemma GetPrefixStep<V>(d: Dict<V>, j: nat, k: string)
    requires UniqueKeys(d) && j < |d|
    ensures d[j].0 == k ==> Get(d[..j], k) == None
    ensures Get(d[..j + 1], k) == if d[j].0 == k then Some(d[j].1) else Get(d[..j], k)
  {
    assert d[..j + 1] == d[..j] + [d[j]];
    GetAppend(d[..j], d[j], k);
  }
}
