/**
  * Plain JavaScript objects used as dictionaries (`Record<string, V>`), modelled as
  * association lists in the order their keys were first inserted.
  *
  * ECMA-262 (section 10.1.11.1, OrdinaryOwnPropertyKeys) enumerates integer-like keys
  * before the others; the keys met in this dashboard (Duo statuses, SentinelOne group
  * names, license SKU names, table column names) are assumed not to be integer-like,
  * so insertion order is the enumeration order of `Object.keys` and `Object.entries`.
  */
module Dicts {
  import opened Wrappers
  import opened Seqs

  type Dict<V> = seq<(string, V)>

  /** `Object.keys(d)`. */
  function Keys<V>(d: Dict<V>): (ks: seq<string>)
    ensures |ks| == |d|
    ensures forall i :: 0 <= i < |d| ==> ks[i] == d[i].0
  {
    seq(|d|, i requires 0 <= i < |d| => d[i].0)
  }

  /** The association list stands for an object: no key occurs twice. */
  predicate DistinctKeys<V>(d: Dict<V>)
  {
    Distinct(Keys(d))
  }

  /** `d[k]`, `None` standing for `undefined`. */
  function Get<V>(d: Dict<V>, k: string): (r: Option<V>)
    ensures r.Some? <==> k in Keys(d)
  {
    if d == [] then None
    else if d[0].0 == k then Some(d[0].1)
    else Get(d[1..], k)
  }

  /** `d[k] = v`: an existing key keeps its place and takes the new value; a new key goes last. */
  function Put<V>(d: Dict<V>, k: string, v: V): Dict<V>
  {
    if d == [] then [(k, v)]
    else if d[0].0 == k then [(k, v)] + d[1..]
    else [d[0]] + Put(d[1..], k, v)
  }

  lemma {:induction false} KeysConcat<V>(a: Dict<V>, b: Dict<V>)
    ensures Keys(a + b) == Keys(a) + Keys(b)
  {
  }

  /** In an object, the value stored at position i is what a lookup of its key gives. */
  lemma {:induction false} GetAt<V>(d: Dict<V>, i: nat)
    requires DistinctKeys(d)
    requires i < |d|
    ensures Get(d, d[i].0) == Some(d[i].1)
  {
    if i > 0 {
      assert Keys(d)[0] != Keys(d)[i];
      assert Keys(d[1..]) == Keys(d)[1..];
      GetAt(d[1..], i - 1);
    }
  }

  /** Assignment adds the key at the end only when it is new; otherwise the key order is unchanged. */
  lemma {:induction false} PutKeys<V>(d: Dict<V>, k: string, v: V)
    ensures Keys(Put(d, k, v)) == if k in Keys(d) then Keys(d) else Keys(d) + [k]
  {
    if d != [] {
      assert d == [d[0]] + d[1..];
      KeysConcat([d[0]], d[1..]);
      if d[0].0 == k {
        KeysConcat([(k, v)], d[1..]);
      } else {
        PutKeys(d[1..], k, v);
        KeysConcat([d[0]], Put(d[1..], k, v));
      }
    }
  }

  /** After `d[k] = v`, reading k gives v and reading any other key gives what it gave before. */
  lemma {:induction false} PutGet<V>(d: Dict<V>, k: string, v: V, k': string)
    ensures Get(Put(d, k, v), k') == if k' == k then Some(v) else Get(d, k')
  {
    if d != [] && d[0].0 != k {
      PutGet(d[1..], k, v, k');
    }
  }

  /** The sum of the values of a counting dictionary. */
  function SumValues(d: Dict<nat>): int
  {
    if d == [] then 0 else d[0].1 + SumValues(d[1..])
  }

  lemma {:induction false} PutSum(d: Dict<nat>, k: string, v: nat)
    ensures SumValues(Put(d, k, v)) == SumValues(d) - Get(d, k).GetOr(0) + v
  {
    if d != [] && d[0].0 != k {
      PutSum(d[1..], k, v);
    }
  }

  /** One step of the counting fold: `acc[k] = (acc[k] || 0) + 1`. */
  function Bump(acc: Dict<nat>, k: string): Dict<nat>
  {
    Put(acc, k, Get(acc, k).GetOr(0) + 1)
  }

  /**
    * `keys.reduce((acc, k) => { acc[k] = (acc[k] || 0) + 1; return acc; }, {})`:
    * how many times each key occurs, keys in order of first occurrence.
    */
  function Tally(keys: seq<string>): Dict<nat>
  {
    if keys == [] then [] else Bump(Tally(keys[..|keys| - 1]), keys[|keys| - 1])
  }

  /** One counting step adds the key at the end only when it is new. */
  lemma {:induction false} TallyStepKeys(keys: seq<string>)
    requires keys != []
    ensures var acc, last := Tally(keys[..|keys| - 1]), keys[|keys| - 1];
      Keys(Tally(keys)) == if last in Keys(acc) then Keys(acc) else Keys(acc) + [last]
  {
    var acc, last := Tally(keys[..|keys| - 1]), keys[|keys| - 1];
    PutKeys(acc, last, Get(acc, last).GetOr(0) + 1);
  }

  /** The histogram's keys are the distinct keys of the input in first-encounter order. */
  lemma {:induction false} TallyKeys(keys: seq<string>)
    ensures Keys(Tally(keys)) == FirstSeen(keys)
  {
    if keys != [] {
      TallyKeys(keys[..|keys| - 1]);
      TallyStepKeys(keys);
    }
  }

  /** The histogram is an object: no status or group name is listed twice. */
  lemma {:induction false} TallyDistinct(keys: seq<string>)
    ensures DistinctKeys(Tally(keys))
  {
    TallyKeys(keys);
  }

  /** One counting step adds one to the last key's count and leaves the others alone. */
  lemma {:induction false} TallyStepGet(keys: seq<string>, k: string)
    requires keys != []
    ensures var acc, last := Tally(keys[..|keys| - 1]), keys[|keys| - 1];
      Get(Tally(keys), k).GetOr(0) == Get(acc, k).GetOr(0) + if last == k then 1 else 0
  {
    var acc, last := Tally(keys[..|keys| - 1]), keys[|keys| - 1];
    var n: nat := Get(acc, last).GetOr(0) + 1;
    assert Tally(keys) == Put(acc, last, n);
    PutGet(acc, last, n, k);
  }

  /** Each key's count is its number of occurrences; a key that never occurs reads as 0. */
  lemma {:induction false} TallyCount(keys: seq<string>, k: string)
    ensures Get(Tally(keys), k).GetOr(0) == multiset(keys)[k]
  {
    if keys != [] {
      var init, last := keys[..|keys| - 1], keys[|keys| - 1];
      TallyCount(init, k);
      TallyStepGet(keys, k);
      assert keys == init + [last];
    }
  }

  /** The counts add up to the number of keys counted. */
  lemma {:induction false} TallySum(keys: seq<string>)
    ensures SumValues(Tally(keys)) == |keys|
  {
    if keys != [] {
      var init, last := keys[..|keys| - 1], keys[|keys| - 1];
      TallySum(init);
      PutSum(Tally(init), last, Get(Tally(init), last).GetOr(0) + 1);
    }
  }

  /** The `reduce` fold as the source runs it: one pass updating the accumulator object. */
  method CountBy(keys: seq<string>) returns (acc: Dict<nat>)
    ensures acc == Tally(keys)
  {
    acc := [];
    for i := 0 to |keys|
      invariant acc == Tally(keys[..i])
    {
      assert keys[..i + 1][..i] == keys[..i];
      var k := keys[i];
      acc := Put(acc, k, Get(acc, k).GetOr(0) + 1);
    }
    assert keys[..|keys|] == keys;
  }
}
