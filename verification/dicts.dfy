/**
 * Python dictionaries from agent id to token count, as insertion-ordered
 * association lists: a new key goes to the end, an existing key keeps its
 * place and takes the new value.
 */
module Dicts {
  import opened Wrappers

  type Dict = seq<(int, int)>

  function Keys(d: Dict): (ks: seq<int>)
    ensures |ks| == |d|
    ensures forall i :: 0 <= i < |d| ==> ks[i] == d[i].0
  {
    if d == [] then [] else [d[0].0] + Keys(d[1..])
  }

  /** No key occurs twice, as in every Python dict. */
  predicate DistinctKeys(d: Dict) {
    forall i, j :: 0 <= i < j < |d| ==> d[i].0 != d[j].0
  }

  /** The entries after the first still have distinct keys, none of them the first key. */
  lemma DistinctKeysTail(d: Dict)
    requires d != [] && DistinctKeys(d)
    ensures DistinctKeys(d[1..]) && d[0].0 !in Keys(d[1..])
  {
    forall j | 0 <= j < |d| - 1
      ensures Keys(d[1..])[j] != d[0].0
    {
      assert d[1..][j] == d[j + 1];
    }
  }

  predicate NonNegative(d: Dict) {
    forall i :: 0 <= i < |d| ==> d[i].1 >= 0
  }

  /** `d.get(k)`. */
  function Get(d: Dict, k: int): (r: Option<int>)
    ensures r.Some? <==> k in Keys(d)
  {
    if d == [] then None
    else if d[0].0 == k then Some(d[0].1)
    else Get(d[1..], k)
  }

  /** A value `Get` returns is one stored in the list. */
  lemma {:induction false} GetStored(d: Dict, k: int)
    requires Get(d, k).Some?
    ensures (k, Get(d, k).value) in d
  {
    if d[0].0 != k {
      GetStored(d[1..], k);
    }
  }

  /** `d[k] = v`. */
  function Put(d: Dict, k: int, v: int): Dict {
    if d == [] then [(k, v)]
    else if d[0].0 == k then [(k, v)] + d[1..]
    else [d[0]] + Put(d[1..], k, v)
  }

  /** An existing key keeps its place; a new key is appended. */
  lemma {:induction false} PutKeys(d: Dict, k: int, v: int)
    ensures Keys(Put(d, k, v)) == if k in Keys(d) then Keys(d) else Keys(d) + [k]
  {
    if d != [] && d[0].0 != k {
      PutKeys(d[1..], k, v);
      assert Keys(d) == [d[0].0] + Keys(d[1..]);
    }
  }

  /** After `d[k] = v`, `k` maps to `v` and every other key is as before. */
  lemma {:induction false} GetPut(d: Dict, k: int, v: int, k': int)
    ensures Get(Put(d, k, v), k') == if k' == k then Some(v) else Get(d, k')
  {
    if d != [] && d[0].0 != k {
      GetPut(d[1..], k, v, k');
    }
  }

  lemma PutDistinct(d: Dict, k: int, v: int)
    ensures DistinctKeys(d) ==> DistinctKeys(Put(d, k, v))
  {
    var r := Put(d, k, v);
    PutKeys(d, k, v);
    forall i, j | DistinctKeys(d) && 0 <= i < j < |r| ensures r[i].0 != r[j].0 {
      assert Keys(r)[i] == r[i].0 && Keys(r)[j] == r[j].0;
      if k in Keys(d) {
        assert Keys(r)[i] == Keys(d)[i] == d[i].0 && Keys(r)[j] == Keys(d)[j] == d[j].0;
      } else if j < |d| {
        assert Keys(r)[i] == Keys(d)[i] == d[i].0 && Keys(r)[j] == Keys(d)[j] == d[j].0;
      } else {
        assert Keys(r)[i] == Keys(d)[i] && Keys(r)[j] == k;
      }
    }
  }

  lemma {:induction false} PutNonNegative(d: Dict, k: int, v: int)
    ensures NonNegative(d) && v >= 0 ==> NonNegative(Put(d, k, v))
  {
    if d != [] && d[0].0 != k {
      PutNonNegative(d[1..], k, v);
    }
  }

  /** `sum(d.values())`. */
  function Sum(d: Dict): int {
    if d == [] then 0 else d[0].1 + Sum(d[1..])
  }

  lemma {:induction false} SumNonNegative(d: Dict)
    requires NonNegative(d)
    ensures Sum(d) >= 0
  {
    if d != [] {
      SumNonNegative(d[1..]);
    }
  }

  /** Overwriting a key replaces its old value in the sum; a new key adds to it. */
  lemma {:induction false} SumPut(d: Dict, k: int, v: int)
    ensures Sum(Put(d, k, v)) == Sum(d) - Get(d, k).GetOr(0) + v
  {
    if d != [] && d[0].0 != k {
      SumPut(d[1..], k, v);
    }
  }

  /** With non-negative values, `d[k] = v` raises the sum by at most `v`. */
  lemma SumPutBound(d: Dict, k: int, v: int)
    ensures NonNegative(d) ==> Sum(Put(d, k, v)) <= Sum(d) + v
  {
    SumPut(d, k, v);
    if NonNegative(d) && Get(d, k).Some? {
      GetStored(d, k);
    }
  }

  /** `sum(xs)` for a list of numbers, added up from the front. */
  function IntSum(xs: seq<int>): int {
    if xs == [] then 0 else IntSum(xs[..|xs| - 1]) + xs[|xs| - 1]
  }
}
