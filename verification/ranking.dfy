/**
 * The ranking of `record_round_history` (code/environment.py:121-133):
 * agents sorted by cumulative payoff, highest first, by a stable sort, so
 * that agents with equal payoffs keep their population order; an agent's
 * rank is its position in that order plus one.
 */
module Ranking {
  import opened Wrappers
  import opened Text

  /** Agent i is ranked above agent j: a higher payoff, or the same payoff and earlier in the population. */
  predicate Before(p: seq<real>, i: nat, j: nat)
    requires i < |p| && j < |p|
  {
    p[i] > p[j] || (p[i] == p[j] && i < j)
  }

  /** No two agents are each ranked above the other. */
  lemma BeforeAsymmetric(p: seq<real>, i: nat, j: nat)
    requires i < |p| && j < |p| && Before(p, i, j)
    ensures !Before(p, j, i) && i != j
  {
  }

  predicate Indices(p: seq<real>, s: seq<nat>) {
    forall k :: 0 <= k < |s| ==> s[k] < |p|
  }

  /** `s` lists indices of `p` in ranking order. */
  predicate Ranked(p: seq<real>, s: seq<nat>)
    requires Indices(p, s)
  {
    forall a, b :: 0 <= a < b < |s| ==> Before(p, s[a], s[b])
  }

  /** Insert index i into a ranked list behind every index ranked above it. */
  function Insert(p: seq<real>, i: nat, s: seq<nat>): (r: seq<nat>)
    requires i < |p| && Indices(p, s)
    ensures |r| == |s| + 1 && Indices(p, r)
    ensures forall x :: x in r <==> x == i || x in s
  {
    if s == [] then [i]
    else if Before(p, i, s[0]) then [i] + s
    else [s[0]] + Insert(p, i, s[1..])
  }

  /** A ranked list stays ranked behind an index ranked above all of its members. */
  lemma RankedCons(p: seq<real>, x: nat, t: seq<nat>)
    requires x < |p| && Indices(p, t) && Ranked(p, t)
    requires forall y :: y in t ==> Before(p, x, y)
    ensures Indices(p, [x] + t) && Ranked(p, [x] + t)
  {
    var r := [x] + t;
    forall a, b | 0 <= a < b < |r|
      ensures Before(p, r[a], r[b])
    {
      assert r[b] == t[b - 1];
      if a > 0 {
        assert r[a] == t[a - 1];
      } else {
        assert t[b - 1] in t;
      }
    }
  }

  /** Inserting a new index into a ranked list leaves it ranked. */
  lemma {:induction false} InsertRanked(p: seq<real>, i: nat, s: seq<nat>)
    requires i < |p| && Indices(p, s) && Ranked(p, s) && i !in s
    ensures Ranked(p, Insert(p, i, s))
  {
    if s == [] {
    } else if Before(p, i, s[0]) {
      RankedCons(p, i, s[1..]);
      assert s == [s[0]] + s[1..];
      forall y | y in s
        ensures Before(p, i, y)
      {
        var j :| 0 <= j < |s| && s[j] == y;
        if j > 0 {
          assert Before(p, s[0], s[j]);
        }
      }
      RankedCons(p, i, s);
    } else {
      assert Before(p, s[0], i);
      InsertRanked(p, i, s[1..]);
      var t := Insert(p, i, s[1..]);
      forall y | y in t
        ensures Before(p, s[0], y)
      {
        if y != i {
          var j :| 0 < j < |s| && s[j] == y;
          assert s[1..][j - 1] == y;
        }
      }
      RankedCons(p, s[0], t);
    }
  }

  /** The indices 0..n-1 in ranking order: what the stable, descending `sorted` yields. */
  function Order(p: seq<real>, n: nat): (r: seq<nat>)
    requires n <= |p|
    ensures |r| == n && Indices(p, r)
  {
    if n == 0 then [] else Insert(p, n - 1, Order(p, n - 1))
  }

  /** The ranking order lists each of the indices 0..n-1 once, best first. */
  lemma {:induction false} OrderRanked(p: seq<real>, n: nat)
    requires n <= |p|
    ensures forall x: int :: x in Order(p, n) <==> 0 <= x < n
    ensures Ranked(p, Order(p, n))
  {
    if n > 0 {
      OrderRanked(p, n - 1);
      InsertRanked(p, n - 1, Order(p, n - 1));
    }
  }

  /** The position of `x` in `s`, or |s| when it is absent. */
  function IndexOf(s: seq<nat>, x: nat): (k: nat)
    ensures k <= |s|
    ensures k < |s| ==> s[k] == x
    ensures x in s ==> k < |s|
  {
    if s == [] then 0
    else if s[0] == x then 0 else 1 + IndexOf(s[1..], x)
  }

  /** `agent_ranks`: each agent's 1-based position in the ranking order. */
  function Ranks(p: seq<real>): (r: seq<nat>)
    ensures |r| == |p|
  {
    var o := Order(p, |p|);
    seq(|p|, i requires 0 <= i < |p| => IndexOf(o, i) + 1)
  }

  /** Every rank lies in 1..N. */
  lemma RanksInRange(p: seq<real>)
    ensures forall i :: 0 <= i < |p| ==> 1 <= Ranks(p)[i] <= |p|
  {
    OrderRanked(p, |p|);
  }

  /** No two agents share a rank; with RanksInRange, the ranks are a permutation of 1..N. */
  lemma RanksDistinct(p: seq<real>)
    ensures forall i, j :: 0 <= i < |p| && 0 <= j < |p| && i != j ==> Ranks(p)[i] != Ranks(p)[j]
  {
    var o := Order(p, |p|);
    OrderRanked(p, |p|);
    forall i, j | 0 <= i < |p| && 0 <= j < |p| && i != j
      ensures Ranks(p)[i] != Ranks(p)[j]
    {
      assert i in o && j in o;
      assert o[IndexOf(o, i)] == i && o[IndexOf(o, j)] == j;
    }
  }

  /** An agent ranked above another (higher payoff, or equal payoff and earlier) gets the smaller rank. */
  lemma RanksFollowPayoffs(p: seq<real>)
    ensures forall i, j :: 0 <= i < |p| && 0 <= j < |p| && Before(p, i, j) ==> Ranks(p)[i] < Ranks(p)[j]
  {
    var o := Order(p, |p|);
    OrderRanked(p, |p|);
    forall i, j | 0 <= i < |p| && 0 <= j < |p| && Before(p, i, j)
      ensures Ranks(p)[i] < Ranks(p)[j]
    {
      assert i in o && j in o;
      var a, b := IndexOf(o, i), IndexOf(o, j);
      BeforeAsymmetric(p, i, j);
      assert o[a] == i && o[b] == j && !Before(p, o[b], o[a]);
    }
  }

  /** The best payoff, earliest among equals, is ranked first. */
  lemma TopRanked(p: seq<real>, i: nat)
    requires i < |p|
    requires forall j :: 0 <= j < |p| && j != i ==> Before(p, i, j)
    ensures Ranks(p)[i] == 1
  {
    var o := Order(p, |p|);
    OrderRanked(p, |p|);
    assert i in o;
    var k := IndexOf(o, i);
    if k > 0 {
      assert o[0] in o;
      BeforeAsymmetric(p, o[0], o[k]);
      assert false;
    }
  }

  /** The rank as the round record shows it: "<rank> out of <N>". */
  function RankText(rank: nat, total: nat): string {
    NatToString(rank) + " out of " + NatToString(total)
  }

  /** The rank text reads back: its leading digits are the rank and its trailing digits the population size. */
  lemma RankTextReadsBack(rank: nat, total: nat)
    ensures var r := RankText(rank, total); var n := |NatToString(rank)|; var m := |NatToString(total)|;
      && |r| == n + 8 + m
      && ParseInt(r[..n]) == Some(rank)
      && r[n..n + 8] == " out of "
      && ParseInt(r[n + 8..]) == Some(total)
  {
    var r := RankText(rank, total);
    var n := |NatToString(rank)|;
    assert r[..n] == NatToString(rank);
    assert r[n + 8..] == NatToString(total);
    ParseIntNatToString(rank);
    ParseIntNatToString(total);
  }
}
