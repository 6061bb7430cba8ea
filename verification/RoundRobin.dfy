/**
 Round-robin choice over a list with empty slots, as the queue dispatch of
 pkg/bus/localbus/localbus.go makes it; pkg/bus/redisbus/redisbus.go makes the same choice
 over a list without empty slots.
 */
module RoundRobin {
  function Wrap(next: nat, slots: nat): nat {
    if next >= slots then 0 else next
  }

  /** `p` is the first filled slot at or after `start`, going round. */
  ghost predicate IsNextFilled(filled: seq<bool>, start: nat, p: nat) {
    && p < |filled| && filled[p]
    && (if start <= p then forall j :: start <= j < p ==> !filled[j]
        else (forall j :: start <= j < |filled| ==> !filled[j]) && (forall j :: 0 <= j < p ==> !filled[j]))
  }

  function Count(filled: seq<bool>): nat {
    if filled == [] then 0 else Count(filled[..|filled| - 1]) + (if filled[|filled| - 1] then 1 else 0)
  }

  /** How many filled slots come before slot `p`. */
  function RankOf(filled: seq<bool>, p: nat): nat
    requires p <= |filled|
  {
    Count(filled[..p])
  }

  lemma RankStep(filled: seq<bool>, p: nat)
    requires p < |filled|
    ensures RankOf(filled, p + 1) == RankOf(filled, p) + (if filled[p] then 1 else 0)
  {
    assert filled[..p + 1][..p] == filled[..p];
  }

  lemma {:induction false} RankGrows(filled: seq<bool>, p: nat, q: nat)
    requires p <= q <= |filled|
    ensures RankOf(filled, p) <= RankOf(filled, q)
    ensures (forall j :: p <= j < q ==> !filled[j]) ==> RankOf(filled, p) == RankOf(filled, q)
    ensures p < q && filled[p] ==> RankOf(filled, p) < RankOf(filled, q)
  {
    if p < q {
      RankGrows(filled, p, q - 1);
      RankStep(filled, q - 1);
    }
  }

  /** Filled slots are told apart by their ranks. */
  lemma RankIsInjective(filled: seq<bool>, p: nat, q: nat)
    requires p < |filled| && q < |filled| && filled[p] && filled[q] && RankOf(filled, p) == RankOf(filled, q)
    ensures p == q
  {
    if p < q {
      RankGrows(filled, p, q);
    } else if q < p {
      RankGrows(filled, q, p);
    }
  }

  /** After slot `q` the choice falls on the slot of the next rank, and after the last rank on the first. */
  lemma NextRank(filled: seq<bool>, q: nat, p: nat)
    requires q < |filled| && filled[q] && IsNextFilled(filled, Wrap(q + 1, |filled|), p)
    ensures RankOf(filled, p) == if RankOf(filled, q) + 1 == Count(filled) then 0 else RankOf(filled, q) + 1
    ensures RankOf(filled, q) < Count(filled)
  {
    var n := |filled|;
    var start := Wrap(q + 1, n);
    assert filled[..n] == filled && RankOf(filled, n) == Count(filled) && RankOf(filled, 0) == 0;
    RankStep(filled, q);
    RankGrows(filled, q + 1, n);
    if start <= p {
      RankGrows(filled, start, p);
      RankGrows(filled, p, n);
      if q + 1 == n {
        assert start == 0;
      }
    } else {
      RankGrows(filled, start, n);
      RankGrows(filled, 0, p);
    }
  }

  /** Pick `t` is the choice that follows pick `t - 1`, and the first one starts from `start`. */
  ghost predicate IsPick(filled: seq<bool>, start: nat, picks: seq<nat>, t: nat)
    requires t < |picks|
  {
    IsNextFilled(filled, Wrap(if t == 0 then start else picks[t - 1] + 1, |filled|), picks[t])
  }

  /** Consecutive choices with no change of the slots in between. */
  ghost predicate IsDispatchRun(filled: seq<bool>, start: nat, picks: seq<nat>) {
    forall t :: 0 <= t < |picks| ==> IsPick(filled, start, picks, t)
  }

  /** How many of the choices fell on slot `p`. */
  function Times(picks: seq<nat>, p: nat): nat {
    if picks == [] then 0 else Times(picks[..|picks| - 1], p) + (if picks[|picks| - 1] == p then 1 else 0)
  }

  /** How many ranks on from `r` the rank `c` is, going round `n`. */
  function Gap(r: nat, c: nat, n: nat): nat
    requires r < n && c < n
  {
    if r <= c then c - r else c + n - r
  }

  lemma RankBelowCount(filled: seq<bool>, p: nat)
    requires p < |filled| && filled[p]
    ensures RankOf(filled, p) < Count(filled)
  {
    assert filled[..|filled|] == filled;
    RankGrows(filled, p, |filled|);
  }

  lemma DropLastPick(filled: seq<bool>, start: nat, picks: seq<nat>)
    requires IsDispatchRun(filled, start, picks) && picks != []
    ensures IsDispatchRun(filled, start, picks[..|picks| - 1])
  {
    var before := picks[..|picks| - 1];
    forall t | 0 <= t < |before|
      ensures IsPick(filled, start, before, t)
    {
      assert IsPick(filled, start, picks, t);
    }
  }

  /** Whether the last choice fell on `p` is a matter of ranks. */
  lemma LastPick(filled: seq<bool>, start: nat, picks: seq<nat>, p: nat)
    requires IsDispatchRun(filled, start, picks) && picks != []
    requires p < |filled| && filled[p]
    ensures picks[0] < |filled| && filled[picks[0]] && RankOf(filled, picks[0]) < Count(filled)
    ensures picks[|picks| - 1] < |filled| && filled[picks[|picks| - 1]]
    ensures RankOf(filled, picks[|picks| - 1]) < Count(filled) && RankOf(filled, p) < Count(filled)
    ensures (picks[|picks| - 1] == p) <==> (RankOf(filled, picks[|picks| - 1]) == RankOf(filled, p))
    ensures |picks| > 1 ==> picks[|picks| - 2] < |filled|
    ensures |picks| > 1 ==>
      var before := RankOf(filled, picks[|picks| - 2]);
      RankOf(filled, picks[|picks| - 1]) == if before + 1 == Count(filled) then 0 else before + 1
  {
    hide RankOf, Count;
    var last := picks[|picks| - 1];
    assert IsPick(filled, start, picks, 0);
    assert IsPick(filled, start, picks, |picks| - 1);
    RankBelowCount(filled, picks[0]);
    RankBelowCount(filled, last);
    RankBelowCount(filled, p);
    if RankOf(filled, last) == RankOf(filled, p) {
      RankIsInjective(filled, last, p);
    }
    if |picks| > 1 {
      assert IsPick(filled, start, picks, |picks| - 2);
      NextRank(filled, picks[|picks| - 2], last);
    }
  }

  lemma Round(q: nat, n: nat)
    ensures (q + 1) * n == q * n + n
  {}

  /** After `k = q * n + m` choices slot `p` has had `q`, and one more if its rank is among
      the `m` that start with the first choice's; and the last choice is `m - 1` ranks on from the first. */
  lemma {:induction false} Shares(filled: seq<bool>, start: nat, picks: seq<nat>, p: nat) returns (q: nat, m: nat)
    requires IsDispatchRun(filled, start, picks) && picks != []
    requires p < |filled| && filled[p]
    ensures picks[0] < |filled| && picks[|picks| - 1] < |filled|
    ensures RankOf(filled, picks[0]) < Count(filled) && RankOf(filled, p) < Count(filled)
    ensures RankOf(filled, picks[|picks| - 1]) < Count(filled)
    ensures m < Count(filled) && |picks| == q * Count(filled) + m
    ensures Gap(RankOf(filled, picks[0]), RankOf(filled, picks[|picks| - 1]), Count(filled))
         == if m == 0 then Count(filled) - 1 else m - 1
    ensures Times(picks, p)
         == q + if Gap(RankOf(filled, picks[0]), RankOf(filled, p), Count(filled)) < m then 1 else 0
  {
    hide RankOf, Count, IsDispatchRun;
    LastPick(filled, start, picks, p);
    var n, last := Count(filled), |picks| - 1;
    if last == 0 {
      assert Times(picks[..0], p) == 0;
      q, m := if n == 1 then 1 else 0, if n == 1 then 0 else 1;
    } else {
      DropLastPick(filled, start, picks);
      var q', m' := Shares(filled, start, picks[..last], p);
      Round(q', n);
      q, m := if m' + 1 == n then q' + 1 else q', if m' + 1 == n then 0 else m' + 1;
    }
  }

  lemma {:induction false} MultiplesGrow(a: nat, b: nat, n: nat)
    requires a <= b
    ensures a * n <= b * n
    decreases b
  {
    if a < b {
      MultiplesGrow(a, b - 1, n);
      Round(b - 1, n);
    }
  }

  lemma SameQuotient(q: nat, m: nat, r: nat, s: nat, n: nat)
    requires m < n && s < n && q * n + m == r * n + s
    ensures q == r
  {
    if q < r {
      MultiplesGrow(q + 1, r, n);
      Round(q, n);
    } else if r < q {
      MultiplesGrow(r + 1, q, n);
      Round(r, n);
    }
  }

  lemma Quotient(q: nat, m: nat, n: nat)
    requires m < n
    ensures (q * n + m) / n == q
  {
    var k := q * n + m;
    SameQuotient(q, m, k / n, k % n, n);
  }

  /** `k / n` rounded down and rounded up, for `k = q * n + m`. */
  lemma DownAndUp(q: nat, m: nat, n: nat)
    requires m < n
    ensures (q * n + m) / n == q && (q * n + m + n - 1) / n == if m == 0 then q else q + 1
  {
    Quotient(q, m, n);
    if m == 0 {
      Quotient(q, n - 1, n);
    } else {
      Round(q, n);
      Quotient(q + 1, m - 1, n);
    }
  }

  /** Over any `k` choices with `n` filled slots each slot gets `k / n` of them, rounded down or up. */
  lemma FairShares(filled: seq<bool>, start: nat, picks: seq<nat>, p: nat)
    requires IsDispatchRun(filled, start, picks) && p < |filled| && filled[p]
    ensures Count(filled) > 0
    ensures |picks| / Count(filled) <= Times(picks, p) <= (|picks| + Count(filled) - 1) / Count(filled)
  {
    hide RankOf, Count, IsDispatchRun;
    RankBelowCount(filled, p);
    if picks == [] {
      DownAndUp(0, 0, Count(filled));
    } else {
      var q, m := Shares(filled, start, picks, p);
      DownAndUp(q, m, Count(filled));
    }
  }

  /** Without empty slots the choice is the wrapped cursor itself. */
  lemma FullListPicksCursor(filled: seq<bool>, next: nat, p: nat)
    requires forall j :: 0 <= j < |filled| ==> filled[j]
    ensures filled != [] ==> (IsNextFilled(filled, Wrap(next, |filled|), p) <==> p == Wrap(next, |filled|))
  {
    assert filled != [] ==> filled[Wrap(next, |filled|)];
  }
}
