/**
 Counting helpers shared by the balancers: per-server request tallies are
 sequences of counters indexed like the server list, and a run of requests
 is described by the sequence of server positions it picked.
 */
module Tally {

  /** Total of a sequence of counters. */
  function Sum(s: seq<nat>): nat
  {
    if |s| == 0 then 0 else Sum(s[..|s| - 1]) + s[|s| - 1]
  }

  /** Replacing one counter changes the total by the difference. */
  lemma {:induction false} SumUpdate(s: seq<nat>, i: nat, v: nat)
    requires i < |s|
    ensures Sum(s[i := v]) + s[i] == Sum(s) + v
  {
    var last := |s| - 1;
    if i < last {
      assert s[i := v][..last] == s[..last][i := v];
      SumUpdate(s[..last], i, v);
    } else {
      assert s[i := v][..last] == s[..last];
    }
  }

  /** Number of picks that chose server `j`. */
  function Occurrences(picks: seq<nat>, j: nat): nat
  {
    if |picks| == 0 then 0
    else Occurrences(picks[..|picks| - 1], j) + (if picks[|picks| - 1] == j then 1 else 0)
  }

  /** Number of picks that chose server `j` and whose request succeeded (`ok`). */
  function Hits(picks: seq<nat>, ok: seq<bool>, j: nat): nat
    requires |ok| == |picks|
  {
    if |picks| == 0 then 0
    else Hits(picks[..|picks| - 1], ok[..|picks| - 1], j)
         + (if ok[|picks| - 1] && picks[|picks| - 1] == j then 1 else 0)
  }

  lemma OccurrencesAppend(picks: seq<nat>, x: nat, j: nat)
    ensures Occurrences(picks + [x], j) == Occurrences(picks, j) + (if x == j then 1 else 0)
  {
    assert (picks + [x])[..|picks|] == picks;
  }

  lemma HitsAppend(picks: seq<nat>, ok: seq<bool>, x: nat, b: bool, j: nat)
    requires |ok| == |picks|
    ensures Hits(picks + [x], ok + [b], j) == Hits(picks, ok, j) + (if b && x == j then 1 else 0)
  {
    assert (picks + [x])[..|picks|] == picks;
    assert (ok + [b])[..|picks|] == ok;
  }

  /** When every request succeeds, counting successful picks is counting picks. */
  lemma {:induction false} HitsAllOk(picks: seq<nat>, ok: seq<bool>, j: nat)
    requires |ok| == |picks| && forall k :: 0 <= k < |ok| ==> ok[k]
    ensures Hits(picks, ok, j) == Occurrences(picks, j)
  {
    if |picks| > 0 {
      HitsAllOk(picks[..|picks| - 1], ok[..|picks| - 1], j);
    }
  }

  /** Counting over a concatenation adds up. */
  lemma {:induction false} OccurrencesConcat(p: seq<nat>, q: seq<nat>, j: nat)
    ensures Occurrences(p + q, j) == Occurrences(p, j) + Occurrences(q, j)
  {
    if |q| > 0 {
      var q' := q[..|q| - 1];
      assert p + q == (p + q') + [q[|q| - 1]];
      OccurrencesConcat(p, q', j);
      OccurrencesAppend(p + q', q[|q| - 1], j);
      OccurrencesAppend(q', q[|q| - 1], j);
      assert q == q' + [q[|q| - 1]];
    } else {
      assert p + q == p;
    }
  }

  /** A server that no pick chose is counted zero times. */
  lemma {:induction false} OccurrencesAbsent(picks: seq<nat>, j: nat)
    requires forall k :: 0 <= k < |picks| ==> picks[k] != j
    ensures Occurrences(picks, j) == 0
  {
    if |picks| > 0 {
      OccurrencesAbsent(picks[..|picks| - 1], j);
    }
  }

  /** A server chosen at exactly one position is counted once. */
  lemma {:induction false} OccurrencesOnce(picks: seq<nat>, j: nat, t: nat)
    requires t < |picks| && picks[t] == j
    requires forall k :: 0 <= k < |picks| && k != t ==> picks[k] != j
    ensures Occurrences(picks, j) == 1
  {
    var last := |picks| - 1;
    if t == last {
      OccurrencesAbsent(picks[..last], j);
    } else {
      OccurrencesOnce(picks[..last], j, t);
    }
  }
}
