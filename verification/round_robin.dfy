/**
 Round robin (RoundRobin/load_balancer.py): a rotating index into the
 server list. `GetNextServer` returns the position of the chosen server in
 the list; the Python object it returns is that list element.
 */
module RoundRobin {
  import opened Tally
  import opened Modular
  import Servers

  type Server = Servers.Server

  // ---------------------------------------------------------------------------
  // Specification of a run of calls

  /**
   The value of `current_index` after `k` calls of `get_next_server` that
   started from `start` on a list of `n` servers: each call moves it to the
   next position, wrapping from the last server to the first.
   */
  function Advance(start: nat, n: nat, k: nat): (p: nat)
    requires start < n
    ensures p < n
  {
    if k == 0 then start
    else
      var p := Advance(start, n, k - 1);
      if p + 1 == n then 0 else p + 1
  }

  /**
   The positions returned by `k` consecutive calls of `get_next_server`
   starting from `current_index == start`: call `j` returns the index held
   before it, `Advance(start, n, j)`.
   */
  function Rotation(start: nat, n: nat, k: nat): (r: seq<nat>)
    requires start < n
    ensures |r| == k
  {
    if k == 0 then [] else Rotation(start, n, k - 1) + [Advance(start, n, k - 1)]
  }

  /** After `k` calls the index is `start + k` taken round the list, that is `(start + k) % n`. */
  lemma {:induction false} AdvanceIsMod(start: nat, n: nat, k: nat)
    requires start < n
    ensures Advance(start, n, k) == (start + k) % n
  {
    if k == 0 {
      ModSmall(start, n);
    } else {
      AdvanceIsMod(start, n, k - 1);
      ModStep(start + k - 1, n);
      ModSmall((start + k - 1) % n + 1, n);
    }
  }

  /** The `j`-th call of a run returns position `(start + j) % n`. */
  lemma {:induction false} RotationAt(start: nat, n: nat, k: nat, j: nat)
    requires start < n && j < k
    ensures Rotation(start, n, k)[j] == (start + j) % n
  {
    if j == k - 1 {
      AdvanceIsMod(start, n, j);
    } else {
      RotationAt(start, n, k - 1, j);
    }
  }

  /** Each of the `n` servers is returned exactly once by any `n` consecutive calls. */
  lemma RotationCoversEachOnce(start: nat, n: nat, j: nat)
    requires start < n && j < n
    ensures Occurrences(Rotation(start, n, n), j) == 1
  {
    var r := Rotation(start, n, n);
    var t := if j >= start then j - start else j + n - start;
    ModSmall(start + t, n);
    RotationAt(start, n, n, t);
    forall k | 0 <= k < n && k != t
      ensures r[k] != j
    {
      ModSmall(start + k, n);
      RotationAt(start, n, n, k);
    }
    OccurrencesOnce(r, j, t);
  }

  /** After a full round the rotation repeats itself. */
  lemma RotationSplit(start: nat, n: nat, m: nat)
    requires start < n
    ensures Rotation(start, n, n + m) == Rotation(start, n, n) + Rotation(start, n, m)
  {
    var r := Rotation(start, n, n + m);
    var s := Rotation(start, n, n) + Rotation(start, n, m);
    forall k | 0 <= k < n + m
      ensures r[k] == s[k]
    {
      RotationAt(start, n, n + m, k);
      if k < n {
        RotationAt(start, n, n, k);
      } else {
        RotationAt(start, n, m, k - n);
        ModAddN(start + (k - n), n);
      }
    }
  }

  /**
   Round robin ignores `weight`: over `c` full rounds, from any starting
   index, every server is returned exactly `c` times.
   */
  lemma {:induction false} RotationFairShare(start: nat, n: nat, c: nat, j: nat)
    requires start < n && j < n
    ensures Occurrences(Rotation(start, n, c * n), j) == c
  {
    if c == 0 {
      assert c * n == 0;
    } else {
      var m := (c - 1) * n;
      assert c * n == n + m;
      RotationSplit(start, n, m);
      OccurrencesConcat(Rotation(start, n, n), Rotation(start, n, m), j);
      RotationCoversEachOnce(start, n, j);
      RotationFairShare(start, n, c - 1, j);
    }
  }

  /** From index 0, `n` calls return the servers in list order and bring the index back to 0. */
  lemma FullRoundInOrder(n: nat)
    requires n > 0
    ensures forall j :: 0 <= j < n ==> Rotation(0, n, n)[j] == j
    ensures Advance(0, n, n) == 0
  {
    forall j | 0 <= j < n
      ensures Rotation(0, n, n)[j] == j
    {
      ModSmall(j, n);
      RotationAt(0, n, n, j);
    }
    AdvanceIsMod(0, n, n);
    ModSmall(n, n);
  }

  // ---------------------------------------------------------------------------
  // The balancer

  class RoundRobinLoadBalancer {
    var servers: seq<Server>
    var currentIndex: nat

    ghost predicate Valid()
      reads this
    {
      currentIndex < |servers| || (servers == [] && currentIndex == 0)
    }

    constructor (servers: seq<Server>)
      ensures Valid()
      ensures this.servers == servers && currentIndex == 0
    {
      this.servers := servers;
      currentIndex := 0;
    }

    /** Returns the position of the chosen server and advances the index. */
    method GetNextServer() returns (i: nat)
      requires Valid() && |servers| > 0
      modifies this
      ensures Valid()
      ensures servers == old(servers)
      ensures i == old(currentIndex) && i < |servers|
      ensures currentIndex == (old(currentIndex) + 1) % |servers|
    {
      i := currentIndex;
      currentIndex := (currentIndex + 1) % |servers|;
    }
  }

  /**
   The server list after crediting, for each pick whose request succeeded,
   one handled request to the chosen server.
   */
  function Credited(servers: seq<Server>, picks: seq<nat>, ok: seq<bool>): (r: seq<Server>)
    requires |ok| == |picks|
    ensures |r| == |servers|
  {
    seq(|servers|, j requires 0 <= j < |servers| =>
      servers[j].(requestCount := servers[j].requestCount + Hits(picks, ok, j)))
  }

  /** One more request credits its server if and only if it succeeded. */
  lemma CreditedStep(servers: seq<Server>, picks: seq<nat>, ok: seq<bool>, i: nat, b: bool)
    requires |ok| == |picks| && i < |servers|
    ensures var c := Credited(servers, picks, ok);
            Credited(servers, picks + [i], ok + [b])
            == if b then c[i := c[i].(requestCount := c[i].requestCount + 1)] else c
  {
    var c := Credited(servers, picks, ok);
    var d := Credited(servers, picks + [i], ok + [b]);
    var e := if b then c[i := c[i].(requestCount := c[i].requestCount + 1)] else c;
    forall j | 0 <= j < |servers|
      ensures d[j] == e[j]
    {
      HitsAppend(picks, ok, i, b, j);
    }
  }

  /** The loop step of `SimulateRequests`: the `k`-th request goes to position `start + k` round the list. */
  lemma SimulationStep(before: seq<Server>, start: nat, k: nat, ok: seq<bool>, servers: seq<Server>)
    requires start < |before| && k < |ok|
    requires servers == Credited(before, Rotation(start, |before|, k), ok[..k])
    ensures var i := Advance(start, |before|, k);
            Credited(before, Rotation(start, |before|, k + 1), ok[..k + 1])
            == if ok[k] then servers[i := servers[i].(requestCount := servers[i].requestCount + 1)] else servers
  {
    assert ok[..k + 1] == ok[..k] + [ok[k]];
    CreditedStep(before, Rotation(start, |before|, k), ok[..k], Advance(start, |before|, k), ok[k]);
  }

  /**
   With every request succeeding, `c` full rounds credit every server with
   exactly `c` requests, whatever the weights in the list.
   */
  lemma EqualShareIgnoresWeight(servers: seq<Server>, start: nat, c: nat, ok: seq<bool>)
    requires start < |servers| && |ok| == c * |servers|
    requires forall k :: 0 <= k < |ok| ==> ok[k]
    ensures var after := Credited(servers, Rotation(start, |servers|, |ok|), ok);
            forall j :: 0 <= j < |servers| ==>
              after[j] == servers[j].(requestCount := servers[j].requestCount + c)
  {
    var n := |servers|;
    forall j | 0 <= j < n
      ensures Hits(Rotation(start, n, |ok|), ok, j) == c
    {
      HitsAllOk(Rotation(start, n, |ok|), ok, j);
      RotationFairShare(start, n, c, j);
    }
  }

  /**
   `simulate_requests`: `ok[k]` says whether the HTTP call of request `k`
   completed without raising; only then is the chosen server's count raised.
   */
  method SimulateRequests(lb: RoundRobinLoadBalancer, ok: seq<bool>)
    requires lb.Valid() && |lb.servers| > 0
    modifies lb
    ensures lb.Valid() && |lb.servers| == |old(lb.servers)|
    ensures lb.currentIndex == (old(lb.currentIndex) + |ok|) % |lb.servers|
    ensures lb.servers == Credited(old(lb.servers), Rotation(old(lb.currentIndex), |lb.servers|, |ok|), ok)
  {
    ghost var start, before := lb.currentIndex, lb.servers;
    var n := |lb.servers|;
    var k := 0;
    assert Credited(before, [], []) == before;
    while k < |ok|
      invariant 0 <= k <= |ok|
      invariant lb.Valid() && |lb.servers| == n
      invariant lb.currentIndex == Advance(start, n, k)
      invariant lb.servers == Credited(before, Rotation(start, n, k), ok[..k])
    {
      SimulationStep(before, start, k, ok, lb.servers);
      var i := lb.GetNextServer();
      ModSmall(i + 1, n);
      if ok[k] {
        lb.servers := lb.servers[i := lb.servers[i].(requestCount := lb.servers[i].requestCount + 1)];
      }
      k := k + 1;
    }
    assert ok[..k] == ok;
    AdvanceIsMod(start, n, k);
  }
}
