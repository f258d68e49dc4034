/**
 Weighted round robin (WeightedRoundRobin/load_balancer.py): the balancer
 keeps `current_index` and `current_weight`; each server receives `weight`
 consecutive requests before the index moves on. `GetNextServer` returns the
 position of the chosen server in the list.
 */
module WeightedRoundRobin {
  import opened Tally
  import opened Modular
  import opened Servers

  function Weights(servers: seq<Server>): (ws: seq<int>)
    ensures |ws| == |servers|
    ensures forall i :: 0 <= i < |servers| ==> ws[i] == servers[i].weight
  {
    seq(|servers|, i requires 0 <= i < |servers| => servers[i].weight)
  }

  /** A non-empty list in which every server has weight at least 1. */
  predicate PositiveWeights(ws: seq<int>)
  {
    |ws| > 0 && forall i :: 0 <= i < |ws| ==> ws[i] >= 1
  }

  /** `max(server.weight for server in servers)`. */
  function MaxWeight(ws: seq<int>): (m: int)
    requires |ws| > 0
    ensures exists i :: 0 <= i < |ws| && ws[i] == m
    ensures forall i :: 0 <= i < |ws| ==> ws[i] <= m
  {
    if |ws| == 1 then ws[0]
    else
      var rest := MaxWeight(ws[..|ws| - 1]);
      if ws[|ws| - 1] > rest then ws[|ws| - 1] else rest
  }

  // ---------------------------------------------------------------------------
  // Specification of the state machine

  /** The balancer's state: `current_index` and `current_weight`. */
  datatype Cursor = Cursor(index: nat, weight: nat)

  /** `current_index` names a server and `current_weight` has not passed its weight. */
  predicate InRange(ws: seq<int>, c: Cursor)
  {
    c.index < |ws| && c.weight <= ws[c.index]
  }

  /**
   The state after one call of `get_next_server`; the server it returns is at
   the new index. Either the current server still has weight left, or the
   weight is reset and the next server (whose weight is at least 1) is chosen.
   The state machine never reads `max_weight`.
   */
  function Step(ws: seq<int>, c: Cursor): (d: Cursor)
    requires PositiveWeights(ws) && InRange(ws, c)
    ensures InRange(ws, d) && d.weight >= 1
  {
    if c.weight < ws[c.index] then Cursor(c.index, c.weight + 1)
    else Cursor(if c.index + 1 == |ws| then 0 else c.index + 1, 1)
  }

  /** The state after `k` calls. */
  function After(ws: seq<int>, c: Cursor, k: nat): (d: Cursor)
    requires PositiveWeights(ws) && InRange(ws, c)
    ensures InRange(ws, d)
  {
    if k == 0 then c else Step(ws, After(ws, c, k - 1))
  }

  /** The positions returned by `k` consecutive calls from state `c`. */
  function Schedule(ws: seq<int>, c: Cursor, k: nat): (r: seq<nat>)
    requires PositiveWeights(ws) && InRange(ws, c)
    ensures |r| == k
  {
    if k == 0 then [] else Schedule(ws, c, k - 1) + [After(ws, c, k).index]
  }

  /** `w` copies of position `i`. */
  function Repeat(i: nat, w: nat): (r: seq<nat>)
    ensures |r| == w && forall k :: 0 <= k < w ==> r[k] == i
  {
    seq(w, _ => i)
  }

  /** Server `i` repeated `weight_i` times, then server `i + 1`, ... up to the last server. */
  function Blocks(ws: seq<int>, i: nat): seq<nat>
    requires PositiveWeights(ws) && i <= |ws|
    decreases |ws| - i
  {
    if i == |ws| then [] else Repeat(i, ws[i]) + Blocks(ws, i + 1)
  }

  /** Sum of the weights from server `i` on. */
  function TotalWeight(ws: seq<int>, i: nat): (t: nat)
    requires PositiveWeights(ws) && i <= |ws|
    ensures i < |ws| ==> t >= ws[i]
    decreases |ws| - i
  {
    if i == |ws| then 0 else ws[i] + TotalWeight(ws, i + 1)
  }

  // ---------------------------------------------------------------------------
  // The schedule

  /** Running `a + b` calls is running `a` calls, then `b` more from where they left off. */
  lemma {:induction false} ScheduleSplit(ws: seq<int>, c: Cursor, a: nat, b: nat)
    requires PositiveWeights(ws) && InRange(ws, c)
    ensures After(ws, c, a + b) == After(ws, After(ws, c, a), b)
    ensures Schedule(ws, c, a + b) == Schedule(ws, c, a) + Schedule(ws, After(ws, c, a), b)
  {
    if b > 0 {
      ScheduleSplit(ws, c, a, b - 1);
    }
  }

  /** Two states that lead to the same next state give the same future. */
  lemma {:induction false} SameStepSameRun(ws: seq<int>, c1: Cursor, c2: Cursor, k: nat)
    requires PositiveWeights(ws) && InRange(ws, c1) && InRange(ws, c2)
    requires Step(ws, c1) == Step(ws, c2)
    ensures k >= 1 ==> After(ws, c1, k) == After(ws, c2, k)
    ensures Schedule(ws, c1, k) == Schedule(ws, c2, k)
  {
    if k > 1 {
      SameStepSameRun(ws, c1, c2, k - 1);
    }
  }

  /** From `(i, w)`, server `i` is returned until its weight is used up. */
  lemma {:induction false} BlockRun(ws: seq<int>, i: nat, w: nat, k: nat)
    requires PositiveWeights(ws) && i < |ws| && w + k <= ws[i]
    ensures After(ws, Cursor(i, w), k) == Cursor(i, w + k)
    ensures Schedule(ws, Cursor(i, w), k) == Repeat(i, k)
  {
    if k > 0 {
      BlockRun(ws, i, w, k - 1);
    }
  }

  /**
   From `(i, 0)`, the remaining weights of servers `i..` are served in
   blocks, ending on the last server with its weight used up.
   */
  lemma {:induction false} BlocksFrom(ws: seq<int>, i: nat)
    requires PositiveWeights(ws) && i < |ws|
    ensures Schedule(ws, Cursor(i, 0), TotalWeight(ws, i)) == Blocks(ws, i)
    ensures After(ws, Cursor(i, 0), TotalWeight(ws, i)) == Cursor(|ws| - 1, ws[|ws| - 1])
    decreases |ws| - i
  {
    var c, w := Cursor(i, 0), ws[i];
    var t := TotalWeight(ws, i + 1);
    assert TotalWeight(ws, i) == w + t;
    ScheduleSplit(ws, c, w, t);
    BlockRun(ws, i, 0, w);
    assert After(ws, c, w) == Cursor(i, w);
    if i + 1 < |ws| {
      BlocksFrom(ws, i + 1);
      assert Step(ws, Cursor(i, w)) == Cursor(i + 1, 1) == Step(ws, Cursor(i + 1, 0));
      SameStepSameRun(ws, Cursor(i, w), Cursor(i + 1, 0), t);
      calc {
        Schedule(ws, c, w + t);
        Schedule(ws, c, w) + Schedule(ws, Cursor(i, w), t);
        Repeat(i, w) + Schedule(ws, Cursor(i + 1, 0), t);
        Repeat(i, w) + Blocks(ws, i + 1);
      }
      assert After(ws, c, w + t) == After(ws, Cursor(i + 1, 0), t);
    } else {
      assert t == 0 && Blocks(ws, i + 1) == [];
      assert Schedule(ws, c, w + t) == Repeat(i, w) + [];
    }
  }

  /**
   From the initial state `(0, 0)`, the first `W` calls (`W` the sum of the
   weights) return server 0 `weight_0` times, then server 1 `weight_1`
   times, and so on; the schedule then repeats with period `W`.
   */
  lemma SchedulePeriodic(ws: seq<int>, k: nat)
    requires PositiveWeights(ws)
    ensures Schedule(ws, Cursor(0, 0), TotalWeight(ws, 0)) == Blocks(ws, 0)
    ensures Schedule(ws, Cursor(0, 0), TotalWeight(ws, 0) + k)
            == Blocks(ws, 0) + Schedule(ws, Cursor(0, 0), k)
    ensures k >= 1 ==> After(ws, Cursor(0, 0), TotalWeight(ws, 0) + k) == After(ws, Cursor(0, 0), k)
  {
    var c0, n := Cursor(0, 0), |ws|;
    BlocksFrom(ws, 0);
    ScheduleSplit(ws, c0, TotalWeight(ws, 0), k);
    SameStepSameRun(ws, Cursor(n - 1, ws[n - 1]), c0, k);
  }

  /** Over one period every server is returned exactly `weight` times. */
  lemma {:induction false} BlocksShare(ws: seq<int>, i: nat, j: nat)
    requires PositiveWeights(ws) && i <= |ws| && j < |ws|
    ensures Occurrences(Blocks(ws, i), j) == if i <= j then ws[j] else 0
    decreases |ws| - i
  {
    if i < |ws| {
      BlocksShare(ws, i + 1, j);
      OccurrencesConcat(Repeat(i, ws[i]), Blocks(ws, i + 1), j);
      RepeatCount(i, ws[i], j);
    }
  }

  lemma {:induction false} RepeatCount(i: nat, w: nat, j: nat)
    ensures Occurrences(Repeat(i, w), j) == if i == j then w else 0
  {
    if w > 0 {
      assert Repeat(i, w)[..w - 1] == Repeat(i, w - 1);
      RepeatCount(i, w - 1, j);
    }
  }

  // ---------------------------------------------------------------------------
  // The balancer

  class WeightedRoundRobinLoadBalancer {
    var servers: seq<Server>
    var currentIndex: nat
    var currentWeight: nat
    var maxWeight: int

    ghost function State(): Cursor
      reads this
    {
      Cursor(currentIndex, currentWeight)
    }

    ghost predicate Valid()
      reads this
    {
      PositiveWeights(Weights(servers)) && InRange(Weights(servers), State())
    }

    /** `max` of an empty list raises, so the list must not be empty; weights are at least 1. */
    constructor (servers: seq<Server>)
      requires PositiveWeights(Weights(servers))
      ensures Valid()
      ensures this.servers == servers && State() == Cursor(0, 0)
      ensures exists i :: 0 <= i < |servers| && servers[i].weight == maxWeight
      ensures forall i :: 0 <= i < |servers| ==> servers[i].weight <= maxWeight
    {
      this.servers := servers;
      currentIndex := 0;
      currentWeight := 0;
      maxWeight := MaxWeight(Weights(servers));
    }

    /**
     Returns the position of the chosen server. The loop resets the weight
     and moves to the next server (`resets`) at most once before returning,
     and does so exactly when the current server's weight was used up.
     */
    method GetNextServer() returns (i: nat, ghost resets: nat)
      requires Valid()
      modifies this
      ensures Valid() && servers == old(servers) && maxWeight == old(maxWeight)
      ensures State() == Step(Weights(servers), old(State()))
      ensures i == currentIndex && 1 <= currentWeight <= servers[i].weight
      ensures resets <= 1 && (resets == 1 <==> old(currentWeight) >= servers[old(currentIndex)].weight)
    {
      resets := 0;
      while true
        invariant Valid() && servers == old(servers) && maxWeight == old(maxWeight)
        invariant resets == 0 ==> State() == old(State())
        invariant resets == 1 ==> currentWeight == 0 && old(currentWeight) >= servers[old(currentIndex)].weight
                                  && currentIndex == (old(currentIndex) + 1) % |servers|
        invariant resets <= 1
        decreases 2 - resets
      {
        var server := servers[currentIndex];
        if currentWeight < server.weight {
          currentWeight := currentWeight + 1;
          ModSmall(old(currentIndex) + 1, |servers|);
          return currentIndex, resets;
        }
        currentWeight := 0;
        currentIndex := (currentIndex + 1) % |servers|;
        resets := resets + 1;
      }
    }
  }

  /** Crediting requests never changes a weight. */
  lemma {:induction false} CreditedWeights(servers: seq<Server>, picks: seq<nat>)
    ensures Weights(Credited(servers, picks)) == Weights(servers)
  {
  }

  /** With at least `k` leading successes, request `k` decides whether there are more. */
  lemma {:induction false} LeadingSuccessesNext(ok: seq<bool>, k: nat)
    requires k < |ok| && LeadingSuccesses(ok) >= k
    ensures if ok[k] then LeadingSuccesses(ok) > k else LeadingSuccesses(ok) == k
  {
    if k > 0 {
      LeadingSuccessesNext(ok[1..], k - 1);
    }
  }

  /**
   One turn of the loop in `simulate_requests`: the call to
   `get_next_server` moves the cursor one step, and the request is credited
   to the chosen server when its HTTP call (`answered`) succeeds.
   */
  method Serve(lb: WeightedRoundRobinLoadBalancer, ghost before: seq<Server>, ghost c0: Cursor, ghost k: nat, answered: bool)
    requires PositiveWeights(Weights(before)) && InRange(Weights(before), c0)
    requires lb.Valid() && lb.State() == After(Weights(before), c0, k)
    requires lb.servers == Credited(before, Schedule(Weights(before), c0, k))
    modifies lb
    ensures lb.Valid() && lb.maxWeight == old(lb.maxWeight)
    ensures lb.State() == After(Weights(before), c0, k + 1)
    ensures lb.servers == if answered then Credited(before, Schedule(Weights(before), c0, k + 1)) else old(lb.servers)
  {
    ghost var ws := Weights(before);
    CreditedStep(before, Schedule(ws, c0, k), After(ws, c0, k + 1).index);
    CreditedWeights(before, Schedule(ws, c0, k));
    CreditedWeights(before, Schedule(ws, c0, k + 1));
    var i, _ := lb.GetNextServer();
    if answered {
      lb.servers := lb.servers[i := lb.servers[i].(requestCount := lb.servers[i].requestCount + 1)];
    }
  }

  /** Number of leading requests whose HTTP call succeeded. */
  function LeadingSuccesses(ok: seq<bool>): (r: nat)
    ensures r <= |ok|
  {
    if ok == [] || !ok[0] then 0 else 1 + LeadingSuccesses(ok[1..])
  }

  /** `k` is the number of leading successes exactly when requests before `k` succeeded and request `k` (if any) failed. */
  lemma {:induction false} LeadingSuccessesIs(ok: seq<bool>, k: nat)
    requires k <= |ok|
    ensures LeadingSuccesses(ok) == k <==> (forall j :: 0 <= j < k ==> ok[j]) && (k < |ok| ==> !ok[k])
  {
    if ok != [] && ok[0] && k > 0 {
      LeadingSuccessesIs(ok[1..], k - 1);
      assert (forall j :: 0 <= j < k ==> ok[j]) <==> (forall j :: 0 <= j < k - 1 ==> ok[1..][j]) by {
        if forall j :: 0 <= j < k - 1 ==> ok[1..][j] {
          forall j | 0 <= j < k ensures ok[j] {
            if j > 0 { assert ok[j] == ok[1..][j - 1]; }
          }
        }
      }
    }
  }

  /**
   `simulate_requests`: `ok[k]` says whether the HTTP call of request `k`
   succeeded. The call is not guarded, so the first failure raises out of
   the loop after `get_next_server` has already moved the state; `served`
   is the number of requests credited.
   */
  method SimulateRequests(lb: WeightedRoundRobinLoadBalancer, ok: seq<bool>) returns (served: nat)
    requires lb.Valid()
    modifies lb
    ensures lb.Valid() && Weights(lb.servers) == Weights(old(lb.servers)) && lb.maxWeight == old(lb.maxWeight)
    ensures served == LeadingSuccesses(ok)
    ensures lb.State() == After(Weights(lb.servers), old(lb.State()), if served < |ok| then served + 1 else served)
    ensures lb.servers == Credited(old(lb.servers), Schedule(Weights(lb.servers), old(lb.State()), served))
  {
    ghost var c0, before := lb.State(), lb.servers;
    ghost var ws := Weights(lb.servers);
    served := 0;
    assert Credited(before, []) == before;
    while served < |ok|
      invariant served <= LeadingSuccesses(ok)
      invariant lb.Valid() && lb.maxWeight == old(lb.maxWeight)
      invariant lb.State() == After(ws, c0, served)
      invariant lb.servers == Credited(before, Schedule(ws, c0, served))
    {
      Serve(lb, before, c0, served, ok[served]);
      LeadingSuccessesNext(ok, served);
      if !ok[served] {
        CreditedWeights(before, Schedule(ws, c0, served));
        return;
      }
      served := served + 1;
    }
    CreditedWeights(before, Schedule(ws, c0, served));
  }
}
