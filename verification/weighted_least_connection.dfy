/**
 The weighted least-connection balancer: among the servers that are switched
 on, the one with the smallest ratio of open connections to weight takes the
 next request, the earliest in list order winning a tie. Ratios are compared
 exactly, by cross-multiplying with the (positive) weights. Requests that find
 no server switched on wait in a first-in first-out queue until it is drained.
 */
module WeightedLeastConnection {
  import opened Wrappers
  import opened Tally
  import opened Connections

  /** The weight of every switched-on server is positive, so its load ratio is defined. */
  predicate ActiveWeightsPositive(servers: seq<Server>)
  {
    forall j :: 0 <= j < |servers| && servers[j].active ==> servers[j].weight > 0
  }

  /** `a`'s load `active_connections / weight` is strictly below `b`'s. */
  predicate Lighter(a: Server, b: Server)
  {
    a.activeConnections * b.weight < b.activeConnections * a.weight
  }

  lemma MulLess(x: int, y: int, c: int)
    requires c > 0 && x < y
    ensures x * c < y * c
  {
  }

  lemma MulAtMost(x: int, y: int, c: int)
    requires c > 0 && x <= y
    ensures x * c <= y * c
  {
  }

  /** A load strictly below one that is at most a third is strictly below the third. */
  lemma {:induction false} LighterThrough(z: Server, x: Server, y: Server)
    requires x.weight > 0 && y.weight > 0 && z.weight > 0
    requires Lighter(z, x) && !Lighter(y, x)
    ensures Lighter(z, y)
  {
    MulLess(z.activeConnections * x.weight, x.activeConnections * z.weight, y.weight);
    MulAtMost(x.activeConnections * y.weight, y.activeConnections * x.weight, z.weight);
    assert (z.activeConnections * y.weight) * x.weight < (y.activeConnections * z.weight) * x.weight;
    if z.activeConnections * y.weight >= y.activeConnections * z.weight {
      MulAtMost(y.activeConnections * z.weight, z.activeConnections * y.weight, x.weight);
    }
  }

  /** A load at most a second one that is at most a third is at most the third. */
  lemma {:induction false} NotLighterThrough(z: Server, x: Server, y: Server)
    requires x.weight > 0 && y.weight > 0 && z.weight > 0
    requires !Lighter(x, z) && !Lighter(y, x)
    ensures !Lighter(y, z)
  {
    MulAtMost(z.activeConnections * x.weight, x.activeConnections * z.weight, y.weight);
    MulAtMost(x.activeConnections * y.weight, y.activeConnections * x.weight, z.weight);
    assert (z.activeConnections * y.weight) * x.weight <= (y.activeConnections * z.weight) * x.weight;
    if z.activeConnections * y.weight > y.activeConnections * z.weight {
      MulLess(y.activeConnections * z.weight, z.activeConnections * y.weight, x.weight);
    }
  }

  /**
   Server `i` is the one `get_next_server` picks: it is switched on, no active
   server has a smaller load, and every active server before it has a larger
   one (the update needs `load < least_load`).
   */
  predicate IsLeastRatio(servers: seq<Server>, i: nat)
  {
    && i < |servers|
    && servers[i].active
    && (forall j :: 0 <= j < |servers| && servers[j].active ==> !Lighter(servers[j], servers[i]))
    && (forall j :: 0 <= j < i && servers[j].active ==> Lighter(servers[i], servers[j]))
  }

  /** The selection rule of `get_next_server`, as a scan over the list. */
  function LeastRatio(servers: seq<Server>): (r: Option<nat>)
    requires ActiveWeightsPositive(servers)
    ensures r.None? <==> NoneActive(servers)
    ensures r.Some? ==> IsLeastRatio(servers, r.value)
  {
    if |servers| == 0 then None
    else
      var last := |servers| - 1;
      var best := LeastRatio(servers[..last]);
      if !servers[last].active then best
      else if best.None? || Lighter(servers[last], servers[best.value]) then
        LeastRatioStep(servers, best);
        Some(last)
      else
        LeastRatioKeep(servers, best.value);
        best
  }

  /** A last server lighter than the best of the others beats every one of them. */
  lemma LeastRatioStep(servers: seq<Server>, best: Option<nat>)
    requires ActiveWeightsPositive(servers) && |servers| > 0 && servers[|servers| - 1].active
    requires best.None? <==> NoneActive(servers[..|servers| - 1])
    requires best.Some? ==> IsLeastRatio(servers[..|servers| - 1], best.value)
    requires best.Some? ==> Lighter(servers[|servers| - 1], servers[best.value])
    ensures IsLeastRatio(servers, |servers| - 1)
  {
    var last := |servers| - 1;
    forall j | 0 <= j < last && servers[j].active
      ensures Lighter(servers[last], servers[j])
    {
      assert servers[..last][j] == servers[j];
      LighterThrough(servers[last], servers[best.value], servers[j]);
    }
  }

  /** A last server no lighter than the best of the others leaves that best in place. */
  lemma LeastRatioKeep(servers: seq<Server>, b: nat)
    requires ActiveWeightsPositive(servers) && |servers| > 0 && servers[|servers| - 1].active
    requires IsLeastRatio(servers[..|servers| - 1], b)
    requires !Lighter(servers[|servers| - 1], servers[b])
    ensures IsLeastRatio(servers, b)
  {
    var last := |servers| - 1;
    forall j | 0 <= j < |servers| && servers[j].active
      ensures !Lighter(servers[j], servers[b])
    {
      if j < last {
        assert servers[..last][j] == servers[j];
      }
    }
  }

  /** The rule picks out one server: whichever satisfies `IsLeastRatio` is the one chosen. */
  lemma LeastRatioUnique(servers: seq<Server>, i: nat)
    requires ActiveWeightsPositive(servers) && IsLeastRatio(servers, i)
    ensures LeastRatio(servers) == Some(i)
  {
  }

  /**
   `process_queued_requests`: each request, taken from the head of the queue,
   goes to the server the rule picks at that moment; a request that finds no
   server switched on is dropped.
   */
  function Drain(servers: seq<Server>, queue: seq<Request>): (r: (seq<Server>, seq<Dispatch>))
    requires ActiveWeightsPositive(servers)
    ensures |r.0| == |servers|
    ensures |r.1| <= |queue|
    ensures forall k :: 0 <= k < |r.1| ==> r.1[k].server < |servers|
    decreases |queue|
  {
    if queue == [] then (servers, [])
    else
      match LeastRatio(servers)
      case None => Drain(servers, queue[1..])
      case Some(i) =>
        var rest := Drain(Assign(servers, i), queue[1..]);
        (rest.0, [Dispatch(queue[0], i)] + rest.1)
  }

  /** With every server switched off, draining drops every request and changes nothing. */
  lemma {:induction false} DrainWhenNoneActive(servers: seq<Server>, queue: seq<Request>)
    requires ActiveWeightsPositive(servers) && NoneActive(servers)
    ensures Drain(servers, queue) == (servers, [])
    decreases |queue|
  {
    if queue != [] {
      DrainWhenNoneActive(servers, queue[1..]);
    }
  }

  /**
   With a server switched on, draining dispatches every queued request, in
   queue order, each to a server of the list.
   */
  lemma {:induction false} DrainServesInOrder(servers: seq<Server>, queue: seq<Request>)
    requires ActiveWeightsPositive(servers) && !NoneActive(servers)
    ensures |Drain(servers, queue).1| == |queue|
    ensures forall k :: 0 <= k < |queue| ==>
              Drain(servers, queue).1[k].request == queue[k] && Drain(servers, queue).1[k].server < |servers|
    decreases |queue|
  {
    if queue != [] {
      var i := LeastRatio(servers).value;
      AssignKeepsActive(servers, i);
      var next := Assign(servers, i);
      assert !NoneActive(next) by {
        var j :| 0 <= j < |servers| && servers[j].active;
        assert next[j].active;
      }
      DrainServesInOrder(next, queue[1..]);
      var d := Drain(servers, queue).1;
      forall k | 0 <= k < |queue|
        ensures d[k].request == queue[k] && d[k].server < |servers|
      {
        if k > 0 {
          assert d[k] == Drain(next, queue[1..]).1[k - 1];
        }
      }
    }
  }

  /** Every dispatched request is credited to its server once: the request counts rise by the number dispatched. */
  lemma {:induction false} DrainCounts(servers: seq<Server>, queue: seq<Request>)
    requires ActiveWeightsPositive(servers)
    ensures Sum(RequestCounts(Drain(servers, queue).0)) == Sum(RequestCounts(servers)) + |Drain(servers, queue).1|
    decreases |queue|
  {
    if queue != [] {
      match LeastRatio(servers)
      case None =>
        DrainCounts(servers, queue[1..]);
      case Some(i) =>
        DrainCounts(Assign(servers, i), queue[1..]);
        AssignCountsOne(servers, i);
    }
  }

  class WeightedLeastConnectionLoadBalancer {
    var servers: seq<Server>
    var requestQueue: seq<Request>

    constructor (servers: seq<Server>)
      ensures this.servers == servers && requestQueue == []
    {
      this.servers := servers;
      requestQueue := [];
    }

    /**
     Returns the position of the chosen server, or `None` when no server is
     switched on. The scan keeps the lightest server seen so far, replacing it
     only on a strictly smaller load; only the chosen server's two counters change.
     */
    method GetNextServer() returns (r: Option<nat>)
      requires ActiveWeightsPositive(servers)
      modifies this
      ensures r == LeastRatio(old(servers))
      ensures servers == if r.Some? then Assign(old(servers), r.value) else old(servers)
      ensures requestQueue == old(requestQueue)
    {
      if NoneActive(servers) {
        return None;
      }
      r := None;
      for k := 0 to |servers|
        invariant r == LeastRatio(servers[..k])
      {
        assert servers[..k + 1][..k] == servers[..k];
        if servers[k].active && (r.None? || Lighter(servers[k], servers[r.value])) {
          r := Some(k);
        }
      }
      assert servers[..|servers|] == servers;
      var i := r.value;
      servers := servers[i := servers[i].(activeConnections := servers[i].activeConnections + 1)];
      servers := servers[i := servers[i].(requestCount := servers[i].requestCount + 1)];
    }

    /** The request joins the tail of the queue. */
    method QueueRequest(request: Request)
      modifies this
      ensures requestQueue == old(requestQueue) + [request]
      ensures servers == old(servers)
    {
      requestQueue := requestQueue + [request];
    }

    /**
     Pops requests from the head until the queue is empty, handing each to
     `GetNextServer`; returns the requests on which a handler was started.
     */
    method ProcessQueuedRequests() returns (dispatched: seq<Dispatch>)
      requires ActiveWeightsPositive(servers)
      modifies this
      ensures requestQueue == []
      ensures (servers, dispatched) == Drain(old(servers), old(requestQueue))
    {
      ghost var goal := Drain(servers, requestQueue);
      dispatched := [];
      while requestQueue != []
        invariant ActiveWeightsPositive(servers)
        invariant Drain(servers, requestQueue).0 == goal.0
        invariant dispatched + Drain(servers, requestQueue).1 == goal.1
        decreases |requestQueue|
      {
        var request := requestQueue[0];
        requestQueue := requestQueue[1..];
        var r := GetNextServer();
        if r.Some? {
          dispatched := dispatched + [Dispatch(request, r.value)];
        }
      }
      assert dispatched + [] == dispatched;
    }

    /** The `finally` of `handle_request`: the server gives back the connection it was handed. */
    method ReleaseConnection(i: nat)
      requires i < |servers|
      modifies this
      ensures servers == Release(old(servers), i)
      ensures requestQueue == old(requestQueue)
    {
      servers := servers[i := servers[i].(activeConnections := servers[i].activeConnections - 1)];
    }

    /** `set_server_states_after_wait`: one answer per server switches it on or off. */
    method SetServerStates(states: seq<bool>)
      requires |states| == |servers|
      modifies this
      ensures |servers| == |old(servers)|
      ensures forall j :: 0 <= j < |servers| ==> servers[j] == old(servers)[j].(active := states[j])
      ensures requestQueue == old(requestQueue)
    {
      servers := ApplyStates(servers, states);
    }
  }
}
