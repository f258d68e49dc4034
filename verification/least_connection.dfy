/**
 The least-connection balancer: among the servers that are switched on, the
 one with the fewest open connections takes the next request, the earliest in
 list order winning a tie. Requests that find no server switched on wait in a
 first-in first-out queue until it is drained.
 */
module LeastConnection {
  import opened Wrappers
  import opened Tally
  import opened Connections

  /**
   Server `i` is what `min(active_servers, key=active_connections)` returns:
   it is switched on, no active server has fewer connections, and every active
   server before it has strictly more (`min` keeps the first minimum).
   */
  predicate IsLeastLoaded(servers: seq<Server>, i: nat)
  {
    && i < |servers|
    && servers[i].active
    && (forall j :: 0 <= j < |servers| && servers[j].active ==>
          servers[i].activeConnections <= servers[j].activeConnections)
    && (forall j :: 0 <= j < i && servers[j].active ==>
          servers[i].activeConnections < servers[j].activeConnections)
  }

  /** The selection rule of `get_next_server`, as a scan over the list. */
  function LeastLoaded(servers: seq<Server>): (r: Option<nat>)
    ensures r.None? <==> NoneActive(servers)
    ensures r.Some? ==> IsLeastLoaded(servers, r.value)
  {
    if |servers| == 0 then None
    else
      var last := |servers| - 1;
      var best := LeastLoaded(servers[..last]);
      if !servers[last].active then best
      else if best.None? || servers[last].activeConnections < servers[best.value].activeConnections then Some(last)
      else best
  }

  /** The rule picks out one server: whichever satisfies `IsLeastLoaded` is the one chosen. */
  lemma LeastLoadedUnique(servers: seq<Server>, i: nat)
    requires IsLeastLoaded(servers, i)
    ensures LeastLoaded(servers) == Some(i)
  {
  }

  /**
   `process_queued_requests`: each request, taken from the head of the queue,
   goes to the server the rule picks at that moment; a request that finds no
   server switched on is dropped. The result is the new server list and the
   requests dispatched, in order.
   */
  function Drain(servers: seq<Server>, queue: seq<Request>): (r: (seq<Server>, seq<Dispatch>))
    ensures |r.0| == |servers|
    ensures |r.1| <= |queue|
    ensures forall k :: 0 <= k < |r.1| ==> r.1[k].server < |servers|
    decreases |queue|
  {
    if queue == [] then (servers, [])
    else
      match LeastLoaded(servers)
      case None => Drain(servers, queue[1..])
      case Some(i) =>
        var rest := Drain(Assign(servers, i), queue[1..]);
        (rest.0, [Dispatch(queue[0], i)] + rest.1)
  }

  /** With every server switched off, draining drops every request and changes nothing. */
  lemma {:induction false} DrainWhenNoneActive(servers: seq<Server>, queue: seq<Request>)
    requires NoneActive(servers)
    ensures Drain(servers, queue) == (servers, [])
    decreases |queue|
  {
    if queue != [] {
      DrainWhenNoneActive(servers, queue[1..]);
    }
  }

  /**
   With a server switched on, draining dispatches every queued request, in
   queue order, each to a server of the list.
   */
  lemma {:induction false} DrainServesInOrder(servers: seq<Server>, queue: seq<Request>)
    requires !NoneActive(servers)
    ensures |Drain(servers, queue).1| == |queue|
    ensures forall k :: 0 <= k < |queue| ==>
              Drain(servers, queue).1[k].request == queue[k] && Drain(servers, queue).1[k].server < |servers|
    decreases |queue|
  {
    if queue != [] {
      var i := LeastLoaded(servers).value;
      AssignKeepsActive(servers, i);
      var next := Assign(servers, i);
      assert !NoneActive(next) by {
        var j :| 0 <= j < |servers| && servers[j].active;
        assert next[j].active;
      }
      DrainServesInOrder(next, queue[1..]);
      var d := Drain(servers, queue).1;
      forall k | 0 <= k < |queue|
        ensures d[k].request == queue[k] && d[k].server < |servers|
      {
        if k > 0 {
          assert d[k] == Drain(next, queue[1..]).1[k - 1];
        }
      }
    }
  }

  /** Every dispatched request is credited to its server once: the request counts rise by the number dispatched. */
  lemma {:induction false} DrainCounts(servers: seq<Server>, queue: seq<Request>)
    ensures Sum(RequestCounts(Drain(servers, queue).0)) == Sum(RequestCounts(servers)) + |Drain(servers, queue).1|
    decreases |queue|
  {
    if queue != [] {
      match LeastLoaded(servers)
      case None =>
        DrainCounts(servers, queue[1..]);
      case Some(i) =>
        DrainCounts(Assign(servers, i), queue[1..]);
        AssignCountsOne(servers, i);
    }
  }

  class LeastConnectionLoadBalancer {
    var servers: seq<Server>
    var requestQueue: seq<Request>

    constructor (servers: seq<Server>)
      ensures this.servers == servers && requestQueue == []
    {
      this.servers := servers;
      requestQueue := [];
    }

    /**
     Returns the position of the chosen server, or `None` when no server is
     switched on; only the chosen server's two counters change.
     */
    method GetNextServer() returns (r: Option<nat>)
      modifies this
      ensures r == LeastLoaded(old(servers))
      ensures servers == if r.Some? then Assign(old(servers), r.value) else old(servers)
      ensures requestQueue == old(requestQueue)
    {
      r := LeastLoaded(servers);
      if r.Some? {
        var i := r.value;
        servers := servers[i := servers[i].(activeConnections := servers[i].activeConnections + 1)];
        servers := servers[i := servers[i].(requestCount := servers[i].requestCount + 1)];
      }
    }

    /** The request joins the tail of the queue. */
    method QueueRequest(request: Request)
      modifies this
      ensures requestQueue == old(requestQueue) + [request]
      ensures servers == old(servers)
    {
      requestQueue := requestQueue + [request];
    }

    /**
     Pops requests from the head until the queue is empty, handing each to
     `GetNextServer`; returns the requests on which a handler was started.
     */
    method ProcessQueuedRequests() returns (dispatched: seq<Dispatch>)
      modifies this
      ensures requestQueue == []
      ensures (servers, dispatched) == Drain(old(servers), old(requestQueue))
    {
      ghost var goal := Drain(servers, requestQueue);
      dispatched := [];
      while requestQueue != []
        invariant Drain(servers, requestQueue).0 == goal.0
        invariant dispatched + Drain(servers, requestQueue).1 == goal.1
        decreases |requestQueue|
      {
        var request := requestQueue[0];
        requestQueue := requestQueue[1..];
        var r := GetNextServer();
        if r.Some? {
          dispatched := dispatched + [Dispatch(request, r.value)];
        }
      }
      assert dispatched + [] == dispatched;
    }

    /** The `finally` of `handle_request`: the server gives back the connection it was handed. */
    method ReleaseConnection(i: nat)
      requires i < |servers|
      modifies this
      ensures servers == Release(old(servers), i)
      ensures requestQueue == old(requestQueue)
    {
      servers := servers[i := servers[i].(activeConnections := servers[i].activeConnections - 1)];
    }

    /** `set_server_states_after_wait`: one answer per server switches it on or off. */
    method SetServerStates(states: seq<bool>)
      requires |states| == |servers|
      modifies this
      ensures |servers| == |old(servers)|
      ensures forall j :: 0 <= j < |servers| ==> servers[j] == old(servers)[j].(active := states[j])
      ensures requestQueue == old(requestQueue)
    {
      servers := ApplyStates(servers, states);
    }
  }
}
