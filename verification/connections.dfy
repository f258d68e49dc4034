/**
 The server record and the bookkeeping shared by the least-connection and the
 weighted least-connection balancers: a server counts the connections it is
 serving and the requests it has been given, and can be switched on and off.
 */
module Connections {
  import opened Tally

  datatype Server = Server(ip: string, port: int, weight: int, activeConnections: int, requestCount: nat, active: bool)

  /** A request waiting in the queue: its number and the name of the policy that queued it. */
  datatype Request = Request(number: int, algorithm: string)

  /** A request handed to the server at position `server`, on which a handler thread is started. */
  datatype Dispatch = Dispatch(request: Request, server: nat)

  predicate NoneActive(servers: seq<Server>)
  {
    forall j :: 0 <= j < |servers| ==> !servers[j].active
  }

  /** The chosen server takes one more connection and one more request. */
  function Assign(servers: seq<Server>, i: nat): (r: seq<Server>)
    requires i < |servers|
    ensures |r| == |servers|
    ensures r[i].activeConnections == servers[i].activeConnections + 1
    ensures r[i].requestCount == servers[i].requestCount + 1
    ensures r[i].active == servers[i].active && r[i].weight == servers[i].weight
    ensures forall j :: 0 <= j < |r| && j != i ==> r[j] == servers[j]
  {
    servers[i := servers[i].(activeConnections := servers[i].activeConnections + 1,
                             requestCount := servers[i].requestCount + 1)]
  }

  /** The handler's `finally`: the server gives back one connection. */
  function Release(servers: seq<Server>, i: nat): (r: seq<Server>)
    requires i < |servers|
    ensures |r| == |servers|
    ensures r[i].activeConnections == servers[i].activeConnections - 1
    ensures r[i].requestCount == servers[i].requestCount && r[i].active == servers[i].active
    ensures forall j :: 0 <= j < |r| && j != i ==> r[j] == servers[j]
  {
    servers[i := servers[i].(activeConnections := servers[i].activeConnections - 1)]
  }

  /** The per-server `request_count` values. */
  function RequestCounts(servers: seq<Server>): (c: seq<nat>)
    ensures |c| == |servers|
  {
    seq(|servers|, j requires 0 <= j < |servers| => servers[j].requestCount)
  }

  /** An assignment raises the total of the request counts by exactly one. */
  lemma AssignCountsOne(servers: seq<Server>, i: nat)
    requires i < |servers|
    ensures Sum(RequestCounts(Assign(servers, i))) == Sum(RequestCounts(servers)) + 1
  {
    var c := RequestCounts(servers);
    assert RequestCounts(Assign(servers, i)) == c[i := c[i] + 1];
    SumUpdate(c, i, c[i] + 1);
  }

  /** Assignments leave every server's on/off state as it was. */
  lemma AssignKeepsActive(servers: seq<Server>, i: nat)
    requires i < |servers|
    ensures forall j :: 0 <= j < |servers| ==> Assign(servers, i)[j].active == servers[j].active
  {
  }

  /**
   Releasing the connection an assignment opened restores every connection
   count; what remains is the one request credited to the chosen server.
   */
  lemma ReleaseUndoesAssign(servers: seq<Server>, i: nat)
    requires i < |servers|
    ensures Release(Assign(servers, i), i) == servers[i := servers[i].(requestCount := servers[i].requestCount + 1)]
    ensures forall j :: 0 <= j < |servers| ==>
              Release(Assign(servers, i), i)[j].activeConnections == servers[j].activeConnections
  {
  }

  /**
   The answers to the "Should Server ... be active?" prompts, one per server
   in list order, become the servers' on/off states.
   */
  method ApplyStates(servers: seq<Server>, states: seq<bool>) returns (r: seq<Server>)
    requires |states| == |servers|
    ensures |r| == |servers|
    ensures forall j :: 0 <= j < |r| ==> r[j].active == states[j]
    ensures forall j :: 0 <= j < |r| ==> r[j] == servers[j].(active := r[j].active)
  {
    r := servers;
    for k := 0 to |servers|
      invariant |r| == |servers|
      invariant forall j :: 0 <= j < k ==> r[j] == servers[j].(active := states[j])
      invariant forall j :: k <= j < |r| ==> r[j] == servers[j]
    {
      r := r[k := r[k].(active := states[k])];
    }
  }
}
