/**
 The server record of the round-robin family and of IP hash: an address, a
 weight and the number of requests the server has been credited with, and
 the effect of crediting a run of picks.
 */
module Servers {
  import opened Tally

  datatype Server = Server(ip: string, port: int, weight: int, requestCount: nat)

  /** The server list after crediting one request per pick. */
  function Credited(servers: seq<Server>, picks: seq<nat>): (r: seq<Server>)
    ensures |r| == |servers|
  {
    seq(|servers|, j requires 0 <= j < |servers| =>
      servers[j].(requestCount := servers[j].requestCount + Occurrences(picks, j)))
  }

  /** One more pick credits its server with one request and leaves every other server as it was. */
  lemma CreditedStep(servers: seq<Server>, picks: seq<nat>, i: nat)
    requires i < |servers|
    ensures var c := Credited(servers, picks);
            Credited(servers, picks + [i]) == c[i := c[i].(requestCount := c[i].requestCount + 1)]
  {
    var c := Credited(servers, picks);
    var d := Credited(servers, picks + [i]);
    forall j | 0 <= j < |servers|
      ensures d[j] == c[i := c[i].(requestCount := c[i].requestCount + 1)][j]
    {
      OccurrencesAppend(picks, i, j);
    }
  }

  /** The per-server `request_count` values. */
  function RequestCounts(servers: seq<Server>): (c: seq<nat>)
    ensures |c| == |servers|
  {
    seq(|servers|, j requires 0 <= j < |servers| => servers[j].requestCount)
  }

  /** Crediting picks that all name a server raises the total of the counts by the number of picks. */
  lemma {:induction false} CreditedTotal(servers: seq<Server>, picks: seq<nat>)
    requires forall k :: 0 <= k < |picks| ==> picks[k] < |servers|
    ensures Sum(RequestCounts(Credited(servers, picks))) == Sum(RequestCounts(servers)) + |picks|
  {
    if picks == [] {
      assert Credited(servers, picks) == servers;
    } else {
      var p, x := picks[..|picks| - 1], picks[|picks| - 1];
      assert picks == p + [x];
      CreditedTotal(servers, p);
      CreditedStep(servers, p, x);
      var c := RequestCounts(Credited(servers, p));
      assert RequestCounts(Credited(servers, picks)) == c[x := c[x] + 1];
      SumUpdate(c, x, c[x] + 1);
    }
  }
}
