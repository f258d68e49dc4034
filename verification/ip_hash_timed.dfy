/**
 IP hash with response times (IPHash/load_balancer_2.py): the same choice of
 server as `IPHash`, and each server also keeps the response times of the
 requests it answered. A response time is an input of the model (an outcome
 per request), since it is measured on the clock.
 */
module IPHashTimed {
  import opened Tally
  import IPHash

  datatype Server = Server(ip: string, port: int, weight: int, requestCount: nat, responseTimes: seq<real>)

  /** What the HTTP call of one request did: it answered after `seconds`, or raised a `RequestException`. */
  datatype Outcome = Answered(seconds: real) | Failed

  /** Every logged response time belongs to a counted request. */
  predicate TimesCounted(servers: seq<Server>)
  {
    forall j :: 0 <= j < |servers| ==> |servers[j].responseTimes| <= servers[j].requestCount
  }

  /** The response times, in request order, of the answered requests among `picks` that went to server `j`. */
  function Answers(picks: seq<nat>, outcomes: seq<Outcome>, j: nat): (times: seq<real>)
    requires |outcomes| == |picks|
    ensures |times| <= Occurrences(picks, j)
  {
    if |picks| == 0 then []
    else
      var last := |picks| - 1;
      Answers(picks[..last], outcomes[..last], j)
      + (if picks[last] == j && outcomes[last].Answered? then [outcomes[last].seconds] else [])
  }

  /** When every request is answered, server `j` logs one time per request it got. */
  lemma {:induction false} AnswersAllAnswered(picks: seq<nat>, outcomes: seq<Outcome>, j: nat)
    requires |outcomes| == |picks| && forall k :: 0 <= k < |outcomes| ==> outcomes[k].Answered?
    ensures |Answers(picks, outcomes, j)| == Occurrences(picks, j)
  {
    if |picks| > 0 {
      AnswersAllAnswered(picks[..|picks| - 1], outcomes[..|picks| - 1], j);
    }
  }

  /** A server that was sent no answered request logs nothing. */
  lemma {:induction false} AnswersNoneAnswered(picks: seq<nat>, outcomes: seq<Outcome>, j: nat)
    requires |outcomes| == |picks| && forall k :: 0 <= k < |outcomes| ==> outcomes[k].Failed?
    ensures Answers(picks, outcomes, j) == []
  {
    if |picks| > 0 {
      AnswersNoneAnswered(picks[..|picks| - 1], outcomes[..|picks| - 1], j);
    }
  }

  /**
   The server list after a run of requests: each pick credits its server one
   request, and each answered request appends its time to its server's list.
   */
  function Credited(servers: seq<Server>, picks: seq<nat>, outcomes: seq<Outcome>): (r: seq<Server>)
    requires |outcomes| == |picks|
    ensures |r| == |servers|
  {
    seq(|servers|, j requires 0 <= j < |servers| =>
      servers[j].(requestCount := servers[j].requestCount + Occurrences(picks, j),
                  responseTimes := servers[j].responseTimes + Answers(picks, outcomes, j)))
  }

  /** A run keeps every logged time matched by a counted request. */
  lemma CreditedKeepsTimesCounted(servers: seq<Server>, picks: seq<nat>, outcomes: seq<Outcome>)
    requires |outcomes| == |picks| && TimesCounted(servers)
    ensures TimesCounted(Credited(servers, picks, outcomes))
  {
  }

  lemma CreditedStep(servers: seq<Server>, picks: seq<nat>, outcomes: seq<Outcome>, i: nat, o: Outcome)
    requires |outcomes| == |picks| && i < |servers|
    ensures var c := Credited(servers, picks, outcomes);
            var counted := c[i := c[i].(requestCount := c[i].requestCount + 1)];
            Credited(servers, picks + [i], outcomes + [o])
            == if o.Answered? then counted[i := counted[i].(responseTimes := counted[i].responseTimes + [o.seconds])]
               else counted
  {
    var c := Credited(servers, picks, outcomes);
    var d := Credited(servers, picks + [i], outcomes + [o]);
    var counted := c[i := c[i].(requestCount := c[i].requestCount + 1)];
    var e := if o.Answered? then counted[i := counted[i].(responseTimes := counted[i].responseTimes + [o.seconds])]
             else counted;
    assert (picks + [i])[..|picks|] == picks;
    assert (outcomes + [o])[..|picks|] == outcomes;
    forall j | 0 <= j < |servers|
      ensures d[j] == e[j]
    {
      OccurrencesAppend(picks, i, j);
      var extra := if i == j && o.Answered? then [o.seconds] else [];
      assert Answers(picks + [i], outcomes + [o], j) == Answers(picks, outcomes, j) + extra;
      assert d[j].responseTimes == c[j].responseTimes + extra;
    }
  }

  /** The per-server `request_count` values. */
  function RequestCounts(servers: seq<Server>): (c: seq<nat>)
    ensures |c| == |servers|
  {
    seq(|servers|, j requires 0 <= j < |servers| => servers[j].requestCount)
  }

  /** Whatever the outcomes, the counts rise by one per request. */
  lemma {:induction false} CreditedTotal(servers: seq<Server>, picks: seq<nat>, outcomes: seq<Outcome>)
    requires |outcomes| == |picks| && forall k :: 0 <= k < |picks| ==> picks[k] < |servers|
    ensures Sum(RequestCounts(Credited(servers, picks, outcomes))) == Sum(RequestCounts(servers)) + |picks|
  {
    if picks == [] {
      assert RequestCounts(Credited(servers, picks, outcomes)) == RequestCounts(servers);
    } else {
      var last := |picks| - 1;
      var p, x := picks[..last], picks[last];
      assert picks == p + [x] && outcomes == outcomes[..last] + [outcomes[last]];
      CreditedTotal(servers, p, outcomes[..last]);
      var c := RequestCounts(Credited(servers, p, outcomes[..last]));
      var d := RequestCounts(Credited(servers, picks, outcomes));
      forall j | 0 <= j < |servers|
        ensures d[j] == c[x := c[x] + 1][j]
      {
        OccurrencesAppend(p, x, j);
      }
      assert d == c[x := c[x] + 1];
      SumUpdate(c, x, c[x] + 1);
    }
  }

  /** The loop step of `SimulateRequests`: request `i` is credited to the server its address hashes to. */
  lemma SimulationStep(before: seq<Server>, md5: IPHash.Digest, outcomes: seq<Outcome>, i: nat, servers: seq<Server>)
    requires |before| > 0 && i < |outcomes|
    requires servers == Credited(before, IPHash.Routes(md5, |before|, i), outcomes[..i])
    ensures var s := IPHash.Pick(md5, IPHash.ClientIp(i), |before|);
            var counted := servers[s := servers[s].(requestCount := servers[s].requestCount + 1)];
            Credited(before, IPHash.Routes(md5, |before|, i + 1), outcomes[..i + 1])
            == if outcomes[i].Answered? then counted[s := counted[s].(responseTimes := counted[s].responseTimes + [outcomes[i].seconds])]
               else counted
  {
    var n := |before|;
    IPHash.RoutesExtend(md5, n, i);
    assert outcomes[..i + 1] == outcomes[..i] + [outcomes[i]];
    CreditedStep(before, IPHash.Routes(md5, n, i), outcomes[..i], IPHash.Pick(md5, IPHash.ClientIp(i), n), outcomes[i]);
  }

  class IPHashLoadBalancer {
    var servers: seq<Server>

    constructor (servers: seq<Server>)
      ensures this.servers == servers
    {
      this.servers := servers;
    }

    /** The position of the server for `clientIp`; it reads the list and changes nothing. */
    function GetNextServer(md5: IPHash.Digest, clientIp: string): (i: nat)
      reads this
      requires |servers| > 0
      ensures i < |servers|
    {
      IPHash.Pick(md5, clientIp, |servers|)
    }
  }

  /**
   `simulate_requests`, with `outcomes[i]` the outcome of request `i`: the
   chosen server's count is raised before the HTTP call, and a response time
   is logged only when the call answered.
   */
  method SimulateRequests(lb: IPHashLoadBalancer, md5: IPHash.Digest, outcomes: seq<Outcome>)
    requires |lb.servers| > 0
    modifies lb
    ensures lb.servers == Credited(old(lb.servers), IPHash.Routes(md5, |old(lb.servers)|, |outcomes|), outcomes)
  {
    ghost var before := lb.servers;
    var n := |lb.servers|;
    forall j | 0 <= j < n
      ensures Credited(before, [], [])[j] == before[j]
    {
      assert before[j].responseTimes + [] == before[j].responseTimes;
    }
    for i := 0 to |outcomes|
      invariant lb.servers == Credited(before, IPHash.Routes(md5, n, i), outcomes[..i])
    {
      var clientIp := IPHash.ClientIp(i);
      var s := lb.GetNextServer(md5, clientIp);
      SimulationStep(before, md5, outcomes, i, lb.servers);
      lb.servers := lb.servers[s := lb.servers[s].(requestCount := lb.servers[s].requestCount + 1)];
      match outcomes[i]
      case Answered(seconds) =>
        lb.servers := lb.servers[s := lb.servers[s].(responseTimes := lb.servers[s].responseTimes + [seconds])];
      case Failed =>
    }
    assert outcomes[..|outcomes|] == outcomes;
  }
}
