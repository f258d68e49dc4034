/**
 IP hash (IPHash/load_balancer.py): the server for a client is the MD5 digest
 of its IP address, read as a hexadecimal integer, taken modulo the number of
 servers. The digest is a parameter `md5` of the model: it stands for
 `int(hashlib.md5(ip.encode()).hexdigest(), 16)`.
 */
module IPHash {
  import opened Tally
  import opened Modular
  import opened Servers

  /** MD5 of the encoded string, read as a (128-bit) non-negative integer. */
  type Digest = string -> nat

  /** The index `get_next_server` computes for `clientIp` over `n` servers. */
  function Pick(md5: Digest, clientIp: string, n: nat): (i: nat)
    requires n > 0
    ensures i < n
  {
    md5(clientIp) % n
  }

  // ---------------------------------------------------------------------------
  // Simulated client addresses

  function Digit(d: nat): (c: char)
    requires d < 10
    ensures '0' <= c <= '9'
  {
    (48 + d) as char
  }

  predicate AllDigits(s: string)
  {
    forall k :: 0 <= k < |s| ==> '0' <= s[k] <= '9'
  }

  /** `str(n)`: the decimal numeral of `n`, without leading zeros. */
  function Decimal(n: nat): (s: string)
    ensures |s| > 0 && AllDigits(s)
  {
    if n < 10 then [Digit(n)] else Decimal(n / 10) + [Digit(n % 10)]
  }

  /** The number a string of decimal digits denotes. */
  function Value(s: string): nat
    requires AllDigits(s)
  {
    if |s| == 0 then 0 else 10 * Value(s[..|s| - 1]) + (s[|s| - 1] as int - 48)
  }

  /** Reading back a numeral gives the number it was written from. */
  lemma {:induction false} DecimalValue(n: nat)
    ensures Value(Decimal(n)) == n
  {
    if n >= 10 {
      var s := Decimal(n);
      assert s[..|s| - 1] == Decimal(n / 10);
      DecimalValue(n / 10);
    }
  }

  /** The address of simulated request `i`: `192.168.1.` followed by `i % 20`. */
  function ClientIp(i: nat): (ip: string)
    ensures |ip| > 10 && ip[..10] == "192.168.1."
  {
    "192.168.1." + Decimal(i % 20)
  }

  /** Two requests come from the same address exactly when their numbers agree modulo 20. */
  lemma ClientIpSame(i: nat, j: nat)
    ensures ClientIp(i) == ClientIp(j) <==> i % 20 == j % 20
  {
    if ClientIp(i) == ClientIp(j) {
      assert Decimal(i % 20) == ClientIp(i)[10..];
      assert Decimal(j % 20) == ClientIp(j)[10..];
      DecimalValue(i % 20);
      DecimalValue(j % 20);
    }
  }

  /** Addresses repeat with period 20. */
  lemma ClientIpPeriodic(i: nat)
    ensures ClientIp(i + 20) == ClientIp(i)
  {
    ModAddN(i, 20);
  }

  // ---------------------------------------------------------------------------
  // A run of simulated requests

  /** The server position each of the first `k` simulated requests is sent to. */
  function Routes(md5: Digest, n: nat, k: nat): (r: seq<nat>)
    requires n > 0
    ensures |r| == k
    ensures forall i :: 0 <= i < k ==> r[i] < n
  {
    seq(k, i requires 0 <= i < k => Pick(md5, ClientIp(i), n))
  }

  /** Requests `i` and `i + 20` reach the same server, whatever the digest. */
  lemma RoutesPeriodic(md5: Digest, n: nat, k: nat, i: nat)
    requires n > 0 && i + 20 < k
    ensures Routes(md5, n, k)[i + 20] == Routes(md5, n, k)[i]
  {
    ClientIpPeriodic(i);
  }

  /** A longer run starts with the shorter one. */
  lemma RoutesExtend(md5: Digest, n: nat, k: nat)
    requires n > 0
    ensures Routes(md5, n, k + 1) == Routes(md5, n, k) + [Pick(md5, ClientIp(k), n)]
  {
  }

  // ---------------------------------------------------------------------------
  // The balancer

  class IPHashLoadBalancer {
    var servers: seq<Server>

    constructor (servers: seq<Server>)
      ensures this.servers == servers
    {
      this.servers := servers;
    }

    /**
     The position of the server for `clientIp`. It reads the list and changes
     nothing, so the same address and list always give the same server; an
     empty list would divide by zero.
     */
    function GetNextServer(md5: Digest, clientIp: string): (i: nat)
      reads this
      requires |servers| > 0
      ensures i < |servers|
    {
      Pick(md5, clientIp, |servers|)
    }
  }

  /**
   `simulate_requests`: request `i` comes from `ClientIp(i)` and its server's
   count is raised before the HTTP call, whose outcome (caught whatever it
   is) therefore does not matter.
   */
  method SimulateRequests(lb: IPHashLoadBalancer, md5: Digest, numRequests: nat)
    requires |lb.servers| > 0
    modifies lb
    ensures lb.servers == Credited(old(lb.servers), Routes(md5, |old(lb.servers)|, numRequests))
  {
    ghost var before := lb.servers;
    var n := |lb.servers|;
    assert Credited(before, []) == before;
    for i := 0 to numRequests
      invariant lb.servers == Credited(before, Routes(md5, n, i))
    {
      var clientIp := ClientIp(i);
      var s := lb.GetNextServer(md5, clientIp);
      RoutesExtend(md5, n, i);
      CreditedStep(before, Routes(md5, n, i), s);
      lb.servers := lb.servers[s := lb.servers[s].(requestCount := lb.servers[s].requestCount + 1)];
    }
  }

  /** After a simulation of `numRequests` requests the counts add up to their old total plus `numRequests`. */
  lemma SimulationTotal(servers: seq<Server>, md5: Digest, numRequests: nat)
    requires |servers| > 0
    ensures Sum(RequestCounts(Credited(servers, Routes(md5, |servers|, numRequests))))
            == Sum(RequestCounts(servers)) + numRequests
  {
    CreditedTotal(servers, Routes(md5, |servers|, numRequests));
  }
}
