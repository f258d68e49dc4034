# Load-balancer selection policies in Dafny

This project models the five server-selection policies of a small Python
load-balancing demonstration and proves what each one promises. The policies are:

- **round robin**: a rotating index;
- **weighted round robin**: a two-counter state machine that serves each server
  `weight` times in a row;
- **least connection**: the switched-on server with the fewest open connections;
- **weighted least connection**: the smallest ratio of connections to weight;
- **IP hash**: an MD5 digest of the client address, taken modulo the number of servers.
  There are two variants; the second also logs response times.

Each balancer is a `class` whose fields are the Python attributes.
The server list is a `seq` of `Server` records. Methods update the chosen
record in place, by reassigning that element. The server object that
`get_next_server` returns is modelled by its position in the list. Beside
each class sit specification functions, and each method's postcondition
ties the new state to them:

- round robin: `Advance`, `Rotation`;
- weighted round robin: `Step`, `After`, `Schedule`;
- least connection: `LeastLoaded`, `Drain`;
- weighted least connection: `LeastRatio`, `Drain`;
- IP hash: `Routes`, `Credited`.

Lemmas then prove what the source promises about those functions.

Some inputs of the source are parameters of the model:

- The outcome of each HTTP call is an input: `ok: seq<bool>` for round robin
  and weighted round robin, and `outcomes: seq<Outcome>` (with the measured
  time) for the second IP-hash variant.
- The MD5 digest read as an integer is a function parameter `md5: string -> nat`.
- The answers to the "Should Server … be active?" prompts are a parameter
  `states: seq<bool>`.

Shared pieces:

- `Tally`: sums and pick counting.
- `Servers`: the server record shared by round robin, weighted round robin
  and the first IP-hash variant, and the crediting of a run of picks.
- `Modular`: facts about `%`.
- `Connections`: the server record of the two least-connection balancers,
  plus assignment, release and switching servers on and off.
- `Wrappers`: `Option`, for Python's `None`.

## Model

| member | source | states |
|---|---|---|
| RoundRobin.RoundRobinLoadBalancer.constructor | RoundRobin/load_balancer.py:22-24 | the balancer holds the given list and `current_index` starts at 0 |
| RoundRobin.RoundRobinLoadBalancer.GetNextServer | RoundRobin/load_balancer.py:26-29 | returns the index held before the call, in range for a non-empty list; the index becomes `(old + 1) % len`; the server list is unchanged |
| RoundRobin.AdvanceIsMod | RoundRobin/load_balancer.py:28 | after `k` calls from `start` the index is `(start + k) % n` |
| RoundRobin.RotationAt | RoundRobin/load_balancer.py:26-29 | call `j` of a run from `start` returns position `(start + j) % n` |
| RoundRobin.RotationCoversEachOnce | RoundRobin/load_balancer.py:26-29 | any `n` consecutive calls return each of the `n` servers exactly once |
| RoundRobin.FullRoundInOrder | RoundRobin/load_balancer.py:24-29 | from index 0, `n` calls return servers `0, 1, …, n-1` in list order and leave the index at 0 |
| RoundRobin.RotationSplit | RoundRobin/load_balancer.py:26-29 | the sequence of returned positions repeats after a full round |
| RoundRobin.RotationFairShare | RoundRobin/load_balancer.py:26-29 | over `c` full rounds every server is returned exactly `c` times, whatever its weight |
| RoundRobin.CreditedStep | RoundRobin/load_balancer.py:39-45 | one more request credits its server if and only if the request succeeded |
| RoundRobin.EqualShareIgnoresWeight | RoundRobin/load_balancer.py:13-18 | when every request succeeds, `c` full rounds raise every server's `request_count` by exactly `c`; weights have no effect |
| RoundRobin.SimulateRequests | RoundRobin/load_balancer.py:32-45 | the index advances by the number of requests, modulo the list length; each server's count rises by the number of successful requests the rotation sent to it; a failed request changes no count |
| WeightedRoundRobin.MaxWeight | WeightedRoundRobin/load_balancer.py:27 | the result is the weight of some server and at least every server's weight |
| WeightedRoundRobin.WeightedRoundRobinLoadBalancer.constructor | WeightedRoundRobin/load_balancer.py:23-27 | state `(0, 0)`; `max_weight` is a weight of the list and bounds all of them; the list must be non-empty with weights of at least 1 |
| WeightedRoundRobin.Step | WeightedRoundRobin/load_balancer.py:29-39 | one call keeps the state in range and leaves `current_weight` at least 1; it does not read `max_weight` |
| WeightedRoundRobin.WeightedRoundRobinLoadBalancer.GetNextServer | WeightedRoundRobin/load_balancer.py:29-39 | the new state is `Step` of the old one; the returned server is `servers[current_index]` with `1 <= current_weight <= weight`; the list and `max_weight` are unchanged; the loop resets at most once, and exactly when the current server's weight was used up |
| WeightedRoundRobin.ScheduleSplit | WeightedRoundRobin/load_balancer.py:29-39 | `a + b` calls are `a` calls followed by `b` calls from the state reached |
| WeightedRoundRobin.SameStepSameRun | WeightedRoundRobin/load_balancer.py:29-39 | two states with the same next state have the same future |
| WeightedRoundRobin.BlockRun | WeightedRoundRobin/load_balancer.py:33-35 | a server is returned again and again until its weight is used up |
| WeightedRoundRobin.BlocksFrom | WeightedRoundRobin/load_balancer.py:29-39 | from `(i, 0)`, servers `i, i+1, …` are returned `weight` times each, ending on the last server with its weight used up |
| WeightedRoundRobin.SchedulePeriodic | WeightedRoundRobin/load_balancer.py:25-39 | from `(0, 0)` the first `W` calls (`W` the sum of weights) return server 0 `weight_0` times, then server 1 `weight_1` times, and so on; the sequence and the state then repeat with period `W` |
| WeightedRoundRobin.BlocksShare | WeightedRoundRobin/load_balancer.py:29-39 | over one period each server is returned exactly `weight` times |
| WeightedRoundRobin.RepeatCount | WeightedRoundRobin/load_balancer.py:33-35 | a run of `w` picks of server `i` counts `w` for `i` and 0 for every other server |
| Servers.CreditedStep | WeightedRoundRobin/load_balancer.py:44-53 | each request adds exactly 1 to the returned server's count and changes no other server |
| WeightedRoundRobin.CreditedWeights | WeightedRoundRobin/load_balancer.py:53 | crediting requests never changes a weight |
| WeightedRoundRobin.LeadingSuccessesIs | WeightedRoundRobin/load_balancer.py:49-53 | `k` is the number of leading successful requests exactly when requests `0..k-1` succeeded and request `k`, if any, failed |
| WeightedRoundRobin.LeadingSuccessesNext | WeightedRoundRobin/load_balancer.py:49-53 | with at least `k` leading successes, request `k` succeeding means there are more than `k`, and failing means exactly `k` |
| WeightedRoundRobin.Serve | WeightedRoundRobin/load_balancer.py:44-53 | one turn of the loop moves the state one `Step` and credits the request to the chosen server only when its HTTP call succeeded |
| WeightedRoundRobin.SimulateRequests | WeightedRoundRobin/load_balancer.py:42-53 | the unguarded HTTP call makes the first failure end the run: the number served is the number of leading successes; the state moved one step further for the failed request; counts rise exactly by the schedule of the served requests; weights and `max_weight` are unchanged |
| Connections.Assign | LeastConnection/load_balancer.py:39-40 | the chosen server gains exactly one connection and one request, keeps its on/off state and weight, and every other server is unchanged (the same two lines are WeightedLeastConnection/load_balancer.py:48-49) |
| Connections.Release | LeastConnection/load_balancer.py:84 | the server gives back exactly one connection, its request count and on/off state are kept, and every other server is unchanged (the same line is WeightedLeastConnection/load_balancer.py:93) |
| Connections.AssignCountsOne | LeastConnection/load_balancer.py:39-40 | an assignment raises the total of the request counts by exactly one |
| Connections.AssignKeepsActive | LeastConnection/load_balancer.py:39-40 | an assignment switches no server on or off |
| Connections.ReleaseUndoesAssign | LeastConnection/load_balancer.py:83-84 | releasing the connection an assignment opened restores every connection count; only the credited request remains |
| Connections.ApplyStates | LeastConnection/load_balancer.py:104-107 | each server's `active` becomes the answer given for it; every other field is unchanged |
| LeastConnection.LeastLoaded | LeastConnection/load_balancer.py:32-38 | `None` exactly when no server is switched on; otherwise the result is switched on, has no more connections than any switched-on server, and every switched-on server before it has strictly more (`min` keeps the first minimum) |
| LeastConnection.LeastLoadedUnique | LeastConnection/load_balancer.py:38 | the server that meets this description is the one chosen |
| LeastConnection.Drain | LeastConnection/load_balancer.py:49-54 | draining keeps the list length, dispatches at most one server per queued request, and every dispatched request names a server of the list |
| LeastConnection.DrainWhenNoneActive | LeastConnection/load_balancer.py:49-54 | with no server switched on, draining drops every queued request and changes no server |
| LeastConnection.DrainServesInOrder | LeastConnection/load_balancer.py:49-54 | with a server switched on, every queued request is dispatched, in queue order, to a server of the list |
| LeastConnection.DrainCounts | LeastConnection/load_balancer.py:49-54 | the request counts rise by exactly the number of requests dispatched |
| LeastConnection.LeastConnectionLoadBalancer.constructor | LeastConnection/load_balancer.py:27-29 | the balancer holds the given list and an empty queue |
| LeastConnection.LeastConnectionLoadBalancer.GetNextServer | LeastConnection/load_balancer.py:31-43 | returns `LeastLoaded` of the old list; with no server switched on nothing changes; otherwise only the chosen server's connection and request counts rise, each by 1 |
| LeastConnection.LeastConnectionLoadBalancer.QueueRequest | LeastConnection/load_balancer.py:45-46 | the request joins the tail of the queue; servers are unchanged |
| LeastConnection.LeastConnectionLoadBalancer.ProcessQueuedRequests | LeastConnection/load_balancer.py:49-54 | the queue ends empty; the servers and the dispatched requests are those of `Drain` on the old state |
| LeastConnection.LeastConnectionLoadBalancer.ReleaseConnection | LeastConnection/load_balancer.py:83-84 | the server's `active_connections` drops by exactly 1; nothing else changes |
| LeastConnection.LeastConnectionLoadBalancer.SetServerStates | LeastConnection/load_balancer.py:104-107 | each server is switched on or off by its answer; no other field changes |
| WeightedLeastConnection.LighterThrough | WeightedLeastConnection/load_balancer.py:43-44 | a load strictly below one that is at most a third is strictly below the third (cross-multiplied, positive weights) |
| WeightedLeastConnection.NotLighterThrough | WeightedLeastConnection/load_balancer.py:43-44 | "load at most" is transitive for the cross-multiplied comparison |
| WeightedLeastConnection.LeastRatio | WeightedLeastConnection/load_balancer.py:32-46 | `None` exactly when no server is switched on (`least_load` starts at infinity, so otherwise a server is found); the result is switched on, no switched-on server has a smaller `active_connections / weight`, and every switched-on server before it has a larger one |
| WeightedLeastConnection.LeastRatioStep | WeightedLeastConnection/load_balancer.py:42-46 | a server lighter than the best so far beats every earlier switched-on server |
| WeightedLeastConnection.LeastRatioKeep | WeightedLeastConnection/load_balancer.py:42-46 | a server no lighter than the best so far leaves the best in place |
| WeightedLeastConnection.LeastRatioUnique | WeightedLeastConnection/load_balancer.py:39-46 | the server that meets this description is the one chosen |
| WeightedLeastConnection.Drain | WeightedLeastConnection/load_balancer.py:58-63 | draining keeps the list length, dispatches at most one server per queued request, and every dispatched request names a server of the list |
| WeightedLeastConnection.DrainWhenNoneActive | WeightedLeastConnection/load_balancer.py:58-63 | with no server switched on, draining drops every queued request and changes nothing |
| WeightedLeastConnection.DrainServesInOrder | WeightedLeastConnection/load_balancer.py:58-63 | with a server switched on, every queued request is dispatched in queue order |
| WeightedLeastConnection.DrainCounts | WeightedLeastConnection/load_balancer.py:58-63 | the request counts rise by exactly the number dispatched |
| WeightedLeastConnection.WeightedLeastConnectionLoadBalancer.constructor | WeightedLeastConnection/load_balancer.py:27-29 | the balancer holds the given list and an empty queue |
| WeightedLeastConnection.WeightedLeastConnectionLoadBalancer.GetNextServer | WeightedLeastConnection/load_balancer.py:31-52 | the scan returns `LeastRatio` of the old list; with no server switched on nothing changes; otherwise only the chosen server's two counters rise, each by 1; switched-on servers need a positive weight |
| WeightedLeastConnection.WeightedLeastConnectionLoadBalancer.QueueRequest | WeightedLeastConnection/load_balancer.py:54-55 | the request joins the tail of the queue |
| WeightedLeastConnection.WeightedLeastConnectionLoadBalancer.ProcessQueuedRequests | WeightedLeastConnection/load_balancer.py:58-63 | the queue ends empty; servers and dispatched requests are those of `Drain` |
| WeightedLeastConnection.WeightedLeastConnectionLoadBalancer.ReleaseConnection | WeightedLeastConnection/load_balancer.py:92-93 | the server's `active_connections` drops by exactly 1 |
| WeightedLeastConnection.WeightedLeastConnectionLoadBalancer.SetServerStates | WeightedLeastConnection/load_balancer.py:101-106 | each server is switched on or off by its answer; no other field changes |
| IPHash.Pick | IPHash/load_balancer.py:28-29 | the index lies in `[0, n)` for a non-empty list |
| IPHash.IPHashLoadBalancer.constructor | IPHash/load_balancer.py:23-24 | the balancer holds the given list |
| IPHash.IPHashLoadBalancer.GetNextServer | IPHash/load_balancer.py:26-34 | a function of the address and the list: the same inputs give the same server, it changes nothing, and the index is in range |
| IPHash.Decimal | IPHash/load_balancer.py:40 | `str` of a non-negative integer is a non-empty string of decimal digits (and reads back as the number, by `DecimalValue`) |
| IPHash.ClientIp | IPHash/load_balancer.py:40 | the address of request `i` is `192.168.1.` followed by a non-empty suffix, the numeral of `i % 20` |
| IPHash.DecimalValue | IPHash/load_balancer.py:40 | the decimal numeral written for `i % 20` reads back as that number |
| IPHash.ClientIpSame | IPHash/load_balancer.py:40 | requests `i` and `j` come from the same address exactly when `i % 20 == j % 20` |
| IPHash.ClientIpPeriodic | IPHash/load_balancer.py:40 | addresses repeat with period 20 |
| IPHash.RoutesPeriodic | IPHash/load_balancer.py:40-42 | requests `i` and `i + 20` reach the same server, whatever the digest |
| Servers.CreditedTotal | IPHash/load_balancer.py:49 | crediting picks that each name a server raises the total of the counts by the number of picks |
| IPHash.SimulateRequests | IPHash/load_balancer.py:37-56 | each server's count rises by the number of requests routed to it, before and whatever the HTTP outcome |
| IPHash.SimulationTotal | IPHash/load_balancer.py:37-49 | after `n` simulated requests the counts sum to their old total plus `n` |
| IPHashTimed.IPHashLoadBalancer.constructor | IPHash/load_balancer_2.py:25-26 | the balancer holds the given list |
| IPHashTimed.IPHashLoadBalancer.GetNextServer | IPHash/load_balancer_2.py:28-36 | deterministic, changes nothing, index in range |
| IPHashTimed.Answers | IPHash/load_balancer_2.py:54-64 | a server logs at most one time per request routed to it |
| IPHashTimed.AnswersAllAnswered | IPHash/load_balancer_2.py:54-62 | when every call answers, a server logs exactly one time per request routed to it |
| IPHashTimed.AnswersNoneAnswered | IPHash/load_balancer_2.py:54-65 | when every call raises, no time is logged |
| IPHashTimed.CreditedKeepsTimesCounted | IPHash/load_balancer_2.py:50-62 | `len(response_times) <= request_count` is preserved by a run |
| IPHashTimed.CreditedStep | IPHash/load_balancer_2.py:50-64 | one request raises its server's count and appends its time only if the call answered |
| IPHashTimed.CreditedTotal | IPHash/load_balancer_2.py:39-50 | whatever the outcomes, the counts rise by one per request |
| IPHashTimed.SimulateRequests | IPHash/load_balancer_2.py:39-65 | each server's count rises by the requests routed to it, and its response times gain, in order, those of its answered requests |

## Left out

- The consistent-hashing ring with virtual nodes is not part of this model. None of the five policies modelled here implements it.
- MD5 itself (RFC 1321) and `int(hexdigest, 16)` are a parameter `md5`; nothing is assumed about its values.
- HTTP traffic: the outcome of each call is an input. In round robin, `ok[k]` means request `k` did not raise a `RequestException`. Any other exception would leave the Python loop; the model does not cover that.
- IPHashTimed.SimulateRequests: only `RequestException` is caught in the source. A `Failed` outcome stands for that exception; other exceptions, which end the run, are not modelled.
- Threads: `handle_request` runs on a thread and decrements `active_connections` without a lock. The model releases a connection with a sequential `ReleaseConnection`; the interleavings and the lost-update race are not modelled. `ProcessQueuedRequests` returns the dispatched (request, server) pairs where the source starts threads.
- `time.sleep`, `random.uniform` and the `time.time()` measurement are not modelled. A response time is a `real` given by the outcome.
- Average response times are floating-point division and are not modelled (IPHash/load_balancer_2.py:73-76).
- The `input()` prompts are not modelled; their answers are the `states` parameter of `SetServerStates`. `set_initial_server_states` does the same thing at start-up.
- Plotting, `print`, `requests_log` (never written) and the `__main__` drivers are not modelled.
- The least-connection `simulate_requests` drivers are not modelled (LeastConnection/load_balancer.py:57-71, WeightedLeastConnection/load_balancer.py:66-80). They combine the modelled operations with prompts, a sleep and thread dispatch.
- Aliasing: in the source, the balancer's list and the module-level `servers` list are the same objects. Prompts mutate the latter. The model keeps one list, in the balancer.
- WeightedRoundRobin.WeightedRoundRobinLoadBalancer.constructor: requires a non-empty list with every weight at least 1. With an empty list `max` raises. With a zero or negative weight everywhere `get_next_server` never returns; that non-termination is not modelled. A list that mixes positive and non-positive weights, such as `[0, 2]` or `[-1, 3]`, is served by the source: the loop skips each server whose weight is not positive and returns the next one with a positive weight. The model excludes such lists, so it does not cover skipping those servers.
- WeightedLeastConnection.LeastRatio: requires switched-on servers to have positive weights. A zero weight divides by zero in the source; negative weights, which Python would accept, are not modelled. Loads are compared exactly by cross-multiplying. Rounding of the float division, which could make two nearly equal ratios compare equal, is not modelled.
- Client addresses: `str` is modelled for non-negative integers only (`Decimal`), which is all `i % 20` produces.
