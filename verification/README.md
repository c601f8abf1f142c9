# tcp-vhosts: routing bookkeeping of a DNS-correlated TCP reverse proxy

tcp-vhosts routes raw TCP connections to different backends without looking at
the bytes. A DNS responder remembers, per client IP, the domain that IP last
asked for, and answers every query with the proxy's own address. When that
client then connects, the reverse proxy looks up the client's last domain and
that domain's upstream. On the client's first data it dials the upstream and
splices the two sockets.

This project models that bookkeeping as an event-driven state machine over
immutable maps, and proves its properties in Dafny:

- `wrappers.dfy` (`Wrappers`): `Option`/`Result`, and `Get`/`GetOpt`, which mirror
  `Map.prototype.get` returning `undefined` for a missing key.
- `routing.dfy` (`Routing`): the shared state. It holds `lookups` (the correlation
  table `LOOKUPS`), `upstreams` (the registry `UPSTREAMS`), the accepted
  connections, and a counter that hands each accepted socket its own identity.
  `PORT` is 80.
- `dns.dfy` (`Dns`): the `"request"` handler. It reads the first question, upserts
  the sender's entry, and appends one forged A record (class IN, TTL 0, the
  proxy's address) to the response.
- `proxy.dfy` (`Proxy`): the `"connection"` handler. It snapshots the domain and
  upstream at accept time. The `once("data")` listener dials that snapshot on
  `PORT` on the first data only.
- `trace.dfy` (`Trace`): both listeners as one machine. `Step` applies one event
  (query, connect, data) and `Run` applies a sequence of them in arrival order.
  The lemmas are about whole event sequences: last write wins per IP, no
  cross-talk, the snapshot is fixed at accept, and each connection dials lazily
  and at most once. `Run` uses the corrected data listener (see Findings) and
  `RunAsWritten` the listener as the code has it. `Trace.RunAgree` proves that
  the two produce the same outputs and agree on everything except what
  connections relay. So every property of `Run` below that is not about
  relayed chunks holds of the code as written as well.

The proxy's own address (`IP`) and the registry's entries are configuration.
They are parameters here (`ownIp`, `Init(upstreams)`). The response that the DNS
library builds from the request is also a parameter (`base`). The handler only
appends to it.

Two behaviours of the code are kept as they are, although a routing proxy
might be expected to act otherwise:

- The code does not reject a connection from a client with no correlation
  entry, or whose domain is not in the registry. The snapshot is `undefined` (`None`). On the
  first data the proxy still dials, with an `undefined` host
  (`Trace.UnknownClientStillDials`).
- The code does not handle a query with no questions gracefully. Reading
  `questions[0].name` throws. The model returns `Err(NoQuestion)`, records
  nothing and sends no response.

## Model

| member | source | states |
|---|---|---|
| Routing.Init | index.js:13-19 | start-up state: an empty correlation table (every lookup is `undefined`), the configured registry, no connections, connection identities fresh |
| Dns.OnRequest | index.js:71-96 | a query without questions is an error and yields no new state; otherwise the sender's entry becomes the first question's name, every other IP's entry, the registry and the connections are unchanged, and the response is the base response with exactly one answer appended (queried name, type A, class IN, TTL 0, the proxy's address) |
| Dns.LastWriteWins | index.js:74-76 | two queries from one IP leave the second one's domain, overwriting the first |
| Dns.OnlyFirstQuestionCounts | index.js:75 | queries that agree on their first question have identical effect on the table and identical responses, whatever follows |
| Dns.UnknownDomainStillAnswered | index.js:85-92 | a domain absent from the registry is still answered with the one forged record pointing at the proxy |
| Wrappers.Get | index.js:40 | `LOOKUPS.get(ip)`: the stored value exactly when the key is present, `undefined` otherwise |
| Wrappers.GetOpt | index.js:41 | `UPSTREAMS.get(domain)` where the domain may itself be `undefined`: a value exactly when the domain is defined and registered |
| Proxy.OnConnection | index.js:37-43 | accepting gives the socket a fresh identity and binds it to the client's current entry and that entry's upstream (`undefined` exactly when the client or its domain is unknown), waiting for data, with nothing dialled or relayed; tables and other connections are unchanged |
| Proxy.OnData | index.js:45-52 | the corrected data listener (see Findings): a data event dials iff its connection exists and is still waiting, and then dials exactly the snapshotted upstream on PORT; the route never changes, the connection is relaying afterwards, the chunk reaches the upstream, nothing else changes |
| Proxy.OnDataAsWritten | index.js:45-52 | the data listener as written: the same dial decision, route, phase change and frame as the corrected one, but the chunk that triggers the dial is not handed to the upstream, while a chunk arriving when already relaying is |
| Proxy.FirstChunkLost | index.js:45-52 | concrete case: a client at 1.2.3.4 resolved to 10.0.0.1 sends the byte 0x01; as written the upstream is dialled and receives nothing, the corrected handler hands it that byte |
| Proxy.RouteDependsOnlyOnOwnEntry | index.js:39-41 | a connection's route depends only on its own client's entry and the registry: no cross-talk with other IPs' entries |
| Trace.Step | index.js:37-96 | one event, as the event loop runs the handlers (`Trace.Run` applies events in arrival order): one event never writes the registry, changes only the querying IP's entry (to its first question), sends a well-formed query's sender exactly one response (the base answers plus the forged record), leaves everything unchanged and answers nothing for a query without questions, outputs nothing on accept, uses one identity per accept, keeps identities fresh |
| Trace.StepKeepsRoute | index.js:39-52 | with the corrected data listener, under any one event an accepted connection keeps its route, leaves the waiting phase exactly on data addressed to it, and is handed exactly that data |
| Trace.StepDials | index.js:45-50 | one event dials for a connection iff it is data for that accepted, still waiting connection, and then dials its snapshot on PORT; proved of `Run`, and by `Trace.RunAgree` it holds for the code as written too |
| Trace.RunPreserves | index.js:16-19 | over any events the registry is never written and connection identities stay fresh |
| Trace.LookupsFollowLastQuery | index.js:74-76 | after any events, an IP's entry is the domain of that IP's own last well-formed query, or its earlier entry if it sent none; other IPs' queries, connections and data never touch it; proved of `Run`, and by `Trace.RunAgree` it holds for the code as written too |
| Trace.QueryThenQuery | index.js:76 | querying `d` then `d'` from one IP leaves `d'`, from any state; proved of `Run`, and by `Trace.RunAgree` it holds for the code as written too |
| Trace.ConnectionKeepsRoute | index.js:39-50 | under any events an accepted connection keeps its route and stops waiting exactly when data for it arrives; proved of `Run`, and by `Trace.RunAgree` it holds for the code as written too |
| Trace.ConnectionRelaysAll | index.js:45-52 | with the corrected data listener, the upstream of an accepted connection is handed every chunk its client sends, in order |
| Trace.ConnectionDialsOnce | index.js:45-50 | under any events an accepted connection dials exactly once, on its snapshot on PORT, if it was waiting and data for it arrives, and never otherwise; proved of `Run`, and by `Trace.RunAgree` it holds for the code as written too |
| Trace.StepAsWritten | index.js:37-96 | one event with the data listener as written (`Trace.RunAsWritten` applies events in arrival order): queries and accepts behave exactly as in `Step`; the registry is never written, one identity is used per accept, identities stay fresh |
| Trace.StepAsWrittenOnConnection | index.js:45-52 | with the data listener as written, one event dials for a connection exactly as the corrected listener does, keeps its route and phase change, and relays data addressed to it only when already relaying |
| Trace.AsWrittenDialsOnce | index.js:45-50 | with the data listener as written, an accepted connection dials its snapshot on PORT exactly once if it was waiting and data for it arrives, and never otherwise: the `once` listener dials at most once |
| Trace.AsWrittenRelaysAllButFirst | index.js:45-52 | with the data listener as written, a waiting connection's upstream is handed every chunk its client sends except the first, in order; an already relaying one is handed every chunk |
| Trace.StepAgree | index.js:37-96 | one event handled with the corrected listener and with the listener as written, from states differing only in what was relayed, gives the same outputs and again such states |
| Trace.RunAgree | index.js:37-96 | over any events, the corrected machine and the machine as written give the same answers and dials and agree on the correlation table, the registry, the identities handed out, and every connection's route and phase |
| Trace.AsWrittenLookupsFollowLastQuery | index.js:74-76 | with the code as written, after any events an IP's entry is the domain of its own last well-formed query, or its earlier entry if it sent none |
| Trace.AsWrittenLifecycle | index.js:37-54 | with the code as written, a client connecting after some events is bound to the upstream of the domain it last queried before the accept, dials it on PORT once iff it sends data, and its upstream is handed all its data except the first chunk |
| Trace.NoDialBeforeAccept | index.js:37-50 | nothing is ever dialled on behalf of a connection that has not been accepted; proved of `Run`, and by `Trace.RunAgree` it holds for the code as written too |
| Trace.ConnectionLifecycle | index.js:37-54 | a client connecting after some events is bound to the upstream of the domain it last queried before the accept (later queries do not rebind it), dials it on PORT once iff it sends data, and, with the corrected data listener, its upstream is handed all its data |
| Trace.UnknownClientStillDials | index.js:39-50 | a client that never queried is not rejected: on its first data it dials an `undefined` host on PORT; proved of `Run`, and by `Trace.RunAgree` it holds for the code as written too |
| Trace.TwoClientsNoCrossTalk | index.js:39-50 | two IPs query two domains, then connect in either order and send data: each connection dials the upstream of its own client's domain, exactly once; proved of `Run`, and by `Trace.RunAgree` it holds for the code as written too |

## Left out

- Socket creation, `listen`, the byte relay from upstream back to the client, and close/error propagation (index.js:28-36, index.js:51-52, index.js:62-69). These are I/O with no routing decision. Only which client chunks the upstream is handed is modelled. Connections are never removed, because the source has no close handling of its own.
- The DNS wire format and how the DNS library builds the base response (index.js:85). The library's code is not part of this model. The base response is a parameter, and only its answer list is represented.
- `console.info` logging (index.js:34, index.js:43, index.js:83).
- The placeholder `IP` and the concrete `UPSTREAMS` entries (index.js:14, index.js:18-19). They are configuration, so they are parameters.
- Timing between the DNS reply and the TCP connect. Events are applied one at a time in arrival order, as Node's single-threaded event loop runs its handlers.
- What Node does when dialling an `undefined` host. Also left out: whether the exception from a query with no questions is caught by the DNS library or ends the process. The model only records the dial target and that the failed query changes nothing.
- A data event for an identity that was never accepted cannot arise from the source. The model treats it as a no-op so that `Step` is total.
- Proxy.OnData: it forwards the chunk that triggers the dial. As written, the upstream receives every chunk except that first one (see Findings, `Proxy.OnDataAsWritten`).
- Trace.StepKeepsRoute: its `relayed` clause describes the corrected listener. As written, the chunk that triggers the dial is not relayed (`Trace.StepAsWrittenOnConnection`).
- Trace.ConnectionRelaysAll: it describes the corrected listener. As written, the upstream receives every chunk except the first (`Trace.AsWrittenRelaysAllButFirst`).
- Trace.ConnectionLifecycle: its `relayed` clause describes the corrected listener. As written, the upstream receives every chunk except the first (`Trace.AsWrittenRelaysAllButFirst`).
- IP addresses and domains are compared as exact strings, as the JavaScript `Map` compares its keys. No address or case normalisation is modelled.

## Findings

| source | as written | input that shows it | evidently intended | confidence | as-written member | corrected member |
|---|---|---|---|---|---|---|
| index.js:45-52 | the `once("data")` listener receives the client's first chunk and only then attaches `pipe`, so that chunk is never written to the upstream | a client at 1.2.3.4 that resolved vhost-1.example (registered as 10.0.0.1) connects and sends one chunk, the byte 0x01 (or a whole one-packet request) | every byte the client sends reaches the upstream, the first chunk included | medium, not executed; it rests on Node stream semantics, where a chunk already emitted is not re-emitted to a pipe attached while it is being delivered | Proxy.FirstChunkLost | Proxy.OnData |

`Proxy.OnDataAsWritten` models the listener as written. `Proxy.FirstChunkLost`
exhibits the lost byte. Over any events, `Trace.RunAsWritten` still dials at
most once (`Trace.AsWrittenDialsOnce`). It hands the upstream everything but
the first chunk (`Trace.AsWrittenRelaysAllButFirst`, and end to end
`Trace.AsWrittenLifecycle`). Apart from what is relayed it behaves exactly like
the corrected machine (`Trace.RunAgree`). `Proxy.OnData` forwards
the first chunk, and `Trace.Run` uses it. `Trace.ConnectionRelaysAll` and
`Trace.ConnectionLifecycle` prove that the upstream is then handed exactly the
chunks the client sent, in order.
