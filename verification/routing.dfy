/** The state shared by the DNS responder and the TCP reverse proxy: the
    correlation table (client IP to last queried domain), the static upstream
    registry (domain to backend IP) and the proxy's live connections. */
module Routing {
  import opened Wrappers

  type IP = string
  type Domain = string
  type ConnId = nat
  newtype byte = x: int | 0 <= x < 256
  /** A TCP `data` event never carries zero bytes. */
  type Chunk = c: seq<byte> | |c| > 0 witness [0]

  /** The one port the proxy listens on; every upstream is dialled on it too. */
  const PORT: nat := 80

  /** Per-connection lifecycle: accepted and waiting for the client's first
      bytes, then (after the one upstream dial) relaying. */
  datatype Phase = AwaitingData | Relaying

  /** One accepted client connection. `domain` and `upstream` are the
      snapshot taken at accept time (either may be `undefined`); `relayed` is
      what the upstream has been handed of the client's bytes, chunk by chunk. */
  datatype Conn = Conn(
    clientIp: IP,
    domain: Option<Domain>,
    upstream: Option<IP>,
    phase: Phase,
    relayed: seq<Chunk>)

  /** An outbound connection attempt: host (possibly `undefined`) and port. */
  datatype Dial = Dial(host: Option<IP>, port: nat)

  /** `lookups` is LOOKUPS, `upstreams` is UPSTREAMS, `conns` the accepted
      sockets, `nextConn` the identity the next accepted socket receives. */
  datatype State = State(
    lookups: map<IP, Domain>,
    upstreams: map<Domain, IP>,
    conns: map<ConnId, Conn>,
    nextConn: ConnId)

  /** Every live connection was handed out before `nextConn`, so the next
      accepted socket gets an identity nobody else holds. */
  predicate Valid(s: State) {
    forall id | id in s.conns :: id < s.nextConn
  }

  /** Start-up: an empty correlation table, no connections, and the
      configured upstream registry. */
  function Init(upstreams: map<Domain, IP>): (s: State)
    ensures Valid(s)
    ensures s.upstreams == upstreams
    ensures forall ip :: Get(s.lookups, ip).None?
    ensures |s.conns| == 0
  {
    State(map[], upstreams, map[], 0)
  }
}
