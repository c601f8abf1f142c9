/** The TCP reverse proxy: a connection's route is fixed when it is
    accepted, and the upstream is dialled once, on the client's first data. */
module Proxy {
  import opened Wrappers
  import opened Routing

  datatype Accepted = Accepted(state: State, id: ConnId)

  /** Result of a "data" event: the new state and the dial it made, if any. */
  datatype DataResult = DataResult(state: State, dial: Option<Dial>)

  /** The "connection" handler: snapshot the sender's last queried domain
      and that domain's upstream. Nothing is rejected and nothing is dialled:
      an unknown client or domain just leaves the snapshot `undefined`. */
  function OnConnection(s: State, clientIp: IP): (r: Accepted)
    ensures r.id == s.nextConn && r.state.nextConn == s.nextConn + 1
    ensures Valid(s) ==> r.id !in s.conns
    ensures Valid(s) ==> Valid(r.state)
    ensures r.id in r.state.conns
    ensures r.state.conns.Keys == s.conns.Keys + {r.id}
    ensures
      var c := r.state.conns[r.id];
      && c.clientIp == clientIp
      && c.domain == Get(s.lookups, clientIp)
      && (c.upstream.Some? <==> clientIp in s.lookups && s.lookups[clientIp] in s.upstreams)
      && (c.upstream.Some? ==> c.upstream.value == s.upstreams[s.lookups[clientIp]])
      && c.phase == AwaitingData
      && c.relayed == []
    ensures forall id | id in s.conns && id != r.id :: r.state.conns[id] == s.conns[id]
    ensures r.state.lookups == s.lookups && r.state.upstreams == s.upstreams
  {
    var domain := Get(s.lookups, clientIp);
    var upstream := GetOpt(s.upstreams, domain);
    var c := Conn(clientIp, domain, upstream, AwaitingData, []);
    Accepted(s.(conns := s.conns[s.nextConn := c], nextConn := s.nextConn + 1), s.nextConn)
  }

  /** A "data" event on connection `id`, with the first chunk handed to the
      new upstream connection. The first event dials the snapshotted upstream
      on PORT; later events only relay. An identity with no accepted socket
      receives no events; the model leaves the state alone for it. */
  function OnData(s: State, id: ConnId, chunk: Chunk): (r: DataResult)
    ensures r.dial.Some? <==> id in s.conns && s.conns[id].phase == AwaitingData
    ensures r.dial.Some? ==> r.dial.value == Dial(s.conns[id].upstream, PORT)
    ensures r.state.conns.Keys == s.conns.Keys
    ensures id in s.conns ==>
              var c, c' := s.conns[id], r.state.conns[id];
              && c'.clientIp == c.clientIp
              && c'.domain == c.domain
              && c'.upstream == c.upstream
              && c'.phase == Relaying
              && c'.relayed == c.relayed + [chunk]
    ensures forall other | other in s.conns && other != id :: r.state.conns[other] == s.conns[other]
    ensures r.state.lookups == s.lookups && r.state.upstreams == s.upstreams
    ensures r.state.nextConn == s.nextConn
  {
    if id !in s.conns then
      DataResult(s, None)
    else
      var c := s.conns[id];
      var c' := c.(phase := Relaying, relayed := c.relayed + [chunk]);
      var dial := if c.phase == AwaitingData then Some(Dial(c.upstream, PORT)) else None;
      DataResult(s.(conns := s.conns[id := c']), dial)
  }

  /** The "data" handling as the listener is written: the `once` listener
      receives the first chunk and only then attaches the pipe, so that chunk
      is never written to the upstream; every later chunk is piped. */
  function OnDataAsWritten(s: State, id: ConnId, chunk: Chunk): (r: DataResult)
    ensures r.dial.Some? <==> id in s.conns && s.conns[id].phase == AwaitingData
    ensures r.dial.Some? ==> r.dial.value == Dial(s.conns[id].upstream, PORT)
    ensures r.state.conns.Keys == s.conns.Keys
    ensures id in s.conns ==>
              var c, c' := s.conns[id], r.state.conns[id];
              && c'.clientIp == c.clientIp
              && c'.domain == c.domain
              && c'.upstream == c.upstream
              && c'.phase == Relaying
              && c'.relayed == if c.phase == AwaitingData then c.relayed else c.relayed + [chunk]
    ensures forall other | other in s.conns && other != id :: r.state.conns[other] == s.conns[other]
    ensures r.state.lookups == s.lookups && r.state.upstreams == s.upstreams
    ensures r.state.nextConn == s.nextConn
  {
    if id !in s.conns then
      DataResult(s, None)
    else
      var c := s.conns[id];
      if c.phase == AwaitingData then
        DataResult(s.(conns := s.conns[id := c.(phase := Relaying)]), Some(Dial(c.upstream, PORT)))
      else
        DataResult(s.(conns := s.conns[id := c.(relayed := c.relayed + [chunk])]), None)
  }

  /** A client at 1.2.3.4 that resolved vhost-1.example, connects and sends
      the single byte 0x01: as written the upstream is dialled but is handed
      nothing, while the corrected handler hands it that byte. */
  lemma FirstChunkLost()
    ensures
      var s := Init(map["vhost-1.example" := "10.0.0.1"]).(lookups := map["1.2.3.4" := "vhost-1.example"]);
      var a := OnConnection(s, "1.2.3.4");
      var written := OnDataAsWritten(a.state, a.id, [1]);
      var fixed := OnData(a.state, a.id, [1]);
      && written.dial == Some(Dial(Some("10.0.0.1"), PORT))
      && written.state.conns[a.id].relayed == []
      && fixed.state.conns[a.id].relayed == [[1]]
  {
    var s := Init(map["vhost-1.example" := "10.0.0.1"]).(lookups := map["1.2.3.4" := "vhost-1.example"]);
    var a := OnConnection(s, "1.2.3.4");
    assert a.state.conns[a.id].phase == AwaitingData;
  }

  /** Routing has no cross-talk: what a connection is bound to depends only
      on its own sender's entry, so two states that agree on that entry and
      on the registry accept the sender identically. */
  lemma RouteDependsOnlyOnOwnEntry(s1: State, s2: State, clientIp: IP)
    requires Get(s1.lookups, clientIp) == Get(s2.lookups, clientIp)
    requires s1.upstreams == s2.upstreams
    ensures
      var c1 := OnConnection(s1, clientIp);
      var c2 := OnConnection(s2, clientIp);
      c1.state.conns[c1.id] == c2.state.conns[c2.id]
  {
  }
}
