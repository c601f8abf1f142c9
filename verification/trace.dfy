/** Both listeners as one event-driven state machine: a DNS query, an
    accepted connection, or a chunk of client data, applied in arrival
    order to the shared state, and what the system does in response. */
module Trace {
  import opened Wrappers
  import opened Routing
  import opened Dns
  import opened Proxy

  datatype Event =
    | Query(clientIp: IP, request: Request, base: Response)
    | Connect(clientIp: IP)
    | Data(id: ConnId, chunk: Chunk)

  /** What the system does to the outside world: send a DNS response to a
      client, or dial an upstream on behalf of a connection. */
  datatype Output =
    | Answered(to: IP, response: Response)
    | Dialled(conn: ConnId, dial: Dial)

  datatype Outcome = Outcome(state: State, outputs: seq<Output>)

  /** The domain a single event records for `ip`, if it is a well-formed
      query sent from `ip`. */
  function QueriedBy(e: Event, ip: IP): Option<Domain> {
    if e.Query? && e.clientIp == ip && |e.request.questions| > 0
    then Some(e.request.questions[0].name)
    else None
  }

  /** The domain `ip` asked for in its last well-formed query among `events`. */
  function LastQuery(events: seq<Event>, ip: IP): Option<Domain>
    decreases |events|
  {
    if |events| == 0 then None
    else
      match LastQuery(events[1..], ip)
      case Some(d) => Some(d)
      case None => QueriedBy(events[0], ip)
  }

  /** The correlation entry `ip` should have after `events`, starting from `s`. */
  function Recorded(s: State, events: seq<Event>, ip: IP): Option<Domain> {
    match LastQuery(events, ip)
    case Some(d) => Some(d)
    case None => Get(s.lookups, ip)
  }

  /** The chunks the client of connection `id` sends in `events`, in order. */
  function DataChunks(events: seq<Event>, id: ConnId): seq<Chunk>
    decreases |events|
  {
    if |events| == 0 then []
    else
      (if events[0].Data? && events[0].id == id then [events[0].chunk] else [])
      + DataChunks(events[1..], id)
  }

  /** The dials made on behalf of connection `id`, in order. */
  function DialsOf(outputs: seq<Output>, id: ConnId): seq<Dial>
    decreases |outputs|
  {
    if |outputs| == 0 then []
    else
      (if outputs[0].Dialled? && outputs[0].conn == id then [outputs[0].dial] else [])
      + DialsOf(outputs[1..], id)
  }

  /** Connection identity, client and route: what accept fixes for good. */
  predicate SameRoute(c: Conn, c': Conn) {
    c.clientIp == c'.clientIp && c.domain == c'.domain && c.upstream == c'.upstream
  }

  /** One event. A query without questions throws inside the handler:
      nothing is recorded and no response is sent. */
  function Step(ownIp: IP, s: State, e: Event): (o: Outcome)
    ensures o.state.upstreams == s.upstreams
    ensures forall ip :: Get(o.state.lookups, ip)
                         == match QueriedBy(e, ip) case Some(d) => Some(d) case None => Get(s.lookups, ip)
    ensures e.Query? && |e.request.questions| == 0 ==> o == Outcome(s, [])
    ensures e.Query? && |e.request.questions| > 0 ==>
              && |o.outputs| == 1
              && o.outputs[0].Answered?
              && o.outputs[0].to == e.clientIp
              && o.outputs[0].response.answers
                 == e.base.answers + [ForgedAnswer(e.request.questions[0].name, ownIp)]
    ensures e.Connect? ==> o.outputs == []
    ensures o.state.nextConn == s.nextConn + (if e.Connect? then 1 else 0)
    ensures Valid(s) ==> Valid(o.state)
  {
    match e
    case Query(ip, request, base) =>
      (match OnRequest(s, ownIp, ip, request, base)
       case Ok(h) => Outcome(h.state, [Answered(ip, h.response)])
       case Err(_) => Outcome(s, []))
    case Connect(ip) =>
      Outcome(OnConnection(s, ip).state, [])
    case Data(id, chunk) =>
      var r := OnData(s, id, chunk);
      Outcome(r.state, if r.dial.Some? then [Dialled(id, r.dial.value)] else [])
  }

  /** One event, seen from an accepted connection: it keeps its route and
      is fed exactly the data addressed to it, which ends its wait. */
  lemma StepKeepsRoute(ownIp: IP, s: State, e: Event, id: ConnId)
    requires Valid(s) && id in s.conns
    ensures
      var t := Step(ownIp, s, e).state;
      var c := s.conns[id];
      var fed := e.Data? && e.id == id;
      && id in t.conns
      && SameRoute(t.conns[id], c)
      && t.conns[id].phase == (if fed then Relaying else c.phase)
      && t.conns[id].relayed == c.relayed + (if fed then [e.chunk] else [])
  {
  }

  /** One event, seen from one connection: only an accepted connection
      dials, only on data addressed to it, only while still waiting, and
      then its snapshotted upstream on PORT. */
  lemma StepDials(ownIp: IP, s: State, e: Event, id: ConnId)
    ensures
      var fed := e.Data? && e.id == id;
      DialsOf(Step(ownIp, s, e).outputs, id)
      == if fed && id in s.conns && s.conns[id].phase == AwaitingData
         then [Dial(s.conns[id].upstream, PORT)] else []
  {
  }

  /** Events applied in arrival order, outputs concatenated. */
  function Run(ownIp: IP, s: State, events: seq<Event>): Outcome
    decreases |events|
  {
    if |events| == 0 then Outcome(s, [])
    else
      var first := Step(ownIp, s, events[0]);
      var rest := Run(ownIp, first.state, events[1..]);
      Outcome(rest.state, first.outputs + rest.outputs)
  }

  /** One event with the data listener as written (the first chunk is not
      relayed); queries and connections are handled as by `Step`. */
  function StepAsWritten(ownIp: IP, s: State, e: Event): (o: Outcome)
    ensures !e.Data? ==> o == Step(ownIp, s, e)
    ensures o.state.upstreams == s.upstreams
    ensures o.state.nextConn == s.nextConn + (if e.Connect? then 1 else 0)
    ensures Valid(s) ==> Valid(o.state)
  {
    match e
    case Data(id, chunk) =>
      var r := OnDataAsWritten(s, id, chunk);
      Outcome(r.state, if r.dial.Some? then [Dialled(id, r.dial.value)] else [])
    case _ => Step(ownIp, s, e)
  }

  /** Events applied in arrival order with the data listener as written. */
  function RunAsWritten(ownIp: IP, s: State, events: seq<Event>): Outcome
    decreases |events|
  {
    if |events| == 0 then Outcome(s, [])
    else
      var first := StepAsWritten(ownIp, s, events[0]);
      var rest := RunAsWritten(ownIp, first.state, events[1..]);
      Outcome(rest.state, first.outputs + rest.outputs)
  }

  /** All but the first of a list of chunks. */
  function DropFirst(chunks: seq<Chunk>): seq<Chunk> {
    if |chunks| == 0 then [] else chunks[1..]
  }

  /** Dials for one connection over two output batches are the dials of each, in order. */
  lemma {:induction false} DialsOfAppend(a: seq<Output>, b: seq<Output>, id: ConnId)
    ensures DialsOf(a + b, id) == DialsOf(a, id) + DialsOf(b, id)
    decreases |a|
  {
    if |a| == 0 {
      assert a + b == b;
    } else {
      assert (a + b)[0] == a[0];
      assert (a + b)[1..] == a[1..] + b;
      DialsOfAppend(a[1..], b, id);
    }
  }

  /** Running two batches of events one after the other is running their
      concatenation. */
  lemma {:induction false} RunAppend(ownIp: IP, s: State, a: seq<Event>, b: seq<Event>)
    ensures
      var ra := Run(ownIp, s, a);
      var rb := Run(ownIp, ra.state, b);
      Run(ownIp, s, a + b) == Outcome(rb.state, ra.outputs + rb.outputs)
    decreases |a|
  {
    if |a| == 0 {
      assert a + b == b;
    } else {
      var first := Step(ownIp, s, a[0]);
      assert (a + b)[0] == a[0];
      assert (a + b)[1..] == a[1..] + b;
      RunAppend(ownIp, first.state, a[1..], b);
      var ra := Run(ownIp, first.state, a[1..]);
      var rb := Run(ownIp, ra.state, b);
      assert first.outputs + (ra.outputs + rb.outputs) == (first.outputs + ra.outputs) + rb.outputs;
    }
  }

  /** The registry is never written, and connection identities stay unique. */
  lemma {:induction false} RunPreserves(ownIp: IP, s: State, events: seq<Event>)
    ensures Run(ownIp, s, events).state.upstreams == s.upstreams
    ensures Run(ownIp, s, events).state.nextConn >= s.nextConn
    ensures Valid(s) ==> Valid(Run(ownIp, s, events).state)
    decreases |events|
  {
    if |events| > 0 {
      RunPreserves(ownIp, Step(ownIp, s, events[0]).state, events[1..]);
    }
  }

  /** Last write wins, per client: after any events, an IP's correlation
      entry is the domain of its own last well-formed query, or what it was
      before if it sent none. Queries from other IPs, connections and data
      never touch it. */
  lemma {:induction false} LookupsFollowLastQuery(ownIp: IP, s: State, events: seq<Event>, ip: IP)
    ensures Get(Run(ownIp, s, events).state.lookups, ip) == Recorded(s, events, ip)
    decreases |events|
  {
    if |events| > 0 {
      LookupsFollowLastQuery(ownIp, Step(ownIp, s, events[0]).state, events[1..], ip);
    }
  }

  /** Querying `d` and then `d'` from the same IP leaves `d'`, whatever
      the state was. */
  lemma QueryThenQuery(ownIp: IP, s: State, ip: IP, d: Domain, d': Domain, base: Response)
    ensures
      var events := [Query(ip, Request([Question(d)]), base), Query(ip, Request([Question(d')]), base)];
      Get(Run(ownIp, s, events).state.lookups, ip) == Some(d')
  {
    var events := [Query(ip, Request([Question(d)]), base), Query(ip, Request([Question(d')]), base)];
    LookupsFollowLastQuery(ownIp, s, events, ip);
    assert events[1..][1..] == [];
    assert LastQuery(events[1..], ip) == Some(d');
  }

  /** An accepted connection under any further events: its route never
      changes, and it leaves the waiting phase exactly when data for it
      arrives. */
  lemma {:induction false} ConnectionKeepsRoute(ownIp: IP, s: State, events: seq<Event>, id: ConnId)
    requires Valid(s) && id in s.conns
    ensures
      var t := Run(ownIp, s, events).state;
      var c := s.conns[id];
      && id in t.conns
      && SameRoute(t.conns[id], c)
      && t.conns[id].phase == (if |DataChunks(events, id)| > 0 then Relaying else c.phase)
    decreases |events|
  {
    if |events| > 0 {
      var first := Step(ownIp, s, events[0]);
      assert Run(ownIp, s, events).state == Run(ownIp, first.state, events[1..]).state;
      StepKeepsRoute(ownIp, s, events[0], id);
      ConnectionKeepsRoute(ownIp, first.state, events[1..], id);
      var rest := DataChunks(events[1..], id);
      if events[0].Data? && events[0].id == id {
        assert DataChunks(events, id) == [events[0].chunk] + rest;
      } else {
        assert DataChunks(events, id) == rest;
      }
    }
  }

  /** The upstream of an accepted connection is handed every chunk its
      client sends, in order, by the corrected data listener. */
  lemma {:induction false} ConnectionRelaysAll(ownIp: IP, s: State, events: seq<Event>, id: ConnId)
    requires Valid(s) && id in s.conns
    ensures id in Run(ownIp, s, events).state.conns
    ensures Run(ownIp, s, events).state.conns[id].relayed == s.conns[id].relayed + DataChunks(events, id)
    decreases |events|
  {
    if |events| > 0 {
      var first := Step(ownIp, s, events[0]);
      assert Run(ownIp, s, events).state == Run(ownIp, first.state, events[1..]).state;
      StepKeepsRoute(ownIp, s, events[0], id);
      ConnectionRelaysAll(ownIp, first.state, events[1..], id);
      var c, c1 := s.conns[id], first.state.conns[id];
      var rest := DataChunks(events[1..], id);
      if events[0].Data? && events[0].id == id {
        assert DataChunks(events, id) == [events[0].chunk] + rest;
        assert c1.relayed + rest == c.relayed + ([events[0].chunk] + rest);
      } else {
        assert DataChunks(events, id) == rest;
      }
    }
  }

  /** Dialling is lazy and happens at most once: an accepted connection
      dials its snapshotted upstream on PORT exactly when it is still waiting
      and some data for it arrives, and then exactly once. */
  lemma {:induction false} ConnectionDialsOnce(ownIp: IP, s: State, events: seq<Event>, id: ConnId)
    requires Valid(s) && id in s.conns
    ensures
      var c := s.conns[id];
      DialsOf(Run(ownIp, s, events).outputs, id)
      == if c.phase == AwaitingData && |DataChunks(events, id)| > 0 then [Dial(c.upstream, PORT)] else []
    decreases |events|
  {
    if |events| > 0 {
      var first := Step(ownIp, s, events[0]);
      var rest := Run(ownIp, first.state, events[1..]);
      assert Run(ownIp, s, events).outputs == first.outputs + rest.outputs;
      StepKeepsRoute(ownIp, s, events[0], id);
      StepDials(ownIp, s, events[0], id);
      ConnectionDialsOnce(ownIp, first.state, events[1..], id);
      DialsOfAppend(first.outputs, rest.outputs, id);
    }
  }

  /** One event with the data listener as written, seen from one
      connection: it dials exactly as the corrected listener does, keeps the
      route, and relays the data addressed to it unless that data is the
      first. */
  lemma StepAsWrittenOnConnection(ownIp: IP, s: State, e: Event, id: ConnId)
    requires Valid(s)
    ensures DialsOf(StepAsWritten(ownIp, s, e).outputs, id) == DialsOf(Step(ownIp, s, e).outputs, id)
    ensures id in s.conns ==>
              var t := StepAsWritten(ownIp, s, e).state;
              var c := s.conns[id];
              var fed := e.Data? && e.id == id;
              && id in t.conns
              && SameRoute(t.conns[id], c)
              && t.conns[id].phase == (if fed then Relaying else c.phase)
              && t.conns[id].relayed == c.relayed + (if fed && c.phase == Relaying then [e.chunk] else [])
  {
  }

  /** The `once` listener as written still dials at most once: an accepted
      connection dials its snapshotted upstream on PORT exactly when it is
      waiting and some data for it arrives, and then exactly once. */
  lemma {:induction false} AsWrittenDialsOnce(ownIp: IP, s: State, events: seq<Event>, id: ConnId)
    requires Valid(s) && id in s.conns
    ensures
      var c := s.conns[id];
      DialsOf(RunAsWritten(ownIp, s, events).outputs, id)
      == if c.phase == AwaitingData && |DataChunks(events, id)| > 0 then [Dial(c.upstream, PORT)] else []
    decreases |events|
  {
    if |events| > 0 {
      var first := StepAsWritten(ownIp, s, events[0]);
      var rest := RunAsWritten(ownIp, first.state, events[1..]);
      assert RunAsWritten(ownIp, s, events).outputs == first.outputs + rest.outputs;
      StepAsWrittenOnConnection(ownIp, s, events[0], id);
      StepDials(ownIp, s, events[0], id);
      AsWrittenDialsOnce(ownIp, first.state, events[1..], id);
      DialsOfAppend(first.outputs, rest.outputs, id);
    }
  }

  /** With the listener as written, a connection that is still waiting
      hands its upstream every chunk it sends except the first; one already
      relaying hands it every chunk. */
  lemma {:induction false} AsWrittenRelaysAllButFirst(ownIp: IP, s: State, events: seq<Event>, id: ConnId)
    requires Valid(s) && id in s.conns
    ensures id in RunAsWritten(ownIp, s, events).state.conns
    ensures
      var c := s.conns[id];
      var sent := DataChunks(events, id);
      RunAsWritten(ownIp, s, events).state.conns[id].relayed
      == c.relayed + (if c.phase == AwaitingData then DropFirst(sent) else sent)
    decreases |events|
  {
    if |events| > 0 {
      var first := StepAsWritten(ownIp, s, events[0]);
      assert RunAsWritten(ownIp, s, events).state == RunAsWritten(ownIp, first.state, events[1..]).state;
      StepAsWrittenOnConnection(ownIp, s, events[0], id);
      AsWrittenRelaysAllButFirst(ownIp, first.state, events[1..], id);
      var fed := events[0].Data? && events[0].id == id;
      var now := if fed then [events[0].chunk] else [];
      assert DataChunks(events, id) == now + DataChunks(events[1..], id);
      var c, c1 := s.conns[id], first.state.conns[id];
      AllButFirstStep(c.phase, c.relayed, c1.phase, c1.relayed, now, DataChunks(events[1..], id),
                      RunAsWritten(ownIp, s, events).state.conns[id].relayed);
    }
  }

  /** One step of `AsWrittenRelaysAllButFirst`: a connection in phase `p`
      having relayed `r` moves to phase `p1` having relayed `r1` while its
      client sends `now` (at most one chunk), then `later`. */
  lemma AllButFirstStep(p: Phase, r: seq<Chunk>, p1: Phase, r1: seq<Chunk>,
                        now: seq<Chunk>, later: seq<Chunk>, relayed: seq<Chunk>)
    requires |now| <= 1
    requires p1 == if |now| > 0 then Relaying else p
    requires r1 == r + (if p == Relaying then now else [])
    requires relayed == r1 + (if p1 == AwaitingData then DropFirst(later) else later)
    ensures relayed == r + (if p == AwaitingData then DropFirst(now + later) else now + later)
  {
  }

  /** Two states that differ at most in what their connections have relayed. */
  predicate Agree(s: State, t: State) {
    && s.lookups == t.lookups
    && s.upstreams == t.upstreams
    && s.nextConn == t.nextConn
    && s.conns.Keys == t.conns.Keys
    && forall id | id in s.conns :: SameRoute(s.conns[id], t.conns[id]) && s.conns[id].phase == t.conns[id].phase
  }

  /** One event, handled by the corrected listener from `s` and by the
      listener as written from `t`, gives the same outputs and states that
      still differ only in what was relayed. */
  lemma StepAgree(ownIp: IP, s: State, t: State, e: Event)
    requires Agree(s, t)
    ensures Agree(Step(ownIp, s, e).state, StepAsWritten(ownIp, t, e).state)
    ensures Step(ownIp, s, e).outputs == StepAsWritten(ownIp, t, e).outputs
  {
  }

  /** The two listeners differ only in what they relay: over any events, the
      corrected machine and the one as written produce the same DNS answers
      and dials, and agree on the correlation table, the registry, the
      identities handed out, and every connection's route and phase. So every
      lemma here about `Run` other than its `relayed` clauses holds of the
      code as written as well. */
  lemma {:induction false} RunAgree(ownIp: IP, s: State, t: State, events: seq<Event>)
    requires Agree(s, t)
    ensures Agree(Run(ownIp, s, events).state, RunAsWritten(ownIp, t, events).state)
    ensures Run(ownIp, s, events).outputs == RunAsWritten(ownIp, t, events).outputs
    decreases |events|
  {
    if |events| > 0 {
      StepAgree(ownIp, s, t, events[0]);
      RunAgree(ownIp, Step(ownIp, s, events[0]).state, StepAsWritten(ownIp, t, events[0]).state, events[1..]);
    }
  }

  /** Nothing dials on behalf of a connection that has not been accepted. */
  lemma {:induction false} NoDialBeforeAccept(ownIp: IP, s: State, events: seq<Event>, id: ConnId)
    requires Valid(s)
    requires id >= Run(ownIp, s, events).state.nextConn
    ensures DialsOf(Run(ownIp, s, events).outputs, id) == []
    decreases |events|
  {
    if |events| > 0 {
      var first := Step(ownIp, s, events[0]);
      RunPreserves(ownIp, first.state, events[1..]);
      StepDials(ownIp, s, events[0], id);
      NoDialBeforeAccept(ownIp, first.state, events[1..], id);
      DialsOfAppend(first.outputs, Run(ownIp, first.state, events[1..]).outputs, id);
    }
  }

  /** End to end: a client connects from `ip` after `before`. The connection
      is bound, at that moment, to the upstream of the domain `ip` last
      queried, possibly `undefined`; queries after the accept do not rebind
      it. It dials that upstream on PORT once if the client sends any data in
      `after`, and never otherwise; every chunk the client sends reaches it. */
  lemma ConnectionLifecycle(ownIp: IP, s: State, before: seq<Event>, ip: IP, after: seq<Event>)
    requires Valid(s)
    ensures
      var id := Run(ownIp, s, before).state.nextConn;
      var t := Run(ownIp, s, before + [Connect(ip)] + after);
      var target := Dial(GetOpt(s.upstreams, Recorded(s, before, ip)), PORT);
      && id in t.state.conns
      && t.state.conns[id].clientIp == ip
      && t.state.conns[id].domain == Recorded(s, before, ip)
      && t.state.conns[id].relayed == DataChunks(after, id)
      && DialsOf(t.outputs, id) == if |DataChunks(after, id)| > 0 then [target] else []
  {
    var s1 := Run(ownIp, s, before).state;
    var id := s1.nextConn;
    RunPreserves(ownIp, s, before);
    LookupsFollowLastQuery(ownIp, s, before, ip);
    NoDialBeforeAccept(ownIp, s, before, id);
    var s2 := Step(ownIp, s1, Connect(ip)).state;
    assert s2 == OnConnection(s1, ip).state;
    assert Run(ownIp, s1, [Connect(ip)]) == Outcome(s2, []);
    RunAppend(ownIp, s, before, [Connect(ip)]);
    var ra := Run(ownIp, s, before + [Connect(ip)]);
    assert ra.state == s2;
    assert ra.outputs == Run(ownIp, s, before).outputs + [];
    assert DialsOf(ra.outputs, id) == [] by {
      assert ra.outputs == Run(ownIp, s, before).outputs;
    }
    RunAppend(ownIp, s, before + [Connect(ip)], after);
    var c := s2.conns[id];
    assert c.phase == AwaitingData && c.relayed == [];
    assert c.upstream == GetOpt(s.upstreams, Recorded(s, before, ip));
    ConnectionKeepsRoute(ownIp, s2, after, id);
    ConnectionRelaysAll(ownIp, s2, after, id);
    ConnectionDialsOnce(ownIp, s2, after, id);
    DialsOfAppend(ra.outputs, Run(ownIp, s2, after).outputs, id);
  }

  /** A client that never resolved anything is not turned away: once it
      sends data, its connection dials an `undefined` host on PORT. */
  lemma UnknownClientStillDials(ownIp: IP, s: State, before: seq<Event>, ip: IP, after: seq<Event>)
    requires Valid(s)
    requires ip !in s.lookups && LastQuery(before, ip).None?
    requires |DataChunks(after, Run(ownIp, s, before).state.nextConn)| > 0
    ensures
      var id := Run(ownIp, s, before).state.nextConn;
      DialsOf(Run(ownIp, s, before + [Connect(ip)] + after).outputs, id) == [Dial(None, PORT)]
  {
    ConnectionLifecycle(ownIp, s, before, ip, after);
  }

  /** A connection event takes exactly one connection identity. */
  lemma AcceptCounts(ownIp: IP, s: State, before: seq<Event>, ip: IP)
    ensures Run(ownIp, s, before + [Connect(ip)]).state.nextConn == Run(ownIp, s, before).state.nextConn + 1
  {
    RunAppend(ownIp, s, before, [Connect(ip)]);
    var s1 := Run(ownIp, s, before).state;
    assert Run(ownIp, s1, [Connect(ip)]).state == Step(ownIp, s1, Connect(ip)).state;
  }

  /** The last query over a longer history: a new well-formed query from
      `ip` supersedes everything before it; any other event changes nothing. */
  lemma {:induction false} LastQuerySnoc(events: seq<Event>, e: Event, ip: IP)
    ensures LastQuery(events + [e], ip)
            == match QueriedBy(e, ip) case Some(d) => Some(d) case None => LastQuery(events, ip)
    decreases |events|
  {
    if |events| == 0 {
      assert events + [e] == [e];
      assert [e][1..] == [];
    } else {
      assert (events + [e])[0] == events[0];
      assert (events + [e])[1..] == events[1..] + [e];
      LastQuerySnoc(events[1..], e, ip);
    }
  }

  /** Two well-formed queries from distinct IPs: each IP's last query is its
      own, and neither takes a connection identity. */
  lemma TwoQueries(ownIp: IP, s: State, qa: Event, qb: Event, a: IP, b: IP, da: Domain, db: Domain)
    requires a != b
    requires qa == Query(a, Request([Question(da)]), Response([]))
    requires qb == Query(b, Request([Question(db)]), Response([]))
    ensures LastQuery([qa, qb], a) == Some(da)
    ensures LastQuery([qa, qb], b) == Some(db)
    ensures Run(ownIp, s, [qa, qb]).state.nextConn == s.nextConn
  {
    var queries := [qa, qb];
    assert queries[1..] == [qb];
    assert [qb][1..] == [];
    assert LastQuery([qb][1..], b) == None;
    assert LastQuery([qb], a) == None;
    assert LastQuery([qb], b) == Some(db);
    var s1 := Step(ownIp, s, qa).state;
    assert Run(ownIp, s1, [qb]).state == Run(ownIp, Step(ownIp, s1, qb).state, []).state;
  }

  /** Two data events on distinct connections: each connection is sent
      exactly its own chunk. */
  lemma TwoDataEvents(idA: ConnId, idB: ConnId, x: Chunk, y: Chunk)
    requires idA != idB
    ensures DataChunks([Data(idA, x), Data(idB, y)], idA) == [x]
    ensures DataChunks([Data(idA, x), Data(idB, y)], idB) == [y]
  {
    var datas := [Data(idA, x), Data(idB, y)];
    assert datas[1..] == [Data(idB, y)];
    assert datas[1..][1..] == [];
    assert DataChunks(datas[1..][1..], idA) == [] && DataChunks(datas[1..][1..], idB) == [];
    assert DataChunks(datas[1..], idA) == [];
    assert DataChunks(datas[1..], idB) == [y];
  }

  /** Two clients query two domains, then both connect, in either order, and
      both send data: each connection dials the upstream of its own client's
      domain, and nothing else. */
  lemma TwoClientsNoCrossTalk(ownIp: IP, upstreams: map<Domain, IP>, a: IP, b: IP,
                              da: Domain, db: Domain, aFirst: bool, x: Chunk, y: Chunk)
    requires a != b
    ensures
      var queries := [Query(a, Request([Question(da)]), Response([])),
                      Query(b, Request([Question(db)]), Response([]))];
      var connects := if aFirst then [Connect(a), Connect(b)] else [Connect(b), Connect(a)];
      var idA: ConnId := if aFirst then 0 else 1;
      var idB: ConnId := if aFirst then 1 else 0;
      var t := Run(ownIp, Init(upstreams), queries + connects + [Data(idA, x), Data(idB, y)]);
      && DialsOf(t.outputs, idA) == [Dial(Get(upstreams, da), PORT)]
      && DialsOf(t.outputs, idB) == [Dial(Get(upstreams, db), PORT)]
  {
    var s := Init(upstreams);
    var qa := Query(a, Request([Question(da)]), Response([]));
    var qb := Query(b, Request([Question(db)]), Response([]));
    var queries := [qa, qb];
    var connects := if aFirst then [Connect(a), Connect(b)] else [Connect(b), Connect(a)];
    var idA: ConnId := if aFirst then 0 else 1;
    var idB: ConnId := if aFirst then 1 else 0;
    var datas := [Data(idA, x), Data(idB, y)];
    var events := queries + connects + datas;
    TwoQueries(ownIp, s, qa, qb, a, b, da, db);
    var s2 := Run(ownIp, s, queries).state;
    TwoDataEvents(idA, idB, x, y);
    var first, second := connects[0], connects[1];
    var firstIp, secondIp := first.clientIp, second.clientIp;
    // The first connection: accepted straight after the queries.
    assert events == queries + [first] + ([second] + datas);
    ConnectionLifecycle(ownIp, s, queries, firstIp, [second] + datas);
    assert DataChunks([second] + datas, 0) == DataChunks(datas, 0) by {
      assert ([second] + datas)[1..] == datas;
    }
    // The second connection: accepted after the queries and the first accept.
    assert events == (queries + [first]) + [second] + datas;
    AcceptCounts(ownIp, s, queries, firstIp);
    LastQuerySnoc(queries, first, secondIp);
    ConnectionLifecycle(ownIp, s, queries + [first], secondIp, datas);
  }

  /** Running two batches one after the other with the listener as written
      is running their concatenation. */
  lemma {:induction false} AsWrittenAppend(ownIp: IP, s: State, a: seq<Event>, b: seq<Event>)
    ensures
      var ra := RunAsWritten(ownIp, s, a);
      var rb := RunAsWritten(ownIp, ra.state, b);
      RunAsWritten(ownIp, s, a + b) == Outcome(rb.state, ra.outputs + rb.outputs)
    decreases |a|
  {
    if |a| == 0 {
      assert a + b == b;
    } else {
      var first := StepAsWritten(ownIp, s, a[0]);
      assert (a + b)[0] == a[0];
      assert (a + b)[1..] == a[1..] + b;
      AsWrittenAppend(ownIp, first.state, a[1..], b);
      var ra := RunAsWritten(ownIp, first.state, a[1..]);
      var rb := RunAsWritten(ownIp, ra.state, b);
      assert first.outputs + (ra.outputs + rb.outputs) == (first.outputs + ra.outputs) + rb.outputs;
    }
  }

  /** Connection identities stay fresh with the listener as written. */
  lemma {:induction false} AsWrittenValid(ownIp: IP, s: State, events: seq<Event>)
    requires Valid(s)
    ensures Valid(RunAsWritten(ownIp, s, events).state)
    decreases |events|
  {
    if |events| > 0 {
      AsWrittenValid(ownIp, StepAsWritten(ownIp, s, events[0]).state, events[1..]);
    }
  }

  /** Last write wins per client holds of the code as written too. */
  lemma AsWrittenLookupsFollowLastQuery(ownIp: IP, s: State, events: seq<Event>, ip: IP)
    ensures Get(RunAsWritten(ownIp, s, events).state.lookups, ip) == Recorded(s, events, ip)
  {
    RunAgree(ownIp, s, s, events);
    LookupsFollowLastQuery(ownIp, s, events, ip);
  }

  /** End to end, with the data listener as written: a client connecting
      after `before` is bound to the upstream of the domain it last queried
      before the accept, dials it on PORT once iff it sends data in `after`,
      and its upstream is handed all of that data except the first chunk. */
  lemma AsWrittenLifecycle(ownIp: IP, s: State, before: seq<Event>, ip: IP, after: seq<Event>)
    requires Valid(s)
    ensures
      var id := RunAsWritten(ownIp, s, before).state.nextConn;
      var t := RunAsWritten(ownIp, s, before + [Connect(ip)] + after);
      var target := Dial(GetOpt(s.upstreams, Recorded(s, before, ip)), PORT);
      && id in t.state.conns
      && t.state.conns[id].clientIp == ip
      && t.state.conns[id].domain == Recorded(s, before, ip)
      && t.state.conns[id].relayed == DropFirst(DataChunks(after, id))
      && DialsOf(t.outputs, id) == if |DataChunks(after, id)| > 0 then [target] else []
  {
    var events := before + [Connect(ip)] + after;
    RunAgree(ownIp, s, s, before);
    RunAgree(ownIp, s, s, events);
    ConnectionLifecycle(ownIp, s, before, ip, after);
    var id := Run(ownIp, s, before).state.nextConn;
    // The as-written relay: run up to and including the accept, then the rest.
    var s1 := RunAsWritten(ownIp, s, before).state;
    var s2 := StepAsWritten(ownIp, s1, Connect(ip)).state;
    AsWrittenAppend(ownIp, s, before + [Connect(ip)], after);
    AsWrittenAppend(ownIp, s, before, [Connect(ip)]);
    assert RunAsWritten(ownIp, s1, [Connect(ip)]).state == s2;
    assert Valid(s1) by {
      AsWrittenValid(ownIp, s, before);
    }
    AsWrittenRelaysAllButFirst(ownIp, s2, after, id);
  }
}
