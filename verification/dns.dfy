/** The DNS responder: every query records which domain its sender asked
    for and is answered with a forged A record pointing at the proxy. */
module Dns {
  import opened Wrappers
  import opened Routing

  /** Resource record TYPE value of an A (host address) record, section 3.2.2 of RFC 1035. */
  const TYPE_A: nat := 1
  /** Resource record CLASS value of the Internet class, section 3.2.4 of RFC 1035. */
  const CLASS_IN: nat := 1

  datatype Question = Question(name: Domain)

  /** A parsed query; only its question list matters to the handler. */
  datatype Request = Request(questions: seq<Question>)

  datatype Answer = Answer(name: Domain, rtype: nat, rclass: nat, ttl: nat, address: IP)

  /** A response; only its answer list is touched by the handler. */
  datatype Response = Response(answers: seq<Answer>)

  /** Reading `questions[0].name` of a query without questions throws. */
  datatype DnsError = NoQuestion

  datatype Handled = Handled(state: State, response: Response)

  /** The one record the handler appends: the queried name, type A, class
      IN, never cached, resolving to the proxy's own address. */
  function ForgedAnswer(name: Domain, ownIp: IP): Answer {
    Answer(name, TYPE_A, CLASS_IN, 0, ownIp)
  }

  /** The "request" handler. `clientIp` is the transport-level sender,
      `base` the response the DNS library derives from the request (its
      construction is not modelled), `ownIp` the proxy's public address.
      The handler upserts the sender's correlation entry and appends one
      forged answer, whether or not the domain is in the registry. */
  function OnRequest(s: State, ownIp: IP, clientIp: IP, request: Request, base: Response)
    : (r: Result<Handled, DnsError>)
    ensures r.Err? <==> |request.questions| == 0
    ensures r.Ok? ==>
              var d := request.questions[0].name;
              var t := r.value.state;
              && Get(t.lookups, clientIp) == Some(d)
              && (forall ip | ip != clientIp :: Get(t.lookups, ip) == Get(s.lookups, ip))
              && t.upstreams == s.upstreams
              && t.conns == s.conns
              && t.nextConn == s.nextConn
    ensures r.Ok? ==>
              var a := r.value.response.answers;
              && |a| == |base.answers| + 1
              && a[..|base.answers|] == base.answers
              && a[|base.answers|].name == request.questions[0].name
              && a[|base.answers|].rtype == TYPE_A
              && a[|base.answers|].rclass == CLASS_IN
              && a[|base.answers|].ttl == 0
              && a[|base.answers|].address == ownIp
  {
    if |request.questions| == 0 then
      Err(NoQuestion)
    else
      var domain := request.questions[0].name;
      var lookups := s.lookups[clientIp := domain];
      Ok(Handled(s.(lookups := lookups),
                 base.(answers := base.answers + [ForgedAnswer(domain, ownIp)])))
  }

  /** Last write wins: of two queries from the same sender, the second
      domain is the one remembered. */
  lemma LastWriteWins(s: State, ownIp: IP, clientIp: IP, first: Request, second: Request,
                      base1: Response, base2: Response)
    requires |first.questions| > 0 && |second.questions| > 0
    ensures OnRequest(s, ownIp, clientIp, first, base1).Ok?
    ensures
      var s1 := OnRequest(s, ownIp, clientIp, first, base1).value.state;
      var r2 := OnRequest(s1, ownIp, clientIp, second, base2);
      r2.Ok? && Get(r2.value.state.lookups, clientIp) == Some(second.questions[0].name)
  {
  }

  /** Only the first question is consulted: queries that agree on it have
      the same effect on the table and the same response. */
  lemma OnlyFirstQuestionCounts(s: State, ownIp: IP, clientIp: IP, q: Question,
                                rest1: seq<Question>, rest2: seq<Question>, base: Response)
    ensures OnRequest(s, ownIp, clientIp, Request([q] + rest1), base)
         == OnRequest(s, ownIp, clientIp, Request([q] + rest2), base)
  {
  }

  /** A domain absent from the registry is answered exactly like a known one. */
  lemma UnknownDomainStillAnswered(s: State, ownIp: IP, clientIp: IP, request: Request)
    requires |request.questions| > 0
    requires request.questions[0].name !in s.upstreams
    ensures OnRequest(s, ownIp, clientIp, request, Response([])).Ok?
    ensures OnRequest(s, ownIp, clientIp, request, Response([])).value.response.answers
         == [ForgedAnswer(request.questions[0].name, ownIp)]
  {
  }
}
