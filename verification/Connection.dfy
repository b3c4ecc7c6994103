/**
  One client connection: authenticate once, then answer every frame in order.
  The JSON codec of requests, catalogs and reports is a parameter; error answers
  are rendered here.
 */
module Connections {
  import opened Wrappers
  import opened Contracts
  import opened Texts
  import opened Frames
  import opened Brokers

  /** What a connection is set up with: the JSON codec, and the manifest its worker serves. */
  datatype Endpoint = Endpoint(
    parse: seq<Byte> -> Result<BrokerRequest, string>,
    catalog: ProviderManifest -> seq<Byte>,
    report: LifecycleResult -> seq<Byte>,
    manifest: ProviderManifest)

  const ERROR_OPEN: string := "{\"outcome\":\"error\",\"error\":{\"kind\":\""
  const ERROR_MESSAGE: string := "\",\"message\":\""
  const ERROR_CLOSE: string := "\"}}"
  const UNAUTHORIZED: string := "peer is not authorized"
  const BODY_EMPTY: string := "frame body is empty"
  const FRAME_LENGTH: string := "frame length "
  const EXCEEDS_MAXIMUM: string := " exceeds the maximum"
  const INVALID_REQUEST: string := "invalid request: "
  const WORKER_STOPPED: string := "broker worker has stopped"
  const REQUEST_DROPPED: string := "broker worker dropped the request"

  /** serde_json::to_vec of a response. */
  function Render(site: Endpoint, response: BrokerResponse): seq<Byte> {
    match response
    case Capabilities(manifest) => site.catalog(manifest)
    case Report(report) => site.report(report)
    case Error(kind, message) =>
      Utf8(ERROR_OPEN) + Utf8(kind.Name())
      + Utf8(ERROR_MESSAGE) + Escape(message) + Utf8(ERROR_CLOSE)
  }

  function RenderAll(site: Endpoint, responses: seq<BrokerResponse>): seq<seq<Byte>> {
    seq(|responses|, k requires 0 <= k < |responses| => Render(site, responses[k]))
  }

  predicate AllSendable(site: Endpoint, responses: seq<BrokerResponse>) {
    forall k :: 0 <= k < |responses| ==> Sendable(Render(site, responses[k]))
  }

  /** The frames of some responses, one after the other. */
  function Wire(site: Endpoint, responses: seq<BrokerResponse>): seq<Byte>
    requires AllSendable(site, responses)
  {
    EncodeAll(RenderAll(site, responses))
  }

  /** What writing one response puts on the wire: nothing when the writer refuses it. */
  function Piece(site: Endpoint, response: BrokerResponse): seq<Byte> {
    var body := Render(site, response);
    if Sendable(body) then Encode(body) else []
  }

  function Rejection(): BrokerResponse {
    Error(Unauthenticated, Utf8(UNAUTHORIZED))
  }

  function EmptyFrame(): BrokerResponse {
    Error(Malformed, Utf8(BODY_EMPTY))
  }

  function OversizeFrame(length: nat): BrokerResponse {
    Error(Malformed, Utf8(FRAME_LENGTH) + Utf8(Decimal(length)) + Utf8(EXCEEDS_MAXIMUM))
  }

  function Undecodable(reason: string): BrokerResponse {
    Error(Malformed, Utf8(INVALID_REQUEST) + Echoed(reason))
  }

  // ----- the worker, seen from a connection ------------------------------------------

  datatype Exchange = Exchange(request: BrokerRequest, response: BrokerResponse)

  function WorkerStopped(): BrokerResponse {
    Error(Internal, Utf8(WORKER_STOPPED))
  }

  function RequestDropped(): BrokerResponse {
    Error(Internal, Utf8(REQUEST_DROPPED))
  }

  /** The service handled the request in some state of its host and its ledger, and this was its answer. */
  ghost predicate FromService(manifest: ProviderManifest, request: BrokerRequest, response: BrokerResponse) {
    exists owners, w, w', used :: Handled(manifest, owners, request, w, w', used, response)
  }

  /** What a dispatched request can be answered. */
  ghost predicate WorkerSays(manifest: ProviderManifest, request: BrokerRequest, response: BrokerResponse) {
    FromService(manifest, request, response) || response == WorkerStopped() || response == RequestDropped()
  }

  /** A handle to the worker, with every request ever dispatched through it and its answer. */
  class BrokerHandle {
    const service: BrokerService
    var log: seq<Exchange>

    constructor (service: BrokerService)
      ensures this.service == service && log == []
    {
      this.service := service;
      log := [];
    }

    /**
      The worker handles the jobs queued before this one and then this one; or it
      has stopped, or it stops before it answers.  `trail` is what it did.
     */
    method Dispatch(request: BrokerRequest) returns (response: BrokerResponse, ghost trail: Trail)
      requires service.Valid()
      modifies this`log, service.ledger, service.plane.host`devices, service.plane.host`rows, service.plane.host`now
      ensures service.Valid() && service.ledger.owners == old(service.ledger.owners)
      ensures trail.Served(service.plane.manifest, service.ledger.owners)
      ensures trail.worlds[0] == old(service.plane.host.View())
      ensures trail.worlds[|trail.jobs|] == service.plane.host.View()
      ensures || (response == Error(Internal, Utf8("broker worker has stopped")) && trail.jobs == [])
              || response == Error(Internal, Utf8("broker worker dropped the request"))
              || trail.EndsWith(request, response)
      ensures WorkerSays(service.plane.manifest, request, response)
      ensures log == old(log) + [Exchange(request, response)]
    {
      var stopped: bool, dropped: bool := *, *;
      trail := Trail([], [service.plane.host.View()], [], []);
      if stopped {
        response := Error(Internal, Utf8(WORKER_STOPPED));
      } else {
        var queued: seq<BrokerRequest> := *;
        var earlier, worlds, runs := service.Work(queued);
        trail := Trail(queued, worlds, runs, earlier);
        if dropped {
          response := Error(Internal, Utf8(REQUEST_DROPPED));
        } else {
          ghost var used;
          response, used := service.Handle(request);
          TrailGoesOn(service.plane.manifest, service.ledger.owners, trail, request,
                      service.plane.host.View(), used, response);
          trail := trail.Then(request, service.plane.host.View(), used, response);
        }
      }
      log := log + [Exchange(request, response)];
    }
  }

  // ----- what refusals say ---------------------------------------------------------------

  /** A malformed request: the fixed texts, and what the client sent or how much. */
  predicate SaysMalformed(response: BrokerResponse, message: seq<Byte>) {
    response.Error? && response.kind == Malformed && response.message == message
  }

  /** The documented name of a kind on the wire. */
  function WireName(kind: BrokerErrorKind): string {
    match kind
    case Unauthenticated => "unauthenticated"
    case Malformed => "malformed"
    case UncataloguedCapability => "unknown-capability"
    case RequestDenied => "policy-denied"
    case KnobOwned => "owner-conflict"
    case LifecycleFailed => "lifecycle-failed"
    case Internal => "internal"
  }

  /**
    An error on the wire: it opens with its kind's documented name, distinct kinds
    have distinct names, and its message is read back from it whole.
   */
  lemma ErrorsOnTheWire(site: Endpoint, kind: BrokerErrorKind, message: seq<Byte>, other: BrokerErrorKind)
    ensures WireName(kind) == WireName(other) <==> kind == other
    ensures var head := Utf8("{\"outcome\":\"error\",\"error\":{\"kind\":\"") + Utf8(WireName(kind))
                        + Utf8("\",\"message\":\"");
            && head <= Render(site, Error(kind, message))
            && ReadString(Render(site, Error(kind, message))[|head|..]) == Some((message, Utf8("}}")))
  {
    assert kind != other ==> |WireName(kind)| != |WireName(other)|;
    var head := Utf8(ERROR_OPEN) + Utf8(kind.Name()) + Utf8(ERROR_MESSAGE);
    CloseIsQuote();
    EscapeRoundTrip(message, Utf8("}}"));
    assert Render(site, Error(kind, message)) == head + Quoted(message, Utf8("}}"));
  }

  lemma CloseIsQuote()
    ensures Utf8(ERROR_CLOSE) == [34] + Utf8("}}")
  {
    var close, braces := ERROR_CLOSE, "}}";
    assert close[..2][..1] == close[..1] && close[..1][..0] == [] && braces[..1][..0] == [];
    assert Utf8(close[..1]) == [34] && Utf8(close[..2]) == [34, 125] && Utf8(close) == [34, 125, 125];
    assert Utf8(braces[..1]) == [125] && Utf8(braces) == [125, 125];
  }

  /** What of a peer's input is refused before it reaches the worker is called malformed, and why. */
  predicate RefusesRead(site: Endpoint, read: Read, response: BrokerResponse) {
    match read
    case Ok(Some(frame)) =>
      site.parse(frame).Err? ==>
        SaysMalformed(response, Utf8("invalid request: ") + Echoed(site.parse(frame).error))
    case Err(EmptyBody) => SaysMalformed(response, Utf8("frame body is empty"))
    case Err(TooLarge(length)) =>
      SaysMalformed(response, Utf8("frame length ") + Utf8(Decimal(length)) + Utf8(" exceeds the maximum"))
    case _ => true
  }

  lemma RefusalsAreMalformed(site: Endpoint, read: Read, response: BrokerResponse)
    requires Answers(site, read, response)
    ensures RefusesRead(site, read, response)
  {
  }

  // ----- the transducer ------------------------------------------------------------------

  /** The answer one read calls for; a decodable request gets what the worker says. */
  ghost predicate Answers(site: Endpoint, read: Read, response: BrokerResponse) {
    match read
    case Ok(Some(frame)) =>
      (match site.parse(frame)
       case Ok(request) => WorkerSays(site.manifest, request, response)
       case Err(reason) => response == Undecodable(reason))
    case Ok(None) => false
    case Err(EmptyBody) => response == EmptyFrame()
    case Err(TooLarge(length)) => response == OversizeFrame(length)
    case Err(_) => false
  }

  /** What goes to the worker on account of one read. */
  function Dispatched(site: Endpoint, read: Read, response: BrokerResponse): seq<Exchange> {
    if read.Ok? && read.value.Some? && site.parse(read.value.value).Ok?
    then [Exchange(site.parse(read.value.value).value, response)]
    else []
  }

  /** The decodable requests among the reads answered so far, each with the answer given to its frame. */
  function Exchanges(site: Endpoint, received: seq<Read>, answers: seq<BrokerResponse>): seq<Exchange>
    requires |answers| <= |received|
  {
    if answers == [] then []
    else
      var n := |answers| - 1;
      Exchanges(site, received, answers[..n]) + Dispatched(site, received[n], answers[n])
  }

  /** The k-th answer is to the k-th read. */
  ghost predicate Answered(site: Endpoint, received: seq<Read>, answers: seq<BrokerResponse>) {
    |answers| <= |received| && forall k :: 0 <= k < |answers| ==> Answers(site, received[k], answers[k])
  }

  /** Each refused read got its refusal. */
  predicate RefusesReads(site: Endpoint, received: seq<Read>, answers: seq<BrokerResponse>) {
    |answers| <= |received| && forall k :: 0 <= k < |answers| ==> RefusesRead(site, received[k], answers[k])
  }

  lemma ReadsAreRefused(site: Endpoint, received: seq<Read>, answers: seq<BrokerResponse>)
    requires Answered(site, received, answers)
    ensures RefusesReads(site, received, answers)
  {
    forall k | 0 <= k < |answers|
      ensures RefusesRead(site, received[k], answers[k])
    {
      RefusalsAreMalformed(site, received[k], answers[k]);
    }
  }

  /** How a connection came to its end. */
  datatype End =
    | PeerClosed
    | IdleTimeout
    | Oversized
    | Truncated
    | ReadFailed
    | Undelivered

  /**
    What was answered, given all the reads the peer's bytes amount to; what was
    added to the worker's log; and where in the reads the end came.
   */
  ghost predicate Transduced(site: Endpoint, received: seq<Read>, answers: seq<BrokerResponse>,
                       log: seq<Exchange>, log': seq<Exchange>, end: End) {
    && Answered(site, received, answers)
    && log' == log + Exchanges(site, received, answers)
    && match end {
      case PeerClosed => |answers| < |received| && received[|answers|] == Ok(None)
      case IdleTimeout => |answers| < |received|
      case Truncated => |answers| < |received| && received[|answers|] == Err(UnexpectedEof)
      case ReadFailed => |answers| < |received|
      case Oversized => |answers| == |received| && answers != [] && received[|answers| - 1].Err?
                        && received[|answers| - 1].error.TooLarge?
      case Undelivered => answers != []
    }
  }

  /**
    What the peer got: every answer, whole and in order, except that the very last
    may be cut short when it could not be delivered or followed an oversize header.
   */
  predicate Delivered(site: Endpoint, answers: seq<BrokerResponse>, end: End, sent: seq<Byte>, sent': seq<Byte>) {
    if end.Oversized? || end.Undelivered? then
      && answers != [] && AllSendable(site, answers[..|answers| - 1])
      && var whole := sent + Wire(site, answers[..|answers| - 1]);
      && whole <= sent' <= whole + Piece(site, answers[|answers| - 1])
    else
      AllSendable(site, answers) && sent' == sent + Wire(site, answers)
  }

  /** What the connection task reports; a reply that `write_frame` refuses is never an error answer. */
  predicate Reported(site: Endpoint, answers: seq<BrokerResponse>, end: End, r: Result<(), FrameError>) {
    match end
    case PeerClosed => r == Ok(())
    case IdleTimeout => r == Ok(())
    case Oversized => r == Ok(())
    case Truncated => r == Err(UnexpectedEof)
    case ReadFailed => r == Err(Transport)
    case Undelivered => r.Err? && (answers != [] && answers[|answers| - 1].Error? ==> r.error == Transport)
  }

  // ----- progress of the loop ---------------------------------------------------------

  /** What a connection acts on: the bytes still to come, those sent, the worker's log. */
  datatype Link = Link(pending: seq<Byte>, sent: seq<Byte>, log: seq<Exchange>)

  function LinkOf(stream: Stream, broker: BrokerHandle): Link
    reads stream, broker
  {
    Link(stream.pending, stream.sent, broker.log)
  }

  /** A turn that goes on: one read, its answer whole on the wire. */
  ghost predicate GoesOn(site: Endpoint, before: Link, after: Link, response: BrokerResponse) {
    var (read, rest) := Decode(before.pending);
    && AtBoundary(read) && Answers(site, read, response) && Sendable(Render(site, response))
    && after == Link(rest, before.sent + Piece(site, response), before.log + Dispatched(site, read, response))
  }

  /** A turn that ends the connection without an answer. */
  predicate EndsQuietly(before: Link, after: Link, end: End, r: Result<(), FrameError>) {
    var (read, rest) := Decode(before.pending);
    && after.sent == before.sent && after.log == before.log
    && match end {
      case PeerClosed => read == Ok(None) && r == Ok(()) && after.pending == rest
      case Truncated => read == Err(UnexpectedEof) && r == Err(UnexpectedEof) && after.pending == rest
      case IdleTimeout => r == Ok(())
      case ReadFailed => r == Err(Transport)
      case _ => false
    }
  }

  /** A turn that ends the connection with an answer, which may be cut short. */
  ghost predicate EndsWith(site: Endpoint, before: Link, after: Link, response: BrokerResponse, part: seq<Byte>,
                     end: End, r: Result<(), FrameError>) {
    var (read, rest) := Decode(before.pending);
    && Answers(site, read, response) && part <= Piece(site, response)
    && after == Link(rest, before.sent + part, before.log + Dispatched(site, read, response))
    && match end {
      case Oversized => read.Err? && read.error.TooLarge? && r == Ok(())
      case Undelivered => r.Err? && (response.Error? ==> r.error == Transport)
      case _ => false
    }
  }

  /** Between two turns: what was read is answered, delivered and logged; the rest is still to read. */
  ghost predicate Serving(site: Endpoint, start: Link, link: Link, answers: seq<BrokerResponse>) {
    var received := Reads(start.pending);
    && Answered(site, received, answers) && received[|answers|..] == Reads(link.pending)
    && link.log == start.log + Exchanges(site, received, answers)
    && AllSendable(site, answers) && link.sent == start.sent + Wire(site, answers)
    && Leftover(link.pending) == Leftover(start.pending)
  }

  lemma NextRead(site: Endpoint, start: Link, link: Link, answers: seq<BrokerResponse>)
    requires Serving(site, start, link, answers)
    ensures var received := Reads(start.pending);
            var (read, rest) := Decode(link.pending);
            && |answers| < |received| && received[|answers|] == read
            && (if AtBoundary(read)
                then received[|answers| + 1..] == Reads(rest) && Leftover(start.pending) == Leftover(rest)
                     && |rest| < |link.pending|
                else |answers| + 1 == |received| && Leftover(start.pending) == rest)
  {
    var received := Reads(start.pending);
    var (read, rest) := Decode(link.pending);
    ReadsUnfold(link.pending, read, rest);
    LeftoverUnfold(link.pending, read, rest);
    assert received[|answers|..][0] == read;
    assert received[|answers|..][1..] == received[|answers| + 1..];
  }

  lemma ServingGoesOn(site: Endpoint, start: Link, link: Link, answers: seq<BrokerResponse>,
                      after: Link, response: BrokerResponse)
    requires Serving(site, start, link, answers) && GoesOn(site, link, after, response)
    ensures Serving(site, start, after, answers + [response]) && |after.pending| < |link.pending|
  {
    NextRead(site, start, link, answers);
    OneMoreExchange(site, Reads(start.pending), answers, response, start.log);
    OneMoreAnswer(site, answers, response, start.sent);
  }

  /** The end of a connection, told from its start. */
  ghost predicate Served(site: Endpoint, start: Link, after: Link, answers: seq<BrokerResponse>,
                   end: End, r: Result<(), FrameError>) {
    && Transduced(site, Reads(start.pending), answers, start.log, after.log, end)
    && Delivered(site, answers, end, start.sent, after.sent)
    && Reported(site, answers, end, r)
    && (end.PeerClosed? || end.Truncated? || end.Oversized? ==> after.pending == Leftover(start.pending))
  }

  lemma ServingEndsQuietly(site: Endpoint, start: Link, link: Link, answers: seq<BrokerResponse>,
                           after: Link, end: End, r: Result<(), FrameError>)
    requires Serving(site, start, link, answers) && EndsQuietly(link, after, end, r)
    ensures Served(site, start, after, answers, end, r)
  {
    NextRead(site, start, link, answers);
  }

  lemma ServingEndsWith(site: Endpoint, start: Link, link: Link, answers: seq<BrokerResponse>,
                        after: Link, response: BrokerResponse, part: seq<Byte>, end: End, r: Result<(), FrameError>)
    requires Serving(site, start, link, answers) && EndsWith(site, link, after, response, part, end, r)
    ensures Served(site, start, after, answers + [response], end, r)
  {
    NextRead(site, start, link, answers);
    OneMoreExchange(site, Reads(start.pending), answers, response, start.log);
    CutShort(site, answers, start.sent, after.sent, response, part, end);
    var all := answers + [response];
    assert all[|all| - 1] == response;
    assert Answered(site, Reads(start.pending), all);
    assert Transduced(site, Reads(start.pending), all, start.log, after.log, end);
  }

  lemma OneMoreAnswer(site: Endpoint, answers: seq<BrokerResponse>, response: BrokerResponse, sent: seq<Byte>)
    requires AllSendable(site, answers) && Sendable(Render(site, response))
    ensures AllSendable(site, answers + [response])
    ensures sent + Wire(site, answers) + Piece(site, response) == sent + Wire(site, answers + [response])
  {
    EncodeOneMore(RenderAll(site, answers), Render(site, response));
    assert RenderAll(site, answers + [response]) == RenderAll(site, answers) + [Render(site, response)];
  }

  lemma {:induction false} OneMoreExchange(site: Endpoint, received: seq<Read>, answers: seq<BrokerResponse>,
                        response: BrokerResponse, log: seq<Exchange>)
    requires |answers| < |received|
    ensures log + Exchanges(site, received, answers) + Dispatched(site, received[|answers|], response)
            == log + Exchanges(site, received, answers + [response])
  {
    assert (answers + [response])[..|answers|] == answers;
  }

  /** The last answer may not have gone out whole. */
  lemma CutShort(site: Endpoint, answers: seq<BrokerResponse>, sent: seq<Byte>, sent': seq<Byte>,
                 response: BrokerResponse, part: seq<Byte>, end: End)
    requires AllSendable(site, answers) && sent' == sent + Wire(site, answers) + part
    requires part <= Piece(site, response) && (end.Undelivered? || end.Oversized?)
    ensures Delivered(site, answers + [response], end, sent, sent')
  {
    assert (answers + [response])[..|answers|] == answers;
  }

  // ----- sizes ----------------------------------------------------------------------------

  lemma StoppedTexts()
    ensures |Utf8(WORKER_STOPPED)| <= 100
    ensures |Utf8(REQUEST_DROPPED)| <= 132
  {
    Utf8Size(WORKER_STOPPED);
    Utf8Size(REQUEST_DROPPED);
  }

  lemma RefusalTexts()
    ensures |Utf8(UNAUTHORIZED)| <= 88
    ensures |Utf8(BODY_EMPTY)| <= 76
    ensures |Utf8(INVALID_REQUEST)| <= 68
  {
    Utf8Size(UNAUTHORIZED);
    Utf8Size(BODY_EMPTY);
    Utf8Size(INVALID_REQUEST);
  }

  lemma OversizeTexts()
    ensures |Utf8(FRAME_LENGTH)| <= 52
    ensures |Utf8(EXCEEDS_MAXIMUM)| <= 80
  {
    Utf8Size(FRAME_LENGTH);
    Utf8Size(EXCEEDS_MAXIMUM);
  }

  lemma OversizeIsBounded(length: nat)
    requires length < 0x1_0000_0000
    ensures Bounded(OversizeFrame(length))
  {
    OversizeTexts();
    assert length < Tens(10);
    DecimalSize(length, 10);
    Utf8Size(Decimal(length));
  }

  /** Whatever the worker says to a request is bounded. */
  lemma WorkerIsBounded(manifest: ProviderManifest, request: BrokerRequest, response: BrokerResponse)
    requires WorkerSays(manifest, request, response)
    ensures Bounded(response)
  {
    StoppedTexts();
    if FromService(manifest, request, response) {
      var owners, w, w', used :| Handled(manifest, owners, request, w, w', used, response);
      AnswersAreBounded(manifest, owners, request, w, w', used, response);
    }
  }

  /** Whatever the peer sent, the answer it gets is bounded. */
  lemma AnswersBounded(site: Endpoint, input: seq<Byte>, response: BrokerResponse)
    requires Answers(site, Decode(input).0, response)
    ensures Bounded(response)
  {
    RefusalTexts();
    match Decode(input).0
    case Ok(Some(frame)) =>
      if site.parse(frame).Err? {
        EchoedSize(site.parse(frame).error);
      } else {
        WorkerIsBounded(site.manifest, site.parse(frame).value, response);
      }
    case Err(TooLarge(length)) => OversizeIsBounded(length);
    case _ =>
  }

  lemma Braces()
    ensures 36 <= |Utf8(ERROR_OPEN)| <= 144
    ensures |Utf8(ERROR_MESSAGE)| <= 52
    ensures |Utf8(ERROR_CLOSE)| <= 12
  {
    Utf8Size(ERROR_OPEN);
    Utf8Size(ERROR_MESSAGE);
    Utf8Size(ERROR_CLOSE);
  }

  lemma NameIsShort(kind: BrokerErrorKind)
    ensures |Utf8(kind.Name())| <= 72
  {
    Utf8Size(kind.Name());
  }

  /** Escaped six bytes for one, a bounded error is still far below the frame limit. */
  lemma ErrorsFit(site: Endpoint, response: BrokerResponse)
    requires response.Error? && Bounded(response)
    ensures 0 < |Render(site, response)| <= 1_810
    ensures Sendable(Render(site, response))
  {
    Braces();
    NameIsShort(response.kind);
    EscapeSize(response.message);
  }

  // ----- the loop -------------------------------------------------------------------------

  /** Writes one response within its deadline; running out of time is a broken transport. */
  method WriteResponse(stream: Stream, site: Endpoint, response: BrokerResponse)
    returns (r: Result<(), FrameError>, ghost part: seq<Byte>)
    requires Bounded(response)
    modifies stream`sent
    ensures stream.sent == old(stream.sent) + part
    ensures part <= Piece(site, response)
    ensures r.Ok? ==> Sendable(Render(site, response)) && part == Piece(site, response)
    ensures r.Err? && response.Error? ==> r.error == Transport
  {
    var body := Render(site, response);
    if response.Error? {
      ErrorsFit(site, response);
    }
    r := stream.WriteFrame(body);
    part := stream.sent[|old(stream.sent)|..];
  }

  /** The answer to one read that calls for one. */
  method Answer(broker: BrokerHandle, site: Endpoint, read: Read) returns (response: BrokerResponse)
    requires AtBoundary(read) || (read.Err? && read.error.TooLarge?)
    requires broker.service.Valid() && site.manifest == broker.service.plane.manifest
    modifies broker`log, broker.service.ledger
    modifies broker.service.plane.host`devices, broker.service.plane.host`rows, broker.service.plane.host`now
    ensures broker.service.Valid()
    ensures Answers(site, read, response)
    ensures broker.log == old(broker.log) + Dispatched(site, read, response)
  {
    match read
    case Ok(body) =>
      var request := site.parse(body.value);
      if request.Ok? {
        ghost var trail;
        response, trail := broker.Dispatch(request.value);
      } else {
        response := Undecodable(request.error);
      }
    case Err(EmptyBody) => response := EmptyFrame();
    case Err(TooLarge(length)) => response := OversizeFrame(length);
  }

  /** Answers one read of `input` and writes the answer. */
  method Reply(stream: Stream, broker: BrokerHandle, site: Endpoint, read: Read, ghost input: seq<Byte>)
    returns (response: BrokerResponse, written: Result<(), FrameError>, ghost part: seq<Byte>)
    requires read == Decode(input).0 && (AtBoundary(read) || (read.Err? && read.error.TooLarge?))
    requires broker.service.Valid() && site.manifest == broker.service.plane.manifest
    modifies stream`sent, broker`log, broker.service.ledger
    modifies broker.service.plane.host`devices, broker.service.plane.host`rows, broker.service.plane.host`now
    ensures broker.service.Valid()
    ensures Answers(site, read, response)
    ensures broker.log == old(broker.log) + Dispatched(site, read, response)
    ensures stream.sent == old(stream.sent) + part
    ensures part <= Piece(site, response)
    ensures written.Ok? ==> Sendable(Render(site, response)) && part == Piece(site, response)
    ensures written.Err? && response.Error? ==> written.error == Transport
  {
    response := Answer(broker, site, read);
    AnswersBounded(site, input, response);
    written, part := WriteResponse(stream, site, response);
  }

  /**
    Serves one peer.  A peer that is not authorized gets at most one rejection: none
    of its bytes is read and nothing is dispatched.
   */
  method HandleConnection(stream: Stream, authorized: bool, broker: BrokerHandle, site: Endpoint)
    returns (r: Result<(), FrameError>, ghost answers: seq<BrokerResponse>, ghost end: End)
    requires broker.service.Valid() && site.manifest == broker.service.plane.manifest
    modifies stream, broker`log, broker.service.ledger
    modifies broker.service.plane.host`devices, broker.service.plane.host`rows, broker.service.plane.host`now
    ensures broker.service.Valid()
    ensures !authorized ==>
              && r == Ok(()) && stream.pending == old(stream.pending) && broker.log == old(broker.log)
              && old(stream.sent) <= stream.sent
                 <= old(stream.sent) + Piece(site, Error(Unauthenticated, Utf8("peer is not authorized")))
    ensures authorized ==> Served(site, old(LinkOf(stream, broker)), LinkOf(stream, broker), answers, end, r)
    ensures authorized ==> RefusesReads(site, Reads(old(stream.pending)), answers)
  {
    answers, end := [], IdleTimeout;
    if !authorized {
      RefusalTexts();
      ghost var part;
      r, part := WriteResponse(stream, site, Rejection());
      return Ok(()), answers, end;
    }
    r, answers, end := ServePeer(stream, broker, site);
    ReadsAreRefused(site, Reads(old(stream.pending)), answers);
  }

  /** Reads and answers until the connection ends. */
  method ServePeer(stream: Stream, broker: BrokerHandle, site: Endpoint)
    returns (r: Result<(), FrameError>, ghost answers: seq<BrokerResponse>, ghost end: End)
    requires broker.service.Valid() && site.manifest == broker.service.plane.manifest
    modifies stream, broker`log, broker.service.ledger
    modifies broker.service.plane.host`devices, broker.service.plane.host`rows, broker.service.plane.host`now
    ensures broker.service.Valid()
    ensures Served(site, old(LinkOf(stream, broker)), LinkOf(stream, broker), answers, end, r)
  {
    answers, end := [], IdleTimeout;
    ghost var start := LinkOf(stream, broker);
    while true
      invariant Serving(site, start, LinkOf(stream, broker), answers) && broker.service.Valid()
      decreases |stream.pending|
    {
      ghost var link := LinkOf(stream, broker);
      var timedOut: bool := *;
      if timedOut {
        ServingEndsQuietly(site, start, link, answers, link, IdleTimeout, Ok(()));
        return Ok(()), answers, IdleTimeout;
      }
      var read := stream.ReadFrame();
      if read == Ok(None) {
        ServingEndsQuietly(site, start, link, answers, LinkOf(stream, broker), PeerClosed, Ok(()));
        return Ok(()), answers, PeerClosed;
      }
      if read.Err? && (read.error == Transport || read.error == UnexpectedEof) {
        end := if read.error == Transport then ReadFailed else Truncated;
        ServingEndsQuietly(site, start, link, answers, LinkOf(stream, broker), end, Err(read.error));
        return Err(read.error), answers, end;
      }
      ghost var part;
      var response, written;
      response, written, part := Reply(stream, broker, site, read, link.pending);
      if !AtBoundary(read) {
        ServingEndsWith(site, start, link, answers, LinkOf(stream, broker), response, part, Oversized, Ok(()));
        return Ok(()), answers + [response], Oversized;
      }
      if written.Err? {
        ServingEndsWith(site, start, link, answers, LinkOf(stream, broker), response, part, Undelivered, written);
        return written, answers + [response], Undelivered;
      }
      ServingGoesOn(site, start, link, answers, LinkOf(stream, broker), response);
      answers := answers + [response];
    }
  }

  // ----- what the peer can rely on ---------------------------------------------------------

  /** A peer that pipelines frames and then closes gets exactly one answer a frame, the k-th to the k-th. */
  lemma {:induction false} PipelineIsAnswered(site: Endpoint, bodies: seq<seq<Byte>>, answers: seq<BrokerResponse>,
                           log: seq<Exchange>, sent: seq<Byte>)
    requires forall k :: 0 <= k < |bodies| ==> Sendable(bodies[k])
    requires Transduced(site, Reads(EncodeAll(bodies)), answers, [], log, PeerClosed)
    requires Delivered(site, answers, PeerClosed, [], sent)
    ensures |answers| == |bodies|
    ensures forall k :: 0 <= k < |bodies| ==> Answers(site, Ok(Some(bodies[k])), answers[k])
    ensures Reads(sent) == Bodies(RenderAll(site, answers)) + [Ok(None)]
  {
    RoundTrip(bodies);
    BodiesAt(bodies);
    RoundTrip(RenderAll(site, answers));
    assert sent == Wire(site, answers);
  }

  /**
    A length over the maximum is answered last: the frames before it are answered
    first, and the bytes after its header are neither read, answered nor dispatched.
   */
  lemma {:induction false} OversizeIsFinal(site: Endpoint, bodies: seq<seq<Byte>>, length: nat, junk: seq<Byte>,
                        answers: seq<BrokerResponse>, log: seq<Exchange>, log': seq<Exchange>)
    requires forall k :: 0 <= k < |bodies| ==> Sendable(bodies[k])
    requires MAX_FRAME_BYTES < length < 0x1_0000_0000
    requires Transduced(site, Reads(EncodeAll(bodies) + (BigEndian(length) + junk)), answers, log, log', Oversized)
    ensures |answers| == |bodies| + 1
    ensures answers[|bodies|].Error? && answers[|bodies|].kind == Malformed
    ensures answers[|bodies|].message
            == Utf8("frame length ") + Utf8(Decimal(length)) + Utf8(" exceeds the maximum")
    ensures log' == log + Exchanges(site, Bodies(bodies), answers[..|bodies|])
  {
    OversizeEndsReading(bodies, length, junk);
    var received, last := Bodies(bodies) + [Err(TooLarge(length))], answers[|answers| - 1];
    assert received[|bodies|] == Err(TooLarge(length));
    assert Answers(site, received[|bodies|], last) && Dispatched(site, received[|bodies|], last) == [];
    ExchangesOfPrefix(site, received, Bodies(bodies), answers[..|bodies|]);
  }

  /** Such a pipeline is read to its end. */
  lemma PipelineEnds(site: Endpoint, bodies: seq<seq<Byte>>, answers: seq<BrokerResponse>, log: seq<Exchange>)
    requires forall k :: 0 <= k < |bodies| ==> Sendable(bodies[k])
    requires Transduced(site, Reads(EncodeAll(bodies)), answers, [], log, PeerClosed)
    ensures |answers| == |bodies| && log == Exchanges(site, Bodies(bodies) + [Ok(None)], answers)
  {
    RoundTrip(bodies);
    BodiesAt(bodies);
  }

  /** The log says of these bodies just what was asked and answered. */
  predicate LogFits(site: Endpoint, bodies: seq<seq<Byte>>, answers: seq<BrokerResponse>, log: seq<Exchange>)
    requires |answers| <= |bodies|
  {
    && ((forall k :: 0 <= k < |answers| ==> site.parse(bodies[k]).Ok?) ==>
          && |log| == |answers|
          && forall k :: 0 <= k < |answers| ==> log[k] == Exchange(site.parse(bodies[k]).value, answers[k]))
    && ((forall k :: 0 <= k < |answers| ==> site.parse(bodies[k]).Err?) ==> log == [])
  }

  /**
    What is dispatched of bodies that were all answered: each one's request with its
    own answer, if they decode, and nothing if none does.
   */
  lemma PipelineIsDispatched(site: Endpoint, bodies: seq<seq<Byte>>, answers: seq<BrokerResponse>, log: seq<Exchange>)
    requires |answers| == |bodies| && log == Exchanges(site, Bodies(bodies) + [Ok(None)], answers)
    ensures LogFits(site, bodies, answers, log)
  {
    BodiesAt(bodies);
    LoggedAt(site, Bodies(bodies) + [Ok(None)], bodies, answers);
  }

  /** Every decodable body is logged with its own answer, and no other. */
  lemma {:induction false} LoggedAt(site: Endpoint, received: seq<Read>, bodies: seq<seq<Byte>>,
                                    answers: seq<BrokerResponse>)
    requires |answers| <= |bodies| && |answers| <= |received|
    requires forall k :: 0 <= k < |answers| ==> received[k] == Ok(Some(bodies[k]))
    ensures LogFits(site, bodies, answers, Exchanges(site, received, answers))
  {
    if answers != [] {
      LoggedAt(site, received, bodies, answers[..|answers| - 1]);
    }
  }

  lemma {:induction false} ExchangesOfPrefix(site: Endpoint, received: seq<Read>, part: seq<Read>,
                                             answers: seq<BrokerResponse>)
    requires part <= received && |answers| <= |part|
    ensures Exchanges(site, received, answers) == Exchanges(site, part, answers)
  {
    if answers != [] {
      ExchangesOfPrefix(site, received, part, answers[..|answers| - 1]);
    }
  }

  lemma {:induction false} BodiesAt(bodies: seq<seq<Byte>>)
    ensures |Bodies(bodies)| == |bodies|
    ensures forall k :: 0 <= k < |bodies| ==> Bodies(bodies)[k] == Ok(Some(bodies[k]))
  {
    if bodies != [] {
      BodiesAt(bodies[1..]);
    }
  }
}
