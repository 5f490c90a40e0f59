/**
 * `UserServiceController`: the role gate in front of each endpoint, the
 * operation envelope each message-backed endpoint builds, and the decision
 * table that turns what the producer gives back into an HTTP status and body.
 */
module UserServiceController {
  import opened Wrappers
  import opened Entities
  import opened Messaging
  import opened Security

  // ----- Responses -------------------------------------------------------

  datatype Status = Ok | BadRequest | InternalServerError {
    function Code(): int
    {
      match this
      case Ok => 200
      case BadRequest => 400
      case InternalServerError => 500
    }
  }

  /** A `ResponseEntity<String>`; a `None` body is a null body. */
  datatype Response = Response(status: Status, body: Option<string>)

  const HelloBody := "Hello!"
  const NotPerformedBody := "At the moment is not possible satisfy the operation request"
  const CannotCompleteBody := "Can't complete the operation"
  const MinimalOkBody := "{ 'response' : 'OK'}"

  // ----- Requests and their envelopes ------------------------------------

  /** The four message-backed endpoints with their (already converted) arguments. */
  datatype UserOp =
    | Insert(user: User)
    | Edit(user: User)
    | Delete(id: Long)
    | View(searchString: Option<string>)

  /** Every endpoint of the controller. */
  datatype Request = Hello | Manage(op: UserOp)

  function KindOf(op: UserOp): OperationType
  {
    match op
    case Insert(_) => INSERT
    case Edit(_) => UPDATE
    case Delete(_) => DELETE
    case View(_) => SEARCH
  }

  /**
   * The envelope invariant: exactly the fields relevant to the operation are
   * set. DELETE carries a user whose only set field is the identifier.
   */
  predicate Consistent(mp: MessagePayload)
  {
    match mp.operationType
    case INSERT | UPDATE => mp.user.Some? && mp.searchString.None?
    case DELETE =>
      mp.user.Some? && mp.user.value.id.Some? && mp.searchString.None?
      && mp.user.value == NewUser().(id := mp.user.value.id)
    case SEARCH => mp.user.None?
  }

  /** What a worker reading the envelope is asked to do. */
  function Intent(mp: MessagePayload): Option<UserOp>
  {
    match mp.operationType
    case INSERT => if mp.user.Some? then Some(Insert(mp.user.value)) else None
    case UPDATE => if mp.user.Some? then Some(Edit(mp.user.value)) else None
    case DELETE =>
      if mp.user.Some? && mp.user.value.id.Some? then Some(Delete(mp.user.value.id.value)) else None
    case SEARCH => Some(View(mp.searchString))
  }

  /** The `MessagePayload` each endpoint hands to `sendMessage`. */
  function Envelope(op: UserOp): (mp: MessagePayload)
    ensures mp.operationType == KindOf(op)
    ensures Consistent(mp)
    ensures Intent(mp) == Some(op)
  {
    match op
    case Insert(u) => MessagePayload(INSERT, Some(u), None)
    case Edit(u) => MessagePayload(UPDATE, Some(u), None)
    case Delete(id) => MessagePayload(DELETE, Some(NewUser().(id := Some(id))), None)
    case View(s) => MessagePayload(SEARCH, None, s)
  }

  // ----- The reply decision table ----------------------------------------

  /** The fault domains a reply falls into, in the order the handlers test them. */
  datatype ReplyCase<P> =
    | NotPerformed
    | Threw(error: Option<string>)
    | Unreadable(error: Option<string>)
    | EmptyAck
    | Rejected(ack: ACK<P>)
    | Accepted(ack: ACK<P>)

  function Classify<P>(sent: Sent, decode: string -> Decoded<P>): ReplyCase<P>
  {
    match sent
    case NoReply => NotPerformed
    case SendFailed(e) => Threw(e)
    case Replied(raw) =>
      match decode(raw)
      case Malformed(e) => Unreadable(e)
      case NullAck => EmptyAck
      case Decoded(ack) => if ack.success then Accepted(ack) else Rejected(ack)
  }

  /** 200 with the written text, or 500 with the writer's exception message. */
  function Written(e: Encoded): (r: Response)
    ensures r.status == Ok <==> e.Text?
    ensures r.status != BadRequest
    ensures e.Text? ==> r.body == Some(e.text)
    ensures e.JsonError? ==> r == Response(InternalServerError, e.error)
  {
    match e
    case Text(s) => Response(Ok, Some(s))
    case JsonError(m) => Response(InternalServerError, m)
  }

  /** The body of a successful ACK: this is where the four endpoints differ. */
  function SuccessResponse<P>(kind: OperationType, ack: ACK<P>, codec: Codec<P>): Response
  {
    match kind
    case INSERT | UPDATE =>
      if ack.payload.Some? then Written(codec.writeAck(ack)) else Response(Ok, Some(MinimalOkBody))
    case DELETE => Written(codec.writeAck(ack))
    case SEARCH => Written(codec.writePayload(ack.payload))
  }

  /**
   * The nested if/else shared by the four message-backed handlers, with the
   * `catch` that turns any exception into 500 and its message.
   */
  function Respond<P>(kind: OperationType, sent: Sent, codec: Codec<P>): (r: Response)
    ensures sent.NoReply? ==> r == Response(InternalServerError, Some(NotPerformedBody))
    ensures sent.SendFailed? ==> r == Response(InternalServerError, sent.error)
    ensures r.status == BadRequest <==> Classify(sent, codec.decode).Rejected?
    ensures Classify(sent, codec.decode).Rejected? ==> r.body == Classify(sent, codec.decode).ack.message
    ensures r.status == Ok ==> Classify(sent, codec.decode).Accepted? && r.body.Some?
    ensures Classify(sent, codec.decode).Accepted? && kind != SEARCH
            ==> r == Written(codec.writeAck(Classify(sent, codec.decode).ack)) || r == Response(Ok, Some(MinimalOkBody))
  {
    match sent
    case NoReply => Response(InternalServerError, Some(NotPerformedBody))
    case SendFailed(e) => Response(InternalServerError, e)
    case Replied(raw) =>
      match codec.decode(raw)
      case Malformed(e) => Response(InternalServerError, e)
      case NullAck => Response(InternalServerError, Some(CannotCompleteBody))
      case Decoded(ack) =>
        if ack.success then SuccessResponse(kind, ack, codec)
        else Response(BadRequest, ack.message)
  }

  // ----- Properties of the decision table --------------------------------

  /** No reply and a null ACK are both 500, and their bodies tell them apart. */
  lemma NoReplyDiffersFromNullAck<P>(kind: OperationType, raw: string, codec: Codec<P>)
    requires codec.decode(raw).NullAck?
    ensures Respond(kind, NoReply, codec) == Response(InternalServerError, Some(NotPerformedBody))
    ensures Respond(kind, Replied(raw), codec) == Response(InternalServerError, Some(CannotCompleteBody))
    ensures Respond(kind, NoReply, codec).body != Respond(kind, Replied(raw), codec).body
  {
  }

  /** A reply that cannot be read is a 500 carrying the exception's message, never a 400. */
  lemma UnreadableIsInternalError<P>(kind: OperationType, raw: string, codec: Codec<P>)
    requires codec.decode(raw).Malformed?
    ensures Respond(kind, Replied(raw), codec) == Response(InternalServerError, codec.decode(raw).error)
  {
  }

  /** A rejecting ACK is a 400 whose body is its message, for every operation. */
  lemma RejectionShowsMessage<P>(kind: OperationType, raw: string, codec: Codec<P>, ack: ACK<P>)
    requires codec.decode(raw) == Decoded(ack) && !ack.success
    ensures Respond(kind, Replied(raw), codec) == Response(BadRequest, ack.message)
  {
  }

  /** INSERT and UPDATE: the whole ACK when it has a payload, the minimal OK otherwise. */
  lemma InsertOrUpdateSuccess<P>(kind: OperationType, raw: string, codec: Codec<P>, ack: ACK<P>)
    requires kind == INSERT || kind == UPDATE
    requires codec.decode(raw) == Decoded(ack) && ack.success
    ensures ack.payload.Some? ==> Respond(kind, Replied(raw), codec) == Written(codec.writeAck(ack))
    ensures ack.payload.None? ==> Respond(kind, Replied(raw), codec) == Response(Ok, Some(MinimalOkBody))
  {
  }

  /** DELETE: the whole ACK, whether or not it has a payload. */
  lemma DeleteSuccess<P>(raw: string, codec: Codec<P>, ack: ACK<P>)
    requires codec.decode(raw) == Decoded(ack) && ack.success
    ensures Respond(DELETE, Replied(raw), codec) == Written(codec.writeAck(ack))
  {
  }

  /** SEARCH: the bare payload, written even when it is null. */
  lemma SearchSuccess<P>(raw: string, codec: Codec<P>, ack: ACK<P>)
    requires codec.decode(raw) == Decoded(ack) && ack.success
    ensures Respond(SEARCH, Replied(raw), codec) == Written(codec.writePayload(ack.payload))
  {
  }

  /**
   * The 500 cases: exactly the replies that are missing, thrown, unreadable
   * or null, plus a successful ACK whose body cannot be written (the whole
   * ACK for INSERT and UPDATE with a payload and for DELETE, the bare
   * payload for SEARCH).
   */
  lemma InternalErrorCases<P>(kind: OperationType, sent: Sent, codec: Codec<P>)
    ensures Respond(kind, sent, codec).status == InternalServerError
            <==> match Classify(sent, codec.decode)
                 case Rejected(_) => false
                 case Accepted(ack) =>
                   (match kind
                    case SEARCH => codec.writePayload(ack.payload).JsonError?
                    case DELETE => codec.writeAck(ack).JsonError?
                    case _ => ack.payload.Some? && codec.writeAck(ack).JsonError?)
                 case _ => true
  {
  }

  // ----- The endpoints ----------------------------------------------------

  /** What one handler invocation did: its response and what it handed to `sendMessage`. */
  datatype Exchange = Exchange(response: Response, published: seq<MessagePayload>)

  /** `GET /api/user/hello`. */
  function ProtectedResourceExample(): (r: Response)
    ensures r.status.Code() == 200 && r.body == Some(HelloBody)
  {
    Response(Ok, Some(HelloBody))
  }

  /** `POST /api/user/insert`: one `sendMessage` call with the INSERT envelope. */
  function InsertUser(u: User, send: MessagePayload -> Sent, codec: Codec<Long>): (x: Exchange)
    ensures x.published == [Envelope(Insert(u))]
    ensures x.response == Respond(INSERT, send(x.published[0]), codec)
  {
    var mp := Envelope(Insert(u));
    Exchange(Respond(INSERT, send(mp), codec), [mp])
  }

  /** `POST /api/user/edit`: one `sendMessage` call with the UPDATE envelope. */
  function EditUser(u: User, send: MessagePayload -> Sent, codec: Codec<Long>): (x: Exchange)
    ensures x.published == [Envelope(Edit(u))]
    ensures x.response == Respond(UPDATE, send(x.published[0]), codec)
  {
    var mp := Envelope(Edit(u));
    Exchange(Respond(UPDATE, send(mp), codec), [mp])
  }

  /** `POST /api/user/delete/{id}`: one `sendMessage` call with the DELETE envelope. */
  function DeleteUser(id: Long, send: MessagePayload -> Sent, codec: Codec<Long>): (x: Exchange)
    ensures x.published == [Envelope(Delete(id))]
    ensures x.response == Respond(DELETE, send(x.published[0]), codec)
  {
    var mp := Envelope(Delete(id));
    Exchange(Respond(DELETE, send(mp), codec), [mp])
  }

  /** `GET /api/user/view`: one `sendMessage` call with the SEARCH envelope. */
  function ViewUsers<J>(searchString: Option<string>, send: MessagePayload -> Sent, codec: Codec<J>): (x: Exchange)
    ensures x.published == [Envelope(View(searchString))]
    ensures x.response == Respond(SEARCH, send(x.published[0]), codec)
  {
    var mp := Envelope(View(searchString));
    Exchange(Respond(SEARCH, send(mp), codec), [mp])
  }

  // ----- The role gate ----------------------------------------------------

  /** The `@PreAuthorize` table. */
  function RequiredRole(req: Request): Role
  {
    match req
    case Hello => SYSTEM_ADMINISTRATOR
    case Manage(_) => SUPERADMIN
  }

  /** A request either never reaches its handler or is served by it. */
  datatype Outcome = Denied | Served(exchange: Exchange)

  function Published(o: Outcome): seq<MessagePayload>
  {
    match o
    case Denied => []
    case Served(x) => x.published
  }

  /** The handler body for `req`, run only once the gate has admitted it. */
  function Body<J>(req: Request, send: MessagePayload -> Sent, ids: Codec<Long>, objects: Codec<J>): Exchange
  {
    match req
    case Hello => Exchange(ProtectedResourceExample(), [])
    case Manage(Insert(u)) => InsertUser(u, send, ids)
    case Manage(Edit(u)) => EditUser(u, send, ids)
    case Manage(Delete(id)) => DeleteUser(id, send, ids)
    case Manage(View(s)) => ViewUsers(s, send, objects)
  }

  /**
   * One request through the gate: denied unless the credential's authorities
   * satisfy the endpoint's role, and only then is the handler body run.
   */
  function Handle<J>(req: Request, authorities: set<string>, send: MessagePayload -> Sent,
                     ids: Codec<Long>, objects: Codec<J>): (o: Outcome)
    ensures o.Denied? <==> Authority(RequiredRole(req)) !in authorities
    ensures Published(o) == if o.Served? && req.Manage? then [Envelope(req.op)] else []
    ensures o.Served? && req.Hello? ==> o.exchange.response == Response(Ok, Some(HelloBody))
    ensures o.Served? && req.Manage? && !req.op.View?
            ==> o.exchange.response == Respond(KindOf(req.op), send(Envelope(req.op)), ids)
    ensures o.Served? && req.Manage? && req.op.View?
            ==> o.exchange.response == Respond(SEARCH, send(Envelope(req.op)), objects)
  {
    if HasRole(authorities, RequiredRole(req)) then Served(Body(req, send, ids, objects)) else Denied
  }

  // ----- A stream of requests ----------------------------------------------

  datatype Call = Call(request: Request, authorities: set<string>)

  predicate Admits(c: Call)
  {
    HasRole(c.authorities, RequiredRole(c.request))
  }

  /** The producer as seen by the `k`-th call to `sendMessage`. */
  function NthCall(producer: (nat, MessagePayload) -> Sent, k: nat): MessagePayload -> Sent
  {
    mp => producer(k, mp)
  }

  /** What one request sends once the gate has decided: its envelope, or nothing. */
  function SentBy(c: Call): seq<MessagePayload>
  {
    if Admits(c) && c.request.Manage? then [Envelope(c.request.op)] else []
  }

  /** The envelopes of the admitted message-backed requests, in order. */
  function AdmittedEnvelopes(requests: seq<Call>): seq<MessagePayload>
  {
    if requests == [] then [] else SentBy(requests[0]) + AdmittedEnvelopes(requests[1..])
  }

  /** Everything handed to `sendMessage`, in order. */
  function PublishedAll(outs: seq<Outcome>): seq<MessagePayload>
  {
    if outs == [] then [] else Published(outs[0]) + PublishedAll(outs[1..])
  }

  /** For each outcome, whether the request was denied. */
  function DeniedPattern(outs: seq<Outcome>): seq<bool>
  {
    if outs == [] then [] else [outs[0].Denied?] + DeniedPattern(outs[1..])
  }

  /** For each request, whether its credential fails the gate. */
  function RefusedPattern(requests: seq<Call>): seq<bool>
  {
    if requests == [] then [] else [!Admits(requests[0])] + RefusedPattern(requests[1..])
  }

  /**
   * Requests run one after another through `step`, which handles one request
   * given the number of producer calls made before it; each request advances
   * that number by what it handed to the producer.
   */
  function Run(requests: seq<Call>, step: (Call, nat) -> Outcome, calls: nat): (outs: seq<Outcome>)
    ensures |outs| == |requests|
    decreases |requests|
  {
    if requests == [] then []
    else
      var o := step(requests[0], calls);
      [o] + Run(requests[1..], step, calls + |Published(o)|)
  }

  /** A step that hands the producer exactly what `SentBy` says. */
  ghost predicate SendsAsGate(step: (Call, nat) -> Outcome)
  {
    forall c: Call, k: nat :: Published(step(c, k)) == SentBy(c)
  }

  /** A step that denies exactly the requests the gate refuses. */
  ghost predicate DeniesAsGate(step: (Call, nat) -> Outcome)
  {
    forall c: Call, k: nat :: step(c, k).Denied? == !Admits(c)
  }

  lemma AdmittedEnvelopesPrefix(requests: seq<Call>, i: nat)
    requires 0 < i <= |requests|
    ensures AdmittedEnvelopes(requests[..i]) == SentBy(requests[0]) + AdmittedEnvelopes(requests[1..][..i - 1])
  {
    var before := requests[..i];
    assert before[0] == requests[0];
    assert before[1..] == requests[1..][..i - 1];
  }

  /** Request `i` is handled at call number `calls` plus what the requests before it sent. */
  lemma {:induction false} RunAnswersEach(requests: seq<Call>, step: (Call, nat) -> Outcome, calls: nat, i: nat)
    requires SendsAsGate(step)
    requires i < |requests|
    ensures Run(requests, step, calls)[i] == step(requests[i], calls + |AdmittedEnvelopes(requests[..i])|)
  {
    var o := step(requests[0], calls);
    var outs := Run(requests, step, calls);
    var rest := Run(requests[1..], step, calls + |Published(o)|);
    assert outs == [o] + rest;
    if i == 0 {
      assert requests[..0] == [];
      assert outs[0] == o;
    } else {
      var next := calls + |Published(o)|;
      assert Published(o) == SentBy(requests[0]);
      AdmittedEnvelopesPrefix(requests, i);
      assert next + |AdmittedEnvelopes(requests[1..][..i - 1])| == calls + |AdmittedEnvelopes(requests[..i])|;
      RunAnswersEach(requests[1..], step, next, i - 1);
      assert requests[1..][i - 1] == requests[i];
      assert outs[i] == rest[i - 1];
    }
  }

  /** Request `i` is denied exactly when its credential fails the gate. */
  lemma {:induction false} RunDeniesExactlyRefused(requests: seq<Call>, step: (Call, nat) -> Outcome, calls: nat)
    requires DeniesAsGate(step)
    ensures DeniedPattern(Run(requests, step, calls)) == RefusedPattern(requests)
  {
    if requests != [] {
      var o := step(requests[0], calls);
      var outs := Run(requests, step, calls);
      var rest := Run(requests[1..], step, calls + |Published(o)|);
      assert outs == [o] + rest;
      assert outs[1..] == rest;
      RunDeniesExactlyRefused(requests[1..], step, calls + |Published(o)|);
    }
  }

  /** The producer receives exactly the envelopes of the admitted message-backed requests. */
  lemma {:induction false} RunSendsOnlyAdmitted(requests: seq<Call>, step: (Call, nat) -> Outcome, calls: nat)
    requires SendsAsGate(step)
    ensures PublishedAll(Run(requests, step, calls)) == AdmittedEnvelopes(requests)
  {
    if requests != [] {
      var o := step(requests[0], calls);
      var outs := Run(requests, step, calls);
      var rest := Run(requests[1..], step, calls + |Published(o)|);
      assert outs == [o] + rest;
      assert outs[1..] == rest;
      RunSendsOnlyAdmitted(requests[1..], step, calls + |Published(o)|);
    }
  }

  /** The controller's step: `Handle` with the producer of the given call number. */
  function HandleStep<J>(producer: (nat, MessagePayload) -> Sent, ids: Codec<Long>, objects: Codec<J>)
    : (Call, nat) -> Outcome
  {
    (c: Call, k: nat) => Handle(c.request, c.authorities, NthCall(producer, k), ids, objects)
  }

  /** The controller's step denies and sends exactly as the gate decides. */
  lemma HandleStepIsGate<J>(producer: (nat, MessagePayload) -> Sent, ids: Codec<Long>, objects: Codec<J>)
    ensures SendsAsGate(HandleStep(producer, ids, objects))
    ensures DeniesAsGate(HandleStep(producer, ids, objects))
  {
    var step := HandleStep(producer, ids, objects);
    forall c: Call, k: nat
      ensures step(c, k).Denied? == !Admits(c) && Published(step(c, k)) == SentBy(c)
    {
      var o := Handle(c.request, c.authorities, NthCall(producer, k), ids, objects);
      assert step(c, k) == o;
    }
  }

  /**
   * Requests handled one after another. `producer(k, mp)` is what the k-th
   * call to `sendMessage` gives back; `calls` counts the calls made so far.
   */
  function Serve<J>(requests: seq<Call>, producer: (nat, MessagePayload) -> Sent, calls: nat,
                    ids: Codec<Long>, objects: Codec<J>): (outs: seq<Outcome>)
    ensures |outs| == |requests|
  {
    Run(requests, HandleStep(producer, ids, objects), calls)
  }

  /**
   * Request `i` of a stream is handled by `Handle` with the producer of call
   * number `calls` plus the number of envelopes the requests before it sent:
   * a denied request or a hello probe consumes no call.
   */
  lemma ServeAnswersEach<J>(requests: seq<Call>, producer: (nat, MessagePayload) -> Sent,
                            calls: nat, ids: Codec<Long>, objects: Codec<J>, i: nat)
    requires i < |requests|
    ensures Serve(requests, producer, calls, ids, objects)[i]
            == Handle(requests[i].request, requests[i].authorities,
                      NthCall(producer, calls + |AdmittedEnvelopes(requests[..i])|), ids, objects)
  {
    HandleStepIsGate(producer, ids, objects);
    RunAnswersEach(requests, HandleStep(producer, ids, objects), calls, i);
  }

  /** Over any sequence of requests, request i is denied exactly when its credential fails the gate. */
  lemma ServeDeniesExactlyRefused<J>(requests: seq<Call>, producer: (nat, MessagePayload) -> Sent,
                                     calls: nat, ids: Codec<Long>, objects: Codec<J>)
    ensures DeniedPattern(Serve(requests, producer, calls, ids, objects)) == RefusedPattern(requests)
  {
    HandleStepIsGate(producer, ids, objects);
    RunDeniesExactlyRefused(requests, HandleStep(producer, ids, objects), calls);
  }

  /**
   * Over any sequence of requests, `sendMessage` receives exactly the
   * envelopes of the admitted message-backed requests: a denied request
   * never reaches the producer and consumes no call.
   */
  lemma ServeSendsOnlyAdmitted<J>(requests: seq<Call>, producer: (nat, MessagePayload) -> Sent,
                                  calls: nat, ids: Codec<Long>, objects: Codec<J>)
    ensures PublishedAll(Serve(requests, producer, calls, ids, objects)) == AdmittedEnvelopes(requests)
  {
    HandleStepIsGate(producer, ids, objects);
    RunSendsOnlyAdmitted(requests, HandleStep(producer, ids, objects), calls);
  }
}
