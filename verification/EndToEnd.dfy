// One exchange from end to end: client API, broker, worker API and back, over the frames that
// the REQ and ROUTER sockets add and take away.

module EndToEnd {
  import opened Bytes
  import opened Frames
  import opened Mdp
  import opened BrokerSpec
  import opened BrokerInvariants
  import opened BrokerRuns
  import opened BrokerSends
  import opened MdwrkSpec
  import opened Mdcli
  import opened Majordomo
  import Uuid

  // A connection identity on the wire. The broker reads the binary form as text.
  predicate Address(a: Frame) {
    a != [] && !Uuid.IsTextForm(a) && NulFree(FrameIn(a))
  }

  // zmsg::send; None when its assert fails.
  function Sent(parts: Message): Option<Message> {
    if Sendable(parts) then Some(WireOut(parts)) else None
  }

  // A REQ socket puts an empty frame before what the client sends.
  function ClientSends(service: Frame, body: Message): Option<Message> {
    match Sent(RequestParts(service, body))
    case None => None
    case Some(frames) => Some([[]] + frames)
  }

  function WorkerSends(u: Up): Option<Message> {
    Sent(EncodeUp(u))
  }

  // The broker's ROUTER socket puts the sender's identity first.
  function AtBroker(a: Frame, frames: Message): Message {
    WireIn([a] + frames)
  }

  // On the way out it takes the first frame for the identity of the receiver.
  function Routed(o: Out): Option<(Frame, Message)> {
    match Sent(Encode(o))
    case None => None
    case Some(frames) => Some((frames[0], frames[1..]))
  }

  function AtWorker(frames: Message): Message {
    WireIn(frames)
  }

  // A REQ socket accepts only what starts with an empty frame, and takes it off.
  function AtClient(frames: Message): Option<Message> {
    if frames == [] || frames[0] != [] then None else Some(WireIn(frames[1..]))
  }

  lemma AddressComesBack(a: Frame)
    requires Address(a)
    ensures CStr(FrameIn(a)) == FrameIn(a) != []
    ensures FrameOut(FrameIn(a)) == a
    ensures Travels(FrameIn(a))
  {
    FrameInOutExactly(a);
    FrameOutInExactly(FrameIn(a));
    CStrIsIdentityExactlyOnNulFree(FrameIn(a));
  }

  lemma ReceivesInPieces(x: Message, y: Message)
    ensures WireIn(x + y) == WireIn(x) + WireIn(y)
  {
  }

  lemma SendsInPieces(x: Message, y: Message)
    ensures WireOut(x + y) == WireOut(x) + WireOut(y)
  {
  }

  lemma FirstOff(a: Frame, frames: Message)
    ensures ([a, []] + frames)[1..] == [[]] + frames
  {
  }

  // What the broker hands to send goes to the address it was given, followed by the rest.
  lemma RoutedTo(o: Out, a: Frame, rest: Message)
    requires Address(a) && Encode(o) == [FrameIn(a), []] + rest && Sendable(rest)
    ensures Routed(o) == Some((a, [[]] + WireOut(rest)))
  {
    SentTo(a, rest);
    FirstOff(a, WireOut(rest));
  }

  lemma SentTo(a: Frame, rest: Message)
    requires Address(a) && Sendable(rest)
    ensures Sent([FrameIn(a), []] + rest) == Some([a, []] + WireOut(rest))
  {
    AddressComesBack(a);
    SendableAfterStrings([FrameIn(a), []], rest);
    SendsInPieces([FrameIn(a), []], rest);
    assert WireOut([FrameIn(a), []]) == [a, []];
  }

  lemma ArrivesAtBroker(a: Frame, rest: Message)
    requires Address(a) && AllTravel(rest)
    ensures AtBroker(a, [[]] + WireOut(rest)) == [FrameIn(a), []] + rest
  {
    TransferIsFaithful(rest);
    assert [a] + ([[]] + WireOut(rest)) == [a, []] + WireOut(rest);
    ReceivesInPieces([a, []], WireOut(rest));
  }

  // -------------------------------------------------------------------------------------
  // The four hops

  // The client's request as the broker takes it: the last in the line of its service, counting
  // what is sent on at once. None if an assert fails or nothing joins the line.
  ghost function Ask(a: Frame, n: Name, body: Message, b: State, now: int, clock: int): Option<Message> {
    match ClientSends(n, body)
    case None => None
    case Some(frames) =>
      match Step(b, FromPeer(AtBroker(a, frames), now, clock))
      case Crash(_) => None
      case Done(b1, outs) =>
        var line := Dispatched(outs, n) + Requests(b1, n);
        if |line| > |Requests(b, n)| then Some(line[|line| - 1]) else None
  }

  // The request as it is sent to a worker and as the worker takes it.
  function Hand(aw: Frame, n: Name, payload: Message, wk: Wrk, p: Poll): Turn {
    match Routed(Request(FrameIn(aw), n, payload))
    case None => Abort
    case Some((to, frames)) =>
      if to == aw then OnPoll(wk, p.(incoming := Some(AtWorker(frames)))) else Abort
  }

  // The frames a worker sends to give its reply; None if it may not.
  function Reply(wk: Wrk, reply: Message): Option<Message> {
    var ups := Begin(wk, Some(reply)).1;
    if MayRecv(wk, Some(reply)) && |ups| == 1 then WorkerSends(ups[0]) else None
  }

  // What the broker passes on to the client when that reply comes in.
  ghost function PassOn(aw: Frame, frames: Message, b: State, now: int, clock: int): Option<Out> {
    match Step(b, FromPeer(AtBroker(aw, frames), now, clock))
    case Crash(_) => None
    case Done(_, outs) => if outs == [] || !outs[0].Answer? then None else Some(outs[0])
  }

  // Who gets it, and what that client's send returns.
  function Collect(n: Name, o: Out): Option<(Frame, Message)> {
    match Routed(o)
    case None => None
    case Some((to, frames)) =>
      match AtClient(frames)
      case None => None
      case Some(parts) =>
        match Accept(n, parts)
        case None => None
        case Some(reply) => Some((to, reply))
  }

  lemma RequestPartsFrames(n: Name, body: Message)
    requires NulFree(n)
    ensures RequestParts(n, body) == [MDPC_CLIENT, n] + body
  {
    CStrIsIdentityExactlyOnNulFree(n);
    assert NulFree(MDPC_CLIENT);
  }

  lemma RequestAtBroker(a: Frame, n: Name, body: Message)
    requires Address(a) && GoodName(n) && AllTravel(body)
    ensures ClientSends(n, body).Some?
    ensures AtBroker(a, ClientSends(n, body).value) == [FrameIn(a), [], MDPC_CLIENT, n] + body
  {
    var rest := [MDPC_CLIENT, n] + body;
    RequestPartsFrames(n, body);
    AllTravelConcat([MDPC_CLIENT, n], body);
    TransferIsFaithful(rest);
    ArrivesAtBroker(a, rest);
  }

  // The broker gets through a client's request that travels unless it is empty.
  lemma RequestSurvives(c: Id, n: Name, body: Message, b: State, now: int, clock: int)
    requires NulFree(c) && n != [] && NulFree(n) && !Reserved(n) && Sendable(body)
    requires Inv(b) && Balanced(b)
    ensures Step(b, FromPeer([c, [], MDPC_CLIENT, n] + body, now, clock)).Done? <==> body != []
  {
    var parts: Message := [c, [], MDPC_CLIENT, n] + body;
    assert CStr(parts[2]) == MDPC_CLIENT;
    assert parts[3..] == [n] + body;
    assert Handle(b, FromPeer(parts, now, clock)) == ClientProcess(b, c, [n] + body, clock);
    ProcessesRequest(c, n, body, b, clock);
  }

  lemma ProcessesRequest(c: Id, n: Name, body: Message, b: State, clock: int)
    requires n != [] && NulFree(n) && !Reserved(n) && Sendable(body) && Inv(b) && Balanced(b)
    ensures var f := ClientProcess(b, c, [n] + body, clock);
            && (f.Done? <==> body != [])
            && (f.Done? ==> AllSendable(f.outs))
  {
    var parts := [n] + body;
    assert parts[1..] == body;
    assert Reserved(MMI_SERVICE);
    ClientProcessSurvivesExactly(b, c, parts, clock);
    if body != [] {
      ClientSendsExactly(b, c, parts, clock);
    }
  }

  // What it then has in line for the service.
  lemma RequestInLine(c: Id, n: Name, body: Message, b: State, now: int, clock: int)
    requires NulFree(c) && n != [] && NulFree(n) && !Reserved(n) && body != []
    requires Step(b, FromPeer([c, [], MDPC_CLIENT, n] + body, now, clock)).Done?
    ensures var f := Step(b, FromPeer([c, [], MDPC_CLIENT, n] + body, now, clock));
            Dispatched(f.outs, n) + Requests(f.state, n) == Requests(b, n) + [[c, []] + body]
  {
    HandleConserves(b, FromPeer([c, [], MDPC_CLIENT, n] + body, now, clock), n);
    AcceptedRequest(c, n, body, now, clock, n);
  }

  // A request joins the line of its service in the envelope of its client.
  lemma AskIsQueued(a: Frame, n: Name, body: Message, b: State, now: int, clock: int)
    requires Address(a) && GoodName(n) && !Reserved(n) && AllTravel(body)
    requires Inv(b) && Balanced(b)
    ensures Ask(a, n, body, b, now, clock) == if body == [] then None else Some([FrameIn(a), []] + body)
  {
    RequestAtBroker(a, n, body);
    AddressComesBack(a);
    TransferIsFaithful(body);
    RequestSurvives(FrameIn(a), n, body, b, now, clock);
    if body != [] {
      RequestInLine(FrameIn(a), n, body, b, now, clock);
    }
  }

  lemma EncodedRequest(aw: Frame, n: Name, payload: Message)
    requires Address(aw)
    ensures Encode(Request(FrameIn(aw), n, payload)) == [FrameIn(aw), []] + ([MDPW_WORKER, REQUEST] + payload)
  {
    AddressComesBack(aw);
    WorkerSendFrames(FrameIn(aw), REQUEST, payload);
  }

  lemma RequestAtWorker(aw: Frame, n: Name, payload: Message)
    requires Address(aw) && AllTravel(payload)
    ensures var r := Routed(Request(FrameIn(aw), n, payload));
            r.Some? && r.value.0 == aw && AtWorker(r.value.1) == [[], MDPW_WORKER, REQUEST] + payload
  {
    var rest := [MDPW_WORKER, REQUEST] + payload;
    EncodedRequest(aw, n, payload);
    AllTravelConcat([MDPW_WORKER, REQUEST], payload);
    TransferIsFaithful(rest);
    RoutedTo(Request(FrameIn(aw), n, payload), aw, rest);
    ReceivesInPieces([[]], WireOut(rest));
    assert WireIn([[]]) == [[]];
    Prefixed([], [MDPW_WORKER, REQUEST], payload);
    assert [[]] + [MDPW_WORKER, REQUEST] == [[], MDPW_WORKER, REQUEST];
  }

  // The worker is handed the body, and remembers the client.
  lemma HandIsTaken(aw: Frame, n: Name, c: Id, body: Message, wk: Wrk, p: Poll)
    requires Address(aw) && GoodName(c) && AllTravel(body)
    ensures Hand(aw, n, [c, []] + body, wk, p) == Got(wk.(liveness := HEARTBEAT_LIVENESS, replyTo := c), body)
  {
    var payload := [c, []] + body;
    AllTravelConcat([c, []], body);
    RequestAtWorker(aw, n, payload);
    TakesRequest(wk, payload, p.(incoming := Some([[], MDPW_WORKER, REQUEST] + payload)));
    CStrIsIdentityExactlyOnNulFree(c);
    assert payload[2..] == body;
  }

  lemma TakesRequest(wk: Wrk, payload: Message, p: Poll)
    requires payload != [] && p.incoming == Some([[], MDPW_WORKER, REQUEST] + payload)
    ensures OnPoll(wk, p) == Got(wk.(liveness := HEARTBEAT_LIVENESS, replyTo := UnwrapAddress(payload)), UnwrapRest(payload))
  {
    assert p.incoming.value[3..] == payload;
  }

  lemma EncodedReply(payload: Message)
    requires Sendable(payload)
    ensures WorkerSends(UpReply(payload)) == Some([[]] + WireOut([MDPW_WORKER, REPLY] + payload))
  {
    SendToBrokerFrames(REPLY, payload);
    SendToBrokerIsSendable(REPLY, [], payload);
    var rest := [MDPW_WORKER, REPLY] + payload;
    assert SendToBroker(REPLY, [], payload) == [[]] + rest;
    SendsInPieces([[]], rest);
    assert WireOut([[]]) == [[]];
  }

  lemma ReplyIsSent(wk: Wrk, reply: Message)
    requires wk.replyTo != [] && NulFree(wk.replyTo) && Sendable(reply)
    ensures Reply(wk, reply) == Some([[]] + WireOut([MDPW_WORKER, REPLY] + ([wk.replyTo, []] + reply)))
  {
    var payload := Wrap(reply, wk.replyTo, Some([]));
    CStrIsIdentityExactlyOnNulFree(wk.replyTo);
    assert payload == [wk.replyTo, []] + reply;
    assert Begin(wk, Some(reply)).1 == [UpReply(payload)];
    SendableWrap(reply, wk.replyTo);
    EncodedReply(payload);
  }

  // The broker, whatever else it has done meanwhile, passes the reply on to the client, unless
  // a request that waits for this worker cannot be sent.
  lemma ReplyIsPassedOn(aw: Frame, n: Name, c: Id, reply: Message, b: State, now: int, clock: int)
    requires Address(aw) && Inv(b) && Balanced(b) && IsAttached(b, n, FrameIn(aw)) && GoodName(c) && AllTravel(reply)
    ensures PassOn(aw, [[]] + WireOut([MDPW_WORKER, REPLY] + ([c, []] + reply)), b, now, clock)
            == if OldestRefused(b, n, now, clock) then None else Some(Answer(c, n, reply))
  {
    var payload := [c, []] + reply;
    AddressComesBack(aw);
    AllTravelConcat([c, []], reply);
    AllTravelConcat([MDPW_WORKER, REPLY], payload);
    ArrivesAtBroker(aw, [MDPW_WORKER, REPLY] + payload);
    assert [FrameIn(aw), []] + ([MDPW_WORKER, REPLY] + payload) == [FrameIn(aw), [], MDPW_WORKER, REPLY] + payload;
    CStrIsIdentityExactlyOnNulFree(c);
    assert payload[2..] == reply;
    TransferIsFaithful(reply);
    HandlesReply(FrameIn(aw), n, payload, b, now, clock);
  }

  lemma HandlesReply(w: Id, n: Name, payload: Message, b: State, now: int, clock: int)
    requires w != [] && NulFree(w) && payload != [] && Inv(b) && Balanced(b) && IsAttached(b, n, w)
    requires Sendable(UnwrapRest(payload))
    ensures var f := Step(b, FromPeer([w, [], MDPW_WORKER, REPLY] + payload, now, clock));
            && (f.Done? <==> !OldestRefused(b, n, now, clock))
            && (f.Done? ==> f.outs != [] && f.outs[0] == Answer(UnwrapAddress(payload), n, UnwrapRest(payload)))
  {
    var parts := [w, [], MDPW_WORKER, REPLY] + payload;
    assert parts[3..] == [REPLY] + payload;
    assert MDPC_CLIENT[3] != MDPW_WORKER[3];
    assert Handle(b, FromPeer(parts, now, clock)) == WorkerProcess(b, w, [REPLY] + payload, now, clock);
    ProcessesReply(w, n, payload, b, now, clock);
  }

  lemma ProcessesReply(w: Id, n: Name, payload: Message, b: State, now: int, clock: int)
    requires w != [] && payload != [] && Inv(b) && Balanced(b) && IsAttached(b, n, w)
    requires Sendable(UnwrapRest(payload))
    ensures var f := WorkerProcess(b, w, [REPLY] + payload, now, clock);
            && f.Done? && f.outs != [] && f.outs[0] == Answer(UnwrapAddress(payload), n, UnwrapRest(payload))
            && (AllSendable(f.outs) <==> !OldestRefused(b, n, now, clock))
  {
    assert ([REPLY] + payload)[1..] == payload;
    assert READY[0] != REPLY[0];
    ReplySendsExactly(b, w, payload, now, clock);
  }

  lemma EncodedAnswer(a: Frame, n: Name, reply: Message)
    requires Address(a) && GoodName(n)
    ensures Encode(Answer(FrameIn(a), n, reply)) == [FrameIn(a), []] + ([MDPC_CLIENT, n] + reply)
  {
    AddressComesBack(a);
    CStrIsIdentityExactlyOnNulFree(n);
    ClientSendFrames(FrameIn(a), n, reply);
  }

  // The client that asked receives it, and accepts it unless it is empty.
  lemma AnswerIsCollected(a: Frame, n: Name, reply: Message)
    requires Address(a) && GoodName(n) && AllTravel(reply)
    ensures Collect(n, Answer(FrameIn(a), n, reply)) == if reply == [] then None else Some((a, reply))
  {
    var rest := [MDPC_CLIENT, n] + reply;
    EncodedAnswer(a, n, reply);
    AllTravelConcat([MDPC_CLIENT, n], reply);
    TransferIsFaithful(rest);
    RoutedTo(Answer(FrameIn(a), n, reply), a, rest);
    assert ([[]] + WireOut(rest))[1..] == WireOut(rest);
    assert rest[2..] == reply;
    CStrIsIdentityExactlyOnNulFree(n);
  }

  // -------------------------------------------------------------------------------------
  // The whole exchange

  // The broker is in state b0 when the client asks, and in b when the worker's reply comes, by
  // its clocks at0 and at; the worker's caller answers with f. None: some assert failed on the
  // way, be it in a handler or in a send.
  datatype Clocks = Clocks(now: int, purge: int)

  ghost function Exchange(a: Frame, n: Name, body: Message, b0: State, at0: Clocks, aw: Frame, wk: Wrk, p: Poll,
                          f: Message -> Message, b: State, at: Clocks): Option<(Frame, Message)>
  {
    match Ask(a, n, body, b0, at0.now, at0.purge)
    case None => None
    case Some(payload) =>
      match Hand(aw, n, payload, wk, p)
      case Again(_, _) => None
      case Abort => None
      case Got(wk1, request) =>
        match Reply(wk1, f(request))
        case None => None
        case Some(frames) =>
          match PassOn(aw, frames, b, at.now, at.purge)
          case None => None
          case Some(o) => Collect(n, o)
  }

  // The client that asked gets exactly f of its body, and no assert fails on the way, if and
  // only if neither body nor answer is empty and the oldest request that waits for the worker
  // meanwhile, if any, can be sent. The queues of b0 and b may hold anything.
  lemma EndToEnd(a: Frame, n: Name, body: Message, b0: State, at0: Clocks, aw: Frame, wk: Wrk, p: Poll,
                 f: Message -> Message, b: State, at: Clocks)
    requires Address(a) && Address(aw) && GoodName(n) && !Reserved(n)
    requires Inv(b0) && Balanced(b0)
    requires Inv(b) && Balanced(b) && IsAttached(b, n, FrameIn(aw))
    requires AllTravel(body) && AllTravel(f(body))
    ensures Exchange(a, n, body, b0, at0, aw, wk, p, f, b, at)
            == if body == [] || f(body) == [] || OldestRefused(b, n, at.now, at.purge) then None
               else Some((a, f(body)))
  {
    var c := FrameIn(a);
    AddressComesBack(a);
    AskIsQueued(a, n, body, b0, at0.now, at0.purge);
    if body != [] {
      HandIsTaken(aw, n, c, body, wk, p);
      TransferIsFaithful(f(body));
      ReplyIsSent(wk.(liveness := HEARTBEAT_LIVENESS, replyTo := c), f(body));
      ReplyIsPassedOn(aw, n, c, f(body), b, at.now, at.purge);
      AnswerIsCollected(a, n, f(body));
    }
  }
}
