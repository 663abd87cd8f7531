// The broker composed with any number of mdwrk workers over FIFO channels, one pair of
// channels per connection identity. Every interleaving of deliveries, timeouts, reconnects,
// crashes of workers, losses on dead connections, client requests and heartbeat rounds is a
// sequence of actions.

module Majordomo {
  import opened Bytes
  import opened Frames
  import opened Mdp
  import opened BrokerSpec
  import opened BrokerRuns
  import opened BrokerConforming
  import opened MdwrkSpec
  import Uuid

  datatype Down = DownRequest(payload: Message) | DownHeartbeat | DownDisconnect

  // A connection: the worker at its end unless that has gone, and what is on the way.
  datatype Conn = Conn(end: Option<Wrk>, up: seq<Up>, down: seq<Down>)

  datatype Sys = Sys(broker: State, conns: map<Id, Conn>, clients: set<Id>)

  const START := Sys(EMPTY, map[], {})

  datatype Action =
    | NewWorker(id: Id, service: Name, heartbeat: int, clock: int)
    | WorkerPolls(id: Id, quiet: bool, newId: Id, connectClock: int, clock: int)
    | WorkerReplies(id: Id, body: Message)
    | WorkerDies(id: Id)
    | Lose(id: Id, kept: nat)
    | BrokerReceives(id: Id, now: int, clock: int)
    | ClientAsks(client: Id, service: Name, body: Message, clock: int)
    | BrokerBeats(clock: int, order: seq<Id>)

  // -------------------------------------------------------------------------------------
  // The wire

  // zmsg::send at one end and zmsg::recv at the other leave such frames as they are.
  predicate Travels(f: Frame) {
    !Uuid.IsBinaryForm(f) && (Uuid.IsTextForm(f) ==> Uuid.IsCanonicalText(f))
  }

  predicate AllTravel(m: Message) {
    forall i :: 0 <= i < |m| ==> Travels(m[i])
  }

  function Transfer(m: Message): Message {
    WireIn(WireOut(m))
  }

  lemma TransferIsFaithful(m: Message)
    requires AllTravel(m)
    ensures Transfer(m) == m && Sendable(m)
  {
    DeliveryExactly(m);
  }

  lemma AllTravelConcat(a: Message, c: Message)
    ensures AllTravel(a + c) <==> AllTravel(a) && AllTravel(c)
  {
    assert forall i :: 0 <= i < |a| ==> a[i] == (a + c)[i];
    assert forall i :: 0 <= i < |c| ==> c[i] == (a + c)[|a| + i];
  }

  // A peer's address, or a service name, as it should be.
  predicate GoodName(f: Frame) {
    f != [] && NulFree(f) && Travels(f)
  }

  // A request or reply in the envelope of its client.
  predicate GoodEnvelope(m: Message) {
    |m| >= 2 && GoodName(m[0]) && m[1] == [] && AllTravel(m)
  }

  // What the worker's socket delivers: the ROUTER has taken the identity off.
  function DownFrames(d: Down): Message {
    match d
    case DownRequest(payload) => WorkerSend([], REQUEST, payload)[1..]
    case DownHeartbeat => WorkerSend([], HEARTBEAT, [])[1..]
    case DownDisconnect => WorkerSend([], DISCONNECT, [])[1..]
  }

  function DownTo(o: Out, x: Id): seq<Down> {
    match o
    case Request(w, _, payload) => if w == x then [DownRequest(payload)] else []
    case Heartbeat(w) => if w == x then [DownHeartbeat] else []
    case Disconnect(w) => if w == x then [DownDisconnect] else []
    case Answer(_, _, _) => []
  }

  // What is put on the channel of a worker is what the broker sends it, without the identity.
  lemma DownIsEncoded(o: Out, x: Id, d: Down)
    requires DownTo(o, x) == [d]
    ensures !o.Answer? && o.worker == x && Encode(o) == [CStr(x)] + DownFrames(d)
  {
    var command := if o.Request? then REQUEST else if o.Heartbeat? then HEARTBEAT else DISCONNECT;
    var payload := if o.Request? then o.payload else [];
    WorkerSendFrames(x, command, payload);
    WorkerSendFrames([], command, payload);
  }

  // The messages among outs that are routed to one identity.
  function DownsTo(outs: seq<Out>, x: Id): seq<Down> {
    if outs == [] then [] else DownTo(outs[0], x) + DownsTo(outs[1..], x)
  }

  // The ROUTER drops what it cannot deliver.
  function Route(c: Conn, outs: seq<Out>, x: Id): Conn {
    if c.end.Some? then c.(down := c.down + DownsTo(outs, x)) else c
  }

  function RouteAll(conns: map<Id, Conn>, outs: seq<Out>): map<Id, Conn> {
    map x | x in conns :: Route(conns[x], outs, x)
  }

  // -------------------------------------------------------------------------------------
  // Steps

  ghost predicate Fresh(s: Sys, id: Id) {
    GoodName(id) && id !in s.conns && id !in s.clients
  }

  predicate HasWorker(s: Sys, id: Id) {
    id in s.conns && s.conns[id].end.Some?
  }

  ghost predicate CanDo(s: Sys, a: Action) {
    match a
    case NewWorker(id, service, _, _) => Fresh(s, id) && GoodName(service)
    case WorkerPolls(id, quiet, newId, _, _) =>
      && HasWorker(s, id) && s.conns[id].end.value.replyTo == []
      && (!quiet ==> s.conns[id].down != [])
      && Fresh(s, newId)
    case WorkerReplies(id, body) =>
      HasWorker(s, id) && s.conns[id].end.value.replyTo != [] && AllTravel(body)
    case WorkerDies(id) => HasWorker(s, id)
    case Lose(id, kept) => id in s.conns && s.conns[id].end.None? && kept <= |s.conns[id].up|
    case BrokerReceives(id, _, _) => id in s.conns && s.conns[id].up != []
    case ClientAsks(client, service, body, _) =>
      && GoodName(client) && client !in s.conns && GoodName(service)
      && body != [] && AllTravel(body)
      && (service == MMI_SERVICE ==> Body(body) in s.broker.services || Body(body) == MMI_SERVICE)
    case BrokerBeats(clock, order) => Enabled(s.broker, Beat(clock, order))
  }

  // The input a broker action amounts to.
  ghost function InputOf(s: Sys, a: Action): Input
    requires CanDo(s, a) && (a.BrokerReceives? || a.ClientAsks? || a.BrokerBeats?)
  {
    match a
    case BrokerReceives(id, now, clock) =>
      FromPeer([id] + Transfer(EncodeUp(s.conns[id].up[0])), now, clock)
    case ClientAsks(client, service, body, clock) =>
      FromPeer([client] + Transfer([[], MDPC_CLIENT, service] + body), clock, clock)
    case BrokerBeats(clock, order) => Beat(clock, order)
  }

  ghost function BrokerStep(s: Sys, i: Input, conns: map<Id, Conn>, clients: set<Id>): Option<Sys> {
    match Step(s.broker, i)
    case Crash(_) => None
    case Done(b, outs) => Some(Sys(b, RouteAll(conns, outs), clients))
  }

  // zmsg::send takes all of them.
  predicate UpsSendable(ups: seq<Up>) {
    forall u :: u in ups ==> Sendable(EncodeUp(u))
  }

  lemma ControlSendable(u: Up)
    requires !u.UpReply?
    ensures Sendable(EncodeUp(u))
  {
    match u
    case UpReady(service) => SendToBrokerIsSendable(READY, service, []);
    case UpHeartbeat => SendToBrokerIsSendable(HEARTBEAT, [], []);
  }

  lemma ControlsSendable(ups: seq<Up>)
    requires forall u :: u in ups ==> !u.UpReply?
    ensures UpsSendable(ups)
  {
    forall u | u in ups ensures Sendable(EncodeUp(u)) {
      ControlSendable(u);
    }
  }

  lemma ReplySendable(payload: Message)
    requires Sendable(payload)
    ensures UpsSendable([UpReply(payload)])
  {
    SendToBrokerIsSendable(REPLY, [], payload);
  }

  // The system once the worker on connection id has gone through a turn and sent ups.
  function Turned(s: Sys, id: Id, w: Wrk, ups: seq<Up>): Sys
    requires id in s.conns
  {
    var c := s.conns[id];
    if w.id == id then s.(conns := s.conns[id := c.(end := Some(w), up := c.up + ups)])
    else s.(conns := s.conns[id := Conn(None, c.up, [])][w.id := Conn(Some(w), ups, [])])
  }

  function AfterTurn(s: Sys, id: Id, t: Turn): Option<Sys>
    requires id in s.conns
  {
    var c := s.conns[id];
    match t
    case Abort => None
    case Got(w, _) => Some(s.(conns := s.conns[id := c.(end := Some(w))]))
    case Again(w, ups) => if UpsSendable(ups) then Some(Turned(s, id, w, ups)) else None
  }

  lemma TurnIs(s: Sys, id: Id, t: Turn)
    requires id in s.conns && t.Again? && forall u :: u in t.ups ==> !u.UpReply?
    ensures AfterTurn(s, id, t) == Some(Turned(s, id, t.w, t.ups))
  {
    ControlsSendable(t.ups);
  }

  // None: the broker died, or a worker failed an assert, of its own or in zmsg::send.
  ghost function Do(s: Sys, a: Action): Option<Sys>
    requires CanDo(s, a)
  {
    match a
    case NewWorker(id, service, heartbeat, clock) =>
      var w := Begin(Connect(Wrk(id, service, 0, 0, heartbeat, false, []), id, clock), None).0;
      if !UpsSendable([UpReady(service)]) then None
      else Some(s.(conns := s.conns[id := Conn(Some(w), [UpReady(service)], [])]))
    case WorkerPolls(id, quiet, newId, connectClock, clock) =>
      var c := s.conns[id];
      if quiet then AfterTurn(s, id, OnPoll(c.end.value, Poll(None, newId, connectClock, clock)))
      else AfterTurn(s.(conns := s.conns[id := c.(down := c.down[1..])]), id,
                     OnPoll(c.end.value, Poll(Some(Transfer(DownFrames(c.down[0]))), newId, connectClock, clock)))
    case WorkerReplies(id, body) =>
      var c := s.conns[id];
      if !MayRecv(c.end.value, Some(body)) then None
      else
        var (w, ups) := Begin(c.end.value, Some(body));
        if !UpsSendable(ups) then None
        else Some(s.(conns := s.conns[id := c.(end := Some(w), up := c.up + ups)]))
    case WorkerDies(id) => Some(s.(conns := s.conns[id := Conn(None, s.conns[id].up, [])]))
    case Lose(id, kept) => Some(s.(conns := s.conns[id := Conn(None, s.conns[id].up[..kept], [])]))
    case BrokerReceives(id, _, _) =>
      var c := s.conns[id];
      BrokerStep(s, InputOf(s, a), s.conns[id := c.(up := c.up[1..])], s.clients)
    case ClientAsks(client, _, _, _) => BrokerStep(s, InputOf(s, a), s.conns, s.clients + {client})
    case BrokerBeats(_, _) => BrokerStep(s, InputOf(s, a), s.conns, s.clients)
  }

  // -------------------------------------------------------------------------------------
  // Work tokens

  function CountRequests(down: seq<Down>): nat {
    if down == [] then 0 else (if down[0].DownRequest? then 1 else 0) + CountRequests(down[1..])
  }

  function CountReplies(up: seq<Up>): nat {
    if up == [] then 0 else (if up[0].UpReply? then 1 else 0) + CountReplies(up[1..])
  }

  function Working(c: Conn): nat {
    if c.end.Some? && c.end.value.replyTo != [] then 1 else 0
  }

  // Requests on the way to the worker, being served by it, or answered and on the way back.
  function Tokens(c: Conn): nat {
    CountRequests(c.down) + Working(c) + CountReplies(c.up)
  }

  lemma CountRequestsConcat(a: seq<Down>, c: seq<Down>)
    ensures CountRequests(a + c) == CountRequests(a) + CountRequests(c)
  {
    if a == [] {
      assert a + c == c;
    } else {
      assert (a + c)[1..] == a[1..] + c;
      CountRequestsConcat(a[1..], c);
    }
  }

  lemma CountRepliesConcat(a: seq<Up>, c: seq<Up>)
    ensures CountReplies(a + c) == CountReplies(a) + CountReplies(c)
  {
    if a == [] {
      assert a + c == c;
    } else {
      assert (a + c)[1..] == a[1..] + c;
      CountRepliesConcat(a[1..], c);
    }
  }

  // -------------------------------------------------------------------------------------
  // The invariant

  ghost predicate UpOk(u: Up) {
    match u
    case UpReady(service) => GoodName(service)
    case UpReply(payload) => GoodEnvelope(payload)
    case UpHeartbeat => true
  }

  ghost predicate DownOk(d: Down) {
    d.DownRequest? ==> GoodEnvelope(d.payload)
  }

  ghost predicate EndOk(w: Wrk, id: Id) {
    && w.id == id
    && GoodName(w.service)
    && Sound(w)
    && w.expectReply
    && (w.replyTo != [] ==> GoodName(w.replyTo))
  }

  // READY opens a connection and is never sent again on it.
  ghost predicate UpsOk(up: seq<Up>) {
    forall i :: 0 <= i < |up| ==> UpOk(up[i]) && (up[i].UpReady? ==> i == 0)
  }

  ghost predicate WiringOk(id: Id, c: Conn) {
    && GoodName(id)
    && (if c.end.Some? then EndOk(c.end.value, id) else c.down == [])
    && UpsOk(c.up)
    && (forall i :: 0 <= i < |c.down| ==> DownOk(c.down[i]))
  }

  predicate Announced(c: Conn) {
    c.up != [] && c.up[0].UpReady?
  }

  ghost predicate TokensOk(b: State, id: Id, c: Conn) {
    && Tokens(c) <= 1
    && (Tokens(c) == 1 ==> id in b.workers && id !in b.waiting)
    && (Announced(c) ==> id !in b.workers && Tokens(c) == 0)
  }

  ghost predicate QueuesOk(b: State) {
    forall n, m :: m in Requests(b, n) ==> GoodEnvelope(m)
  }

  ghost predicate Good(s: Sys) {
    && Exact(s.broker)
    && QueuesOk(s.broker)
    && s.broker.workers.Keys <= s.conns.Keys
    && s.conns.Keys !! s.clients
    && (forall id :: id in s.conns ==> WiringOk(id, s.conns[id]) && TokensOk(s.broker, id, s.conns[id]))
  }

  lemma StartIsGood()
    ensures Good(START)
  {
  }
}
