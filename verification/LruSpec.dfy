// lbbroker.cpp: the least-recently-used broker, its clients and its workers as one protocol.
// The handlers of the broker loop are functions; class LruBroker runs them on its fields.

module LruSpec {
  import opened Bytes

  type Id = Frame

  const READY: Frame := [82, 69, 65, 68, 89]    // "READY"
  const HELLO: Frame := [72, 69, 76, 76, 79]    // "HELLO"
  const OK: Frame := [79, 75]                   // "OK"

  // -------------------------------------------------------------------------------------
  // The broker

  datatype Broker = Broker(queue: seq<Id>, clientNbr: int)

  // What a handler does; Broken when an assert fails, front() is called on an empty queue, or
  // the frames of the message are not those the handler reads.
  datatype Result = Handled(b: Broker, out: Option<Message>) | Broken

  // A message from a worker: its identity and READY, or an answer for a client.
  function OnBackend(b: Broker, m: Message): Result {
    if |m| < 3 || m[1] != [] then Broken
    else
      var b1 := b.(queue := b.queue + [m[0]]);
      if m[2] == READY then (if |m| == 3 then Handled(b1, None) else Broken)
      else if |m| != 5 || m[3] != [] then Broken
      else Handled(b1.(clientNbr := b.clientNbr - 1), Some([m[2], [], m[4]]))
  }

  // A request from a client goes to the worker that has waited longest.
  function OnFrontend(b: Broker, m: Message): Result {
    if |m| != 3 || m[1] != [] || b.queue == [] then Broken
    else Handled(b.(queue := b.queue[1..]), Some([b.queue[0], [], m[0], [], m[2]]))
  }

  // The loop ends when the last client has been answered.
  function Ended(b: Broker, r: Result): bool {
    r.Handled? && r.out.Some? && r.b.clientNbr == 0
  }

  // -------------------------------------------------------------------------------------
  // The system

  datatype ClientStage = Unsent | Waiting | Answered(reply: Frame)

  datatype WorkerStage = Fresh | Listening | Serving(client: Id, request: Frame)

  // A peer with the messages on their way to the broker and back.
  datatype Client = Client(stage: ClientStage, up: seq<Message>, down: seq<Message>)

  datatype Worker = Worker(stage: WorkerStage, up: seq<Message>, down: seq<Message>)

  // Where the broker is in its loop: about to poll, with the events of the poll still to be
  // handled, or out of it.
  datatype Phase = Polling | Handling(backend: bool, frontend: bool) | Exited

  datatype Sys = Sys(clients: map<Id, Client>, workers: map<Id, Worker>, broker: Broker, phase: Phase)

  datatype Action =
    | ClientSends(id: Id)
    | ClientReceives(id: Id)
    | WorkerStarts(id: Id)
    | WorkerTakes(id: Id)
    | WorkerReplies(id: Id)
    | Polls(backend: bool, frontend: bool)
    | FromWorker(id: Id)
    | FromClient(id: Id)

  function Start(clients: set<Id>, workers: set<Id>): Sys {
    Sys(map c | c in clients :: Client(Unsent, [], []),
        map w | w in workers :: Worker(Fresh, [], []),
        Broker([], |clients|), Polling)
  }

  ghost predicate SomeWorkerSays(s: Sys) {
    exists w :: w in s.workers && s.workers[w].up != []
  }

  ghost predicate SomeClientSays(s: Sys) {
    exists c :: c in s.clients && s.clients[c].up != []
  }

  // A poll reports at least one event; the frontend is in it only if some worker is queued.
  ghost predicate CanPoll(s: Sys, backend: bool, frontend: bool) {
    && s.phase.Polling?
    && (backend || frontend)
    && (backend ==> SomeWorkerSays(s))
    && (frontend ==> s.broker.queue != [] && SomeClientSays(s))
  }

  ghost predicate CanDo(s: Sys, a: Action) {
    match a
    case ClientSends(c) => c in s.clients && s.clients[c].stage.Unsent?
    case ClientReceives(c) => c in s.clients && s.clients[c].stage.Waiting? && s.clients[c].down != []
    case WorkerStarts(w) => w in s.workers && s.workers[w].stage.Fresh?
    case WorkerTakes(w) => w in s.workers && s.workers[w].stage.Listening? && s.workers[w].down != []
    case WorkerReplies(w) => w in s.workers && s.workers[w].stage.Serving?
    case Polls(backend, frontend) => CanPoll(s, backend, frontend)
    case FromWorker(w) =>
      s.phase.Handling? && s.phase.backend && w in s.workers && s.workers[w].up != []
    case FromClient(c) =>
      s.phase.Handling? && !s.phase.backend && s.phase.frontend && c in s.clients && s.clients[c].up != []
  }

  function SetClient(s: Sys, id: Id, c: Client): Sys {
    s.(clients := s.clients[id := c])
  }

  function SetWorker(s: Sys, id: Id, w: Worker): Sys {
    s.(workers := s.workers[id := w])
  }

  // A ROUTER socket takes the first frame for the receiver's identity, and the receiver's REQ
  // socket takes the empty frame off; what has no receiver is dropped.
  function ToClient(s: Sys, m: Message): Sys
    requires |m| >= 2
  {
    if m[0] !in s.clients then s
    else SetClient(s, m[0], s.clients[m[0]].(down := s.clients[m[0]].down + [m[2..]]))
  }

  function ToWorker(s: Sys, m: Message): Sys
    requires |m| >= 2
  {
    if m[0] !in s.workers then s
    else SetWorker(s, m[0], s.workers[m[0]].(down := s.workers[m[0]].down + [m[2..]]))
  }

  function AfterBackend(s: Sys, r: Result): Option<Sys>
    requires s.phase.Handling? && (r.Handled? && r.out.Some? ==> |r.out.value| >= 2)
  {
    if r.Broken? then None
    else
      var s1 := s.(broker := r.b,
                   phase := if Ended(s.broker, r) then Exited
                            else if s.phase.frontend then Handling(false, true) else Polling);
      Some(if r.out.Some? then ToClient(s1, r.out.value) else s1)
  }

  // None: somebody failed an assert or read what was not there. A REQ socket puts an empty
  // frame before what it sends, and a ROUTER the sender's identity before what it receives.
  function Do(s: Sys, a: Action): Option<Sys>
    requires CanDo(s, a)
  {
    match a
    case ClientSends(c) =>
      Some(SetClient(s, c, Client(Waiting, s.clients[c].up + [[[], HELLO]], s.clients[c].down)))
    case ClientReceives(c) =>
      var x := s.clients[c];
      if |x.down[0]| != 1 then None
      else Some(SetClient(s, c, Client(Answered(x.down[0][0]), x.up, x.down[1..])))
    case WorkerStarts(w) =>
      Some(SetWorker(s, w, Worker(Listening, s.workers[w].up + [[[], READY]], s.workers[w].down)))
    case WorkerTakes(w) =>
      var x := s.workers[w];
      if |x.down[0]| != 3 || x.down[0][1] != [] then None
      else Some(SetWorker(s, w, Worker(Serving(x.down[0][0], x.down[0][2]), x.up, x.down[1..])))
    case WorkerReplies(w) =>
      var x := s.workers[w];
      Some(SetWorker(s, w, Worker(Listening, x.up + [[[], x.stage.client, [], OK]], x.down)))
    case Polls(backend, frontend) => Some(s.(phase := Handling(backend, frontend)))
    case FromWorker(w) =>
      var x := s.workers[w];
      AfterBackend(SetWorker(s, w, x.(up := x.up[1..])), OnBackend(s.broker, [w] + x.up[0]))
    case FromClient(c) =>
      var x := s.clients[c];
      var r := OnFrontend(s.broker, [c] + x.up[0]);
      if r.Broken? then None
      else Some(ToWorker(SetClient(s, c, x.(up := x.up[1..])).(broker := r.b, phase := Polling), r.out.value))
  }

  // -------------------------------------------------------------------------------------
  // Where everybody is

  // The places a worker can be in.
  datatype Place = Starting | Announcing | Queued | Called(client: Id) | Working(client: Id) | Replying(client: Id)

  predicate IsAt(w: Worker, queued: bool, p: Place) {
    match p
    case Starting => !queued && w == Worker(Fresh, [], [])
    case Announcing => !queued && w == Worker(Listening, [[[], READY]], [])
    case Queued => queued && w == Worker(Listening, [], [])
    case Called(c) => !queued && w == Worker(Listening, [], [[c, [], HELLO]])
    case Working(c) => !queued && w == Worker(Serving(c, HELLO), [], [])
    case Replying(c) => !queued && w == Worker(Listening, [[[], c, [], OK]], [])
  }

  // The only place a worker could be in.
  function PlaceOf(w: Worker): Place {
    if w.stage.Fresh? then Starting
    else if w.stage.Serving? then Working(w.stage.client)
    else if w.up == [] && w.down == [] then Queued
    else if w.down != [] then (if w.down[0] != [] then Called(w.down[0][0]) else Queued)
    else if |w.up[0]| == 4 then Replying(w.up[0][1])
    else Announcing
  }

  lemma OnlyOnePlace(w: Worker, queued: bool, p: Place)
    requires IsAt(w, queued, p)
    ensures p == PlaceOf(w)
  {
  }

  // The client whose request or reply a worker has.
  function Carried(w: Worker): Option<Id> {
    match PlaceOf(w)
    case Called(c) => Some(c)
    case Working(c) => Some(c)
    case Replying(c) => Some(c)
    case Starting => None
    case Announcing => None
    case Queued => None
  }

  ghost predicate Carries(s: Sys, w: Id, c: Id) {
    w in s.workers && Carried(s.workers[w]) == Some(c)
  }

  ghost predicate IsCarried(s: Sys, c: Id) {
    exists w :: Carries(s, w, c)
  }

  // A client has sent nothing, has its request on the way, with a worker or answered, or has
  // its one reply on the way or in hand.
  predicate ClientOk(c: Client, carried: bool) {
    || (c == Client(Unsent, [], []) && !carried)
    || (c == Client(Waiting, [[[], HELLO]], []) && !carried)
    || (c == Client(Waiting, [], []) && carried)
    || (c == Client(Waiting, [], [[OK]]) && !carried)
    || (c == Client(Answered(OK), [], []) && !carried)
  }

  // Not yet announced to the broker; not yet asked of the broker; not yet answered by it.
  predicate IsUnready(w: Worker) {
    PlaceOf(w).Starting? || PlaceOf(w).Announcing?
  }

  predicate IsUnasked(c: Client) {
    c.stage.Unsent? || c.up != []
  }

  predicate IsUnanswered(c: Client) {
    !c.stage.Answered? && c.down == []
  }

  ghost function Unready(s: Sys): set<Id> {
    set w | w in s.workers && IsUnready(s.workers[w])
  }

  ghost function Unasked(s: Sys): set<Id> {
    set c | c in s.clients && IsUnasked(s.clients[c])
  }

  ghost function Unanswered(s: Sys): set<Id> {
    set c | c in s.clients && IsUnanswered(s.clients[c])
  }

  predicate NoDuplicates(q: seq<Id>) {
    forall i, j :: 0 <= i < j < |q| ==> q[i] != q[j]
  }

  ghost predicate WorkersOk(s: Sys) {
    && NoDuplicates(s.broker.queue)
    && (forall w :: w in s.broker.queue ==> w in s.workers)
    && (forall w :: w in s.workers ==> IsAt(s.workers[w], w in s.broker.queue, PlaceOf(s.workers[w])))
  }

  ghost predicate ClientsOk(s: Sys) {
    && READY !in s.clients
    && (forall c :: c in s.clients ==> ClientOk(s.clients[c], IsCarried(s, c)))
    && (forall w, c :: Carries(s, w, c) ==> c in s.clients)
    && (forall v, w, c :: Carries(s, v, c) && Carries(s, w, c) ==> v == w)
  }

  ghost predicate PhaseOk(s: Sys) {
    match s.phase
    case Polling => s.broker.clientNbr > 0
    case Handling(backend, frontend) =>
      && s.broker.clientNbr > 0
      && (backend || frontend)
      && (backend ==> SomeWorkerSays(s))
      && (frontend ==> s.broker.queue != [] && SomeClientSays(s))
    case Exited => s.broker.clientNbr == 0
  }

  ghost predicate Good(s: Sys) {
    && WorkersOk(s)
    && ClientsOk(s)
    && PhaseOk(s)
    && s.broker.clientNbr == |Unanswered(s)|
  }

  lemma StartIsGood(clients: set<Id>, workers: set<Id>)
    requires clients != {} && READY !in clients
    ensures Good(Start(clients, workers))
    ensures Unready(Start(clients, workers)) == workers
    ensures Unasked(Start(clients, workers)) == Unanswered(Start(clients, workers)) == clients
  {
    var s := Start(clients, workers);
    assert Unanswered(s) == clients;
    assert forall w, c :: !Carries(s, w, c);
  }
}
