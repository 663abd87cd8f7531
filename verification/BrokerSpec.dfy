// The Majordomo broker as a function on values: what each handler of mdbroker.cpp does to
// the three tables, which messages it sends, and which inputs end the process.
// Class Broker performs the same steps on linked objects and is proved to agree with it.

module BrokerSpec {
  import opened Bytes
  import opened Frames
  import opened Mdp

  type Id = Frame
  type Name = Frame

  datatype WorkerRec = WorkerRec(service: Option<Name>, expiry: int)

  // waiting may name a worker more than once: a REPLY from an idle worker queues it again.
  datatype ServiceRec = ServiceRec(requests: seq<Message>, waiting: seq<Id>, workers: int)

  datatype State = State(services: map<Name, ServiceRec>, workers: map<Id, WorkerRec>, waiting: set<Id>)

  const EMPTY := State(map[], map[], {})

  // How the process dies: a failed assert, map::at on an unknown service, a null service
  // pointer followed, or a string built from a null pointer.
  datatype Cause = AssertFailed | NoSuchService | NullService | NullString

  datatype Fate = Done(state: State, outs: seq<Out>) | Crash(cause: Cause)

  // -------------------------------------------------------------------------------------
  // Tables

  ghost predicate IsAttached(b: State, n: Name, id: Id) {
    id in b.workers && b.workers[id].service == Some(n)
  }

  // The registered workers of a service.
  ghost function Attached(b: State, n: Name): (r: set<Id>)
    ensures forall id :: id in r <==> IsAttached(b, n, id)
  {
    set id | id in b.workers && IsAttached(b, n, id)
  }

  function Expiry(b: State, id: Id): int {
    if id in b.workers then b.workers[id].expiry else 0
  }

  // The list with every occurrence of the given workers taken out.
  ghost function Without(q: seq<Id>, gone: set<Id>): (r: seq<Id>)
    ensures forall id :: id in r <==> id in q && id !in gone
    ensures |r| <= |q|
    ensures (forall id :: id in q ==> id !in gone) ==> r == q
  {
    if q == [] then []
    else if q[0] in gone then Without(q[1..], gone)
    else [q[0]] + Without(q[1..], gone)
  }

  ghost function ServiceWithout(b: State, n: Name, gone: set<Id>): ServiceRec
    requires n in b.services
  {
    var s := b.services[n];
    ServiceRec(s.requests, Without(s.waiting, gone), s.workers - |Attached(b, n) * gone|)
  }

  // Removes workers from every table and from the count of their service.
  ghost function DeleteAll(b: State, gone: set<Id>): State {
    State(map n | n in b.services :: ServiceWithout(b, n, gone), b.workers - gone, b.waiting - gone)
  }

  ghost function Delete(b: State, id: Id): State {
    DeleteAll(b, {id})
  }

  ghost function Expired(b: State, now: int): set<Id> {
    set id | id in b.waiting && Expiry(b, id) <= now
  }

  // purge_workers: the idle workers that have not been heard of in time.
  ghost function Purge(b: State, now: int): State {
    DeleteAll(b, Expired(b, now))
  }

  function ServiceRequire(b: State, n: Name): State {
    if n in b.services then b else b.(services := b.services[n := ServiceRec([], [], 0)])
  }

  function WorkerRequire(b: State, id: Id): State {
    if id in b.workers then b else b.(workers := b.workers[id := WorkerRec(None, 0)])
  }

  // -------------------------------------------------------------------------------------
  // Dispatch

  // The scan for the most recently seen worker: the best of the first k entries.
  function Best(b: State, q: seq<Id>, k: nat): (i: nat)
    requires 0 < k <= |q|
    ensures i < k
    ensures forall j :: 0 <= j < k ==> Expiry(b, q[j]) <= Expiry(b, q[i])
    ensures forall j :: 0 <= j < i ==> Expiry(b, q[j]) < Expiry(b, q[i])
  {
    if k == 1 then 0
    else
      var i := Best(b, q, k - 1);
      if Expiry(b, q[k - 1]) > Expiry(b, q[i]) then k - 1 else i
  }

  predicate CanSend(b: State, n: Name) {
    n in b.services && b.services[n].waiting != [] && b.services[n].requests != []
  }

  function Chosen(b: State, n: Name): Id
    requires CanSend(b, n)
  {
    b.services[n].waiting[Best(b, b.services[n].waiting, |b.services[n].waiting|)]
  }

  // One round of the dispatch loop: the oldest request leaves with the chosen worker.
  function SendOne(b: State, n: Name): (State, Out)
    requires CanSend(b, n)
  {
    var s := b.services[n];
    var i := Best(b, s.waiting, |s.waiting|);
    (b.(services := b.services[n := ServiceRec(s.requests[1..], s.waiting[..i] + s.waiting[i + 1..], s.workers)],
        waiting := b.waiting - {s.waiting[i]}),
     Request(s.waiting[i], n, s.requests[0]))
  }

  function DispatchLoop(b: State, n: Name): (State, seq<Out>)
    decreases if n in b.services then |b.services[n].requests| else 0
  {
    if !CanSend(b, n) then (b, [])
    else
      var (b1, o) := SendOne(b, n);
      var (b2, outs) := DispatchLoop(b1, n);
      (b2, [o] + outs)
  }

  function Enqueue(b: State, n: Name, msg: Option<Message>): State
    requires n in b.services
  {
    if msg.None? then b
    else
      var s := b.services[n];
      b.(services := b.services[n := s.(requests := s.requests + [msg.value])])
  }

  // service_dispatch; clock is what purge_workers reads.
  ghost function Dispatch(b: State, n: Name, msg: Option<Message>, clock: int): (State, seq<Out>)
    requires n in b.services
  {
    DispatchLoop(Purge(Enqueue(b, n, msg), clock), n)
  }

  // -------------------------------------------------------------------------------------
  // Messages from workers

  function Idle(b: State, id: Id, now: int): State
    requires id in b.workers && b.workers[id].service.Some? && b.workers[id].service.value in b.services
  {
    var n := b.workers[id].service.value;
    var s := b.services[n];
    State(b.services[n := s.(waiting := s.waiting + [id])],
          b.workers[id := WorkerRec(Some(n), now + HEARTBEAT_EXPIRY)],
          b.waiting + {id})
  }

  // worker_waiting; now is its own clock reading, clock that of the purge that follows.
  ghost function WorkerWaiting(b: State, id: Id, now: int, clock: int): Fate {
    if id !in b.workers || b.workers[id].service.None? || b.workers[id].service.value !in b.services
    then Crash(NullService)
    else
      var (b1, outs) := Dispatch(Idle(b, id, now), b.workers[id].service.value, None, clock);
      Done(b1, outs)
  }

  function Prepend(o: Out, f: Fate): Fate {
    match f
    case Done(b, outs) => Done(b, [o] + outs)
    case Crash(_) => f
  }

  // x.find_first_of("mmi.") == 0 with x.size() >= 4.
  predicate Reserved(x: Frame) {
    |x| >= 4 && x[0] in [109, 105, 46]
  }

  function Attach(b: State, id: Id, n: Name): State
    requires id in b.workers && n in b.services
  {
    b.(workers := b.workers[id := b.workers[id].(service := Some(n))],
       services := b.services[n := b.services[n].(workers := b.services[n].workers + 1)])
  }

  ghost function OnReady(b: State, sender: Id, rest: Message, now: int, clock: int): Fate {
    if sender in b.workers || Reserved(sender) then
      Done(Delete(WorkerRequire(b, sender), sender), [Disconnect(sender)])
    else if rest == [] then Crash(NullString)
    else if CStr(rest[0]) == [] then Crash(AssertFailed)
    else
      var n := CStr(rest[0]);
      WorkerWaiting(Attach(ServiceRequire(WorkerRequire(b, sender), n), sender, n), sender, now, clock)
  }

  ghost function OnReply(b: State, sender: Id, rest: Message, now: int, clock: int): Fate {
    if sender !in b.workers then Done(Delete(WorkerRequire(b, sender), sender), [Disconnect(sender)])
    else if rest == [] then Crash(NullString)
    else if b.workers[sender].service.None? then Crash(NullService)
    else Prepend(Answer(UnwrapAddress(rest), b.workers[sender].service.value, UnwrapRest(rest)),
                 WorkerWaiting(b, sender, now, clock))
  }

  ghost function OnHeartbeat(b: State, sender: Id, now: int): Fate {
    if sender !in b.workers then Done(Delete(WorkerRequire(b, sender), sender), [Disconnect(sender)])
    else Done(b.(workers := b.workers[sender := b.workers[sender].(expiry := now + HEARTBEAT_EXPIRY)]), [])
  }

  // worker_process: parts are those left after the sender, the delimiter and the header.
  ghost function WorkerProcess(b: State, sender: Id, parts: Message, now: int, clock: int): Fate {
    if parts == [] || sender == [] then Crash(AssertFailed)
    else Command(b, sender, CStr(parts[0]), parts[1..], now, clock)
  }

  ghost function Command(b: State, sender: Id, command: Frame, rest: Message, now: int, clock: int): Fate {
    if command == READY then OnReady(b, sender, rest, now, clock)
    else if command == REPLY then OnReply(b, sender, rest, now, clock)
    else if command == HEARTBEAT then OnHeartbeat(b, sender, now)
    else if command == DISCONNECT then Done(Delete(WorkerRequire(b, sender), sender), [])
    else Done(WorkerRequire(b, sender), [])
  }

  // -------------------------------------------------------------------------------------
  // Messages from clients

  // service_internal; parts begin with the client's address and a delimiter.
  function Internal(b: State, n: Name, parts: Message): Fate
    requires parts != []
  {
    if n == MMI_SERVICE && Body(parts) !in b.services then Crash(NoSuchService)
    else
      var code := if n != MMI_SERVICE then CODE_501
                  else if b.services[Body(parts)].workers != 0 then CODE_200
                  else CODE_404;
      var answered := BodySet(parts, code);
      Done(b, [Answer(UnwrapAddress(answered), n, UnwrapRest(answered))])
  }

  ghost function ClientProcess(b: State, sender: Id, parts: Message, clock: int): Fate {
    if |parts| < 2 || CStr(parts[0]) == [] then Crash(AssertFailed)
    else
      Serve(b, CStr(parts[0]), Wrap(parts[1..], sender, Some([])), clock)
  }

  ghost function Serve(b: State, n: Name, msg: Message, clock: int): Fate
    requires msg != []
  {
    var b1 := ServiceRequire(b, n);
    if Reserved(n) then Internal(b1, n, msg)
    else
      var (b2, outs) := Dispatch(b1, n, Some(msg), clock);
      Done(b2, outs)
  }

  // -------------------------------------------------------------------------------------
  // The loop of start_brokering

  // Everything that drives the broker: a message off the socket with the clock readings its
  // handler takes, or a heartbeat round with the order the idle set happens to be visited in.
  datatype Input =
    | FromPeer(parts: Message, now: int, clock: int)
    | Beat(clock: int, order: seq<Id>)

  ghost function OnMessage(b: State, parts: Message, now: int, clock: int): Fate {
    if |parts| < 3 then Crash(NullString)
    else
      var sender := CStr(parts[0]);
      var header := CStr(parts[2]);
      if header == MDPC_CLIENT then ClientProcess(b, sender, parts[3..], clock)
      else if header == MDPW_WORKER then WorkerProcess(b, sender, parts[3..], now, clock)
      else Done(b, [])
  }

  ghost predicate Enumerates(order: seq<Id>, s: set<Id>) {
    && (forall id :: id in order <==> id in s)
    && (forall i, j :: 0 <= i < j < |order| ==> order[i] != order[j])
  }

  function Heartbeats(order: seq<Id>): (outs: seq<Out>)
    ensures |outs| == |order|
  {
    seq(|order|, i requires 0 <= i < |order| => Heartbeat(order[i]))
  }

  ghost predicate Enabled(b: State, i: Input) {
    i.Beat? ==> Enumerates(i.order, Purge(b, i.clock).waiting)
  }

  ghost function Handle(b: State, i: Input): Fate {
    match i
    case FromPeer(parts, now, clock) => OnMessage(b, parts, now, clock)
    case Beat(clock, order) => Done(Purge(b, clock), Heartbeats(order))
  }

  predicate AllSendable(outs: seq<Out>) {
    forall o :: o in outs ==> Sendable(Encode(o))
  }

  // zmsg::send asserts that a part in UUID text form is a proper C string.
  ghost function Step(b: State, i: Input): Fate {
    var f := Handle(b, i);
    if f.Done? && !AllSendable(f.outs) then Crash(AssertFailed) else f
  }
}
