// mdbroker.cpp as linked objects: workers and services point at each other, and every handler
// updates the three tables in place. The ghost field st holds the value BrokerSpec speaks of;
// Valid ties it to the objects, and each method is proved to change it as BrokerSpec says.

module MajordomoBroker {
  import opened Bytes
  import opened Frames
  import opened Mdp
  import Spec = BrokerSpec
  import opened BrokerInvariants
  import opened BrokerRuns
  import opened BrokerTimer
  import opened Zmsg

  class Worker {
    const identity: Frame
    var service: Service?
    var expiry: int

    constructor (identity: Frame)
      ensures this.identity == identity && service == null && expiry == 0
    {
      this.identity := identity;
      service := null;
      expiry := 0;
    }
  }

  class Service {
    const name: Frame
    var requests: seq<Message>
    var waiting: seq<Worker>
    var workers: nat  // not initialised by the original; 0 is meant

    constructor (name: Frame)
      ensures this.name == name && requests == [] && waiting == [] && workers == 0
    {
      this.name := name;
      requests, waiting, workers := [], [], 0;
    }

    // The loop of worker_delete that erases every occurrence while it walks the list.
    method Erase(w: Worker)
      modifies this`waiting
      ensures waiting == Dropped(old(waiting), w)
    {
      var i := 0;
      while i < |waiting|
        invariant 0 <= i <= |waiting|
        invariant waiting[..i] + Dropped(waiting[i..], w) == Dropped(old(waiting), w)
        decreases |waiting| - i
      {
        assert waiting[i..] == [waiting[i]] + waiting[i + 1..];
        if waiting[i] == w {
          ghost var was := waiting;
          waiting := waiting[..i] + waiting[i + 1..];
          assert waiting[i..] == was[i + 1..] && waiting[..i] == was[..i];
        } else {
          assert waiting[..i + 1] + Dropped(waiting[i + 1..], w) == waiting[..i] + Dropped(waiting[i..], w);
          i := i + 1;
        }
      }
      assert waiting[i..] == [] && waiting[..i] == waiting;
    }
  }

  ghost function Dropped(q: seq<Worker>, w: Worker): seq<Worker> {
    if q == [] then []
    else if q[0] == w then Dropped(q[1..], w)
    else [q[0]] + Dropped(q[1..], w)
  }

  // The identities of the first n workers.
  ghost function Identities(q: seq<Worker>, n: nat): set<Frame>
    requires n <= |q|
  {
    if n == 0 then {} else Identities(q, n - 1) + {q[n - 1].identity}
  }

  lemma IdentitiesAre(q: seq<Worker>, n: nat)
    requires n <= |q|
    ensures forall j :: 0 <= j < n ==> q[j].identity in Identities(q, n)
    ensures forall id :: id in Identities(q, n) ==> exists j :: 0 <= j < n && q[j].identity == id
  {
  }

  // The workers from place i on are still in the table.
  ghost predicate AllLive(workers: map<Frame, Worker>, q: seq<Worker>, i: nat) {
    forall j :: i <= j < |q| ==> IsLive(workers, q[j])
  }

  lemma OthersStayLive(workers: map<Frame, Worker>, q: seq<Worker>, i: nat)
    requires i < |q| && AllLive(workers, q, i)
    requires forall j, k :: 0 <= j < k < |q| ==> q[j] != q[k]
    ensures AllLive(workers - {q[i].identity}, q, i + 1)
  {
    forall j | i < j < |q| ensures q[j].identity != q[i].identity {
      assert IsLive(workers, q[i]) && IsLive(workers, q[j]);
    }
  }

  ghost function WireAll(outs: seq<Out>): (r: seq<Message>)
    ensures |r| == |outs|
  {
    seq(|outs|, i requires 0 <= i < |outs| => WireOut(Encode(outs[i])))
  }

  // The ROUTER socket: the messages sent so far, as frames on the wire. alive turns false
  // when zmsg::send fails its assert; nothing the process would do after that matters.
  class Socket {
    var sent: seq<Message>
    var alive: bool

    constructor ()
      ensures sent == [] && alive
    {
      sent, alive := [], true;
    }

    // The socket has taken these messages since it stood at sent0.
    ghost predicate Took(alive0: bool, sent0: seq<Message>, outs: seq<Out>)
      reads this
    {
      && alive == (alive0 && Spec.AllSendable(outs))
      && (alive ==> sent == sent0 + WireAll(outs))
    }

    method Transmit(msg: ZMsg)
      modifies this, msg
      ensures alive == (old(alive) && Sendable(old(msg.parts)))
      ensures alive ==> sent == old(sent) + [WireOut(old(msg.parts))]
    {
      if Sendable(msg.parts) {
        var frames := msg.Send();
        sent := sent + [frames];
      } else {
        alive := false;
      }
    }
  }

  // -------------------------------------------------------------------------------------
  // How the objects show the tables of a Spec.State

  ghost predicate IsLive(workers: map<Frame, Worker>, w: Worker) {
    w.identity in workers && workers[w.identity] == w
  }

  ghost predicate SameList(workers: map<Frame, Worker>, q: seq<Worker>, ids: seq<Frame>) {
    |q| == |ids| && forall i :: 0 <= i < |q| ==> q[i].identity == ids[i] && IsLive(workers, q[i])
  }

  ghost predicate ServiceOk(s: Service, workers: map<Frame, Worker>, r: Spec.ServiceRec)
    reads s
  {
    s.requests == r.requests && s.workers == r.workers && SameList(workers, s.waiting, r.waiting)
  }

  ghost predicate WorkerOk(w: Worker, services: map<Frame, Service>, r: Spec.WorkerRec)
    reads w
  {
    && w.expiry == r.expiry
    && (if w.service == null then r.service == None
        else w.service.name in services && services[w.service.name] == w.service
             && r.service == Some(w.service.name))
  }

  ghost predicate ServicesOk(services: map<Frame, Service>, workers: map<Frame, Worker>, recs: map<Frame, Spec.ServiceRec>)
    reads services.Values
  {
    && services.Keys == recs.Keys
    && forall n :: n in services ==> services[n].name == n && ServiceOk(services[n], workers, recs[n])
  }

  ghost predicate WorkersOk(workers: map<Frame, Worker>, services: map<Frame, Service>, recs: map<Frame, Spec.WorkerRec>)
    reads workers.Values
  {
    && workers.Keys == recs.Keys
    && forall id :: id in workers ==> workers[id].identity == id && WorkerOk(workers[id], services, recs[id])
  }

  ghost predicate WaitingOk(waiting: set<Worker>, workers: map<Frame, Worker>, ids: set<Frame>) {
    && (forall w :: w in waiting ==> IsLive(workers, w) && w.identity in ids)
    && (forall id :: id in ids ==> id in workers && workers[id] in waiting)
  }

  // No list names the worker.
  ghost predicate Unlisted(services: map<Frame, Service>, w: Worker)
    reads services.Values
  {
    forall n :: n in services ==> w !in services[n].waiting
  }

  // The pointer list and the identity list stay in step when one worker is erased.
  lemma DroppedList(workers: map<Frame, Worker>, q: seq<Worker>, ids: seq<Frame>, w: Worker)
    requires SameList(workers, q, ids) && IsLive(workers, w)
    ensures SameList(workers, Dropped(q, w), Spec.Without(ids, {w.identity}))
    ensures w !in Dropped(q, w)
  {
    if q != [] {
      assert q[0].identity == ids[0] && IsLive(workers, q[0]);
      DroppedList(workers, q[1..], ids[1..], w);
    }
  }

  lemma ForgetInServices(services: map<Frame, Service>, workers: map<Frame, Worker>, recs: map<Frame, Spec.ServiceRec>, w: Worker)
    requires ServicesOk(services, workers, recs) && IsLive(workers, w) && Unlisted(services, w)
    ensures ServicesOk(services, workers - {w.identity}, recs)
  {
    forall n | n in services ensures ServiceOk(services[n], workers - {w.identity}, recs[n]) {
      var q := services[n].waiting;
      assert ServiceOk(services[n], workers, recs[n]);
      forall i | 0 <= i < |q| ensures IsLive(workers - {w.identity}, q[i]) {
        assert IsLive(workers, q[i]) && q[i] in q;
      }
    }
  }

  lemma ForgetInWaiting(waiting: set<Worker>, workers: map<Frame, Worker>, ids: set<Frame>, w: Worker)
    requires WaitingOk(waiting, workers, ids) && IsLive(workers, w)
    requires forall id :: id in workers ==> workers[id].identity == id
    ensures WaitingOk(waiting - {w}, workers - {w.identity}, ids - {w.identity})
  {
  }

  ghost predicate WorkersIn(workers: map<Frame, Worker>, repr: set<object>) {
    forall id :: id in workers ==> workers[id] in repr
  }

  lemma ForgetInRepr(workers: map<Frame, Worker>, repr: set<object>, id: Frame)
    requires WorkersIn(workers, repr)
    ensures WorkersIn(workers - {id}, repr)
  {
  }

  lemma ForgetInWorkers(workers: map<Frame, Worker>, services: map<Frame, Service>, recs: map<Frame, Spec.WorkerRec>, id: Frame)
    requires WorkersOk(workers, services, recs)
    ensures WorkersOk(workers - {id}, services, recs - {id})
  {
  }

  lemma NewService(workers: map<Frame, Worker>, services: map<Frame, Service>, recs: map<Frame, Spec.WorkerRec>, s: Service)
    requires WorkersOk(workers, services, recs) && s.name !in services
    ensures WorkersOk(workers, services[s.name := s], recs)
  {
  }

  lemma NewWorker(services: map<Frame, Service>, workers: map<Frame, Worker>, recs: map<Frame, Spec.ServiceRec>, w: Worker)
    requires ServicesOk(services, workers, recs) && w.identity !in workers
    ensures ServicesOk(services, workers[w.identity := w], recs)
  {
  }

  lemma SameListWithout(workers: map<Frame, Worker>, q: seq<Worker>, ids: seq<Frame>, k: nat)
    requires SameList(workers, q, ids) && k < |q|
    ensures SameList(workers, q[..k] + q[k + 1..], ids[..k] + ids[k + 1..])
  {
  }

  lemma SentFromWaiting(waiting: set<Worker>, workers: map<Frame, Worker>, ids: set<Frame>, w: Worker)
    requires WaitingOk(waiting, workers, ids) && IsLive(workers, w)
    requires forall id :: id in workers ==> workers[id].identity == id
    ensures WaitingOk(waiting - {w}, workers, ids - {w.identity})
  {
  }

  // A later batch of messages on top of an earlier one.
  lemma TookMore(alive0: bool, sent0: seq<Message>, socket: Socket, alive1: bool, sent1: seq<Message>, a: seq<Out>, c: seq<Out>)
    requires alive1 == (alive0 && Spec.AllSendable(a)) && (alive1 ==> sent1 == sent0 + WireAll(a))
    requires socket.Took(alive1, sent1, c)
    ensures socket.Took(alive0, sent0, a + c)
  {
    WireAllAppend(a, c);
    AllSendableAppend(a, c);
    assert (sent0 + WireAll(a)) + WireAll(c) == sent0 + (WireAll(a) + WireAll(c));
  }

  lemma WireAllAppend(a: seq<Out>, c: seq<Out>)
    ensures WireAll(a + c) == WireAll(a) + WireAll(c)
  {
    forall i | 0 <= i < |a + c| ensures WireAll(a + c)[i] == (WireAll(a) + WireAll(c))[i] {
    }
  }

  lemma AllSendableAppend(a: seq<Out>, c: seq<Out>)
    ensures Spec.AllSendable(a + c) <==> Spec.AllSendable(a) && Spec.AllSendable(c)
  {
  }

  lemma TookOne(alive0: bool, sent0: seq<Message>, o: Out)
    ensures Spec.AllSendable([o]) <==> Sendable(Encode(o))
    ensures WireAll([o]) == [WireOut(Encode(o))]
  {
  }

  lemma WaitingIsDispatch(b: Spec.State, id: Frame, now: int, clock: int, n: Frame)
    requires id in b.workers && b.workers[id].service == Some(n) && n in b.services
    ensures Spec.WorkerWaiting(b, id, now, clock).Done?
    ensures Spec.WorkerWaiting(b, id, now, clock).state == Spec.Dispatch(Spec.Idle(b, id, now), n, None, clock).0
    ensures Spec.WorkerWaiting(b, id, now, clock).outs == Spec.Dispatch(Spec.Idle(b, id, now), n, None, clock).1
  {
  }

  // The inputs one turn of the loop feeds to the handlers.
  ghost function Arrivals(r: Round): seq<Spec.Input> {
    if r.incoming.Some? then [Spec.FromPeer(WireIn(r.incoming.value), r.now, r.clock)] else []
  }

  ghost function Pulses(t: Timer, r: Round, order: seq<Frame>): seq<Spec.Input> {
    if Beats(t, r) then [Spec.Beat(r.beat, order)] else []
  }

  ghost predicate PollsOnTime(t0: int, script: seq<Round>, polls: seq<int>) {
    && |polls| <= |script|
    && forall i :: 0 <= i < |polls| ==> polls[i] == PollTimeout(Turns(Start(t0), script, i))
  }

  // The inputs of the first n turns; orders are those of the heartbeat rounds.
  ghost function AllInputs(t: Timer, script: seq<Round>, orders: seq<seq<Frame>>, n: nat): seq<Spec.Input>
    requires n <= |script| && n <= |orders|
  {
    if n == 0 then []
    else AllInputs(t, script, orders, n - 1)
         + (Arrivals(script[n - 1]) + Pulses(Turns(t, script, n - 1), script[n - 1], orders[n - 1]))
  }

  lemma {:induction false} AllInputsPrefix(t: Timer, script: seq<Round>, orders: seq<seq<Frame>>, order: seq<Frame>, n: nat)
    requires n <= |orders| < |script|
    ensures AllInputs(t, script, orders + [order], n) == AllInputs(t, script, orders, n)
  {
    if n > 0 {
      AllInputsPrefix(t, script, orders, order, n - 1);
      assert (orders + [order])[n - 1] == orders[n - 1];
    }
  }

  lemma AllInputsNext(t: Timer, script: seq<Round>, orders: seq<seq<Frame>>, order: seq<Frame>)
    requires |orders| < |script|
    ensures AllInputs(t, script, orders + [order], |orders| + 1)
            == AllInputs(t, script, orders, |orders|)
               + (Arrivals(script[|orders|]) + Pulses(Turns(t, script, |orders|), script[|orders|], order))
  {
    AllInputsPrefix(t, script, orders, order, |orders|);
    assert (orders + [order])[|orders|] == order;
  }

  // The heartbeat rounds among the inputs of a run.
  ghost function CountRounds(inputs: seq<Spec.Input>): nat {
    if inputs == [] then 0 else (if inputs[0].Beat? then 1 else 0) + CountRounds(inputs[1..])
  }

  lemma CountRoundsConcat(a: seq<Spec.Input>, c: seq<Spec.Input>)
    ensures CountRounds(a + c) == CountRounds(a) + CountRounds(c)
  {
    if a == [] {
      assert a + c == c;
    } else {
      assert (a + c)[1..] == a[1..] + c;
      CountRoundsConcat(a[1..], c);
    }
  }

  lemma {:induction false} RoundsAreCounted(t: Timer, script: seq<Round>, orders: seq<seq<Frame>>, n: nat)
    requires n <= |script| && n <= |orders|
    ensures CountRounds(AllInputs(t, script, orders, n)) == BeatCount(t, script, n)
  {
    if n > 0 {
      RoundsAreCounted(t, script, orders, n - 1);
      RoundsOfTurn(AllInputs(t, script, orders, n - 1), Turns(t, script, n - 1), script[n - 1], orders[n - 1]);
    }
  }

  lemma RoundsOfTurn(before: seq<Spec.Input>, t: Timer, r: Round, order: seq<Frame>)
    ensures CountRounds(before + (Arrivals(r) + Pulses(t, r, order)))
            == CountRounds(before) + (if Beats(t, r) then 1 else 0)
  {
    CountRoundsConcat(before, Arrivals(r) + Pulses(t, r, order));
    CountRoundsConcat(Arrivals(r), Pulses(t, r, order));
    CountOne(Arrivals(r));
    CountOne(Pulses(t, r, order));
  }

  lemma CountOne(inputs: seq<Spec.Input>)
    requires |inputs| <= 1
    ensures CountRounds(inputs) == if inputs != [] && inputs[0].Beat? then 1 else 0
  {
    assert inputs != [] ==> inputs[1..] == [];
  }

  // The inputs the loop of start_brokering works through have a heartbeat round for each
  // 2500 ms gone by, no more and no fewer, if it looks at the clock that often.
  lemma RoundsAreOnTime(t0: int, script: seq<Round>, orders: seq<seq<Frame>>, n: nat)
    requires Monotone(t0, script) && Prompt(t0, script) && 0 < n <= |script| && n <= |orders|
    ensures CountRounds(AllInputs(Start(t0), script, orders, n)) == (script[n - 1].seen - t0) / 2500
  {
    RoundsAreCounted(Start(t0), script, orders, n);
    NoRoundIsMissed(t0, script, n);
  }

  // Each round among them is by the clock of its turn, when the next point of the grid is past.
  lemma RoundsFallDue(t0: int, script: seq<Round>, orders: seq<seq<Frame>>, n: nat)
    requires Monotone(t0, script) && n < |script| && n < |orders|
    ensures var before, k := AllInputs(Start(t0), script, orders, n), CountRounds(AllInputs(Start(t0), script, orders, n));
            AllInputs(Start(t0), script, orders, n + 1)
            == before + (Arrivals(script[n])
                         + if script[n].seen >= t0 + 2500 * (k + 1) then [Spec.Beat(script[n].beat, orders[n])] else [])
  {
    RoundsAreCounted(Start(t0), script, orders, n);
    HeartbeatGrid(t0, script, n);
  }

  lemma OneEnabled(b: Spec.State, i: Spec.Input)
    requires Spec.Enabled(b, i)
    ensures RunEnabled(b, [i])
  {
    assert [i][1..] == [];
  }

  lemma ArrivalsEnabled(b: Spec.State, r: Round)
    ensures RunEnabled(b, Arrivals(r))
  {
    if r.incoming.Some? {
      OneEnabled(b, Arrivals(r)[0]);
    }
  }

  lemma RunStops(b: Spec.State, a: seq<Spec.Input>, c: seq<Spec.Input>)
    requires Run(b, a).Crash?
    ensures Run(b, a + c) == Run(b, a)
    decreases |a|
  {
    if a != [] {
      assert (a + c)[1..] == a[1..] + c;
      if Spec.Step(b, a[0]).Done? {
        RunStops(Spec.Step(b, a[0]).state, a[1..], c);
      }
    }
  }

  lemma HeartbeatsAreSendable(order: seq<Frame>)
    ensures Spec.AllSendable(Spec.Heartbeats(order))
  {
    forall o | o in Spec.Heartbeats(order) ensures Sendable(Encode(o)) {
      EncodeIsSendable(o);
    }
  }

  lemma BeatStep(b: Spec.State, clock: int, order: seq<Frame>)
    ensures Spec.Step(b, Spec.Beat(clock, order)) == Spec.Done(Spec.Purge(b, clock), Spec.Heartbeats(order))
    ensures Spec.AllSendable(Spec.Heartbeats(order))
  {
    HeartbeatsAreSendable(order);
  }

  lemma TookNothing(socket: Socket)
    ensures socket.Took(socket.alive, socket.sent, [])
  {
  }

  lemma TookNothingYet(socket: Socket, alive0: bool, sent0: seq<Message>)
    requires socket.Took(alive0, sent0, [])
    ensures socket.alive == alive0 && (alive0 ==> socket.sent == sent0)
  {
  }

  // The dispatch loop, started in b, has got to st and sent outs.
  ghost predicate Reached(b: Spec.State, n: Frame, st: Spec.State, outs: seq<Out>) {
    Spec.DispatchLoop(b, n) == (Spec.DispatchLoop(st, n).0, outs + Spec.DispatchLoop(st, n).1)
  }

  lemma ReachedAtStart(b: Spec.State, n: Frame)
    ensures Reached(b, n, b, [])
  {
    var outs := Spec.DispatchLoop(b, n).1;
    assert [] + outs == outs;
  }

  lemma ReachedNext(b: Spec.State, n: Frame, st: Spec.State, outs: seq<Out>)
    requires Reached(b, n, st, outs) && Spec.CanSend(st, n)
    ensures Reached(b, n, Spec.SendOne(st, n).0, outs + [Spec.SendOne(st, n).1])
  {
    var (b1, o) := Spec.SendOne(st, n);
    var rest := Spec.DispatchLoop(b1, n).1;
    assert outs + ([o] + rest) == (outs + [o]) + rest;
  }

  lemma ReachedAtEnd(b: Spec.State, n: Frame, st: Spec.State, outs: seq<Out>)
    requires Reached(b, n, st, outs) && !Spec.CanSend(st, n)
    ensures Spec.DispatchLoop(b, n) == (st, outs)
  {
    assert outs + [] == outs;
  }

  class Broker {
    var services: map<Frame, Service>
    var workers: map<Frame, Worker>
    var waiting: set<Worker>
    const socket: Socket

    ghost var st: Spec.State
    ghost var repr: set<object>  // every worker and service ever made

    constructor ()
      ensures Valid() && st == Spec.EMPTY
      ensures repr == {} && fresh(socket) && socket.sent == [] && socket.alive
    {
      repr := {};
      services, workers, waiting := map[], map[], {};
      socket := new Socket();
      st := Spec.EMPTY;
    }

    ghost predicate Shape()
      reads this, services.Values, workers.Values
    {
      && ServicesOk(services, workers, st.services)
      && WorkersOk(workers, services, st.workers)
      && WaitingOk(waiting, workers, st.waiting)
    }

    ghost predicate Owned()
      reads this`services, this`workers, this`repr
    {
      && (forall n :: n in services ==> services[n] in repr)
      && WorkersIn(workers, repr)
      && this !in repr && socket !in repr
    }

    ghost predicate Valid()
      reads this, services.Values, workers.Values
    {
      Shape() && Owned() && Inv(st)
    }

    // -----------------------------------------------------------------------------------
    // Sending

    method WorkerSend(w: Worker, ghost o: Out, command: Frame, payload: Message)
      requires Encode(o) == Mdp.WorkerSend(w.identity, command, payload)
      modifies socket
      ensures socket.Took(old(socket.alive), old(socket.sent), [o])
    {
      var msg := new ZMsg();
      msg.parts := payload;
      msg.PushFront(command);
      msg.PushFront(MDPW_WORKER);
      msg.Wrap(w.identity, Some([]));
      assert msg.parts == Encode(o);
      TookOne(socket.alive, socket.sent, o);
      socket.Transmit(msg);
    }

    // -----------------------------------------------------------------------------------
    // Tables

    method ServiceRequire(name: Frame) returns (s: Service)
      requires Shape() && Owned() && name != []
      modifies this`services, this`st, this`repr
      ensures Shape() && Owned() && st == Spec.ServiceRequire(old(st), name)
      ensures old(repr) <= repr && fresh(repr - old(repr))
      ensures s.name == name
      ensures name in old(services) ==> s == old(services)[name]
      ensures services == old(services)[name := s]
      ensures name !in old(services) ==> fresh(s)
    {
      if name in services {
        s := services[name];
      } else {
        s := new Service(name);
        NewService(workers, services, st.workers, s);
        services := services[name := s];
        repr := repr + {s};
        st := Spec.ServiceRequire(st, name);
      }
    }

    method WorkerRequire(identity: Frame) returns (w: Worker)
      requires Shape() && Owned() && identity != []
      modifies this`workers, this`st, this`repr
      ensures Shape() && Owned() && st == Spec.WorkerRequire(old(st), identity)
      ensures old(repr) <= repr && fresh(repr - old(repr))
      ensures w.identity == identity
      ensures identity in old(workers) ==> w == old(workers)[identity]
      ensures workers == old(workers)[identity := w]
      ensures identity !in old(workers) ==> fresh(w)
    {
      if identity in workers {
        w := workers[identity];
      } else {
        w := new Worker(identity);
        NewWorker(services, workers, st.services, w);
        workers := workers[identity := w];
        repr := repr + {w};
        st := Spec.WorkerRequire(st, identity);
      }
    }

    // Takes the worker out of its service's list and count.
    method Detach(w: Worker, ghost b1: Spec.State)
      requires ServicesOk(services, workers, st.services) && WorkersOk(workers, services, st.workers)
      requires IsLive(workers, w) && TablesWithout(st, b1, w.identity) && Owned()
      modifies repr
      ensures ServicesOk(services, workers, b1.services) && Unlisted(services, w)
      ensures WorkersOk(workers, services, st.workers)
    {
      assert WorkerOk(w, services, st.workers[w.identity]);
      if w.service != null {
        LeaveService(w.service, w, b1);
      }
    }

    method LeaveService(s: Service, w: Worker, ghost b1: Spec.State)
      requires ServicesOk(services, workers, st.services) && s.name in services && services[s.name] == s
      requires IsLive(workers, w) && TablesWithout(st, b1, w.identity) && st.workers[w.identity].service == Some(s.name)
      modifies s
      ensures ServicesOk(services, workers, b1.services) && Unlisted(services, w)
    {
      assert ServiceOk(s, workers, st.services[s.name]);
      DroppedList(workers, s.waiting, st.services[s.name].waiting, w);
      s.Erase(w);
      s.workers := s.workers - 1;
      assert ServiceOk(s, workers, b1.services[s.name]);
    }

    method WorkerDelete(w: Worker, disconnect: bool)
      requires Valid() && IsLive(workers, w)
      modifies this`waiting, this`workers, this`st, repr, socket
      ensures Valid() && st == Spec.Delete(old(st), w.identity)
      ensures workers == old(workers) - {w.identity} && waiting == old(waiting) - {w}
      ensures socket.Took(old(socket.alive), old(socket.sent), if disconnect then [Disconnect(w.identity)] else [])
    {
      Dismiss(w, disconnect);
      EraseEverywhere(w);
    }

    method EraseEverywhere(w: Worker)
      requires Valid() && IsLive(workers, w)
      modifies this`waiting, this`workers, this`st, repr
      ensures Valid() && st == Spec.Delete(old(st), w.identity)
      ensures workers == old(workers) - {w.identity} && waiting == old(waiting) - {w}
    {
      DeleteGivesTablesWithout(st, w.identity);
      Remove(w, Spec.Delete(st, w.identity));
    }

    method Dismiss(w: Worker, disconnect: bool)
      modifies socket
      ensures socket.Took(old(socket.alive), old(socket.sent), if disconnect then [Disconnect(w.identity)] else [])
    {
      if disconnect {
        WorkerSend(w, Disconnect(w.identity), DISCONNECT, []);
      } else {
        TookNothing(socket);
      }
    }

    method Remove(w: Worker, ghost b1: Spec.State)
      requires Shape() && Owned() && IsLive(workers, w) && TablesWithout(st, b1, w.identity)
      modifies this`waiting, this`workers, this`st, repr
      ensures Shape() && Owned() && st == b1
      ensures workers == old(workers) - {w.identity} && waiting == old(waiting) - {w}
    {
      Detach(w, b1);
      Forget(w, b1);
    }

    // m_waiting.erase and m_workers.erase.
    method Forget(w: Worker, ghost b1: Spec.State)
      requires ServicesOk(services, workers, b1.services) && Unlisted(services, w)
      requires WorkersOk(workers, services, st.workers) && WaitingOk(waiting, workers, st.waiting)
      requires IsLive(workers, w) && Owned()
      requires b1.workers == st.workers - {w.identity} && b1.waiting == st.waiting - {w.identity}
      modifies this`waiting, this`workers, this`st
      ensures Shape() && Owned() && st == b1
      ensures workers == old(workers) - {w.identity} && waiting == old(waiting) - {w}
    {
      ForgetInServices(services, workers, b1.services, w);
      ForgetInWaiting(waiting, workers, st.waiting, w);
      ForgetInWorkers(workers, services, st.workers, w.identity);
      ForgetInRepr(workers, repr, w.identity);
      waiting := waiting - {w};
      workers := workers - {w.identity};
      st := b1;
    }

    // The expired idle workers, in the order of the pointers, which is anybody's guess.
    method Overdue(now: int) returns (toCull: seq<Worker>)
      ensures forall w :: w in toCull <==> w in waiting && w.expiry <= now
      ensures forall i, j :: 0 <= i < j < |toCull| ==> toCull[i] != toCull[j]
    {
      toCull := [];
      var unseen := waiting;
      while unseen != {}
        invariant unseen <= waiting
        invariant forall w :: w in toCull <==> w in waiting - unseen && w.expiry <= now
        invariant forall i, j :: 0 <= i < j < |toCull| ==> toCull[i] != toCull[j]
      {
        var w :| w in unseen;
        unseen := unseen - {w};
        if w.expiry <= now {
          toCull := toCull + [w];
        }
      }
    }

    method PurgeWorkers(now: int)
      requires Valid()
      modifies this`waiting, this`workers, this`st, repr, socket
      ensures Valid() && st == Spec.Purge(old(st), now)
      ensures socket.Took(old(socket.alive), old(socket.sent), [])
    {
      var toCull := Overdue(now);
      OverdueIsExpired(toCull, now);
      Cull(toCull);
    }

    method Cull(toCull: seq<Worker>)
      requires Valid()
      requires forall j :: 0 <= j < |toCull| ==> IsLive(workers, toCull[j])
      requires forall i, j :: 0 <= i < j < |toCull| ==> toCull[i] != toCull[j]
      modifies this`waiting, this`workers, this`st, repr, socket
      ensures Valid() && st == Spec.DeleteAll(old(st), Identities(toCull, |toCull|))
      ensures socket.Took(old(socket.alive), old(socket.sent), [])
    {
      DeleteNobody(st, {});
      var i := 0;
      while i < |toCull|
        invariant 0 <= i <= |toCull|
        invariant Valid() && st == Spec.DeleteAll(old(st), Identities(toCull, i))
        invariant AllLive(workers, toCull, i)
        invariant socket.Took(old(socket.alive), old(socket.sent), [])
      {
        CullNext(toCull, i, old(st), old(socket.alive), old(socket.sent));
        i := i + 1;
      }
    }

    method CullNext(toCull: seq<Worker>, i: nat, ghost b: Spec.State, ghost alive0: bool, ghost sent0: seq<Message>)
      requires i < |toCull| && AllLive(workers, toCull, i) && socket.Took(alive0, sent0, [])
      requires Valid() && st == Spec.DeleteAll(b, Identities(toCull, i))
      requires forall j, k :: 0 <= j < k < |toCull| ==> toCull[j] != toCull[k]
      modifies this`waiting, this`workers, this`st, repr, socket
      ensures Valid() && st == Spec.DeleteAll(b, Identities(toCull, i + 1))
      ensures AllLive(workers, toCull, i + 1)
      ensures socket.Took(alive0, sent0, [])
    {
      TookNothingYet(socket, alive0, sent0);
      OthersStayLive(workers, toCull, i);
      DeleteTwice(b, Identities(toCull, i), {toCull[i].identity});
      WorkerDelete(toCull[i], false);
    }

    lemma OverdueOne(w: Worker, now: int)
      requires Valid() && w in waiting
      ensures w.identity in Spec.Expired(st, now) <==> w.expiry <= now
    {
      assert WorkerOk(w, services, st.workers[w.identity]);
    }

    lemma OverdueIsExpired(toCull: seq<Worker>, now: int)
      requires Valid()
      requires forall w :: w in toCull <==> w in waiting && w.expiry <= now
      ensures Identities(toCull, |toCull|) == Spec.Expired(st, now)
      ensures forall j :: 0 <= j < |toCull| ==> IsLive(workers, toCull[j])
    {
      var gone := Identities(toCull, |toCull|);
      IdentitiesAre(toCull, |toCull|);
      forall j | 0 <= j < |toCull| ensures IsLive(workers, toCull[j]) && toCull[j].identity in Spec.Expired(st, now) {
        assert toCull[j] in toCull;
        OverdueOne(toCull[j], now);
      }
      forall id | id in Spec.Expired(st, now) ensures id in gone {
        ExpiredIsOverdue(id, now);
        assert workers[id] in toCull;
      }
    }

    lemma ExpiredIsOverdue(id: Frame, now: int)
      requires Valid() && id in Spec.Expired(st, now)
      ensures id in workers && workers[id].identity == id && workers[id] in waiting && workers[id].expiry <= now
    {
      OverdueOne(workers[id], now);
    }

    // -----------------------------------------------------------------------------------
    // Dispatch

    // The scan for the worker with the latest expiry; among equals the first one stays.
    method MostRecent(q: seq<Worker>, ghost ids: seq<Frame>) returns (k: nat)
      requires WorkersOk(workers, services, st.workers) && SameList(workers, q, ids) && q != []
      ensures k < |q| && k == Spec.Best(st, ids, |ids|)
    {
      k := 0;
      var next := 1;
      while next < |q|
        invariant 1 <= next <= |q| && k < next
        invariant k == Spec.Best(st, ids, next)
      {
        assert forall j :: 0 <= j < |q| ==> WorkerOk(q[j], services, st.workers[ids[j]]);
        if q[next].expiry > q[k].expiry {
          k := next;
        }
        next := next + 1;
      }
    }

    // Takes the oldest request and entry k of the list off one service.
    method TakeOff(s: Service, k: nat, ghost r1: Spec.ServiceRec)
      requires ServicesOk(services, workers, st.services) && s.name in services && services[s.name] == s
      requires var r := st.services[s.name];
               k < |r.waiting| && r.requests != [] &&
               r1 == Spec.ServiceRec(r.requests[1..], r.waiting[..k] + r.waiting[k + 1..], r.workers)
      modifies s
      ensures ServicesOk(services, workers, st.services[s.name := r1])
    {
      assert ServiceOk(s, workers, st.services[s.name]);
      SameListWithout(workers, s.waiting, st.services[s.name].waiting, k);
      s.requests := s.requests[1..];
      s.waiting := s.waiting[..k] + s.waiting[k + 1..];
    }

    // m_waiting.erase for a worker that stays registered.
    method NotIdle(w: Worker, ghost b1: Spec.State)
      requires ServicesOk(services, workers, b1.services) && WorkersOk(workers, services, b1.workers)
      requires WaitingOk(waiting, workers, st.waiting) && IsLive(workers, w)
      requires b1.waiting == st.waiting - {w.identity}
      modifies this`waiting, this`st
      ensures Shape() && st == b1
    {
      SentFromWaiting(waiting, workers, st.waiting, w);
      waiting := waiting - {w};
      st := b1;
    }

    // The chosen worker and the request it was sent leave the tables.
    method Settle(s: Service, k: nat, w: Worker)
      requires Shape() && s.name in services && services[s.name] == s
      requires Spec.CanSend(st, s.name) && k < |s.waiting| && w == s.waiting[k]
      requires k == Spec.Best(st, st.services[s.name].waiting, |st.services[s.name].waiting|)
      modifies this`waiting, this`st, s
      ensures Shape() && st == Spec.SendOne(old(st), s.name).0
    {
      assert ServiceOk(s, workers, st.services[s.name]);
      ghost var b1 := Spec.SendOne(st, s.name).0;
      TakeOff(s, k, b1.services[s.name]);
      NotIdle(w, b1);
    }

    // The body of the dispatch loop.
    method SendNext(s: Service)
      requires Shape() && s.name in services && services[s.name] == s
      requires s.waiting != [] && s.requests != []
      modifies this`waiting, this`st, s, socket
      ensures Shape() && Spec.CanSend(old(st), s.name) && st == Spec.SendOne(old(st), s.name).0
      ensures socket.Took(old(socket.alive), old(socket.sent), [Spec.SendOne(old(st), s.name).1])
    {
      assert ServiceOk(s, workers, st.services[s.name]);
      var k := MostRecent(s.waiting, st.services[s.name].waiting);
      var w, msg := s.waiting[k], s.requests[0];
      WorkerSend(w, Spec.SendOne(st, s.name).1, REQUEST, msg);
      Settle(s, k, w);
    }

    method Enqueue(s: Service, msg: Option<Message>)
      requires Shape() && s.name in services && services[s.name] == s
      modifies this`st, s`requests
      ensures Shape() && st == Spec.Enqueue(old(st), s.name, msg)
    {
      assert ServiceOk(s, workers, st.services[s.name]);
      if msg.Some? {
        s.requests := s.requests + [msg.value];
      }
      st := Spec.Enqueue(st, s.name, msg);
    }

    // The loop of service_dispatch.
    method DispatchLoop(s: Service)
      requires Shape() && s.name in services && services[s.name] == s
      modifies this`waiting, this`st, s, socket
      ensures Shape() && st == Spec.DispatchLoop(old(st), s.name).0
      ensures socket.Took(old(socket.alive), old(socket.sent), Spec.DispatchLoop(old(st), s.name).1)
    {
      ghost var b, outs := st, [];
      ReachedAtStart(b, s.name);
      TookNothing(socket);
      while s.waiting != [] && s.requests != []
        invariant Shape() && Reached(b, s.name, st, outs)
        invariant socket.Took(old(socket.alive), old(socket.sent), outs)
        decreases |s.requests|
      {
        outs := DispatchRound(s, b, outs, old(socket.alive), old(socket.sent));
      }
      assert ServiceOk(s, workers, st.services[s.name]);
      ReachedAtEnd(b, s.name, st, outs);
    }

    method DispatchRound(s: Service, ghost b: Spec.State, ghost outs: seq<Out>, ghost alive0: bool, ghost sent0: seq<Message>)
      returns (ghost outs1: seq<Out>)
      requires Shape() && s.name in services && services[s.name] == s
      requires s.waiting != [] && s.requests != []
      requires Reached(b, s.name, st, outs) && socket.Took(alive0, sent0, outs)
      modifies this`waiting, this`st, s, socket
      ensures Shape() && |s.requests| < |old(s.requests)|
      ensures Reached(b, s.name, st, outs1) && socket.Took(alive0, sent0, outs1)
    {
      ghost var b0, o := st, Spec.SendOne(st, s.name).1;
      ghost var alive1, sent1 := socket.alive, socket.sent;
      assert ServiceOk(s, workers, st.services[s.name]);
      SendNext(s);
      assert ServiceOk(s, workers, st.services[s.name]);
      outs1 := outs + [o];
      ReachedNext(b, s.name, b0, outs);
      TookMore(alive0, sent0, socket, alive1, sent1, outs, [o]);
    }

    method ServiceDispatch(s: Service, msg: Option<Message>, clock: int)
      requires Valid() && s.name in services && services[s.name] == s
      modifies this`waiting, this`workers, this`st, repr, socket
      ensures Valid() && st == Spec.Dispatch(old(st), s.name, msg, clock).0
      ensures socket.Took(old(socket.alive), old(socket.sent), Spec.Dispatch(old(st), s.name, msg, clock).1)
    {
      EnqueueKeepsInv(st, s.name, msg);
      Enqueue(s, msg);
      PurgeAndDispatch(s, clock);
    }

    method DispatchWaiting(s: Service)
      requires Valid() && s.name in services && services[s.name] == s
      modifies this`waiting, this`st, s, socket
      ensures Valid() && st == Spec.DispatchLoop(old(st), s.name).0
      ensures socket.Took(old(socket.alive), old(socket.sent), Spec.DispatchLoop(old(st), s.name).1)
    {
      DispatchLoopKeepsInv(st, s.name);
      DispatchLoop(s);
    }

    method PurgeAndDispatch(s: Service, clock: int)
      requires Valid() && s.name in services && services[s.name] == s
      modifies this`waiting, this`workers, this`st, repr, socket
      ensures Valid() && st == Spec.DispatchLoop(Spec.Purge(old(st), clock), s.name).0
      ensures socket.Took(old(socket.alive), old(socket.sent), Spec.DispatchLoop(Spec.Purge(old(st), clock), s.name).1)
    {
      PurgeWorkers(clock);
      TookNothingYet(socket, old(socket.alive), old(socket.sent));
      DispatchWaiting(s);
    }

    // -----------------------------------------------------------------------------------
    // Messages from workers

    method QueueWorker(s: Service, w: Worker)
      requires ServicesOk(services, workers, st.services) && s.name in services && services[s.name] == s
      requires IsLive(workers, w)
      modifies s`waiting
      ensures var r := st.services[s.name];
              ServicesOk(services, workers, st.services[s.name := r.(waiting := r.waiting + [w.identity])])
    {
      assert ServiceOk(s, workers, st.services[s.name]);
      s.waiting := s.waiting + [w];
    }

    method Refresh(w: Worker, expiry: int)
      requires WorkersOk(workers, services, st.workers) && IsLive(workers, w)
      modifies w`expiry
      ensures WorkersOk(workers, services, st.workers[w.identity := st.workers[w.identity].(expiry := expiry)])
    {
      assert WorkerOk(w, services, st.workers[w.identity]);
      w.expiry := expiry;
    }

    // The objects show the tables of b1 by now.
    ghost method Commit(b1: Spec.State)
      requires ServicesOk(services, workers, b1.services) && WorkersOk(workers, services, b1.workers)
      requires WaitingOk(waiting, workers, b1.waiting) && Owned()
      modifies this`st
      ensures Shape() && Owned() && st == b1
    {
      st := b1;
    }

    // m_waiting.insert.
    method AddIdle(w: Worker, ghost b1: Spec.State)
      requires ServicesOk(services, workers, b1.services) && WorkersOk(workers, services, b1.workers)
      requires WaitingOk(waiting, workers, st.waiting) && IsLive(workers, w) && Owned()
      requires b1.waiting == st.waiting + {w.identity}
      modifies this`waiting, this`st
      ensures Shape() && Owned() && st == b1
    {
      waiting := waiting + {w};
      st := b1;
    }

    method MarkIdle(w: Worker, s: Service, now: int)
      requires Shape() && Owned() && IsLive(workers, w) && s.name in services && services[s.name] == s
      requires st.workers[w.identity].service == Some(s.name)
      modifies this`waiting, this`st, w`expiry, s`waiting
      ensures Shape() && Owned() && st == Spec.Idle(old(st), w.identity, now)
    {
      ghost var b1 := Spec.Idle(st, w.identity, now);
      QueueWorker(s, w);
      Refresh(w, now + HEARTBEAT_EXPIRY);
      AddIdle(w, b1);
    }

    method WorkerWaiting(w: Worker, now: int, clock: int)
      requires Valid() && IsLive(workers, w) && w.service != null
      modifies this`waiting, this`workers, this`st, repr, socket
      ensures Valid() && Spec.WorkerWaiting(old(st), w.identity, now, clock).Done?
      ensures st == Spec.WorkerWaiting(old(st), w.identity, now, clock).state
      ensures socket.Took(old(socket.alive), old(socket.sent), Spec.WorkerWaiting(old(st), w.identity, now, clock).outs)
    {
      assert WorkerOk(w, services, st.workers[w.identity]);
      var s := w.service;
      BecomeIdle(w, s, now);
      ServiceDispatch(s, None, clock);
      WaitingIsDispatch(old(st), w.identity, now, clock, s.name);
    }

    method BecomeIdle(w: Worker, s: Service, now: int)
      requires Valid() && IsLive(workers, w) && s.name in services && services[s.name] == s
      requires st.workers[w.identity].service == Some(s.name)
      modifies this`waiting, this`st, w`expiry, s`waiting
      ensures Valid() && st == Spec.Idle(old(st), w.identity, now)
    {
      IdleKeepsInv(st, w.identity, now);
      MarkIdle(w, s, now);
    }

    // The handler has done what f says: it is through, or the process died of f's cause.
    ghost predicate Ends(f: Spec.Fate, crash: Option<Spec.Cause>, alive0: bool, sent0: seq<Message>)
      reads this, services.Values, workers.Values, socket
    {
      match f
      case Crash(cause) => crash == Some(cause)
      case Done(b, outs) => crash == None && Valid() && st == b && socket.Took(alive0, sent0, outs)
    }

    method Refuse(w: Worker, ghost b: Spec.State, disconnect: bool)
      requires Valid() && IsLive(workers, w) && st == Spec.WorkerRequire(b, w.identity)
      modifies this`waiting, this`workers, this`st, repr, socket
      ensures Ends(Spec.Done(Spec.Delete(Spec.WorkerRequire(b, w.identity), w.identity),
                             if disconnect then [Disconnect(w.identity)] else []),
                   None, old(socket.alive), old(socket.sent))
    {
      WorkerDelete(w, disconnect);
    }

    method AttachTo(w: Worker, s: Service)
      requires Shape() && Owned() && IsLive(workers, w) && s.name in services && services[s.name] == s
      modifies this`st, w`service, s`workers
      ensures Shape() && Owned() && w.service == s && st == Spec.Attach(old(st), w.identity, s.name)
    {
      ghost var b1 := Spec.Attach(st, w.identity, s.name);
      CountWorker(s);
      NameService(w, s, b1);
    }

    method CountWorker(s: Service)
      requires Shape() && Owned() && s.name in services && services[s.name] == s
      modifies s`workers
      ensures var r := st.services[s.name];
              ServicesOk(services, workers, st.services[s.name := r.(workers := r.workers + 1)])
      ensures WorkersOk(workers, services, st.workers) && Owned()
    {
      assert ServiceOk(s, workers, st.services[s.name]);
      s.workers := s.workers + 1;
    }

    method NameService(w: Worker, s: Service, ghost b1: Spec.State)
      requires ServicesOk(services, workers, b1.services) && WorkersOk(workers, services, st.workers)
      requires WaitingOk(waiting, workers, b1.waiting) && Owned()
      requires IsLive(workers, w) && s.name in services && services[s.name] == s
      requires b1.workers == st.workers[w.identity := st.workers[w.identity].(service := Some(s.name))]
      modifies this`st, w`service
      ensures Shape() && Owned() && w.service == s && st == b1
    {
      assert WorkerOk(w, services, st.workers[w.identity]);
      w.service := s;
      Commit(b1);
    }

    // READY from a worker that worker_require has just created.
    method RegisterWorker(w: Worker, name: Frame, now: int, clock: int)
      requires Valid() && IsLive(workers, w) && name != []
      requires st.workers[w.identity].service == None
      modifies this, repr, socket
      ensures old(repr) <= repr && fresh(repr - old(repr))
      ensures var n := name;
              Ends(Spec.WorkerWaiting(Spec.Attach(Spec.ServiceRequire(old(st), n), w.identity, n), w.identity, now, clock),
                   None, old(socket.alive), old(socket.sent))
    {
      JoinService(w, name);
      WorkerWaiting(w, now, clock);
    }

    method JoinService(w: Worker, name: Frame)
      requires Valid() && IsLive(workers, w) && name != []
      requires st.workers[w.identity].service == None
      modifies this`services, this`st, this`repr, repr
      ensures Valid() && w.service != null && st == Spec.Attach(Spec.ServiceRequire(old(st), name), w.identity, name)
      ensures old(repr) <= repr && fresh(repr - old(repr))
    {
      ServiceRequireKeepsInv(st, name);
      var s := ServiceRequire(name);
      Attach(w, s);
    }

    method Attach(w: Worker, s: Service)
      requires Valid() && IsLive(workers, w) && s.name in services && services[s.name] == s
      requires st.workers[w.identity].service == None
      modifies this`st, w`service, s`workers
      ensures Valid() && w.service == s && st == Spec.Attach(old(st), w.identity, s.name)
    {
      AttachKeepsInv(st, w.identity, s.name);
      AttachTo(w, s);
    }

    method OnReady(w: Worker, ready: bool, msg: ZMsg, now: int, clock: int, ghost b: Spec.State)
      returns (crash: Option<Spec.Cause>)
      requires Valid() && IsLive(workers, w)
      requires st == Spec.WorkerRequire(b, w.identity) && ready == (w.identity in b.workers)
      modifies this, repr, socket, msg
      ensures old(repr) <= repr && fresh(repr - old(repr))
      ensures Ends(Spec.OnReady(b, w.identity, old(msg.parts), now, clock), crash, old(socket.alive), old(socket.sent))
    {
      crash := None;
      if ready || Spec.Reserved(w.identity) {
        Refuse(w, b, true);
      } else if |msg.parts| == 0 {
        crash := Some(Spec.NullString);
      } else {
        var part := msg.PopFront();
        crash := OnService(w, CStr(part), now, clock);
      }
    }

    method OnService(w: Worker, name: Frame, now: int, clock: int) returns (crash: Option<Spec.Cause>)
      requires Valid() && IsLive(workers, w) && st.workers[w.identity].service == None
      modifies this, repr, socket
      ensures old(repr) <= repr && fresh(repr - old(repr))
      ensures name == [] ==> crash == Some(Spec.AssertFailed)
      ensures name != [] ==>
                Ends(Spec.WorkerWaiting(Spec.Attach(Spec.ServiceRequire(old(st), name), w.identity, name), w.identity, now, clock),
                     crash, old(socket.alive), old(socket.sent))
    {
      crash := None;
      if name == [] {
        crash := Some(Spec.AssertFailed);
      } else {
        RegisterWorker(w, name, now, clock);
      }
    }

    // A reply rewrapped for its client: protocol header, service name, return address.
    method SendAnswer(client: Frame, service: Frame, msg: ZMsg)
      modifies socket, msg
      ensures socket.Took(old(socket.alive), old(socket.sent), [Answer(client, service, old(msg.parts))])
    {
      ghost var o := Answer(client, service, msg.parts);
      msg.Wrap(MDPC_CLIENT, Some(service));
      msg.Wrap(client, Some([]));
      assert msg.parts == Encode(o);
      TookOne(socket.alive, socket.sent, o);
      socket.Transmit(msg);
    }

    method SendReply(client: Frame, service: Frame, msg: ZMsg)
      requires Valid()
      modifies socket, msg
      ensures Valid()
      ensures socket.Took(old(socket.alive), old(socket.sent), [Answer(client, service, old(msg.parts))])
    {
      SendAnswer(client, service, msg);
    }

    method AnswerAndWait(w: Worker, client: Frame, msg: ZMsg, now: int, clock: int)
      requires Valid() && IsLive(workers, w) && w.service != null
      modifies this`waiting, this`workers, this`st, repr, socket, msg
      ensures Ends(Spec.Prepend(Answer(client, old(w.service.name), old(msg.parts)),
                                Spec.WorkerWaiting(old(st), w.identity, now, clock)),
                   None, old(socket.alive), old(socket.sent))
    {
      ghost var o := Answer(client, w.service.name, msg.parts);
      SendReply(client, w.service.name, msg);
      ghost var alive1, sent1, f := socket.alive, socket.sent, Spec.WorkerWaiting(st, w.identity, now, clock);
      WorkerWaiting(w, now, clock);
      TookMore(old(socket.alive), old(socket.sent), socket, alive1, sent1, [o], f.outs);
    }

    method OnReply(w: Worker, ready: bool, msg: ZMsg, now: int, clock: int, ghost b: Spec.State)
      returns (crash: Option<Spec.Cause>)
      requires Valid() && IsLive(workers, w)
      requires st == Spec.WorkerRequire(b, w.identity) && ready == (w.identity in b.workers)
      modifies this`waiting, this`workers, this`st, repr, socket, msg
      ensures Ends(Spec.OnReply(b, w.identity, old(msg.parts), now, clock), crash, old(socket.alive), old(socket.sent))
    {
      crash := None;
      assert WorkerOk(w, services, st.workers[w.identity]);
      if !ready {
        Refuse(w, b, true);
      } else if |msg.parts| == 0 {
        crash := Some(Spec.NullString);
      } else {
        crash := ForwardReply(w, msg, now, clock);
      }
    }

    // The reply of a registered worker, whose service may still be null.
    method ForwardReply(w: Worker, msg: ZMsg, now: int, clock: int) returns (crash: Option<Spec.Cause>)
      requires Valid() && IsLive(workers, w) && msg.parts != []
      modifies this`waiting, this`workers, this`st, repr, socket, msg
      ensures Ends(Spec.OnReply(old(st), w.identity, old(msg.parts), now, clock), crash, old(socket.alive), old(socket.sent))
    {
      crash := None;
      assert WorkerOk(w, services, st.workers[w.identity]);
      var client := msg.Unwrap();
      if w.service == null {
        crash := Some(Spec.NullService);
      } else {
        AnswerAndWait(w, client, msg, now, clock);
      }
    }

    method StillAlive(w: Worker, now: int)
      requires Valid() && IsLive(workers, w)
      modifies this`st, w`expiry
      ensures Valid() && Spec.OnHeartbeat(old(st), w.identity, now) == Spec.Done(st, [])
    {
      ghost var b1 := Spec.OnHeartbeat(st, w.identity, now).state;
      RefreshKeepsInv(st, w.identity, now + HEARTBEAT_EXPIRY);
      Refresh(w, now + HEARTBEAT_EXPIRY);
      Commit(b1);
    }

    method OnHeartbeat(w: Worker, ready: bool, now: int, ghost b: Spec.State)
      requires Valid() && IsLive(workers, w)
      requires st == Spec.WorkerRequire(b, w.identity) && ready == (w.identity in b.workers)
      modifies this`waiting, this`workers, this`st, repr, socket
      ensures Ends(Spec.OnHeartbeat(b, w.identity, now), None, old(socket.alive), old(socket.sent))
    {
      if ready {
        StillAlive(w, now);
        TookNothing(socket);
      } else {
        Refuse(w, b, true);
      }
    }

    method WorkerProcess(sender: Frame, msg: ZMsg, now: int, clock: int) returns (crash: Option<Spec.Cause>)
      requires Valid()
      modifies this, repr, socket, msg
      ensures old(repr) <= repr && fresh(repr - old(repr))
      ensures Ends(Spec.WorkerProcess(old(st), sender, old(msg.parts), now, clock), crash, old(socket.alive), old(socket.sent))
    {
      crash := None;
      if |msg.parts| == 0 || sender == [] {
        crash := Some(Spec.AssertFailed);
      } else {
        var part := msg.PopFront();
        var command := CStr(part);
        var ready := sender in workers;
        ghost var b := st;
        WorkerRequireKeepsInv(st, sender);
        var w := WorkerRequire(sender);
        crash := Obey(w, ready, command, msg, now, clock, b);
      }
    }

    method Obey(w: Worker, ready: bool, command: Frame, msg: ZMsg, now: int, clock: int, ghost b: Spec.State)
      returns (crash: Option<Spec.Cause>)
      requires Valid() && IsLive(workers, w)
      requires st == Spec.WorkerRequire(b, w.identity) && ready == (w.identity in b.workers)
      modifies this, repr, socket, msg
      ensures old(repr) <= repr && fresh(repr - old(repr))
      ensures Ends(Spec.Command(b, w.identity, command, old(msg.parts), now, clock), crash, old(socket.alive), old(socket.sent))
    {
      crash := None;
      if command == READY {
        crash := OnReady(w, ready, msg, now, clock, b);
      } else if command == REPLY {
        crash := OnReply(w, ready, msg, now, clock, b);
      } else if command == HEARTBEAT {
        OnHeartbeat(w, ready, now, b);
      } else if command == DISCONNECT {
        Refuse(w, b, false);
      } else {
        TookNothing(socket);
      }
    }

    // -----------------------------------------------------------------------------------
    // Messages from clients

    method ServiceInternal(name: Frame, msg: ZMsg) returns (crash: Option<Spec.Cause>)
      requires Valid() && msg.parts != []
      modifies socket, msg
      ensures Ends(Spec.Internal(st, name, old(msg.parts)), crash, old(socket.alive), old(socket.sent))
    {
      crash := None;
      var code := CODE_501;
      if name == MMI_SERVICE {
        var about := Body(msg.parts);
        if about !in services {
          return Some(Spec.NoSuchService);
        }
        assert ServiceOk(services[about], workers, st.services[about]);
        code := if services[about].workers != 0 then CODE_200 else CODE_404;
      }
      msg.BodySet(code);
      var client := msg.Unwrap();
      SendAnswer(client, name, msg);
    }

    method ClientProcess(sender: Frame, msg: ZMsg, clock: int) returns (crash: Option<Spec.Cause>)
      requires Valid()
      modifies this, repr, socket, msg
      ensures old(repr) <= repr && fresh(repr - old(repr))
      ensures Ends(Spec.ClientProcess(old(st), sender, old(msg.parts), clock), crash, old(socket.alive), old(socket.sent))
    {
      crash := None;
      if |msg.parts| < 2 {
        return Some(Spec.AssertFailed);
      }
      var part := msg.PopFront();
      var name := CStr(part);
      if name == [] {
        return Some(Spec.AssertFailed);
      }
      msg.Wrap(sender, Some([]));
      crash := Serve(name, msg, clock);
    }

    method Serve(name: Frame, msg: ZMsg, clock: int) returns (crash: Option<Spec.Cause>)
      requires Valid() && name != [] && msg.parts != []
      modifies this, repr, socket, msg
      ensures old(repr) <= repr && fresh(repr - old(repr))
      ensures Ends(Spec.Serve(old(st), name, old(msg.parts), clock), crash, old(socket.alive), old(socket.sent))
    {
      crash := None;
      ServiceRequireKeepsInv(st, name);
      var s := ServiceRequire(name);
      if Spec.Reserved(name) {
        crash := ServiceInternal(name, msg);
      } else {
        ServiceDispatch(s, Some(msg.parts), clock);
      }
    }

    // -----------------------------------------------------------------------------------
    // The loop

    // A message off the socket: sender, empty frame, protocol header, then the rest.
    method Route(msg: ZMsg, now: int, clock: int) returns (crash: Option<Spec.Cause>)
      requires Valid()
      modifies this, repr, socket, msg
      ensures old(repr) <= repr && fresh(repr - old(repr))
      ensures Ends(Spec.OnMessage(old(st), old(msg.parts), now, clock), crash, old(socket.alive), old(socket.sent))
    {
      crash := None;
      if |msg.parts| < 3 {
        return Some(Spec.NullString);
      }
      ghost var parts := msg.parts;
      var sender := msg.PopFront();
      var empty := msg.PopFront();
      var header := msg.PopFront();
      assert msg.parts == parts[3..];
      if CStr(header) == MDPC_CLIENT {
        crash := ClientProcess(CStr(sender), msg, clock);
      } else if CStr(header) == MDPW_WORKER {
        crash := WorkerProcess(CStr(sender), msg, now, clock);
      } else {
        TookNothing(socket);
      }
    }

    method Receive(frames: Message, now: int, clock: int) returns (crash: Option<Spec.Cause>)
      requires Valid() && socket.alive
      modifies this, repr, socket
      ensures old(repr) <= repr && fresh(repr - old(repr))
      ensures Ends(Spec.Step(old(st), Spec.FromPeer(WireIn(frames), now, clock)), crash, true, old(socket.sent))
      ensures crash == None ==> socket.alive
    {
      var msg := new ZMsg();
      msg.Recv(frames);
      crash := Route(msg, now, clock);
      if crash == None && !socket.alive {
        crash := Some(Spec.AssertFailed);
      }
    }

    method SendHeartbeat(w: Worker, ghost order: seq<Frame>, ghost alive0: bool, ghost sent0: seq<Message>)
      requires socket.Took(alive0, sent0, Spec.Heartbeats(order))
      modifies socket
      ensures socket.Took(alive0, sent0, Spec.Heartbeats(order + [w.identity]))
    {
      ghost var alive1, sent1 := socket.alive, socket.sent;
      WorkerSend(w, Heartbeat(w.identity), HEARTBEAT, []);
      TookMore(alive0, sent0, socket, alive1, sent1, Spec.Heartbeats(order), [Heartbeat(w.identity)]);
      assert Spec.Heartbeats(order + [w.identity]) == Spec.Heartbeats(order) + [Heartbeat(w.identity)];
    }

    // Heartbeats to the idle workers, visited in the order of the pointers.
    method SendHeartbeats() returns (ghost order: seq<Frame>)
      requires Valid()
      modifies socket
      ensures Spec.Enumerates(order, st.waiting)
      ensures socket.Took(old(socket.alive), old(socket.sent), Spec.Heartbeats(order))
      ensures Valid()
    {
      order := [];
      TookNothing(socket);
      var unseen := waiting;
      while unseen != {}
        invariant unseen <= waiting
        invariant Visited(order, unseen)
        invariant socket.Took(old(socket.alive), old(socket.sent), Spec.Heartbeats(order))
      {
        var w :| w in unseen;
        VisitNext(order, unseen, w);
        SendHeartbeat(w, order, old(socket.alive), old(socket.sent));
        order := order + [w.identity];
        unseen := unseen - {w};
      }
    }

    ghost predicate Visited(order: seq<Frame>, unseen: set<Worker>)
      reads this`workers, this`waiting, this`st
    {
      && (forall id :: id in order <==> id in st.waiting && id in workers && workers[id] !in unseen)
      && (forall i, j :: 0 <= i < j < |order| ==> order[i] != order[j])
    }

    lemma VisitNext(order: seq<Frame>, unseen: set<Worker>, w: Worker)
      requires Valid() && unseen <= waiting && w in unseen && Visited(order, unseen)
      ensures Visited(order + [w.identity], unseen - {w})
    {
      assert IsLive(workers, w);
      forall id | id in st.waiting && id in workers && id != w.identity ensures workers[id] != w {
        assert workers[id].identity == id;
      }
    }

    method HeartbeatRound(clock: int) returns (ghost order: seq<Frame>)
      requires Valid() && socket.alive
      modifies this`waiting, this`workers, this`st, repr, socket
      ensures Spec.Enabled(old(st), Spec.Beat(clock, order))
      ensures Ends(Spec.Step(old(st), Spec.Beat(clock, order)), None, true, old(socket.sent)) && socket.alive
    {
      PurgeWorkers(clock);
      TookNothingYet(socket, old(socket.alive), old(socket.sent));
      order := SendHeartbeats();
      BeatStep(old(st), clock, order);
    }

    // What happens when it is time for heartbeats.
    method Pulse(r: Round, t: Timer) returns (ghost order: seq<Frame>)
      requires Valid() && socket.alive
      modifies this`waiting, this`workers, this`st, repr, socket
      ensures Ends(Run(old(st), Pulses(t, r, order)), None, true, old(socket.sent)) && socket.alive
      ensures RunEnabled(old(st), Pulses(t, r, order))
    {
      order := [];
      if r.seen >= t.heartbeatAt {
        order := HeartbeatRound(r.beat);
        RunOne(old(st), Spec.Beat(r.beat, order));
        OneEnabled(old(st), Spec.Beat(r.beat, order));
      } else {
        TookNothing(socket);
      }
    }

    // What happens with the message poll brought, if any.
    method Intake(r: Round) returns (crash: Option<Spec.Cause>)
      requires Valid() && socket.alive
      modifies this, repr, socket
      ensures old(repr) <= repr && fresh(repr - old(repr))
      ensures Ends(Run(old(st), Arrivals(r)), crash, true, old(socket.sent))
      ensures crash == None ==> socket.alive
    {
      crash := None;
      if r.incoming.Some? {
        crash := Receive(r.incoming.value, r.now, r.clock);
        RunOne(old(st), Spec.FromPeer(WireIn(r.incoming.value), r.now, r.clock));
      } else {
        TookNothing(socket);
      }
    }

    // A run that went through, followed by the run that led to the present state.
    lemma EndsAppended(b: Spec.State, a: seq<Spec.Input>, c: seq<Spec.Input>, crash: Option<Spec.Cause>, sent0: seq<Message>, sent1: seq<Message>)
      requires Run(b, a).Done? && Spec.AllSendable(Run(b, a).outs) && sent1 == sent0 + WireAll(Run(b, a).outs)
      requires Ends(Run(Run(b, a).state, c), crash, true, sent1)
      ensures Ends(Run(b, a + c), crash, true, sent0)
    {
      RunAppend(b, a, c);
      var f := Run(Run(b, a).state, c);
      if f.Done? {
        TookMore(true, sent0, socket, true, sent1, Run(b, a).outs, f.outs);
      }
    }

    // One turn of the loop of start_brokering.
    method Turn(r: Round, t: Timer) returns (crash: Option<Spec.Cause>, t1: Timer, ghost order: seq<Frame>)
      requires Valid() && socket.alive
      modifies this, repr, socket
      ensures old(repr) <= repr && fresh(repr - old(repr))
      ensures Ends(Run(old(st), Arrivals(r) + Pulses(t, r, order)), crash, true, old(socket.sent))
      ensures crash == None ==> socket.alive && t1 == BrokerTimer.Turn(t, r)
      ensures RunEnabled(old(st), Arrivals(r) + Pulses(t, r, order))
    {
      t1, order := t, [];
      ArrivalsEnabled(st, r);
      crash := Intake(r);
      if crash.None? {
        ghost var sent1 := socket.sent;
        order := Pulse(r, t);
        t1 := if r.seen >= t.heartbeatAt then Timer(r.after, t.heartbeatAt + HEARTBEAT_INTERVAL) else t.(now := r.seen);
        EndsAppended(old(st), Arrivals(r), Pulses(t, r, order), None, old(socket.sent), sent1);
      } else {
        RunStops(old(st), Arrivals(r), Pulses(t, r, order));
      }
      RunEnabledAppend(old(st), Arrivals(r), Pulses(t, r, order));
    }

    // start_brokering, for as many turns as the script lasts. orders records the visiting
    // order of each heartbeat round, of exactly the workers idle then; polls the timeouts
    // handed to poll.
    method StartBrokering(t0: int, script: seq<Round>)
      returns (crash: Option<Spec.Cause>, polls: seq<int>, ghost orders: seq<seq<Frame>>)
      requires Valid() && socket.alive
      modifies this, repr, socket
      ensures |polls| == |orders| <= |script| && (crash == None ==> |orders| == |script|)
      ensures Ends(Run(old(st), AllInputs(Start(t0), script, orders, |orders|)), crash, true, old(socket.sent))
      ensures RunEnabled(old(st), AllInputs(Start(t0), script, orders, |orders|))
      ensures PollsOnTime(t0, script, polls)
    {
      crash, polls, orders := None, [], [];
      var t := Start(t0);
      TookNothing(socket);
      while |polls| < |script| && crash == None
        invariant |polls| == |orders| <= |script|
        invariant Ends(Run(old(st), AllInputs(Start(t0), script, orders, |orders|)), crash, true, old(socket.sent))
        invariant RunEnabled(old(st), AllInputs(Start(t0), script, orders, |orders|))
        invariant crash == None ==> socket.alive && t == Turns(Start(t0), script, |polls|)
        invariant PollsOnTime(t0, script, polls)
        invariant old(repr) <= repr && fresh(repr - old(repr))
        decreases |script| - |polls|
      {
        polls := Poll(t0, script, polls, t);
        crash, t, orders := NextTurn(t0, script, |polls| - 1, t, orders, old(st), old(socket.sent));
      }
    }

    method Poll(t0: int, script: seq<Round>, polls: seq<int>, t: Timer) returns (polls1: seq<int>)
      requires |polls| < |script| && t == Turns(Start(t0), script, |polls|) && PollsOnTime(t0, script, polls)
      ensures |polls1| == |polls| + 1 && PollsOnTime(t0, script, polls1)
    {
      var timeout := t.heartbeatAt - t.now;
      if timeout < 0 {
        timeout := 0;
      }
      polls1 := polls + [timeout];
    }

    method NextTurn(t0: int, script: seq<Round>, i: nat, t: Timer, ghost orders: seq<seq<Frame>>, ghost b: Spec.State, ghost sent0: seq<Message>)
      returns (crash: Option<Spec.Cause>, t1: Timer, ghost orders1: seq<seq<Frame>>)
      requires Valid() && socket.alive && i == |orders| < |script| && t == Turns(Start(t0), script, i)
      requires Ends(Run(b, AllInputs(Start(t0), script, orders, i)), None, true, sent0)
      requires RunEnabled(b, AllInputs(Start(t0), script, orders, i))
      modifies this, repr, socket
      ensures old(repr) <= repr && fresh(repr - old(repr))
      ensures |orders1| == i + 1
      ensures Ends(Run(b, AllInputs(Start(t0), script, orders1, i + 1)), crash, true, sent0)
      ensures RunEnabled(b, AllInputs(Start(t0), script, orders1, i + 1))
      ensures crash == None ==> socket.alive && t1 == Turns(Start(t0), script, i + 1)
    {
      ghost var sent1 := socket.sent;
      ghost var order;
      crash, t1, order := Turn(script[i], t);
      EndsAppended(b, AllInputs(Start(t0), script, orders, i), Arrivals(script[i]) + Pulses(t, script[i], order), crash, sent0, sent1);
      RunEnabledAppend(b, AllInputs(Start(t0), script, orders, i), Arrivals(script[i]) + Pulses(t, script[i], order));
      AllInputsNext(Start(t0), script, orders, order);
      orders1 := orders + [order];
    }
  }
}
