// Runs of the broker under any sequence of messages and heartbeat rounds: what crashes it,
// where every request goes, when a worker is purged, and what mmi.service answers.

module BrokerRuns {
  import opened Bytes
  import opened Frames
  import opened Mdp
  import opened BrokerSpec
  import opened BrokerInvariants
  import Uuid

  ghost function Run(b: State, inputs: seq<Input>): Fate
    decreases |inputs|
  {
    if inputs == [] then Done(b, [])
    else
      match Step(b, inputs[0])
      case Crash(cause) => Crash(cause)
      case Done(b1, outs) =>
        match Run(b1, inputs[1..])
        case Crash(cause) => Crash(cause)
        case Done(b2, more) => Done(b2, outs + more)
  }

  // What more comes after a run that sent outs.
  ghost function After(outs: seq<Out>, f: Fate): Fate {
    match f
    case Crash(cause) => Crash(cause)
    case Done(b, more) => Done(b, outs + more)
  }

  lemma AfterAfter(a: seq<Out>, c: seq<Out>, f: Fate)
    ensures After(a, After(c, f)) == After(a + c, f)
  {
    if f.Done? {
      assert a + (c + f.outs) == (a + c) + f.outs;
    }
  }

  lemma RunStep(b: State, inputs: seq<Input>)
    requires inputs != [] && Step(b, inputs[0]).Done?
    ensures Run(b, inputs) == After(Step(b, inputs[0]).outs, Run(Step(b, inputs[0]).state, inputs[1..]))
  {
  }

  lemma RunOne(b: State, i: Input)
    ensures Run(b, [i]) == Step(b, i)
  {
    var f := Step(b, i);
    assert [i][1..] == [];
    assert f.Done? ==> f.outs + [] == f.outs;
  }

  lemma {:induction false} RunAppend(b: State, a: seq<Input>, c: seq<Input>)
    requires Run(b, a).Done?
    ensures Run(b, a + c) == After(Run(b, a).outs, Run(Run(b, a).state, c))
    decreases |a|
  {
    if a == [] {
      assert a + c == c;
      AfterNothing(Run(b, c));
    } else {
      RunAppend(Step(b, a[0]).state, a[1..], c);
      RunAppendOne(b, a, c);
    }
  }

  lemma AfterNothing(f: Fate)
    ensures After([], f) == f
  {
  }

  lemma RunStepConcat(b: State, a: seq<Input>, c: seq<Input>)
    requires a != [] && Step(b, a[0]).Done?
    ensures Run(b, a + c) == After(Step(b, a[0]).outs, Run(Step(b, a[0]).state, a[1..] + c))
  {
    assert (a + c)[0] == a[0] && (a + c)[1..] == a[1..] + c;
    RunStep(b, a + c);
  }

  lemma AfterBoth(outs: seq<Out>, f: Fate, g: Fate)
    requires f.Done?
    ensures After(outs, f).Done? && After(outs, f).state == f.state
    ensures After(outs, After(f.outs, g)) == After(After(outs, f).outs, g)
  {
    AfterAfter(outs, f.outs, g);
  }

  lemma RunAppendOne(b: State, a: seq<Input>, c: seq<Input>)
    requires a != [] && Run(b, a).Done?
    requires var f := Run(Step(b, a[0]).state, a[1..]);
             Run(Step(b, a[0]).state, a[1..] + c) == After(f.outs, Run(f.state, c))
    ensures Run(b, a + c) == After(Run(b, a).outs, Run(Run(b, a).state, c))
  {
    var f := Run(Step(b, a[0]).state, a[1..]);
    RunStep(b, a);
    RunStepConcat(b, a, c);
    AfterBoth(Step(b, a[0]).outs, f, Run(f.state, c));
  }

  // Every heartbeat round of the run goes to exactly the workers that are idle then.
  ghost predicate RunEnabled(b: State, inputs: seq<Input>)
    decreases |inputs|
  {
    inputs == [] || (Enabled(b, inputs[0])
                     && (Step(b, inputs[0]).Done? ==> RunEnabled(Step(b, inputs[0]).state, inputs[1..])))
  }

  lemma {:induction false} RunEnabledAppend(b: State, a: seq<Input>, c: seq<Input>)
    requires RunEnabled(b, a) && (Run(b, a).Done? ==> RunEnabled(Run(b, a).state, c))
    ensures RunEnabled(b, a + c)
    decreases |a|
  {
    if a == [] {
      assert a + c == c;
    } else {
      assert (a + c)[0] == a[0] && (a + c)[1..] == a[1..] + c;
      if Step(b, a[0]).Done? {
        RunStepEnds(b, a);
        RunEnabledAppend(Step(b, a[0]).state, a[1..], c);
      }
    }
  }

  lemma RunStepEnds(b: State, inputs: seq<Input>)
    requires inputs != [] && Step(b, inputs[0]).Done?
    ensures var f := Run(Step(b, inputs[0]).state, inputs[1..]);
            && (f.Done? <==> Run(b, inputs).Done?)
            && (f.Done? ==> f.state == Run(b, inputs).state)
  {
    RunStep(b, inputs);
  }

  lemma EmptyIsGood()
    ensures Inv(EMPTY) && Balanced(EMPTY)
  {
  }

  // -------------------------------------------------------------------------------------
  // Which messages end the process

  ghost predicate WorkerMessageSurvives(b: State, sender: Id, parts: Message) {
    && parts != []
    && sender != []
    && (CStr(parts[0]) == READY && sender !in b.workers && !Reserved(sender) ==>
          |parts| >= 2 && CStr(parts[1]) != [])
    && (CStr(parts[0]) == REPLY && sender in b.workers ==>
          |parts| >= 2 && b.workers[sender].service.Some?)
  }

  ghost predicate ClientMessageSurvives(b: State, parts: Message) {
    && |parts| >= 2
    && CStr(parts[0]) != []
    && (CStr(parts[0]) == MMI_SERVICE ==>
          Body(parts) in b.services || Body(parts) == MMI_SERVICE)
  }

  ghost predicate Survives(b: State, parts: Message) {
    && |parts| >= 3
    && (CStr(parts[2]) == MDPC_CLIENT ==> ClientMessageSurvives(b, parts[3..]))
    && (CStr(parts[2]) == MDPW_WORKER ==> WorkerMessageSurvives(b, CStr(parts[0]), parts[3..]))
  }

  lemma WorkerProcessSurvivesExactly(b: State, sender: Id, parts: Message, now: int, clock: int)
    requires Inv(b)
    ensures WorkerProcess(b, sender, parts, now, clock).Done? <==> WorkerMessageSurvives(b, sender, parts)
  {
    if parts != [] {
      OnReadyKeepsInv(b, sender, parts[1..], now, clock);
      WorkerWaitingKeepsInv(b, sender, now, clock);
      assert READY != REPLY by {
        assert READY[0] != REPLY[0];
      }
    }
  }

  lemma BodyOfWrapped(parts: Message, address: Frame)
    requires parts != []
    ensures Wrap(parts, address, Some([])) != []
    ensures Body(Wrap(parts, address, Some([]))) == Body(parts)
  {
    var m := Wrap(parts, address, Some([]));
    assert m[|m| - 1] == parts[|parts| - 1];
  }

  lemma BodyOfTail(parts: Message)
    requires |parts| >= 2
    ensures Body(parts[1..]) == Body(parts)
  {
  }

  lemma ClientProcessSurvivesExactly(b: State, sender: Id, parts: Message, clock: int)
    ensures ClientProcess(b, sender, parts, clock).Done? <==> ClientMessageSurvives(b, parts)
  {
    if |parts| >= 2 {
      var n, msg := CStr(parts[0]), Wrap(parts[1..], sender, Some([]));
      BodyOfWrapped(parts[1..], sender);
      BodyOfTail(parts);
      assert Reserved(MMI_SERVICE);
      assert n != [] ==> ClientProcess(b, sender, parts, clock) == Serve(b, n, msg, clock);
    }
  }

  // A message kills the broker exactly when it has too few frames, names no service, asks
  // mmi.service about an unknown one, or is a REPLY from a worker that never named a service.
  lemma SurvivesExactly(b: State, parts: Message, now: int, clock: int)
    requires Inv(b)
    ensures OnMessage(b, parts, now, clock).Done? <==> Survives(b, parts)
  {
    if |parts| >= 3 {
      assert MDPC_CLIENT[3] != MDPW_WORKER[3];
      WorkerProcessSurvivesExactly(b, CStr(parts[0]), parts[3..], now, clock);
      ClientProcessSurvivesExactly(b, CStr(parts[0]), parts[3..], clock);
    }
  }

  // -------------------------------------------------------------------------------------
  // Conservation and order of requests

  ghost function Requests(b: State, n: Name): seq<Message> {
    if n in b.services then b.services[n].requests else []
  }

  // The requests for a service among the messages sent, oldest first.
  ghost function Dispatched(outs: seq<Out>, n: Name): seq<Message> {
    if outs == [] then []
    else (if outs[0].Request? && outs[0].service == n then [outs[0].payload] else [])
         + Dispatched(outs[1..], n)
  }

  // The request an input adds for a service, with the client's return address stacked on it.
  ghost function Accepted(i: Input, n: Name): seq<Message> {
    if i.FromPeer? && |i.parts| >= 5 && CStr(i.parts[2]) == MDPC_CLIENT
       && CStr(i.parts[3]) == n && n != [] && !Reserved(n)
    then [Wrap(i.parts[4..], CStr(i.parts[0]), Some([]))]
    else []
  }

  ghost function AllAccepted(inputs: seq<Input>, n: Name): seq<Message> {
    if inputs == [] then [] else Accepted(inputs[0], n) + AllAccepted(inputs[1..], n)
  }

  // A well-formed request is queued for its service in the envelope of its client, unless the
  // name is reserved or the body empty.
  lemma AcceptedRequest(c: Id, n: Name, body: Message, now: int, clock: int, m: Name)
    requires NulFree(c) && NulFree(n) && n != []
    ensures Accepted(FromPeer([c, [], MDPC_CLIENT, n] + body, now, clock), m)
            == if body != [] && m == n && !Reserved(n) then [[c, []] + body] else []
  {
    var parts: Message := [c, [], MDPC_CLIENT, n] + body;
    assert CStr(parts[0]) == c && CStr(parts[2]) == MDPC_CLIENT && CStr(parts[3]) == n;
    if body != [] {
      assert parts[4..] == body;
      Pushed2(body, c, []);
      assert Wrap(body, c, Some([])) == [c, []] + body;
    }
  }

  lemma DispatchedAppend(a: seq<Out>, c: seq<Out>, n: Name)
    ensures Dispatched(a + c, n) == Dispatched(a, n) + Dispatched(c, n)
  {
    if a == [] {
      assert a + c == c;
    } else {
      assert (a + c)[1..] == a[1..] + c;
      DispatchedAppend(a[1..], c, n);
    }
  }

  lemma {:induction false} DispatchLoopConserves(b: State, n: Name, m: Name)
    ensures var (b1, outs) := DispatchLoop(b, n);
            Requests(b, m) == Dispatched(outs, m) + Requests(b1, m)
    decreases if n in b.services then |b.services[n].requests| else 0
  {
    if CanSend(b, n) {
      var (b1, o) := SendOne(b, n);
      var (b2, outs) := DispatchLoop(b1, n);
      DispatchLoopConserves(b1, n, m);
      SendOneConserves(b, n, m);
      DispatchedFirst(o, outs, m);
    }
  }

  lemma SendOneConserves(b: State, n: Name, m: Name)
    requires CanSend(b, n)
    ensures var (b1, o) := SendOne(b, n);
            Requests(b, m) == (if m == n then [o.payload] else []) + Requests(b1, m)
  {
  }

  lemma DispatchedFirst(o: Out, outs: seq<Out>, m: Name)
    requires o.Request?
    ensures Dispatched([o] + outs, m) == (if m == o.service then [o.payload] else []) + Dispatched(outs, m)
  {
    assert ([o] + outs)[1..] == outs;
  }

  lemma DispatchConserves(b: State, n: Name, msg: Option<Message>, clock: int, m: Name)
    requires n in b.services
    ensures var (b1, outs) := Dispatch(b, n, msg, clock);
            Requests(b, m) + (if m == n && msg.Some? then [msg.value] else [])
            == Dispatched(outs, m) + Requests(b1, m)
  {
    var p := Purge(Enqueue(b, n, msg), clock);
    assert Requests(p, m) == Requests(b, m) + (if m == n && msg.Some? then [msg.value] else []);
    DispatchLoopConserves(p, n, m);
  }

  lemma WorkerWaitingConserves(b: State, id: Id, now: int, clock: int, m: Name)
    ensures var f := WorkerWaiting(b, id, now, clock);
            f.Done? ==> Requests(b, m) == Dispatched(f.outs, m) + Requests(f.state, m)
  {
    if WorkerWaiting(b, id, now, clock).Done? {
      DispatchConserves(Idle(b, id, now), b.workers[id].service.value, None, clock, m);
    }
  }

  ghost predicate Conserves(b: State, f: Fate, m: Name) {
    f.Done? ==> Requests(b, m) == Dispatched(f.outs, m) + Requests(f.state, m)
  }

  // A refused or disconnected worker costs no request.
  lemma DeletionConserves(b: State, sender: Id, m: Name)
    ensures Conserves(b, Done(Delete(WorkerRequire(b, sender), sender), [Disconnect(sender)]), m)
    ensures Conserves(b, Done(Delete(WorkerRequire(b, sender), sender), []), m)
  {
    var b1 := Delete(WorkerRequire(b, sender), sender);
    assert Requests(b1, m) == Requests(b, m);
    assert Dispatched([Disconnect(sender)], m) == [] + Dispatched([], m);
  }

  lemma OnReadyConserves(b: State, sender: Id, rest: Message, now: int, clock: int, m: Name)
    ensures Conserves(b, OnReady(b, sender, rest, now, clock), m)
  {
    if sender in b.workers || Reserved(sender) {
      DeletionConserves(b, sender, m);
    } else if rest != [] && CStr(rest[0]) != [] {
      var n := CStr(rest[0]);
      var b1 := Attach(ServiceRequire(WorkerRequire(b, sender), n), sender, n);
      assert Requests(b1, m) == Requests(b, m);
      WorkerWaitingConserves(b1, sender, now, clock, m);
    }
  }

  lemma OnReplyConserves(b: State, sender: Id, rest: Message, now: int, clock: int, m: Name)
    ensures Conserves(b, OnReply(b, sender, rest, now, clock), m)
  {
    if sender !in b.workers {
      DeletionConserves(b, sender, m);
    } else {
      WorkerWaitingConserves(b, sender, now, clock, m);
      if rest != [] && b.workers[sender].service.Some? {
        var o := Answer(UnwrapAddress(rest), b.workers[sender].service.value, UnwrapRest(rest));
        PrependConserves(b, o, WorkerWaiting(b, sender, now, clock), m);
      }
    }
  }

  lemma PrependConserves(b: State, o: Out, f: Fate, m: Name)
    requires Conserves(b, f, m) && !o.Request?
    ensures Conserves(b, Prepend(o, f), m)
  {
    if f.Done? {
      assert ([o] + f.outs)[1..] == f.outs;
    }
  }

  lemma WorkerProcessConserves(b: State, sender: Id, parts: Message, now: int, clock: int, m: Name)
    ensures Conserves(b, WorkerProcess(b, sender, parts, now, clock), m)
  {
    if parts != [] {
      if CStr(parts[0]) == READY {
        OnReadyConserves(b, sender, parts[1..], now, clock, m);
      } else if CStr(parts[0]) == REPLY {
        OnReplyConserves(b, sender, parts[1..], now, clock, m);
      } else {
        DeletionConserves(b, sender, m);
      }
    }
  }

  lemma HeartbeatsDispatchNothing(order: seq<Id>, m: Name)
    ensures Dispatched(Heartbeats(order), m) == []
  {
    if order != [] {
      assert Heartbeats(order)[1..] == Heartbeats(order[1..]);
      HeartbeatsDispatchNothing(order[1..], m);
    }
  }

  lemma ClientProcessConserves(b: State, sender: Id, parts: Message, clock: int, m: Name)
    ensures var f := ClientProcess(b, sender, parts, clock);
            f.Done? ==>
              Requests(b, m)
              + (if CStr(parts[0]) == m && !Reserved(m) then [Wrap(parts[1..], sender, Some([]))] else [])
              == Dispatched(f.outs, m) + Requests(f.state, m)
  {
    if ClientProcess(b, sender, parts, clock).Done? {
      var n := CStr(parts[0]);
      var b1 := ServiceRequire(b, n);
      assert Requests(b1, m) == Requests(b, m);
      if !Reserved(n) {
        DispatchConserves(b1, n, Some(Wrap(parts[1..], sender, Some([]))), clock, m);
      }
    }
  }

  // Every step: what waited and what arrives is what leaves, in order, and what still waits.
  lemma HandleConserves(b: State, i: Input, m: Name)
    requires Handle(b, i).Done?
    ensures Requests(b, m) + Accepted(i, m)
            == Dispatched(Handle(b, i).outs, m) + Requests(Handle(b, i).state, m)
  {
    match i
    case FromPeer(parts, now, clock) =>
      var sender, rest := CStr(parts[0]), parts[3..];
      assert MDPC_CLIENT[3] != MDPW_WORKER[3];
      if CStr(parts[2]) == MDPC_CLIENT {
        assert |parts| >= 5 ==> rest[1..] == parts[4..];
        ClientProcessConserves(b, sender, rest, clock, m);
      } else if CStr(parts[2]) == MDPW_WORKER {
        WorkerProcessConserves(b, sender, rest, now, clock, m);
      }
    case Beat(clock, order) =>
      HeartbeatsDispatchNothing(order, m);
  }

  lemma Splice<T>(r0: seq<T>, a0: seq<T>, d0: seq<T>, r1: seq<T>, a1: seq<T>, d1: seq<T>, r2: seq<T>)
    requires r0 + a0 == d0 + r1 && r1 + a1 == d1 + r2
    ensures r0 + (a0 + a1) == (d0 + d1) + r2
  {
    assert r0 + (a0 + a1) == (r0 + a0) + a1;
    assert (d0 + r1) + a1 == d0 + (r1 + a1);
    assert d0 + (d1 + r2) == (d0 + d1) + r2;
  }

  lemma {:induction false} RunConserves(b: State, inputs: seq<Input>, m: Name)
    requires Run(b, inputs).Done?
    ensures var f := Run(b, inputs);
            Requests(b, m) + AllAccepted(inputs, m) == Dispatched(f.outs, m) + Requests(f.state, m)
    decreases |inputs|
  {
    if inputs != [] {
      var i, rest := inputs[0], inputs[1..];
      var b1, outs := Step(b, i).state, Step(b, i).outs;
      HandleConserves(b, i, m);
      RunConserves(b1, rest, m);
      var b2, more := Run(b1, rest).state, Run(b1, rest).outs;
      DispatchedAppend(outs, more, m);
      Splice(Requests(b, m), Accepted(i, m), Dispatched(outs, m), Requests(b1, m),
             AllAccepted(rest, m), Dispatched(more, m), Requests(b2, m));
    }
  }

  lemma {:induction false} RunKeepsInv(b: State, inputs: seq<Input>)
    requires Inv(b) && Balanced(b) && Run(b, inputs).Done?
    ensures Inv(Run(b, inputs).state) && Balanced(Run(b, inputs).state)
    decreases |inputs|
  {
    if inputs != [] {
      StepKeepsInv(b, inputs[0]);
      StepBalances(b, inputs[0]);
      RunKeepsInv(Step(b, inputs[0]).state, inputs[1..]);
    }
  }

  // From the empty broker, after any inputs it survives: no dangling entry, no request
  // waiting beside a waiting worker, exact worker counts, and for every service the accepted
  // requests are those dispatched, in order and unchanged, followed by those queued.
  lemma RunFromStart(inputs: seq<Input>)
    requires Run(EMPTY, inputs).Done?
    ensures Inv(Run(EMPTY, inputs).state) && Balanced(Run(EMPTY, inputs).state)
    ensures forall n :: AllAccepted(inputs, n)
              == Dispatched(Run(EMPTY, inputs).outs, n) + Requests(Run(EMPTY, inputs).state, n)
  {
    EmptyIsGood();
    RunKeepsInv(EMPTY, inputs);
    forall n
      ensures AllAccepted(inputs, n)
              == Dispatched(Run(EMPTY, inputs).outs, n) + Requests(Run(EMPTY, inputs).state, n)
    {
      RunConserves(EMPTY, inputs, n);
      assert Requests(EMPTY, n) + AllAccepted(inputs, n) == AllAccepted(inputs, n);
    }
  }

  // -------------------------------------------------------------------------------------
  // Requests go to workers of the service

  lemma {:induction false} DispatchLoopSendsToAttached(b: State, n: Name, o: Out)
    requires Inv(b) && o in DispatchLoop(b, n).1
    ensures o.Request? && o.service == n && IsAttached(b, n, o.worker)
    decreases if n in b.services then |b.services[n].requests| else 0
  {
    var (b1, o1) := SendOne(b, n);
    SendOneKeepsInv(b, n);
    assert IsAttached(b, n, Chosen(b, n));
    if o != o1 {
      DispatchLoopSendsToAttached(b1, n, o);
    }
  }

  // -------------------------------------------------------------------------------------
  // Expiry

  // When each peer was last heard of: the handler's clock at its last READY, REPLY or HEARTBEAT.
  ghost function Hear(heard: map<Id, int>, i: Input): map<Id, int> {
    if i.FromPeer? && |i.parts| >= 4 && CStr(i.parts[2]) == MDPW_WORKER
       && CStr(i.parts[3]) in [READY, REPLY, HEARTBEAT]
    then heard[CStr(i.parts[0]) := i.now]
    else heard
  }

  ghost function HearAll(heard: map<Id, int>, inputs: seq<Input>): map<Id, int>
    decreases |inputs|
  {
    if inputs == [] then heard else HearAll(Hear(heard, inputs[0]), inputs[1..])
  }

  ghost predicate ExpiryExact(b: State, heard: map<Id, int>) {
    forall id :: id in b.workers && b.workers[id].service.Some? ==>
      id in heard && b.workers[id].expiry == heard[id] + HEARTBEAT_EXPIRY
  }

  lemma WorkerWaitingExpiry(b: State, id: Id, now: int, clock: int)
    ensures var f := WorkerWaiting(b, id, now, clock);
            f.Done? ==> forall w :: w in f.state.workers ==>
              w in b.workers && f.state.workers[w].service == b.workers[w].service
              && f.state.workers[w].expiry == if w == id then now + HEARTBEAT_EXPIRY else b.workers[w].expiry
  {
    if WorkerWaiting(b, id, now, clock).Done? {
      var b1, n := Idle(b, id, now), b.workers[id].service.value;
      DispatchLoopFrame(Purge(b1, clock), n);
    }
  }

  lemma OnReadyExpiry(b: State, sender: Id, rest: Message, now: int, clock: int, heard: map<Id, int>)
    requires ExpiryExact(b, heard)
    ensures var f := OnReady(b, sender, rest, now, clock); f.Done? ==> ExpiryExact(f.state, heard[sender := now])
  {
    if rest != [] && sender !in b.workers && !Reserved(sender) {
      var n := CStr(rest[0]);
      WorkerWaitingExpiry(Attach(ServiceRequire(WorkerRequire(b, sender), n), sender, n), sender, now, clock);
    }
  }

  lemma WorkerProcessExpiry(b: State, sender: Id, parts: Message, now: int, clock: int, heard: map<Id, int>)
    requires ExpiryExact(b, heard) && parts != []
    ensures var f := WorkerProcess(b, sender, parts, now, clock);
            f.Done? ==> ExpiryExact(f.state,
              if CStr(parts[0]) in [READY, REPLY, HEARTBEAT] then heard[sender := now] else heard)
  {
    var command := CStr(parts[0]);
    if command == READY {
      OnReadyExpiry(b, sender, parts[1..], now, clock, heard);
    } else if command == REPLY {
      WorkerWaitingExpiry(b, sender, now, clock);
    }
  }

  lemma StepExpiry(b: State, i: Input, heard: map<Id, int>)
    requires ExpiryExact(b, heard) && Step(b, i).Done?
    ensures ExpiryExact(Step(b, i).state, Hear(heard, i))
  {
    if i.FromPeer? && |i.parts| >= 3 {
      var sender, rest := CStr(i.parts[0]), i.parts[3..];
      assert MDPC_CLIENT[3] != MDPW_WORKER[3];
      if CStr(i.parts[2]) == MDPW_WORKER {
        WorkerProcessExpiry(b, sender, rest, i.now, i.clock, heard);
      } else if CStr(i.parts[2]) == MDPC_CLIENT && !Reserved(CStr(rest[0])) {
        var n := CStr(rest[0]);
        var b1 := Enqueue(ServiceRequire(b, n), n, Some(Wrap(rest[1..], sender, Some([]))));
        DispatchLoopFrame(Purge(b1, i.clock), n);
      }
    }
  }

  // In any run, an attached worker expires 7500 ms after it was last heard of.
  lemma {:induction false} RunExpiry(b: State, inputs: seq<Input>, heard: map<Id, int>)
    requires ExpiryExact(b, heard) && Run(b, inputs).Done?
    ensures ExpiryExact(Run(b, inputs).state, HearAll(heard, inputs))
    decreases |inputs|
  {
    if inputs != [] {
      StepExpiry(b, inputs[0], heard);
      RunExpiry(Step(b, inputs[0]).state, inputs[1..], Hear(heard, inputs[0]));
    }
  }

  // A purge deletes the idle workers silent for 7500 ms or more, and nothing else: busy
  // workers, their times and all queued requests stay.
  lemma PurgeDeletesTheSilent(inputs: seq<Input>, clock: int, id: Id)
    requires Run(EMPTY, inputs).Done?
    requires id in Run(EMPTY, inputs).state.workers
    ensures var b, heard := Run(EMPTY, inputs).state, HearAll(map[], inputs);
            && (id in b.waiting ==> id in heard)
            && (id !in Purge(b, clock).workers
                <==> id in b.waiting && clock - heard[id] >= HEARTBEAT_EXPIRY)
            && (id in Purge(b, clock).workers ==> Purge(b, clock).workers[id] == b.workers[id])
            && forall n :: Requests(Purge(b, clock), n) == Requests(b, n)
  {
    var b, heard := Run(EMPTY, inputs).state, HearAll(map[], inputs);
    RunFromStart(inputs);
    RunExpiry(EMPTY, inputs, map[]);
    assert id in b.waiting ==> IsQueued(b, id);
  }

  // -------------------------------------------------------------------------------------
  // mmi.service

  ghost function MmiCode(b: State, n: Name): (code: Frame) {
    if exists id :: IsAttached(b, n, id) then CODE_200 else CODE_404
  }

  ghost function MmiReply(b: State, sender: Id, parts: Message): Fate
    requires |parts| >= 2
  {
    Done(ServiceRequire(b, MMI_SERVICE),
         [Answer(CStr(sender), MMI_SERVICE, parts[1..|parts| - 1] + [MmiCode(b, Body(parts))])])
  }

  // Asked about a known service, the broker answers 200 exactly when some worker is
  // registered for it, in the place of the last frame; it registers and sends nothing else.
  lemma MmiServiceAnswers(b: State, sender: Id, parts: Message, clock: int)
    requires Inv(b) && |parts| >= 2
    requires CStr(parts[0]) == MMI_SERVICE && Body(parts) in b.services
    ensures ClientProcess(b, sender, parts, clock) == MmiReply(b, sender, parts)
  {
    MmiGoesInternal(b, sender, parts, clock);
    MmiInternal(b, sender, parts);
  }

  lemma MmiCodeIs(b: State, n: Name)
    requires Inv(b) && n in b.services
    ensures MmiCode(b, n) == if ServiceRequire(b, MMI_SERVICE).services[n].workers != 0 then CODE_200 else CODE_404
  {
    CountTellsWhether(b, n);
  }

  lemma MmiInternal(b: State, sender: Id, parts: Message)
    requires Inv(b) && |parts| >= 2 && Body(parts) in b.services
    ensures Internal(ServiceRequire(b, MMI_SERVICE), MMI_SERVICE, Wrap(parts[1..], sender, Some([])))
            == MmiReply(b, sender, parts)
  {
    var code := MmiCode(b, Body(parts));
    MmiCodeIs(b, Body(parts));
    InternalFrames(parts[1..], sender, code);
    assert parts[1..][..|parts| - 2] == parts[1..|parts| - 1];
    BodyOfWrapped(parts[1..], sender);
    BodyOfTail(parts);
  }

  lemma MmiGoesInternal(b: State, sender: Id, parts: Message, clock: int)
    requires |parts| >= 2 && CStr(parts[0]) == MMI_SERVICE
    ensures ClientProcess(b, sender, parts, clock)
            == Internal(ServiceRequire(b, MMI_SERVICE), MMI_SERVICE, Wrap(parts[1..], sender, Some([])))
  {
    assert Reserved(MMI_SERVICE);
  }

  lemma CountTellsWhether(b: State, n: Name)
    requires Inv(b) && n in b.services
    ensures b.services[n].workers != 0 <==> exists id :: IsAttached(b, n, id)
  {
    if id :| IsAttached(b, n, id) {
      assert id in Attached(b, n);
    } else {
      assert Attached(b, n) == {};
    }
  }

  // service_internal takes the envelope off again and keeps all frames but the last.
  lemma InternalFrames(parts: Message, sender: Id, code: Frame)
    requires parts != [] && NulFree(code)
    ensures var answered := BodySet(Wrap(parts, sender, Some([])), code);
            && answered != []
            && UnwrapAddress(answered) == CStr(sender)
            && UnwrapRest(answered) == parts[..|parts| - 1] + [code]
  {
    var kept := parts[..|parts| - 1];
    Pushed2(parts, sender, []);
    var whole := [CStr(sender), []] + parts;
    assert Wrap(parts, sender, Some([])) == whole;
    assert whole[..|whole| - 1] == [CStr(sender), []] + kept;
    var answered := [CStr(sender), []] + kept + [code];
    assert BodySet(whole, code) == answered;
    assert answered[2..] == kept + [code];
    CStrIsIdentityExactlyOnNulFree(sender);
  }

  predicate HasMmiPrefix(n: Name) {
    |n| >= 4 && n[..4] == [109, 109, 105, 46]
  }

  // The guard meant for the prefix "mmi." only looks at the first character, so it also
  // catches names like "info". No request for a name it catches is ever queued or sent on.
  lemma ReservedServicesGetNoRequests(inputs: seq<Input>, n: Name)
    requires Run(EMPTY, inputs).Done? && Reserved(n)
    ensures Requests(Run(EMPTY, inputs).state, n) == [] && Dispatched(Run(EMPTY, inputs).outs, n) == []
  {
    RunFromStart(inputs);
    NothingAccepted(inputs, n);
  }

  lemma NothingAccepted(inputs: seq<Input>, n: Name)
    requires Reserved(n)
    ensures AllAccepted(inputs, n) == []
  {
  }

  lemma ReservedIsWiderThanPrefix(n: Name)
    ensures HasMmiPrefix(n) ==> Reserved(n)
    ensures Reserved([105, 110, 102, 111]) && !HasMmiPrefix([105, 110, 102, 111])  // "info"
  {
    assert HasMmiPrefix(n) ==> n[0] == n[..4][0];
  }

  // -------------------------------------------------------------------------------------
  // Messages zmsg::send can put on the wire

  ghost predicate QueuesSendable(b: State) {
    forall n, m :: m in Requests(b, n) ==> Sendable(m)
  }

  lemma {:induction false} DispatchLoopOnlySends(b: State, n: Name, o: Out)
    requires o in DispatchLoop(b, n).1
    ensures o.Request?
    decreases if n in b.services then |b.services[n].requests| else 0
  {
    var (b1, o1) := SendOne(b, n);
    if o != o1 {
      DispatchLoopOnlySends(b1, n, o);
    }
  }

  lemma WorkerWaitingOnlySends(b: State, id: Id, now: int, clock: int, o: Out)
    requires WorkerWaiting(b, id, now, clock).Done? && o in WorkerWaiting(b, id, now, clock).outs
    ensures o.Request?
  {
    var n := b.workers[id].service.value;
    DispatchLoopOnlySends(Purge(Enqueue(Idle(b, id, now), n, None), clock), n, o);
  }

  lemma WorkerAnswersAreSendable(b: State, sender: Id, parts: Message, now: int, clock: int, o: Out)
    requires Sendable(parts) && o.Answer?
    requires WorkerProcess(b, sender, parts, now, clock).Done?
    requires o in WorkerProcess(b, sender, parts, now, clock).outs
    ensures Sendable(o.payload)
  {
    var rest := parts[1..];
    if CStr(parts[0]) == READY {
      if sender !in b.workers && !Reserved(sender) {
        var n := CStr(rest[0]);
        WorkerWaitingOnlySends(Attach(ServiceRequire(WorkerRequire(b, sender), n), sender, n), sender, now, clock, o);
      }
    } else if CStr(parts[0]) == REPLY && sender in b.workers {
      if o in WorkerWaiting(b, sender, now, clock).outs {
        WorkerWaitingOnlySends(b, sender, now, clock, o);
      }
      SendableParts(parts, 2);
      if |parts| > 2 {
        SendableParts(parts, 3);
        assert rest[2..] == parts[3..];
      }
      assert rest[1..] == parts[2..];
    }
  }

  lemma SendableReplaceLast(parts: Message, code: Frame)
    requires parts != [] && Sendable(parts) && NulFree(code)
    ensures Sendable(parts[..|parts| - 1] + [code])
  {
    var m := parts[..|parts| - 1] + [code];
    forall i | 0 <= i < |m| && Uuid.IsTextForm(m[i]) ensures NulFree(m[i]) {
      assert i < |parts| - 1 ==> m[i] == parts[i];
    }
  }

  lemma InternalAnswerIsSendable(b: State, n: Name, parts: Message, sender: Id, o: Out)
    requires parts != [] && Sendable(parts)
    requires Internal(b, n, Wrap(parts, sender, Some([]))).Done?
    requires o in Internal(b, n, Wrap(parts, sender, Some([]))).outs
    ensures o.Answer? && Sendable(o.payload)
  {
    var msg := Wrap(parts, sender, Some([]));
    var code := if n != MMI_SERVICE then CODE_501
                else if b.services[Body(msg)].workers != 0 then CODE_200 else CODE_404;
    InternalFrames(parts, sender, code);
    SendableReplaceLast(parts, code);
  }

  lemma ClientAnswersAreSendable(b: State, sender: Id, parts: Message, clock: int, o: Out)
    requires Sendable(parts) && o.Answer?
    requires ClientProcess(b, sender, parts, clock).Done?
    requires o in ClientProcess(b, sender, parts, clock).outs
    ensures Sendable(o.payload)
  {
    var n := CStr(parts[0]);
    var b1, msg := ServiceRequire(b, n), Wrap(parts[1..], sender, Some([]));
    if Reserved(n) {
      SendableParts(parts, 1);
      InternalAnswerIsSendable(b1, n, parts[1..], sender, o);
    } else {
      DispatchLoopOnlySends(Purge(Enqueue(b1, n, Some(msg)), clock), n, o);
    }
  }

  lemma RequestIsDispatched(outs: seq<Out>, o: Out)
    requires o in outs && o.Request?
    ensures o.payload in Dispatched(outs, o.service)
  {
    if o != outs[0] {
      RequestIsDispatched(outs[1..], o);
    }
  }

  lemma HandledRequestsAreSendable(b: State, i: Input, n: Name, m: Message)
    requires QueuesSendable(b) && Handle(b, i).Done?
    requires i.FromPeer? ==> Sendable(i.parts)
    requires m in Dispatched(Handle(b, i).outs, n) || m in Requests(Handle(b, i).state, n)
    ensures Sendable(m)
  {
    HandleConserves(b, i, n);
    assert m in Requests(b, n) + Accepted(i, n);
    if m !in Requests(b, n) {
      SendableParts(i.parts, 4);
      SendableWrap(i.parts[4..], CStr(i.parts[0]));
    }
  }

  lemma HandleSendsSendable(b: State, i: Input)
    requires QueuesSendable(b) && Handle(b, i).Done?
    requires i.FromPeer? ==> Sendable(i.parts)
    ensures AllSendable(Handle(b, i).outs) && QueuesSendable(Handle(b, i).state)
  {
    forall n, m | m in Requests(Handle(b, i).state, n) ensures Sendable(m) {
      HandledRequestsAreSendable(b, i, n, m);
    }
    forall o | o in Handle(b, i).outs ensures Sendable(Encode(o)) {
      EncodeIsSendable(o);
      if o.Request? {
        RequestIsDispatched(Handle(b, i).outs, o);
        HandledRequestsAreSendable(b, i, o.service, o.payload);
      } else if o.Answer? {
        AnswersAreSendable(b, i, o);
      }
    }
  }

  lemma AnswersAreSendable(b: State, i: Input, o: Out)
    requires i.FromPeer? ==> Sendable(i.parts)
    requires Handle(b, i).Done? && o in Handle(b, i).outs && o.Answer?
    ensures Sendable(o.payload)
  {
    var sender, rest := CStr(i.parts[0]), i.parts[3..];
    SendableParts(i.parts, 3);
    if CStr(i.parts[2]) == MDPC_CLIENT {
      ClientAnswersAreSendable(b, sender, rest, i.clock, o);
    } else {
      WorkerAnswersAreSendable(b, sender, rest, i.now, i.clock, o);
    }
  }
}
