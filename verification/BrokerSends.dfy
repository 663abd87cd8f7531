// Exactly which messages end the broker: those a handler cannot take, and those that make it
// send a part zmsg::send refuses, whether that part came with the message or was queued before.

module BrokerSends {
  import opened Bytes
  import opened Frames
  import opened Mdp
  import opened BrokerSpec
  import opened BrokerInvariants
  import opened BrokerRuns
  import opened BrokerConforming

  // -------------------------------------------------------------------------------------
  // The condition, in terms of the tables before the message

  // Whether a worker of the service is left once the purge is through.
  ghost predicate HasLive(b: State, n: Name, clock: int) {
    n in b.services && Live(b, n, clock) != []
  }

  // A worker that becomes idle at now, and outlives the purge, is sent a request that cannot
  // be sent.
  ghost predicate OldestRefused(b: State, n: Name, now: int, clock: int) {
    Requests(b, n) != [] && clock < now + HEARTBEAT_EXPIRY && !Sendable(Requests(b, n)[0])
  }

  // The answer to a reserved name repeats all frames but the last; any other request goes
  // out at once, whole, if there is a worker for it.
  ghost predicate RequestRefused(b: State, n: Name, body: Message, clock: int)
    requires body != []
  {
    if Reserved(n) then !Sendable(body[..|body| - 1]) else HasLive(b, n, clock) && !Sendable(body)
  }

  ghost predicate CommandRefused(b: State, sender: Id, parts: Message, now: int, clock: int)
    requires WorkerMessageSurvives(b, sender, parts)
  {
    if CStr(parts[0]) == READY then
      sender !in b.workers && !Reserved(sender) && OldestRefused(b, CStr(parts[1]), now, clock)
    else if CStr(parts[0]) == REPLY && sender in b.workers then
      || !Sendable(UnwrapRest(parts[1..]))
      || OldestRefused(b, b.workers[sender].service.value, now, clock)
    else false
  }

  ghost predicate RefusedBySend(b: State, parts: Message, now: int, clock: int)
    requires Survives(b, parts)
  {
    if CStr(parts[2]) == MDPC_CLIENT then RequestRefused(b, CStr(parts[3]), parts[4..], clock)
    else CStr(parts[2]) == MDPW_WORKER && CommandRefused(b, CStr(parts[0]), parts[3..], now, clock)
  }

  // -------------------------------------------------------------------------------------
  // What is sent

  lemma OneSendable(o: Out, outs: seq<Out>)
    ensures AllSendable([o] + outs) <==> Sendable(Encode(o)) && AllSendable(outs)
  {
    assert o in [o] + outs;
    assert forall x :: x in outs ==> x in [o] + outs;
  }

  // With one worker or one request, a dispatch sends the oldest request or nothing.
  lemma DispatchSendable(b: State, n: Name, msg: Option<Message>, clock: int)
    requires n in b.services
    requires |b.services[n].waiting| <= 1 || |Enqueue(b, n, msg).services[n].requests| <= 1
    ensures var todo := Enqueue(b, n, msg).services[n].requests;
            AllSendable(Dispatch(b, n, msg, clock).1)
            <==> Live(b, n, clock) == [] || todo == [] || Sendable(todo[0])
  {
    var p := Purge(Enqueue(b, n, msg), clock);
    PurgedTables(b, n, msg, clock);
    DispatchLoopOnce(p, n);
    if CanSend(p, n) {
      var o := SendOne(p, n).1;
      EncodeIsSendable(o);
      OneSendable(o, []);
      assert [o] + [] == [o];
    }
  }

  // The worker itself is what is left of a list that was empty, unless the purge comes late.
  lemma LiveAfterIdle(b: State, id: Id, n: Name, now: int, clock: int)
    requires id in b.workers && b.workers[id].service == Some(n) && n in b.services
    requires b.services[n].waiting == []
    ensures Live(Idle(b, id, now), n, clock) == if clock < now + HEARTBEAT_EXPIRY then [id] else []
  {
    var b1 := Idle(b, id, now);
    assert b1.services[n].waiting == [id] && [id][1..] == [];
    assert id in Expired(b1, clock) <==> now + HEARTBEAT_EXPIRY <= clock;
  }

  lemma WaitingSendable(b: State, id: Id, n: Name, now: int, clock: int)
    requires id in b.workers && b.workers[id].service == Some(n) && n in b.services && BalancedAt(b, n)
    ensures WorkerWaiting(b, id, now, clock).Done?
    ensures AllSendable(WorkerWaiting(b, id, now, clock).outs) <==> !OldestRefused(b, n, now, clock)
  {
    var b1 := Idle(b, id, now);
    assert WorkerWaiting(b, id, now, clock).outs == Dispatch(b1, n, None, clock).1;
    assert Enqueue(b1, n, None) == b1 && Requests(b1, n) == Requests(b, n);
    if b.services[n].requests != [] {
      LiveAfterIdle(b, id, n, now, clock);
    }
    DispatchSendable(b1, n, None, clock);
  }

  lemma ReadySendsExactly(b: State, sender: Id, rest: Message, now: int, clock: int)
    requires Inv(b) && Balanced(b) && sender !in b.workers && !Reserved(sender)
    requires rest != [] && CStr(rest[0]) != []
    ensures var f := OnReady(b, sender, rest, now, clock);
            f.Done? && (AllSendable(f.outs) <==> !OldestRefused(b, CStr(rest[0]), now, clock))
  {
    var n := CStr(rest[0]);
    var b1 := Attach(ServiceRequire(WorkerRequire(b, sender), n), sender, n);
    assert BalancedAt(b, n);
    assert BalancedAt(b1, n) && Requests(b1, n) == Requests(b, n);
    WaitingSendable(b1, sender, n, now, clock);
  }

  lemma ReplySendsExactly(b: State, sender: Id, rest: Message, now: int, clock: int)
    requires Inv(b) && Balanced(b) && sender in b.workers && b.workers[sender].service.Some? && rest != []
    ensures var f := OnReply(b, sender, rest, now, clock);
            f.Done? && (AllSendable(f.outs)
                        <==> Sendable(UnwrapRest(rest)) && !OldestRefused(b, b.workers[sender].service.value, now, clock))
  {
    var n := b.workers[sender].service.value;
    var o := Answer(UnwrapAddress(rest), n, UnwrapRest(rest));
    assert BalancedAt(b, n);
    WaitingSendable(b, sender, n, now, clock);
    EncodeIsSendable(o);
    OneSendable(o, WorkerWaiting(b, sender, now, clock).outs);
  }

  lemma DisconnectSendable(sender: Id)
    ensures AllSendable([Disconnect(sender)])
  {
    EncodeIsSendable(Disconnect(sender));
  }

  lemma WorkerSendsExactly(b: State, sender: Id, parts: Message, now: int, clock: int)
    requires Inv(b) && Balanced(b) && WorkerMessageSurvives(b, sender, parts)
    ensures var f := WorkerProcess(b, sender, parts, now, clock);
            f.Done? && (AllSendable(f.outs) <==> !CommandRefused(b, sender, parts, now, clock))
  {
    var command, rest := CStr(parts[0]), parts[1..];
    DisconnectSendable(sender);
    assert READY[0] != REPLY[0];
    if command == READY && sender !in b.workers && !Reserved(sender) {
      ReadySendsExactly(b, sender, rest, now, clock);
    } else if command == REPLY && sender in b.workers {
      ReplySendsExactly(b, sender, rest, now, clock);
    }
  }

  lemma ReservedSendable(b: State, n: Name, body: Message, sender: Id)
    requires body != [] && (n == MMI_SERVICE ==> Body(body) in b.services)
    ensures var f := Internal(b, n, Wrap(body, sender, Some([])));
            f.Done? && (AllSendable(f.outs) <==> Sendable(body[..|body| - 1]))
  {
    var msg := Wrap(body, sender, Some([]));
    assert msg[|msg| - 1] == body[|body| - 1];
    var code := if n != MMI_SERVICE then CODE_501
                else if b.services[Body(body)].workers != 0 then CODE_200
                else CODE_404;
    var o := Answer(CStr(sender), n, body[..|body| - 1] + [code]);
    InternalFrames(body, sender, code);
    assert Internal(b, n, msg) == Done(b, [o]);
    LastIsCode(body[..|body| - 1], code);
    EncodeIsSendable(o);
    OneSendable(o, []);
    assert [o] + [] == [o];
  }

  lemma LastIsCode(kept: Message, code: Frame)
    requires NulFree(code)
    ensures Sendable(kept + [code]) <==> Sendable(kept)
  {
    assert forall i :: 0 <= i < |kept| ==> (kept + [code])[i] == kept[i];
  }

  lemma ClientSendsExactly(b: State, sender: Id, parts: Message, clock: int)
    requires Inv(b) && Balanced(b) && ClientMessageSurvives(b, parts)
    ensures var f := ClientProcess(b, sender, parts, clock);
            f.Done? && (AllSendable(f.outs) <==> !RequestRefused(b, CStr(parts[0]), parts[1..], clock))
  {
    var n, body := CStr(parts[0]), parts[1..];
    var b1, msg := ServiceRequire(b, n), Wrap(body, sender, Some([]));
    assert ClientProcess(b, sender, parts, clock) == Serve(b, n, msg, clock);
    BodyOfTail(parts);
    if Reserved(n) {
      ReservedSendable(b1, n, body, sender);
    } else {
      RequestSendable(b, n, body, sender, clock);
    }
  }

  lemma RequestSendable(b: State, n: Name, body: Message, sender: Id, clock: int)
    requires Balanced(b) && !Reserved(n) && n != []
    ensures var f := Serve(b, n, Wrap(body, sender, Some([])), clock);
            f.Done? && (AllSendable(f.outs) <==> !(HasLive(b, n, clock) && !Sendable(body)))
  {
    var b1, msg := ServiceRequire(b, n), Wrap(body, sender, Some([]));
    assert BalancedAt(b, n);
    DispatchSendable(b1, n, Some(msg), clock);
    Pushed2(body, sender, []);
    SendableAfterStrings([CStr(sender), []], body);
    if n in b.services {
      assert Expired(b1, clock) == Expired(b, clock);
    }
  }

  // -------------------------------------------------------------------------------------
  // The whole condition

  // Under any tables a broker can have, a message ends the process exactly when its handler
  // cannot take it or zmsg::send refuses what it makes the broker send. No clock, frame or
  // queued request is ruled out.
  lemma StepSurvivesExactly(b: State, parts: Message, now: int, clock: int)
    requires Inv(b) && Balanced(b)
    ensures Step(b, FromPeer(parts, now, clock)).Done?
            <==> Survives(b, parts) && !RefusedBySend(b, parts, now, clock)
  {
    SurvivesExactly(b, parts, now, clock);
    if Survives(b, parts) {
      assert MDPC_CLIENT[3] != MDPW_WORKER[3];
      if CStr(parts[2]) == MDPC_CLIENT {
        assert parts[3..][1..] == parts[4..];
        ClientSendsExactly(b, CStr(parts[0]), parts[3..], clock);
      } else if CStr(parts[2]) == MDPW_WORKER {
        WorkerSendsExactly(b, CStr(parts[0]), parts[3..], now, clock);
      }
    }
  }

  // While every queued request and the message at hand are free of parts zmsg::send refuses,
  // no handler sends one, and no request stays behind that could end a later step.
  lemma SendableStepSurvivesExactly(b: State, parts: Message, now: int, clock: int)
    requires Inv(b) && QueuesSendable(b) && Sendable(parts)
    ensures Step(b, FromPeer(parts, now, clock)).Done? <==> Survives(b, parts)
    ensures Survives(b, parts) ==> QueuesSendable(Step(b, FromPeer(parts, now, clock)).state)
  {
    SurvivesExactly(b, parts, now, clock);
    if Survives(b, parts) {
      HandleSendsSendable(b, FromPeer(parts, now, clock));
    }
  }

  // A heartbeat round never ends the process.
  lemma BeatSurvives(b: State, clock: int, order: seq<Id>)
    ensures Step(b, Beat(clock, order)).Done?
  {
    forall o | o in Heartbeats(order) ensures Sendable(Encode(o)) {
      EncodeIsSendable(o);
    }
  }

  ghost predicate StepSurvives(b: State, i: Input) {
    i.FromPeer? ==> Survives(b, i.parts) && !RefusedBySend(b, i.parts, i.now, i.clock)
  }

  // No message of the run meets tables under which it ends the process.
  ghost predicate RunSurvives(b: State, inputs: seq<Input>)
    decreases |inputs|
  {
    inputs == [] || (StepSurvives(b, inputs[0])
                     && (Step(b, inputs[0]).Done? ==> RunSurvives(Step(b, inputs[0]).state, inputs[1..])))
  }

  lemma {:induction false} RunSurvivesExactly(b: State, inputs: seq<Input>)
    requires Inv(b) && Balanced(b)
    ensures Run(b, inputs).Done? <==> RunSurvives(b, inputs)
    decreases |inputs|
  {
    if inputs != [] {
      var i := inputs[0];
      if i.FromPeer? {
        StepSurvivesExactly(b, i.parts, i.now, i.clock);
      } else {
        BeatSurvives(b, i.clock, i.order);
      }
      if Step(b, i).Done? {
        StepKeepsInv(b, i);
        StepBalances(b, i);
        RunSurvivesExactly(Step(b, i).state, inputs[1..]);
      }
    }
  }

  // -------------------------------------------------------------------------------------
  // Runs that end so

  const CLIENT: Frame := [99]    // "c"
  const WORKER: Frame := [119]   // "w"
  const SERVICE: Frame := [115]  // "s"

  // '@' and 32 NULs: 33 bytes, as a UUID in text form has, but no C string of that length.
  const UNSENDABLE: Frame := [64, 0, 0, 0, 0, 0, 0, 0, 0, 0, 0, 0, 0, 0, 0, 0, 0,
                              0, 0, 0, 0, 0, 0, 0, 0, 0, 0, 0, 0, 0, 0, 0, 0]

  function Asks(service: Frame, body: Frame): Input {
    FromPeer([CLIENT, [], MDPC_CLIENT, service, body], 0, 0)
  }

  function Says(command: Frame, rest: Message): Input {
    FromPeer([WORKER, [], MDPW_WORKER, command] + rest, 0, 0)
  }

  lemma AskHandled(b: State, service: Frame, body: Frame)
    ensures Handle(b, Asks(service, body)) == ClientProcess(b, CLIENT, [service, body], 0)
  {
    var parts := Asks(service, body).parts;
    assert parts[3..] == [service, body];
  }

  lemma SayHandled(b: State, command: Frame, rest: Message)
    ensures Handle(b, Says(command, rest)) == WorkerProcess(b, WORKER, [command] + rest, 0, 0)
  {
    var parts := Says(command, rest).parts;
    assert parts[3..] == [command] + rest;
    assert MDPC_CLIENT[3] != MDPW_WORKER[3];
  }

  lemma CrashesFirst(b: State, inputs: seq<Input>)
    requires inputs != [] && Step(b, inputs[0]).Crash?
    ensures Run(b, inputs) == Step(b, inputs[0])
  {
  }

  lemma CrashesSecond(b: State, i: Input, j: Input)
    requires Step(b, i).Done? && Step(Step(b, i).state, j).Crash?
    ensures Run(b, [i, j]) == Step(Step(b, i).state, j)
  {
    assert [i, j][1..] == [j];
    CrashesFirst(Step(b, i).state, [j]);
    RunStep(b, [i, j]);
  }

  // mmi.service asked about a name nobody has used: map::at throws.
  lemma UnknownServiceThrows()
    ensures Run(EMPTY, [Asks(MMI_SERVICE, SERVICE)]) == Crash(NoSuchService)
  {
    UnknownServiceAsked(EMPTY);
    CrashesFirst(EMPTY, [Asks(MMI_SERVICE, SERVICE)]);
  }

  lemma MmiUnknown(b: State, msg: Message, clock: int)
    requires msg != [] && Body(msg) !in b.services && Body(msg) != MMI_SERVICE
    ensures Serve(b, MMI_SERVICE, msg, clock) == Crash(NoSuchService)
  {
    assert Reserved(MMI_SERVICE);
  }

  lemma UnknownServiceAsked(b: State)
    requires SERVICE !in b.services
    ensures Step(b, Asks(MMI_SERVICE, SERVICE)) == Crash(NoSuchService)
  {
    var msg := Wrap([SERVICE], CLIENT, Some([]));
    AskHandled(b, MMI_SERVICE, SERVICE);
    ServedAs(b, MMI_SERVICE, SERVICE);
    assert msg[|msg| - 1] == SERVICE && |SERVICE| != |MMI_SERVICE|;
    MmiUnknown(b, msg, 0);
  }

  lemma ServedAs(b: State, n: Name, body: Frame)
    requires NulFree(n) && n != []
    ensures ClientProcess(b, CLIENT, [n, body], 0) == Serve(b, n, Wrap([body], CLIENT, Some([])), 0)
  {
    var parts: Message := [n, body];
    assert parts[1..] == [body];
  }

  // An unknown command registers its sender with a null service; its REPLY follows the null.
  lemma UnknownCommandThenReply()
    ensures Run(EMPTY, [Says([9], []), Says(REPLY, [CLIENT, [], []])]) == Crash(NullService)
  {
    var i, j := Says([9], []), Says(REPLY, [CLIENT, [], []]);
    var b1 := WorkerRequire(EMPTY, WORKER);
    UnknownCommand(EMPTY);
    ReplyFromNobody(b1);
    CrashesSecond(EMPTY, i, j);
  }

  lemma UnknownCommand(b: State)
    ensures Step(b, Says([9], [])) == Done(WorkerRequire(b, WORKER), [])
  {
    SayHandled(b, [9], []);
    var c: Frame := [9];
    assert c[0] != READY[0] && c[0] != REPLY[0] && c[0] != HEARTBEAT[0] && c[0] != DISCONNECT[0];
  }

  lemma ReplyFromNobody(b: State)
    requires WORKER in b.workers && b.workers[WORKER].service == None
    ensures Step(b, Says(REPLY, [CLIENT, [], []])) == Crash(NullService)
  {
    SayHandled(b, REPLY, [CLIENT, [], []]);
    assert ([REPLY] + [CLIENT, [], []])[1..] == [CLIENT, [], []];
    assert READY[0] != REPLY[0];
  }

  lemma NobodyWaits(b: State, n: Name, msg: Message, clock: int)
    requires n in b.services && b.services[n].waiting == []
    ensures Dispatch(b, n, Some(msg), clock).1 == []
    ensures Requests(Dispatch(b, n, Some(msg), clock).0, n) == Requests(b, n) + [msg]
  {
    PurgedTables(b, n, Some(msg), clock);
  }

  // A client's frame of 33 bytes is queued while there is no worker. The first worker to come
  // ends the broker, whoever it is.
  lemma UnsendableRequestWaits()
    ensures Run(EMPTY, [Asks(SERVICE, UNSENDABLE), Says(READY, [SERVICE])]) == Crash(AssertFailed)
  {
    var i, j := Asks(SERVICE, UNSENDABLE), Says(READY, [SERVICE]);
    UnsendableIsQueued();
    var b1 := Step(EMPTY, i).state;
    EmptyIsGood();
    StepKeepsInv(EMPTY, i);
    StepBalances(EMPTY, i);
    ReadySendsUnsendable(b1);
    CrashesSecond(EMPTY, i, j);
  }

  lemma UnsendableIsQueued()
    ensures var f := Step(EMPTY, Asks(SERVICE, UNSENDABLE));
            && f.Done? && f.state.workers == map[]
            && Requests(f.state, SERVICE) == [[CLIENT, [], UNSENDABLE]]
  {
    var b0 := ServiceRequire(EMPTY, SERVICE);
    AskHandled(EMPTY, SERVICE, UNSENDABLE);
    ServedAs(EMPTY, SERVICE, UNSENDABLE);
    Pushed2([UNSENDABLE], CLIENT, []);
    var msg := Wrap([UNSENDABLE], CLIENT, Some([]));
    assert msg == [CLIENT, [], UNSENDABLE];
    assert Serve(EMPTY, SERVICE, msg, 0) == Done(Dispatch(b0, SERVICE, Some(msg), 0).0, Dispatch(b0, SERVICE, Some(msg), 0).1);
    NobodyWaits(b0, SERVICE, msg, 0);
    DispatchLoopFrame(Purge(Enqueue(b0, SERVICE, Some(msg)), 0), SERVICE);
  }

  lemma ReadySendsUnsendable(b: State)
    requires Inv(b) && Balanced(b) && WORKER !in b.workers
    requires Requests(b, SERVICE) == [[CLIENT, [], UNSENDABLE]]
    ensures Step(b, Says(READY, [SERVICE])) == Crash(AssertFailed)
  {
    SayHandled(b, READY, [SERVICE]);
    assert ([READY] + [SERVICE])[1..] == [SERVICE];
    UnsendableIsRefused();
    ReadySendsExactly(b, WORKER, [SERVICE], 0, 0);
  }

  lemma UnsendableIsRefused()
    ensures !Sendable([CLIENT, [], UNSENDABLE])
  {
    assert UNSENDABLE == [CLIENT, [], UNSENDABLE][2] && 0 == UNSENDABLE[1];
  }
}
