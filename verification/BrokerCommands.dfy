// What the broker does on each message, read off its frames: which tables change, and what it
// sends. Here the handlers are not named; a message is a step of the broker.

module BrokerCommands {
  import opened Bytes
  import opened Frames
  import opened Mdp
  import opened BrokerSpec
  import opened BrokerInvariants
  import opened BrokerRuns
  import opened BrokerConforming
  import opened BrokerSends

  // A message from the worker w, or from the client c.
  function Tells(w: Id, command: Frame, rest: Message, now: int, clock: int): Input {
    FromPeer([w, [], MDPW_WORKER, command] + rest, now, clock)
  }

  function Wants(c: Id, n: Name, body: Message, now: int, clock: int): Input {
    FromPeer([c, [], MDPC_CLIENT, n] + body, now, clock)
  }

  predicate IsAddress(w: Id) {
    w != [] && NulFree(w)
  }

  lemma TellsHandled(b: State, w: Id, command: Frame, rest: Message, now: int, clock: int)
    requires NulFree(w)
    ensures Handle(b, Tells(w, command, rest, now, clock)) == WorkerProcess(b, w, [command] + rest, now, clock)
  {
    var parts := Tells(w, command, rest, now, clock).parts;
    CStrIsIdentityExactlyOnNulFree(w);
    assert parts[3..] == [command] + rest;
    assert MDPC_CLIENT[3] != MDPW_WORKER[3];
  }

  lemma WantsHandled(b: State, c: Id, n: Name, body: Message, now: int, clock: int)
    requires NulFree(c)
    ensures Handle(b, Wants(c, n, body, now, clock)) == ClientProcess(b, c, [n] + body, clock)
  {
    var parts := Wants(c, n, body, now, clock).parts;
    CStrIsIdentityExactlyOnNulFree(c);
    assert parts[3..] == [n] + body;
  }

  lemma Commands(b: State, w: Id, command: Frame, rest: Message, now: int, clock: int)
    requires IsAddress(w) && NulFree(command)
    ensures Handle(b, Tells(w, command, rest, now, clock)) == Command(b, w, command, rest, now, clock)
  {
    TellsHandled(b, w, command, rest, now, clock);
    CStrIsIdentityExactlyOnNulFree(command);
    assert ([command] + rest)[1..] == rest;
  }

  lemma CommandsDiffer()
    ensures READY != REPLY && READY != HEARTBEAT && READY != DISCONNECT
    ensures REPLY != HEARTBEAT && REPLY != DISCONNECT && HEARTBEAT != DISCONNECT
  {
    assert READY[0] == 1 && REPLY[0] == 3 && HEARTBEAT[0] == 4 && DISCONNECT[0] == 5;
  }

  lemma QuietStep(b: State, i: Input, b1: State, outs: seq<Out>)
    requires Handle(b, i) == Done(b1, outs) && forall o :: o in outs ==> o.Disconnect?
    ensures Step(b, i) == Done(b1, outs)
  {
    forall o | o in outs ensures Sendable(Encode(o)) {
      EncodeIsSendable(o);
    }
  }

  lemma OneOutStep(b: State, i: Input, b1: State, o: Out)
    requires Handle(b, i) == Done(b1, [o]) && Sendable(Encode(o))
    ensures Step(b, i) == Done(b1, [o])
  {
  }

  // -------------------------------------------------------------------------------------
  // Refusal and departure

  // A worker the broker does not know is told to disconnect, whether it sends a heartbeat or
  // a reply, and leaves no trace.
  lemma StrangersAreToldToDisconnect(b: State, w: Id, command: Frame, rest: Message, now: int, clock: int)
    requires Inv(b) && IsAddress(w) && w !in b.workers && command in [REPLY, HEARTBEAT]
    ensures Step(b, Tells(w, command, rest, now, clock)) == Done(b, [Disconnect(w)])
  {
    CommandsDiffer();
    Commands(b, w, command, rest, now, clock);
    RefusalIsNeutral(b, w);
    QuietStep(b, Tells(w, command, rest, now, clock), b, [Disconnect(w)]);
  }

  // What is left of the tables when w leaves, if it was there.
  ghost predicate Leaves(b: State, b1: State, w: Id) {
    if w in b.workers then TablesWithout(b, b1, w) else b1 == b
  }

  lemma DeletedLeaves(b: State, w: Id)
    requires Inv(b)
    ensures Leaves(b, Delete(WorkerRequire(b, w), w), w)
  {
    if w in b.workers {
      DeleteGivesTablesWithout(b, w);
    } else {
      RefusalIsNeutral(b, w);
    }
  }

  // A second READY, or one from an identity that looks reserved, ends the worker's session.
  lemma ReadyAgainEndsTheSession(b: State, w: Id, rest: Message, now: int, clock: int)
    requires Inv(b) && IsAddress(w) && (w in b.workers || Reserved(w))
    ensures var f := Step(b, Tells(w, READY, rest, now, clock));
            f.Done? && f.outs == [Disconnect(w)] && Leaves(b, f.state, w)
  {
    Commands(b, w, READY, rest, now, clock);
    DeletedLeaves(b, w);
    QuietStep(b, Tells(w, READY, rest, now, clock), Delete(WorkerRequire(b, w), w), [Disconnect(w)]);
  }

  // A worker that disconnects leaves, and nobody is told.
  lemma DisconnectLeaves(b: State, w: Id, rest: Message, now: int, clock: int)
    requires Inv(b) && IsAddress(w)
    ensures var f := Step(b, Tells(w, DISCONNECT, rest, now, clock));
            f.Done? && f.outs == [] && Leaves(b, f.state, w)
  {
    CommandsDiffer();
    Commands(b, w, DISCONNECT, rest, now, clock);
    DeletedLeaves(b, w);
    QuietStep(b, Tells(w, DISCONNECT, rest, now, clock), Delete(WorkerRequire(b, w), w), []);
  }

  // A heartbeat of a registered worker moves its expiry and nothing else.
  lemma HeartbeatMovesExpiry(b: State, w: Id, rest: Message, now: int, clock: int)
    requires IsAddress(w) && w in b.workers
    ensures Step(b, Tells(w, HEARTBEAT, rest, now, clock))
            == Done(b.(workers := b.workers[w := WorkerRec(b.workers[w].service, now + 7500)]), [])
  {
    CommandsDiffer();
    Commands(b, w, HEARTBEAT, rest, now, clock);
    QuietStep(b, Tells(w, HEARTBEAT, rest, now, clock),
      b.(workers := b.workers[w := WorkerRec(b.workers[w].service, now + 7500)]), []);
  }

  // Any other command makes its sender a worker without a service, if it is none yet.
  lemma OtherCommandsRegister(b: State, w: Id, command: Frame, rest: Message, now: int, clock: int)
    requires IsAddress(w) && NulFree(command) && command !in [READY, REPLY, HEARTBEAT, DISCONNECT]
    ensures Step(b, Tells(w, command, rest, now, clock))
            == Done(if w in b.workers then b else b.(workers := b.workers[w := WorkerRec(None, 0)]), [])
  {
    Commands(b, w, command, rest, now, clock);
    QuietStep(b, Tells(w, command, rest, now, clock),
      if w in b.workers then b else b.(workers := b.workers[w := WorkerRec(None, 0)]), []);
  }

  // -------------------------------------------------------------------------------------
  // Becoming available

  // Worker w of service n is available from now on, in b1, which sent outs: it has the oldest
  // request of the service, or waits at the end of the list; if the clock of the purge is
  // past its expiry, it is gone.
  ghost predicate TakesUp(b: State, b1: State, outs: seq<Out>, w: Id, n: Name, now: int, clock: int) {
    if clock >= now + 7500 then
      outs == [] && w !in b1.workers && Requests(b1, n) == Requests(b, n)
    else
      && IsAttached(b1, n, w) && b1.workers[w].expiry == now + 7500
      && if Requests(b, n) != [] then
           && outs == [Request(w, n, Requests(b, n)[0])]
           && Requests(b1, n) == Requests(b, n)[1..]
           && w !in b1.waiting
         else
           && outs == [] && Requests(b1, n) == []
           && w in b1.waiting && n in b1.services
           && b1.services[n].waiting != [] && b1.services[n].waiting[|b1.services[n].waiting| - 1] == w
  }

  lemma ServesAtOnce(p: State, w: Id, n: Name)
    requires n in p.services && p.services[n].waiting == [w] && p.services[n].requests != []
    ensures var (b1, outs) := DispatchLoop(p, n);
            && outs == [Request(w, n, p.services[n].requests[0])]
            && Requests(b1, n) == p.services[n].requests[1..]
            && b1.workers == p.workers && w !in b1.waiting
  {
    DispatchLoopOnce(p, n);
  }

  lemma ServesLater(p: State, n: Name)
    requires n in p.services && !CanSend(p, n)
    ensures DispatchLoop(p, n) == (p, [])
  {
  }

  lemma WaitingTakesUp(b: State, w: Id, n: Name, now: int, clock: int)
    requires w in b.workers && b.workers[w].service == Some(n) && n in b.services && BalancedAt(b, n)
    ensures var f := WorkerWaiting(b, w, now, clock);
            f.Done? && TakesUp(b, f.state, f.outs, w, n, now, clock)
  {
    var b1 := Idle(b, w, now);
    assert Enqueue(b1, n, None) == b1;
    if clock >= now + 7500 {
      WaitingTooLate(b, w, n, now, clock);
    } else if b.services[n].requests != [] {
      WaitingServes(b, w, n, now, clock);
    } else {
      WaitingQueues(b, w, n, now, clock);
    }
  }

  lemma PurgedIdle(b: State, w: Id, n: Name, now: int, clock: int)
    requires w in b.workers && b.workers[w].service == Some(n) && n in b.services
    ensures var b1 := Idle(b, w, now);
            var p := Purge(b1, clock);
            && n in p.services
            && p.services[n].waiting == Live(b1, n, clock)
            && p.services[n].requests == b.services[n].requests
            && p.workers == b1.workers - Expired(b1, clock)
            && p.waiting == b1.waiting - Expired(b1, clock)
            && (w in Expired(b1, clock) <==> clock >= now + 7500)
  {
    var b1 := Idle(b, w, now);
    assert Enqueue(b1, n, None) == b1;
    PurgedTables(b1, n, None, clock);
  }

  lemma WaitingTooLate(b: State, w: Id, n: Name, now: int, clock: int)
    requires w in b.workers && b.workers[w].service == Some(n) && n in b.services && BalancedAt(b, n)
    requires clock >= now + 7500
    ensures var (b1, outs) := DispatchLoop(Purge(Idle(b, w, now), clock), n);
            outs == [] && w !in b1.workers && Requests(b1, n) == Requests(b, n)
  {
    PurgedIdle(b, w, n, now, clock);
    if b.services[n].requests != [] {
      LiveAfterIdle(b, w, n, now, clock);
    }
    ServesLater(Purge(Idle(b, w, now), clock), n);
  }

  lemma WaitingServes(b: State, w: Id, n: Name, now: int, clock: int)
    requires w in b.workers && b.workers[w].service == Some(n) && n in b.services && BalancedAt(b, n)
    requires clock < now + 7500 && b.services[n].requests != []
    ensures var (b1, outs) := DispatchLoop(Purge(Idle(b, w, now), clock), n);
            && outs == [Request(w, n, Requests(b, n)[0])] && Requests(b1, n) == Requests(b, n)[1..]
            && IsAttached(b1, n, w) && b1.workers[w].expiry == now + 7500 && w !in b1.waiting
  {
    PurgedIdle(b, w, n, now, clock);
    LiveAfterIdle(b, w, n, now, clock);
    ServesAtOnce(Purge(Idle(b, w, now), clock), w, n);
  }

  lemma WaitingQueues(b: State, w: Id, n: Name, now: int, clock: int)
    requires w in b.workers && b.workers[w].service == Some(n) && n in b.services
    requires clock < now + 7500 && b.services[n].requests == []
    ensures var (b1, outs) := DispatchLoop(Purge(Idle(b, w, now), clock), n);
            && outs == [] && Requests(b1, n) == []
            && IsAttached(b1, n, w) && b1.workers[w].expiry == now + 7500 && w in b1.waiting
            && n in b1.services && b1.services[n].waiting != []
            && b1.services[n].waiting[|b1.services[n].waiting| - 1] == w
  {
    PurgedIdle(b, w, n, now, clock);
    WithoutAppend(b.services[n].waiting, w, Expired(Idle(b, w, now), clock));
    ServesLater(Purge(Idle(b, w, now), clock), n);
  }

  // READY of a new worker: it is registered for the service it names, counted, and available.
  lemma ReadyTakesUp(b: State, w: Id, n: Name, now: int, clock: int)
    requires Inv(b) && Balanced(b) && IsAddress(w) && w !in b.workers && !Reserved(w)
    requires n != [] && NulFree(n) && !OldestRefused(b, n, now, clock)
    ensures var f := Step(b, Tells(w, READY, [n], now, clock));
            f.Done? && TakesUp(b, f.state, f.outs, w, n, now, clock)
  {
    var b1 := Attach(ServiceRequire(WorkerRequire(b, w), n), w, n);
    Commands(b, w, READY, [n], now, clock);
    CStrIsIdentityExactlyOnNulFree(n);
    assert BalancedAt(b, n) && BalancedAt(b1, n) && Requests(b1, n) == Requests(b, n);
    WaitingTakesUp(b1, w, n, now, clock);
    ReadySendsExactly(b, w, [n], now, clock);
  }

  // REPLY of a registered worker: the answer goes out first, to the address in its envelope,
  // and the worker is available again.
  lemma ReplyTakesUp(b: State, w: Id, n: Name, c: Id, reply: Message, now: int, clock: int)
    requires Inv(b) && Balanced(b) && IsAddress(w) && IsAttached(b, n, w) && NulFree(c)
    requires Sendable(reply) && !OldestRefused(b, n, now, clock)
    ensures var f := Step(b, Tells(w, REPLY, [c, []] + reply, now, clock));
            && f.Done? && f.outs != [] && f.outs[0] == Answer(c, n, reply)
            && TakesUp(b, f.state, f.outs[1..], w, n, now, clock)
  {
    var rest := [c, []] + reply;
    CommandsDiffer();
    Commands(b, w, REPLY, rest, now, clock);
    CStrIsIdentityExactlyOnNulFree(c);
    assert rest[2..] == reply;
    assert BalancedAt(b, n);
    WaitingTakesUp(b, w, n, now, clock);
    ReplySendsExactly(b, w, rest, now, clock);
    var outs := WorkerWaiting(b, w, now, clock).outs;
    assert ([Answer(c, n, reply)] + outs)[1..] == outs;
  }

  // -------------------------------------------------------------------------------------
  // Requests

  // The first of the most recently heard of in the list.
  ghost predicate FirstOfTheLatest(b: State, q: seq<Id>, w: Id) {
    exists k :: 0 <= k < |q| && q[k] == w && IsLatestAt(b, q, k)
  }

  ghost predicate IsLatestAt(b: State, q: seq<Id>, k: nat)
    requires k < |q|
  {
    && (forall j :: 0 <= j < |q| ==> Expiry(b, q[j]) <= Expiry(b, q[k]))
    && (forall j :: 0 <= j < k ==> Expiry(b, q[j]) < Expiry(b, q[k]))
  }

  // Request msg has come for service n, in b1, which sent outs. It goes out at once, to the
  // worker of the service heard of most recently, if one is left after the purge; else it is
  // queued last. Either way the workers of all services are purged.
  ghost predicate Serves(b: State, b1: State, outs: seq<Out>, n: Name, msg: Message, clock: int) {
    && b1.workers == b.workers - Expired(b, clock)
    && if HasLive(b, n, clock) then
         && |outs| == 1 && outs[0].Request? && outs[0] == Request(outs[0].worker, n, msg)
         && FirstOfTheLatest(b, Live(b, n, clock), outs[0].worker)
         && b1.waiting == b.waiting - Expired(b, clock) - {outs[0].worker}
         && Requests(b1, n) == []
       else
         && outs == [] && b1.waiting == b.waiting - Expired(b, clock)
         && Requests(b1, n) == Requests(b, n) + [msg]
  }

  // That is what a client's request brings about, whole and under the client's address.
  lemma RequestIsServedOrQueued(b: State, c: Id, n: Name, body: Message, now: int, clock: int)
    requires Inv(b) && Balanced(b) && NulFree(c) && n != [] && NulFree(n) && !Reserved(n)
    requires body != [] && Sendable(body)
    ensures var f := Step(b, Wants(c, n, body, now, clock));
            f.Done? && Serves(b, f.state, f.outs, n, [c, []] + body, clock)
  {
    var b0, msg := ServiceRequire(b, n), [c, []] + body;
    WantsHandled(b, c, n, body, now, clock);
    RequestHandled(b, c, n, body, clock);
    RequestSent(b, c, n, body, clock);
    ServiceRequireKeepsInv(b, n);
    assert BalancedAt(b, n) && BalancedAt(b0, n);
    RequestDispatched(b0, n, msg, clock);
    ServesAsBefore(b, n, msg, clock);
  }

  lemma RequestSent(b: State, c: Id, n: Name, body: Message, clock: int)
    requires Inv(b) && Balanced(b) && NulFree(c) && n != [] && NulFree(n) && !Reserved(n)
    requires body != [] && Sendable(body)
    ensures var f := ClientProcess(b, c, [n] + body, clock); f.Done? && AllSendable(f.outs)
  {
    var parts := [n] + body;
    CStrIsIdentityExactlyOnNulFree(n);
    assert parts[1..] == body && Reserved(MMI_SERVICE);
    ClientSendsExactly(b, c, parts, clock);
  }

  // A service made for the request has nobody waiting.
  lemma ServesAsBefore(b: State, n: Name, msg: Message, clock: int)
    ensures forall b1, outs :: Serves(ServiceRequire(b, n), b1, outs, n, msg, clock) ==> Serves(b, b1, outs, n, msg, clock)
  {
    if n !in b.services {
      assert Expired(ServiceRequire(b, n), clock) == Expired(b, clock);
      assert !HasLive(ServiceRequire(b, n), n, clock);
    }
  }

  lemma RequestHandled(b: State, c: Id, n: Name, body: Message, clock: int)
    requires NulFree(c) && n != [] && NulFree(n) && !Reserved(n) && body != []
    ensures var (b1, outs) := Dispatch(ServiceRequire(b, n), n, Some([c, []] + body), clock);
            ClientProcess(b, c, [n] + body, clock) == Done(b1, outs)
  {
    CStrIsIdentityExactlyOnNulFree(c);
    CStrIsIdentityExactlyOnNulFree(n);
    Pushed2(body, c, []);
    assert ([n] + body)[1..] == body;
    assert ClientProcess(b, c, [n] + body, clock) == Serve(b, n, Wrap(body, c, Some([])), clock);
  }

  lemma RequestDispatched(b: State, n: Name, msg: Message, clock: int)
    requires Inv(b) && n in b.services && BalancedAt(b, n)
    ensures var (b1, outs) := Dispatch(b, n, Some(msg), clock);
            Serves(b, b1, outs, n, msg, clock)
  {
    var p := Purge(Enqueue(b, n, Some(msg)), clock);
    PurgedTables(b, n, Some(msg), clock);
    if Live(b, n, clock) != [] {
      assert b.services[n].requests == [];
      OneRequestSent(b, n, msg, clock, p);
    } else {
      ServesLater(p, n);
    }
  }

  lemma OneRequestSent(b: State, n: Name, msg: Message, clock: int, p: State)
    requires Inv(b) && n in b.services && n in p.services && Live(b, n, clock) != []
    requires p.services[n].waiting == Live(b, n, clock) && p.services[n].requests == [msg]
    requires p.workers == b.workers - Expired(b, clock) && p.waiting == b.waiting - Expired(b, clock)
    ensures Serves(b, DispatchLoop(p, n).0, DispatchLoop(p, n).1, n, msg, clock)
  {
    var q := Live(b, n, clock);
    DispatchLoopOnce(p, n);
    var k := Best(p, q, |q|);
    LiveExpiry(b, n, clock, p);
    assert IsLatestAt(b, q, k);
  }

  lemma LiveExpiry(b: State, n: Name, clock: int, p: State)
    requires Inv(b) && n in b.services && p.workers == b.workers - Expired(b, clock)
    ensures forall w :: w in Live(b, n, clock) ==> Expiry(p, w) == Expiry(b, w)
  {
    forall w | w in Live(b, n, clock) ensures Expiry(p, w) == Expiry(b, w) {
      assert IsAttached(b, n, w);
    }
  }

  // A message with another header than the two of the protocol does nothing.
  lemma OtherHeadersDoNothing(b: State, parts: Message, now: int, clock: int)
    requires |parts| >= 3
    requires CStr(parts[2]) != [77, 68, 80, 67, 48, 49] && CStr(parts[2]) != [77, 68, 80, 87, 48, 49]
    ensures Step(b, FromPeer(parts, now, clock)) == Done(b, [])
  {
    QuietStep(b, FromPeer(parts, now, clock), b, []);
  }

  // -------------------------------------------------------------------------------------
  // Heartbeat rounds

  // A round sends one heartbeat to each worker that stays idle, and only those whose expiry is
  // past are dropped; every other worker and every request stays.
  lemma RoundBeatsTheLiving(b: State, clock: int, order: seq<Id>)
    requires Inv(b) && Enabled(b, Beat(clock, order))
    ensures var f := Step(b, Beat(clock, order));
            && f.Done?
            && (forall w :: w in f.state.waiting <==> w in b.waiting && b.workers[w].expiry > clock)
            && (forall w :: w in f.state.workers
                  <==> w in b.workers && !(w in b.waiting && b.workers[w].expiry <= clock))
            && (forall n :: Requests(f.state, n) == Requests(b, n))
            && |f.outs| == |f.state.waiting|
            && (forall w :: w in f.state.waiting <==> Heartbeat(w) in f.outs)
            && (forall o :: o in f.outs ==> o.Heartbeat?)
  {
    var f := Step(b, Beat(clock, order));
    BeatSurvives(b, clock, order);
    assert forall w :: w in b.waiting ==> IsQueued(b, w);
    assert forall i :: 0 <= i < |order| ==> f.outs[i] == Heartbeat(order[i]);
    EnumeratesAll(order, f.state.waiting);
  }

  lemma EnumeratesAll(order: seq<Id>, s: set<Id>)
    requires Enumerates(order, s)
    ensures |order| == |s|
  {
    if order == [] {
      assert s == {};
    } else {
      var n := |order| - 1;
      var rest := s - {order[n]};
      assert forall id :: id in order[..n] <==> id in rest;
      EnumeratesAll(order[..n], rest);
    }
  }

  // -------------------------------------------------------------------------------------
  // Reserved names

  const TEXT_200: Frame := [50, 48, 48]  // "200"
  const TEXT_404: Frame := [52, 48, 52]  // "404"
  const TEXT_501: Frame := [53, 48, 49]  // "501"

  // mmi.service tells whether a worker is registered for the service asked about; any other
  // reserved name gets 501. The code stands in the place of the last frame.
  ghost function CodeOf(b: State, n: Name, about: Name): (code: Frame)
    ensures NulFree(code)
  {
    if n != MMI_SERVICE then TEXT_501
    else if exists w :: IsAttached(b, about, w) then TEXT_200 else TEXT_404
  }

  lemma AnswerSendable(c: Id, n: Name, kept: Message, code: Frame)
    requires Sendable(kept) && NulFree(code)
    ensures Sendable(Encode(Answer(c, n, kept + [code])))
  {
    LastIsCode(kept, code);
    EncodeIsSendable(Answer(c, n, kept + [code]));
  }

  // A request to a reserved name is answered at once; no worker sees it.
  lemma ReservedIsAnswered(b: State, c: Id, n: Name, body: Message, now: int, clock: int)
    requires Inv(b) && NulFree(c) && NulFree(n) && Reserved(n) && body != [] && Sendable(body[..|body| - 1])
    requires n == MMI_SERVICE ==> Body(body) in b.services || Body(body) == n
    ensures Step(b, Wants(c, n, body, now, clock))
            == Done(ServiceRequire(b, n), [Answer(c, n, body[..|body| - 1] + [CodeOf(b, n, Body(body))])])
  {
    var code, b1 := CodeOf(b, n, Body(body)), ServiceRequire(b, n);
    var o := Answer(c, n, body[..|body| - 1] + [code]);
    WantsHandled(b, c, n, body, now, clock);
    ReservedServed(b, c, n, body, clock);
    AnswerSendable(c, n, body[..|body| - 1], code);
    OneOutStep(b, Wants(c, n, body, now, clock), b1, o);
  }

  lemma CodeIs(b: State, n: Name, about: Name)
    requires Inv(b) && (n == MMI_SERVICE ==> about in b.services || about == n)
    ensures CodeOf(b, n, about)
            == if n != MMI_SERVICE then CODE_501
               else if ServiceRequire(b, n).services[about].workers != 0 then CODE_200 else CODE_404
  {
    if n == MMI_SERVICE {
      ServiceRequireKeepsInv(b, n);
      CountTellsWhether(ServiceRequire(b, n), about);
      assert forall w :: IsAttached(ServiceRequire(b, n), about, w) <==> IsAttached(b, about, w);
    }
  }

  lemma ReservedServed(b: State, c: Id, n: Name, body: Message, clock: int)
    requires Inv(b) && NulFree(c) && NulFree(n) && Reserved(n) && body != []
    requires n == MMI_SERVICE ==> Body(body) in b.services || Body(body) == n
    ensures ClientProcess(b, c, [n] + body, clock)
            == Done(ServiceRequire(b, n), [Answer(c, n, body[..|body| - 1] + [CodeOf(b, n, Body(body))])])
  {
    CStrIsIdentityExactlyOnNulFree(n);
    assert ([n] + body)[1..] == body;
    ReservedInternal(b, c, n, body);
    assert ClientProcess(b, c, [n] + body, clock) == Serve(b, n, Wrap(body, c, Some([])), clock);
  }

  lemma ReservedInternal(b: State, c: Id, n: Name, body: Message)
    requires Inv(b) && NulFree(c) && body != [] && (n == MMI_SERVICE ==> Body(body) in b.services || Body(body) == n)
    ensures Internal(ServiceRequire(b, n), n, Wrap(body, c, Some([])))
            == Done(ServiceRequire(b, n), [Answer(c, n, body[..|body| - 1] + [CodeOf(b, n, Body(body))])])
  {
    CStrIsIdentityExactlyOnNulFree(c);
    BodyOfWrapped(body, c);
    CodeIs(b, n, Body(body));
    InternalFrames(body, c, CodeOf(b, n, Body(body)));
  }

  // The guard looks at the first of at least four characters, and at nothing else.
  lemma ReservedIsFirstCharacter(n: Name)
    ensures Reserved(n) <==> |n| >= 4 && ([109] <= n || [105] <= n || [46] <= n)
  {
  }
}
