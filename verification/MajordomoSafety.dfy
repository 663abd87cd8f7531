// Safety of the composed system: in every run the broker survives, no worker fails an
// assert, and each connection carries at most one piece of work.

module MajordomoSafety {
  import opened Bytes
  import opened Frames
  import opened Mdp
  import opened BrokerSpec
  import opened BrokerInvariants
  import opened BrokerRuns
  import opened BrokerConforming
  import opened BrokerWork
  import opened MdwrkSpec
  import opened Majordomo

  // -------------------------------------------------------------------------------------
  // Changing one connection

  lemma ChangeConn(s: Sys, id: Id, c: Conn)
    requires Good(s) && id in s.conns
    requires WiringOk(id, c) && TokensOk(s.broker, id, c)
    ensures Good(s.(conns := s.conns[id := c]))
  {
  }

  lemma AddConn(s: Sys, id: Id, c: Conn)
    requires Good(s) && Fresh(s, id)
    requires WiringOk(id, c) && TokensOk(s.broker, id, c)
    ensures Good(s.(conns := s.conns[id := c]))
  {
  }

  lemma UpsOkConcat(up: seq<Up>, more: seq<Up>)
    requires UpsOk(up) && forall i :: 0 <= i < |more| ==> UpOk(more[i]) && !more[i].UpReady?
    ensures UpsOk(up + more)
  {
  }

  // A connection as a worker opens it: READY in flight, and perhaps a heartbeat.
  lemma OpenedIsOk(b: State, id: Id, w: Wrk, ups: seq<Up>)
    requires EndOk(w, id) && GoodName(id) && w.replyTo == [] && id !in b.workers
    requires ups == [UpReady(w.service)] || ups == [UpReady(w.service), UpHeartbeat]
    ensures WiringOk(id, Conn(Some(w), ups, [])) && TokensOk(b, id, Conn(Some(w), ups, []))
  {
    var heartbeat: seq<Up> := [UpHeartbeat];
    assert heartbeat[1..] == [] && CountReplies(heartbeat) == 0;
    assert ups[1..] == [] || ups[1..] == heartbeat;
    assert CountReplies(ups) == 0;
  }

  // A connection whose worker has gone.
  lemma ClosedIsOk(b: State, id: Id, c: Conn, kept: nat)
    requires WiringOk(id, c) && TokensOk(b, id, c) && kept <= |c.up|
    ensures WiringOk(id, Conn(None, c.up[..kept], [])) && TokensOk(b, id, Conn(None, c.up[..kept], []))
  {
    assert c.up == c.up[..kept] + c.up[kept..];
    CountRepliesConcat(c.up[..kept], c.up[kept..]);
  }

  // -------------------------------------------------------------------------------------
  // Worker actions

  lemma DownTravels(d: Down)
    requires DownOk(d)
    ensures var command := if d.DownRequest? then REQUEST else if d.DownHeartbeat? then HEARTBEAT else DISCONNECT;
            Transfer(DownFrames(d))
            == [[], MDPW_WORKER, command] + (if d.DownRequest? then d.payload else [])
  {
    var command := if d.DownRequest? then REQUEST else if d.DownHeartbeat? then HEARTBEAT else DISCONNECT;
    var payload := if d.DownRequest? then d.payload else [];
    WorkerSendFrames([], command, payload);
    assert DownFrames(d) == [[], MDPW_WORKER, command] + payload;
    HeadTravels(command, payload);
  }

  // What a turn without a message for the worker sends, on the same connection or a new one.
  ghost predicate TurnOk(w: Wrk, ups: seq<Up>, id: Id, newId: Id) {
    && w.replyTo == []
    && ((EndOk(w, id) && (ups == [] || ups == [UpHeartbeat]))
        || (EndOk(w, newId) && (ups == [UpReady(w.service)] || ups == [UpReady(w.service), UpHeartbeat])))
  }

  lemma TurnedIsGood(s: Sys, id: Id, w: Wrk, ups: seq<Up>, newId: Id)
    requires Good(s) && HasWorker(s, id) && Fresh(s, newId) && s.conns[id].end.value.replyTo == []
    requires TurnOk(w, ups, id, newId)
    ensures Good(Turned(s, id, w, ups))
  {
    var c := s.conns[id];
    if w.id == id {
      UpsOkConcat(c.up, ups);
      CountRepliesConcat(c.up, ups);
      assert ups == [UpHeartbeat] ==> ups[1..] == [];
      ChangeConn(s, id, c.(end := Some(w), up := c.up + ups));
    } else {
      ClosedIsOk(s.broker, id, c, |c.up|);
      assert c.up[..|c.up|] == c.up;
      var s1 := s.(conns := s.conns[id := Conn(None, c.up, [])]);
      ChangeConn(s, id, Conn(None, c.up, []));
      OpenedIsOk(s.broker, newId, w, ups);
      AddConn(s1, newId, Conn(Some(w), ups, []));
    }
  }

  // Such a turn, from a connection that is otherwise in order.
  lemma TurnKeepsGood(s: Sys, id: Id, t: Turn, newId: Id)
    requires Good(s) && HasWorker(s, id) && Fresh(s, newId) && s.conns[id].end.value.replyTo == []
    requires t.Again? && TurnOk(t.w, t.ups, id, newId)
    ensures AfterTurn(s, id, t).Some? && Good(AfterTurn(s, id, t).value)
  {
    TurnIs(s, id, t);
    TurnedIsGood(s, id, t.w, t.ups, newId);
  }

  lemma ReconnectTurn(w: Wrk, id: Id, p: Poll)
    requires EndOk(w.(liveness := HEARTBEAT_LIVENESS), id) && w.replyTo == []
    ensures var t := Reconnect(w, p);
            && t.Again? && t.w.service == w.service && t.w.replyTo == [] && EndOk(t.w, p.newId)
            && (t.ups == [UpReady(t.w.service)] || t.ups == [UpReady(t.w.service), UpHeartbeat])
  {
    assert [UpReady(w.service)] + [UpHeartbeat] == [UpReady(w.service), UpHeartbeat];
  }

  lemma CheckTurn(w: Wrk, id: Id, p: Poll)
    requires EndOk(w, id) && w.replyTo == []
    ensures var t := CheckHeartbeat(w, [], p.clock);
            && t.Again? && t.w.service == w.service && t.w.replyTo == [] && EndOk(t.w, id)
            && (t.ups == [] || t.ups == [UpHeartbeat])
  {
    assert [] + [UpHeartbeat] == [UpHeartbeat];
  }

  lemma QuietPollKeepsGood(s: Sys, id: Id, p: Poll)
    requires Good(s) && HasWorker(s, id) && Fresh(s, p.newId) && s.conns[id].end.value.replyTo == []
    requires p.incoming.None?
    ensures var r := AfterTurn(s, id, OnPoll(s.conns[id].end.value, p)); r.Some? && Good(r.value)
  {
    var w := s.conns[id].end.value;
    assert WiringOk(id, s.conns[id]);
    if w.liveness == 1 {
      ReconnectTurn(w.(liveness := 0), id, p);
    } else {
      CheckTurn(w.(liveness := w.liveness - 1), id, p);
    }
    TurnKeepsGood(s, id, OnPoll(w, p), p.newId);
  }

  // Taking a message that is no request off the channel.
  lemma PopDown(s: Sys, id: Id)
    requires Good(s) && HasWorker(s, id) && s.conns[id].down != [] && !s.conns[id].down[0].DownRequest?
    ensures Good(s.(conns := s.conns[id := s.conns[id].(down := s.conns[id].down[1..])]))
  {
    var c := s.conns[id];
    assert WiringOk(id, c) && TokensOk(s.broker, id, c);
    ChangeConn(s, id, c.(down := c.down[1..]));
  }

  lemma ControlPollKeepsGood(s: Sys, id: Id, p: Poll)
    requires Good(s) && HasWorker(s, id) && Fresh(s, p.newId) && s.conns[id].end.value.replyTo == []
    requires s.conns[id].down != [] && !s.conns[id].down[0].DownRequest?
    requires p.incoming == Some(Transfer(DownFrames(s.conns[id].down[0])))
    ensures var c := s.conns[id];
            var s1 := s.(conns := s.conns[id := c.(down := c.down[1..])]);
            var r := AfterTurn(s1, id, OnPoll(c.end.value, p)); r.Some? && Good(r.value)
  {
    var c := s.conns[id];
    var s1 := s.(conns := s.conns[id := c.(down := c.down[1..])]);
    assert WiringOk(id, c);
    PopDown(s, id);
    ControlTurn(c.end.value, id, p, c.down[0]);
    TurnKeepsGood(s1, id, OnPoll(c.end.value, p), p.newId);
  }

  lemma ControlTurn(w: Wrk, id: Id, p: Poll, d: Down)
    requires EndOk(w, id) && w.replyTo == [] && !d.DownRequest?
    requires p.incoming == Some(Transfer(DownFrames(d)))
    ensures var t := OnPoll(w, p);
            t.Again? && TurnOk(t.w, t.ups, id, p.newId)
  {
    DownTravels(d);
    var w1 := w.(liveness := HEARTBEAT_LIVENESS);
    if d.DownDisconnect? {
      ReconnectTurn(w1, id, p);
    } else {
      CheckTurn(w1, id, p);
    }
  }

  lemma RequestPollKeepsGood(s: Sys, id: Id, p: Poll)
    requires Good(s) && HasWorker(s, id) && s.conns[id].end.value.replyTo == []
    requires s.conns[id].down != [] && s.conns[id].down[0].DownRequest?
    requires p.incoming == Some(Transfer(DownFrames(s.conns[id].down[0])))
    ensures var c := s.conns[id];
            var s1 := s.(conns := s.conns[id := c.(down := c.down[1..])]);
            var r := AfterTurn(s1, id, OnPoll(c.end.value, p)); r.Some? && Good(r.value)
  {
    var c := s.conns[id];
    var payload := c.down[0].payload;
    assert WiringOk(id, c) && TokensOk(s.broker, id, c);
    assert DownOk(c.down[0]);
    DownTravels(c.down[0]);
    var parts := Transfer(DownFrames(c.down[0]));
    assert parts[3..] == payload;
    var w1 := c.end.value.(liveness := HEARTBEAT_LIVENESS, replyTo := UnwrapAddress(payload));
    assert OnPoll(c.end.value, p) == Got(w1, UnwrapRest(payload));
    var c1 := Conn(Some(w1), c.up, c.down[1..]);
    assert Tokens(c1) == Tokens(c);
    ChangeConn(s, id, c1);
  }

  lemma WorkerPollsKeepsGood(s: Sys, a: Action)
    requires Good(s) && CanDo(s, a) && a.WorkerPolls?
    ensures Do(s, a).Some? && Good(Do(s, a).value)
  {
    var c := s.conns[a.id];
    if a.quiet {
      QuietPollKeepsGood(s, a.id, Poll(None, a.newId, a.connectClock, a.clock));
    } else {
      var p := Poll(Some(Transfer(DownFrames(c.down[0]))), a.newId, a.connectClock, a.clock);
      if c.down[0].DownRequest? {
        RequestPollKeepsGood(s, a.id, p);
      } else {
        ControlPollKeepsGood(s, a.id, p);
      }
    }
  }

  lemma RepliedIsOk(b: State, id: Id, c: Conn, payload: Message)
    requires WiringOk(id, c) && TokensOk(b, id, c) && c.end.Some? && c.end.value.replyTo != []
    requires GoodEnvelope(payload)
    ensures var c1 := c.(end := Some(c.end.value.(expectReply := true, replyTo := [])), up := c.up + [UpReply(payload)]);
            WiringOk(id, c1) && TokensOk(b, id, c1)
  {
    UpsOkConcat(c.up, [UpReply(payload)]);
    CountRepliesConcat(c.up, [UpReply(payload)]);
    assert [UpReply(payload)][1..] == [];
  }

  // The connection once its worker has answered.
  function Replied(c: Conn, body: Message): Conn
    requires c.end.Some?
  {
    var w := c.end.value;
    c.(end := Some(w.(expectReply := true, replyTo := [])), up := c.up + [UpReply([w.replyTo, []] + body)])
  }

  lemma RepliesAre(s: Sys, a: Action)
    requires Good(s) && CanDo(s, a) && a.WorkerReplies?
    ensures Do(s, a) == Some(s.(conns := s.conns[a.id := Replied(s.conns[a.id], a.body)]))
  {
    var w := s.conns[a.id].end.value;
    assert WiringOk(a.id, s.conns[a.id]);
    CStrIsIdentityExactlyOnNulFree(w.replyTo);
    Pushed2(a.body, w.replyTo, []);
    var payload := [w.replyTo, []] + a.body;
    assert Wrap(a.body, w.replyTo, Some([])) == payload;
    TransferIsFaithful(a.body);
    SendableAfterStrings([w.replyTo, []], a.body);
    ReplySendable(payload);
  }

  lemma WorkerRepliesKeepsGood(s: Sys, a: Action)
    requires Good(s) && CanDo(s, a) && a.WorkerReplies?
    ensures Do(s, a).Some? && Good(Do(s, a).value)
  {
    var c := s.conns[a.id];
    assert WiringOk(a.id, c) && TokensOk(s.broker, a.id, c);
    RepliesAre(s, a);
    AllTravelConcat([c.end.value.replyTo, []], a.body);
    RepliedIsOk(s.broker, a.id, c, [c.end.value.replyTo, []] + a.body);
    ChangeConn(s, a.id, Replied(c, a.body));
  }

  lemma NewWorkerKeepsGood(s: Sys, a: Action)
    requires Good(s) && CanDo(s, a) && a.NewWorker?
    ensures Do(s, a).Some? && Good(Do(s, a).value)
  {
    var w := Begin(Connect(Wrk(a.id, a.service, 0, 0, a.heartbeat, false, []), a.id, a.clock), None).0;
    OpenedIsOk(s.broker, a.id, w, [UpReady(a.service)]);
    AddConn(s, a.id, Conn(Some(w), [UpReady(a.service)], []));
  }

  lemma EndingKeepsGood(s: Sys, a: Action)
    requires Good(s) && CanDo(s, a) && (a.WorkerDies? || a.Lose?)
    ensures Do(s, a).Some? && Good(Do(s, a).value)
  {
    var c := s.conns[a.id];
    var kept := if a.Lose? then a.kept else |c.up|;
    assert c.up[..|c.up|] == c.up;
    ClosedIsOk(s.broker, a.id, c, kept);
    ChangeConn(s, a.id, Conn(None, c.up[..kept], []));
  }

  // -------------------------------------------------------------------------------------
  // Broker actions

  lemma DownCount(o: Out, x: Id)
    ensures CountRequests(DownTo(o, x)) == if o.Request? && o.worker == x then 1 else 0
  {
    if DownTo(o, x) != [] {
      assert DownTo(o, x)[1..] == [];
    }
  }

  lemma DownsCount(outs: seq<Out>, x: Id)
    requires forall i, j :: 0 <= i < j < |outs| ==> !(outs[i].Request? && outs[j].Request?)
    ensures CountRequests(DownsTo(outs, x)) <= 1
    ensures CountRequests(DownsTo(outs, x)) == 1 ==> exists i :: 0 <= i < |outs| && outs[i].Request? && outs[i].worker == x
  {
    if outs != [] {
      var rest := outs[1..];
      DownsCount(rest, x);
      DownCount(outs[0], x);
      CountRequestsConcat(DownTo(outs[0], x), DownsTo(rest, x));
      if i :| 0 <= i < |rest| && rest[i].Request? && rest[i].worker == x {
        assert outs[i + 1] == rest[i];
      }
    }
  }

  lemma DownsAreOk(outs: seq<Out>, x: Id)
    requires forall o :: o in outs && o.Request? ==> GoodEnvelope(o.payload)
    ensures forall i :: 0 <= i < |DownsTo(outs, x)| ==> DownOk(DownsTo(outs, x)[i])
  {
    if outs != [] {
      assert outs[0] in outs;
      DownsAreOk(outs[1..], x);
    }
  }

  // What holds of a connection just before the broker's answers are put on it.
  ghost predicate TokensBefore(b: State, x: Id, c: Conn, who: set<Id>) {
    && Tokens(c) <= 1
    && (Tokens(c) == 1 ==> x in b.workers && x !in b.waiting && x !in who)
    && (Announced(c) ==> x !in b.workers && x !in who && Tokens(c) == 0)
  }

  lemma RouteKeepsTokens(b: State, b1: State, outs: seq<Out>, who: set<Id>, clock: int, x: Id, c: Conn)
    requires Inv(b) && WorkEffect(b, b1, outs, who, clock) && TokensBefore(b, x, c, who)
    ensures TokensOk(b1, x, Route(c, outs, x))
  {
    var c1 := Route(c, outs, x);
    DownsCount(outs, x);
    if c.end.Some? {
      CountRequestsConcat(c.down, DownsTo(outs, x));
      if i :| 0 <= i < |outs| && outs[i].Request? && outs[i].worker == x {
        assert outs[i] in outs;
        assert x in b.waiting ==> IsQueued(b, x);
        assert WellChosen(b1, outs[i], clock);
      }
    }
  }

  lemma RouteKeepsWiring(outs: seq<Out>, x: Id, c: Conn)
    requires WiringOk(x, c) && forall o :: o in outs && o.Request? ==> GoodEnvelope(o.payload)
    ensures WiringOk(x, Route(c, outs, x))
  {
    DownsAreOk(outs, x);
  }

  // The requests a step sends on or keeps were queued before or came with the input.
  lemma StepKeepsQueuesOk(b: State, i: Input)
    requires QueuesOk(b) && Step(b, i).Done? && forall n, m :: m in Accepted(i, n) ==> GoodEnvelope(m)
    ensures QueuesOk(Step(b, i).state)
    ensures forall o :: o in Step(b, i).outs && o.Request? ==> GoodEnvelope(o.payload)
  {
    var b1, outs := Step(b, i).state, Step(b, i).outs;
    forall n, m | m in Requests(b1, n) ensures GoodEnvelope(m) {
      HandleConserves(b, i, n);
      assert m in Requests(b, n) + Accepted(i, n);
    }
    forall o | o in outs && o.Request? ensures GoodEnvelope(o.payload) {
      HandleConserves(b, i, o.service);
      RequestIsDispatched(outs, o);
      assert o.payload in Requests(b, o.service) + Accepted(i, o.service);
    }
  }

  lemma BrokerStepKeepsGood(s: Sys, i: Input, conns: map<Id, Conn>, clients: set<Id>)
    requires Exact(s.broker) && QueuesOk(s.broker) && Conforming(s.broker, i)
    requires forall n, m :: m in Accepted(i, n) ==> GoodEnvelope(m)
    requires s.broker.workers.Keys + Speaker(i) <= conns.Keys && conns.Keys !! clients
    requires forall x :: x in conns ==> WiringOk(x, conns[x]) && TokensBefore(s.broker, x, conns[x], Speaker(i))
    ensures BrokerStep(s, i, conns, clients).Some? && Good(BrokerStep(s, i, conns, clients).value)
  {
    ConformingStepKeepsExact(s.broker, i);
    ConformingStepEffect(s.broker, i);
    StepKeepsQueuesOk(s.broker, i);
    var b1, outs := Step(s.broker, i).state, Step(s.broker, i).outs;
    var conns1 := RouteAll(conns, outs);
    forall x | x in conns1 ensures WiringOk(x, conns1[x]) && TokensOk(b1, x, conns1[x]) {
      RouteKeepsWiring(outs, x, conns[x]);
      RouteKeepsTokens(s.broker, b1, outs, Speaker(i), i.clock, x, conns[x]);
    }
  }

  // What the broker reads of a worker's message.
  lemma UpTravels(id: Id, u: Up)
    requires UpOk(u)
    ensures var command := if u.UpReady? then READY else if u.UpReply? then REPLY else HEARTBEAT;
            [id] + Transfer(EncodeUp(u))
            == [id, [], MDPW_WORKER, command]
               + (if u.UpReady? then [u.service] else if u.UpReply? then u.payload else [])
  {
    var command := if u.UpReady? then READY else if u.UpReply? then REPLY else HEARTBEAT;
    Prefixed(id, [[], MDPW_WORKER, command], if u.UpReady? then [u.service] else if u.UpReply? then u.payload else []);
    assert [id] + [[], MDPW_WORKER, command] == [id, [], MDPW_WORKER, command];
    match u
    case UpReady(service) =>
      UpReadyFrames(service);
      CStrIsIdentityExactlyOnNulFree(service);
      assert EncodeUp(u) == [[], MDPW_WORKER, READY] + [service];
      HeadTravels(READY, [service]);
    case UpReply(payload) =>
      SendToBrokerFrames(REPLY, payload);
      HeadTravels(REPLY, payload);
    case UpHeartbeat =>
      SendToBrokerFrames(HEARTBEAT, []);
      HeadTravels(HEARTBEAT, []);
  }

  lemma HeadTravels(command: Frame, rest: Message)
    requires command in [READY, REQUEST, REPLY, HEARTBEAT, DISCONNECT] && AllTravel(rest)
    ensures Transfer([[], MDPW_WORKER, command] + rest) == [[], MDPW_WORKER, command] + rest
  {
    AllTravelConcat([[], MDPW_WORKER, command], rest);
    TransferIsFaithful([[], MDPW_WORKER, command] + rest);
  }

  lemma ArrivalSpeaks(id: Id, u: Up, now: int, clock: int)
    requires GoodName(id) && UpOk(u)
    ensures var i := FromPeer([id] + Transfer(EncodeUp(u)), now, clock);
            && Sendable(i.parts) && |i.parts| >= 4
            && CStr(i.parts[0]) == id && CStr(i.parts[2]) == MDPW_WORKER && CStr(i.parts[2]) != MDPC_CLIENT
            && CStr(i.parts[3]) == (if u.UpReady? then READY else if u.UpReply? then REPLY else HEARTBEAT)
            && i.parts[4..] == if u.UpReady? then [u.service] else if u.UpReply? then u.payload else []
  {
    UpTravels(id, u);
    var parts := [id] + Transfer(EncodeUp(u));
    var rest := if u.UpReady? then [u.service] else if u.UpReply? then u.payload else [];
    assert MDPC_CLIENT[3] != MDPW_WORKER[3];
    AllTravelConcat([id, [], MDPW_WORKER, parts[3]], rest);
    TransferIsFaithful(parts);
  }

  lemma ArrivalConforms(b: State, id: Id, u: Up, now: int, clock: int)
    requires GoodName(id) && UpOk(u) && (u.UpReply? ==> id !in b.waiting)
    ensures var i := FromPeer([id] + Transfer(EncodeUp(u)), now, clock);
            && Conforming(b, i)
            && Speaker(i) == (if u.UpHeartbeat? then {} else {id})
            && forall n :: Accepted(i, n) == []
  {
    ArrivalSpeaks(id, u, now, clock);
    var parts: Message := [id] + Transfer(EncodeUp(u));
    var rest: Message := parts[3..];
    assert rest[0] == parts[3];
    assert rest[1..] == parts[4..];
    assert READY != HEARTBEAT && REPLY != HEARTBEAT by {
      assert READY[0] != HEARTBEAT[0] && REPLY[0] != HEARTBEAT[0];
    }
  }

  // The connection with the message the broker has just taken off it.
  lemma PoppedUp(b: State, id: Id, c: Conn)
    requires WiringOk(id, c) && TokensOk(b, id, c) && c.up != []
    ensures var c1 := c.(up := c.up[1..]);
            && WiringOk(id, c1)
            && !Announced(c1)
            && Tokens(c) == Tokens(c1) + (if c.up[0].UpReply? then 1 else 0)
  {
  }

  lemma BrokerReceivesKeepsGood(s: Sys, a: Action)
    requires Good(s) && CanDo(s, a) && a.BrokerReceives?
    ensures Do(s, a).Some? && Good(Do(s, a).value)
  {
    var c := s.conns[a.id];
    var u, i := c.up[0], InputOf(s, a);
    var conns := s.conns[a.id := c.(up := c.up[1..])];
    assert WiringOk(a.id, c) && TokensOk(s.broker, a.id, c) && UpOk(u);
    PoppedUp(s.broker, a.id, c);
    ArrivalConforms(s.broker, a.id, u, a.now, a.clock);
    forall x | x in conns ensures WiringOk(x, conns[x]) && TokensBefore(s.broker, x, conns[x], Speaker(i)) {
      assert WiringOk(x, s.conns[x]) && TokensOk(s.broker, x, s.conns[x]);
    }
    BrokerStepKeepsGood(s, i, conns, s.clients);
  }

  lemma AskArrives(client: Id, service: Name, body: Message)
    requires GoodName(client) && GoodName(service) && AllTravel(body)
    ensures [client] + Transfer([[], MDPC_CLIENT, service] + body) == [client, [], MDPC_CLIENT, service] + body
    ensures Sendable([client, [], MDPC_CLIENT, service] + body)
  {
    var head: Message := [[], MDPC_CLIENT, service];
    var whole: Message := [client, [], MDPC_CLIENT, service];
    AllTravelConcat(head, body);
    TransferIsFaithful(head + body);
    AllTravelConcat(whole, body);
    TransferIsFaithful(whole + body);
  }

  lemma AskAccepted(client: Id, service: Name, body: Message, clock: int, n: Name)
    requires GoodName(client) && GoodName(service) && AllTravel(body)
    ensures var i := FromPeer([client] + Transfer([[], MDPC_CLIENT, service] + body), clock, clock);
            Accepted(i, n) == if body != [] && n == service && !Reserved(n) then [[client, []] + body] else []
  {
    AskArrives(client, service, body);
    AcceptedRequest(client, service, body, clock, clock, n);
  }

  lemma AskedConforms(b: State, client: Id, service: Name, body: Message, clock: int)
    requires GoodName(client) && GoodName(service) && body != [] && AllTravel(body)
    requires service == MMI_SERVICE ==> Body(body) in b.services || Body(body) == MMI_SERVICE
    ensures var i := FromPeer([client, [], MDPC_CLIENT, service] + body, clock, clock);
            Conforming(b, i) && Speaker(i) == {}
  {
    AskArrives(client, service, body);
    var parts := [client, [], MDPC_CLIENT, service] + body;
    assert parts[3..] == [service] + body;
    assert Body([service] + body) == Body(body);
    assert MDPC_CLIENT[3] != MDPW_WORKER[3];
    CStrIsIdentityExactlyOnNulFree(service);
  }

  lemma AskConforms(s: Sys, a: Action)
    requires CanDo(s, a) && a.ClientAsks?
    ensures var i := InputOf(s, a);
            && Conforming(s.broker, i) && Speaker(i) == {}
            && forall n, m :: m in Accepted(i, n) ==> GoodEnvelope(m)
  {
    AskArrives(a.client, a.service, a.body);
    AskedConforms(s.broker, a.client, a.service, a.body, a.clock);
    AllTravelConcat([a.client, []], a.body);
    forall n, m | m in Accepted(InputOf(s, a), n) ensures GoodEnvelope(m) {
      AskAccepted(a.client, a.service, a.body, a.clock, n);
    }
  }

  lemma ClientAsksKeepsGood(s: Sys, a: Action)
    requires Good(s) && CanDo(s, a) && a.ClientAsks?
    ensures Do(s, a).Some? && Good(Do(s, a).value)
  {
    AskConforms(s, a);
    forall x | x in s.conns ensures TokensBefore(s.broker, x, s.conns[x], {}) {
      assert TokensOk(s.broker, x, s.conns[x]);
    }
    BrokerStepKeepsGood(s, InputOf(s, a), s.conns, s.clients + {a.client});
  }

  lemma BrokerBeatsKeepsGood(s: Sys, a: Action)
    requires Good(s) && CanDo(s, a) && a.BrokerBeats?
    ensures Do(s, a).Some? && Good(Do(s, a).value)
  {
    forall x | x in s.conns ensures TokensBefore(s.broker, x, s.conns[x], {}) {
      assert TokensOk(s.broker, x, s.conns[x]);
    }
    BrokerStepKeepsGood(s, InputOf(s, a), s.conns, s.clients);
  }

  // -------------------------------------------------------------------------------------
  // Runs

  // No action makes the broker die or a worker fail an assert, and each keeps the invariant.
  lemma ActionKeepsGood(s: Sys, a: Action)
    requires Good(s) && CanDo(s, a)
    ensures Do(s, a).Some? && Good(Do(s, a).value)
  {
    match a
    case NewWorker(_, _, _, _) => NewWorkerKeepsGood(s, a);
    case WorkerPolls(_, _, _, _, _) => WorkerPollsKeepsGood(s, a);
    case WorkerReplies(_, _) => WorkerRepliesKeepsGood(s, a);
    case WorkerDies(_) => EndingKeepsGood(s, a);
    case Lose(_, _) => EndingKeepsGood(s, a);
    case BrokerReceives(_, _, _) => BrokerReceivesKeepsGood(s, a);
    case ClientAsks(_, _, _, _) => ClientAsksKeepsGood(s, a);
    case BrokerBeats(_, _) => BrokerBeatsKeepsGood(s, a);
  }

  // A history: states from the empty system, each reached from the one before by an action.
  ghost predicate IsRun(states: seq<Sys>, actions: seq<Action>) {
    && |states| == |actions| + 1
    && states[0] == START
    && forall k :: 0 <= k < |actions| ==>
         CanDo(states[k], actions[k]) && Do(states[k], actions[k]) == Some(states[k + 1])
  }

  lemma {:induction false} RunsAreGood(states: seq<Sys>, actions: seq<Action>, k: nat)
    requires IsRun(states, actions) && k < |states|
    ensures Good(states[k])
  {
    if k == 0 {
      StartIsGood();
    } else {
      RunsAreGood(states, actions, k - 1);
      ActionKeepsGood(states[k - 1], actions[k - 1]);
    }
  }

  // In every state of every run a connection carries at most one token, and none while its
  // identity is idle or unregistered; whatever happens next, nothing fails an assert.
  lemma AtMostOneToken(states: seq<Sys>, actions: seq<Action>, k: nat, id: Id)
    requires IsRun(states, actions) && k < |states| && id in states[k].conns
    ensures var s := states[k];
            && Tokens(s.conns[id]) <= 1
            && (id in s.broker.waiting || id !in s.broker.workers ==> Tokens(s.conns[id]) == 0)
    ensures forall a :: CanDo(states[k], a) ==> Do(states[k], a).Some?
  {
    RunsAreGood(states, actions, k);
    assert TokensOk(states[k].broker, id, states[k].conns[id]);
    forall a | CanDo(states[k], a) ensures Do(states[k], a).Some? {
      ActionKeepsGood(states[k], a);
    }
  }

  lemma BusyThroughStep(s: Sys, i: Input, conns: map<Id, Conn>, clients: set<Id>, id: Id)
    requires Exact(s.broker) && Conforming(s.broker, i)
    requires Busy(s.broker, id) && id !in Speaker(i)
    ensures var s1 := BrokerStep(s, i, conns, clients); s1.Some? && Busy(s1.value.broker, id)
  {
    ConformingStepEffect(s.broker, i);
  }

  ghost predicate Busy(b: State, id: Id) {
    id in b.workers && id !in b.waiting
  }

  lemma BusyThroughArrival(s: Sys, a: Action, id: Id)
    requires Good(s) && CanDo(s, a) && a.BrokerReceives? && Busy(s.broker, id)
    ensures Do(s, a).Some?
    ensures Busy(Do(s, a).value.broker, id) || (a.id == id && s.conns[id].up[0].UpReply?)
  {
    var c := s.conns[a.id];
    assert WiringOk(a.id, c) && TokensOk(s.broker, a.id, c) && UpOk(c.up[0]);
    ArrivalConforms(s.broker, a.id, c.up[0], a.now, a.clock);
    if id !in Speaker(InputOf(s, a)) {
      BusyThroughStep(s, InputOf(s, a), s.conns[a.id := c.(up := c.up[1..])], s.clients, id);
    } else {
      ActionKeepsGood(s, a);
    }
  }

  lemma BusyThroughBroker(s: Sys, a: Action, id: Id)
    requires Good(s) && CanDo(s, a) && (a.ClientAsks? || a.BrokerBeats?) && Busy(s.broker, id)
    ensures Do(s, a).Some? && Busy(Do(s, a).value.broker, id)
  {
    if a.ClientAsks? {
      AskConforms(s, a);
      BusyThroughStep(s, InputOf(s, a), s.conns, s.clients + {a.client}, id);
    } else {
      BusyThroughStep(s, InputOf(s, a), s.conns, s.clients, id);
    }
  }

  lemma WorkersLeaveBrokerAlone(s: Sys, a: Action)
    requires CanDo(s, a) && !a.BrokerReceives? && !a.ClientAsks? && !a.BrokerBeats?
    ensures Do(s, a).Some? ==> Do(s, a).value.broker == s.broker
  {
  }

  // A registered worker that is not idle stays registered and busy until its own message
  // arrives, and that message is its REPLY.
  lemma BusyWorkersStay(s: Sys, a: Action, id: Id)
    requires Good(s) && CanDo(s, a) && Busy(s.broker, id)
    ensures Do(s, a).Some?
    ensures Busy(Do(s, a).value.broker, id) || (a.BrokerReceives? && a.id == id && s.conns[id].up[0].UpReply?)
  {
    if a.BrokerReceives? {
      BusyThroughArrival(s, a, id);
    } else if a.ClientAsks? || a.BrokerBeats? {
      BusyThroughBroker(s, a, id);
    } else {
      ActionKeepsGood(s, a);
      WorkersLeaveBrokerAlone(s, a);
    }
  }
}
