// How a worker the broker has forgotten gets back into service: its heartbeat is answered by
// DISCONNECT, it opens a new connection, and the broker takes it up again.

module MajordomoRecovery {
  import opened Bytes
  import opened Mdp
  import opened BrokerSpec
  import opened BrokerRuns
  import opened BrokerCommands
  import opened MdwrkSpec
  import opened MdwrkRuns
  import opened Majordomo
  import opened MajordomoSafety

  // The broker's input when the message of a worker reaches it.
  lemma ArrivalTells(s: Sys, a: Action)
    requires Good(s) && CanDo(s, a) && a.BrokerReceives? && !s.conns[a.id].up[0].UpReply?
    ensures IsAddress(a.id)
    ensures var u := s.conns[a.id].up[0];
            InputOf(s, a) == if u.UpReady? then Tells(a.id, READY, [u.service], a.now, a.clock)
                             else Tells(a.id, HEARTBEAT, [], a.now, a.clock)
  {
    var c := s.conns[a.id];
    assert WiringOk(a.id, c) && UpOk(c.up[0]);
    UpTravels(a.id, c.up[0]);
  }

  lemma OnlyOneDown(conns: map<Id, Conn>, id: Id)
    requires id in conns && conns[id].end.Some?
    ensures RouteAll(conns, [Disconnect(id)])
            == conns[id := conns[id].(down := conns[id].down + [DownDisconnect])]
  {
    var outs := [Disconnect(id)];
    assert outs[1..] == [];
    forall x | x in conns ensures DownsTo(outs, x) == if x == id then [DownDisconnect] else [] {
      assert DownsTo(outs, x) == DownTo(outs[0], x) + [];
    }
    forall x | x in conns && x != id ensures Route(conns[x], outs, x) == conns[x] {
      assert conns[x].down + [] == conns[x].down;
    }
  }

  // A heartbeat on a connection the broker does not know brings DISCONNECT back, and nothing
  // else happens.
  lemma ForgottenWorkerIsTold(s: Sys, a: Action)
    requires Good(s) && CanDo(s, a) && a.BrokerReceives? && HasWorker(s, a.id)
    requires s.conns[a.id].up[0].UpHeartbeat? && a.id !in s.broker.workers
    ensures var c := s.conns[a.id];
            Do(s, a) == Some(s.(conns := s.conns[a.id := c.(up := c.up[1..], down := c.down + [DownDisconnect])]))
  {
    ArrivalTells(s, a);
    StrangersAreToldToDisconnect(s.broker, a.id, HEARTBEAT, [], a.now, a.clock);
    PoppedAndTold(s.conns, a.id);
  }

  lemma PoppedAndTold(conns: map<Id, Conn>, id: Id)
    requires id in conns && conns[id].end.Some? && conns[id].up != []
    ensures var c := conns[id];
            RouteAll(conns[id := c.(up := c.up[1..])], [Disconnect(id)])
            == conns[id := c.(up := c.up[1..], down := c.down + [DownDisconnect])]
  {
    var c := conns[id];
    var c1, c2 := c.(up := c.up[1..]), c.(up := c.up[1..], down := c.down + [DownDisconnect]);
    OnlyOneDown(conns[id := c1], id);
    assert conns[id := c1][id := c2] == conns[id := c2];
  }

  // The worker that is told so leaves the connection and opens another, on which READY for its
  // service is first.
  lemma ToldWorkerComesBack(s: Sys, a: Action)
    requires Good(s) && CanDo(s, a) && a.WorkerPolls? && !a.quiet && s.conns[a.id].down[0] == DownDisconnect
    ensures var c, o := s.conns[a.id], Do(s, a);
            && o.Some? && Good(o.value) && o.value.broker == s.broker
            && a.id in o.value.conns && a.newId in o.value.conns
            && o.value.conns[a.id] == Conn(None, c.up, [])
            && var c1 := o.value.conns[a.newId];
            && c1.end.Some? && c1.end.value.id == a.newId && c1.end.value.service == c.end.value.service
            && c1.up != [] && c1.up[0] == UpReady(c.end.value.service) && c1.down == []
  {
    var c := s.conns[a.id];
    assert WiringOk(a.id, c);
    ActionKeepsGood(s, a);
    DownTravels(DownDisconnect);
    var p := Poll(Some(Transfer(DownFrames(c.down[0]))), a.newId, a.connectClock, a.clock);
    DisconnectReconnects(c.end.value, p, []);
    assert p == Hearing(p, FromBroker(DISCONNECT, []));
    DisconnectTurns(s, a, p);
  }

  lemma DisconnectTurns(s: Sys, a: Action, p: Poll)
    requires CanDo(s, a) && a.WorkerPolls? && !a.quiet && Do(s, a).Some?
    requires p == Poll(Some(Transfer(DownFrames(s.conns[a.id].down[0]))), a.newId, a.connectClock, a.clock)
    requires var t := OnPoll(s.conns[a.id].end.value, p); t.Again? && t.w.id == a.newId
    ensures var t, c := OnPoll(s.conns[a.id].end.value, p), s.conns[a.id];
            Do(s, a).value == s.(conns := s.conns[a.id := Conn(None, c.up, [])][a.newId := Conn(Some(t.w), t.ups, [])])
  {
    var c := s.conns[a.id];
    var c0 := c.(down := c.down[1..]);
    assert s.conns[a.id := c0][a.id := Conn(None, c.up, [])] == s.conns[a.id := Conn(None, c.up, [])];
  }

  // READY on such a connection makes the worker available again: it is given the oldest
  // request of its service, or waits in its list.
  lemma ComesBackIntoService(s: Sys, a: Action)
    requires Good(s) && CanDo(s, a) && a.BrokerReceives? && s.conns[a.id].up[0].UpReady? && !Reserved(a.id)
    ensures var n, f := s.conns[a.id].up[0].service, Step(s.broker, InputOf(s, a));
            && Do(s, a).Some? && f == Done(Do(s, a).value.broker, f.outs)
            && TakesUp(s.broker, f.state, f.outs, a.id, n, a.now, a.clock)
  {
    var n := s.conns[a.id].up[0].service;
    assert WiringOk(a.id, s.conns[a.id]) && TokensOk(s.broker, a.id, s.conns[a.id]) && UpOk(s.conns[a.id].up[0]);
    ArrivalTells(s, a);
    assert Requests(s.broker, n) != [] ==> Requests(s.broker, n)[0] in Requests(s.broker, n);
    ReadyTakesUp(s.broker, a.id, n, a.now, a.clock);
    ActionKeepsGood(s, a);
  }

  // The three together, for a worker whose channel is otherwise empty: heartbeat, DISCONNECT,
  // new connection, READY.
  lemma ForgottenWorkersComeBack(s: Sys, id: Id, newId: Id, t0: int, t1: int, t2: int, t3: int, t4: int, t5: int)
    requires Good(s) && HasWorker(s, id) && id !in s.broker.workers
    requires s.conns[id].end.value.replyTo == [] && s.conns[id].down == []
    requires s.conns[id].up != [] && s.conns[id].up[0].UpHeartbeat?
    requires Fresh(s, newId) && !Reserved(newId)
    ensures var n := s.conns[id].end.value.service;
            var told := Do(s, BrokerReceives(id, t0, t1));
            && told.Some? && CanDo(told.value, WorkerPolls(id, false, newId, t2, t3))
            && var back := Do(told.value, WorkerPolls(id, false, newId, t2, t3));
            && back.Some? && CanDo(back.value, BrokerReceives(newId, t4, t5))
            && var served := Do(back.value, BrokerReceives(newId, t4, t5));
            && served.Some?
            && TakesUp(s.broker, served.value.broker, OutsAt(back.value, newId, t4, t5), newId, n, t4, t5)
  {
    var receive, poll, again := BrokerReceives(id, t0, t1), WorkerPolls(id, false, newId, t2, t3), BrokerReceives(newId, t4, t5);
    ForgottenWorkerIsTold(s, receive);
    ActionKeepsGood(s, receive);
    var s1 := Do(s, receive).value;
    assert s1.conns[id].down == [DownDisconnect];
    ToldWorkerComesBack(s1, poll);
    ComesBackIntoService(Do(s1, poll).value, again);
  }

  ghost function OutsAt(s: Sys, id: Id, now: int, clock: int): seq<Out>
    requires CanDo(s, BrokerReceives(id, now, clock))
  {
    match Step(s.broker, InputOf(s, BrokerReceives(id, now, clock)))
    case Done(_, outs) => outs
    case Crash(_) => []
  }
}
