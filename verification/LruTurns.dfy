// The broker loop inside the LRU protocol: a turn of the loop is a poll and the steps that
// handle what it reports, and what it sends is what then lies on the channels.

module LruTurns {
  import opened Bytes
  import opened LruSpec
  import opened LruSafety
  import Loop = LruBroker

  // What a turn reads when the poll finds a message of worker w, or of client c.
  function TurnFor(s: Sys, w: Option<Id>, c: Option<Id>): Loop.Turn
    requires w.Some? ==> w.value in s.workers && s.workers[w.value].up != []
    requires c.Some? ==> c.value in s.clients && s.clients[c.value].up != []
  {
    Loop.Turn(if w.Some? then Some([w.value] + s.workers[w.value].up[0]) else None,
              if c.Some? then Some([c.value] + s.clients[c.value].up[0]) else None)
  }

  ghost function Then(s: Option<Sys>, a: Action): Option<Sys> {
    if s.Some? && CanDo(s.value, a) then Do(s.value, a) else None
  }

  // The poll, the backend handler if it is due, and the frontend handler unless the loop has
  // ended. None: some step could not be taken, or failed.
  ghost function Steps(s: Sys, w: Option<Id>, c: Option<Id>): Option<Sys> {
    var frontend := c.Some? && s.broker.queue != [];
    var polled := Then(Some(s), Polls(w.Some?, frontend));
    var handled := if w.Some? then Then(polled, FromWorker(w.value)) else polled;
    if frontend && (handled.Some? ==> !handled.value.phase.Exited?) then Then(handled, FromClient(c.value)) else handled
  }

  // The messages among outs for a client, or a worker, as its socket delivers them.
  function ForClient(outs: seq<Loop.Output>, x: Id): seq<Message> {
    if outs == [] then []
    else
      (if outs[0].ToClient? && |outs[0].frames| >= 2 && outs[0].frames[0] == x then [outs[0].frames[2..]] else [])
      + ForClient(outs[1..], x)
  }

  function ForWorker(outs: seq<Loop.Output>, x: Id): seq<Message> {
    if outs == [] then []
    else
      (if outs[0].ToWorker? && |outs[0].frames| >= 2 && outs[0].frames[0] == x then [outs[0].frames[2..]] else [])
      + ForWorker(outs[1..], x)
  }

  // The system after outs have gone out.
  ghost predicate Delivered(s: Sys, s1: Sys, outs: seq<Loop.Output>) {
    && s1.clients.Keys == s.clients.Keys && s1.workers.Keys == s.workers.Keys
    && (forall x :: x in s.clients ==> s1.clients[x].down == s.clients[x].down + ForClient(outs, x))
    && (forall x :: x in s.workers ==> s1.workers[x].down == s.workers[x].down + ForWorker(outs, x))
  }

  lemma NothingDelivered(s: Sys, s1: Sys)
    requires s1.clients.Keys == s.clients.Keys && s1.workers.Keys == s.workers.Keys
    requires forall x :: x in s.clients ==> s1.clients[x].down == s.clients[x].down
    requires forall x :: x in s.workers ==> s1.workers[x].down == s.workers[x].down
    ensures Delivered(s, s1, [])
  {
  }

  lemma ForConcat(a: seq<Loop.Output>, c: seq<Loop.Output>, x: Id)
    ensures ForClient(a + c, x) == ForClient(a, x) + ForClient(c, x)
    ensures ForWorker(a + c, x) == ForWorker(a, x) + ForWorker(c, x)
  {
    if a == [] {
      assert a + c == c;
    } else {
      assert (a + c)[1..] == a[1..] + c;
      ForConcat(a[1..], c, x);
    }
  }

  lemma DeliveredTwice(s: Sys, s1: Sys, s2: Sys, a: seq<Loop.Output>, c: seq<Loop.Output>)
    requires Delivered(s, s1, a) && Delivered(s1, s2, c)
    ensures Delivered(s, s2, a + c)
  {
    forall x | x in s.clients ensures s2.clients[x].down == s.clients[x].down + ForClient(a + c, x) {
      ForConcat(a, c, x);
    }
    forall x | x in s.workers ensures s2.workers[x].down == s.workers[x].down + ForWorker(a + c, x) {
      ForConcat(a, c, x);
    }
  }

  lemma OneForClient(m: Message, x: Id)
    requires |m| >= 2
    ensures ForClient([Loop.ToClient(m)], x) == if x == m[0] then [m[2..]] else []
    ensures ForWorker([Loop.ToClient(m)], x) == []
  {
    assert [Loop.ToClient(m)][1..] == [];
  }

  lemma OneForWorker(m: Message, x: Id)
    requires |m| >= 2
    ensures ForWorker([Loop.ToWorker(m)], x) == if x == m[0] then [m[2..]] else []
    ensures ForClient([Loop.ToWorker(m)], x) == []
  {
    assert [Loop.ToWorker(m)][1..] == [];
  }

  // -------------------------------------------------------------------------------------
  // The handlers

  // The backend handler is the step that takes the worker's message.
  lemma BackendIsFromWorker(s: Sys, w: Id)
    requires Good(s) && CanDo(s, FromWorker(w))
    ensures var o := Loop.Backend(s.broker, Some([w] + s.workers[w].up[0]));
            var s1 := Do(s, FromWorker(w));
            && s1.Some? && Good(s1.value) && !o.next.Failed? && s1.value.broker == o.b
            && (s1.value.phase.Exited? <==> o.next.End?)
            && (!o.next.End? ==> s1.value.phase == if s.phase.frontend then Handling(false, true) else Polling)
            && Delivered(s, s1.value, o.outs)
  {
    FromWorkerKeepsGood(s, w);
    if PlaceOf(s.workers[w]).Replying? {
      ReplyIsHandled(s, w, PlaceOf(s.workers[w]).client);
    } else {
      AnnouncementIsHandled(s, w);
    }
  }

  lemma AnnouncementIsHandled(s: Sys, w: Id)
    requires Good(s) && CanDo(s, FromWorker(w)) && PlaceOf(s.workers[w]).Announcing?
    ensures var o := Loop.Backend(s.broker, Some([w] + s.workers[w].up[0]));
            var s1 := Do(s, FromWorker(w));
            && s1.Some? && o == Loop.Outcome(Loop.On, s1.value.broker, [])
            && s1.value.phase == (if s.phase.frontend then Handling(false, true) else Polling)
            && Delivered(s, s1.value, [])
  {
    assert [w] + s.workers[w].up[0] == [w, [], READY];
    assert s.workers[w].up[1..] == [];
    NothingDelivered(s, Do(s, FromWorker(w)).value);
  }

  lemma ReplyIsHandled(s: Sys, w: Id, c: Id)
    requires Good(s) && CanDo(s, FromWorker(w)) && PlaceOf(s.workers[w]) == Replying(c)
    ensures var o := Loop.Backend(s.broker, Some([w] + s.workers[w].up[0]));
            var s1 := Do(s, FromWorker(w));
            && s1.Some? && o == Loop.Outcome(if s.broker.clientNbr == 1 then Loop.End else Loop.On, s1.value.broker,
                                             [Loop.ToClient([c, [], OK])])
            && s1.value.phase == (if s.broker.clientNbr == 1 then Exited
                                  else if s.phase.frontend then Handling(false, true) else Polling)
            && Delivered(s, s1.value, o.outs)
  {
    ReplyHandled(s, w, c);
    ReplyDelivered(s, w, c);
    ReplyGoesOut(s, w, c, Do(s, FromWorker(w)).value);
  }

  lemma ReplyGoesOut(s: Sys, w: Id, c: Id, s1: Sys)
    requires w in s.workers && s.workers[w].down == [] && c in s.clients && s.clients[c].down == []
    requires s1.workers == s.workers[w := Worker(Listening, [], [])]
    requires s1.clients == s.clients[c := Client(Waiting, [], [[OK]])]
    ensures Delivered(s, s1, [Loop.ToClient([c, [], OK])])
  {
    var m := [c, [], OK];
    assert m[2..] == [OK];
    forall x ensures ForClient([Loop.ToClient(m)], x) == (if x == c then [[OK]] else []) && ForWorker([Loop.ToClient(m)], x) == [] {
      OneForClient(m, x);
    }
  }

  // The frontend handler is the step that takes the client's.
  lemma FrontendIsFromClient(s: Sys, c: Id)
    requires Good(s) && CanDo(s, FromClient(c))
    ensures var o := Loop.Frontend(s.broker, Some([c] + s.clients[c].up[0]));
            var s1 := Do(s, FromClient(c));
            && s1.Some? && Good(s1.value) && o.next.On? && s1.value.broker == o.b && s1.value.phase.Polling?
            && Delivered(s, s1.value, o.outs)
  {
    RequestKeepsGood(s, c);
    RequestDelivered(s, c);
    var w := s.broker.queue[0];
    var s1, m := Do(s, FromClient(c)).value, [w, [], c, [], HELLO];
    assert [c] + s.clients[c].up[0] == [c, [], HELLO];
    assert m[2..] == [c, [], HELLO];
    assert s.workers[w] == Worker(Listening, [], []);
    forall x ensures ForWorker([Loop.ToWorker(m)], x) == if x == w then [[c, [], HELLO]] else [] {
      OneForWorker(m, x);
    }
    forall x ensures ForClient([Loop.ToWorker(m)], x) == [] {
      OneForWorker(m, x);
    }
  }

  // -------------------------------------------------------------------------------------
  // The turn

  lemma PollDelivers(s: Sys, backend: bool, frontend: bool)
    requires Good(s) && CanPoll(s, backend, frontend)
    ensures var s1 := s.(phase := Handling(backend, frontend));
            Good(s1) && Delivered(s, s1, [])
  {
    PollKeepsGood(s, backend, frontend);
    NothingDelivered(s, s.(phase := Handling(backend, frontend)));
  }

  // A turn of the loop, whatever the poll reports, is these steps of the protocol: the same
  // queue and count, the same messages on the same channels, and the same end.
  lemma TurnIsSteps(s: Sys, w: Option<Id>, c: Option<Id>)
    requires Good(s) && s.phase.Polling?
    requires w.Some? ==> w.value in s.workers && s.workers[w.value].up != []
    requires c.Some? ==> c.value in s.clients && s.clients[c.value].up != []
    requires w.Some? || (c.Some? && s.broker.queue != [])
    ensures var o, s1 := Loop.TurnOf(s.broker, TurnFor(s, w, c)), Steps(s, w, c);
            && s1.Some? && Good(s1.value) && !o.next.Failed? && s1.value.broker == o.b
            && s1.value.phase == (if o.next.End? then Exited else Polling)
            && Delivered(s, s1.value, o.outs)
  {
    var p := s.(phase := Handling(w.Some?, c.Some? && s.broker.queue != []));
    assert w.Some? ==> SomeWorkerSays(s);
    assert c.Some? ==> SomeClientSays(s);
    PollDelivers(s, p.phase.backend, p.phase.frontend);
    if w.Some? {
      WorkerTurn(s, p, w.value, c);
    } else {
      FrontendFollows(s, p, c.value, []);
      ClientTurnIs(s, c.value);
    }
  }

  lemma ClientTurnIs(s: Sys, c: Id)
    requires c in s.clients && s.clients[c].up != [] && s.broker.queue != [] && CanPoll(s, false, true)
    ensures var p := s.(phase := Handling(false, true));
            Steps(s, None, Some(c)) == Then(Some(p), FromClient(c))
    ensures var o := Loop.Frontend(s.broker, Some([c] + s.clients[c].up[0]));
            Loop.TurnOf(s.broker, TurnFor(s, None, Some(c))) == Loop.Outcome(o.next, o.b, [] + o.outs)
  {
  }

  lemma WorkerTurn(s: Sys, p: Sys, w: Id, c: Option<Id>)
    requires Good(p) && p == s.(phase := Handling(true, c.Some? && s.broker.queue != [])) && Delivered(s, p, [])
    requires w in s.workers && s.workers[w].up != [] && CanPoll(s, true, p.phase.frontend)
    requires c.Some? ==> c.value in s.clients && s.clients[c.value].up != []
    ensures var o, s1 := Loop.TurnOf(s.broker, TurnFor(s, Some(w), c)), Steps(s, Some(w), c);
            && s1.Some? && Good(s1.value) && !o.next.Failed? && s1.value.broker == o.b
            && s1.value.phase == (if o.next.End? then Exited else Polling)
            && Delivered(s, s1.value, o.outs)
  {
    BackendIsFromWorker(p, w);
    var s1, o1 := Do(p, FromWorker(w)).value, Loop.Backend(s.broker, Some([w] + s.workers[w].up[0]));
    DeliveredTwice(s, p, s1, [], o1.outs);
    assert [] + o1.outs == o1.outs;
    WorkerTurnIs(s, w, c, s1, o1);
    if p.phase.frontend && !s1.phase.Exited? {
      ClientsUp(p, w, c.value);
      FrontendFollows(s, s1, c.value, o1.outs);
    }
  }

  lemma WorkerTurnIs(s: Sys, w: Id, c: Option<Id>, s1: Sys, o1: Loop.Outcome)
    requires w in s.workers && s.workers[w].up != []
    requires c.Some? ==> c.value in s.clients && s.clients[c.value].up != []
    requires var frontend := c.Some? && s.broker.queue != [];
             var p := s.(phase := Handling(true, frontend));
             CanPoll(s, true, frontend) && CanDo(p, FromWorker(w)) && Do(p, FromWorker(w)) == Some(s1)
    requires o1 == Loop.Backend(s.broker, Some([w] + s.workers[w].up[0])) && !o1.next.Failed?
    requires s1.phase.Exited? <==> o1.next.End?
    ensures var frontend := c.Some? && s.broker.queue != [];
            var o := Loop.TurnOf(s.broker, TurnFor(s, Some(w), c));
            if frontend && !s1.phase.Exited? then
              var o2 := Loop.Frontend(o1.b, Some([c.value] + s.clients[c.value].up[0]));
              Steps(s, Some(w), c) == Then(Some(s1), FromClient(c.value)) && o == Loop.Outcome(o2.next, o2.b, o1.outs + o2.outs)
            else Steps(s, Some(w), c) == Some(s1) && o == o1
  {
    assert o1.outs + [] == o1.outs;
  }

  // No step of a worker's message touches what clients have sent.
  lemma ClientsUp(s: Sys, w: Id, c: Id)
    requires Good(s) && CanDo(s, FromWorker(w)) && c in s.clients && Do(s, FromWorker(w)).Some?
    ensures c in Do(s, FromWorker(w)).value.clients
    ensures Do(s, FromWorker(w)).value.clients[c].up == s.clients[c].up
  {
  }

  lemma FrontendFollows(s: Sys, s1: Sys, c: Id, outs: seq<Loop.Output>)
    requires Good(s1) && Delivered(s, s1, outs) && s1.phase == Handling(false, true)
    requires c in s.clients && c in s1.clients && s1.clients[c].up == s.clients[c].up != []
    ensures CanDo(s1, FromClient(c))
    ensures var o := Loop.Frontend(s1.broker, Some([c] + s.clients[c].up[0]));
            var s2 := Do(s1, FromClient(c));
            && s2.Some? && Good(s2.value) && o.next.On? && s2.value.broker == o.b && s2.value.phase.Polling?
            && Delivered(s, s2.value, outs + o.outs)
  {
    FrontendIsFromClient(s1, c);
    DeliveredTwice(s, s1, Do(s1, FromClient(c)).value, outs, Loop.Frontend(s1.broker, Some([c] + s.clients[c].up[0])).outs);
  }
}
