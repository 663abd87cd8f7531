// Every interleaving of the LRU protocol: no failed assert, no front() on an empty queue, a
// bound on the number of steps, and an end in which every client has its one reply.

module LruSafety {
  import opened Bytes
  import opened LruSpec

  // -------------------------------------------------------------------------------------
  // Peers move

  lemma CarriesAfter(s: Sys, w: Id, x: Worker, s1: Sys)
    requires w in s.workers && s1.workers == s.workers[w := x]
    ensures forall v, c :: Carries(s1, v, c) <==> if v == w then Carried(x) == Some(c) else Carries(s, v, c)
  {
  }

  lemma SameCarried(s: Sys, w: Id, x: Worker, s1: Sys)
    requires w in s.workers && s1.workers == s.workers[w := x] && Carried(x) == Carried(s.workers[w])
    ensures forall v, c :: Carries(s1, v, c) <==> Carries(s, v, c)
    ensures forall c :: IsCarried(s1, c) <==> IsCarried(s, c)
  {
    CarriesAfter(s, w, x, s1);
    forall c ensures IsCarried(s1, c) <==> IsCarried(s, c) {
      if v :| Carries(s, v, c) {
        assert Carries(s1, v, c);
      }
      if v :| Carries(s1, v, c) {
        assert Carries(s, v, c);
      }
    }
  }

  lemma StillSays(s: Sys, s1: Sys)
    requires forall w :: w in s.workers && s.workers[w].up != [] ==> w in s1.workers && s1.workers[w].up != []
    requires forall c :: c in s.clients && s.clients[c].up != [] ==> c in s1.clients && s1.clients[c].up != []
    ensures SomeWorkerSays(s) ==> SomeWorkerSays(s1)
    ensures SomeClientSays(s) ==> SomeClientSays(s1)
  {
    if w :| w in s.workers && s.workers[w].up != [] {
      assert w in s1.workers;
    }
    if c :| c in s.clients && s.clients[c].up != [] {
      assert c in s1.clients;
    }
  }

  lemma WorkerMoves(s: Sys, w: Id, x: Worker)
    requires Good(s) && w in s.workers
    requires IsAt(x, w in s.broker.queue, PlaceOf(x)) && Carried(x) == Carried(s.workers[w])
    requires s.workers[w].up != [] ==> x.up != []
    ensures Good(SetWorker(s, w, x))
  {
    var s1 := SetWorker(s, w, x);
    SameCarried(s, w, x, s1);
    StillSays(s, s1);
    assert Unanswered(s1) == Unanswered(s);
  }

  lemma ClientMoves(s: Sys, c: Id, x: Client)
    requires Good(s) && c in s.clients && ClientOk(x, IsCarried(s, c))
    requires s.clients[c].up != [] ==> x.up != []
    requires IsUnanswered(x) <==> IsUnanswered(s.clients[c])
    ensures Good(SetClient(s, c, x))
  {
    var s1 := SetClient(s, c, x);
    StillSays(s, s1);
    SameWorkersCarry(s, s1);
    assert WorkersOk(s1);
    assert ClientsOk(s1);
    assert Unanswered(s1) == Unanswered(s);
  }

  lemma SameWorkersCarry(s: Sys, s1: Sys)
    requires s1.workers == s.workers
    ensures forall w, c :: Carries(s1, w, c) <==> Carries(s, w, c)
    ensures forall c :: IsCarried(s1, c) <==> IsCarried(s, c)
  {
  }

  lemma PeersKeepGood(s: Sys, a: Action)
    requires Good(s) && CanDo(s, a)
    requires a.ClientSends? || a.ClientReceives? || a.WorkerStarts? || a.WorkerTakes? || a.WorkerReplies?
    ensures Do(s, a).Some? && Good(Do(s, a).value)
  {
    match a
    case ClientSends(c) => ClientMoves(s, c, Do(s, a).value.clients[c]);
    case ClientReceives(c) => ClientMoves(s, c, Do(s, a).value.clients[c]);
    case WorkerStarts(w) => WorkerMoves(s, w, Do(s, a).value.workers[w]);
    case WorkerTakes(w) => WorkerMoves(s, w, Do(s, a).value.workers[w]);
    case WorkerReplies(w) => WorkerMoves(s, w, Do(s, a).value.workers[w]);
  }

  // -------------------------------------------------------------------------------------
  // The broker moves

  // A worker joins the end of the queue.
  lemma JoinsQueue(s: Sys, w: Id, s1: Sys)
    requires WorkersOk(s) && w in s.workers && w !in s.broker.queue
    requires s1.workers == s.workers[w := Worker(Listening, [], [])] && s1.broker.queue == s.broker.queue + [w]
    ensures WorkersOk(s1)
  {
    assert forall v :: v in s1.broker.queue <==> v in s.broker.queue || v == w;
  }

  lemma LeavesQueue(s: Sys, c: Id, s1: Sys)
    requires WorkersOk(s) && s.broker.queue != []
    requires s1.workers == s.workers[s.broker.queue[0] := Worker(Listening, [], [[c, [], HELLO]])]
    requires s1.broker.queue == s.broker.queue[1..]
    ensures WorkersOk(s1)
  {
    var q := s.broker.queue;
    assert forall v :: v in q[1..] <==> v in q && v != q[0];
  }

  lemma AnnouncementKeepsGood(s: Sys, w: Id)
    requires Good(s) && CanDo(s, FromWorker(w)) && PlaceOf(s.workers[w]).Announcing?
    ensures Do(s, FromWorker(w)).Some? && Good(Do(s, FromWorker(w)).value)
  {
    var s1 := Do(s, FromWorker(w)).value;
    var x := Worker(Listening, [], []);
    assert [w] + s.workers[w].up[0] == [w, [], READY];
    assert s.workers[w].up[1..] == [];
    assert s1.workers == s.workers[w := x];
    JoinsQueue(s, w, s1);
    SameCarried(s, w, x, s1);
    assert Unanswered(s1) == Unanswered(s);
    assert SomeClientSays(s) ==> SomeClientSays(s1);
  }

  // What the broker makes of a worker's reply.
  lemma ReplyHandled(s: Sys, w: Id, c: Id)
    requires Good(s) && CanDo(s, FromWorker(w)) && PlaceOf(s.workers[w]) == Replying(c)
    ensures Carries(s, w, c) && c in s.clients && s.clients[c] == Client(Waiting, [], [])
    ensures OnBackend(s.broker, [w] + s.workers[w].up[0])
            == Handled(Broker(s.broker.queue + [w], s.broker.clientNbr - 1), Some([c, [], OK]))
    ensures s.workers[w].up[1..] == []
  {
    assert Carries(s, w, c);
    assert IsCarried(s, c);
    assert [w] + s.workers[w].up[0] == [w, [], c, [], OK];
  }

  lemma ReplyDelivered(s: Sys, w: Id, c: Id)
    requires Good(s) && CanDo(s, FromWorker(w)) && PlaceOf(s.workers[w]) == Replying(c)
    ensures Do(s, FromWorker(w)).Some?
    ensures var s1 := Do(s, FromWorker(w)).value;
            && c in s.clients && s.clients[c] == Client(Waiting, [], [])
            && s1.workers == s.workers[w := Worker(Listening, [], [])]
            && s1.clients == s.clients[c := Client(Waiting, [], [[OK]])]
            && s1.broker == Broker(s.broker.queue + [w], s.broker.clientNbr - 1)
            && s1.phase == if s1.broker.clientNbr == 0 then Exited
                           else if s.phase.frontend then Handling(false, true) else Polling
  {
    ReplyHandled(s, w, c);
    assert [[c, [], OK]][0][2..] == [OK];
    assert [] + [[OK]] == [[OK]];
  }

  lemma ClientsAfterReply(s: Sys, w: Id, c: Id, s1: Sys)
    requires ClientsOk(s) && Carries(s, w, c) && c in s.clients
    requires s1.workers == s.workers[w := Worker(Listening, [], [])]
    requires s1.clients == s.clients[c := Client(Waiting, [], [[OK]])]
    ensures ClientsOk(s1)
  {
    CarriesAfter(s, w, Worker(Listening, [], []), s1);
    forall d | d in s1.clients ensures ClientOk(s1.clients[d], IsCarried(s1, d)) {
      if d != c && IsCarried(s, d) {
        var v :| Carries(s, v, d);
        assert Carries(s1, v, d);
      }
    }
  }

  lemma ReplyKeepsGood(s: Sys, w: Id, c: Id)
    requires Good(s) && CanDo(s, FromWorker(w)) && PlaceOf(s.workers[w]) == Replying(c)
    ensures Do(s, FromWorker(w)).Some? && Good(Do(s, FromWorker(w)).value)
  {
    ReplyDelivered(s, w, c);
    var s1 := Do(s, FromWorker(w)).value;
    assert Carries(s, w, c);
    JoinsQueue(s, w, s1);
    ClientsAfterReply(s, w, c, s1);
    assert Unanswered(s1) == Unanswered(s) - {c};
    if d :| d in s.clients && s.clients[d].up != [] {
      assert s1.clients[d].up != [];
    }
  }

  lemma RequestDelivered(s: Sys, c: Id)
    requires Good(s) && CanDo(s, FromClient(c))
    ensures Do(s, FromClient(c)).Some?
    ensures var s1 := Do(s, FromClient(c)).value;
            && s.broker.queue != [] && s.broker.queue[0] in s.workers
            && s.clients[c] == Client(Waiting, [[[], HELLO]], [])
            && s1.workers == s.workers[s.broker.queue[0] := Worker(Listening, [], [[c, [], HELLO]])]
            && s1.clients == s.clients[c := Client(Waiting, [], [])]
            && s1.broker == Broker(s.broker.queue[1..], s.broker.clientNbr)
            && s1.phase == Polling
  {
    var w := s.broker.queue[0];
    assert s.workers[w] == Worker(Listening, [], []);
    assert s.clients[c].up[1..] == [];
    assert [c] + s.clients[c].up[0] == [c, [], HELLO];
    assert [w, [], c, [], HELLO][2..] == [c, [], HELLO];
    assert [] + [[c, [], HELLO]] == [[c, [], HELLO]];
  }

  lemma ClientsAfterRequest(s: Sys, w: Id, c: Id, s1: Sys)
    requires ClientsOk(s) && w in s.workers && Carried(s.workers[w]) == None
    requires c in s.clients && s.clients[c].up != []
    requires s1.workers == s.workers[w := Worker(Listening, [], [[c, [], HELLO]])]
    requires s1.clients == s.clients[c := Client(Waiting, [], [])]
    ensures ClientsOk(s1)
  {
    CarriesAfter(s, w, Worker(Listening, [], [[c, [], HELLO]]), s1);
    assert !IsCarried(s, c);
    assert Carries(s1, w, c);
    forall d | d in s1.clients ensures ClientOk(s1.clients[d], IsCarried(s1, d)) {
      if d != c && IsCarried(s, d) {
        var v :| Carries(s, v, d);
        assert Carries(s1, v, d);
      }
    }
  }

  lemma RequestKeepsGood(s: Sys, c: Id)
    requires Good(s) && CanDo(s, FromClient(c))
    ensures Do(s, FromClient(c)).Some? && Good(Do(s, FromClient(c)).value)
  {
    RequestDelivered(s, c);
    var s1 := Do(s, FromClient(c)).value;
    var w := s.broker.queue[0];
    assert s.workers[w] == Worker(Listening, [], []);
    LeavesQueue(s, c, s1);
    ClientsAfterRequest(s, w, c, s1);
    assert Unanswered(s1) == Unanswered(s);
  }

  lemma FromWorkerKeepsGood(s: Sys, w: Id)
    requires Good(s) && CanDo(s, FromWorker(w))
    ensures Do(s, FromWorker(w)).Some? && Good(Do(s, FromWorker(w)).value)
  {
    var p := PlaceOf(s.workers[w]);
    if p.Replying? {
      ReplyKeepsGood(s, w, p.client);
    } else {
      AnnouncementKeepsGood(s, w);
    }
  }

  // Whoever moves, in whatever order, nothing fails and everybody stays in one place.
  lemma ActionKeepsGood(s: Sys, a: Action)
    requires Good(s) && CanDo(s, a)
    ensures Do(s, a).Some? && Good(Do(s, a).value)
  {
    match a
    case FromWorker(w) => FromWorkerKeepsGood(s, w);
    case FromClient(c) => RequestKeepsGood(s, c);
    case Polls(backend, frontend) => PollKeepsGood(s, backend, frontend);
    case ClientSends(_) => PeersKeepGood(s, a);
    case ClientReceives(_) => PeersKeepGood(s, a);
    case WorkerStarts(_) => PeersKeepGood(s, a);
    case WorkerTakes(_) => PeersKeepGood(s, a);
    case WorkerReplies(_) => PeersKeepGood(s, a);
  }

  lemma PollKeepsGood(s: Sys, backend: bool, frontend: bool)
    requires Good(s) && CanPoll(s, backend, frontend)
    ensures Good(s.(phase := Handling(backend, frontend)))
  {
    var s1 := s.(phase := Handling(backend, frontend));
    assert forall v, c :: Carries(s1, v, c) <==> Carries(s, v, c);
    assert forall c :: IsCarried(s1, c) <==> IsCarried(s, c);
    assert Unanswered(s1) == Unanswered(s);
    StillSays(s, s1);
  }
}
