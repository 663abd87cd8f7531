// How runs of the LRU protocol end.

module LruRuns {
  import opened Bytes
  import opened LruSpec
  import opened LruSafety

  // -------------------------------------------------------------------------------------
  // What is left for the broker to handle

  ghost function Remaining(s: Sys): nat {
    |Unready(s)| + |Unasked(s)| + |Unanswered(s)|
  }

  predicate IsHandling(a: Action) {
    a.FromWorker? || a.FromClient?
  }

  lemma AnnouncementDelivered(s: Sys, w: Id)
    requires Good(s) && CanDo(s, FromWorker(w)) && !PlaceOf(s.workers[w]).Replying?
    ensures s.workers[w] == Worker(Listening, [[[], READY]], [])
    ensures var o := Do(s, FromWorker(w));
            && o.Some?
            && o.value.clients == s.clients
            && o.value.workers == s.workers[w := Worker(Listening, [], [])]
  {
    assert [w] + s.workers[w].up[0] == [w, [], READY];
    assert s.workers[w].up[1..] == [];
  }

  lemma AnnouncementCounts(s: Sys, w: Id)
    requires Good(s) && CanDo(s, FromWorker(w)) && !PlaceOf(s.workers[w]).Replying?
    ensures var o := Do(s, FromWorker(w));
            && o.Some?
            && w in Unready(s) && Unready(o.value) == Unready(s) - {w}
            && Unasked(o.value) == Unasked(s) && Unanswered(o.value) == Unanswered(s)
  {
    AnnouncementDelivered(s, w);
  }

  lemma ReplyCounts(s: Sys, w: Id, c: Id)
    requires Good(s) && CanDo(s, FromWorker(w)) && PlaceOf(s.workers[w]) == Replying(c)
    ensures var o := Do(s, FromWorker(w));
            && o.Some?
            && c in Unanswered(s) && Unanswered(o.value) == Unanswered(s) - {c}
            && Unready(o.value) == Unready(s) && Unasked(o.value) == Unasked(s)
  {
    ReplyDelivered(s, w, c);
  }

  lemma RequestCounts(s: Sys, c: Id)
    requires Good(s) && CanDo(s, FromClient(c))
    ensures var o := Do(s, FromClient(c));
            && o.Some?
            && c in Unasked(s) && Unasked(o.value) == Unasked(s) - {c}
            && Unready(o.value) == Unready(s) && Unanswered(o.value) == Unanswered(s)
  {
    RequestDelivered(s, c);
    assert s.workers[s.broker.queue[0]] == Worker(Listening, [], []);
  }

  // The three counts depend on little of each record.
  lemma SameCounts(s: Sys, s1: Sys)
    requires s1.workers.Keys == s.workers.Keys && s1.clients.Keys == s.clients.Keys
    requires forall w :: w in s.workers ==> (IsUnready(s1.workers[w]) <==> IsUnready(s.workers[w]))
    requires forall c :: c in s.clients ==>
               && (IsUnasked(s1.clients[c]) <==> IsUnasked(s.clients[c]))
               && (IsUnanswered(s1.clients[c]) <==> IsUnanswered(s.clients[c]))
    ensures Unready(s1) == Unready(s) && Unasked(s1) == Unasked(s) && Unanswered(s1) == Unanswered(s)
  {
  }

  lemma OthersCountNothing(s: Sys, a: Action)
    requires Good(s) && CanDo(s, a) && !IsHandling(a)
    ensures var o := Do(s, a);
            && o.Some?
            && Unready(o.value) == Unready(s) && Unasked(o.value) == Unasked(s) && Unanswered(o.value) == Unanswered(s)
  {
    SameCounts(s, Do(s, a).value);
  }

  // Each message the broker handles is one less, and nothing else changes the count.
  lemma HandlingCountsDown(s: Sys, a: Action)
    requires Good(s) && CanDo(s, a)
    ensures Do(s, a).Some?
    ensures Remaining(Do(s, a).value) == Remaining(s) - (if IsHandling(a) then 1 else 0)
  {
    match a
    case FromWorker(w) =>
      if PlaceOf(s.workers[w]).Replying? {
        ReplyCounts(s, w, PlaceOf(s.workers[w]).client);
      } else {
        AnnouncementCounts(s, w);
      }
    case FromClient(c) => RequestCounts(s, c);
    case Polls(_, _) => OthersCountNothing(s, a);
    case ClientSends(_) => OthersCountNothing(s, a);
    case ClientReceives(_) => OthersCountNothing(s, a);
    case WorkerStarts(_) => OthersCountNothing(s, a);
    case WorkerTakes(_) => OthersCountNothing(s, a);
    case WorkerReplies(_) => OthersCountNothing(s, a);
  }

  // -------------------------------------------------------------------------------------
  // What is left for anybody to do

  ghost function UnsentOnes(s: Sys): set<Id> {
    set c | c in s.clients && s.clients[c].stage.Unsent?
  }

  ghost function WithoutReply(s: Sys): set<Id> {
    set c | c in s.clients && !s.clients[c].stage.Answered?
  }

  ghost function FreshOnes(s: Sys): set<Id> {
    set w | w in s.workers && s.workers[w].stage.Fresh?
  }

  ghost function CalledOnes(s: Sys): set<Id> {
    set w | w in s.workers && s.workers[w].down != []
  }

  ghost function WorkingOnes(s: Sys): set<Id> {
    set w | w in s.workers && s.workers[w].stage.Serving?
  }

  // What the peers have left to do with what has already reached them.
  ghost function PeerWork(s: Sys): nat {
    |UnsentOnes(s)| + |WithoutReply(s)| + |FreshOnes(s)| + 2 * |CalledOnes(s)| + |WorkingOnes(s)|
  }

  ghost function Work(s: Sys): nat {
    4 * Remaining(s) + PeerWork(s) + (if s.phase.Polling? then 1 else 0)
  }

  lemma ClientSendsWork(s: Sys, c: Id)
    requires Good(s) && CanDo(s, ClientSends(c))
    ensures PeerWork(Do(s, ClientSends(c)).value) < PeerWork(s)
  {
    var s1 := Do(s, ClientSends(c)).value;
    assert UnsentOnes(s1) == UnsentOnes(s) - {c};
    assert WithoutReply(s1) == WithoutReply(s);
    SameWorkers(s, s1);
  }

  lemma SameWorkers(s: Sys, s1: Sys)
    requires s1.workers == s.workers
    ensures FreshOnes(s1) == FreshOnes(s) && CalledOnes(s1) == CalledOnes(s) && WorkingOnes(s1) == WorkingOnes(s)
  {
  }

  lemma SameClients(s: Sys, s1: Sys)
    requires s1.clients == s.clients
    ensures UnsentOnes(s1) == UnsentOnes(s) && WithoutReply(s1) == WithoutReply(s)
  {
  }

  lemma ClientReceivesWork(s: Sys, c: Id)
    requires Good(s) && CanDo(s, ClientReceives(c))
    ensures Do(s, ClientReceives(c)).Some? && PeerWork(Do(s, ClientReceives(c)).value) < PeerWork(s)
  {
    var s1 := Do(s, ClientReceives(c)).value;
    assert c in WithoutReply(s);
    assert UnsentOnes(s1) == UnsentOnes(s);
    assert WithoutReply(s1) == WithoutReply(s) - {c};
    SameWorkers(s, s1);
  }

  lemma WorkerStartsWork(s: Sys, w: Id)
    requires Good(s) && CanDo(s, WorkerStarts(w))
    ensures PeerWork(Do(s, WorkerStarts(w)).value) < PeerWork(s)
  {
    var s1 := Do(s, WorkerStarts(w)).value;
    assert FreshOnes(s1) == FreshOnes(s) - {w};
    assert CalledOnes(s1) == CalledOnes(s) && WorkingOnes(s1) == WorkingOnes(s);
    SameClients(s, s1);
  }

  lemma WorkerTakesWork(s: Sys, w: Id)
    requires Good(s) && CanDo(s, WorkerTakes(w))
    ensures Do(s, WorkerTakes(w)).Some? && PeerWork(Do(s, WorkerTakes(w)).value) < PeerWork(s)
  {
    var s1 := Do(s, WorkerTakes(w)).value;
    assert s.workers[w].down[1..] == [];
    assert FreshOnes(s1) == FreshOnes(s);
    assert w in CalledOnes(s) && CalledOnes(s1) == CalledOnes(s) - {w};
    assert WorkingOnes(s1) == WorkingOnes(s) + {w};
    SameClients(s, s1);
  }

  lemma WorkerRepliesWork(s: Sys, w: Id)
    requires Good(s) && CanDo(s, WorkerReplies(w))
    ensures PeerWork(Do(s, WorkerReplies(w)).value) < PeerWork(s)
  {
    var s1 := Do(s, WorkerReplies(w)).value;
    assert FreshOnes(s1) == FreshOnes(s) && CalledOnes(s1) == CalledOnes(s);
    assert WorkingOnes(s1) == WorkingOnes(s) - {w};
    SameClients(s, s1);
  }

  // A handler adds work for at most one peer.
  lemma HandlingWork(s: Sys, a: Action)
    requires Good(s) && CanDo(s, a) && IsHandling(a)
    ensures Do(s, a).Some? && PeerWork(Do(s, a).value) <= PeerWork(s) + 2
  {
    if a.FromClient? {
      RequestWork(s, a.id);
    } else {
      FromWorkerWork(s, a.id);
    }
  }

  lemma RequestWork(s: Sys, c: Id)
    requires Good(s) && CanDo(s, FromClient(c))
    ensures Do(s, FromClient(c)).Some? && PeerWork(Do(s, FromClient(c)).value) <= PeerWork(s) + 2
  {
    RequestDelivered(s, c);
    var s1 := Do(s, FromClient(c)).value;
    var w := s.broker.queue[0];
    assert s.workers[w] == Worker(Listening, [], []);
    assert UnsentOnes(s1) == UnsentOnes(s) && WithoutReply(s1) == WithoutReply(s);
    assert FreshOnes(s1) == FreshOnes(s) && WorkingOnes(s1) == WorkingOnes(s);
    assert CalledOnes(s1) == CalledOnes(s) + {w};
  }

  lemma FromWorkerWork(s: Sys, w: Id)
    requires Good(s) && CanDo(s, FromWorker(w))
    ensures Do(s, FromWorker(w)).Some? && PeerWork(Do(s, FromWorker(w)).value) <= PeerWork(s) + 2
  {
    if PlaceOf(s.workers[w]).Replying? {
      ReplyDelivered(s, w, PlaceOf(s.workers[w]).client);
      var s1 := Do(s, FromWorker(w)).value;
      assert UnsentOnes(s1) == UnsentOnes(s) && WithoutReply(s1) == WithoutReply(s);
      QueuedAgain(s, w, s1);
    } else {
      AnnouncementDelivered(s, w);
      SameClients(s, Do(s, FromWorker(w)).value);
      QueuedAgain(s, w, Do(s, FromWorker(w)).value);
    }
  }

  lemma QueuedAgain(s: Sys, w: Id, s1: Sys)
    requires w in s.workers && s.workers[w].stage.Listening? && s.workers[w].down == []
    requires s1.workers == s.workers[w := Worker(Listening, [], [])]
    ensures FreshOnes(s1) == FreshOnes(s) && WorkingOnes(s1) == WorkingOnes(s) && CalledOnes(s1) == CalledOnes(s)
  {
  }

  // Every step of anybody uses some of it up.
  lemma WorkDecreases(s: Sys, a: Action)
    requires Good(s) && CanDo(s, a)
    ensures Do(s, a).Some? && Work(Do(s, a).value) < Work(s)
  {
    HandlingCountsDown(s, a);
    match a
    case FromWorker(_) => HandlingWork(s, a);
    case FromClient(_) => HandlingWork(s, a);
    case Polls(_, _) =>
      SameWorkers(s, Do(s, a).value);
      SameClients(s, Do(s, a).value);
    case ClientSends(c) => ClientSendsWork(s, c);
    case ClientReceives(c) => ClientReceivesWork(s, c);
    case WorkerStarts(w) => WorkerStartsWork(s, w);
    case WorkerTakes(w) => WorkerTakesWork(s, w);
    case WorkerReplies(w) => WorkerRepliesWork(s, w);
  }

  // -------------------------------------------------------------------------------------
  // Runs

  ghost predicate IsRun(states: seq<Sys>, actions: seq<Action>) {
    && |states| == |actions| + 1
    && forall k :: 0 <= k < |actions| ==>
         CanDo(states[k], actions[k]) && Do(states[k], actions[k]) == Some(states[k + 1])
  }

  function CountHandled(actions: seq<Action>, k: nat): nat
    requires k <= |actions|
  {
    if k == 0 then 0 else CountHandled(actions, k - 1) + (if IsHandling(actions[k - 1]) then 1 else 0)
  }

  lemma PeersStay(s: Sys, a: Action)
    requires CanDo(s, a) && Do(s, a).Some?
    ensures Do(s, a).value.clients.Keys == s.clients.Keys && Do(s, a).value.workers.Keys == s.workers.Keys
  {
  }

  lemma {:induction false} RunsCountDown(states: seq<Sys>, actions: seq<Action>, k: nat)
    requires IsRun(states, actions) && Good(states[0]) && k <= |actions|
    ensures Good(states[k])
    ensures states[k].clients.Keys == states[0].clients.Keys && states[k].workers.Keys == states[0].workers.Keys
    ensures CountHandled(actions, k) + Remaining(states[k]) == Remaining(states[0])
    ensures k + Work(states[k]) <= Work(states[0])
  {
    if k > 0 {
      RunsCountDown(states, actions, k - 1);
      ActionKeepsGood(states[k - 1], actions[k - 1]);
      HandlingCountsDown(states[k - 1], actions[k - 1]);
      WorkDecreases(states[k - 1], actions[k - 1]);
      PeersStay(states[k - 1], actions[k - 1]);
    }
  }

  lemma StartWork(clients: set<Id>, workers: set<Id>)
    requires clients != {} && READY !in clients
    ensures Remaining(Start(clients, workers)) == |workers| + 2 * |clients|
    ensures Work(Start(clients, workers)) == 10 * |clients| + 5 * |workers| + 1
  {
    var s := Start(clients, workers);
    StartIsGood(clients, workers);
    assert UnsentOnes(s) == clients && WithoutReply(s) == clients && FreshOnes(s) == workers;
    assert CalledOnes(s) == {} && WorkingOnes(s) == {};
  }

  // Replies sent to a client, received or still on the way.
  function RepliesTo(c: Client): nat {
    |c.down| + if c.stage.Answered? then 1 else 0
  }

  // client_nbr counts the clients without a reply, nobody has two, and the loop is over
  // exactly when everybody has one.
  lemma ExitExactly(s: Sys)
    requires Good(s)
    ensures s.broker.clientNbr == |Unanswered(s)|
    ensures forall c :: c in s.clients ==> RepliesTo(s.clients[c]) == if c in Unanswered(s) then 0 else 1
    ensures s.phase.Exited? <==> forall c :: c in s.clients ==> RepliesTo(s.clients[c]) == 1
  {
    if Unanswered(s) == {} {
      assert |Unanswered(s)| == 0;
    } else {
      var c :| c in Unanswered(s);
      assert RepliesTo(s.clients[c]) == 0;
    }
  }

  // From the start of main, with any clients and workers and in any interleaving: no run is
  // longer than the bound, the broker handles each message once, and nothing ever fails.
  lemma RunsAreBounded(states: seq<Sys>, actions: seq<Action>, clients: set<Id>, workers: set<Id>)
    requires clients != {} && READY !in clients
    requires IsRun(states, actions) && states[0] == Start(clients, workers)
    ensures |actions| <= 10 * |clients| + 5 * |workers| + 1
    ensures CountHandled(actions, |actions|) <= |workers| + 2 * |clients|
    ensures Good(states[|actions|])
    ensures forall a :: CanDo(states[|actions|], a) ==> Do(states[|actions|], a).Some?
  {
    StartIsGood(clients, workers);
    StartWork(clients, workers);
    RunsCountDown(states, actions, |actions|);
    forall a | CanDo(states[|actions|], a) ensures Do(states[|actions|], a).Some? {
      ActionKeepsGood(states[|actions|], a);
    }
  }

  // -------------------------------------------------------------------------------------
  // Least recently used

  // The workers in the order in which the broker heard from them, and in which it called them.
  function Heard(actions: seq<Action>, k: nat): seq<Id>
    requires k <= |actions|
  {
    if k == 0 then []
    else Heard(actions, k - 1) + (if actions[k - 1].FromWorker? then [actions[k - 1].id] else [])
  }

  function CalledInTurn(states: seq<Sys>, actions: seq<Action>, k: nat): seq<Id>
    requires k <= |actions| <= |states|
  {
    if k == 0 then []
    else CalledInTurn(states, actions, k - 1)
         + (if actions[k - 1].FromClient? && states[k - 1].broker.queue != [] then [states[k - 1].broker.queue[0]] else [])
  }

  lemma QueueMoves(s: Sys, a: Action)
    requires Good(s) && CanDo(s, a)
    ensures Do(s, a).Some?
    ensures var q, q1 := s.broker.queue, Do(s, a).value.broker.queue;
            && (a.FromWorker? ==> q1 == q + [a.id])
            && (a.FromClient? ==> q != [] && q == [q[0]] + q1)
            && (!IsHandling(a) ==> q1 == q)
  {
    ActionKeepsGood(s, a);
    if a.FromWorker? {
      if PlaceOf(s.workers[a.id]).Replying? {
        ReplyDelivered(s, a.id, PlaceOf(s.workers[a.id]).client);
      } else {
        assert ([a.id] + s.workers[a.id].up[0])[0] == a.id;
      }
    }
  }

  lemma QueueStep(a: Action, q: seq<Id>, q1: seq<Id>, heard: seq<Id>, called: seq<Id>)
    requires heard == called + q
    requires a.FromWorker? ==> q1 == q + [a.id]
    requires a.FromClient? ==> q != [] && q == [q[0]] + q1
    requires !IsHandling(a) ==> q1 == q
    ensures heard + (if a.FromWorker? then [a.id] else [])
            == called + (if a.FromClient? && q != [] then [q[0]] else []) + q1
  {
  }

  // Requests go to the workers in the order in which these last made themselves known.
  lemma {:induction false} LeastRecentlyUsed(states: seq<Sys>, actions: seq<Action>, k: nat)
    requires IsRun(states, actions) && Good(states[0]) && states[0].broker.queue == [] && k <= |actions|
    ensures Good(states[k])
    ensures Heard(actions, k) == CalledInTurn(states, actions, k) + states[k].broker.queue
  {
    if k > 0 {
      LeastRecentlyUsed(states, actions, k - 1);
      var s, a := states[k - 1], actions[k - 1];
      ActionKeepsGood(s, a);
      QueueMoves(s, a);
      QueueStep(a, s.broker.queue, states[k].broker.queue, Heard(actions, k - 1), CalledInTurn(states, actions, k - 1));
    }
  }

  // -------------------------------------------------------------------------------------
  // No deadlock

  ghost predicate Stuck(s: Sys) {
    forall a :: !CanDo(s, a)
  }

  // With nothing left that a worker can do, every worker is queued.
  lemma StuckWorkersAreQueued(s: Sys, w: Id)
    requires Good(s) && Stuck(s) && s.phase.Polling? && w in s.workers
    ensures PlaceOf(s.workers[w]).Queued? && w in s.broker.queue
  {
    assert !CanDo(s, WorkerStarts(w)) && !CanDo(s, WorkerTakes(w)) && !CanDo(s, WorkerReplies(w));
    assert !CanDo(s, Polls(true, false));
    assert s.workers[w].up == [];
  }

  lemma StuckHasExited(s: Sys)
    requires Good(s) && Stuck(s) && s.workers.Keys != {}
    ensures s.phase.Exited?
  {
    if s.phase.Handling? && s.phase.backend {
      var w :| w in s.workers && s.workers[w].up != [];
      assert CanDo(s, FromWorker(w));
    } else if s.phase.Handling? {
      var c :| c in s.clients && s.clients[c].up != [];
      assert CanDo(s, FromClient(c));
    } else if s.phase.Polling? {
      var w :| w in s.workers;
      StuckWorkersAreQueued(s, w);
      assert Unanswered(s) != {};
      var c :| c in Unanswered(s);
      assert !CanDo(s, ClientSends(c));
      if IsCarried(s, c) {
        var v :| Carries(s, v, c);
        StuckWorkersAreQueued(s, v);
      } else {
        assert s.clients[c].up != [];
        assert CanDo(s, Polls(false, true));
      }
    }
  }

  // A run that cannot go on has left the loop, with its one reply in every client's hand.
  lemma StuckIsDone(s: Sys)
    requires Good(s) && Stuck(s) && s.workers.Keys != {}
    ensures s.phase.Exited?
    ensures forall c :: c in s.clients ==> s.clients[c] == Client(Answered(OK), [], [])
  {
    StuckHasExited(s);
    ExitExactly(s);
    forall c | c in s.clients ensures s.clients[c] == Client(Answered(OK), [], []) {
      assert !CanDo(s, ClientReceives(c));
      assert RepliesTo(s.clients[c]) == 1;
    }
  }

  // Every run, carried on for as long as anybody can move, ends that way.
  lemma RunsEndWithEveryReply(states: seq<Sys>, actions: seq<Action>, clients: set<Id>, workers: set<Id>)
    requires clients != {} && workers != {} && READY !in clients
    requires IsRun(states, actions) && states[0] == Start(clients, workers) && Stuck(states[|actions|])
    ensures states[|actions|].phase.Exited?
    ensures states[|actions|].clients == map c | c in clients :: Client(Answered(OK), [], [])
  {
    StartIsGood(clients, workers);
    RunsCountDown(states, actions, |actions|);
    StuckIsDone(states[|actions|]);
  }
}
