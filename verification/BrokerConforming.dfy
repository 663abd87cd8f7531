// The broker under conforming peers: the idle set is exactly the disjoint union of the
// service lists, and a request goes to the most recently seen live worker of its service.

module BrokerConforming {
  import opened Bytes
  import opened Frames
  import opened Mdp
  import opened BrokerSpec
  import opened BrokerInvariants
  import opened BrokerRuns

  ghost predicate NoDuplicates(q: seq<Id>) {
    forall i, j :: 0 <= i < j < |q| ==> q[i] != q[j]
  }

  // Every entry of the list is in the idle set, once.
  ghost predicate TidyAt(b: State, n: Name) {
    n in b.services ==>
      && NoDuplicates(b.services[n].waiting)
      && (forall id :: id in b.services[n].waiting ==> id in b.waiting)
  }

  ghost predicate Tidy(b: State) {
    Inv(b) && forall n :: TidyAt(b, n)
  }

  ghost predicate Strong(b: State) {
    Tidy(b) && forall id :: id in b.workers ==> b.workers[id].service.Some?
  }

  ghost predicate Exact(b: State) {
    Strong(b) && Balanced(b) && QueuesSendable(b)
  }

  // The idle set is the union of the lists, no worker is listed twice or in two lists, and
  // each sits in the list of its own service.
  lemma IdleSetIsDisjointUnion(b: State, id: Id)
    requires Strong(b)
    ensures id in b.waiting <==> exists n :: n in b.services && id in b.services[n].waiting
    ensures forall n, m :: (n in b.services && m in b.services
              && id in b.services[n].waiting && id in b.services[m].waiting) ==> n == m
    ensures forall n :: n in b.services ==> NoDuplicates(b.services[n].waiting)
    ensures id in b.waiting ==> IsQueued(b, id)
  {
    if id in b.waiting {
      assert IsQueued(b, id);
    }
    if n :| n in b.services && id in b.services[n].waiting {
      assert TidyAt(b, n) && IsAttached(b, n, id);
    }
    forall n, m | n in b.services && m in b.services
                  && id in b.services[n].waiting && id in b.services[m].waiting
      ensures n == m
    {
      assert IsAttached(b, n, id) && IsAttached(b, m, id);
    }
    forall n | n in b.services ensures NoDuplicates(b.services[n].waiting) {
      assert TidyAt(b, n);
    }
  }

  // -------------------------------------------------------------------------------------
  // Table updates

  lemma WithoutKeepsNoDuplicates(q: seq<Id>, gone: set<Id>)
    requires NoDuplicates(q)
    ensures NoDuplicates(Without(q, gone))
  {
    if q != [] {
      WithoutKeepsNoDuplicates(q[1..], gone);
      var t := Without(q[1..], gone);
      assert forall j :: 0 <= j < |t| ==> t[j] in q[1..];
    }
  }

  lemma DeleteAllKeepsTidy(b: State, gone: set<Id>)
    requires Tidy(b)
    ensures Tidy(DeleteAll(b, gone))
  {
    DeleteAllKeepsInv(b, gone);
    forall n ensures TidyAt(DeleteAll(b, gone), n) {
      assert TidyAt(b, n);
      if n in b.services {
        WithoutKeepsNoDuplicates(b.services[n].waiting, gone);
      }
    }
  }

  // Same lists, same idle set.
  lemma SameListsTidy(b: State, b1: State)
    requires Tidy(b) && Inv(b1) && b1.waiting == b.waiting
    requires forall n :: n in b1.services ==>
               b1.services[n].waiting == if n in b.services then b.services[n].waiting else []
    ensures Tidy(b1)
  {
    forall n ensures TidyAt(b1, n) {
      assert TidyAt(b, n);
    }
  }

  lemma IdleKeepsTidy(b: State, id: Id, now: int)
    requires Tidy(b) && id in b.workers && b.workers[id].service.Some? && id !in b.waiting
    ensures Tidy(Idle(b, id, now))
  {
    IdleKeepsInv(b, id, now);
    forall n ensures TidyAt(Idle(b, id, now), n) {
      assert TidyAt(b, n);
    }
  }

  lemma SendOneKeepsTidy(b: State, m: Name)
    requires Tidy(b) && CanSend(b, m)
    ensures Tidy(SendOne(b, m).0)
  {
    SendOneKeepsInv(b, m);
    var w := Chosen(b, m);
    forall n ensures TidyAt(SendOne(b, m).0, n) {
      assert TidyAt(b, n);
      assert n in b.services && w in b.services[n].waiting ==> IsAttached(b, n, w);
      assert IsAttached(b, m, w);
    }
  }

  lemma {:induction false} DispatchLoopKeepsTidy(b: State, n: Name)
    requires Tidy(b)
    ensures Tidy(DispatchLoop(b, n).0)
    decreases if n in b.services then |b.services[n].requests| else 0
  {
    if CanSend(b, n) {
      SendOneKeepsTidy(b, n);
      DispatchLoopKeepsTidy(SendOne(b, n).0, n);
    }
  }

  lemma DispatchKeepsTidy(b: State, n: Name, msg: Option<Message>, clock: int)
    requires Tidy(b) && n in b.services
    ensures Tidy(Dispatch(b, n, msg, clock).0)
    ensures Dispatch(b, n, msg, clock).0.workers
            == b.workers - Expired(Enqueue(b, n, msg), clock)
  {
    EnqueueKeepsInv(b, n, msg);
    var b1 := Enqueue(b, n, msg);
    SameListsTidy(b, b1);
    DeleteAllKeepsTidy(b1, Expired(b1, clock));
    DispatchLoopKeepsTidy(Purge(b1, clock), n);
    DispatchLoopFrame(Purge(b1, clock), n);
  }

  // -------------------------------------------------------------------------------------
  // Conforming input

  // Commands an mdwrk sends, in an order it can send them.
  ghost predicate ConformingCommand(b: State, sender: Id, parts: Message) {
    && sender != []
    && parts != []
    && var command := CStr(parts[0]);
       || (command == READY && |parts| >= 2 && CStr(parts[1]) != [])
       || (command == REPLY && |parts| >= 2 && sender !in b.waiting)
       || command == HEARTBEAT
       || command == DISCONNECT
  }

  ghost predicate ConformingRequest(b: State, parts: Message) {
    && |parts| >= 2
    && CStr(parts[0]) != []
    && (CStr(parts[0]) == MMI_SERVICE ==>
          Body(parts) in b.services || Body(parts) == MMI_SERVICE)
  }

  ghost predicate Conforming(b: State, i: Input) {
    i.FromPeer? ==>
      && |i.parts| >= 3
      && Sendable(i.parts)
      && (CStr(i.parts[2]) == MDPC_CLIENT ==> ConformingRequest(b, i.parts[3..]))
      && (CStr(i.parts[2]) == MDPW_WORKER ==> ConformingCommand(b, CStr(i.parts[0]), i.parts[3..]))
  }

  // A worker created only to be refused leaves no trace.
  lemma RefusalIsNeutral(b: State, id: Id)
    requires Inv(b) && id !in b.workers
    ensures Delete(WorkerRequire(b, id), id) == b
  {
    var b1 := WorkerRequire(b, id);
    WorkerRequireKeepsInv(b, id);
    var b2 := Delete(b1, id);
    assert id in b.waiting ==> IsQueued(b, id);
    forall n | n in b.services ensures b2.services[n] == b.services[n] {
      RefusalIsNeutralAt(b, id, n);
    }
    SameMap(b2.services, b.services);
    assert b2.workers == b.workers;
    assert b2.waiting == b.waiting;
  }

  lemma RefusalIsNeutralAt(b: State, id: Id, n: Name)
    requires Inv(b) && id !in b.workers && n in b.services
    ensures ServiceWithout(WorkerRequire(b, id), n, {id}) == b.services[n]
  {
    assert Attached(WorkerRequire(b, id), n) * {id} == {};
    assert forall w :: w in b.services[n].waiting ==> IsAttached(b, n, w);
  }

  lemma WorkerWaitingKeepsStrong(b: State, id: Id, now: int, clock: int)
    requires Strong(b) && id in b.workers && id !in b.waiting
    ensures var f := WorkerWaiting(b, id, now, clock); f.Done? && Strong(f.state)
  {
    IdleKeepsTidy(b, id, now);
    DispatchKeepsTidy(Idle(b, id, now), b.workers[id].service.value, None, clock);
  }

  // The state in which worker_process calls worker_waiting for a new worker.
  ghost function Registered(b: State, sender: Id, n: Name): State {
    Attach(ServiceRequire(WorkerRequire(b, sender), n), sender, n)
  }

  lemma RegisteredIsStrong(b: State, sender: Id, n: Name)
    requires Strong(b) && sender !in b.workers
    ensures Strong(Registered(b, sender, n)) && sender !in Registered(b, sender, n).waiting
  {
    WorkerRequireKeepsInv(b, sender);
    ServiceRequireKeepsInv(WorkerRequire(b, sender), n);
    AttachKeepsInv(ServiceRequire(WorkerRequire(b, sender), n), sender, n);
    SameListsTidy(b, Registered(b, sender, n));
    assert sender in b.waiting ==> IsQueued(b, sender);
  }

  lemma OnReadyKeepsStrong(b: State, sender: Id, rest: Message, now: int, clock: int)
    requires Strong(b) && rest != [] && CStr(rest[0]) != []
    ensures var f := OnReady(b, sender, rest, now, clock); f.Done? && Strong(f.state)
  {
    if sender in b.workers {
      DeleteAllKeepsTidy(b, {sender});
    } else {
      RefusalIsNeutral(b, sender);
      RegisteredIsStrong(b, sender, CStr(rest[0]));
      WorkerWaitingKeepsStrong(Registered(b, sender, CStr(rest[0])), sender, now, clock);
    }
  }

  lemma WorkerProcessKeepsStrong(b: State, sender: Id, parts: Message, now: int, clock: int)
    requires Strong(b) && ConformingCommand(b, sender, parts)
    ensures var f := WorkerProcess(b, sender, parts, now, clock); f.Done? && Strong(f.state)
  {
    var command := CStr(parts[0]);
    if command == READY {
      OnReadyKeepsStrong(b, sender, parts[1..], now, clock);
    } else if sender !in b.workers {
      RefusalIsNeutral(b, sender);
    } else if command == REPLY {
      WorkerWaitingKeepsStrong(b, sender, now, clock);
    } else if command == HEARTBEAT {
      RefreshKeepsInv(b, sender, now + HEARTBEAT_EXPIRY);
      SameListsTidy(b, OnHeartbeat(b, sender, now).state);
    } else {
      DeleteAllKeepsTidy(b, {sender});
    }
  }

  lemma WithoutAppend(q: seq<Id>, id: Id, gone: set<Id>)
    requires id !in gone
    ensures Without(q + [id], gone) == Without(q, gone) + [id]
  {
    if q == [] {
      assert q + [id] == [id] && [id][1..] == [];
    } else {
      assert (q + [id])[1..] == q[1..] + [id];
      WithoutAppend(q[1..], id, gone);
    }
  }

  // A worker that is idle already and queued again is listed twice afterwards.
  lemma IdleTwice(b: State, id: Id, now: int, clock: int)
    requires Exact(b) && id in b.waiting && clock < now + HEARTBEAT_EXPIRY
    ensures var f := WorkerWaiting(b, id, now, clock); f.Done? && !Tidy(f.state)
  {
    var n := b.workers[id].service.value;
    assert IsQueued(b, id) && BalancedAt(b, n);
    var b1 := Idle(b, id, now);
    var p := Purge(b1, clock);
    var q := Without(b.services[n].waiting, Expired(b1, clock));
    WithoutAppend(b.services[n].waiting, id, Expired(b1, clock));
    assert p.services[n].waiting == q + [id] && p.services[n].requests == [];
    assert id in q;
    var i :| 0 <= i < |q| && q[i] == id;
    assert (q + [id])[i] == (q + [id])[|q|];
    assert !TidyAt(p, n);
    assert WorkerWaiting(b, id, now, clock) == Done(p, []);
  }

  lemma WithoutLast(q: seq<Id>, id: Id, gone: set<Id>)
    requires id in gone
    ensures Without(q + [id], gone) == Without(q, gone)
  {
    if q == [] {
      assert q + [id] == [id] && [id][1..] == [];
    } else {
      assert (q + [id])[1..] == q[1..] + [id];
      WithoutLast(q[1..], id, gone);
    }
  }

  // Queued again and deleted at once: the entry makes no difference.
  lemma IdleThenGone(b: State, id: Id, now: int, gone: set<Id>)
    requires id in b.workers && b.workers[id].service.Some? && b.workers[id].service.value in b.services
    requires id in gone
    ensures DeleteAll(Idle(b, id, now), gone) == DeleteAll(b, gone)
  {
    IdleThenGoneServices(b, id, now, gone);
    var b1 := Idle(b, id, now);
    assert b1.workers - gone == b.workers - gone;
    assert b1.waiting - gone == b.waiting - gone;
  }

  lemma IdleThenGoneServices(b: State, id: Id, now: int, gone: set<Id>)
    requires id in b.workers && b.workers[id].service.Some? && b.workers[id].service.value in b.services
    requires id in gone
    ensures DeleteAll(Idle(b, id, now), gone).services == DeleteAll(b, gone).services
  {
    var s, s1 := DeleteAll(b, gone).services, DeleteAll(Idle(b, id, now), gone).services;
    forall n | n in b.services ensures s1[n] == s[n] {
      IdleThenGoneAt(b, id, now, gone, n);
    }
    SameMap(s1, s);
  }

  lemma IdleThenGoneAt(b: State, id: Id, now: int, gone: set<Id>, n: Name)
    requires id in b.workers && b.workers[id].service.Some? && b.workers[id].service.value in b.services
    requires id in gone && n in b.services
    ensures ServiceWithout(Idle(b, id, now), n, gone) == ServiceWithout(b, n, gone)
  {
    assert Attached(Idle(b, id, now), n) == Attached(b, n);
    WithoutLast(b.services[n].waiting, id, gone);
  }

  // A worker queued again is deleted by a purge that comes too late for it.
  lemma IdleTooLate(b: State, id: Id, now: int, clock: int)
    requires Exact(b) && id in b.waiting && clock >= now + HEARTBEAT_EXPIRY
    ensures var f := WorkerWaiting(b, id, now, clock); f.Done? && Tidy(f.state)
  {
    assert IsQueued(b, id);
    var n, b1 := b.workers[id].service.value, Idle(b, id, now);
    IdleThenGone(b, id, now, Expired(b1, clock));
    DeleteAllKeepsTidy(b, Expired(b1, clock));
    DispatchLoopKeepsTidy(Purge(b1, clock), n);
    assert Enqueue(b1, n, None) == b1;
  }

  // A REPLY leaves the lists free of duplicates exactly when its sender was not idle, or is
  // deleted by the purge in the same step.
  lemma ReplyKeepsTidyExactly(b: State, sender: Id, rest: Message, now: int, clock: int)
    requires Exact(b) && sender in b.workers && rest != []
    ensures var f := OnReply(b, sender, rest, now, clock);
            f.Done? && (Tidy(f.state) <==> sender !in b.waiting || clock >= now + HEARTBEAT_EXPIRY)
  {
    if sender !in b.waiting {
      WorkerWaitingKeepsStrong(b, sender, now, clock);
    } else if clock >= now + HEARTBEAT_EXPIRY {
      IdleTooLate(b, sender, now, clock);
    } else {
      IdleTwice(b, sender, now, clock);
    }
  }

  lemma DispatchKeepsStrong(b: State, n: Name, msg: Option<Message>, clock: int)
    requires Strong(b) && n in b.services
    ensures Strong(Dispatch(b, n, msg, clock).0)
  {
    DispatchKeepsTidy(b, n, msg, clock);
  }

  lemma ServiceRequireKeepsStrong(b: State, n: Name)
    requires Strong(b)
    ensures Strong(ServiceRequire(b, n))
  {
    ServiceRequireKeepsInv(b, n);
    SameListsTidy(b, ServiceRequire(b, n));
  }

  lemma InternalAnswers(b: State, n: Name, parts: Message, sender: Id)
    requires parts != [] && n in b.services
    requires n == MMI_SERVICE ==> Body(parts) in b.services
    ensures Internal(b, n, Wrap(parts, sender, Some([]))).Done?
    ensures Internal(b, n, Wrap(parts, sender, Some([]))).state == b
  {
    BodyOfWrapped(parts, sender);
  }

  lemma ClientProcessKeepsStrong(b: State, sender: Id, parts: Message, clock: int)
    requires Strong(b) && ConformingRequest(b, parts)
    ensures var f := ClientProcess(b, sender, parts, clock); f.Done? && Strong(f.state)
  {
    BodyOfTail(parts);
    ServeKeepsStrong(b, CStr(parts[0]), parts[1..], sender, clock);
    assert ClientProcess(b, sender, parts, clock)
        == Serve(b, CStr(parts[0]), Wrap(parts[1..], sender, Some([])), clock);
  }

  lemma ServeKeepsStrong(b: State, n: Name, body: Message, sender: Id, clock: int)
    requires Strong(b) && n != [] && body != []
    requires n == MMI_SERVICE ==> Body(body) in b.services || Body(body) == MMI_SERVICE
    ensures var f := Serve(b, n, Wrap(body, sender, Some([])), clock); f.Done? && Strong(f.state)
  {
    ServiceRequireKeepsStrong(b, n);
    var b1 := ServiceRequire(b, n);
    if Reserved(n) {
      InternalAnswers(b1, n, body, sender);
    } else {
      DispatchKeepsStrong(b1, n, Some(Wrap(body, sender, Some([]))), clock);
    }
  }

  lemma ConformingHandleKeepsStrong(b: State, i: Input)
    requires Strong(b) && Conforming(b, i)
    ensures Handle(b, i).Done? && Strong(Handle(b, i).state)
  {
    match i
    case FromPeer(parts, now, clock) =>
      var sender := CStr(parts[0]);
      if CStr(parts[2]) == MDPC_CLIENT {
        ClientProcessKeepsStrong(b, sender, parts[3..], clock);
      } else if CStr(parts[2]) == MDPW_WORKER {
        WorkerProcessKeepsStrong(b, sender, parts[3..], now, clock);
      }
    case Beat(clock, order) =>
      DeleteAllKeepsTidy(b, Expired(b, clock));
  }

  // Conforming input never ends the process and keeps the tables exact.
  lemma ConformingStepKeepsExact(b: State, i: Input)
    requires Exact(b) && Conforming(b, i)
    ensures Step(b, i).Done? && Exact(Step(b, i).state)
  {
    ConformingHandleKeepsStrong(b, i);
    HandleSendsSendable(b, i);
    StepBalances(b, i);
  }

  // -------------------------------------------------------------------------------------
  // Who gets the request

  // The list a dispatch chooses from: those not silent for too long.
  ghost function Live(b: State, n: Name, clock: int): (q: seq<Id>)
    requires n in b.services
  {
    Without(b.services[n].waiting, Expired(b, clock))
  }

  // Entry k is live, the most recently seen, and the first of those.
  ghost predicate MostRecent(b: State, q: seq<Id>, k: nat, clock: int) {
    && k < |q|
    && q[k] in b.workers
    && b.workers[q[k]].expiry > clock
    && (forall j :: 0 <= j < |q| ==> Expiry(b, q[j]) <= Expiry(b, q[k]))
    && (forall j :: 0 <= j < k ==> Expiry(b, q[j]) < Expiry(b, q[k]))
  }

  // The oldest request of the service has left with entry k of the live list.
  ghost predicate SentTo(b: State, n: Name, clock: int, todo: seq<Message>, b1: State, outs: seq<Out>, k: nat)
    requires n in b.services
  {
    var live := Live(b, n, clock);
    && todo != []
    && MostRecent(b, live, k, clock)
    && outs == [Request(live[k], n, todo[0])]
    && n in b1.services
    && b1.services[n].requests == todo[1..]
    && b1.services[n].waiting == live[..k] + live[k + 1..]
    && b1.waiting == b.waiting - Expired(b, clock) - {live[k]}
    && IsAttached(b1, n, live[k])
  }

  ghost predicate NothingSent(b: State, n: Name, clock: int, todo: seq<Message>, b1: State, outs: seq<Out>)
    requires n in b.services
  {
    && (Live(b, n, clock) == [] || todo == [])
    && outs == []
    && n in b1.services
    && b1.services[n].requests == todo
    && b1.services[n].waiting == Live(b, n, clock)
    && b1.waiting == b.waiting - Expired(b, clock)
  }

  // The scan of the list is an arg-max that prefers the earliest entry.
  lemma BestIsMostRecent(b: State, n: Name, clock: int, p: State)
    requires Tidy(b) && n in b.services && Live(b, n, clock) != []
    requires p.workers == b.workers - Expired(b, clock)
    ensures var live := Live(b, n, clock);
            MostRecent(b, live, Best(p, live, |live|), clock)
  {
    var live := Live(b, n, clock);
    var k := Best(p, live, |live|);
    forall j | 0 <= j < |live|
      ensures live[j] in b.workers && live[j] !in Expired(b, clock) && b.workers[live[j]].expiry > clock
    {
      assert live[j] in live && live[j] in b.services[n].waiting;
      assert TidyAt(b, n) && IsAttached(b, n, live[j]);
    }
  }

  // What one dispatch sends from a state with at most one worker or one request: the oldest
  // request, to the most recently seen live worker of the service, which stops being idle.
  lemma DispatchSends(b: State, n: Name, msg: Option<Message>, clock: int)
    requires Tidy(b) && n in b.services
    requires |b.services[n].waiting| <= 1 || |Enqueue(b, n, msg).services[n].requests| <= 1
    ensures var todo := Enqueue(b, n, msg).services[n].requests;
            var (b1, outs) := Dispatch(b, n, msg, clock);
            NothingSent(b, n, clock, todo, b1, outs) || exists k :: SentTo(b, n, clock, todo, b1, outs, k)
  {
    var b0 := Enqueue(b, n, msg);
    var p := Purge(b0, clock);
    PurgedTables(b, n, msg, clock);
    DispatchLoopOnce(p, n);
    if CanSend(p, n) {
      OneSent(b, n, clock, p);
    }
  }

  lemma PurgedTables(b: State, n: Name, msg: Option<Message>, clock: int)
    requires n in b.services
    ensures var b0 := Enqueue(b, n, msg);
            var p := Purge(b0, clock);
            && n in p.services
            && p.services[n].waiting == Live(b, n, clock)
            && p.services[n].requests == b0.services[n].requests
            && p.workers == b.workers - Expired(b, clock)
            && p.waiting == b.waiting - Expired(b, clock)
  {
    assert Expired(Enqueue(b, n, msg), clock) == Expired(b, clock);
  }

  lemma OneSent(b: State, n: Name, clock: int, p: State)
    requires Tidy(b) && n in b.services && CanSend(p, n)
    requires p.services[n].waiting == Live(b, n, clock)
    requires p.workers == b.workers - Expired(b, clock) && p.waiting == b.waiting - Expired(b, clock)
    ensures var live := Live(b, n, clock);
            SentTo(b, n, clock, p.services[n].requests, SendOne(p, n).0, [SendOne(p, n).1], Best(p, live, |live|))
  {
    var live := Live(b, n, clock);
    var k := Best(p, live, |live|);
    BestIsMostRecent(b, n, clock, p);
    assert live[k] in live && live[k] in b.services[n].waiting;
    assert IsAttached(b, n, live[k]);
  }
}
