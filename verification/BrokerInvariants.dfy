// What every message and every heartbeat round keeps true of the broker's tables, whatever
// its peers send.

module BrokerInvariants {
  import opened Bytes
  import opened Frames
  import opened Mdp
  import opened BrokerSpec

  // The worker is in the list of its own service.
  ghost predicate IsQueued(b: State, id: Id) {
    && id in b.workers
    && b.workers[id].service.Some?
    && b.workers[id].service.value in b.services
    && id in b.services[b.workers[id].service.value].waiting
  }

  // Nothing dangles: a listed worker is registered, with the list's service as its own; an
  // idle worker is in the list of its service; a worker's service exists and counts it.
  ghost predicate Inv(b: State) {
    && (forall n, id :: n in b.services && id in b.services[n].waiting ==> IsAttached(b, n, id))
    && (forall id :: id in b.waiting ==> IsQueued(b, id))
    && (forall id :: id in b.workers && b.workers[id].service.Some? ==>
          b.workers[id].service.value in b.services)
    && (forall n :: n in b.services ==> b.services[n].workers == |Attached(b, n)|)
  }

  predicate BalancedAt(b: State, n: Name) {
    n in b.services ==> b.services[n].waiting == [] || b.services[n].requests == []
  }

  // Work conservation: no request waits while a worker of its service does.
  ghost predicate Balanced(b: State) {
    forall n :: BalancedAt(b, n)
  }

  // -------------------------------------------------------------------------------------
  // Deletion

  lemma SplitSize(s: set<Id>, t: set<Id>)
    ensures |s - t| == |s| - |s * t|
  {
    assert s == (s - t) + (s * t);
  }

  lemma AttachedAfterDelete(b: State, gone: set<Id>, n: Name)
    ensures Attached(DeleteAll(b, gone), n) == Attached(b, n) - gone
  {
    forall id
      ensures id in Attached(DeleteAll(b, gone), n) <==> id in Attached(b, n) - gone
    {
    }
  }

  lemma DeleteAllKeepsInv(b: State, gone: set<Id>)
    requires Inv(b)
    ensures Inv(DeleteAll(b, gone))
  {
    var b1 := DeleteAll(b, gone);
    forall n | n in b1.services ensures b1.services[n].workers == |Attached(b1, n)| {
      AttachedAfterDelete(b, gone, n);
      SplitSize(Attached(b, n), gone);
    }
    forall id | id in b1.waiting ensures IsQueued(b1, id) {
      assert IsQueued(b, id);
    }
    forall n, id | n in b1.services && id in b1.services[n].waiting ensures IsAttached(b1, n, id) {
      assert IsAttached(b, n, id);
    }
  }

  lemma WithoutTwice(q: seq<Id>, s: set<Id>, t: set<Id>)
    ensures Without(Without(q, s), t) == Without(q, s + t)
  {
  }

  lemma SameMap<K, V>(a: map<K, V>, b: map<K, V>)
    requires a.Keys == b.Keys && forall k :: k in a.Keys ==> a[k] == b[k]
    ensures a == b
  {
  }

  lemma DeleteTwiceAt(b: State, s: set<Id>, t: set<Id>, n: Name)
    requires n in b.services
    ensures n in DeleteAll(DeleteAll(b, s), t).services && n in DeleteAll(b, s + t).services
    ensures DeleteAll(DeleteAll(b, s), t).services[n] == DeleteAll(b, s + t).services[n]
  {
    var b1 := DeleteAll(b, s);
    assert n in b1.services;
    ServiceWithoutTwice(b, n, s, t);
  }

  lemma DeleteTwiceServices(b: State, s: set<Id>, t: set<Id>)
    ensures DeleteAll(DeleteAll(b, s), t).services == DeleteAll(b, s + t).services
  {
    forall n | n in b.services
      ensures DeleteAll(DeleteAll(b, s), t).services[n] == DeleteAll(b, s + t).services[n]
    {
      DeleteTwiceAt(b, s, t, n);
    }
    SameMap(DeleteAll(DeleteAll(b, s), t).services, DeleteAll(b, s + t).services);
  }

  // Deleting in two rounds is deleting at once, so the order of deletions is immaterial.
  lemma DeleteTwice(b: State, s: set<Id>, t: set<Id>)
    ensures DeleteAll(DeleteAll(b, s), t) == DeleteAll(b, s + t)
  {
    DeleteTwiceServices(b, s, t);
    assert DeleteAll(DeleteAll(b, s), t).workers == b.workers - (s + t);
  }

  lemma ServiceWithoutTwice(b: State, n: Name, s: set<Id>, t: set<Id>)
    requires n in b.services
    ensures ServiceWithout(DeleteAll(b, s), n, t) == ServiceWithout(b, n, s + t)
  {
    WithoutTwice(b.services[n].waiting, s, t);
    AttachedAfterDelete(b, s, n);
    SizeInTwo(Attached(b, n), s, t);
  }

  // One service's record before and after a worker is deleted; own says it is the worker's.
  ghost predicate RecordWithout(r: ServiceRec, r1: ServiceRec, id: Id, own: bool) {
    if own then r1 == ServiceRec(r.requests, Without(r.waiting, {id}), r.workers - 1) && r.workers >= 1
    else r1 == r && id !in r.waiting
  }

  lemma DeleteOneAt(b: State, id: Id, n: Id)
    requires Inv(b) && id in b.workers && n in b.services
    ensures RecordWithout(b.services[n], Delete(b, id).services[n], id, b.workers[id].service == Some(n))
  {
    if b.workers[id].service == Some(n) {
      var a := Attached(b, n);
      assert a * {id} == {id};
      SplitSize(a, {id});
    } else {
      DeleteStrangerAt(b, id, n);
    }
  }

  lemma DeleteStrangerAt(b: State, id: Id, n: Id)
    requires Inv(b) && id in b.workers && n in b.services && b.workers[id].service != Some(n)
    ensures Delete(b, id).services[n] == b.services[n] && id !in b.services[n].waiting
  {
    assert Attached(b, n) * {id} == {};
    assert forall w :: w in b.services[n].waiting ==> IsAttached(b, n, w);
  }

  // The tables b1 are those of b with one worker deleted.
  ghost predicate TablesWithout(b: State, b1: State, id: Id) {
    && id in b.workers
    && b1.services.Keys == b.services.Keys
    && b1.workers == b.workers - {id}
    && b1.waiting == b.waiting - {id}
    && forall n :: n in b.services ==>
         RecordWithout(b.services[n], b1.services[n], id, b.workers[id].service == Some(n))
  }

  lemma DeleteGivesTablesWithout(b: State, id: Id)
    requires Inv(b) && id in b.workers
    ensures TablesWithout(b, Delete(b, id), id) && Inv(Delete(b, id))
  {
    forall n | n in b.services
      ensures RecordWithout(b.services[n], Delete(b, id).services[n], id, b.workers[id].service == Some(n))
    {
      DeleteOneAt(b, id, n);
    }
    DeleteAllKeepsInv(b, {id});
  }

  lemma SizeInTwo(a: set<Id>, s: set<Id>, t: set<Id>)
    ensures |a * (s + t)| == |a * s| + |(a - s) * t|
  {
    assert a * (s + t) == a * s + (a - s) * t;
  }

  lemma DeleteNobody(b: State, gone: set<Id>)
    requires Inv(b) && gone !! b.workers.Keys
    ensures DeleteAll(b, gone) == b
  {
    var b1 := DeleteAll(b, gone);
    forall n | n in b.services ensures b1.services[n] == b.services[n] {
      DeleteNobodyAt(b, gone, n);
    }
    SameMap(b1.services, b.services);
    assert b1.workers == b.workers;
    assert b1.waiting == b.waiting by {
      assert forall id :: id in b.waiting ==> IsQueued(b, id);
    }
  }

  lemma DeleteNobodyAt(b: State, gone: set<Id>, n: Name)
    requires Inv(b) && gone !! b.workers.Keys && n in b.services
    ensures ServiceWithout(b, n, gone) == b.services[n]
  {
    assert Attached(b, n) * gone == {};
    assert forall id :: id in b.services[n].waiting ==> IsAttached(b, n, id);
  }

  // -------------------------------------------------------------------------------------
  // The other table updates

  lemma WorkerRequireKeepsInv(b: State, id: Id)
    requires Inv(b)
    ensures Inv(WorkerRequire(b, id))
  {
    var b1 := WorkerRequire(b, id);
    forall n | n in b1.services ensures b1.services[n].workers == |Attached(b1, n)| {
      assert Attached(b1, n) == Attached(b, n);
    }
    forall w | w in b1.waiting ensures IsQueued(b1, w) {
      assert IsQueued(b, w);
    }
    forall n, w | n in b1.services && w in b1.services[n].waiting ensures IsAttached(b1, n, w) {
      assert IsAttached(b, n, w);
    }
  }

  lemma ServiceRequireKeepsInv(b: State, m: Name)
    requires Inv(b)
    ensures Inv(ServiceRequire(b, m))
  {
    var b1 := ServiceRequire(b, m);
    forall n | n in b1.services ensures b1.services[n].workers == |Attached(b1, n)| {
      assert Attached(b1, n) == Attached(b, n);
      if n !in b.services {
        assert Attached(b, n) == {};
      }
    }
    forall w | w in b1.waiting ensures IsQueued(b1, w) {
      assert IsQueued(b, w);
    }
    forall n, w | n in b1.services && w in b1.services[n].waiting ensures IsAttached(b1, n, w) {
      assert IsAttached(b, n, w);
    }
  }

  lemma AttachedAfterAttach(b: State, id: Id, m: Name, n: Name)
    requires id in b.workers && b.workers[id].service.None? && m in b.services
    ensures |Attached(Attach(b, id, m), n)| == |Attached(b, n)| + (if n == m then 1 else 0)
  {
    var a, a1 := Attached(b, n), Attached(Attach(b, id, m), n);
    assert id !in a;
    if n == m {
      assert a1 == a + {id};
    } else {
      assert a1 == a;
    }
  }

  lemma AttachKeepsInv(b: State, id: Id, m: Name)
    requires Inv(b) && id in b.workers && b.workers[id].service.None? && m in b.services
    ensures Inv(Attach(b, id, m))
  {
    var b1 := Attach(b, id, m);
    forall n | n in b1.services ensures b1.services[n].workers == |Attached(b1, n)| {
      AttachedAfterAttach(b, id, m, n);
    }
    forall w | w in b1.waiting ensures IsQueued(b1, w) {
      assert IsQueued(b, w);
    }
    forall n, w | n in b1.services && w in b1.services[n].waiting ensures IsAttached(b1, n, w) {
      assert IsAttached(b, n, w);
    }
  }

  lemma IdleKeepsInv(b: State, id: Id, now: int)
    requires Inv(b) && id in b.workers && b.workers[id].service.Some?
    ensures Inv(Idle(b, id, now))
  {
    var b1 := Idle(b, id, now);
    forall n | n in b1.services ensures b1.services[n].workers == |Attached(b1, n)| {
      assert Attached(b1, n) == Attached(b, n);
    }
    forall w | w in b1.waiting ensures IsQueued(b1, w) {
      assert w != id ==> IsQueued(b, w);
    }
    forall n, w | n in b1.services && w in b1.services[n].waiting ensures IsAttached(b1, n, w) {
      assert w in b.services[n].waiting ==> IsAttached(b, n, w);
    }
  }

  // Changing a request queue, or an expiry time, touches nothing the invariant speaks of.
  lemma EnqueueKeepsInv(b: State, m: Name, msg: Option<Message>)
    requires Inv(b) && m in b.services
    ensures Inv(Enqueue(b, m, msg))
  {
    var b1 := Enqueue(b, m, msg);
    forall n | n in b1.services ensures b1.services[n].workers == |Attached(b1, n)| {
      assert Attached(b1, n) == Attached(b, n);
    }
    forall w | w in b1.waiting ensures IsQueued(b1, w) {
      assert IsQueued(b, w);
    }
    forall n, w | n in b1.services && w in b1.services[n].waiting ensures IsAttached(b1, n, w) {
      assert IsAttached(b, n, w);
    }
  }

  lemma RefreshKeepsInv(b: State, id: Id, expiry: int)
    requires Inv(b) && id in b.workers
    ensures Inv(b.(workers := b.workers[id := b.workers[id].(expiry := expiry)]))
  {
    var b1 := b.(workers := b.workers[id := b.workers[id].(expiry := expiry)]);
    forall n | n in b1.services ensures b1.services[n].workers == |Attached(b1, n)| {
      assert Attached(b1, n) == Attached(b, n);
    }
    forall w | w in b1.waiting ensures IsQueued(b1, w) {
      assert IsQueued(b, w);
    }
    forall n, w | n in b1.services && w in b1.services[n].waiting ensures IsAttached(b1, n, w) {
      assert IsAttached(b, n, w);
    }
  }

  lemma SendOneKeepsInv(b: State, m: Name)
    requires Inv(b) && CanSend(b, m)
    ensures Inv(SendOne(b, m).0)
  {
    var b1 := SendOne(b, m).0;
    forall n | n in b1.services ensures b1.services[n].workers == |Attached(b1, n)| {
      assert Attached(b1, n) == Attached(b, n);
    }
    var q := b.services[m].waiting;
    var i := Best(b, q, |q|);
    assert q == q[..i] + [q[i]] + q[i + 1..];
    forall w | w in b1.waiting ensures IsQueued(b1, w) {
      assert IsQueued(b, w);
    }
    forall n, w | n in b1.services && w in b1.services[n].waiting ensures IsAttached(b1, n, w) {
      assert w in b.services[n].waiting;
      assert IsAttached(b, n, w);
    }
  }

  // -------------------------------------------------------------------------------------
  // Dispatch

  lemma {:induction false} DispatchLoopKeepsInv(b: State, n: Name)
    requires Inv(b)
    ensures Inv(DispatchLoop(b, n).0)
    decreases if n in b.services then |b.services[n].requests| else 0
  {
    if CanSend(b, n) {
      SendOneKeepsInv(b, n);
      DispatchLoopKeepsInv(SendOne(b, n).0, n);
    }
  }

  // Dispatching for one service leaves the worker map and all other services alone, and
  // stops only when one side of its own service has run out.
  lemma {:induction false} DispatchLoopFrame(b: State, n: Name)
    requires n in b.services
    ensures var b1 := DispatchLoop(b, n).0;
            && b1.workers == b.workers
            && b1.services.Keys == b.services.Keys
            && (forall m :: m in b.services && m != n ==> b1.services[m] == b.services[m])
            && b1.waiting <= b.waiting
            && BalancedAt(b1, n)
    decreases |b.services[n].requests|
  {
    if CanSend(b, n) {
      DispatchLoopFrame(SendOne(b, n).0, n);
    }
  }

  lemma DispatchKeepsInv(b: State, n: Name, msg: Option<Message>, clock: int)
    requires Inv(b) && n in b.services
    ensures Inv(Dispatch(b, n, msg, clock).0)
  {
    EnqueueKeepsInv(b, n, msg);
    var b1 := Enqueue(b, n, msg);
    DeleteAllKeepsInv(b1, Expired(b1, clock));
    DispatchLoopKeepsInv(Purge(b1, clock), n);
  }

  // Whatever one dispatch purges, of its own service or another, every other service that
  // was balanced still is, and so is its own.
  lemma DispatchBalances(b: State, n: Name, msg: Option<Message>, clock: int)
    requires n in b.services && forall m :: m != n ==> BalancedAt(b, m)
    ensures Balanced(Dispatch(b, n, msg, clock).0)
  {
    var b1 := Purge(Enqueue(b, n, msg), clock);
    var b2 := Dispatch(b, n, msg, clock).0;
    DispatchLoopFrame(b1, n);
    forall m ensures BalancedAt(b2, m) {
      if m != n {
        assert BalancedAt(b, m);
        assert BalancedAt(b1, m);
      }
    }
  }

  // The loop of service_dispatch runs its body at most once.
  lemma DispatchLoopOnce(b: State, n: Name)
    requires n in b.services
    requires |b.services[n].waiting| <= 1 || |b.services[n].requests| <= 1
    ensures DispatchLoop(b, n)
            == if CanSend(b, n) then (SendOne(b, n).0, [SendOne(b, n).1]) else (b, [])
  {
    if CanSend(b, n) {
      var b1 := SendOne(b, n).0;
      assert |b1.services[n].waiting| == |b.services[n].waiting| - 1;
      assert |b1.services[n].requests| == |b.services[n].requests| - 1;
      assert DispatchLoop(b1, n) == (b1, []);
      assert [SendOne(b, n).1] + [] == [SendOne(b, n).1];
    }
  }

  // -------------------------------------------------------------------------------------
  // Whole handlers

  lemma WorkerWaitingKeepsInv(b: State, id: Id, now: int, clock: int)
    requires Inv(b)
    ensures WorkerWaiting(b, id, now, clock).Crash? <==> id !in b.workers || b.workers[id].service.None?
    ensures WorkerWaiting(b, id, now, clock).Done? ==> Inv(WorkerWaiting(b, id, now, clock).state)
  {
    if id in b.workers && b.workers[id].service.Some? {
      IdleKeepsInv(b, id, now);
      DispatchKeepsInv(Idle(b, id, now), b.workers[id].service.value, None, clock);
    }
  }

  lemma OnReadyKeepsInv(b: State, sender: Id, rest: Message, now: int, clock: int)
    requires Inv(b)
    ensures OnReady(b, sender, rest, now, clock).Done? ==> Inv(OnReady(b, sender, rest, now, clock).state)
    ensures OnReady(b, sender, rest, now, clock).Crash?
            <==> sender !in b.workers && !Reserved(sender) && (rest == [] || CStr(rest[0]) == [])
  {
    WorkerRequireKeepsInv(b, sender);
    var b1 := WorkerRequire(b, sender);
    DeleteAllKeepsInv(b1, {sender});
    if sender !in b.workers && rest != [] {
      var n := CStr(rest[0]);
      ServiceRequireKeepsInv(b1, n);
      AttachKeepsInv(ServiceRequire(b1, n), sender, n);
      WorkerWaitingKeepsInv(Attach(ServiceRequire(b1, n), sender, n), sender, now, clock);
    }
  }

  lemma WorkerProcessKeepsInv(b: State, sender: Id, parts: Message, now: int, clock: int)
    requires Inv(b)
    ensures var f := WorkerProcess(b, sender, parts, now, clock); f.Done? ==> Inv(f.state)
  {
    WorkerRequireKeepsInv(b, sender);
    DeleteAllKeepsInv(WorkerRequire(b, sender), {sender});
    WorkerWaitingKeepsInv(b, sender, now, clock);
    if parts != [] {
      OnReadyKeepsInv(b, sender, parts[1..], now, clock);
    }
    if sender in b.workers {
      RefreshKeepsInv(b, sender, now + HEARTBEAT_EXPIRY);
    }
  }

  lemma ClientProcessKeepsInv(b: State, sender: Id, parts: Message, clock: int)
    requires Inv(b)
    ensures var f := ClientProcess(b, sender, parts, clock); f.Done? ==> Inv(f.state)
  {
    if |parts| >= 2 && CStr(parts[0]) != [] {
      var n := CStr(parts[0]);
      ServiceRequireKeepsInv(b, n);
      DispatchKeepsInv(ServiceRequire(b, n), n, Some(Wrap(parts[1..], sender, Some([]))), clock);
    }
  }

  lemma StepKeepsInv(b: State, i: Input)
    requires Inv(b) && Step(b, i).Done?
    ensures Inv(Step(b, i).state)
  {
    match i
    case FromPeer(parts, now, clock) =>
      if |parts| >= 3 {
        ClientProcessKeepsInv(b, CStr(parts[0]), parts[3..], clock);
        WorkerProcessKeepsInv(b, CStr(parts[0]), parts[3..], now, clock);
      }
    case Beat(clock, order) =>
      DeleteAllKeepsInv(b, Expired(b, clock));
  }

  lemma WorkerWaitingBalances(b: State, id: Id, now: int, clock: int)
    requires Balanced(b)
    ensures var f := WorkerWaiting(b, id, now, clock); f.Done? ==> Balanced(f.state)
  {
    if WorkerWaiting(b, id, now, clock).Done? {
      var n := b.workers[id].service.value;
      var b1 := Idle(b, id, now);
      forall m | m != n ensures BalancedAt(b1, m) {
        assert BalancedAt(b, m);
      }
      DispatchBalances(b1, n, None, clock);
    }
  }

  lemma DeleteAllBalances(b: State, gone: set<Id>)
    requires Balanced(b)
    ensures Balanced(DeleteAll(b, gone))
  {
    forall m ensures BalancedAt(DeleteAll(b, gone), m) {
      assert BalancedAt(b, m);
    }
  }

  // Changes that leave every list and queue as it was.
  lemma SameQueuesBalance(b: State, b1: State)
    requires Balanced(b)
    requires forall m :: m in b1.services ==>
               if m in b.services
               then b1.services[m].waiting == b.services[m].waiting && b1.services[m].requests == b.services[m].requests
               else b1.services[m].waiting == []
    ensures Balanced(b1)
  {
    forall m ensures BalancedAt(b1, m) {
      assert BalancedAt(b, m);
    }
  }

  lemma OnReadyBalances(b: State, sender: Id, rest: Message, now: int, clock: int)
    requires Balanced(b)
    ensures var f := OnReady(b, sender, rest, now, clock); f.Done? ==> Balanced(f.state)
  {
    var b1 := WorkerRequire(b, sender);
    SameQueuesBalance(b, b1);
    DeleteAllBalances(b1, {sender});
    if sender !in b.workers && rest != [] {
      var n := CStr(rest[0]);
      var b2 := Attach(ServiceRequire(b1, n), sender, n);
      SameQueuesBalance(b, b2);
      WorkerWaitingBalances(b2, sender, now, clock);
    }
  }

  lemma WorkerProcessBalances(b: State, sender: Id, parts: Message, now: int, clock: int)
    requires Balanced(b)
    ensures var f := WorkerProcess(b, sender, parts, now, clock); f.Done? ==> Balanced(f.state)
  {
    SameQueuesBalance(b, WorkerRequire(b, sender));
    DeleteAllBalances(WorkerRequire(b, sender), {sender});
    WorkerWaitingBalances(b, sender, now, clock);
    if parts != [] {
      OnReadyBalances(b, sender, parts[1..], now, clock);
    }
    if sender in b.workers {
      var w := b.workers[sender].(expiry := now + HEARTBEAT_EXPIRY);
      SameQueuesBalance(b, b.(workers := b.workers[sender := w]));
    }
  }

  // Work conservation between events, whatever the peers send and whoever gets purged.
  lemma StepBalances(b: State, i: Input)
    requires Balanced(b) && Step(b, i).Done?
    ensures Balanced(Step(b, i).state)
  {
    match i
    case FromPeer(parts, now, clock) =>
      if |parts| >= 3 {
        var sender, rest := CStr(parts[0]), parts[3..];
        WorkerProcessBalances(b, sender, rest, now, clock);
        if |rest| >= 2 && CStr(rest[0]) != [] {
          var n := CStr(rest[0]);
          var b1 := ServiceRequire(b, n);
          SameQueuesBalance(b, b1);
          DispatchBalances(b1, n, Some(Wrap(rest[1..], sender, Some([]))), clock);
        }
      }
    case Beat(clock, order) =>
      DeleteAllBalances(b, Expired(b, clock));
  }
}
