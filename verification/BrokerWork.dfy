// One step of the broker as its workers see it: who is given work, who is released, and who
// may be deleted.

module BrokerWork {
  import opened Bytes
  import opened Frames
  import opened Mdp
  import opened BrokerSpec
  import opened BrokerInvariants
  import opened BrokerRuns
  import opened BrokerConforming

  // The request went to a worker of its service that was heard of after the purge time and
  // most recently of all that are left, later in the list than no worker seen as recently.
  ghost predicate WellChosen(b1: State, o: Out, clock: int)
    requires o.Request?
  {
    && IsAttached(b1, o.service, o.worker)
    && o.worker !in b1.waiting
    && b1.workers[o.worker].expiry > clock
    && o.service in b1.services
    && var q := b1.services[o.service].waiting;
       exists k :: 0 <= k <= |q| && SplitsAt(b1, q, k, b1.workers[o.worker].expiry)
  }

  ghost predicate SplitsAt(b: State, q: seq<Id>, k: nat, expiry: int) {
    && (forall j :: 0 <= j < |q| && j < k ==> Expiry(b, q[j]) < expiry)
    && (forall j :: k <= j < |q| ==> Expiry(b, q[j]) <= expiry)
  }

  // A busy worker stays registered and busy unless it is the one that spoke; at most one
  // request leaves, to a worker that was idle or just spoke and now is busy.
  ghost predicate WorkEffect(b: State, b1: State, outs: seq<Out>, who: set<Id>, clock: int) {
    && (forall x :: x in b1.workers ==> x in b.workers || x in who)
    && (forall x :: x in b.workers && x !in b.waiting && x !in who ==> x in b1.workers && x !in b1.waiting)
    && (forall x :: x in b1.waiting ==> x in b.waiting || x in who)
    && (forall i, j :: 0 <= i < j < |outs| ==> !(outs[i].Request? && outs[j].Request?))
    && (forall o :: o in outs && o.Request? ==>
          (o.worker in b.waiting || o.worker in who) && WellChosen(b1, o, clock))
  }

  lemma SentToIsWellChosen(b: State, n: Name, clock: int, todo: seq<Message>, b1: State, outs: seq<Out>, k: nat)
    requires Tidy(b) && n in b.services && SentTo(b, n, clock, todo, b1, outs, k)
    requires b1.workers == b.workers - Expired(b, clock)
    ensures WellChosen(b1, outs[0], clock)
  {
    var live, q := Live(b, n, clock), b1.services[n].waiting;
    forall j | 0 <= j < |live|
      ensures live[j] in b1.workers && Expiry(b1, live[j]) == Expiry(b, live[j])
    {
      assert live[j] in live && live[j] in b.services[n].waiting;
      assert IsAttached(b, n, live[j]);
    }
    forall j | 0 <= j < |q|
      ensures q[j] == live[if j < k then j else j + 1]
    {
    }
    assert SplitsAt(b1, q, k, b1.workers[live[k]].expiry);
  }

  lemma SentToEffect(b: State, n: Name, clock: int, todo: seq<Message>, b1: State, outs: seq<Out>, k: nat)
    requires Tidy(b) && n in b.services && SentTo(b, n, clock, todo, b1, outs, k)
    requires b1.workers == b.workers - Expired(b, clock)
    ensures WorkEffect(b, b1, outs, {}, clock)
  {
    SentToIsWellChosen(b, n, clock, todo, b1, outs, k);
    var live := Live(b, n, clock);
    assert live[k] in live;
    assert TidyAt(b, n);
  }

  lemma DispatchWorkers(b: State, n: Name, msg: Option<Message>, clock: int)
    requires n in b.services
    ensures Dispatch(b, n, msg, clock).0.workers == b.workers - Expired(b, clock)
  {
    assert Expired(Enqueue(b, n, msg), clock) == Expired(b, clock);
    DispatchLoopFrame(Purge(Enqueue(b, n, msg), clock), n);
  }

  lemma DispatchEffect(b: State, n: Name, msg: Option<Message>, clock: int)
    requires Tidy(b) && n in b.services
    requires |b.services[n].waiting| <= 1 || |Enqueue(b, n, msg).services[n].requests| <= 1
    ensures var (b1, outs) := Dispatch(b, n, msg, clock);
            WorkEffect(b, b1, outs, {}, clock)
  {
    var todo := Enqueue(b, n, msg).services[n].requests;
    var (b1, outs) := Dispatch(b, n, msg, clock);
    DispatchSends(b, n, msg, clock);
    DispatchWorkers(b, n, msg, clock);
    SendingEffect(b, n, clock, todo, b1, outs);
  }

  lemma SendingEffect(b: State, n: Name, clock: int, todo: seq<Message>, b1: State, outs: seq<Out>)
    requires Tidy(b) && n in b.services && b1.workers == b.workers - Expired(b, clock)
    requires NothingSent(b, n, clock, todo, b1, outs) || exists k :: SentTo(b, n, clock, todo, b1, outs, k)
    ensures WorkEffect(b, b1, outs, {}, clock)
  {
    if k: nat :| SentTo(b, n, clock, todo, b1, outs, k) {
      SentToEffect(b, n, clock, todo, b1, outs, k);
    } else {
      NothingSentEffect(b, n, clock, todo, b1, outs);
    }
  }

  lemma NothingSentEffect(b: State, n: Name, clock: int, todo: seq<Message>, b1: State, outs: seq<Out>)
    requires Tidy(b) && n in b.services && NothingSent(b, n, clock, todo, b1, outs)
    requires b1.workers == b.workers - Expired(b, clock)
    ensures WorkEffect(b, b1, outs, {}, clock)
  {
  }

  lemma WorkerWaitingEffect(b: State, id: Id, now: int, clock: int)
    requires Exact(b) && id in b.workers && id !in b.waiting
    ensures var f := WorkerWaiting(b, id, now, clock);
            f.Done? && WorkEffect(b, f.state, f.outs, {id}, clock)
  {
    var n, b1 := b.workers[id].service.value, Idle(b, id, now);
    IdleKeepsTidy(b, id, now);
    assert BalancedAt(b, n);
    DispatchEffect(b1, n, None, clock);
  }

  // Other outputs before or after, and tables that agree on who is registered and idle,
  // change nothing in the effect.
  lemma PrependKeepsEffect(b: State, f: Fate, o: Out, who: set<Id>, clock: int)
    requires f.Done? && !o.Request? && WorkEffect(b, f.state, f.outs, who, clock)
    ensures WorkEffect(b, Prepend(o, f).state, Prepend(o, f).outs, who, clock)
  {
    var outs := Prepend(o, f).outs;
    forall i, j | 0 <= i < j < |outs| ensures !(outs[i].Request? && outs[j].Request?) {
      if i > 0 {
        assert outs[i] == f.outs[i - 1] && outs[j] == f.outs[j - 1];
      }
    }
    forall x | x in outs && x.Request? ensures (x.worker in b.waiting || x.worker in who) && WellChosen(f.state, x, clock) {
      assert x in f.outs;
    }
  }

  lemma DeletionEffect(b: State, sender: Id, outs: seq<Out>, clock: int)
    requires Inv(b) && forall o :: o in outs ==> !o.Request?
    ensures WorkEffect(b, Delete(WorkerRequire(b, sender), sender), outs, {sender}, clock)
  {
    forall i | 0 <= i < |outs| ensures !outs[i].Request? {
      assert outs[i] in outs;
    }
  }

  lemma RegisteredIsExact(b: State, sender: Id, n: Name)
    requires Exact(b) && sender !in b.workers
    ensures Exact(Registered(b, sender, n)) && sender !in Registered(b, sender, n).waiting
  {
    RegisteredIsStrong(b, sender, n);
    var b1 := Registered(b, sender, n);
    SameQueuesBalance(b, b1);
    forall m, r | r in Requests(b1, m) ensures Sendable(r) {
      assert r in Requests(b, m);
    }
  }

  lemma OnReadyEffect(b: State, sender: Id, rest: Message, now: int, clock: int)
    requires Exact(b) && rest != [] && CStr(rest[0]) != []
    ensures var f := OnReady(b, sender, rest, now, clock);
            f.Done? && WorkEffect(b, f.state, f.outs, {sender}, clock)
  {
    if sender in b.workers || Reserved(sender) {
      DeletionEffect(b, sender, [Disconnect(sender)], clock);
    } else {
      var b1 := Registered(b, sender, CStr(rest[0]));
      RegisteredIsExact(b, sender, CStr(rest[0]));
      WorkerWaitingEffect(b1, sender, now, clock);
    }
  }

  lemma OnReplyEffect(b: State, sender: Id, rest: Message, now: int, clock: int)
    requires Exact(b) && rest != [] && sender !in b.waiting
    ensures var f := OnReply(b, sender, rest, now, clock);
            f.Done? && WorkEffect(b, f.state, f.outs, {sender}, clock)
  {
    if sender !in b.workers {
      DeletionEffect(b, sender, [Disconnect(sender)], clock);
    } else {
      WorkerWaitingEffect(b, sender, now, clock);
      PrependKeepsEffect(b, WorkerWaiting(b, sender, now, clock),
        Answer(UnwrapAddress(rest), b.workers[sender].service.value, UnwrapRest(rest)), {sender}, clock);
    }
  }

  lemma WorkerProcessEffect(b: State, sender: Id, parts: Message, now: int, clock: int)
    requires Exact(b) && ConformingCommand(b, sender, parts)
    ensures var f := WorkerProcess(b, sender, parts, now, clock);
            f.Done? && WorkEffect(b, f.state, f.outs, if CStr(parts[0]) == HEARTBEAT then {} else {sender}, clock)
  {
    var command := CStr(parts[0]);
    if command == READY {
      OnReadyEffect(b, sender, parts[1..], now, clock);
    } else if command == REPLY {
      OnReplyEffect(b, sender, parts[1..], now, clock);
    } else if command == HEARTBEAT {
      if sender !in b.workers {
        RefusalIsNeutral(b, sender);
      }
    } else {
      DeletionEffect(b, sender, [], clock);
    }
  }

  lemma ClientProcessEffect(b: State, sender: Id, parts: Message, clock: int)
    requires Exact(b) && ConformingRequest(b, parts)
    ensures var f := ClientProcess(b, sender, parts, clock);
            f.Done? && WorkEffect(b, f.state, f.outs, {}, clock)
  {
    ClientProcessKeepsStrong(b, sender, parts, clock);
    var n := CStr(parts[0]);
    var b1, msg := ServiceRequire(b, n), Wrap(parts[1..], sender, Some([]));
    if !Reserved(n) {
      ServiceRequireKeepsStrong(b, n);
      assert BalancedAt(b, n);
      DispatchEffect(b1, n, Some(msg), clock);
    }
  }

  // Who may become idle, or be deleted though it was busy, because it spoke itself.
  ghost function Speaker(i: Input): set<Id> {
    if i.FromPeer? && |i.parts| >= 4 && CStr(i.parts[2]) == MDPW_WORKER && CStr(i.parts[3]) != HEARTBEAT
    then {CStr(i.parts[0])}
    else {}
  }

  // In a conforming run no step deletes a busy worker or gives work to more than one, and
  // every request goes to the most recently seen live worker of its service.
  lemma ConformingStepEffect(b: State, i: Input)
    requires Exact(b) && Conforming(b, i)
    ensures Step(b, i).Done?
    ensures WorkEffect(b, Step(b, i).state, Step(b, i).outs, Speaker(i), i.clock)
  {
    ConformingStepKeepsExact(b, i);
    if i.FromPeer? {
      assert MDPC_CLIENT[3] != MDPW_WORKER[3];
      if CStr(i.parts[2]) == MDPC_CLIENT {
        ClientProcessEffect(b, CStr(i.parts[0]), i.parts[3..], i.clock);
      } else if CStr(i.parts[2]) == MDPW_WORKER {
        WorkerProcessEffect(b, CStr(i.parts[0]), i.parts[3..], i.now, i.clock);
      }
    }
  }
}
