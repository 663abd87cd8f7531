// The Paranoid Pirate queue of ppqueue.cpp as functions on values: a queue of workers ready
// for a request, least recently used first, and one turn of the loop in main.

module PirateSpec {
  import opened Bytes
  import opened Frames
  import Uuid

  const HEARTBEAT_LIVENESS := 3
  const HEARTBEAT_INTERVAL := 1000
  const EXPIRY := HEARTBEAT_INTERVAL * HEARTBEAT_LIVENESS

  const READY: Frame := [82, 69, 65, 68, 89]                          // "READY"
  const HEARTBEAT: Frame := [72, 69, 65, 82, 84, 66, 69, 65, 84]      // "HEARTBEAT"

  datatype Entry = Entry(identity: Frame, expiry: int)

  type Queue = seq<Entry>

  // -------------------------------------------------------------------------------------
  // The queue

  // The place of a worker, or the length of the queue if it is not there.
  function Position(q: Queue, id: Frame): (i: nat)
    ensures i <= |q|
    ensures i < |q| ==> q[i].identity == id
    ensures forall j :: 0 <= j < i ==> q[j].identity != id
  {
    if q == [] || q[0].identity == id then 0 else 1 + Position(q[1..], id)
  }

  predicate Has(q: Queue, id: Frame) {
    Position(q, id) < |q|
  }

  function Append(q: Queue, id: Frame, clock: int): Queue {
    if Has(q, id) then q else q + [Entry(id, clock + EXPIRY)]
  }

  function Remove(q: Queue, id: Frame): Queue {
    if Has(q, id) then q[..Position(q, id)] + q[Position(q, id) + 1..] else q
  }

  function Refresh(q: Queue, id: Frame, clock: int): Queue {
    if Has(q, id) then q[Position(q, id) := Entry(id, clock + EXPIRY)] else q
  }

  // Those that have not expired, in their order.
  function Purge(q: Queue, clock: int): (r: Queue)
    ensures forall e :: e in r <==> e in q && clock <= e.expiry
  {
    if q == [] then []
    else if clock > q[0].expiry then Purge(q[1..], clock)
    else [q[0]] + Purge(q[1..], clock)
  }

  predicate Distinct(q: Queue) {
    forall i, j :: 0 <= i < j < |q| ==> q[i].identity != q[j].identity
  }

  // -------------------------------------------------------------------------------------
  // One turn of the loop

  // A message a ROUTER socket delivers: the identity of its sender, and what it sent.
  datatype Received = Received(from: Frame, frames: Message)

  function Parts(r: Received): (parts: Message)
    ensures |parts| == 1 + |r.frames|
  {
    WireIn([r.from] + r.frames)
  }

  datatype Output = ToClients(frames: Message) | ToWorkers(frames: Message)

  // A failed assert: dequeueing from an empty queue, or a part zmsg::send refuses.
  datatype Cause = EmptyQueue | Unsendable

  datatype State = State(queue: Queue, heartbeatAt: int)

  datatype Fate<+S> = Done(state: S, outs: seq<Output>) | Crash(cause: Cause)

  function Sent(parts: Message, o: Output): seq<Output> {
    if parts == [] then [] else [o]
  }

  function Control(q: Queue, id: Frame, word: Frame, clock: int): Queue {
    if word == READY then Append(Remove(q, id), id, clock)
    else if word == HEARTBEAT then Refresh(q, id, clock)
    else q
  }

  // A message from a worker: a control word, or a reply to forward.
  function OnBackend(q: Queue, r: Received, clock: int): Fate<Queue> {
    var id, rest := UnwrapAddress(Parts(r)), UnwrapRest(Parts(r));
    if |rest| == 1 then Done(Control(q, id, CStr(rest[0]), clock), [])
    else if !Sendable(rest) then Crash(Unsendable)
    else Done(Append(q, id, clock), Sent(rest, ToClients(WireOut(rest))))
  }

  // A client's request goes to the worker at the front.
  function OnFrontend(q: Queue, r: Received): Fate<Queue> {
    if q == [] then Crash(EmptyQueue)
    else if !Sendable(Parts(r)) then Crash(Unsendable)
    else Done(q[1..], [ToWorkers(WireOut(PushFront(Parts(r), q[0].identity)))])
  }

  function HeartbeatTo(id: Frame): Output {
    ToWorkers(WireOut(Wrap([HEARTBEAT], id, None)))
  }

  function Heartbeats(q: Queue): (outs: seq<Output>)
    ensures |outs| == |q|
  {
    seq(|q|, i requires 0 <= i < |q| => HeartbeatTo(q[i].identity))
  }

  // What waits on the two sockets when the loop polls, and the readings of the clock: in the
  // backend handler, for the heartbeat check, after the heartbeats, and in the purge.
  datatype Turn = Turn(backend: Option<Received>, frontend: Option<Received>,
                       now: int, check: int, reset: int, purge: int)

  // The frontend is polled only when some worker is ready.
  function Polled(q: Queue, t: Turn): Option<Received> {
    if |q| > 0 then t.frontend else None
  }

  function Backend(q: Queue, t: Turn): Fate<Queue> {
    if t.backend.Some? then OnBackend(q, t.backend.value, t.now) else Done(q, [])
  }

  function Frontend(q: Queue, polled: Option<Received>): Fate<Queue> {
    if polled.Some? then OnFrontend(q, polled.value) else Done(q, [])
  }

  function Beat(q: Queue, heartbeatAt: int, t: Turn): (int, seq<Output>) {
    if t.check > heartbeatAt then (t.reset + HEARTBEAT_INTERVAL, Heartbeats(q)) else (heartbeatAt, [])
  }

  // The two handlers.
  function Handle(q: Queue, t: Turn): Fate<Queue> {
    match Backend(q, t)
    case Crash(cause) => Crash(cause)
    case Done(q1, outs1) =>
      match Frontend(q1, Polled(q, t))
      case Crash(cause) => Crash(cause)
      case Done(q2, outs2) => Done(q2, outs1 + outs2)
  }

  function Step(s: State, t: Turn): Fate<State> {
    match Handle(s.queue, t)
    case Crash(cause) => Crash(cause)
    case Done(q, outs) =>
      var (heartbeatAt, beats) := Beat(q, s.heartbeatAt, t);
      Done(State(Purge(q, t.purge), heartbeatAt), outs + beats)
  }

  lemma StepSends(s: State, t: Turn, sent0: seq<Output>, sent1: seq<Output>, sent2: seq<Output>)
    requires var h := Handle(s.queue, t);
             h.Done? && sent1 == sent0 + h.outs && sent2 == sent1 + Beat(h.state, s.heartbeatAt, t).1
    ensures Step(s, t).Done? && sent2 == sent0 + Step(s, t).outs
  {
  }

  // The loop: the states it goes through, as long as no assert fails.
  ghost predicate IsRun(states: seq<State>, turns: seq<Turn>) {
    && |states| == |turns| + 1
    && forall k :: 0 <= k < |turns| ==> Step(states[k], turns[k]).Done? && Step(states[k], turns[k]).state == states[k + 1]
  }

  lemma RunSnoc(states: seq<State>, turns: seq<Turn>, t: Turn)
    requires IsRun(states, turns) && Step(states[|turns|], t).Done?
    ensures IsRun(states + [Step(states[|turns|], t).state], turns + [t])
  {
    var s1, t1 := states + [Step(states[|turns|], t).state], turns + [t];
    forall k | 0 <= k < |t1| ensures Step(s1[k], t1[k]).Done? && Step(s1[k], t1[k]).state == s1[k + 1] {
      assert s1[k] == states[k];
      if k < |turns| {
        assert t1[k] == turns[k] && s1[k + 1] == states[k + 1];
      }
    }
  }

  // -------------------------------------------------------------------------------------
  // Identities stay distinct

  lemma PurgeAppend(q: Queue, e: Entry, clock: int)
    ensures Purge(q + [e], clock) == Purge(q, clock) + (if clock > e.expiry then [] else [e])
  {
    if q != [] {
      assert (q + [e])[1..] == q[1..] + [e];
      PurgeAppend(q[1..], e, clock);
    }
  }

  // The purge has looked at the first n entries: the next to look at is at place i.
  predicate PurgedTo(q: Queue, n: nat, clock: int, now: Queue, i: int)
    requires n <= |q|
  {
    i == |Purge(q[..n], clock)| && now == Purge(q[..n], clock) + q[n..]
  }

  lemma PurgeOne(q: Queue, n: nat, clock: int, now: Queue, i: int)
    requires n <= |q| && PurgedTo(q, n, clock, now, i) && i < |now|
    ensures n < |q|
    ensures if clock > now[i].expiry then PurgedTo(q, n + 1, clock, now[..i] + now[i + 1..], i)
            else PurgedTo(q, n + 1, clock, now, i + 1)
  {
    var kept := Purge(q[..n], clock);
    assert now[i] == q[n];
    assert q[..n + 1] == q[..n] + [q[n]];
    PurgeAppend(q[..n], q[n], clock);
    assert now[..i] == kept && now[i + 1..] == q[n + 1..];
    assert now == kept + [q[n]] + q[n + 1..];
  }

  lemma PurgedAll(q: Queue, n: nat, clock: int, now: Queue, i: int)
    requires n <= |q| && PurgedTo(q, n, clock, now, i) && i >= |now|
    ensures now == Purge(q, clock)
  {
    assert q[..n] == q;
  }

  lemma {:induction false} PurgeKeepsDistinct(q: Queue, clock: int)
    requires Distinct(q)
    ensures Distinct(Purge(q, clock))
    ensures |Purge(q, clock)| <= |q|
  {
    if q != [] {
      PurgeKeepsDistinct(q[1..], clock);
      var r := Purge(q[1..], clock);
      forall j | 0 <= j < |r| ensures r[j].identity != q[0].identity {
        assert r[j] in q[1..];
      }
    }
  }

  lemma RemoveTakesOut(q: Queue, id: Frame)
    requires Distinct(q)
    ensures Distinct(Remove(q, id)) && !Has(Remove(q, id), id)
  {
  }

  lemma ControlKeepsDistinct(q: Queue, id: Frame, word: Frame, clock: int)
    requires Distinct(q)
    ensures Distinct(Control(q, id, word, clock))
  {
    RemoveTakesOut(q, id);
  }

  lemma BackendKeepsDistinct(q: Queue, t: Turn)
    requires Distinct(q) && Backend(q, t).Done?
    ensures Distinct(Backend(q, t).state)
  {
    if t.backend.Some? {
      var id, rest := UnwrapAddress(Parts(t.backend.value)), UnwrapRest(Parts(t.backend.value));
      if |rest| == 1 {
        ControlKeepsDistinct(q, id, CStr(rest[0]), t.now);
      }
    }
  }

  // The frontend is never served from an empty queue: no handler of the backend empties it.
  lemma BackendKeepsSome(q: Queue, t: Turn)
    requires q != [] && Backend(q, t).Done?
    ensures Backend(q, t).state != []
  {
  }

  lemma StepKeepsDistinct(s: State, t: Turn)
    requires Distinct(s.queue) && Step(s, t).Done?
    ensures Distinct(Step(s, t).state.queue)
  {
    BackendKeepsDistinct(s.queue, t);
    var q1 := Backend(s.queue, t).state;
    PurgeKeepsDistinct(Frontend(q1, Polled(s.queue, t)).state, t.purge);
  }

  lemma {:induction false} RunsKeepDistinct(states: seq<State>, turns: seq<Turn>, k: nat)
    requires IsRun(states, turns) && Distinct(states[0].queue) && k < |states|
    ensures Distinct(states[k].queue)
  {
    if k > 0 {
      RunsKeepDistinct(states, turns, k - 1);
      StepKeepsDistinct(states[k - 1], turns[k - 1]);
    }
  }

  // The assert in dequeue never fails: a turn crashes exactly when it would send a part that
  // zmsg::send refuses.
  lemma OnlyUnsendablePartsCrash(s: State, t: Turn)
    ensures Step(s, t) != Crash(EmptyQueue)
    ensures Step(s, t).Crash?
            <==> || (t.backend.Some? && |UnwrapRest(Parts(t.backend.value))| != 1
                     && !Sendable(UnwrapRest(Parts(t.backend.value))))
                 || (s.queue != [] && t.frontend.Some? && !Sendable(Parts(t.frontend.value)))
  {
    if s.queue != [] && Backend(s.queue, t).Done? {
      BackendKeepsSome(s.queue, t);
    }
  }

  // -------------------------------------------------------------------------------------
  // Bounded overtaking

  // The worker a turn gives a request to.
  function Taken(s: State, t: Turn): Option<Frame> {
    var b := Backend(s.queue, t);
    if b.Done? && b.state != [] && Polled(s.queue, t).Some? then Some(b.state[0].identity) else None
  }

  predicate SaysReady(t: Turn, id: Frame) {
    && t.backend.Some?
    && UnwrapAddress(Parts(t.backend.value)) == id
    && |UnwrapRest(Parts(t.backend.value))| == 1
    && CStr(UnwrapRest(Parts(t.backend.value))[0]) == READY
  }

  // The turn drops the worker for having been silent too long.
  predicate Purged(s: State, t: Turn, id: Frame) {
    && Step(s, t).Done?
    && Taken(s, t) != Some(id)
    && Has(Backend(s.queue, t).state, id)
    && !Has(Step(s, t).state.queue, id)
  }

  lemma PositionAfterRemove(q: Queue, other: Frame, id: Frame)
    requires other != id && Has(q, id)
    ensures Has(Remove(q, other), id) && Position(Remove(q, other), id) <= Position(q, id)
  {
    var r, i := Remove(q, other), Position(q, id);
    if Has(q, other) && Position(q, other) < i {
      assert r[i - 1] == q[i];
      PositionAtMost(r, id, i - 1);
    } else {
      assert r[i] == q[i];
      PositionAtMost(r, id, i);
    }
  }

  lemma PositionAtMost(q: Queue, id: Frame, i: nat)
    requires i < |q| && q[i].identity == id
    ensures Position(q, id) <= i
  {
  }

  lemma PositionAfterAppend(q: Queue, other: Frame, clock: int, id: Frame)
    requires Has(q, id)
    ensures Has(Append(q, other, clock), id) && Position(Append(q, other, clock), id) <= Position(q, id)
  {
    PositionAtMost(Append(q, other, clock), id, Position(q, id));
  }

  lemma PositionAfterRefresh(q: Queue, other: Frame, clock: int, id: Frame)
    requires Has(q, id)
    ensures Has(Refresh(q, other, clock), id) && Position(Refresh(q, other, clock), id) <= Position(q, id)
  {
    PositionAtMost(Refresh(q, other, clock), id, Position(q, id));
  }

  lemma PositionAfterControl(q: Queue, sender: Frame, word: Frame, clock: int, id: Frame)
    requires Has(q, id) && !(sender == id && word == READY)
    ensures var q1 := Control(q, sender, word, clock);
            Has(q1, id) && Position(q1, id) <= Position(q, id)
  {
    PositionAfterRefresh(q, sender, clock, id);
    if sender != id {
      PositionAfterRemove(q, sender, id);
      PositionAfterAppend(Remove(q, sender), sender, clock, id);
    }
  }

  lemma PositionAfterBackend(q: Queue, t: Turn, id: Frame)
    requires Has(q, id) && !SaysReady(t, id) && Backend(q, t).Done?
    ensures Has(Backend(q, t).state, id) && Position(Backend(q, t).state, id) <= Position(q, id)
  {
    if t.backend.Some? {
      var sender, rest := UnwrapAddress(Parts(t.backend.value)), UnwrapRest(Parts(t.backend.value));
      if |rest| == 1 {
        PositionAfterControl(q, sender, CStr(rest[0]), t.now, id);
      } else {
        PositionAfterAppend(q, sender, t.now, id);
      }
    }
  }

  lemma {:induction false} PositionAfterPurge(q: Queue, clock: int, id: Frame)
    requires Distinct(q) && Has(Purge(q, clock), id)
    ensures Has(q, id) && Position(Purge(q, clock), id) <= Position(q, id)
  {
    if q[0].identity != id {
      PositionAfterPurge(q[1..], clock, id);
    } else {
      NotKept(q[1..], clock, id);
    }
  }

  lemma NotKept(q: Queue, clock: int, id: Frame)
    requires forall j :: 0 <= j < |q| ==> q[j].identity != id
    ensures !Has(Purge(q, clock), id)
  {
    var r := Purge(q, clock);
    forall j | 0 <= j < |r| ensures r[j].identity != id {
      assert r[j] in q;
    }
  }

  lemma PositionAfterTail(q: Queue, id: Frame)
    requires Has(q, id) && q[0].identity != id
    ensures Has(q[1..], id) && Position(q[1..], id) == Position(q, id) - 1
  {
  }

  // No turn moves a worker back: each request that does not go to it brings it one nearer.
  lemma NeverMovesBack(s: State, t: Turn, id: Frame)
    requires Distinct(s.queue) && Step(s, t).Done? && Has(s.queue, id)
    requires !SaysReady(t, id) && !Purged(s, t, id) && Taken(s, t) != Some(id)
    ensures var s1 := Step(s, t).state;
            Has(s1.queue, id)
            && Position(s1.queue, id) + (if Taken(s, t).Some? then 1 else 0) <= Position(s.queue, id)
  {
    var q1 := Backend(s.queue, t).state;
    PositionAfterBackend(s.queue, t, id);
    BackendKeepsDistinct(s.queue, t);
    BackendKeepsSome(s.queue, t);
    if Polled(s.queue, t).Some? {
      PositionAfterTail(q1, id);
    }
    PositionAfterPurge(Frontend(q1, Polled(s.queue, t)).state, t.purge, id);
  }

  // Requests served in the first k turns.
  function Served(states: seq<State>, turns: seq<Turn>, k: nat): nat
    requires k <= |turns| <= |states|
  {
    if k == 0 then 0
    else Served(states, turns, k - 1) + (if Taken(states[k - 1], turns[k - 1]).Some? then 1 else 0)
  }

  ghost predicate Undisturbed(states: seq<State>, turns: seq<Turn>, id: Frame)
    requires |turns| <= |states|
  {
    forall k :: 0 <= k < |turns| ==> !SaysReady(turns[k], id) && !Purged(states[k], turns[k], id)
  }

  ghost predicate Gets(states: seq<State>, turns: seq<Turn>, id: Frame, k: nat)
    requires |turns| <= |states|
  {
    k < |turns| && Taken(states[k], turns[k]) == Some(id)
  }

  lemma {:induction false} AdvancesOrGets(states: seq<State>, turns: seq<Turn>, id: Frame, n: nat)
    requires IsRun(states, turns) && Distinct(states[0].queue) && Has(states[0].queue, id)
    requires Undisturbed(states, turns, id) && n <= |turns|
    ensures var i := Position(states[0].queue, id);
            || (exists k: nat :: k < n && Gets(states, turns, id, k) && Served(states, turns, k) <= i)
            || (Has(states[n].queue, id) && Position(states[n].queue, id) + Served(states, turns, n) <= i)
  {
    if n > 0 {
      AdvancesOrGets(states, turns, id, n - 1);
      RunsKeepDistinct(states, turns, n - 1);
      if Taken(states[n - 1], turns[n - 1]) == Some(id) {
        assert Gets(states, turns, id, n - 1);
      } else if Has(states[n - 1].queue, id) {
        NeverMovesBack(states[n - 1], turns[n - 1], id);
      }
    }
  }

  // A worker at place i gets one of the next i + 1 requests, unless it is purged or
  // registers again before that.
  lemma BoundedOvertaking(states: seq<State>, turns: seq<Turn>, id: Frame)
    requires IsRun(states, turns) && Distinct(states[0].queue) && Has(states[0].queue, id)
    requires Undisturbed(states, turns, id)
    requires Served(states, turns, |turns|) > Position(states[0].queue, id)
    ensures exists k: nat :: Gets(states, turns, id, k) && Served(states, turns, k) <= Position(states[0].queue, id)
  {
    AdvancesOrGets(states, turns, id, |turns|);
  }

  lemma FreshEntryStays(q: Queue, clock: int, i: nat)
    requires i < |q| && clock <= q[i].expiry
    ensures Has(Purge(q, clock), q[i].identity)
  {
    var r := Purge(q, clock);
    assert q[i] in r;
    var j :| 0 <= j < |r| && r[j] == q[i];
    PositionAtMost(r, q[i].identity, j);
  }

  // A turn drops a worker it does not give a request to exactly when the last sign of life of
  // that worker is more than three intervals old.
  lemma PurgedExactlyWhenSilent(s: State, t: Turn, id: Frame)
    requires Distinct(s.queue) && Step(s, t).Done? && Taken(s, t) != Some(id) && Has(Backend(s.queue, t).state, id)
    ensures var q := Backend(s.queue, t).state;
            Purged(s, t, id) <==> t.purge > q[Position(q, id)].expiry
  {
    var q2 := Handle(s.queue, t).state;
    var i := PlaceAfterHandling(s.queue, t, id);
    if t.purge <= q2[i].expiry {
      FreshEntryStays(q2, t.purge, i);
    } else {
      ExpiredEntryGoes(q2, t.purge, i);
    }
  }

  // Where a worker that is given no request stands after the two handlers.
  lemma PlaceAfterHandling(q: Queue, t: Turn, id: Frame) returns (i: nat)
    requires Distinct(q) && Handle(q, t).Done? && Has(Backend(q, t).state, id)
    requires Polled(q, t).Some? ==> Backend(q, t).state[0].identity != id
    ensures var q1, q2 := Backend(q, t).state, Handle(q, t).state;
            && Distinct(q2) && i < |q2| && q2[i] == q1[Position(q1, id)]
  {
    BackendKeepsDistinct(q, t);
    var q1 := Backend(q, t).state;
    i := if Polled(q, t).Some? then Position(q1, id) - 1 else Position(q1, id);
  }

  lemma ExpiredEntryGoes(q: Queue, clock: int, i: nat)
    requires Distinct(q) && i < |q| && clock > q[i].expiry
    ensures !Has(Purge(q, clock), q[i].identity)
  {
    var r := Purge(q, clock);
    forall j | 0 <= j < |r| ensures r[j].identity != q[i].identity {
      assert r[j] in q && r[j] != q[i];
    }
  }

  // -------------------------------------------------------------------------------------
  // Expiry

  // When each worker last gave a sign of life that counts. A reply from a worker that is in
  // the queue does not.
  ghost function Hear(heard: map<Frame, int>, q: Queue, t: Turn): map<Frame, int> {
    if t.backend.None? then heard
    else
      var id, rest := UnwrapAddress(Parts(t.backend.value)), UnwrapRest(Parts(t.backend.value));
      var counts := if |rest| == 1 then CStr(rest[0]) in [READY, HEARTBEAT] else !Has(q, id);
      if counts then heard[id := t.now] else heard
  }

  ghost predicate ExpiryExact(q: Queue, heard: map<Frame, int>) {
    forall e :: e in q ==> e.identity in heard && e.expiry == heard[e.identity] + EXPIRY
  }

  lemma RefreshExpiry(q: Queue, id: Frame, clock: int, heard: map<Frame, int>)
    requires Distinct(q) && ExpiryExact(q, heard)
    ensures ExpiryExact(Refresh(q, id, clock), heard[id := clock])
  {
    var r := Refresh(q, id, clock);
    forall i | 0 <= i < |r| ensures r[i].identity in heard[id := clock] && r[i].expiry == heard[id := clock][r[i].identity] + EXPIRY {
      if r[i].identity != id {
        assert r[i] == q[i] && q[i] in q;
      }
    }
  }

  lemma RejoinExpiry(q: Queue, id: Frame, clock: int, heard: map<Frame, int>)
    requires Distinct(q) && ExpiryExact(q, heard)
    ensures ExpiryExact(Append(Remove(q, id), id, clock), heard[id := clock])
  {
    RemoveTakesOut(q, id);
    var r := Remove(q, id);
    RemoveKeepsOthers(q, id);
    assert forall e :: e in r ==> e in q && e.identity != id;
  }

  lemma RemoveKeepsOthers(q: Queue, id: Frame)
    requires Distinct(q)
    ensures forall e :: e in Remove(q, id) ==> e in q && e.identity != id
  {
    var i := Position(q, id);
    assert forall j :: 0 <= j < |q| && j != i ==> q[j].identity != id;
  }

  lemma BackendExpiry(q: Queue, t: Turn, heard: map<Frame, int>)
    requires Distinct(q) && ExpiryExact(q, heard) && Backend(q, t).Done?
    ensures ExpiryExact(Backend(q, t).state, Hear(heard, q, t))
  {
    if t.backend.Some? {
      var id := UnwrapAddress(Parts(t.backend.value));
      RefreshExpiry(q, id, t.now, heard);
      RejoinExpiry(q, id, t.now, heard);
      JoinExpiry(q, id, t.now, heard);
    }
  }

  lemma JoinExpiry(q: Queue, id: Frame, clock: int, heard: map<Frame, int>)
    requires ExpiryExact(q, heard)
    ensures ExpiryExact(Append(q, id, clock), if Has(q, id) then heard else heard[id := clock])
  {
    if !Has(q, id) {
      forall i | 0 <= i < |q| ensures q[i].identity != id && q[i] in q {
      }
    }
  }

  ghost function HeardBy(states: seq<State>, turns: seq<Turn>, k: nat): map<Frame, int>
    requires k <= |turns| <= |states|
  {
    if k == 0 then map[] else Hear(HeardBy(states, turns, k - 1), states[k - 1].queue, turns[k - 1])
  }

  // In every run each entry expires three intervals after the last sign of life that counts.
  lemma {:induction false} RunExpiry(states: seq<State>, turns: seq<Turn>, k: nat)
    requires IsRun(states, turns) && states[0].queue == [] && k <= |turns|
    ensures ExpiryExact(states[k].queue, HeardBy(states, turns, k))
  {
    if k > 0 {
      RunExpiry(states, turns, k - 1);
      TurnExpiry(states, turns, k - 1, HeardBy(states, turns, k - 1));
    }
  }

  lemma TurnExpiry(states: seq<State>, turns: seq<Turn>, k: nat, heard: map<Frame, int>)
    requires IsRun(states, turns) && states[0].queue == [] && k < |turns| && ExpiryExact(states[k].queue, heard)
    ensures ExpiryExact(states[k + 1].queue, Hear(heard, states[k].queue, turns[k]))
  {
    RunsKeepDistinct(states, turns, k);
    StepExpiry(states[k], turns[k], heard);
  }

  lemma StepExpiry(s: State, t: Turn, heard: map<Frame, int>)
    requires Distinct(s.queue) && ExpiryExact(s.queue, heard) && Step(s, t).Done?
    ensures ExpiryExact(Step(s, t).state.queue, Hear(heard, s.queue, t))
  {
    BackendExpiry(s.queue, t, heard);
    var q1 := Backend(s.queue, t).state;
    assert forall e :: e in Handle(s.queue, t).state ==> e in q1;
  }

  // In every run a turn drops a worker it gives no request to exactly when its last sign of
  // life is more than three intervals back.
  lemma SilentWorkersGo(states: seq<State>, turns: seq<Turn>, k: nat, id: Frame)
    requires IsRun(states, turns) && states[0].queue == [] && k < |turns|
    requires Taken(states[k], turns[k]) != Some(id) && Has(Backend(states[k].queue, turns[k]).state, id)
    ensures var heard := HeardBy(states, turns, k + 1);
            id in heard && (Purged(states[k], turns[k], id) <==> turns[k].purge - heard[id] > EXPIRY)
  {
    RunExpiry(states, turns, k);
    RunsKeepDistinct(states, turns, k);
    BackendExpiry(states[k].queue, turns[k], HeardBy(states, turns, k));
    PurgedExactlyWhenSilent(states[k], turns[k], id);
    var q := Backend(states[k].queue, turns[k]).state;
    assert q[Position(q, id)] in q;
  }

  // -------------------------------------------------------------------------------------
  // Heartbeats

  function Rounds(states: seq<State>, turns: seq<Turn>, k: nat): nat
    requires k <= |turns| <= |states|
  {
    if k == 0 then 0
    else Rounds(states, turns, k - 1) + (if turns[k - 1].check > states[k - 1].heartbeatAt then 1 else 0)
  }

  // However fast the loop turns, rounds of heartbeats are more than an interval apart.
  lemma {:induction false} HeartbeatsAreSpaced(states: seq<State>, turns: seq<Turn>, k: nat, start: int, last: int)
    requires IsRun(states, turns) && k <= |turns|
    requires states[0].heartbeatAt == start + HEARTBEAT_INTERVAL && start <= last
    requires forall j :: 0 <= j < |turns| ==> turns[j].check <= turns[j].reset <= last
    ensures start + (HEARTBEAT_INTERVAL + 1) * Rounds(states, turns, k)
            <= states[k].heartbeatAt - HEARTBEAT_INTERVAL <= last
  {
    if k > 0 {
      HeartbeatsAreSpaced(states, turns, k - 1, start, last);
    }
  }

  // -------------------------------------------------------------------------------------
  // Forwarding

  // A request goes out to the worker at the front, with the client's identity before it and
  // its frames unchanged, exactly when no frame is a UUID in text form.
  lemma RequestForwardedExactly(q: Queue, r: Received)
    requires q != [] && NulFree(q[0].identity) && Sendable(Parts(r))
    ensures OnFrontend(q, r).outs == [ToWorkers([FrameOut(q[0].identity)] + ([r.from] + r.frames))]
            <==> forall i :: 0 <= i <= |r.frames| ==> !Uuid.IsTextForm(([r.from] + r.frames)[i])
  {
    var frames, id := [r.from] + r.frames, q[0].identity;
    RelayExactly(frames);
    ForwardedFrames(id, Parts(r));
    ConsEqual(FrameOut(id), WireOut(WireIn(frames)), frames);
  }

  lemma ForwardedFrames(id: Frame, parts: Message)
    requires NulFree(id)
    ensures WireOut(PushFront(parts, id)) == [FrameOut(id)] + WireOut(parts)
  {
    CStrIsIdentityExactlyOnNulFree(id);
  }

  lemma ConsEqual(f: Frame, a: Message, c: Message)
    ensures [f] + a == [f] + c <==> a == c
  {
    assert ([f] + a)[1..] == a && ([f] + c)[1..] == c;
  }
}
