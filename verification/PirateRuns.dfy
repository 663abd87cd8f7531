// What the Paranoid Pirate queue does on each message, read off its frames, and who is in line
// for a request, or gets a heartbeat, at any time of a run.

module PirateRuns {
  import opened Bytes
  import opened Frames
  import opened PirateSpec

  // Who sent a message, and what is left of it when the sender's identity and an empty frame
  // that follows are taken off.
  function Sender(r: Received): Frame {
    CStr(FrameIn(r.from))
  }

  function Said(r: Received): Message {
    if r.frames != [] && IsNull(FrameIn(r.frames[0])) then WireIn(r.frames[1..]) else WireIn(r.frames)
  }

  lemma SaidIsUnwrapped(r: Received)
    ensures UnwrapAddress(Parts(r)) == Sender(r) && UnwrapRest(Parts(r)) == Said(r)
  {
    var parts := Parts(r);
    assert parts[1..] == WireIn(r.frames);
    if r.frames != [] {
      assert parts[1] == FrameIn(r.frames[0]);
      assert parts[2..] == WireIn(r.frames[1..]);
    }
  }

  predicate IsWord(r: Received, word: Frame) {
    |Said(r)| == 1 && CStr(Said(r)[0]) == word
  }

  // Anything but a single word is a reply to forward.
  predicate IsReply(r: Received) {
    |Said(r)| != 1
  }

  // -------------------------------------------------------------------------------------
  // One message

  // The others, in their order.
  function Others(q: Queue, id: Frame): Queue {
    if q == [] then []
    else (if q[0].identity == id then [] else [q[0]]) + Others(q[1..], id)
  }

  lemma NobodyOut(q: Queue, id: Frame)
    requires forall j :: 0 <= j < |q| ==> q[j].identity != id
    ensures Others(q, id) == q
  {
  }

  lemma OthersAreLeft(q: Queue, id: Frame)
    requires Distinct(q)
    ensures Remove(q, id) == Others(q, id)
  {
    if q != [] {
      if q[0].identity == id {
        NobodyOut(q[1..], id);
      } else {
        OthersAreLeft(q[1..], id);
        RemoveLater(q, id);
      }
    }
  }

  lemma RemoveLater(q: Queue, id: Frame)
    requires q != [] && q[0].identity != id
    ensures Remove(q, id) == [q[0]] + Remove(q[1..], id)
  {
    if Has(q, id) {
      var i := Position(q, id);
      assert q[..i] == [q[0]] + q[1..][..i - 1];
      assert q[i + 1..] == q[1..][i..];
    }
  }

  // READY puts a worker at the end of the line, with three intervals to live; the others keep
  // their order and their time.
  lemma ReadyJoinsLast(q: Queue, r: Received, clock: int)
    requires Distinct(q) && IsWord(r, [82, 69, 65, 68, 89])
    ensures OnBackend(q, r, clock) == Done(Others(q, Sender(r)) + [Entry(Sender(r), clock + 3000)], [])
  {
    SaidIsUnwrapped(r);
    OthersAreLeft(q, Sender(r));
    RemoveTakesOut(q, Sender(r));
  }

  // So does a reply of a worker that is not in line; one that is keeps its place. The reply is
  // forwarded as it is.
  lemma ReplyRejoins(q: Queue, r: Received, clock: int)
    requires IsReply(r) && Sendable(Said(r))
    ensures var f := OnBackend(q, r, clock);
            && f.Done?
            && f.state == (if exists e :: e in q && e.identity == Sender(r) then q
                           else q + [Entry(Sender(r), clock + 3000)])
            && f.outs == (if Said(r) == [] then [] else [ToClients(WireOut(Said(r)))])
  {
    SaidIsUnwrapped(r);
    HasSomeone(q, Sender(r));
  }

  lemma HasSomeone(q: Queue, id: Frame)
    ensures Has(q, id) <==> exists e :: e in q && e.identity == id
  {
    if Has(q, id) {
      assert q[Position(q, id)] in q;
    }
  }

  // HEARTBEAT gives a worker in line three more intervals and moves nobody; from a worker that
  // is not in line it does nothing.
  lemma HeartbeatProlongs(q: Queue, r: Received, clock: int)
    requires Distinct(q) && IsWord(r, [72, 69, 65, 82, 84, 66, 69, 65, 84])
    ensures var f := OnBackend(q, r, clock);
            && f.Done? && f.outs == [] && |f.state| == |q|
            && forall i :: 0 <= i < |q| ==>
                 f.state[i] == if q[i].identity == Sender(r) then Entry(Sender(r), clock + 3000) else q[i]
  {
    SaidIsUnwrapped(r);
    assert HEARTBEAT[0] != READY[0];
  }

  // Any other word does nothing.
  lemma OtherWordsDoNothing(q: Queue, r: Received, clock: int)
    requires |Said(r)| == 1 && !IsWord(r, READY) && !IsWord(r, HEARTBEAT)
    ensures OnBackend(q, r, clock) == Done(q, [])
  {
    SaidIsUnwrapped(r);
  }

  // -------------------------------------------------------------------------------------
  // Who is in line

  // A worker that says READY or replies.
  predicate Comes(t: Turn, id: Frame) {
    t.backend.Some? && Sender(t.backend.value) == id && (IsReply(t.backend.value) || IsWord(t.backend.value, READY))
  }

  lemma BackendMembers(q: Queue, t: Turn, id: Frame)
    requires Distinct(q) && Backend(q, t).Done?
    ensures Has(Backend(q, t).state, id) <==> Has(q, id) || Comes(t, id)
  {
    if t.backend.Some? {
      var r := t.backend.value;
      SaidIsUnwrapped(r);
      if IsReply(r) {
        AppendMembers(q, Sender(r), t.now, id);
      } else if IsWord(r, READY) {
        RemoveTakesOut(q, Sender(r));
        RemoveMembers(q, Sender(r), id);
        AppendMembers(Remove(q, Sender(r)), Sender(r), t.now, id);
      } else {
        RefreshMembers(q, Sender(r), t.now, id);
      }
    }
  }

  lemma AppendMembers(q: Queue, other: Frame, clock: int, id: Frame)
    ensures Has(Append(q, other, clock), id) <==> Has(q, id) || other == id
  {
    HasSomeone(q, id);
    HasSomeone(Append(q, other, clock), id);
    if !Has(q, other) {
      var e := Entry(other, clock + EXPIRY);
      assert forall x :: x in q + [e] <==> x in q || x == e;
    }
  }

  lemma RemoveMembers(q: Queue, other: Frame, id: Frame)
    requires Distinct(q)
    ensures Has(Remove(q, other), id) <==> Has(q, id) && other != id
  {
    RemoveTakesOut(q, other);
    if other != id && Has(q, id) {
      PositionAfterRemove(q, other, id);
    }
    if Has(Remove(q, other), id) {
      RemoveKeepsOthers(q, other);
      HasSomeone(q, id);
      assert Remove(q, other)[Position(Remove(q, other), id)] in Remove(q, other);
    }
  }

  lemma RefreshMembers(q: Queue, other: Frame, clock: int, id: Frame)
    ensures Has(Refresh(q, other, clock), id) <==> Has(q, id)
  {
    var r := Refresh(q, other, clock);
    assert |r| == |q| && forall i :: 0 <= i < |q| ==> r[i].identity == q[i].identity;
    if Has(q, id) {
      PositionAtMost(r, id, Position(q, id));
    }
    if Has(r, id) {
      PositionAtMost(q, id, Position(r, id));
    }
  }

  // After k turns of a run the worker has come, and since then has neither been given a
  // request nor been silent for more than three intervals at a purge.
  ghost predicate InLine(states: seq<State>, turns: seq<Turn>, k: nat, id: Frame)
    requires k <= |turns| <= |states|
  {
    && k > 0
    && (InLine(states, turns, k - 1, id) || Comes(turns[k - 1], id))
    && Taken(states[k - 1], turns[k - 1]) != Some(id)
    && id in HeardBy(states, turns, k)
    && turns[k - 1].purge - HeardBy(states, turns, k)[id] <= 3000
  }

  // In every run these are the workers in the queue, and no others.
  lemma {:induction false} TheQueueIsTheLine(states: seq<State>, turns: seq<Turn>, k: nat, id: Frame)
    requires IsRun(states, turns) && states[0].queue == [] && k <= |turns|
    ensures Has(states[k].queue, id) <==> InLine(states, turns, k, id)
  {
    if k > 0 {
      TheQueueIsTheLine(states, turns, k - 1, id);
      RunsKeepDistinct(states, turns, k - 1);
      var s, t := states[k - 1], turns[k - 1];
      assert Step(s, t).Done?;
      BackendMembers(s.queue, t, id);
      if Has(Backend(s.queue, t).state, id) && Taken(s, t) != Some(id) {
        SilentWorkersGo(states, turns, k - 1, id);
      } else {
        GoneAfterTurn(s, t, id);
      }
    }
  }

  lemma GoneAfterTurn(s: State, t: Turn, id: Frame)
    requires Distinct(s.queue) && Step(s, t).Done?
    requires !Has(Backend(s.queue, t).state, id) || Taken(s, t) == Some(id)
    ensures !Has(Step(s, t).state.queue, id)
  {
    BackendKeepsDistinct(s.queue, t);
    var q1, q2 := Backend(s.queue, t).state, Handle(s.queue, t).state;
    assert forall j :: 0 <= j < |q2| ==> q2[j].identity != id;
    NotKept(q2, t.purge, id);
  }

  // -------------------------------------------------------------------------------------
  // What goes to the workers

  // A turn gives a request to a worker exactly if one was waiting at the poll and a client has
  // asked.
  lemma RequestsAreServed(s: State, t: Turn)
    requires Step(s, t).Done?
    ensures Taken(s, t).Some? <==> s.queue != [] && t.frontend.Some?
  {
    if s.queue != [] {
      BackendKeepsSome(s.queue, t);
    }
  }

  // A turn that gives a request to w sends it the client's message whole, under its identity.
  lemma RequestGoesToTaken(s: State, t: Turn, w: Frame)
    requires Step(s, t).Done? && Taken(s, t) == Some(w)
    ensures t.frontend.Some?
    ensures ToWorkers(WireOut(PushFront(WireIn([t.frontend.value.from] + t.frontend.value.frames), w))) in Step(s, t).outs
  {
    var q1 := Backend(s.queue, t).state;
    var o := OnFrontend(q1, t.frontend.value).outs[0];
    assert o in OnFrontend(q1, t.frontend.value).outs;
    assert o in Handle(s.queue, t).outs;
  }

  lemma BackendKeepsNulFree(q: Queue, t: Turn)
    requires (forall e :: e in q ==> NulFree(e.identity)) && Backend(q, t).Done?
    ensures forall e :: e in Backend(q, t).state ==> NulFree(e.identity)
  {
    var q1 := Backend(q, t).state;
    forall e | e in q1 ensures NulFree(e.identity) {
      if t.backend.Some? && e !in q {
        ChangedIsSender(q, t.backend.value, t.now, e);
      }
    }
  }

  lemma ChangedIsSender(q: Queue, r: Received, clock: int, e: Entry)
    requires OnBackend(q, r, clock).Done? && e in OnBackend(q, r, clock).state && e !in q
    ensures e.identity == UnwrapAddress(Parts(r))
  {
    var id, rest := UnwrapAddress(Parts(r)), UnwrapRest(Parts(r));
    if |rest| == 1 {
      ChangedByControl(q, id, CStr(rest[0]), clock, e);
    }
  }

  lemma ChangedByControl(q: Queue, id: Frame, word: Frame, clock: int, e: Entry)
    requires e in Control(q, id, word, clock) && e !in q
    ensures e.identity == id
  {
    assert forall x :: x in Remove(q, id) ==> x in q;
  }

  lemma {:induction false} IdentitiesAreNulFree(states: seq<State>, turns: seq<Turn>, k: nat)
    requires IsRun(states, turns) && states[0].queue == [] && k <= |turns|
    ensures forall e :: e in states[k].queue ==> NulFree(e.identity)
    ensures k < |turns| ==> forall e :: e in Handle(states[k].queue, turns[k]).state ==> NulFree(e.identity)
  {
    if k > 0 {
      IdentitiesAreNulFree(states, turns, k - 1);
      assert Step(states[k - 1], turns[k - 1]).Done?;
    }
    if k < |turns| {
      assert Step(states[k], turns[k]).Done?;
      BackendKeepsNulFree(states[k].queue, turns[k]);
      var q1 := Backend(states[k].queue, turns[k]).state;
      assert forall e :: e in Handle(states[k].queue, turns[k]).state ==> e in q1;
    }
  }

  // When the last round of heartbeats went out before turn k, counting start as one.
  function LastRound(start: int, turns: seq<Turn>, k: nat): int
    requires k <= |turns|
  {
    if k == 0 then start
    else if turns[k - 1].check - LastRound(start, turns, k - 1) > 1000 then turns[k - 1].reset
    else LastRound(start, turns, k - 1)
  }

  lemma {:induction false} RoundsFollowTheClock(states: seq<State>, turns: seq<Turn>, start: int, k: nat)
    requires IsRun(states, turns) && states[0].heartbeatAt == start + 1000 && k <= |turns|
    ensures states[k].heartbeatAt == LastRound(start, turns, k) + 1000
  {
    if k > 0 {
      RoundsFollowTheClock(states, turns, start, k - 1);
      assert Step(states[k - 1], turns[k - 1]).Done?;
      TurnFollowsTheClock(states[k - 1], turns[k - 1]);
    }
  }

  lemma TurnFollowsTheClock(s: State, t: Turn)
    requires Step(s, t).Done?
    ensures Step(s, t).state.heartbeatAt == if t.check > s.heartbeatAt then t.reset + 1000 else s.heartbeatAt
  {
  }

  // HEARTBEAT to each of these workers, in their order.
  function Round(q: Queue): seq<Output> {
    seq(|q|, i requires 0 <= i < |q| =>
      ToWorkers([FrameOut(q[i].identity), [72, 69, 65, 82, 84, 66, 69, 65, 84]]))
  }

  lemma RoundIsHeartbeats(q: Queue)
    requires forall e :: e in q ==> NulFree(e.identity)
    ensures Heartbeats(q) == Round(q)
  {
    forall i | 0 <= i < |q| ensures Heartbeats(q)[i] == Round(q)[i] {
      assert q[i] in q;
      HeartbeatFrames(q[i].identity);
    }
  }

  lemma HeartbeatFrames(id: Frame)
    requires NulFree(id)
    ensures HeartbeatTo(id) == ToWorkers([FrameOut(id), [72, 69, 65, 82, 84, 66, 69, 65, 84]])
  {
    CStrIsIdentityExactlyOnNulFree(id);
  }

  // A turn of a run sends HEARTBEAT to every worker in line, and to no other, exactly if more
  // than an interval has gone by since the last round.
  lemma EveryoneIsHeartened(states: seq<State>, turns: seq<Turn>, start: int, k: nat)
    requires IsRun(states, turns) && states[0] == State([], start + 1000) && k < |turns|
    ensures var h := Handle(states[k].queue, turns[k]);
            Step(states[k], turns[k]).outs
            == h.outs + (if turns[k].check - LastRound(start, turns, k) > 1000 then Round(h.state) else [])
  {
    assert Step(states[k], turns[k]).Done?;
    RoundsFollowTheClock(states, turns, start, k);
    IdentitiesAreNulFree(states, turns, k);
    RoundIsHeartbeats(Handle(states[k].queue, turns[k]).state);
  }
}
