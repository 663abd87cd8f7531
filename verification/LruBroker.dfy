// lbbroker.cpp: the broker loop on its queue and its count of clients.

module LruBroker {
  import opened Bytes
  import Lru = LruSpec

  // What waits on the two sockets when the loop polls.
  datatype Turn = Turn(backend: Option<Message>, frontend: Option<Message>)

  // Another turn, the end of the loop, or a failure; what went out at the back and the front.
  datatype Next = On | End | Failed

  datatype Output = ToClient(frames: Message) | ToWorker(frames: Message)

  datatype Outcome = Outcome(next: Next, b: Lru.Broker, outs: seq<Output>)

  function Backend(b: Lru.Broker, m: Option<Message>): Outcome {
    if m.None? then Outcome(On, b, [])
    else
      var r := Lru.OnBackend(b, m.value);
      if r.Broken? then Outcome(Failed, b, [])
      else Outcome(if Lru.Ended(b, r) then End else On, r.b,
                   if r.out.Some? then [ToClient(r.out.value)] else [])
  }

  function Frontend(b: Lru.Broker, m: Option<Message>): Outcome {
    if m.None? then Outcome(On, b, [])
    else
      var r := Lru.OnFrontend(b, m.value);
      if r.Broken? then Outcome(Failed, b, [])
      else Outcome(On, r.b, if r.out.Some? then [ToWorker(r.out.value)] else [])
  }

  // The frontend is polled only when a worker is queued, and left alone once the loop ends.
  function TurnOf(b: Lru.Broker, t: Turn): Outcome {
    var polled := if |b.queue| > 0 then t.frontend else None;
    var o := Backend(b, t.backend);
    if !o.next.On? then o
    else
      var p := Frontend(o.b, polled);
      Outcome(p.next, p.b, o.outs + p.outs)
  }

  // front() is called on an empty queue in no turn: only a message with the wrong frames
  // makes a turn fail.
  lemma OnlyWrongFramesFail(b: Lru.Broker, t: Turn)
    requires t.backend.Some? ==>
               var m := t.backend.value;
               || (|m| == 3 && m[1] == [] && m[2] == Lru.READY)
               || (|m| == 5 && m[1] == [] && m[2] != Lru.READY && m[3] == [])
    requires t.frontend.Some? ==> |t.frontend.value| == 3 && t.frontend.value[1] == []
    ensures !TurnOf(b, t).next.Failed?
  {
  }

  ghost predicate IsRun(states: seq<Lru.Broker>, turns: seq<Turn>) {
    && |states| == |turns| + 1
    && forall k :: 0 <= k < |turns| ==> TurnOf(states[k], turns[k]).next.On? && TurnOf(states[k], turns[k]).b == states[k + 1]
  }

  lemma RunSnoc(states: seq<Lru.Broker>, turns: seq<Turn>, t: Turn)
    requires IsRun(states, turns) && TurnOf(states[|turns|], t).next.On?
    ensures IsRun(states + [TurnOf(states[|turns|], t).b], turns + [t])
  {
    var s1, t1 := states + [TurnOf(states[|turns|], t).b], turns + [t];
    forall k | 0 <= k < |t1| ensures TurnOf(s1[k], t1[k]).next.On? && TurnOf(s1[k], t1[k]).b == s1[k + 1] {
      assert s1[k] == states[k];
      if k < |turns| {
        assert t1[k] == turns[k] && s1[k + 1] == states[k + 1];
      }
    }
  }

  class LruBroker {
    var queue: seq<Lru.Id>
    var clientNbr: int
    var sent: seq<Output>

    function View(): Lru.Broker
      reads this
    {
      Lru.Broker(queue, clientNbr)
    }

    constructor (clients: int)
      ensures View() == Lru.Broker([], clients) && sent == []
    {
      queue, clientNbr, sent := [], clients, [];
    }

    // The state after the part of a turn that o describes.
    ghost predicate Follows(o: Outcome, sent0: seq<Output>, next: Next)
      reads this
    {
      next == o.next && (!next.Failed? ==> View() == o.b && sent == sent0 + o.outs)
    }

    method OnBackend(m: Message) returns (next: Next)
      modifies this
      ensures Follows(Backend(old(View()), Some(m)), old(sent), next)
    {
      if |m| < 3 || m[1] != [] {
        return Failed;
      }
      queue := queue + [m[0]];
      var clientAddr := m[2];
      if clientAddr == Lru.READY {
        return if |m| == 3 then On else Failed;
      }
      if |m| != 5 || m[3] != [] {
        return Failed;
      }
      sent := sent + [ToClient([clientAddr, [], m[4]])];
      clientNbr := clientNbr - 1;
      return if clientNbr == 0 then End else On;
    }

    method OnFrontend(m: Message) returns (next: Next)
      requires queue != []
      modifies this
      ensures Follows(Frontend(old(View()), Some(m)), old(sent), next)
    {
      if |m| != 3 || m[1] != [] {
        return Failed;
      }
      var workerAddr := queue[0];
      queue := queue[1..];
      sent := sent + [ToWorker([workerAddr, [], m[0], [], m[2]])];
      return On;
    }

    method TurnOnce(t: Turn) returns (next: Next)
      modifies this
      ensures Follows(TurnOf(old(View()), t), old(sent), next)
    {
      next := On;
      var polled := if |queue| > 0 then t.frontend else None;
      if t.backend.Some? {
        next := OnBackend(t.backend.value);
        if next != On {
          return;
        }
      }
      if polled.Some? {
        next := OnFrontend(polled.value);
      }
    }

    // The loop of main, until the turns given are over, every client is answered or it fails.
    method Loop(turns: seq<Turn>) returns (done: nat, next: Next, ghost states: seq<Lru.Broker>)
      modifies this
      ensures done <= |turns| && IsRun(states, turns[..done]) && states[0] == old(View())
      ensures next == On ==> done == |turns| && View() == states[done]
      ensures next != On ==> done < |turns| && TurnOf(states[done], turns[done]).next == next
      ensures next == End ==> View() == TurnOf(states[done], turns[done]).b && clientNbr == 0
    {
      done, next, states := 0, On, [View()];
      while done < |turns|
        invariant done <= |turns| && IsRun(states, turns[..done]) && states[0] == old(View())
        invariant next == On && View() == states[done]
      {
        next := TurnOnce(turns[done]);
        if next != On {
          return;
        }
        RunSnoc(states, turns[..done], turns[done]);
        states := states + [View()];
        assert turns[..done + 1] == turns[..done] + [turns[done]];
        done := done + 1;
      }
    }
  }
}
