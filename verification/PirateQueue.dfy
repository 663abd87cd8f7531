// ppqueue.cpp: the queue as an object whose vector the handlers edit in place.

module PirateQueue {
  import opened Bytes
  import opened Frames
  import opened Zmsg
  import PS = PirateSpec

  class PirateQueue {
    var queue: seq<PS.Entry>
    var heartbeatAt: int

    // Everything put on the two sockets so far.
    var sent: seq<PS.Output>

    function View(): PS.State
      reads this
    {
      PS.State(queue, heartbeatAt)
    }

    constructor (clock: int)
      ensures View() == PS.State([], clock + PS.HEARTBEAT_INTERVAL) && sent == []
    {
      queue, heartbeatAt, sent := [], clock + PS.HEARTBEAT_INTERVAL, [];
    }

    // The loop that append, remove and refresh share: the first entry of a worker.
    method Find(id: Frame) returns (i: nat)
      ensures i == PS.Position(queue, id)
    {
      i := 0;
      while i < |queue| && queue[i].identity != id
        invariant i <= |queue| && forall j :: 0 <= j < i ==> queue[j].identity != id
      {
        i := i + 1;
      }
    }

    method Append(id: Frame, clock: int)
      modifies this`queue
      ensures queue == PS.Append(old(queue), id, clock)
    {
      var i := Find(id);
      if i == |queue| {
        queue := queue + [PS.Entry(id, clock + PS.HEARTBEAT_INTERVAL * PS.HEARTBEAT_LIVENESS)];
      }
    }

    method Remove(id: Frame)
      modifies this`queue
      ensures queue == PS.Remove(old(queue), id)
    {
      var i := Find(id);
      if i < |queue| {
        queue := queue[..i] + queue[i + 1..];
      }
    }

    method Refresh(id: Frame, clock: int)
      modifies this`queue
      ensures queue == PS.Refresh(old(queue), id, clock)
    {
      var i := Find(id);
      if i < |queue| {
        queue := queue[i := PS.Entry(id, clock + PS.HEARTBEAT_INTERVAL * PS.HEARTBEAT_LIVENESS)];
      }
    }

    method Dequeue() returns (id: Frame)
      requires queue != []
      modifies this`queue
      ensures id == old(queue)[0].identity && queue == old(queue)[1..]
    {
      id := queue[0].identity;
      queue := queue[1..];
    }

    // Erases while it iterates: after an erasure the iterator steps back before it steps on.
    method Purge(clock: int)
      modifies this`queue
      ensures queue == PS.Purge(old(queue), clock)
    {
      ghost var q, n := queue, 0;
      var i := 0;
      while i < |queue|
        invariant n <= |q| && PS.PurgedTo(q, n, clock, queue, i)
        decreases |q| - n
      {
        PS.PurgeOne(q, n, clock, queue, i);
        if clock > queue[i].expiry {
          queue := queue[..i] + queue[i + 1..];
          i := i - 1;
        }
        i := i + 1;
        n := n + 1;
      }
      PS.PurgedAll(q, n, clock, queue, i);
    }

    method Control(id: Frame, word: Frame, clock: int)
      modifies this`queue
      ensures queue == PS.Control(old(queue), id, word, clock)
    {
      if word == PS.READY {
        Remove(id);
        Append(id, clock);
      } else if word == PS.HEARTBEAT {
        Refresh(id, clock);
      }
    }

    // ok is false when zmsg::send fails an assert.
    method OnBackend(r: PS.Received, clock: int) returns (ok: bool)
      modifies this`queue, this`sent
      ensures match PS.OnBackend(old(queue), r, clock)
              case Done(q, outs) => ok && queue == q && sent == old(sent) + outs
              case Crash(_) => !ok
    {
      var msg := new ZMsg();
      msg.Recv([r.from] + r.frames);
      var id := msg.Unwrap();
      if |msg.parts| == 1 {
        Control(id, CStr(msg.parts[0]), clock);
        return true;
      }
      if !Sendable(msg.parts) {
        return false;
      }
      var some := |msg.parts| > 0;
      var frames := msg.Send();
      if some {
        sent := sent + [PS.ToClients(frames)];
      }
      Append(id, clock);
      return true;
    }

    method OnFrontend(r: PS.Received) returns (ok: bool)
      requires queue != []
      modifies this`queue, this`sent
      ensures match PS.OnFrontend(old(queue), r)
              case Done(q, outs) => ok && queue == q && sent == old(sent) + outs
              case Crash(_) => !ok
    {
      var msg := new ZMsg();
      msg.Recv([r.from] + r.frames);
      ghost var parts := msg.parts;
      var id := Dequeue();
      msg.PushFront(id);
      SendableAfterStrings([CStr(id)], parts);
      if !Sendable(msg.parts) {
        return false;
      }
      var frames := msg.Send();
      sent := sent + [PS.ToWorkers(frames)];
      return true;
    }

    method SendHeartbeats()
      modifies this`sent
      ensures sent == old(sent) + PS.Heartbeats(queue)
    {
      var i := 0;
      while i < |queue|
        invariant 0 <= i <= |queue| && sent == old(sent) + PS.Heartbeats(queue)[..i]
      {
        SendHeartbeat(queue[i].identity);
        i := i + 1;
      }
    }

    method SendHeartbeat(id: Frame)
      modifies this`sent
      ensures sent == old(sent) + [PS.HeartbeatTo(id)]
    {
      var msg := new ZMsg();
      msg.parts := [PS.HEARTBEAT];
      msg.Wrap(id, None);
      var frames := msg.Send();
      sent := sent + [PS.ToWorkers(frames)];
    }

    method Beat(t: PS.Turn)
      modifies this`heartbeatAt, this`sent
      ensures var (at, outs) := PS.Beat(queue, old(heartbeatAt), t);
              heartbeatAt == at && sent == old(sent) + outs
    {
      if t.check > heartbeatAt {
        SendHeartbeats();
        heartbeatAt := t.reset + PS.HEARTBEAT_INTERVAL;
      }
    }

    // The two handlers. The frontend is looked at only if the queue was not empty at the
    // poll, and then it still is not, so the assert in dequeue holds.
    method Handle(t: PS.Turn) returns (ok: bool)
      modifies this`queue, this`sent
      ensures match PS.Handle(old(queue), t)
              case Done(q, outs) => ok && queue == q && sent == old(sent) + outs
              case Crash(_) => !ok
    {
      ok := true;
      var polled := if |queue| > 0 then t.frontend else None;
      if t.backend.Some? {
        ok := OnBackend(t.backend.value, t.now);
      }
      if ok && polled.Some? {
        PS.BackendKeepsSome(old(queue), t);
        ok := OnFrontend(polled.value);
      }
    }

    method TurnOnce(t: PS.Turn) returns (ok: bool)
      modifies this
      ensures match PS.Step(old(View()), t)
              case Done(s, outs) => ok && View() == s && sent == old(sent) + outs
              case Crash(_) => !ok
    {
      ok := Handle(t);
      if ok {
        ghost var sent1 := sent;
        Beat(t);
        Purge(t.purge);
        PS.StepSends(old(View()), t, old(sent), sent1, sent);
      }
    }

    // The loop of main, until the turns given are over or an assert fails.
    method Loop(turns: seq<PS.Turn>) returns (done: nat, ghost states: seq<PS.State>)
      modifies this
      ensures done <= |turns| && PS.IsRun(states, turns[..done]) && states[0] == old(View())
      ensures done == |turns| ==> View() == states[done]
      ensures done < |turns| ==> PS.Step(states[done], turns[done]).Crash?
    {
      done, states := 0, [View()];
      while done < |turns|
        invariant done <= |turns| && PS.IsRun(states, turns[..done])
        invariant states[0] == old(View()) && View() == states[done]
      {
        var ok := TurnOnce(turns[done]);
        if !ok {
          return;
        }
        PS.RunSnoc(states, turns[..done], turns[done]);
        states := states + [View()];
        assert turns[..done + 1] == turns[..done] + [turns[done]];
        done := done + 1;
      }
    }
  }
}
