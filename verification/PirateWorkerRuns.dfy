// What the Paranoid Pirate worker does on each message, read off its frames, and when it sends
// heartbeats over a run.

module PirateWorkerRuns {
  import opened Bytes
  import opened Frames
  import opened PirateWorker

  function Bringing(frames: Message, dice: bool): Turn {
    Turn(Some(frames), dice, 0, 0)
  }

  // -------------------------------------------------------------------------------------
  // One message

  // A single frame restores liveness exactly if it is HEARTBEAT; any brings the interval back
  // to its start, and none is answered.
  lemma OneFrame(w: State, f: Frame, dice: bool)
    ensures Receive(w, Bringing([f], dice))
            == Goes(w.(liveness := if CStr(f) == [72, 69, 65, 82, 84, 66, 69, 65, 84] then 3 else w.liveness, interval := 1000),
                    [], 0)
  {
    var frames: Message := [f];
    assert WireIn(frames) == [FrameIn(f)];
    if FrameIn(f) != f {
      assert CStr(f) == [];
      assert FrameIn(f)[0] == 64;
    }
  }

  // Neither one frame nor three: an invalid message.
  lemma OtherCounts(w: State, frames: Message, dice: bool)
    requires |frames| != 1 && |frames| != 3
    ensures Receive(w, Bringing(frames, dice)) == Goes(w.(interval := 1000), [], 0)
  {
  }

  // Three frames are a request. It goes back as it came, unless the worker has had three
  // before and the dice say crash, or it cannot be sent.
  lemma ThreeFrames(w: State, frames: Message, dice: bool)
    requires |frames| == 3
    ensures Receive(w, Bringing(frames, dice))
            == if w.cycles >= 3 && dice then Stops
               else if !Sendable(WireIn(frames)) then Fails
               else Goes(w.(liveness := 3, interval := 1000, cycles := w.cycles + 1),
                         [Packet(w.socket, WireOut(WireIn(frames)))], 0)
  {
  }

  // A worker that gives the queue up comes back with READY on a new socket.
  lemma ComesBackReady(w: State, t: Turn)
    requires t.incoming.None? && w.liveness == 1
    ensures var o := Step(w, t);
            && o.Goes? && o.w.socket == w.socket + 1
            && o.packets != [] && o.packets[0] == Packet(w.socket + 1, [[82, 69, 65, 68, 89]])
  {
  }

  // -------------------------------------------------------------------------------------
  // Runs

  function Requests(turns: seq<Turn>, k: nat): nat
    requires k <= |turns|
  {
    if k == 0 then 0
    else
      var i := turns[k - 1].incoming;
      Requests(turns, k - 1) + (if i.Some? && |i.value| == 3 then 1 else 0)
  }

  // The worker counts its requests, so it serves three before it crashes.
  lemma {:induction false} CyclesCountRequests(states: seq<State>, turns: seq<Turn>, k: nat)
    requires IsRun(states, turns) && k <= |turns|
    ensures states[k].cycles == states[0].cycles + Requests(turns, k)
  {
    if k > 0 {
      CyclesCountRequests(states, turns, k - 1);
      assert Step(states[k - 1], turns[k - 1]).Goes?;
      TurnCounts(states[k - 1], turns[k - 1]);
    }
  }

  lemma TurnCounts(w: State, t: Turn)
    requires Step(w, t).Goes?
    ensures Step(w, t).w.cycles == w.cycles + (if t.incoming.Some? && |t.incoming.value| == 3 then 1 else 0)
    ensures Step(w, t).w.heartbeatAt == if t.check > w.heartbeatAt then t.reset + 1000 else w.heartbeatAt
  {
  }

  // When the last heartbeat went out before turn k, counting start as one.
  function LastBeat(start: int, turns: seq<Turn>, k: nat): int
    requires k <= |turns|
  {
    if k == 0 then start
    else if turns[k - 1].check - LastBeat(start, turns, k - 1) > 1000 then turns[k - 1].reset
    else LastBeat(start, turns, k - 1)
  }

  lemma {:induction false} BeatsFollowTheClock(states: seq<State>, turns: seq<Turn>, start: int, k: nat)
    requires IsRun(states, turns) && states[0].heartbeatAt == start + 1000 && k <= |turns|
    ensures states[k].heartbeatAt == LastBeat(start, turns, k) + 1000
  {
    if k > 0 {
      BeatsFollowTheClock(states, turns, start, k - 1);
      assert Step(states[k - 1], turns[k - 1]).Goes?;
      TurnCounts(states[k - 1], turns[k - 1]);
    }
  }

  // A turn of a run ends with HEARTBEAT on the socket it ends with, exactly if more than an
  // interval has gone by since the last.
  lemma BeatsAreSent(states: seq<State>, turns: seq<Turn>, start: int, k: nat)
    requires IsRun(states, turns) && states[0].heartbeatAt == start + 1000 && k < |turns|
    ensures var o := Receive(states[k], turns[k]);
            && o.Goes?
            && Step(states[k], turns[k]).packets
               == o.packets + (if turns[k].check - LastBeat(start, turns, k) > 1000
                               then [Packet(states[k + 1].socket, [[72, 69, 65, 82, 84, 66, 69, 65, 84]])] else [])
  {
    assert Step(states[k], turns[k]).Goes?;
    BeatsFollowTheClock(states, turns, start, k);
  }
}
