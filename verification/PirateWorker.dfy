// ppworker.cpp: the Paranoid Pirate worker, which gives the queue up after a silence and
// comes back on a new socket, each time after a longer sleep.

module PirateWorker {
  import opened Bytes
  import opened Frames
  import opened Zmsg
  import PS = PirateSpec
  import Uuid

  const HEARTBEAT_LIVENESS := 3
  const HEARTBEAT_INTERVAL := 1000
  const INTERVAL_INIT := 1000
  const INTERVAL_MAX := 32000

  const SIZE_MAX: nat := 0xffff_ffff_ffff_ffff

  // What the worker sends, and on which of its sockets.
  datatype Packet = Packet(socket: nat, frames: Message)

  datatype State = State(socket: nat, liveness: nat, interval: nat, heartbeatAt: int, cycles: int)

  // What poll brings, whether the dice say crash, and the clock of the heartbeat check and
  // after it.
  datatype Turn = Turn(incoming: Option<Message>, dice: bool, check: int, reset: int)

  // Another turn after sending packets and sleeping, a simulated crash, or a failed assert.
  datatype Outcome = Goes(w: State, packets: seq<Packet>, slept: nat) | Stops | Fails

  // size_t wraps below zero.
  function Decremented(x: nat): nat {
    if x == 0 then SIZE_MAX else x - 1
  }

  function Doubled(interval: nat): nat {
    if interval < INTERVAL_MAX then interval * 2 else interval
  }

  function HearRequest(w: State, parts: Message, dice: bool): Outcome {
    var w1 := w.(cycles := w.cycles + 1);
    if w1.cycles > 3 && dice then Stops
    else if !Sendable(parts) then Fails
    else Goes(w1.(liveness := HEARTBEAT_LIVENESS, interval := INTERVAL_INIT), [Packet(w.socket, WireOut(parts))], 0)
  }

  function HearMessage(w: State, parts: Message, dice: bool): Outcome {
    if |parts| == 3 then HearRequest(w, parts, dice)
    else
      var alive := |parts| == 1 && CStr(parts[0]) == PS.HEARTBEAT;
      Goes(w.(liveness := if alive then HEARTBEAT_LIVENESS else w.liveness, interval := INTERVAL_INIT), [], 0)
  }

  function Reconnect(w: State): Outcome {
    Goes(w.(socket := w.socket + 1, liveness := HEARTBEAT_LIVENESS, interval := Doubled(w.interval)),
         [Packet(w.socket + 1, [PS.READY])], w.interval)
  }

  function HearNothing(w: State): Outcome {
    if Decremented(w.liveness) == 0 then Reconnect(w)
    else Goes(w.(liveness := Decremented(w.liveness)), [], 0)
  }

  function Receive(w: State, t: Turn): Outcome {
    if t.incoming.Some? then HearMessage(w, WireIn(t.incoming.value), t.dice) else HearNothing(w)
  }

  function Beat(w: State, t: Turn): (State, seq<Packet>) {
    if t.check > w.heartbeatAt
    then (w.(heartbeatAt := t.reset + HEARTBEAT_INTERVAL), [Packet(w.socket, [PS.HEARTBEAT])])
    else (w, [])
  }

  function Step(w: State, t: Turn): Outcome {
    match Receive(w, t)
    case Goes(w1, packets, slept) =>
      var (w2, beat) := Beat(w1, t);
      Goes(w2, packets + beat, slept)
    case Stops => Stops
    case Fails => Fails
  }

  ghost predicate IsRun(states: seq<State>, turns: seq<Turn>) {
    && |states| == |turns| + 1
    && forall k :: 0 <= k < |turns| ==> Step(states[k], turns[k]).Goes? && Step(states[k], turns[k]).w == states[k + 1]
  }

  lemma RunSnoc(states: seq<State>, turns: seq<Turn>, t: Turn)
    requires IsRun(states, turns) && Step(states[|turns|], t).Goes?
    ensures IsRun(states + [Step(states[|turns|], t).w], turns + [t])
  {
    var s1, t1 := states + [Step(states[|turns|], t).w], turns + [t];
    forall k | 0 <= k < |t1| ensures Step(s1[k], t1[k]).Goes? && Step(s1[k], t1[k]).w == s1[k + 1] {
      assert s1[k] == states[k];
      if k < |turns| {
        assert t1[k] == turns[k] && s1[k + 1] == states[k + 1];
      }
    }
  }

  // The state main starts in.
  ghost predicate Starts(w: State) {
    w.liveness == HEARTBEAT_LIVENESS && w.interval == INTERVAL_INIT
  }

  // -------------------------------------------------------------------------------------
  // Liveness and backoff

  // The counter never reaches zero at the head of the loop, so it never wraps.
  lemma {:induction false} LivenessStaysInRange(states: seq<State>, turns: seq<Turn>, k: nat)
    requires IsRun(states, turns) && 1 <= states[0].liveness <= HEARTBEAT_LIVENESS && k < |states|
    ensures 1 <= states[k].liveness <= HEARTBEAT_LIVENESS
  {
    if k > 0 {
      LivenessStaysInRange(states, turns, k - 1);
      assert Step(states[k - 1], turns[k - 1]).Goes?;
    }
  }

  function Power2(k: nat): (p: nat)
    ensures p > 0
  {
    if k == 0 then 1 else 2 * Power2(k - 1)
  }

  // The sleep before the reconnect that follows k reconnects in a row.
  function Backoff(k: nat): nat {
    var d := INTERVAL_INIT * Power2(k);
    if d < INTERVAL_MAX then d else INTERVAL_MAX
  }

  lemma BackoffDoubles(k: nat)
    ensures Backoff(k + 1) == Doubled(Backoff(k))
  {
    assert Power2(5) == 32;
    if k >= 5 {
      Power2Grows(5, k);
    } else {
      Power2Grows(k + 1, 5);
    }
  }

  lemma Power2Grows(j: nat, k: nat)
    requires j <= k
    ensures Power2(j) <= Power2(k)
  {
  }

  // Reconnects among the first k turns since the last message.
  function Reconnects(states: seq<State>, turns: seq<Turn>, k: nat): nat
    requires k <= |turns| && |states| == |turns| + 1
  {
    if k == 0 || turns[k - 1].incoming.Some? then 0
    else Reconnects(states, turns, k - 1) + (if states[k].socket != states[k - 1].socket then 1 else 0)
  }

  // After k reconnects with no message since, the next sleep is min(32000, 1000 * 2^k).
  lemma {:induction false} BackoffExactly(states: seq<State>, turns: seq<Turn>, k: nat)
    requires IsRun(states, turns) && Starts(states[0]) && k < |states|
    ensures states[k].interval == Backoff(Reconnects(states, turns, k))
  {
    if k > 0 {
      BackoffExactly(states, turns, k - 1);
      BackoffDoubles(Reconnects(states, turns, k - 1));
      assert Step(states[k - 1], turns[k - 1]).Goes?;
    }
  }

  // The sleeps of the first k turns together.
  function Slept(states: seq<State>, turns: seq<Turn>, k: nat): nat
    requires k <= |turns| && |states| == |turns| + 1
  {
    if k == 0 then 0
    else
      var o := Step(states[k - 1], turns[k - 1]);
      Slept(states, turns, k - 1) + (if o.Goes? then o.slept else 0)
  }

  // min(k, 5) doublings from one second, and 32 seconds ever after.
  function SleptIn(reconnects: nat): nat {
    if reconnects <= 5 then INTERVAL_INIT * (Power2(reconnects) - 1)
    else 31 * INTERVAL_INIT + (reconnects - 5) * INTERVAL_MAX
  }

  lemma SleptInGrows(k: nat)
    ensures SleptIn(k + 1) == SleptIn(k) + Backoff(k)
  {
    assert Power2(5) == 32;
    if k > 5 {
      Power2Grows(5, k);
    } else if k < 5 {
      Power2Grows(k + 1, 5);
    }
  }

  lemma SilentStep(w: State, t: Turn)
    requires t.incoming.None? && w.liveness >= 1
    ensures var o := Step(w, t);
            && o.Goes?
            && (w.liveness > 1 ==> o.slept == 0 && o.w.liveness == w.liveness - 1
                                   && o.w.socket == w.socket && o.w.interval == w.interval)
            && (w.liveness == 1 ==> o.slept == w.interval && o.w.liveness == HEARTBEAT_LIVENESS
                                    && o.w.socket == w.socket + 1 && o.w.interval == Doubled(w.interval))
  {
  }

  // A worker that hears nothing reconnects after every third poll, and sleeps each time twice
  // as long, up to the limit.
  lemma {:induction false} SilentRun(states: seq<State>, turns: seq<Turn>, k: nat)
    requires IsRun(states, turns) && Starts(states[0]) && k < |states|
    requires forall j :: 0 <= j < |turns| ==> turns[j].incoming.None?
    ensures states[k].socket == states[0].socket + k / 3
    ensures states[k].liveness == HEARTBEAT_LIVENESS - k % 3
    ensures states[k].interval == Backoff(k / 3)
    ensures Slept(states, turns, k) == SleptIn(k / 3)
  {
    if k > 0 {
      SilentRun(states, turns, k - 1);
      SilentStep(states[k - 1], turns[k - 1]);
      if k % 3 == 0 {
        BackoffDoubles(k / 3 - 1);
        SleptInGrows(k / 3 - 1);
      }
    }
  }

  // -------------------------------------------------------------------------------------
  // Echo

  // A request with one body frame, through the queue to this worker and back through the
  // queue: the frames the client's side of the queue then sends. None: some assert failed,
  // the worker stopped, or nothing came back.
  function Echo(q: PS.Queue, q2: PS.Queue, a: Frame, body: Frame, aw: Frame, w: State, clock: int): Option<Message> {
    match PS.OnFrontend(q, PS.Received(a, [[], body]))
    case Crash(_) => None
    case Done(_, outs) =>
      if outs[0].frames[0] != aw then None else
      match Receive(w, Turn(Some(outs[0].frames[1..]), false, 0, 0))
      case Stops => None
      case Fails => None
      case Goes(_, packets, _) => if packets == [] then None else EchoedBack(q2, aw, packets[0].frames, clock)
  }

  function EchoedBack(q2: PS.Queue, aw: Frame, frames: Message, clock: int): Option<Message> {
    match PS.OnBackend(q2, PS.Received(aw, frames), clock)
    case Crash(_) => None
    case Done(_, back) => if back == [] then None else Some(back[0].frames)
  }

  // A frame that send has written is never in text form, so it survives being relayed.
  lemma RelayedAgain(f: Frame)
    ensures var g := FrameOut(f);
            FrameOut(FrameIn(g)) == g && (Uuid.IsTextForm(FrameIn(g)) ==> NulFree(FrameIn(g)))
  {
    FrameInOutExactly(FrameOut(f));
  }

  // The first leg: the worker receives three frames, and sends them on.
  lemma FirstLeg(q: PS.Queue, a: Frame, body: Frame, w: State)
    requires q != [] && NulFree(q[0].identity) && Sendable([FrameIn(a), [], FrameIn(body)])
    ensures var there := [FrameOut(FrameIn(a)), [], FrameOut(FrameIn(body))];
            && PS.OnFrontend(q, PS.Received(a, [[], body]))
               == PS.Done(q[1..], [PS.ToWorkers([FrameOut(q[0].identity)] + there)])
            && Receive(w, Turn(Some(there), false, 0, 0)).Goes?
            && Receive(w, Turn(Some(there), false, 0, 0)).packets == [Packet(w.socket, there)]
  {
    var parts := [FrameIn(a), [], FrameIn(body)];
    var there := [FrameOut(FrameIn(a)), [], FrameOut(FrameIn(body))];
    assert PS.Parts(PS.Received(a, [[], body])) == parts;
    assert WireOut(parts) == there;
    PS.ForwardedFrames(q[0].identity, parts);
    RelayedThrice(FrameIn(a), FrameIn(body));
  }

  lemma RelayedThrice(f: Frame, g: Frame)
    ensures var there := [FrameOut(f), [], FrameOut(g)];
            Sendable(WireIn(there)) && WireOut(WireIn(there)) == there
  {
    RelayedAgain(f);
    RelayedAgain(g);
  }

  // The second leg: the queue takes the worker's identity off, and an empty frame after it.
  lemma SecondLeg(q: PS.Queue, f: Frame, g: Frame, aw: Frame, clock: int)
    ensures var there := [FrameOut(f), [], FrameOut(g)];
            EchoedBack(q, aw, there, clock) == Some(if IsNull(FrameIn(FrameOut(f))) then there[1..] else there)
  {
    var there := [FrameOut(f), [], FrameOut(g)];
    RelayedThrice(f, g);
    var back := PS.Parts(PS.Received(aw, there));
    assert back == [FrameIn(aw)] + WireIn(there);
    if IsNull(FrameIn(FrameOut(f))) {
      assert UnwrapRest(back) == WireIn(there)[1..];
      assert WireIn(there)[1..] == WireIn(there[1..]);
      SendableParts(WireIn(there), 1);
      assert WireOut(WireIn(there[1..])) == there[1..];
    } else {
      assert UnwrapRest(back) == WireIn(there);
    }
  }

  // The client's side gets back just the frames that came from it exactly when its identity
  // does not look empty and neither frame is a UUID in text form.
  lemma EchoExactly(q: PS.Queue, q2: PS.Queue, a: Frame, body: Frame, aw: Frame, w: State, clock: int)
    requires q != [] && NulFree(q[0].identity) && FrameOut(q[0].identity) == aw
    ensures Echo(q, q2, a, body, aw, w, clock) == Some([a, [], body])
            <==> !IsNull(FrameIn(a)) && !Uuid.IsTextForm(a) && !Uuid.IsTextForm(body)
  {
    var there := [FrameOut(FrameIn(a)), [], FrameOut(FrameIn(body))];
    if Sendable([FrameIn(a), [], FrameIn(body)]) {
      FirstLeg(q, a, body, w);
      assert ([aw] + there)[1..] == there;
      SecondLeg(q2, FrameIn(a), FrameIn(body), aw, clock);
      FrameInOutExactly(a);
      FrameInOutExactly(body);
    } else {
      RefusedIsText(a, body);
      assert PS.Parts(PS.Received(a, [[], body])) == [FrameIn(a), [], FrameIn(body)];
    }
  }

  // A part send refuses came in as it is, in text form.
  lemma RefusedIsText(a: Frame, body: Frame)
    requires !Sendable([FrameIn(a), [], FrameIn(body)])
    ensures Uuid.IsTextForm(a) || Uuid.IsTextForm(body)
  {
    FormIn(a);
    FormIn(body);
  }

  lemma FormIn(f: Frame)
    ensures Uuid.IsTextForm(FrameIn(f)) && !Uuid.IsTextForm(f) ==> NulFree(FrameIn(f))
  {
  }

  // -------------------------------------------------------------------------------------
  // The loop

  class PirateWorker {
    var socket: nat
    var liveness: nat
    var interval: nat
    var heartbeatAt: int
    var cycles: int

    // Everything sent so far, and the milliseconds slept before reconnects.
    var sent: seq<Packet>
    var slept: nat

    function View(): State
      reads this
    {
      State(socket, liveness, interval, heartbeatAt, cycles)
    }

    constructor (clock: int)
      ensures Starts(View()) && View() == State(0, 3, 1000, clock + HEARTBEAT_INTERVAL, 0)
      ensures sent == [Packet(0, [PS.READY])] && slept == 0
    {
      socket, sent := 0, [Packet(0, [PS.READY])];
      liveness, interval, heartbeatAt := HEARTBEAT_LIVENESS, INTERVAL_INIT, clock + HEARTBEAT_INTERVAL;
      cycles, slept := 0, 0;
    }

    ghost predicate Follows(o: Outcome, sent0: seq<Packet>, slept0: nat, ok: bool)
      reads this
    {
      match o
      case Goes(w, packets, s) => ok && View() == w && sent == sent0 + packets && slept == slept0 + s
      case Stops => !ok
      case Fails => !ok
    }

    method OnMessage(frames: Message, dice: bool) returns (ok: bool)
      modifies this
      ensures Follows(HearMessage(old(View()), WireIn(frames), dice), old(sent), old(slept), ok)
    {
      var msg := new ZMsg();
      msg.Recv(frames);
      if |msg.parts| == 3 {
        cycles := cycles + 1;
        if (cycles > 3 && dice) || !Sendable(msg.parts) {
          return false;
        }
        var out := msg.Send();
        sent := sent + [Packet(socket, out)];
        liveness := HEARTBEAT_LIVENESS;
      } else if |msg.parts| == 1 && CStr(msg.parts[0]) == PS.HEARTBEAT {
        liveness := HEARTBEAT_LIVENESS;
      }
      interval := INTERVAL_INIT;
      return true;
    }

    method OnQuiet()
      modifies this
      ensures Follows(HearNothing(old(View())), old(sent), old(slept), true)
    {
      liveness := Decremented(liveness);
      if liveness == 0 {
        slept := slept + interval;
        if interval < INTERVAL_MAX {
          interval := interval * 2;
        }
        WorkerSocket();
        liveness := HEARTBEAT_LIVENESS;
      }
    }

    // A new socket, which tells the queue the worker is ready.
    method WorkerSocket()
      modifies this`socket, this`sent
      ensures socket == old(socket) + 1 && sent == old(sent) + [Packet(socket, [PS.READY])]
    {
      socket := socket + 1;
      sent := sent + [Packet(socket, [PS.READY])];
    }

    method TurnOnce(t: Turn) returns (ok: bool)
      modifies this
      ensures Follows(Step(old(View()), t), old(sent), old(slept), ok)
    {
      ok := true;
      if t.incoming.Some? {
        ok := OnMessage(t.incoming.value, t.dice);
        if !ok {
          return;
        }
      } else {
        OnQuiet();
      }
      if t.check > heartbeatAt {
        heartbeatAt := t.reset + HEARTBEAT_INTERVAL;
        sent := sent + [Packet(socket, [PS.HEARTBEAT])];
      }
    }

    // The loop of main, until the turns given are over, the worker crashes or an assert fails.
    method Loop(turns: seq<Turn>) returns (done: nat, ghost states: seq<State>)
      modifies this
      ensures done <= |turns| && IsRun(states, turns[..done]) && states[0] == old(View())
      ensures done == |turns| ==> View() == states[done]
      ensures done < |turns| ==> !Step(states[done], turns[done]).Goes?
    {
      done, states := 0, [View()];
      while done < |turns|
        invariant done <= |turns| && IsRun(states, turns[..done])
        invariant states[0] == old(View()) && View() == states[done]
      {
        var ok := TurnOnce(turns[done]);
        if !ok {
          return;
        }
        RunSnoc(states, turns[..done], turns[done]);
        states := states + [View()];
        assert turns[..done + 1] == turns[..done] + [turns[done]];
        done := done + 1;
      }
    }
  }
}
