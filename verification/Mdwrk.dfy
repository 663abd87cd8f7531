// mdwrkapi.hpp: the worker API as an object whose fields the loop in recv updates.

module Mdwrk {
  import opened Bytes
  import opened Frames
  import opened Mdp
  import opened MdwrkSpec
  import opened Zmsg

  ghost function EncodeUps(ups: seq<Up>): (r: seq<Message>)
    ensures |r| == |ups|
  {
    seq(|ups|, i requires 0 <= i < |ups| => WireOut(EncodeUp(ups[i])))
  }

  lemma EncodeOne(u: Up)
    ensures EncodeUps([u]) == [WireOut(EncodeUp(u))]
  {
  }

  lemma EncodeAppend(a: seq<Up>, c: seq<Up>)
    ensures EncodeUps(a + c) == EncodeUps(a) + EncodeUps(c)
  {
  }

  lemma WrappedReply(reply: Message, address: Frame)
    requires Sendable(reply)
    ensures var payload := Wrap(reply, address, Some([]));
            Sendable(payload) && EncodeUp(UpReply(payload)) == MdwrkSpec.SendToBroker(REPLY, [], payload)
  {
    SendableWrap(reply, address);
  }

  class Mdwrk {
    const service: Frame
    var id: Frame
    var liveness: int
    var heartbeatAt: int
    var heartbeat: int
    var expectReply: bool
    var replyTo: Frame

    // All frames sent so far, on this socket and those before it.
    var sent: seq<Message>

    ghost function View(): Wrk
      reads this
    {
      Wrk(id, service, liveness, heartbeatAt, heartbeat, expectReply, replyTo)
    }

    constructor (service: Frame, id: Frame, clock: int)
      ensures Sound(View())
      ensures View() == Connect(Wrk(id, service, 0, 0, 2500, false, []), id, clock)
      ensures sent == EncodeUps([UpReady(service)])
    {
      this.service := service;
      this.id := id;
      liveness, heartbeatAt, heartbeat := 0, 0, 2500;
      expectReply, replyTo, sent := false, [], [];
      new;
      ConnectToBroker(id, clock);
    }

    method SetHeartbeat(heartbeat: int)
      modifies this`heartbeat
      ensures View() == old(View()).(heartbeat := heartbeat)
    {
      this.heartbeat := heartbeat;
    }

    method SendToBroker(command: Frame, option: Frame, payload: Message, ghost u: Up)
      requires EncodeUp(u) == MdwrkSpec.SendToBroker(command, option, payload) && Sendable(payload)
      modifies this`sent
      ensures sent == old(sent) + EncodeUps([u])
    {
      var msg := new ZMsg();
      msg.parts := payload;
      if |option| != 0 {
        msg.PushFront(option);
      }
      msg.PushFront(command);
      msg.PushFront(MDPW_WORKER);
      msg.PushFront([]);
      SendToBrokerIsSendable(command, option, payload);
      var frames := msg.Send();
      sent := sent + [frames];
      EncodeOne(u);
    }

    method ConnectToBroker(newId: Frame, clock: int)
      modifies this`id, this`liveness, this`heartbeatAt, this`sent
      ensures View() == Connect(old(View()), newId, clock)
      ensures sent == old(sent) + EncodeUps([UpReady(service)])
    {
      id := newId;
      SendToBroker(READY, service, [], UpReady(service));
      liveness := HEARTBEAT_LIVENESS;
      heartbeatAt := clock + heartbeat;
    }

    // The reply, if recv was given one.
    method SendReply(reply: Option<Message>)
      requires MayRecv(View(), reply) && (reply.Some? ==> Sendable(reply.value))
      modifies this`expectReply, this`replyTo, this`sent
      ensures View() == Begin(old(View()), reply).0
      ensures sent == old(sent) + EncodeUps(Begin(old(View()), reply).1)
    {
      if reply.Some? {
        WrapAndSend(reply.value);
      }
      expectReply := true;
    }

    method WrapAndSend(reply: Message)
      requires Sendable(reply)
      modifies this`replyTo, this`sent
      ensures View() == old(View()).(replyTo := [])
      ensures sent == old(sent) + EncodeUps([UpReply(Wrap(reply, old(replyTo), Some([])))])
    {
      var msg := new ZMsg();
      msg.parts := reply;
      msg.Wrap(replyTo, Some([]));
      var payload := msg.parts;
      WrappedReply(reply, replyTo);
      replyTo := [];
      SendToBroker(REPLY, [], payload, UpReply(payload));
    }

    method Beat(clock: int)
      modifies this`heartbeatAt, this`sent
      ensures var t := CheckHeartbeat(old(View()), [], clock);
              View() == t.w && sent == old(sent) + EncodeUps(t.ups)
    {
      if clock >= heartbeatAt {
        SendToBroker(HEARTBEAT, [], [], UpHeartbeat);
        heartbeatAt := heartbeatAt + heartbeat;
      }
    }

    // The worker is as the turn leaves it, begun with sent0 on the socket.
    ghost predicate Follows(t: Turn, sent0: seq<Message>, request: Option<Message>, ok: bool)
      reads this
    {
      match t
      case Again(w, ups) => ok && request == None && View() == w && sent == sent0 + EncodeUps(ups)
      case Got(w, msg) => ok && request == Some(msg) && View() == w && sent == sent0
      case Abort => !ok && request == None
    }

    // One turn of the loop; request is what recv returns, ok is false if an assert failed.
    method TurnOnce(p: Poll) returns (request: Option<Message>, ok: bool)
      modifies this
      ensures Follows(OnPoll(old(View()), p), old(sent), request, ok)
    {
      request, ok := None, true;
      if p.incoming.Some? {
        var msg := new ZMsg();
        msg.parts := p.incoming.value;
        liveness := HEARTBEAT_LIVENESS;
        if |msg.parts| < 3 {
          return None, false;
        }
        var empty := msg.PopFront();
        var header := msg.PopFront();
        var part := msg.PopFront();
        if empty != [] || header != MDPW_WORKER {
          return None, false;
        }
        assert msg.parts == p.incoming.value[3..];
        var command := CStr(part);
        if command == REQUEST {
          if |msg.parts| == 0 {
            return None, false;
          }
          replyTo := msg.Unwrap();
          return Some(msg.parts), true;
        } else if command == DISCONNECT {
          ConnectToBroker(p.newId, p.connectClock);
        }
      } else {
        liveness := liveness - 1;
        if liveness == 0 {
          ConnectToBroker(p.newId, p.connectClock);
        }
      }
      Beat(p.clock);
      EncodeAppend([UpReady(service)], [UpHeartbeat]);
    }

    // recv, interrupted when the script ends.
    method Recv(reply: Option<Message>, script: seq<Poll>) returns (request: Option<Message>, ok: bool)
      requires MayRecv(View(), reply) && (reply.Some? ==> Sendable(reply.value))
      modifies this
      ensures var (w, ups) := Begin(old(View()), reply);
              At(w, old(sent) + EncodeUps(ups), script, |script|, request, ok)
    {
      SendReply(reply);
      request, ok := PollLoop(script);
    }

    // The worker is where the loop, begun in w with sent0 on the socket, is after n turns.
    ghost predicate At(w: Wrk, sent0: seq<Message>, script: seq<Poll>, n: nat, request: Option<Message>, ok: bool)
      requires n <= |script|
      reads this
    {
      IsAt(Loop(w, script, n), sent0, request, ok)
    }

    ghost predicate IsAt(p: Progress, sent0: seq<Message>, request: Option<Message>, ok: bool)
      reads this
    {
      ok == !p.aborted && (ok ==> request == p.got && View() == p.w && sent == sent0 + EncodeUps(p.ups))
    }

    lemma TakenAt(p: Progress, t: Turn, sent0: seq<Message>, sent1: seq<Message>, request: Option<Message>, ok: bool)
      requires sent1 == sent0 + EncodeUps(p.ups) && Follows(t, sent1, request, ok)
      ensures IsAt(Take(p.ups, p.w, t), sent0, request, ok)
    {
      if t.Again? {
        EncodeAppend(p.ups, t.ups);
      }
    }

    method PollLoop(script: seq<Poll>) returns (request: Option<Message>, ok: bool)
      modifies this
      ensures At(old(View()), old(sent), script, |script|, request, ok)
    {
      request, ok := None, true;
      var n := 0;
      while n < |script| && ok && request == None
        invariant 0 <= n <= |script| && At(old(View()), old(sent), script, n, request, ok)
      {
        request, ok := TurnAt(old(View()), old(sent), script, n);
        n := n + 1;
      }
      LoopStops(old(View()), script, n);
    }

    method TurnAt(ghost w: Wrk, ghost sent0: seq<Message>, script: seq<Poll>, n: nat) returns (request: Option<Message>, ok: bool)
      requires n < |script| && At(w, sent0, script, n, None, true)
      modifies this
      ensures At(w, sent0, script, n + 1, request, ok)
    {
      ghost var p, t, sent1 := Loop(w, script, n), OnPoll(View(), script[n]), sent;
      request, ok := TurnOnce(script[n]);
      TakenAt(p, t, sent0, sent1, request, ok);
      LoopNext(w, script, n);
    }
  }
}
