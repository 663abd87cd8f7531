// The worker API mdwrkapi.hpp as functions: its protocol state, the messages it sends, and
// one turn of the loop in recv. Class Mdwrk runs this loop on fields; Majordomo composes it
// with the broker.

module MdwrkSpec {
  import opened Bytes
  import opened Frames
  import opened Mdp

  // id names the current connection: every reconnect makes a socket with a new identity.
  datatype Wrk = Wrk(id: Frame, service: Frame, liveness: int, heartbeatAt: int, heartbeat: int,
                     expectReply: bool, replyTo: Frame)

  datatype Up = UpReady(service: Frame) | UpReply(payload: Message) | UpHeartbeat

  // send_to_broker(command, option, payload): the parts handed to zmsg::send.
  function SendToBroker(command: Frame, option: Frame, payload: Message): Message {
    var optioned := if |option| != 0 then PushFront(payload, option) else payload;
    PushFront(PushFront(PushFront(optioned, command), MDPW_WORKER), [])
  }

  function EncodeUp(u: Up): Message {
    match u
    case UpReady(service) => SendToBroker(READY, service, [])
    case UpReply(payload) => SendToBroker(REPLY, [], payload)
    case UpHeartbeat => SendToBroker(HEARTBEAT, [], [])
  }

  // connect_to_broker on a socket with identity newId.
  function Connect(w: Wrk, newId: Frame, clock: int): Wrk {
    w.(id := newId, liveness := HEARTBEAT_LIVENESS, heartbeatAt := clock + w.heartbeat)
  }

  // What recv asserts of its caller: a reply if one is owed, and someone to send it to.
  predicate MayRecv(w: Wrk, reply: Option<Message>) {
    if reply.None? then !w.expectReply else w.replyTo != []
  }

  // The start of recv: the reply, if any, leaves in the envelope of its request.
  function Begin(w: Wrk, reply: Option<Message>): (Wrk, seq<Up>) {
    if reply.None? then (w.(expectReply := true), [])
    else (w.(expectReply := true, replyTo := []), [UpReply(Wrap(reply.value, w.replyTo, Some([])))])
  }

  // One turn of the loop: what poll brought, the identity and clock of a reconnect should
  // there be one, and the clock of the heartbeat check.
  datatype Poll = Poll(incoming: Option<Message>, newId: Frame, connectClock: int, clock: int)

  // How a turn ends: in another turn, with a request for the caller, or in a failed assert.
  datatype Turn = Again(w: Wrk, ups: seq<Up>) | Got(w: Wrk, request: Message) | Abort

  function CheckHeartbeat(w: Wrk, ups: seq<Up>, clock: int): Turn {
    if clock >= w.heartbeatAt then Again(w.(heartbeatAt := w.heartbeatAt + w.heartbeat), ups + [UpHeartbeat])
    else Again(w, ups)
  }

  function Reconnect(w: Wrk, p: Poll): Turn {
    CheckHeartbeat(Connect(w, p.newId, p.connectClock), [UpReady(w.service)], p.clock)
  }

  function OnMessage(w: Wrk, parts: Message, p: Poll): Turn {
    var w1 := w.(liveness := HEARTBEAT_LIVENESS);
    if |parts| < 3 || parts[0] != [] || parts[1] != MDPW_WORKER then Abort
    else
      var command, rest := CStr(parts[2]), parts[3..];
      if command == REQUEST then
        if rest == [] then Abort else Got(w1.(replyTo := UnwrapAddress(rest)), UnwrapRest(rest))
      else if command == DISCONNECT then Reconnect(w1, p)
      else CheckHeartbeat(w1, [], p.clock)
  }

  function OnQuiet(w: Wrk, p: Poll): Turn {
    if w.liveness - 1 == 0 then Reconnect(w.(liveness := 0), p)
    else CheckHeartbeat(w.(liveness := w.liveness - 1), [], p.clock)
  }

  function OnPoll(w: Wrk, p: Poll): Turn {
    if p.incoming.Some? then OnMessage(w, p.incoming.value, p) else OnQuiet(w, p)
  }

  // -------------------------------------------------------------------------------------
  // The loop

  datatype Progress = Progress(w: Wrk, ups: seq<Up>, got: Option<Message>, aborted: bool)

  function Take(ups: seq<Up>, w: Wrk, t: Turn): Progress {
    match t
    case Again(w1, more) => Progress(w1, ups + more, None, false)
    case Got(w1, request) => Progress(w1, ups, Some(request), false)
    case Abort => Progress(w, ups, None, true)
  }

  // The loop of recv after at most n turns.
  function Loop(w: Wrk, script: seq<Poll>, n: nat): Progress
    requires n <= |script|
  {
    if n == 0 then Progress(w, [], None, false)
    else
      var p := Loop(w, script, n - 1);
      if p.got.Some? || p.aborted then p
      else Take(p.ups, p.w, OnPoll(p.w, script[n - 1]))
  }

  lemma LoopNext(w: Wrk, script: seq<Poll>, n: nat)
    requires n < |script| && Loop(w, script, n).got.None? && !Loop(w, script, n).aborted
    ensures Loop(w, script, n + 1)
            == Take(Loop(w, script, n).ups, Loop(w, script, n).w, OnPoll(Loop(w, script, n).w, script[n]))
  {
  }

  // Once it has a request or has failed, the loop is over.
  lemma {:induction false} LoopStops(w: Wrk, script: seq<Poll>, n: nat)
    requires n <= |script| && (n < |script| ==> Loop(w, script, n).got.Some? || Loop(w, script, n).aborted)
    ensures Loop(w, script, |script|) == Loop(w, script, n)
    decreases |script| - n
  {
    if n < |script| {
      LoopStops(w, script, n + 1);
    }
  }

  predicate Sound(w: Wrk) {
    1 <= w.liveness <= HEARTBEAT_LIVENESS
  }

  // Liveness is between 1 and 3 whenever the loop polls; a worker is disconnected after
  // three silent polls in a row and never counts below zero.
  lemma {:induction false} LivenessStaysInRange(w: Wrk, script: seq<Poll>, n: nat)
    requires Sound(w) && n <= |script|
    ensures Sound(Loop(w, script, n).w)
  {
    if n > 0 {
      LivenessStaysInRange(w, script, n - 1);
    }
  }

  lemma {:induction false} SilenceReconnects(w: Wrk, script: seq<Poll>)
    requires Sound(w) && |script| == w.liveness
    requires forall i :: 0 <= i < |script| ==> script[i].incoming.None?
    ensures var p := Loop(w, script, |script|);
            && p.w.id == script[|script| - 1].newId
            && p.w.liveness == HEARTBEAT_LIVENESS
            && UpReady(w.service) in p.ups
    ensures forall n: nat :: n < |script| ==> Loop(w, script, n).w.id == w.id
  {
    forall n: nat | n < |script| ensures Loop(w, script, n).w.id == w.id {
      SilentTurns(w, script, n);
    }
    SilentTurns(w, script, |script| - 1);
    var p := Loop(w, script, |script| - 1);
    assert UpReady(w.service) in [UpReady(w.service)];
  }

  lemma {:induction false} SilentTurns(w: Wrk, script: seq<Poll>, n: nat)
    requires Sound(w) && n < w.liveness <= |script|
    requires forall i :: 0 <= i < |script| ==> script[i].incoming.None?
    ensures var p := Loop(w, script, n);
            && p.w.id == w.id && p.w.service == w.service && p.w.liveness == w.liveness - n
            && p.got.None? && !p.aborted
  {
    if n > 0 {
      SilentTurns(w, script, n - 1);
    }
  }

  // -------------------------------------------------------------------------------------
  // Framing

  lemma SendToBrokerFrames(command: Frame, payload: Message)
    ensures SendToBroker(command, [], payload) == [[], CStr(MDPW_WORKER), CStr(command)] + payload
  {
    Pushed3(payload, [], MDPW_WORKER, command);
  }

  lemma UpReadyFrames(service: Frame)
    requires service != []
    ensures EncodeUp(UpReady(service)) == [[], CStr(MDPW_WORKER), CStr(READY), CStr(service)]
  {
    OptionedFrames(READY, service, []);
  }

  lemma OptionedFrames(command: Frame, option: Frame, payload: Message)
    requires option != []
    ensures SendToBroker(command, option, payload)
            == [[], CStr(MDPW_WORKER), CStr(command), CStr(option)] + payload
  {
    Pushed4(payload, [], MDPW_WORKER, command, option);
  }

  lemma SendToBrokerIsSendable(command: Frame, option: Frame, payload: Message)
    requires Sendable(payload)
    ensures Sendable(SendToBroker(command, option, payload))
  {
    if |option| != 0 {
      OptionedFrames(command, option, payload);
      SendableAfterStrings([[], CStr(MDPW_WORKER), CStr(command), CStr(option)], payload);
    } else {
      SendToBrokerFrames(command, payload);
      SendableAfterStrings([[], CStr(MDPW_WORKER), CStr(command)], payload);
    }
  }
}
