// What the worker API does on each message of the broker, read off its frames, and what its
// loop does over runs: when it changes its connection, and when it sends heartbeats.

module MdwrkRuns {
  import opened Bytes
  import opened Mdp
  import opened MdwrkSpec

  // The parts of a message from the broker.
  function FromBroker(command: Frame, rest: Message): Message {
    [[], MDPW_WORKER, command] + rest
  }

  function Hearing(p: Poll, parts: Message): Poll {
    p.(incoming := Some(parts))
  }

  // The three messages of a worker byte by byte.
  lemma EncodedUpFrames(u: Up)
    requires u.UpReady? ==> u.service != []
    ensures match u
            case UpReady(service) => EncodeUp(u) == [[], [77, 68, 80, 87, 48, 49], [1], CStr(service)]
            case UpReply(payload) => EncodeUp(u) == [[], [77, 68, 80, 87, 48, 49], [3]] + payload
            case UpHeartbeat => EncodeUp(u) == [[], [77, 68, 80, 87, 48, 49], [4]]
  {
    match u
    case UpReady(service) => UpReadyFrames(service);
    case UpReply(payload) => SendToBrokerFrames(REPLY, payload);
    case UpHeartbeat => SendToBrokerFrames(HEARTBEAT, []);
  }

  // -------------------------------------------------------------------------------------
  // One message

  // The heartbeat check that ends a turn, with ups sent before it.
  ghost predicate Checked(t: Turn, ups: seq<Up>, due: int, heartbeat: int, clock: int) {
    && t.Again?
    && (clock >= due ==> t.ups == ups + [UpHeartbeat] && t.w.heartbeatAt == due + heartbeat)
    && (clock < due ==> t.ups == ups && t.w.heartbeatAt == due)
  }

  // DISCONNECT opens a new connection, on which READY comes first.
  lemma DisconnectReconnects(w: Wrk, p: Poll, rest: Message)
    ensures var t := OnPoll(w, Hearing(p, FromBroker(DISCONNECT, rest)));
            && t.Again? && t.w.id == p.newId && t.w.service == w.service && t.w.liveness == 3
            && t.ups != [] && t.ups[0] == UpReady(w.service)
            && Checked(t, [UpReady(w.service)], p.connectClock + w.heartbeat, w.heartbeat, p.clock)
  {
    assert DISCONNECT[0] != REQUEST[0];
    var parts := FromBroker(DISCONNECT, rest);
    assert CStr(parts[2]) == DISCONNECT;
  }

  // HEARTBEAT, and any command the worker does not know, shows that the broker is alive, and
  // changes nothing else.
  lemma OthersKeepTheConnection(w: Wrk, p: Poll, command: Frame, rest: Message)
    requires NulFree(command) && command != REQUEST && command != DISCONNECT
    ensures var t := OnPoll(w, Hearing(p, FromBroker(command, rest)));
            && Checked(t, [], w.heartbeatAt, w.heartbeat, p.clock)
            && t.w == w.(liveness := 3, heartbeatAt := t.w.heartbeatAt)
  {
    var parts := FromBroker(command, rest);
    CStrIsIdentityExactlyOnNulFree(command);
    assert parts[2] == command;
  }

  // A heartbeat is such a message.
  lemma HeartbeatKeepsTheConnection(w: Wrk, p: Poll, rest: Message)
    ensures var t := OnPoll(w, Hearing(p, FromBroker(HEARTBEAT, rest)));
            t.Again? && t.w.id == w.id && t.w.liveness == 3 && forall s :: UpReady(s) !in t.ups
  {
    assert HEARTBEAT[0] != REQUEST[0] && HEARTBEAT[0] != DISCONNECT[0];
    OthersKeepTheConnection(w, p, HEARTBEAT, rest);
  }

  // REQUEST hands the body to the caller, who then owes a reply.
  lemma RequestIsOwed(w: Wrk, p: Poll, c: Frame, body: Message, reply: Message)
    requires c != [] && NulFree(c)
    ensures var t := OnPoll(w, Hearing(p, FromBroker(REQUEST, [c, []] + body)));
            && t == Got(w.(liveness := 3, replyTo := c), body)
            && MayRecv(t.w, Some(reply)) && (w.expectReply ==> !MayRecv(t.w, None))
  {
    var parts := FromBroker(REQUEST, [c, []] + body);
    CStrIsIdentityExactlyOnNulFree(c);
    assert parts[3..] == [c, []] + body;
    assert ([c, []] + body)[2..] == body;
  }

  // An assert fails exactly on a message without the worker header or without the envelope of
  // its request.
  lemma AbortsExactly(w: Wrk, p: Poll, parts: Message)
    ensures OnPoll(w, Hearing(p, parts)).Abort?
            <==> !(|parts| >= 3 && parts[0] == [] && parts[1] == MDPW_WORKER
                   && (CStr(parts[2]) == REQUEST ==> |parts| >= 4))
  {
  }

  // -------------------------------------------------------------------------------------
  // The loop

  // The loop keeps what the call of recv began with until it has a request.
  lemma {:induction false} LoopKeepsTheCall(w: Wrk, script: seq<Poll>, n: nat)
    requires n <= |script|
    ensures var p := Loop(w, script, n);
            && p.w.service == w.service && p.w.heartbeat == w.heartbeat && p.w.expectReply == w.expectReply
            && (p.got.None? ==> p.w.replyTo == w.replyTo)
  {
    if n > 0 {
      LoopKeepsTheCall(w, script, n - 1);
      TurnKeepsTheCall(Loop(w, script, n - 1).w, script[n - 1]);
    }
  }

  lemma TurnKeepsTheCall(w: Wrk, p: Poll)
    ensures match OnPoll(w, p)
            case Again(w1, _) =>
              w1.service == w.service && w1.heartbeat == w.heartbeat && w1.expectReply == w.expectReply && w1.replyTo == w.replyTo
            case Got(w1, _) => w1.service == w.service && w1.heartbeat == w.heartbeat && w1.expectReply == w.expectReply
            case Abort => true
  {
  }

  // recv takes no reply in the first call, and one in every later call; a call that is
  // interrupted before a request came leaves nobody to reply to.
  lemma RecvTakesTurns(w: Wrk, reply: Option<Message>, script: seq<Poll>, next: Message)
    requires MayRecv(w, reply) && (w.expectReply || w.replyTo == [])
    ensures var p := Loop(Begin(w, reply).0, script, |script|);
            !MayRecv(p.w, None) && (p.got.None? ==> !MayRecv(p.w, Some(next)))
  {
    LoopKeepsTheCall(Begin(w, reply).0, script, |script|);
  }

  // A message that is no DISCONNECT.
  predicate NoDisconnect(p: Poll) {
    p.incoming.Some? && |p.incoming.value| >= 3 ==> CStr(p.incoming.value[2]) != DISCONNECT
  }

  // The silent polls in a row before turn n.
  function Quiet(script: seq<Poll>, n: nat): nat
    requires n <= |script|
  {
    if n == 0 || script[n - 1].incoming.Some? then 0 else Quiet(script, n - 1) + 1
  }

  // Among any three polls in a row one brings something.
  ghost predicate Lively(script: seq<Poll>) {
    forall k: nat :: k + 3 <= |script| ==>
      script[k].incoming.Some? || script[k + 1].incoming.Some? || script[k + 2].incoming.Some?
  }

  lemma LivelyIsNotQuiet(script: seq<Poll>, n: nat)
    requires Lively(script) && n <= |script|
    ensures Quiet(script, n) <= 2
  {
    if n > 0 && script[n - 1].incoming.None? {
      LivelyIsNotQuiet(script, n - 1);
      if n > 1 && script[n - 2].incoming.None? && n > 2 {
        assert script[n - 3].incoming.Some?;
      }
    }
  }

  // A worker that hears something in any three polls, and is not told to disconnect, never
  // changes its connection.
  lemma {:induction false} HeardWorkersStay(w: Wrk, script: seq<Poll>, n: nat)
    requires w.liveness == 3 && Lively(script) && n <= |script|
    requires forall k :: 0 <= k < |script| ==> NoDisconnect(script[k])
    ensures var p := Loop(w, script, n);
            && p.w.id == w.id
            && (forall s :: UpReady(s) !in p.ups)
            && (p.got.None? && !p.aborted ==> p.w.liveness == 3 - Quiet(script, n))
  {
    if n > 0 {
      HeardWorkersStay(w, script, n - 1);
      LivelyIsNotQuiet(script, n);
      var p := Loop(w, script, n - 1);
      if p.got.None? && !p.aborted {
        StayingTurn(p.w, script[n - 1]);
      }
    }
  }

  lemma StayingTurn(w: Wrk, p: Poll)
    requires NoDisconnect(p) && (p.incoming.None? ==> w.liveness > 1)
    ensures var t := OnPoll(w, p);
            match t
            case Again(w1, ups) =>
              && w1.id == w.id && (forall s :: UpReady(s) !in ups)
              && w1.liveness == if p.incoming.Some? then 3 else w.liveness - 1
            case Got(w1, _) => w1.id == w.id
            case Abort => true
  {
  }

  // -------------------------------------------------------------------------------------
  // Heartbeats

  function CountBeats(ups: seq<Up>): nat {
    if ups == [] then 0 else CountBeats(ups[..|ups| - 1]) + (if ups[|ups| - 1].UpHeartbeat? then 1 else 0)
  }

  lemma CountBeatsConcat(a: seq<Up>, c: seq<Up>)
    ensures CountBeats(a + c) == CountBeats(a) + CountBeats(c)
    decreases |c|
  {
    if c == [] {
      assert a + c == a;
    } else {
      var n := |c| - 1;
      assert (a + c)[..|a + c| - 1] == a + c[..n];
      CountBeatsConcat(a, c[..n]);
    }
  }

  // The loop has gone n turns on one connection and goes on.
  ghost predicate Steady(w: Wrk, script: seq<Poll>, n: nat)
    requires n <= |script|
  {
    var p := Loop(w, script, n);
    p.got.None? && !p.aborted && forall s :: UpReady(s) !in p.ups
  }

  lemma SteadyBefore(w: Wrk, script: seq<Poll>, n: nat)
    requires 0 < n <= |script| && Steady(w, script, n)
    ensures Steady(w, script, n - 1)
    ensures var q, t := Loop(w, script, n - 1), OnPoll(Loop(w, script, n - 1).w, script[n - 1]);
            t.Again? && Loop(w, script, n) == Progress(t.w, q.ups + t.ups, None, false)
            && forall s :: UpReady(s) !in t.ups
  {
    var q, t := Loop(w, script, n - 1), OnPoll(Loop(w, script, n - 1).w, script[n - 1]);
    assert Loop(w, script, n) == Take(q.ups, q.w, t);
    forall s ensures UpReady(s) !in q.ups && UpReady(s) !in t.ups {
      assert UpReady(s) !in q.ups + t.ups;
    }
  }

  lemma SteadyTurn(w: Wrk, p: Poll)
    requires OnPoll(w, p).Again? && forall s :: UpReady(s) !in OnPoll(w, p).ups
    ensures var t := OnPoll(w, p);
            && Checked(t, [], w.heartbeatAt, w.heartbeat, p.clock) && t.w.heartbeat == w.heartbeat
            && CountBeats(t.ups) == if p.clock >= w.heartbeatAt then 1 else 0
  {
    var t := OnPoll(w, p);
    assert UpReady(w.service) !in t.ups;
    assert UpReady(w.service) in [UpReady(w.service)];
    assert CountBeats([UpHeartbeat]) == 1;
  }

  // The time k intervals after the first heartbeat falls due.
  function Due(w: Wrk, k: nat): int {
    if k == 0 then w.heartbeatAt else Due(w, k - 1) + w.heartbeat
  }

  // On one connection a turn sends a heartbeat exactly if the next of these times has come,
  // however late those before went out.
  lemma {:induction false} HeartbeatsFallDue(w: Wrk, script: seq<Poll>, n: nat)
    requires n <= |script| && Steady(w, script, n)
    ensures var p := Loop(w, script, n);
            p.w.heartbeat == w.heartbeat && p.w.heartbeatAt == Due(w, CountBeats(p.ups))
    ensures n > 0 ==>
              var k := CountBeats(Loop(w, script, n - 1).ups);
              CountBeats(Loop(w, script, n).ups) == k + (if script[n - 1].clock >= Due(w, k) then 1 else 0)
  {
    if n > 0 {
      SteadyBefore(w, script, n);
      HeartbeatsFallDue(w, script, n - 1);
      var q := Loop(w, script, n - 1);
      SteadyTurn(q.w, script[n - 1]);
      CountBeatsConcat(q.ups, OnPoll(q.w, script[n - 1]).ups);
    }
  }

  // When the loop last looked at the clock before turn i, counting from one interval before
  // the first heartbeat is due.
  function LookedAt(w: Wrk, script: seq<Poll>, i: nat): int
    requires i <= |script|
  {
    if i == 0 then w.heartbeatAt - w.heartbeat else script[i - 1].clock
  }

  // By this time k heartbeats have fallen due, no more and no fewer.
  predicate KeptUp(w: Wrk, k: nat, clock: int) {
    clock < Due(w, k) && (k > 0 ==> Due(w, k - 1) <= clock)
  }

  lemma KeepsUp(w: Wrk, k: nat, before: int, clock: int)
    requires w.heartbeat > 0 && before <= clock <= before + w.heartbeat && KeptUp(w, k, before)
    ensures KeptUp(w, k + (if clock >= Due(w, k) then 1 else 0), clock)
  {
    assert Due(w, k + 1) == Due(w, k) + w.heartbeat;
  }

  // The loop looks at the clock at least once per interval.
  ghost predicate Prompt(w: Wrk, script: seq<Poll>) {
    forall i: nat {:trigger LookedAt(w, script, i)} :: i < |script| ==>
      LookedAt(w, script, i) <= script[i].clock <= LookedAt(w, script, i) + w.heartbeat
  }

  // If it does, it misses no heartbeat: those sent are exactly those that have fallen due.
  lemma {:induction false} NoHeartbeatIsMissed(w: Wrk, script: seq<Poll>, n: nat)
    requires n <= |script| && Steady(w, script, n) && w.heartbeat > 0 && Prompt(w, script)
    ensures KeptUp(w, CountBeats(Loop(w, script, n).ups), LookedAt(w, script, n))
  {
    if n > 0 {
      SteadyBefore(w, script, n);
      NoHeartbeatIsMissed(w, script, n - 1);
      HeartbeatsFallDue(w, script, n);
      KeepsUp(w, CountBeats(Loop(w, script, n - 1).ups), LookedAt(w, script, n - 1), script[n - 1].clock);
    }
  }
}
