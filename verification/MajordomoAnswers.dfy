// What the answers of the composed system say: on every connection they are, one for one and
// in order, the answers to the requests given to it.

module MajordomoAnswers {
  import opened Bytes
  import opened Frames
  import opened Mdp
  import opened BrokerSpec
  import opened BrokerInvariants
  import opened BrokerRuns
  import opened BrokerConforming
  import opened BrokerWork
  import opened MdwrkSpec
  import opened Majordomo
  import opened MajordomoSafety

  datatype Question = Question(client: Id, service: Name, body: Message)

  // A request as the broker queues it: the client, an empty delimiter, the body.
  function QuestionOf(n: Name, m: Message): Question
    requires |m| >= 2
  {
    Question(m[0], n, m[2..])
  }

  // What the broker passes on for a worker that answers a request with f.
  function ReplyTo(o: Out, f: Message -> Message): Out
    requires o.Request? && |o.payload| >= 2
  {
    Answer(o.payload[0], o.service, f(o.payload[2..]))
  }

  predicate IsBrokerAction(a: Action) {
    a.BrokerReceives? || a.ClientAsks? || a.BrokerBeats?
  }

  ghost function OutsOf(s: Sys, a: Action): seq<Out>
    requires CanDo(s, a)
  {
    if !IsBrokerAction(a) then []
    else
      match Step(s.broker, InputOf(s, a))
      case Done(_, outs) => outs
      case Crash(_) => []
  }

  function RequestsTo(outs: seq<Out>, x: Id): seq<Out> {
    if outs == [] then []
    else (if outs[0].Request? && outs[0].worker == x then [outs[0]] else []) + RequestsTo(outs[1..], x)
  }

  function Answers(outs: seq<Out>): seq<Out> {
    if outs == [] then [] else (if outs[0].Answer? then [outs[0]] else []) + Answers(outs[1..])
  }

  // The answers an action makes the broker pass on for worker x.
  ghost function ReturnedBy(s: Sys, a: Action, x: Id): seq<Out>
    requires CanDo(s, a)
  {
    if a.BrokerReceives? && a.id == x then Answers(OutsOf(s, a)) else []
  }

  // The request the caller at the end of connection x was last handed.
  ghost function HeldAfter(s: Sys, a: Action, x: Id, held: Message): Message
    requires CanDo(s, a)
  {
    if a.WorkerPolls? && a.id == x && !a.quiet then
      var c := s.conns[x];
      match OnPoll(c.end.value, Poll(Some(Transfer(DownFrames(c.down[0]))), a.newId, a.connectClock, a.clock))
      case Got(_, request) => request
      case Again(_, _) => held
      case Abort => held
    else held
  }

  // -------------------------------------------------------------------------------------
  // One connection

  // Whatever is under way on the connection is about request m.
  ghost predicate Concerns(c: Conn, m: Message, held: Message, f: Message -> Message) {
    && |m| >= 2
    && (forall d :: d in c.down && d.DownRequest? ==> d.payload == m)
    && (Working(c) == 1 ==> c.end.value.replyTo == m[0] && held == m[2..])
    && (forall u :: u in c.up && u.UpReply? ==> u.payload == [m[0], []] + f(m[2..]))
  }

  ghost predicate Pointwise(given: seq<Out>, returned: seq<Out>, f: Message -> Message) {
    && |returned| <= |given| <= |returned| + 1
    && (forall j :: 0 <= j < |given| ==> given[j].Request? && |given[j].payload| >= 2)
    && (forall j :: 0 <= j < |returned| ==> returned[j] == ReplyTo(given[j], f))
  }

  ghost predicate TracedConn(b: State, x: Id, c: Conn, given: seq<Out>, returned: seq<Out>, held: Message, f: Message -> Message) {
    && Pointwise(given, returned, f)
    && (x in b.waiting || Announced(c) ==> |given| == |returned|)
    && (Tokens(c) == 1 ==>
          && |given| == |returned| + 1
          && IsAttached(b, given[|returned|].service, x)
          && Concerns(c, given[|returned|].payload, held, f))
  }

  ghost predicate Traced(s: Sys, x: Id, given: seq<Out>, returned: seq<Out>, held: Message, f: Message -> Message) {
    if x in s.conns then TracedConn(s.broker, x, s.conns[x], given, returned, held, f)
    else given == [] && returned == []
  }

  lemma TokenCounts(c: Conn)
    ensures (forall d :: d in c.down ==> !d.DownRequest?) <==> CountRequests(c.down) == 0
    ensures (forall u :: u in c.up ==> !u.UpReply?) <==> CountReplies(c.up) == 0
  {
    NoRequests(c.down);
    NoReplies(c.up);
  }

  lemma NoRequests(down: seq<Down>)
    ensures (forall d :: d in down ==> !d.DownRequest?) <==> CountRequests(down) == 0
  {
    if down != [] {
      NoRequests(down[1..]);
      assert forall d :: d in down <==> d == down[0] || d in down[1..];
    }
  }

  lemma NoReplies(up: seq<Up>)
    ensures (forall u :: u in up ==> !u.UpReply?) <==> CountReplies(up) == 0
  {
    if up != [] {
      NoReplies(up[1..]);
      assert forall u :: u in up <==> u == up[0] || u in up[1..];
    }
  }

  // A connection on which nothing new is under way.
  ghost predicate NoMore(c: Conn, c1: Conn) {
    && (forall d :: d in c1.down && d.DownRequest? ==> d in c.down)
    && (forall u :: u in c1.up && u.UpReply? ==> u in c.up)
    && (Working(c1) == 1 ==> Working(c) == 1 && c1.end.value.replyTo == c.end.value.replyTo)
    && Tokens(c1) <= Tokens(c)
    && (Announced(c1) ==> Announced(c))
  }

  lemma NoMoreKeepsTraced(b: State, x: Id, c: Conn, c1: Conn, given: seq<Out>, returned: seq<Out>, held: Message, f: Message -> Message)
    requires TracedConn(b, x, c, given, returned, held, f) && NoMore(c, c1) && Tokens(c) <= 1
    ensures TracedConn(b, x, c1, given, returned, held, f)
  {
  }

  // -------------------------------------------------------------------------------------
  // Workers

  // A turn without a request for the worker's caller: on the same connection, or on a new one.
  ghost predicate PlainTurn(t: Turn, id: Id, newId: Id) {
    && t.Again? && t.w.replyTo == [] && (forall u :: u in t.ups ==> !u.UpReply?)
    && ((t.w.id == id && forall u :: u in t.ups ==> !u.UpReady?) || t.w.id == newId)
  }

  ghost function TurnOf(s: Sys, a: Action): Turn
    requires CanDo(s, a) && a.WorkerPolls?
  {
    var c := s.conns[a.id];
    var incoming := if a.quiet then None else Some(Transfer(DownFrames(c.down[0])));
    OnPoll(c.end.value, Poll(incoming, a.newId, a.connectClock, a.clock))
  }

  // The connection as the turn finds it.
  ghost function Polled(s: Sys, a: Action): Conn
    requires CanDo(s, a) && a.WorkerPolls?
  {
    var c := s.conns[a.id];
    if a.quiet then c else c.(down := c.down[1..])
  }

  lemma PollsAre(s: Sys, a: Action)
    requires CanDo(s, a) && a.WorkerPolls?
    ensures Do(s, a) == AfterTurn(s.(conns := s.conns[a.id := Polled(s, a)]), a.id, TurnOf(s, a))
  {
    assert s.conns[a.id := s.conns[a.id]] == s.conns;
  }

  lemma PlainPoll(s: Sys, a: Action)
    requires Good(s) && CanDo(s, a) && a.WorkerPolls?
    requires a.quiet || !s.conns[a.id].down[0].DownRequest?
    ensures PlainTurn(TurnOf(s, a), a.id, a.newId)
    ensures NoMore(s.conns[a.id], Polled(s, a))
  {
    var c := s.conns[a.id];
    var w := c.end.value;
    assert WiringOk(a.id, c);
    if !a.quiet {
      ControlTurn(w, a.id, Poll(Some(Transfer(DownFrames(c.down[0]))), a.newId, a.connectClock, a.clock), c.down[0]);
    } else {
      var p := Poll(None, a.newId, a.connectClock, a.clock);
      if w.liveness == 1 {
        ReconnectTurn(w.(liveness := 0), a.id, p);
      } else {
        CheckTurn(w.(liveness := w.liveness - 1), a.id, p);
      }
    }
  }

  lemma SameEndIsNoMore(c: Conn, w: Wrk, ups: seq<Up>)
    requires w.replyTo == [] && forall u :: u in ups ==> !u.UpReply? && !u.UpReady?
    ensures NoMore(c, c.(end := Some(w), up := c.up + ups))
  {
    CountRepliesConcat(c.up, ups);
    NoReplies(ups);
  }

  lemma NoMoreTwice(c: Conn, c1: Conn, c2: Conn)
    requires NoMore(c, c1) && NoMore(c1, c2)
    ensures NoMore(c, c2)
  {
  }

  lemma OpenedIsTraced(b: State, x: Id, c: Conn, held: Message, f: Message -> Message)
    requires Tokens(c) == 0
    ensures TracedConn(b, x, c, [], [], held, f)
  {
  }

  lemma PlainPollIs(s: Sys, a: Action)
    requires Good(s) && CanDo(s, a) && a.WorkerPolls?
    requires a.quiet || !s.conns[a.id].down[0].DownRequest?
    ensures var t := TurnOf(s, a);
            && PlainTurn(t, a.id, a.newId)
            && NoMore(s.conns[a.id], Polled(s, a))
            && Do(s, a) == Some(Turned(s.(conns := s.conns[a.id := Polled(s, a)]), a.id, t.w, t.ups))
  {
    PlainPoll(s, a);
    PollsAre(s, a);
    TurnIs(s.(conns := s.conns[a.id := Polled(s, a)]), a.id, TurnOf(s, a));
  }

  // The connection of the worker after such a turn.
  lemma TurnedIsNoMore(c: Conn, id: Id, w: Wrk, ups: seq<Up>)
    requires w.replyTo == [] && forall u :: u in ups ==> !u.UpReply?
    requires w.id == id ==> forall u :: u in ups ==> !u.UpReady?
    ensures NoMore(c, if w.id == id then c.(end := Some(w), up := c.up + ups) else Conn(None, c.up, []))
  {
    if w.id == id {
      SameEndIsNoMore(c, w, ups);
    }
  }

  // A poll that brings the worker no request leaves everything as traced.
  lemma PlainPollTraced(s: Sys, a: Action, x: Id, given: seq<Out>, returned: seq<Out>, held: Message, f: Message -> Message)
    requires Good(s) && CanDo(s, a) && a.WorkerPolls? && Traced(s, x, given, returned, held, f)
    requires a.quiet || !s.conns[a.id].down[0].DownRequest?
    ensures Do(s, a).Some? && Traced(Do(s, a).value, x, given, returned, held, f)
  {
    PlainPollIs(s, a);
    var t := TurnOf(s, a);
    if x == a.id {
      PollerTraced(s, a, t.w, t.ups, given, returned, held, f);
    } else if x == t.w.id {
      NoReplies(t.ups);
      OpenedIsTraced(s.broker, x, Conn(Some(t.w), t.ups, []), held, f);
    }
  }

  lemma PollerTraced(s: Sys, a: Action, w: Wrk, ups: seq<Up>, given: seq<Out>, returned: seq<Out>, held: Message, f: Message -> Message)
    requires Good(s) && CanDo(s, a) && a.WorkerPolls? && Traced(s, a.id, given, returned, held, f)
    requires NoMore(s.conns[a.id], Polled(s, a)) && PlainTurn(Again(w, ups), a.id, a.newId)
    ensures Traced(Turned(s.(conns := s.conns[a.id := Polled(s, a)]), a.id, w, ups), a.id, given, returned, held, f)
  {
    var c, c1 := s.conns[a.id], Polled(s, a);
    var c2 := if w.id == a.id then c1.(end := Some(w), up := c1.up + ups) else Conn(None, c1.up, []);
    assert TokensOk(s.broker, a.id, c);
    TurnedIsNoMore(c1, a.id, w, ups);
    NoMoreTwice(c, c1, c2);
    NoMoreKeepsTraced(s.broker, a.id, c, c2, given, returned, held, f);
  }

  // A poll that brings one: the worker's caller now holds it.
  lemma RequestPollTraced(s: Sys, a: Action, x: Id, given: seq<Out>, returned: seq<Out>, held: Message, f: Message -> Message)
    requires Good(s) && CanDo(s, a) && a.WorkerPolls? && Traced(s, x, given, returned, held, f)
    requires !a.quiet && s.conns[a.id].down[0].DownRequest?
    ensures Do(s, a).Some? && Traced(Do(s, a).value, x, given, returned, HeldAfter(s, a, x, held), f)
  {
    var c := s.conns[a.id];
    RequestPollIs(s, a);
    if x == a.id {
      HoldsRequest(s, a, held);
      assert WiringOk(x, c) && TokensOk(s.broker, x, c);
      TakenIsTraced(s.broker, x, c, Taking(c), given, returned, held, f);
    }
  }

  // The connection once its worker has taken the request that comes first.
  function Taking(c: Conn): Conn
    requires c.end.Some? && c.down != [] && c.down[0].DownRequest? && c.down[0].payload != []
  {
    Conn(Some(c.end.value.(liveness := HEARTBEAT_LIVENESS, replyTo := c.down[0].payload[0])), c.up, c.down[1..])
  }

  lemma RequestPollIs(s: Sys, a: Action)
    requires Good(s) && CanDo(s, a) && a.WorkerPolls? && !a.quiet && s.conns[a.id].down[0].DownRequest?
    ensures GoodEnvelope(s.conns[a.id].down[0].payload)
    ensures Do(s, a) == Some(s.(conns := s.conns[a.id := Taking(s.conns[a.id])]))
  {
    RequestTaken(s, a);
    PollsAre(s, a);
    var c := s.conns[a.id];
    GotIs(s, a.id, Polled(s, a), Taking(c).end.value, c.down[0].payload[2..]);
  }

  lemma GotIs(s: Sys, id: Id, c: Conn, w: Wrk, request: Message)
    ensures AfterTurn(s.(conns := s.conns[id := c]), id, Got(w, request))
            == Some(s.(conns := s.conns[id := c.(end := Some(w))]))
  {
    assert s.conns[id := c][id := c.(end := Some(w))] == s.conns[id := c.(end := Some(w))];
  }

  lemma HoldsRequest(s: Sys, a: Action, held: Message)
    requires Good(s) && CanDo(s, a) && a.WorkerPolls? && !a.quiet && s.conns[a.id].down[0].DownRequest?
    ensures |s.conns[a.id].down[0].payload| >= 2
    ensures HeldAfter(s, a, a.id, held) == s.conns[a.id].down[0].payload[2..]
  {
    RequestTaken(s, a);
  }

  lemma RequestTaken(s: Sys, a: Action)
    requires Good(s) && CanDo(s, a) && a.WorkerPolls? && !a.quiet && s.conns[a.id].down[0].DownRequest?
    ensures var c := s.conns[a.id];
            var payload := c.down[0].payload;
            && GoodEnvelope(payload)
            && TurnOf(s, a) == Got(c.end.value.(liveness := HEARTBEAT_LIVENESS, replyTo := payload[0]), payload[2..])
  {
    var c := s.conns[a.id];
    var payload := c.down[0].payload;
    assert WiringOk(a.id, c) && DownOk(c.down[0]);
    DownTravels(c.down[0]);
    CStrIsIdentityExactlyOnNulFree(payload[0]);
    var parts := [[], MDPW_WORKER, REQUEST] + payload;
    assert Transfer(DownFrames(c.down[0])) == parts;
    assert parts[3..] == payload;
  }

  lemma TakenIsTraced(b: State, x: Id, c: Conn, c1: Conn, given: seq<Out>, returned: seq<Out>, held: Message, f: Message -> Message)
    requires c.end.Some? && c.end.value.replyTo == [] && Tokens(c) <= 1
    requires c.down != [] && c.down[0].DownRequest? && GoodEnvelope(c.down[0].payload)
    requires c1 == Taking(c)
    requires TracedConn(b, x, c, given, returned, held, f)
    ensures TracedConn(b, x, c1, given, returned, c.down[0].payload[2..], f)
  {
    TokenCounts(c);
    TokenCounts(c1);
    assert c.down[0] in c.down;
  }

  // The worker's caller answers what it holds.
  lemma WorkerRepliesTraced(s: Sys, a: Action, x: Id, given: seq<Out>, returned: seq<Out>, held: Message, f: Message -> Message)
    requires Good(s) && CanDo(s, a) && a.WorkerReplies? && Traced(s, x, given, returned, held, f)
    requires a.id == x ==> a.body == f(held)
    ensures Do(s, a).Some? && Traced(Do(s, a).value, x, given, returned, held, f)
  {
    RepliesAre(s, a);
    var c := s.conns[a.id];
    if x == a.id {
      var w := c.end.value;
      assert TokensOk(s.broker, x, c);
      RepliedIsTraced(s.broker, x, c, w.(expectReply := true, replyTo := []), UpReply([w.replyTo, []] + a.body),
        given, returned, held, f);
    }
  }

  lemma RepliedIsTraced(b: State, x: Id, c: Conn, w: Wrk, u: Up, given: seq<Out>, returned: seq<Out>, held: Message, f: Message -> Message)
    requires c.end.Some? && c.end.value.replyTo != [] && Tokens(c) <= 1
    requires w.replyTo == [] && u.UpReply? && u.payload == [c.end.value.replyTo, []] + f(held)
    requires TracedConn(b, x, c, given, returned, held, f)
    ensures TracedConn(b, x, c.(end := Some(w), up := c.up + [u]), given, returned, held, f)
  {
    var c1 := c.(end := Some(w), up := c.up + [u]);
    CountRepliesConcat(c.up, [u]);
    assert CountReplies([u]) == 1;
    TokenCounts(c);
    assert Working(c) == 1 && Working(c1) == 0;
  }

  lemma EndingTraced(s: Sys, a: Action, x: Id, given: seq<Out>, returned: seq<Out>, held: Message, f: Message -> Message)
    requires Good(s) && CanDo(s, a) && (a.WorkerDies? || a.Lose?) && Traced(s, x, given, returned, held, f)
    ensures Do(s, a).Some? && Traced(Do(s, a).value, x, given, returned, held, f)
  {
    if x == a.id {
      var c := s.conns[x];
      var kept := if a.Lose? then a.kept else |c.up|;
      assert c.up == c.up[..kept] + c.up[kept..];
      CountRepliesConcat(c.up[..kept], c.up[kept..]);
      assert c.up[..|c.up|] == c.up;
      assert TokensOk(s.broker, x, c);
      NoMoreKeepsTraced(s.broker, x, c, Conn(None, c.up[..kept], []), given, returned, held, f);
    }
  }

  lemma NewWorkerTraced(s: Sys, a: Action, x: Id, given: seq<Out>, returned: seq<Out>, held: Message, f: Message -> Message)
    requires Good(s) && CanDo(s, a) && a.NewWorker? && Traced(s, x, given, returned, held, f)
    ensures Do(s, a).Some? && Traced(Do(s, a).value, x, given, returned, held, f)
  {
    if x == a.id {
      NoReplies([UpReady(a.service)]);
      OpenedIsTraced(s.broker, x, Do(s, a).value.conns[x], held, f);
    }
  }

  // -------------------------------------------------------------------------------------
  // The broker

  // A registered worker keeps its service for as long as it is registered.
  ghost predicate SameServices(b: State, b1: State) {
    forall x :: x in b.workers && x in b1.workers ==> b1.workers[x].service == b.workers[x].service
  }

  lemma DispatchKeepsServices(b: State, n: Name, msg: Option<Message>, clock: int)
    requires n in b.services
    ensures SameServices(b, Dispatch(b, n, msg, clock).0)
  {
    DispatchLoopFrame(Purge(Enqueue(b, n, msg), clock), n);
  }

  lemma WorkerWaitingKeepsServices(b: State, id: Id, now: int, clock: int)
    ensures var f := WorkerWaiting(b, id, now, clock); f.Done? ==> SameServices(b, f.state)
  {
    if WorkerWaiting(b, id, now, clock).Done? {
      DispatchKeepsServices(Idle(b, id, now), b.workers[id].service.value, None, clock);
    }
  }

  lemma WorkerProcessKeepsServices(b: State, sender: Id, parts: Message, now: int, clock: int)
    ensures var f := WorkerProcess(b, sender, parts, now, clock); f.Done? ==> SameServices(b, f.state)
  {
    if parts != [] {
      var rest := parts[1..];
      if CStr(parts[0]) == READY && sender !in b.workers && !Reserved(sender) && rest != [] {
        var n := CStr(rest[0]);
        WorkerWaitingKeepsServices(Attach(ServiceRequire(WorkerRequire(b, sender), n), sender, n), sender, now, clock);
      } else if CStr(parts[0]) == REPLY {
        WorkerWaitingKeepsServices(b, sender, now, clock);
      }
    }
  }

  lemma StepKeepsServices(b: State, i: Input)
    requires Step(b, i).Done?
    ensures SameServices(b, Step(b, i).state)
  {
    if i.FromPeer? {
      WorkerProcessKeepsServices(b, CStr(i.parts[0]), i.parts[3..], i.now, i.clock);
      if CStr(i.parts[2]) == MDPC_CLIENT && |i.parts| >= 5 {
        var n := CStr(i.parts[3]);
        DispatchKeepsServices(ServiceRequire(b, n), n, Some(Wrap(i.parts[3..][1..], CStr(i.parts[0]), Some([]))), i.clock);
      }
    }
  }

  lemma OnlyRequestsAnswerNothing(outs: seq<Out>)
    requires forall o :: o in outs ==> !o.Answer?
    ensures Answers(outs) == []
  {
  }

  // What the broker passes on when a message of a worker of service n arrives.
  lemma ArrivalAnswers(b: State, id: Id, u: Up, now: int, clock: int, n: Name)
    requires Exact(b) && GoodName(id) && UpOk(u)
    requires u.UpReply? ==> id !in b.waiting && IsAttached(b, n, id)
    ensures var f := Step(b, FromPeer([id] + Transfer(EncodeUp(u)), now, clock));
            && f.Done?
            && Answers(f.outs) == if u.UpReply? then [Answer(u.payload[0], n, u.payload[2..])] else []
  {
    var i := FromPeer([id] + Transfer(EncodeUp(u)), now, clock);
    ArrivalSpeaks(id, u, now, clock);
    ArrivalConforms(b, id, u, now, clock);
    ConformingStepEffect(b, i);
    var parts: Message := i.parts[3..];
    assert parts[0] == i.parts[3] && parts[1..] == i.parts[4..];
    assert Step(b, i) == WorkerProcess(b, id, parts, now, clock);
    ProcessAnswers(b, id, parts, now, clock);
  }

  // Only a REPLY makes the broker pass something on.
  lemma ProcessAnswers(b: State, id: Id, parts: Message, now: int, clock: int)
    requires WorkerProcess(b, id, parts, now, clock).Done?
    requires CStr(parts[0]) in [READY, REPLY, HEARTBEAT]
    requires CStr(parts[0]) == REPLY ==>
               GoodEnvelope(parts[1..]) && id in b.workers && b.workers[id].service.Some?
    ensures Answers(WorkerProcess(b, id, parts, now, clock).outs)
            == if CStr(parts[0]) == REPLY then [Answer(parts[1], b.workers[id].service.value, parts[1..][2..])] else []
  {
    CommandsDiffer();
    if CStr(parts[0]) == REPLY {
      ReplyAnswers(b, id, parts[1..], now, clock);
    } else if CStr(parts[0]) == READY {
      ReadyAnswers(b, id, parts[1..], now, clock);
    }
  }

  lemma CommandsDiffer()
    ensures READY != REPLY && READY != HEARTBEAT && REPLY != HEARTBEAT
  {
    assert READY[0] != REPLY[0] && READY[0] != HEARTBEAT[0] && REPLY[0] != HEARTBEAT[0];
  }

  lemma ReadyAnswers(b: State, id: Id, rest: Message, now: int, clock: int)
    requires OnReady(b, id, rest, now, clock).Done?
    ensures Answers(OnReady(b, id, rest, now, clock).outs) == []
  {
    var outs := OnReady(b, id, rest, now, clock).outs;
    forall o | o in outs ensures !o.Answer? {
      if id !in b.workers && !Reserved(id) {
        var n := CStr(rest[0]);
        WorkerWaitingOnlySends(Attach(ServiceRequire(WorkerRequire(b, id), n), id, n), id, now, clock, o);
      }
    }
    OnlyRequestsAnswerNothing(outs);
  }

  lemma ReplyAnswers(b: State, id: Id, payload: Message, now: int, clock: int)
    requires GoodEnvelope(payload) && OnReply(b, id, payload, now, clock).Done?
    requires id in b.workers && b.workers[id].service.Some?
    ensures Answers(OnReply(b, id, payload, now, clock).outs)
            == [Answer(payload[0], b.workers[id].service.value, payload[2..])]
  {
    var f := WorkerWaiting(b, id, now, clock);
    CStrIsIdentityExactlyOnNulFree(payload[0]);
    forall o | o in f.outs ensures !o.Answer? {
      WorkerWaitingOnlySends(b, id, now, clock, o);
    }
    OnlyRequestsAnswerNothing(f.outs);
    var first := Answer(payload[0], b.workers[id].service.value, payload[2..]);
    assert ([first] + f.outs)[1..] == f.outs;
  }

  // -------------------------------------------------------------------------------------
  // Requests on their way

  lemma RoutedRequests(outs: seq<Out>, x: Id)
    ensures |RequestsTo(outs, x)| == CountRequests(DownsTo(outs, x))
    ensures forall o :: o in RequestsTo(outs, x) ==> o in outs && o.Request? && o.worker == x
    ensures RequestsTo(outs, x) != [] ==> exists o :: o in outs && o.Request? && o.worker == x
    ensures forall d :: d in DownsTo(outs, x) && d.DownRequest? ==> IsRouted(outs, x, d.payload)
  {
    RoutedCount(outs, x);
    RoutedFromOuts(outs, x);
    RoutedDowns(outs, x);
    if RequestsTo(outs, x) != [] {
      var o := RequestsTo(outs, x)[0];
      assert o in RequestsTo(outs, x);
    }
  }

  ghost predicate IsRouted(outs: seq<Out>, x: Id, payload: Message) {
    exists o :: o in RequestsTo(outs, x) && o.Request? && o.payload == payload
  }

  lemma RoutedCount(outs: seq<Out>, x: Id)
    ensures |RequestsTo(outs, x)| == CountRequests(DownsTo(outs, x))
  {
    if outs != [] {
      RoutedCount(outs[1..], x);
      DownCount(outs[0], x);
      CountRequestsConcat(DownTo(outs[0], x), DownsTo(outs[1..], x));
    }
  }

  lemma RoutedFromOuts(outs: seq<Out>, x: Id)
    ensures forall o :: o in RequestsTo(outs, x) ==> o in outs && o.Request? && o.worker == x
  {
    if outs != [] {
      RoutedFromOuts(outs[1..], x);
      assert forall o :: o in outs[1..] ==> o in outs;
    }
  }

  lemma RoutedDowns(outs: seq<Out>, x: Id)
    ensures forall d :: d in DownsTo(outs, x) && d.DownRequest? ==> IsRouted(outs, x, d.payload)
  {
    if outs != [] {
      RoutedDowns(outs[1..], x);
      forall d | d in DownsTo(outs, x) && d.DownRequest? ensures IsRouted(outs, x, d.payload) {
        if d in DownsTo(outs[1..], x) {
          var o :| o in RequestsTo(outs[1..], x) && o.Request? && o.payload == d.payload;
          assert o in RequestsTo(outs, x);
        } else {
          assert outs[0] in RequestsTo(outs, x);
        }
      }
    }
  }

  // The connection before the broker's messages are routed, with the answer just passed on
  // already counted.
  ghost predicate TracedBefore(b: State, x: Id, c: Conn, who: set<Id>, given: seq<Out>, returned: seq<Out>, held: Message, f: Message -> Message) {
    && TracedConn(b, x, c, given, returned, held, f)
    && (x in who ==> |given| == |returned|)
    && TokensBefore(b, x, c, who)
  }

  lemma RouteTraced(b: State, b1: State, outs: seq<Out>, who: set<Id>, clock: int, x: Id, c: Conn,
                    given: seq<Out>, returned: seq<Out>, held: Message, f: Message -> Message)
    requires Inv(b) && WorkEffect(b, b1, outs, who, clock) && SameServices(b, b1)
    requires forall o :: o in outs && o.Request? ==> GoodEnvelope(o.payload)
    requires TracedBefore(b, x, c, who, given, returned, held, f)
    ensures TracedConn(b1, x, Route(c, outs, x), given + RequestsTo(outs, x), returned, held, f)
  {
    RoutedRequests(outs, x);
    DownsCount(outs, x);
    if RequestsTo(outs, x) == [] {
      RouteNothing(b, b1, outs, who, clock, x, c, given, returned, held, f);
    } else {
      assert |RequestsTo(outs, x)| == 1;
      RouteRequest(b, b1, outs, who, clock, x, c, given, returned, held, f, RequestsTo(outs, x)[0]);
    }
  }

  lemma RouteNothing(b: State, b1: State, outs: seq<Out>, who: set<Id>, clock: int, x: Id, c: Conn,
                     given: seq<Out>, returned: seq<Out>, held: Message, f: Message -> Message)
    requires WorkEffect(b, b1, outs, who, clock) && SameServices(b, b1) && RequestsTo(outs, x) == []
    requires TracedBefore(b, x, c, who, given, returned, held, f)
    ensures TracedConn(b1, x, Route(c, outs, x), given + RequestsTo(outs, x), returned, held, f)
  {
    RoutedRequests(outs, x);
    CountRequestsConcat(c.down, DownsTo(outs, x));
    NoRequests(DownsTo(outs, x));
    assert given + [] == given;
  }

  lemma RouteRequest(b: State, b1: State, outs: seq<Out>, who: set<Id>, clock: int, x: Id, c: Conn,
                     given: seq<Out>, returned: seq<Out>, held: Message, f: Message -> Message, o: Out)
    requires Inv(b) && WorkEffect(b, b1, outs, who, clock) && RequestsTo(outs, x) == [o] && o.Request? && GoodEnvelope(o.payload)
    requires TracedBefore(b, x, c, who, given, returned, held, f)
    ensures TracedConn(b1, x, Route(c, outs, x), given + RequestsTo(outs, x), returned, held, f)
  {
    RoutedRequests(outs, x);
    assert o in RequestsTo(outs, x);
    assert x in b.waiting ==> IsQueued(b, x);
    assert WellChosen(b1, o, clock);
    TokenCounts(c);
    CountRequestsConcat(c.down, DownsTo(outs, x));
  }

  // -------------------------------------------------------------------------------------
  // Actions of the broker

  lemma NothingToStrangers(b1: State, outs: seq<Out>, x: Id, clock: int)
    requires x !in b1.workers && forall o :: o in outs && o.Request? ==> WellChosen(b1, o, clock)
    ensures RequestsTo(outs, x) == []
  {
    RoutedRequests(outs, x);
  }

  lemma BrokerStepTraced(s: Sys, i: Input, conns: map<Id, Conn>, clients: set<Id>, x: Id,
                         given: seq<Out>, returned: seq<Out>, held: Message, f: Message -> Message)
    requires Exact(s.broker) && QueuesOk(s.broker) && Conforming(s.broker, i)
    requires forall n, m :: m in Accepted(i, n) ==> GoodEnvelope(m)
    requires s.broker.workers.Keys + Speaker(i) <= conns.Keys
    requires if x in conns then TracedBefore(s.broker, x, conns[x], Speaker(i), given, returned, held, f)
             else given == [] && returned == []
    ensures BrokerStep(s, i, conns, clients).Some? && Step(s.broker, i).Done?
    ensures Traced(BrokerStep(s, i, conns, clients).value, x, given + RequestsTo(Step(s.broker, i).outs, x), returned, held, f)
  {
    ConformingStepEffect(s.broker, i);
    StepKeepsQueuesOk(s.broker, i);
    StepKeepsServices(s.broker, i);
    var b1, outs := Step(s.broker, i).state, Step(s.broker, i).outs;
    if x in conns {
      RouteTraced(s.broker, b1, outs, Speaker(i), i.clock, x, conns[x], given, returned, held, f);
    } else {
      NothingToStrangers(b1, outs, x, i.clock);
    }
  }

  lemma TracedAsBefore(s: Sys, x: Id, given: seq<Out>, returned: seq<Out>, held: Message, f: Message -> Message)
    requires Good(s) && Traced(s, x, given, returned, held, f) && x in s.conns
    ensures TracedBefore(s.broker, x, s.conns[x], {}, given, returned, held, f)
  {
    assert TokensOk(s.broker, x, s.conns[x]);
  }

  lemma AsksTraced(s: Sys, a: Action, x: Id, given: seq<Out>, returned: seq<Out>, held: Message, f: Message -> Message)
    requires Good(s) && CanDo(s, a) && a.ClientAsks? && Traced(s, x, given, returned, held, f)
    ensures Do(s, a).Some? && Traced(Do(s, a).value, x, given + RequestsTo(OutsOf(s, a), x), returned, held, f)
  {
    if x in s.conns {
      TracedAsBefore(s, x, given, returned, held, f);
    }
    AskConforms(s, a);
    BrokerStepTraced(s, InputOf(s, a), s.conns, s.clients + {a.client}, x, given, returned, held, f);
  }

  lemma BeatsTraced(s: Sys, a: Action, x: Id, given: seq<Out>, returned: seq<Out>, held: Message, f: Message -> Message)
    requires Good(s) && CanDo(s, a) && a.BrokerBeats? && Traced(s, x, given, returned, held, f)
    ensures Do(s, a).Some? && Traced(Do(s, a).value, x, given + RequestsTo(OutsOf(s, a), x), returned, held, f)
  {
    if x in s.conns {
      TracedAsBefore(s, x, given, returned, held, f);
    }
    BrokerStepTraced(s, InputOf(s, a), s.conns, s.clients, x, given, returned, held, f);
  }

  // The sender's connection once its message is off it and its reply, if it was one, passed on.
  lemma PoppedTraced(b: State, x: Id, c: Conn, n: Name, given: seq<Out>, returned: seq<Out>, held: Message, f: Message -> Message)
    requires WiringOk(x, c) && TokensOk(b, x, c) && c.up != [] && TracedConn(b, x, c, given, returned, held, f)
    requires c.up[0].UpReply? ==> IsAttached(b, n, x)
    ensures var u := c.up[0];
            TracedBefore(b, x, c.(up := c.up[1..]), if u.UpHeartbeat? then {} else {x},
              given, returned + (if u.UpReply? then [Answer(u.payload[0], n, u.payload[2..])] else []), held, f)
  {
    var c1 := c.(up := c.up[1..]);
    PoppedUp(b, x, c);
    assert c.up[0] in c.up && UpOk(c.up[0]);
    assert returned + [] == returned;
  }

  // The service a worker is registered for, if it is.
  ghost function ServiceOf(b: State, x: Id): Name {
    if x in b.workers && b.workers[x].service.Some? then b.workers[x].service.value else []
  }

  lemma ReplierIsAttached(s: Sys, a: Action)
    requires Good(s) && CanDo(s, a) && a.BrokerReceives? && s.conns[a.id].up[0].UpReply?
    ensures a.id !in s.broker.waiting && IsAttached(s.broker, ServiceOf(s.broker, a.id), a.id)
  {
    assert WiringOk(a.id, s.conns[a.id]) && TokensOk(s.broker, a.id, s.conns[a.id]);
    PoppedUp(s.broker, a.id, s.conns[a.id]);
  }

  lemma Arrived(s: Sys, a: Action)
    requires Good(s) && CanDo(s, a) && a.BrokerReceives?
    ensures && Conforming(s.broker, InputOf(s, a))
            && Speaker(InputOf(s, a)) == (if s.conns[a.id].up[0].UpHeartbeat? then {} else {a.id})
            && (forall n :: Accepted(InputOf(s, a), n) == [])
  {
    var u := s.conns[a.id].up[0];
    assert WiringOk(a.id, s.conns[a.id]) && UpOk(u);
    if u.UpReply? {
      ReplierIsAttached(s, a);
    }
    ArrivalConforms(s.broker, a.id, u, a.now, a.clock);
  }

  lemma ArrivedReturns(s: Sys, a: Action)
    requires Good(s) && CanDo(s, a) && a.BrokerReceives?
    ensures var u := s.conns[a.id].up[0];
            && (u.UpReply? ==> |u.payload| >= 2)
            && ReturnedBy(s, a, a.id)
               == if u.UpReply? then [Answer(u.payload[0], ServiceOf(s.broker, a.id), u.payload[2..])] else []
  {
    var u := s.conns[a.id].up[0];
    assert WiringOk(a.id, s.conns[a.id]) && UpOk(u);
    if u.UpReply? {
      ReplierIsAttached(s, a);
    }
    ArrivalAnswers(s.broker, a.id, u, a.now, a.clock, ServiceOf(s.broker, a.id));
  }

  lemma SenderTracedBefore(s: Sys, a: Action, given: seq<Out>, returned: seq<Out>, held: Message, f: Message -> Message)
    requires Good(s) && CanDo(s, a) && a.BrokerReceives? && Traced(s, a.id, given, returned, held, f)
    ensures var c := s.conns[a.id];
            TracedBefore(s.broker, a.id, c.(up := c.up[1..]), Speaker(InputOf(s, a)),
              given, returned + ReturnedBy(s, a, a.id), held, f)
  {
    Arrived(s, a);
    ArrivedReturns(s, a);
    var c := s.conns[a.id];
    assert WiringOk(a.id, c) && TokensOk(s.broker, a.id, c);
    if c.up[0].UpReply? {
      ReplierIsAttached(s, a);
    }
    PoppedTraced(s.broker, a.id, c, ServiceOf(s.broker, a.id), given, returned, held, f);
  }

  lemma ArrivalTracedBefore(s: Sys, a: Action, x: Id, given: seq<Out>, returned: seq<Out>, held: Message, f: Message -> Message)
    requires Good(s) && CanDo(s, a) && a.BrokerReceives? && Traced(s, x, given, returned, held, f) && x in s.conns
    ensures var c := s.conns[a.id];
            TracedBefore(s.broker, x, s.conns[a.id := c.(up := c.up[1..])][x], Speaker(InputOf(s, a)),
              given, returned + ReturnedBy(s, a, x), held, f)
  {
    if x == a.id {
      SenderTracedBefore(s, a, given, returned, held, f);
    } else {
      Arrived(s, a);
      assert TokensOk(s.broker, x, s.conns[x]);
      assert returned + [] == returned;
    }
  }

  lemma BrokerReceivesTraced(s: Sys, a: Action, x: Id, given: seq<Out>, returned: seq<Out>, held: Message, f: Message -> Message)
    requires Good(s) && CanDo(s, a) && a.BrokerReceives? && Traced(s, x, given, returned, held, f)
    ensures Do(s, a).Some?
    ensures Traced(Do(s, a).value, x, given + RequestsTo(OutsOf(s, a), x), returned + ReturnedBy(s, a, x), held, f)
  {
    var c := s.conns[a.id];
    Arrived(s, a);
    if x in s.conns {
      ArrivalTracedBefore(s, a, x, given, returned, held, f);
    }
    BrokerStepTraced(s, InputOf(s, a), s.conns[a.id := c.(up := c.up[1..])], s.clients, x,
      given, returned + ReturnedBy(s, a, x), held, f);
  }

  // -------------------------------------------------------------------------------------
  // Runs

  lemma ActionTraced(s: Sys, a: Action, x: Id, given: seq<Out>, returned: seq<Out>, held: Message, f: Message -> Message)
    requires Good(s) && CanDo(s, a) && Traced(s, x, given, returned, held, f)
    requires a.WorkerReplies? && a.id == x ==> a.body == f(held)
    ensures Do(s, a).Some?
    ensures Traced(Do(s, a).value, x, given + RequestsTo(OutsOf(s, a), x), returned + ReturnedBy(s, a, x), HeldAfter(s, a, x, held), f)
  {
    if a.BrokerReceives? {
      BrokerReceivesTraced(s, a, x, given, returned, held, f);
    } else {
      assert returned + [] == returned;
      if a.ClientAsks? {
        AsksTraced(s, a, x, given, returned, held, f);
      } else if a.BrokerBeats? {
        BeatsTraced(s, a, x, given, returned, held, f);
      } else {
        assert given + [] == given;
        PeerTraced(s, a, x, given, returned, held, f);
      }
    }
  }

  lemma PeerTraced(s: Sys, a: Action, x: Id, given: seq<Out>, returned: seq<Out>, held: Message, f: Message -> Message)
    requires Good(s) && CanDo(s, a) && !IsBrokerAction(a) && Traced(s, x, given, returned, held, f)
    requires a.WorkerReplies? && a.id == x ==> a.body == f(held)
    ensures Do(s, a).Some? && Traced(Do(s, a).value, x, given, returned, HeldAfter(s, a, x, held), f)
  {
    match a
    case NewWorker(_, _, _, _) => NewWorkerTraced(s, a, x, given, returned, held, f);
    case WorkerPolls(_, _, _, _, _) => WorkerPollsTraced(s, a, x, given, returned, held, f);
    case WorkerReplies(_, _) => WorkerRepliesTraced(s, a, x, given, returned, held, f);
    case WorkerDies(_) => EndingTraced(s, a, x, given, returned, held, f);
    case Lose(_, _) => EndingTraced(s, a, x, given, returned, held, f);
  }

  lemma WorkerPollsTraced(s: Sys, a: Action, x: Id, given: seq<Out>, returned: seq<Out>, held: Message, f: Message -> Message)
    requires Good(s) && CanDo(s, a) && a.WorkerPolls? && Traced(s, x, given, returned, held, f)
    ensures Do(s, a).Some? && Traced(Do(s, a).value, x, given, returned, HeldAfter(s, a, x, held), f)
  {
    if a.quiet || !s.conns[a.id].down[0].DownRequest? {
      PlainPoll(s, a);
      PlainPollTraced(s, a, x, given, returned, held, f);
    } else {
      RequestPollTraced(s, a, x, given, returned, held, f);
    }
  }

  // The requests given to connection x in the first k actions of a run, the answers passed on
  // from it, and the request its worker's caller was last handed.
  ghost function Given(states: seq<Sys>, actions: seq<Action>, k: nat, x: Id): seq<Out>
    requires IsRun(states, actions) && k <= |actions|
  {
    if k == 0 then [] else Given(states, actions, k - 1, x) + RequestsTo(OutsOf(states[k - 1], actions[k - 1]), x)
  }

  ghost function Returned(states: seq<Sys>, actions: seq<Action>, k: nat, x: Id): seq<Out>
    requires IsRun(states, actions) && k <= |actions|
  {
    if k == 0 then [] else Returned(states, actions, k - 1, x) + ReturnedBy(states[k - 1], actions[k - 1], x)
  }

  ghost function Held(states: seq<Sys>, actions: seq<Action>, k: nat, x: Id): Message
    requires IsRun(states, actions) && k <= |actions|
  {
    if k == 0 then [] else HeldAfter(states[k - 1], actions[k - 1], x, Held(states, actions, k - 1, x))
  }

  // Every worker's caller answers the request it was handed with f.
  ghost predicate AllAnswerWith(states: seq<Sys>, actions: seq<Action>, f: Message -> Message)
    requires IsRun(states, actions)
  {
    forall k :: 0 <= k < |actions| && actions[k].WorkerReplies? ==>
      actions[k].body == f(Held(states, actions, k, actions[k].id))
  }

  lemma RunActionTraced(states: seq<Sys>, actions: seq<Action>, k: nat, x: Id,
                        given: seq<Out>, returned: seq<Out>, held: Message, f: Message -> Message)
    requires IsRun(states, actions) && k < |actions| && Traced(states[k], x, given, returned, held, f)
    requires actions[k].WorkerReplies? && actions[k].id == x ==> actions[k].body == f(held)
    ensures var s, a := states[k], actions[k];
            Traced(states[k + 1], x, given + RequestsTo(OutsOf(s, a), x), returned + ReturnedBy(s, a, x), HeldAfter(s, a, x, held), f)
  {
    RunsAreGood(states, actions, k);
    ActionTraced(states[k], actions[k], x, given, returned, held, f);
  }

  lemma {:induction false} RunsAreTraced(states: seq<Sys>, actions: seq<Action>, f: Message -> Message, k: nat, x: Id)
    requires IsRun(states, actions) && AllAnswerWith(states, actions, f) && k <= |actions|
    ensures Traced(states[k], x, Given(states, actions, k, x), Returned(states, actions, k, x), Held(states, actions, k, x), f)
  {
    if k > 0 {
      RunsAreTraced(states, actions, f, k - 1, x);
      RunActionTraced(states, actions, k - 1, x, Given(states, actions, k - 1, x), Returned(states, actions, k - 1, x),
        Held(states, actions, k - 1, x), f);
    }
  }

  // -------------------------------------------------------------------------------------
  // Where requests come from

  ghost predicate IsAsked(actions: seq<Action>, k: nat, q: Question)
    requires k <= |actions|
  {
    exists j :: 0 <= j < k && actions[j].ClientAsks?
                && Question(actions[j].client, actions[j].service, actions[j].body) == q
  }

  ghost predicate QueuesAsked(b: State, actions: seq<Action>, k: nat)
    requires k <= |actions|
  {
    forall n, m :: m in Requests(b, n) ==> Fits(actions, k, n, m)
  }

  // What an action asks of a service, in the envelope of its client.
  function AskedBy(a: Action, n: Name): seq<Message> {
    if a.ClientAsks? && a.service == n && !Reserved(n) then [[a.client, []] + a.body] else []
  }

  // What an action adds to the queue of a service is what its client asks.
  lemma AcceptedIsAsked(s: Sys, a: Action, n: Name)
    requires Good(s) && CanDo(s, a) && IsBrokerAction(a)
    ensures Accepted(InputOf(s, a), n) == AskedBy(a, n)
  {
    if a.BrokerReceives? {
      var c := s.conns[a.id];
      assert WiringOk(a.id, c) && TokensOk(s.broker, a.id, c) && UpOk(c.up[0]);
      ArrivalConforms(s.broker, a.id, c.up[0], a.now, a.clock);
    } else if a.ClientAsks? {
      AskAccepted(a.client, a.service, a.body, a.clock, n);
    }
  }

  // What a step keeps or sends on was queued before or came with its input.
  lemma KeptComesFrom(b: State, i: Input, n: Name, m: Message)
    requires Handle(b, i).Done? && m in Requests(Handle(b, i).state, n)
    ensures m in Requests(b, n) || m in Accepted(i, n)
  {
    HandleConserves(b, i, n);
    assert m in Requests(b, n) + Accepted(i, n);
  }

  lemma SentComesFrom(b: State, i: Input, o: Out)
    requires Handle(b, i).Done? && o in Handle(b, i).outs && o.Request?
    ensures o.payload in Requests(b, o.service) || o.payload in Accepted(i, o.service)
  {
    HandleConserves(b, i, o.service);
    RequestIsDispatched(Handle(b, i).outs, o);
    assert o.payload in Requests(b, o.service) + Accepted(i, o.service);
  }

  ghost predicate Fits(actions: seq<Action>, k: nat, n: Name, m: Message)
    requires k <= |actions|
  {
    |m| >= 2 && IsAsked(actions, k, QuestionOf(n, m))
  }

  lemma SourceFits(s: Sys, a: Action, actions: seq<Action>, k: nat, n: Name, m: Message)
    requires k < |actions| && actions[k] == a && Good(s) && CanDo(s, a) && IsBrokerAction(a)
    requires m in Requests(s.broker, n) ==> Fits(actions, k, n, m)
    requires m in Requests(s.broker, n) || m in Accepted(InputOf(s, a), n)
    ensures Fits(actions, k + 1, n, m)
  {
    if m in Requests(s.broker, n) {
      assert IsAsked(actions, k, QuestionOf(n, m));
    } else {
      AcceptedIsAsked(s, a, n);
      assert m[2..] == a.body;
      assert actions[k].ClientAsks?;
    }
  }

  lemma KeptFits(s: Sys, a: Action, actions: seq<Action>, k: nat, n: Name, m: Message)
    requires k < |actions| && actions[k] == a && Good(s) && CanDo(s, a) && IsBrokerAction(a)
    requires QueuesAsked(s.broker, actions, k)
    requires Do(s, a).Some? && m in Requests(Do(s, a).value.broker, n)
    ensures Fits(actions, k + 1, n, m)
  {
    KeptComesFrom(s.broker, InputOf(s, a), n, m);
    SourceFits(s, a, actions, k, n, m);
  }

  lemma SentFits(s: Sys, a: Action, actions: seq<Action>, k: nat, o: Out)
    requires k < |actions| && actions[k] == a && Good(s) && CanDo(s, a)
    requires QueuesAsked(s.broker, actions, k)
    requires o in OutsOf(s, a) && o.Request?
    ensures Fits(actions, k + 1, o.service, o.payload)
  {
    SentComesFrom(s.broker, InputOf(s, a), o);
    SourceFits(s, a, actions, k, o.service, o.payload);
  }

  lemma {:induction false} RunsAreAsked(states: seq<Sys>, actions: seq<Action>, k: nat, x: Id)
    requires IsRun(states, actions) && k <= |actions|
    ensures QueuesAsked(states[k].broker, actions, k)
    ensures forall o :: o in Given(states, actions, k, x) ==>
              o.Request? && Fits(actions, k, o.service, o.payload)
  {
    if k > 0 {
      RunsAreAsked(states, actions, k - 1, x);
      RunsAreGood(states, actions, k - 1);
      ActionAsked(states[k - 1], actions[k - 1], actions, k - 1);
      RoutedRequests(OutsOf(states[k - 1], actions[k - 1]), x);
      forall o | o in Given(states, actions, k - 1, x)
        ensures Fits(actions, k, o.service, o.payload)
      {
        assert IsAsked(actions, k - 1, QuestionOf(o.service, o.payload));
      }
    }
  }

  lemma ActionAsked(s: Sys, a: Action, actions: seq<Action>, k: nat)
    requires k < |actions| && actions[k] == a && Good(s) && CanDo(s, a) && QueuesAsked(s.broker, actions, k)
    ensures Do(s, a).Some? && QueuesAsked(Do(s, a).value.broker, actions, k + 1)
    ensures forall o :: o in OutsOf(s, a) && o.Request? ==> Fits(actions, k + 1, o.service, o.payload)
  {
    ActionKeepsGood(s, a);
    var b1 := Do(s, a).value.broker;
    forall n, m | m in Requests(b1, n) ensures Fits(actions, k + 1, n, m) {
      if IsBrokerAction(a) {
        KeptFits(s, a, actions, k, n, m);
      } else {
        WorkersLeaveBrokerAlone(s, a);
        assert IsAsked(actions, k, QuestionOf(n, m));
      }
    }
    forall o | o in OutsOf(s, a) && o.Request? ensures Fits(actions, k + 1, o.service, o.payload) {
      SentFits(s, a, actions, k, o);
    }
  }

  // In every run in which the workers answer with f: the answers passed on from a connection
  // are, in order and each to the client that asked, the answers to the requests it was given;
  // all of these were asked for that service by that client; and at most the last one given is
  // without an answer.
  lemma AnswersFitQuestions(states: seq<Sys>, actions: seq<Action>, f: Message -> Message, x: Id)
    requires IsRun(states, actions) && AllAnswerWith(states, actions, f)
    ensures var given, returned := Given(states, actions, |actions|, x), Returned(states, actions, |actions|, x);
            && |returned| <= |given| <= |returned| + 1
            && (forall o :: o in given ==> o.Request? && Fits(actions, |actions|, o.service, o.payload))
            && (forall j :: 0 <= j < |returned| ==> returned[j] == ReplyTo(given[j], f))
  {
    RunsAreTraced(states, actions, f, |actions|, x);
    RunsAreAsked(states, actions, |actions|, x);
  }

  // -------------------------------------------------------------------------------------
  // The broker inside the system

  ghost function InputsOf(states: seq<Sys>, actions: seq<Action>, k: nat): seq<Input>
    requires IsRun(states, actions) && k <= |actions|
  {
    if k == 0 then []
    else InputsOf(states, actions, k - 1)
         + (if IsBrokerAction(actions[k - 1]) then [InputOf(states[k - 1], actions[k - 1])] else [])
  }

  ghost function AllOuts(states: seq<Sys>, actions: seq<Action>, k: nat): seq<Out>
    requires IsRun(states, actions) && k <= |actions|
  {
    if k == 0 then [] else AllOuts(states, actions, k - 1) + OutsOf(states[k - 1], actions[k - 1])
  }

  lemma BrokerActionSteps(s: Sys, a: Action)
    requires Good(s) && CanDo(s, a) && IsBrokerAction(a)
    ensures Do(s, a).Some?
    ensures Step(s.broker, InputOf(s, a)) == Done(Do(s, a).value.broker, OutsOf(s, a))
  {
    ActionKeepsGood(s, a);
  }

  // In every run of the system the broker makes a run of its own that never crashes, and so
  // has all that holds of such runs: requests kept, in order, exact counts, exact expiry.
  lemma {:induction false} BrokerRunsInside(states: seq<Sys>, actions: seq<Action>, k: nat)
    requires IsRun(states, actions) && k <= |actions|
    ensures Run(EMPTY, InputsOf(states, actions, k)) == Done(states[k].broker, AllOuts(states, actions, k))
  {
    if k > 0 {
      BrokerRunsInside(states, actions, k - 1);
      RunsAreGood(states, actions, k - 1);
      var s, a := states[k - 1], actions[k - 1];
      if IsBrokerAction(a) {
        BrokerActionSteps(s, a);
        RunOne(s.broker, InputOf(s, a));
        RunAppend(EMPTY, InputsOf(states, actions, k - 1), [InputOf(s, a)]);
      } else {
        ActionKeepsGood(s, a);
        WorkersLeaveBrokerAlone(s, a);
        assert InputsOf(states, actions, k - 1) + [] == InputsOf(states, actions, k - 1);
        assert AllOuts(states, actions, k - 1) + [] == AllOuts(states, actions, k - 1);
      }
    }
  }

  // What the clients have asked of a service in the first k actions, in order.
  function AskedOf(actions: seq<Action>, k: nat, n: Name): seq<Message>
    requires k <= |actions|
  {
    if k == 0 then [] else AskedOf(actions, k - 1, n) + AskedBy(actions[k - 1], n)
  }

  lemma AllAcceptedLast(inputs: seq<Input>, i: Input, n: Name)
    ensures AllAccepted(inputs + [i], n) == AllAccepted(inputs, n) + Accepted(i, n)
  {
    if inputs == [] {
      assert [] + [i] == [i] && [i][1..] == [];
    } else {
      assert (inputs + [i])[1..] == inputs[1..] + [i];
      AllAcceptedLast(inputs[1..], i, n);
    }
  }

  lemma {:induction false} AskedIsAccepted(states: seq<Sys>, actions: seq<Action>, k: nat, n: Name)
    requires IsRun(states, actions) && k <= |actions|
    ensures AllAccepted(InputsOf(states, actions, k), n) == AskedOf(actions, k, n)
  {
    if k > 0 {
      AskedIsAccepted(states, actions, k - 1, n);
      RunsAreGood(states, actions, k - 1);
      var s, a := states[k - 1], actions[k - 1];
      var inputs := InputsOf(states, actions, k - 1);
      if IsBrokerAction(a) {
        AcceptedIsAsked(s, a, n);
        AllAcceptedLast(inputs, InputOf(s, a), n);
      } else {
        assert inputs + [] == inputs;
      }
    }
  }

  // Conservation in the system: what clients have asked of a service, in order, is what was
  // sent to its workers followed by what still waits.
  lemma SystemConserves(states: seq<Sys>, actions: seq<Action>, n: Name)
    requires IsRun(states, actions)
    ensures AskedOf(actions, |actions|, n)
            == Dispatched(AllOuts(states, actions, |actions|), n) + Requests(states[|actions|].broker, n)
  {
    AskedIsAccepted(states, actions, |actions|, n);
    BrokerRunsInside(states, actions, |actions|);
    RunFromStart(InputsOf(states, actions, |actions|));
  }
}
