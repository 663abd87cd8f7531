// mdcliapi.hpp: the client API, a REQ socket with timeouts, resends and reconnects.

module Mdcli {
  import opened Bytes
  import opened Frames
  import opened Mdp
  import opened Zmsg

  // What send prefixes to the caller's request.
  function RequestParts(service: Frame, body: Message): Message {
    PushFront(PushFront(body, service), MDPC_CLIENT)
  }

  // What send makes of the parts of an answer; None when one of its asserts fails.
  function Accept(service: Frame, parts: Message): Option<Message> {
    if |parts| < 3 || parts[0] != MDPC_CLIENT || parts[1] != CStr(service) then None else Some(parts[2..])
  }

  lemma RequestIsSendable(service: Frame, body: Message)
    requires Sendable(body)
    ensures Sendable(RequestParts(service, body))
    ensures RequestParts(service, body) == [CStr(MDPC_CLIENT), CStr(service)] + body
  {
    var head: Message := [CStr(MDPC_CLIENT), CStr(service)];
    assert RequestParts(service, body) == head + body;
    SendableAfterStrings(head, body);
  }

  // One message handed to a socket, and whether that socket still waited for an answer then
  // and refused it.
  datatype Transmission = Transmission(frames: Message, awaiting: bool)

  // How a call ends: with an answer, without one, or in a failed assert.
  datatype Result = Answered(reply: Message) | NoAnswer | Failed

  // The first of n polls that brings something.
  ghost function FirstAnswer(polls: nat -> Option<Message>, n: nat): Option<nat> {
    if n == 0 then None
    else
      var before := FirstAnswer(polls, n - 1);
      if before.Some? then before
      else if polls(n - 1).Some? then Some(n - 1)
      else None
  }

  lemma {:induction false} FirstAnswerIsFirst(polls: nat -> Option<Message>, n: nat)
    ensures match FirstAnswer(polls, n)
            case None => forall i: nat :: i < n ==> polls(i).None?
            case Some(k) => k < n && polls(k).Some? && forall i: nat :: i < k ==> polls(i).None?
  {
    if n > 0 {
      FirstAnswerIsFirst(polls, n - 1);
    }
  }

  lemma {:induction false} FirstAnswerFound(polls: nat -> Option<Message>, k: nat, n: nat)
    requires k < n && polls(k).Some? && forall i: nat :: i < k ==> polls(i).None?
    ensures FirstAnswer(polls, n) == Some(k)
  {
    FirstAnswerIsFirst(polls, n);
  }

  function Verdict(service: Frame, parts: Message): Result {
    match Accept(service, parts)
    case Some(reply) => Answered(reply)
    case None => Failed
  }

  // The frames of an answer for this service, as the REQ socket delivers them.
  predicate IsAnswer(service: Frame, reply: Message, parts: Message) {
    reply != [] && parts == [[77, 68, 80, 67, 48, 49], CStr(service)] + reply
  }

  ghost predicate IsNoAnswer(service: Frame, parts: Message) {
    forall reply :: !IsAnswer(service, reply, parts)
  }

  // The verdict is the reply of such an answer; anything else fails an assert.
  lemma VerdictExactly(service: Frame, parts: Message, reply: Message)
    ensures Verdict(service, parts) == Answered(reply) <==> IsAnswer(service, reply, parts)
    ensures Verdict(service, parts).Failed? || IsAnswer(service, Verdict(service, parts).reply, parts)
  {
    if |parts| >= 2 {
      assert parts == parts[..2] + parts[2..];
      assert parts[0] == MDPC_CLIENT && parts[1] == CStr(service) ==> parts[..2] == [MDPC_CLIENT, CStr(service)];
    }
    var whole := [MDPC_CLIENT, CStr(service)] + reply;
    assert whole[2..] == reply;
  }

  lemma FailedExactly(service: Frame, parts: Message)
    ensures Verdict(service, parts).Answered? ==> IsAnswer(service, Verdict(service, parts).reply, parts)
    ensures Verdict(service, parts).Failed? ==> IsNoAnswer(service, parts)
    ensures Verdict(service, parts) != NoAnswer
  {
    VerdictExactly(service, parts, []);
    forall reply ensures IsAnswer(service, reply, parts) ==> Verdict(service, parts) == Answered(reply) {
      VerdictExactly(service, parts, reply);
    }
  }

  predicate IsCut(cut: Option<nat>, looked: nat) {
    cut.Some? && looked >= cut.value
  }

  // What the socket owes after n transmissions of a call that found sent0 and owed0: the
  // answer to the last, except that the first is refused if one was owed before.
  ghost function Owed(sent0: seq<Transmission>, owed0: Option<nat>, n: nat): Option<nat>
    requires n > 0
  {
    if n == 1 && owed0.Some? then owed0 else Some(|sent0| + n - 1)
  }

  class Mdcli {
    var retries: int

    // The transmission the current socket owes an answer to: its place in sent.
    var owed: Option<nat>
    var sent: seq<Transmission>

    constructor ()
      ensures retries == 3 && owed == None && sent == []
    {
      retries, owed, sent := 3, None, [];
    }

    method SetRetries(retries: int)
      modifies this`retries
      ensures this.retries == retries
    {
      this.retries := retries;
    }

    // A new REQ socket in place of the old one.
    method ConnectToBroker()
      modifies this`owed
      ensures owed == None
    {
      owed := None;
    }

    // A REQ socket refuses a request while it owes an answer, and zmsg::send takes no notice.
    method Transmit(request: Message)
      requires Sendable(request)
      modifies this`owed, this`sent
      ensures sent == old(sent) + [Transmission(WireOut(request), old(owed).Some?)]
      ensures owed == if old(owed).Some? then old(owed) else Some(|old(sent)|)
    {
      var msg := new ZMsg();
      msg.parts := request;
      var frames := msg.Send();
      sent := sent + [Transmission(frames, owed.Some?)];
      if owed.None? {
        owed := Some(|sent| - 1);
      }
    }

    // The transmissions of this call so far: n copies of the request, each on a socket that
    // owed no answer, except that the first finds the socket as the last call left it.
    ghost predicate Sent(sent0: seq<Transmission>, owed0: Option<nat>, request: Message, n: nat)
      reads this`sent
    {
      && |sent| == |sent0| + n && sent[..|sent0|] == sent0
      && forall i :: |sent0| <= i < |sent| ==>
           sent[i] == Transmission(WireOut(request), i == |sent0| && owed0.Some?)
    }

    method Resend(request: Message, ghost sent0: seq<Transmission>, ghost owed0: Option<nat>, ghost n: nat)
      requires Sendable(request) && n > 0 && Sent(sent0, owed0, request, n)
      modifies this`owed, this`sent
      ensures Sent(sent0, owed0, request, n + 1) && owed == Owed(sent0, owed0, n + 1)
    {
      ConnectToBroker();
      Transmit(request);
    }

    // The inner loop: wait, and resend on a new socket while there are retries left.
    // looked counts the looks at s_interrupted; about is what the answer is an answer to.
    method Converse(service: Frame, request: Message, polls: nat -> Option<Message>, cut: Option<nat>, looked: nat,
                    ghost sent0: seq<Transmission>, ghost owed0: Option<nat>)
      returns (result: Option<Result>, retriesLeft: int, looked1: nat, ghost n: nat, ghost about: Option<nat>)
      requires Sendable(request) && retries >= 1
      requires Sent(sent0, owed0, request, 1) && owed == Owed(sent0, owed0, 1)
      modifies this`owed, this`sent
      ensures looked1 >= looked && 1 <= n <= retries && Sent(sent0, owed0, request, n)
      ensures match result
              case Some(r) => polls(n - 1).Some? && r == Verdict(service, polls(n - 1).value)
                              && FirstAnswer(polls, retries) == Some(n - 1)
                              && owed == None && about == Owed(sent0, owed0, n)
              case None => owed == Owed(sent0, owed0, n) && (retriesLeft == 0 || IsCut(cut, looked1))
                           && (retriesLeft == 0 ==> n == retries && FirstAnswer(polls, retries) == None)
    {
      retriesLeft, looked1, n, about := retries, looked, 1, None;
      while !IsCut(cut, looked1)
        invariant 1 <= n <= retries && retriesLeft == retries - n + 1 && looked1 >= looked
        invariant owed == Owed(sent0, owed0, n) && Sent(sent0, owed0, request, n)
        invariant forall i: nat :: i < n - 1 ==> polls(i).None?
        decreases retriesLeft
      {
        var incoming := polls(retries - retriesLeft);
        if incoming.Some? {
          about := owed;
          owed := None;
          FirstAnswerFound(polls, n - 1, retries);
          result := Some(Verdict(service, incoming.value));
          return;
        }
        retriesLeft := retriesLeft - 1;
        if retriesLeft == 0 {
          FirstAnswerIsFirst(polls, retries);
          break;
        }
        Resend(request, sent0, owed0, n);
        n := n + 1;
        looked1 := looked1 + 1;
      }
      result := None;
    }

    // send. polls(i) is what the i-th poll brings; cut is the number of looks at
    // s_interrupted before it is found set, if it ever is. The answer taken is one to this
    // request exactly if the socket owed none before, or the first poll brought nothing.
    method Send(service: Frame, body: Message, polls: nat -> Option<Message>, cut: Option<nat>)
      returns (result: Result, ghost n: nat, ghost about: Option<nat>)
      requires Sendable(body) && retries >= 0
      requires owed.Some? ==> owed.value < |sent|
      modifies this`owed, this`sent
      ensures owed.Some? ==> owed.value < |sent|
      ensures n <= retries && Sent(old(sent), old(owed), RequestParts(service, body), n)
      ensures result != NoAnswer ==>
                && n > 0 && FirstAnswer(polls, retries) == Some(n - 1) && polls(n - 1).Some?
                && result == Verdict(service, polls(n - 1).value) && owed == None
      ensures result.Answered? ==> IsAnswer(service, result.reply, polls(n - 1).value)
      ensures result.Failed? ==> IsNoAnswer(service, polls(n - 1).value)
      ensures result != NoAnswer ==>
                && about.Some? && about.value < |sent|
                && (|old(sent)| <= about.value <==> old(owed).None? || polls(0).None?)
                && (|old(sent)| <= about.value ==> about.value == |sent| - 1
                                                   && !sent[about.value].awaiting)
                && (about.value < |old(sent)| ==> about == old(owed))
      ensures result == NoAnswer ==> owed == if n > 0 then Owed(old(sent), old(owed), n) else old(owed)
      ensures result == NoAnswer && cut == None ==> n == retries && FirstAnswer(polls, retries) == None
    {
      RequestIsSendable(service, body);
      var request := RequestParts(service, body);
      n, result, about := 0, NoAnswer, None;
      var retriesLeft, looked := retries, 0;
      FirstAnswerIsFirst(polls, retries);
      while retriesLeft != 0 && !IsCut(cut, looked)
        invariant || (n == 0 && retriesLeft == retries && owed == old(owed))
                  || (1 <= n <= retries && owed == Owed(old(sent), old(owed), n)
                      && (retriesLeft == 0 || IsCut(cut, looked)))
        invariant n > 0 && retriesLeft == 0 ==> n == retries && FirstAnswer(polls, retries) == None
        invariant Sent(old(sent), old(owed), request, n)
        decreases if n == 0 then 1 else 0
      {
        Transmit(request);
        var answer;
        answer, retriesLeft, looked, n, about := Converse(service, request, polls, cut, looked + 1, old(sent), old(owed));
        if answer.Some? {
          result := answer.value;
          FailedExactly(service, polls(n - 1).value);
          return;
        }
        looked := looked + 1;
      }
    }
  }
}
