// What the operations of zmsg do to a list of message parts, and the laws they obey.

module Frames {
  import opened Bytes
  import Uuid

  // push_front and push_back take a char*, so a part is cut at its first NUL.
  function PushFront(parts: Message, part: Frame): Message {
    [CStr(part)] + parts
  }

  function PushBack(parts: Message, part: Frame): Message {
    parts + [CStr(part)]
  }

  // Parts put in front one after the other, as they end up.
  lemma Prefixed(f: Frame, head: Message, parts: Message)
    ensures [f] + (head + parts) == ([f] + head) + parts
  {
  }

  lemma Stacked3(a: Frame, c: Frame, d: Frame, parts: Message)
    ensures [a] + ([c] + ([d] + parts)) == [a, c, d] + parts
  {
    Prefixed(c, [d], parts);
    assert [c] + [d] == [c, d];
    Prefixed(a, [c, d], parts);
    assert [a] + [c, d] == [a, c, d];
  }

  lemma Stacked4(a: Frame, c: Frame, d: Frame, e: Frame, parts: Message)
    ensures [a] + ([c] + ([d] + ([e] + parts))) == [a, c, d, e] + parts
  {
    Stacked3(c, d, e, parts);
    Prefixed(a, [c, d, e], parts);
    assert [a] + [c, d, e] == [a, c, d, e];
  }

  lemma Pushed2(parts: Message, a: Frame, c: Frame)
    ensures PushFront(PushFront(parts, c), a) == [CStr(a), CStr(c)] + parts
  {
  }

  lemma Pushed3(parts: Message, a: Frame, c: Frame, d: Frame)
    ensures PushFront(PushFront(PushFront(parts, d), c), a) == [CStr(a), CStr(c), CStr(d)] + parts
  {
    Stacked3(CStr(a), CStr(c), CStr(d), parts);
  }

  lemma Pushed4(parts: Message, a: Frame, c: Frame, d: Frame, e: Frame)
    ensures PushFront(PushFront(PushFront(PushFront(parts, e), d), c), a) == [CStr(a), CStr(c), CStr(d), CStr(e)] + parts
  {
    Stacked4(CStr(a), CStr(c), CStr(d), CStr(e), parts);
  }

  // wrap(address, delim); delim is None for the null pointer.
  function Wrap(parts: Message, address: Frame, delim: Option<Frame>): Message {
    PushFront(if delim.Some? then PushFront(parts, delim.value) else parts, address)
  }

  // What unwrap leaves: the address goes, and with it one null delimiter that follows.
  function UnwrapRest(parts: Message): Message
    requires parts != []
  {
    if |parts| > 1 && IsNull(parts[1]) then parts[2..] else parts[1..]
  }

  function UnwrapAddress(parts: Message): Frame
    requires parts != []
  {
    CStr(parts[0])
  }

  // body_set replaces the last part, or adds a first one.
  function BodySet(parts: Message, body: Frame): Message {
    PushBack(if parts == [] then [] else parts[..|parts| - 1], body)
  }

  function Body(parts: Message): Frame
    requires parts != []
  {
    CStr(parts[|parts| - 1])
  }

  lemma BodySetIsLast(parts: Message, body: Frame)
    ensures var p := BodySet(parts, body);
            && p != [] && Body(p) == CStr(body)
            && p[..|p| - 1] == if parts == [] then [] else parts[..|parts| - 1]
  {
    CStrIsIdentityExactlyOnNulFree(body);
  }

  // One frame of recv and one part of send.
  function FrameIn(f: Frame): Frame {
    if Uuid.IsBinaryForm(f) then Uuid.Encode(f) else f
  }

  function FrameOut(p: Frame): Frame {
    if Uuid.IsTextForm(p) then Uuid.Decode(p) else p
  }

  function WireIn(frames: Message): (parts: Message)
    ensures |parts| == |frames|
  {
    seq(|frames|, i requires 0 <= i < |frames| => FrameIn(frames[i]))
  }

  function WireOut(parts: Message): (frames: Message)
    ensures |frames| == |parts|
  {
    seq(|parts|, i requires 0 <= i < |parts| => FrameOut(parts[i]))
  }

  // send asserts (inside decode_uuid) that a part in text form holds no NUL.
  predicate Sendable(parts: Message) {
    forall i :: 0 <= i < |parts| && Uuid.IsTextForm(parts[i]) ==> NulFree(parts[i])
  }

  // Parts that are C strings never stand in the way of sending.
  lemma SendableAfterStrings(a: Message, c: Message)
    requires forall i :: 0 <= i < |a| ==> NulFree(a[i])
    ensures Sendable(a + c) <==> Sendable(c)
  {
    assert forall i :: 0 <= i < |c| ==> c[i] == (a + c)[|a| + i];
  }

  lemma SendableParts(m: Message, k: nat)
    requires Sendable(m) && k <= |m|
    ensures Sendable(m[k..])
  {
    forall i | 0 <= i < |m| - k && Uuid.IsTextForm(m[k..][i]) ensures NulFree(m[k..][i]) {
      assert m[k..][i] == m[i + k];
    }
  }

  lemma SendableWrap(m: Message, address: Frame)
    requires Sendable(m)
    ensures Sendable(Wrap(m, address, Some([])))
  {
    assert Wrap(m, address, Some([])) == [CStr(address), []] + m;
    SendableAfterStrings([CStr(address), []], m);
  }

  // -------------------------------------------------------------------------------------
  // Wire round trips

  lemma FrameInOutExactly(f: Frame)
    ensures FrameOut(FrameIn(f)) == f <==> !Uuid.IsTextForm(f)
  {
    if Uuid.IsBinaryForm(f) {
      Uuid.DecodeEncode(f);
    } else if Uuid.IsTextForm(f) {
      assert |FrameOut(FrameIn(f))| == Uuid.BINARY_SIZE;
    }
  }

  lemma FrameOutInExactly(p: Frame)
    ensures FrameIn(FrameOut(p)) == p
            <==> !Uuid.IsBinaryForm(p) && (Uuid.IsTextForm(p) ==> Uuid.IsCanonicalText(p))
  {
    if Uuid.IsTextForm(p) {
      Uuid.EncodeDecodeExactly(p);
    } else if Uuid.IsBinaryForm(p) {
      assert |FrameIn(FrameOut(p))| == Uuid.TEXT_SIZE;
    }
  }

  // recv then send relays a message unchanged exactly when no frame is in UUID text form.
  lemma RelayExactly(frames: Message)
    ensures WireOut(WireIn(frames)) == frames
            <==> forall i :: 0 <= i < |frames| ==> !Uuid.IsTextForm(frames[i])
  {
    var there := WireOut(WireIn(frames));
    forall i | 0 <= i < |frames|
      ensures there[i] == frames[i] <==> !Uuid.IsTextForm(frames[i])
    {
      FrameInOutExactly(frames[i]);
    }
  }

  // send then recv delivers the same parts exactly when every UUID text is canonical and
  // no part is in the binary form.
  lemma DeliveryExactly(parts: Message)
    ensures WireIn(WireOut(parts)) == parts
            <==> forall i :: 0 <= i < |parts| ==>
              !Uuid.IsBinaryForm(parts[i])
              && (Uuid.IsTextForm(parts[i]) ==> Uuid.IsCanonicalText(parts[i]))
  {
    var there := WireIn(WireOut(parts));
    forall i | 0 <= i < |parts|
      ensures there[i] == parts[i]
              <==> !Uuid.IsBinaryForm(parts[i])
                   && (Uuid.IsTextForm(parts[i]) ==> Uuid.IsCanonicalText(parts[i]))
    {
      FrameOutInExactly(parts[i]);
    }
  }

  // -------------------------------------------------------------------------------------
  // The envelope stack

  function WrapAll(parts: Message, addresses: seq<Frame>): Message
    decreases |addresses|
  {
    if addresses == [] then parts
    else WrapAll(Wrap(parts, addresses[0], Some([])), addresses[1..])
  }

  // k calls of unwrap: the addresses in the order they come off, and what is left.
  function UnwrapAll(parts: Message, k: nat): (r: (seq<Frame>, Message))
    requires |parts| >= 2 * k
  {
    if k == 0 then ([], parts)
    else
      var (addresses, last) := UnwrapAll(UnwrapRest(parts), k - 1);
      ([UnwrapAddress(parts)] + addresses, last)
  }

  lemma WrapAllLength(parts: Message, addresses: seq<Frame>)
    ensures |WrapAll(parts, addresses)| == |parts| + 2 * |addresses|
    decreases |addresses|
  {
    if addresses != [] {
      WrapAllLength(Wrap(parts, addresses[0], Some([])), addresses[1..]);
    }
  }

  lemma WrapAllLast(parts: Message, addresses: seq<Frame>, last: Frame)
    ensures WrapAll(parts, addresses + [last]) == Wrap(WrapAll(parts, addresses), last, Some([]))
    decreases |addresses|
  {
    if addresses == [] {
      assert [last][1..] == [];
    } else {
      assert (addresses + [last])[1..] == addresses[1..] + [last];
      WrapAllLast(Wrap(parts, addresses[0], Some([])), addresses[1..], last);
    }
  }

  lemma UnwrapUndoesWrap(parts: Message, address: Frame)
    ensures UnwrapAddress(Wrap(parts, address, Some([]))) == CStr(address)
    ensures UnwrapRest(Wrap(parts, address, Some([]))) == parts
  {
    CStrIsIdentityExactlyOnNulFree(address);
    Pushed2(parts, address, []);
    var m := [CStr(address), []] + parts;
    assert Wrap(parts, address, Some([])) == m;
    assert m[2..] == parts;
  }

  ghost function Reversed(s: seq<Frame>): (r: seq<Frame>)
    ensures |r| == |s|
  {
    seq(|s|, i requires 0 <= i < |s| => s[|s| - 1 - i])
  }

  ghost function CStrs(s: seq<Frame>): (r: seq<Frame>)
    ensures |r| == |s|
  {
    seq(|s|, i requires 0 <= i < |s| => CStr(s[i]))
  }

  // The addresses as unwrapping yields them: last wrapped first, each as a C string.
  ghost function Unstacked(s: seq<Frame>): (r: seq<Frame>)
    ensures |r| == |s|
  {
    CStrs(Reversed(s))
  }

  lemma UnstackedLast(init: seq<Frame>, last: Frame)
    ensures Unstacked(init + [last]) == [CStr(last)] + Unstacked(init)
  {
    var all := init + [last];
    var rhs := [CStr(last)] + Unstacked(init);
    forall i | 0 <= i < |all| ensures Unstacked(all)[i] == rhs[i] {
      if i > 0 {
        assert all[|init| - i] == init[|init| - i];
      }
    }
  }

  lemma UnwrapAllStep(parts: Message, k: nat)
    requires k > 0 && |parts| >= 2 * k
    ensures UnwrapAll(parts, k) == ([UnwrapAddress(parts)] + UnwrapAll(UnwrapRest(parts), k - 1).0,
                                    UnwrapAll(UnwrapRest(parts), k - 1).1)
  {
  }

  // Unwrapping gives back the message wrapped, whatever its first part is, and the
  // addresses in reverse order, each cut at its first NUL.
  lemma {:induction false} EnvelopeStack(parts: Message, addresses: seq<Frame>)
    ensures |WrapAll(parts, addresses)| >= 2 * |addresses|
    ensures UnwrapAll(WrapAll(parts, addresses), |addresses|) == (Unstacked(addresses), parts)
    decreases |addresses|
  {
    WrapAllLength(parts, addresses);
    if addresses == [] {
      assert Unstacked(addresses) == [];
    } else {
      var n := |addresses| - 1;
      var init, last := addresses[..n], addresses[n];
      assert addresses == init + [last];
      var inner := WrapAll(parts, init);
      WrapAllLast(parts, init, last);
      UnwrapUndoesWrap(inner, last);
      UnwrapAllStep(WrapAll(parts, addresses), n + 1);
      EnvelopeStack(parts, init);
      UnstackedLast(init, last);
    }
  }

  // The addresses themselves come back exactly when none of them holds a NUL.
  lemma EnvelopeStackExactly(parts: Message, addresses: seq<Frame>)
    requires |WrapAll(parts, addresses)| >= 2 * |addresses|
    ensures UnwrapAll(WrapAll(parts, addresses), |addresses|).0 == Reversed(addresses)
            <==> forall i :: 0 <= i < |addresses| ==> NulFree(addresses[i])
  {
    EnvelopeStack(parts, addresses);
    CStrsExactly(Reversed(addresses));
    if forall i :: 0 <= i < |addresses| ==> NulFree(Reversed(addresses)[i]) {
      forall i | 0 <= i < |addresses| ensures NulFree(addresses[i]) {
        assert addresses[i] == Reversed(addresses)[|addresses| - 1 - i];
      }
    }
  }

  lemma CStrsExactly(s: seq<Frame>)
    ensures CStrs(s) == s <==> forall i :: 0 <= i < |s| ==> NulFree(s[i])
  {
    forall i | 0 <= i < |s| ensures CStrs(s)[i] == s[i] <==> NulFree(s[i]) {
      CStrIsIdentityExactlyOnNulFree(s[i]);
    }
  }
}
