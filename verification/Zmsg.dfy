// The zmsg class: a vector of message parts edited in place as a stack of address envelopes.

module Zmsg {
  import opened Bytes
  import opened Frames
  import Uuid

  class ZMsg {
    var parts: Message

    constructor ()
      ensures parts == []
    {
      parts := [];
    }

    constructor Copy(msg: ZMsg)
      ensures parts == msg.parts
    {
      parts := msg.parts;
    }

    // recv replaces the parts by the frames of the next message on the socket.
    method Recv(frames: Message)
      modifies this
      ensures parts == WireIn(frames)
    {
      parts := [];
      var n := 0;
      while n < |frames|
        invariant 0 <= n <= |frames|
        invariant parts == WireIn(frames)[..n]
      {
        var message := frames[n];
        if |message| == 17 && message[0] == 0 {
          var data := new byte[|message|](i requires 0 <= i < |message| => message[i]);
          assert data[..] == message;
          var text := Uuid.EncodeUuid(data);
          parts := parts + [text[..Uuid.TEXT_SIZE]];
        } else {
          parts := parts + [message];
        }
        n := n + 1;
      }
    }

    // send puts the parts on the socket and empties the message.
    method Send() returns (frames: Message)
      requires Sendable(parts)
      modifies this
      ensures frames == WireOut(old(parts))
      ensures parts == []
    {
      frames := [];
      var n := 0;
      while n < |parts|
        invariant 0 <= n <= |parts|
        invariant parts == old(parts)
        invariant frames == WireOut(parts)[..n]
      {
        var part := parts[n];
        if |part| == 33 && part[0] == Uuid.AT {
          var text := new byte[|part|](i requires 0 <= i < |part| => part[i]);
          assert text[..] == part;
          var data := Uuid.DecodeUuid(text);
          frames := frames + [data[..]];
        } else {
          frames := frames + [part];
        }
        n := n + 1;
      }
      parts := [];
    }

    method BodySet(body: Frame)
      modifies this
      ensures parts == Frames.BodySet(old(parts), body)
    {
      if |parts| > 0 {
        parts := parts[..|parts| - 1];
      }
      parts := parts + [CStr(body)];
    }

    method PushFront(part: Frame)
      modifies this
      ensures parts == Frames.PushFront(old(parts), part)
    {
      parts := [CStr(part)] + parts;
    }

    // On an empty message the original builds a string from a null pointer.
    method PopFront() returns (part: Frame)
      requires parts != []
      modifies this
      ensures old(parts) == [part] + parts
    {
      part := parts[0];
      parts := parts[1..];
    }

    method Wrap(address: Frame, delim: Option<Frame>)
      modifies this
      ensures parts == Frames.Wrap(old(parts), address, delim)
    {
      if delim.Some? {
        PushFront(delim.value);
      }
      PushFront(address);
    }

    method Unwrap() returns (address: Frame)
      requires parts != []
      modifies this
      ensures address == UnwrapAddress(old(parts)) && parts == UnwrapRest(old(parts))
    {
      var part := PopFront();
      address := CStr(part);
      if |parts| > 0 && IsNull(parts[0]) {
        var delim := PopFront();
      }
      assert parts == UnwrapRest(old(parts));
    }
  }
}
