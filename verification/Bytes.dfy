// Byte strings, and the C-string view that every API taking a char* imposes on them.

module Bytes {
  type byte = x: int | 0 <= x < 256

  // One ZeroMQ message part, a std::string or a std::basic_string<unsigned char>.
  type Frame = seq<byte>

  // A multipart message: the parts a zmsg holds, or the frames on the wire.
  type Message = seq<Frame>

  datatype Option<+T> = None | Some(value: T)

  predicate NulFree(f: Frame) {
    0 !in f
  }

  // What a reader of f.c_str() sees: the bytes before the first NUL.
  function CStr(f: Frame): (s: Frame)
    ensures s <= f && NulFree(s)
    ensures |s| < |f| ==> f[|s|] == 0
    ensures NulFree(f) ==> s == f
  {
    if f == [] || f[0] == 0 then [] else [f[0]] + CStr(f[1..])
  }

  lemma CStrIsIdentityExactlyOnNulFree(f: Frame)
    ensures CStr(f) == f <==> NulFree(f)
    ensures CStr(CStr(f)) == CStr(f)
  {
  }

  // *part.c_str() == 0: the part is empty or starts with a NUL byte.
  predicate IsNull(f: Frame) {
    f == [] || f[0] == 0
  }
}
