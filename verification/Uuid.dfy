// zmsg::encode_uuid and zmsg::decode_uuid: 17 binary bytes as '@' and 32 hex characters.

module Uuid {
  import opened Bytes

  const AT: byte := 64  // '@'
  const BINARY_SIZE := 17
  const TEXT_SIZE := 33

  // The character for a nibble in "0123456789ABCDEF".
  function HexChar(nibble: int): (c: byte)
    requires 0 <= nibble < 16
  {
    if nibble < 10 then 48 + nibble else 55 + nibble
  }

  // The 128-entry table hex_to_bin, indexed with the top bit masked off.
  function HexValue(c: byte): (v: int)
    ensures -1 <= v < 16
  {
    var i := c % 128;
    if 48 <= i <= 57 then i - 48
    else if 65 <= i <= 70 then i - 55
    else if 97 <= i <= 102 then i - 87
    else -1
  }

  predicate IsUpperHex(c: byte) {
    48 <= c <= 57 || 65 <= c <= 70
  }

  predicate IsHex(c: byte) {
    IsUpperHex(c) || 97 <= c <= 102
  }

  function Upper(c: byte): byte {
    if 97 <= c <= 122 then c - 32 else c
  }

  predicate IsBinaryForm(f: Frame) {
    |f| == BINARY_SIZE && f[0] == 0
  }

  predicate IsTextForm(f: Frame) {
    |f| == TEXT_SIZE && f[0] == AT
  }

  // A text form as encode_uuid writes it.
  predicate IsCanonicalText(f: Frame) {
    IsTextForm(f) && forall i :: 1 <= i < TEXT_SIZE ==> IsUpperHex(f[i])
  }

  // The character at place i of the text: the high nibble of its byte at odd places.
  function TextAt(data: Frame, i: nat): byte
    requires |data| == BINARY_SIZE && i < TEXT_SIZE
  {
    if i == 0 then AT
    else if i % 2 == 1 then HexChar(data[(i + 1) / 2] / 16)
    else HexChar(data[i / 2] % 16)
  }

  function Encode(data: Frame): (text: Frame)
    requires |data| == BINARY_SIZE
    ensures IsCanonicalText(text)
  {
    seq(TEXT_SIZE, i requires 0 <= i < TEXT_SIZE => TextAt(data, i))
  }

  // (hi << 4) + lo, stored in an unsigned char.
  function Join(hi: byte, lo: byte): byte {
    (HexValue(hi) * 16 + HexValue(lo)) % 256
  }

  function Decode(text: Frame): (data: Frame)
    requires |text| == TEXT_SIZE
    ensures IsBinaryForm(data)
  {
    seq(BINARY_SIZE, k requires 0 <= k < BINARY_SIZE =>
      if k == 0 then 0 else Join(text[2 * k - 1], text[2 * k]))
  }

  lemma ValueOfChar(nibble: int)
    requires 0 <= nibble < 16
    ensures HexValue(HexChar(nibble)) == nibble
  {
  }

  lemma CharOfValue(c: byte)
    requires IsHex(c)
    ensures HexValue(c) >= 0 && HexChar(HexValue(c)) == Upper(c)
  {
  }

  lemma JoinSplits(b: byte)
    ensures Join(HexChar(b / 16), HexChar(b % 16)) == b
  {
    ValueOfChar(b / 16);
    ValueOfChar(b % 16);
  }

  lemma SplitJoins(hi: byte, lo: byte)
    requires IsHex(hi) && IsHex(lo)
    ensures HexChar(Join(hi, lo) / 16) == Upper(hi)
    ensures HexChar(Join(hi, lo) % 16) == Upper(lo)
  {
    CharOfValue(hi);
    CharOfValue(lo);
    NibblesOf(HexValue(hi), HexValue(lo));
  }

  lemma NibblesOf(hi: int, lo: int)
    requires 0 <= hi < 16 && 0 <= lo < 16
    ensures (hi * 16 + lo) % 256 == hi * 16 + lo
    ensures (hi * 16 + lo) / 16 == hi && (hi * 16 + lo) % 16 == lo
  {
  }

  lemma DecodeEncodeAt(data: Frame, k: nat)
    requires IsBinaryForm(data) && 1 <= k < BINARY_SIZE
    ensures Decode(Encode(data))[k] == data[k]
  {
    JoinSplits(data[k]);
    assert (2 * k - 1 + 1) / 2 == k && (2 * k - 1) % 2 == 1 && 2 * k / 2 == k;
    assert Encode(data)[2 * k - 1] == HexChar(data[k] / 16);
    assert Encode(data)[2 * k] == HexChar(data[k] % 16);
  }

  // Decoding is a left inverse of encoding on every binary UUID.
  lemma DecodeEncode(data: Frame)
    requires IsBinaryForm(data)
    ensures Decode(Encode(data)) == data
  {
    forall k | 1 <= k < BINARY_SIZE ensures Decode(Encode(data))[k] == data[k] {
      DecodeEncodeAt(data, k);
    }
  }

  // Encoding a decoded text gives its upper-case spelling, in either case of the input.
  lemma EncodeDecode(text: Frame)
    requires IsTextForm(text) && forall i :: 1 <= i < TEXT_SIZE ==> IsHex(text[i])
    ensures Encode(Decode(text)) == seq(TEXT_SIZE, i requires 0 <= i < TEXT_SIZE => Upper(text[i]))
  {
    forall i | 1 <= i < TEXT_SIZE ensures Encode(Decode(text))[i] == Upper(text[i]) {
      EncodeDecodeAt(text, i);
    }
  }

  lemma EncodeDecodeAt(text: Frame, i: nat)
    requires IsTextForm(text) && 1 <= i < TEXT_SIZE
    requires forall i :: 1 <= i < TEXT_SIZE ==> IsHex(text[i])
    ensures Encode(Decode(text))[i] == Upper(text[i])
  {
    var k := (i + 1) / 2;
    assert Decode(text)[k] == Join(text[2 * k - 1], text[2 * k]);
    SplitJoins(text[2 * k - 1], text[2 * k]);
    assert i == if i % 2 == 1 then 2 * k - 1 else 2 * k;
  }

  // Encoding undoes decoding exactly on the canonical spelling.
  lemma EncodeDecodeExactly(text: Frame)
    requires |text| == TEXT_SIZE
    ensures Encode(Decode(text)) == text <==> IsCanonicalText(text)
  {
    if IsCanonicalText(text) {
      EncodeDecode(text);
      assert forall i :: 0 <= i < TEXT_SIZE ==> Upper(text[i]) == text[i];
    }
  }

  // zmsg::encode_uuid: the caller asserts data[0] == 0 and passes 17 bytes.
  method EncodeUuid(data: array<byte>) returns (text: array<byte>)
    requires IsBinaryForm(data[..])
    ensures fresh(text) && text.Length == TEXT_SIZE + 1
    ensures text[..TEXT_SIZE] == Encode(data[..]) && text[TEXT_SIZE] == 0
  {
    text := new byte[TEXT_SIZE + 1];
    text[0] := AT;
    var n := 0;
    while n < 16
      invariant 0 <= n <= 16
      invariant forall i :: 0 <= i <= 2 * n ==> text[i] == TextAt(data[..], i)
    {
      text[n * 2 + 1] := HexChar(data[n + 1] / 16);
      text[n * 2 + 2] := HexChar(data[n + 1] % 16);
      n := n + 1;
    }
    text[TEXT_SIZE] := 0;
    assert forall i :: 0 <= i < TEXT_SIZE ==> text[i] == Encode(data[..])[i];
  }

  // zmsg::decode_uuid: asserts strlen(uuidstr) == 33 and the leading '@'.
  method DecodeUuid(text: array<byte>) returns (data: array<byte>)
    requires IsTextForm(text[..]) && NulFree(text[..])
    ensures fresh(data) && data[..] == Decode(text[..])
  {
    data := new byte[BINARY_SIZE];
    data[0] := 0;
    var n := 0;
    while n < 16
      invariant 0 <= n <= 16
      invariant forall k :: 0 <= k <= n ==> data[k] == Decode(text[..])[k]
    {
      data[n + 1] := (HexValue(text[n * 2 + 1]) * 16 + HexValue(text[n * 2 + 2])) % 256;
      n := n + 1;
    }
  }
}
