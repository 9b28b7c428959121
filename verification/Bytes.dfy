/** Bytes and big-endian numbers. */
module Bytes {
  type Byte = b: nat | b < 256

  type Word = w: nat | w < 0x1_0000_0000

  /** `struct.unpack(">I", s)`. */
  function Unpack(s: seq<Byte>): Word
    requires |s| == 4
  {
    (s[0] as int) * 0x100_0000 + (s[1] as int) * 0x1_0000 + (s[2] as int) * 0x100 + s[3]
  }

  function Pack(w: Word): (s: seq<Byte>)
    ensures |s| == 4
  {
    [w / 0x100_0000, w / 0x1_0000 % 0x100, w / 0x100 % 0x100, w % 0x100]
  }

  lemma UnpackPack(w: Word)
    ensures Unpack(Pack(w)) == w
  {
    var a := w / 0x100;
    var b := a / 0x100;
    assert w / 0x1_0000 == b && w / 0x100_0000 == b / 0x100;
  }

  lemma PackUnpack(s: seq<Byte>)
    requires |s| == 4
    ensures Pack(Unpack(s)) == s
  {
    var w := Unpack(s);
    var a: int, b: int := s[0], s[1];
    assert w / 0x100 == a * 0x1_0000 + b * 0x100 + s[2] && w % 0x100 == s[3];
    assert w / 0x1_0000 == a * 0x100 + b && w / 0x100 % 0x100 == s[2];
    assert w / 0x100_0000 == a && w / 0x1_0000 % 0x100 == b;
  }
}
