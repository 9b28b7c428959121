/** The PNG envelope check: it accepts exactly the chunked files of sections 3.1 to 3.4 of RFC 2083. */
module Png {
  import opened Basics
  import opened Bytes

  const SIGNATURE: seq<Byte> := [0x89, 0x50, 0x4E, 0x47, 0x0D, 0x0A, 0x1A, 0x0A]
  const IHDR: seq<Byte> := [0x49, 0x48, 0x44, 0x52]
  const IEND: seq<Byte> := [0x49, 0x45, 0x4E, 0x44]

  /** The CRC of a chunk's kind and payload. */
  type Crc = seq<Byte> -> Word

  datatype Chunk = Chunk(kind: seq<Byte>, payload: seq<Byte>)

  // ---- What a PNG file is

  predicate IsChunk(chunk: Chunk) {
    |chunk.kind| == 4 && |chunk.payload| < 0x1_0000_0000
  }

  function EncodeChunk(chunk: Chunk, crc: Crc): seq<Byte>
    requires IsChunk(chunk)
  {
    Pack(|chunk.payload|) + chunk.kind + chunk.payload + Pack(crc(chunk.kind + chunk.payload))
  }

  function EncodeChunks(chunks: seq<Chunk>, crc: Crc): seq<Byte>
    requires forall i :: 0 <= i < |chunks| ==> IsChunk(chunks[i])
  {
    if chunks == [] then [] else EncodeChunk(chunks[0], crc) + EncodeChunks(chunks[1..], crc)
  }

  /** Chunks that end with an empty IEND, which is the only IEND. */
  predicate Ended(chunks: seq<Chunk>) {
    && chunks != []
    && (forall i :: 0 <= i < |chunks| ==> IsChunk(chunks[i]))
    && (forall i :: 0 <= i < |chunks| ==> (chunks[i].kind == IEND <==> i == |chunks| - 1))
    && chunks[|chunks| - 1].payload == []
  }

  /** And that start with an IHDR of length 13. */
  predicate Proper(chunks: seq<Chunk>) {
    Ended(chunks) && chunks[0].kind == IHDR && |chunks[0].payload| == 13
  }

  ghost predicate IsPng(data: seq<Byte>, crc: Crc) {
    exists chunks :: Proper(chunks) && data == SIGNATURE + EncodeChunks(chunks, crc)
  }

  // ---- The check

  /** The chunk at the front of `s`, if it is complete and its CRC is right. */
  function FrontChunk(s: seq<Byte>, crc: Crc): Option<Chunk> {
    if |s| < 12 then None
    else
      var length := Unpack(s[..4]);
      if 12 + length > |s| then None
      else
        var chunk := Chunk(s[4..8], s[8..8 + length]);
        if crc(chunk.kind + chunk.payload) != Unpack(s[8 + length..12 + length]) then None else Some(chunk)
  }

  function Parse(s: seq<Byte>, first: bool, crc: Crc): Option<seq<Chunk>> {
    var front := FrontChunk(s, crc);
    if front.None? then None
    else
      var chunk := front.value;
      var size := 12 + |chunk.payload|;
      if first && (chunk.kind != IHDR || |chunk.payload| != 13) then None
      else if chunk.kind == IEND then
        if chunk.payload == [] && size == |s| then Some([chunk]) else None
      else
        match Parse(s[size..], false, crc)
        case None => None
        case Some(rest) => Some([chunk] + rest)
  }

  lemma FrontSound(s: seq<Byte>, crc: Crc)
    requires FrontChunk(s, crc).Some?
    ensures var chunk := FrontChunk(s, crc).value;
      && IsChunk(chunk) && 12 + |chunk.payload| <= |s|
      && s == EncodeChunk(chunk, crc) + s[12 + |chunk.payload|..]
  {
    var chunk := FrontChunk(s, crc).value;
    var n := |chunk.payload|;
    PackUnpack(s[..4]);
    PackUnpack(s[8 + n..12 + n]);
    assert s == s[..4] + s[4..8] + s[8..8 + n] + s[8 + n..12 + n] + s[12 + n..];
  }

  lemma FrontComplete(chunk: Chunk, rest: seq<Byte>, crc: Crc)
    requires IsChunk(chunk)
    ensures FrontChunk(EncodeChunk(chunk, crc) + rest, crc) == Some(chunk)
    ensures (EncodeChunk(chunk, crc) + rest)[12 + |chunk.payload|..] == rest
  {
    var s, n := EncodeChunk(chunk, crc) + rest, |chunk.payload|;
    UnpackPack(n);
    UnpackPack(crc(chunk.kind + chunk.payload));
    assert s[..4] == Pack(n) && s[4..8] == chunk.kind;
    assert s[8..8 + n] == chunk.payload;
    assert s[8 + n..12 + n] == Pack(crc(chunk.kind + chunk.payload));
  }

  lemma {:induction false} ParseSound(s: seq<Byte>, first: bool, crc: Crc)
    requires Parse(s, first, crc).Some?
    ensures var chunks := Parse(s, first, crc).value;
      && Ended(chunks) && s == EncodeChunks(chunks, crc)
      && (first ==> Proper(chunks))
    decreases |s|
  {
    FrontSound(s, crc);
    var chunk, chunks := FrontChunk(s, crc).value, Parse(s, first, crc).value;
    var size := 12 + |chunk.payload|;
    if chunk.kind == IEND {
      assert s[size..] == [];
      assert EncodeChunks(chunks[1..], crc) == [];
    } else {
      ParseSound(s[size..], false, crc);
      var rest := Parse(s[size..], false, crc).value;
      assert chunks == [chunk] + rest && chunks[1..] == rest;
      forall i | 0 <= i < |chunks| ensures IsChunk(chunks[i]) && (chunks[i].kind == IEND <==> i == |chunks| - 1) {
        assert i > 0 ==> chunks[i] == rest[i - 1];
      }
    }
  }

  /** One step of parsing what was encoded. */
  lemma ParseStep(chunk: Chunk, rest: seq<Byte>, first: bool, crc: Crc)
    requires IsChunk(chunk) && (first ==> chunk.kind == IHDR && |chunk.payload| == 13)
    ensures chunk.kind == IEND && chunk.payload == [] && rest == [] ==>
            Parse(EncodeChunk(chunk, crc) + rest, first, crc) == Some([chunk])
    ensures chunk.kind != IEND && Parse(rest, false, crc).Some? ==>
            Parse(EncodeChunk(chunk, crc) + rest, first, crc) == Some([chunk] + Parse(rest, false, crc).value)
  {
    FrontComplete(chunk, rest, crc);
  }

  lemma {:induction false} ParseComplete(chunks: seq<Chunk>, first: bool, crc: Crc)
    requires Ended(chunks) && (first ==> Proper(chunks))
    ensures Parse(EncodeChunks(chunks, crc), first, crc) == Some(chunks)
    decreases |chunks|
  {
    var rest := chunks[1..];
    assert chunks == [chunks[0]] + rest;
    if |chunks| > 1 {
      RestEnded(chunks);
      ParseComplete(rest, false, crc);
    } else {
      assert rest == [] && chunks == [chunks[0]];
    }
    ParseStep(chunks[0], EncodeChunks(rest, crc), first, crc);
  }

  lemma RestEnded(chunks: seq<Chunk>)
    requires Ended(chunks) && |chunks| > 1
    ensures Ended(chunks[1..])
  {
    var rest := chunks[1..];
    assert forall i :: 0 <= i < |rest| ==> rest[i] == chunks[i + 1];
  }

  /** A file has at most one chunk decomposition. */
  lemma DecompositionIsUnique(a: seq<Chunk>, b: seq<Chunk>, crc: Crc)
    requires Ended(a) && Ended(b) && EncodeChunks(a, crc) == EncodeChunks(b, crc)
    ensures a == b
  {
    ParseComplete(a, false, crc);
    ParseComplete(b, false, crc);
  }

  lemma ParseDecides(data: seq<Byte>, crc: Crc)
    ensures IsPng(data, crc) <==> |data| >= 8 && data[..8] == SIGNATURE && Parse(data[8..], true, crc).Some?
  {
    if IsPng(data, crc) {
      var chunks :| Proper(chunks) && data == SIGNATURE + EncodeChunks(chunks, crc);
      assert data[..8] == SIGNATURE && data[8..] == EncodeChunks(chunks, crc);
      ParseComplete(chunks, true, crc);
    }
    if |data| >= 8 && data[..8] == SIGNATURE && Parse(data[8..], true, crc).Some? {
      ParseSound(data[8..], true, crc);
      assert data == data[..8] + data[8..];
    }
  }

  /** `_valid_png`: accepts exactly the PNG files. */
  method ValidPng(data: seq<Byte>, crc: Crc) returns (valid: bool)
    ensures valid <==> IsPng(data, crc)
  {
    ParseDecides(data, crc);
    if |data| < 8 || data[..8] != SIGNATURE {
      return false;
    }
    AcceptsParsed(data, 8, true, crc);
    valid := ValidChunks(data, 8, crc);
  }

  /** The loop over the chunks from `start` on. */
  method ValidChunks(data: seq<Byte>, start: nat, crc: Crc) returns (valid: bool)
    requires start <= |data|
    ensures valid <==> Accepts(data, start, true, crc)
  {
    var offset, number := start, 0;
    while offset + 12 <= |data|
      invariant start <= offset <= |data| && number >= 0
      invariant Accepts(data, start, true, crc) <==> Accepts(data, offset, number == 0, crc)
    {
      var length := Unpack(data[offset..offset + 4]);
      var kind := data[offset + 4..offset + 8];
      var payloadEnd := offset + 8 + length;
      var chunkEnd := payloadEnd + 4;
      if chunkEnd > |data| {
        return false;
      }
      if crc(kind + data[offset + 8..payloadEnd]) != Unpack(data[payloadEnd..chunkEnd]) {
        return false;
      }
      if number == 0 && (kind != IHDR || length != 13) {
        return false;
      }
      if kind == IEND {
        return length == 0 && chunkEnd == |data|;
      }
      number := number + 1;
      offset := chunkEnd;
    }
    return false;
  }

  /** The chunks from `offset` on are in order, read by offsets. */
  predicate Accepts(data: seq<Byte>, offset: nat, first: bool, crc: Crc)
    requires offset <= |data|
    decreases |data| - offset
  {
    && offset + 12 <= |data|
    && var length := Unpack(data[offset..offset + 4]);
    var end := offset + 12 + length;
    && end <= |data|
    && var kind := data[offset + 4..offset + 8];
    && crc(kind + data[offset + 8..end - 4]) == Unpack(data[end - 4..end])
    && (first ==> kind == IHDR && length == 13)
    && if kind == IEND then length == 0 && end == |data| else Accepts(data, end, false, crc)
  }

  /** The chunk at an offset, read by offsets. */
  lemma FrontAt(data: seq<Byte>, offset: nat, crc: Crc)
    requires offset + 12 <= |data|
    ensures var length := Unpack(data[offset..offset + 4]);
      if offset + 12 + length > |data| then FrontChunk(data[offset..], crc) == None
      else
        var chunk := Chunk(data[offset + 4..offset + 8], data[offset + 8..offset + 8 + length]);
        FrontChunk(data[offset..], crc) ==
          if crc(chunk.kind + chunk.payload) != Unpack(data[offset + 8 + length..offset + 12 + length]) then None else Some(chunk)
  {
    var s, length := data[offset..], Unpack(data[offset..offset + 4]);
    assert s[..4] == data[offset..offset + 4] && s[4..8] == data[offset + 4..offset + 8];
    if offset + 12 + length <= |data| {
      assert s[8..8 + length] == data[offset + 8..offset + 8 + length];
      assert s[8 + length..12 + length] == data[offset + 8 + length..offset + 12 + length];
    }
  }

  lemma {:induction false} AcceptsParsed(data: seq<Byte>, offset: nat, first: bool, crc: Crc)
    requires offset <= |data|
    ensures Accepts(data, offset, first, crc) <==> Parse(data[offset..], first, crc).Some?
    decreases |data| - offset
  {
    if offset + 12 <= |data| {
      FrontAt(data, offset, crc);
      var end := offset + 12 + Unpack(data[offset..offset + 4]);
      if end <= |data| {
        assert data[offset..][end - offset..] == data[end..];
        AcceptsParsed(data, end, false, crc);
      }
    }
  }
}
