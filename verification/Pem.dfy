/** The redactor of PEM blocks: one forward scan between two kinds of markers. */
module Pem {
  import opened Basics

  const REDACTED := "<redacted>"
  const BEGIN := "-----BEGIN "
  const END := "-----END "
  const MAX_LABEL := 64
  const DASHES := 5

  // ---- Markers

  predicate IsLabelChar(c: char) {
    'A' <= c <= 'Z' || '0' <= c <= '9' || c == ' '
  }

  predicate StartsAt(t: string, i: nat, p: string) {
    i + |p| <= |t| && forall k :: 0 <= k < |p| ==> t[i + k] == p[k]
  }

  predicate DashesAt(t: string, i: nat) {
    i + DASHES <= |t| && forall k :: i <= k < i + DASHES ==> t[k] == '-'
  }

  /** Positions `i` to `j` of the text match the opening, 1 to 64 label characters, and five dashes. */
  predicate IsMarker(t: string, i: nat, j: nat, p: string) {
    && i + |p| + 1 + DASHES <= j <= i + |p| + MAX_LABEL + DASHES && j <= |t|
    && StartsAt(t, i, p)
    && (forall k :: i + |p| <= k < j - DASHES ==> IsLabelChar(t[k]))
    && DashesAt(t, j - DASHES)
  }

  /** The end of the run of label characters that begins at `k`. */
  function RunEnd(t: string, k: nat): (end: nat)
    requires k <= |t|
    ensures k <= end <= |t| && (forall i :: k <= i < end ==> IsLabelChar(t[i])) && (end < |t| ==> !IsLabelChar(t[end]))
    decreases |t| - k
  {
    if k == |t| || !IsLabelChar(t[k]) then k else RunEnd(t, k + 1)
  }

  /** The end of the marker that begins at `i`, if there is one: what the regular expression matches there. */
  function MarkerEnd(t: string, i: nat, p: string): (end: Option<nat>)
    ensures end.Some? ==> i < end.value <= |t|
  {
    if !StartsAt(t, i, p) then None
    else
      var start := i + |p|;
      var end := RunEnd(t, start);
      if 1 <= end - start <= MAX_LABEL && DashesAt(t, end) then Some(end + DASHES) else None
  }

  lemma {:induction false} RunEndAt(t: string, k: nat, end: nat)
    requires k <= end < |t| && !IsLabelChar(t[end]) && forall i :: k <= i < end ==> IsLabelChar(t[i])
    ensures RunEnd(t, k) == end
    decreases end - k
  {
    if k < end {
      RunEndAt(t, k + 1, end);
    }
  }

  /** A marker's extent is determined by where it begins. */
  lemma MarkerEndMeaning(t: string, i: nat, j: nat, p: string)
    ensures MarkerEnd(t, i, p) == Some(j) <==> IsMarker(t, i, j, p)
  {
    if IsMarker(t, i, j, p) {
      var end := RunEnd(t, i + |p|);
      assert t[j - DASHES] == '-';
      RunEndAt(t, i + |p|, j - DASHES);
    }
  }

  /** `pattern.search(t, i)`: where the first marker at or after `i` begins. */
  function Search(t: string, i: nat, p: string): (at: Option<nat>)
    requires i <= |t|
    ensures at.Some? ==> i <= at.value <= |t| && MarkerEnd(t, at.value, p).Some?
    ensures forall k :: i <= k < (if at.Some? then at.value else |t| + 1) ==> MarkerEnd(t, k, p).None?
    decreases |t| - i
  {
    if MarkerEnd(t, i, p).Some? then Some(i)
    else if i == |t| then None
    else Search(t, i + 1, p)
  }

  // ---- Blocks

  datatype Block = Block(begin: nat, end: nat)

  /** No marker begins at positions `i` to `j`. */
  ghost predicate NoneIn(t: string, i: nat, j: nat, p: string) {
    forall k: nat, e: nat :: i <= k < j ==> !IsMarker(t, k, e, p)
  }

  ghost predicate NoneFrom(t: string, i: nat, p: string) {
    NoneIn(t, i, |t| + 1, p)
  }

  /** A block runs from a BEGIN marker to the end of the first END marker after it, or else to the end of the text. */
  ghost predicate IsBlock(t: string, block: Block) {
    exists m :: IsMarker(t, block.begin, m, BEGIN) && EndsAt(t, m, block.end)
  }

  ghost predicate EndsAt(t: string, m: nat, end: nat) {
    || (NoneFrom(t, m, END) && end == |t|)
    || exists a :: m <= a && NoneIn(t, m, a, END) && IsMarker(t, a, end, END)
  }

  /** The blocks from position `i` on: in order, and no BEGIN marker begins outside them. */
  ghost predicate AreBlocks(t: string, i: nat, blocks: seq<Block>)
    decreases |blocks|
  {
    if blocks == [] then NoneFrom(t, i, BEGIN)
    else
      && i <= blocks[0].begin <= blocks[0].end <= |t|
      && NoneIn(t, i, blocks[0].begin, BEGIN) && IsBlock(t, blocks[0])
      && AreBlocks(t, blocks[0].end, blocks[1..])
  }

  /** The text with every block replaced: what is outside the blocks is kept as it is and in order. */
  function Cover(t: string, i: nat, blocks: seq<Block>): string
    decreases |blocks|
  {
    if blocks == [] then if i <= |t| then t[i..] else ""
    else
      (if i <= blocks[0].begin <= |t| then t[i..blocks[0].begin] else "") + REDACTED + Cover(t, blocks[0].end, blocks[1..])
  }

  function BlockEnd(t: string, m: nat): (end: nat)
    requires m <= |t|
    ensures m <= end <= |t|
  {
    var at := Search(t, m, END);
    if at.None? then |t| else MarkerEnd(t, at.value, END).value
  }

  function Blocks(t: string, i: nat): seq<Block>
    requires i <= |t|
    decreases |t| - i
  {
    var at := Search(t, i, BEGIN);
    if at.None? then []
    else
      var end := BlockEnd(t, MarkerEnd(t, at.value, BEGIN).value);
      [Block(at.value, end)] + Blocks(t, end)
  }

  /** The redaction of the text from position `i` on. */
  function Redact(t: string, i: nat): string
    requires i <= |t|
    decreases |t| - i
  {
    var begin := Search(t, i, BEGIN);
    if begin.None? then t[i..]
    else
      var end := Search(t, MarkerEnd(t, begin.value, BEGIN).value, END);
      t[i..begin.value] + REDACTED +
      if end.None? then ""
      else Redact(t, MarkerEnd(t, end.value, END).value)
  }

  /** `_redact_pem_blocks`. */
  method RedactPemBlocks(text: string) returns (result: string)
    ensures result == Redact(text, 0)
  {
    var parts, position, more := "", 0, true;
    ghost var whole := Redact(text, 0);
    assert "" + whole == whole;
    while more
      invariant position <= |text|
      invariant whole == parts + if more then Redact(text, position) else ""
      decreases more, |text| - position
    {
      var begin := Search(text, position, BEGIN);
      if begin.None? {
        parts := parts + text[position..];
        more := false;
      } else {
        var end := Search(text, MarkerEnd(text, begin.value, BEGIN).value, END);
        ghost var rest := if end.None? then "" else Redact(text, MarkerEnd(text, end.value, END).value);
        Regroup(parts, text[position..begin.value], rest);
        parts := parts + text[position..begin.value] + REDACTED;
        if end.None? {
          more := false;
        } else {
          position := MarkerEnd(text, end.value, END).value;
        }
      }
    }
    return parts;
  }

  lemma Regroup(a: string, b: string, c: string)
    ensures a + (b + REDACTED + c) == a + b + REDACTED + c
  {
  }

  // ---- The blocks are determined by the text, and redaction covers exactly them

  lemma SearchMeaning(t: string, i: nat, p: string)
    requires i <= |t|
    ensures var at := Search(t, i, p);
      if at.None? then NoneFrom(t, i, p)
      else
        && NoneIn(t, i, at.value, p)
        && IsMarker(t, at.value, MarkerEnd(t, at.value, p).value, p)
  {
    var at := Search(t, i, p);
    var bound := if at.Some? then at.value else |t| + 1;
    forall k: nat, e: nat | i <= k < bound ensures !IsMarker(t, k, e, p) {
      MarkerEndMeaning(t, k, e, p);
    }
    if at.Some? {
      MarkerEndMeaning(t, at.value, MarkerEnd(t, at.value, p).value, p);
    }
  }

  lemma BlockEndMeaning(t: string, m: nat)
    requires m <= |t|
    ensures EndsAt(t, m, BlockEnd(t, m))
  {
    SearchMeaning(t, m, END);
  }

  lemma {:induction false} BlocksExist(t: string, i: nat)
    requires i <= |t|
    ensures AreBlocks(t, i, Blocks(t, i))
    decreases |t| - i
  {
    SearchMeaning(t, i, BEGIN);
    var at := Search(t, i, BEGIN);
    if at.Some? {
      var m := MarkerEnd(t, at.value, BEGIN).value;
      BlockEndMeaning(t, m);
      BlocksExist(t, BlockEnd(t, m));
      assert IsBlock(t, Block(at.value, BlockEnd(t, m)));
    }
  }

  /** Two first markers begin at the same place and end at the same place. */
  lemma FirstIsUnique(t: string, i: nat, a: nat, b: nat, d: nat, e: nat, p: string)
    requires i <= a && i <= b && NoneIn(t, i, a, p) && NoneIn(t, i, b, p)
    requires IsMarker(t, a, d, p) && IsMarker(t, b, e, p)
    ensures a == b && d == e
  {
    MarkerEndMeaning(t, a, d, p);
    MarkerEndMeaning(t, b, e, p);
  }

  lemma EndIsUnique(t: string, m: nat, d: nat, e: nat)
    requires EndsAt(t, m, d) && EndsAt(t, m, e)
    ensures d == e
  {
    if !NoneFrom(t, m, END) {
      var a :| m <= a && NoneIn(t, m, a, END) && IsMarker(t, a, d, END);
      var b :| m <= b && NoneIn(t, m, b, END) && IsMarker(t, b, e, END);
      FirstIsUnique(t, m, a, b, d, e, END);
    } else {
      assert d == |t| && e == |t|;
    }
  }

  lemma BlocksBegin(t: string, i: nat, blocks: seq<Block>)
    requires AreBlocks(t, i, blocks)
    ensures blocks == [] <==> NoneFrom(t, i, BEGIN)
  {
  }

  /** A text has exactly one division into blocks. */
  lemma {:induction false} BlocksAreUnique(t: string, i: nat, a: seq<Block>, b: seq<Block>)
    requires AreBlocks(t, i, a) && AreBlocks(t, i, b)
    ensures a == b
    decreases |a|
  {
    BlocksBegin(t, i, a);
    BlocksBegin(t, i, b);
    if a != [] {
      var m :| IsMarker(t, a[0].begin, m, BEGIN) && EndsAt(t, m, a[0].end);
      var n :| IsMarker(t, b[0].begin, n, BEGIN) && EndsAt(t, n, b[0].end);
      FirstIsUnique(t, i, a[0].begin, b[0].begin, m, n, BEGIN);
      EndIsUnique(t, m, a[0].end, b[0].end);
      BlocksAreUnique(t, a[0].end, a[1..], b[1..]);
      assert a == [a[0]] + a[1..] && b == [b[0]] + b[1..];
    }
  }

  /** The scan covers exactly the blocks, whichever way they are found, and keeps the rest. */
  lemma RedactCovers(t: string, blocks: seq<Block>)
    requires AreBlocks(t, 0, blocks)
    ensures Redact(t, 0) == Cover(t, 0, blocks)
  {
    BlocksExist(t, 0);
    BlocksAreUnique(t, 0, blocks, Blocks(t, 0));
    RedactIsCover(t, 0);
  }

  lemma {:induction false} RedactIsCover(t: string, i: nat)
    requires i <= |t|
    ensures Redact(t, i) == Cover(t, i, Blocks(t, i))
    decreases |t| - i
  {
    var at := Search(t, i, BEGIN);
    if at.Some? {
      var m := MarkerEnd(t, at.value, BEGIN).value;
      var end := BlockEnd(t, m);
      RedactIsCover(t, end);
      assert Blocks(t, i)[1..] == Blocks(t, end);
      if Search(t, m, END).None? {
        NothingAtEnd(t);
      }
    }
  }

  lemma NothingAtEnd(t: string)
    ensures Redact(t, |t|) == ""
  {
    assert MarkerEnd(t, |t|, BEGIN).None?;
    assert t[|t|..] == "";
  }

  // ---- What is kept

  /** Pieces of text with something between each two. */
  function Interleave(kept: seq<string>, between: seq<string>): string
    requires |kept| == |between| + 1
  {
    if between == [] then kept[0] else kept[0] + between[0] + Interleave(kept[1..], between[1..])
  }

  function BlockText(t: string, block: Block): string {
    if block.begin <= block.end <= |t| then t[block.begin..block.end] else ""
  }

  function BlockTexts(t: string, blocks: seq<Block>): (texts: seq<string>)
    ensures |texts| == |blocks| && forall k :: 0 <= k < |blocks| ==> texts[k] == BlockText(t, blocks[k])
  {
    seq(|blocks|, k requires 0 <= k < |blocks| => BlockText(t, blocks[k]))
  }

  function Placeholders(n: nat): (texts: seq<string>)
    ensures |texts| == n && forall k :: 0 <= k < n ==> texts[k] == REDACTED
  {
    seq(n, k => REDACTED)
  }

  lemma InterleaveCons(piece: string, tail: seq<string>, text: string, rest: seq<string>, all: seq<string>)
    requires |tail| == |rest| + 1 && all == [text] + rest
    ensures Interleave([piece] + tail, all) == piece + text + Interleave(tail, rest)
  {
    assert ([piece] + tail)[1..] == tail && all[1..] == rest;
  }

  lemma Sliced(t: string, i: nat, j: nat, k: nat)
    requires i <= j <= k <= |t|
    ensures t[i..] == t[i..j] + t[j..k] + t[k..]
  {
  }

  /** Stretches of the text from `i` on, in order. */
  ghost predicate Stretches(t: string, i: nat, blocks: seq<Block>)
    decreases |blocks|
  {
    i <= |t| && (blocks != [] ==> i <= blocks[0].begin <= blocks[0].end && Stretches(t, blocks[0].end, blocks[1..]))
  }

  lemma {:induction false} BlocksAreStretches(t: string, i: nat, blocks: seq<Block>)
    requires i <= |t| && AreBlocks(t, i, blocks)
    ensures Stretches(t, i, blocks)
    decreases |blocks|
  {
    if blocks != [] {
      BlocksAreStretches(t, blocks[0].end, blocks[1..]);
    }
  }

  lemma {:induction false} CoverInterleaves(t: string, i: nat, blocks: seq<Block>) returns (kept: seq<string>)
    requires Stretches(t, i, blocks)
    ensures |kept| == |blocks| + 1
    ensures t[i..] == Interleave(kept, BlockTexts(t, blocks))
    ensures Cover(t, i, blocks) == Interleave(kept, Placeholders(|blocks|))
    decreases |blocks|
  {
    if blocks == [] {
      kept := [t[i..]];
    } else {
      var b, rest := blocks[0], blocks[1..];
      var piece := t[i..b.begin];
      var tail := CoverInterleaves(t, b.end, rest);
      kept := [piece] + tail;
      assert b.end <= |t|;
      assert BlockTexts(t, blocks) == [BlockText(t, b)] + BlockTexts(t, rest);
      InterleaveCons(piece, tail, BlockText(t, b), BlockTexts(t, rest), BlockTexts(t, blocks));
      assert Placeholders(|blocks|) == [REDACTED] + Placeholders(|rest|);
      InterleaveCons(piece, tail, REDACTED, Placeholders(|rest|), Placeholders(|blocks|));
      Sliced(t, i, b.begin, b.end);
    }
  }

  /** The text and its redaction are the same pieces in the same order: between them the blocks, or a placeholder for each. */
  lemma RedactReplacesBlocks(t: string, blocks: seq<Block>)
    requires AreBlocks(t, 0, blocks)
    ensures exists kept: seq<string> {:trigger Interleave(kept, BlockTexts(t, blocks))} ::
      && |kept| == |blocks| + 1
      && t == Interleave(kept, BlockTexts(t, blocks))
      && Redact(t, 0) == Interleave(kept, Placeholders(|blocks|))
  {
    RedactCovers(t, blocks);
    BlocksAreStretches(t, 0, blocks);
    var kept := CoverInterleaves(t, 0, blocks);
    assert t[0..] == t;
  }

  // ---- No marker is left

  predicate IsMarkerChar(c: char) {
    IsLabelChar(c) || c == '-'
  }

  lemma MarkerChars(t: string, i: nat, j: nat, k: nat, p: string)
    requires IsMarker(t, i, j, p) && i <= k < j && forall n :: 0 <= n < |p| ==> IsMarkerChar(p[n])
    ensures IsMarkerChar(t[k])
  {
    if k < i + |p| {
      assert t[i + (k - i)] == p[k - i];
    }
  }

  /** A marker depends only on the characters it covers. */
  lemma MarkerMoves(s: string, t: string, i: nat, j: nat, d: nat, p: string)
    requires IsMarker(s, i, j, p) && d + j <= |t| && forall k :: i <= k < j ==> t[d + k] == s[k]
    ensures IsMarker(t, d + i, d + j, p)
  {
    forall k | 0 <= k < |p| ensures t[d + i + k] == p[k] {
      assert t[d + (i + k)] == s[i + k];
    }
    forall k | d + i + |p| <= k < d + j - DASHES ensures IsLabelChar(t[k]) {
      assert t[d + (k - d)] == s[k - d];
    }
    forall k | d + j - DASHES <= k < d + j ensures t[k] == '-' {
      assert t[d + (k - d)] == s[k - d];
    }
  }

  ghost predicate Free(t: string, p: string) {
    forall i: nat, j: nat :: !IsMarker(t, i, j, p)
  }

  /** A marker cannot reach into text without marker characters. */
  lemma FreeAcross(a: string, b: string, c: string, p: string)
    requires b != "" && (forall k :: 0 <= k < |b| ==> !IsMarkerChar(b[k])) && (forall n :: 0 <= n < |p| ==> IsMarkerChar(p[n]))
    requires Free(a, p) && Free(c, p)
    ensures Free(a + b + c, p)
  {
    var t := a + b + c;
    forall i: nat, j: nat ensures !IsMarker(t, i, j, p) {
      if IsMarker(t, i, j, p) {
        if j <= |a| {
          MarkerInside(t, a, i, j, 0, p);
        } else if |a| + |b| <= i {
          MarkerInside(t, c, i, j, |a| + |b|, p);
        } else {
          var k := if i < |a| then |a| else i;
          assert t[k] == b[k - |a|];
          MarkerChars(t, i, j, k, p);
        }
      }
    }
  }

  /** A marker inside a part of the text is a marker of that part. */
  lemma MarkerInside(t: string, s: string, i: nat, j: nat, d: nat, p: string)
    requires IsMarker(t, i, j, p) && d <= i && j <= d + |s| && d + |s| <= |t| && forall k :: 0 <= k < |s| ==> t[d + k] == s[k]
    ensures IsMarker(s, i - d, j - d, p)
  {
    forall k | 0 <= k < |p| ensures s[i - d + k] == p[k] {
      assert t[d + (i - d + k)] == s[i - d + k];
      assert t[i + k] == p[k];
    }
    forall k | i - d + |p| <= k < j - d - DASHES ensures IsLabelChar(s[k]) {
      assert t[d + k] == s[k];
    }
    forall k | j - d - DASHES <= k < j - d ensures s[k] == '-' {
      assert t[d + k] == s[k];
    }
  }

  lemma KeptIsFree(t: string, i: nat, j: nat, p: string)
    requires i <= j <= |t| && NoneIn(t, i, j, p)
    ensures Free(t[i..j], p)
  {
    var s := t[i..j];
    forall b: nat, e: nat ensures !IsMarker(s, b, e, p) {
      if IsMarker(s, b, e, p) {
        MarkerMoves(s, t, b, e, i, p);
      }
    }
  }

  lemma {:induction false} CoverIsFree(t: string, i: nat, blocks: seq<Block>)
    requires i <= |t| && AreBlocks(t, i, blocks)
    ensures Free(Cover(t, i, blocks), BEGIN)
    decreases |blocks|
  {
    if blocks == [] {
      KeptIsFree(t, i, |t|, BEGIN);
      assert t[i..|t|] == t[i..];
    } else {
      KeptIsFree(t, i, blocks[0].begin, BEGIN);
      CoverIsFree(t, blocks[0].end, blocks[1..]);
      FreeAcross(t[i..blocks[0].begin], REDACTED, Cover(t, blocks[0].end, blocks[1..]), BEGIN);
    }
  }

  /** No BEGIN marker is left in the output of any text. */
  lemma NoMarkerLeft(t: string)
    ensures Free(Redact(t, 0), BEGIN)
  {
    BlocksExist(t, 0);
    RedactIsCover(t, 0);
    CoverIsFree(t, 0, Blocks(t, 0));
  }

  /** A text without a BEGIN marker is left alone, and no other text is. */
  lemma RedactKeeps(t: string)
    ensures Redact(t, 0) == t <==> Free(t, BEGIN)
  {
    if Free(t, BEGIN) {
      assert AreBlocks(t, 0, []);
      RedactCovers(t, []);
      assert t[0..] == t;
    }
    if Redact(t, 0) == t {
      NoMarkerLeft(t);
    }
  }

  /** A second pass changes nothing. */
  lemma RedactTwice(t: string)
    ensures Redact(Redact(t, 0), 0) == Redact(t, 0)
  {
    NoMarkerLeft(t);
    RedactKeeps(Redact(t, 0));
  }
}
