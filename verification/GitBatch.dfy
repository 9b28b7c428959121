/** The parser of `git cat-file --batch` output, with Python's own slicing, searching and number syntax. */
module GitBatch {
  import opened Basics
  import opened Bytes
  import Decimal

  const NEWLINE: Byte := 10
  const SPACE: Byte := 32
  const BLOB: seq<Byte> := [98, 108, 111, 98]

  type Text = seq<Byte>

  // ---- Python's view of byte strings

  /** A slice bound: negative bounds count from the end, and all are clipped. */
  function Clip(i: int, n: nat): (k: nat)
    ensures k <= n && (0 <= i <= n ==> k == i)
  {
    if i < 0 then Max(i + n, 0) else Min(i, n)
  }

  function Slice(s: Text, i: int, j: int): Text {
    var a, b := Clip(i, |s|), Clip(j, |s|);
    if a < b then s[a..b] else []
  }

  /** The first newline at or after `k`, or -1. */
  function FindFrom(s: Text, k: nat): (at: int)
    requires k <= |s|
    ensures at == -1 || k <= at < |s|
    decreases |s| - k
  {
    if k == |s| then -1 else if s[k] == NEWLINE then k else FindFrom(s, k + 1)
  }

  /** `s.find(b"\n", start)`. */
  function Find(s: Text, start: int): int {
    if start > |s| then -1 else FindFrom(s, Clip(start, |s|))
  }

  predicate IsSpace(b: Byte) {
    b == 32 || 9 <= b <= 13
  }

  function WordEnd(s: Text, k: nat): (end: nat)
    requires k <= |s|
    ensures k <= end <= |s|
    decreases |s| - k
  {
    if k == |s| || IsSpace(s[k]) then k else WordEnd(s, k + 1)
  }

  /** `s.split()`. */
  function Words(s: Text): seq<Text> {
    if s == [] then []
    else if IsSpace(s[0]) then Words(s[1..])
    else
      var end := WordEnd(s, 1);
      [s[..end]] + Words(s[end..])
  }

  /** The digit values of a numeral whose digits may be separated by single underscores. */
  function Numeral(s: Text): Option<seq<nat>> {
    var n := |s| - 1;
    if n < 0 || !(48 <= s[n] <= 57) then None
    else if n == 0 then Some([s[n] - 48])
    else
      match Numeral(if s[n - 1] == 95 then s[..n - 1] else s[..n])
      case None => None
      case Some(digits) => Some(digits + [s[n] - 48])
  }

  /** `int(raw)`. */
  function IntText(raw: Text): Option<int> {
    var signed := raw != [] && (raw[0] == 43 || raw[0] == 45);
    match Numeral(if signed then raw[1..] else raw)
    case None => None
    case Some(digits) =>
      var n: int := Decimal.Number(digits);
      Some(if signed && raw[0] == 45 then -n else n)
  }

  // ---- The parser

  datatype Record = Record(id: Text, size: int, data: Text)

  datatype Error = NoHeader | Malformed | Invalid | Trailing

  /** One header line: its object, type and size. */
  function Header(line: Text): Option<(Text, Text, int)> {
    var words := Words(line);
    if |words| != 3 then None
    else
      match IntText(words[2])
      case None => None
      case Some(size) => Some((words[0], words[1], size))
  }

  /** One record at an offset, and the offset after it. */
  function Step(out: Text, id: Text, offset: int): Result<(Record, int), Error> {
    var end := Find(out, offset);
    if end < 0 then Err(NoHeader) else StepBehind(out, id, end + 1, Header(Slice(out, offset, end)))
  }

  /** The record whose header was read just before `start`. */
  function StepBehind(out: Text, id: Text, start: int, header: Option<(Text, Text, int)>): Result<(Record, int), Error> {
    match header
    case None => Err(Malformed)
    case Some((name, kind, size)) =>
      var stop := start + size;
      if name != id || kind != BLOB || stop >= |out| || Slice(out, stop, stop + 1) != [NEWLINE] then Err(Invalid)
      else Ok((Record(id, size, Slice(out, start, stop)), stop + 1))
  }

  /** Reads the record of an object at an offset, and tells the offset after it. */
  type Reader = (Text, int) -> Result<(Record, int), Error>

  function ReaderOf(out: Text): Reader {
    (id, offset) => Step(out, id, offset)
  }

  /** One record per object, one after the other, ending at `size`. */
  function ReadAll(read: Reader, ids: seq<Text>, offset: int, size: int): Result<seq<Record>, Error> {
    if ids == [] then if offset == size then Ok([]) else Err(Trailing)
    else
      match read(ids[0], offset)
      case Err(e) => Err(e)
      case Ok((record, next)) => Cons(record, ReadAll(read, ids[1..], next, size))
  }

  function Parse(out: Text, ids: seq<Text>): Result<seq<Record>, Error> {
    ReadAll(ReaderOf(out), ids, 0, |out|)
  }

  function Cons(record: Record, rest: Result<seq<Record>, Error>): Result<seq<Record>, Error> {
    match rest
    case Err(e) => Err(e)
    case Ok(records) => Ok([record] + records)
  }

  /** The dictionary a list of records fills. */
  function Blobs(records: seq<Record>): map<Text, Text> {
    if records == [] then map[]
    else Blobs(records[..|records| - 1])[records[|records| - 1].id := records[|records| - 1].data]
  }

  function Append(done: seq<Record>, rest: Result<seq<Record>, Error>): Result<seq<Record>, Error> {
    match rest
    case Err(e) => Err(e)
    case Ok(records) => Ok(done + records)
  }

  /** `_git_blobs` on the output of Git. */
  method GitBlobs(out: Text, ids: seq<Text>) returns (blobs: Result<map<Text, Text>, Error>)
    ensures ids == [] ==> blobs == Ok(map[])
    ensures ids != [] ==> blobs == match Parse(out, ids) case Ok(records) => Ok(Blobs(records)) case Err(e) => Err(e)
  {
    if ids == [] {
      return Ok(map[]);
    }
    var filled: map<Text, Text>, offset, k := map[], 0, 0;
    ghost var done, read := [], ReaderOf(out);
    ghost var whole := ReadAll(read, ids, 0, |out|);
    assert ids[0..] == ids;
    AppendNothing(whole);
    while k < |ids|
      invariant 0 <= k <= |ids|
      invariant filled == Blobs(done) && whole == Append(done, ReadAll(read, ids[k..], offset, |out|))
    {
      assert ids[k..][0] == ids[k] && ids[k..][1..] == ids[k + 1..];
      var step := Step(out, ids[k], offset);
      assert step == read(ids[k], offset);
      if step.Err? {
        return Err(step.error);
      }
      var record := step.value.0;
      AppendCons(done, record, ReadAll(read, ids[k + 1..], step.value.1, |out|));
      assert (done + [record])[..|done|] == done;
      done := done + [record];
      filled := filled[record.id := record.data];
      offset := step.value.1;
      k := k + 1;
    }
    if offset != |out| {
      return Err(Trailing);
    }
    assert done + [] == done;
    return Ok(filled);
  }

  lemma AppendNothing(rest: Result<seq<Record>, Error>)
    ensures Append([], rest) == rest
  {
    if rest.Ok? {
      assert [] + rest.value == rest.value;
    }
  }

  lemma AppendCons(done: seq<Record>, record: Record, rest: Result<seq<Record>, Error>)
    ensures Append(done, Cons(record, rest)) == Append(done + [record], rest)
  {
    if rest.Ok? {
      assert done + ([record] + rest.value) == (done + [record]) + rest.value;
    }
  }

  // ---- Records that tile the output

  datatype Entry = Entry(line: Text, data: Text)

  function EmitOne(entry: Entry): Text {
    entry.line + [NEWLINE] + entry.data + [NEWLINE]
  }

  function Emit(entries: seq<Entry>): Text {
    if entries == [] then [] else EmitOne(entries[0]) + Emit(entries[1..])
  }

  /** The header of an entry names the object and the length of its data. */
  predicate Announces(entry: Entry, id: Text) {
    NEWLINE !in entry.line && Header(entry.line) == Some((id, BLOB, |entry.data|))
  }

  /** The entries, one per object and in order, are the whole output. */
  predicate Tiles(out: Text, ids: seq<Text>, entries: seq<Entry>) {
    && |entries| == |ids| && out == Emit(entries)
    && forall i :: 0 <= i < |ids| ==> Announces(entries[i], ids[i])
  }

  function RecordOf(id: Text, entry: Entry): Record {
    Record(id, |entry.data|, entry.data)
  }

  function RecordsOf(ids: seq<Text>, entries: seq<Entry>): (records: seq<Record>)
    requires |ids| == |entries|
    ensures |records| == |ids| && forall i :: 0 <= i < |ids| ==> records[i] == RecordOf(ids[i], entries[i])
  {
    if ids == [] then [] else [RecordOf(ids[0], entries[0])] + RecordsOf(ids[1..], entries[1..])
  }

  /** A header line stands at this offset of the output. */
  ghost predicate LineStandsAt(out: Text, line: Text, offset: nat) {
    Find(out, offset) == offset + |line| && Slice(out, offset, offset + |line|) == line
  }

  /** Data that ends with a newline stands at this offset of the output. */
  ghost predicate DataStandsAt(out: Text, data: Text, start: nat) {
    var stop := start + |data|;
    stop < |out| && Slice(out, start, stop) == data && Slice(out, stop, stop + 1) == [NEWLINE]
  }

  ghost predicate StandsAt(out: Text, entry: Entry, offset: nat) {
    LineStandsAt(out, entry.line, offset) && DataStandsAt(out, entry.data, offset + |entry.line| + 1)
  }

  lemma FindLine(out: Text, line: Text, offset: nat)
    requires offset + |line| < |out| && out[offset..offset + |line|] == line && NEWLINE !in line
    requires out[offset + |line|] == NEWLINE
    ensures Find(out, offset) == offset + |line|
  {
    forall i | offset <= i < offset + |line| ensures out[i] != NEWLINE {
      assert out[i] == line[i - offset];
    }
    FindsFirst(out, offset, offset + |line|);
  }

  lemma SliceIs(s: Text, i: nat, j: nat)
    requires i <= j <= |s|
    ensures Slice(s, i, j) == s[i..j]
  {
  }

  lemma LineStands(before: Text, line: Text, rest: Text)
    requires NEWLINE !in line
    ensures LineStandsAt(before + line + [NEWLINE] + rest, line, |before|)
  {
    var out := before + line + [NEWLINE] + rest;
    assert out[|before|..|before| + |line|] == line;
    FindLine(out, line, |before|);
    SliceIs(out, |before|, |before| + |line|);
  }

  lemma DataStands(before: Text, data: Text, rest: Text)
    ensures DataStandsAt(before + data + [NEWLINE] + rest, data, |before|)
  {
    var out, stop := before + data + [NEWLINE] + rest, |before| + |data|;
    SliceIs(out, |before|, stop);
    SliceIs(out, stop, stop + 1);
    assert out[|before|..stop] == data && out[stop..stop + 1] == [NEWLINE];
  }

  lemma EmittedParts(before: Text, entry: Entry, after: Text)
    requires NEWLINE !in entry.line
    ensures StandsAt(before + EmitOne(entry) + after, entry, |before|) && |EmitOne(entry)| == |entry.line| + |entry.data| + 2
  {
    var out, line, data := before + EmitOne(entry) + after, entry.line, entry.data;
    LineStands(before, line, data + [NEWLINE] + after);
    assert out == before + line + [NEWLINE] + (data + [NEWLINE] + after);
    DataStands(before + line + [NEWLINE], data, after);
    assert out == (before + line + [NEWLINE]) + data + [NEWLINE] + after;
  }

  /** One entry is read back, whatever its data contains. */
  lemma StepComplete(out: Text, entry: Entry, offset: nat, id: Text)
    requires StandsAt(out, entry, offset) && Announces(entry, id)
    ensures Step(out, id, offset) == Ok((RecordOf(id, entry), offset + |entry.line| + |entry.data| + 2))
  {
  }

  /** What is found is the first newline. */
  lemma {:induction false} FindMeaning(s: Text, k: nat)
    requires k <= |s|
    ensures
      var at := FindFrom(s, k);
      && (at >= 0 ==> s[at] == NEWLINE)
      && forall i :: k <= i < (if at < 0 then |s| else at) ==> s[i] != NEWLINE
    decreases |s| - k
  {
    if k < |s| && s[k] != NEWLINE {
      FindMeaning(s, k + 1);
    }
  }

  lemma {:induction false} FindsFirst(s: Text, k: nat, end: nat)
    requires k <= end < |s| && s[end] == NEWLINE && forall i :: k <= i < end ==> s[i] != NEWLINE
    ensures FindFrom(s, k) == end
    decreases end - k
  {
    if k < end {
      FindsFirst(s, k + 1, end);
    }
  }

  /** Reading succeeds exactly when the records follow each other to the end; `offsets` are where they begin. */
  ghost predicate Chained(read: Reader, ids: seq<Text>, records: seq<Record>, offsets: seq<int>) {
    && |records| == |ids| && |offsets| == |ids| + 1
    && forall i :: 0 <= i < |ids| ==> read(ids[i], offsets[i]) == Ok((records[i], offsets[i + 1]))
  }

  lemma {:induction false} ChainReads(read: Reader, ids: seq<Text>, records: seq<Record>, offsets: seq<int>)
    requires Chained(read, ids, records, offsets)
    ensures ReadAll(read, ids, offsets[0], offsets[|ids|]) == Ok(records)
    decreases |ids|
  {
    if ids != [] {
      var tail := offsets[1..];
      assert tail[0] == offsets[1] && tail[|ids| - 1] == offsets[|ids|];
      assert forall i :: 0 <= i < |ids| - 1 ==> ids[1..][i] == ids[i + 1] && records[1..][i] == records[i + 1] && tail[i] == offsets[i + 1];
      ChainReads(read, ids[1..], records[1..], tail);
      assert records == [records[0]] + records[1..];
    }
  }

  lemma {:induction false} ReadsChain(read: Reader, ids: seq<Text>, offset: int, size: int) returns (offsets: seq<int>)
    requires ReadAll(read, ids, offset, size).Ok?
    ensures Chained(read, ids, ReadAll(read, ids, offset, size).value, offsets)
    ensures offsets[0] == offset && offsets[|ids|] == size
    decreases |ids|
  {
    if ids == [] {
      offsets := [offset];
    } else {
      var (record, next) := read(ids[0], offset).value;
      var records, more := ReadAll(read, ids, offset, size).value, ReadAll(read, ids[1..], next, size).value;
      var tail := ReadsChain(read, ids[1..], next, size);
      offsets := [offset] + tail;
      assert records == [record] + more;
      forall i | 0 <= i < |ids| ensures read(ids[i], offsets[i]) == Ok((records[i], offsets[i + 1])) {
        if i > 0 {
          assert ids[i] == ids[1..][i - 1] && records[i] == more[i - 1] && offsets[i] == tail[i - 1];
        }
      }
    }
  }

  /** Where each entry begins, and where the last one ends. */
  function Starts(entries: seq<Entry>, n: nat): (starts: seq<int>)
    requires n <= |entries|
    ensures |starts| == n + 1 && forall i :: 0 <= i <= n ==> starts[i] == |Emit(entries[..i])|
  {
    if n == 0 then [0] else Starts(entries, n - 1) + [|Emit(entries[..n])|]
  }

  lemma {:induction false} EmitSplit(entries: seq<Entry>, i: nat)
    requires i < |entries|
    ensures Emit(entries) == Emit(entries[..i]) + EmitOne(entries[i]) + Emit(entries[i + 1..])
    ensures Emit(entries[..i + 1]) == Emit(entries[..i]) + EmitOne(entries[i])
  {
    EmitConcat(entries[..i + 1], entries[i + 1..]);
    assert entries == entries[..i + 1] + entries[i + 1..];
    EmitConcat(entries[..i], [entries[i]]);
    assert entries[..i + 1] == entries[..i] + [entries[i]];
    assert [entries[i]][1..] == [] && Emit([entries[i]]) == EmitOne(entries[i]) + Emit([]);
  }

  lemma {:induction false} EmitConcat(a: seq<Entry>, b: seq<Entry>)
    ensures Emit(a + b) == Emit(a) + Emit(b)
  {
    if a == [] {
      assert a + b == b;
    } else {
      EmitConcat(a[1..], b);
      assert (a + b)[1..] == a[1..] + b;
      Associate(EmitOne(a[0]), Emit(a[1..]), Emit(b));
    }
  }

  lemma Associate(a: Text, b: Text, c: Text)
    ensures a + (b + c) == (a + b) + c
  {
  }

  lemma ReadsEntry(out: Text, ids: seq<Text>, entries: seq<Entry>, i: nat)
    requires Tiles(out, ids, entries) && i < |ids|
    ensures ReaderOf(out)(ids[i], |Emit(entries[..i])|) == Ok((RecordOf(ids[i], entries[i]), |Emit(entries[..i + 1])|))
  {
    EntryStands(entries, i);
    assert Announces(entries[i], ids[i]);
    StepComplete(out, entries[i], |Emit(entries[..i])|, ids[i]);
  }

  lemma EntryStands(entries: seq<Entry>, i: nat)
    requires i < |entries| && NEWLINE !in entries[i].line
    ensures StandsAt(Emit(entries), entries[i], |Emit(entries[..i])|)
    ensures |Emit(entries[..i + 1])| == |Emit(entries[..i])| + |entries[i].line| + |entries[i].data| + 2
  {
    EmitSplit(entries, i);
    EmittedParts(Emit(entries[..i]), entries[i], Emit(entries[i + 1..]));
  }

  lemma TilingChains(out: Text, ids: seq<Text>, entries: seq<Entry>, read: Reader)
    requires Tiles(out, ids, entries) && read == ReaderOf(out)
    ensures Chained(read, ids, RecordsOf(ids, entries), Starts(entries, |ids|))
    ensures Starts(entries, |ids|)[|ids|] == |out|
  {
    var records, starts := RecordsOf(ids, entries), Starts(entries, |ids|);
    forall i | 0 <= i < |ids| ensures read(ids[i], starts[i]) == Ok((records[i], starts[i + 1])) {
      ReadsEntry(out, ids, entries, i);
    }
    assert entries[..|ids|] == entries;
  }

  /** Where a record with a size that is not negative lies in the output. */
  lemma StepParts(out: Text, id: Text, offset: nat)
    requires offset <= |out| && Step(out, id, offset).Ok? && Step(out, id, offset).value.0.size >= 0
    ensures
      var end, next := Find(out, offset), Step(out, id, offset).value.1;
      && offset <= end < next - 1 < |out| && out[end] == NEWLINE && out[next - 1] == NEWLINE
      && NEWLINE !in out[offset..end] && Header(out[offset..end]) == Some((id, BLOB, next - end - 2))
      && Step(out, id, offset).value.0 == Record(id, next - end - 2, out[end + 1..next - 1])
  {
    var end, next := Find(out, offset), Step(out, id, offset).value.1;
    FindMeaning(out, offset);
    SliceIs(out, offset, end);
    SliceIs(out, end + 1, next - 1);
    SliceIs(out, next - 1, next);
    assert out[next - 1..next][0] == out[next - 1];
  }

  lemma EntryBetween(out: Text, offset: nat, end: nat, next: nat)
    requires offset <= end < next - 1 < |out| && out[end] == NEWLINE && out[next - 1] == NEWLINE
    ensures out[offset..next] == EmitOne(Entry(out[offset..end], out[end + 1..next - 1]))
  {
    assert out[offset..next] == out[offset..end] + [out[end]] + out[end + 1..next - 1] + [out[next - 1]];
  }

  /** A record with a size that is not negative is exactly one entry of the output. */
  lemma StepSound(out: Text, id: Text, offset: nat) returns (entry: Entry)
    requires offset <= |out| && Step(out, id, offset).Ok? && Step(out, id, offset).value.0.size >= 0
    ensures var (record, next) := Step(out, id, offset).value;
      && Announces(entry, id) && record == RecordOf(id, entry)
      && offset <= next <= |out| && out[offset..next] == EmitOne(entry)
  {
    StepParts(out, id, offset);
    var end, next := Find(out, offset), Step(out, id, offset).value.1;
    entry := Entry(out[offset..end], out[end + 1..next - 1]);
    EntryBetween(out, offset, end, next);
  }

  lemma {:induction false} ChainTiles(out: Text, ids: seq<Text>, records: seq<Record>, offsets: seq<int>) returns (entries: seq<Entry>)
    requires Chained(ReaderOf(out), ids, records, offsets) && NoNegativeSize(records)
    requires 0 <= offsets[0] <= |out| && offsets[|ids|] == |out|
    ensures Tiles(out[offsets[0]..], ids, entries) && records == RecordsOf(ids, entries)
    decreases |ids|
  {
    if ids == [] {
      entries := [];
    } else {
      assert ReaderOf(out)(ids[0], offsets[0]) == Ok((records[0], offsets[1]));
      var entry := StepSound(out, ids[0], offsets[0]);
      var tail, next := offsets[1..], offsets[1];
      ChainTail(ReaderOf(out), ids, records, offsets);
      var rest := ChainTiles(out, ids[1..], records[1..], tail);
      entries := [entry] + rest;
      TilesCons(out, ids, entries, offsets[0], next);
    }
  }

  lemma ChainTail(read: Reader, ids: seq<Text>, records: seq<Record>, offsets: seq<int>)
    requires ids != [] && Chained(read, ids, records, offsets)
    ensures Chained(read, ids[1..], records[1..], offsets[1..]) && offsets[1..][|ids| - 1] == offsets[|ids|]
    ensures NoNegativeSize(records) ==> NoNegativeSize(records[1..])
  {
    assert forall i :: 0 <= i < |ids| - 1 ==> ids[1..][i] == ids[i + 1] && records[1..][i] == records[i + 1];
    assert forall i :: 0 <= i < |ids| ==> offsets[1..][i] == offsets[i + 1];
  }

  lemma TilesCons(out: Text, ids: seq<Text>, entries: seq<Entry>, offset: nat, next: nat)
    requires ids != [] && |entries| == |ids| && Announces(entries[0], ids[0])
    requires offset <= next <= |out| && out[offset..next] == EmitOne(entries[0])
    requires Tiles(out[next..], ids[1..], entries[1..])
    ensures Tiles(out[offset..], ids, entries)
  {
    assert out[offset..] == out[offset..next] + out[next..];
    forall i | 0 < i < |ids| ensures Announces(entries[i], ids[i]) {
      assert entries[i] == entries[1..][i - 1] && ids[i] == ids[1..][i - 1];
    }
  }

  // ---- What success means

  predicate NoNegativeSize(records: seq<Record>) {
    forall i :: 0 <= i < |records| ==> records[i].size >= 0
  }

  lemma ParseTiling(out: Text, ids: seq<Text>, entries: seq<Entry>)
    requires Tiles(out, ids, entries)
    ensures Parse(out, ids) == Ok(RecordsOf(ids, entries)) && NoNegativeSize(RecordsOf(ids, entries))
  {
    TilingChains(out, ids, entries, ReaderOf(out));
    ChainReads(ReaderOf(out), ids, RecordsOf(ids, entries), Starts(entries, |ids|));
  }

  /** Success with no negative size is exactly a tiling of the whole output. */
  lemma TilesExactly(out: Text, ids: seq<Text>)
    ensures Parse(out, ids).Ok? && NoNegativeSize(Parse(out, ids).value) <==> exists entries :: Tiles(out, ids, entries)
  {
    if Parse(out, ids).Ok? && NoNegativeSize(Parse(out, ids).value) {
      var offsets := ReadsChain(ReaderOf(out), ids, 0, |out|);
      var entries := ChainTiles(out, ids, Parse(out, ids).value, offsets);
      assert out[0..] == out && Tiles(out, ids, entries);
    }
    forall entries | Tiles(out, ids, entries) ensures Parse(out, ids).Ok? && NoNegativeSize(Parse(out, ids).value) {
      ParseTiling(out, ids, entries);
    }
  }

  // ---- The same, by the bytes of the output

  /** A line of the output begins here. */
  predicate IsLineStart(out: Text, i: int) {
    0 <= i <= |out| && (i == 0 || out[i - 1] == NEWLINE)
  }

  /** Positions `a` to `b` are one line, without its newline. */
  predicate IsLine(out: Text, a: nat, b: nat) {
    a <= b < |out| && IsLineStart(out, a) && out[b] == NEWLINE && forall i :: a <= i < b ==> out[i] != NEWLINE
  }

  /** No line of the output, wherever it stands, reads as a header with a negative size. */
  ghost predicate NoNegativeHeader(out: Text) {
    forall a: nat, b: nat :: IsLine(out, a, b) && Header(out[a..b]).Some? ==> Header(out[a..b]).value.2 >= 0
  }

  /** A record that begins at a line has the size of that line's header and is followed by another line. */
  lemma StepFromLine(out: Text, id: Text, offset: int)
    requires NoNegativeHeader(out) && IsLineStart(out, offset) && Step(out, id, offset).Ok?
    ensures Step(out, id, offset).value.0.size >= 0 && IsLineStart(out, Step(out, id, offset).value.1)
  {
    var end := Find(out, offset);
    FindMeaning(out, offset);
    assert IsLine(out, offset, end);
    SliceIs(out, offset, end);
    var stop := Step(out, id, offset).value.1 - 1;
    assert Slice(out, stop, stop + 1) == [out[stop]];
  }

  /** From the start of a line this reader gets a size that is not negative, and to the start of another line. */
  ghost predicate KeepsLine(read: Reader, out: Text, id: Text, offset: int) {
    IsLineStart(out, offset) && read(id, offset).Ok? ==>
      read(id, offset).value.0.size >= 0 && IsLineStart(out, read(id, offset).value.1)
  }

  ghost predicate KeepsLines(read: Reader, out: Text) {
    forall id, offset :: KeepsLine(read, out, id, offset)
  }

  lemma ReaderKeepsLines(out: Text)
    requires NoNegativeHeader(out)
    ensures KeepsLines(ReaderOf(out), out)
  {
    forall id, offset ensures KeepsLine(ReaderOf(out), out, id, offset) {
      if IsLineStart(out, offset) && Step(out, id, offset).Ok? {
        StepFromLine(out, id, offset);
      }
    }
  }

  lemma {:induction false} ReadsNoNegativeSize(out: Text, read: Reader, ids: seq<Text>, records: seq<Record>, offsets: seq<int>, k: nat)
    requires KeepsLines(read, out) && Chained(read, ids, records, offsets) && offsets[0] == 0 && k <= |ids|
    ensures IsLineStart(out, offsets[k]) && NoNegativeSize(records[..k])
  {
    if k > 0 {
      ReadsNoNegativeSize(out, read, ids, records, offsets, k - 1);
      assert read(ids[k - 1], offsets[k - 1]) == Ok((records[k - 1], offsets[k - 1 + 1]));
      assert KeepsLine(read, out, ids[k - 1], offsets[k - 1]);
    }
  }

  /** If no line of the output reads as a header with a negative size, success is exactly a tiling. */
  lemma AcceptsExactlyTilings(out: Text, ids: seq<Text>)
    requires NoNegativeHeader(out)
    ensures Parse(out, ids).Ok? <==> exists entries :: Tiles(out, ids, entries)
  {
    TilesExactly(out, ids);
    if Parse(out, ids).Ok? {
      var records := Parse(out, ids).value;
      var offsets := ReadsChain(ReaderOf(out), ids, 0, |out|);
      ReaderKeepsLines(out);
      ReadsNoNegativeSize(out, ReaderOf(out), ids, records, offsets, |ids|);
      assert records[..|ids|] == records;
    }
  }

  // ---- The printer

  /** Object ids as Git prints them: no white space. */
  predicate IsToken(s: Text) {
    s != [] && forall i :: 0 <= i < |s| ==> !IsSpace(s[i])
  }

  function Ascii(digits: seq<nat>): (s: Text)
    requires forall i :: 0 <= i < |digits| ==> digits[i] < 10
    ensures |s| == |digits| && forall i :: 0 <= i < |s| ==> s[i] == 48 + digits[i]
  {
    if digits == [] then [] else [48 + digits[0]] + Ascii(digits[1..])
  }

  function Line(id: Text, size: nat): Text {
    id + [SPACE] + BLOB + [SPACE] + Ascii(Decimal.Digits(size))
  }

  function Entries(ids: seq<Text>, blobs: map<Text, Text>): (entries: seq<Entry>)
    requires forall i :: 0 <= i < |ids| ==> ids[i] in blobs
    ensures |entries| == |ids|
    ensures forall i :: 0 <= i < |ids| ==> entries[i] == Entry(Line(ids[i], |blobs[ids[i]]|), blobs[ids[i]])
  {
    if ids == [] then [] else [Entry(Line(ids[0], |blobs[ids[0]]|), blobs[ids[0]])] + Entries(ids[1..], blobs)
  }

  /** What Git prints for these objects: header, data and newline, one after the other. */
  function Print(ids: seq<Text>, blobs: map<Text, Text>): Text
    requires forall i :: 0 <= i < |ids| ==> ids[i] in blobs
  {
    Emit(Entries(ids, blobs))
  }

  lemma {:induction false} WordEndAt(s: Text, k: nat, end: nat)
    requires k <= end <= |s| && (forall i :: k <= i < end ==> !IsSpace(s[i])) && (end < |s| ==> IsSpace(s[end]))
    ensures WordEnd(s, k) == end
    decreases end - k
  {
    if k < end {
      WordEndAt(s, k + 1, end);
    }
  }

  lemma WordsToken(token: Text, rest: Text)
    requires IsToken(token) && (rest != [] ==> IsSpace(rest[0]))
    ensures Words(token + rest) == [token] + Words(rest)
  {
    var s := token + rest;
    WordEndAt(s, 1, |token|);
    assert s[..|token|] == token && s[|token|..] == rest;
  }

  lemma WordsSpace(rest: Text)
    ensures Words([SPACE] + rest) == Words(rest)
  {
    assert ([SPACE] + rest)[1..] == rest;
  }

  lemma ThreeWords(a: Text, b: Text, c: Text)
    requires IsToken(a) && IsToken(b) && IsToken(c)
    ensures Words(a + [SPACE] + b + [SPACE] + c) == [a, b, c]
  {
    var s := [SPACE] + c;
    var t := [SPACE] + (b + s);
    assert a + [SPACE] + b + [SPACE] + c == a + t;
    WordsToken(a, t);
    WordsSpace(b + s);
    WordsToken(b, s);
    WordsSpace(c);
    assert c + [] == c;
    WordsToken(c, []);
  }

  lemma {:induction false} NumeralOf(s: Text, digits: seq<nat>)
    requires |s| == |digits| > 0 && forall i :: 0 <= i < |s| ==> digits[i] < 10 && s[i] == 48 + digits[i]
    ensures Numeral(s) == Some(digits)
  {
    var n := |s| - 1;
    assert digits == digits[..n] + [digits[n]];
    if n > 0 {
      assert s[n - 1] != 95;
      NumeralOf(s[..n], digits[..n]);
    }
  }

  lemma IntOf(s: Text, digits: seq<nat>)
    requires |s| == |digits| > 0 && forall i :: 0 <= i < |s| ==> digits[i] < 10 && s[i] == 48 + digits[i]
    ensures IntText(s) == Some(Decimal.Number(digits))
  {
    NumeralOf(s, digits);
  }

  lemma IntAscii(n: nat)
    ensures IntText(Ascii(Decimal.Digits(n))) == Some(n)
  {
    IntOf(Ascii(Decimal.Digits(n)), Decimal.Digits(n));
    Decimal.NumberOfDigits(n);
  }

  lemma NoNewline(a: Text, b: Text)
    requires NEWLINE !in a && NEWLINE !in b
    ensures NEWLINE !in a + [SPACE] + BLOB + [SPACE] + b
  {
  }

  lemma PrintedLine(id: Text, data: Text)
    requires IsToken(id)
    ensures Announces(Entry(Line(id, |data|), data), id)
  {
    ThreeWords(id, BLOB, Ascii(Decimal.Digits(|data|)));
    IntAscii(|data|);
    NoNewline(id, Ascii(Decimal.Digits(|data|)));
  }

  lemma {:induction false} BlobsMeaning(records: seq<Record>, blobs: map<Text, Text>)
    requires forall i :: 0 <= i < |records| ==> records[i].id in blobs && records[i].data == blobs[records[i].id]
    ensures forall id :: id in Blobs(records) <==> exists i :: 0 <= i < |records| && records[i].id == id
    ensures forall id :: id in Blobs(records) ==> id in blobs && Blobs(records)[id] == blobs[id]
  {
    if records != [] {
      var front := records[..|records| - 1];
      BlobsMeaning(front, blobs);
      assert forall i :: 0 <= i < |front| ==> front[i] == records[i];
    }
  }

  lemma PrintTiles(ids: seq<Text>, blobs: map<Text, Text>)
    requires forall i :: 0 <= i < |ids| ==> ids[i] in blobs && IsToken(ids[i])
    ensures Tiles(Print(ids, blobs), ids, Entries(ids, blobs))
  {
    forall i | 0 <= i < |ids| ensures Announces(Entries(ids, blobs)[i], ids[i]) {
      PrintedLine(ids[i], blobs[ids[i]]);
    }
  }

  /** Parsing undoes printing for every set of blobs, whatever bytes they hold. */
  lemma ParseUndoesPrint(ids: seq<Text>, blobs: map<Text, Text>)
    requires forall id :: id in blobs <==> id in ids
    requires forall i :: 0 <= i < |ids| ==> IsToken(ids[i])
    ensures Parse(Print(ids, blobs), ids).Ok? && Blobs(Parse(Print(ids, blobs), ids).value) == blobs
  {
    PrintTiles(ids, blobs);
    ParseTiling(Print(ids, blobs), ids, Entries(ids, blobs));
    BlobsOfEntries(ids, blobs, RecordsOf(ids, Entries(ids, blobs)));
  }

  lemma BlobsOfEntries(ids: seq<Text>, blobs: map<Text, Text>, records: seq<Record>)
    requires (forall id :: id in blobs <==> id in ids) && |records| == |ids|
    requires forall i :: 0 <= i < |ids| ==> records[i].id == ids[i] && records[i].data == blobs[ids[i]]
    ensures Blobs(records) == blobs
  {
    BlobsMeaning(records, blobs);
    forall id | id in blobs ensures id in Blobs(records) {
      var i :| 0 <= i < |ids| && ids[i] == id;
      assert records[i].id == id;
    }
  }

  /** A negative size is accepted although nothing tiles the output: the header's newline ends the data as well. */
  lemma NegativeSizeAccepted(id: Text, out: Text)
    requires IsToken(id) && out == id + [SPACE] + BLOB + [SPACE] + [45, 49] + [NEWLINE]
    ensures Parse(out, [id]) == Ok([Record(id, -1, [])])
    ensures !exists entries :: Tiles(out, [id], entries)
  {
    var line: Text := id + [SPACE] + BLOB + [SPACE] + [45, 49];
    MinusOne(id, line);
    assert out == line + [NEWLINE];
    FindsFirst(out, 0, |line|);
    assert Slice(out, 0, |line|) == line;
    assert Step(out, id, 0) == Ok((Record(id, -1, []), |out|));
    ChainReads(ReaderOf(out), [id], [Record(id, -1, [])], [0, |out|]);
    TilesExactly(out, [id]);
    assert Parse(out, [id]).value[0].size < 0;
  }

  lemma MinusOne(id: Text, line: Text)
    requires IsToken(id) && line == id + [SPACE] + BLOB + [SPACE] + [45, 49]
    ensures Header(line) == Some((id, BLOB, -1)) && NEWLINE !in line
  {
    var raw: Text := [45, 49];
    ThreeWords(id, BLOB, raw);
    assert raw[1..] == [49] && Numeral([49]) == Some([1]);
    assert Decimal.Number([1]) == 1 by {
      assert [1][..0] == [];
    }
  }
}
