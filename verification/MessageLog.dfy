/** The bounded message buffer, and paging through it with cursors, related to the whole log. */
module MessageLog {
  import opened Basics
  import opened Picking
  import opened RelayState

  /** The last `BUFFER_CAPACITY` entries. */
  function Recent(log: seq<Entry>): seq<Entry> {
    if |log| <= BUFFER_CAPACITY then log else log[|log| - BUFFER_CAPACITY..]
  }

  ghost predicate Numbered(log: seq<Entry>) {
    forall i :: 0 <= i < |log| ==> log[i].sequence == i + 1
  }

  /** Appending to a full deque drops its oldest entry. */
  function Push(buffer: seq<Entry>, entry: Entry): seq<Entry> {
    var grown := buffer + [entry];
    if |grown| <= BUFFER_CAPACITY then grown else grown[1..]
  }

  lemma PushRefinesAppend(log: seq<Entry>, entry: Entry)
    ensures Push(Recent(log), entry) == Recent(log + [entry])
    ensures Numbered(log) && entry.sequence == |log| + 1 ==> Numbered(log + [entry])
  {
  }

  // ---- Reading one page

  function Own(entries: seq<Entry>, endpoint: int): seq<Entry> {
    if entries == [] then []
    else if entries[0].endpoint == endpoint then [entries[0]] + Own(entries[1..], endpoint)
    else Own(entries[1..], endpoint)
  }

  function Newer(entries: seq<Entry>, after: int): seq<Entry> {
    if entries == [] then []
    else if entries[0].sequence > after then [entries[0]] + Newer(entries[1..], after)
    else Newer(entries[1..], after)
  }

  /** Python's `s[:limit]`. */
  function Front<T>(s: seq<T>, limit: int): seq<T> {
    if limit >= |s| then s
    else if limit >= 0 then s[..limit]
    else if |s| + limit >= 0 then s[..|s| + limit]
    else []
  }

  /** Python's `s[-limit:]` for a positive limit, and nothing otherwise. */
  function Newest<T>(s: seq<T>, limit: int): seq<T> {
    if limit <= 0 then []
    else if limit >= |s| then s
    else s[|s| - limit..]
  }

  datatype Page = Page(selected: seq<Entry>, next: int, gap: bool)

  /** `read_messages_after` on a snapshot of the buffer and the last sequence. */
  function Read(entries: seq<Entry>, last: nat, endpoint: int, after: Option<int>, limit: int): Page {
    var own := Own(entries, endpoint);
    var selected := if after.None? then Newest(own, limit) else Front(Newer(own, after.value), limit);
    var oldest := if entries != [] then entries[0].sequence else last + 1;
    var gap := after.Some? && after.value < oldest - 1;
    var next :=
      if selected != [] then selected[|selected| - 1].sequence
      else if after.None? then last
      else Max(after.value, 0);
    Page(selected, next, gap)
  }

  /** The same read of the buffer that a whole log leaves behind. */
  function ReadLog(log: seq<Entry>, endpoint: int, after: Option<int>, limit: int): Page {
    Read(Recent(log), |log|, endpoint, after, limit)
  }

  // ---- Gap

  /** An entry after the cursor that is no longer in the buffer. */
  ghost predicate Evicted(log: seq<Entry>, after: int) {
    exists i :: 0 <= i < |log| - |Recent(log)| && log[i].sequence > after
  }

  /** `gap` is set exactly when an entry after the cursor was evicted, or the cursor is negative. */
  lemma GapIffEvicted(log: seq<Entry>, endpoint: int, after: int, limit: int)
    requires Numbered(log)
    ensures ReadLog(log, endpoint, Some(after), limit).gap <==> Evicted(log, after) || after < 0
  {
    var dropped := |log| - |Recent(log)|;
    if 0 <= after < dropped {
      assert log[dropped - 1].sequence > after;
    }
    if after < 0 && dropped > 0 {
      assert log[0].sequence > after;
    }
  }

  // ---- Following cursors

  /** The entries of `endpoint` with a sequence in `(low, high]`, in order. */
  function Between(log: seq<Entry>, endpoint: int, low: int, high: int): seq<Entry> {
    if log == [] then []
    else
      var rest := Between(log[1..], endpoint, low, high);
      if log[0].endpoint == endpoint && low < log[0].sequence <= high then [log[0]] + rest else rest
  }

  ghost predicate Increasing(entries: seq<Entry>) {
    forall i, j :: 0 <= i < j < |entries| ==> entries[i].sequence < entries[j].sequence
  }

  /** What a page may select from: the entries of the endpoint after the cursor. */
  function After(log: seq<Entry>, endpoint: int, after: int): seq<Entry> {
    Newer(Own(log, endpoint), after)
  }

  lemma {:induction false} AfterCons(log: seq<Entry>, endpoint: int, after: int)
    requires log != []
    ensures After(log, endpoint, after) ==
      if log[0].endpoint == endpoint && log[0].sequence > after then [log[0]] + After(log[1..], endpoint, after)
      else After(log[1..], endpoint, after)
  {
    if log[0].endpoint == endpoint {
      assert Own(log, endpoint)[1..] == Own(log[1..], endpoint);
    }
  }

  lemma {:induction false} AfterIn(log: seq<Entry>, endpoint: int, after: int, e: Entry)
    requires e in After(log, endpoint, after)
    ensures e in log && e.sequence > after
  {
    AfterCons(log, endpoint, after);
    if e in After(log[1..], endpoint, after) {
      AfterIn(log[1..], endpoint, after, e);
    }
  }

  lemma {:induction false} AfterIncreasing(log: seq<Entry>, endpoint: int, after: int)
    requires Increasing(log)
    ensures Increasing(After(log, endpoint, after))
  {
    if log != [] {
      AfterCons(log, endpoint, after);
      AfterIncreasing(log[1..], endpoint, after);
      var rest := After(log[1..], endpoint, after);
      forall j | 0 <= j < |rest| ensures log[0].sequence < rest[j].sequence {
        AfterIn(log[1..], endpoint, after, rest[j]);
      }
    }
  }

  lemma {:induction false} AfterDrop(log: seq<Entry>, endpoint: int, after: int, n: nat)
    requires n <= |log| && forall i :: 0 <= i < n ==> log[i].sequence <= after
    ensures After(log[n..], endpoint, after) == After(log, endpoint, after)
  {
    if n > 0 {
      AfterCons(log, endpoint, after);
      assert log[1..][n - 1..] == log[n..];
      AfterDrop(log[1..], endpoint, after, n - 1);
    } else {
      assert log[0..] == log;
    }
  }

  /** The entries with a sequence up to `high`. */
  function UpTo(entries: seq<Entry>, high: int): seq<Entry> {
    if entries == [] then []
    else if entries[0].sequence <= high then [entries[0]] + UpTo(entries[1..], high)
    else UpTo(entries[1..], high)
  }

  lemma {:induction false} BetweenIsUpTo(log: seq<Entry>, endpoint: int, after: int, high: int)
    ensures Between(log, endpoint, after, high) == UpTo(After(log, endpoint, after), high)
  {
    if log != [] {
      BetweenIsUpTo(log[1..], endpoint, after, high);
      AfterCons(log, endpoint, after);
      var rest := After(log[1..], endpoint, after);
      assert ([log[0]] + rest)[1..] == rest;
    }
  }

  lemma {:induction false} NothingUpTo(entries: seq<Entry>, high: int)
    requires forall i :: 0 <= i < |entries| ==> entries[i].sequence > high
    ensures UpTo(entries, high) == []
  {
    if entries != [] {
      NothingUpTo(entries[1..], high);
    }
  }

  lemma {:induction false} UpToPrefix(entries: seq<Entry>, k: nat)
    requires Increasing(entries) && 0 < k <= |entries|
    ensures UpTo(entries, entries[k - 1].sequence) == entries[..k]
  {
    var rest := entries[1..];
    if k == 1 {
      NothingUpTo(rest, entries[0].sequence);
      assert entries[..1] == [entries[0]];
    } else {
      UpToPrefix(rest, k - 1);
      assert entries[0].sequence < entries[k - 1].sequence && rest[k - 2] == entries[k - 1];
      assert entries[..k] == [entries[0]] + rest[..k - 1];
    }
  }

  /** A prefix of what follows the cursor is exactly what lies between the cursor and its last entry. */
  lemma PrefixIsBetween(log: seq<Entry>, endpoint: int, after: int, k: nat)
    requires Increasing(log) && 0 < k <= |After(log, endpoint, after)|
    ensures
      var a := After(log, endpoint, after);
      a[..k] == Between(log, endpoint, after, a[k - 1].sequence)
  {
    var a := After(log, endpoint, after);
    AfterIncreasing(log, endpoint, after);
    UpToPrefix(a, k);
    BetweenIsUpTo(log, endpoint, after, a[k - 1].sequence);
  }

  lemma {:induction false} NothingBetween(log: seq<Entry>, endpoint: int, low: int, high: int)
    requires forall i :: 0 <= i < |log| ==> log[i].sequence <= low || log[i].sequence > high
    ensures Between(log, endpoint, low, high) == []
  {
    if log != [] {
      NothingBetween(log[1..], endpoint, low, high);
    }
  }

  lemma {:induction false} BetweenConcat(a: seq<Entry>, b: seq<Entry>, endpoint: int, low: int, high: int)
    ensures Between(a + b, endpoint, low, high) == Between(a, endpoint, low, high) + Between(b, endpoint, low, high)
  {
    if a == [] {
      assert a + b == b;
    } else {
      assert (a + b)[1..] == a[1..] + b;
      BetweenConcat(a[1..], b, endpoint, low, high);
    }
  }

  /** Entries appended later do not change what lies below a sequence already reached. */
  lemma BetweenStable(log: seq<Entry>, later: seq<Entry>, endpoint: int, low: int, high: int)
    requires Numbered(later) && log <= later && high <= |log|
    ensures Between(later, endpoint, low, high) == Between(log, endpoint, low, high)
  {
    var rest := later[|log|..];
    assert later == log + rest;
    BetweenConcat(log, rest, endpoint, low, high);
    forall i | 0 <= i < |rest| ensures rest[i].sequence > high {
      assert rest[i] == later[|log| + i];
    }
    NothingBetween(rest, endpoint, low, high);
  }

  lemma {:induction false} BetweenSplit(log: seq<Entry>, endpoint: int, low: int, mid: int, high: int)
    requires Increasing(log) && low <= mid <= high
    ensures Between(log, endpoint, low, high) == Between(log, endpoint, low, mid) + Between(log, endpoint, mid, high)
  {
    if log != [] {
      BetweenSplit(log[1..], endpoint, low, mid, high);
      if log[0].sequence > mid {
        NothingBetween(log[1..], endpoint, low, mid);
      }
    }
  }

  /** A page without a gap is the front of everything after the cursor, and its cursor is that of its last entry. */
  lemma PageIsFront(log: seq<Entry>, endpoint: int, after: int, limit: int)
    requires Numbered(log) && 0 <= after <= |log| && !ReadLog(log, endpoint, Some(after), limit).gap
    ensures
      var page := ReadLog(log, endpoint, Some(after), limit);
      && page.selected == Front(After(log, endpoint, after), limit)
      && page.next == if page.selected == [] then after else page.selected[|page.selected| - 1].sequence
  {
    var dropped := |log| - |Recent(log)|;
    assert log[dropped..] == Recent(log);
    AfterDrop(log, endpoint, after, dropped);
  }

  lemma FrontIsBetween(log: seq<Entry>, endpoint: int, after: int, s: seq<Entry>)
    requires Numbered(log) && s != [] && s <= After(log, endpoint, after)
    ensures
      var last := s[|s| - 1].sequence;
      after < last <= |log| && s == Between(log, endpoint, after, last)
  {
    var a := After(log, endpoint, after);
    assert s == a[..|s|];
    PrefixIsBetween(log, endpoint, after, |s|);
    AfterIn(log, endpoint, after, a[|s| - 1]);
  }

  /**
   A page without a gap holds exactly the entries of the endpoint between the cursor it was asked for
   and the cursor it returns.
   */
  lemma PageIsComplete(log: seq<Entry>, endpoint: int, after: int, limit: int)
    requires Numbered(log) && 0 <= after <= |log| && !ReadLog(log, endpoint, Some(after), limit).gap
    ensures
      var page := ReadLog(log, endpoint, Some(after), limit);
      after <= page.next <= |log| && page.selected == Between(log, endpoint, after, page.next)
  {
    PageIsFront(log, endpoint, after, limit);
    var selected := ReadLog(log, endpoint, Some(after), limit).selected;
    if selected == [] {
      NothingBetween(log, endpoint, after, after);
    } else {
      FrontIsBetween(log, endpoint, after, selected);
    }
  }

  lemma {:induction false} SelectedIn(entries: seq<Entry>, endpoint: int, after: int, e: Entry)
    requires e in Newer(Own(entries, endpoint), after)
    ensures e in entries && e.sequence > after
  {
    NewerIn(Own(entries, endpoint), after, e);
    OwnIn(entries, endpoint, e);
  }

  lemma {:induction false} NewerIn(entries: seq<Entry>, after: int, e: Entry)
    requires e in Newer(entries, after)
    ensures e in entries && e.sequence > after
  {
    if e != entries[0] || entries[0].sequence <= after {
      NewerIn(entries[1..], after, e);
    }
  }

  lemma {:induction false} OwnIn(entries: seq<Entry>, endpoint: int, e: Entry)
    requires e in Own(entries, endpoint)
    ensures e in entries && e.endpoint == endpoint
  {
    if e != entries[0] || entries[0].endpoint != endpoint {
      OwnIn(entries[1..], endpoint, e);
    }
  }

  /** The cursor of a page is never negative and never before the one asked from, and an empty page moves it no further. */
  lemma CursorNeverGoesBack(log: seq<Entry>, endpoint: int, after: int, limit: int)
    requires Numbered(log)
    ensures
      var page := ReadLog(log, endpoint, Some(after), limit);
      page.next >= 0 && page.next >= after && (page.selected == [] ==> page.next == if after < 0 then 0 else after)
  {
    var page, recent := ReadLog(log, endpoint, Some(after), limit), Recent(log);
    if page.selected != [] {
      var e, waiting := page.selected[|page.selected| - 1], Newer(Own(recent, endpoint), after);
      assert e in waiting;
      SelectedIn(recent, endpoint, after, e);
      assert e in log;
    }
  }

  /** A page with room returns something whenever something is waiting. */
  lemma PageMakesProgress(log: seq<Entry>, endpoint: int, after: int, limit: int)
    requires Numbered(log) && 0 <= after <= |log| && limit > 0 && !ReadLog(log, endpoint, Some(after), limit).gap
    requires exists i :: 0 <= i < |log| && log[i].endpoint == endpoint && log[i].sequence > after
    ensures ReadLog(log, endpoint, Some(after), limit).next > after
  {
    var i :| 0 <= i < |log| && log[i].endpoint == endpoint && log[i].sequence > after;
    AfterHas(log, endpoint, after, i);
    PageIsFront(log, endpoint, after, limit);
    FrontIsBetween(log, endpoint, after, ReadLog(log, endpoint, Some(after), limit).selected);
  }

  lemma {:induction false} AfterHas(log: seq<Entry>, endpoint: int, after: int, i: nat)
    requires i < |log| && log[i].endpoint == endpoint && log[i].sequence > after
    ensures log[i] in After(log, endpoint, after)
  {
    AfterCons(log, endpoint, after);
    if i > 0 {
      AfterHas(log[1..], endpoint, after, i - 1);
    }
  }

  /** What lies between two cursors, without saying how it is found: every such entry, once and in order. */
  lemma {:induction false} BetweenPicked(log: seq<Entry>, endpoint: int, low: int, high: int, keep: Entry -> bool)
    requires forall e :: keep(e) <==> e.endpoint == endpoint && low < e.sequence <= high
    ensures Picked(log, Between(log, endpoint, low, high), keep, Itself)
  {
    if log == [] {
      PickedNothing(keep, Itself<Entry>);
    } else {
      BetweenPicked(log[1..], endpoint, low, high, keep);
      PickedCons(log, Between(log, endpoint, low, high), keep, Itself);
    }
  }

  lemma {:induction false} OwnPicked(entries: seq<Entry>, endpoint: int, keep: Entry -> bool)
    requires forall e :: keep(e) <==> e.endpoint == endpoint
    ensures Picked(entries, Own(entries, endpoint), keep, Itself)
  {
    if entries == [] {
      PickedNothing(keep, Itself<Entry>);
    } else {
      OwnPicked(entries[1..], endpoint, keep);
      PickedCons(entries, Own(entries, endpoint), keep, Itself);
    }
  }

  /**
   Without a cursor a page is the newest entries of the endpoint that are still in the buffer, as many as the limit
   allows, and its cursor is that of the last of them, or of the whole log if there is none.
   */
  lemma NewestPage(log: seq<Entry>, endpoint: int, limit: int, own: seq<Entry>, keep: Entry -> bool)
    requires (forall e :: keep(e) <==> e.endpoint == endpoint) && Picked(Recent(log), own, keep, Itself)
    ensures
      var page := ReadLog(log, endpoint, None, limit);
      var n := Max(0, Min(limit, |own|));
      && page.selected == own[|own| - n..] && !page.gap
      && page.next == if n == 0 then |log| else own[|own| - 1].sequence
  {
    var recent := Recent(log);
    assert own == Own(recent, endpoint) by {
      OwnPicked(recent, endpoint, keep);
      PickedUnique(recent, own, Own(recent, endpoint), keep, Itself);
    }
    NewestOf(recent, |log|, endpoint, limit, own);
  }

  lemma NewestOf(recent: seq<Entry>, counter: nat, endpoint: int, limit: int, own: seq<Entry>)
    requires own == Own(recent, endpoint)
    ensures
      var page := Read(recent, counter, endpoint, None, limit);
      var n := Max(0, Min(limit, |own|));
      && page.selected == own[|own| - n..] && !page.gap
      && page.next == if n == 0 then counter else own[|own| - 1].sequence
  {
    assert own[0..] == own && own[|own|..] == [];
  }

  // ---- A reader that follows `next`

  /** The k-th read has no gap, and the next one asks from where it ends. */
  ghost predicate ReadsOn(logs: seq<seq<Entry>>, cursors: seq<int>, endpoint: int, limit: int, k: nat)
    requires k < |logs| && |cursors| == |logs| + 1
  {
    && Numbered(logs[k])
    && !ReadLog(logs[k], endpoint, Some(cursors[k]), limit).gap
    && cursors[k + 1] == ReadLog(logs[k], endpoint, Some(cursors[k]), limit).next
  }

  /** `logs[k]` is the log at the k-th read, which may have grown since the previous one. */
  ghost predicate Follows(logs: seq<seq<Entry>>, cursors: seq<int>, endpoint: int, limit: int) {
    && |cursors| == |logs| + 1
    && (forall k: nat :: 0 < k < |logs| ==> logs[k - 1] <= logs[k])
    && (logs != [] ==> 0 <= cursors[0] <= |logs[0]|)
    && (forall k: nat :: k < |logs| ==> ReadsOn(logs, cursors, endpoint, limit, k))
  }

  /** What the first `n` reads return, one page after the other. */
  function Collected(logs: seq<seq<Entry>>, cursors: seq<int>, endpoint: int, limit: int, n: nat): seq<Entry>
    requires |cursors| == |logs| + 1 && n <= |logs|
  {
    if n == 0 then []
    else
      Collected(logs, cursors, endpoint, limit, n - 1)
      + ReadLog(logs[n - 1], endpoint, Some(cursors[n - 1]), limit).selected
  }

  /** One more read, of a log that may have grown since the last one. */
  lemma ReadOn(before: seq<Entry>, log: seq<Entry>, endpoint: int, first: int, after: int, limit: int)
    requires Numbered(log) && before <= log && 0 <= first <= after <= |before|
    requires !ReadLog(log, endpoint, Some(after), limit).gap
    ensures
      var page := ReadLog(log, endpoint, Some(after), limit);
      && first <= page.next <= |log|
      && Between(before, endpoint, first, after) + page.selected == Between(log, endpoint, first, page.next)
  {
    PageIsComplete(log, endpoint, after, limit);
    var next := ReadLog(log, endpoint, Some(after), limit).next;
    BetweenStable(before, log, endpoint, first, after);
    BetweenSplit(log, endpoint, first, after, next);
  }

  /**
   Following `next` without a gap, while messages keep arriving, yields every entry of the endpoint
   after the first cursor and up to the last one, exactly once and in order.
   */
  lemma {:induction false} FollowingIsLossless(logs: seq<seq<Entry>>, cursors: seq<int>, endpoint: int, limit: int, n: nat)
    requires Follows(logs, cursors, endpoint, limit) && 0 < n <= |logs|
    ensures cursors[0] <= cursors[n] <= |logs[n - 1]|
    ensures Collected(logs, cursors, endpoint, limit, n) == Between(logs[n - 1], endpoint, cursors[0], cursors[n])
    decreases n
  {
    assert ReadsOn(logs, cursors, endpoint, limit, n - 1);
    if n == 1 {
      NothingBetween(logs[0], endpoint, cursors[0], cursors[0]);
      ReadOn(logs[0], logs[0], endpoint, cursors[0], cursors[0], limit);
    } else {
      FollowingIsLossless(logs, cursors, endpoint, limit, n - 1);
      assert logs[n - 2] <= logs[n - 1];
      ReadOn(logs[n - 2], logs[n - 1], endpoint, cursors[0], cursors[n - 1], limit);
    }
  }
}
