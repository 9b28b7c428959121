/** The Python string operations the modelled code uses. */
module Text {
  import opened Picking

  /** What `str.strip` removes. */
  predicate IsSpace(c: char) {
    var u := c as int;
    || 9 <= u <= 13 || 28 <= u <= 32 || u == 0x85 || u == 0xA0 || u == 0x1680 || 0x2000 <= u <= 0x200A
    || u == 0x2028 || u == 0x2029 || u == 0x202F || u == 0x205F || u == 0x3000
  }

  function LeftStrip(s: string): string {
    if s != [] && IsSpace(s[0]) then LeftStrip(s[1..]) else s
  }

  function RightStrip(s: string): string {
    if s != [] && IsSpace(s[|s| - 1]) then RightStrip(s[..|s| - 1]) else s
  }

  function Strip(s: string): string {
    RightStrip(LeftStrip(s))
  }

  /** A text that begins and ends with a character that is not a space is left alone. */
  lemma StripKeeps(s: string)
    requires s != "" ==> !IsSpace(s[0]) && !IsSpace(s[|s| - 1])
    ensures Strip(s) == s
  {
  }

  predicate AllSpace(s: string) {
    forall i :: 0 <= i < |s| ==> IsSpace(s[i])
  }

  lemma {:induction false} LeftStripExactly(s: string, n: nat)
    requires n <= |s| && AllSpace(s[..n]) && (n < |s| ==> !IsSpace(s[n]))
    ensures LeftStrip(s) == s[n..]
  {
    if n > 0 {
      assert IsSpace(s[..n][0]);
      assert s[1..][..n - 1] == s[..n][1..] && s[1..][n - 1..] == s[n..];
      LeftStripExactly(s[1..], n - 1);
    }
  }

  lemma {:induction false} RightStripExactly(s: string, n: nat)
    requires n <= |s| && AllSpace(s[n..]) && (n > 0 ==> !IsSpace(s[n - 1]))
    ensures RightStrip(s) == s[..n]
  {
    if n < |s| {
      var front := s[..|s| - 1];
      assert IsSpace(s[n..][|s| - 1 - n]);
      assert front[n..] == s[n..][..|s| - 1 - n] && front[..n] == s[..n];
      RightStripExactly(front, n);
    } else {
      assert s[..n] == s;
    }
  }

  /** Stripping leaves what is between the spaces at both ends. */
  lemma StripExactly(left: string, middle: string, right: string)
    requires AllSpace(left) && AllSpace(right)
    requires middle != "" ==> !IsSpace(middle[0]) && !IsSpace(middle[|middle| - 1])
    ensures Strip(left + middle + right) == middle
  {
    var s := left + middle + right;
    if middle == "" {
      LeftStripExactly(s, |s|);
    } else {
      var rest := middle + right;
      assert s[..|left|] == left && s[|left|..] == rest;
      LeftStripExactly(s, |left|);
      assert rest[|middle|..] == right && rest[..|middle|] == middle;
      RightStripExactly(rest, |middle|);
    }
  }

  /** `separator.join(parts)` for a one-character separator. */
  function Join(parts: seq<string>, separator: char): string {
    if parts == [] then ""
    else if |parts| == 1 then parts[0]
    else parts[0] + [separator] + Join(parts[1..], separator)
  }

  /** `s.split(separator)` for a one-character separator. */
  function Split(s: string, separator: char): (parts: seq<string>)
    ensures |parts| >= 1
  {
    if s == "" then [""]
    else
      var rest := Split(s[1..], separator);
      if s[0] == separator then [""] + rest else [[s[0]] + rest[0]] + rest[1..]
  }

  lemma {:induction false} SplitPlain(s: string, separator: char)
    requires separator !in s
    ensures Split(s, separator) == [s]
  {
    if s != "" {
      SplitPlain(s[1..], separator);
      assert [s[0]] + s[1..] == s;
    }
  }

  lemma {:induction false} SplitHead(head: string, rest: string, separator: char)
    requires separator !in head
    ensures Split(head + [separator] + rest, separator) == [head] + Split(rest, separator)
  {
    var s := head + [separator] + rest;
    if head == "" {
      assert s[1..] == rest;
    } else {
      assert s[1..] == head[1..] + [separator] + rest;
      SplitHead(head[1..], rest, separator);
      assert [s[0]] + head[1..] == head;
    }
  }

  /** Splitting undoes joining when no part contains the separator. */
  lemma {:induction false} SplitJoin(parts: seq<string>, separator: char)
    requires parts != [] && forall i :: 0 <= i < |parts| ==> separator !in parts[i]
    ensures Split(Join(parts, separator), separator) == parts
  {
    if |parts| == 1 {
      SplitPlain(parts[0], separator);
    } else {
      SplitJoin(parts[1..], separator);
      SplitHead(parts[0], Join(parts[1..], separator), separator);
    }
  }

  predicate IsNonEmpty(s: string) { s != "" }

  /** `[s for s in texts if s]`. */
  function NonEmpty(texts: seq<string>): seq<string> {
    if texts == [] then []
    else if texts[0] != "" then [texts[0]] + NonEmpty(texts[1..])
    else NonEmpty(texts[1..])
  }

  /** Every text that is not empty, each as often as it occurs and in order. */
  lemma {:induction false} NonEmptyPicked(texts: seq<string>)
    ensures Picked(texts, NonEmpty(texts), IsNonEmpty, Itself)
  {
    if texts == [] {
      PickedNothing(IsNonEmpty, Itself<string>);
    } else {
      NonEmptyPicked(texts[1..]);
      PickedCons(texts, NonEmpty(texts), IsNonEmpty, Itself);
    }
  }
}
