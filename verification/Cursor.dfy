/** The text form of a message cursor: buffer generation, a dot, and a sequence number. */
module Cursor {
  import opened Basics
  import opened Decimal
  import opened Text

  const GENERATION_LENGTH := 16
  const MAX_DIGITS := 18

  predicate IsDigit(c: char) { '0' <= c <= '9' }

  predicate IsHex(c: char) { IsDigit(c) || 'a' <= c <= 'f' }

  /** `secrets.token_hex(8)`. */
  predicate IsGeneration(s: string) {
    |s| == GENERATION_LENGTH && forall i :: 0 <= i < |s| ==> IsHex(s[i])
  }

  function Numeral(ds: seq<nat>): (s: string)
    requires AreDigits(ds)
    ensures |s| == |ds|
  {
    seq(|ds|, i requires 0 <= i < |ds| && ds[i] < 10 => ('0' as int + ds[i]) as char)
  }

  function DigitValues(s: string): (ds: seq<nat>)
    requires forall i :: 0 <= i < |s| ==> IsDigit(s[i])
    ensures |ds| == |s| && AreDigits(ds)
  {
    seq(|s|, i requires 0 <= i < |s| && IsDigit(s[i]) => s[i] as int - '0' as int)
  }

  /** `format_message_cursor`. */
  function Format(generation: string, sequence: int): string {
    generation + "." + (if sequence < 0 then "-" + Numeral(Digits(-sequence)) else Numeral(Digits(sequence)))
  }

  datatype Parsed = Parsed(sequence: Option<int>, reset: bool)

  /** The pattern of a well-formed cursor. */
  predicate WellFormed(s: string) {
    && GENERATION_LENGTH + 1 < |s| <= GENERATION_LENGTH + 1 + MAX_DIGITS
    && IsGeneration(s[..GENERATION_LENGTH])
    && s[GENERATION_LENGTH] == '.'
    && forall i :: GENERATION_LENGTH < i < |s| ==> IsDigit(s[i])
  }

  /** `parse_message_cursor`; an error stands for `ValueError`. */
  function Parse(generation: string, raw: Option<string>): Result<Parsed, string> {
    if raw.None? || raw.value == "" then Ok(Parsed(None, false))
    else
      var text := Strip(raw.value);
      if !WellFormed(text) then Err("malformed cursor")
      else if text[..GENERATION_LENGTH] != generation then Ok(Parsed(None, true))
      else
        var digits := text[GENERATION_LENGTH + 1..];
        Ok(Parsed(Some(Number(DigitValues(digits))), false))
  }

  lemma NumeralValues(ds: seq<nat>)
    requires AreDigits(ds)
    ensures forall i :: 0 <= i < |ds| ==> IsDigit(Numeral(ds)[i])
    ensures DigitValues(Numeral(ds)) == ds
  {
  }

  /** A cursor text begins and ends with characters that stripping keeps. */
  lemma FormatUnstripped(generation: string, sequence: int)
    requires IsGeneration(generation)
    ensures
      var s := Format(generation, sequence);
      Strip(s) == s && s != ""
  {
    var s := Format(generation, sequence);
    assert s[0] == generation[0] && IsHex(s[0]);
    var ds := Digits(if sequence < 0 then -sequence else sequence);
    NumeralValues(ds);
    assert s[|s| - 1] == Numeral(ds)[|ds| - 1];
    StripKeeps(s);
  }

  /** A formatted sequence is a well-formed cursor exactly when it is not negative and has at most 18 digits. */
  lemma FormatWellFormed(generation: string, sequence: int)
    requires IsGeneration(generation)
    ensures WellFormed(Format(generation, sequence)) <==> 0 <= sequence && |Digits(sequence)| <= MAX_DIGITS
    ensures Format(generation, sequence)[..GENERATION_LENGTH] == generation
  {
    var s := Format(generation, sequence);
    assert s[..GENERATION_LENGTH] == generation;
    if sequence < 0 {
      assert s[GENERATION_LENGTH + 1] == '-';
      assert !IsDigit(s[GENERATION_LENGTH + 1]);
    } else {
      var ds := Digits(sequence);
      NumeralValues(ds);
      forall i | GENERATION_LENGTH < i < |s| ensures IsDigit(s[i]) {
        assert s[i] == Numeral(ds)[i - GENERATION_LENGTH - 1];
      }
    }
  }

  lemma FormatDigits(generation: string, sequence: nat)
    requires IsGeneration(generation)
    ensures Format(generation, sequence)[GENERATION_LENGTH + 1..] == Numeral(Digits(sequence))
  {
  }

  /**
   Formatting then parsing gives back the same sequence exactly for the values below ten to the 18;
   any other value is refused as malformed.
   */
  lemma ParseFormat(generation: string, sequence: int)
    requires IsGeneration(generation)
    ensures
      var r := Parse(generation, Some(Format(generation, sequence)));
      if 0 <= sequence < Pow10(MAX_DIGITS) then r == Ok(Parsed(Some(sequence), false)) else r.Err?
  {
    FormatUnstripped(generation, sequence);
    FormatWellFormed(generation, sequence);
    if sequence >= 0 {
      DigitCount(sequence, MAX_DIGITS);
      FormatDigits(generation, sequence);
      NumeralValues(Digits(sequence));
      NumberOfDigits(sequence);
    }
  }

  /** A cursor of another process is recognised: it carries no sequence and asks for a reset. */
  lemma ForeignCursorResets(generation: string, other: string, sequence: nat)
    requires IsGeneration(generation) && IsGeneration(other) && generation != other && sequence < Pow10(MAX_DIGITS)
    ensures Parse(generation, Some(Format(other, sequence))) == Ok(Parsed(None, true))
  {
    FormatUnstripped(other, sequence);
    FormatWellFormed(other, sequence);
    DigitCount(sequence, MAX_DIGITS);
  }

  /** Whatever is parsed without an error is a sequence below ten to the 18. */
  lemma ParsedInRange(generation: string, raw: Option<string>)
    ensures
      var r := Parse(generation, raw);
      r.Ok? && r.value.sequence.Some? ==> r.value.sequence.value < Pow10(MAX_DIGITS)
  {
    var r := Parse(generation, raw);
    if r.Ok? && r.value.sequence.Some? {
      var text := Strip(raw.value);
      var digits := text[GENERATION_LENGTH + 1..];
      NumberBound(DigitValues(digits));
      Pow10Monotone(|digits|, MAX_DIGITS);
    }
  }

  /** A cursor text: sixteen hexadecimal digits, a dot, and one to eighteen decimal digits. */
  ghost predicate IsCursor(text: string, generation: string, ds: seq<nat>) {
    && IsGeneration(generation) && 1 <= |ds| <= MAX_DIGITS && AreDigits(ds)
    && text == generation + "." + Numeral(ds)
  }

  lemma CursorParts(text: string)
    requires WellFormed(text)
    ensures IsCursor(text, text[..GENERATION_LENGTH], DigitValues(text[GENERATION_LENGTH + 1..]))
  {
    var digits := text[GENERATION_LENGTH + 1..];
    var ds := DigitValues(digits);
    assert Numeral(ds) == digits;
    assert text == text[..GENERATION_LENGTH] + "." + digits;
  }

  lemma CursorIsWellFormed(text: string, generation: string, ds: seq<nat>)
    requires IsCursor(text, generation, ds)
    ensures WellFormed(text) && text[..GENERATION_LENGTH] == generation && DigitValues(text[GENERATION_LENGTH + 1..]) == ds
  {
    NumeralValues(ds);
    assert text[..GENERATION_LENGTH] == generation && text[GENERATION_LENGTH + 1..] == Numeral(ds);
    forall i | GENERATION_LENGTH < i < |text| ensures IsDigit(text[i]) {
      assert text[i] == Numeral(ds)[i - GENERATION_LENGTH - 1];
    }
  }

  /**
   What a cursor parameter means: nothing if it is missing; otherwise, once stripped, the number of a cursor of this
   process, a reset for a cursor of another one, and an error for every other text.
   */
  lemma ParseExactly(generation: string, raw: Option<string>)
    ensures
      var r := Parse(generation, raw);
      if raw.None? || raw.value == "" then r == Ok(Parsed(None, false))
      else
        var text := Strip(raw.value);
        && (r.Err? <==> forall g, ds :: !IsCursor(text, g, ds))
        && (forall g, ds :: IsCursor(text, g, ds) ==>
              r == Ok(if g == generation then Parsed(Some(Number(ds)), false) else Parsed(None, true)))
  {
    if raw.Some? && raw.value != "" {
      var text := Strip(raw.value);
      forall g, ds | IsCursor(text, g, ds)
        ensures Parse(generation, raw) == Ok(if g == generation then Parsed(Some(Number(ds)), false) else Parsed(None, true))
      {
        CursorIsWellFormed(text, g, ds);
      }
      if WellFormed(text) {
        CursorParts(text);
      }
    }
  }

  lemma {:induction false} Pow10Monotone(j: nat, k: nat)
    requires j <= k
    ensures Pow10(j) <= Pow10(k)
  {
    if j < k {
      Pow10Monotone(j, k - 1);
      Pow10Positive(k - 1);
    }
  }
}
