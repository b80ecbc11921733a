/**
 * The three tests the converter applies, in order, to the stripped text of
 * every paragraph after the title (app.py:60-61, 139-151): an SRT line number,
 * an SRT timecode line, and a "Name:" speaker prefix. Each test is written
 * twice: as a greedy scan (what the regular-expression engine ends up
 * doing) and as a ghost shape that says what the pattern accepts; a lemma
 * connects the two.
 */
module LineClassifier {
  import opened Wrappers
  import opened TextRules

  // ---------------------------------------------------------------------
  // Line numbers: re.fullmatch(r"^\s*\d+\s*$", text)   (app.py:139)
  // ---------------------------------------------------------------------

  /** Whitespace, then one or more digits, then whitespace up to the end. */
  predicate IsLineNumber(t: string) {
    var a := RunLength(t, IsSpace);
    var d := RunLength(t[a..], IsDigit);
    d >= 1 && AllSpace(t[a + d..])
  }

  /** The strings `\s*\d+\s*` matches in full, split at `a` and `b`. */
  ghost predicate LineNumberShape(t: string, a: int, b: int) {
    0 <= a < b <= |t| && AllSpace(t[..a]) && AllDigits(t[a..b]) && AllSpace(t[b..])
  }

  /** The scan accepts exactly the strings the pattern matches in full. */
  lemma LineNumberMatchesPattern(t: string)
    ensures IsLineNumber(t) <==> exists a, b :: LineNumberShape(t, a, b)
  {
    if IsLineNumber(t) {
      LineNumberHasShape(t);
    }
    if a, b :| LineNumberShape(t, a, b) {
      LineNumberShapeAccepted(t, a, b);
    }
  }

  /** What the scan accepts is split by its two runs into the pattern's parts. */
  lemma LineNumberHasShape(t: string)
    requires IsLineNumber(t)
    ensures LineNumberShape(t, RunLength(t, IsSpace),
                            RunLength(t, IsSpace) + RunLength(t[RunLength(t, IsSpace)..], IsDigit))
  {
    var a := RunLength(t, IsSpace);
    var d := RunLength(t[a..], IsDigit);
    LeadingSpaces(t);
    var digits := t[a..a + d];
    forall k | 0 <= k < |digits| ensures IsDigit(digits[k]) {
      RunLengthAt(t[a..], IsDigit, k);
      assert digits[k] == t[a..][k];
    }
    assert t[a + d..] == t[a..][d..];
  }

  /** Any split the pattern allows is the one the scan finds. */
  lemma LineNumberShapeAccepted(t: string, a: int, b: int)
    requires LineNumberShape(t, a, b)
    ensures IsLineNumber(t)
  {
    // A digit is not whitespace, so the leading run ends exactly at a.
    assert !IsSpace(t[a]);
    RunLengthExact(t, IsSpace, a);
    assert forall j :: 0 <= j < b - a ==> t[a..][j] == t[a..b][j];
    RunLengthExact(t[a..], IsDigit, b - a);
    assert t[a..][b - a..] == t[b..];
  }

  /** On stripped text (app.py:135) the test is "non-empty and all digits". */
  lemma LineNumberOfStripped(t: string)
    requires NoOuterSpace(t)
    ensures IsLineNumber(t) <==> t != [] && AllDigits(t)
  {
    var a := RunLength(t, IsSpace);
    if t != [] {
      assert a == 0;
      var d := RunLength(t, IsDigit);
      assert t[0..] == t;
      if IsLineNumber(t) {
        assert d == |t|;
        forall k | 0 <= k < |t| ensures IsDigit(t[k]) {
          RunLengthAt(t, IsDigit, k);
        }
      }
      if AllDigits(t) && d < |t| {
        RunLengthStops(t, IsDigit);
      }
    }
  }

  // ---------------------------------------------------------------------
  // Timecodes: TIMECODE_REGEX.match(text)   (app.py:61, 144)
  // ^\d{2}:\d{2}:\d{2},\d{3}\s+-->\s+\d{2}:\d{2}:\d{2},\d{3}$
  // ---------------------------------------------------------------------

  /** Length of one `HH:MM:SS,mmm` stamp. */
  const STAMP_LENGTH: nat := 12

  /** `\d{2}:\d{2}:\d{2},\d{3}` matched in full. */
  predicate IsStamp(s: string) {
    && |s| == STAMP_LENGTH
    && IsDigit(s[0]) && IsDigit(s[1]) && s[2] == ':'
    && IsDigit(s[3]) && IsDigit(s[4]) && s[5] == ':'
    && IsDigit(s[6]) && IsDigit(s[7]) && s[8] == ','
    && IsDigit(s[9]) && IsDigit(s[10]) && IsDigit(s[11])
  }

  /** What `$` accepts after position `e`: the end of the string, or a single
      line feed that ends it. */
  predicate AtEnd(t: string, e: int) {
    0 <= e <= |t| && (e == |t| || (e + 1 == |t| && t[e] == '\n'))
  }

  /** A stamp, a whitespace run, `-->`, a whitespace run and a stamp, then the end. */
  predicate IsTimecode(t: string) {
    |t| >= STAMP_LENGTH && IsStamp(t[..STAMP_LENGTH]) &&
    var n1 := RunLength(t[STAMP_LENGTH..], IsSpace);
    var j := STAMP_LENGTH + n1;
    n1 >= 1 && j + 3 <= |t| && t[j..j + 3] == "-->" &&
    var n2 := RunLength(t[j + 3..], IsSpace);
    var k := j + 3 + n2;
    n2 >= 1 && k + STAMP_LENGTH <= |t| && IsStamp(t[k..k + STAMP_LENGTH])
    && AtEnd(t, k + STAMP_LENGTH)
  }

  /** The strings the pattern matches, with the two `\s+` runs of lengths n1 and n2. */
  ghost predicate TimecodeShape(t: string, n1: int, n2: int) {
    && 1 <= n1 && 1 <= n2
    && 27 + n1 + n2 <= |t|
    && IsStamp(t[..12])
    && AllSpace(t[12..12 + n1])
    && t[12 + n1..15 + n1] == "-->"
    && AllSpace(t[15 + n1..15 + n1 + n2])
    && IsStamp(t[15 + n1 + n2..27 + n1 + n2])
    && AtEnd(t, 27 + n1 + n2)
  }

  /** A whitespace run that is followed by `c` (not whitespace) is the greedy run. */
  lemma GreedyRunEndsAt(s: string, n: int)
    requires 0 <= n < |s| && AllSpace(s[..n]) && !IsSpace(s[n])
    ensures RunLength(s, IsSpace) == n
  {
    assert forall k :: 0 <= k < n ==> s[k] == s[..n][k];
    RunLengthExact(s, IsSpace, n);
  }

  /** The scan accepts exactly the strings the pattern matches. Backtracking
      into either `\s+` cannot help: each is followed by a character that is
      not whitespace. */
  lemma TimecodeMatchesPattern(t: string)
    ensures IsTimecode(t) <==> exists n1, n2 :: TimecodeShape(t, n1, n2)
  {
    if IsTimecode(t) {
      TimecodeHasShape(t);
    }
    if n1, n2 :| TimecodeShape(t, n1, n2) {
      TimecodeShapeAccepted(t, n1, n2);
    }
  }

  /** What the scan accepts has the pattern's shape, with its two runs. */
  lemma TimecodeHasShape(t: string)
    requires IsTimecode(t)
    ensures exists n1, n2 :: TimecodeShape(t, n1, n2)
  {
    var n1 := RunLength(t[12..], IsSpace);
    var j := 12 + n1;
    var n2 := RunLength(t[j + 3..], IsSpace);
    LeadingSpaces(t[12..]);
    LeadingSpaces(t[j + 3..]);
    assert t[12..12 + n1] == t[12..][..n1];
    assert t[15 + n1..15 + n1 + n2] == t[j + 3..][..n2];
    assert TimecodeShape(t, n1, n2);
  }

  /** Any shape the pattern allows is accepted by the scan. */
  lemma TimecodeShapeAccepted(t: string, n1: int, n2: int)
    requires TimecodeShape(t, n1, n2)
    ensures IsTimecode(t)
  {
    var s1 := t[12..];
    assert s1[..n1] == t[12..12 + n1];
    assert s1[n1] == t[12 + n1..15 + n1][0];
    GreedyRunEndsAt(s1, n1);
    var s2 := t[15 + n1..];
    assert s2[..n2] == t[15 + n1..15 + n1 + n2];
    assert s2[n2] == t[15 + n1 + n2..27 + n1 + n2][0];
    GreedyRunEndsAt(s2, n2);
  }

  // ---------------------------------------------------------------------
  // Speaker prefix: SPEAKER_REGEX.match(text)   (app.py:60, 150-157)
  // ^([A-Z][a-z\s&]+):\s*   with re.IGNORECASE
  // ---------------------------------------------------------------------

  /** `[a-z\s&]` under `re.IGNORECASE`: a letter of either case, whitespace, or `&`. */
  predicate IsNameChar(c: char) {
    IsLetter(c) || IsSpace(c) || c == '&'
  }

  /** Where a speaker match ends: group 1 is `t[..nameEnd]`, group 0 is `t[..prefixEnd]`. */
  datatype SpeakerMatch = SpeakerMatch(nameEnd: nat, prefixEnd: nat)

  /** The greedy scan: a letter, the longest run of name characters (at least
      one), then `:` and the whitespace after it. */
  function MatchSpeaker(t: string): (r: Option<SpeakerMatch>)
    ensures r.Some? ==> 2 <= r.value.nameEnd < r.value.prefixEnd <= |t|
  {
    if |t| >= 1 && IsLetter(t[0]) then
      var k := RunLength(t[1..], IsNameChar);
      if k >= 1 && 1 + k < |t| && t[1 + k] == ':' then
        Some(SpeakerMatch(1 + k, 2 + k + RunLength(t[2 + k..], IsSpace)))
      else None
    else None
  }

  /** `^([A-Z][a-z\s&]+):` matches with group 1 ending at `g1`, for some way the
      engine may split the text. */
  ghost predicate NameThenColon(t: string, g1: int) {
    && 2 <= g1 < |t|
    && IsLetter(t[0])
    && (forall k :: 1 <= k < g1 ==> IsNameChar(t[k]))
    && t[g1] == ':'
  }

  /** The whole match: `\s*` after the colon is greedy and takes every
      whitespace character up to `g0`. */
  ghost predicate SpeakerShape(t: string, g1: int, g0: int) {
    && NameThenColon(t, g1)
    && g1 < g0 <= |t|
    && AllSpace(t[g1 + 1..g0])
    && (g0 == |t| || !IsSpace(t[g0]))
  }

  /** The colon ends the name: at most one split of the text makes the pattern match. */
  lemma NameThenColonUnique(t: string, g1: int, h1: int)
    requires NameThenColon(t, g1) && NameThenColon(t, h1)
    ensures g1 == h1
  {
  }

  /** The scan's answer is the pattern's: when it reports a match, the match has
      the shape; when it reports none, no split of the text matches. */
  lemma MatchSpeakerIsPattern(t: string)
    ensures MatchSpeaker(t).Some? ==>
              SpeakerShape(t, MatchSpeaker(t).value.nameEnd, MatchSpeaker(t).value.prefixEnd)
    ensures MatchSpeaker(t).None? <==> forall g1 :: !NameThenColon(t, g1)
  {
    if |t| >= 1 && IsLetter(t[0]) {
      var k := RunLength(t[1..], IsNameChar);
      forall j | 1 <= j < 1 + k ensures IsNameChar(t[j]) {
        RunLengthAt(t[1..], IsNameChar, j - 1);
      }
      if 1 + k < |t| {
        RunLengthStops(t[1..], IsNameChar);
        assert t[1..][k] == t[1 + k];
      }
      if k >= 1 && 1 + k < |t| && t[1 + k] == ':' {
        assert NameThenColon(t, 1 + k);
        var w := RunLength(t[2 + k..], IsSpace);
        LeadingSpaces(t[2 + k..]);
        assert t[2 + k..2 + k + w] == t[2 + k..][..w];
        if 2 + k + w < |t| { assert t[2 + k + w] == t[2 + k..][w]; }
        assert SpeakerShape(t, 1 + k, 2 + k + w);
      } else {
        forall g1 ensures !NameThenColon(t, g1) {
          if NameThenColon(t, g1) {
          }
        }
      }
    }
  }

  /** Group 0 is determined by group 1: the whitespace run after the colon
      stops at the first character that is not whitespace. */
  lemma SpeakerShapeUnique(t: string, g1: int, g0: int, h0: int)
    requires SpeakerShape(t, g1, g0) && SpeakerShape(t, g1, h0)
    ensures g0 == h0
  {
    forall k | g1 + 1 <= k < h0 ensures IsSpace(t[k]) {
      assert t[g1 + 1..h0][k - g1 - 1] == t[k];
    }
    forall k | g1 + 1 <= k < g0 ensures IsSpace(t[k]) {
      assert t[g1 + 1..g0][k - g1 - 1] == t[k];
    }
  }

  /** Conversely, a split of the text with the pattern's shape is exactly what
      the scan reports. */
  lemma SpeakerShapeIsMatch(t: string, g1: int, g0: int)
    requires SpeakerShape(t, g1, g0)
    ensures MatchSpeaker(t) == Some(SpeakerMatch(g1, g0))
  {
    MatchSpeakerIsPattern(t);
    var m := MatchSpeaker(t).value;
    NameThenColonUnique(t, m.nameEnd, g1);
    SpeakerShapeUnique(t, g1, m.prefixEnd, g0);
  }

  /** The name the converter keys colours on: group 1, stripped (app.py:154). */
  function SpeakerName(t: string, m: SpeakerMatch): string
    requires m.nameEnd <= |t|
  {
    Strip(t[..m.nameEnd])
  }

  // ---------------------------------------------------------------------
  // The order of the three tests (app.py:139-151)
  // ---------------------------------------------------------------------

  datatype LineKind = LineNumber | Timecode | Speaker(m: SpeakerMatch) | Plain

  /** The first of the three tests, in the source's order, that the text passes. */
  function Classify(t: string): (k: LineKind)
    ensures k.Speaker? ==> k.m.nameEnd < k.m.prefixEnd <= |t|
  {
    if IsLineNumber(t) then LineNumber
    else if IsTimecode(t) then Timecode
    else match MatchSpeaker(t)
      case Some(m) => Speaker(m)
      case None => Plain
  }

  /** A timecode line starts with a digit, so it could never have matched the
      speaker pattern either: the `else` at app.py:149 changes nothing. */
  lemma TimecodeIsNotSpeaker(t: string)
    requires IsTimecode(t)
    ensures MatchSpeaker(t).None?
    ensures forall g1 :: !NameThenColon(t, g1)
  {
    assert IsDigit(t[..12][0]);
    MatchSpeakerIsPattern(t);
  }

  /** A line number is neither a timecode nor a speaker line. */
  lemma LineNumberIsNothingElse(t: string)
    requires NoOuterSpace(t) && IsLineNumber(t)
    ensures !IsTimecode(t) && MatchSpeaker(t).None?
  {
    LineNumberOfStripped(t);
  }

  /** The classification of stripped text, stated through the patterns. */
  lemma ClassifyStripped(t: string)
    requires NoOuterSpace(t)
    ensures Classify(t) == LineNumber <==> t != [] && AllDigits(t)
    ensures Classify(t) == Timecode <==> exists n1, n2 :: TimecodeShape(t, n1, n2)
    ensures Classify(t).Speaker? <==> exists g1 :: NameThenColon(t, g1)
    ensures Classify(t).Speaker? ==>
              SpeakerShape(t, Classify(t).m.nameEnd, Classify(t).m.prefixEnd)
  {
    LineNumberOfStripped(t);
    TimecodeMatchesPattern(t);
    MatchSpeakerIsPattern(t);
    if IsLineNumber(t) {
      LineNumberIsNothingElse(t);
    } else if IsTimecode(t) {
      TimecodeIsNotSpeaker(t);
    }
  }
}
