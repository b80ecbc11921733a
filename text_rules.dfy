/**
 * Character classes and the two string helpers the converter uses on
 * paragraph text: `str.strip()` and `str.upper()`, restricted to ASCII.
 */
module TextRules {

  /** Python's whitespace (`str.isspace`, and `\s` in a `str` pattern) on ASCII:
      tab, line feed, vertical tab, form feed, carriage return, the four
      information separators 0x1C-0x1F, and space. */
  predicate IsSpace(c: char) {
    c == ' ' || 9 <= c as int <= 13 || 28 <= c as int <= 31
  }

  /** `\d` on ASCII. */
  predicate IsDigit(c: char) {
    '0' <= c <= '9'
  }

  /** An ASCII letter of either case: `[A-Z]` under `re.IGNORECASE`. */
  predicate IsLetter(c: char) {
    'A' <= c <= 'Z' || 'a' <= c <= 'z'
  }

  predicate AllSpace(s: string) {
    forall k :: 0 <= k < |s| ==> IsSpace(s[k])
  }

  predicate AllDigits(s: string) {
    forall k :: 0 <= k < |s| ==> IsDigit(s[k])
  }

  /** Neither end of `s` is whitespace: the shape of any stripped text. */
  predicate NoOuterSpace(s: string) {
    s == [] || (!IsSpace(s[0]) && !IsSpace(s[|s| - 1]))
  }

  /** Length of the longest prefix of `s` whose characters all satisfy `p`:
      what a greedy `[...]*` consumes. */
  function RunLength(s: string, p: char -> bool): (n: nat)
    ensures n <= |s|
    decreases |s|
  {
    if s == [] || !p(s[0]) then 0 else 1 + RunLength(s[1..], p)
  }

  /** Every character of the run satisfies `p`. */
  lemma {:induction false} RunLengthAt(s: string, p: char -> bool, k: int)
    requires 0 <= k < RunLength(s, p)
    ensures p(s[k])
    decreases k
  {
    if k > 0 {
      RunLengthAt(s[1..], p, k - 1);
      assert s[1..][k - 1] == s[k];
    }
  }

  /** The run is as long as it can be: the character after it fails `p`. */
  lemma {:induction false} RunLengthStops(s: string, p: char -> bool)
    requires RunLength(s, p) < |s|
    ensures !p(s[RunLength(s, p)])
    decreases |s|
  {
    if p(s[0]) {
      RunLengthStops(s[1..], p);
      assert s[1..][RunLength(s[1..], p)] == s[RunLength(s, p)];
    }
  }

  /** The leading whitespace run, and where it ends. */
  lemma LeadingSpaces(s: string)
    ensures AllSpace(s[..RunLength(s, IsSpace)])
    ensures RunLength(s, IsSpace) < |s| ==> !IsSpace(s[RunLength(s, IsSpace)])
  {
    var a := RunLength(s, IsSpace);
    forall k | 0 <= k < a ensures IsSpace(s[..a][k]) {
      RunLengthAt(s, IsSpace, k);
    }
    if a < |s| {
      RunLengthStops(s, IsSpace);
    }
  }

  /** Any prefix every character of which satisfies `p`, followed by the end or
      by a character that does not, is the run `RunLength` measures. */
  lemma {:induction false} RunLengthExact(s: string, p: char -> bool, n: int)
    requires 0 <= n <= |s|
    requires forall k :: 0 <= k < n ==> p(s[k])
    requires n < |s| ==> !p(s[n])
    ensures RunLength(s, p) == n
    decreases |s|
  {
    if n > 0 {
      assert forall k :: 0 <= k < n - 1 ==> p(s[1..][k]);
      RunLengthExact(s[1..], p, n - 1);
    }
  }

  /** Length of the longest suffix of `s` made of whitespace. */
  function TrailingSpaces(s: string): (n: nat)
    ensures n <= |s|
    decreases |s|
  {
    if s == [] || !IsSpace(s[|s| - 1]) then 0 else 1 + TrailingSpaces(s[..|s| - 1])
  }

  /** The trailing run is as long as it can be. */
  lemma {:induction false} TrailingSpacesFacts(s: string)
    ensures forall k :: |s| - TrailingSpaces(s) <= k < |s| ==> IsSpace(s[k])
    ensures TrailingSpaces(s) < |s| ==> !IsSpace(s[|s| - 1 - TrailingSpaces(s)])
    decreases |s|
  {
    if s != [] && IsSpace(s[|s| - 1]) {
      TrailingSpacesFacts(s[..|s| - 1]);
    }
  }

  /** `str.strip()`: drop leading and trailing whitespace. */
  function Strip(s: string): (r: string)
    ensures NoOuterSpace(r)
    ensures exists a :: 0 <= a && a + |r| <= |s| && r == s[a..a + |r|]
                         && AllSpace(s[..a]) && AllSpace(s[a + |r|..])
  {
    var a := RunLength(s, IsSpace);
    var rest := s[a..];
    var r := rest[..|rest| - TrailingSpaces(rest)];
    LeadingSpaces(s);
    TrailingSpacesFacts(rest);
    assert s[a..a + |r|] == r;
    assert s[a + |r|..] == rest[|r|..];
    assert AllSpace(s[..a]) && AllSpace(s[a + |r|..]);
    assert 0 <= a && a + |r| <= |s| && r == s[a..a + |r|]
           && AllSpace(s[..a]) && AllSpace(s[a + |r|..]);
    r
  }

  /** Stripping text that is already stripped changes nothing. */
  lemma StripKeepsStripped(s: string)
    requires NoOuterSpace(s)
    ensures Strip(s) == s
  {
    if s != [] {
      assert RunLength(s, IsSpace) == 0;
      assert TrailingSpaces(s) == 0;
    }
  }

  /** `str.strip()` is idempotent. */
  lemma StripIdempotent(s: string)
    ensures Strip(Strip(s)) == Strip(s)
  {
    StripKeepsStripped(Strip(s));
  }

  /** Stripping only removes whitespace: a string without any keeps its text. */
  lemma StripWithoutSpaces(s: string)
    requires forall k :: 0 <= k < |s| ==> !IsSpace(s[k])
    ensures Strip(s) == s
  {
    StripKeepsStripped(s);
  }

  /** `str.upper()` on one ASCII character: the result is never a lower-case
      letter, is a letter exactly when `c` is, and differs from `c` only when
      `c` is the lower-case form of a letter. */
  function UpperChar(c: char): (u: char)
    ensures !('a' <= u <= 'z')
    ensures IsLetter(u) == IsLetter(c)
    ensures u != c ==> 'a' <= c <= 'z' && c as int - u as int == 'a' as int - 'A' as int
  {
    if 'a' <= c <= 'z' then (c as int - 32) as char else c
  }

  /** Upper-casing an upper-cased character changes nothing. */
  lemma UpperCharIdempotent(c: char)
    ensures UpperChar(UpperChar(c)) == UpperChar(c)
  {
  }

  /** `str.upper()`, character by character. */
  function Upper(s: string): (r: string)
    decreases |s|
  {
    if s == [] then [] else [UpperChar(s[0])] + Upper(s[1..])
  }

  /** Upper-casing keeps the length, maps every position by `UpperChar`, and
      leaves no lower-case ASCII letter behind. */
  lemma {:induction false} UpperAt(s: string)
    ensures |Upper(s)| == |s|
    ensures forall k :: 0 <= k < |s| ==> Upper(s)[k] == UpperChar(s[k])
    ensures forall k :: 0 <= k < |s| ==> !('a' <= Upper(s)[k] <= 'z')
    decreases |s|
  {
    if s != [] {
      UpperAt(s[1..]);
      assert Upper(s) == [UpperChar(s[0])] + Upper(s[1..]);
    }
  }

  /** Upper-casing twice is upper-casing once. */
  lemma {:induction false} UpperIdempotent(s: string)
    ensures Upper(Upper(s)) == Upper(s)
    decreases |s|
  {
    if s != [] {
      UpperIdempotent(s[1..]);
      assert Upper(s)[1..] == Upper(s[1..]);
    }
  }
}
