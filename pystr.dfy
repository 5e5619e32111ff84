/**
 * The few Python `str` built-ins the core relies on, written out over `seq<char>`:
 * `isspace`, `lower`, `strip`, the word count of `split()`, the `in` operator,
 * `join` and `str` of a non-negative integer.
 */
module PyStr {

  /** `c.isspace()`: the characters Python treats as whitespace. */
  predicate IsSpace(c: char) {
    || c == ' ' || c == '\t' || c == '\n' || c == '\r' || c == '\U{0B}' || c == '\U{0C}'
    || ('\U{1C}' <= c <= '\U{1F}') || c == '\U{85}' || c == '\U{A0}' || c == '\U{1680}'
    || ('\U{2000}' <= c <= '\U{200A}') || c == '\U{2028}' || c == '\U{2029}'
    || c == '\U{202F}' || c == '\U{205F}' || c == '\U{3000}'
  }

  /** Lower-casing of one character (ASCII letters only). */
  function LowerChar(c: char): (d: char)
    ensures IsSpace(d) <==> IsSpace(c)
    ensures 'A' <= c <= 'Z' ==> 'a' <= d <= 'z'
  {
    if 'A' <= c <= 'Z' then (c as int + 32) as char else c
  }

  /** `s.lower()`, character by character. */
  function Lower(s: string): (t: string)
    ensures |t| == |s|
    ensures forall i :: 0 <= i < |s| ==> t[i] == LowerChar(s[i])
  {
    if s == [] then [] else [LowerChar(s[0])] + Lower(s[1..])
  }

  /** Drops leading whitespace. */
  function TrimStart(s: string): string {
    if |s| > 0 && IsSpace(s[0]) then TrimStart(s[1..]) else s
  }

  /** Drops trailing whitespace. */
  function TrimEnd(s: string): string {
    if |s| > 0 && IsSpace(s[|s| - 1]) then TrimEnd(s[..|s| - 1]) else s
  }

  /** `s.strip()` with no argument. */
  function Strip(s: string): string {
    TrimEnd(TrimStart(s))
  }

  /** Number of non-whitespace characters in `s`. */
  function NonSpaceCount(s: string): nat {
    if s == [] then 0 else (if IsSpace(s[0]) then 0 else 1) + NonSpaceCount(s[1..])
  }

  /**
   * `len(s.split())`: the number of maximal runs of non-whitespace characters,
   * counted at the last character of each run.
   */
  function WordCount(s: string): nat {
    if s == [] then 0
    else if !IsSpace(s[0]) && (|s| == 1 || IsSpace(s[1])) then 1 + WordCount(s[1..])
    else WordCount(s[1..])
  }

  /** `needle in hay` for two strings. */
  predicate IsSubstring(needle: string, hay: string) {
    |needle| <= |hay| && (hay[..|needle|] == needle || IsSubstring(needle, hay[1..]))
  }

  /** `s.startswith(prefix)`. */
  predicate StartsWith(s: string, prefix: string) {
    |prefix| <= |s| && s[..|prefix|] == prefix
  }

  /** `sep.join(parts)`. */
  function Join(parts: seq<string>, sep: string): string {
    if |parts| == 0 then ""
    else if |parts| == 1 then parts[0]
    else parts[0] + sep + Join(parts[1..], sep)
  }

  function Digit(d: nat): char
    requires d < 10
  {
    "0123456789"[d]
  }

  /** `str(n)` for a non-negative integer: its decimal digits, most significant first. */
  function NatToString(n: nat): (s: string)
    ensures |s| > 0
    ensures forall i :: 0 <= i < |s| ==> '0' <= s[i] <= '9'
  {
    if n < 10 then [Digit(n)] else NatToString(n / 10) + [Digit(n % 10)]
  }

  /** The value of a decimal digit character. */
  function DigitValue(c: char): nat {
    if '0' <= c <= '9' then c as int - '0' as int else 0
  }

  /** The number a string of decimal digits denotes, most significant first. */
  function DecimalValue(s: string): nat {
    if s == [] then 0 else 10 * DecimalValue(s[..|s| - 1]) + DigitValue(s[|s| - 1])
  }

  // ---------------------------------------------------------------------
  // Properties

  /** `str(n)` reads back as `n` and has no leading zero. */
  lemma {:induction false} NatToStringValue(n: nat)
    ensures DecimalValue(NatToString(n)) == n
    ensures NatToString(n)[0] != '0' || n == 0
  {
    var s := NatToString(n);
    if n < 10 {
      assert s == [Digit(n)];
      assert DigitValue(Digit(n)) == n;
    } else {
      NatToStringValue(n / 10);
      assert s[..|s| - 1] == NatToString(n / 10);
      assert DigitValue(Digit(n % 10)) == n % 10;
      assert s[0] == NatToString(n / 10)[0];
    }
  }

  /** `needle` occurs in `hay` starting at offset `k`. */
  predicate OccursAt(needle: string, hay: string, k: int) {
    0 <= k <= |hay| - |needle| && hay[k..k + |needle|] == needle
  }

  /** `in` means: the needle occurs at some offset of the hay. */
  lemma {:induction false} IsSubstringIff(needle: string, hay: string)
    ensures IsSubstring(needle, hay) <==> exists k :: OccursAt(needle, hay, k)
  {
    if |needle| <= |hay| {
      if hay[..|needle|] == needle {
        assert OccursAt(needle, hay, 0);
      } else {
        IsSubstringIff(needle, hay[1..]);
        if IsSubstring(needle, hay[1..]) {
          var k :| OccursAt(needle, hay[1..], k);
          assert hay[k + 1..k + 1 + |needle|] == hay[1..][k..k + |needle|];
          assert OccursAt(needle, hay, k + 1);
        }
        if exists k :: OccursAt(needle, hay, k) {
          var k :| OccursAt(needle, hay, k);
          assert k != 0;
          assert hay[1..][k - 1..k - 1 + |needle|] == hay[k..k + |needle|];
          assert OccursAt(needle, hay[1..], k - 1);
        }
      }
    }
  }

  /** `split()` never yields more words than there are non-whitespace characters. */
  lemma {:induction false} WordCountAtMostNonSpace(s: string)
    ensures WordCount(s) <= NonSpaceCount(s)
  {
    if s != [] {
      WordCountAtMostNonSpace(s[1..]);
    }
  }

  /** Lower-casing keeps every character's whitespace class. */
  lemma {:induction false} LowerKeepsNonSpace(s: string)
    ensures NonSpaceCount(Lower(s)) == NonSpaceCount(s)
  {
    if s != [] {
      assert Lower(s)[1..] == Lower(s[1..]);
      LowerKeepsNonSpace(s[1..]);
    }
  }

  lemma {:induction false} NonSpaceCountLast(s: string)
    requires s != []
    ensures NonSpaceCount(s) == NonSpaceCount(s[..|s| - 1]) + (if IsSpace(s[|s| - 1]) then 0 else 1)
  {
    if |s| > 1 {
      assert s[1..][..|s| - 2] == s[..|s| - 1][1..];
      NonSpaceCountLast(s[1..]);
    }
  }

  /** `strip()` removes whitespace only. */
  lemma {:induction false} StripKeepsNonSpace(s: string)
    ensures NonSpaceCount(Strip(s)) == NonSpaceCount(s)
  {
    TrimStartKeepsNonSpace(s);
    TrimEndKeepsNonSpace(TrimStart(s));
  }

  lemma {:induction false} TrimStartKeepsNonSpace(s: string)
    ensures NonSpaceCount(TrimStart(s)) == NonSpaceCount(s)
  {
    if |s| > 0 && IsSpace(s[0]) {
      TrimStartKeepsNonSpace(s[1..]);
    }
  }

  lemma {:induction false} TrimEndKeepsNonSpace(s: string)
    ensures NonSpaceCount(TrimEnd(s)) == NonSpaceCount(s)
  {
    if |s| > 0 && IsSpace(s[|s| - 1]) {
      NonSpaceCountLast(s);
      TrimEndKeepsNonSpace(s[..|s| - 1]);
    }
  }

  /** `k` parts joined by `sep` hold exactly `k - 1` copies of `sep` beside the parts. */
  lemma {:induction false} JoinLength(parts: seq<string>, sep: string)
    requires |parts| > 0
    ensures |Join(parts, sep)| == TotalLength(parts) + (|parts| - 1) * |sep|
  {
    if |parts| > 1 {
      JoinLength(parts[1..], sep);
    }
  }

  function TotalLength(parts: seq<string>): nat {
    if parts == [] then 0 else |parts[0]| + TotalLength(parts[1..])
  }

  /** A non-empty join begins with the first part. */
  lemma {:induction false} JoinStartsWithFirst(parts: seq<string>, sep: string)
    requires |parts| > 0
    ensures StartsWith(Join(parts, sep), parts[0])
  {
  }

  /** Lower-casing distributes over concatenation. */
  lemma {:induction false} LowerAppend(a: string, b: string)
    ensures Lower(a + b) == Lower(a) + Lower(b)
  {
    if a != [] {
      assert (a + b)[1..] == a[1..] + b;
      LowerAppend(a[1..], b);
    }
  }

  /** A needle holding a character the hay lacks does not occur in it. */
  lemma AbsentCharNotSubstring(needle: string, hay: string, c: char)
    requires c in needle && c !in hay
    ensures !IsSubstring(needle, hay)
  {
    IsSubstringIff(needle, hay);
  }

  /**
   * When the needle's first character `c` occurs in the hay exactly once, followed
   * by something other than the needle's second character, the needle does not occur.
   */
  lemma UniqueFirstCharNotSubstring(needle: string, before: string, c: char, after: string)
    requires |needle| >= 2 && needle[0] == c
    requires c !in before && c !in after
    requires after == [] || after[0] != needle[1]
    ensures !IsSubstring(needle, before + [c] + after)
  {
    IsSubstringIff(needle, before + [c] + after);
  }
}
