/**
 * The JavaScript string operations the application relies on, stated over
 * `string` (a sequence of Unicode scalar values): truthiness, `trim`,
 * `indexOf`/`includes`, `replace` with a string pattern, number-to-text
 * conversion and `toUpperCase` of one character. Where the application
 * counts or indexes a text (`length`, `charAt`), it sees UTF-16 code units,
 * and `Utf16` gives those.
 */
module Text {
  import opened Wrappers

  /** A string is truthy in JavaScript exactly when it is not empty. */
  predicate Truthy(s: string) {
    s != ""
  }

  /** Truthiness of a string-valued field that may be `null` or `undefined`. */
  predicate TruthyField(s: Option<string>) {
    s.Some? && s.value != ""
  }

  /** `a || b` for string fields: the first operand when it is truthy, otherwise the second. */
  function OrElse(a: Option<string>, b: string): (r: string)
    ensures TruthyField(a) ==> r == a.value
    ensures !TruthyField(a) ==> r == b
  {
    if a.Some? && a.value != "" then a.value else b
  }

  /**
   * The characters `String.prototype.trim` removes: the ECMAScript
   * WhiteSpace and LineTerminator code points.
   */
  predicate IsWhitespace(c: char) {
    c == '\t' || c == '\n' || c == '\U{B}' || c == '\U{C}' || c == '\r' || c == ' '
    || c == '\U{A0}' || c == '\U{1680}' || ('\U{2000}' <= c <= '\U{200A}')
    || c == '\U{2028}' || c == '\U{2029}' || c == '\U{202F}' || c == '\U{205F}'
    || c == '\U{3000}' || c == '\U{FEFF}'
  }

  /** Drops the leading whitespace: the result is the longest suffix that does not start with whitespace. */
  function TrimStart(s: string): (r: string)
    ensures |r| <= |s| && r == s[|s| - |r|..]
    ensures r == "" || !IsWhitespace(r[0])
    ensures forall k :: 0 <= k < |s| - |r| ==> IsWhitespace(s[k])
  {
    if |s| > 0 && IsWhitespace(s[0]) then TrimStart(s[1..]) else s
  }

  /** Drops the trailing whitespace: the result is the longest prefix that does not end with whitespace. */
  function TrimEnd(s: string): (r: string)
    ensures |r| <= |s| && r == s[..|r|]
    ensures r == "" || !IsWhitespace(r[|r| - 1])
    ensures forall k :: |r| <= k < |s| ==> IsWhitespace(s[k])
  {
    if |s| > 0 && IsWhitespace(s[|s| - 1]) then TrimEnd(s[..|s| - 1]) else s
  }

  /** `s.trim()`. */
  function Trim(s: string): string {
    TrimEnd(TrimStart(s))
  }

  /**
   * `r` is the piece `s[i..j]` of `s`, and everything before `i` and from
   * `j` on is whitespace.
   */
  predicate CorePiece(s: string, r: string, i: int, j: int) {
    && 0 <= i <= j <= |s| && r == s[i..j]
    && (forall k :: 0 <= k < i ==> IsWhitespace(s[k]))
    && (forall k :: j <= k < |s| ==> IsWhitespace(s[k]))
  }

  /**
   * What `trim` returns: a contiguous piece of the input with only
   * whitespace around it, which neither starts nor ends with whitespace.
   */
  lemma TrimIsCore(s: string)
    ensures exists i, j :: CorePiece(s, Trim(s), i, j)
    ensures Trim(s) == "" || (!IsWhitespace(Trim(s)[0]) && !IsWhitespace(Trim(s)[|Trim(s)| - 1]))
  {
    var t := TrimStart(s);
    var e := TrimEnd(t);
    var i := |s| - |t|;
    var j := i + |e|;
    assert s[i..j] == e by {
      assert t == s[i..] && e == t[..|e|];
    }
    forall k | j <= k < |s| ensures IsWhitespace(s[k]) {
      assert s[k] == t[k - i];
    }
    assert CorePiece(s, Trim(s), i, j);
    if e != "" {
      assert e[0] == t[0];
    }
  }

  /** Trimming twice is trimming once. */
  lemma TrimIdempotent(s: string)
    ensures Trim(Trim(s)) == Trim(s)
  {
    var t := Trim(s);
    TrimIsCore(s);
    if t != "" {
      assert TrimStart(t) == t;
      assert TrimEnd(t) == t;
    }
  }

  /** `!s.trim()` holds exactly when every character of `s` is whitespace. */
  lemma BlankIffAllWhitespace(s: string)
    ensures Trim(s) == "" <==> forall k :: 0 <= k < |s| ==> IsWhitespace(s[k])
  {
    if forall k :: 0 <= k < |s| ==> IsWhitespace(s[k]) {
      AllWhitespaceTrimsToEmpty(s);
    }
    if Trim(s) == "" {
      assert TrimStart(s) == "";
    }
  }

  lemma {:induction false} AllWhitespaceTrimsToEmpty(s: string)
    requires forall k :: 0 <= k < |s| ==> IsWhitespace(s[k])
    ensures TrimStart(s) == ""
  {
    if |s| > 0 {
      AllWhitespaceTrimsToEmpty(s[1..]);
    }
  }

  /** `pat` occurs in `s` at index `k`. */
  predicate OccursAt(s: string, pat: string, k: int) {
    0 <= k && k + |pat| <= |s| && s[k..k + |pat|] == pat
  }

  /** The first index at or after `from` where `pat` occurs, or -1. */
  function IndexFrom(s: string, pat: string, from: nat): (r: int)
    requires from <= |s| + 1
    decreases |s| + 1 - from
    ensures r == -1 || (from <= r && OccursAt(s, pat, r))
    ensures forall k :: from <= k && (r == -1 || k < r) ==> !OccursAt(s, pat, k)
  {
    if from + |pat| > |s| then -1
    else if s[from..from + |pat|] == pat then from
    else IndexFrom(s, pat, from + 1)
  }

  /** `s.indexOf(pat)`: the first occurrence of `pat` in `s`, or -1 when there is none. */
  function IndexOf(s: string, pat: string): (r: int)
    ensures r == -1 <==> forall k :: !OccursAt(s, pat, k)
    ensures r != -1 ==> OccursAt(s, pat, r) && forall k :: 0 <= k < r ==> !OccursAt(s, pat, k)
  {
    IndexFrom(s, pat, 0)
  }

  /** `s.includes(pat)`. */
  predicate Includes(s: string, pat: string) {
    IndexOf(s, pat) != -1
  }

  /** `includes` holds exactly when `pat` occurs somewhere in `s`. */
  lemma IncludesIff(s: string, pat: string)
    ensures Includes(s, pat) <==> exists k :: OccursAt(s, pat, k)
  {
  }

  /** A string includes itself and every string includes the empty string. */
  lemma IncludesTrivia(s: string)
    ensures Includes(s, s) && Includes(s, "")
  {
    assert OccursAt(s, s, 0);
    assert OccursAt(s, "", 0);
  }

  /** An occurrence inside `s` is also one inside `p + s + q`. */
  lemma IncludesInContext(p: string, s: string, q: string, pat: string)
    requires Includes(s, pat)
    ensures Includes(p + s + q, pat)
  {
    var k := IndexOf(s, pat);
    assert (p + s + q)[|p| + k..|p| + k + |pat|] == s[k..k + |pat|];
    assert OccursAt(p + s + q, pat, |p| + k);
  }

  /**
   * `s.replace(pat, rep)` with a string pattern: only the first occurrence is
   * replaced, and `s` is returned unchanged when there is none.
   */
  function ReplaceFirst(s: string, pat: string, rep: string): (r: string)
    ensures IndexOf(s, pat) == -1 ==> r == s
    ensures IndexOf(s, pat) != -1 ==>
      var k := IndexOf(s, pat); r == s[..k] + rep + s[k + |pat|..]
  {
    var k := IndexOf(s, pat);
    if k == -1 then s else s[..k] + rep + s[k + |pat|..]
  }

  /** The decimal digit for `d`. */
  function DigitChar(d: nat): (c: char)
    requires d < 10
    ensures '0' <= c <= '9' && c as int - '0' as int == d
  {
    ('0' as int + d) as char
  }

  predicate IsDigit(c: char) {
    '0' <= c <= '9'
  }

  /** The decimal text JavaScript gives for a non-negative integer: no sign and no leading zero. */
  function NatToString(n: nat): (r: string)
    ensures |r| >= 1 && forall k :: 0 <= k < |r| ==> IsDigit(r[k])
    ensures |r| > 1 ==> r[0] != '0'
  {
    if n < 10 then [DigitChar(n)] else NatToString(n / 10) + [DigitChar(n % 10)]
  }

  /** `String(i)` for an integer `i`: a minus sign before the digits of `|i|` when negative. */
  function IntToString(i: int): (r: string)
    ensures |r| >= 1 && (r[0] == '-' <==> i < 0)
    ensures forall k :: 0 < k < |r| ==> IsDigit(r[k])
  {
    if i < 0 then "-" + NatToString(-i) else NatToString(i)
  }

  /** The value of a string of decimal digits. */
  function DigitsValue(s: string): nat
    requires forall k :: 0 <= k < |s| ==> IsDigit(s[k])
  {
    if s == "" then 0
    else
      assert IsDigit(s[|s| - 1]);
      10 * DigitsValue(s[..|s| - 1]) + (s[|s| - 1] as int - '0' as int)
  }

  /** Reading the decimal text of `n` back gives `n`. */
  lemma {:induction false} NatToStringRoundTrip(n: nat)
    ensures DigitsValue(NatToString(n)) == n
  {
    if n >= 10 {
      var r := NatToString(n);
      assert r[..|r| - 1] == NatToString(n / 10);
      NatToStringRoundTrip(n / 10);
    }
  }

  /** Different numbers have different decimal texts. */
  lemma NatToStringInjective(m: nat, n: nat)
    requires NatToString(m) == NatToString(n)
    ensures m == n
  {
    NatToStringRoundTrip(m);
    NatToStringRoundTrip(n);
  }

  /** Different integers have different texts, so `/users/${id}` names one record. */
  lemma IntToStringInjective(i: int, j: int)
    requires IntToString(i) == IntToString(j)
    ensures i == j
  {
    var r := IntToString(i);
    if i < 0 {
      assert r[1..] == NatToString(-i) == NatToString(-j);
      NatToStringInjective(-i, -j);
    } else {
      NatToStringInjective(i, j);
    }
  }

  /**
   * `c.toUpperCase()` for the letters the application's user names use:
   * basic Latin, Latin-1 (where `µ` becomes Greek `Μ`, `ß` becomes `SS` and `ÿ` becomes `Ÿ`) and
   * the basic Cyrillic block. Every other character is left as it is.
   */
  function UpperCase(c: char): (r: string)
    ensures |r| == 1 || r == "SS"
    ensures 'a' <= c <= 'z' ==> r == [(c as int - 32) as char]
    ensures 'A' <= c <= 'Z' ==> r == [c]
  {
    if 'a' <= c <= 'z' then [(c as int - 32) as char]
    else if c == '\U{B5}' then ['\U{39C}']
    else if c == '\U{DF}' then "SS"
    else if ('\U{E0}' <= c <= '\U{FE}') && c != '\U{F7}' then [(c as int - 32) as char]
    else if c == '\U{FF}' then ['\U{178}']
    else if '\U{430}' <= c <= '\U{44F}' then [(c as int - 32) as char]
    else if '\U{450}' <= c <= '\U{45F}' then [(c as int - 80) as char]
    else [c]
  }

  /** A UTF-16 code unit: what a JavaScript string is a sequence of. */
  type CodeUnit = u: int | 0 <= u < 0x1_0000

  /** A character outside the Basic Multilingual Plane, which UTF-16 stores as a surrogate pair. */
  predicate Astral(c: char) {
    c as int >= 0x1_0000
  }

  /**
   * The UTF-16 code units of one character: the character's own value, or
   * a high surrogate followed by a low one that together give it back.
   */
  function CharUnits(c: char): (r: seq<CodeUnit>)
    ensures |r| == (if Astral(c) then 2 else 1)
    ensures !Astral(c) ==> r[0] == c as int
    ensures Astral(c) ==> 0xD800 <= r[0] < 0xDC00 <= r[1] < 0xE000
    ensures Astral(c) ==> 0x1_0000 + (r[0] as int - 0xD800) * 0x400 + (r[1] as int - 0xDC00) == c as int
  {
    if Astral(c) then
      var v := c as int - 0x1_0000;
      [0xD800 + v / 0x400, 0xDC00 + v % 0x400]
    else [c as int]
  }

  /** The text as JavaScript holds it: the code units of each character in turn. */
  function Utf16(s: string): (r: seq<CodeUnit>)
    ensures |s| <= |r| <= 2 * |s|
    ensures s != "" ==> r[0] == CharUnits(s[0])[0]
  {
    if s == "" then [] else CharUnits(s[0]) + Utf16(s[1..])
  }

  /** `s.length`: the number of UTF-16 code units, not of characters. */
  function Length(s: string): nat {
    |Utf16(s)|
  }

  /** A text with no character outside the Basic Multilingual Plane has one code unit per character. */
  lemma {:induction false} LengthWithoutAstral(s: string)
    requires forall k :: 0 <= k < |s| ==> !Astral(s[k])
    ensures Length(s) == |s|
    ensures forall k :: 0 <= k < |s| ==> Utf16(s)[k] == s[k] as int
  {
    if s != "" {
      LengthWithoutAstral(s[1..]);
      assert Utf16(s) == [s[0] as int] + Utf16(s[1..]);
    }
  }

  /** The code units of a concatenation are those of its parts, so `length` adds up. */
  lemma {:induction false} Utf16Append(s: string, t: string)
    ensures Utf16(s + t) == Utf16(s) + Utf16(t)
    ensures Length(s + t) == Length(s) + Length(t)
  {
    if s != "" {
      assert (s + t)[1..] == s[1..] + t;
      Utf16Append(s[1..], t);
    } else {
      assert s + t == t;
    }
  }

  /**
   * `s.charAt(0).toUpperCase()`: empty for the empty string. `charAt(0)`
   * is the first code unit, so a first character outside the Basic
   * Multilingual Plane leaves its high surrogate alone, which
   * `toUpperCase` does not change; any other first character is
   * upper-cased whole.
   */
  function FirstUpper(s: string): (r: seq<CodeUnit>)
    ensures s == "" <==> r == []
    ensures s != "" && !Astral(s[0]) ==> Utf16(s)[0] == s[0] as int && r == Utf16(UpperCase(s[0]))
    ensures s != "" && Astral(s[0]) ==> r == Utf16(s)[..1] && 0xD800 <= r[0] < 0xDC00
  {
    if s == "" then []
    else if Astral(s[0]) then [CharUnits(s[0])[0]]
    else Utf16(UpperCase(s[0]))
  }
}
