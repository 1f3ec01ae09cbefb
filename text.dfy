/** String helpers with the meaning of the Python and JavaScript built-ins the system uses. */
module Text {

  type String = seq<char>

  /** Python's `str.isspace` for one character. */
  predicate IsSpace(c: char)
  {
    ('\t' <= c <= '\r') || ('\U{1C}' <= c <= '\U{1F}') || c == ' ' || c == '\U{85}' || c == '\U{A0}'
    || c == '\U{1680}' || ('\U{2000}' <= c <= '\U{200A}') || c == '\U{2028}' || c == '\U{2029}'
    || c == '\U{202F}' || c == '\U{205F}' || c == '\U{3000}'
  }

  /** Python's `str.lstrip()`. */
  function TrimLeft(s: String): (r: String)
    ensures |r| <= |s| && r == s[|s| - |r|..]
    ensures r == [] || !IsSpace(r[0])
    ensures forall i :: 0 <= i < |s| - |r| ==> IsSpace(s[i])
  {
    if s != [] && IsSpace(s[0]) then TrimLeft(s[1..]) else s
  }

  /** Python's `str.rstrip()`. */
  function TrimRight(s: String): (r: String)
    ensures |r| <= |s| && r == s[..|r|]
    ensures r == [] || !IsSpace(r[|r| - 1])
    ensures forall i :: |r| <= i < |s| ==> IsSpace(s[i])
  {
    if s != [] && IsSpace(s[|s| - 1]) then TrimRight(s[..|s| - 1]) else s
  }

  /** Python's `str.strip()`. */
  function Strip(s: String): String
  {
    TrimRight(TrimLeft(s))
  }

  predicate IsPrefix(p: String, s: String)
  {
    |p| <= |s| && s[..|p|] == p
  }

  /** `pat` occurs in `s` starting at index `i`. */
  predicate OccursAt(s: String, pat: String, i: int)
  {
    0 <= i && i + |pat| <= |s| && s[i..i + |pat|] == pat
  }

  /** The first index at or after `from` where `pat` occurs, or -1. */
  function IndexFrom(s: String, pat: String, from: nat): (r: int)
    decreases |s| + 1 - from
    ensures r == -1 || (from <= r && OccursAt(s, pat, r))
    ensures forall i :: from <= i < (if r == -1 then |s| + 1 else r) ==> !OccursAt(s, pat, i)
  {
    if from + |pat| > |s| then -1
    else if s[from..from + |pat|] == pat then from
    else IndexFrom(s, pat, from + 1)
  }

  /** Python's `s.find(pat)`. */
  function IndexOf(s: String, pat: String): int
  {
    IndexFrom(s, pat, 0)
  }

  /** Python's `pat in s`. */
  predicate Contains(s: String, pat: String)
  {
    IndexOf(s, pat) >= 0
  }

  /** A text contains whatever is written inside it. */
  lemma ContainsInside(before: String, pat: String, after: String)
    ensures Contains(before + pat + after, pat)
  {
    var s := before + pat + after;
    assert s[|before|..|before| + |pat|] == pat;
    assert OccursAt(s, pat, |before|);
  }

  /** Python's `s.rfind(c)` for one character. */
  function LastIndexOfChar(s: String, c: char): (r: int)
    ensures -1 <= r < |s|
    ensures r >= 0 ==> s[r] == c
    ensures forall j :: r < j < |s| ==> s[j] != c
  {
    if s == [] then -1
    else if s[|s| - 1] == c then |s| - 1
    else LastIndexOfChar(s[..|s| - 1], c)
  }

  /** Python's `s.split(sep)[0]`: everything before the first `sep`. */
  function Before(s: String, sep: String): (r: String)
    requires sep != []
    ensures IsPrefix(r, s)
    ensures !Contains(r, sep)
    ensures Contains(s, sep) <==> |r| < |s|
    ensures Contains(s, sep) ==> OccursAt(s, sep, |r|)
  {
    var i := IndexOf(s, sep);
    var r := if i < 0 then s else s[..i];
    assert forall j :: OccursAt(r, sep, j) ==> OccursAt(s, sep, j) by {
      forall j | OccursAt(r, sep, j) ensures OccursAt(s, sep, j) {
        assert r[j..j + |sep|] == s[j..j + |sep|];
      }
    }
    r
  }

  /** Everything after the first `sep`; `s.split(sep)[1]` is `Before(After(s, sep), sep)`. */
  function After(s: String, sep: String): (r: String)
    requires Contains(s, sep)
    ensures OccursAt(s, sep, |s| - |r| - |sep|) && r == s[|s| - |r|..]
    ensures forall i :: 0 <= i < |s| - |r| - |sep| ==> !OccursAt(s, sep, i)
  {
    s[IndexOf(s, sep) + |sep|..]
  }

  /** `c` is an upper-case ASCII letter; its lower-case form is `c + 32`. */
  predicate IsAsciiUpper(c: char)
  {
    'A' <= c <= 'Z'
  }

  /** Lower-cases the ASCII letters of `s` and keeps every other character. */
  function AsciiLower(s: String): (r: String)
    ensures |r| == |s|
    ensures forall i :: 0 <= i < |s| ==>
      r[i] == if IsAsciiUpper(s[i]) then (s[i] as int + 32) as char else s[i]
  {
    if s == [] then []
    else [if IsAsciiUpper(s[0]) then (s[0] as int + 32) as char else s[0]] + AsciiLower(s[1..])
  }

  /** JavaScript's `s.length`: characters outside the Basic Multilingual Plane count twice. */
  function Utf16Length(s: String): (n: nat)
    ensures |s| <= n <= 2 * |s|
    ensures |s| == 1 ==> n == if s[0] as int >= 0x1_0000 then 2 else 1
  {
    if s == [] then 0 else (if s[0] as int >= 0x1_0000 then 2 else 1) + Utf16Length(s[1..])
  }

  /** Code units add up over a concatenation. */
  lemma {:induction false} Utf16LengthAppend(a: String, b: String)
    ensures Utf16Length(a + b) == Utf16Length(a) + Utf16Length(b)
    decreases |a|
  {
    if a == [] {
      assert a + b == b;
    } else {
      assert (a + b)[0] == a[0] && (a + b)[1..] == a[1..] + b;
      Utf16LengthAppend(a[1..], b);
    }
  }

  /** Three characters outside the Basic Multilingual Plane already make six code units. */
  lemma ThreeAstralCharactersAreSix(c1: char, c2: char, c3: char)
    requires c1 as int >= 0x1_0000 && c2 as int >= 0x1_0000 && c3 as int >= 0x1_0000
    ensures Utf16Length([c1, c2, c3]) == 6
  {
    Utf16LengthAppend([c1], [c2, c3]);
    Utf16LengthAppend([c2], [c3]);
    assert [c1] + [c2, c3] == [c1, c2, c3] && [c2] + [c3] == [c2, c3];
  }

  /** A decimal digit as Python's `\d` sees it: ASCII or full-width. */
  predicate IsDigit(c: char)
  {
    ('0' <= c <= '9') || ('\U{FF10}' <= c <= '\U{FF19}')
  }

  function DigitValue(c: char): (d: nat)
    requires IsDigit(c)
    ensures d < 10
  {
    if '0' <= c <= '9' then c as int - '0' as int else c as int - '\U{FF10}' as int
  }

  /** The value of a run of decimal digits, as Python's `int` or `float` reads it. */
  function DecimalValue(ds: String): nat
    requires forall i :: 0 <= i < |ds| ==> IsDigit(ds[i])
  {
    if ds == [] then 0 else 10 * DecimalValue(ds[..|ds| - 1]) + DigitValue(ds[|ds| - 1])
  }
}
