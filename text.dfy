/**
 * String helpers shared by the model: the ASCII part of Python's and JavaScript's
 * lower-casing, whitespace (which differs between the two), strip/trim, split and
 * substring tests.
 */
module Text {

  /** Whose whitespace rules a trim or split follows. */
  datatype Runtime = Python | JavaScript

  /**
   * The ASCII whitespace of each runtime. Both treat space, tab, line feed, carriage return,
   * vertical tab and form feed as whitespace; Python's `str.isspace`, which `split()`,
   * `strip()` and `int()` use, also counts the separators U+001C to U+001F.
   */
  predicate IsSpace(c: char, rt: Runtime) {
    || c == ' ' || c == '\t' || c == '\n' || c == '\r' || c == '\U{000B}' || c == '\U{000C}'
    || (rt == Python && '\U{001C}' <= c <= '\U{001F}')
  }

  predicate IsDigit(c: char) {
    '0' <= c <= '9'
  }

  predicate IsAsciiAlnum(c: char) {
    IsDigit(c) || 'a' <= c <= 'z' || 'A' <= c <= 'Z'
  }

  function LowerChar(c: char): char {
    if 'A' <= c <= 'Z' then (c as int + 32) as char else c
  }

  /** `s.lower()` / `s.toLowerCase()` on ASCII letters. */
  function Lower(s: string): (r: string)
    ensures |r| == |s|
    ensures forall i :: 0 <= i < |s| ==> r[i] == LowerChar(s[i])
  {
    if s == [] then [] else [LowerChar(s[0])] + Lower(s[1..])
  }

  /** A string without upper-case letters is its own lower-case form. */
  lemma LowerKeepsLowercase(s: string)
    requires forall i :: 0 <= i < |s| ==> !('A' <= s[i] <= 'Z')
    ensures Lower(s) == s
  {
  }

  /** Every character is whitespace (the empty string included). */
  predicate IsBlank(s: string, rt: Runtime) {
    forall i :: 0 <= i < |s| ==> IsSpace(s[i], rt)
  }

  /** Python's `s.lstrip()`; JavaScript's `s.trimStart()`. */
  function TrimStart(s: string, rt: Runtime): string {
    if s != [] && IsSpace(s[0], rt) then TrimStart(s[1..], rt) else s
  }

  /** Python's `s.rstrip()`; JavaScript's `s.trimEnd()`. */
  function TrimEnd(s: string, rt: Runtime): string {
    if s != [] && IsSpace(s[|s| - 1], rt) then TrimEnd(s[..|s| - 1], rt) else s
  }

  /** `lstrip` removes exactly the leading whitespace: what remains is a suffix starting with a non-space. */
  lemma {:induction false} TrimStartSpec(s: string, rt: Runtime)
    ensures var r := TrimStart(s, rt);
      && |r| <= |s| && r == s[|s| - |r|..]
      && (r == [] || !IsSpace(r[0], rt))
      && IsBlank(s[..|s| - |r|], rt)
  {
    if s != [] && IsSpace(s[0], rt) {
      var r := TrimStart(s[1..], rt);
      TrimStartSpec(s[1..], rt);
      assert s[1..][..|s[1..]| - |r|] == s[1..|s| - |r|];
    }
  }

  /** `rstrip` removes exactly the trailing whitespace: what remains is a prefix ending with a non-space. */
  lemma {:induction false} TrimEndSpec(s: string, rt: Runtime)
    ensures var r := TrimEnd(s, rt);
      && |r| <= |s| && r == s[..|r|]
      && (r == [] || !IsSpace(r[|r| - 1], rt))
      && IsBlank(s[|r|..], rt)
  {
    if s != [] && IsSpace(s[|s| - 1], rt) {
      var r := TrimEnd(s[..|s| - 1], rt);
      TrimEndSpec(s[..|s| - 1], rt);
      assert s[..|s| - 1][|r|..] + [s[|s| - 1]] == s[|r|..];
    }
  }

  /** Python's `s.strip()` and JavaScript's `s.trim()`. */
  function Strip(s: string, rt: Runtime): string {
    TrimEnd(TrimStart(s, rt), rt)
  }

  /** A string with no whitespace at either end strips to itself. */
  lemma StripUnpadded(s: string, rt: Runtime)
    requires s != [] && !IsSpace(s[0], rt) && !IsSpace(s[|s| - 1], rt)
    ensures Strip(s, rt) == s
  {
  }

  /** A string strips to nothing exactly when it is all whitespace. */
  lemma {:induction false} StripEmptyIffBlank(s: string, rt: Runtime)
    ensures Strip(s, rt) == "" <==> IsBlank(s, rt)
  {
    var t := TrimStart(s, rt);
    TrimStartSpec(s, rt);
    TrimEndSpec(t, rt);
    if Strip(s, rt) == "" {
      assert t == [];
      assert s[..|s| - |t|] == s;
    }
  }

  /** Evaluates the Python condition `if s.strip():`. */
  method StripIsTruthy(s: string) returns (b: bool)
    ensures b <==> !IsBlank(s, Python)
  {
    b := Strip(s, Python) != "";
    StripEmptyIffBlank(s, Python);
  }

  /** `p` is a prefix of `s` (`s.startswith(p)`). */
  predicate StartsWith(s: string, p: string) {
    |p| <= |s| && s[..|p|] == p
  }

  /** `t` occurs in `s` (Python's `t in s`, JavaScript's `s.includes(t)`). */
  predicate Contains(s: string, t: string)
    decreases |s|
  {
    StartsWith(s, t) || (s != [] && Contains(s[1..], t))
  }

  /** Containment means an occurrence at some offset. */
  lemma {:induction false} ContainsAt(s: string, t: string, k: nat)
    requires k + |t| <= |s| && s[k..k + |t|] == t
    ensures Contains(s, t)
    decreases k
  {
    if k > 0 {
      assert s[1..][k - 1..k - 1 + |t|] == t;
      ContainsAt(s[1..], t, k - 1);
    }
  }

  /** Every string contains the empty string. */
  lemma ContainsEmpty(s: string)
    ensures Contains(s, "")
  {
  }

  /** JavaScript's `s.toLowerCase().includes(t.toLowerCase())`. */
  predicate ContainsIgnoringCase(s: string, t: string) {
    Contains(Lower(s), Lower(t))
  }

  /** A string never contains a longer one. */
  lemma {:induction false} ContainsOnlyShorter(s: string, t: string)
    requires |t| > |s|
    ensures !Contains(s, t)
    decreases |s|
  {
    if s != [] {
      ContainsOnlyShorter(s[1..], t);
    }
  }

  /** A string contains each piece it is assembled from. */
  lemma ContainsInfix(a: string, b: string, c: string)
    ensures Contains(a + b + c, b)
  {
    var s := a + b + c;
    assert s[|a|..|a| + |b|] == b;
    ContainsAt(s, b, |a|);
  }

  /** Python's `any(k in text for k in keywords)`. */
  predicate ContainsAny(text: string, keywords: seq<string>) {
    keywords != [] && (Contains(text, keywords[0]) || ContainsAny(text, keywords[1..]))
  }

  lemma {:induction false} ContainsAnySpec(text: string, keywords: seq<string>)
    ensures ContainsAny(text, keywords) <==> exists i :: 0 <= i < |keywords| && Contains(text, keywords[i])
  {
    if keywords != [] {
      ContainsAnySpec(text, keywords[1..]);
      if !Contains(text, keywords[0]) && exists i :: 0 <= i < |keywords| && Contains(text, keywords[i]) {
        var i :| 0 <= i < |keywords| && Contains(text, keywords[i]);
        assert keywords[1..][i - 1] == keywords[i];
      }
    }
  }

  /** Number of leading non-whitespace characters. */
  function WordLength(s: string): (n: nat)
    ensures n <= |s|
    ensures forall i :: 0 <= i < n ==> !IsSpace(s[i], Python)
    ensures n == |s| || IsSpace(s[n], Python)
  {
    if s == [] || IsSpace(s[0], Python) then 0 else 1 + WordLength(s[1..])
  }

  /** Python's `s.split()` with no argument: the maximal runs of non-whitespace characters, in order. */
  function Words(s: string): (ws: seq<string>)
    ensures forall i :: 0 <= i < |ws| ==> ws[i] != [] && !HasSpace(ws[i])
    decreases |s|
  {
    if s == [] then []
    else if IsSpace(s[0], Python) then Words(s[1..])
    else
      var n := WordLength(s);
      [s[..n]] + Words(s[n..])
  }

  /** There are never more words than characters. */
  lemma {:induction false} WordCountBound(s: string)
    ensures |Words(s)| <= |s|
    decreases |s|
  {
    if s != [] {
      if IsSpace(s[0], Python) {
        WordCountBound(s[1..]);
      } else {
        WordCountBound(s[WordLength(s)..]);
      }
    }
  }

  predicate HasSpace(s: string) {
    exists i :: 0 <= i < |s| && IsSpace(s[i], Python)
  }

  /** Index of the first `c` in `s`. */
  function IndexOf(s: string, c: char): (i: nat)
    requires c in s
    ensures i < |s| && s[i] == c && c !in s[..i]
  {
    if s[0] == c then 0 else 1 + IndexOf(s[1..], c)
  }

  /** Python's `s.split(sep)` for a one-character separator: empty pieces are kept. */
  function SplitOn(s: string, sep: char): (parts: seq<string>)
    ensures |parts| >= 1
    ensures forall i :: 0 <= i < |parts| ==> sep !in parts[i]
    decreases |s|
  {
    if sep in s then
      var i := IndexOf(s, sep);
      [s[..i]] + SplitOn(s[i + 1..], sep)
    else [s]
  }

  /**
   * Python's `s[i:j]` for non-negative bounds: the bounds are clamped to the string and
   * an empty or reversed range gives "".
   */
  function PySlice(s: string, i: nat, j: nat): string {
    var e := if j <= |s| then j else |s|;
    if i >= e then "" else s[i..e]
  }

  /** A slice is never longer than its range or than the string, and within bounds it is the plain subsequence. */
  lemma PySliceBounds(s: string, i: nat, j: nat)
    ensures |PySlice(s, i, j)| <= |s|
    ensures i <= j ==> |PySlice(s, i, j)| <= j - i
    ensures i <= j <= |s| ==> PySlice(s, i, j) == s[i..j]
  {
  }

  /** `sep.join(parts)`. */
  function Join(parts: seq<string>, sep: string): string {
    if |parts| == 0 then ""
    else if |parts| == 1 then parts[0]
    else parts[0] + sep + Join(parts[1..], sep)
  }

  function DigitChar(d: nat): char
    requires d < 10
  {
    ('0' as int + d) as char
  }

  /** Decimal rendering of a natural number, as `str(n)` gives it. */
  function NatToString(n: nat): (r: string)
    ensures r != [] && forall i :: 0 <= i < |r| ==> IsDigit(r[i])
  {
    if n < 10 then [DigitChar(n)] else NatToString(n / 10) + [DigitChar(n % 10)]
  }

  predicate AllDigits(s: string) {
    forall i :: 0 <= i < |s| ==> IsDigit(s[i])
  }

  /** The value of a string of decimal digits. */
  function DigitsValue(s: string): nat
    requires AllDigits(s)
  {
    if s == [] then 0 else DigitsValue(s[..|s| - 1]) * 10 + (s[|s| - 1] as int - '0' as int)
  }

  /** Reading back a rendered number gives the number. */
  lemma {:induction false} DigitsValueOfNatToString(n: nat)
    ensures DigitsValue(NatToString(n)) == n
  {
    if n >= 10 {
      var r := NatToString(n);
      assert r[..|r| - 1] == NatToString(n / 10);
      DigitsValueOfNatToString(n / 10);
    }
  }
}
