/**
 * The pieces of Python's `str` behaviour that the modelled code relies on:
 * whitespace as `str.isspace` sees it, `strip`, `split()`, `"sep".join`,
 * `splitlines` (on '\n' only), `upper` (ASCII only), integer formatting,
 * and the substring operations `in`, `count`, `find` and `replace(old, new, 1)`.
 */
module Text {

  import opened Wrappers

  /** The characters for which Python's `str.isspace()` is true (and `\s` in a `re` pattern matches). */
  predicate IsSpace(c: char) {
    c == ' ' || ('\t' <= c <= '\r') || ('\U{1C}' <= c <= '\U{1F}')
    || c == '\U{85}' || c == '\U{A0}' || c == '\U{1680}'
    || ('\U{2000}' <= c <= '\U{200A}') || c == '\U{2028}' || c == '\U{2029}'
    || c == '\U{202F}' || c == '\U{205F}' || c == '\U{3000}'
  }

  /** Number of whitespace characters at the front of `s`. */
  function LeadingSpaces(s: string): (n: nat)
    ensures n <= |s|
    ensures forall k :: 0 <= k < n ==> IsSpace(s[k])
    ensures n < |s| ==> !IsSpace(s[n])
  {
    if s == [] || !IsSpace(s[0]) then 0 else 1 + LeadingSpaces(s[1..])
  }

  /** Number of whitespace characters at the back of `s`. */
  function TrailingSpaces(s: string): (n: nat)
    ensures n <= |s|
    ensures forall k :: |s| - n <= k < |s| ==> IsSpace(s[k])
    ensures n < |s| ==> !IsSpace(s[|s| - 1 - n])
  {
    if s == [] || !IsSpace(s[|s| - 1]) then 0 else 1 + TrailingSpaces(s[..|s| - 1])
  }

  /** Python's `s.strip()`: the longest slice of `s` that neither starts nor ends with whitespace. */
  function Strip(s: string): (r: string)
    ensures |r| <= |s|
    ensures r != [] ==> !IsSpace(r[0]) && !IsSpace(r[|r| - 1])
    ensures r == [] <==> forall k :: 0 <= k < |s| ==> IsSpace(s[k])
    ensures exists i, j :: 0 <= i <= j <= |s| && r == s[i..j]
  {
    var a := LeadingSpaces(s);
    if a == |s| then assert s[0..0] == ""; "" else
      var rest := s[a..];
      var b := TrailingSpaces(rest);
      assert b < |rest| by { assert !IsSpace(rest[0]); }
      var r := rest[..|rest| - b];
      assert r == s[a..|s| - b];
      r
  }

  /** Python's `s.split()[0] if s.split() else ""`: the first whitespace-separated token. */
  function FirstWord(s: string): (w: string)
    ensures forall k :: 0 <= k < |w| ==> !IsSpace(w[k])
    ensures w == [] <==> forall k :: 0 <= k < |s| ==> IsSpace(s[k])
  {
    var a := LeadingSpaces(s);
    s[a..a + TokenLength(s[a..])]
  }

  /** Length of the run of non-whitespace characters at the front of `s`. */
  function TokenLength(s: string): (n: nat)
    ensures n <= |s|
    ensures forall k :: 0 <= k < n ==> !IsSpace(s[k])
    ensures s != [] && !IsSpace(s[0]) ==> n > 0
  {
    if s == [] || IsSpace(s[0]) then 0 else 1 + TokenLength(s[1..])
  }

  /** Python's `sep.join(parts)`. */
  function Join(parts: seq<string>, sep: string): string {
    if parts == [] then ""
    else if |parts| == 1 then parts[0]
    else parts[0] + sep + Join(parts[1..], sep)
  }

  /** A slice bound as Python normalises it against a length `n`. */
  function Bound(i: int, n: nat): (b: nat)
    ensures b <= n
    ensures 0 <= i <= n ==> b == i
    ensures i > n ==> b == n
    ensures i < 0 ==> b == if i + n < 0 then 0 else i + n
  {
    if i < 0 then (if i + n < 0 then 0 else i + n) else if i > n then n else i
  }

  /** Python's `xs[a:b]`, the one slicing operation the other modules state theirs through. */
  function Slice<T>(xs: seq<T>, a: int, b: int): seq<T> {
    var lo, hi := Bound(a, |xs|), Bound(b, |xs|);
    if hi <= lo then [] else xs[lo..hi]
  }

  /** Python's `xs[:n]` for a non-negative `n`: the first `n` elements, or all when fewer. */
  function Take<T>(xs: seq<T>, n: nat): (r: seq<T>)
    ensures |r| == if |xs| <= n then |xs| else n
    ensures r == xs[..|r|]
  {
    Slice(xs, 0, n)
  }

  /** The decimal digit of `d`. */
  function Digit(d: nat): char
    requires d < 10
  {
    "0123456789"[d]
  }

  /** Python's `str(n)` for a non-negative integer. */
  function NatToString(n: nat): (s: string)
    ensures |s| >= 1
    ensures forall k :: 0 <= k < |s| ==> '0' <= s[k] <= '9'
    decreases n
  {
    if n < 10 then [Digit(n)] else NatToString(n / 10) + [Digit(n % 10)]
  }

  /** Python's `str(i)` for any integer. */
  function IntToString(i: int): string {
    if i < 0 then "-" + NatToString(-i) else NatToString(i)
  }

  /** Python's `f"{n:6}"`: right-aligned in a field of `width` characters. */
  function PadLeft(s: string, width: nat): (r: string)
    ensures |r| == if |s| < width then width else |s|
    ensures r[|r| - |s|..] == s
  {
    if |s| < width then seq(width - |s|, _ => ' ') + s else s
  }

  /** Python's `c.upper()` on an ASCII letter; other characters are kept. */
  function UpperChar(c: char): char {
    if 'a' <= c <= 'z' then (c as int - 'a' as int + 'A' as int) as char else c
  }

  /** Python's `s.upper()` on ASCII text. */
  function Upper(s: string): (r: string)
    ensures |r| == |s|
    ensures forall k :: 0 <= k < |s| ==> r[k] == UpperChar(s[k])
  {
    seq(|s|, k requires 0 <= k < |s| => UpperChar(s[k]))
  }

  /** Python's `s.split('\n')`: the pieces between newlines (always at least one). */
  function Pieces(s: string): (r: seq<string>)
    ensures |r| >= 1
    ensures forall k :: 0 <= k < |r| ==> '\n' !in r[k]
    ensures '\n' in s ==> |r| >= 2
  {
    if s == [] then [""]
    else if s[0] == '\n' then [""] + Pieces(s[1..])
    else
      var rest := Pieces(s[1..]);
      [[s[0]] + rest[0]] + rest[1..]
  }

  /**
   * Python's `s.splitlines()`, for text whose only line terminator is '\n':
   * the pieces between newlines, without the empty piece after a final newline.
   */
  function SplitLines(s: string): (r: seq<string>)
    ensures s == [] <==> r == []
    ensures forall k :: 0 <= k < |r| ==> '\n' !in r[k]
  {
    if s == [] then []
    else
      var p := Pieces(s);
      if s[|s| - 1] == '\n' then p[..|p| - 1] else p
  }

  /** Joining the pieces with newlines gives the text back. */
  lemma {:induction false} JoinPieces(s: string)
    ensures Join(Pieces(s), "\n") == s
  {
    if s == [] {
    } else if s[0] == '\n' {
      JoinPieces(s[1..]);
      assert s == [s[0]] + s[1..];
    } else {
      var rest := Pieces(s[1..]);
      JoinPieces(s[1..]);
      assert s == [s[0]] + s[1..];
      if |rest| == 1 {
      } else {
        assert Join(rest, "\n") == rest[0] + "\n" + Join(rest[1..], "\n");
        assert ([[s[0]] + rest[0]] + rest[1..])[1..] == rest[1..];
      }
    }
  }

  /** `p` occurs in `s` at position `i`. */
  predicate OccursAt(s: string, p: string, i: nat) {
    i + |p| <= |s| && s[i..i + |p|] == p
  }

  /** Python's `s.find(p)` as an option: the first position where `p` occurs. */
  function FindFrom(s: string, p: string, i: nat): (r: Option<nat>)
    requires i <= |s|
    ensures r.Some? ==> i <= r.value && OccursAt(s, p, r.value)
    ensures r.Some? ==> forall k :: i <= k < r.value ==> !OccursAt(s, p, k)
    ensures r.None? ==> forall k :: i <= k <= |s| ==> !OccursAt(s, p, k)
    decreases |s| - i
  {
    if OccursAt(s, p, i) then Some(i)
    else if i + |p| >= |s| then
      assert forall k :: i < k <= |s| ==> !OccursAt(s, p, k);
      None
    else FindFrom(s, p, i + 1)
  }

  /** Python's `p in s`. */
  predicate Contains(s: string, p: string) {
    FindFrom(s, p, 0).Some?
  }

  /** Python's `s.count(p)` for a non-empty `p`: non-overlapping occurrences, scanned left to right. */
  function CountFrom(s: string, p: string, i: nat): nat
    requires p != []
    requires i <= |s|
    decreases |s| - i
  {
    if i + |p| > |s| then 0
    else if OccursAt(s, p, i) then 1 + CountFrom(s, p, i + |p|)
    else CountFrom(s, p, i + 1)
  }

  /** Python's `s.count(p)`; the empty string is counted at every one of the |s| + 1 positions. */
  function Count(s: string, p: string): nat {
    if p == [] then |s| + 1 else CountFrom(s, p, 0)
  }

  /** Python's `s.replace(p, r, 1)`: the first occurrence of `p` replaced by `r`. */
  function ReplaceFirst(s: string, p: string, r: string): string {
    match FindFrom(s, p, 0)
    case None => s
    case Some(i) => s[..i] + r + s[i + |p|..]
  }

  /** `count` is positive exactly when the pattern occurs at or after `i`. */
  lemma {:induction false} CountFromPositive(s: string, p: string, i: nat)
    requires p != [] && i <= |s|
    ensures CountFrom(s, p, i) > 0 <==> FindFrom(s, p, i).Some?
    decreases |s| - i
  {
    if i + |p| > |s| {
      assert !OccursAt(s, p, i);
    } else if OccursAt(s, p, i) {
    } else {
      CountFromPositive(s, p, i + 1);
    }
  }

  /** Python's `p in s` holds exactly when `s.count(p) >= 1`. */
  lemma ContainsIffCounted(s: string, p: string)
    ensures Contains(s, p) <==> Count(s, p) >= 1
  {
    if p == [] {
      assert OccursAt(s, p, 0);
    } else {
      CountFromPositive(s, p, 0);
    }
  }
}
