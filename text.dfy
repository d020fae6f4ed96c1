/**
 * String helpers shared by the model: ASCII case mapping, substring search,
 * Rust's `str::split` with a char separator, `str::trim`, and Rust's parsing
 * and printing of unsigned decimal integers.
 *
 * Case mapping and trimming are ASCII-only (Rust and JavaScript apply the
 * Unicode tables); README lists this.
 */
module Text {
  import opened Wrappers

  // ---------------------------------------------------------------------------
  // Case mapping

  function LowerChar(c: char): char {
    if 'A' <= c <= 'Z' then (c as int + 32) as char else c
  }

  function UpperChar(c: char): char {
    if 'a' <= c <= 'z' then (c as int - 32) as char else c
  }

  /** `to_lowercase` / `toLowerCase` on ASCII text. */
  function Lower(s: string): (r: string)
    ensures |r| == |s|
    ensures forall i :: 0 <= i < |s| ==> r[i] == LowerChar(s[i])
  {
    if s == [] then [] else [LowerChar(s[0])] + Lower(s[1..])
  }

  predicate IsLower(s: string) {
    forall i :: 0 <= i < |s| ==> LowerChar(s[i]) == s[i]
  }

  lemma LowerIsLower(s: string)
    ensures IsLower(Lower(s))
    ensures Lower(Lower(s)) == Lower(s)
  {
    var l := Lower(s);
    assert forall i :: 0 <= i < |l| ==> LowerChar(l[i]) == l[i];
    assert Lower(l) == l by {
      assert forall i :: 0 <= i < |l| ==> Lower(l)[i] == l[i];
    }
  }

  /** Lowercasing distributes over concatenation. */
  lemma {:induction false} LowerConcat(a: string, b: string)
    ensures Lower(a + b) == Lower(a) + Lower(b)
  {
    assert forall i :: 0 <= i < |a + b| ==> Lower(a + b)[i] == (Lower(a) + Lower(b))[i];
  }

  // ---------------------------------------------------------------------------
  // Prefix, suffix, substring

  predicate StartsWith(s: string, p: string) {
    p <= s
  }

  predicate EndsWith(s: string, p: string) {
    |p| <= |s| && s[|s| - |p|..] == p
  }

  predicate ContainsAt(s: string, p: string, i: int) {
    0 <= i <= |s| && p <= s[i..]
  }

  /** `str::contains` / `String.prototype.includes`. */
  predicate Contains(s: string, p: string) {
    exists i | 0 <= i <= |s| :: ContainsAt(s, p, i)
  }

  lemma ShiftContainsAt(s: string, p: string, j: int)
    requires |s| > 0 && j >= 1
    ensures ContainsAt(s, p, j) <==> ContainsAt(s[1..], p, j - 1)
  {
    if j <= |s| {
      assert s[1..][j - 1..] == s[j..];
    }
  }

  /** The index of the first occurrence of `p` in `s` (`str::find` / `indexOf`). */
  function IndexOf(s: string, p: string): (r: Option<nat>)
    ensures r.Some? ==> ContainsAt(s, p, r.value)
    ensures r.Some? ==> forall j :: 0 <= j < r.value ==> !ContainsAt(s, p, j)
    ensures r.None? <==> !Contains(s, p)
    decreases |s|
  {
    if p <= s then
      assert ContainsAt(s, p, 0);
      Some(0)
    else if |s| == 0 then
      None
    else
      match IndexOf(s[1..], p)
      case Some(k) =>
        ShiftContainsAt(s, p, k + 1);
        assert forall j :: 1 <= j < k + 1 ==> !ContainsAt(s, p, j) by {
          forall j | 1 <= j < k + 1 ensures !ContainsAt(s, p, j) {
            ShiftContainsAt(s, p, j);
          }
        }
        Some(k + 1)
      case None =>
        assert !Contains(s, p) by {
          forall j | 1 <= j <= |s| ensures !ContainsAt(s, p, j) {
            ShiftContainsAt(s, p, j);
          }
        }
        None
  }

  /** A longer pattern found means each of its substrings is found too. */
  lemma ContainsSub(s: string, p: string, q: string, k: nat)
    requires Contains(s, p)
    requires k + |q| <= |p| && p[k..k + |q|] == q
    ensures Contains(s, q)
  {
    var i :| 0 <= i <= |s| && ContainsAt(s, p, i);
    assert forall t :: 0 <= t < |q| ==> q[t] == s[i + k + t];
    assert ContainsAt(s, q, i + k);
  }

  /** A suffix is in particular a substring. */
  lemma EndsWithContains(s: string, p: string)
    requires EndsWith(s, p)
    ensures Contains(s, p)
  {
    assert ContainsAt(s, p, |s| - |p|);
  }

  /** JavaScript's `String.prototype.replace` with a string pattern: only the first occurrence. */
  function ReplaceFirst(s: string, pat: string, rep: string): (r: string)
    ensures !Contains(s, pat) ==> r == s
    ensures IndexOf(s, pat).Some? ==> var i := IndexOf(s, pat).value; r == s[..i] + rep + s[i + |pat|..]
  {
    match IndexOf(s, pat)
    case None => s
    case Some(i) => s[..i] + rep + s[i + |pat|..]
  }

  /** The occurrence replaced is the first one, wherever it is; the text around it is kept. */
  lemma ReplaceFirstAt(s: string, pat: string, rep: string, i: nat)
    requires ContainsAt(s, pat, i)
    requires forall j :: 0 <= j < i ==> !ContainsAt(s, pat, j)
    ensures ReplaceFirst(s, pat, rep) == s[..i] + rep + s[i + |pat|..]
  {
    assert IndexOf(s, pat) == Some(i);
  }

  // ---------------------------------------------------------------------------
  // Splitting

  /** Rust's `str::split(c)`: always at least one part; separators are dropped. */
  function Split(s: string, c: char): (parts: seq<string>)
    ensures |parts| >= 1
    decreases |s|
  {
    if |s| == 0 then [""]
    else
      var rest := Split(s[1..], c);
      if s[0] == c then [""] + rest
      else [[s[0]] + rest[0]] + rest[1..]
  }

  /** The inverse of `Split`. */
  function Join(parts: seq<string>, c: char): string {
    if |parts| == 0 then ""
    else if |parts| == 1 then parts[0]
    else parts[0] + [c] + Join(parts[1..], c)
  }

  lemma {:induction false} SplitJoin(s: string, c: char)
    ensures Join(Split(s, c), c) == s
    decreases |s|
  {
    if |s| > 0 {
      var rest := Split(s[1..], c);
      SplitJoin(s[1..], c);
      if s[0] == c {
        assert ([""] + rest)[1..] == rest;
      } else {
        var parts := [[s[0]] + rest[0]] + rest[1..];
        if |rest| > 1 {
          assert parts[1..] == rest[1..];
          assert Join(rest, c) == rest[0] + [c] + Join(rest[1..], c);
        }
      }
    }
  }

  lemma {:induction false} SplitPartsFree(s: string, c: char)
    ensures forall k :: 0 <= k < |Split(s, c)| ==> c !in Split(s, c)[k]
    decreases |s|
  {
    if |s| > 0 {
      SplitPartsFree(s[1..], c);
    }
  }

  /** The first part of `s.split(c)` is the text before the first `c`. */
  lemma {:induction false} SplitFirst(s: string, c: char)
    ensures Split(s, c)[0] <= s
    ensures c !in s ==> Split(s, c) == [s]
    ensures c in s ==> |Split(s, c)[0]| < |s| && s[|Split(s, c)[0]|] == c
    decreases |s|
  {
    if |s| > 0 {
      SplitFirst(s[1..], c);
      if s[0] != c {
        assert c in s ==> c in s[1..];
        assert [s[0]] + s[1..] == s;
      }
    }
  }

  /** Splitting at a first separator: the text before it, then the parts of the rest. */
  lemma {:induction false} SplitAfter(x: string, c: char, y: string)
    requires c !in x
    ensures Split(x + [c] + y, c) == [x] + Split(y, c)
    decreases |x|
  {
    if x == [] {
      assert x + [c] + y == [c] + y;
      assert ([c] + y)[1..] == y;
    } else {
      assert (x + [c] + y)[1..] == x[1..] + [c] + y;
      SplitAfter(x[1..], c, y);
      assert [x[0]] + x[1..] == x;
    }
  }

  // ---------------------------------------------------------------------------
  // Trimming (ASCII white space)

  predicate IsSpace(c: char) {
    c == ' ' || c == '\t' || c == '\n' || c == '\r' || c == '\U{B}' || c == '\U{C}'
  }

  function TrimStart(s: string): (r: string)
    ensures |r| <= |s| && r == s[|s| - |r|..]
    ensures forall i :: 0 <= i < |s| - |r| ==> IsSpace(s[i])
    ensures r == [] || !IsSpace(r[0])
    decreases |s|
  {
    if |s| > 0 && IsSpace(s[0]) then TrimStart(s[1..]) else s
  }

  function TrimEnd(s: string): (r: string)
    ensures r <= s
    ensures forall i :: |r| <= i < |s| ==> IsSpace(s[i])
    ensures r == [] || !IsSpace(r[|r| - 1])
    decreases |s|
  {
    if |s| > 0 && IsSpace(s[|s| - 1]) then TrimEnd(s[..|s| - 1]) else s
  }

  /** `str::trim` / `String.prototype.trim`. */
  function Trim(s: string): string {
    TrimEnd(TrimStart(s))
  }

  /** Text that neither starts nor ends with white space is left as it is. */
  lemma TrimFramed(s: string)
    requires |s| > 0 && !IsSpace(s[0]) && !IsSpace(s[|s| - 1])
    ensures Trim(s) == s
  {
    assert TrimStart(s) == s;
  }

  lemma TrimNoSpace(s: string)
    requires forall i :: 0 <= i < |s| ==> !IsSpace(s[i])
    ensures Trim(s) == s
  {
  }

  // ---------------------------------------------------------------------------
  // Unsigned decimal integers as Rust parses and prints them

  predicate IsDigit(c: char) {
    '0' <= c <= '9'
  }

  predicate AllDigits(s: string) {
    forall i :: 0 <= i < |s| ==> IsDigit(s[i])
  }

  function DecimalValue(s: string): nat
    requires AllDigits(s)
  {
    if s == [] then 0
    else 10 * DecimalValue(s[..|s| - 1]) + (s[|s| - 1] as int - '0' as int)
  }

  /**
   * `<uN as FromStr>::from_str` with `bound == 2^N`: an optional leading '+',
   * then one or more ASCII digits whose value is below the bound.
   */
  function ParseUnsigned(s: string, bound: nat): (r: Option<nat>)
    ensures r.Some? ==> r.value < bound
    ensures r.Some? ==> |s| > 0 && (IsDigit(s[0]) || s[0] == '+')
    ensures (|s| == 0 || (|s| == 1 && s[0] == '+')) ==> r.None?
  {
    var digits := if |s| > 0 && s[0] == '+' then s[1..] else s;
    if |digits| == 0 || !AllDigits(digits) then None
    else
      var v := DecimalValue(digits);
      if v < bound then Some(v) else None
  }

  const U32: nat := 0x1_0000_0000
  const U64: nat := 0x1_0000_0000_0000_0000

  function DigitChar(d: nat): char
    requires d < 10
  {
    ('0' as int + d) as char
  }

  /** `n.to_string()` for an unsigned integer: the shortest decimal spelling. */
  function NatToDecimal(n: nat): (r: string)
    ensures |r| >= 1 && AllDigits(r)
    ensures DecimalValue(r) == n
    ensures |r| > 1 ==> r[0] != '0'
  {
    if n < 10 then [DigitChar(n)]
    else
      var prefix := NatToDecimal(n / 10);
      var r := prefix + [DigitChar(n % 10)];
      assert r[..|r| - 1] == prefix;
      r
  }

  /** Printing and then parsing an in-range number gives it back. */
  lemma DecimalRoundTrip(n: nat, bound: nat)
    requires n < bound
    ensures ParseUnsigned(NatToDecimal(n), bound) == Some(n)
  {
  }

  function HexDigit(d: nat): char
    requires d < 16
  {
    "0123456789abcdef"[d]
  }

  /** `format!("{:04x}", n)` for a 16-bit value: exactly four lowercase hex digits. */
  function Hex4(n: nat): (r: string)
    requires n < 0x1_0000
    ensures |r| == 4 && IsLower(r)
  {
    [HexDigit(n / 0x1000), HexDigit(n / 0x100 % 0x10), HexDigit(n / 0x10 % 0x10), HexDigit(n % 0x10)]
  }
}
