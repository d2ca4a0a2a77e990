/** Option type and the few Python string primitives the modelled code relies on:
    `str.find` with a start index, `str.startswith`, `str.strip()`, the `in`
    substring test, and `int()` / `str()` on timestamps. */
module Text {

  datatype Option<+T> = None | Some(value: T)

  /** Python's `str.isspace()` characters: what `\s` matches in a `str` regex and what `strip()` removes. */
  predicate IsSpace(c: char)
  {
    ('\t' <= c <= '\r') || ('\U{1c}' <= c <= ' ') || c == '\U{85}' || c == '\U{a0}'
    || c == '\U{1680}' || ('\U{2000}' <= c <= '\U{200a}') || c == '\U{2028}' || c == '\U{2029}'
    || c == '\U{202f}' || c == '\U{205f}' || c == '\U{3000}'
  }

  predicate IsDigit(c: char)
  {
    '0' <= c <= '9'
  }

  predicate StartsWith(s: string, prefix: string)
  {
    |prefix| <= |s| && s[..|prefix|] == prefix
  }

  /** `w in s` for strings: `w` occurs somewhere in `s`. */
  predicate Contains(s: string, w: string)
  {
    exists i | 0 <= i <= |s| - |w| :: OccursAt(s, w, i)
  }

  /** `w` occurs in `s` starting at index `i`. */
  predicate OccursAt(s: string, w: string, i: int)
  {
    0 <= i && i + |w| <= |s| && s[i..i + |w|] == w
  }

  /** `s.find(c, start)`: Python normalises a negative start as a slice index
      does (counting from the end, clamped at 0); a start past the end finds nothing. */
  function FindChar(s: string, c: char, start: int): (r: int)
    ensures -1 <= r < |s|
    ensures r == -1 <==> forall i | NormStart(s, start) <= i < |s| :: s[i] != c
    ensures r >= 0 ==> NormStart(s, start) <= r && s[r] == c
                       && forall i | NormStart(s, start) <= i < r :: s[i] != c
  {
    FindFrom(s, c, NormStart(s, start))
  }

  function NormStart(s: string, start: int): nat
  {
    if start < 0 then (if start + |s| < 0 then 0 else start + |s|) else start
  }

  function FindFrom(s: string, c: char, i: nat): (r: int)
    decreases |s| - i
    ensures -1 <= r < |s|
    ensures r == -1 <==> forall k | i <= k < |s| :: s[k] != c
    ensures r >= 0 ==> i <= r && s[r] == c && forall k | i <= k < r :: s[k] != c
  {
    if i >= |s| then -1 else if s[i] == c then i else FindFrom(s, c, i + 1)
  }

  /** `s.strip()`: both ends stripped of whitespace. */
  function Strip(s: string): (r: string)
    ensures |r| <= |s|
    ensures r == [] || (!IsSpace(r[0]) && !IsSpace(r[|r| - 1]))
  {
    StripRight(StripLeft(s))
  }

  function StripLeft(s: string): (r: string)
    ensures |r| <= |s| && r == s[|s| - |r|..]
    ensures r == [] || !IsSpace(r[0])
    ensures forall k | 0 <= k < |s| - |r| :: IsSpace(s[k])
  {
    if s != [] && IsSpace(s[0]) then StripLeft(s[1..]) else s
  }

  function StripRight(s: string): (r: string)
    ensures |r| <= |s| && r == s[..|r|]
    ensures r == [] || !IsSpace(r[|r| - 1])
    ensures forall k | |r| <= k < |s| :: IsSpace(s[k])
  {
    if s != [] && IsSpace(s[|s| - 1]) then StripRight(s[..|s| - 1]) else s
  }

  /** `text.strip()` is empty exactly when every character of `text` is whitespace. */
  lemma StripEmptyIffBlank(s: string)
    ensures Strip(s) == [] <==> forall k | 0 <= k < |s| :: IsSpace(s[k])
  {
    var l := StripLeft(s);
    var d := |s| - |l|;
    if Strip(s) == [] {
      forall k | 0 <= k < |s| ensures IsSpace(s[k]) {
        if k >= d { assert s[k] == l[k - d]; }
      }
    } else {
      assert Strip(s)[0] == l[0] == s[d];
    }
  }

  /** Python's `int(x)` on a float: truncation toward zero. */
  function Truncate(x: real): (r: int)
    ensures x >= 0.0 ==> r as real <= x < r as real + 1.0
    ensures x < 0.0 ==> r as real - 1.0 < x <= r as real
  {
    if x >= 0.0 then x.Floor else -((-x).Floor)
  }

  /** Python's `str(n)` for an int: decimal digits, with a leading `-` when negative. */
  function IntToString(n: int): (r: string)
    ensures r != []
    ensures n >= 0 ==> IsDecimal(r) && DecimalValue(r) == n
    ensures n < 0 ==> r[0] == '-' && IsDecimal(r[1..]) && DecimalValue(r[1..]) == -n
  {
    if n < 0 then
      var d := NatToString(-n);
      NatToStringValue(-n);
      assert ("-" + d)[1..] == d;
      "-" + d
    else
      NatToStringValue(n);
      NatToString(n)
  }

  /** The digits of `n` in base 10, most significant first. */
  function NatToString(n: nat): (r: string)
    ensures r != [] && forall k | 0 <= k < |r| :: IsDigit(r[k])
  {
    if n < 10 then [DigitChar(n)] else NatToString(n / 10) + [DigitChar(n % 10)]
  }

  /** `str(n)` spells `n` in base 10 without leading zeros. */
  lemma {:induction false} NatToStringValue(n: nat)
    ensures IsDecimal(NatToString(n)) && DecimalValue(NatToString(n)) == n
  {
    if n < 10 {
      assert [DigitChar(n)][..0] == [];
    } else {
      var hi := NatToString(n / 10);
      NatToStringValue(n / 10);
      assert (hi + [DigitChar(n % 10)])[..|hi|] == hi;
    }
  }

  /** A canonical decimal numeral: at least one digit, and no leading zero unless it is "0". */
  predicate IsDecimal(s: string)
  {
    s != [] && (forall k | 0 <= k < |s| :: IsDigit(s[k])) && (s[0] == '0' ==> s == "0")
  }

  /** The number a string of digits spells in base 10. */
  function DecimalValue(s: string): nat
    requires forall k | 0 <= k < |s| :: IsDigit(s[k])
  {
    if s == [] then 0
    else
      assert IsDigit(s[|s| - 1]);
      DecimalValue(s[..|s| - 1]) * 10 + (s[|s| - 1] as int - '0' as int)
  }

  /** `m.get(k, 0)` on a dictionary of counters. */
  function CountOf<K>(m: map<K, nat>, k: K): nat
  {
    if k in m then m[k] else 0
  }

  function DigitChar(d: nat): (c: char)
    requires d < 10
    ensures IsDigit(c) && c as int - '0' as int == d
  {
    (d + '0' as int) as char
  }
}
