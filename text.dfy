/** The JavaScript string operations the dashboard uses: `Number.prototype.toString`
    on integers, `String.prototype.padStart`, `String.prototype.split` on one
    character and `Array.prototype.join('')`, together with a decimal parser that is
    their inverse and is used only to state round trips. */
module Text {

  datatype Option<T> = None | Some(value: T)

  function Pow10(k: nat): (r: nat)
    ensures r >= 1
  {
    if k == 0 then 1 else 10 * Pow10(k - 1)
  }

  predicate IsDigit(c: char) {
    '0' <= c <= '9'
  }

  predicate IsDigits(s: string) {
    forall k :: 0 <= k < |s| ==> IsDigit(s[k])
  }

  function DigitChar(d: nat): (c: char)
    requires d < 10
    ensures IsDigit(c)
  {
    (48 + d) as char
  }

  /** The value of a string of decimal digits, read most significant digit first. */
  function DigitsValue(s: string): nat
    requires IsDigits(s)
  {
    if s == [] then 0
    else DigitsValue(s[..|s| - 1]) * 10 + (s[|s| - 1] as int - 48)
  }

  /** `n.toString()` for a non-negative integer: its decimal digits, no leading zero. */
  function NatToString(n: nat): (r: string)
    ensures |r| >= 1 && IsDigits(r)
  {
    if n < 10 then [DigitChar(n)] else NatToString(n / 10) + [DigitChar(n % 10)]
  }

  /** `i.toString()` for any integer: a minus sign before the digits of a negative value. */
  function IntToString(i: int): string {
    if i < 0 then "-" + NatToString(-i) else NatToString(i)
  }

  function Replicate(n: nat, c: char): (r: string)
    ensures |r| == n && forall k :: 0 <= k < n ==> r[k] == c
  {
    seq(n, _ => c)
  }

  /** `s.padStart(width, c)` with a one-character pad string. */
  function PadStart(s: string, width: nat, c: char): string {
    if |s| >= width then s else Replicate(width - |s|, c) + s
  }

  /** `s.split(sep)` on a one-character separator: the pieces between separators,
      empty pieces included; the empty string splits into one empty piece. */
  function Split(s: string, sep: char): (r: seq<string>)
    ensures |r| >= 1
  {
    if s == [] then [[]]
    else
      var rest := Split(s[1..], sep);
      if s[0] == sep then [[]] + rest else [[s[0]] + rest[0]] + rest[1..]
  }

  /** `ws.join('')`. */
  function Concat(ws: seq<string>): string {
    if ws == [] then [] else ws[0] + Concat(ws[1..])
  }

  /** Splits `t` at the first occurrence of `sep`, if there is one. */
  function SplitOnce(t: string, sep: char): Option<(string, string)> {
    if t == [] then None
    else if t[0] == sep then Some(([], t[1..]))
    else match SplitOnce(t[1..], sep)
      case None => None
      case Some(parts) => Some(([t[0]] + parts.0, parts.1))
  }

  /** Reading back the digits that `toString` writes gives the number. */
  lemma {:induction false} NatToStringValue(n: nat)
    ensures DigitsValue(NatToString(n)) == n
  {
    if n >= 10 {
      var s := NatToString(n);
      assert s[..|s| - 1] == NatToString(n / 10);
      NatToStringValue(n / 10);
    }
  }

  /** A number below 10^k has at most k digits. */
  lemma {:induction false} NatToStringLength(n: nat, k: nat)
    requires 1 <= k && n < Pow10(k)
    ensures |NatToString(n)| <= k
  {
    if n >= 10 {
      NatToStringLength(n / 10, k - 1);
    }
  }

  lemma {:induction false} ZerosValue(z: string)
    requires forall k :: 0 <= k < |z| ==> z[k] == '0'
    ensures IsDigits(z) && DigitsValue(z) == 0
  {
    if z != [] {
      ZerosValue(z[..|z| - 1]);
    }
  }

  /** Leading zeros do not change the value of a digit string. */
  lemma {:induction false} LeadingZerosValue(z: string, s: string)
    requires forall k :: 0 <= k < |z| ==> z[k] == '0'
    requires IsDigits(s)
    ensures IsDigits(z + s) && DigitsValue(z + s) == DigitsValue(s)
  {
    if s == [] {
      assert z + s == z;
      ZerosValue(z);
    } else {
      var s' := s[..|s| - 1];
      assert (z + s)[..|z + s| - 1] == z + s';
      LeadingZerosValue(z, s');
    }
  }

  /** Zero-padding a number's digits keeps them digits and keeps their value. */
  lemma PadStartValue(n: nat, width: nat)
    ensures IsDigits(PadStart(NatToString(n), width, '0'))
    ensures DigitsValue(PadStart(NatToString(n), width, '0')) == n
  {
    var s := NatToString(n);
    NatToStringValue(n);
    if |s| < width {
      LeadingZerosValue(Replicate(width - |s|, '0'), s);
    }
  }

  /** A number below 10^width, zero-padded to `width`, has exactly `width` characters. */
  lemma PadStartLength(n: nat, width: nat)
    requires 1 <= width && n < Pow10(width)
    ensures |PadStart(NatToString(n), width, '0')| == width
  {
    NatToStringLength(n, width);
  }

  /** Splitting at the first separator recovers the two sides when the left one has none. */
  lemma {:induction false} SplitOnceAt(a: string, b: string, sep: char)
    requires sep !in a
    ensures SplitOnce(a + [sep] + b, sep) == Some((a, b))
  {
    if a == [] {
      assert a + [sep] + b == [sep] + b;
    } else {
      assert (a + [sep] + b)[1..] == a[1..] + [sep] + b;
      SplitOnceAt(a[1..], b, sep);
      assert [a[0]] + a[1..] == a;
    }
  }

  /** A number below 100, zero-padded to two characters, is its tens digit and its units digit. */
  lemma PadTwoDigits(n: nat)
    requires n < 100
    ensures PadStart(NatToString(n), 2, '0') == [DigitChar(n / 10), DigitChar(n % 10)]
  {
    if n >= 10 {
      assert NatToString(n / 10) == [DigitChar(n / 10)];
    }
  }
}
