/**
 * The amount field of the send form holds text, not a number. This module models the
 * three operations the form applies to that text: the keystroke sanitiser of the amount
 * input, JavaScript's parseFloat restricted to text made of digits and points, and
 * Number.prototype.toFixed(8), which "Send Max" uses to write a number back into the field.
 */
module AmountText {
  import opened Common

  predicate IsDigit(c: char) { '0' <= c <= '9' }

  /** The characters the pattern [0-9.] keeps. */
  predicate IsAmountChar(c: char) { IsDigit(c) || c == '.' }

  /** Text the amount field may hold: only digits and points, and at most one point. */
  predicate IsSanitized(s: string) {
    (forall k :: 0 <= k < |s| ==> IsAmountChar(s[k])) && Count(s, '.') <= 1
  }

  predicate AllDigits(s: string) {
    forall k :: 0 <= k < |s| ==> IsDigit(s[k])
  }

  function Count(s: string, c: char): nat {
    if s == [] then 0 else (if s[0] == c then 1 else 0) + Count(s[1..], c)
  }

  /** The digits of s, in their order. */
  function Digits(s: string): string {
    if s == [] then [] else (if IsDigit(s[0]) then [s[0]] else []) + Digits(s[1..])
  }

  /** s without any occurrence of c. */
  function Drop(s: string, c: char): string {
    if s == [] then [] else (if s[0] == c then [] else [s[0]]) + Drop(s[1..], c)
  }

  /** `s.replace(/[^0-9.]/g, '')` */
  function KeepAmountChars(s: string): string {
    if s == [] then [] else (if IsAmountChar(s[0]) then [s[0]] else []) + KeepAmountChars(s[1..])
  }

  /** `s.split(sep)` for a one-character separator: always at least one part. */
  function Split(s: string, sep: char): (parts: seq<string>)
    ensures |parts| >= 1
  {
    if s == [] then [[]]
    else
      var rest := Split(s[1..], sep);
      if s[0] == sep then [[]] + rest else [[s[0]] + rest[0]] + rest[1..]
  }

  /** `parts.join(sep)` */
  function Join(parts: seq<string>, sep: string): string {
    if |parts| == 0 then []
    else if |parts| == 1 then parts[0]
    else parts[0] + sep + Join(parts[1..], sep)
  }

  /** The index of the first occurrence of c in s. */
  function FirstIndex(s: string, c: char): (r: Option<nat>)
    ensures r.None? <==> c !in s
    ensures r.Some? ==> r.value < |s| && s[r.value] == c && c !in s[..r.value]
  {
    if s == [] then None
    else if s[0] == c then Some(0)
    else
      var r := FirstIndex(s[1..], c);
      if r.None? then None
      else
        assert s[..r.value + 1] == [s[0]] + s[1..][..r.value];
        Some(r.value + 1)
  }

  /**
   * The amount input's onChange: keep digits and points, then, when more than one point
   * is left, keep the first and glue the remaining parts together.
   */
  function Sanitize(input: string): string {
    var value := KeepAmountChars(input);
    var parts := Split(value, '.');
    if |parts| > 2 then parts[0] + "." + Join(parts[1..], "") else value
  }

  // ---------------------------------------------------------------- filters

  lemma {:induction false} KeepAmountCharsAppend(x: string, y: string)
    ensures KeepAmountChars(x + y) == KeepAmountChars(x) + KeepAmountChars(y)
  {
    if x == [] {
      assert x + y == y;
    } else {
      var h := if IsAmountChar(x[0]) then [x[0]] else [];
      assert (x + y)[0] == x[0];
      assert (x + y)[1..] == x[1..] + y;
      assert KeepAmountChars(x + y) == h + KeepAmountChars(x[1..] + y);
      assert KeepAmountChars(x) == h + KeepAmountChars(x[1..]);
      KeepAmountCharsAppend(x[1..], y);
    }
  }

  lemma {:induction false} DigitsAppend(x: string, y: string)
    ensures Digits(x + y) == Digits(x) + Digits(y)
  {
    if x == [] {
      assert x + y == y;
    } else {
      assert (x + y)[0] == x[0];
      assert (x + y)[1..] == x[1..] + y;
      var h := if IsDigit(x[0]) then [x[0]] else [];
      assert Digits(x + y) == h + Digits(x[1..] + y);
      assert Digits(x) == h + Digits(x[1..]);
      DigitsAppend(x[1..], y);
    }
  }

  lemma {:induction false} CountAppend(x: string, y: string, c: char)
    ensures Count(x + y, c) == Count(x, c) + Count(y, c)
  {
    if x == [] {
      assert x + y == y;
    } else {
      assert (x + y)[0] == x[0];
      assert (x + y)[1..] == x[1..] + y;
      var h := if x[0] == c then 1 else 0;
      assert Count(x + y, c) == h + Count(x[1..] + y, c);
      assert Count(x, c) == h + Count(x[1..], c);
      CountAppend(x[1..], y, c);
    }
  }

  /** Without a point in the text, keeping [0-9.] is keeping the digits. */
  lemma {:induction false} KeepWithoutPoint(s: string)
    requires '.' !in s
    ensures KeepAmountChars(s) == Digits(s)
  {
    if s != [] {
      assert s[0] != '.';
      assert '.' !in s[1..];
      KeepWithoutPoint(s[1..]);
    }
  }

  /** Dropping the points of the [0-9.]-filtered text leaves its digits. */
  lemma {:induction false} DropPointsOfKept(s: string)
    ensures Drop(KeepAmountChars(s), '.') == Digits(s)
  {
    if s != [] {
      var head := if IsAmountChar(s[0]) then [s[0]] else [];
      DropAppend(head, KeepAmountChars(s[1..]), '.');
      DropPointsOfKept(s[1..]);
    }
  }

  lemma {:induction false} DropAppend(x: string, y: string, c: char)
    ensures Drop(x + y, c) == Drop(x, c) + Drop(y, c)
  {
    if x == [] {
      assert x + y == y;
    } else {
      assert (x + y)[0] == x[0];
      assert (x + y)[1..] == x[1..] + y;
      var h := if x[0] == c then [] else [x[0]];
      assert Drop(x + y, c) == h + Drop(x[1..] + y, c);
      assert Drop(x, c) == h + Drop(x[1..], c);
      DropAppend(x[1..], y, c);
    }
  }

  lemma {:induction false} DropAbsent(s: string, c: char)
    requires c !in s
    ensures Drop(s, c) == s
  {
    if s != [] {
      assert c !in s[1..];
      DropAbsent(s[1..], c);
    }
  }

  lemma {:induction false} DigitsOnlyDigits(s: string)
    ensures AllDigits(Digits(s))
  {
    if s != [] {
      DigitsOnlyDigits(s[1..]);
    }
  }

  lemma {:induction false} DigitsOfDigits(s: string)
    requires AllDigits(s)
    ensures Digits(s) == s
  {
    if s != [] {
      DigitsOfDigits(s[1..]);
    }
  }

  lemma {:induction false} CountOfDigits(s: string)
    requires AllDigits(s)
    ensures Count(s, '.') == 0
  {
    if s != [] {
      CountOfDigits(s[1..]);
    }
  }

  lemma {:induction false} CountZero(s: string, c: char)
    requires Count(s, c) == 0
    ensures c !in s
  {
    if s != [] {
      CountZero(s[1..], c);
    }
  }

  // ---------------------------------------------------------------- split and join

  lemma {:induction false} SplitAbsent(s: string, sep: char)
    requires sep !in s
    ensures Split(s, sep) == [s]
  {
    if s != [] {
      assert sep !in s[1..];
      SplitAbsent(s[1..], sep);
      assert [s[0]] + s[1..] == s;
    }
  }

  lemma {:induction false} SplitAtFirst(a: string, b: string, sep: char)
    requires sep !in a
    ensures Split(a + [sep] + b, sep) == [a] + Split(b, sep)
  {
    var s := a + [sep] + b;
    if a == [] {
      assert s[0] == sep && s[1..] == b;
    } else {
      assert s[0] == a[0];
      assert s[1..] == a[1..] + [sep] + b;
      assert sep !in a[1..];
      SplitAtFirst(a[1..], b, sep);
      assert [a[0]] + a[1..] == a;
    }
  }

  lemma {:induction false} SplitHasTwoParts(s: string, sep: char)
    ensures |Split(s, sep)| >= 2 <==> sep in s
  {
    var i := FirstIndex(s, sep);
    if i.None? {
      SplitAbsent(s, sep);
    } else {
      var n := i.value;
      assert s == s[..n] + [sep] + s[n + 1..];
      SplitAtFirst(s[..n], s[n + 1..], sep);
    }
  }

  /** Joining the parts of a split with nothing in between removes the separator. */
  lemma {:induction false} JoinSplitDrops(s: string, sep: char)
    ensures Join(Split(s, sep), "") == Drop(s, sep)
  {
    if s != [] {
      var rest := Split(s[1..], sep);
      JoinSplitDrops(s[1..], sep);
      if s[0] == sep {
        assert Split(s, sep) == [[]] + rest;
        assert ([[]] + rest)[1..] == rest;
      } else {
        var parts := [[s[0]] + rest[0]] + rest[1..];
        assert Split(s, sep) == parts;
        if |rest| == 1 {
          assert Join(parts, "") == [s[0]] + rest[0];
        } else {
          assert parts[1..] == rest[1..];
          assert Join(rest, "") == rest[0] + "" + Join(rest[1..], "");
        }
      }
    }
  }

  // ---------------------------------------------------------------- the sanitiser

  /**
   * What the sanitiser keeps. Without a point in the input it keeps the digits; otherwise
   * the first point survives, with the digits before it on its left and all later digits
   * on its right.
   */
  lemma SanitizeCharacterized(s: string)
    ensures FirstIndex(s, '.').None? ==> Sanitize(s) == Digits(s)
    ensures FirstIndex(s, '.').Some? ==>
      var i := FirstIndex(s, '.').value;
      Sanitize(s) == Digits(s[..i]) + "." + Digits(s[i + 1..])
  {
    var v := KeepAmountChars(s);
    var fi := FirstIndex(s, '.');
    if fi.None? {
      KeepWithoutPoint(s);
      DigitsOnlyDigits(s);
      CountOfDigits(Digits(s));
      CountZero(Digits(s), '.');
      SplitAbsent(v, '.');
    } else {
      var i := fi.value;
      var a, b := Digits(s[..i]), KeepAmountChars(s[i + 1..]);
      assert s == s[..i] + [s[i]] + s[i + 1..];
      KeepAmountCharsAppend(s[..i] + [s[i]], s[i + 1..]);
      KeepAmountCharsAppend(s[..i], [s[i]]);
      KeepWithoutPoint(s[..i]);
      assert KeepAmountChars([s[i]]) == ".";
      assert v == a + "." + b;
      DigitsOnlyDigits(s[..i]);
      CountOfDigits(a);
      CountZero(a, '.');
      SplitAtFirst(a, b, '.');
      SplitHasTwoParts(b, '.');
      DropPointsOfKept(s[i + 1..]);
      var parts := Split(v, '.');
      assert parts == [a] + Split(b, '.');
      if '.' in b {
        assert parts[1..] == Split(b, '.');
        JoinSplitDrops(b, '.');
      } else {
        DropAbsent(b, '.');
      }
    }
  }

  /** The sanitiser's output holds only digits and points, and at most one point. */
  lemma SanitizeIsSanitized(s: string)
    ensures IsSanitized(Sanitize(s))
  {
    SanitizeCharacterized(s);
    var fi := FirstIndex(s, '.');
    if fi.None? {
      DigitsOnlyDigits(s);
      CountOfDigits(Digits(s));
    } else {
      var i := fi.value;
      var a, b := Digits(s[..i]), Digits(s[i + 1..]);
      DigitsOnlyDigits(s[..i]);
      DigitsOnlyDigits(s[i + 1..]);
      CountOfDigits(a);
      CountOfDigits(b);
      CountAppend(a + ".", b, '.');
      CountAppend(a, ".", '.');
      var t := a + "." + b;
      forall k | 0 <= k < |t| ensures IsAmountChar(t[k]) {
        if k < |a| { assert t[k] == a[k]; }
        else if k > |a| { assert t[k] == b[k - |a| - 1]; }
      }
    }
  }

  /** The sanitiser keeps every digit of the input, in order, and drops no digit. */
  lemma SanitizeKeepsDigits(s: string)
    ensures Digits(Sanitize(s)) == Digits(s)
  {
    SanitizeCharacterized(s);
    var fi := FirstIndex(s, '.');
    if fi.None? {
      DigitsOnlyDigits(s);
      DigitsOfDigits(Digits(s));
    } else {
      var i := fi.value;
      DigitsAroundPoint(s[..i], s[i + 1..]);
      DigitsSkipPoint(s, i);
    }
  }

  /** Taking the digits of all-digit parts around a point removes just the point. */
  lemma DigitsAroundPoint(a: string, b: string)
    ensures Digits(Digits(a) + "." + Digits(b)) == Digits(a) + Digits(b)
  {
    DigitsOnlyDigits(a);
    DigitsOnlyDigits(b);
    DigitsOfDigits(Digits(a));
    DigitsOfDigits(Digits(b));
    DigitsAppend(Digits(a) + ".", Digits(b));
    DigitsAppend(Digits(a), ".");
  }

  /** The digits of a text are those before and after a point within it. */
  lemma DigitsSkipPoint(s: string, i: nat)
    requires i < |s| && s[i] == '.'
    ensures Digits(s) == Digits(s[..i]) + Digits(s[i + 1..])
  {
    assert s == s[..i] + [s[i]] + s[i + 1..];
    DigitsAppend(s[..i] + [s[i]], s[i + 1..]);
    DigitsAppend(s[..i], [s[i]]);
  }

  /** A point survives the sanitiser exactly when the input had one. */
  lemma SanitizeKeepsPoint(s: string)
    ensures '.' in Sanitize(s) <==> '.' in s
  {
    SanitizeCharacterized(s);
    var fi := FirstIndex(s, '.');
    if fi.None? {
      DigitsOnlyDigits(s);
      CountOfDigits(Digits(s));
      CountZero(Digits(s), '.');
    } else {
      var i := fi.value;
      assert (Digits(s[..i]) + "." + Digits(s[i + 1..]))[|Digits(s[..i])|] == '.';
    }
  }

  /** Text that is already sanitised passes through the sanitiser unchanged. */
  lemma SanitizeFixesSanitized(t: string)
    requires IsSanitized(t)
    ensures Sanitize(t) == t
  {
    SanitizeCharacterized(t);
    var fi := FirstIndex(t, '.');
    if fi.None? {
      assert AllDigits(t);
      DigitsOfDigits(t);
    } else {
      var i := fi.value;
      assert t == t[..i] + [t[i]] + t[i + 1..];
      DigitsAroundFirstPoint(t, i);
      DigitsOfDigits(t[..i]);
      DigitsOfDigits(t[i + 1..]);
    }
  }

  /** In sanitised text, what stands before and after its first point are digits only. */
  lemma DigitsAroundFirstPoint(t: string, i: nat)
    requires IsSanitized(t) && i < |t| && t[i] == '.' && '.' !in t[..i]
    ensures AllDigits(t[..i]) && AllDigits(t[i + 1..])
  {
    assert t == t[..i] + [t[i]] + t[i + 1..];
    assert AllDigits(t[..i]);
    CountAppend(t[..i] + [t[i]], t[i + 1..], '.');
    CountAppend(t[..i], [t[i]], '.');
    assert Count([t[i]], '.') == 1;
    var tail := t[i + 1..];
    CountZero(tail, '.');
    forall k | 0 <= k < |tail| ensures IsDigit(tail[k]) {
      assert tail[k] == t[i + 1 + k];
      assert IsAmountChar(t[i + 1 + k]);
    }
  }

  /** Sanitising twice is sanitising once. */
  lemma SanitizeIdempotent(s: string)
    ensures Sanitize(Sanitize(s)) == Sanitize(s)
  {
    SanitizeIsSanitized(s);
    SanitizeFixesSanitized(Sanitize(s));
  }

  // ---------------------------------------------------------------- parseFloat

  /** The longest prefix of s made of digits. */
  function LeadingDigits(s: string): (r: string)
    ensures |r| <= |s| && r == s[..|r|] && AllDigits(r)
    ensures |r| < |s| ==> !IsDigit(s[|r|])
  {
    if s != [] && IsDigit(s[0]) then [s[0]] + LeadingDigits(s[1..]) else []
  }

  function DigitOf(c: char): nat {
    if IsDigit(c) then (c as int - '0' as int) else 0
  }

  function DigitChar(d: nat): char
    requires d < 10
  {
    ('0' as int + d) as char
  }

  /** The number a string of decimal digits denotes. */
  function DigitsValue(d: string): nat {
    if d == [] then 0 else DigitsValue(d[..|d| - 1]) * 10 + DigitOf(d[|d| - 1])
  }

  function Pow10(k: nat): (r: nat)
    ensures r >= 1
  {
    if k == 0 then 1 else 10 * Pow10(k - 1)
  }

  /**
   * `parseFloat(s)` on text of digits and points: the longest prefix of the form
   * digits [ "." digits ]; NaN (None) when that prefix holds no digit at all.
   */
  function ParseAmount(s: string): (r: Option<real>)
    ensures r.Some? ==> r.value >= 0.0
  {
    var whole := LeadingDigits(s);
    var tail := s[|whole|..];
    var frac := if tail != [] && tail[0] == '.' then LeadingDigits(tail[1..]) else [];
    if whole == [] && frac == [] then None else Some(DecimalValue(whole, frac))
  }

  /** The value of the decimal numeral whole.frac. */
  function DecimalValue(whole: string, frac: string): (r: real)
    ensures r >= 0.0
  {
    DigitsValue(whole) as real + DigitsValue(frac) as real / Pow10(|frac|) as real
  }

  lemma {:induction false} LeadingDigitsOfDigits(d: string, rest: string)
    requires AllDigits(d)
    requires rest == [] || !IsDigit(rest[0])
    ensures LeadingDigits(d + rest) == d
  {
    if d == [] {
      assert d + rest == rest;
    } else {
      assert (d + rest)[0] == d[0];
      assert (d + rest)[1..] == d[1..] + rest;
      LeadingDigitsOfDigits(d[1..], rest);
    }
  }

  lemma {:induction false} NoDigitsMeansNoLeading(s: string)
    requires Digits(s) == []
    ensures LeadingDigits(s) == []
  {
  }

  /**
   * On sanitised text, parseFloat fails (NaN) exactly when the text holds no digit:
   * the empty field and a lone point are the only unparsable amounts.
   */
  lemma ParseFailsIffNoDigit(s: string)
    requires IsSanitized(s)
    ensures ParseAmount(s).None? <==> Digits(s) == []
  {
    var whole := LeadingDigits(s);
    var tail := s[|whole|..];
    assert s == whole + tail;
    DigitsAppend(whole, tail);
    DigitsOfDigits(whole);
    if tail != [] {
      assert IsAmountChar(s[|whole|]);
      assert tail[0] == '.';
      var after := tail[1..];
      assert tail == [tail[0]] + after;
      DigitsAppend([tail[0]], after);
      CountAppend(whole, tail, '.');
      CountAppend([tail[0]], after, '.');
      CountZero(after, '.');
      assert AllDigits(after) by {
        forall k | 0 <= k < |after| ensures IsDigit(after[k]) {
          assert after[k] == s[|whole| + 1 + k];
          assert IsAmountChar(s[|whole| + 1 + k]);
        }
      }
      LeadingDigitsOfDigits(after, []);
      assert after + [] == after;
      DigitsOfDigits(after);
    }
  }

  // ---------------------------------------------------------------- toFixed(8)

  const Sat: real := 100000000.0  // 10^8, the unit of the eighth decimal place

  /** The integer n nearest to x * 10^8, the larger one on a tie (toFixed's rounding). */
  function Round8(x: real): (n: int)
    requires x >= 0.0
    ensures n >= 0
    ensures n as real - 0.5 <= x * Sat < n as real + 0.5
  {
    (x * Sat + 0.5).Floor
  }

  /** The decimal digits of n, without leading zeros ("0" for zero). */
  function NatDigits(n: nat): (r: string)
    ensures |r| >= 1 && AllDigits(r)
    ensures DigitsValue(r) == n
  {
    if n < 10 then [DigitChar(n)]
    else
      var r := NatDigits(n / 10) + [DigitChar(n % 10)];
      assert r[..|r| - 1] == NatDigits(n / 10);
      r
  }

  /** The last k decimal digits of n, padded with leading zeros to exactly k digits. */
  function PadDigits(n: nat, k: nat): (r: string)
    ensures |r| == k && AllDigits(r)
  {
    if k == 0 then [] else PadDigits(n / 10, k - 1) + [DigitChar(n % 10)]
  }

  lemma {:induction false} PadDigitsValue(n: nat, k: nat)
    requires n < Pow10(k)
    ensures DigitsValue(PadDigits(n, k)) == n
  {
    if k == 0 {
    } else {
      var r := PadDigits(n, k);
      assert r[..|r| - 1] == PadDigits(n / 10, k - 1);
      DivTenBelow(n, Pow10(k - 1));
      PadDigitsValue(n / 10, k - 1);
      assert DigitOf(DigitChar(n % 10)) == n % 10;
    }
  }

  lemma DivTenBelow(n: nat, p: nat)
    requires n < 10 * p
    ensures n / 10 < p && n == (n / 10) * 10 + n % 10
  {
  }

  /** `x.toFixed(8)` for a non-negative x: the integer part, a point, exactly eight decimals. */
  function FormatFixed8(x: real): string
    requires x >= 0.0
  {
    var n := Round8(x);
    NatDigits(n / 100000000) + "." + PadDigits(n % 100000000, 8)
  }

  /** Whatever toFixed(8) writes into the amount field is sanitised text. */
  lemma FormatFixed8IsSanitized(x: real)
    requires x >= 0.0
    ensures IsSanitized(FormatFixed8(x))
  {
    var n := Round8(x);
    var w, f := NatDigits(n / 100000000), PadDigits(n % 100000000, 8);
    var t := w + "." + f;
    forall k | 0 <= k < |t| ensures IsAmountChar(t[k]) {
      if k < |w| { assert t[k] == w[k]; }
      else if k > |w| { assert t[k] == f[k - |w| - 1]; }
    }
    CountOfDigits(w);
    CountOfDigits(f);
    CountAppend(w + ".", f, '.');
    CountAppend(w, ".", '.');
  }

  /** parseFloat of "digits.digits" is the integer part plus the scaled fraction. */
  lemma ParseDecimal(w: string, f: string)
    requires |w| >= 1 && AllDigits(w) && AllDigits(f)
    ensures ParseAmount(w + "." + f) == Some(DecimalValue(w, f))
  {
    var t := w + "." + f;
    var rest := "." + f;
    assert t == w + rest;
    LeadingDigitsOfDigits(w, rest);
    var whole := LeadingDigits(t);
    assert whole == w;
    var tail := t[|whole|..];
    assert tail == rest;
    assert tail != [] && tail[0] == '.';
    assert tail[1..] == f;
    LeadingDigitsOfDigits(f, []);
    assert f + [] == f;
    var frac := LeadingDigits(tail[1..]);
    assert frac == f;
  }

  lemma SplitUnits(n: nat)
    ensures (n / 100000000) as real + (n % 100000000) as real / 100000000.0 == n as real / Sat
  {
    var q, m := n / 100000000, n % 100000000;
    assert n == q * 100000000 + m;
    assert n as real == q as real * 100000000.0 + m as real;
  }

  /** parseFloat reads back from toFixed(8) the value rounded to eight decimals. */
  lemma ParseFormatFixed8(x: real)
    requires x >= 0.0
    ensures ParseAmount(FormatFixed8(x)) == Some(Round8(x) as real / Sat)
  {
    ParseUnitsText(Round8(x));
  }

  /** The toFixed(8) text of n satoshis reads back as n / 10^8. */
  lemma ParseUnitsText(n: nat)
    ensures ParseAmount(NatDigits(n / 100000000) + "." + PadDigits(n % 100000000, 8)) == Some(n as real / Sat)
  {
    var q, m := n / 100000000, n % 100000000;
    var w, f := NatDigits(q), PadDigits(m, 8);
    Pow10Eight();
    PadDigitsValue(m, 8);
    ParseDecimal(w, f);
    assert DecimalValue(w, f) == q as real + m as real / 100000000.0 by {
      assert DigitsValue(w) == q && DigitsValue(f) == m && |f| == 8;
    }
    SplitUnits(n);
  }

  lemma Pow10Eight()
    ensures Pow10(8) == 100000000
  {
  }

  lemma Round8Exact(units: nat)
    ensures Round8(units as real / Sat) == units
  {
    var x := units as real / Sat;
    assert x * Sat == units as real;
    assert (units as real + 0.5).Floor == units;
  }

  /** A value with at most eight decimals comes back from toFixed(8) and parseFloat unchanged. */
  lemma ParseFormatFixed8Exact(units: nat)
    ensures ParseAmount(FormatFixed8(units as real / Sat)) == Some(units as real / Sat)
  {
    Round8Exact(units);
    ParseFormatFixed8(units as real / Sat);
  }
}
