/**
 * Sizes such as "19.5GB" (binary units), and the disk space of a registry entry as text.
 * Decimal fractions are exact here; digits are ASCII.
 */
module Sizes {
  import opened Wrappers
  import opened Text

  predicate IsDigit(c: char) {
    '0' <= c <= '9'
  }

  predicate IsLetter(c: char) {
    'a' <= c <= 'z' || 'A' <= c <= 'Z'
  }

  function DigitsLength(s: string): (n: nat)
    ensures n <= |s| && forall i :: 0 <= i < n ==> IsDigit(s[i])
  {
    if s != "" && IsDigit(s[0]) then 1 + DigitsLength(s[1..]) else 0
  }

  function LettersLength(s: string): (n: nat)
    ensures n <= |s|
  {
    if s != "" && IsLetter(s[0]) then 1 + LettersLength(s[1..]) else 0
  }

  ghost predicate Digits(s: string) {
    forall i :: 0 <= i < |s| ==> IsDigit(s[i])
  }

  function ValueOf(s: string): nat
    requires Digits(s)
  {
    if s == "" then 0 else 10 * ValueOf(s[..|s| - 1]) + (s[|s| - 1] - '0') as nat
  }

  function Power10(n: nat): (p: nat)
    ensures p > 0
  {
    if n == 0 then 1 else 10 * Power10(n - 1)
  }

  function Upper(s: string): string {
    if s == "" then ""
    else [if 'a' <= s[0] <= 'z' then s[0] - 'a' + 'A' else s[0]] + Upper(s[1..])
  }

  const KIB: nat := 1024
  const MIB: nat := 1024 * 1024
  const GIB: nat := 1024 * 1024 * 1024
  const TIB: nat := 1024 * 1024 * 1024 * 1024

  function UnitOf(unit: string): Option<nat> {
    if unit == "B" then Some(1)
    else if unit == "KB" || unit == "KIB" then Some(KIB)
    else if unit == "MB" || unit == "MIB" then Some(MIB)
    else if unit == "GB" || unit == "GIB" then Some(GIB)
    else if unit == "TB" || unit == "TIB" then Some(TIB)
    else None
  }

  /** The unit after a number, with blanks around it. */
  function UnitAfter(s: string): Option<nat> {
    var t := LStrip(s);
    var n := LettersLength(t);
    if RStrip(t) == t[..n] then UnitOf(Upper(t[..n])) else None
  }

  function Scaled(digits: string, decimals: nat, unit: Option<nat>): Option<nat>
    requires Digits(digits)
  {
    if unit.None? then None else Some(Quotient(ValueOf(digits), unit.value, Power10(decimals)))
  }

  function Quotient(a: nat, b: nat, c: nat): nat
    requires c > 0
  {
    var product: nat := a * b;
    product / c
  }

  function LeadingDigits(s: string): (d: string)
    ensures Digits(d) && d <= s
  {
    s[..DigitsLength(s)]
  }

  /** The decimals after the whole part of a number: a point counts only before a digit. */
  function Decimals(rest: string): (d: string)
    ensures Digits(d) && (d != "" ==> |d| < |rest|)
  {
    if rest != "" && rest[0] == '.' then LeadingDigits(rest[1..]) else ""
  }

  function Together(a: string, b: string): (d: string)
    requires Digits(a) && Digits(b)
    ensures Digits(d)
  {
    a + b
  }

  /** `parse_size`; None where it raises. */
  function ParseSize(text: string): Option<nat> {
    var s := LStrip(text);
    var whole := LeadingDigits(s);
    var rest := s[|whole|..];
    var decimals := Decimals(rest);
    if whole == "" then None
    else if decimals == "" then Scaled(whole, 0, UnitAfter(rest))
    else Scaled(Together(whole, decimals), |decimals|, UnitAfter(rest[1 + |decimals|..]))
  }

  // ---- Decimal numbers ----

  function DigitChar(d: nat): (c: char)
    requires d < 10
    ensures IsDigit(c) && (c - '0') as nat == d
  {
    '0' + d as char
  }

  function Decimal(n: nat): (s: string)
    ensures s != "" && Digits(s)
  {
    if n < 10 then [DigitChar(n)] else Decimal(n / 10) + [DigitChar(n % 10)]
  }

  /** Printing and reading a number are inverse. */
  lemma {:induction false} DecimalReadsBack(n: nat)
    ensures ValueOf(Decimal(n)) == n
  {
    if n >= 10 {
      DecimalReadsBack(n / 10);
      var s := Decimal(n);
      assert s[..|s| - 1] == Decimal(n / 10);
    } else {
      assert Decimal(n)[..0] == "";
    }
  }

  /** A number is read from left to right, each digit in base ten. */
  lemma {:induction false} ValueAppend(a: string, b: string)
    requires Digits(a) && Digits(b)
    ensures Digits(a + b) && ValueOf(a + b) == ValueOf(a) * Power10(|b|) + ValueOf(b)
  {
    if b == "" {
      assert a + b == a;
    } else {
      var before, digit := b[..|b| - 1], (b[|b| - 1] - '0') as nat;
      assert (a + b)[..|a + b| - 1] == a + before;
      ValueAppend(a, before);
      TenTimes(ValueOf(a), Power10(|b| - 1), ValueOf(before), digit);
    }
  }

  lemma TenTimes(v: nat, p: nat, w: nat, digit: nat)
    ensures 10 * (v * p + w) + digit == v * (10 * p) + (10 * w + digit)
  {
  }

  lemma ValueOne(d: char)
    requires IsDigit(d)
    ensures Digits([d]) && ValueOf([d]) == (d - '0') as nat
  {
    assert [d][..0] == "";
  }

  lemma {:induction false} DigitsEnd(digits: string, rest: string)
    requires Digits(digits) && (rest != "" ==> !IsDigit(rest[0]))
    ensures DigitsLength(digits + rest) == |digits|
  {
    if digits == "" {
      assert digits + rest == rest;
    } else {
      assert (digits + rest)[1..] == digits[1..] + rest;
      DigitsEnd(digits[1..], rest);
    }
  }

  // ---- Sizes in other units ----

  /** A unit as it may stand behind a number: not a digit, not a point. */
  predicate Behind(unit: string) {
    unit != "" && !IsDigit(unit[0]) && unit[0] != '.'
  }

  /** A whole number with a unit is that many units. */
  lemma WholeReadsBack(n: nat, unit: string)
    requires Behind(unit) && UnitAfter(unit).Some?
    ensures ParseSize(Decimal(n) + unit) == Some(n * UnitAfter(unit).value)
  {
    hide LStrip, UnitAfter, Decimal, ValueOf, Power10, LeadingDigits;
    WholeBefore(n, unit);
    DecimalReadsBack(n);
    PowerOfNone();
  }

  lemma PowerOfNone()
    ensures Power10(0) == 1
  {
  }

  lemma DecimalsBefore(decimals: string, unit: string)
    requires Digits(decimals) && Behind(unit)
    ensures Decimals("." + (decimals + unit)) == decimals
    ensures ("." + (decimals + unit))[1 + |decimals|..] == unit
  {
    var rest := "." + (decimals + unit);
    assert rest[1..] == decimals + unit;
    DigitsEnd(decimals, unit);
  }

  lemma WholeBefore(n: nat, rest: string)
    requires rest != "" && !IsDigit(rest[0])
    ensures var text := Decimal(n) + rest;
      && LStrip(text) == text && LeadingDigits(text) == Decimal(n) && text[|Decimal(n)|..] == rest
  {
    var text := Decimal(n) + rest;
    DigitIsNoSpace(text[0]);
    NoBlankInFront(text);
    hide LStrip, Decimal;
    DigitsEnd(Decimal(n), rest);
  }

  lemma FractionIsScaled(n: nat, decimals: string, unit: string)
    requires Digits(decimals) && decimals != "" && Behind(unit)
    ensures ParseSize(Decimal(n) + ("." + (decimals + unit))) == Scaled(Together(Decimal(n), decimals), |decimals|, UnitAfter(unit))
  {
    hide LStrip, UnitAfter, Decimal, Scaled, LeadingDigits, Decimals;
    WholeBefore(n, "." + (decimals + unit));
    DecimalsBefore(decimals, unit);
  }

  lemma ScaledValue(n: nat, decimals: string, unit: nat)
    requires Digits(decimals)
    ensures Scaled(Together(Decimal(n), decimals), |decimals|, Some(unit))
      == Some(Quotient(n * Power10(|decimals|) + ValueOf(decimals), unit, Power10(|decimals|)))
  {
    hide Decimal, Quotient, Power10, ValueOf;
    DecimalReadsBack(n);
    ValueAppend(Decimal(n), decimals);
  }

  /** With decimals it is the fraction, rounded down to bytes. */
  lemma FractionReadsBack(n: nat, decimals: string, unit: string)
    requires Digits(decimals) && decimals != "" && Behind(unit) && UnitAfter(unit).Some?
    ensures ParseSize(Decimal(n) + ("." + (decimals + unit)))
      == Some(Quotient(n * Power10(|decimals|) + ValueOf(decimals), UnitAfter(unit).value, Power10(|decimals|)))
  {
    FractionIsScaled(n, decimals, unit);
    ScaledValue(n, decimals, UnitAfter(unit).value);
    hide ParseSize, UnitAfter, Decimal, Scaled, Quotient, Power10, ValueOf, Together;
  }

  function UpperChar(c: char): char {
    if 'a' <= c <= 'z' then c - 'a' + 'A' else c
  }

  lemma {:induction false} AllLetters(t: string)
    requires forall c | c in t :: IsLetter(c)
    ensures LettersLength(t) == |t|
  {
    if t != "" {
      assert t[0] in t && forall c | c in t[1..] :: c in t;
      AllLetters(t[1..]);
    }
  }

  lemma UnitIsUpper(t: string)
    requires t != "" && forall c | c in t :: IsLetter(c)
    ensures UnitAfter(t) == UnitOf(Upper(t))
  {
    AllLetters(t);
    assert t[0] in t && t[|t| - 1] in t && !IsSpace(t[0]) && !IsSpace(t[|t| - 1]);
    assert LStrip(t) == t && RStrip(t) == t && t[..|t|] == t;
  }

  lemma UpperTwo(a: char, b: char)
    ensures Upper([a, b]) == [UpperChar(a), UpperChar(b)]
  {
    assert [a, b][1..] == [b] && [b][1..] == "" && Upper("") == "" && Upper([b]) == [UpperChar(b)];
  }

  lemma UpperThree(a: char, b: char, c: char)
    ensures Upper([a, b, c]) == [UpperChar(a), UpperChar(b), UpperChar(c)]
  {
    UpperTwo(b, c);
    assert [a, b, c][1..] == [b, c];
  }

  /** The units are binary, in upper or lower case. */
  lemma UnitsByName(t: string)
    ensures UnitAfter("B") == Some(1)
    ensures t in {"KB", "kb", "KiB"} ==> UnitAfter(t) == Some(1024)
    ensures t in {"MB", "mb", "MiB"} ==> UnitAfter(t) == Some(1048576)
    ensures t in {"GB", "gb", "GiB"} ==> UnitAfter(t) == Some(1073741824)
    ensures t in {"TB", "tb", "TiB"} ==> UnitAfter(t) == Some(1099511627776)
    ensures t in {"PB", "G", "Gbit"} ==> UnitAfter(t) == None
  {
    hide UnitAfter;
    assert "B"[1..] == "" && Upper("") == "" && Upper("B") == "B";
    UnitIsUpper("B");
    if t in {"KB", "kb", "KiB", "MB", "mb", "MiB", "GB", "gb", "GiB", "TB", "tb", "TiB", "PB", "G", "Gbit"} {
      UnitIsUpper(t);
      if |t| == 2 {
        UpperTwo(t[0], t[1]);
        assert t == [t[0], t[1]];
      } else if |t| == 3 {
        UpperThree(t[0], t[1], t[2]);
        assert t == [t[0], t[1], t[2]];
      } else {
        UpperLength(t);
        assert t == "G" ==> Upper(t)[0] == 'G';
      }
    }
  }

  lemma {:induction false} UpperLength(t: string)
    ensures |Upper(t)| == |t|
  {
    if t != "" { UpperLength(t[1..]); }
  }

  // ---- Disk space ----

  /** `f"{tenths / 10:.1f}GB"`. */
  function TenthsText(tenths: nat): string {
    Decimal(tenths / 10) + "." + [DigitChar(tenths % 10)] + "GB"
  }

  /** What a number of tenths of a GB reads as. */
  lemma TenthsReadBack(tenths: nat)
    ensures ParseSize(TenthsText(tenths)) == Some(TenthsSize(tenths))
  {
    hide LStrip, UnitAfter, Decimal, ValueOf, Power10;
    var whole, digit := Decimal(tenths / 10), [DigitChar(tenths % 10)];
    var text, rest := TenthsText(tenths), "." + digit + "GB";
    assert text == whole + rest;
    DigitIsNoSpace(text[0]);
    NoBlankInFront(text);
    DigitsEnd(whole, rest);
    assert text[..|whole|] == whole && text[|whole|..] == rest;
    assert rest[1..] == digit + "GB";
    DigitsEnd(digit, "GB");
    assert rest[1..2] == digit && rest[2..] == "GB";
    UnitIsGB();
    TenthsValue(tenths);
  }

  lemma NoBlankInFront(s: string)
    requires s != "" && !IsSpace(s[0])
    ensures LStrip(s) == s
  {
  }

  lemma TenthsValue(tenths: nat)
    ensures Power10(1) == 10
    ensures ValueOf(Decimal(tenths / 10) + [DigitChar(tenths % 10)]) == tenths
  {
    hide Decimal;
    var s := Decimal(tenths / 10) + [DigitChar(tenths % 10)];
    assert s[..|s| - 1] == Decimal(tenths / 10);
    DecimalReadsBack(tenths / 10);
    assert Power10(0) == 1;
  }

  lemma DigitIsNoSpace(c: char)
    requires IsDigit(c)
    ensures !IsSpace(c)
  {
  }

  lemma UnitIsGB()
    ensures UnitAfter("GB") == Some(GIB)
  {
    var t := "GB";
    assert LStrip(t) == t && RStrip(t) == t;
    assert t[1..] == "B" && t[1..][1..] == "";
    assert LettersLength(t) == 2 && t[..2] == t;
    assert Upper("B") == "B" && Upper("GB") == "GB";
  }

  /** The size that the text for a number of tenths stands for. */
  function TenthsSize(tenths: nat): nat {
    tenths * GIB / 10
  }

  function CeilDiv(a: nat, b: nat): (q: nat)
    requires b > 0
    ensures b * q >= a && (q > 0 ==> b * (q - 1) < a)
  {
    (a + b - 1) / b
  }

  function TenthsFor(total: nat): (tenths: nat)
    ensures tenths >= 1
  {
    var t := CeilDiv(total * 10, GIB);
    if t < 1 then 1 else t
  }

  /** It is the least number of tenths of a GB, from one on, whose text reads as `total` or more. */
  lemma TenthsForIsLeast(total: nat, t: nat)
    requires t >= 1
    ensures TenthsSize(t) >= total <==> t >= TenthsFor(total)
  {
    var q := CeilDiv(total * 10, GIB);
    if t >= TenthsFor(total) {
      assert t * GIB >= q * GIB >= total * 10;
    } else {
      assert t * GIB <= (q - 1) * GIB < total * 10;
    }
  }

  /**
   * `disk_space_for`. The loop repairs an estimate that rounding made too low: the result is
   * the least size in tenths of a GB that covers the total, unless the estimate was above it.
   */
  method DiskSpaceFor(total: nat, estimate: nat) returns (text: string)
    ensures var tenths := if estimate < TenthsFor(total) then TenthsFor(total) else estimate;
      && text == TenthsText(tenths)
      && ParseSize(text) == Some(TenthsSize(tenths))
      && TenthsSize(tenths) >= total
  {
    hide ParseSize, TenthsText, TenthsFor, TenthsSize;
    var t := if estimate < 1 then 1 else estimate;
    text := TenthsText(t);
    TenthsReadBack(t);
    TenthsForIsLeast(total, t);
    while ParseSize(text).value < total
      invariant t >= 1 && t >= estimate && (t > estimate ==> t <= TenthsFor(total))
      invariant text == TenthsText(t) && ParseSize(text) == Some(TenthsSize(t))
      invariant TenthsSize(t) >= total <==> t >= TenthsFor(total)
      decreases TenthsFor(total) - t
    {
      t := t + 1;
      text := TenthsText(t);
      TenthsReadBack(t);
      TenthsForIsLeast(total, t);
    }
  }
}
