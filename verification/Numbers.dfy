/** Printed numbers, `strtoull`, 64-bit casts and nanosecond times. */
module Numbers {

  const U16 := 0x1_0000
  const U32 := 0x1_0000_0000
  const U64 := 0x1_0000_0000_0000_0000
  const I63 := 0x8000_0000_0000_0000
  const INT64_MIN := -I63
  const NS_PER_SECOND := 1_000_000_000

  function Digit(d: nat): char
    requires d < 16
  {
    if d < 10 then '0' + d as char else 'a' + (d - 10) as char
  }

  /** The value of a digit character, 99 for any other character. */
  function DigitValue(c: char): nat {
    if '0' <= c <= '9' then (c - '0') as nat
    else if 'a' <= c <= 'f' then (c - 'a') as nat + 10
    else if 'A' <= c <= 'F' then (c - 'A') as nat + 10
    else 99
  }

  /** `to_string`, `<< dec` and `<< hex` of a natural number. */
  function Print(n: nat, base: nat): string
    requires 2 <= base <= 16
  {
    if n < base then [Digit(n)] else Print(n / base, base) + [Digit(n % base)]
  }

  /** `<< dec` of a signed number. */
  function PrintSigned(i: int): string {
    if i < 0 then "-" + Print(-i, 10) else Print(i, 10)
  }

  function SkipSpace(s: string): string {
    if s != "" && (s[0] == ' ' || '\t' <= s[0] <= '\r') then SkipSpace(s[1..]) else s
  }

  /** The number in front of the first character that is no digit. */
  function Accumulate(s: string, base: nat, acc: nat): nat {
    if s == "" || DigitValue(s[0]) >= base then acc
    else Accumulate(s[1..], base, acc * base + DigitValue(s[0]))
  }

  predicate HexPrefix(s: string) {
    |s| >= 3 && s[0] == '0' && (s[1] == 'x' || s[1] == 'X') && DigitValue(s[2]) < 16
  }

  /** `strtoull`: blanks, a sign that negates modulo 2^64, an optional 0x, digits; saturates at 2^64 - 1. */
  function StrToULL(s: string, base: nat): (r: nat)
    ensures r < U64
  {
    var t := SkipSpace(s);
    var u := if t != "" && (t[0] == '-' || t[0] == '+') then t[1..] else t;
    var n := Accumulate(if base == 16 && HexPrefix(u) then u[2..] else u, base, 0);
    if n >= U64 then U64 - 1
    else if t != "" && t[0] == '-' then (U64 - n) % U64
    else n
  }

  /** Conversion of an unsigned 64-bit value to `i64`. */
  function ToI64(u: nat): int { if u < I63 then u else u - U64 }

  predicate AllDigits(s: string, base: nat) { forall k :: 0 <= k < |s| ==> DigitValue(s[k]) < base }

  lemma {:induction false} AccumulateSnoc(s: string, c: char, base: nat, acc: nat)
    requires AllDigits(s, base) && DigitValue(c) < base
    ensures Accumulate(s + [c], base, acc) == Accumulate(s, base, acc) * base + DigitValue(c)
  {
    if s == "" {
      AccumulateOne(c, base, acc);
      assert s + [c] == [c];
    } else {
      var next := acc * base + DigitValue(s[0]);
      assert (s + [c])[1..] == s[1..] + [c];
      AccumulateSnoc(s[1..], c, base, next);
    }
  }

  lemma AccumulateOne(c: char, base: nat, acc: nat)
    requires DigitValue(c) < base
    ensures Accumulate([c], base, acc) == acc * base + DigitValue(c)
  {
    assert [c][1..] == "";
  }

  lemma DigitInverse(d: nat)
    requires d < 16
    ensures DigitValue(Digit(d)) == d
  {
  }

  lemma {:induction false} PrintedDigits(n: nat, base: nat)
    requires 2 <= base <= 16
    ensures Print(n, base) != "" && AllDigits(Print(n, base), base)
    ensures Accumulate(Print(n, base), base, 0) == n
  {
    if n < base {
      DigitInverse(n);
      AccumulateOne(Digit(n), base, 0);
    } else {
      PrintedDigits(n / base, base);
      AppendDigit(Print(n / base, base), n, base);
    }
  }

  lemma AppendDigit(front: string, n: nat, base: nat)
    requires 2 <= base <= 16
    requires AllDigits(front, base) && Accumulate(front, base, 0) == n / base
    ensures AllDigits(front + [Digit(n % base)], base)
    ensures Accumulate(front + [Digit(n % base)], base, 0) == n
  {
    var last := Digit(n % base);
    DigitInverse(n % base);
    AccumulateSnoc(front, last, base, 0);
    DivMod(n, base);
  }

  lemma DivMod(n: nat, base: nat)
    requires base > 0
    ensures (n / base) * base + n % base == n
  {
  }

  /** Reading back a printed unsigned number gives the number, up to the largest of 64 bits. */
  lemma PrintRoundTrip(n: nat, base: nat)
    requires base == 10 || base == 16
    ensures StrToULL(Print(n, base), base) == if n < 0x1_0000_0000_0000_0000 then n else 0xffff_ffff_ffff_ffff
  {
    PrintedDigits(n, base);
    ReadDigits(Print(n, base), base);
  }

  lemma ReadDigits(s: string, base: nat)
    requires s != "" && AllDigits(s, base) && (base == 10 || base == 16)
    ensures var n := Accumulate(s, base, 0); StrToULL(s, base) == if n < U64 then n else U64 - 1
  {
    assert DigitValue(s[0]) < base;
    if |s| > 1 { assert DigitValue(s[1]) < base; }
    assert SkipSpace(s) == s && !HexPrefix(s);
  }

  /** A negative number is read through `strtoull` modulo 2^64 and comes back through the cast to `i64`. */
  lemma SignedRoundTrip(i: int)
    requires -0x8000_0000_0000_0000 <= i < 0x8000_0000_0000_0000
    ensures ToI64(StrToULL(PrintSigned(i), 10)) == i
  {
    if i < 0 {
      ReadNegative(-i);
    } else {
      PrintRoundTrip(i, 10);
    }
  }

  lemma ReadNegative(n: nat)
    requires 0 < n < U64
    ensures StrToULL("-" + Print(n, 10), 10) == U64 - n
  {
    var s := "-" + Print(n, 10);
    PrintedDigits(n, 10);
    assert s[1..] == Print(n, 10) && SkipSpace(s) == s;
  }

  lemma DigitIsPlain(d: nat)
    requires d < 16
    ensures '0' <= Digit(d) <= '9' || 'a' <= Digit(d) <= 'f'
    ensures Digit(d) == '0' ==> d == 0
  {
  }

  /** Lower-case digits, and a leading zero only in "0". */
  predicate Plain(s: string) {
    && s != "" && (forall c :: c in s ==> '0' <= c <= '9' || 'a' <= c <= 'f')
    && (s[0] == '0' ==> |s| == 1)
  }

  lemma PlainSnoc(front: string, d: nat)
    requires d < 16 && Plain(front) && front[0] != '0'
    ensures Plain(front + [Digit(d)]) && (front + [Digit(d)])[0] != '0'
  {
    DigitIsPlain(d);
  }

  lemma DivModInRange(n: nat, base: nat)
    requires 2 <= base <= n && base <= 16
    ensures 0 < n / base && 0 <= n % base < 16
  {
  }

  /** Printed numbers are plain, which leaves one text for each number. */
  lemma {:induction false} PrintedPlainly(n: nat, base: nat)
    requires 2 <= base <= 16
    ensures Plain(Print(n, base)) && (n > 0 ==> Print(n, base)[0] != '0')
  {
    if n < base {
      DigitIsPlain(n);
    } else {
      DivModInRange(n, base);
      PrintedPlainly(n / base, base);
      PlainSnoc(Print(n / base, base), n % base);
    }
  }

  lemma PrintInjective(m: nat, n: nat, base: nat)
    requires 2 <= base <= 16 && Print(m, base) == Print(n, base)
    ensures m == n
  {
    PrintedDigits(m, base);
    PrintedDigits(n, base);
  }

  datatype TimeSpec = TimeSpec(sec: int, nsec: int)

  /** `TimeSpecToNs`, in unsigned 64-bit arithmetic. */
  function TimeSpecToNs(t: TimeSpec): nat {
    ((t.sec % U64) * NS_PER_SECOND % U64 + t.nsec % U64) % U64
  }

  function NsToTimeSpec(ns: nat): TimeSpec {
    TimeSpec(ns / NS_PER_SECOND, ns % NS_PER_SECOND)
  }

  /** The times that a nanosecond count can carry. */
  predicate Representable(t: TimeSpec) {
    0 <= t.sec && 0 <= t.nsec < 1_000_000_000 && t.sec * 1_000_000_000 + t.nsec < 0x1_0000_0000_0000_0000
  }

  lemma TimeRoundTrip(t: TimeSpec)
    ensures NsToTimeSpec(TimeSpecToNs(t)) == t <==> Representable(t)
  {
    var ns := TimeSpecToNs(t);
    if NsToTimeSpec(ns) == t {
      assert t.sec * NS_PER_SECOND + t.nsec == ns;
    }
    if Representable(t) {
      InRange(t.sec * NS_PER_SECOND + t.nsec, t);
    }
  }

  /** One second before 1970. */
  lemma EarlyTimeIsLost()
    ensures NsToTimeSpec(TimeSpecToNs(TimeSpec(-1, 0))) != TimeSpec(-1, 0)
  {
    TimeRoundTrip(TimeSpec(-1, 0));
  }

  lemma InRange(total: nat, t: TimeSpec)
    requires Representable(t) && total == t.sec * NS_PER_SECOND + t.nsec
    ensures TimeSpecToNs(t) == total && total / NS_PER_SECOND == t.sec && total % NS_PER_SECOND == t.nsec
  {
    assert t.sec < U64 && t.sec * NS_PER_SECOND < U64;
  }
}
