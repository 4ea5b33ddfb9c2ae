/** Unsigned decimal numbers as the SDK prints them (%u) and reads them back
  (strtoul in base ten, cast to a port). */
module Decimal {

  predicate IsDigit(c: char) {
    '0' <= c <= '9'
  }

  function Digit(n: nat): (c: char)
    requires n < 10
    ensures IsDigit(c) && c as int - '0' as int == n
  {
    '0' + n as char
  }

  function Print(n: nat): (s: string)
    ensures s != [] && forall i :: 0 <= i < |s| ==> IsDigit(s[i])
  {
    if n < 10 then [Digit(n)] else Print(n / 10) + [Digit(n % 10)]
  }

  /** The value of the leading digits of `s`, read after `high`. */
  function Value(s: string, high: nat): nat {
    if s == [] || !IsDigit(s[0]) then high
    else Value(s[1..], 10 * high + (s[0] as int - '0' as int))
  }

  predicate IsSpace(c: char) {
    c == ' ' || 9 as char <= c <= 13 as char
  }

  function SkipSpace(s: string): string {
    if s != [] && IsSpace(s[0]) then SkipSpace(s[1..]) else s
  }

  const ULONG: nat := 0x1_0000_0000_0000_0000

  /** (uint16_t)strtoul(s, NULL, 10): blanks and one sign are accepted, an
    overlong number saturates, a negative one wraps, and the cast truncates. */
  function ReadPort(s: string): (port: nat)
    ensures port < 0x1_0000
  {
    var t := SkipSpace(s);
    var negative := t != [] && t[0] == '-';
    var v := Value(if t != [] && (t[0] == '-' || t[0] == '+') then t[1..] else t, 0);
    (if v >= ULONG then ULONG - 1 else if negative && v > 0 then ULONG - v else v) % 0x1_0000
  }

  /** Reading consumes exactly the printed digits. */
  lemma {:induction false} ValueOfPrint(n: nat, rest: string)
    ensures Value(Print(n) + rest, 0) == Value(rest, n)
  {
    if n < 10 {
      assert ([Digit(n)] + rest)[1..] == rest;
    } else {
      var tail := [Digit(n % 10)] + rest;
      ValueOfPrint(n / 10, tail);
      assert Print(n) + rest == Print(n / 10) + tail;
      assert tail[1..] == rest;
    }
  }

  /** A printed port reads back as itself, whatever non-digit follows it. */
  lemma ReadBack(n: nat, rest: string)
    requires n < 0x1_0000 && (rest == [] || !IsDigit(rest[0]))
    ensures ReadPort(Print(n) + rest) == n
  {
    ValueOfPrint(n, rest);
    assert IsDigit((Print(n) + rest)[0]);
  }

  /** As strtoul has it: blanks and a plus sign are passed over, a minus sign wraps
    the number around, one too large for the type saturates, no digits are zero,
    and the cast keeps sixteen bits. */
  lemma {:induction false} ReadPortEdges(n: nat)
    requires n > 0
    ensures ReadPort([' ', '+'] + Print(n)) == if n >= ULONG then 0xFFFF else n % 0x1_0000
    ensures n < ULONG ==> ReadPort("-" + Print(n)) == (ULONG - n) % 0x1_0000
    ensures ReadPort("") == 0 && ReadPort("x") == 0
  {
    hide Print;
    SignedReads(Print(n), ' ', '+');
    ValueOfPrint(n, []);
    assert Print(n) + [] == Print(n);
    hide SkipSpace, Value;
    assert (ULONG - 1) % 0x1_0000 == 0xFFFF;
    NothingReads();
  }

  lemma SignedReads(digits: string, blank: char, sign: char)
    requires IsSpace(blank) && (sign == '+' || sign == '-')
    ensures SkipSpace([blank, sign] + digits) == [sign] + digits && SkipSpace("-" + digits) == "-" + digits
    ensures ([sign] + digits)[1..] == digits && ("-" + digits)[1..] == digits
  {
    assert ([blank, sign] + digits)[1..] == [sign] + digits;
    assert SkipSpace([sign] + digits) == [sign] + digits;
  }

  lemma NothingReads()
    ensures ReadPort("") == 0 && ReadPort("x") == 0
  {
  }

  lemma PrintInjective(m: nat, n: nat)
    requires Print(m) == Print(n)
    ensures m == n
  {
    ValueOfPrint(m, []);
    ValueOfPrint(n, []);
  }

  lemma {:induction false} PortLength(n: nat, digits: nat)
    requires n < Power10(digits) && digits > 0
    ensures |Print(n)| <= digits
    decreases digits
  {
    if n >= 10 { PortLength(n / 10, digits - 1); }
  }

  function Power10(k: nat): nat {
    if k == 0 then 1 else 10 * Power10(k - 1)
  }
}
