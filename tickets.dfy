/**
 * Order tickets `<PREFIX>-<TIME>-<RANDOM>`: TIME is the millisecond clock in
 * base 36, upper-cased; RANDOM is characters 2 to 7 of the base-36 rendering
 * of a random number in [0, 1), upper-cased. The clock value and that
 * rendering are parameters.
 */
module Tickets {

  /** A digit of Number.prototype.toString(36) (section 21.1.3.6 of ECMA-262): `0`-`9`, then `a`-`z`. */
  function DigitChar(d: nat): (c: char)
    requires d < 36
    ensures IsBase36Digit(c)
  {
    if d < 10 then ('0' as int + d) as char else ('a' as int + d - 10) as char
  }

  predicate IsBase36Digit(c: char) {
    '0' <= c <= '9' || 'a' <= c <= 'z'
  }

  predicate IsUpperBase36Digit(c: char) {
    '0' <= c <= '9' || 'A' <= c <= 'Z'
  }

  /**
   * The radix-36 rendering of a non-negative integer: most significant digit
   * first, no leading zero, `"0"` for zero.
   */
  function ToBase36(n: nat): (s: string)
    ensures |s| >= 1
    ensures forall i :: 0 <= i < |s| ==> IsBase36Digit(s[i])
    ensures (s[0] == '0') <==> n == 0
    decreases n
  {
    if n < 36 then [DigitChar(n)] else ToBase36(n / 36) + [DigitChar(n % 36)]
  }

  /** String.prototype.toUpperCase on the characters a base-36 rendering can hold. */
  function UpperChar(c: char): char {
    if 'a' <= c <= 'z' then (c as int - 32) as char else c
  }

  /**
   * Upper-casing: no lower-case letter is left, every other character stays,
   * and a base-36 digit becomes an upper-case one of the same value.
   */
  function ToUpper(s: string): (r: string)
    ensures |r| == |s|
    ensures forall i :: 0 <= i < |s| ==> r[i] == UpperChar(s[i])
    ensures forall i :: 0 <= i < |r| ==> !('a' <= r[i] <= 'z')
    ensures forall i :: 0 <= i < |s| && !('a' <= s[i] <= 'z') ==> r[i] == s[i]
    ensures forall i :: 0 <= i < |s| && IsBase36Digit(s[i]) ==> IsUpperBase36Digit(r[i])
    ensures forall i, d :: 0 <= i < |s| && 0 <= d < 36 && s[i] == DigitChar(d) ==> DigitValue(r[i]) == d
  {
    seq(|s|, i requires 0 <= i < |s| => UpperChar(s[i]))
  }

  /** The value of one upper-case base-36 digit. */
  function DigitValue(c: char): nat {
    if '0' <= c <= '9' then c as int - '0' as int
    else if 'A' <= c <= 'Z' then c as int - 'A' as int + 10
    else 0
  }

  /** Reads an upper-case base-36 numeral, most significant digit first. */
  function FromBase36(s: string): nat {
    if s == [] then 0 else FromBase36(s[..|s| - 1]) * 36 + DigitValue(s[|s| - 1])
  }

  lemma UpperDigitValue(d: nat)
    requires d < 36
    ensures IsUpperBase36Digit(UpperChar(DigitChar(d)))
    ensures DigitValue(UpperChar(DigitChar(d))) == d
  {
  }

  /** The upper-cased rendering of a clock value reads back as that value. */
  lemma {:induction false} Base36RoundTrip(n: nat)
    ensures FromBase36(ToUpper(ToBase36(n))) == n
    ensures forall i :: 0 <= i < |ToBase36(n)| ==> IsUpperBase36Digit(ToUpper(ToBase36(n))[i])
    decreases n
  {
    var s := ToBase36(n);
    var u := ToUpper(s);
    if n < 36 {
      assert s[0] == DigitChar(n);
      assert u[..|u| - 1] == [];
    } else {
      Base36RoundTrip(n / 36);
      assert s == ToBase36(n / 36) + [DigitChar(n % 36)];
      assert s[|s| - 1] == DigitChar(n % 36);
      assert u[..|u| - 1] == ToUpper(ToBase36(n / 36));
    }
  }

  /** `s.substring(from, to)` for `from <= to`: indices past the end are clamped to the length. */
  function Substring(s: string, from: nat, to: nat): (r: string)
    requires from <= to
    ensures |r| <= to - from
    ensures from <= |s| ==> r == s[from..if to <= |s| then to else |s|]
    ensures from > |s| ==> r == []
  {
    var a := if from <= |s| then from else |s|;
    var b := if to <= |s| then to else |s|;
    s[a..b]
  }

  /**
   * `Math.random().toString(36).substring(2, 8).toUpperCase()`, given the
   * rendering of the random number. A short rendering (`"0.i"` for 0.5, `"0"`
   * for 0) gives fewer than six characters.
   */
  function RandomSuffix(rendered: string): (r: string)
    ensures |r| <= 6
  {
    ToUpper(Substring(rendered, 2, 8))
  }

  /** `` `${prefix}-${timestamp}-${random}` `` with the two parts computed as above. */
  function Ticket(prefix: string, now: nat, rendered: string): (r: string)
    ensures prefix + "-" <= r
    ensures |prefix| + |ToBase36(now)| + 2 <= |r| <= |prefix| + |ToBase36(now)| + 8
  {
    prefix + "-" + ToUpper(ToBase36(now)) + "-" + RandomSuffix(rendered)
  }

  /** The characters before the first `-`. */
  function BeforeDash(s: string): (r: string)
    ensures '-' !in r
  {
    if s == [] || s[0] == '-' then [] else [s[0]] + BeforeDash(s[1..])
  }

  /** The characters after the first `-`; empty when there is none. */
  function AfterDash(s: string): string {
    if s == [] then [] else if s[0] == '-' then s[1..] else AfterDash(s[1..])
  }

  /** The time field of a ticket: between its first and its second `-`. */
  function TimePart(ticket: string): string {
    BeforeDash(AfterDash(ticket))
  }

  lemma {:induction false} SplitAtFirstDash(x: string, y: string)
    requires '-' !in x
    ensures BeforeDash(x + "-" + y) == x
    ensures AfterDash(x + "-" + y) == y
  {
    if x != [] {
      assert (x + "-" + y)[1..] == x[1..] + "-" + y;
      SplitAtFirstDash(x[1..], y);
    } else {
      assert x + "-" + y == ['-'] + y;
    }
  }

  /**
   * A ticket with a dash-free prefix starts with `prefix-`, its time field
   * decodes back to the clock value and consists of upper-case base-36 digits,
   * and everything after the second dash is the random suffix of at most six
   * characters.
   */
  lemma TicketFields(prefix: string, now: nat, rendered: string)
    requires '-' !in prefix
    ensures var t := Ticket(prefix, now, rendered);
      t[..|prefix| + 1] == prefix + "-" &&
      TimePart(t) == ToUpper(ToBase36(now)) &&
      FromBase36(TimePart(t)) == now &&
      (forall i :: 0 <= i < |TimePart(t)| ==> IsUpperBase36Digit(TimePart(t)[i])) &&
      AfterDash(AfterDash(t)) == RandomSuffix(rendered) &&
      |AfterDash(AfterDash(t))| <= 6
  {
    var time := ToUpper(ToBase36(now));
    var suffix := RandomSuffix(rendered);
    var t := Ticket(prefix, now, rendered);
    assert t == prefix + "-" + (time + "-" + suffix);
    SplitAtFirstDash(prefix, time + "-" + suffix);
    Base36RoundTrip(now);
    assert '-' !in time by {
      forall i | 0 <= i < |time| ensures time[i] != '-' {
        assert IsUpperBase36Digit(time[i]);
      }
    }
    SplitAtFirstDash(time, suffix);
  }

  /** Two tickets with dash-free prefixes that carry different clock values differ. */
  lemma TicketsDifferAcrossTimes(prefix: string, now1: nat, now2: nat, r1: string, r2: string)
    requires '-' !in prefix
    requires now1 != now2
    ensures Ticket(prefix, now1, r1) != Ticket(prefix, now2, r2)
  {
    TicketFields(prefix, now1, r1);
    TicketFields(prefix, now2, r2);
  }

  /** The random part is not always six characters: 0.5 renders as `"0.i"`. */
  lemma ShortRandomSuffix()
    ensures RandomSuffix("0.i") == "I"
    ensures RandomSuffix("0") == ""
  {
    assert Substring("0.i", 2, 8) == "i";
  }
}
