/**
 * The payment dialog: the input formatters of `handleInputChange` (card
 * number in blocks of four, `MM/YY` expiry, CVV of at most four digits), the
 * four-field form, and the details / warning / error / success flow.
 */
module PaymentModal {
  import opened Tickets

  predicate IsDigit(c: char) {
    '0' <= c <= '9'
  }

  predicate AllDigits(s: string) {
    forall i :: 0 <= i < |s| ==> IsDigit(s[i])
  }

  /**
   * The characters matched by the regular-expression class `\s` and removed
   * by String.prototype.trim: WhiteSpace and LineTerminator of ECMA-262
   * (sections 12.2 and 12.3).
   */
  predicate IsWhitespace(c: char) {
    var k := c as int;
    k == 0x09 || k == 0x0A || k == 0x0B || k == 0x0C || k == 0x0D || k == 0x20 ||
    k == 0xA0 || k == 0x1680 || (0x2000 <= k <= 0x200A) || k == 0x2028 ||
    k == 0x2029 || k == 0x202F || k == 0x205F || k == 0x3000 || k == 0xFEFF
  }

  predicate NoWhitespace(s: string) {
    forall i :: 0 <= i < |s| ==> !IsWhitespace(s[i])
  }

  /** `s.replace(/\s/g, "")`: the other characters of `s`, in order (see StripWhitespaceSplit). */
  function StripWhitespace(s: string): (r: string)
    ensures NoWhitespace(r)
    ensures |r| <= |s|
  {
    if s == [] then []
    else (if IsWhitespace(s[0]) then [] else [s[0]]) + StripWhitespace(s[1..])
  }

  /** `s.replace(/\D/g, "")`: the digits of `s`, in order (see KeepDigitsSplit). */
  function KeepDigits(s: string): (r: string)
    ensures AllDigits(r)
    ensures |r| <= |s|
  {
    if s == [] then []
    else (if IsDigit(s[0]) then [s[0]] else []) + KeepDigits(s[1..])
  }

  /** `s.slice(0, n)`: the prefix of length min(n, |s|). */
  function Truncate(s: string, n: nat): (r: string)
    ensures |r| == if |s| <= n then |s| else n
    ensures r == s[..|r|]
  {
    if |s| <= n then s else s[..n]
  }

  /**
   * `s.replace(/(\d{4})/g, "$1 ")`: scanning from the left, every run of four
   * digits that starts where the previous match ended or later gets a space
   * after it.
   */
  function SpaceAfterFourDigits(s: string): string
    decreases |s|
  {
    if |s| >= 4 && AllDigits(s[..4]) then s[..4] + " " + SpaceAfterFourDigits(s[4..])
    else if s == [] then []
    else [s[0]] + SpaceAfterFourDigits(s[1..])
  }

  function TrimStart(s: string): string {
    if s != [] && IsWhitespace(s[0]) then TrimStart(s[1..]) else s
  }

  function TrimEnd(s: string): string {
    if s != [] && IsWhitespace(s[|s| - 1]) then TrimEnd(s[..|s| - 1]) else s
  }

  /** String.prototype.trim. */
  function Trim(s: string): string {
    TrimEnd(TrimStart(s))
  }

  /** The card-number field: whitespace removed, a space after every four digits, trimmed, at most 19 characters. */
  function FormatCardNumber(value: string): (r: string)
    ensures |r| <= 19
  {
    Truncate(Trim(SpaceAfterFourDigits(StripWhitespace(value))), 19)
  }

  /** The digits of the expiry field, with `/` after the second one and no more than four digits. */
  function FormatExpiry(value: string): string {
    var d := KeepDigits(value);
    if |d| >= 2 then d[..2] + "/" + Substring(d, 2, 4) else d
  }

  /** The CVV field: its first four digits. */
  function FormatCvv(value: string): string {
    Truncate(KeepDigits(value), 4)
  }

  /** The intended layout of a card number: blocks of four, one space between blocks. */
  function CardLayout(d: string): string
    decreases |d|
  {
    if |d| <= 4 then d else d[..4] + " " + CardLayout(d[4..])
  }

  // ---------------------------------------------------------------- helpers

  lemma {:induction false} StripWhitespaceAppend(a: string, b: string)
    ensures StripWhitespace(a + b) == StripWhitespace(a) + StripWhitespace(b)
    decreases |a|
  {
    if a != [] {
      assert (a + b)[1..] == a[1..] + b;
      StripWhitespaceAppend(a[1..], b);
    } else {
      assert a + b == b;
    }
  }

  /** A string without whitespace is left as it is. */
  lemma {:induction false} StripWhitespaceOfClean(d: string)
    requires NoWhitespace(d)
    ensures StripWhitespace(d) == d
    decreases |d|
  {
    if d != [] {
      StripWhitespaceOfClean(d[1..]);
      assert [d[0]] + d[1..] == d;
    }
  }

  lemma {:induction false} KeepDigitsAppend(a: string, b: string)
    ensures KeepDigits(a + b) == KeepDigits(a) + KeepDigits(b)
    decreases |a|
  {
    if a != [] {
      assert (a + b)[1..] == a[1..] + b;
      KeepDigitsAppend(a[1..], b);
    } else {
      assert a + b == b;
    }
  }

  lemma {:induction false} KeepDigitsOfDigits(d: string)
    requires AllDigits(d)
    ensures KeepDigits(d) == d
    decreases |d|
  {
    if d != [] {
      KeepDigitsOfDigits(d[1..]);
      assert [d[0]] + d[1..] == d;
    }
  }

  /**
   * Around any position, a whitespace character is dropped and any other one
   * is kept in place between what the two sides become.
   */
  lemma {:induction false} StripWhitespaceSplit(s: string, i: int)
    requires 0 <= i < |s|
    ensures StripWhitespace(s) ==
      StripWhitespace(s[..i]) + (if IsWhitespace(s[i]) then [] else [s[i]]) + StripWhitespace(s[i + 1..])
  {
    var left, c, right := s[..i], [s[i]], s[i + 1..];
    assert s == left + (c + right);
    StripWhitespaceAppend(left, c + right);
    StripWhitespaceAppend(c, right);
    StripWhitespaceOfChar(s[i]);
    assert StripWhitespace(s) == StripWhitespace(left) + (StripWhitespace(c) + StripWhitespace(right));
  }

  lemma StripWhitespaceOfChar(c: char)
    ensures StripWhitespace([c]) == if IsWhitespace(c) then [] else [c]
  {
    assert [c][1..] == [];
  }

  /** Around any position, a digit is kept in place and any other character is dropped. */
  lemma {:induction false} KeepDigitsSplit(s: string, i: int)
    requires 0 <= i < |s|
    ensures KeepDigits(s) ==
      KeepDigits(s[..i]) + (if IsDigit(s[i]) then [s[i]] else []) + KeepDigits(s[i + 1..])
  {
    var left, c, right := s[..i], [s[i]], s[i + 1..];
    assert s == left + (c + right);
    KeepDigitsAppend(left, c + right);
    KeepDigitsAppend(c, right);
    KeepDigitsOfChar(s[i]);
    assert KeepDigits(s) == KeepDigits(left) + (KeepDigits(c) + KeepDigits(right));
  }

  lemma KeepDigitsOfChar(c: char)
    ensures KeepDigits([c]) == if IsDigit(c) then [c] else []
  {
    assert [c][1..] == [];
  }

  /** On a digit string the regular expression puts a space after every complete block of four. */
  lemma {:induction false} GroupingOfDigits(d: string)
    requires AllDigits(d)
    ensures SpaceAfterFourDigits(d) == CardLayout(d) + (if |d| > 0 && |d| % 4 == 0 then " " else "")
    decreases |d|
  {
    if 0 < |d| < 4 {
      var rest := d[1..];
      assert AllDigits(rest);
      GroupingOfDigits(rest);
      assert SpaceAfterFourDigits(d) == [d[0]] + SpaceAfterFourDigits(rest);
      assert SpaceAfterFourDigits(rest) == rest;
      assert [d[0]] + rest == d;
    } else if |d| >= 4 {
      var rest := d[4..];
      assert AllDigits(d[..4]);
      assert AllDigits(rest);
      GroupingOfDigits(rest);
      assert SpaceAfterFourDigits(d) == d[..4] + " " + SpaceAfterFourDigits(rest);
      if |d| == 4 {
        assert d[..4] == d && rest == [];
      } else {
        assert CardLayout(d) == d[..4] + " " + CardLayout(rest);
        assert |rest| % 4 == |d| % 4;
      }
    }
  }

  lemma {:induction false} CardLayoutLength(d: string)
    ensures |CardLayout(d)| == if |d| == 0 then 0 else |d| + (|d| - 1) / 4
    decreases |d|
  {
    if |d| > 4 {
      CardLayoutLength(d[4..]);
    }
  }

  lemma {:induction false} CardLayoutEnds(d: string)
    requires |d| > 0
    ensures |CardLayout(d)| > 0
    ensures CardLayout(d)[0] == d[0]
    ensures CardLayout(d)[|CardLayout(d)| - 1] == d[|d| - 1]
    decreases |d|
  {
    if |d| > 4 {
      CardLayoutEnds(d[4..]);
    }
  }

  /** The first `m` blocks of a layout are the layout of the first `4 * m` digits. */
  lemma {:induction false} CardLayoutPrefix(d: string, m: nat)
    requires m >= 1 && |d| > 4 * m
    ensures |CardLayout(d)| >= 5 * m - 1
    ensures CardLayout(d)[..5 * m - 1] == CardLayout(d[..4 * m])
    decreases m
  {
    var rest := CardLayout(d[4..]);
    assert CardLayout(d) == d[..4] + " " + rest;
    if m == 1 {
      assert CardLayout(d[..4]) == d[..4];
    } else {
      CardLayoutPrefix(d[4..], m - 1);
      assert d[4..][..4 * (m - 1)] == d[..4 * m][4..];
      assert d[..4 * m][..4] == d[..4];
      assert CardLayout(d[..4 * m]) == d[..4] + " " + CardLayout(d[..4 * m][4..]);
      assert CardLayout(d)[..5 * m - 1] == d[..4] + " " + rest[..5 * (m - 1) - 1];
    }
  }

  lemma TrimStartKeeps(x: string)
    requires x == [] || !IsWhitespace(x[0])
    ensures TrimStart(x) == x
  {
  }

  lemma TrimEndKeeps(x: string)
    requires x == [] || !IsWhitespace(x[|x| - 1])
    ensures TrimEnd(x) == x
  {
  }

  lemma TrimEndDropsSpace(x: string)
    ensures TrimEnd(x + " ") == TrimEnd(x)
  {
    var y := x + " ";
    assert y[|y| - 1] == ' ';
    assert y[..|y| - 1] == x;
  }

  lemma TrimLayout(d: string, tail: string)
    requires AllDigits(d)
    requires tail == "" || (tail == " " && |d| > 0)
    ensures Trim(CardLayout(d) + tail) == CardLayout(d)
  {
    var x := CardLayout(d);
    if d == [] {
      assert x + tail == [];
    } else {
      CardLayoutEnds(d);
      assert IsDigit(d[0]) && IsDigit(d[|d| - 1]);
      assert (x + tail)[0] == d[0];
      TrimStartKeeps(x + tail);
      TrimEndKeeps(x);
      if tail == " " {
        TrimEndDropsSpace(x);
      } else {
        assert x + tail == x;
      }
    }
  }

  lemma TruncateLayout(d: string)
    ensures Truncate(CardLayout(d), 19) == CardLayout(Truncate(d, 16))
  {
    if |d| <= 16 {
      CardLayoutLength(d);
    } else {
      CardLayoutPrefix(d, 4);
    }
  }

  lemma {:induction false} CardLayoutChars(d: string)
    ensures forall i :: 0 <= i < |CardLayout(d)| && i % 5 == 4 ==> CardLayout(d)[i] == ' '
    ensures forall i :: 0 <= i < |CardLayout(d)| && i % 5 != 4 ==>
      i - i / 5 < |d| && CardLayout(d)[i] == d[i - i / 5]
    decreases |d|
  {
    CardLayoutLength(d);
    if |d| > 4 {
      var rest := CardLayout(d[4..]);
      CardLayoutChars(d[4..]);
      CardLayoutLength(d[4..]);
      forall i | 0 <= i < |CardLayout(d)|
        ensures i % 5 == 4 ==> CardLayout(d)[i] == ' '
        ensures i % 5 != 4 ==> i - i / 5 < |d| && CardLayout(d)[i] == d[i - i / 5]
      {
        if i >= 5 {
          var j := i - 5;
          assert j % 5 == i % 5 && j / 5 == i / 5 - 1;
          assert CardLayout(d)[i] == rest[j];
        }
      }
    }
  }

  lemma {:induction false} StripWhitespaceOfLayout(d: string)
    requires AllDigits(d)
    ensures StripWhitespace(CardLayout(d)) == d
    decreases |d|
  {
    if |d| <= 4 {
      StripWhitespaceOfClean(d);
    } else {
      StripWhitespaceOfLayout(d[4..]);
      StripWhitespaceAppend(d[..4] + " ", CardLayout(d[4..]));
      StripWhitespaceAppend(d[..4], " ");
      assert AllDigits(d[..4]);
      StripWhitespaceOfClean(d[..4]);
      assert StripWhitespace(" ") == "";
      assert d[..4] + d[4..] == d;
    }
  }

  // -------------------------------------------------------------- card number

  /**
   * On input whose non-blank characters are digits, the card-number field is
   * the block layout of its first sixteen digits.
   */
  lemma CardNumberLayout(value: string)
    requires AllDigits(StripWhitespace(value))
    ensures FormatCardNumber(value) == CardLayout(Truncate(StripWhitespace(value), 16))
  {
    var d := StripWhitespace(value);
    GroupingOfDigits(d);
    TrimLayout(d, if |d| > 0 && |d| % 4 == 0 then " " else "");
    TruncateLayout(d);
  }

  /**
   * For digits (and blanks): at most 19 characters; without its spaces the
   * field holds the first min(16, n) digits; a space stands exactly at every
   * fifth position, so after each block of four and never at the end.
   */
  lemma CardNumberOnDigits(value: string)
    requires AllDigits(StripWhitespace(value))
    ensures var r := FormatCardNumber(value);
      var d := Truncate(StripWhitespace(value), 16);
      |r| <= 19 &&
      StripWhitespace(r) == d &&
      (forall i :: 0 <= i < |r| ==> (r[i] == ' ' <==> i % 5 == 4)) &&
      (forall i :: 0 <= i < |r| && i % 5 != 4 ==> i - i / 5 < |d| && r[i] == d[i - i / 5]) &&
      (|r| > 0 ==> r[|r| - 1] != ' ')
  {
    var d := Truncate(StripWhitespace(value), 16);
    var r := FormatCardNumber(value);
    CardNumberLayout(value);
    assert AllDigits(d);
    StripWhitespaceOfLayout(d);
    CardLayoutChars(d);
    CardLayoutLength(d);
    forall i | 0 <= i < |r| ensures r[i] == ' ' <==> i % 5 == 4 {
      if i % 5 != 4 {
        assert IsDigit(d[i - i / 5]);
      }
    }
    if |r| > 0 {
      CardLayoutEnds(d);
      assert IsDigit(d[|d| - 1]);
    }
  }

  /** Reformatting a formatted card number leaves it unchanged. */
  lemma CardNumberIdempotent(value: string)
    requires AllDigits(StripWhitespace(value))
    ensures FormatCardNumber(FormatCardNumber(value)) == FormatCardNumber(value)
  {
    var d := Truncate(StripWhitespace(value), 16);
    CardNumberLayout(value);
    assert AllDigits(d);
    StripWhitespaceOfLayout(d);
    CardNumberLayout(FormatCardNumber(value));
    assert Truncate(d, 16) == d;
  }

  // ------------------------------------------------------------------- expiry

  /**
   * The expiry field holds at most four digits and five characters; a `/`
   * appears, at index 2 and nowhere else, exactly when at least two digits
   * were typed; its digits are the first four typed.
   */
  lemma ExpiryShape(value: string)
    ensures var r := FormatExpiry(value);
      var d := KeepDigits(value);
      |r| <= 5 &&
      (forall i :: 0 <= i < |r| ==> (r[i] == '/' <==> i == 2)) &&
      (forall i :: 0 <= i < |r| && i != 2 ==> IsDigit(r[i])) &&
      (|r| > 2 <==> |d| >= 2) &&
      KeepDigits(r) == Truncate(d, 4)
  {
    var d := KeepDigits(value);
    if |d| >= 2 {
      var tail := Substring(d, 2, 4);
      KeepDigitsAppend(d[..2] + "/", tail);
      KeepDigitsAppend(d[..2], "/");
      assert AllDigits(d[..2]);
      KeepDigitsOfDigits(d[..2]);
      assert AllDigits(tail);
      KeepDigitsOfDigits(tail);
      assert KeepDigits("/") == "";
      assert d[..2] + tail == Truncate(d, 4);
    } else {
      KeepDigitsOfDigits(d);
    }
  }

  /** Reformatting the expiry field leaves it unchanged. */
  lemma ExpiryIdempotent(value: string)
    ensures FormatExpiry(FormatExpiry(value)) == FormatExpiry(value)
  {
    var d := KeepDigits(value);
    ExpiryShape(value);
    var t := Truncate(d, 4);
    if |d| >= 2 {
      assert t[..2] == d[..2];
      assert Substring(t, 2, 4) == Substring(d, 2, 4);
    }
  }

  /**
   * Deleting the `/` from `MM/` leaves two digits, which the formatter turns
   * back into `MM/`.
   */
  lemma ExpirySlashComesBack(a: char, b: char)
    requires IsDigit(a) && IsDigit(b)
    ensures FormatExpiry([a, b]) == [a, b, '/']
  {
    assert KeepDigits([b]) == [b];
    assert [a, b][1..] == [b];
    assert KeepDigits([a, b]) == [a, b];
  }

  // ---------------------------------------------------------------------- CVV

  /** The CVV field is the first min(4, n) digits typed, and only digits. */
  lemma CvvShape(value: string)
    ensures var r := FormatCvv(value);
      var d := KeepDigits(value);
      AllDigits(r) && |r| == (if |d| <= 4 then |d| else 4) && r == d[..|r|]
  {
  }

  /** Reformatting the CVV leaves it unchanged, and a CVV of up to four digits is kept as typed. */
  lemma CvvIdempotent(value: string)
    ensures FormatCvv(FormatCvv(value)) == FormatCvv(value)
    ensures AllDigits(value) && |value| <= 4 ==> FormatCvv(value) == value
  {
    KeepDigitsOfDigits(FormatCvv(value));
    if AllDigits(value) {
      KeepDigitsOfDigits(value);
    }
  }

  // ------------------------------------------------------------ form and flow

  datatype Field = CardNumber | CardHolder | ExpiryDate | Cvv

  datatype FormData = FormData(cardNumber: string, cardHolder: string, expiryDate: string, cvv: string)

  const EmptyForm := FormData("", "", "", "")

  function Get(f: FormData, field: Field): string {
    match field
    case CardNumber => f.cardNumber
    case CardHolder => f.cardHolder
    case ExpiryDate => f.expiryDate
    case Cvv => f.cvv
  }

  /** What `handleInputChange` stores for a typed value: formatted, or verbatim for the holder's name. */
  function Formatted(field: Field, value: string): string {
    match field
    case CardNumber => FormatCardNumber(value)
    case CardHolder => value
    case ExpiryDate => FormatExpiry(value)
    case Cvv => FormatCvv(value)
  }

  /** `handleInputChange`: only the named field changes. */
  function InputChange(f: FormData, field: Field, value: string): (r: FormData)
    ensures Get(r, field) == Formatted(field, value)
    ensures forall g :: g != field ==> Get(r, g) == Get(f, g)
  {
    match field
    case CardNumber => f.(cardNumber := Formatted(field, value))
    case CardHolder => f.(cardHolder := Formatted(field, value))
    case ExpiryDate => f.(expiryDate := Formatted(field, value))
    case Cvv => f.(cvv := Formatted(field, value))
  }

  /** The check of `handlePaymentAttempt`: all four fields filled. */
  predicate AllFilled(f: FormData) {
    f.cardNumber != "" && f.cardHolder != "" && f.expiryDate != "" && f.cvv != ""
  }

  /** A form is rejected exactly when some field is empty. */
  lemma AllFilledMeansNoFieldEmpty(f: FormData)
    ensures AllFilled(f) <==> forall g :: Get(f, g) != ""
  {
    if !AllFilled(f) {
      if f.cardNumber == "" { assert Get(f, CardNumber) == ""; }
      else if f.cardHolder == "" { assert Get(f, CardHolder) == ""; }
      else if f.expiryDate == "" { assert Get(f, ExpiryDate) == ""; }
      else { assert Get(f, Cvv) == ""; }
    }
  }

  predicate NoDigits(s: string) {
    forall i :: 0 <= i < |s| ==> !IsDigit(s[i])
  }

  /** The regular expression copies a digit-free prefix through unchanged. */
  lemma {:induction false} SpaceAfterNoDigits(x: string, t: string)
    requires NoDigits(x)
    ensures SpaceAfterFourDigits(x + t) == x + SpaceAfterFourDigits(t)
    decreases |x|
  {
    if x != [] {
      var s := x + t;
      assert s[0] == x[0];
      assert |s| >= 4 ==> !AllDigits(s[..4]) by {
        if |s| >= 4 { assert s[..4][0] == x[0]; }
      }
      assert s[1..] == x[1..] + t;
      SpaceAfterNoDigits(x[1..], t);
      assert [x[0]] + x[1..] == x;
    } else {
      assert x + t == t;
    }
  }

  /**
   * Outside digits and blanks the card field is not idempotent: `slice(0, 19)`
   * runs after `trim()`, so a 19-character entry such as
   * `aaaaaaaaaaaaaa1234a` is stored with a trailing space, which the next
   * reformatting removes.
   */
  lemma CardNumberTrailingSpace(x: string)
    requires |x| == 14 && NoDigits(x) && NoWhitespace(x)
    ensures FormatCardNumber(x + "1234a") == x + "1234 "
    ensures FormatCardNumber(x + "1234 ") == x + "1234"
  {
    var block := "1234";
    assert AllDigits(block);
    // First keystroke.
    var v := x + (block + "a");
    assert NoWhitespace(block + "a");
    assert NoWhitespace(v) by {
      forall i | 0 <= i < |v| ensures !IsWhitespace(v[i]) {
        if i >= |x| { assert v[i] == (block + "a")[i - |x|]; }
      }
    }
    StripWhitespaceOfClean(v);
    assert SpaceAfterFourDigits("a") == "a";
    assert (block + "a")[..4] == block && (block + "a")[4..] == "a";
    assert SpaceAfterFourDigits(block + "a") == block + " a";
    SpaceAfterNoDigits(x, block + "a");
    var f := x + (block + " a");
    assert f[0] == x[0] && f[|f| - 1] == 'a';
    TrimStartKeeps(f);
    TrimEndKeeps(f);
    assert f[..19] == x + "1234 ";
    assert x + "1234a" == v;
    assert StripWhitespace(v) == v;
    assert SpaceAfterFourDigits(v) == f;
    assert Trim(f) == f;
    assert Truncate(f, 19) == x + "1234 ";
    // Reformatting the stored value.
    var w := x + block;
    assert NoWhitespace(w) by {
      forall i | 0 <= i < |w| ensures !IsWhitespace(w[i]) {
        if i >= |x| { assert w[i] == block[i - |x|]; }
      }
    }
    assert x + "1234 " == w + " ";
    StripWhitespaceAppend(w, " ");
    StripWhitespaceOfClean(w);
    assert StripWhitespace(" ") == "";
    assert w + "" == w;
    GroupingOfDigits(block);
    assert CardLayout(block) == block;
    SpaceAfterNoDigits(x, block);
    var g := x + (block + " ");
    assert g == w + " ";
    TrimEndDropsSpace(w);
    assert w[0] == x[0] && w[|w| - 1] == '4';
    TrimStartKeeps(g);
    TrimEndKeeps(w);
  }

  /**
   * A non-empty name, a card number of digits and blanks with at least one
   * digit, and an expiry and a CVV that each contain at least one digit pass
   * the check.
   */
  lemma FilledByTyping(number: string, holder: string, expiry: string, cvv: string)
    requires |StripWhitespace(number)| > 0 && AllDigits(StripWhitespace(number))
    requires holder != "" && |KeepDigits(expiry)| > 0 && |KeepDigits(cvv)| > 0
    ensures AllFilled(InputChange(InputChange(InputChange(InputChange(EmptyForm,
      CardNumber, number), CardHolder, holder), ExpiryDate, expiry), Cvv, cvv))
  {
    CardNumberLayout(number);
    CardLayoutLength(Truncate(StripWhitespace(number), 16));
  }

  const TicketPrefix := "TKY"

  datatype PayStep = Details | Warning | Error | Success

  class PaymentDialog {
    var step: PayStep
    var ticketNumber: string
    var copied: bool
    var formData: FormData

    constructor ()
      ensures step == Details && ticketNumber == "" && !copied && formData == EmptyForm
    {
      step := Details;
      ticketNumber := "";
      copied := false;
      formData := EmptyForm;
    }

    /** `handleInputChange`: stores the formatted value in the named field and nothing else. */
    method HandleInputChange(field: Field, value: string)
      modifies this
      ensures formData == InputChange(old(formData), field, value)
      ensures step == old(step) && ticketNumber == old(ticketNumber) && copied == old(copied)
    {
      formData := InputChange(formData, field, value);
    }

    /** `handlePaymentAttempt`: to the error view if a field is empty, else to the warning view. */
    method HandlePaymentAttempt()
      modifies this
      ensures step == (if AllFilled(formData) then Warning else Error)
      ensures formData == old(formData) && ticketNumber == old(ticketNumber) && copied == old(copied)
    {
      if formData.cardNumber == "" || formData.cardHolder == "" || formData.expiryDate == "" || formData.cvv == "" {
        step := Error;
        return;
      }
      step := Warning;
    }

    /** `handleConfirmPayment`: a `TKY-` ticket and the success view. */
    method HandleConfirmPayment(now: nat, rendered: string)
      modifies this
      ensures step == Success && ticketNumber == Ticket(TicketPrefix, now, rendered)
      ensures ticketNumber[..4] == "TKY-"
      ensures formData == old(formData) && copied == old(copied)
    {
      ticketNumber := Ticket(TicketPrefix, now, rendered);
      TicketFields(TicketPrefix, now, rendered);
      step := Success;
    }

    /** The Retour buttons of the warning and error views: back to the form, which is kept. */
    method Back()
      modifies this
      ensures step == Details
      ensures formData == old(formData) && ticketNumber == old(ticketNumber) && copied == old(copied)
    {
      step := Details;
    }

    /** `copyToClipboard`, as far as this state goes: raise the copied flag. */
    method CopyToClipboard()
      modifies this
      ensures copied
      ensures step == old(step) && formData == old(formData) && ticketNumber == old(ticketNumber)
    {
      copied := true;
    }

    /** `handleClose`: back to an empty form in the details view, no ticket, not copied. */
    method HandleClose()
      modifies this
      ensures step == Details && formData == EmptyForm && ticketNumber == "" && !copied
    {
      step := Details;
      formData := EmptyForm;
      ticketNumber := "";
      copied := false;
    }
  }
}
