/** Decimal integers as Python writes and reads them: `str(n)` and `int(text)`. */
module Integers {
  import opened Wrappers

  function Digit(d: nat): char
    requires d < 10
  {
    (0x30 + d) as char
  }

  function Digits(n: nat): (r: string)
    ensures r != ""
  {
    if n < 10 then [Digit(n)] else Digits(n / 10) + [Digit(n % 10)]
  }

  /** `str(n)`. */
  function Decimal(n: int): string {
    if n < 0 then "-" + Digits(-n) else Digits(n)
  }

  /** The zeros of Unicode's decimal digits other than '0', version 14.0, each followed by its
      1 to 9. */
  const ZEROS: seq<int> := [
    0x660, 0x6f0, 0x7c0, 0x966, 0x9e6, 0xa66, 0xae6, 0xb66, 0xbe6, 0xc66, 0xce6, 0xd66, 0xde6, 0xe50, 0xed0,
    0xf20, 0x1040, 0x1090, 0x17e0, 0x1810, 0x1946, 0x19d0, 0x1a80, 0x1a90, 0x1b50, 0x1bb0, 0x1c40, 0x1c50, 0xa620,
    0xa8d0, 0xa900, 0xa9d0, 0xa9f0, 0xaa50, 0xabf0, 0xff10, 0x104a0, 0x10d30, 0x11066, 0x110f0, 0x11136, 0x111d0,
    0x112f0, 0x11450, 0x114d0, 0x11650, 0x116c0, 0x11730, 0x118e0, 0x11950, 0x11c50, 0x11d50, 0x11da0, 0x16a60,
    0x16ac0, 0x16b50, 0x1d7ce, 0x1d7d8, 0x1d7e2, 0x1d7ec, 0x1d7f6, 0x1e140, 0x1e2f0, 0x1e950, 0x1fbf0]

  function DigitIn(zeros: seq<int>, c: int): (d: Option<nat>)
    ensures d.Some? ==> d.value < 10
  {
    if zeros == [] then None
    else if zeros[0] <= c < zeros[0] + 10 then Some(c - zeros[0])
    else DigitIn(zeros[1..], c)
  }

  /** The value of a decimal digit of any script. */
  function DigitOf(c: char): (d: Option<nat>)
    ensures d.Some? ==> d.value < 10
  {
    if '0' <= c <= '9' then Some(c as int - 0x30)
    else if c as int < 0x80 then None
    else DigitIn(ZEROS, c as int)
  }

  /** What `int` skips at either end. */
  predicate IsSpace(c: char) {
    var n := c as int;
    9 <= n <= 13 || 0x2000 <= n <= 0x200a || n in {0x20, 0x85, 0xa0, 0x1680, 0x2028, 0x2029, 0x202f, 0x205f, 0x3000}
  }

  function TrimLeft(s: string): string {
    if s != "" && IsSpace(s[0]) then TrimLeft(s[1..]) else s
  }

  function TrimRight(s: string): string {
    if s != "" && IsSpace(s[|s| - 1]) then TrimRight(s[..|s| - 1]) else s
  }

  /** Digits, with at most one underscore between two of them. */
  function NaturalOf(s: string): Option<nat> {
    if s == "" then None
    else
      var n := |s| - 1;
      var last := DigitOf(s[n]);
      if last.None? || n == 0 then last
      else
        var rest := NaturalOf(if s[n - 1] == '_' then s[..n - 1] else s[..n]);
        if rest.None? then None else Some(10 * rest.value + last.value)
  }

  /** `int(s)` for a string; None for the ValueError it raises. */
  function IntegerOf(s: string): Option<int> {
    var t := TrimLeft(TrimRight(s));
    if t == "" then None
    else
      var n := NaturalOf(if t[0] == '-' || t[0] == '+' then t[1..] else t);
      if n.None? then None
      else
        var value: int := n.value;
        Some(if t[0] == '-' then -value else value)
  }

  lemma DigitOfDigit(d: nat)
    requires d < 10
    ensures DigitOf(Digit(d)) == Some(d) && Digit(d) != '_' && Digit(d) != '-' && Digit(d) != '+' && !IsSpace(Digit(d))
  {
  }

  lemma {:induction false} NaturalOfDigits(n: nat)
    ensures NaturalOf(Digits(n)) == Some(n)
    ensures forall i | 0 <= i < |Digits(n)| :: exists d: nat :: d < 10 && Digits(n)[i] == Digit(d)
  {
    hide DigitOf, IsSpace;
    DigitOfDigit(n % 10);
    var s := Digits(n);
    if n < 10 {
      assert s[0] == Digit(n);
    } else {
      NaturalOfDigits(n / 10);
      var k := |s| - 1;
      assert s[..k] == Digits(n / 10) && s[k] == Digit(n % 10);
      assert s[k - 1] == Digits(n / 10)[k - 1];
      var d: nat :| d < 10 && s[k - 1] == Digit(d);
      DigitOfDigit(d);
    }
  }

  /** Round trip: `int(str(n)) == n`. */
  lemma IntegerOfDecimal(n: int)
    ensures IntegerOf(Decimal(n)) == Some(n)
  {
    hide NaturalOf, Digits, IsSpace, DigitOf;
    var m: nat := if n < 0 then -n else n;
    NaturalOfDigits(m);
    var s, digits := Decimal(n), Digits(m);
    var first: nat :| first < 10 && digits[0] == Digit(first);
    var last: nat :| last < 10 && digits[|digits| - 1] == Digit(last);
    DigitOfDigit(first);
    DigitOfDigit(last);
    assert !IsSpace('-') by { NoSpace(); }
    assert s[|s| - 1] == digits[|digits| - 1];
    if n < 0 {
      assert s[1..] == digits;
    }
  }

  lemma NoSpace()
    ensures !IsSpace('-')
  {
  }

  /** The other forms `int` takes: a plus sign, white space around the number, and an underscore
      between digits. It takes no empty text, and no underscore at an end or doubled. */
  lemma IntegerOfForms(n: nat, d: nat, before: char, after: char)
    requires d < 10 && IsSpace(before) && IsSpace(after)
    ensures IntegerOf("+" + Digits(n)) == Some(n)
    ensures IntegerOf([before] + Digits(n) + [after]) == Some(n)
    ensures IntegerOf(Digits(n) + "_" + [Digit(d)]) == Some(10 * n + d)
    ensures IntegerOf("") == None && IntegerOf("_1") == None && IntegerOf("1_") == None && IntegerOf("1__1") == None
  {
    hide NaturalOf, Digits, IsSpace, DigitOf;
    NaturalOfDigits(n);
    var digits := Digits(n);
    var first: nat :| first < 10 && digits[0] == Digit(first);
    var last: nat :| last < 10 && digits[|digits| - 1] == Digit(last);
    DigitOfDigit(first);
    DigitOfDigit(last);
    DigitOfDigit(d);
    OtherForms();
    assert ("+" + digits)[1..] == digits && ("+" + digits)[|digits|] == digits[|digits| - 1];
    var padded := [before] + digits + [after];
    assert padded[..|digits| + 1] == [before] + digits && ([before] + digits)[1..] == digits;
    assert ([before] + digits)[|digits|] == digits[|digits| - 1];
    assert TrimRight(padded) == TrimRight([before] + digits) == [before] + digits;
    assert TrimLeft([before] + digits) == TrimLeft(digits) == digits;
    var split := digits + "_" + [Digit(d)];
    assert split[..|digits|] == digits && split[|digits|] == '_';
    NaturalOfSplit(digits, n, d);
  }

  lemma NaturalOfSplit(digits: string, n: nat, d: nat)
    requires digits != "" && NaturalOf(digits) == Some(n) && d < 10
    ensures NaturalOf(digits + "_" + [Digit(d)]) == Some(10 * n + d)
  {
    hide DigitOf;
    DigitOfDigit(d);
    var s := digits + "_" + [Digit(d)];
    assert s[..|digits|] == digits && s[|digits|] == '_' && s[|digits| + 1] == Digit(d);
  }

  lemma OtherForms()
    ensures !IsSpace('+')
    ensures IntegerOf("") == None && IntegerOf("_1") == None && IntegerOf("1_") == None && IntegerOf("1__1") == None
  {
    hide DigitIn;
    assert "1__1"[..2] == "1_" && "_1"[..0] == "";
  }
}
