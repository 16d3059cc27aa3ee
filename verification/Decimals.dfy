/** Decimal numerals, as std::to_string prints and std::stoi reads them. */
module Decimals {

  const INT_MAX := 0x7FFF_FFFF

  predicate IsDigit(c: char) {
    '0' <= c <= '9'
  }

  predicate AllDigits(s: string) {
    forall k :: 0 <= k < |s| ==> IsDigit(s[k])
  }

  function DigitChar(d: nat): (c: char)
    requires d < 10
    ensures IsDigit(c) && c as int - '0' as int == d
  {
    (d + '0' as int) as char
  }

  /** std::to_string on a non-negative integer. */
  function ToString(n: nat): (s: string)
    ensures s != [] && AllDigits(s)
  {
    if n < 10 then [DigitChar(n)] else ToString(n / 10) + [DigitChar(n % 10)]
  }

  /** The number that the digits denote. */
  function Value(digits: string): (n: nat)
    requires AllDigits(digits)
  {
    if digits == "" then 0
    else Value(digits[..|digits| - 1]) * 10 + (digits[|digits| - 1] as int - '0' as int)
  }

  predicate IsSpace(c: char) {
    c == ' ' || 9 <= c as int <= 13
  }

  function SkipSpace(s: string): string {
    if s != "" && IsSpace(s[0]) then SkipSpace(s[1..]) else s
  }

  function LeadingDigits(s: string): (digits: string)
    ensures AllDigits(digits)
  {
    if s != "" && IsDigit(s[0]) then [s[0]] + LeadingDigits(s[1..]) else ""
  }

  datatype Parsed = NotANumber | Number(value: int)

  /** std::stoi: leading space, a sign and digits, whatever follows; it throws without digits or out of range. */
  function Stoi(s: string): Parsed {
    var text := SkipSpace(s);
    var signed := text != "" && (text[0] == '-' || text[0] == '+');
    var digits := LeadingDigits(if signed then text[1..] else text);
    var value: int := if signed && text[0] == '-' then 0 - Value(digits) else Value(digits);
    if digits == "" || value > INT_MAX || value < -INT_MAX - 1 then NotANumber else Number(value)
  }

  lemma {:induction false} LeadingDigitsOfDigits(s: string)
    requires AllDigits(s)
    ensures LeadingDigits(s) == s
  {
    if s != "" {
      LeadingDigitsOfDigits(s[1..]);
    }
  }

  /** Digits are read as their value, if that is in range. */
  lemma StoiOfNumeral(s: string)
    requires AllDigits(s) && s != ""
    ensures Stoi(s) == if Value(s) <= INT_MAX then Number(Value(s)) else NotANumber
  {
    LeadingDigitsOfDigits(s);
    assert IsDigit(s[0]);
  }

  lemma {:induction false} SpaceIsSkipped(space: string, rest: string)
    requires (forall k :: 0 <= k < |space| ==> IsSpace(space[k])) && (rest != "" ==> !IsSpace(rest[0]))
    ensures SkipSpace(space + rest) == rest
  {
    if space != "" {
      SpaceIsSkipped(space[1..], rest);
      assert (space + rest)[1..] == space[1..] + rest;
    } else {
      assert space + rest == rest;
    }
  }

  lemma {:induction false} DigitsLead(digits: string, rest: string)
    requires AllDigits(digits) && (rest != "" ==> !IsDigit(rest[0]))
    ensures LeadingDigits(digits + rest) == digits
  {
    if digits != "" {
      DigitsLead(digits[1..], rest);
      assert (digits + rest)[1..] == digits[1..] + rest;
    } else {
      assert digits + rest == rest;
    }
  }

  /** After any space, a sign counts, digits are read up to the first other character, and the rest is ignored. */
  lemma StoiReads(space: string, sign: string, digits: string, rest: string)
    requires forall k :: 0 <= k < |space| ==> space[k] == ' ' || 9 <= space[k] as int <= 13
    requires sign in {"", "+", "-"} && AllDigits(digits) && digits != "" && (rest != "" ==> !IsDigit(rest[0]))
    ensures var value: int := if sign == "-" then 0 - Value(digits) else Value(digits);
            Stoi(space + sign + digits + rest) ==
            if -0x8000_0000 <= value < 0x8000_0000 then Number(value) else NotANumber
  {
    var text := sign + (digits + rest);
    assert space + sign + digits + rest == space + text;
    assert IsDigit(digits[0]);
    FirstIs(sign, digits, rest);
    SpaceIsSkipped(space, text);
    DigitsLead(digits, rest);
    hide Value, SkipSpace, LeadingDigits, AllDigits;
  }

  lemma FirstIs(sign: string, digits: string, rest: string)
    requires sign in {"", "+", "-"} && digits != ""
    ensures var text := sign + (digits + rest);
            text != "" && text[0] == (if sign == "" then digits[0] else sign[0])
            && (if sign == "" then text == digits + rest else text[1..] == digits + rest)
  {
  }

  /** Without a digit after the space and the sign there is no number. */
  lemma StoiRefuses(space: string, sign: string, rest: string)
    requires forall k :: 0 <= k < |space| ==> space[k] == ' ' || 9 <= space[k] as int <= 13
    requires sign in {"", "+", "-"} && (rest != "" ==> !('0' <= rest[0] <= '9'))
    requires sign == "" && rest != "" ==> rest[0] !in {'+', '-', ' '} && !(9 <= rest[0] as int <= 13)
    ensures Stoi(space + sign + rest) == NotANumber
  {
    var text := sign + rest;
    assert space + sign + rest == space + text;
    assert sign != "" ==> text[0] == sign[0] && text[1..] == rest;
    assert sign == "" ==> text == rest;
    SpaceIsSkipped(space, text);
  }

  /** The digits of a number stand in their usual order. */
  lemma TextOfNumber()
    ensures ToString(1024) == "1024" && Value("1024") == 1024
  {
    assert ToString(1) == "1" && ToString(10) == "10" && ToString(102) == "102";
    ValueOfNumeral(1024);
  }

  lemma {:induction false} ValueOfNumeral(n: nat)
    ensures Value(ToString(n)) == n
  {
    if n >= 10 {
      ValueOfNumeral(n / 10);
      var s := ToString(n);
      assert s[..|s| - 1] == ToString(n / 10);
    }
  }

  /** Zeros in front, up to the given length. */
  function Padded(s: string, length: nat): string {
    if |s| < length then seq(length - |s|, _ => '0') + s else s
  }

  /** Leading zeros do not change the value. */
  lemma {:induction false} PaddingKeepsValue(s: string, length: nat)
    requires AllDigits(s)
    ensures AllDigits(Padded(s, length)) && |Padded(s, length)| >= length && Value(Padded(s, length)) == Value(s)
  {
    var padded := Padded(s, length);
    if s == "" {
      if length > 0 {
        PaddingKeepsValue(s, length - 1);
        assert padded[..|padded| - 1] == Padded(s, length - 1);
      }
    } else if |s| < length {
      PaddingKeepsValue(s[..|s| - 1], length - 1);
      assert padded[..|padded| - 1] == Padded(s[..|s| - 1], length - 1);
    }
  }

  /** Printing what digits denote gives them back, once the leading zeros are. */
  lemma {:induction false} PaddedNumeral(digits: string)
    requires AllDigits(digits) && digits != ""
    ensures |ToString(Value(digits))| <= |digits| && Padded(ToString(Value(digits)), |digits|) == digits
  {
    var front, last := digits[..|digits| - 1], digits[|digits| - 1];
    var n := Value(digits);
    assert n % 10 == last as int - '0' as int && n / 10 == Value(front);
    assert last == DigitChar(n % 10);
    if front != "" {
      PaddedNumeral(front);
      if n < 10 {
        assert ToString(Value(front)) == "0";
        assert Padded(ToString(n), |digits|) == Padded("0", |front|) + [last];
      } else {
        assert ToString(n) == ToString(Value(front)) + [last];
        assert Padded(ToString(n), |digits|) == Padded(ToString(Value(front)), |front|) + [last];
      }
    } else {
      assert digits == [last];
    }
  }
}
