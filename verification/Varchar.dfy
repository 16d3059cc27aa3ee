/** Text in 32-bit words: four characters to a word, printed as hexadecimal digits on the way back. */
module Varchar {
  import opened Options

  /** Text of bytes, which is all that the source's strings can hold. */
  type Text = s: string | forall k :: 0 <= k < |s| ==> s[k] as int < 0x100

  /** The text of a cell, without the quotes around it. */
  function Unquoted(input: Text): Text {
    if |input| >= 2 && input[0] == '"' && input[|input| - 1] == '"' then input[1..|input| - 1] else input
  }

  /** Quotes around a text are taken off, one at each end, and nothing else is. */
  lemma QuotesAreRemoved(text: Text)
    ensures Unquoted("\"" + text + "\"") == text
  {
    var cell: Text := "\"" + text + "\"";
    assert cell[0] == '"' && cell[|cell| - 1] == '"' && cell[1..|cell| - 1] == text;
  }

  /** The number a character is converted to. */
  function CharValue(c: char, signedChars: bool): int
    requires c as int < 0x100
  {
    if signedChars && c as int >= 0x80 then c as int - 0x100 else c as int
  }

  /** Byte `k` of the text, padded with zeros. */
  function ByteAt(text: Text, k: nat): (b: nat)
    ensures b < 0x100
  {
    if k < |text| then text[k] as nat else 0
  }

  function Word(text: Text): nat {
    ByteAt(text, 0) * 0x100_0000 + ByteAt(text, 1) * 0x1_0000 + ByteAt(text, 2) * 0x100 + ByteAt(text, 3)
  }

  function ValueAt(text: Text, k: nat, signedChars: bool): int {
    if k < |text| then CharValue(text[k], signedChars) else 0
  }

  /** 32 bits of an integer. */
  function Wrapped(value: int): (word: nat)
    ensures word < 0x1_0000_0000
  {
    value % 0x1_0000_0000
  }

  /** The word that four characters are added up to. */
  function WordOf(text: Text, signedChars: bool): (word: nat)
    ensures word < 0x1_0000_0000
  {
    Wrapped(ValueAt(text, 0, signedChars) * 0x100_0000 + ValueAt(text, 1, signedChars) * 0x1_0000 +
            ValueAt(text, 2, signedChars) * 0x100 + ValueAt(text, 3, signedChars))
  }

  /** What the character after position `k` of a word takes away from the one there: adding a negative one borrows. */
  function Borrow(text: Text, k: nat, signedChars: bool): (b: nat)
    requires k <= 4
    ensures b <= 1
    decreases 4 - k
  {
    if k < 4 && ValueAt(text, k, signedChars) < Borrow(text, k + 1, signedChars) then 1 else 0
  }

  /** The byte that the word of `text` has at position `k`. */
  function StoredAt(text: Text, k: nat, signedChars: bool): (b: nat)
    requires k < 4
    ensures b < 0x100
  {
    var value := ValueAt(text, k, signedChars) - Borrow(text, k + 1, signedChars);
    if value < 0 then value + 0x100 else value
  }

  /** The bytes of the word of `text`. */
  function Stored(text: Text, signedChars: bool): (stored: Text)
    ensures |stored| == 4
  {
    [StoredAt(text, 0, signedChars) as char, StoredAt(text, 1, signedChars) as char,
     StoredAt(text, 2, signedChars) as char, StoredAt(text, 3, signedChars) as char]
  }

  lemma ByteBorrows(text: Text, k: nat, signedChars: bool)
    requires k < 4
    ensures ValueAt(text, k, signedChars) ==
            StoredAt(text, k, signedChars) - 0x100 * Borrow(text, k, signedChars) + Borrow(text, k + 1, signedChars)
  {
  }

  /** What one byte borrows the next one lends, so that only what the first borrows is left, and that is cut off. */
  lemma BorrowsCancel(values: seq<int>, bytes: seq<nat>, borrows: seq<nat>)
    requires |values| == |bytes| == 4 && |borrows| == 5 && borrows[0] <= 1 && borrows[4] == 0
    requires forall k :: 0 <= k < 4 ==> bytes[k] < 0x100
    requires forall k :: 0 <= k < 4 ==> values[k] + 0x100 * borrows[k] == bytes[k] + borrows[k + 1]
    ensures Wrapped(values[0] * 0x100_0000 + values[1] * 0x1_0000 + values[2] * 0x100 + values[3]) ==
            bytes[0] * 0x100_0000 + bytes[1] * 0x1_0000 + bytes[2] * 0x100 + bytes[3]
  {
    var word: int := bytes[0] * 0x100_0000 + bytes[1] * 0x1_0000 + bytes[2] * 0x100 + bytes[3];
    var sum := values[0] * 0x100_0000 + values[1] * 0x1_0000 + values[2] * 0x100 + values[3];
    assert sum == word - 0x1_0000_0000 * borrows[0] by {
      assert values[3] + 0x100 * borrows[3] == bytes[3] + borrows[4];
    }
    assert borrows[0] == 0 || borrows[0] == 1;
  }

  lemma WordIsStored(text: Text, signedChars: bool)
    ensures WordOf(text, signedChars) == Word(Stored(text, signedChars))
  {
    hide ValueAt, StoredAt, Borrow, Wrapped;
    var values := seq(4, k requires 0 <= k => ValueAt(text, k, signedChars));
    var bytes: seq<nat> := seq(4, k requires 0 <= k < 4 => StoredAt(text, k, signedChars));
    var borrows: seq<nat> := seq(5, k requires 0 <= k < 5 => Borrow(text, k, signedChars));
    forall k | 0 <= k < 4 ensures values[k] + 0x100 * borrows[k] == bytes[k] + borrows[k + 1] {
      ByteBorrows(text, k, signedChars);
    }
    NoBorrowAtEnd(text, signedChars);
    BorrowsCancel(values, bytes, borrows);
  }

  lemma NoBorrowAtEnd(text: Text, signedChars: bool)
    ensures Borrow(text, 4, signedChars) == 0
  {
  }

  /** The text in `n` words. */
  ghost function Packed(text: Text, n: nat, signedChars: bool): (words: seq<nat>)
    ensures |words| == n
    decreases n
  {
    if n == 0 then [] else [WordOf(text, signedChars)] + Packed(if |text| <= 4 then []
                                                                else text[4..], n - 1, signedChars)
  }

  lemma FirstWordHolds(text: Text, signedChars: bool)
    requires signedChars ==> forall i :: 0 <= i < |text| ==> text[i] as int < 0x80
    ensures WordOf(text, signedChars) == ByteAt(text, 0) * 0x100_0000 + ByteAt(text, 1) * 0x1_0000 +
                                         ByteAt(text, 2) * 0x100 + ByteAt(text, 3)
  {
    assert forall k: nat {:trigger ByteAt(text, k)} :: ValueAt(text, k, signedChars) == ByteAt(text, k);
  }

  /** Without negative characters, word `k` holds the four characters from 4 * k on, the first in its highest byte. */
  lemma {:induction false} WordHolds(text: Text, n: nat, k: nat, signedChars: bool)
    requires k < n && (signedChars ==> forall i :: 0 <= i < |text| ==> text[i] as int < 0x80)
    ensures Packed(text, n, signedChars)[k] ==
            ByteAt(text, 4 * k) * 0x100_0000 + ByteAt(text, 4 * k + 1) * 0x1_0000 +
            ByteAt(text, 4 * k + 2) * 0x100 + ByteAt(text, 4 * k + 3)
    decreases k
  {
    hide *;
    PackedParts(text, n, signedChars);
    if k == 0 {
      FirstWordHolds(text, signedChars);
    } else {
      TailIsPlain(text);
      WordHolds(Tail(text), n - 1, k - 1, signedChars);
      TailBytes(text, 4 * k - 4);
      TailBytes(text, 4 * k - 3);
      TailBytes(text, 4 * k - 2);
      TailBytes(text, 4 * k - 1);
    }
  }

  lemma PackedParts(text: Text, n: nat, signedChars: bool)
    requires n > 0
    ensures Packed(text, n, signedChars) == [WordOf(text, signedChars)] + Packed(Tail(text), n - 1, signedChars)
  {
  }

  lemma TailIsPlain(text: Text)
    ensures (forall i :: 0 <= i < |text| ==> text[i] as int < 0x80) ==>
              forall i :: 0 <= i < |Tail(text)| ==> Tail(text)[i] as int < 0x80
  {
  }

  lemma TailBytes(text: Text, i: nat)
    ensures ByteAt(Tail(text), i) == ByteAt(text, i + 4)
  {
  }

  lemma WrapOnce(a: int, b: int)
    ensures Wrapped(Wrapped(a) + b) == Wrapped(a + b)
  {
  }

  function Shift(position: nat): nat
    requires position < 4
  {
    match position case 0 => 0x100_0000 case 1 => 0x1_0000 case 2 => 0x100 case _ => 1
  }

  /** Adding a character at the end adds its value to the word it falls into. */
  lemma {:induction false} PackedGrows(text: Text, c: char, n: nat, signedChars: bool)
    requires |text| < 4 * n && c as int < 0x100
    ensures var k, words := |text|, Packed(text, n, signedChars);
            Packed(text + [c], n, signedChars) ==
            words[k / 4 := Wrapped(words[k / 4] + CharValue(c, signedChars) * Shift(k % 4))]
  {
    hide WordOf, Wrapped, CharValue, Shift, Packed;
    var more: Text := text + [c];
    PackedOnce(text, n, signedChars);
    PackedOnce(more, n, signedChars);
    if |text| < 4 {
      WordGrows(text, c, signedChars);
      assert |more| == 4 ==> more[4..] == [];
    } else {
      SameWord(text, more, signedChars);
      PackedGrows(text[4..], c, n - 1, signedChars);
      assert more[4..] == text[4..] + [c];
      assert (|text| - 4) / 4 == |text| / 4 - 1 && (|text| - 4) % 4 == |text| % 4;
      var rest, k := Packed(text[4..], n - 1, signedChars), |text| / 4 - 1;
      UpdateLater(WordOf(text, signedChars), rest, k,
                  Wrapped(rest[k] + CharValue(c, signedChars) * Shift(|text| % 4)));
    }
  }

  lemma UpdateLater<T>(first: T, rest: seq<T>, k: nat, value: T)
    requires k < |rest|
    ensures ([first] + rest)[k + 1 := value] == [first] + rest[k := value]
    ensures ([first] + rest)[k + 1] == rest[k]
  {
  }

  lemma PackedOnce(text: Text, n: nat, signedChars: bool)
    requires n > 0
    ensures Packed(text, n, signedChars) ==
            [WordOf(text, signedChars)] + Packed(if |text| < 4 then [] else text[4..], n - 1, signedChars)
  {
    assert |text| == 4 ==> text[4..] == [];
  }

  lemma WordGrows(text: Text, c: char, signedChars: bool)
    requires |text| < 4 && c as int < 0x100
    ensures WordOf(text + [c], signedChars) ==
            Wrapped(WordOf(text, signedChars) + CharValue(c, signedChars) * Shift(|text|))
  {
    var more: Text := text + [c];
    assert forall k: nat {:trigger ValueAt(more, k, signedChars)} :: k < |text| ==>
        ValueAt(more, k, signedChars) == ValueAt(text, k, signedChars);
    var sum := ValueAt(text, 0, signedChars) * 0x100_0000 + ValueAt(text, 1, signedChars) * 0x1_0000 +
    ValueAt(text, 2, signedChars) * 0x100 + ValueAt(text, 3, signedChars);
    WrapOnce(sum, CharValue(c, signedChars) * Shift(|text|));
    hide Wrapped, CharValue;
    assert WordOf(more, signedChars) == Wrapped(sum + CharValue(c, signedChars) * Shift(|text|));
  }

  lemma SameWord(text: Text, more: Text, signedChars: bool)
    requires 4 <= |text| <= |more| && more[..|text|] == text
    ensures WordOf(more, signedChars) == WordOf(text, signedChars)
  {
    forall k: nat | k < 4 ensures ValueAt(more, k, signedChars) == ValueAt(text, k, signedChars) {
      assert more[..|text|][k] == more[k];
    }
  }

  lemma EmptyWord(signedChars: bool)
    ensures WordOf([], signedChars) == 0
  {
  }

  lemma {:induction false} EmptyPacked(n: nat, signedChars: bool)
    ensures Packed([], n, signedChars) == seq(n, _ => 0)
  {
    hide WordOf;
    if n > 0 {
      EmptyPacked(n - 1, signedChars);
      EmptyWord(signedChars);
    }
  }

  /** Adds the characters one by one to the words they fall into. */
  method PackCharacters(input: Text, shift: nat, length: nat, size: nat, signedChars: bool)
    returns (values: seq<nat>)
    requires shift + length <= |input| && length <= 4 * size
    ensures values == Packed(input[shift..shift + length], size, signedChars)
  {
    hide Packed, WordOf, Wrapped, CharValue, Shift;
    values := seq(size, _ => 0);
    EmptyPacked(size, signedChars);
    assert input[shift..shift + 0] == [];
    for i := 0 to length
      invariant values == Packed(input[shift..shift + i], size, signedChars)
    {
      assert input[shift..shift + i + 1] == input[shift..shift + i] + [input[i + shift]];
      PackedGrows(input[shift..shift + i], input[i + shift], size, signedChars);
      values := values[i / 4 := Wrapped(values[i / 4] + CharValue(input[i + shift], signedChars) * Shift(i % 4))];
    }
  }

  /** Packs the text of a cell; fails when it is empty or too long for the column. */
  method ConvertCharStringToAscii(input: Text, size: nat, signedChars: bool) returns (words: Option<seq<nat>>)
    ensures words == if input == "" || input == "\"" || |Unquoted(input)| > 4 * size then None
                     else Some(Packed(Unquoted(input), size, signedChars))
    ensures |input| >= 2 && input[0] == '"' == input[|input| - 1] ==>
              words == if |input| - 2 > 4 * size then None
                       else Some(Packed(input[1..|input| - 1], size, signedChars))
    ensures input != "" && !(input[0] == '"' == input[|input| - 1]) ==>
              words == if |input| > 4 * size then None else Some(Packed(input, size, signedChars))
  {
    if input == "" {
      return None;
    }
    var reduction, shift := 0, 0;
    if input[0] == '"' && input[|input| - 1] == '"' {
      reduction, shift := 2, 1;
    }
    if |input| < reduction || |input| - reduction > 4 * size {
      return None;
    }
    var values := PackCharacters(input, shift, |input| - reduction, size, signedChars);
    assert Unquoted(input) == input[shift..shift + |input| - reduction];
    words := Some(values);
  }

  function HexChar(d: nat): (c: char)
    requires d < 16
  {
    if d < 10 then ('0' as int + d) as char else ('a' as int + d - 10) as char
  }

  function DigitOf(c: char): (d: nat)
    ensures d < 16
  {
    if '0' <= c <= '9' then c as int - '0' as int
    else if 'a' <= c <= 'f' then c as int - 'a' as int + 10
    else if 'A' <= c <= 'F' then c as int - 'A' as int + 10
    else 0
  }

  lemma DigitOfHexChar(d: nat)
    requires d < 16
    ensures DigitOf(HexChar(d)) == d && (HexChar(d) == '0' <==> d == 0)
  {
  }

  /** The digits of a number, without leading zeros. */
  function Hex(value: nat): (digits: string)
    ensures digits != []
  {
    if value < 16 then [HexChar(value)] else Hex(value / 16) + [HexChar(value % 16)]
  }

  /** The digits of all words that are not zero, one after the other. */
  function HexOfWords(words: seq<nat>): string {
    if words == [] then "" else (if words[0] != 0 then Hex(words[0]) else "") + HexOfWords(words[1..])
  }

  /** Reads two digits at a time, and drops zero bytes. */
  function TextOfHex(hex: string): string {
    if hex == "" then ""
    else if |hex| == 1 then [DigitOf(hex[0]) as char]
    else (if hex[..2] == "00" then "" else [(DigitOf(hex[0]) * 16 + DigitOf(hex[1])) as char]) + TextOfHex(hex[2..])
  }

  function HexPair(b: nat): string
    requires b < 0x100
  {
    [HexChar(b / 16), HexChar(b % 16)]
  }

  lemma {:induction false} HexGrowsByByte(value: nat, b: nat)
    requires value > 0 && b < 0x100
    ensures Hex(value * 0x100 + b) == Hex(value) + HexPair(b)
  {
    var n := value * 0x100 + b;
    assert n / 16 == value * 16 + b / 16 && n % 16 == b % 16;
    var m := value * 16 + b / 16;
    assert m / 16 == value && m % 16 == b / 16;
    assert Hex(m) == Hex(value) + [HexChar(b / 16)];
    assert Hex(n) == Hex(m) + [HexChar(b % 16)];
  }

  /** The digits after the leading byte of a word. */
  function Rest(text: Text): string
  {
    HexPair(ByteAt(text, 1)) + HexPair(ByteAt(text, 2)) + HexPair(ByteAt(text, 3))
  }

  lemma HexOfWord(text: Text)
    requires ByteAt(text, 0) > 0
    ensures Word(text) > 0 && Hex(Word(text)) == Hex(ByteAt(text, 0)) + Rest(text)
  {
    var a := ByteAt(text, 0);
    var b := a * 0x100 + ByteAt(text, 1);
    var c := b * 0x100 + ByteAt(text, 2);
    HexGrowsByByte(a, ByteAt(text, 1));
    HexGrowsByByte(b, ByteAt(text, 2));
    HexGrowsByByte(c, ByteAt(text, 3));
    assert Word(text) == c * 0x100 + ByteAt(text, 3);
  }

  function Byte(b: nat): string
    requires b < 0x100
  {
    if b == 0 then "" else [b as char]
  }

  /** Reading a byte back. */
  lemma ReadPair(b: nat, rest: string)
    requires b < 0x100
    ensures TextOfHex(HexPair(b) + rest) == Byte(b) + TextOfHex(rest)
  {
    DigitOfHexChar(b / 16);
    DigitOfHexChar(b % 16);
    var hex := HexPair(b) + rest;
    assert hex[2..] == rest && hex[..2] == HexPair(b);
  }

  lemma HexOfHighByte(b: nat)
    requires 16 <= b < 0x100
    ensures Hex(b) == HexPair(b)
  {
  }

  /** The bytes at positions `k` and after of a word, without zeros. */
  function Bytes(text: Text, k: nat): string
    decreases 4 - k
  {
    if k >= 4 then "" else Byte(ByteAt(text, k)) + Bytes(text, k + 1)
  }

  /** Reading what is printed for the last bytes of a word. */
  lemma ReadLast(text: Text, rest: string)
    ensures TextOfHex(Rest(text) + rest) == Bytes(text, 1) + TextOfHex(rest)
  {
    hide HexPair, TextOfHex, Byte;
    var b, c, d := ByteAt(text, 1), ByteAt(text, 2), ByteAt(text, 3);
    ReadPair(d, rest);
    ReadPair(c, HexPair(d) + rest);
    ReadPair(b, HexPair(c) + (HexPair(d) + rest));
    assert Rest(text) + rest == HexPair(b) + (HexPair(c) + (HexPair(d) + rest));
    var read := TextOfHex(rest);
    assert Bytes(text, 1) == Byte(b) + (Byte(c) + Byte(d));
    assert Byte(b) + (Byte(c) + (Byte(d) + read)) == Byte(b) + (Byte(c) + Byte(d)) + read;
  }

  /** A word whose first byte prints with two digits is read byte by byte. */
  lemma ReadWord(text: Text, rest: string)
    requires ByteAt(text, 0) >= 16
    ensures TextOfHex(Hex(Word(text)) + rest) == Bytes(text, 0) + TextOfHex(rest)
  {
    hide Hex, Word, HexPair, TextOfHex, Byte, Rest;
    var a := ByteAt(text, 0);
    HexOfWord(text);
    HexOfHighByte(a);
    ReadPair(a, Rest(text) + rest);
    assert Hex(Word(text)) + rest == HexPair(a) + (Rest(text) + rest);
    ReadLast(text, rest);
    assert Byte(a) + (Bytes(text, 1) + TextOfHex(rest)) == Bytes(text, 0) + TextOfHex(rest);
  }

  lemma {:induction false} NothingPacked(n: nat, signedChars: bool)
    ensures HexOfWords(Packed([], n, signedChars)) == ""
  {
    hide WordOf, Hex;
    if n > 0 {
      NothingPacked(n - 1, signedChars);
      EmptyWord(signedChars);
      assert Packed([], n, signedChars)[1..] == Packed([], n - 1, signedChars);
    }
  }

  /** Character `k` is kept: it is not zero, prints with two digits at the start of a word, and borrows nowhere else. */
  predicate IsKept(text: Text, k: nat, signedChars: bool)
    requires k < |text|
  {
    if k % 4 == 0 then text[k] as int >= 16 else 0 < CharValue(text[k], signedChars)
  }

  predicate AllKept(text: Text, signedChars: bool) {
    forall k :: 0 <= k < |text| ==> IsKept(text, k, signedChars)
  }

  /** The first word of the text has only characters that are kept. */
  predicate FirstKept(text: Text, signedChars: bool) {
    forall k :: 0 <= k < |text| && k < 4 ==> IsKept(text, k, signedChars)
  }

  function Head(text: Text): Text {
    text[..if |text| < 4 then |text| else 4]
  }

  function Tail(text: Text): Text {
    if |text| <= 4 then [] else text[4..]
  }

  /** The digits of a word, none for zero. */
  function Printed(word: nat): string {
    if word != 0 then Hex(word) else ""
  }

  /**
   * Text comes back from its words exactly when all its characters are kept: zero characters are taken for padding, a
   * word that starts below 16 loses its leading digit, so that everything after it is read out of step, and a negative
   * character that does not start a word takes one away from the character before it.
   */
  lemma {:induction false} TextComesBack(text: Text, n: nat, signedChars: bool)
    requires |text| <= 4 * n
    ensures TextOfHex(HexOfWords(Packed(text, n, signedChars))) == text <==> AllKept(text, signedChars)
    decreases n
  {
    hide *;
    if text == "" {
      NothingComesBack(n, signedChars);
    } else {
      var rest := HexOfWords(Packed(Tail(text), n - 1, signedChars));
      TailIsShorter(text, n);
      FirstWord(text, n, signedChars);
      KeptInParts(text, signedChars);
      HeadAndTail(text);
      if FirstKept(text, signedChars) {
        KeptWord(text, rest, signedChars);
        TextComesBack(Tail(text), n - 1, signedChars);
        SameAfter(Head(text), TextOfHex(rest), Tail(text));
      } else {
        DigitsLead(Packed(Tail(text), n - 1, signedChars));
        LostWord(text, rest, signedChars);
      }
    }
  }

  lemma NothingComesBack(n: nat, signedChars: bool)
    ensures TextOfHex(HexOfWords(Packed("", n, signedChars))) == "" && AllKept("", signedChars)
  {
    NothingPacked(n, signedChars);
  }

  lemma TailIsShorter(text: Text, n: nat)
    requires 0 < |text| <= 4 * n
    ensures n > 0 && |Tail(text)| <= 4 * (n - 1)
  {
  }

  lemma HeadAndTail(text: Text)
    ensures text == Head(text) + Tail(text)
  {
  }

  lemma FirstWord(text: Text, n: nat, signedChars: bool)
    requires 0 < |text| <= 4 * n
    ensures HexOfWords(Packed(text, n, signedChars)) ==
            Printed(WordOf(text, signedChars)) + HexOfWords(Packed(Tail(text), n - 1, signedChars))
  {
    assert Packed(text, n, signedChars)[1..] == Packed(Tail(text), n - 1, signedChars);
  }

  lemma KeptInParts(text: Text, signedChars: bool)
    ensures AllKept(text, signedChars) <==> FirstKept(text, signedChars) && AllKept(Tail(text), signedChars)
  {
    var tail := Tail(text);
    forall k | 4 <= k < |text| ensures IsKept(text, k, signedChars) <==> IsKept(tail, k - 4, signedChars) {
      assert tail[k - 4] == text[k] && (k - 4) % 4 == k % 4;
    }
    assert forall k {:trigger IsKept(tail, k, signedChars)} :: 0 <= k < |tail| ==>
        (IsKept(tail, k, signedChars) <==> IsKept(text, k + 4, signedChars));
  }

  lemma SameAfter(head: string, read: string, tail: string)
    ensures head + read == head + tail <==> read == tail
  {
    if head + read == head + tail {
      assert (head + read)[|head|..] == read && (head + tail)[|head|..] == tail;
    }
  }

  /** What is printed for words starts with a digit that is not zero. */
  ghost predicate NoZeroLeads(hex: string) {
    hex == "" || DigitOf(hex[0]) > 0
  }

  lemma {:induction false} HexLeads(value: nat)
    requires value > 0
    ensures NoZeroLeads(Hex(value))
  {
    if value < 16 {
      DigitOfHexChar(value);
    } else {
      HexLeads(value / 16);
    }
  }

  lemma {:induction false} DigitsLead(words: seq<nat>)
    ensures NoZeroLeads(HexOfWords(words))
  {
    hide Hex;
    if words != [] {
      if words[0] != 0 {
        HexLeads(words[0]);
      } else {
        DigitsLead(words[1..]);
      }
    }
  }

  /** Then the first character that is read is not zero. */
  lemma FirstIsRead(hex: string)
    requires NoZeroLeads(hex) && hex != ""
    ensures TextOfHex(hex) != "" && TextOfHex(hex)[0] as int > 0
    ensures |hex| > 1 ==> TextOfHex(hex)[0] as int == DigitOf(hex[0]) * 16 + DigitOf(hex[1])
  {
    assert |hex| > 1 ==> hex[..2][0] == hex[0] && DigitOf('0') == 0;
  }

  lemma KeptWord(text: Text, rest: string, signedChars: bool)
    requires text != "" && FirstKept(text, signedChars)
    ensures TextOfHex(Printed(WordOf(text, signedChars)) + rest) == Head(text) + TextOfHex(rest)
  {
    KeptAsStored(text, signedChars);
    WordIsStored(text, signedChars);
    ReadWord(Stored(text, signedChars), rest);
    HexOfWord(Stored(text, signedChars));
  }

  lemma KeptAsStored(text: Text, signedChars: bool)
    requires text != "" && FirstKept(text, signedChars)
    ensures Bytes(Stored(text, signedChars), 0) == Head(text) && ByteAt(Stored(text, signedChars), 0) >= 16
  {
    assert IsKept(text, 0, signedChars);
    assert |text| > 1 ==> IsKept(text, 1, signedChars);
    assert |text| > 2 ==> IsKept(text, 2, signedChars);
    assert |text| > 3 ==> IsKept(text, 3, signedChars);
    var stored := Stored(text, signedChars);
    assert forall k: nat {:trigger ByteAt(stored, k)} :: k < 4 ==> ByteAt(stored, k) == ByteAt(text, k);
    assert Bytes(stored, 0) == Byte(ByteAt(text, 0)) + (Byte(ByteAt(text, 1)) + (Byte(ByteAt(text, 2)) +
                                                                                 Byte(ByteAt(text, 3))));
  }

  /** Character `k` is the first of its word that is zero, or is stored as another one. */
  ghost predicate IsFirstLost(text: Text, k: nat, signedChars: bool) {
    && k < 4 && k < |text| && (text[k] as int == 0 || StoredAt(text, k, signedChars) != text[k] as int)
    && forall j: nat :: j < k ==> 0 < StoredAt(text, j, signedChars) == text[j] as int
  }

  /** A character is only taken from if the one after it is zero or negative, and that one is stored as a high byte. */
  lemma BorrowedFrom(text: Text, k: nat, signedChars: bool)
    requires k < 4 && Borrow(text, k + 1, signedChars) == 1
    ensures k < 3 && StoredAt(text, k + 1, signedChars) >= 127
  {
  }

  lemma LostToBorrow(text: Text, k: nat, signedChars: bool)
    requires k < 4 && k < |text| && 0 < text[k] as int != StoredAt(text, k, signedChars)
    ensures Borrow(text, k + 1, signedChars) == 1 && StoredAt(text, k, signedChars) == text[k] as int - 1
  {
  }

  lemma NegativeTakes(text: Text, k: nat, signedChars: bool)
    requires 0 < k < 4 && k < |text| && !IsKept(text, k, signedChars) && text[k] as int > 0
    ensures StoredAt(text, k - 1, signedChars) != text[k - 1] as int
  {
    assert Borrow(text, k, signedChars) == 1;
  }

  lemma HighStartIsKept(text: Text, signedChars: bool)
    requires text != "" && text[0] as int >= 16
    ensures IsKept(text, 0, signedChars)
  {
  }

  /** A word that is not kept has a character that is lost, unless it starts low. */
  lemma SomeIsLost(text: Text, signedChars: bool) returns (k: nat)
    requires text != "" && !FirstKept(text, signedChars) && text[0] as int >= 16
    ensures IsFirstLost(text, k, signedChars)
  {
    hide StoredAt, Borrow, IsKept;
    HighStartIsKept(text, signedChars);
    var j :| 0 < j < |text| && j < 4 && !IsKept(text, j, signedChars);
    if text[j] as int > 0 {
      NegativeTakes(text, j, signedChars);
    }
    k := 0;
    while k < j && 0 < text[k] as int == StoredAt(text, k, signedChars)
      invariant k <= j
      invariant forall i: nat :: i < k ==> 0 < StoredAt(text, i, signedChars) == text[i] as int
    {
      k := k + 1;
    }
  }

  lemma NextByte(stored: Text, k: nat)
    requires k < |stored| == 4 && stored[k] as int > 0
    ensures Bytes(stored, k) == [stored[k]] + Bytes(stored, k + 1)
  {
  }

  lemma {:induction false} BytesDiffer(text: Text, stored: Text, k: nat, lost: nat, read: string)
    requires k <= lost < 4 && lost < |text| && |stored| == 4
    requires forall j: nat :: k <= j < lost ==> 0 < stored[j] as int == text[j] as int
    requires var left := Bytes(stored, lost) + read; left == "" || left[0] != text[lost]
    ensures Bytes(stored, k) + read != text[k..]
    decreases lost - k
  {
    hide Bytes;
    if k < lost {
      BytesDiffer(text, stored, k + 1, lost, read);
      NextByte(stored, k);
      var left := Bytes(stored, k + 1) + read;
      assert Bytes(stored, k) + read == [stored[k]] + left;
      assert ([stored[k]] + left)[1..] == left && text[k..][1..] == text[k + 1..];
    } else {
      assert text[k..][0] == text[k];
    }
  }

  lemma BytesLead(stored: Text, k: nat, read: string)
    requires |stored| == 4 && (read == "" || read[0] as int > 0)
    ensures var left := Bytes(stored, k) + read; left == "" || left[0] as int > 0
    ensures k < 4 && stored[k] as int > 0 ==> (Bytes(stored, k) + read)[0] == stored[k]
    decreases 4 - k
  {
    if k < 4 && stored[k] as int == 0 {
      BytesLead(stored, k + 1, read);
    }
  }

  /** Where the first lost character should be, another one is read. */
  lemma LostByte(text: Text, k: nat, read: string, signedChars: bool)
    requires IsFirstLost(text, k, signedChars) && (read == "" || read[0] as int > 0)
    ensures var left := Bytes(Stored(text, signedChars), k) + read; left == "" || left[0] != text[k]
  {
    var stored := Stored(text, signedChars);
    BytesLead(stored, k, read);
    if text[k] as int > 0 {
      LostToBorrow(text, k, signedChars);
      BorrowedFrom(text, k, signedChars);
      if stored[k] as int == 0 {
        BytesLead(stored, k + 1, read);
        assert Bytes(stored, k) == Bytes(stored, k + 1);
      }
    }
  }

  /** A word whose first character is stored below 16 is read out of step. */
  lemma LowStartIsLost(text: Text, rest: string, signedChars: bool)
    requires text != "" && 0 < text[0] as int && StoredAt(text, 0, signedChars) < 16
    ensures TextOfHex(Printed(WordOf(text, signedChars)) + rest) != text
  {
    var stored := Stored(text, signedChars);
    var a, b := ByteAt(stored, 0), ByteAt(stored, 1);
    if a != text[0] as int {
      LostToBorrow(text, 0, signedChars);
      BorrowedFrom(text, 0, signedChars);
    }
    WordIsStored(text, signedChars);
    hide StoredAt, Borrow, Stored, WordOf;
    if a > 0 {
      HexOfWord(stored);
      assert Hex(a) == [HexChar(a)];
      DigitOfHexChar(a);
      FirstIsRead(Printed(Word(stored)) + rest);
    } else {
      ReadLateStart(stored, rest);
    }
  }

  /** The first digits of a word that starts with a zero byte are those of the second. */
  lemma ReadLateStart(stored: Text, rest: string)
    requires ByteAt(stored, 0) == 0 && ByteAt(stored, 1) >= 16
    ensures var read := TextOfHex(Printed(Word(stored)) + rest); read != "" && read[0] as int == ByteAt(stored, 1)
  {
    hide Hex, HexPair, TextOfHex;
    var b, c, d := ByteAt(stored, 1), ByteAt(stored, 2), ByteAt(stored, 3);
    HexOfHighByte(b);
    HexGrowsByByte(b, c);
    HexGrowsByByte(b * 0x100 + c, d);
    assert Word(stored) == (b * 0x100 + c) * 0x100 + d;
    assert Printed(Word(stored)) + rest == HexPair(b) + (HexPair(c) + (HexPair(d) + rest));
    ReadPair(b, HexPair(c) + (HexPair(d) + rest));
  }

  /** A zero character at the start is not read. */
  lemma ZeroStartIsLost(text: Text, rest: string, signedChars: bool)
    requires text != "" && text[0] as int == 0 && NoZeroLeads(rest)
    ensures TextOfHex(Printed(WordOf(text, signedChars)) + rest) != text
  {
    hide WordOf, Hex, TextOfHex;
    var hex := Printed(WordOf(text, signedChars)) + rest;
    if WordOf(text, signedChars) != 0 {
      HexLeads(WordOf(text, signedChars));
    }
    if hex != "" {
      FirstIsRead(hex);
    } else {
      ConvertsEmpty();
    }
  }

  lemma ConvertsEmpty()
    ensures TextOfHex("") == ""
  {
  }

  /** A word that is not kept makes a difference, whatever comes after it. */
  lemma LostWord(text: Text, rest: string, signedChars: bool)
    requires text != "" && !FirstKept(text, signedChars) && NoZeroLeads(rest)
    ensures TextOfHex(Printed(WordOf(text, signedChars)) + rest) != text
  {
    hide *;
    if text[0] as int == 0 {
      ZeroStartIsLost(text, rest, signedChars);
    } else if StoredAt(text, 0, signedChars) < 16 {
      LowStartIsLost(text, rest, signedChars);
    } else {
      LateLoss(text, rest, signedChars);
    }
  }

  lemma LateLoss(text: Text, rest: string, signedChars: bool)
    requires text != "" && !FirstKept(text, signedChars) && NoZeroLeads(rest)
    requires text[0] as int > 0 && StoredAt(text, 0, signedChars) >= 16
    ensures TextOfHex(Printed(WordOf(text, signedChars)) + rest) != text
  {
    hide FirstKept, WordOf, Word, Hex, TextOfHex, Borrow, StoredAt, Bytes;
    var stored, read := Stored(text, signedChars), TextOfHex(rest);
    WordIsStored(text, signedChars);
    HexOfWord(stored);
    ReadWord(stored, rest);
    if rest == "" {
      ConvertsEmpty();
    } else {
      FirstIsRead(rest);
    }
    var k := 0;
    if text[0] as int == StoredAt(text, 0, signedChars) {
      k := SomeIsLost(text, signedChars);
    }
    LostByte(text, k, read, signedChars);
    BytesDiffer(text, stored, 0, k, read);
  }

  /** A negative character that does not start a word takes one away from the character before it. */
  lemma NegativeCharacterChangesText()
    ensures var text := ['b', 0xE9 as char];
            TextOfHex(HexOfWords(Packed(text, 1, true))) == ['a', 0xE9 as char]
  {
    var text: Text, read: Text := ['b', 0xE9 as char], ['a', 0xE9 as char];
    assert WordOf(text, true) == WordOf(read, false);
    assert Packed(text, 1, true) == [WordOf(text, true)] && Packed(read, 1, false) == [WordOf(read, false)];
    hide Packed, WordOf, Word, TextOfHex, HexOfWords;
    TextComesBack(read, 1, false);
  }

  /** What the next one or two digits are read as. */
  function TextOfPair(pair: string): string
    requires 1 <= |pair| <= 2
  {
    if |pair| == 1 then [DigitOf(pair[0]) as char]
    else if pair == "00" then ""
    else [(DigitOf(pair[0]) * 16 + DigitOf(pair[1])) as char]
  }

  lemma ReadStep(text: string, hex: string, i: nat, next: nat)
    requires i < |hex| && next == if i + 2 <= |hex| then i + 2 else |hex|
    ensures text + TextOfHex(hex[i..]) == text + TextOfPair(hex[i..next]) + TextOfHex(hex[next..])
  {
    if i + 1 < |hex| {
      assert hex[i..][..2] == hex[i..next] && hex[i..][2..] == hex[next..];
    } else {
      assert hex[i..] == hex[i..next] && hex[next..] == "";
    }
  }

  /** What is printed for numbers in hexadecimal is made of the digits that can be read back. */
  predicate AllHex(s: string) {
    forall k :: 0 <= k < |s| ==> '0' <= s[k] <= '9' || 'a' <= s[k] <= 'f' || 'A' <= s[k] <= 'F'
  }

  lemma {:induction false} HexIsHex(value: nat)
    ensures AllHex(Hex(value))
  {
    if value >= 16 {
      HexIsHex(value / 16);
    }
  }

  lemma {:induction false} WordsAreHex(words: seq<nat>)
    ensures AllHex(HexOfWords(words))
  {
    hide Hex;
    if words != [] {
      HexIsHex(words[0]);
      WordsAreHex(words[1..]);
    }
  }

  method ConvertHexStringToString(hex: string) returns (text: string)
    requires AllHex(hex)
    ensures text == TextOfHex(hex)
  {
    text := "";
    var i := 0;
    while i < |hex|
      invariant i <= |hex| && text + TextOfHex(hex[i..]) == TextOfHex(hex)
    {
      hide TextOfHex;
      var next := if i + 2 <= |hex| then i + 2 else |hex|;
      var pair := hex[i..next];
      ReadStep(text, hex, i, next);
      if pair != "00" {
        text := text + [(if |pair| == 1 then DigitOf(pair[0]) else DigitOf(pair[0]) * 16 + DigitOf(pair[1])) as char];
      }
      i := next;
    }
  }

  lemma PrintStep(printed: string, words: seq<nat>, k: nat)
    requires k < |words|
    ensures printed + HexOfWords(words[k..]) ==
            (if words[k] != 0 then printed + Hex(words[k]) else printed) + HexOfWords(words[k + 1..])
  {
    var rest := HexOfWords(words[k + 1..]);
    assert words[k..][1..] == words[k + 1..];
    hide Hex;
    if words[k] != 0 {
      assert printed + (Hex(words[k]) + rest) == printed + Hex(words[k]) + rest;
    }
  }

  method PrintWords(words: seq<nat>) returns (printed: string)
    ensures printed == HexOfWords(words)
  {
    printed := "";
    for k := 0 to |words|
      invariant printed + HexOfWords(words[k..]) == HexOfWords(words)
    {
      PrintStep(printed, words, k);
      if words[k] != 0 {
        printed := printed + Hex(words[k]);
      }
    }
  }

  method ConvertStringValuesToString(words: seq<nat>) returns (text: string)
    ensures text == TextOfHex(HexOfWords(words))
  {
    var printed := PrintWords(words);
    WordsAreHex(words);
    text := ConvertHexStringToString(printed);
  }
}
