/** Tables as text and as 32-bit words. */
module TypesConverter {
  import opened Options
  import opened Decimals
  import opened Varchar

  datatype ColumnDataType = IntegerColumn | VarcharColumn | NullColumn | DateColumn

  /** A column: its type, and how many words its cells take. */
  datatype Column = Column(dataType: ColumnDataType, size: nat)

  function ToWord(value: int): (word: nat)
  {
    value % 0x1_0000_0000
  }

  function WithoutDashes(s: string): string {
    if s == "" then "" else (if s[0] == '-' then "" else [s[0]]) + WithoutDashes(s[1..])
  }

  function WordOfNumeral(parsed: Parsed): Option<seq<nat>> {
    match parsed case NotANumber => None case Number(value) => Some([ToWord(value)])
  }

  /** The words of a cell; none where the source throws. */
  ghost function Encode(column: Column, cell: Text, signedChars: bool): (words: Option<seq<nat>>) {
    match column.dataType
    case IntegerColumn => WordOfNumeral(Stoi(cell))
    case DateColumn => WordOfNumeral(Stoi(WithoutDashes(cell)))
    case NullColumn => Some(seq(column.size, _ => 0))
    case VarcharColumn =>
      if cell == "" || cell == "\"" || |Unquoted(cell)| > 4 * column.size then None
           else Some(Packed(Unquoted(cell), column.size, signedChars))
  }

  method ConvertDataToIntegers(column: Column, cell: Text, signedChars: bool) returns (words: Option<seq<nat>>)
    ensures words == Encode(column, cell, signedChars)
    ensures column.dataType == NullColumn ==> words == Some(seq(column.size, _ => 0))
  {
    match column.dataType
    case IntegerColumn => words := WordOfNumeral(Stoi(cell));
    case DateColumn => words := WordOfNumeral(Stoi(WithoutDashes(cell)));
    case NullColumn =>
      var zeros: seq<nat> := [];
      for i := 0 to column.size
        invariant zeros == seq(i, _ => 0)
      {
        zeros := zeros + [0];
      }
      words := Some(zeros);
    case VarcharColumn => words := ConvertCharStringToAscii(cell, column.size, signedChars);
  }

  /** Eight digits at least, with dashes after the fourth and the sixth. */
  function DateOf(word: nat): string {
    var digits := Padded(ToString(word), 8);
    digits[..4] + "-" + digits[4..6] + "-" + digits[6..]
  }

  /** The text of a cell. */
  ghost function Decode(dataType: ColumnDataType, words: seq<nat>): string
    requires words != []
  {
    match dataType
    case IntegerColumn => ToString(words[0])
    case DateColumn => DateOf(words[0])
    case NullColumn => ""
    case VarcharColumn => TextOfHex(HexOfWords(words))
  }

  method ConvertDataToString(dataType: ColumnDataType, words: seq<nat>) returns (cell: string)
    requires words != []
    ensures cell == Decode(dataType, words)
  {
    match dataType
    case IntegerColumn => cell := ToString(words[0]);
    case DateColumn => cell := DateOf(words[0]);
    case NullColumn => cell := "";
    case VarcharColumn => cell := ConvertStringValuesToString(words);
  }

  ghost predicate IsDate(cell: string) {
    && |cell| == 10 && cell[4] == '-' && cell[7] == '-'
    && forall k :: 0 <= k < 10 && k != 4 && k != 7 ==> IsDigit(cell[k])
  }

  /** A non-negative number in range, as it is printed. */
  ghost predicate IsNumeral(cell: string) {
    exists n: nat :: n <= INT_MAX && cell == ToString(n)
  }

  /** Such a number with at least eight digits, and dashes between year, month and day. */
  ghost predicate IsDateNumeral(cell: string) {
    exists n: nat :: n <= INT_MAX && cell == DateOf(n)
  }

  /** The cells of a column that come back as they are, or without their quotes: see CellComesBack. */
  ghost predicate Representable(column: Column, cell: Text, signedChars: bool) {
    match column.dataType
    case IntegerColumn => column.size == 1 && IsNumeral(cell)
    case DateColumn => column.size == 1 && IsDateNumeral(cell)
    case NullColumn => column.size >= 1 && cell == ""
    case VarcharColumn =>
      && column.size >= 1 && cell != "" && cell != "\"" && |Unquoted(cell)| <= 4 * column.size
      && AllKept(Unquoted(cell), signedChars)
  }

  function Plain(column: Column, cell: Text): Text {
    if column.dataType == VarcharColumn then Unquoted(cell) else cell
  }

  lemma FirstStays(s: string)
    requires s != ""
    ensures WithoutDashes(s) == (if s[0] == '-' then "" else [s[0]]) + WithoutDashes(s[1..])
  {
  }

  lemma {:induction false} DashesGo(a: string, b: string)
    ensures WithoutDashes(a + b) == WithoutDashes(a) + WithoutDashes(b)
  {
    if a == "" {
      assert a + b == b;
    } else {
      hide WithoutDashes;
      FirstStays(a);
      FirstStays(a + b);
      DashesGo(a[1..], b);
      assert (a + b)[1..] == a[1..] + b;
    }
  }

  lemma {:induction false} DigitsStay(a: string)
    requires AllDigits(a)
    ensures WithoutDashes(a) == a
  {
    if a != "" {
      DigitsStay(a[1..]);
    }
  }

  /** Without its dashes a date is the number it was printed from, and read as that unless it is out of range. */
  lemma DateIsRead(n: nat)
    ensures Stoi(WithoutDashes(DateOf(n))) == if n <= INT_MAX then Number(n) else NotANumber
  {
    hide ToString, Stoi, Value, WithoutDashes;
    var digits := Padded(ToString(n), 8);
    ValueOfNumeral(n);
    PaddingKeepsValue(ToString(n), 8);
    DashesLeave(digits);
    StoiOfNumeral(digits);
  }

  lemma DashesLeave(digits: string)
    requires AllDigits(digits) && |digits| >= 8
    ensures WithoutDashes(digits[..4] + "-" + digits[4..6] + "-" + digits[6..]) == digits
  {
    var year, month, day := digits[..4], digits[4..6], digits[6..];
    assert WithoutDashes("-") == "";
    hide WithoutDashes;
    DashesGo(year + "-" + month + "-", day);
    DashesGo(year + "-" + month, "-");
    DashesGo(year + "-", month);
    DashesGo(year, "-");
    DigitsStay(year);
    DigitsStay(month);
    DigitsStay(day);
  }

  /** A cell comes back from a date column exactly if it is what is printed for some number that std::stoi can read. */
  lemma DateComesBackIff(cell: string)
    ensures Stoi(WithoutDashes(cell)).Number? && DateOf(ToWord(Stoi(WithoutDashes(cell)).value)) == cell <==>
            IsDateNumeral(cell)
  {
    hide Stoi, WithoutDashes, DateOf;
    var read := Stoi(WithoutDashes(cell));
    if read.Number? && DateOf(ToWord(read.value)) == cell {
      DateIsRead(ToWord(read.value));
    }
    if n: nat :| n <= INT_MAX && cell == DateOf(n) {
      DateIsRead(n);
    }
  }

  /** Every date with eight digits is printed for the number of its digits, and read as that. */
  lemma DateComesBack(cell: string)
    requires IsDate(cell)
    ensures IsDateNumeral(cell)
    ensures AllDigits(cell[..4] + cell[5..7] + cell[8..])
    ensures Stoi(WithoutDashes(cell)) == Number(Value(cell[..4] + cell[5..7] + cell[8..]))
    ensures Stoi(WithoutDashes(cell)).Number? && DateOf(ToWord(Stoi(WithoutDashes(cell)).value)) == cell
  {
    var digits := cell[..4] + cell[5..7] + cell[8..];
    EightDigits(digits);
    PaddedNumeral(digits);
    DateComesBackIff(cell);
    hide Value, ToString, Padded, Stoi, WithoutDashes;
    assert DateOf(Value(digits)) == cell;
    DateIsRead(Value(digits));
  }

  lemma {:induction false} ValueFits(digits: string)
    requires AllDigits(digits) && |digits| <= 8
    ensures Value(digits) < [1, 10, 100, 1000, 1_0000, 10_0000, 100_0000, 1000_0000, 1_0000_0000][|digits|]
  {
    if digits != "" {
      ValueFits(digits[..|digits| - 1]);
    }
  }

  lemma EightDigits(digits: string)
    requires AllDigits(digits) && |digits| == 8
    ensures Value(digits) <= INT_MAX
  {
    ValueFits(digits);
  }

  /** A cell comes back from an integer column exactly if it is the numeral of a non-negative number in range. */
  lemma IntegerComesBackIff(cell: string)
    ensures Stoi(cell).Number? && ToString(ToWord(Stoi(cell).value)) == cell <==> IsNumeral(cell)
  {
    hide ToString, Stoi, Value;
    if Stoi(cell).Number? && ToString(ToWord(Stoi(cell).value)) == cell {
      ValueOfNumeral(ToWord(Stoi(cell).value));
      StoiOfNumeral(cell);
    }
    if n: nat :| n <= INT_MAX && cell == ToString(n) {
      ValueOfNumeral(n);
      StoiOfNumeral(cell);
    }
  }

  /** A cell takes the words of its column and comes back from them if and only if it is representable. */
  lemma CellComesBack(column: Column, cell: Text, signedChars: bool)
    ensures var words := Encode(column, cell, signedChars);
            words.Some? && |words.value| == column.size > 0
                 && Decode(column.dataType, words.value) == Plain(column, cell) <==>
            Representable(column, cell, signedChars)
  {
    hide ToString, Stoi, Packed, HexOfWords, TextOfHex, Unquoted, DateOf, WithoutDashes, AllKept;
    hide IsNumeral, IsDateNumeral;
    match column.dataType
    case IntegerColumn => IntegerComesBackIff(cell);
    case DateColumn => DateComesBackIff(cell);
    case NullColumn =>
    case VarcharColumn =>
      if |Unquoted(cell)| <= 4 * column.size {
        TextComesBack(Unquoted(cell), column.size, signedChars);
      }
  }

  /** Text in quotes is converted as the text alone, and comes back as that under the same condition. */
  lemma QuotedCellComesBack(text: Text, size: nat, signedChars: bool)
    requires size > 0
    ensures var cell: Text := "\"" + text + "\"";
            Encode(Column(VarcharColumn, size), cell, signedChars) ==
            if |text| > 4 * size then None else Some(Packed(text, size, signedChars))
    ensures |text| <= 4 * size ==>
              (Decode(VarcharColumn, Packed(text, size, signedChars)) == text <==> AllKept(text, signedChars))
  {
    hide Packed, HexOfWords, TextOfHex, AllKept, Unquoted;
    QuotesAreRemoved(text);
    if |text| <= 4 * size {
      TextComesBack(text, size, signedChars);
    }
  }

  /** Text that is not in quotes is converted as it is. */
  lemma BareCellComesBack(cell: Text, size: nat, signedChars: bool)
    requires size > 0 && (cell != "" ==> cell[0] != '"' || cell[|cell| - 1] != '"')
    ensures Encode(Column(VarcharColumn, size), cell, signedChars) ==
            if cell == "" || |cell| > 4 * size then None else Some(Packed(cell, size, signedChars))
    ensures |cell| <= 4 * size ==>
              (Decode(VarcharColumn, Packed(cell, size, signedChars)) == cell <==> AllKept(cell, signedChars))
  {
    hide Packed, HexOfWords, TextOfHex, AllKept;
    if |cell| <= 4 * size {
      TextComesBack(cell, size, signedChars);
    }
  }

  /** A negative number is stored as its two's complement, which is printed as a positive number. */
  lemma NegativeIntegerWraps(n: nat, signedChars: bool)
    requires 0 < n <= 0x8000_0000
    ensures var cell: Text := "-" + ToString(n);
            Encode(Column(IntegerColumn, 1), cell, signedChars) == Some([0x1_0000_0000 - n])
            && Decode(IntegerColumn, [0x1_0000_0000 - n]) == ToString(0x1_0000_0000 - n)
  {
    hide ToString, Stoi, Value;
    ValueOfNumeral(n);
    StoiReads("", "-", ToString(n), "");
    assert "" + "-" + ToString(n) + "" == "-" + ToString(n);
  }
}
