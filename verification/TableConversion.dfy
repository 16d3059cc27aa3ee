/** Whole tables: rows of cells to words, and words back to rows, one word at a time. */
module TableConversion {
  import opened Options
  import opened Varchar
  import opened TypesConverter

  /** The words of the first `k` cells; none where the source throws. */
  ghost function EncodeCells(row: seq<Text>, columns: seq<Column>, k: nat, signedChars: bool): Option<seq<nat>>
    requires k <= |row| <= |columns|
  {
    if k == 0 then Some([]) else
    match EncodeCells(row, columns, k - 1, signedChars)
    case None => None
    case Some(front) =>
      match Encode(columns[k - 1], row[k - 1], signedChars)
      case None => None
      case Some(words) => Some(front + words)
  }

  ghost function EncodeRows(rows: seq<seq<Text>>, columns: seq<Column>, k: nat, signedChars: bool): Option<seq<nat>>
    requires k <= |rows| && forall row :: row in rows ==> |row| <= |columns|
  {
    if k == 0 then Some([]) else
    match EncodeRows(rows, columns, k - 1, signedChars)
    case None => None
    case Some(front) =>
      match EncodeCells(rows[k - 1], columns, |rows[k - 1]|, signedChars)
      case None => None
      case Some(words) => Some(front + words)
  }

  ghost function Appended(data: seq<nat>, words: Option<seq<nat>>): Option<seq<nat>> {
    match words case None => None case Some(more) => Some(data + more)
  }

  lemma Associative(data: seq<nat>, front: seq<nat>, words: seq<nat>)
    ensures data + front + words == data + (front + words) && data + [] == data
  {
  }

  /** Appends the words of a row. */
  method ConvertRecordStringToIntegers(row: seq<Text>, columns: seq<Column>, integerData: seq<nat>, signedChars: bool)
    returns (data: Option<seq<nat>>)
    requires |row| <= |columns|
    ensures data == Appended(integerData, EncodeCells(row, columns, |row|, signedChars))
  {
    data := Some(integerData);
    Associative(integerData, [], []);
    var column := 0;
    while column < |row| && data.Some?
      invariant column <= |row| && data == Appended(integerData, EncodeCells(row, columns, column, signedChars))
    {
      var words := ConvertDataToIntegers(columns[column], row[column], signedChars);
      if words.Some? {
        Associative(integerData, EncodeCells(row, columns, column, signedChars).value, words.value);
      }
      data := if words.None? then None else Some(data.value + words.value);
      column := column + 1;
    }
    NoneStays(row, columns, column, signedChars);
  }

  lemma {:induction false} NoneStays(row: seq<Text>, columns: seq<Column>, k: nat, signedChars: bool)
    requires k <= |row| <= |columns|
    ensures EncodeCells(row, columns, k, signedChars).None? ==> EncodeCells(row, columns, |row|, signedChars).None?
    decreases |row| - k
  {
    if k < |row| {
      NoneStays(row, columns, k + 1, signedChars);
    }
  }

  /** Appends the words of all rows. */
  method AddIntegerDataFromStringData(rows: seq<seq<Text>>, columns: seq<Column>, integerData: seq<nat>,
                                      signedChars: bool)
    returns (data: Option<seq<nat>>)
    requires forall row :: row in rows ==> |row| <= |columns|
    ensures data == Appended(integerData, EncodeRows(rows, columns, |rows|, signedChars))
  {
    data := Some(integerData);
    Associative(integerData, [], []);
    var k := 0;
    while k < |rows| && data.Some?
      invariant k <= |rows| && data == Appended(integerData, EncodeRows(rows, columns, k, signedChars))
    {
      ghost var words := EncodeCells(rows[k], columns, |rows[k]|, signedChars);
      if words.Some? {
        Associative(integerData, EncodeRows(rows, columns, k, signedChars).value, words.value);
      }
      data := ConvertRecordStringToIntegers(rows[k], columns, data.value, signedChars);
      k := k + 1;
    }
    NoRowsStay(rows, columns, k, signedChars);
  }

  lemma {:induction false} NoRowsStay(rows: seq<seq<Text>>, columns: seq<Column>, k: nat, signedChars: bool)
    requires k <= |rows| && forall row :: row in rows ==> |row| <= |columns|
    ensures EncodeRows(rows, columns, k, signedChars).None? ==> EncodeRows(rows, columns, |rows|, signedChars).None?
    decreases |rows| - k
  {
    if k < |rows| {
      NoRowsStay(rows, columns, k + 1, signedChars);
    }
  }

  /** How many words the first `k` columns take. */
  ghost function Width(columns: seq<Column>, k: nat): nat
    requires k <= |columns|
  {
    if k == 0 then 0 else Width(columns, k - 1) + columns[k - 1].size
  }

  ghost predicate HasWidths(columns: seq<Column>) {
    columns != [] && forall k :: 0 <= k < |columns| ==> columns[k].size >= 1
  }

  lemma {:induction false} WidthIsPositive(columns: seq<Column>, k: nat)
    requires HasWidths(columns) && 0 < k <= |columns|
    ensures Width(columns, k) > 0
  {
  }

  /** The cells of the first `k` columns. */
  ghost function DecodeCells(words: seq<nat>, columns: seq<Column>, k: nat): seq<string>
    requires HasWidths(columns) && k <= |columns| && |words| == Width(columns, k)
  {
    if k == 0 then [] else
    var split := Width(columns, k - 1);
    DecodeCells(words[..split], columns, k - 1) + [Decode(columns[k - 1].dataType, words[split..])]
  }

  /** The rows of whole records; words beyond the last whole record give no row. */
  ghost function SplitRows(words: seq<nat>, columns: seq<Column>): seq<seq<string>>
    requires HasWidths(columns)
  {
    WidthIsPositive(columns, |columns|);
    var width := Width(columns, |columns|);
    if |words| < width then []
    else [DecodeCells(words[..width], columns, |columns|)] + SplitRows(words[width..], columns)
  }

  /** The words are whole records. */
  ghost predicate WholeRecords(words: seq<nat>, columns: seq<Column>)
    requires HasWidths(columns)
  {
    WidthIsPositive(columns, |columns|);
    var width := Width(columns, |columns|);
    words == [] || (|words| >= width && WholeRecords(words[width..], columns))
  }

  lemma {:induction false} OneMoreRecord(words: seq<nat>, more: seq<nat>, columns: seq<Column>)
    requires HasWidths(columns) && WholeRecords(words, columns) && |more| == Width(columns, |columns|)
    ensures WholeRecords(words + more, columns)
    ensures SplitRows(words + more, columns) == SplitRows(words, columns) + [DecodeCells(more, columns, |columns|)]
    decreases |words|
  {
    WidthIsPositive(columns, |columns|);
    var width := Width(columns, |columns|);
    if words == [] {
      assert words + more == more && more[..width] == more && more[width..] == [];
      assert SplitRows([], columns) == [];
    } else {
      OneMoreRecord(words[width..], more, columns);
      assert (words + more)[width..] == words[width..] + more && (words + more)[..width] == words[..width];
    }
  }

  lemma {:induction false} RestGivesNoRow(words: seq<nat>, rest: seq<nat>, columns: seq<Column>)
    requires HasWidths(columns) && WholeRecords(words, columns) && |rest| < Width(columns, |columns|)
    ensures SplitRows(words + rest, columns) == SplitRows(words, columns)
    decreases |words|
  {
    WidthIsPositive(columns, |columns|);
    var width := Width(columns, |columns|);
    if words == [] {
      assert words + rest == rest;
      assert SplitRows([], columns) == [];
    } else {
      RestGivesNoRow(words[width..], rest, columns);
      assert (words + rest)[width..] == words[width..] + rest && (words + rest)[..width] == words[..width];
    }
  }

  /** What is held between two words: the words of the current cell, the cells of the current row, its column. */
  datatype Decoder = Decoder(element: seq<nat>, row: seq<string>, column: nat)

  /** What the words so far are made of: whole records, the cells of the current row, and the current cell. */
  datatype Consumed = Consumed(records: seq<nat>, cells: seq<nat>)

  ghost predicate Streamed(words: seq<nat>, columns: seq<Column>, decoder: Decoder, consumed: Consumed)
    requires HasWidths(columns)
  {
    && words == consumed.records + consumed.cells + decoder.element
    && WholeRecords(consumed.records, columns)
    && decoder.column < |columns| && |consumed.cells| == Width(columns, decoder.column)
    && decoder.row == DecodeCells(consumed.cells, columns, decoder.column)
    && |decoder.element| < columns[decoder.column].size
  }

  lemma ElementGrows(words: seq<nat>, columns: seq<Column>, decoder: Decoder, consumed: Consumed, word: nat)
    requires HasWidths(columns) && Streamed(words, columns, decoder, consumed)
    requires |decoder.element| + 1 < columns[decoder.column].size
    ensures Streamed(words + [word], columns, decoder.(element := decoder.element + [word]), consumed)
  {
  }

  lemma CellCompletes(words: seq<nat>, columns: seq<Column>, decoder: Decoder, consumed: Consumed, word: nat)
    requires HasWidths(columns) && Streamed(words, columns, decoder, consumed)
    requires |decoder.element| + 1 == columns[decoder.column].size
    ensures var element := decoder.element + [word];
            var cells := consumed.cells + element;
            && words + [word] == consumed.records + cells
            && |cells| == Width(columns, decoder.column + 1)
            && DecodeCells(cells, columns,
                           decoder.column + 1) == decoder.row + [Decode(columns[decoder.column].dataType, element)]
  {
  }

  /** The decoder has appended the rows of all whole records so far. */
  ghost predicate Decoding(words: seq<nat>, columns: seq<Column>, decoder: Decoder, consumed: Consumed,
                           before: seq<seq<string>>, rows: seq<seq<string>>)
    requires HasWidths(columns)
  {
    Streamed(words, columns, decoder, consumed) && rows == before + SplitRows(consumed.records, columns)
  }

  lemma RowCompletes(words: seq<nat>, columns: seq<Column>, decoder: Decoder, consumed: Consumed,
                     before: seq<seq<string>>, rows: seq<seq<string>>, word: nat)
    requires HasWidths(columns) && Decoding(words, columns, decoder, consumed, before, rows)
    requires |decoder.element| + 1 == columns[decoder.column].size && decoder.column + 1 == |columns|
    ensures var element := decoder.element + [word];
            var row := decoder.row + [Decode(columns[decoder.column].dataType, element)];
            Decoding(words + [word], columns, Decoder([], [], 0),
                     Consumed(consumed.records + (consumed.cells + element), []),
                     before, rows + [row])
  {
    var element := decoder.element + [word];
    CellCompletes(words, columns, decoder, consumed, word);
    OneMoreRecord(consumed.records, consumed.cells + element, columns);
  }

  /** Some column from the current one on takes no words: its cell never completes. */
  ghost predicate Starved(columns: seq<Column>, decoder: Decoder) {
    exists k :: decoder.column <= k < |columns| && columns[k].size == 0
  }

  lemma StaysStarved(columns: seq<Column>, decoder: Decoder, next: nat)
    requires Starved(columns, decoder) && decoder.column < |columns| && columns[decoder.column].size > 0
    requires next == decoder.column + 1
    ensures next < |columns| && forall later: Decoder :: later.column == next ==> Starved(columns, later)
  {
  }

  /** What the decoder has done: all rows of whole records so far, or none where it cannot get to the end of a row. */
  ghost predicate InProgress(words: seq<nat>, columns: seq<Column>, decoder: Decoder, consumed: Consumed,
                             before: seq<seq<string>>, rows: seq<seq<string>>) {
    && decoder.column < |columns|
    && if HasWidths(columns) then Decoding(words, columns, decoder, consumed, before, rows)
       else Starved(columns, decoder) && rows == before
  }

  /** Takes one word in; a complete cell goes to the row, a complete row to the result. */
  method TakeWord(word: nat, columns: seq<Column>, decoder: Decoder, rows: seq<seq<string>>, ghost words: seq<nat>,
                  ghost consumed: Consumed, ghost before: seq<seq<string>>)
    returns (decoder': Decoder, rows': seq<seq<string>>, ghost consumed': Consumed)
    requires InProgress(words, columns, decoder, consumed, before, rows)
    ensures InProgress(words + [word], columns, decoder', consumed', before, rows')
  {
    decoder', rows', consumed' := decoder, rows, consumed;
    var element := decoder.element + [word];
    if |element| == columns[decoder.column].size {
      var cell := ConvertDataToString(columns[decoder.column].dataType, element);
      var row := decoder.row + [cell];
      if HasWidths(columns) {
        CellCompletes(words, columns, decoder, consumed, word);
      } else {
        StaysStarved(columns, decoder, decoder.column + 1);
      }
      if decoder.column + 1 == |columns| {
        RowCompletes(words, columns, decoder, consumed, before, rows, word);
        rows', decoder' := rows + [row], Decoder([], [], 0);
        consumed' := Consumed(consumed.records + (consumed.cells + element), []);
      } else {
        decoder' := Decoder([], row, decoder.column + 1);
        consumed' := Consumed(consumed.records, consumed.cells + element);
      }
    } else {
      if HasWidths(columns) {
        ElementGrows(words, columns, decoder, consumed, word);
      }
      decoder' := decoder.(element := element);
    }
  }

  lemma {:induction false} WidthGrows(columns: seq<Column>, k: nat, l: nat)
    requires k <= l <= |columns|
    ensures Width(columns, k) <= Width(columns, l)
  {
    if k < l {
      WidthGrows(columns, k, l - 1);
    }
  }

  lemma AllIsDecoded(words: seq<nat>, columns: seq<Column>, decoder: Decoder, consumed: Consumed,
                     before: seq<seq<string>>, rows: seq<seq<string>>)
    requires HasWidths(columns) && Decoding(words, columns, decoder, consumed, before, rows)
    ensures rows == before + SplitRows(words, columns)
  {
    WidthGrows(columns, decoder.column + 1, |columns|);
    RestGivesNoRow(consumed.records, consumed.cells + decoder.element, columns);
    assert consumed.records + consumed.cells + decoder.element == consumed.records + (consumed.cells + decoder.element);
  }

  /**
   * Decoding one word at a time gives the rows of splitting the words by the widths of the columns. A column without
   * width is never got past, so that there are no rows then.
   */
  method AddStringDataFromIntegerData(words: seq<nat>, columns: seq<Column>, resulting: seq<seq<string>>)
    returns (rows: seq<seq<string>>)
    requires words != [] ==> columns != []
    ensures rows == resulting + if HasWidths(columns) then SplitRows(words, columns) else []
  {
    var decoder := Decoder([], [], 0);
    ghost var consumed := Consumed([], []);
    rows := resulting;
    NothingTaken(columns, resulting);
    for k := 0 to |words|
      invariant columns != [] ==> InProgress(words[..k], columns, decoder, consumed, resulting, rows)
      invariant columns == [] ==> rows == resulting
    {
      assert words[..k + 1] == words[..k] + [words[k]];
      decoder, rows, consumed := TakeWord(words[k], columns, decoder, rows, words[..k], consumed, resulting);
    }
    assert words[..|words|] == words;
    if HasWidths(columns) {
      AllIsDecoded(words, columns, decoder, consumed, resulting, rows);
    }
  }

  lemma NoWordsNoRows(columns: seq<Column>)
    ensures HasWidths(columns) ==> SplitRows([], columns) == []
  {
    if HasWidths(columns) {
      WidthIsPositive(columns, |columns|);
    }
  }

  lemma NothingTaken(columns: seq<Column>, before: seq<seq<string>>)
    ensures columns != [] ==> InProgress([], columns, Decoder([], [], 0), Consumed([], []), before, before)
  {
    NoWordsNoRows(columns);
    assert before + [] == before;
  }

  /** Every cell of the row can be represented in its column. */
  ghost predicate RowRepresentable(row: seq<Text>, columns: seq<Column>, signedChars: bool) {
    |row| == |columns| && forall k :: 0 <= k < |row| ==> Representable(columns[k], row[k], signedChars)
  }

  ghost function PlainRow(row: seq<Text>, columns: seq<Column>): seq<string>
    requires |row| == |columns|
  {
    seq(|row|, k requires 0 <= k < |row| => Plain(columns[k], row[k]))
  }

  lemma OneMoreCell(front: seq<nat>, last: seq<nat>, columns: seq<Column>, k: nat)
    requires HasWidths(columns) && 0 < k <= |columns| && |front| == Width(columns, k - 1)
         && |last| == columns[k - 1].size
    ensures |front + last| == Width(columns, k)
    ensures DecodeCells(front + last, columns, k) ==
            DecodeCells(front, columns, k - 1) + [Decode(columns[k - 1].dataType, last)]
  {
    hide Decode;
    assert (front + last)[..|front|] == front && (front + last)[|front|..] == last;
  }

  lemma {:induction false} CellsComeBack(row: seq<Text>, columns: seq<Column>, k: nat, signedChars: bool)
    requires HasWidths(columns) && RowRepresentable(row, columns, signedChars) && k <= |row|
    ensures var words := EncodeCells(row, columns, k, signedChars);
            words.Some? && |words.value| == Width(columns, k)
                 && DecodeCells(words.value, columns, k) == PlainRow(row, columns)[..k]
  {
    hide Encode, Decode, Representable, Plain;
    if k > 0 {
      CellsComeBack(row, columns, k - 1, signedChars);
      CellComesBack(columns[k - 1], row[k - 1], signedChars);
      OneMoreCell(EncodeCells(row, columns, k - 1, signedChars).value,
                  Encode(columns[k - 1], row[k - 1], signedChars).value, columns, k);
      var plain := PlainRow(row, columns);
      assert plain[..k] == plain[..k - 1] + [plain[k - 1]];
    }
  }

  ghost function PlainRows(rows: seq<seq<Text>>, columns: seq<Column>): seq<seq<string>>
    requires forall row :: row in rows ==> |row| == |columns|
  {
    seq(|rows|, k requires 0 <= k < |rows| => PlainRow(rows[k], columns))
  }

  lemma RowComesBack(row: seq<Text>, columns: seq<Column>, signedChars: bool)
    requires HasWidths(columns) && RowRepresentable(row, columns, signedChars)
    ensures var words := EncodeCells(row, columns, |row|, signedChars);
            words.Some? && |words.value| == Width(columns, |columns|)
            && DecodeCells(words.value, columns, |columns|) == PlainRow(row, columns)
  {
    CellsComeBack(row, columns, |row|, signedChars);
    assert PlainRow(row, columns)[..|row|] == PlainRow(row, columns);
  }

  lemma NoRecords(columns: seq<Column>)
    requires HasWidths(columns)
    ensures WholeRecords([], columns) && SplitRows([], columns) == []
  {
  }

  /** The round trip: decoding the words of a table gives its rows again, without the quotes around text. */
  lemma {:induction false} TableComesBack(rows: seq<seq<Text>>, columns: seq<Column>, k: nat, signedChars: bool)
    requires HasWidths(columns) && k <= |rows|
    requires forall row :: row in rows ==> |row| == |columns| && RowRepresentable(row, columns, signedChars)
    ensures var words := EncodeRows(rows, columns, k, signedChars);
            words.Some? && WholeRecords(words.value, columns)
                 && SplitRows(words.value, columns) == PlainRows(rows, columns)[..k]
  {
    hide RowRepresentable, DecodeCells, EncodeCells, PlainRow, SplitRows, WholeRecords, Width, HasWidths;
    if k == 0 {
      NoRecords(columns);
    } else {
      TableComesBack(rows, columns, k - 1, signedChars);
      var row := rows[k - 1];
      assert row in rows;
      RowComesBack(row, columns, signedChars);
      OneMoreRecord(EncodeRows(rows, columns, k - 1, signedChars).value,
                    EncodeCells(row, columns, |row|, signedChars).value, columns);
      assert PlainRows(rows, columns)[..k] == PlainRows(rows, columns)[..k - 1] + [PlainRow(row, columns)];
    }
  }

  /** What comes back for a cell: text without the quotes it was in, anything else as it was. */
  lemma CellOfTable(rows: seq<seq<Text>>, columns: seq<Column>, r: nat, c: nat, text: Text)
    requires forall row :: row in rows ==> |row| == |columns|
    requires r < |rows| && c < |columns|
    ensures columns[c].dataType == VarcharColumn && rows[r][c] == "\"" + text + "\"" ==>
              PlainRows(rows, columns)[r][c] == text
    ensures columns[c].dataType != VarcharColumn || rows[r][c] == "" || rows[r][c][0] != '"'
            || rows[r][c][|rows[r][c]| - 1] != '"' ==>
              PlainRows(rows, columns)[r][c] == rows[r][c]
  {
    hide Unquoted;
    QuotesAreRemoved(text);
    BareStays(rows[r][c]);
  }

  lemma BareStays(cell: Text)
    ensures cell == "" || cell[0] != '"' || cell[|cell| - 1] != '"' ==> Unquoted(cell) == cell
  {
  }

  /** The words of cell `c` follow those of the cells before it. */
  lemma {:induction false} CellWordsAt(row: seq<Text>, columns: seq<Column>, k: nat, c: nat, signedChars: bool)
    requires HasWidths(columns) && RowRepresentable(row, columns, signedChars) && c < k <= |row|
    ensures var words := EncodeCells(row, columns, k, signedChars);
            words.Some? && Width(columns, c) + columns[c].size <= |words.value|
            && Encode(columns[c], row[c], signedChars) ==
               Some(words.value[Width(columns, c)..Width(columns, c) + columns[c].size])
  {
    hide Encode, Decode, Representable, DecodeCells, PlainRow;
    CellsComeBack(row, columns, k, signedChars);
    CellsComeBack(row, columns, k - 1, signedChars);
    CellComesBack(columns[k - 1], row[k - 1], signedChars);
    var front := EncodeCells(row, columns, k - 1, signedChars).value;
    var last := Encode(columns[k - 1], row[k - 1], signedChars).value;
    if c == k - 1 {
      assert (front + last)[|front|..|front| + |last|] == last;
    } else {
      CellWordsAt(row, columns, k - 1, c, signedChars);
      SliceOfFront(front, last, Width(columns, c), Width(columns, c) + columns[c].size);
    }
  }

  lemma SliceOfFront<T>(front: seq<T>, last: seq<T>, i: nat, j: nat)
    requires i <= j <= |front|
    ensures (front + last)[i..j] == front[i..j]
  {
  }

  lemma {:induction false} RowFits(r: nat, k: nat, width: nat)
    requires r < k
    ensures 0 <= r * width && r * width + width <= k * width && k * width == (k - 1) * width + width
    ensures r < k - 1 ==> r * width + width <= (k - 1) * width
  {
    assert k * width == (k - 1) * width + width;
    if r < k - 1 {
      RowFits(r, k - 1, width);
    }
  }

  /** The words of row `r` follow those of the rows before it, each as wide as all columns. */
  lemma {:induction false} RowWordsAt(rows: seq<seq<Text>>, columns: seq<Column>, k: nat, r: nat, start: nat,
                                      signedChars: bool)
    requires HasWidths(columns) && r < k <= |rows| && start == r * Width(columns, |columns|)
    requires forall row :: row in rows ==> |row| == |columns| && RowRepresentable(row, columns, signedChars)
    ensures var words, width := EncodeRows(rows, columns, k, signedChars), Width(columns, |columns|);
            words.Some? && start + width <= |words.value|
            && EncodeCells(rows[r], columns, |columns|, signedChars) == Some(words.value[start..start + width])
  {
    hide RowRepresentable, DecodeCells, EncodeCells, PlainRow, SplitRows, WholeRecords, Width, HasWidths;
    var width := Width(columns, |columns|);
    RowsHaveWidth(rows, columns, k, signedChars);
    RowsHaveWidth(rows, columns, k - 1, signedChars);
    assert rows[k - 1] in rows;
    RowComesBack(rows[k - 1], columns, signedChars);
    var front := EncodeRows(rows, columns, k - 1, signedChars).value;
    var last := EncodeCells(rows[k - 1], columns, |columns|, signedChars).value;
    RowFits(r, k, width);
    if r == k - 1 {
      assert (front + last)[|front|..|front| + |last|] == last;
    } else {
      RowWordsAt(rows, columns, k - 1, r, start, signedChars);
      SliceOfFront(front, last, start, start + width);
    }
  }

  lemma {:induction false} RowsHaveWidth(rows: seq<seq<Text>>, columns: seq<Column>, k: nat, signedChars: bool)
    requires HasWidths(columns) && k <= |rows|
    requires forall row :: row in rows ==> |row| == |columns| && RowRepresentable(row, columns, signedChars)
    ensures var words := EncodeRows(rows, columns, k, signedChars);
            words.Some? && |words.value| == k * Width(columns, |columns|)
  {
    hide RowRepresentable, DecodeCells, EncodeCells, PlainRow, SplitRows, WholeRecords, Width, HasWidths;
    if k > 0 {
      RowsHaveWidth(rows, columns, k - 1, signedChars);
      assert rows[k - 1] in rows;
      RowComesBack(rows[k - 1], columns, signedChars);
      assert k * Width(columns, |columns|) == (k - 1) * Width(columns, |columns|) + Width(columns, |columns|);
    }
  }
}
