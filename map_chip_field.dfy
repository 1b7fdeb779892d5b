/** MapChipField.cpp / MapChipField.h: the 20 x 100 tile grid, its CSV loader, the
    bounds-checked cell lookup and the two conversions between tile indices and world
    positions. Opening the file is not modelled: the loader reads the file's contents. */
module MapChipField {
  import opened Numeric
  import opened VectorMath

  /** enum class MapChipType. */
  datatype MapChipType = Blank | Block

  /** MapChipField::IndexSet: a tile's column and row. */
  datatype IndexSet = IndexSet(xIndex: uint32, yIndex: uint32)

  const BlockWidth: real := 2.0
  const BlockHeight: real := 2.0
  const NumBlockVertical: nat := 20
  const NumBlockHorizontal: nat := 100

  /** The anonymous mapChipTable: the only two words the loader understands. */
  const MapChipTable: map<string, MapChipType> := map["0" := Blank, "1" := Block]

  // ---- Reading the CSV: std::getline over a string stream ----

  /** What one std::getline(stream, out, d) call leaves behind. */
  datatype Extracted = Extracted(piece: string, rest: string)

  /** One std::getline(stream, out, d) on the unread text s: the characters up to the
      first d (which is consumed and not stored), or all of s when there is none.
      A call on an exhausted stream fails and leaves out empty, which this also yields. */
  function GetLine(s: string, d: char): (r: Extracted)
    ensures d !in r.piece
    ensures (s == r.piece && r.rest == []) || s == r.piece + [d] + r.rest
    ensures |s| > 0 ==> |r.rest| < |s|
  {
    if |s| == 0 then Extracted("", "")
    else if s[0] == d then Extracted("", s[1..])
    else
      var e := GetLine(s[1..], d);
      Extracted([s[0]] + e.piece, e.rest)
  }

  /** The text still unread after k getline calls. */
  function Drop(s: string, d: char, k: nat): string
    decreases k
  {
    if k == 0 then s else Drop(GetLine(s, d).rest, d, k - 1)
  }

  /** The string the (k+1)-th getline call stores. */
  function Piece(s: string, d: char, k: nat): string
  {
    GetLine(Drop(s, d, k), d).piece
  }

  /** The word the loader reads for cell [i][j]: the j-th ','-field of the i-th line. */
  function Token(contents: string, i: nat, j: nat): string
  {
    Piece(Piece(contents, '\n', i), ',', j)
  }

  /** The cell a word leaves after the reset: the table's value for the two words it
      knows, and the reset's Blank for every other word (no trimming takes place). */
  function CellOfWord(word: string): (r: MapChipType)
    ensures r == Block <==> word == "1"
    ensures word != "1" ==> r == Blank
  {
    if word in MapChipTable then MapChipTable[word] else Blank
  }

  /** What LoadMapChipCsv stores in cell [i][j]. */
  function LoadedCell(contents: string, i: nat, j: nat): (r: MapChipType)
    ensures r == Block <==> Token(contents, i, j) == "1"
    ensures Token(contents, i, j) == "0" ==> r == Blank
    ensures Token(contents, i, j) != "1" ==> r == Blank
  {
    CellOfWord(Token(contents, i, j))
  }

  /** The grid row read from one line: one cell per ','-field, 100 of them. */
  function RowOfLine(line: string): (r: seq<MapChipType>)
    ensures |r| == NumBlockHorizontal
    ensures forall j | 0 <= j < NumBlockHorizontal :: r[j] == CellOfWord(Piece(line, ',', j))
  {
    seq(NumBlockHorizontal, j requires 0 <= j < NumBlockHorizontal => CellOfWord(Piece(line, ',', j)))
  }

  const BlankRow: seq<MapChipType> := seq(NumBlockHorizontal, _ => Blank)

  /** Joining pieces with d between them, the way a CSV text is written. */
  function Join(pieces: seq<string>, d: char): string
  {
    if |pieces| == 0 then ""
    else if |pieces| == 1 then pieces[0]
    else pieces[0] + [d] + Join(pieces[1..], d)
  }

  ghost predicate Separated(pieces: seq<string>, d: char)
  {
    forall k | 0 <= k < |pieces| :: d !in pieces[k]
  }

  lemma {:induction false} GetLineOfJoin(pieces: seq<string>, d: char)
    requires |pieces| > 0 && Separated(pieces, d)
    ensures GetLine(Join(pieces, d), d) == Extracted(pieces[0], Join(pieces[1..], d))
  {
    GetLineOfPrefix(pieces[0], d, if |pieces| == 1 then "" else [d] + Join(pieces[1..], d));
  }

  /** getline on p + tail with p free of d reads p, then behaves as on tail. */
  lemma {:induction false} GetLineOfPrefix(p: string, d: char, tail: string)
    requires d !in p
    requires tail == [] || tail[0] == d
    ensures GetLine(p + tail, d) == Extracted(p, if tail == [] then [] else tail[1..])
  {
    if |p| > 0 {
      assert (p + tail)[1..] == p[1..] + tail;
      GetLineOfPrefix(p[1..], d, tail);
      assert [p[0]] + p[1..] == p;
    } else {
      assert p + tail == tail;
    }
  }

  /** Reading back a text written by Join: the k-th getline returns the k-th piece, and
      the empty string once the pieces run out. */
  lemma {:induction false} PieceOfJoin(pieces: seq<string>, d: char, k: nat)
    requires Separated(pieces, d)
    ensures Piece(Join(pieces, d), d, k) == if k < |pieces| then pieces[k] else ""
  {
    if |pieces| == 0 {
      EmptyStaysEmpty(d, k);
    } else {
      GetLineOfJoin(pieces, d);
      if k > 0 {
        assert Drop(Join(pieces, d), d, k) == Drop(Join(pieces[1..], d), d, k - 1);
        PieceOfJoin(pieces[1..], d, k - 1);
      }
    }
  }

  lemma {:induction false} EmptyStaysEmpty(d: char, k: nat)
    ensures Drop("", d, k) == "" && Piece("", d, k) == ""
  {
    if k > 0 {
      EmptyStaysEmpty(d, k - 1);
    }
  }

  /** A CSV text whose rows are given as words: lines joined by '\n', words by ','. */
  function Csv(rows: seq<seq<string>>): string
  {
    Join(seq(|rows|, i requires 0 <= i < |rows| => Join(rows[i], ',')), '\n')
  }

  ghost predicate WellFormedRows(rows: seq<seq<string>>)
  {
    forall i, j | 0 <= i < |rows| && 0 <= j < |rows[i]| :: '\n' !in rows[i][j] && ',' !in rows[i][j]
  }

  lemma {:induction false} NoNewlineInJoin(pieces: seq<string>)
    requires forall j | 0 <= j < |pieces| :: '\n' !in pieces[j]
    ensures '\n' !in Join(pieces, ',')
  {
    if |pieces| > 1 {
      NoNewlineInJoin(pieces[1..]);
    }
  }

  /** Parsing a written CSV gives back its words: the token at [i][j] is the j-th word of
      row i, and "" where the row or the word is missing. */
  lemma {:induction false} TokenOfCsv(rows: seq<seq<string>>, i: nat, j: nat)
    requires WellFormedRows(rows)
    ensures Token(Csv(rows), i, j) == if i < |rows| && j < |rows[i]| then rows[i][j] else ""
  {
    var lines := seq(|rows|, k requires 0 <= k < |rows| => Join(rows[k], ','));
    forall k | 0 <= k < |lines| ensures '\n' !in lines[k] {
      NoNewlineInJoin(rows[k]);
    }
    PieceOfJoin(lines, '\n', i);
    if i < |rows| {
      PieceOfJoin(rows[i], ',', j);
    } else {
      EmptyStaysEmpty(',', j);
    }
  }

  /** Lines after the 20th and words after the 100th never reach the grid: appending
      them changes no loaded cell. */
  lemma {:induction false} ExtraInputIgnored(rows: seq<seq<string>>, more: seq<seq<string>>,
                                             i: nat, j: nat)
    requires WellFormedRows(rows) && WellFormedRows(more)
    requires |rows| == NumBlockVertical && |more| >= |rows|
    requires forall k | 0 <= k < |rows| :: |more[k]| >= NumBlockHorizontal && |rows[k]| == NumBlockHorizontal
    requires forall k, m | 0 <= k < |rows| && 0 <= m < NumBlockHorizontal :: more[k][m] == rows[k][m]
    requires i < NumBlockVertical && j < NumBlockHorizontal
    ensures LoadedCell(Csv(more), i, j) == LoadedCell(Csv(rows), i, j)
  {
    TokenOfCsv(rows, i, j);
    TokenOfCsv(more, i, j);
  }

  lemma {:induction false} PieceStep(s: string, d: char, k: nat)
    ensures GetLine(Drop(s, d, k), d) == Extracted(Piece(s, d, k), Drop(s, d, k + 1))
    decreases k
  {
    if k > 0 {
      PieceStep(GetLine(s, d).rest, d, k - 1);
    }
  }

  // ---- Index and position conversions ----

  /** GetMatChipPositionByIndex: the world position of the tile's centre. The row index
      is subtracted from 19 in uint32 arithmetic, which wraps for a row above 19, so such
      a row is not a defined input here. */
  function GetMatChipPositionByIndex(xIndex: uint32, yIndex: uint32): (r: Vector3)
    requires yIndex as nat <= NumBlockVertical - 1
    ensures r.z == 0.0
    ensures r.x == BlockWidth * xIndex as real && 0.0 <= r.x
    ensures r.y == BlockHeight * (NumBlockVertical - 1 - yIndex as nat) as real
    ensures 0.0 <= r.y <= 38.0
  {
    Vector3(BlockWidth * xIndex as real, BlockHeight * (NumBlockVertical - 1 - yIndex as nat) as real, 0.0)
  }

  /** The column formula of GetMapChipIndexSetByPosition before its cast. */
  function ColumnValue(x: real): real
  {
    (x + BlockWidth / 2.0) / BlockWidth
  }

  /** The row formula of GetMapChipIndexSetByPosition before its cast: note the negation
      without the 19 - y flip of the position formula. */
  function RowValue(y: real): real
  {
    ((y + BlockHeight / 2.0) / BlockHeight) * -1.0
  }

  /** Both casts to uint32 are defined: each value lies strictly between -1 and 2^32. */
  ghost predicate IndexablePosition(position: Vector3)
  {
    -1.0 < ColumnValue(position.x) < Uint32Limit as real
    && -1.0 < RowValue(position.y) < Uint32Limit as real
  }

  /** GetMapChipIndexSetByPosition. Column c covers x in [2c - 1, 2c + 1), with x in
      (-3, -1) also landing in column 0 through truncation; the row is read from -y and
      is 0 for every y in (-3, 1). */
  function GetMapChipIndexSetByPosition(position: Vector3): (r: IndexSet)
    requires IndexablePosition(position)
    ensures -1.0 <= position.x ==>
              2.0 * r.xIndex as real - 1.0 <= position.x < 2.0 * r.xIndex as real + 1.0
    ensures position.x < -1.0 ==> r.xIndex == 0
    ensures position.y <= -1.0 ==>
              -2.0 * r.yIndex as real - 3.0 < position.y <= -2.0 * r.yIndex as real - 1.0
    ensures -1.0 < position.y ==> r.yIndex == 0
  {
    IndexSet(ToUint32(ColumnValue(position.x)), ToUint32(RowValue(position.y)))
  }

  /** The column of a tile's own x position is that tile's column, whatever the y. */
  lemma {:induction false} ColumnRoundTrip(xIndex: uint32, yIndex: uint32, y: real)
    requires yIndex as nat <= NumBlockVertical - 1
    requires -1.0 < RowValue(y) < Uint32Limit as real
    ensures var p := GetMatChipPositionByIndex(xIndex, yIndex);
            GetMapChipIndexSetByPosition(Vector3(p.x, y, p.z)).xIndex == xIndex
  {
    var p := GetMatChipPositionByIndex(xIndex, yIndex);
    assert ColumnValue(p.x) == xIndex as real + 0.5;
  }

  /** Only the bottom row survives a full round trip: its position is at y = 0, and -y is
      read as row 0. Every other row lies at y >= 2, where the row cast is undefined. */
  lemma {:induction false} BottomRowRoundTrip(xIndex: uint32)
    ensures var p := GetMatChipPositionByIndex(xIndex, NumBlockVertical as uint32 - 1);
            IndexablePosition(p) && GetMapChipIndexSetByPosition(p) == IndexSet(xIndex, 0)
  {
    var p := GetMatChipPositionByIndex(xIndex, NumBlockVertical as uint32 - 1);
    assert ColumnValue(p.x) == xIndex as real + 0.5;
    assert RowValue(p.y) == -0.5;
  }

  lemma {:induction false} UpperRowsNotIndexable(xIndex: uint32, yIndex: uint32)
    requires yIndex as nat < NumBlockVertical - 1
    ensures !IndexablePosition(GetMatChipPositionByIndex(xIndex, yIndex))
  {
    var p := GetMatChipPositionByIndex(xIndex, yIndex);
    assert p.y >= 2.0;
    assert RowValue(p.y) <= -1.5;
  }

  /** A larger row index means a lower tile. */
  lemma {:induction false} RowsGoDown(xIndex: uint32, y1: uint32, y2: uint32)
    requires y1 < y2 && y2 as nat <= NumBlockVertical - 1
    ensures GetMatChipPositionByIndex(xIndex, y2).y < GetMatChipPositionByIndex(xIndex, y1).y
  {
  }

  /** class MapChipField: the grid is MapChipData::data, one row per tile row. */
  class MapChipField {
    var data: seq<seq<MapChipType>>

    /** Shape after ResetMapChipData: 20 rows of 100 cells. */
    ghost predicate Valid()
      reads this
    {
      |data| == NumBlockVertical
      && forall i | 0 <= i < |data| :: |data[i]| == NumBlockHorizontal
    }

    /** A default-constructed field holds an empty vector of rows. */
    constructor ()
      ensures data == []
    {
      data := [];
    }

    /** clear(), resize to 20 empty rows, then resize every row to 100 kBlank cells. */
    method ResetMapChipData()
      modifies this
      ensures Valid()
      ensures forall i, j | 0 <= i < NumBlockVertical && 0 <= j < NumBlockHorizontal :: data[i][j] == Blank
    {
      data := [];
      data := seq(NumBlockVertical, _ => []);
      for i := 0 to NumBlockVertical
        invariant |data| == NumBlockVertical
        invariant forall k | 0 <= k < i :: data[k] == BlankRow
      {
        data := data[i := BlankRow];
      }
    }

    /** LoadMapChipCsv after the file has been read into contents: reset, then 20
        getline calls for lines, each line parsed into its row. */
    method LoadMapChipCsv(contents: string)
      modifies this
      ensures Valid()
      ensures forall i, j | 0 <= i < NumBlockVertical && 0 <= j < NumBlockHorizontal ::
                data[i][j] == LoadedCell(contents, i, j)
    {
      ResetMapChipData();
      assert forall k | 0 <= k < NumBlockVertical :: data[k] == BlankRow;
      var stream := contents;
      for i := 0 to NumBlockVertical
        invariant Valid()
        invariant stream == Drop(contents, '\n', i)
        invariant forall k | 0 <= k < i :: data[k] == RowOfLine(Piece(contents, '\n', k))
        invariant forall k | i <= k < NumBlockVertical :: data[k] == BlankRow
      {
        PieceStep(contents, '\n', i);
        var got := GetLine(stream, '\n');
        var line := got.piece;
        stream := got.rest;
        LoadLine(i, line);
      }
    }

    /** The inner loop of LoadMapChipCsv: 100 getline calls for the ','-fields of one
        line, each known word written into row i, which the reset left Blank. */
    method LoadLine(i: nat, line: string)
      requires Valid() && i < NumBlockVertical && data[i] == BlankRow
      modifies this
      ensures Valid()
      ensures data == old(data)[i := RowOfLine(line)]
    {
      var lineStream := line;
      for j := 0 to NumBlockHorizontal
        invariant Valid()
        invariant data == old(data)[i := data[i]]
        invariant lineStream == Drop(line, ',', j)
        invariant forall m | 0 <= m < j :: data[i][m] == CellOfWord(Piece(line, ',', m))
        invariant forall m | j <= m < NumBlockHorizontal :: data[i][m] == Blank
      {
        PieceStep(line, ',', j);
        var gotWord := GetLine(lineStream, ',');
        var word := gotWord.piece;
        lineStream := gotWord.rest;
        if word in MapChipTable {
          data := data[i := data[i][j := MapChipTable[word]]];
        }
      }
      assert data[i] == RowOfLine(line);
    }

    /** GetMapChipTypeByIndex: kBlank outside the grid (a uint32 is never negative, so
        only the upper bounds matter), the stored cell inside it. */
    function GetMapChipTypeByIndex(xIndex: uint32, yIndex: uint32): (r: MapChipType)
      reads this
      requires Valid()
      ensures xIndex as nat > NumBlockHorizontal - 1 || yIndex as nat > NumBlockVertical - 1 ==> r == Blank
      ensures xIndex as nat < NumBlockHorizontal && yIndex as nat < NumBlockVertical ==>
                r == data[yIndex][xIndex]
    {
      if NumBlockHorizontal - 1 < xIndex as nat then Blank
      else if NumBlockVertical - 1 < yIndex as nat then Blank
      else data[yIndex][xIndex]
    }

    function GetNumBlockVertical(): (r: uint32)
      ensures r as nat == NumBlockVertical
    {
      NumBlockVertical as uint32
    }

    function GetNumBlockHorizontal(): (r: uint32)
      ensures r as nat == NumBlockHorizontal
    {
      NumBlockHorizontal as uint32
    }
  }
}
