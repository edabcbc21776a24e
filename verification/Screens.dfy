/**
  The text screen of `vga_buffer.rs`: 25 rows of 80 cells, written at the bottom and scrolled in
  place. A full row is wrapped by the next write, so the column can be 80.
*/
module Screens {

  const BUFFER_HEIGHT: nat := 25
  const BUFFER_WIDTH: nat := 80
  const LAST: nat := 24
  const NEWLINE := 10
  const SPACE := 0x20
  const UNPRINTABLE := 0xfe

  datatype Cell = Cell(ch: int, color: int)

  type Row = seq<Cell>

  /** What is on the screen, and the column the next byte goes to. */
  datatype Screen = Screen(rows: seq<Row>, col: nat)

  ghost predicate Sized(rows: seq<Row>) {
    forall r :: 0 <= r < |rows| ==> |rows[r]| == BUFFER_WIDTH
  }

  ghost predicate WellFormed(s: Screen) {
    |s.rows| == BUFFER_HEIGHT && Sized(s.rows)
  }

  function BlankRow(color: int): (r: Row)
    ensures |r| == BUFFER_WIDTH
  {
    seq(BUFFER_WIDTH, _ => Cell(SPACE, color))
  }

  /** `new_line`: everything moves up one row. */
  function NewLined(s: Screen, color: int): Screen
    requires |s.rows| == BUFFER_HEIGHT
  {
    Screen(s.rows[1..] + [BlankRow(color)], 0)
  }

  /** `old_line`: everything moves down one row; what had left the top is not brought back. */
  function OldLined(s: Screen, color: int): Screen
    requires |s.rows| == BUFFER_HEIGHT
  {
    Screen([BlankRow(color)] + s.rows[..LAST], 0)
  }

  /** Wrap a full row before writing. */
  function Folded(s: Screen, color: int): (t: Screen)
    requires |s.rows| == BUFFER_HEIGHT
    ensures |t.rows| == BUFFER_HEIGHT && t.col < BUFFER_WIDTH
  {
    if s.col >= BUFFER_WIDTH then NewLined(s, color) else s
  }

  /** The cell under the cursor replaced. */
  function Stamped(s: Screen, cell: Cell): Screen
    requires |s.rows| == BUFFER_HEIGHT && s.col < |s.rows[LAST]|
  {
    s.(rows := s.rows[LAST := s.rows[LAST][s.col := cell]])
  }

  lemma FoldedFormed(s: Screen, color: int)
    requires WellFormed(s)
    ensures WellFormed(Folded(s, color))
  {
  }

  /** One cell written, as `write_byte_colored` does for anything but a newline. */
  function Put(s: Screen, cell: Cell, color: int): Screen
    requires WellFormed(s)
  {
    FoldedFormed(s, color);
    var t := Folded(s, color);
    Stamped(t, cell).(col := t.col + 1)
  }

  lemma PutFormed(s: Screen, cell: Cell, color: int)
    requires WellFormed(s)
    ensures WellFormed(Put(s, cell, color)) && Put(s, cell, color).col <= BUFFER_WIDTH
  {
  }

  lemma LinedFormed(s: Screen, color: int)
    requires WellFormed(s)
    ensures WellFormed(NewLined(s, color)) && WellFormed(OldLined(s, color))
  {
  }

  function Glyph(b: int): int {
    if 0x20 <= b <= 0x7e then b else UNPRINTABLE
  }

  /** One byte of a string, as `write_string` treats it. */
  function PutByte(s: Screen, b: int, color: int): (t: Screen)
    requires WellFormed(s)
    ensures WellFormed(t)
  {
    LinedFormed(s, color);
    PutFormed(s, Cell(Glyph(b), color), color);
    if b == NEWLINE then NewLined(s, color) else Put(s, Cell(Glyph(b), color), color)
  }

  function PutString(s: Screen, text: seq<int>, color: int): (t: Screen)
    requires WellFormed(s)
    ensures WellFormed(t)
    decreases |text|
  {
    if text == [] then s else PutString(PutByte(s, text[0], color), text[1..], color)
  }

  /** `write_colored_string`: every character is a cell, newlines too. */
  function PutCells(s: Screen, cells: seq<Cell>, color: int): (t: Screen)
    requires WellFormed(s)
    ensures WellFormed(t)
    decreases |cells|
  {
    if cells == [] then s
    else
      PutFormed(s, cells[0], color);
      PutCells(Put(s, cells[0], color), cells[1..], color)
  }

  class Writer {
    var column: nat
    const color: int
    const chars: array2<Cell>

    constructor (color: int, chars: array2<Cell>)
      requires chars.Length0 == BUFFER_HEIGHT && chars.Length1 == BUFFER_WIDTH
      ensures this.color == color && this.chars == chars && Valid() && column == 0
    {
      this.color, this.chars, column := color, chars, 0;
    }

    ghost predicate Valid() {
      chars.Length0 == BUFFER_HEIGHT && chars.Length1 == BUFFER_WIDTH
    }

    ghost function RowAt(r: nat): (row: Row)
      requires Valid() && r < BUFFER_HEIGHT
      reads chars
      ensures |row| == BUFFER_WIDTH
    {
      seq(BUFFER_WIDTH, c requires 0 <= c < BUFFER_WIDTH && Valid() && r < BUFFER_HEIGHT reads chars => chars[r, c])
    }

    ghost function Rows(): (rows: seq<Row>)
      requires Valid()
      reads chars
      ensures |rows| == BUFFER_HEIGHT && Sized(rows)
    {
      seq(BUFFER_HEIGHT, r requires 0 <= r < BUFFER_HEIGHT && Valid() reads chars => RowAt(r))
    }

    ghost function View(): (s: Screen)
      requires Valid()
      reads this, chars
      ensures WellFormed(s)
    {
      Screen(Rows(), column)
    }

    /** The array is what `rows` says once every cell is. */
    lemma Shows(rows: seq<Row>)
      requires Valid() && |rows| == BUFFER_HEIGHT && Sized(rows)
      requires forall r, c :: 0 <= r < BUFFER_HEIGHT && 0 <= c < BUFFER_WIDTH ==> chars[r, c] == rows[r][c]
      ensures Rows() == rows
    {
      forall r | 0 <= r < BUFFER_HEIGHT
        ensures Rows()[r] == rows[r]
      {
        assert RowAt(r) == rows[r];
      }
    }

    method ClearRow(row: nat)
      requires Valid() && row < BUFFER_HEIGHT
      modifies chars
      ensures forall r, c :: 0 <= r < BUFFER_HEIGHT && 0 <= c < BUFFER_WIDTH ==>
                chars[r, c] == if r == row then Cell(SPACE, color) else old(chars[r, c])
    {
      for col := 0 to BUFFER_WIDTH
        invariant forall r, c :: 0 <= r < BUFFER_HEIGHT && 0 <= c < BUFFER_WIDTH ==>
                    chars[r, c] == if r == row && c < col then Cell(SPACE, color) else old(chars[r, c])
      {
        chars[row, col] := Cell(SPACE, color);
      }
    }

    method NewLine()
      requires Valid()
      modifies this`column, chars
      ensures View() == NewLined(old(View()), color)
    {
      for row := 1 to BUFFER_HEIGHT
        invariant forall r, c :: 0 <= r < BUFFER_HEIGHT && 0 <= c < BUFFER_WIDTH ==>
                    chars[r, c] == if r < row - 1 then old(chars[r + 1, c]) else old(chars[r, c])
      {
        for col := 0 to BUFFER_WIDTH
          invariant forall r, c :: 0 <= r < BUFFER_HEIGHT && 0 <= c < BUFFER_WIDTH ==>
                      chars[r, c] == if r < row - 1 || (r == row - 1 && c < col) then old(chars[r + 1, c])
                                     else old(chars[r, c])
        {
          var character := chars[row, col];
          chars[row - 1, col] := character;
        }
      }
      ClearRow(BUFFER_HEIGHT - 1);
      column := 0;
      LinedFormed(old(View()), color);
      Shows(NewLined(old(View()), color).rows);
    }

    method OldLine()
      requires Valid()
      modifies this`column, chars
      ensures View() == OldLined(old(View()), color)
    {
      for row := BUFFER_HEIGHT - 1 downto 0
        invariant forall r, c :: 0 <= r < BUFFER_HEIGHT && 0 <= c < BUFFER_WIDTH ==>
                    chars[r, c] == if r > row then old(chars[r - 1, c]) else old(chars[r, c])
      {
        for col := 0 to BUFFER_WIDTH
          invariant forall r, c :: 0 <= r < BUFFER_HEIGHT && 0 <= c < BUFFER_WIDTH ==>
                      chars[r, c] == if r > row + 1 || (r == row + 1 && c < col) then old(chars[r - 1, c])
                                     else old(chars[r, c])
        {
          var character := chars[row, col];
          chars[row + 1, col] := character;
        }
      }
      ClearRow(0);
      column := 0;
      LinedFormed(old(View()), color);
      Shows(OldLined(old(View()), color).rows);
    }

    /** Write under the cursor, wrapping first; a newline moves the screen and is reported. */
    method SetByteColored(ch: int, code: int) returns (moved: bool)
      requires Valid()
      modifies this`column, chars
      ensures moved <==> ch == NEWLINE
      ensures moved ==> View() == NewLined(old(View()), color)
      ensures !moved ==>
        View() == (FoldedFormed(old(View()), color); Stamped(Folded(old(View()), color), Cell(ch, code)))
    {
      if ch == NEWLINE {
        NewLine();
        return true;
      }
      if column >= BUFFER_WIDTH {
        NewLine();
      }
      FoldedFormed(old(View()), color);
      ghost var folded := View();
      assert folded == Folded(old(View()), color);
      chars[BUFFER_HEIGHT - 1, column] := Cell(ch, code);
      Shows(Stamped(folded, Cell(ch, code)).rows);
      moved := false;
    }

    method WriteByteColored(ch: int, code: int)
      requires Valid()
      modifies this`column, chars
      ensures View() == if ch == NEWLINE then NewLined(old(View()), color) else Put(old(View()), Cell(ch, code), color)
    {
      var moved := SetByteColored(ch, code);
      if !moved {
        column := column + 1;
      }
    }

    method WriteByte(ch: int)
      requires Valid()
      modifies this`column, chars
      ensures View() == if ch == NEWLINE then NewLined(old(View()), color) else Put(old(View()), Cell(ch, color), color)
    {
      WriteByteColored(ch, color);
    }

    method WriteString(text: seq<int>)
      requires Valid()
      modifies this`column, chars
      ensures View() == PutString(old(View()), text, color)
    {
      for i := 0 to |text|
        invariant PutString(View(), text[i..], color) == PutString(old(View()), text, color)
      {
        if 0x20 <= text[i] <= 0x7e || text[i] == NEWLINE {
          WriteByte(text[i]);
        } else {
          WriteByte(UNPRINTABLE);
        }
        assert text[i..][1..] == text[i + 1..];
      }
    }

    method WriteColoredString(cells: seq<Cell>)
      requires Valid()
      modifies this`column, chars
      ensures View() == PutCells(old(View()), cells, color)
    {
      for i := 0 to |cells|
        invariant PutCells(View(), cells[i..], color) == PutCells(old(View()), cells, color)
      {
        ghost var before := View();
        if column >= BUFFER_WIDTH {
          NewLine();
        }
        FoldedFormed(before, color);
        ghost var folded := View();
        chars[BUFFER_HEIGHT - 1, column] := cells[i];
        Shows(Stamped(folded, cells[i]).rows);
        column := column + 1;
        assert View() == Put(before, cells[i], color);
        assert cells[i..][1..] == cells[i + 1..];
      }
    }

    method IsCurrentRowClear() returns (clear: bool)
      requires Valid()
      ensures clear <==> View().rows[LAST] == BlankRow(color)
    {
      for col := 0 to BUFFER_WIDTH
        invariant forall c :: 0 <= c < col ==> View().rows[LAST][c] == BlankRow(color)[c]
      {
        var character := chars[BUFFER_HEIGHT - 1, col];
        assert character == View().rows[LAST][col];
        if character.ch != SPACE || character.color != color {
          return false;
        }
      }
      clear := true;
    }
  }
}
