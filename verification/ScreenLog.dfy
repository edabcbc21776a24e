/**
  The screen as a window on an unbounded log of rows, and the log as the text laid out in lines
  of at most 80 cells.
*/
module ScreenLog {
  import opened Screens

  /** All rows ever written, oldest first; the last one is being written at `col`. */
  datatype Log = Log(rows: seq<Row>, col: nat)

  ghost predicate GoodLog(l: Log) {
    |l.rows| >= BUFFER_HEIGHT && Sized(l.rows)
  }

  /** The last 25 rows. */
  function Window(l: Log): Screen
    requires |l.rows| >= BUFFER_HEIGHT
  {
    Screen(l.rows[|l.rows| - BUFFER_HEIGHT..], l.col)
  }

  function Appended(l: Log, color: int): Log {
    Log(l.rows + [BlankRow(color)], 0)
  }

  /** The byte `b` written: a newline, or a full row, first appends a blank row. */
  function Logged(l: Log, b: int, color: int): (r: Log)
    requires GoodLog(l)
    ensures GoodLog(r)
  {
    if b == NEWLINE then Appended(l, color)
    else
      var t := if l.col >= BUFFER_WIDTH then Appended(l, color) else l;
      var n := |t.rows| - 1;
      Log(t.rows[n := t.rows[n][t.col := Cell(Glyph(b), color)]], t.col + 1)
  }

  function LoggedString(l: Log, text: seq<int>, color: int): (r: Log)
    requires GoodLog(l)
    ensures GoodLog(r)
    decreases |text|
  {
    if text == [] then l else LoggedString(Logged(l, text[0], color), text[1..], color)
  }

  // ----- The array shows the end of the log -----

  lemma WindowAppended(l: Log, color: int)
    requires GoodLog(l)
    ensures Window(Appended(l, color)) == NewLined(Window(l), color)
  {
  }

  lemma WindowStamped(l: Log, cell: Cell)
    requires GoodLog(l) && l.col < BUFFER_WIDTH
    ensures var n := |l.rows| - 1;
            && WellFormed(Window(l))
            && Window(l.(rows := l.rows[n := l.rows[n][l.col := cell]])) == Stamped(Window(l), cell)
  {
  }

  lemma WindowLogged(l: Log, b: int, color: int)
    requires GoodLog(l)
    ensures WellFormed(Window(l)) && Window(Logged(l, b, color)) == PutByte(Window(l), b, color)
  {
    WindowAppended(l, color);
    if b != NEWLINE {
      var t := if l.col >= BUFFER_WIDTH then Appended(l, color) else l;
      WindowStamped(t, Cell(Glyph(b), color));
    }
  }

  /** `write_string` leaves on the screen exactly the last 25 rows of the log. */
  lemma {:induction false} ScreenIsWindow(l: Log, text: seq<int>, color: int)
    requires GoodLog(l)
    ensures WellFormed(Window(l)) && Window(LoggedString(l, text, color)) == PutString(Window(l), text, color)
    decreases |text|
  {
    if text != [] {
      WindowLogged(l, text[0], color);
      ScreenIsWindow(Logged(l, text[0], color), text[1..], color);
    }
  }

  /** The column never passes 80. */
  lemma {:induction false} ColumnKept(s: Screen, text: seq<int>, color: int)
    requires WellFormed(s) && s.col <= BUFFER_WIDTH
    ensures PutString(s, text, color).col <= BUFFER_WIDTH
    decreases |text|
  {
    if text != [] {
      ColumnKept(PutByte(s, text[0], color), text[1..], color);
    }
  }

  // ----- The log is the text laid out -----

  /** A row holding the glyphs of `line`, blank to the right. */
  function Padded(line: seq<int>, color: int): (r: Row)
    ensures |line| <= BUFFER_WIDTH ==> |r| == BUFFER_WIDTH
  {
    seq(|line|, i requires 0 <= i < |line| => Cell(Glyph(line[i]), color))
      + if |line| <= BUFFER_WIDTH then seq(BUFFER_WIDTH - |line|, _ => Cell(SPACE, color)) else []
  }

  /** The length of the first line of `text`. */
  function LineLength(text: seq<int>): (n: nat)
    ensures n <= |text| && NEWLINE !in text[..n]
    ensures n < |text| ==> text[n] == NEWLINE
  {
    if text == [] || text[0] == NEWLINE then 0
    else
      assert forall n :: 0 <= n <= |text[1..]| ==> text[..n + 1] == [text[0]] + text[1..][..n];
      1 + LineLength(text[1..])
  }

  /** `text` in rows of at most 80 cells: a row ends at a newline, or where the next cell would not fit. */
  function Layout(text: seq<int>, color: int): seq<Row>
    decreases |text|
  {
    var n := LineLength(text);
    if n > BUFFER_WIDTH then [Padded(text[..BUFFER_WIDTH], color)] + Layout(text[BUFFER_WIDTH..], color)
    else if n == |text| then [Padded(text, color)]
    else [Padded(text[..n], color)] + Layout(text[n + 1..], color)
  }

  /** How many cells the last row of the layout holds. */
  function EndColumn(text: seq<int>): nat
    decreases |text|
  {
    var n := LineLength(text);
    if n > BUFFER_WIDTH then EndColumn(text[BUFFER_WIDTH..])
    else if n == |text| then n
    else EndColumn(text[n + 1..])
  }

  lemma {:induction false} LineLengthAfter(p: seq<int>, text: seq<int>)
    requires NEWLINE !in p
    ensures LineLength(p + text) == |p| + LineLength(text)
  {
    if p == [] {
      assert p + text == text;
    } else {
      assert (p + text)[1..] == p[1..] + text;
      LineLengthAfter(p[1..], text);
    }
  }

  lemma LayoutBreaks(p: seq<int>, rest: seq<int>, color: int)
    requires NEWLINE !in p && |p| <= BUFFER_WIDTH
    ensures Layout(p + ([NEWLINE] + rest), color) == [Padded(p, color)] + Layout(rest, color)
    ensures EndColumn(p + ([NEWLINE] + rest)) == EndColumn(rest)
  {
    var text := p + ([NEWLINE] + rest);
    LineLengthAfter(p, [NEWLINE] + rest);
    assert text[..|p|] == p && text[|p| + 1..] == rest;
    LayoutAtBreak(text, |p|, color);
  }

  lemma LayoutAtBreak(text: seq<int>, n: nat, color: int)
    requires n == LineLength(text) < |text| && n <= BUFFER_WIDTH
    ensures Layout(text, color) == [Padded(text[..n], color)] + Layout(text[n + 1..], color)
    ensures EndColumn(text) == EndColumn(text[n + 1..])
  {
  }

  lemma PaddedGrows(p: seq<int>, b: int, color: int)
    requires |p| < BUFFER_WIDTH
    ensures Padded(p, color)[|p| := Cell(Glyph(b), color)] == Padded(p + [b], color)
  {
  }

  /** The log `base` with a last row that so far holds `p`. */
  function Begun(base: seq<Row>, p: seq<int>, color: int): Log {
    Log(base + [Padded(p, color)], |p|)
  }

  lemma BegunGrows(base: seq<Row>, p: seq<int>, b: int, color: int)
    requires Sized(base) && |base| >= LAST && |p| < BUFFER_WIDTH && b != NEWLINE
    ensures GoodLog(Begun(base, p, color)) && Logged(Begun(base, p, color), b, color) == Begun(base, p + [b], color)
  {
    PaddedGrows(p, b, color);
  }

  lemma BegunAppends(base: seq<Row>, p: seq<int>, color: int)
    requires Sized(base) && |base| >= LAST && |p| <= BUFFER_WIDTH
    ensures Appended(Begun(base, p, color), color) == Begun(base + [Padded(p, color)], [], color)
    ensures Sized(base + [Padded(p, color)])
  {
    assert BlankRow(color) == Padded([], color);
  }

  ghost predicate CanBegin(base: seq<Row>, p: seq<int>) {
    Sized(base) && |base| >= LAST && |p| <= BUFFER_WIDTH && NEWLINE !in p
  }

  lemma BegunGood(base: seq<Row>, p: seq<int>, color: int)
    requires CanBegin(base, p)
    ensures GoodLog(Begun(base, p, color))
  {
  }

  /** Writing `text` onto a row that holds `p` lays out `p` followed by `text`. */
  ghost predicate LaidOut(base: seq<Row>, p: seq<int>, text: seq<int>, color: int)
    requires CanBegin(base, p)
  {
    BegunGood(base, p, color);
    LoggedString(Begun(base, p, color), text, color) == Log(base + Layout(p + text, color), EndColumn(p + text))
  }

  lemma LaidOutNewline(base: seq<Row>, p: seq<int>, rest: seq<int>, color: int)
    requires CanBegin(base, p) && CanBegin(base + [Padded(p, color)], [])
    requires LaidOut(base + [Padded(p, color)], [], rest, color)
    ensures LaidOut(base, p, [NEWLINE] + rest, color)
  {
    BegunAppends(base, p, color);
    assert [] + rest == rest;
    LayoutBreaks(p, rest, color);
    assert base + [Padded(p, color)] + Layout(rest, color) == base + ([Padded(p, color)] + Layout(rest, color));
  }

  lemma LaidOutWrap(base: seq<Row>, p: seq<int>, b: int, rest: seq<int>, color: int)
    requires CanBegin(base, p) && |p| == BUFFER_WIDTH && b != NEWLINE
    requires CanBegin(base + [Padded(p, color)], [b]) && LaidOut(base + [Padded(p, color)], [b], rest, color)
    ensures LaidOut(base, p, [b] + rest, color)
  {
    LogWraps(base, p, b, color);
    assert base + [Padded(p, color)] + Layout([b] + rest, color)
        == base + ([Padded(p, color)] + Layout([b] + rest, color));
  }

  lemma LaidOutGrow(base: seq<Row>, p: seq<int>, b: int, rest: seq<int>, color: int)
    requires CanBegin(base, p) && |p| < BUFFER_WIDTH && b != NEWLINE
    requires CanBegin(base, p + [b]) && LaidOut(base, p + [b], rest, color)
    ensures LaidOut(base, p, [b] + rest, color)
  {
    BegunGrows(base, p, b, color);
    assert p + [b] + rest == p + ([b] + rest);
  }

  lemma {:induction false} LogIsLayout(base: seq<Row>, p: seq<int>, text: seq<int>, color: int)
    requires CanBegin(base, p)
    ensures LaidOut(base, p, text, color)
    decreases |text|
  {
    if text == [] {
      assert p + text == p;
    } else {
      var b, rest := text[0], text[1..];
      assert text == [b] + rest;
      var base' := base + [Padded(p, color)];
      if b == NEWLINE {
        LogIsLayout(base', [], rest, color);
        LaidOutNewline(base, p, rest, color);
      } else if |p| < BUFFER_WIDTH {
        LogIsLayout(base, p + [b], rest, color);
        LaidOutGrow(base, p, b, rest, color);
      } else {
        LogIsLayout(base', [b], rest, color);
        LaidOutWrap(base, p, b, rest, color);
      }
    }
  }

  lemma LogWraps(base: seq<Row>, p: seq<int>, b: int, color: int)
    requires Sized(base) && |base| >= LAST && |p| == BUFFER_WIDTH && b != NEWLINE
    ensures GoodLog(Begun(base, p, color))
    ensures Logged(Begun(base, p, color), b, color) == Begun(base + [Padded(p, color)], [b], color)
    ensures Sized(base + [Padded(p, color)])
  {
    BegunAppends(base, p, color);
    BegunGrows(base + [Padded(p, color)], [], b, color);
    assert [] + [b] == [b];
  }

  /** From the start of a blank row, the screen shows the last 25 rows of what was above it and the laid-out text. */
  lemma ScreenShowsLayout(s: Screen, text: seq<int>, color: int)
    requires WellFormed(s) && s.col == 0 && s.rows[LAST] == BlankRow(color)
    ensures var all := s.rows[..LAST] + Layout(text, color);
            |all| >= BUFFER_HEIGHT && PutString(s, text, color) == Screen(all[|all| - BUFFER_HEIGHT..], EndColumn(text))
  {
    var l := Begun(s.rows[..LAST], [], color);
    assert BlankRow(color) == Padded([], color);
    assert s.rows == s.rows[..LAST] + [s.rows[LAST]];
    LogIsLayout(s.rows[..LAST], [], text, color);
    assert [] + text == text;
    ScreenIsWindow(l, text, color);
  }

  /** How many rows `n` cells fill, at least one. */
  function RowsFor(n: nat): nat {
    if n == 0 then 1 else (n + BUFFER_WIDTH - 1) / 80
  }

  /** A line of `n` characters and its newline scroll the screen by `RowsFor(n)` rows. */
  lemma {:induction false} LineScrolls(line: seq<int>, color: int)
    requires NEWLINE !in line
    ensures |Layout(line + [NEWLINE], color)| == 1 + RowsFor(|line|)
    decreases |line|
  {
    assert [NEWLINE] + [] == [NEWLINE];
    if |line| <= BUFFER_WIDTH {
      LayoutBreaks(line, [], color);
    } else {
      var p, rest := line[..BUFFER_WIDTH], line[BUFFER_WIDTH..];
      assert line + [NEWLINE] == p + (rest + [NEWLINE]);
      LineScrolls(rest, color);
    }
  }

  // ----- Byte by byte -----

  /** Where the cursor is: rows scrolled so far, and the column. */
  datatype Spot = Spot(row: nat, col: nat)

  /** The cursor after the first `k` bytes of `text`, from column `c` on. */
  function SpotAfter(c: nat, text: seq<int>, k: nat): Spot
    requires k <= |text|
  {
    if k == 0 then Spot(0, c)
    else
      var p := SpotAfter(c, text, k - 1);
      if text[k - 1] == 10 then Spot(p.row + 1, 0)
      else if p.col >= 80 then Spot(p.row + 1, 1)
      else Spot(p.row, p.col + 1)
  }

  /** Where byte `k` is shown. */
  function SpotOf(c: nat, text: seq<int>, k: nat): Spot
    requires k < |text|
  {
    var p := SpotAfter(c, text, k);
    if p.col >= 80 then Spot(p.row + 1, 0) else p
  }

  function Linear(p: Spot): nat {
    80 * p.row + p.col
  }

  lemma {:induction false} SpotsInOrder(c: nat, text: seq<int>, k: nat, n: nat)
    requires c <= 80 && k < n <= |text| && text[k] != 10
    ensures Linear(SpotOf(c, text, k)) < Linear(SpotAfter(c, text, n)) && SpotAfter(c, text, n).col <= 80
    decreases n
  {
    SpotColumn(c, text, k);
    if k < n - 1 {
      SpotsInOrder(c, text, k, n - 1);
    }
  }

  lemma {:induction false} SpotColumn(c: nat, text: seq<int>, k: nat)
    requires c <= 80 && k <= |text|
    ensures SpotAfter(c, text, k).col <= 80
  {
    if k != 0 {
      SpotColumn(c, text, k - 1);
    }
  }

  lemma {:induction false} PutStringLast(s: Screen, text: seq<int>, b: int, color: int)
    requires WellFormed(s)
    ensures PutString(s, text + [b], color) == PutByte(PutString(s, text, color), b, color)
    decreases |text|
  {
    if text == [] {
      assert text + [b] == [b];
    } else {
      assert (text + [b])[1..] == text[1..] + [b];
      PutStringLast(PutByte(s, text[0], color), text[1..], b, color);
    }
  }

  lemma PutStringNext(s: Screen, text: seq<int>, k: nat, color: int)
    requires WellFormed(s) && k < |text|
    ensures PutString(s, text[..k + 1], color) == PutByte(PutString(s, text[..k], color), text[k], color)
  {
    assert text[..k + 1] == text[..k] + [text[k]];
    PutStringLast(s, text[..k], text[k], color);
  }

  lemma {:induction false} ColumnIsSpot(s: Screen, text: seq<int>, k: nat, color: int)
    requires WellFormed(s) && k <= |text|
    ensures PutString(s, text[..k], color).col == SpotAfter(s.col, text, k).col
  {
    if k != 0 {
      ColumnIsSpot(s, text, k - 1, color);
      PutStringNext(s, text, k - 1, color);
    }
  }

  /** What a byte shows: itself if it is printable ASCII, a block otherwise. */
  function ShownAs(b: int): int {
    if 0x20 <= b <= 0x7e then b else 0xfe
  }

  /** A byte written at the cursor shows there, after a wrap if the row was full. */
  lemma ByteShows(s: Screen, b: int, color: int)
    requires WellFormed(s) && s.col <= 80 && b != 10
    ensures |PutByte(s, b, color).rows| == 25 && |PutByte(s, b, color).rows[24]| == 80
    ensures PutByte(s, b, color).rows[24][if s.col == 80 then 0 else s.col] == Cell(ShownAs(b), color)
  {
  }

  /** Another byte moves every cell up by the rows it scrolls, and changes none but the one at the cursor. */
  lemma CellMoves(s: Screen, b: int, color: int, r: nat, c: nat)
    requires WellFormed(s) && r < 25 && c < 80
    ensures var t, up := PutByte(s, b, color), if b == 10 || s.col >= 80 then 1 else 0;
            r >= up && (up == 1 || r != 24 || c != s.col) ==> WellFormed(t) && t.rows[r - up][c] == s.rows[r][c]
  {
  }

  /** Byte `k` of `text` is on the screen `t` after `n` bytes, unless its row has left it. */
  ghost predicate ByteVisible(c: nat, text: seq<int>, k: nat, n: nat, t: Screen, color: int)
    requires k < n <= |text|
  {
    var p, r := SpotOf(c, text, k), SpotAfter(c, text, n).row;
    && WellFormed(t) && p.row <= r && p.col < 80
    && (p.row + 24 >= r ==> t.rows[p.row + 24 - r][p.col] == Cell(ShownAs(text[k]), color))
  }

  lemma ByteStays(c: nat, text: seq<int>, k: nat, n: nat, t: Screen, color: int)
    requires c <= 80 && k < n < |text| && text[k] != 10
    requires ByteVisible(c, text, k, n, t, color) && t.col == SpotAfter(c, text, n).col
    ensures ByteVisible(c, text, k, n + 1, PutByte(t, text[n], color), color)
  {
    var p, q := SpotOf(c, text, k), SpotAfter(c, text, n);
    SpotsInOrder(c, text, k, n);
    if p.row + 24 >= q.row {
      CellMoves(t, text[n], color, p.row + 24 - q.row, p.col);
    }
  }

  lemma ByteAppears(c: nat, text: seq<int>, k: nat, t: Screen, color: int)
    requires c <= 80 && k < |text| && text[k] != 10 && WellFormed(t) && t.col == SpotAfter(c, text, k).col
    ensures ByteVisible(c, text, k, k + 1, PutByte(t, text[k], color), color)
  {
    SpotColumn(c, text, k);
    ByteShows(t, text[k], color);
  }

  lemma {:induction false} ByteVisibleAfter(s: Screen, text: seq<int>, k: nat, n: nat, color: int)
    requires WellFormed(s) && s.col <= 80 && k < n <= |text| && text[k] != 10
    ensures ByteVisible(s.col, text, k, n, PutString(s, text[..n], color), color)
    decreases n
  {
    ColumnIsSpot(s, text, n - 1, color);
    PutStringNext(s, text, n - 1, color);
    if k == n - 1 {
      ByteAppears(s.col, text, k, PutString(s, text[..k], color), color);
    } else {
      ByteVisibleAfter(s, text, k, n - 1, color);
      ByteStays(s.col, text, k, n - 1, PutString(s, text[..n - 1], color), color);
    }
  }

  /**
    From any screen, every byte of the text but newlines is found on the screen where counting
    newlines and columns of 80 puts it, as itself if it is printable ASCII and as 0xfe otherwise.
  */
  lemma TextOnScreen(s: Screen, text: seq<int>, k: nat, color: int)
    requires WellFormed(s) && s.col <= 80 && k < |text| && text[k] != 10
    ensures ByteVisible(s.col, text, k, |text|, PutString(s, text, color), color)
    ensures PutString(s, text, color).col == SpotAfter(s.col, text, |text|).col
  {
    assert text[..|text|] == text;
    ByteVisibleAfter(s, text, k, |text|, color);
    ColumnIsSpot(s, text, |text|, color);
  }

  /** New rows are blank. */
  lemma NewRowIsBlank(s: Screen, color: int, c: nat)
    requires WellFormed(s) && c < 80
    ensures NewLined(s, color).rows[24][c] == Cell(0x20, color) && OldLined(s, color).rows[0][c] == Cell(0x20, color)
    ensures NewLined(s, color).col == OldLined(s, color).col == 0
  {
  }
}
