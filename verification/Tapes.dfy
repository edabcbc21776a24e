/**
  Typing and erasing. The screen is the end of a tape of rows whose rows above the screen are
  blank, because what leaves the top is forgotten; erasing past the left edge takes the tape back
  by a row.
*/
module Tapes {
  import opened Screens

  // ----- Erasing on the screen -----

  /** The cursor moved back by one cell, over the left edge if need be. */
  function SteppedBack(s: Screen, color: int): Screen
    requires |s.rows| == BUFFER_HEIGHT
  {
    if s.col > 0 then s.(col := s.col - 1) else OldLined(s, color).(col := BUFFER_WIDTH - 1)
  }

  lemma SteppedBackFormed(s: Screen, color: int)
    requires WellFormed(s)
    ensures WellFormed(SteppedBack(s, color)) && WellFormed(Folded(SteppedBack(s, color), color))
  {
  }

  /** The line editor's backspace, while there is something to erase: step back, then `set_byte` a blank. */
  function Erased(s: Screen, color: int): Screen
    requires WellFormed(s)
  {
    SteppedBackFormed(s, color);
    Stamped(Folded(SteppedBack(s, color), color), Cell(SPACE, color))
  }

  lemma ErasedFormed(s: Screen, color: int)
    requires WellFormed(s)
    ensures WellFormed(Erased(s, color))
  {
  }

  function ErasedTimes(s: Screen, n: nat, color: int): (t: Screen)
    requires WellFormed(s)
    ensures WellFormed(t)
  {
    if n == 0 then s
    else
      var t := ErasedTimes(s, n - 1, color);
      ErasedFormed(t, color);
      Erased(t, color)
  }

  // ----- The tape -----

  /** `gone` is how many rows have ever left the top of the screen. */
  datatype Tape = Tape(rows: seq<Row>, col: nat, gone: nat)

  /** How many rows of the tape are above the screen. */
  function Depth(t: Tape): int {
    |t.rows| - BUFFER_HEIGHT
  }

  /** The linear position of the cursor. */
  function Pos(t: Tape): int {
    BUFFER_WIDTH * (|t.rows| - 1) + t.col
  }

  ghost predicate GoodTape(t: Tape) {
    Depth(t) >= 0 && Sized(t.rows) && t.col <= BUFFER_WIDTH && t.gone >= Depth(t)
  }

  /** What is above the screen is blank. */
  ghost predicate Forgotten(t: Tape, color: int) {
    forall r :: 0 <= r < |t.rows| && r < Depth(t) ==> t.rows[r] == BlankRow(color)
  }

  function View(t: Tape): Screen
    requires Depth(t) >= 0
  {
    Screen(t.rows[Depth(t)..], t.col)
  }

  /** The first `d` rows blanked. */
  function Blanked(rows: seq<Row>, d: int, color: int): (r: seq<Row>)
    ensures |r| == |rows|
    ensures forall i :: 0 <= i < |rows| ==> r[i] == if i < d then BlankRow(color) else rows[i]
    ensures Sized(rows) ==> Sized(r)
  {
    var r := seq(|rows|, i requires 0 <= i < |rows| => if i < d then BlankRow(color) else rows[i]);
    assert forall i :: 0 <= i < |rows| ==> r[i] == if i < d then BlankRow(color) else rows[i];
    r
  }

  function Forget(t: Tape, d: int, color: int): Tape {
    t.(rows := Blanked(t.rows, d, color), gone := if d > t.gone then d else t.gone)
  }

  /** A blank row appended; the row that leaves the top is forgotten. */
  function Advanced(t: Tape, color: int): Tape
    requires Depth(t) >= 0
  {
    Forget(Tape(t.rows + [BlankRow(color)], 0, t.gone), Depth(t) + 1, color)
  }

  function Inked(t: Tape, cell: Cell): Tape
    requires t.rows != [] && t.col < |t.rows[|t.rows| - 1]|
  {
    var n := |t.rows| - 1;
    t.(rows := t.rows[n := t.rows[n][t.col := cell]])
  }

  function Wrapped(t: Tape, color: int): Tape
    requires Depth(t) >= 0
  {
    if t.col >= BUFFER_WIDTH then Advanced(t, color) else t
  }

  lemma AdvancedGood(t: Tape, color: int)
    requires GoodTape(t)
    ensures GoodTape(Advanced(t, color)) && Forgotten(Advanced(t, color), color)
  {
  }

  function Typed(t: Tape, cell: Cell, color: int): (r: Tape)
    requires GoodTape(t)
    ensures GoodTape(r)
  {
    AdvancedGood(t, color);
    var u := Wrapped(t, color);
    Inked(u, cell).(col := u.col + 1)
  }

  /** One row taken back; with nothing above the screen, a blank row comes in. */
  function Retreated(t: Tape, color: int): Tape
    requires Depth(t) >= 0
  {
    if Depth(t) > 0 then t.(rows := t.rows[..|t.rows| - 1], col := BUFFER_WIDTH - 1)
    else t.(rows := [BlankRow(color)] + t.rows[..LAST], col := BUFFER_WIDTH - 1)
  }

  lemma RetreatedGood(t: Tape, color: int)
    requires GoodTape(t)
    ensures GoodTape(Retreated(t, color))
  {
  }

  /** The tape's backspace. */
  function Rubbed(t: Tape, color: int): (r: Tape)
    requires GoodTape(t)
    ensures GoodTape(r)
  {
    RetreatedGood(t, color);
    if t.col > 0 then Inked(t.(col := t.col - 1), Cell(SPACE, color))
    else Inked(Retreated(t, color), Cell(SPACE, color))
  }

  function TypedAll(t: Tape, cells: seq<Cell>, color: int): (r: Tape)
    requires GoodTape(t)
    ensures GoodTape(r)
    decreases |cells|
  {
    if cells == [] then t else Typed(TypedAll(t, cells[..|cells| - 1], color), cells[|cells| - 1], color)
  }

  function RubbedTimes(t: Tape, n: nat, color: int): (r: Tape)
    requires GoodTape(t)
    ensures GoodTape(r)
  {
    if n == 0 then t else Rubbed(RubbedTimes(t, n - 1, color), color)
  }

  // ----- The screen is the end of the tape -----

  lemma ViewAdvanced(t: Tape, color: int)
    requires GoodTape(t)
    ensures View(Advanced(t, color)) == NewLined(View(t), color)
  {
  }

  lemma ViewInked(t: Tape, cell: Cell)
    requires GoodTape(t) && t.col < BUFFER_WIDTH
    ensures WellFormed(View(t)) && View(Inked(t, cell)) == Stamped(View(t), cell)
  {
  }

  lemma ViewTyped(t: Tape, cell: Cell, color: int)
    requires GoodTape(t)
    ensures WellFormed(View(t)) && View(Typed(t, cell, color)) == Put(View(t), cell, color)
  {
    ViewWrapped(t, color);
    ViewInked(Wrapped(t, color), cell);
  }

  lemma ViewWrapped(t: Tape, color: int)
    requires GoodTape(t)
    ensures GoodTape(Wrapped(t, color)) && Wrapped(t, color).col < BUFFER_WIDTH
    ensures View(Wrapped(t, color)) == Folded(View(t), color)
  {
    if t.col >= BUFFER_WIDTH {
      AdvancedGood(t, color);
      ViewAdvanced(t, color);
    }
  }

  lemma ViewRetreated(t: Tape, color: int)
    requires GoodTape(t) && Forgotten(t, color)
    ensures View(Retreated(t, color)) == OldLined(View(t), color).(col := BUFFER_WIDTH - 1)
  {
  }

  lemma ViewRubbed(t: Tape, color: int)
    requires GoodTape(t) && Forgotten(t, color)
    ensures WellFormed(View(t)) && View(Rubbed(t, color)) == Erased(View(t), color)
  {
    if t.col == 0 {
      ViewRetreated(t, color);
      ViewInked(Retreated(t, color), Cell(SPACE, color));
    }
  }

  lemma ForgottenKept(t: Tape, cell: Cell, color: int)
    requires GoodTape(t) && Forgotten(t, color)
    ensures Forgotten(Typed(t, cell, color), color)
    ensures Forgotten(Rubbed(t, color), color)
  {
  }

  lemma {:induction false} ViewTypedAll(t: Tape, cells: seq<Cell>, color: int)
    requires GoodTape(t) && Forgotten(t, color)
    ensures Forgotten(TypedAll(t, cells, color), color)
    ensures WellFormed(View(t)) && View(TypedAll(t, cells, color)) == PutCells(View(t), cells, color)
    decreases |cells|
  {
    if cells != [] {
      var n := |cells| - 1;
      ViewTypedAll(t, cells[..n], color);
      ViewTyped(TypedAll(t, cells[..n], color), cells[n], color);
      ForgottenKept(TypedAll(t, cells[..n], color), cells[n], color);
      PutCellsLast(View(t), cells[..n], cells[n], color);
      assert cells == cells[..n] + [cells[n]];
    }
  }

  lemma {:induction false} PutCellsLast(s: Screen, cells: seq<Cell>, cell: Cell, color: int)
    requires WellFormed(s)
    ensures PutCells(s, cells + [cell], color) == Put(PutCells(s, cells, color), cell, color)
    decreases |cells|
  {
    if cells != [] {
      assert (cells + [cell])[1..] == cells[1..] + [cell];
      PutCellsLast(Put(s, cells[0], color), cells[1..], cell, color);
    }
  }

  lemma {:induction false} ViewRubbedTimes(t: Tape, n: nat, color: int)
    requires GoodTape(t) && Forgotten(t, color)
    ensures Forgotten(RubbedTimes(t, n, color), color)
    ensures WellFormed(View(t)) && View(RubbedTimes(t, n, color)) == ErasedTimes(View(t), n, color)
  {
    if n != 0 {
      ViewRubbedTimes(t, n - 1, color);
      ViewRubbed(RubbedTimes(t, n - 1, color), color);
      ForgottenKept(RubbedTimes(t, n - 1, color), Cell(SPACE, color), color);
    }
  }

  // ----- Erasing undoes typing -----

  /** The same position written at the start of the next row. */
  function Unfolded(t: Tape, color: int): (r: Tape)
    requires GoodTape(t)
    ensures Sized(r.rows)
  {
    if t.col < BUFFER_WIDTH then t else Tape(t.rows + [BlankRow(color)], 0, t.gone)
  }

  /** Nothing is written at or after the cursor. */
  ghost predicate ClearRight(t: Tape, color: int) {
    t.rows != [] && ClearFrom(t.rows[|t.rows| - 1], t.col, color)
  }

  ghost predicate ClearFrom(row: Row, col: nat, color: int) {
    forall c :: col <= c < |row| ==> row[c] == Cell(SPACE, color)
  }

  lemma ClearRightKept(t: Tape, cell: Cell, color: int)
    requires GoodTape(t) && ClearRight(t, color)
    ensures ClearRight(Typed(t, cell, color), color)
  {
  }

  /** Erasing what was just typed leaves the tape as it was, but for a pending wrap and what left the screen. */
  lemma RubOutOne(t: Tape, cell: Cell, color: int)
    requires GoodTape(t) && Forgotten(t, color) && ClearRight(t, color)
    ensures Rubbed(Typed(t, cell, color), color) == Forget(Unfolded(t, color), Depth(Typed(t, cell, color)), color)
  {
    var blank := Cell(SPACE, color);
    if t.col < BUFFER_WIDTH {
      var n := |t.rows| - 1;
      assert t.rows[n][t.col := cell][t.col := blank] == t.rows[n];
    } else {
      var u := Advanced(t, color);
      var n := |u.rows| - 1;
      assert u.rows[n][0 := cell][0 := blank] == u.rows[n];
      assert u.rows[n := u.rows[n][0 := cell]][n := u.rows[n]] == u.rows;
    }
  }

  /** Forgetting and erasing commute. */
  lemma RubForget(t: Tape, d: int, color: int)
    requires GoodTape(t) && (t.col > 0 || Depth(t) > 0)
    ensures GoodTape(Forget(t, d, color)) && Rubbed(Forget(t, d, color), color) == Forget(Rubbed(t, color), d, color)
  {
    var a, b := Rubbed(Forget(t, d, color), color), Forget(Rubbed(t, color), d, color);
    forall r | 0 <= r < |a.rows|
      ensures a.rows[r] == b.rows[r]
    {
      assert r < d ==> BlankRow(color)[a.col := Cell(SPACE, color)] == BlankRow(color);
    }
  }

  /** A pending wrap makes no difference to erasing. */
  lemma RubUnfolded(t: Tape, d: int, color: int)
    requires GoodTape(t) && t.col > 0 && d >= Depth(Unfolded(t, color))
    ensures GoodTape(Forget(Unfolded(t, color), d, color))
    ensures Rubbed(Forget(Unfolded(t, color), d, color), color) == Forget(Rubbed(t, color), d, color)
  {
    RubForget(t, d, color);
    if t.col == BUFFER_WIDTH {
      var u := Forget(Unfolded(t, color), d, color);
      assert u.rows[..|t.rows|] == Blanked(t.rows, d, color);
    }
  }

  lemma ForgetTwice(t: Tape, d: int, e: int, color: int)
    requires d <= e
    ensures Forget(Forget(t, d, color), e, color) == Forget(t, e, color)
  {
  }

  // ----- Many keys -----

  lemma {:induction false} TypedAllKeeps(t: Tape, cells: seq<Cell>, color: int)
    requires GoodTape(t) && Forgotten(t, color) && ClearRight(t, color)
    ensures Forgotten(TypedAll(t, cells, color), color) && ClearRight(TypedAll(t, cells, color), color)
    ensures Depth(TypedAll(t, cells, color)) >= Depth(t)
    ensures cells != [] ==> TypedAll(t, cells, color).col > 0
    decreases |cells|
  {
    if cells != [] {
      var n := |cells| - 1;
      TypedAllKeeps(t, cells[..n], color);
      ForgottenKept(TypedAll(t, cells[..n], color), cells[n], color);
      ClearRightKept(TypedAll(t, cells[..n], color), cells[n], color);
    }
  }

  lemma TypedDeepens(t: Tape, cell: Cell, color: int)
    requires GoodTape(t)
    ensures Depth(Typed(t, cell, color)) >= Depth(Unfolded(t, color)) >= Depth(t)
  {
  }

  /** What is left of `cells` after erasing the last `e` of them. */
  ghost predicate RubsOut(t: Tape, cells: seq<Cell>, e: nat, color: int)
    requires GoodTape(t) && e <= |cells|
  {
    RubbedTimes(TypedAll(t, cells, color), e, color)
    == Forget(Unfolded(TypedAll(t, cells[..|cells| - e], color), color), Depth(TypedAll(t, cells, color)), color)
  }

  lemma TypedNext(t: Tape, cells: seq<Cell>, k: nat, color: int)
    requires GoodTape(t) && k < |cells|
    ensures TypedAll(t, cells[..k + 1], color) == Typed(TypedAll(t, cells[..k], color), cells[k], color)
  {
    assert cells[..k + 1][..k] == cells[..k];
  }

  lemma RubOutFirst(t: Tape, cells: seq<Cell>, color: int)
    requires GoodTape(t) && Forgotten(t, color) && ClearRight(t, color) && cells != []
    ensures RubsOut(t, cells, 1, color)
  {
    var n := |cells| - 1;
    TypedAllKeeps(t, cells[..n], color);
    RubOutOne(TypedAll(t, cells[..n], color), cells[n], color);
    assert RubbedTimes(TypedAll(t, cells, color), 0, color) == TypedAll(t, cells, color);
  }

  lemma RubOutNext(t: Tape, cells: seq<Cell>, e: nat, color: int)
    requires GoodTape(t) && Forgotten(t, color) && ClearRight(t, color)
    requires 1 <= e < |cells| && RubsOut(t, cells, e, color)
    ensures RubsOut(t, cells, e + 1, color)
  {
    var k, d := |cells| - e - 1, Depth(TypedAll(t, cells, color));
    var x, y := TypedAll(t, cells[..k], color), TypedAll(t, cells[..k + 1], color);
    TypedAllKeeps(t, cells[..k], color);
    TypedAllKeeps(t, cells[..k + 1], color);
    TypedNext(t, cells, k, color);
    TypedDepth(t, cells, k + 1, color);
    RubUnfolded(y, d, color);
    RubOutOne(x, cells[k], color);
    ForgetTwice(Unfolded(x, color), Depth(y), d, color);
  }

  /**
    Typing `cells` and erasing the last `e` of them leaves what typing the others leaves, except
    that the rows that left the screen meanwhile are blank.
  */
  lemma {:induction false} RubOutMany(t: Tape, cells: seq<Cell>, e: nat, color: int)
    requires GoodTape(t) && Forgotten(t, color) && ClearRight(t, color) && 1 <= e <= |cells|
    ensures RubsOut(t, cells, e, color)
  {
    if e == 1 {
      RubOutFirst(t, cells, color);
    } else {
      RubOutMany(t, cells, e - 1, color);
      RubOutNext(t, cells, e - 1, color);
    }
  }

  /** Before the last of several cells is typed, the tape is no deeper, even with its wrap done. */
  lemma {:induction false} TypedDepth(t: Tape, cells: seq<Cell>, k: nat, color: int)
    requires GoodTape(t) && k <= |cells|
    ensures Depth(TypedAll(t, cells[..k], color)) <= Depth(TypedAll(t, cells, color))
    ensures k < |cells| ==> Depth(Unfolded(TypedAll(t, cells[..k], color), color)) <= Depth(TypedAll(t, cells, color))
    decreases |cells|
  {
    if k == |cells| {
      assert cells[..k] == cells;
    } else {
      var n := |cells| - 1;
      TypedDeepens(TypedAll(t, cells[..n], color), cells[n], color);
      assert cells[..n][..k] == cells[..k];
      TypedDepth(t, cells[..n], k, color);
    }
  }

  // ----- On the screen -----

  /** The screen as a tape that nothing has left yet. */
  function TapeOf(s: Screen): Tape {
    Tape(s.rows, s.col, 0)
  }

  /** How many times the screen scrolls while `n` cells are typed from column `c`. */
  function Scrolls(c: nat, n: nat): nat {
    if n == 0 then 0 else (c + n - 1) / 80
  }

  lemma {:induction false} TypedAllMoves(t: Tape, cells: seq<Cell>, color: int)
    requires GoodTape(t)
    ensures Pos(TypedAll(t, cells, color)) == Pos(t) + |cells|
    ensures cells != [] ==> TypedAll(t, cells, color).col > 0
    decreases |cells|
  {
    if cells != [] {
      TypedAllMoves(t, cells[..|cells| - 1], color);
    }
  }

  lemma PositionSplits(r: int, c: int, x: int)
    requires 80 * r + c == x && 1 <= c <= 80
    ensures r == (x - 1) / 80 && c == (x - 1) % 80 + 1
  {
  }

  lemma TypedPosition(t: Tape, cells: seq<Cell>, color: int)
    requires GoodTape(t) && cells != []
    ensures Depth(TypedAll(t, cells, color)) == Depth(t) + Scrolls(t.col, |cells|)
    ensures TypedAll(t, cells, color).col == (t.col + |cells| - 1) % 80 + 1
  {
    var u := TypedAll(t, cells, color);
    TypedAllMoves(t, cells, color);
    PositionSplits(|u.rows| - |t.rows|, u.col, t.col + |cells|);
  }

  lemma RowSplits(r: int, c: int, x: int)
    requires 80 * r + c == x && 0 <= c < 80
    ensures r == x / 80 && c == x % 80
  {
  }

  lemma UnfoldedPosition(t: Tape, cells: seq<Cell>, x: nat, u: Tape, color: int)
    requires GoodTape(t) && x == t.col + |cells| && u == Unfolded(TypedAll(t, cells, color), color)
    ensures Depth(u) == Depth(t) + x / 80 && u.col == x % 80
  {
    TypedAllMoves(t, cells, color);
    RowSplits(|u.rows| - |t.rows|, u.col, x);
  }

  /** `s` with its wrap done, its first `drop` rows blanked, and the cursor in column `col`. */
  function Settled(s: Screen, drop: int, col: nat, color: int): Screen
    requires |s.rows| == BUFFER_HEIGHT
  {
    Screen(Blanked(Folded(s, color).rows, drop, color), col)
  }

  lemma ViewUnfolded(t: Tape, d: int, color: int)
    requires GoodTape(t)
    ensures var u := Unfolded(t, color); View(Forget(u, d, color)) == Settled(View(t), d - Depth(u), u.col, color)
  {
    var u := Unfolded(t, color);
    assert u.rows[Depth(u)..] == Folded(View(t), color).rows;
    assert View(Forget(u, d, color)).rows == Blanked(u.rows[Depth(u)..], d - Depth(u), color);
  }

  /** What `cells` typed from `s` and the last `e` of them erased leave: the first ones, with their wrap done. */
  function Leftover(s: Screen, cells: seq<Cell>, e: nat, color: int): Screen
    requires WellFormed(s) && e <= |cells|
  {
    var x := s.col + |cells| - e;
    Settled(PutCells(s, cells[..|cells| - e], color), Scrolls(s.col, |cells|) - x / 80, x % 80, color)
  }

  lemma ViewRubsOut(t: Tape, cells: seq<Cell>, e: nat, kept: Tape, u: Tape, d: int, color: int)
    requires GoodTape(t) && e <= |cells| && RubsOut(t, cells, e, color) && d == Depth(TypedAll(t, cells, color))
    requires kept == TypedAll(t, cells[..|cells| - e], color) && u == Unfolded(kept, color)
    ensures View(RubbedTimes(TypedAll(t, cells, color), e, color)) == Settled(View(kept), d - Depth(u), u.col, color)
  {
    ViewUnfolded(kept, d, color);
  }

  lemma ScreenRubsOut(s: Screen, cells: seq<Cell>, e: nat, kept: Screen, u: Tape, d: int, color: int)
    requires WellFormed(s) && s.col <= BUFFER_WIDTH && ClearFrom(s.rows[LAST], s.col, color) && 1 <= e <= |cells|
    requires u == Unfolded(TypedAll(TapeOf(s), cells[..|cells| - e], color), color)
    requires d == Depth(TypedAll(TapeOf(s), cells, color)) && kept == PutCells(s, cells[..|cells| - e], color)
    ensures ErasedTimes(PutCells(s, cells, color), e, color) == Settled(kept, d - Depth(u), u.col, color)
  {
    TapeShows(s, cells[..|cells| - e], color);
    TapeShowsErased(s, cells, e, color);
    TapeRubsOut(s, cells, e, color);
    ViewRubsOut(TapeOf(s), cells, e, TypedAll(TapeOf(s), cells[..|cells| - e], color), u, d, color);
  }

  lemma UnfoldedPos(t: Tape, d: int, color: int)
    requires GoodTape(t)
    ensures Pos(Forget(Unfolded(t, color), d, color)) == Pos(t)
  {
  }

  lemma RubsOutPosition(t: Tape, cells: seq<Cell>, e: nat, color: int)
    requires GoodTape(t) && e <= |cells| && RubsOut(t, cells, e, color)
    ensures Pos(RubbedTimes(TypedAll(t, cells, color), e, color)) == Pos(t) + |cells| - e
  {
    var kept := cells[..|cells| - e];
    TypedAllMoves(t, kept, color);
    UnfoldedPos(TypedAll(t, kept, color), Depth(TypedAll(t, cells, color)), color);
  }

  lemma TapeShows(s: Screen, cells: seq<Cell>, color: int)
    requires WellFormed(s) && s.col <= BUFFER_WIDTH
    ensures Forgotten(TypedAll(TapeOf(s), cells, color), color)
    ensures View(TypedAll(TapeOf(s), cells, color)) == PutCells(s, cells, color)
  {
    assert s.rows[0..] == s.rows;
    ViewTypedAll(TapeOf(s), cells, color);
  }

  lemma TapeShowsErased(s: Screen, cells: seq<Cell>, e: nat, color: int)
    requires WellFormed(s) && s.col <= BUFFER_WIDTH
    ensures View(RubbedTimes(TypedAll(TapeOf(s), cells, color), e, color))
         == ErasedTimes(PutCells(s, cells, color), e, color)
  {
    TapeShows(s, cells, color);
    ViewRubbedTimes(TypedAll(TapeOf(s), cells, color), e, color);
  }

  /**
    Typing cells with nothing to the right of the cursor and erasing the last `e` of them, on the
    screen: the others remain, and the rows that left the screen meanwhile are blank.
  */
  lemma TypeThenEraseSome(s: Screen, cells: seq<Cell>, e: nat, color: int)
    requires WellFormed(s) && s.col <= BUFFER_WIDTH && ClearFrom(s.rows[LAST], s.col, color) && 1 <= e <= |cells|
    ensures ErasedTimes(PutCells(s, cells, color), e, color) == Leftover(s, cells, e, color)
  {
    var t, kept := TapeOf(s), cells[..|cells| - e];
    var u := Unfolded(TypedAll(t, kept, color), color);
    ScreenRubsOut(s, cells, e, PutCells(s, kept, color), u, Depth(TypedAll(t, cells, color)), color);
    TypedPosition(t, cells, color);
    UnfoldedPosition(t, kept, s.col + |cells| - e, u, color);
    LeftoverIs(s, cells, e, Depth(TypedAll(t, cells, color)), Depth(u), u.col, color);
  }

  lemma LeftoverIs(s: Screen, cells: seq<Cell>, e: nat, d: int, r: int, col: nat, color: int)
    requires WellFormed(s) && e <= |cells| && d == Scrolls(s.col, |cells|)
    requires r == (s.col + |cells| - e) / 80 && col == (s.col + |cells| - e) % 80
    ensures Leftover(s, cells, e, color) == Settled(PutCells(s, cells[..|cells| - e], color), d - r, col, color)
  {
  }

  lemma TapeRubsOut(s: Screen, cells: seq<Cell>, e: nat, color: int)
    requires WellFormed(s) && s.col <= BUFFER_WIDTH && ClearFrom(s.rows[LAST], s.col, color) && 1 <= e <= |cells|
    ensures RubsOut(TapeOf(s), cells, e, color)
  {
    RubOutMany(TapeOf(s), cells, e, color);
  }

  lemma AllErased(s: Screen, cells: seq<Cell>, r: int, col: nat, color: int)
    requires WellFormed(s) && s.col <= BUFFER_WIDTH && ClearFrom(s.rows[LAST], s.col, color) && cells != []
    requires r == s.col / 80 && col == s.col % 80
    ensures ErasedTimes(PutCells(s, cells, color), |cells|, color)
         == Settled(s, Scrolls(s.col, |cells|) - r, col, color)
  {
    TypeThenEraseSome(s, cells, |cells|, color);
    assert cells[..0] == [];
  }

  /**
    Typing `n` cells from a column before the right edge, with nothing to its right, and erasing
    them restores the column and every row that did not leave the screen; the others are blank.
  */
  lemma TypeThenErase(s: Screen, cells: seq<Cell>, color: int)
    requires WellFormed(s) && s.col < BUFFER_WIDTH && ClearFrom(s.rows[LAST], s.col, color) && cells != []
    ensures ErasedTimes(PutCells(s, cells, color), |cells|, color)
         == Screen(Blanked(s.rows, Scrolls(s.col, |cells|), color), s.col)
  {
    AllErased(s, cells, 0, s.col, color);
  }

  /** From a full row the wrap is not undone: the cursor ends at the start of the next row, one row scrolled. */
  lemma TypeThenEraseFromFullRow(s: Screen, cells: seq<Cell>, color: int)
    requires WellFormed(s) && s.col == BUFFER_WIDTH && cells != []
    ensures ErasedTimes(PutCells(s, cells, color), |cells|, color)
         == Screen(Blanked(NewLined(s, color).rows, Scrolls(80, |cells|) - 1, color), 0)
  {
    AllErased(s, cells, 1, 0, color);
  }
}
