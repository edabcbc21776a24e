/**
  The shell on the tape. Every run of keys and output is followed on a tape of rows, on which the
  end of the last prompt is a position that the cursor never comes back before.
*/
module ShellRuns {
  import opened Screens
  import opened Tapes
  import opened Shells

  // ----- Positions on the tape -----

  function CellAt(t: Tape, x: int): Cell {
    if 0 <= x / 80 < |t.rows| && x % 80 < |t.rows[x / 80]|
    then t.rows[x / 80][x % 80]
    else Cell(0, 0)
  }

  /** The cell at `x` is blank if its row has left the screen. */
  predicate FadesAt(t: Tape, x: int, color: int) {
    x / 80 >= t.gone || CellAt(t, x) == Cell(SPACE, color)
  }

  /** Every cell before `floor` is as it was, or blank once its row has left the screen. */
  ghost predicate Protected(t: Tape, u: Tape, floor: int, color: int) {
    && t.gone <= u.gone
    && (forall x :: 0 <= x < floor && x / 80 >= u.gone ==> CellAt(u, x) == CellAt(t, x))
    && (forall x :: 0 <= x < floor && FadesAt(t, x, color) ==> FadesAt(u, x, color))
  }

  lemma ProtectedTwice(t: Tape, u: Tape, v: Tape, floor: int, color: int)
    requires Protected(t, u, floor, color) && Protected(u, v, floor, color)
    ensures Protected(t, v, floor, color)
  {
  }

  lemma ProtectedBelow(t: Tape, u: Tape, floor: int, lower: int, color: int)
    requires Protected(t, u, floor, color) && lower <= floor
    ensures Protected(t, u, lower, color)
  {
  }

  lemma AdvancedProtects(t: Tape, color: int)
    requires GoodTape(t)
    ensures Protected(t, Advanced(t, color), Pos(t), color) && Pos(Advanced(t, color)) >= Pos(t)
  {
  }

  lemma InkedAt(t: Tape, cell: Cell, x: int)
    requires GoodTape(t) && t.col < BUFFER_WIDTH
    ensures x != Pos(t) ==> CellAt(Inked(t, cell), x) == CellAt(t, x)
    ensures CellAt(Inked(t, cell), Pos(t)) == cell
  {
  }

  lemma InkedProtects(t: Tape, cell: Cell, color: int)
    requires GoodTape(t) && t.col < BUFFER_WIDTH
    ensures Protected(t, Inked(t, cell), Pos(t), color)
  {
  }

  lemma WrappedProtects(t: Tape, color: int)
    requires GoodTape(t)
    ensures GoodTape(Wrapped(t, color)) && Pos(Wrapped(t, color)) == Pos(t)
    ensures Protected(t, Wrapped(t, color), Pos(t), color)
  {
    if t.col >= BUFFER_WIDTH {
      AdvancedProtects(t, color);
    }
  }

  /** Typing puts the cell at the cursor, moves on by one, and touches nothing before. */
  lemma TypedProtects(t: Tape, cell: Cell, color: int)
    requires GoodTape(t)
    ensures Pos(Typed(t, cell, color)) == Pos(t) + 1
    ensures CellAt(Typed(t, cell, color), Pos(t)) == cell
    ensures Protected(t, Typed(t, cell, color), Pos(t), color)
  {
    WrappedProtects(t, color);
    var u := Wrapped(t, color);
    InkedAt(u, cell, Pos(t));
    InkedProtects(u, cell, color);
    ProtectedTwice(t, u, Inked(u, cell), Pos(t), color);
    ProtectedTwice(t, Inked(u, cell), Typed(t, cell, color), Pos(t), color);
  }

  /** Erasing moves back by one and touches nothing before where it ends. */
  lemma RubbedProtects(t: Tape, color: int)
    requires GoodTape(t) && (t.col > 0 || Depth(t) > 0)
    ensures Pos(Rubbed(t, color)) == Pos(t) - 1
    ensures Protected(t, Rubbed(t, color), Pos(t) - 1, color)
  {
  }

  lemma {:induction false} TypedAllProtects(t: Tape, cells: seq<Cell>, color: int)
    requires GoodTape(t)
    ensures Pos(TypedAll(t, cells, color)) == Pos(t) + |cells|
    ensures Protected(t, TypedAll(t, cells, color), Pos(t), color)
    decreases |cells|
  {
    if cells != [] {
      var n := |cells| - 1;
      var u, v := TypedAll(t, cells[..n], color), TypedAll(t, cells, color);
      TypedAllProtects(t, cells[..n], color);
      TypedProtects(u, cells[n], color);
      ProtectedBelow(u, v, Pos(u), Pos(t), color);
      ProtectedTwice(t, u, v, Pos(t), color);
    }
  }

  // ----- The shell on the tape -----

  /** The shell with its screen as a tape, and the position `floor` where the last prompt ended. */
  datatype Desk = Desk(tape: Tape, count: nat, enabled: bool, floor: int)

  /** The erasable characters take up at least `count` cells, all of them after the prompt. */
  ghost predicate DeskOk(d: Desk, st: Style) {
    && GoodTape(d.tape) && Forgotten(d.tape, st.color)
    && Pos(d.tape) >= d.floor + d.count
    && d.floor >= BUFFER_WIDTH * LAST
  }

  /** The desk describes this editor. */
  ghost predicate Matches(d: Desk, e: Editor) {
    Depth(d.tape) >= 0 && View(d.tape) == e.screen && d.count == e.count && d.enabled == e.enabled
  }

  ghost predicate Good(d: Desk, e: Editor, st: Style) {
    DeskOk(d, st) && Usable(e) && Matches(d, e)
  }

  /** Nothing before the prompt's end has changed, and the prompt's end has not moved back. */
  ghost predicate Kept(d: Desk, d': Desk, st: Style) {
    Protected(d.tape, d'.tape, d.floor, st.color) && d'.floor >= d.floor
  }

  lemma KeptTwice(a: Desk, b: Desk, c: Desk, st: Style)
    requires Kept(a, b, st) && Kept(b, c, st)
    ensures Kept(a, c, st)
  {
    ProtectedBelow(b.tape, c.tape, b.floor, a.floor, st.color);
    ProtectedTwice(a.tape, b.tape, c.tape, a.floor, st.color);
  }

  function OnTape(d: Desk, t: Tape, count: nat): Desk {
    d.(tape := t, count := count)
  }

  function Glyphs(text: seq<int>, color: int): (cells: seq<Cell>)
    ensures |cells| == |text|
  {
    seq(|text|, i requires 0 <= i < |text| => Cell(Glyph(text[i]), color))
  }

  /** What a new line starts with. */
  function Lead(show: bool, st: Style): seq<Cell> {
    if show then st.prompt else []
  }

  /** A line begun: new row, prompt when shown, nothing to erase. */
  function DeskBegun(d: Desk, show: bool, st: Style): (r: Desk)
    requires GoodTape(d.tape)
    ensures GoodTape(r.tape)
  {
    AdvancedGood(d.tape, st.color);
    var t := TypedAll(Advanced(d.tape, st.color), Lead(show, st), st.color);
    Desk(t, 0, d.enabled, Pos(t))
  }

  lemma BegunProtects(t: Tape, cells: seq<Cell>, color: int, floor: int)
    requires GoodTape(t) && floor <= Pos(t)
    ensures GoodTape(Advanced(t, color))
    ensures var u := TypedAll(Advanced(t, color), cells, color); Protected(t, u, floor, color) && Pos(u) >= floor
  {
    var a := Advanced(t, color);
    var u := TypedAll(a, cells, color);
    AdvancedGood(t, color);
    AdvancedProtects(t, color);
    TypedAllProtects(a, cells, color);
    ProtectedBelow(t, a, Pos(t), floor, color);
    ProtectedBelow(a, u, Pos(a), floor, color);
    ProtectedTwice(t, a, u, floor, color);
  }

  lemma BegunMatches(t: Tape, s: Screen, cells: seq<Cell>, color: int)
    requires GoodTape(t) && View(t) == s && WellFormed(s)
    ensures GoodTape(Advanced(t, color)) && WellFormed(NewLined(s, color))
    ensures var u := TypedAll(Advanced(t, color), cells, color);
            Forgotten(u, color) && View(u) == PutCells(NewLined(s, color), cells, color)
  {
    ViewAdvanced(t, color);
    ViewTypedAll(Advanced(t, color), cells, color);
  }

  lemma BegunScreen(e: Editor, show: bool, st: Style)
    requires Usable(e)
    ensures WellFormed(NewLined(e.screen, st.color))
    ensures Begun(e, show, st).screen == PutCells(NewLined(e.screen, st.color), Lead(show, st), st.color)
  {
  }

  lemma BegunKeeps(d: Desk, e: Editor, show: bool, st: Style)
    requires Good(d, e, st)
    ensures Good(DeskBegun(d, show, st), Begun(e, show, st), st) && Kept(d, DeskBegun(d, show, st), st)
  {
    BegunProtects(d.tape, Lead(show, st), st.color, d.floor);
    BegunMatches(d.tape, e.screen, Lead(show, st), st.color);
    BegunScreen(e, show, st);
  }

  /** Typing or printing cells after the prompt. */
  lemma InkKeeps(d: Desk, e: Editor, cells: seq<Cell>, count: nat, st: Style)
    requires Good(d, e, st) && count <= d.count + |cells|
    ensures var t := TypedAll(d.tape, cells, st.color);
            && WellFormed(e.screen)
            && Good(OnTape(d, t, count), Editor(PutCells(e.screen, cells, st.color), count, e.enabled), st)
            && Kept(d, OnTape(d, t, count), st)
  {
    var t := TypedAll(d.tape, cells, st.color);
    ViewTypedAll(d.tape, cells, st.color);
    TypedAllProtects(d.tape, cells, st.color);
    ProtectedBelow(d.tape, t, Pos(d.tape), d.floor, st.color);
  }

  /** A backspace has a typed cell to erase, and at the left edge a wrap to undo. */
  lemma RubKeeps(d: Desk, e: Editor, st: Style)
    requires Good(d, e, st) && d.count > 0
    ensures d.tape.col == 0 ==> Depth(d.tape) > 0
    ensures var t := Rubbed(d.tape, st.color);
            && WellFormed(Erased(e.screen, st.color))
            && Good(OnTape(d, t, d.count - 1), Editor(Erased(e.screen, st.color), e.count - 1, e.enabled), st)
            && Kept(d, OnTape(d, t, d.count - 1), st)
  {
    var t := Rubbed(d.tape, st.color);
    ErasedFormed(e.screen, st.color);
    ViewRubbed(d.tape, st.color);
    ForgottenKept(d.tape, Cell(SPACE, st.color), st.color);
    RubbedProtects(d.tape, st.color);
    ProtectedBelow(d.tape, t, Pos(d.tape) - 1, d.floor, st.color);
  }

  lemma RawIsErased(s: Screen, color: int)
    requires WellFormed(s) && 0 < s.col <= BUFFER_WIDTH
    ensures RawErased(s, color) == Erased(s, color)
  {
  }

  lemma {:induction false} TextIsCells(s: Screen, text: seq<int>, color: int)
    requires WellFormed(s) && NEWLINE !in text
    ensures PutString(s, text, color) == PutCells(s, Glyphs(text, color), color)
    decreases |text|
  {
    if text != [] {
      var cells := Glyphs(text, color);
      assert cells[1..] == Glyphs(text[1..], color);
      TextIsCells(PutByte(s, text[0], color), text[1..], color);
    }
  }

  // ----- Keys -----

  /** Names of raw keys and encodings of characters are not empty and hold no newline of their own. */
  predicate GoodKey(key: Key) {
    match key
    case RawBackspace => true
    case RawKey(name) => name != [] && NEWLINE !in name
    case Unicode(utf8) => utf8 == ENTER || (utf8 != [] && NEWLINE !in utf8)
  }

  function DeskPressed(d: Desk, key: Key, st: Style): (r: Desk)
    requires GoodTape(d.tape)
    ensures GoodTape(r.tape)
  {
    var t := d.tape;
    match key
    case RawBackspace =>
      if d.count > 0 then OnTape(d, if t.col > 0 then Rubbed(t, st.color) else t, d.count - 1) else d
    case RawKey(name) => OnTape(d, TypedAll(t, Glyphs(name, st.color), st.color), d.count + 1)
    case Unicode(utf8) =>
      if utf8 == BACKSPACE then if d.count > 0 then OnTape(d, Rubbed(t, st.color), d.count - 1) else d
      else if utf8 == ENTER then DeskBegun(d, d.enabled, st)
      else OnTape(d, TypedAll(t, Glyphs(utf8, st.color), st.color), d.count + 1)
  }

  lemma PressKeeps(d: Desk, e: Editor, key: Key, st: Style)
    requires Good(d, e, st) && GoodKey(key)
    ensures Good(DeskPressed(d, key, st), Pressed(e, key, st), st) && Kept(d, DeskPressed(d, key, st), st)
  {
    match key
    case RawBackspace =>
      if d.count > 0 {
        if d.tape.col > 0 {
          RubKeeps(d, e, st);
          RawIsErased(e.screen, st.color);
        }
      }
    case RawKey(name) =>
      TextIsCells(e.screen, name, st.color);
      InkKeeps(d, e, Glyphs(name, st.color), d.count + 1, st);
    case Unicode(utf8) =>
      if utf8 == BACKSPACE {
        if d.count > 0 {
          RubKeeps(d, e, st);
        }
      } else if utf8 == ENTER {
        BegunKeeps(d, e, d.enabled, st);
      } else {
        TextIsCells(e.screen, utf8, st.color);
        InkKeeps(d, e, Glyphs(utf8, st.color), d.count + 1, st);
      }
  }

  // ----- Output -----

  function DeskShown(d: Desk, cell: Cell, st: Style): (r: Desk)
    requires GoodTape(d.tape)
    ensures GoodTape(r.tape)
  {
    OnTape(d, Typed(d.tape, cell, st.color), d.count)
  }

  lemma ShownKeeps(d: Desk, e: Editor, cell: Cell, st: Style)
    requires Good(d, e, st)
    ensures Good(DeskShown(d, cell, st), Shown(e, cell, st), st) && Kept(d, DeskShown(d, cell, st), st)
  {
    InkKeeps(d, e, [cell], d.count, st);
    assert [cell][1..] == [] && [cell][..0] == [];
  }

  function DeskPrintedByte(d: Desk, b: int, st: Style): (r: Desk)
    requires GoodTape(d.tape)
    ensures GoodTape(r.tape)
  {
    if b == NEWLINE then DeskBegun(d, d.enabled, st) else DeskShown(d, Cell(Glyph(b), st.color), st)
  }

  lemma ByteKeeps(d: Desk, e: Editor, b: int, st: Style)
    requires Good(d, e, st)
    ensures Good(DeskPrintedByte(d, b, st), PrintedByte(e, b, st), st) && Kept(d, DeskPrintedByte(d, b, st), st)
  {
    if b == NEWLINE {
      BegunKeeps(d, e, d.enabled, st);
    } else {
      ShownKeeps(d, e, Cell(Glyph(b), st.color), st);
    }
  }

  function DeskPrinted(d: Desk, text: seq<int>, st: Style): (r: Desk)
    requires GoodTape(d.tape)
    ensures GoodTape(r.tape)
    decreases |text|
  {
    if text == [] then d else DeskPrinted(DeskPrintedByte(d, text[0], st), text[1..], st)
  }

  /** Printed text, newlines and all, keeps the desk in order. */
  lemma {:induction false} PrintKeeps(d: Desk, e: Editor, text: seq<int>, st: Style)
    requires Good(d, e, st)
    ensures Good(DeskPrinted(d, text, st), Printed(e, text, st), st) && Kept(d, DeskPrinted(d, text, st), st)
    decreases |text|
  {
    if text != [] {
      var d1 := DeskPrintedByte(d, text[0], st);
      ByteKeeps(d, e, text[0], st);
      PrintKeeps(d1, PrintedByte(e, text[0], st), text[1..], st);
      KeptTwice(d, d1, DeskPrinted(d, text, st), st);
    }
  }

  function DeskPrintedCell(d: Desk, c: Cell, st: Style): (r: Desk)
    requires GoodTape(d.tape)
    ensures GoodTape(r.tape)
  {
    if c.ch == NEWLINE then DeskBegun(d, true, st)
    else DeskShown(d, if 0x20 <= c.ch <= 0x7e then c else Cell(UNPRINTABLE, st.color), st)
  }

  lemma CellKeeps(d: Desk, e: Editor, c: Cell, st: Style)
    requires Good(d, e, st)
    ensures Good(DeskPrintedCell(d, c, st), PrintedCell(e, c, st), st) && Kept(d, DeskPrintedCell(d, c, st), st)
  {
    if c.ch == NEWLINE {
      BegunKeeps(d, e, true, st);
    } else {
      ShownKeeps(d, e, if 0x20 <= c.ch <= 0x7e then c else Cell(UNPRINTABLE, st.color), st);
    }
  }

  function DeskPrintedCells(d: Desk, cells: seq<Cell>, st: Style): (r: Desk)
    requires GoodTape(d.tape)
    ensures GoodTape(r.tape)
    decreases |cells|
  {
    if cells == [] then d else DeskPrintedCells(DeskPrintedCell(d, cells[0], st), cells[1..], st)
  }

  lemma {:induction false} PrintColoredKeeps(d: Desk, e: Editor, cells: seq<Cell>, st: Style)
    requires Good(d, e, st)
    ensures var d' := DeskPrintedCells(d, cells, st); Good(d', PrintedCells(e, cells, st), st) && Kept(d, d', st)
    decreases |cells|
  {
    if cells != [] {
      var d1 := DeskPrintedCell(d, cells[0], st);
      CellKeeps(d, e, cells[0], st);
      PrintColoredKeeps(d1, PrintedCell(e, cells[0], st), cells[1..], st);
      KeptTwice(d, d1, DeskPrintedCells(d, cells, st), st);
    }
  }

  // ----- Runs -----

  datatype ShellEvent = Press(key: Key) | Print(text: seq<int>) | PrintColored(cells: seq<Cell>) | Enable(on: bool)

  predicate GoodEvent(ev: ShellEvent) {
    ev.Press? ==> GoodKey(ev.key)
  }

  ghost predicate GoodEvents(evs: seq<ShellEvent>) {
    forall k :: 0 <= k < |evs| ==> GoodEvent(evs[k])
  }

  function EditorStep(e: Editor, ev: ShellEvent, st: Style): (r: Editor)
    requires Usable(e)
    ensures Usable(r)
  {
    match ev
    case Press(key) => Pressed(e, key, st)
    case Print(text) => Printed(e, text, st)
    case PrintColored(cells) => PrintedCells(e, cells, st)
    case Enable(on) => e.(enabled := on)
  }

  function DeskStep(d: Desk, ev: ShellEvent, st: Style): (r: Desk)
    requires GoodTape(d.tape)
    ensures GoodTape(r.tape)
  {
    match ev
    case Press(key) => DeskPressed(d, key, st)
    case Print(text) => DeskPrinted(d, text, st)
    case PrintColored(cells) => DeskPrintedCells(d, cells, st)
    case Enable(on) => d.(enabled := on)
  }

  lemma EventKeeps(d: Desk, e: Editor, ev: ShellEvent, st: Style)
    requires Good(d, e, st) && GoodEvent(ev)
    ensures Good(DeskStep(d, ev, st), EditorStep(e, ev, st), st) && Kept(d, DeskStep(d, ev, st), st)
  {
    match ev
    case Press(key) => PressKeeps(d, e, key, st);
    case Print(text) => PrintKeeps(d, e, text, st);
    case PrintColored(cells) => PrintColoredKeeps(d, e, cells, st);
    case Enable(on) =>
  }

  /** The editor after the first `k` events. */
  function EditorAt(e: Editor, evs: seq<ShellEvent>, k: nat, st: Style): (r: Editor)
    requires Usable(e) && k <= |evs|
    ensures Usable(r)
  {
    if k == 0 then e else EditorStep(EditorAt(e, evs, k - 1, st), evs[k - 1], st)
  }

  /** The desk after the first `k` events. */
  function DeskAt(d: Desk, evs: seq<ShellEvent>, k: nat, st: Style): (r: Desk)
    requires GoodTape(d.tape) && k <= |evs|
    ensures GoodTape(r.tape)
  {
    if k == 0 then d else DeskStep(DeskAt(d, evs, k - 1, st), evs[k - 1], st)
  }

  /**
    After every run of keys and output, the desk of the run describes the editor: the cursor is at
    least `count` cells past the last prompt's end, and no cell up to where that was has changed,
    except to a blank when it left the screen.
  */
  lemma {:induction false} PromptProtection(d: Desk, e: Editor, evs: seq<ShellEvent>, k: nat, st: Style)
    requires Good(d, e, st) && GoodEvents(evs) && k <= |evs|
    ensures Good(DeskAt(d, evs, k, st), EditorAt(e, evs, k, st), st) && Kept(d, DeskAt(d, evs, k, st), st)
  {
    if k != 0 {
      PromptProtection(d, e, evs, k - 1, st);
      EventKeeps(DeskAt(d, evs, k - 1, st), EditorAt(e, evs, k - 1, st), evs[k - 1], st);
      KeptTwice(d, DeskAt(d, evs, k - 1, st), DeskAt(d, evs, k, st), st);
    }
  }
}
