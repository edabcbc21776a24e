/**
  Prompt protection on the screen itself. How far each event scrolls is read off the editor, and
  the cells before the cursor of a new line are found again, that far up, after every run.
*/
module Prompts {
  import opened Prelude
  import opened Screens
  import opened Tapes
  import opened Shells
  import opened ShellRuns

  // ----- How far the screen scrolls -----

  /** Rows scrolled by beginning a line. */
  function RiseBegun(show: bool, st: Style): nat {
    1 + Scrolls(0, |Lead(show, st)|)
  }

  /** Rows scrolled by a key; a backspace at the left edge scrolls back by one. */
  function RisePressed(e: Editor, key: Key, st: Style): int {
    match key
    case RawBackspace => 0
    case RawKey(name) => Scrolls(e.screen.col, |name|)
    case Unicode(utf8) =>
      if utf8 == BACKSPACE then if e.count > 0 && e.screen.col == 0 then -1 else 0
      else if utf8 == ENTER then RiseBegun(e.enabled, st)
      else Scrolls(e.screen.col, |utf8|)
  }

  function RiseByte(e: Editor, b: int, st: Style): nat {
    if b == NEWLINE then RiseBegun(e.enabled, st) else Scrolls(e.screen.col, 1)
  }

  function RisePrinted(e: Editor, text: seq<int>, st: Style): nat
    requires Usable(e)
    decreases |text|
  {
    if text == [] then 0
    else RiseByte(e, text[0], st) + RisePrinted(PrintedByte(e, text[0], st), text[1..], st)
  }

  function RiseCell(e: Editor, c: Cell, st: Style): nat {
    if c.ch == NEWLINE then RiseBegun(true, st) else Scrolls(e.screen.col, 1)
  }

  function RisePrintedCells(e: Editor, cells: seq<Cell>, st: Style): nat
    requires Usable(e)
    decreases |cells|
  {
    if cells == [] then 0
    else RiseCell(e, cells[0], st) + RisePrintedCells(PrintedCell(e, cells[0], st), cells[1..], st)
  }

  function Rise(e: Editor, ev: ShellEvent, st: Style): int
    requires Usable(e)
  {
    match ev
    case Press(key) => RisePressed(e, key, st)
    case Print(text) => RisePrinted(e, text, st)
    case PrintColored(cells) => RisePrintedCells(e, cells, st)
    case Enable(_) => 0
  }

  /** Rows scrolled by the first `k` events. */
  function Risen(e: Editor, evs: seq<ShellEvent>, k: nat, st: Style): int
    requires Usable(e) && k <= |evs|
  {
    if k == 0 then 0 else Risen(e, evs, k - 1, st) + Rise(EditorAt(e, evs, k - 1, st), evs[k - 1], st)
  }

  /** The furthest the screen was scrolled during the first `k` events: so many rows have left it. */
  function Peak(e: Editor, evs: seq<ShellEvent>, k: nat, st: Style): int
    requires Usable(e) && k <= |evs|
  {
    if k == 0 then 0 else Max(Peak(e, evs, k - 1, st), Risen(e, evs, k, st))
  }

  // ----- The tape scrolls as far -----

  /** `u` is `n` rows further than `t`, and nothing more than that has left the screen. */
  predicate Climbs(t: Tape, u: Tape, n: int) {
    Depth(u) == Depth(t) + n && u.gone == Max(t.gone, Depth(u))
  }

  lemma ClimbsTwice(t: Tape, u: Tape, v: Tape, m: int, n: nat)
    requires Climbs(t, u, m) && Climbs(u, v, n)
    ensures Climbs(t, v, m + n)
  {
  }

  lemma AdvancedClimbs(t: Tape, color: int)
    requires GoodTape(t)
    ensures Climbs(t, Advanced(t, color), 1)
  {
  }

  lemma TypedClimbs(t: Tape, cell: Cell, color: int)
    requires GoodTape(t)
    ensures Climbs(t, Typed(t, cell, color), Scrolls(t.col, 1))
  {
  }

  lemma {:induction false} TypedAllGone(t: Tape, cells: seq<Cell>, color: int)
    requires GoodTape(t)
    ensures Depth(TypedAll(t, cells, color)) >= Depth(t)
    ensures TypedAll(t, cells, color).gone == Max(t.gone, Depth(TypedAll(t, cells, color)))
    decreases |cells|
  {
    if cells != [] {
      var n := |cells| - 1;
      TypedAllGone(t, cells[..n], color);
      TypedClimbs(TypedAll(t, cells[..n], color), cells[n], color);
    }
  }

  lemma TypedAllClimbs(t: Tape, cells: seq<Cell>, color: int)
    requires GoodTape(t)
    ensures Climbs(t, TypedAll(t, cells, color), Scrolls(t.col, |cells|))
  {
    TypedAllGone(t, cells, color);
    if cells != [] {
      TypedPosition(t, cells, color);
    }
  }

  lemma BegunClimbs(d: Desk, show: bool, st: Style)
    requires GoodTape(d.tape)
    ensures Climbs(d.tape, DeskBegun(d, show, st).tape, RiseBegun(show, st))
  {
    var a := Advanced(d.tape, st.color);
    AdvancedGood(d.tape, st.color);
    AdvancedClimbs(d.tape, st.color);
    TypedAllClimbs(a, Lead(show, st), st.color);
    ClimbsTwice(d.tape, a, DeskBegun(d, show, st).tape, 1, Scrolls(0, |Lead(show, st)|));
  }

  lemma RubbedClimbs(t: Tape, color: int)
    requires GoodTape(t) && (t.col == 0 ==> Depth(t) > 0)
    ensures Climbs(t, Rubbed(t, color), if t.col == 0 then -1 else 0)
  {
  }

  lemma PressClimbs(d: Desk, e: Editor, key: Key, st: Style)
    requires Good(d, e, st)
    ensures Climbs(d.tape, DeskPressed(d, key, st).tape, RisePressed(e, key, st))
  {
    match key
    case RawBackspace =>
      if d.count > 0 {
        RubKeeps(d, e, st);
        RubbedClimbs(d.tape, st.color);
      }
    case RawKey(name) => TypedAllClimbs(d.tape, Glyphs(name, st.color), st.color);
    case Unicode(utf8) =>
      if utf8 == BACKSPACE {
        if d.count > 0 {
          RubKeeps(d, e, st);
          RubbedClimbs(d.tape, st.color);
        }
      } else if utf8 == ENTER {
        BegunClimbs(d, d.enabled, st);
      } else {
        TypedAllClimbs(d.tape, Glyphs(utf8, st.color), st.color);
      }
  }

  lemma ByteClimbs(d: Desk, e: Editor, b: int, st: Style)
    requires Good(d, e, st)
    ensures Climbs(d.tape, DeskPrintedByte(d, b, st).tape, RiseByte(e, b, st))
  {
    if b == NEWLINE {
      BegunClimbs(d, d.enabled, st);
    } else {
      TypedClimbs(d.tape, Cell(Glyph(b), st.color), st.color);
    }
  }

  lemma {:induction false} PrintClimbs(d: Desk, e: Editor, text: seq<int>, st: Style)
    requires Good(d, e, st)
    ensures Climbs(d.tape, DeskPrinted(d, text, st).tape, RisePrinted(e, text, st))
    decreases |text|
  {
    if text != [] {
      var d1, e1 := DeskPrintedByte(d, text[0], st), PrintedByte(e, text[0], st);
      ByteKeeps(d, e, text[0], st);
      ByteClimbs(d, e, text[0], st);
      PrintClimbs(d1, e1, text[1..], st);
      ClimbsTwice(d.tape, d1.tape, DeskPrinted(d, text, st).tape,
                  RiseByte(e, text[0], st), RisePrinted(e1, text[1..], st));
    }
  }

  lemma CellClimbs(d: Desk, e: Editor, c: Cell, st: Style)
    requires Good(d, e, st)
    ensures Climbs(d.tape, DeskPrintedCell(d, c, st).tape, RiseCell(e, c, st))
  {
    if c.ch == NEWLINE {
      BegunClimbs(d, true, st);
    } else {
      TypedClimbs(d.tape, if 0x20 <= c.ch <= 0x7e then c else Cell(UNPRINTABLE, st.color), st.color);
    }
  }

  lemma {:induction false} PrintColoredClimbs(d: Desk, e: Editor, cells: seq<Cell>, st: Style)
    requires Good(d, e, st)
    ensures Climbs(d.tape, DeskPrintedCells(d, cells, st).tape, RisePrintedCells(e, cells, st))
    decreases |cells|
  {
    if cells != [] {
      var d1, e1 := DeskPrintedCell(d, cells[0], st), PrintedCell(e, cells[0], st);
      CellKeeps(d, e, cells[0], st);
      CellClimbs(d, e, cells[0], st);
      PrintColoredClimbs(d1, e1, cells[1..], st);
      ClimbsTwice(d.tape, d1.tape, DeskPrintedCells(d, cells, st).tape,
                  RiseCell(e, cells[0], st), RisePrintedCells(e1, cells[1..], st));
    }
  }

  lemma EventClimbs(d: Desk, e: Editor, ev: ShellEvent, st: Style)
    requires Good(d, e, st)
    ensures Climbs(d.tape, DeskStep(d, ev, st).tape, Rise(e, ev, st))
  {
    match ev
    case Press(key) => PressClimbs(d, e, key, st);
    case Print(text) => PrintClimbs(d, e, text, st);
    case PrintColored(cells) => PrintColoredClimbs(d, e, cells, st);
    case Enable(_) =>
  }

  /** The rows that have left the screen are those the screen was ever scrolled by, and no others. */
  lemma {:induction false} GoneIsPeak(d: Desk, e: Editor, evs: seq<ShellEvent>, k: nat, st: Style)
    requires Good(d, e, st) && GoodEvents(evs) && k <= |evs| && d.tape.gone == Depth(d.tape)
    ensures Depth(DeskAt(d, evs, k, st).tape) == Depth(d.tape) + Risen(e, evs, k, st)
    ensures DeskAt(d, evs, k, st).tape.gone == Depth(d.tape) + Peak(e, evs, k, st)
  {
    if k != 0 {
      GoneIsPeak(d, e, evs, k - 1, st);
      RunClimbs(d, e, evs, k, st);
    }
  }

  lemma RunClimbs(d: Desk, e: Editor, evs: seq<ShellEvent>, k: nat, st: Style)
    requires Good(d, e, st) && GoodEvents(evs) && 0 < k <= |evs|
    ensures Climbs(DeskAt(d, evs, k - 1, st).tape, DeskAt(d, evs, k, st).tape,
                   Rise(EditorAt(e, evs, k - 1, st), evs[k - 1], st))
  {
    PromptProtection(d, e, evs, k - 1, st);
    EventClimbs(DeskAt(d, evs, k - 1, st), EditorAt(e, evs, k - 1, st), evs[k - 1], st);
  }

  // ----- On the screen -----

  /** The linear position of the cursor on the screen. */
  function Cursor(s: Screen): nat {
    80 * LAST + s.col
  }

  function ScreenCell(s: Screen, x: int): Cell {
    if 0 <= x / 80 < |s.rows| && x % 80 < |s.rows[x / 80]| then s.rows[x / 80][x % 80] else Cell(0, 0)
  }

  /** A shell with nothing to erase: a line just begun, or a shell just initialized. */
  ghost predicate FreshLine(e: Editor) {
    Usable(e) && e.screen.col <= BUFFER_WIDTH && e.count == 0
  }

  /** Its desk: everything before the cursor is to be kept. */
  function DeskOf(e: Editor): (d: Desk)
    requires FreshLine(e)
    ensures GoodTape(d.tape)
  {
    Desk(TapeOf(e.screen), 0, e.enabled, Cursor(e.screen))
  }

  lemma DeskOfGood(e: Editor, st: Style)
    requires FreshLine(e)
    ensures Good(DeskOf(e), e, st)
  {
    assert e.screen.rows[0..] == e.screen.rows;
  }

  /** Each cell before the cursor of `s` is `r` rows further up in `f`, or blank if it was in the first `top` rows. */
  ghost predicate Scrolled(s: Screen, f: Screen, r: int, top: int, color: int) {
    forall y :: 0 <= y && y + 80 * r < Cursor(s) ==>
      ScreenCell(f, y) == if y / 80 + r < top then Cell(SPACE, color) else ScreenCell(s, y + 80 * r)
  }

  lemma ScrolledAt(s: Screen, f: Screen, r: nat, top: nat, color: int, x: int)
    requires Scrolled(s, f, r, top, color) && r <= top && 80 * top <= x < Cursor(s)
    ensures x - 80 * r >= 0 && ScreenCell(f, x - 80 * r) == ScreenCell(s, x)
  {
    RowsDown(x - 80 * r, r);
    assert (x - 80 * r) + 80 * r == x;
  }

  lemma RowsDown(y: int, r: int)
    ensures (y + 80 * r) / 80 == y / 80 + r && (y + 80 * r) % 80 == y % 80
  {
  }

  lemma ViewCell(t: Tape, y: nat)
    requires GoodTape(t) && y < 2000
    ensures WellFormed(View(t)) && ScreenCell(View(t), y) == CellAt(t, y + 80 * Depth(t))
  {
    RowsDown(y, Depth(t));
  }

  lemma ScrolledFromTape(s: Screen, u: Tape, color: int)
    requires WellFormed(s) && s.col <= BUFFER_WIDTH && GoodTape(u)
    requires Protected(TapeOf(s), u, Cursor(s), color)
    ensures WellFormed(View(u)) && Scrolled(s, View(u), Depth(u), u.gone, color)
  {
    var f, r := View(u), Depth(u);
    assert s.rows[0..] == s.rows;
    forall y | 0 <= y && y + 80 * r < Cursor(s)
      ensures ScreenCell(f, y) == if y / 80 + r < u.gone then Cell(SPACE, color) else ScreenCell(s, y + 80 * r)
    {
      ViewCell(u, y);
      ViewCell(TapeOf(s), y + 80 * r);
      RowsDown(y, r);
      assert FadesAt(TapeOf(s), y + 80 * r, color);
    }
  }

  /** What the desk of a run, begun on a fresh line, says about the screen. */
  lemma LineFromDesk(e: Editor, d: Desk, f: Editor, r: int, top: int, st: Style)
    requires FreshLine(e) && Good(d, f, st) && Kept(DeskOf(e), d, st) && Depth(d.tape) == r && d.tape.gone == top
    ensures 0 <= r <= top && f.screen.col <= BUFFER_WIDTH
    ensures Cursor(f.screen) + 80 * r >= Cursor(e.screen) + f.count
    ensures Scrolled(e.screen, f.screen, r, top, st.color)
  {
    ScrolledFromTape(e.screen, d.tape, st.color);
  }

  /**
    From a fresh line on, over every run of keys and output: the cursor stays at least `count`
    cells after where it was, and every cell that was before it is found where scrolling has
    taken it, unchanged, or blank if it was ever scrolled off the screen.
  */
  lemma LineProtected(e: Editor, evs: seq<ShellEvent>, k: nat, st: Style)
    requires FreshLine(e) && GoodEvents(evs) && k <= |evs|
    ensures 0 <= Risen(e, evs, k, st) <= Peak(e, evs, k, st)
    ensures var f, r := EditorAt(e, evs, k, st), Risen(e, evs, k, st);
            && f.screen.col <= BUFFER_WIDTH
            && Cursor(f.screen) + 80 * r >= Cursor(e.screen) + f.count
            && Scrolled(e.screen, f.screen, r, Peak(e, evs, k, st), st.color)
  {
    DeskOfGood(e, st);
    PromptProtection(DeskOf(e), e, evs, k, st);
    GoneIsPeak(DeskOf(e), e, evs, k, st);
    LineFromDesk(e, DeskAt(DeskOf(e), evs, k, st), EditorAt(e, evs, k, st),
                 Risen(e, evs, k, st), Peak(e, evs, k, st), st);
  }

  /** A backspace that erases does so after the fresh line's start, and takes back only a row that is after it too. */
  lemma BackspaceStaysAfterPrompt(e: Editor, evs: seq<ShellEvent>, k: nat, st: Style)
    requires FreshLine(e) && GoodEvents(evs) && k <= |evs| && EditorAt(e, evs, k, st).count > 0
    ensures var f, r := EditorAt(e, evs, k, st), Risen(e, evs, k, st);
            var g := Pressed(f, Unicode(BACKSPACE), st);
            && Cursor(g.screen) + 80 * (r + RisePressed(f, Unicode(BACKSPACE), st)) == Cursor(f.screen) + 80 * r - 1
            && Cursor(f.screen) + 80 * r - 1 >= Cursor(e.screen)
            && (f.screen.col == 0 ==> 80 * (LAST + r) > Cursor(e.screen))
  {
    LineProtected(e, evs, k, st);
  }

  // ----- The prompt -----

  /** Where cell `j` of the prompt is when the cursor is at its end. */
  function PromptAt(s: Screen, st: Style, j: int): int {
    Cursor(s) - |st.prompt| + j
  }

  predicate ShowsPrompt(s: Screen, st: Style, j: nat)
    requires j < |st.prompt|
  {
    PromptAt(s, st, j) >= 0 ==> ScreenCell(s, PromptAt(s, st, j)) == st.prompt[j]
  }

  /** The cells just before the cursor are the prompt, as far as they are on the screen. */
  ghost predicate Prompted(s: Screen, st: Style) {
    forall j :: 0 <= j < |st.prompt| ==> ShowsPrompt(s, st, j)
  }

  /** `cells` stand from `start` on, as far as they have not left the screen. */
  ghost predicate Stands(t: Tape, start: int, cells: seq<Cell>) {
    forall j :: 0 <= j < |cells| && (start + j) / 80 >= t.gone ==> CellAt(t, start + j) == cells[j]
  }

  lemma StandsOneMore(u: Tape, v: Tape, start: int, cells: seq<Cell>, color: int)
    requires cells != [] && 0 <= start && Stands(u, start, cells[..|cells| - 1])
    requires Protected(u, v, start + |cells| - 1, color) && CellAt(v, start + |cells| - 1) == cells[|cells| - 1]
    ensures Stands(v, start, cells)
  {
  }

  lemma {:induction false} TypedAllStands(t: Tape, cells: seq<Cell>, color: int)
    requires GoodTape(t)
    ensures Stands(TypedAll(t, cells, color), Pos(t), cells)
    decreases |cells|
  {
    if cells != [] {
      var before := cells[..|cells| - 1];
      TypedAllProtects(t, before, color);
      TypedAllStands(t, before, color);
      TypedProtects(TypedAll(t, before, color), cells[|cells| - 1], color);
      StandsOneMore(TypedAll(t, before, color), TypedAll(t, cells, color), Pos(t), cells, color);
    }
  }

  lemma StandsOnView(u: Tape, start: int, cells: seq<Cell>, j: nat, y: int)
    requires GoodTape(u) && u.gone == Depth(u) && Stands(u, start, cells) && j < |cells|
    requires 0 <= y < 2000 && y + 80 * Depth(u) == start + j
    ensures ScreenCell(View(u), y) == cells[j]
  {
    ViewCell(u, y);
    RowsDown(y, Depth(u));
  }

  lemma PromptTyped(t: Tape, u: Tape, st: Style, j: nat)
    requires GoodTape(t) && t.gone == Depth(t) && u == TypedAll(t, st.prompt, st.color) && j < |st.prompt|
    ensures ShowsPrompt(View(u), st, j)
  {
    TypedAllProtects(t, st.prompt, st.color);
    TypedAllStands(t, st.prompt, st.color);
    TypedAllGone(t, st.prompt, st.color);
    var y := PromptAt(View(u), st, j);
    if y >= 0 {
      StandsOnView(u, Pos(t), st.prompt, j, y);
    }
  }

  lemma PromptPrinted(s: Screen, f: Screen, st: Style)
    requires WellFormed(s) && s.col <= BUFFER_WIDTH && f == PutCells(s, st.prompt, st.color)
    ensures f.col <= BUFFER_WIDTH && Prompted(f, st)
  {
    var t := TapeOf(s);
    TapeShows(s, st.prompt, st.color);
    forall j | 0 <= j < |st.prompt|
      ensures ShowsPrompt(f, st, j)
    {
      PromptTyped(t, TypedAll(t, st.prompt, st.color), st, j);
    }
  }

  lemma BegunFresh(e: Editor, show: bool, st: Style)
    requires Usable(e)
    ensures FreshLine(Begun(e, show, st))
  {
    if show {
      BegunPrompts(e, st);
    }
  }

  /** A line begun with its prompt is fresh, with the prompt before the cursor ... */
  lemma BegunPrompts(e: Editor, st: Style)
    requires Usable(e)
    ensures FreshLine(Begun(e, true, st)) && Prompted(Begun(e, true, st).screen, st)
  {
    LinedFormed(e.screen, st.color);
    PromptPrinted(NewLined(e.screen, st.color), Begun(e, true, st).screen, st);
  }

  /** ... and so is a shell just initialized, over any screen. */
  lemma InitPrompts(e: Editor, st: Style)
    requires FreshLine(e)
    ensures FreshLine(Initialized(e, st)) && Prompted(Initialized(e, st).screen, st)
  {
    LinedFormed(e.screen, st.color);
    var s := if e.screen.rows[LAST] == BlankRow(st.color) then e.screen else NewLined(e.screen, st.color);
    PromptPrinted(s, Initialized(e, st).screen, st);
  }

  /** Cell `j` of the prompt of `s`, if it was not among the first `top` rows, stands `r` rows further up in `f`. */
  predicate PromptMoved(s: Screen, f: Screen, r: int, top: int, st: Style, j: nat)
    requires j < |st.prompt|
  {
    var x := PromptAt(s, st, j);
    x >= 80 * top ==> x - 80 * r >= 0 && ScreenCell(f, x - 80 * r) == st.prompt[j]
  }

  lemma ScrolledPrompt(s: Screen, f: Screen, r: nat, top: nat, st: Style, j: nat)
    requires Scrolled(s, f, r, top, st.color) && r <= top && Prompted(s, st) && j < |st.prompt|
    ensures PromptMoved(s, f, r, top, st, j)
  {
    var x := PromptAt(s, st, j);
    if x >= 80 * top {
      ScrolledAt(s, f, r, top, st.color, x);
      assert ShowsPrompt(s, st, j);
    }
  }

  /** Over every run, the prompt's cells that never left the screen show the prompt, where scrolling has taken them. */
  lemma PromptOnScreen(e: Editor, evs: seq<ShellEvent>, k: nat, st: Style, j: nat)
    requires FreshLine(e) && Prompted(e.screen, st) && GoodEvents(evs) && k <= |evs| && j < |st.prompt|
    ensures PromptMoved(e.screen, EditorAt(e, evs, k, st).screen, Risen(e, evs, k, st), Peak(e, evs, k, st), st, j)
  {
    LineProtected(e, evs, k, st);
    ScrolledPrompt(e.screen, EditorAt(e, evs, k, st).screen, Risen(e, evs, k, st), Peak(e, evs, k, st), st, j);
  }

  /** In particular for every run of a shell that was initialized, over any screen. */
  lemma InitializedShellProtectsPrompt(e: Editor, e0: Editor, evs: seq<ShellEvent>, k: nat, st: Style, j: nat)
    requires FreshLine(e) && e0 == Initialized(e, st) && GoodEvents(evs) && k <= |evs| && j < |st.prompt|
    ensures var f, r, top := EditorAt(e0, evs, k, st), Risen(e0, evs, k, st), Peak(e0, evs, k, st);
            && Scrolled(e0.screen, f.screen, r, top, st.color)
            && PromptMoved(e0.screen, f.screen, r, top, st, j)
            && Cursor(f.screen) + 80 * r >= Cursor(e0.screen) + f.count
  {
    InitPrompts(e, st);
    LineProtected(e0, evs, k, st);
    PromptOnScreen(e0, evs, k, st, j);
  }

  // ----- Lines begun inside one output -----

  lemma {:induction false} PrintedJoined(e: Editor, a: seq<int>, b: seq<int>, st: Style)
    requires Usable(e)
    ensures Printed(e, a + b, st) == Printed(Printed(e, a, st), b, st)
    decreases |a|
  {
    if a == [] {
      assert a + b == b;
    } else {
      assert (a + b)[1..] == a[1..] + b;
      PrintedJoined(PrintedByte(e, a[0], st), a[1..], b, st);
    }
  }

  lemma {:induction false} PrintedCellsJoined(e: Editor, a: seq<Cell>, b: seq<Cell>, st: Style)
    requires Usable(e)
    ensures PrintedCells(e, a + b, st) == PrintedCells(PrintedCells(e, a, st), b, st)
    decreases |a|
  {
    if a == [] {
      assert a + b == b;
    } else {
      assert (a + b)[1..] == a[1..] + b;
      PrintedCellsJoined(PrintedCell(e, a[0], st), a[1..], b, st);
    }
  }

  /** Two ways to begin that lead to the same editor lead to the same run. */
  lemma {:induction false} SameAfterFirst(e: Editor, f: Editor, x: ShellEvent, y: ShellEvent, evs: seq<ShellEvent>,
                                          k: nat, st: Style)
    requires Usable(e) && Usable(f) && EditorStep(e, x, st) == EditorStep(f, y, st) && k <= |evs|
    ensures EditorAt(e, [x] + evs, k + 1, st) == EditorAt(f, [y] + evs, k + 1, st)
  {
    if k != 0 {
      SameAfterFirst(e, f, x, y, evs, k - 1, st);
    }
  }

  /**
    A newline in the middle of an output begins a line like any other: the run goes on as if the
    rest of the output were the first event of that line, so all that is said of lines holds.
  */
  lemma LineInsidePrint(e: Editor, a: seq<int>, b: seq<int>, line: Editor, evs: seq<ShellEvent>, k: nat, st: Style)
    requires Usable(e) && line == Begun(Printed(e, a, st), Printed(e, a, st).enabled, st) && k <= |evs|
    ensures FreshLine(line)
    ensures EditorAt(e, [Print(a + ([NEWLINE] + b))] + evs, k + 1, st) == EditorAt(line, [Print(b)] + evs, k + 1, st)
  {
    BegunFresh(Printed(e, a, st), Printed(e, a, st).enabled, st);
    PrintedJoined(e, a, [NEWLINE] + b, st);
    assert ([NEWLINE] + b)[1..] == b;
    SameAfterFirst(e, line, Print(a + ([NEWLINE] + b)), Print(b), evs, k, st);
  }

  lemma LineInsideColored(e: Editor, a: seq<Cell>, c: Cell, b: seq<Cell>, line: Editor, evs: seq<ShellEvent>, k: nat,
                          st: Style)
    requires Usable(e) && c.ch == NEWLINE && line == Begun(PrintedCells(e, a, st), true, st) && k <= |evs|
    ensures FreshLine(line) && Prompted(line.screen, st)
    ensures EditorAt(e, [PrintColored(a + ([c] + b))] + evs, k + 1, st)
         == EditorAt(line, [PrintColored(b)] + evs, k + 1, st)
  {
    BegunPrompts(PrintedCells(e, a, st), st);
    PrintedCellsJoined(e, a, [c] + b, st);
    assert ([c] + b)[1..] == b;
    SameAfterFirst(e, line, PrintColored(a + ([c] + b)), PrintColored(b), evs, k, st);
  }
}
