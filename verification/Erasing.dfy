/** Typing characters and erasing them again. The shell counts characters, but the screen holds bytes. */
module Erasing {
  import opened Screens
  import opened Tapes
  import opened Shells
  import opened ShellRuns
  import opened Prompts

  // ----- Nothing is ever to the right of the cursor -----

  lemma AdvancedClear(t: Tape, color: int)
    requires GoodTape(t)
    ensures ClearRight(Advanced(t, color), color)
  {
  }

  lemma RubbedClear(t: Tape, color: int)
    requires GoodTape(t) && ClearRight(t, color)
    ensures ClearRight(Rubbed(t, color), color)
  {
  }

  /** The desk is in order, and its cursor has nothing to the right. */
  ghost predicate Clear(d: Desk, st: Style) {
    GoodTape(d.tape) && Forgotten(d.tape, st.color) && ClearRight(d.tape, st.color)
  }

  lemma BegunClear(d: Desk, show: bool, st: Style)
    requires Clear(d, st)
    ensures Clear(DeskBegun(d, show, st), st)
  {
    AdvancedGood(d.tape, st.color);
    AdvancedClear(d.tape, st.color);
    TypedAllKeeps(Advanced(d.tape, st.color), Lead(show, st), st.color);
  }

  lemma PressClear(d: Desk, key: Key, st: Style)
    requires Clear(d, st)
    ensures Clear(DeskPressed(d, key, st), st)
  {
    RubbedClear(d.tape, st.color);
    ForgottenKept(d.tape, Cell(SPACE, st.color), st.color);
    match key
    case RawBackspace =>
    case RawKey(name) => TypedAllKeeps(d.tape, Glyphs(name, st.color), st.color);
    case Unicode(utf8) =>
      BegunClear(d, d.enabled, st);
      TypedAllKeeps(d.tape, Glyphs(utf8, st.color), st.color);
  }

  lemma ShownClear(d: Desk, cell: Cell, st: Style)
    requires Clear(d, st)
    ensures Clear(DeskShown(d, cell, st), st)
  {
    ClearRightKept(d.tape, cell, st.color);
    ForgottenKept(d.tape, cell, st.color);
  }

  lemma {:induction false} PrintClear(d: Desk, text: seq<int>, st: Style)
    requires Clear(d, st)
    ensures Clear(DeskPrinted(d, text, st), st)
    decreases |text|
  {
    if text != [] {
      BegunClear(d, d.enabled, st);
      ShownClear(d, Cell(Glyph(text[0]), st.color), st);
      PrintClear(DeskPrintedByte(d, text[0], st), text[1..], st);
    }
  }

  lemma {:induction false} PrintColoredClear(d: Desk, cells: seq<Cell>, st: Style)
    requires Clear(d, st)
    ensures Clear(DeskPrintedCells(d, cells, st), st)
    decreases |cells|
  {
    if cells != [] {
      BegunClear(d, true, st);
      ShownClear(d, if 0x20 <= cells[0].ch <= 0x7e then cells[0] else Cell(UNPRINTABLE, st.color), st);
      PrintColoredClear(DeskPrintedCell(d, cells[0], st), cells[1..], st);
    }
  }

  lemma {:induction false} ClearAlways(d: Desk, evs: seq<ShellEvent>, k: nat, st: Style)
    requires Clear(d, st) && k <= |evs|
    ensures Clear(DeskAt(d, evs, k, st), st)
  {
    if k != 0 {
      ClearAlways(d, evs, k - 1, st);
      var d1 := DeskAt(d, evs, k - 1, st);
      match evs[k - 1]
      case Press(key) => PressClear(d1, key, st);
      case Print(text) => PrintClear(d1, text, st);
      case PrintColored(cells) => PrintColoredClear(d1, cells, st);
      case Enable(_) =>
    }
  }

  /** The cursor is on the row, and nothing is to its right. */
  ghost predicate Writable(e: Editor, st: Style) {
    Usable(e) && e.screen.col <= BUFFER_WIDTH && ClearFrom(e.screen.rows[LAST], e.screen.col, st.color)
  }

  lemma InitWritable(e: Editor, st: Style)
    requires FreshLine(e)
    ensures Writable(Initialized(e, st), st)
  {
    LinedFormed(e.screen, st.color);
    var s := if e.screen.rows[LAST] == BlankRow(st.color) then e.screen else NewLined(e.screen, st.color);
    TapeShows(s, st.prompt, st.color);
    TypedAllKeeps(TapeOf(s), st.prompt, st.color);
  }

  /** So it is in every run of an initialized shell: what follows applies at any point of it. */
  lemma AlwaysWritable(e: Editor, e0: Editor, evs: seq<ShellEvent>, k: nat, st: Style)
    requires FreshLine(e) && e0 == Initialized(e, st) && GoodEvents(evs) && k <= |evs|
    ensures Writable(EditorAt(e0, evs, k, st), st)
  {
    InitPrompts(e, st);
    InitWritable(e, st);
    DeskOfGood(e0, st);
    ClearAlways(DeskOf(e0), evs, k, st);
    PromptProtection(DeskOf(e0), e0, evs, k, st);
  }

  // ----- Typing and erasing -----

  /** Characters typed one after the other. */
  function TypedKeys(e: Editor, keys: seq<seq<int>>, st: Style): (r: Editor)
    requires Usable(e)
    ensures Usable(r)
  {
    if keys == [] then e else Pressed(TypedKeys(e, keys[..|keys| - 1], st), Unicode(keys[|keys| - 1]), st)
  }

  function Backspaced(e: Editor, n: nat, st: Style): (r: Editor)
    requires Usable(e)
    ensures Usable(r)
  {
    if n == 0 then e else Pressed(Backspaced(e, n - 1, st), Unicode(BACKSPACE), st)
  }

  /** A character: neither backspace nor enter, and encoded without a newline byte. */
  predicate IsCharacter(utf8: seq<int>) {
    utf8 != [] && utf8 != BACKSPACE && NEWLINE !in utf8
  }

  ghost predicate Characters(keys: seq<seq<int>>) {
    forall i :: 0 <= i < |keys| ==> IsCharacter(keys[i])
  }

  ghost predicate SingleBytes(keys: seq<seq<int>>) {
    forall i :: 0 <= i < |keys| ==> |keys[i]| == 1
  }

  /** The cells the characters take up. */
  function KeyCells(keys: seq<seq<int>>, color: int): (cells: seq<Cell>)
  {
    if keys == [] then [] else KeyCells(keys[..|keys| - 1], color) + Glyphs(keys[|keys| - 1], color)
  }

  lemma {:induction false} PutCellsJoined(s: Screen, a: seq<Cell>, b: seq<Cell>, color: int)
    requires WellFormed(s)
    ensures PutCells(s, a + b, color) == PutCells(PutCells(s, a, color), b, color)
    decreases |a|
  {
    if a == [] {
      assert a + b == b;
    } else {
      assert (a + b)[1..] == a[1..] + b;
      PutCellsJoined(Put(s, a[0], color), a[1..], b, color);
    }
  }

  lemma {:induction false} TypedKeysScreen(e: Editor, keys: seq<seq<int>>, st: Style)
    requires Usable(e) && Characters(keys)
    ensures TypedKeys(e, keys, st)
         == Editor(PutCells(e.screen, KeyCells(keys, st.color), st.color), e.count + |keys|, e.enabled)
  {
    if keys != [] {
      var n := |keys| - 1;
      TypedKeysScreen(e, keys[..n], st);
      var before := PutCells(e.screen, KeyCells(keys[..n], st.color), st.color);
      TextIsCells(before, keys[n], st.color);
      PutCellsJoined(e.screen, KeyCells(keys[..n], st.color), Glyphs(keys[n], st.color), st.color);
    }
  }

  lemma {:induction false} BackspacedScreen(e: Editor, n: nat, st: Style)
    requires Usable(e) && e.count >= n
    ensures Backspaced(e, n, st) == Editor(ErasedTimes(e.screen, n, st.color), e.count - n, e.enabled)
  {
    if n != 0 {
      BackspacedScreen(e, n - 1, st);
    }
  }

  lemma {:induction false} KeyCellsCount(keys: seq<seq<int>>, color: int)
    requires Characters(keys)
    ensures |KeyCells(keys, color)| >= |keys|
    ensures |KeyCells(keys, color)| == |keys| <==> SingleBytes(keys)
  {
    if keys != [] {
      var n := |keys| - 1;
      KeyCellsCount(keys[..n], color);
      assert keys == keys[..n] + [keys[n]];
    }
  }

  /**
    Typing `n >= 1` single-byte characters and then `n` backspaces restores the column, the count
    and every row that did not leave the screen; the rows that did are blank.
  */
  lemma TypeEraseRoundTrip(e: Editor, keys: seq<seq<int>>, st: Style)
    requires Writable(e, st) && e.screen.col < BUFFER_WIDTH
    requires keys != [] && Characters(keys) && SingleBytes(keys)
    ensures Backspaced(TypedKeys(e, keys, st), |keys|, st)
         == e.(screen := Screen(Blanked(e.screen.rows, Scrolls(e.screen.col, |keys|), st.color), e.screen.col))
  {
    ErasedKeysScreen(e, keys, st);
    KeyCellsCount(keys, st.color);
    TypeThenErase(e.screen, KeyCells(keys, st.color), st.color);
  }

  /** The bytes typed beyond one for each character. */
  function Surplus(keys: seq<seq<int>>): int {
    if keys == [] then 0 else Surplus(keys[..|keys| - 1]) + |keys[|keys| - 1]| - 1
  }

  lemma {:induction false} SurplusOfCells(keys: seq<seq<int>>, color: int)
    ensures |KeyCells(keys, color)| == |keys| + Surplus(keys)
  {
    if keys != [] {
      SurplusOfCells(keys[..|keys| - 1], color);
    }
  }

  /**
    Typing any characters and then as many backspaces: the count is back where it was, and the
    first `Surplus(keys)` bytes typed are still on the screen, with the cursor after them.
  */
  lemma EraseLeavesSurplus(e: Editor, keys: seq<seq<int>>, cells: seq<Cell>, final: Editor, st: Style)
    requires Writable(e, st) && keys != [] && Characters(keys)
    requires cells == KeyCells(keys, st.color) && final == Backspaced(TypedKeys(e, keys, st), |keys|, st)
    ensures |cells| == |keys| + Surplus(keys) && Surplus(keys) >= 0
    ensures final == e.(screen := Leftover(e.screen, cells, |keys|, st.color))
  {
    KeyCellsCount(keys, st.color);
    SurplusOfCells(keys, st.color);
    ErasedKeysScreen(e, keys, st);
    TypeThenEraseSome(e.screen, cells, |keys|, st.color);
  }

  lemma EraseLeavesColumn(e: Editor, keys: seq<seq<int>>, m: int, final: Editor, st: Style)
    requires Writable(e, st) && keys != [] && Characters(keys) && m == Surplus(keys)
    requires final == Backspaced(TypedKeys(e, keys, st), |keys|, st)
    ensures m >= 0 && final.screen.col == (e.screen.col + m) % 80
  {
    var cells := KeyCells(keys, st.color);
    EraseLeavesSurplus(e, keys, cells, final, st);
    LeftoverEditor(e, cells, |keys|, m, final, st.color);
  }

  lemma LeftoverEditor(e: Editor, cells: seq<Cell>, n: nat, m: nat, final: Editor, color: int)
    requires Usable(e) && |cells| == n + m && final == e.(screen := Leftover(e.screen, cells, n, color))
    ensures final.screen.col == (e.screen.col + m) % 80
  {
    LeftoverColumn(e.screen, cells, n, m, final.screen.col, color);
  }

  lemma LeftoverColumn(s: Screen, cells: seq<Cell>, n: nat, m: nat, col: nat, color: int)
    requires WellFormed(s) && |cells| == n + m && col == Leftover(s, cells, n, color).col
    ensures col == (s.col + m) % 80
  {
  }

  lemma ErasedKeysScreen(e: Editor, keys: seq<seq<int>>, st: Style)
    requires Usable(e) && Characters(keys)
    ensures Backspaced(TypedKeys(e, keys, st), |keys|, st)
         == e.(screen := ErasedTimes(PutCells(e.screen, KeyCells(keys, st.color), st.color), |keys|, st.color))
  {
    TypedKeysScreen(e, keys, st);
    BackspacedScreen(TypedKeys(e, keys, st), |keys|, st);
  }

  /** The tape of a screen after the characters were typed and as many cells erased. */
  function ErasedTape(s: Screen, keys: seq<seq<int>>, color: int): (t: Tape)
    requires WellFormed(s) && s.col <= BUFFER_WIDTH
    ensures GoodTape(t)
  {
    RubbedTimes(TypedAll(TapeOf(s), KeyCells(keys, color), color), |keys|, color)
  }

  /** That tape shows the screen of the shell ... */
  lemma ErasedTapeView(e: Editor, keys: seq<seq<int>>, st: Style)
    requires Usable(e) && e.screen.col <= BUFFER_WIDTH && Characters(keys)
    ensures View(ErasedTape(e.screen, keys, st.color)) == Backspaced(TypedKeys(e, keys, st), |keys|, st).screen
  {
    ErasedKeysScreen(e, keys, st);
    TapeShowsErased(e.screen, KeyCells(keys, st.color), |keys|, st.color);
  }

  /** ... and its cursor is `Surplus(keys)` cells further on. */
  lemma ErasedTapePosition(s: Screen, keys: seq<seq<int>>, color: int)
    requires WellFormed(s) && s.col <= BUFFER_WIDTH && ClearFrom(s.rows[LAST], s.col, color)
    requires keys != [] && Characters(keys)
    ensures Pos(ErasedTape(s, keys, color)) == Pos(TapeOf(s)) + Surplus(keys)
  {
    KeyCellsCount(keys, color);
    SurplusOfCells(keys, color);
    TapeRubsOut(s, KeyCells(keys, color), |keys|, color);
    RubsOutPosition(TapeOf(s), KeyCells(keys, color), |keys|, color);
  }

  /**
    A character of several bytes takes several cells but counts as one: the cursor is back where
    it was exactly when every character typed was a single byte.
  */
  lemma EraseReturnsIff(e: Editor, keys: seq<seq<int>>, t: Tape, st: Style)
    requires Writable(e, st) && keys != [] && Characters(keys) && t == ErasedTape(e.screen, keys, st.color)
    ensures View(t) == Backspaced(TypedKeys(e, keys, st), |keys|, st).screen
    ensures Pos(t) == Pos(TapeOf(e.screen)) <==> SingleBytes(keys)
  {
    ErasedTapeView(e, keys, st);
    ErasedTapePosition(e.screen, keys, st.color);
    SurplusIff(keys);
  }

  /** Its column alone is back exactly when the surplus bytes fill whole rows. */
  lemma ColumnReturnsIff(e: Editor, keys: seq<seq<int>>, m: int, final: Editor, st: Style)
    requires Writable(e, st) && e.screen.col < BUFFER_WIDTH && keys != [] && Characters(keys) && m == Surplus(keys)
    requires final == Backspaced(TypedKeys(e, keys, st), |keys|, st)
    ensures final.screen.col == e.screen.col <==> m % 80 == 0
  {
    EraseLeavesColumn(e, keys, m, final, st);
    SameResidue(e.screen.col, m);
  }

  lemma SurplusIff(keys: seq<seq<int>>)
    requires Characters(keys)
    ensures Surplus(keys) >= 0 && (Surplus(keys) == 0 <==> SingleBytes(keys))
  {
    KeyCellsCount(keys, 0);
    SurplusOfCells(keys, 0);
  }

  lemma SameResidue(c: int, m: int)
    requires 0 <= c && 0 <= m
    ensures c < 80 ==> ((c + m) % 80 == c <==> m % 80 == 0)
  {
  }

  /** The UTF-8 encoding of U+00E9, a letter on many keyboards. */
  const E_ACUTE := [0xC3, 0xA9]

  /** That letter and a backspace leave one unprintable cell behind, and the cursor after it. */
  lemma TwoByteCharacterStays(e: Editor, st: Style)
    requires Writable(e, st) && e.screen.col < BUFFER_WIDTH - 1
    ensures var final := Backspaced(TypedKeys(e, [E_ACUTE], st), 1, st);
            && final.count == e.count && final.screen.col == e.screen.col + 1
            && final.screen.rows[LAST] == e.screen.rows[LAST][e.screen.col := Cell(UNPRINTABLE, st.color)]
  {
    var keys, cell := [E_ACUTE], Cell(UNPRINTABLE, st.color);
    assert keys[..0] == [];
    assert KeyCells(keys, st.color) == [cell, cell];
    assert [cell, cell][..1] == [cell] && [cell][1..] == [];
    EraseLeavesSurplus(e, keys, [cell, cell], Backspaced(TypedKeys(e, keys, st), 1, st), st);
  }

  lemma {:induction false} SurplusOfAccents(n: nat)
    ensures Surplus(seq(n, _ => E_ACUTE)) == n
  {
    if n != 0 {
      SurplusOfAccents(n - 1);
      assert seq(n, _ => E_ACUTE)[..n - 1] == seq(n - 1, _ => E_ACUTE);
    }
  }

  /** Eighty of them bring the column back, but on another row: the screen alone does not tell. */
  lemma EightyAccentsReturnColumn(e: Editor, st: Style)
    requires Writable(e, st) && e.screen.col < BUFFER_WIDTH
    ensures var keys := seq(80, _ => E_ACUTE);
            && Backspaced(TypedKeys(e, keys, st), 80, st).screen.col == e.screen.col
            && Depth(ErasedTape(e.screen, keys, st.color)) == 1
  {
    var keys := seq(80, _ => E_ACUTE);
    SurplusOfAccents(80);
    assert Characters(keys);
    ColumnReturnsIff(e, keys, 80, Backspaced(TypedKeys(e, keys, st), 80, st), st);
    ErasedTapePosition(e.screen, keys, st.color);
  }
}
