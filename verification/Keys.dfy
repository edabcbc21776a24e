/** What each key and each output of the shell does to the screen and to the count of erasable characters. */
module Keys {
  import opened Screens
  import opened Shells
  import opened ShellRuns
  import opened Prompts

  /** `f` is `e` with one character erased: the cursor one cell back, that cell blank, all others as they were. */
  ghost predicate OneErased(e: Editor, f: Editor, color: int)
    requires Usable(e) && Usable(f) && e.screen.col <= 80
  {
    var col := if e.screen.col == 0 then 79 else e.screen.col - 1;
    && f == e.(screen := f.screen, count := f.count) && f.count == e.count - 1
    && f.screen.col == col && f.screen.rows[24][col] == Cell(0x20, color)
    && (forall r, c :: 0 <= r < 25 && 0 <= c < 80 && (r != 24 || c != col) ==>
          f.screen.rows[r][c] == if e.screen.col > 0 then e.screen.rows[r][c]
                                 else if r == 0 then Cell(0x20, color) else e.screen.rows[r - 1][c])
  }

  /** Backspace, character 8: nothing without something to erase; at the left edge back into the row above. */
  lemma BackspaceKey(e: Editor, st: Style)
    requires Usable(e) && e.screen.col <= 80
    ensures e.count == 0 ==> Pressed(e, Unicode([8]), st) == e
    ensures e.count > 0 ==> OneErased(e, Pressed(e, Unicode([8]), st), st.color)
  {
  }

  /** The raw backspace key does the same, except at the left edge, where it only counts. */
  lemma RawBackspaceKey(e: Editor, st: Style)
    requires Usable(e) && e.screen.col <= 80
    ensures e.count == 0 ==> Pressed(e, RawBackspace, st) == e
    ensures e.count > 0 && e.screen.col == 0 ==> Pressed(e, RawBackspace, st) == e.(count := e.count - 1)
    ensures e.count > 0 && e.screen.col > 0 ==> OneErased(e, Pressed(e, RawBackspace, st), st.color)
  {
    BackspaceKey(e, st);
    if e.screen.col > 0 {
      RawIsErased(e.screen, st.color);
    }
  }

  /** `f` is `e` with a line begun: all rows one up, a blank row, and in it `lead` from its start, if it fits. */
  ghost predicate LineBegun(e: Editor, f: Editor, lead: seq<Cell>, color: int)
    requires Usable(e) && Usable(f)
  {
    && f.count == 0 && f.enabled == e.enabled
    && (|lead| <= 80 ==>
          && f.screen.col == |lead|
          && (forall r, c :: 0 <= r < 24 && 0 <= c < 80 ==> f.screen.rows[r][c] == e.screen.rows[r + 1][c])
          && (forall c :: 0 <= c < 80 ==>
                f.screen.rows[24][c] == if c < |lead| then lead[c] else Cell(0x20, color)))
  }

  lemma {:induction false} CellsInRow(s: Screen, cells: seq<Cell>, color: int)
    requires WellFormed(s) && s.col + |cells| <= 80
    ensures var t := PutCells(s, cells, color);
            && t.col == s.col + |cells| && t.rows[..24] == s.rows[..24]
            && (forall c :: 0 <= c < 80 ==>
                  t.rows[24][c] == if s.col <= c < s.col + |cells| then cells[c - s.col] else s.rows[24][c])
    decreases |cells|
  {
    if cells != [] {
      CellsInRow(Put(s, cells[0], color), cells[1..], color);
    }
  }

  lemma BegunLaw(e: Editor, show: bool, st: Style)
    requires Usable(e)
    ensures LineBegun(e, Begun(e, show, st), if show then st.prompt else [], st.color)
  {
    LinedFormed(e.screen, st.color);
    BegunScreen(e, show, st);
    var s, lead := NewLined(e.screen, st.color), Lead(show, st);
    if |lead| <= 80 {
      CellsInRow(s, lead, st.color);
      forall r, c | 0 <= r < 24 && 0 <= c < 80
        ensures Begun(e, show, st).screen.rows[r][c] == e.screen.rows[r + 1][c]
      {
        assert PutCells(s, lead, st.color).rows[..24][r] == s.rows[..24][r];
      }
    }
  }

  /** Enter, character 10, begins a line, with the prompt if it is enabled. */
  lemma EnterKey(e: Editor, st: Style)
    requires Usable(e)
    ensures LineBegun(e, Pressed(e, Unicode([10]), st), if e.enabled then st.prompt else [], st.color)
  {
    BegunLaw(e, e.enabled, st);
  }

  /** Any other character, and any other key, is written as text and counts as one. */
  lemma CharacterKey(e: Editor, text: seq<int>, st: Style)
    requires Usable(e)
    ensures Pressed(e, RawKey(text), st)
         == e.(screen := PutString(e.screen, text, st.color), count := e.count + 1)
    ensures text != [8] && text != [10] ==> Pressed(e, Unicode(text), st) == Pressed(e, RawKey(text), st)
  {
  }

  /** Output without a newline is written as text and leaves the count alone; ... */
  lemma {:induction false} OutputIsText(e: Editor, text: seq<int>, st: Style)
    requires Usable(e) && 10 !in text
    ensures Printed(e, text, st) == e.(screen := PutString(e.screen, text, st.color))
    decreases |text|
  {
    if text != [] {
      OutputIsText(PrintedByte(e, text[0], st), text[1..], st);
    }
  }

  /** ... a newline in it begins a line as enter does. */
  lemma OutputNewline(e: Editor, st: Style)
    requires Usable(e)
    ensures LineBegun(e, Printed(e, [10], st), if e.enabled then st.prompt else [], st.color)
  {
    BegunLaw(e, e.enabled, st);
  }

  /** Colored output: printable cells as they are, others as 0xfe, and newlines with the prompt, enabled or not. */
  lemma ColoredOutput(e: Editor, c: Cell, st: Style)
    requires Usable(e) && e.screen.col <= 80
    ensures var f := PrintedCells(e, [c], st);
            if c.ch == 10 then LineBegun(e, f, st.prompt, st.color)
            else
              && f.count == e.count && f.enabled == e.enabled
              && f.screen == Put(e.screen, if 0x20 <= c.ch <= 0x7e then c else Cell(0xfe, st.color), st.color)
              && f.screen.rows[24][if e.screen.col == 80 then 0 else e.screen.col]
                 == if 0x20 <= c.ch <= 0x7e then c else Cell(0xfe, st.color)
  {
    BegunLaw(e, true, st);
    assert [c][1..] == [];
  }

  /** The shell's first prompt goes onto the current row if that is blank, and onto a new one otherwise. */
  lemma FirstPrompt(e: Editor, st: Style)
    requires Usable(e)
    ensures WellFormed(NewLined(e.screen, st.color))
    ensures var s := if forall c :: 0 <= c < 80 ==> e.screen.rows[24][c] == Cell(0x20, st.color) then e.screen
                     else NewLined(e.screen, st.color);
            Initialized(e, st) == e.(screen := PutCells(s, st.prompt, st.color))
  {
    LinedFormed(e.screen, st.color);
    if forall c :: 0 <= c < 80 ==> e.screen.rows[24][c] == Cell(0x20, st.color) {
      assert e.screen.rows[24] == BlankRow(st.color);
    }
  }
}
