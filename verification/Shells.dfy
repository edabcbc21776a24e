/** The line editor of `shell.rs`: a prompt, a count of erasable characters, and the shared screen. */
module Shells {
  import opened Screens
  import opened Tapes

  const BACKSPACE := [8]
  const ENTER := [10]

  /** A decoded key: the raw backspace key, another raw key with its printed name, or a character in UTF-8. */
  datatype Key = RawBackspace | RawKey(name: seq<int>) | Unicode(utf8: seq<int>)

  /** The prompt, and the screen's own color. */
  datatype Style = Style(prompt: seq<Cell>, color: int)

  datatype Editor = Editor(screen: Screen, count: nat, enabled: bool)

  ghost predicate Usable(e: Editor) {
    WellFormed(e.screen)
  }

  /** A line is begun: a new row, and the prompt when `show` says so. */
  function Begun(e: Editor, show: bool, st: Style): (r: Editor)
    requires Usable(e)
    ensures Usable(r)
  {
    LinedFormed(e.screen, st.color);
    var s := NewLined(e.screen, st.color);
    e.(screen := if show then PutCells(s, st.prompt, st.color) else s, count := 0)
  }

  function Shown(e: Editor, cell: Cell, st: Style): (r: Editor)
    requires Usable(e)
    ensures Usable(r)
  {
    PutFormed(e.screen, cell, st.color);
    e.(screen := Put(e.screen, cell, st.color))
  }

  function PrintedByte(e: Editor, b: int, st: Style): (r: Editor)
    requires Usable(e)
    ensures Usable(r)
  {
    if b == NEWLINE then Begun(e, e.enabled, st) else Shown(e, Cell(Glyph(b), st.color), st)
  }

  function Printed(e: Editor, text: seq<int>, st: Style): (r: Editor)
    requires Usable(e)
    ensures Usable(r)
    decreases |text|
  {
    if text == [] then e else Printed(PrintedByte(e, text[0], st), text[1..], st)
  }

  /** Colored output shows the prompt on every new line, enabled or not. */
  function PrintedCell(e: Editor, c: Cell, st: Style): (r: Editor)
    requires Usable(e)
    ensures Usable(r)
  {
    if c.ch == NEWLINE then Begun(e, true, st)
    else Shown(e, if 0x20 <= c.ch <= 0x7e then c else Cell(UNPRINTABLE, st.color), st)
  }

  function PrintedCells(e: Editor, cells: seq<Cell>, st: Style): (r: Editor)
    requires Usable(e)
    ensures Usable(r)
    decreases |cells|
  {
    if cells == [] then e else PrintedCells(PrintedCell(e, cells[0], st), cells[1..], st)
  }

  /** The raw backspace erases within the row only. */
  function RawErased(s: Screen, color: int): (t: Screen)
    requires WellFormed(s)
    ensures WellFormed(t)
  {
    if s.col > 0 then
      PutFormed(s.(col := s.col - 1), Cell(SPACE, color), color);
      var t := Put(s.(col := s.col - 1), Cell(SPACE, color), color);
      t.(col := t.col - 1)
    else s
  }

  function Pressed(e: Editor, key: Key, st: Style): (r: Editor)
    requires Usable(e)
    ensures Usable(r)
  {
    match key
    case RawBackspace =>
      if e.count > 0 then e.(screen := RawErased(e.screen, st.color), count := e.count - 1) else e
    case RawKey(name) => e.(screen := PutString(e.screen, name, st.color), count := e.count + 1)
    case Unicode(utf8) =>
      ErasedFormed(e.screen, st.color);
      if utf8 == BACKSPACE then
        if e.count > 0 then e.(screen := Erased(e.screen, st.color), count := e.count - 1) else e
      else if utf8 == ENTER then Begun(e, e.enabled, st)
      else e.(screen := PutString(e.screen, utf8, st.color), count := e.count + 1)
  }

  /** `init`: the prompt, on a row of its own unless the current one is blank. */
  function Initialized(e: Editor, st: Style): (r: Editor)
    requires Usable(e)
    ensures Usable(r)
  {
    LinedFormed(e.screen, st.color);
    var s := if e.screen.rows[LAST] == BlankRow(st.color) then e.screen else NewLined(e.screen, st.color);
    e.(screen := PutCells(s, st.prompt, st.color))
  }

  class Shell {
    const writer: Writer
    const prompt: seq<Cell>
    var writtenCharCount: nat
    var promptEnabled: bool

    constructor (writer: Writer, prompt: seq<Cell>)
      ensures this.writer == writer && this.prompt == prompt && writtenCharCount == 0 && promptEnabled
    {
      this.writer, this.prompt, writtenCharCount, promptEnabled := writer, prompt, 0, true;
    }

    ghost function Look(): Style
      reads writer
    {
      Style(prompt, writer.color)
    }

    ghost function View(): (e: Editor)
      requires writer.Valid()
      reads this, writer, writer.chars
      ensures Usable(e)
    {
      Editor(writer.View(), writtenCharCount, promptEnabled)
    }

    method Init()
      requires writer.Valid()
      modifies writer`column, writer.chars
      ensures View() == Initialized(old(View()), Look())
    {
      var clear := writer.IsCurrentRowClear();
      if !clear {
        writer.NewLine();
      }
      writer.WriteColoredString(prompt);
    }

    method Newline()
      requires writer.Valid()
      modifies this`writtenCharCount, writer`column, writer.chars
      ensures View() == Begun(old(View()), promptEnabled, Look())
    {
      writer.NewLine();
      if promptEnabled {
        writer.WriteColoredString(prompt);
      }
      writtenCharCount := 0;
    }

    method Write(text: seq<int>)
      requires writer.Valid()
      modifies this`writtenCharCount, writer`column, writer.chars
      ensures View() == Printed(old(View()), text, Look())
    {
      for i := 0 to |text|
        invariant promptEnabled == old(promptEnabled)
        invariant Printed(View(), text[i..], Look()) == Printed(old(View()), text, Look())
      {
        if text[i] == NEWLINE {
          Newline();
        } else if 0x20 <= text[i] <= 0x7e {
          writer.WriteByte(text[i]);
        } else {
          writer.WriteByte(UNPRINTABLE);
        }
        assert text[i..][1..] == text[i + 1..];
      }
    }

    method WriteColored(cells: seq<Cell>)
      requires writer.Valid()
      modifies this`writtenCharCount, writer`column, writer.chars
      ensures View() == PrintedCells(old(View()), cells, Look())
    {
      for i := 0 to |cells|
        invariant promptEnabled == old(promptEnabled)
        invariant PrintedCells(View(), cells[i..], Look()) == PrintedCells(old(View()), cells, Look())
      {
        if cells[i].ch == NEWLINE {
          writer.NewLine();
          writer.WriteColoredString(prompt);
          writtenCharCount := 0;
        } else if 0x20 <= cells[i].ch <= 0x7e {
          writer.WriteByteColored(cells[i].ch, cells[i].color);
        } else {
          writer.WriteByte(UNPRINTABLE);
        }
        assert cells[i..][1..] == cells[i + 1..];
      }
    }

    method KeyEvent(key: Key)
      requires writer.Valid()
      modifies this`writtenCharCount, writer`column, writer.chars
      ensures View() == Pressed(old(View()), key, Look())
    {
      match key
      case RawBackspace =>
        if writtenCharCount > 0 {
          if writer.column > 0 {
            writer.column := writer.column - 1;
            writer.WriteByte(SPACE);
            writer.column := writer.column - 1;
          }
          writtenCharCount := writtenCharCount - 1;
        }
      case RawKey(name) =>
        writer.WriteString(name);
        writtenCharCount := writtenCharCount + 1;
      case Unicode(utf8) =>
        if utf8 == BACKSPACE {
          if writtenCharCount > 0 {
            EraseBack();
            writtenCharCount := writtenCharCount - 1;
          }
        } else if utf8 == ENTER {
          Newline();
        } else {
          writer.WriteString(utf8);
          writtenCharCount := writtenCharCount + 1;
        }
    }

    method EraseBack()
      requires writer.Valid()
      modifies writer`column, writer.chars
      ensures writer.View() == Erased(old(writer.View()), writer.color)
    {
      if writer.column > 0 {
        writer.column := writer.column - 1;
      } else {
        writer.OldLine();
        writer.column := BUFFER_WIDTH - 1;
      }
      assert writer.View() == SteppedBack(old(writer.View()), writer.color);
      var moved := writer.SetByteColored(SPACE, writer.color);
    }
  }
}
