/** The editor's cursor state and the keypress handler that moves it. */
module Cursor {
  import opened Keys
  import Decoder

  /** The editor configuration: cursor column and row and the terminal's
      extent. The cursor coordinates are signed, as in the program: End on a
      zero-width terminal puts the column at -1. */
  datatype Editor = Editor(cx: int, cy: int, screenrows: nat, screencols: nat)

  /** What a keypress leads to: a new state, or leaving the editor after the
      screen has been cleared. */
  datatype Outcome = Continue(editor: Editor) | Quit

  function Abs(x: int): nat { if x < 0 then -x else x }
  function Max(a: int, b: int): int { if a < b then b else a }
  function Min(a: int, b: int): int { if a < b then a else b }

  /** The cursor column is on the screen. */
  predicate ColumnOnScreen(e: Editor) {
    0 <= e.cx <= e.screencols - 1
  }

  /** The cursor row is on the screen. */
  predicate RowOnScreen(e: Editor) {
    0 <= e.cy <= e.screenrows - 1
  }

  /** A single cursor step for an arrow key; any other key is ignored. The
      downward step stops at the last column index, not the last row, as
      the program does. */
  function CursorMove(e: Editor, key: int): (r: Editor)
    ensures r.screenrows == e.screenrows && r.screencols == e.screencols
    ensures Abs(r.cx - e.cx) + Abs(r.cy - e.cy) <= 1
    ensures key !in ArrowKeys ==> r == e
    ensures key == ARROW_LEFT && e.cx == 0 ==> r == e
    ensures key == ARROW_UP && e.cy == 0 ==> r == e
    ensures key == ARROW_LEFT || key == ARROW_RIGHT ==> r.cy == e.cy
    ensures key == ARROW_UP || key == ARROW_DOWN ==> r.cx == e.cx
    ensures r != e ==> Abs(r.cx - e.cx) + Abs(r.cy - e.cy) == 1
    ensures key == ARROW_LEFT ==>
      (r == e <==> e.cx == 0) && (r != e ==> r.cx == e.cx - 1)
    ensures key == ARROW_RIGHT ==>
      (r == e <==> e.cx == e.screencols - 1) && (r != e ==> r.cx == e.cx + 1)
    ensures key == ARROW_UP ==>
      (r == e <==> e.cy == 0) && (r != e ==> r.cy == e.cy - 1)
    ensures key == ARROW_DOWN ==>
      (r == e <==> e.cy == e.screencols - 1) && (r != e ==> r.cy == e.cy + 1)
    ensures ColumnOnScreen(e) ==> ColumnOnScreen(r)
    ensures e.cy >= 0 ==> r.cy >= 0
  {
    if key == ARROW_LEFT then
      if e.cx != 0 then e.(cx := e.cx - 1) else e
    else if key == ARROW_RIGHT then
      if e.cx != e.screencols - 1 then e.(cx := e.cx + 1) else e
    else if key == ARROW_UP then
      if e.cy != 0 then e.(cy := e.cy - 1) else e
    else if key == ARROW_DOWN then
      if e.cy != e.screencols - 1 then e.(cy := e.cy + 1) else e
    else e
  }

  /** `n` single steps in one vertical direction, as the page keys' loop
      takes them; the result is the clamped jump of `n` rows. */
  function Steps(e: Editor, key: int, n: nat): (r: Editor)
    requires key == ARROW_UP || key == ARROW_DOWN
    ensures r.screenrows == e.screenrows && r.screencols == e.screencols
    ensures r.cx == e.cx
    ensures key == ARROW_UP ==>
      r.cy == (if e.cy >= 0 then Max(0, e.cy - n) else e.cy - n)
    ensures key == ARROW_DOWN ==>
      r.cy == (if e.cy <= e.screencols - 1 then Min(e.screencols - 1, e.cy + n)
               else e.cy + n)
    decreases n
  {
    if n == 0 then e else Steps(CursorMove(e, key), key, n - 1)
  }

  /** The keypress handler. Page Up and Page Down take `screenrows` steps
      and then fall through to the arrow case, which passes the page key on
      to `CursorMove`; that ignores it, so no extra step is taken. */
  function ProcessKeypress(e: Editor, key: int): (r: Outcome)
    ensures r.Quit? <==> key == QUIT_KEY
    ensures key == HOME_KEY ==> r == Continue(e.(cx := 0))
    ensures key == END_KEY ==> r == Continue(e.(cx := e.screencols - 1))
    ensures key in ArrowKeys ==> r == Continue(CursorMove(e, key))
    ensures key == PAGE_UP ==>
      r == Continue(e.(cy := if e.cy >= 0 then Max(0, e.cy - e.screenrows)
                              else e.cy - e.screenrows))
    ensures key == PAGE_DOWN ==>
      r == Continue(e.(cy := if e.cy <= e.screencols - 1
                              then Min(e.screencols - 1, e.cy + e.screenrows)
                              else e.cy + e.screenrows))
    ensures key != QUIT_KEY && key !in SpecialKeys - {DEL_KEY} ==>
      r == Continue(e)
    ensures r.Continue? ==>
      r.editor.screenrows == e.screenrows && r.editor.screencols == e.screencols
    ensures r.Continue? && ColumnOnScreen(e) ==> ColumnOnScreen(r.editor)
    ensures r.Continue? && e.cy >= 0 ==> r.editor.cy >= 0
  {
    if key == QUIT_KEY then Quit
    else if key == HOME_KEY then Continue(e.(cx := 0))
    else if key == END_KEY then Continue(e.(cx := e.screencols - 1))
    else if key == PAGE_UP || key == PAGE_DOWN then
      var paged := Steps(e, if key == PAGE_UP then ARROW_UP else ARROW_DOWN, e.screenrows);
      Continue(CursorMove(paged, key))
    else if key in ArrowKeys then Continue(CursorMove(e, key))
    else Continue(e)
  }

  /** One pass of the key handler on the bytes available: read a key, then
      act on it. */
  function ProcessInput(e: Editor, input: seq<Byte>): (r: Outcome)
    requires |input| >= 1
    ensures input[0] == QUIT_KEY ==> r == Quit
    ensures input[0] == ESC && |input| < 3 ==> r == Continue(e)
    ensures input[0] != ESC && input[0] != QUIT_KEY ==> r == Continue(e)
  {
    ProcessKeypress(e, Decoder.ReadKey(input).key)
  }

  /** The main loop fed a finite sequence of keys: each is handled in turn
      until one of them quits. */
  function Run(e: Editor, keys: seq<int>): (r: Outcome)
    ensures |keys| == 0 ==> r == Continue(e)
    ensures QUIT_KEY !in keys ==> r.Continue?
    ensures r.Continue? ==>
      r.editor.screenrows == e.screenrows && r.editor.screencols == e.screencols
    decreases |keys|
  {
    if |keys| == 0 then Continue(e)
    else match ProcessKeypress(e, keys[0])
      case Quit => Quit
      case Continue(next) => Run(next, keys[1..])
  }

  /** The loop ends in Quit exactly when Ctrl-Q is among the keys. */
  lemma {:induction false} RunQuitsIffCtrlQ(e: Editor, keys: seq<int>)
    ensures Run(e, keys).Quit? <==> QUIT_KEY in keys
    decreases |keys|
  {
    if |keys| > 0 {
      assert keys == [keys[0]] + keys[1..];
      match ProcessKeypress(e, keys[0])
      case Quit =>
      case Continue(next) => RunQuitsIffCtrlQ(next, keys[1..]);
    }
  }

  /** Whatever keys arrive, the terminal extent never changes, a cursor
      column on the screen stays on it and the row never goes above the
      top. */
  lemma {:induction false} RunKeepsColumnOnScreen(e: Editor, keys: seq<int>)
    requires ColumnOnScreen(e) && e.cy >= 0
    ensures Run(e, keys).Continue? ==>
      var f := Run(e, keys).editor;
      ColumnOnScreen(f) && f.cy >= 0
      && f.screenrows == e.screenrows && f.screencols == e.screencols
    decreases |keys|
  {
    if |keys| > 0 {
      match ProcessKeypress(e, keys[0])
      case Quit =>
      case Continue(next) => RunKeepsColumnOnScreen(next, keys[1..]);
    }
  }

  /** As written, the downward step is bounded by the column count: on a
      terminal wider than it is tall, Down from the last row moves the
      cursor to a row that is not on the screen. */
  lemma DownLeavesScreen(e: Editor)
    requires e.screenrows < e.screencols && e.cy == e.screenrows - 1
    ensures !RowOnScreen(CursorMove(e, ARROW_DOWN))
    ensures CursorMove(e, ARROW_DOWN).cy == e.screenrows
  {
  }

  /** The step the program evidently intends: Down stops at the last row. */
  function CursorMoveCorrected(e: Editor, key: int): (r: Editor)
    ensures r.screenrows == e.screenrows && r.screencols == e.screencols
    ensures Abs(r.cx - e.cx) + Abs(r.cy - e.cy) <= 1
    ensures key != ARROW_DOWN ==> r == CursorMove(e, key)
    ensures key == ARROW_DOWN ==>
      (r == e <==> e.cy == e.screenrows - 1) && (r != e ==> r == e.(cy := e.cy + 1))
    ensures RowOnScreen(e) ==> RowOnScreen(r)
    ensures ColumnOnScreen(e) ==> ColumnOnScreen(r)
  {
    if key == ARROW_DOWN then
      if e.cy != e.screenrows - 1 then e.(cy := e.cy + 1) else e
    else CursorMove(e, key)
  }
}
