/** The screen refresh: the exact bytes written for one frame. Every screen
    row shows a tilde, except the welcome row a third of the way down, which
    centres the version banner. */
module Render {
  import opened AppendBuffer
  import opened Decimal
  import opened Cursor

  const VERSION: string := "0.0.1"
  /** The banner as `snprintf` formats it; it fits the 80-byte buffer. */
  const WELCOME: string := "ConchPad editor -- version " + VERSION

  const HIDE_CURSOR: string := "\U{1b}[?25l"
  const CURSOR_HOME: string := "\U{1b}[H"
  /** The line-erase sequence as the program writes it, final letter in
      lower case. */
  const ERASE_LINE: string := "\U{1b}[k"
  const CRLF: string := "\r\n"
  const SHOW_CURSOR: string := "\U{1b}[?25h"

  /** Occurrences of `c` in `s`. */
  function Count(s: string, c: char): nat
    decreases |s|
  {
    if |s| == 0 then 0
    else Count(s[..|s| - 1], c) + (if s[|s| - 1] == c then 1 else 0)
  }

  /** `s` holds no carriage return and no line feed. */
  predicate NoBreaks(s: string) {
    Count(s, '\r') == 0 && Count(s, '\n') == 0
  }

  function Spaces(n: nat): (r: string)
    ensures |r| == n && forall i :: 0 <= i < n ==> r[i] == ' '
  {
    seq(n, _ => ' ')
  }

  /** The banner is 32 bytes long. */
  lemma BannerLength()
    ensures |WELCOME| == 32
  {
  }

  /** Banner bytes shown: the banner cut to the screen width. */
  function WelcomeLen(cols: nat): nat {
    if |WELCOME| > cols then cols else |WELCOME|
  }

  /** Blank cells on the left of the banner. */
  function Padding(cols: nat): nat {
    (cols - WelcomeLen(cols)) / 2
  }

  /** The welcome row: a tilde in the first padding cell, spaces in the
      rest, then the banner cut to the screen. */
  function WelcomeRow(cols: nat): (r: string)
    ensures |r| == Padding(cols) + WelcomeLen(cols) <= cols
    ensures WelcomeLen(cols) == (if cols < 32 then cols else 32)
    ensures r[Padding(cols)..] == WELCOME[..WelcomeLen(cols)]
    ensures Padding(cols) > 0 ==>
      r[0] == '~' && forall i :: 1 <= i < Padding(cols) ==> r[i] == ' '
    ensures cols - |r| == Padding(cols) || cols - |r| == Padding(cols) + 1
  {
    BannerLength();
    PadText(Padding(cols)) + WELCOME[..WelcomeLen(cols)]
  }

  /** The left margin of the welcome row: a tilde in its first cell and
      spaces in the rest. */
  function PadText(p: nat): (r: string)
    ensures |r| == p
  {
    if p > 0 then "~" + Spaces(p - 1) else ""
  }

  /** What screen row `y` shows before its line erase. */
  function RowText(e: Editor, y: int): string {
    if y == e.screenrows / 3 then WelcomeRow(e.screencols) else "~"
  }

  /** The screen lines, each ending with the line erase. */
  function Lines(e: Editor): (r: seq<string>)
    ensures |r| == e.screenrows
  {
    seq(e.screenrows, y => RowText(e, y) + ERASE_LINE)
  }

  /** On an 80 by 24 terminal the banner sits on row 8, after a tilde and
      23 spaces; every other row is a lone tilde. */
  lemma WelcomeScenario(e: Editor)
    requires e.screenrows == 24 && e.screencols == 80
    ensures Lines(e)[8] == "~" + Spaces(23) + WELCOME + ERASE_LINE
    ensures forall y :: 0 <= y < 24 && y != 8 ==> Lines(e)[y] == "~" + ERASE_LINE
  {
    assert WelcomeLen(80) == 32 && Padding(80) == 24;
    assert PadText(24) == "~" + Spaces(23);
    assert WELCOME[..32] == WELCOME;
    assert RowText(e, 8) == "~" + Spaces(23) + WELCOME;
  }

  /** `lines` separated by `sep`, with nothing after the last one. */
  function Join(lines: seq<string>, sep: string): string
    decreases |lines|
  {
    if |lines| == 0 then []
    else if |lines| == 1 then lines[0]
    else Join(lines[..|lines| - 1], sep) + sep + lines[|lines| - 1]
  }

  /** The cursor-position sequence for a 1-based row and column. */
  function CursorPosition(row: int, col: int): string {
    "\U{1b}[" + IntToDecimal(row) + ";" + IntToDecimal(col) + "H"
  }

  /** The whole frame: hide the cursor, go home, draw the rows, put the
      cursor at the editor's position, show it. */
  function Frame(e: Editor): string {
    HIDE_CURSOR + CURSOR_HOME + Join(Lines(e), CRLF)
    + CursorPosition(e.cy + 1, e.cx + 1) + SHOW_CURSOR
  }

  /** The padding loop: a tilde for the first padding cell, then one
      space per remaining cell. */
  method DrawPadding(total: nat, ab: ABuf) returns (r: ABuf)
    requires Valid(ab)
    ensures Valid(r)
    ensures r.b == ab.b + PadText(total)
  {
    var padding: nat := total;
    r := ab;
    if padding != 0 {
      r := AbAppend(r, "~", true);
      padding := padding - 1;
    }
    while padding > 0
      invariant Valid(r)
      invariant total == 0 ==> padding == 0 && r.b == ab.b
      invariant total > 0 ==>
        padding <= total - 1 && r.b == ab.b + "~" + Spaces(total - 1 - padding)
      decreases padding
    {
      assert Spaces(total - 1 - padding) + " " == Spaces(total - padding);
      r := AbAppend(r, " ", true);
      padding := padding - 1;
    }
    if total > 0 {
      Assoc(ab.b, "~", Spaces(total - 1));
    } else {
      assert ab.b + PadText(total) == ab.b;
    }
  }

  /** Draw the welcome row: the padding, then the banner cut to the screen
      width. */
  method DrawWelcome(cols: nat, ab: ABuf) returns (r: ABuf)
    requires Valid(ab)
    ensures Valid(r)
    ensures r.b == ab.b + WelcomeRow(cols)
  {
    var w := WelcomeLen(cols);
    r := DrawPadding(Padding(cols), ab);
    r := AbAppend(r, WELCOME[..w], true);
    Assoc(ab.b, PadText(Padding(cols)), WELCOME[..w]);
  }

  /** Draw screen row `y` and erase the rest of the line. */
  method DrawLine(e: Editor, y: nat, ab: ABuf) returns (r: ABuf)
    requires Valid(ab)
    ensures Valid(r)
    ensures r.b == ab.b + (RowText(e, y) + ERASE_LINE)
  {
    var text := RowText(e, y);
    if y == e.screenrows / 3 {
      r := DrawWelcome(e.screencols, ab);
    } else {
      r := AbAppend(ab, "~", true);
    }
    assert r.b == ab.b + text;
    r := AbAppend(r, ERASE_LINE, true);
    Assoc(ab.b, text, ERASE_LINE);
  }

  lemma Assoc(a: string, b: string, c: string)
    ensures a + b + c == a + (b + c)
  {
  }

  /** Draw the rows into the buffer, appending as the program does; every
      allocation is taken to succeed. */
  method DrawRows(e: Editor, ab: ABuf) returns (r: ABuf)
    requires Valid(ab)
    ensures Valid(r)
    ensures r.b == ab.b + Join(Lines(e), CRLF)
  {
    var lines := Lines(e);
    var n := e.screenrows;
    r := ab;
    var y := 0;
    while y < n
      invariant 0 <= y <= n
      invariant Valid(r)
      invariant r.b == ab.b + Join(lines[..y], CRLF) + (if 0 < y < n then CRLF else "")
    {
      r := DrawLine(e, y, r);
      JoinStep(ab.b, lines, y, CRLF);
      if y < n - 1 {
        r := AbAppend(r, CRLF, true);
      }
      y := y + 1;
    }
    assert lines[..y] == lines;
  }

  /** The loop's step: after the partial join and its pending separator,
      line `y` extends the join by one line. */
  lemma JoinStep(start: string, lines: seq<string>, y: nat, sep: string)
    requires y < |lines|
    ensures start + Join(lines[..y], sep) + (if 0 < y then sep else "") + lines[y]
      == start + Join(lines[..y + 1], sep)
  {
    JoinSnoc(lines, y, sep);
    if y == 0 {
      assert Join(lines[..0], sep) == [];
    }
  }

  /** Adding one more line to a join. */
  lemma JoinSnoc(lines: seq<string>, y: nat, sep: string)
    requires y < |lines|
    ensures Join(lines[..y + 1], sep)
      == (if y == 0 then lines[0] else Join(lines[..y], sep) + sep + lines[y])
  {
    assert lines[..y + 1][..y] == lines[..y];
  }

  /** One screen refresh: the bytes handed to the single `write`. */
  method ScreenRefresh(e: Editor) returns (out: string)
    ensures out == Frame(e)
  {
    var ab := ABUF_INIT;
    ab := AbAppend(ab, HIDE_CURSOR, true);
    ab := AbAppend(ab, CURSOR_HOME, true);
    ab := DrawRows(e, ab);
    ab := AbAppend(ab, CursorPosition(e.cy + 1, e.cx + 1), true);
    ab := AbAppend(ab, SHOW_CURSOR, true);
    out := ab.b[..ab.len];
  }

  lemma {:induction false} CountConcat(a: string, b: string, c: char)
    ensures Count(a + b, c) == Count(a, c) + Count(b, c)
    decreases |b|
  {
    if |b| > 0 {
      var b' := b[..|b| - 1];
      assert (a + b)[..|a + b| - 1] == a + b';
      assert (a + b)[|a + b| - 1] == b[|b| - 1];
      assert Count(a + b, c) == Count((a + b)[..|a + b| - 1], c)
        + (if (a + b)[|a + b| - 1] == c then 1 else 0);
      assert Count(b, c) == Count(b', c) + (if b[|b| - 1] == c then 1 else 0);
      CountConcat(a, b', c);
    } else {
      assert a + b == a;
    }
  }

  /** Joining lines without breaks puts exactly one separator's worth of
      each character between neighbours. */
  lemma {:induction false} CountJoin(lines: seq<string>, sep: string, c: char)
    requires forall i :: 0 <= i < |lines| ==> Count(lines[i], c) == 0
    ensures Count(Join(lines, sep), c) == (if |lines| == 0 then 0 else |lines| - 1) * Count(sep, c)
    decreases |lines|
  {
    if |lines| > 1 {
      var front := lines[..|lines| - 1];
      CountJoin(front, sep, c);
      CountConcat(Join(front, sep), sep, c);
      CountConcat(Join(front, sep) + sep, lines[|lines| - 1], c);
    }
  }

  lemma WelcomeNoBreaks()
    ensures forall n :: 0 <= n <= |WELCOME| ==> NoBreaks(WELCOME[..n])
  {
    assert forall i :: 0 <= i < |WELCOME| ==> ' ' <= WELCOME[i] <= '~';
    forall n | 0 <= n <= |WELCOME|
      ensures NoBreaks(WELCOME[..n])
    {
      NoBreaksByElements(WELCOME[..n]);
    }
  }

  lemma {:induction false} SpacesNoBreaks(n: nat)
    ensures NoBreaks(Spaces(n))
    decreases n
  {
    if n > 0 {
      assert Spaces(n)[..n - 1] == Spaces(n - 1);
      SpacesNoBreaks(n - 1);
    }
  }

  lemma LineNoBreaks(e: Editor, y: int)
    ensures NoBreaks(RowText(e, y) + ERASE_LINE)
  {
    var cols := e.screencols;
    WelcomeNoBreaks();
    SpacesNoBreaks(if Padding(cols) > 0 then Padding(cols) - 1 else 0);
    var head := PadText(Padding(cols));
    if Padding(cols) > 0 {
      CountConcat("~", Spaces(Padding(cols) - 1), '\r');
      CountConcat("~", Spaces(Padding(cols) - 1), '\n');
    }
    CountConcat(head, WELCOME[..WelcomeLen(cols)], '\r');
    CountConcat(head, WELCOME[..WelcomeLen(cols)], '\n');
    CountConcat(RowText(e, y), ERASE_LINE, '\r');
    CountConcat(RowText(e, y), ERASE_LINE, '\n');
  }

  lemma CursorPositionNoBreaks(row: int, col: int)
    ensures NoBreaks(CursorPosition(row, col) + SHOW_CURSOR)
  {
    var d1 := IntToDecimal(row);
    var d2 := IntToDecimal(col);
    var all := CursorPosition(row, col) + SHOW_CURSOR;
    assert forall i :: 0 <= i < |d1| ==> d1[i] == '-' || IsDigit(d1[i]);
    assert forall i :: 0 <= i < |d2| ==> d2[i] == '-' || IsDigit(d2[i]);
    assert all == "\U{1b}[" + d1 + ";" + d2 + "H" + SHOW_CURSOR;
    assert forall i :: 0 <= i < |all| ==> all[i] != '\r' && all[i] != '\n' by {
      forall i | 0 <= i < |all|
        ensures all[i] != '\r' && all[i] != '\n'
      {
        if i < 2 {
        } else if i < 2 + |d1| {
          assert all[i] == d1[i - 2];
        } else if i == 2 + |d1| {
        } else if i < 3 + |d1| + |d2| {
          assert all[i] == d2[i - 3 - |d1|];
        }
      }
    }
    NoBreaksByElements(all);
  }

  /** The drawn rows hold one CR LF between neighbouring lines. */
  lemma RowsBreaks(e: Editor)
    ensures Count(Join(Lines(e), CRLF), '\r') == (if e.screenrows == 0 then 0 else e.screenrows - 1)
    ensures Count(Join(Lines(e), CRLF), '\n') == (if e.screenrows == 0 then 0 else e.screenrows - 1)
  {
    var lines := Lines(e);
    forall i | 0 <= i < |lines|
      ensures NoBreaks(lines[i])
    {
      LineNoBreaks(e, i);
    }
    assert Count(CRLF, '\r') == 1 && Count(CRLF, '\n') == 1 by {
      assert CRLF[..1] == "\r";
      assert CRLF[..1][..0] == "";
    }
    CountJoin(lines, CRLF, '\r');
    CountJoin(lines, CRLF, '\n');
  }

  lemma HeadNoBreaks()
    ensures NoBreaks(HIDE_CURSOR + CURSOR_HOME)
  {
    var head := HIDE_CURSOR + CURSOR_HOME;
    assert forall i :: 0 <= i < |head| ==> head[i] != '\r' && head[i] != '\n';
    NoBreaksByElements(head);
  }

  /** Breaks and ends of a three-part string. */
  lemma ThreeParts(head: string, rows: string, tail: string)
    requires NoBreaks(head) && NoBreaks(tail)
    ensures (head + rows + tail)[..|head|] == head
    ensures (head + rows + tail)[|head + rows|..] == tail
    ensures Count(head + rows + tail, '\r') == Count(rows, '\r')
    ensures Count(head + rows + tail, '\n') == Count(rows, '\n')
  {
    CountConcat(head, rows, '\r');
    CountConcat(head, rows, '\n');
    CountConcat(head + rows, tail, '\r');
    CountConcat(head + rows, tail, '\n');
  }

  /** The frame begins by hiding the cursor and going home and ends by
      placing the cursor at the editor's position and showing it. */
  lemma FrameEnds(e: Editor)
    ensures Frame(e)[..9] == HIDE_CURSOR + CURSOR_HOME
    ensures var tail := CursorPosition(e.cy + 1, e.cx + 1) + SHOW_CURSOR;
      |Frame(e)| >= 9 + |tail| && Frame(e)[|Frame(e)| - |tail|..] == tail
  {
    var rows := Join(Lines(e), CRLF);
    var tail := CursorPosition(e.cy + 1, e.cx + 1) + SHOW_CURSOR;
    var head := HIDE_CURSOR + CURSOR_HOME;
    assert Frame(e) == head + rows + tail;
    Ends(head, rows, tail);
  }

  lemma Ends(head: string, rows: string, tail: string)
    ensures (head + rows + tail)[..|head|] == head
    ensures |head + rows + tail| >= |head| + |tail|
    ensures (head + rows + tail)[|head + rows + tail| - |tail|..] == tail
  {
  }

  /** The frame breaks the screen into `screenrows` lines: one CR LF between
      neighbours, none after the last and none anywhere else. */
  lemma FrameLineBreaks(e: Editor)
    ensures Count(Frame(e), '\r') == (if e.screenrows == 0 then 0 else e.screenrows - 1)
    ensures Count(Frame(e), '\n') == (if e.screenrows == 0 then 0 else e.screenrows - 1)
  {
    var rows := Join(Lines(e), CRLF);
    var tail := CursorPosition(e.cy + 1, e.cx + 1) + SHOW_CURSOR;
    var head := HIDE_CURSOR + CURSOR_HOME;
    assert Frame(e) == head + rows + tail;
    RowsBreaks(e);
    CursorPositionNoBreaks(e.cy + 1, e.cx + 1);
    HeadNoBreaks();
    ThreeParts(head, rows, tail);
  }

  lemma {:induction false} NoBreaksByElements(s: string)
    requires forall i :: 0 <= i < |s| ==> s[i] != '\r' && s[i] != '\n'
    ensures NoBreaks(s)
    decreases |s|
  {
    if |s| > 0 {
      NoBreaksByElements(s[..|s| - 1]);
    }
  }
}
