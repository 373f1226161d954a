# ConchPad editor front end, modelled in Dafny

ConchPad is a small terminal text editor in C (`src/main.c`). This project
models its editor front end as pure functions, with proofs about them.

- **Key reader** (`editorReadKey`): a bounded state machine that turns the
  bytes available on the terminal into one key code. A byte other than ESC
  is returned unchanged. After ESC, up to three more bytes are looked at.
  Missing bytes, or a sequence the reader does not recognise, give a bare ESC.
- **Cursor state machine** (`editorCursorMove`, `editorProcessKeypress`):
  the record `{cx, cy, screenrows, screencols}` updated per key, with the
  program's clamping. Ctrl-Q (`CTRL_KEY('q') == 0x11`) becomes a `Quit`
  outcome.
- **Append buffer** (`abAppend`): an append-only byte string plus a length
  field. A failed allocation leaves the buffer as it was.
- **Frame builder** (`editorDrawRows`, `editorScreenRefresh`): the exact
  bytes written by one screen refresh.

Modules: `Keys` (key codes, `CTRL_KEY`), `Decoder`, `Cursor`,
`AppendBuffer`, `Decimal` (the `%d` conversion) and `Render`.

Input bytes are integers 0..255. The frame is a `string` in which each
`char` stands for one byte.

The model follows the code as written, quirks included:

- The alternate Home/End encoding is recognised after the digit `0`, not
  the letter `O`.
- Down movement stops at `screencols - 1`.
- The line-erase sequence is `ESC [ k`, with a lower-case `k`.
- Page Up and Page Down run `screenrows` single steps and then fall through
  to the arrow case. That case passes the page key itself to
  `editorCursorMove`, which has no branch for it and does nothing. So a page
  key moves exactly `screenrows` steps, not one more.
  `Cursor.ProcessKeypress` states the resulting position in closed form.

## Model

| member | source | states |
|---|---|---|
| Keys.CtrlKey | src/main.c:25-28 | Masking with `0x1f` leaves the byte's value modulo 32, so the result is always below 32. |
| Keys.SpecialKeysUnambiguous | src/main.c:28-40 | The nine logical key codes are pairwise distinct and all at least 256, so none equals a byte. Ctrl-Q is 0x11, and it is not a logical key. |
| Decoder.ReadKey | src/main.c:119-177 | At least one byte is needed. It reads 1 to 4 bytes. After ESC with at least two more bytes available, it reads exactly 3 bytes, or 4 when the second and third are `[` and a digit and a fourth byte is available. This holds whether or not the sequence is recognised. A first byte other than ESC comes back unchanged and nothing more is read. ESC followed by fewer than two bytes gives ESC. So does `ESC [ digit` with no fourth byte. After ESC the result is always ESC or a logical key. |
| Decoder.DecodeSound | src/main.c:140-172 | Each entry of the independent key table decodes to its key, whatever bytes follow it. The reader consumes exactly that entry. |
| Decoder.DecodeComplete | src/main.c:129-176 | Whenever the reader returns a key other than ESC, the bytes it consumed are one of that key's table entries. Every other tail after ESC therefore gives ESC. |
| Decoder.DecodeUsesOnlyConsumed | src/main.c:129-176 | The key returned depends only on the bytes the reader consumed. |
| Decoder.EncodingsExactlyEncodable | src/main.c:30-40 | A key has table entries exactly when it is a byte other than ESC or one of the logical keys. ESC has no entry. |
| Decoder.Encode | src/main.c:140-172 | The canonical byte sequence for each key is one that the reader recognises for that key. |
| Decoder.DecodeStream | src/main.c:119-177 | Repeated key reads over a finite input, each starting where the previous one stopped. Each read yields one key and consumes at least one byte, so there are never more keys than bytes. The first key is the first read's key. |
| Decoder.StreamRoundTrip | src/main.c:119-177 | Feeding the bytes of any sequence of keystrokes without a bare Escape to repeated key reads gives back exactly those keystrokes. |
| Decoder.EscapeNotRoundTripped | src/main.c:129-165 | Why the round trip leaves out a bare Escape: the keystrokes Escape, `[`, `A` arrive as the bytes of an Up arrow and are read back as the single key ARROW_UP. |
| Decoder.CtrlQSwallowed | src/main.c:129-155 | The unrecognised sequence `ESC [ 2` followed by Ctrl-Q is read as one bare ESC. The Ctrl-Q is consumed as the fourth byte of the escape and never reaches the keypress handler. |
| Cursor.CursorMove | src/main.c:324-347 | Each key has a guard and a direction. Left moves `cx` down by 1 unless `cx == 0`. Right moves it up by 1 unless `cx == screencols - 1`. Up moves `cy` down by 1 unless `cy == 0`. Down moves it up by 1 unless `cy == screencols - 1`. In each case the state is unchanged exactly when the guard stops the move. A move changes one coordinate by exactly 1 and never the screen size. Non-arrow keys change nothing. A column on the screen stays on the screen, and the row never goes above 0. |
| Cursor.Steps | src/main.c:367-374 | `n` vertical steps equal one clamped jump of `n` rows: up to `max(0, cy - n)`, down to `min(screencols - 1, cy + n)` when the cursor starts at or above that bound. The column does not change. |
| Cursor.ProcessKeypress | src/main.c:350-383 | Only Ctrl-Q quits. Home sets `cx` to 0 and End sets it to `screencols - 1`, leaving `cy`. Arrows take one step. Page keys move the row by exactly `screenrows` clamped steps. Delete, ESC and all other unbound keys change nothing. A column on the screen stays on the screen. |
| Cursor.ProcessInput | src/main.c:350-353 | Reading a key and then handling it: byte 0x11 quits. A bare ESC, and every plain byte other than 0x11, leave the state unchanged. |
| Cursor.Run | src/main.c:404-407 | The main loop's keypress half over a finite sequence of keys; the `editorScreenRefresh` call on each pass is not part of it. No keys leave the state as it was. Without Ctrl-Q among the keys the loop never quits. The screen size never changes. |
| Cursor.RunQuitsIffCtrlQ | src/main.c:354-357 | Over any sequence of keys, the loop ends in Quit exactly when Ctrl-Q is among them. |
| Cursor.RunKeepsColumnOnScreen | src/main.c:324-383 | Over any sequence of keys, a column that starts on the screen stays on it, the row stays non-negative, and the screen size does not change. |
| Cursor.DownLeavesScreen | src/main.c:341-344 | As written, when the terminal is wider than it is tall, Down from the last screen row moves the cursor to row `screenrows`, which is not on the screen. |
| Cursor.CursorMoveCorrected | src/main.c:336-345 | Down is bounded by the row count: it moves `cy` down one row unless `cy == screenrows - 1`, and it stays put exactly then. A row on the screen stays on the screen, and so does a column. All other keys act as `CursorMove`. |
| AppendBuffer.AbAppend | src/main.c:235-246 | On failure the buffer is unchanged. On success the contents become the old contents followed by `s`, and the length grows by `|s|`. Either way a consistent length field stays consistent. |
| AppendBuffer.AppendAllKeepsOrder | src/main.c:235-246 | After any run of appends with any mix of allocation outcomes, the buffer is consistent. It holds its old contents followed by exactly the pieces whose append succeeded, in order. |
| Decimal.NatToDecimal | src/main.c:313 | A natural number prints as one or more digits with no leading zero. |
| Decimal.DecimalRoundTrip | src/main.c:313 | Parsing the printed digits gives back the number. |
| Decimal.IntToDecimal | src/main.c:313 | `%d` output starts with `-` exactly for negative numbers. The digits after the optional sign have no leading zero and parse back to the magnitude. |
| Render.WelcomeRow | src/main.c:264-281 | The banner is cut to `min(32, screencols)`. The padding is `(screencols - banner)/2`. When the padding is positive, the row is a tilde, `padding - 1` spaces, then the banner. The row fits the screen, and its right margin equals the padding or exceeds it by one. |
| Render.WelcomeScenario | src/main.c:259-284 | On an 80x24 terminal the banner is on row 8, after a tilde and 23 spaces. Every other row is a lone tilde. |
| Render.DrawPadding | src/main.c:272-279 | The padding step appends a tilde and then `padding - 1` spaces when the padding is positive, and nothing when it is zero. |
| Render.DrawWelcome | src/main.c:264-281 | The welcome branch appends exactly the welcome row: the padding, then the banner cut to the screen width. |
| Render.DrawLine | src/main.c:264-287 | A screen row is its text followed by the line-erase sequence. |
| Render.DrawRows | src/main.c:259-292 | The drawing loop appends the screen lines joined by CR LF, with no separator after the last line. |
| Render.ScreenRefresh | src/main.c:301-320 | The buffer written is exactly the frame: hide cursor, home, rows, cursor position, show cursor. |
| Render.FrameEnds | src/main.c:301-320 | The frame begins `ESC [ ? 25 l ESC [ H`. It ends `ESC [ (cy+1) ; (cx+1) H ESC [ ? 25 h`. |
| Render.FrameLineBreaks | src/main.c:286-291 | The frame holds exactly `screenrows - 1` carriage returns and `screenrows - 1` line feeds, or none for zero rows. So lines are separated by CR LF, with none after the last. |

## Left out

- Raw-mode terminal setup and restore (`enableRawMode`, `disableRawMode`, `atexit`): these set OS terminal attribute flags and install an exit hook. Nothing in them is computed.
- `read`, `write` and `ioctl` calls, `die` with `perror`, and `exit`: these are I/O. Decoder input is a finite sequence of available bytes, and a missing byte stands for a `read` that did not return one byte. The first read's retry loop becomes the requirement that at least one byte is available. The refresh returns its bytes instead of writing them. A quit is an outcome; the screen clear written before exiting is not modelled.
- `getWindowSize` and `getCursorPosition`: they depend on `ioctl`, on the terminal's reply and on libc's `sscanf`. The only local check, that the reply must start with `ESC [`, is not modelled. The screen extent is taken as given and non-negative.
- Decoder.ReadKey: a byte of 0x80 or above comes back as the unsigned value 0..255, although a signed `char` would return it negative.
- Cursor.CursorMove: `cx` and `cy` are unbounded integers, so the 32-bit overflow that repeated Down presses could reach past `screencols - 1` is not modelled.
- Render.DrawRows: every allocation during a refresh is taken to succeed. What a failed allocation drops is covered by `AppendBuffer.AppendAllKeepsOrder`.
- `abFree` and the `realloc`/`memcpy` storage handling: the buffer is a value. An append receives exactly the bytes to copy, which matches every call site, since each passes the length of the string it appends.
- Render.ScreenRefresh: `snprintf` into the 32-byte cursor buffer is modelled without truncation. Two 32-bit `%d` values and the surrounding bytes fit in the buffer.
- Cursor.Run: the main loop (`main`) is modelled as keypress handling over a finite sequence of keys. The frame drawn before each key is `Render.Frame` of the state at that point; it is not part of `Run`.

## Findings

| source | as written | input that shows it | evidently intended | confidence | as-written member | corrected member |
|---|---|---|---|---|---|---|
| src/main.c:342 | Down is allowed while `cy != screencols - 1` | `screenrows = 24`, `screencols = 80`, `cy = 23`: Down gives `cy = 24`, below the last screen row | bound Down by `screenrows - 1` | high (not executed) | Cursor.DownLeavesScreen | Cursor.CursorMoveCorrected |

`Cursor.CursorMove` and `Cursor.ProcessKeypress` keep the program's
behaviour so that they describe what it does. `Cursor.CursorMoveCorrected`
is the intended step, proved to keep the cursor row on the screen.
