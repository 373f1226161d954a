/** The input decoder: turns the bytes available on the terminal into one
    logical key, reassembling the escape sequences terminals send for the
    cursor and editing keys. Bytes that are not there are the same as a
    `read` that returns something other than one byte. */
module Decoder {
  import opened Keys

  /** A decoded key and the number of bytes the decoder read to get it. */
  datatype Decoded = Decoded(key: int, consumed: nat)

  const LBRACKET: Byte := '[' as int
  const TILDE: Byte := '~' as int
  const ZERO: Byte := '0' as int

  /** The key for `ESC [ d ~`; a digit without a binding gives ESC. */
  function TildeKey(d: Byte): int {
    if d == '1' as int || d == '7' as int then HOME_KEY
    else if d == '3' as int then DEL_KEY
    else if d == '4' as int || d == '8' as int then END_KEY
    else if d == '5' as int then PAGE_UP
    else if d == '6' as int then PAGE_DOWN
    else ESC
  }

  /** The key for `ESC [ c` where `c` is not a digit. */
  function BracketKey(c: Byte): int {
    if c == 'A' as int then ARROW_UP
    else if c == 'B' as int then ARROW_DOWN
    else if c == 'C' as int then ARROW_RIGHT
    else if c == 'D' as int then ARROW_LEFT
    else if c == 'H' as int then HOME_KEY
    else if c == 'F' as int then END_KEY
    else ESC
  }

  /** The key for the alternate encoding, which the program recognises after
      the digit zero (not the letter O). */
  function ZeroKey(c: Byte): int {
    if c == 'H' as int then HOME_KEY
    else if c == 'F' as int then END_KEY
    else ESC
  }

  /** One call of the key reader. The first byte is waited for, so at least
      one must be available; after ESC at most three more are looked at. */
  function ReadKey(input: seq<Byte>): (r: Decoded)
    requires |input| >= 1
    ensures 1 <= r.consumed <= |input| && r.consumed <= 4
    ensures input[0] != ESC ==> r == Decoded(input[0], 1)
    ensures input[0] == ESC ==> r.key == ESC || r.key in SpecialKeys
    ensures input[0] == ESC && |input| < 3 ==> r == Decoded(ESC, |input|)
    ensures (input[0] == ESC && |input| == 3 && input[1] == LBRACKET
             && ZERO <= input[2] <= '9' as int) ==> r == Decoded(ESC, 3)
    ensures input[0] == ESC && |input| >= 3 ==>
      r.consumed == (if input[1] == LBRACKET && ZERO <= input[2] <= '9' as int
                        && |input| >= 4 then 4 else 3)
  {
    if input[0] != ESC then Decoded(input[0], 1)
    else if |input| < 2 then Decoded(ESC, 1)
    else if |input| < 3 then Decoded(ESC, 2)
    else if input[1] == LBRACKET then
      if ZERO <= input[2] <= '9' as int then
        if |input| < 4 then Decoded(ESC, 3)
        else if input[3] == TILDE then Decoded(TildeKey(input[2]), 4)
        else Decoded(ESC, 4)
      else Decoded(BracketKey(input[2]), 3)
    else if input[1] == ZERO then Decoded(ZeroKey(input[2]), 3)
    else Decoded(ESC, 3)
  }

  /** Every byte sequence the decoder maps to key `k`, written out as a
      table independent of the decoder's branch structure. ESC itself has no
      entry: a bare ESC is also what every unrecognised sequence gives. */
  function Encodings(k: int): set<seq<Byte>> {
    if 0 <= k < 256 && k != ESC then {[k]}
    else if k == ARROW_UP then {[ESC, LBRACKET, 'A' as int]}
    else if k == ARROW_DOWN then {[ESC, LBRACKET, 'B' as int]}
    else if k == ARROW_RIGHT then {[ESC, LBRACKET, 'C' as int]}
    else if k == ARROW_LEFT then {[ESC, LBRACKET, 'D' as int]}
    else if k == HOME_KEY then
      {[ESC, LBRACKET, '1' as int, TILDE], [ESC, LBRACKET, '7' as int, TILDE],
       [ESC, LBRACKET, 'H' as int], [ESC, ZERO, 'H' as int]}
    else if k == END_KEY then
      {[ESC, LBRACKET, '4' as int, TILDE], [ESC, LBRACKET, '8' as int, TILDE],
       [ESC, LBRACKET, 'F' as int], [ESC, ZERO, 'F' as int]}
    else if k == DEL_KEY then {[ESC, LBRACKET, '3' as int, TILDE]}
    else if k == PAGE_UP then {[ESC, LBRACKET, '5' as int, TILDE]}
    else if k == PAGE_DOWN then {[ESC, LBRACKET, '6' as int, TILDE]}
    else {}
  }

  /** A key that some byte sequence decodes to unambiguously. */
  predicate Encodable(k: int) {
    (0 <= k < 256 && k != ESC) || k in SpecialKeys
  }

  /** A sequence in the table decodes to its key, whatever follows it, and
      the decoder reads exactly that sequence. */
  lemma DecodeSound(k: int, p: seq<Byte>, rest: seq<Byte>)
    requires p in Encodings(k)
    ensures |p| >= 1 && ReadKey(p + rest) == Decoded(k, |p|)
  {
    var s := p + rest;
    assert s[..|p|] == p;
  }

  /** Conversely, whenever the decoder reports a key other than ESC, the
      bytes it read are one of that key's table entries. Together with
      `DecodeSound` this says that every other tail after ESC gives ESC. */
  lemma DecodeComplete(input: seq<Byte>)
    requires |input| >= 1
    ensures ReadKey(input).key != ESC ==>
      input[..ReadKey(input).consumed] in Encodings(ReadKey(input).key)
  {
    var r := ReadKey(input);
    if r.key != ESC {
      var p := input[..r.consumed];
      if r.consumed == 1 {
        assert p == [input[0]];
      } else if r.consumed == 3 {
        assert p == [input[0], input[1], input[2]];
      } else {
        assert p == [input[0], input[1], input[2], input[3]];
      }
    }
  }

  /** The decoder's answer depends only on the bytes it read. */
  lemma DecodeUsesOnlyConsumed(input: seq<Byte>)
    requires |input| >= 1
    ensures ReadKey(input[..ReadKey(input).consumed]) == ReadKey(input)
  {
  }

  /** The table and the decoder agree on which keys exist. */
  lemma EncodingsExactlyEncodable(k: int)
    ensures Encodings(k) != {} <==> Encodable(k)
    ensures ESC !in SpecialKeys && Encodings(ESC) == {}
  {
    if Encodable(k) {
      if 0 <= k < 256 && k != ESC {
        assert [k] in Encodings(k);
      } else {
        assert Encode(k) in Encodings(k);
      }
    }
  }

  /** The canonical bytes for a key: the byte itself, or the sequence a
      VT100-style terminal sends for that key. */
  function Encode(k: int): (r: seq<Byte>)
    requires Encodable(k)
    ensures r in Encodings(k)
  {
    if 0 <= k < 256 && k != ESC then [k]
    else if k == ARROW_UP then [ESC, LBRACKET, 'A' as int]
    else if k == ARROW_DOWN then [ESC, LBRACKET, 'B' as int]
    else if k == ARROW_RIGHT then [ESC, LBRACKET, 'C' as int]
    else if k == ARROW_LEFT then [ESC, LBRACKET, 'D' as int]
    else if k == HOME_KEY then [ESC, LBRACKET, '1' as int, TILDE]
    else if k == END_KEY then [ESC, LBRACKET, '4' as int, TILDE]
    else if k == DEL_KEY then [ESC, LBRACKET, '3' as int, TILDE]
    else if k == PAGE_UP then [ESC, LBRACKET, '5' as int, TILDE]
    else [ESC, LBRACKET, '6' as int, TILDE]
  }

  /** The bytes a terminal sends for a sequence of keystrokes. */
  function EncodeAll(keys: seq<int>): (r: seq<Byte>)
    requires forall i :: 0 <= i < |keys| ==> Encodable(keys[i])
    ensures |r| >= |keys|
  {
    if |keys| == 0 then [] else Encode(keys[0]) + EncodeAll(keys[1..])
  }

  /** Repeated calls of the key reader over a finite input, each starting
      where the previous one stopped. */
  function DecodeStream(input: seq<Byte>): (keys: seq<int>)
    ensures |keys| <= |input|
    ensures |input| > 0 ==> |keys| > 0 && keys[0] == ReadKey(input).key
    decreases |input|
  {
    if |input| == 0 then []
    else
      var r := ReadKey(input);
      [r.key] + DecodeStream(input[r.consumed..])
  }

  /** Reading back the bytes of any sequence of keystrokes without a bare
      Escape yields those keystrokes, one call of the reader per key. */
  lemma {:induction false} StreamRoundTrip(keys: seq<int>)
    requires forall i :: 0 <= i < |keys| ==> Encodable(keys[i])
    ensures DecodeStream(EncodeAll(keys)) == keys
  {
    if |keys| > 0 {
      var p := Encode(keys[0]);
      var rest := EncodeAll(keys[1..]);
      DecodeSound(keys[0], p, rest);
      assert (p + rest)[|p|..] == rest;
      StreamRoundTrip(keys[1..]);
    }
  }

  /** Why the round trip leaves out a bare Escape: the keystrokes Escape,
      `[`, `A` reach the reader as the bytes of a single Up arrow. */
  lemma EscapeNotRoundTripped()
    ensures EncodeAll(['[' as int, 'A' as int]) == [LBRACKET, 'A' as int]
    ensures DecodeStream([ESC] + EncodeAll(['[' as int, 'A' as int])) == [ARROW_UP]
  {
    assert EncodeAll(['A' as int]) == ['A' as int] + EncodeAll([]);
    var input: seq<Byte> := [ESC, LBRACKET, 'A' as int];
    assert input[3..] == [];
  }

  /** An unrecognised `ESC [ digit` sequence consumes the byte after the
      digit, so a Ctrl-Q typed there is lost in the escape. */
  lemma CtrlQSwallowed()
    ensures DecodeStream([ESC, LBRACKET, '2' as int, QUIT_KEY]) == [ESC]
  {
    var input: seq<Byte> := [ESC, LBRACKET, '2' as int, QUIT_KEY];
    assert input[4..] == [];
  }
}
