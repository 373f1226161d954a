/** Key codes of the editor: the raw input byte, the control-key mask and the
    logical codes the decoder produces for multi-byte escape sequences. */
module Keys {

  /** One input byte, taken as unsigned. */
  type Byte = b: int | 0 <= b < 256

  /** The escape byte that starts every terminal escape sequence. */
  const ESC: Byte := 0x1b

  /** Logical key codes. The first four are fixed; the rest follow in
      declaration order, as C numbers enumerators. */
  const ARROW_LEFT: int := 1000
  const ARROW_RIGHT: int := 2000
  const ARROW_UP: int := 3000
  const ARROW_DOWN: int := 4000
  const PAGE_UP: int := ARROW_DOWN + 1
  const PAGE_DOWN: int := ARROW_DOWN + 2
  const HOME_KEY: int := ARROW_DOWN + 3
  const END_KEY: int := ARROW_DOWN + 4
  const DEL_KEY: int := ARROW_DOWN + 5

  /** Every logical key code the decoder can produce besides a plain byte. */
  const SpecialKeys: set<int> :=
    {ARROW_LEFT, ARROW_RIGHT, ARROW_UP, ARROW_DOWN,
     PAGE_UP, PAGE_DOWN, HOME_KEY, END_KEY, DEL_KEY}

  /** The four cursor keys handled by the single-step move. */
  const ArrowKeys: set<int> := {ARROW_LEFT, ARROW_RIGHT, ARROW_UP, ARROW_DOWN}

  /** The byte a terminal sends for Ctrl plus `k`: bits 5 to 7 cleared. */
  function CtrlKey(k: bv8): (r: bv8)
    ensures r as int < 32
    ensures r as int == k as int % 32
  {
    k & 0x1f
  }

  /** Ctrl-Q, the quit key. */
  const QUIT_KEY: Byte := CtrlKey('q' as bv8) as int

  /** The key codes are pairwise distinct and none of them is a byte, so a
      decoded key never mixes up a plain byte with a logical key. */
  lemma SpecialKeysUnambiguous()
    ensures |SpecialKeys| == 9
    ensures forall k :: k in SpecialKeys ==> k >= 256
    ensures QUIT_KEY == 0x11 && QUIT_KEY !in SpecialKeys
    ensures ArrowKeys <= SpecialKeys
  {
  }
}
