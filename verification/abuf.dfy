/** The append buffer: the bytes of one screen refresh are collected here
    and written with a single call. Each byte is one `char` of the string. */
module AppendBuffer {

  /** The buffer's contents and the length field that should track them. */
  datatype ABuf = ABuf(b: string, len: int)

  /** The empty buffer the refresh starts from. */
  const ABUF_INIT: ABuf := ABuf([], 0)

  /** The length field matches the contents. */
  predicate Valid(ab: ABuf) {
    ab.len == |ab.b|
  }

  /** Append `s`. `grown` is whether growing the storage succeeded; when
      it did not, the buffer is left as it was. */
  function AbAppend(ab: ABuf, s: string, grown: bool): (r: ABuf)
    ensures !grown ==> r == ab
    ensures grown ==>
      |r.b| == |ab.b| + |s| && r.b[..|ab.b|] == ab.b && r.b[|ab.b|..] == s
    ensures grown ==> r.len == ab.len + |s|
    ensures Valid(ab) ==> Valid(r)
  {
    if grown then ABuf(ab.b + s, ab.len + |s|) else ab
  }

  /** Concatenation of the pieces whose storage could be grown. */
  function Kept(pieces: seq<string>, grown: seq<bool>): string
    requires |pieces| == |grown|
    decreases |pieces|
  {
    if |pieces| == 0 then []
    else
      var last := |pieces| - 1;
      Kept(pieces[..last], grown[..last]) + (if grown[last] then pieces[last] else [])
  }

  /** A run of appends, each with its own allocation outcome. */
  function AppendAll(ab: ABuf, pieces: seq<string>, grown: seq<bool>): ABuf
    requires |pieces| == |grown|
    decreases |pieces|
  {
    if |pieces| == 0 then ab
    else
      var last := |pieces| - 1;
      AbAppend(AppendAll(ab, pieces[..last], grown[..last]), pieces[last], grown[last])
  }

  /** After any run of appends the buffer is still consistent and holds its
      old contents followed by exactly the pieces that could be appended. */
  lemma {:induction false} AppendAllKeepsOrder(ab: ABuf, pieces: seq<string>, grown: seq<bool>)
    requires Valid(ab) && |pieces| == |grown|
    ensures Valid(AppendAll(ab, pieces, grown))
    ensures AppendAll(ab, pieces, grown).b == ab.b + Kept(pieces, grown)
    decreases |pieces|
  {
    if |pieces| > 0 {
      var last := |pieces| - 1;
      AppendAllKeepsOrder(ab, pieces[..last], grown[..last]);
      var kept := Kept(pieces[..last], grown[..last]);
      var piece := if grown[last] then pieces[last] else [];
      assert Kept(pieces, grown) == kept + piece;
      assert AppendAll(ab, pieces, grown).b == ab.b + kept + piece;
      assert ab.b + kept + piece == ab.b + (kept + piece);
    }
  }
}
