/** Fixed-width integers and the big-endian layout that Go's
    `encoding/binary.Read(..., binary.BigEndian, ...)` gives them. */
module Wire {

  type byte = x: int | 0 <= x < 0x100
  type uint16 = x: int | 0 <= x < 0x1_0000
  type int16 = x: int | -0x8000 <= x < 0x8000

  /** Two bytes read as an unsigned big-endian word. */
  function Uint16BE(hi: byte, lo: byte): uint16 {
    hi * 0x100 + lo
  }

  /** Two's-complement reinterpretation of an unsigned word. */
  function AsInt16(w: uint16): int16 {
    if w < 0x8000 then w else w - 0x1_0000
  }

  /** The unsigned word whose two's-complement reading is `v`. */
  function AsUint16(v: int16): (w: uint16)
    ensures AsInt16(w) == v
  {
    if v < 0 then v + 0x1_0000 else v
  }

  function Int16BE(hi: byte, lo: byte): int16 {
    AsInt16(Uint16BE(hi, lo))
  }

  /** The two bytes that `binary.Write` would emit for `w`. */
  function PutUint16BE(w: uint16): (s: seq<byte>)
    ensures |s| == 2 && Uint16BE(s[0], s[1]) == w
  {
    [w / 0x100, w % 0x100]
  }

  function PutInt16BE(v: int16): (s: seq<byte>)
    ensures |s| == 2 && Int16BE(s[0], s[1]) == v
  {
    PutUint16BE(AsUint16(v))
  }

  /** Reading a word back and writing it again reproduces the two bytes. */
  lemma Uint16RoundTrip(hi: byte, lo: byte)
    ensures PutUint16BE(Uint16BE(hi, lo)) == [hi, lo]
  {
  }

  lemma Int16RoundTrip(hi: byte, lo: byte)
    ensures PutInt16BE(Int16BE(hi, lo)) == [hi, lo]
  {
    Uint16RoundTrip(hi, lo);
  }
}
