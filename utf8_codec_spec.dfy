/**
 * The UTF-8 decoder that feeds the codepoint lexer, as functions: the bytes of the file,
 * the `decode` generator (its byte offset, and whether it has finished), and what one
 * resumption of it yields. The layouts are those of section 3 of RFC 3629; the decoder
 * checks only the lead byte, and a lead byte that begins no layout makes it spin.
 */
module Utf8CodecSpec {
  import opened Wrappers

  type Byte = bv8
  type Codepoint = bv32

  /** What `observe()`/`advance()` read at `i`: the byte, or 0 once the file is exhausted. */
  function ByteAt(buf: seq<Byte>, i: nat): (b: Byte)
    ensures i < |buf| ==> b == buf[i]
    ensures i >= |buf| ==> b == 0
  {
    if i < |buf| then buf[i] else 0
  }

  /** The layouts a lead byte can select. */
  datatype Lead = End | OneByte | TwoBytes | ThreeBytes | FourBytes | NoLayout

  /**
   * The branch of `decode` a lead byte takes: 0 ends the loop; `0xxxxxxx`, `110xxxxx`,
   * `1110xxxx` and `11110xxx` select a layout; continuation bytes and `11111xxx` none.
   */
  function LeadOf(b: Byte): (l: Lead)
    ensures l == End <==> b == 0
    ensures l == OneByte <==> 0 < b < 0x80
    ensures l == TwoBytes <==> 0xC0 <= b < 0xE0
    ensures l == ThreeBytes <==> 0xE0 <= b < 0xF0
    ensures l == FourBytes <==> 0xF0 <= b < 0xF8
    ensures l == NoLayout <==> (0x80 <= b < 0xC0 || 0xF8 <= b)
  {
    if b == 0 then End
    else if b < 0x80 then OneByte
    else if b & 0xE0 == 0xC0 then TwoBytes
    else if b & 0xF0 == 0xE0 then ThreeBytes
    else if b & 0xF8 == 0xF0 then FourBytes
    else NoLayout
  }

  /** The number of bytes a layout takes. */
  function Width(l: Lead): nat
  {
    match l
    case OneByte => 1
    case TwoBytes => 2
    case ThreeBytes => 3
    case FourBytes => 4
    case _ => 0
  }

  /** The payload bits `b & mask`, shifted into place. */
  function Bits(b: Byte, mask: bv32, shift: nat): Codepoint
    requires shift <= 18
  {
    ((b as bv32) & mask) << shift
  }

  /** The codepoint a layout assembles from the bytes at `i`. */
  function Assemble(buf: seq<Byte>, i: nat, l: Lead): Codepoint
  {
    match l
    case OneByte => Bits(ByteAt(buf, i), 0x7F, 0)
    case TwoBytes => Bits(ByteAt(buf, i), 0x1F, 6) | Bits(ByteAt(buf, i + 1), 0x3F, 0)
    case ThreeBytes =>
      Bits(ByteAt(buf, i), 0x1F, 12) | Bits(ByteAt(buf, i + 1), 0x3F, 6) | Bits(ByteAt(buf, i + 2), 0x3F, 0)
    case FourBytes =>
      Bits(ByteAt(buf, i), 0x07, 18) | Bits(ByteAt(buf, i + 1), 0x3F, 12) |
      Bits(ByteAt(buf, i + 2), 0x3F, 6) | Bits(ByteAt(buf, i + 3), 0x3F, 0)
    case _ => 0
  }

  /** The `decode` generator: the offset of the next lead byte, and whether it has finished. */
  datatype Decoder = Decoder(offset: nat, finished: bool)

  /** What one `next(self.decoder)` gives: a codepoint and the decoder after it, or a spin. */
  datatype Resumed = Yielded(codepoint: Codepoint, decoder: Decoder) | Spins

  /**
   * One resumption of `decode`: a lead byte of some layout yields the codepoint of its
   * bytes; the 0 that ends the loop yields 0 and finishes the generator; a finished
   * generator raises `StopIteration`, which `next()` turns into 0; a lead byte of no layout
   * is observed again and again without being consumed.
   */
  function Resume(buf: seq<Byte>, d: Decoder): (r: Resumed)
    ensures r.Yielded? && r.decoder.finished ==> r.codepoint == 0
    ensures r.Yielded? && !r.decoder.finished ==> r.decoder.offset > d.offset && !d.finished
  {
    if d.finished then Yielded(0, d)
    else
      var l := LeadOf(ByteAt(buf, d.offset));
      if l == End then Yielded(0, Decoder(d.offset, true))
      else if l == NoLayout then Spins
      else Yielded(Assemble(buf, d.offset, l), Decoder(d.offset + Width(l), false))
  }

  /** How far a decoder is from finishing. */
  function Remaining(buf: seq<Byte>, d: Decoder): nat
  {
    if d.finished then 0 else if d.offset >= |buf| then 1 else |buf| - d.offset + 1
  }

  /**
   * The codepoints `decode` yields from `d` on, the final 0 included, or None when it
   * reaches a lead byte of no layout.
   */
  function Decoded(buf: seq<Byte>, d: Decoder): Option<seq<Codepoint>>
    decreases Remaining(buf, d)
  {
    if d.finished then Some([])
    else match Resume(buf, d)
      case Spins => None
      case Yielded(c, d') =>
        if d'.finished then Some([c])
        else match Decoded(buf, d')
          case None => None
          case Some(rest) => Some([c] + rest)
  }

  /** The generator as the codec creates it. */
  const Start: Decoder := Decoder(0, false)

  /**
   * The `k`-th resumption of a generator that starts as `d` (the first is `k == 1`); a
   * spin is final.
   */
  function Run(buf: seq<Byte>, d: Decoder, k: nat): (r: Resumed)
    requires k > 0
  {
    if k == 1 then Resume(buf, d)
    else match Run(buf, d, k - 1)
      case Spins => Spins
      case Yielded(_, d') => Resume(buf, d')
  }

  // ---------------------------------------------------------------------------------------
  // An independent reference encoder
  // ---------------------------------------------------------------------------------------

  /** The codepoints the layouts of RFC 3629 reach, surrogates included, but 0, which the decoder reads as the end. */
  predicate Encodable(c: Codepoint)
  {
    0 < c < 0x11_0000
  }

  /** The encoding of a codepoint in the layouts of section 3 of RFC 3629. */
  function Encode(c: Codepoint): (bytes: seq<Byte>)
    requires Encodable(c)
    ensures 1 <= |bytes| <= 4
  {
    if c < 0x80 then [c as Byte]
    else if c < 0x800 then [(0xC0 | (c >> 6)) as Byte, (0x80 | (c & 0x3F)) as Byte]
    else if c < 0x1_0000 then
      [(0xE0 | (c >> 12)) as Byte, (0x80 | ((c >> 6) & 0x3F)) as Byte, (0x80 | (c & 0x3F)) as Byte]
    else
      [(0xF0 | (c >> 18)) as Byte, (0x80 | ((c >> 12) & 0x3F)) as Byte,
       (0x80 | ((c >> 6) & 0x3F)) as Byte, (0x80 | (c & 0x3F)) as Byte]
  }

  /** The encodings of a sequence of codepoints, one after another. */
  function EncodeAll(cs: seq<Codepoint>): seq<Byte>
    requires forall k :: 0 <= k < |cs| ==> Encodable(cs[k])
  {
    if cs == [] then [] else Encode(cs[0]) + EncodeAll(cs[1..])
  }
}
