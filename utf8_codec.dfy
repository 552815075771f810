/**
 * The UTF-8 decoder as an object: the byte offset, the two-codepoint window and the phase
 * of its `decode` generator are fields the methods update in place, each method proved to
 * follow `Utf8CodecSpec`.
 */
module Utf8Codec {
  import opened Utf8CodecSpec

  class Codec {
    /** The bytes of the file; reads past its end give 0. */
    const buffer: seq<Byte>
    var offset: nat
    /** The codepoint after the next one. */
    var codepointA: Codepoint
    /** The next codepoint. */
    var codepointB: Codepoint
    /** Whether the `decode` generator has finished. */
    var finished: bool
    /** How many times the generator has been resumed. */
    ghost var resumed: nat

    /** The generator as one value. */
    function Generator(): Decoder
      reads this
    {
      Decoder(offset, finished)
    }

    /**
     * The window holds the last two codepoints the generator gave, `codepointA` the more
     * recent, and the generator is where those resumptions left it.
     */
    ghost predicate Valid()
      reads this
    {
      resumed >= 2 &&
      Run(buffer, Start, resumed) == Yielded(codepointA, Generator()) &&
      Run(buffer, Start, resumed - 1).Yielded? && Run(buffer, Start, resumed - 1).codepoint == codepointB
    }

    /**
     * `Codec(source)`: the generator at offset 0, then two `next()` calls that fill the
     * window with the first two codepoints.
     */
    constructor (buffer: seq<Byte>)
      requires Run(buffer, Start, 1).Yielded? && Run(buffer, Start, 2).Yielded?
      ensures this.buffer == buffer && Valid() && resumed == 2
      ensures codepointB == Run(buffer, Start, 1).codepoint && codepointA == Run(buffer, Start, 2).codepoint
    {
      this.buffer := buffer;
      offset := 0;
      codepointA, codepointB := 0, 0;
      finished := false;
      resumed := 0;
      new;
      var _ := Next();
      var _ := Next();
    }

    /** `observe()`: the byte at the offset, which stays where it is. */
    method Observe() returns (b: Byte)
      ensures b == ByteAt(buffer, offset)
    {
      b := if offset < |buffer| then buffer[offset] else 0;
    }

    /** `advance()`: the byte at the offset, and the offset moves past it. */
    method Advance() returns (b: Byte)
      modifies this
      ensures b == ByteAt(buffer, old(offset)) && offset == old(offset) + 1
      ensures codepointA == old(codepointA) && codepointB == old(codepointB)
      ensures finished == old(finished) && resumed == old(resumed)
    {
      b := if offset < |buffer| then buffer[offset] else 0;
      offset := offset + 1;
    }

    /** One `next(self.decoder)`: a resumption of `decode`, with `StopIteration` read as 0. */
    method Decode() returns (c: Codepoint)
      requires Resume(buffer, Generator()).Yielded?
      modifies this
      ensures Resume(buffer, old(Generator())) == Yielded(c, Generator())
      ensures codepointA == old(codepointA) && codepointB == old(codepointB) && resumed == old(resumed)
    {
      if finished {
        return 0;
      }
      var lead := Observe();
      if lead == 0 {
        finished := true;
        return 0;
      }
      if lead < 0x80 {
        var b0 := Advance();
        c := (b0 as bv32) & 0x7F;
      } else if lead & 0xE0 == 0xC0 {
        c := DecodeTwo();
      } else if lead & 0xF0 == 0xE0 {
        c := DecodeThree();
      } else {
        c := DecodeFour();
      }
    }

    /** The two-byte branch of `decode`. */
    method DecodeTwo() returns (c: Codepoint)
      modifies this
      ensures c == Assemble(buffer, old(offset), TwoBytes) && offset == old(offset) + 2
      ensures codepointA == old(codepointA) && codepointB == old(codepointB)
      ensures finished == old(finished) && resumed == old(resumed)
    {
      var b0 := Advance();
      c := ((b0 as bv32) & 0x1F) << 6;
      var b1 := Advance();
      c := c | (((b1 as bv32) & 0x3F) << 0);
    }

    /** The three-byte branch of `decode`. */
    method DecodeThree() returns (c: Codepoint)
      modifies this
      ensures c == Assemble(buffer, old(offset), ThreeBytes) && offset == old(offset) + 3
      ensures codepointA == old(codepointA) && codepointB == old(codepointB)
      ensures finished == old(finished) && resumed == old(resumed)
    {
      var b0 := Advance();
      c := ((b0 as bv32) & 0x1F) << 12;
      var b1 := Advance();
      c := c | (((b1 as bv32) & 0x3F) << 6);
      var b2 := Advance();
      c := c | (((b2 as bv32) & 0x3F) << 0);
    }

    /** The four-byte branch of `decode`. */
    method DecodeFour() returns (c: Codepoint)
      modifies this
      ensures c == Assemble(buffer, old(offset), FourBytes) && offset == old(offset) + 4
      ensures codepointA == old(codepointA) && codepointB == old(codepointB)
      ensures finished == old(finished) && resumed == old(resumed)
    {
      var b0 := Advance();
      c := ((b0 as bv32) & 0x07) << 18;
      var b1 := Advance();
      c := c | (((b1 as bv32) & 0x3F) << 12);
      var b2 := Advance();
      c := c | (((b2 as bv32) & 0x3F) << 6);
      var b3 := Advance();
      c := c | (((b3 as bv32) & 0x3F) << 0);
    }

    /** `peek(distance)`: the next codepoint, and the one after it when `distance == 2`. */
    function Peek(distance: int): (r: seq<Codepoint>)
      reads this
      ensures |r| == if distance == 2 then 2 else 1
      ensures r[0] == codepointB && (distance == 2 ==> r[1] == codepointA)
    {
      if distance == 2 then [codepointB, codepointA] else [codepointB]
    }

    /**
     * `next()`: returns the next codepoint; the window moves on by one and takes in the
     * codepoint of one more resumption.
     */
    method Next() returns (returned: Codepoint)
      requires Resume(buffer, Generator()).Yielded?
      requires resumed == 0 ==> Generator() == Start
      requires resumed > 0 ==> Run(buffer, Start, resumed) == Yielded(codepointA, Generator())
      modifies this
      ensures returned == old(codepointB) && codepointB == old(codepointA)
      ensures Resume(buffer, old(Generator())) == Yielded(codepointA, Generator())
      ensures resumed == old(resumed) + 1
      ensures Run(buffer, Start, resumed) == Yielded(codepointA, Generator())
      ensures old(resumed) >= 1 ==> Valid()
    {
      var c := Decode();
      returned := codepointB;
      codepointB := codepointA;
      codepointA := c;
      resumed := resumed + 1;
    }
  }
}
