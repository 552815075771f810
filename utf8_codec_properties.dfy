/**
 * What the UTF-8 decoder guarantees: the payload bits each layout keeps, a round trip
 * against an RFC 3629 encoder, the end of the stream at a 0 byte, the spin at a lead byte
 * of no layout, and the codec window moving along the decoded stream.
 */
module Utf8CodecProperties {
  import opened Wrappers
  import opened Utf8CodecSpec
  import Utf8Codec

  // ---------------------------------------------------------------------------------------
  // Layouts
  // ---------------------------------------------------------------------------------------

  /** The one-byte layout keeps the seven payload bits of its byte. */
  lemma OneBytePayload(buf: seq<Byte>, i: nat)
    ensures Assemble(buf, i, OneByte) == (ByteAt(buf, i) as bv32) & 0x7F
  {
  }

  /** The two-byte layout: five bits of the lead byte, then six of the next, below 2^11. */
  lemma TwoBytePayload(buf: seq<Byte>, i: nat)
    ensures var c := Assemble(buf, i, TwoBytes);
      c < 0x800 && c >> 6 == (ByteAt(buf, i) as bv32) & 0x1F && c & 0x3F == (ByteAt(buf, i + 1) as bv32) & 0x3F
  {
  }

  /** The three-byte layout: five bits of the lead byte, then six of each next one. */
  lemma ThreeBytePayload(buf: seq<Byte>, i: nat)
    ensures var c := Assemble(buf, i, ThreeBytes);
      c < 0x2_0000 && c >> 12 == (ByteAt(buf, i) as bv32) & 0x1F &&
      (c >> 6) & 0x3F == (ByteAt(buf, i + 1) as bv32) & 0x3F && c & 0x3F == (ByteAt(buf, i + 2) as bv32) & 0x3F
  {
  }

  /** The four-byte layout: three bits of the lead byte, then six of each next one, below 2^21. */
  lemma FourBytePayload(buf: seq<Byte>, i: nat)
    ensures var c := Assemble(buf, i, FourBytes);
      c < 0x20_0000 && c >> 18 == (ByteAt(buf, i) as bv32) & 0x07 &&
      (c >> 12) & 0x3F == (ByteAt(buf, i + 1) as bv32) & 0x3F &&
      (c >> 6) & 0x3F == (ByteAt(buf, i + 2) as bv32) & 0x3F && c & 0x3F == (ByteAt(buf, i + 3) as bv32) & 0x3F
  {
  }

  /**
   * The three-byte mask keeps one bit more than the layout's four, but a `1110xxxx` lead
   * has that bit clear, so the codepoint stays below 2^16.
   */
  lemma ThreeByteLeadBound(buf: seq<Byte>, i: nat)
    requires LeadOf(ByteAt(buf, i)) == ThreeBytes
    ensures Assemble(buf, i, ThreeBytes) < 0x1_0000
  {
    assert (ByteAt(buf, i) as bv32) & 0x1F < 0x10;
  }

  // ---------------------------------------------------------------------------------------
  // Round trip against the reference encoder
  // ---------------------------------------------------------------------------------------

  lemma OneByteRoundTrip(c: Codepoint)
    requires 0 < c < 0x80
    ensures LeadOf(c as Byte) == OneByte && ((c as Byte) as bv32) & 0x7F == c
  {
  }

  lemma TwoByteRoundTrip(c: Codepoint)
    requires 0x80 <= c < 0x800
    ensures var b0, b1 := (0xC0 | (c >> 6)) as Byte, (0x80 | (c & 0x3F)) as Byte;
      LeadOf(b0) == TwoBytes && (((b0 as bv32) & 0x1F) << 6) | (((b1 as bv32) & 0x3F) << 0) == c
  {
  }

  lemma ThreeByteRoundTrip(c: Codepoint)
    requires 0x800 <= c < 0x1_0000
    ensures var b0, b1, b2 := (0xE0 | (c >> 12)) as Byte, (0x80 | ((c >> 6) & 0x3F)) as Byte, (0x80 | (c & 0x3F)) as Byte;
      LeadOf(b0) == ThreeBytes &&
      (((b0 as bv32) & 0x1F) << 12) | (((b1 as bv32) & 0x3F) << 6) | (((b2 as bv32) & 0x3F) << 0) == c
  {
  }

  lemma FourByteRoundTrip(c: Codepoint)
    requires 0x1_0000 <= c < 0x11_0000
    ensures var b0, b1, b2, b3 :=
        (0xF0 | (c >> 18)) as Byte, (0x80 | ((c >> 12) & 0x3F)) as Byte,
        (0x80 | ((c >> 6) & 0x3F)) as Byte, (0x80 | (c & 0x3F)) as Byte;
      LeadOf(b0) == FourBytes &&
      (((b0 as bv32) & 0x07) << 18) | (((b1 as bv32) & 0x3F) << 12) |
      (((b2 as bv32) & 0x3F) << 6) | (((b3 as bv32) & 0x3F) << 0) == c
  {
  }

  /** The one-byte case of the round trip, once the byte is in place. */
  lemma OneByteDecodes(buf: seq<Byte>, i: nat, c: Codepoint)
    requires 0 < c < 0x80 && ByteAt(buf, i) == c as Byte
    ensures Resume(buf, Decoder(i, false)) == Yielded(c, Decoder(i + 1, false))
  {
    OneByteRoundTrip(c);
  }

  /** The two-byte case of the round trip, once the bytes are in place. */
  lemma TwoByteDecodes(buf: seq<Byte>, i: nat, c: Codepoint)
    requires 0x80 <= c < 0x800
    requires ByteAt(buf, i) == (0xC0 | (c >> 6)) as Byte
    requires ByteAt(buf, i + 1) == (0x80 | (c & 0x3F)) as Byte
    ensures Resume(buf, Decoder(i, false)) == Yielded(c, Decoder(i + 2, false))
  {
    TwoByteRoundTrip(c);
  }

  /** The three-byte case of the round trip, once the bytes are in place. */
  lemma ThreeByteDecodes(buf: seq<Byte>, i: nat, c: Codepoint)
    requires 0x800 <= c < 0x1_0000
    requires ByteAt(buf, i) == (0xE0 | (c >> 12)) as Byte
    requires ByteAt(buf, i + 1) == (0x80 | ((c >> 6) & 0x3F)) as Byte
    requires ByteAt(buf, i + 2) == (0x80 | (c & 0x3F)) as Byte
    ensures Resume(buf, Decoder(i, false)) == Yielded(c, Decoder(i + 3, false))
  {
    ThreeByteRoundTrip(c);
  }

  /** The four-byte case of the round trip, once the bytes are in place. */
  lemma FourByteDecodes(buf: seq<Byte>, i: nat, c: Codepoint)
    requires 0x1_0000 <= c < 0x11_0000
    requires ByteAt(buf, i) == (0xF0 | (c >> 18)) as Byte
    requires ByteAt(buf, i + 1) == (0x80 | ((c >> 12) & 0x3F)) as Byte
    requires ByteAt(buf, i + 2) == (0x80 | ((c >> 6) & 0x3F)) as Byte
    requires ByteAt(buf, i + 3) == (0x80 | (c & 0x3F)) as Byte
    ensures Resume(buf, Decoder(i, false)) == Yielded(c, Decoder(i + 4, false))
  {
    FourByteRoundTrip(c);
  }

  /** The decoder reads back one encoded codepoint and stops right after its bytes. */
  lemma DecodeEncode(buf: seq<Byte>, i: nat, c: Codepoint)
    requires Encodable(c) && i + |Encode(c)| <= |buf| && buf[i..i + |Encode(c)|] == Encode(c)
    ensures Resume(buf, Decoder(i, false)) == Yielded(c, Decoder(i + |Encode(c)|, false))
  {
    var e := Encode(c);
    forall k | 0 <= k < |e|
      ensures ByteAt(buf, i + k) == e[k]
    {
      assert buf[i..i + |e|][k] == buf[i + k];
    }
    if c < 0x80 {
      assert ByteAt(buf, i) == e[0];
      OneByteDecodes(buf, i, c);
    } else if c < 0x800 {
      assert ByteAt(buf, i) == e[0] && ByteAt(buf, i + 1) == e[1];
      TwoByteDecodes(buf, i, c);
    } else if c < 0x1_0000 {
      assert ByteAt(buf, i) == e[0] && ByteAt(buf, i + 1) == e[1] && ByteAt(buf, i + 2) == e[2];
      ThreeByteDecodes(buf, i, c);
    } else {
      assert ByteAt(buf, i) == e[0] && ByteAt(buf, i + 1) == e[1];
      assert ByteAt(buf, i + 2) == e[2] && ByteAt(buf, i + 3) == e[3];
      FourByteDecodes(buf, i, c);
    }
  }

  /** The bytes from `i` on are the encodings of `cs`. */
  lemma EncodeAllSplits(cs: seq<Codepoint>)
    requires |cs| > 0 && forall k :: 0 <= k < |cs| ==> Encodable(cs[k])
    ensures EncodeAll(cs) == Encode(cs[0]) + EncodeAll(cs[1..])
  {
  }

  /**
   * Decoding the encodings of nonzero codepoints below 0x110000 gives them back, followed by
   * the 0 the decoder yields at the end of the file.
   */
  lemma {:induction false} DecodedEncodings(buf: seq<Byte>, i: nat, cs: seq<Codepoint>)
    requires forall k :: 0 <= k < |cs| ==> Encodable(cs[k])
    requires i <= |buf| && buf[i..] == EncodeAll(cs)
    ensures Decoded(buf, Decoder(i, false)) == Some(cs + [0])
    decreases |cs|
  {
    if cs == [] {
      assert |buf[i..]| == 0;
      assert cs + [0] == [0];
    } else {
      var e := Encode(cs[0]);
      EncodeAllSplits(cs);
      assert buf[i..][..|e|] == e;
      assert buf[i..i + |e|] == buf[i..][..|e|];
      DecodeEncode(buf, i, cs[0]);
      assert buf[i + |e|..] == buf[i..][|e|..];
      DecodedEncodings(buf, i + |e|, cs[1..]);
      assert [cs[0]] + (cs[1..] + [0]) == cs + [0];
    }
  }

  /** The whole file: the decoder inverts the reference encoder. */
  lemma DecodesEncoding(cs: seq<Codepoint>)
    requires forall k :: 0 <= k < |cs| ==> Encodable(cs[k])
    ensures Decoded(EncodeAll(cs), Start) == Some(cs + [0])
  {
    DecodedEncodings(EncodeAll(cs), 0, cs);
  }

  // ---------------------------------------------------------------------------------------
  // The end of the stream, and spins
  // ---------------------------------------------------------------------------------------

  /** A 0 byte ends the stream, even when more bytes follow it. */
  lemma ZeroByteEndsStream(buf: seq<Byte>, i: nat)
    requires ByteAt(buf, i) == 0
    ensures Resume(buf, Decoder(i, false)) == Yielded(0, Decoder(i, true))
    ensures Decoded(buf, Decoder(i, false)) == Some([0])
  {
  }

  /** A multi-byte layout cut off by the end of the file reads zeros for its missing bytes. */
  lemma TruncatedLayout(buf: seq<Byte>)
    requires |buf| > 0 && LeadOf(buf[|buf| - 1]) == TwoBytes
    ensures Resume(buf, Decoder(|buf| - 1, false)) ==
      Yielded(((buf[|buf| - 1] as bv32) & 0x1F) << 6, Decoder(|buf| + 1, false))
    ensures Resume(buf, Decoder(|buf| + 1, false)) == Yielded(0, Decoder(|buf| + 1, true))
  {
  }

  /** Once finished, every resumption gives 0 and leaves the generator as it is. */
  lemma {:induction false} FinishedGivesZeros(buf: seq<Byte>, d: Decoder, k: nat)
    requires d.finished && k > 0
    ensures Run(buf, d, k) == Yielded(0, d)
  {
    if k > 1 {
      FinishedGivesZeros(buf, d, k - 1);
    }
  }

  /** A lead byte of no layout makes every later resumption spin, and no stream results. */
  lemma {:induction false} NoLayoutSpinsForever(buf: seq<Byte>, i: nat, k: nat)
    requires LeadOf(ByteAt(buf, i)) == NoLayout && k > 0
    ensures Run(buf, Decoder(i, false), k) == Spins
    ensures Decoded(buf, Decoder(i, false)) == None
  {
    if k > 1 {
      NoLayoutSpinsForever(buf, i, k - 1);
    }
  }

  // ---------------------------------------------------------------------------------------
  // The window
  // ---------------------------------------------------------------------------------------

  /** The `k+1`-th resumption from `d` is the `k`-th from the generator the first leaves. */
  lemma {:induction false} RunShift(buf: seq<Byte>, d: Decoder, k: nat)
    requires k > 0 && Resume(buf, d).Yielded?
    ensures Run(buf, d, k + 1) == Run(buf, Resume(buf, d).decoder, k)
  {
    if k > 1 {
      RunShift(buf, d, k - 1);
    }
  }

  /**
   * Resumption after resumption, the generator gives the decoded stream, then 0 forever.
   */
  lemma {:induction false} RunFollowsDecoded(buf: seq<Byte>, d: Decoder, k: nat)
    requires k > 0 && Decoded(buf, d).Some?
    ensures var cs := Decoded(buf, d).value;
      Run(buf, d, k).Yielded? && Run(buf, d, k).codepoint == if k <= |cs| then cs[k - 1] else 0
    decreases Remaining(buf, d)
  {
    if d.finished {
      FinishedGivesZeros(buf, d, k);
    } else {
      var r := Resume(buf, d);
      if k > 1 {
        RunShift(buf, d, k - 1);
        if r.decoder.finished {
          FinishedGivesZeros(buf, r.decoder, k - 1);
        } else {
          RunFollowsDecoded(buf, r.decoder, k - 1);
        }
      }
    }
  }

  /**
   * After the constructor and `n` calls of `next()` (`resumed == n + 2`), `peek(2)` shows
   * the codepoints at positions `n` and `n + 1` of the decoded stream, 0 past its end.
   */
  lemma WindowShowsStream(buf: seq<Byte>, resumed: nat, b: Codepoint, a: Codepoint, d: Decoder)
    requires resumed >= 2 && Decoded(buf, Start).Some?
    requires Run(buf, Start, resumed) == Yielded(a, d)
    requires Run(buf, Start, resumed - 1).Yielded? && Run(buf, Start, resumed - 1).codepoint == b
    ensures var cs := Decoded(buf, Start).value;
      b == (if resumed - 2 < |cs| then cs[resumed - 2] else 0) &&
      a == (if resumed - 1 < |cs| then cs[resumed - 1] else 0)
  {
    RunFollowsDecoded(buf, Start, resumed - 1);
    RunFollowsDecoded(buf, Start, resumed);
  }

  /**
   * `peek(distance)` on a valid codec shows what the last two resumptions of the decoder
   * yielded, the older first; when the whole buffer decodes, these are the next codepoints
   * of the decoded stream, or the 0 that follows it.
   */
  lemma PeekShowsResumptions(c: Utf8Codec.Codec, distance: int)
    requires c.Valid()
    ensures c.Peek(distance)[0] == Run(c.buffer, Start, c.resumed - 1).codepoint
    ensures distance == 2 ==> c.Peek(distance)[1] == Run(c.buffer, Start, c.resumed).codepoint
    ensures Decoded(c.buffer, Start).Some? ==>
      var cs := Decoded(c.buffer, Start).value;
      c.Peek(distance)[0] == (if c.resumed - 2 < |cs| then cs[c.resumed - 2] else 0) &&
      (distance == 2 ==> c.Peek(distance)[1] == (if c.resumed - 1 < |cs| then cs[c.resumed - 1] else 0))
  {
    if Decoded(c.buffer, Start).Some? {
      WindowShowsStream(c.buffer, c.resumed, c.codepointB, c.codepointA, c.Generator());
    }
  }
}
