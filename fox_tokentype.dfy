/**
 * The token classification of the source-language lexer: an integer flag enumeration
 * whose members are assigned successive powers of two in declaration order, so that a
 * token type is a bitset and category membership is a bitwise AND.
 */
module FoxTokentype {

  type Tokentype = bv32

  const IDENTIFIER: Tokentype := 0x1
  const COMMENT: Tokentype := 0x2
  const KEYWORD: Tokentype := 0x4
  const OPERATOR: Tokentype := 0x8
  const DELIMITER: Tokentype := 0x10

  const SINGLE_QUOTE: Tokentype := 0x20
  const DOUBLE_QUOTE: Tokentype := 0x40
  const TRIPLE_QUOTE: Tokentype := 0x80
  const F_STRING: Tokentype := 0x100
  const R_STRING: Tokentype := 0x200

  const NUMBER: Tokentype := 0x400
  const INTEGER: Tokentype := 0x800
  const FLOAT: Tokentype := 0x1000
  const EPSILON: Tokentype := 0x2000
  const COMPLEX: Tokentype := 0x4000
  const BASE36: Tokentype := 0x8000
  const BASE16: Tokentype := 0x1_0000
  const BASE10: Tokentype := 0x2_0000
  const BASE08: Tokentype := 0x4_0000
  const BASE02: Tokentype := 0x8_0000

  const NEWLINE: Tokentype := 0x10_0000
  const INDENT: Tokentype := 0x20_0000
  const DEDENT: Tokentype := 0x40_0000

  const EOF: Tokentype := 0x80_0000

  /** The members in declaration order. */
  const Members: seq<Tokentype> :=
    [ IDENTIFIER, COMMENT, KEYWORD, OPERATOR, DELIMITER,
      SINGLE_QUOTE, DOUBLE_QUOTE, TRIPLE_QUOTE, F_STRING, R_STRING,
      NUMBER, INTEGER, FLOAT, EPSILON, COMPLEX, BASE36, BASE16, BASE10, BASE08, BASE02,
      NEWLINE, INDENT, DEDENT,
      EOF ]

  /** The five numeric base flags. */
  const Bases: seq<Tokentype> := [BASE36, BASE16, BASE10, BASE08, BASE02]

  /** True when exactly one of `flags` is set in `t`. */
  predicate ExactlyOneOf(t: Tokentype, flags: seq<Tokentype>)
  {
    exists k :: 0 <= k < |flags| && t & flags[k] != 0 &&
      forall j :: 0 <= j < |flags| && j != k ==> t & flags[j] == 0
  }

  /** Member k is the single bit 2^k: `auto()` numbering from 1. */
  lemma MembersAreSuccessiveBits()
    ensures |Members| == 24
    ensures forall k :: 0 <= k < |Members| ==> Members[k] == 1 << k
  {
  }

  /** Two different single bits of a 32-bit word have no bit in common. */
  lemma SingleBitsAreDisjoint(i: nat, j: nat)
    requires i < 32 && j < 32 && i != j
    ensures ((1 as bv32) << i) & ((1 as bv32) << j) == 0
  {
  }

  /** Distinct members never share a bit. */
  lemma MembersAreDisjoint()
    ensures forall i, j :: 0 <= i < |Members| && 0 <= j < |Members| && i != j ==>
      Members[i] & Members[j] == 0
  {
    MembersAreSuccessiveBits();
    forall i, j | 0 <= i < |Members| && 0 <= j < |Members| && i != j
      ensures Members[i] & Members[j] == 0
    {
      SingleBitsAreDisjoint(i, j);
    }
  }

  /** A single bit of a 32-bit word is nonzero. */
  lemma SingleBitIsNonzero(i: nat)
    requires i < 32
    ensures (1 as bv32) << i != 0
  {
  }

  /** A member combined by `&` with another member is nonzero exactly when they are equal. */
  lemma MemberTest(i: nat, j: nat)
    requires i < |Members| && j < |Members|
    ensures (Members[i] & Members[j] != 0) <==> i == j
    ensures (Members[i] == Members[j]) <==> i == j
  {
    MembersAreSuccessiveBits();
    SingleBitIsNonzero(i);
    if i != j {
      SingleBitsAreDisjoint(i, j);
    }
  }

  /**
   * Testing a member with `&` against a union of members (given by their indices) is exact
   * membership in the union.
   */
  lemma {:induction false} UnionTestIsMembership(i: nat, union: seq<nat>)
    requires i < |Members|
    requires forall k :: 0 <= k < |union| ==> union[k] < |Members|
    ensures (Members[i] & UnionOf(union) != 0) <==> i in union
  {
    if union != [] {
      UnionTestIsMembership(i, union[1..]);
      MemberTest(i, union[0]);
      AndDistributes(Members[i], Members[union[0]], UnionOf(union[1..]));
      assert i in union <==> i == union[0] || i in union[1..] by {
        assert union == [union[0]] + union[1..];
      }
    }
  }

  lemma AndDistributes(a: bv32, b: bv32, c: bv32)
    ensures (a & (b | c) != 0) <==> (a & b != 0 || a & c != 0)
  {
  }

  /** The bitwise OR of the members with the given indices. */
  function UnionOf(union: seq<nat>): Tokentype
    requires forall k :: 0 <= k < |union| ==> union[k] < |Members|
  {
    if union == [] then 0 else Members[union[0]] | UnionOf(union[1..])
  }

}
