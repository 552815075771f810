/**
 * The token classification of the grammar language: an integer flag enumeration whose 23
 * members are assigned successive powers of two in declaration order. Both grammar lexers
 * and the grammar parser use it; the parser tests a token against a union of members
 * with bitwise AND.
 */
module GrammarTokentype {

  type Tokentype = bv32

  const IDENTIFIER: Tokentype := 0x1
  const STRING: Tokentype := 0x2
  const NUMBER: Tokentype := 0x4

  const L_PAREN: Tokentype := 0x8
  const R_PAREN: Tokentype := 0x10
  const L_BRACK: Tokentype := 0x20
  const R_BRACK: Tokentype := 0x40
  const L_BRACE: Tokentype := 0x80
  const R_BRACE: Tokentype := 0x100

  const WALRUS: Tokentype := 0x200
  const ASSIGN: Tokentype := 0x400
  const COMMA: Tokentype := 0x800
  const PIPE: Tokentype := 0x1000
  const PLUS: Tokentype := 0x2000
  const STAR: Tokentype := 0x4000
  const PLUS_PLUS: Tokentype := 0x8000
  const STAR_STAR: Tokentype := 0x1_0000

  const ASSIGNMENT: Tokentype := 0x2_0000
  const ALTERNATION: Tokentype := 0x4_0000
  const QUANTIFICATION: Tokentype := 0x8_0000
  const CONCATENATION: Tokentype := 0x10_0000

  const EOL: Tokentype := 0x20_0000
  const EOF: Tokentype := 0x40_0000

  /** The members in declaration order. */
  const Members: seq<Tokentype> :=
    [ IDENTIFIER, STRING, NUMBER,
      L_PAREN, R_PAREN, L_BRACK, R_BRACK, L_BRACE, R_BRACE,
      WALRUS, ASSIGN, COMMA, PIPE, PLUS, STAR, PLUS_PLUS, STAR_STAR,
      ASSIGNMENT, ALTERNATION, QUANTIFICATION, CONCATENATION,
      EOL, EOF ]

  /** The four members that name syntactic categories rather than tokens. */
  const Categories: seq<Tokentype> := [ASSIGNMENT, ALTERNATION, QUANTIFICATION, CONCATENATION]

  /** `t` has exactly one bit set, as every member has. */
  predicate SingleBit(t: Tokentype)
  {
    t != 0 && t & (t - 1) == 0
  }

  /** Two single-bit types share a bit exactly when they are the same type. */
  lemma SingleBitsTest(x: Tokentype, t: Tokentype)
    requires SingleBit(x) && SingleBit(t)
    ensures x & t != 0 <==> x == t
  {
  }

  /** `t` has a nonzero intersection with exactly one member. */
  predicate ExactlyOneMember(t: Tokentype)
  {
    exists k :: 0 <= k < |Members| && t & Members[k] != 0 &&
      forall j :: 0 <= j < |Members| && j != k ==> t & Members[j] == 0
  }

  /** Member k is the single bit 2^k: `auto()` numbering from 1. */
  lemma MembersAreSuccessiveBits()
    ensures |Members| == 23
    ensures forall k :: 0 <= k < |Members| ==> Members[k] == 1 << k
  {
  }

  lemma SingleBitsAreDisjoint(i: nat, j: nat)
    requires i < 32 && j < 32 && i != j
    ensures ((1 as bv32) << i) & ((1 as bv32) << j) == 0
  {
  }

  lemma SingleBitIsNonzero(i: nat)
    requires i < 32
    ensures (1 as bv32) << i != 0
  {
  }

  /** A member combined by `&` with another member is nonzero exactly when they are the same. */
  lemma MemberTest(i: nat, j: nat)
    requires i < |Members| && j < |Members|
    ensures (Members[i] & Members[j] != 0) <==> i == j
    ensures (Members[i] == Members[j]) <==> i == j
  {
    MembersAreSuccessiveBits();
    SingleBitIsNonzero(i);
    if i != j {
      SingleBitsAreDisjoint(i, j);
    }
  }

  /** Distinct members never share a bit. */
  lemma MembersAreDisjoint()
    ensures forall i, j :: 0 <= i < |Members| && 0 <= j < |Members| && i != j ==>
      Members[i] & Members[j] == 0
  {
    forall i, j | 0 <= i < |Members| && 0 <= j < |Members| && i != j
      ensures Members[i] & Members[j] == 0
    {
      MemberTest(i, j);
    }
  }

  /** Every member, taken as a token type, carries exactly one member: itself. */
  lemma MemberIsExactlyOne(i: nat)
    requires i < |Members|
    ensures ExactlyOneMember(Members[i])
  {
    MemberTest(i, i);
    forall j | 0 <= j < |Members| && j != i
      ensures Members[i] & Members[j] == 0
    {
      MemberTest(i, j);
    }
  }

  /**
   * Testing a member with `&` against a union of members (given by their indices) is exact
   * membership in the union.
   */
  lemma {:induction false} UnionTestIsMembership(i: nat, union: seq<nat>)
    requires i < |Members|
    requires forall k :: 0 <= k < |union| ==> union[k] < |Members|
    ensures (Members[i] & UnionOf(union) != 0) <==> i in union
  {
    if union != [] {
      UnionTestIsMembership(i, union[1..]);
      MemberTest(i, union[0]);
      AndDistributes(Members[i], Members[union[0]], UnionOf(union[1..]));
      assert i in union <==> i == union[0] || i in union[1..] by {
        assert union == [union[0]] + union[1..];
      }
    }
  }

  lemma AndDistributes(a: bv32, b: bv32, c: bv32)
    ensures (a & (b | c) != 0) <==> (a & b != 0 || a & c != 0)
  {
  }

  /** The bitwise OR of the members with the given indices. */
  function UnionOf(union: seq<nat>): Tokentype
    requires forall k :: 0 <= k < |union| ==> union[k] < |Members|
  {
    if union == [] then 0 else Members[union[0]] | UnionOf(union[1..])
  }

}
