/**
 * Properties of the grammar parser over streams the codepoint lexer produces: the type tests
 * are exact, the grammar's precedence and postfix rules, and the top-level loop.
 */
module GrammarParserProperties {
  import opened Wrappers
  import opened GrammarTokentype
  import opened GrammarNodes
  import opened GrammarParserSpec
  import G = GrammarLexerProperties
  import P = CodepointLexerProperties
  import L = CodepointLexerSpec
  import GP = GrammarParser

  /**
   * Every token's type has a single bit set: it is one member of the enumeration, never a
   * union of several, as every type the lexers emit is.
   */
  predicate Lexed(ts: seq<Token>)
  {
    forall k :: 0 <= k < |ts| ==> SingleBit(ts[k].kind)
  }

  /** The lookahead at `c` has exactly the type `t`. */
  predicate Is(ts: seq<Token>, c: nat, t: Tokentype)
  {
    c < |ts| && ts[c].kind == t
  }

  /** Each type the lexers emit has a single bit set. */
  lemma EmittedIsSingleBit(x: Tokentype)
    requires x in G.EmittedKinds
    ensures SingleBit(x)
  {
    assert SingleBit(IDENTIFIER) && SingleBit(STRING) && SingleBit(NUMBER);
    assert SingleBit(L_PAREN) && SingleBit(R_PAREN) && SingleBit(L_BRACK) && SingleBit(R_BRACK);
    assert SingleBit(L_BRACE) && SingleBit(R_BRACE) && SingleBit(WALRUS) && SingleBit(ASSIGN);
    assert SingleBit(COMMA) && SingleBit(PIPE) && SingleBit(PLUS) && SingleBit(STAR);
    assert SingleBit(PLUS_PLUS) && SingleBit(STAR_STAR) && SingleBit(EOL) && SingleBit(EOF);
  }

  /** The codepoint lexer's stream, as its shape lemma describes it, is lexed. */
  lemma ShapedStreamIsLexed(cps: seq<L.Codepoint>, ts: seq<Token>, from: nat, line: int, column: int)
    requires P.StreamShaped(cps, ts, from, line, column)
    ensures Lexed(ts)
  {
    forall k | 0 <= k < |ts|
      ensures SingleBit(ts[k].kind)
    {
      assert P.WellFormed(cps, ts[k], line, column);
      EmittedIsSingleBit(ts[k].kind);
    }
  }

  /** On a lexed stream, `positive_lookahead(t)` for one type `t` is a test for that type. */
  lemma SeesIs(ts: seq<Token>, c: nat, t: Tokentype)
    requires Lexed(ts) && SingleBit(t)
    ensures Sees(ts, c, t) <==> Is(ts, c, t)
  {
    if c < |ts| {
      SingleBitsTest(ts[c].kind, t);
    }
  }

  /**
   * The parser's own lookaheads on a lexed stream: `observe()` shows the token at the
   * cursor, `positive_lookahead(t)` holds exactly when that token has the type `t`, and
   * `negative_lookahead(t)` exactly when it has not, the end of the stream included.
   */
  lemma LookaheadTests(p: GP.Parser, t: Tokentype)
    requires Lexed(p.tokens) && SingleBit(t)
    ensures p.Observe() == (if p.cursor < |p.tokens| then Some(p.tokens[p.cursor]) else None)
    ensures p.PositiveLookahead(t) <==> Is(p.tokens, p.cursor, t)
    ensures p.NegativeLookahead(t) <==> !Is(p.tokens, p.cursor, t)
  {
    SeesIs(p.tokens, p.cursor, t);
  }

  /** The concatenation lookahead is a test for the five types that begin an operand. */
  lemma SeesHead(ts: seq<Token>, c: nat)
    requires Lexed(ts)
    ensures Sees(ts, c, HeadTypes) <==>
      Is(ts, c, IDENTIFIER) || Is(ts, c, STRING) || Is(ts, c, NUMBER) || Is(ts, c, L_PAREN) || Is(ts, c, L_BRACK)
  {
    if c < |ts| {
      HeadTest(ts[c].kind);
    }
  }

  lemma HeadTest(x: Tokentype)
    requires SingleBit(x)
    ensures x & HeadTypes != 0 <==>
      x == IDENTIFIER || x == STRING || x == NUMBER || x == L_PAREN || x == L_BRACK
  {
  }

  /**
   * `consume(t)` takes the lookahead exactly when it has type `t`, and then only it;
   * otherwise it takes nothing.
   */
  lemma ConsumeTakesExactType(ts: seq<Token>, c: nat, t: Tokentype)
    requires c <= |ts| && Lexed(ts) && SingleBit(t)
    ensures Is(ts, c, t) ==> Consume(ts, c, t) == Consumed(Some(ts[c]), c + 1)
    ensures !Is(ts, c, t) ==> Consume(ts, c, t) == Consumed(None, c)
  {
    SeesIs(ts, c, t);
  }

  // ---------------------------------------------------------------------------------------
  // Atoms, assignments and postfixes
  // ---------------------------------------------------------------------------------------

  /** `atomic` tries IDENTIFIER, then NUMBER, then STRING, and otherwise takes nothing. */
  lemma AtomicOrder(ts: seq<Token>, c: nat)
    requires c <= |ts| && Lexed(ts)
    ensures Is(ts, c, IDENTIFIER) ==> Atomic(ts, c) == Parsed(Some(Identifier(Some(ts[c]))), c + 1)
    ensures Is(ts, c, NUMBER) ==> Atomic(ts, c) == Parsed(Some(Number(Some(ts[c]))), c + 1)
    ensures Is(ts, c, STRING) ==> Atomic(ts, c) == Parsed(Some(String(Some(ts[c]))), c + 1)
    ensures !Is(ts, c, IDENTIFIER) && !Is(ts, c, NUMBER) && !Is(ts, c, STRING) ==>
      Atomic(ts, c) == Parsed(None, c)
  {
    SeesIs(ts, c, IDENTIFIER);
    SeesIs(ts, c, NUMBER);
    SeesIs(ts, c, STRING);
  }

  /** The nodes `parenthetical()` can give: a bracketed expression or a leaf. */
  predicate Primary(n: Node)
  {
    n.Parenthetical? || n.Optional? || n.Identifier? || n.Number? || n.String?
  }

  lemma BracketedIsPrimary(ts: seq<Token>, c: nat)
    requires c <= |ts|
    ensures Bracketed(ts, c).node.Some? ==> Primary(Bracketed(ts, c).node.value)
  {
  }

  /**
   * An Assignment is built exactly for an IDENTIFIER followed by `=`, and then takes the
   * identifier and what `parenthetical()` parses after the `=`.
   */
  lemma AssignmentNeedsIdentifierAndAssign(ts: seq<Token>, c: nat)
    requires c <= |ts| && Lexed(ts)
    ensures var r := AssignmentOf(ts, c);
      (r.node.Some? && r.node.value.Assignment?) <==> Is(ts, c, IDENTIFIER) && Is(ts, c + 1, ASSIGN)
    ensures Is(ts, c, IDENTIFIER) && Is(ts, c + 1, ASSIGN) ==>
      var e := Bracketed(ts, c + 2);
      AssignmentOf(ts, c) == Parsed(Some(Assignment(Identifier(Some(ts[c])), e.node)), e.next)
  {
    SeesIs(ts, c, IDENTIFIER);
    SeesIs(ts, c + 1, ASSIGN);
    BracketedIsPrimary(ts, c);
  }

  /** An assignment's result is an Assignment or a primary, never a postfix. */
  lemma AssignmentIsOperand(ts: seq<Token>, c: nat)
    requires c <= |ts|
    ensures var r := AssignmentOf(ts, c); r.node.Some? ==> r.node.value.Assignment? || Primary(r.node.value)
  {
    BracketedIsPrimary(ts, c);
  }

  /** Neither a Star nor a Plus. */
  predicate Unrepeated(o: Option<Node>)
  {
    o.None? || !(o.value.Star? || o.value.Plus?)
  }

  /**
   * `repetition` applies at most one postfix: `*` gives a Star, otherwise `+` gives a Plus,
   * around an operand that is itself not repeated.
   */
  lemma RepetitionAppliesOnePostfix(ts: seq<Token>, c: nat)
    requires c <= |ts| && Lexed(ts)
    ensures var e, r := AssignmentOf(ts, c), Repetition(ts, c);
      Unrepeated(e.node) &&
      (Is(ts, e.next, STAR) ==> r == Parsed(Some(Star(e.node)), e.next + 1)) &&
      (Is(ts, e.next, PLUS) ==> r == Parsed(Some(Plus(e.node)), e.next + 1)) &&
      (!Is(ts, e.next, STAR) && !Is(ts, e.next, PLUS) ==> r == e)
  {
    var e := AssignmentOf(ts, c);
    AssignmentIsOperand(ts, c);
    SeesIs(ts, e.next, STAR);
    SeesIs(ts, e.next, PLUS);
  }

  /** What `repetition()` gives: an operand, or one Star or Plus around one. */
  predicate RepetitionNode(o: Option<Node>)
  {
    o.None? || Unrepeated(o) || ((o.value.Star? || o.value.Plus?) && Unrepeated(o.value.expression))
  }

  lemma RepetitionShape(ts: seq<Token>, c: nat)
    requires c <= |ts|
    ensures RepetitionNode(Repetition(ts, c).node)
    ensures var n := Repetition(ts, c).node;
      n.Some? ==> !(n.value.Concatenation? || n.value.Alternation? || n.value.Sequence?)
  {
    AssignmentIsOperand(ts, c);
  }

  /** A second postfix is not consumed: a `*` or `+` after a repetition ends the concatenation. */
  lemma PostfixEndsConcatenation(ts: seq<Token>, c: nat)
    requires c <= |ts| && Lexed(ts)
    requires var r := Repetition(ts, c); Is(ts, r.next, STAR) || Is(ts, r.next, PLUS)
    ensures Concatenated(ts, c) == Repetition(ts, c)
  {
    SeesHead(ts, Repetition(ts, c).next);
  }

  // ---------------------------------------------------------------------------------------
  // Concatenation and alternation
  // ---------------------------------------------------------------------------------------

  /**
   * The concatenation loop keeps the operands already collected, adds one for each
   * lookahead that can begin an operand, and stops at the first that cannot.
   */
  lemma {:induction false} OperandsExtend(ts: seq<Token>, c: nat, acc: seq<Option<Node>>)
    requires c <= |ts|
    ensures var r := Operands(ts, c, acc);
      |r.nodes| >= |acc| && r.nodes[..|acc|] == acc && !Sees(ts, r.next, HeadTypes) &&
      (Sees(ts, c, HeadTypes) ==> |r.nodes| > |acc| && r.nodes[|acc|] == Repetition(ts, c).node) &&
      (forall k :: |acc| <= k < |r.nodes| ==> RepetitionNode(r.nodes[k]))
    decreases |ts| - c
  {
    if Sees(ts, c, HeadTypes) {
      var e := Repetition(ts, c);
      RepetitionShape(ts, c);
      OperandsExtend(ts, e.next, acc + [e.node]);
      var r := Operands(ts, e.next, acc + [e.node]);
      assert r.nodes[..|acc| + 1][..|acc|] == r.nodes[..|acc|];
    }
  }

  /**
   * A Concatenation is built exactly when another operand can begin after the first
   * repetition; it then holds the first repetition and at least one more.
   */
  lemma ConcatenationNeedsSecondOperand(ts: seq<Token>, c: nat)
    requires c <= |ts|
    ensures var f, r := Repetition(ts, c), Concatenated(ts, c);
      (r.node.Some? && r.node.value.Concatenation?) <==> Sees(ts, f.next, HeadTypes)
    ensures var f, r := Repetition(ts, c), Concatenated(ts, c);
      Sees(ts, f.next, HeadTypes) ==>
        |r.node.value.expressions| >= 2 && r.node.value.expressions[0] == f.node &&
        r.node.value.expressions[1] == Repetition(ts, f.next).node &&
        (forall k :: 0 <= k < |r.node.value.expressions| ==> RepetitionNode(r.node.value.expressions[k]))
  {
    var f := Repetition(ts, c);
    RepetitionShape(ts, c);
    if Sees(ts, f.next, HeadTypes) {
      OperandsExtend(ts, f.next, [f.node]);
    }
  }

  /** A concatenation's result is never an Alternation. */
  lemma ConcatenatedIsNotAlternation(ts: seq<Token>, c: nat)
    requires c <= |ts|
    ensures var n := Concatenated(ts, c).node; n.Some? ==> !n.value.Alternation?
  {
    RepetitionShape(ts, c);
  }

  /**
   * The alternation loop keeps the alternatives already collected, adds one concatenation
   * for each PIPE it consumes, and stops at the first lookahead that is not a PIPE.
   */
  lemma {:induction false} AlternativesExtend(ts: seq<Token>, c: nat, acc: seq<Option<Node>>)
    requires c <= |ts|
    ensures var r := Alternatives(ts, c, acc);
      |r.nodes| >= |acc| && r.nodes[..|acc|] == acc && !Sees(ts, r.next, PIPE) &&
      (Sees(ts, c, PIPE) ==> |r.nodes| > |acc| && r.nodes[|acc|] == Concatenated(ts, c + 1).node) &&
      (forall k :: |acc| <= k < |r.nodes| ==> r.nodes[k].None? || !r.nodes[k].value.Alternation?)
    decreases |ts| - c
  {
    if Sees(ts, c, PIPE) {
      var e := Concatenated(ts, c + 1);
      ConcatenatedIsNotAlternation(ts, c + 1);
      AlternativesExtend(ts, e.next, acc + [e.node]);
      var r := Alternatives(ts, e.next, acc + [e.node]);
      assert r.nodes[..|acc| + 1][..|acc|] == r.nodes[..|acc|];
    }
  }

  /**
   * An Alternation is built exactly when a PIPE follows the first concatenation; its
   * alternatives are concatenations, none of them an Alternation itself.
   */
  lemma AlternationNeedsPipe(ts: seq<Token>, c: nat)
    requires c <= |ts|
    ensures var f, r := Concatenated(ts, c), Expression(ts, c);
      (r.node.Some? && r.node.value.Alternation?) <==> Sees(ts, f.next, PIPE)
    ensures var f, r := Concatenated(ts, c), Expression(ts, c);
      Sees(ts, f.next, PIPE) ==>
        |r.node.value.expressions| >= 2 && r.node.value.expressions[0] == f.node &&
        (forall k :: 0 <= k < |r.node.value.expressions| ==>
          r.node.value.expressions[k].None? || !r.node.value.expressions[k].value.Alternation?)
  {
    var f := Concatenated(ts, c);
    ConcatenatedIsNotAlternation(ts, c);
    if Sees(ts, f.next, PIPE) {
      AlternativesExtend(ts, f.next, [f.node]);
    }
  }

  /** An identifier that no `=`, `*` or `+` follows is a repetition on its own. */
  lemma LoneIdentifier(ts: seq<Token>, c: nat)
    requires c < |ts| && ts[c].kind == IDENTIFIER
    requires !Sees(ts, c + 1, ASSIGN) && !Sees(ts, c + 1, STAR) && !Sees(ts, c + 1, PLUS)
    ensures Repetition(ts, c) == Parsed(Some(Identifier(Some(ts[c]))), c + 1)
  {
    assert Sees(ts, c, IDENTIFIER);
    assert AssignmentOf(ts, c) == Parsed(Some(Identifier(Some(ts[c]))), c + 1);
  }

  /** `a b` followed by a PIPE is one concatenation that stops before the PIPE. */
  lemma PairBeforePipe(ts: seq<Token>)
    requires |ts| >= 3
    requires ts[0].kind == IDENTIFIER && ts[1].kind == IDENTIFIER && ts[2].kind == PIPE
    ensures Concatenated(ts, 0) ==
      Parsed(Some(Concatenation([Some(Identifier(Some(ts[0]))), Some(Identifier(Some(ts[1])))])), 2)
  {
    LoneIdentifier(ts, 0);
    LoneIdentifier(ts, 1);
    var a, b := Some(Identifier(Some(ts[0]))), Some(Identifier(Some(ts[1])));
    assert !Sees(ts, 2, HeadTypes);
    assert Operands(ts, 2, [a, b]) == Collected([a, b], 2);
    assert Sees(ts, 1, HeadTypes);
    assert Operands(ts, 1, [a]) == Operands(ts, 2, [a] + [b]);
    assert [a] + [b] == [a, b];
    assert Repetition(ts, 0) == Parsed(a, 1);
  }

  /** A lone identifier before an EOL is a concatenation on its own. */
  lemma LastOperand(ts: seq<Token>)
    requires |ts| >= 5 && ts[3].kind == IDENTIFIER && ts[4].kind == EOL
    ensures Concatenated(ts, 3) == Parsed(Some(Identifier(Some(ts[3]))), 4)
  {
    LoneIdentifier(ts, 3);
    assert Repetition(ts, 3).next == 4;
    assert !Sees(ts, 4, HeadTypes);
  }

  /**
   * Alternation binds looser than concatenation: `a b | c` at the end of a line parses as
   * `Alternation(Concatenation(a, b), c)`, leaving the EOL.
   */
  lemma ConcatenationBindsTighter(ts: seq<Token>)
    requires |ts| >= 5
    requires ts[0].kind == IDENTIFIER && ts[1].kind == IDENTIFIER && ts[2].kind == PIPE
    requires ts[3].kind == IDENTIFIER && ts[4].kind == EOL
    ensures Expression(ts, 0) == Parsed(Some(Alternation([
      Some(Concatenation([Some(Identifier(Some(ts[0]))), Some(Identifier(Some(ts[1])))])),
      Some(Identifier(Some(ts[3])))])), 4)
  {
    PairBeforePipe(ts);
    LastOperand(ts);
    var ab := Some(Concatenation([Some(Identifier(Some(ts[0]))), Some(Identifier(Some(ts[1])))]));
    var c := Some(Identifier(Some(ts[3])));
    assert !Sees(ts, 4, PIPE);
    assert Alternatives(ts, 4, [ab, c]) == Collected([ab, c], 4);
    assert Sees(ts, 2, PIPE);
    assert Alternatives(ts, 2, [ab]) == Alternatives(ts, 4, [ab] + [c]);
    assert [ab] + [c] == [ab, c];
    assert Concatenated(ts, 0) == Parsed(ab, 2);
    assert Expression(ts, 0) == Alternated(ts, 0);
  }

  // ---------------------------------------------------------------------------------------
  // Brackets
  // ---------------------------------------------------------------------------------------

  /**
   * `( expression output )` gives a Parenthetical of the expression with no output: the
   * output is parsed and dropped, and a missing `)` is skipped without a complaint.
   */
  lemma ParentheticalDropsOutput(ts: seq<Token>, c: nat)
    requires c <= |ts| && Lexed(ts) && Is(ts, c, L_PAREN)
    ensures var e := Expression(ts, c + 1); var o := OutputOf(ts, e.next); var r := Bracketed(ts, c);
      r.node == Some(GrammarNodes.Parenthetical(e.node, None)) &&
      (Is(ts, o.next, R_PAREN) ==> r.next == o.next + 1) &&
      (!Is(ts, o.next, R_PAREN) ==> r.next == o.next)
  {
    SeesIs(ts, c, L_PAREN);
    SeesIs(ts, OutputOf(ts, Expression(ts, c + 1).next).next, R_PAREN);
  }

  /** `[ expression output ]` gives an Optional in the same way. */
  lemma OptionalDropsOutput(ts: seq<Token>, c: nat)
    requires c <= |ts| && Lexed(ts) && Is(ts, c, L_BRACK)
    ensures var e := Expression(ts, c + 1); var o := OutputOf(ts, e.next); var r := Bracketed(ts, c);
      r.node == Some(GrammarNodes.Optional(e.node, None)) &&
      (Is(ts, o.next, R_BRACK) ==> r.next == o.next + 1) &&
      (!Is(ts, o.next, R_BRACK) ==> r.next == o.next)
  {
    SeesIs(ts, c, L_PAREN);
    SeesIs(ts, c, L_BRACK);
    SeesIs(ts, OutputOf(ts, Expression(ts, c + 1).next).next, R_BRACK);
  }

  // ---------------------------------------------------------------------------------------
  // Annotations
  // ---------------------------------------------------------------------------------------

  /** `*a` in an annotation: the star is a prefix and applies to the atom after it. */
  lemma StarredAtom(ts: seq<Token>, c: nat)
    requires c + 2 < |ts| && ts[c].kind == STAR && ts[c + 1].kind == IDENTIFIER
    requires !Sees(ts, c + 2, L_PAREN)
    ensures StarAnnotation(ts, c) == Parsed(Some(Star(Some(Identifier(Some(ts[c + 1]))))), c + 2)
  {
    assert Sees(ts, c, STAR) && !Sees(ts, c + 1, L_PAREN);
    assert AtomAnnotation(ts, c + 1) == Parsed(Some(Identifier(Some(ts[c + 1]))), c + 2);
  }

  /** A plain identifier in an annotation. */
  lemma PlainAtom(ts: seq<Token>, c: nat)
    requires c < |ts| && ts[c].kind == IDENTIFIER
    ensures StarAnnotation(ts, c) == Parsed(Some(Identifier(Some(ts[c]))), c + 1)
  {
    assert !Sees(ts, c, STAR) && !Sees(ts, c, L_PAREN);
    assert AtomAnnotation(ts, c) == Parsed(Some(Identifier(Some(ts[c]))), c + 1);
  }

  /** `*a | b` before a COMMA: the PIPE joins the starred and the plain annotation. */
  lemma PipeBeforeComma(ts: seq<Token>)
    requires |ts| >= 6
    requires ts[1].kind == STAR && ts[2].kind == IDENTIFIER && ts[3].kind == PIPE
    requires ts[4].kind == IDENTIFIER && ts[5].kind == COMMA
    ensures PipeAnnotation(ts, 1) == Parsed(Some(Alternation([
      Some(Star(Some(Identifier(Some(ts[2]))))), Some(Identifier(Some(ts[4])))])), 5)
  {
    StarredAtom(ts, 1);
    PlainAtom(ts, 4);
    var s, b := Some(Star(Some(Identifier(Some(ts[2]))))), Some(Identifier(Some(ts[4])));
    assert !Sees(ts, 5, PIPE);
    assert PipeAnnotations(ts, 5, [s, b]) == Collected([s, b], 5);
    assert Sees(ts, 3, PIPE);
    assert PipeAnnotations(ts, 3, [s]) == PipeAnnotations(ts, 5, [s] + [b]);
    assert [s] + [b] == [s, b];
    assert StarAnnotation(ts, 1) == Parsed(s, 3);
  }

  /** `c` before the closing bracket. */
  lemma LastAnnotation(ts: seq<Token>)
    requires |ts| >= 8 && ts[6].kind == IDENTIFIER && ts[7].kind == R_BRACK
    ensures PipeAnnotation(ts, 6) == Parsed(Some(Identifier(Some(ts[6]))), 7)
  {
    PlainAtom(ts, 6);
    assert StarAnnotation(ts, 6).next == 7;
    assert !Sees(ts, 7, PIPE);
  }

  /** `*a | b, c` inside the brackets. */
  lemma CommaJoinsAlternation(ts: seq<Token>)
    requires |ts| >= 8
    requires ts[1].kind == STAR && ts[2].kind == IDENTIFIER
    requires ts[3].kind == PIPE && ts[4].kind == IDENTIFIER && ts[5].kind == COMMA
    requires ts[6].kind == IDENTIFIER && ts[7].kind == R_BRACK
    ensures MultAnnotation(ts, 1) == Parsed(Some(Sequence([
      Some(Alternation([Some(Star(Some(Identifier(Some(ts[2]))))), Some(Identifier(Some(ts[4])))])),
      Some(Identifier(Some(ts[6])))])), 7)
  {
    PipeBeforeComma(ts);
    LastAnnotation(ts);
    var alt := Some(Alternation([Some(Star(Some(Identifier(Some(ts[2]))))), Some(Identifier(Some(ts[4])))]));
    var c := Some(Identifier(Some(ts[6])));
    assert !Sees(ts, 7, COMMA);
    assert MultAnnotations(ts, 7, [alt, c]) == Collected([alt, c], 7);
    assert Sees(ts, 5, COMMA);
    assert MultAnnotations(ts, 5, [alt]) == MultAnnotations(ts, 7, [alt] + [c]);
    assert [alt] + [c] == [alt, c];
    assert PipeAnnotation(ts, 1) == Parsed(alt, 5);
  }

  /**
   * In an annotation COMMA binds loosest and PIPE next, and `*` is a prefix:
   * `[*a | b, c]` parses as `Annotation(Sequence(Alternation(Star(a), b), c))`.
   */
  lemma AnnotationPrecedence(ts: seq<Token>)
    requires |ts| >= 8
    requires ts[0].kind == L_BRACK && ts[1].kind == STAR && ts[2].kind == IDENTIFIER
    requires ts[3].kind == PIPE && ts[4].kind == IDENTIFIER && ts[5].kind == COMMA
    requires ts[6].kind == IDENTIFIER && ts[7].kind == R_BRACK
    ensures AnnotationOf(ts, 0) == Parsed(Some(Annotation(Some(Sequence([
      Some(Alternation([Some(Star(Some(Identifier(Some(ts[2]))))), Some(Identifier(Some(ts[4])))])),
      Some(Identifier(Some(ts[6])))])))), 8)
  {
    CommaJoinsAlternation(ts);
    assert Consume(ts, 0, L_BRACK).next == 1;
    assert Consume(ts, 7, R_BRACK).next == 8;
  }

  // ---------------------------------------------------------------------------------------
  // Annotations, parameters and outputs, over all streams
  // ---------------------------------------------------------------------------------------

  /** A node a PIPE can join: present, and itself neither an Alternation nor a Sequence. */
  predicate Unjoined(o: Option<Node>)
  {
    o.Some? && !o.value.Alternation? && !o.value.Sequence?
  }

  /** A node a COMMA can join: present, and not itself a Sequence. */
  predicate Unsequenced(o: Option<Node>)
  {
    o.Some? && !o.value.Sequence?
  }

  /**
   * `star_annotation`: a Star of the atom after it exactly at a STAR, otherwise the atom;
   * either way neither an Alternation nor a Sequence.
   */
  lemma StarAnnotationPrefix(ts: seq<Token>, c: nat)
    requires c <= |ts|
    ensures var r := StarAnnotation(ts, c);
      Unjoined(r.node) && (r.node.value.Star? <==> Sees(ts, c, STAR))
    ensures Sees(ts, c, STAR) ==> var a := AtomAnnotation(ts, c + 1);
      StarAnnotation(ts, c) == Parsed(Some(Star(a.node)), a.next)
    ensures !Sees(ts, c, STAR) ==> StarAnnotation(ts, c) == AtomAnnotation(ts, c)
  {
  }

  /**
   * The loop of `pipe_annotation` keeps what it has, adds one starred annotation per PIPE
   * it consumes, and stops at the first lookahead that is not a PIPE.
   */
  lemma {:induction false} PipeAnnotationsExtend(ts: seq<Token>, c: nat, acc: seq<Option<Node>>)
    requires c <= |ts|
    ensures var r := PipeAnnotations(ts, c, acc);
      |r.nodes| >= |acc| && r.nodes[..|acc|] == acc && !Sees(ts, r.next, PIPE) &&
      (Sees(ts, c, PIPE) ==> |r.nodes| > |acc| && r.nodes[|acc|] == StarAnnotation(ts, c + 1).node) &&
      (!Sees(ts, c, PIPE) ==> r == Collected(acc, c)) &&
      (forall k :: |acc| <= k < |r.nodes| ==> Unjoined(r.nodes[k]))
    decreases |ts| - c
  {
    if Sees(ts, c, PIPE) {
      var e := StarAnnotation(ts, c + 1);
      StarAnnotationPrefix(ts, c + 1);
      PipeAnnotationsExtend(ts, e.next, acc + [e.node]);
      var r := PipeAnnotations(ts, e.next, acc + [e.node]);
      assert r.nodes[..|acc| + 1][..|acc|] == r.nodes[..|acc|];
    }
  }

  /**
   * `pipe_annotation` builds an Alternation exactly when a PIPE follows the first starred
   * annotation: it begins with that annotation and the one after the PIPE, none of its
   * members is an Alternation or a Sequence, and no PIPE is left after it. Without the PIPE
   * the starred annotation is the result. It is never a Sequence.
   */
  lemma PipeAnnotationNeedsPipe(ts: seq<Token>, c: nat)
    requires c <= |ts|
    ensures var f, r := StarAnnotation(ts, c), PipeAnnotation(ts, c);
      (r.node.value.Alternation? <==> Sees(ts, f.next, PIPE)) && !r.node.value.Sequence?
    ensures var f := StarAnnotation(ts, c); !Sees(ts, f.next, PIPE) ==> PipeAnnotation(ts, c) == f
    ensures var f, r := StarAnnotation(ts, c), PipeAnnotation(ts, c);
      Sees(ts, f.next, PIPE) ==>
        var xs := r.node.value.expressions;
        |xs| >= 2 && xs[0] == f.node && xs[1] == StarAnnotation(ts, f.next + 1).node &&
        !Sees(ts, r.next, PIPE) && (forall k :: 0 <= k < |xs| ==> Unjoined(xs[k]))
  {
    var f := StarAnnotation(ts, c);
    StarAnnotationPrefix(ts, c);
    if Sees(ts, f.next, PIPE) {
      PipeAnnotationsExtend(ts, f.next, [f.node]);
      var xs := PipeAnnotations(ts, f.next, [f.node]).nodes;
      assert xs[0] == xs[..1][0];
    }
  }

  /**
   * The loop of `mult_annotation` keeps what it has, adds one pipe annotation per COMMA it
   * consumes, and stops at the first lookahead that is not a COMMA.
   */
  lemma {:induction false} MultAnnotationsExtend(ts: seq<Token>, c: nat, acc: seq<Option<Node>>)
    requires c <= |ts|
    ensures var r := MultAnnotations(ts, c, acc);
      |r.nodes| >= |acc| && r.nodes[..|acc|] == acc && !Sees(ts, r.next, COMMA) &&
      (Sees(ts, c, COMMA) ==> |r.nodes| > |acc| && r.nodes[|acc|] == PipeAnnotation(ts, c + 1).node) &&
      (!Sees(ts, c, COMMA) ==> r == Collected(acc, c)) &&
      (forall k :: |acc| <= k < |r.nodes| ==> Unsequenced(r.nodes[k]))
    decreases |ts| - c
  {
    if Sees(ts, c, COMMA) {
      var e := PipeAnnotation(ts, c + 1);
      PipeAnnotationNeedsPipe(ts, c + 1);
      MultAnnotationsExtend(ts, e.next, acc + [e.node]);
      var r := MultAnnotations(ts, e.next, acc + [e.node]);
      assert r.nodes[..|acc| + 1][..|acc|] == r.nodes[..|acc|];
    }
  }

  /**
   * COMMA binds loosest: `mult_annotation` builds a Sequence exactly when a COMMA follows
   * the first pipe annotation. It begins with that annotation and the one after the COMMA,
   * none of its elements is a Sequence, and no COMMA is left after it. Without the COMMA
   * the pipe annotation is the result.
   */
  lemma MultAnnotationNeedsComma(ts: seq<Token>, c: nat)
    requires c <= |ts|
    ensures var f, r := PipeAnnotation(ts, c), MultAnnotation(ts, c);
      r.node.value.Sequence? <==> Sees(ts, f.next, COMMA)
    ensures var f := PipeAnnotation(ts, c); !Sees(ts, f.next, COMMA) ==> MultAnnotation(ts, c) == f
    ensures var f, r := PipeAnnotation(ts, c), MultAnnotation(ts, c);
      Sees(ts, f.next, COMMA) ==>
        var xs := r.node.value.elements;
        |xs| >= 2 && xs[0] == f.node && xs[1] == PipeAnnotation(ts, f.next + 1).node &&
        !Sees(ts, r.next, COMMA) && (forall k :: 0 <= k < |xs| ==> Unsequenced(xs[k]))
  {
    var f := PipeAnnotation(ts, c);
    PipeAnnotationNeedsPipe(ts, c);
    if Sees(ts, f.next, COMMA) {
      MultAnnotationsExtend(ts, f.next, [f.node]);
      var xs := MultAnnotations(ts, f.next, [f.node]).nodes;
      assert xs[0] == xs[..1][0];
    }
  }

  /**
   * `annotation()`: an Annotation around the mult annotation that starts after an optional
   * `[`, taking a `]` after it when there is one.
   */
  lemma AnnotationBrackets(ts: seq<Token>, c: nat)
    requires c <= |ts|
    ensures var from := if Sees(ts, c, L_BRACK) then c + 1 else c; var m := MultAnnotation(ts, from);
      AnnotationOf(ts, c) ==
        Parsed(Some(Annotation(m.node)), if Sees(ts, m.next, R_BRACK) then m.next + 1 else m.next)
  {
  }

  /**
   * `star_parameter`: a Star of the atom after it exactly at a STAR, otherwise the atom;
   * either way not a Sequence.
   */
  lemma StarParameterPrefix(ts: seq<Token>, c: nat)
    requires c <= |ts|
    ensures var r := StarParameter(ts, c);
      Unsequenced(r.node) && (r.node.value.Star? <==> Sees(ts, c, STAR))
    ensures Sees(ts, c, STAR) ==> var a := AtomParameter(ts, c + 1);
      StarParameter(ts, c) == Parsed(Some(Star(a.node)), a.next)
    ensures !Sees(ts, c, STAR) ==> StarParameter(ts, c) == AtomParameter(ts, c)
  {
  }

  /**
   * `atom_parameter`: a Call of the identifier and the mult parameter in the parentheses
   * exactly when an L_PAREN follows the identifier, taking a `)` after it when there is one;
   * otherwise the Identifier alone.
   */
  lemma AtomParameterCall(ts: seq<Token>, c: nat)
    requires c <= |ts|
    ensures var i, r := Ident(ts, c), AtomParameter(ts, c);
      (r.node.value.Call? <==> Sees(ts, i.next, L_PAREN)) &&
      (!Sees(ts, i.next, L_PAREN) ==> r == i)
    ensures var i, r := Ident(ts, c), AtomParameter(ts, c);
      Sees(ts, i.next, L_PAREN) ==>
        var p := MultParameter(ts, i.next + 1);
        r.node == Some(Call(Identifier(Consume(ts, c, IDENTIFIER).token), p.node.value)) &&
        r.next == (if Sees(ts, p.next, R_PAREN) then p.next + 1 else p.next)
  {
  }

  /**
   * The loop of `mult_parameter` keeps what it has, adds one starred parameter per COMMA
   * it consumes, and stops at the first lookahead that is not a COMMA.
   */
  lemma {:induction false} MultParametersExtend(ts: seq<Token>, c: nat, acc: seq<Option<Node>>)
    requires c <= |ts|
    ensures var r := MultParameters(ts, c, acc);
      |r.nodes| >= |acc| && r.nodes[..|acc|] == acc && !Sees(ts, r.next, COMMA) &&
      (Sees(ts, c, COMMA) ==> |r.nodes| > |acc| && r.nodes[|acc|] == StarParameter(ts, c + 1).node) &&
      (!Sees(ts, c, COMMA) ==> r == Collected(acc, c)) &&
      (forall k :: |acc| <= k < |r.nodes| ==> Unsequenced(r.nodes[k]))
    decreases |ts| - c
  {
    if Sees(ts, c, COMMA) {
      var e := StarParameter(ts, c + 1);
      StarParameterPrefix(ts, c + 1);
      MultParametersExtend(ts, e.next, acc + [e.node]);
      var r := MultParameters(ts, e.next, acc + [e.node]);
      assert r.nodes[..|acc| + 1][..|acc|] == r.nodes[..|acc|];
    }
  }

  /**
   * `mult_parameter` builds a Sequence exactly when a COMMA follows the first starred
   * parameter. It begins with that parameter and the one after the COMMA, none of its
   * elements is a Sequence, and no COMMA is left after it. Without the COMMA the starred
   * parameter is the result.
   */
  lemma MultParameterNeedsComma(ts: seq<Token>, c: nat)
    requires c <= |ts|
    ensures var f, r := StarParameter(ts, c), MultParameter(ts, c);
      r.node.value.Sequence? <==> Sees(ts, f.next, COMMA)
    ensures var f := StarParameter(ts, c); !Sees(ts, f.next, COMMA) ==> MultParameter(ts, c) == f
    ensures var f, r := StarParameter(ts, c), MultParameter(ts, c);
      Sees(ts, f.next, COMMA) ==>
        var xs := r.node.value.elements;
        |xs| >= 2 && xs[0] == f.node && xs[1] == StarParameter(ts, f.next + 1).node &&
        !Sees(ts, r.next, COMMA) && (forall k :: 0 <= k < |xs| ==> Unsequenced(xs[k]))
  {
    var f := StarParameter(ts, c);
    StarParameterPrefix(ts, c);
    if Sees(ts, f.next, COMMA) {
      MultParametersExtend(ts, f.next, [f.node]);
      var xs := MultParameters(ts, f.next, [f.node]).nodes;
      assert xs[0] == xs[..1][0];
    }
  }

  /**
   * `atom_output` runs the statements of `atom_parameter`: a Call exactly when an L_PAREN
   * follows the identifier, otherwise the Identifier; never a Star or a Sequence.
   */
  lemma AtomOutputIsAtomParameter(ts: seq<Token>, c: nat)
    requires c <= |ts|
    ensures AtomOutput(ts, c) == AtomParameter(ts, c)
    ensures var r := AtomOutput(ts, c);
      (r.node.value.Call? <==> Sees(ts, Ident(ts, c).next, L_PAREN)) &&
      (r.node.value.Identifier? <==> !Sees(ts, Ident(ts, c).next, L_PAREN))
  {
    AtomParameterCall(ts, c);
  }

  /**
   * The loop of `mult_output` keeps what it has, adds one atom output per COMMA it
   * consumes, and stops at the first lookahead that is not a COMMA.
   */
  lemma {:induction false} MultOutputsExtend(ts: seq<Token>, c: nat, acc: seq<Option<Node>>)
    requires c <= |ts|
    ensures var r := MultOutputs(ts, c, acc);
      |r.nodes| >= |acc| && r.nodes[..|acc|] == acc && !Sees(ts, r.next, COMMA) &&
      (Sees(ts, c, COMMA) ==> |r.nodes| > |acc| && r.nodes[|acc|] == AtomOutput(ts, c + 1).node) &&
      (!Sees(ts, c, COMMA) ==> r == Collected(acc, c)) &&
      (forall k :: |acc| <= k < |r.nodes| ==> Unsequenced(r.nodes[k]))
    decreases |ts| - c
  {
    if Sees(ts, c, COMMA) {
      var e := AtomOutput(ts, c + 1);
      AtomOutputIsAtomParameter(ts, c + 1);
      MultOutputsExtend(ts, e.next, acc + [e.node]);
      var r := MultOutputs(ts, e.next, acc + [e.node]);
      assert r.nodes[..|acc| + 1][..|acc|] == r.nodes[..|acc|];
    }
  }

  /**
   * `mult_output` builds a Sequence exactly when a COMMA follows the first atom output. It
   * begins with that output and the one after the COMMA, none of its elements is a
   * Sequence, and no COMMA is left after it. Without the COMMA the atom output is the result.
   */
  lemma MultOutputNeedsComma(ts: seq<Token>, c: nat)
    requires c <= |ts|
    ensures var f, r := AtomOutput(ts, c), MultOutput(ts, c);
      r.node.value.Sequence? <==> Sees(ts, f.next, COMMA)
    ensures var f := AtomOutput(ts, c); !Sees(ts, f.next, COMMA) ==> MultOutput(ts, c) == f
    ensures var f, r := AtomOutput(ts, c), MultOutput(ts, c);
      Sees(ts, f.next, COMMA) ==>
        var xs := r.node.value.elements;
        |xs| >= 2 && xs[0] == f.node && xs[1] == AtomOutput(ts, f.next + 1).node &&
        !Sees(ts, r.next, COMMA) && (forall k :: 0 <= k < |xs| ==> Unsequenced(xs[k]))
  {
    var f := AtomOutput(ts, c);
    AtomOutputIsAtomParameter(ts, c);
    if Sees(ts, f.next, COMMA) {
      MultOutputsExtend(ts, f.next, [f.node]);
      var xs := MultOutputs(ts, f.next, [f.node]).nodes;
      assert xs[0] == xs[..1][0];
    }
  }

  /**
   * `output()`: an Output of the mult output exactly at an L_BRACE, taking a `}` after it
   * when there is one; otherwise None, with nothing consumed.
   */
  lemma OutputNeedsBrace(ts: seq<Token>, c: nat)
    requires c <= |ts|
    ensures OutputOf(ts, c).node.Some? <==> Sees(ts, c, L_BRACE)
    ensures !Sees(ts, c, L_BRACE) ==> OutputOf(ts, c) == Parsed(None, c)
    ensures Sees(ts, c, L_BRACE) ==> var o := MultOutput(ts, c + 1);
      OutputOf(ts, c) ==
        Parsed(Some(Output(o.node)), if Sees(ts, o.next, R_BRACE) then o.next + 1 else o.next)
  {
  }

  // ---------------------------------------------------------------------------------------
  // Productions and the file
  // ---------------------------------------------------------------------------------------

  predicate AllProductions(xs: seq<Option<Node>>)
  {
    forall k :: 0 <= k < |xs| ==> xs[k].Some? && xs[k].value.Production?
  }

  /**
   * The loop's result begins with `acc` and goes on with Productions only, and it stops
   * either where no EOL follows, or just after an EOL that no PIPE follows.
   */
  predicate ProductionsAfter(ts: seq<Token>, acc: seq<Option<Node>>, r: Collected)
  {
    |r.nodes| >= |acc| && r.nodes[..|acc|] == acc && AllProductions(r.nodes[|acc|..]) &&
    r.next <= |ts| &&
    ((r.next > 0 && Sees(ts, r.next - 1, EOL) && !Sees(ts, r.next, PIPE)) || !Sees(ts, r.next, EOL))
  }

  /** What holds after one more production holds before it. */
  lemma ProductionsAfterOne(ts: seq<Token>, acc: seq<Option<Node>>, p: Option<Node>, r: Collected)
    requires ProductionsAfter(ts, acc + [p], r) && p.Some? && p.value.Production?
    ensures ProductionsAfter(ts, acc, r)
  {
    assert r.nodes[..|acc| + 1][..|acc|] == r.nodes[..|acc|];
    assert r.nodes[|acc|..] == [p] + r.nodes[|acc| + 1..];
  }

  lemma NextAlternant(ts: seq<Token>, c: nat, acc: seq<Option<Node>>)
    requires c <= |ts| && Sees(ts, c, EOL) && Sees(ts, c + 1, PIPE)
    ensures var p := ProductionOf(ts, c + 2);
      p.node.value.Production? && p.next >= c + 2 &&
      Alternants(ts, c, acc) == Alternants(ts, p.next, acc + [p.node])
  {
  }

  /**
   * The productions loop adds one Production per `EOL |` pair and stops either where no
   * EOL follows, or just after an EOL that no PIPE follows, which it consumes.
   */
  lemma {:induction false} AlternantsShape(ts: seq<Token>, c: nat, acc: seq<Option<Node>>)
    requires c <= |ts|
    ensures ProductionsAfter(ts, acc, Alternants(ts, c, acc))
    ensures Sees(ts, c, EOL) ==> Alternants(ts, c, acc).next > c
    decreases |ts| - c
  {
    if Sees(ts, c, EOL) && Sees(ts, c + 1, PIPE) {
      NextAlternant(ts, c, acc);
      var p := ProductionOf(ts, c + 2);
      AlternantsShape(ts, p.next, acc + [p.node]);
      ProductionsAfterOne(ts, acc, p.node, Alternants(ts, p.next, acc + [p.node]));
    } else if Sees(ts, c, EOL) {
      assert Alternants(ts, c, acc) == Collected(acc, c + 1);
    } else {
      assert Alternants(ts, c, acc) == Collected(acc, c);
    }
  }

  /**
   * `productions()` gives a Sequence of Productions: after a leading EOL those of the
   * `| production` lines, otherwise exactly the one production on the line.
   */
  lemma ProductionsAreSequence(ts: seq<Token>, c: nat)
    requires c <= |ts|
    ensures var r := ProductionsOf(ts, c).node.value; r.Sequence? && AllProductions(r.elements)
    ensures !Sees(ts, c, EOL) ==> ProductionsOf(ts, c).node.value.elements == [ProductionOf(ts, c).node]
  {
    if Sees(ts, c, EOL) {
      AlternantsShape(ts, c, []);
      assert Alternants(ts, c, []).nodes[0..] == Alternants(ts, c, []).nodes;
    }
  }

  /** Definitions each. */
  predicate AllDefinitions(xs: seq<Option<Node>>)
  {
    forall k :: 0 <= k < |xs| ==> xs[k].Some? && xs[k].value.Definition?
  }

  /**
   * A finished outcome is `Root(origin, Sequence(definitions))` whose definitions begin
   * with `acc` and go on with Definitions only, and it stops just after an EOF.
   */
  predicate RootAfter(ts: seq<Token>, origin: string, acc: seq<Option<Node>>, r: GrammarParserSpec.Outcome)
  {
    r.Finished? ==>
      r.root.Root? && r.root.origin == origin && r.root.definitions.Sequence? &&
      |r.root.definitions.elements| >= |acc| && r.root.definitions.elements[..|acc|] == acc &&
      AllDefinitions(r.root.definitions.elements[|acc|..]) &&
      0 < r.next <= |ts| && Sees(ts, r.next - 1, EOF)
  }

  /** What holds after one more definition holds before it. */
  lemma RootAfterDefinition(ts: seq<Token>, origin: string, acc: seq<Option<Node>>, d: Option<Node>, r: GrammarParserSpec.Outcome)
    requires RootAfter(ts, origin, acc + [d], r) && d.Some? && d.value.Definition?
    ensures RootAfter(ts, origin, acc, r)
  {
    if r.Finished? {
      var xs := r.root.definitions.elements;
      assert xs[..|acc| + 1][..|acc|] == xs[..|acc|];
      assert xs[|acc|..] == [d] + xs[|acc| + 1..];
    }
  }

  /**
   * When `parse()` finishes, it returns `Root(origin, Sequence(definitions))` holding the
   * definitions in order, and has just consumed an EOF.
   */
  lemma {:induction false} ParseFinishesAtEof(ts: seq<Token>, origin: string, c: nat, acc: seq<Option<Node>>)
    requires c <= |ts|
    ensures RootAfter(ts, origin, acc, Definitions(ts, origin, c, acc))
    decreases |ts| - c
  {
    if Sees(ts, c, EOL) {
      SkipEol(ts, origin, c, acc);
      ParseFinishesAtEof(ts, origin, c + 1, acc);
    } else if Sees(ts, c, EOF) {
      assert Definitions(ts, origin, c, acc) == Finished(Root(origin, Sequence(acc)), c + 1);
    } else {
      var d := DefinitionOf(ts, c);
      if d.next != c {
        NextDefinition(ts, origin, c, acc);
        ParseFinishesAtEof(ts, origin, d.next, acc + [d.node]);
        RootAfterDefinition(ts, origin, acc, d.node, Definitions(ts, origin, d.next, acc + [d.node]));
      }
    }
  }

  /** `parse()` skips any run of EOLs. */
  lemma {:induction false} EolsAreSkipped(ts: seq<Token>, origin: string, c: nat, k: nat, acc: seq<Option<Node>>)
    requires c + k <= |ts| && forall i :: c <= i < c + k ==> Sees(ts, i, EOL)
    ensures Definitions(ts, origin, c, acc) == Definitions(ts, origin, c + k, acc)
    decreases k
  {
    if k > 0 {
      SkipEol(ts, origin, c, acc);
      EolsAreSkipped(ts, origin, c + 1, k - 1, acc);
    }
  }

  lemma NextDefinition(ts: seq<Token>, origin: string, c: nat, acc: seq<Option<Node>>)
    requires c <= |ts| && !Sees(ts, c, EOL) && !Sees(ts, c, EOF) && DefinitionOf(ts, c).next != c
    ensures var d := DefinitionOf(ts, c);
      d.node.value.Definition? &&
      Definitions(ts, origin, c, acc) == Definitions(ts, origin, d.next, acc + [d.node])
  {
  }

  lemma SkipEol(ts: seq<Token>, origin: string, c: nat, acc: seq<Option<Node>>)
    requires c < |ts| && Sees(ts, c, EOL)
    ensures Definitions(ts, origin, c, acc) == Definitions(ts, origin, c + 1, acc)
  {
  }

  /** A file of blank lines parses to a Root with no definitions. */
  lemma BlankFile(ts: seq<Token>, origin: string)
    requires |ts| > 0 && Lexed(ts) && Is(ts, |ts| - 1, EOF)
    requires forall i :: 0 <= i < |ts| - 1 ==> ts[i].kind == EOL
    ensures Parse(ts, origin) == Finished(Root(origin, Sequence([])), |ts|)
  {
    forall i | 0 <= i < |ts| - 1
      ensures Sees(ts, i, EOL)
    {
      SeesIs(ts, i, EOL);
    }
    EolsAreSkipped(ts, origin, 0, |ts| - 1, []);
    SeesIs(ts, |ts| - 1, EOL);
    SeesIs(ts, |ts| - 1, EOF);
  }

  /** Before a `)`, an expression parses to None and consumes nothing. */
  lemma NothingBeforeCloser(ts: seq<Token>)
    requires |ts| > 0 && ts[0].kind == R_PAREN
    ensures Expression(ts, 0) == Parsed(None, 0)
  {
    assert !Sees(ts, 0, IDENTIFIER) && !Sees(ts, 0, NUMBER) && !Sees(ts, 0, STRING);
    assert !Sees(ts, 0, L_PAREN) && !Sees(ts, 0, L_BRACK);
    assert Bracketed(ts, 0) == Parsed(None, 0);
    assert Repetition(ts, 0) == Parsed(None, 0);
    assert !Sees(ts, 0, HeadTypes) && !Sees(ts, 0, PIPE);
    assert Concatenated(ts, 0) == Parsed(None, 0);
  }

  /** Before a `)`, a signature is an identifier and annotation without tokens. */
  lemma EmptySignatureBeforeCloser(ts: seq<Token>)
    requires |ts| > 0 && ts[0].kind == R_PAREN
    ensures SignatureOf(ts, 0).next == 0
  {
    assert !Sees(ts, 0, IDENTIFIER) && !Sees(ts, 0, L_BRACK) && !Sees(ts, 0, R_BRACK);
    assert !Sees(ts, 0, STAR) && !Sees(ts, 0, L_PAREN) && !Sees(ts, 0, PIPE) && !Sees(ts, 0, COMMA);
    assert StarAnnotation(ts, 0).next == 0;
    assert PipeAnnotation(ts, 0).next == 0;
    assert MultAnnotation(ts, 0).next == 0;
  }

  /** A `)` where a definition should begin: the definition parses without consuming it. */
  lemma StrayCloserConsumesNothing(ts: seq<Token>)
    requires |ts| > 0 && ts[0].kind == R_PAREN
    ensures DefinitionOf(ts, 0).next == 0
  {
    EmptySignatureBeforeCloser(ts);
    NothingBeforeCloser(ts);
    assert !Sees(ts, 0, WALRUS) && !Sees(ts, 0, EOL) && !Sees(ts, 0, L_BRACE);
    assert ProductionOf(ts, 0).next == 0;
  }

  /**
   * `parse()` has no progress guarantee: a file that begins with a stray `)` makes the
   * loop parse the same empty definition forever.
   */
  lemma StrayCloserDiverges(ts: seq<Token>, origin: string)
    requires |ts| > 0 && ts[0].kind == R_PAREN
    ensures Parse(ts, origin) == Diverges
  {
    StrayCloserConsumesNothing(ts);
    assert !Sees(ts, 0, EOL) && !Sees(ts, 0, EOF);
  }
}
