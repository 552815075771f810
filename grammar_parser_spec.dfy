/**
 * The recursive-descent parser of the grammar language, as functions of the token stream
 * and a cursor into it. Each function gives the node a parse method returns (None where
 * the method returns None) and the cursor it leaves. The stream is what the codepoint
 * lexer's `next()` hands out, one token after another, ending with its EOF token; past the
 * end `peek()` gives None.
 */
module GrammarParserSpec {
  import opened Wrappers
  import opened GrammarTokentype
  import opened GrammarNodes

  /** A parse method's result and the cursor it leaves. */
  datatype Parsed = Parsed(node: Option<Node>, next: nat)

  /** A loop's collected nodes and the cursor it leaves. */
  datatype Collected = Collected(nodes: seq<Option<Node>>, next: nat)

  /** What `consume` returns and the cursor it leaves. */
  datatype Consumed = Consumed(token: Option<Token>, next: nat)

  /** `observe()`: the lookahead token, None past the end of the stream. */
  function Observe(ts: seq<Token>, c: nat): Option<Token>
  {
    if c < |ts| then Some(ts[c]) else None
  }

  /** `positive_lookahead(t)`: there is a lookahead and its type shares a bit with `t`. */
  predicate Sees(ts: seq<Token>, c: nat, t: Tokentype)
  {
    c < |ts| && ts[c].kind & t != 0
  }

  /** `consume(t)`: the lookahead, taken, when its type shares a bit with `t`. */
  function Consume(ts: seq<Token>, c: nat, t: Tokentype): (r: Consumed)
    requires c <= |ts|
    ensures r.token.Some? <==> Sees(ts, c, t)
    ensures r.token.Some? ==> r.token.value == ts[c] && r.next == c + 1
    ensures r.token.None? ==> r.next == c
  {
    if Sees(ts, c, t) then Consumed(Some(ts[c]), c + 1) else Consumed(None, c)
  }

  /** The lookahead types that can begin another operand of a concatenation. */
  const HeadTypes: Tokentype := IDENTIFIER | STRING | NUMBER | L_PAREN | L_BRACK

  // ---------------------------------------------------------------------------------------
  // Identifiers and annotations
  // ---------------------------------------------------------------------------------------

  /** `identifier()`: an Identifier around whatever `consume(IDENTIFIER)` gave. */
  function Ident(ts: seq<Token>, c: nat): (r: Parsed)
    requires c <= |ts|
    ensures c <= r.next <= |ts|
  {
    var k := Consume(ts, c, IDENTIFIER);
    Parsed(Some(Identifier(k.token)), k.next)
  }

  function AtomAnnotation(ts: seq<Token>, c: nat): (r: Parsed)
    requires c <= |ts|
    ensures c <= r.next <= |ts| && r.node.Some?
    decreases |ts| - c, 1
  {
    if Sees(ts, c, L_PAREN) then
      var a := MultAnnotation(ts, c + 1);
      Parsed(Some(GrammarNodes.Parenthetical(a.node, None)), Consume(ts, a.next, R_PAREN).next)
    else Ident(ts, c)
  }

  function StarAnnotation(ts: seq<Token>, c: nat): (r: Parsed)
    requires c <= |ts|
    ensures c <= r.next <= |ts| && r.node.Some?
    decreases |ts| - c, 2
  {
    if Sees(ts, c, STAR) then
      var a := AtomAnnotation(ts, c + 1);
      Parsed(Some(Star(a.node)), a.next)
    else AtomAnnotation(ts, c)
  }

  /** The loop of `pipe_annotation`: while a PIPE is consumed, one more starred annotation. */
  function PipeAnnotations(ts: seq<Token>, c: nat, acc: seq<Option<Node>>): (r: Collected)
    requires c <= |ts|
    ensures c <= r.next <= |ts|
    decreases |ts| - c, 3
  {
    if Sees(ts, c, PIPE) then
      var a := StarAnnotation(ts, c + 1);
      PipeAnnotations(ts, a.next, acc + [a.node])
    else Collected(acc, c)
  }

  function PipeAnnotation(ts: seq<Token>, c: nat): (r: Parsed)
    requires c <= |ts|
    ensures c <= r.next <= |ts| && r.node.Some?
    decreases |ts| - c, 4
  {
    var a := StarAnnotation(ts, c);
    if Sees(ts, a.next, PIPE) then
      var all := PipeAnnotations(ts, a.next, [a.node]);
      Parsed(Some(Alternation(all.nodes)), all.next)
    else a
  }

  /** The loop of `mult_annotation`: while a COMMA is consumed, one more alternation. */
  function MultAnnotations(ts: seq<Token>, c: nat, acc: seq<Option<Node>>): (r: Collected)
    requires c <= |ts|
    ensures c <= r.next <= |ts|
    decreases |ts| - c, 5
  {
    if Sees(ts, c, COMMA) then
      var a := PipeAnnotation(ts, c + 1);
      MultAnnotations(ts, a.next, acc + [a.node])
    else Collected(acc, c)
  }

  function MultAnnotation(ts: seq<Token>, c: nat): (r: Parsed)
    requires c <= |ts|
    ensures c <= r.next <= |ts| && r.node.Some?
    decreases |ts| - c, 6
  {
    var a := PipeAnnotation(ts, c);
    if Sees(ts, a.next, COMMA) then
      var all := MultAnnotations(ts, a.next, [a.node]);
      Parsed(Some(Sequence(all.nodes)), all.next)
    else a
  }

  /** `annotation()`: an optional `[`, the annotation, an optional `]`. */
  function AnnotationOf(ts: seq<Token>, c: nat): (r: Parsed)
    requires c <= |ts|
    ensures c <= r.next <= |ts| && r.node.Some?
  {
    var open := Consume(ts, c, L_BRACK);
    var a := MultAnnotation(ts, open.next);
    Parsed(Some(Annotation(a.node)), Consume(ts, a.next, R_BRACK).next)
  }

  // ---------------------------------------------------------------------------------------
  // Parameters, outputs and signatures
  // ---------------------------------------------------------------------------------------

  function AtomParameter(ts: seq<Token>, c: nat): (r: Parsed)
    requires c <= |ts|
    ensures c <= r.next <= |ts| && r.node.Some?
    decreases |ts| - c, 1
  {
    var i := Ident(ts, c);
    if Sees(ts, i.next, L_PAREN) then
      var p := MultParameter(ts, i.next + 1);
      Parsed(Some(Call(i.node.value, p.node.value)), Consume(ts, p.next, R_PAREN).next)
    else i
  }

  function StarParameter(ts: seq<Token>, c: nat): (r: Parsed)
    requires c <= |ts|
    ensures c <= r.next <= |ts| && r.node.Some?
    decreases |ts| - c, 2
  {
    if Sees(ts, c, STAR) then
      var a := AtomParameter(ts, c + 1);
      Parsed(Some(Star(a.node)), a.next)
    else AtomParameter(ts, c)
  }

  /** The loop of `mult_parameter`: while a COMMA is consumed, one more parameter. */
  function MultParameters(ts: seq<Token>, c: nat, acc: seq<Option<Node>>): (r: Collected)
    requires c <= |ts|
    ensures c <= r.next <= |ts|
    decreases |ts| - c, 3
  {
    if Sees(ts, c, COMMA) then
      var a := StarParameter(ts, c + 1);
      MultParameters(ts, a.next, acc + [a.node])
    else Collected(acc, c)
  }

  function MultParameter(ts: seq<Token>, c: nat): (r: Parsed)
    requires c <= |ts|
    ensures c <= r.next <= |ts| && r.node.Some?
    decreases |ts| - c, 4
  {
    var a := StarParameter(ts, c);
    if Sees(ts, a.next, COMMA) then
      var all := MultParameters(ts, a.next, [a.node]);
      Parsed(Some(Sequence(all.nodes)), all.next)
    else a
  }

  /** `atom_output()`: the same statements as `atom_parameter()`. */
  function AtomOutput(ts: seq<Token>, c: nat): (r: Parsed)
    requires c <= |ts|
    ensures c <= r.next <= |ts| && r.node.Some?
  {
    var i := Ident(ts, c);
    if Sees(ts, i.next, L_PAREN) then
      var p := MultParameter(ts, i.next + 1);
      Parsed(Some(Call(i.node.value, p.node.value)), Consume(ts, p.next, R_PAREN).next)
    else i
  }

  /** The loop of `mult_output`: while a COMMA is consumed, one more output. */
  function MultOutputs(ts: seq<Token>, c: nat, acc: seq<Option<Node>>): (r: Collected)
    requires c <= |ts|
    ensures c <= r.next <= |ts|
    decreases |ts| - c
  {
    if Sees(ts, c, COMMA) then
      var a := AtomOutput(ts, c + 1);
      MultOutputs(ts, a.next, acc + [a.node])
    else Collected(acc, c)
  }

  function MultOutput(ts: seq<Token>, c: nat): (r: Parsed)
    requires c <= |ts|
    ensures c <= r.next <= |ts| && r.node.Some?
  {
    var a := AtomOutput(ts, c);
    if Sees(ts, a.next, COMMA) then
      var all := MultOutputs(ts, a.next, [a.node]);
      Parsed(Some(Sequence(all.nodes)), all.next)
    else a
  }

  /** `output()`: `{ outputs }` as an Output; without a `{`, None and nothing consumed. */
  function OutputOf(ts: seq<Token>, c: nat): (r: Parsed)
    requires c <= |ts|
    ensures c <= r.next <= |ts|
  {
    if Sees(ts, c, L_BRACE) then
      var o := MultOutput(ts, c + 1);
      Parsed(Some(Output(o.node)), Consume(ts, o.next, R_BRACE).next)
    else Parsed(None, c)
  }

  function SignatureOf(ts: seq<Token>, c: nat): (r: Parsed)
    requires c <= |ts|
    ensures c <= r.next <= |ts| && r.node.Some?
  {
    var i := Ident(ts, c);
    var a := AnnotationOf(ts, i.next);
    Parsed(Some(Signature(i.node.value, a.node.value)), a.next)
  }

  // ---------------------------------------------------------------------------------------
  // Expressions
  // ---------------------------------------------------------------------------------------

  /** `atomic()`: an IDENTIFIER, else a NUMBER, else a STRING token as its leaf; else None. */
  function Atomic(ts: seq<Token>, c: nat): (r: Parsed)
    requires c <= |ts|
    ensures c <= r.next <= |ts|
    ensures Sees(ts, c, IDENTIFIER | NUMBER | STRING) ==> r.next == c + 1
  {
    var i := Consume(ts, c, IDENTIFIER);
    if i.token.Some? then Parsed(Some(Identifier(i.token)), i.next)
    else
      var n := Consume(ts, c, NUMBER);
      if n.token.Some? then Parsed(Some(Number(n.token)), n.next)
      else
        var s := Consume(ts, c, STRING);
        if s.token.Some? then Parsed(Some(String(s.token)), s.next)
        else Parsed(None, c)
  }

  /**
   * `parenthetical()`: `( expression output )` as a Parenthetical and `[ expression output ]`
   * as an Optional, both without the output; otherwise an atom.
   */
  function Bracketed(ts: seq<Token>, c: nat): (r: Parsed)
    requires c <= |ts|
    ensures c <= r.next <= |ts|
    ensures Sees(ts, c, IDENTIFIER | NUMBER | STRING | L_PAREN | L_BRACK) ==> r.next > c
    decreases |ts| - c, 1
  {
    if Sees(ts, c, L_PAREN) then
      var e := Expression(ts, c + 1);
      var o := OutputOf(ts, e.next);
      Parsed(Some(GrammarNodes.Parenthetical(e.node, None)), Consume(ts, o.next, R_PAREN).next)
    else if Sees(ts, c, L_BRACK) then
      var e := Expression(ts, c + 1);
      var o := OutputOf(ts, e.next);
      Parsed(Some(GrammarNodes.Optional(e.node, None)), Consume(ts, o.next, R_BRACK).next)
    else Atomic(ts, c)
  }

  /** `assignment()`: `identifier = parenthetical` as an Assignment; a lone identifier as itself. */
  function AssignmentOf(ts: seq<Token>, c: nat): (r: Parsed)
    requires c <= |ts|
    ensures c <= r.next <= |ts|
    ensures Sees(ts, c, HeadTypes) ==> r.next > c
    decreases |ts| - c, 2
  {
    if Sees(ts, c, IDENTIFIER) then
      var i := Ident(ts, c);
      var eq := Consume(ts, i.next, ASSIGN);
      if eq.token.Some? then
        var e := Bracketed(ts, eq.next);
        Parsed(Some(Assignment(i.node.value, e.node)), e.next)
      else i
    else Bracketed(ts, c)
  }

  /** `repetition()`: an assignment, then at most one `*` (Star) or else `+` (Plus). */
  function Repetition(ts: seq<Token>, c: nat): (r: Parsed)
    requires c <= |ts|
    ensures c <= r.next <= |ts|
    ensures Sees(ts, c, HeadTypes) ==> r.next > c
    decreases |ts| - c, 3
  {
    var e := AssignmentOf(ts, c);
    if Sees(ts, e.next, STAR) then Parsed(Some(Star(e.node)), e.next + 1)
    else if Sees(ts, e.next, PLUS) then Parsed(Some(Plus(e.node)), e.next + 1)
    else e
  }

  /** The loop of `concatenation`: while the lookahead can begin an operand, one more. */
  function Operands(ts: seq<Token>, c: nat, acc: seq<Option<Node>>): (r: Collected)
    requires c <= |ts|
    ensures c <= r.next <= |ts|
    decreases |ts| - c, 4
  {
    if Sees(ts, c, HeadTypes) then
      var e := Repetition(ts, c);
      Operands(ts, e.next, acc + [e.node])
    else Collected(acc, c)
  }

  function Concatenated(ts: seq<Token>, c: nat): (r: Parsed)
    requires c <= |ts|
    ensures c <= r.next <= |ts|
    decreases |ts| - c, 5
  {
    var e := Repetition(ts, c);
    if Sees(ts, e.next, HeadTypes) then
      var all := Operands(ts, e.next, [e.node]);
      Parsed(Some(Concatenation(all.nodes)), all.next)
    else e
  }

  /** The loop of `alternation`: while a PIPE is consumed, one more concatenation. */
  function Alternatives(ts: seq<Token>, c: nat, acc: seq<Option<Node>>): (r: Collected)
    requires c <= |ts|
    ensures c <= r.next <= |ts|
    decreases |ts| - c, 6
  {
    if Sees(ts, c, PIPE) then
      var e := Concatenated(ts, c + 1);
      Alternatives(ts, e.next, acc + [e.node])
    else Collected(acc, c)
  }

  function Alternated(ts: seq<Token>, c: nat): (r: Parsed)
    requires c <= |ts|
    ensures c <= r.next <= |ts|
    decreases |ts| - c, 7
  {
    var e := Concatenated(ts, c);
    if Sees(ts, e.next, PIPE) then
      var all := Alternatives(ts, e.next, [e.node]);
      Parsed(Some(Alternation(all.nodes)), all.next)
    else e
  }

  /** `expression()` is `alternation()`. */
  function Expression(ts: seq<Token>, c: nat): (r: Parsed)
    requires c <= |ts|
    ensures c <= r.next <= |ts|
    decreases |ts| - c, 8
  {
    Alternated(ts, c)
  }

  // ---------------------------------------------------------------------------------------
  // Productions, definitions and the file
  // ---------------------------------------------------------------------------------------

  function ProductionOf(ts: seq<Token>, c: nat): (r: Parsed)
    requires c <= |ts|
    ensures c <= r.next <= |ts| && r.node.Some?
  {
    var e := Expression(ts, c);
    var o := OutputOf(ts, e.next);
    Parsed(Some(Production(e.node, o.node)), o.next)
  }

  /** The loop of `productions`: while an EOL and then a PIPE are consumed, one more production. */
  function Alternants(ts: seq<Token>, c: nat, acc: seq<Option<Node>>): (r: Collected)
    requires c <= |ts|
    ensures c <= r.next <= |ts|
    decreases |ts| - c
  {
    if Sees(ts, c, EOL) && Sees(ts, c + 1, PIPE) then
      var p := ProductionOf(ts, c + 2);
      Alternants(ts, p.next, acc + [p.node])
    else if Sees(ts, c, EOL) then Collected(acc, c + 1)
    else Collected(acc, c)
  }

  /**
   * `productions()`: after an EOL, the `| production` lines as a Sequence; otherwise a
   * Sequence of the one production on the line.
   */
  function ProductionsOf(ts: seq<Token>, c: nat): (r: Parsed)
    requires c <= |ts|
    ensures c <= r.next <= |ts| && r.node.Some?
  {
    if Sees(ts, c, EOL) then
      var all := Alternants(ts, c, []);
      Parsed(Some(Sequence(all.nodes)), all.next)
    else
      var p := ProductionOf(ts, c);
      Parsed(Some(Sequence([p.node])), p.next)
  }

  /** `definition()`: a signature, an optional `:=`, and the productions. */
  function DefinitionOf(ts: seq<Token>, c: nat): (r: Parsed)
    requires c <= |ts|
    ensures c <= r.next <= |ts| && r.node.Some?
  {
    var s := SignatureOf(ts, c);
    var w := Consume(ts, s.next, WALRUS);
    var p := ProductionsOf(ts, w.next);
    Parsed(Some(Definition(s.node.value, p.node.value)), p.next)
  }

  /**
   * What `parse()` does: finish with a root and the cursor, or run forever because a
   * definition consumed nothing and the loop repeats the same step.
   */
  datatype Outcome = Finished(root: Node, next: nat) | Diverges

  /** The loop of `parse()`: skip an EOL, stop after EOF, or parse one more definition. */
  function Definitions(ts: seq<Token>, origin: string, c: nat, acc: seq<Option<Node>>): (r: Outcome)
    requires c <= |ts|
    ensures r.Finished? ==> c < r.next <= |ts|
    decreases |ts| - c
  {
    if Sees(ts, c, EOL) then Definitions(ts, origin, c + 1, acc)
    else if Sees(ts, c, EOF) then Finished(Root(origin, Sequence(acc)), c + 1)
    else
      var d := DefinitionOf(ts, c);
      if d.next == c then Diverges else Definitions(ts, origin, d.next, acc + [d.node])
  }

  /** `parse()` from the start of the stream. */
  function Parse(ts: seq<Token>, origin: string): Outcome
  {
    Definitions(ts, origin, 0, [])
  }
}
