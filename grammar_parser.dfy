/**
 * The grammar parser as the class the source defines: every parse method moves the shared
 * cursor through `consume` and `advance`, and the loops append to the node lists. Each
 * method is proved to return the node and leave the cursor that the matching function of
 * `GrammarParserSpec` gives for the cursor it started at.
 */
module GrammarParser {
  import opened Wrappers
  import opened GrammarTokentype
  import opened GrammarNodes
  import S = GrammarParserSpec

  class Parser {
    /** The lexer's tokens, in the order `next()` hands them out. */
    const tokens: seq<Token>
    /** The path of the grammar file, kept for the Root node. */
    const origin: string
    /** How many tokens `advance()` has taken. */
    var cursor: nat

    constructor (origin: string, tokens: seq<Token>)
      ensures this.origin == origin && this.tokens == tokens && cursor == 0
    {
      this.origin := origin;
      this.tokens := tokens;
      cursor := 0;
    }

    /** `observe()`: the lexer's lookahead. */
    function Observe(): Option<Token>
      reads this
    {
      S.Observe(tokens, cursor)
    }

    /** `positive_lookahead(t)`. */
    predicate PositiveLookahead(t: Tokentype)
      reads this
    {
      var token := Observe();
      token.Some? && token.value.kind & t != 0
    }

    /** `negative_lookahead(t)`. */
    predicate NegativeLookahead(t: Tokentype)
      reads this
    {
      !PositiveLookahead(t)
    }

    /** `advance()`: the lexer's `next()` returns the lookahead and moves past it. */
    method Advance() returns (t: Option<Token>)
      modifies this
      ensures t == S.Observe(tokens, old(cursor))
      ensures cursor == if old(cursor) < |tokens| then old(cursor) + 1 else old(cursor)
    {
      t := Observe();
      if cursor < |tokens| {
        cursor := cursor + 1;
      }
    }

    /** `consume(t)`: advance past the lookahead when its type shares a bit with `t`. */
    method Consume(t: Tokentype) returns (k: Option<Token>)
      requires cursor <= |tokens|
      modifies this
      ensures S.Consumed(k, cursor) == S.Consume(tokens, old(cursor), t)
    {
      if PositiveLookahead(t) {
        k := Advance();
      } else {
        k := None;
      }
    }

    method Ident() returns (n: Option<Node>)
      requires cursor <= |tokens|
      modifies this
      ensures S.Parsed(n, cursor) == S.Ident(tokens, old(cursor))
    {
      var token := Consume(IDENTIFIER);
      n := Some(Identifier(token));
    }

    // -------------------------------------------------------------------------------------
    // Annotations
    // -------------------------------------------------------------------------------------

    method AtomAnnotation() returns (n: Option<Node>)
      requires cursor <= |tokens|
      modifies this
      ensures S.Parsed(n, cursor) == S.AtomAnnotation(tokens, old(cursor))
      decreases |tokens| - cursor, 1
    {
      if PositiveLookahead(L_PAREN) {
        var _ := Consume(L_PAREN);
        var annotation := MultAnnotation();
        var _ := Consume(R_PAREN);
        return Some(GrammarNodes.Parenthetical(annotation, None));
      }
      n := Ident();
    }

    method StarAnnotation() returns (n: Option<Node>)
      requires cursor <= |tokens|
      modifies this
      ensures S.Parsed(n, cursor) == S.StarAnnotation(tokens, old(cursor))
      decreases |tokens| - cursor, 2
    {
      var star := Consume(STAR);
      if star.Some? {
        var annotation := AtomAnnotation();
        return Some(Star(annotation));
      }
      n := AtomAnnotation();
    }

    method PipeAnnotation() returns (n: Option<Node>)
      requires cursor <= |tokens|
      modifies this
      ensures S.Parsed(n, cursor) == S.PipeAnnotation(tokens, old(cursor))
      decreases |tokens| - cursor, 4
    {
      var annotation := StarAnnotation();
      var annotations := [annotation];
      if PositiveLookahead(PIPE) {
        ghost var goal := S.PipeAnnotations(tokens, cursor, annotations);
        while true
          invariant old(cursor) <= cursor <= |tokens|
          invariant S.PipeAnnotations(tokens, cursor, annotations) == goal
          decreases |tokens| - cursor
        {
          var bar := Consume(PIPE);
          if bar.None? {
            break;
          }
          var next := StarAnnotation();
          annotations := annotations + [next];
        }
        return Some(Alternation(annotations));
      }
      n := annotation;
    }

    method MultAnnotation() returns (n: Option<Node>)
      requires cursor <= |tokens|
      modifies this
      ensures S.Parsed(n, cursor) == S.MultAnnotation(tokens, old(cursor))
      decreases |tokens| - cursor, 6
    {
      var annotation := PipeAnnotation();
      var annotations := [annotation];
      if PositiveLookahead(COMMA) {
        ghost var goal := S.MultAnnotations(tokens, cursor, annotations);
        while true
          invariant old(cursor) <= cursor <= |tokens|
          invariant S.MultAnnotations(tokens, cursor, annotations) == goal
          decreases |tokens| - cursor
        {
          var comma := Consume(COMMA);
          if comma.None? {
            break;
          }
          var next := PipeAnnotation();
          annotations := annotations + [next];
        }
        return Some(Sequence(annotations));
      }
      n := annotation;
    }

    method AnnotationOf() returns (n: Option<Node>)
      requires cursor <= |tokens|
      modifies this
      ensures S.Parsed(n, cursor) == S.AnnotationOf(tokens, old(cursor))
    {
      var _ := Consume(L_BRACK);
      var annotation := MultAnnotation();
      n := Some(Annotation(annotation));
      var _ := Consume(R_BRACK);
    }

    // -------------------------------------------------------------------------------------
    // Parameters, outputs and signatures
    // -------------------------------------------------------------------------------------

    method AtomParameter() returns (n: Option<Node>)
      requires cursor <= |tokens|
      modifies this
      ensures S.Parsed(n, cursor) == S.AtomParameter(tokens, old(cursor))
      decreases |tokens| - cursor, 1
    {
      var identifier := Ident();
      if PositiveLookahead(L_PAREN) {
        var _ := Consume(L_PAREN);
        var parameters := MultParameter();
        var _ := Consume(R_PAREN);
        return Some(Call(identifier.value, parameters.value));
      }
      n := identifier;
    }

    method StarParameter() returns (n: Option<Node>)
      requires cursor <= |tokens|
      modifies this
      ensures S.Parsed(n, cursor) == S.StarParameter(tokens, old(cursor))
      decreases |tokens| - cursor, 2
    {
      var star := Consume(STAR);
      if star.Some? {
        var parameter := AtomParameter();
        return Some(Star(parameter));
      }
      n := AtomParameter();
    }

    method MultParameter() returns (n: Option<Node>)
      requires cursor <= |tokens|
      modifies this
      ensures S.Parsed(n, cursor) == S.MultParameter(tokens, old(cursor))
      decreases |tokens| - cursor, 4
    {
      var parameter := StarParameter();
      var parameters := [parameter];
      if PositiveLookahead(COMMA) {
        ghost var goal := S.MultParameters(tokens, cursor, parameters);
        while true
          invariant old(cursor) <= cursor <= |tokens|
          invariant S.MultParameters(tokens, cursor, parameters) == goal
          decreases |tokens| - cursor
        {
          var comma := Consume(COMMA);
          if comma.None? {
            break;
          }
          var next := StarParameter();
          parameters := parameters + [next];
        }
        return Some(Sequence(parameters));
      }
      n := parameter;
    }

    /** `atom_output()`, whose statements are those of `atom_parameter()`. */
    method AtomOutput() returns (n: Option<Node>)
      requires cursor <= |tokens|
      modifies this
      ensures S.Parsed(n, cursor) == S.AtomOutput(tokens, old(cursor))
    {
      var identifier := Ident();
      if PositiveLookahead(L_PAREN) {
        var _ := Consume(L_PAREN);
        var parameters := MultParameter();
        var _ := Consume(R_PAREN);
        return Some(Call(identifier.value, parameters.value));
      }
      n := identifier;
    }

    method MultOutput() returns (n: Option<Node>)
      requires cursor <= |tokens|
      modifies this
      ensures S.Parsed(n, cursor) == S.MultOutput(tokens, old(cursor))
    {
      var output := AtomOutput();
      var outputs := [output];
      if PositiveLookahead(COMMA) {
        ghost var goal := S.MultOutputs(tokens, cursor, outputs);
        while true
          invariant cursor <= |tokens|
          invariant S.MultOutputs(tokens, cursor, outputs) == goal
          decreases |tokens| - cursor
        {
          var comma := Consume(COMMA);
          if comma.None? {
            break;
          }
          var next := AtomOutput();
          outputs := outputs + [next];
        }
        return Some(Sequence(outputs));
      }
      n := output;
    }

    method OutputOf() returns (n: Option<Node>)
      requires cursor <= |tokens|
      modifies this
      ensures S.Parsed(n, cursor) == S.OutputOf(tokens, old(cursor))
    {
      if PositiveLookahead(L_BRACE) {
        var _ := Consume(L_BRACE);
        var output := MultOutput();
        var _ := Consume(R_BRACE);
        return Some(Output(output));
      }
      n := None;
    }

    method SignatureOf() returns (n: Option<Node>)
      requires cursor <= |tokens|
      modifies this
      ensures S.Parsed(n, cursor) == S.SignatureOf(tokens, old(cursor))
    {
      var identifier := Ident();
      var annotation := AnnotationOf();
      n := Some(Signature(identifier.value, annotation.value));
    }

    // -------------------------------------------------------------------------------------
    // Expressions
    // -------------------------------------------------------------------------------------

    method Atomic() returns (n: Option<Node>)
      requires cursor <= |tokens|
      modifies this
      ensures S.Parsed(n, cursor) == S.Atomic(tokens, old(cursor))
    {
      var token := Consume(IDENTIFIER);
      if token.Some? {
        return Some(Identifier(token));
      }
      token := Consume(NUMBER);
      if token.Some? {
        return Some(Number(token));
      }
      token := Consume(STRING);
      if token.Some? {
        return Some(String(token));
      }
      n := None;
    }

    method Bracketed() returns (n: Option<Node>)
      requires cursor <= |tokens|
      modifies this
      ensures S.Parsed(n, cursor) == S.Bracketed(tokens, old(cursor))
      decreases |tokens| - cursor, 1
    {
      if PositiveLookahead(L_PAREN) {
        var _ := Consume(L_PAREN);
        var expression := Expression();
        var _ := OutputOf();
        var _ := Consume(R_PAREN);
        return Some(GrammarNodes.Parenthetical(expression, None));
      }
      if PositiveLookahead(L_BRACK) {
        var _ := Consume(L_BRACK);
        var expression := Expression();
        var _ := OutputOf();
        var _ := Consume(R_BRACK);
        return Some(GrammarNodes.Optional(expression, None));
      }
      n := Atomic();
    }

    method AssignmentOf() returns (n: Option<Node>)
      requires cursor <= |tokens|
      modifies this
      ensures S.Parsed(n, cursor) == S.AssignmentOf(tokens, old(cursor))
      decreases |tokens| - cursor, 2
    {
      if PositiveLookahead(IDENTIFIER) {
        var identifier := Ident();
        var eq := Consume(ASSIGN);
        if eq.Some? {
          var expression := Bracketed();
          return Some(Assignment(identifier.value, expression));
        }
        return identifier;
      }
      n := Bracketed();
    }

    method Repetition() returns (n: Option<Node>)
      requires cursor <= |tokens|
      modifies this
      ensures S.Parsed(n, cursor) == S.Repetition(tokens, old(cursor))
      decreases |tokens| - cursor, 3
    {
      var expression := AssignmentOf();
      var star := Consume(STAR);
      if star.Some? {
        return Some(Star(expression));
      }
      var plus := Consume(PLUS);
      if plus.Some? {
        return Some(Plus(expression));
      }
      n := expression;
    }

    method Concatenated() returns (n: Option<Node>)
      requires cursor <= |tokens|
      modifies this
      ensures S.Parsed(n, cursor) == S.Concatenated(tokens, old(cursor))
      decreases |tokens| - cursor, 5
    {
      var expression := Repetition();
      var expressions := [expression];
      if PositiveLookahead(S.HeadTypes) {
        ghost var goal := S.Operands(tokens, cursor, expressions);
        while PositiveLookahead(S.HeadTypes)
          invariant old(cursor) <= cursor <= |tokens|
          invariant S.Operands(tokens, cursor, expressions) == goal
          decreases |tokens| - cursor
        {
          var next := Repetition();
          expressions := expressions + [next];
        }
        return Some(Concatenation(expressions));
      }
      n := expression;
    }

    method Alternated() returns (n: Option<Node>)
      requires cursor <= |tokens|
      modifies this
      ensures S.Parsed(n, cursor) == S.Alternated(tokens, old(cursor))
      decreases |tokens| - cursor, 7
    {
      var expression := Concatenated();
      var expressions := [expression];
      if PositiveLookahead(PIPE) {
        ghost var goal := S.Alternatives(tokens, cursor, expressions);
        while true
          invariant old(cursor) <= cursor <= |tokens|
          invariant S.Alternatives(tokens, cursor, expressions) == goal
          decreases |tokens| - cursor
        {
          var bar := Consume(PIPE);
          if bar.None? {
            break;
          }
          var next := Concatenated();
          expressions := expressions + [next];
        }
        return Some(Alternation(expressions));
      }
      n := expression;
    }

    method Expression() returns (n: Option<Node>)
      requires cursor <= |tokens|
      modifies this
      ensures S.Parsed(n, cursor) == S.Expression(tokens, old(cursor))
      decreases |tokens| - cursor, 8
    {
      n := Alternated();
    }

    // -------------------------------------------------------------------------------------
    // Productions, definitions and the file
    // -------------------------------------------------------------------------------------

    method ProductionOf() returns (n: Option<Node>)
      requires cursor <= |tokens|
      modifies this
      ensures S.Parsed(n, cursor) == S.ProductionOf(tokens, old(cursor))
    {
      var expression := Expression();
      var output := OutputOf();
      n := Some(Production(expression, output));
    }

    method ProductionsOf() returns (n: Option<Node>)
      requires cursor <= |tokens|
      modifies this
      ensures S.Parsed(n, cursor) == S.ProductionsOf(tokens, old(cursor))
    {
      if PositiveLookahead(EOL) {
        var productions: seq<Option<Node>> := [];
        ghost var goal := S.Alternants(tokens, cursor, productions);
        while true
          invariant cursor <= |tokens|
          invariant S.Alternants(tokens, cursor, productions) == goal
          decreases |tokens| - cursor
        {
          var eol := Consume(EOL);
          if eol.None? {
            break;
          }
          var bar := Consume(PIPE);
          if bar.None? {
            break;
          }
          var production := ProductionOf();
          productions := productions + [production];
        }
        return Some(Sequence(productions));
      }
      var production := ProductionOf();
      n := Some(Sequence([production]));
    }

    method DefinitionOf() returns (n: Option<Node>)
      requires cursor <= |tokens|
      modifies this
      ensures S.Parsed(n, cursor) == S.DefinitionOf(tokens, old(cursor))
    {
      var signature := SignatureOf();
      var _ := Consume(WALRUS);
      var productions := ProductionsOf();
      n := Some(Definition(signature.value, productions.value));
    }

    /**
     * `parse()`: skip EOLs, stop after EOF, and collect the definitions in between. The
     * source's loop never ends once a definition consumes nothing; this method is for the
     * streams on which it ends.
     */
    method Parse() returns (root: Node)
      requires cursor <= |tokens|
      requires S.Definitions(tokens, origin, cursor, []).Finished?
      modifies this
      ensures S.Definitions(tokens, origin, old(cursor), []) == S.Finished(root, cursor)
    {
      var definitions: seq<Option<Node>> := [];
      ghost var goal := S.Definitions(tokens, origin, cursor, definitions);
      while true
        invariant cursor <= |tokens| && goal.Finished?
        invariant S.Definitions(tokens, origin, cursor, definitions) == goal
        decreases |tokens| - cursor
      {
        var eol := Consume(EOL);
        if eol.Some? {
          continue;
        }
        var eof := Consume(EOF);
        if eof.Some? {
          break;
        }
        var definition := DefinitionOf();
        definitions := definitions + [definition];
      }
      root := Root(origin, Sequence(definitions));
    }
  }
}
