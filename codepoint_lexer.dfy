/**
 * The codepoint lexer of the grammar language as an object over a UTF-8 `Codec`: its
 * markers, bracket stack, literal buffer, generator phase and lookahead are fields the
 * methods update in place, and every `advance()` moves the codec's window on by one. Each
 * method is proved to leave the state, and to give the token, that `CodepointLexerSpec`
 * describes over the codepoints the codec decodes.
 */
module CodepointLexer {
  import opened Wrappers
  import opened GrammarTokentype
  import U = Utf8CodecSpec
  import Utf8Codec
  import Utf8CodecProperties
  import S = CodepointLexerSpec

  class Lexer {
    /** The decoder the lexer reads from. */
    const codec: Utf8Codec.Codec
    /** The codepoints the codec decodes from its bytes, the final 0 included. */
    ghost const codepoints: seq<S.Codepoint>
    var start: nat
    var end: nat
    var line: int
    var column: int
    var parentheses: seq<S.Codepoint>
    /** The codepoints advanced over since the last `consume()` or `ignore()`. */
    var literal: seq<S.Codepoint>
    /** Whether the `tokenize` generator has finished (returned or raised). */
    var exhausted: bool
    /** The lookahead token that `peek()` returns. */
    var token: Option<S.Token>

    /** The lexer state as one value. */
    function State(): S.State
      reads this
    {
      S.State(start, end, line, column, parentheses, literal)
    }

    /** The generator as one value. */
    function Gen(): S.Gen
      reads this
    {
      S.Gen(State(), exhausted)
    }

    /**
     * The codec decodes its bytes to `codepoints` and has been resumed once for each
     * `advance()` on top of the two priming resumptions, so its window holds the
     * codepoints at `end` and `end + 1`.
     */
    ghost predicate Coupled()
      reads this, codec
    {
      codec.Valid() && U.Decoded(codec.buffer, U.Start) == Some(codepoints) && codec.resumed == end + 2
    }

    /** The state at the head of the `tokenize` loop. */
    ghost predicate Ready()
      reads this, codec
    {
      Coupled() && S.Ready(codepoints, State())
    }

    /** What the codec's window shows. */
    lemma Window()
      requires Coupled()
      ensures codec.codepointB == S.At(codepoints, end) && codec.codepointA == S.At(codepoints, end + 1)
    {
      Utf8CodecProperties.WindowShowsStream(codec.buffer, codec.resumed, codec.codepointB, codec.codepointA, codec.Generator());
    }

    /** The attributes `__init__` sets, and the codec over the file's bytes, before the priming `next()`. */
    constructor Fresh(buffer: seq<U.Byte>)
      requires U.Decoded(buffer, U.Start).Some?
      ensures fresh(codec) && codec.buffer == buffer && codepoints == U.Decoded(buffer, U.Start).value
      ensures Ready() && State() == S.Initial && !exhausted && token.None?
    {
      parentheses := [S.Bottom];
      literal := [];
      start, end, line, column := 0, 0, 1, 1;
      Utf8CodecProperties.RunFollowsDecoded(buffer, U.Start, 1);
      Utf8CodecProperties.RunFollowsDecoded(buffer, U.Start, 2);
      codec := new Utf8Codec.Codec(buffer);
      codepoints := U.Decoded(buffer, U.Start).value;
      exhausted := false;
      token := None;
    }

    /**
     * `Lexer(origin)` over the bytes of the file: a fresh lexer whose lookahead holds the
     * first token, or the error the priming `next()` raised. The bytes must decode without
     * a spin, and the first token must not begin with an endless comment.
     */
    static method Open(buffer: seq<U.Byte>) returns (r: Result<Lexer, S.LexError>)
      requires U.Decoded(buffer, U.Start).Some?
      requires S.Pull(U.Decoded(buffer, U.Start).value, S.Gen(S.Initial, false)) != Err(S.EndlessComment)
      ensures var o := S.Opened(U.Decoded(buffer, U.Start).value);
        (r.Err? <==> o.returned.Err?) && (r.Err? ==> r.error == o.returned.error) &&
        (r.Ok? ==>
          fresh(r.value) && fresh(r.value.codec) && r.value.codec.buffer == buffer && r.value.Ready() &&
          r.value.Gen() == o.after.gen && r.value.token == o.after.token)
    {
      var lexer := new Lexer.Fresh(buffer);
      var first := lexer.Next();
      if first.Err? {
        return Err(first.error);
      }
      return Ok(lexer);
    }

    /** `observe()`: the current codepoint, `peek()[0]` of the codec. */
    method Observe() returns (c: S.Codepoint)
      requires Coupled()
      ensures c == S.At(codepoints, end)
    {
      Window();
      c := codec.Peek(1)[0];
    }

    /**
     * `advance()`: the current codepoint joins the literal, `end` moves past it, and the
     * codec moves on, returning that codepoint.
     */
    method Advance() returns (c: S.Codepoint)
      requires Coupled()
      modifies this, codec
      ensures Coupled() && token == old(token) && exhausted == old(exhausted)
      ensures c == S.At(codepoints, old(end))
      ensures State() == S.Advance(codepoints, old(State()))
    {
      Window();
      var current := Observe();
      ghost var k := codec.resumed;
      Utf8CodecProperties.RunFollowsDecoded(codec.buffer, U.Start, k + 1);
      assert U.Run(codec.buffer, U.Start, k + 1) == U.Resume(codec.buffer, codec.Generator());
      literal := literal + [current];
      end := end + 1;
      c := codec.Next();
      assert U.Run(codec.buffer, U.Start, codec.resumed - 1) == U.Yielded(codec.codepointB, old(codec.Generator()));
    }

    /** `consume()`: returns the literal, sets `start := end` and empties the literal. */
    method Consume() returns (consumed: seq<S.Codepoint>)
      requires Coupled()
      modifies this
      ensures Coupled() && token == old(token) && exhausted == old(exhausted)
      ensures consumed == old(literal)
      ensures State() == S.Consume(old(State()))
    {
      consumed := literal;
      start := end;
      literal := [];
    }

    /** `ignore()`: sets `start := end` and empties the literal. */
    method Ignore()
      requires Coupled()
      modifies this
      ensures Coupled() && token == old(token) && exhausted == old(exhausted)
      ensures State() == S.Consume(old(State()))
    {
      start := end;
      literal := [];
    }

    /** `operator(type)`: one token of the given type over the pending literal. */
    method Operator(kind: Tokentype) returns (t: S.Token)
      requires Coupled()
      modifies this
      ensures Coupled() && token == old(token) && exhausted == old(exhausted)
      ensures S.Emit(old(State()), kind) == S.Progress(State(), Some(t))
    {
      var consumed := Consume();
      t := S.Token(kind, consumed, start, end, line, column);
    }

    /** `identifier()`: advances while the codepoint is `A`-`Z`, `a`-`z` or `_`. */
    method Identifier() returns (t: S.Token)
      requires Coupled() && end <= |codepoints|
      modifies this, codec
      ensures Coupled() && token == old(token) && exhausted == old(exhausted)
      ensures S.Identifier(codepoints, old(State())) == S.Progress(State(), Some(t))
    {
      ghost var s0 := State();
      while true
        invariant Coupled() && end <= |codepoints|
        invariant S.Identifier(codepoints, State()) == S.Identifier(codepoints, s0)
        invariant token == old(token) && exhausted == old(exhausted)
        decreases |codepoints| - end
      {
        var c := Observe();
        // A-Z, a-z, underscore
        if !(65 <= c <= 90 || 97 <= c <= 122 || 95 == c) {
          S.IdentifierStops(codepoints, State());
          break;
        }
        S.IdentifierSkips(codepoints, State());
        var _ := Advance();
      }
      t := Operator(IDENTIFIER);
    }

    /** `string(quote)`. */
    method String(quote: S.Codepoint) returns (r: Result<Option<S.Token>, S.LexError>)
      requires Coupled() && end <= |codepoints|
      modifies this, codec
      ensures Coupled() && token == old(token) && exhausted == old(exhausted)
      ensures S.Reports(r, State(), S.String(codepoints, old(State()), quote))
    {
      ghost var s0 := State();
      var c := Observe();
      while c != 0 && c != quote
        invariant Coupled() && end <= |codepoints|
        invariant S.String(codepoints, State(), quote) == S.String(codepoints, s0, quote)
        invariant token == old(token) && exhausted == old(exhausted)
        invariant c == S.At(codepoints, end)
        decreases |codepoints| - end
      {
        S.StringSkips(codepoints, State(), quote);
        var _ := Advance();
        c := Observe();
      }
      S.StringStops(codepoints, State(), quote);
      c := Observe();
      if c == quote {
        var _ := Advance();
      } else {
        return Err(S.UnterminatedString);
      }
      var t := Operator(STRING);
      return Ok(Some(t));
    }

    /**
     * `comment()`: advances until a carriage return or newline, then `ignore()`. Only a
     * comment with a line break ahead is run: the loop has no other exit.
     */
    method Comment() returns (r: Result<Option<S.Token>, S.LexError>)
      requires Coupled() && end <= |codepoints| && S.CommentEnd(codepoints, end).Some?
      modifies this, codec
      ensures Coupled() && token == old(token) && exhausted == old(exhausted)
      ensures S.Reports(r, State(), S.Comment(codepoints, old(State())))
    {
      ghost var s0 := State();
      var c := Observe();
      while c != S.CarriageReturn && c != S.Newline
        invariant Coupled() && end <= |codepoints|
        invariant S.Comment(codepoints, State()) == S.Comment(codepoints, s0)
        invariant token == old(token) && exhausted == old(exhausted)
        invariant c == S.At(codepoints, end)
        decreases |codepoints| - end
      {
        S.CommentSkips(codepoints, State());
        var _ := Advance();
        c := Observe();
      }
      S.CommentStops(codepoints, State());
      Ignore();
      return Ok(None);
    }

    /** `parenthetical(type, open, close)`. */
    method Parenthetical(kind: Tokentype, open: S.Codepoint, closing: bool) returns (r: Result<Option<S.Token>, S.LexError>)
      requires Coupled() && |parentheses| > 0
      modifies this
      ensures Coupled() && token == old(token) && exhausted == old(exhausted)
      ensures S.Reports(r, State(), S.Parenthetical(old(State()), kind, open, closing))
    {
      if closing {
        var popped := S.Last(parentheses);
        parentheses := S.DropLast(parentheses);
        if popped != open {
          return Err(S.MismatchedParenthetical);
        }
      } else {
        parentheses := parentheses + [open];
      }
      var t := Operator(kind);
      return Ok(Some(t));
    }

    /**
     * Runs the tokenizer the prefix map selected; `erroneous()` fails on the attribute
     * `source`, which the lexer does not have.
     */
    method Handle(h: S.Handler) returns (r: Result<Option<S.Token>, S.LexError>)
      requires Coupled() && S.Valid(codepoints, State()) && S.Mapped(h)
      requires S.Handle(h, codepoints, State()) != Err(S.EndlessComment)
      modifies this, codec
      ensures Coupled() && token == old(token) && exhausted == old(exhausted)
      ensures S.Reports(r, State(), S.Handle(h, codepoints, old(State())))
    {
      match h
      case OperatorHandler(kind) =>
        var t := Operator(kind);
        r := Ok(Some(t));
      case ParentheticalHandler(kind, open, closing) =>
        r := Parenthetical(kind, open, closing);
      case CommentHandler =>
        r := Comment();
      case StringHandler(quote) =>
        r := String(quote);
      case ErroneousHandler =>
        r := Err(S.MissingSource);
      case IdentifierHandler =>
        var t := Identifier();
        r := Ok(Some(t));
      case NumberHandler =>
        var t := Operator(NUMBER);
        r := Ok(Some(t));
      case IgnoreHandler =>
        Ignore();
        r := Ok(None);
    }

    /** One iteration of the `tokenize` loop, at a nonzero codepoint. */
    method Step() returns (r: Result<Option<S.Token>, S.LexError>)
      requires Ready() && S.At(codepoints, end) != 0
      requires S.Step(codepoints, State()) != Err(S.EndlessComment)
      modifies this, codec
      ensures Coupled() && token == old(token) && exhausted == old(exhausted)
      ensures S.Reports(r, State(), S.Step(codepoints, old(State())))
    {
      ghost var s0 := State();
      Window();
      var double := codec.Peek(2);
      var single := codec.Peek(1);
      assert double == [S.At(codepoints, end), S.At(codepoints, end + 1)];
      assert single == [S.At(codepoints, end)];
      var h := S.PrefixMap(double);
      if h.Some? {
        S.StepTakesDoubleKey(codepoints, s0);
        var _ := Advance();
        var _ := Advance();
        r := Handle(h.value);
        return;
      }
      h := S.PrefixMap(single);
      if h.Some? {
        S.StepTakesSingleKey(codepoints, s0);
        var _ := Advance();
        r := Handle(h.value);
        return;
      }
      S.StepTakesNoKey(codepoints, s0);
      r := Err(S.UnrecognizedCharacter);
    }

    /**
     * One `next(self.tokenizer)`: runs `tokenize` while the current codepoint is nonzero,
     * until it yields, raises or reaches the 0 sentinel and yields the EOF token.
     */
    method Pull() returns (r: Result<Option<S.Token>, S.LexError>)
      requires Ready() && S.Pull(codepoints, Gen()) != Err(S.EndlessComment)
      modifies this, codec
      ensures Coupled() && token == old(token)
      ensures S.PullReports(r, Gen(), S.Pull(codepoints, old(Gen())))
      ensures r.Ok? ==> Ready()
    {
      if exhausted {
        return Ok(None);
      }
      ghost var g0 := Gen();
      var c := Observe();
      while c != 0
        invariant Ready() && !exhausted && token == old(token)
        invariant c == S.At(codepoints, end)
        invariant S.Pull(codepoints, g0) == S.Pull(codepoints, Gen())
        decreases |codepoints| - end
      {
        S.PullAfterStep(codepoints, State());
        var stepped := Step();
        if stepped.Err? {
          exhausted := true;
          return Err(stepped.error);
        }
        if stepped.value.Some? {
          return Ok(stepped.value);
        }
        c := Observe();
      }
      var t := Operator(EOF);
      exhausted := true;
      return Ok(Some(t));
    }

    /** `peek()`: the lookahead token. */
    function Peek(): (t: Option<S.Token>)
      reads this
      ensures t == token
    {
      token
    }

    /**
     * `next()`: stores the generator's next token (None once it has finished) as the
     * lookahead and returns the previous lookahead. After an error only the phase and the
     * lookahead are promised.
     */
    method Next() returns (r: Result<Option<S.Token>, S.LexError>)
      requires Ready() && S.Pull(codepoints, Gen()) != Err(S.EndlessComment)
      modifies this, codec
      ensures Coupled()
      ensures var o := S.Next(codepoints, S.Lookahead(old(Gen()), old(token)));
        r == o.returned && token == o.after.token && exhausted == o.after.gen.exhausted &&
        (r.Ok? ==> Gen() == o.after.gen && Ready())
    {
      var previous := token;
      var pulled := Pull();
      if pulled.Err? {
        return Err(pulled.error);
      }
      token := pulled.value;
      return Ok(previous);
    }
  }
}
