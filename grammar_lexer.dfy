/**
 * The string lexer of the grammar language as an object: its markers, bracket stack,
 * generator phase and lookahead are fields the methods update in place, and each method
 * is proved to leave the state, and to give the token, that `GrammarLexerSpec` describes.
 */
module GrammarLexer {
  import opened Wrappers
  import opened GrammarTokentype
  import S = GrammarLexerSpec

  class Lexer {
    const source: string
    var start: nat
    var end: nat
    var line: int
    var column: int
    var parentheses: seq<char>
    /** Whether the `tokenize` generator has finished (returned or raised). */
    var exhausted: bool
    /** The lookahead token that `peek()` returns. */
    var token: Option<S.Token>

    /** The lexer state as one value. */
    function State(): S.State
      reads this
    {
      S.State(start, end, line, column, parentheses)
    }

    /** The generator as one value. */
    function Gen(): S.Gen
      reads this
    {
      S.Gen(State(), exhausted)
    }

    ghost predicate Valid()
      reads this
    {
      S.Valid(source, State())
    }

    /** The state at the head of the `tokenize` loop. */
    ghost predicate Ready()
      reads this
    {
      S.Ready(source, State())
    }

    /** The attributes `__init__` sets before it primes the lookahead. */
    constructor Fresh(source: string)
      ensures this.source == source && State() == S.Initial && !exhausted && token.None?
    {
      this.source := source;
      parentheses := ['|'];
      start, end, line, column := 0, 0, 1, 1;
      exhausted := false;
      token := None;
    }

    /**
     * `Lexer(origin, source)`: a fresh lexer whose lookahead holds the first token, or the
     * error the priming `next()` raised.
     */
    static method Open(source: string) returns (r: Result<Lexer, S.LexError>)
      ensures r.Err? <==> S.Opened(source).returned.Err?
      ensures r.Err? ==> r.error == S.Opened(source).returned.error
      ensures r.Ok? ==>
        fresh(r.value) && r.value.source == source && r.value.Ready() &&
        r.value.Gen() == S.Opened(source).after.gen && r.value.token == S.Opened(source).after.token
    {
      var lexer := new Lexer.Fresh(source);
      var first := lexer.Next();
      if first.Err? {
        return Err(first.error);
      }
      return Ok(lexer);
    }

    /** `observe()`: the character at `end`, or the empty string. */
    method Observe() returns (c: string)
      ensures c == S.Observe(source, State())
    {
      if end < |source| {
        c := [source[end]];
      } else {
        c := "";
      }
    }

    /** `advance()`: returns the character at `end` and moves past it, if there is one. */
    method Advance() returns (c: string)
      modifies this
      ensures token == old(token) && exhausted == old(exhausted)
      ensures c == S.Observe(source, old(State()))
      ensures State() == S.Advance(source, old(State()))
    {
      if end < |source| {
        c := [source[end]];
        end := end + 1;
      } else {
        c := "";
      }
    }

    /** `consume()`: returns `source[start:end]` and sets `start := end`. */
    method Consume() returns (literal: string)
      requires start <= end <= |source|
      modifies this
      ensures token == old(token) && exhausted == old(exhausted)
      ensures literal == source[old(start)..old(end)]
      ensures State() == S.Consume(old(State()))
    {
      literal := source[start..end];
      start := end;
    }

    /** `operator(type)`: one token of the given type over the consumed text. */
    method Operator(kind: Tokentype) returns (t: S.Token)
      requires Valid()
      modifies this
      ensures token == old(token) && exhausted == old(exhausted)
      ensures S.Emit(source, old(State()), kind) == S.Progress(State(), Some(t))
    {
      var literal := Consume();
      t := S.Token(kind, literal, start, end, line, column);
    }

    /** `identifier()`. */
    method Identifier() returns (t: S.Token)
      requires Valid()
      modifies this
      ensures token == old(token) && exhausted == old(exhausted)
      ensures S.Identifier(source, old(State())) == S.Progress(State(), Some(t))
    {
      ghost var s0 := State();
      while end < |source| && S.IsAlnumSymbol(source[end])
        invariant s0.end <= end <= |source|
        invariant State() == s0.(end := end)
        invariant token == old(token) && exhausted == old(exhausted)
        invariant S.IdentifierEnd(source, end) == S.IdentifierEnd(source, s0.end)
        decreases |source| - end
      {
        var _ := Advance();
      }
      t := Operator(IDENTIFIER);
    }

    /** `string(quote)`. */
    method String(quote: char) returns (r: Result<Option<S.Token>, S.LexError>)
      requires Valid()
      modifies this
      ensures token == old(token) && exhausted == old(exhausted)
      ensures S.Reports(r, State(), S.String(source, old(State()), quote))
    {
      ghost var s0 := State();
      var c := Observe();
      while c != [quote]
        invariant s0.end <= end <= |source|
        invariant State() == s0.(end := end)
        invariant token == old(token) && exhausted == old(exhausted)
        invariant c == S.Observe(source, State())
        invariant S.StringEnd(source, end, quote) == S.StringEnd(source, s0.end, quote)
        decreases |source| - end
      {
        if c == [] || !S.IsAsciiSymbol(c[0]) {
          return Err(S.UnrecognizedCharacter);
        }
        var _ := Advance();
        c := Observe();
      }
      c := Observe();
      if c == [quote] {
        var _ := Advance();
      } else {
        return Err(S.UnterminatedString);
      }
      var t := Operator(STRING);
      return Ok(Some(t));
    }

    /** `comment()`: scans to the end of the line, then `ignore()`. */
    method Comment() returns (r: Result<Option<S.Token>, S.LexError>)
      requires Valid()
      modifies this
      ensures token == old(token) && exhausted == old(exhausted)
      ensures S.Reports(r, State(), S.Comment(source, old(State())))
    {
      ghost var s0 := State();
      var c := Observe();
      while c != [] && c[0] !in "\r\n"
        invariant s0.end <= end <= |source|
        invariant State() == s0.(end := end)
        invariant token == old(token) && exhausted == old(exhausted)
        invariant c == S.Observe(source, State())
        invariant S.CommentEnd(source, end) == S.CommentEnd(source, s0.end)
        decreases |source| - end
      {
        if !S.IsAsciiSymbol(c[0]) {
          return Err(S.UnrecognizedCharacter);
        }
        var _ := Advance();
        c := Observe();
      }
      start := end;
      return Ok(None);
    }

    /** `parenthetical(type, open, close)`. */
    method Parenthetical(kind: Tokentype, open: char, closing: bool) returns (r: Result<Option<S.Token>, S.LexError>)
      requires Valid() && open in "([{"
      modifies this
      ensures token == old(token) && exhausted == old(exhausted)
      ensures S.Reports(r, State(), S.Parenthetical(source, old(State()), kind, open, closing))
    {
      if closing {
        var popped := S.Last(parentheses);
        parentheses := S.DropLast(parentheses);
        if popped != open {
          return Err(S.MismatchedParenthetical);
        }
      } else {
        parentheses := parentheses + [open];
      }
      var t := Operator(kind);
      return Ok(Some(t));
    }

    /** Runs the tokenizer the prefix map selected. */
    method Handle(h: S.Handler) returns (r: Result<Option<S.Token>, S.LexError>)
      requires Valid() && S.Mapped(h)
      modifies this
      ensures token == old(token) && exhausted == old(exhausted)
      ensures S.Reports(r, State(), S.Handle(h, source, old(State())))
    {
      match h
      case OperatorHandler(kind) =>
        var t := Operator(kind);
        r := Ok(Some(t));
      case ParentheticalHandler(kind, open, closing) =>
        r := Parenthetical(kind, open, closing);
      case CommentHandler =>
        r := Comment();
      case StringHandler(quote) =>
        r := String(quote);
      case ErroneousHandler =>
        r := Err(S.ErroneousCharacter);
      case IdentifierHandler =>
        var t := Identifier();
        r := Ok(Some(t));
      case NumberHandler =>
        var t := Operator(NUMBER);
        r := Ok(Some(t));
      case IgnoreHandler =>
        start := end;
        r := Ok(None);
    }

    /** One iteration of the `tokenize` loop. */
    method Step() returns (r: Result<Option<S.Token>, S.LexError>)
      requires Valid() && end < |source|
      modifies this
      ensures token == old(token) && exhausted == old(exhausted)
      ensures S.Reports(r, State(), S.Step(source, old(State())))
    {
      var double := S.Slice(source, start, start + 2);
      var single := S.Slice(source, start, start + 1);
      var h := S.PrefixMap(double);
      if h.Some? {
        var _ := Advance();
        var _ := Advance();
        r := Handle(h.value);
        return;
      }
      h := S.PrefixMap(single);
      if h.Some? {
        var _ := Advance();
        r := Handle(h.value);
        return;
      }
      r := Err(S.UnrecognizedCharacter);
    }

    /** One `next(self.tokenizer)`: runs `tokenize` until it yields, returns or raises. */
    method Pull() returns (r: Result<Option<S.Token>, S.LexError>)
      requires Ready()
      modifies this
      ensures S.PullReports(r, Gen(), S.Pull(source, old(Gen())))
      ensures r.Ok? ==> Ready()
      ensures token == old(token)
    {
      if exhausted {
        return Ok(None);
      }
      ghost var g0 := Gen();
      while end < |source|
        invariant Ready() && !exhausted && token == old(token)
        invariant S.Pull(source, g0) == S.Pull(source, Gen())
        decreases |source| - end
      {
        S.PullAfterStep(source, State());
        var stepped := Step();
        match stepped
        case Err(e) =>
          exhausted := true;
          return Err(e);
        case Ok(t) =>
          if t.Some? {
            return Ok(t);
          }
      }
      var t := Operator(EOF);
      exhausted := true;
      return Ok(Some(t));
    }

    /** `peek()`: the lookahead token. */
    function Peek(): (t: Option<S.Token>)
      reads this
      ensures t == token
    {
      token
    }

    /**
     * `next()`: stores the generator's next token (None once it has finished) as the
     * lookahead and returns the previous lookahead. After an error only the phase and the
     * lookahead are promised.
     */
    method Next() returns (r: Result<Option<S.Token>, S.LexError>)
      requires Ready()
      modifies this
      ensures var o := S.Next(source, S.Lookahead(old(Gen()), old(token)));
        r == o.returned && token == o.after.token && exhausted == o.after.gen.exhausted &&
        (r.Ok? ==> Gen() == o.after.gen && Ready())
    {
      var previous := token;
      var pulled := Pull();
      match pulled
      case Err(e) =>
        return Err(e);
      case Ok(t) =>
        token := t;
        return Ok(previous);
    }
  }
}
