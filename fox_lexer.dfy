/**
 * The source-language lexer as an object: its markers and stacks are fields that the
 * methods update in place, and each method is proved to leave exactly the state, and to
 * yield exactly the items, that its function in `FoxLexerSpec` describes.
 */
module FoxLexer {
  import opened Wrappers
  import opened FoxTokentype
  import S = FoxLexerSpec

  type Items = seq<Option<S.Token>>

  class Lexer {
    const source: string
    var start: nat
    var end: nat
    var line: int
    var column: int
    var indentation: seq<int>
    var parentheses: seq<char>

    /** The fields as one value. */
    function State(): S.State
      reads this
    {
      S.State(start, end, line, column, indentation, parentheses)
    }

    ghost predicate Valid()
      reads this
    {
      S.Valid(State())
    }

    /** A lexer over `source` with both markers at 0 and both stacks at their base. */
    constructor (source: string)
      ensures this.source == source && State() == S.Initial && Valid()
    {
      this.source := source;
      start, end, line, column := 0, 0, 1, 1;
      indentation := [0];
      parentheses := ['|'];
    }

    /** `advance(d)`: moves `end` and `column` by `d`. */
    method Advance(d: nat)
      modifies this
      ensures State() == S.Advance(old(State()), d)
    {
      end := end + d;
      column := column + d;
    }

    /** `consume()`: `start := end`. */
    method Consume()
      modifies this
      ensures State() == S.Consume(old(State()))
    {
      start := end;
    }

    /** `observe(d)`: the character `d` past `end`, or the empty string. */
    method Observe(d: nat) returns (r: string)
      ensures r == S.Observe(source, State(), d)
    {
      if end + d < |source| {
        r := [source[end + d]];
      } else {
        r := "";
      }
    }

    /** `token(type)`: the token over the text since `start`; then `start := end`. */
    method Token(kind: Tokentype) returns (t: S.Token)
      modifies this
      ensures t == S.TokenAt(source, old(State()), kind)
      ensures State() == S.Consume(old(State()))
    {
      t := S.Token(kind, S.Slice(source, start, end), start, end, line, column, []);
      start := end;
    }

    /** One `while observe() in charset: advance()` loop. */
    method SkipRun(run: S.CharacterRun)
      modifies this
      ensures State() == S.SkipAt(source, old(State()), run)
    {
      ghost var s0 := State();
      while end < |source| && S.InRun(source[end], run)
        invariant s0.end <= end
        invariant State() == S.Advance(s0, end - s0.end)
        invariant S.SkipRun(source, end, run) == S.SkipRun(source, s0.end, run)
        decreases |source| - end
      {
        Advance(1);
      }
    }

    /** `comment()`: scans to the end of the line and yields the bare `None`. */
    method Comment() returns (r: Result<Items, S.LexError>)
      requires Valid()
      modifies this
      ensures S.Reports(r, State(), S.Comment(source, old(State())))
    {
      ghost var s0 := State();
      while end < |source| && source[end] != '\n' && source[end] != '\r'
        invariant s0.end <= end
        invariant State() == S.Advance(s0, end - s0.end)
        invariant S.CommentEnd(source, end) == S.CommentEnd(source, s0.end)
        decreases |source| - end
      {
        if !S.IsCommentCharacter(source[end]) {
          return Err(S.UnrecognizedCharacter);
        }
        Advance(1);
      }
      return Ok([None]);
    }

    /** `indents_and_dedents(w)`. */
    method IndentsAndDedents(w: nat) returns (r: Result<Items, S.LexError>)
      requires Valid()
      modifies this
      ensures S.Reports(r, State(), S.IndentsAndDedents(source, old(State()), w))
    {
      if w < S.Last(indentation) && w !in indentation {
        return Err(S.InconsistentDedent);
      }
      var yielded: Items := [];
      if w > S.Last(indentation) {
        indentation := indentation + [w];
        var t := Token(INDENT);
        yielded := [Some(t)];
      }
      var dedents := Dedents(w);
      if |yielded| == 1 {
        assert dedents == [] && yielded + dedents == yielded;
      } else {
        assert yielded + dedents == dedents;
      }
      Consume();
      return Ok(yielded + dedents);
    }

    /** The `while w < indentation[-1]: pop` loop of `indents_and_dedents`. */
    method Dedents(w: nat) returns (yielded: Items)
      requires Valid() && (w < S.Last(indentation) ==> w in indentation)
      modifies this
      ensures S.Dedents(source, old(State()), w) == S.Progress(State(), yielded)
    {
      ghost var s0 := State();
      yielded := [];
      while w < S.Last(indentation)
        invariant Valid() && (w < S.Last(indentation) ==> w in indentation)
        invariant S.Dedents(source, s0, w) == S.Behind(yielded, S.Dedents(source, State(), w))
        decreases |indentation|
      {
        var t := PopDedent(w);
        S.BehindTwice(yielded, [Some(t)], S.Dedents(source, State(), w));
        yielded := yielded + [Some(t)];
      }
    }

    /** One iteration of the dedent loop: `indentation.pop()`, then a DEDENT token. */
    method PopDedent(w: nat) returns (t: S.Token)
      requires Valid() && w < S.Last(indentation) && w in indentation
      modifies this
      ensures Valid() && (w < S.Last(indentation) ==> w in indentation)
      ensures indentation == S.DropLast(old(indentation))
      ensures S.Dedents(source, old(State()), w) == S.Behind([Some(t)], S.Dedents(source, State(), w))
    {
      S.DedentsStep(source, State(), w);
      indentation := S.DropLast(indentation);
      t := Token(DEDENT);
    }

    /** The `while observe() == ' '` loop of `newline()`, counting the spaces it passes. */
    method CountSpaces() returns (width: nat)
      modifies this
      ensures State() == S.SkipAt(source, old(State()), S.Spaces)
      ensures width == end - old(end)
    {
      ghost var s0 := State();
      width := 0;
      while end < |source| && source[end] == ' '
        invariant s0.end <= end && width == end - s0.end
        invariant State() == S.Advance(s0, width)
        invariant S.SkipRun(source, end, S.Spaces) == S.SkipRun(source, s0.end, S.Spaces)
        decreases |source| - end
      {
        Advance(1);
        width := width + 1;
      }
    }

    /** `newline()`, entered just past the line break. */
    method Newline() returns (r: Result<Items, S.LexError>)
      requires Valid()
      modifies this
      ensures S.Reports(r, State(), S.Newline(source, old(State())))
    {
      if |parentheses| != 1 {
        return Ok([]);
      }
      var newlineToken := Token(NEWLINE);
      var width := CountSpaces();
      var next := Observe(0);
      if next == "\n" || next == "\r" {
        Consume();
        return Ok([]);
      } else if next == "#" {
        r := Comment();
      } else if next == "\t" {
        return Err(S.LeadingTab);
      } else {
        var rest := IndentsAndDedents(width);
        match rest
        case Err(e) => return Err(e);
        case Ok(items) => return Ok([Some(newlineToken)] + items);
      }
    }

    /** `identifier_or_keyword()`. */
    method IdentifierOrKeyword() returns (t: S.Token)
      requires Valid()
      modifies this
      ensures S.IdentifierOrKeyword(source, old(State())) == S.Progress(State(), [Some(t)])
    {
      SkipRun(S.IdentifierCharacters);
      var identifier := Token(IDENTIFIER);
      t := S.OrKeyword(identifier);
    }

    /** One `if observe() ...: advance()` step of `numeric`. */
    method AdvanceIf(test: bool)
      modifies this
      ensures State() == S.AdvanceIf(old(State()), test)
    {
      if test {
        Advance(1);
      }
    }

    /** `numeric(base)`. */
    method Numeric(base: Tokentype) returns (t: S.Token)
      requires Valid()
      modifies this
      ensures S.Numeric(source, old(State()), base) == S.Progress(State(), [Some(t)])
    {
      var ctx := S.GetNumericContext(base);
      var kind := WholePart(ctx.numerals, base);
      kind := Markers(ctx, kind);
      FractionPart(ctx.numerals);
      t := Token(kind);
    }

    /** The first part of `numeric`: digits, an optional point, digits. */
    method WholePart(numerals: S.CharacterRun, base: Tokentype) returns (kind: Tokentype)
      modifies this
      ensures S.WholePart(source, old(State()), numerals, base) == S.Scan(State(), kind)
    {
      SkipRun(numerals);
      var observed := Observe(0);
      var point := observed == ".";
      kind := base | NUMBER | (if point then FLOAT else INTEGER);
      AdvanceIf(point);
      SkipRun(numerals);
    }

    /** The middle part of `numeric`: the imaginary marker, then the exponent marker. */
    method Markers(ctx: S.NumericContext, kind0: Tokentype) returns (kind: Tokentype)
      modifies this
      ensures S.Markers(source, S.Scan(old(State()), kind0), ctx) == S.Scan(State(), kind)
    {
      var observed := Observe(0);
      var imaginary := S.LowersTo(observed, ctx.imaginary);
      kind := S.WithFlag(kind0, imaginary, COMPLEX);
      AdvanceIf(imaginary);
      observed := Observe(0);
      var exponent := S.LowersTo(observed, ctx.epsilon);
      kind := S.WithFlag(kind, exponent, EPSILON);
      AdvanceIf(exponent);
    }

    /** The last part of `numeric`: digits, an optional point, digits. */
    method FractionPart(numerals: S.CharacterRun)
      modifies this
      ensures State() == S.FractionPart(source, old(State()), numerals)
    {
      SkipRun(numerals);
      var observed := Observe(0);
      AdvanceIf(observed == ".");
      SkipRun(numerals);
    }

    /**
     * `double_quote()` or `single_quote()` for `q`, with the `rstring` and `fstring`
     * wrappers the prefix map's key asks for.
     */
    method Quote(q: char, fPrefix: bool, rPrefix: bool) returns (t: S.Token)
      requires Valid()
      modifies this
      ensures S.Quote(source, old(State()), q, fPrefix, rPrefix) == S.Progress(State(), [Some(t)])
    {
      if S.Slice(source, end, end + 2) == [q, q] {
        Advance(2);
        t := Token(S.QuoteFlag(q) | TRIPLE_QUOTE);
      } else {
        t := Token(S.QuoteFlag(q));
      }
      if rPrefix {
        t := S.Reclassify(t, R_STRING);
      }
      if fPrefix {
        t := S.Reclassify(t, F_STRING);
      }
    }

    /** `parenthetical(open, close)`. */
    method Parenthetical(open: char, closing: bool) returns (r: Result<Items, S.LexError>)
      requires Valid() && open in "([{"
      modifies this
      ensures S.Reports(r, State(), S.Parenthetical(source, old(State()), open, closing))
    {
      if closing {
        var top := S.Last(parentheses);
        parentheses := S.DropLast(parentheses);
        if top != open {
          return Err(S.MismatchedParenthetical);
        }
      } else {
        parentheses := parentheses + [open];
      }
      var t := Token(OPERATOR);
      return Ok([Some(t)]);
    }

    /** `indentation.pop()`. */
    method Pop() returns (top: int)
      requires |indentation| > 0
      modifies this
      ensures top == S.Last(old(indentation))
      ensures State() == old(State()).(indentation := S.DropLast(old(indentation)))
    {
      top := S.Last(indentation);
      indentation := S.DropLast(indentation);
    }

    /** `eof()`: pops the indentation stack, one DEDENT per nonzero width, then EOF. */
    method Eof() returns (yielded: Items)
      requires 0 in indentation
      modifies this
      ensures S.Eof(source, old(State())) == S.Progress(State(), yielded)
    {
      ghost var s0 := State();
      yielded := [];
      assert indentation == S.DropLast(indentation) + [S.Last(indentation)];
      var top := Pop();
      while top != 0
        invariant top != 0 ==> 0 in indentation
        invariant S.EofDedents(source, s0) == S.Progress(S.DedentsAfterPop(source, State(), top).state,
          yielded + S.DedentsAfterPop(source, State(), top).yielded)
        decreases |indentation|
      {
        var t := Token(DEDENT);
        yielded := yielded + [Some(t)];
        assert indentation == S.DropLast(indentation) + [S.Last(indentation)];
        top := Pop();
      }
      var t := Token(EOF);
      yielded := yielded + [Some(t)];
    }

    /** Runs the handler the prefix map selected. */
    method Handle(h: S.Handler) returns (r: Result<Items, S.LexError>)
      requires Valid()
      requires h.ParentheticalHandler? ==> h.open in "([{"
      modifies this
      ensures S.Reports(r, State(), S.Handle(h, source, old(State())))
    {
      match h
      case QuoteHandler(q, f, rp) =>
        var t := Quote(q, f, rp);
        r := Ok([Some(t)]);
      case OperatorHandler =>
        var t := Token(OPERATOR);
        r := Ok([Some(t)]);
      case ParentheticalHandler(open, closing) =>
        r := Parenthetical(open, closing);
      case IdentifierHandler =>
        var t := IdentifierOrKeyword();
        r := Ok([Some(t)]);
      case NumericHandler(base) =>
        var t := Numeric(base);
        r := Ok([Some(t)]);
      case CommentHandler =>
        r := Comment();
      case ConsumeHandler =>
        Consume();
        r := Ok([]);
      case NewlineHandler =>
        r := Newline();
      case BackslashHandler =>
        r := Err(S.DanglingBackslash);
    }

    /** One iteration of `lex()`: the 3-, 2- then 1-character probe at `start`. */
    method Step() returns (r: Result<Items, S.LexError>)
      requires Valid() && end < |source|
      modifies this
      ensures S.Reports(r, State(), S.Dispatch(source, old(State())))
    {
      var prefix := S.Slice(source, start, start + 3);
      var tokenizer := S.PrefixMap(S.Take(prefix, 3));
      if tokenizer.Some? {
        S.PrefixMapOpeners(S.Take(prefix, 3));
        Advance(3);
        r := Handle(tokenizer.value);
        return;
      }
      tokenizer := S.PrefixMap(S.Take(prefix, 2));
      if tokenizer.Some? {
        S.PrefixMapOpeners(S.Take(prefix, 2));
        Advance(2);
        r := Handle(tokenizer.value);
        return;
      }
      tokenizer := S.PrefixMap(S.Take(prefix, 1));
      if tokenizer.Some? {
        S.PrefixMapOpeners(S.Take(prefix, 1));
        Advance(1);
        r := Handle(tokenizer.value);
        return;
      }
      return Err(S.UnrecognizedCharacter);
    }

    /** `lex()`: steps while `end` is inside the input, then `eof()`. */
    method Lex() returns (r: Result<Items, S.LexError>)
      requires Valid()
      modifies this
      ensures S.Reports(r, State(), S.Run(source, old(State())))
    {
      ghost var s0 := State();
      var yielded: Items := [];
      S.PrependNothing(S.Run(source, s0));
      while end < |source|
        invariant Valid()
        invariant S.Run(source, s0) == S.Prepend(yielded, S.Run(source, State()))
        decreases |source| - end
      {
        ghost var before := State();
        var step := Step();
        match step
        case Err(e) =>
          return Err(e);
        case Ok(items) =>
          S.PrependTwice(yielded, items, S.Run(source, State()));
          yielded := yielded + items;
      }
      var tail := Eof();
      return Ok(yielded + tail);
    }
  }
}
