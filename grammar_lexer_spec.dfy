/**
 * The lexer of the grammar language that reads a string, as functions over its state:
 * the `start`/`end` markers and the bracket stack, plus the state of the `tokenize`
 * generator (running or exhausted) and the one-token lookahead that `peek`/`next` keep.
 * `GrammarLexer.Lexer` is the same lexer as an object whose methods are proved to follow
 * these functions.
 */
module GrammarLexerSpec {
  import opened Wrappers
  import opened GrammarTokentype

  /** A token: its type, its literal, and the context the lexer reports when it is built. */
  datatype Token = Token(kind: Tokentype, literal: string, start: nat, end: nat, line: int, column: int)

  /** The `SyntaxError`s the lexer raises. */
  datatype LexError = UnrecognizedCharacter | UnterminatedString | MismatchedParenthetical | ErroneousCharacter

  /** The markers, the (never updated) line and column, and the bracket stack. */
  datatype State = State(start: nat, end: nat, line: int, column: int, parentheses: seq<char>)

  /** The state of a fresh lexer: both markers at 0, line and column 1, the stack `['|']`. */
  const Initial: State := State(0, 0, 1, 1, ['|'])

  /** Both markers lie within the source, and the stack keeps its bottom `'|'`. */
  predicate Valid(src: string, s: State)
  {
    s.start <= s.end <= |src| && |s.parentheses| > 0 && s.parentheses[0] == '|'
  }

  /**
   * The state at the head of the `tokenize` loop: valid, and nothing pending between the
   * markers, since every tokenizer ends by consuming or ignoring.
   */
  predicate Ready(src: string, s: State)
  {
    Valid(src, s) && s.start == s.end
  }

  /** One handler run: the new state and the token it yielded, if any. */
  datatype Progress = Progress(state: State, token: Option<Token>)

  // ---------------------------------------------------------------------------------------
  // Character sets
  // ---------------------------------------------------------------------------------------

  predicate IsLetter(c: char) { 'A' <= c <= 'Z' || 'a' <= c <= 'z' }
  predicate IsDigit(c: char) { '0' <= c <= '9' }

  /** `ALNUM_SYMBOLS`: letters, digits and the underscore. */
  predicate IsAlnumSymbol(c: char) { IsLetter(c) || IsDigit(c) || c == '_' }

  /** The punctuation of `ASCII_SYMBOLS`: the printable ASCII characters but the backtick. */
  const AsciiPunctuation: string := "_~!@#$%^&*()[]{}<>-=+|:;\"',.?/ \\"

  /** `ASCII_SYMBOLS`: letters, digits and the punctuation above; no tab, no line break. */
  predicate IsAsciiSymbol(c: char) { IsLetter(c) || IsDigit(c) || c in AsciiPunctuation }

  // ---------------------------------------------------------------------------------------
  // Markers
  // ---------------------------------------------------------------------------------------

  /** `observe()`: the character at `end`, or the empty string at the end of the source. */
  function Observe(src: string, s: State): (r: string)
    ensures |r| <= 1 && (|r| == 1 <==> s.end < |src|)
    ensures |r| == 1 ==> r[0] == src[s.end]
  {
    if s.end < |src| then [src[s.end]] else ""
  }

  /** `advance()`: moves `end` by one unless it is already at the end of the source. */
  function Advance(src: string, s: State): (r: State)
    ensures r.end == (if s.end < |src| then s.end + 1 else s.end)
    ensures r == s.(end := r.end)
  {
    if s.end < |src| then s.(end := s.end + 1) else s
  }

  /** `consume()` and `ignore()`: `start := end`. */
  function Consume(s: State): (r: State)
    ensures r == s.(start := s.end)
  {
    s.(start := s.end)
  }

  /**
   * A token of the given type with the literal `source[start:end]`; `consume()` runs before
   * the context is read, so the token records `start == end == end`.
   */
  function Emit(src: string, s: State, kind: Tokentype): (p: Progress)
    requires s.start <= s.end <= |src|
    ensures p.state == Consume(s)
    ensures p.token == Some(Token(kind, src[s.start..s.end], s.end, s.end, s.line, s.column))
  {
    Progress(Consume(s), Some(Token(kind, src[s.start..s.end], s.end, s.end, s.line, s.column)))
  }

  // ---------------------------------------------------------------------------------------
  // Scanning loops
  // ---------------------------------------------------------------------------------------

  /** Where the `while observe() in ALNUM_SYMBOLS: advance()` loop stops. */
  function IdentifierEnd(src: string, i: nat): (r: nat)
    requires i <= |src|
    ensures i <= r <= |src|
    ensures forall k :: i <= k < r ==> IsAlnumSymbol(src[k])
    ensures r < |src| ==> !IsAlnumSymbol(src[r])
    decreases |src| - i
  {
    if i < |src| && IsAlnumSymbol(src[i]) then IdentifierEnd(src, i + 1) else i
  }

  /**
   * Where the scan of a string body stops: at the next `quote`, or with an error at the
   * first character outside `ASCII_SYMBOLS` (the end of the source included, since
   * `observe()` then gives the empty string).
   */
  function StringEnd(src: string, i: nat, quote: char): (r: Result<nat, LexError>)
    requires i <= |src|
    ensures r.Ok? ==> i <= r.value < |src| && src[r.value] == quote
    ensures r.Ok? ==> forall k :: i <= k < r.value ==> src[k] != quote && IsAsciiSymbol(src[k])
    ensures r.Err? ==> r.error == UnrecognizedCharacter
    decreases |src| - i
  {
    if i >= |src| then Err(UnrecognizedCharacter)
    else if src[i] == quote then Ok(i)
    else if IsAsciiSymbol(src[i]) then StringEnd(src, i + 1, quote)
    else Err(UnrecognizedCharacter)
  }

  /**
   * Where the scan of a comment stops: at `'\r'`, `'\n'` or the end of the source, or with
   * an error at the first character outside `ASCII_SYMBOLS`.
   */
  function CommentEnd(src: string, i: nat): (r: Result<nat, LexError>)
    requires i <= |src|
    ensures r.Ok? ==> i <= r.value <= |src| && (r.value < |src| ==> src[r.value] in "\r\n")
    ensures r.Ok? ==> forall k :: i <= k < r.value ==> src[k] !in "\r\n" && IsAsciiSymbol(src[k])
    ensures r.Err? ==> r.error == UnrecognizedCharacter
    decreases |src| - i
  {
    if i >= |src| || src[i] in "\r\n" then Ok(i)
    else if IsAsciiSymbol(src[i]) then CommentEnd(src, i + 1)
    else Err(UnrecognizedCharacter)
  }

  // ---------------------------------------------------------------------------------------
  // Handlers
  // ---------------------------------------------------------------------------------------

  /** `identifier()`: the run of `ALNUM_SYMBOLS`, then one IDENTIFIER token. */
  function Identifier(src: string, s: State): (p: Progress)
    requires s.start <= s.end <= |src|
  {
    Emit(src, s.(end := IdentifierEnd(src, s.end)), IDENTIFIER)
  }

  /**
   * `string(quote)`: the body up to the next identical quote, the closing quote, then one
   * STRING token. The unterminated-literal branch is kept as written.
   */
  function String(src: string, s: State, quote: char): (r: Result<Progress, LexError>)
    requires s.start <= s.end <= |src|
  {
    match StringEnd(src, s.end, quote)
    case Err(e) => Err(e)
    case Ok(j) =>
      var body := s.(end := j);
      if Observe(src, body) == [quote] then Ok(Emit(src, Advance(src, body), STRING))
      else Err(UnterminatedString)
  }

  /** `comment()`: scans to the end of the line and yields nothing; `start := end`. */
  function Comment(src: string, s: State): (r: Result<Progress, LexError>)
    requires s.start <= s.end <= |src|
    ensures r.Ok? ==> r.value.token.None?
  {
    match CommentEnd(src, s.end)
    case Err(e) => Err(e)
    case Ok(j) => Ok(Progress(Consume(s.(end := j)), None))
  }

  /**
   * `parenthetical(type, open, close)`: an opener is pushed; a closer pops the stack and
   * raises unless the popped entry is `open`. Either way one token of the given type.
   */
  function Parenthetical(src: string, s: State, kind: Tokentype, open: char, closing: bool): (r: Result<Progress, LexError>)
    requires Valid(src, s) && open in "([{"
  {
    if closing then
      if Last(s.parentheses) != open then Err(MismatchedParenthetical)
      else Ok(Emit(src, s.(parentheses := DropLast(s.parentheses)), kind))
    else Ok(Emit(src, s.(parentheses := s.parentheses + [open]), kind))
  }

  function Last<T>(s: seq<T>): T
    requires |s| > 0
  {
    s[|s| - 1]
  }

  function DropLast<T>(s: seq<T>): seq<T>
    requires |s| > 0
  {
    s[..|s| - 1]
  }

  // ---------------------------------------------------------------------------------------
  // Prefix map and dispatch
  // ---------------------------------------------------------------------------------------

  /** The tokenizers of the prefix map. */
  datatype Handler =
    | OperatorHandler(kind: Tokentype)
    | ParentheticalHandler(kind: Tokentype, open: char, closing: bool)
    | CommentHandler
    | StringHandler(quote: char)
    | ErroneousHandler
    | IdentifierHandler
    | NumberHandler
    | IgnoreHandler

  /** The condition every entry of the prefix map meets: brackets open with `(`, `[` or `{`. */
  predicate Mapped(h: Handler)
  {
    h.ParentheticalHandler? ==> h.open in "([{"
  }

  /** The characters whose entry raises the erroneous-character error. */
  const ErroneousCharacters: string := "&!~@$%^-;<>?/\\"

  /** The entries whose key is two characters. */
  function DoubleHandler(a: char, b: char): Option<Handler>
  {
    if a == '*' && b == '*' then Some(OperatorHandler(STAR_STAR))
    else if a == '+' && b == '+' then Some(OperatorHandler(PLUS_PLUS))
    else if a == ':' && b == '=' then Some(OperatorHandler(WALRUS))
    else if a == '\r' && b == '\n' then Some(OperatorHandler(EOL))
    else None
  }

  /** The entries whose key is one character. */
  function SingleHandler(c: char): Option<Handler>
  {
    if c == ')' then Some(ParentheticalHandler(R_PAREN, '(', true))
    else if c == ']' then Some(ParentheticalHandler(R_BRACK, '[', true))
    else if c == '}' then Some(ParentheticalHandler(R_BRACE, '{', true))
    else if c == '(' then Some(ParentheticalHandler(L_PAREN, '(', false))
    else if c == '[' then Some(ParentheticalHandler(L_BRACK, '[', false))
    else if c == '{' then Some(ParentheticalHandler(L_BRACE, '{', false))
    else if c == '|' then Some(OperatorHandler(PIPE))
    else if c == '*' then Some(OperatorHandler(STAR))
    else if c == '+' then Some(OperatorHandler(PLUS))
    else if c == ',' then Some(OperatorHandler(COMMA))
    else if c == '=' then Some(OperatorHandler(ASSIGN))
    else if c == '#' then Some(CommentHandler)
    else if c == '\'' || c == '"' then Some(StringHandler(c))
    else if c in ErroneousCharacters then Some(ErroneousHandler)
    else if IsLetter(c) then Some(IdentifierHandler)
    else if IsDigit(c) then Some(NumberHandler)
    else if c == ' ' || c == '\t' then Some(IgnoreHandler)
    else if c == '\n' then Some(OperatorHandler(EOL))
    else None
  }

  /** `Prefix_Map.get(key)`. */
  function PrefixMap(key: string): (r: Option<Handler>)
    ensures r.Some? ==> Mapped(r.value)
  {
    if |key| == 2 then DoubleHandler(key[0], key[1])
    else if |key| == 1 then SingleHandler(key[0])
    else None
  }

  /** Runs a handler once the markers were advanced past its key. */
  function Handle(h: Handler, src: string, s: State): (r: Result<Progress, LexError>)
    requires Valid(src, s) && Mapped(h)
  {
    match h
    case OperatorHandler(kind) => Ok(Emit(src, s, kind))
    case ParentheticalHandler(kind, open, closing) => Parenthetical(src, s, kind, open, closing)
    case CommentHandler => Comment(src, s)
    case StringHandler(quote) => String(src, s, quote)
    case ErroneousHandler => Err(ErroneousCharacter)
    case IdentifierHandler => Ok(Identifier(src, s))
    case NumberHandler => Ok(Emit(src, s, NUMBER))
    case IgnoreHandler => Ok(Progress(Consume(s), None))
  }

  /** `source[i:j]` with Python's clamping. */
  function Slice(src: string, i: nat, j: nat): (r: string)
    ensures |r| == if i < j && i < |src| then (if j < |src| then j else |src|) - i else 0
    ensures forall k :: 0 <= k < |r| ==> r[k] == src[i + k]
  {
    if i < j && i < |src| then src[i..if j < |src| then j else |src|] else []
  }

  /**
   * One iteration of the `tokenize` loop: the two-character key at `start` first (two
   * `advance()`s), then the one-character key (one `advance()`), else the
   * unrecognized-character error.
   */
  function Step(src: string, s: State): (r: Result<Progress, LexError>)
    requires Valid(src, s) && s.end < |src|
  {
    var double := Slice(src, s.start, s.start + 2);
    var single := Slice(src, s.start, s.start + 1);
    if PrefixMap(double).Some? then Handle(PrefixMap(double).value, src, Advance(src, Advance(src, s)))
    else if PrefixMap(single).Some? then Handle(PrefixMap(single).value, src, Advance(src, s))
    else Err(UnrecognizedCharacter)
  }

  // ---------------------------------------------------------------------------------------
  // The generator and the lookahead
  // ---------------------------------------------------------------------------------------

  /** The `tokenize` generator: the lexer state, and whether it has finished. */
  datatype Gen = Gen(state: State, exhausted: bool)

  /** What one resumption of the generator gives: the token (None: `StopIteration`). */
  datatype Pulled = Pulled(token: Option<Token>, gen: Gen)

  /**
   * One `next(self.tokenizer)`: iterations until a handler yields a token; at the end of
   * the source the EOF token, after which the generator is exhausted.
   */
  function Pull(src: string, g: Gen): (r: Result<Pulled, LexError>)
    requires Ready(src, g.state)
    decreases if g.exhausted then 0 else |src| - g.state.end + 1
  {
    if g.exhausted then Ok(Pulled(None, g))
    else if g.state.end < |src| then
      StepKeepsValid(src, g.state);
      match Step(src, g.state)
      case Err(e) => Err(e)
      case Ok(p) =>
        if p.token.Some? then Ok(Pulled(p.token, Gen(p.state, false)))
        else Pull(src, Gen(p.state, false))
    else
      var eof := Emit(src, g.state, EOF);
      Ok(Pulled(eof.token, Gen(eof.state, true)))
  }

  /** An iteration keeps the state valid and moves `end` forward. */
  lemma StepKeepsValid(src: string, s: State)
    requires Valid(src, s) && s.end < |src|
    ensures Step(src, s).Ok? ==> Ready(src, Step(src, s).value.state) && Step(src, s).value.state.end > s.end
  {
    var double := Slice(src, s.start, s.start + 2);
    var single := Slice(src, s.start, s.start + 1);
    var n := if PrefixMap(double).Some? then Advance(src, Advance(src, s)) else Advance(src, s);
    var h := if PrefixMap(double).Some? then PrefixMap(double) else PrefixMap(single);
    if h.Some? {
      HandleKeepsValid(h.value, src, n);
    }
  }

  lemma HandleKeepsValid(h: Handler, src: string, s: State)
    requires Valid(src, s) && Mapped(h)
    ensures Handle(h, src, s).Ok? ==>
      Ready(src, Handle(h, src, s).value.state) && Handle(h, src, s).value.state.end >= s.end
  {
    match h
    case ParentheticalHandler(kind, open, closing) =>
      if closing && Last(s.parentheses) == open {
        assert |s.parentheses| > 1;
      }
    case _ =>
  }

  /** A handler method's result `r` and new state `s` are those `spec` describes. */
  predicate Reports(r: Result<Option<Token>, LexError>, s: State, spec: Result<Progress, LexError>)
  {
    match spec
    case Ok(p) => r == Ok(p.token) && s == p.state
    case Err(e) => r == Err(e)
  }

  /** A resumption's result `r` and new generator `g` are those `spec` describes. */
  predicate PullReports(r: Result<Option<Token>, LexError>, g: Gen, spec: Result<Pulled, LexError>)
  {
    match spec
    case Ok(p) => r == Ok(p.token) && g == p.gen
    case Err(e) => r == Err(e) && g.exhausted
  }

  /** How a resumption of a running generator follows from one loop iteration. */
  lemma PullAfterStep(src: string, s: State)
    requires Ready(src, s) && s.end < |src|
    ensures Step(src, s).Err? ==> Pull(src, Gen(s, false)) == Err(Step(src, s).error)
    ensures Step(src, s).Ok? ==>
      var p := Step(src, s).value;
      Ready(src, p.state) && p.state.end > s.end &&
      Pull(src, Gen(s, false)) ==
        if p.token.Some? then Ok(Pulled(p.token, Gen(p.state, false))) else Pull(src, Gen(p.state, false))
  {
    StepKeepsValid(src, s);
  }

  /** The lexer as `peek`/`next` see it: the generator and the one-token lookahead. */
  datatype Lookahead = Lookahead(gen: Gen, token: Option<Token>)

  /** What a call of `next()` leaves: the value it returned or the error it raised. */
  datatype NextOutcome = NextOutcome(returned: Result<Option<Token>, LexError>, after: Lookahead)

  /**
   * `next()`: resumes the generator, stores what it gave as the new lookahead and returns
   * the old one. An error leaves the lookahead as it was and the generator finished.
   */
  function Next(src: string, l: Lookahead): (o: NextOutcome)
    requires Ready(src, l.gen.state)
  {
    match Pull(src, l.gen)
    case Err(e) => NextOutcome(Err(e), Lookahead(l.gen.(exhausted := true), l.token))
    case Ok(p) => NextOutcome(Ok(l.token), Lookahead(p.gen, p.token))
  }

  /** A fresh lexer: the generator at the initial state, then the priming `next()`. */
  function Opened(src: string): (o: NextOutcome)
  {
    Next(src, Lookahead(Gen(Initial, false), None))
  }

  /** The tokens of successive `next(self.tokenizer)` calls until the generator finishes. */
  function Stream(src: string, g: Gen): (r: Result<seq<Token>, LexError>)
    requires Ready(src, g.state)
    decreases if g.exhausted then 0 else |src| - g.state.end + 1
  {
    if g.exhausted then Ok([])
    else
      PullProgress(src, g);
      match Pull(src, g)
      case Err(e) => Err(e)
      case Ok(p) =>
        if p.token.None? then Ok([])
        else match Stream(src, p.gen)
          case Err(e) => Err(e)
          case Ok(rest) => Ok([p.token.value] + rest)
  }

  /**
   * A resumption of a running generator yields a token and leaves a valid state that is
   * exhausted or has moved `end` forward.
   */
  lemma {:induction false} PullProgress(src: string, g: Gen)
    requires Ready(src, g.state) && !g.exhausted
    ensures var r := Pull(src, g);
      r.Ok? ==>
        r.value.token.Some? && Ready(src, r.value.gen.state) &&
        (r.value.gen.exhausted || r.value.gen.state.end > g.state.end)
    decreases |src| - g.state.end
  {
    if g.state.end < |src| {
      StepKeepsValid(src, g.state);
      var st := Step(src, g.state);
      if st.Ok? && st.value.token.None? {
        PullProgress(src, Gen(st.value.state, false));
      }
    }
  }

}
