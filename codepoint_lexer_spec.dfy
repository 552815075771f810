/**
 * The lexer of the grammar language that reads codepoints from the UTF-8 decoder, as
 * functions over its state. The decoded stream is a sequence of codepoints; past its end
 * the decoder keeps giving 0, which is also the sentinel that ends tokenizing. The state
 * holds the `start`/`end` markers, the bracket stack and the `literal` buffer of the
 * codepoints advanced over since the last boundary. `CodepointLexer.Lexer` is the same
 * lexer as an object over a `Utf8Codec.Codec`, its methods proved to follow these
 * functions.
 */
module CodepointLexerSpec {
  import opened Wrappers
  import opened GrammarTokentype
  import Utf8CodecSpec

  type Codepoint = Utf8CodecSpec.Codepoint

  // The codepoints of the characters the prefix map names.
  const Tab: Codepoint := 0x09  // tab
  const Newline: Codepoint := 0x0A  // newline
  const CarriageReturn: Codepoint := 0x0D  // carriage return
  const Space: Codepoint := 0x20  // space
  const Exclamation: Codepoint := 0x21  // `!`
  const Quotation: Codepoint := 0x22  // `"`
  const Hash: Codepoint := 0x23  // `#`
  const Dollar: Codepoint := 0x24  // `$`
  const Percent: Codepoint := 0x25  // `%`
  const Ampersand: Codepoint := 0x26  // `&`
  const Apostrophe: Codepoint := 0x27  // `'`
  const LParen: Codepoint := 0x28  // `(`
  const RParen: Codepoint := 0x29  // `)`
  const Star: Codepoint := 0x2A  // `*`
  const Plus: Codepoint := 0x2B  // `+`
  const Comma: Codepoint := 0x2C  // `,`
  const Hyphen: Codepoint := 0x2D  // `-`
  const Slash: Codepoint := 0x2F  // `/`
  const Colon: Codepoint := 0x3A  // `:`
  const Semicolon: Codepoint := 0x3B  // `;`
  const Less: Codepoint := 0x3C  // `<`
  const Equals: Codepoint := 0x3D  // `=`
  const Greater: Codepoint := 0x3E  // `>`
  const Question: Codepoint := 0x3F  // `?`
  const AtSign: Codepoint := 0x40  // `@`
  const LBrack: Codepoint := 0x5B  // `[`
  const RBrack: Codepoint := 0x5D  // `]`
  const Caret: Codepoint := 0x5E  // `^`
  const Underscore: Codepoint := 0x5F  // `_`
  const LBrace: Codepoint := 0x7B  // `{`
  const Bar: Codepoint := 0x7C  // `|`
  const RBrace: Codepoint := 0x7D  // `}`

  /** A token: its type, its literal as codepoints, and the context the lexer reports. */
  datatype Token = Token(kind: Tokentype, literal: seq<Codepoint>, start: nat, end: nat, line: int, column: int)

  /**
   * What tokenizing can end in besides a token. The first three are the `SyntaxError`s
   * the lexer raises. `MissingSource` is the failure of the erroneous-character entries:
   * their handler reads an attribute `source` the lexer never sets, so it fails before it
   * can raise its own error. `EndlessComment` is not raised at all: a comment with no line
   * break after it makes the comment loop run forever.
   */
  datatype LexError = UnrecognizedCharacter | UnterminatedString | MismatchedParenthetical | MissingSource | EndlessComment

  /**
   * The markers, the (never updated) line and column, the bracket stack of opener
   * codepoints over its bottom entry, and the `literal` buffer.
   */
  datatype State = State(start: nat, end: nat, line: int, column: int, parentheses: seq<Codepoint>, literal: seq<Codepoint>)

  /**
   * The bottom of the bracket stack. The source puts the string `'|'` there, which no
   * popped codepoint equals; the codepoint of `'|'` equals no opener either, and only
   * openers are compared with it.
   */
  const Bottom: Codepoint := Bar

  /** A fresh lexer: both markers at 0, line and column 1, the stack `['|']`, no literal. */
  const Initial: State := State(0, 0, 1, 1, [Bottom], [])

  /** The codepoint at `i`, or the 0 the decoder gives once the stream is exhausted. */
  function At(cps: seq<Codepoint>, i: nat): (c: Codepoint)
    ensures i < |cps| ==> c == cps[i]
    ensures i >= |cps| ==> c == 0
  {
    if i < |cps| then cps[i] else 0
  }

  /** The codepoints at `i`, ..., `j - 1`, in order. */
  function Span(cps: seq<Codepoint>, i: nat, j: nat): (r: seq<Codepoint>)
    ensures |r| == if i <= j then j - i else 0
    decreases j
  {
    if j <= i then [] else Span(cps, i, j - 1) + [At(cps, j - 1)]
  }

  /**
   * The markers lie within the stream, the stack keeps its bottom entry, and the literal
   * buffer holds exactly the codepoints between the markers.
   */
  predicate Valid(cps: seq<Codepoint>, s: State)
  {
    s.start <= s.end <= |cps| && |s.parentheses| > 0 && s.parentheses[0] == Bottom &&
    s.literal == Span(cps, s.start, s.end)
  }

  /** The state at the head of the `tokenize` loop: valid, and nothing pending. */
  predicate Ready(cps: seq<Codepoint>, s: State)
  {
    Valid(cps, s) && s.start == s.end
  }

  /** One handler run: the new state and the token it yielded, if any. */
  datatype Progress = Progress(state: State, token: Option<Token>)

  // ---------------------------------------------------------------------------------------
  // Codepoint classes
  // ---------------------------------------------------------------------------------------

  predicate IsLetter(c: Codepoint) { 65 <= c <= 90 || 97 <= c <= 122 }
  predicate IsDigit(c: Codepoint) { 48 <= c <= 57 }

  /** What `identifier()` advances over: letters and the underscore, no digits. */
  predicate IsIdentifierPart(c: Codepoint) { IsLetter(c) || c == Underscore }

  /** The codepoints of the erroneous entries. */
  predicate IsErroneous(c: Codepoint)
  {
    c == Ampersand || c == Exclamation || c == AtSign || c == Dollar || c == Percent || c == Caret ||
    c == Hyphen || c == Semicolon || c == Less || c == Greater || c == Question || c == Slash
  }

  predicate IsOpener(c: Codepoint) { c == LParen || c == LBrack || c == LBrace }

  predicate IsLineBreak(c: Codepoint) { c == CarriageReturn || c == Newline }

  // ---------------------------------------------------------------------------------------
  // Markers and the literal buffer
  // ---------------------------------------------------------------------------------------

  /** `advance()`: the current codepoint joins the literal, and `end` moves past it. */
  function Advance(cps: seq<Codepoint>, s: State): (r: State)
    ensures r == s.(end := s.end + 1, literal := s.literal + [At(cps, s.end)])
  {
    s.(end := s.end + 1, literal := s.literal + [At(cps, s.end)])
  }

  /** `advance()` from `end` up to `j`, one codepoint at a time. */
  function Scan(cps: seq<Codepoint>, s: State, j: nat): (r: State)
    requires s.end <= j
    ensures r == s.(end := j, literal := r.literal)
    decreases j - s.end
  {
    if j == s.end then s else Advance(cps, Scan(cps, s, j - 1))
  }

  /** A scan appends the codepoints it passes over to the literal. */
  lemma {:induction false} ScanLiteral(cps: seq<Codepoint>, s: State, j: nat)
    requires s.end <= j
    ensures Scan(cps, s, j).literal == s.literal + Span(cps, s.end, j)
    decreases j - s.end
  {
    if j > s.end {
      ScanLiteral(cps, s, j - 1);
      assert s.literal + Span(cps, s.end, j - 1) + [At(cps, j - 1)] == s.literal + (Span(cps, s.end, j - 1) + [At(cps, j - 1)]);
    }
  }

  /** `consume()` and `ignore()`: `start := end`, and the literal is emptied. */
  function Consume(s: State): (r: State)
    ensures r == s.(start := s.end, literal := [])
  {
    s.(start := s.end, literal := [])
  }

  /**
   * A token of the given type with the pending literal; `consume()` runs before the
   * context is read, so the token records `start == end == end`.
   */
  function Emit(s: State, kind: Tokentype): (p: Progress)
    ensures p.state == Consume(s)
    ensures p.token == Some(Token(kind, s.literal, s.end, s.end, s.line, s.column))
  {
    Progress(Consume(s), Some(Token(kind, s.literal, s.end, s.end, s.line, s.column)))
  }

  // ---------------------------------------------------------------------------------------
  // Scanning loops
  // ---------------------------------------------------------------------------------------

  /** Where the loop of `identifier()` stops: at the first codepoint not a letter or `_`. */
  function IdentifierEnd(cps: seq<Codepoint>, i: nat): (r: nat)
    requires i <= |cps|
    ensures i <= r <= |cps|
    ensures forall k :: i <= k < r ==> IsIdentifierPart(At(cps, k))
    ensures !IsIdentifierPart(At(cps, r))
    decreases |cps| - i
  {
    if IsIdentifierPart(At(cps, i)) then IdentifierEnd(cps, i + 1) else i
  }

  /** Where the loop of `string(quote)` stops: at the next `quote` or the next 0. */
  function StringEnd(cps: seq<Codepoint>, i: nat, quote: Codepoint): (r: nat)
    requires i <= |cps|
    ensures i <= r <= |cps|
    ensures forall k :: i <= k < r ==> At(cps, k) != 0 && At(cps, k) != quote
    ensures At(cps, r) == 0 || At(cps, r) == quote
    decreases |cps| - i
  {
    if At(cps, i) == 0 || At(cps, i) == quote then i else StringEnd(cps, i + 1, quote)
  }

  /**
   * Where the loop of `comment()` stops: at the next carriage return or newline. A 0 does
   * not stop it, and past the end of the stream every codepoint is 0, so without a line
   * break ahead the loop never stops (None).
   */
  function CommentEnd(cps: seq<Codepoint>, i: nat): (r: Option<nat>)
    requires i <= |cps|
    ensures r.Some? ==> i <= r.value < |cps| && IsLineBreak(At(cps, r.value))
    ensures r.Some? ==> forall k :: i <= k < r.value ==> !IsLineBreak(At(cps, k))
    decreases |cps| - i
  {
    if IsLineBreak(At(cps, i)) then Some(i)
    else if i == |cps| then None
    else CommentEnd(cps, i + 1)
  }

  /** One codepoint of a string body: the scan stops here, or goes on from the next one. */
  lemma StringEndStep(cps: seq<Codepoint>, i: nat, quote: Codepoint)
    requires i <= |cps|
    ensures At(cps, i) == 0 || At(cps, i) == quote ==> StringEnd(cps, i, quote) == i
    ensures At(cps, i) != 0 && At(cps, i) != quote ==> i < |cps| && StringEnd(cps, i + 1, quote) == StringEnd(cps, i, quote)
  {
  }

  /** Advancing over one codepoint and then scanning on to `j` is the same scan to `j`. */
  lemma {:induction false} ScanAfterAdvance(cps: seq<Codepoint>, s: State, j: nat)
    requires s.end < j
    ensures Scan(cps, Advance(cps, s), j) == Scan(cps, s, j)
    decreases j - s.end
  {
    if j > s.end + 1 {
      ScanAfterAdvance(cps, s, j - 1);
    }
  }

  // ---------------------------------------------------------------------------------------
  // Handlers
  // ---------------------------------------------------------------------------------------

  /** `identifier()`: the run of letters and underscores, then one IDENTIFIER token. */
  function Identifier(cps: seq<Codepoint>, s: State): (p: Progress)
    requires s.end <= |cps|
  {
    Emit(Scan(cps, s, IdentifierEnd(cps, s.end)), IDENTIFIER)
  }

  /**
   * `string(quote)`: the body up to the next `quote`, the closing quote, then one STRING
   * token; a 0 before the closing quote raises the unterminated-literal error.
   */
  function String(cps: seq<Codepoint>, s: State, quote: Codepoint): (r: Result<Progress, LexError>)
    requires s.end <= |cps|
  {
    var j := StringEnd(cps, s.end, quote);
    if At(cps, j) == quote then Ok(Emit(Advance(cps, Scan(cps, s, j)), STRING))
    else Err(UnterminatedString)
  }

  /** `comment()`: scans to the next line break and yields nothing, then `ignore()`. */
  function Comment(cps: seq<Codepoint>, s: State): (r: Result<Progress, LexError>)
    requires s.end <= |cps|
    ensures r.Ok? ==> r.value.token.None?
  {
    match CommentEnd(cps, s.end)
    case None => Err(EndlessComment)
    case Some(j) => Ok(Progress(Consume(Scan(cps, s, j)), None))
  }

  /** A letter or `_`: `identifier()` from just past it gives what it gives from it. */
  lemma IdentifierSkips(cps: seq<Codepoint>, s: State)
    requires s.end <= |cps| && IsIdentifierPart(At(cps, s.end))
    ensures s.end < |cps| && Identifier(cps, Advance(cps, s)) == Identifier(cps, s)
  {
    ScanAfterAdvance(cps, s, IdentifierEnd(cps, s.end));
  }

  /** Any other codepoint: `identifier()` emits the literal it has. */
  lemma IdentifierStops(cps: seq<Codepoint>, s: State)
    requires s.end <= |cps| && !IsIdentifierPart(At(cps, s.end))
    ensures Identifier(cps, s) == Emit(s, IDENTIFIER)
  {
  }

  /** A body codepoint: `string(quote)` from just past it gives what it gives from it. */
  lemma StringSkips(cps: seq<Codepoint>, s: State, quote: Codepoint)
    requires s.end <= |cps| && At(cps, s.end) != 0 && At(cps, s.end) != quote
    ensures s.end < |cps| && String(cps, Advance(cps, s), quote) == String(cps, s, quote)
  {
    StringEndStep(cps, s.end, quote);
    ScanAfterAdvance(cps, s, StringEnd(cps, s.end, quote));
  }

  /** The quote or a 0: `string(quote)` closes the literal or raises. */
  lemma StringStops(cps: seq<Codepoint>, s: State, quote: Codepoint)
    requires s.end <= |cps| && (At(cps, s.end) == 0 || At(cps, s.end) == quote)
    ensures String(cps, s, quote) ==
      if At(cps, s.end) == quote then Ok(Emit(Advance(cps, s), STRING)) else Err(UnterminatedString)
  {
  }

  /** A codepoint of a comment that ends: `comment()` from just past it gives what it gives from it. */
  lemma CommentSkips(cps: seq<Codepoint>, s: State)
    requires s.end <= |cps| && Comment(cps, s).Ok? && !IsLineBreak(At(cps, s.end))
    ensures s.end < |cps| && Comment(cps, Advance(cps, s)) == Comment(cps, s)
  {
    ScanAfterAdvance(cps, s, CommentEnd(cps, s.end).value);
  }

  /** A line break: `comment()` ignores the literal it has. */
  lemma CommentStops(cps: seq<Codepoint>, s: State)
    requires s.end <= |cps| && IsLineBreak(At(cps, s.end))
    ensures Comment(cps, s) == Ok(Progress(Consume(s), None))
  {
  }

  /**
   * `parenthetical(type, open, close)`: an opener is pushed; a closer pops the stack and
   * raises unless the popped entry is `open`. Either way one token of the given type.
   */
  function Parenthetical(s: State, kind: Tokentype, open: Codepoint, closing: bool): (r: Result<Progress, LexError>)
    requires |s.parentheses| > 0
  {
    if closing then
      if Last(s.parentheses) != open then Err(MismatchedParenthetical)
      else Ok(Emit(s.(parentheses := DropLast(s.parentheses)), kind))
    else Ok(Emit(s.(parentheses := s.parentheses + [open]), kind))
  }

  function Last<T>(s: seq<T>): T
    requires |s| > 0
  {
    s[|s| - 1]
  }

  function DropLast<T>(s: seq<T>): seq<T>
    requires |s| > 0
  {
    s[..|s| - 1]
  }

  // ---------------------------------------------------------------------------------------
  // Prefix map and dispatch
  // ---------------------------------------------------------------------------------------

  /** The tokenizers of the prefix map. */
  datatype Handler =
    | OperatorHandler(kind: Tokentype)
    | ParentheticalHandler(kind: Tokentype, open: Codepoint, closing: bool)
    | CommentHandler
    | StringHandler(quote: Codepoint)
    | ErroneousHandler
    | IdentifierHandler
    | NumberHandler
    | IgnoreHandler

  /** What every entry of the prefix map meets: brackets open with an opener, quotes are not 0. */
  predicate Mapped(h: Handler)
  {
    (h.ParentheticalHandler? ==> IsOpener(h.open)) && (h.StringHandler? ==> h.quote != 0)
  }

  /** The entries whose key is two codepoints: the current one, then the next. */
  function DoubleHandler(b: Codepoint, a: Codepoint): Option<Handler>
  {
    if b == Star && a == Star then Some(OperatorHandler(STAR_STAR))
    else if b == Plus && a == Plus then Some(OperatorHandler(PLUS_PLUS))
    else if b == Colon && a == Equals then Some(OperatorHandler(WALRUS))
    else if b == Newline && a == CarriageReturn then Some(OperatorHandler(EOL))
    else None
  }

  /** The entries whose key is one codepoint. */
  function SingleHandler(c: Codepoint): Option<Handler>
  {
    if c == RParen then Some(ParentheticalHandler(R_PAREN, LParen, true))
    else if c == RBrack then Some(ParentheticalHandler(R_BRACK, LBrack, true))
    else if c == RBrace then Some(ParentheticalHandler(R_BRACE, LBrace, true))
    else if c == LParen then Some(ParentheticalHandler(L_PAREN, LParen, false))
    else if c == LBrack then Some(ParentheticalHandler(L_BRACK, LBrack, false))
    else if c == LBrace then Some(ParentheticalHandler(L_BRACE, LBrace, false))
    else if c == Bar then Some(OperatorHandler(PIPE))
    else if c == Star then Some(OperatorHandler(STAR))
    else if c == Plus then Some(OperatorHandler(PLUS))
    else if c == Comma then Some(OperatorHandler(COMMA))
    else if c == Equals then Some(OperatorHandler(ASSIGN))
    else if c == Hash then Some(CommentHandler)
    else if c == Apostrophe || c == Quotation then Some(StringHandler(c))
    else if IsErroneous(c) then Some(ErroneousHandler)
    else if IsLetter(c) || c == Underscore then Some(IdentifierHandler)
    else if IsDigit(c) then Some(NumberHandler)
    else if c == Space || c == Tab then Some(IgnoreHandler)
    else if c == Newline then Some(OperatorHandler(EOL))
    else None
  }

  /** `Prefix_Map.get(key)` for a key tuple. */
  function PrefixMap(key: seq<Codepoint>): (r: Option<Handler>)
    ensures r.Some? ==> Mapped(r.value)
  {
    if |key| == 2 then DoubleHandler(key[0], key[1])
    else if |key| == 1 then SingleHandler(key[0])
    else None
  }

  /** Runs a handler once the markers were advanced past its key. */
  function Handle(h: Handler, cps: seq<Codepoint>, s: State): (r: Result<Progress, LexError>)
    requires Valid(cps, s) && Mapped(h)
  {
    match h
    case OperatorHandler(kind) => Ok(Emit(s, kind))
    case ParentheticalHandler(kind, open, closing) => Parenthetical(s, kind, open, closing)
    case CommentHandler => Comment(cps, s)
    case StringHandler(quote) => String(cps, s, quote)
    case ErroneousHandler => Err(MissingSource)
    case IdentifierHandler => Ok(Identifier(cps, s))
    case NumberHandler => Ok(Emit(s, NUMBER))
    case IgnoreHandler => Ok(Progress(Consume(s), None))
  }

  /**
   * One iteration of the `tokenize` loop at a nonzero codepoint: the key `(current, next)`
   * first (two `advance()`s), then the key `(current,)` (one `advance()`), else the
   * unrecognized-character error.
   */
  function Step(cps: seq<Codepoint>, s: State): (r: Result<Progress, LexError>)
    requires Ready(cps, s) && At(cps, s.end) != 0
  {
    var double := [At(cps, s.end), At(cps, s.end + 1)];
    var single := [At(cps, s.end)];
    if PrefixMap(double).Some? then Handle(PrefixMap(double).value, cps, Advance(cps, Advance(cps, s)))
    else if PrefixMap(single).Some? then Handle(PrefixMap(single).value, cps, Advance(cps, s))
    else Err(UnrecognizedCharacter)
  }

  /** An iteration whose two-codepoint key is mapped runs its handler after two advances. */
  lemma StepTakesDoubleKey(cps: seq<Codepoint>, s: State)
    requires Ready(cps, s) && At(cps, s.end) != 0 && PrefixMap([At(cps, s.end), At(cps, s.end + 1)]).Some?
    ensures Valid(cps, Advance(cps, Advance(cps, s)))
    ensures Step(cps, s) == Handle(PrefixMap([At(cps, s.end), At(cps, s.end + 1)]).value, cps, Advance(cps, Advance(cps, s)))
  {
    AdvanceKeepsValid(cps, s);
    AdvanceKeepsValid(cps, Advance(cps, s));
  }

  /** Otherwise a mapped one-codepoint key runs its handler after one advance. */
  lemma StepTakesSingleKey(cps: seq<Codepoint>, s: State)
    requires Ready(cps, s) && At(cps, s.end) != 0 && PrefixMap([At(cps, s.end), At(cps, s.end + 1)]).None?
    requires PrefixMap([At(cps, s.end)]).Some?
    ensures Valid(cps, Advance(cps, s))
    ensures Step(cps, s) == Handle(PrefixMap([At(cps, s.end)]).value, cps, Advance(cps, s))
  {
    AdvanceKeepsValid(cps, s);
  }

  /** With neither key mapped, the iteration raises the unrecognized-character error. */
  lemma StepTakesNoKey(cps: seq<Codepoint>, s: State)
    requires Ready(cps, s) && At(cps, s.end) != 0 && PrefixMap([At(cps, s.end), At(cps, s.end + 1)]).None?
    requires PrefixMap([At(cps, s.end)]).None?
    ensures Step(cps, s) == Err(UnrecognizedCharacter)
  {
  }

  /** Advancing over whole spans: `Span(i, k)` is `Span(i, j)` followed by `Span(j, k)`. */
  lemma {:induction false} SpanSplit(cps: seq<Codepoint>, i: nat, j: nat, k: nat)
    requires i <= j <= k
    ensures Span(cps, i, k) == Span(cps, i, j) + Span(cps, j, k)
    decreases k
  {
    if j < k {
      SpanSplit(cps, i, j, k - 1);
    }
  }

  /** A scan keeps the literal buffer equal to the codepoints between the markers. */
  lemma ScanKeepsLiteral(cps: seq<Codepoint>, s: State, j: nat)
    requires s.start <= s.end <= j && s.literal == Span(cps, s.start, s.end)
    ensures Scan(cps, s, j).literal == Span(cps, s.start, j)
  {
    ScanLiteral(cps, s, j);
    SpanSplit(cps, s.start, s.end, j);
  }

  /** An `advance()` over a nonzero codepoint keeps the state valid. */
  lemma AdvanceKeepsValid(cps: seq<Codepoint>, s: State)
    requires Valid(cps, s) && At(cps, s.end) != 0
    ensures Valid(cps, Advance(cps, s))
  {
  }

  /** An iteration keeps the state valid and moves `end` forward. */
  lemma StepKeepsValid(cps: seq<Codepoint>, s: State)
    requires Ready(cps, s) && At(cps, s.end) != 0
    ensures Step(cps, s).Ok? ==> Ready(cps, Step(cps, s).value.state) && Step(cps, s).value.state.end > s.end
  {
    var double := [At(cps, s.end), At(cps, s.end + 1)];
    var single := [At(cps, s.end)];
    if PrefixMap(double).Some? {
      StepTakesDoubleKey(cps, s);
      HandleKeepsValid(PrefixMap(double).value, cps, Advance(cps, Advance(cps, s)));
    } else if PrefixMap(single).Some? {
      StepTakesSingleKey(cps, s);
      HandleKeepsValid(PrefixMap(single).value, cps, Advance(cps, s));
    } else {
      StepTakesNoKey(cps, s);
    }
  }

  lemma HandleKeepsValid(h: Handler, cps: seq<Codepoint>, s: State)
    requires Valid(cps, s) && Mapped(h)
    ensures Handle(h, cps, s).Ok? ==>
      Ready(cps, Handle(h, cps, s).value.state) && Handle(h, cps, s).value.state.end >= s.end
  {
    match h
    case ParentheticalHandler(kind, open, closing) =>
      if closing && Last(s.parentheses) == open {
        assert |s.parentheses| > 1;
      }
    case StringHandler(quote) =>
      var j := StringEnd(cps, s.end, quote);
      if At(cps, j) == quote {
        ScanKeepsLiteral(cps, s, j);
        ScanKeepsLiteral(cps, Scan(cps, s, j), j + 1);
      }
    case CommentHandler =>
    case _ =>
  }

  /** A handler method's result `r` and new state `s` are those `spec` describes. */
  predicate Reports(r: Result<Option<Token>, LexError>, s: State, spec: Result<Progress, LexError>)
  {
    match spec
    case Ok(p) => r == Ok(p.token) && s == p.state
    case Err(e) => r == Err(e)
  }

  // ---------------------------------------------------------------------------------------
  // The generator and the lookahead
  // ---------------------------------------------------------------------------------------

  /** The `tokenize` generator: the lexer state, and whether it has finished. */
  datatype Gen = Gen(state: State, exhausted: bool)

  /** What one resumption of the generator gives: the token (None: `StopIteration`). */
  datatype Pulled = Pulled(token: Option<Token>, gen: Gen)

  /**
   * One `next(self.tokenizer)`: iterations while the current codepoint is nonzero, until a
   * handler yields a token; at the 0 sentinel the EOF token, after which the generator is
   * exhausted.
   */
  function Pull(cps: seq<Codepoint>, g: Gen): (r: Result<Pulled, LexError>)
    requires Ready(cps, g.state)
    decreases if g.exhausted then 0 else |cps| - g.state.end + 1
  {
    if g.exhausted then Ok(Pulled(None, g))
    else if At(cps, g.state.end) != 0 then
      StepKeepsValid(cps, g.state);
      match Step(cps, g.state)
      case Err(e) => Err(e)
      case Ok(p) =>
        if p.token.Some? then Ok(Pulled(p.token, Gen(p.state, false)))
        else Pull(cps, Gen(p.state, false))
    else
      var eof := Emit(g.state, EOF);
      Ok(Pulled(eof.token, Gen(eof.state, true)))
  }

  /** A resumption's result `r` and new generator `g` are those `spec` describes. */
  predicate PullReports(r: Result<Option<Token>, LexError>, g: Gen, spec: Result<Pulled, LexError>)
  {
    match spec
    case Ok(p) => r == Ok(p.token) && g == p.gen
    case Err(e) => r == Err(e) && g.exhausted
  }

  /** How a resumption of a running generator follows from one loop iteration. */
  lemma PullAfterStep(cps: seq<Codepoint>, s: State)
    requires Ready(cps, s) && At(cps, s.end) != 0
    ensures Step(cps, s).Err? ==> Pull(cps, Gen(s, false)) == Err(Step(cps, s).error)
    ensures Step(cps, s).Ok? ==>
      var p := Step(cps, s).value;
      Ready(cps, p.state) && p.state.end > s.end &&
      Pull(cps, Gen(s, false)) ==
        if p.token.Some? then Ok(Pulled(p.token, Gen(p.state, false))) else Pull(cps, Gen(p.state, false))
  {
    StepKeepsValid(cps, s);
  }

  /** The lexer as `peek`/`next` see it: the generator and the one-token lookahead. */
  datatype Lookahead = Lookahead(gen: Gen, token: Option<Token>)

  /** What a call of `next()` leaves: the value it returned or the error it raised. */
  datatype NextOutcome = NextOutcome(returned: Result<Option<Token>, LexError>, after: Lookahead)

  /**
   * `next()`: resumes the generator, stores what it gave as the new lookahead and returns
   * the old one. An error leaves the lookahead as it was and the generator finished.
   */
  function Next(cps: seq<Codepoint>, l: Lookahead): (o: NextOutcome)
    requires Ready(cps, l.gen.state)
  {
    match Pull(cps, l.gen)
    case Err(e) => NextOutcome(Err(e), Lookahead(l.gen.(exhausted := true), l.token))
    case Ok(p) => NextOutcome(Ok(l.token), Lookahead(p.gen, p.token))
  }

  /** A fresh lexer: the generator at the initial state, then the priming `next()`. */
  function Opened(cps: seq<Codepoint>): (o: NextOutcome)
  {
    Next(cps, Lookahead(Gen(Initial, false), None))
  }

  /** The tokens of successive `next(self.tokenizer)` calls until the generator finishes. */
  function Stream(cps: seq<Codepoint>, g: Gen): (r: Result<seq<Token>, LexError>)
    requires Ready(cps, g.state)
    decreases if g.exhausted then 0 else |cps| - g.state.end + 1
  {
    if g.exhausted then Ok([])
    else
      PullProgress(cps, g);
      match Pull(cps, g)
      case Err(e) => Err(e)
      case Ok(p) =>
        if p.token.None? then Ok([])
        else match Stream(cps, p.gen)
          case Err(e) => Err(e)
          case Ok(rest) => Ok([p.token.value] + rest)
  }

  /**
   * A resumption of a running generator yields a token and leaves a valid state that is
   * exhausted or has moved `end` forward.
   */
  lemma {:induction false} PullProgress(cps: seq<Codepoint>, g: Gen)
    requires Ready(cps, g.state) && !g.exhausted
    ensures var r := Pull(cps, g);
      r.Ok? ==>
        r.value.token.Some? && Ready(cps, r.value.gen.state) &&
        (r.value.gen.exhausted || r.value.gen.state.end > g.state.end)
    decreases |cps| - g.state.end
  {
    if At(cps, g.state.end) != 0 {
      StepKeepsValid(cps, g.state);
      var st := Step(cps, g.state);
      if st.Ok? && st.value.token.None? {
        PullProgress(cps, Gen(st.value.state, false));
      }
    }
  }
}
