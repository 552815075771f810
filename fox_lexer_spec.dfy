/**
 * The indentation-sensitive lexer of the source language, as pure functions over an
 * explicit lexer state. Each function describes what one lexer method does to the state
 * (the `start`/`end`/`column` markers and the two stacks) and which items it hands to the
 * consumer of the token stream; the `FoxLexer.Lexer` class is proved to behave exactly so.
 */
module FoxLexerSpec {
  import opened Wrappers
  import opened FoxTokentype

  /**
   * A token as built by the lexer. The token class itself lives outside this model, so a
   * call of its `reclassify` method is recorded, in call order, in `reclassified` rather
   * than being given a meaning.
   */
  datatype Token = Token(kind: Tokentype, literal: string, start: int, end: int,
                         line: int, column: int, reclassified: seq<Tokentype>)

  /** The kinds of syntax error the lexer raises. */
  datatype LexError =
    | UnrecognizedCharacter
    | InconsistentDedent
    | MismatchedParenthetical
    | DanglingBackslash
    | LeadingTab

  /** The lexer's mutable fields. */
  datatype State = State(start: nat, end: nat, line: int, column: int,
                         indentation: seq<int>, parentheses: seq<char>)

  /**
   * What a step leaves behind: the new state and the items it yields in order.
   * `None` is the bare `yield` of the comment scanner.
   */
  datatype Progress = Progress(state: State, yielded: seq<Option<Token>>)

  /** The handler bound to a key of the prefix map. */
  datatype Handler =
    | QuoteHandler(quote: char, fPrefix: bool, rPrefix: bool)
    | OperatorHandler
    | ParentheticalHandler(open: char, closing: bool)
    | IdentifierHandler
    | NumericHandler(base: Tokentype)
    | CommentHandler
    | ConsumeHandler
    | NewlineHandler
    | BackslashHandler

  /** The state a fresh lexer starts in. */
  const Initial: State := State(0, 0, 1, 1, [0], ['|'])

  function Min(a: int, b: int): int { if a <= b then a else b }

  function Last<T>(s: seq<T>): T
    requires |s| > 0
  {
    s[|s| - 1]
  }

  function DropLast<T>(s: seq<T>): seq<T>
    requires |s| > 0
  {
    s[..|s| - 1]
  }

  predicate StrictlyIncreasing(s: seq<int>)
  {
    forall i, j :: 0 <= i < j < |s| ==> s[i] < s[j]
  }

  /** The indentation stack: base width 0, widths strictly increasing towards the top. */
  predicate IndentationStack(ind: seq<int>)
  {
    |ind| > 0 && ind[0] == 0 && StrictlyIncreasing(ind)
  }

  /** The bracket stack: base marker `'|'`, then the currently open brackets. */
  predicate BracketStack(p: seq<char>)
  {
    |p| > 0 && p[0] == '|' && forall k :: 1 <= k < |p| ==> p[k] in "([{"
  }

  /**
   * The invariant of the lexer between steps: `start` never passes `end`, the column is
   * always one more than `end`, the line stays 1, and both stacks are well formed.
   */
  predicate Valid(s: State)
  {
    s.start <= s.end && s.column == s.end + 1 && s.line == 1 &&
    IndentationStack(s.indentation) && BracketStack(s.parentheses)
  }

  // ---------------------------------------------------------------------------------------
  // Markers and tokens
  // ---------------------------------------------------------------------------------------

  /** `src[i:j]` with Python's clamping: out-of-range bounds give a shorter or empty slice. */
  function Slice(src: string, i: nat, j: nat): (r: string)
    ensures |r| == if Min(j, |src|) > i then Min(j, |src|) - i else 0
    ensures forall k :: 0 <= k < |r| ==> r[k] == src[i + k]
  {
    if i < Min(j, |src|) then src[i..Min(j, |src|)] else []
  }

  /** The first `n` characters of `s`, or all of it when it is shorter. */
  function Take(s: string, n: nat): (r: string)
    ensures |r| == Min(n, |s|) && r == s[..|r|]
  {
    if n < |s| then s[..n] else s
  }

  /** The character `d` places past `end`, or the empty string past the end of input. */
  function Observe(src: string, s: State, d: nat): (r: string)
    ensures |r| <= 1
    ensures |r| == 1 <==> s.end + d < |src|
    ensures |r| == 1 ==> r[0] == src[s.end + d]
  {
    if s.end + d < |src| then [src[s.end + d]] else ""
  }

  /** Moves `end` and `column` forward together, without any clamp. */
  function Advance(s: State, d: nat): (r: State)
    ensures r.end == s.end + d && r.column == s.column + d
    ensures r == s.(end := r.end, column := r.column)
  {
    s.(end := s.end + d, column := s.column + d)
  }

  /** Drops the text seen since the last token: `start := end`. */
  function Consume(s: State): (r: State)
    ensures r.start == s.end && r == s.(start := s.end)
  {
    s.(start := s.end)
  }

  /** The token `token(type)` builds: the text since `start`, its start before the reset. */
  function TokenAt(src: string, s: State, kind: Tokentype): (t: Token)
    ensures t.kind == kind && t.literal == Slice(src, s.start, s.end)
    ensures t.start == s.start && t.end == s.end && t.reclassified == []
    ensures t.line == s.line && t.column == s.column
  {
    Token(kind, Slice(src, s.start, s.end), s.start, s.end, s.line, s.column, [])
  }

  /** Records a call of `token.reclassify(flag)`. */
  function Reclassify(t: Token, flag: Tokentype): (r: Token)
    ensures r.reclassified == t.reclassified + [flag]
    ensures r == t.(reclassified := r.reclassified)
  {
    t.(reclassified := t.reclassified + [flag])
  }

  /** Emits `token(type)` and resets `start`. */
  function Emit(src: string, s: State, kind: Tokentype): (p: Progress)
    ensures p.state == Consume(s) && p.yielded == [Some(TokenAt(src, s, kind))]
  {
    Progress(Consume(s), [Some(TokenAt(src, s, kind))])
  }

  // ---------------------------------------------------------------------------------------
  // Character classes
  // ---------------------------------------------------------------------------------------

  predicate IsDigit(c: char) { '0' <= c <= '9' }
  predicate IsLetter(c: char) { 'A' <= c <= 'Z' || 'a' <= c <= 'z' }
  predicate IsAlphanumeric(c: char) { IsDigit(c) || IsLetter(c) }

  /** The punctuation allowed in a comment besides letters and digits. */
  const CommentPunctuation: string := "`~!@#$%^&*()-_+=|[]{}:;\"'<>,.?/ \t"

  predicate IsCommentCharacter(c: char) { IsAlphanumeric(c) || c in CommentPunctuation }

  /** A run of characters the lexer skips with one while loop. */
  datatype CharacterRun = Spaces | IdentifierCharacters | DecimalDigits | AlphanumericDigits

  predicate InRun(c: char, run: CharacterRun)
  {
    match run
    case Spaces => c == ' '
    case IdentifierCharacters => IsAlphanumeric(c) || c == '_'
    case DecimalDigits => IsDigit(c)
    case AlphanumericDigits => IsAlphanumeric(c)
  }

  /** The end of the longest run of `run` characters starting at `i`. */
  function SkipRun(src: string, i: nat, run: CharacterRun): (r: nat)
    ensures i <= r && (i < |src| ==> r <= |src|) && (i >= |src| ==> r == i)
    ensures forall k :: i <= k < r ==> InRun(src[k], run)
    ensures r < |src| ==> !InRun(src[r], run)
    decreases |src| - i
  {
    if i < |src| && InRun(src[i], run) then SkipRun(src, i + 1, run) else i
  }

  /** Advances over the run of `run` characters at `end`. */
  function SkipAt(src: string, s: State, run: CharacterRun): (r: State)
    ensures r == Advance(s, SkipRun(src, s.end, run) - s.end)
  {
    Advance(s, SkipRun(src, s.end, run) - s.end)
  }

  // ---------------------------------------------------------------------------------------
  // Handlers
  // ---------------------------------------------------------------------------------------

  /**
   * Where the comment scan stops (at `'\n'`, `'\r'` or the end of input), or the error for
   * the first character it does not accept.
   */
  function CommentEnd(src: string, i: nat): (r: Result<nat, LexError>)
    ensures r.Ok? ==> i <= r.value && (i < |src| ==> r.value <= |src|) && (i >= |src| ==> r.value == i)
    ensures r.Ok? ==> forall k :: i <= k < r.value ==> IsCommentCharacter(src[k])
    ensures r.Ok? && r.value < |src| ==> src[r.value] in "\n\r"
    ensures r.Err? ==> r.error == UnrecognizedCharacter
    decreases |src| - i
  {
    if i < |src| && src[i] != '\n' && src[i] != '\r' then
      if IsCommentCharacter(src[i]) then CommentEnd(src, i + 1) else Err(UnrecognizedCharacter)
    else Ok(i)
  }

  /**
   * `comment()`: scans to the end of the line, then yields the bare `None`. The COMMENT
   * token is never built, so `start` keeps pointing at the text before the comment.
   */
  function Comment(src: string, s: State): (r: Result<Progress, LexError>)
    requires Valid(s)
    ensures r.Ok? ==> Valid(r.value.state) && r.value.state.end >= s.end
    ensures r.Ok? ==> r.value.yielded == [None] && r.value.state.start == s.start
  {
    match CommentEnd(src, s.end)
    case Err(e) => Err(e)
    case Ok(e) => Ok(Progress(Advance(s, e - s.end), [None]))
  }

  /** Pops every width above `w`, emitting one DEDENT per popped level. */
  function Dedents(src: string, s: State, w: int): (p: Progress)
    requires Valid(s) && (w < Last(s.indentation) ==> w in s.indentation)
    ensures Valid(p.state) && p.state.end == s.end
    decreases |s.indentation|
  {
    if w < Last(s.indentation) then
      var popped := s.(indentation := DropLast(s.indentation));
      assert s.indentation == popped.indentation + [Last(s.indentation)];
      assert w in popped.indentation;
      var p := Dedents(src, Consume(popped), w);
      Progress(p.state, [Some(TokenAt(src, popped, DEDENT))] + p.yielded)
    else
      Progress(s, [])
  }

  /** Puts the items yielded earlier in front of a later progress. */
  function Behind(earlier: seq<Option<Token>>, p: Progress): (r: Progress)
    ensures r.state == p.state && |r.yielded| == |earlier| + |p.yielded|
  {
    Progress(p.state, earlier + p.yielded)
  }

  lemma BehindTwice(a: seq<Option<Token>>, b: seq<Option<Token>>, p: Progress)
    ensures Behind(a, Behind(b, p)) == Behind(a + b, p)
  {
    assert a + (b + p.yielded) == (a + b) + p.yielded;
  }

  /** One pop of the dedent loop: a DEDENT token, then the loop from the popped state. */
  lemma DedentsStep(src: string, s: State, w: int)
    requires Valid(s) && w < Last(s.indentation) && w in s.indentation
    ensures var popped := s.(indentation := DropLast(s.indentation));
      Valid(Consume(popped)) && w in popped.indentation &&
      Dedents(src, s, w) == Behind([Some(TokenAt(src, popped, DEDENT))], Dedents(src, Consume(popped), w))
  {
    var popped := s.(indentation := DropLast(s.indentation));
    assert s.indentation == popped.indentation + [Last(s.indentation)];
  }

  /** `indents_and_dedents(w)`: compares the measured width with the indentation stack. */
  function IndentsAndDedents(src: string, s: State, w: nat): (r: Result<Progress, LexError>)
    requires Valid(s)
    ensures r.Ok? ==> Valid(r.value.state) && r.value.state.end == s.end
  {
    var top := Last(s.indentation);
    if w < top && w !in s.indentation then Err(InconsistentDedent)
    else if w > top then
      var pushed := s.(indentation := s.indentation + [w]);
      Ok(Progress(Consume(Consume(pushed)), [Some(TokenAt(src, pushed, INDENT))]))
    else
      var p := Dedents(src, s, w);
      Ok(Progress(Consume(p.state), p.yielded))
  }

  /**
   * `newline()`, entered just past the line break. At bracket depth 0 it builds the
   * NEWLINE token, counts the leading spaces of the next line and decides from the
   * character after them; inside brackets it does nothing at all.
   */
  function Newline(src: string, s: State): (r: Result<Progress, LexError>)
    requires Valid(s)
    ensures r.Ok? ==> Valid(r.value.state) && r.value.state.end >= s.end
  {
    if |s.parentheses| != 1 then Ok(Progress(s, []))
    else
      var token := TokenAt(src, s, NEWLINE);
      var marked := Consume(s);
      var spaced := SkipAt(src, marked, Spaces);
      var width := spaced.end - marked.end;
      var next := Observe(src, spaced, 0);
      if next == "\n" || next == "\r" then Ok(Progress(Consume(spaced), []))
      else if next == "#" then Comment(src, spaced)
      else if next == "\t" then Err(LeadingTab)
      else match IndentsAndDedents(src, spaced, width)
        case Err(e) => Err(e)
        case Ok(p) => Ok(Progress(p.state, [Some(token)] + p.yielded))
  }

  /** The reserved words. */
  const Keywords: set<string> := {
    "public", "restricted", "private", "protected", "static", "async",
    "class", "operator", "def", "for", "in", "while", "until", "continue", "break",
    "pass", "finally", "return", "yield", "from", "if", "else", "and", "not", "or",
    "match", "case", "default", "try", "suppress", "catch", "with", "as", "import",
    "await", "broken", "exit", "true", "false", "null"
  }

  /** `or_keyword`: reclassifies an identifier token whose literal is reserved. */
  function OrKeyword(t: Token): (r: Token)
    ensures t.literal in Keywords ==> r == Reclassify(t, KEYWORD)
    ensures t.literal !in Keywords ==> r == t
  {
    if t.literal in Keywords then Reclassify(t, KEYWORD) else t
  }

  /** `identifier_or_keyword()`: the run of identifier characters, then one token. */
  function IdentifierOrKeyword(src: string, s: State): (p: Progress)
    requires Valid(s)
    ensures Valid(p.state) && p.state.end >= s.end
  {
    var scanned := SkipAt(src, s, IdentifierCharacters);
    Progress(Consume(scanned), [Some(OrKeyword(TokenAt(src, scanned, IDENTIFIER)))])
  }

  /** The numeral class and the exponent and imaginary markers of a numeric base. */
  datatype NumericContext = NumericContext(numerals: CharacterRun, epsilon: char, imaginary: char)

  function GetNumericContext(kind: Tokentype): (c: NumericContext)
    ensures kind & (BASE36 | BASE16) != 0 ==>
      c == NumericContext(AlphanumericDigits, '\U{03B5}', '\U{03B9}')
    ensures kind & (BASE36 | BASE16) == 0 ==> c == NumericContext(DecimalDigits, 'e', 'i')
  {
    if kind & (BASE36 | BASE16) != 0 then NumericContext(AlphanumericDigits, '\U{03B5}', '\U{03B9}')
    else NumericContext(DecimalDigits, 'e', 'i')
  }

  /** The capital letter whose `lower()` is `c`, for the four marker letters. */
  function MarkerCapital(c: char): char
  {
    if c == 'e' then 'E' else if c == 'i' then 'I'
    else if c == '\U{03B5}' then '\U{0395}' else if c == '\U{03B9}' then '\U{0399}'
    else c
  }

  /** `observed.lower() == marker` for an observation of at most one character. */
  predicate LowersTo(observed: string, marker: char)
  {
    |observed| == 1 && (observed[0] == marker || observed[0] == MarkerCapital(marker))
  }

  /** `kind | flag` when `test` holds, else `kind`. */
  function WithFlag(kind: Tokentype, test: bool, flag: Tokentype): Tokentype
  {
    if test then kind | flag else kind
  }

  /** Advances one character when the observation at `end` satisfies `test`. */
  function AdvanceIf(s: State, test: bool): State
  {
    if test then Advance(s, 1) else s
  }

  /**
   * `numeric(base)`: digits, an optional radix point, an optional imaginary marker, an
   * optional exponent marker, then digits, an optional point and digits once more.
   */
  function Numeric(src: string, s: State, base: Tokentype): (p: Progress)
    requires Valid(s)
    ensures Valid(p.state) && p.state.end >= s.end
  {
    var ctx := GetNumericContext(base);
    var whole := WholePart(src, s, ctx.numerals, base);
    var marked := Markers(src, whole, ctx);
    Emit(src, FractionPart(src, marked.state, ctx.numerals), marked.kind)
  }

  /** A scan position together with the flags gathered so far. */
  datatype Scan = Scan(state: State, kind: Tokentype)

  /** Only `end` and `column` moved, forward and together. */
  predicate Moved(s: State, r: State)
  {
    r == s.(end := r.end, column := r.column) && r.end >= s.end && r.column == s.column + (r.end - s.end)
  }

  /** The digits before the radix point, the point itself if any, and the digits after it. */
  function WholePart(src: string, s: State, numerals: CharacterRun, base: Tokentype): (r: Scan)
    ensures Moved(s, r.state)
  {
    var s1 := SkipAt(src, s, numerals);
    var point := Observe(src, s1, 0) == ".";
    Scan(SkipAt(src, AdvanceIf(s1, point), numerals), base | NUMBER | (if point then FLOAT else INTEGER))
  }

  /** The optional imaginary marker, then the optional exponent marker. */
  function Markers(src: string, sc: Scan, ctx: NumericContext): (r: Scan)
    ensures Moved(sc.state, r.state)
  {
    var imaginary := LowersTo(Observe(src, sc.state, 0), ctx.imaginary);
    var s3 := AdvanceIf(sc.state, imaginary);
    var exponent := LowersTo(Observe(src, s3, 0), ctx.epsilon);
    Scan(AdvanceIf(s3, exponent), WithFlag(WithFlag(sc.kind, imaginary, COMPLEX), exponent, EPSILON))
  }

  /** The digits, optional point and digits that may follow the markers. */
  function FractionPart(src: string, s: State, numerals: CharacterRun): (r: State)
    ensures Moved(s, r)
  {
    var s4 := SkipAt(src, s, numerals);
    SkipAt(src, AdvanceIf(s4, Observe(src, s4, 0) == "."), numerals)
  }

  /** The quote flag of a quote character. */
  function QuoteFlag(q: char): Tokentype
  {
    if q == '"' then DOUBLE_QUOTE else SINGLE_QUOTE
  }

  /**
   * `double_quote()` / `single_quote()` wrapped in `rstring` then `fstring` as the prefix
   * map's entry asks: two more quotes make a triple quote.
   */
  function Quote(src: string, s: State, q: char, fPrefix: bool, rPrefix: bool): (p: Progress)
    requires Valid(s)
    ensures Valid(p.state) && p.state.end >= s.end
  {
    var triple := Slice(src, s.end, s.end + 2) == [q, q];
    var at := if triple then Advance(s, 2) else s;
    var t0 := TokenAt(src, at, if triple then QuoteFlag(q) | TRIPLE_QUOTE else QuoteFlag(q));
    var t1 := if rPrefix then Reclassify(t0, R_STRING) else t0;
    var t2 := if fPrefix then Reclassify(t1, F_STRING) else t1;
    Progress(Consume(at), [Some(t2)])
  }

  /** `parenthetical(open, close)`: pushes an opener, or pops and checks for a closer. */
  function Parenthetical(src: string, s: State, open: char, closing: bool): (r: Result<Progress, LexError>)
    requires Valid(s) && open in "([{"
    ensures r.Ok? ==> Valid(r.value.state) && r.value.state.end == s.end
  {
    if closing then
      if Last(s.parentheses) != open then Err(MismatchedParenthetical)
      else Ok(Emit(src, s.(parentheses := DropLast(s.parentheses)), OPERATOR))
    else Ok(Emit(src, s.(parentheses := s.parentheses + [open]), OPERATOR))
  }

  /**
   * The DEDENT tokens of `eof()`: one `indentation.pop()`, then the rest as
   * `DedentsAfterPop` says.
   */
  function EofDedents(src: string, s: State): (p: Progress)
    requires 0 in s.indentation
    ensures p.state.end == s.end && p.state.column == s.column && p.state.line == s.line
    ensures p.state.parentheses == s.parentheses
    decreases |s.indentation|, 0
  {
    var popped := s.(indentation := DropLast(s.indentation));
    assert s.indentation == popped.indentation + [Last(s.indentation)];
    DedentsAfterPop(src, popped, Last(s.indentation))
  }

  /** After popping `top`: a nonzero width yields a DEDENT and pops again; 0 ends the loop. */
  function DedentsAfterPop(src: string, popped: State, top: int): (p: Progress)
    requires top != 0 ==> 0 in popped.indentation
    ensures p.state.end == popped.end && p.state.column == popped.column
    ensures p.state.line == popped.line && p.state.parentheses == popped.parentheses
    decreases |popped.indentation|, 1
  {
    if top != 0 then
      var p := EofDedents(src, Consume(popped));
      Progress(p.state, [Some(TokenAt(src, popped, DEDENT))] + p.yielded)
    else Progress(popped, [])
  }

  /** `eof()`: the closing DEDENT tokens, then the EOF token. */
  function Eof(src: string, s: State): (p: Progress)
    requires 0 in s.indentation
  {
    var d := EofDedents(src, s);
    Progress(Consume(d.state), d.yielded + [Some(TokenAt(src, d.state, EOF))])
  }

  // ---------------------------------------------------------------------------------------
  // Prefix map and dispatch
  // ---------------------------------------------------------------------------------------

  /**
   * The eight spellings that combine the `r` and `f` string prefixes: one `f`/`F` and one
   * `r`/`R`, in either order.
   */
  predicate RfPrefix(a: char, b: char)
  {
    a in "fFrR" && b in "fFrR" && (a in "fF") != (b in "fF")
  }

  predicate IsQuote(c: char) { c == '"' || c == '\'' }

  /** The three-character operators `::=`, `...`, `>>=` and `<<=`. */
  predicate ThreeCharacterOperator(a: char, b: char, c: char)
  {
    (a == ':' && b == ':' && c == '=') || (a == '.' && b == '.' && c == '.') ||
    (a == '>' && b == '>' && c == '=') || (a == '<' && b == '<' && c == '=')
  }

  // The two-character operators: an `=` after one of the characters listed first below,
  // a doubled character of the second list, and the two arrows `=>` and `->`.
  predicate TwoCharacterOperator(a: char, b: char)
  {
    (b == '=' && a in "=+-*/<>^&|:!") || (a == b && a in "+-*<>:") ||
    (a == '=' && b == '>') || (a == '-' && b == '>')
  }

  /** The one-character operators. */
  const Operators1: string := "=+-*/<>~^&|@%:;,."

  /** The opener that a closing bracket must match. */
  function OpenerOf(close: char): char
  {
    if close == ')' then '(' else if close == ']' then '[' else '{'
  }

  /** The entries of the prefix map whose key is three characters. */
  function ThreeCharacterHandler(a: char, b: char, c: char): Option<Handler>
  {
    if RfPrefix(a, b) && IsQuote(c) then Some(QuoteHandler(c, true, true))
    else if ThreeCharacterOperator(a, b, c) then Some(OperatorHandler)
    else if a == '\\' && b == '\r' && c == '\n' then Some(ConsumeHandler)
    else None
  }

  /** The entries of the prefix map whose key is two characters. */
  function TwoCharacterHandler(a: char, b: char): Option<Handler>
  {
    if a in "fF" && IsQuote(b) then Some(QuoteHandler(b, true, false))
    else if a in "rR" && IsQuote(b) then Some(QuoteHandler(b, false, true))
    else if TwoCharacterOperator(a, b) then Some(OperatorHandler)
    else if a == '0' && (b == '\U{0394}' || b == '\U{03B4}') then Some(NumericHandler(BASE36))
    else if a == '0' && b in "Xx" then Some(NumericHandler(BASE16))
    else if a == '0' && b in "Oo" then Some(NumericHandler(BASE08))
    else if a == '0' && b in "Bb" then Some(NumericHandler(BASE02))
    else if a == '.' && IsDigit(b) then Some(NumericHandler(BASE10))
    else if a == '\\' && b == '\n' then Some(ConsumeHandler)
    else if a == '\r' && b == '\n' then Some(NewlineHandler)
    else None
  }

  /** The entries of the prefix map whose key is one character. */
  function SingleCharacterHandler(c: char): Option<Handler>
  {
    if IsQuote(c) then Some(QuoteHandler(c, false, false))
    else if c in Operators1 then Some(OperatorHandler)
    else if c in "([{" then Some(ParentheticalHandler(c, false))
    else if c in ")]}" then Some(ParentheticalHandler(OpenerOf(c), true))
    else if IsLetter(c) || c == '_' then Some(IdentifierHandler)
    else if IsDigit(c) then Some(NumericHandler(BASE10))
    else if c == '#' then Some(CommentHandler)
    else if c == ' ' || c == '\t' then Some(ConsumeHandler)
    else if c == '\n' then Some(NewlineHandler)
    else if c == '\\' then Some(BackslashHandler)
    else None
  }

  /** The prefix map: the handler bound to a key, or `None` for a key it lacks. */
  function PrefixMap(key: string): Option<Handler>
  {
    if |key| == 3 then ThreeCharacterHandler(key[0], key[1], key[2])
    else if |key| == 2 then TwoCharacterHandler(key[0], key[1])
    else if |key| == 1 then SingleCharacterHandler(key[0])
    else None
  }

  /** Runs the handler a key selected, after the markers were advanced past the key. */
  function Handle(h: Handler, src: string, s: State): (r: Result<Progress, LexError>)
    requires Valid(s)
    requires h.ParentheticalHandler? ==> h.open in "([{"
    ensures r.Ok? ==> Valid(r.value.state) && r.value.state.end >= s.end
  {
    match h
    case QuoteHandler(q, f, rp) => Ok(Quote(src, s, q, f, rp))
    case OperatorHandler => Ok(Emit(src, s, OPERATOR))
    case ParentheticalHandler(open, closing) => Parenthetical(src, s, open, closing)
    case IdentifierHandler => Ok(IdentifierOrKeyword(src, s))
    case NumericHandler(base) => Ok(Numeric(src, s, base))
    case CommentHandler => Comment(src, s)
    case ConsumeHandler => Ok(Progress(Consume(s), []))
    case NewlineHandler => Newline(src, s)
    case BackslashHandler => Err(DanglingBackslash)
  }

  /** Every parenthetical entry of the map names an opening bracket. */
  lemma PrefixMapOpeners(key: string)
    ensures PrefixMap(key).Some? && PrefixMap(key).value.ParentheticalHandler? ==>
      PrefixMap(key).value.open in "([{"
  {
  }

  /**
   * One iteration of `lex()`: probe the map with the first three, two, then one
   * characters at `start`, advance `end` by the probed length and run the handler found.
   */
  function Dispatch(src: string, s: State): (r: Result<Progress, LexError>)
    requires Valid(s) && s.end < |src|
    ensures r.Ok? ==> Valid(r.value.state) && r.value.state.end > s.end
  {
    var prefix := Slice(src, s.start, s.start + 3);
    var k3, k2, k1 := Take(prefix, 3), Take(prefix, 2), Take(prefix, 1);
    if PrefixMap(k3).Some? then
      PrefixMapOpeners(k3);
      Handle(PrefixMap(k3).value, src, Advance(s, 3))
    else if PrefixMap(k2).Some? then
      PrefixMapOpeners(k2);
      Handle(PrefixMap(k2).value, src, Advance(s, 2))
    else if PrefixMap(k1).Some? then
      PrefixMapOpeners(k1);
      Handle(PrefixMap(k1).value, src, Advance(s, 1))
    else Err(UnrecognizedCharacter)
  }

  /** How a method's outcome reports the outcome its specification function gives. */
  predicate Reports(r: Result<seq<Option<Token>>, LexError>, s: State, spec: Result<Progress, LexError>)
  {
    match spec
    case Ok(p) => r == Ok(p.yielded) && s == p.state
    case Err(e) => r == Err(e)
  }

  /** Puts the items yielded earlier in front of a later outcome. */
  function Prepend(earlier: seq<Option<Token>>, r: Result<Progress, LexError>): Result<Progress, LexError>
  {
    match r
    case Err(e) => Err(e)
    case Ok(p) => Ok(Progress(p.state, earlier + p.yielded))
  }

  lemma PrependNothing(r: Result<Progress, LexError>)
    ensures Prepend([], r) == r
  {
    if r.Ok? {
      assert [] + r.value.yielded == r.value.yielded;
    }
  }

  lemma PrependTwice(a: seq<Option<Token>>, b: seq<Option<Token>>, r: Result<Progress, LexError>)
    ensures Prepend(a, Prepend(b, r)) == Prepend(a + b, r)
  {
    if r.Ok? {
      assert a + (b + r.value.yielded) == (a + b) + r.value.yielded;
    }
  }

  /** `lex()` from a given state: iterations until `end` reaches the input length, then `eof()`. */
  function Run(src: string, s: State): (r: Result<Progress, LexError>)
    requires Valid(s)
    decreases |src| - s.end
  {
    if s.end < |src| then
      match Dispatch(src, s)
      case Err(e) => Err(e)
      case Ok(p) => Prepend(p.yielded, Run(src, p.state))
    else Ok(Eof(src, s))
  }

}
