/**
 * What the codepoint lexer of the grammar language guarantees, stated over the functions of
 * `CodepointLexerSpec`: which key wins, what each kind of codepoint produces or raises, the
 * bracket discipline, the literal every token carries, and the token stream `peek`/`next`
 * walk, which the 0 sentinel ends with one EOF token.
 */
module CodepointLexerProperties {
  import opened Wrappers
  import opened GrammarTokentype
  import opened CodepointLexerSpec
  import G = GrammarLexerProperties

  // ---------------------------------------------------------------------------------------
  // The prefix map
  // ---------------------------------------------------------------------------------------

  /**
   * The two-codepoint keys are exactly `**`, `++`, `:=` and newline followed by carriage
   * return, all operators.
   */
  lemma DoubleKeys(b: Codepoint, a: Codepoint)
    ensures DoubleHandler(b, a).Some? <==>
      (b == Star && a == Star) || (b == Plus && a == Plus) || (b == Colon && a == Equals) ||
      (b == Newline && a == CarriageReturn)
    ensures DoubleHandler(b, a).Some? ==>
      DoubleHandler(b, a).value.OperatorHandler? && DoubleHandler(b, a).value.kind in {STAR_STAR, PLUS_PLUS, WALRUS, EOL}
  {
  }

  /** An iteration at a two-codepoint key: both codepoints join the literal, then its handler. */
  lemma StepAtDoubleKey(cps: seq<Codepoint>, s: State)
    requires Ready(cps, s) && At(cps, s.end) != 0 && DoubleHandler(At(cps, s.end), At(cps, s.end + 1)).Some?
    ensures Step(cps, s) == Handle(DoubleHandler(At(cps, s.end), At(cps, s.end + 1)).value, cps,
      s.(end := s.end + 2, literal := [At(cps, s.end), At(cps, s.end + 1)]))
  {
    assert s.literal == [];
    assert PrefixMap([At(cps, s.end), At(cps, s.end + 1)]) == DoubleHandler(At(cps, s.end), At(cps, s.end + 1));
    assert Advance(cps, Advance(cps, s)) == s.(end := s.end + 2, literal := [At(cps, s.end), At(cps, s.end + 1)]);
  }

  /** An iteration at a one-codepoint key that does not begin a two-codepoint key. */
  lemma StepAtSingleKey(cps: seq<Codepoint>, s: State)
    requires Ready(cps, s) && At(cps, s.end) != 0 && SingleHandler(At(cps, s.end)).Some?
    requires DoubleHandler(At(cps, s.end), At(cps, s.end + 1)).None?
    ensures Step(cps, s) == Handle(SingleHandler(At(cps, s.end)).value, cps,
      s.(end := s.end + 1, literal := [At(cps, s.end)]))
  {
    assert s.literal == [];
    assert PrefixMap([At(cps, s.end), At(cps, s.end + 1)]) == DoubleHandler(At(cps, s.end), At(cps, s.end + 1));
    assert PrefixMap([At(cps, s.end)]) == SingleHandler(At(cps, s.end));
    assert Advance(cps, s) == s.(end := s.end + 1, literal := [At(cps, s.end)]);
  }

  /** A nonzero codepoint with no entry that does not begin a two-codepoint key raises. */
  lemma UnrecognizedCodepointRaises(cps: seq<Codepoint>, s: State)
    requires Ready(cps, s) && At(cps, s.end) != 0 && SingleHandler(At(cps, s.end)).None?
    requires DoubleHandler(At(cps, s.end), At(cps, s.end + 1)).None?
    ensures Step(cps, s) == Err(UnrecognizedCharacter)
  {
  }

  /** `**`, `++` and `:=` are one token each, never two one-codepoint tokens. */
  lemma TwoCodepointOperators(cps: seq<Codepoint>, s: State)
    requires Ready(cps, s) && At(cps, s.end) != 0
    requires (At(cps, s.end) == Star && At(cps, s.end + 1) == Star) ||
      (At(cps, s.end) == Plus && At(cps, s.end + 1) == Plus) ||
      (At(cps, s.end) == Colon && At(cps, s.end + 1) == Equals)
    ensures var kind := DoubleHandler(At(cps, s.end), At(cps, s.end + 1)).value.kind;
      kind in {STAR_STAR, PLUS_PLUS, WALRUS} &&
      Step(cps, s) == Ok(Progress(s.(start := s.end + 2, end := s.end + 2),
        Some(Token(kind, [At(cps, s.end), At(cps, s.end + 1)], s.end + 2, s.end + 2, s.line, s.column))))
  {
    DoubleKeys(At(cps, s.end), At(cps, s.end + 1));
    StepAtDoubleKey(cps, s);
  }

  /** A colon not followed by `=` has no entry and raises. */
  lemma LoneColonRaises(cps: seq<Codepoint>, s: State)
    requires Ready(cps, s) && At(cps, s.end) == Colon && At(cps, s.end + 1) != Equals
    ensures Step(cps, s) == Err(UnrecognizedCharacter)
  {
    UnrecognizedCodepointRaises(cps, s);
  }

  /** The erroneous entries fail on the missing `source` attribute. */
  lemma ErroneousCodepointFails(cps: seq<Codepoint>, s: State)
    requires Ready(cps, s) && IsErroneous(At(cps, s.end))
    ensures Step(cps, s) == Err(MissingSource)
  {
    StepAtSingleKey(cps, s);
  }

  /** `~`, `\` and the backtick have no entry, so they raise the unrecognized-character error. */
  lemma UnmappedPunctuationRaises(cps: seq<Codepoint>, s: State)
    requires Ready(cps, s) && At(cps, s.end) in {0x7E, 0x5C, 0x60}
    ensures Step(cps, s) == Err(UnrecognizedCharacter)
  {
    UnrecognizedCodepointRaises(cps, s);
  }

  // ---------------------------------------------------------------------------------------
  // Line breaks, identifiers, numbers
  // ---------------------------------------------------------------------------------------

  /**
   * A newline is one EOL token; so is a newline followed by a carriage return, which the
   * token covers as well.
   */
  lemma NewlineIsEol(cps: seq<Codepoint>, s: State)
    requires Ready(cps, s) && At(cps, s.end) == Newline
    ensures var n := if At(cps, s.end + 1) == CarriageReturn then 2 else 1;
      Step(cps, s) == Ok(Progress(s.(start := s.end + n, end := s.end + n),
        Some(Token(EOL, Span(cps, s.end, s.end + n), s.end + n, s.end + n, s.line, s.column))))
  {
    if At(cps, s.end + 1) == CarriageReturn {
      StepAtDoubleKey(cps, s);
    } else {
      StepAtSingleKey(cps, s);
    }
  }

  /**
   * A carriage return at the current position raises, whatever follows it: a file with
   * carriage-return-newline line breaks fails at its first line break.
   */
  lemma CarriageReturnRaises(cps: seq<Codepoint>, s: State)
    requires Ready(cps, s) && At(cps, s.end) == CarriageReturn
    ensures Step(cps, s) == Err(UnrecognizedCharacter)
  {
    UnrecognizedCodepointRaises(cps, s);
  }

  /**
   * A letter or an underscore begins an IDENTIFIER token over the longest run of letters
   * and underscores that follows it; a digit ends the run.
   */
  lemma IdentifierRun(cps: seq<Codepoint>, s: State)
    requires Ready(cps, s) && IsIdentifierPart(At(cps, s.end))
    ensures Step(cps, s).Ok? && Step(cps, s).value.token.Some?
    ensures var t := Step(cps, s).value.token.value;
      t.kind == IDENTIFIER && t.literal == Span(cps, s.end, t.end) && s.end < t.end <= |cps| &&
      (forall k :: s.end <= k < t.end ==> IsIdentifierPart(At(cps, k))) &&
      !IsIdentifierPart(At(cps, t.end)) &&
      Step(cps, s).value.state == s.(start := t.end, end := t.end)
  {
    StepAtIdentifier(cps, s);
    IdentifierAfterKey(cps, s.(end := s.end + 1, literal := [At(cps, s.end)]));
  }

  lemma StepAtIdentifier(cps: seq<Codepoint>, s: State)
    requires Ready(cps, s) && IsIdentifierPart(At(cps, s.end))
    ensures Step(cps, s) == Ok(Identifier(cps, s.(end := s.end + 1, literal := [At(cps, s.end)])))
  {
    assert SingleHandler(At(cps, s.end)) == Some(IdentifierHandler);
    StepAtSingleKey(cps, s);
  }

  /** `identifier()` once the key codepoint at `start` joined the literal. */
  lemma IdentifierAfterKey(cps: seq<Codepoint>, n: State)
    requires n.start + 1 == n.end <= |cps| && n.literal == [At(cps, n.start)] && IsIdentifierPart(At(cps, n.start))
    ensures var p := Identifier(cps, n); var t := p.token.value;
      p.token.Some? &&
      t.kind == IDENTIFIER && t.literal == Span(cps, n.start, t.end) && n.start < t.end <= |cps| &&
      (forall k :: n.start <= k < t.end ==> IsIdentifierPart(At(cps, k))) &&
      !IsIdentifierPart(At(cps, t.end)) &&
      p.state == n.(start := t.end, end := t.end, literal := [])
  {
    var j := IdentifierEnd(cps, n.end);
    var m := Scan(cps, n, j);
    assert n.literal == Span(cps, n.start, n.end);
    ScanKeepsLiteral(cps, n, j);
    assert Identifier(cps, n) == Emit(m, IDENTIFIER);
    assert Emit(m, IDENTIFIER).state == n.(start := j, end := j, literal := []);
    forall k | n.start <= k < j
      ensures IsIdentifierPart(At(cps, k))
    {
      if k > n.start {
        assert n.end <= k;
      }
    }
  }

  /** A digit is a NUMBER token of its own, even when more digits follow. */
  lemma NumberIsOneDigit(cps: seq<Codepoint>, s: State)
    requires Ready(cps, s) && IsDigit(At(cps, s.end))
    ensures Step(cps, s) == Ok(Progress(s.(start := s.end + 1, end := s.end + 1),
      Some(Token(NUMBER, [At(cps, s.end)], s.end + 1, s.end + 1, s.line, s.column))))
  {
    StepAtSingleKey(cps, s);
  }

  // ---------------------------------------------------------------------------------------
  // Strings and comments
  // ---------------------------------------------------------------------------------------

  /** `j` holds the first `quote` from `i` on, and no 0 comes before it. */
  predicate ClosingQuote(cps: seq<Codepoint>, i: nat, quote: Codepoint, j: nat)
  {
    i <= j < |cps| && quote != 0 && cps[j] == quote &&
    forall k :: i <= k < j ==> cps[k] != 0 && cps[k] != quote
  }

  /** The string that begins at `end` closes at `j`. */
  predicate StringCloses(cps: seq<Codepoint>, s: State, j: nat)
  {
    s.end < |cps| && ClosingQuote(cps, s.end + 1, cps[s.end], j)
  }

  /** The scan of a string body stops at a closing quote exactly when there is one. */
  lemma {:induction false} StringEndFindsClosingQuote(cps: seq<Codepoint>, i: nat, quote: Codepoint, j: nat)
    requires i <= |cps| && quote != 0
    ensures StringEnd(cps, i, quote) == j && At(cps, j) == quote <==> ClosingQuote(cps, i, quote, j)
    decreases |cps| - i
  {
    if ClosingQuote(cps, i, quote, j) && i < j {
      assert ClosingQuote(cps, i + 1, quote, j);
      StringEndFindsClosingQuote(cps, i + 1, quote, j);
    } else if At(cps, i) != 0 && At(cps, i) != quote {
      StringEndFindsClosingQuote(cps, i + 1, quote, j);
    }
  }

  /**
   * A quote begins a STRING token that runs through the next identical quote, both quotes
   * included; reaching the 0 sentinel first raises the unterminated-literal error.
   */
  lemma QuotedString(cps: seq<Codepoint>, s: State)
    requires Ready(cps, s) && At(cps, s.end) in {Apostrophe, Quotation}
    ensures Step(cps, s).Ok? <==> exists j: nat :: StringCloses(cps, s, j)
    ensures Step(cps, s).Err? ==> Step(cps, s).error == UnterminatedString
    ensures forall j: nat :: StringCloses(cps, s, j) ==>
      Step(cps, s) == Ok(Progress(s.(start := j + 1, end := j + 1),
        Some(Token(STRING, Span(cps, s.end, j + 1), j + 1, j + 1, s.line, s.column))))
  {
    var q := At(cps, s.end);
    assert SingleHandler(q) == Some(StringHandler(q));
    StepAtSingleKey(cps, s);
    var n := s.(end := s.end + 1, literal := [q]);
    assert Step(cps, s) == String(cps, n, q);
    StringAfterKey(cps, n, q);
    forall j: nat | StringCloses(cps, s, j)
      ensures ClosingQuote(cps, n.end, q, j)
    {
    }
    forall j: nat | ClosingQuote(cps, n.end, q, j)
      ensures StringCloses(cps, s, j)
    {
    }
  }

  /** `string(quote)` once the opening quote at `start` joined the literal. */
  lemma StringAfterKey(cps: seq<Codepoint>, n: State, q: Codepoint)
    requires n.start + 1 == n.end <= |cps| && n.literal == [q] && At(cps, n.start) == q && q != 0
    ensures String(cps, n, q).Ok? <==> exists j: nat :: ClosingQuote(cps, n.end, q, j)
    ensures String(cps, n, q).Err? ==> String(cps, n, q).error == UnterminatedString
    ensures forall j: nat :: ClosingQuote(cps, n.end, q, j) ==>
      String(cps, n, q) == Ok(Progress(n.(start := j + 1, end := j + 1, literal := []),
        Some(Token(STRING, Span(cps, n.start, j + 1), j + 1, j + 1, n.line, n.column))))
  {
    var j := StringEnd(cps, n.end, q);
    StringEndFindsClosingQuote(cps, n.end, q, j);
    if At(cps, j) == q {
      StringClosesAt(cps, n, q, j);
    }
    forall j': nat | ClosingQuote(cps, n.end, q, j')
      ensures j' == j
    {
      StringEndFindsClosingQuote(cps, n.end, q, j');
    }
  }

  /** The token of a string that closes at `j`, the end of the body scan. */
  lemma StringClosesAt(cps: seq<Codepoint>, n: State, q: Codepoint, j: nat)
    requires n.start + 1 == n.end <= |cps| && n.literal == [q] && At(cps, n.start) == q && q != 0
    requires j == StringEnd(cps, n.end, q) && At(cps, j) == q
    ensures String(cps, n, q) == Ok(Progress(n.(start := j + 1, end := j + 1, literal := []),
      Some(Token(STRING, Span(cps, n.start, j + 1), j + 1, j + 1, n.line, n.column))))
  {
    assert n.literal == Span(cps, n.start, n.end);
    ScanKeepsLiteral(cps, n, j);
    ScanKeepsLiteral(cps, Scan(cps, n, j), j + 1);
  }

  /** A comment ends exactly when a carriage return or newline is ahead. */
  lemma {:induction false} CommentEndsAtLineBreak(cps: seq<Codepoint>, i: nat)
    requires i <= |cps|
    ensures CommentEnd(cps, i).None? <==> forall k :: i <= k < |cps| ==> !IsLineBreak(cps[k])
    decreases |cps| - i
  {
    if i < |cps| && !IsLineBreak(cps[i]) {
      CommentEndsAtLineBreak(cps, i + 1);
    }
  }

  /**
   * `#` skips to the next carriage return or newline and yields nothing, so the line break
   * is scanned next; with no line break ahead the comment never ends.
   */
  lemma CommentToLineBreak(cps: seq<Codepoint>, s: State)
    requires Ready(cps, s) && At(cps, s.end) == Hash
    ensures Step(cps, s).Err? <==> forall k :: s.end < k < |cps| ==> !IsLineBreak(cps[k])
    ensures Step(cps, s).Err? ==> Step(cps, s).error == EndlessComment
    ensures Step(cps, s).Ok? ==>
      var j := CommentEnd(cps, s.end + 1).value;
      Step(cps, s) == Ok(Progress(s.(start := j, end := j), None)) &&
      IsLineBreak(At(cps, j)) && forall k :: s.end < k < j ==> !IsLineBreak(At(cps, k))
  {
    StepAtSingleKey(cps, s);
    CommentEndsAtLineBreak(cps, s.end + 1);
  }

  // ---------------------------------------------------------------------------------------
  // Brackets
  // ---------------------------------------------------------------------------------------

  /** The opener a closer must match. */
  function OpenerOf(c: Codepoint): Codepoint
  {
    if c == RParen then LParen else if c == RBrack then LBrack else LBrace
  }

  /** The type of a bracket token. */
  function BracketKind(c: Codepoint): Tokentype
  {
    if c == LParen then L_PAREN
    else if c == LBrack then L_BRACK
    else if c == LBrace then L_BRACE
    else if c == RParen then R_PAREN
    else if c == RBrack then R_BRACK
    else R_BRACE
  }

  /** An opener pushes its codepoint onto the bracket stack and yields its token. */
  lemma OpenerPushes(cps: seq<Codepoint>, s: State)
    requires Ready(cps, s) && IsOpener(At(cps, s.end))
    ensures Step(cps, s) == Ok(Progress(
      s.(start := s.end + 1, end := s.end + 1, parentheses := s.parentheses + [At(cps, s.end)]),
      Some(Token(BracketKind(At(cps, s.end)), [At(cps, s.end)], s.end + 1, s.end + 1, s.line, s.column))))
  {
    StepAtSingleKey(cps, s);
  }

  /**
   * A closer succeeds exactly when the top of the bracket stack is its opener; it then
   * pops the stack and yields its token. The bottom entry therefore never pops.
   */
  lemma CloserMatches(cps: seq<Codepoint>, s: State)
    requires Ready(cps, s) && At(cps, s.end) in {RParen, RBrack, RBrace}
    ensures Step(cps, s).Ok? <==> Last(s.parentheses) == OpenerOf(At(cps, s.end))
    ensures Step(cps, s).Err? ==> Step(cps, s).error == MismatchedParenthetical
    ensures Step(cps, s).Ok? ==>
      |s.parentheses| > 1 &&
      Step(cps, s).value == Progress(
        s.(start := s.end + 1, end := s.end + 1, parentheses := DropLast(s.parentheses)),
        Some(Token(BracketKind(At(cps, s.end)), [At(cps, s.end)], s.end + 1, s.end + 1, s.line, s.column)))
  {
    StepAtSingleKey(cps, s);
  }

  /**
   * At the 0 sentinel the running generator yields the EOF token with an empty literal and
   * finishes, whatever brackets are still open.
   */
  lemma SentinelYieldsEof(cps: seq<Codepoint>, g: Gen)
    requires Ready(cps, g.state) && !g.exhausted && At(cps, g.state.end) == 0
    ensures Pull(cps, g) == Ok(Pulled(Some(Token(EOF, [], g.state.end, g.state.end, g.state.line, g.state.column)),
      Gen(g.state, true)))
  {
    assert g.state.literal == [];
  }

  // ---------------------------------------------------------------------------------------
  // Tokens and the stream
  // ---------------------------------------------------------------------------------------

  /**
   * What every token promises: its context has `start == end` at its own end, its literal
   * is the stream's codepoints just before that end, its type is exactly one member (never
   * a category), and its line and column are the lexer's.
   */
  predicate WellFormed(cps: seq<Codepoint>, t: Token, line: int, column: int)
  {
    t.start == t.end <= |cps| && |t.literal| <= t.end && cps[t.end - |t.literal|..t.end] == t.literal &&
    t.kind in G.EmittedKinds && t.line == line && t.column == column
  }

  /** Within the stream, a span is the slice between its ends. */
  lemma {:induction false} SpanIsSlice(cps: seq<Codepoint>, i: nat, j: nat)
    requires i <= j <= |cps|
    ensures Span(cps, i, j) == cps[i..j]
    decreases j
  {
    if i < j {
      SpanIsSlice(cps, i, j - 1);
      assert cps[i..j] == cps[i..j - 1] + [cps[j - 1]];
    }
  }

  /** The types this lexer gives its tokens are single members, not categories. */
  lemma EmittedKindsAreMembers(k: Tokentype)
    requires k in G.EmittedKinds
    ensures ExactlyOneMember(k) && k !in Categories
  {
    G.EmittedKindsAreMembers(k);
  }

  /**
   * `advance()` appends exactly the current codepoint: within the stream the state stays
   * valid and its literal is the slice between the markers; past the end the decoder's 0
   * joins the literal. `start` stays either way.
   */
  lemma AdvanceTakesCurrent(cps: seq<Codepoint>, s: State)
    ensures Advance(cps, s).start == s.start && Advance(cps, s).end == s.end + 1
    ensures Valid(cps, s) && s.end < |cps| ==>
      Valid(cps, Advance(cps, s)) && Advance(cps, s).literal == cps[s.start..s.end + 1]
    ensures s.end >= |cps| ==> Advance(cps, s).literal == s.literal + [0]
  {
    if Valid(cps, s) && s.end < |cps| {
      SpanIsSlice(cps, s.start, s.end + 1);
    }
  }

  /**
   * `consume()`, `ignore()` and every built token close the literal: from a valid state
   * they leave one with nothing pending and an empty literal, `end` stays, and a second
   * `consume()` changes nothing.
   */
  lemma ConsumeStartsEmpty(cps: seq<Codepoint>, s: State, kind: Tokentype)
    ensures Valid(cps, s) ==> Ready(cps, Consume(s)) && Ready(cps, Emit(s, kind).state)
    ensures Consume(s).literal == [] && Consume(s).end == s.end
    ensures Consume(Consume(s)) == Consume(s)
  {
  }

  /** The token `Emit` builds over a state whose literal is the span between its markers. */
  lemma EmitWellFormed(cps: seq<Codepoint>, s: State, kind: Tokentype)
    requires s.start <= s.end <= |cps| && s.literal == Span(cps, s.start, s.end) && kind in G.EmittedKinds
    ensures var p := Emit(s, kind);
      WellFormed(cps, p.token.value, s.line, s.column) && p.token.value.end == p.state.end
  {
    SpanIsSlice(cps, s.start, s.end);
  }

  /** The types the entries of the prefix map give their tokens. */
  predicate KnownKinds(h: Handler)
  {
    (h.OperatorHandler? || h.ParentheticalHandler?) ==> h.kind in G.EmittedKinds && h.kind != EOF
  }

  lemma PrefixMapKinds(key: seq<Codepoint>)
    ensures PrefixMap(key).Some? ==> KnownKinds(PrefixMap(key).value)
  {
  }

  /** A handler yields only well-formed tokens ending where it leaves the markers. */
  lemma HandleTokenWellFormed(h: Handler, cps: seq<Codepoint>, s: State)
    requires Valid(cps, s) && Mapped(h) && KnownKinds(h)
    ensures var r := Handle(h, cps, s);
      r.Ok? ==>
        r.value.state.line == s.line && r.value.state.column == s.column &&
        (r.value.token.Some? ==>
          WellFormed(cps, r.value.token.value, s.line, s.column) && r.value.token.value.end == r.value.state.end &&
          r.value.token.value.kind != EOF)
  {
    match h
    case OperatorHandler(kind) =>
      EmitWellFormed(cps, s, kind);
    case ParentheticalHandler(kind, open, closing) =>
      if closing {
        EmitWellFormed(cps, s.(parentheses := DropLast(s.parentheses)), kind);
      } else {
        EmitWellFormed(cps, s.(parentheses := s.parentheses + [open]), kind);
      }
    case StringHandler(quote) =>
      var j := StringEnd(cps, s.end, quote);
      if At(cps, j) == quote {
        ScanKeepsLiteral(cps, s, j);
        ScanKeepsLiteral(cps, Scan(cps, s, j), j + 1);
        EmitWellFormed(cps, Advance(cps, Scan(cps, s, j)), STRING);
      }
    case IdentifierHandler =>
      ScanKeepsLiteral(cps, s, IdentifierEnd(cps, s.end));
      EmitWellFormed(cps, Scan(cps, s, IdentifierEnd(cps, s.end)), IDENTIFIER);
    case NumberHandler =>
      EmitWellFormed(cps, s, NUMBER);
    case _ =>
  }

  /** An iteration yields only well-formed tokens ending where it leaves the markers. */
  lemma StepTokenWellFormed(cps: seq<Codepoint>, s: State)
    requires Ready(cps, s) && At(cps, s.end) != 0
    ensures var r := Step(cps, s);
      r.Ok? ==>
        r.value.state.line == s.line && r.value.state.column == s.column &&
        (r.value.token.Some? ==>
          WellFormed(cps, r.value.token.value, s.line, s.column) && r.value.token.value.end == r.value.state.end &&
          r.value.token.value.kind != EOF)
  {
    var double := [At(cps, s.end), At(cps, s.end + 1)];
    var single := [At(cps, s.end)];
    if PrefixMap(double).Some? {
      StepTakesDoubleKey(cps, s);
      PrefixMapKinds(double);
      HandleTokenWellFormed(PrefixMap(double).value, cps, Advance(cps, Advance(cps, s)));
    } else if PrefixMap(single).Some? {
      StepTakesSingleKey(cps, s);
      PrefixMapKinds(single);
      HandleTokenWellFormed(PrefixMap(single).value, cps, Advance(cps, s));
    } else {
      StepTakesNoKey(cps, s);
    }
  }

  /**
   * One resumption of a running generator: a well-formed token that ends where the new
   * state's markers are; the generator is finished exactly when that token is the EOF.
   */
  lemma {:induction false} PullTokenWellFormed(cps: seq<Codepoint>, g: Gen)
    requires Ready(cps, g.state) && !g.exhausted
    ensures var r := Pull(cps, g);
      r.Ok? ==>
        r.value.token.Some? && WellFormed(cps, r.value.token.value, g.state.line, g.state.column) &&
        r.value.token.value.end == r.value.gen.state.end >= g.state.end &&
        r.value.gen.state.line == g.state.line && r.value.gen.state.column == g.state.column &&
        (r.value.gen.exhausted <==> r.value.token.value.kind == EOF)
    decreases |cps| - g.state.end
  {
    if At(cps, g.state.end) != 0 {
      PullAfterStep(cps, g.state);
      StepTokenWellFormed(cps, g.state);
      var st := Step(cps, g.state);
      if st.Ok? && st.value.token.None? {
        PullTokenWellFormed(cps, Gen(st.value.state, false));
      }
    } else {
      EmitWellFormed(cps, g.state, EOF);
    }
  }

  /** The tokens are in stream order, EOF last and only there, and all well formed. */
  predicate StreamShaped(cps: seq<Codepoint>, ts: seq<Token>, from: nat, line: int, column: int)
  {
    |ts| > 0 && ts[|ts| - 1].kind == EOF &&
    (forall i :: 0 <= i < |ts| - 1 ==> ts[i].kind != EOF) &&
    (forall i :: 0 <= i < |ts| ==> WellFormed(cps, ts[i], line, column) && from <= ts[i].end) &&
    (forall i, j :: 0 <= i < j < |ts| ==> ts[i].end <= ts[j].end)
  }

  /** A non-EOF token in front of a shaped stream that starts at or after its end. */
  lemma ShapedPrepend(cps: seq<Codepoint>, t: Token, rest: seq<Token>, from: nat, line: int, column: int)
    requires WellFormed(cps, t, line, column) && t.kind != EOF && from <= t.end
    requires StreamShaped(cps, rest, t.end, line, column)
    ensures StreamShaped(cps, [t] + rest, from, line, column)
  {
    PrependKeepsEofLast(t, rest);
    PrependKeepsWellFormed(cps, t, rest, from, line, column);
    PrependKeepsOrder(t, rest);
  }

  /** EOF stays last, and only there, when a non-EOF token goes in front. */
  lemma PrependKeepsEofLast(t: Token, rest: seq<Token>)
    requires t.kind != EOF && |rest| > 0 && rest[|rest| - 1].kind == EOF
    requires forall i :: 0 <= i < |rest| - 1 ==> rest[i].kind != EOF
    ensures var ts := [t] + rest; ts[|ts| - 1].kind == EOF && forall i :: 0 <= i < |ts| - 1 ==> ts[i].kind != EOF
  {
    var ts := [t] + rest;
    forall i | 0 <= i < |ts| - 1
      ensures ts[i].kind != EOF
    {
      if i > 0 {
        assert ts[i] == rest[i - 1];
      }
    }
  }

  /** A well-formed token in front of well-formed ones that end no earlier. */
  lemma PrependKeepsWellFormed(cps: seq<Codepoint>, t: Token, rest: seq<Token>, from: nat, line: int, column: int)
    requires WellFormed(cps, t, line, column) && from <= t.end
    requires forall i :: 0 <= i < |rest| ==> WellFormed(cps, rest[i], line, column) && t.end <= rest[i].end
    ensures var ts := [t] + rest; forall i :: 0 <= i < |ts| ==> WellFormed(cps, ts[i], line, column) && from <= ts[i].end
  {
    var ts := [t] + rest;
    forall i | 0 <= i < |ts|
      ensures WellFormed(cps, ts[i], line, column) && from <= ts[i].end
    {
      if i > 0 {
        assert ts[i] == rest[i - 1];
      }
    }
  }

  /** Ends stay in order when the token in front ends no later than the rest. */
  lemma PrependKeepsOrder(t: Token, rest: seq<Token>)
    requires forall i :: 0 <= i < |rest| ==> t.end <= rest[i].end
    requires forall i, j :: 0 <= i < j < |rest| ==> rest[i].end <= rest[j].end
    ensures var ts := [t] + rest; forall i, j :: 0 <= i < j < |ts| ==> ts[i].end <= ts[j].end
  {
    var ts := [t] + rest;
    forall i, j | 0 <= i < j < |ts|
      ensures ts[i].end <= ts[j].end
    {
      assert ts[j] == rest[j - 1];
      if i > 0 {
        assert ts[i] == rest[i - 1];
      }
    }
  }

  /** The stream of a running generator: the token of one resumption, then the rest. */
  lemma StreamCons(cps: seq<Codepoint>, g: Gen)
    requires Ready(cps, g.state) && !g.exhausted && Pull(cps, g).Ok?
    ensures Pull(cps, g).value.token.Some? && Ready(cps, Pull(cps, g).value.gen.state)
    ensures var p := Pull(cps, g).value;
      Stream(cps, g) ==
        if p.gen.exhausted then Ok([p.token.value])
        else if Stream(cps, p.gen).Ok? then Ok([p.token.value] + Stream(cps, p.gen).value)
        else Stream(cps, p.gen)
  {
    PullProgress(cps, g);
    var p := Pull(cps, g).value;
    if p.gen.exhausted {
      assert Stream(cps, p.gen) == Ok([]);
      assert [p.token.value] + [] == [p.token.value];
    }
  }

  /** The stream of a running generator ends with exactly one EOF token. */
  lemma {:induction false} StreamShape(cps: seq<Codepoint>, g: Gen)
    requires Ready(cps, g.state) && !g.exhausted
    ensures Stream(cps, g).Ok? ==> StreamShaped(cps, Stream(cps, g).value, g.state.end, g.state.line, g.state.column)
    decreases |cps| - g.state.end
  {
    if Pull(cps, g).Ok? {
      StreamCons(cps, g);
      PullTokenWellFormed(cps, g);
      PullProgress(cps, g);
      var p := Pull(cps, g).value;
      var t := p.token.value;
      if !p.gen.exhausted {
        StreamShape(cps, p.gen);
        if Stream(cps, p.gen).Ok? {
          ShapedPrepend(cps, t, Stream(cps, p.gen).value, g.state.end, g.state.line, g.state.column);
        }
      }
    }
  }

  // ---------------------------------------------------------------------------------------
  // peek and next
  // ---------------------------------------------------------------------------------------

  /**
   * The priming `next()` of a running generator returns the empty lookahead and fills it
   * with the first token of the stream; the stream of the generator it leaves is the rest.
   */
  lemma PrimingNextHeadsStream(cps: seq<Codepoint>, g: Gen)
    requires Ready(cps, g.state) && !g.exhausted && Stream(cps, g).Ok?
    ensures |Stream(cps, g).value| > 0
    ensures var o := Next(cps, Lookahead(g, None));
      o.returned == Ok(None) && o.after.token == Some(Stream(cps, g).value[0]) &&
      Ready(cps, o.after.gen.state) && Stream(cps, o.after.gen) == Ok(Stream(cps, g).value[1..])
  {
    PullProgress(cps, g);
  }

  /**
   * Every later `next()` returns the lookahead and moves the next stream token into it:
   * what `next()` returns, call by call, is the stream.
   */
  lemma NextWalksStream(cps: seq<Codepoint>, l: Lookahead)
    requires Ready(cps, l.gen.state) && !l.gen.exhausted && Stream(cps, l.gen).Ok?
    ensures |Stream(cps, l.gen).value| > 0
    ensures var o := Next(cps, l);
      o.returned == Ok(l.token) && o.after.token == Some(Stream(cps, l.gen).value[0]) &&
      Ready(cps, o.after.gen.state) && Stream(cps, o.after.gen) == Ok(Stream(cps, l.gen).value[1..])
  {
    PullProgress(cps, l.gen);
  }

  /** Once the generator has finished, `next()` returns the lookahead and leaves None. */
  lemma ExhaustedNextDrains(cps: seq<Codepoint>, l: Lookahead)
    requires Ready(cps, l.gen.state) && l.gen.exhausted
    ensures Next(cps, l) == NextOutcome(Ok(l.token), Lookahead(l.gen, None))
  {
  }

  /** A raising `next()` keeps the lookahead and finishes the generator. */
  lemma RaisingNextFinishes(cps: seq<Codepoint>, l: Lookahead)
    requires Ready(cps, l.gen.state) && Pull(cps, l.gen).Err?
    ensures Next(cps, l).returned == Err(Pull(cps, l.gen).error)
    ensures Next(cps, l).after.token == l.token && Next(cps, l).after.gen.exhausted
    ensures Stream(cps, l.gen).Err?
  {
  }
}
