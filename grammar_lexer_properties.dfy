/**
 * What the string lexer of the grammar language guarantees, stated over the functions of
 * `GrammarLexerSpec`: which key wins, what each kind of character produces or raises, the
 * bracket discipline, the shape of every token, and the token stream `peek`/`next` walk.
 */
module GrammarLexerProperties {
  import opened Wrappers
  import opened GrammarTokentype
  import opened GrammarLexerSpec

  // ---------------------------------------------------------------------------------------
  // The prefix map
  // ---------------------------------------------------------------------------------------

  /** The two-character keys are exactly `**`, `++`, `:=` and `\r\n`, all operators. */
  lemma DoubleKeys(a: char, b: char)
    ensures DoubleHandler(a, b).Some? <==> [a, b] in {"**", "++", ":=", "\r\n"}
    ensures DoubleHandler(a, b).Some? ==> DoubleHandler(a, b).value.OperatorHandler?
  {
    if [a, b] in {"**", "++", ":=", "\r\n"} {
      assert [a, b] == "**" || [a, b] == "++" || [a, b] == ":=" || [a, b] == "\r\n";
    }
  }

  /**
   * The characters with no one-character entry: `:` and `_`, the carriage return, the
   * backtick, the period and every character outside printable ASCII but tab and newline.
   */
  lemma UnmappedCharacters(c: char)
    ensures SingleHandler(c).None? <==>
      !(IsLetter(c) || IsDigit(c) || c in "()[]{}|*+,=#'\"" || c in ErroneousCharacters || c in " \t\n")
  {
  }

  /** An iteration at a two-character key: both characters are consumed, then its handler. */
  lemma StepAtDoubleKey(src: string, s: State)
    requires Ready(src, s) && s.end + 2 <= |src| && DoubleHandler(src[s.end], src[s.end + 1]).Some?
    ensures Step(src, s) == Handle(DoubleHandler(src[s.end], src[s.end + 1]).value, src, s.(end := s.end + 2))
  {
    assert Slice(src, s.start, s.start + 2) == [src[s.end], src[s.end + 1]];
  }

  /**
   * An iteration at a one-character key that does not begin a two-character key: one
   * character is consumed, then its handler. At the last character the two-character
   * probe is the one-character key itself, and the second advance stops at the end.
   */
  lemma StepAtSingleKey(src: string, s: State)
    requires Ready(src, s) && s.end < |src| && SingleHandler(src[s.end]).Some?
    requires s.end + 1 < |src| ==> DoubleHandler(src[s.end], src[s.end + 1]).None?
    ensures Step(src, s) == Handle(SingleHandler(src[s.end]).value, src, s.(end := s.end + 1))
  {
    assert Slice(src, s.start, s.start + 1) == [src[s.end]];
    if s.end + 1 < |src| {
      assert Slice(src, s.start, s.start + 2) == [src[s.end], src[s.end + 1]];
    } else {
      assert Slice(src, s.start, s.start + 2) == [src[s.end]];
    }
  }

  /** A character with no entry that does not begin a two-character key raises. */
  lemma UnrecognizedCharacterRaises(src: string, s: State)
    requires Ready(src, s) && s.end < |src| && SingleHandler(src[s.end]).None?
    requires s.end + 1 < |src| ==> DoubleHandler(src[s.end], src[s.end + 1]).None?
    ensures Step(src, s) == Err(UnrecognizedCharacter)
  {
    assert Slice(src, s.start, s.start + 1) == [src[s.end]];
    if s.end + 1 < |src| {
      assert Slice(src, s.start, s.start + 2) == [src[s.end], src[s.end + 1]];
    } else {
      assert Slice(src, s.start, s.start + 2) == [src[s.end]];
    }
  }

  /** `**`, `++`, `:=` and `\r\n` are one token each, never two one-character tokens. */
  lemma TwoCharacterOperators(src: string, s: State)
    requires Ready(src, s) && s.end + 2 <= |src|
    requires src[s.end..s.end + 2] in {"**", "++", ":=", "\r\n"}
    ensures var kind := DoubleHandler(src[s.end], src[s.end + 1]).value.kind;
      kind in {STAR_STAR, PLUS_PLUS, WALRUS, EOL} &&
      Step(src, s) == Ok(Progress(s.(start := s.end + 2, end := s.end + 2),
        Some(Token(kind, src[s.end..s.end + 2], s.end + 2, s.end + 2, s.line, s.column))))
  {
    assert [src[s.end], src[s.end + 1]] == src[s.end..s.end + 2];
    DoubleKeys(src[s.end], src[s.end + 1]);
    StepAtDoubleKey(src, s);
  }

  /** A colon not followed by `=` has no entry and raises. */
  lemma LoneColonRaises(src: string, s: State)
    requires Ready(src, s) && s.end < |src| && src[s.end] == ':'
    requires s.end + 1 < |src| ==> src[s.end + 1] != '='
    ensures Step(src, s) == Err(UnrecognizedCharacter)
  {
    UnrecognizedCharacterRaises(src, s);
  }

  /** A carriage return not followed by a newline has no entry and raises. */
  lemma LoneCarriageReturnRaises(src: string, s: State)
    requires Ready(src, s) && s.end < |src| && src[s.end] == '\r'
    requires s.end + 1 < |src| ==> src[s.end + 1] != '\n'
    ensures Step(src, s) == Err(UnrecognizedCharacter)
  {
    UnrecognizedCharacterRaises(src, s);
  }

  /** The underscore continues an identifier but cannot begin a token. */
  lemma UnderscoreRaises(src: string, s: State)
    requires Ready(src, s) && s.end < |src| && src[s.end] == '_'
    ensures Step(src, s) == Err(UnrecognizedCharacter)
  {
    UnrecognizedCharacterRaises(src, s);
  }

  /** The characters of the erroneous entries raise the erroneous-character error. */
  lemma ErroneousCharacterRaises(src: string, s: State)
    requires Ready(src, s) && s.end < |src| && src[s.end] in ErroneousCharacters
    ensures Step(src, s) == Err(ErroneousCharacter)
  {
    ErroneousEntry(src[s.end], if s.end + 1 < |src| then src[s.end + 1] else ' ');
    StepAtSingleKey(src, s);
  }

  /** An erroneous character has the erroneous handler and begins no two-character key. */
  lemma ErroneousEntry(c: char, d: char)
    requires c in ErroneousCharacters
    ensures SingleHandler(c) == Some(ErroneousHandler) && DoubleHandler(c, d).None?
  {
  }

  // ---------------------------------------------------------------------------------------
  // Identifiers, numbers, line breaks
  // ---------------------------------------------------------------------------------------

  /**
   * A letter begins an IDENTIFIER token over the longest run of letters, digits and
   * underscores that follows it.
   */
  lemma IdentifierRun(src: string, s: State)
    requires Ready(src, s) && s.end < |src| && IsLetter(src[s.end])
    ensures Step(src, s).Ok? && Step(src, s).value.token.Some?
    ensures var t := Step(src, s).value.token.value;
      t.kind == IDENTIFIER && t.literal == src[s.end..t.end] && s.end < t.end <= |src| &&
      (forall k :: s.end <= k < t.end ==> IsAlnumSymbol(src[k])) &&
      (t.end < |src| ==> !IsAlnumSymbol(src[t.end])) &&
      Step(src, s).value.state == s.(start := t.end, end := t.end)
  {
    StepAtSingleKey(src, s);
  }

  /** A digit is a NUMBER token of its own, even when more digits follow. */
  lemma NumberIsOneDigit(src: string, s: State)
    requires Ready(src, s) && s.end < |src| && IsDigit(src[s.end])
    ensures Step(src, s) == Ok(Progress(s.(start := s.end + 1, end := s.end + 1),
      Some(Token(NUMBER, [src[s.end]], s.end + 1, s.end + 1, s.line, s.column))))
  {
    StepAtSingleKey(src, s);
    assert src[s.end..s.end + 1] == [src[s.end]];
  }

  /** A newline is an EOL token whatever the bracket depth; so is `\r\n`. */
  lemma LineBreaksAtAnyDepth(src: string, s: State)
    requires Ready(src, s) && s.end < |src|
    requires src[s.end] == '\n' || (src[s.end] == '\r' && s.end + 1 < |src| && src[s.end + 1] == '\n')
    ensures var n := if src[s.end] == '\n' then 1 else 2;
      Step(src, s) == Ok(Progress(s.(start := s.end + n, end := s.end + n),
        Some(Token(EOL, src[s.end..s.end + n], s.end + n, s.end + n, s.line, s.column))))
  {
    if src[s.end] == '\n' {
      StepAtSingleKey(src, s);
    } else {
      StepAtDoubleKey(src, s);
    }
  }

  // ---------------------------------------------------------------------------------------
  // Strings and comments
  // ---------------------------------------------------------------------------------------

  /** `j` holds the first `quote` from `i` on, and every character before it is allowed. */
  predicate ClosingQuote(src: string, i: nat, quote: char, j: nat)
  {
    i <= j < |src| && src[j] == quote &&
    forall k :: i <= k < j ==> src[k] != quote && IsAsciiSymbol(src[k])
  }

  /** The string that begins at `end` closes at `j`. */
  predicate StringCloses(src: string, s: State, j: nat)
  {
    s.end < |src| && ClosingQuote(src, s.end + 1, src[s.end], j)
  }

  /** The scan of a string body finds the closing quote exactly when there is one. */
  lemma {:induction false} StringEndFindsClosingQuote(src: string, i: nat, quote: char, j: nat)
    requires i <= |src|
    ensures StringEnd(src, i, quote) == Ok(j) <==> ClosingQuote(src, i, quote, j)
    decreases |src| - i
  {
    if ClosingQuote(src, i, quote, j) && i < j {
      assert src[i] != quote && IsAsciiSymbol(src[i]);
      assert ClosingQuote(src, i + 1, quote, j);
      StringEndFindsClosingQuote(src, i + 1, quote, j);
    } else if i < |src| && src[i] != quote && IsAsciiSymbol(src[i]) {
      StringEndFindsClosingQuote(src, i + 1, quote, j);
    }
  }

  /**
   * A quote begins a STRING token that runs through the next identical quote, both quotes
   * included, when every character between is allowed; otherwise it raises the
   * unrecognized-character error, at the end of the source too.
   */
  lemma QuotedString(src: string, s: State)
    requires Ready(src, s) && s.end < |src| && src[s.end] in "'\""
    ensures Step(src, s).Ok? <==> exists j: nat :: StringCloses(src, s, j)
    ensures Step(src, s).Err? ==> Step(src, s).error == UnrecognizedCharacter
    ensures forall j: nat :: StringCloses(src, s, j) ==>
      Step(src, s) == Ok(Progress(s.(start := j + 1, end := j + 1),
        Some(Token(STRING, src[s.end..j + 1], j + 1, j + 1, s.line, s.column))))
  {
    StringStep(src, s);
    var q := src[s.end];
    var body := s.(end := s.end + 1);
    forall j: nat | StringCloses(src, s, j)
      ensures StringEnd(src, s.end + 1, q) == Ok(j)
    {
      StringEndFindsClosingQuote(src, s.end + 1, q, j);
    }
    match StringEnd(src, s.end + 1, q)
    case Ok(j) =>
      StringEndFindsClosingQuote(src, s.end + 1, q, j);
      assert StringCloses(src, s, j);
    case Err(_) =>
  }

  /** An iteration at a quote is one run of the string handler for that quote. */
  lemma StringStep(src: string, s: State)
    requires Ready(src, s) && s.end < |src| && src[s.end] in "'\""
    ensures Step(src, s) == String(src, s.(end := s.end + 1), src[s.end])
  {
    StepAtSingleKey(src, s);
  }

  /** The unterminated-literal branch of `string` is never taken. */
  lemma NoStringIsUnterminated(src: string, s: State, quote: char)
    requires s.start <= s.end <= |src|
    ensures String(src, s, quote) != Err(UnterminatedString)
  {
  }

  /** No iteration of the loop raises the unterminated-literal error. */
  lemma StepNeverUnterminated(src: string, s: State)
    requires Ready(src, s) && s.end < |src|
    ensures Step(src, s) != Err(UnterminatedString)
  {
    var double := Slice(src, s.start, s.start + 2);
    var single := Slice(src, s.start, s.start + 1);
    var h := if PrefixMap(double).Some? then PrefixMap(double) else PrefixMap(single);
    var n := if PrefixMap(double).Some? then Advance(src, Advance(src, s)) else Advance(src, s);
    if h.Some? && h.value.StringHandler? {
      NoStringIsUnterminated(src, n, h.value.quote);
    }
  }

  /**
   * `#` skips to the next carriage return, newline or the end of the source and yields
   * nothing, so the line break is the next token; a disallowed character raises.
   */
  lemma CommentToLineEnd(src: string, s: State)
    requires Ready(src, s) && s.end < |src| && src[s.end] == '#'
    ensures Step(src, s).Err? <==> CommentEnd(src, s.end + 1).Err?
    ensures Step(src, s).Err? ==> Step(src, s).error == UnrecognizedCharacter
    ensures Step(src, s).Ok? ==>
      var j := CommentEnd(src, s.end + 1).value;
      Step(src, s) == Ok(Progress(s.(start := j, end := j), None)) &&
      (j < |src| ==> src[j] in "\r\n") &&
      forall k :: s.end < k < j ==> src[k] !in "\r\n"
  {
    CommentStep(src, s);
    CommentScan(src, s.(end := s.end + 1));
  }

  /** An iteration at `#` is one run of the comment handler. */
  lemma CommentStep(src: string, s: State)
    requires Ready(src, s) && s.end < |src| && src[s.end] == '#'
    ensures Step(src, s) == Comment(src, s.(end := s.end + 1))
  {
    StepAtSingleKey(src, s);
  }

  /** The comment handler run from `end`: nothing, up to the line break, or the error. */
  lemma CommentScan(src: string, n: State)
    requires Valid(src, n) && 0 < n.end
    ensures Comment(src, n).Err? <==> CommentEnd(src, n.end).Err?
    ensures Comment(src, n).Err? ==> Comment(src, n).error == UnrecognizedCharacter
    ensures Comment(src, n).Ok? ==>
      var j := CommentEnd(src, n.end).value;
      Comment(src, n) == Ok(Progress(n.(start := j, end := j), None)) &&
      (j < |src| ==> src[j] in "\r\n") &&
      forall k :: n.end - 1 < k < j ==> src[k] !in "\r\n"
  {
  }

  // ---------------------------------------------------------------------------------------
  // Brackets
  // ---------------------------------------------------------------------------------------

  /** The opener a closer must match. */
  function OpenerOf(c: char): char
  {
    if c == ')' then '(' else if c == ']' then '[' else '{'
  }

  /** The type of a bracket token. */
  function BracketKind(c: char): Tokentype
  {
    match c
    case '(' => L_PAREN
    case '[' => L_BRACK
    case '{' => L_BRACE
    case ')' => R_PAREN
    case ']' => R_BRACK
    case _ => R_BRACE
  }

  /** An opener is pushed onto the bracket stack and yields its token. */
  lemma OpenerPushes(src: string, s: State)
    requires Ready(src, s) && s.end < |src| && src[s.end] in "([{"
    ensures Step(src, s) == Ok(Progress(
      s.(start := s.end + 1, end := s.end + 1, parentheses := s.parentheses + [src[s.end]]),
      Some(Token(BracketKind(src[s.end]), [src[s.end]], s.end + 1, s.end + 1, s.line, s.column))))
  {
    StepAtSingleKey(src, s);
    assert src[s.end..s.end + 1] == [src[s.end]];
  }

  /**
   * A closer succeeds exactly when the top of the bracket stack is its opener; it then
   * pops the stack and yields its token. The bottom `'|'` therefore never pops.
   */
  lemma CloserMatches(src: string, s: State)
    requires Ready(src, s) && s.end < |src| && src[s.end] in ")]}"
    ensures Step(src, s).Ok? <==> Last(s.parentheses) == OpenerOf(src[s.end])
    ensures Step(src, s).Err? ==> Step(src, s).error == MismatchedParenthetical
    ensures Step(src, s).Ok? ==>
      |s.parentheses| > 1 &&
      Step(src, s).value == Progress(
        s.(start := s.end + 1, end := s.end + 1, parentheses := DropLast(s.parentheses)),
        Some(Token(BracketKind(src[s.end]), [src[s.end]], s.end + 1, s.end + 1, s.line, s.column)))
  {
    StepAtSingleKey(src, s);
    assert src[s.end..s.end + 1] == [src[s.end]];
  }

  /** At the end of the source the EOF token follows, whatever brackets are still open. */
  lemma EofIgnoresOpenBrackets(src: string, g: Gen)
    requires Ready(src, g.state) && !g.exhausted && g.state.end == |src|
    ensures Pull(src, g) == Ok(Pulled(Some(Token(EOF, "", |src|, |src|, g.state.line, g.state.column)),
      Gen(g.state, true)))
  {
    assert src[|src|..|src|] == "";
  }

  // ---------------------------------------------------------------------------------------
  // Tokens and the stream
  // ---------------------------------------------------------------------------------------

  /** The types the lexer gives its tokens. */
  const EmittedKinds: seq<Tokentype> := [
    IDENTIFIER, STRING, NUMBER, L_PAREN, R_PAREN, L_BRACK, R_BRACK, L_BRACE, R_BRACE,
    WALRUS, ASSIGN, COMMA, PIPE, PLUS, STAR, PLUS_PLUS, STAR_STAR, EOL, EOF]

  /**
   * What every token promises: its context has `start == end` at its own end, its literal
   * is the source text just before that end, its type is exactly one member (never a
   * category), and its line and column are the lexer's.
   */
  predicate WellFormed(src: string, t: Token, line: int, column: int)
  {
    t.start == t.end <= |src| && |t.literal| <= t.end && src[t.end - |t.literal|..t.end] == t.literal &&
    t.kind in EmittedKinds && t.line == line && t.column == column
  }

  /** Every emitted type is a single member of the enumeration and not a category. */
  lemma EmittedKindIsMember(i: nat)
    requires i < |EmittedKinds|
    ensures ExactlyOneMember(EmittedKinds[i]) && EmittedKinds[i] !in Categories
  {
    var m := EmittedKindIndex(i);
    MemberIsExactlyOne(m);
    MemberTest(m, 17);
    MemberTest(m, 18);
    MemberTest(m, 19);
    MemberTest(m, 20);
    assert Categories == [Members[17], Members[18], Members[19], Members[20]];
  }

  /** The emitted types are the members with the four categories left out. */
  function EmittedKindIndex(i: nat): (m: nat)
    requires i < |EmittedKinds|
    ensures m < |Members| && Members[m] == EmittedKinds[i] && !(17 <= m <= 20)
  {
    if i <= 16 then i else i + 4
  }

  lemma EmittedKindsAreMembers(k: Tokentype)
    requires k in EmittedKinds
    ensures ExactlyOneMember(k) && k !in Categories
  {
    var i :| 0 <= i < |EmittedKinds| && EmittedKinds[i] == k;
    EmittedKindIsMember(i);
  }

  /** The token `Emit` builds is well formed and ends where it leaves the markers. */
  lemma EmitWellFormed(src: string, s: State, kind: Tokentype)
    requires s.start <= s.end <= |src| && kind in EmittedKinds
    ensures var p := Emit(src, s, kind);
      WellFormed(src, p.token.value, s.line, s.column) && p.token.value.end == p.state.end
  {
  }

  /**
   * `advance()` takes exactly the character `observe()` shows: within the source the pending
   * text grows by it and `end` moves by one; at the end of the source nothing changes. The
   * invariant is kept and `start` stays.
   */
  lemma AdvanceTakesObserved(src: string, s: State)
    ensures Valid(src, s) ==> Valid(src, Advance(src, s))
    ensures Advance(src, s).start == s.start
    ensures Observe(src, s) == "" ==> Advance(src, s) == s
    ensures Observe(src, s) != "" ==> Advance(src, s).end == s.end + 1
    ensures Valid(src, s) && Observe(src, s) != "" ==>
      src[s.start..Advance(src, s).end] == src[s.start..s.end] + Observe(src, s)
  {
    if Valid(src, s) && Observe(src, s) != "" {
      assert src[s.start..s.end + 1] == src[s.start..s.end] + [src[s.end]];
    }
  }

  /**
   * `consume()`, `ignore()` and every built token close the pending text: from a valid
   * state they leave one with nothing pending, `end` stays, and a second `consume()`
   * changes nothing.
   */
  lemma ConsumeClosesLiteral(src: string, s: State, kind: Tokentype)
    ensures Valid(src, s) ==> Ready(src, Consume(s)) && Ready(src, Emit(src, s, kind).state)
    ensures Consume(s).end == s.end && Consume(Consume(s)) == Consume(s)
  {
  }

  /** The types the entries of the prefix map give their tokens. */
  predicate KnownKinds(h: Handler)
  {
    (h.OperatorHandler? || h.ParentheticalHandler?) ==> h.kind in EmittedKinds && h.kind != EOF
  }

  lemma PrefixMapKinds(key: string)
    ensures PrefixMap(key).Some? ==> KnownKinds(PrefixMap(key).value)
  {
  }

  /** A handler yields only well-formed tokens ending where it leaves the markers. */
  lemma HandleTokenWellFormed(h: Handler, src: string, s: State)
    requires Valid(src, s) && Mapped(h) && KnownKinds(h)
    ensures var r := Handle(h, src, s);
      r.Ok? ==>
        r.value.state.line == s.line && r.value.state.column == s.column &&
        (r.value.token.Some? ==>
          WellFormed(src, r.value.token.value, s.line, s.column) && r.value.token.value.end == r.value.state.end &&
          r.value.token.value.kind != EOF)
  {
    match h
    case OperatorHandler(kind) =>
      EmitWellFormed(src, s, kind);
    case ParentheticalHandler(kind, open, closing) =>
      if closing {
        EmitWellFormed(src, s.(parentheses := DropLast(s.parentheses)), kind);
      } else {
        EmitWellFormed(src, s.(parentheses := s.parentheses + [open]), kind);
      }
    case StringHandler(quote) =>
      if StringEnd(src, s.end, quote).Ok? {
        EmitWellFormed(src, Advance(src, s.(end := StringEnd(src, s.end, quote).value)), STRING);
      }
    case IdentifierHandler =>
      EmitWellFormed(src, s.(end := IdentifierEnd(src, s.end)), IDENTIFIER);
    case NumberHandler =>
      EmitWellFormed(src, s, NUMBER);
    case _ =>
  }

  /** An iteration yields only well-formed tokens ending where it leaves the markers. */
  lemma StepTokenWellFormed(src: string, s: State)
    requires Ready(src, s) && s.end < |src|
    ensures var r := Step(src, s);
      r.Ok? ==>
        r.value.state.line == s.line && r.value.state.column == s.column &&
        (r.value.token.Some? ==>
          WellFormed(src, r.value.token.value, s.line, s.column) && r.value.token.value.end == r.value.state.end &&
          r.value.token.value.kind != EOF)
  {
    var double := Slice(src, s.start, s.start + 2);
    var single := Slice(src, s.start, s.start + 1);
    var h := if PrefixMap(double).Some? then PrefixMap(double) else PrefixMap(single);
    var n := if PrefixMap(double).Some? then Advance(src, Advance(src, s)) else Advance(src, s);
    if h.Some? {
      PrefixMapKinds(double);
      PrefixMapKinds(single);
      HandleTokenWellFormed(h.value, src, n);
    }
  }

  /**
   * One resumption of a running generator: a well-formed token that ends where the new
   * state's markers are; the generator is finished exactly when that token is the EOF.
   */
  lemma {:induction false} PullTokenWellFormed(src: string, g: Gen)
    requires Ready(src, g.state) && !g.exhausted
    ensures var r := Pull(src, g);
      r.Ok? ==>
        r.value.token.Some? && WellFormed(src, r.value.token.value, g.state.line, g.state.column) &&
        r.value.token.value.end == r.value.gen.state.end >= g.state.end &&
        r.value.gen.state.line == g.state.line && r.value.gen.state.column == g.state.column &&
        (r.value.gen.exhausted <==> r.value.token.value.kind == EOF)
    decreases |src| - g.state.end
  {
    if g.state.end < |src| {
      PullAfterStep(src, g.state);
      StepTokenWellFormed(src, g.state);
      var st := Step(src, g.state);
      if st.Ok? && st.value.token.None? {
        PullTokenWellFormed(src, Gen(st.value.state, false));
      }
    } else {
      EmitWellFormed(src, g.state, EOF);
    }
  }

  /** The tokens are in source order, EOF last and only there, and all well formed. */
  predicate StreamShaped(src: string, ts: seq<Token>, from: nat, line: int, column: int)
  {
    |ts| > 0 && ts[|ts| - 1].kind == EOF &&
    (forall i :: 0 <= i < |ts| - 1 ==> ts[i].kind != EOF) &&
    (forall i :: 0 <= i < |ts| ==> WellFormed(src, ts[i], line, column) && from <= ts[i].end) &&
    (forall i, j :: 0 <= i < j < |ts| ==> ts[i].end <= ts[j].end)
  }

  /** A non-EOF token in front of a shaped stream that starts at or after its end. */
  lemma ShapedPrepend(src: string, t: Token, rest: seq<Token>, from: nat, line: int, column: int)
    requires WellFormed(src, t, line, column) && t.kind != EOF && from <= t.end
    requires StreamShaped(src, rest, t.end, line, column)
    ensures StreamShaped(src, [t] + rest, from, line, column)
  {
    PrependKeepsEofLast(t, rest);
    PrependKeepsWellFormed(src, t, rest, from, line, column);
    PrependKeepsOrder(t, rest);
  }

  /** EOF stays last, and only there, when a non-EOF token goes in front. */
  lemma PrependKeepsEofLast(t: Token, rest: seq<Token>)
    requires t.kind != EOF && |rest| > 0 && rest[|rest| - 1].kind == EOF
    requires forall i :: 0 <= i < |rest| - 1 ==> rest[i].kind != EOF
    ensures var ts := [t] + rest; ts[|ts| - 1].kind == EOF && forall i :: 0 <= i < |ts| - 1 ==> ts[i].kind != EOF
  {
    var ts := [t] + rest;
    forall i | 0 <= i < |ts| - 1
      ensures ts[i].kind != EOF
    {
      if i > 0 {
        assert ts[i] == rest[i - 1];
      }
    }
  }

  /** A well-formed token in front of well-formed ones that end no earlier. */
  lemma PrependKeepsWellFormed(src: string, t: Token, rest: seq<Token>, from: nat, line: int, column: int)
    requires WellFormed(src, t, line, column) && from <= t.end
    requires forall i :: 0 <= i < |rest| ==> WellFormed(src, rest[i], line, column) && t.end <= rest[i].end
    ensures var ts := [t] + rest; forall i :: 0 <= i < |ts| ==> WellFormed(src, ts[i], line, column) && from <= ts[i].end
  {
    var ts := [t] + rest;
    forall i | 0 <= i < |ts|
      ensures WellFormed(src, ts[i], line, column) && from <= ts[i].end
    {
      if i > 0 {
        assert ts[i] == rest[i - 1];
      }
    }
  }

  /** Ends stay in order when the token in front ends no later than the rest. */
  lemma PrependKeepsOrder(t: Token, rest: seq<Token>)
    requires forall i :: 0 <= i < |rest| ==> t.end <= rest[i].end
    requires forall i, j :: 0 <= i < j < |rest| ==> rest[i].end <= rest[j].end
    ensures var ts := [t] + rest; forall i, j :: 0 <= i < j < |ts| ==> ts[i].end <= ts[j].end
  {
    var ts := [t] + rest;
    forall i, j | 0 <= i < j < |ts|
      ensures ts[i].end <= ts[j].end
    {
      assert ts[j] == rest[j - 1];
      if i > 0 {
        assert ts[i] == rest[i - 1];
      }
    }
  }

  /** The stream of a running generator: the token of one resumption, then the rest. */
  lemma StreamCons(src: string, g: Gen)
    requires Ready(src, g.state) && !g.exhausted && Pull(src, g).Ok?
    ensures Pull(src, g).value.token.Some? && Ready(src, Pull(src, g).value.gen.state)
    ensures var p := Pull(src, g).value;
      Stream(src, g) ==
        if p.gen.exhausted then Ok([p.token.value])
        else if Stream(src, p.gen).Ok? then Ok([p.token.value] + Stream(src, p.gen).value)
        else Stream(src, p.gen)
  {
    PullProgress(src, g);
    var p := Pull(src, g).value;
    if p.gen.exhausted {
      assert Stream(src, p.gen) == Ok([]);
      assert [p.token.value] + [] == [p.token.value];
    }
  }

  /** The stream of a running generator ends with exactly one EOF token. */
  lemma {:induction false} StreamShape(src: string, g: Gen)
    requires Ready(src, g.state) && !g.exhausted
    ensures Stream(src, g).Ok? ==> StreamShaped(src, Stream(src, g).value, g.state.end, g.state.line, g.state.column)
    decreases |src| - g.state.end
  {
    if Pull(src, g).Ok? {
      StreamCons(src, g);
      PullTokenWellFormed(src, g);
      PullProgress(src, g);
      var p := Pull(src, g).value;
      var t := p.token.value;
      if !p.gen.exhausted {
        StreamShape(src, p.gen);
        if Stream(src, p.gen).Ok? {
          ShapedPrepend(src, t, Stream(src, p.gen).value, g.state.end, g.state.line, g.state.column);
        }
      }
    }
  }

  // ---------------------------------------------------------------------------------------
  // peek and next
  // ---------------------------------------------------------------------------------------

  /**
   * The priming `next()` of a running generator returns the empty lookahead and fills it
   * with the first token of the stream; the stream of the generator it leaves is the rest.
   */
  lemma PrimingNextHeadsStream(src: string, g: Gen)
    requires Ready(src, g.state) && !g.exhausted && Stream(src, g).Ok?
    ensures |Stream(src, g).value| > 0
    ensures var o := Next(src, Lookahead(g, None));
      o.returned == Ok(None) && o.after.token == Some(Stream(src, g).value[0]) &&
      Ready(src, o.after.gen.state) && Stream(src, o.after.gen) == Ok(Stream(src, g).value[1..])
  {
    PullProgress(src, g);
  }

  /**
   * Every later `next()` returns the lookahead and moves the next stream token into it:
   * what `next()` returns, call by call, is the stream.
   */
  lemma NextWalksStream(src: string, l: Lookahead)
    requires Ready(src, l.gen.state) && !l.gen.exhausted && Stream(src, l.gen).Ok?
    ensures |Stream(src, l.gen).value| > 0
    ensures var o := Next(src, l);
      o.returned == Ok(l.token) && o.after.token == Some(Stream(src, l.gen).value[0]) &&
      Ready(src, o.after.gen.state) && Stream(src, o.after.gen) == Ok(Stream(src, l.gen).value[1..])
  {
    PullProgress(src, l.gen);
  }

  /** Once the generator has finished, `next()` returns the lookahead and leaves None. */
  lemma ExhaustedNextDrains(src: string, l: Lookahead)
    requires Ready(src, l.gen.state) && l.gen.exhausted
    ensures Next(src, l) == NextOutcome(Ok(l.token), Lookahead(l.gen, None))
  {
  }

  /** A raising `next()` keeps the lookahead and finishes the generator. */
  lemma RaisingNextFinishes(src: string, l: Lookahead)
    requires Ready(src, l.gen.state) && Pull(src, l.gen).Err?
    ensures Next(src, l).returned == Err(Pull(src, l.gen).error)
    ensures Next(src, l).after.token == l.token && Next(src, l).after.gen.exhausted
    ensures Stream(src, l.gen).Err?
  {
  }
}
