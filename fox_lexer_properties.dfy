/**
 * Properties of the source-language lexer, stated over the functions of `FoxLexerSpec`
 * (and so, through the method contracts of `FoxLexer.Lexer`, over the lexer object).
 */
module FoxLexerProperties {
  import opened Wrappers
  import opened FoxTokentype
  import opened FoxLexerSpec

  /** The outcome is exactly one token, of the given kind and literal. */
  predicate YieldsOne(r: Result<Progress, LexError>, kind: Tokentype, literal: string)
  {
    r.Ok? && |r.value.yielded| == 1 && r.value.yielded[0].Some? &&
    r.value.yielded[0].value.kind == kind && r.value.yielded[0].value.literal == literal
  }

  /** Every item is a token of the given kind, never reclassified. */
  predicate AllOfKind(items: seq<Option<Token>>, kind: Tokentype)
  {
    forall i :: 0 <= i < |items| ==>
      items[i].Some? && items[i].value.kind == kind && items[i].value.reclassified == []
  }

  // ---------------------------------------------------------------------------------------
  // Markers and tokens
  // ---------------------------------------------------------------------------------------

  /**
   * `advance(d)` slides the window: what was `d + k` places ahead is now `k` ahead, two
   * advances add up, and the invariant is kept.
   */
  lemma AdvanceShiftsObservation(src: string, s: State, d: nat, k: nat)
    ensures Observe(src, Advance(s, d), k) == Observe(src, s, d + k)
    ensures Advance(Advance(s, d), k) == Advance(s, d + k)
    ensures Valid(s) ==> Valid(Advance(s, d)) && Advance(s, d).start == s.start
  {
  }

  /**
   * `consume()` closes the pending text: the invariant is kept, `end` stays, a token built
   * right after it is empty and begins at `end`, and a second `consume()` changes nothing.
   */
  lemma ConsumeStartsEmptyToken(src: string, s: State, kind: Tokentype)
    ensures Valid(s) ==> Valid(Consume(s))
    ensures Consume(s).end == s.end && Consume(Consume(s)) == Consume(s)
    ensures TokenAt(src, Consume(s), kind).literal == "" && TokenAt(src, Consume(s), kind).start == s.end
  {
  }

  /**
   * `token(type)` covers the text between the markers: within the source its literal is
   * `source[start:end]`, as long as the markers are apart; the state it leaves is valid with
   * nothing pending, so the next token starts where this one ended.
   */
  lemma EmitTakesSpan(src: string, s: State, kind: Tokentype)
    ensures s.start <= s.end <= |src| ==>
      TokenAt(src, s, kind).literal == src[s.start..s.end] &&
      |TokenAt(src, s, kind).literal| == s.end - s.start
    ensures var p := Emit(src, s, kind);
      |p.yielded| == 1 && p.yielded[0] == Some(TokenAt(src, s, kind)) &&
      (Valid(s) ==> Valid(p.state)) && p.state.start == p.state.end == s.end &&
      TokenAt(src, p.state, kind).start == TokenAt(src, s, kind).end
  {
  }

  /**
   * `or_keyword`: the token gains a KEYWORD reclassification exactly when its literal is a
   * reserved word, and nothing else of it changes either way.
   */
  lemma KeywordReclassification(t: Token)
    ensures OrKeyword(t).reclassified == t.reclassified + [KEYWORD] <==> t.literal in Keywords
    ensures t.literal !in Keywords <==> OrKeyword(t).reclassified == t.reclassified
    ensures OrKeyword(t).(reclassified := t.reclassified) == t
  {
    if t.literal !in Keywords {
      assert |OrKeyword(t).reclassified| != |t.reclassified + [KEYWORD]|;
    }
  }

  /**
   * A `while observe() in chars and advance()` loop: the invariant is kept, `start` stays,
   * `end` and `column` move forward over characters of the run only, and stop at the end
   * of input or at the first character outside it.
   */
  lemma SkipAtCrossesRun(src: string, s: State, run: CharacterRun)
    ensures var r := SkipAt(src, s, run);
      (Valid(s) ==> Valid(r)) && r.start == s.start && s.end <= r.end &&
      r.column - s.column == r.end - s.end &&
      (forall k :: s.end <= k < r.end ==> InRun(src[k], run)) &&
      (Observe(src, r, 0) == "" || !InRun(Observe(src, r, 0)[0], run))
  {
  }

  // ---------------------------------------------------------------------------------------
  // Indentation
  // ---------------------------------------------------------------------------------------

  /** A fresh lexer satisfies the invariant: stack `[0]`, bracket stack `['|']`. */
  lemma InitialIsValid()
    ensures Valid(Initial) && Initial.indentation == [0] && Initial.parentheses == ['|']
  {
    assert Initial.indentation == [0];
    assert Initial.parentheses == ['|'];
  }

  /**
   * The dedent loop pops exactly the widths above `w`, one DEDENT each, and keeps the rest
   * of the stack as it was.
   */
  lemma {:induction false} DedentsPopWiderLevels(src: string, s: State, w: int)
    requires Valid(s) && (w < Last(s.indentation) ==> w in s.indentation)
    ensures var p := Dedents(src, s, w); var k := |p.state.indentation|;
      0 < k <= |s.indentation| && p.state.indentation == s.indentation[..k] &&
      (forall i :: k <= i < |s.indentation| ==> s.indentation[i] > w) &&
      Last(p.state.indentation) <= w &&
      (w <= Last(s.indentation) ==> Last(p.state.indentation) == w) &&
      |p.yielded| == |s.indentation| - k && AllOfKind(p.yielded, DEDENT)
    decreases |s.indentation|
  {
    if w < Last(s.indentation) {
      var popped := s.(indentation := DropLast(s.indentation));
      assert s.indentation == popped.indentation + [Last(s.indentation)];
      assert w in popped.indentation;
      DedentsPopWiderLevels(src, Consume(popped), w);
      var p := Dedents(src, Consume(popped), w);
      var k := |p.state.indentation|;
      assert p.state.indentation == s.indentation[..k];
      forall i | k <= i < |s.indentation|
        ensures s.indentation[i] > w
      {
        if i == |s.indentation| - 1 {
        } else {
          assert s.indentation[i] == popped.indentation[i];
        }
      }
    } else {
      assert s.indentation[..|s.indentation|] == s.indentation;
      if w <= Last(s.indentation) {
        assert w == Last(s.indentation);
      }
    }
  }

  /**
   * `indents_and_dedents(w)` raises exactly when `w` is below the top and not on the
   * stack; otherwise the top becomes `w`. A wider line pushes `w` and yields one INDENT; a
   * narrower or equal one yields one DEDENT per popped level.
   */
  lemma IndentsAndDedentsOutcome(src: string, s: State, w: nat)
    requires Valid(s)
    ensures var r := IndentsAndDedents(src, s, w);
      (r.Err? <==> w < Last(s.indentation) && w !in s.indentation) &&
      (r.Err? ==> r.error == InconsistentDedent) &&
      (r.Ok? ==> Last(r.value.state.indentation) == w && r.value.state.start == r.value.state.end) &&
      (r.Ok? && w > Last(s.indentation) ==>
        r.value.state.indentation == s.indentation + [w] &&
        |r.value.yielded| == 1 && AllOfKind(r.value.yielded, INDENT)) &&
      (r.Ok? && w <= Last(s.indentation) ==>
        var k := |r.value.state.indentation|;
        k <= |s.indentation| && r.value.state.indentation == s.indentation[..k] &&
        (forall i :: k <= i < |s.indentation| ==> s.indentation[i] > w) &&
        |r.value.yielded| == |s.indentation| - k && AllOfKind(r.value.yielded, DEDENT))
  {
    if !(w < Last(s.indentation) && w !in s.indentation) && w <= Last(s.indentation) {
      DedentsPopWiderLevels(src, s, w);
    }
  }

  /**
   * `newline()` at bracket depth 0: leading spaces are counted; a following line break
   * or `'#'` yields no NEWLINE token, a tab raises, and otherwise the NEWLINE token comes
   * first and the indentation is settled at the counted width. Inside brackets nothing
   * happens at all.
   */
  lemma NewlineCases(src: string, s: State)
    requires Valid(s)
    ensures |s.parentheses| != 1 ==> Newline(src, s) == Ok(Progress(s, []))
    ensures |s.parentheses| == 1 ==>
      var width := SkipRun(src, s.end, Spaces) - s.end;
      var next := Observe(src, Advance(s, width), 0);
      var r := Newline(src, s);
      (forall k :: s.end <= k < s.end + width ==> src[k] == ' ') &&
      (next == "\n" || next == "\r" ==> r.Ok? && r.value.yielded == []) &&
      (next == "#" ==> (r.Ok? ==> r.value.yielded == [None])) &&
      (next == "\t" ==> r == Err(LeadingTab)) &&
      (next != "\n" && next != "\r" && next != "#" && next != "\t" ==>
        (r.Err? <==> width < Last(s.indentation) && width !in s.indentation) &&
        (r.Ok? ==>
          |r.value.yielded| >= 1 &&
          r.value.yielded[0] == Some(TokenAt(src, s, NEWLINE)) &&
          Last(r.value.state.indentation) == width &&
          (AllOfKind(r.value.yielded[1..], INDENT) || AllOfKind(r.value.yielded[1..], DEDENT))))
  {
    if |s.parentheses| == 1 {
      var width := SkipRun(src, s.end, Spaces) - s.end;
      var spaced := SkipAt(src, Consume(s), Spaces);
      assert spaced == Advance(s, width).(start := s.end);
      var next := Observe(src, spaced, 0);
      assert next == Observe(src, Advance(s, width), 0);
      if next != "\n" && next != "\r" && next != "#" && next != "\t" {
        IndentsAndDedentsOutcome(src, spaced, width);
      }
    }
  }

  // ---------------------------------------------------------------------------------------
  // Brackets
  // ---------------------------------------------------------------------------------------

  /**
   * An opener pushes itself and yields an OPERATOR token. A closer raises unless the
   * popped entry is its opener, so a closer with no open bracket (the stack holds only
   * `'|'`) always raises; a matching closer pops and yields an OPERATOR token.
   */
  lemma ParentheticalOutcome(src: string, s: State, open: char, closing: bool)
    requires Valid(s) && open in "([{"
    ensures var r := Parenthetical(src, s, open, closing);
      (!closing ==> r.Ok? && r.value.state.parentheses == s.parentheses + [open]) &&
      (closing ==> (r.Err? <==> Last(s.parentheses) != open)) &&
      (closing && |s.parentheses| == 1 ==> r == Err(MismatchedParenthetical)) &&
      (closing && r.Ok? ==> r.value.state.parentheses == DropLast(s.parentheses)) &&
      (r.Ok? ==> YieldsOne(r, OPERATOR, Slice(src, s.start, s.end)))
  {
  }

  /** Each closing bracket of the map checks for its own opener, and openers push. */
  lemma BracketEntries(c: char)
    ensures c in "([{" ==> PrefixMap([c]) == Some(ParentheticalHandler(c, false))
    ensures c == ')' ==> PrefixMap([c]) == Some(ParentheticalHandler('(', true))
    ensures c == ']' ==> PrefixMap([c]) == Some(ParentheticalHandler('[', true))
    ensures c == '}' ==> PrefixMap([c]) == Some(ParentheticalHandler('{', true))
  {
    assert PrefixMap([c]) == SingleCharacterHandler(c);
  }

  /** The bracket entries are exactly the six one-character keys of the brackets. */
  lemma ParentheticalKeys(key: string)
    ensures PrefixMap(key).Some? && PrefixMap(key).value.ParentheticalHandler? ==>
      |key| == 1 && key[0] in "()[]{}" && (PrefixMap(key).value.closing <==> key[0] in ")]}")
  {
  }

  // ---------------------------------------------------------------------------------------
  // End of input
  // ---------------------------------------------------------------------------------------

  /** The DEDENTs of `eof()`: one per width above the base 0, and the stack ends empty. */
  lemma {:induction false} EofDedentsCount(src: string, s: State)
    requires |s.indentation| > 0 && s.indentation[0] == 0 && StrictlyIncreasing(s.indentation)
    ensures var p := EofDedents(src, s);
      p.state.indentation == [] && |p.yielded| == |s.indentation| - 1 && AllOfKind(p.yielded, DEDENT)
    decreases |s.indentation|
  {
    var popped := s.(indentation := DropLast(s.indentation));
    assert s.indentation == popped.indentation + [Last(s.indentation)];
    assert |s.indentation| > 1 ==> s.indentation[0] < Last(s.indentation);
    if Last(s.indentation) != 0 {
      EofDedentsCount(src, Consume(popped));
    }
  }

  /** `eof()` yields one DEDENT per stack entry above the base 0, then exactly one EOF. */
  lemma EofShape(src: string, s: State)
    requires Valid(s)
    ensures var p := Eof(src, s);
      |p.yielded| == |s.indentation| &&
      AllOfKind(p.yielded[..|p.yielded| - 1], DEDENT) &&
      Last(p.yielded).Some? && Last(p.yielded).value.kind == EOF &&
      p.state.indentation == []
  {
    EofDedentsCount(src, s);
    var d := EofDedents(src, s);
    assert Eof(src, s).yielded[..|Eof(src, s).yielded| - 1] == d.yielded;
  }

  // ---------------------------------------------------------------------------------------
  // Dispatch
  // ---------------------------------------------------------------------------------------

  /** The characters that begin some key of the prefix map. */
  predicate KeyInitial(c: char)
  {
    IsLetter(c) || IsDigit(c) || c in "_\"'=+-*/<>~^&|@%:;,.!()[]{}# \t\n\r\\"
  }

  /** Every key of the prefix map is one to three characters long and begins with a key initial. */
  lemma PrefixMapKeys(key: string)
    ensures PrefixMap(key).Some? ==> 1 <= |key| <= 3 && KeyInitial(key[0])
  {
  }

  /** A position whose character begins no key raises the unrecognized-character error. */
  lemma UnrecognizedCharacterRaises(src: string, s: State)
    requires Valid(s) && s.end < |src| && s.start == s.end
    requires !KeyInitial(src[s.start])
    ensures Dispatch(src, s) == Err(UnrecognizedCharacter)
  {
    var prefix := Slice(src, s.start, s.start + 3);
    PrefixMapKeys(Take(prefix, 3));
    PrefixMapKeys(Take(prefix, 2));
    PrefixMapKeys(Take(prefix, 1));
  }

  /**
   * When the longest key the probe finds at `start` is `n` characters long, one iteration
   * runs that key's handler with `end` advanced by `n`.
   */
  lemma DispatchUses(src: string, s: State, n: nat, h: Handler)
    requires Valid(s) && s.end < |src| && 1 <= n <= 3
    requires var prefix := Slice(src, s.start, s.start + 3);
      PrefixMap(Take(prefix, n)) == Some(h) &&
      (n < 3 ==> PrefixMap(Take(prefix, 3)).None?) && (n < 2 ==> PrefixMap(Take(prefix, 2)).None?)
    ensures h.ParentheticalHandler? ==> h.open in "([{"
    ensures Dispatch(src, s) == Handle(h, src, Advance(s, n))
  {
    var prefix := Slice(src, s.start, s.start + 3);
    PrefixMapOpeners(Take(prefix, n));
    if n == 3 {
      assert PrefixMap(Take(prefix, 3)) == Some(h);
    } else if n == 2 {
      assert PrefixMap(Take(prefix, 3)).None? && PrefixMap(Take(prefix, 2)) == Some(h);
    } else {
      assert PrefixMap(Take(prefix, 3)).None? && PrefixMap(Take(prefix, 2)).None?;
      assert PrefixMap(Take(prefix, 1)) == Some(h);
    }
  }

  /** An operator key yields one OPERATOR token spelling the characters from `start` to `end`. */
  lemma OperatorKeyYields(src: string, s: State, n: nat)
    requires Valid(s) && s.end < |src| && s.start == s.end && 1 <= n <= 3
    requires var prefix := Slice(src, s.start, s.start + 3);
      PrefixMap(Take(prefix, n)) == Some(OperatorHandler) &&
      (n < 3 ==> PrefixMap(Take(prefix, 3)).None?) && (n < 2 ==> PrefixMap(Take(prefix, 2)).None?)
    ensures YieldsOne(Dispatch(src, s), OPERATOR, Slice(src, s.start, s.start + n))
  {
    DispatchUses(src, s, n, OperatorHandler);
  }

  /**
   * The probe at `start` is longest first: `'::='` is one operator, `'::'` not followed by
   * `'='` is one operator, and a `':'` followed by neither `':'` nor `'='` is one operator.
   */
  lemma ColonPrecedence(src: string, s: State)
    requires Valid(s) && s.end < |src| && s.start == s.end && src[s.start] == ':'
    ensures var prefix := Slice(src, s.start, s.start + 3);
      (prefix == "::=" ==> YieldsOne(Dispatch(src, s), OPERATOR, "::=")) &&
      (Take(prefix, 2) == "::" && prefix != "::=" ==> YieldsOne(Dispatch(src, s), OPERATOR, "::")) &&
      (Take(prefix, 2) != "::" && Take(prefix, 2) != ":=" ==> YieldsOne(Dispatch(src, s), OPERATOR, ":"))
  {
    var prefix := Slice(src, s.start, s.start + 3);
    assert prefix[0] == ':';
    assert Take(prefix, 1) == ":";
    if prefix == "::=" {
      OperatorKeyYields(src, s, 3);
    } else if |prefix| == 1 {
      assert Take(prefix, 3) == ":";
      OperatorKeyYields(src, s, 3);
    } else {
      assert Take(prefix, 2) == [':', prefix[1]];
      if |prefix| == 2 {
        assert Take(prefix, 3) == [':', prefix[1]];
        if prefix[1] == ':' {
          OperatorKeyYields(src, s, 3);
        } else if prefix[1] != '=' {
          OperatorKeyYields(src, s, 1);
        }
      } else {
        assert prefix == [':', prefix[1], prefix[2]];
        if prefix[1] == ':' {
          OperatorKeyYields(src, s, 2);
        } else if prefix[1] != '=' {
          OperatorKeyYields(src, s, 1);
        }
      }
    }
  }

  /** Every three-character operator wins over its two-character prefix. */
  lemma ThreeCharacterOperators(src: string, s: State)
    requires Valid(s) && s.start == s.end && s.end + 3 <= |src|
    requires ThreeCharacterOperator(src[s.start], src[s.start + 1], src[s.start + 2])
    ensures YieldsOne(Dispatch(src, s), OPERATOR, src[s.start..s.start + 3])
    ensures Dispatch(src, s).value.state.end == s.end + 3
  {
    var prefix := Slice(src, s.start, s.start + 3);
    assert prefix == src[s.start..s.start + 3];
  }

  /** All eight spellings of the combined prefix share one handler, for either quote. */
  lemma RfSpellingsShareHandler(q: char)
    requires IsQuote(q)
    ensures forall spelling :: spelling in {"FR", "Fr", "fr", "fR", "RF", "Rf", "rf", "rF"} ==>
      PrefixMap(spelling + [q]) == Some(QuoteHandler(q, true, true))
    ensures forall a, b :: ThreeCharacterHandler(a, b, q) == Some(QuoteHandler(q, true, true)) ==>
      [a, b] in {"FR", "Fr", "fr", "fR", "RF", "Rf", "rf", "rF"}
  {
  }

  /** A backslash not followed by `'\n'` or `'\r\n'` raises. */
  lemma DanglingBackslashRaises(src: string, s: State)
    requires Valid(s) && s.end < |src| && s.start == s.end && src[s.start] == '\\'
    requires Take(Slice(src, s.start, s.start + 3), 2) != "\\\n"
    requires Slice(src, s.start, s.start + 3) != "\\\r\n"
    ensures Dispatch(src, s) == Err(DanglingBackslash)
  {
    var prefix := Slice(src, s.start, s.start + 3);
    assert prefix[0] == '\\';
    assert Take(prefix, 1) == "\\";
    if |prefix| == 1 {
      assert Take(prefix, 3) == "\\";
      DispatchUses(src, s, 3, BackslashHandler);
    } else {
      assert Take(prefix, 2) == ['\\', prefix[1]];
      if |prefix| == 2 {
        assert Take(prefix, 3) == ['\\', prefix[1]];
      } else {
        assert prefix == ['\\', prefix[1], prefix[2]];
      }
      DispatchUses(src, s, 1, BackslashHandler);
    }
  }

  /** A backslash before a line break is skipped with the break, yielding nothing. */
  lemma LineContinuation(src: string, s: State)
    requires Valid(s) && s.end < |src| && s.start == s.end
    requires Slice(src, s.start, s.start + 3) == "\\\r\n" || Take(Slice(src, s.start, s.start + 3), 2) == "\\\n"
    ensures Dispatch(src, s).Ok? && Dispatch(src, s).value.yielded == []
    ensures Dispatch(src, s).value.state.start == Dispatch(src, s).value.state.end
  {
    var prefix := Slice(src, s.start, s.start + 3);
    if prefix == "\\\r\n" {
      assert Take(prefix, 3) == prefix;
      DispatchUses(src, s, 3, ConsumeHandler);
    } else if |prefix| == 2 {
      assert Take(prefix, 3) == prefix == "\\\n";
      DispatchUses(src, s, 3, ConsumeHandler);
    } else {
      assert |prefix| == 3 && prefix[..2] == "\\\n";
      assert Take(prefix, 3) == prefix && prefix[0] == '\\' && prefix[1] == '\n';
      assert PrefixMap(Take(prefix, 3)).None?;
      DispatchUses(src, s, 2, ConsumeHandler);
    }
  }

  // ---------------------------------------------------------------------------------------
  // Quotes
  // ---------------------------------------------------------------------------------------

  /**
   * A quote followed by two more of the same quote is one token covering all three, of
   * kind quote | TRIPLE_QUOTE; the string prefixes reclassify it with R_STRING, then F_STRING.
   */
  lemma QuoteOutcome(src: string, s: State, q: char, fPrefix: bool, rPrefix: bool)
    requires Valid(s) && q in "\"'"
    ensures var p := Quote(src, s, q, fPrefix, rPrefix);
      var triple := Slice(src, s.end, s.end + 2) == [q, q];
      |p.yielded| == 1 && p.yielded[0].Some? &&
      p.yielded[0].value.kind == (if triple then QuoteFlag(q) | TRIPLE_QUOTE else QuoteFlag(q)) &&
      p.yielded[0].value.literal == Slice(src, s.start, if triple then s.end + 2 else s.end) &&
      p.yielded[0].value.reclassified ==
        (if rPrefix then [R_STRING] else []) + (if fPrefix then [F_STRING] else [])
  {
  }

  /** `"""` at `start` is one DOUBLE_QUOTE | TRIPLE_QUOTE token with literal `"""`. */
  lemma TripleDoubleQuote(src: string, s: State)
    requires Valid(s) && s.start == s.end && s.end + 3 <= |src| && src[s.end..s.end + 3] == "\"\"\""
    ensures YieldsOne(Dispatch(src, s), DOUBLE_QUOTE | TRIPLE_QUOTE, "\"\"\"")
    ensures Dispatch(src, s).value.yielded[0].value.reclassified == []
  {
    var prefix := Slice(src, s.start, s.start + 3);
    assert prefix == "\"\"\"";
    assert Take(prefix, 2) == "\"\"";
    assert Take(prefix, 1) == "\"";
    assert Slice(src, s.end + 1, s.end + 3) == "\"\"";
  }

  /** `rf"""` at `start`: one token over all five characters, reclassified R_STRING then F_STRING. */
  lemma PrefixedTripleQuote(src: string, s: State)
    requires Valid(s) && s.start == s.end && s.end + 5 <= |src| && src[s.end..s.end + 5] == "rf\"\"\""
    ensures YieldsOne(Dispatch(src, s), DOUBLE_QUOTE | TRIPLE_QUOTE, "rf\"\"\"")
    ensures Dispatch(src, s).value.yielded[0].value.reclassified == [R_STRING, F_STRING]
  {
    var prefix := Slice(src, s.start, s.start + 3);
    assert prefix == "rf\"";
    assert prefix[..2] == "rf";
    assert Slice(src, s.end + 3, s.end + 5) == "\"\"";
    assert Slice(src, s.start, s.end + 5) == "rf\"\"\"";
  }

  // ---------------------------------------------------------------------------------------
  // Numbers
  // ---------------------------------------------------------------------------------------

  const AllBases: Tokentype := BASE36 | BASE16 | BASE10 | BASE08 | BASE02

  /** The flags of a numeric kind built from a base: exactly one base, NUMBER, and one of INTEGER/FLOAT. */
  lemma NumericKindFlags(base: Tokentype, point: bool, imaginary: bool, exponent: bool)
    requires base in Bases
    ensures var kind := WithFlag(WithFlag(base | NUMBER | (if point then FLOAT else INTEGER), imaginary, COMPLEX), exponent, EPSILON);
      kind & AllBases == base && kind & NUMBER != 0 &&
      kind & (INTEGER | FLOAT) == (if point then FLOAT else INTEGER) &&
      (kind & COMPLEX != 0 <==> imaginary) && (kind & EPSILON != 0 <==> exponent) &&
      kind & (COMMENT | DELIMITER | EOF) == 0
  {
  }

  /**
   * A numeric token carries its base and NUMBER; FLOAT exactly when a `'.'` follows the
   * first numeral run, else INTEGER.
   */
  lemma NumericOutcome(src: string, s: State, base: Tokentype)
    requires Valid(s) && base in Bases
    ensures var p := Numeric(src, s, base);
      var ctx := GetNumericContext(base);
      var point := Observe(src, SkipAt(src, s, ctx.numerals), 0) == ".";
      |p.yielded| == 1 && p.yielded[0].Some? &&
      p.yielded[0].value.kind & AllBases == base &&
      p.yielded[0].value.kind & NUMBER != 0 &&
      p.yielded[0].value.kind & (INTEGER | FLOAT) == (if point then FLOAT else INTEGER) &&
      p.yielded[0].value.literal == Slice(src, s.start, p.state.end)
  {
    var ctx := GetNumericContext(base);
    var whole := WholePart(src, s, ctx.numerals, base);
    var s1 := SkipAt(src, s, ctx.numerals);
    var point := Observe(src, s1, 0) == ".";
    var imaginary := LowersTo(Observe(src, whole.state, 0), ctx.imaginary);
    var s3 := AdvanceIf(whole.state, imaginary);
    var exponent := LowersTo(Observe(src, s3, 0), ctx.epsilon);
    NumericKindFlags(base, point, imaginary, exponent);
  }

  /** The numeric keys select their bases: `0x` hexadecimal, `0δ` base 36, and so on. */
  lemma NumericPrefixesSelectBase()
    ensures PrefixMap("0x") == PrefixMap("0X") == Some(NumericHandler(BASE16))
    ensures PrefixMap("0\U{03B4}") == PrefixMap("0\U{0394}") == Some(NumericHandler(BASE36))
    ensures PrefixMap("0o") == PrefixMap("0O") == Some(NumericHandler(BASE08))
    ensures PrefixMap("0b") == PrefixMap("0B") == Some(NumericHandler(BASE02))
    ensures PrefixMap(".5") == PrefixMap("7") == Some(NumericHandler(BASE10))
  {
  }

  /** Every numeric entry of the map names one of the five bases. */
  lemma NumericEntriesHaveOneBase(key: string)
    ensures PrefixMap(key).Some? && PrefixMap(key).value.NumericHandler? ==>
      PrefixMap(key).value.base in Bases
  {
  }

  /** Bases 16 and 36 read alphanumeric numerals; bases 10, 8 and 2 read all decimal digits. */
  lemma NumeralsOfBases()
    ensures GetNumericContext(BASE16).numerals == GetNumericContext(BASE36).numerals == AlphanumericDigits
    ensures GetNumericContext(BASE10).numerals == GetNumericContext(BASE08).numerals ==
      GetNumericContext(BASE02).numerals == DecimalDigits
    ensures GetNumericContext(BASE16).imaginary == '\U{03B9}' && GetNumericContext(BASE16).epsilon == '\U{03B5}'
    ensures GetNumericContext(BASE08).imaginary == 'i' && GetNumericContext(BASE08).epsilon == 'e'
  {
  }

  // ---------------------------------------------------------------------------------------
  // The whole stream
  // ---------------------------------------------------------------------------------------

  /**
   * A token the handlers yield: neither COMMENT nor DELIMITER nor EOF, and reclassified
   * only to a keyword or a string prefix.
   */
  predicate HandlerToken(t: Token)
  {
    t.kind & (COMMENT | DELIMITER | EOF) == 0 &&
    forall f :: f in t.reclassified ==> f == KEYWORD || f == F_STRING || f == R_STRING
  }

  predicate HandlerItems(items: seq<Option<Token>>)
  {
    forall i :: 0 <= i < |items| && items[i].Some? ==> HandlerToken(items[i].value)
  }

  lemma AllOfKindHandlerItems(items: seq<Option<Token>>, kind: Tokentype)
    requires AllOfKind(items, kind) && kind & (COMMENT | DELIMITER | EOF) == 0
    ensures HandlerItems(items)
  {
  }

  /** One iteration of `lex()` yields only handler tokens. */
  lemma DispatchYieldsHandlerTokens(src: string, s: State)
    requires Valid(s) && s.end < |src|
    ensures Dispatch(src, s).Ok? ==> HandlerItems(Dispatch(src, s).value.yielded)
  {
    var prefix := Slice(src, s.start, s.start + 3);
    var n := if PrefixMap(Take(prefix, 3)).Some? then 3 else if PrefixMap(Take(prefix, 2)).Some? then 2 else 1;
    var key := Take(prefix, n);
    if PrefixMap(key).Some? {
      NumericEntriesHaveOneBase(key);
      PrefixMapOpeners(key);
      HandleYieldsHandlerTokens(PrefixMap(key).value, src, Advance(s, n));
    }
  }

  lemma HandleYieldsHandlerTokens(h: Handler, src: string, s: State)
    requires Valid(s)
    requires h.ParentheticalHandler? ==> h.open in "([{"
    requires h.NumericHandler? ==> h.base in Bases
    ensures Handle(h, src, s).Ok? ==> HandlerItems(Handle(h, src, s).value.yielded)
  {
    match h
    case QuoteHandler(q, f, rp) =>
      QuoteYieldsHandlerToken(src, s, q, f, rp);
    case OperatorHandler =>
      EmitYieldsHandlerToken(src, s, OPERATOR);
    case ParentheticalHandler(open, closing) =>
      if !closing {
        EmitYieldsHandlerToken(src, s.(parentheses := s.parentheses + [open]), OPERATOR);
      } else if Last(s.parentheses) == open {
        EmitYieldsHandlerToken(src, s.(parentheses := DropLast(s.parentheses)), OPERATOR);
      }
    case IdentifierHandler =>
      IdentifierYieldsHandlerToken(src, s);
    case NumericHandler(base) =>
      NumericYieldsHandlerToken(src, s, base);
    case CommentHandler =>
    case ConsumeHandler =>
    case NewlineHandler =>
      NewlineYieldsHandlerTokens(src, s);
    case BackslashHandler =>
  }

  lemma EmitYieldsHandlerToken(src: string, s: State, kind: Tokentype)
    requires kind & (COMMENT | DELIMITER | EOF) == 0
    ensures HandlerItems(Emit(src, s, kind).yielded)
  {
    assert Emit(src, s, kind).yielded[0].value.reclassified == [];
  }

  lemma QuoteYieldsHandlerToken(src: string, s: State, q: char, fPrefix: bool, rPrefix: bool)
    requires Valid(s)
    ensures HandlerItems(Quote(src, s, q, fPrefix, rPrefix).yielded)
  {
    var p := Quote(src, s, q, fPrefix, rPrefix);
    QuoteKindBits(q, Slice(src, s.end, s.end + 2) == [q, q]);
    assert p.yielded[0].value.reclassified ==
      (if rPrefix then [R_STRING] else []) + (if fPrefix then [F_STRING] else []);
  }

  lemma QuoteKindBits(q: char, triple: bool)
    ensures (if triple then QuoteFlag(q) | TRIPLE_QUOTE else QuoteFlag(q)) & (COMMENT | DELIMITER | EOF) == 0
  {
  }

  lemma IdentifierYieldsHandlerToken(src: string, s: State)
    requires Valid(s)
    ensures HandlerItems(IdentifierOrKeyword(src, s).yielded)
  {
    var t := IdentifierOrKeyword(src, s).yielded[0].value;
    assert t.kind == IDENTIFIER;
    assert t.reclassified == [] || t.reclassified == [KEYWORD];
  }

  lemma NumericYieldsHandlerToken(src: string, s: State, base: Tokentype)
    requires Valid(s) && base in Bases
    ensures HandlerItems(Numeric(src, s, base).yielded)
  {
    NumericOutcome(src, s, base);
    var ctx := GetNumericContext(base);
    var whole := WholePart(src, s, ctx.numerals, base);
    var s1 := SkipAt(src, s, ctx.numerals);
    var imaginary := LowersTo(Observe(src, whole.state, 0), ctx.imaginary);
    var s3 := AdvanceIf(whole.state, imaginary);
    var exponent := LowersTo(Observe(src, s3, 0), ctx.epsilon);
    NumericKindFlags(base, Observe(src, s1, 0) == ".", imaginary, exponent);
  }

  lemma NewlineYieldsHandlerTokens(src: string, s: State)
    requires Valid(s)
    ensures Newline(src, s).Ok? ==> HandlerItems(Newline(src, s).value.yielded)
  {
    NewlineCases(src, s);
  }

  /**
   * The shape of a whole stream: every token before the last is a handler token (so
   * COMMENT and DELIMITER never occur and EOF occurs once), the last item is the EOF token,
   * and the indentation stack ends empty.
   */
  predicate Shaped(r: Result<Progress, LexError>)
  {
    r.Ok? ==>
      |r.value.yielded| > 0 &&
      HandlerItems(r.value.yielded[..|r.value.yielded| - 1]) &&
      Last(r.value.yielded).Some? && Last(r.value.yielded).value.kind == EOF &&
      r.value.state.indentation == []
  }

  /** Handler tokens in front of a shaped outcome leave it shaped. */
  lemma ShapedPrepend(items: seq<Option<Token>>, r: Result<Progress, LexError>)
    requires HandlerItems(items) && Shaped(r)
    ensures Shaped(Prepend(items, r))
  {
    if r.Ok? {
      var rest := r.value.yielded;
      var all := items + rest;
      assert all[..|all| - 1] == items + rest[..|rest| - 1];
    }
  }

  /** The outcome of `eof()` is shaped: DEDENT tokens, then the EOF token. */
  lemma EofShaped(src: string, s: State)
    requires Valid(s)
    ensures Shaped(Ok(Eof(src, s)))
  {
    EofShape(src, s);
    var p := Eof(src, s);
    AllOfKindHandlerItems(p.yielded[..|p.yielded| - 1], DEDENT);
  }

  /** `lex()` from any valid state produces a shaped stream, or raises. */
  lemma {:induction false} RunShape(src: string, s: State)
    requires Valid(s)
    ensures Shaped(Run(src, s))
    decreases |src| - s.end
  {
    if s.end < |src| {
      DispatchYieldsHandlerTokens(src, s);
      var d := Dispatch(src, s);
      if d.Ok? {
        RunShape(src, d.value.state);
        ShapedPrepend(d.value.yielded, Run(src, d.value.state));
      }
    } else {
      EofShaped(src, s);
    }
  }

  /** No token of the stream is marked COMMENT or DELIMITER. */
  predicate NoCommentOrDelimiter(items: seq<Option<Token>>)
  {
    forall i :: 0 <= i < |items| && items[i].Some? ==> items[i].value.kind & (COMMENT | DELIMITER) == 0
  }

  /** The last item is the EOF token, and no earlier token is marked EOF. */
  predicate EofOnlyLast(items: seq<Option<Token>>)
  {
    |items| > 0 && Last(items).Some? && Last(items).value.kind == EOF &&
    forall i :: 0 <= i < |items| - 1 && items[i].Some? ==> items[i].value.kind & EOF == 0
  }

  /** The kinds in a shaped stream: EOF only at the end, COMMENT and DELIMITER nowhere. */
  lemma ShapedKinds(r: Result<Progress, LexError>)
    requires Shaped(r) && r.Ok?
    ensures EofOnlyLast(r.value.yielded) && NoCommentOrDelimiter(r.value.yielded)
  {
    var y := r.value.yielded;
    forall i | 0 <= i < |y| && y[i].Some?
      ensures y[i].value.kind & (COMMENT | DELIMITER) == 0
    {
      if i < |y| - 1 {
        assert y[..|y| - 1][i] == y[i];
        BitsOfHandlerToken(y[i].value.kind);
      } else {
        EofBits(y[i].value.kind);
      }
    }
    forall i | 0 <= i < |y| - 1 && y[i].Some?
      ensures y[i].value.kind & EOF == 0
    {
      assert y[..|y| - 1][i] == y[i];
      BitsOfHandlerToken(y[i].value.kind);
    }
  }

  /**
   * The stream of `lex()` from any valid state, and so from the state of a fresh lexer
   * (`InitialIsValid`), ends with exactly one EOF and holds no COMMENT or DELIMITER.
   */
  lemma RunKinds(src: string, s: State)
    requires Valid(s)
    ensures Run(src, s).Ok? ==> EofOnlyLast(Run(src, s).value.yielded) && NoCommentOrDelimiter(Run(src, s).value.yielded)
  {
    RunShape(src, s);
    if Run(src, s).Ok? {
      ShapedKinds(Run(src, s));
    }
  }

  lemma EofBits(kind: Tokentype)
    requires kind == EOF
    ensures kind & (COMMENT | DELIMITER) == 0
  {
  }

  lemma BitsOfHandlerToken(kind: Tokentype)
    requires kind & (COMMENT | DELIMITER | EOF) == 0
    ensures kind & (COMMENT | DELIMITER) == 0 && kind & EOF == 0
  {
  }

}
