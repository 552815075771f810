# Outfoxed front end in Dafny

This project models the compiler front end of Outfoxed and proves properties of the model.
The front end has five parts:

- **The Fox lexer.** This is the indentation-sensitive lexer for Fox source text. It has a
  prefix map of one- to three-character keys, an indentation stack whose bottom is 0, and a
  bracket stack whose bottom is `'|'`. Its token types are a 24-member bit-flag enumeration.
- **The grammar-file lexer over a string.** It has a prefix map that tries two-character keys
  before one-character keys, a bracket stack, and a one-token lookahead (`peek`/`next`). Its
  token types are a 23-member bit-flag enumeration.
- **The UTF-8 codec and the codepoint lexer.** The codec decodes a byte buffer with the byte
  layouts of section 3 of RFC 3629 through a two-codepoint window. The codepoint lexer is the
  same grammar-language lexer, run over that codepoint stream. It builds each token's literal
  in a buffer.
- **The recursive-descent grammar parser and its node tree.** The parser works over the
  token stream with a cursor. Missing pieces are `None`. The tree is one datatype with the
  `start`/`end` properties and the string forms of the node classes.
- **The printer.** It renders a node tree as indented text, four spaces per level.

The model follows the source's own form.

- Each lexer, the codec and the parser is a `class` with the source's fields. Its methods
  change those fields and run the source's `while` loops, with invariants.
- Each method is proved against a pure specification function in a `*_spec.dfy` module.
  Its `ensures` says that its result and its new fields are what that function gives. For
  example, `FoxLexer.Lexer.Lex` reports `FoxLexerSpec.Run(source, old(State()))`.
- The properties of the source are proved about those functions in `*_properties.dfy`. For
  example, `RunKinds` says EOF comes only last, and `StreamShape` says the stream is in order
  and ends with one EOF.
- The node tree and the printer are pure code in the source, so they are datatypes,
  functions and lemmas here.

Where the stated design and the code disagree, the model follows the code:

- **Definition separator.** A grammar definition is a signature, an optional `:=` (WALRUS),
  then the productions. It is not `::=` (`Preparsing/Parser/Parser.py:435-441`).
- **Missing pieces.** When the parser finds no node, it returns `None`, not an Error node. So
  the tree holds `Option<Node>` children (`Preparsing/Parser/Parser.py:290-299`).
- **No progress in `parse()`.** `parse()` loops forever when a definition consumes nothing,
  for example at a stray `)`. The specification function `Definitions` returns `Diverges` in
  that case, and `StrayCloserDiverges` proves that it happens.
- **Codepoint identifiers.** The codepoint lexer's identifiers are letters and `_` only.
  Digits end them, and every digit is a NUMBER token of its own.
- **Codepoint line breaks.** The codepoint lexer's two-codepoint line-break key is newline
  followed by carriage return, in that order. A carriage return at the current position
  raises.
- **Codepoint comments.** A codepoint-lexer comment checks no characters. It never ends at
  the end of input, so the specification gives `EndlessComment` there.
- **String lexer strings.** In the string lexer, an unterminated string raises "unrecognized
  character". The unterminated-string branch is unreachable (`NoStringIsUnterminated`).
- **Codepoint erroneous characters.** The codepoint lexer's `erroneous()` reads a `source`
  attribute that the class does not have. So the model raises `MissingSource` there.

## Model

| member | source | states |
|---|---|---|
| FoxTokentype.MembersAreSuccessiveBits | Lexing/Tokens/Tokentype.py:11-40 | there are 24 members, and member k is the single bit 2^k, in declaration order from IDENTIFIER = 1 to EOF = 2^23 |
| FoxTokentype.MembersAreDisjoint | Lexing/Tokens/Tokentype.py:13-40 | two different members share no bit |
| FoxTokentype.MemberTest | Lexing/Tokens/Tokentype.py:13-40 | `&` of two members is nonzero exactly when they are the same member, and equality holds exactly then too |
| FoxTokentype.UnionTestIsMembership | Compilation/Lexing/Lexer/Lexer.py:252 | testing a member with `&` against a union of members (such as BASE36 \| BASE16) is nonzero exactly when the member is one of the union |
| FoxLexerSpec.Slice | Compilation/Lexing/Lexer/Lexer.py:557 | Python's clamped `source[i:j]`: its length is cut at the end of the input and it holds the characters from `i` |
| FoxLexerSpec.Take | Compilation/Lexing/Lexer/Lexer.py:559-569 | the first `n` characters, or all of a shorter text, as a Python slice `[:n]` gives |
| FoxLexerSpec.Observe | Compilation/Lexing/Lexer/Lexer.py:114-119 | the character `d` places past `end` when one is there, else the empty string |
| FoxLexerProperties.AdvanceShiftsObservation | Compilation/Lexing/Lexer/Lexer.py:103-119 | `FoxLexerSpec.Advance` with `FoxLexerSpec.Observe`: after `advance(d)`, `observe(k)` shows what `observe(d + k)` showed before; two advances add up; the invariant is kept and `start` stays |
| FoxLexerProperties.ConsumeStartsEmptyToken | Compilation/Lexing/Lexer/Lexer.py:92-97 | `FoxLexerSpec.Consume`: the invariant is kept and `end` stays; a token built right after it is empty and begins at `end`; a second `consume()` changes nothing |
| FoxLexerProperties.EmitTakesSpan | Compilation/Lexing/Lexer/Lexer.py:125-130 | `FoxLexerSpec.TokenAt` and `FoxLexerSpec.Emit`: `token(type)` yields exactly one token, whose literal within the source is `source[start:end]`, of length `end - start`; the state it leaves is valid with nothing pending, so the next token begins where this one ended |
| FoxLexerProperties.SkipAtCrossesRun | Compilation/Lexing/Lexer/Lexer.py:187-188 | `FoxLexerSpec.SkipAt`: a `while observe() in chars and advance()` loop keeps the invariant and `start`, moves `end` and `column` together over characters of the run only, and stops at the end of input or at the first character outside the run |
| FoxLexerSpec.SkipRun | Compilation/Lexing/Lexer/Lexer.py:187-188 | the end of the longest run of the class's characters from `i`: every character before it is in the class, and the character at it is not |
| FoxLexerSpec.CommentEnd | Compilation/Lexing/Lexer/Lexer.py:147-152 | the comment scan stops at a line break or the end of input, over comment characters only; any other character raises unrecognized character |
| FoxLexerSpec.Comment | Compilation/Lexing/Lexer/Lexer.py:136-154 | a comment yields only the bare `None` item and leaves `start` where it was |
| FoxLexerSpec.Dedents | Compilation/Lexing/Lexer/Lexer.py:170-173 | the pop loop keeps a valid indentation stack and does not move `end` |
| FoxLexerSpec.DedentsStep | Compilation/Lexing/Lexer/Lexer.py:170-173 | one turn of the pop loop is a pop, one DEDENT token, and the loop again from the popped state |
| FoxLexerSpec.IndentsAndDedents | Compilation/Lexing/Lexer/Lexer.py:160-175 | on success the stacks stay valid (the indentation stack starts at 0 and strictly increases) and `end` does not move |
| FoxLexerSpec.Newline | Compilation/Lexing/Lexer/Lexer.py:181-206 | on success the stacks stay valid and `end` moves forward only |
| FoxLexerProperties.KeywordReclassification | Compilation/Lexing/Lexer/Lexer.py:212-226 | `FoxLexerSpec.OrKeyword` and `FoxLexerSpec.Reclassify`: a token gains a KEYWORD reclassification exactly when its literal is a reserved word, is returned unchanged exactly when it is not, and nothing else of it changes either way |
| FoxLexerSpec.IdentifierOrKeyword | Compilation/Lexing/Lexer/Lexer.py:232-244 | the identifier scan keeps the state valid and moves `end` forward only |
| FoxLexerSpec.Numeric | Compilation/Lexing/Lexer/Lexer.py:269-304 | the number scan keeps the state valid and moves `end` forward only |
| FoxLexerSpec.WholePart | Compilation/Lexing/Lexer/Lexer.py:273-282 | the digits, the radix point and the digits after it move only `end` and `column`, both forward |
| FoxLexerSpec.Markers | Compilation/Lexing/Lexer/Lexer.py:287-293 | the imaginary and exponent markers move only `end` and `column`, both forward |
| FoxLexerSpec.FractionPart | Compilation/Lexing/Lexer/Lexer.py:295-302 | the digits after the markers move only `end` and `column`, both forward |
| FoxLexerSpec.Quote | Compilation/Lexing/Lexer/Lexer.py:310-342 | a quote token keeps the state valid and moves `end` forward only |
| FoxLexerSpec.Parenthetical | Compilation/Lexing/Lexer/Lexer.py:348-358 | on success the stacks stay valid and `end` does not move |
| FoxLexerSpec.EofDedents | Compilation/Lexing/Lexer/Lexer.py:366-368 | the end-of-input pop loop changes neither `end`, line, column nor the bracket stack |
| FoxLexerSpec.DedentsAfterPop | Compilation/Lexing/Lexer/Lexer.py:366-368 | after one pop, the rest of the loop changes neither `end`, line, column nor the bracket stack |
| FoxLexerSpec.Handle | Compilation/Lexing/Lexer/Lexer.py:375-547 | every handler of the prefix map keeps the state valid and moves `end` forward only |
| FoxLexerSpec.PrefixMapOpeners | Compilation/Lexing/Lexer/Lexer.py:446-451 | every bracket entry of the prefix map names an opening bracket |
| FoxLexerSpec.Dispatch | Compilation/Lexing/Lexer/Lexer.py:553-574 | one iteration of `lex` keeps the state valid and moves `end` strictly forward, which is why `lex` ends |
| FoxLexer.Lexer.constructor | Compilation/Lexing/Lexer/Lexer.py:42-59 | a fresh lexer has both markers at 0, the indentation stack `[0]` and the bracket stack `['\|']` |
| FoxLexer.Lexer.Advance | Compilation/Lexing/Lexer/Lexer.py:103-108 | the new fields are those of `FoxLexerSpec.Advance` |
| FoxLexer.Lexer.Consume | Compilation/Lexing/Lexer/Lexer.py:92-97 | the new fields are those of `FoxLexerSpec.Consume` |
| FoxLexer.Lexer.Observe | Compilation/Lexing/Lexer/Lexer.py:114-119 | returns the observation of `FoxLexerSpec.Observe` and changes nothing |
| FoxLexer.Lexer.Token | Compilation/Lexing/Lexer/Lexer.py:125-130 | returns the token of `TokenAt` and resets `start` |
| FoxLexer.Lexer.SkipRun | Compilation/Lexing/Lexer/Lexer.py:187-188 | the `while observe() in charset` loop advances exactly over the run `SkipRun` finds |
| FoxLexer.Lexer.Comment | Compilation/Lexing/Lexer/Lexer.py:136-154 | the yielded items, the error and the new fields are those of `FoxLexerSpec.Comment` |
| FoxLexer.Lexer.IndentsAndDedents | Compilation/Lexing/Lexer/Lexer.py:160-175 | the yielded tokens, the error and the new fields are those of `FoxLexerSpec.IndentsAndDedents` |
| FoxLexer.Lexer.Dedents | Compilation/Lexing/Lexer/Lexer.py:170-173 | the pop loop yields the tokens and leaves the fields of `FoxLexerSpec.Dedents` |
| FoxLexer.Lexer.PopDedent | Compilation/Lexing/Lexer/Lexer.py:172-173 | one pop removes the top width and yields the DEDENT token that `Dedents` puts first |
| FoxLexer.Lexer.CountSpaces | Compilation/Lexing/Lexer/Lexer.py:187-188 | the spaces loop advances over the run of spaces, and the count it returns is the run's length |
| FoxLexer.Lexer.Newline | Compilation/Lexing/Lexer/Lexer.py:181-206 | the yielded items, the error and the new fields are those of `FoxLexerSpec.Newline` |
| FoxLexer.Lexer.IdentifierOrKeyword | Compilation/Lexing/Lexer/Lexer.py:232-244 | the token and the new fields are those of `FoxLexerSpec.IdentifierOrKeyword` |
| FoxLexer.Lexer.AdvanceIf | Compilation/Lexing/Lexer/Lexer.py:287-289 | advances one character exactly when the test holds |
| FoxLexer.Lexer.Numeric | Compilation/Lexing/Lexer/Lexer.py:269-304 | the token and the new fields are those of `FoxLexerSpec.Numeric` |
| FoxLexer.Lexer.WholePart | Compilation/Lexing/Lexer/Lexer.py:273-282 | the kind so far and the new fields are those of `FoxLexerSpec.WholePart` |
| FoxLexer.Lexer.Markers | Compilation/Lexing/Lexer/Lexer.py:287-293 | the kind so far and the new fields are those of `FoxLexerSpec.Markers` |
| FoxLexer.Lexer.FractionPart | Compilation/Lexing/Lexer/Lexer.py:295-302 | the new fields are those of `FoxLexerSpec.FractionPart` |
| FoxLexer.Lexer.Quote | Compilation/Lexing/Lexer/Lexer.py:310-342 | the token and the new fields are those of `FoxLexerSpec.Quote` |
| FoxLexer.Lexer.Parenthetical | Compilation/Lexing/Lexer/Lexer.py:348-358 | the token, the error and the new fields are those of `FoxLexerSpec.Parenthetical` |
| FoxLexer.Lexer.Pop | Compilation/Lexing/Lexer/Lexer.py:366 | returns the top width and removes it from the indentation stack, and nothing else changes |
| FoxLexer.Lexer.Eof | Compilation/Lexing/Lexer/Lexer.py:364-369 | the yielded tokens and the new fields are those of `FoxLexerSpec.Eof` |
| FoxLexer.Lexer.Handle | Compilation/Lexing/Lexer/Lexer.py:375-547 | runs the handler a key selected, with the outcome of `FoxLexerSpec.Handle` |
| FoxLexer.Lexer.Step | Compilation/Lexing/Lexer/Lexer.py:556-574 | one iteration of the `lex` loop, with the outcome of `FoxLexerSpec.Dispatch` |
| FoxLexer.Lexer.Lex | Compilation/Lexing/Lexer/Lexer.py:553-576 | the whole stream, the error and the final fields are those of `FoxLexerSpec.Run` from the lexer's state |
| FoxLexerProperties.InitialIsValid | Compilation/Lexing/Lexer/Lexer.py:55-57 | the stacks of a fresh lexer, `[0]` and `['\|']`, meet the invariant every operation keeps |
| FoxLexerProperties.DedentsPopWiderLevels | Compilation/Lexing/Lexer/Lexer.py:170-173 | the pop loop removes exactly the widths above `w`, one DEDENT each, and leaves a prefix of the stack whose top is at most `w` (equal to `w` when `w` is on the stack) |
| FoxLexerProperties.IndentsAndDedentsOutcome | Compilation/Lexing/Lexer/Lexer.py:160-175 | raises exactly when the width is below the top and not on the stack; otherwise the top becomes the width and `start` is reset; a wider line pushes it with exactly one INDENT; a narrower line yields one DEDENT per popped level |
| FoxLexerProperties.NewlineCases | Compilation/Lexing/Lexer/Lexer.py:181-206 | inside brackets nothing happens; at depth 1 the leading spaces are counted; a following line break or `#` yields no NEWLINE; a tab raises; otherwise NEWLINE comes first, then only INDENT or only DEDENT tokens, and the top becomes the width |
| FoxLexerProperties.ParentheticalOutcome | Compilation/Lexing/Lexer/Lexer.py:348-358 | an opener pushes itself; a closer raises exactly when the top is not its opener, so an unmatched closer at the base `'\|'` always fails; otherwise it pops; either way one OPERATOR token |
| FoxLexerProperties.BracketEntries | Compilation/Lexing/Lexer/Lexer.py:446-451 | each opener's entry pushes it, and each closer's entry checks for its own opener |
| FoxLexerProperties.ParentheticalKeys | Compilation/Lexing/Lexer/Lexer.py:446-451 | the bracket entries are exactly the six one-character keys of the brackets, and the closing ones are `)`, `]` and `}` |
| FoxLexerProperties.EofDedentsCount | Compilation/Lexing/Lexer/Lexer.py:366-368 | popping a stack with base 0 yields one DEDENT per width above the base and empties the stack |
| FoxLexerProperties.EofShape | Compilation/Lexing/Lexer/Lexer.py:364-369 | `FoxLexerSpec.Eof`: `eof()` yields one DEDENT per stack entry above the base 0, then exactly one EOF token |
| FoxLexerProperties.EofShaped | Compilation/Lexing/Lexer/Lexer.py:364-369 | what `eof()` yields is a well-shaped tail: DEDENTs, then the single EOF token |
| FoxLexerProperties.PrefixMapKeys | Compilation/Lexing/Lexer/Lexer.py:375-547 | `FoxLexerSpec.PrefixMap`: every key is one to three characters long and starts with a key initial |
| FoxLexerProperties.UnrecognizedCharacterRaises | Compilation/Lexing/Lexer/Lexer.py:569-574 | a position whose character begins no key raises unrecognized character |
| FoxLexerProperties.DispatchUses | Compilation/Lexing/Lexer/Lexer.py:556-568 | the longest mapped key at `start` wins: the iteration advances by its length and runs its handler |
| FoxLexerProperties.OperatorKeyYields | Compilation/Lexing/Lexer/Lexer.py:404-444 | an operator key yields one OPERATOR token that spells the key |
| FoxLexerProperties.ColonPrecedence | Compilation/Lexing/Lexer/Lexer.py:404-444 | `::=` beats `::`, which beats `:` |
| FoxLexerProperties.ThreeCharacterOperators | Compilation/Lexing/Lexer/Lexer.py:404-407 | each three-character operator is one token over its three characters, never split at its two-character prefix |
| FoxLexerProperties.RfSpellingsShareHandler | Compilation/Lexing/Lexer/Lexer.py:377-392 | all eight spellings of `rf`/`fr` before either quote share one handler, and no other three-character key selects it |
| FoxLexerProperties.DanglingBackslashRaises | Compilation/Lexing/Lexer/Lexer.py:541-545 | a backslash not followed by `\n` or `\r\n` raises the backslash error |
| FoxLexerProperties.LineContinuation | Compilation/Lexing/Lexer/Lexer.py:541-545 | a backslash before a line break is skipped with the break; nothing is yielded and `start` is reset |
| FoxLexerProperties.QuoteOutcome | Compilation/Lexing/Lexer/Lexer.py:310-342 | a quote yields one token of its quote kind; when two more of the same quote follow it is also TRIPLE_QUOTE and covers all three; the prefixes reclassify it R_STRING, then F_STRING |
| FoxLexerProperties.TripleDoubleQuote | Compilation/Lexing/Lexer/Lexer.py:393-402 | `"""` is one DOUBLE_QUOTE \| TRIPLE_QUOTE token over the three quotes |
| FoxLexerProperties.PrefixedTripleQuote | Compilation/Lexing/Lexer/Lexer.py:377-392 | `rf"""` is one token over all five characters, reclassified R_STRING then F_STRING |
| FoxLexerProperties.NumericKindFlags | Lexing/Tokens/Tokentype.py:25-34 | a numeric kind built from a base has exactly that base, NUMBER, exactly one of INTEGER and FLOAT, COMPLEX exactly when imaginary, EPSILON exactly when there is an exponent, and never COMMENT, DELIMITER or EOF |
| FoxLexerProperties.NumericOutcome | Compilation/Lexing/Lexer/Lexer.py:269-304 | a number is one token with exactly its base flag and NUMBER; FLOAT when a `.` follows the first digit run, else INTEGER; its literal is all the text it scanned |
| FoxLexerProperties.NumericPrefixesSelectBase | Compilation/Lexing/Lexer/Lexer.py:507-534 | `0x`/`0X` give BASE16, `0δ`/`0Δ` BASE36, `0o`/`0O` BASE08, `0b`/`0B` BASE02, and a digit or `.digit` BASE10 |
| FoxLexerProperties.NumericEntriesHaveOneBase | Compilation/Lexing/Lexer/Lexer.py:507-534 | every numeric entry names one of the five bases |
| FoxLexerProperties.NumeralsOfBases | Compilation/Lexing/Lexer/Lexer.py:250-263 | `FoxLexerSpec.GetNumericContext`: bases 16 and 36 read alphanumeric numerals with `ι`/`ε`; bases 10, 8 and 2 read all decimal digits with `i`/`e` |
| FoxLexerProperties.DispatchYieldsHandlerTokens | Compilation/Lexing/Lexer/Lexer.py:553-574 | one iteration yields only `None` items or tokens without COMMENT, DELIMITER or EOF |
| FoxLexerProperties.HandleYieldsHandlerTokens | Compilation/Lexing/Lexer/Lexer.py:375-547 | no handler yields a token marked COMMENT, DELIMITER or EOF |
| FoxLexerProperties.NewlineYieldsHandlerTokens | Compilation/Lexing/Lexer/Lexer.py:181-206 | a line break yields only NEWLINE, INDENT, DEDENT or the comment's `None` |
| FoxLexerProperties.ShapedPrepend | Compilation/Lexing/Lexer/Lexer.py:553-576 | items without COMMENT, DELIMITER or EOF in front of a shaped stream keep it shaped |
| FoxLexerProperties.RunShape | Compilation/Lexing/Lexer/Lexer.py:553-576 | `FoxLexerSpec.Run`: `lex()` from any valid state raises or yields handler items, then DEDENTs, then one EOF, and leaves the indentation stack empty |
| FoxLexerProperties.ShapedKinds | Compilation/Lexing/Lexer/Lexer.py:576 | in such a stream EOF is the last item and only there, and no token is COMMENT or DELIMITER |
| FoxLexerProperties.RunKinds | Compilation/Lexing/Lexer/Lexer.py:553-576 | `FoxLexerSpec.Run`: every stream `lex()` completes ends with the only EOF token, and no token in it is marked COMMENT or DELIMITER: the COMMENT generator never runs and brackets are OPERATOR |
| GrammarTokentype.MembersAreSuccessiveBits | Compilation/Preparsing/Lexer/Tokentype.py:11-39 | there are 23 members, and member k is the single bit 2^k, in declaration order |
| GrammarTokentype.MembersAreDisjoint | Compilation/Preparsing/Lexer/Tokentype.py:13-39 | two different members share no bit |
| GrammarTokentype.MemberTest | Compilation/Preparsing/Lexer/Tokentype.py:13-39 | `&` of two members is nonzero exactly when they are the same member |
| GrammarTokentype.SingleBitsTest | Compilation/Preparsing/Lexer/Tokentype.py:13-39 | two single-bit types share a bit exactly when they are equal, so an `&` test is an equality test |
| GrammarTokentype.MemberIsExactlyOne | Compilation/Preparsing/Lexer/Tokentype.py:13-39 | every member carries exactly one member, itself |
| GrammarTokentype.UnionTestIsMembership | Compilation/Preparsing/Lexer/Tokentype.py:13-39 | `&` against a union of members is nonzero exactly when the member is in the union |
| GrammarLexerSpec.Observe | Compilation/Preparsing/Lexer/Lexer.py:85-90 | the character at `end`, or the empty string at the end of the source |
| GrammarLexerProperties.AdvanceTakesObserved | Compilation/Preparsing/Lexer/Lexer.py:85-103 | `GrammarLexerSpec.Advance` with `GrammarLexerSpec.Observe`: `advance()` takes exactly the character `observe()` shows, so the pending text grows by it and `end` moves by one; at the end of the source nothing changes; the invariant is kept and `start` stays |
| GrammarLexerProperties.ConsumeClosesLiteral | Compilation/Preparsing/Lexer/Lexer.py:109-131 | `GrammarLexerSpec.Consume` and `GrammarLexerSpec.Emit`: `consume()`, `ignore()` and every built token leave a valid state with nothing pending; `end` stays, and a second `consume()` changes nothing |
| GrammarLexerSpec.IdentifierEnd | Compilation/Preparsing/Lexer/Lexer.py:139-140 | the end of the greedy run of letters, digits and `_` |
| GrammarLexerSpec.StringEnd | Compilation/Preparsing/Lexer/Lexer.py:157-169 | finds the next identical quote over ASCII symbols only; anything else, including a line break, a tab and the end of the source, raises unrecognized character |
| GrammarLexerSpec.CommentEnd | Compilation/Preparsing/Lexer/Lexer.py:179-185 | the comment scan stops at `\r`, `\n` or the end of the source, and raises on any character outside ASCII symbols |
| GrammarLexerSpec.Comment | Compilation/Preparsing/Lexer/Lexer.py:177-187 | a comment yields no token |
| GrammarLexerSpec.PrefixMap | Compilation/Preparsing/Lexer/Lexer.py:216-322 | every entry's bracket handler opens with `(`, `[` or `{` |
| GrammarLexerSpec.Slice | Compilation/Preparsing/Lexer/Lexer.py:339 | Python's clamped `source[i:j]` |
| GrammarLexerSpec.StepKeepsValid | Compilation/Preparsing/Lexer/Lexer.py:328-348 | `GrammarLexerSpec.Step`: one loop iteration keeps the state valid and moves `end` strictly forward |
| GrammarLexerSpec.HandleKeepsValid | Compilation/Preparsing/Lexer/Lexer.py:216-322 | `GrammarLexerSpec.Handle`: every handler keeps the state valid and moves `end` forward only |
| GrammarLexerSpec.PullAfterStep | Compilation/Preparsing/Lexer/Lexer.py:328-348 | `GrammarLexerSpec.Pull`: a resumption of the generator is the next iteration: it raises its error, stops at its token, or goes on past an iteration that yields nothing |
| GrammarLexerSpec.PullProgress | Compilation/Preparsing/Lexer/Lexer.py:328-348 | `GrammarLexerSpec.Pull`: each resumption that returns gives a token, and either finishes the generator or moves `end` strictly forward |
| GrammarLexer.Lexer.Fresh | Compilation/Preparsing/Lexer/Lexer.py:62-78 | the fields `__init__` sets before it primes the lookahead: markers at 0, line and column 1, the stack `['\|']`, no lookahead |
| GrammarLexer.Lexer.Open | Compilation/Preparsing/Lexer/Lexer.py:62-79 | construction with the priming `next()`: raises exactly when that `next()` raises, else the generator and the lookahead are those after it |
| GrammarLexer.Lexer.Observe | Compilation/Preparsing/Lexer/Lexer.py:85-90 | returns the observation of `GrammarLexerSpec.Observe` and changes nothing |
| GrammarLexer.Lexer.Advance | Compilation/Preparsing/Lexer/Lexer.py:96-103 | returns the character at `end` and moves past it, as `GrammarLexerSpec.Advance` says |
| GrammarLexer.Lexer.Consume | Compilation/Preparsing/Lexer/Lexer.py:109-113 | returns `source[start:end]` and sets `start := end` |
| GrammarLexer.Lexer.Operator | Compilation/Preparsing/Lexer/Lexer.py:130-131 | the token and the new fields are those of `Emit` |
| GrammarLexer.Lexer.Identifier | Compilation/Preparsing/Lexer/Lexer.py:137-142 | the token and the new fields are those of `GrammarLexerSpec.Identifier` |
| GrammarLexer.Lexer.String | Compilation/Preparsing/Lexer/Lexer.py:155-171 | the token, the error and the new fields are those of `GrammarLexerSpec.String` |
| GrammarLexer.Lexer.Comment | Compilation/Preparsing/Lexer/Lexer.py:177-187 | the error and the new fields are those of `GrammarLexerSpec.Comment` |
| GrammarLexer.Lexer.Parenthetical | Compilation/Preparsing/Lexer/Lexer.py:193-203 | the token, the error and the new fields are those of `GrammarLexerSpec.Parenthetical` |
| GrammarLexer.Lexer.Handle | Compilation/Preparsing/Lexer/Lexer.py:216-322 | runs the handler a key selected, with the outcome of `GrammarLexerSpec.Handle` |
| GrammarLexer.Lexer.Step | Compilation/Preparsing/Lexer/Lexer.py:330-346 | one iteration of the `tokenize` loop, with the outcome of `GrammarLexerSpec.Step` |
| GrammarLexer.Lexer.Pull | Compilation/Preparsing/Lexer/Lexer.py:328-348 | one `next(self.tokenizer)`: the token, the error and the new generator of `GrammarLexerSpec.Pull` |
| GrammarLexer.Lexer.Peek | Compilation/Preparsing/Lexer/Lexer.py:354-355 | returns the lookahead token |
| GrammarLexer.Lexer.Next | Compilation/Preparsing/Lexer/Lexer.py:361-372 | returns the old lookahead and loads the following one, as `GrammarLexerSpec.Next` says |
| GrammarLexerProperties.DoubleKeys | Compilation/Preparsing/Lexer/Lexer.py:216-322 | the two-character keys are exactly `**`, `++`, `:=` and `\r\n`, all operators |
| GrammarLexerProperties.UnmappedCharacters | Compilation/Preparsing/Lexer/Lexer.py:216-322 | exactly the letters, digits, brackets, `\|*+,=#'"`, the erroneous characters, space, tab and newline have one-character entries |
| GrammarLexerProperties.StepAtDoubleKey | Compilation/Preparsing/Lexer/Lexer.py:339-344 | at a two-character key both characters are taken, then its handler runs |
| GrammarLexerProperties.StepAtSingleKey | Compilation/Preparsing/Lexer/Lexer.py:339-346 | a one-character key runs its handler only when no two-character key begins there |
| GrammarLexerProperties.UnrecognizedCharacterRaises | Compilation/Preparsing/Lexer/Lexer.py:346 | a character with no entry that begins no two-character key raises unrecognized character |
| GrammarLexerProperties.TwoCharacterOperators | Compilation/Preparsing/Lexer/Lexer.py:216-322 | `**`, `++`, `:=` and `\r\n` are one token each, never two one-character tokens |
| GrammarLexerProperties.LoneColonRaises | Compilation/Preparsing/Lexer/Lexer.py:216-322 | a colon not followed by `=` raises |
| GrammarLexerProperties.LoneCarriageReturnRaises | Compilation/Preparsing/Lexer/Lexer.py:216-322 | a carriage return not followed by a newline raises |
| GrammarLexerProperties.UnderscoreRaises | Compilation/Preparsing/Lexer/Lexer.py:216-322 | `_` continues an identifier but cannot begin a token, so it raises |
| GrammarLexerProperties.ErroneousCharacterRaises | Compilation/Preparsing/Lexer/Lexer.py:209-210 | every character of the erroneous entries raises the erroneous-character error |
| GrammarLexerProperties.ErroneousEntry | Compilation/Preparsing/Lexer/Lexer.py:216-322 | an erroneous character has the erroneous handler and begins no two-character key |
| GrammarLexerProperties.IdentifierRun | Compilation/Preparsing/Lexer/Lexer.py:137-142 | `GrammarLexerSpec.Identifier`, through `Step`: a letter begins an IDENTIFIER token over the greedy run of letters, digits and `_` that starts there |
| GrammarLexerProperties.NumberIsOneDigit | Compilation/Preparsing/Lexer/Lexer.py:148-149 | a digit is a one-digit NUMBER token even when more digits follow |
| GrammarLexerProperties.LineBreaksAtAnyDepth | Compilation/Preparsing/Lexer/Lexer.py:320-321 | `\n` and `\r\n` are one EOL token each, whatever the bracket depth |
| GrammarLexerProperties.StringEndFindsClosingQuote | Compilation/Preparsing/Lexer/Lexer.py:157-169 | the string scan finds `j` exactly when `j` is the next identical quote and only ASCII symbols come before it |
| GrammarLexerProperties.QuotedString | Compilation/Preparsing/Lexer/Lexer.py:155-171 | `GrammarLexerSpec.String`, through `Step`: a quote succeeds exactly when its string closes; the STRING token runs from the opening quote through the closing one; otherwise unrecognized character |
| GrammarLexerProperties.StringStep | Compilation/Preparsing/Lexer/Lexer.py:216-322 | an iteration at a quote is one run of the string handler for that quote |
| GrammarLexerProperties.NoStringIsUnterminated | Compilation/Preparsing/Lexer/Lexer.py:163-166 | the unterminated-literal branch is never taken |
| GrammarLexerProperties.StepNeverUnterminated | Compilation/Preparsing/Lexer/Lexer.py:328-348 | no iteration raises the unterminated-literal error |
| GrammarLexerProperties.CommentToLineEnd | Compilation/Preparsing/Lexer/Lexer.py:177-187 | `#` raises exactly when the comment scan does; otherwise nothing is yielded and the markers stop at the line break or the end of the source |
| GrammarLexerProperties.CommentStep | Compilation/Preparsing/Lexer/Lexer.py:216-322 | an iteration at `#` is one run of the comment handler |
| GrammarLexerProperties.CommentScan | Compilation/Preparsing/Lexer/Lexer.py:177-187 | the comment handler yields nothing and stops at the line break, or raises exactly when its scan does |
| GrammarLexerProperties.OpenerPushes | Compilation/Preparsing/Lexer/Lexer.py:193-203 | `GrammarLexerSpec.Parenthetical`, through `Step`: an opener pushes itself and yields its bracket token |
| GrammarLexerProperties.CloserMatches | Compilation/Preparsing/Lexer/Lexer.py:193-203 | `GrammarLexerSpec.Parenthetical`, through `Step`: a closer succeeds exactly when the top of the stack is its opener, then pops it and yields its token; otherwise mismatched parenthetical |
| GrammarLexerProperties.EofIgnoresOpenBrackets | Compilation/Preparsing/Lexer/Lexer.py:348 | at the end of the source the EOF token follows, whatever brackets are still open, and the generator finishes |
| GrammarLexerProperties.EmittedKindIsMember | Compilation/Preparsing/Lexer/Tokentype.py:33-36 | every emitted type is one member of the enumeration and none of the four category members |
| GrammarLexerProperties.EmittedKindIndex | Compilation/Preparsing/Lexer/Tokentype.py:13-39 | each emitted type is a member that is not one of ASSIGNMENT, ALTERNATION, QUANTIFICATION or CONCATENATION |
| GrammarLexerProperties.EmittedKindsAreMembers | Compilation/Preparsing/Lexer/Tokentype.py:13-39 | each emitted type carries exactly one member and is not a category |
| GrammarLexerProperties.EmitWellFormed | Compilation/Preparsing/Lexer/Lexer.py:109-131 | `GrammarLexerSpec.Emit`: a built token is well formed: one member, its literal is the source between its start and its end |
| GrammarLexerProperties.PrefixMapKinds | Compilation/Preparsing/Lexer/Lexer.py:216-322 | no entry of the map emits a category member |
| GrammarLexerProperties.HandleTokenWellFormed | Compilation/Preparsing/Lexer/Lexer.py:216-322 | every handler yields only well-formed non-EOF tokens that end where it leaves the markers, and keeps line and column |
| GrammarLexerProperties.StepTokenWellFormed | Compilation/Preparsing/Lexer/Lexer.py:328-346 | every iteration yields only well-formed non-EOF tokens that end where it leaves the markers |
| GrammarLexerProperties.PullTokenWellFormed | Compilation/Preparsing/Lexer/Lexer.py:328-348 | every resumption gives a well-formed token, and the generator finishes exactly when that token is EOF |
| GrammarLexerProperties.ShapedPrepend | Compilation/Preparsing/Lexer/Lexer.py:328-348 | a well-formed non-EOF token in front of a shaped stream keeps it shaped |
| GrammarLexerProperties.PrependKeepsEofLast | Compilation/Preparsing/Lexer/Lexer.py:328-348 | a non-EOF token in front keeps EOF last and only last |
| GrammarLexerProperties.PrependKeepsOrder | Compilation/Preparsing/Lexer/Lexer.py:328-348 | a token that ends no later than every token behind it keeps the ends in source order |
| GrammarLexerProperties.StreamCons | Compilation/Preparsing/Lexer/Lexer.py:328-348 | the stream of a running generator is one resumption's token followed by the rest of the stream |
| GrammarLexerProperties.StreamShape | Compilation/Preparsing/Lexer/Lexer.py:328-348 | `GrammarLexerSpec.Stream`: the stream is in source order, all well formed, with one EOF and only at the end |
| GrammarLexerProperties.PrimingNextHeadsStream | Compilation/Preparsing/Lexer/Lexer.py:77-79 | the priming `next()` returns nothing and makes the first token of the stream the lookahead, so after construction `peek()` is the first token |
| GrammarLexerProperties.NextWalksStream | Compilation/Preparsing/Lexer/Lexer.py:361-372 | `GrammarLexerSpec.Next`: `next()` returns the old lookahead and loads the next token of the stream |
| GrammarLexerProperties.ExhaustedNextDrains | Compilation/Preparsing/Lexer/Lexer.py:361-372 | once the generator has finished, `next()` returns the lookahead and leaves None |
| GrammarLexerProperties.RaisingNextFinishes | Compilation/Preparsing/Lexer/Lexer.py:361-372 | a raising `next()` keeps the lookahead, finishes the generator, and the stream is an error |
| Utf8CodecSpec.LeadOf | Preparsing/Lexer/Codec.py:66-97 | the layout each lead byte selects: 0 ends, below 0x80 one byte, `110xxxxx` two, `1110xxxx` three, `11110xxx` four, and 0x80–0xBF and 0xF8–0xFF none |
| Utf8CodecSpec.Resume | Preparsing/Lexer/Codec.py:66-97 | a finished decoder yields 0; otherwise a resumption moves the offset strictly forward |
| Utf8CodecSpec.Encode | Preparsing/Lexer/Codec.py:66-97 | the reference encoder of section 3 of RFC 3629, one to four bytes per codepoint |
| Utf8Codec.Codec.constructor | Preparsing/Lexer/Codec.py:29-39 | the constructor primes both slots: the next codepoint is the first decoded one and the one after it the second |
| Utf8Codec.Codec.Observe | Preparsing/Lexer/Codec.py:45-50 | returns the byte at the offset, or 0 past the end, and changes nothing |
| Utf8Codec.Codec.Advance | Preparsing/Lexer/Codec.py:57-60 | returns the byte at the offset and moves past it |
| Utf8Codec.Codec.Decode | Preparsing/Lexer/Codec.py:66-97 | one resumption of `decode`, as `Resume` defines it |
| Utf8Codec.Codec.DecodeTwo | Preparsing/Lexer/Codec.py:73-78 | the two-byte branch assembles its codepoint and takes two bytes |
| Utf8Codec.Codec.DecodeThree | Preparsing/Lexer/Codec.py:80-86 | the three-byte branch assembles its codepoint and takes three bytes |
| Utf8Codec.Codec.DecodeFour | Preparsing/Lexer/Codec.py:88-95 | the four-byte branch assembles its codepoint and takes four bytes |
| Utf8CodecProperties.PeekShowsResumptions | Preparsing/Lexer/Codec.py:103-108 | `Utf8Codec.Codec.Peek`: on a valid codec `peek(1)` and `peek(2)` show what the last two resumptions of the decoder yielded, the older first; when the whole buffer decodes, these are the next codepoints of the decoded stream, or the 0 after its end |
| Utf8Codec.Codec.Next | Preparsing/Lexer/Codec.py:114-127 | returns the current codepoint, shifts the next one into its place and loads the one a fresh resumption yields; from a codec resumed at least once it leaves a valid window, in step with the decoded stream |
| Utf8CodecProperties.OneBytePayload | Preparsing/Lexer/Codec.py:70-71 | a byte below 0x80 keeps its seven payload bits |
| Utf8CodecProperties.TwoBytePayload | Preparsing/Lexer/Codec.py:73-78 | `((b0 & 0x1F) << 6) \| (b1 & 0x3F)`, below 2^11 |
| Utf8CodecProperties.ThreeBytePayload | Preparsing/Lexer/Codec.py:80-86 | masks 0x1F/0x3F/0x3F and shifts 12/6/0 |
| Utf8CodecProperties.FourBytePayload | Preparsing/Lexer/Codec.py:88-95 | masks 0x07/0x3F/0x3F/0x3F and shifts 18/12/6/0, below 2^21 |
| Utf8CodecProperties.ThreeByteLeadBound | Preparsing/Lexer/Codec.py:80-86 | with a `1110xxxx` lead the 0x1F mask acts as 0x0F, so the codepoint is below 2^16 |
| Utf8CodecProperties.OneByteRoundTrip | Preparsing/Lexer/Codec.py:70-71 | a one-byte encoding selects the one-byte layout and decodes to the codepoint |
| Utf8CodecProperties.TwoByteRoundTrip | Preparsing/Lexer/Codec.py:73-78 | a two-byte encoding selects the two-byte layout and decodes to the codepoint |
| Utf8CodecProperties.ThreeByteRoundTrip | Preparsing/Lexer/Codec.py:80-86 | a three-byte encoding selects the three-byte layout and decodes to the codepoint |
| Utf8CodecProperties.FourByteRoundTrip | Preparsing/Lexer/Codec.py:88-95 | a four-byte encoding selects the four-byte layout and decodes to the codepoint |
| Utf8CodecProperties.OneByteDecodes | Preparsing/Lexer/Codec.py:70-71 | a byte in 1..0x7F is yielded as itself and one byte is taken |
| Utf8CodecProperties.TwoByteDecodes | Preparsing/Lexer/Codec.py:73-78 | the two bytes of an encoding are decoded to the codepoint and both are taken |
| Utf8CodecProperties.ThreeByteDecodes | Preparsing/Lexer/Codec.py:80-86 | the three bytes of an encoding are decoded to the codepoint and all are taken |
| Utf8CodecProperties.FourByteDecodes | Preparsing/Lexer/Codec.py:88-95 | the four bytes of an encoding are decoded to the codepoint and all are taken |
| Utf8CodecProperties.DecodeEncode | Preparsing/Lexer/Codec.py:66-97 | one resumption reads back one encoded codepoint and stops right after its bytes |
| Utf8CodecProperties.EncodeAllSplits | Preparsing/Lexer/Codec.py:66-97 | the encoding of a text is the first codepoint's encoding followed by the rest |
| Utf8CodecProperties.DecodedEncodings | Preparsing/Lexer/Codec.py:66-97 | from any offset, the encodings of a sequence decode back to the sequence and a final 0 |
| Utf8CodecProperties.DecodesEncoding | Preparsing/Lexer/Codec.py:66-97 | `Utf8CodecSpec.Decoded`: the whole file: the decoder inverts the reference encoder, then yields one 0 |
| Utf8CodecProperties.ZeroByteEndsStream | Preparsing/Lexer/Codec.py:97 | `Utf8CodecSpec.ByteAt` with `Utf8CodecSpec.Resume`: a zero byte, which is also what the end of the buffer reads as, yields one 0 and finishes the generator |
| Utf8CodecProperties.TruncatedLayout | Preparsing/Lexer/Codec.py:73-78 | `Utf8CodecSpec.ByteAt` with `Utf8CodecSpec.Resume`: a layout cut off by the end of the file reads zeros for its missing bytes, and the stream then ends |
| Utf8CodecProperties.FinishedGivesZeros | Preparsing/Lexer/Codec.py:116-120 | after exhaustion every resumption gives 0, so `next()` keeps supplying 0 |
| Utf8CodecProperties.NoLayoutSpinsForever | Preparsing/Lexer/Codec.py:68-95 | a lead byte of no layout is never consumed, so `decode` spins and no stream results |
| Utf8CodecProperties.RunShift | Preparsing/Lexer/Codec.py:114-127 | the resumptions after a yield are those of the decoder it left |
| Utf8CodecProperties.RunFollowsDecoded | Preparsing/Lexer/Codec.py:114-127 | `Utf8CodecSpec.Run`: the k-th resumption yields the k-th decoded codepoint, then 0 for ever |
| Utf8CodecProperties.WindowShowsStream | Preparsing/Lexer/Codec.py:103-127 | after the constructor and n calls of `next()`, `peek(2)` shows codepoints n and n+1 of the decoded stream |
| CodepointLexerSpec.Span | Preparsing/Lexer/Lexer.py:68-79 | the codepoints between two positions, as many as lie between them |
| CodepointLexerSpec.Scan | Preparsing/Lexer/Lexer.py:68-73 | advancing up to `j` moves `end` to `j` and changes nothing but the literal |
| CodepointLexerSpec.ScanLiteral | Preparsing/Lexer/Lexer.py:68-73 | a scan appends exactly the codepoints it passes to the literal |
| CodepointLexerProperties.AdvanceTakesCurrent | Preparsing/Lexer/Lexer.py:61-73 | `CodepointLexerSpec.Advance` with `CodepointLexerSpec.At`: `advance()` appends exactly the current codepoint; within the stream the state stays valid and its literal is the codepoints between the markers; past the end the decoder's 0 joins the literal; `start` stays and `end` moves by one |
| CodepointLexerProperties.ConsumeStartsEmpty | Preparsing/Lexer/Lexer.py:79-105 | `CodepointLexerSpec.Consume` and `CodepointLexerSpec.Emit`: `consume()`, `ignore()` and every built token leave a valid state with nothing pending and an empty literal; `end` stays, and a second `consume()` changes nothing |
| CodepointLexerSpec.IdentifierEnd | Preparsing/Lexer/Lexer.py:111-126 | the end of the run of A–Z, a–z and `_`; a digit ends it |
| CodepointLexerSpec.StringEnd | Preparsing/Lexer/Lexer.py:139-150 | the string scan stops at the next identical quote or at the 0 sentinel |
| CodepointLexerSpec.StringEndStep | Preparsing/Lexer/Lexer.py:139-150 | the scan stops at once at the quote or the 0 sentinel, and otherwise goes on one codepoint further |
| CodepointLexerSpec.CommentEnd | Preparsing/Lexer/Lexer.py:156-161 | the comment scan stops only at `\r` or `\n`; with none ahead there is no end |
| CodepointLexerSpec.Comment | Preparsing/Lexer/Lexer.py:156-161 | a comment produces no token |
| CodepointLexerSpec.IdentifierSkips | Preparsing/Lexer/Lexer.py:111-126 | at a letter or `_` the identifier loop goes on |
| CodepointLexerSpec.IdentifierStops | Preparsing/Lexer/Lexer.py:111-126 | at any other codepoint the identifier loop emits the literal it has |
| CodepointLexerSpec.StringSkips | Preparsing/Lexer/Lexer.py:139-150 | at a body codepoint the string loop goes on |
| CodepointLexerSpec.StringStops | Preparsing/Lexer/Lexer.py:139-150 | at the quote the string closes and includes it; at the 0 sentinel it raises unterminated string literal |
| CodepointLexerSpec.CommentSkips | Preparsing/Lexer/Lexer.py:156-161 | at a codepoint other than a line break the comment loop goes on |
| CodepointLexerSpec.CommentStops | Preparsing/Lexer/Lexer.py:156-161 | at a line break the comment loop ignores its literal and yields nothing |
| CodepointLexerSpec.PrefixMap | Preparsing/Lexer/Lexer.py:190-298 | every bracket entry opens with an opener, and no string entry has the quote 0 |
| CodepointLexerSpec.StepTakesDoubleKey | Preparsing/Lexer/Lexer.py:308-318 | the two-codepoint key is (current, next) and wins: two advances, then its handler |
| CodepointLexerSpec.StepTakesSingleKey | Preparsing/Lexer/Lexer.py:308-320 | the one-codepoint key is tried only when the two-codepoint key is not mapped |
| CodepointLexerSpec.StepTakesNoKey | Preparsing/Lexer/Lexer.py:322 | with neither key mapped the iteration raises unrecognized character |
| CodepointLexerSpec.ScanKeepsLiteral | Preparsing/Lexer/Lexer.py:68-73 | the literal buffer stays the codepoints between the markers |
| CodepointLexerSpec.AdvanceKeepsValid | Preparsing/Lexer/Lexer.py:68-73 | an advance over a nonzero codepoint keeps the state valid |
| CodepointLexerSpec.StepKeepsValid | Preparsing/Lexer/Lexer.py:304-324 | `CodepointLexerSpec.Step`: one iteration keeps the state valid and moves `end` strictly forward |
| CodepointLexerSpec.HandleKeepsValid | Preparsing/Lexer/Lexer.py:190-298 | `CodepointLexerSpec.Handle`: every handler keeps the state valid and moves `end` forward only |
| CodepointLexerSpec.PullAfterStep | Preparsing/Lexer/Lexer.py:304-324 | `CodepointLexerSpec.Pull`: a resumption is the next iteration: it raises, stops at its token, or goes on past one that yields nothing |
| CodepointLexerSpec.PullProgress | Preparsing/Lexer/Lexer.py:304-324 | `CodepointLexerSpec.Pull`: each resumption that returns gives a token, and either finishes the generator or moves `end` strictly forward |
| CodepointLexer.Lexer.Window | Preparsing/Lexer/Lexer.py:61-62 | `CodepointLexerSpec.At`: the codec's window shows the codepoint at `end` and the one after it |
| CodepointLexer.Lexer.Fresh | Preparsing/Lexer/Lexer.py:39-54 | the fields `__init__` sets, and a codec over the file's bytes, before the priming `next()` |
| CodepointLexer.Lexer.Open | Preparsing/Lexer/Lexer.py:39-55 | construction with the priming `next()`: raises exactly when it raises, else the generator and the lookahead are those after it |
| CodepointLexer.Lexer.Observe | Preparsing/Lexer/Lexer.py:61-62 | returns the current codepoint of the decoded stream |
| CodepointLexer.Lexer.Advance | Preparsing/Lexer/Lexer.py:68-73 | returns the current codepoint and the new fields are those of `CodepointLexerSpec.Advance` |
| CodepointLexer.Lexer.Consume | Preparsing/Lexer/Lexer.py:79-86 | returns the literal and the new fields are those of `CodepointLexerSpec.Consume` |
| CodepointLexer.Lexer.Ignore | Preparsing/Lexer/Lexer.py:92-98 | the new fields are those of `CodepointLexerSpec.Consume` |
| CodepointLexer.Lexer.Operator | Preparsing/Lexer/Lexer.py:104-105 | the token and the new fields are those of `CodepointLexerSpec.Emit` |
| CodepointLexer.Lexer.Identifier | Preparsing/Lexer/Lexer.py:111-126 | the token and the new fields are those of `CodepointLexerSpec.Identifier` |
| CodepointLexer.Lexer.String | Preparsing/Lexer/Lexer.py:139-150 | the token, the error and the new fields are those of `CodepointLexerSpec.String` |
| CodepointLexer.Lexer.Comment | Preparsing/Lexer/Lexer.py:156-161 | the new fields are those of `CodepointLexerSpec.Comment` |
| CodepointLexer.Lexer.Parenthetical | Preparsing/Lexer/Lexer.py:167-177 | the token, the error and the new fields are those of `CodepointLexerSpec.Parenthetical` |
| CodepointLexer.Lexer.Handle | Preparsing/Lexer/Lexer.py:190-298 | runs the handler a key selected, with the outcome of `CodepointLexerSpec.Handle` |
| CodepointLexer.Lexer.Step | Preparsing/Lexer/Lexer.py:306-322 | one iteration of the `tokenize` loop, with the outcome of `CodepointLexerSpec.Step` |
| CodepointLexer.Lexer.Pull | Preparsing/Lexer/Lexer.py:304-324 | one `next(self.tokenizer)`: the token, the error and the new generator of `CodepointLexerSpec.Pull` |
| CodepointLexer.Lexer.Peek | Preparsing/Lexer/Lexer.py:330-331 | returns the lookahead token |
| CodepointLexer.Lexer.Next | Preparsing/Lexer/Lexer.py:337-348 | returns the old lookahead and loads the following one, as `CodepointLexerSpec.Next` says |
| CodepointLexerProperties.DoubleKeys | Preparsing/Lexer/Lexer.py:190-298 | the two-codepoint keys are exactly `**`, `++`, `:=` and newline then carriage return, all operators |
| CodepointLexerProperties.StepAtDoubleKey | Preparsing/Lexer/Lexer.py:308-318 | at a two-codepoint key both codepoints join the literal, then its handler runs |
| CodepointLexerProperties.StepAtSingleKey | Preparsing/Lexer/Lexer.py:308-320 | a one-codepoint key runs its handler only when no two-codepoint key begins there |
| CodepointLexerProperties.UnrecognizedCodepointRaises | Preparsing/Lexer/Lexer.py:322 | a nonzero codepoint with no entry that begins no two-codepoint key raises |
| CodepointLexerProperties.TwoCodepointOperators | Preparsing/Lexer/Lexer.py:190-298 | `**`, `++` and `:=` are one token each |
| CodepointLexerProperties.LoneColonRaises | Preparsing/Lexer/Lexer.py:190-298 | a colon not followed by `=` raises |
| CodepointLexerProperties.ErroneousCodepointFails | Preparsing/Lexer/Lexer.py:183-184 | the erroneous entries fail on the missing `source` attribute |
| CodepointLexerProperties.UnmappedPunctuationRaises | Preparsing/Lexer/Lexer.py:190-298 | `~`, the backslash and the backtick have no entry and raise |
| CodepointLexerProperties.NewlineIsEol | Preparsing/Lexer/Lexer.py:296-297 | a newline alone, or newline then carriage return, is one EOL token |
| CodepointLexerProperties.CarriageReturnRaises | Preparsing/Lexer/Lexer.py:296-297 | a carriage return at the current position matches no key and raises |
| CodepointLexerProperties.IdentifierRun | Preparsing/Lexer/Lexer.py:111-126 | `CodepointLexerSpec.Identifier`, through `Step`: a letter or `_` begins an IDENTIFIER token over the run of A–Z, a–z and `_`; a digit ends it |
| CodepointLexerProperties.StepAtIdentifier | Preparsing/Lexer/Lexer.py:190-298 | an iteration at a letter or `_` is one run of `identifier()` after the key codepoint |
| CodepointLexerProperties.IdentifierAfterKey | Preparsing/Lexer/Lexer.py:111-126 | `identifier()` after its key emits the whole run, starting at the key |
| CodepointLexerProperties.NumberIsOneDigit | Preparsing/Lexer/Lexer.py:132-133 | each digit is its own one-codepoint NUMBER token |
| CodepointLexerProperties.StringEndFindsClosingQuote | Preparsing/Lexer/Lexer.py:139-150 | the string scan stops at `j` on a quote exactly when `j` is the next identical quote with no 0 before it |
| CodepointLexerProperties.QuotedString | Preparsing/Lexer/Lexer.py:139-150 | `CodepointLexerSpec.String`, through `Step`: a quote succeeds exactly when its string closes; the STRING token runs through the matching quote; otherwise unterminated string literal |
| CodepointLexerProperties.StringAfterKey | Preparsing/Lexer/Lexer.py:139-150 | `string(quote)` after the opening quote closes at the next identical quote, or raises unterminated string literal |
| CodepointLexerProperties.StringClosesAt | Preparsing/Lexer/Lexer.py:139-150 | the token of a string that closes where the body scan stops |
| CodepointLexerProperties.CommentEndsAtLineBreak | Preparsing/Lexer/Lexer.py:156-161 | a comment ends exactly when a carriage return or newline is ahead |
| CodepointLexerProperties.CommentToLineBreak | Preparsing/Lexer/Lexer.py:156-161 | `#` yields nothing and stops at the next line break; with none ahead the comment never ends |
| CodepointLexerProperties.OpenerPushes | Preparsing/Lexer/Lexer.py:167-177 | `CodepointLexerSpec.Parenthetical`, through `Step`: an opener pushes its codepoint and yields its bracket token |
| CodepointLexerProperties.CloserMatches | Preparsing/Lexer/Lexer.py:167-177 | `CodepointLexerSpec.Parenthetical`, through `Step`: a closer succeeds exactly when the top is its opener, then pops it; otherwise mismatched parenthetical |
| CodepointLexerProperties.SentinelYieldsEof | Preparsing/Lexer/Lexer.py:306-324 | at the 0 sentinel one EOF token ends the generator |
| CodepointLexerProperties.SpanIsSlice | Preparsing/Lexer/Lexer.py:68-73 | within the stream, a literal span is the slice between its ends |
| CodepointLexerProperties.EmittedKindsAreMembers | Compilation/Preparsing/Lexer/Tokentype.py:13-39 | each type this lexer emits carries exactly one member and is not a category |
| CodepointLexerProperties.EmitWellFormed | Preparsing/Lexer/Lexer.py:79-105 | `CodepointLexerSpec.Emit`: a built token is well formed: one member, its literal is the codepoints between its start and its end |
| CodepointLexerProperties.PrefixMapKinds | Preparsing/Lexer/Lexer.py:190-298 | no entry emits a category member |
| CodepointLexerProperties.HandleTokenWellFormed | Preparsing/Lexer/Lexer.py:190-298 | every handler yields only well-formed non-EOF tokens that end where it leaves the markers |
| CodepointLexerProperties.StepTokenWellFormed | Preparsing/Lexer/Lexer.py:306-322 | every iteration yields only well-formed non-EOF tokens |
| CodepointLexerProperties.PullTokenWellFormed | Preparsing/Lexer/Lexer.py:304-324 | every resumption gives a well-formed token, and the generator finishes exactly at EOF |
| CodepointLexerProperties.ShapedPrepend | Preparsing/Lexer/Lexer.py:304-324 | a well-formed non-EOF token in front of a shaped stream keeps it shaped |
| CodepointLexerProperties.PrependKeepsEofLast | Preparsing/Lexer/Lexer.py:304-324 | a non-EOF token in front keeps EOF last and only last |
| CodepointLexerProperties.PrependKeepsOrder | Preparsing/Lexer/Lexer.py:304-324 | a token that ends no later than every token behind it keeps the ends in source order |
| CodepointLexerProperties.StreamCons | Preparsing/Lexer/Lexer.py:304-324 | the stream is one resumption's token followed by the rest |
| CodepointLexerProperties.StreamShape | Preparsing/Lexer/Lexer.py:304-324 | `CodepointLexerSpec.Stream`: tokenizing ends at the 0 sentinel with exactly one EOF token; the stream is in order and well formed |
| CodepointLexerProperties.PrimingNextHeadsStream | Preparsing/Lexer/Lexer.py:337-348 | the priming `next()` makes the first token of the stream the lookahead |
| CodepointLexerProperties.NextWalksStream | Preparsing/Lexer/Lexer.py:337-348 | `CodepointLexerSpec.Next`: `next()` returns the old lookahead and loads the next token of the stream |
| CodepointLexerProperties.ExhaustedNextDrains | Preparsing/Lexer/Lexer.py:337-348 | once the generator has finished, `next()` returns the lookahead and leaves None |
| CodepointLexerProperties.RaisingNextFinishes | Preparsing/Lexer/Lexer.py:337-348 | a raising `next()` keeps the lookahead and finishes the generator |
| GrammarNodes.StartIsFirstLeaf | Preparsing/Nodes/Production.py:67-68 | `GrammarNodes.Start`: `start` follows the first child (expression, identifier or signature) down to a leaf's token, for Production, Optional, Star, Assignment, Call, Signature, Definition and the leaves, so it is the first leaf of the tree |
| GrammarNodes.EndIsLastLeaf | Preparsing/Nodes/Optional.py:71-72 | `GrammarNodes.End`, with `GrammarNodes.Truthy` for the output test: `end` is the last leaf of the tree: the output's end when there is a true output, else the expression's; the expression's, annotation's or productions' end for the others |
| GrammarNodes.EndOfOutputNode | Preparsing/Nodes/Production.py:71-72 | a production or an optional ends with the last leaf of its output when the output is true, else with the last leaf of its expression |
| GrammarNodes.EndOfCall | Preparsing/Nodes/Call.py:64-65 | a call ends with its last parameter when it has parameters, else with its identifier |
| GrammarNodes.LeavesFromEndsWithLast | Preparsing/Nodes/Call.py:64-65 | the leaves of a run of children end with the last child's last leaf |
| GrammarNodes.ReprNamesClass | Preparsing/Nodes/Production.py:42-47 | `GrammarNodes.Repr`, `GrammarNodes.ClassName` and `GrammarNodes.NameOf`: every string form of the shown classes begins with the node's own class name and `(` and ends with `')` |
| GrammarParserSpec.Ident | Preparsing/Parser/Parser.py:104-105 | the cursor moves forward only and stays within the stream |
| GrammarParserSpec.AtomAnnotation | Preparsing/Parser/Parser.py:111-121 | the cursor moves forward only, and an annotation atom is always a node, never None |
| GrammarParserSpec.StarAnnotation | Preparsing/Parser/Parser.py:127-132 | the cursor moves forward only, and the result is always a node; its shape is stated by `GrammarParserProperties.StarAnnotationPrefix` |
| GrammarParserSpec.PipeAnnotations | Preparsing/Parser/Parser.py:142-147 | the `while consume(PIPE)` loop moves the cursor forward only; its shape is stated by `GrammarParserProperties.PipeAnnotationsExtend` |
| GrammarParserSpec.PipeAnnotation | Preparsing/Parser/Parser.py:138-149 | the cursor moves forward only, and the result is always a node; its shape is stated by `GrammarParserProperties.PipeAnnotationNeedsPipe` |
| GrammarParserSpec.MultAnnotations | Preparsing/Parser/Parser.py:159-164 | the `while consume(COMMA)` loop moves the cursor forward only; its shape is stated by `GrammarParserProperties.MultAnnotationsExtend` |
| GrammarParserSpec.MultAnnotation | Preparsing/Parser/Parser.py:155-166 | the cursor moves forward only, and the result is always a node; its shape is stated by `GrammarParserProperties.MultAnnotationNeedsComma` |
| GrammarParserSpec.AnnotationOf | Preparsing/Parser/Parser.py:172-178 | the cursor moves forward only, and an Annotation node is always built; its shape is stated by `GrammarParserProperties.AnnotationBrackets` |
| GrammarParserSpec.AtomParameter | Preparsing/Parser/Parser.py:184-196 | the cursor moves forward only, and the result is always a node; its shape is stated by `GrammarParserProperties.AtomParameterCall` |
| GrammarParserSpec.StarParameter | Preparsing/Parser/Parser.py:202-207 | the cursor moves forward only, and the result is always a node; its shape is stated by `GrammarParserProperties.StarParameterPrefix` |
| GrammarParserSpec.MultParameters | Preparsing/Parser/Parser.py:217-222 | the `while consume(COMMA)` loop moves the cursor forward only; its shape is stated by `GrammarParserProperties.MultParametersExtend` |
| GrammarParserSpec.MultParameter | Preparsing/Parser/Parser.py:213-224 | the cursor moves forward only, and the result is always a node; its shape is stated by `GrammarParserProperties.MultParameterNeedsComma` |
| GrammarParserSpec.AtomOutput | Preparsing/Parser/Parser.py:230-242 | the cursor moves forward only, and the result is always a node; its shape is stated by `GrammarParserProperties.AtomOutputIsAtomParameter` |
| GrammarParserSpec.MultOutputs | Preparsing/Parser/Parser.py:252-257 | the `while consume(COMMA)` loop moves the cursor forward only; its shape is stated by `GrammarParserProperties.MultOutputsExtend` |
| GrammarParserSpec.MultOutput | Preparsing/Parser/Parser.py:248-259 | the cursor moves forward only, and the result is always a node; its shape is stated by `GrammarParserProperties.MultOutputNeedsComma` |
| GrammarParserSpec.OutputOf | Preparsing/Parser/Parser.py:265-273 | the cursor moves forward only; without a `{` there may be no node; its shape is stated by `GrammarParserProperties.OutputNeedsBrace` |
| GrammarParserSpec.SignatureOf | Preparsing/Parser/Parser.py:279-284 | the cursor moves forward only, and a Signature is always built |
| GrammarParserSpec.Atomic | Preparsing/Parser/Parser.py:290-299 | an IDENTIFIER, NUMBER or STRING lookahead is taken as one token |
| GrammarParserSpec.Bracketed | Preparsing/Parser/Parser.py:305-325 | a lookahead that can begin a primary is consumed |
| GrammarParserSpec.AssignmentOf | Preparsing/Parser/Parser.py:331-342 | a lookahead that can begin an operand is consumed |
| GrammarParserSpec.Repetition | Preparsing/Parser/Parser.py:348-358 | a lookahead that can begin an operand is consumed, so every concatenation iteration takes a token |
| GrammarParserSpec.Operands | Preparsing/Parser/Parser.py:370-376 | the concatenation loop moves the cursor forward only |
| GrammarParserSpec.Concatenated | Preparsing/Parser/Parser.py:364-381 | the cursor moves forward only and stays within the stream |
| GrammarParserSpec.Alternatives | Preparsing/Parser/Parser.py:391-396 | the alternation loop moves the cursor forward only |
| GrammarParserSpec.Alternated | Preparsing/Parser/Parser.py:387-398 | the cursor moves forward only and stays within the stream |
| GrammarParserSpec.Expression | Preparsing/Parser/Parser.py:404-405 | the cursor moves forward only and stays within the stream |
| GrammarParserSpec.ProductionOf | Preparsing/Parser/Parser.py:411-412 | the cursor moves forward only, and a Production is always built |
| GrammarParserSpec.Alternants | Preparsing/Parser/Parser.py:424-427 | the productions loop moves the cursor forward only |
| GrammarParserSpec.ProductionsOf | Preparsing/Parser/Parser.py:418-429 | the cursor moves forward only, and a Sequence is always built |
| GrammarParserSpec.DefinitionOf | Preparsing/Parser/Parser.py:435-441 | the cursor moves forward only, and a Definition is always built |
| GrammarParserSpec.Definitions | Preparsing/Parser/Parser.py:447-461 | a finished parse ends past the cursor it started from |
| GrammarParser.Parser.constructor | Preparsing/Parser/Parser.py:58-63 | a parser over the token stream with the cursor at its start |
| GrammarParser.Parser.Advance | Preparsing/Parser/Parser.py:69-70 | returns the lookahead and moves past it |
| GrammarParser.Parser.Consume | Preparsing/Parser/Parser.py:83-88 | the token and the cursor of `GrammarParserSpec.Consume` |
| GrammarParser.Parser.Ident | Preparsing/Parser/Parser.py:104-105 | the node and the cursor of `GrammarParserSpec.Ident` |
| GrammarParser.Parser.AtomAnnotation | Preparsing/Parser/Parser.py:111-121 | the node and the cursor of `GrammarParserSpec.AtomAnnotation` |
| GrammarParser.Parser.StarAnnotation | Preparsing/Parser/Parser.py:127-132 | the node and the cursor of `GrammarParserSpec.StarAnnotation`, so `GrammarParserProperties.StarAnnotationPrefix` states its shape |
| GrammarParser.Parser.PipeAnnotation | Preparsing/Parser/Parser.py:138-149 | the loop's node and cursor are those of `GrammarParserSpec.PipeAnnotation`, so `GrammarParserProperties.PipeAnnotationNeedsPipe` states its shape |
| GrammarParser.Parser.MultAnnotation | Preparsing/Parser/Parser.py:155-166 | the loop's node and cursor are those of `GrammarParserSpec.MultAnnotation`, so `GrammarParserProperties.MultAnnotationNeedsComma` states its shape |
| GrammarParser.Parser.AnnotationOf | Preparsing/Parser/Parser.py:172-178 | the node and the cursor of `GrammarParserSpec.AnnotationOf`, so `GrammarParserProperties.AnnotationBrackets` states its shape |
| GrammarParser.Parser.AtomParameter | Preparsing/Parser/Parser.py:184-196 | the node and the cursor of `GrammarParserSpec.AtomParameter`, so `GrammarParserProperties.AtomParameterCall` states its shape |
| GrammarParser.Parser.StarParameter | Preparsing/Parser/Parser.py:202-207 | the node and the cursor of `GrammarParserSpec.StarParameter`, so `GrammarParserProperties.StarParameterPrefix` states its shape |
| GrammarParser.Parser.MultParameter | Preparsing/Parser/Parser.py:213-224 | the loop's node and cursor are those of `GrammarParserSpec.MultParameter`, so `GrammarParserProperties.MultParameterNeedsComma` states its shape |
| GrammarParser.Parser.AtomOutput | Preparsing/Parser/Parser.py:230-242 | the node and the cursor of `GrammarParserSpec.AtomOutput`, so `GrammarParserProperties.AtomOutputIsAtomParameter` states its shape |
| GrammarParser.Parser.MultOutput | Preparsing/Parser/Parser.py:248-259 | the loop's node and cursor are those of `GrammarParserSpec.MultOutput`, so `GrammarParserProperties.MultOutputNeedsComma` states its shape |
| GrammarParser.Parser.OutputOf | Preparsing/Parser/Parser.py:265-273 | the node and the cursor of `GrammarParserSpec.OutputOf`, so `GrammarParserProperties.OutputNeedsBrace` states its shape |
| GrammarParser.Parser.SignatureOf | Preparsing/Parser/Parser.py:279-284 | the node and the cursor of `GrammarParserSpec.SignatureOf` |
| GrammarParser.Parser.Atomic | Preparsing/Parser/Parser.py:290-299 | the node and the cursor of `GrammarParserSpec.Atomic` |
| GrammarParser.Parser.Bracketed | Preparsing/Parser/Parser.py:305-325 | the node and the cursor of `GrammarParserSpec.Bracketed` |
| GrammarParser.Parser.AssignmentOf | Preparsing/Parser/Parser.py:331-342 | the node and the cursor of `GrammarParserSpec.AssignmentOf` |
| GrammarParser.Parser.Repetition | Preparsing/Parser/Parser.py:348-358 | the node and the cursor of `GrammarParserSpec.Repetition` |
| GrammarParser.Parser.Concatenated | Preparsing/Parser/Parser.py:364-381 | the loop's node and cursor are those of `GrammarParserSpec.Concatenated` |
| GrammarParser.Parser.Alternated | Preparsing/Parser/Parser.py:387-398 | the loop's node and cursor are those of `GrammarParserSpec.Alternated` |
| GrammarParser.Parser.Expression | Preparsing/Parser/Parser.py:404-405 | the node and the cursor of `GrammarParserSpec.Expression` |
| GrammarParser.Parser.ProductionOf | Preparsing/Parser/Parser.py:411-412 | the node and the cursor of `GrammarParserSpec.ProductionOf` |
| GrammarParser.Parser.ProductionsOf | Preparsing/Parser/Parser.py:418-429 | the loop's node and cursor are those of `GrammarParserSpec.ProductionsOf` |
| GrammarParser.Parser.DefinitionOf | Preparsing/Parser/Parser.py:435-441 | the node and the cursor of `GrammarParserSpec.DefinitionOf` |
| GrammarParser.Parser.Parse | Preparsing/Parser/Parser.py:447-461 | the loop's Root and final cursor are those of `GrammarParserSpec.Definitions` |
| GrammarParserProperties.EmittedIsSingleBit | Compilation/Preparsing/Lexer/Tokentype.py:13-39 | each type the lexers emit has a single bit set |
| GrammarParserProperties.ShapedStreamIsLexed | Preparsing/Lexer/Lexer.py:304-324 | the codepoint lexer's stream has only single-member types, so the parser's `&` tests are exact |
| GrammarParserProperties.SeesIs | Preparsing/Parser/Parser.py:94-95 | `GrammarParserSpec.Sees` and `GrammarParserSpec.Observe`: on such a stream, `positive_lookahead(t)` for one type is an equality test on the lookahead's type and never advances |
| GrammarParserProperties.LookaheadTests | Preparsing/Parser/Parser.py:76-98 | `GrammarParser.Parser.Observe`, `PositiveLookahead` and `NegativeLookahead`: on a lexed stream `observe()` shows the token at the cursor, or None at the end; `positive_lookahead(t)` holds exactly when that token has type `t`, and `negative_lookahead(t)` exactly when it has not, the end of the stream included |
| GrammarParserProperties.SeesHead | Preparsing/Parser/Parser.py:370 | the concatenation lookahead tests for the five types that begin an operand |
| GrammarParserProperties.ConsumeTakesExactType | Preparsing/Parser/Parser.py:83-88 | `GrammarParserSpec.Consume`: `consume(t)` takes the lookahead exactly when it has type `t`, else leaves the cursor |
| GrammarParserProperties.AtomicOrder | Preparsing/Parser/Parser.py:290-299 | `atomic` tries IDENTIFIER, NUMBER and STRING, and returns None, not an Error, when none matches |
| GrammarParserProperties.BracketedIsPrimary | Preparsing/Parser/Parser.py:305-325 | `parenthetical()` gives a bracketed expression or a leaf |
| GrammarParserProperties.AssignmentNeedsIdentifierAndAssign | Preparsing/Parser/Parser.py:331-342 | an Assignment is built exactly for an IDENTIFIER followed by ASSIGN, over the parenthetical after them |
| GrammarParserProperties.AssignmentIsOperand | Preparsing/Parser/Parser.py:331-342 | an assignment's result is an Assignment or a primary, never a postfix |
| GrammarParserProperties.RepetitionAppliesOnePostfix | Preparsing/Parser/Parser.py:348-358 | `repetition` applies at most one postfix: `*` gives Star, else `+` gives Plus, else the operand itself |
| GrammarParserProperties.RepetitionShape | Preparsing/Parser/Parser.py:348-358 | a repetition is an operand or one Star or Plus around one, never a concatenation, alternation or sequence |
| GrammarParserProperties.PostfixEndsConcatenation | Preparsing/Parser/Parser.py:364-381 | a second postfix is not taken: a `*` or `+` after a repetition ends the concatenation |
| GrammarParserProperties.OperandsExtend | Preparsing/Parser/Parser.py:370-376 | the concatenation loop keeps what it had, appends one repetition per operand, and stops where no operand begins |
| GrammarParserProperties.ConcatenationNeedsSecondOperand | Preparsing/Parser/Parser.py:364-381 | a Concatenation is built exactly when another operand follows the first; it holds both and only repetitions |
| GrammarParserProperties.ConcatenatedIsNotAlternation | Preparsing/Parser/Parser.py:364-381 | a concatenation's result is never an Alternation |
| GrammarParserProperties.AlternativesExtend | Preparsing/Parser/Parser.py:391-396 | the alternation loop appends one concatenation per PIPE and stops where no PIPE follows |
| GrammarParserProperties.AlternationNeedsPipe | Preparsing/Parser/Parser.py:387-398 | an Alternation is built exactly when a PIPE follows the first concatenation, and none of its alternatives is an Alternation |
| GrammarParserProperties.PairBeforePipe | Preparsing/Parser/Parser.py:364-381 | `a b` before a `\|` is one Concatenation of both identifiers, which stops at the PIPE |
| GrammarParserProperties.LastOperand | Preparsing/Parser/Parser.py:364-381 | a lone identifier before an EOL is its own concatenation, not a Concatenation node |
| GrammarParserProperties.LoneIdentifier | Preparsing/Parser/Parser.py:331-358 | an identifier followed by no `=`, `*` or `+` is a repetition on its own |
| GrammarParserProperties.ConcatenationBindsTighter | Preparsing/Parser/Parser.py:364-398 | at the head of any stream, whatever follows the EOL, `a b \| c` parses as `Alternation(Concatenation(a, b), c)` |
| GrammarParserProperties.ParentheticalDropsOutput | Preparsing/Parser/Parser.py:305-315 | `(` gives `Parenthetical(expression)`; the parsed output is dropped, and a missing `)` is skipped silently |
| GrammarParserProperties.OptionalDropsOutput | Preparsing/Parser/Parser.py:316-325 | `[` gives `Optional(expression)` in the same way |
| GrammarParserProperties.StarredAtom | Preparsing/Parser/Parser.py:127-132 | in an annotation `*` is a prefix: `*a` gives `Star(a)` |
| GrammarParserProperties.PlainAtom | Preparsing/Parser/Parser.py:127-132 | a plain identifier in an annotation is itself |
| GrammarParserProperties.PipeBeforeComma | Preparsing/Parser/Parser.py:138-149 | `*a \| b` before a COMMA is one Alternation of the starred and the plain annotation |
| GrammarParserProperties.LastAnnotation | Preparsing/Parser/Parser.py:138-149 | a lone identifier before `]` is its own pipe annotation, not an Alternation |
| GrammarParserProperties.CommaJoinsAlternation | Preparsing/Parser/Parser.py:155-166 | COMMA binds loosest: `*a \| b, c` is a Sequence of the Alternation and `c` |
| GrammarParserProperties.AnnotationPrecedence | Preparsing/Parser/Parser.py:172-178 | at the head of any stream, whatever follows the `]`, `[*a \| b, c]` is `Annotation(Sequence(Alternation(Star(a), b), c))` |
| GrammarParserProperties.StarAnnotationPrefix | Preparsing/Parser/Parser.py:127-132 | `star_annotation` is `Star` of the atom after it exactly at a STAR and the atom itself otherwise; either way a node that is neither an Alternation nor a Sequence |
| GrammarParserProperties.PipeAnnotationsExtend | Preparsing/Parser/Parser.py:142-147 | the `while consume(PIPE)` loop keeps the annotations it has, appends one starred annotation per PIPE, and stops where no PIPE follows; none it appends is an Alternation or a Sequence |
| GrammarParserProperties.PipeAnnotationNeedsPipe | Preparsing/Parser/Parser.py:138-149 | `pipe_annotation` builds an Alternation exactly when a PIPE follows the first starred annotation, beginning with it and the annotation after the PIPE, with no member an Alternation or a Sequence and no PIPE left after it; otherwise it returns the starred annotation; it is never a Sequence |
| GrammarParserProperties.MultAnnotationsExtend | Preparsing/Parser/Parser.py:159-164 | the `while consume(COMMA)` loop keeps the annotations it has, appends one pipe annotation per COMMA, and stops where no COMMA follows; none it appends is a Sequence |
| GrammarParserProperties.MultAnnotationNeedsComma | Preparsing/Parser/Parser.py:155-166 | `mult_annotation` builds a Sequence exactly when a COMMA follows the first pipe annotation, beginning with it and the annotation after the COMMA, with no element a Sequence and no COMMA left after it; otherwise it returns the pipe annotation |
| GrammarParserProperties.AnnotationBrackets | Preparsing/Parser/Parser.py:172-178 | `annotation()` is an Annotation around the mult annotation that begins after the `[` when there is one, and takes the `]` after it when there is one |
| GrammarParserProperties.StarParameterPrefix | Preparsing/Parser/Parser.py:202-207 | `star_parameter` is `Star` of the atom parameter after it exactly at a STAR and the atom parameter itself otherwise; either way a node that is not a Sequence |
| GrammarParserProperties.AtomParameterCall | Preparsing/Parser/Parser.py:184-196 | `atom_parameter` builds `Call(Identifier(token), mult_parameter)` exactly when an L_PAREN follows the identifier, taking the `)` after it when there is one; otherwise it returns the Identifier |
| GrammarParserProperties.MultParametersExtend | Preparsing/Parser/Parser.py:217-222 | the `while consume(COMMA)` loop keeps the parameters it has, appends one starred parameter per COMMA, and stops where no COMMA follows; none it appends is a Sequence |
| GrammarParserProperties.MultParameterNeedsComma | Preparsing/Parser/Parser.py:213-224 | `mult_parameter` builds a Sequence exactly when a COMMA follows the first starred parameter, beginning with it and the parameter after the COMMA, with no element a Sequence and no COMMA left after it; otherwise it returns the starred parameter |
| GrammarParserProperties.AtomOutputIsAtomParameter | Preparsing/Parser/Parser.py:230-242 | `atom_output` gives what `atom_parameter` gives: a Call exactly when an L_PAREN follows the identifier, and the Identifier exactly when none does |
| GrammarParserProperties.MultOutputsExtend | Preparsing/Parser/Parser.py:252-257 | the `while consume(COMMA)` loop keeps the outputs it has, appends one atom output per COMMA, and stops where no COMMA follows; none it appends is a Sequence |
| GrammarParserProperties.MultOutputNeedsComma | Preparsing/Parser/Parser.py:248-259 | `mult_output` builds a Sequence exactly when a COMMA follows the first atom output, beginning with it and the output after the COMMA, with no element a Sequence and no COMMA left after it; otherwise it returns the atom output |
| GrammarParserProperties.OutputNeedsBrace | Preparsing/Parser/Parser.py:265-273 | `output()` is `Output(mult_output)` exactly at an L_BRACE, taking the `}` after it when there is one; otherwise it is None and consumes nothing |
| GrammarParserProperties.NextAlternant | Preparsing/Parser/Parser.py:424-427 | each `EOL \| production` adds one Production |
| GrammarParserProperties.AlternantsShape | Preparsing/Parser/Parser.py:418-429 | the productions loop adds only Productions, stops at the first EOL not followed by a PIPE, and takes a leading EOL |
| GrammarParserProperties.ProductionsAreSequence | Preparsing/Parser/Parser.py:418-429 | the productions are a Sequence of Productions, exactly one when no EOL leads |
| GrammarParserProperties.ParseFinishesAtEof | Preparsing/Parser/Parser.py:447-461 | a finished parse returns `Root(origin, Sequence(definitions))` of Definitions only, and stops right after an EOF |
| GrammarParserProperties.EolsAreSkipped | Preparsing/Parser/Parser.py:451-453 | `parse` skips any run of EOLs |
| GrammarParserProperties.NextDefinition | Preparsing/Parser/Parser.py:457-459 | a definition that consumes tokens appends one Definition and the loop goes on after it |
| GrammarParserProperties.BlankFile | Preparsing/Parser/Parser.py:447-461 | a file of blank lines parses to a Root with no definitions |
| GrammarParserProperties.NothingBeforeCloser | Preparsing/Parser/Parser.py:290-405 | before a `)`, an expression is None and consumes nothing |
| GrammarParserProperties.EmptySignatureBeforeCloser | Preparsing/Parser/Parser.py:279-284 | before a `)`, a signature consumes nothing |
| GrammarParserProperties.StrayCloserConsumesNothing | Preparsing/Parser/Parser.py:435-441 | at a `)` a definition parses without consuming anything |
| GrammarParserProperties.StrayCloserDiverges | Preparsing/Parser/Parser.py:447-461 | so `parse()` at a stray `)` never ends |
| GrammarPrinter.Indent | Compilation/Preparsing/Visitors/Printer.py:65-70 | four spaces per indentation level |
| GrammarPrinter.JoinTexts | Compilation/Preparsing/Visitors/Printer.py:279-290 | `'\n'.join` is at least as long as its first text |
| GrammarPrinter.Head | Compilation/Preparsing/Visitors/Printer.py:65-70 | the head line is longer than its indentation |
| GrammarPrinter.Wrap1 | Compilation/Preparsing/Visitors/Printer.py:89-96 | a printed one-child visit is longer than its indentation |
| GrammarPrinter.Wrap2 | Compilation/Preparsing/Visitors/Printer.py:102-110 | a printed two-child visit is longer than its indentation |
| GrammarPrinter.WithOutput | Compilation/Preparsing/Visitors/Printer.py:185-195 | a printed visit with an optional output is longer than its indentation |
| GrammarPrinter.Block | Compilation/Preparsing/Visitors/Printer.py:279-290 | a printed block of children is longer than its indentation |
| GrammarPrinter.Leaf | Compilation/Preparsing/Visitors/Printer.py:171-179 | a printed leaf is longer than its indentation |
| GrammarPrinter.Print | Compilation/Preparsing/Visitors/Printer.py:76-324 | a printed node's text is longer than its indentation |
| GrammarPrinter.Texts | Compilation/Preparsing/Visitors/Printer.py:65-70 | each line is its indentation followed by its text |
| GrammarPrinter.Outline | Compilation/Preparsing/Visitors/Printer.py:76-324 | every printable node has at least one line |
| GrammarPrinter.FramedDepths | Compilation/Preparsing/Visitors/Printer.py:65-70 | the affixes are at depth d, around a body no shallower than d + 1 |
| GrammarPrinter.OutlineFromDepths | Compilation/Preparsing/Visitors/Printer.py:279-290 | the children's lines are no shallower than the depth they are printed at |
| GrammarPrinter.JoinAppend | Compilation/Preparsing/Visitors/Printer.py:279-290 | joining two runs of texts is joining each, with one newline between them |
| GrammarPrinter.OutlineDepths | Compilation/Preparsing/Visitors/Printer.py:76-83 | a node printed at depth d opens and closes at depth d and no line of it is shallower, since a Printer's indentation is never changed and children print at d + 1 |
| GrammarPrinter.PrintFollowsOutline | Compilation/Preparsing/Visitors/Printer.py:76-324 | every printable tree prints as its outline: the head `indent + name + (`, each child at one level deeper on its own lines, and the tail `indent + )`, joined with newlines; leaves print `Kind('literal')` after their indentation |
| GrammarPrinter.BlockFollowsOutline | Compilation/Preparsing/Visitors/Printer.py:279-290 | Alternation, Concatenation and Sequence print one child per line between their affixes |
| GrammarPrinter.WrapFollowsOutline | Compilation/Preparsing/Visitors/Printer.py:89-96 | Annotation, Output, Plus, Star and Root print their one child between their affixes |
| GrammarPrinter.PairFollowsOutline | Compilation/Preparsing/Visitors/Printer.py:102-110 | Assignment, Call, Definition and Signature print their two children between their affixes |
| GrammarPrinter.OutputFollowsOutline | Compilation/Preparsing/Visitors/Printer.py:185-195 | Optional, Parenthetical and Production print the output lines only when an output exists and renders to a non-empty text |
| GrammarPrinter.CollectFollowsOutline | Compilation/Preparsing/Visitors/Printer.py:279-290 | `GrammarPrinter.Collect`: the joined child renderings are the rendering of the joined child outlines |
| GrammarPrinter.RenderAppend | Compilation/Preparsing/Visitors/Printer.py:279-290 | rendering two runs of lines puts one newline between them |
| GrammarPrinter.RenderFramed | Compilation/Preparsing/Visitors/Printer.py:65-70 | `GrammarPrinter.Head` and `GrammarPrinter.Tail`: a framed body renders as the head, the body and the tail, line by line |
| GrammarPrinter.ManyChildren | Compilation/Preparsing/Visitors/Printer.py:279-290 | a block of printable children prints as the framed outline of the children |
| GrammarPrinter.OneChild | Compilation/Preparsing/Visitors/Printer.py:310-317 | a one-child visit prints as the framed outline of the child |
| GrammarPrinter.TwoChildren | Compilation/Preparsing/Visitors/Printer.py:296-304 | a two-child visit prints as the framed outlines of both children |
| GrammarPrinter.OutputChild | Compilation/Preparsing/Visitors/Printer.py:243-253 | an expression and an optional output print as their framed outlines |
| GrammarPrinter.ShownOutput | Compilation/Preparsing/Visitors/Printer.py:243-253 | a true output is printed after the expression, inside the frame |
| GrammarPrinter.SilentOutputDropped | Compilation/Preparsing/Visitors/Printer.py:243-253 | an output that renders to None is left out, as if there were no output |
| GrammarPrinter.LeafPrintsRepr | Compilation/Preparsing/Visitors/Printer.py:171-179 | at indentation 0 an Identifier or Number prints as its string form |
| GrammarPrinter.ErrorAndPseudoPrintNothing | Compilation/Preparsing/Visitors/Printer.py:157-158 | `GrammarPrinter.Interpolated`: `visit_error` and `visit_pseudo` return None, and the Annotation visit, which interpolates its one child, prints such a child as the text `None` |
| GrammarPrinter.BlocksFailOnErrorAndPseudo | Compilation/Preparsing/Visitors/Printer.py:76-84 | the block visits of Alternation, Concatenation and Sequence `'\n'.join` their children's strings, so an Error or Pseudo child, which prints None, makes them fail |

## Left out

- File I/O. The inputs are values: the Fox lexer and the string lexer take a string, and the
  codec takes a byte sequence. Reading files, seeking and the `origin` path are not modelled,
  except that the parser keeps its origin for the Root node.
- CodepointLexer.Lexer.Consume does not model the decoding of the literal. The source's
  `consume` builds `bytes(literal).decode('utf-8')` from the codepoints
  (`Preparsing/Lexer/Lexer.py:81`). A codepoint of 256 or more makes `bytes` raise. A
  codepoint in 0x80–0xFF becomes a single byte, and the decode then usually raises; a
  well-formed run of such bytes decodes to a different text. The model keeps the codepoints
  themselves as the literal and never raises there. Only a STRING literal can hold such a
  codepoint, since comments are dropped through `ignore()` and every other token is ASCII.
- CodepointLexer.Lexer.String yields a STRING token for a closed string with a codepoint of
  0x80 or more, where the source raises from that decoding or yields different text.
- CodepointLexerProperties.QuotedString states the same success for such a string; it holds
  for the model, and for the source only when the string is ASCII.
- Error messages. Each `SyntaxError` is one error kind of a `LexError` datatype, without its
  message text.
- The Token class. It is not part of this model. A token is a record of its type, literal,
  start, end, line and column. `Token.reclassify` is recorded on the Fox token, in call order,
  and is not given a meaning. The token's origin field is left out.
- Line numbers. `line` and `column` are kept as fields. The lexers never increment `line`, and
  the string lexers never move `column`.
- The Fox fields `quotes` and `stringstack`. The lexer never reads them.
- `Compilation/Preparsing/Parser/Fallback.py` has no behaviour. `Compilation/Parsing/Nodes/__init__.py` holds comments only.
- `Printer.print`. It writes to standard output. `visit_generic` is left out too: it is the
  same None as `visit_error`, and no node dispatches to it.
- The unshown node classes. Alternation, Concatenation, Sequence, Parenthetical, Plus,
  Output, Root, Annotation, Error, String and Pseudo are plain constructors. Their
  `start`/`end` and string forms are `Unshown`. Python truthiness of a node is taken as false
  only for an empty Sequence: the shown classes define neither `__bool__` nor `__len__`.
- The Visitor classes. `accept`'s double dispatch to `visit_*` is the `match` in
  `GrammarPrinter.Print`.
- Python mechanics. Generators are a record of a state and an `exhausted` flag, resumed by a
  `Pull` specification function. The `defaultdict` prefix maps are functions from a key to a
  handler, and the IntFlag enumerations are `bv32` constants.
- Preparsing/Lexer/Tokentype.py is not part of this model. The codepoint lexer and the parser
  use the 23-member enumeration of `Compilation/Preparsing/Lexer/Tokentype.py`, which has the
  same names.
- Utf8Codec.Codec.constructor requires that the first two resumptions of the decoder yield,
  and Utf8Codec.Codec.Next requires that the next resumption yields. The only resumption that
  does not yield is one at a lead byte in 0x80–0xBF or 0xF8–0xFF. No layout matches such a
  byte, so it is never consumed and `decode` spins for ever; `NoLayoutSpinsForever` proves
  that. CodepointLexer.Lexer asks more through its `Coupled` invariant: the whole buffer must
  decode, so that its codec's window can be read as positions of one codepoint stream.
- CodepointLexer.Lexer.Comment requires a line break ahead; without one the source loops for
  ever. CodepointLexer.Lexer.Open, Handle, Step, Pull and Next require that their outcome is
  not `EndlessComment`; the specification functions still model that case.
- FoxLexerSpec.Run returns only the error when `lex()` raises. The source is a generator, so
  its consumer has already received every item yielded before the raise. The model does not
  keep those items with the error.
- FoxLexer.Lexer.Lex reports `FoxLexerSpec.Run`, so on an error it too gives the error
  without the items handed out before it.
- FoxLexerSpec.Newline returns only the error when `indents_and_dedents` raises an
  inconsistent dedent. The source has already yielded the NEWLINE token by then
  (`Compilation/Lexing/Lexer/Lexer.py:204-205`). On `"a\n  b\n c"` the source hands out
  IDENTIFIER, NEWLINE, INDENT, IDENTIFIER and NEWLINE before raising; the model gives the error.
- FoxLexer.Lexer.Newline reports `FoxLexerSpec.Newline`, with the same loss.
- GrammarParser.Parser: the parser works over the token sequence the lexer would hand out, not
  over a live lexer. Its constructor takes the tokens.
- GrammarParser.Parser.Parse requires a parse that finishes. On a stray `)` the source never
  returns, and `StrayCloserDiverges` proves that.
- GrammarLexer.Lexer.Next and CodepointLexer.Lexer.Next promise, after an error, only the
  lookahead and the `exhausted` flag. The markers the failed iteration left are not promised.
- GrammarParserSpec.PipeAnnotations: its own ensures say only where the cursor lands and whether a
  node is built; `GrammarParserProperties.PipeAnnotationsExtend` states the shape of what it builds.
- GrammarParserSpec.PipeAnnotation: its own ensures say only where the cursor lands and whether a
  node is built; `GrammarParserProperties.PipeAnnotationNeedsPipe` states the shape of what it builds.
- GrammarParser.Parser.PipeAnnotation: it equals `GrammarParserSpec.PipeAnnotation`, whose shape
  `GrammarParserProperties.PipeAnnotationNeedsPipe` states.
- GrammarParserSpec.MultAnnotations: its own ensures say only where the cursor lands and whether a
  node is built; `GrammarParserProperties.MultAnnotationsExtend` states the shape of what it builds.
- GrammarParserSpec.MultAnnotation: its own ensures say only where the cursor lands and whether a
  node is built; `GrammarParserProperties.MultAnnotationNeedsComma` states the shape of what it builds.
- GrammarParser.Parser.MultAnnotation: it equals `GrammarParserSpec.MultAnnotation`, whose shape
  `GrammarParserProperties.MultAnnotationNeedsComma` states.
- GrammarParserSpec.AnnotationOf: its own ensures say only where the cursor lands and whether a
  node is built; `GrammarParserProperties.AnnotationBrackets` states the shape of what it builds.
- GrammarParser.Parser.AnnotationOf: it equals `GrammarParserSpec.AnnotationOf`, whose shape
  `GrammarParserProperties.AnnotationBrackets` states.
- GrammarParserSpec.AtomParameter: its own ensures say only where the cursor lands and whether a
  node is built; `GrammarParserProperties.AtomParameterCall` states the shape of what it builds.
- GrammarParser.Parser.AtomParameter: it equals `GrammarParserSpec.AtomParameter`, whose shape
  `GrammarParserProperties.AtomParameterCall` states.
- GrammarParserSpec.StarParameter: its own ensures say only where the cursor lands and whether a
  node is built; `GrammarParserProperties.StarParameterPrefix` states the shape of what it builds.
- GrammarParser.Parser.StarParameter: it equals `GrammarParserSpec.StarParameter`, whose shape
  `GrammarParserProperties.StarParameterPrefix` states.
- GrammarParserSpec.MultParameters: its own ensures say only where the cursor lands and whether a
  node is built; `GrammarParserProperties.MultParametersExtend` states the shape of what it builds.
- GrammarParserSpec.MultParameter: its own ensures say only where the cursor lands and whether a
  node is built; `GrammarParserProperties.MultParameterNeedsComma` states the shape of what it builds.
- GrammarParser.Parser.MultParameter: it equals `GrammarParserSpec.MultParameter`, whose shape
  `GrammarParserProperties.MultParameterNeedsComma` states.
- GrammarParserSpec.AtomOutput: its own ensures say only where the cursor lands and whether a
  node is built; `GrammarParserProperties.AtomOutputIsAtomParameter` states the shape of what it builds.
- GrammarParser.Parser.AtomOutput: it equals `GrammarParserSpec.AtomOutput`, whose shape
  `GrammarParserProperties.AtomOutputIsAtomParameter` states.
- GrammarParserSpec.MultOutputs: its own ensures say only where the cursor lands and whether a
  node is built; `GrammarParserProperties.MultOutputsExtend` states the shape of what it builds.
- GrammarParserSpec.MultOutput: its own ensures say only where the cursor lands and whether a
  node is built; `GrammarParserProperties.MultOutputNeedsComma` states the shape of what it builds.
- GrammarParser.Parser.MultOutput: it equals `GrammarParserSpec.MultOutput`, whose shape
  `GrammarParserProperties.MultOutputNeedsComma` states.
- GrammarParserSpec.OutputOf: its own ensures say only where the cursor lands and whether a
  node is built; `GrammarParserProperties.OutputNeedsBrace` states the shape of what it builds.
- GrammarParser.Parser.OutputOf: it equals `GrammarParserSpec.OutputOf`, whose shape
  `GrammarParserProperties.OutputNeedsBrace` states.
- GrammarParser.Parser.NegativeLookahead is modelled but no parse method uses it, as in the
  source.
- GrammarParserProperties: the parser properties assume a lexed stream, in which every token
  type is a single member. `ShapedStreamIsLexed` proves that the codepoint lexer's stream is
  one.
