# Tiny-BASIC lexer and emitter, modelled in Dafny

This project models the two working parts of a small Tiny-BASIC-to-C
translator written in Rust: the cursor-based lexer of `src/lex.rs` and the
two-buffer emitter of `src/emit.rs`. The parser of that repository
(`src/parser.rs`) only prints a message, so there is no grammar to model.

- `wrappers.dfy` (module `Wrappers`): `Option`, and `Result` for a `panic!`
  turned into a value.
- `ascii.dfy` (module `Ascii`): `is_digit(10)`, `is_alphabetic` and
  `to_lowercase`, on ASCII.
- `tokens.dfy` (module `Tokens`): the 27 token kinds, `Token` (its datatype
  constructor is `Token::new`), `TokenType::from_string` and the
  hand-written `TokenType::clone`. A reference table `Spelling` gives each
  keyword kind its lower-case word; `FromString` is proved against it.
- `lex_spec.dfy` (module `LexSpec`): every step of the lexer as a function of
  the text `data` and the cursor position `pos`. The character under the
  cursor is always `CharAt(data, pos)`, so the position is the whole state.
  One function, `ScanWhile`, stands for each `while let Some(c) =
  current_char` loop. `NextToken` is one call of `get_token`.
- `lexer.dfy` (module `Lexer`): the class `Lexer` with the fields `data`,
  `currentPos` and `currentChar` and the methods of `impl Lexer`, written
  step by step as in the source. Each method is proved to leave the cursor,
  and to return, exactly what the matching `LexSpec` function says.
  `Valid()` states that `currentChar` is the character at `currentPos`.
- `lex_properties.dfy` (module `LexProperties`): lemmas about `NextToken`:
  token shapes, the operator rules, progress and its bound over repeated
  calls, behaviour over text that ends in `"\n\0"`, and worked examples of
  the behaviour described below.
- `emit.dfy` (module `Emit`): the class `Emitter` with its `header` and `code`
  buffers, and the written content as the pure function `WrittenContent`.

Behaviour kept exactly as the code has it:

- `skip_whitespace` skips one blank at most. A second blank is not
  classified and gives "no token" (`OneBlankPerCall`).
- The unconditional `next_char` after every token also consumes the
  character that ended a number. In `1+2` the `+` is never seen
  (`NumberConsumesItsEnd`). A number may hold any number of dots.
- A character without a rule gives "no token" and the cursor stays on it, so
  calling `get_token` again gives the same answer (`UnrecognisedStays`).
- `==` carries no text. `EOF` carries none either.
- `get_keyword_token` collects a letter only while a character follows it.
  A word that runs to the very end of the text loses its last letter
  (`WordAtEndOfText`). Text that ends in `"\n\0"`, which is what
  `src/main.rs` builds, never has this case.
- `get_string` fails only on a forbidden character. A literal with no
  closing quote and no forbidden character up to the end of the text yields
  what follows the opening quote.
- `header_line` appends its text to the header but its line break to the
  code.

Further facts about the code that the model keeps:

- There are eleven keywords.
- One blank character is skipped per call of `get_token`.
- An unrecognised character gives no token; it is not an error.
- A string literal without a closing quote and without a forbidden
  character up to the end of the text yields the rest of the text.

Assumption: `src/main.rs:33` calls `Lexer::new`, but `src/lex.rs` does not
define it. The `Lexer` constructor models it by starting at position 0 on
the first character of the text.

## Model

| member | source | states |
|---|---|---|
| `Tokens.FromString` | src/lex.rs:209-226 | the text is the original-case word; the kind is the keyword whose spelling is the word's lower-case form, and IDENT exactly when no keyword is spelled so |
| `Tokens.FromStringIgnoresCase` | src/lex.rs:210-222 | a word and its lower-case form get the same kind |
| `Tokens.FromStringSpelling` | src/lex.rs:210-225 | each of the eleven keywords is recognised from its spelling in any case, with the word as text |
| `Tokens.SpellingInjective` | src/lex.rs:211-221 | no two keyword kinds share a spelling |
| `Tokens.Clone` | src/lex.rs:229-260 | `clone` is the identity on every kind |
| `Ascii.ToLowerChar` | src/lex.rs:210 | lower-casing keeps letters letters, leaves no upper-case letter and changes nothing else |
| `Ascii.ToLower` | src/lex.rs:210 | a word is lower-cased character by character, keeping its length |
| `Ascii.ToLowerIdempotent` | src/lex.rs:210 | lower-casing twice equals lower-casing once |
| `LexSpec.ScanWhile` | src/lex.rs:127-135 | a scan loop stops at the first position at or after the cursor whose character fails the test, or at the end; every character passed over passes it |
| `LexSpec.SkipWhitespaceFrom` | src/lex.rs:82-89 | the cursor moves on by one exactly when it is on a space, tab or carriage return, and otherwise stays |
| `LexSpec.SkipCommentFrom` | src/lex.rs:91-102 | nothing happens unless the cursor is on `#`; then it moves to the first line break after it, or to the end, passing no line break |
| `LexSpec.ReadNumber` | src/lex.rs:124-138 | the text is the run of digits and dots from the cursor, non-empty when it starts on a digit; the cursor stops on the first other character or at the end |
| `LexSpec.ReadString` | src/lex.rs:104-122 | failure exactly when a forbidden character comes before the next quote, reported with that character and position; otherwise the text lies strictly between the quotes and the cursor rests on the closing quote |
| `LexSpec.ReadStringFails` | src/lex.rs:108-119 | a literal fails exactly when some forbidden character comes before every quote after the opening one |
| `LexSpec.ReadWord` | src/lex.rs:140-157 | the cursor ends on the last letter of the run; the word is the run, minus its last letter when the run reaches the end of the text |
| `LexSpec.OperatorStep` | src/lex.rs:30-71 | an operator arm moves the cursor onto a second character exactly for `=`, `<`, `>`, `!` followed by `=`, otherwise it stays |
| `LexSpec.NextToken` | src/lex.rs:18-80 | every produced token moves the cursor strictly forward, to at most one past the end; no call moves it back |
| `Lexer.Lexer.constructor` | src/main.rs:33 | a new lexer is valid and starts at position 0 |
| `Lexer.Lexer.NextChar` | src/lex.rs:9-12 | the position grows by one and the current character is the one there, or None past the end |
| `Lexer.Lexer.Peek` | src/lex.rs:14-16 | the character one position ahead when there is one, None otherwise; no state changes |
| `Lexer.Lexer.SkipWhitespace` | src/lex.rs:82-89 | the cursor ends where `SkipWhitespaceFrom` says |
| `Lexer.Lexer.SkipComment` | src/lex.rs:91-102 | the cursor ends where `SkipCommentFrom` says |
| `Lexer.Lexer.GetString` | src/lex.rs:104-122 | the result and the cursor are those of `ReadString`; a forbidden character is reported where it stands |
| `Lexer.Lexer.GetNumber` | src/lex.rs:124-138 | the text and the cursor are those of `ReadNumber` |
| `Lexer.Lexer.GetKeywordToken` | src/lex.rs:140-157 | the cursor is that of `ReadWord` and the token is `FromString` of its word |
| `Lexer.Lexer.GetToken` | src/lex.rs:18-80 | the outcome and the new cursor are exactly `NextToken` of the old cursor |
| `LexProperties.TokenShapes` | src/lex.rs:25-69 | only EOF and `==` lack text; a NUMBER is a non-empty run of digits and dots; a STRING holds no quote or forbidden character; a keyword or IDENT holds letters only |
| `LexProperties.WordTokenShape` | src/lex.rs:140-157 | a word read from a letter is made of letters and gives a keyword or IDENT token with text |
| `LexProperties.OperatorTokenShape` | src/lex.rs:30-71 | every token of an operator arm has text except EOF and `==`, and is not a NUMBER, STRING, keyword or IDENT |
| `LexProperties.TwoCharOperators` | src/lex.rs:35-66 | `==`, `>=`, `<=`, `!=` consume both characters and give EQEQ without text, GTEQ, LTEQ and NOTEQ |
| `LexProperties.OneCharOperators` | src/lex.rs:35-66 | without a following `=`, `=`, `>`, `<` give EQ, GT, LT with their character as text, and `!` fails at its position |
| `LexProperties.SingleCharacterTokens` | src/lex.rs:31-69 | `+ - * /` give their operator token, `\0` gives EOF without text and a line break gives NEWLINE, each consuming one character |
| `LexProperties.NoTokenCases` | src/lex.rs:70-79 | no token means the cursor rests on a character without a rule, or has moved past the end |
| `LexProperties.UnrecognisedStays` | src/lex.rs:70 | on a character without a rule there is no token and the cursor does not move |
| `LexProperties.TokenRunBounded` | src/lex.rs:74-75 | after n produced tokens in a row the cursor has moved at least n positions, so at most one more token than the text is long can follow one another |
| `LexProperties.SentinelNotSkipped` | src/main.rs:30 | over text ending in a line break and `\0`, no token produced before the `\0` steps over it, and the `\0` yields EOF |
| `LexProperties.NothingAfterEnd` | src/lex.rs:76-79 | past the end there is no token and the cursor still moves on by one |
| `LexProperties.OneBlankPerCall` | src/lex.rs:82-89 | of two leading spaces only the first is skipped, and the call gives no token |
| `LexProperties.NumberConsumesItsEnd` | src/lex.rs:74 | in `1+2` the `+` ending the first number is consumed and the next token is the number `2` |
| `LexProperties.NumberWithDots` | src/lex.rs:127-135 | `1.2.3` is one NUMBER |
| `LexProperties.KeywordInAnyCase` | src/lex.rs:209-226 | `Print` gives the PRINT token with text `Print` |
| `LexProperties.WordAtEndOfText` | src/lex.rs:143-154 | a word that ends the text loses its last letter: `ab` gives IDENT `a` |
| `LexProperties.StringLiterals` | src/lex.rs:104-122 | `"hi"` gives STRING `hi`; a tab inside a literal fails at its position |
| `Emit.WrittenContent` | src/emit.rs:35-36 | the written text is the header followed by the code |
| `Emit.Emitter.Content` | src/emit.rs:35-36 | the current content starts with the header and continues with the code |
| `Emit.Emitter.constructor` | src/emit.rs:10-16 | both buffers are empty and the file path is the one given |
| `Emit.Emitter.Emit` | src/emit.rs:18-20 | the code gains the text at its end; header and file path are unchanged |
| `Emit.Emitter.EmitLine` | src/emit.rs:22-25 | the code gains the text and a line break; header and file path are unchanged |
| `Emit.Emitter.HeaderLine` | src/emit.rs:27-30 | the header gains the text and the code gains the line break; both old buffers are prefixes of the new ones |

## Left out

- `src/main.rs`: argument checking, reading the file, printing and the final
  panics are process plumbing. Its appending of `"\n\0"` is used only as the
  precondition of `SentinelNotSkipped`.
- `src/parser.rs`: a stub that only prints; it has no grammar, no symbol sets
  and no label checks to model.
- `Emitter::write_file`: creating and writing the file is filesystem I/O.
  It uses `write` and drops the byte count, so a short write can lose part
  of the text; the model states only the order of the text handed over
  (`WrittenContent`).
- Unicode: `is_alphabetic` and `to_lowercase` are narrowed to ASCII letters;
  a non-ASCII letter is here a character without a rule. `chars().nth` is
  modelled exactly, as indexing a sequence of characters.
- Panic messages: a panic is the outcome `Failed` with the offending
  character and position, not its text.
- The 64-bit width of `current_pos`: positions are unbounded, as reaching
  the wrap-around would take 2^63 calls of `next_char`.
- The `?` on `self.current_char` in the operator arms and the `expect` in
  `get_keyword_token` can never fire while `currentChar` is the character at
  the cursor, so the model has no path for them.
- `#[derive(Clone)]` on `Token` is Dafny's value semantics for datatypes.
