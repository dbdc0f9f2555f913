/**
 * What `get_token` guarantees, stated over LexSpec.NextToken: the shape of
 * each token, the operator rules, progress of the cursor, and the behaviour
 * kept from the source that a reader might not expect.
 */
module LexProperties {
  import opened Wrappers
  import opened Ascii
  import opened Tokens
  import opened LexSpec

  /** A character `get_token` has no rule for. */
  predicate IsUnrecognised(c: char) {
    !IsDigit(c) && !IsAlpha(c) && !IsBlank(c) && c !in "#\"+-*/=<>!\0\n"
  }

  /** The token kinds that come without text. */
  predicate HasNoText(k: TokenType) {
    k == EOF || k == EQEQ
  }

  /** The shape of a token: its text and the characters it is made of. */
  predicate WellShaped(t: Token) {
    (t.text.None? <==> HasNoText(t.kind)) &&
    (t.kind == NUMBER ==>
       |t.text.value| > 0 && forall i :: 0 <= i < |t.text.value| ==> IsNumberChar(t.text.value[i])) &&
    (t.kind == STRING ==>
       forall i :: 0 <= i < |t.text.value| ==> IsStringChar(t.text.value[i])) &&
    ((t.kind == IDENT || IsKeyword(t.kind)) ==>
       forall i :: 0 <= i < |t.text.value| ==> IsAlpha(t.text.value[i]))
  }

  /** A word read from a letter is made of letters, and is a keyword or an IDENT. */
  lemma WordTokenShape(data: seq<char>, q: nat)
    requires q < |data| && IsAlpha(data[q])
    ensures WellShaped(FromString(ReadWord(data, q).text))
  {
  }

  /**
   * The operator arms give well-shaped tokens, and never a NUMBER, STRING,
   * keyword or IDENT.
   */
  lemma OperatorTokenShape(data: seq<char>, q: nat)
    requires q < |data|
    ensures var s := OperatorStep(data, q, data[q]);
      s.outcome.Produced? ==> WellShaped(s.outcome.token)
    ensures var s := OperatorStep(data, q, data[q]);
      s.outcome.Produced? ==>
        s.outcome.token.kind !in {NUMBER, STRING, IDENT} && !IsKeyword(s.outcome.token.kind)
  {
  }

  /**
   * Every token `get_token` produces is well shaped: only EOF and `==` lack
   * text; a NUMBER is a non-empty run of digits and dots; a STRING holds no
   * quote or forbidden character; a keyword or IDENT holds letters only.
   */
  lemma TokenShapes(data: seq<char>, pos: nat)
    ensures NextToken(data, pos).outcome.Produced? ==> WellShaped(NextToken(data, pos).outcome.token)
  {
    var q := TokenStart(data, pos);
    if q < |data| {
      if IsDigit(data[q]) {
      } else if IsAlpha(data[q]) {
        WordTokenShape(data, q);
      } else if data[q] != '"' {
        OperatorTokenShape(data, q);
      }
    }
  }

  /** `==`, `>=`, `<=` and `!=` take both characters; only `==` carries no text. */
  lemma TwoCharOperators(data: seq<char>, q: nat)
    requires q + 1 < |data| && data[q + 1] == '='
    ensures data[q] == '=' ==> NextToken(data, q) == Step(Produced(Token(None, EQEQ)), q + 2)
    ensures data[q] == '>' ==> NextToken(data, q) == Step(Produced(Token(Some(">="), GTEQ)), q + 2)
    ensures data[q] == '<' ==> NextToken(data, q) == Step(Produced(Token(Some("<="), LTEQ)), q + 2)
    ensures data[q] == '!' ==> NextToken(data, q) == Step(Produced(Token(Some("!="), NOTEQ)), q + 2)
  {
  }

  /** Without a following `=`, `=`, `>` and `<` stand alone and a bare `!` is an error. */
  lemma OneCharOperators(data: seq<char>, q: nat)
    requires q < |data| && CharAt(data, q + 1) != Some('=')
    ensures data[q] == '=' ==> NextToken(data, q) == Step(Produced(Token(Some("="), EQ)), q + 1)
    ensures data[q] == '>' ==> NextToken(data, q) == Step(Produced(Token(Some(">"), GT)), q + 1)
    ensures data[q] == '<' ==> NextToken(data, q) == Step(Produced(Token(Some("<"), LT)), q + 1)
    ensures data[q] == '!' ==> NextToken(data, q) == Step(Failed(BareBang(q)), q)
  {
  }

  /** `+ - * /`, the end marker `\0` and the line break each take one character. */
  lemma SingleCharacterTokens(data: seq<char>, q: nat)
    requires q < |data|
    ensures data[q] == '+' ==> NextToken(data, q) == Step(Produced(Token(Some("+"), PLUS)), q + 1)
    ensures data[q] == '-' ==> NextToken(data, q) == Step(Produced(Token(Some("-"), MINUS)), q + 1)
    ensures data[q] == '*' ==> NextToken(data, q) == Step(Produced(Token(Some("*"), ASTERISK)), q + 1)
    ensures data[q] == '/' ==> NextToken(data, q) == Step(Produced(Token(Some("/"), SLASH)), q + 1)
    ensures data[q] == '\0' ==> NextToken(data, q) == Step(Produced(Token(None, EOF)), q + 1)
    ensures data[q] == '\n' ==> NextToken(data, q) == Step(Produced(Token(Some("\n"), NEWLINE)), q + 1)
  {
  }

  /**
   * "No token" means one of two things: the cursor rests on a character with no
   * rule (a blank that follows the one blank skipped counts as such), or it has
   * moved past the end of the text.
   */
  lemma NoTokenCases(data: seq<char>, pos: nat)
    ensures var r := NextToken(data, pos);
      r.outcome.NoToken? ==>
        (r.cursor < |data| && (IsUnrecognised(data[r.cursor]) || IsBlank(data[r.cursor]))) ||
        r.cursor > |data|
  {
  }

  /** On a character with no rule, `get_token` returns no token and does not move. */
  lemma UnrecognisedStays(data: seq<char>, q: nat)
    requires q < |data| && IsUnrecognised(data[q])
    ensures NextToken(data, q) == Step(NoToken, q)
  {
  }

  /** The cursor after `n` calls of `get_token` that all produced a token. */
  function AfterTokens(data: seq<char>, pos: nat, n: nat): Option<nat>
    decreases n
  {
    if n == 0 then Some(pos)
    else
      var s := NextToken(data, pos);
      if s.outcome.Produced? then AfterTokens(data, s.cursor, n - 1) else None
  }

  /**
   * Every produced token moves the cursor on, and never beyond one past the
   * end: from `pos`, at most `|data| + 1 - pos` tokens can follow one another.
   */
  lemma {:induction false} TokenRunBounded(data: seq<char>, pos: nat, n: nat)
    requires AfterTokens(data, pos, n).Some?
    ensures AfterTokens(data, pos, n).value >= pos + n
    ensures n > 0 ==> AfterTokens(data, pos, n).value <= |data| + 1
    ensures n > 0 ==> pos + n <= |data| + 1
    decreases n
  {
    if n > 0 {
      var s := NextToken(data, pos);
      TokenRunBounded(data, s.cursor, n - 1);
    }
  }

  /** Text that ends in a line break and the end marker `\0`, as the driver builds it. */
  predicate EndsWithSentinel(data: seq<char>) {
    |data| >= 2 && data[|data| - 2] == '\n' && data[|data| - 1] == '\0'
  }

  /**
   * Over such text, no token produced before the end marker steps over it: the
   * marker is reached, and then it yields EOF.
   */
  lemma SentinelNotSkipped(data: seq<char>, pos: nat)
    requires EndsWithSentinel(data) && pos < |data| - 1
    ensures NextToken(data, pos).outcome.Produced? ==> NextToken(data, pos).cursor <= |data| - 1
    ensures NextToken(data, |data| - 1) == Step(Produced(Token(None, EOF)), |data|)
  {
  }

  /** Past the end of the text, `get_token` produces no token and still moves on. */
  lemma NothingAfterEnd(data: seq<char>, pos: nat)
    requires pos >= |data|
    ensures NextToken(data, pos) == Step(NoToken, pos + 1)
  {
  }

  /** Only one blank is skipped per call: the second of two spaces gives no token. */
  lemma OneBlankPerCall()
    ensures NextToken("  +", 0) == Step(NoToken, 1)
    ensures NextToken("  +", 1) == Step(Produced(Token(Some("+"), PLUS)), 3)
  {
  }

  /**
   * The character that ends a number is consumed with it: in `1+2` the `+` is
   * never classified, and the next token is the number `2`.
   */
  lemma NumberConsumesItsEnd()
    ensures NextToken("1+2", 0) == Step(Produced(Token(Some("1"), NUMBER)), 2)
    ensures NextToken("1+2", 2) == Step(Produced(Token(Some("2"), NUMBER)), 4)
  {
    var d := "1+2";
    assert !IsNumberChar(d[1]) && ScanWhile(d, 1, IsNumberChar) == 1;
    assert ScanWhile(d, 0, IsNumberChar) == 1;
    assert ReadNumber(d, 0) == Lexeme("1", 1);
    assert ScanWhile(d, 3, IsNumberChar) == 3;
    assert ScanWhile(d, 2, IsNumberChar) == 3;
    assert ReadNumber(d, 2) == Lexeme("2", 3);
  }

  /** A number may hold any number of dots. */
  lemma NumberWithDots()
    ensures NextToken("1.2.3\n", 0) == Step(Produced(Token(Some("1.2.3"), NUMBER)), 6)
  {
    var d := "1.2.3\n";
    assert !IsNumberChar(d[5]) && ScanWhile(d, 5, IsNumberChar) == 5;
    assert ScanWhile(d, 0, IsNumberChar) == 5;
    assert ReadNumber(d, 0) == Lexeme("1.2.3", 5);
  }

  /** Keywords are matched in any case and keep their original spelling as text. */
  lemma KeywordInAnyCase()
    ensures NextToken("Print x", 0) == Step(Produced(Token(Some("Print"), PRINT)), 5)
  {
    var d := "Print x";
    assert !IsAlpha(d[5]) && ScanWhile(d, 5, IsAlpha) == 5;
    assert ScanWhile(d, 1, IsAlpha) == 5;
    assert ReadWord(d, 0) == Lexeme("Print", 4);
    assert TokenStart(d, 0) == 0;
    assert ToLower("Print") == "print";
    FromStringSpelling(PRINT, "Print");
  }

  /** A word that runs to the very end of the text loses its last letter. */
  lemma WordAtEndOfText()
    ensures NextToken("ab", 0) == Step(Produced(Token(Some("a"), IDENT)), 2)
  {
    var d := "ab";
    assert ScanWhile(d, 2, IsAlpha) == 2;
    assert ScanWhile(d, 1, IsAlpha) == 2;
    assert ReadWord(d, 0) == Lexeme("a", 1);
    assert ToLower("a") == "a";
  }

  /** A string literal's text excludes both quotes; a tab inside it is an error. */
  lemma StringLiterals()
    ensures NextToken("\"hi\"\n", 0) == Step(Produced(Token(Some("hi"), STRING)), 4)
    ensures NextToken("\"a\tb\"", 0) == Step(Failed(BadStringChar('\t', 2)), 2)
  {
    var d := "\"hi\"\n";
    assert !IsStringChar(d[3]) && ScanWhile(d, 3, IsStringChar) == 3;
    assert ScanWhile(d, 1, IsStringChar) == 3;
    assert !IsForbiddenInString(d[3]) && Span(d, 1, 3) == "hi";
    assert ReadString(d, 0) == Ok(Lexeme("hi", 3));
    var e := "\"a\tb\"";
    assert !IsStringChar(e[2]) && ScanWhile(e, 2, IsStringChar) == 2;
    assert ScanWhile(e, 1, IsStringChar) == 2;
  }
}
