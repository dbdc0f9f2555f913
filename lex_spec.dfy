/**
 * The lexer's cursor steps as functions of the source text `data` and the
 * cursor position `pos`. The character under the cursor is always
 * `CharAt(data, pos)`, so a position is the whole observable state.
 * Each function gives what a step of `Lexer` computes and where it leaves
 * the cursor; class `Lexer` is proved to behave exactly so.
 */
module LexSpec {
  import opened Wrappers
  import opened Ascii
  import opened Tokens

  /** `data.chars().nth(pos)`: the character at `pos`, or None past either end. */
  function CharAt(data: seq<char>, pos: int): Option<char> {
    if 0 <= pos < |data| then Some(data[pos]) else None
  }

  /** The characters `skip_whitespace` skips. */
  predicate IsBlank(c: char) {
    c == ' ' || c == '\t' || c == '\r'
  }

  /** The characters `get_number` collects. */
  predicate IsNumberChar(c: char) {
    IsDigit(c) || c == '.'
  }

  /** The characters a comment runs over. */
  predicate NotNewline(c: char) {
    c != '\n'
  }

  /** The characters `get_string` rejects inside a literal. */
  predicate IsForbiddenInString(c: char) {
    c == '\n' || c == '\r' || c == '%' || c == '\t' || c == '\\'
  }

  /** The characters `get_string` collects. */
  predicate IsStringChar(c: char) {
    c != '"' && !IsForbiddenInString(c)
  }

  /**
   * The loop `while let Some(c) = current_char { if keep(c) { next_char } else { break } }`:
   * the first position at or after `pos` whose character fails `keep`, or the end.
   */
  function ScanWhile(data: seq<char>, pos: nat, keep: char -> bool): (r: nat)
    ensures pos <= r
    ensures pos <= |data| ==> r <= |data|
    ensures pos >= |data| ==> r == pos
    ensures forall i :: pos <= i < r ==> i < |data| && keep(data[i])
    ensures r < |data| ==> !keep(data[r])
    decreases |data| - pos
  {
    if pos < |data| && keep(data[pos]) then ScanWhile(data, pos + 1, keep) else pos
  }

  /** The text between two cursor positions, empty when they are not inside `data`. */
  function Span(data: seq<char>, from: nat, to: nat): string {
    if from <= to <= |data| then data[from..to] else []
  }

  /** A collected text and the cursor position the step leaves behind. */
  datatype Lexeme = Lexeme(text: string, cursor: nat)

  /** Why a `panic!` of the lexer fires, and at which position. */
  datatype LexError =
    | BadStringChar(c: char, at: nat)
    | BareBang(at: nat)

  /** What `get_token` gives back: a token, no token, or a panic. */
  datatype Outcome = Produced(token: Token) | NoToken | Failed(error: LexError)

  /** One call of `get_token`: its outcome and the cursor position afterwards. */
  datatype Step = Step(outcome: Outcome, cursor: nat)

  /** `skip_whitespace`: one blank character at most is skipped. */
  function SkipWhitespaceFrom(data: seq<char>, pos: nat): (r: nat)
    ensures r == pos || r == pos + 1
    ensures r == pos + 1 <==> pos < |data| && IsBlank(data[pos])
  {
    match CharAt(data, pos)
    case Some(c) => if IsBlank(c) then pos + 1 else pos
    case None => pos
  }

  /** `skip_comment`: from a `#`, the cursor moves to the next line break or to the end. */
  function SkipCommentFrom(data: seq<char>, pos: nat): (r: nat)
    ensures CharAt(data, pos) != Some('#') ==> r == pos
    ensures CharAt(data, pos) == Some('#') ==>
              pos < r <= |data| && (r < |data| ==> data[r] == '\n') &&
              forall i :: pos <= i < r ==> data[i] != '\n'
  {
    if CharAt(data, pos) == Some('#') then ScanWhile(data, pos, NotNewline) else pos
  }

  /**
   * `get_number`: the maximal run of digits and dots from `pos`, however many
   * dots it holds; the cursor stops on the first other character or past the end.
   */
  function ReadNumber(data: seq<char>, pos: nat): (r: Lexeme)
    ensures pos <= r.cursor
    ensures pos <= |data| ==> r.cursor <= |data| && r.text == data[pos..r.cursor]
    ensures pos > |data| ==> r == Lexeme([], pos)
    ensures forall i :: 0 <= i < |r.text| ==> IsNumberChar(r.text[i])
    ensures r.cursor < |data| ==> !IsNumberChar(data[r.cursor])
    ensures pos < |data| && IsDigit(data[pos]) ==> |r.text| > 0
  {
    var e := ScanWhile(data, pos, IsNumberChar);
    Lexeme(Span(data, pos, e), e)
  }

  /**
   * `get_string`, called on the opening quote at `pos`: the text strictly
   * between it and the next `"`. A line break, carriage return, `%`, tab or
   * backslash before that quote is an error at its position. On success the
   * cursor rests on the closing quote, or past the end when there is none.
   */
  function ReadString(data: seq<char>, pos: nat): (r: Result<Lexeme, LexError>)
    ensures r.Err? ==>
              r.error.BadStringChar? && pos < r.error.at < |data| &&
              data[r.error.at] == r.error.c && IsForbiddenInString(r.error.c) &&
              forall j :: pos < j < r.error.at ==> IsStringChar(data[j])
    ensures r.Ok? ==>
              pos < r.value.cursor && (pos < |data| ==> r.value.cursor <= |data|) &&
              (r.value.cursor < |data| ==> data[r.value.cursor] == '"') &&
              r.value.text == Span(data, pos + 1, r.value.cursor) &&
              forall i :: 0 <= i < |r.value.text| ==> IsStringChar(r.value.text[i])
  {
    var e := ScanWhile(data, pos + 1, IsStringChar);
    if e < |data| && IsForbiddenInString(data[e]) then
      Err(BadStringChar(data[e], e))
    else
      Ok(Lexeme(Span(data, pos + 1, e), e))
  }

  /**
   * A string literal fails exactly when a forbidden character comes before
   * the next quote.
   */
  lemma ReadStringFails(data: seq<char>, pos: nat)
    ensures ReadString(data, pos).Err? <==>
              exists i :: pos < i < |data| && IsForbiddenInString(data[i]) &&
                          forall j :: pos < j < i ==> data[j] != '"'
  {
  }

  /**
   * `get_keyword_token`'s loop, driven by `peek`: the current character is
   * collected while a character follows it, and the cursor moves on while the
   * following character is a letter. The cursor ends on the last letter of the
   * run. When the run reaches the end of `data`, its last letter is not
   * collected, as there is no following character to peek at.
   */
  function ReadWord(data: seq<char>, pos: nat): (r: Lexeme)
    ensures pos <= r.cursor
    ensures pos < |data| ==> r.cursor < |data|
    ensures pos >= |data| ==> r == Lexeme([], pos)
    ensures forall i :: pos < i <= r.cursor ==> IsAlpha(data[i])
    ensures r.cursor + 1 < |data| ==> !IsAlpha(data[r.cursor + 1])
    ensures r.cursor + 1 < |data| ==> r.text == data[pos..r.cursor + 1]
    ensures pos < |data| <= r.cursor + 1 ==> r.text == data[pos..r.cursor]
  {
    var e := ScanWhile(data, pos + 1, IsAlpha);
    if pos + 1 < |data| then
      Lexeme(data[pos..if e < |data| then e else |data| - 1], e - 1)
    else
      Lexeme([], e - 1)
  }

  /**
   * The `match` arms of `get_token` for the other characters: the outcome and
   * where the arm leaves the cursor, before the final `next_char`. An operator
   * followed by `=` moves the cursor onto that `=`.
   */
  function OperatorStep(data: seq<char>, q: nat, c: char): (r: Step)
    requires q < |data| && data[q] == c
    ensures r.cursor == q || r.cursor == q + 1
    ensures r.cursor < |data|
    ensures r.cursor == q + 1 <==> c in "=<>!" && CharAt(data, q + 1) == Some('=')
  {
    var two := CharAt(data, q + 1) == Some('=');
    match c
    case '+' => Step(Produced(Token(Some([c]), PLUS)), q)
    case '-' => Step(Produced(Token(Some([c]), MINUS)), q)
    case '/' => Step(Produced(Token(Some([c]), SLASH)), q)
    case '*' => Step(Produced(Token(Some([c]), ASTERISK)), q)
    case '=' => if two then Step(Produced(Token(None, EQEQ)), q + 1)
                else Step(Produced(Token(Some([c]), EQ)), q)
    case '>' => if two then Step(Produced(Token(Some(">="), GTEQ)), q + 1)
                else Step(Produced(Token(Some([c]), GT)), q)
    case '!' => if two then Step(Produced(Token(Some("!="), NOTEQ)), q + 1)
                else Step(Failed(BareBang(q)), q)
    case '<' => if two then Step(Produced(Token(Some("<="), LTEQ)), q + 1)
                else Step(Produced(Token(Some([c]), LT)), q)
    case '\0' => Step(Produced(Token(None, EOF)), q)
    case '\n' => Step(Produced(Token(Some([c]), NEWLINE)), q)
    case _ => Step(NoToken, q)
  }

  /** The position at which `get_token` classifies, after its two skips. */
  function TokenStart(data: seq<char>, pos: nat): nat {
    SkipCommentFrom(data, SkipWhitespaceFrom(data, pos))
  }

  /**
   * `get_token`: skip one blank and a comment, then classify the current
   * character. Every token but an unrecognised character ends with one more
   * `next_char`; past the end of `data` the cursor still moves on by one.
   */
  function NextToken(data: seq<char>, pos: nat): (r: Step)
    ensures r.outcome.Produced? ==> pos < r.cursor <= |data| + 1
    ensures pos <= r.cursor
  {
    var q := TokenStart(data, pos);
    match CharAt(data, q)
    case None => Step(NoToken, q + 1)
    case Some(c) =>
      if IsDigit(c) then
        var n := ReadNumber(data, q);
        Step(Produced(Token(Some(n.text), NUMBER)), n.cursor + 1)
      else if IsAlpha(c) then
        var w := ReadWord(data, q);
        Step(Produced(FromString(w.text)), w.cursor + 1)
      else if c == '"' then
        match ReadString(data, q)
        case Err(e) => Step(Failed(e), e.at)
        case Ok(s) => Step(Produced(Token(Some(s.text), STRING)), s.cursor + 1)
      else
        var s := OperatorStep(data, q, c);
        if s.outcome.Produced? then Step(s.outcome, s.cursor + 1) else s
  }
}
