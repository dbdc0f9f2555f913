/**
 * Token kinds and tokens of the Tiny-BASIC lexer, with the keyword lookup
 * `TokenType::from_string` and the hand-written `TokenType::clone`.
 * `Token::new` is the datatype constructor `Token`.
 */
module Tokens {
  import opened Wrappers
  import opened Ascii

  datatype TokenType =
    | EOF | NEWLINE | NUMBER | IDENT | STRING
      // keywords
    | LABEL | GOTO | PRINT | INPUT | LET | IF | THEN | ENDIF | WHILE | REPEAT | ENDWHILE
      // operators
    | EQ | PLUS | MINUS | ASTERISK | SLASH | EQEQ | NOTEQ | LT | LTEQ | GT | GTEQ

  /** A token: an optional text payload and its kind. */
  datatype Token = Token(text: Option<string>, kind: TokenType)

  /** The lower-case spelling of each keyword kind; the other kinds have none. */
  function Spelling(k: TokenType): Option<string> {
    match k
    case LABEL => Some("label")
    case GOTO => Some("goto")
    case PRINT => Some("print")
    case INPUT => Some("input")
    case LET => Some("let")
    case IF => Some("if")
    case THEN => Some("then")
    case ENDIF => Some("endif")
    case WHILE => Some("while")
    case REPEAT => Some("repeat")
    case ENDWHILE => Some("endwhile")
    case _ => None
  }

  predicate IsKeyword(k: TokenType) {
    Spelling(k).Some?
  }

  /** Distinct keyword kinds are spelled differently, so a word names at most one keyword. */
  lemma SpellingInjective(j: TokenType, k: TokenType)
    requires IsKeyword(j) && Spelling(j) == Spelling(k)
    ensures j == k
  {
  }

  /**
   * `TokenType::from_string`: a word becomes the keyword whose spelling is its
   * lower-case form, or IDENT when there is none; the text is always the
   * original-case word.
   */
  function FromString(input: string): (t: Token)
    ensures t.text == Some(input)
    ensures t.kind == IDENT || (IsKeyword(t.kind) && Spelling(t.kind) == Some(ToLower(input)))
    ensures t.kind == IDENT <==> forall k :: Spelling(k) != Some(ToLower(input))
  {
    var kind :=
      match ToLower(input)
      case "label" => LABEL
      case "goto" => GOTO
      case "print" => PRINT
      case "input" => INPUT
      case "let" => LET
      case "if" => IF
      case "then" => THEN
      case "endif" => ENDIF
      case "while" => WHILE
      case "repeat" => REPEAT
      case "endwhile" => ENDWHILE
      case _ => IDENT;
    Token(Some(input), kind)
  }

  /** Keyword matching ignores case: a word and its lower-case form get the same kind. */
  lemma FromStringIgnoresCase(w: string)
    ensures FromString(w).kind == FromString(ToLower(w)).kind
  {
    ToLowerIdempotent(w);
  }

  /** Every keyword is recognised from its own spelling, in any case. */
  lemma FromStringSpelling(k: TokenType, w: string)
    requires IsKeyword(k) && Some(ToLower(w)) == Spelling(k)
    ensures FromString(w) == Token(Some(w), k)
  {
  }

  /** `TokenType::clone`, written out variant by variant: the identity. */
  function Clone(t: TokenType): (r: TokenType)
    ensures r == t
  {
    match t
    case EOF => EOF
    case NEWLINE => NEWLINE
    case NUMBER => NUMBER
    case IDENT => IDENT
    case STRING => STRING
    case LABEL => LABEL
    case GOTO => GOTO
    case PRINT => PRINT
    case INPUT => INPUT
    case LET => LET
    case IF => IF
    case THEN => THEN
    case ENDIF => ENDIF
    case WHILE => WHILE
    case REPEAT => REPEAT
    case ENDWHILE => ENDWHILE
    case EQ => EQ
    case PLUS => PLUS
    case MINUS => MINUS
    case ASTERISK => ASTERISK
    case SLASH => SLASH
    case EQEQ => EQEQ
    case NOTEQ => NOTEQ
    case LT => LT
    case LTEQ => LTEQ
    case GT => GT
    case GTEQ => GTEQ
  }
}
