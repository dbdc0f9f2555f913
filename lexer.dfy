/**
 * The cursor-based scanner of `src/lex.rs`: the source text, the cursor
 * position and the character under the cursor. Every method changes the
 * cursor exactly as the matching function of LexSpec says.
 */
module Lexer {
  import opened Wrappers
  import opened Ascii
  import opened Tokens
  import opened LexSpec

  class Lexer {
    const data: seq<char>
    var currentPos: int
    var currentChar: Option<char>

    /** The character field always shows the character under the cursor. */
    ghost predicate Valid()
      reads this
    {
      0 <= currentPos && currentChar == CharAt(data, currentPos)
    }

    /**
     * `Lexer::new`: it is called by `src/main.rs` but not defined in
     * `src/lex.rs`, so a new lexer is taken to start on the first character
     * of its text.
     */
    constructor (data: seq<char>)
      ensures Valid()
      ensures this.data == data && currentPos == 0
    {
      this.data := data;
      currentPos := 0;
      currentChar := CharAt(data, 0);
    }

    /** `next_char`: one position on; the character there, or None past the end. */
    method NextChar()
      requires Valid()
      modifies this
      ensures Valid()
      ensures currentPos == old(currentPos) + 1
      ensures currentPos < |data| ==> currentChar == Some(data[currentPos])
      ensures currentPos >= |data| ==> currentChar == None
    {
      currentPos := currentPos + 1;
      currentChar := CharAt(data, currentPos);
    }

    /** `peek`: the character one position ahead, if there is one. */
    function Peek(): (r: Option<char>)
      reads this
      ensures r.Some? <==> 0 <= currentPos + 1 < |data|
      ensures r.Some? ==> r.value == data[currentPos + 1]
    {
      CharAt(data, currentPos + 1)
    }

    /** `skip_whitespace`: one space, tab or carriage return at most. */
    method SkipWhitespace()
      requires Valid()
      modifies this
      ensures Valid()
      ensures currentPos == SkipWhitespaceFrom(data, old(currentPos))
    {
      if currentChar.Some? {
        var c := currentChar.value;
        match c
        case ' ' => NextChar();
        case '\t' => NextChar();
        case '\r' => NextChar();
        case _ => return;
      }
    }

    /** `skip_comment`: from a `#`, to the next line break or the end of the text. */
    method SkipComment()
      requires Valid()
      modifies this
      ensures Valid()
      ensures currentPos == SkipCommentFrom(data, old(currentPos))
    {
      var c := if currentChar.Some? then currentChar.value else '\0';
      if c == '#' {
        while currentChar.Some?
          invariant Valid()
          invariant old(currentPos) <= currentPos
          invariant ScanWhile(data, currentPos, NotNewline) == ScanWhile(data, old(currentPos), NotNewline)
          decreases |data| - currentPos
        {
          if currentChar.value == '\n' {
            break;
          }
          NextChar();
        }
      }
    }

    /** `get_string`, called on the opening quote; a `panic!` becomes `Err`. */
    method GetString() returns (r: Result<string, LexError>)
      requires Valid()
      modifies this
      ensures Valid()
      ensures r.Ok? ==> ReadString(data, old(currentPos)) == Ok(Lexeme(r.value, currentPos))
      ensures r.Err? ==> ReadString(data, old(currentPos)) == Err(r.error) && currentPos == r.error.at
    {
      ghost var start := currentPos + 1;
      ghost var stop := ScanWhile(data, start, IsStringChar);
      NextChar();
      var stringVal := "";
      while currentChar.Some?
        invariant Valid()
        invariant start <= currentPos <= stop
        invariant ScanWhile(data, currentPos, IsStringChar) == stop
        invariant stringVal == Span(data, start, currentPos)
        decreases |data| - currentPos
      {
        var c := currentChar.value;
        if IsForbiddenInString(c) {
          assert currentPos == stop;
          return Err(BadStringChar(c, currentPos));
        }
        if c == '"' {
          break;
        }
        stringVal := stringVal + [c];
        NextChar();
      }
      assert currentPos == stop;
      r := Ok(stringVal);
    }

    /** `get_number`: digits and dots, as many as follow. */
    method GetNumber() returns (numVal: string)
      requires Valid()
      modifies this
      ensures Valid()
      ensures Lexeme(numVal, currentPos) == ReadNumber(data, old(currentPos))
    {
      numVal := "";
      while currentChar.Some?
        invariant Valid()
        invariant old(currentPos) <= currentPos
        invariant ScanWhile(data, currentPos, IsNumberChar) == ScanWhile(data, old(currentPos), IsNumberChar)
        invariant numVal == Span(data, old(currentPos), currentPos)
        decreases |data| - currentPos
      {
        var c := currentChar.value;
        if !IsNumberChar(c) {
          break;
        }
        numVal := numVal + [c];
        NextChar();
      }
    }

    /** `get_keyword_token`: the word under the cursor, looked up as a keyword. */
    method GetKeywordToken() returns (t: Token)
      requires Valid()
      modifies this
      ensures Valid()
      ensures currentPos == ReadWord(data, old(currentPos)).cursor
      ensures t == FromString(ReadWord(data, old(currentPos)).text)
    {
      ghost var start := currentPos;
      ghost var stop := ScanWhile(data, start + 1, IsAlpha);
      var word := "";
      while Peek().Some?
        invariant Valid()
        invariant start <= currentPos < stop
        invariant currentPos > start ==> currentPos < |data|
        invariant ScanWhile(data, currentPos + 1, IsAlpha) == stop
        invariant word == Span(data, start, currentPos)
        decreases |data| - currentPos
      {
        var next := Peek().value;
        word := word + [currentChar.value];
        if IsAlpha(next) {
          NextChar();
        } else {
          // the word ends with the cursor's character
          assert currentPos + 1 == stop && word == data[start..stop];
          break;
        }
      }
      assert currentPos + 1 == stop;
      assert word == ReadWord(data, start).text;
      t := FromString(word);
    }

    /** `get_token`: the next token, no token, or the lexical error that panics. */
    method GetToken() returns (r: Outcome)
      requires Valid()
      modifies this
      ensures Valid()
      ensures Step(r, currentPos) == NextToken(data, old(currentPos))
    {
      SkipWhitespace();
      SkipComment();
      ghost var q := currentPos;
      assert q == TokenStart(data, old(currentPos));
      if currentChar.Some? {
        var c := currentChar.value;
        var token: Token;
        if IsDigit(c) {
          var n := GetNumber();
          token := Token(Some(n), NUMBER);
        } else if IsAlpha(c) {
          token := GetKeywordToken();
        } else {
          match c
          case '+' => token := Token(Some([c]), PLUS);
          case '-' => token := Token(Some([c]), MINUS);
          case '/' => token := Token(Some([c]), SLASH);
          case '*' => token := Token(Some([c]), ASTERISK);
          case '=' =>
            if Peek() == Some('=') {
              NextChar();
              token := Token(None, EQEQ);
            } else {
              token := Token(Some([c]), EQ);
            }
          case '>' =>
            if Peek() == Some('=') {
              NextChar();
              token := Token(Some(">="), GTEQ);
            } else {
              token := Token(Some([c]), GT);
            }
          case '!' =>
            if Peek() == Some('=') {
              NextChar();
              token := Token(Some("!="), NOTEQ);
            } else {
              return Failed(BareBang(currentPos));
            }
          case '<' =>
            if Peek() == Some('=') {
              NextChar();
              token := Token(Some("<="), LTEQ);
            } else {
              token := Token(Some([c]), LT);
            }
          case '"' =>
            var s := GetString();
            if s.Err? {
              return Failed(s.error);
            }
            token := Token(Some(s.value), STRING);
          case '\0' => token := Token(None, EOF);
          case '\n' => token := Token(Some([c]), NEWLINE);
          case _ => return NoToken;
        }
        NextChar();
        r := Produced(token);
      } else {
        NextChar();
        r := NoToken;
      }
    }
  }
}
