/**
 * The character-cursor lexer of src/lexer/Lexer.py.  Every method advances
 * the cursor exactly as the functions of module Scanning say.
 */
module Lexing {
  import opened Wrappers
  import opened TokenTypes
  import opened Tokens
  import opened Numerals
  import opened Scanning

  class Lexer {
    const source: string
    var position: int
    var readPosition: int
    var lineNo: int
    var currentChar: Option<char>

    /** The read position runs one ahead, and the current character is the one under the cursor. */
    ghost predicate Valid()
      reads this
    {
      0 <= position && readPosition == position + 1 && currentChar == CharAt(source, position)
    }

    constructor (source: string)
      ensures Valid() && this.source == source
      ensures position == 0 && lineNo == 1
    {
      this.source := source;
      position := -1;
      readPosition := 0;
      lineNo := 1;
      currentChar := None;
      new;
      ReadChar();
    }

    /** `__read_char`: move the cursor to the read position. */
    method ReadChar()
      requires 0 <= readPosition
      modifies this`position, this`readPosition, this`currentChar
      ensures Valid()
      ensures position == old(readPosition)
    {
      if readPosition >= |source| {
        currentChar := None;
      } else {
        currentChar := Some(source[readPosition]);
      }
      position := readPosition;
      readPosition := readPosition + 1;
    }

    /** `__peek_char`: the character after the cursor, without moving. */
    function PeekChar(): (c: Option<char>)
      reads this
      requires Valid()
      ensures c == CharAt(source, position + 1)
    {
      if readPosition >= |source| then None else Some(source[readPosition])
    }

    /** `__new_token`: a token stamped with the cursor's line and position. */
    function NewToken(kind: TokenType, literal: Literal): (t: Token)
      reads this
      ensures t.kind == kind && t.literal == literal
      ensures t.lineNo == lineNo && t.position == position
    {
      Token(kind, literal, lineNo, position)
    }

    /** `__skip_whitespace`. */
    method SkipWhitespace()
      requires Valid()
      modifies this`position, this`readPosition, this`currentChar, this`lineNo
      ensures Valid()
      ensures (position, lineNo) == Scanning.SkipWhitespace(source, old(position), old(lineNo))
    {
      while currentChar.Some? && IsWhitespace(currentChar.value)
        invariant Valid()
        invariant Scanning.SkipWhitespace(source, position, lineNo)
               == Scanning.SkipWhitespace(source, old(position), old(lineNo))
        decreases |source| - position
      {
        SkipOneBlank(source, position, lineNo);
        if currentChar.value == '\n' {
          lineNo := lineNo + 1;
        }
        ReadChar();
      }
    }

    /** `__read_number`, from a digit under the cursor. */
    method ReadNumber() returns (token: Token)
      requires Valid() && currentChar.Some? && IsDigit(currentChar.value)
      modifies this`position, this`readPosition, this`currentChar
      ensures Valid()
      ensures (token.kind, token.literal, position) == ScanNumber(source, old(position))
      ensures token.lineNo == lineNo && token.position == position
    {
      var startPos := position;
      var dotCount := 0;
      var output := "";
      while currentChar.Some? && IsNumberPart(currentChar.value)
        invariant Valid() && startPos <= position <= |source| && dotCount <= 1
        invariant output == source[startPos..position]
        invariant NumberEnd(source, position, dotCount) == NumberEnd(source, startPos, 0)
        decreases |source| - position
      {
        NumberEndStep(source, position, dotCount);
        if currentChar.value == '.' {
          dotCount := dotCount + 1;
        }
        if dotCount > 1 {
          return NewToken(ILLEGAL, StrLit(source[startPos..position]));
        }
        assert source[startPos..position + 1] == source[startPos..position] + [source[position]];
        output := output + [source[position]];
        ReadChar();
      }
      NumberEndAtStop(source, position, dotCount);
      if dotCount == 0 {
        NumberEndCounts(source, startPos, 0);
        PointlessRunIsDigits(output);
        token := NewToken(INT, IntLit(DigitsValue(output)));
      } else {
        token := NewToken(FLOAT, FloatLit(FloatText(output)));
      }
    }

    /** `__read_identifier`: the identifier text from the cursor on. */
    method ReadIdentifier() returns (word: string)
      requires Valid() && position <= |source|
      modifies this`position, this`readPosition, this`currentChar
      ensures Valid()
      ensures position == IdentifierEnd(source, old(position))
      ensures word == source[old(position)..position]
    {
      var start := position;
      while currentChar.Some? && IsIdentifierPart(currentChar.value)
        invariant Valid() && start <= position <= |source|
        invariant IdentifierEnd(source, position) == IdentifierEnd(source, start)
        decreases |source| - position
      {
        ReadChar();
      }
      word := source[start..position];
    }

    /** `__read_string`, from the opening quote under the cursor. */
    method ReadString() returns (s: string)
      requires Valid() && currentChar == Some('"')
      modifies this`position, this`readPosition, this`currentChar
      ensures Valid()
      ensures (s, position) == ScanString(source, old(position))
    {
      ReadChar();
      var start := position;
      s := [];
      while currentChar.Some? && currentChar.value != '"'
        invariant Valid() && start <= position <= |source|
        invariant s == source[start..position]
        invariant StringEnd(source, position) == StringEnd(source, start)
        decreases |source| - position
      {
        s := s + [currentChar.value];
        ReadChar();
      }
      if currentChar == Some('"') {
        ReadChar();
      }
    }

    /** `next_token`: the next token, and the cursor moved past it. */
    method NextToken() returns (token: Token)
      requires Valid()
      modifies this`position, this`readPosition, this`currentChar, this`lineNo
      ensures Valid()
      ensures Step(token, position, lineNo) == Scanning.NextToken(source, old(position), old(lineNo))
    {
      SkipWhitespace();
      if currentChar.None? {
        token := NewToken(EOF, StrLit(""));
        ReadChar();
      } else {
        token := ReadToken();
      }
    }

    /** The `match` of `next_token` once a character is there. */
    method ReadToken() returns (token: Token)
      requires Valid() && currentChar.Some?
      modifies this`position, this`readPosition, this`currentChar, this`lineNo
      ensures Valid()
      ensures Step(token, position, lineNo) == Scanning.ScanToken(source, old(position), old(lineNo))
    {
      var c := currentChar.value;
      if c == '"' {
        var s := ReadString();
        return NewToken(STR, StrLit(s));
      } else if SymbolKind(c).Some? {
        token := NewToken(SymbolKind(c).value, StrLit([c]));
      } else if PairKind(c).Some? {
        var rule := PairKind(c).value;
        if PeekChar() == Some(rule.second) {
          ReadChar();
          token := NewToken(rule.pair, StrLit([c, currentChar.value]));
        } else {
          token := NewToken(rule.single, StrLit([c]));
        }
      } else if IsLetter(c) {
        var word := ReadIdentifier();
        return NewToken(LookupIdentifier(word), StrLit(word));
      } else if IsDigit(c) {
        token := ReadNumber();
        return;
      } else {
        token := NewToken(ILLEGAL, StrLit([c]));
      }
      ReadChar();
    }
  }
}
