/** The token kinds and the token record shared by the lexer and the parser (tokens.go). */
module Tokens {
  import opened Outcomes
  import opened Format

  /**
   * `type TokenType int`: the kinds are the integers the `iota` block assigns,
   * from 0 in declaration order. `LeftParen` and `RightParen` are the names the
   * source gives to `[` and `]`. There is no end-of-input kind.
   */
  newtype TokenType = int

  const String: TokenType := 0
  const Number: TokenType := 1
  const False: TokenType := 2
  const True: TokenType := 3
  const Null: TokenType := 4
  const LeftBrace: TokenType := 5
  const RightBrace: TokenType := 6
  const LeftParen: TokenType := 7
  const RightParen: TokenType := 8
  const Comma: TokenType := 9
  const Colon: TokenType := 10

  /**
   * The loosely typed `Literal interface{}`: absent (`nil`), a boolean, the
   * text of a number (the float64 value itself is not modelled) or the bytes
   * of a string.
   */
  datatype Literal = Absent | Boolean(b: bool) | NumberText(digits: seq<byte>) | Text(bytes: seq<byte>)

  /** A token: its source text, its decoded literal, its 1-based line and its kind. */
  datatype Token = Token(lexeme: seq<byte>, literal: Literal, line: int, kind: TokenType)

  const TOKEN_OPEN: string := "Token<"
  const TOKEN_SEPARATOR: string := ", "
  const TOKEN_CLOSE: string := ">\n"

  /**
   * `Token.String`. The kind's name comes from a generated `String` method
   * on `TokenType` that is not part of this model, so it is a parameter.
   */
  function Show(t: Token, kindName: TokenType -> string): (s: string)
    ensures |s| == |TOKEN_OPEN| + |kindName(t.kind)| + |TOKEN_SEPARATOR| + |t.lexeme| + |TOKEN_CLOSE|
    ensures s[..|TOKEN_OPEN|] == TOKEN_OPEN
    ensures s[|TOKEN_OPEN|..|TOKEN_OPEN| + |kindName(t.kind)|] == kindName(t.kind)
    ensures s[|TOKEN_OPEN| + |kindName(t.kind)|..|TOKEN_OPEN| + |kindName(t.kind)| + |TOKEN_SEPARATOR|]
            == TOKEN_SEPARATOR
    ensures s[|s| - |TOKEN_CLOSE| - |t.lexeme|..|s| - |TOKEN_CLOSE|] == Chars(t.lexeme)
    ensures s[|s| - |TOKEN_CLOSE|..] == TOKEN_CLOSE
  {
    TOKEN_OPEN + kindName(t.kind) + TOKEN_SEPARATOR + Chars(t.lexeme) + TOKEN_CLOSE
  }

  /** Two tokens of the same kind print alike exactly when their lexemes are equal. */
  lemma ShowDeterminesLexeme(t: Token, u: Token, kindName: TokenType -> string)
    requires t.kind == u.kind
    ensures Show(t, kindName) == Show(u, kindName) <==> t.lexeme == u.lexeme
  {
    if Show(t, kindName) == Show(u, kindName) {
      var s := Show(t, kindName);
      assert Chars(t.lexeme) == Chars(u.lexeme);
      assert forall i :: 0 <= i < |t.lexeme| ==> t.lexeme[i] == Chars(t.lexeme)[i] as int;
    }
  }
}
