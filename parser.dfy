/**
 * The parser (parser.go): a recursive-descent recogniser over the token list
 * with one cursor.
 *
 * The first half states, as mutually recursive functions over a position in
 * the token list, what each parsing method returns and where it leaves the
 * cursor (`ValueFrom`, `ObjectFrom`, ...). The second half is the `Parser`
 * class, whose methods are proved to behave as those functions say, and
 * `Parse`, which runs the lexer and then the parser.
 *
 * The source reads `p.tokens[p.current]` unchecked (in `advance` and `peek`);
 * running off the end is a Go panic, `Panicked` here and `Panic` in results.
 */
module Parsing {
  import opened Outcomes
  import opened Format
  import opened Tokens
  import Lexing

  const UNEXPECTED_TOKEN: string := "Unexpected token."
  const EXPECTED_CLOSE_BRACE: string := "Expected a '}' or separator between values."
  const EXPECTED_KEY: string := "Expected a key of type 'String'."
  const EXPECTED_COLON: string := "Expected ':' after key"
  const EXPECTED_CLOSE_BRACKET: string := "Expected a ']' or separator between values."

  /** `ParserError`: the offending token and a message. */
  datatype ParserError = ParserError(token: Token, msg: string)

  const ERROR_OPEN: string := "Error [line "
  const ERROR_MIDDLE: string := "]. "
  const GOT_OPEN: string := " Got token '"
  const GOT_CLOSE: string := "'."

  /** `ParserError.Error`: `Error [line L]. <msg> Got token '<lexeme>'.` */
  function Describe(e: ParserError): (s: string)
    ensures |s| == |ERROR_OPEN| + |Decimal(e.token.line)| + |ERROR_MIDDLE| + |e.msg|
                   + |GOT_OPEN| + |e.token.lexeme| + |GOT_CLOSE|
    ensures s[..|ERROR_OPEN|] == ERROR_OPEN
    ensures s[|s| - |GOT_CLOSE|..] == GOT_CLOSE
    ensures var tail := ERROR_MIDDLE + e.msg + GOT_OPEN + Chars(e.token.lexeme) + GOT_CLOSE;
            s[|s| - |tail|..] == tail
  {
    ERROR_OPEN + Decimal(e.token.line) + ERROR_MIDDLE + e.msg + GOT_OPEN + Chars(e.token.lexeme) + GOT_CLOSE
  }

  /** The rendering keeps the line, sign included, and ends with `]. `, the message and the lexeme. */
  lemma DescribeRoundTrip(e: ParserError)
    ensures ReadIntAfter(ERROR_OPEN, Describe(e)) == Some(e.token.line)
    ensures var tail := ERROR_MIDDLE + e.msg + GOT_OPEN + Chars(e.token.lexeme) + GOT_CLOSE;
            Describe(e)[|Describe(e)| - |tail|..] == tail
  {
    var tail := ERROR_MIDDLE + e.msg + GOT_OPEN + Chars(e.token.lexeme) + GOT_CLOSE;
    assert Describe(e) == ERROR_OPEN + Decimal(e.token.line) + tail;
    DecimalRoundTrip(ERROR_OPEN, e.token.line, tail);
  }

  /**
   * How a parsing method ends: returning nil with the cursor at next, returning
   * a `ParserError` with the cursor at at, or panicking.
   */
  datatype Parsed = Accepted(next: nat) | Rejected(error: ParserError, at: nat) | Panicked

  /** r leaves the cursor between pos and end. */
  predicate Within(r: Parsed, pos: nat, end: nat)
  {
    match r
    case Accepted(next) => pos <= next <= end
    case Rejected(_, at) => pos <= at <= end
    case Panicked => true
  }

  /** The five messages the parser reports. */
  const Messages: set<string> :=
    {UNEXPECTED_TOKEN, EXPECTED_CLOSE_BRACE, EXPECTED_KEY, EXPECTED_COLON, EXPECTED_CLOSE_BRACKET}

  /** A rejection reports one of the five messages and a token from pos on. */
  predicate Reports(r: Parsed, ts: seq<Token>, pos: nat)
    requires pos <= |ts|
  {
    r.Rejected? ==> r.error.msg in Messages && exists i :: pos <= i < |ts| && ts[i] == r.error.token
  }

  /** What `check` answers with the cursor at pos, when it does not panic. */
  predicate CheckAt(ts: seq<Token>, pos: nat, kind: TokenType)
  {
    pos < |ts| && ts[pos].kind == kind
  }

  /** `consume` at pos. */
  function ConsumeAt(ts: seq<Token>, pos: nat, kind: TokenType, msg: string): (r: Parsed)
    requires pos <= |ts|
    ensures Within(r, pos, |ts|)
    ensures r.Accepted? <==> CheckAt(ts, pos, kind)
    ensures r.Accepted? ==> r.next == pos + 1
    ensures r.Rejected? ==> r.at == pos < |ts| && r.error == ParserError(ts[pos], msg)
  {
    if pos >= |ts| then Panicked // `peek` indexes past the end
    else if ts[pos].kind != kind then Rejected(ParserError(ts[pos], msg), pos)
    else Accepted(pos + 1)
  }

  /** `value` with the cursor at pos. */
  function ValueFrom(ts: seq<Token>, pos: nat): (r: Parsed)
    requires pos <= |ts|
    ensures Within(r, pos, |ts|) && Reports(r, ts, pos)
    ensures r.Accepted? ==> r.next > pos
    decreases |ts| - pos, 0
  {
    if pos >= |ts| then Panicked // `advance` indexes past the end
    else
      var next := ts[pos];
      var k := next.kind;
      if k == String || k == Number || k == Null || k == True || k == False then Accepted(pos + 1)
      else if k == LeftBrace then ObjectFrom(ts, pos + 1)
      else if k == LeftParen then ArrayFrom(ts, pos + 1)
      else Rejected(ParserError(next, UNEXPECTED_TOKEN), pos + 1)
  }

  /** `object`, called with the cursor just past the `{`. */
  function ObjectFrom(ts: seq<Token>, pos: nat): (r: Parsed)
    requires pos <= |ts|
    ensures Within(r, pos, |ts|) && Reports(r, ts, pos)
    ensures r.Accepted? ==> r.next > pos
    decreases |ts| - pos, 3
  {
    var entries := if CheckAt(ts, pos, RightBrace) then Accepted(pos) else EntriesFrom(ts, pos);
    match entries
    case Accepted(p) => ConsumeAt(ts, p, RightBrace, EXPECTED_CLOSE_BRACE)
    case _ => entries
  }

  /** `objectEntries` at pos. */
  function EntriesFrom(ts: seq<Token>, pos: nat): (r: Parsed)
    requires pos <= |ts|
    ensures Within(r, pos, |ts|) && Reports(r, ts, pos)
    decreases |ts| - pos, 2
  {
    if !CheckAt(ts, pos, String) then Accepted(pos)
    else
      match EntryFrom(ts, pos)
      case Accepted(p) => MoreEntriesFrom(ts, p)
      case failed => failed
  }

  /** The `for p.match(Comma)` loop of `objectEntries`, from pos. */
  function MoreEntriesFrom(ts: seq<Token>, pos: nat): (r: Parsed)
    requires pos <= |ts|
    ensures Within(r, pos, |ts|) && Reports(r, ts, pos)
    decreases |ts| - pos, 2
  {
    if !CheckAt(ts, pos, Comma) then Accepted(pos)
    else
      match EntryFrom(ts, pos + 1)
      case Accepted(p) => MoreEntriesFrom(ts, p)
      case failed => failed
  }

  /** `objectEntry` at pos. */
  function EntryFrom(ts: seq<Token>, pos: nat): (r: Parsed)
    requires pos <= |ts|
    ensures Within(r, pos, |ts|) && Reports(r, ts, pos)
    ensures r.Accepted? ==> r.next > pos
    decreases |ts| - pos, 1
  {
    match ConsumeAt(ts, pos, String, EXPECTED_KEY)
    case Accepted(p) =>
      (match ConsumeAt(ts, p, Colon, EXPECTED_COLON)
       case Accepted(q) => ValueFrom(ts, q)
       case failed => failed)
    case failed => failed
  }

  /** `array`, called with the cursor just past the `[`. */
  function ArrayFrom(ts: seq<Token>, pos: nat): (r: Parsed)
    requires pos <= |ts|
    ensures Within(r, pos, |ts|) && Reports(r, ts, pos)
    ensures r.Accepted? ==> r.next > pos
    decreases |ts| - pos, 3
  {
    var items := ItemsFrom(ts, pos);
    match items
    case Accepted(p) => ConsumeAt(ts, p, RightParen, EXPECTED_CLOSE_BRACKET)
    case _ => items
  }

  /** The values of `array` up to its `]`, from pos: none when the `]` follows at once. */
  function ItemsFrom(ts: seq<Token>, pos: nat): (r: Parsed)
    requires pos <= |ts|
    ensures Within(r, pos, |ts|) && Reports(r, ts, pos)
    decreases |ts| - pos, 2
  {
    if CheckAt(ts, pos, RightParen) then Accepted(pos)
    else
      match ValueFrom(ts, pos)
      case Accepted(p) => MoreValuesFrom(ts, p)
      case failed => failed
  }

  /** The `for p.match(Comma)` loop of `array`, from pos. */
  function MoreValuesFrom(ts: seq<Token>, pos: nat): (r: Parsed)
    requires pos <= |ts|
    ensures Within(r, pos, |ts|) && Reports(r, ts, pos)
    decreases |ts| - pos, 2
  {
    if !CheckAt(ts, pos, Comma) then Accepted(pos)
    else
      match ValueFrom(ts, pos + 1)
      case Accepted(p) => MoreValuesFrom(ts, p)
      case failed => failed
  }

  /** `parse` on a fresh parser: the root must open with `{` or `[`. */
  function DocumentFrom(ts: seq<Token>): (r: Parsed)
    ensures Within(r, 0, |ts|) && Reports(r, ts, 0)
  {
    if CheckAt(ts, 0, LeftBrace) then ObjectFrom(ts, 1)
    else if CheckAt(ts, 0, LeftParen) then ArrayFrom(ts, 1)
    else if |ts| == 0 then Panicked // `peek` indexes past the end
    else Rejected(ParserError(ts[0], UNEXPECTED_TOKEN), 0)
  }

  /** What `Parse` can return as its error: the lexer's, or a `ParserError`. */
  datatype Error = Lexical(scan: Lexing.ScanError) | Syntax(syntax: ParserError)

  /** `Parse`: lex the whole buffer, then parse the token list from its start. */
  function Validate(src: seq<byte>, floatOk: seq<byte> -> bool): Outcome<Error>
  {
    match Lexing.Lex(src, floatOk)
    case Err(e) => Err(Lexical(e))
    case Panic => Panic
    case Ok(ts) =>
      match DocumentFrom(ts)
      case Accepted(_) => Ok(())
      case Rejected(e, _) => Err(Syntax(e))
      case Panicked => Panic
  }

  /** The error-only view of a `consume` result. */
  function Status(r: Result<Token, ParserError>): (o: Outcome<ParserError>)
    ensures o.Ok? <==> r.Ok?
    ensures o.Err? <==> r.Err?
    ensures r.Err? ==> o.error == r.error
  {
    match r
    case Ok(_) => Ok(())
    case Err(e) => Err(e)
    case Panic => Panic
  }

  class Parser {
    const tokens: seq<Token>
    var current: nat

    /** `&Parser{tokens: tokens}`. */
    constructor (tokens: seq<Token>)
      ensures this.tokens == tokens && current == 0
    {
      this.tokens := tokens;
      current := 0;
    }

    /** The method returned r and left the cursor as p says. */
    ghost predicate Ended(p: Parsed, r: Outcome<ParserError>)
      reads this
    {
      match p
      case Accepted(next) => r == Ok(()) && current == next
      case Rejected(e, at) => r == Err(e) && current == at
      case Panicked => r == Panic
    }

    predicate IsAtEnd()
      reads this
    {
      current >= |tokens|
    }

    /** `peek`; reading past the end is the caller's panic to handle. */
    function Peek(): Token
      reads this
      requires current < |tokens|
    {
      tokens[current]
    }

    function Check(kind: TokenType): (b: bool)
      reads this
      ensures b == CheckAt(tokens, current, kind)
    {
      if IsAtEnd() then false else Peek().kind == kind
    }

    method Advance() returns (t: Token)
      requires current < |tokens|
      modifies this`current
      ensures t == tokens[old(current)] && current == old(current) + 1
    {
      t := tokens[current];
      current := current + 1;
    }

    /** `match` with one kind: consume the next token when it has that kind. */
    method Match(kind: TokenType) returns (b: bool)
      requires current <= |tokens|
      modifies this`current
      ensures b == CheckAt(tokens, old(current), kind)
      ensures current == old(current) + (if b then 1 else 0)
    {
      b := Check(kind);
      if b {
        var _ := Advance();
      }
    }

    method Consume(kind: TokenType, msg: string) returns (r: Result<Token, ParserError>)
      requires current <= |tokens|
      modifies this`current
      ensures Ended(ConsumeAt(tokens, old(current), kind, msg), Status(r))
      ensures r.Ok? ==> r.value == tokens[old(current)]
    {
      if IsAtEnd() {
        return Panic; // `peek` indexes tokens[current] unchecked
      }
      if Peek().kind != kind {
        return Err(ParserError(Peek(), msg));
      }
      var t := Advance();
      r := Ok(t);
    }

    /** `parse`. */
    method ParseRoot() returns (r: Outcome<ParserError>)
      requires current == 0
      modifies this`current
      ensures Ended(DocumentFrom(tokens), r)
    {
      var brace := Match(LeftBrace);
      if brace {
        r := Object();
        return;
      }
      var bracket := Match(LeftParen);
      if bracket {
        r := Array();
        return;
      }
      if IsAtEnd() {
        return Panic; // `peek` indexes tokens[current] unchecked
      }
      r := Err(ParserError(Peek(), UNEXPECTED_TOKEN));
    }

    method Object() returns (r: Outcome<ParserError>)
      requires current <= |tokens|
      modifies this`current
      ensures Ended(ObjectFrom(tokens, old(current)), r)
      decreases |tokens| - current, 3
    {
      var closes := Check(RightBrace);
      if !closes {
        r := ObjectEntries();
        if !r.Ok? {
          return;
        }
      }
      var c := Consume(RightBrace, EXPECTED_CLOSE_BRACE);
      r := Status(c);
    }

    method ObjectEntries() returns (r: Outcome<ParserError>)
      requires current <= |tokens|
      modifies this`current
      ensures Ended(EntriesFrom(tokens, old(current)), r)
      decreases |tokens| - current, 2
    {
      var isKey := Check(String);
      if !isKey {
        return Ok(());
      }
      r := ObjectEntry();
      if !r.Ok? {
        return;
      }
      ghost var first := current;
      while true
        invariant old(current) < current <= |tokens|
        invariant MoreEntriesFrom(tokens, current) == MoreEntriesFrom(tokens, first)
        invariant r == Ok(())
        decreases |tokens| - current
      {
        var comma := Match(Comma);
        if !comma {
          break;
        }
        r := ObjectEntry();
        if !r.Ok? {
          return;
        }
      }
    }

    method ObjectEntry() returns (r: Outcome<ParserError>)
      requires current <= |tokens|
      modifies this`current
      ensures Ended(EntryFrom(tokens, old(current)), r)
      decreases |tokens| - current, 1
    {
      var key := Consume(String, EXPECTED_KEY);
      if !key.Ok? {
        return Status(key);
      }
      var colon := Consume(Colon, EXPECTED_COLON);
      if !colon.Ok? {
        return Status(colon);
      }
      r := Value();
    }

    method Value() returns (r: Outcome<ParserError>)
      requires current <= |tokens|
      modifies this`current
      ensures Ended(ValueFrom(tokens, old(current)), r)
      decreases |tokens| - current, 0
    {
      if IsAtEnd() {
        return Panic; // `advance` indexes tokens[current] unchecked
      }
      var next := Advance();
      var k := next.kind;
      if k == String || k == Number || k == Null || k == True || k == False {
        r := Ok(());
      } else if k == LeftBrace {
        r := Object();
      } else if k == LeftParen {
        r := Array();
      } else {
        r := Err(ParserError(next, UNEXPECTED_TOKEN));
      }
    }

    method Array() returns (r: Outcome<ParserError>)
      requires current <= |tokens|
      modifies this`current
      ensures Ended(ArrayFrom(tokens, old(current)), r)
      decreases |tokens| - current, 3
    {
      var closes := Check(RightParen);
      if !closes {
        r := Value();
        if !r.Ok? {
          assert ItemsFrom(tokens, old(current)) == ValueFrom(tokens, old(current));
          assert ArrayFrom(tokens, old(current)) == ValueFrom(tokens, old(current));
          return;
        }
        ghost var first := current;
        assert ItemsFrom(tokens, old(current)) == MoreValuesFrom(tokens, first);
        while true
          invariant old(current) < current <= |tokens|
          invariant MoreValuesFrom(tokens, current) == MoreValuesFrom(tokens, first)
          decreases |tokens| - current
        {
          ghost var at := current;
          var comma := Match(Comma);
          if !comma {
            break;
          }
          r := Value();
          if !r.Ok? {
            assert MoreValuesFrom(tokens, at) == ValueFrom(tokens, at + 1);
            return;
          }
        }
      }
      var c := Consume(RightParen, EXPECTED_CLOSE_BRACKET);
      r := Status(c);
    }
  }

  /** `Parse`: the lexer's error unchanged, else the parser's verdict on all the tokens. */
  method Parse(src: seq<byte>, floatOk: seq<byte> -> bool) returns (r: Outcome<Error>)
    ensures r == Validate(src, floatOk)
  {
    var lexer := new Lexing.Lexer(src, floatOk);
    var scanned := lexer.ScanTokens();
    ghost var lexed := Lexing.Lex(src, floatOk);
    assert scanned == lexed by {
      if lexed.Ok? {
        assert [] + lexed.value == lexed.value;
      }
    }
    match scanned
    case Err(e) =>
      return Err(Lexical(e));
    case Panic =>
      return Panic;
    case Ok(ts) =>
      var p := new Parser(ts);
      var out := p.ParseRoot();
      match out
      case Ok(_) => r := Ok(());
      case Err(e) => r := Err(Syntax(e));
      case Panic => r := Panic;
  }
}
