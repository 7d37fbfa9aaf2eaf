/**
 * The lexer (lexer.go): a left-to-right scan of a byte buffer into tokens.
 *
 * The first half states, as functions, what one `ScanToken` call does from a
 * given offset and line (`ScanOne`) and what `ScanTokens` returns (`ScanFrom`,
 * `Lex`). The second half is the `Lexer` class with the source's cursor fields,
 * whose methods are proved to behave as those functions say.
 *
 * An unchecked `src[current]` that runs past the end (in `advance` and `peek`)
 * is a Go panic; it is the `Faulted` step here and `Panic` in the results.
 */
module Lexing {
  import opened Outcomes
  import opened Format
  import opened Tokens

  const NUL: byte := 0
  const TAB: byte := 9
  const NEWLINE: byte := 10
  const CR: byte := 13
  const SPACE: byte := 32
  const QUOTE: byte := 34
  const COMMA: byte := 44
  const DOT: byte := 46
  const COLON: byte := 58
  const LBRACKET: byte := 91
  const RBRACKET: byte := 93
  const LBRACE: byte := 123
  const RBRACE: byte := 125

  /** The kind the `switch` of `ScanToken` gives each of the six single-byte tokens. */
  function PunctuationKind(c: byte): Option<TokenType>
  {
    if c == LBRACE then Some(LeftBrace)
    else if c == RBRACE then Some(RightBrace)
    else if c == LBRACKET then Some(LeftParen)
    else if c == RBRACKET then Some(RightParen)
    else if c == COMMA then Some(Comma)
    else if c == COLON then Some(Colon)
    else None
  }

  const TRUE: seq<byte> := [116, 114, 117, 101]        // "true"
  const FALSE: seq<byte> := [102, 97, 108, 115, 101]   // "false"
  const NULL: seq<byte> := [110, 117, 108, 108]        // "null"

  /** A lookup in the `keywords` table: `true`, `false` and `null` and their kinds. */
  function KeywordKind(lexeme: seq<byte>): Option<TokenType>
  {
    if lexeme == TRUE then Some(True)
    else if lexeme == FALSE then Some(False)
    else if lexeme == NULL then Some(Null)
    else None
  }

  const UNTERMINATED: string := "Unterminated string"
  const NEWLINE_IN_STRING: string := "JSON doesn't allow newlines in strings"

  function UnexpectedCharacter(c: byte): string
  {
    "Unexpected character " + [c as char] + "."
  }

  function UnexpectedIdentifier(lexeme: seq<byte>): string
  {
    "Unexpected identifier '" + Chars(lexeme) + "'."
  }

  /** `LexerError`: a message and the line it was raised on. */
  datatype LexerError = LexerError(msg: string, line: int)

  /**
   * What `ScanTokens` can return as its error: a `LexerError`, or the error
   * `strconv.ParseFloat` returned for a number lexeme.
   */
  datatype ScanError = BadInput(err: LexerError) | FloatError(number: seq<byte>)

  const LINE_OPEN: string := "[line "
  const LINE_CLOSE: string := "] Error "

  /** `LexerError.Error`: `[line L] Error <msg>`. */
  function Describe(e: LexerError): (s: string)
    ensures |s| == |LINE_OPEN| + |Decimal(e.line)| + |LINE_CLOSE| + |e.msg|
    ensures s[..|LINE_OPEN|] == LINE_OPEN
    ensures s[|s| - |LINE_CLOSE + e.msg|..] == LINE_CLOSE + e.msg
  {
    LINE_OPEN + Decimal(e.line) + LINE_CLOSE + e.msg
  }

  /** The rendering keeps the line, sign included, and ends with `] Error ` and the message. */
  lemma DescribeRoundTrip(e: LexerError)
    ensures ReadIntAfter(LINE_OPEN, Describe(e)) == Some(e.line)
    ensures Describe(e)[|Describe(e)| - |LINE_CLOSE + e.msg|..] == LINE_CLOSE + e.msg
  {
    assert Describe(e) == LINE_OPEN + Decimal(e.line) + (LINE_CLOSE + e.msg);
    DecimalRoundTrip(LINE_OPEN, e.line, LINE_CLOSE + e.msg);
  }

  predicate IsAlpha(c: byte)
  {
    ('a' as int <= c <= 'z' as int) || ('A' as int <= c <= 'Z' as int) || c == '_' as int
  }

  predicate IsDigit(c: byte)
  {
    '0' as int <= c <= '9' as int
  }

  predicate IsWhitespace(c: byte)
  {
    c == SPACE || c == TAB || c == CR || c == NEWLINE
  }

  /** A byte the string loop steps over: neither the closing quote nor a newline. */
  predicate InString(c: byte)
  {
    c != QUOTE && c != NEWLINE
  }

  /** `peekNext`: the byte after offset i, or NUL when there is none. */
  function PeekNextAt(src: seq<byte>, i: nat): byte
  {
    if i + 1 >= |src| then NUL else src[i + 1]
  }

  /** The three byte classes the scanning loops run over. */
  datatype ByteClass = Letters | DigitRun | StringBody

  predicate In(cls: ByteClass, c: byte)
  {
    match cls
    case Letters => IsAlpha(c)
    case DigitRun => IsDigit(c)
    case StringBody => InString(c)
  }

  /**
   * Where a `for <cls>(l.peek()) { l.advance() }` loop started at offset i
   * stops: the first offset at or after i whose byte is not in cls, or None
   * when every byte up to the end is, so that `peek` runs past the end.
   */
  function RunEnd(src: seq<byte>, i: nat, cls: ByteClass): (r: Option<nat>)
    requires i <= |src|
    ensures r.Some? ==> i <= r.value < |src| && !In(cls, src[r.value])
    decreases |src| - i
  {
    if i == |src| then None
    else if !In(cls, src[i]) then Some(i)
    else RunEnd(src, i + 1, cls)
  }

  /** The run is maximal: every byte before where it stops is in the class. */
  lemma {:induction false} RunEndFacts(src: seq<byte>, i: nat, cls: ByteClass)
    requires i <= |src|
    ensures RunEnd(src, i, cls).Some? ==> forall k :: i <= k < RunEnd(src, i, cls).value ==> In(cls, src[k])
    ensures RunEnd(src, i, cls).None? <==> forall k :: i <= k < |src| ==> In(cls, src[k])
    decreases |src| - i
  {
    if i < |src| && In(cls, src[i]) {
      RunEndFacts(src, i + 1, cls);
    }
  }

  function Count(s: seq<byte>, c: byte): nat
  {
    if s == [] then 0 else Count(s[..|s| - 1], c) + (if s[|s| - 1] == c then 1 else 0)
  }

  /** The number of newlines in s. */
  function Newlines(s: seq<byte>): nat
  {
    Count(s, NEWLINE)
  }

  predicate AllDigits(s: seq<byte>)
  {
    forall k :: 0 <= k < |s| ==> IsDigit(s[k])
  }

  /** A digit run, optionally followed by a dot and a second digit run. */
  predicate IsNumberLexeme(s: seq<byte>)
  {
    || (1 <= |s| && AllDigits(s))
    || exists k :: 0 < k < |s| - 1 && s[k] == DOT && AllDigits(s[..k]) && AllDigits(s[k + 1..])
  }

  /** The literal the `keywords` switch gives a keyword of kind k. */
  function KeywordLiteral(k: TokenType): Literal
  {
    if k == True then Boolean(true)
    else if k == False then Boolean(false)
    else Absent
  }

  /**
   * What it means for token t to have been scanned from offset s of src:
   * its lexeme is the slice of src at s, holds no newline, and has the form,
   * the literal and (for identifiers and numbers) the maximal extent its kind
   * calls for.
   */
  ghost predicate Lexed(src: seq<byte>, t: Token, s: nat)
  {
    var lex := t.lexeme;
    var q := s + |lex|;
    && q <= |src|
    && lex == src[s..q]
    && (forall k :: 0 <= k < |lex| ==> lex[k] != NEWLINE)
    && if t.kind == String then
         && 2 <= |lex| && lex[0] == QUOTE && lex[|lex| - 1] == QUOTE
         && (forall k :: 0 < k < |lex| - 1 ==> InString(lex[k]))
         && t.literal == Text(lex[1..|lex| - 1])
       else if t.kind == Number then
         && IsNumberLexeme(lex) && t.literal == NumberText(lex)
         && q < |src| && !IsDigit(src[q])
         && (DOT !in lex ==> !(src[q] == DOT && IsDigit(PeekNextAt(src, q))))
       else if t.kind == True then lex == TRUE && t.literal == Boolean(true) && q < |src| && !IsAlpha(src[q])
       else if t.kind == False then lex == FALSE && t.literal == Boolean(false) && q < |src| && !IsAlpha(src[q])
       else if t.kind == Null then lex == NULL && t.literal == Absent && q < |src| && !IsAlpha(src[q])
       else |lex| == 1 && PunctuationKind(lex[0]) == Some(t.kind) && t.literal == Absent
  }

  /** What one `ScanToken` call does. `next` is the cursor it leaves behind. */
  datatype Step =
    | Skipped(next: nat, line: int)
    | Emitted(token: Token, next: nat)
    | Failed(error: ScanError, next: nat)
    | Faulted

  /** `getString`, entered with the opening quote at pos already consumed. */
  function StringStep(src: seq<byte>, pos: nat, line: int): (r: Step)
    requires pos < |src| && src[pos] == QUOTE
    ensures r.Emitted? || r.Failed? ==> pos < r.next <= |src|
  {
    match RunEnd(src, pos + 1, StringBody)
    case None => Faulted
    case Some(e) =>
      if e >= |src| then
        // Never taken: the loop only stops on a byte it has read.
        Failed(BadInput(LexerError(UNTERMINATED, line)), e)
      else if src[e] == NEWLINE then
        Failed(BadInput(LexerError(NEWLINE_IN_STRING, line)), e)
      else
        Emitted(Token(src[pos..e + 1], Text(src[pos + 1..e]), line, String), e + 1)
  }

  /** `identifier`, entered with the first letter at pos already consumed. */
  function IdentifierStep(src: seq<byte>, pos: nat, line: int): (r: Step)
    requires pos < |src| && IsAlpha(src[pos])
    ensures r.Emitted? || r.Failed? ==> pos < r.next <= |src|
  {
    match RunEnd(src, pos + 1, Letters)
    case None => Faulted
    case Some(e) =>
      var lexeme := src[pos..e];
      match KeywordKind(lexeme)
      case Some(kind) =>
        Emitted(Token(lexeme, KeywordLiteral(kind), line, kind), e)
      case None =>
        Failed(BadInput(LexerError(UnexpectedIdentifier(lexeme), line)), e)
  }

  /**
   * Where `number`'s loops leave the cursor when the first digit is at pos,
   * or None when one of their `peek`s runs past the end. The dot is taken
   * only when `peekNext` shows a digit after it.
   */
  function NumberEnd(src: seq<byte>, pos: nat): (r: Option<nat>)
    requires pos < |src| && IsDigit(src[pos])
    ensures r.Some? ==> pos < r.value < |src|
  {
    match RunEnd(src, pos + 1, DigitRun)
    case None => None
    case Some(e) =>
      if src[e] == DOT && IsDigit(PeekNextAt(src, e)) then RunEnd(src, e + 1, DigitRun) else Some(e)
  }

  /** `number`, entered with the first digit at pos already consumed. */
  function NumberStep(src: seq<byte>, floatOk: seq<byte> -> bool, pos: nat, line: int): (r: Step)
    requires pos < |src| && IsDigit(src[pos])
    ensures r.Emitted? || r.Failed? ==> pos < r.next <= |src|
  {
    match NumberEnd(src, pos)
    case None => Faulted
    case Some(end) =>
      var lexeme := src[pos..end];
      if !floatOk(lexeme) then Failed(FloatError(lexeme), end)
      else Emitted(Token(lexeme, NumberText(lexeme), line, Number), end)
  }

  /** One `ScanToken` call with the cursor at pos and the line counter at line. */
  function ScanOne(src: seq<byte>, floatOk: seq<byte> -> bool, pos: nat, line: int): (r: Step)
    ensures r.Skipped? ==> r.next == pos + 1 <= |src|
    ensures r.Emitted? || r.Failed? ==> pos < r.next <= |src|
  {
    if pos >= |src| then Faulted
    else
      var c := src[pos];
      if PunctuationKind(c).Some? then Emitted(Token([c], Absent, line, PunctuationKind(c).value), pos + 1)
      else if c == NEWLINE then Skipped(pos + 1, line + 1)
      else if c == SPACE || c == TAB || c == CR then Skipped(pos + 1, line)
      else if c == QUOTE then StringStep(src, pos, line)
      else if IsAlpha(c) then IdentifierStep(src, pos, line)
      else if IsDigit(c) then NumberStep(src, floatOk, pos, line)
      else Failed(BadInput(LexerError(UnexpectedCharacter(c), line)), pos + 1)
  }

  /**
   * `getString` emits a quoted token whose literal is exactly the bytes
   * between the quotes, fails on a newline before the closing quote, and
   * panics exactly when neither a quote nor a newline follows.
   */
  lemma StringStepFacts(src: seq<byte>, pos: nat, line: int)
    requires pos < |src| && src[pos] == QUOTE
    ensures var r := StringStep(src, pos, line);
      && (r.Faulted? <==> forall k :: pos < k < |src| ==> InString(src[k]))
      && (r.Emitted? ==>
            r.token.kind == String && r.token.line == line && Lexed(src, r.token, pos)
            && r.next == pos + |r.token.lexeme|)
      && (r.Failed? ==>
            && pos < r.next < |src| && src[r.next] == NEWLINE
            && (forall k :: pos < k < r.next ==> InString(src[k]))
            && r.error == BadInput(LexerError(NEWLINE_IN_STRING, line)))
      && !r.Skipped?
  {
    RunEndFacts(src, pos + 1, StringBody);
    var r := StringStep(src, pos, line);
    if r.Emitted? {
      StringLexed(src, pos, r.next - 1, line);
    }
  }

  /** A quote, string bytes up to e and a quote at e make a lexed string token. */
  lemma StringLexed(src: seq<byte>, pos: nat, e: nat, line: int)
    requires pos < e < |src| && src[pos] == QUOTE && src[e] == QUOTE
    requires forall k :: pos < k < e ==> InString(src[k])
    ensures Lexed(src, Token(src[pos..e + 1], Text(src[pos + 1..e]), line, String), pos)
  {
    var lex := src[pos..e + 1];
    assert |lex| == e + 1 - pos;
    var body := src[pos + 1..e];
    forall i | 0 <= i < |body|
      ensures body[i] == lex[1 + i]
    {
    }
    assert lex[1..e - pos] == body;
    forall k | 0 < k < |lex| - 1
      ensures InString(lex[k])
    {
      assert lex[k] == src[pos + k];
    }
  }

  /**
   * `identifier` emits a token only for a maximal letter run that is exactly
   * `true`, `false` or `null`, fails with "Unexpected identifier" on any
   * other maximal run, and panics exactly when the run reaches the end.
   */
  lemma IdentifierStepFacts(src: seq<byte>, pos: nat, line: int)
    requires pos < |src| && IsAlpha(src[pos])
    ensures var r := IdentifierStep(src, pos, line);
      && (r.Faulted? <==> forall k :: pos < k < |src| ==> IsAlpha(src[k]))
      && (r.Emitted? ==>
            && KeywordKind(r.token.lexeme) == Some(r.token.kind)
            && r.token.line == line && Lexed(src, r.token, pos) && r.next == pos + |r.token.lexeme|)
      && (r.Failed? ==>
            && pos < r.next < |src| && !IsAlpha(src[r.next])
            && (forall k :: pos <= k < r.next ==> IsAlpha(src[k]))
            && KeywordKind(src[pos..r.next]).None?
            && r.error == BadInput(LexerError(UnexpectedIdentifier(src[pos..r.next]), line)))
      && !r.Skipped?
  {
    RunEndFacts(src, pos + 1, Letters);
  }

  /**
   * A number lexeme is a maximal digit run, followed by a dot and a second
   * maximal digit run only when a digit follows the dot.
   */
  lemma NumberEndFacts(src: seq<byte>, pos: nat)
    requires pos < |src| && IsDigit(src[pos])
    ensures var r := NumberEnd(src, pos);
      r.Some? ==>
        && IsNumberLexeme(src[pos..r.value]) && !IsDigit(src[r.value])
        && (DOT !in src[pos..r.value] ==> !(src[r.value] == DOT && IsDigit(PeekNextAt(src, r.value))))
        && (forall k :: pos <= k < r.value ==> src[k] != NEWLINE)
  {
    RunEndFacts(src, pos + 1, DigitRun);
    match RunEnd(src, pos + 1, DigitRun)
    case None =>
    case Some(e) =>
      if src[e] == DOT && IsDigit(PeekNextAt(src, e)) {
        RunEndFacts(src, e + 1, DigitRun);
        var r := RunEnd(src, e + 1, DigitRun);
        if r.Some? {
          FractionLexeme(src, pos, e, r.value);
        }
      } else {
        IntegerLexeme(src, pos, e);
      }
  }

  /** `number` panics when its digits run to the end, and only on digits and dots. */
  lemma NumberEndPanics(src: seq<byte>, pos: nat)
    requires pos < |src| && IsDigit(src[pos])
    ensures var r := NumberEnd(src, pos);
      && ((forall k :: pos < k < |src| ==> IsDigit(src[k])) ==> r.None?)
      && (r.None? ==> forall k :: pos < k < |src| ==> IsDigit(src[k]) || src[k] == DOT)
  {
    RunEndFacts(src, pos + 1, DigitRun);
    match RunEnd(src, pos + 1, DigitRun)
    case None =>
    case Some(e) =>
      if src[e] == DOT && IsDigit(PeekNextAt(src, e)) {
        RunEndFacts(src, e + 1, DigitRun);
      }
  }

  /** A run of digits is a number lexeme without a dot or a newline. */
  lemma IntegerLexeme(src: seq<byte>, pos: nat, e: nat)
    requires pos < e <= |src|
    requires forall k :: pos <= k < e ==> IsDigit(src[k])
    ensures IsNumberLexeme(src[pos..e]) && DOT !in src[pos..e]
    ensures forall k :: pos <= k < e ==> src[k] != NEWLINE
  {
    assert AllDigits(src[pos..e]);
  }

  /** Two digit runs joined by a dot form a number lexeme without a newline. */
  lemma FractionLexeme(src: seq<byte>, pos: nat, e: nat, f: nat)
    requires pos < e && e + 1 < f <= |src| && src[e] == DOT
    requires forall k :: pos <= k < e ==> IsDigit(src[k])
    requires forall k :: e < k < f ==> IsDigit(src[k])
    ensures IsNumberLexeme(src[pos..f])
    ensures forall k :: pos <= k < f ==> src[k] != NEWLINE
  {
    var lexeme := src[pos..f];
    assert lexeme[..e - pos] == src[pos..e] && lexeme[e - pos + 1..] == src[e + 1..f];
    assert AllDigits(lexeme[..e - pos]) && AllDigits(lexeme[e - pos + 1..]);
    assert lexeme[e - pos] == DOT;
  }

  lemma NumberStepFacts(src: seq<byte>, floatOk: seq<byte> -> bool, pos: nat, line: int)
    requires pos < |src| && IsDigit(src[pos])
    ensures var r := NumberStep(src, floatOk, pos, line);
      && ((forall k :: pos < k < |src| ==> IsDigit(src[k])) ==> r.Faulted?)
      && (r.Faulted? ==> forall k :: pos < k < |src| ==> IsDigit(src[k]) || src[k] == DOT)
      && (r.Emitted? ==>
            && r.token.kind == Number && floatOk(r.token.lexeme)
            && r.token.line == line && Lexed(src, r.token, pos) && r.next == pos + |r.token.lexeme|)
      && (r.Failed? ==>
            && IsNumberLexeme(src[pos..r.next]) && !floatOk(src[pos..r.next])
            && r.error == FloatError(src[pos..r.next]))
      && !r.Skipped?
  {
    NumberEndFacts(src, pos);
    NumberEndPanics(src, pos);
  }

  /**
   * One `ScanToken` call: whitespace is skipped without a token (a newline
   * counts a line), an emitted token is the slice scanned at pos and carries
   * the current line, a failure leaves the cursor past pos, and no failure
   * is ever "Unterminated string".
   */
  lemma ScanOneFacts(src: seq<byte>, floatOk: seq<byte> -> bool, pos: nat, line: int)
    ensures var r := ScanOne(src, floatOk, pos, line);
      && (pos >= |src| ==> r.Faulted?)
      && (pos < |src| && IsWhitespace(src[pos]) <==> r.Skipped?)
      && (r.Skipped? ==> r.line == line + (if src[pos] == NEWLINE then 1 else 0))
      && (r.Emitted? ==> r.token.line == line && Lexed(src, r.token, pos) && r.next == pos + |r.token.lexeme|)
      && (r.Emitted? && r.token.kind == Number ==> floatOk(r.token.lexeme))
      && (r.Failed? && r.error.BadInput? ==> r.error.err.line == line && r.error.err.msg != UNTERMINATED)
  {
    if pos < |src| {
      var c := src[pos];
      if PunctuationKind(c).Some? {
      } else if c == QUOTE {
        StringStepFacts(src, pos, line);
        assert NEWLINE_IN_STRING[0] != UNTERMINATED[0];
      } else if IsAlpha(c) {
        IdentifierStepFacts(src, pos, line);
        var r := IdentifierStep(src, pos, line);
        assert r.Failed? ==> r.error.err.msg[2] != UNTERMINATED[2];
      } else if IsDigit(c) {
        NumberStepFacts(src, floatOk, pos, line);
      } else if !IsWhitespace(c) {
        assert UnexpectedCharacter(c)[2] != UNTERMINATED[2];
      }
    }
  }

  /** How one `ScanToken` call moves the line counter: by the newlines it consumed. */
  lemma ScanOneLines(src: seq<byte>, floatOk: seq<byte> -> bool, pos: nat, line: int)
    ensures var r := ScanOne(src, floatOk, pos, line);
      && (r.Skipped? ==> IsWhitespace(src[pos]) && r.line == line + Newlines(src[pos..r.next]))
      && (r.Emitted? ==> Newlines(src[pos..r.next]) == 0)
  {
    ScanOneFacts(src, floatOk, pos, line);
    var r := ScanOne(src, floatOk, pos, line);
    if r.Emitted? {
      NoNewlines(src[pos..r.next]);
    } else if r.Skipped? {
      var one := src[pos..pos + 1];
      assert |one| == 1 && one[0] == src[pos] && one[..|one| - 1] == [];
      assert Count(one[..|one| - 1], NEWLINE) == 0;
      assert Newlines(one) == (if src[pos] == NEWLINE then 1 else 0);
    }
  }

  /** Puts the tokens ts in front of a scan result; errors and panics pass through. */
  function Prepend(ts: seq<Token>, r: Result<seq<Token>, ScanError>): Result<seq<Token>, ScanError>
  {
    match r
    case Ok(rest) => Ok(ts + rest)
    case Err(e) => Err(e)
    case Panic => Panic
  }

  /** The tokens `ScanTokens` produces from offset pos on, the line counter being line. */
  function ScanFrom(src: seq<byte>, floatOk: seq<byte> -> bool, pos: nat, line: int): Result<seq<Token>, ScanError>
    decreases |src| - pos, 1
  {
    if pos >= |src| then Ok([]) else ScanAt(src, floatOk, pos, line)
  }

  /** One pass of the loop of `ScanTokens` at pos: a `ScanToken` call, then the scan from where it stops. */
  function ScanAt(src: seq<byte>, floatOk: seq<byte> -> bool, pos: nat, line: int): Result<seq<Token>, ScanError>
    requires pos < |src|
    decreases |src| - pos, 0
  {
    match ScanOne(src, floatOk, pos, line)
    case Skipped(next, line') => ScanFrom(src, floatOk, next, line')
    case Emitted(t, next) => Prepend([t], ScanFrom(src, floatOk, next, line))
    case Failed(e, _) => Err(e)
    case Faulted => Panic
  }

  /** What a freshly made lexer's `ScanTokens` returns for src. */
  function Lex(src: seq<byte>, floatOk: seq<byte> -> bool): Result<seq<Token>, ScanError>
  {
    ScanFrom(src, floatOk, 0, 1)
  }

  lemma PrependAppend(a: seq<Token>, b: seq<Token>, r: Result<seq<Token>, ScanError>)
    ensures Prepend(a, Prepend(b, r)) == Prepend(a + b, r)
  {
    if r.Ok? {
      assert a + (b + r.value) == (a + b) + r.value;
    }
  }

  lemma NewlinesAppend(a: seq<byte>, b: seq<byte>)
    ensures Newlines(a + b) == Newlines(a) + Newlines(b)
    decreases |b|
  {
    if b == [] {
      assert a + b == a;
    } else {
      assert (a + b)[..|a + b| - 1] == a + b[..|b| - 1];
      NewlinesAppend(a, b[..|b| - 1]);
    }
  }

  /** Counting the newlines of a slice in two parts. */
  lemma NewlinesSplit(src: seq<byte>, a: nat, b: nat, c: nat)
    requires a <= b <= c <= |src|
    ensures Newlines(src[a..c]) == Newlines(src[a..b]) + Newlines(src[b..c])
  {
    assert src[a..b] + src[b..c] == src[a..c];
    NewlinesAppend(src[a..b], src[b..c]);
  }

  /** A slice without newlines adds nothing to the line count. */
  lemma NoNewlines(s: seq<byte>)
    requires forall k :: 0 <= k < |s| ==> s[k] != NEWLINE
    ensures Newlines(s) == 0
    decreases |s|
  {
    if s != [] {
      NoNewlines(s[..|s| - 1]);
    }
  }

  /**
   * The `Lexer` struct. `src` and the stand-in for `strconv.ParseFloat`
   * never change; the cursor fields and the token list do.
   */
  class Lexer {
    const src: seq<byte>
    const floatOk: seq<byte> -> bool
    var line: int
    var current: nat
    var start: nat
    var tokens: seq<Token>

    /** `&Lexer{src: src, line: 1}`. */
    constructor (src: seq<byte>, floatOk: seq<byte> -> bool)
      ensures this.src == src && this.floatOk == floatOk
      ensures line == 1 && current == 0 && start == 0 && tokens == []
    {
      this.src := src;
      this.floatOk := floatOk;
      line := 1;
      current := 0;
      start := 0;
      tokens := [];
    }

    /**
     * The new state after a `ScanToken`-like call whose effect step s
     * describes and which returned r, from line line0 and tokens tokens0.
     */
    ghost predicate Took(s: Step, r: Outcome<ScanError>, line0: int, tokens0: seq<Token>)
      reads this
    {
      match s
      case Skipped(next, l) => r == Ok(()) && current == next && line == l && tokens == tokens0
      case Emitted(t, next) => r == Ok(()) && current == next && line == line0 && tokens == tokens0 + [t]
      case Failed(e, next) => r == Err(e) && current == next && line == line0 && tokens == tokens0
      case Faulted => r == Panic
    }

    predicate IsAtEnd()
      reads this
    {
      current >= |src|
    }

    /** `peek`; reading past the end is the caller's panic to handle. */
    function Peek(): byte
      reads this
      requires current < |src|
    {
      src[current]
    }

    function PeekNext(): (c: byte)
      reads this
      ensures c == PeekNextAt(src, current)
    {
      if current + 1 >= |src| then NUL else src[current + 1]
    }

    method Advance() returns (c: byte)
      requires current < |src|
      modifies this`current
      ensures c == src[old(current)] && current == old(current) + 1
    {
      c := src[current];
      current := current + 1;
    }

    method Add(t: Token)
      modifies this`tokens
      ensures tokens == old(tokens) + [t]
    {
      tokens := tokens + [t];
    }

    /**
     * Scans from the cursor to the end. The line counter restarts at 1; on an
     * error the tokens scanned so far are dropped from the result.
     */
    method ScanTokens() returns (r: Result<seq<Token>, ScanError>)
      modifies this`line, this`current, this`start, this`tokens
      ensures r == Prepend(old(tokens), ScanFrom(src, floatOk, old(current), 1))
      ensures r.Ok? ==> tokens == r.value && current == (if old(current) <= |src| then |src| else old(current))
      ensures r.Ok? && old(current) <= |src| ==> line == 1 + Newlines(src[old(current)..])
    {
      line := 1;
      while !IsAtEnd()
        invariant Prepend(tokens, ScanFrom(src, floatOk, current, line))
               == Prepend(old(tokens), ScanFrom(src, floatOk, old(current), 1))
        invariant current == old(current) || old(current) <= current <= |src|
        invariant old(current) <= |src| ==> line == 1 + Newlines(src[old(current)..current])
        decreases |src| - current
      {
        start := current;
        ghost var before, lineBefore, tokensBefore := current, line, tokens;
        ghost var step := ScanOne(src, floatOk, current, line);
        var out := ScanToken();
        match out
        case Err(e) =>
          return Err(e);
        case Panic =>
          return Panic;
        case Ok(_) =>
          ScanOneLines(src, floatOk, before, lineBefore);
          if step.Emitted? {
            PrependAppend(tokensBefore, [step.token], ScanFrom(src, floatOk, current, line));
          }
          NewlinesSplit(src, old(current), before, current);
      }
      assert tokens + [] == tokens;
      assert old(current) <= |src| ==> src[old(current)..current] == src[old(current)..];
      r := Ok(tokens);
    }

    /** Scans one token (or skips one whitespace byte) starting at the cursor. */
    method ScanToken() returns (r: Outcome<ScanError>)
      requires start == current
      modifies this`current, this`line, this`tokens
      ensures Took(ScanOne(src, floatOk, old(current), old(line)), r, old(line), old(tokens))
    {
      if IsAtEnd() {
        return Panic; // `advance` indexes src[current] unchecked
      }
      var cur := Advance();
      r := Ok(());
      var punctuation := PunctuationKind(cur);
      if punctuation.Some? {
        Add(Token([cur], Absent, line, punctuation.value));
      } else if cur == NEWLINE {
        line := line + 1;
      } else if cur == SPACE || cur == TAB || cur == CR {
        // whitespace is skipped
      } else if cur == QUOTE {
        r := GetString();
      } else if IsAlpha(cur) {
        r := Identifier();
      } else if IsDigit(cur) {
        r := Number();
      } else {
        r := Err(BadInput(LexerError(UnexpectedCharacter(cur), line)));
      }
    }

    method Identifier() returns (r: Outcome<ScanError>)
      requires start < |src| && IsAlpha(src[start]) && current == start + 1
      modifies this`current, this`tokens
      ensures Took(IdentifierStep(src, start, line), r, line, old(tokens))
    {
      while true
        invariant start < current <= |src|
        invariant RunEnd(src, current, Letters) == RunEnd(src, start + 1, Letters)
        invariant tokens == old(tokens)
        decreases |src| - current
      {
        if IsAtEnd() {
          return Panic; // `peek` indexes src[current] unchecked
        }
        if !IsAlpha(Peek()) {
          break;
        }
        var _ := Advance();
      }
      var lexeme := src[start..current];
      var keyword := KeywordKind(lexeme);
      if keyword.Some? {
        var kind := keyword.value;
        Add(Token(lexeme, KeywordLiteral(kind), line, kind));
        return Ok(());
      }
      return Err(BadInput(LexerError(UnexpectedIdentifier(lexeme), line)));
    }

    method Number() returns (r: Outcome<ScanError>)
      requires start < |src| && IsDigit(src[start]) && current == start + 1
      modifies this`current, this`tokens
      ensures Took(NumberStep(src, floatOk, start, line), r, line, old(tokens))
    {
      var ok := SkipDigits();
      if !ok {
        return Panic;
      }
      if Peek() == DOT && IsDigit(PeekNext()) {
        var _ := Advance();
        ok := SkipDigits();
        if !ok {
          return Panic;
        }
      }
      var val := src[start..current];
      if !floatOk(val) {
        return Err(FloatError(val));
      }
      Add(Token(val, NumberText(val), line, Tokens.Number));
      return Ok(());
    }

    /**
     * One of the two digit loops of `number`: advances over the digits at the
     * cursor and answers false when its `peek` runs past the end.
     */
    method SkipDigits() returns (ok: bool)
      requires current <= |src|
      modifies this`current
      ensures ok == RunEnd(src, old(current), DigitRun).Some?
      ensures ok ==> current == RunEnd(src, old(current), DigitRun).value
    {
      while true
        invariant old(current) <= current <= |src|
        invariant RunEnd(src, current, DigitRun) == RunEnd(src, old(current), DigitRun)
        decreases |src| - current
      {
        if IsAtEnd() {
          return false; // `peek` indexes src[current] unchecked
        }
        if !IsDigit(Peek()) {
          return true;
        }
        var _ := Advance();
      }
    }

    method GetString() returns (r: Outcome<ScanError>)
      requires start < |src| && src[start] == QUOTE && current == start + 1
      modifies this`current, this`tokens
      ensures Took(StringStep(src, start, line), r, line, old(tokens))
    {
      while true
        invariant start < current <= |src|
        invariant RunEnd(src, current, StringBody) == RunEnd(src, start + 1, StringBody)
        invariant tokens == old(tokens)
        decreases |src| - current
      {
        if IsAtEnd() {
          return Panic; // the guard evaluates `peek` before `isAtEnd`
        }
        if !(Peek() != QUOTE && !IsAtEnd() && Peek() != NEWLINE) {
          break;
        }
        var _ := Advance();
      }
      if IsAtEnd() {
        // Never taken: the loop only stops on a byte it has read.
        return Err(BadInput(LexerError(UNTERMINATED, line)));
      }
      if Peek() == NEWLINE {
        return Err(BadInput(LexerError(NEWLINE_IN_STRING, line)));
      }
      var _ := Advance(); // the closing quote
      Add(Token(src[start..current], Text(src[start + 1..current - 1]), line, String));
      return Ok(());
    }
  }
}
