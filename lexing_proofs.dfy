/**
 * What `ScanTokens` computes, as a whole: a successful scan cuts the source
 * into whitespace and token lexemes, each token lexed by the rules of one
 * `ScanToken` call and tagged with its line; conversely every such cutting
 * is what the scan returns. Errors carry the line of the byte that raised them.
 */
module LexingProofs {
  import opened Outcomes
  import opened Format
  import opened Tokens
  import opened Lexing

  /** Only spaces, tabs, carriage returns and newlines in src[i..j]. */
  predicate Blank(src: seq<byte>, i: nat, j: nat)
    requires j <= |src|
  {
    forall k :: i <= k < j ==> IsWhitespace(src[k])
  }

  /**
   * From offset pos on, src is whitespace, then ts[0] lexed at starts[0],
   * whitespace, ts[1] lexed at starts[1], and so on, and whitespace to the
   * end; each token's line is line plus the newlines between pos and its start.
   */
  ghost predicate Tiles(src: seq<byte>, pos: nat, line: int, ts: seq<Token>, starts: seq<nat>)
    decreases |ts|
  {
    && pos <= |src|
    && |starts| == |ts|
    && if ts == [] then Blank(src, pos, |src|)
       else
         var s := starts[0];
         && pos <= s <= |src|
         && Blank(src, pos, s)
         && Lexed(src, ts[0], s)
         && ts[0].line == line + Newlines(src[pos..s])
         && Tiles(src, s + |ts[0].lexeme|, ts[0].line, ts[1..], starts[1..])
  }

  /** Every number token is one `strconv.ParseFloat` accepts. */
  predicate NumbersOk(ts: seq<Token>, floatOk: seq<byte> -> bool)
  {
    forall i :: 0 <= i < |ts| && ts[i].kind == Number ==> floatOk(ts[i].lexeme)
  }

  /** The offsets at which the scan from pos emits its tokens. */
  ghost function Starts(src: seq<byte>, floatOk: seq<byte> -> bool, pos: nat, line: int): seq<nat>
    decreases |src| - pos
  {
    if pos >= |src| then []
    else
      match ScanOne(src, floatOk, pos, line)
      case Skipped(next, line') => Starts(src, floatOk, next, line')
      case Emitted(_, next) => [pos] + Starts(src, floatOk, next, line)
      case _ => []
  }

  lemma LexedNonEmpty(src: seq<byte>, t: Token, s: nat)
    requires Lexed(src, t, s)
    ensures 1 <= |t.lexeme| && s < |src|
  {
  }

  /** A whitespace byte in front of a tiling extends it. */
  lemma TilesSkip(src: seq<byte>, pos: nat, line: int, ts: seq<Token>, starts: seq<nat>)
    requires pos < |src| && IsWhitespace(src[pos])
    requires Tiles(src, pos + 1, line + Newlines(src[pos..pos + 1]), ts, starts)
    ensures Tiles(src, pos, line, ts, starts)
  {
    if ts != [] {
      NewlinesSplit(src, pos, pos + 1, starts[0]);
    }
  }

  /** A token lexed at pos in front of a tiling from its end extends the tiling. */
  lemma TilesCons(src: seq<byte>, pos: nat, line: int, t: Token, ts: seq<Token>, starts: seq<nat>)
    requires Lexed(src, t, pos) && t.line == line
    requires Tiles(src, pos + |t.lexeme|, line, ts, starts)
    ensures Tiles(src, pos, line, [t] + ts, [pos] + starts)
  {
    assert ([t] + ts)[1..] == ts && ([pos] + starts)[1..] == starts;
    assert src[pos..pos] == [];
  }

  lemma SoundCons(src: seq<byte>, floatOk: seq<byte> -> bool, pos: nat, line: int, t: Token, ts: seq<Token>, starts: seq<nat>)
    requires Lexed(src, t, pos) && t.line == line && (t.kind == Number ==> floatOk(t.lexeme))
    requires Tiles(src, pos + |t.lexeme|, line, ts, starts) && NumbersOk(ts, floatOk)
    ensures Tiles(src, pos, line, [t] + ts, [pos] + starts) && NumbersOk([t] + ts, floatOk)
  {
    TilesCons(src, pos, line, t, ts, starts);
    NumbersOkCons(t, ts, floatOk);
  }

  /** The first token of a tiling, the whitespace before it, and the tiling after it. */
  lemma TilesHead(src: seq<byte>, floatOk: seq<byte> -> bool, pos: nat, line: int, ts: seq<Token>, starts: seq<nat>)
    requires Tiles(src, pos, line, ts, starts) && NumbersOk(ts, floatOk) && ts != []
    ensures |ts| == |starts| && pos <= starts[0] <= |src| && Blank(src, pos, starts[0])
    ensures Lexed(src, ts[0], starts[0]) && ts[0].line == line + Newlines(src[pos..starts[0]])
    ensures ts[0].kind == Number ==> floatOk(ts[0].lexeme)
    ensures pos < starts[0] + |ts[0].lexeme| <= |src|
    ensures Tiles(src, starts[0] + |ts[0].lexeme|, ts[0].line, ts[1..], starts[1..]) && NumbersOk(ts[1..], floatOk)
  {
    assert ts == [ts[0]] + ts[1..];
    NumbersOkCons(ts[0], ts[1..], floatOk);
    LexedNonEmpty(src, ts[0], starts[0]);
  }

  /** The scan over whitespace and then a scanned token t emits t, then goes on after it. */
  lemma ScanHead(src: seq<byte>, floatOk: seq<byte> -> bool, pos: nat, line: int, s: nat, t: Token)
    requires pos <= s <= |src| && Blank(src, pos, s)
    requires Lexed(src, t, s) && t.line == line + Newlines(src[pos..s])
    requires t.kind == Number ==> floatOk(t.lexeme)
    ensures s + |t.lexeme| <= |src|
    ensures ScanFrom(src, floatOk, pos, line) == Prepend([t], ScanFrom(src, floatOk, s + |t.lexeme|, t.line))
  {
    ScanEmitsLexed(src, floatOk, t, s, t.line);
    ScanSkipsBlank(src, floatOk, pos, s, line, t.line);
  }

  lemma NumbersOkCons(t: Token, ts: seq<Token>, floatOk: seq<byte> -> bool)
    ensures NumbersOk([t] + ts, floatOk) <==> (t.kind == Number ==> floatOk(t.lexeme)) && NumbersOk(ts, floatOk)
  {
    assert ([t] + ts)[0] == t;
    assert forall i :: 0 < i < |[t] + ts| ==> ([t] + ts)[i] == ts[i - 1];
    assert forall i :: 0 <= i < |ts| ==> ts[i] == ([t] + ts)[i + 1];
  }

  /** A whitespace byte is skipped, and the line moves by the newlines in it. */
  lemma ScanOneSkips(src: seq<byte>, floatOk: seq<byte> -> bool, pos: nat, line: int)
    requires pos < |src| && IsWhitespace(src[pos])
    ensures ScanOne(src, floatOk, pos, line) == Skipped(pos + 1, line + Newlines(src[pos..pos + 1]))
  {
    ScanOneFacts(src, floatOk, pos, line);
    ScanOneLines(src, floatOk, pos, line);
  }

  /** The scan steps over a whitespace byte, counting it when it is a newline. */
  lemma ScanSkips(src: seq<byte>, floatOk: seq<byte> -> bool, pos: nat, line: int)
    requires pos < |src| && IsWhitespace(src[pos])
    ensures ScanFrom(src, floatOk, pos, line) == ScanFrom(src, floatOk, pos + 1, line + Newlines(src[pos..pos + 1]))
  {
    ScanOneSkips(src, floatOk, pos, line);
  }

  /** What an emitted token is, restated from `ScanOneFacts`. */
  lemma ScanOneEmits(src: seq<byte>, floatOk: seq<byte> -> bool, pos: nat, line: int)
    requires ScanOne(src, floatOk, pos, line).Emitted?
    ensures var r := ScanOne(src, floatOk, pos, line);
      && r.token.line == line && Lexed(src, r.token, pos) && r.next == pos + |r.token.lexeme|
      && (r.token.kind == Number ==> floatOk(r.token.lexeme))
  {
    ScanOneFacts(src, floatOk, pos, line);
  }

  /**
   * Soundness: a successful scan from pos is a tiling of src[pos..] at the
   * offsets `Starts` gives, and every number in it parsed as a float.
   */
  lemma {:induction false} ScanSound(src: seq<byte>, floatOk: seq<byte> -> bool, pos: nat, line: int)
    requires pos <= |src|
    ensures var r := ScanFrom(src, floatOk, pos, line);
      r.Ok? ==> Tiles(src, pos, line, r.value, Starts(src, floatOk, pos, line)) && NumbersOk(r.value, floatOk)
    decreases |src| - pos
  {
    if pos < |src| {
      match ScanOne(src, floatOk, pos, line)
      case Skipped(next, line') =>
        ScanOneLines(src, floatOk, pos, line);
        ScanSound(src, floatOk, next, line');
        var r := ScanFrom(src, floatOk, next, line');
        if r.Ok? {
          TilesSkip(src, pos, line, r.value, Starts(src, floatOk, next, line'));
        }
      case Emitted(t, next) =>
        ScanOneEmits(src, floatOk, pos, line);
        ScanSound(src, floatOk, next, line);
        var r := ScanFrom(src, floatOk, next, line);
        if r.Ok? {
          SoundCons(src, floatOk, pos, line, t, r.value, Starts(src, floatOk, next, line));
        }
      case Failed(_, _) =>
      case Faulted =>
    }
  }

  /** A run ends at the first byte at or after i that is not in the class. */
  lemma {:induction false} RunEndAt(src: seq<byte>, i: nat, j: nat, cls: ByteClass)
    requires i <= j < |src|
    requires forall k :: i <= k < j ==> In(cls, src[k])
    requires !In(cls, src[j])
    ensures RunEnd(src, i, cls) == Some(j)
    decreases j - i
  {
    if i < j {
      RunEndAt(src, i + 1, j, cls);
    }
  }

  /** A lexed string token is what `getString` scans at its offset. */
  lemma StringScans(src: seq<byte>, t: Token, pos: nat, line: int)
    requires Lexed(src, t, pos) && t.kind == String && t.line == line
    ensures StringStep(src, pos, line) == Emitted(t, pos + |t.lexeme|)
  {
    var lex := t.lexeme;
    var e := pos + |lex| - 1;
    forall k | pos + 1 <= k < e
      ensures In(StringBody, src[k])
    {
      assert src[k] == lex[k - pos];
    }
    assert src[e] == lex[|lex| - 1];
    RunEndAt(src, pos + 1, e, StringBody);
    SubSlice(src, pos, pos + |lex|, 1, |lex| - 1);
  }

  /** A slice of a slice is a slice. */
  lemma SubSlice(src: seq<byte>, i: nat, j: nat, a: nat, b: nat)
    requires i <= j <= |src| && a <= b <= j - i
    ensures src[i..j][a..b] == src[i + a..i + b]
  {
    var inner, outer := src[i..j][a..b], src[i + a..i + b];
    assert |inner| == |outer|;
    forall k | 0 <= k < |inner|
      ensures inner[k] == outer[k]
    {
      assert inner[k] == src[i + a + k];
    }
  }

  /** A lexed keyword token is what `identifier` scans at its offset. */
  lemma KeywordScans(src: seq<byte>, t: Token, pos: nat, line: int)
    requires Lexed(src, t, pos) && t.kind in {True, False, Null} && t.line == line
    requires IsAlpha(src[pos])
    ensures IdentifierStep(src, pos, line) == Emitted(t, pos + |t.lexeme|)
  {
    var lex := t.lexeme;
    var q := pos + |lex|;
    assert forall k :: 0 <= k < |lex| ==> IsAlpha(lex[k]);
    forall k | pos + 1 <= k < q
      ensures In(Letters, src[k])
    {
      assert src[k] == lex[k - pos];
    }
    RunEndAt(src, pos + 1, q, Letters);
  }

  /** Where `number` stops on a digit run that no digit-led dot follows. */
  lemma IntegerEnd(src: seq<byte>, pos: nat, q: nat)
    requires pos < q < |src|
    requires forall j :: pos <= j < q ==> IsDigit(src[j])
    requires !IsDigit(src[q]) && !(src[q] == DOT && IsDigit(PeekNextAt(src, q)))
    ensures IsDigit(src[pos]) && NumberEnd(src, pos) == Some(q)
  {
    RunEndAt(src, pos + 1, q, DigitRun);
  }

  /** Where `number` stops on digits, a dot at d, and digits. */
  lemma FractionEnd(src: seq<byte>, pos: nat, d: nat, q: nat)
    requires pos < d && d + 1 < q < |src| && src[d] == DOT
    requires forall j :: pos <= j < d ==> IsDigit(src[j])
    requires forall j :: d < j < q ==> IsDigit(src[j])
    requires !IsDigit(src[q])
    ensures IsDigit(src[pos]) && NumberEnd(src, pos) == Some(q)
  {
    RunEndAt(src, pos + 1, d, DigitRun);
    RunEndAt(src, d + 1, q, DigitRun);
  }

  /** Where `number` stops when it starts on the number lexeme src[pos..q]. */
  lemma NumberLexemeEnd(src: seq<byte>, pos: nat, q: nat)
    requires pos < q < |src| && IsNumberLexeme(src[pos..q]) && !IsDigit(src[q])
    requires DOT !in src[pos..q] ==> !(src[q] == DOT && IsDigit(PeekNextAt(src, q)))
    ensures IsDigit(src[pos]) && NumberEnd(src, pos) == Some(q)
  {
    var lex := src[pos..q];
    if DOT in lex {
      var k :| 0 < k < |lex| - 1 && lex[k] == DOT && AllDigits(lex[..k]) && AllDigits(lex[k + 1..]);
      assert lex[..k] == src[pos..pos + k];
      assert lex[k + 1..] == src[pos + k + 1..q];
      FractionLexemeEnd(src, pos, pos + k, q);
    } else {
      IntegerLexemeEnd(src, pos, q);
    }
  }

  lemma FractionLexemeEnd(src: seq<byte>, pos: nat, d: nat, q: nat)
    requires pos < d && d + 1 < q < |src| && src[d] == DOT && !IsDigit(src[q])
    requires AllDigits(src[pos..d]) && AllDigits(src[d + 1..q])
    ensures IsDigit(src[pos]) && NumberEnd(src, pos) == Some(q)
  {
    DigitsAt(src, pos, d);
    DigitsAt(src, d + 1, q);
    FractionEnd(src, pos, d, q);
  }

  lemma IntegerLexemeEnd(src: seq<byte>, pos: nat, q: nat)
    requires pos < q < |src| && AllDigits(src[pos..q]) && !IsDigit(src[q])
    requires !(src[q] == DOT && IsDigit(PeekNextAt(src, q)))
    ensures IsDigit(src[pos]) && NumberEnd(src, pos) == Some(q)
  {
    DigitsAt(src, pos, q);
    IntegerEnd(src, pos, q);
  }

  /** A slice of digits holds a digit at every offset it covers. */
  lemma DigitsAt(src: seq<byte>, i: nat, j: nat)
    requires i <= j <= |src| && AllDigits(src[i..j])
    ensures forall k :: i <= k < j ==> IsDigit(src[k])
  {
    forall k | i <= k < j
      ensures IsDigit(src[k])
    {
      assert src[k] == src[i..j][k - i];
    }
  }

  /** A lexed number token is what `number` scans at its offset. */
  lemma NumberScans(src: seq<byte>, floatOk: seq<byte> -> bool, t: Token, pos: nat, line: int)
    requires Lexed(src, t, pos) && t.kind == Number && t.line == line && floatOk(t.lexeme)
    requires IsDigit(src[pos])
    ensures NumberStep(src, floatOk, pos, line) == Emitted(t, pos + |t.lexeme|)
  {
    NumberLexemeEnd(src, pos, pos + |t.lexeme|);
  }

  /** Determinism: a lexed token is exactly what `ScanToken` emits at its offset. */
  lemma LexedScans(src: seq<byte>, floatOk: seq<byte> -> bool, t: Token, pos: nat, line: int)
    requires Lexed(src, t, pos) && t.line == line
    requires t.kind == Number ==> floatOk(t.lexeme)
    ensures ScanOne(src, floatOk, pos, line) == Emitted(t, pos + |t.lexeme|)
  {
    var c := src[pos];
    assert c == t.lexeme[0];
    if t.kind == String {
      StringScans(src, t, pos, line);
    } else if t.kind == Number {
      assert IsDigit(c);
      NumberScans(src, floatOk, t, pos, line);
    } else if t.kind == True || t.kind == False || t.kind == Null {
      KeywordScans(src, t, pos, line);
    }
  }

  /** The scan steps over a run of whitespace, counting its newlines. */
  lemma {:induction false} ScanSkipsBlank(src: seq<byte>, floatOk: seq<byte> -> bool, pos: nat, s: nat, line: int, line': int)
    requires pos <= s <= |src| && Blank(src, pos, s) && line' == line + Newlines(src[pos..s])
    ensures ScanFrom(src, floatOk, pos, line) == ScanFrom(src, floatOk, s, line')
    decreases s - pos
  {
    if pos == s {
      assert src[pos..s] == [];
    } else {
      ScanSkips(src, floatOk, pos, line);
      NewlinesSplit(src, pos, pos + 1, s);
      ScanSkipsBlank(src, floatOk, pos + 1, s, line + Newlines(src[pos..pos + 1]), line');
    }
  }

  /** A tiling without tokens is whitespace to the end, which scans to no tokens. */
  lemma ScanBlank(src: seq<byte>, floatOk: seq<byte> -> bool, pos: nat, line: int, starts: seq<nat>)
    requires Tiles(src, pos, line, [], starts)
    ensures ScanFrom(src, floatOk, pos, line) == Ok([])
  {
    ScanSkipsBlank(src, floatOk, pos, |src|, line, line + Newlines(src[pos..|src|]));
  }

  /** The scan from a lexed token's offset emits that token and goes on after it. */
  lemma ScanEmitsLexed(src: seq<byte>, floatOk: seq<byte> -> bool, t: Token, pos: nat, line: int)
    requires Lexed(src, t, pos) && t.line == line
    requires t.kind == Number ==> floatOk(t.lexeme)
    ensures pos + |t.lexeme| <= |src|
    ensures ScanFrom(src, floatOk, pos, line) == Prepend([t], ScanFrom(src, floatOk, pos + |t.lexeme|, line))
  {
    var next := pos + |t.lexeme|;
    assert ScanOne(src, floatOk, pos, line) == Emitted(t, next) by {
      LexedScans(src, floatOk, t, pos, line);
    }
    EmittedScan(src, floatOk, pos, line, t, next);
  }

  /** One step of `ScanTokens` that skips a byte: the scan is the scan from the next byte, with the new line counter. */
  lemma SkippedScan(src: seq<byte>, floatOk: seq<byte> -> bool, pos: nat, line: int, next: nat, line': int)
    requires ScanOne(src, floatOk, pos, line) == Skipped(next, line')
    ensures ScanFrom(src, floatOk, pos, line) == ScanFrom(src, floatOk, next, line')
  {
  }

  /** One step of `ScanTokens` that emits t: the scan is t followed by the scan after it. */
  lemma EmittedScan(src: seq<byte>, floatOk: seq<byte> -> bool, pos: nat, line: int, t: Token, next: nat)
    requires ScanOne(src, floatOk, pos, line) == Emitted(t, next)
    ensures ScanFrom(src, floatOk, pos, line) == Prepend([t], ScanFrom(src, floatOk, next, line))
  {
  }

  /** Completeness: every tiling whose numbers parse is what the scan returns. */
  lemma {:induction false} ScanComplete(src: seq<byte>, floatOk: seq<byte> -> bool, pos: nat, line: int,
                                        ts: seq<Token>, starts: seq<nat>)
    requires Tiles(src, pos, line, ts, starts) && NumbersOk(ts, floatOk)
    ensures ScanFrom(src, floatOk, pos, line) == Ok(ts)
    decreases |src| - pos, 2
  {
    if ts == [] {
      ScanBlank(src, floatOk, pos, line, starts);
    } else {
      TilesHead(src, floatOk, pos, line, ts, starts);
      ScanCompleteFirst(src, floatOk, pos, line, ts, starts);
    }
  }

  /** The scan emits a tiling's first token, then the rest. */
  lemma {:induction false} ScanCompleteFirst(src: seq<byte>, floatOk: seq<byte> -> bool, pos: nat, line: int,
                                             ts: seq<Token>, starts: seq<nat>)
    requires |ts| == |starts| && ts != [] && pos <= starts[0] <= |src| && Blank(src, pos, starts[0])
    requires Lexed(src, ts[0], starts[0]) && ts[0].line == line + Newlines(src[pos..starts[0]])
    requires ts[0].kind == Number ==> floatOk(ts[0].lexeme)
    requires pos < starts[0] + |ts[0].lexeme| <= |src|
    requires Tiles(src, starts[0] + |ts[0].lexeme|, ts[0].line, ts[1..], starts[1..]) && NumbersOk(ts[1..], floatOk)
    ensures ScanFrom(src, floatOk, pos, line) == Ok(ts)
    decreases |src| - pos, 1
  {
    ScanHead(src, floatOk, pos, line, starts[0], ts[0]);
    ScanCompleteCons(src, floatOk, pos, line, ts, starts);
  }

  /** The scan after the first token of a tiling yields the rest, so the token and the rest are all of it. */
  lemma {:induction false} ScanCompleteCons(src: seq<byte>, floatOk: seq<byte> -> bool, pos: nat, line: int,
                                            ts: seq<Token>, starts: seq<nat>)
    requires |ts| == |starts| && ts != [] && pos < starts[0] + |ts[0].lexeme| <= |src|
    requires Tiles(src, starts[0] + |ts[0].lexeme|, ts[0].line, ts[1..], starts[1..]) && NumbersOk(ts[1..], floatOk)
    ensures Prepend([ts[0]], ScanFrom(src, floatOk, starts[0] + |ts[0].lexeme|, ts[0].line)) == Ok(ts)
    decreases |src| - pos, 0
  {
    ScanComplete(src, floatOk, starts[0] + |ts[0].lexeme|, ts[0].line, ts[1..], starts[1..]);
    assert [ts[0]] + ts[1..] == ts;
  }

  /** Each token of a tiling is lexed at its offset, on the start line plus the newlines before that offset. */
  lemma {:induction false} TilesLines(src: seq<byte>, pos: nat, line: int, ts: seq<Token>, starts: seq<nat>)
    requires Tiles(src, pos, line, ts, starts)
    ensures |starts| == |ts|
    ensures forall i :: 0 <= i < |ts| ==>
      && pos <= starts[i] <= |src| && Lexed(src, ts[i], starts[i])
      && ts[i].line == line + Newlines(src[pos..starts[i]])
    decreases |ts|
  {
    if ts != [] {
      var s := starts[0];
      var q := s + |ts[0].lexeme|;
      assert pos <= s && Lexed(src, ts[0], s) && ts[0].line == line + Newlines(src[pos..s]);
      assert q <= |src| && Tiles(src, q, ts[0].line, ts[1..], starts[1..]);
      TilesLines(src, q, ts[0].line, ts[1..], starts[1..]);
      NoNewlines(src[s..q]);
      forall i | 1 <= i < |ts|
        ensures pos <= starts[i] <= |src| && Lexed(src, ts[i], starts[i])
        ensures ts[i].line == line + Newlines(src[pos..starts[i]])
      {
        var t, p := ts[1..][i - 1], starts[1..][i - 1];
        assert q <= p <= |src| && Lexed(src, t, p) && t.line == ts[0].line + Newlines(src[q..p]);
        assert ts[i] == t && starts[i] == p;
        LinesAfter(src, pos, s, q, p, line, ts[0].line, t.line);
      }
    }
  }

  /** Counting from pos to s, then over bytes s..q with no newline, then from q to p, counts from pos to p. */
  lemma LinesAfter(src: seq<byte>, pos: nat, s: nat, q: nat, p: nat, line: int, l0: int, l: int)
    requires pos <= s <= q <= p <= |src| && Newlines(src[s..q]) == 0
    requires l0 == line + Newlines(src[pos..s]) && l == l0 + Newlines(src[q..p])
    ensures l == line + Newlines(src[pos..p])
  {
    NewlinesSplit(src, pos, s, p);
    NewlinesSplit(src, s, q, p);
  }

  /**
   * `ScanTokens` on a fresh lexer succeeds with ts exactly when src is a
   * tiling of ts from offset 0 and line 1 whose numbers all parse; then each
   * token is lexed at its offset, on line 1 plus the newlines before it.
   */
  lemma LexCharacterization(src: seq<byte>, floatOk: seq<byte> -> bool, ts: seq<Token>)
    ensures Lex(src, floatOk) == Ok(ts) <==> exists starts :: Tiles(src, 0, 1, ts, starts) && NumbersOk(ts, floatOk)
    ensures Lex(src, floatOk) == Ok(ts) ==>
      var starts := Starts(src, floatOk, 0, 1);
      && |starts| == |ts|
      && forall i :: 0 <= i < |ts| ==>
           && starts[i] <= |src| && Lexed(src, ts[i], starts[i])
           && ts[i].line == 1 + Newlines(src[..starts[i]])
  {
    if Lex(src, floatOk) == Ok(ts) {
      ScanSound(src, floatOk, 0, 1);
      var starts := Starts(src, floatOk, 0, 1);
      assert Tiles(src, 0, 1, ts, starts) && NumbersOk(ts, floatOk);
      TilesLines(src, 0, 1, ts, starts);
      forall i | 0 <= i < |ts|
        ensures ts[i].line == 1 + Newlines(src[..starts[i]])
      {
        assert src[0..starts[i]] == src[..starts[i]];
      }
      assert exists st :: Tiles(src, 0, 1, ts, st) && NumbersOk(ts, floatOk);
    } else if exists starts :: Tiles(src, 0, 1, ts, starts) && NumbersOk(ts, floatOk) {
      var starts :| Tiles(src, 0, 1, ts, starts) && NumbersOk(ts, floatOk);
      ScanComplete(src, floatOk, 0, 1, ts, starts);
      assert false;
    }
  }

  /**
   * The loop of `ScanTokens`, started at pos with line counter line, gets to
   * offset p with counter l: every `ScanToken` call before p skipped a byte
   * or emitted a token.
   */
  ghost predicate Reaches(src: seq<byte>, floatOk: seq<byte> -> bool, pos: nat, line: int, p: nat, l: int)
    decreases |src| - pos
  {
    if pos == p then line == l
    else
      && pos < p && pos < |src|
      && match ScanOne(src, floatOk, pos, line)
         case Skipped(next, line') => Reaches(src, floatOk, next, line', p, l)
         case Emitted(_, next) => Reaches(src, floatOk, next, line, p, l)
         case _ => false
  }

  /** Where the loop gets to, the counter holds the start line plus the newlines passed over. */
  lemma {:induction false} ReachesLine(src: seq<byte>, floatOk: seq<byte> -> bool, pos: nat, line: int, p: nat, l: int)
    requires pos <= |src| && Reaches(src, floatOk, pos, line, p, l)
    ensures pos <= p <= |src| && l == line + Newlines(src[pos..p])
    decreases |src| - pos
  {
    if pos == p {
      assert src[pos..pos] == [];
    } else {
      ScanOneLines(src, floatOk, pos, line);
      match ScanOne(src, floatOk, pos, line)
      case Skipped(next, line') =>
        ReachesLine(src, floatOk, next, line', p, l);
        NewlinesSplit(src, pos, next, p);
      case Emitted(_, next) =>
        ReachesLine(src, floatOk, next, line, p, l);
        NewlinesSplit(src, pos, next, p);
    }
  }

  /** The loop gets to an offset where `ScanToken` fails with e. */
  ghost predicate ErrorAt(src: seq<byte>, floatOk: seq<byte> -> bool, pos: nat, line: int, e: ScanError)
  {
    exists p: nat, l: int :: && Reaches(src, floatOk, pos, line, p, l)
                   && ScanOne(src, floatOk, p, l).Failed? && ScanOne(src, floatOk, p, l).error == e
  }

  /** An error returned by the scan from pos is the failure of the `ScanToken` call the loop got to. */
  lemma {:induction false} ScanErrorAt(src: seq<byte>, floatOk: seq<byte> -> bool, pos: nat, line: int)
    requires pos <= |src|
    ensures var r := ScanFrom(src, floatOk, pos, line);
      r.Err? ==> ErrorAt(src, floatOk, pos, line, r.error)
    decreases |src| - pos
  {
    if pos < |src| {
      var r := ScanFrom(src, floatOk, pos, line);
      match ScanOne(src, floatOk, pos, line)
      case Skipped(next, line') =>
        ScanErrorAt(src, floatOk, next, line');
        SkippedScan(src, floatOk, pos, line, next, line');
        if r.Err? {
          var p, l :| && Reaches(src, floatOk, next, line', p, l)
                      && ScanOne(src, floatOk, p, l).Failed? && ScanOne(src, floatOk, p, l).error == r.error;
          ReachesLine(src, floatOk, next, line', p, l);
          assert Reaches(src, floatOk, pos, line, p, l);
        }
      case Emitted(t, next) =>
        ScanErrorAt(src, floatOk, next, line);
        EmittedScan(src, floatOk, pos, line, t, next);
        if r.Err? {
          var p, l :| && Reaches(src, floatOk, next, line, p, l)
                      && ScanOne(src, floatOk, p, l).Failed? && ScanOne(src, floatOk, p, l).error == r.error;
          ReachesLine(src, floatOk, next, line, p, l);
          assert Reaches(src, floatOk, pos, line, p, l);
        }
      case Failed(_, _) =>
        assert Reaches(src, floatOk, pos, line, pos, line);
      case Faulted =>
    }
  }

  /** Once the loop gets to an offset where `ScanToken` fails, the scan returns that error. */
  lemma {:induction false} ReachedFailure(src: seq<byte>, floatOk: seq<byte> -> bool, pos: nat, line: int, p: nat, l: int)
    requires Reaches(src, floatOk, pos, line, p, l) && ScanOne(src, floatOk, p, l).Failed?
    ensures ScanFrom(src, floatOk, pos, line) == Err(ScanOne(src, floatOk, p, l).error)
    decreases |src| - pos
  {
    if pos != p {
      match ScanOne(src, floatOk, pos, line)
      case Skipped(next, line') => ReachedFailure(src, floatOk, next, line', p, l);
      case Emitted(_, next) => ReachedFailure(src, floatOk, next, line, p, l);
    }
  }

  /** The scan from pos returns the error e exactly when the loop gets to a `ScanToken` call failing with e. */
  lemma ScanErrorCharacterization(src: seq<byte>, floatOk: seq<byte> -> bool, pos: nat, line: int, e: ScanError)
    requires pos <= |src|
    ensures ScanFrom(src, floatOk, pos, line) == Err(e) <==> ErrorAt(src, floatOk, pos, line, e)
  {
    ScanErrorAt(src, floatOk, pos, line);
    if ErrorAt(src, floatOk, pos, line, e) {
      var p, l :| && Reaches(src, floatOk, pos, line, p, l)
                  && ScanOne(src, floatOk, p, l).Failed? && ScanOne(src, floatOk, p, l).error == e;
      ReachedFailure(src, floatOk, pos, line, p, l);
    }
  }

  /**
   * On a fresh lexer: an error is the failure of the `ScanToken` call at the
   * byte p the loop got to, with the counter at 1 plus the newlines before p;
   * a lexical error carries that line and is never "Unterminated string".
   */
  lemma LexErrorLine(src: seq<byte>, floatOk: seq<byte> -> bool)
    ensures var r := Lex(src, floatOk);
      r.Err? ==>
        exists p: nat, l: int ::
          && Reaches(src, floatOk, 0, 1, p, l) && p < |src| && l == 1 + Newlines(src[..p])
          && ScanOne(src, floatOk, p, l).Failed? && ScanOne(src, floatOk, p, l).error == r.error
          && (r.error.BadInput? ==> r.error.err.line == l && r.error.err.msg != UNTERMINATED)
  {
    ScanErrorAt(src, floatOk, 0, 1);
    var r := Lex(src, floatOk);
    if r.Err? {
      var p, l :| && Reaches(src, floatOk, 0, 1, p, l)
                  && ScanOne(src, floatOk, p, l).Failed? && ScanOne(src, floatOk, p, l).error == r.error;
      FailureLine(src, floatOk, p, l);
    }
  }

  lemma FailureLine(src: seq<byte>, floatOk: seq<byte> -> bool, p: nat, l: int)
    requires Reaches(src, floatOk, 0, 1, p, l) && ScanOne(src, floatOk, p, l).Failed?
    ensures p < |src| && l == 1 + Newlines(src[..p])
    ensures var e := ScanOne(src, floatOk, p, l).error;
      e.BadInput? ==> e.err.line == l && e.err.msg != UNTERMINATED
  {
    ReachesLine(src, floatOk, 0, 1, p, l);
    ScanOneFacts(src, floatOk, p, l);
    assert src[0..p] == src[..p];
  }

  /** A kind among the eleven constants of the `iota` block, `String` to `Colon`. */
  predicate Declared(k: TokenType)
  {
    String <= k <= Colon
  }

  /**
   * The scan only emits tokens of the eleven declared kinds; in particular it
   * never emits an end-of-input token.
   */
  lemma {:induction false} ScanKinds(src: seq<byte>, floatOk: seq<byte> -> bool, pos: nat, line: int)
    ensures var r := ScanFrom(src, floatOk, pos, line);
      r.Ok? ==> forall i :: 0 <= i < |r.value| ==> Declared(r.value[i].kind)
    decreases |src| - pos
  {
    if pos < |src| {
      match ScanOne(src, floatOk, pos, line)
      case Skipped(next, line') =>
        ScanKinds(src, floatOk, next, line');
      case Emitted(t, next) =>
        ScanOneEmits(src, floatOk, pos, line);
        ScanKinds(src, floatOk, next, line);
        EmittedScan(src, floatOk, pos, line, t, next);
      case Failed(_, _) =>
      case Faulted =>
    }
  }

  // Worked inputs. Bytes: '[' 91, ']' 93, '{' 123, '}' 125, '"' 34, ':' 58,
  // '.' 46, '1' 49, 'a' 97, 'b' 98, 'c' 99, 'e' 101, 'k' 107, 'y' 121, '\n' 10.

  /** `{}` scans to a left and a right brace on line 1. */
  lemma EmptyObjectTokens(floatOk: seq<byte> -> bool)
    ensures Lex([LBRACE, RBRACE], floatOk)
         == Ok([Token([LBRACE], Absent, 1, LeftBrace), Token([RBRACE], Absent, 1, RightBrace)])
  {
    var src: seq<byte> := [LBRACE, RBRACE];
    var open, close := Token([LBRACE], Absent, 1, LeftBrace), Token([RBRACE], Absent, 1, RightBrace);
    assert ScanFrom(src, floatOk, 2, 1) == Ok([]);
    assert ScanOne(src, floatOk, 1, 1) == Emitted(close, 2);
    assert [close] + [] == [close];
    assert ScanFrom(src, floatOk, 1, 1) == Ok([close]);
    assert ScanOne(src, floatOk, 0, 1) == Emitted(open, 1);
    assert [open] + [close] == [open, close];
    assert ScanFrom(src, floatOk, 0, 1) == Ok([open, close]);
  }

  /** `["abc` panics: the string loop reads past the end. */
  lemma UnclosedStringPanics(floatOk: seq<byte> -> bool)
    ensures Lex([LBRACKET, QUOTE, 97, 98, 99], floatOk) == Panic
  {
    var src: seq<byte> := [LBRACKET, QUOTE, 97, 98, 99];
    assert RunEnd(src, 2, StringBody) == None by {
      RunEndFacts(src, 2, StringBody);
    }
    assert ScanOne(src, floatOk, 1, 1) == Faulted;
    assert ScanFrom(src, floatOk, 1, 1) == Panic;
    assert ScanOne(src, floatOk, 0, 1).Emitted?;
    assert ScanFrom(src, floatOk, 0, 1) == Panic;
  }

  /** `1` alone panics: the digit loop reads past the end. */
  lemma TrailingNumberPanics(floatOk: seq<byte> -> bool)
    ensures Lex([49], floatOk) == Panic
  {
    assert ScanOne([49], floatOk, 0, 1) == Faulted;
    assert ScanFrom([49], floatOk, 0, 1) == Panic;
  }

  /** `[1.]`: the dot is not taken without a digit after it, and is then an unexpected character. */
  lemma DotWithoutFraction(floatOk: seq<byte> -> bool)
    ensures Lex([LBRACKET, 49, DOT, RBRACKET], floatOk)
         == if floatOk([49]) then Err(BadInput(LexerError(UnexpectedCharacter(DOT), 1)))
            else Err(FloatError([49]))
  {
    var src: seq<byte> := [LBRACKET, 49, DOT, RBRACKET];
    assert RunEnd(src, 2, DigitRun) == Some(2);
    assert NumberEnd(src, 1) == Some(2);
    assert src[1..2] == [49];
    if floatOk([49]) {
      assert ScanOne(src, floatOk, 2, 1) == Failed(BadInput(LexerError(UnexpectedCharacter(DOT), 1)), 3);
      assert ScanFrom(src, floatOk, 2, 1) == Err(BadInput(LexerError(UnexpectedCharacter(DOT), 1)));
      assert ScanOne(src, floatOk, 1, 1) == Emitted(Token([49], NumberText([49]), 1, Number), 2);
      assert ScanFrom(src, floatOk, 1, 1) == Err(BadInput(LexerError(UnexpectedCharacter(DOT), 1)));
      assert ScanOne(src, floatOk, 0, 1).Emitted?;
      assert ScanFrom(src, floatOk, 0, 1) == Err(BadInput(LexerError(UnexpectedCharacter(DOT), 1)));
    } else {
      assert ScanOne(src, floatOk, 1, 1) == Failed(FloatError([49]), 2);
      assert ScanFrom(src, floatOk, 1, 1) == Err(FloatError([49]));
      assert ScanOne(src, floatOk, 0, 1).Emitted?;
      assert ScanFrom(src, floatOk, 0, 1) == Err(FloatError([49]));
    }
  }

  /** `{key:1}`: an unquoted key is an unexpected identifier. */
  lemma UnquotedKey(floatOk: seq<byte> -> bool)
    ensures Lex([LBRACE, 107, 101, 121, COLON, 49, RBRACE], floatOk)
         == Err(BadInput(LexerError(UnexpectedIdentifier([107, 101, 121]), 1)))
  {
    var src: seq<byte> := [LBRACE, 107, 101, 121, COLON, 49, RBRACE];
    assert RunEnd(src, 2, Letters) == Some(4) by {
      RunEndAt(src, 2, 4, Letters);
    }
    assert src[1..4] == [107, 101, 121] && KeywordKind([107, 101, 121]).None?;
    assert ScanOne(src, floatOk, 1, 1) == Failed(BadInput(LexerError(UnexpectedIdentifier([107, 101, 121]), 1)), 4);
    assert ScanFrom(src, floatOk, 1, 1) == Err(BadInput(LexerError(UnexpectedIdentifier([107, 101, 121]), 1)));
    assert ScanOne(src, floatOk, 0, 1).Emitted?;
    assert ScanFrom(src, floatOk, 0, 1) == Err(BadInput(LexerError(UnexpectedIdentifier([107, 101, 121]), 1)));
  }

  /** `[` newline `"a` newline `"`: a newline inside a string fails on the line the string started. */
  lemma NewlineInString(floatOk: seq<byte> -> bool)
    ensures Lex([LBRACKET, NEWLINE, QUOTE, 97, NEWLINE, QUOTE], floatOk)
         == Err(BadInput(LexerError(NEWLINE_IN_STRING, 2)))
  {
    var src: seq<byte> := [LBRACKET, NEWLINE, QUOTE, 97, NEWLINE, QUOTE];
    assert RunEnd(src, 3, StringBody) == Some(4) by {
      RunEndAt(src, 3, 4, StringBody);
    }
    assert ScanOne(src, floatOk, 2, 2) == Failed(BadInput(LexerError(NEWLINE_IN_STRING, 2)), 4);
    assert ScanFrom(src, floatOk, 2, 2) == Err(BadInput(LexerError(NEWLINE_IN_STRING, 2)));
    assert ScanOne(src, floatOk, 1, 1) == Skipped(2, 2);
    assert ScanFrom(src, floatOk, 1, 1) == Err(BadInput(LexerError(NEWLINE_IN_STRING, 2)));
    assert ScanOne(src, floatOk, 0, 1).Emitted?;
    assert ScanFrom(src, floatOk, 0, 1) == Err(BadInput(LexerError(NEWLINE_IN_STRING, 2)));
  }
}
