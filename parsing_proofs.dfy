/**
 * What the parser (parser.go) accepts, stated against the grammar of the doc
 * comment in tokens.go (module Grammar): a token list is accepted exactly when
 * it starts with an object or an array, and the cursor stops right after it;
 * the tokens after it are never looked at; a token list that runs out inside
 * a document panics. Then a few concrete token lists.
 */
module ParsingProofs {
  import opened Outcomes
  import opened Format
  import opened Tokens
  import opened Grammar
  import opened GrammarProofs
  import opened Parsing
  import Lexing

  // ---------------------------------------------------------------------
  // One step of each parsing function
  // ---------------------------------------------------------------------

  lemma ValueStep(ts: seq<Token>, pos: nat)
    requires pos <= |ts|
    ensures pos == |ts| ==> ValueFrom(ts, pos) == Panicked
    ensures pos < |ts| && IsPrimary(ts[pos].kind) ==> ValueFrom(ts, pos) == Accepted(pos + 1)
    ensures CheckAt(ts, pos, LeftBrace) ==> ValueFrom(ts, pos) == ObjectFrom(ts, pos + 1)
    ensures CheckAt(ts, pos, LeftParen) ==> ValueFrom(ts, pos) == ArrayFrom(ts, pos + 1)
    ensures ValueFrom(ts, pos).Accepted? ==>
              IsPrimary(ts[pos].kind) || CheckAt(ts, pos, LeftBrace) || CheckAt(ts, pos, LeftParen)
  {
  }

  lemma ObjectStep(ts: seq<Token>, pos: nat)
    requires pos <= |ts|
    ensures CheckAt(ts, pos, RightBrace) ==>
              ObjectFrom(ts, pos) == ConsumeAt(ts, pos, RightBrace, EXPECTED_CLOSE_BRACE)
    ensures !CheckAt(ts, pos, RightBrace) && EntriesFrom(ts, pos).Accepted? ==>
              ObjectFrom(ts, pos) == ConsumeAt(ts, EntriesFrom(ts, pos).next, RightBrace, EXPECTED_CLOSE_BRACE)
    ensures !CheckAt(ts, pos, RightBrace) && !EntriesFrom(ts, pos).Accepted? ==>
              ObjectFrom(ts, pos) == EntriesFrom(ts, pos)
  {
  }

  lemma EntriesStep(ts: seq<Token>, pos: nat)
    requires pos <= |ts|
    ensures !CheckAt(ts, pos, String) ==> EntriesFrom(ts, pos) == Accepted(pos)
    ensures CheckAt(ts, pos, String) && EntryFrom(ts, pos).Accepted? ==>
              EntriesFrom(ts, pos) == MoreEntriesFrom(ts, EntryFrom(ts, pos).next)
    ensures CheckAt(ts, pos, String) && !EntryFrom(ts, pos).Accepted? ==>
              EntriesFrom(ts, pos) == EntryFrom(ts, pos)
  {
  }

  lemma MoreEntriesStep(ts: seq<Token>, pos: nat)
    requires pos <= |ts|
    ensures !CheckAt(ts, pos, Comma) ==> MoreEntriesFrom(ts, pos) == Accepted(pos)
    ensures CheckAt(ts, pos, Comma) && EntryFrom(ts, pos + 1).Accepted? ==>
              MoreEntriesFrom(ts, pos) == MoreEntriesFrom(ts, EntryFrom(ts, pos + 1).next)
    ensures CheckAt(ts, pos, Comma) && !EntryFrom(ts, pos + 1).Accepted? ==>
              MoreEntriesFrom(ts, pos) == EntryFrom(ts, pos + 1)
  {
  }

  lemma EntryStep(ts: seq<Token>, pos: nat)
    requires pos <= |ts|
    ensures pos == |ts| ==> EntryFrom(ts, pos) == Panicked
    ensures CheckAt(ts, pos, String) && pos + 1 == |ts| ==> EntryFrom(ts, pos) == Panicked
    ensures EntryFrom(ts, pos).Accepted? ==> CheckAt(ts, pos, String) && CheckAt(ts, pos + 1, Colon)
    ensures CheckAt(ts, pos, String) && CheckAt(ts, pos + 1, Colon) ==> EntryFrom(ts, pos) == ValueFrom(ts, pos + 2)
  {
  }

  lemma ArrayStep(ts: seq<Token>, pos: nat)
    requires pos <= |ts|
    ensures ItemsFrom(ts, pos).Accepted? ==>
              ArrayFrom(ts, pos) == ConsumeAt(ts, ItemsFrom(ts, pos).next, RightParen, EXPECTED_CLOSE_BRACKET)
    ensures !ItemsFrom(ts, pos).Accepted? ==> ArrayFrom(ts, pos) == ItemsFrom(ts, pos)
  {
  }

  lemma ItemsStep(ts: seq<Token>, pos: nat)
    requires pos <= |ts|
    ensures CheckAt(ts, pos, RightParen) ==> ItemsFrom(ts, pos) == Accepted(pos)
    ensures !CheckAt(ts, pos, RightParen) && !ValueFrom(ts, pos).Accepted? ==>
              ItemsFrom(ts, pos) == ValueFrom(ts, pos)
    ensures !CheckAt(ts, pos, RightParen) && ValueFrom(ts, pos).Accepted? ==>
              ItemsFrom(ts, pos) == MoreValuesFrom(ts, ValueFrom(ts, pos).next)
  {
  }

  lemma MoreValuesStep(ts: seq<Token>, pos: nat)
    requires pos <= |ts|
    ensures !CheckAt(ts, pos, Comma) ==> MoreValuesFrom(ts, pos) == Accepted(pos)
    ensures CheckAt(ts, pos, Comma) && ValueFrom(ts, pos + 1).Accepted? ==>
              MoreValuesFrom(ts, pos) == MoreValuesFrom(ts, ValueFrom(ts, pos + 1).next)
    ensures CheckAt(ts, pos, Comma) && !ValueFrom(ts, pos + 1).Accepted? ==>
              MoreValuesFrom(ts, pos) == ValueFrom(ts, pos + 1)
  {
  }

  // ---------------------------------------------------------------------
  // Completeness: a written tree is accepted, with the cursor just past it.
  // ---------------------------------------------------------------------

  lemma {:induction false} ValueComplete(ts: seq<Token>, pos: nat, v: Value)
    requires Spells(Kinds(ts), pos, v)
    ensures ValueFrom(ts, pos) == Accepted(pos + Width(v))
    decreases v, 0
  {
    ValueStep(ts, pos);
    match v
    case Leaf(_) =>
    case Object(es) => ObjectComplete(ts, pos + 1, es);
    case Array(vs) => ArrayComplete(ts, pos + 1, vs);
  }

  lemma {:induction false} ObjectComplete(ts: seq<Token>, pos: nat, es: Values)
    requires SpellsEntries(Kinds(ts), pos, es) && KindAt(Kinds(ts), pos + EntriesWidth(es), RightBrace)
    ensures ObjectFrom(ts, pos) == Accepted(pos + EntriesWidth(es) + 1)
    decreases es, 3
  {
    ObjectStep(ts, pos);
    EntriesComplete(ts, pos, es);
    if es.Cons? {
      assert SpellsEntry(Kinds(ts), pos, es.head);
    }
  }

  lemma {:induction false} EntriesComplete(ts: seq<Token>, pos: nat, es: Values)
    requires SpellsEntries(Kinds(ts), pos, es) && KindAt(Kinds(ts), pos + EntriesWidth(es), RightBrace)
    ensures EntriesFrom(ts, pos) == Accepted(pos + EntriesWidth(es))
    decreases es, 2
  {
    EntriesStep(ts, pos);
    match es
    case Nil =>
    case Cons(v, rest) =>
      EntryComplete(ts, pos, v);
      MoreEntriesComplete(ts, pos + 2 + Width(v), rest);
  }

  lemma {:induction false} MoreEntriesComplete(ts: seq<Token>, pos: nat, es: Values)
    requires SpellsMoreEntries(Kinds(ts), pos, es) && KindAt(Kinds(ts), pos + MoreEntriesWidth(es), RightBrace)
    ensures MoreEntriesFrom(ts, pos) == Accepted(pos + MoreEntriesWidth(es))
    decreases es, 2
  {
    MoreEntriesStep(ts, pos);
    match es
    case Nil =>
    case Cons(v, rest) =>
      EntryComplete(ts, pos + 1, v);
      MoreEntriesComplete(ts, pos + 3 + Width(v), rest);
  }

  lemma {:induction false} EntryComplete(ts: seq<Token>, pos: nat, v: Value)
    requires SpellsEntry(Kinds(ts), pos, v)
    ensures EntryFrom(ts, pos) == Accepted(pos + 2 + Width(v))
    decreases v, 1
  {
    EntryStep(ts, pos);
    ValueComplete(ts, pos + 2, v);
  }

  lemma {:induction false} ArrayComplete(ts: seq<Token>, pos: nat, vs: Values)
    requires SpellsItems(Kinds(ts), pos, vs) && KindAt(Kinds(ts), pos + ItemsWidth(vs), RightParen)
    ensures ArrayFrom(ts, pos) == Accepted(pos + ItemsWidth(vs) + 1)
    decreases vs, 4
  {
    ArrayStep(ts, pos);
    ItemsComplete(ts, pos, vs);
  }

  lemma {:induction false} ItemsComplete(ts: seq<Token>, pos: nat, vs: Values)
    requires SpellsItems(Kinds(ts), pos, vs) && KindAt(Kinds(ts), pos + ItemsWidth(vs), RightParen)
    ensures ItemsFrom(ts, pos) == Accepted(pos + ItemsWidth(vs))
    decreases vs, 3
  {
    ItemsStep(ts, pos);
    match vs
    case Nil =>
    case Cons(v, rest) =>
      SpellsStart(Kinds(ts), pos, v);
      ValueComplete(ts, pos, v);
      MoreItemsComplete(ts, pos + Width(v), rest);
  }

  lemma {:induction false} MoreItemsComplete(ts: seq<Token>, pos: nat, vs: Values)
    requires SpellsMoreItems(Kinds(ts), pos, vs) && KindAt(Kinds(ts), pos + MoreItemsWidth(vs), RightParen)
    ensures MoreValuesFrom(ts, pos) == Accepted(pos + MoreItemsWidth(vs))
    decreases vs, 2
  {
    MoreValuesStep(ts, pos);
    match vs
    case Nil =>
    case Cons(v, rest) =>
      ValueComplete(ts, pos + 1, v);
      MoreItemsComplete(ts, pos + 1 + Width(v), rest);
  }

  // ---------------------------------------------------------------------
  // Soundness: whatever is accepted is a written tree.
  // ---------------------------------------------------------------------

  lemma {:induction false} ValueSound(ts: seq<Token>, pos: nat) returns (v: Value)
    requires pos <= |ts| && ValueFrom(ts, pos).Accepted?
    ensures Spells(Kinds(ts), pos, v) && ValueFrom(ts, pos).next == pos + Width(v)
    decreases |ts| - pos, 0
  {
    ValueStep(ts, pos);
    var k := ts[pos].kind;
    if IsPrimary(k) {
      v := Leaf(k);
    } else if k == LeftBrace {
      var es := ObjectSound(ts, pos + 1);
      v := Object(es);
    } else {
      var vs := ArraySound(ts, pos + 1);
      v := Array(vs);
    }
  }

  lemma {:induction false} ObjectSound(ts: seq<Token>, pos: nat) returns (es: Values)
    requires pos <= |ts| && ObjectFrom(ts, pos).Accepted?
    ensures SpellsEntries(Kinds(ts), pos, es) && KindAt(Kinds(ts), pos + EntriesWidth(es), RightBrace)
    ensures ObjectFrom(ts, pos).next == pos + EntriesWidth(es) + 1
    decreases |ts| - pos, 3
  {
    ObjectStep(ts, pos);
    if CheckAt(ts, pos, RightBrace) {
      es := Nil;
    } else {
      es := EntriesSound(ts, pos);
    }
  }

  lemma {:induction false} EntriesSound(ts: seq<Token>, pos: nat) returns (es: Values)
    requires pos <= |ts| && EntriesFrom(ts, pos).Accepted?
    ensures SpellsEntries(Kinds(ts), pos, es) && EntriesFrom(ts, pos).next == pos + EntriesWidth(es)
    decreases |ts| - pos, 2
  {
    EntriesStep(ts, pos);
    if !CheckAt(ts, pos, String) {
      es := Nil;
    } else {
      var v := EntrySound(ts, pos);
      var rest := MoreEntriesSound(ts, EntryFrom(ts, pos).next);
      es := Cons(v, rest);
    }
  }

  lemma {:induction false} MoreEntriesSound(ts: seq<Token>, pos: nat) returns (es: Values)
    requires pos <= |ts| && MoreEntriesFrom(ts, pos).Accepted?
    ensures SpellsMoreEntries(Kinds(ts), pos, es) && MoreEntriesFrom(ts, pos).next == pos + MoreEntriesWidth(es)
    decreases |ts| - pos, 2
  {
    MoreEntriesStep(ts, pos);
    if !CheckAt(ts, pos, Comma) {
      es := Nil;
    } else {
      var v := EntrySound(ts, pos + 1);
      var rest := MoreEntriesSound(ts, EntryFrom(ts, pos + 1).next);
      es := Cons(v, rest);
    }
  }

  lemma {:induction false} EntrySound(ts: seq<Token>, pos: nat) returns (v: Value)
    requires pos <= |ts| && EntryFrom(ts, pos).Accepted?
    ensures SpellsEntry(Kinds(ts), pos, v) && EntryFrom(ts, pos).next == pos + 2 + Width(v)
    decreases |ts| - pos, 1
  {
    EntryStep(ts, pos);
    v := ValueSound(ts, pos + 2);
  }

  lemma ArraySound(ts: seq<Token>, pos: nat) returns (vs: Values)
    requires pos <= |ts| && ArrayFrom(ts, pos).Accepted?
    ensures SpellsItems(Kinds(ts), pos, vs) && KindAt(Kinds(ts), pos + ItemsWidth(vs), RightParen)
    ensures ArrayFrom(ts, pos).next == pos + ItemsWidth(vs) + 1
    decreases |ts| - pos, 4
  {
    ArrayStep(ts, pos);
    vs := ItemsSound(ts, pos);
  }

  lemma {:induction false} ItemsSound(ts: seq<Token>, pos: nat) returns (vs: Values)
    requires pos <= |ts| && ItemsFrom(ts, pos).Accepted?
    ensures SpellsItems(Kinds(ts), pos, vs) && ItemsFrom(ts, pos).next == pos + ItemsWidth(vs)
    decreases |ts| - pos, 3
  {
    ItemsStep(ts, pos);
    if CheckAt(ts, pos, RightParen) {
      vs := Nil;
    } else {
      var v := ValueSound(ts, pos);
      var rest := MoreItemsSound(ts, ValueFrom(ts, pos).next);
      vs := Cons(v, rest);
    }
  }

  lemma {:induction false} MoreItemsSound(ts: seq<Token>, pos: nat) returns (vs: Values)
    requires pos <= |ts| && MoreValuesFrom(ts, pos).Accepted?
    ensures SpellsMoreItems(Kinds(ts), pos, vs) && MoreValuesFrom(ts, pos).next == pos + MoreItemsWidth(vs)
    decreases |ts| - pos, 2
  {
    MoreValuesStep(ts, pos);
    if !CheckAt(ts, pos, Comma) {
      vs := Nil;
    } else {
      var v := ValueSound(ts, pos + 1);
      var rest := MoreItemsSound(ts, ValueFrom(ts, pos + 1).next);
      vs := Cons(v, rest);
    }
  }

  // ---------------------------------------------------------------------
  // Truncation: running out of tokens inside a tree panics.
  // ---------------------------------------------------------------------

  /** The loop reached the end of the tokens without an error. */
  predicate Stopped(r: Parsed, ts: seq<Token>)
  {
    r == Panicked || r == Accepted(|ts|)
  }

  lemma {:induction false} ValueTruncated(ts: seq<Token>, pos: nat, v: Value)
    requires StopsInside(Kinds(ts), pos, v)
    ensures pos <= |ts| && ValueFrom(ts, pos) == Panicked
    decreases v, 0
  {
    ValueStep(ts, pos);
    if pos < |ts| {
      match v
      case Leaf(_) =>
      case Object(es) => ObjectTruncated(ts, pos + 1, es);
      case Array(vs) => ArrayTruncated(ts, pos + 1, vs);
    }
  }

  lemma {:induction false} ObjectTruncated(ts: seq<Token>, pos: nat, es: Values)
    requires StopsInsideEntries(Kinds(ts), pos, es)
    ensures pos <= |ts| && ObjectFrom(ts, pos) == Panicked
    decreases es, 3
  {
    EntriesTruncated(ts, pos, es);
    ObjectStep(ts, pos);
    match es
    case Nil =>
    case Cons(v, _) =>
      if !StopsInsideEntry(Kinds(ts), pos, v) {
        assert SpellsEntry(Kinds(ts), pos, v);
      }
  }

  lemma {:induction false} EntriesTruncated(ts: seq<Token>, pos: nat, es: Values)
    requires StopsInsideEntries(Kinds(ts), pos, es)
    ensures pos <= |ts| && Stopped(EntriesFrom(ts, pos), ts)
    decreases es, 2
  {
    match es
    case Nil =>
      EntriesStep(ts, pos);
    case Cons(v, rest) =>
      if StopsInsideEntry(Kinds(ts), pos, v) {
        EntryTruncated(ts, pos, v);
        EntriesStep(ts, pos);
      } else {
        EntryComplete(ts, pos, v);
        MoreEntriesTruncated(ts, pos + 2 + Width(v), rest);
        EntriesStep(ts, pos);
      }
  }

  lemma {:induction false} MoreEntriesTruncated(ts: seq<Token>, pos: nat, es: Values)
    requires StopsInsideMoreEntries(Kinds(ts), pos, es)
    ensures pos <= |ts| && Stopped(MoreEntriesFrom(ts, pos), ts)
    decreases es, 2
  {
    match es
    case Nil =>
      MoreEntriesStep(ts, pos);
    case Cons(v, rest) =>
      if pos < |ts| {
        if StopsInsideEntry(Kinds(ts), pos + 1, v) {
          EntryTruncated(ts, pos + 1, v);
        } else {
          EntryComplete(ts, pos + 1, v);
          MoreEntriesTruncated(ts, pos + 3 + Width(v), rest);
        }
      }
      MoreEntriesStep(ts, pos);
  }

  lemma {:induction false} EntryTruncated(ts: seq<Token>, pos: nat, v: Value)
    requires StopsInsideEntry(Kinds(ts), pos, v)
    ensures pos <= |ts| && EntryFrom(ts, pos) == Panicked
    decreases v, 1
  {
    EntryStep(ts, pos);
    if pos + 1 < |ts| {
      ValueTruncated(ts, pos + 2, v);
    }
  }

  lemma ArrayTruncated(ts: seq<Token>, pos: nat, vs: Values)
    requires StopsInsideItems(Kinds(ts), pos, vs)
    ensures pos <= |ts| && ArrayFrom(ts, pos) == Panicked
    decreases vs, 4
  {
    ItemsTruncated(ts, pos, vs);
    ArrayStep(ts, pos);
  }

  lemma {:induction false} ItemsTruncated(ts: seq<Token>, pos: nat, vs: Values)
    requires StopsInsideItems(Kinds(ts), pos, vs)
    ensures pos <= |ts| && Stopped(ItemsFrom(ts, pos), ts)
    decreases vs, 3
  {
    match vs
    case Nil =>
      ValueStep(ts, pos);
      ItemsStep(ts, pos);
    case Cons(v, rest) =>
      if StopsInside(Kinds(ts), pos, v) {
        ValueTruncated(ts, pos, v);
      } else {
        SpellsStart(Kinds(ts), pos, v);
        ValueComplete(ts, pos, v);
        MoreItemsTruncated(ts, pos + Width(v), rest);
      }
      ItemsStep(ts, pos);
  }

  lemma {:induction false} MoreItemsTruncated(ts: seq<Token>, pos: nat, vs: Values)
    requires StopsInsideMoreItems(Kinds(ts), pos, vs)
    ensures pos <= |ts| && Stopped(MoreValuesFrom(ts, pos), ts)
    decreases vs, 2
  {
    match vs
    case Nil =>
      MoreValuesStep(ts, pos);
    case Cons(v, rest) =>
      if pos < |ts| {
        if StopsInside(Kinds(ts), pos + 1, v) {
          ValueTruncated(ts, pos + 1, v);
        } else {
          ValueComplete(ts, pos + 1, v);
          MoreItemsTruncated(ts, pos + 1 + Width(v), rest);
        }
      }
      MoreValuesStep(ts, pos);
  }

  // ---------------------------------------------------------------------
  // Documents
  // ---------------------------------------------------------------------

  /** `parse` on a list that opens with `{` or `[` is `value` at the start. */
  lemma DocumentIsValue(ts: seq<Token>)
    requires CheckAt(ts, 0, LeftBrace) || CheckAt(ts, 0, LeftParen)
    ensures DocumentFrom(ts) == ValueFrom(ts, 0)
  {
    ValueStep(ts, 0);
  }

  lemma DocumentComplete(ts: seq<Token>, v: Value)
    requires IsRoot(v) && Spells(Kinds(ts), 0, v)
    ensures DocumentFrom(ts) == Accepted(Width(v))
  {
    DocumentIsValue(ts);
    ValueComplete(ts, 0, v);
  }

  lemma DocumentSound(ts: seq<Token>) returns (v: Value)
    requires DocumentFrom(ts).Accepted?
    ensures IsRoot(v) && Spells(Kinds(ts), 0, v) && DocumentFrom(ts).next == Width(v)
  {
    DocumentIsValue(ts);
    v := ValueSound(ts, 0);
  }

  /**
   * No trailing comma: when a comma is followed by a token that cannot start
   * a value (a `}` or a `]` in particular), an accepted root ends before the
   * comma, so the pair lies in the tokens `parse` leaves unread.
   */
  lemma TrailingCommaUnaccepted(ts: seq<Token>, i: nat)
    requires i + 1 < |ts| && ts[i].kind == Comma && !StartsValue(ts[i + 1].kind)
    ensures DocumentFrom(ts).Accepted? ==> DocumentFrom(ts).next <= i
  {
    if DocumentFrom(ts).Accepted? && i < DocumentFrom(ts).next {
      var v := DocumentSound(ts);
      CommaInValue(Kinds(ts), 0, v, i);
    }
  }

  /** In `objectEntries`, a comma not followed by a key is rejected at the token after it with "Expected key". */
  lemma CommaWithoutKey(ts: seq<Token>, pos: nat)
    requires pos + 1 < |ts| && ts[pos].kind == Comma && ts[pos + 1].kind != String
    ensures MoreEntriesFrom(ts, pos) == Rejected(ParserError(ts[pos + 1], EXPECTED_KEY), pos + 1)
  {
    MoreEntriesStep(ts, pos);
  }

  /** In `array`, a comma not followed by a value is rejected with "Unexpected token", the cursor past that token. */
  lemma CommaWithoutValue(ts: seq<Token>, pos: nat)
    requires pos + 1 < |ts| && ts[pos].kind == Comma && !StartsValue(ts[pos + 1].kind)
    ensures MoreValuesFrom(ts, pos) == Rejected(ParserError(ts[pos + 1], UNEXPECTED_TOKEN), pos + 2)
  {
    MoreValuesStep(ts, pos);
    ValueStep(ts, pos + 1);
  }

  /**
   * `parse` accepts exactly the token lists that start with an object or an
   * array, and leaves the cursor right after it.
   */
  lemma DocumentCharacterization(ts: seq<Token>, n: nat)
    ensures DocumentFrom(ts) == Accepted(n) <==> exists v :: IsRoot(v) && Spells(Kinds(ts), 0, v) && n == Width(v)
  {
    if DocumentFrom(ts) == Accepted(n) {
      var v := DocumentSound(ts);
    }
    if exists v :: IsRoot(v) && Spells(Kinds(ts), 0, v) && n == Width(v) {
      var v :| IsRoot(v) && Spells(Kinds(ts), 0, v) && n == Width(v);
      DocumentComplete(ts, v);
    }
  }

  /**
   * Only the kinds of the first n tokens of an accepted list matter: any list
   * whose first n tokens have the same kinds, whatever follows, is accepted too.
   */
  lemma TrailingTokensIgnored(ts: seq<Token>, n: nat, us: seq<Token>)
    requires DocumentFrom(ts) == Accepted(n) && n <= |us|
    requires forall i :: 0 <= i < n ==> us[i].kind == ts[i].kind
    ensures DocumentFrom(us) == Accepted(n)
  {
    var v := DocumentSound(ts);
    assert SameKinds(Kinds(ts), Kinds(us), n);
    SpellsKept(Kinds(ts), Kinds(us), n, 0, v);
    DocumentComplete(us, v);
  }

  /** A list that runs out inside a document makes `parse` panic. */
  lemma DocumentStops(ts: seq<Token>, v: Value)
    requires IsRoot(v) && StopsInside(Kinds(ts), 0, v)
    ensures DocumentFrom(ts) == Panicked
  {
    if |ts| > 0 {
      DocumentIsValue(ts);
      ValueTruncated(ts, 0, v);
    }
  }

  /**
   * Every list that agrees in kinds with an accepted list but stops before the
   * cursor would have (every proper prefix, in particular) makes `parse` panic.
   */
  lemma DocumentTruncated(ts: seq<Token>, n: nat, us: seq<Token>)
    requires DocumentFrom(ts) == Accepted(n) && |us| < n
    requires forall i :: 0 <= i < |us| ==> us[i].kind == ts[i].kind
    ensures DocumentFrom(us) == Panicked
  {
    var v := DocumentSound(ts);
    assert SameKinds(Kinds(ts), Kinds(us), |us|);
    CutInside(Kinds(ts), Kinds(us), 0, v);
    DocumentStops(us, v);
  }

  /**
   * `Parse` returns nil exactly when the buffer lexes into tokens that start
   * with an object or an array.
   */
  lemma ValidateCharacterization(src: seq<byte>, floatOk: seq<byte> -> bool)
    ensures Validate(src, floatOk) == Ok(()) <==>
            exists ts, v :: Lexing.Lex(src, floatOk) == Ok(ts) && IsRoot(v) && Spells(Kinds(ts), 0, v)
  {
    match Lexing.Lex(src, floatOk)
    case Ok(ts) =>
      if DocumentFrom(ts).Accepted? {
        var v := DocumentSound(ts);
      }
      if exists ts', v :: Lexing.Lex(src, floatOk) == Ok(ts') && IsRoot(v) && Spells(Kinds(ts'), 0, v) {
        var ts', v :| Lexing.Lex(src, floatOk) == Ok(ts') && IsRoot(v) && Spells(Kinds(ts'), 0, v);
        DocumentComplete(ts, v);
      }
    case Err(_) =>
    case Panic =>
  }

  // ---------------------------------------------------------------------
  // Examples
  // ---------------------------------------------------------------------

  /** A token of the given kind; its lexeme, literal and line play no part in parsing. */
  function Tok(kind: TokenType): (t: Token)
    ensures t.kind == kind
  {
    Token([], Absent, 1, kind)
  }

  /** A token list with the given kinds. */
  function Toks(ks: seq<TokenType>): (ts: seq<Token>)
    ensures |ts| == |ks| && Kinds(ts) == ks
  {
    seq(|ks|, i requires 0 <= i < |ks| => Tok(ks[i]))
  }

  /** `{}` and `[]` are accepted, and so is `{}]`: the `]` is never looked at. */
  lemma EmptyRootsAccepted()
    ensures DocumentFrom(Toks([LeftBrace, RightBrace])) == Accepted(2)
    ensures DocumentFrom(Toks([LeftParen, RightParen])) == Accepted(2)
    ensures DocumentFrom(Toks([LeftBrace, RightBrace, RightParen])) == Accepted(2)
  {
    var ts := Toks([LeftBrace, RightBrace]);
    DocumentComplete(ts, Object(Nil));
    TrailingTokensIgnored(ts, 2, Toks([LeftBrace, RightBrace, RightParen]));
    DocumentComplete(Toks([LeftParen, RightParen]), Array(Nil));
  }

  /** The kinds of `{"a": [1, true]}`. */
  const NestedKinds: seq<TokenType> :=
    [LeftBrace, String, Colon, LeftParen, Number, Comma, True, RightParen, RightBrace]

  /** Its tree: an object whose one value is the array `[1, true]`. */
  lemma NestedSpelled() returns (v: Value)
    ensures IsRoot(v) && Spells(NestedKinds, 0, v) && Width(v) == |NestedKinds|
  {
    var ks := NestedKinds;
    var items := Cons(Leaf(Number), Cons(Leaf(True), Nil));
    assert SpellsMoreItems(ks, 5, items.tail);
    var inner := Array(items);
    assert Spells(ks, 3, inner);
    var entries := Cons(inner, Nil);
    assert SpellsEntries(ks, 1, entries);
    v := Object(entries);
  }

  /** `{"a": [1, true]}` is accepted whole. */
  lemma NestedAccepted()
    ensures DocumentFrom(Toks(NestedKinds)) == Accepted(9)
  {
    var v := NestedSpelled();
    DocumentComplete(Toks(NestedKinds), v);
  }

  /** `[1,]`: the value after the comma is `]`. */
  lemma TrailingCommaInArray()
    ensures var ts := Toks([LeftParen, Number, Comma, RightParen]);
            DocumentFrom(ts) == Rejected(ParserError(ts[3], UNEXPECTED_TOKEN), 4)
  {
    var ts := Toks([LeftParen, Number, Comma, RightParen]);
    var e := Rejected(ParserError(ts[3], UNEXPECTED_TOKEN), 4);
    assert ValueFrom(ts, 3) == e;
    assert MoreValuesFrom(ts, 2) == e;
    assert ValueFrom(ts, 1) == Accepted(2);
    assert ItemsFrom(ts, 1) == e;
  }

  /** `{"a":1,}`: after the comma a key is expected. */
  lemma TrailingCommaInObject()
    ensures var ts := Toks([LeftBrace, String, Colon, Number, Comma, RightBrace]);
            DocumentFrom(ts) == Rejected(ParserError(ts[5], EXPECTED_KEY), 5)
  {
    var ts := Toks([LeftBrace, String, Colon, Number, Comma, RightBrace]);
    var e := Rejected(ParserError(ts[5], EXPECTED_KEY), 5);
    assert EntryFrom(ts, 5) == e;
    assert MoreEntriesFrom(ts, 4) == e;
    assert ValueFrom(ts, 3) == Accepted(4);
    assert EntryFrom(ts, 1) == Accepted(4);
    assert EntriesFrom(ts, 1) == e;
  }

  /** `{"a":}`: the value is `}`. */
  lemma MissingValue()
    ensures var ts := Toks([LeftBrace, String, Colon, RightBrace]);
            DocumentFrom(ts) == Rejected(ParserError(ts[3], UNEXPECTED_TOKEN), 4)
  {
    var ts := Toks([LeftBrace, String, Colon, RightBrace]);
    var e := Rejected(ParserError(ts[3], UNEXPECTED_TOKEN), 4);
    assert ValueFrom(ts, 3) == e;
    assert EntryFrom(ts, 1) == e;
    assert EntriesFrom(ts, 1) == e;
  }

  /** `{"a" 1}`: the colon is missing. */
  lemma MissingColon()
    ensures var ts := Toks([LeftBrace, String, Number, RightBrace]);
            DocumentFrom(ts) == Rejected(ParserError(ts[2], EXPECTED_COLON), 2)
  {
    var ts := Toks([LeftBrace, String, Number, RightBrace]);
    var e := Rejected(ParserError(ts[2], EXPECTED_COLON), 2);
    assert EntryFrom(ts, 1) == e;
    assert EntriesFrom(ts, 1) == e;
  }

  /** `{1:2}`: entries are only tried on a `String`, so the `}` is expected. */
  lemma NonStringKey()
    ensures var ts := Toks([LeftBrace, Number, Colon, Number, RightBrace]);
            DocumentFrom(ts) == Rejected(ParserError(ts[1], EXPECTED_CLOSE_BRACE), 1)
  {
    var ts := Toks([LeftBrace, Number, Colon, Number, RightBrace]);
    assert EntriesFrom(ts, 1) == Accepted(1);
  }

  /** `[1 2]`: without a comma the `]` is expected. */
  lemma MissingComma()
    ensures var ts := Toks([LeftParen, Number, Number, RightParen]);
            DocumentFrom(ts) == Rejected(ParserError(ts[2], EXPECTED_CLOSE_BRACKET), 2)
  {
    var ts := Toks([LeftParen, Number, Number, RightParen]);
    assert ValueFrom(ts, 1) == Accepted(2);
    assert MoreValuesFrom(ts, 2) == Accepted(2);
    assert ItemsFrom(ts, 1) == Accepted(2);
  }

  /** A bare `42` is not a document; an empty list and a lone `{` panic. */
  lemma BadRoots()
    ensures var ts := Toks([Number]); DocumentFrom(ts) == Rejected(ParserError(ts[0], UNEXPECTED_TOKEN), 0)
    ensures DocumentFrom([]) == Panicked
    ensures DocumentFrom(Toks([LeftBrace])) == Panicked
  {
    var ts := Toks([LeftBrace, RightBrace]);
    DocumentComplete(ts, Object(Nil));
    DocumentTruncated(ts, 2, Toks([LeftBrace]));
  }
}
