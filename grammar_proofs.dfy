/**
 * Only the kinds of the tokens a tree covers decide whether it is written
 * there; and a token list that agrees with a written tree but ends before it
 * does runs out inside that tree.
 */
module GrammarProofs {
  import opened Tokens
  import opened Grammar

  /** A kind a value can start with: a primary, `{` or `[`. */
  predicate StartsValue(k: TokenType)
  {
    IsPrimary(k) || k == LeftBrace || k == LeftParen
  }

  /** A written tree takes at least one token and starts with a primary, `{` or `[`: never with a closer or a separator. */
  lemma SpellsStart(ks: seq<TokenType>, pos: nat, v: Value)
    requires Spells(ks, pos, v)
    ensures pos < |ks| && StartsValue(ks[pos]) && 1 <= Width(v)
  {
  }

  // ---------------------------------------------------------------------
  // No trailing comma: inside a written tree, a comma is followed, still
  // inside the tree, by the key of an entry or the start of a value, so
  // never by `}` or `]`.
  // ---------------------------------------------------------------------

  lemma {:induction false} CommaInValue(ks: seq<TokenType>, pos: nat, v: Value, i: nat)
    requires Spells(ks, pos, v) && pos <= i < pos + Width(v) && KindAt(ks, i, Comma)
    ensures i + 1 < pos + Width(v) && i + 1 < |ks| && StartsValue(ks[i + 1])
    decreases v, 1
  {
    match v
    case Leaf(_) =>
    case Object(es) =>
      if pos < i < pos + 1 + EntriesWidth(es) {
        CommaInEntries(ks, pos + 1, es, i);
      }
    case Array(vs) =>
      if pos < i < pos + 1 + ItemsWidth(vs) {
        CommaInItems(ks, pos + 1, vs, i);
      }
  }

  lemma {:induction false} CommaInEntry(ks: seq<TokenType>, pos: nat, v: Value, i: nat)
    requires SpellsEntry(ks, pos, v) && pos <= i < pos + 2 + Width(v) && KindAt(ks, i, Comma)
    ensures i + 1 < pos + 2 + Width(v) && i + 1 < |ks| && StartsValue(ks[i + 1])
    decreases v, 2
  {
    if pos + 2 <= i {
      CommaInValue(ks, pos + 2, v, i);
    }
  }

  lemma {:induction false} CommaInEntries(ks: seq<TokenType>, pos: nat, es: Values, i: nat)
    requires SpellsEntries(ks, pos, es) && pos <= i < pos + EntriesWidth(es) && KindAt(ks, i, Comma)
    ensures i + 1 < pos + EntriesWidth(es) && i + 1 < |ks| && StartsValue(ks[i + 1])
    decreases es, 3
  {
    match es
    case Cons(v, rest) =>
      if i < pos + 2 + Width(v) {
        CommaInEntry(ks, pos, v, i);
      } else {
        CommaInMoreEntries(ks, pos + 2 + Width(v), rest, i);
      }
  }

  lemma {:induction false} CommaInMoreEntries(ks: seq<TokenType>, pos: nat, es: Values, i: nat)
    requires SpellsMoreEntries(ks, pos, es) && pos <= i < pos + MoreEntriesWidth(es) && KindAt(ks, i, Comma)
    ensures i + 1 < pos + MoreEntriesWidth(es) && i + 1 < |ks| && StartsValue(ks[i + 1])
    decreases es, 3
  {
    match es
    case Cons(v, rest) =>
      if i == pos {
        assert KindAt(ks, pos + 1, String);
      } else if i < pos + 3 + Width(v) {
        CommaInEntry(ks, pos + 1, v, i);
      } else {
        CommaInMoreEntries(ks, pos + 3 + Width(v), rest, i);
      }
  }

  lemma {:induction false} CommaInItems(ks: seq<TokenType>, pos: nat, vs: Values, i: nat)
    requires SpellsItems(ks, pos, vs) && pos <= i < pos + ItemsWidth(vs) && KindAt(ks, i, Comma)
    ensures i + 1 < pos + ItemsWidth(vs) && i + 1 < |ks| && StartsValue(ks[i + 1])
    decreases vs, 3
  {
    match vs
    case Cons(v, rest) =>
      if i < pos + Width(v) {
        CommaInValue(ks, pos, v, i);
      } else {
        CommaInMoreItems(ks, pos + Width(v), rest, i);
      }
  }

  lemma {:induction false} CommaInMoreItems(ks: seq<TokenType>, pos: nat, vs: Values, i: nat)
    requires SpellsMoreItems(ks, pos, vs) && pos <= i < pos + MoreItemsWidth(vs) && KindAt(ks, i, Comma)
    ensures i + 1 < pos + MoreItemsWidth(vs) && i + 1 < |ks| && StartsValue(ks[i + 1])
    decreases vs, 3
  {
    match vs
    case Cons(v, rest) =>
      assert MoreItemsWidth(vs) == 1 + Width(v) + MoreItemsWidth(rest);
      assert Spells(ks, pos + 1, v) && SpellsMoreItems(ks, pos + 1 + Width(v), rest);
      if i == pos {
        SpellsStart(ks, pos + 1, v);
      } else if i < pos + 1 + Width(v) {
        CommaInValue(ks, pos + 1, v, i);
      } else {
        CommaInMoreItems(ks, pos + 1 + Width(v), rest, i);
      }
  }

  // ---------------------------------------------------------------------
  // A written tree stays written when the kinds it covers are kept
  // ---------------------------------------------------------------------

  lemma {:induction false} SpellsKept(ks: seq<TokenType>, ms: seq<TokenType>, n: nat, pos: nat, v: Value)
    requires SameKinds(ks, ms, n) && Spells(ks, pos, v) && pos + Width(v) <= n
    ensures Spells(ms, pos, v)
    decreases v, 1
  {
    assert ks[pos] == ms[pos];
    match v
    case Leaf(_) =>
    case Object(es) =>
      EntriesKept(ks, ms, n, pos + 1, es);
      assert ks[pos + 1 + EntriesWidth(es)] == ms[pos + 1 + EntriesWidth(es)];
    case Array(vs) =>
      ItemsKept(ks, ms, n, pos + 1, vs);
      assert ks[pos + 1 + ItemsWidth(vs)] == ms[pos + 1 + ItemsWidth(vs)];
  }

  lemma {:induction false} EntryKept(ks: seq<TokenType>, ms: seq<TokenType>, n: nat, pos: nat, v: Value)
    requires SameKinds(ks, ms, n) && SpellsEntry(ks, pos, v) && pos + 2 + Width(v) <= n
    ensures SpellsEntry(ms, pos, v)
    decreases v, 2
  {
    assert ks[pos] == ms[pos];
    assert ks[pos + 1] == ms[pos + 1];
    SpellsKept(ks, ms, n, pos + 2, v);
  }

  lemma {:induction false} EntriesKept(ks: seq<TokenType>, ms: seq<TokenType>, n: nat, pos: nat, es: Values)
    requires SameKinds(ks, ms, n) && SpellsEntries(ks, pos, es) && pos + EntriesWidth(es) <= n
    ensures SpellsEntries(ms, pos, es)
    decreases es, 3
  {
    match es
    case Nil =>
    case Cons(v, rest) =>
      EntryKept(ks, ms, n, pos, v);
      MoreEntriesKept(ks, ms, n, pos + 2 + Width(v), rest);
  }

  lemma {:induction false} MoreEntriesKept(ks: seq<TokenType>, ms: seq<TokenType>, n: nat, pos: nat, es: Values)
    requires SameKinds(ks, ms, n) && SpellsMoreEntries(ks, pos, es) && pos + MoreEntriesWidth(es) <= n
    ensures SpellsMoreEntries(ms, pos, es)
    decreases es, 3
  {
    match es
    case Nil =>
    case Cons(v, rest) =>
      assert ks[pos] == ms[pos];
      EntryKept(ks, ms, n, pos + 1, v);
      MoreEntriesKept(ks, ms, n, pos + 3 + Width(v), rest);
  }

  lemma {:induction false} ItemsKept(ks: seq<TokenType>, ms: seq<TokenType>, n: nat, pos: nat, vs: Values)
    requires SameKinds(ks, ms, n) && SpellsItems(ks, pos, vs) && pos + ItemsWidth(vs) <= n
    ensures SpellsItems(ms, pos, vs)
    decreases vs, 3
  {
    match vs
    case Nil =>
    case Cons(v, rest) =>
      SpellsKept(ks, ms, n, pos, v);
      MoreItemsKept(ks, ms, n, pos + Width(v), rest);
  }

  lemma {:induction false} MoreItemsKept(ks: seq<TokenType>, ms: seq<TokenType>, n: nat, pos: nat, vs: Values)
    requires SameKinds(ks, ms, n) && SpellsMoreItems(ks, pos, vs) && pos + MoreItemsWidth(vs) <= n
    ensures SpellsMoreItems(ms, pos, vs)
    decreases vs, 3
  {
    match vs
    case Nil =>
    case Cons(v, rest) =>
      assert ks[pos] == ms[pos];
      SpellsKept(ks, ms, n, pos + 1, v);
      MoreItemsKept(ks, ms, n, pos + 1 + Width(v), rest);
  }

  // ---------------------------------------------------------------------
  // A list that agrees with a written tree but ends early runs out inside it
  // ---------------------------------------------------------------------

  lemma {:induction false} CutInside(ks: seq<TokenType>, ms: seq<TokenType>, pos: nat, v: Value)
    requires SameKinds(ks, ms, |ms|) && Spells(ks, pos, v) && pos <= |ms| < pos + Width(v)
    ensures StopsInside(ms, pos, v)
    decreases v, 1
  {
    if pos < |ms| {
      assert ks[pos] == ms[pos];
      match v
      case Leaf(_) =>
      case Object(es) => EntriesCutInside(ks, ms, pos + 1, es);
      case Array(vs) => ItemsCutInside(ks, ms, pos + 1, vs);
    }
  }

  lemma {:induction false} EntryCutInside(ks: seq<TokenType>, ms: seq<TokenType>, pos: nat, v: Value)
    requires SameKinds(ks, ms, |ms|) && SpellsEntry(ks, pos, v) && pos <= |ms| < pos + 2 + Width(v)
    ensures StopsInsideEntry(ms, pos, v)
    decreases v, 2
  {
    if pos < |ms| {
      assert ks[pos] == ms[pos];
      if pos + 1 < |ms| {
        assert ks[pos + 1] == ms[pos + 1];
        CutInside(ks, ms, pos + 2, v);
      }
    }
  }

  lemma {:induction false} EntriesCutInside(ks: seq<TokenType>, ms: seq<TokenType>, pos: nat, es: Values)
    requires SameKinds(ks, ms, |ms|) && SpellsEntries(ks, pos, es) && pos <= |ms| < pos + EntriesWidth(es) + 1
    ensures StopsInsideEntries(ms, pos, es)
    decreases es, 3
  {
    match es
    case Nil =>
    case Cons(v, rest) =>
      if |ms| < pos + 2 + Width(v) {
        EntryCutInside(ks, ms, pos, v);
      } else {
        EntryKept(ks, ms, |ms|, pos, v);
        MoreEntriesCutInside(ks, ms, pos + 2 + Width(v), rest);
      }
  }

  lemma {:induction false} MoreEntriesCutInside(ks: seq<TokenType>, ms: seq<TokenType>, pos: nat, es: Values)
    requires SameKinds(ks, ms, |ms|) && SpellsMoreEntries(ks, pos, es) && pos <= |ms| < pos + MoreEntriesWidth(es) + 1
    ensures StopsInsideMoreEntries(ms, pos, es)
    decreases es, 3
  {
    match es
    case Nil =>
    case Cons(v, rest) =>
      if pos < |ms| {
        assert ks[pos] == ms[pos];
        if |ms| < pos + 3 + Width(v) {
          EntryCutInside(ks, ms, pos + 1, v);
        } else {
          EntryKept(ks, ms, |ms|, pos + 1, v);
          MoreEntriesCutInside(ks, ms, pos + 3 + Width(v), rest);
        }
      }
  }

  lemma {:induction false} ItemsCutInside(ks: seq<TokenType>, ms: seq<TokenType>, pos: nat, vs: Values)
    requires SameKinds(ks, ms, |ms|) && SpellsItems(ks, pos, vs) && pos <= |ms| < pos + ItemsWidth(vs) + 1
    ensures StopsInsideItems(ms, pos, vs)
    decreases vs, 3
  {
    match vs
    case Nil =>
    case Cons(v, rest) =>
      if |ms| < pos + Width(v) {
        CutInside(ks, ms, pos, v);
      } else {
        SpellsKept(ks, ms, |ms|, pos, v);
        MoreItemsCutInside(ks, ms, pos + Width(v), rest);
      }
  }

  lemma {:induction false} MoreItemsCutInside(ks: seq<TokenType>, ms: seq<TokenType>, pos: nat, vs: Values)
    requires SameKinds(ks, ms, |ms|) && SpellsMoreItems(ks, pos, vs) && pos <= |ms| < pos + MoreItemsWidth(vs) + 1
    ensures StopsInsideMoreItems(ms, pos, vs)
    decreases vs, 3
  {
    match vs
    case Nil =>
    case Cons(v, rest) =>
      if pos < |ms| {
        assert ks[pos] == ms[pos];
        if |ms| < pos + 1 + Width(v) {
          CutInside(ks, ms, pos + 1, v);
        } else {
          SpellsKept(ks, ms, |ms|, pos + 1, v);
          MoreItemsCutInside(ks, ms, pos + 1 + Width(v), rest);
        }
      }
  }
}
