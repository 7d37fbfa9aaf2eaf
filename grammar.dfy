/**
 * The grammar in the doc comment of tokens.go (lines 5-12): parse trees, and
 * one predicate per production saying that a tree is written in a token list
 * from a position on (`Spells`, ...) or that the list runs out inside it
 * (`StopsInside`, ...). Only token kinds matter here.
 *
 *   document := array | object
 *   object   := "{" ( entry ( "," entry )* )? "}"
 *   entry    := STRING ":" value
 *   array    := "[" ( value ( "," value )* )? "]"
 *   value    := primary | object | array
 *   primary  := "null" | "false" | "true" | STRING | NUMBER
 *
 * Keys are always STRING tokens, so an object's tree keeps only its values.
 */
module Grammar {
  import opened Tokens

  /** `String`, `Number`, `False`, `True` and `Null` are the first five kinds of the `iota` block. */
  predicate IsPrimary(k: TokenType)
  {
    String <= k <= Null
  }

  type Primary = k: TokenType | IsPrimary(k) witness String

  /** A parse tree: a primary, an object (its entry values) or an array (its items). */
  datatype Value = Leaf(kind: Primary) | Object(entries: Values) | Array(items: Values)

  /** A list of trees, in order. */
  datatype Values = Nil | Cons(head: Value, tail: Values)

  /** A document's root is an object or an array. */
  predicate IsRoot(v: Value)
  {
    v.Object? || v.Array?
  }

  /** The kinds of a token list, in order. */
  function Kinds(ts: seq<Token>): (ks: seq<TokenType>)
    ensures |ks| == |ts|
    ensures forall i :: 0 <= i < |ts| ==> ks[i] == ts[i].kind
  {
    seq(|ts|, i requires 0 <= i < |ts| => ts[i].kind)
  }

  /** The kind at pos exists and is the given kind. */
  predicate KindAt(ks: seq<TokenType>, pos: nat, kind: TokenType)
  {
    pos < |ks| && ks[pos] == kind
  }

  /** The first n kinds of ks and of ms are the same. */
  predicate SameKinds(ks: seq<TokenType>, ms: seq<TokenType>, n: nat)
  {
    n <= |ks| && n <= |ms| && forall i :: 0 <= i < n ==> ks[i] == ms[i]
  }

  /** The number of tokens v is written with. */
  function Width(v: Value): nat
  {
    match v
    case Leaf(_) => 1
    case Object(es) => EntriesWidth(es) + 2
    case Array(vs) => ItemsWidth(vs) + 2
  }

  /** The number of tokens of `( entry ( "," entry )* )?` with the entry values es. */
  function EntriesWidth(es: Values): nat
  {
    match es
    case Nil => 0
    case Cons(v, rest) => 2 + Width(v) + MoreEntriesWidth(rest)
  }

  /** The number of tokens of `( "," entry )*` with the entry values es. */
  function MoreEntriesWidth(es: Values): nat
  {
    match es
    case Nil => 0
    case Cons(v, rest) => 3 + Width(v) + MoreEntriesWidth(rest)
  }

  /** The number of tokens of `( value ( "," value )* )?` with the items vs. */
  function ItemsWidth(vs: Values): nat
  {
    match vs
    case Nil => 0
    case Cons(v, rest) => Width(v) + MoreItemsWidth(rest)
  }

  /** The number of tokens of `( "," value )*` with the items vs. */
  function MoreItemsWidth(vs: Values): nat
  {
    match vs
    case Nil => 0
    case Cons(v, rest) => 1 + Width(v) + MoreItemsWidth(rest)
  }

  /** The tokens from pos on start with v. */
  predicate Spells(ks: seq<TokenType>, pos: nat, v: Value)
    decreases v, 1
  {
    match v
    case Leaf(k) => KindAt(ks, pos, k)
    case Object(es) =>
      KindAt(ks, pos, LeftBrace) && SpellsEntries(ks, pos + 1, es) &&
      KindAt(ks, pos + 1 + EntriesWidth(es), RightBrace)
    case Array(vs) =>
      KindAt(ks, pos, LeftParen) && SpellsItems(ks, pos + 1, vs) &&
      KindAt(ks, pos + 1 + ItemsWidth(vs), RightParen)
  }

  /** The tokens from pos on start with the entry `STRING ":" v`. */
  predicate SpellsEntry(ks: seq<TokenType>, pos: nat, v: Value)
    decreases v, 2
  {
    KindAt(ks, pos, String) && KindAt(ks, pos + 1, Colon) && Spells(ks, pos + 2, v)
  }

  /** The tokens from pos on start with `( entry ( "," entry )* )?` with the entry values es. */
  predicate SpellsEntries(ks: seq<TokenType>, pos: nat, es: Values)
    decreases es, 3
  {
    match es
    case Nil => pos <= |ks|
    case Cons(v, rest) => SpellsEntry(ks, pos, v) && SpellsMoreEntries(ks, pos + 2 + Width(v), rest)
  }

  /** The tokens from pos on start with `( "," entry )*` with the entry values es. */
  predicate SpellsMoreEntries(ks: seq<TokenType>, pos: nat, es: Values)
    decreases es, 3
  {
    match es
    case Nil => pos <= |ks|
    case Cons(v, rest) =>
      KindAt(ks, pos, Comma) && SpellsEntry(ks, pos + 1, v) && SpellsMoreEntries(ks, pos + 3 + Width(v), rest)
  }

  /** The tokens from pos on start with `( value ( "," value )* )?` with the items vs. */
  predicate SpellsItems(ks: seq<TokenType>, pos: nat, vs: Values)
    decreases vs, 3
  {
    match vs
    case Nil => pos <= |ks|
    case Cons(v, rest) => Spells(ks, pos, v) && SpellsMoreItems(ks, pos + Width(v), rest)
  }

  /** The tokens from pos on start with `( "," value )*` with the items vs. */
  predicate SpellsMoreItems(ks: seq<TokenType>, pos: nat, vs: Values)
    decreases vs, 3
  {
    match vs
    case Nil => pos <= |ks|
    case Cons(v, rest) =>
      KindAt(ks, pos, Comma) && Spells(ks, pos + 1, v) && SpellsMoreItems(ks, pos + 1 + Width(v), rest)
  }

  /** The tokens from pos on run out inside v. */
  predicate StopsInside(ks: seq<TokenType>, pos: nat, v: Value)
    decreases v, 1
  {
    pos == |ks| ||
    (match v
     case Leaf(_) => false
     case Object(es) => KindAt(ks, pos, LeftBrace) && StopsInsideEntries(ks, pos + 1, es)
     case Array(vs) => KindAt(ks, pos, LeftParen) && StopsInsideItems(ks, pos + 1, vs))
  }

  /** The tokens from pos on run out inside the entry `STRING ":" v`. */
  predicate StopsInsideEntry(ks: seq<TokenType>, pos: nat, v: Value)
    decreases v, 2
  {
    pos == |ks| ||
    (KindAt(ks, pos, String) && (pos + 1 == |ks| || (KindAt(ks, pos + 1, Colon) && StopsInside(ks, pos + 2, v))))
  }

  /** The tokens from pos on run out inside the entries es and the `}` after them. */
  predicate StopsInsideEntries(ks: seq<TokenType>, pos: nat, es: Values)
    decreases es, 3
  {
    match es
    case Nil => pos == |ks|
    case Cons(v, rest) =>
      StopsInsideEntry(ks, pos, v) ||
      (SpellsEntry(ks, pos, v) && StopsInsideMoreEntries(ks, pos + 2 + Width(v), rest))
  }

  /** The tokens from pos on run out inside `( "," entry )*` and the `}` after it. */
  predicate StopsInsideMoreEntries(ks: seq<TokenType>, pos: nat, es: Values)
    decreases es, 3
  {
    match es
    case Nil => pos == |ks|
    case Cons(v, rest) =>
      pos == |ks| ||
      (KindAt(ks, pos, Comma) &&
       (StopsInsideEntry(ks, pos + 1, v) ||
        (SpellsEntry(ks, pos + 1, v) && StopsInsideMoreEntries(ks, pos + 3 + Width(v), rest))))
  }

  /** The tokens from pos on run out inside the items vs and the `]` after them. */
  predicate StopsInsideItems(ks: seq<TokenType>, pos: nat, vs: Values)
    decreases vs, 3
  {
    match vs
    case Nil => pos == |ks|
    case Cons(v, rest) =>
      StopsInside(ks, pos, v) || (Spells(ks, pos, v) && StopsInsideMoreItems(ks, pos + Width(v), rest))
  }

  /** The tokens from pos on run out inside `( "," value )*` and the `]` after it. */
  predicate StopsInsideMoreItems(ks: seq<TokenType>, pos: nat, vs: Values)
    decreases vs, 3
  {
    match vs
    case Nil => pos == |ks|
    case Cons(v, rest) =>
      pos == |ks| ||
      (KindAt(ks, pos, Comma) &&
       (StopsInside(ks, pos + 1, v) || (Spells(ks, pos + 1, v) && StopsInsideMoreItems(ks, pos + 1 + Width(v), rest))))
  }
}
