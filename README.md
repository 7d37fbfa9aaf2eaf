# jsonparser in Dafny

A model of the JSON validator in kingzbauer/jsonparser (Go), with proofs of its
behaviour. `Parse` hands a byte buffer to a lexer and then a parser, and returns
nil or the first error. It builds no tree.

- **Lexer** (`lexer.go`): a left-to-right scanner with the cursor fields
  `current`, `start` and `line`, and a `tokens` slice it appends to. It emits
  the punctuation tokens, the keywords `true`, `false` and `null`, numbers and
  strings. Each token carries its 1-based line. It stops at the first error.
- **Parser** (`parser.go`): a recursive-descent recogniser with one cursor over
  the token list. The grammar is the one in the doc comment of `tokens.go`.
- **Tokens** (`tokens.go`): the token kinds (`type TokenType int`, eleven `iota`
  constants) and the `Token` record.

The modules follow the files:

| file | module | models |
|---|---|---|
| outcomes.dfy | `Outcomes` | a Go call returns a value, returns an error, or panics (`Ok`, `Err`, `Panic`) |
| format.dfy | `Format` | bytes printed with `%s`/`%v`, and `%d` with its read-back |
| tokens.dfy | `Tokens` | `TokenType`, its constants, `Literal`, `Token`, `Token.String` |
| lexer.dfy | `Lexing` | one `ScanToken` call as a function (`ScanOne`), the scan of `ScanTokens` (`ScanFrom`, `Lex`), and the class `Lexer` whose methods are proved against them |
| lexing_proofs.dfy | `LexingProofs` | what a successful scan is: a tiling of the source into whitespace and lexed tokens (both directions); error lines; worked inputs |
| grammar.dfy | `Grammar` | parse trees and when a tree is written in a token-kind list (`Spells…`), or when the list runs out inside one (`StopsInside…`) |
| grammar_proofs.dfy | `GrammarProofs` | only the kinds a tree covers matter; a shortened list runs out inside the tree |
| parser.dfy | `Parsing` | each parsing method as a function of the cursor (`ValueFrom`, …), the class `Parser` whose methods are proved against them, and `Parse` |
| parsing_proofs.dfy | `ParsingProofs` | the parser accepts exactly the lists that start with a written object or array; trailing tokens are ignored; truncated lists panic; worked token lists |

**Panics.** Four helpers index without a bounds check: `src[current]` in lexer
`advance` and `peek`, and `tokens[current]` in parser `advance` and `peek` (also
reached through `consume`). Running past the end panics in Go. The model keeps these
panics as explicit outcomes:
- `Faulted` for one lexer step;
- `Panicked` for a parsing function;
- `Panic` in results.

No `requires` rules them out.

**Where the code differs from its documented design, the model follows the code:**
- A string that reaches the end of input panics, because the loop guard of
  `getString` calls `peek` before `isAtEnd`. The "Unterminated string" branch is
  never taken (`Lexing.ScanOneFacts`, `LexingProofs.UnclosedStringPanics`).
- A number or keyword at the very end of the input also panics
  (`LexingProofs.TrailingNumberPanics` for a number, `Lexing.IdentifierStepFacts`
  for a letter run).
- `value` at the end of the token list panics in `advance`. The `EOF` case and
  its "Missing key-value pair" message are never reached: no `EOF` kind is
  declared, and the lexer emits only the eleven declared kinds
  (`LexingProofs.ScanKinds`, `Parsing.ValueFrom`).
- The object rule of the doc comment lacks `?` and `*`. The code accepts zero or
  more comma-separated entries, and the model follows it.
- `parse` does not check that all tokens were consumed: `{}]` is accepted
  (`ParsingProofs.TrailingTokensIgnored`, `ParsingProofs.EmptyRootsAccepted`).
- A document cut short raises no error; it panics
  (`ParsingProofs.DocumentTruncated`).

## Model

| member | source | states |
|---|---|---|
| Format.CharsInjective | tokens.go:58 | printing a byte string as text loses nothing: two byte strings print alike if and only if they are equal |
| Format.DigitsRoundTrip | lexer.go:242 | reading back the digits `%d` printed for a non-negative number gives that number |
| Format.ReadNumberAfterDigits | parser.go:187 | the number printed between a prefix and a non-digit is read back from the text |
| Format.DecimalRoundTrip | lexer.go:242 | whatever `%d` prints for any integer, negative ones included, between a prefix and a non-digit, is read back as that integer, sign included |
| Tokens.Show | tokens.go:57-59 | `Token.String` is `Token<`, then the kind name, then `, `, the lexeme and `>` plus newline; each of the five parts, the separator included, sits at its own offset and the length is their sum |
| Tokens.ShowDeterminesLexeme | tokens.go:57-59 | two tokens of the same kind print alike if and only if their lexemes are equal |
| Lexing.Describe | lexer.go:241-243 | `LexerError.Error` starts with `[line `, ends with `] Error ` and the message, and its length is the sum of its parts |
| Lexing.DescribeRoundTrip | lexer.go:241-243 | the line, whatever its sign, can be read back from the rendered error after `[line `, and `] Error ` with the message ends it, so every character is fixed |
| Lexing.RunEnd | lexer.go:125-127 | a `for class(peek())` loop stops at a byte outside the class, at or after where it started, or reads past the end |
| Lexing.RunEndFacts | lexer.go:125-127 | the loop stops at the first byte outside the class; it reads past the end exactly when every byte to the end is in the class |
| Lexing.StringStep | lexer.go:182-211 | `getString` either panics or leaves the cursor past the opening quote and within the source |
| Lexing.IdentifierStep | lexer.go:124-153 | `identifier` either panics or leaves the cursor past the first letter and within the source |
| Lexing.NumberEnd | lexer.go:155-165 | the loops of `number` stop past the first digit and on a byte of the source, or read past the end |
| Lexing.NumberStep | lexer.go:155-180 | `number` either panics or leaves the cursor past the first digit and within the source |
| Lexing.ScanOne | lexer.go:37-108 | a `ScanToken` call that skips a byte advances by exactly one; one that emits or fails advances by at least one |
| Lexing.StringStepFacts | lexer.go:182-211 | the string token's lexeme has both quotes and its literal is exactly the bytes between them; a newline first fails with "JSON doesn't allow newlines in strings"; it panics if and only if neither follows |
| Lexing.StringLexed | lexer.go:201-209 | a quote, bytes without quote or newline, and a quote form a lexed string token whose literal is the bytes between the quotes |
| Lexing.IdentifierStepFacts | lexer.go:124-153 | only a maximal letter run that is exactly `true`, `false` or `null` emits a token, of that kind; any other run fails with "Unexpected identifier"; it panics if and only if the letters run to the end |
| Lexing.NumberEndFacts | lexer.go:155-165 | a number lexeme is a maximal digit run, with a dot and a second maximal digit run only when a digit follows the dot |
| Lexing.NumberEndPanics | lexer.go:155-165 | `number` panics when its digits run to the end, and only when only digits and dots follow |
| Lexing.IntegerLexeme | lexer.go:156-158 | a digit run is a number lexeme without a dot or a newline |
| Lexing.FractionLexeme | lexer.go:160-165 | two digit runs joined by a dot form a number lexeme without a newline |
| Lexing.NumberStepFacts | lexer.go:155-180 | a number token is lexed at its offset and its lexeme is one `ParseFloat` accepts; a lexeme it rejects is that error; panics as in `NumberEndPanics` |
| Lexing.ScanOneFacts | lexer.go:37-108 | a `ScanToken` call skips exactly at whitespace (a newline counts a line); it emits the token lexed at the cursor on the current line; a lexical error carries the current line and is never "Unterminated string" |
| Lexing.ScanOneLines | lexer.go:82-83 | a `ScanToken` call moves the line counter by the newlines it consumed: one for a newline, none for a token |
| Lexing.Lexer.constructor | parser.go:13-16 | a fresh lexer holds the buffer, line 1, both cursors 0 and no tokens |
| Lexing.Lexer.PeekNext | lexer.go:227-233 | `peekNext` agrees with `PeekNextAt` at the cursor |
| Lexing.Lexer.Advance | lexer.go:110-114 | returns the byte at the cursor and moves the cursor by one |
| Lexing.Lexer.Add | lexer.go:116-118 | appends the token to the token list |
| Lexing.Lexer.ScanTokens | lexer.go:24-34 | returns the tokens already held followed by the scan from the cursor on line 1; on success it holds those tokens, the cursor is at the end and the line is 1 plus the newlines scanned |
| Lexing.Lexer.ScanToken | lexer.go:37-108 | the new cursor, line and tokens, and the result, are those `ScanOne` gives for the old cursor and line |
| Lexing.Lexer.Identifier | lexer.go:124-153 | the loop and keyword lookup behave as `IdentifierStep` says |
| Lexing.Lexer.Number | lexer.go:155-180 | the two loops, the dot check and `ParseFloat` behave as `NumberStep` says |
| Lexing.Lexer.SkipDigits | lexer.go:156-158 | the digit loop stops where `RunEnd` says, and reports when its `peek` would read past the end |
| Lexing.Lexer.GetString | lexer.go:182-211 | the loop and its two checks behave as `StringStep` says |
| LexingProofs.TilesSkip | lexer.go:82-85 | a whitespace byte in front of a tiling extends it, the line moving by its newline |
| LexingProofs.TilesCons | lexer.go:26-31 | a token lexed at pos, in front of a tiling from its end, extends the tiling |
| LexingProofs.SoundCons | lexer.go:26-31 | a lexed token whose number parses, in front of a tiling whose numbers parse, extends both |
| LexingProofs.TilesHead | lexer.go:26-31 | a tiling starts with whitespace and a lexed first token on the counted line, then tiles on from its end |
| LexingProofs.ScanHead | lexer.go:26-31 | the scan over whitespace and a lexed token emits that token, then goes on after it on the counted line |
| LexingProofs.NumbersOkCons | lexer.go:168-171 | every number of a token list parses if and only if the first token's does and every number of the rest does |
| LexingProofs.ScanOneSkips | lexer.go:82-85 | a whitespace byte is skipped and the line moves by its newlines |
| LexingProofs.ScanSkips | lexer.go:82-85 | the scan steps over a whitespace byte, counting a newline |
| LexingProofs.ScanOneEmits | lexer.go:37-108 | an emitted token is lexed at the cursor, on the current line, and its number parses |
| LexingProofs.ScanSound | lexer.go:24-34 | a successful scan is a tiling of the rest of the source at the offsets the scan emitted from, and all its numbers parse |
| LexingProofs.RunEndAt | lexer.go:125-127 | a loop over a class stops at the first byte outside it |
| LexingProofs.StringScans | lexer.go:182-211 | a lexed string token is what `getString` emits at its offset |
| LexingProofs.KeywordScans | lexer.go:124-147 | a lexed keyword token is what `identifier` emits at its offset |
| LexingProofs.IntegerEnd | lexer.go:155-165 | `number` stops after a digit run that no dot-and-digit follows |
| LexingProofs.FractionEnd | lexer.go:155-165 | `number` stops after digits, a dot and digits |
| LexingProofs.NumberLexemeEnd | lexer.go:155-165 | `number` started on a number lexeme that cannot be extended stops right after it |
| LexingProofs.NumberScans | lexer.go:155-180 | a lexed number token whose lexeme parses is what `number` emits at its offset |
| LexingProofs.LexedScans | lexer.go:37-108 | a lexed token is exactly what `ScanToken` emits at its offset |
| LexingProofs.ScanSkipsBlank | lexer.go:26-31 | the scan steps over a run of whitespace, counting its newlines |
| LexingProofs.ScanBlank | lexer.go:26-33 | whitespace to the end scans to no tokens |
| LexingProofs.ScanEmitsLexed | lexer.go:26-31 | the scan from a lexed token's offset emits that token and goes on after it |
| LexingProofs.SkippedScan | lexer.go:26-31 | a `ScanToken` call that skips a byte makes the scan the scan from the next byte, with the updated line counter |
| LexingProofs.EmittedScan | lexer.go:26-31 | a `ScanToken` call that emits t makes the scan t followed by the scan after it |
| LexingProofs.ScanComplete | lexer.go:24-34 | every tiling whose numbers parse is what the scan returns |
| LexingProofs.ScanCompleteFirst | lexer.go:26-31 | from blank bytes followed by a tiling's first token, the scan emits that token and then the rest of the tiling |
| LexingProofs.ScanCompleteCons | lexer.go:26-31 | the scan after a tiling's first token yields the rest, so the first token and the rest are the whole scan |
| LexingProofs.TilesLines | lexer.go:24-34 | in a tiling, each token is lexed at its offset, on the start line plus the newlines between the start and that offset |
| LexingProofs.LexCharacterization | lexer.go:24-34 | `ScanTokens` on a fresh lexer returns ts if and only if the source tiles into ts from line 1 and all its numbers parse; then each token is lexed at the offset where the scan emitted it, and its line is 1 plus the newlines before that offset |
| LexingProofs.ReachesLine | lexer.go:26-31 | wherever the loop of `ScanTokens` gets to, the line counter holds the start line plus the newlines passed over |
| LexingProofs.ScanErrorAt | lexer.go:26-31 | an error returned by the scan is exactly the error of the failing `ScanToken` call that the loop got to |
| LexingProofs.ReachedFailure | lexer.go:26-31 | once the loop gets to a `ScanToken` call that fails, the scan returns that call's error |
| LexingProofs.ScanErrorCharacterization | lexer.go:24-34 | the scan returns the error e if and only if the loop gets to a `ScanToken` call that fails with e |
| LexingProofs.FailureLine | lexer.go:99-104 | on a fresh lexer, a failing call the loop gets to is at a byte of the source, with the counter at 1 plus the newlines before it; a lexical error there carries that line and is never "Unterminated string" |
| LexingProofs.LexErrorLine | lexer.go:99-104 | on a fresh lexer, an error is that of the failing `ScanToken` call at the byte p the loop gets to; a lexical error carries 1 plus the newlines before p and is never "Unterminated string" |
| LexingProofs.ScanKinds | tokens.go:34-46 | the scan only emits the eleven declared kinds, so never an end-of-input kind |
| LexingProofs.EmptyObjectTokens | lexer.go:40-53 | `{}` scans to a `LeftBrace` and a `RightBrace` token on line 1 |
| LexingProofs.UnclosedStringPanics | lexer.go:183-192 | `["abc` panics instead of reporting "Unterminated string" |
| LexingProofs.TrailingNumberPanics | lexer.go:156-158 | a number at the very end of the input panics |
| LexingProofs.DotWithoutFraction | lexer.go:160-165 | in `[1.]` the dot is not taken, and then fails as an unexpected character |
| LexingProofs.UnquotedKey | lexer.go:149-152 | `{key:1}` fails with "Unexpected identifier 'key'." on line 1 |
| LexingProofs.NewlineInString | lexer.go:194-199 | a newline inside a string fails on the line the string started on |
| GrammarProofs.SpellsStart | tokens.go:5-12 | a written value takes at least one token and starts with a primary, `{` or `[`, never a closer or a separator |
| GrammarProofs.CommaInValue | tokens.go:5-12 | inside a written value, a comma is followed, still inside it, by a primary, `{` or `[`, so never by `}` or `]` |
| GrammarProofs.CommaInEntry | tokens.go:5-12 | the same inside an entry |
| GrammarProofs.CommaInEntries | tokens.go:5-12 | the same inside an object's entries |
| GrammarProofs.CommaInMoreEntries | tokens.go:5-12 | the same inside the entries after a comma, where the comma is followed by a key |
| GrammarProofs.CommaInItems | tokens.go:5-12 | the same inside an array's items |
| GrammarProofs.CommaInMoreItems | tokens.go:5-12 | the same inside the items after a comma, where the comma is followed by the start of a value |
| GrammarProofs.SpellsKept | tokens.go:5-12 | a value stays written in any list with the same kinds over the tokens it covers |
| GrammarProofs.EntryKept | tokens.go:5-12 | the same for an object entry |
| GrammarProofs.EntriesKept | tokens.go:5-12 | the same for an object's entries |
| GrammarProofs.MoreEntriesKept | tokens.go:5-12 | the same for the entries after a comma |
| GrammarProofs.ItemsKept | tokens.go:5-12 | the same for an array's items |
| GrammarProofs.MoreItemsKept | tokens.go:5-12 | the same for the items after a comma |
| GrammarProofs.CutInside | tokens.go:5-12 | a list that agrees with a written value but ends before the value does runs out inside it |
| GrammarProofs.EntryCutInside | tokens.go:5-12 | the same for an entry |
| GrammarProofs.EntriesCutInside | tokens.go:5-12 | the same for an object's entries and its `}` |
| GrammarProofs.MoreEntriesCutInside | tokens.go:5-12 | the same for the entries after a comma |
| GrammarProofs.ItemsCutInside | tokens.go:5-12 | the same for an array's items and its `]` |
| GrammarProofs.MoreItemsCutInside | tokens.go:5-12 | the same for the items after a comma |
| Parsing.Describe | parser.go:186-188 | `ParserError.Error` starts with `Error [line `, ends with `]. `, the message, ` Got token '`, the lexeme and `'.`, and its length is the sum of its parts |
| Parsing.DescribeRoundTrip | parser.go:186-188 | the line, whatever its sign, can be read back from the rendered error, which ends with `]. `, the message, ` Got token '`, the lexeme and `'.`, so every character is fixed |
| Parsing.ConsumeAt | parser.go:168-178 | `consume` accepts if and only if the token at the cursor has the kind, moving the cursor by one; otherwise it reports that token with the message, leaving the cursor; it panics at the end |
| Parsing.ValueFrom | parser.go:117-146 | `value` never moves the cursor back or past the end and always consumes a token when it accepts; a rejection reports one of the five messages (never "Missing key-value pair") with a token at or after the cursor |
| Parsing.ObjectFrom | parser.go:73-84 | the same bounds and reports for `object`, which consumes at least its `}` when it accepts |
| Parsing.EntriesFrom | parser.go:86-99 | the same bounds and reports for `objectEntries` |
| Parsing.MoreEntriesFrom | parser.go:92-96 | the same bounds and reports for the comma loop of `objectEntries` |
| Parsing.EntryFrom | parser.go:101-115 | the same bounds and reports for `objectEntry`, which consumes a token when it accepts |
| Parsing.ArrayFrom | parser.go:148-166 | the same bounds and reports for `array`, which consumes at least its `]` when it accepts |
| Parsing.ItemsFrom | parser.go:149-159 | the same bounds and reports for the values of `array` |
| Parsing.MoreValuesFrom | parser.go:154-158 | the same bounds and reports for the comma loop of `array` |
| Parsing.DocumentFrom | parser.go:27-38 | the same bounds and reports for `parse` from the first token |
| Parsing.Parser.constructor | parser.go:23 | a fresh parser holds the tokens with the cursor at 0 |
| Parsing.Parser.Check | parser.go:57-63 | `check` is true exactly when a token remains at the cursor and has the kind |
| Parsing.Parser.Advance | parser.go:40-44 | returns the token at the cursor and moves the cursor by one |
| Parsing.Parser.Match | parser.go:46-55 | `match` answers as `check` and consumes the token exactly when it answers true |
| Parsing.Parser.Consume | parser.go:168-178 | behaves as `ConsumeAt` says and returns the consumed token |
| Parsing.Parser.ParseRoot | parser.go:27-38 | the result and the cursor are those `DocumentFrom` gives |
| Parsing.Parser.Object | parser.go:73-84 | the result and the cursor are those `ObjectFrom` gives |
| Parsing.Parser.ObjectEntries | parser.go:86-99 | the result and the cursor are those `EntriesFrom` gives, the comma loop kept by its invariant |
| Parsing.Parser.ObjectEntry | parser.go:101-115 | the result and the cursor are those `EntryFrom` gives |
| Parsing.Parser.Value | parser.go:117-146 | the result and the cursor are those `ValueFrom` gives |
| Parsing.Parser.Array | parser.go:148-166 | the result and the cursor are those `ArrayFrom` gives, the comma loop kept by its invariant |
| Parsing.Parse | parser.go:12-25 | returns the lexer's error unchanged, its panic, or the parser's verdict on the whole token list |
| ParsingProofs.ValueStep | parser.go:117-146 | `value` panics at the end, accepts a primary, recurses into `object` on `{` and `array` on `[`, and accepts only on those |
| ParsingProofs.ObjectStep | parser.go:73-84 | `object` consumes `}` at once when it follows, otherwise runs the entries and then consumes `}` |
| ParsingProofs.EntriesStep | parser.go:86-99 | `objectEntries` accepts nothing unless a `String` follows, otherwise an entry and then the comma loop |
| ParsingProofs.MoreEntriesStep | parser.go:92-96 | the comma loop stops without a comma, otherwise runs an entry after it and loops |
| ParsingProofs.EntryStep | parser.go:101-115 | `objectEntry` panics at the end or after a lone key, accepts only `String` `:` then a value |
| ParsingProofs.ArrayStep | parser.go:148-166 | `array` consumes `]` after its items, or passes their failure on |
| ParsingProofs.ItemsStep | parser.go:149-159 | no value when `]` follows at once, otherwise a value and then the comma loop |
| ParsingProofs.MoreValuesStep | parser.go:154-158 | the comma loop stops without a comma, otherwise runs a value after it and loops |
| ParsingProofs.ValueComplete | parser.go:117-146 | a value written at the cursor is accepted with the cursor just past it |
| ParsingProofs.ObjectComplete | parser.go:73-84 | written entries followed by `}` are accepted by `object`, the cursor just past the `}` |
| ParsingProofs.EntriesComplete | parser.go:86-99 | written entries followed by `}` are accepted by `objectEntries`, the cursor just past them |
| ParsingProofs.MoreEntriesComplete | parser.go:92-96 | the same for the comma loop of `objectEntries` |
| ParsingProofs.EntryComplete | parser.go:101-115 | a written entry is accepted, the cursor just past it |
| ParsingProofs.ArrayComplete | parser.go:148-166 | written items followed by `]` are accepted by `array`, the cursor just past the `]` |
| ParsingProofs.ItemsComplete | parser.go:149-159 | written items followed by `]` are accepted, the cursor just past them |
| ParsingProofs.MoreItemsComplete | parser.go:154-158 | the same for the comma loop of `array` |
| ParsingProofs.ValueSound | parser.go:117-146 | whatever `value` accepts is a written value, and the cursor stops just past it |
| ParsingProofs.ObjectSound | parser.go:73-84 | whatever `object` accepts is written entries and a `}`, and the cursor stops just past it |
| ParsingProofs.EntriesSound | parser.go:86-99 | whatever `objectEntries` accepts is written entries |
| ParsingProofs.MoreEntriesSound | parser.go:92-96 | whatever the comma loop of `objectEntries` accepts is written entries after commas |
| ParsingProofs.EntrySound | parser.go:101-115 | whatever `objectEntry` accepts is a written entry |
| ParsingProofs.ArraySound | parser.go:148-166 | whatever `array` accepts is written items and a `]`, and the cursor stops just past it |
| ParsingProofs.ItemsSound | parser.go:149-159 | whatever the values of `array` accept is written items |
| ParsingProofs.MoreItemsSound | parser.go:154-158 | whatever the comma loop of `array` accepts is written items after commas |
| ParsingProofs.ValueTruncated | parser.go:117-146 | a list that runs out inside a value makes `value` panic |
| ParsingProofs.ObjectTruncated | parser.go:73-84 | a list that runs out inside an object's entries or before its `}` makes `object` panic |
| ParsingProofs.EntriesTruncated | parser.go:86-99 | a list that runs out inside the entries makes `objectEntries` panic or stop at the end |
| ParsingProofs.MoreEntriesTruncated | parser.go:92-96 | the same for the comma loop of `objectEntries` |
| ParsingProofs.EntryTruncated | parser.go:101-115 | a list that runs out inside an entry makes `objectEntry` panic |
| ParsingProofs.ArrayTruncated | parser.go:148-166 | a list that runs out inside an array's items or before its `]` makes `array` panic |
| ParsingProofs.ItemsTruncated | parser.go:149-159 | a list that runs out inside the items makes them panic or stop at the end |
| ParsingProofs.MoreItemsTruncated | parser.go:154-158 | the same for the comma loop of `array` |
| ParsingProofs.DocumentIsValue | parser.go:27-32 | on `{` or `[`, `parse` is `value` at the first token |
| ParsingProofs.DocumentComplete | parser.go:27-38 | a list that starts with a written object or array is accepted, the cursor just past it |
| ParsingProofs.DocumentSound | parser.go:27-38 | whatever `parse` accepts starts with a written object or array, the cursor just past it |
| ParsingProofs.DocumentCharacterization | parser.go:27-38 | `parse` accepts with the cursor at n if and only if the list starts with a written object or array n tokens wide |
| ParsingProofs.TrailingTokensIgnored | parser.go:27-32 | an accepted list stays accepted whatever follows its root, and only the kinds of the root's tokens matter |
| ParsingProofs.DocumentStops | parser.go:27-38 | a list that runs out inside an object or array makes `parse` panic |
| ParsingProofs.DocumentTruncated | parser.go:40-44 | every list that agrees in kinds with an accepted list but is shorter than its root (every proper prefix) makes `parse` panic |
| ParsingProofs.ValidateCharacterization | parser.go:12-25 | `Parse` returns nil if and only if the buffer lexes into tokens that start with an object or an array |
| ParsingProofs.EmptyRootsAccepted | parser.go:73-84 | `{}` and `[]` are accepted, and so is `{}]` |
| ParsingProofs.NestedSpelled | tokens.go:5-12 | the kinds of `{"a": [1, true]}` write an object holding an array |
| ParsingProofs.NestedAccepted | parser.go:73-84 | `{"a": [1, true]}` is accepted whole |
| ParsingProofs.TrailingCommaUnaccepted | parser.go:27-38 | when a comma is followed by a token that cannot start a value, such as `}` or `]`, an accepted root ends before the comma: no list with a trailing comma inside its root is accepted |
| ParsingProofs.CommaWithoutKey | parser.go:92-96 | in `objectEntries`, a comma followed by anything but a string is rejected with "Expected a key of type 'String'." on that token |
| ParsingProofs.CommaWithoutValue | parser.go:154-158 | in `array`, a comma followed by a token that cannot start a value is rejected with "Unexpected token." on that token |
| ParsingProofs.TrailingCommaInArray | parser.go:154-158 | `[1,]` is rejected with "Unexpected token." on the `]` |
| ParsingProofs.TrailingCommaInObject | parser.go:92-96 | `{"a":1,}` is rejected with "Expected a key of type 'String'." on the `}` |
| ParsingProofs.MissingValue | parser.go:140-145 | `{"a":}` is rejected with "Unexpected token." on the `}` |
| ParsingProofs.MissingColon | parser.go:106-108 | `{"a" 1}` is rejected with "Expected ':' after key" on the `1` |
| ParsingProofs.NonStringKey | parser.go:74-80 | `{1:2}` is rejected with "Expected a '}' or separator between values." on the `1` |
| ParsingProofs.MissingComma | parser.go:161-163 | `[1 2]` is rejected with "Expected a ']' or separator between values." on the second number |
| ParsingProofs.BadRoots | parser.go:27-38 | a bare number is rejected with "Unexpected token."; an empty list and a lone `{` panic |

## Left out

- `cmd/sample/main.go` is not part of this model: reading the file, printing and the exit status are I/O.
- The `float64` that `strconv.ParseFloat` computes is left out. Whether it accepts a lexeme is a parameter `floatOk` (a range error on a very long digit run is one way it rejects). The literal keeps the lexeme (`NumberText`). Nothing does floating-point arithmetic.
- The generated `String` method of `TokenType` is not shown in the source. `Token.String` takes the kind's name as a parameter `kindName`.
- `fmt` is modelled only as far as the messages need it: `%s`/`%v` of a byte string gives one character per byte, `%c` gives the byte's character, and `%d` gives a decimal. Printed text is a sequence of characters, with no UTF-8 encoding.
- `Literal` is a tagged value (absent, boolean, number lexeme, string bytes), not Go's `interface{}`.
- Integers are unbounded. Go's `int` cursors and line counter cannot overflow on a buffer that fits in memory.
- `keywords` is a lookup function (`KeywordKind`) rather than a map value, and the `switch` of `ScanToken` on the six punctuation bytes is the function `PunctuationKind`.
- `isAtEnd`, `peek`, `isAlpha` and `isDigit` of both structs are modelled as predicates and functions. So are `peekNext` (`Lexing.PeekNextAt`), the literal of a keyword (`Lexing.KeywordLiteral`), and `%s` and `%d` (`Format.Chars` and `Format.Decimal`). Their bodies are their whole meaning, so they have no contract of their own. What the printing functions promise is stated by `Format.CharsInjective` and `Format.DecimalRoundTrip`.
- The loop of `ScanTokens` as functions (`Lexing.ScanFrom`, `Lexing.ScanAt`, `Lexing.Lex`), `Parse` as the function `Parsing.Validate`, and `check` as `Parsing.CheckAt` have no contract of their own either. Their meaning is stated by `LexingProofs.LexCharacterization` and `LexingProofs.ScanErrorCharacterization` (the scan), by `ParsingProofs.ValidateCharacterization` (`Parse`), and by the contract of `Parsing.ConsumeAt` (`check`).
- `match` is variadic in Go. Every call passes one kind, so `Parsing.Parser.Match` takes one.
- The `EOF` case of `value` is left out: `EOF` is not a declared constant, and the lexer never emits such a kind (`LexingProofs.ScanKinds`).
- Lexing.Lexer.ScanTokens: does not state where `start` is left (the offset of the last `ScanToken` call); nothing reads it afterwards.
- Lexing.Lexer.ScanTokens: on an error or a panic it does not state the new cursor, line or tokens, since the caller drops the lexer.
- Lexing.Lexer.ScanToken: after a panic it does not state the fields, since the program stops; the same holds for `Identifier`, `Number` and `GetString`.
- Parsing.Parser.ParseRoot: after a panic it does not state the cursor; the same holds for the other parsing methods.
