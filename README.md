# MyTokenReader in Dafny

A model of the hand-written token reader (lexer) of the mathlang scripting
language, `MyTokenReader`. The reader owns the whole source text, a cursor
`index` and a reusable scratch buffer `token`. Each call of `next()` does four
things. It skips whitespace. It scans either a quoted string (`inQuotes`) or a
bare run of characters (`outOfQuotes`). It classifies the bare run
(`specialTokens`). It returns one token, returns `null` at the end of the
input, or throws an `IOException`.

The project has five modules:

- `JavaLang` (`java_lang.dfy`) stands in for the Java library calls the reader
  makes. `Character.isWhitespace` is modelled as in JDK 9 and later (Unicode 8
  and later tables): HT, LF, VT, FF and CR; the separators FS, GS, RS and US;
  and the Unicode space, line and paragraph separators except the no-break
  spaces. `isLetter` and `isDigit` are ASCII.
  Whether `Double.parseDouble` accepts a string is modelled by the grammar Java
  parses after `String.trim`: an optional sign, then `NaN`, `Infinity`, a
  decimal literal with optional exponent and `f/F/d/D` suffix, or a hexadecimal
  literal with a `p` exponent.
- `Tokens` (`tokens.dfy`) holds the four token classes, the error kinds, and
  `SpecialTokens`. `SpecialTokens` is proved against `Classified`, a
  per-class description of which token a run may become, and the classes are
  proved not to overlap.
- `Scan` (`scan.dfy`) gives the effect of one call of `next()` as a pure
  function `Step` of the source, the cursor and the buffer. The lemmas about
  `next()` are stated and proved about `Step`.
- `Reader` (`reader.dfy`) is the class `MyTokenReader`. It has the same three
  fields, and `Next`, `InQuotes`, `OutOfQuotes` and `KeepGoing` advance `index`
  and rebuild `token` step by step in `while` loops. Each method's
  postcondition equates the returned outcome and the new state with the
  matching function of `Scan`, so every `Scan` lemma holds of every call.
- `TokenStream` (`token_stream.dfy`) is the caller's view: the token sequence
  obtained by calling `next()` until it returns `null` or throws. It also works
  through sample inputs.

Each `IOException` becomes the outcome `Failed(kind)`. `null` becomes
`EndOfInput`. A number token carries its lexeme, not a double.

In these places the model keeps what the code does, even where it is surprising:

- An unterminated quoted string is not a separate error kind. It fails with the
  out-of-bounds error of `getChar` (`IndexOutOfBounds`), with the cursor at the
  end of the source.
- A pair of adjacent quotes `""` yields a `StringToken` with an empty payload.
  So not every token has a non-empty payload.
- The boundary rule of a bare run is asymmetric. A run ends after a `=` or `+`,
  or before any of `+ - = ;`. So `x+y` is `x`, `+`, `y`, but `x-y` is `x`
  followed by the string token `-y` (and `x-1` is `x` followed by the number
  `-1`). The model keeps this behaviour (see `Scan.PlusSplits` and
  `Scan.MinusGlues`).
- `specialTokens("")` would fail in `charAt(0)` with an unchecked exception.
  The model reports that as the error kind `EmptyTokenString`. `next()` never
  passes an empty run, since `BareRun` is non-empty whenever it is called.

## Model

| member | source | states |
|---|---|---|
| `Tokens.SpecialTokens` | src/com/google/codeu/mathlang/impl/MyTokenReader.java:77-110 | A classified run becomes a token that meets `Classified` and whose lexeme is exactly the run. It fails exactly when the run is empty or one character that is no symbol, letter or digit; then the kind is `EmptyTokenString` or `UndefinedCharacter`. |
| `Tokens.ClassifiedIsUnique` | src/com/google/codeu/mathlang/impl/MyTokenReader.java:77-110 | At most one token meets `Classified` for any run, so the ordered tests of `specialTokens` pick the only possible token. |
| `Tokens.KeywordsDoNotParse` | src/com/google/codeu/mathlang/impl/MyTokenReader.java:166-168 | None of `note`, `print`, `let` parses as a double, so testing for a keyword before the number parse does not hide a number. |
| `Tokens.MultiCharNamesAreKeywords` | src/com/google/codeu/mathlang/impl/MyTokenReader.java:78-91 | A multi-character run never fails. It is a name exactly when it is a keyword. A non-keyword that does not parse (`foo`) is a string token. |
| `JavaLang.SingleDigitParses` | src/com/google/codeu/mathlang/impl/MyTokenReader.java:102-103 | `Double.parseDouble` accepts every one-digit run, so the number parse of a single digit never throws. |
| `JavaLang.LetterStartDoesNotParse` | src/com/google/codeu/mathlang/impl/MyTokenReader.java:84-90 | A run that starts with a letter other than `N` or `I` is rejected by `Double.parseDouble`. |
| `Tokens.IsSymbolToken` | src/com/google/codeu/mathlang/impl/MyTokenReader.java:170-172 | The four symbols `+ - = ;` are none of whitespace, letter, digit or `"`, so a symbol is never skipped, never opens a string and is never classified as a name or number. |
| `Tokens.IsNameToken` | src/com/google/codeu/mathlang/impl/MyTokenReader.java:166-168 | The three keywords are all-letter words of more than one character, so only the multi-character branch of `specialTokens` ever meets them. |
| `Scan.Continues` | src/com/google/codeu/mathlang/impl/MyTokenReader.java:122 | A character the boundary rule lets into a run is neither whitespace nor a symbol; a `"` is let in exactly when the previous character is not `=` or `+`. |
| `Scan.SkipWs` | src/com/google/codeu/mathlang/impl/MyTokenReader.java:60-63 | Returns the first non-whitespace position at or after the cursor, or the end of the source. Everything skipped is whitespace. |
| `Scan.RunEndFrom` | src/com/google/codeu/mathlang/impl/MyTokenReader.java:115-127 | A bare run takes each character that the boundary rule lets follow, and stops at the first one it does not. Every taken character after the first is neither whitespace nor a symbol. |
| `Scan.BareRun` | src/com/google/codeu/mathlang/impl/MyTokenReader.java:112-129 | The run `outOfQuotes` scans is whitespace-free. It is empty exactly when the cursor is at the end or at whitespace. |
| `Scan.FindQuote` | src/com/google/codeu/mathlang/impl/MyTokenReader.java:138-140 | Returns the first `"` at or after a position, or the end of the source if there is none. |
| `Scan.QuotedScan` | src/com/google/codeu/mathlang/impl/MyTokenReader.java:132-143 | `inQuotes` never moves the cursor backwards or past the end of the source. |
| `Scan.Step` | src/com/google/codeu/mathlang/impl/MyTokenReader.java:51-75 | One call of `next()` never moves the cursor backwards or past the end. A call that returns a token strictly advances it. The token's lexeme is what is left in the scratch buffer. |
| `Scan.EndOfInputIff` | src/com/google/codeu/mathlang/impl/MyTokenReader.java:60-74 | `next()` returns `null` exactly when only whitespace is left; the empty source is included. It then leaves the cursor at the end and the buffer unchanged. |
| `Scan.EndOfInputIsStable` | src/com/google/codeu/mathlang/impl/MyTokenReader.java:60-74 | After `null`, a further call returns `null` again without error and without moving the cursor. |
| `Scan.NeverMissingOpeningQuote` | src/com/google/codeu/mathlang/impl/MyTokenReader.java:134-135 | The "must start with quotes" error never comes out of `next()`, because `inQuotes` is only entered on a `"`. |
| `Scan.QuotedStringToken` | src/com/google/codeu/mathlang/impl/MyTokenReader.java:132-143 | A `"` at p whose first closing `"` is at q yields the string token `source[p+1..q]`. The text is copied verbatim, with whitespace kept and no escapes. The cursor ends at q+1. |
| `Scan.UnterminatedStringFails` | src/com/google/codeu/mathlang/impl/MyTokenReader.java:153-155 | An unclosed quote makes `next()` fail with the out-of-bounds error. It never returns a partial token, and the cursor ends at the end of the source. |
| `Scan.BareRunShape` | src/com/google/codeu/mathlang/impl/MyTokenReader.java:112-129 | A bare run from p is the non-empty, whitespace-free slice `source[p..e]`, and the buffer holds exactly that slice. It stops only at the end, at whitespace, after `=`/`+`, or before a symbol; a `"` does not stop it. No character after the first is a symbol. A run that starts with `=` or `+` has length 1. |
| `Scan.BareRunToken` | src/com/google/codeu/mathlang/impl/MyTokenReader.java:70 | The token from a bare run meets `Classified` for the run's text. The call fails exactly when the run is one character that is no symbol, letter or digit, and the error is `UndefinedCharacter`. |
| `Scan.PlusSplits` | src/com/google/codeu/mathlang/impl/MyTokenReader.java:122-123 | For letters x and y, `x+y` is read as the name `x`, the symbol `+` and the name `y`, call by call. |
| `Scan.MinusGlues` | src/com/google/codeu/mathlang/impl/MyTokenReader.java:122-125 | For letters x and y, `x-y` is read as the name `x` and then the string token `-y`. |
| `Reader.MyTokenReader.constructor` | src/com/google/codeu/mathlang/impl/MyTokenReader.java:42-48 | A new reader holds the source, with the cursor at 0 and an empty buffer. |
| `Reader.MyTokenReader.InBounds` | src/com/google/codeu/mathlang/impl/MyTokenReader.java:162-164 | True exactly when a character is left at the cursor. |
| `Reader.MyTokenReader.GetChar` | src/com/google/codeu/mathlang/impl/MyTokenReader.java:153-158 | Returns the character at the cursor, or the out-of-bounds error exactly when the cursor is at the end. |
| `Reader.MyTokenReader.KeepGoing` | src/com/google/codeu/mathlang/impl/MyTokenReader.java:146-150 | Returns what `getChar` returns. The cursor advances by one on success and stays put on failure. |
| `Reader.MyTokenReader.OutOfQuotes` | src/com/google/codeu/mathlang/impl/MyTokenReader.java:112-129 | The loop leaves the cursor at `BareRun` of where it started. The buffer and the result are exactly the characters consumed. |
| `Reader.MyTokenReader.InQuotes` | src/com/google/codeu/mathlang/impl/MyTokenReader.java:132-143 | The outcome, the new cursor and the buffer are those `QuotedScan` gives for the starting cursor, including both error paths. |
| `Reader.MyTokenReader.Next` | src/com/google/codeu/mathlang/impl/MyTokenReader.java:51-75 | The outcome, the new cursor and the buffer are those `Step` gives for the old cursor and buffer, so every `Scan` lemma holds of each call. The cursor never moves back, and it strictly advances when a token is returned. |
| `TokenStream.Lex` | src/com/google/codeu/mathlang/impl/MyTokenReader.java:51-75 | Calling `next()` repeatedly ends in `null` or an error, never in a token, after at most one token per remaining character. |
| `TokenStream.WhitespaceOnlySource` | src/com/google/codeu/mathlang/impl/MyTokenReader.java:60-74 | A source of only whitespace, the empty one included, gives no tokens and then the end of the input. |
| `TokenStream.BareLexemesHaveNoWhitespace` | src/com/google/codeu/mathlang/impl/MyTokenReader.java:115 | In any token stream, only string tokens can contain whitespace. |
| `TokenStream.LetStatement` | src/com/google/codeu/mathlang/impl/MyTokenReader.java:51-75 | `let x = 5 ;` is read as `let`, `x`, `=`, `5`, `;` and then the end of the input. |
| `TokenStream.QuotedPhrase` | src/com/google/codeu/mathlang/impl/MyTokenReader.java:132-143 | `"hello world"` is one string token holding `hello world`. |
| `TokenStream.UnterminatedQuote` | src/com/google/codeu/mathlang/impl/MyTokenReader.java:138-140 | `"abc` fails with the out-of-bounds error and produces no token. |
| `TokenStream.UndefinedSingleCharacter` | src/com/google/codeu/mathlang/impl/MyTokenReader.java:105-108 | `@` fails as an undefined character. |
| `TokenStream.DecimalNumber` | src/com/google/codeu/mathlang/impl/MyTokenReader.java:84-86 | `3.14` is one number token. |
| `TokenStream.BareWord` | src/com/google/codeu/mathlang/impl/MyTokenReader.java:88-90 | `foo` is a string token, not a name. |
| `TokenStream.PlusSplitsStream` | src/com/google/codeu/mathlang/impl/MyTokenReader.java:122-123 | The whole stream of `x+y` is name, symbol, name, then the end of the input. |
| `TokenStream.MinusGluesStream` | src/com/google/codeu/mathlang/impl/MyTokenReader.java:122-125 | The whole stream of `x-y` is a name and the string token `-y`, then the end of the input. |

## Left out

- Character classes: `Character.isLetter` and `Character.isDigit` are ASCII only. A non-ASCII letter is an undefined character here rather than a name. A non-ASCII digit would make the Java code throw an unchecked `NumberFormatException` at the single-digit parse; that path is not modelled.
- Whitespace: on JDK 8 (Unicode 6.2 tables) `Character.isWhitespace` is also true of U+180E; the model follows the later tables, where it is not.
- Characters: Dafny characters are Unicode scalar values, whereas Java strings are UTF-16 code units. Surrogate pairs are not modelled.
- Number values: a number token keeps its lexeme. The double value is floating point and is not modelled. Only whether `Double.parseDouble` accepts the string is modelled.
- Cursor width: the Java `int` cursor is an unbounded `nat`. Sources longer than 2^31 - 1 characters are not modelled.
- Library types: the `Token` class hierarchy and the `TokenReader` interface are not part of this model. They are replaced by the `Token` datatype and the `Outcome` result.
- Exceptions: the messages of the `IOException`s are not modelled, only their kind.
- Callers: the parser and the executor that consume the tokens are not part of this model.
- Scratch buffer: the `StringBuilder` is a `string` field that is reassigned, not a growable character array.

