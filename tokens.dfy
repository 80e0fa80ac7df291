/** The token values the reader produces, its error kinds, and the
    classification of a completed bare run (specialTokens). */
module Tokens {
  import opened JavaLang

  /** The four token classes. A number keeps its lexeme: the double value
      Double.parseDouble would give is not modelled. */
  datatype Token =
    | NameToken(name: string)
    | NumberToken(lexeme: string)
    | SymbolToken(symbol: char)
    | StringToken(text: string)

  /** The IOExceptions the reader throws, plus the unchecked exception of
      charAt(0) on an empty run. */
  datatype LexError =
    | IndexOutOfBounds     // getChar past the end of the source
    | MissingOpeningQuote  // inQuotes entered on a character other than '"'
    | UndefinedCharacter   // a one-character run that is no symbol, letter or digit
    | EmptyTokenString     // specialTokens given the empty string

  datatype Result<T> = Ok(value: T) | Err(error: LexError)

  /** What one call of next() ends with: a token, null, or an exception. */
  datatype Outcome = Emitted(token: Token) | EndOfInput | Failed(error: LexError)

  function FromResult(r: Result<Token>): Outcome {
    match r
    case Ok(t) => Emitted(t)
    case Err(e) => Failed(e)
  }

  /** The source text a token stands for (for a string, its contents). */
  function Lexeme(t: Token): string {
    match t
    case NameToken(n) => n
    case NumberToken(l) => l
    case SymbolToken(c) => [c]
    case StringToken(s) => s
  }

  /** isSymbolToken. The symbols are disjoint from whitespace, letters,
      digits and the quote, so a symbol is never skipped, never opens a
      quoted string and is never classified as anything else. */
  predicate IsSymbolToken(c: char)
    ensures IsSymbolToken(c) ==> !IsWhitespace(c) && !IsLetter(c) && !IsDigit(c) && c != '"'
  {
    c == '+' || c == '-' || c == '=' || c == ';'
  }

  /** isNameToken: the only multi-character names are the three keywords. */
  predicate IsNameToken(s: string)
    ensures IsNameToken(s) ==> |s| > 1 && forall i :: 0 <= i < |s| ==> IsLetter(s[i])
  {
    s == "note" || s == "print" || s == "let"
  }

  /** Declarative account of which token a bare run may become, stated per
      token class rather than as an ordered chain of tests. */
  predicate Classified(s: string, t: Token) {
    match t
    case SymbolToken(c) => s == [c] && IsSymbolToken(c)
    case NameToken(n) => n == s && (IsNameToken(s) || (|s| == 1 && IsLetter(s[0])))
    case NumberToken(l) =>
      l == s && ((|s| > 1 && ParsesAsDouble(s)) || (|s| == 1 && IsDigit(s[0])))
    case StringToken(x) => x == s && |s| > 1 && !IsNameToken(s) && !ParsesAsDouble(s)
  }

  /** Runs that some token class accepts. */
  predicate Classifiable(s: string) {
    |s| > 1 || (|s| == 1 && (IsSymbolToken(s[0]) || IsLetter(s[0]) || IsDigit(s[0])))
  }

  /** specialTokens: classify a completed bare run. */
  function SpecialTokens(s: string): (r: Result<Token>)
    ensures r.Ok? ==> Classified(s, r.value) && Lexeme(r.value) == s
    ensures r.Err? <==> !Classifiable(s)
    ensures r.Err? ==> r.error == (if s == [] then EmptyTokenString else UndefinedCharacter)
  {
    if |s| > 1 then
      if IsNameToken(s) then Ok(NameToken(s))
      else if ParsesAsDouble(s) then Ok(NumberToken(s))
      else Ok(StringToken(s))
    else if s == [] then Err(EmptyTokenString)
    else if IsSymbolToken(s[0]) then Ok(SymbolToken(s[0]))
    else if IsLetter(s[0]) then Ok(NameToken(s))
    else if IsDigit(s[0]) then Ok(NumberToken(s))
    else Err(UndefinedCharacter)
  }

  /** No keyword reads as a number. */
  lemma KeywordsDoNotParse(s: string)
    requires IsNameToken(s)
    ensures !ParsesAsDouble(s)
  {
    LetterStartDoesNotParse(s);
  }

  /** The token classes do not overlap: a run is classified in at most one
      way, so SpecialTokens is the only classifier that meets Classified. */
  lemma ClassifiedIsUnique(s: string, t1: Token, t2: Token)
    requires Classified(s, t1) && Classified(s, t2)
    ensures t1 == t2
  {
    if IsNameToken(s) {
      KeywordsDoNotParse(s);
    }
  }

  /** A multi-character run is a name exactly when it is a keyword: any other
      word, such as "foo", becomes a string token. */
  lemma MultiCharNamesAreKeywords(s: string)
    requires |s| > 1
    ensures SpecialTokens(s).Ok?
    ensures SpecialTokens(s).value.NameToken? <==> IsNameToken(s)
    ensures !IsNameToken(s) && !ParsesAsDouble(s) ==> SpecialTokens(s) == Ok(StringToken(s))
  {
  }
}
