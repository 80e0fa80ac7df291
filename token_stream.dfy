/** What a parser sees when it calls next() until it gets null or an error:
    the token stream of a whole source, and that stream for sample inputs. */
module TokenStream {
  import opened JavaLang
  import opened Tokens
  import opened Scan

  /** Tokens produced from cursor i with buffer b, and the outcome that ended
      the stream. */
  function Lex(src: string, i: nat, b: string): (r: (seq<Token>, Outcome))
    requires i <= |src|
    ensures !r.1.Emitted?
    ensures |r.0| <= |src| - i
    decreases |src| - i
  {
    var s := Step(src, i, b);
    if s.outcome.Emitted? then
      var rest := Lex(src, s.index, s.scratch);
      ([s.outcome.token] + rest.0, rest.1)
    else ([], s.outcome)
  }

  function Tokenize(src: string): (seq<Token>, Outcome) {
    Lex(src, 0, [])
  }

  /** A source of nothing but whitespace, the empty one included, gives no
      token and ends the input at once. */
  lemma WhitespaceOnlySource(src: string)
    requires forall k :: 0 <= k < |src| ==> IsWhitespace(src[k])
    ensures Tokenize(src) == ([], EndOfInput)
  {
    EndOfInputIff(src, 0, []);
  }

  /** No lexeme ever holds whitespace, except inside a string token. */
  lemma {:induction false} BareLexemesHaveNoWhitespace(src: string, i: nat, b: string, n: nat)
    requires i <= |src|
    requires n < |Lex(src, i, b).0|
    ensures var t := Lex(src, i, b).0[n];
      !t.StringToken? ==> forall m :: 0 <= m < |Lexeme(t)| ==> !IsWhitespace(Lexeme(t)[m])
    decreases |src| - i
  {
    var s := Step(src, i, b);
    var p := SkipWs(src, i);
    assert s.outcome.Emitted?;
    var rest := Lex(src, s.index, s.scratch);
    assert Lex(src, i, b).0 == [s.outcome.token] + rest.0;
    if n == 0 {
      var t := s.outcome.token;
      assert Lex(src, i, b).0[0] == t;
      if src[p] != '"' {
        BareRunShape(src, i, b, p);
        assert Lexeme(t) == src[p..s.index];
      } else {
        assert t.StringToken?;
      }
    } else {
      assert Lex(src, i, b).0[n] == rest.0[n - 1];
      BareLexemesHaveNoWhitespace(src, s.index, s.scratch, n - 1);
    }
  }

  lemma LexEmits(src: string, i: nat, b: string, t: Token, j: nat, b': string)
    requires i <= |src| && Step(src, i, b) == StepResult(Emitted(t), j, b')
    ensures Lex(src, i, b) == ([t] + Lex(src, j, b').0, Lex(src, j, b').1)
  {
  }

  lemma LexLast(src: string, i: nat, b: string, t: Token, j: nat, b': string)
    requires i <= |src| && Step(src, i, b) == StepResult(Emitted(t), j, b')
    requires Step(src, j, b').outcome == EndOfInput
    ensures Lex(src, i, b) == ([t], EndOfInput)
  {
    assert [t] + [] == [t];
  }

  lemma LexStops(src: string, i: nat, b: string)
    requires i <= |src| && !Step(src, i, b).outcome.Emitted?
    ensures Lex(src, i, b) == ([], Step(src, i, b).outcome)
  {
  }

  /** A one-character bare run at p, after whitespace from i. */
  lemma SingleCharStep(src: string, i: nat, b: string, p: nat)
    requires i <= p < |src| && SkipWs(src, i) == p && src[p] != '"'
    requires p + 1 == |src| || !Continues(src, p + 1)
    ensures Step(src, i, b) == StepResult(FromResult(SpecialTokens([src[p]])), p + 1, [src[p]])
  {
    assert RunEndFrom(src, p + 1) == p + 1;
    assert src[p..p + 1] == [src[p]];
  }

  // "let x = 5 ;", one call of next() at a time.

  lemma LetStep0()
    ensures Step("let x = 5 ;", 0, []) == StepResult(Emitted(NameToken("let")), 3, "let")
  {
    var src := "let x = 5 ;";
    assert SkipWs(src, 0) == 0;
    assert RunEndFrom(src, 3) == 3;
    assert RunEndFrom(src, 2) == 3;
    assert RunEndFrom(src, 1) == 3;
    assert src[0..3] == "let";
  }

  lemma LetStep1()
    ensures Step("let x = 5 ;", 3, "let") == StepResult(Emitted(NameToken("x")), 5, "x")
  {
    var src := "let x = 5 ;";
    assert SkipWs(src, 3) == 4;
    SingleCharStep(src, 3, "let", 4);
  }

  lemma LetStep2()
    ensures Step("let x = 5 ;", 5, "x") == StepResult(Emitted(SymbolToken('=')), 7, "=")
  {
    var src := "let x = 5 ;";
    assert SkipWs(src, 5) == 6;
    SingleCharStep(src, 5, "x", 6);
  }

  lemma LetStep3()
    ensures Step("let x = 5 ;", 7, "=") == StepResult(Emitted(NumberToken("5")), 9, "5")
  {
    var src := "let x = 5 ;";
    assert SkipWs(src, 7) == 8;
    SingleCharStep(src, 7, "=", 8);
  }

  lemma LetStep4()
    ensures Step("let x = 5 ;", 9, "5") == StepResult(Emitted(SymbolToken(';')), 11, ";")
  {
    var src := "let x = 5 ;";
    assert SkipWs(src, 9) == 10;
    SingleCharStep(src, 9, "5", 10);
  }

  lemma LetStatement()
    ensures Tokenize("let x = 5 ;")
            == ([NameToken("let"), NameToken("x"), SymbolToken('='), NumberToken("5"), SymbolToken(';')],
                EndOfInput)
  {
    var src := "let x = 5 ;";
    LetStep0();
    LetStep1();
    LetStep2();
    LetStep3();
    LetStep4();
    assert Step(src, 11, ";") == StepResult(EndOfInput, 11, ";");
    LexLast(src, 9, "5", SymbolToken(';'), 11, ";");
    LexEmits(src, 7, "=", NumberToken("5"), 9, "5");
    assert [NumberToken("5")] + [SymbolToken(';')] == [NumberToken("5"), SymbolToken(';')];
    assert Lex(src, 7, "=") == ([NumberToken("5"), SymbolToken(';')], EndOfInput);
    LexEmits(src, 5, "x", SymbolToken('='), 7, "=");
    assert [SymbolToken('=')] + [NumberToken("5"), SymbolToken(';')]
           == [SymbolToken('='), NumberToken("5"), SymbolToken(';')];
    assert Lex(src, 5, "x") == ([SymbolToken('='), NumberToken("5"), SymbolToken(';')], EndOfInput);
    LexEmits(src, 3, "let", NameToken("x"), 5, "x");
    assert [NameToken("x")] + [SymbolToken('='), NumberToken("5"), SymbolToken(';')]
           == [NameToken("x"), SymbolToken('='), NumberToken("5"), SymbolToken(';')];
    assert Lex(src, 3, "let")
           == ([NameToken("x"), SymbolToken('='), NumberToken("5"), SymbolToken(';')], EndOfInput);
    LexEmits(src, 0, [], NameToken("let"), 3, "let");
    assert [NameToken("let")] + [NameToken("x"), SymbolToken('='), NumberToken("5"), SymbolToken(';')]
           == [NameToken("let"), NameToken("x"), SymbolToken('='), NumberToken("5"), SymbolToken(';')];
  }

  lemma QuotedPhrase()
    ensures Tokenize("\"hello world\"") == ([StringToken("hello world")], EndOfInput)
  {
    var src := "\"hello world\"";
    assert src[1..12] == "hello world";
    assert SkipWs(src, 0) == 0;
    QuotedStringToken(src, 0, [], 0, 12);
    assert Step(src, 13, "hello world") == StepResult(EndOfInput, 13, "hello world");
    LexLast(src, 0, [], StringToken("hello world"), 13, "hello world");
  }

  lemma UnterminatedQuote()
    ensures Tokenize("\"abc") == ([], Failed(IndexOutOfBounds))
  {
    var src := "\"abc";
    assert SkipWs(src, 0) == 0;
    UnterminatedStringFails(src, 0, [], 0);
    LexStops(src, 0, []);
  }

  lemma UndefinedSingleCharacter()
    ensures Tokenize("@") == ([], Failed(UndefinedCharacter))
  {
    var src := "@";
    assert SkipWs(src, 0) == 0;
    SingleCharStep(src, 0, [], 0);
    LexStops(src, 0, []);
  }

  lemma PiParses()
    ensures ParsesAsDouble("3.14")
  {
    var src := "3.14";
    assert TrimStart(src) == src;
    assert TrimEnd(src) == src;
    assert MantissaEnd(src, 4, false) == 4;
    assert MantissaEnd(src, 3, false) == 4;
    assert MantissaEnd(src, 2, false) == 4;
    assert MantissaEnd(src, 1, false) == 4;
    assert MantissaEnd(src, 0, false) == 4;
    assert src[..4] == src;
    assert DotCount(src[3..]) == 0;
    assert DotCount(src[2..]) == 0;
    assert DotCount(src[1..]) == 1;
    assert DotCount(src) == 1;
    assert MantissaChar(src[0], false) && src[0] != '.';
    assert DecimalLiteral(src);
  }

  lemma PiStep()
    ensures Step("3.14", 0, []) == StepResult(Emitted(NumberToken("3.14")), 4, "3.14")
  {
    var src := "3.14";
    PiParses();
    assert SkipWs(src, 0) == 0;
    assert RunEndFrom(src, 4) == 4;
    assert RunEndFrom(src, 3) == 4;
    assert RunEndFrom(src, 2) == 4;
    assert RunEndFrom(src, 1) == 4;
    assert src[0..4] == src;
  }

  lemma DecimalNumber()
    ensures Tokenize("3.14") == ([NumberToken("3.14")], EndOfInput)
  {
    var src := "3.14";
    PiStep();
    assert Step(src, 4, src).outcome == EndOfInput;
    LexLast(src, 0, [], NumberToken(src), 4, src);
  }

  lemma BareWord()
    ensures Tokenize("foo") == ([StringToken("foo")], EndOfInput)
  {
    var src := "foo";
    LetterStartDoesNotParse(src);
    assert !IsNameToken(src);
    assert SpecialTokens(src) == Ok(StringToken(src));
    assert Step(src, 0, []) == StepResult(Emitted(StringToken(src)), 3, src) by {
      assert SkipWs(src, 0) == 0;
      assert RunEndFrom(src, 3) == 3;
      assert RunEndFrom(src, 2) == 3;
      assert RunEndFrom(src, 1) == 3;
      assert src[0..3] == src;
    }
    assert Step(src, 3, src).outcome == EndOfInput;
    LexLast(src, 0, [], StringToken(src), 3, src);
  }

  /** "x+y" is three tokens. */
  lemma PlusSplitsStream(x: char, y: char)
    requires IsLetter(x) && IsLetter(y)
    ensures Tokenize([x, '+', y]) == ([NameToken([x]), SymbolToken('+'), NameToken([y])], EndOfInput)
  {
    var src := [x, '+', y];
    PlusSplits(x, y);
    assert Step(src, 3, [y]).outcome == EndOfInput;
    LexLast(src, 2, ['+'], NameToken([y]), 3, [y]);
    LexEmits(src, 1, [x], SymbolToken('+'), 2, ['+']);
    assert [SymbolToken('+')] + [NameToken([y])] == [SymbolToken('+'), NameToken([y])];
    LexEmits(src, 0, [], NameToken([x]), 1, [x]);
    assert [NameToken([x])] + [SymbolToken('+'), NameToken([y])]
           == [NameToken([x]), SymbolToken('+'), NameToken([y])];
  }

  /** "x-y" is a name followed by the string token "-y". */
  lemma MinusGluesStream(x: char, y: char)
    requires IsLetter(x) && IsLetter(y)
    ensures Tokenize([x, '-', y]) == ([NameToken([x]), StringToken(['-', y])], EndOfInput)
  {
    var src := [x, '-', y];
    MinusGlues(x, y);
    assert Step(src, 3, ['-', y]).outcome == EndOfInput;
    LexLast(src, 1, [x], StringToken(['-', y]), 3, ['-', y]);
    LexEmits(src, 0, [], NameToken([x]), 1, [x]);
    assert [NameToken([x])] + [StringToken(['-', y])] == [NameToken([x]), StringToken(['-', y])];
  }
}
