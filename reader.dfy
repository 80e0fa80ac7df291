/** The token reader itself: the source text, a cursor that only moves
    forward, and a scratch buffer that each scan clears and appends to. Every
    scanning method is proved to do what the matching function of Scan says,
    so the properties proved there hold of each call of Next. */
module Reader {
  import opened JavaLang
  import opened Tokens
  import opened Scan

  class MyTokenReader {
    const source: string
    var index: nat
    var token: string

    ghost predicate Valid()
      reads this
    {
      index <= |source|
    }

    constructor (source: string)
      ensures Valid()
      ensures this.source == source && index == 0 && token == []
    {
      this.source := source;
      index := 0;
      token := [];
    }

    /** inBounds: some character is left at the cursor. */
    function InBounds(): (b: bool)
      reads this
      ensures b <==> index < |source|
    {
      |source| - index > 0
    }

    /** getChar: the character at the cursor, or the out-of-bounds error. */
    function GetChar(): (r: Result<char>)
      reads this
      ensures r.Ok? <==> index < |source|
      ensures r.Ok? ==> r.value == source[index]
      ensures r.Err? ==> r.error == IndexOutOfBounds
    {
      if index >= |source| then Err(IndexOutOfBounds) else Ok(source[index])
    }

    /** keepGoing: read the character at the cursor and step past it; when
        the read fails the cursor stays put. */
    method KeepGoing() returns (r: Result<char>)
      requires Valid()
      modifies this`index
      ensures Valid()
      ensures r == old(GetChar())
      ensures index == if r.Ok? then old(index) + 1 else old(index)
    {
      r := GetChar();
      if r.Ok? {
        index := index + 1;
      }
    }

    /** outOfQuotes: scan a bare run from the cursor into the buffer. */
    method OutOfQuotes() returns (run: string)
      requires Valid()
      modifies this`index, this`token
      ensures Valid()
      ensures index == BareRun(source, old(index))
      ensures run == source[old(index)..index] && token == run
    {
      token := [];
      while InBounds() && !IsWhitespace(GetChar().value)
        invariant Valid() && old(index) <= index
        invariant token == source[old(index)..index]
        invariant index > old(index) ==> RunEndFrom(source, old(index) + 1) == RunEndFrom(source, index)
        invariant index > old(index) ==> !IsWhitespace(source[old(index)])
        decreases |source| - index
      {
        if |token| == 0 {
          var c := KeepGoing();
          token := token + [c.value];
        } else {
          var last := token[|token| - 1];
          if last == '=' || last == '+' || IsSymbolToken(GetChar().value) {
            run := token;
            return;
          }
          var c := KeepGoing();
          token := token + [c.value];
        }
      }
      run := token;
    }

    /** inQuotes: scan a quoted string; the opening quote is checked, the
        contents are copied verbatim up to the closing quote, which is
        consumed. */
    method InQuotes() returns (o: Outcome)
      requires Valid()
      modifies this`index, this`token
      ensures Valid()
      ensures QuotedScan(source, old(index)) == StepResult(o, index, token)
    {
      token := [];
      var first := KeepGoing();
      if first.Err? {
        return Failed(first.error);
      }
      if first.value != '"' {
        return Failed(MissingOpeningQuote);
      }
      ghost var start := index;
      var c := GetChar();
      while c != Ok('"')
        invariant Valid() && old(index) + 1 == start <= index
        invariant c == GetChar()
        invariant token == source[start..index]
        invariant FindQuote(source, start) == FindQuote(source, index)
        decreases |source| - index
      {
        if c.Err? {
          return Failed(c.error);
        }
        var d := KeepGoing();
        token := token + [d.value];
        c := GetChar();
      }
      var close := KeepGoing();
      o := Emitted(StringToken(token));
    }

    /** next: skip whitespace, then scan a quoted string or a bare run; at
        the end of the source, report the end of input. */
    method Next() returns (o: Outcome)
      requires Valid()
      modifies this`index, this`token
      ensures Valid()
      ensures Step(source, old(index), old(token)) == StepResult(o, index, token)
      ensures old(index) <= index && (o.Emitted? ==> old(index) < index)
    {
      while InBounds()
        invariant Valid() && old(index) <= index
        invariant SkipWs(source, index) == SkipWs(source, old(index))
        invariant token == old(token)
        decreases |source| - index
      {
        if IsWhitespace(GetChar().value) {
          var skipped := KeepGoing();
        } else if GetChar().value == '"' {
          o := InQuotes();
          return;
        } else {
          var run := OutOfQuotes();
          o := FromResult(SpecialTokens(run));
          return;
        }
      }
      o := EndOfInput;
    }
  }
}
