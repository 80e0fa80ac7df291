/** The effect of one call of next(), as pure functions of the source text,
    the cursor and the scratch buffer, and the properties of that step. */
module Scan {
  import opened JavaLang
  import opened Tokens

  /** The state next() leaves behind: what it returned, the new cursor and
      the new contents of the scratch buffer. */
  datatype StepResult = StepResult(outcome: Outcome, index: nat, scratch: string)

  /** First position at or after i that is not whitespace (|src| if none). */
  function SkipWs(src: string, i: nat): (j: nat)
    requires i <= |src|
    ensures i <= j <= |src|
    ensures forall k :: i <= k < j ==> IsWhitespace(src[k])
    ensures j < |src| ==> !IsWhitespace(src[j])
    decreases |src| - i
  {
    if i < |src| && IsWhitespace(src[i]) then SkipWs(src, i + 1) else i
  }

  /** The boundary rule of a bare run: with src[..k] scanned and at least one
      character taken, the run takes src[k] too. It stops at whitespace, after
      a '=' or '+', and before any of the four symbol characters. */
  predicate Continues(src: string, k: nat)
    requires 0 < k < |src|
    ensures Continues(src, k) ==> !IsWhitespace(src[k]) && !IsSymbolToken(src[k])
    ensures src[k] == '"' ==> (Continues(src, k) <==> src[k - 1] != '=' && src[k - 1] != '+')
  {
    !IsWhitespace(src[k]) && src[k - 1] != '=' && src[k - 1] != '+' && !IsSymbolToken(src[k])
  }

  /** Where a bare run that has reached k (k > its start) stops. */
  function RunEndFrom(src: string, k: nat): (e: nat)
    requires 0 < k <= |src|
    ensures k <= e <= |src|
    ensures forall m :: k <= m < e ==> Continues(src, m)
    ensures forall m :: k <= m < e ==> !IsWhitespace(src[m]) && !IsSymbolToken(src[m])
    ensures e < |src| ==> !Continues(src, e)
    decreases |src| - k
  {
    if k < |src| && Continues(src, k) then RunEndFrom(src, k + 1) else k
  }

  /** End of the bare run outOfQuotes scans from p: empty when p is at the
      end or at whitespace, otherwise the first character and whatever the
      boundary rule lets follow. */
  function BareRun(src: string, p: nat): (e: nat)
    requires p <= |src|
    ensures p <= e <= |src|
    ensures e == p <==> p == |src| || IsWhitespace(src[p])
    ensures forall m :: p <= m < e ==> !IsWhitespace(src[m])
  {
    if p < |src| && !IsWhitespace(src[p]) then RunEndFrom(src, p + 1) else p
  }

  /** First '"' at or after k (|src| if none). */
  function FindQuote(src: string, k: nat): (q: nat)
    requires k <= |src|
    ensures k <= q <= |src|
    ensures forall m :: k <= m < q ==> src[m] != '"'
    ensures q < |src| ==> src[q] == '"'
    decreases |src| - k
  {
    if k < |src| && src[k] != '"' then FindQuote(src, k + 1) else k
  }

  /** inQuotes started at p. The first keepGoing fails at the end of the
      source and otherwise consumes one character, which must be '"'; the
      contents up to the next '"' are copied verbatim and the closing quote
      is consumed. Running off the end is getChar's out-of-bounds error. */
  function QuotedScan(src: string, p: nat): (r: StepResult)
    requires p <= |src|
    ensures p <= r.index <= |src|
  {
    if p == |src| then StepResult(Failed(IndexOutOfBounds), p, [])
    else if src[p] != '"' then StepResult(Failed(MissingOpeningQuote), p + 1, [])
    else
      var q := FindQuote(src, p + 1);
      if q == |src| then StepResult(Failed(IndexOutOfBounds), q, src[p + 1..])
      else StepResult(Emitted(StringToken(src[p + 1..q])), q + 1, src[p + 1..q])
  }

  /** One call of next() on cursor i with scratch buffer b. */
  function Step(src: string, i: nat, b: string): (r: StepResult)
    requires i <= |src|
    ensures i <= r.index <= |src|
    ensures r.outcome.Emitted? ==> i < r.index
    ensures r.outcome.Emitted? ==> Lexeme(r.outcome.token) == r.scratch
  {
    var p := SkipWs(src, i);
    if p == |src| then StepResult(EndOfInput, p, b)
    else if src[p] == '"' then QuotedScan(src, p)
    else
      var e := BareRun(src, p);
      StepResult(FromResult(SpecialTokens(src[p..e])), e, src[p..e])
  }

  // -----------------------------------------------------------------------
  // End of input.

  /** next() returns null exactly when nothing but whitespace is left, and
      then it has consumed that whitespace and left the buffer alone. */
  lemma EndOfInputIff(src: string, i: nat, b: string)
    requires i <= |src|
    ensures Step(src, i, b).outcome == EndOfInput
            <==> forall k :: i <= k < |src| ==> IsWhitespace(src[k])
    ensures Step(src, i, b).outcome == EndOfInput
            ==> Step(src, i, b).index == |src| && Step(src, i, b).scratch == b
  {
    var p := SkipWs(src, i);
    if p < |src| {
      assert !IsWhitespace(src[p]);
      if src[p] == '"' {
        assert QuotedScan(src, p).outcome != EndOfInput;
      }
    }
  }

  /** Once next() has returned null, every further call returns null again
      without moving the cursor. */
  lemma EndOfInputIsStable(src: string, i: nat, b: string, b': string)
    requires i <= |src|
    requires Step(src, i, b).outcome == EndOfInput
    ensures Step(src, Step(src, i, b).index, b') == StepResult(EndOfInput, |src|, b')
  {
    EndOfInputIff(src, i, b);
  }

  /** The defensive "must start with quotes" error never escapes next():
      inQuotes is entered only on a '"'. */
  lemma NeverMissingOpeningQuote(src: string, i: nat, b: string)
    requires i <= |src|
    ensures Step(src, i, b).outcome != Failed(MissingOpeningQuote)
  {
  }

  // -----------------------------------------------------------------------
  // Quoted strings.

  /** A quoted string opened at p and first closed at q yields exactly the
      characters between the quotes, whitespace included and with no escape
      processing, and leaves the cursor just past the closing quote. */
  lemma QuotedStringToken(src: string, i: nat, b: string, p: nat, q: nat)
    requires i <= |src| && p == SkipWs(src, i)
    requires p < q < |src| && src[p] == '"' && src[q] == '"'
    requires forall m :: p < m < q ==> src[m] != '"'
    ensures Step(src, i, b)
            == StepResult(Emitted(StringToken(src[p + 1..q])), q + 1, src[p + 1..q])
  {
  }

  /** A quote that is never closed is an error, never a partial token; the
      cursor is left at the end of the source. */
  lemma UnterminatedStringFails(src: string, i: nat, b: string, p: nat)
    requires i <= |src| && p == SkipWs(src, i)
    requires p < |src| && src[p] == '"'
    requires forall m :: p < m < |src| ==> src[m] != '"'
    ensures Step(src, i, b).outcome == Failed(IndexOutOfBounds)
    ensures Step(src, i, b).index == |src|
  {
  }

  // -----------------------------------------------------------------------
  // Bare runs.

  /** A bare run starting at p is the non-empty, whitespace-free slice
      src[p..e]. It stops only at the end, at whitespace, after '=' or '+',
      or before a symbol character; in particular a '"' does not stop it.
      No character after the first is a symbol, and a run opened by '=' or
      '+' is that one character. */
  lemma {:induction false} BareRunShape(src: string, i: nat, b: string, p: nat)
    requires i <= |src| && p == SkipWs(src, i)
    requires p < |src| && src[p] != '"'
    ensures var e := Step(src, i, b).index;
      && p < e <= |src|
      && Step(src, i, b).scratch == src[p..e]
      && (forall m :: p <= m < e ==> !IsWhitespace(src[m]))
      && (forall m :: p < m < e ==> !IsSymbolToken(src[m]))
      && (src[p] == '=' || src[p] == '+' ==> e == p + 1)
      && (e == |src| || IsWhitespace(src[e]) || src[e - 1] == '=' || src[e - 1] == '+'
          || IsSymbolToken(src[e]))
      && (e < |src| && src[e] == '"' ==> src[e - 1] == '=' || src[e - 1] == '+')
  {
    var e := BareRun(src, p);
    assert e == RunEndFrom(src, p + 1);
    forall m | p < m < e
      ensures !IsSymbolToken(src[m])
    {
      assert Continues(src, m);
    }
    if src[p] == '=' || src[p] == '+' {
      if p + 1 < |src| {
        assert !Continues(src, p + 1);
      }
    }
  }

  /** A bare run becomes the token its text classifies as, or fails only
      when it is a single character that is no symbol, letter or digit. */
  lemma BareRunToken(src: string, i: nat, b: string, p: nat)
    requires i <= |src| && p == SkipWs(src, i)
    requires p < |src| && src[p] != '"'
    ensures var r := Step(src, i, b);
      && (r.outcome.Emitted? ==> Classified(src[p..r.index], r.outcome.token))
      && (r.outcome.Failed? <==> r.index == p + 1 && !Classifiable([src[p]]))
      && (r.outcome.Failed? ==> r.outcome.error == UndefinedCharacter)
  {
    var e := BareRun(src, p);
    assert src[p..e][0] == src[p];
    if e == p + 1 {
      assert src[p..e] == [src[p]];
    }
  }

  /** The asymmetry of the boundary rule, '+' side: a '+' ends the run
      before it and the run after it, so "x+y" splits into x, +, y. */
  lemma PlusSplits(x: char, y: char)
    requires IsLetter(x) && IsLetter(y)
    ensures Step([x, '+', y], 0, []) == StepResult(Emitted(NameToken([x])), 1, [x])
    ensures Step([x, '+', y], 1, [x]) == StepResult(Emitted(SymbolToken('+')), 2, ['+'])
    ensures Step([x, '+', y], 2, ['+']) == StepResult(Emitted(NameToken([y])), 3, [y])
  {
    var src := [x, '+', y];
    assert SkipWs(src, 0) == 0;
    assert RunEndFrom(src, 1) == 1;
    assert src[0..1] == [x];
    assert SkipWs(src, 1) == 1;
    assert RunEndFrom(src, 2) == 2;
    assert src[1..2] == ['+'];
    assert SkipWs(src, 2) == 2;
    assert RunEndFrom(src, 3) == 3;
    assert src[2..3] == [y];
  }

  /** The '-' side: '-' ends the run before it but not the run it opens, so
      "x-y" gives x and then the string token "-y". */
  lemma MinusGlues(x: char, y: char)
    requires IsLetter(x) && IsLetter(y)
    ensures Step([x, '-', y], 0, []) == StepResult(Emitted(NameToken([x])), 1, [x])
    ensures Step([x, '-', y], 1, [x]) == StepResult(Emitted(StringToken(['-', y])), 3, ['-', y])
  {
    var src := [x, '-', y];
    assert SkipWs(src, 0) == 0;
    assert RunEndFrom(src, 1) == 1;
    assert src[0..1] == [x];
    assert SkipWs(src, 1) == 1;
    assert RunEndFrom(src, 3) == 3;
    assert RunEndFrom(src, 2) == 3;
    assert src[1..3] == ['-', y];
    SignedLetterDoesNotParse(y);
    assert !IsNameToken(['-', y]);
    assert SpecialTokens(['-', y]) == Ok(StringToken(['-', y]));
    assert SpecialTokens([x]) == Ok(NameToken([x]));
  }

  lemma SignedLetterDoesNotParse(y: char)
    requires IsLetter(y)
    ensures !ParsesAsDouble(['-', y])
  {
    var t := ['-', y];
    assert TrimStart(t) == t;
    assert TrimEnd(t) == t;
    assert Trim(t) == t;
    var u := t[1..];
    assert u == [y];
    assert u != "NaN" && u != "Infinity";
    assert MantissaEnd(u, 0, false) == 0;
    assert !HasDigit(u[..0], false);
    assert !DecimalLiteral(u);
    assert !HexLiteral(u);
  }
}
