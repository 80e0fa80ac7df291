/** Stand-ins for the three Java library calls the token reader depends on:
    Character.isWhitespace, Character.isLetter / Character.isDigit, and the
    acceptance test of Double.parseDouble (whether it returns or throws
    NumberFormatException). Characters are Dafny chars (Unicode scalar
    values). */
module JavaLang {

  /** Character.isWhitespace: the ASCII controls HT, LF, VT, FF, CR, the
      separators FS, GS, RS, US, and every Unicode space, line or paragraph
      separator except the three no-break spaces (U+00A0, U+2007, U+202F). */
  predicate IsWhitespace(c: char) {
    var n := c as int;
    (0x09 <= n <= 0x0D) || (0x1C <= n <= 0x20) || n == 0x1680
    || (0x2000 <= n <= 0x2006) || (0x2008 <= n <= 0x200A)
    || n == 0x2028 || n == 0x2029 || n == 0x205F || n == 0x3000
  }

  /** Character.isLetter, restricted to ASCII. */
  predicate IsLetter(c: char) {
    ('a' <= c <= 'z') || ('A' <= c <= 'Z')
  }

  /** Character.isDigit, restricted to ASCII; also the digit class of
      Java's floating-point literal grammar. */
  predicate IsDigit(c: char) {
    '0' <= c <= '9'
  }

  predicate IsHexDigit(c: char) {
    IsDigit(c) || ('a' <= c <= 'f') || ('A' <= c <= 'F')
  }

  // ---------------------------------------------------------------------
  // String.trim: drop leading and trailing characters at or below U+0020.

  function TrimStart(s: string): (r: string)
    ensures |r| <= |s| && r == s[|s| - |r|..]
    ensures r != [] ==> r[0] > ' '
  {
    if s != [] && s[0] <= ' ' then TrimStart(s[1..]) else s
  }

  function TrimEnd(s: string): (r: string)
    ensures |r| <= |s| && r == s[..|r|]
    ensures r != [] ==> r[|r| - 1] > ' '
  {
    if s != [] && s[|s| - 1] <= ' ' then TrimEnd(s[..|s| - 1]) else s
  }

  function Trim(s: string): string {
    TrimEnd(TrimStart(s))
  }

  // ---------------------------------------------------------------------
  // The literal grammar Double.parseDouble accepts (after trimming):
  //   [+-]? ( "NaN" | "Infinity" | Decimal | Hex )
  //   Decimal = Mantissa ( [eE] [+-]? Digit+ )? [fFdD]?
  //   Hex     = 0 [xX] HexMantissa [pP] [+-]? Digit+ [fFdD]?
  // where a mantissa is a run of (hex) digits and dots holding at most one
  // dot and at least one digit.

  predicate MantissaChar(c: char, hex: bool) {
    c == '.' || (if hex then IsHexDigit(c) else IsDigit(c))
  }

  /** End of the longest run of mantissa characters starting at k. */
  function MantissaEnd(s: string, k: nat, hex: bool): (e: nat)
    requires k <= |s|
    ensures k <= e <= |s|
    ensures forall m :: k <= m < e ==> MantissaChar(s[m], hex)
    ensures e < |s| ==> !MantissaChar(s[e], hex)
    decreases |s| - k
  {
    if k < |s| && MantissaChar(s[k], hex) then MantissaEnd(s, k + 1, hex) else k
  }

  /** End of the longest run of decimal digits starting at k. */
  function DigitsEnd(s: string, k: nat): (e: nat)
    requires k <= |s|
    ensures k <= e <= |s|
    ensures forall m :: k <= m < e ==> IsDigit(s[m])
    ensures e < |s| ==> !IsDigit(s[e])
    decreases |s| - k
  {
    if k < |s| && IsDigit(s[k]) then DigitsEnd(s, k + 1) else k
  }

  function DotCount(s: string): nat {
    if s == [] then 0 else (if s[0] == '.' then 1 else 0) + DotCount(s[1..])
  }

  predicate HasDigit(s: string, hex: bool) {
    exists m :: 0 <= m < |s| && MantissaChar(s[m], hex) && s[m] != '.'
  }

  predicate ValidMantissa(s: string, hex: bool) {
    DotCount(s) <= 1 && HasDigit(s, hex)
  }

  /** The input ends at e, or one float/double suffix letter follows. */
  predicate SuffixAt(s: string, e: nat)
    requires e <= |s|
  {
    e == |s| || (e == |s| - 1 && s[e] in "fFdD")
  }

  /** After an exponent marker: an optional sign, at least one digit, then
      the optional suffix. */
  predicate ExponentFrom(s: string, k: nat)
    requires k <= |s|
  {
    var j := if k < |s| && (s[k] == '+' || s[k] == '-') then k + 1 else k;
    var e := DigitsEnd(s, j);
    j < e && SuffixAt(s, e)
  }

  predicate DecimalLiteral(u: string) {
    var m := MantissaEnd(u, 0, false);
    ValidMantissa(u[..m], false)
    && if m < |u| && (u[m] == 'e' || u[m] == 'E') then ExponentFrom(u, m + 1) else SuffixAt(u, m)
  }

  predicate HexLiteral(u: string) {
    |u| >= 2 && u[0] == '0' && (u[1] == 'x' || u[1] == 'X')
    && var m := MantissaEnd(u, 2, true);
    ValidMantissa(u[2..m], true)
    && m < |u| && (u[m] == 'p' || u[m] == 'P') && ExponentFrom(u, m + 1)
  }

  /** Double.parseDouble(s) returns a value rather than throwing. */
  predicate ParsesAsDouble(s: string) {
    var t := Trim(s);
    t != []
    && var u := if t[0] == '+' || t[0] == '-' then t[1..] else t;
    u == "NaN" || u == "Infinity" || DecimalLiteral(u) || HexLiteral(u)
  }

  /** A single ASCII digit always parses, so the parse of a one-digit token
      in the token reader never throws. */
  lemma SingleDigitParses(c: char)
    requires IsDigit(c)
    ensures ParsesAsDouble([c])
  {
    var u := [c];
    assert TrimStart(u) == u;
    assert TrimEnd(u) == u;
    assert MantissaEnd(u, 1, false) == 1;
    assert MantissaEnd(u, 0, false) == 1;
    assert u[..1] == u;
    assert u[1..] == [];
    assert DotCount(u) == 0;
    assert MantissaChar(u[0], false) && u[0] != '.';
    assert ValidMantissa(u[..1], false);
    assert SuffixAt(u, 1);
    assert DecimalLiteral(u);
  }

  /** A string that starts with a letter other than the first letters of
      "NaN" and "Infinity" never parses. */
  lemma LetterStartDoesNotParse(s: string)
    requires s != [] && IsLetter(s[0]) && s[0] != 'N' && s[0] != 'I'
    ensures !ParsesAsDouble(s)
  {
    assert Trim(s) == TrimEnd(s);
    var t := Trim(s);
    if t != [] {
      assert t[0] == s[0];
      assert MantissaEnd(t, 0, false) == 0;
      assert !HasDigit(t[..0], false);
    }
  }
}
