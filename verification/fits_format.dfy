/**
  The AOT value kinds and the mapping from a FITS binary-table column type
  code (the TFORMn value of section 7.3 of the FITS Standard 4.0) to one of
  them. The mapper accepts the bare float and integer codes, an optional
  repeat count followed by the character code `A`, and the 64-bit or 32-bit
  array descriptors `Q`/`P` of section 7.3.5 over double or single floats.

  Python's `\d` also matches non-ASCII digits; here a digit is `'0'..'9'`.
 */
module FitsFormat {
  import opened Wrappers

  /** The four semantic kinds of an AOT field. */
  datatype Format = Str | Int | Flt | Lst

  /** The token each kind is written as in the schema. */
  function Token(f: Format): string {
    match f
    case Str => "str"
    case Int => "int"
    case Flt => "flt"
    case Lst => "lst"
  }

  /** The only error the mapper raises: the code is not part of AOT FITS. */
  datatype FormatError = NotInAotFits

  predicate IsDigit(c: char) {
    '0' <= c <= '9'
  }

  predicate AllDigits(s: string) {
    forall i | 0 <= i < |s| :: IsDigit(s[i])
  }

  /** Single (`E`) or double (`D`) precision float. */
  predicate IsFloatCode(code: string) {
    code == "E" || code == "D"
  }

  /** 8-bit (`B`), 16-bit (`I`), 32-bit (`J`) or 64-bit (`K`) integer. */
  predicate IsIntegerCode(code: string) {
    code == "B" || code == "I" || code == "J" || code == "K"
  }

  /** `\d*A`: zero or more digits, then the character code. */
  predicate IsStringCode(code: string) {
    && |code| >= 1
    && code[|code| - 1] == 'A'
    && AllDigits(code[..|code| - 1])
  }

  predicate IsArrayMarker(c: char) {
    c == 'Q' || c == 'P'
  }

  predicate IsFloatMarker(c: char) {
    c == 'D' || c == 'E'
  }

  /** `[QP][DE]\(\d*\)`: a variable-length float array with its maximum length. */
  predicate IsListCode(code: string) {
    && |code| >= 4
    && IsArrayMarker(code[0])
    && IsFloatMarker(code[1])
    && code[2] == '('
    && code[|code| - 1] == ')'
    && AllDigits(code[3..|code| - 1])
  }

  /** The codes the mapper accepts. */
  predicate IsAotCode(code: string) {
    IsFloatCode(code) || IsIntegerCode(code) || IsStringCode(code) || IsListCode(code)
  }

  /**
    Maps a column type code to its AOT kind, checking the float codes, the
    integer codes, the string pattern and the list pattern in that order.
   */
  function FitsTypeToAot(code: string): (r: Result<Format, FormatError>)
    ensures r == Success(Flt) <==> IsFloatCode(code)
    ensures r == Success(Int) <==> IsIntegerCode(code)
    ensures r == Success(Str) <==> IsStringCode(code)
    ensures r == Success(Lst) <==> IsListCode(code)
    ensures r.Failure? <==> !IsAotCode(code)
  {
    if IsFloatCode(code) then Success(Flt)
    else if IsIntegerCode(code) then Success(Int)
    else if IsStringCode(code) then Success(Str)
    else if IsListCode(code) then Success(Lst)
    else Failure(NotInAotFits)
  }

  /** The four kinds are written with four different tokens. */
  lemma TokensDistinct(f: Format, g: Format)
    ensures Token(f) == Token(g) <==> f == g
  {
  }

  /** No code belongs to two of the accepted patterns, so the order in which the mapper tests them is immaterial. */
  lemma CodeClassesDisjoint(code: string)
    ensures !(IsStringCode(code) && IsListCode(code))
    ensures !(IsStringCode(code) && (IsFloatCode(code) || IsIntegerCode(code)))
    ensures !(IsListCode(code) && (IsFloatCode(code) || IsIntegerCode(code)))
    ensures !(IsFloatCode(code) && IsIntegerCode(code))
  {
  }

  /** Any run of digits followed by `A` is a string column, whatever the repeat count. */
  lemma {:induction false} RepeatedCharacterIsString(digits: string)
    requires AllDigits(digits)
    ensures FitsTypeToAot(digits + "A") == Success(Str)
  {
    var code := digits + "A";
    assert code[..|code| - 1] == digits;
  }

  /** Every array descriptor over a float type with a digit-only bound is a list column. */
  lemma {:induction false} ArrayDescriptorIsList(marker: char, element: char, bound: string)
    requires IsArrayMarker(marker) && IsFloatMarker(element) && AllDigits(bound)
    ensures FitsTypeToAot([marker, element, '('] + bound + [')']) == Success(Lst)
  {
    var code := [marker, element, '('] + bound + [')'];
    assert code[3..|code| - 1] == bound;
  }

  /** A list column always has that shape: the converse of ArrayDescriptorIsList. */
  lemma ListShape(code: string)
    requires FitsTypeToAot(code) == Success(Lst)
    ensures exists marker, element, bound ::
      && IsArrayMarker(marker) && IsFloatMarker(element) && AllDigits(bound)
      && code == [marker, element, '('] + bound + [')']
  {
    var bound := code[3..|code| - 1];
    assert code == [code[0], code[1], '('] + bound + [')'];
  }

  /** The codes the mapper is documented against, accepted and refused. */
  lemma Examples()
    ensures FitsTypeToAot("D") == Success(Flt)
    ensures FitsTypeToAot("K") == Success(Int)
    ensures FitsTypeToAot("A") == Success(Str)
    ensures FitsTypeToAot("64A") == Success(Str)
    ensures FitsTypeToAot("QD(10)") == Success(Lst)
    ensures FitsTypeToAot("PE()") == Success(Lst)
    ensures FitsTypeToAot("QJ(5)").Failure?
    ensures FitsTypeToAot("QD").Failure?
    ensures FitsTypeToAot("").Failure?
    ensures FitsTypeToAot("ZZ").Failure?
    ensures FitsTypeToAot("A64").Failure?
  {
    RepeatedCharacterIsString("64");
    ArrayDescriptorIsList('Q', 'D', "10");
    ArrayDescriptorIsList('P', 'E', "");
    assert "QD(10)" == ['Q', 'D', '('] + "10" + [')'];
    assert "PE()" == ['P', 'E', '('] + "" + [')'];
  }

  /*
    A single left-to-right pass that classifies a type code the way the two
    regular expressions and the two membership tests do together: a finite
    automaton whose states record which accepted codes the prefix read so far
    can still grow into.
   */
  datatype ScanState =
    | Start          // nothing read yet
    | Digits         // one or more digits: a repeat count
    | CharDone       // a repeat count (possibly empty) and `A`
    | FloatDone      // `E` or `D`
    | IntegerDone    // `B`, `I`, `J` or `K`
    | Marker         // `Q` or `P`
    | MarkerElement  // array marker and `D` or `E`
    | Bound          // array marker, element type, `(` and digits
    | ListDone       // a complete array descriptor
    | Rejected       // no accepted code starts this way

  function Step(st: ScanState, c: char): ScanState {
    match st
    case Start =>
      if c == 'E' || c == 'D' then FloatDone
      else if c == 'B' || c == 'I' || c == 'J' || c == 'K' then IntegerDone
      else if IsDigit(c) then Digits
      else if c == 'A' then CharDone
      else if IsArrayMarker(c) then Marker
      else Rejected
    case Digits =>
      if IsDigit(c) then Digits else if c == 'A' then CharDone else Rejected
    case Marker =>
      if IsFloatMarker(c) then MarkerElement else Rejected
    case MarkerElement =>
      if c == '(' then Bound else Rejected
    case Bound =>
      if IsDigit(c) then Bound else if c == ')' then ListDone else Rejected
    case _ => Rejected
  }

  /** What the scan reports once the whole code has been read. */
  function Verdict(st: ScanState): Result<Format, FormatError> {
    match st
    case FloatDone => Success(Flt)
    case IntegerDone => Success(Int)
    case CharDone => Success(Str)
    case ListDone => Success(Lst)
    case _ => Failure(NotInAotFits)
  }

  /** The state a prefix leads to, described by what the prefix looks like. */
  ghost function StateOf(p: string): ScanState {
    if |p| == 0 then Start
    else if IsFloatCode(p) then FloatDone
    else if IsIntegerCode(p) then IntegerDone
    else if AllDigits(p) then Digits
    else if IsStringCode(p) then CharDone
    else if |p| == 1 && IsArrayMarker(p[0]) then Marker
    else if |p| == 2 && IsArrayMarker(p[0]) && IsFloatMarker(p[1]) then MarkerElement
    else if IsOpenBound(p) then Bound
    else if IsListCode(p) then ListDone
    else Rejected
  }

  /** An array descriptor still waiting for its closing parenthesis. */
  ghost predicate IsOpenBound(p: string) {
    && |p| >= 3
    && IsArrayMarker(p[0])
    && IsFloatMarker(p[1])
    && p[2] == '('
    && AllDigits(p[3..])
  }

  lemma AllDigitsSnoc(p: string, c: char)
    ensures AllDigits(p + [c]) <==> AllDigits(p) && IsDigit(c)
  {
    var q := p + [c];
    assert q[|p|] == c;
    if AllDigits(q) {
      forall i | 0 <= i < |p| ensures IsDigit(p[i]) {
        assert p[i] == q[i];
      }
    }
  }

  lemma StringCodeSnoc(p: string, c: char)
    ensures IsStringCode(p + [c]) <==> AllDigits(p) && c == 'A'
  {
    var q := p + [c];
    assert q[..|q| - 1] == p;
  }

  lemma OpenBoundSnoc(p: string, c: char)
    requires |p| >= 3
    ensures IsOpenBound(p + [c]) <==> IsOpenBound(p) && IsDigit(c)
  {
    var q := p + [c];
    assert q[0] == p[0] && q[1] == p[1] && q[2] == p[2];
    assert q[3..] == p[3..] + [c];
    AllDigitsSnoc(p[3..], c);
  }

  lemma ListCodeSnoc(p: string, c: char)
    ensures IsListCode(p + [c]) <==> IsOpenBound(p) && c == ')'
  {
    var q := p + [c];
    if |q| >= 4 {
      assert q[0] == p[0] && q[1] == p[1] && q[2] == p[2];
      assert q[3..|q| - 1] == p[3..];
    }
  }

  /** Reading one more character moves the automaton exactly as the prefix description says. */
  lemma StepMatchesPrefix(p: string, c: char)
    ensures StateOf(p + [c]) == Step(StateOf(p), c)
  {
    var q := p + [c];
    AllDigitsSnoc(p, c);
    StringCodeSnoc(p, c);
    ListCodeSnoc(p, c);
    if |p| >= 3 {
      OpenBoundSnoc(p, c);
    }
    if |p| >= 1 {
      assert q[0] == p[0];
    }
    if |p| >= 2 {
      assert q[1] == p[1];
    }
  }

  /** The verdict on the state a whole code leads to is the mapper's answer. */
  lemma VerdictMatchesMapper(code: string)
    ensures Verdict(StateOf(code)) == FitsTypeToAot(code)
  {
  }

  /** Classifies a type code in one pass over its characters. */
  method ScanTypeCode(code: string) returns (r: Result<Format, FormatError>)
    ensures r == FitsTypeToAot(code)
  {
    var st := Start;
    var i := 0;
    while i < |code|
      invariant 0 <= i <= |code|
      invariant st == StateOf(code[..i])
    {
      StepMatchesPrefix(code[..i], code[i]);
      assert code[..i + 1] == code[..i] + [code[i]];
      st := Step(st, code[i]);
      i := i + 1;
    }
    assert code[..i] == code;
    VerdictMatchesMapper(code);
    r := Verdict(st);
  }
}
