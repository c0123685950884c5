/** The earlier teaching snapshot of the hand-written scanner (ManualLexer/ManualLexer/CalcLexer.cpp):
    no identifiers, no '=', and a number scan of digits, an optional fraction, and a
    swallowed tail after a second '.'. */
module SnapshotSpec {
  import opened Tokens
  import opened CharClass

  /** The six operators and brackets this snapshot knows. Its '*' and '/' enumerators are
      spelt TT_MULTIPLICATION and TT_DIVISION, which Token.h declares as TT_ASTERISK and TT_SLASH. */
  function OperatorKind(c: char): (k: Option<TokenType>)
    ensures k.Some? ==> 4 <= k.value.Ordinal() <= 10 && k.value != Equal
  {
    match c
    case '+' => Some(Plus)
    case '-' => Some(Minus)
    case '*' => Some(Asterisk)
    case '/' => Some(Slash)
    case '(' => Some(OpenBracket)
    case ')' => Some(CloseBracket)
    case _ => None
  }

  /** Where the number scan stops and whether it met a second '.': the digits after the head,
      then, after a '.', the rest as FractionEnd reads it. */
  function NumberEnd(s: string, start: nat): (r: (nat, bool))
    requires start < |s|
    ensures start < r.0 <= |s|
    ensures forall i :: start < i < r.0 ==> IsDigitOrDot(s[i])
    ensures r.0 < |s| ==> !IsDigitOrDot(s[r.0])
  {
    var intEnd := RunEnd(s, start + 1, Digits);
    if intEnd < |s| && s[intEnd] == '.' then FractionEnd(s, intEnd) else (intEnd, false)
  }

  /** The scan after the first '.' at dot: the fraction digits, then, after another '.',
      every digit and dot, reporting whether that second '.' was met. */
  function FractionEnd(s: string, dot: nat): (r: (nat, bool))
    requires dot < |s| && s[dot] == '.'
    ensures dot < r.0 <= |s|
    ensures forall i :: dot <= i < r.0 ==> IsDigitOrDot(s[i])
    ensures r.0 < |s| ==> !IsDigitOrDot(s[r.0])
  {
    var fracEnd := RunEnd(s, dot + 1, Digits);
    if fracEnd < |s| && s[fracEnd] == '.' then
      (RunEnd(s, fracEnd, DigitsOrDots), true)
    else
      (fracEnd, false)
  }

  /** ReadNumber: the consumed text and, as its kind, Error for a leading zero followed by a
      digit, a second '.', or a trailing '.', and Number otherwise. */
  function ScanNumber(s: string, start: nat): (r: (Token, nat))
    requires start < |s| && IsDigit(s[start])
    ensures start < r.1 <= |s|
    ensures r.0.value == Some(s[start..r.1])
    ensures r.0.kind == Number || r.0.kind == Error
    ensures forall i :: start < i < r.1 ==> IsDigitOrDot(s[i])
    ensures r.1 < |s| ==> !IsDigitOrDot(s[r.1])
  {
    var leadingZero := s[start] == '0' && start + 1 < |s| && IsDigit(s[start + 1]);
    var (end, secondDot) := NumberEnd(s, start);
    var error := leadingZero || secondDot || s[end - 1] == '.';
    (Token(if error then Error else Number, Some(s[start..end])), end)
  }

  /** Read for this snapshot. */
  function NextToken(s: string, pos: nat): (r: (Token, nat))
    ensures r.0.kind == End <==> SkipSpaces(s, pos) >= |s|
    ensures r.0.kind == End ==> r.1 == SkipSpaces(s, pos) && r.0.value.None?
    ensures r.0.kind != End ==> pos < r.1 <= |s|
    ensures r.0.kind != Id && r.0.kind != Equal
    ensures r.0.value.Some? ==> SkipSpaces(s, pos) < r.1 <= |s|
    ensures r.0.value.Some? ==> r.0.value.value == s[SkipSpaces(s, pos)..r.1]
    ensures r.0.kind != End && r.0.value.None? ==> r.1 == SkipSpaces(s, pos) + 1
  {
    var p := SkipSpaces(s, pos);
    if p >= |s| then
      (Token(End, None), p)
    else
      var c := s[p];
      if OperatorKind(c).Some? then
        (Token(OperatorKind(c).value, None), p + 1)
      else if IsDigit(c) then
        ScanNumber(s, p)
      else
        (Token(Error, None), p + 1)
  }

  /** The tokens Read yields from pos until End. */
  function TokenizeFrom(s: string, pos: nat): (ts: seq<Token>)
    ensures forall i :: 0 <= i < |ts| ==> ts[i].kind != End
    decreases if pos <= |s| then |s| - pos + 1 else 0
  {
    var (t, next) := NextToken(s, pos);
    if t.kind == End then [] else [t] + TokenizeFrom(s, next)
  }
}

/** What one call of the snapshot's Read guarantees. */
module SnapshotProps {
  import opened Tokens
  import opened CharClass
  import opened NumberSyntax
  import opened SnapshotSpec

  /** End exactly when only whitespace remains, without moving the cursor past the end;
      every further call returns End again. */
  lemma EndIffOnlySpaces(s: string, pos: nat)
    ensures NextToken(s, pos).0.kind == End <==> forall i :: pos <= i < |s| ==> IsSpace(s[i])
    ensures NextToken(s, pos).0.kind == End ==>
      NextToken(s, pos).1 == (if pos <= |s| then |s| else pos) &&
      NextToken(s, NextToken(s, pos).1) == NextToken(s, pos)
  {
    var p := SkipSpaces(s, pos);
    if p >= |s| && pos <= |s| {
      assert p == |s|;
      assert SkipSpaces(s, |s|) == |s|;
    }
  }

  /** The six operators and brackets yield their kinds, without text, consuming one character. */
  lemma OperatorTokens(s: string, pos: nat)
    requires SkipSpaces(s, pos) < |s|
    ensures var p, r := SkipSpaces(s, pos), NextToken(s, pos);
      (s[p] == '+' ==> r == (Bare(Plus), p + 1)) &&
      (s[p] == '-' ==> r == (Bare(Minus), p + 1)) &&
      (s[p] == '*' ==> r == (Bare(Asterisk), p + 1)) &&
      (s[p] == '/' ==> r == (Bare(Slash), p + 1)) &&
      (s[p] == '(' ==> r == (Bare(OpenBracket), p + 1)) &&
      (s[p] == ')' ==> r == (Bare(CloseBracket), p + 1))
  {
  }

  /** Only a digit starts a number: any other character that is not an operator, '.', '=' and
      letters included, gives a text-less Error and is consumed alone. */
  lemma BareErrorIffNotDigit(s: string, pos: nat)
    ensures var p, r := SkipSpaces(s, pos), NextToken(s, pos);
      r.0 == Bare(Error) <==> p < |s| && OperatorKind(s[p]).None? && !IsDigit(s[p])
    ensures var p, r := SkipSpaces(s, pos), NextToken(s, pos);
      r.0 == Bare(Error) ==> r.1 == p + 1
  {
  }

  /** Read dispatches on the first non-blank character: an operator or bracket gives its bare
      kind and a digit gives the number scan. */
  lemma HeadDispatch(s: string, pos: nat)
    requires SkipSpaces(s, pos) < |s|
    ensures var p := SkipSpaces(s, pos);
      (OperatorKind(s[p]).Some? ==> NextToken(s, pos) == (Bare(OperatorKind(s[p]).value), p + 1)) &&
      (IsDigit(s[p]) ==> NextToken(s, pos) == ScanNumber(s, p))
  {
  }

  /** Conversely, a text-less token other than End and Error comes only from an operator or
      bracket, and a token with text only from a digit. */
  lemma TokenOrigin(s: string, pos: nat)
    requires NextToken(s, pos).0.kind != End
    ensures SkipSpaces(s, pos) < |s|
    ensures NextToken(s, pos).0.value.None? && NextToken(s, pos).0.kind != Error ==>
      OperatorKind(s[SkipSpaces(s, pos)]) == Some(NextToken(s, pos).0.kind)
    ensures NextToken(s, pos).0.value.Some? ==> IsDigit(s[SkipSpaces(s, pos)])
  {
  }

  /** The number text has at least two dots exactly when the scan took the second-dot branch. */
  lemma {:induction false} SecondDotIffTwoDots(s: string, start: nat)
    requires start < |s| && IsDigit(s[start])
    ensures var (end, secondDot) := NumberEnd(s, start);
      secondDot <==> exists i, j :: start < i < j < end && s[i] == '.' && s[j] == '.'
  {
    var intEnd := RunEnd(s, start + 1, Digits);
    var (end, secondDot) := NumberEnd(s, start);
    if intEnd < |s| && s[intEnd] == '.' {
      var fracEnd := RunEnd(s, intEnd + 1, Digits);
      if fracEnd < |s| && s[fracEnd] == '.' {
        assert start < intEnd < fracEnd < end;
      } else {
        forall i, j | start < i < j < end && s[i] == '.'
          ensures s[j] != '.'
        {
          assert i == intEnd;
        }
      }
    } else {
      forall i | start < i < end
        ensures s[i] != '.'
      {
      }
    }
  }

  /** The number scan's error conditions, all of them and only them: a '0' head followed by a
      digit, a second '.', or a trailing '.'. */
  lemma NumberErrorIff(s: string, start: nat)
    requires start < |s| && IsDigit(s[start])
    ensures var end := ScanNumber(s, start).1;
      ScanNumber(s, start).0.kind == Error <==>
        (s[start] == '0' && start + 1 < |s| && IsDigit(s[start + 1])) ||
        (exists i, j :: start < i < j < end && s[i] == '.' && s[j] == '.') ||
        s[end - 1] == '.'
  {
    SecondDotIffTwoDots(s, start);
  }

  /** A valid snapshot number's text is a number literal. */
  lemma NumberIsLiteral(s: string, start: nat)
    requires start < |s| && IsDigit(s[start])
    requires ScanNumber(s, start).0.kind == Number
    ensures IsNumberLiteral(s[start..ScanNumber(s, start).1])
  {
    var end := ScanNumber(s, start).1;
    NumberErrorIff(s, start);
    var intEnd := RunEnd(s, start + 1, Digits);
    if intEnd < end {
      assert s[intEnd] == '.';
      forall i | intEnd < i < end
        ensures IsDigit(s[i])
      {
      }
    }
    ShapeIsLiteral(s, start, intEnd, end);
  }

  /** A snapshot number scan whose text is a number literal is valid. */
  lemma LiteralIsNumber(s: string, start: nat)
    requires start < |s| && IsDigit(s[start])
    requires IsNumberLiteral(s[start..ScanNumber(s, start).1])
    ensures ScanNumber(s, start).0.kind == Number
  {
    var end := ScanNumber(s, start).1;
    var d := LiteralShape(s, start, end);
    RunEndUnique(s, start + 1, d, Digits);
    if d < end {
      RunEndUnique(s, d + 1, end, Digits);
    }
  }

  /** Validity is a property of the text alone: Number exactly when it matches
      `(0|[1-9][0-9]*)(\.[0-9]+)?`, the same pattern as the current scanner. */
  lemma NumberValidIffLiteral(s: string, start: nat)
    requires start < |s| && IsDigit(s[start])
    ensures ScanNumber(s, start).0.kind == Number <==> IsNumberLiteral(s[start..ScanNumber(s, start).1])
  {
    if ScanNumber(s, start).0.kind == Number {
      NumberIsLiteral(s, start);
    }
    if IsNumberLiteral(s[start..ScanNumber(s, start).1]) {
      LiteralIsNumber(s, start);
    }
  }
}
