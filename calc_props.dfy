/** What one call of the current scanner's Read guarantees, stated over NextToken. */
module CalcProps {
  import opened Tokens
  import opened CharClass
  import opened NumberSyntax
  import opened CalcSpec

  /** Read returns End exactly when only whitespace remains; it then leaves the cursor at the
      end of the input (or where it was, if already past it), and every further call returns
      End again without moving it. */
  lemma EndIffOnlySpaces(s: string, pos: nat)
    ensures NextToken(s, pos).0.kind == End <==> forall i :: pos <= i < |s| ==> IsSpace(s[i])
    ensures NextToken(s, pos).0.kind == End ==>
      NextToken(s, pos).1 == (if pos <= |s| then |s| else pos) &&
      NextToken(s, NextToken(s, pos).1) == NextToken(s, pos)
  {
    var p := SkipSpaces(s, pos);
    if p >= |s| && pos <= |s| {
      assert p == |s|;
      assert SkipSpaces(s, |s|) == |s|;
    }
  }

  /** Each operator and bracket character yields its own kind, without text, consuming one character. */
  lemma OperatorTokens(s: string, pos: nat)
    requires SkipSpaces(s, pos) < |s|
    ensures var p, r := SkipSpaces(s, pos), NextToken(s, pos);
      (s[p] == '+' ==> r == (Bare(Plus), p + 1)) &&
      (s[p] == '-' ==> r == (Bare(Minus), p + 1)) &&
      (s[p] == '*' ==> r == (Bare(Asterisk), p + 1)) &&
      (s[p] == '/' ==> r == (Bare(Slash), p + 1)) &&
      (s[p] == '=' ==> r == (Bare(Equal), p + 1)) &&
      (s[p] == '(' ==> r == (Bare(OpenBracket), p + 1)) &&
      (s[p] == ')' ==> r == (Bare(CloseBracket), p + 1))
  {
  }

  /** A character that is not whitespace, an operator, a digit, '.' or an IsChar letter. */
  predicate Unrecognised(c: char) {
    !IsSpace(c) && OperatorKind(c).None? && !IsDigit(c) && c != '.' && !IsChar(c)
  }

  /** Read returns a text-less Error exactly when the first non-blank character is unrecognised,
      and then consumes just that character. */
  lemma BareErrorIffUnrecognised(s: string, pos: nat)
    ensures var p, r := SkipSpaces(s, pos), NextToken(s, pos);
      r.0 == Bare(Error) <==> p < |s| && Unrecognised(s[p])
    ensures var p, r := SkipSpaces(s, pos), NextToken(s, pos);
      r.0 == Bare(Error) ==> r.1 == p + 1
  {
  }

  /** 'z' and 'Z' are unrecognised, since IsChar's upper bounds are strict. */
  lemma LastLettersUnrecognised(s: string, pos: nat)
    requires SkipSpaces(s, pos) < |s| && (s[SkipSpaces(s, pos)] == 'z' || s[SkipSpaces(s, pos)] == 'Z')
    ensures NextToken(s, pos) == (Bare(Error), SkipSpaces(s, pos) + 1)
  {
    BareErrorIffUnrecognised(s, pos);
  }

  /** Every text-carrying token is a number scan (head digit or '.', kind Number or Error) or an
      identifier scan (head IsChar, kind Id); the head decides which, and the run is maximal. */
  lemma TextTokenClass(s: string, pos: nat)
    requires NextToken(s, pos).0.value.Some?
    ensures var p, r := SkipSpaces(s, pos), NextToken(s, pos);
      p < r.1 <= |s| &&
      (r.0.kind == Id <==> IsChar(s[p])) &&
      (r.0.kind == Number || r.0.kind == Error <==> IsDigit(s[p]) || s[p] == '.') &&
      (r.0.kind == Id ==> forall i :: p < i < r.1 ==> IsIdChar(s[i])) &&
      (r.0.kind == Id ==> r.1 < |s| ==> !IsIdChar(s[r.1])) &&
      (r.0.kind != Id ==> forall i :: p < i < r.1 ==> IsNumberChar(s[i])) &&
      (r.0.kind != Id ==> r.1 < |s| ==> !IsNumberChar(s[r.1]))
  {
  }

  /** Read dispatches on the first non-blank character: an operator or bracket gives its bare
      kind, a digit or '.' gives the number scan, and a letter gives the identifier scan. */
  lemma HeadDispatch(s: string, pos: nat)
    requires SkipSpaces(s, pos) < |s|
    ensures var p := SkipSpaces(s, pos);
      (OperatorKind(s[p]).Some? ==> NextToken(s, pos) == (Bare(OperatorKind(s[p]).value), p + 1)) &&
      (IsDigit(s[p]) || s[p] == '.' ==> NextToken(s, pos) == ScanNumber(s, p)) &&
      (IsChar(s[p]) ==> NextToken(s, pos) == ScanId(s, p))
  {
  }

  /** Conversely, a text-less token other than End and Error comes only from an operator or
      bracket, whose kind it is. */
  lemma BareOperatorOnlyFromOperator(s: string, pos: nat)
    requires NextToken(s, pos).0.value.None?
    requires NextToken(s, pos).0.kind != End && NextToken(s, pos).0.kind != Error
    ensures SkipSpaces(s, pos) < |s|
    ensures OperatorKind(s[SkipSpaces(s, pos)]) == Some(NextToken(s, pos).0.kind)
    ensures NextToken(s, pos).1 == SkipSpaces(s, pos) + 1
  {
  }

  /** The sticky flag: it is set after k exactly when the head check or some consumed character set it. */
  lemma {:induction false} FlagUpToExists(s: string, start: nat, k: nat)
    requires start < k <= |s|
    ensures FlagUpTo(s, start, k) <==>
      HeadError(s, start) || exists i :: start < i < k && BadAt(s, start, i)
    decreases k
  {
    if k > start + 1 {
      FlagUpToExists(s, start, k - 1);
      if BadAt(s, start, k - 1) {
        assert start < k - 1 < k;
      }
    }
  }

  /** Once the number loop has set the flag, consuming more characters never clears it. */
  lemma {:induction false} FlagStays(s: string, start: nat, j: nat, k: nat)
    requires start < j <= k <= |s|
    requires FlagUpTo(s, start, j)
    ensures FlagUpTo(s, start, k)
    decreases k
  {
    if j < k {
      FlagStays(s, start, j, k - 1);
    }
  }

  /** The error conditions of a number scan, all of them and only them. */
  lemma NumberErrorIff(s: string, start: nat)
    requires start < |s| && (IsDigit(s[start]) || s[start] == '.')
    ensures var end := ScanNumber(s, start).1;
      ScanNumber(s, start).0.kind == Error <==>
        HeadError(s, start) ||
        (exists i :: start < i < end && BadAt(s, start, i)) ||
        s[end - 1] == '.'
  {
    FlagUpToExists(s, start, ScanNumber(s, start).1);
  }

  /** A valid number scan's text is a number literal. */
  lemma NumberIsLiteral(s: string, start: nat)
    requires start < |s| && (IsDigit(s[start]) || s[start] == '.')
    requires ScanNumber(s, start).0.kind == Number
    ensures IsNumberLiteral(s[start..ScanNumber(s, start).1])
  {
    var end := ScanNumber(s, start).1;
    NumberErrorIff(s, start);
    forall i | start < i < end
      ensures IsDigit(s[i]) || s[i] == '.'
    {
      assert !BadAt(s, start, i);
    }
    var d := end;
    if k :| start < k < end && s[k] == '.' {
      d := k;
      assert !BadAt(s, start, k);
      DotInIff(s, start + 1, k);
      forall i | k < i < end
        ensures IsDigit(s[i])
      {
        DotInIff(s, start + 1, i);
        assert !BadAt(s, start, i);
      }
    }
    ShapeIsLiteral(s, start, d, end);
  }

  /** A number scan whose text is a number literal is valid. */
  lemma LiteralIsNumber(s: string, start: nat)
    requires start < |s| && (IsDigit(s[start]) || s[start] == '.')
    requires IsNumberLiteral(s[start..ScanNumber(s, start).1])
    ensures ScanNumber(s, start).0.kind == Number
  {
    var end := ScanNumber(s, start).1;
    var d := LiteralShape(s, start, end);
    NumberErrorIff(s, start);
    forall i | start < i < end
      ensures !BadAt(s, start, i)
    {
      if i == d {
        DotInIff(s, start + 1, d);
      }
    }
  }

  /** DotIn holds exactly when some character in s[a..b] is a '.'. */
  lemma {:induction false} DotInIff(s: string, a: nat, b: nat)
    requires a <= b <= |s|
    ensures DotIn(s, a, b) <==> exists j :: a <= j < b && s[j] == '.'
    decreases b
  {
    if a < b {
      DotInIff(s, a, b - 1);
    }
  }

  /** Validity of a number is a property of its text alone: Number exactly when the text matches
      `(0|[1-9][0-9]*)(\.[0-9]+)?`, Error otherwise. */
  lemma NumberValidIffLiteral(s: string, start: nat)
    requires start < |s| && (IsDigit(s[start]) || s[start] == '.')
    ensures ScanNumber(s, start).0.kind == Number <==> IsNumberLiteral(s[start..ScanNumber(s, start).1])
    ensures ScanNumber(s, start).0.kind == Error <==> !IsNumberLiteral(s[start..ScanNumber(s, start).1])
  {
    if ScanNumber(s, start).0.kind == Number {
      NumberIsLiteral(s, start);
    }
    if IsNumberLiteral(s[start..ScanNumber(s, start).1]) {
      LiteralIsNumber(s, start);
    }
  }

  /** Every Number token Read returns carries a number literal. */
  lemma NumberTokensAreLiterals(s: string, pos: nat)
    requires NextToken(s, pos).0.kind == Number
    ensures NextToken(s, pos).0.value.Some? && IsNumberLiteral(NextToken(s, pos).0.value.value)
  {
    NumberValidIffLiteral(s, SkipSpaces(s, pos));
  }
}
