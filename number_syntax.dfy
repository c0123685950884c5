/** The shape of a valid number literal, `(0|[1-9][0-9]*)(\.[0-9]+)?`: the pattern
    the automaton lexer registers for numbers, shared by both hand-written scanners. */
module NumberSyntax {
  import opened CharClass

  predicate AllDigits(t: string) {
    forall i :: 0 <= i < |t| ==> IsDigit(t[i])
  }

  /** `0|[1-9][0-9]*` */
  predicate IsIntegerPart(t: string) {
    t == "0" || (|t| > 0 && '1' <= t[0] <= '9' && AllDigits(t))
  }

  /** The integer part, then optionally a '.' and at least one digit. */
  predicate IsNumberLiteral(t: string) {
    IsIntegerPart(t) ||
    exists k :: 0 < k < |t| - 1 && t[k] == '.' && IsIntegerPart(t[..k]) && AllDigits(t[k + 1..])
  }

  /** The literal shape read off a text in place: s[a..d] is the integer part, and either it is
      all of s[a..b] or a '.' at d is followed by the digits up to b. */
  predicate LiteralShapeAt(s: string, a: nat, d: nat, b: nat)
    requires a <= d <= b <= |s|
  {
    a < d && (forall i :: a <= i < d ==> IsDigit(s[i])) && (s[a] == '0' ==> d == a + 1) &&
    (d == b || (d + 1 < b && s[d] == '.' && forall i :: d < i < b ==> IsDigit(s[i])))
  }

  /** AllDigits read in place. */
  lemma AllDigitsAt(s: string, a: nat, b: nat)
    requires a <= b <= |s|
    ensures AllDigits(s[a..b]) <==> forall i :: a <= i < b ==> IsDigit(s[i])
  {
    if AllDigits(s[a..b]) {
      forall i | a <= i < b
        ensures IsDigit(s[i])
      {
        assert s[a..b][i - a] == s[i];
      }
    }
  }

  /** IsIntegerPart read in place: all digits, and a leading '0' stands alone. */
  lemma IntegerPartAt(s: string, a: nat, b: nat)
    requires a < b <= |s|
    ensures IsIntegerPart(s[a..b]) <==>
      (forall i :: a <= i < b ==> IsDigit(s[i])) && (s[a] == '0' ==> b == a + 1)
  {
    AllDigitsAt(s, a, b);
    assert s[a..b][0] == s[a];
    if s[a] == '0' && b == a + 1 {
      assert s[a..b] == "0";
    }
  }

  /** A number literal sitting in s between a and b has the literal shape at some d. */
  lemma LiteralShape(s: string, a: nat, b: nat) returns (d: nat)
    requires a <= b <= |s| && IsNumberLiteral(s[a..b])
    ensures a <= d <= b && LiteralShapeAt(s, a, d, b)
  {
    var t := s[a..b];
    if k :| 0 < k < |t| - 1 && t[k] == '.' && IsIntegerPart(t[..k]) && AllDigits(t[k + 1..]) {
      d := a + k;
      FractionShape(s, a, d, b);
    } else {
      d := b;
      IntegerPartAt(s, a, b);
    }
  }

  /** The literal shape when the text splits at a '.' at d. */
  lemma FractionShape(s: string, a: nat, d: nat, b: nat)
    requires a < d && d + 1 < b <= |s| && s[a..b][d - a] == '.'
    requires IsIntegerPart(s[a..b][..d - a]) && AllDigits(s[a..b][d - a + 1..])
    ensures LiteralShapeAt(s, a, d, b)
  {
    assert s[a..b][..d - a] == s[a..d] && s[a..b][d - a + 1..] == s[d + 1..b];
    IntegerPartAt(s, a, d);
    AllDigitsAt(s, d + 1, b);
  }

  /** Conversely, text of the literal shape is a number literal. */
  lemma ShapeIsLiteral(s: string, a: nat, d: nat, b: nat)
    requires a <= d <= b <= |s| && LiteralShapeAt(s, a, d, b)
    ensures IsNumberLiteral(s[a..b])
  {
    var t, k := s[a..b], d - a;
    assert t[..k] == s[a..d];
    IntegerPartAt(s, a, d);
    if d < b {
      assert t[k + 1..] == s[d + 1..b];
      AllDigitsAt(s, d + 1, b);
      assert 0 < k < |t| - 1 && t[k] == '.' && IsIntegerPart(t[..k]) && AllDigits(t[k + 1..]);
    }
  }

  /** The literal grammar read character by character: a literal is non-empty, starts and ends
      with a digit, holds only digits and at most one '.', and a leading '0' is alone or
      followed by the '.'. */
  predicate LiteralChars(t: string) {
    |t| > 0 && IsDigit(t[0]) && IsDigit(t[|t| - 1]) &&
    (t[0] == '0' && |t| > 1 ==> t[1] == '.') &&
    (forall i :: 0 <= i < |t| ==> IsDigit(t[i]) || t[i] == '.') &&
    (forall i, j :: 0 <= i < j < |t| && t[i] == '.' ==> t[j] != '.')
  }

  /** The regular-expression reading and the character-by-character reading agree. */
  lemma LiteralIff(t: string)
    ensures IsNumberLiteral(t) <==> LiteralChars(t)
  {
    assert t[0..|t|] == t;
    if IsNumberLiteral(t) {
      var d := LiteralShape(t, 0, |t|);
    }
    if LiteralChars(t) {
      var d := |t|;
      if k :| 0 <= k < |t| && t[k] == '.' {
        d := k;
      }
      ShapeIsLiteral(t, 0, d, |t|);
    }
  }
}
