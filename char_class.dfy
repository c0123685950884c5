/** Character classes and cursor runs shared by both hand-written scanners. */
module CharClass {

  /** '0'..'9' (the switch in IsDigit). */
  predicate IsDigit(c: char) {
    '0' <= c <= '9'
  }

  /** ' ', '\t' and '\n' only. */
  predicate IsSpace(c: char) {
    c == ' ' || c == '\t' || c == '\n'
  }

  /** Letters and '_' as the source tests them: the upper bounds are strict,
      so 'z' and 'Z' are not included. */
  predicate IsChar(c: char) {
    ('a' <= c < 'z') || ('A' <= c < 'Z') || c == '_'
  }

  /** Characters a number scan of the current scanner keeps consuming: digits, '.' and IsChar letters. */
  predicate IsNumberChar(c: char) {
    IsDigit(c) || c == '.' || IsChar(c)
  }

  /** Characters an identifier scan keeps consuming. */
  predicate IsIdChar(c: char) {
    IsChar(c) || IsDigit(c)
  }

  /** Digits and '.', which the snapshot's number scan swallows after a second '.'. */
  predicate IsDigitOrDot(c: char) {
    IsDigit(c) || c == '.'
  }

  /** The range test for digits accepts exactly the ten characters the switch lists. */
  lemma DigitCases(c: char)
    ensures IsDigit(c) <==> c in "0123456789"
  {
  }

  /** The whitespace test accepts exactly the three characters the switch lists. */
  lemma SpaceCases(c: char)
    ensures IsSpace(c) <==> c in " \t\n"
  {
  }

  /** IsChar is the class its comment names, "a-z, A-Z and _", without 'z' and 'Z'. */
  lemma LetterCases(c: char)
    ensures IsChar(c) <==> (('a' <= c <= 'z' || 'A' <= c <= 'Z') && c != 'z' && c != 'Z') || c == '_'
  {
  }

  /** The character classes the scanning loops run over. */
  datatype Class = Digits | DigitsOrDots | NumberChars | IdChars

  predicate InClass(c: char, k: Class) {
    match k
    case Digits => IsDigit(c)
    case DigitsOrDots => IsDigitOrDot(c)
    case NumberChars => IsNumberChar(c)
    case IdChars => IsIdChar(c)
  }

  /** The cursor after skipping whitespace from pos: the first index at or after
      pos that is not whitespace, or the end of the input. */
  function SkipSpaces(s: string, pos: nat): (p: nat)
    ensures pos <= p
    ensures pos >= |s| ==> p == pos
    ensures pos < |s| ==> p <= |s|
    ensures forall i :: pos <= i < p ==> IsSpace(s[i])
    ensures p < |s| ==> !IsSpace(s[p])
    decreases |s| - pos
  {
    if pos < |s| && IsSpace(s[pos]) then SkipSpaces(s, pos + 1) else pos
  }

  /** The end of the maximal run of characters of class k that starts at pos. */
  function RunEnd(s: string, pos: nat, k: Class): (e: nat)
    requires pos <= |s|
    ensures pos <= e <= |s|
    ensures forall i :: pos <= i < e ==> InClass(s[i], k)
    ensures e < |s| ==> !InClass(s[e], k)
    decreases |s| - pos
  {
    if pos < |s| && InClass(s[pos], k) then RunEnd(s, pos + 1, k) else pos
  }

  /** The two properties above determine the run's end. */
  lemma {:induction false} RunEndUnique(s: string, pos: nat, e: nat, k: Class)
    requires pos <= e <= |s|
    requires forall i :: pos <= i < e ==> InClass(s[i], k)
    requires e < |s| ==> !InClass(s[e], k)
    ensures RunEnd(s, pos, k) == e
    decreases e - pos
  {
    if pos < e {
      RunEndUnique(s, pos + 1, e, k);
    }
  }

  /** Likewise for the whitespace skip. */
  lemma {:induction false} SkipSpacesUnique(s: string, pos: nat, p: nat)
    requires pos <= p <= |s|
    requires forall i :: pos <= i < p ==> IsSpace(s[i])
    requires p < |s| ==> !IsSpace(s[p])
    ensures SkipSpaces(s, pos) == p
    decreases p - pos
  {
    if pos < p {
      SkipSpacesUnique(s, pos + 1, p);
    }
  }
}
