/** The current hand-written scanner (ManualLexer/CalcLexer.cpp) as functions of the
    input and a cursor: what one call of Read returns and where it leaves the cursor. */
module CalcSpec {
  import opened Tokens
  import opened CharClass
  import opened NumberSyntax

  /** The kind of a single-character operator or bracket, if c is one. */
  function OperatorKind(c: char): (k: Option<TokenType>)
    ensures k.Some? ==> 4 <= k.value.Ordinal() <= 10
  {
    match c
    case '+' => Some(Plus)
    case '-' => Some(Minus)
    case '*' => Some(Asterisk)
    case '/' => Some(Slash)
    case '=' => Some(Equal)
    case '(' => Some(OpenBracket)
    case ')' => Some(CloseBracket)
    case _ => None
  }

  /** The flag set before the number loop: a head '.', or a head '0' followed by a digit or letter. */
  predicate HeadError(s: string, start: nat)
    requires start < |s|
  {
    s[start] == '.' ||
    (s[start] == '0' && start + 1 < |s| && (IsDigit(s[start + 1]) || IsChar(s[start + 1])))
  }

  /** Whether consuming the character at i (after the head at start) sets the flag:
      a letter, or a '.' that is a second dot, lacks a digit before it, or lacks a digit after it. */
  predicate BadAt(s: string, start: nat, i: nat)
    requires start < i < |s|
  {
    IsChar(s[i]) ||
    (s[i] == '.' && (DotIn(s, start + 1, i) || !IsDigit(s[i - 1]) || i + 1 >= |s| || !IsDigit(s[i + 1])))
  }

  /** Whether some '.' lies in s[a..b]. */
  predicate DotIn(s: string, a: nat, b: nat)
    requires a <= b <= |s|
    decreases b
  {
    a < b && (DotIn(s, a, b - 1) || s[b - 1] == '.')
  }

  /** The error flag once the number loop has consumed everything before k. */
  function FlagUpTo(s: string, start: nat, k: nat): bool
    requires start < k <= |s|
    decreases k
  {
    if k == start + 1 then HeadError(s, start) else FlagUpTo(s, start, k - 1) || BadAt(s, start, k - 1)
  }

  /** ReadNumber: the head at start plus the maximal run of number characters after it;
      Error when the sticky flag or a trailing '.' says so, Number otherwise. */
  function ScanNumber(s: string, start: nat): (r: (Token, nat))
    requires start < |s| && (IsDigit(s[start]) || s[start] == '.')
    ensures start < r.1 <= |s|
    ensures r.0.value == Some(s[start..r.1])
    ensures r.0.kind == Number || r.0.kind == Error
    ensures r.1 < |s| ==> !IsNumberChar(s[r.1])
    ensures forall i :: start < i < r.1 ==> IsNumberChar(s[i])
  {
    var end := RunEnd(s, start + 1, NumberChars);
    var error := FlagUpTo(s, start, end) || s[end - 1] == '.';
    (Token(if error then Error else Number, Some(s[start..end])), end)
  }

  /** ReadId: the head at start plus the maximal run of letters and digits; always an identifier. */
  function ScanId(s: string, start: nat): (r: (Token, nat))
    requires start < |s| && IsChar(s[start])
    ensures start < r.1 <= |s|
    ensures r.0 == Token(Id, Some(s[start..r.1]))
    ensures r.1 < |s| ==> !IsIdChar(s[r.1])
    ensures forall i :: start < i < r.1 ==> IsIdChar(s[i])
  {
    var end := RunEnd(s, start + 1, IdChars);
    (Token(Id, Some(s[start..end])), end)
  }

  /** Read: the token at the cursor pos and the cursor after it. */
  function NextToken(s: string, pos: nat): (r: (Token, nat))
    ensures r.0.kind == End <==> SkipSpaces(s, pos) >= |s|
    ensures r.0.kind == End ==> r.1 == SkipSpaces(s, pos) && r.0.value.None?
    ensures r.0.kind != End ==> pos < r.1 <= |s|
    ensures r.0.value.Some? ==> SkipSpaces(s, pos) < r.1 <= |s|
    ensures r.0.value.Some? ==> r.0.value.value == s[SkipSpaces(s, pos)..r.1]
    ensures r.0.kind != End && r.0.value.None? ==> r.1 == SkipSpaces(s, pos) + 1
  {
    var p := SkipSpaces(s, pos);
    if p >= |s| then
      (Token(End, None), p)
    else
      var c := s[p];
      if OperatorKind(c).Some? then
        (Token(OperatorKind(c).value, None), p + 1)
      else if IsDigit(c) || c == '.' then
        ScanNumber(s, p)
      else if IsChar(c) then
        ScanId(s, p)
      else
        (Token(Error, None), p + 1)
  }

  /** The tokens Read yields from pos until it returns End (End itself excluded). */
  function TokenizeFrom(s: string, pos: nat): (ts: seq<Token>)
    ensures forall i :: 0 <= i < |ts| ==> ts[i].kind != End
    decreases if pos <= |s| then |s| - pos + 1 else 0
  {
    var (t, next) := NextToken(s, pos);
    if t.kind == End then [] else [t] + TokenizeFrom(s, next)
  }

  /** The token list of a whole input, starting from cursor 0. */
  function Tokenize(s: string): seq<Token> {
    TokenizeFrom(s, 0)
  }
}
