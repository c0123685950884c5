/** How the current scanner's token list reacts to the text around a token: Read looks only at
    the input from the cursor on, so a prefix shifts every cursor without changing the tokens,
    and whitespace before or after the input leaves the token list as it is. */
module CalcSpacing {
  import opened Tokens
  import opened CharClass
  import opened NumberSyntax
  import opened CalcSpec
  import CalcProps

  predicate AllSpaces(ws: string) {
    forall i :: 0 <= i < |ws| ==> IsSpace(ws[i])
  }

  // ---- A prefix shifts every cursor by its length ----

  lemma SkipSpacesShift(pre: string, s: string, k: nat)
    ensures SkipSpaces(pre + s, |pre| + k) == |pre| + SkipSpaces(s, k)
  {
    var t := pre + s;
    if k <= |s| {
      var p := SkipSpaces(s, k);
      forall i | |pre| + k <= i < |pre| + p
        ensures IsSpace(t[i])
      {
        assert t[i] == s[i - |pre|];
      }
      if |pre| + p < |t| {
        assert t[|pre| + p] == s[p];
      }
      SkipSpacesUnique(t, |pre| + k, |pre| + p);
    }
  }

  lemma RunEndShift(pre: string, s: string, a: nat, k: Class)
    requires a <= |s|
    ensures RunEnd(pre + s, |pre| + a, k) == |pre| + RunEnd(s, a, k)
  {
    var t, e := pre + s, RunEnd(s, a, k);
    forall i | |pre| + a <= i < |pre| + e
      ensures InClass(t[i], k)
    {
      assert t[i] == s[i - |pre|];
    }
    if |pre| + e < |t| {
      assert t[|pre| + e] == s[e];
    }
    RunEndUnique(t, |pre| + a, |pre| + e, k);
  }

  lemma {:induction false} DotInShift(pre: string, s: string, a: nat, b: nat)
    requires a <= b <= |s|
    ensures DotIn(pre + s, |pre| + a, |pre| + b) == DotIn(s, a, b)
    decreases b
  {
    if a < b {
      DotInShift(pre, s, a, b - 1);
      assert (pre + s)[|pre| + b - 1] == s[b - 1];
    }
  }

  lemma {:induction false} FlagUpToShift(pre: string, s: string, start: nat, k: nat)
    requires start < k <= |s|
    ensures FlagUpTo(pre + s, |pre| + start, |pre| + k) == FlagUpTo(s, start, k)
    decreases k
  {
    var t := pre + s;
    assert t[|pre| + start] == s[start];
    if k == start + 1 {
      if start + 1 < |s| {
        assert t[|pre| + start + 1] == s[start + 1];
      }
    } else {
      var i := k - 1;
      FlagUpToShift(pre, s, start, i);
      DotInShift(pre, s, start + 1, i);
      assert t[|pre| + i] == s[i] && t[|pre| + i - 1] == s[i - 1];
      if i + 1 < |s| {
        assert t[|pre| + i + 1] == s[i + 1];
      }
    }
  }

  lemma ScanNumberShift(pre: string, s: string, p: nat)
    requires p < |s| && (IsDigit(s[p]) || s[p] == '.')
    ensures (pre + s)[|pre| + p] == s[p]
    ensures ScanNumber(pre + s, |pre| + p) == (ScanNumber(s, p).0, |pre| + ScanNumber(s, p).1)
  {
    var t, end := pre + s, RunEnd(s, p + 1, NumberChars);
    assert t[|pre| + p] == s[p];
    RunEndShift(pre, s, p + 1, NumberChars);
    FlagUpToShift(pre, s, p, end);
    assert t[|pre| + p..|pre| + end] == s[p..end];
    assert t[|pre| + end - 1] == s[end - 1];
  }

  lemma ScanIdShift(pre: string, s: string, p: nat)
    requires p < |s| && IsChar(s[p])
    ensures (pre + s)[|pre| + p] == s[p]
    ensures ScanId(pre + s, |pre| + p) == (ScanId(s, p).0, |pre| + ScanId(s, p).1)
  {
    var t, end := pre + s, RunEnd(s, p + 1, IdChars);
    assert t[|pre| + p] == s[p];
    RunEndShift(pre, s, p + 1, IdChars);
    assert t[|pre| + p..|pre| + end] == s[p..end];
  }

  /** Read at a cursor behind a prefix returns the same token as without the prefix. */
  lemma NextTokenShift(pre: string, s: string, k: nat)
    ensures NextToken(pre + s, |pre| + k) == (NextToken(s, k).0, |pre| + NextToken(s, k).1)
  {
    SkipSpacesShift(pre, s, k);
    var p := SkipSpaces(s, k);
    if p < |s| {
      assert (pre + s)[|pre| + p] == s[p];
      if IsDigit(s[p]) || s[p] == '.' {
        ScanNumberShift(pre, s, p);
      } else if IsChar(s[p]) {
        ScanIdShift(pre, s, p);
      }
    }
  }

  /** Reading t from cursor a yields the tokens of reading s from cursor b. */
  predicate SameTokens(t: string, a: nat, s: string, b: nat) {
    TokenizeFrom(t, a) == TokenizeFrom(s, b)
  }

  /** The tokens read behind a prefix are the tokens of the text without it. */
  lemma TokenizeFromShift(pre: string, s: string, k: nat)
    ensures SameTokens(pre + s, |pre| + k, s, k)
  {
    forall j: nat
      ensures Mirrors(pre + s, |pre|, s, j)
    {
      NextTokenShift(pre, s, j);
    }
    AgreeFrom(pre + s, |pre|, s, k);
  }

  /** Read on t at cursor d + j returns the token read on s at j, and moves the cursor as far. */
  predicate Mirrors(t: string, d: nat, s: string, j: nat) {
    NextToken(t, d + j).0 == NextToken(s, j).0 && NextToken(t, d + j).1 == d + NextToken(s, j).1
  }

  /** If every read of t at d + j mirrors the read of s at j, the token lists agree. */
  lemma {:induction false} AgreeFrom(t: string, d: nat, s: string, k: nat)
    requires forall j: nat :: Mirrors(t, d, s, j)
    ensures SameTokens(t, d + k, s, k)
    decreases if k <= |s| then |s| - k + 1 else 0, 1
  {
    if NextToken(s, k).0.kind == End {
      AgreeEnd(t, d, s, k);
    } else {
      AgreeFromToken(t, d, s, k);
    }
  }

  /** AgreeFrom where s has a token at k: the rest agrees, and so does the token. */
  lemma {:induction false} AgreeFromToken(t: string, d: nat, s: string, k: nat)
    requires forall j: nat :: Mirrors(t, d, s, j)
    requires NextToken(s, k).0.kind != End
    ensures SameTokens(t, d + k, s, k)
    decreases if k <= |s| then |s| - k + 1 else 0, 0
  {
    AgreeFrom(t, d, s, NextToken(s, k).1);
    AgreeStep(t, d, s, k);
  }

  /** A mirrored read of a token: if the lists after it agree, the lists from it agree. */
  lemma AgreeStep(t: string, d: nat, s: string, k: nat)
    requires forall j: nat :: Mirrors(t, d, s, j)
    requires NextToken(s, k).0.kind != End
    requires SameTokens(t, d + NextToken(s, k).1, s, NextToken(s, k).1)
    ensures SameTokens(t, d + k, s, k)
  {
    assert Mirrors(t, d, s, k);
  }

  /** A mirrored read of End: both lists are empty. */
  lemma AgreeEnd(t: string, d: nat, s: string, k: nat)
    requires forall j: nat :: Mirrors(t, d, s, j)
    requires NextToken(s, k).0.kind == End
    ensures SameTokens(t, d + k, s, k)
  {
    assert Mirrors(t, d, s, k);
  }

  /** Whitespace before the input does not change its tokens. */
  lemma LeadingSpaces(ws: string, s: string)
    requires AllSpaces(ws)
    ensures Tokenize(ws + s) == Tokenize(s)
  {
    var t := ws + s;
    var p := SkipSpaces(t, |ws|);
    forall i | 0 <= i < p
      ensures IsSpace(t[i])
    {
      if i < |ws| {
        assert t[i] == ws[i];
      }
    }
    SkipSpacesUnique(t, 0, p);
    assert NextToken(t, 0) == NextToken(t, |ws|);
    TokenizeFromShift(ws, s, 0);
  }

  // ---- Text after the input ----

  /** y cannot continue a token that ends where y begins: it is empty, or its first character
      is one that neither the number scan nor the identifier scan consumes. */
  predicate Stops(y: string) {
    |y| == 0 || !IsNumberChar(y[0])
  }

  /** Skipping whitespace inside s is unaffected by y; skipping past the end of s goes on into y. */
  lemma SkipSpacesAppend(s: string, y: string, k: nat)
    requires k <= |s|
    ensures SkipSpaces(s, k) < |s| ==> SkipSpaces(s + y, k) == SkipSpaces(s, k)
    ensures SkipSpaces(s, k) >= |s| ==> SkipSpaces(s + y, k) == |s| + SkipSpaces(y, 0)
  {
    var t, p := s + y, SkipSpaces(s, k);
    if p < |s| {
      forall i | k <= i < p
        ensures IsSpace(t[i])
      {
        assert t[i] == s[i];
      }
      assert t[p] == s[p];
      SkipSpacesUnique(t, k, p);
    } else {
      var q := |s| + SkipSpaces(y, 0);
      SkipSpacesShift(s, y, 0);
      forall i | k <= i < q
        ensures IsSpace(t[i])
      {
        if i < |s| {
          assert t[i] == s[i];
        } else {
          assert t[i] == y[i - |s|];
        }
      }
      SkipSpacesUnique(t, k, q);
    }
  }

  /** A run inside s stops where it did: at a character outside the class, or where y begins. */
  lemma RunEndAppend(s: string, y: string, a: nat, k: Class)
    requires Stops(y) && a <= |s|
    ensures RunEnd(s + y, a, k) == RunEnd(s, a, k)
  {
    var t, e := s + y, RunEnd(s, a, k);
    forall i | a <= i < e
      ensures InClass(t[i], k)
    {
      assert t[i] == s[i];
    }
    if e < |t| {
      if e < |s| {
        assert t[e] == s[e];
      } else {
        assert t[e] == y[0];
      }
    }
    RunEndUnique(t, a, e, k);
  }

  lemma {:induction false} DotInAppend(s: string, y: string, a: nat, b: nat)
    requires a <= b <= |s|
    ensures DotIn(s + y, a, b) == DotIn(s, a, b)
    decreases b
  {
    if a < b {
      DotInAppend(s, y, a, b - 1);
      assert (s + y)[b - 1] == s[b - 1];
    }
  }

  /** A '.' or '0' at the end of s sets the flag alike whether s ends there or y follows. */
  lemma {:induction false} FlagUpToAppend(s: string, y: string, start: nat, k: nat)
    requires Stops(y) && start < k <= |s|
    ensures FlagUpTo(s + y, start, k) == FlagUpTo(s, start, k)
    decreases k
  {
    var t := s + y;
    assert t[start] == s[start];
    if k == start + 1 {
      if start + 1 < |s| {
        assert t[start + 1] == s[start + 1];
      } else if start + 1 < |t| {
        assert t[start + 1] == y[0];
      }
    } else {
      var i := k - 1;
      FlagUpToAppend(s, y, start, i);
      DotInAppend(s, y, start + 1, i);
      assert t[i] == s[i] && t[i - 1] == s[i - 1];
      if i + 1 < |s| {
        assert t[i + 1] == s[i + 1];
      } else if i + 1 < |t| {
        assert t[i + 1] == y[0];
      }
    }
  }

  lemma ScanNumberAppend(s: string, y: string, p: nat)
    requires Stops(y) && p < |s| && (IsDigit(s[p]) || s[p] == '.')
    ensures (s + y)[p] == s[p]
    ensures ScanNumber(s + y, p) == ScanNumber(s, p)
  {
    var t, end := s + y, RunEnd(s, p + 1, NumberChars);
    assert t[p] == s[p];
    RunEndAppend(s, y, p + 1, NumberChars);
    FlagUpToAppend(s, y, p, end);
    assert t[p..end] == s[p..end];
    assert t[end - 1] == s[end - 1];
  }

  lemma ScanIdAppend(s: string, y: string, p: nat)
    requires Stops(y) && p < |s| && IsChar(s[p])
    ensures (s + y)[p] == s[p]
    ensures ScanId(s + y, p) == ScanId(s, p)
  {
    var t, end := s + y, RunEnd(s, p + 1, IdChars);
    assert t[p] == s[p];
    RunEndAppend(s, y, p + 1, IdChars);
    assert t[p..end] == s[p..end];
  }

  /** Read inside s is unchanged by a y that cannot continue its token. */
  lemma NextTokenAppend(s: string, y: string, k: nat)
    requires Stops(y) && k <= |s| && SkipSpaces(s, k) < |s|
    ensures NextToken(s + y, k) == NextToken(s, k)
  {
    SkipSpacesAppend(s, y, k);
    var p := SkipSpaces(s, k);
    assert (s + y)[p] == s[p];
    if IsDigit(s[p]) || s[p] == '.' {
      ScanNumberAppend(s, y, p);
    } else if IsChar(s[p]) {
      ScanIdAppend(s, y, p);
    }
  }

  /** Once only whitespace is left in s, the tokens from k on are those of y. */
  lemma BlankRestAppend(s: string, y: string, k: nat)
    requires k <= |s| && SkipSpaces(s, k) >= |s|
    ensures SameTokens(s + y, k, y, 0)
  {
    SkipSpacesAppend(s, y, k);
    SkipSpacesAppend(s, y, |s|);
    SameStop(s + y, k, |s|);
    TokenizeFromShift(s, y, 0);
  }

  /** Two cursors that skip whitespace to the same place read the same tokens. */
  lemma SameStop(t: string, a: nat, b: nat)
    requires SkipSpaces(t, a) == SkipSpaces(t, b)
    ensures SameTokens(t, a, t, b)
  {
    assert NextToken(t, a) == NextToken(t, b);
  }

  /** The token list from k is the token Read returns there, then the list from where it stops. */
  lemma TokenizeFromStep(s: string, k: nat)
    requires NextToken(s, k).0.kind != End
    ensures TokenizeFrom(s, k) == [NextToken(s, k).0] + TokenizeFrom(s, NextToken(s, k).1)
  {
  }

  /** One token of s read with y behind it: if the rest of the lists agree, so do the lists. */
  lemma AppendStep(s: string, y: string, k: nat)
    requires Stops(y) && k <= |s| && NextToken(s, k).0.kind != End
    requires TokenizeFrom(s + y, NextToken(s, k).1) == TokenizeFrom(s, NextToken(s, k).1) + Tokenize(y)
    ensures TokenizeFrom(s + y, k) == TokenizeFrom(s, k) + Tokenize(y)
  {
    var r := NextToken(s, k);
    NextTokenAppend(s, y, k);
    TokenizeFromStep(s + y, k);
    TokenizeFromStep(s, k);
    ConsAppend(r.0, TokenizeFrom(s, r.1), Tokenize(y));
  }

  lemma ConsAppend<T>(h: T, rest: seq<T>, tail: seq<T>)
    ensures [h] + (rest + tail) == [h] + rest + tail
  {
  }

  lemma {:induction false} TokenizeFromAppend(s: string, y: string, k: nat)
    requires Stops(y) && k <= |s|
    ensures TokenizeFrom(s + y, k) == TokenizeFrom(s, k) + Tokenize(y)
    decreases |s| - k
  {
    var r := NextToken(s, k);
    if r.0.kind == End {
      BlankRestAppend(s, y, k);
      assert TokenizeFrom(s, k) == [];
    } else {
      TokenizeFromAppend(s, y, r.1);
      AppendStep(s, y, k);
    }
  }

  /** Two texts read one after the other give the tokens of the first, then those of the second,
      when the second cannot continue the first's last token. */
  lemma TokenizeAppend(x: string, y: string)
    requires Stops(y)
    ensures Tokenize(x + y) == Tokenize(x) + Tokenize(y)
  {
    TokenizeFromAppend(x, y, 0);
  }

  /** Whitespace after the input does not change its tokens. */
  lemma TrailingSpaces(s: string, ws: string)
    requires AllSpaces(ws)
    ensures Tokenize(s + ws) == Tokenize(s)
  {
    TokenizeAppend(s, ws);
    NoTokens(ws);
  }

  /** Whitespace on both sides does not change the tokens. */
  lemma SurroundingSpaces(before: string, s: string, after: string)
    requires AllSpaces(before) && AllSpaces(after)
    ensures Tokenize(before + s + after) == Tokenize(s)
  {
    assert before + s + after == before + (s + after);
    LeadingSpaces(before, s + after);
    TrailingSpaces(s, after);
  }

  // ---- Reading a text token by token ----

  /** When the first token of x + y is exactly x, the rest of the list is the tokens of y. */
  lemma FirstToken(x: string, y: string, t: Token)
    requires NextToken(x + y, 0) == (t, |x|) && t.kind != End
    ensures Tokenize(x + y) == [t] + Tokenize(y)
  {
    TokenizeFromShift(x, y, 0);
  }

  /** Only whitespace has no tokens. */
  lemma NoTokens(ws: string)
    requires AllSpaces(ws)
    ensures Tokenize(ws) == []
  {
    CalcProps.EndIffOnlySpaces(ws, 0);
  }

  /** An operator or bracket character in front is its own bare token. */
  lemma OperatorFirst(c: char, y: string)
    requires OperatorKind(c).Some?
    ensures Tokenize([c] + y) == [Bare(OperatorKind(c).value)] + Tokenize(y)
  {
    var s := [c] + y;
    assert s[0] == c;
    assert SkipSpaces(s, 0) == 0;
    FirstToken([c], y, Bare(OperatorKind(c).value));
  }

  /** A number literal in front, not followed by a number character, is a Number token. */
  lemma NumberFirst(x: string, y: string)
    requires |x| > 0 && IsDigit(x[0]) && IsNumberLiteral(x)
    requires |y| == 0 || !IsNumberChar(y[0])
    ensures Tokenize(x + y) == [Token(Number, Some(x))] + Tokenize(y)
  {
    var s := x + y;
    assert s[0..|x|] == x && s[0] == x[0];
    if |x| < |s| {
      assert s[|x|] == y[0];
    }
    LiteralToken(s, 0, |x|);
    assert SkipSpaces(s, 0) == 0;
    FirstToken(x, y, Token(Number, Some(x)));
  }

  /** A run of number characters in front that is not a number literal is an Error token
      carrying the whole run. */
  lemma NumberErrorFirst(x: string, y: string)
    requires |x| > 0 && (IsDigit(x[0]) || x[0] == '.')
    requires forall i :: 0 < i < |x| ==> IsNumberChar(x[i])
    requires |y| == 0 || !IsNumberChar(y[0])
    requires !IsNumberLiteral(x)
    ensures Tokenize(x + y) == [Token(Error, Some(x))] + Tokenize(y)
  {
    var s := x + y;
    assert s[0..|x|] == x && s[0] == x[0];
    forall i | 1 <= i < |x|
      ensures InClass(s[i], NumberChars)
    {
      assert s[i] == x[i];
    }
    if |x| < |s| {
      assert s[|x|] == y[0];
    }
    RunEndUnique(s, 1, |x|, NumberChars);
    CalcProps.NumberValidIffLiteral(s, 0);
    assert SkipSpaces(s, 0) == 0;
    FirstToken(x, y, Token(Error, Some(x)));
  }

  /** An identifier in front, not followed by a letter or digit, is an Id token. */
  lemma IdFirst(x: string, y: string)
    requires |x| > 0 && IsChar(x[0])
    requires forall i :: 0 < i < |x| ==> IsIdChar(x[i])
    requires |y| == 0 || !IsIdChar(y[0])
    ensures Tokenize(x + y) == [Token(Id, Some(x))] + Tokenize(y)
  {
    var s := x + y;
    assert s[0..|x|] == x && s[0] == x[0];
    forall i | 1 <= i < |x|
      ensures InClass(s[i], IdChars)
    {
      assert s[i] == x[i];
    }
    if |x| < |s| {
      assert s[|x|] == y[0];
    }
    RunEndUnique(s, 1, |x|, IdChars);
    assert SkipSpaces(s, 0) == 0;
    FirstToken(x, y, Token(Id, Some(x)));
  }

  /** A number literal on its own reads as that one Number. */
  lemma NumberAlone(x: string)
    requires |x| > 0 && IsDigit(x[0]) && IsNumberLiteral(x)
    ensures Tokenize(x) == [Token(Number, Some(x))]
  {
    NumberFirst(x, "");
    assert x + "" == x;
  }

  /** A run of number characters on its own that is not a literal reads as one Error. */
  lemma NumberErrorAlone(x: string)
    requires |x| > 0 && (IsDigit(x[0]) || x[0] == '.')
    requires forall i :: 0 < i < |x| ==> IsNumberChar(x[i])
    requires !IsNumberLiteral(x)
    ensures Tokenize(x) == [Token(Error, Some(x))]
  {
    NumberErrorFirst(x, "");
    assert x + "" == x;
  }

  /** An identifier on its own reads as that one Id. */
  lemma IdAlone(x: string)
    requires |x| > 0 && IsChar(x[0])
    requires forall i :: 0 < i < |x| ==> IsIdChar(x[i])
    ensures Tokenize(x) == [Token(Id, Some(x))]
  {
    IdFirst(x, "");
    assert x + "" == x;
  }

  /** A number literal that starts with a digit and ends where the number characters end
      is read as that Number. */
  lemma LiteralToken(s: string, a: nat, b: nat)
    requires a < b <= |s| && IsDigit(s[a]) && IsNumberLiteral(s[a..b])
    requires b == |s| || !IsNumberChar(s[b])
    ensures ScanNumber(s, a) == (Token(Number, Some(s[a..b])), b)
  {
    var d := LiteralShape(s, a, b);
    RunEndUnique(s, a + 1, b, NumberChars);
    CalcProps.LiteralIsNumber(s, a);
  }
}
