/** The current hand-written scanner as the source writes it: a cursor over an immutable
    buffer, advanced in place by Read and its helpers. */
module CalcLexer {
  import opened Tokens
  import opened CharClass
  import opened CalcSpec

  class CalcLexer {
    /** The input buffer, never modified. */
    const sources: string
    /** The scan cursor. */
    var position: nat

    constructor (sources: string)
      ensures this.sources == sources && position == 0
    {
      this.sources := sources;
      position := 0;
    }

    /** Returns the next token and advances the cursor past it. */
    method Read() returns (t: Token)
      modifies this
      ensures (t, position) == NextToken(sources, old(position))
    {
      SkipSpaces();
      if position >= |sources| {
        return Bare(End);
      }
      var next := sources[position];
      position := position + 1;
      match next {
        case '+' => return Bare(Plus);
        case '-' => return Bare(Minus);
        case '*' => return Bare(Asterisk);
        case '/' => return Bare(Slash);
        case '=' => return Bare(Equal);
        case '(' => return Bare(OpenBracket);
        case ')' => return Bare(CloseBracket);
        case _ =>
      }
      if IsDigit(next) || next == '.' {
        t := ReadNumber(next);
        return;
      }
      if IsChar(next) {
        t := ReadId(next);
        return;
      }
      return Bare(Error);
    }

    /** Moves the cursor over ' ', '\t' and '\n'. */
    method SkipSpaces()
      modifies this
      ensures position == CharClass.SkipSpaces(sources, old(position))
    {
      while position < |sources| && IsSpace(sources[position])
        invariant CharClass.SkipSpaces(sources, position) == CharClass.SkipSpaces(sources, old(position))
        decreases |sources| - position
      {
        position := position + 1;
      }
    }

    /** Reads the rest of a number whose head was just consumed: every following digit, '.'
        and letter, with a sticky error flag. */
    method ReadNumber(head: char) returns (t: Token)
      requires 0 < position <= |sources| && sources[position - 1] == head
      requires IsDigit(head) || head == '.'
      modifies this
      ensures (t, position) == ScanNumber(sources, old(position) - 1)
    {
      ghost var start := position - 1;
      var value := [head];
      var wasError := false;
      var wasDot := false;

      wasError := wasError || head == '.';
      wasError := wasError || (
        head == '0'
        && position < |sources|
        && (IsDigit(sources[position]) || IsChar(sources[position])));

      ghost var end := RunEnd(sources, start + 1, NumberChars);
      while position < |sources| && (IsDigit(sources[position]) || sources[position] == '.' || IsChar(sources[position]))
        invariant start < position <= end
        invariant value == sources[start..position]
        invariant wasDot == DotIn(sources, start + 1, position)
        invariant wasError == FlagUpTo(sources, start, position)
        decreases |sources| - position
      {
        var currentChar := sources[position];
        NumberLoopStep(sources, start, position, value, wasDot, wasError);
        if !wasError {
          wasError := wasError || IsChar(currentChar);
          wasError := wasError || (currentChar == '.' && (
            wasDot ||
            !IsDigit(sources[position - 1]) ||
            position + 1 >= |sources| ||
            !IsDigit(sources[position + 1])));
        }
        wasDot := wasDot || currentChar == '.';
        value := value + [currentChar];
        position := position + 1;
      }
      wasError := wasError || value[|value| - 1] == '.';
      ScanNumberEnd(sources, start, position, value, wasError);
      if wasError {
        t := Token(Error, Some(value));
      } else {
        t := Token(Number, Some(value));
      }
    }

    /** Reads the rest of an identifier whose head was just consumed. */
    method ReadId(head: char) returns (t: Token)
      requires 0 < position <= |sources| && sources[position - 1] == head
      requires IsChar(head)
      modifies this
      ensures (t, position) == ScanId(sources, old(position) - 1)
    {
      ghost var start := position - 1;
      var value := [head];
      while position < |sources| && (IsChar(sources[position]) || IsDigit(sources[position]))
        invariant start < position <= |sources|
        invariant value == sources[start..position]
        invariant forall i :: start < i < position ==> IsIdChar(sources[i])
        decreases |sources| - position
      {
        value := value + [sources[position]];
        position := position + 1;
      }
      RunEndUnique(sources, start + 1, position, IdChars);
      t := Token(Id, Some(value));
    }
  }

  /** One iteration of the number loop: the text grows by the character at k, the dot tracker
      and the sticky flag take their next values, and the run still ends at the same place. */
  lemma NumberLoopStep(s: string, start: nat, k: nat, value: string, wasDot: bool, wasError: bool)
    requires start < k < |s| && IsNumberChar(s[k])
    requires value == s[start..k] && wasDot == DotIn(s, start + 1, k) && wasError == FlagUpTo(s, start, k)
    ensures value + [s[k]] == s[start..k + 1]
    ensures (wasDot || s[k] == '.') == DotIn(s, start + 1, k + 1)
    ensures FlagUpTo(s, start, k + 1) == (wasError || IsChar(s[k]) || (s[k] == '.' && (
      wasDot || !IsDigit(s[k - 1]) || k + 1 >= |s| || !IsDigit(s[k + 1]))))
  {
  }

  /** Where the number loop stops, the text it read and the flag it leaves determine the token. */
  lemma ScanNumberEnd(s: string, start: nat, end: nat, value: string, error: bool)
    requires start < |s| && (IsDigit(s[start]) || s[start] == '.')
    requires start < end == RunEnd(s, start + 1, NumberChars) && value == s[start..end]
    requires error == (FlagUpTo(s, start, end) || value[|value| - 1] == '.')
    ensures ScanNumber(s, start) == (Token(if error then Error else Number, Some(value)), end)
  {
    assert value[|value| - 1] == s[end - 1];
  }

  /** The tests' driver: reads tokens from a fresh scanner until End. */
  method Tokenize(text: string) returns (tokens: seq<Token>)
    ensures tokens == CalcSpec.Tokenize(text)
  {
    tokens := [];
    var lexer := new CalcLexer(text);
    ghost var from: nat := 0;
    var token := lexer.Read();
    while token.kind != End
      invariant fresh(lexer) && lexer.sources == text
      invariant from <= |text|
      invariant (token, lexer.position) == NextToken(text, from)
      invariant tokens + TokenizeFrom(text, from) == CalcSpec.Tokenize(text)
      decreases |text| - from
    {
      tokens := tokens + [token];
      from := lexer.position;
      token := lexer.Read();
    }
  }
}
