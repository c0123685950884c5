/** The earlier snapshot's scanner as the source writes it: a cursor advanced in place by
    Read, SkipSpaces and ReadNumber, whose three copy loops share the helper ReadRun. */
module SnapshotLexer {
  import opened Tokens
  import opened CharClass
  import opened SnapshotSpec

  class CalcLexer {
    /** The input buffer, never modified. */
    const sources: string
    /** The scan cursor. */
    var position: nat

    constructor (sources: string)
      ensures this.sources == sources && position == 0
    {
      this.sources := sources;
      position := 0;
    }

    /** Returns the next token and advances the cursor past it. */
    method Read() returns (t: Token)
      modifies this
      ensures (t, position) == NextToken(sources, old(position))
    {
      SkipSpaces();
      if position >= |sources| {
        return Bare(End);
      }
      var next := sources[position];
      position := position + 1;
      match next {
        case '+' => return Bare(Plus);
        case '-' => return Bare(Minus);
        case '*' => return Bare(Asterisk);
        case '/' => return Bare(Slash);
        case '(' => return Bare(OpenBracket);
        case ')' => return Bare(CloseBracket);
        case _ =>
      }
      if IsDigit(next) {
        t := ReadNumber(next);
        return;
      }
      return Bare(Error);
    }

    /** Moves the cursor over ' ', '\t' and '\n'. */
    method SkipSpaces()
      modifies this
      ensures position == CharClass.SkipSpaces(sources, old(position))
    {
      while position < |sources| && IsSpace(sources[position])
        invariant CharClass.SkipSpaces(sources, position) == CharClass.SkipSpaces(sources, old(position))
        decreases |sources| - position
      {
        position := position + 1;
      }
    }

    /** Appends to value, the text read since from, every character of class k from the
        cursor on, advancing the cursor past them: one `while (...) { value += ch; ++m_position; }`
        loop of ReadNumber. */
    method ReadRun(value: string, k: Class, ghost from: nat) returns (v: string)
      requires from <= position <= |sources| && value == sources[from..position]
      modifies this
      ensures position == RunEnd(sources, old(position), k)
      ensures v == sources[from..position]
    {
      v := value;
      while position < |sources| && InClass(sources[position], k)
        invariant old(position) <= position <= |sources|
        invariant v == sources[from..position]
        invariant RunEnd(sources, position, k) == RunEnd(sources, old(position), k)
        decreases |sources| - position
      {
        SliceExtend(sources, from, position);
        v := v + [sources[position]];
        position := position + 1;
      }
    }

    /** Reads the rest of a number whose digit head was just consumed: more digits, then,
        after a '.', the fraction as ReadFraction reads it. */
    method ReadNumber(head: char) returns (t: Token)
      requires 0 < position <= |sources| && sources[position - 1] == head
      requires IsDigit(head)
      modifies this
      ensures (t, position) == ScanNumber(sources, old(position) - 1)
    {
      ghost var start := position - 1;
      var value := [head];
      var wasError := false;
      if head == '0' && position < |sources| && IsDigit(sources[position]) {
        wasError := true;
      }
      ghost var leadingZero := wasError;
      value := ReadRun(value, Digits, start);
      if position < |sources| && sources[position] == '.' {
        ghost var dot := position;
        SliceExtend(sources, start, dot);
        value := value + [sources[position]];
        position := position + 1;
        value, wasError := ReadFraction(value, wasError, start);
        NumberEndFraction(sources, start, dot);
      } else {
        NumberEndInteger(sources, start, position);
      }
      if value[|value| - 1] == '.' {
        wasError := true;
      }
      ScanNumberEnd(sources, start, position, value, wasError, leadingZero);
      if wasError {
        t := Token(Error, Some(value));
      } else {
        t := Token(Number, Some(value));
      }
    }

    /** The fraction after the first '.': its digits, then, after a second '.', every digit
        and dot, with that second '.' setting the error flag. */
    method ReadFraction(value: string, wasError: bool, ghost from: nat) returns (v: string, error: bool)
      requires from < position <= |sources| && sources[position - 1] == '.'
      requires value == sources[from..position]
      modifies this
      ensures position == FractionEnd(sources, old(position) - 1).0
      ensures error == (wasError || FractionEnd(sources, old(position) - 1).1)
      ensures v == sources[from..position]
    {
      error := wasError;
      v := ReadRun(value, Digits, from);
      if position < |sources| && sources[position] == '.' {
        error := true;
        v := ReadRun(v, DigitsOrDots, from);
      }
    }
  }

  /** With no '.' after the integer digits, the scan ends where they do. */
  lemma NumberEndInteger(s: string, start: nat, intEnd: nat)
    requires start < |s| && intEnd == RunEnd(s, start + 1, Digits)
    requires !(intEnd < |s| && s[intEnd] == '.')
    ensures NumberEnd(s, start) == (intEnd, false)
  {
  }

  /** With a '.' after the integer digits, the scan ends where the fraction scan does. */
  lemma NumberEndFraction(s: string, start: nat, dot: nat)
    requires start < |s| && dot == RunEnd(s, start + 1, Digits)
    requires dot < |s| && s[dot] == '.'
    ensures NumberEnd(s, start) == FractionEnd(s, dot)
  {
  }

  /** Appending the next character to a slice extends it by one. */
  lemma SliceExtend(s: string, a: nat, b: nat)
    requires a <= b < |s|
    ensures s[a..b + 1] == s[a..b] + [s[b]]
  {
  }

  /** Where the runs stop, the text they read and the flag they leave determine the token. */
  lemma ScanNumberEnd(s: string, start: nat, end: nat, value: string, error: bool, leadingZero: bool)
    requires start < |s| && IsDigit(s[start])
    requires leadingZero == (s[start] == '0' && start + 1 < |s| && IsDigit(s[start + 1]))
    requires end == NumberEnd(s, start).0 && value == s[start..end]
    requires error == (leadingZero || NumberEnd(s, start).1 || value[|value| - 1] == '.')
    ensures ScanNumber(s, start) == (Token(if error then Error else Number, Some(value)), end)
  {
    assert value[|value| - 1] == s[end - 1];
  }
}
