# Calculator lexer, modelled and proved in Dafny

This project models the hand-written lexer of a calculator language: identifiers, numbers
with an optional fraction, `+ - * / =`, and round brackets. There are two versions of the
scanner.

- **The current scanner** (`01-manual-lexer/ManualLexer/CalcLexer.cpp`). It skips ' ', '\t'
  and '\n'. At the end of input it returns `TT_END`. Each operator or bracket becomes a
  text-less token. A digit or '.' starts a number scan, and '_' or a letter other than 'z'
  and 'Z' (see "Letters stop before 'z'" below) starts an identifier scan. Any other
  character is a text-less `TT_ERROR`. "Letter" below means such a letter or '_'.
  - The number scan takes the head plus the maximal run of digits, dots and letters.
  - A sticky flag turns the number into `TT_ERROR`. It is set by a head '.', a head '0'
    followed by a digit or letter, a letter, or a '.' that is a second dot or does not sit
    between two digits. A trailing '.' also sets it.
- **An earlier snapshot** (`01-manual-lexer/ManualLexer/ManualLexer/CalcLexer.cpp`). It has
  no identifiers and no '='. Its number scan runs three loops in sequence: the digits, then
  after a '.' the fraction digits, then after a second '.' every digit and dot. A leading
  zero before a digit, the second dot and a trailing dot make the number an error.
- **The token data model** both scanners share
  (`01-manual-lexer/ManualLexer/ManualLexer/Token.h`).
- **The automaton lexer's token constructors** (`02-auto-lexer/AutoLexer/Token.h`).
  `Token(TokenType, str)` keeps the kind and the text, whatever the kind. `Token(size_t, str)`
  maps a rule number to a kind and keeps the text only when that kind is a number, an
  identifier or an error. `Token(TokenType)` has no text.

Each scanner is a class `CalcLexer` with the input as a constant `sources` and the cursor as
a mutable `position`. Its methods `Read`, `SkipSpaces`, `ReadNumber` and `ReadId` update the
cursor in the same loops as the source. Each method is proved against a pure function of the
input and the old cursor:

- `CalcSpec.NextToken` and `SnapshotSpec.NextToken` give the token and the new cursor;
- `CalcSpec.ScanNumber` and `CalcSpec.ScanId` model the sub-scanners.

The properties are then proved about those functions:

- End exactly when only whitespace remains, and End is stable;
- the cursor strictly advances;
- token text is the consumed slice;
- Read dispatches on the first non-blank character, and conversely each kind of token comes
  only from its own kind of head;
- each error condition, all of them and only them;
- a number is valid exactly when its text matches `(0|[1-9][0-9]*)(\.[0-9]+)?`
  (`NumberSyntax.IsNumberLiteral`), which is also the character-by-character reading
  `NumberSyntax.LiteralChars`.

For the current scanner, the token list of a whole input (`CalcSpec.Tokenize`, the reading
loop of the test suite's helper) is related to the text around it:

- whitespace before, after or around an input leaves its token list unchanged
  (`CalcSpacing.LeadingSpaces`, `TrailingSpaces`, `SurroundingSpaces`);
- the tokens of `x + y` are the tokens of `x` followed by those of `y`, provided `y` is empty or
  starts with a character that no number or identifier scan consumes (`CalcSpacing.TokenizeAppend`).

The test suite (`01-manual-lexer/ManualLexer/ManualLexerTests/CalcLexerTests.cpp`) checks 67
inputs, 66 of them distinct ("0" appears at lines 76 and 223). The expected token lists of all
66 are proved as lemmas of `LexerExamples`, one per input; the rows below name each one and its
lines. The two long statements at lines 332-342 and 343-357 are proved part by part: each is cut
at blanks and operators into short parts, and `CalcSpacing.TokenizeAppend` joins the parts'
lists. The two malformed number lexemes of the second, "8.ab" and "5abc", are also proved on
their own. The snapshot has no tests of its own; `SnapshotExamples` works two inputs from its
code where it differs from the current scanner.

Modules:

- `Tokens`: the token kinds and tokens;
- `CharClass`: the character tests and the whitespace and run scans;
- `NumberSyntax`: the number-literal grammar;
- `CalcSpec`, `CalcProps` and `CalcLexer`: the current scanner;
- `CalcSpacing`: the current scanner's token lists under whitespace and concatenation;
- `SnapshotSpec`, `SnapshotProps` and `SnapshotLexer`: the snapshot;
- `AutoToken`: the automaton lexer's token;
- `LexerExamples` and `SnapshotExamples`: the test vectors.

Points where the model follows the code exactly:

- **Letters stop before 'z'.** `IsChar` compares with strict `<` against 'z' and 'Z', so
  those two letters are not letters to the scanner and read as a text-less `TT_ERROR`
  (`CalcProps.LastLettersUnrecognised`, `CharClass.LetterCases`). The model keeps that
  comparison.
- **An unrecognised character has no text.** It yields `Token{ TT_ERROR }`, while number
  errors carry their text. Both cases are modelled as written.

Modelling choices:

- **Renamed operator kinds.** The snapshot names its '*' and '/' kinds `TT_MULTIPLICATION`
  and `TT_DIVISION`, which its `Token.h` does not declare. The model renames them to
  `Asterisk` and `Slash`, the kinds `Token.h` declares for those characters.
- **Where the cursor starts.** The constructor (`CalcLexer.cpp:53-56`) sets only the input.
  The header that declares the cursor member, and any initial value it gives it, is not
  available, so the starting value is an assumption: the model's constructor sets the
  cursor to 0. The test suite's expected lists support it, since each of them reads the
  input from its first character.

## Model

| member | source | states |
|---|---|---|
| Tokens.TokenType.Ordinal | 01-manual-lexer/ManualLexer/ManualLexer/Token.h:9-22 | the enumerator values are 0..10, and only TT_END has value 0 |
| Tokens.FromOrdinal | 01-manual-lexer/ManualLexer/ManualLexer/Token.h:9-22 | every value 0..10 is the value of some kind |
| Tokens.OrdinalInjective | 01-manual-lexer/ManualLexer/ManualLexer/Token.h:9-22 | distinct kinds have distinct values, and the value maps back to its kind, so there are exactly eleven kinds |
| Tokens.TokenType.CarriesText | 02-auto-lexer/AutoLexer/Token.h:42-45 | the kinds whose tokens keep their text: Number, Id and Error (a definition; `AutoToken.FromId` and `AutoToken.FromIdOrdinal` state its use) |
| Tokens.Bare | 01-manual-lexer/ManualLexer/ManualLexer/Token.h:24-28 | `Token{ kind }` has that kind and no text |
| Tokens.DefaultToken | 01-manual-lexer/ManualLexer/ManualLexer/Token.h:26-27 | a default token has kind value 0 (TT_END) and no text |
| Tokens.SameToken | 01-manual-lexer/ManualLexer/ManualLexerTests/CalcLexerTests.cpp:10-13 | two tokens compare equal exactly when they have the same kind and the same optional text |
| Tokens.DisplayName | 01-manual-lexer/ManualLexer/ManualLexerTests/CalcLexerTests.cpp:15-43 | every kind has a non-empty display name |
| Tokens.DisplayNameInjective | 01-manual-lexer/ManualLexer/ManualLexerTests/CalcLexerTests.cpp:15-43 | no two kinds share a display name |
| CharClass.IsDigit | 01-manual-lexer/ManualLexer/CalcLexer.cpp:7-28 | the digit test (a definition; `CharClass.DigitCases` states that it accepts the ten characters of the switch) |
| CharClass.DigitCases | 01-manual-lexer/ManualLexer/CalcLexer.cpp:7-28 | a character is a digit exactly when it is one of '0' .. '9', the ten cases of the switch |
| CharClass.IsSpace | 01-manual-lexer/ManualLexer/CalcLexer.cpp:29-43 | the whitespace test (a definition; `CharClass.SpaceCases` states what it accepts) |
| CharClass.SpaceCases | 01-manual-lexer/ManualLexer/CalcLexer.cpp:29-43 | a character is whitespace exactly when it is ' ', '\t' or '\n', the three cases of the switch |
| CharClass.IsChar | 01-manual-lexer/ManualLexer/CalcLexer.cpp:44-50 | the letter test with the source's strict upper bounds (a definition; `CharClass.LetterCases` states what it accepts) |
| CharClass.LetterCases | 01-manual-lexer/ManualLexer/CalcLexer.cpp:44-50 | a character passes the letter test exactly when it is '_' or a letter of a-z or A-Z other than 'z' and 'Z' |
| CharClass.IsNumberChar | 01-manual-lexer/ManualLexer/CalcLexer.cpp:138 | the condition of the number loop: a digit, '.', or a letter (a definition; `CalcSpec.ScanNumber` and `CalcProps.TextTokenClass` state the maximal run it bounds) |
| CharClass.IsIdChar | 01-manual-lexer/ManualLexer/CalcLexer.cpp:175 | the condition of the identifier loop: a letter or a digit (a definition; `CalcSpec.ScanId` states the maximal run it bounds) |
| CharClass.IsDigitOrDot | 01-manual-lexer/ManualLexer/ManualLexer/CalcLexer.cpp:138 | the condition of the snapshot's last loop: a digit or '.' (a definition; `SnapshotSpec.FractionEnd` states the run it bounds) |
| CharClass.SkipSpaces | 01-manual-lexer/ManualLexer/CalcLexer.cpp:111-118 | the skip stops at the first non-whitespace character at or after the cursor, or at the end of input |
| CharClass.RunEnd | 01-manual-lexer/ManualLexer/CalcLexer.cpp:138-154 | a scan loop stops at the end of the maximal run of its character class |
| CharClass.RunEndUnique | 01-manual-lexer/ManualLexer/CalcLexer.cpp:175-179 | any position that ends a maximal run is the run's end |
| CharClass.SkipSpacesUnique | 01-manual-lexer/ManualLexer/CalcLexer.cpp:114-117 | any position that ends the maximal whitespace run is where the skip stops |
| NumberSyntax.IsIntegerPart | 02-auto-lexer/AutoLexer/AutoLexer.cpp:11 | `0|[1-9][0-9]*` (a definition; `NumberSyntax.IntegerPartAt` states it in place) |
| NumberSyntax.IsNumberLiteral | 02-auto-lexer/AutoLexer/AutoLexer.cpp:11 | the number rule `(0|[1-9][0-9]*)(\.[0-9]+)?` (a definition; `NumberSyntax.LiteralIff` gives its character-by-character reading) |
| NumberSyntax.AllDigitsAt | 02-auto-lexer/AutoLexer/AutoLexer.cpp:11 | a slice is all digits exactly when each of its characters is a digit |
| NumberSyntax.IntegerPartAt | 02-auto-lexer/AutoLexer/AutoLexer.cpp:11 | a slice is an integer part exactly when it is non-empty, all digits, and a '0' head stands alone |
| NumberSyntax.LiteralShape | 02-auto-lexer/AutoLexer/AutoLexer.cpp:11 | a number literal splits into an integer part and, optionally, a '.' with a non-empty digit fraction |
| NumberSyntax.ShapeIsLiteral | 02-auto-lexer/AutoLexer/AutoLexer.cpp:11 | a slice of that shape is a number literal |
| NumberSyntax.LiteralIff | 02-auto-lexer/AutoLexer/AutoLexer.cpp:11 | a text is a number literal exactly when it is non-empty, starts and ends with a digit, holds only digits and at most one '.', and a leading '0' is alone or followed by the '.' |
| CalcSpec.OperatorKind | 01-manual-lexer/ManualLexer/CalcLexer.cpp:78-96 | the seven operator and bracket characters map to kinds among `+` .. `)`, never End, Error, Number or Id |
| CalcSpec.HeadError | 01-manual-lexer/ManualLexer/CalcLexer.cpp:132-136 | the flag set before the loop: a head '.', or a head '0' with a digit or letter after it (a definition; `CalcProps.FlagUpToExists` and `CalcProps.NumberErrorIff` state its role) |
| CalcSpec.BadAt | 01-manual-lexer/ManualLexer/CalcLexer.cpp:141-150 | whether consuming one character sets the flag: a letter, or a '.' that follows a dot, has no digit before it, or has no digit after it (a definition; `CalcProps.FlagUpToExists` and `CalcProps.NumberErrorIff` state its role) |
| CalcSpec.DotIn | 01-manual-lexer/ManualLexer/CalcLexer.cpp:151 | whether a '.' lies in a slice: the wasDot flag (a definition; `CalcProps.DotInIff` states it) |
| CalcSpec.FlagUpTo | 01-manual-lexer/ManualLexer/CalcLexer.cpp:138-154 | the wasError flag after a prefix of the loop (a definition; `CalcProps.FlagUpToExists` and `CalcProps.FlagStays` state what it means) |
| CalcSpec.ScanNumber | 01-manual-lexer/ManualLexer/CalcLexer.cpp:120-164 | the number scan consumes the head and the maximal run of digits, dots and letters; the token is Number or Error and carries exactly that slice |
| CalcSpec.ScanId | 01-manual-lexer/ManualLexer/CalcLexer.cpp:166-181 | the identifier scan always yields Id, with the head and the maximal run of letters and digits |
| CalcSpec.NextToken | 01-manual-lexer/ManualLexer/CalcLexer.cpp:58-109 | Read returns End exactly when no non-blank character remains; otherwise it advances the cursor; the text is the slice from the first non-blank character to the new cursor; a text-less token consumes one character |
| CalcSpec.TokenizeFrom | 01-manual-lexer/ManualLexer/ManualLexerTests/CalcLexerTests.cpp:62-71 | the loop that calls Read until End terminates, and End is never in its list |
| CalcSpec.Tokenize | 01-manual-lexer/ManualLexer/ManualLexerTests/CalcLexerTests.cpp:62-71 | the test helper: the token list of an input read from cursor 0 until End (a definition; the `CalcSpacing` lemmas and the `LexerExamples` state its values) |
| CalcProps.EndIffOnlySpaces | 01-manual-lexer/ManualLexer/CalcLexer.cpp:68-73 | End exactly when only ' ', '\t', '\n' remain; the cursor is then at the input length, and a further Read returns End again at the same place |
| CalcProps.OperatorTokens | 01-manual-lexer/ManualLexer/CalcLexer.cpp:78-93 | each of `+ - * / = ( )` yields its own kind, without text, after one character |
| CalcProps.BareErrorIffUnrecognised | 01-manual-lexer/ManualLexer/CalcLexer.cpp:98-108 | a text-less Error comes back exactly when the first non-blank character is not an operator, digit, '.' or letter, and then one character is consumed |
| CalcProps.LastLettersUnrecognised | 01-manual-lexer/ManualLexer/CalcLexer.cpp:44-50 | 'z' and 'Z' yield a text-less Error after one character |
| CalcProps.TextTokenClass | 01-manual-lexer/ManualLexer/CalcLexer.cpp:98-106 | a token with text is an Id exactly when the head is a letter, and a Number or Error exactly when the head is a digit or '.', each with its maximal run |
| CalcProps.HeadDispatch | 01-manual-lexer/ManualLexer/CalcLexer.cpp:75-106 | when a non-blank character remains at p, an operator or bracket there yields its bare kind with the cursor at p + 1, a digit or '.' yields ScanNumber at p, and a letter yields ScanId at p |
| CalcProps.BareOperatorOnlyFromOperator | 01-manual-lexer/ManualLexer/CalcLexer.cpp:78-108 | conversely, a text-less token that is neither End nor Error comes from an operator or bracket at the first non-blank character, whose kind it is, and consumes only that character |
| CalcProps.FlagUpToExists | 01-manual-lexer/ManualLexer/CalcLexer.cpp:132-154 | the sticky flag is set after a prefix exactly when the head check or some consumed character set it |
| CalcProps.FlagStays | 01-manual-lexer/ManualLexer/CalcLexer.cpp:141-143 | once the flag is set, consuming more characters never clears it |
| CalcProps.NumberErrorIff | 01-manual-lexer/ManualLexer/CalcLexer.cpp:132-163 | a number scan is Error exactly when the head is '.', a head '0' has a digit or letter after it, a consumed character is a letter or a misplaced '.', or the last character is '.' |
| CalcProps.NumberIsLiteral | 01-manual-lexer/ManualLexer/CalcLexer.cpp:132-163 | the text of a Number is a number literal |
| CalcProps.LiteralIsNumber | 01-manual-lexer/ManualLexer/CalcLexer.cpp:132-163 | a number scan whose text is a number literal is a Number |
| CalcProps.DotInIff | 01-manual-lexer/ManualLexer/CalcLexer.cpp:145 | the wasDot flag is set exactly when a '.' has been consumed after the head |
| CalcProps.NumberValidIffLiteral | 01-manual-lexer/ManualLexer/CalcLexer.cpp:120-164 | a number scan is Number exactly when its text is a number literal, and Error exactly when it is not |
| CalcProps.NumberTokensAreLiterals | 01-manual-lexer/ManualLexer/CalcLexer.cpp:98-101 | every Number that Read returns carries a number literal |
| CalcLexer.CalcLexer.constructor | 01-manual-lexer/ManualLexer/CalcLexer.cpp:53-56 | the lexer holds the input with the cursor at 0 |
| CalcLexer.CalcLexer.Read | 01-manual-lexer/ManualLexer/CalcLexer.cpp:58-109 | the token and the new cursor are NextToken of the input and the old cursor |
| CalcLexer.CalcLexer.SkipSpaces | 01-manual-lexer/ManualLexer/CalcLexer.cpp:111-118 | the cursor moves to the first non-whitespace character or the end |
| CalcLexer.CalcLexer.ReadNumber | 01-manual-lexer/ManualLexer/CalcLexer.cpp:120-164 | the loop with its wasDot and wasError flags computes ScanNumber at the head |
| CalcLexer.CalcLexer.ReadId | 01-manual-lexer/ManualLexer/CalcLexer.cpp:166-181 | the loop computes ScanId at the head |
| CalcLexer.Tokenize | 01-manual-lexer/ManualLexer/ManualLexerTests/CalcLexerTests.cpp:62-71 | the loop that reads until End returns the list Tokenize specifies |
| CalcSpacing.SkipSpacesShift | 01-manual-lexer/ManualLexer/CalcLexer.cpp:111-118 | behind a prefix, the whitespace skip stops at the same place, shifted by the prefix's length |
| CalcSpacing.NextTokenShift | 01-manual-lexer/ManualLexer/CalcLexer.cpp:58-109 | behind a prefix, Read returns the same token, with the cursor shifted by the prefix's length |
| CalcSpacing.TokenizeFromShift | 01-manual-lexer/ManualLexer/ManualLexerTests/CalcLexerTests.cpp:62-71 | the tokens read behind a prefix from a shifted cursor are the tokens read without it |
| CalcSpacing.AgreeFrom | 01-manual-lexer/ManualLexer/ManualLexerTests/CalcLexerTests.cpp:62-71 | when Read behind a prefix mirrors Read without it at every cursor, the reading loops yield the same token list |
| CalcSpacing.LeadingSpaces | 01-manual-lexer/ManualLexer/ManualLexerTests/CalcLexerTests.cpp:177-216 | whitespace before an input leaves its token list unchanged |
| CalcSpacing.SkipSpacesAppend | 01-manual-lexer/ManualLexer/CalcLexer.cpp:111-118 | text appended after s does not move a skip that stops inside s, and a skip that reaches the end of s goes on to skip the whitespace at the head of the appended text |
| CalcSpacing.ScanNumberAppend | 01-manual-lexer/ManualLexer/CalcLexer.cpp:120-164 | a number scan in s is unchanged by appended text that starts with a character the scan does not consume |
| CalcSpacing.ScanIdAppend | 01-manual-lexer/ManualLexer/CalcLexer.cpp:166-181 | an identifier scan in s is unchanged by appended text that starts with a character the scan does not consume |
| CalcSpacing.NextTokenAppend | 01-manual-lexer/ManualLexer/CalcLexer.cpp:58-109 | Read at a non-blank place in s is unchanged by appended text that cannot continue a number or identifier |
| CalcSpacing.BlankRestAppend | 01-manual-lexer/ManualLexer/ManualLexerTests/CalcLexerTests.cpp:62-71 | once only whitespace is left in s, the tokens read from there in s + y are the tokens of y |
| CalcSpacing.TokenizeFromAppend | 01-manual-lexer/ManualLexer/ManualLexerTests/CalcLexerTests.cpp:62-71 | the tokens read from a cursor in s + y are those read in s, followed by the tokens of y, when y cannot continue a token |
| CalcSpacing.TokenizeAppend | 01-manual-lexer/ManualLexer/ManualLexerTests/CalcLexerTests.cpp:62-71 | the tokens of x + y are the tokens of x followed by the tokens of y, when y is empty or starts with a character no number or identifier scan consumes |
| CalcSpacing.TrailingSpaces | 01-manual-lexer/ManualLexer/ManualLexerTests/CalcLexerTests.cpp:234-274 | whitespace after an input leaves its token list unchanged |
| CalcSpacing.SurroundingSpaces | 01-manual-lexer/ManualLexer/ManualLexerTests/CalcLexerTests.cpp:276-291 | whitespace on both sides of an input leaves its token list unchanged |
| CalcSpacing.NoTokens | 01-manual-lexer/ManualLexer/CalcLexer.cpp:68-73 | an input of only whitespace has no tokens |
| CalcSpacing.FirstToken | 01-manual-lexer/ManualLexer/ManualLexerTests/CalcLexerTests.cpp:62-71 | when Read's first token of x + y consumes exactly x, the list is that token followed by the tokens of y |
| CalcSpacing.OperatorFirst | 01-manual-lexer/ManualLexer/CalcLexer.cpp:78-93 | an operator or bracket in front is its own bare token, followed by the tokens of the rest |
| CalcSpacing.NumberFirst | 01-manual-lexer/ManualLexer/CalcLexer.cpp:120-164 | a number literal in front, not followed by a number character, is a Number carrying it, followed by the tokens of the rest |
| CalcSpacing.NumberErrorFirst | 01-manual-lexer/ManualLexer/CalcLexer.cpp:120-164 | a run of number characters in front that is not a literal is an Error carrying it, followed by the tokens of the rest |
| CalcSpacing.IdFirst | 01-manual-lexer/ManualLexer/CalcLexer.cpp:166-181 | an identifier in front, not followed by a letter or digit, is an Id carrying it, followed by the tokens of the rest |
| CalcSpacing.NumberAlone | 01-manual-lexer/ManualLexer/CalcLexer.cpp:120-164 | a number literal on its own is exactly one Number carrying it |
| CalcSpacing.NumberErrorAlone | 01-manual-lexer/ManualLexer/CalcLexer.cpp:120-164 | a run of number characters on its own that is not a literal is exactly one Error carrying it |
| CalcSpacing.IdAlone | 01-manual-lexer/ManualLexer/CalcLexer.cpp:166-181 | an identifier on its own is exactly one Id carrying it |
| CalcSpacing.LiteralToken | 01-manual-lexer/ManualLexer/CalcLexer.cpp:120-164 | a number literal with a digit head that ends where the number characters end is scanned as a Number carrying exactly that literal |
| SnapshotSpec.OperatorKind | 01-manual-lexer/ManualLexer/ManualLexer/CalcLexer.cpp:71-87 | six operator and bracket characters map to kinds; '=' is not one of them |
| SnapshotSpec.NumberEnd | 01-manual-lexer/ManualLexer/ManualLexer/CalcLexer.cpp:120-144 | the number scan stops after a run of digits and dots, at a character that is neither |
| SnapshotSpec.FractionEnd | 01-manual-lexer/ManualLexer/ManualLexer/CalcLexer.cpp:125-144 | after the first '.', the fraction digits and then, after a second '.', every digit and dot are consumed; the scan stops at a character that is neither |
| SnapshotSpec.ScanNumber | 01-manual-lexer/ManualLexer/ManualLexer/CalcLexer.cpp:106-156 | the number scan yields Number or Error carrying exactly the consumed digits and dots |
| SnapshotSpec.NextToken | 01-manual-lexer/ManualLexer/ManualLexer/CalcLexer.cpp:51-95 | End exactly when no non-blank character remains; otherwise the cursor advances; never Id or Equal; the text is the consumed slice |
| SnapshotSpec.TokenizeFrom | 01-manual-lexer/ManualLexer/ManualLexerTests/CalcLexerTests.cpp:62-71 | reading until End terminates on the snapshot too, and End is never in its list |
| SnapshotProps.EndIffOnlySpaces | 01-manual-lexer/ManualLexer/ManualLexer/CalcLexer.cpp:61-66 | End exactly when only whitespace remains, at the input length, and stable |
| SnapshotProps.OperatorTokens | 01-manual-lexer/ManualLexer/ManualLexer/CalcLexer.cpp:71-87 | each of `+ - * / ( )` yields its kind, without text, after one character |
| SnapshotProps.BareErrorIffNotDigit | 01-manual-lexer/ManualLexer/ManualLexer/CalcLexer.cpp:89-94 | a text-less Error comes back exactly when the first non-blank character is neither an operator nor a digit, '.' '=' and letters included |
| SnapshotProps.HeadDispatch | 01-manual-lexer/ManualLexer/ManualLexer/CalcLexer.cpp:68-92 | when a non-blank character remains at p, an operator or bracket yields its bare kind with the cursor at p + 1, and a digit yields the snapshot's ScanNumber at p |
| SnapshotProps.TokenOrigin | 01-manual-lexer/ManualLexer/ManualLexer/CalcLexer.cpp:68-94 | conversely, a token other than End has a non-blank head; a text-less token that is not Error comes from an operator or bracket whose kind it is; a token with text comes from a digit head |
| SnapshotProps.SecondDotIffTwoDots | 01-manual-lexer/ManualLexer/ManualLexer/CalcLexer.cpp:134-143 | the second-dot branch is taken exactly when the consumed text holds two dots |
| SnapshotProps.NumberErrorIff | 01-manual-lexer/ManualLexer/ManualLexer/CalcLexer.cpp:117-155 | a snapshot number is Error exactly for a '0' head before a digit, a second dot, or a trailing '.' |
| SnapshotProps.NumberIsLiteral | 01-manual-lexer/ManualLexer/ManualLexer/CalcLexer.cpp:106-156 | the text of a snapshot Number is a number literal |
| SnapshotProps.LiteralIsNumber | 01-manual-lexer/ManualLexer/ManualLexer/CalcLexer.cpp:106-156 | a snapshot number scan whose text is a number literal is a Number |
| SnapshotProps.NumberValidIffLiteral | 01-manual-lexer/ManualLexer/ManualLexer/CalcLexer.cpp:106-156 | a snapshot number is valid exactly when its text is a number literal |
| SnapshotLexer.CalcLexer.constructor | 01-manual-lexer/ManualLexer/ManualLexer/CalcLexer.cpp:46-49 | the lexer holds the input with the cursor at 0 |
| SnapshotLexer.CalcLexer.Read | 01-manual-lexer/ManualLexer/ManualLexer/CalcLexer.cpp:51-95 | the token and the new cursor are the snapshot's NextToken of the input and the old cursor |
| SnapshotLexer.CalcLexer.SkipSpaces | 01-manual-lexer/ManualLexer/ManualLexer/CalcLexer.cpp:97-104 | the cursor moves to the first non-whitespace character or the end |
| SnapshotLexer.CalcLexer.ReadRun | 01-manual-lexer/ManualLexer/ManualLexer/CalcLexer.cpp:120-124 | one scan loop moves the cursor to the end of the maximal run of its class and appends exactly that run to the text |
| SnapshotLexer.CalcLexer.ReadFraction | 01-manual-lexer/ManualLexer/ManualLexer/CalcLexer.cpp:129-143 | the fraction loops move the cursor to FractionEnd and set the flag exactly when a second '.' was met |
| SnapshotLexer.CalcLexer.ReadNumber | 01-manual-lexer/ManualLexer/ManualLexer/CalcLexer.cpp:106-156 | the three loops and the flag checks compute the snapshot's ScanNumber at the head |
| AutoToken.WithText | 02-auto-lexer/AutoLexer/Token.h:29-31 | `Token(TokenType, str)` keeps the kind and the text, whatever the kind |
| AutoToken.FromKind | 02-auto-lexer/AutoLexer/Token.h:47-49 | `Token(TokenType)` keeps the kind and has no text: it is `Tokens.Bare`, the hand-written scanners' `Token{ kind }` |
| AutoToken.FromId | 02-auto-lexer/AutoLexer/Token.h:32-46 | an id in 1..TT_CLOSE_BRACKET becomes the kind with that value, any other id becomes Error, and the text is kept exactly for Number, Id and Error |
| AutoToken.FromIdOrdinal | 02-auto-lexer/AutoLexer/Token.h:32-46 | every kind but End comes back from its own value, with the text for Number, Id and Error and without it for the rest |
| AutoToken.FromIdOutOfRange | 02-auto-lexer/AutoLexer/Token.h:38-45 | id 0 and ids above TT_CLOSE_BRACKET give an Error that keeps the text |
| AutoToken.FromIdRange | 02-auto-lexer/AutoLexer/Token.h:32-41 | the constructor keeps an id's value exactly when the id is in 1..TT_CLOSE_BRACKET |
| LexerExamples.ZeroAlone | 01-manual-lexer/ManualLexer/ManualLexerTests/CalcLexerTests.cpp:76-78 | `Tokenize` of "0" is exactly [Number "0"] |
| LexerExamples.OneAlone | 01-manual-lexer/ManualLexer/ManualLexerTests/CalcLexerTests.cpp:79-81 | `Tokenize` of "1" is exactly [Number "1"] |
| LexerExamples.LongInteger | 01-manual-lexer/ManualLexer/ManualLexerTests/CalcLexerTests.cpp:82-84 | `Tokenize` of "9876543210" is exactly [Number "9876543210"] |
| LexerExamples.PlusAlone | 01-manual-lexer/ManualLexer/ManualLexerTests/CalcLexerTests.cpp:88-90 | `Tokenize` of "+" is exactly [Plus] |
| LexerExamples.MinusAlone | 01-manual-lexer/ManualLexer/ManualLexerTests/CalcLexerTests.cpp:91-93 | `Tokenize` of "-" is exactly [Minus] |
| LexerExamples.AsteriskAlone | 01-manual-lexer/ManualLexer/ManualLexerTests/CalcLexerTests.cpp:94-96 | `Tokenize` of "*" is exactly [Asterisk] |
| LexerExamples.SlashAlone | 01-manual-lexer/ManualLexer/ManualLexerTests/CalcLexerTests.cpp:97-99 | `Tokenize` of "/" is exactly [Slash] |
| LexerExamples.OpenBracketAlone | 01-manual-lexer/ManualLexer/ManualLexerTests/CalcLexerTests.cpp:103-105 | `Tokenize` of "(" is exactly [OpenBracket] |
| LexerExamples.CloseBracketAlone | 01-manual-lexer/ManualLexer/ManualLexerTests/CalcLexerTests.cpp:106-108 | `Tokenize` of ")" is exactly [CloseBracket] |
| LexerExamples.LowerLetterId | 01-manual-lexer/ManualLexer/ManualLexerTests/CalcLexerTests.cpp:112-114 | `Tokenize` of "a" is exactly [Id "a"] |
| LexerExamples.UpperLetterId | 01-manual-lexer/ManualLexer/ManualLexerTests/CalcLexerTests.cpp:115-117 | `Tokenize` of "A" is exactly [Id "A"] |
| LexerExamples.UnderscoreId | 01-manual-lexer/ManualLexer/ManualLexerTests/CalcLexerTests.cpp:118-120 | `Tokenize` of "_" is exactly [Id "_"] |
| LexerExamples.LetterDigitsId | 01-manual-lexer/ManualLexer/ManualLexerTests/CalcLexerTests.cpp:121-123 | `Tokenize` of "a12" is exactly [Id "a12"] |
| LexerExamples.MixedId | 01-manual-lexer/ManualLexer/ManualLexerTests/CalcLexerTests.cpp:124-126 | `Tokenize` of "A_1_b" is exactly [Id "A_1_b"] |
| LexerExamples.UnderscoreStartsId | 01-manual-lexer/ManualLexer/ManualLexerTests/CalcLexerTests.cpp:127-129 | `Tokenize` of "_1B" is exactly [Id "_1B"] |
| LexerExamples.DigitStartsNumber | 01-manual-lexer/ManualLexer/ManualLexerTests/CalcLexerTests.cpp:130-132 | `Tokenize` of "1B_" is exactly [Error "1B_"] |
| LexerExamples.EqualAlone | 01-manual-lexer/ManualLexer/ManualLexerTests/CalcLexerTests.cpp:136-138 | `Tokenize` of "=" is exactly [Equal] |
| LexerExamples.IntegerSum | 01-manual-lexer/ManualLexer/ManualLexerTests/CalcLexerTests.cpp:142-148 | `Tokenize` of "45+9+28" is exactly [Number "45", Plus, Number "9", Plus, Number "28"] |
| LexerExamples.FractionSum | 01-manual-lexer/ManualLexer/ManualLexerTests/CalcLexerTests.cpp:150-154 | `Tokenize` of "5+7.005" is exactly [Number "5", Plus, Number "7.005"] |
| LexerExamples.FractionSums | 01-manual-lexer/ManualLexer/ManualLexerTests/CalcLexerTests.cpp:155-161 | `Tokenize` of "1.005+43.54+1" is exactly [Number "1.005", Plus, Number "43.54", Plus, Number "1"] |
| LexerExamples.TrailingDot | 01-manual-lexer/ManualLexer/ManualLexerTests/CalcLexerTests.cpp:162-164 | `Tokenize` of "5." is exactly [Error "5."] |
| LexerExamples.LeadingDot | 01-manual-lexer/ManualLexer/ManualLexerTests/CalcLexerTests.cpp:165-167 | `Tokenize` of ".4" is exactly [Error ".4"] |
| LexerExamples.TwoDotsInARow | 01-manual-lexer/ManualLexer/ManualLexerTests/CalcLexerTests.cpp:168-170 | `Tokenize` of "5..0" is exactly [Error "5..0"] |
| LexerExamples.SecondDotAfterFraction | 01-manual-lexer/ManualLexer/ManualLexerTests/CalcLexerTests.cpp:171-173 | `Tokenize` of "5.00.0" is exactly [Error "5.00.0"] |
| LexerExamples.PlusAfterSpaces | 01-manual-lexer/ManualLexer/ManualLexerTests/CalcLexerTests.cpp:178-180 | `Tokenize` of "  +" is exactly [Plus] |
| LexerExamples.PlusAfterTab | 01-manual-lexer/ManualLexer/ManualLexerTests/CalcLexerTests.cpp:181-183 | `Tokenize` of "\t+" is exactly [Plus] |
| LexerExamples.PlusAfterSpacesAndTabs | 01-manual-lexer/ManualLexer/ManualLexerTests/CalcLexerTests.cpp:184-186 | `Tokenize` of "   \t\t+" is exactly [Plus] |
| LexerExamples.PlusAfterNewline | 01-manual-lexer/ManualLexer/ManualLexerTests/CalcLexerTests.cpp:187-189 | `Tokenize` of "\n+" is exactly [Plus] |
| LexerExamples.PlusAfterNewlineAndSpaces | 01-manual-lexer/ManualLexer/ManualLexerTests/CalcLexerTests.cpp:190-192 | `Tokenize` of "   \n  +" is exactly [Plus] |
| LexerExamples.PlusAfterMixedBlanks | 01-manual-lexer/ManualLexer/ManualLexerTests/CalcLexerTests.cpp:193-195 | `Tokenize` of "\t   \n  +" is exactly [Plus] |
| LexerExamples.PlusBeforeSpaces | 01-manual-lexer/ManualLexer/ManualLexerTests/CalcLexerTests.cpp:196-198 | `Tokenize` of "+    " is exactly [Plus] |
| LexerExamples.PlusBeforeSpacesAndTabs | 01-manual-lexer/ManualLexer/ManualLexerTests/CalcLexerTests.cpp:199-201 | `Tokenize` of "+  \t\t   " is exactly [Plus] |
| LexerExamples.PlusBeforeMixedBlanks | 01-manual-lexer/ManualLexer/ManualLexerTests/CalcLexerTests.cpp:202-204 | `Tokenize` of "+  \n\t   " is exactly [Plus] |
| LexerExamples.PlusBetweenSpaces | 01-manual-lexer/ManualLexer/ManualLexerTests/CalcLexerTests.cpp:205-207 | `Tokenize` of "   +   " is exactly [Plus] |
| LexerExamples.PlusBetweenTabs | 01-manual-lexer/ManualLexer/ManualLexerTests/CalcLexerTests.cpp:208-210 | `Tokenize` of "  \t +  \t " is exactly [Plus] |
| LexerExamples.PlusBetweenMoreTabs | 01-manual-lexer/ManualLexer/ManualLexerTests/CalcLexerTests.cpp:211-213 | `Tokenize` of "  \t\t +  \t " is exactly [Plus] |
| LexerExamples.PlusBetweenMixedBlanks | 01-manual-lexer/ManualLexer/ManualLexerTests/CalcLexerTests.cpp:214-216 | `Tokenize` of "  \t \t +  \n\t " is exactly [Plus] |
| LexerExamples.DoubleZero | 01-manual-lexer/ManualLexer/ManualLexerTests/CalcLexerTests.cpp:220-222 | `Tokenize` of "00" is exactly [Error "00"] |
| LexerExamples.ZeroThenDigit | 01-manual-lexer/ManualLexer/ManualLexerTests/CalcLexerTests.cpp:226-228 | `Tokenize` of "05" is exactly [Error "05"] |
| LexerExamples.ZeroFraction | 01-manual-lexer/ManualLexer/ManualLexerTests/CalcLexerTests.cpp:229-231 | `Tokenize` of "0.123" is exactly [Number "0.123"] |
| LexerExamples.NumberAfterSpaces | 01-manual-lexer/ManualLexer/ManualLexerTests/CalcLexerTests.cpp:235-237 | `Tokenize` of "  1" is exactly [Number "1"] |
| LexerExamples.NumberAfterTab | 01-manual-lexer/ManualLexer/ManualLexerTests/CalcLexerTests.cpp:238-240 | `Tokenize` of "\t4" is exactly [Number "4"] |
| LexerExamples.FractionAfterBlanks | 01-manual-lexer/ManualLexer/ManualLexerTests/CalcLexerTests.cpp:241-243 | `Tokenize` of "   \t\t3.2" is exactly [Number "3.2"] |
| LexerExamples.NumberAfterNewline | 01-manual-lexer/ManualLexer/ManualLexerTests/CalcLexerTests.cpp:244-246 | `Tokenize` of "\n9" is exactly [Number "9"] |
| LexerExamples.NumberAfterNewlineAndSpaces | 01-manual-lexer/ManualLexer/ManualLexerTests/CalcLexerTests.cpp:247-249 | `Tokenize` of "   \n  15" is exactly [Number "15"] |
| LexerExamples.FractionAfterMixedBlanks | 01-manual-lexer/ManualLexer/ManualLexerTests/CalcLexerTests.cpp:250-252 | `Tokenize` of "\t   \n  21.03" is exactly [Number "21.03"] |
| LexerExamples.ZeroBeforeSpaces | 01-manual-lexer/ManualLexer/ManualLexerTests/CalcLexerTests.cpp:253-255 | `Tokenize` of "0    " is exactly [Number "0"] |
| LexerExamples.NumberBeforeBlanks | 01-manual-lexer/ManualLexer/ManualLexerTests/CalcLexerTests.cpp:256-258 | `Tokenize` of "81  \t\t   " is exactly [Number "81"] |
| LexerExamples.FractionBeforeBlanks | 01-manual-lexer/ManualLexer/ManualLexerTests/CalcLexerTests.cpp:259-261 | `Tokenize` of "4.2  \n\t   " is exactly [Number "4.2"] |
| LexerExamples.FractionBetweenSpaces | 01-manual-lexer/ManualLexer/ManualLexerTests/CalcLexerTests.cpp:262-264 | `Tokenize` of "   7.9   " is exactly [Number "7.9"] |
| LexerExamples.NumberBetweenBlanks | 01-manual-lexer/ManualLexer/ManualLexerTests/CalcLexerTests.cpp:265-267 | `Tokenize` of "  \t 3  \t " is exactly [Number "3"] |
| LexerExamples.FractionBetweenBlanks | 01-manual-lexer/ManualLexer/ManualLexerTests/CalcLexerTests.cpp:268-270 | `Tokenize` of "  \t\t 9.001  \t " is exactly [Number "9.001"] |
| LexerExamples.NumberBetweenMixedBlanks | 01-manual-lexer/ManualLexer/ManualLexerTests/CalcLexerTests.cpp:271-273 | `Tokenize` of "  \t \t 7  \n\t " is exactly [Number "7"] |
| LexerExamples.SpacedSum | 01-manual-lexer/ManualLexer/ManualLexerTests/CalcLexerTests.cpp:277-281 | `Tokenize` of "2 + 3" is exactly [Number "2", Plus, Number "3"] |
| LexerExamples.SpacedFractionSum | 01-manual-lexer/ManualLexer/ManualLexerTests/CalcLexerTests.cpp:282-286 | `Tokenize` of "\t0.52 + \n4" is exactly [Number "0.52", Plus, Number "4"] |
| LexerExamples.SpacedPlusFraction | 01-manual-lexer/ManualLexer/ManualLexerTests/CalcLexerTests.cpp:287-290 | `Tokenize` of "\n+ \t7.1" is exactly [Plus, Number "7.1"] |
| LexerExamples.ZeroLedDigits | 01-manual-lexer/ManualLexer/ManualLexerTests/CalcLexerTests.cpp:295-297 | `Tokenize` of "0123456789" is exactly [Error "0123456789"] |
| LexerExamples.ZeroLedFraction | 01-manual-lexer/ManualLexer/ManualLexerTests/CalcLexerTests.cpp:298-300 | `Tokenize` of "01.25" is exactly [Error "01.25"] |
| LexerExamples.PlusZeroLed | 01-manual-lexer/ManualLexer/ManualLexerTests/CalcLexerTests.cpp:301-304 | `Tokenize` of "+01" is exactly [Plus, Error "01"] |
| LexerExamples.PlusZeroLedFraction | 01-manual-lexer/ManualLexer/ManualLexerTests/CalcLexerTests.cpp:305-308 | `Tokenize` of "+00.32" is exactly [Plus, Error "00.32"] |
| LexerExamples.SumWithZeroLed | 01-manual-lexer/ManualLexer/ManualLexerTests/CalcLexerTests.cpp:309-313 | `Tokenize` of "4+0521" is exactly [Number "4", Plus, Error "0521"] |
| LexerExamples.ZeroLedThenSum | 01-manual-lexer/ManualLexer/ManualLexerTests/CalcLexerTests.cpp:314-318 | `Tokenize` of "02+21" is exactly [Error "02", Plus, Number "21"] |
| LexerExamples.LeadingZeroExpression | 01-manual-lexer/ManualLexer/ManualLexerTests/CalcLexerTests.cpp:319-323 | `Tokenize` of "02.4+5.3" is exactly [Error "02.4", Plus, Number "5.3"] |
| LexerExamples.SpacedAssignment | 01-manual-lexer/ManualLexer/ManualLexerTests/CalcLexerTests.cpp:327-331 | `Tokenize` of "a = 1" is exactly [Id "a", Equal, Number "1"] |
| LexerExamples.VarStatement | 01-manual-lexer/ManualLexer/ManualLexerTests/CalcLexerTests.cpp:332-342 | `Tokenize` of " var=7* (1 + 6)" is exactly [Id "var", Equal, Number "7", Asterisk, OpenBracket, Number "1", Plus, Number "6", CloseBracket] |
| LexerExamples.LongStatement | 01-manual-lexer/ManualLexer/ManualLexerTests/CalcLexerTests.cpp:343-357 | `Tokenize` of "  k = 4 / (8.ab + .1) - 5abc * 9 " is exactly [Id "k", Equal, Number "4", Slash, OpenBracket, Error "8.ab", Plus, Error ".1", CloseBracket, Minus, Error "5abc", Asterisk, Number "9"] |
| LexerExamples.LettersAfterFraction | 01-manual-lexer/ManualLexer/ManualLexerTests/CalcLexerTests.cpp:343-357 | "8.ab", the second number lexeme of the statement, read on its own is the single Error "8.ab", not a truncated number |
| LexerExamples.LettersAfterDigit | 01-manual-lexer/ManualLexer/ManualLexerTests/CalcLexerTests.cpp:343-357 | "5abc", the fourth number lexeme of the statement (before "9"), read on its own is the single Error "5abc" |
| SnapshotExamples.DigitThenLetter | 01-manual-lexer/ManualLexer/ManualLexer/CalcLexer.cpp:120-124 | on the snapshot, "5a" is the Number "5" and then a text-less Error for the letter |
| SnapshotExamples.TwoDotsInARowScan | 01-manual-lexer/ManualLexer/ManualLexer/CalcLexer.cpp:125-147 | on the snapshot, the first Read of "5..0" consumes all four characters, the second-dot loop swallowing the rest, and returns the Error "5..0" |
| SnapshotExamples.TwoDotsInARow | 01-manual-lexer/ManualLexer/ManualLexer/CalcLexer.cpp:134-143 | on the snapshot, "5..0" is the single Error "5..0" |

## Left out

- The automaton lexer (`02-auto-lexer/AutoLexer/AutoLexer.cpp`, `CalcLexer.h`) is not part of this model. It wraps lexertl, whose source is not available. Its `TT_NUMBER` rule serves only as the reference grammar `NumberSyntax.IsNumberLiteral`.
- The lexertl console scanner (`lexertl-based-scanner/lexertl-based-scanner/main.cpp`) is not part of this model. It is stdin/stdout I/O around the same foreign library.
- The test framework's macros and the `operator<<` that prints tokens are not part of this model. Their expected token lists appear only as the example lemmas.
- Character encoding is not modelled. Input is a sequence of `char` with no signedness, multi-byte or Unicode concerns.
- `std::string` appends are modelled as sequence concatenation, with no allocation failure.
