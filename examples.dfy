/** Inputs from the scanner's own test suite (ManualLexerTests/CalcLexerTests.cpp), worked
    through the model of the current scanner. Each input is cut into its lexemes and read
    lexeme by lexeme with the lemmas of CalcSpacing; where that chain is more than one step
    long it sits in a lemma of its own (the name ending in Steps) whose input is written as
    the concatenation of the lexemes, and the test's input is then that concatenation. The two
    long statements are cut once more, into parts that each start at a blank or an operator, so
    that no lexeme spans two parts: a join lemma (Head, Brackets, Tail, and one for the whole)
    puts the parts' lists together with CalcSpacing.TokenizeAppend, taking the parts as
    parameters so that no long text is read in one piece. */
module LexerExamples {
  import opened Tokens
  import opened NumberSyntax
  import opened CalcSpec
  import opened CalcSpacing

  lemma ZeroAlone()
    ensures Tokenize("0") == [Token(Number, Some("0"))]
  {
    NumberFirst("0", "");
    assert "0" + "" == "0";
  }

  lemma OneAlone()
    ensures Tokenize("1") == [Token(Number, Some("1"))]
  {
    NumberFirst("1", "");
    assert "1" + "" == "1";
  }

  lemma LongInteger()
    ensures Tokenize("9876543210") == [Token(Number, Some("9876543210"))]
  {
    NumberFirst("9876543210", "");
    assert "9876543210" + "" == "9876543210";
  }

  lemma PlusAlone()
    ensures Tokenize("+") == [Bare(Plus)]
  {
    OperatorFirst('+', "");
    assert "+" + "" == "+";
  }

  lemma MinusAlone()
    ensures Tokenize("-") == [Bare(Minus)]
  {
    OperatorFirst('-', "");
    assert "-" + "" == "-";
  }

  lemma AsteriskAlone()
    ensures Tokenize("*") == [Bare(Asterisk)]
  {
    OperatorFirst('*', "");
    assert "*" + "" == "*";
  }

  lemma SlashAlone()
    ensures Tokenize("/") == [Bare(Slash)]
  {
    OperatorFirst('/', "");
    assert "/" + "" == "/";
  }

  lemma OpenBracketAlone()
    ensures Tokenize("(") == [Bare(OpenBracket)]
  {
    OperatorFirst('(', "");
    assert "(" + "" == "(";
  }

  lemma CloseBracketAlone()
    ensures Tokenize(")") == [Bare(CloseBracket)]
  {
    OperatorFirst(')', "");
    assert ")" + "" == ")";
  }

  lemma LowerLetterId()
    ensures Tokenize("a") == [Token(Id, Some("a"))]
  {
    IdFirst("a", "");
    assert "a" + "" == "a";
  }

  lemma UpperLetterId()
    ensures Tokenize("A") == [Token(Id, Some("A"))]
  {
    IdFirst("A", "");
    assert "A" + "" == "A";
  }

  lemma UnderscoreId()
    ensures Tokenize("_") == [Token(Id, Some("_"))]
  {
    IdFirst("_", "");
    assert "_" + "" == "_";
  }

  lemma LetterDigitsId()
    ensures Tokenize("a12") == [Token(Id, Some("a12"))]
  {
    IdFirst("a12", "");
    assert "a12" + "" == "a12";
  }

  lemma MixedId()
    ensures Tokenize("A_1_b") == [Token(Id, Some("A_1_b"))]
  {
    IdFirst("A_1_b", "");
    assert "A_1_b" + "" == "A_1_b";
  }

  lemma UnderscoreStartsId()
    ensures Tokenize("_1B") == [Token(Id, Some("_1B"))]
  {
    IdFirst("_1B", "");
    assert "_1B" + "" == "_1B";
  }

  lemma DigitStartsNumber()
    ensures Tokenize("1B_") == [Token(Error, Some("1B_"))]
  {
    assert !IsNumberLiteral("1B_") by { LiteralIff("1B_"); assert "1B_"[1] == 'B'; }
    NumberErrorFirst("1B_", "");
    assert "1B_" + "" == "1B_";
  }

  lemma EqualAlone()
    ensures Tokenize("=") == [Bare(Equal)]
  {
    OperatorFirst('=', "");
    assert "=" + "" == "=";
  }

  lemma IntegerSum(s: string)
    requires s == "45+9+28"
    ensures Tokenize(s) == [Token(Number, Some("45")), Bare(Plus), Token(Number, Some("9")), Bare(Plus), Token(Number, Some("28"))]
  {
    IntegerSumSteps();
    assert "45" + ("+" + ("9" + ("+" + ("28" + "")))) == s;
  }

  lemma IntegerSumSteps()
    ensures Tokenize("45" + ("+" + ("9" + ("+" + ("28" + ""))))) == [Token(Number, Some("45")), Bare(Plus), Token(Number, Some("9")), Bare(Plus), Token(Number, Some("28"))]
  {
    NumberFirst("28", "");
    OperatorFirst('+', "28" + "");
    NumberFirst("9", "+" + ("28" + ""));
    OperatorFirst('+', "9" + ("+" + ("28" + "")));
    NumberFirst("45", "+" + ("9" + ("+" + ("28" + ""))));
  }

  lemma FractionSum(s: string)
    requires s == "5+7.005"
    ensures Tokenize(s) == [Token(Number, Some("5")), Bare(Plus), Token(Number, Some("7.005"))]
  {
    FractionSumSteps();
    assert "5" + ("+" + ("7.005" + "")) == s;
  }

  lemma FractionSumSteps()
    ensures Tokenize("5" + ("+" + ("7.005" + ""))) == [Token(Number, Some("5")), Bare(Plus), Token(Number, Some("7.005"))]
  {
    assert IsNumberLiteral("7.005") by { LiteralIff("7.005"); }
    NumberFirst("7.005", "");
    OperatorFirst('+', "7.005" + "");
    NumberFirst("5", "+" + ("7.005" + ""));
  }

  lemma FractionSums(s: string)
    requires s == "1.005+43.54+1"
    ensures Tokenize(s) == [Token(Number, Some("1.005")), Bare(Plus), Token(Number, Some("43.54")), Bare(Plus), Token(Number, Some("1"))]
  {
    FractionSumsSteps();
    assert "1.005" + ("+" + ("43.54" + ("+" + ("1" + "")))) == s;
  }

  lemma FractionSumsSteps()
    ensures Tokenize("1.005" + ("+" + ("43.54" + ("+" + ("1" + ""))))) == [Token(Number, Some("1.005")), Bare(Plus), Token(Number, Some("43.54")), Bare(Plus), Token(Number, Some("1"))]
  {
    NumberFirst("1", "");
    OperatorFirst('+', "1" + "");
    assert IsNumberLiteral("43.54") by { LiteralIff("43.54"); }
    NumberFirst("43.54", "+" + ("1" + ""));
    OperatorFirst('+', "43.54" + ("+" + ("1" + "")));
    assert IsNumberLiteral("1.005") by { LiteralIff("1.005"); }
    NumberFirst("1.005", "+" + ("43.54" + ("+" + ("1" + ""))));
  }

  lemma TrailingDot()
    ensures Tokenize("5.") == [Token(Error, Some("5."))]
  {
    assert !IsNumberLiteral("5.") by { LiteralIff("5."); }
    NumberErrorFirst("5.", "");
    assert "5." + "" == "5.";
  }

  lemma LeadingDot()
    ensures Tokenize(".4") == [Token(Error, Some(".4"))]
  {
    assert !IsNumberLiteral(".4") by { LiteralIff(".4"); }
    NumberErrorFirst(".4", "");
    assert ".4" + "" == ".4";
  }

  lemma TwoDotsInARow()
    ensures Tokenize("5..0") == [Token(Error, Some("5..0"))]
  {
    assert !IsNumberLiteral("5..0") by { LiteralIff("5..0"); assert "5..0"[1] == '.' && "5..0"[2] == '.'; }
    NumberErrorFirst("5..0", "");
    assert "5..0" + "" == "5..0";
  }

  lemma SecondDotAfterFraction()
    ensures Tokenize("5.00.0") == [Token(Error, Some("5.00.0"))]
  {
    assert !IsNumberLiteral("5.00.0") by { LiteralIff("5.00.0"); assert "5.00.0"[1] == '.' && "5.00.0"[4] == '.'; }
    NumberErrorFirst("5.00.0", "");
    assert "5.00.0" + "" == "5.00.0";
  }

  lemma PlusAfterSpaces(s: string)
    requires s == "  +"
    ensures Tokenize(s) == [Bare(Plus)]
  {
    PlusAfterSpacesSteps();
    assert "  " + ("+" + "") == s;
  }

  lemma PlusAfterSpacesSteps()
    ensures Tokenize("  " + ("+" + "")) == [Bare(Plus)]
  {
    OperatorFirst('+', "");
    LeadingSpaces("  ", "+" + "");
  }

  lemma PlusAfterTab(s: string)
    requires s == "\t+"
    ensures Tokenize(s) == [Bare(Plus)]
  {
    PlusAfterTabSteps();
    assert "\t" + ("+" + "") == s;
  }

  lemma PlusAfterTabSteps()
    ensures Tokenize("\t" + ("+" + "")) == [Bare(Plus)]
  {
    OperatorFirst('+', "");
    LeadingSpaces("\t", "+" + "");
  }

  lemma PlusAfterSpacesAndTabs(s: string)
    requires s == "   \t\t+"
    ensures Tokenize(s) == [Bare(Plus)]
  {
    PlusAfterSpacesAndTabsSteps();
    assert "   \t\t" + ("+" + "") == s;
  }

  lemma PlusAfterSpacesAndTabsSteps()
    ensures Tokenize("   \t\t" + ("+" + "")) == [Bare(Plus)]
  {
    OperatorFirst('+', "");
    LeadingSpaces("   \t\t", "+" + "");
  }

  lemma PlusAfterNewline(s: string)
    requires s == "\n+"
    ensures Tokenize(s) == [Bare(Plus)]
  {
    PlusAfterNewlineSteps();
    assert "\n" + ("+" + "") == s;
  }

  lemma PlusAfterNewlineSteps()
    ensures Tokenize("\n" + ("+" + "")) == [Bare(Plus)]
  {
    OperatorFirst('+', "");
    LeadingSpaces("\n", "+" + "");
  }

  lemma PlusAfterNewlineAndSpaces(s: string)
    requires s == "   \n  +"
    ensures Tokenize(s) == [Bare(Plus)]
  {
    PlusAfterNewlineAndSpacesSteps();
    assert "   \n  " + ("+" + "") == s;
  }

  lemma PlusAfterNewlineAndSpacesSteps()
    ensures Tokenize("   \n  " + ("+" + "")) == [Bare(Plus)]
  {
    OperatorFirst('+', "");
    LeadingSpaces("   \n  ", "+" + "");
  }

  lemma PlusAfterMixedBlanks(s: string)
    requires s == "\t   \n  +"
    ensures Tokenize(s) == [Bare(Plus)]
  {
    PlusAfterMixedBlanksSteps();
    assert "\t   \n  " + ("+" + "") == s;
  }

  lemma PlusAfterMixedBlanksSteps()
    ensures Tokenize("\t   \n  " + ("+" + "")) == [Bare(Plus)]
  {
    OperatorFirst('+', "");
    LeadingSpaces("\t   \n  ", "+" + "");
  }

  lemma PlusBeforeSpaces(s: string)
    requires s == "+    "
    ensures Tokenize(s) == [Bare(Plus)]
  {
    PlusBeforeSpacesSteps();
    assert "+" + "    " == s;
  }

  lemma PlusBeforeSpacesSteps()
    ensures Tokenize("+" + "    ") == [Bare(Plus)]
  {
    NoTokens("    ");
    OperatorFirst('+', "    ");
  }

  lemma PlusBeforeSpacesAndTabs(s: string)
    requires s == "+  \t\t   "
    ensures Tokenize(s) == [Bare(Plus)]
  {
    PlusBeforeSpacesAndTabsSteps();
    assert "+" + "  \t\t   " == s;
  }

  lemma PlusBeforeSpacesAndTabsSteps()
    ensures Tokenize("+" + "  \t\t   ") == [Bare(Plus)]
  {
    NoTokens("  \t\t   ");
    OperatorFirst('+', "  \t\t   ");
  }

  lemma PlusBeforeMixedBlanks(s: string)
    requires s == "+  \n\t   "
    ensures Tokenize(s) == [Bare(Plus)]
  {
    PlusBeforeMixedBlanksSteps();
    assert "+" + "  \n\t   " == s;
  }

  lemma PlusBeforeMixedBlanksSteps()
    ensures Tokenize("+" + "  \n\t   ") == [Bare(Plus)]
  {
    NoTokens("  \n\t   ");
    OperatorFirst('+', "  \n\t   ");
  }

  lemma PlusBetweenSpaces(s: string)
    requires s == "   +   "
    ensures Tokenize(s) == [Bare(Plus)]
  {
    PlusBetweenSpacesSteps();
    assert "   " + ("+" + "   ") == s;
  }

  lemma PlusBetweenSpacesSteps()
    ensures Tokenize("   " + ("+" + "   ")) == [Bare(Plus)]
  {
    NoTokens("   ");
    OperatorFirst('+', "   ");
    LeadingSpaces("   ", "+" + "   ");
  }

  lemma PlusBetweenTabs(s: string)
    requires s == "  \t +  \t "
    ensures Tokenize(s) == [Bare(Plus)]
  {
    PlusBetweenTabsSteps();
    assert "  \t " + ("+" + "  \t ") == s;
  }

  lemma PlusBetweenTabsSteps()
    ensures Tokenize("  \t " + ("+" + "  \t ")) == [Bare(Plus)]
  {
    NoTokens("  \t ");
    OperatorFirst('+', "  \t ");
    LeadingSpaces("  \t ", "+" + "  \t ");
  }

  lemma PlusBetweenMoreTabs(s: string)
    requires s == "  \t\t +  \t "
    ensures Tokenize(s) == [Bare(Plus)]
  {
    PlusBetweenMoreTabsSteps();
    assert "  \t\t " + ("+" + "  \t ") == s;
  }

  lemma PlusBetweenMoreTabsSteps()
    ensures Tokenize("  \t\t " + ("+" + "  \t ")) == [Bare(Plus)]
  {
    NoTokens("  \t ");
    OperatorFirst('+', "  \t ");
    LeadingSpaces("  \t\t ", "+" + "  \t ");
  }

  lemma PlusBetweenMixedBlanks(s: string)
    requires s == "  \t \t +  \n\t "
    ensures Tokenize(s) == [Bare(Plus)]
  {
    PlusBetweenMixedBlanksSteps();
    assert "  \t \t " + ("+" + "  \n\t ") == s;
  }

  lemma PlusBetweenMixedBlanksSteps()
    ensures Tokenize("  \t \t " + ("+" + "  \n\t ")) == [Bare(Plus)]
  {
    NoTokens("  \n\t ");
    OperatorFirst('+', "  \n\t ");
    LeadingSpaces("  \t \t ", "+" + "  \n\t ");
  }

  lemma DoubleZero()
    ensures Tokenize("00") == [Token(Error, Some("00"))]
  {
    assert !IsNumberLiteral("00") by { LiteralIff("00"); }
    NumberErrorFirst("00", "");
    assert "00" + "" == "00";
  }

  lemma ZeroThenDigit()
    ensures Tokenize("05") == [Token(Error, Some("05"))]
  {
    assert !IsNumberLiteral("05") by { LiteralIff("05"); }
    NumberErrorFirst("05", "");
    assert "05" + "" == "05";
  }

  lemma ZeroFraction()
    ensures Tokenize("0.123") == [Token(Number, Some("0.123"))]
  {
    assert IsNumberLiteral("0.123") by { LiteralIff("0.123"); }
    NumberFirst("0.123", "");
    assert "0.123" + "" == "0.123";
  }

  lemma NumberAfterSpaces(s: string)
    requires s == "  1"
    ensures Tokenize(s) == [Token(Number, Some("1"))]
  {
    NumberAfterSpacesSteps();
    assert "  " + ("1" + "") == s;
  }

  lemma NumberAfterSpacesSteps()
    ensures Tokenize("  " + ("1" + "")) == [Token(Number, Some("1"))]
  {
    NumberFirst("1", "");
    LeadingSpaces("  ", "1" + "");
  }

  lemma NumberAfterTab(s: string)
    requires s == "\t4"
    ensures Tokenize(s) == [Token(Number, Some("4"))]
  {
    NumberAfterTabSteps();
    assert "\t" + ("4" + "") == s;
  }

  lemma NumberAfterTabSteps()
    ensures Tokenize("\t" + ("4" + "")) == [Token(Number, Some("4"))]
  {
    NumberFirst("4", "");
    LeadingSpaces("\t", "4" + "");
  }

  lemma FractionAfterBlanks(s: string)
    requires s == "   \t\t3.2"
    ensures Tokenize(s) == [Token(Number, Some("3.2"))]
  {
    FractionAfterBlanksSteps();
    assert "   \t\t" + ("3.2" + "") == s;
  }

  lemma FractionAfterBlanksSteps()
    ensures Tokenize("   \t\t" + ("3.2" + "")) == [Token(Number, Some("3.2"))]
  {
    assert IsNumberLiteral("3.2") by { LiteralIff("3.2"); }
    NumberFirst("3.2", "");
    LeadingSpaces("   \t\t", "3.2" + "");
  }

  lemma NumberAfterNewline(s: string)
    requires s == "\n9"
    ensures Tokenize(s) == [Token(Number, Some("9"))]
  {
    NumberAfterNewlineSteps();
    assert "\n" + ("9" + "") == s;
  }

  lemma NumberAfterNewlineSteps()
    ensures Tokenize("\n" + ("9" + "")) == [Token(Number, Some("9"))]
  {
    NumberFirst("9", "");
    LeadingSpaces("\n", "9" + "");
  }

  lemma NumberAfterNewlineAndSpaces(s: string)
    requires s == "   \n  15"
    ensures Tokenize(s) == [Token(Number, Some("15"))]
  {
    NumberAfterNewlineAndSpacesSteps();
    assert "   \n  " + ("15" + "") == s;
  }

  lemma NumberAfterNewlineAndSpacesSteps()
    ensures Tokenize("   \n  " + ("15" + "")) == [Token(Number, Some("15"))]
  {
    NumberFirst("15", "");
    LeadingSpaces("   \n  ", "15" + "");
  }

  lemma FractionAfterMixedBlanks(s: string)
    requires s == "\t   \n  21.03"
    ensures Tokenize(s) == [Token(Number, Some("21.03"))]
  {
    FractionAfterMixedBlanksSteps();
    assert "\t   \n  " + ("21.03" + "") == s;
  }

  lemma FractionAfterMixedBlanksSteps()
    ensures Tokenize("\t   \n  " + ("21.03" + "")) == [Token(Number, Some("21.03"))]
  {
    assert IsNumberLiteral("21.03") by { LiteralIff("21.03"); }
    NumberFirst("21.03", "");
    LeadingSpaces("\t   \n  ", "21.03" + "");
  }

  lemma ZeroBeforeSpaces(s: string)
    requires s == "0    "
    ensures Tokenize(s) == [Token(Number, Some("0"))]
  {
    ZeroBeforeSpacesSteps();
    assert "0" + "    " == s;
  }

  lemma ZeroBeforeSpacesSteps()
    ensures Tokenize("0" + "    ") == [Token(Number, Some("0"))]
  {
    NoTokens("    ");
    NumberFirst("0", "    ");
  }

  lemma NumberBeforeBlanks(s: string)
    requires s == "81  \t\t   "
    ensures Tokenize(s) == [Token(Number, Some("81"))]
  {
    NumberBeforeBlanksSteps();
    assert "81" + "  \t\t   " == s;
  }

  lemma NumberBeforeBlanksSteps()
    ensures Tokenize("81" + "  \t\t   ") == [Token(Number, Some("81"))]
  {
    NoTokens("  \t\t   ");
    NumberFirst("81", "  \t\t   ");
  }

  lemma FractionBeforeBlanks(s: string)
    requires s == "4.2  \n\t   "
    ensures Tokenize(s) == [Token(Number, Some("4.2"))]
  {
    FractionBeforeBlanksSteps();
    assert "4.2" + "  \n\t   " == s;
  }

  lemma FractionBeforeBlanksSteps()
    ensures Tokenize("4.2" + "  \n\t   ") == [Token(Number, Some("4.2"))]
  {
    NoTokens("  \n\t   ");
    assert IsNumberLiteral("4.2") by { LiteralIff("4.2"); }
    NumberFirst("4.2", "  \n\t   ");
  }

  lemma FractionBetweenSpaces(s: string)
    requires s == "   7.9   "
    ensures Tokenize(s) == [Token(Number, Some("7.9"))]
  {
    FractionBetweenSpacesSteps();
    assert "   " + ("7.9" + "   ") == s;
  }

  lemma FractionBetweenSpacesSteps()
    ensures Tokenize("   " + ("7.9" + "   ")) == [Token(Number, Some("7.9"))]
  {
    NoTokens("   ");
    assert IsNumberLiteral("7.9") by { LiteralIff("7.9"); }
    NumberFirst("7.9", "   ");
    LeadingSpaces("   ", "7.9" + "   ");
  }

  lemma NumberBetweenBlanks(s: string)
    requires s == "  \t 3  \t "
    ensures Tokenize(s) == [Token(Number, Some("3"))]
  {
    NumberBetweenBlanksSteps();
    assert "  \t " + ("3" + "  \t ") == s;
  }

  lemma NumberBetweenBlanksSteps()
    ensures Tokenize("  \t " + ("3" + "  \t ")) == [Token(Number, Some("3"))]
  {
    NoTokens("  \t ");
    NumberFirst("3", "  \t ");
    LeadingSpaces("  \t ", "3" + "  \t ");
  }

  lemma FractionBetweenBlanks(s: string)
    requires s == "  \t\t 9.001  \t "
    ensures Tokenize(s) == [Token(Number, Some("9.001"))]
  {
    FractionBetweenBlanksSteps();
    assert "  \t\t " + ("9.001" + "  \t ") == s;
  }

  lemma FractionBetweenBlanksSteps()
    ensures Tokenize("  \t\t " + ("9.001" + "  \t ")) == [Token(Number, Some("9.001"))]
  {
    NoTokens("  \t ");
    assert IsNumberLiteral("9.001") by { LiteralIff("9.001"); }
    NumberFirst("9.001", "  \t ");
    LeadingSpaces("  \t\t ", "9.001" + "  \t ");
  }

  lemma NumberBetweenMixedBlanks(s: string)
    requires s == "  \t \t 7  \n\t "
    ensures Tokenize(s) == [Token(Number, Some("7"))]
  {
    NumberBetweenMixedBlanksSteps();
    assert "  \t \t " + ("7" + "  \n\t ") == s;
  }

  lemma NumberBetweenMixedBlanksSteps()
    ensures Tokenize("  \t \t " + ("7" + "  \n\t ")) == [Token(Number, Some("7"))]
  {
    NoTokens("  \n\t ");
    NumberFirst("7", "  \n\t ");
    LeadingSpaces("  \t \t ", "7" + "  \n\t ");
  }

  lemma SpacedSum(s: string)
    requires s == "2 + 3"
    ensures Tokenize(s) == [Token(Number, Some("2")), Bare(Plus), Token(Number, Some("3"))]
  {
    SpacedSumSteps();
    assert "2" + (" " + ("+" + (" " + ("3" + "")))) == s;
  }

  lemma SpacedSumSteps()
    ensures Tokenize("2" + (" " + ("+" + (" " + ("3" + ""))))) == [Token(Number, Some("2")), Bare(Plus), Token(Number, Some("3"))]
  {
    NumberFirst("3", "");
    LeadingSpaces(" ", "3" + "");
    OperatorFirst('+', " " + ("3" + ""));
    LeadingSpaces(" ", "+" + (" " + ("3" + "")));
    NumberFirst("2", " " + ("+" + (" " + ("3" + ""))));
  }

  lemma SpacedFractionSum(s: string)
    requires s == "\t0.52 + \n4"
    ensures Tokenize(s) == [Token(Number, Some("0.52")), Bare(Plus), Token(Number, Some("4"))]
  {
    SpacedFractionSumSteps();
    assert "\t" + ("0.52" + (" " + ("+" + (" \n" + ("4" + ""))))) == s;
  }

  lemma SpacedFractionSumSteps()
    ensures Tokenize("\t" + ("0.52" + (" " + ("+" + (" \n" + ("4" + "")))))) == [Token(Number, Some("0.52")), Bare(Plus), Token(Number, Some("4"))]
  {
    NumberFirst("4", "");
    LeadingSpaces(" \n", "4" + "");
    OperatorFirst('+', " \n" + ("4" + ""));
    LeadingSpaces(" ", "+" + (" \n" + ("4" + "")));
    assert IsNumberLiteral("0.52") by { LiteralIff("0.52"); }
    NumberFirst("0.52", " " + ("+" + (" \n" + ("4" + ""))));
    LeadingSpaces("\t", "0.52" + (" " + ("+" + (" \n" + ("4" + "")))));
  }

  lemma SpacedPlusFraction(s: string)
    requires s == "\n+ \t7.1"
    ensures Tokenize(s) == [Bare(Plus), Token(Number, Some("7.1"))]
  {
    SpacedPlusFractionSteps();
    assert "\n" + ("+" + (" \t" + ("7.1" + ""))) == s;
  }

  lemma SpacedPlusFractionSteps()
    ensures Tokenize("\n" + ("+" + (" \t" + ("7.1" + "")))) == [Bare(Plus), Token(Number, Some("7.1"))]
  {
    assert IsNumberLiteral("7.1") by { LiteralIff("7.1"); }
    NumberFirst("7.1", "");
    LeadingSpaces(" \t", "7.1" + "");
    OperatorFirst('+', " \t" + ("7.1" + ""));
    LeadingSpaces("\n", "+" + (" \t" + ("7.1" + "")));
  }

  lemma ZeroLedDigits()
    ensures Tokenize("0123456789") == [Token(Error, Some("0123456789"))]
  {
    assert !IsNumberLiteral("0123456789") by { LiteralIff("0123456789"); }
    NumberErrorFirst("0123456789", "");
    assert "0123456789" + "" == "0123456789";
  }

  lemma ZeroLedFraction()
    ensures Tokenize("01.25") == [Token(Error, Some("01.25"))]
  {
    assert !IsNumberLiteral("01.25") by { LiteralIff("01.25"); }
    NumberErrorFirst("01.25", "");
    assert "01.25" + "" == "01.25";
  }

  lemma PlusZeroLed(s: string)
    requires s == "+01"
    ensures Tokenize(s) == [Bare(Plus), Token(Error, Some("01"))]
  {
    PlusZeroLedSteps();
    assert "+" + ("01" + "") == s;
  }

  lemma PlusZeroLedSteps()
    ensures Tokenize("+" + ("01" + "")) == [Bare(Plus), Token(Error, Some("01"))]
  {
    assert !IsNumberLiteral("01") by { LiteralIff("01"); }
    NumberErrorFirst("01", "");
    OperatorFirst('+', "01" + "");
  }

  lemma PlusZeroLedFraction(s: string)
    requires s == "+00.32"
    ensures Tokenize(s) == [Bare(Plus), Token(Error, Some("00.32"))]
  {
    PlusZeroLedFractionSteps();
    assert "+" + ("00.32" + "") == s;
  }

  lemma PlusZeroLedFractionSteps()
    ensures Tokenize("+" + ("00.32" + "")) == [Bare(Plus), Token(Error, Some("00.32"))]
  {
    assert !IsNumberLiteral("00.32") by { LiteralIff("00.32"); }
    NumberErrorFirst("00.32", "");
    OperatorFirst('+', "00.32" + "");
  }

  lemma SumWithZeroLed(s: string)
    requires s == "4+0521"
    ensures Tokenize(s) == [Token(Number, Some("4")), Bare(Plus), Token(Error, Some("0521"))]
  {
    SumWithZeroLedSteps();
    assert "4" + ("+" + ("0521" + "")) == s;
  }

  lemma SumWithZeroLedSteps()
    ensures Tokenize("4" + ("+" + ("0521" + ""))) == [Token(Number, Some("4")), Bare(Plus), Token(Error, Some("0521"))]
  {
    assert !IsNumberLiteral("0521") by { LiteralIff("0521"); }
    NumberErrorFirst("0521", "");
    OperatorFirst('+', "0521" + "");
    NumberFirst("4", "+" + ("0521" + ""));
  }

  lemma ZeroLedThenSum(s: string)
    requires s == "02+21"
    ensures Tokenize(s) == [Token(Error, Some("02")), Bare(Plus), Token(Number, Some("21"))]
  {
    ZeroLedThenSumSteps();
    assert "02" + ("+" + ("21" + "")) == s;
  }

  lemma ZeroLedThenSumSteps()
    ensures Tokenize("02" + ("+" + ("21" + ""))) == [Token(Error, Some("02")), Bare(Plus), Token(Number, Some("21"))]
  {
    NumberFirst("21", "");
    OperatorFirst('+', "21" + "");
    assert !IsNumberLiteral("02") by { LiteralIff("02"); }
    NumberErrorFirst("02", "+" + ("21" + ""));
  }

  lemma LeadingZeroExpression(s: string)
    requires s == "02.4+5.3"
    ensures Tokenize(s) == [Token(Error, Some("02.4")), Bare(Plus), Token(Number, Some("5.3"))]
  {
    LeadingZeroExpressionSteps();
    assert "02.4" + ("+" + ("5.3" + "")) == s;
  }

  lemma LeadingZeroExpressionSteps()
    ensures Tokenize("02.4" + ("+" + ("5.3" + ""))) == [Token(Error, Some("02.4")), Bare(Plus), Token(Number, Some("5.3"))]
  {
    assert IsNumberLiteral("5.3") by { LiteralIff("5.3"); }
    NumberFirst("5.3", "");
    OperatorFirst('+', "5.3" + "");
    assert !IsNumberLiteral("02.4") by { LiteralIff("02.4"); }
    NumberErrorFirst("02.4", "+" + ("5.3" + ""));
  }

  lemma SpacedAssignment(s: string)
    requires s == "a = 1"
    ensures Tokenize(s) == [Token(Id, Some("a")), Bare(Equal), Token(Number, Some("1"))]
  {
    SpacedAssignmentSteps();
    assert "a" + (" " + ("=" + (" " + ("1" + "")))) == s;
  }

  lemma SpacedAssignmentSteps()
    ensures Tokenize("a" + (" " + ("=" + (" " + ("1" + ""))))) == [Token(Id, Some("a")), Bare(Equal), Token(Number, Some("1"))]
  {
    NumberFirst("1", "");
    LeadingSpaces(" ", "1" + "");
    OperatorFirst('=', " " + ("1" + ""));
    LeadingSpaces(" ", "=" + (" " + ("1" + "")));
    IdFirst("a", " " + ("=" + (" " + ("1" + ""))));
  }

  /** The assignment statement with blanks before and inside its brackets. */
  lemma VarStatement(s: string)
    requires s == " var=7* (1 + 6)"
    ensures Tokenize(s) == [Token(Id, Some("var")), Bare(Equal), Token(Number, Some("7")), Bare(Asterisk), Bare(OpenBracket), Token(Number, Some("1")), Bare(Plus), Token(Number, Some("6")), Bare(CloseBracket)]
  {
    VarStatementJoin(s, " var", "=7* ", "(1", " + 6", ")");
  }

  /** The statement as the concatenation of its parts, each starting at a blank or an operator. */
  lemma VarStatementJoin(t: string, a: string, b: string, c: string, d: string, e: string)
    requires t == (a + b) + (c + (d + e))
    requires a == " var" && b == "=7* " && c == "(1" && d == " + 6" && e == ")"
    ensures Tokenize(t) == [Token(Id, Some("var")), Bare(Equal), Token(Number, Some("7")), Bare(Asterisk), Bare(OpenBracket), Token(Number, Some("1")), Bare(Plus), Token(Number, Some("6")), Bare(CloseBracket)]
  {
    assert [Token(Id, Some("var")), Bare(Equal), Token(Number, Some("7")), Bare(Asterisk)] + [Bare(OpenBracket), Token(Number, Some("1")), Bare(Plus), Token(Number, Some("6")), Bare(CloseBracket)] == [Token(Id, Some("var")), Bare(Equal), Token(Number, Some("7")), Bare(Asterisk), Bare(OpenBracket), Token(Number, Some("1")), Bare(Plus), Token(Number, Some("6")), Bare(CloseBracket)];
    VarStatementHead(a + b, a, b);
    VarStatementBrackets(c + (d + e), c, d, e);
    TokenizeAppend(a + b, c + (d + e));
  }

  /** " var=7* ", read part by part: no lexeme runs past a part, so the parts' lists concatenate. */
  lemma VarStatementHead(t: string, a: string, b: string)
    requires t == a + b
    requires a == " var" && b == "=7* "
    ensures Tokenize(t) == [Token(Id, Some("var")), Bare(Equal), Token(Number, Some("7")), Bare(Asterisk)]
  {
    assert [Token(Id, Some("var"))] + [Bare(Equal), Token(Number, Some("7")), Bare(Asterisk)] == [Token(Id, Some("var")), Bare(Equal), Token(Number, Some("7")), Bare(Asterisk)];
    VarStatementPart1Steps();
    assert " " + ("var" + "") == a;
    VarStatementPart2Steps();
    assert "=" + ("7" + ("*" + " ")) == b;
    TokenizeAppend(a, b);
  }

  /** "(1 + 6)", read part by part: no lexeme runs past a part, so the parts' lists concatenate. */
  lemma VarStatementBrackets(t: string, a: string, b: string, c: string)
    requires t == a + (b + c)
    requires a == "(1" && b == " + 6" && c == ")"
    ensures Tokenize(t) == [Bare(OpenBracket), Token(Number, Some("1")), Bare(Plus), Token(Number, Some("6")), Bare(CloseBracket)]
  {
    assert [Bare(OpenBracket), Token(Number, Some("1"))] + ([Bare(Plus), Token(Number, Some("6"))] + [Bare(CloseBracket)]) == [Bare(OpenBracket), Token(Number, Some("1")), Bare(Plus), Token(Number, Some("6")), Bare(CloseBracket)];
    VarStatementPart3Steps();
    assert "(" + ("1" + "") == a;
    VarStatementPart4Steps();
    assert " " + ("+" + (" " + ("6" + ""))) == b;
    VarStatementPart5Steps();
    assert ")" + "" == c;
    TokenizeAppend(b, c);
    TokenizeAppend(a, b + c);
  }

  lemma VarStatementPart1Steps()
    ensures Tokenize(" " + ("var" + "")) == [Token(Id, Some("var"))]
  {
    IdFirst("var", "");
    LeadingSpaces(" ", "var" + "");
  }

  lemma VarStatementPart2Steps()
    ensures Tokenize("=" + ("7" + ("*" + " "))) == [Bare(Equal), Token(Number, Some("7")), Bare(Asterisk)]
  {
    NoTokens(" ");
    OperatorFirst('*', " ");
    NumberFirst("7", "*" + " ");
    OperatorFirst('=', "7" + ("*" + " "));
  }

  lemma VarStatementPart3Steps()
    ensures Tokenize("(" + ("1" + "")) == [Bare(OpenBracket), Token(Number, Some("1"))]
  {
    NumberFirst("1", "");
    OperatorFirst('(', "1" + "");
  }

  lemma VarStatementPart4Steps()
    ensures Tokenize(" " + ("+" + (" " + ("6" + "")))) == [Bare(Plus), Token(Number, Some("6"))]
  {
    NumberFirst("6", "");
    LeadingSpaces(" ", "6" + "");
    OperatorFirst('+', " " + ("6" + ""));
    LeadingSpaces(" ", "+" + (" " + ("6" + "")));
  }

  lemma VarStatementPart5Steps()
    ensures Tokenize(")" + "") == [Bare(CloseBracket)]
  {
    OperatorFirst(')', "");
  }

  /** The long statement: three malformed numbers among well-formed lexemes, each still one token. */
  lemma LongStatement(s: string)
    requires s == "  k = 4 / (8.ab + .1) - 5abc * 9 "
    ensures Tokenize(s) == [Token(Id, Some("k")), Bare(Equal), Token(Number, Some("4")), Bare(Slash), Bare(OpenBracket), Token(Error, Some("8.ab")), Bare(Plus), Token(Error, Some(".1")), Bare(CloseBracket), Bare(Minus), Token(Error, Some("5abc")), Bare(Asterisk), Token(Number, Some("9"))]
  {
    LongStatementJoin(s, "  k", " = 4", " / ", "(8.ab", " + .1", ")", " - 5abc", " * 9 ");
  }

  /** The statement as the concatenation of its parts, each starting at a blank or an operator. */
  lemma LongStatementJoin(t: string, a: string, b: string, c: string, d: string, e: string, f: string, g: string, h: string)
    requires t == (a + (b + c)) + ((d + (e + f)) + (g + h))
    requires a == "  k" && b == " = 4" && c == " / " && d == "(8.ab" && e == " + .1" && f == ")" && g == " - 5abc" && h == " * 9 "
    ensures Tokenize(t) == [Token(Id, Some("k")), Bare(Equal), Token(Number, Some("4")), Bare(Slash), Bare(OpenBracket), Token(Error, Some("8.ab")), Bare(Plus), Token(Error, Some(".1")), Bare(CloseBracket), Bare(Minus), Token(Error, Some("5abc")), Bare(Asterisk), Token(Number, Some("9"))]
  {
    assert [Token(Id, Some("k")), Bare(Equal), Token(Number, Some("4")), Bare(Slash)] + ([Bare(OpenBracket), Token(Error, Some("8.ab")), Bare(Plus), Token(Error, Some(".1")), Bare(CloseBracket)] + [Bare(Minus), Token(Error, Some("5abc")), Bare(Asterisk), Token(Number, Some("9"))]) == [Token(Id, Some("k")), Bare(Equal), Token(Number, Some("4")), Bare(Slash), Bare(OpenBracket), Token(Error, Some("8.ab")), Bare(Plus), Token(Error, Some(".1")), Bare(CloseBracket), Bare(Minus), Token(Error, Some("5abc")), Bare(Asterisk), Token(Number, Some("9"))];
    LongStatementHead(a + (b + c), a, b, c);
    LongStatementBrackets(d + (e + f), d, e, f);
    LongStatementTail(g + h, g, h);
    TokenizeAppend(d + (e + f), g + h);
    TokenizeAppend(a + (b + c), (d + (e + f)) + (g + h));
  }

  /** "  k = 4 / ", read part by part: no lexeme runs past a part, so the parts' lists concatenate. */
  lemma LongStatementHead(t: string, a: string, b: string, c: string)
    requires t == a + (b + c)
    requires a == "  k" && b == " = 4" && c == " / "
    ensures Tokenize(t) == [Token(Id, Some("k")), Bare(Equal), Token(Number, Some("4")), Bare(Slash)]
  {
    assert [Token(Id, Some("k"))] + ([Bare(Equal), Token(Number, Some("4"))] + [Bare(Slash)]) == [Token(Id, Some("k")), Bare(Equal), Token(Number, Some("4")), Bare(Slash)];
    LongStatementPart1Steps();
    assert "  " + ("k" + "") == a;
    LongStatementPart2Steps();
    assert " " + ("=" + (" " + ("4" + ""))) == b;
    LongStatementPart3Steps();
    assert " " + ("/" + " ") == c;
    TokenizeAppend(b, c);
    TokenizeAppend(a, b + c);
  }

  /** "(8.ab + .1)", read part by part: no lexeme runs past a part, so the parts' lists concatenate. */
  lemma LongStatementBrackets(t: string, a: string, b: string, c: string)
    requires t == a + (b + c)
    requires a == "(8.ab" && b == " + .1" && c == ")"
    ensures Tokenize(t) == [Bare(OpenBracket), Token(Error, Some("8.ab")), Bare(Plus), Token(Error, Some(".1")), Bare(CloseBracket)]
  {
    assert [Bare(OpenBracket), Token(Error, Some("8.ab"))] + ([Bare(Plus), Token(Error, Some(".1"))] + [Bare(CloseBracket)]) == [Bare(OpenBracket), Token(Error, Some("8.ab")), Bare(Plus), Token(Error, Some(".1")), Bare(CloseBracket)];
    LongStatementPart4Steps();
    assert "(" + ("8.ab" + "") == a;
    LongStatementPart5Steps();
    assert " " + ("+" + (" " + (".1" + ""))) == b;
    LongStatementPart6Steps();
    assert ")" + "" == c;
    TokenizeAppend(b, c);
    TokenizeAppend(a, b + c);
  }

  /** " - 5abc * 9 ", read part by part: no lexeme runs past a part, so the parts' lists concatenate. */
  lemma LongStatementTail(t: string, a: string, b: string)
    requires t == a + b
    requires a == " - 5abc" && b == " * 9 "
    ensures Tokenize(t) == [Bare(Minus), Token(Error, Some("5abc")), Bare(Asterisk), Token(Number, Some("9"))]
  {
    assert [Bare(Minus), Token(Error, Some("5abc"))] + [Bare(Asterisk), Token(Number, Some("9"))] == [Bare(Minus), Token(Error, Some("5abc")), Bare(Asterisk), Token(Number, Some("9"))];
    LongStatementPart7Steps();
    assert " " + ("-" + (" " + ("5abc" + ""))) == a;
    LongStatementPart8Steps();
    assert " " + ("*" + (" " + ("9" + " "))) == b;
    TokenizeAppend(a, b);
  }

  lemma LongStatementPart1Steps()
    ensures Tokenize("  " + ("k" + "")) == [Token(Id, Some("k"))]
  {
    IdFirst("k", "");
    LeadingSpaces("  ", "k" + "");
  }

  lemma LongStatementPart2Steps()
    ensures Tokenize(" " + ("=" + (" " + ("4" + "")))) == [Bare(Equal), Token(Number, Some("4"))]
  {
    NumberFirst("4", "");
    LeadingSpaces(" ", "4" + "");
    OperatorFirst('=', " " + ("4" + ""));
    LeadingSpaces(" ", "=" + (" " + ("4" + "")));
  }

  lemma LongStatementPart3Steps()
    ensures Tokenize(" " + ("/" + " ")) == [Bare(Slash)]
  {
    NoTokens(" ");
    OperatorFirst('/', " ");
    LeadingSpaces(" ", "/" + " ");
  }

  lemma LongStatementPart4Steps()
    ensures Tokenize("(" + ("8.ab" + "")) == [Bare(OpenBracket), Token(Error, Some("8.ab"))]
  {
    assert !IsNumberLiteral("8.ab") by { LiteralIff("8.ab"); assert "8.ab"[2] == 'a'; }
    NumberErrorFirst("8.ab", "");
    OperatorFirst('(', "8.ab" + "");
  }

  lemma LongStatementPart5Steps()
    ensures Tokenize(" " + ("+" + (" " + (".1" + "")))) == [Bare(Plus), Token(Error, Some(".1"))]
  {
    assert !IsNumberLiteral(".1") by { LiteralIff(".1"); }
    NumberErrorFirst(".1", "");
    LeadingSpaces(" ", ".1" + "");
    OperatorFirst('+', " " + (".1" + ""));
    LeadingSpaces(" ", "+" + (" " + (".1" + "")));
  }

  lemma LongStatementPart6Steps()
    ensures Tokenize(")" + "") == [Bare(CloseBracket)]
  {
    OperatorFirst(')', "");
  }

  lemma LongStatementPart7Steps()
    ensures Tokenize(" " + ("-" + (" " + ("5abc" + "")))) == [Bare(Minus), Token(Error, Some("5abc"))]
  {
    assert !IsNumberLiteral("5abc") by { LiteralIff("5abc"); assert "5abc"[1] == 'a'; }
    NumberErrorFirst("5abc", "");
    LeadingSpaces(" ", "5abc" + "");
    OperatorFirst('-', " " + ("5abc" + ""));
    LeadingSpaces(" ", "-" + (" " + ("5abc" + "")));
  }

  lemma LongStatementPart8Steps()
    ensures Tokenize(" " + ("*" + (" " + ("9" + " ")))) == [Bare(Asterisk), Token(Number, Some("9"))]
  {
    NoTokens(" ");
    NumberFirst("9", " ");
    LeadingSpaces(" ", "9" + " ");
    OperatorFirst('*', " " + ("9" + " "));
    LeadingSpaces(" ", "*" + (" " + ("9" + " ")));
  }

  // Two lexemes of the longer statement test, each read on its own.

  /** Letters after a fraction do not end the number: "8.ab" is one Error. */
  lemma LettersAfterFraction()
    ensures Tokenize("8.ab") == [Token(Error, Some("8.ab"))]
  {
    assert !IsNumberLiteral("8.ab") by { LiteralIff("8.ab"); assert "8.ab"[2] == 'a'; }
    NumberErrorAlone("8.ab");
  }

  /** Letters after a digit do not end the number: "5abc" is one Error. */
  lemma LettersAfterDigit()
    ensures Tokenize("5abc") == [Token(Error, Some("5abc"))]
  {
    assert !IsNumberLiteral("5abc") by { LiteralIff("5abc"); assert "5abc"[1] == 'a'; }
    NumberErrorAlone("5abc");
  }
}

/** The earlier snapshot on inputs where it differs from the current scanner. */
module SnapshotExamples {
  import opened Tokens
  import opened CharClass
  import opened SnapshotSpec

  /** The snapshot stops a number at the first letter and reports the letter on its own. */
  lemma DigitThenLetter()
    ensures TokenizeFrom("5a", 0) == [Token(Number, Some("5")), Bare(Error)]
  {
    var s := "5a";
    RunEndUnique(s, 1, 1, Digits);
    assert s[0..1] == "5";
    assert NextToken(s, 0) == (Token(Number, Some("5")), 1);
  }

  lemma TwoDotsInARow()
    ensures TokenizeFrom("5..0", 0) == [Token(Error, Some("5..0"))]
  {
    TwoDotsInARowScan("5..0");
  }

  lemma TwoDotsInARowScan(s: string)
    requires s == "5..0"
    ensures NextToken(s, 0) == (Token(Error, Some(s)), 4)
  {
    RunEndUnique(s, 1, 1, Digits);
    RunEndUnique(s, 2, 2, Digits);
    RunEndUnique(s, 2, 4, DigitsOrDots);
    assert s[0..4] == s;
    assert NumberEnd(s, 0) == (4, true);
  }
}
