/** The automaton lexer's token (02-auto-lexer/AutoLexer/Token.h): the same eleven kinds and
    kind-plus-optional-text shape as the hand-written scanners', built by three constructors. */
module AutoToken {
  import opened Tokens

  /** `Token(TokenType, std::string)`: keeps the text whatever the kind. */
  function WithText(kind: TokenType, str: string): (t: Token)
    ensures t.kind == kind && t.value.Some? && t.value.value == str
  {
    Token(kind, Some(str))
  }

  /** `Token(TokenType)`: no text, the same token as the hand-written scanners' `Bare`. */
  function FromKind(kind: TokenType): (t: Token)
    ensures t.kind == kind && t.value.None?
  {
    Bare(kind)
  }

  /** `Token(size_t, std::string)`: a rule id in 1..TT_CLOSE_BRACKET becomes the kind with
      that value and any other id becomes Error; the text is kept for Number, Id and Error only. */
  function FromId(number: nat, str: string): (t: Token)
    ensures 0 < number <= MaxOrdinal ==> t.kind.Ordinal() == number
    ensures !(0 < number <= MaxOrdinal) ==> t.kind == Error
    ensures t.kind != End
    ensures t.value.Some? <==> t.kind.CarriesText()
    ensures t.value.Some? ==> t.value.value == str
  {
    var kind := if 0 < number <= MaxOrdinal then FromOrdinal(number) else Error;
    if kind == Number || kind == Id || kind == Error then Token(kind, Some(str)) else Token(kind, None)
  }

  /** Every kind but End comes back from its own value: as WithText for the text-carrying kinds,
      as FromKind for the operators and brackets. */
  lemma FromIdOrdinal(kind: TokenType, str: string)
    requires kind != End
    ensures FromId(kind.Ordinal(), str) == (if kind.CarriesText() then WithText(kind, str) else FromKind(kind))
  {
    OrdinalInjective(kind, FromId(kind.Ordinal(), str).kind);
  }

  /** An id outside 1..TT_CLOSE_BRACKET, End's 0 included, is an error that keeps the text. */
  lemma FromIdOutOfRange(number: nat, str: string)
    requires number == 0 || number > MaxOrdinal
    ensures FromId(number, str) == WithText(Error, str)
  {
  }

  /** The ids the constructor accepts are exactly the values of the kinds other than End. */
  lemma FromIdRange(number: nat, str: string)
    ensures FromId(number, str).kind.Ordinal() == number <==> 0 < number <= MaxOrdinal
  {
  }
}
