/** Token kinds and tokens shared by the hand-written scanners
    (ManualLexer/Token.h); the automaton lexer's header declares the same enumeration. */
module Tokens {

  datatype Option<+T> = None | Some(value: T)

  /** The eleven token kinds, in the order the enumeration declares them. */
  datatype TokenType =
    | End | Error | Number | Id
    | Plus | Minus | Asterisk | Slash | Equal
    | OpenBracket | CloseBracket
  {
    /** The enumerator's numeric value: End is 0, the rest follow consecutively. */
    function Ordinal(): (n: nat)
      ensures n <= 10
      ensures n == 0 <==> this == End
    {
      match this
      case End => 0
      case Error => 1
      case Number => 2
      case Id => 3
      case Plus => 4
      case Minus => 5
      case Asterisk => 6
      case Slash => 7
      case Equal => 8
      case OpenBracket => 9
      case CloseBracket => 10
    }

    /** Kinds whose tokens may carry the scanned text. */
    predicate CarriesText() {
      this == Number || this == Id || this == Error
    }
  }

  /** The largest enumerator value (TT_CLOSE_BRACKET). */
  const MaxOrdinal: nat := 10

  /** The kind whose enumerator value is n (a static_cast from an integer). */
  function FromOrdinal(n: nat): (k: TokenType)
    requires n <= MaxOrdinal
    ensures k.Ordinal() == n
  {
    match n
    case 0 => End
    case 1 => Error
    case 2 => Number
    case 3 => Id
    case 4 => Plus
    case 5 => Minus
    case 6 => Asterisk
    case 7 => Slash
    case 8 => Equal
    case 9 => OpenBracket
    case _ => CloseBracket
  }

  /** Distinct kinds have distinct values, so the enumeration is a bijection onto 0..10. */
  lemma OrdinalInjective(a: TokenType, b: TokenType)
    ensures a.Ordinal() == b.Ordinal() ==> a == b
    ensures FromOrdinal(a.Ordinal()) == a
  {
  }

  /** A token: its kind and, optionally, the text it was scanned from. */
  datatype Token = Token(kind: TokenType, value: Option<string>)

  /** `Token{ kind }`: aggregate initialisation leaves the text absent. */
  function Bare(kind: TokenType): (t: Token)
    ensures t.kind == kind && t.value.None?
  {
    Token(kind, None)
  }

  /** A default-initialised token. */
  function DefaultToken(): (t: Token)
    ensures t.kind.Ordinal() == 0 && t.value.None?
  {
    Token(End, None)
  }

  /** Token equality as the tests define it: same kind and same optional text. */
  function SameToken(a: Token, b: Token): (r: bool)
    ensures r <==> a == b
  {
    a.kind == b.kind && a.value == b.value
  }

  /** The display name the tests print for each kind. */
  function DisplayName(k: TokenType): (name: string)
    ensures |name| >= 1
  {
    match k
    case End => "end"
    case Error => "error"
    case Number => "number"
    case Id => "id"
    case Plus => "+"
    case Minus => "-"
    case Asterisk => "*"
    case Slash => "/"
    case Equal => "="
    case OpenBracket => "("
    case CloseBracket => ")"
  }

  /** No two kinds share a display name. */
  lemma DisplayNameInjective(a: TokenType, b: TokenType)
    ensures DisplayName(a) == DisplayName(b) ==> a == b
  {
  }
}
