// The token vocabulary of the calculator: the token enumeration, the operator
// table and its inverse, the binding ranks used by the parser, and the ASCII
// character classes used by the scanner (token.go).
module Tokens {
  import opened Common

  /** The token kinds, in declaration (iota) order: Illegal is the zero token. */
  datatype Token =
    | Illegal | EOF | ID | Integer | Float | Char | String
    | OpLParen | OpRParen | OpLBracket | OpRBracket
    | OpNot | OpEq | OpNeq | OpGt | OpLt | OpGte | OpLte | OpAnd | OpOr
    | OpAdd | OpMinus | OpMultiply | OpDivide | OpModulus
    | OpBitwiseAnd | OpBitwiseOr | OpBitwiseXor | OpBitwiseLShift | OpBitwiseRShift | OpBitwiseNot
    | OpAccess | OpSeparate

  /** Every token, at the position of its Go integer value. */
  const AllTokens: seq<Token> := [
    Illegal, EOF, ID, Integer, Float, Char, String,
    OpLParen, OpRParen, OpLBracket, OpRBracket,
    OpNot, OpEq, OpNeq, OpGt, OpLt, OpGte, OpLte, OpAnd, OpOr,
    OpAdd, OpMinus, OpMultiply, OpDivide, OpModulus,
    OpBitwiseAnd, OpBitwiseOr, OpBitwiseXor, OpBitwiseLShift, OpBitwiseRShift, OpBitwiseNot,
    OpAccess, OpSeparate]

  /** The Go integer value of a token (`token` is a Go `int`, numbered by iota). */
  function TokenCode(t: Token): (n: nat)
    ensures n < |AllTokens| && AllTokens[n] == t
  {
    match t
    case Illegal => 0
    case EOF => 1
    case ID => 2
    case Integer => 3
    case Float => 4
    case Char => 5
    case String => 6
    case OpLParen => 7
    case OpRParen => 8
    case OpLBracket => 9
    case OpRBracket => 10
    case OpNot => 11
    case OpEq => 12
    case OpNeq => 13
    case OpGt => 14
    case OpLt => 15
    case OpGte => 16
    case OpLte => 17
    case OpAnd => 18
    case OpOr => 19
    case OpAdd => 20
    case OpMinus => 21
    case OpMultiply => 22
    case OpDivide => 23
    case OpModulus => 24
    case OpBitwiseAnd => 25
    case OpBitwiseOr => 26
    case OpBitwiseXor => 27
    case OpBitwiseLShift => 28
    case OpBitwiseRShift => 29
    case OpBitwiseNot => 30
    case OpAccess => 31
    case OpSeparate => 32
  }

  /** The declared token with Go integer value `n`, if there is one. */
  function FromCode(n: int): (r: Option<Token>)
    ensures r.Some? <==> 0 <= n < 33
  {
    if 0 <= n < |AllTokens| then Some(AllTokens[n]) else None
  }

  /** Converting a token to its integer value and back gives the token. */
  lemma CodeRoundTrip(t: Token)
    ensures FromCode(TokenCode(t)) == Some(t)
  {
  }

  /** `token.String()`: the display name of a token. */
  function TokenString(t: Token): string
  {
    match t
    case EOF => "EOF"
    case ID => "Identifier"
    case Illegal => "Illegal"
    case Integer => "INTEGER"
    case Float => "FLOAT"
    case Char => "CHAR"
    case String => "STRING"
    case OpLParen => "("
    case OpRParen => ")"
    case OpLBracket => "["
    case OpRBracket => "]"
    case OpNot => "!"
    case OpEq => "=="
    case OpNeq => "!="
    case OpGt => ">"
    case OpLt => "<"
    case OpGte => ">="
    case OpLte => "<="
    case OpAnd => "&&"
    case OpOr => "||"
    case OpAdd => "+"
    case OpMinus => "-"
    case OpMultiply => "*"
    case OpDivide => "/"
    case OpModulus => "%"
    case OpBitwiseAnd => "&"
    case OpBitwiseOr => "|"
    case OpBitwiseXor => "^"
    case OpBitwiseLShift => "<<"
    case OpBitwiseRShift => ">>"
    case OpBitwiseNot => "~"
    case OpAccess => "."
    case OpSeparate => ","
  }

  /** `token(n).String()` for an arbitrary Go integer `n`: the switch has no case
      for values outside the declared range, which fall through to "". */
  function StringOfCode(n: int): (s: string)
    ensures s == "" <==> !(0 <= n < 33)
    ensures 0 <= n < 33 ==> s == TokenString(AllTokens[n])
  {
    match FromCode(n)
    case Some(t) => NameNotEmpty(t); TokenString(t)
    case None => ""
  }

  lemma NameNotEmpty(t: Token)
    ensures TokenString(t) != ""
  {
  }

  /** The operator and punctuation tokens `OpLParen .. OpSeparate`. */
  predicate IsOperator(t: Token) {
    t !in {Illegal, EOF, ID, Integer, Float, Char, String}
  }

  /** `operatorMap`: operator spelling to token. */
  const OperatorMap: map<string, Token> := map[
    "(" := OpLParen,
    ")" := OpRParen,
    "[" := OpLBracket,
    "]" := OpRBracket,
    "!" := OpNot,
    "==" := OpEq,
    "!=" := OpNeq,
    ">" := OpGt,
    "<" := OpLt,
    ">=" := OpGte,
    "<=" := OpLte,
    "&&" := OpAnd,
    "||" := OpOr,
    "+" := OpAdd,
    "-" := OpMinus,
    "*" := OpMultiply,
    "/" := OpDivide,
    "%" := OpModulus,
    "&" := OpBitwiseAnd,
    "|" := OpBitwiseOr,
    "^" := OpBitwiseXor,
    "<<" := OpBitwiseLShift,
    ">>" := OpBitwiseRShift,
    "~" := OpBitwiseNot,
    "." := OpAccess,
    "," := OpSeparate]

  /** `getOperator`: a Go map index, which yields the zero token for a missing key. */
  function GetOperator(s: string): Token
  {
    if s in OperatorMap then OperatorMap[s] else Illegal
  }

  /** Every entry of the operator table is spelled as its token prints. */
  lemma OperatorMapSpelling(s: string)
    requires s in OperatorMap
    ensures IsOperator(OperatorMap[s]) && TokenString(OperatorMap[s]) == s
  {
  }

  /** Reading the display name of an operator token back through the table gives the token:
      `getOperator` and `String` are inverse on the operator set. */
  lemma GetOperatorOfString(t: Token)
    requires IsOperator(t)
    ensures TokenString(t) in OperatorMap && GetOperator(TokenString(t)) == t
  {
    match t
    case OpLParen => assert OperatorMap["("] == t;
    case OpRParen => assert OperatorMap[")"] == t;
    case OpLBracket => assert OperatorMap["["] == t;
    case OpRBracket => assert OperatorMap["]"] == t;
    case OpNot => assert OperatorMap["!"] == t;
    case OpEq => assert OperatorMap["=="] == t;
    case OpNeq => assert OperatorMap["!="] == t;
    case OpGt => assert OperatorMap[">"] == t;
    case OpLt => assert OperatorMap["<"] == t;
    case OpGte => assert OperatorMap[">="] == t;
    case OpLte => assert OperatorMap["<="] == t;
    case OpAnd => assert OperatorMap["&&"] == t;
    case OpOr => assert OperatorMap["||"] == t;
    case OpAdd => assert OperatorMap["+"] == t;
    case OpMinus => assert OperatorMap["-"] == t;
    case OpMultiply => assert OperatorMap["*"] == t;
    case OpDivide => assert OperatorMap["/"] == t;
    case OpModulus => assert OperatorMap["%"] == t;
    case OpBitwiseAnd => assert OperatorMap["&"] == t;
    case OpBitwiseOr => assert OperatorMap["|"] == t;
    case OpBitwiseXor => assert OperatorMap["^"] == t;
    case OpBitwiseLShift => assert OperatorMap["<<"] == t;
    case OpBitwiseRShift => assert OperatorMap[">>"] == t;
    case OpBitwiseNot => assert OperatorMap["~"] == t;
    case OpAccess => assert OperatorMap["."] == t;
    case OpSeparate => assert OperatorMap[","] == t;
    case _ =>
  }

  /** A spelling outside the table yields the zero token. */
  lemma GetOperatorUnknown(s: string)
    requires s !in OperatorMap
    ensures GetOperator(s) == Illegal && TokenCode(GetOperator(s)) == 0
  {
  }

  /** All declared tokens have distinct display names. */
  lemma TokenStringInjective(a: Token, b: Token)
    requires TokenString(a) == TokenString(b)
    ensures a == b
  {
    if IsOperator(a) && IsOperator(b) {
      GetOperatorOfString(a);
      GetOperatorOfString(b);
    } else if IsOperator(a) {
      GetOperatorOfString(a);
    } else if IsOperator(b) {
      GetOperatorOfString(b);
    }
  }

  /** `precedenceOf`: the binding rank of a token, smaller binds tighter; 0 means
      "not a binary operator". */
  function PrecedenceOf(op: Token): (p: nat)
    ensures p <= 15
  {
    match op
    case OpNot | OpBitwiseNot => 2
    case OpMultiply | OpDivide | OpModulus => 3
    case OpAdd | OpMinus => 4
    case OpBitwiseLShift | OpBitwiseRShift => 5
    case OpGt | OpLt | OpGte | OpLte => 6
    case OpEq | OpNeq => 7
    case OpBitwiseAnd => 8
    case OpBitwiseXor => 9
    case OpBitwiseOr => 10
    case OpAnd => 11
    case OpOr => 12
    case OpSeparate => 15
    case _ => 0
  }

  /** Rank 0 is given exactly to the tokens that cannot continue a binary expression. */
  lemma PrecedenceZero(t: Token)
    ensures PrecedenceOf(t) == 0 <==>
      t in {Illegal, EOF, ID, Integer, Float, Char, String,
            OpLParen, OpRParen, OpLBracket, OpRBracket, OpAccess}
  {
  }

  /** `token.precedenceWith`: `a` binds strictly tighter than `b`. */
  function TokenPrecedenceWith(a: Token, b: Token): bool
  {
    PrecedenceOf(a) < PrecedenceOf(b)
  }

  /** `precedence.precedenceWith`: strict comparison of ranks. */
  function RankPrecedenceWith(p: int, q: int): bool
  {
    p < q
  }

  /** Comparing tokens is comparing their ranks, and rank comparison is a strict
      order: irreflexive and transitive. */
  lemma PrecedenceWithStrictOrder(a: Token, b: Token, p: int, q: int, r: int)
    ensures TokenPrecedenceWith(a, b) == RankPrecedenceWith(PrecedenceOf(a), PrecedenceOf(b))
    ensures !RankPrecedenceWith(p, p)
    ensures RankPrecedenceWith(p, q) && RankPrecedenceWith(q, r) ==> RankPrecedenceWith(p, r)
  {
  }

  /** `isDecimal`: an ASCII digit. Runes are Go `rune` values; the scanner uses -1 for "no character". */
  predicate IsDecimal(c: int) {
    '0' as int <= c <= '9' as int
  }

  /** `isLetter`: an ASCII letter. */
  predicate IsLetter(c: int) {
    'a' as int <= c <= 'z' as int || 'A' as int <= c <= 'Z' as int
  }

  /** `isSpace`: space, tab, newline, carriage return, form feed, vertical tab, NEL and NBSP. */
  predicate IsSpace(c: int) {
    c in {' ' as int, '\t' as int, '\n' as int, '\r' as int, 0x0C, 0x0B, 0x85, 0xA0}
  }

  /** The three character classes are pairwise disjoint, and none contains the end marker -1. */
  lemma CharClassesDisjoint(c: int)
    ensures !(IsDecimal(c) && IsLetter(c))
    ensures IsSpace(c) ==> !IsDecimal(c) && !IsLetter(c)
    ensures !IsDecimal(-1) && !IsLetter(-1) && !IsSpace(-1)
  {
  }
}
