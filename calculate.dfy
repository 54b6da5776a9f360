// The evaluator of calculate.go: a walk over the expression tree against a map
// from names to Go values. `Calc` installs the map (creating one for nil and
// writing the "true" and "false" entries into it); the walk itself only reads it.
module Calculate {
  import opened Common
  import opened Tokens
  import opened Ast
  import opened GoInt
  import opened GoText
  import opened Scanning
  import opened Parsing

  /** A `float32` value, kept as the term that computes it: floating-point
      arithmetic is not modelled, only which operation is applied to what. */
  datatype Float32 =
    | Decimal32(text: string)        // float32(strconv.ParseFloat(text, 32))
    | Param32(bits32: bv32)          // a float32 parameter
    | Narrowed(bits64: bv64)         // float32(v) for a float64 parameter v
    | OfInt(i: Int64)                // float32(n) for an int n
    | FAdd(a: Float32, b: Float32)
    | FSub(a: Float32, b: Float32)
    | FMul(a: Float32, b: Float32)
    | FDiv(a: Float32, b: Float32)
    | FNeg(a: Float32)

  /** The `data` of a `Result`; its `kind` is determined by the variant (`KindOf`). */
  datatype Value =
    | IntV(i: Int64)
    | FloatV(f: Float32)
    | StrV(s: seq<Byte>)
    | BoolV(b: bool)
    | CharV(c: Byte)

  /** The `kind` field of a `Result`: booleans have kind ID. */
  function KindOf(v: Value): (k: Token)
    ensures k in {Integer, Float, String, ID, Char}
  {
    match v
    case IntV(_) => Integer
    case FloatV(_) => Float
    case StrV(_) => String
    case BoolV(_) => ID
    case CharV(_) => Char
  }

  /** The errors of the evaluator: "token error", "parse char error", and the errors
      of `strconv` (syntax or range). */
  datatype Failure = TokenError | ParseCharError | NumError

  /** What `calcExpr` does: return a result, return an error, or panic on an
      integer division by zero. */
  datatype Outcome = Ok(v: Value) | Err(f: Failure) | DivPanic

  /** The dynamic value stored under a name in the `map[string]interface{}`. */
  datatype GoValue =
    | GoInt(vInt: Int64)
    | GoInt8(vInt8: Int8)
    | GoInt16(vInt16: Int16)
    | GoInt32(vInt32: Int32)
    | GoInt64(vInt64: Int64)
    | GoUint(vUint: Uint64)
    | GoUint8(vUint8: Uint8)
    | GoUint16(vUint16: Uint16)
    | GoUint32(vUint32: Uint32)
    | GoUint64(vUint64: Uint64)
    | GoFloat64(vFloat64: bv64)
    | GoFloat32(vFloat32: bv32)
    | GoString(vString: seq<Byte>)
    | GoBool(vBool: bool)
    | GoOther        // nil, and every other dynamic type

  type Env = map<string, GoValue>

  // ----------------------------------------------------------------------------
  // Literals

  /** `float32` overflows for every decimal value from 2^128 - 2^103 up: halfway
      between the largest finite `float32` and 2^128, where rounding goes up. */
  const Float32Overflow: nat := 0xFFFFFF8_0000000000000000000000000

  function Pow10(n: nat): (p: nat)
    ensures p >= 1
  {
    if n == 0 then 1 else 10 * Pow10(n - 1)
  }

  /** The position of the first '.' at or after `i`, or `|s|`. */
  function DotIndex(s: string, i: nat): (k: nat)
    requires i <= |s|
    ensures i <= k <= |s|
    ensures k < |s| ==> s[k] == '.'
    ensures forall m :: i <= m < k ==> s[m] != '.'
    decreases |s| - i
  {
    if i == |s| || s[i] == '.' then i else DotIndex(s, i + 1)
  }

  /** Digits, a dot and digits: the spelling of every Float lexeme. */
  predicate IsDecimalFraction(s: string)
  {
    var k := DotIndex(s, 0);
    0 < k < |s| - 1 && AllDigits(s[..k]) && AllDigits(s[k + 1..])
  }

  /** `strconv.ParseFloat(raw, 32)` on a decimal fraction: a range error when the value
      rounds past the largest `float32`; otherwise the rounded value. */
  function FloatLiteral(raw: string): (r: Outcome)
    ensures r.Ok? ==> r.v == FloatV(Decimal32(raw)) && IsDecimalFraction(raw)
    ensures !IsDecimalFraction(raw) ==> r == Err(NumError)
  {
    if !IsDecimalFraction(raw) then Err(NumError)
    else
      var k := DotIndex(raw, 0);
      var digits := raw[..k] + raw[k + 1..];
      assert AllDigits(digits) by {
        forall m | 0 <= m < |digits|
          ensures '0' <= digits[m] <= '9'
        {
          if m >= k {
            assert digits[m] == raw[k + 1..][m - k];
          }
        }
      }
      if DigitsValue(digits) >= Float32Overflow * Pow10(|raw| - k - 1) then Err(NumError)
      else Ok(FloatV(Decimal32(raw)))
  }

  /** A Char literal of exactly three bytes gives its middle byte; any other length is
      "parse char error" (so escapes and non-ASCII runes fail). */
  function CharLiteral(raw: string): (r: Outcome)
    ensures r.Ok? <==> |Utf8(raw)| == 3
    ensures r.Ok? ==> r.v == CharV(Utf8(raw)[1])
    ensures !r.Ok? ==> r == Err(ParseCharError)
  {
    var b := Utf8(raw);
    if |b| == 3 then Ok(CharV(b[1])) else Err(ParseCharError)
  }

  /** `calcLiteralExpr`: decode the literal's text by its kind, at evaluation time. */
  function EvalLiteral(kind: Token, raw: string): (r: Outcome)
    ensures r.Ok? ==> KindOf(r.v) == kind
    ensures r.DivPanic? == false
    ensures kind !in {Integer, Float, Char, String} ==> r == Err(TokenError)
  {
    match kind
    case Integer =>
      (match Atoi(raw)
       case Some(n) => Ok(IntV(n))
       case None => Err(NumError))
    case Float => FloatLiteral(raw)
    case Char => CharLiteral(raw)
    case String =>
      (match Unquote(raw)
       case Some(b) => Ok(StrV(b))
       case None => Err(NumError))
    case _ => Err(TokenError)
  }

  // ----------------------------------------------------------------------------
  // Identifiers

  /** `calcIDExpr`: look the name up and normalise the value by its dynamic type. The
      signed types up to 32 bits, `int`, and the unsigned types up to 32 bits keep
      their value; `uint` is converted with wrap-around; `int64`, `uint64` and every
      other type are an error, as is a missing name. */
  function EvalIdent(name: string, env: Env): (r: Outcome)
    ensures r.DivPanic? == false
    ensures name !in env ==> r == Err(TokenError)
    ensures r.Ok? <==> name in env && !(env[name].GoInt64? || env[name].GoUint64? || env[name].GoOther?)
    ensures !r.Ok? ==> r == Err(TokenError)
    ensures r.Ok? ==> (KindOf(r.v) ==
                        if env[name].GoString? then String
                        else if env[name].GoBool? then ID
                        else if env[name].GoFloat64? || env[name].GoFloat32? then Float
                        else Integer)
  {
    if name !in env then Err(TokenError)
    else match env[name]
      case GoInt(v) => Ok(IntV(v))
      case GoInt8(v) => Ok(IntV(v))
      case GoInt16(v) => Ok(IntV(v))
      case GoInt32(v) => Ok(IntV(v))
      case GoUint(v) => Ok(IntV(Wrap64(v)))
      case GoUint8(v) => Ok(IntV(v))
      case GoUint16(v) => Ok(IntV(v))
      case GoUint32(v) => Ok(IntV(v))
      case GoFloat64(x) => Ok(FloatV(Narrowed(x)))
      case GoFloat32(x) => Ok(FloatV(Param32(x)))
      case GoString(s) => Ok(StrV(s))
      case GoBool(b) => Ok(BoolV(b))
      case _ => Err(TokenError)
  }

  // ----------------------------------------------------------------------------
  // Operators

  /** The operators `calcBinaryExpr` handles; every other one is an error. */
  predicate IsArithmetic(op: Token)
  {
    op in {OpAdd, OpMinus, OpMultiply, OpDivide, OpModulus}
  }

  predicate IsNumeric(v: Value)
  {
    v.IntV? || v.FloatV?
  }

  /** The `float32` an operand is promoted to in a mixed operation. */
  function Promote(v: Value): Float32
    requires IsNumeric(v)
  {
    if v.IntV? then OfInt(v.i) else v.f
  }

  /** The float operation an arithmetic operator stands for (`%` has none). */
  function FloatOp(op: Token, a: Float32, b: Float32): Float32
    requires op in {OpAdd, OpMinus, OpMultiply, OpDivide}
  {
    match op
    case OpAdd => FAdd(a, b)
    case OpMinus => FSub(a, b)
    case OpMultiply => FMul(a, b)
    case OpDivide => FDiv(a, b)
  }

  /** The kind dispatch of `calcBinaryExpr` once both operands are values. Integer
      pairs use Go's wrapping `int` arithmetic, and `/` or `%` by zero panics;
      any pair involving a Float is computed in `float32` after promotion; two
      Strings concatenate under `+`; every other combination is "token error". */
  function Arith(op: Token, a: Value, b: Value): (r: Outcome)
    ensures r.DivPanic? <==> op in {OpDivide, OpModulus} && a.IntV? && b.IntV? && b.i == 0
    ensures r.Ok? <==>
      (op in {OpAdd, OpMinus, OpMultiply, OpDivide} && IsNumeric(a) && IsNumeric(b) && !r.DivPanic?) ||
      (op == OpModulus && a.IntV? && b.IntV? && b.i != 0) ||
      (op == OpAdd && a.StrV? && b.StrV?)
    ensures r.Err? ==> r.f == TokenError
    ensures r.Ok? ==>
      KindOf(r.v) == (if a.IntV? && b.IntV? then Integer else if a.StrV? then String else Float)
  {
    if op == OpAdd then
      if a.IntV? && b.IntV? then Ok(IntV(Add(a.i, b.i)))
      else if IsNumeric(a) && IsNumeric(b) then Ok(FloatV(FAdd(Promote(a), Promote(b))))
      else if a.StrV? && b.StrV? then Ok(StrV(a.s + b.s))
      else Err(TokenError)
    else if op == OpMinus then
      if a.IntV? && b.IntV? then Ok(IntV(Sub(a.i, b.i)))
      else if IsNumeric(a) && IsNumeric(b) then Ok(FloatV(FSub(Promote(a), Promote(b))))
      else Err(TokenError)
    else if op == OpMultiply then
      if a.IntV? && b.IntV? then Ok(IntV(Mul(a.i, b.i)))
      else if IsNumeric(a) && IsNumeric(b) then Ok(FloatV(FMul(Promote(a), Promote(b))))
      else Err(TokenError)
    else if op == OpDivide then
      if a.IntV? && b.IntV? then (if b.i == 0 then DivPanic else Ok(IntV(GoQuot(a.i, b.i))))
      else if IsNumeric(a) && IsNumeric(b) then Ok(FloatV(FDiv(Promote(a), Promote(b))))
      else Err(TokenError)
    else if op == OpModulus then
      if a.IntV? && b.IntV? then (if b.i == 0 then DivPanic else Ok(IntV(GoRem(a.i, b.i))))
      else Err(TokenError)
    else Err(TokenError)
  }

  /** The Integer-minus-Float case as calculate.go:216 writes it: it adds. */
  function ArithAsWritten(op: Token, a: Value, b: Value): (r: Outcome)
    ensures !(op == OpMinus && a.IntV? && b.FloatV?) ==> r == Arith(op, a, b)
  {
    if op == OpMinus && a.IntV? && b.FloatV? then Ok(FloatV(FAdd(OfInt(a.i), b.f)))
    else Arith(op, a, b)
  }

  /** The as-written code breaks the promotion rule that every other mixed case follows:
      `1 - 0.5` computes `float32(1) + 0.5`. */
  lemma SubIntFloatAsWritten()
    ensures ArithAsWritten(OpMinus, IntV(1), FloatV(Decimal32("0.5")))
         == Ok(FloatV(FAdd(OfInt(1), Decimal32("0.5"))))
    ensures ArithAsWritten(OpMinus, IntV(1), FloatV(Decimal32("0.5")))
         != Ok(FloatV(FloatOp(OpMinus, Promote(IntV(1)), Promote(FloatV(Decimal32("0.5"))))))
  {
  }

  /** Every mixed or Float pair under `+ - * /` promotes both operands to `float32` and
      applies the operator's own float operation: the rule the Integer-minus-Float
      case breaks as written. */
  lemma FloatPromotion(op: Token, a: Value, b: Value)
    requires op in {OpAdd, OpMinus, OpMultiply, OpDivide}
    requires IsNumeric(a) && IsNumeric(b) && (a.FloatV? || b.FloatV?)
    ensures Arith(op, a, b) == Ok(FloatV(FloatOp(op, Promote(a), Promote(b))))
  {
  }

  /** Integer pairs follow Go's `int` semantics for `+`, `-` and `*`: the exact result,
      wrapped around to 64 bits. */
  lemma IntegerArithmetic(a: Int64, b: Int64)
    ensures Arith(OpAdd, IntV(a), IntV(b)) == Ok(IntV(Wrap64(a as int + b as int)))
    ensures Arith(OpMinus, IntV(a), IntV(b)) == Ok(IntV(Wrap64(a as int - b as int)))
    ensures Arith(OpMultiply, IntV(a), IntV(b)) == Ok(IntV(Wrap64(a as int * b as int)))
  {
    assert Arith(OpAdd, IntV(a), IntV(b)) == Ok(IntV(Add(a, b)));
    assert Arith(OpMinus, IntV(a), IntV(b)) == Ok(IntV(Sub(a, b)));
    assert Arith(OpMultiply, IntV(a), IntV(b)) == Ok(IntV(Mul(a, b)));
  }

  /** Integer `/` and `%` truncate toward zero and satisfy `q*b + r == a` (with wrap-around,
      which matters only for MinInt64 / -1), the remainder smaller than the divisor. */
  lemma IntegerDivision(a: Int64, b: Int64)
    requires b != 0
    ensures Arith(OpDivide, IntV(a), IntV(b)).Ok? && Arith(OpModulus, IntV(a), IntV(b)).Ok?
    ensures var q := Arith(OpDivide, IntV(a), IntV(b)).v.i;
      var r := Arith(OpModulus, IntV(a), IntV(b)).v.i;
      Add(Mul(q, b), r) == a && Abs(r) < Abs(b)
  {
    assert Arith(OpDivide, IntV(a), IntV(b)) == Ok(IntV(GoQuot(a, b)));
    assert Arith(OpModulus, IntV(a), IntV(b)) == Ok(IntV(GoRem(a, b)));
    QuotRemIdentity(a, b);
  }

  /** `calcUnaryExpr` once the operand is a value: `+` is the identity and `-` negates
      on Integer and Float; `!` returns a boolean unchanged; anything else is an error. */
  function UnaryOn(op: Token, v: Value): (r: Outcome)
    requires op in {OpAdd, OpMinus, OpNot}
    ensures r.Ok? <==> (op == OpNot && v.BoolV?) || (op != OpNot && IsNumeric(v))
    ensures r.Ok? ==> KindOf(r.v) == KindOf(v)
    ensures r.Ok? && op != OpMinus ==> r.v == v
    ensures op == OpMinus && v.IntV? ==> r == Ok(IntV(if v.i == MinInt64 then MinInt64 else -v.i))
    ensures !r.Ok? ==> r == Err(TokenError)
  {
    match op
    case OpAdd =>
      if v.IntV? then Ok(IntV(v.i)) else if v.FloatV? then Ok(FloatV(v.f)) else Err(TokenError)
    case OpMinus =>
      if v.IntV? then Ok(IntV(Neg(v.i))) else if v.FloatV? then Ok(FloatV(FNeg(v.f))) else Err(TokenError)
    case OpNot =>
      if v.BoolV? then Ok(BoolV(v.b)) else Err(TokenError)
  }

  // ----------------------------------------------------------------------------
  // The walk

  /** Whether the tree has an integer division or remainder that could panic. */
  predicate HasDivision(e: Expr)
  {
    match e
    case Unary(_, x) => HasDivision(x)
    case Binary(l, op, r) => op in {OpDivide, OpModulus} || HasDivision(l) || HasDivision(r)
    case Paren(x) => HasDivision(x)
    case _ => false
  }

  /** `calcExpr`: dispatch on the node type; a nil, index or access node is "token error".
      Only a tree with a division can panic. */
  function Eval(e: Expr, env: Env): (r: Outcome)
    ensures r.DivPanic? ==> HasDivision(e)
    decreases e, 2
  {
    match e
    case Literal(kind, raw) => EvalLiteral(kind, raw)
    case Identifier(name) => EvalIdent(name, env)
    case Unary(_, _) => EvalUnary(e, env)
    case Binary(_, _, _) => EvalBinary(e, env)
    case Paren(x) => Eval(x, env)
    case _ => Err(TokenError)
  }

  /** `calcUnaryExpr`: `+`, `-` and `!` evaluate the operand and pass its error on;
      `^`, `~` and any other operator are "token error" without evaluating it. */
  function EvalUnary(e: Expr, env: Env): (r: Outcome)
    requires e.Unary?
    ensures r.DivPanic? ==> HasDivision(e)
    decreases e, 1
  {
    if e.op in {OpAdd, OpMinus, OpNot} then
      match Eval(e.e, env)
      case Ok(v) => UnaryOn(e.op, v)
      case other => other
    else Err(TokenError)
  }

  /** `calcBinaryExpr`: for `+ - * / %`, the left operand and then the right one are
      evaluated, each passing its error or panic on before any kind is looked at;
      every other operator is "token error" without evaluating either operand. */
  function EvalBinary(e: Expr, env: Env): (r: Outcome)
    requires e.Binary?
    ensures r.DivPanic? ==> HasDivision(e)
    decreases e, 1
  {
    if IsArithmetic(e.op) then
      match Eval(e.l, env)
      case Ok(a) =>
        (match Eval(e.r, env)
         case Ok(b) => Arith(e.op, a, b)
         case other => other)
      case other => other
    else Err(TokenError)
  }

  /** What `Calc` returns: `calc` turns any error into a nil result, and a panic
      leaves `Calc` without a result. */
  datatype CalcResult = NilResult | Result(v: Value) | Panicked

  /** `calc`: the result of the walk, or nil on error. */
  function CalcOf(e: Expr, env: Env): (r: CalcResult)
    ensures r.NilResult? <==> Eval(e, env).Err?
    ensures r.Panicked? <==> Eval(e, env).DivPanic?
    ensures r.Result? ==> Eval(e, env) == Ok(r.v)
  {
    match Eval(e, env)
    case Ok(v) => Result(v)
    case Err(_) => NilResult
    case DivPanic => Panicked
  }

  /** The map after `Calc` has written its two boolean entries. */
  function WithBooleans(m: Env): (r: Env)
    ensures r.Keys == m.Keys + {"true", "false"}
    ensures r["true"] == GoBool(true) && r["false"] == GoBool(false)
    ensures forall k :: k in m && k != "true" && k != "false" ==> r[k] == m[k]
  {
    m["true" := GoBool(true)]["false" := GoBool(false)]
  }

  // ----------------------------------------------------------------------------
  // The expression object

  /** A Go map value: a reference, so `Calc`'s writes are seen by the caller. */
  class ParamMap {
    var entries: Env

    constructor (m: Env)
      ensures entries == m
    {
      entries := m;
    }
  }

  /** `Expression`: the parsed tree and the parameter map of the last `Calc`. */
  class Expression {
    var expr: Expr
    var params: ParamMap?

    /** The struct literal of `NewExpression`: no parameters yet. */
    constructor (e: Expr)
      ensures expr == e && params == null
    {
      expr := e;
      params := null;
    }

    /** `Calc`: keep the caller's map (or a fresh one for nil), write "true" and "false"
        into it, then evaluate. */
    method Calc(ps: ParamMap?) returns (r: CalcResult)
      modifies this, ps
      ensures expr == old(expr) && params != null
      ensures ps != null ==> params == ps && ps.entries == WithBooleans(old(ps.entries))
      ensures ps == null ==> fresh(params) && params.entries == WithBooleans(map[])
      ensures r == CalcOf(expr, params.entries)
    {
      params := ps;
      if params == null {
        params := new ParamMap(map[]);
      }
      params.entries := params.entries["true" := GoBool(true)];
      params.entries := params.entries["false" := GoBool(false)];
      r := CalcWith();
    }

    /** `calc`: evaluate the tree against the current parameters (a nil map has no entries). */
    method CalcWith() returns (r: CalcResult)
      ensures r == CalcOf(expr, if params == null then map[] else params.entries)
    {
      var env := if params == null then map[] else params.entries;
      r := CalcOf(expr, env);
    }
  }

  /** `NewExpression`: parse the text into a new expression. The empty text makes
      `parserAST` panic; the model returns null for that case only. */
  method NewExpression(src: string) returns (x: Expression?)
    ensures x == null <==> src == ""
    ensures x != null ==> fresh(x) && x.params == null && Parsed(x.expr) == ParseText(src)
  {
    var p := ParserAST(src);
    if p.NilScannerPanic? {
      return null;
    }
    x := new Expression(p.tree);
  }

  // ----------------------------------------------------------------------------
  // Properties of the evaluator

  /** No short-circuit: under an arithmetic operator an error or panic of the left operand
      is the result whatever the right one is, and otherwise one of the right operand is. */
  lemma ErrorsPropagate(l: Expr, op: Token, r: Expr, env: Env)
    requires IsArithmetic(op)
    ensures !Eval(l, env).Ok? ==> Eval(Binary(l, op, r), env) == Eval(l, env)
    ensures Eval(l, env).Ok? && !Eval(r, env).Ok? ==> Eval(Binary(l, op, r), env) == Eval(r, env)
  {
  }

  /** Comparison, logical, bitwise and separator operators are errors even when an
      operand would panic, because no operand is evaluated. */
  lemma OtherOperatorsFail(l: Expr, op: Token, r: Expr, env: Env)
    requires !IsArithmetic(op)
    ensures Eval(Binary(l, op, r), env) == Err(TokenError)
  {
  }

  /** `^` and `~` are always an error, even over an operand that would panic. */
  lemma XorAndBitNotFail(op: Token, x: Expr, env: Env)
    requires op in {OpBitwiseXor, OpBitwiseNot}
    ensures Eval(Unary(op, x), env) == Err(TokenError)
  {
  }

  /** `!` does not negate: `!b` is `b`, and `!` on anything but a boolean is an error. */
  lemma NotKeepsBoolean(x: Expr, env: Env)
    ensures Eval(x, env).Ok? && Eval(x, env).v.BoolV? ==> Eval(Unary(OpNot, x), env) == Eval(x, env)
    ensures Eval(x, env).Ok? && !Eval(x, env).v.BoolV? ==> Eval(Unary(OpNot, x), env) == Err(TokenError)
  {
  }

  /** Negating an Integer twice gives it back, even the most negative `int`; a unary
      `+` leaves any number unchanged. */
  lemma IntegerNegation(x: Expr, env: Env)
    requires Eval(x, env).Ok? && Eval(x, env).v.IntV?
    ensures Eval(Unary(OpMinus, x), env) ==
      Ok(IntV(if Eval(x, env).v.i == MinInt64 then MinInt64 else -Eval(x, env).v.i))
    ensures Eval(Unary(OpMinus, Unary(OpMinus, x)), env) == Eval(x, env)
    ensures Eval(Unary(OpAdd, x), env) == Eval(x, env)
  {
    var i := Eval(x, env).v.i;
    DoubleNegation(i);
    NegateWraps(i);
    assert UnaryOn(OpMinus, IntV(i)) == Ok(IntV(Neg(i)));
    assert Eval(Unary(OpMinus, x), env) == Ok(IntV(Neg(i)));
    assert Eval(Unary(OpMinus, Unary(OpMinus, x)), env) == Ok(IntV(Neg(Neg(i))));
  }

  /** A parenthesis is transparent, while index and access nodes and the nil operand
      are errors. */
  lemma NodeRules(x: Expr, i: Expr, name: string, env: Env)
    ensures Eval(Paren(x), env) == Eval(x, env)
    ensures Eval(Index(x, i), env) == Err(TokenError)
    ensures Eval(Access(x, name), env) == Err(TokenError)
    ensures Eval(Missing, env) == Err(TokenError)
  {
  }

  /** The decimal spelling of any `int` is decoded back to it: Integer literals are
      re-read from their text at evaluation time. */
  lemma IntegerLiteralRoundTrip(n: Int64)
    ensures Eval(Literal(Integer, Itoa(n)), env := map[]) == Ok(IntV(n))
  {
    AtoiItoa(n);
  }

  /** A Char literal `'c'` gives the byte `c` when `c` is ASCII and fails otherwise; an
      escaped Char literal such as `'\n'` always fails. */
  lemma CharLiterals(c: char, e: char)
    ensures EvalLiteral(Char, ['\'', c, '\'']) ==
      if c as int < 0x80 then Ok(CharV(c as int)) else Err(ParseCharError)
    ensures EvalLiteral(Char, ['\'', '\\', e, '\'']) == Err(ParseCharError)
  {
    var s := ['\'', c, '\''];
    Utf8Length(s);
    if c as int < 0x80 {
      assert IsAscii(s);
    } else {
      assert !IsAscii(s) by { assert s[1] == c; }
    }
  }

  /** A String literal of plain text evaluates to its UTF-8 bytes, and `+` concatenates. */
  lemma StringConcatenation(a: string, b: string, env: Env)
    requires PlainBody(a) && PlainBody(b)
    ensures Eval(Binary(Literal(String, "\"" + a + "\""), OpAdd, Literal(String, "\"" + b + "\"")), env)
         == Ok(StrV(Utf8(a) + Utf8(b)))
  {
    UnquotePlain(a);
    UnquotePlain(b);
    assert Eval(Literal(String, "\"" + a + "\""), env) == Ok(StrV(Utf8(a)));
    assert Eval(Literal(String, "\"" + b + "\""), env) == Ok(StrV(Utf8(b)));
  }

  /** A `uint` parameter above the `int` range is read as a negative Integer; every
      other accepted integer type keeps its value. */
  lemma UintWraps(name: string, v: Uint64, env: Env)
    requires name in env && env[name] == GoUint(v)
    ensures EvalIdent(name, env) == Ok(IntV(if v <= MaxInt64 then v else v - Two64))
  {
    UintToInt(v);
  }

  /** The integer types up to 32 bits and `int` keep their value, a string keeps its
      bytes and a bool its truth value. */
  lemma IdentKeepsValue(name: string, env: Env)
    requires name in env
    ensures env[name].GoInt? ==> EvalIdent(name, env) == Ok(IntV(env[name].vInt))
    ensures env[name].GoInt8? ==> EvalIdent(name, env) == Ok(IntV(env[name].vInt8))
    ensures env[name].GoInt16? ==> EvalIdent(name, env) == Ok(IntV(env[name].vInt16))
    ensures env[name].GoInt32? ==> EvalIdent(name, env) == Ok(IntV(env[name].vInt32))
    ensures env[name].GoUint8? ==> EvalIdent(name, env) == Ok(IntV(env[name].vUint8))
    ensures env[name].GoUint16? ==> EvalIdent(name, env) == Ok(IntV(env[name].vUint16))
    ensures env[name].GoUint32? ==> EvalIdent(name, env) == Ok(IntV(env[name].vUint32))
    ensures env[name].GoString? ==> EvalIdent(name, env) == Ok(StrV(env[name].vString))
    ensures env[name].GoBool? ==> EvalIdent(name, env) == Ok(BoolV(env[name].vBool))
  {
  }

  /** `Calc`'s entries win over the caller's: "true" and "false" always read as the booleans. */
  lemma BooleansOverride(m: Env)
    ensures CalcOf(Identifier("true"), WithBooleans(m)) == Result(BoolV(true))
    ensures CalcOf(Identifier("false"), WithBooleans(m)) == Result(BoolV(false))
    ensures CalcOf(Unary(OpNot, Identifier("true")), WithBooleans(m)) == Result(BoolV(true))
  {
  }

  /** The names a tree reads from the map. */
  function Names(e: Expr): set<string>
  {
    match e
    case Identifier(n) => {n}
    case Unary(_, x) => Names(x)
    case Binary(l, _, r) => Names(l) + Names(r)
    case Paren(x) => Names(x)
    case _ => {}
  }

  /** The walk reads only the names in the tree: two maps that agree on them give the
      same outcome. So the entries `Calc` adds matter only to trees that name them. */
  lemma {:induction false} EvalReadsOnlyNames(e: Expr, env1: Env, env2: Env)
    requires forall n :: n in Names(e) ==> (n in env1 <==> n in env2)
    requires forall n :: n in Names(e) && n in env1 ==> env1[n] == env2[n]
    ensures Eval(e, env1) == Eval(e, env2)
  {
    match e
    case Unary(_, x) =>
      EvalReadsOnlyNames(x, env1, env2);
    case Binary(l, _, r) =>
      EvalReadsOnlyNames(l, env1, env2);
      EvalReadsOnlyNames(r, env1, env2);
    case Paren(x) =>
      EvalReadsOnlyNames(x, env1, env2);
    case Identifier(n) =>
      assert n in Names(e);
    case _ =>
  }

  /** A tree that names neither "true" nor "false" evaluates under `Calc`'s map as under
      the caller's. */
  lemma CalcIgnoresUnusedBooleans(e: Expr, m: Env)
    requires "true" !in Names(e) && "false" !in Names(e)
    ensures CalcOf(e, WithBooleans(m)) == CalcOf(e, m)
  {
    EvalReadsOnlyNames(e, WithBooleans(m), m);
  }

  /** What the evaluator makes of the Char lexemes the scanner produces: a quoted
      ASCII rune gives its byte; a quoted non-ASCII rune, and every escaped Char
      lexeme the scanner lets through, is "parse char error". */
  lemma CharLexemesDecode(src: string, i: nat)
    requires i < |src| && src[i] == '\''
    ensures var l := ScanCharAt(src, i).lexeme;
      var c := At(src, i + 1);
      l.tok == Char ==>
        EvalLiteral(Char, l.lit)
        == if c != '\\' as int && 0 <= c < 0x80 then Ok(CharV(c)) else Err(ParseCharError)
  {
    ScanCharShape(src, i);
    var r := ScanCharAt(src, i);
    if r.lexeme.tok == Char {
      if src[i + 1] != '\\' {
        assert r.lexeme.lit == ['\'', src[i + 1], '\''];
        CharLiterals(src[i + 1], 'a');
      } else {
        assert r.lexeme.lit == ['\'', '\\', src[i + 2], '\''];
        CharLiterals('a', src[i + 2]);
      }
    }
  }

  /** The number lexemes of the scanner are what the evaluator decodes: an Integer
      lexeme is a non-empty digit run (so `Atoi` fails on it only by overflow), and a
      Float lexeme is digits, a dot and digits. */
  lemma NumberLexemesDecode(src: string, i: nat)
    requires i < |src| && IsDecimal(src[i] as int)
    ensures var l := ScanNumberAt(src, i).lexeme;
      (l.tok == Integer ==>
         l.lit != [] && AllDigits(l.lit) &&
         Atoi(l.lit) == (if DigitsValue(l.lit) <= MaxInt64 then Some(DigitsValue(l.lit)) else None)) &&
      (l.tok == Float ==> IsDecimalFraction(l.lit))
  {
    ScanNumberShape(src, i);
    var r := ScanNumberAt(src, i);
    var d := RunEnd(src, i, Digit);
    var lit := r.lexeme.lit;
    if r.lexeme.tok == Integer {
      assert AllDigits(lit) by {
        forall m | 0 <= m < |lit|
          ensures '0' <= lit[m] <= '9'
        {
          assert lit[m] == src[i + m];
          assert InClass(src[i + m] as int, Digit);
        }
      }
      AtoiOfDigitRun(lit);
    } else if r.lexeme.tok == Float {
      var k := d - i;
      assert lit[k] == '.';
      assert forall m :: 0 <= m < k ==> lit[m] == src[i + m] && InClass(src[i + m] as int, Digit);
      assert DotIndex(lit, 0) == k by {
        DotIndexFinds(lit, 0, k);
      }
      assert AllDigits(lit[..k]) by {
        forall m | 0 <= m < k
          ensures '0' <= lit[..k][m] <= '9'
        {
          assert lit[..k][m] == src[i + m];
        }
      }
      assert AllDigits(lit[k + 1..]) by {
        forall m | k + 1 <= m < |lit|
          ensures '0' <= lit[m] <= '9'
        {
          assert lit[m] == src[i + m];
        }
      }
    }
  }

  lemma {:induction false} DotIndexFinds(s: string, i: nat, k: nat)
    requires i <= k < |s| && s[k] == '.'
    requires forall m :: i <= m < k ==> s[m] != '.'
    ensures DotIndex(s, i) == k
    decreases k - i
  {
    if i < k {
      DotIndexFinds(s, i + 1, k);
    }
  }

  /** The demonstration input of `main`. */
  const Demo: string := "a + 1 * b"

  lemma DemoScanIdentifiers()
    ensures ScanAt(Demo, 0) == Scanned(Lexeme(ID, "a"), 1)
    ensures ScanAt(Demo, 7) == Scanned(Lexeme(ID, "b"), 9)
  {
    assert RunEnd(Demo, 0, Space) == 0;
    assert RunEnd(Demo, 1, IdentPart) == 1;
    assert Demo[0..1] == "a";
    assert RunEnd(Demo, 8, Space) == 8;
    assert RunEnd(Demo, 7, Space) == 8;
    assert RunEnd(Demo, 9, IdentPart) == 9;
    assert RunEnd(Demo, 8, IdentPart) == 9;
    assert Demo[8..9] == "b";
  }

  lemma DemoScanOperators()
    ensures ScanAt(Demo, 1) == Scanned(Lexeme(OpAdd, "+"), 3)
    ensures ScanAt(Demo, 5) == Scanned(Lexeme(OpMultiply, "*"), 7)
  {
    assert RunEnd(Demo, 2, Space) == 2;
    assert RunEnd(Demo, 1, Space) == 2;
    assert RunEnd(Demo, 6, Space) == 6;
    assert RunEnd(Demo, 5, Space) == 6;
  }

  lemma DemoScanNumber()
    ensures ScanAt(Demo, 3) == Scanned(Lexeme(Integer, "1"), 5)
  {
    assert RunEnd(Demo, 4, Space) == 4;
    assert RunEnd(Demo, 3, Space) == 4;
    assert RunEnd(Demo, 5, Digit) == 5;
    assert RunEnd(Demo, 4, Digit) == 5;
    assert Demo[4..5] == "1";
  }

  /** The token stream of the demonstration input. */
  lemma DemoTokens()
    ensures TokenStream(Demo, 0) ==
      [Lexeme(ID, "a"), Lexeme(OpAdd, "+"), Lexeme(Integer, "1"), Lexeme(OpMultiply, "*"), Lexeme(ID, "b")]
  {
    DemoScanIdentifiers();
    DemoScanOperators();
    DemoScanNumber();
    ScanAtEndIsEof(Demo);
    assert TokenStream(Demo, 7) == [Lexeme(ID, "b")];
    assert TokenStream(Demo, 5) == [Lexeme(OpMultiply, "*"), Lexeme(ID, "b")];
    assert TokenStream(Demo, 3) == [Lexeme(Integer, "1"), Lexeme(OpMultiply, "*"), Lexeme(ID, "b")];
    assert TokenStream(Demo, 1) == [Lexeme(OpAdd, "+"), Lexeme(Integer, "1"), Lexeme(OpMultiply, "*"), Lexeme(ID, "b")];
  }

  /** The tree of the demonstration input. */
  function DemoTree(): Expr
  {
    Binary(Identifier("a"), OpAdd, Binary(Literal(Integer, "1"), OpMultiply, Identifier("b")))
  }

  lemma DemoStreamParses(ts: seq<Lexeme>)
    requires ts == [Lexeme(ID, "a"), Lexeme(OpAdd, "+"), Lexeme(Integer, "1"), Lexeme(OpMultiply, "*"), Lexeme(ID, "b")]
    ensures ParseExprF(ts) == Step(DemoTree(), [])
  {
    assert ts == ts + [];
    TighterNestsRight(ts[0], ts[1], ts[2], ts[3], ts[4], [], TopBound);
  }

  /** `a + 1 * b` parses with the multiplication nested on the right. */
  lemma DemoParse()
    ensures ParseText(Demo) == Parsed(DemoTree())
  {
    DemoTokens();
    DemoStreamParses(TokenStream(Demo, 0));
  }

  lemma DemoEval(env: Env, aBits: bv64)
    requires "a" in env && env["a"] == GoFloat64(aBits)
    requires "b" in env && env["b"] == GoInt(2)
    ensures Eval(DemoTree(), env) == Ok(FloatV(FAdd(Narrowed(aBits), OfInt(2))))
  {
    var tree := DemoTree();
    assert Atoi("1") == Some(1) by {
      assert DigitsValue("1") == 1 by { assert "1"[..0] == []; }
    }
    assert Eval(tree.r.l, env) == Ok(IntV(1));
    assert Eval(tree.r.r, env) == Ok(IntV(2));
    assert Arith(OpMultiply, IntV(1), IntV(2)) == Ok(IntV(2));
    assert Eval(tree.r, env) == Ok(IntV(2));
    assert Eval(tree.l, env) == Ok(FloatV(Narrowed(aBits)));
    assert Eval(tree, env) == Arith(OpAdd, FloatV(Narrowed(aBits)), IntV(2));
  }

  /** The demonstration of `main`, end to end: with a float64 `a` and an int `b` = 2,
      `a + 1 * b` computes `float32(a) + float32(2)`. */
  lemma DemoCalc(aBits: bv64)
    ensures CalcOf(ParseText(Demo).tree, WithBooleans(map["a" := GoFloat64(aBits), "b" := GoInt(2)]))
         == Result(FloatV(FAdd(Narrowed(aBits), OfInt(2))))
  {
    DemoParse();
    DemoEval(WithBooleans(map["a" := GoFloat64(aBits), "b" := GoInt(2)]), aBits);
  }
}
