# go-calc in Dafny

go-calc is a small expression calculator written in Go. A text such as `a + 1 * b` goes through three stages:

1. A scanner cuts it into tokens over a rune cursor.
2. A recursive-descent parser with precedence climbing builds an expression tree.
3. An evaluator walks the tree against a map from names to dynamic Go values, and gives a result of kind Integer, Float, String, Char or (for booleans) ID.

This project models that pipeline and proves properties of it.

The model keeps the source's form:
- The token tables (`token.go`) and the tree (`ast.go`) are datatypes and pure functions.
- The scanner (`scan.go`) is a class over a rune `array`. Its cursor and `ch` register are updated in place, and its loops carry invariants.
- The parser (`parse.go`) is a class holding the current token and lexeme. Its methods mutate that state, and the `for` loop of `parseBinaryExpr` is a `while` loop.
- The evaluator (`calculate.go`) is a recursive function over the tree.
- `Expression.Calc`, which stores the caller's map and writes two entries into it, is a method on a class. The map itself is a small reference class (`ParamMap`), so the caller sees the writes as in Go.

Each method is proved against a specification function: `ScanAt` for the scanner, `ParseExprF`/`ParseBinaryF`/`ParseUnaryF`/`ParseOperandF` for the parser, and `CalcOf` for `Calc`. The lemmas state what the source promises about those functions.

Modules:
- `Common`: `Option`.
- `Tokens`: `token.go`.
- `Scanning`: `scan.go`.
- `Ast`: the node types of `ast.go`.
- `Parsing`: `parse.go`.
- `GoInt`: Go's 64-bit `int` arithmetic, truncating division, the integer conversions and `strconv.Atoi`.
- `GoText`: UTF-8 bytes of a rune text, and `strconv.Unquote` for double-quoted literals.
- `Calculate`: `calculate.go`.

Go semantics that the model writes out explicitly:
- Go's `int` is 64-bit and wraps. `Wrap64` reduces the exact result modulo 2^64 into the signed range.
- `/` and `%` truncate toward zero. `MinInt64 / -1` wraps to `MinInt64`.
- Integer division or remainder by zero panics, and the model returns `DivPanic` for it.
- Converting a `uint` to `int` wraps.
- Go strings are byte strings. The evaluator's `len(literal)` and `literal[1]` read UTF-8 bytes, so `Utf8` is modelled exactly rather than assuming ASCII.
- `float32` values are kept as symbolic terms (`Float32`). Their arithmetic is not computed.
- `scan.go:233` returns `Ident`, which `token.go` does not declare. It is read as `ID`, the identifier token.
- `ast.go` uses exported names (`LiteralExpr`, `Token`) while `parse.go` and `calculate.go` use lower-case ones (`literalExpr`, `token`). Both are the one datatype `Ast.Expr`.

## Model

| member | source | states |
|---|---|---|
| Tokens.TokenCode | token.go:12-46 | every token has an iota code below 33 and the code indexes the declaration list back to the token |
| Tokens.FromCode | token.go:12-46 | an integer names a declared token exactly when it lies in 0..32 |
| Tokens.CodeRoundTrip | token.go:12-46 | converting a token to its integer value and back gives the token |
| Tokens.StringOfCode | token.go:86-156 | `token(n).String()` is "" exactly for values outside the declared range and the token's name inside it |
| Tokens.NameNotEmpty | token.go:86-156 | every declared token has a non-empty display name |
| Tokens.TokenStringInjective | token.go:86-156 | distinct declared tokens have distinct names |
| Tokens.OperatorMapSpelling | token.go:48-75 | every key of `operatorMap` maps to an operator token whose `String()` is that key |
| Tokens.GetOperatorOfString | token.go:77-79 | `getOperator(tok.String()) == tok` for every operator token: the map and `String` are inverse on operators |
| Tokens.GetOperatorUnknown | token.go:77-79 | a string outside the map yields `Illegal`, the zero token |
| Tokens.PrecedenceOf | token.go:168-198 | the rank of a token is at most 15 |
| Tokens.PrecedenceZero | token.go:168-198 | rank 0 goes exactly to Illegal, EOF, ID, the literal kinds, the brackets and `.` |
| Tokens.PrecedenceWithStrictOrder | token.go:162-164 | comparing tokens is comparing their ranks (token.go:200-202), and the comparison is irreflexive and transitive |
| Tokens.CharClassesDisjoint | token.go:206-220 | digits, letters and spaces are pairwise disjoint, and none contains the end marker -1 |
| Scanning.RunEnd | scan.go:42-44 | a skip loop stops at the first rune outside the class (or the end), and every rune before it is in the class |
| Scanning.StringFrom | scan.go:184-195 | the string loop moves forward, and reports success only on a closing quote inside the input |
| Scanning.ScanAt | scan.go:47-144 | `scan` returns EOF with an empty lexeme exactly when only spaces remain, and otherwise advances the cursor by at least one |
| Scanning.TokenStream | scan.go:47-51 | the token sequence scanned up to EOF contains no EOF token |
| Scanning.ScanAtEndIsEof | scan.go:48-51 | at the end of input `scan` gives `(EOF, "")` without moving |
| Scanning.ScanNumberExamples | lexer_test.go:23-38 | `12345 ` is Integer `12345`, `1231.23 ` is Float `1231.23`, `12345. ` is `(Illegal, "")` |
| Scanning.ScanNumberShape | scan.go:146-164 | a maximal digit run is an Integer; digits, `.` and a maximal digit run are a Float; a `.` without a digit after it is Illegal with no text |
| Scanning.StringFromAccepts | scan.go:184-195 | the string loop finds the closing quote right after a well-formed body |
| Scanning.StringFromFound | scan.go:184-195 | what the string loop accepts before the closing quote is a well-formed body |
| Scanning.ScanStringShape | scan.go:181-203 | a String lexeme is the source text from quote to quote with a whitelisted-escape body; anything else is `(Illegal, "")` |
| Scanning.ScanStringAccepts | scan.go:181-203 | conversely, every quoted well-formed body scans as one String token |
| Scanning.ScanCharShape | scan.go:205-224 | Char exactly for quote, one non-backslash rune or one whitelisted escape, quote; otherwise `(Illegal, "")` |
| Scanning.ScanOperatorIsLongestMatch | scan.go:65-141 | the operator switch picks the longest `operatorMap` spelling at the cursor (one-rune lookahead for `!= == && \|\| <= << >= >>`), and Illegal consuming one rune otherwise |
| Scanning.ScanOperatorComma | scan.go:65-141 | `,` is in `operatorMap`, but the switch scans it as Illegal |
| Scanning.ScanOperatorSpelling | scan.go:65-141 | every operator lexeme is the text consumed, equals `tok.String()` and maps back through `getOperator`; Illegal has no text and consumes one rune |
| Scanning.ScanIdentifierShape | scan.go:226-234 | an identifier is the maximal `[A-Za-z0-9_]` run from a letter or `_`, token ID |
| Scanning.ScanLexemeIsSourceText | scan.go:47-144 | every lexeme but EOF and Illegal is the source text consumed after the spaces; EOF and Illegal carry none |
| Scanning.Scanner.constructor | scan.go:14-19 | a valid scanner over the runes of a non-empty input, with the cursor at 0 |
| Scanning.Scanner.Next | scan.go:24-31 | advances the cursor by one and keeps the invariant: `ch` is the rune under the cursor, or -1 at the end |
| Scanning.Scanner.NextChar | scan.go:33-39 | the rune after the cursor, or -1 exactly when there is none, without moving |
| Scanning.Scanner.Skip | scan.go:41-45 | moves the cursor to the end of the run of spaces |
| Scanning.Scanner.Scan | scan.go:47-144 | the returned token, lexeme and new cursor are `ScanAt` of the input at the old cursor |
| Scanning.Scanner.ScanOperator | scan.go:65-141 | the operator switch agrees with `ScanOperatorAt` |
| Scanning.Scanner.ScanNumber | scan.go:146-164 | agrees with `ScanNumberAt` |
| Scanning.Scanner.ScanEscape | scan.go:166-179 | steps onto the rune after the backslash and accepts exactly `a b f n r t v \ " 0` |
| Scanning.Scanner.ScanString | scan.go:181-203 | agrees with `ScanStringAt` |
| Scanning.Scanner.ScanChar | scan.go:205-224 | agrees with `ScanCharAt` |
| Scanning.Scanner.ScanIdentifier | scan.go:226-234 | agrees with `ScanIdentifierAt` |
| Scanning.NewScanner | scan.go:9-22 | nil exactly for the empty input; otherwise the cursor is at 0 over the input's runes |
| Parsing.StreamFollowsScan | parse.go:29-31 | the parser's current token is what `scan` returns at the cursor, and `next` leaves the tokens scanning goes on to produce, staying empty after EOF |
| Parsing.Adv | parse.go:29-31 | `next` drops exactly one token, or none at EOF |
| Parsing.ParseExprF | parse.go:24-27 | `parseExpr` never lengthens the stream |
| Parsing.ExprLeavesSuffix | parse.go:24-27 | `parseExpr` consumes a prefix of the tokens and leaves the rest untouched: the remaining stream is a suffix of its input |
| Parsing.BinaryLeavesSuffix | parse.go:92-107 | likewise for `parseBinaryExpr` |
| Parsing.LoopLeavesSuffix | parse.go:95-104 | likewise for the operator loop of `parseBinaryExpr` |
| Parsing.UnaryLeavesSuffix | parse.go:80-90 | likewise for `parseUnaryExpr` |
| Parsing.OperandLeavesSuffix | parse.go:33-78 | likewise for `parseOperand` |
| Parsing.PrimaryLeavesSuffix | parse.go:34-52 | likewise for the first switch of `parseOperand` |
| Parsing.PostfixLeavesSuffix | parse.go:54-75 | likewise for the second switch of `parseOperand` |
| Parsing.ParseBinaryF | parse.go:92-107 | `parseBinaryExpr(bound)` stops only at a token of rank 0 or of rank at least `bound` |
| Parsing.BinaryLoopF | parse.go:95-104 | the operator loop stops at rank 0 or at a rank not below the bound |
| Parsing.ParseUnaryF | parse.go:80-90 | the unary chain never lengthens the stream |
| Parsing.ParseOperandF | parse.go:33-78 | an operand is a primary node with at most one Index or Access around it |
| Parsing.PrimaryF | parse.go:34-52 | the first switch builds a literal, identifier, parenthesis or nil node |
| Parsing.PostfixF | parse.go:54-75 | the second switch leaves the node unchanged or wraps it once in Index or Access |
| Parsing.BlankTextParsesMissing | parse.go:14-22 | a non-empty text of spaces only is no error: `parserAST` gives the nil expression |
| Parsing.AtomOperand | parse.go:36-46 | a literal or identifier token becomes a Literal (kind, raw lexeme) or Identifier node |
| Parsing.AtomThenEnd | parse.go:92-107 | an operand followed by a rank-0 token is the whole binary expression |
| Parsing.SingleOperator | parse.go:92-107 | `x op y` builds one Binary node when `op` binds tighter than the bound |
| Parsing.NotIsInfix | parse.go:97-103 | `!` in infix position (rank 2) is parsed as a binary operator |
| Parsing.GroupsLeft | parse.go:94-104 | operators of equal rank, or a looser one after a tighter one, associate to the left |
| Parsing.TighterNestsRight | parse.go:102-103 | a tighter operator on the right nests inside: `x o1 y o2 z` is `x o1 (y o2 z)` |
| Parsing.PrefixNests | parse.go:80-90 | two prefix operators nest: `- - a` is `-(-(a))` |
| Parsing.PrefixBindsTighter | parse.go:80-90 | a prefix operator binds tighter than every binary operator: `- a + b` is `(-a) + b` |
| Parsing.NoOperandIsMissing | parse.go:34-52 | a token that cannot start an operand gives the nil node and consumes nothing |
| Parsing.ParenCloseUnchecked | parse.go:47-51 | the token after a parenthesised expression is consumed without checking that it is `)` |
| Parsing.OnePostfixOnly | parse.go:54-75 | only one postfix is taken: in `a.b.c` the second access is left unparsed |
| Parsing.TrailingTokensIgnored | parse.go:14-22 | parsing stops at the first rank-0 token without checking for EOF, so trailing tokens are ignored |
| Parsing.Parser.constructor | parse.go:15-17 | the parser starts on the zero token, with the scanner's remaining tokens behind it |
| Parsing.Parser.Next | parse.go:29-31 | the remaining token stream loses exactly its head |
| Parsing.Parser.ParseExpr | parse.go:24-27 | the tree and the remaining tokens are `ParseExprF` of the old stream |
| Parsing.Parser.ParseBinaryExpr | parse.go:92-107 | the tree and the remaining tokens are `ParseBinaryF` of the old stream and bound |
| Parsing.Parser.ParseUnaryExpr | parse.go:80-90 | the tree and the remaining tokens are `ParseUnaryF` of the old stream |
| Parsing.Parser.ParseOperand | parse.go:33-78 | the tree and the remaining tokens are `ParseOperandF` of the old stream |
| Parsing.ParserAST | parse.go:14-22 | scanning and parsing a whole text gives `ParseText` of it |
| GoInt.Wrap64 | calculate.go:156 | the `int` result of an operation is congruent to the exact result modulo 2^64 and equals it when it is in range |
| GoInt.UintToInt | calculate.go:84-89 | `int(v)` of a `uint` keeps values below 2^63 and subtracts 2^64 from the rest |
| GoInt.NegateWraps | calculate.go:408 | negating MinInt64 gives MinInt64; any other value negates exactly |
| GoInt.DoubleNegation | calculate.go:408 | negating twice gives the value back |
| GoInt.AddWraps | calculate.go:156 | MaxInt64 + 1 is MinInt64, and `a - b` is `a + (-b)` |
| GoInt.GoQuot | calculate.go:280 | `/` truncates toward zero, and MinInt64 / -1 is MinInt64 |
| GoInt.QuotientRange | calculate.go:280 | the truncated quotient is in range except for MinInt64 / -1 |
| GoInt.GoRem | calculate.go:318 | `%` is smaller than the divisor in size and has the sign of the dividend |
| GoInt.TruncIdentity | calculate.go:318 | truncated quotient times divisor plus remainder is the dividend |
| GoInt.QuotRemIdentity | calculate.go:280 | `q*b + r == a` exactly except for MinInt64 / -1, and always once the product wraps |
| GoInt.Atoi | calculate.go:333 | `strconv.Atoi` accepts only an optional sign followed by one or more digits |
| GoInt.AtoiItoa | calculate.go:333 | decoding the decimal spelling of any `int` gives it back |
| GoInt.AtoiOfDigitRun | calculate.go:333 | a digit run decodes to its value when that fits in `int`, and fails otherwise |
| GoInt.AtoiRejects | calculate.go:333 | the empty text, a lone sign, a non-digit and a leading space are rejected |
| GoText.EncodeScalar | calculate.go:353-356 | a scalar value takes one to four UTF-8 bytes, one exactly below 0x80, with the lead and continuation byte patterns |
| GoText.EncodeDecode | calculate.go:353-356 | decoding the UTF-8 bytes of a scalar value gives it back |
| GoText.Utf8 | calculate.go:353 | a text has at least as many bytes as runes |
| GoText.Utf8Length | calculate.go:353-356 | a text has as many bytes as runes exactly when it is ASCII, and then its bytes are its runes |
| GoText.UnquoteChar | calculate.go:363 | decoding one character or escape consumes input |
| GoText.Unquote | calculate.go:363 | only a text opening with a double quote unquotes |
| GoText.UnquoteNeedsQuotes | calculate.go:363 | a text unquotes only if it starts and ends with a double quote |
| GoText.UnquotePlain | calculate.go:363 | a plain quoted text unquotes to its UTF-8 bytes |
| GoText.UnquoteRejectsNewline | calculate.go:363 | a raw newline inside the quotes is an error |
| GoText.UnquoteRejectsTrailing | calculate.go:363 | text after the closing quote is an error |
| GoText.ScannerEscapes | scan.go:169 | each letter escape the scanner accepts (and `\\`, `\"`) unquotes to its byte, while the literal `"\0"`, which the scanner also accepts, does not unquote: a `\0` not followed by two more octal digits is an error |
| GoText.UnquoteHexEscaped | calculate.go:363 | every byte string round-trips through its `\xHH` spelling; a property of `strconv.Unquote` itself, since the scanner rejects `\x` and so never hands this form to the evaluator |
| Calculate.KindOf | calculate.go:453-456 | the kind of a result is one of Integer, Float, String, ID, Char |
| Calculate.FloatLiteral | calculate.go:342-351 | a Float literal parses only as digits, dot, digits, and gives a `float32` of that decimal text |
| Calculate.CharLexemesDecode | calculate.go:352-361 | of the Char lexemes the scanner produces, a quoted ASCII rune evaluates to its byte, while a non-ASCII rune and every escaped one is "parse char error" |
| Calculate.EvalLiteral | calculate.go:330-375 | a literal's result has the literal's kind, and a kind other than Integer, Float, Char, String is "token error" |
| Calculate.EvalIdent | calculate.go:57-137 | a name is read exactly when it is present with a type other than int64, uint64 or another unsupported one, otherwise "token error"; a string reads as kind String, a bool as ID, float64/float32 as Float and every accepted integer type as Integer |
| Calculate.IdentKeepsValue | calculate.go:60-131 | `int`, `int8`–`int32` and `uint8`–`uint32` read as an Integer of the same value, a string as its bytes, a bool as its truth value |
| Calculate.Arith | calculate.go:143-328 | which kind pairs succeed: Integer pairs under `+ - * / %`, numeric pairs with a Float under `+ - * /`, String `+`; every other pair is "token error"; a panic exactly for integer `/` or `%` by 0. The values are stated by `IntegerArithmetic`, `IntegerDivision`, `FloatPromotion` and `StringConcatenation`. Integer − Float is the corrected subtraction (see Findings) |
| Calculate.ArithAsWritten | calculate.go:215-221 | agrees with `Arith` everywhere except Integer − Float |
| Calculate.SubIntFloatAsWritten | calculate.go:216 | as written, `1 - 0.5` computes `1 + 0.5`, not the promoted difference |
| Calculate.FloatPromotion | calculate.go:162-182 | a mixed or Float pair under `+ - * /` promotes both operands to `float32` and applies the operator |
| Calculate.IntegerArithmetic | calculate.go:155-161 | Integer `+`, `-`, `*` give the exact result wrapped to 64 bits |
| Calculate.IntegerDivision | calculate.go:279-324 | Integer `/` and `%` by a non-zero divisor are Go's truncated quotient and remainder, recombining to the dividend |
| Calculate.UnaryOn | calculate.go:377-449 | `+`/`-` succeed exactly on numbers and keep the kind; `!` succeeds exactly on a boolean; otherwise "token error"; `+` and `!` return the operand, and `-` on an Integer is its negation, MinInt64 staying MinInt64 |
| Calculate.Eval | calculate.go:41-55 | the walk panics only on a tree that contains a division or remainder |
| Calculate.EvalUnary | calculate.go:377-449 | a unary node panics only through its operand |
| Calculate.EvalBinary | calculate.go:143-328 | a binary node panics only on a division or remainder in it |
| Calculate.WithBooleans | calculate.go:26-27 | `Calc` adds "true" and "false" as booleans, overwriting those keys and keeping every other entry |
| Calculate.ParamMap.constructor | calculate.go:21 | a map reference holding the given entries |
| Calculate.Expression.constructor | calculate.go:16-18 | the expression holds the tree and no parameter map |
| Calculate.Expression.Calc | calculate.go:21-30 | keeps the caller's map (a fresh one for nil), writes the two booleans into it, and returns `calc` under it |
| Calculate.Expression.CalcWith | calculate.go:32-39 | evaluates the stored tree under the stored map |
| Calculate.NewExpression | calculate.go:14-19 | an expression with the parsed tree; none (the parser's panic) exactly for the empty text |
| Calculate.ErrorsPropagate | calculate.go:146-153 | an error or panic of the left operand, and then of the right one, is the result of an arithmetic node: no short-circuit |
| Calculate.OtherOperatorsFail | calculate.go:325-327 | comparison, logical, bitwise and `,` operators are "token error" whatever their operands |
| Calculate.XorAndBitNotFail | calculate.go:443-448 | unary `^` and `~` are always "token error" |
| Calculate.NotKeepsBoolean | calculate.go:426-442 | `!` returns a boolean unchanged, and fails on anything else |
| Calculate.IntegerNegation | calculate.go:379-424 | `-x` is the negation of the Integer `x` wrapped to 64 bits (MinInt64 for MinInt64); `- -x` is `x` and `+x` is `x` for every Integer, even MinInt64 |
| Calculate.NodeRules | calculate.go:41-55 | a parenthesis is transparent; Index, Access and the nil node are "token error" |
| Calculate.IntegerLiteralRoundTrip | calculate.go:332-341 | an Integer literal spelled by `strconv.Itoa(n)` evaluates to `n` |
| Calculate.CharLiterals | calculate.go:352-361 | `'c'` gives the byte `c` when it is ASCII and fails otherwise; an escaped char always fails |
| Calculate.StringConcatenation | calculate.go:183-189 | plain String literals evaluate to their bytes, and `+` concatenates them |
| Calculate.UintWraps | calculate.go:84-89 | a `uint` parameter above the `int` range reads as a negative Integer |
| Calculate.BooleansOverride | calculate.go:26-27 | under `Calc`'s map `true` and `false` read as booleans, and `!true` is `true` |
| Calculate.EvalReadsOnlyNames | calculate.go:57-58 | the walk reads only the names in the tree |
| Calculate.CalcIgnoresUnusedBooleans | calculate.go:21-30 | adding the booleans changes nothing for a tree that does not name them |
| Calculate.NumberLexemesDecode | scan.go:146-164 | every Integer lexeme is a digit run that `Atoi` decodes unless it overflows, and every Float lexeme is digits, dot, digits as `FloatLiteral` needs |
| Calculate.DemoScanIdentifiers | calculate.go:480 | in `a + 1 * b` the names scan as ID tokens |
| Calculate.DemoScanOperators | calculate.go:480 | in `a + 1 * b` the operators scan as `+` and `*` |
| Calculate.DemoScanNumber | calculate.go:480 | in `a + 1 * b` the number scans as Integer `1` |
| Calculate.DemoTokens | calculate.go:480 | the token stream of `a + 1 * b` |
| Calculate.DemoStreamParses | calculate.go:480 | those tokens parse as `a + (1 * b)` |
| Calculate.DemoParse | calculate.go:480 | the text parses as `a + (1 * b)` |
| Calculate.DemoEval | calculate.go:481 | with a float64 `a` and `b = 2` the tree evaluates to the `float32` sum of `a` and 2 |
| Calculate.DemoCalc | calculate.go:479-483 | the demonstration of `main`, from text to result, through `Calc`'s map |

## Left out

- Calculate.EvalBinary: the evaluator uses the corrected Integer − Float case of `Arith`, which subtracts. As written, calculate.go:216 adds (Findings), so on `i - f` with `i` an Integer and `f` a Float the model's `Eval`, `CalcOf` and `Expression.Calc` give the difference where the program gives the sum. `ArithAsWritten` is the table as written.
- Calculate.Arith: is the corrected table, and differs from calculate.go:143-328 only in the Integer − Float case of line 216.
- Floating point: `float32` and `float64` values are symbolic terms. Rounding, NaN, infinities and the value of `float32(v)` are not computed, so results that are Float are compared only as terms.
- Calculate.FloatLiteral: `strconv.ParseFloat(raw, 32)` is modelled only for the digits-dot-digits form that the scanner produces for a Float token. Its one failure there is the range error from 2^128 − 2^103 up. Exponents, signs, hexadecimal forms, underscores, "inf" and "nan" are not modelled, and any other text is treated as a syntax error.
- GoText.Unquote: `strconv.Unquote` is modelled for literals opening with a double quote, which are the only String lexemes the scanner produces. Back-quoted and single-quoted forms are not modelled.
- Scanning.Scanner.Next: requires the cursor to be inside the input. Every call in `scan.go` satisfies this, and the cursor invariant is proved. A call past the end, which Go would allow, is not modelled.
- Calculate.NewExpression: `parserAST` dereferences the nil scanner of an empty text, which is a panic. The model returns `null` for it instead of an expression.
- `token.MarshalJSON`, the `String()` methods and `PrintAst` of `ast.go`, and the stub `scan` of `ast.go` are printing and JSON. They are not part of this model.
- `main` prints its result. Its computation is modelled by the `Demo` lemmas, and the printing is not.
- The commented-out `Result` accessors of `calculate.go` contain no code.
- The tests of `lexer_test.go` only log, and call names that the files do not define. Only their inputs are used, in `ScanNumberExamples`.
- The embedded `json.Number` of the `parser` struct is never used.
- The `Date` field of `LiteralExpr` is never set or read. It is not part of `Ast.Expr`.
- A parameter of type `int64` or `uint64` is a "token error", because the type switch has no case for it. `GoOther` stands for every other Go type, functions included, without telling them apart.
- Error values carry only their class: "token error", "parse char error", or a `strconv` error. The message text is not kept.

## Findings

| source | as written | input that shows it | evidently intended | confidence | as-written member | corrected member |
|---|---|---|---|---|---|---|
| calculate.go:216 | Integer − Float computes `float32(l) + r` | `1 - 0.5` gives 1.5 | `float32(l) - r`, as in the other three `-` cases | not executed | Calculate.SubIntFloatAsWritten | Calculate.FloatPromotion |
