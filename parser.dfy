// The precedence-climbing parser of parse.go. The grammar is first written as
// functions over the token stream (each returns the tree it builds and the
// tokens it leaves); the `Parser` class then runs the same routines on the
// scanner in place and is proved to agree with those functions.
module Parsing {
  import opened Tokens
  import opened Scanning
  import opened Ast

  /** A parsed tree and the tokens that follow it. */
  datatype Step = Step(e: Expr, rest: seq<Lexeme>)

  /** The current token: the scanner reports EOF, with an empty lexeme, once the stream is used up. */
  function Cur(ts: seq<Lexeme>): (l: Lexeme)
    ensures ts == [] ==> l == Lexeme(EOF, "")
  {
    if ts == [] then Lexeme(EOF, "") else ts[0]
  }

  /** `next`: drop the current token (at EOF the stream stays empty). */
  function Adv(ts: seq<Lexeme>): (r: seq<Lexeme>)
    ensures |r| == if ts == [] then 0 else |ts| - 1
  {
    if ts == [] then [] else ts[1..]
  }

  /** `r` is what is left of `ts` after a prefix of it was consumed. */
  predicate Suffix(r: seq<Lexeme>, ts: seq<Lexeme>)
  {
    |r| <= |ts| && r == ts[|ts| - |r|..]
  }

  /** The bound `parseExpr` passes in: looser than every operator rank. */
  const TopBound := 99

  /** The tokens `parseUnaryExpr` treats as prefix operators. */
  predicate IsPrefixOperator(t: Token)
  {
    t in {OpAdd, OpMinus, OpNot, OpBitwiseXor, OpBitwiseNot}
  }

  /** The tokens that start a literal node. */
  predicate IsLiteralToken(t: Token)
  {
    t in {Integer, Float, Char, String}
  }

  /** `parseExpr`. */
  function ParseExprF(ts: seq<Lexeme>): (r: Step)
    ensures |r.rest| <= |ts|
    decreases |ts|, 6
  {
    ParseBinaryF(ts, TopBound)
  }

  /** `parseBinaryExpr(bound)`: an operand, then as many operators binding strictly
      tighter than `bound` as follow. It stops exactly at a token of rank 0 or of
      rank `bound` or looser. */
  function ParseBinaryF(ts: seq<Lexeme>, bound: int): (r: Step)
    ensures |r.rest| <= |ts|
    ensures PrecedenceOf(Cur(r.rest).tok) == 0 || PrecedenceOf(Cur(r.rest).tok) >= bound
    decreases |ts|, 5
  {
    var u := ParseUnaryF(ts);
    BinaryLoopF(u.e, u.rest, bound)
  }

  /** The `for` loop of `parseBinaryExpr`, with `le` the tree built so far. */
  function BinaryLoopF(le: Expr, ts: seq<Lexeme>, bound: int): (r: Step)
    ensures |r.rest| <= |ts|
    ensures PrecedenceOf(Cur(r.rest).tok) == 0 || PrecedenceOf(Cur(r.rest).tok) >= bound
    decreases |ts|, 4
  {
    var op := Cur(ts).tok;
    var pre := PrecedenceOf(op);
    if pre == 0 || !RankPrecedenceWith(pre, bound) then Step(le, ts)
    else
      var right := ParseBinaryF(Adv(ts), pre);
      BinaryLoopF(Binary(le, op, right.e), right.rest, bound)
  }

  /** `parseUnaryExpr`: any number of prefix operators, then an operand. */
  function ParseUnaryF(ts: seq<Lexeme>): (r: Step)
    ensures |r.rest| <= |ts|
    decreases |ts|, 3
  {
    var op := Cur(ts).tok;
    if IsPrefixOperator(op) then
      var inner := ParseUnaryF(Adv(ts));
      Step(Unary(op, inner.e), inner.rest)
    else
      ParseOperandF(ts)
  }

  /** `parseOperand`: a primary, then at most one postfix. */
  function ParseOperandF(ts: seq<Lexeme>): (r: Step)
    ensures |r.rest| <= |ts|
    ensures IsPrimary(r.e) || ((r.e.Index? || r.e.Access?) && IsPrimary(r.e.e))
    decreases |ts|, 2
  {
    var p := PrimaryF(ts);
    PostfixF(p.e, p.rest)
  }

  /** The first `switch` of `parseOperand`: a literal, an identifier or a parenthesised
      expression, whose closing token is skipped without being checked; any other
      token gives the nil expression and is not consumed. */
  function PrimaryF(ts: seq<Lexeme>): (r: Step)
    ensures |r.rest| <= |ts|
    ensures IsPrimary(r.e)
    decreases |ts|, 1
  {
    var l := Cur(ts);
    if IsLiteralToken(l.tok) then Step(Literal(l.tok, l.lit), Adv(ts))
    else if l.tok == ID then Step(Identifier(l.lit), Adv(ts))
    else if l.tok == OpLParen then
      var inner := ParseExprF(Adv(ts));
      Step(Paren(inner.e), Adv(inner.rest))
    else Step(Missing, ts)
  }

  /** The second `switch` of `parseOperand`: an index whose closing token is skipped
      unchecked, or a field access (the token after the dot is consumed whatever it is,
      and only an identifier builds an access node). */
  function PostfixF(e: Expr, ts: seq<Lexeme>): (r: Step)
    ensures |r.rest| <= |ts|
    ensures r.e == e || ((r.e.Index? || r.e.Access?) && r.e.e == e)
    decreases |ts|, 0
  {
    var l := Cur(ts);
    if l.tok == OpLBracket then
      var idx := ParseExprF(Adv(ts));
      Step(Index(e, idx.e), Adv(idx.rest))
    else if l.tok == OpAccess then
      var after := Adv(ts);
      var field := Cur(after);
      Step(if field.tok == ID then Access(e, field.lit) else e, Adv(after))
    else Step(e, ts)
  }

  /** What `parserAST` does with a source text: the empty text makes it panic
      (`newScanner` returns nil and the first `next` dereferences it). */
  datatype ParseOutcome = Parsed(tree: Expr) | NilScannerPanic

  /** `parserAST` as a function of the text: the expression at the head of the token
      stream; tokens after it are ignored. */
  function ParseText(src: string): (r: ParseOutcome)
    ensures r.NilScannerPanic? <==> src == ""
  {
    if src == "" then NilScannerPanic else Parsed(ParseExprF(TokenStream(src, 0)).e)
  }

  // ----------------------------------------------------------------------------
  // Properties of the grammar

  /** Suffixes of suffixes are suffixes. */
  lemma SuffixTrans(a: seq<Lexeme>, b: seq<Lexeme>, c: seq<Lexeme>)
    requires Suffix(a, b) && Suffix(b, c)
    ensures Suffix(a, c)
  {
    assert c[|c| - |b|..][|b| - |a|..] == c[|c| - |a|..];
  }

  lemma AdvSuffix(ts: seq<Lexeme>)
    ensures Suffix(Adv(ts), ts)
  {
  }

  /** Every parsing routine consumes a prefix of its tokens and leaves the rest
      untouched: what it returns as the remaining stream is a suffix of its input. */
  lemma {:induction false} ExprLeavesSuffix(ts: seq<Lexeme>)
    ensures Suffix(ParseExprF(ts).rest, ts)
    decreases |ts|, 6
  {
    BinaryLeavesSuffix(ts, TopBound);
  }

  lemma {:induction false} BinaryLeavesSuffix(ts: seq<Lexeme>, bound: int)
    ensures Suffix(ParseBinaryF(ts, bound).rest, ts)
    decreases |ts|, 5
  {
    var u := ParseUnaryF(ts);
    UnaryLeavesSuffix(ts);
    LoopLeavesSuffix(u.e, u.rest, bound);
    SuffixTrans(ParseBinaryF(ts, bound).rest, u.rest, ts);
  }

  lemma {:induction false} LoopLeavesSuffix(le: Expr, ts: seq<Lexeme>, bound: int)
    ensures Suffix(BinaryLoopF(le, ts, bound).rest, ts)
    decreases |ts|, 4
  {
    var op := Cur(ts).tok;
    var pre := PrecedenceOf(op);
    if pre == 0 || !RankPrecedenceWith(pre, bound) {
      assert ts[|ts| - |ts|..] == ts;
    } else {
      var right := ParseBinaryF(Adv(ts), pre);
      AdvSuffix(ts);
      BinaryLeavesSuffix(Adv(ts), pre);
      SuffixTrans(right.rest, Adv(ts), ts);
      var next := Binary(le, op, right.e);
      assert BinaryLoopF(le, ts, bound) == BinaryLoopF(next, right.rest, bound);
      LoopLeavesSuffix(next, right.rest, bound);
      SuffixTrans(BinaryLoopF(next, right.rest, bound).rest, right.rest, ts);
    }
  }

  lemma {:induction false} UnaryLeavesSuffix(ts: seq<Lexeme>)
    ensures Suffix(ParseUnaryF(ts).rest, ts)
    decreases |ts|, 3
  {
    if IsPrefixOperator(Cur(ts).tok) {
      AdvSuffix(ts);
      var inner := ParseUnaryF(Adv(ts));
      assert ParseUnaryF(ts).rest == inner.rest;
      UnaryLeavesSuffix(Adv(ts));
      SuffixTrans(inner.rest, Adv(ts), ts);
    } else {
      assert ParseUnaryF(ts) == ParseOperandF(ts);
      OperandLeavesSuffix(ts);
    }
  }

  lemma {:induction false} OperandLeavesSuffix(ts: seq<Lexeme>)
    ensures Suffix(ParseOperandF(ts).rest, ts)
    decreases |ts|, 2
  {
    var p := PrimaryF(ts);
    PrimaryLeavesSuffix(ts);
    PostfixLeavesSuffix(p.e, p.rest);
    SuffixTrans(ParseOperandF(ts).rest, p.rest, ts);
  }

  lemma {:induction false} PrimaryLeavesSuffix(ts: seq<Lexeme>)
    ensures Suffix(PrimaryF(ts).rest, ts)
    decreases |ts|, 1
  {
    var l := Cur(ts);
    AdvSuffix(ts);
    if !IsLiteralToken(l.tok) && l.tok != ID && l.tok == OpLParen {
      var inner := ParseExprF(Adv(ts));
      ExprLeavesSuffix(Adv(ts));
      AdvSuffix(inner.rest);
      SuffixTrans(inner.rest, Adv(ts), ts);
      SuffixTrans(Adv(inner.rest), inner.rest, ts);
    } else if !IsLiteralToken(l.tok) && l.tok != ID {
      assert ts[|ts| - |ts|..] == ts;
    }
  }

  lemma {:induction false} PostfixLeavesSuffix(e: Expr, ts: seq<Lexeme>)
    ensures Suffix(PostfixF(e, ts).rest, ts)
    decreases |ts|, 0
  {
    var l := Cur(ts);
    AdvSuffix(ts);
    if l.tok == OpLBracket {
      var idx := ParseExprF(Adv(ts));
      ExprLeavesSuffix(Adv(ts));
      AdvSuffix(idx.rest);
      SuffixTrans(idx.rest, Adv(ts), ts);
      SuffixTrans(Adv(idx.rest), idx.rest, ts);
    } else if l.tok == OpAccess {
      AdvSuffix(Adv(ts));
      SuffixTrans(Adv(Adv(ts)), Adv(ts), ts);
    } else {
      assert ts[|ts| - |ts|..] == ts;
    }
  }

  /** A single-token operand: a literal or an identifier. */
  predicate IsAtom(l: Lexeme)
  {
    IsLiteralToken(l.tok) || l.tok == ID
  }

  /** The tree of a single-token operand. */
  function AtomExpr(l: Lexeme): Expr
  {
    if l.tok == ID then Identifier(l.lit) else Literal(l.tok, l.lit)
  }

  /** A token after which nothing more is parsed: rank 0 and not a postfix. */
  predicate Ends(ts: seq<Lexeme>)
  {
    PrecedenceOf(Cur(ts).tok) == 0 && Cur(ts).tok !in {OpLBracket, OpAccess}
  }

  /** A binary operator token (rank above 0). */
  predicate IsBinaryOperator(t: Token)
  {
    PrecedenceOf(t) > 0
  }

  /** An atom followed by a binary operator is parsed as that atom alone. */
  lemma AtomOperand(x: Lexeme, ts: seq<Lexeme>)
    requires IsAtom(x) && !Cur(ts).tok.OpLBracket? && !Cur(ts).tok.OpAccess?
    ensures ParseUnaryF([x] + ts) == Step(AtomExpr(x), ts)
  {
    var s := [x] + ts;
    assert Cur(s) == x && Adv(s) == ts;
    assert PrimaryF(s) == Step(AtomExpr(x), ts);
    assert PostfixF(AtomExpr(x), ts) == Step(AtomExpr(x), ts);
    assert ParseOperandF(s) == Step(AtomExpr(x), ts);
  }

  /** An atom followed by an ending token is parsed by `parseBinaryExpr` as that atom alone. */
  lemma AtomThenEnd(x: Lexeme, ts: seq<Lexeme>, bound: int)
    requires IsAtom(x) && Ends(ts)
    ensures ParseBinaryF([x] + ts, bound) == Step(AtomExpr(x), ts)
  {
    AtomOperand(x, ts);
  }

  /** `x op y` with one operator looser than nothing around it builds one binary node;
      this includes `!` and `~`, which the loop treats as infix operators of rank 2. */
  lemma SingleOperator(x: Lexeme, o: Lexeme, y: Lexeme, rest: seq<Lexeme>, bound: int)
    requires IsAtom(x) && IsAtom(y) && Ends(rest)
    requires 0 < PrecedenceOf(o.tok) < bound
    ensures ParseBinaryF([x, o, y] + rest, bound)
         == Step(Binary(AtomExpr(x), o.tok, AtomExpr(y)), rest)
  {
    var s := [x, o, y] + rest;
    assert s == [x] + ([o, y] + rest);
    AtomOperand(x, [o, y] + rest);
    var t := [o, y] + rest;
    assert Cur(t) == o && Adv(t) == [y] + rest;
    AtomThenEnd(y, rest, PrecedenceOf(o.tok));
    var b := Binary(AtomExpr(x), o.tok, AtomExpr(y));
    assert ParseBinaryF(s, bound) == BinaryLoopF(AtomExpr(x), t, bound);
    assert BinaryLoopF(AtomExpr(x), t, bound) == BinaryLoopF(b, rest, bound);
    assert BinaryLoopF(b, rest, bound) == Step(b, rest);
  }

  /** `!` between two operands is a binary node, not a prefix operator. */
  lemma NotIsInfix(x: Lexeme, y: Lexeme)
    requires IsAtom(x) && IsAtom(y)
    ensures ParseExprF([x, Lexeme(OpNot, "!"), y])
         == Step(Binary(AtomExpr(x), OpNot, AtomExpr(y)), [])
  {
    assert [x, Lexeme(OpNot, "!"), y] == [x, Lexeme(OpNot, "!"), y] + [];
    SingleOperator(x, Lexeme(OpNot, "!"), y, [], TopBound);
  }

  /** Operators of the same rank, or a looser one after a tighter one, group to the left:
      `x o1 y o2 z` is `(x o1 y) o2 z` when `o2` does not bind tighter than `o1`. */
  lemma GroupsLeft(x: Lexeme, o1: Lexeme, y: Lexeme, o2: Lexeme, z: Lexeme, rest: seq<Lexeme>, bound: int)
    requires IsAtom(x) && IsAtom(y) && IsAtom(z) && Ends(rest)
    requires 0 < PrecedenceOf(o1.tok) <= PrecedenceOf(o2.tok) < bound
    ensures ParseBinaryF([x, o1, y, o2, z] + rest, bound)
         == Step(Binary(Binary(AtomExpr(x), o1.tok, AtomExpr(y)), o2.tok, AtomExpr(z)), rest)
  {
    var s := [x, o1, y, o2, z] + rest;
    var t1 := [o1, y, o2, z] + rest;
    var t2 := [y, o2, z] + rest;
    var t3 := [o2, z] + rest;
    var t4 := [z] + rest;
    assert s == [x] + t1 && t2 == [y] + t3 && t4 == [z] + rest;
    assert Cur(t1) == o1 && Adv(t1) == t2;
    assert Cur(t3) == o2 && Adv(t3) == t4;
    AtomOperand(x, t1);
    AtomOperand(y, t3);
    var p1 := PrecedenceOf(o1.tok);
    // the right operand of o1 stops before o2, which does not bind tighter
    assert ParseBinaryF(t2, p1) == BinaryLoopF(AtomExpr(y), t3, p1);
    assert BinaryLoopF(AtomExpr(y), t3, p1) == Step(AtomExpr(y), t3);
    var le := Binary(AtomExpr(x), o1.tok, AtomExpr(y));
    assert ParseBinaryF(s, bound) == BinaryLoopF(AtomExpr(x), t1, bound);
    assert BinaryLoopF(AtomExpr(x), t1, bound) == BinaryLoopF(le, t3, bound);
    AtomThenEnd(z, rest, PrecedenceOf(o2.tok));
    var b := Binary(le, o2.tok, AtomExpr(z));
    assert BinaryLoopF(le, t3, bound) == BinaryLoopF(b, rest, bound);
    assert BinaryLoopF(b, rest, bound) == Step(b, rest);
  }

  /** A tighter operator on the right nests to the right: `x o1 y o2 z` is `x o1 (y o2 z)`
      when `o2` binds strictly tighter than `o1`. */
  lemma TighterNestsRight(x: Lexeme, o1: Lexeme, y: Lexeme, o2: Lexeme, z: Lexeme, rest: seq<Lexeme>, bound: int)
    requires IsAtom(x) && IsAtom(y) && IsAtom(z) && Ends(rest)
    requires 0 < PrecedenceOf(o2.tok) < PrecedenceOf(o1.tok) < bound
    ensures ParseBinaryF([x, o1, y, o2, z] + rest, bound)
         == Step(Binary(AtomExpr(x), o1.tok, Binary(AtomExpr(y), o2.tok, AtomExpr(z))), rest)
  {
    var s := [x, o1, y, o2, z] + rest;
    var t1 := [o1, y, o2, z] + rest;
    var t2 := [y, o2, z] + rest;
    assert s == [x] + t1 && t2 == [y] + [o2, z] + rest;
    assert Cur(t1) == o1 && Adv(t1) == t2;
    AtomOperand(x, t1);
    assert t2 == [y, o2, z] + rest;
    SingleOperator(y, o2, z, rest, PrecedenceOf(o1.tok));
    var right := Binary(AtomExpr(y), o2.tok, AtomExpr(z));
    var b := Binary(AtomExpr(x), o1.tok, right);
    assert ParseBinaryF(s, bound) == BinaryLoopF(AtomExpr(x), t1, bound);
    assert BinaryLoopF(AtomExpr(x), t1, bound) == BinaryLoopF(b, rest, bound);
    assert BinaryLoopF(b, rest, bound) == Step(b, rest);
  }

  /** Prefix operators nest: each applies to everything the rest of the unary chain parses. */
  lemma PrefixChain(u: Lexeme, ts: seq<Lexeme>)
    requires IsPrefixOperator(u.tok)
    ensures ParseUnaryF([u] + ts)
         == Step(Unary(u.tok, ParseUnaryF(ts).e), ParseUnaryF(ts).rest)
  {
    assert Cur([u] + ts) == u && Adv([u] + ts) == ts;
  }

  /** A token that cannot start an operand yields the nil expression and consumes nothing,
      both as an operand and as a whole expression when it is not an operator either. */
  lemma NoOperandIsMissing(ts: seq<Lexeme>)
    requires !IsAtom(Cur(ts)) && !IsPrefixOperator(Cur(ts).tok) && Cur(ts).tok != OpLParen
    ensures ParseUnaryF(ts) == PostfixF(Missing, ts)
    ensures Ends(ts) ==> ParseExprF(ts) == Step(Missing, ts)
  {
    assert PrimaryF(ts) == Step(Missing, ts);
    assert ParseOperandF(ts) == PostfixF(Missing, ts);
    if Ends(ts) {
      assert PostfixF(Missing, ts) == Step(Missing, ts);
      assert BinaryLoopF(Missing, ts, TopBound) == Step(Missing, ts);
    }
  }

  /** The closing token of a parenthesis is skipped without being checked: `( x ]` parses as `(x)`. */
  lemma ParenCloseUnchecked(x: Lexeme, close: Lexeme, rest: seq<Lexeme>)
    requires IsAtom(x) && Ends([close] + rest)
    ensures PrimaryF([Lexeme(OpLParen, "(")] + [x, close] + rest)
         == Step(Paren(AtomExpr(x)), rest)
  {
    var s := [Lexeme(OpLParen, "(")] + [x, close] + rest;
    assert Cur(s).tok == OpLParen && Adv(s) == [x] + ([close] + rest);
    AtomThenEnd(x, [close] + rest, TopBound);
    assert Adv([close] + rest) == rest;
  }

  /** Only one postfix is applied: in `a.b.c` the second access is left unparsed. */
  lemma OnePostfixOnly(a: Lexeme, b: Lexeme, c: Lexeme)
    requires a.tok == ID && b.tok == ID
    ensures ParseOperandF([a, Lexeme(OpAccess, "."), b, Lexeme(OpAccess, "."), c])
         == Step(Access(Identifier(a.lit), b.lit), [Lexeme(OpAccess, "."), c])
  {
    var s := [a, Lexeme(OpAccess, "."), b, Lexeme(OpAccess, "."), c];
    assert Adv(s) == [Lexeme(OpAccess, "."), b, Lexeme(OpAccess, "."), c];
    assert Adv(Adv(s)) == [b, Lexeme(OpAccess, "."), c];
    assert Adv(Adv(Adv(s))) == [Lexeme(OpAccess, "."), c];
  }

  /** Text after a complete expression is ignored: `1 2` parses as `1`. */
  lemma TrailingTokensIgnored(x: Lexeme, rest: seq<Lexeme>)
    requires IsAtom(x) && Ends(rest)
    ensures ParseExprF([x] + rest).e == AtomExpr(x)
  {
    AtomThenEnd(x, rest, TopBound);
  }

  /** Two prefix operators nest: `- - a` is `-(-(a))`. */
  lemma PrefixNests(u1: Lexeme, u2: Lexeme, x: Lexeme, rest: seq<Lexeme>)
    requires IsPrefixOperator(u1.tok) && IsPrefixOperator(u2.tok) && IsAtom(x) && Ends(rest)
    ensures ParseExprF([u1, u2, x] + rest)
         == Step(Unary(u1.tok, Unary(u2.tok, AtomExpr(x))), rest)
  {
    var t2 := [x] + rest;
    var t1 := [u2] + t2;
    var s := [u1] + t1;
    assert [u1, u2, x] + rest == s;
    AtomOperand(x, rest);
    PrefixChain(u2, t2);
    PrefixChain(u1, t1);
    var e := Unary(u1.tok, Unary(u2.tok, AtomExpr(x)));
    assert ParseUnaryF(s) == Step(e, rest);
    assert ParseBinaryF(s, TopBound) == BinaryLoopF(e, rest, TopBound);
    assert BinaryLoopF(e, rest, TopBound) == Step(e, rest);
  }

  /** A prefix operator binds tighter than every binary operator: `- a + b` is `(-a) + b`. */
  lemma PrefixBindsTighter(u: Lexeme, x: Lexeme, o: Lexeme, y: Lexeme, rest: seq<Lexeme>, bound: int)
    requires IsPrefixOperator(u.tok) && IsAtom(x) && IsAtom(y) && Ends(rest)
    requires 0 < PrecedenceOf(o.tok) < bound
    ensures ParseBinaryF([u, x, o, y] + rest, bound)
         == Step(Binary(Unary(u.tok, AtomExpr(x)), o.tok, AtomExpr(y)), rest)
  {
    var t := [o, y] + rest;
    var s := [u] + ([x] + t);
    assert [u, x, o, y] + rest == s;
    PrecedenceZero(o.tok);
    assert Cur(t) == o && Adv(t) == [y] + rest;
    AtomOperand(x, t);
    PrefixChain(u, [x] + t);
    var left := Unary(u.tok, AtomExpr(x));
    assert ParseUnaryF(s) == Step(left, t);
    AtomThenEnd(y, rest, PrecedenceOf(o.tok));
    var b := Binary(left, o.tok, AtomExpr(y));
    assert ParseBinaryF(s, bound) == BinaryLoopF(left, t, bound);
    assert BinaryLoopF(left, t, bound) == BinaryLoopF(b, rest, bound);
    assert BinaryLoopF(b, rest, bound) == Step(b, rest);
  }

  /** The parser's view of the scanner: the current token of the remaining stream is
      what `scan` returns at the cursor, and `next` leaves the stream that scanning
      goes on to produce (empty for good once EOF is reached). */
  lemma StreamFollowsScan(src: seq<char>, i: nat)
    requires i <= |src|
    ensures Cur(TokenStream(src, i)) == ScanAt(src, i).lexeme
    ensures Adv(TokenStream(src, i))
         == if ScanAt(src, i).lexeme.tok == EOF then [] else TokenStream(src, ScanAt(src, i).end)
  {
  }

  /** A text of spaces only is no error: it parses to the nil expression. */
  lemma BlankTextParsesMissing(src: string)
    requires src != "" && forall m :: 0 <= m < |src| ==> IsSpace(src[m] as int)
    ensures ParseText(src) == Parsed(Missing)
  {
    assert ScanAt(src, 0).lexeme.tok == EOF;
    assert TokenStream(src, 0) == [];
    NoOperandIsMissing([]);
  }

  // ----------------------------------------------------------------------------
  // The parser object

  /** `parser`: the scanner and the current token with its lexeme. */
  class Parser {
    const scanner: Scanner
    var tok: Token
    var lit: string

    /** The scanner is valid, and the current token is EOF only once the input is used up. */
    ghost predicate Valid()
      reads this, scanner, scanner.source
    {
      scanner.Valid() && (tok == EOF ==> scanner.index == scanner.source.Length)
    }

    /** The tokens still to be parsed: the current one (unless it is EOF) and those the
        scanner will deliver. */
    ghost function Stream(): seq<Lexeme>
      requires Valid()
      reads this, scanner, scanner.source
    {
      if tok == EOF then [] else [Lexeme(tok, lit)] + TokenStream(scanner.source[..], scanner.index)
    }

    /** The struct literal of `parserAST`: the current token is the zero token with an empty lexeme. */
    constructor (s: Scanner)
      requires s.Valid()
      ensures Valid() && scanner == s && tok == Illegal && lit == ""
      ensures Stream() == [Lexeme(Illegal, "")] + TokenStream(s.source[..], s.index)
    {
      scanner := s;
      tok := Illegal;
      lit := "";
    }

    /** `next`: fetch the next token from the scanner. */
    method Next()
      requires Valid()
      modifies this, scanner
      ensures Valid() && Stream() == Adv(old(Stream()))
    {
      ghost var src := scanner.source[..];
      ghost var i := scanner.index;
      if tok == EOF {
        ScanAtEndIsEof(src);
      }
      tok, lit := scanner.Scan();
    }

    /** `parseExpr`. */
    method ParseExpr() returns (e: Expr)
      requires Valid()
      modifies this, scanner
      ensures Valid() && Step(e, Stream()) == ParseExprF(old(Stream()))
      decreases |Stream()|, 6
    {
      e := ParseBinaryExpr(TopBound);
    }

    /** `parseBinaryExpr`. */
    method ParseBinaryExpr(pre1: int) returns (le: Expr)
      requires Valid()
      modifies this, scanner
      ensures Valid() && Step(le, Stream()) == ParseBinaryF(old(Stream()), pre1)
      decreases |Stream()|, 5
    {
      le := ParseUnaryExpr();
      while true
        invariant Valid()
        invariant |Stream()| <= |old(Stream())|
        invariant BinaryLoopF(le, Stream(), pre1) == ParseBinaryF(old(Stream()), pre1)
        decreases |Stream()|
      {
        var op := tok;
        var pre := PrecedenceOf(op);
        if pre == 0 || !RankPrecedenceWith(pre, pre1) {
          break;
        }
        Next();
        var re := ParseBinaryExpr(pre);
        le := Binary(le, op, re);
      }
    }

    /** `parseUnaryExpr`. */
    method ParseUnaryExpr() returns (e: Expr)
      requires Valid()
      modifies this, scanner
      ensures Valid() && Step(e, Stream()) == ParseUnaryF(old(Stream()))
      decreases |Stream()|, 3
    {
      if IsPrefixOperator(tok) {
        var op := tok;
        Next();
        var inner := ParseUnaryExpr();
        return Unary(op, inner);
      }
      e := ParseOperand();
    }

    /** `parseOperand`. */
    method ParseOperand() returns (e: Expr)
      requires Valid()
      modifies this, scanner
      ensures Valid() && Step(e, Stream()) == ParseOperandF(old(Stream()))
      decreases |Stream()|, 2
    {
      e := Missing;
      if IsLiteralToken(tok) {
        e := Literal(tok, lit);
        Next();
      } else if tok == ID {
        e := Identifier(lit);
        Next();
      } else if tok == OpLParen {
        Next();
        e := ParseExpr();
        Next();
        e := Paren(e);
      }
      ghost var afterPrimary := Stream();
      assert Step(e, afterPrimary) == PrimaryF(old(Stream()));
      if tok == OpLBracket {
        Next();
        var index := ParseExpr();
        Next();
        e := Index(e, index);
      } else if tok == OpAccess {
        Next();
        if tok == ID {
          e := Access(e, lit);
        }
        Next();
      }
    }
  }

  /** `parserAST`: scan and parse a whole text. */
  method ParserAST(src: string) returns (r: ParseOutcome)
    ensures r == ParseText(src)
  {
    var s := NewScanner(src);
    if s == null {
      return NilScannerPanic;
    }
    var p := new Parser(s);
    p.Next();
    var e := p.ParseExpr();
    return Parsed(e);
  }
}
