// The scanner (scan.go): a cursor over the runes of the input with a one-rune
// register `char` (-1 past the end; the field is
// `ch` here, `char` being a keyword). Each scanning routine is specified by a
// pure function of the source and the start position, giving the token, its
// lexeme and the position after it; the `Scanner` class runs the same routines
// in place on its fields and is proved to agree with those functions.
module Scanning {
  import opened Tokens

  /** A scanned token and its text, the `(token, string)` pair that `scan` returns. */
  datatype Lexeme = Lexeme(tok: Token, lit: string)

  /** The outcome of one scanning routine: what it returned and where the cursor stopped. */
  datatype Scanned = Scanned(lexeme: Lexeme, end: nat)

  /** The value of the `ch` register when the cursor is at `i`. */
  function At(src: seq<char>, i: int): int
  {
    if 0 <= i < |src| then src[i] as int else -1
  }

  /** The character classes over which the scanner loops. */
  datatype CharClass = Space | Digit | IdentPart

  predicate InClass(c: int, k: CharClass)
  {
    match k
    case Space => IsSpace(c)
    case Digit => IsDecimal(c)
    case IdentPart => IsLetter(c) || IsDecimal(c) || c == '_' as int
  }

  /** Where a loop `for inClass(s.char) { s.next() }` started at `i` stops: the end of
      the maximal run of class-`k` characters. */
  function RunEnd(src: seq<char>, i: nat, k: CharClass): (j: nat)
    requires i <= |src|
    ensures i <= j <= |src|
    ensures forall m :: i <= m < j ==> InClass(src[m] as int, k)
    ensures !InClass(At(src, j), k)
    decreases |src| - i
  {
    if i < |src| && InClass(src[i] as int, k) then RunEnd(src, i + 1, k) else i
  }

  /** `scanNumber` started at `i`. */
  function ScanNumberAt(src: seq<char>, i: nat): Scanned
    requires i <= |src|
  {
    var d := RunEnd(src, i, Digit);
    if At(src, d) == '.' as int then
      if IsDecimal(At(src, d + 1)) then
        var e := RunEnd(src, d + 1, Digit);
        Scanned(Lexeme(Float, src[i..e]), e)
      else
        Scanned(Lexeme(Illegal, ""), d + 1)
    else
      Scanned(Lexeme(Integer, src[i..d]), d)
  }

  /** The characters `scanEscape` accepts after a backslash. */
  predicate IsEscape(c: int)
  {
    c in {'a' as int, 'b' as int, 'f' as int, 'n' as int, 'r' as int, 't' as int,
          'v' as int, '\\' as int, '"' as int, '0' as int}
  }

  /** The loop of `scanString`, with the cursor at `k`: whether a closing quote is
      found, and the position of that quote or of the failure. */
  function StringFrom(src: seq<char>, k: nat): (r: (bool, nat))
    requires k < |src|
    ensures k < r.1 <= |src|
    ensures r.0 ==> r.1 < |src| && src[r.1] == '"'
    decreases |src| - k
  {
    var j := k + 1;
    if j == |src| then (false, j)
    else if src[j] == '"' then (true, j)
    else if src[j] == '\\' then
      if IsEscape(At(src, j + 1)) then StringFrom(src, j + 1) else (false, j + 1)
    else StringFrom(src, j)
  }

  /** `scanString` started at `i` (on the opening quote). */
  function ScanStringAt(src: seq<char>, i: nat): Scanned
    requires i < |src|
  {
    var (found, e) := StringFrom(src, i);
    if found then Scanned(Lexeme(String, src[i..e + 1]), e + 1)
    else Scanned(Lexeme(Illegal, ""), e)
  }

  /** `scanChar` started at `i` (on the opening quote). */
  function ScanCharAt(src: seq<char>, i: nat): Scanned
    requires i < |src|
  {
    var j := i + 1;
    if At(src, j) == '\\' as int && !IsEscape(At(src, j + 1)) then
      Scanned(Lexeme(Illegal, ""), j + 1)
    else if At(src, j) < 0 then
      Scanned(Lexeme(Illegal, ""), j)
    else
      var k := if At(src, j) == '\\' as int then j + 1 else j;
      if At(src, k + 1) != '\'' as int then Scanned(Lexeme(Illegal, ""), k + 1)
      else Scanned(Lexeme(Char, src[i..k + 2]), k + 2)
  }

  /** `scanIdentifier` started at `i`. */
  function ScanIdentifierAt(src: seq<char>, i: nat): Scanned
    requires i <= |src|
  {
    var e := RunEnd(src, i, IdentPart);
    Scanned(Lexeme(ID, src[i..e]), e)
  }

  /** The operator switch of `scan`, with the cursor at `i`. */
  function ScanOperatorAt(src: seq<char>, i: nat): Scanned
    requires i < |src|
  {
    var n := At(src, i + 1);
    match src[i]
    case '+' => Scanned(Lexeme(OpAdd, "+"), i + 1)
    case '-' => Scanned(Lexeme(OpMinus, "-"), i + 1)
    case '*' => Scanned(Lexeme(OpMultiply, "*"), i + 1)
    case '/' => Scanned(Lexeme(OpDivide, "/"), i + 1)
    case '%' => Scanned(Lexeme(OpModulus, "%"), i + 1)
    case '(' => Scanned(Lexeme(OpLParen, "("), i + 1)
    case ')' => Scanned(Lexeme(OpRParen, ")"), i + 1)
    case '[' => Scanned(Lexeme(OpLBracket, "["), i + 1)
    case ']' => Scanned(Lexeme(OpRBracket, "]"), i + 1)
    case '.' => Scanned(Lexeme(OpAccess, "."), i + 1)
    case '!' =>
      if n == '=' as int then Scanned(Lexeme(OpNeq, "!="), i + 2)
      else Scanned(Lexeme(OpNot, "!"), i + 1)
    case '=' =>
      if n == '=' as int then Scanned(Lexeme(OpEq, "=="), i + 2)
      else Scanned(Lexeme(Illegal, ""), i + 1)
    case '&' =>
      if n == '&' as int then Scanned(Lexeme(OpAnd, "&&"), i + 2)
      else Scanned(Lexeme(OpBitwiseAnd, "&"), i + 1)
    case '|' =>
      if n == '|' as int then Scanned(Lexeme(OpOr, "||"), i + 2)
      else Scanned(Lexeme(OpBitwiseOr, "|"), i + 1)
    case '^' => Scanned(Lexeme(OpBitwiseXor, "^"), i + 1)
    case '~' => Scanned(Lexeme(OpBitwiseNot, "~"), i + 1)
    case '<' =>
      if n == '=' as int then Scanned(Lexeme(OpLte, "<="), i + 2)
      else if n == '<' as int then Scanned(Lexeme(OpBitwiseLShift, "<<"), i + 2)
      else Scanned(Lexeme(OpLt, "<"), i + 1)
    case '>' =>
      if n == '=' as int then Scanned(Lexeme(OpGte, ">="), i + 2)
      else if n == '>' as int then Scanned(Lexeme(OpBitwiseRShift, ">>"), i + 2)
      else Scanned(Lexeme(OpGt, ">"), i + 1)
    case _ => Scanned(Lexeme(Illegal, ""), i + 1)
  }

  /** `scan` with the cursor at `i`: skip spaces, then dispatch on the first rune. */
  function ScanAt(src: seq<char>, i: nat): (r: Scanned)
    requires i <= |src|
    ensures i <= r.end <= |src|
    ensures r.lexeme.tok == EOF <==> forall m :: i <= m < |src| ==> IsSpace(src[m] as int)
    ensures r.lexeme.tok == EOF ==> r.end == |src| && r.lexeme.lit == ""
    ensures r.lexeme.tok != EOF ==> r.end > i
  {
    var j := RunEnd(src, i, Space);
    if j >= |src| then Scanned(Lexeme(EOF, ""), j)
    else
      var c := src[j] as int;
      if IsDecimal(c) then ScanNumberAt(src, j)
      else if IsLetter(c) || c == '_' as int then ScanIdentifierAt(src, j)
      else if c == '"' as int then ScanStringAt(src, j)
      else if c == '\'' as int then ScanCharAt(src, j)
      else ScanOperatorAt(src, j)
  }

  /** The tokens `scan` returns, called repeatedly from position `i`, up to but not
      including the first EOF. It is well defined because every other token moves
      the cursor forward. */
  function TokenStream(src: seq<char>, i: nat): (ts: seq<Lexeme>)
    requires i <= |src|
    ensures forall k :: 0 <= k < |ts| ==> ts[k].tok != EOF
    decreases |src| - i
  {
    var r := ScanAt(src, i);
    if r.lexeme.tok == EOF then [] else [r.lexeme] + TokenStream(src, r.end)
  }

  // ----------------------------------------------------------------------------
  // Properties of the scanning functions

  /** Every non-EOF token moves the cursor forward, and EOF leaves it at the end:
      so repeated scanning reaches EOF and stays there. */
  lemma ScanAtEndIsEof(src: seq<char>)
    ensures ScanAt(src, |src|) == Scanned(Lexeme(EOF, ""), |src|)
    ensures TokenStream(src, |src|) == []
  {
  }

  /** The three lexer_test.go number inputs: an integer, a float, and a trailing dot. */
  lemma ScanNumberExamples()
    ensures ScanAt("12345 ", 0) == Scanned(Lexeme(Integer, "12345"), 5)
    ensures ScanAt("1231.23 ", 0) == Scanned(Lexeme(Float, "1231.23"), 7)
    ensures ScanAt("12345. ", 0) == Scanned(Lexeme(Illegal, ""), 6)
  {
    ScanIntegerExample("12345 ");
    ScanFloatExample("1231.23 ");
    ScanTrailingDotExample("12345. ");
  }

  lemma ScanIntegerExample(a: seq<char>)
    requires a == "12345 "
    ensures ScanAt(a, 0) == Scanned(Lexeme(Integer, "12345"), 5)
  {
    assert RunEnd(a, 0, Space) == 0;
    assert RunEnd(a, 5, Digit) == 5;
    assert RunEnd(a, 0, Digit) == 5;
    assert ScanAt(a, 0) == ScanNumberAt(a, 0);
    assert a[0..5] == "12345";
  }

  lemma ScanFloatExample(b: seq<char>)
    requires b == "1231.23 "
    ensures ScanAt(b, 0) == Scanned(Lexeme(Float, "1231.23"), 7)
  {
    assert RunEnd(b, 0, Space) == 0;
    assert RunEnd(b, 4, Digit) == 4;
    assert RunEnd(b, 0, Digit) == 4;
    assert RunEnd(b, 7, Digit) == 7;
    assert RunEnd(b, 5, Digit) == 7;
    assert ScanAt(b, 0) == ScanNumberAt(b, 0);
    assert b[0..7] == "1231.23";
  }

  lemma ScanTrailingDotExample(c: seq<char>)
    requires c == "12345. "
    ensures ScanAt(c, 0) == Scanned(Lexeme(Illegal, ""), 6)
  {
    assert RunEnd(c, 0, Space) == 0;
    assert RunEnd(c, 5, Digit) == 5;
    assert RunEnd(c, 0, Digit) == 5;
    assert ScanAt(c, 0) == ScanNumberAt(c, 0);
  }

  /** The lexemes of `scanNumber`: a maximal digit run is an Integer; digits, a dot
      and a maximal digit run are a Float; a dot without a digit after it is Illegal
      with no text. */
  lemma ScanNumberShape(src: seq<char>, i: nat)
    requires i < |src| && IsDecimal(src[i] as int)
    ensures var r := ScanNumberAt(src, i);
      var d := RunEnd(src, i, Digit);
      i < d &&
      (r.lexeme.tok == Integer <==> At(src, d) != '.' as int) &&
      (r.lexeme.tok == Integer ==> r.end == d && r.lexeme.lit == src[i..d]) &&
      (r.lexeme.tok == Float ==>
        src[d] == '.' && d + 1 < r.end && r.lexeme.lit == src[i..r.end] &&
        (forall m :: d < m < r.end ==> IsDecimal(src[m] as int)) &&
        !IsDecimal(At(src, r.end))) &&
      (r.lexeme.tok == Illegal ==>
        src[d] == '.' && !IsDecimal(At(src, d + 1)) && r.lexeme.lit == "" && r.end == d + 1) &&
      r.lexeme.tok in {Integer, Float, Illegal}
  {
  }

  /** The text between the quotes of a string literal that `scanString` accepts:
      runes other than a quote and a backslash, and backslash escapes from the whitelist. */
  predicate StringBody(b: seq<char>)
    decreases |b|
  {
    b == [] ||
    (b[0] == '\\' && |b| >= 2 && IsEscape(b[1] as int) && StringBody(b[2..])) ||
    (b[0] != '\\' && b[0] != '"' && StringBody(b[1..]))
  }

  /** The string loop finds the closing quote right after a well-formed body. */
  lemma {:induction false} StringFromAccepts(src: seq<char>, k: nat, b: seq<char>)
    requires k + 1 + |b| < |src| && src[k + 1..k + 1 + |b|] == b && src[k + 1 + |b|] == '"'
    requires StringBody(b)
    ensures StringFrom(src, k) == (true, k + 1 + |b|)
    decreases |b|
  {
    if b == [] {
    } else if b[0] == '\\' {
      assert src[k + 1] == b[0] && src[k + 2] == b[1];
      assert src[k + 3..k + 3 + |b[2..]|] == b[2..];
      StringFromAccepts(src, k + 2, b[2..]);
    } else {
      assert src[k + 1] == b[0];
      assert src[k + 2..k + 2 + |b[1..]|] == b[1..];
      StringFromAccepts(src, k + 1, b[1..]);
    }
  }

  /** What the string loop accepts before the closing quote is a well-formed body. */
  lemma {:induction false} StringFromFound(src: seq<char>, k: nat)
    requires k < |src| && StringFrom(src, k).0
    ensures StringBody(src[k + 1..StringFrom(src, k).1])
    decreases |src| - k
  {
    var j := k + 1;
    var e := StringFrom(src, k).1;
    if src[j] == '"' {
      assert src[k + 1..e] == [];
    } else if src[j] == '\\' {
      StringFromFound(src, j + 1);
      assert src[k + 1..e][2..] == src[j + 2..e];
    } else {
      StringFromFound(src, j);
      assert src[k + 1..e][1..] == src[j + 1..e];
    }
  }

  /** `scanString` returns a String token exactly for a quote, a well-formed body and a
      closing quote, and its lexeme is that text with both quotes; otherwise it is Illegal
      with no text (an escape outside the whitelist, or no closing quote). */
  lemma ScanStringShape(src: seq<char>, i: nat)
    requires i < |src|
    ensures var r := ScanStringAt(src, i);
      (r.lexeme.tok == String ==>
        r.lexeme.lit == src[i..r.end] && |r.lexeme.lit| >= 2 &&
        r.lexeme.lit[|r.lexeme.lit| - 1] == '"' &&
        StringBody(r.lexeme.lit[1..|r.lexeme.lit| - 1])) &&
      (r.lexeme.tok != String ==> r.lexeme == Lexeme(Illegal, ""))
  {
    var e := StringFrom(src, i).1;
    if StringFrom(src, i).0 {
      StringFromFound(src, i);
      var lit := src[i..e + 1];
      assert i < e < |src|;
      assert |lit| == e + 1 - i;
      var inner, body := lit[1..|lit| - 1], src[i + 1..e];
      assert inner == body by {
        assert |inner| == |body|;
        forall m | 0 <= m < |inner|
          ensures inner[m] == body[m]
        {
          assert inner[m] == lit[m + 1] == src[i + 1 + m];
        }
      }
    }
  }

  /** Conversely, a quote, a well-formed body and a quote always scan as one String token. */
  lemma ScanStringAccepts(src: seq<char>, i: nat, b: seq<char>)
    requires i + |b| + 2 <= |src| && src[i] == '"' && src[i + 1..i + 1 + |b|] == b
    requires src[i + 1 + |b|] == '"' && StringBody(b)
    ensures ScanStringAt(src, i) == Scanned(Lexeme(String, ['"'] + b + ['"']), i + |b| + 2)
  {
    StringFromAccepts(src, i, b);
    assert src[i..i + |b| + 2] == ['"'] + b + ['"'];
  }

  /** `scanChar` accepts a quote, then one rune other than a backslash or one whitelisted
      escape, then a quote; anything else is Illegal with no text. */
  lemma ScanCharShape(src: seq<char>, i: nat)
    requires i < |src|
    ensures var r := ScanCharAt(src, i);
      (r.lexeme.tok == Char <==>
        (i + 2 < |src| && src[i + 1] != '\\' && src[i + 2] == '\'') ||
        (i + 3 < |src| && src[i + 1] == '\\' && IsEscape(src[i + 2] as int) && src[i + 3] == '\'')) &&
      (r.lexeme.tok == Char ==> r.lexeme.lit == src[i..r.end] && (r.end == i + 3 || r.end == i + 4)) &&
      (r.lexeme.tok != Char ==> r.lexeme == Lexeme(Illegal, ""))
  {
  }

  /** The reference reading of the operator table: the longest spelling in
      `operatorMap` that the input starts with. */
  function LongestOperator(src: seq<char>, i: nat): Scanned
    requires i < |src|
  {
    if i + 2 <= |src| && src[i..i + 2] in OperatorMap then
      Scanned(Lexeme(OperatorMap[src[i..i + 2]], src[i..i + 2]), i + 2)
    else if src[i..i + 1] in OperatorMap then
      Scanned(Lexeme(OperatorMap[src[i..i + 1]], src[i..i + 1]), i + 1)
    else
      Scanned(Lexeme(Illegal, ""), i + 1)
  }

  /** The operator switch of `scan` is longest match over `operatorMap` (one rune of
      lookahead decides the two-rune operators; a lone `=` is Illegal and consumed)... */
  lemma ScanOperatorIsLongestMatch(src: seq<char>, i: nat)
    requires i < |src| && src[i] != ','
    ensures ScanOperatorAt(src, i) == LongestOperator(src, i)
  {
    assert src[i..i + 1] == [src[i]];
    if i + 2 <= |src| {
      assert src[i..i + 2] == [src[i], src[i + 1]];
    }
  }

  /** ...except for `,`: it is in the table, but the switch has no case for it. */
  lemma ScanOperatorComma(src: seq<char>, i: nat)
    requires i < |src| && src[i] == ','
    ensures src[i..i + 1] in OperatorMap
    ensures ScanOperatorAt(src, i) == Scanned(Lexeme(Illegal, ""), i + 1)
  {
    assert src[i..i + 1] == ",";
  }

  /** Each operator lexeme is the text consumed and is spelled as its token prints. */
  lemma ScanOperatorSpelling(src: seq<char>, i: nat)
    requires i < |src|
    ensures var r := ScanOperatorAt(src, i);
      (r.lexeme.tok != Illegal ==>
        r.lexeme.lit == src[i..r.end] && r.lexeme.lit == TokenString(r.lexeme.tok) &&
        GetOperator(r.lexeme.lit) == r.lexeme.tok) &&
      (r.lexeme.tok == Illegal ==> r.lexeme.lit == "" && r.end == i + 1)
  {
    var r := ScanOperatorAt(src, i);
    if src[i] == ',' {
      ScanOperatorComma(src, i);
    } else {
      ScanOperatorIsLongestMatch(src, i);
      if r.lexeme.tok != Illegal {
        OperatorMapSpelling(r.lexeme.lit);
      }
    }
  }

  /** An identifier is the maximal run of letters, digits and `_` from a letter or `_`. */
  lemma ScanIdentifierShape(src: seq<char>, i: nat)
    requires i < |src| && (IsLetter(src[i] as int) || src[i] == '_')
    ensures var r := ScanAt(src, i);
      r.lexeme.tok == ID && r.lexeme.lit == src[i..r.end] && i < r.end &&
      (forall m :: i <= m < r.end ==> InClass(src[m] as int, IdentPart)) &&
      !InClass(At(src, r.end), IdentPart)
  {
    assert RunEnd(src, i, Space) == i;
  }

  /** Every lexeme other than EOF and Illegal is exactly the source text consumed
      after the skipped spaces; EOF and Illegal carry no text. */
  lemma ScanLexemeIsSourceText(src: seq<char>, i: nat)
    requires i <= |src|
    ensures var r := ScanAt(src, i);
      var j := RunEnd(src, i, Space);
      (r.lexeme.tok != Illegal && r.lexeme.tok != EOF ==> j < r.end && r.lexeme.lit == src[j..r.end]) &&
      (r.lexeme.tok == Illegal || r.lexeme.tok == EOF ==> r.lexeme.lit == "")
  {
    var j := RunEnd(src, i, Space);
    if j < |src| {
      var c := src[j] as int;
      if IsDecimal(c) {
        assert ScanAt(src, i) == ScanNumberAt(src, j);
        ScanNumberShape(src, j);
      } else if IsLetter(c) || c == '_' as int {
        assert ScanAt(src, i) == ScanIdentifierAt(src, j);
      } else if c == '"' as int {
        assert ScanAt(src, i) == ScanStringAt(src, j);
        ScanStringShape(src, j);
      } else if c == '\'' as int {
        assert ScanAt(src, i) == ScanCharAt(src, j);
        ScanCharShape(src, j);
      } else {
        assert ScanAt(src, i) == ScanOperatorAt(src, j);
        ScanOperatorSpelling(src, j);
      }
    }
  }

  /** `scanner`: the runes of the input, the cursor and the rune under it. */
  class Scanner {
    const source: array<char>
    var index: int
    var ch: int

    /** The cursor invariant: the cursor is within the input and `ch` is the rune under it. */
    ghost predicate Valid()
      reads this, source
    {
      0 <= index <= source.Length && ch == At(source[..], index)
    }

    /** The struct literal of `newScanner`, for a non-empty input. */
    constructor (e: string)
      requires |e| > 0
      ensures Valid() && fresh(source) && source[..] == e && index == 0
    {
      source := new char[|e|](i requires 0 <= i < |e| => e[i]);
      index := 0;
      ch := e[0] as int;
      new;
      assert source[..] == e;
    }

    /** `next`: advance the cursor by one rune and reload `ch`. */
    method Next()
      requires Valid() && index < source.Length
      modifies this
      ensures Valid() && index == old(index) + 1
    {
      index := index + 1;
      if index < source.Length {
        ch := source[index] as int;
        return;
      }
      ch := -1;
    }

    /** `nextChar`: the rune after the cursor, without moving. */
    method NextChar() returns (c: int)
      requires Valid()
      ensures c == At(source[..], index + 1)
      ensures c == -1 <==> index + 1 >= source.Length
    {
      var idx := index + 1;
      if idx < source.Length {
        return source[idx] as int;
      }
      return -1;
    }

    /** `skip`: move past white space. */
    method Skip()
      requires Valid()
      modifies this
      ensures Valid() && index == RunEnd(source[..], old(index), Space)
    {
      while IsSpace(ch)
        invariant Valid() && old(index) <= index
        invariant RunEnd(source[..], index, Space) == RunEnd(source[..], old(index), Space)
        decreases source.Length - index
      {
        Next();
      }
    }

    /** `scan`: the next token and its lexeme. */
    method Scan() returns (tok: Token, lit: string)
      requires Valid()
      modifies this
      ensures Valid()
      ensures ScanAt(source[..], old(index)) == Scanned(Lexeme(tok, lit), index)
    {
      Skip();
      if index >= source.Length {
        return EOF, "";
      }
      tok, lit := Illegal, "";
      if IsDecimal(ch) {
        tok, lit := ScanNumber();
      } else if IsLetter(ch) || '_' as int == ch {
        tok, lit := ScanIdentifier();
      } else if '"' as int == ch {
        tok, lit := ScanString();
      } else if '\'' as int == ch {
        tok, lit := ScanChar();
      } else {
        tok, lit := ScanOperator();
      }
    }

    /** The operator switch of `scan` (an inline `switch` in the source), including
        its final `next()`. */
    method ScanOperator() returns (tok: Token, lit: string)
      requires Valid() && index < source.Length
      modifies this
      ensures Valid()
      ensures ScanOperatorAt(source[..], old(index)) == Scanned(Lexeme(tok, lit), index)
    {
      tok, lit := Illegal, "";
      match source[index] {
      case '+' => tok, lit := OpAdd, "+";
      case '-' => tok, lit := OpMinus, "-";
      case '*' => tok, lit := OpMultiply, "*";
      case '/' => tok, lit := OpDivide, "/";
      case '%' => tok, lit := OpModulus, "%";
      case '(' => tok, lit := OpLParen, "(";
      case ')' => tok, lit := OpRParen, ")";
      case '[' => tok, lit := OpLBracket, "[";
      case ']' => tok, lit := OpRBracket, "]";
      case '.' => tok, lit := OpAccess, ".";
      case '!' =>
        var n := NextChar();
        if '=' as int == n {
          Next();
          tok, lit := OpNeq, "!=";
        } else {
          tok, lit := OpNot, "!";
        }
      case '=' =>
        var n := NextChar();
        if '=' as int == n {
          Next();
          tok, lit := OpEq, "==";
        } else {
          tok, lit := Illegal, "";
        }
      case '&' =>
        var n := NextChar();
        if '&' as int == n {
          Next();
          tok, lit := OpAnd, "&&";
        } else {
          tok, lit := OpBitwiseAnd, "&";
        }
      case '|' =>
        var n := NextChar();
        if '|' as int == n {
          Next();
          tok, lit := OpOr, "||";
        } else {
          tok, lit := OpBitwiseOr, "|";
        }
      case '^' => tok, lit := OpBitwiseXor, "^";
      case '~' => tok, lit := OpBitwiseNot, "~";
      case '<' =>
        var n := NextChar();
        if '=' as int == n {
          Next();
          tok, lit := OpLte, "<=";
        } else {
          n := NextChar();
          if '<' as int == n {
            Next();
            tok, lit := OpBitwiseLShift, "<<";
          } else {
            tok, lit := OpLt, "<";
          }
        }
      case '>' =>
        var n := NextChar();
        if '=' as int == n {
          Next();
          tok, lit := OpGte, ">=";
        } else {
          n := NextChar();
          if '>' as int == n {
            Next();
            tok, lit := OpBitwiseRShift, ">>";
          } else {
            tok, lit := OpGt, ">";
          }
        }
      case _ =>
      }
      Next();
    }

    /** `scanNumber`: a digit run, optionally followed by `.` and a second digit run. */
    method ScanNumber() returns (tok: Token, lit: string)
      requires Valid()
      modifies this
      ensures Valid()
      ensures ScanNumberAt(source[..], old(index)) == Scanned(Lexeme(tok, lit), index)
    {
      var start := index;
      tok := Integer;
      while IsDecimal(ch)
        invariant Valid() && start <= index
        invariant RunEnd(source[..], index, Digit) == RunEnd(source[..], start, Digit)
        decreases source.Length - index
      {
        Next();
      }

      if ch == '.' as int {
        tok := Float;
        Next();
        if !IsDecimal(ch) {
          return Illegal, "";
        }
        ghost var fraction := index;
        while IsDecimal(ch)
          invariant Valid() && fraction <= index
          invariant RunEnd(source[..], index, Digit) == RunEnd(source[..], fraction, Digit)
          decreases source.Length - index
        {
          Next();
        }
      }
      return tok, source[start..index];
    }

    /** `scanEscape`: step onto the character after a backslash and check it. */
    method ScanEscape() returns (ok: bool)
      requires Valid() && index < source.Length
      modifies this
      ensures Valid() && index == old(index) + 1
      ensures ok == IsEscape(ch)
    {
      Next();
      ok := IsEscape(ch);
    }

    /** `scanString`: a double-quoted literal with escapes; the lexeme keeps both quotes. */
    method ScanString() returns (tok: Token, lit: string)
      requires Valid() && index < source.Length
      modifies this
      ensures Valid()
      ensures ScanStringAt(source[..], old(index)) == Scanned(Lexeme(tok, lit), index)
    {
      var start := index;
      while true
        invariant Valid() && start <= index < source.Length
        invariant StringFrom(source[..], index) == StringFrom(source[..], start)
        decreases source.Length - index
      {
        Next();
        if ch == '"' as int {
          break;
        } else if ch == '\\' as int {
          var ok := ScanEscape();
          if !ok {
            return Illegal, "";
          }
        } else if ch == -1 {
          return Illegal, "";
        }
      }

      // This guard never fires: the loop only exits on a quote after the opening one.
      if ch != '"' as int || start == index {
        return Illegal, "";
      }
      Next();
      return String, source[start..index];
    }

    /** `scanChar`: a single-quoted literal holding one rune or one escape. */
    method ScanChar() returns (tok: Token, lit: string)
      requires Valid() && index < source.Length
      modifies this
      ensures Valid()
      ensures ScanCharAt(source[..], old(index)) == Scanned(Lexeme(tok, lit), index)
    {
      var start := index;
      tok := Char;

      Next();
      if ch == '\\' as int {
        var ok := ScanEscape();
        if !ok {
          return Illegal, "";
        }
      } else if ch < 0 {
        return Illegal, "";
      }
      Next();
      if ch != '\'' as int {
        return Illegal, "";
      }

      Next();
      return tok, source[start..index];
    }

    /** `scanIdentifier`: the maximal run of letters, digits and underscores. */
    method ScanIdentifier() returns (tok: Token, lit: string)
      requires Valid()
      modifies this
      ensures Valid()
      ensures ScanIdentifierAt(source[..], old(index)) == Scanned(Lexeme(tok, lit), index)
    {
      var start := index;
      while IsLetter(ch) || IsDecimal(ch) || '_' as int == ch
        invariant Valid() && start <= index
        invariant RunEnd(source[..], index, IdentPart) == RunEnd(source[..], start, IdentPart)
        decreases source.Length - index
      {
        Next();
      }
      return ID, source[start..index];
    }
  }

  /** `newScanner`: no scanner for the empty input; otherwise the cursor on the first rune. */
  method NewScanner(e: string) returns (s: Scanner?)
    ensures s == null <==> |e| == 0
    ensures s != null ==> fresh(s) && fresh(s.source) && s.Valid() && s.source[..] == e && s.index == 0
  {
    if |e| == 0 {
      return null;
    }
    s := new Scanner(e);
  }
}
