// Go strings are byte sequences: the evaluator measures a char literal in bytes,
// and `strconv.Unquote` turns a string literal into bytes. This module gives the
// UTF-8 encoding of the scanner's runes and the double-quoted form of Unquote.
module GoText {
  import opened Common
  import opened GoInt

  /** One byte of a Go string. */
  type Byte = Uint8

  /** `utf8.EncodeRune` for a Unicode scalar value (`utf8.ValidRune`): the value is
      cut into six-bit groups, and the lead byte tells how many bytes follow. */
  function EncodeScalar(v: int): (b: seq<Byte>)
    requires 0 <= v < 0x11_0000
    ensures 1 <= |b| <= 4
    ensures |b| == 1 <==> v < 0x80
    ensures |b| == 1 ==> b[0] == v
    ensures |b| == 2 ==> 0xC0 <= b[0] < 0xE0
    ensures |b| == 3 ==> 0xE0 <= b[0] < 0xF0
    ensures |b| == 4 ==> 0xF0 <= b[0] < 0xF8
    ensures forall k :: 1 <= k < |b| ==> 0x80 <= b[k] < 0xC0
  {
    var v1 := v / 0x40;
    var v2 := v1 / 0x40;
    var v3 := v2 / 0x40;
    if v < 0x80 then [v]
    else if v < 0x800 then [0xC0 + v1, 0x80 + v % 0x40]
    else if v < 0x1_0000 then [0xE0 + v2, 0x80 + v1 % 0x40, 0x80 + v % 0x40]
    else [0xF0 + v3, 0x80 + v2 % 0x40, 0x80 + v1 % 0x40, 0x80 + v % 0x40]
  }

  /** Reads back the scalar value of a one- to four-byte UTF-8 sequence: the
      reference decoder for `EncodeScalar`. */
  function DecodeScalar(b: seq<Byte>): int
    requires 1 <= |b| <= 4
  {
    var lead := b[0] as int;
    if |b| == 1 then lead
    else
      var t1 := b[1] as int - 0x80;
      if |b| == 2 then (lead - 0xC0) * 0x40 + t1
      else
        var t2 := b[2] as int - 0x80;
        if |b| == 3 then ((lead - 0xE0) * 0x40 + t1) * 0x40 + t2
        else (((lead - 0xF0) * 0x40 + t1) * 0x40 + t2) * 0x40 + (b[3] as int - 0x80)
  }

  /** Encoding loses nothing: decoding the bytes gives the scalar value back. */
  lemma EncodeDecode(v: int)
    requires 0 <= v < 0x11_0000
    ensures DecodeScalar(EncodeScalar(v)) == v
  {
    var v1 := v / 0x40;
    var v2 := v1 / 0x40;
    var v3 := v2 / 0x40;
    assert v == v1 * 0x40 + v % 0x40;
    assert v1 == v2 * 0x40 + v1 % 0x40;
    assert v2 == v3 * 0x40 + v2 % 0x40;
  }

  /** The UTF-8 bytes of a rune. */
  function EncodeRune(c: char): (b: seq<Byte>)
    ensures 1 <= |b| <= 4 && (|b| == 1 <==> c as int < 0x80)
  {
    EncodeScalar(c as int)
  }

  /** The UTF-8 bytes of a text: Go's `string(runes)`. */
  function Utf8(s: string): (b: seq<Byte>)
    ensures |b| >= |s|
  {
    if s == [] then [] else EncodeRune(s[0]) + Utf8(s[1..])
  }

  predicate IsAscii(s: string)
  {
    forall k :: 0 <= k < |s| ==> s[k] as int < 0x80
  }

  /** A text takes one byte per rune exactly when it is ASCII, and then its bytes are its runes. */
  lemma {:induction false} Utf8Length(s: string)
    ensures |Utf8(s)| == |s| <==> IsAscii(s)
    ensures IsAscii(s) ==> forall k :: 0 <= k < |s| ==> Utf8(s)[k] == s[k] as int
  {
    if s != [] {
      Utf8Length(s[1..]);
      assert Utf8(s) == EncodeRune(s[0]) + Utf8(s[1..]);
      if IsAscii(s) {
        assert IsAscii(s[1..]);
        forall k | 0 <= k < |s|
          ensures Utf8(s)[k] == s[k] as int
        {
          if k > 0 {
            assert s[1..][k - 1] == s[k];
          }
        }
      } else if IsAscii(s[1..]) {
        assert s[0] as int >= 0x80 by {
          var k :| 0 <= k < |s| && s[k] as int >= 0x80;
        }
      }
    }
  }

  // ----------------------------------------------------------------------------
  // strconv.Unquote, double-quoted form

  /** The value of a hexadecimal digit, or -1. */
  function HexDigit(c: char): (d: int)
    ensures -1 <= d < 16
  {
    if '0' <= c <= '9' then c as int - '0' as int
    else if 'a' <= c <= 'f' then c as int - 'a' as int + 10
    else if 'A' <= c <= 'F' then c as int - 'A' as int + 10
    else -1
  }

  /** The value of a run of hexadecimal digits, or None if one is not a digit. */
  function HexValue(s: string): (r: Option<nat>)
    ensures r.Some? ==> r.value < Pow16(|s|)
  {
    if s == [] then Some(0)
    else
      var d := HexDigit(s[|s| - 1]);
      match HexValue(s[..|s| - 1])
      case None => None
      case Some(h) => if d < 0 then None else Some(16 * h + d)
  }

  function Pow16(n: nat): (p: nat)
    ensures p >= 1
  {
    if n == 0 then 1 else 16 * Pow16(n - 1)
  }

  /** The single-character escapes of `UnquoteChar` (a b f n r t v, backslash and the
      double quote), with the byte each stands for; 0 for any other character. */
  function SimpleEscape(e: char): Byte
  {
    match e
    case 'a' => 7
    case 'b' => 8
    case 'f' => 12
    case 'n' => 10
    case 'r' => 13
    case 't' => 9
    case 'v' => 11
    case '\\' => 92
    case '"' => 34
    case _ => 0
  }

  /** `strconv.UnquoteChar(t, '"')` followed by the append of the unquoting loop:
      the bytes of the first character or escape of `t`, and the text after it.
      `\x` gives one byte, `\u` and `\U` a UTF-8 encoded rune, and `\ooo` (three
      octal digits, at most 255) one byte; a single quote, an unknown escape, a
      truncated escape, or an invalid rune is a syntax error. */
  function UnquoteChar(t: string): (r: Option<(seq<Byte>, string)>)
    requires t != [] && t[0] != '"'
    ensures r.Some? ==> |r.value.1| < |t|
  {
    var c := t[0];
    if c != '\\' then Some((EncodeRune(c), t[1..]))
    else if |t| < 2 then None
    else
      var e := t[1];
      var rest := t[2..];
      if e in "abfnrtv\\\"" then Some(([SimpleEscape(e)], rest))
      else if e == 'x' || e == 'u' || e == 'U' then
        var n := if e == 'x' then 2 else if e == 'u' then 4 else 8;
        if |rest| < n then None
        else match HexValue(rest[..n])
          case None => None
          case Some(v) =>
            if e == 'x' then Some(([v], rest[n..]))
            else if v < 0x11_0000 && !(0xD800 <= v < 0xE000) then Some((EncodeScalar(v), rest[n..]))
            else None
      else if '0' <= e <= '7' then
        if |rest| < 2 || !('0' <= rest[0] <= '7') || !('0' <= rest[1] <= '7') then None
        else
          var v := ((e as int - '0' as int) * 8 + (rest[0] as int - '0' as int)) * 8 + (rest[1] as int - '0' as int);
          if v > 255 then None else Some(([v], rest[2..]))
      else None
  }

  /** The loop of `unquote` after the opening quote: characters are decoded up to the
      first unescaped `"`, which must be the last character; an unescaped newline or
      running out of text is a syntax error. */
  function UnquoteBody(t: string): (r: Option<seq<Byte>>)
    decreases |t|
  {
    if t == [] then None
    else if t[0] == '"' then (if |t| == 1 then Some([]) else None)
    else if t[0] == '\n' then None
    else match UnquoteChar(t)
      case None => None
      case Some((bytes, rest)) =>
        match UnquoteBody(rest)
        case None => None
        case Some(more) => Some(bytes + more)
  }

  /** `strconv.Unquote` for a literal that opens with a double quote. */
  function Unquote(s: string): (r: Option<seq<Byte>>)
    ensures r.Some? ==> s != [] && s[0] == '"'
  {
    if s == [] || s[0] != '"' then None else UnquoteBody(s[1..])
  }

  /** Only a text between two double quotes unquotes. */
  lemma UnquoteNeedsQuotes(s: string)
    requires Unquote(s).Some?
    ensures |s| >= 2 && s[0] == '"' && s[|s| - 1] == '"'
  {
    UnquoteBodyCloses(s[1..]);
  }

  lemma {:induction false} UnquoteBodyCloses(t: string)
    requires UnquoteBody(t).Some?
    ensures t != [] && t[|t| - 1] == '"'
    decreases |t|
  {
    if t[0] != '"' {
      var (_, rest) := UnquoteChar(t).value;
      UnquoteBodyCloses(rest);
      assert rest == t[|t| - |rest|..];
    }
  }

  /** A text without backslash, double quote or newline. */
  predicate PlainBody(b: string)
  {
    forall k :: 0 <= k < |b| ==> b[k] !in "\\\"\n"
  }

  /** A plain body between double quotes unquotes to its UTF-8 bytes. */
  lemma {:induction false} UnquotePlain(b: string)
    requires PlainBody(b)
    ensures Unquote("\"" + b + "\"") == Some(Utf8(b))
  {
    PlainBodyDecodes(b);
    assert ("\"" + b + "\"")[1..] == b + "\"";
  }

  lemma {:induction false} PlainBodyDecodes(b: string)
    requires PlainBody(b)
    ensures UnquoteBody(b + "\"") == Some(Utf8(b))
  {
    if b != [] {
      var t := b + "\"";
      assert t[0] == b[0] && t[1..] == b[1..] + "\"";
      assert b[0] !in "\\\"\n";
      PlainBodyDecodes(b[1..]);
    }
  }

  /** A raw newline inside the quotes makes the literal invalid. */
  lemma {:induction false} UnquoteRejectsNewline(b: string, c: string)
    requires PlainBody(b)
    ensures Unquote("\"" + b + "\n" + c) == None
  {
    assert ("\"" + b + "\n" + c)[1..] == b + ("\n" + c);
    NewlineStops(b, "\n" + c);
  }

  lemma {:induction false} NewlineStops(b: string, c: string)
    requires PlainBody(b) && c != [] && c[0] == '\n'
    ensures UnquoteBody(b + c) == None
  {
    if b != [] {
      assert (b + c)[0] == b[0] && (b + c)[1..] == b[1..] + c;
      assert b[0] !in "\\\"\n";
      NewlineStops(b[1..], c);
    } else {
      assert b + c == c;
    }
  }

  /** Text after the closing quote makes the literal invalid. */
  lemma {:induction false} UnquoteRejectsTrailing(b: string, tail: string)
    requires PlainBody(b) && tail != []
    ensures Unquote("\"" + b + "\"" + tail) == None
  {
    assert ("\"" + b + "\"" + tail)[1..] == b + ("\"" + tail);
    TrailingStops(b, "\"" + tail);
  }

  lemma {:induction false} TrailingStops(b: string, c: string)
    requires PlainBody(b) && |c| >= 2 && c[0] == '"'
    ensures UnquoteBody(b + c) == None
  {
    if b != [] {
      assert (b + c)[0] == b[0] && (b + c)[1..] == b[1..] + c;
      assert b[0] !in "\\\"\n";
      TrailingStops(b[1..], c);
    } else {
      assert b + c == c;
    }
  }

  /** The escapes the scanner accepts, as Unquote decodes them: each letter escape and
      `\\` and `\"` is one byte, while `\0` alone is a syntax error because an octal
      escape needs three digits. */
  lemma ScannerEscapes(e: char)
    requires e in "abfnrtv\\\""
    ensures Unquote(['"', '\\', e, '"']) == Some([SimpleEscape(e)])
    ensures Unquote(['"', '\\', '0', '"']) == None
  {
    var t := ['\\', e, '"'];
    assert ['"', '\\', e, '"'][1..] == t;
    assert t[2..] == ['"'];
    assert UnquoteChar(t) == Some(([SimpleEscape(e)], ['"']));
    assert UnquoteBody(['"']) == Some([]);
    assert UnquoteBody(t) == Some([SimpleEscape(e)] + []);
    assert [SimpleEscape(e)] + [] == [SimpleEscape(e)];
    assert Unquote(['"', '\\', e, '"']) == UnquoteBody(t);
    assert ['"', '\\', '0', '"'][1..] == ['\\', '0', '"'];
  }

  /** The hexadecimal digit for a value below 16. */
  function HexChar(d: nat): (c: char)
    requires d < 16
    ensures HexDigit(c) == d
  {
    if d < 10 then ('0' as int + d) as char else ('a' as int + d - 10) as char
  }

  /** Any byte string, written as `\xHH` escapes: the inverse of Unquote on all bytes,
      including those that are not UTF-8. */
  function HexEscaped(b: seq<Byte>): (s: string)
  {
    if b == [] then [] else ['\\', 'x', HexChar(b[0] / 16), HexChar(b[0] % 16)] + HexEscaped(b[1..])
  }

  /** Unquoting the hex-escaped form of any byte string gives the bytes back. */
  lemma {:induction false} UnquoteHexEscaped(b: seq<Byte>)
    ensures Unquote("\"" + HexEscaped(b) + "\"") == Some(b)
  {
    HexEscapedDecodes(b);
    assert ("\"" + HexEscaped(b) + "\"")[1..] == HexEscaped(b) + "\"";
  }

  lemma {:induction false} HexEscapedDecodes(b: seq<Byte>)
    ensures UnquoteBody(HexEscaped(b) + "\"") == Some(b)
  {
    if b != [] {
      var hi, lo := HexChar(b[0] / 16), HexChar(b[0] % 16);
      var t := HexEscaped(b) + "\"";
      var rest := HexEscaped(b[1..]) + "\"";
      assert t == ['\\', 'x', hi, lo] + rest;
      assert t[2..][..2] == [hi, lo];
      assert HexValue([hi, lo]) == Some(b[0]) by {
        assert [hi, lo][..1] == [hi];
        assert HexValue([hi]) == Some(b[0] / 16) by {
          assert [hi][..0] == [];
        }
      }
      assert t[2..][2..] == rest;
      assert UnquoteChar(t) == Some(([b[0]], rest));
      HexEscapedDecodes(b[1..]);
      assert [b[0]] + b[1..] == b;
    }
  }
}
