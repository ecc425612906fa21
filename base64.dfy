/** The Base64 encoding of section 4 of RFC 4648 (standard alphabet, '='
    padding), as QByteArray::toBase64 produces it by default, with the
    matching decoder to state that the encoding loses nothing. */
module Base64 {
  import opened Wrappers

  type byte = x: int | 0 <= x < 256


  /** The symbol for a 6-bit value: A-Z, a-z, 0-9, '+', '/'. */
  function Symbol(v: int): (c: char)
    requires 0 <= v < 64
  {
    if v < 26 then ('A' as int + v) as char
    else if v < 52 then ('a' as int + (v - 26)) as char
    else if v < 62 then ('0' as int + (v - 52)) as char
    else if v == 62 then '+'
    else '/'
  }

  predicate IsSymbol(c: char) {
    ('A' <= c <= 'Z') || ('a' <= c <= 'z') || ('0' <= c <= '9') || c == '+' || c == '/'
  }

  /** The 6-bit value of a symbol. */
  function ValueOf(c: char): (v: int)
    requires IsSymbol(c)
    ensures 0 <= v < 64 && Symbol(v) == c
  {
    if 'A' <= c <= 'Z' then c as int - 'A' as int
    else if 'a' <= c <= 'z' then c as int - 'a' as int + 26
    else if '0' <= c <= '9' then c as int - '0' as int + 52
    else if c == '+' then 62
    else 63
  }

  lemma SymbolIsSymbol(v: int)
    requires 0 <= v < 64
    ensures IsSymbol(Symbol(v)) && ValueOf(Symbol(v)) == v
  {
  }

  /** Three bytes give four symbols. */
  function EncodeBlock(a: byte, b: byte, c: byte): string {
    [Symbol(a / 4), Symbol((a % 4) * 16 + b / 16), Symbol((b % 16) * 4 + c / 64), Symbol(c % 64)]
  }

  function Encode(data: seq<byte>): (s: string)
    decreases |data|
  {
    if |data| >= 3 then EncodeBlock(data[0], data[1], data[2]) + Encode(data[3..])
    else if |data| == 2 then EncodePair(data[0], data[1])
    else if |data| == 1 then EncodeSingle(data[0])
    else ""
  }

  /** A final group of two bytes: three symbols and one '='. */
  function EncodePair(a: byte, b: byte): string {
    [Symbol(a / 4), Symbol((a % 4) * 16 + b / 16), Symbol((b % 16) * 4), '=']
  }

  /** A final single byte: two symbols and two '='. */
  function EncodeSingle(a: byte): string {
    [Symbol(a / 4), Symbol((a % 4) * 16), '=', '=']
  }

  /** Decodes one group of four symbols, the last of which may be padding. */
  function DecodeBlock(s: string, last: bool): Option<seq<byte>>
    requires |s| == 4
  {
    if !IsSymbol(s[0]) || !IsSymbol(s[1]) then None
    else
      var v0, v1 := ValueOf(s[0]), ValueOf(s[1]);
      if last && s[2] == '=' && s[3] == '=' then
        if v1 % 16 == 0 then Some([v0 * 4 + v1 / 16]) else None
      else if !IsSymbol(s[2]) then None
      else
        var v2 := ValueOf(s[2]);
        if last && s[3] == '=' then
          if v2 % 4 == 0 then Some([v0 * 4 + v1 / 16, (v1 % 16) * 16 + v2 / 4]) else None
        else if !IsSymbol(s[3]) then None
        else
          var v3 := ValueOf(s[3]);
          Some([v0 * 4 + v1 / 16, (v1 % 16) * 16 + v2 / 4, (v2 % 4) * 64 + v3])
  }

  /** The inverse of Encode: None for text that is not canonical Base64. */
  function Decode(s: string): Option<seq<byte>>
    decreases |s|
  {
    if s == "" then Some([])
    else if |s| < 4 then None
    else
      match DecodeBlock(s[..4], |s| == 4)
      case None => None
      case Some(head) =>
        if |s| > 4 && |head| < 3 then None
        else
          match Decode(s[4..])
          case None => None
          case Some(tail) => Some(head + tail)
  }

  /** A character of Base64 text: a symbol of the alphabet or '=' padding. */
  predicate IsBase64Char(c: char) {
    IsSymbol(c) || c == '='
  }

  predicate AllBase64(s: string) {
    forall k :: 0 <= k < |s| ==> IsBase64Char(s[k])
  }

  /** Encoding yields four symbols per started group of three bytes, each a
      symbol of the alphabet or '=' padding; none needs escaping in a JSON
      string and none is a line break. */
  lemma EncodeShape(data: seq<byte>)
    ensures |Encode(data)| == 4 * ((|data| + 2) / 3)
    ensures forall k :: 0 <= k < |Encode(data)| ==> IsSymbol(Encode(data)[k]) || Encode(data)[k] == '='
    ensures forall k :: 0 <= k < |Encode(data)| ==> Encode(data)[k] !in {'"', '\\', '\n'}
  {
    EncodeAllBase64(data);
    var e := Encode(data);
    assert forall k :: 0 <= k < |e| ==> IsBase64Char(e[k]);
  }

  lemma {:induction false} EncodeAllBase64(data: seq<byte>)
    ensures |Encode(data)| == 4 * ((|data| + 2) / 3)
    ensures AllBase64(Encode(data))
    decreases |data|
  {
    if |data| >= 3 {
      EncodeCons(data);
      EncodeAllBase64(data[3..]);
      BlockAllBase64(data[0], data[1], data[2]);
      ConcatAllBase64(EncodeBlock(data[0], data[1], data[2]), Encode(data[3..]));
    } else if |data| == 2 {
      PairAllBase64(data[0], data[1]);
    } else if |data| == 1 {
      SingleAllBase64(data[0]);
    }
  }

  lemma ConcatAllBase64(x: string, y: string)
    requires AllBase64(x) && AllBase64(y)
    ensures AllBase64(x + y)
  {
    forall k | 0 <= k < |x + y| ensures IsBase64Char((x + y)[k]) {
      if k < |x| { assert (x + y)[k] == x[k]; } else { assert (x + y)[k] == y[k - |x|]; }
    }
  }

  lemma BlockAllBase64(a: byte, b: byte, c: byte)
    ensures |EncodeBlock(a, b, c)| == 4 && AllBase64(EncodeBlock(a, b, c))
  {
    SymbolIsSymbol(a / 4);
    SymbolIsSymbol((a % 4) * 16 + b / 16);
    SymbolIsSymbol((b % 16) * 4 + c / 64);
    SymbolIsSymbol(c % 64);
  }

  lemma PairAllBase64(a: byte, b: byte)
    ensures |EncodePair(a, b)| == 4 && AllBase64(EncodePair(a, b))
  {
    SymbolIsSymbol(a / 4);
    SymbolIsSymbol((a % 4) * 16 + b / 16);
    SymbolIsSymbol((b % 16) * 4);
  }

  lemma SingleAllBase64(a: byte)
    ensures |EncodeSingle(a)| == 4 && AllBase64(EncodeSingle(a))
  {
    SymbolIsSymbol(a / 4);
    SymbolIsSymbol((a % 4) * 16);
  }

  lemma DecodeEncodeBlock(a: byte, b: byte, c: byte, last: bool)
    ensures DecodeBlock(EncodeBlock(a, b, c), last) == Some([a, b, c])
  {
    var v0, v1, v2, v3 := a / 4, (a % 4) * 16 + b / 16, (b % 16) * 4 + c / 64, c % 64;
    SymbolIsSymbol(v0);
    SymbolIsSymbol(v1);
    SymbolIsSymbol(v2);
    SymbolIsSymbol(v3);
    var s := EncodeBlock(a, b, c);
    assert s == [Symbol(v0), Symbol(v1), Symbol(v2), Symbol(v3)];
    assert ValueOf(s[0]) == v0 && ValueOf(s[1]) == v1 && ValueOf(s[2]) == v2 && ValueOf(s[3]) == v3;
    BlockArithmetic(a, b, c);
  }

  /** The bit regrouping of a block undone: the three bytes come back. */
  lemma BlockArithmetic(a: byte, b: byte, c: byte)
    ensures var v0, v1, v2, v3 := a / 4, (a % 4) * 16 + b / 16, (b % 16) * 4 + c / 64, c % 64;
      v0 * 4 + v1 / 16 == a && (v1 % 16) * 16 + v2 / 4 == b && (v2 % 4) * 64 + v3 == c
  {
    var v1, v2 := (a % 4) * 16 + b / 16, (b % 16) * 4 + c / 64;
    assert v1 / 16 == a % 4 && v1 % 16 == b / 16;
    assert v2 / 4 == b % 16 && v2 % 4 == c / 64;
    assert (a / 4) * 4 + a % 4 == a;
    assert (b / 16) * 16 + b % 16 == b;
    assert (c / 64) * 64 + c % 64 == c;
  }

  /** Decoding what was encoded gives the bytes back. */
  lemma {:induction false} DecodeEncode(data: seq<byte>)
    ensures Decode(Encode(data)) == Some(data)
    decreases |data|
  {
    if |data| >= 3 {
      DecodeEncode(data[3..]);
      DecodeEncodeFull(data);
    } else if |data| == 2 {
      DecodeEncodeTwo(data);
    } else if |data| == 1 {
      DecodeEncodeOne(data);
    }
  }

  /** A full first group followed by an encoding that decodes. */
  lemma DecodeEncodeFull(data: seq<byte>)
    requires |data| >= 3 && Decode(Encode(data[3..])) == Some(data[3..])
    ensures Decode(Encode(data)) == Some(data)
  {
    EncodeCons(data);
    DecodeFirstGroup(data, Encode(data[3..]));
  }

  lemma DecodeFirstGroup(data: seq<byte>, e: string)
    requires |data| >= 3 && Decode(e) == Some(data[3..])
    ensures Decode(EncodeBlock(data[0], data[1], data[2]) + e) == Some(data)
  {
    var a, b, c, rest := data[0], data[1], data[2], data[3..];
    DecodeBlockThen(a, b, c, e, rest);
    assert data == [a, b, c] + rest;
  }

  lemma EncodeCons(data: seq<byte>)
    requires |data| >= 3
    ensures Encode(data) == EncodeBlock(data[0], data[1], data[2]) + Encode(data[3..])
  {
  }

  lemma DecodeBlockThen(a: byte, b: byte, c: byte, e: string, rest: seq<byte>)
    requires Decode(e) == Some(rest)
    ensures Decode(EncodeBlock(a, b, c) + e) == Some([a, b, c] + rest)
  {
    var s := EncodeBlock(a, b, c) + e;
    SplitAfter(EncodeBlock(a, b, c), e);
    DecodeEncodeBlock(a, b, c, |s| == 4);
    DecodeStep(s, [a, b, c], rest);
  }

  lemma DecodeEncodeTwo(data: seq<byte>)
    requires |data| == 2
    ensures Decode(Encode(data)) == Some(data)
  {
    var a, b := data[0], data[1];
    assert Encode(data) == EncodePair(a, b);
    DecodePair(a, b);
    assert data == [a, b];
  }

  lemma DecodePair(a: byte, b: byte)
    ensures Decode(EncodePair(a, b)) == Some([a, b])
  {
    var s := EncodePair(a, b);
    DecodeEncodePair(a, b);
    SplitAfter(s, "");
    DecodeStep(s, [a, b], []);
    assert [a, b] + [] == [a, b];
  }

  lemma DecodeEncodeOne(data: seq<byte>)
    requires |data| == 1
    ensures Decode(Encode(data)) == Some(data)
  {
    var a := data[0];
    assert Encode(data) == EncodeSingle(a);
    DecodeSingle(a);
    assert data == [a];
  }

  lemma DecodeSingle(a: byte)
    ensures Decode(EncodeSingle(a)) == Some([a])
  {
    var s := EncodeSingle(a);
    DecodeEncodeSingle(a);
    SplitAfter(s, "");
    DecodeStep(s, [a], []);
    assert [a] + [] == [a];
  }

  lemma SplitAfter(x: string, y: string)
    requires |x| == 4
    ensures |x + y| >= 4 && (x + y)[..4] == x && (x + y)[4..] == y && (|x + y| == 4 <==> y == "")
  {
  }

  /** One step of Decode: a decoded first group followed by the decoded rest. */
  lemma DecodeStep(s: string, head: seq<byte>, tail: seq<byte>)
    requires |s| >= 4 && DecodeBlock(s[..4], |s| == 4) == Some(head)
    requires |s| == 4 || |head| == 3
    requires Decode(s[4..]) == Some(tail)
    ensures Decode(s) == Some(head + tail)
  {
  }

  lemma DecodeEncodeSingle(a: byte)
    ensures DecodeBlock(EncodeSingle(a), true) == Some([a])
  {
    SymbolIsSymbol(a / 4);
    SymbolIsSymbol((a % 4) * 16);
    assert ((a % 4) * 16) / 16 == a % 4 && ((a % 4) * 16) % 16 == 0;
    assert (a / 4) * 4 + a % 4 == a;
  }

  lemma DecodeEncodePair(a: byte, b: byte)
    ensures DecodeBlock(EncodePair(a, b), true) == Some([a, b])
  {
    var v1, v2 := (a % 4) * 16 + b / 16, (b % 16) * 4;
    SymbolIsSymbol(a / 4);
    SymbolIsSymbol(v1);
    SymbolIsSymbol(v2);
    assert v1 / 16 == a % 4 && v1 % 16 == b / 16;
    assert v2 / 4 == b % 16 && v2 % 4 == 0;
    assert (a / 4) * 4 + a % 4 == a;
    assert (b / 16) * 16 + b % 16 == b;
  }

  /** Distinct byte strings have distinct encodings. */
  lemma EncodeInjective(x: seq<byte>, y: seq<byte>)
    requires Encode(x) == Encode(y)
    ensures x == y
  {
    DecodeEncode(x);
    DecodeEncode(y);
  }
}
