/** Canonical base64 (section 4 of RFC 4648), with the padding bits of section 3.5 checked. */
module Base64 {
  import opened Basics

  function Symbol(n: nat): (c: char)
    requires n < 64
    ensures Index(c) == Some(n)
  {
    if n < 26 then 'A' + n as char
    else if n < 52 then 'a' + (n - 26) as char
    else if n < 62 then '0' + (n - 52) as char
    else if n == 62 then '+'
    else '/'
  }

  function Index(c: char): (n: Option<nat>)
    ensures n.Some? ==> n.value < 64
  {
    if 'A' <= c <= 'Z' then Some((c - 'A') as nat)
    else if 'a' <= c <= 'z' then Some((c - 'a') as nat + 26)
    else if '0' <= c <= '9' then Some((c - '0') as nat + 52)
    else if c == '+' then Some(62)
    else if c == '/' then Some(63)
    else None
  }

  lemma SymbolOfIndex(c: char)
    requires Index(c).Some?
    ensures Symbol(Index(c).value) == c
  {}

  predicate IsSymbol(c: char) {
    Index(c).Some?
  }

  function Code(c: char): (n: nat)
    requires IsSymbol(c)
    ensures n < 64 && Symbol(n) == c
  {
    SymbolOfIndex(c);
    Index(c).value
  }

  type Codes = c: seq<nat> | 2 <= |c| <= 4 && forall i :: 0 <= i < |c| ==> c[i] < 64 witness [0, 0]

  /** The 6-bit codes of up to three bytes, missing bits zero. */
  function ToCodes(b: seq<Byte>): (codes: Codes)
    requires 1 <= |b| <= 3
    ensures |codes| == |b| + 1
  {
    var x: int := b[0] as int;
    if |b| == 1 then [x / 4, x % 4 * 16]
    else
      var y: int := b[1] as int;
      if |b| == 2 then [x / 4, x % 4 * 16 + y / 16, y % 16 * 4]
      else
        var z: int := b[2] as int;
        [x / 4, x % 4 * 16 + y / 16, y % 16 * 4 + z / 64, z % 64]
  }

  /** The bytes that up to four codes stand for, unused bits ignored. */
  function FromCodes(codes: Codes): (b: seq<Byte>)
    ensures |b| == |codes| - 1
  {
    var first: Byte := codes[0] * 4 + codes[1] / 16;
    if |codes| == 2 then [first]
    else
      var second: Byte := codes[1] % 16 * 16 + codes[2] / 4;
      if |codes| == 3 then [first, second]
      else [first, second, codes[2] % 4 * 64 + codes[3]]
  }

  lemma FromToCodes(b: seq<Byte>)
    requires 1 <= |b| <= 3
    ensures FromCodes(ToCodes(b)) == b
  {}

  predicate UnusedZero(codes: Codes) {
    (|codes| == 2 ==> codes[1] % 16 == 0) && (|codes| == 3 ==> codes[2] % 4 == 0)
  }

  lemma Halves(a: nat, b: nat)
    requires a < 64 && b < 64
    ensures (a * 4 + b / 16) / 4 == a && (a * 4 + b / 16) % 4 == b / 16
    ensures (a % 16 * 16 + b / 4) / 16 == a % 16 && (a % 16 * 16 + b / 4) % 16 == b / 4
    ensures (a % 4 * 64 + b) / 64 == a % 4 && (a % 4 * 64 + b) % 64 == b
    ensures b / 16 * 16 + b % 16 == b && b / 4 * 4 + b % 4 == b
  {}

  lemma ToFromCodes(codes: Codes)
    ensures ToCodes(FromCodes(codes)) == codes <==> UnusedZero(codes)
  {
    var again := ToCodes(FromCodes(codes));
    Halves(codes[0], codes[1]);
    assert again[0] == codes[0];
    if |codes| == 2 {
      assert again[1] == codes[1] / 16 * 16;
    } else {
      Halves(codes[1], codes[2]);
      assert again[1] == codes[1];
      if |codes| == 3 {
        assert again[2] == codes[2] / 4 * 4;
      } else {
        Halves(codes[2], codes[3]);
      }
    }
  }

  /** One group of text: the symbols of the codes, padded to four. */
  function Group(codes: Codes): (q: string)
    ensures |q| == 4
  {
    if |codes| == 2 then [Symbol(codes[0]), Symbol(codes[1]), '=', '=']
    else if |codes| == 3 then [Symbol(codes[0]), Symbol(codes[1]), Symbol(codes[2]), '=']
    else [Symbol(codes[0]), Symbol(codes[1]), Symbol(codes[2]), Symbol(codes[3])]
  }

  function Quad(b: seq<Byte>): (q: string)
    requires 1 <= |b| <= 3
    ensures |q| == 4
  {
    Group(ToCodes(b))
  }

  function Encode(bytes: seq<Byte>): (text: string)
    ensures |text| == 4 * ((|bytes| + 2) / 3)
  {
    if bytes == [] then ""
    else if |bytes| <= 3 then Quad(bytes)
    else
      assert (|bytes| + 2) / 3 == 1 + (|bytes| - 3 + 2) / 3;
      Quad(bytes[..3]) + Encode(bytes[3..])
  }

  predicate Full(q: string) {
    |q| == 4 && IsSymbol(q[0]) && IsSymbol(q[1]) && IsSymbol(q[2]) && IsSymbol(q[3])
  }

  predicate Padded(q: string) {
    |q| == 4 && IsSymbol(q[0]) && IsSymbol(q[1]) && q[3] == '=' && (IsSymbol(q[2]) || q[2] == '=')
  }

  /** Groups of four symbols, the last one possibly padded. */
  predicate Syntax(text: string) {
    text == "" || (|text| >= 4 && ((Full(text[..4]) && Syntax(text[4..])) || (|text| == 4 && Padded(text))))
  }

  /** The codes of one group. */
  function Ungroup(q: string): (codes: Codes)
    requires Full(q) || Padded(q)
  {
    if Full(q) then [Code(q[0]), Code(q[1]), Code(q[2]), Code(q[3])]
    else if q[2] == '=' then [Code(q[0]), Code(q[1])]
    else [Code(q[0]), Code(q[1]), Code(q[2])]
  }

  lemma GroupUngroup(q: string)
    requires Full(q) || Padded(q)
    ensures Group(Ungroup(q)) == q
  {}

  lemma UngroupGroup(codes: Codes)
    ensures (|codes| == 4 ==> Full(Group(codes))) && (|codes| < 4 ==> Padded(Group(codes)) && !Full(Group(codes)))
    ensures Ungroup(Group(codes)) == codes
  {
    assert !IsSymbol('=');
    var q := Group(codes);
    assert Code(q[0]) == codes[0] && Code(q[1]) == codes[1];
    if |codes| > 2 { assert Code(q[2]) == codes[2]; }
    if |codes| > 3 { assert Code(q[3]) == codes[3]; }
  }

  /** The bytes one group stands for. */
  function Unquad(q: string): (b: seq<Byte>)
    requires Full(q) || Padded(q)
    ensures |b| == if Full(q) then 3 else if q[2] == '=' then 1 else 2
  {
    FromCodes(Ungroup(q))
  }

  /** Permissive decoding of well-formed text. */
  function Decode(text: string): seq<Byte>
    requires Syntax(text)
  {
    if text == "" then []
    else if Full(text[..4]) && Syntax(text[4..]) then Unquad(text[..4]) + Decode(text[4..])
    else Unquad(text)
  }

  /** Decoding that demands the unique representation. */
  function DecodeBytes(text: string): Result<seq<Byte>> {
    if !Syntax(text) then Err("base64 syntax")
    else if Encode(Decode(text)) != text then Err("canonical base64")
    else Ok(Decode(text))
  }

  lemma QuadInverts(b: seq<Byte>)
    requires 1 <= |b| <= 3
    ensures (|b| == 3 ==> Full(Quad(b))) && (|b| < 3 ==> Padded(Quad(b)) && !Full(Quad(b)))
    ensures Unquad(Quad(b)) == b
  {
    UngroupGroup(ToCodes(b));
    FromToCodes(b);
  }

  lemma {:induction false} DecodeEncode(bytes: seq<Byte>)
    ensures Syntax(Encode(bytes)) && Decode(Encode(bytes)) == bytes
  {
    if bytes != [] {
      var text := Encode(bytes);
      if |bytes| <= 3 {
        QuadInverts(bytes);
        assert text[..4] == text && text[4..] == "";
      } else {
        QuadInverts(bytes[..3]);
        DecodeEncode(bytes[3..]);
        assert text[..4] == Quad(bytes[..3]) && text[4..] == Encode(bytes[3..]);
        assert bytes == bytes[..3] + bytes[3..];
      }
    }
  }

  /** Decoding accepts exactly the encodings, each as the bytes it encodes. */
  lemma DecodeExactly(text: string, bytes: seq<Byte>)
    ensures DecodeBytes(text) == Ok(bytes) <==> text == Encode(bytes)
  {
    DecodeEncode(bytes);
  }

  /** The bits a padded group leaves unused are zero. */
  predicate UnusedBitsZero(q: string)
    requires Full(q) || Padded(q)
  {
    UnusedZero(Ungroup(q))
  }

  lemma QuadOfUnquad(q: string)
    requires Full(q) || Padded(q)
    ensures Quad(Unquad(q)) == q <==> UnusedBitsZero(q)
  {
    var codes := Ungroup(q);
    GroupUngroup(q);
    ToFromCodes(codes);
    if Quad(Unquad(q)) == q {
      UngroupGroup(ToCodes(FromCodes(codes)));
    }
  }

  lemma FullQuad(q: string)
    requires Full(q)
    ensures Quad(Unquad(q)) == q
  {
    QuadOfUnquad(q);
  }

  lemma LastGroup(text: string)
    requires |text| == 4 && Syntax(text)
    ensures (Full(text) || Padded(text)) && Decode(text) == Unquad(text)
  {
    assert text[..4] == text && text[4..] == "";
    if Full(text) { assert Unquad(text) + [] == Unquad(text); }
  }

  lemma LongerThanOne(text: string)
    requires |text| != 4 && Syntax(text) && text != ""
    ensures |text| > 4 && Full(text[..4]) && Syntax(text[4..]) && Decode(text) == Unquad(text[..4]) + Decode(text[4..])
  {}

  lemma {:induction false} DecodeNonEmpty(text: string)
    requires Syntax(text) && text != ""
    ensures Decode(text) != []
  {
    if |text| == 4 { LastGroup(text); } else { LongerThanOne(text); }
  }

  lemma EncodeAppend(front: seq<Byte>, rest: seq<Byte>)
    requires |front| == 3 && rest != []
    ensures Encode(front + rest) == Quad(front) + Encode(rest)
  {
    assert (front + rest)[..3] == front && (front + rest)[3..] == rest;
  }

  lemma SameTail(front: string, a: string, b: string)
    ensures front + a == front + b <==> a == b
  {
    if front + a == front + b {
      assert a == (front + a)[|front|..] == (front + b)[|front|..] == b;
    }
  }

  /** Well-formed text is refused exactly when its last group has unused bits set. */
  lemma {:induction false} CanonicalExactly(text: string)
    requires Syntax(text) && text != ""
    ensures |text| >= 4 && (Full(text[|text| - 4..]) || Padded(text[|text| - 4..]))
    ensures DecodeBytes(text).Ok? <==> UnusedBitsZero(text[|text| - 4..])
    decreases |text|
  {
    hide Full, Padded, UnusedBitsZero;
    if |text| == 4 {
      LastGroup(text);
      assert text[0..] == text;
      QuadOfUnquad(text);
      assert Encode(Decode(text)) == Quad(Unquad(text));
    } else {
      var front, rest := text[..4], text[4..];
      LongerThanOne(text);
      CanonicalExactly(rest);
      assert text[|text| - 4..] == rest[|rest| - 4..];
      FullQuad(front);
      DecodeNonEmpty(rest);
      EncodeAppend(Unquad(front), Decode(rest));
      assert text == front + rest;
      SameTail(front, Encode(Decode(rest)), rest);
    }
  }
}
