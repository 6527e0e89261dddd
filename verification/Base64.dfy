/** Unpadded base64url (sections 3.5 and 5 of RFC 4648), its lenient decoder, and the strict one over it. */
module Base64 {
  import opened Wrappers

  type Byte = n: int | 0 <= n < 256

  /** The text of a document is the bytes it is written in. */
  type Text = seq<Byte>

  type Sextet = n: int | 0 <= n < 64

  const CR: Byte := 13
  const LF: Byte := 10

  function Char(v: Sextet): Byte {
    if v < 26 then 65 + v
    else if v < 52 then 97 + v - 26
    else if v < 62 then 48 + v - 52
    else if v == 62 then 45 else 95
  }

  function Value(c: Byte): Option<Sextet> {
    if 65 <= c <= 90 then Some(c - 65)
    else if 97 <= c <= 122 then Some(c - 97 + 26)
    else if 48 <= c <= 57 then Some(c - 48 + 52)
    else if c == 45 then Some(62)
    else if c == 95 then Some(63)
    else None
  }

  // The four sextets of three bytes, and the three bytes of four sextets.
  function First(x: Byte): Sextet { x / 4 }
  function Second(x: Byte, y: Byte): Sextet { x % 4 * 16 + y / 16 }
  function Third(y: Byte, z: Byte): Sextet { y % 16 * 4 + z / 64 }
  function Fourth(z: Byte): Sextet { z % 64 }
  function High(a: Sextet, b: Sextet): Byte { a * 4 + b / 16 }
  function Middle(b: Sextet, c: Sextet): Byte { b % 16 * 16 + c / 4 }
  function Low(c: Sextet, d: Sextet): Byte { c % 4 * 64 + d }

  lemma SextetsHoldTheBytes(x: Byte, y: Byte, z: Byte)
    ensures High(First(x), Second(x, y)) == x
    ensures Middle(Second(x, y), Third(y, z)) == y
    ensures Low(Third(y, z), Fourth(z)) == z
  {
  }

  function Encode(b: seq<Byte>): Text {
    if |b| == 0 then []
    else if |b| == 1 then [Char(First(b[0])), Char(Second(b[0], 0))]
    else if |b| == 2 then [Char(First(b[0])), Char(Second(b[0], b[1])), Char(Third(b[1], 0))]
    else [Char(First(b[0])), Char(Second(b[0], b[1])), Char(Third(b[1], b[2])), Char(Fourth(b[2]))] + Encode(b[3..])
  }

  /** Go's decoder passes over line breaks wherever they stand. */
  function WithoutLineBreaks(t: Text): Text {
    if t == [] then []
    else if t[0] == CR || t[0] == LF then WithoutLineBreaks(t[1..])
    else [t[0]] + WithoutLineBreaks(t[1..])
  }

  /** Quanta of four characters, and a last one of two or three whose spare bits are not looked at. */
  function DecodeQuanta(t: Text): Option<seq<Byte>> {
    if |t| == 0 then Some([])
    else if |t| == 1 || Value(t[0]).None? || Value(t[1]).None? then None
    else
      var a, b := Value(t[0]).value, Value(t[1]).value;
      if |t| == 2 then Some([High(a, b)])
      else if Value(t[2]).None? then None
      else
        var c := Value(t[2]).value;
        if |t| == 3 then Some([High(a, b), Middle(b, c)])
        else if Value(t[3]).None? then None
        else
          var rest := DecodeQuanta(t[4..]);
          if rest.None? then None
          else Some([High(a, b), Middle(b, c), Low(c, Value(t[3]).value)] + rest.value)
  }

  function Decode(t: Text): Option<seq<Byte>> { DecodeQuanta(WithoutLineBreaks(t)) }

  /** decodeRawURL: the expected length, and no other spelling of the same bytes. */
  function DecodeRawURL(t: Text, expected: nat): Option<seq<Byte>> {
    var decoded := Decode(t);
    if decoded.None? || |decoded.value| != expected || Encode(decoded.value) != t then None else decoded
  }

  lemma CharsHaveValues(v: Sextet)
    ensures Value(Char(v)) == Some(v) && Char(v) != CR && Char(v) != LF
  {
  }

  lemma {:induction false} NothingToPassOver(t: Text)
    requires CR !in t && LF !in t
    ensures WithoutLineBreaks(t) == t
  {
    if t != [] {
      NothingToPassOver(t[1..]);
    }
  }

  lemma {:induction false} EncodedHasNoLineBreak(b: seq<Byte>)
    ensures CR !in Encode(b) && LF !in Encode(b)
  {
    if |b| >= 3 {
      EncodedHasNoLineBreak(b[3..]);
    }
  }

  lemma QuantumRead(a: Sextet, b: Sextet, c: Sextet, d: Sextet, rest: Text)
    requires DecodeQuanta(rest).Some?
    ensures DecodeQuanta([Char(a), Char(b), Char(c), Char(d)] + rest) == Some([High(a, b), Middle(b, c), Low(c, d)] + DecodeQuanta(rest).value)
  {
    CharsHaveValues(a);
    CharsHaveValues(b);
    CharsHaveValues(c);
    CharsHaveValues(d);
    var t := [Char(a), Char(b), Char(c), Char(d)] + rest;
    assert t[4..] == rest;
  }

  lemma PairRead(a: Sextet, b: Sextet)
    ensures DecodeQuanta([Char(a), Char(b)]) == Some([High(a, b)])
  {
    CharsHaveValues(a);
    CharsHaveValues(b);
  }

  lemma TripleRead(a: Sextet, b: Sextet, c: Sextet)
    ensures DecodeQuanta([Char(a), Char(b), Char(c)]) == Some([High(a, b), Middle(b, c)])
  {
    CharsHaveValues(a);
    CharsHaveValues(b);
    CharsHaveValues(c);
  }

  lemma OneByteLeft(x: Byte)
    ensures DecodeQuanta(Encode([x])) == Some([x])
  {
    SextetsHoldTheBytes(x, 0, 0);
    PairRead(First(x), Second(x, 0));
  }

  lemma TwoBytesLeft(x: Byte, y: Byte)
    ensures DecodeQuanta(Encode([x, y])) == Some([x, y])
  {
    SextetsHoldTheBytes(x, y, 0);
    TripleRead(First(x), Second(x, y), Third(y, 0));
  }

  lemma {:induction false} QuantaOfEncoded(b: seq<Byte>)
    ensures DecodeQuanta(Encode(b)) == Some(b)
  {
    if |b| >= 3 {
      QuantaOfEncoded(b[3..]);
      SextetsHoldTheBytes(b[0], b[1], b[2]);
      QuantumRead(First(b[0]), Second(b[0], b[1]), Third(b[1], b[2]), Fourth(b[2]), Encode(b[3..]));
      assert b == [b[0], b[1], b[2]] + b[3..];
    } else if |b| == 2 {
      TwoBytesLeft(b[0], b[1]);
      assert b == [b[0], b[1]];
    } else if |b| == 1 {
      OneByteLeft(b[0]);
      assert b == [b[0]];
    }
  }

  /** What is encoded is decoded back. */
  lemma DecodeEncoded(b: seq<Byte>)
    ensures Decode(Encode(b)) == Some(b)
  {
    EncodedHasNoLineBreak(b);
    NothingToPassOver(Encode(b));
    QuantaOfEncoded(b);
  }

  /** Exactly one text is accepted for each byte string of the expected length. */
  lemma OneSpellingPerByteString(t: Text, expected: nat, b: seq<Byte>)
    ensures DecodeRawURL(t, expected) == Some(b) <==> |b| == expected && t == Encode(b)
  {
    DecodeEncoded(b);
  }

  /** The lenient decoder alone accepts spare bits that are set; checking the spelling refuses them. */
  lemma SpareBitsAreRefused(x: Byte, last: Sextet)
    requires last / 16 == Second(x, 0) / 16 && last != Second(x, 0)
    ensures Decode([Char(First(x)), Char(last)]) == Some([x]) && DecodeRawURL([Char(First(x)), Char(last)], 1) == None
  {
    var t := [Char(First(x)), Char(last)];
    CharsHaveValues(First(x));
    CharsHaveValues(last);
    CharsHaveValues(Second(x, 0));
    NothingToPassOver(t);
    PairRead(First(x), last);
    assert High(First(x), last) == x;
    assert Encode([x])[1] == Char(Second(x, 0));
  }

  /** It also accepts a line break before, after or inside any text; the spelling refuses that too. */
  lemma LineBreaksAreRefused(b: seq<Byte>)
    ensures Decode([LF] + Encode(b)) == Some(b) && DecodeRawURL([LF] + Encode(b), |b|) == None
  {
    assert ([LF] + Encode(b))[1..] == Encode(b);
    DecodeEncoded(b);
    assert |[LF] + Encode(b)| != |Encode(b)|;
  }
}
