/** Unpadded base32: section 6 of RFC 4648, with the padding omitted as section 3.2 allows. */
module Base32 {
  import opened Basics

  function Power2(w: nat): nat
  {
    if w == 0 then 1 else 2 * Power2(w - 1)
  }

  // The w low bits of n, most significant first.
  function Bits(n: nat, w: nat): (bits: seq<bool>)
    ensures |bits| == w
  {
    if w == 0 then [] else Bits(n / 2, w - 1) + [n % 2 == 1]
  }

  function Value(bits: seq<bool>): nat
  {
    if bits == [] then 0 else 2 * Value(bits[..|bits| - 1]) + if bits[|bits| - 1] then 1 else 0
  }

  lemma {:induction false} ValueOfBits(n: nat, w: nat)
    requires n < Power2(w)
    ensures Value(Bits(n, w)) == n
  {
    if w > 0 {
      ValueOfBits(n / 2, w - 1);
      assert Bits(n, w)[..w - 1] == Bits(n / 2, w - 1);
    }
  }

  lemma {:induction false} BitsOfValue(bits: seq<bool>)
    ensures Value(bits) < Power2(|bits|)
    ensures Bits(Value(bits), |bits|) == bits
  {
    if bits != [] {
      BitsOfValue(bits[..|bits| - 1]);
    }
  }

  function Symbol(v: nat): (c: char)
    requires v < 32
  {
    if v < 26 then ('A' as int + v) as char else ('2' as int + v - 26) as char
  }

  function SymbolValue(c: char): (v: nat)
    ensures v < 32
  {
    if 'A' <= c <= 'Z' then c as int - 'A' as int
    else if '2' <= c <= '7' then c as int - '2' as int + 26
    else 0
  }

  // The input as one stream of bits.
  function Stream(bytes: seq<byte>): (bits: seq<bool>)
    ensures |bits| == 8 * |bytes|
  {
    if bytes == [] then [] else Bits(bytes[0], 8) + Stream(bytes[1..])
  }

  function Zeros(n: nat): (bits: seq<bool>)
    ensures |bits| == n
  {
    seq(n, _ => false)
  }

  // Groups of five bits, the last one filled up with zeros.
  function Symbols(bits: seq<bool>): string
    decreases |bits|
  {
    if bits == [] then ""
    else if |bits| < 5 then [SymbolOf(bits + Zeros(5 - |bits|))]
    else [SymbolOf(bits[..5])] + Symbols(bits[5..])
  }

  function SymbolOf(group: seq<bool>): (c: char)
    requires |group| == 5
    ensures Bits(SymbolValue(c), 5) == group
  {
    BitsOfValue(group);
    assert Power2(5) == 32 by { assert Power2(4) == 16 by { assert Power2(3) == 8; } }
    Symbol(Value(group))
  }

  function Encode(bytes: seq<byte>): string
  {
    Symbols(Stream(bytes))
  }

  function Unsymbols(text: string): seq<bool>
  {
    if text == "" then [] else Bits(SymbolValue(text[0]), 5) + Unsymbols(text[1..])
  }

  function Bytes(bits: seq<bool>): seq<byte>
    decreases |bits|
  {
    if |bits| < 8 then [] else [ByteOf(bits[..8])] + Bytes(bits[8..])
  }

  function ByteOf(group: seq<bool>): byte
    requires |group| == 8
  {
    BitsOfValue(group);
    Power2Of8();
    Value(group)
  }

  lemma Power2Of8()
    ensures Power2(8) == 256
  {
    assert Power2(6) == 64 by { assert Power2(4) == 16 by { assert Power2(2) == 4; } }
  }

  function Decode(text: string): seq<byte>
  {
    Bytes(Unsymbols(text))
  }

  lemma {:induction false} UnsymbolsOfSymbols(bits: seq<bool>)
    ensures exists pad: nat :: pad < 5 && Unsymbols(Symbols(bits)) == bits + Zeros(pad)
    decreases |bits|
  {
    if bits == [] {
      assert Unsymbols(Symbols(bits)) == bits + Zeros(0);
    } else if |bits| < 5 {
      var pad := 5 - |bits|;
      var text := Symbols(bits);
      assert text[1..] == "";
      assert Unsymbols(text) == bits + Zeros(pad);
    } else {
      UnsymbolsOfSymbols(bits[5..]);
      var pad: nat :| pad < 5 && Unsymbols(Symbols(bits[5..])) == bits[5..] + Zeros(pad);
      var text := Symbols(bits);
      assert text[1..] == Symbols(bits[5..]);
      assert Unsymbols(text) == bits[..5] + (bits[5..] + Zeros(pad));
      assert bits[..5] + (bits[5..] + Zeros(pad)) == bits + Zeros(pad);
    }
  }

  lemma {:induction false} BytesOfStream(bytes: seq<byte>, pad: nat)
    requires pad < 8
    ensures Bytes(Stream(bytes) + Zeros(pad)) == bytes
  {
    var bits := Stream(bytes) + Zeros(pad);
    if bytes != [] {
      BytesOfStream(bytes[1..], pad);
      assert bits[..8] == Bits(bytes[0], 8);
      assert bits[8..] == Stream(bytes[1..]) + Zeros(pad);
      Power2Of8();
      ValueOfBits(bytes[0], 8);
    }
  }

  /** Decoding undoes encoding, on byte strings of every length. */
  lemma RoundTrip(bytes: seq<byte>)
    ensures Decode(Encode(bytes)) == bytes
  {
    UnsymbolsOfSymbols(Stream(bytes));
    var pad: nat :| pad < 5 && Unsymbols(Encode(bytes)) == Stream(bytes) + Zeros(pad);
    BytesOfStream(bytes, pad);
  }

  lemma Injective(a: seq<byte>, b: seq<byte>)
    requires Encode(a) == Encode(b)
    ensures a == b
  {
    RoundTrip(a);
    RoundTrip(b);
  }
}
