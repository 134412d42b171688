// Characters as the YAML emitter and scanner see them: bytes of UTF-8, tested in
// place, and the Unicode scalar values they stand for.

module YamlChars {
  type byte = i: int | 0 <= i < 256

  type Bytes = seq<byte>

  // Unicode scalar values: surrogates are left out.
  type Scalar = v: int | 0 <= v < 0xD800 || 0xE000 <= v <= 0x10FFFF

  // The input buffer is padded with zeros past its end.
  function At(b: Bytes, i: nat): byte {
    if i < |b| then b[i] else 0
  }

  // Section 3 of RFC 3629.
  function Utf8(v: Scalar): (b: Bytes)
    ensures 1 <= |b| <= 4
  {
    if v <= 0x7F then [v]
    else if v <= 0x7FF then [0xC0 + v / 64, 0x80 + v % 64]
    else if v <= 0xFFFF then [0xE0 + v / 4096, 0x80 + v / 64 % 64, 0x80 + v % 64]
    else [0xF0 + v / 262144, 0x80 + v / 4096 % 64, 0x80 + v / 64 % 64, 0x80 + v % 64]
  }

  // The bytes of a text.
  function Enc(cs: seq<Scalar>): Bytes {
    if cs == [] then [] else Utf8(cs[0]) + Enc(cs[1..])
  }

  lemma {:induction false} EncAppend(cs: seq<Scalar>, v: Scalar)
    ensures Enc(cs + [v]) == Enc(cs) + Utf8(v)
  {
    if cs == [] {
      assert cs + [v] == [v] && Enc([v][1..]) == [];
    } else {
      assert (cs + [v])[1..] == cs[1..] + [v];
      EncAppend(cs[1..], v);
    }
  }

  // ---------- the tests on bytes ----------

  predicate IsAscii(b: Bytes, i: nat) {
    At(b, i) <= 0x7F
  }

  predicate IsPrintable(b: Bytes, i: nat) {
    || At(b, i) == 0x0A
    || 0x20 <= At(b, i) <= 0x7E
    || (At(b, i) == 0xC2 && At(b, i + 1) >= 0xA0)
    || 0xC2 < At(b, i) < 0xED
    || (At(b, i) == 0xED && At(b, i + 1) < 0xA0)
    || At(b, i) == 0xEE
    || (At(b, i) == 0xEF && !(At(b, i + 1) == 0xBB && At(b, i + 2) == 0xBF)
        && !(At(b, i + 1) == 0xBF && (At(b, i + 2) == 0xBE || At(b, i + 2) == 0xBF)))
  }

  predicate IsZ(b: Bytes, i: nat) {
    At(b, i) == 0
  }

  // Looks at the start of the text, whatever i is.
  predicate IsBom(b: Bytes, i: nat) {
    At(b, 0) == 0xEF && At(b, 1) == 0xBB && At(b, 2) == 0xBF
  }

  predicate IsSpace(b: Bytes, i: nat) {
    At(b, i) == 0x20
  }

  predicate IsBlank(b: Bytes, i: nat) {
    At(b, i) == 0x20 || At(b, i) == 0x09
  }

  predicate IsBreak(b: Bytes, i: nat) {
    || At(b, i) == 0x0D || At(b, i) == 0x0A
    || (At(b, i) == 0xC2 && At(b, i + 1) == 0x85)
    || (At(b, i) == 0xE2 && At(b, i + 1) == 0x80 && At(b, i + 2) == 0xA8)
    || (At(b, i) == 0xE2 && At(b, i + 1) == 0x80 && At(b, i + 2) == 0xA9)
  }

  predicate IsCrlf(b: Bytes, i: nat) {
    At(b, i) == 0x0D && At(b, i + 1) == 0x0A
  }

  predicate IsBlankz(b: Bytes, i: nat) {
    IsBlank(b, i) || IsBreak(b, i) || IsZ(b, i)
  }

  predicate IsHex(b: Bytes, i: nat) {
    0x30 <= At(b, i) <= 0x39 || 0x41 <= At(b, i) <= 0x46 || 0x61 <= At(b, i) <= 0x66
  }

  function AsHex(b: Bytes, i: nat): int {
    var d := At(b, i);
    if 0x41 <= d <= 0x46 then d - 0x41 + 10
    else if 0x61 <= d <= 0x66 then d - 0x61 + 10
    else d - 0x30
  }

  function Width(b: byte): nat {
    if b < 0x80 then 1
    else if b / 32 == 6 then 2
    else if b / 16 == 14 then 3
    else if b / 8 == 30 then 4
    else 0
  }

  // ---------- the same on scalar values ----------

  predicate Printable(v: Scalar) {
    || v == 0x0A || 0x20 <= v <= 0x7E || 0xA0 <= v <= 0xD7FF
    || (0xE000 <= v <= 0xFFFD && v != 0xFEFF)
  }

  predicate LineBreak(v: Scalar) {
    v == 0x0A || v == 0x0D || v == 0x85 || v == 0x2028 || v == 0x2029
  }

  // The bytes of chunk are found in b from i on.
  predicate Has(b: Bytes, i: nat, chunk: Bytes) {
    i + |chunk| <= |b| && b[i..i + |chunk|] == chunk
  }

  lemma HasAt(b: Bytes, i: nat, chunk: Bytes, k: nat)
    requires Has(b, i, chunk) && k < |chunk|
    ensures At(b, i + k) == chunk[k]
  {
    assert b[i..i + |chunk|][k] == chunk[k];
  }

  lemma HasSplit(b: Bytes, i: nat, first: Bytes, second: Bytes)
    requires Has(b, i, first + second)
    ensures Has(b, i, first) && Has(b, i + |first|, second)
  {
    var chunk := first + second;
    assert b[i..i + |first|] == b[i..i + |chunk|][..|first|] == first;
    assert b[i + |first|..i + |chunk|] == b[i..i + |chunk|][|first|..] == second;
  }

  // What the bytes of one character tell the tests.
  lemma TestsOfChar(b: Bytes, i: nat, v: Scalar)
    requires Has(b, i, Utf8(v))
    ensures IsPrintable(b, i) <==> Printable(v)
    ensures IsBreak(b, i) <==> LineBreak(v)
    ensures IsAscii(b, i) <==> v <= 0x7F
    ensures v <= 0x7F ==> At(b, i) == v
    ensures v > 0x7F ==> At(b, i) >= 0xC2
  {
    HasAt(b, i, Utf8(v), 0);
    if v > 0x7F { HasAt(b, i, Utf8(v), 1); }
    if v > 0x7FF { HasAt(b, i, Utf8(v), 2); }
  }

  lemma WidthOfChar(b: Bytes, i: nat, v: Scalar)
    requires Has(b, i, Utf8(v))
    ensures Width(At(b, i)) == |Utf8(v)|
  {
    HasAt(b, i, Utf8(v), 0);
  }

  // The value the emitter reads back from the bytes of a character.
  function Lead(octet: byte): int {
    if octet < 0x80 then octet
    else if octet / 32 == 6 then octet % 32
    else if octet / 16 == 14 then octet % 16
    else if octet / 8 == 30 then octet % 8
    else 0
  }

  // The value of the first w bytes at i.
  function Value(b: Bytes, i: nat, w: nat): int {
    if w <= 1 then Lead(At(b, i)) else Value(b, i, w - 1) * 64 + At(b, i + w - 1) % 64
  }

  lemma TwoBytes(v: int)
    requires 0 <= v <= 0x7FF
    ensures (0xC0 + v / 64) % 32 * 64 + (0x80 + v % 64) % 64 == v
  {
  }

  lemma ThreeBytes(v: int)
    requires 0 <= v <= 0xFFFF
    ensures ((0xE0 + v / 4096) % 16 * 64 + (0x80 + v / 64 % 64) % 64) * 64 + (0x80 + v % 64) % 64 == v
  {
    assert v / 4096 == v / 64 / 64;
    assert (0xE0 + v / 4096) % 16 == v / 4096;
    assert (0x80 + v / 64 % 64) % 64 == v / 64 % 64;
  }

  lemma FourBytes(v: int)
    requires 0 <= v <= 0x10FFFF
    ensures (((0xF0 + v / 262144) % 8 * 64 + (0x80 + v / 4096 % 64) % 64) * 64 + (0x80 + v / 64 % 64) % 64) * 64 + (0x80 + v % 64) % 64 == v
  {
    assert v / 262144 == v / 4096 / 64;
    assert v / 4096 == v / 64 / 64;
    assert (0xF0 + v / 262144) % 8 == v / 262144;
    assert (0x80 + v / 4096 % 64) % 64 == v / 4096 % 64;
    assert (0x80 + v / 64 % 64) % 64 == v / 64 % 64;
  }

  lemma ValueOfChar(b: Bytes, i: nat, v: Scalar)
    requires Has(b, i, Utf8(v))
    ensures Value(b, i, |Utf8(v)|) == v
  {
    HasAt(b, i, Utf8(v), 0);
    hide Has;
    if v > 0x7F { HasAt(b, i, Utf8(v), 1); }
    if v > 0x7FF { HasAt(b, i, Utf8(v), 2); }
    if v > 0xFFFF { HasAt(b, i, Utf8(v), 3); }
    LeadOfChar(v);
    hide At, Lead;
    if v <= 0x7F {
    } else if v <= 0x7FF {
      TwoBytes(v);
      assert Value(b, i, 2) == Value(b, i, 1) * 64 + At(b, i + 1) % 64;
    } else if v <= 0xFFFF {
      ThreeBytes(v);
      assert Value(b, i, 2) == Value(b, i, 1) * 64 + At(b, i + 1) % 64;
      assert Value(b, i, 3) == Value(b, i, 2) * 64 + At(b, i + 2) % 64;
    } else {
      FourBytes(v);
      assert Value(b, i, 2) == Value(b, i, 1) * 64 + At(b, i + 1) % 64;
      assert Value(b, i, 3) == Value(b, i, 2) * 64 + At(b, i + 2) % 64;
      assert Value(b, i, 4) == Value(b, i, 3) * 64 + At(b, i + 3) % 64;
    }
  }

  lemma LeadOfChar(v: Scalar)
    ensures Lead(Utf8(v)[0]) == if v <= 0x7F then v else if v <= 0x7FF then (0xC0 + v / 64) % 32
                                else if v <= 0xFFFF then (0xE0 + v / 4096) % 16 else (0xF0 + v / 262144) % 8
  {
  }
}
