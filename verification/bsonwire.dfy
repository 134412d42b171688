// The wire format of BSON, written down by its bytes, apart from the encoder and
// the decoder: the encoding of a document is the one string of bytes that has this
// form, and every string of this form is read as the document.

module BsonWire {
  import opened Bson

  // ---------- the format ----------

  // The number whose bytes these are, the lowest first.
  function Number(b: Bytes): nat {
    if b == [] then 0 else b[0] + 256 * Number(b[1..])
  }

  predicate IsDigit(c: byte) {
    0x30 <= c <= 0x39
  }

  // The number these decimal digits stand for.
  function Numeral(s: Bytes): nat
    requires forall c :: c in s ==> IsDigit(c)
  {
    if s == [] then 0 else
    assert s[|s| - 1] in s && IsDigit(s[|s| - 1]);
    10 * Numeral(s[..|s| - 1]) + (s[|s| - 1] as int - 0x30)
  }

  // n in decimal digits, with no zero in front.
  predicate Decimal(s: Bytes, n: nat) {
    s != [] && (forall c :: c in s ==> IsDigit(c)) && (|s| > 1 ==> s[0] != 0x30) && Numeral(s) == n
  }

  // The byte in front of each kind of value.
  predicate KindIs(k: byte, v: Value) {
    match k
    case 0x01 => v.Double?
    case 0x02 => v.String?
    case 0x03 => v.Document?
    case 0x04 => v.Array?
    case 0x05 => v.Raw? || v.Binary?
    case 0x06 => v.Undefined?
    case 0x07 => v.ObjectId?
    case 0x08 => v.Bool?
    case 0x09 => v.DateTime?
    case 0x0A => v.Null?
    case 0x0B => v.RegEx?
    case 0x0C => v.DBPointer?
    case 0x0D => v.JavaScript?
    case 0x0E => v.Symbol?
    case 0x10 => v.Int32?
    case 0x11 => v.Timestamp?
    case 0x12 => v.Int64?
    case 0x7F => v.MaxKey?
    case 0xFF => v.MinKey?
    case _ => false
  }

  // n in two's complement.
  predicate Four(p: Bytes, n: int) {
    |p| == 4 && -0x8000_0000 <= n < 0x8000_0000 && Number(p) == if n >= 0 then n else n + 0x1_0000_0000
  }

  predicate Eight(p: Bytes, n: int) {
    |p| == 8 && Number(p) == if n >= 0 then n else n + 0x1_0000_0000_0000_0000
  }

  // A text with its length, which counts the zero after it.
  predicate TextIs(p: Bytes, s: Bytes) {
    |p| == |s| + 5 && Four(p[..4], |s| + 1) && p[4..] == s + [0]
  }

  // Data with its length and kind.
  predicate DataIs(p: Bytes, kind: byte, data: Bytes) {
    |p| == |data| + 5 && Four(p[..4], |data|) && p[4..] == [kind] + data
  }

  // The length counts itself and the zero at the end.
  predicate Framed(p: Bytes) {
    |p| >= 5 && Four(p[..4], |p|) && p[|p| - 1] == 0
  }

  ghost predicate PayloadIs(p: Bytes, v: Value)
    decreases Size(v), 0
  {
    match v
    case Double(bits) => Eight(p, bits)
    case String(text) => TextIs(p, text)
    case Document(elems) => Framed(p) && ElementsAre(p[4..|p| - 1], elems)
    case Array(items) => Framed(p) && ItemsAre(p[4..|p| - 1], items, 0)
    case Raw(data) => DataIs(p, 0x00, data)
    // The obsolete kind 2 has the length of its data once more in front of them.
    case Binary(kind, data) =>
      if kind == 0x02 then |p| == |data| + 9 && DataIs(p, 0x02, p[5..]) && Four(p[5..9], |data|) && p[9..] == data
      else DataIs(p, kind, data)
    case Undefined => p == []
    case ObjectId(id) => p == id
    case Bool(b) => p == if b then [0x01] else [0x00]
    case DateTime(millis) => Eight(p, millis)
    case Null => p == []
    case RegEx(pattern, options) => p == pattern + [0] + options + [0]
    case DBPointer(namespace, id) => |p| == |namespace| + 17 && TextIs(p[..|namespace| + 5], namespace) && p[|namespace| + 5..] == id
    case JavaScript(code) => TextIs(p, code)
    case Symbol(text) => TextIs(p, text)
    case Int32(i) => Four(p, i)
    case Timestamp(i) => Eight(p, i)
    case Int64(i) => Eight(p, i)
    case MinKey => p == []
    case MaxKey => p == []
  }

  // An element: kind, name, zero, value.
  ghost predicate ElementIs(b: Bytes, name: Bytes, v: Value)
    decreases Size(v), 1
  {
    |b| >= |name| + 2 && KindIs(b[0], v) && b[1..|name| + 2] == name + [0] && PayloadIs(b[|name| + 2..], v)
  }

  ghost predicate ElementsAre(b: Bytes, elems: seq<Elem>)
    decreases SizeElems(elems), 2
  {
    if elems == [] then b == []
    else exists n: nat :: n <= |b| && ElementIs(b[..n], elems[0].name, elems[0].value) && ElementsAre(b[n..], elems[1..])
  }

  // The items of an array are named by their indices.
  ghost predicate ItemsAre(b: Bytes, items: seq<Value>, k: nat)
    decreases SizeItems(items), 2
  {
    if items == [] then b == []
    else exists n: nat, name: Bytes ::
      n <= |b| && Decimal(name, k) && ElementIs(b[..n], name, items[0]) && ItemsAre(b[n..], items[1..], k + 1)
  }

  ghost predicate DocumentIs(b: Bytes, elems: seq<Elem>) {
    PayloadIs(b, Document(elems))
  }

  // ---------- numbers ----------

  lemma {:induction false} NumberOfLe(u: nat, k: nat)
    requires u < Pow256(k)
    ensures Number(Le(u, k)) == u
    decreases k
  {
    if k > 0 {
      NumberOfLe(u / 256, k - 1);
      assert Le(u, k)[1..] == Le(u / 256, k - 1);
    }
  }

  lemma {:induction false} LeOfNumber(b: Bytes)
    ensures Number(b) < Pow256(|b|) && Le(Number(b), |b|) == b
  {
    if b != [] {
      LeOfNumber(b[1..]);
      assert b == [b[0]] + b[1..];
      assert Number(b) % 256 == b[0] && Number(b) / 256 == Number(b[1..]);
    }
  }

  lemma FourIs(p: Bytes, n: int)
    requires IsInt32(n)
    ensures Four(p, n) <==> p == Le32(n)
  {
    Powers();
    hide Le, Number;
    NumberOfLe(n % TWO_32, 4);
    if |p| == 4 { LeOfNumber(p); }
    assert n < 0 ==> n % TWO_32 == n + TWO_32;
  }

  lemma EightIs(p: Bytes, n: int)
    requires -TWO_63 <= n < TWO_64
    ensures Eight(p, n) <==> p == Le64(n)
  {
    Powers();
    hide Le, Number;
    NumberOfLe(n % TWO_64, 8);
    if |p| == 8 { LeOfNumber(p); }
    assert n < 0 ==> n % TWO_64 == n + TWO_64;
  }

  lemma {:induction false} ItoaIsDecimal(n: nat)
    ensures Decimal(Itoa(n), n) && (n > 0 ==> Itoa(n)[0] != 0x30)
  {
    if n >= 10 {
      ItoaIsDecimal(n / 10);
      var s := Itoa(n);
      assert s[..|s| - 1] == Itoa(n / 10);
    } else {
      assert Itoa(n)[..0] == [];
    }
  }

  lemma {:induction false} DecimalIsItoa(s: Bytes, n: nat)
    requires Decimal(s, n)
    ensures s == Itoa(n) && (s[0] != 0x30 ==> n > 0)
    decreases |s|
  {
    var m := |s| - 1;
    LastDigit(s, n);
    if m == 0 {
      assert s == [s[0]];
    } else {
      hide Numeral, Decimal;
      var r := s[..m];
      DecimalIsItoa(r, n / 10);
      assert s == r + [s[m]];
    }
  }

  lemma LastDigit(s: Bytes, n: nat)
    requires Decimal(s, n)
    ensures s != [] && s[|s| - 1] == 0x30 + n % 10 && (|s| == 1 ==> n < 10)
    ensures |s| > 1 ==> Decimal(s[..|s| - 1], n / 10) && s[0] != 0x30 && s[..|s| - 1][0] == s[0]
  {
    var m := |s| - 1;
    assert s[m] in s && IsDigit(s[m]);
    var r, d := s[..m], s[m] as int - 0x30;
    assert forall c :: c in r ==> c in s;
    assert n == 10 * Numeral(r) + d && 0 <= d < 10;
    hide Numeral;
    assert n / 10 == Numeral(r) && n % 10 == d;
  }

  // ---------- the parts ----------

  lemma TextForm(p: Bytes, s: Bytes)
    requires |s| + 1 < TWO_31
    ensures TextIs(p, s) <==> p == EncStr(s)
  {
    hide Four, Le32;
    if |p| >= 4 { FourIs(p[..4], |s| + 1); assert p == p[..4] + p[4..]; }
    FourLong(|s| + 1);
    assert EncStr(s)[..4] == Le32(|s| + 1) && EncStr(s)[4..] == s + [0];
  }

  lemma FourLong(n: int)
    ensures |Le32(n)| == 4 && |Le64(n)| == 8
  {
  }

  lemma DataForm(p: Bytes, kind: byte, data: Bytes)
    requires |data| < TWO_31
    ensures DataIs(p, kind, data) <==> p == Le32(|data|) + [kind] + data
  {
    hide Four, Le32;
    if |p| >= 4 { FourIs(p[..4], |data|); assert p == p[..4] + p[4..]; }
    FourLong(|data|);
    var q := Le32(|data|) + [kind] + data;
    assert q[..4] == Le32(|data|) && q[4..] == [kind] + data;
  }

  lemma BinaryForm(p: Bytes, data: Bytes)
    requires |data| + 4 < TWO_31
    ensures PayloadIs(p, Binary(0x02, data)) <==> p == EncBinary(0x02, data)
  {
    hide Four, Le32, DataIs;
    var n := |data|;
    FourLong(n);
    FourLong(n + 4);
    var q := Le32(n + 4) + [0x02] + Le32(n) + data;
    assert q[5..] == Le32(n) + data && q[5..9] == Le32(n) && q[9..] == data;
    assert q == Le32(n + 4) + [0x02] + q[5..];
    if |p| == n + 9 {
      DataForm(p, 0x02, p[5..]);
      FourIs(p[5..9], n);
      assert p[5..] == p[5..9] + p[9..];
    }
  }

  lemma PointerForm(p: Bytes, namespace: Bytes, id: Bytes)
    requires |namespace| + 1 < TWO_31 && |id| == 12
    ensures PayloadIs(p, DBPointer(namespace, id)) <==> p == EncStr(namespace) + id
  {
    hide TextIs, EncStr;
    StrLength(namespace);
    var m := |namespace| + 5;
    if |p| >= m { TextForm(p[..m], namespace); assert p == p[..m] + p[m..]; }
    var q := EncStr(namespace) + id;
    assert q[..m] == EncStr(namespace) && q[m..] == id;
  }

  lemma StrLength(s: Bytes)
    ensures |EncStr(s)| == |s| + 5
  {
  }

  lemma FrameForm(p: Bytes, body: Bytes)
    requires |body| + 5 < TWO_31
    ensures Framed(p) && p[4..|p| - 1] == body <==> p == Wrapped(body)
  {
    hide Four, Le32;
    var n := |body| + 5;
    FourLong(n);
    var q := Wrapped(body);
    assert q[..4] == Le32(n) && q[4..|q| - 1] == body && q[|q| - 1] == 0;
    FourIs(q[..4], n);
    if Framed(p) && p[4..|p| - 1] == body {
      FourIs(p[..4], n);
      assert p == p[..4] + p[4..|p| - 1] + [p[|p| - 1]];
    }
  }

  lemma LeafForm(p: Bytes, v: Value)
    requires Valid(v) && Leaf(v) && (|p| < TWO_31 || |Payload(v)| < TWO_31)
    ensures PayloadIs(p, v) <==> p == Payload(v)
  {
    hide TextIs, DataIs, Four, Eight, EncStr, Le32, Le64;
    match v
    case Double(bits) => EightIs(p, bits);
    case String(text) => SmallText(p, text);
    case Raw(data) => SmallData(p, 0x00, data);
    case Binary(kind, data) => if kind == 0x02 { SmallBinary(p, data); } else { SmallData(p, kind, data); }
    case DateTime(n) => EightIs(p, n);
    case RegEx(pattern, options) => assert (pattern + [0]) + (options + [0]) == pattern + [0] + options + [0];
    case DBPointer(namespace, id) => SmallPointer(p, namespace, id);
    case JavaScript(code) => SmallText(p, code);
    case Symbol(text) => SmallText(p, text);
    case Int32(n) => FourIs(p, n);
    case Timestamp(n) => EightIs(p, n);
    case Int64(n) => EightIs(p, n);
    case _ =>
  }

  // Whichever of the two is small, the other is.
  lemma SmallText(p: Bytes, s: Bytes)
    requires |p| < TWO_31 || |EncStr(s)| < TWO_31
    ensures TextIs(p, s) <==> p == EncStr(s)
  {
    StrLength(s);
    if |s| + 1 < TWO_31 { TextForm(p, s); }
  }

  lemma SmallData(p: Bytes, kind: byte, data: Bytes)
    requires |p| < TWO_31 || |Le32(|data|) + [kind] + data| < TWO_31
    ensures DataIs(p, kind, data) <==> p == Le32(|data|) + [kind] + data
  {
    FourLong(|data|);
    if |data| < TWO_31 { DataForm(p, kind, data); }
  }

  lemma SmallBinary(p: Bytes, data: Bytes)
    requires |p| < TWO_31 || |EncBinary(0x02, data)| < TWO_31
    ensures PayloadIs(p, Binary(0x02, data)) <==> p == EncBinary(0x02, data)
  {
    FourLong(|data|);
    FourLong(|data| + 4);
    hide DataIs, Four, Le32;
    if |data| + 4 < TWO_31 { BinaryForm(p, data); }
  }

  lemma SmallPointer(p: Bytes, namespace: Bytes, id: Bytes)
    requires |id| == 12 && (|p| < TWO_31 || |EncStr(namespace) + id| < TWO_31)
    ensures PayloadIs(p, DBPointer(namespace, id)) <==> p == EncStr(namespace) + id
  {
    StrLength(namespace);
    hide TextIs, EncStr;
    if |namespace| + 1 < TWO_31 { PointerForm(p, namespace, id); }
  }

  lemma KindForm(k: byte, v: Value)
    ensures KindIs(k, v) <==> k == Kind(v)
  {
  }

  // ---------- values ----------

  lemma ElementForm(b: Bytes, name: Bytes, v: Value)
    ensures ElementIs(b, name, v) <==>
      |b| >= |name| + 2 && b == EncElem(name, v)[..|name| + 2] + b[|name| + 2..] && PayloadIs(b[|name| + 2..], v)
    ensures |EncElem(name, v)| == |name| + 2 + |Payload(v)| && EncElem(name, v)[|name| + 2..] == Payload(v)
  {
    hide PayloadIs, Kind, KindIs, Payload;
    var head := [Kind(v)] + (name + [0]);
    assert EncElem(name, v) == head + Payload(v);
    assert EncElem(name, v)[..|name| + 2] == head;
    if |b| >= |name| + 2 {
      KindForm(b[0], v);
      assert b == [b[0]] + b[1..|name| + 2] + b[|name| + 2..];
      assert head[0] == Kind(v) && head[1..] == name + [0];
      if b == head + b[|name| + 2..] {
        assert b[..|name| + 2] == head;
        assert b[1..|name| + 2] == b[..|name| + 2][1..];
      }
    }
  }

  lemma ElementWritten(name: Bytes, v: Value)
    requires PayloadIs(Payload(v), v)
    ensures ElementIs(EncElem(name, v), name, v)
  {
    hide PayloadIs, ElementIs;
    var b := EncElem(name, v);
    ElementForm(b, name, v);
    assert b == b[..|name| + 2] + b[|name| + 2..];
  }

  lemma {:induction false} ValueWritten(v: Value)
    requires Valid(v) && |Payload(v)| < TWO_31
    ensures PayloadIs(Payload(v), v)
    decreases Size(v), 0
  {
    hide *;
    if v.Document? {
      DocumentParts(v.elems);
      ElemsWritten(v.elems);
      FrameForm(Payload(v), EncElems(v.elems));
      DocumentIsFramed(Payload(v), v.elems);
    } else if v.Array? {
      ArrayParts(v.items);
      ItemsWritten(v.items, 0);
      FrameForm(Payload(v), EncItems(v.items, 0));
      ArrayIsFramed(Payload(v), v.items);
    } else {
      IsLeaf(v);
      LeafForm(Payload(v), v);
    }
  }

  lemma IsLeaf(v: Value)
    requires !v.Document? && !v.Array?
    ensures Leaf(v)
  {
  }

  lemma DocumentParts(elems: seq<Elem>)
    ensures Payload(Document(elems)) == Wrapped(EncElems(elems)) && |Wrapped(EncElems(elems))| == |EncElems(elems)| + 5
    ensures Valid(Document(elems)) <==> ValidElems(elems)
    ensures Size(Document(elems)) == 1 + SizeElems(elems)
  {
    WrappedLength(EncElems(elems));
  }

  lemma ArrayParts(items: seq<Value>)
    ensures Payload(Array(items)) == Wrapped(EncItems(items, 0)) && |Wrapped(EncItems(items, 0))| == |EncItems(items, 0)| + 5
    ensures Valid(Array(items)) <==> ValidItems(items)
    ensures Size(Array(items)) == 1 + SizeItems(items)
  {
    WrappedLength(EncItems(items, 0));
  }

  lemma DocumentIsFramed(p: Bytes, elems: seq<Elem>)
    ensures PayloadIs(p, Document(elems)) <==> Framed(p) && ElementsAre(p[4..|p| - 1], elems)
  {
    hide Framed, ElementsAre;
    assert Framed(p) ==> |p| >= 5 by { FramedLong(p); }
  }

  lemma FramedLong(p: Bytes)
    ensures Framed(p) ==> |p| >= 5
  {
  }

  lemma ArrayIsFramed(p: Bytes, items: seq<Value>)
    ensures PayloadIs(p, Array(items)) <==> Framed(p) && ItemsAre(p[4..|p| - 1], items, 0)
  {
    hide ItemsAre;
  }

  lemma {:induction false} ElemsWritten(elems: seq<Elem>)
    requires ValidElems(elems) && |EncElems(elems)| < TWO_31
    ensures ElementsAre(EncElems(elems), elems)
    decreases SizeElems(elems), 1
  {
    if elems != [] {
      hide EncElem, ElementIs, Payload, Valid, PayloadIs;
      var name, v, rest := elems[0].name, elems[0].value, EncElems(elems[1..]);
      var b, n := EncElems(elems), |EncElem(name, v)|;
      ElementForm(b, name, v);
      ValueWritten(v);
      ElementWritten(name, v);
      ElemsWritten(elems[1..]);
      assert b[..n] == EncElem(name, v) && b[n..] == rest;
    }
  }

  lemma {:induction false} ItemsWritten(items: seq<Value>, k: nat)
    requires ValidItems(items) && |EncItems(items, k)| < TWO_31
    ensures ItemsAre(EncItems(items, k), items, k)
    decreases SizeItems(items), 1
  {
    if items != [] {
      hide EncElem, ElementIs, Payload, Valid, PayloadIs, Itoa, Decimal;
      var name, v, rest := Itoa(k), items[0], EncItems(items[1..], k + 1);
      var b, n := EncItems(items, k), |EncElem(name, v)|;
      ItoaIsDecimal(k);
      ElementForm(b, name, v);
      ValueWritten(v);
      ElementWritten(name, v);
      ItemsWritten(items[1..], k + 1);
      assert b[..n] == EncElem(name, v) && b[n..] == rest;
    }
  }

  lemma {:induction false} OnlyValue(p: Bytes, v: Value)
    requires Valid(v) && |p| < TWO_31 && PayloadIs(p, v)
    ensures p == Payload(v)
    decreases Size(v), 0
  {
    hide *;
    if v.Document? {
      DocumentParts(v.elems);
      DocumentIsFramed(p, v.elems);
      FramedLong(p);
      OnlyElems(p[4..|p| - 1], v.elems);
      FrameForm(p, EncElems(v.elems));
    } else if v.Array? {
      ArrayParts(v.items);
      ArrayIsFramed(p, v.items);
      FramedLong(p);
      OnlyItems(p[4..|p| - 1], v.items, 0);
      FrameForm(p, EncItems(v.items, 0));
    } else {
      IsLeaf(v);
      LeafForm(p, v);
    }
  }

  lemma {:induction false} OnlyElement(b: Bytes, name: Bytes, v: Value)
    requires Valid(v) && |b| < TWO_31 && ElementIs(b, name, v)
    ensures b == EncElem(name, v)
    decreases Size(v), 1
  {
    hide PayloadIs, ElementIs, EncElem, Valid;
    ElementForm(b, name, v);
    OnlyValue(b[|name| + 2..], v);
    var e := EncElem(name, v);
    assert e == e[..|name| + 2] + e[|name| + 2..];
  }

  lemma {:induction false} OnlyElems(b: Bytes, elems: seq<Elem>)
    requires ValidElems(elems) && |b| < TWO_31 && ElementsAre(b, elems)
    ensures b == EncElems(elems)
    decreases SizeElems(elems), 2
  {
    if elems != [] {
      hide *;
      var name, v := elems[0].name, elems[0].value;
      var n := FirstElemIs(b, elems);
      OnlyElement(b[..n], name, v);
      OnlyElems(b[n..], elems[1..]);
      assert b == b[..n] + b[n..];
    }
  }

  lemma {:induction false} OnlyItems(b: Bytes, items: seq<Value>, k: nat)
    requires ValidItems(items) && |b| < TWO_31 && ItemsAre(b, items, k)
    ensures b == EncItems(items, k)
    decreases SizeItems(items), 2
  {
    hide *;
    if items == [] {
      NoItems(b, k);
    } else {
      var v := items[0];
      var n, name := FirstItemIs(b, items, k);
      DecimalIsItoa(name, k);
      OnlyElement(b[..n], name, v);
      OnlyItems(b[n..], items[1..], k + 1);
      assert b == b[..n] + b[n..];
    }
  }

  lemma FirstElemIs(b: Bytes, elems: seq<Elem>) returns (n: nat)
    requires elems != [] && ValidElems(elems) && ElementsAre(b, elems)
    ensures n <= |b| && ElementIs(b[..n], elems[0].name, elems[0].value) && ElementsAre(b[n..], elems[1..])
    ensures Valid(elems[0].value) && ValidElems(elems[1..])
    ensures EncElems(elems) == EncElem(elems[0].name, elems[0].value) + EncElems(elems[1..])
    ensures Size(elems[0].value) < SizeElems(elems) && SizeElems(elems[1..]) < SizeElems(elems)
  {
    hide EncElem, ElementIs, Valid;
    n :| n <= |b| && ElementIs(b[..n], elems[0].name, elems[0].value) && ElementsAre(b[n..], elems[1..]);
  }

  lemma NoItems(b: Bytes, k: nat)
    requires ItemsAre(b, [], k)
    ensures b == EncItems([], k)
  {
  }

  lemma FirstItemIs(b: Bytes, items: seq<Value>, k: nat) returns (n: nat, name: Bytes)
    requires items != [] && ValidItems(items) && ItemsAre(b, items, k)
    ensures n <= |b| && Decimal(name, k) && ElementIs(b[..n], name, items[0]) && ItemsAre(b[n..], items[1..], k + 1)
    ensures Valid(items[0]) && ValidItems(items[1..])
    ensures EncItems(items, k) == EncElem(Itoa(k), items[0]) + EncItems(items[1..], k + 1)
    ensures Size(items[0]) < SizeItems(items) && SizeItems(items[1..]) < SizeItems(items)
  {
    hide EncElem, ElementIs, Valid, Decimal, Itoa;
    n, name :| n <= |b| && Decimal(name, k) && ElementIs(b[..n], name, items[0]) && ItemsAre(b[n..], items[1..], k + 1);
  }

  // ---------- the encoder and the decoder ----------

  // The encoding of a document is of the wire format, and nothing else is.
  lemma WireFormat(b: Bytes, elems: seq<Elem>)
    requires ValidElems(elems)
    ensures DocumentIs(b, elems) <==> b == EncDoc(elems) && |b| < TWO_31
  {
    hide *;
    DocumentMeans(b, elems);
    DocumentParts(elems);
    if b == EncDoc(elems) && |b| < TWO_31 { ValueWritten(Document(elems)); }
    if DocumentIs(b, elems) { OnlyValue(b, Document(elems)); }
  }

  lemma DocumentMeans(b: Bytes, elems: seq<Elem>)
    ensures DocumentIs(b, elems) <==> PayloadIs(b, Document(elems))
    ensures DocumentIs(b, elems) ==> |b| < TWO_31
    ensures EncDoc(elems) == Wrapped(EncElems(elems))
  {
    hide ElementsAre, Number;
  }

  lemma ElementWire(name: Bytes, v: Value)
    requires Valid(v) && |EncElem(name, v)| < TWO_31
    ensures ElementIs(EncElem(name, v), name, v)
  {
    hide *;
    ElementForm([], name, v);
    ValueWritten(v);
    ElementWritten(name, v);
  }

  lemma ArrayWire(items: seq<Value>)
    requires ValidItems(items) && |Wrapped(EncItems(items, 0))| < TWO_31
    ensures PayloadIs(Wrapped(EncItems(items, 0)), Array(items))
  {
    hide *;
    ArrayParts(items);
    ValueWritten(Array(items));
  }

  // Every string of bytes of the form is read as the document, wherever it stands,
  // and exactly its bytes are taken.
  lemma WireRead(b: Bytes, i: nat, n: nat, elems: seq<Elem>)
    requires ValidElems(elems) && i + n <= |b| && DocumentIs(b[i..i + n], elems)
    ensures ReadDoc(b, i) == Got(NormElems(elems), i + n)
  {
    hide *;
    WireFormat(b[i..i + n], elems);
    Stands(b, i, n);
    DocBack(elems, b, i);
  }

  lemma Stands(b: Bytes, i: nat, n: nat)
    requires i + n <= |b|
    ensures Has(b, i, b[i..i + n]) && |b[i..i + n]| == n
  {
  }

  // One element more after any others, in numbers: its kind, and its value if that
  // is a number.
  lemma NumbersWritten(name: Bytes, n: int)
    requires IsInt64(n)
    ensures EncElem(name, Int64(n)) == [0x12] + name + [0] + Le64(n)
    ensures EncElem(name, DateTime(n)) == [0x09] + name + [0] + Le64(n)
    ensures EncElem(name, Timestamp(n)) == [0x11] + name + [0] + Le64(n)
    ensures IsInt32(n) ==> EncElem(name, Int32(n)) == [0x10] + name + [0] + Le32(n)
    ensures Number(Le64(n)) == (if n >= 0 then n else n + 0x1_0000_0000_0000_0000)
    ensures IsInt32(n) ==> Number(Le32(n)) == if n >= 0 then n else n + 0x1_0000_0000
  {
    hide Number, Le64, Le32, EncElem, Payload;
    EightIs(Le64(n), n);
    if IsInt32(n) { FourIs(Le32(n), n); ElemNumber(name, Int32(n), 0x10, Le32(n)); }
    ElemNumber(name, Int64(n), 0x12, Le64(n));
    ElemNumber(name, DateTime(n), 0x09, Le64(n));
    ElemNumber(name, Timestamp(n), 0x11, Le64(n));
  }

  predicate NumberOf(v: Value, p: Bytes) {
    match v
    case Int32(i) => p == Le32(i)
    case Int64(i) => p == Le64(i)
    case Timestamp(i) => p == Le64(i)
    case DateTime(millis) => p == Le64(millis)
    case _ => false
  }

  lemma ElemNumber(name: Bytes, v: Value, k: byte, p: Bytes)
    requires KindIs(k, v) && NumberOf(v, p)
    ensures EncElem(name, v) == [k] + name + [0] + p
  {
    hide Le64, Le32;
    assert [k] + (name + [0]) == [k] + name + [0];
  }

  // What is not a document: its length is too short or too long for it, or it does
  // not end with a zero.
  lemma NoDocument(b: Bytes, n: int)
    requires |b| >= 4 && Four(b[..4], n)
    ensures n < 5 || n > |b| || b[n - 1] != 0 ==> ReadDoc(b, 0) == Corrupted
  {
    Powers();
    Low(b, 0, 4);
    LeOfNumber(b[..4]);
    hide Number, FromLe, Le;
    assert b[0..4] == b[..4];
  }

  lemma {:induction false} Low(b: Bytes, i: nat, k: nat)
    requires i + k <= |b|
    ensures FromLe(b, i, k) == Number(b[i..i + k])
    decreases k
  {
    if k > 0 {
      Low(b, i + 1, k - 1);
      assert b[i..i + k][1..] == b[i + 1..i + 1 + (k - 1)];
    }
  }

  // No other byte is the kind of a value, but for that of JavaScript with a scope,
  // which is not part of the model; a truth value is true for one only.
  lemma OtherKinds(b: Bytes, kind: byte, i: nat)
    requires i < |b|
    ensures kind == 0x00 || (0x13 <= kind < 0x7F) || (0x7F < kind < 0xFF) ==> ReadValue(b, kind, i) == Corrupted
    ensures ReadValue(b, 0x08, i) == Got(Bool(b[i] == 1), i + 1)
  {
    if ReadValue(b, kind, i).Got? { KindsRead(b, kind, i); }
  }

  // What each kind byte decodes to.
  lemma KindsRead(b: Bytes, kind: byte, i: nat)
    requires i <= |b| && ReadValue(b, kind, i).Got?
    ensures KindIs(kind, ReadValue(b, kind, i).value)
  {
    hide ReadDoc, ReadItems, DocEnd, ReadStr, ReadInt64, ReadInt32, ReadBytes, ReadCStr;
  }

  // A stored number decodes to itself, at the kind that its byte says.
  lemma NumbersRead(b: Bytes, i: nat, n: int)
    requires i + 8 <= |b| && Eight(b[i..i + 8], n) && IsInt64(n)
    ensures ReadValue(b, 0x12, i) == Got(Int64(n), i + 8)
    ensures ReadValue(b, 0x09, i) == Got(DateTime(n), i + 8)
    ensures ReadValue(b, 0x11, i) == Got(Timestamp(n), i + 8)
  {
    Powers();
    Low(b, i, 8);
    LeOfNumber(b[i..i + 8]);
    hide Number, FromLe, Le;
  }
}
