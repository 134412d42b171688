// BSON documents: values, the encoder that appends to its output and patches
// lengths in place, and the decoder with its cursor.

module Bson {
  type byte = i: int | 0 <= i < 256

  type Bytes = seq<byte>

  // The values that have a form of their own. JavaScript with a scope is read
  // into a map and is not part of this model.
  datatype Value =
    | Double(bits: int)
    | String(text: Bytes)
    | Document(elems: seq<Elem>)
    | Array(items: seq<Value>)
    | Raw(data: Bytes)
    | Binary(kind: byte, data: Bytes)
    | Undefined
    | ObjectId(id: Bytes)
    | Bool(b: bool)
    | DateTime(millis: int)
    | Null
    | RegEx(pattern: Bytes, options: Bytes)
    | DBPointer(namespace: Bytes, id: Bytes)
    | JavaScript(code: Bytes)
    | Symbol(text: Bytes)
    | Int32(i: int)
    | Timestamp(i: int)
    | Int64(i: int)
    | MinKey
    | MaxKey

  datatype Elem = Elem(name: Bytes, value: Value)

  const TWO_31 := 0x8000_0000
  const TWO_32 := 0x1_0000_0000
  const TWO_63 := 0x8000_0000_0000_0000
  const TWO_64 := 0x1_0000_0000_0000_0000

  predicate NoNul(s: Bytes) {
    0 !in s
  }

  predicate IsInt32(n: int) {
    -TWO_31 <= n < TWO_31
  }

  predicate IsInt64(n: int) {
    -TWO_63 <= n < TWO_63
  }

  // What the types of the source guarantee, and the checks of the encoder.
  predicate Valid(v: Value)
    decreases Size(v), 0
  {
    match v
    case Double(bits) => 0 <= bits < TWO_64
    case Document(elems) => ValidElems(elems)
    case Array(items) => ValidItems(items)
    case ObjectId(id) => |id| == 12
    case DateTime(millis) => IsInt64(millis)
    case RegEx(pattern, options) => NoNul(pattern) && NoNul(options)
    case DBPointer(namespace, id) => |id| == 12
    case Int32(i) => IsInt32(i)
    case Timestamp(i) => IsInt64(i)
    case Int64(i) => IsInt64(i)
    case _ => true
  }

  predicate ValidElems(elems: seq<Elem>)
    decreases SizeElems(elems), 1
  {
    elems == [] || (NoNul(elems[0].name) && Valid(elems[0].value) && ValidElems(elems[1..]))
  }

  predicate ValidItems(items: seq<Value>)
    decreases SizeItems(items), 1
  {
    items == [] || (Valid(items[0]) && ValidItems(items[1..]))
  }

  function Size(v: Value): nat {
    match v
    case Document(elems) => 1 + SizeElems(elems)
    case Array(items) => 1 + SizeItems(items)
    case _ => 1
  }

  function SizeElems(elems: seq<Elem>): nat {
    if elems == [] then 0 else 1 + Size(elems[0].value) + SizeElems(elems[1..])
  }

  function SizeItems(items: seq<Value>): nat {
    if items == [] then 0 else 1 + Size(items[0]) + SizeItems(items[1..])
  }

  // ---------- numbers ----------

  function Le(u: nat, k: nat): (r: Bytes)
    ensures |r| == k
  {
    if k == 0 then [] else [u % 256] + Le(u / 256, k - 1)
  }

  function FromLe(b: Bytes, i: nat, k: nat): nat
    requires i + k <= |b|
    decreases k
  {
    if k == 0 then 0 else b[i] + 256 * FromLe(b, i + 1, k - 1)
  }

  function Pow256(k: nat): nat {
    if k == 0 then 1 else 256 * Pow256(k - 1)
  }

  lemma Powers()
    ensures Pow256(4) == TWO_32 && Pow256(8) == TWO_64
  {
    assert Pow256(8) == 256 * Pow256(7) && Pow256(7) == 256 * Pow256(6) && Pow256(6) == 256 * Pow256(5) && Pow256(5) == 256 * Pow256(4);
    assert Pow256(4) == 256 * Pow256(3) && Pow256(3) == 256 * Pow256(2) && Pow256(2) == 256 * Pow256(1);
  }

  // A conversion to the width of the number wraps around.
  function Le32(n: int): Bytes {
    Le(n % TWO_32, 4)
  }

  function Le64(n: int): Bytes {
    Le(n % TWO_64, 8)
  }

  function Signed(u: int, half: int): int {
    if u < half then u else u - 2 * half
  }

  // The bytes of chunk are found in b from i on.
  predicate Has(b: Bytes, i: nat, chunk: Bytes) {
    i + |chunk| <= |b| && b[i..i + |chunk|] == chunk
  }

  lemma HasSplit(b: Bytes, i: nat, first: Bytes, second: Bytes)
    requires Has(b, i, first + second)
    ensures Has(b, i, first) && Has(b, i + |first|, second)
  {
    var chunk := first + second;
    assert b[i..i + |first|] == b[i..i + |chunk|][..|first|] == first;
    assert b[i + |first|..i + |chunk|] == b[i..i + |chunk|][|first|..] == second;
  }

  lemma HasFirst(b: Bytes, i: nat, first: byte, rest: Bytes)
    requires Has(b, i, [first] + rest)
    ensures i < |b| && b[i] == first && Has(b, i + 1, rest)
  {
    HasSplit(b, i, [first], rest);
    assert b[i..i + 1][0] == first;
  }

  lemma {:induction false} LeBack(b: Bytes, i: nat, u: nat, k: nat)
    requires Has(b, i, Le(u, k)) && u < Pow256(k)
    ensures i + k <= |b| && FromLe(b, i, k) == u
    decreases k
  {
    if k > 0 {
      HasFirst(b, i, u % 256, Le(u / 256, k - 1));
      LeBack(b, i + 1, u / 256, k - 1);
    }
  }

  // ---------- the encoding ----------

  function Kind(v: Value): byte {
    match v
    case Double(_) => 0x01
    case String(_) => 0x02
    case Document(_) => 0x03
    case Array(_) => 0x04
    case Raw(_) => 0x05
    case Binary(_, _) => 0x05
    case Undefined => 0x06
    case ObjectId(_) => 0x07
    case Bool(_) => 0x08
    case DateTime(_) => 0x09
    case Null => 0x0A
    case RegEx(_, _) => 0x0B
    case DBPointer(_, _) => 0x0C
    case JavaScript(_) => 0x0D
    case Symbol(_) => 0x0E
    case Int32(_) => 0x10
    case Timestamp(_) => 0x11
    case Int64(_) => 0x12
    case MinKey => 0xFF
    case MaxKey => 0x7F
  }

  function EncCStr(s: Bytes): Bytes {
    s + [0]
  }

  function EncStr(s: Bytes): Bytes {
    Le32(|s| + 1) + EncCStr(s)
  }

  // The obsolete kind 2 repeats the length.
  function EncBinary(kind: byte, data: Bytes): Bytes {
    if kind == 0x02 then Le32(|data| + 4) + [kind] + Le32(|data|) + data else Le32(|data|) + [kind] + data
  }

  // The names of the items of an array.
  function Itoa(n: nat): (s: Bytes)
    ensures NoNul(s)
  {
    if n < 10 then [0x30 + n] else Itoa(n / 10) + [0x30 + n % 10]
  }

  // A document around the bytes of its elements: the length counts itself and
  // the final zero.
  function Wrapped(body: Bytes): Bytes {
    Le32(|body| + 5) + body + [0]
  }

  function Payload(v: Value): Bytes
    decreases Size(v), 0
  {
    match v
    case Double(bits) => Le64(bits)
    case String(text) => EncStr(text)
    case Document(elems) => Wrapped(EncElems(elems))
    case Array(items) => Wrapped(EncItems(items, 0))
    case Raw(data) => EncBinary(0, data)
    case Binary(kind, data) => EncBinary(kind, data)
    case Undefined => []
    case ObjectId(id) => id
    case Bool(b) => [if b then 1 else 0]
    case DateTime(millis) => Le64(millis)
    case Null => []
    case RegEx(pattern, options) => EncCStr(pattern) + EncCStr(options)
    case DBPointer(namespace, id) => EncStr(namespace) + id
    case JavaScript(code) => EncStr(code)
    case Symbol(text) => EncStr(text)
    case Int32(i) => Le32(i)
    case Timestamp(i) => Le64(i)
    case Int64(i) => Le64(i)
    case MinKey => []
    case MaxKey => []
  }

  function EncElem(name: Bytes, v: Value): Bytes
    decreases Size(v), 1
  {
    [Kind(v)] + EncCStr(name) + Payload(v)
  }

  function EncElems(elems: seq<Elem>): Bytes
    decreases SizeElems(elems), 2
  {
    if elems == [] then [] else EncElem(elems[0].name, elems[0].value) + EncElems(elems[1..])
  }

  function EncItems(items: seq<Value>, k: nat): Bytes
    decreases SizeItems(items), 2
  {
    if items == [] then [] else EncElem(Itoa(k), items[0]) + EncItems(items[1..], k + 1)
  }

  function EncDoc(elems: seq<Elem>): Bytes {
    Wrapped(EncElems(elems))
  }

  // ---------- the decoding ----------

  datatype Read<T> = Got(value: T, next: nat) | Corrupted

  function ReadBytes(b: Bytes, i: nat, length: int): (r: Read<Bytes>)
    ensures r.Got? ==> length >= 0 && r.next == i + length <= |b|
  {
    if length < 0 || i + length > |b| then Corrupted else Got(b[i..i + length], i + length)
  }

  function ReadInt32(b: Bytes, i: nat): (r: Read<int>)
    ensures r.Got? ==> r.next == i + 4 <= |b|
  {
    if i + 4 > |b| then Corrupted else Got(Signed(FromLe(b, i, 4), TWO_31), i + 4)
  }

  function ReadInt64(b: Bytes, i: nat): (r: Read<int>)
    ensures r.Got? ==> r.next == i + 8 <= |b|
  {
    if i + 8 > |b| then Corrupted else Got(Signed(FromLe(b, i, 8), TWO_63), i + 8)
  }

  function ReadByte(b: Bytes, i: nat): (r: Read<byte>)
    ensures r.Got? ==> r.next == i + 1 <= |b|
  {
    if i < |b| then Got(b[i], i + 1) else Corrupted
  }

  // The bytes before the next zero.
  function ReadCStr(b: Bytes, i: nat): (r: Read<Bytes>)
    ensures r.Got? ==> i < r.next <= |b|
    decreases |b| - i
  {
    if i >= |b| then Corrupted
    else if b[i] == 0 then Got([], i + 1)
    else match ReadCStr(b, i + 1)
      case Got(s, next) => Got([b[i]] + s, next)
      case Corrupted => Corrupted
  }

  function ReadStr(b: Bytes, i: nat): (r: Read<Bytes>)
    ensures r.Got? ==> i < r.next <= |b|
  {
    match ReadInt32(b, i)
    case Corrupted => Corrupted
    case Got(l, j) =>
      match ReadBytes(b, j, l - 1)
      case Corrupted => Corrupted
      case Got(s, k) =>
        match ReadByte(b, k)
        case Corrupted => Corrupted
        case Got(zero, next) => if zero == 0 then Got(s, next) else Corrupted
  }

  // Kinds 0 and 2 come back without their kind.
  function ReadBinary(b: Bytes, i: nat): (r: Read<Value>)
    ensures r.Got? ==> i < r.next <= |b|
  {
    match ReadInt32(b, i)
    case Corrupted => Corrupted
    case Got(l, j) =>
      match ReadByte(b, j)
      case Corrupted => Corrupted
      case Got(kind, k) =>
        match ReadBytes(b, k, l)
        case Corrupted => Corrupted
        case Got(data, next) =>
          var stripped := if kind == 0x02 && |data| >= 4 then data[4..] else data;
          Got(if kind == 0x00 || kind == 0x02 then Raw(stripped) else Binary(kind, stripped), next)
  }

  function ReadRegEx(b: Bytes, i: nat): (r: Read<Value>)
    ensures r.Got? ==> i < r.next <= |b|
  {
    match ReadCStr(b, i)
    case Corrupted => Corrupted
    case Got(pattern, j) =>
      match ReadCStr(b, j)
      case Corrupted => Corrupted
      case Got(options, next) => Got(RegEx(pattern, options), next)
  }

  function ReadDBPointer(b: Bytes, i: nat): (r: Read<Value>)
    ensures r.Got? ==> i < r.next <= |b|
  {
    match ReadStr(b, i)
    case Corrupted => Corrupted
    case Got(namespace, j) =>
      match ReadBytes(b, j, 12)
      case Corrupted => Corrupted
      case Got(id, next) => Got(DBPointer(namespace, id), next)
  }

  // The values that hold no others.
  function ReadLeaf(b: Bytes, kind: byte, i: nat): (r: Read<Value>)
    requires i <= |b|
    ensures r.Got? ==> i <= r.next <= |b|
  {
    if kind == 0x01 then (match ReadInt64(b, i) case Got(n, j) => Got(Double(n % TWO_64), j) case Corrupted => Corrupted)
    else if kind == 0x02 then (match ReadStr(b, i) case Got(s, j) => Got(String(s), j) case Corrupted => Corrupted)
    else if kind == 0x05 then ReadBinary(b, i)
    else if kind == 0x06 then Got(Undefined, i)
    else if kind == 0x07 then (match ReadBytes(b, i, 12) case Got(s, j) => Got(ObjectId(s), j) case Corrupted => Corrupted)
    else if kind == 0x08 then (match ReadByte(b, i) case Got(x, j) => Got(Bool(x == 1), j) case Corrupted => Corrupted)
    else if kind == 0x09 then (match ReadInt64(b, i) case Got(n, j) => Got(DateTime(n), j) case Corrupted => Corrupted)
    else if kind == 0x0A then Got(Null, i)
    else if kind == 0x0B then ReadRegEx(b, i)
    else if kind == 0x0C then ReadDBPointer(b, i)
    else if kind == 0x0D then (match ReadStr(b, i) case Got(s, j) => Got(JavaScript(s), j) case Corrupted => Corrupted)
    else if kind == 0x0E then (match ReadStr(b, i) case Got(s, j) => Got(Symbol(s), j) case Corrupted => Corrupted)
    else if kind == 0x10 then (match ReadInt32(b, i) case Got(n, j) => Got(Int32(n), j) case Corrupted => Corrupted)
    else if kind == 0x11 then (match ReadInt64(b, i) case Got(n, j) => Got(Timestamp(n), j) case Corrupted => Corrupted)
    else if kind == 0x12 then (match ReadInt64(b, i) case Got(n, j) => Got(Int64(n), j) case Corrupted => Corrupted)
    else if kind == 0x7F then Got(MaxKey, i)
    else if kind == 0xFF then Got(MinKey, i)
    else Corrupted
  }

  // Where a document that starts at i ends, if its length fits.
  function DocEnd(b: Bytes, i: nat): (r: Read<nat>)
    ensures r.Got? ==> r.next == i + 4 < r.value <= |b|
  {
    match ReadInt32(b, i)
    case Corrupted => Corrupted
    case Got(l, j) =>
      var end := l + i;
      if end <= j || end > |b| || b[end - 1] != 0 then Corrupted else Got(end, j)
  }

  function ReadValue(b: Bytes, kind: byte, i: nat): (r: Read<Value>)
    requires i <= |b|
    ensures r.Got? ==> i <= r.next <= |b|
    decreases |b| - i, 2
  {
    if kind == 0x03 then (match ReadDoc(b, i) case Got(elems, j) => Got(Document(elems), j) case Corrupted => Corrupted)
    else if kind == 0x04 then
      (match DocEnd(b, i)
       case Corrupted => Corrupted
       case Got(end, j) =>
         match ReadItems(b, j, end)
         case Got(items, next) => Got(Array(items), next)
         case Corrupted => Corrupted)
    else ReadLeaf(b, kind, i)
  }

  function ReadDoc(b: Bytes, i: nat): (r: Read<seq<Elem>>)
    requires i <= |b|
    ensures r.Got? ==> i <= r.next <= |b|
    decreases |b| - i, 1
  {
    match DocEnd(b, i)
    case Corrupted => Corrupted
    case Got(end, j) => ReadElems(b, j, end)
  }

  function ReadElems(b: Bytes, i: nat, end: nat): (r: Read<seq<Elem>>)
    requires i < end <= |b|
    ensures r.Got? ==> r.next == end
    decreases |b| - i, 0
  {
    if b[i] == 0 then (if i + 1 == end then Got([], end) else Corrupted)
    else
      match ReadCStr(b, i + 1)
      case Corrupted => Corrupted
      case Got(name, j) =>
        if j >= end then Corrupted else
        match ReadValue(b, b[i], j)
        case Corrupted => Corrupted
        case Got(v, k) =>
          if k >= end then Corrupted else
          match ReadElems(b, k, end)
          case Corrupted => Corrupted
          case Got(rest, next) => Got([Elem(name, v)] + rest, next)
  }

  // The names of the items are skipped, not looked at.
  function SkipName(b: Bytes, i: nat, end: nat): (j: nat)
    requires i <= end <= |b|
    ensures i <= j <= end && (j < end ==> b[j] == 0)
    decreases end - i
  {
    if i < end && b[i] != 0 then SkipName(b, i + 1, end) else i
  }

  function ReadItems(b: Bytes, i: nat, end: nat): (r: Read<seq<Value>>)
    requires i < end <= |b|
    ensures r.Got? ==> r.next == end
    decreases |b| - i, 0
  {
    if b[i] == 0 then (if i + 1 == end then Got([], end) else Corrupted)
    else
      var j := SkipName(b, i + 1, end);
      if j >= end then Corrupted else
      match ReadValue(b, b[i], j + 1)
      case Corrupted => Corrupted
      case Got(v, k) =>
        if k >= end then Corrupted else
        match ReadItems(b, k, end)
        case Corrupted => Corrupted
        case Got(rest, next) => Got([v] + rest, next)
  }

  // ---------- the round trip ----------

  // What comes back: the binary kinds 0 and 2 are plain bytes then.
  function Norm(v: Value): Value
    decreases Size(v), 0
  {
    match v
    case Document(elems) => Document(NormElems(elems))
    case Array(items) => Array(NormItems(items))
    case Binary(kind, data) => if kind == 0x00 || kind == 0x02 then Raw(data) else v
    case _ => v
  }

  function NormElems(elems: seq<Elem>): seq<Elem>
    decreases SizeElems(elems), 1
  {
    if elems == [] then [] else [Elem(elems[0].name, Norm(elems[0].value))] + NormElems(elems[1..])
  }

  function NormItems(items: seq<Value>): seq<Value>
    decreases SizeItems(items), 1
  {
    if items == [] then [] else [Norm(items[0])] + NormItems(items[1..])
  }

  lemma Int32Back(b: Bytes, i: nat, n: int)
    requires Has(b, i, Le32(n)) && IsInt32(n)
    ensures ReadInt32(b, i) == Got(n, i + 4)
  {
    Powers();
    LeBack(b, i, n % TWO_32, 4);
    hide Has, Le, FromLe;
  }

  lemma SignedBack(n: int)
    ensures IsInt64(n) ==> Signed(n % TWO_64, TWO_63) == n
    ensures 0 <= n < TWO_64 ==> Signed(n % TWO_64, TWO_63) % TWO_64 == n
  {
    if -TWO_63 <= n < 0 { assert n % TWO_64 == n + TWO_64; }
  }

  lemma Int64Back(b: Bytes, i: nat, n: int)
    requires Has(b, i, Le64(n))
    ensures IsInt64(n) ==> ReadInt64(b, i) == Got(n, i + 8)
    ensures 0 <= n < TWO_64 ==> ReadInt64(b, i).Got? && ReadInt64(b, i).value % TWO_64 == n && ReadInt64(b, i).next == i + 8
  {
    hide Has, Le, FromLe, Signed;
    Powers();
    LeBack(b, i, n % TWO_64, 8);
    SignedBack(n);
  }

  lemma BytesBack(b: Bytes, i: nat, s: Bytes)
    requires Has(b, i, s)
    ensures ReadBytes(b, i, |s|) == Got(s, i + |s|)
  {
  }

  lemma {:induction false} CStrBack(b: Bytes, i: nat, s: Bytes)
    requires Has(b, i, EncCStr(s)) && NoNul(s)
    ensures ReadCStr(b, i) == Got(s, i + |s| + 1)
    decreases |s|
  {
    if s == [] {
      assert [] + [0] == [0] + [];
      HasFirst(b, i, 0, []);
    } else {
      assert s + [0] == [s[0]] + (s[1..] + [0]);
      HasFirst(b, i, s[0], s[1..] + [0]);
      CStrBack(b, i + 1, s[1..]);
      assert [s[0]] + s[1..] == s;
    }
  }

  lemma {:induction false} SkipBack(b: Bytes, i: nat, s: Bytes, end: nat)
    requires Has(b, i, EncCStr(s)) && NoNul(s) && i + |s| < end <= |b|
    ensures SkipName(b, i, end) == i + |s|
    decreases |s|
  {
    if s == [] {
      assert [] + [0] == [0] + [];
      HasFirst(b, i, 0, []);
    } else {
      assert s + [0] == [s[0]] + (s[1..] + [0]);
      HasFirst(b, i, s[0], s[1..] + [0]);
      SkipBack(b, i + 1, s[1..], end);
    }
  }

  lemma StrBack(b: Bytes, i: nat, s: Bytes)
    requires Has(b, i, EncStr(s)) && |EncStr(s)| < TWO_31
    ensures ReadStr(b, i) == Got(s, i + |EncStr(s)|)
  {
    HasSplit(b, i, Le32(|s| + 1), EncCStr(s));
    HasSplit(b, i + 4, s, [0]);
    assert [0] == [0] + [];
    HasFirst(b, i + 4 + |s|, 0, []);
    Int32Back(b, i, |s| + 1);
    BytesBack(b, i + 4, s);
    hide Has, ReadInt32, ReadBytes;
  }

  lemma BinaryBack(b: Bytes, i: nat, kind: byte, data: Bytes)
    requires Has(b, i, EncBinary(kind, data)) && |EncBinary(kind, data)| < TWO_31
    ensures ReadBinary(b, i) == Got(if kind == 0x00 || kind == 0x02 then Raw(data) else Binary(kind, data), i + |EncBinary(kind, data)|)
  {
    hide Has, ReadInt32, ReadByte, ReadBytes, Le32, EncBinary;
    var stored := if kind == 0x02 then Le32(|data|) + data else data;
    BinaryStored(kind, data, stored);
    BinaryReads(b, i, kind, stored);
    assert kind == 0x02 ==> stored[4..] == data;
  }

  lemma BinaryStored(kind: byte, data: Bytes, stored: Bytes)
    requires stored == if kind == 0x02 then Le32(|data|) + data else data
    ensures EncBinary(kind, data) == Le32(|stored|) + ([kind] + stored) && |EncBinary(kind, data)| == 5 + |stored|
    ensures kind == 0x02 ==> |stored| == 4 + |data|
  {
    hide Le32;
    Eight(|data|);
    Eight(|stored|);
  }

  lemma BinaryReads(b: Bytes, i: nat, kind: byte, stored: Bytes)
    requires Has(b, i, Le32(|stored|) + ([kind] + stored)) && |stored| < TWO_31
    ensures ReadInt32(b, i) == Got(|stored|, i + 4) && ReadByte(b, i + 4) == Got(kind, i + 5)
    ensures ReadBytes(b, i + 5, |stored|) == Got(stored, i + 5 + |stored|)
  {
    hide Has, ReadInt32, ReadBytes, Le32;
    Eight(|stored|);
    HasSplit(b, i, Le32(|stored|), [kind] + stored);
    HasFirst(b, i + 4, kind, stored);
    Int32Back(b, i, |stored|);
    BytesBack(b, i + 5, stored);
  }

  lemma RegExBack(b: Bytes, i: nat, pattern: Bytes, options: Bytes)
    requires Has(b, i, EncCStr(pattern) + EncCStr(options)) && NoNul(pattern) && NoNul(options)
    ensures ReadRegEx(b, i) == Got(RegEx(pattern, options), i + |pattern| + 1 + |options| + 1)
  {
    HasSplit(b, i, EncCStr(pattern), EncCStr(options));
    CStrBack(b, i, pattern);
    CStrBack(b, i + |pattern| + 1, options);
    hide Has, ReadCStr;
  }

  lemma DBPointerBack(b: Bytes, i: nat, namespace: Bytes, id: Bytes)
    requires Has(b, i, EncStr(namespace) + id) && |EncStr(namespace)| < TWO_31 && |id| == 12
    ensures ReadDBPointer(b, i) == Got(DBPointer(namespace, id), i + |EncStr(namespace)| + 12)
  {
    HasSplit(b, i, EncStr(namespace), id);
    StrBack(b, i, namespace);
    BytesBack(b, i + |EncStr(namespace)|, id);
    hide Has, ReadStr, ReadBytes, EncStr;
  }

  predicate Leaf(v: Value) {
    !v.Document? && !v.Array?
  }

  lemma LeafBack(v: Value, b: Bytes, i: nat)
    requires Leaf(v) && Valid(v) && |Payload(v)| < TWO_31 && i <= |b| && Has(b, i, Payload(v))
    ensures ReadLeaf(b, Kind(v), i) == Got(Norm(v), i + |Payload(v)|)
  {
    hide Has, ReadStr, ReadBytes, ReadInt64, ReadInt32, ReadBinary, ReadRegEx, ReadDBPointer, Le64, Le32, EncStr, EncBinary;
    match v
    case Double(bits) => Int64Back(b, i, bits); Eight(bits);
    case String(text) => StrBack(b, i, text);
    case Raw(data) => BinaryBack(b, i, 0, data);
    case Binary(kind, data) => BinaryBack(b, i, kind, data);
    case ObjectId(id) => BytesBack(b, i, id);
    case Bool(x) => assert [if x then 1 else 0] == [if x then 1 else 0] + []; HasFirst(b, i, if x then 1 else 0, []);
    case DateTime(n) => Int64Back(b, i, n); Eight(n);
    case RegEx(pattern, options) => RegExBack(b, i, pattern, options);
    case DBPointer(namespace, id) => DBPointerBack(b, i, namespace, id);
    case JavaScript(code) => StrBack(b, i, code);
    case Symbol(text) => StrBack(b, i, text);
    case Int32(n) => Int32Back(b, i, n); Eight(n);
    case Timestamp(n) => Int64Back(b, i, n); Eight(n);
    case Int64(n) => Int64Back(b, i, n); Eight(n);
    case _ =>
  }

  lemma Eight(n: int)
    ensures |Le64(n)| == 8 && |Le32(n)| == 4
  {
  }

  // A document's length is read back, and leads to its final zero.
  lemma EndBack(b: Bytes, i: nat, body: Bytes)
    requires Has(b, i, Wrapped(body)) && |Wrapped(body)| < TWO_31
    ensures DocEnd(b, i) == Got(i + |body| + 5, i + 4)
    ensures Has(b, i + 4, body + [0]) && i + 4 < i + |body| + 5 <= |b|
  {
    assert Wrapped(body) == Le32(|body| + 5) + (body + [0]);
    HasSplit(b, i, Le32(|body| + 5), body + [0]);
    HasSplit(b, i + 4, body, [0]);
    assert [0] == [0] + [];
    HasFirst(b, i + 4 + |body|, 0, []);
    Int32Back(b, i, |body| + 5);
    hide Has, ReadInt32, Le32;
  }

  // Where the parts of an element stand.
  lemma ElemParts(v: Value, name: Bytes, rest: Bytes, b: Bytes, i: nat)
    requires Has(b, i, EncElem(name, v) + rest)
    ensures var j := i + 1 + |EncCStr(name)|; var k := j + |Payload(v)|;
      && k + |rest| <= |b| && b[i] == Kind(v)
      && Has(b, i + 1, EncCStr(name)) && Has(b, j, Payload(v)) && Has(b, k, rest)
      && i + |EncElem(name, v)| == k
  {
    hide Kind, Payload, EncCStr;
    assert EncElem(name, v) + rest == [Kind(v)] + (EncCStr(name) + (Payload(v) + rest));
    HasFirst(b, i, Kind(v), EncCStr(name) + (Payload(v) + rest));
    HasSplit(b, i + 1, EncCStr(name), Payload(v) + rest);
    HasSplit(b, i + 1 + |EncCStr(name)|, Payload(v), rest);
  }

  lemma ElemsStep(b: Bytes, i: nat, end: nat, name: Bytes, j: nat, v: Value, k: nat, rest: seq<Elem>)
    requires i < j < end && k < end <= |b| && b[i] != 0
    requires ReadCStr(b, i + 1) == Got(name, j) && ReadValue(b, b[i], j) == Got(v, k) && ReadElems(b, k, end) == Got(rest, end)
    ensures ReadElems(b, i, end) == Got([Elem(name, v)] + rest, end)
  {
    hide ReadValue, ReadCStr;
  }

  lemma ItemsStep(b: Bytes, i: nat, end: nat, j: nat, v: Value, k: nat, rest: seq<Value>)
    requires i < j < end && k < end <= |b| && b[i] != 0
    requires SkipName(b, i + 1, end) == j && ReadValue(b, b[i], j + 1) == Got(v, k) && ReadItems(b, k, end) == Got(rest, end)
    ensures ReadItems(b, i, end) == Got([v] + rest, end)
  {
    hide ReadValue, SkipName;
  }

  lemma NoElems(b: Bytes, i: nat, end: nat)
    requires Has(b, i, [] + [0]) && end == i + 1
    ensures end <= |b| && ReadElems(b, i, end) == Got([], end) && ReadItems(b, i, end) == Got([], end)
  {
    assert [] + [0] == [0] + [];
    HasFirst(b, i, 0, []);
  }

  lemma KindNotZero(v: Value)
    ensures Kind(v) != 0
  {
  }

  lemma LeafValue(v: Value, b: Bytes, i: nat)
    requires Leaf(v) && i <= |b|
    ensures ReadValue(b, Kind(v), i) == ReadLeaf(b, Kind(v), i)
  {
    hide ReadLeaf;
  }

  lemma DocumentValue(b: Bytes, i: nat, elems: seq<Elem>, next: nat)
    requires i <= |b| && ReadDoc(b, i) == Got(elems, next)
    ensures ReadValue(b, 0x03, i) == Got(Document(elems), next)
  {
    hide ReadDoc;
  }

  lemma ArrayValue(b: Bytes, i: nat, end: nat, items: seq<Value>)
    requires i + 4 < end <= |b| && DocEnd(b, i) == Got(end, i + 4) && ReadItems(b, i + 4, end) == Got(items, end)
    ensures ReadValue(b, 0x04, i) == Got(Array(items), end)
  {
    hide DocEnd, ReadItems;
  }

  lemma DocStep(b: Bytes, i: nat, end: nat, elems: seq<Elem>)
    requires i + 4 < end <= |b| && DocEnd(b, i) == Got(end, i + 4) && ReadElems(b, i + 4, end) == Got(elems, end)
    ensures ReadDoc(b, i) == Got(elems, end)
  {
    hide DocEnd, ReadElems;
  }

  lemma ElemsParts(elems: seq<Elem>)
    requires elems != []
    ensures var name, v := elems[0].name, elems[0].value;
      && EncElems(elems) == EncElem(name, v) + EncElems(elems[1..])
      && NormElems(elems) == [Elem(name, Norm(v))] + NormElems(elems[1..])
      && SizeElems(elems) == 1 + Size(v) + SizeElems(elems[1..])
      && (ValidElems(elems) ==> NoNul(name) && Valid(v) && ValidElems(elems[1..]))
      && |EncElem(name, v)| == 1 + |EncCStr(name)| + |Payload(v)|
  {
  }

  lemma ItemsParts(items: seq<Value>, k: nat)
    requires items != []
    ensures var v := items[0];
      && EncItems(items, k) == EncElem(Itoa(k), v) + EncItems(items[1..], k + 1)
      && NormItems(items) == [Norm(v)] + NormItems(items[1..])
      && SizeItems(items) == 1 + Size(v) + SizeItems(items[1..])
      && (ValidItems(items) ==> Valid(v) && ValidItems(items[1..]))
      && |EncElem(Itoa(k), v)| == 1 + |EncCStr(Itoa(k))| + |Payload(v)|
  {
  }

  lemma {:induction false} ValueBack(v: Value, b: Bytes, i: nat)
    requires Valid(v) && |Payload(v)| < TWO_31 && i <= |b| && Has(b, i, Payload(v))
    ensures ReadValue(b, Kind(v), i) == Got(Norm(v), i + |Payload(v)|)
    decreases Size(v), 0
  {
    hide Has, DocEnd, ReadElems, ReadItems, ReadDoc, ReadLeaf, ReadValue, EncElems, EncItems, Wrapped;
    if v.Document? {
      DocBack(v.elems, b, i);
      DocumentValue(b, i, NormElems(v.elems), i + |EncDoc(v.elems)|);
    } else if v.Array? {
      EndBack(b, i, EncItems(v.items, 0));
      WrappedLength(EncItems(v.items, 0));
      ItemsBack(v.items, 0, b, i + 4, i + |Payload(v)|);
      ArrayValue(b, i, i + |Payload(v)|, NormItems(v.items));
    } else {
      LeafBack(v, b, i);
      LeafValue(v, b, i);
    }
  }

  lemma WrappedLength(body: Bytes)
    ensures |Wrapped(body)| == |body| + 5
  {
  }

  // Whatever comes before and after it a document decodes to itself, up to the
  // binary kinds, and decoding takes exactly its bytes.
  lemma {:induction false} DocBack(elems: seq<Elem>, b: Bytes, i: nat)
    requires ValidElems(elems) && |EncDoc(elems)| < TWO_31 && i <= |b| && Has(b, i, EncDoc(elems))
    ensures ReadDoc(b, i) == Got(NormElems(elems), i + |EncDoc(elems)|)
    decreases SizeElems(elems), 5
  {
    hide Has, DocEnd, ReadElems, ReadDoc, EncElems, Wrapped, NormElems, ValidElems;
    EndBack(b, i, EncElems(elems));
    WrappedLength(EncElems(elems));
    ElemsBack(elems, b, i + 4, i + |EncDoc(elems)|);
    DocStep(b, i, i + |EncDoc(elems)|, NormElems(elems));
  }

  // The first element: its name is read up to j, its value from there to next,
  // and the other elements come after it.
  lemma FirstElem(elems: seq<Elem>, b: Bytes, i: nat, end: nat) returns (j: nat, next: nat)
    requires elems != [] && ValidElems(elems) && |EncElems(elems)| < TWO_31 && Has(b, i, EncElems(elems) + [0])
    requires end == i + |EncElems(elems)| + 1 <= |b|
    ensures var v := elems[0].value; var rest := EncElems(elems[1..]);
      && i < j < end && next == j + |Payload(v)| && next < end && b[i] == Kind(v) != 0 && ReadCStr(b, i + 1) == Got(elems[0].name, j)
      && Valid(v) && |Payload(v)| < TWO_31 && Has(b, j, Payload(v))
      && ValidElems(elems[1..]) && |rest| < TWO_31 && Has(b, next, rest + [0]) && end == next + |rest| + 1
  {
    hide *;
    ElemsParts(elems);
    var name, v, rest := elems[0].name, elems[0].value, EncElems(elems[1..]);
    assert EncElem(name, v) + rest + [0] == EncElem(name, v) + (rest + [0]);
    ElemParts(v, name, rest + [0], b, i);
    j := i + 1 + |EncCStr(name)|;
    next := j + |Payload(v)|;
    CStrLength(name);
    CStrBack(b, i + 1, name);
    KindNotZero(v);
  }

  lemma {:induction false} ElemsBack(elems: seq<Elem>, b: Bytes, i: nat, end: nat)
    requires ValidElems(elems) && |EncElems(elems)| < TWO_31 && Has(b, i, EncElems(elems) + [0])
    requires end == i + |EncElems(elems)| + 1 <= |b|
    ensures ReadElems(b, i, end) == Got(NormElems(elems), end)
    decreases SizeElems(elems), 4
  {
    hide *;
    if elems == [] {
      NothingThere();
      NoElems(b, i, end);
    } else {
      SmallerParts(elems);
      var j, next := FirstElem(elems, b, i, end);
      ValueBack(elems[0].value, b, j);
      ElemsBack(elems[1..], b, next, end);
      ElemsStep(b, i, end, elems[0].name, j, Norm(elems[0].value), next, NormElems(elems[1..]));
    }
  }

  lemma NothingThere()
    ensures EncElems([]) == [] && NormElems([]) == [] && EncItems([], 0) == [] && NormItems([]) == []
    ensures forall k: nat {:trigger EncItems([], k)} :: EncItems([], k) == []
  {
  }

  lemma SmallerParts(elems: seq<Elem>)
    requires elems != []
    ensures NormElems(elems) == [Elem(elems[0].name, Norm(elems[0].value))] + NormElems(elems[1..])
    ensures Size(elems[0].value) < SizeElems(elems) && SizeElems(elems[1..]) < SizeElems(elems)
  {
  }

  lemma SmallerItems(items: seq<Value>)
    requires items != []
    ensures NormItems(items) == [Norm(items[0])] + NormItems(items[1..])
    ensures Size(items[0]) < SizeItems(items) && SizeItems(items[1..]) < SizeItems(items)
  {
  }

  lemma CStrLength(s: Bytes)
    ensures |EncCStr(s)| == |s| + 1
  {
  }

  // The first item: its name ends at j, its value is read from there to next,
  // and the other items come after it.
  lemma FirstItem(items: seq<Value>, k: nat, b: Bytes, i: nat, end: nat) returns (j: nat, next: nat)
    requires items != [] && ValidItems(items) && |EncItems(items, k)| < TWO_31 && Has(b, i, EncItems(items, k) + [0])
    requires end == i + |EncItems(items, k)| + 1 <= |b|
    ensures var v := items[0]; var rest := EncItems(items[1..], k + 1);
      && i < j < end && next == j + 1 + |Payload(v)| && next < end && b[i] == Kind(v) != 0 && SkipName(b, i + 1, end) == j
      && Valid(v) && |Payload(v)| < TWO_31 && Has(b, j + 1, Payload(v))
      && ValidItems(items[1..]) && |rest| < TWO_31 && Has(b, next, rest + [0]) && end == next + |rest| + 1
  {
    hide *;
    ItemsParts(items, k);
    var name, v, rest := Itoa(k), items[0], EncItems(items[1..], k + 1);
    assert EncElem(name, v) + rest + [0] == EncElem(name, v) + (rest + [0]);
    ElemParts(v, name, rest + [0], b, i);
    j := i + 1 + |name|;
    next := j + 1 + |Payload(v)|;
    CStrLength(name);
    KindNotZero(v);
    SkipBack(b, i + 1, name, end);
  }

  lemma {:induction false} ItemsBack(items: seq<Value>, k: nat, b: Bytes, i: nat, end: nat)
    requires ValidItems(items) && |EncItems(items, k)| < TWO_31 && Has(b, i, EncItems(items, k) + [0])
    requires end == i + |EncItems(items, k)| + 1 <= |b|
    ensures ReadItems(b, i, end) == Got(NormItems(items), end)
    decreases SizeItems(items), 4
  {
    hide *;
    if items == [] {
      NothingThere();
      NoElems(b, i, end);
    } else {
      SmallerItems(items);
      var j, next := FirstItem(items, k, b, i, end);
      ValueBack(items[0], b, j + 1);
      ItemsBack(items[1..], k + 1, b, next, end);
      ItemsStep(b, i, end, j, Norm(items[0]), next, NormItems(items[1..]));
    }
  }

  // ---------- what exactly comes back ----------

  predicate Plain(v: Value)
    decreases Size(v), 0
  {
    match v
    case Document(elems) => PlainElems(elems)
    case Array(items) => PlainItems(items)
    case Binary(kind, data) => kind != 0x00 && kind != 0x02
    case _ => true
  }

  predicate PlainElems(elems: seq<Elem>)
    decreases SizeElems(elems), 1
  {
    elems == [] || (Plain(elems[0].value) && PlainElems(elems[1..]))
  }

  predicate PlainItems(items: seq<Value>)
    decreases SizeItems(items), 1
  {
    items == [] || (Plain(items[0]) && PlainItems(items[1..]))
  }

  lemma {:induction false} NormPlain(v: Value)
    ensures Norm(v) == v <==> Plain(v)
    decreases Size(v), 0
  {
    match v
    case Document(elems) => NormPlainElems(elems);
    case Array(items) => NormPlainItems(items);
    case _ =>
  }

  lemma {:induction false} NormPlainElems(elems: seq<Elem>)
    ensures NormElems(elems) == elems <==> PlainElems(elems)
    decreases SizeElems(elems), 1
  {
    if elems != [] {
      NormPlain(elems[0].value);
      NormPlainElems(elems[1..]);
      assert elems == [elems[0]] + elems[1..];
      assert NormElems(elems)[1..] == NormElems(elems[1..]) && NormElems(elems)[0] == Elem(elems[0].name, Norm(elems[0].value));
    }
  }

  lemma {:induction false} NormPlainItems(items: seq<Value>)
    ensures NormItems(items) == items <==> PlainItems(items)
    decreases SizeItems(items), 1
  {
    if items != [] {
      NormPlain(items[0]);
      NormPlainItems(items[1..]);
      assert items == [items[0]] + items[1..];
      assert NormItems(items)[1..] == NormItems(items[1..]) && NormItems(items)[0] == Norm(items[0]);
    }
  }

  // A document decodes to itself exactly when it holds no binary of kind 0 or 2.
  lemma DocumentRoundTrip(elems: seq<Elem>, after: Bytes)
    requires ValidElems(elems) && |EncDoc(elems)| < TWO_31
    ensures var r := ReadDoc(EncDoc(elems) + after, 0);
      && r.Got? && r.next == |EncDoc(elems)| && r.value == NormElems(elems)
      && (r.value == elems <==> PlainElems(elems))
  {
    hide EncDoc, ReadDoc, NormElems, PlainElems, ValidElems;
    assert (EncDoc(elems) + after)[0..|EncDoc(elems)|] == EncDoc(elems);
    DocBack(elems, EncDoc(elems) + after, 0);
    NormPlainElems(elems);
  }

  // Two documents without such binaries have different encodings.
  lemma EncodingsDiffer(x: seq<Elem>, y: seq<Elem>)
    requires ValidElems(x) && ValidElems(y) && PlainElems(x) && PlainElems(y) && |EncDoc(x)| < TWO_31
    requires EncDoc(x) == EncDoc(y)
    ensures x == y
  {
    hide EncDoc, ReadDoc, NormElems, PlainElems, ValidElems;
    DocumentRoundTrip(x, []);
    DocumentRoundTrip(y, []);
  }
}
