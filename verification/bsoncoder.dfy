// The encoder and the decoder of BSON as they run: one appends to its output
// and goes back to set lengths, the other moves a cursor.

module BsonCoder {
  import opened Bson
  import opened BsonWire

  // The bytes of a 32-bit number, the lowest first.
  lemma Digits(n: int)
    ensures Le32(n) == [n % 256, n / 256 % 256, n / 65536 % 256, n / 16777216 % 256]
  {
    var u := n % TWO_32;
    assert Le(u, 4) == [u % 256] + Le(u / 256, 3);
    assert Le(u / 256, 3) == [u / 256 % 256] + Le(u / 256 / 256, 2);
    assert Le(u / 256 / 256, 2) == [u / 256 / 256 % 256] + Le(u / 256 / 256 / 256, 1);
    assert Le(u / 256 / 256 / 256, 1) == [u / 256 / 256 / 256 % 256] + Le(u / 256 / 256 / 256 / 256, 0);
    LowDigits(n);
  }

  lemma Shifted(x: int, m: int)
    ensures (x + 256 * m) / 256 == x / 256 + m && (x + 256 * m) % 256 == x % 256
  {
  }

  lemma Twice(n: int)
    ensures n / 65536 == n / 256 / 256 && n / 16777216 == n / 256 / 256 / 256
  {
  }

  lemma LowDigits(n: int)
    ensures var u := n % TWO_32;
      u % 256 == n % 256 && u / 256 % 256 == n / 256 % 256 && u / 256 / 256 % 256 == n / 65536 % 256
      && u / 256 / 256 / 256 % 256 == n / 16777216 % 256
  {
    var u, q := n % TWO_32, n / TWO_32;
    assert n == u + 256 * (0x100_0000 * q);
    Shifted(u, 0x100_0000 * q);
    Shifted(u / 256, 0x1_0000 * q);
    Shifted(u / 256 / 256, 0x100 * q);
    Shifted(u / 256 / 256 / 256, q);
    Twice(n);
  }

  class Encoder {
    var out: Bytes

    constructor ()
      ensures out == []
    {
      out := [];
    }

    method AddBytes(s: Bytes)
      modifies this
      ensures out == old(out) + s
    {
      out := out + s;
    }

    method AddInt32(n: int)
      modifies this
      ensures out == old(out) + Le32(n)
    {
      Digits(n);
      AddBytes([n % 256, n / 256 % 256, n / 65536 % 256, n / 16777216 % 256]);
    }

    method AddInt64(n: int)
      modifies this
      ensures out == old(out) + Le64(n)
    {
      var u, k := n % TWO_64, 0;
      ghost var whole := out + Le64(n);
      while k < 8
        invariant 0 <= k <= 8 && 0 <= u && out + Le(u, 8 - k) == whole
      {
        assert Le(u, 8 - k) == [u % 256] + Le(u / 256, 8 - k - 1);
        AddBytes([u % 256]);
        u, k := u / 256, k + 1;
      }
    }

    // Four bytes to be set later.
    method ReserveInt32() returns (pos: nat)
      modifies this
      ensures pos == |old(out)| && out == old(out) + [0, 0, 0, 0]
    {
      pos := |out|;
      AddBytes([0, 0, 0, 0]);
    }

    method SetInt32(pos: nat, n: int)
      requires pos + 4 <= |out|
      modifies this
      ensures out == old(out)[..pos] + Le32(n) + old(out)[pos + 4..]
    {
      Digits(n);
      out := out[pos := n % 256];
      out := out[pos + 1 := n / 256 % 256];
      out := out[pos + 2 := n / 65536 % 256];
      out := out[pos + 3 := n / 16777216 % 256];
    }

    method AddCStr(s: Bytes)
      modifies this
      ensures out == old(out) + EncCStr(s)
    {
      AddBytes(s);
      AddBytes([0]);
    }

    method AddStr(s: Bytes)
      modifies this
      ensures out == old(out) + EncStr(s)
    {
      AddInt32(|s| + 1);
      AddCStr(s);
    }

    method AddBinary(kind: byte, data: Bytes)
      modifies this
      ensures out == old(out) + EncBinary(kind, data)
    {
      hide Le32;
      if kind == 0x02 {
        AddInt32(|data| + 4);
        AddBytes([kind]);
        AddInt32(|data|);
      } else {
        AddInt32(|data|);
        AddBytes([kind]);
      }
      AddBytes(data);
    }

    method AddElemName(kind: byte, name: Bytes)
      modifies this
      ensures out == old(out) + [kind] + EncCStr(name)
    {
      AddBytes([kind]);
      AddBytes(name);
      AddBytes([0]);
    }

    method AddElem(name: Bytes, v: Value)
      modifies this
      ensures out == old(out) + EncElem(name, v)
      ensures Valid(v) && |out| - |old(out)| < 0x8000_0000 ==> ElementIs(out[|old(out)|..], name, v)
      decreases Size(v), 1
    {
      ghost var before := out;
      assert TWO_31 == 0x8000_0000;
      hide *;
      AddElemName(Kind(v), name);
      AddValue(v);
      ElemIs(name, v);
      assert out == before + EncElem(name, v);
      Tail(before, EncElem(name, v));
      if Valid(v) && |out| - |before| < TWO_31 { ElementWire(name, v); }
    }

    method AddValue(v: Value)
      modifies this
      ensures out == old(out) + Payload(v)
      decreases Size(v), 0
    {
      hide EncCStr, EncStr, Le32, Le64, EncBinary, EncElems, EncItems, Wrapped, EncElem, Valid, ValidElems, ValidItems, PayloadIs, DocumentIs;
      ghost var head := out;
      match v {
        case Double(bits) => AddInt64(bits);
        case String(text) => AddStr(text);
        case Document(elems) => AddDoc(elems);
        case Array(items) => AddArray(items);
        case Raw(data) => AddBinary(0, data);
        case Binary(kind, data) => AddBinary(kind, data);
        case ObjectId(id) => AddBytes(id);
        case Bool(b) => AddBytes([if b then 1 else 0]);
        case DateTime(millis) => AddInt64(millis);
        case RegEx(pattern, options) => AddCStr(pattern); AddCStr(options);
        case DBPointer(namespace, id) => AddStr(namespace); AddBytes(id);
        case JavaScript(code) => AddStr(code);
        case Symbol(text) => AddStr(text);
        case Int32(i) => AddInt32(i);
        case Timestamp(i) => AddInt64(i);
        case Int64(i) => AddInt64(i);
        case _ =>
      }
      assert out == head + Payload(v);
    }

    // The length is set when the elements and the final zero are out.
    method AddDoc(elems: seq<Elem>)
      modifies this
      ensures out == old(out) + EncDoc(elems)
      ensures ValidElems(elems) && |out| - |old(out)| < 0x8000_0000 ==> DocumentIs(out[|old(out)|..], elems)
      decreases SizeElems(elems), 5
    {
      hide EncElem, Le32, ValidElems, DocumentIs, Valid, ElementIs;
      ghost var before := out;
      var start := ReserveInt32();
      ghost var head, body := out, EncElems(elems);
      for k := 0 to |elems|
        invariant out + EncElems(elems[k..]) == head + body
      {
        Smaller(elems, k);
        AddElem(elems[k].name, elems[k].value);
      }
      AddBytes([0]);
      Patched(before, body);
      SetInt32(start, |out| - start);
      Tail(before, EncDoc(elems));
      hide DocumentIs, EncDoc;
      if ValidElems(elems) { WireFormat(EncDoc(elems), elems); }
    }

    method AddArray(items: seq<Value>)
      modifies this
      ensures out == old(out) + Wrapped(EncItems(items, 0))
      ensures ValidItems(items) && |out| - |old(out)| < 0x8000_0000 ==> PayloadIs(out[|old(out)|..], Array(items))
      decreases SizeItems(items), 5
    {
      hide EncElem, Le32, Itoa, ValidItems, PayloadIs, Valid, ElementIs;
      ghost var before := out;
      var start := ReserveInt32();
      ghost var head, body := out, EncItems(items, 0);
      for k := 0 to |items|
        invariant out + EncItems(items[k..], k) == head + body
      {
        SmallerItem(items, k);
        AddElem(Itoa(k), items[k]);
      }
      AddBytes([0]);
      Patched(before, body);
      SetInt32(start, |out| - start);
      Tail(before, Wrapped(EncItems(items, 0)));
      hide Wrapped;
      if ValidItems(items) && |out| - |before| < TWO_31 { ArrayWire(items); }
    }
  }

  lemma ElemIs(name: Bytes, v: Value)
    ensures EncElem(name, v) == [Kind(v)] + EncCStr(name) + Payload(v)
  {
    hide Kind, Payload, EncCStr;
  }

  lemma Tail(before: Bytes, s: Bytes)
    ensures (before + s)[|before|..] == s
  {
  }

  lemma {:induction false} Smaller(elems: seq<Elem>, k: nat)
    requires k < |elems|
    ensures Size(elems[k].value) < SizeElems(elems)
    ensures EncElems(elems[k..]) == EncElem(elems[k].name, elems[k].value) + EncElems(elems[k + 1..])
    decreases k
  {
    assert elems[k..][1..] == elems[k + 1..];
    if k > 0 {
      Smaller(elems[1..], k - 1);
    }
  }

  lemma {:induction false} SmallerItem(items: seq<Value>, k: nat)
    requires k < |items|
    ensures Size(items[k]) < SizeItems(items)
    ensures EncItems(items[k..], k) == EncElem(Itoa(k), items[k]) + EncItems(items[k + 1..], k + 1)
    decreases k
  {
    assert items[k..][1..] == items[k + 1..];
    if k > 0 {
      SmallerItem(items[1..], k - 1);
    }
  }

  // Setting the length over the bytes reserved makes the document.
  lemma Patched(before: Bytes, body: Bytes)
    ensures var all := before + [0, 0, 0, 0] + body + [0]; var start := |before|;
      all[..start] + Le32(|all| - start) + all[start + 4..] == before + Wrapped(body)
  {
    var all := before + [0, 0, 0, 0] + body + [0];
    assert all[..|before|] == before && all[|before| + 4..] == body + [0];
  }

  // ---------- the decoder ----------

  // What has been read in front of what is still to be read.
  function Prepend<T>(done: seq<T>, r: Read<seq<T>>): Read<seq<T>> {
    match r
    case Got(rest, next) => Got(done + rest, next)
    case Corrupted => Corrupted
  }

  class Decoder {
    const input: Bytes
    var i: nat

    constructor (input: Bytes)
      ensures this.input == input && i == 0
    {
      this.input, i := input, 0;
    }

    // ok and value say what a function of the position came to, and the cursor
    // stands after it.
    ghost predicate Is<T>(ok: bool, value: T, r: Read<T>)
      reads this
    {
      match r
      case Got(v, next) => ok && value == v && i == next
      case Corrupted => !ok
    }

    method TakeByte() returns (ok: bool, x: byte)
      modifies this
      ensures Is(ok, x, ReadByte(input, old(i)))
    {
      ok, x := i < |input|, 0;
      if ok {
        x := input[i];
        i := i + 1;
      }
    }

    method TakeBytes(length: int) returns (ok: bool, s: Bytes)
      modifies this
      ensures Is(ok, s, ReadBytes(input, old(i), length))
    {
      var start := i;
      ok, s := length >= 0 && i + length <= |input|, [];
      if ok {
        i := i + length;
        s := input[start..start + length];
      }
    }

    method TakeInt32() returns (ok: bool, n: int)
      modifies this
      ensures Is(ok, n, ReadInt32(input, old(i)))
    {
      n := 0;
      var b;
      ok, b := TakeBytes(4);
      if ok {
        var u := b[0] as int + b[1] as int * 256 + b[2] as int * 65536 + b[3] as int * 16777216;
        FourDigits(input, old(i));
        n := if u < TWO_31 then u else u - TWO_32;
      }
    }

    method TakeCStr() returns (ok: bool, s: Bytes)
      requires i <= |input|
      modifies this
      ensures Is(ok, s, ReadCStr(input, old(i)))
    {
      var start, end := i, i;
      ghost var whole := ReadCStr(input, i);
      PrependNone(whole);
      assert input[start..end] == [];
      while end != |input| && input[end] != 0
        invariant start <= end <= |input|
        invariant whole == Prepend(input[start..end], ReadCStr(input, end))
      {
        assert input[start..end + 1] == input[start..end] + [input[end]];
        Regroup(input[start..end], input[end], ReadCStr(input, end + 1));
        end := end + 1;
      }
      ok, s := end + 1 <= |input|, input[start..end];
      if ok {
        assert s + [] == s;
        i := end + 1;
      }
    }

    method TakeStr() returns (ok: bool, s: Bytes)
      modifies this
      ensures Is(ok, s, ReadStr(input, old(i)))
    {
      hide ReadInt32;
      s := [];
      var l, zero;
      ok, l := TakeInt32();
      if !ok {
        return;
      }
      ok, s := TakeBytes(l - 1);
      if !ok {
        return;
      }
      ok, zero := TakeByte();
      ok := ok && zero == 0;
    }

    method TakeBinary() returns (ok: bool, v: Value)
      modifies this
      ensures Is(ok, v, ReadBinary(input, old(i)))
    {
      hide ReadInt32;
      v := Null;
      var l, kind, data;
      ok, l := TakeInt32();
      if !ok {
        return;
      }
      ok, kind := TakeByte();
      if !ok {
        return;
      }
      ok, data := TakeBytes(l);
      if !ok {
        return;
      }
      if kind == 0x02 && |data| >= 4 {
        data := data[4..];
      }
      v := if kind == 0x00 || kind == 0x02 then Raw(data) else Binary(kind, data);
    }

    method TakeInt64() returns (ok: bool, n: int)
      modifies this
      ensures Is(ok, n, ReadInt64(input, old(i)))
    {
      n := 0;
      var b;
      ok, b := TakeBytes(8);
      if ok {
        var u, k := 0, 8;
        while k > 0
          invariant 0 <= k <= 8 && 0 <= u && u == FromLe(input, old(i) + k, 8 - k)
        {
          k := k - 1;
          assert b[k] == input[old(i) + k];
          u := u * 256 + b[k];
        }
        n := if u < TWO_63 then u else u - TWO_64;
      }
    }

    method TakeRegEx() returns (ok: bool, v: Value)
      requires i <= |input|
      modifies this
      ensures Is(ok, v, ReadRegEx(input, old(i)))
    {
      hide ReadCStr;
      v := Null;
      var pattern, options;
      ok, pattern := TakeCStr();
      if !ok {
        return;
      }
      ok, options := TakeCStr();
      v := RegEx(pattern, options);
    }

    method TakeDBPointer() returns (ok: bool, v: Value)
      modifies this
      ensures Is(ok, v, ReadDBPointer(input, old(i)))
    {
      hide ReadStr;
      v := Null;
      var namespace, id;
      ok, namespace := TakeStr();
      if !ok {
        return;
      }
      ok, id := TakeBytes(12);
      v := DBPointer(namespace, id);
    }

    // The values that hold a text.
    method TakeText(kind: byte) returns (ok: bool, v: Value)
      requires kind == 0x02 || kind == 0x0D || kind == 0x0E
      modifies this
      ensures Is(ok, v, ReadText(input, kind, old(i)))
    {
      hide ReadStr;
      var s;
      ok, s := TakeStr();
      v := if kind == 0x02 then String(s) else if kind == 0x0D then JavaScript(s) else Symbol(s);
    }

    // The values that hold a 64-bit number.
    method TakeLong(kind: byte) returns (ok: bool, v: Value)
      requires kind == 0x01 || kind == 0x09 || kind == 0x11 || kind == 0x12
      modifies this
      ensures Is(ok, v, ReadLong(input, kind, old(i)))
    {
      hide ReadInt64;
      var n;
      ok, n := TakeInt64();
      v := if kind == 0x01 then Double(n % TWO_64) else if kind == 0x09 then DateTime(n) else if kind == 0x11 then Timestamp(n) else Int64(n);
    }

    method TakeLeaf(kind: byte) returns (ok: bool, v: Value)
      requires i <= |input|
      modifies this
      ensures Is(ok, v, ReadLeaf(input, kind, old(i)))
    {
      LeafKinds(input, kind, i);
      hide ReadInt32, ReadBinary, ReadRegEx, ReadDBPointer, ReadBytes, ReadLeaf, ReadText, ReadLong;
      ok, v := true, Null;
      if kind == 0x02 || kind == 0x0D || kind == 0x0E {
        ok, v := TakeText(kind);
      } else if kind == 0x01 || kind == 0x09 || kind == 0x11 || kind == 0x12 {
        ok, v := TakeLong(kind);
      } else if kind == 0x05 {
        ok, v := TakeBinary();
      } else if kind == 0x06 {
        v := Undefined;
      } else if kind == 0x07 {
        var id;
        ok, id := TakeBytes(12);
        v := ObjectId(id);
      } else if kind == 0x08 {
        var x;
        ok, x := TakeByte();
        v := Bool(x == 1);
      } else if kind == 0x0A {
        v := Null;
      } else if kind == 0x0B {
        ok, v := TakeRegEx();
      } else if kind == 0x0C {
        ok, v := TakeDBPointer();
      } else if kind == 0x10 {
        var n;
        ok, n := TakeInt32();
        v := Int32(n);
      } else if kind == 0x7F {
        v := MaxKey;
      } else if kind == 0xFF {
        v := MinKey;
      } else {
        ok := false;
      }
    }

    // The length of a document, checked against the input.
    method TakeDocEnd() returns (ok: bool, end: nat)
      modifies this
      ensures Is(ok, end, DocEnd(input, old(i)))
    {
      hide ReadInt32;
      end := 0;
      var l;
      ok, l := TakeInt32();
      if !ok {
        return;
      }
      var e := l + i - 4;
      if e <= i || e > |input| || input[e - 1] != 0 {
        return false, end;
      }
      end := e;
    }

    method TakeValue(kind: byte) returns (ok: bool, v: Value)
      requires i <= |input|
      modifies this
      ensures Is(ok, v, ReadValue(input, kind, old(i)))
      decreases |input| - i, 2
    {
      hide ReadLeaf, ReadItems, ReadDoc, DocEnd;
      v := Null;
      if kind == 0x03 {
        var elems;
        ok, elems := TakeDoc();
        v := Document(elems);
      } else if kind == 0x04 {
        var items;
        ok, items := TakeItems();
        v := Array(items);
      } else {
        ok, v := TakeLeaf(kind);
      }
    }

    method TakeDoc() returns (ok: bool, elems: seq<Elem>)
      requires i <= |input|
      modifies this
      ensures Is(ok, elems, ReadDoc(input, old(i)))
      decreases |input| - i, 1
    {
      hide ReadValue, ReadCStr;
      elems := [];
      var end;
      ok, end := TakeDocEnd();
      if !ok {
        return;
      }
      ghost var whole := ReadElems(input, i, end);
      PrependNone(whole);
      while input[i] != 0
        invariant old(i) < i < end <= |input|
        invariant whole == Prepend(elems, ReadElems(input, i, end))
        decreases |input| - i
      {
        var kind, name, v;
        ok, kind := TakeByte();
        ok, name := TakeCStr();
        if !ok || i >= end {
          return false, elems;
        }
        ok, v := TakeValue(kind);
        if !ok || i >= end {
          return false, elems;
        }
        Regroup(elems, Elem(name, v), ReadElems(input, i, end));
        elems := elems + [Elem(name, v)];
      }
      i := i + 1;
      ok := i == end;
      assert elems + [] == elems;
    }

    method TakeItems() returns (ok: bool, items: seq<Value>)
      requires i <= |input|
      modifies this
      ensures Is(ok, items, match DocEnd(input, old(i)) case Got(end, j) => ReadItems(input, j, end) case Corrupted => Corrupted)
      decreases |input| - i, 1
    {
      hide ReadValue, DocEnd;
      items := [];
      var end;
      ok, end := TakeDocEnd();
      if !ok {
        return;
      }
      ghost var whole := ReadItems(input, i, end);
      PrependNone(whole);
      while input[i] != 0
        invariant old(i) < i < end <= |input|
        invariant whole == Prepend(items, ReadItems(input, i, end))
        decreases |input| - i
      {
        var kind, v;
        ok, kind := TakeByte();
        ghost var j := SkipName(input, i, end);
        while i < end && input[i] != 0
          invariant i <= end && SkipName(input, i, end) == j
        {
          i := i + 1;
        }
        if i >= end {
          return false, items;
        }
        i := i + 1;
        ok, v := TakeValue(kind);
        if !ok || i >= end {
          return false, items;
        }
        Regroup(items, v, ReadItems(input, i, end));
        items := items + [v];
      }
      i := i + 1;
      ok := i == end;
      assert items + [] == items;
    }
  }

  lemma PrependNone<T>(r: Read<seq<T>>)
    ensures Prepend([], r) == r
  {
    if r.Got? { assert [] + r.value == r.value; }
  }

  lemma Regroup<T>(done: seq<T>, x: T, r: Read<seq<T>>)
    ensures Prepend(done + [x], r) == match r case Got(rest, next) => Prepend(done, Got([x] + rest, next)) case Corrupted => Corrupted
  {
    if r.Got? { assert done + [x] + r.value == done + ([x] + r.value); }
  }

  function ReadText(b: Bytes, kind: byte, i: nat): Read<Value> {
    match ReadStr(b, i)
    case Got(s, j) => Got(if kind == 0x02 then String(s) else if kind == 0x0D then JavaScript(s) else Symbol(s), j)
    case Corrupted => Corrupted
  }

  function ReadLong(b: Bytes, kind: byte, i: nat): Read<Value> {
    match ReadInt64(b, i)
    case Got(n, j) =>
      Got(if kind == 0x01 then Double(n % TWO_64) else if kind == 0x09 then DateTime(n) else if kind == 0x11 then Timestamp(n) else Int64(n), j)
    case Corrupted => Corrupted
  }

  lemma LeafKinds(b: Bytes, kind: byte, i: nat)
    requires i <= |b|
    ensures kind == 0x02 || kind == 0x0D || kind == 0x0E ==> ReadLeaf(b, kind, i) == ReadText(b, kind, i)
    ensures kind == 0x01 || kind == 0x09 || kind == 0x11 || kind == 0x12 ==> ReadLeaf(b, kind, i) == ReadLong(b, kind, i)
    ensures kind == 0x05 ==> ReadLeaf(b, kind, i) == ReadBinary(b, i)
    ensures kind == 0x06 ==> ReadLeaf(b, kind, i) == Got(Undefined, i)
    ensures kind == 0x07 ==> ReadLeaf(b, kind, i) == match ReadBytes(b, i, 12) case Got(s, j) => Got(ObjectId(s), j) case Corrupted => Corrupted
    ensures kind == 0x08 ==> ReadLeaf(b, kind, i) == match ReadByte(b, i) case Got(x, j) => Got(Bool(x == 1), j) case Corrupted => Corrupted
    ensures kind == 0x0A ==> ReadLeaf(b, kind, i) == Got(Null, i)
    ensures kind == 0x0B ==> ReadLeaf(b, kind, i) == ReadRegEx(b, i)
    ensures kind == 0x0C ==> ReadLeaf(b, kind, i) == ReadDBPointer(b, i)
    ensures kind == 0x10 ==> ReadLeaf(b, kind, i) == match ReadInt32(b, i) case Got(n, j) => Got(Int32(n), j) case Corrupted => Corrupted
    ensures kind == 0x7F ==> ReadLeaf(b, kind, i) == Got(MaxKey, i)
    ensures kind == 0xFF ==> ReadLeaf(b, kind, i) == Got(MinKey, i)
    ensures kind == 0 || kind == 3 || kind == 4 || kind == 0x0F || 0x12 < kind < 0x7F || 0x7F < kind < 0xFF ==> ReadLeaf(b, kind, i) == Corrupted
  {
  }

  lemma FourDigits(b: Bytes, i: nat)
    requires i + 4 <= |b|
    ensures FromLe(b, i, 4) == b[i] as int + b[i + 1] as int * 256 + b[i + 2] as int * 65536 + b[i + 3] as int * 16777216
  {
    assert FromLe(b, i, 4) == b[i] + 256 * FromLe(b, i + 1, 3);
    assert FromLe(b, i + 1, 3) == b[i + 1] + 256 * FromLe(b, i + 2, 2);
    assert FromLe(b, i + 2, 2) == b[i + 2] + 256 * FromLe(b, i + 3, 1);
    assert FromLe(b, i + 3, 1) == b[i + 3] + 256 * FromLe(b, i + 4, 0);
  }

  // A document through the encoder and the decoder: no check for corruption
  // fires, and it comes back whole unless it holds a binary of kind 0 or 2.
  method Through(elems: seq<Elem>) returns (ok: bool, back: seq<Elem>)
    requires ValidElems(elems) && |EncDoc(elems)| < TWO_31
    ensures ok && back == NormElems(elems) && (back == elems <==> PlainElems(elems))
  {
    hide EncDoc, ReadDoc, NormElems, PlainElems, ValidElems;
    var encoder := new Encoder();
    encoder.AddDoc(elems);
    var decoder := new Decoder(encoder.out);
    DocumentRoundTrip(elems, []);
    assert [] + EncDoc(elems) == EncDoc(elems) == EncDoc(elems) + [];
    ok, back := decoder.TakeDoc();
  }
}
