// A file stored in chunks, written through a buffer and read with a cursor, the
// current chunk's rest and the next chunk fetched ahead.

module GridFs {
  type byte = i: int | 0 <= i < 256

  type Bytes = seq<byte>

  function Min(x: int, y: int): int {
    if x < y then x else y
  }

  // Where chunk n starts.
  function Start(n: nat, size: nat): nat {
    n * size
  }

  // The bytes of chunk n.
  function Piece(bytes: Bytes, size: nat, n: nat): Bytes
    requires Start(n, size) <= |bytes|
  {
    StartNext(n, size);
    bytes[Start(n, size)..Min(Start(n + 1, size), |bytes|)]
  }

  // The chunks of a file, as many as it takes.
  ghost predicate Stored(chunks: map<nat, Bytes>, bytes: Bytes, size: nat) {
    && size > 0
    && (forall n: nat :: n in chunks <==> Start(n, size) < |bytes|)
    && (forall n: nat :: n in chunks ==> chunks[n] == Piece(bytes, size, n))
  }

  // The chunks up to n are stored, and they are full.
  ghost predicate StoredTo(chunks: map<nat, Bytes>, bytes: Bytes, size: nat, n: nat) {
    && size > 0 && Start(n, size) <= |bytes|
    && (forall k: nat :: k in chunks <==> k < n)
    && (forall k: nat :: k in chunks ==> Start(k, size) <= |bytes| && chunks[k] == Piece(bytes, size, k))
  }

  lemma StartMono(n: nat, k: nat, size: nat)
    requires n <= k
    ensures Start(n, size) <= Start(k, size)
  {
  }

  lemma StartNext(n: nat, size: nat)
    ensures Start(n + 1, size) == Start(n, size) + size
  {
  }

  lemma SizePositive(chunks: map<nat, Bytes>, bytes: Bytes, size: nat, n: nat)
    requires StoredTo(chunks, bytes, size, n)
    ensures size > 0
  {
  }

  // More bytes do not change the chunks that are full.
  lemma MoreBytes(chunks: map<nat, Bytes>, bytes: Bytes, more: Bytes, size: nat, n: nat)
    requires StoredTo(chunks, bytes, size, n)
    ensures StoredTo(chunks, bytes + more, size, n)
  {
    hide Start;
    forall k: nat | k in chunks ensures Start(k, size) <= |bytes + more| && chunks[k] == Piece(bytes + more, size, k) {
      StartMono(k + 1, n, size);
      StartNext(k, size);
    }
  }

  // One more full chunk.
  lemma NextFull(chunks: map<nat, Bytes>, bytes: Bytes, size: nat, n: nat)
    requires StoredTo(chunks, bytes, size, n) && Start(n + 1, size) <= |bytes|
    ensures Start(n, size) <= Start(n + 1, size) && StoredTo(chunks[n := bytes[Start(n, size)..Start(n + 1, size)]], bytes, size, n + 1)
  {
    hide Start;
    StartNext(n, size);
  }

  // Which chunks a file has when the first n are full and one more is enough.
  lemma Which(bytes: Bytes, size: nat, n: nat, k: nat)
    requires size > 0 && Start(n, size) <= |bytes| <= Start(n + 1, size)
    ensures Start(k, size) < |bytes| <==> k < n || (k == n && Start(n, size) < |bytes|)
  {
    hide Start;
    StartNext(k, size);
    if k < n { StartMono(k + 1, n, size); } else if k > n { StartMono(n + 1, k, size); }
  }

  // The last chunk takes what is left.
  lemma LastOne(chunks: map<nat, Bytes>, bytes: Bytes, size: nat, n: nat)
    requires StoredTo(chunks, bytes, size, n) && |bytes| <= Start(n + 1, size)
    ensures Start(n, size) == |bytes| ==> Stored(chunks, bytes, size)
    ensures Start(n, size) < |bytes| ==> Stored(chunks[n := bytes[Start(n, size)..]], bytes, size)
  {
    hide Start;
    forall k: nat ensures Start(k, size) < |bytes| <==> k < n || (k == n && Start(n, size) < |bytes|) {
      Which(bytes, size, n, k);
    }
    if Start(n, size) < |bytes| { assert bytes[Start(n, size)..] == Piece(bytes, size, n); }
  }

  lemma Within(x: nat, size: nat)
    requires size > 0
    ensures Start(x / size, size) <= x < Start(x / size + 1, size)
  {
  }

  // rest is what comes after the first n chunks.
  ghost predicate Waits(bytes: Bytes, size: nat, n: nat, rest: Bytes) {
    Start(n, size) <= |bytes| && rest == bytes[Start(n, size)..]
  }

  lemma WaitsMore(bytes: Bytes, size: nat, n: nat, rest: Bytes, more: Bytes)
    requires Waits(bytes, size, n, rest)
    ensures Waits(bytes + more, size, n, rest + more)
  {
    hide Start;
  }

  // A full chunk of it can go out.
  lemma WaitsFull(chunks: map<nat, Bytes>, bytes: Bytes, size: nat, n: nat, rest: Bytes)
    requires StoredTo(chunks, bytes, size, n) && Waits(bytes, size, n, rest) && |rest| >= size
    ensures StoredTo(chunks[n := rest[..size]], bytes, size, n + 1) && Waits(bytes, size, n + 1, rest[size..])
  {
    hide Start, StoredTo;
    StartNext(n, size);
    NextFull(chunks, bytes, size, n);
    assert rest[..size] == bytes[Start(n, size)..Start(n + 1, size)];
    assert rest[size..] == bytes[Start(n + 1, size)..];
  }

  lemma WaitsLast(chunks: map<nat, Bytes>, bytes: Bytes, size: nat, n: nat, rest: Bytes)
    requires StoredTo(chunks, bytes, size, n) && Waits(bytes, size, n, rest) && |rest| <= size
    ensures Stored(if rest == [] then chunks else chunks[n := rest], bytes, size)
  {
    hide Start, StoredTo, Stored;
    StartNext(n, size);
    LastOne(chunks, bytes, size, n);
  }

  // rest is what is left from offset on of the chunks before n.
  ghost predicate Fetched(bytes: Bytes, size: nat, n: nat, offset: nat, rest: Bytes) {
    offset <= Min(Start(n, size), |bytes|) && rest == bytes[offset..Min(Start(n, size), |bytes|)]
  }

  datatype Mode = Writing | Reading | Closed

  datatype Whence = FromStart | FromCurrent | FromEnd

  datatype Cache = NoCache | Cached(n: nat, data: Bytes)

  class GridFile {
    const chunkSize: nat
    // The chunks stored for the file.
    var chunks: map<nat, Bytes>
    var mode: Mode
    var length: nat
    var chunk: nat
    var offset: nat
    var wbuf: Bytes
    var rbuf: Bytes
    var rcache: Cache
    // The file as one string of bytes.
    ghost var bytes: Bytes

    // While writing: the full chunks are stored and the rest waits, at most one
    // full chunk of it.
    ghost predicate Writable()
      reads this
    {
      && mode == Writing && length == |bytes| && |wbuf| <= chunkSize
      && StoredTo(chunks, bytes, chunkSize, chunk) && Waits(bytes, chunkSize, chunk, wbuf)
    }

    // What does not change while reading, but for what was fetched ahead, and
    // that is what is stored.
    ghost predicate Steady()
      reads this`chunks, this`mode, this`length, this`rcache, this`bytes
    {
      && chunkSize > 0 && mode == Reading && length == |bytes| && Stored(chunks, bytes, chunkSize)
      && (rcache.Cached? ==> rcache.n in chunks && rcache.data == chunks[rcache.n])
    }

    // Unless at the end, rbuf is the rest of the current chunk.
    ghost predicate Readable()
      reads this
    {
      Steady() && offset <= length && (offset == length || Fetched(bytes, chunkSize, chunk, offset, rbuf))
    }

    constructor Create(size: nat)
      requires size > 0
      ensures Writable() && chunkSize == size && bytes == []
    {
      chunkSize, chunks, mode, length, chunk, offset := size, map[], Writing, 0, 0, 0;
      wbuf, rbuf, rcache, bytes := [], [], NoCache, [];
    }

    constructor Open(chunks: map<nat, Bytes>, size: nat, length: nat, ghost bytes: Bytes)
      requires Stored(chunks, bytes, size) && length == |bytes|
      ensures Readable() && chunkSize == size && this.bytes == bytes && offset == 0
    {
      chunkSize, this.chunks, mode, this.length, chunk, offset := size, chunks, Reading, length, 0, 0;
      wbuf, rbuf, rcache, this.bytes := [], [], NoCache, bytes;
    }

    method InsertChunk(data: Bytes)
      modifies this`chunk, this`chunks
      ensures chunk == old(chunk) + 1 && chunks == old(chunks)[old(chunk) := data]
    {
      chunks := chunks[chunk := data];
      chunk := chunk + 1;
    }

    method Write(data: Bytes) returns (n: nat)
      requires Writable()
      modifies this`chunk, this`chunks, this`wbuf, this`length, this`bytes
      ensures Writable() && bytes == old(bytes) + data && n == |data|
    {
      hide StoredTo, Waits, Start;
      n := |data|;
      length := length + n;
      MoreBytes(chunks, bytes, data, chunkSize, chunk);
      WaitsMore(bytes, chunkSize, chunk, wbuf, data);
      bytes := bytes + data;
      if |wbuf| + |data| < chunkSize {
        wbuf := wbuf + data;
        return;
      }
      SizePositive(chunks, bytes, chunkSize, chunk);
      var rest := data;
      if |wbuf| > 0 {
        var missing := chunkSize - |wbuf|;
        if missing > |rest| {
          missing := |rest|;
        }
        assert wbuf + rest[..missing] == (wbuf + rest)[..chunkSize] && rest[missing..] == (wbuf + rest)[chunkSize..];
        WaitsFull(chunks, bytes, chunkSize, chunk, wbuf + rest);
        InsertChunk(wbuf + rest[..missing]);
        rest := rest[missing..];
        wbuf := [];
      } else {
        assert wbuf + rest == rest;
      }
      WriteChunks(rest);
    }

    // Sends out the full chunks but the last and keeps the rest.
    method WriteChunks(data: Bytes)
      requires wbuf == [] && chunkSize > 0 && mode == Writing && length == |bytes|
      requires StoredTo(chunks, bytes, chunkSize, chunk) && Waits(bytes, chunkSize, chunk, data)
      modifies this`chunk, this`chunks, this`wbuf
      ensures Writable()
    {
      hide StoredTo, Waits, Start;
      var rest := data;
      while |rest| > chunkSize
        invariant wbuf == [] && StoredTo(chunks, bytes, chunkSize, chunk) && Waits(bytes, chunkSize, chunk, rest)
        decreases |rest|
      {
        WaitsFull(chunks, bytes, chunkSize, chunk, rest);
        InsertChunk(rest[..chunkSize]);
        rest := rest[chunkSize..];
      }
      wbuf := wbuf + rest;
      assert wbuf == rest;
    }

    // What is left goes out as the last chunk.
    method Close()
      requires Writable()
      modifies this
      ensures mode == Closed && bytes == old(bytes) && length == |bytes| && Stored(chunks, bytes, chunkSize)
    {
      hide StoredTo, Stored, Start, Waits;
      WaitsLast(chunks, bytes, chunkSize, chunk, wbuf);
      if |wbuf| > 0 {
        InsertChunk(wbuf);
        wbuf := [];
      }
      mode := Closed;
    }

    // The chunk at hand, from ahead if it is there; then the next is fetched.
    method GetChunk() returns (data: Bytes)
      requires Steady() && chunk in chunks
      modifies this`chunk, this`rcache
      ensures Steady() && chunk == old(chunk) + 1 && data == chunks[old(chunk)]
    {
      var cache := rcache;
      rcache := NoCache;
      if cache.Cached? && cache.n == chunk {
        data := cache.data;
      } else {
        data := chunks[chunk];
      }
      chunk := chunk + 1;
      if Start(chunk, chunkSize) < length {
        HasChunk(chunks, bytes, chunkSize, chunk);
        rcache := Cached(chunk, chunks[chunk]);
      }
    }

    // The position asked for; one before the start is not allowed.
    function Target(delta: int, whence: Whence): int
      reads this`offset, this`length
    {
      match whence
      case FromStart => delta
      case FromCurrent => delta + offset
      case FromEnd => delta + length
    }

    method Seek(delta: int, whence: Whence) returns (pos: nat, ok: bool)
      requires Readable() && Target(delta, whence) >= 0
      modifies this`offset, this`chunk, this`rbuf, this`rcache
      ensures Readable() && bytes == old(bytes)
      ensures ok == (old(Target(delta, whence)) <= length)
      ensures offset == if ok then old(Target(delta, whence)) else old(offset)
      ensures pos == offset
      ensures whence == FromStart && delta <= length ==> offset == delta
      ensures whence == FromCurrent && old(offset) + delta <= length ==> offset == old(offset) + delta
      ensures whence == FromEnd && delta <= 0 ==> offset == length + delta
      ensures whence == FromEnd && delta > 0 ==> !ok
    {
      hide Readable;
      LengthIs();
      var target: nat := match whence case FromStart => delta case FromCurrent => delta + offset case FromEnd => delta + length;
      if target > length {
        return offset, false;
      }
      if target == length {
        offset := target;
        EndReadable();
        return offset, true;
      }
      MoveTo(target);
      return offset, true;
    }

    // Going to the end leaves everything else as it is.
    twostate lemma EndReadable()
      requires old(Readable()) && offset == length
      requires unchanged(`chunks, `mode, `length, `chunk, `rbuf, `rcache, `bytes)
      ensures Readable()
    {
    }

    lemma LengthIs()
      requires Readable()
      ensures length == |bytes| && offset <= length && chunkSize > 0
    {
    }

    // Moves inside the chunk at hand if it can, or else fetches the chunk.
    method MoveTo(target: nat)
      requires Readable() && target < length
      modifies this`offset, this`chunk, this`rbuf, this`rcache
      ensures Readable() && offset == target
    {
      hide Start, Stored, Readable;
      LengthIs();
      var c := target / chunkSize;
      Within(target, chunkSize);
      if c + 1 == chunk && target >= offset {
        SkipTo(target);
      } else {
        FetchAt(target, c);
      }
    }

    method SkipTo(target: nat)
      requires Readable() && offset <= target < length && target < Start(chunk, chunkSize)
      modifies this`offset, this`rbuf
      ensures Readable() && offset == target
    {
      hide Start, Steady, Fetched;
      SteadyMeans();
      FetchedSkips(bytes, chunkSize, chunk, offset, rbuf, target - offset);
      rbuf := rbuf[target - offset..];
      offset := target;
    }

    method FetchAt(target: nat, c: nat)
      requires Readable() && Start(c, chunkSize) <= target < length && target < Start(c + 1, chunkSize)
      modifies this`offset, this`chunk, this`rbuf, this`rcache
      ensures Readable() && offset == target
    {
      hide Start, Steady, Fetched;
      SteadyMeans();
      ChunkFetched(chunks, bytes, chunkSize, c, target);
      offset, chunk, rbuf := target, c, [];
      var data := GetChunk();
      rbuf := data[target - Start(c, chunkSize)..];
    }

    lemma SteadyMeans()
      requires Steady()
      ensures chunkSize > 0 && length == |bytes| && Stored(chunks, bytes, chunkSize)
    {
    }

    // Reads into b, up to the end of the file; eof says that it was there.
    method Read(b: array<byte>) returns (n: nat, eof: bool)
      requires Readable()
      modifies this`offset, this`chunk, this`rbuf, this`rcache, b
      ensures Readable() && bytes == old(bytes)
      ensures eof == (old(offset) == length)
      ensures n == Min(b.Length, length - old(offset)) && offset == old(offset) + n
      ensures b[..] == bytes[old(offset)..offset] + old(b[..])[n..]
    {
      hide Start, Steady, Fetched, Holds;
      SteadyMeans();
      n, eof := 0, offset == length;
      ghost var first, before := offset, b[..];
      HoldsNone(before, bytes, first);
      if !eof {
        n := ReadOn(b, before);
      }
      HoldsMeans(b[..], before, bytes, first, n);
    }

    // Chunk after chunk until b is full or the file at its end.
    method ReadOn(b: array<byte>, ghost before: Bytes) returns (n: nat)
      requires Steady() && offset < length && Fetched(bytes, chunkSize, chunk, offset, rbuf)
      requires |before| == b.Length && Holds(b[..], before, bytes, offset, 0)
      modifies this`offset, this`chunk, this`rbuf, this`rcache, b
      ensures Steady() && offset <= length && (offset == length || Fetched(bytes, chunkSize, chunk, offset, rbuf))
      ensures Holds(b[..], before, bytes, old(offset), n) && offset == old(offset) + n
      ensures n <= b.Length && (n == b.Length || offset == length)
    {
      hide Start, Steady, Fetched, Holds;
      n := 0;
      while true
        invariant Steady() && offset < length && Fetched(bytes, chunkSize, chunk, offset, rbuf)
        invariant n <= b.Length && offset == old(offset) + n && Holds(b[..], before, bytes, old(offset), n)
        decreases length - offset, if |rbuf| == 0 then 1 else 0
      {
        n := TakeRest(b, n, before, old(offset));
        if n == b.Length || offset == length {
          break;
        }
        SteadyMeans();
        NextChunk(chunks, bytes, chunkSize, chunk, offset, rbuf);
        rbuf := GetChunk();
      }
    }

    // Copies what fits of rbuf and drops it there.
    method TakeRest(b: array<byte>, n: nat, ghost before: Bytes, ghost first: nat) returns (n': nat)
      requires Steady() && offset < length && Fetched(bytes, chunkSize, chunk, offset, rbuf)
      requires n <= b.Length == |before| && offset == first + n && Holds(b[..], before, bytes, first, n)
      modifies this`offset, this`rbuf, b
      ensures Steady() && offset <= length && Fetched(bytes, chunkSize, chunk, offset, rbuf)
      ensures n' <= b.Length && offset == first + n' && Holds(b[..], before, bytes, first, n')
      ensures n' == n + Min(b.Length - n, |old(rbuf)|) && |rbuf| == |old(rbuf)| - (n' - n)
    {
      hide Start, Steady, Fetched, Holds;
      SteadyMeans();
      ghost var now, part := b[..], rbuf;
      var i := Copy(b, n);
      FetchedSkips(bytes, chunkSize, chunk, offset, rbuf, i);
      Filled(now, before, bytes, first, n, part, i);
      n', offset, rbuf := n + i, offset + i, rbuf[i..];
    }

    // Copies what fits of rbuf into b from n on.
    method Copy(b: array<byte>, n: nat) returns (i: nat)
      requires n <= b.Length
      modifies b
      ensures i == Min(b.Length - n, |rbuf|) && b[..] == old(b[..])[..n] + rbuf[..i] + old(b[..])[n + i..]
    {
      i := Min(b.Length - n, |rbuf|);
      forall k | 0 <= k < i {
        b[n + k] := rbuf[k];
      }
    }
  }

  // A buffer that was before, filled with n bytes of the file.
  predicate Holds(now: Bytes, before: Bytes, bytes: Bytes, first: nat, n: nat) {
    first + n <= |bytes| && n <= |before| && now == bytes[first..first + n] + before[n..]
  }

  lemma HoldsNone(before: Bytes, bytes: Bytes, first: nat)
    requires first <= |bytes|
    ensures Holds(before, before, bytes, first, 0)
  {
  }

  lemma HoldsMeans(now: Bytes, before: Bytes, bytes: Bytes, first: nat, n: nat)
    requires Holds(now, before, bytes, first, n)
    ensures first + n <= |bytes| && n <= |before| && now == bytes[first..first + n] + before[n..]
  {
  }

  // With i bytes more.
  lemma Filled(now: Bytes, before: Bytes, bytes: Bytes, first: nat, n: nat, part: Bytes, i: nat)
    requires Holds(now, before, bytes, first, n)
    requires first + n + i <= |bytes| && n + i <= |before| && i <= |part| && part[..i] == bytes[first + n..first + n + i]
    ensures n + i <= |now| && Holds(now[..n] + part[..i] + now[n + i..], before, bytes, first, n + i)
  {
  }

  // Dropping k bytes of the rest.
  lemma FetchedSkips(bytes: Bytes, size: nat, n: nat, offset: nat, rest: Bytes, k: nat)
    requires Fetched(bytes, size, n, offset, rest)
    requires k <= |rest| || (offset + k < |bytes| && offset + k < Start(n, size))
    ensures k <= |rest| && offset + k <= |bytes| && rest[..k] == bytes[offset..offset + k]
    ensures Fetched(bytes, size, n, offset + k, rest[k..])
  {
    hide Start;
    var to := Min(Start(n, size), |bytes|);
    assert bytes[offset..to][..k] == bytes[offset..offset + k] && bytes[offset..to][k..] == bytes[offset + k..to];
  }

  // Chunk c leads to any position inside it.
  lemma ChunkFetched(chunks: map<nat, Bytes>, bytes: Bytes, size: nat, c: nat, target: nat)
    requires Stored(chunks, bytes, size) && Start(c, size) <= target < |bytes| && target < Start(c + 1, size)
    ensures c in chunks && target - Start(c, size) <= |chunks[c]|
    ensures Fetched(bytes, size, c + 1, target, chunks[c][target - Start(c, size)..])
  {
    hide Start;
  }

  lemma HasChunk(chunks: map<nat, Bytes>, bytes: Bytes, size: nat, n: nat)
    requires Stored(chunks, bytes, size) && Start(n, size) < |bytes|
    ensures n in chunks && chunks[n] == Piece(bytes, size, n)
  {
  }

  // At the end of a chunk that is not the last the next one is there.
  lemma NextChunk(chunks: map<nat, Bytes>, bytes: Bytes, size: nat, n: nat, offset: nat, rest: Bytes)
    requires Stored(chunks, bytes, size) && offset < |bytes| && rest == [] && Fetched(bytes, size, n, offset, rest)
    ensures n in chunks && |chunks[n]| > 0 && Fetched(bytes, size, n + 1, offset, chunks[n])
  {
    hide Start;
    StartNext(n, size);
  }

  // ---------- the chunks are the file ----------

  function Joined(chunks: map<nat, Bytes>, n: nat): Bytes
    requires forall k: nat :: k < n ==> k in chunks
  {
    if n == 0 then [] else Joined(chunks, n - 1) + chunks[n - 1]
  }

  lemma AllBefore(chunks: map<nat, Bytes>, bytes: Bytes, size: nat, n: nat)
    requires Stored(chunks, bytes, size) && (n == 0 || n - 1 in chunks)
    ensures forall k: nat :: k < n ==> k in chunks
  {
    hide Start;
    forall k: nat | k < n ensures k in chunks {
      StartMono(k, n - 1, size);
    }
  }

  lemma {:induction false} JoinedIs(chunks: map<nat, Bytes>, bytes: Bytes, size: nat, n: nat)
    requires Stored(chunks, bytes, size) && (n == 0 || n - 1 in chunks) && forall k: nat :: k < n ==> k in chunks
    ensures Joined(chunks, n) == bytes[..Min(Start(n, size), |bytes|)]
  {
    hide Start, Stored;
    if n > 0 {
      JoinedIs(chunks, bytes, size, n - 1);
      PieceJoins(chunks, bytes, size, n - 1);
    } else {
      StartZero(size);
    }
  }

  lemma StartZero(size: nat)
    ensures Start(0, size) == 0
  {
  }

  lemma PieceJoins(chunks: map<nat, Bytes>, bytes: Bytes, size: nat, n: nat)
    requires Stored(chunks, bytes, size) && n in chunks
    ensures Start(n, size) <= |bytes| && bytes[..Start(n, size)] + chunks[n] == bytes[..Min(Start(n + 1, size), |bytes|)]
  {
    hide Start;
    StartNext(n, size);
    assert chunks[n] == Piece(bytes, size, n);
  }

  // As many chunks as the file has: one more is past its end.
  lemma Count(chunks: map<nat, Bytes>, bytes: Bytes, size: nat) returns (n: nat)
    requires Stored(chunks, bytes, size)
    ensures n !in chunks && (n == 0 || n - 1 in chunks) && |bytes| <= Start(n, size)
  {
    n := 0;
    while n in chunks
      invariant n == 0 || n - 1 in chunks
      decreases |bytes| - n
    {
      StartAtLeast(n, size);
      n := n + 1;
    }
  }

  lemma StartAtLeast(n: nat, size: nat)
    requires size > 0
    ensures Start(n, size) >= n
  {
  }

  // The same chunks are not the chunks of two files.
  lemma OneFile(chunks: map<nat, Bytes>, x: Bytes, y: Bytes, size: nat)
    requires Stored(chunks, x, size) && Stored(chunks, y, size)
    ensures x == y
  {
    hide Start;
    var n := Count(chunks, x, size);
    AllBefore(chunks, x, size, n);
    JoinedIs(chunks, x, size, n);
    JoinedIs(chunks, y, size, n);
    assert x[..|x|] == x && y[..|y|] == y;
  }

  function Flat(parts: seq<Bytes>): Bytes {
    if parts == [] then [] else Flat(parts[..|parts| - 1]) + parts[|parts| - 1]
  }

  // However a file is cut into writes, reading it gives what was written.
  method Through(parts: seq<Bytes>, size: nat) returns (back: array<byte>)
    requires size > 0
    ensures back[..] == Flat(parts)
  {
    hide Stored, StoredTo, Waits;
    var writer := new GridFile.Create(size);
    for i := 0 to |parts|
      invariant writer.Writable() && writer.chunkSize == size && writer.bytes == Flat(parts[..i])
    {
      assert parts[..i + 1][..i] == parts[..i];
      var n := writer.Write(parts[i]);
    }
    assert parts[..|parts|] == parts;
    writer.Close();
    var reader := new GridFile.Open(writer.chunks, size, writer.length, writer.bytes);
    back := new byte[writer.length];
    assert back[..][writer.length..] == [];
    var n, eof := reader.Read(back);
    assert reader.bytes[0..] == reader.bytes;
  }
}
