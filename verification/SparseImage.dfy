/**
 * DecompressFileWithPath (internal/disk/compression.go): a decompressed stream is hashed and written
 * to a file in blocks, and blocks of zeros are skipped. The stream inside the gzip file (RFC 1952)
 * is given by the reads that deliver it.
 */
module SparseImage {
  import opened Wrappers

  type Byte = b: nat | b < 256

  const SparseBlockSize := 65536

  /** How the reads end: at the end of the file, possibly with bytes, by an error, or by the context. */
  datatype End = Eof(last: seq<Byte>) | ReadError | ContextDone

  datatype Stream = Stream(parts: seq<seq<Byte>>, end: End)

  function Zeros(n: nat): (z: seq<Byte>)
    ensures |z| == n && forall j :: 0 <= j < n ==> z[j] == 0
  {
    seq(n, _ => 0)
  }

  /** ftruncate: cut, or pad with zeros. */
  function Resized(s: seq<Byte>, size: nat): seq<Byte> {
    if size <= |s| then s[..size] else s + Zeros(size - |s|)
  }

  /** pwrite: a gap before the offset reads as zeros. */
  function WrittenAt(s: seq<Byte>, offset: nat, chunk: seq<Byte>): seq<Byte> {
    if chunk == [] then s
    else
      var t := if offset <= |s| then s else s + Zeros(offset - |s|);
      t[..offset] + chunk + (if offset + |chunk| <= |t| then t[offset + |chunk|..] else [])
  }

  /** An open file. Writes succeed as long as there is room for them. */
  class OutputFile {
    var content: seq<Byte>
    var position: nat
    var writesLeft: nat

    constructor (writesLeft: nat)
      ensures content == [] && position == 0 && this.writesLeft == writesLeft
    {
      content, position := [], 0;
      this.writesLeft := writesLeft;
    }

    method Truncate(size: int) returns (ok: bool)
      modifies this`content
      ensures ok <==> size >= 0
      ensures content == if size >= 0 then Resized(old(content), size) else old(content)
    {
      ok := size >= 0;
      if ok {
        content := Resized(content, size);
      }
    }

    method Seek(offset: nat)
      modifies this`position
      ensures position == offset
    {
      position := offset;
    }

    method Write(chunk: seq<Byte>) returns (ok: bool)
      modifies this
      ensures ok <==> old(writesLeft) > 0
      ensures ok ==> content == WrittenAt(old(content), old(position), chunk) && writesLeft == old(writesLeft) - 1
      ensures !ok ==> content == old(content)
    {
      ok := writesLeft > 0;
      if ok {
        content := WrittenAt(content, position, chunk);
        position := position + |chunk|;
        writesLeft := writesLeft - 1;
      }
    }
  }

  function Flatten(parts: seq<seq<Byte>>): seq<Byte> {
    if parts == [] then [] else Flatten(parts[..|parts| - 1]) + parts[|parts| - 1]
  }

  lemma {:induction false} FlattenGrows(parts: seq<seq<Byte>>, k: nat)
    requires k <= |parts|
    ensures |Flatten(parts[..k])| <= |Flatten(parts)|
  {
    if k < |parts| {
      FlattenGrows(parts[..|parts| - 1], k);
      assert parts[..|parts| - 1][..k] == parts[..k];
    } else {
      assert parts[..k] == parts;
    }
  }

  /** bytes.Equal with a zero block of full size: a shorter block is never equal to it. */
  predicate Skipped(chunk: seq<Byte>) {
    chunk == Zeros(SparseBlockSize)
  }

  /** The end of the block of a read that starts at i. */
  function BlockEnd(i: nat, n: nat): nat
    requires i < n
    ensures i < BlockEnd(i, n) <= n
  {
    if i + SparseBlockSize > n then n else i + SparseBlockSize
  }

  /**
   * The stream offset at which the last written block ends, after the blocks of `read` from i on,
   * when it was `kept` before them and the read starts at stream offset `base`.
   */
  function KeptInRead(read: seq<Byte>, i: nat, base: nat, kept: nat): nat
    requires i <= |read|
    decreases |read| - i
  {
    if i == |read| then kept
    else
      var end := BlockEnd(i, |read|);
      KeptInRead(read, end, base, if Skipped(read[i..end]) then kept else base + end)
  }

  function Kept(parts: seq<seq<Byte>>): nat {
    if parts == [] then 0
    else
      var before := parts[..|parts| - 1];
      KeptInRead(parts[|parts| - 1], 0, |Flatten(before)|, Kept(before))
  }

  /**
   * The file holds the bytes of `done` that lie inside it and zeros elsewhere, it reaches to `size`
   * and to the last written byte, and what lies beyond that byte is zero.
   */
  predicate Holds(content: seq<Byte>, done: seq<Byte>, kept: nat, size: nat) {
    && kept <= |done|
    && |content| == (if kept <= size then size else kept)
    && (forall j :: 0 <= j < |content| ==> content[j] == if j < |done| then done[j] else 0)
    && (forall j :: kept <= j < |done| ==> done[j] == 0)
  }

  lemma WriteHolds(content: seq<Byte>, done: seq<Byte>, kept: nat, size: nat, chunk: seq<Byte>)
    requires Holds(content, done, kept, size) && chunk != []
    ensures Holds(WrittenAt(content, |done|, chunk), done + chunk, |done + chunk|, size)
  {
    var t := if |done| <= |content| then content else content + Zeros(|done| - |content|);
    assert forall j :: 0 <= j < |done| ==> t[j] == done[j];
    assert |t| >= |done|;
  }

  lemma SkipHolds(content: seq<Byte>, done: seq<Byte>, kept: nat, size: nat, chunk: seq<Byte>)
    requires Holds(content, done, kept, size) && Skipped(chunk)
    ensures Holds(content, done + chunk, kept, size)
  {
  }

  lemma NextBlock(done: seq<Byte>, buf: seq<Byte>, i: nat, next: nat)
    requires i <= next <= |buf|
    ensures (done + buf[..i]) + buf[i..next] == done + buf[..next]
  {
    assert buf[..next] == buf[..i] + buf[i..next];
  }

  /** The block of a read from i to next, with the file before and after it. */
  lemma BlockHolds(content: seq<Byte>, h: seq<Byte>, done: seq<Byte>, buf: seq<Byte>, i: nat, kept: nat, size: nat,
      next: nat)
    requires i < |buf| && next == BlockEnd(i, |buf|) && h == done + buf[..i] && Holds(content, h, kept, size)
    ensures h + buf[i..next] == done + buf[..next]
    ensures var chunk := buf[i..next];
            if Skipped(chunk) then
              && Holds(content, h + chunk, kept, size)
              && KeptInRead(buf, i, |done|, kept) == KeptInRead(buf, next, |done|, kept)
            else
              && Holds(WrittenAt(content, |h|, chunk), h + chunk, |h + chunk|, size)
              && KeptInRead(buf, i, |done|, kept) == KeptInRead(buf, next, |done|, |h + chunk|)
  {
    NextBlock(done, buf, i, next);
    var chunk := buf[i..next];
    if Skipped(chunk) {
      SkipHolds(content, h, kept, size, chunk);
    } else {
      WriteHolds(content, h, kept, size, chunk);
    }
  }

  /** The inner loop: hash and write the blocks of one read. `done` is the stream before it. */
  method WriteBlocks(buf: seq<Byte>, outputFile: OutputFile, size: nat, done: seq<Byte>, ghost kept: nat)
    returns (h: seq<Byte>, ok: bool)
    requires Holds(outputFile.content, done, kept, size)
    modifies outputFile
    ensures ok ==> h == done + buf && Holds(outputFile.content, h, KeptInRead(buf, 0, |done|, kept), size)
    ensures old(outputFile.writesLeft) >= |buf| ==>
              ok && outputFile.writesLeft >= old(outputFile.writesLeft) - |buf|
  {
    h, ok := done, true;
    var n, offset, i := |buf|, |done|, 0;
    ghost var end: nat := kept;
    assert buf[..0] == [];
    while i < n
      invariant 0 <= i <= n && offset == |h|
      invariant h == done + buf[..i]
      invariant Holds(outputFile.content, h, end, size)
      invariant KeptInRead(buf, 0, |done|, kept) == KeptInRead(buf, i, |done|, end)
      invariant ok && outputFile.writesLeft >= old(outputFile.writesLeft) - i
    {
      var next := i + SparseBlockSize;
      if next > n {
        next := n;
      }
      var chunk := buf[i..next];
      BlockHolds(outputFile.content, h, done, buf, i, end, size, next);
      h := h + chunk;
      if chunk != Zeros(SparseBlockSize) {
        outputFile.Seek(offset);
        ok := outputFile.Write(chunk);
        if !ok {
          return;
        }
        end := |h|;
      }
      i := next;
      offset := offset + |chunk|;
    }
    assert buf[..n] == buf;
  }

  /**
   * Returns the bytes that went into the hash, or None on any error. On success they are what was
   * read, and the file holds them sparsely; they are the whole stream exactly when the read that met
   * the end brought no bytes of its own.
   */
  method DecompressFileWithPath(stream: Stream, uncompressedSize: int, outputFile: OutputFile)
    returns (hashed: Option<seq<Byte>>)
    requires outputFile.content == []
    modifies outputFile
    ensures hashed.Some? ==>
              && uncompressedSize >= 0 && stream.end.Eof?
              && hashed.value == Flatten(stream.parts)
              && (hashed.value == Flatten(stream.parts) + stream.end.last <==> stream.end.last == [])
              && Holds(outputFile.content, hashed.value, Kept(stream.parts), uncompressedSize)
    ensures uncompressedSize < 0 || !stream.end.Eof? ==> hashed.None?
    ensures uncompressedSize >= 0 && stream.end.Eof? && old(outputFile.writesLeft) >= |Flatten(stream.parts)| ==>
              hashed.Some?
  {
    var ok := outputFile.Truncate(uncompressedSize);
    if !ok {
      return None;
    }
    var h: seq<Byte> := [];
    var r := 0;
    assert stream.parts[..0] == [];
    ghost var room := outputFile.writesLeft;
    while r < |stream.parts|
      invariant 0 <= r <= |stream.parts|
      invariant h == Flatten(stream.parts[..r])
      invariant Holds(outputFile.content, h, Kept(stream.parts[..r]), uncompressedSize)
      invariant room >= |Flatten(stream.parts)| ==> outputFile.writesLeft >= room - |h|
    {
      FlattenGrows(stream.parts, r + 1);
      assert stream.parts[..r + 1][..r] == stream.parts[..r];
      h, ok := WriteBlocks(stream.parts[r], outputFile, uncompressedSize, h, Kept(stream.parts[..r]));
      if !ok {
        return None;
      }
      r := r + 1;
    }
    assert stream.parts[..r] == stream.parts;
    if !stream.end.Eof? {
      return None;
    }
    return Some(h);
  }

  // ---------------------------------------------------------------- what the file is

  /** A declared size at least the length of the stream: the file is the stream and zeros after it. */
  lemma LargeEnoughSizeIsFaithful(content: seq<Byte>, data: seq<Byte>, kept: nat, size: nat)
    requires Holds(content, data, kept, size) && size >= |data|
    ensures content == data + Zeros(size - |data|)
  {
  }

  /** A smaller size: file and stream differ by zeros at the end of the stream only. */
  lemma SmallerSizeLosesOnlyZeros(content: seq<Byte>, data: seq<Byte>, kept: nat, size: nat)
    requires Holds(content, data, kept, size) && size < |data|
    ensures |content| <= |data| && data == content + Zeros(|data| - |content|)
  {
  }

  /** The last block that arrives is written, not skipped. */
  predicate EndsWithWrittenBlock(parts: seq<seq<Byte>>) {
    if parts == [] then true
    else
      var last := parts[|parts| - 1];
      if last == [] then EndsWithWrittenBlock(parts[..|parts| - 1])
      else !Skipped(last[LastBlock(|last|)..])
  }

  /** Where the last block of a read of n bytes starts. */
  function LastBlock(n: nat): nat
    requires n > 0
    ensures LastBlock(n) < n
  {
    (n - 1) / SparseBlockSize * SparseBlockSize
  }

  lemma {:induction false} KeptInReadEnds(read: seq<Byte>, i: nat, base: nat, kept: nat)
    requires i < |read| && i % SparseBlockSize == 0 && kept <= base + i
    ensures KeptInRead(read, i, base, kept) == base + |read| <==> !Skipped(read[LastBlock(|read|)..])
    ensures KeptInRead(read, i, base, kept) <= base + |read|
    decreases |read| - i
  {
    var end := BlockEnd(i, |read|);
    var next := if Skipped(read[i..end]) then kept else base + end;
    if end == |read| {
      assert LastBlock(|read|) == i;
      assert read[i..end] == read[i..];
    } else {
      KeptInReadEnds(read, end, base, next);
    }
  }

  lemma {:induction false} KeptEnds(parts: seq<seq<Byte>>)
    ensures Kept(parts) <= |Flatten(parts)|
    ensures Kept(parts) == |Flatten(parts)| <==> EndsWithWrittenBlock(parts)
  {
    if parts != [] {
      var before, last := parts[..|parts| - 1], parts[|parts| - 1];
      KeptEnds(before);
      if last != [] {
        KeptInReadEnds(last, 0, |Flatten(before)|, Kept(before));
      }
    }
  }

  /**
   * The file equals the stream exactly when the declared size is its length, or is smaller and the
   * last block was written. Only then does the digest of the stream describe the file.
   */
  lemma FileIsStreamIff(content: seq<Byte>, parts: seq<seq<Byte>>, size: nat)
    requires Holds(content, Flatten(parts), Kept(parts), size)
    ensures content == Flatten(parts) <==>
            size == |Flatten(parts)| || (size < |Flatten(parts)| && EndsWithWrittenBlock(parts))
  {
    KeptEnds(parts);
  }

  /** How the stream is split into reads does not show in the file when the size is large enough. */
  lemma SplittingIsInvisible(a: seq<Byte>, b: seq<Byte>, parts: seq<seq<Byte>>, others: seq<seq<Byte>>, size: nat)
    requires Flatten(parts) == Flatten(others) && size >= |Flatten(parts)|
    requires Holds(a, Flatten(parts), Kept(parts), size) && Holds(b, Flatten(others), Kept(others), size)
    ensures a == b
  {
    LargeEnoughSizeIsFaithful(a, Flatten(parts), Kept(parts), size);
    LargeEnoughSizeIsFaithful(b, Flatten(others), Kept(others), size);
  }
}
