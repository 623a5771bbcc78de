/** The doubly linked chain of fixed-size blocks under a `KBuffer`: what it is for a chain to hold
    given bytes, and the loops that copy, fill, extend and rotate it in place. */
module BlockChains {
  import opened BufferSpec

  class DataBlock {
    const buf: array<Byte>
    var last: DataBlock?
    var next: DataBlock?

    constructor ()
      ensures last == null && next == null
      ensures fresh(buf) && buf.Length == BLOCK_SIZE && buf[..] == Zeros(BLOCK_SIZE)
    {
      buf := new Byte[BLOCK_SIZE](_ => 0);
      last, next := null, null;
    }
  }

  /** One entry of the array handed to `readv`: `len` bytes of `block` from `offset` on. */
  datatype IoVec = IoVec(block: DataBlock, offset: nat, len: nat)

  /** The blocks of `chain` are distinct and linked both ways, in order. */
  ghost predicate Links(chain: seq<DataBlock>)
    reads chain
  {
    && (forall i, j :: 0 <= i < j < |chain| ==> chain[i] != chain[j])
    && (forall i {:trigger chain[i].last} :: 0 <= i < |chain| ==>
          chain[i].last == if i == 0 then null else chain[i - 1])
    && (forall i {:trigger chain[i].next} :: 0 <= i < |chain| ==>
          chain[i].next == if i + 1 == |chain| then null else chain[i + 1])
  }

  /** The arrays `bufs` are distinct and hold `bytes`, block by block. */
  ghost predicate Holds(bufs: seq<array<Byte>>, bytes: seq<Byte>)
    reads bufs
  {
    && (forall i, j :: 0 <= i < j < |bufs| ==> bufs[i] != bufs[j])
    && |bytes| == |bufs| * BLOCK_SIZE
    && (forall i :: 0 <= i < |bufs| ==>
          bufs[i].Length == BLOCK_SIZE && bufs[i][..] == bytes[i * BLOCK_SIZE..(i + 1) * BLOCK_SIZE])
  }

  /** `bufs` are the arrays of the blocks of `chain`. */
  ghost predicate Paired(chain: seq<DataBlock>, bufs: seq<array<Byte>>) {
    |bufs| == |chain| && forall i :: 0 <= i < |chain| ==> chain[i].buf == bufs[i]
  }

  /** The blocks of `chain` and their arrays `bufs` are all among `objects`. */
  ghost predicate Owned(chain: seq<DataBlock>, bufs: seq<array<Byte>>, objects: set<object>) {
    && Paired(chain, bufs)
    && (forall i :: 0 <= i < |chain| ==> chain[i] in objects)
    && (forall i :: 0 <= i < |bufs| ==> bufs[i] in objects)
  }

  lemma LinksAt(chain: seq<DataBlock>, k: nat)
    requires Links(chain) && k < |chain|
    ensures chain[k].last == if k == 0 then null else chain[k - 1]
    ensures chain[k].next == if k + 1 == |chain| then null else chain[k + 1]
  {
  }

  lemma Distinct(chain: seq<DataBlock>, i: nat, j: nat)
    requires Links(chain) && i < |chain| && j < |chain|
    ensures chain[i] == chain[j] ==> i == j
  {
  }

  lemma OwnedPaired(chain: seq<DataBlock>, bufs: seq<array<Byte>>, objects: set<object>)
    requires Owned(chain, bufs, objects)
    ensures Paired(chain, bufs)
  {
  }

  lemma OwnedWithin(chain: seq<DataBlock>, bufs: seq<array<Byte>>, objects: set<object>)
    requires Owned(chain, bufs, objects)
    ensures forall b :: b in chain ==> b in objects
    ensures forall a :: a in bufs ==> a in objects
  {
  }

  lemma OwnedMore(chain: seq<DataBlock>, bufs: seq<array<Byte>>, objects: set<object>, k: DataBlock)
    requires Owned(chain, bufs, objects)
    ensures Owned(chain + [k], bufs + [k.buf], objects + {k, k.buf})
  {
  }

  lemma OwnedApart(chain: seq<DataBlock>, bufs: seq<array<Byte>>, objects: set<object>, buf: array<Byte>)
    requires Owned(chain, bufs, objects) && buf !in objects
    ensures buf !in bufs && Paired(chain, bufs)
  {
  }

  lemma ByteAt(bufs: seq<array<Byte>>, bytes: seq<Byte>, k: nat, offset: nat)
    requires Holds(bufs, bytes) && k < |bufs| && offset < BLOCK_SIZE
    ensures bufs[k].Length == BLOCK_SIZE && k * BLOCK_SIZE + offset < |bytes|
    ensures bufs[k][offset] == bytes[k * BLOCK_SIZE + offset]
  {
    assert bufs[k][offset] == bufs[k][..][offset];
  }

  /** Part of block k, as part of the bytes of the chain. */
  lemma Chunk(bufs: seq<array<Byte>>, bytes: seq<Byte>, k: nat, from: nat, len: nat)
    requires Holds(bufs, bytes) && k < |bufs| && from + len <= BLOCK_SIZE
    ensures bufs[k].Length == BLOCK_SIZE && k * BLOCK_SIZE + BLOCK_SIZE <= |bytes|
    ensures bufs[k][from..from + len] == bytes[k * BLOCK_SIZE + from..k * BLOCK_SIZE + from + len]
  {
    forall m | from <= m < from + len
      ensures bufs[k][m] == bytes[k * BLOCK_SIZE + m]
    {
      ByteAt(bufs, bytes, k, m);
    }
  }

  method Memcpy(dst: array<Byte>, at: nat, src: array<Byte>, from: nat, len: nat)
    requires dst != src && at + len <= dst.Length && from + len <= src.Length
    modifies dst
    ensures dst[..] == old(dst[..at]) + src[from..from + len] + old(dst[at + len..])
  {
    forall j | 0 <= j < len {
      dst[at + j] := src[from + j];
    }
  }

  // ---------------------------------------------------------------- copying along the chain

  /** `buf` starts with the n bytes of `text` from `start` on, and is otherwise as in `rest`. */
  ghost predicate Copied(buf: array<Byte>, n: nat, text: seq<Byte>, start: nat, rest: seq<Byte>)
    reads buf
  {
    start + n <= |text| && n <= |rest| && buf[..] == text[start..start + n] + rest[n..]
  }

  lemma NothingCopied(buf: array<Byte>, text: seq<Byte>, start: nat)
    requires start <= |text|
    ensures Copied(buf, 0, text, start, buf[..])
  {
  }

  lemma AllCopied(buf: array<Byte>, s: Buffer, n: nat, rest: seq<Byte>)
    requires s.Inv() && n <= s.size.readable && Copied(buf, n, s.bytes, s.rd.Pos(), rest)
    ensures buf[..] == s.Content()[..n] + rest[n..]
  {
    assert s.Content()[..n] == s.bytes[s.rd.Pos()..s.rd.Pos() + n];
  }

  /** The loop of `peek`: `size` bytes from offset `readablePos` of block `first` on. */
  method CopyOut(buf: array<Byte>, readstr: DataBlock?, readablePos: nat, size: nat,
                 ghost chain: seq<DataBlock>, ghost bufs: seq<array<Byte>>, ghost text: seq<Byte>,
                 ghost first: nat)
    requires Links(chain) && Holds(bufs, text) && Paired(chain, bufs) && buf !in bufs
    requires size > 0 ==> first < |chain| && readstr == chain[first]
    requires readablePos <= BLOCK_SIZE && first * BLOCK_SIZE + readablePos + size <= |chain| * BLOCK_SIZE
    requires |text| == |chain| * BLOCK_SIZE && size <= buf.Length
    modifies buf
    ensures Copied(buf, size, text, first * BLOCK_SIZE + readablePos, old(buf[..]))
  {
    hide Links, Holds, Copied;
    ghost var start: nat, k: nat, rest := first * BLOCK_SIZE + readablePos, first, buf[..];
    NothingCopied(buf, text, start);
    var l: nat, n: nat := size, 0;
    var walk := readstr;
    while l > 0
      invariant Holds(bufs, text) && n + l == size
      invariant (k == first && n == 0) || (k > first && start + n == k * BLOCK_SIZE)
      invariant l > 0 ==> k < |chain| && walk == chain[k]
      invariant Copied(buf, n, text, start, rest)
      decreases |chain| - k
    {
      Distinct(chain, first, k);
      LinksAt(chain, k);
      if walk == readstr {
        if BLOCK_SIZE - readablePos >= l {
          CopyStretch(buf, n, walk.buf, readablePos, l, k, bufs, text, start, rest);
          n, l := n + l, 0;
          break;
        } else {
          CopyStretch(buf, n, walk.buf, readablePos, BLOCK_SIZE - readablePos, k, bufs, text, start, rest);
          n := n + (BLOCK_SIZE - readablePos);
          l := l - (BLOCK_SIZE - readablePos);
        }
      } else {
        if BLOCK_SIZE >= l {
          CopyStretch(buf, n, walk.buf, 0, l, k, bufs, text, start, rest);
          n, l := n + l, 0;
          break;
        } else {
          CopyStretch(buf, n, walk.buf, 0, BLOCK_SIZE, k, bufs, text, start, rest);
          l := l - BLOCK_SIZE;
          n := n + BLOCK_SIZE;
        }
      }
      walk := walk.next;
      k := k + 1;
    }
  }

  /** `memcpy` of one stretch of block k to the end of what `peek` has copied. */
  method CopyStretch(buf: array<Byte>, n: nat, src: array<Byte>, from: nat, len: nat,
                     ghost k: nat, ghost bufs: seq<array<Byte>>, ghost text: seq<Byte>,
                     ghost start: nat, ghost rest: seq<Byte>)
    requires Holds(bufs, text) && k < |bufs| && src == bufs[k] && buf !in bufs
    requires from + len <= BLOCK_SIZE && start + n == k * BLOCK_SIZE + from
    requires n + len <= buf.Length && Copied(buf, n, text, start, rest)
    modifies buf
    ensures Copied(buf, n + len, text, start, rest)
  {
    Chunk(bufs, text, k, from, len);
    ghost var before := buf[..];
    Memcpy(buf, n, src, from, len);
    assert before[..n] == text[start..start + n];
    assert before[n + len..] == rest[n + len..];
    assert text[start..start + n] + text[start + n..start + n + len] == text[start..start + n + len];
  }

  lemma FirstNewlineIs(q: seq<Byte>, i: nat)
    requires i <= |q| && (i < |q| ==> q[i] == NEWLINE)
    requires forall j :: 0 <= j < i ==> q[j] != NEWLINE
    ensures FirstNewline(q) == i
  {
    var k := FirstNewline(q);
    forall j | 0 <= j < k
      ensures q[j] != NEWLINE
    {
      assert q[j] == q[..k][j];
    }
  }

  /** The scan of `getLine`: the index of the first newline, counted from the read cursor, or
      `readableSize` when there is none. */
  method FindNewline(readstr: DataBlock?, readablePos: nat, readableSize: nat,
                     ghost chain: seq<DataBlock>, ghost bufs: seq<array<Byte>>, ghost text: seq<Byte>,
                     ghost first: nat)
    returns (i: nat)
    requires Links(chain) && Holds(bufs, text) && Paired(chain, bufs) && |text| == |chain| * BLOCK_SIZE
    requires first < |chain| && readstr == chain[first] && readableSize > 0
    requires readablePos <= BLOCK_SIZE && first * BLOCK_SIZE + readablePos + readableSize <= |text|
    ensures var start := first * BLOCK_SIZE + readablePos;
      i == FirstNewline(text[start..start + readableSize])
  {
    hide Links, Holds, FirstNewline;
    ghost var start: nat, k: nat := first * BLOCK_SIZE + readablePos, first;
    ghost var line := text[start..start + readableSize];
    i := 0;
    var tmpReadstr := readstr;
    var tmpReadablePos: nat := readablePos;
    LinksAt(chain, k);
    if tmpReadablePos == BLOCK_SIZE {
      tmpReadablePos := 0;
      tmpReadstr := tmpReadstr.next;
      k := k + 1;
    }
    ByteAt(bufs, text, k, tmpReadablePos);
    var ch := tmpReadstr.buf[tmpReadablePos];
    while ch != NEWLINE
      invariant i < readableSize && k < |chain| && tmpReadstr == chain[k]
      invariant tmpReadablePos < BLOCK_SIZE && k * BLOCK_SIZE + tmpReadablePos == start + i
      invariant ch == text[start + i]
      invariant forall j :: 0 <= j < i ==> line[j] != NEWLINE
      decreases readableSize - i
    {
      assert line[i] != NEWLINE;
      i := i + 1;
      tmpReadablePos := tmpReadablePos + 1;
      if i >= readableSize {
        FirstNewlineIs(line, i);
        return;
      }
      LinksAt(chain, k);
      if tmpReadablePos == BLOCK_SIZE {
        tmpReadablePos := 0;
        tmpReadstr := tmpReadstr.next;
        k := k + 1;
      }
      ByteAt(bufs, text, k, tmpReadablePos);
      ch := tmpReadstr.buf[tmpReadablePos];
    }
    FirstNewlineIs(line, i);
  }

  // ---------------------------------------------------------------- filling the chain

  lemma OverwriteMore(text: seq<Byte>, at: nat, data: seq<Byte>, n: nat, len: nat)
    requires n + len <= |data| && at + n + len <= |text|
    ensures Overwrite(Overwrite(text, at, data[..n]), at + n, data[n..n + len])
         == Overwrite(text, at, data[..n + len])
  {
  }

  lemma OverwriteNothing(text: seq<Byte>, at: nat, data: seq<Byte>)
    requires at <= |text|
    ensures Overwrite(text, at, data[..0]) == text
  {
  }

  /** `memcpy` of `data` into block k, which is `dst`, at offset `at`. */
  method FillStretch(dst: array<Byte>, at: nat, data: seq<Byte>,
                     ghost k: nat, ghost bufs: seq<array<Byte>>, ghost text: seq<Byte>)
    requires Holds(bufs, text) && k < |bufs| && dst == bufs[k]
    requires at + |data| <= BLOCK_SIZE && k * BLOCK_SIZE + at + |data| <= |text|
    modifies dst
    ensures Holds(bufs, Overwrite(text, k * BLOCK_SIZE + at, data))
  {
    ghost var before := dst[..];
    forall j | 0 <= j < |data| {
      dst[at + j] := data[j];
    }
    ghost var text' := Overwrite(text, k * BLOCK_SIZE + at, data);
    forall i | 0 <= i < |bufs|
      ensures bufs[i].Length == BLOCK_SIZE
      ensures bufs[i][..] == text'[i * BLOCK_SIZE..(i + 1) * BLOCK_SIZE]
    {
      ghost var stretch := text[i * BLOCK_SIZE..(i + 1) * BLOCK_SIZE];
      assert old(bufs[i][..]) == stretch;
    }
  }

  /** The loop of `do_write`: `data` goes in from offset `writablePos` of block `first` on.  Returns
      the block and offset where it ends. */
  method FillChain(writestr: DataBlock?, writablePos: nat, data: seq<Byte>,
                   ghost chain: seq<DataBlock>, ghost bufs: seq<array<Byte>>, ghost text: seq<Byte>,
                   ghost first: nat)
    returns (walk: DataBlock?, pos: nat, ghost k: nat)
    requires Links(chain) && Holds(bufs, text) && Paired(chain, bufs)
    requires if |chain| == 0 then first == 0 && writestr == null
             else first < |chain| && writestr == chain[first]
    requires writablePos <= BLOCK_SIZE
    requires first * BLOCK_SIZE + writablePos + |data| <= |chain| * BLOCK_SIZE == |text|
    modifies bufs
    ensures Holds(bufs, Overwrite(text, first * BLOCK_SIZE + writablePos, data))
    ensures k * BLOCK_SIZE + pos == first * BLOCK_SIZE + writablePos + |data| && pos <= BLOCK_SIZE
    ensures if |chain| == 0 then k == 0 && walk == null else k < |chain| && walk == chain[k]
  {
    hide Links, Holds, Overwrite;
    ghost var start: nat := first * BLOCK_SIZE + writablePos;
    OverwriteNothing(text, start, data);
    var l: nat, size: nat := 0, |data|;
    k, walk, pos := first, writestr, writablePos;
    while l < size
      invariant l <= size && (l == size ==> l == 0) && (size == 0 ==> k == first)
      invariant pos == writablePos && ((k == first && l == 0) || (k > first && start + l == k * BLOCK_SIZE))
      invariant if |chain| == 0 then k == 0 && walk == null else k < |chain| && walk == chain[k]
      invariant Holds(bufs, Overwrite(text, start, data[..l]))
      decreases |chain| - k
    {
      Distinct(chain, first, k);
      LinksAt(chain, k);
      ghost var soFar := Overwrite(text, start, data[..l]);
      if walk == writestr {
        if size - l <= BLOCK_SIZE - writablePos {
          OverwriteMore(text, start, data, l, size - l);
          FillStretch(walk.buf, writablePos, data[l..l + (size - l)], k, bufs, soFar);
          l := size;
          pos := writablePos + l;
          break;
        } else {
          OverwriteMore(text, start, data, l, BLOCK_SIZE - writablePos);
          FillStretch(walk.buf, writablePos, data[l..l + (BLOCK_SIZE - writablePos)], k, bufs, soFar);
          l := l + (BLOCK_SIZE - writablePos);
        }
      } else {
        if size - l <= BLOCK_SIZE {
          OverwriteMore(text, start, data, l, size - l);
          FillStretch(walk.buf, 0, data[l..l + (size - l)], k, bufs, soFar);
          pos := size - l;
          l := size;
          break;
        } else {
          OverwriteMore(text, start, data, l, BLOCK_SIZE);
          FillStretch(walk.buf, 0, data[l..l + BLOCK_SIZE], k, bufs, soFar);
          l := l + BLOCK_SIZE;
        }
      }
      walk := walk.next;
      k := k + 1;
    }
    assert data[..size] == data;
    assert l == size;
  }

  /** What `do_write` and `retrieve` do last: the end of a block that has a next one becomes the start
      of that one. */
  method StepOver(walk: DataBlock?, pos: nat, ghost chain: seq<DataBlock>, ghost k: nat)
    returns (walk': DataBlock?, pos': nat, ghost k': nat)
    requires Links(chain) && pos <= BLOCK_SIZE
    requires if |chain| == 0 then k == 0 && pos == 0 && walk == null else k < |chain| && walk == chain[k]
    ensures Canonical(k * BLOCK_SIZE + pos, |chain|) == Cursor(k', pos')
    ensures if |chain| == 0 then walk' == null else k' < |chain| && walk' == chain[k']
  {
    hide Links, Canonical;
    CanonicalIs(k, pos, |chain|);
    walk', pos', k' := walk, pos, k;
    if |chain| > 0 {
      LinksAt(chain, k);
    }
    if pos == BLOCK_SIZE && walk.next != null {
      walk', pos', k' := walk.next, 0, k + 1;
    }
  }

  /** Where they end up from offset `offset` in block `k` of `n`. */
  lemma CanonicalIs(k: nat, offset: nat, n: nat)
    requires offset <= BLOCK_SIZE && (if n == 0 then k == offset == 0 else k < n)
    ensures Canonical(k * BLOCK_SIZE + offset, n)
         == if offset == BLOCK_SIZE && k + 1 < n then Cursor(k + 1, 0) else Cursor(k, offset)
  {
  }

  // ---------------------------------------------------------------- readv

  /** `vec` lists the free space from offset `writablePos` of block `first` to the end of the chain. */
  ghost predicate IsFreeSpace(vec: seq<IoVec>, chain: seq<DataBlock>, first: nat, writablePos: nat)
    requires writablePos <= BLOCK_SIZE
  {
    && first + |vec| == |chain|
    && forall i :: 0 <= i < |vec| ==>
         vec[i] == IoVec(chain[first + i], if i == 0 then writablePos else 0,
                         BLOCK_SIZE - if i == 0 then writablePos else 0)
  }

  /** The array that `readFd` hands to `readv`: the free space from the write cursor to the tail. */
  method FreeSpace(writestr: DataBlock?, writablePos: nat,
                   ghost chain: seq<DataBlock>, ghost first: nat) returns (vec: seq<IoVec>)
    requires Links(chain) && writablePos <= BLOCK_SIZE
    requires if |chain| == 0 then first == 0 && writestr == null
             else first < |chain| && writestr == chain[first]
    ensures IsFreeSpace(vec, chain, first, writablePos)
  {
    hide Links;
    vec := [];
    var walk := writestr;
    while walk != null
      invariant first + |vec| <= |chain|
      invariant walk == if first + |vec| < |chain| then chain[first + |vec|] else null
      invariant forall i :: 0 <= i < |vec| ==>
        vec[i] == IoVec(chain[first + i], if i == 0 then writablePos else 0,
                        BLOCK_SIZE - if i == 0 then writablePos else 0)
      decreases |chain| - |vec|
    {
      LinksAt(chain, first + |vec|);
      Distinct(chain, first, first + |vec|);
      if walk == writestr {
        vec := vec + [IoVec(walk, writablePos, BLOCK_SIZE - writablePos)];
      } else {
        vec := vec + [IoVec(walk, 0, BLOCK_SIZE)];
      }
      walk := walk.next;
    }
  }

  /** The kernel's side of `readv`: the delivered bytes fill the entries in order, and what does
      not fit into them goes to `extra`. */
  method Scatter(vec: seq<IoVec>, delivered: seq<Byte>,
                 ghost chain: seq<DataBlock>, ghost bufs: seq<array<Byte>>, ghost text: seq<Byte>,
                 ghost first: nat, ghost writablePos: nat)
    returns (extra: seq<Byte>)
    requires Links(chain) && Holds(bufs, text) && Paired(chain, bufs) && |text| == |chain| * BLOCK_SIZE
    requires writablePos <= BLOCK_SIZE && first * BLOCK_SIZE + writablePos <= |text|
    requires IsFreeSpace(vec, chain, first, writablePos)
    modifies bufs
    ensures var start := first * BLOCK_SIZE + writablePos;
      var fits := Min(|delivered|, |text| - start);
      && Holds(bufs, Overwrite(text, start, delivered[..fits]))
      && extra == delivered[fits..]
  {
    hide Links, Holds, Overwrite;
    ghost var start: nat := first * BLOCK_SIZE + writablePos;
    var l: nat, i: nat := 0, 0;
    OverwriteNothing(text, start, delivered);
    while i < |vec| && l < |delivered|
      invariant i <= |vec| && l <= |delivered|
      invariant l < |delivered| ==> if i == 0 then l == 0 else start + l == (first + i) * BLOCK_SIZE
      invariant start + l <= |text|
      invariant Holds(bufs, Overwrite(text, start, delivered[..l]))
    {
      var len := Min(vec[i].len, |delivered| - l);
      OverwriteMore(text, start, delivered, l, len);
      FillStretch(vec[i].block.buf, vec[i].offset, delivered[l..l + len],
                  first + i, bufs, Overwrite(text, start, delivered[..l]));
      l, i := l + len, i + 1;
    }
    extra := delivered[l..];
  }

  // ---------------------------------------------------------------- rotating the chain

  /** The pointer updates of `move_head`: the blocks before `readstr` go behind the tail. */
  method Rotate(head: DataBlock, tail: DataBlock, readstr: DataBlock,
                ghost chain: seq<DataBlock>, ghost cut: nat) returns (newTail: DataBlock)
    requires Links(chain) && 0 < cut < |chain|
    requires head == chain[0] && tail == chain[|chain| - 1] && readstr == chain[cut]
    modifies chain
    ensures newTail == chain[cut - 1] && Links(chain[cut..] + chain[..cut])
  {
    newTail := readstr.last;
    readstr.last.next := null;
    readstr.last := null;
    head.last := tail;
    tail.next := head;
  }

  /** A slice of a rotated sequence that does not straddle the seam. */
  lemma RotatedSlice<T>(text: seq<T>, at: nat, lo: nat, len: nat)
    requires at <= |text| && lo + len <= |text|
    ensures lo + len <= |text| - at ==> (text[at..] + text[..at])[lo..lo + len] == text[at + lo..at + lo + len]
    ensures lo >= |text| - at ==>
      (text[at..] + text[..at])[lo..lo + len] == text[lo - (|text| - at)..lo - (|text| - at) + len]
  {
  }

  /** Block i of the rotated bytes. */
  lemma RotatedBlock(text: seq<Byte>, cut: nat, n: nat, i: nat)
    requires cut <= n && |text| == n * BLOCK_SIZE && i < n
    ensures var at, j := cut * BLOCK_SIZE, if i < n - cut then i + cut else i + cut - n;
      && 0 <= j < n && at <= |text|
      && (text[at..] + text[..at])[i * BLOCK_SIZE..(i + 1) * BLOCK_SIZE] == text[j * BLOCK_SIZE..(j + 1) * BLOCK_SIZE]
  {
    RotatedSlice(text, cut * BLOCK_SIZE, i * BLOCK_SIZE, BLOCK_SIZE);
  }

  lemma RotatedAt<T>(items: seq<T>, cut: nat, i: nat)
    requires cut <= |items| && i < |items|
    ensures (items[cut..] + items[..cut])[i] == items[if i < |items| - cut then i + cut else i + cut - |items|]
  {
  }

  lemma RotateHolds(bufs: seq<array<Byte>>, text: seq<Byte>, cut: nat)
    requires Holds(bufs, text) && cut <= |bufs|
    ensures cut * BLOCK_SIZE <= |text|
    ensures Holds(bufs[cut..] + bufs[..cut], text[cut * BLOCK_SIZE..] + text[..cut * BLOCK_SIZE])
  {
    var at, n := cut * BLOCK_SIZE, |bufs|;
    var bufs', text' := bufs[cut..] + bufs[..cut], text[at..] + text[..at];
    forall i | 0 <= i < n
      ensures bufs'[i].Length == BLOCK_SIZE
      ensures bufs'[i][..] == text'[i * BLOCK_SIZE..(i + 1) * BLOCK_SIZE]
    {
      RotatedAt(bufs, cut, i);
      RotatedBlock(text, cut, n, i);
    }
  }

  lemma RotateOwned(chain: seq<DataBlock>, bufs: seq<array<Byte>>, objects: set<object>, cut: nat)
    requires Owned(chain, bufs, objects) && cut <= |chain|
    ensures |bufs| == |chain|
    ensures Owned(chain[cut..] + chain[..cut], bufs[cut..] + bufs[..cut], objects)
  {
  }

  // ---------------------------------------------------------------- extending the chain

  /** One block more, linked behind `walk`, the last block of the chain if there is one. */
  method AppendBlock(walk: DataBlock?, ghost chain: seq<DataBlock>, ghost bufs: seq<array<Byte>>,
                     ghost text: seq<Byte>) returns (k: DataBlock)
    requires Links(chain) && Holds(bufs, text) && Paired(chain, bufs)
    requires walk == if |chain| == 0 then null else chain[|chain| - 1]
    modifies chain
    ensures fresh(k) && fresh(k.buf) && Links(chain + [k])
    ensures Holds(bufs + [k.buf], text + Zeros(BLOCK_SIZE)) && Paired(chain + [k], bufs + [k.buf])
  {
    hide Holds;
    k := new DataBlock();
    k.last := walk;
    if walk != null {
      walk.next := k;
    }
    AppendHolds(bufs, text, k.buf);
  }

  lemma AppendHolds(bufs: seq<array<Byte>>, text: seq<Byte>, b: array<Byte>)
    requires Holds(bufs, text) && b !in bufs && b.Length == BLOCK_SIZE && b[..] == Zeros(BLOCK_SIZE)
    ensures Holds(bufs + [b], text + Zeros(BLOCK_SIZE))
  {
    var bufs', text' := bufs + [b], text + Zeros(BLOCK_SIZE);
    forall i | 0 <= i < |bufs'|
      ensures bufs'[i].Length == BLOCK_SIZE
      ensures bufs'[i][..] == text'[i * BLOCK_SIZE..(i + 1) * BLOCK_SIZE]
    {
      if i < |bufs| {
        assert text'[i * BLOCK_SIZE..(i + 1) * BLOCK_SIZE] == text[i * BLOCK_SIZE..(i + 1) * BLOCK_SIZE];
      } else {
        assert text'[i * BLOCK_SIZE..(i + 1) * BLOCK_SIZE] == Zeros(BLOCK_SIZE);
      }
    }
  }

  lemma ZerosJoin(a: nat, b: nat)
    ensures Zeros(a) + Zeros(b) == Zeros(a + b)
  {
  }

  /** A chain, the arrays of its blocks, and what they hold. */
  datatype Spine = Spine(chain: seq<DataBlock>, bufs: seq<array<Byte>>, text: seq<Byte>)

  /** The loop of `makeSpace`: blocks for `size` bytes behind the tail. */
  method GrowChain(tail: DataBlock?, size: nat, ghost chain: seq<DataBlock>,
                   ghost bufs: seq<array<Byte>>, ghost text: seq<Byte>, ghost objects: set<object>)
    returns (first: DataBlock?, newTail: DataBlock?, added: nat, ghost grown: Spine, ghost news: set<object>)
    requires Links(chain) && Holds(bufs, text) && Owned(chain, bufs, objects) && size > 0
    requires tail == if |chain| == 0 then null else chain[|chain| - 1]
    modifies chain
    ensures added == BlocksFor(size) && |grown.chain| == |chain| + added && chain <= grown.chain
    ensures grown.text == text + Zeros(added * BLOCK_SIZE)
    ensures Links(grown.chain) && Holds(grown.bufs, grown.text)
    ensures Owned(grown.chain, grown.bufs, objects + news) && fresh(news)
    ensures added > 0 && first == grown.chain[|chain|] && newTail == grown.chain[|grown.chain| - 1]
  {
    hide Links, Holds, Owned;
    var len: nat, walk := size, tail;
    added, first := 0, null;
    grown, news := Spine(chain, bufs, text), {};
    assert objects + {} == objects;
    assert text + Zeros(0) == text;
    while len > 0
      invariant added + BlocksFor(len) == BlocksFor(size)
      invariant |grown.chain| == |chain| + added && chain <= grown.chain
      invariant grown.text == text + Zeros(added * BLOCK_SIZE)
      invariant Links(grown.chain) && Holds(grown.bufs, grown.text)
      invariant Owned(grown.chain, grown.bufs, objects + news) && fresh(news)
      invariant forall i :: |chain| <= i < |grown.chain| ==> fresh(grown.chain[i])
      invariant walk == if |grown.chain| == 0 then null else grown.chain[|grown.chain| - 1]
      invariant added > 0 ==> first == grown.chain[|chain|]
    {
      OwnedPaired(grown.chain, grown.bufs, objects + news);
      var k := AppendBlock(walk, grown.chain, grown.bufs, grown.text);
      ZerosJoin(added * BLOCK_SIZE, BLOCK_SIZE);
      assert grown.text + Zeros(BLOCK_SIZE) == text + Zeros((added + 1) * BLOCK_SIZE);
      OwnedMore(grown.chain, grown.bufs, objects + news, k);
      assert objects + news + {k, k.buf} == objects + (news + {k, k.buf});
      news := news + {k, k.buf};
      grown := Spine(grown.chain + [k], grown.bufs + [k.buf], grown.text + Zeros(BLOCK_SIZE));
      if added == 0 {
        first := k;
      }
      walk := k;
      added := added + 1;
      if len > BLOCK_SIZE {
        len := len - BLOCK_SIZE;
      } else {
        len := 0;
      }
    }
    newTail := walk;
  }
}
