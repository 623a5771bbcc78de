/** What `KBuffer` computes, on values: its bytes laid end to end, two cursors and four counters.

    The class in KBuffer.dfy moves pointers and copies bytes block by block; each of its methods
    is proved to do to the heap what the function of the same name does here.  The properties of
    whole runs are proved in ByteQueue.dfy. */
module BufferSpec {

  const BLOCK_SIZE: nat := 1024
  const MAX_BLOCK_SIZE: nat := 1310720
  const EXTRA_SIZE: nat := 65536
  const NEWLINE: Byte := 10

  type Byte = b: int | 0 <= b < 256

  function Min(a: nat, b: nat): nat {
    if a < b then a else b
  }

  function Zeros(n: nat): (z: seq<Byte>)
    ensures |z| == n
  {
    seq(n, _ => 0)
  }

  /** The number of blocks `makeSpace` allocates for `size` bytes. */
  function BlocksFor(size: nat): nat {
    (size + BLOCK_SIZE - 1) / BLOCK_SIZE
  }

  /** A place in the chain.  A full block end can be written as (i, BLOCK_SIZE) or (i + 1, 0). */
  datatype Cursor = Cursor(block: nat, offset: nat) {
    function Pos(): nat {
      block * BLOCK_SIZE + offset
    }
  }

  /** The cursor that `do_write` and `retrieve` leave behind at position `pos` of `blocks` blocks:
      the end of a block is written as the start of the next one unless there is none. */
  function Canonical(pos: nat, blocks: nat): (c: Cursor)
    ensures c.Pos() == pos
  {
    if blocks > 0 && pos == blocks * BLOCK_SIZE then Cursor(blocks - 1, BLOCK_SIZE)
    else Cursor(pos / BLOCK_SIZE, pos % BLOCK_SIZE)
  }

  /** The cursor that `readFd` leaves behind after filling free space up to `pos`: the end of a
      block stays written as offset BLOCK_SIZE in that block. */
  function Unnormalized(pos: nat): (c: Cursor)
    requires pos > 0
    ensures c.Pos() == pos
  {
    Cursor((pos - 1) / BLOCK_SIZE, (pos - 1) % BLOCK_SIZE + 1)
  }

  function Overwrite(bytes: seq<Byte>, pos: nat, data: seq<Byte>): (r: seq<Byte>)
    requires pos + |data| <= |bytes|
    ensures |r| == |bytes|
    ensures forall k :: 0 <= k < |bytes| ==>
      r[k] == if pos <= k < pos + |data| then data[k - pos] else bytes[k]
  {
    bytes[..pos] + data + bytes[pos + |data|..]
  }

  /** The four counters of KBuffer.h. */
  datatype Sizes = Sizes(readable: nat, writable: nat, used: nat, buflen: nat)

  datatype Buffer = Buffer(
    bytes: seq<Byte>,
    blocks: nat,
    rd: Cursor,
    wr: Cursor,
    size: Sizes)
  {
    /** Both cursors lie in the chain, in order. */
    ghost predicate CursorsInChain() {
      && |bytes| == blocks * BLOCK_SIZE
      && rd.offset <= BLOCK_SIZE && wr.offset <= BLOCK_SIZE
      && (blocks == 0 ==> rd.block == rd.offset == wr.block == wr.offset == 0)
      && (blocks > 0 ==> rd.block < blocks && wr.block < blocks)
      && rd.Pos() <= wr.Pos() <= |bytes|
    }

    /** Each counter measures what KBuffer.h says it measures. */
    ghost predicate Accounted() {
      && size.used == rd.Pos()
      && rd.Pos() + size.readable == wr.Pos()
      && wr.Pos() + size.writable == |bytes|
      && size.buflen == |bytes|
      && size.buflen <= 2 * MAX_BLOCK_SIZE - BLOCK_SIZE
    }

    ghost predicate Inv() {
      CursorsInChain() && Accounted()
    }

    /** The write cursor sits at the end of a block only when that block is the last one. */
    ghost predicate Normal() {
      wr.offset == BLOCK_SIZE ==> wr.Pos() == |bytes|
    }

    /** The bytes a reader will see. */
    function Content(): seq<Byte>
      requires rd.Pos() <= wr.Pos() <= |bytes|
    {
      bytes[rd.Pos()..wr.Pos()]
    }

    /** Free space once the blocks already read have been rotated to the tail. */
    function Reclaimable(): nat {
      rd.block * BLOCK_SIZE + size.writable
    }

    /** `write` of `len` bytes finds the cursors in the order that `move_head` needs. */
    predicate WriteSafe(len: nat) {
      rd.block <= wr.block
      || len <= size.writable
      || (len > Reclaimable() && size.buflen >= MAX_BLOCK_SIZE)
    }

    /** `write` accepts `len` bytes: they fit into what can be reclaimed, or the buffer may still
        grow and they do not exceed the maximum together with what can be reclaimed. */
    predicate Accepts(len: nat) {
      len <= Reclaimable() || (size.buflen < MAX_BLOCK_SIZE && len + Reclaimable() <= MAX_BLOCK_SIZE)
    }

    /** `write` rotates the chain and then still rejects `len` bytes (KBuffer.cpp:167-171). */
    predicate RejectsLate(len: nat) {
      !Accepts(len) && size.buflen < MAX_BLOCK_SIZE
    }

    /** A late rejection that leaves the write cursor at the end of a block which is no longer the
        last: it was the last, and consumed blocks were put behind it. */
    predicate LosesNormalForm(len: nat) {
      RejectsLate(len) && wr.offset == BLOCK_SIZE && rd.block > 0
    }
  }

  const EMPTY: Buffer := Buffer([], 0, Cursor(0, 0), Cursor(0, 0), Sizes(0, 0, 0, 0))

  // ---------------------------------------------------------------- operations

  function DoWrite(s: Buffer, data: seq<Byte>): Buffer
    requires s.wr.Pos() + |data| <= |s.bytes| && |data| <= s.size.writable
  {
    s.(bytes := Overwrite(s.bytes, s.wr.Pos(), data),
       wr := Canonical(s.wr.Pos() + |data|, s.blocks),
       size := s.size.(readable := s.size.readable + |data|, writable := s.size.writable - |data|))
  }

  /** The blocks before the read cursor go to the tail.  A block at index i of the old chain is
      found at index i - rd.block of the new one, counted round. */
  function MoveHead(s: Buffer): Buffer
    requires s.rd.block * BLOCK_SIZE <= |s.bytes| && s.rd.block <= s.blocks
    requires s.rd.offset <= s.size.used
  {
    var cut := s.rd.block * BLOCK_SIZE;
    if s.rd.block == 0 then s
    else
      s.(bytes := s.bytes[cut..] + s.bytes[..cut],
         rd := Cursor(0, s.rd.offset),
         wr := Cursor(if s.wr.block >= s.rd.block then s.wr.block - s.rd.block
                      else s.wr.block + s.blocks - s.rd.block, s.wr.offset),
         size := s.size.(writable := s.size.writable + (s.size.used - s.rd.offset), used := s.rd.offset))
  }

  function MakeSpace(s: Buffer, size: nat): Buffer {
    var extra := BlocksFor(size) * BLOCK_SIZE;
    s.(bytes := s.bytes + Zeros(extra),
       blocks := s.blocks + BlocksFor(size),
       wr := if s.wr.offset == BLOCK_SIZE then Cursor(s.wr.block + 1, 0) else s.wr,
       size := s.size.(writable := s.size.writable + extra, buflen := s.size.buflen + extra))
  }

  /** The new buffer and the number of bytes reported as written. */
  function Write(s: Buffer, data: seq<Byte>): (r: (Buffer, nat))
    requires s.Inv() && s.WriteSafe(|data|)
  {
    if |data| > s.Reclaimable() && s.size.buflen >= MAX_BLOCK_SIZE then (s, 0)
    else if |data| <= s.size.writable then (DoWrite(s, data), |data|)
    else
      MoveHeadKeeps(s);
      var moved := MoveHead(s);
      if |data| <= s.Reclaimable() then (DoWrite(moved, data), |data|) else WriteGrown(moved, data)
  }

  /** The last part of `write`: the chain is rotated and still short of space. */
  function WriteGrown(s: Buffer, data: seq<Byte>): (r: (Buffer, nat))
    requires s.Inv() && s.rd.block == 0 && s.size.buflen < MAX_BLOCK_SIZE && s.size.writable < |data|
  {
    if |data| + s.size.writable > MAX_BLOCK_SIZE then (s, 0)
    else
      MakeSpaceKeeps(s, |data|);
      (DoWrite(MakeSpace(s, |data|), data), |data|)
  }

  function Retrieve(s: Buffer, size: nat): Buffer
    requires s.rd.Pos() <= |s.bytes|
  {
    var l := Min(size, s.size.readable);
    s.(rd := Canonical(s.rd.Pos() + l, s.blocks),
       size := s.size.(readable := s.size.readable - l, used := s.size.used + l))
  }

  /** `readFd` when the kernel delivers `delivered`; the new buffer and the returned count. */
  function ReadFd(s: Buffer, delivered: seq<Byte>): (r: (Buffer, nat))
    requires s.Inv() && |delivered| <= s.size.writable + EXTRA_SIZE
  {
    var t := |delivered|;
    if t <= s.size.writable then
      (s.(bytes := Overwrite(s.bytes, s.wr.Pos(), delivered),
          wr := if t == 0 then s.wr else Unnormalized(s.wr.Pos() + t),
          size := s.size.(readable := s.size.readable + t, writable := s.size.writable - t)), t)
    else
      var filled := Filled(s, delivered[..s.size.writable]);
      FilledKeeps(s, delivered[..s.size.writable]);
      var (grown, n) := Write(filled, delivered[s.size.writable..]);
      (grown, s.size.writable + n)
  }

  /** Every free byte of the chain filled, the write cursor at the end of the tail. */
  function Filled(s: Buffer, data: seq<Byte>): Buffer
    requires |data| == s.size.writable && s.wr.Pos() + s.size.writable == |s.bytes|
  {
    s.(bytes := Overwrite(s.bytes, s.wr.Pos(), data),
       wr := Canonical(|s.bytes|, s.blocks),
       size := s.size.(readable := s.size.readable + s.size.writable, writable := 0))
  }

  /** The index of the first newline of `q`, or |q| when there is none. */
  function FirstNewline(q: seq<Byte>): (k: nat)
    ensures k <= |q|
    ensures NEWLINE !in q[..k]
    ensures k < |q| ==> q[k] == NEWLINE
  {
    if q == [] || q[0] == NEWLINE then 0
    else
      assert q[..FirstNewline(q[1..]) + 1] == [q[0]] + q[1..][..FirstNewline(q[1..])];
      FirstNewline(q[1..]) + 1
  }

  /** The line that `getLine` copies out, newline included; empty when it fails. */
  function NextLine(q: seq<Byte>): seq<Byte> {
    var k := FirstNewline(q);
    if k < |q| then q[..k + 1] else []
  }

  // ---------------------------------------------------------------- what each operation keeps

  lemma CanonicalInChain(pos: nat, blocks: nat)
    requires pos <= blocks * BLOCK_SIZE
    ensures var c := Canonical(pos, blocks);
      && c.offset <= BLOCK_SIZE
      && (c.offset == BLOCK_SIZE ==> pos == blocks * BLOCK_SIZE)
      && if blocks == 0 then c.block == c.offset == 0 else c.block < blocks
  {
  }

  lemma OverwriteSlice(bytes: seq<Byte>, from: nat, pos: nat, data: seq<Byte>)
    requires from <= pos && pos + |data| <= |bytes|
    ensures Overwrite(bytes, pos, data)[from..pos + |data|] == bytes[from..pos] + data
  {
  }

  lemma InOrder(s: Buffer)
    requires s.Inv()
    ensures s.rd.Pos() <= s.wr.Pos() <= |s.bytes|
  {
  }

  lemma ContentLength(s: Buffer)
    requires s.Inv()
    ensures |s.Content()| == s.size.readable
  {
  }

  lemma DropSlice(bytes: seq<Byte>, from: nat, n: nat, to: nat)
    requires from + n <= to <= |bytes|
    ensures bytes[from + n..to] == bytes[from..to][n..]
  {
  }

  lemma DoWriteKeeps(s: Buffer, data: seq<Byte>)
    requires s.Inv() && |data| <= s.size.writable
    ensures var s' := DoWrite(s, data);
      s'.Inv() && s'.Normal() && s'.Content() == s.Content() + data
  {
    hide Canonical, Overwrite;
    CanonicalInChain(s.wr.Pos() + |data|, s.blocks);
    OverwriteSlice(s.bytes, s.rd.Pos(), s.wr.Pos(), data);
  }

  /** In a chain where both cursors lie in order, the read block is at most one past the write
      block, and then both cursors denote the same block boundary. */
  lemma BlockOrder(s: Buffer)
    requires s.Inv()
    ensures s.rd.block <= s.wr.block + 1
    ensures s.rd.block == s.wr.block + 1 <==> s.rd.block > s.wr.block
    ensures s.rd.block > s.wr.block ==> s.rd.offset == 0 && s.wr.offset == BLOCK_SIZE && s.size.readable == 0
    ensures s.Normal() ==> s.rd.block <= s.wr.block
  {
  }

  /** `move_head` is a rotation that changes nothing a reader or writer can see. */
  lemma MoveHeadKeeps(s: Buffer)
    requires s.Inv() && s.rd.block <= s.wr.block
    ensures var s' := MoveHead(s);
      && s'.Inv()
      && s'.Content() == s.Content()
      && s'.size.writable == s.Reclaimable() == s'.Reclaimable()
      && s'.rd.block == 0
      && (exists cut :: 0 <= cut <= |s.bytes| && s'.bytes == s.bytes[cut..] + s.bytes[..cut])
  {
    var s' := MoveHead(s);
    var cut := s.rd.block * BLOCK_SIZE;
    assert s.bytes == s.bytes[0..] + s.bytes[..0];
    assert s'.Content() == s.Content();
    if s.rd.block != 0 {
      assert s'.bytes == s.bytes[cut..] + s.bytes[..cut];
    }
  }

  lemma MoveHeadSound(s: Buffer)
    requires s.Inv() && s.rd.block <= s.wr.block
    ensures var s' := MoveHead(s);
      s'.Inv() && s'.rd.block == 0 && s'.size.writable == s.Reclaimable() && s'.size.buflen == s.size.buflen
  {
  }

  lemma FilledSound(s: Buffer, data: seq<Byte>)
    requires s.Inv() && |data| == s.size.writable
    ensures Filled(s, data).Inv() && Filled(s, data).Normal()
    ensures forall n :: Filled(s, data).WriteSafe(n)
  {
    hide Filled;
    FilledKeeps(s, data);
  }

  /** Exactly when rotation leaves a sound buffer: the condition is what `move_head` assumes of
      its caller, and when it fails the counters no longer describe the chain. */
  lemma MoveHeadSoundIff(s: Buffer)
    requires s.Inv()
    ensures MoveHead(s).Inv() <==> s.rd.block <= s.wr.block
  {
    if s.rd.block <= s.wr.block {
      MoveHeadKeeps(s);
    } else {
      BlockOrder(s);
      var s' := MoveHead(s);
      assert s'.size.writable == s.size.writable + s.rd.block * BLOCK_SIZE;
      assert s'.wr.Pos() == |s.bytes|;
    }
  }

  lemma MakeSpaceKeeps(s: Buffer, size: nat)
    requires s.Inv() && s.rd.block == 0 && s.size.buflen < MAX_BLOCK_SIZE
    requires s.size.writable < size && size + s.size.writable <= MAX_BLOCK_SIZE
    ensures var s' := MakeSpace(s, size);
      s'.Inv() && s'.Content() == s.Content() && size <= s'.size.writable
  {
    hide BlocksFor, Buffer.Content;
    BlocksForBound(size);
    MakeSpaceContent(s, size);
  }

  lemma MakeSpaceContent(s: Buffer, size: nat)
    requires s.Inv()
    ensures var s' := MakeSpace(s, size);
      s'.rd.Pos() <= s'.wr.Pos() <= |s'.bytes| && s'.Content() == s.Content()
  {
  }

  lemma BlocksForBound(size: nat)
    ensures size <= BlocksFor(size) * BLOCK_SIZE < size + BLOCK_SIZE
  {
  }

  lemma FilledKeeps(s: Buffer, data: seq<Byte>)
    requires s.Inv() && |data| == s.size.writable
    ensures var s' := Filled(s, data);
      s'.Inv() && s'.Normal() && s'.rd.block <= s'.wr.block && s'.Content() == s.Content() + data
  {
    hide Canonical, Overwrite;
    CanonicalInChain(|s.bytes|, s.blocks);
    OverwriteSlice(s.bytes, s.rd.Pos(), s.wr.Pos(), data);
    BlockOrder(Filled(s, data));
  }

  /** `write` appends exactly the bytes it reports, accepts exactly what `Accepts` says, and an
      early rejection changes nothing.  Normal form survives unless the rejection comes late. */
  lemma WriteKeeps(s: Buffer, data: seq<Byte>)
    requires s.Inv() && s.WriteSafe(|data|)
    ensures var (s', n) := Write(s, data);
      && s'.Inv()
      && n == (if s.Accepts(|data|) then |data| else 0)
      && s'.Content() == s.Content() + data[..n]
      && (s.Accepts(|data|) ==> s'.Normal())
      && (!s.Accepts(|data|) && !s.RejectsLate(|data|) ==> s' == s)
  {
    hide MoveHead, DoWrite, WriteGrown, Buffer.Content, Buffer.Normal;
    assert data[..|data|] == data && data[..0] == [];
    assert s.Content() + [] == s.Content();
    if |data| > s.Reclaimable() && s.size.buflen >= MAX_BLOCK_SIZE {
    } else if |data| <= s.size.writable {
      DoWriteKeeps(s, data);
    } else {
      MoveHeadKeeps(s);
      MoveHeadSound(s);
      var moved := MoveHead(s);
      if |data| <= s.Reclaimable() {
        DoWriteKeeps(moved, data);
      } else {
        WriteGrownKeeps(moved, data);
      }
    }
  }

  /** A write leaves normal form exactly then. */
  lemma WriteNormalIff(s: Buffer, data: seq<Byte>)
    requires s.Inv() && s.Normal()
    ensures s.WriteSafe(|data|)
    ensures Write(s, data).0.Normal() <==> !s.LosesNormalForm(|data|)
  {
    BlockOrder(s);
    WriteKeeps(s, data);
    if s.RejectsLate(|data|) {
      MoveHeadKeeps(s);
      RejectedLate(s, data);
      MoveHeadSizes(s);
    }
  }

  lemma RejectedLate(s: Buffer, data: seq<Byte>)
    requires s.Inv() && s.WriteSafe(|data|) && s.RejectsLate(|data|)
    ensures s.rd.block <= s.wr.block && Write(s, data) == (MoveHead(s), 0)
  {
    MoveHeadKeeps(s);
  }

  lemma MoveHeadSizes(s: Buffer)
    requires s.Inv() && s.rd.block <= s.wr.block
    ensures MoveHead(s).rd == Cursor(0, s.rd.offset)
    ensures MoveHead(s).wr == Cursor(s.wr.block - s.rd.block, s.wr.offset)
    ensures MoveHead(s).size.readable == s.size.readable && |MoveHead(s).bytes| == |s.bytes|
    ensures MoveHead(s).blocks == s.blocks
  {
  }

  lemma WriteGrownKeeps(s: Buffer, data: seq<Byte>)
    requires s.Inv() && s.rd.block == 0 && s.size.buflen < MAX_BLOCK_SIZE && s.size.writable < |data|
    ensures var (s', n) := WriteGrown(s, data);
      && s'.Inv()
      && (|data| + s.size.writable > MAX_BLOCK_SIZE ==> s' == s && n == 0)
      && (|data| + s.size.writable <= MAX_BLOCK_SIZE ==>
            n == |data| && s'.Content() == s.Content() + data && s'.Normal())
  {
    hide MakeSpace, DoWrite, Buffer.Content, Buffer.Normal;
    if |data| + s.size.writable <= MAX_BLOCK_SIZE {
      MakeSpaceKeeps(s, |data|);
      DoWriteKeeps(MakeSpace(s, |data|), data);
    }
  }

  lemma RetrieveSound(s: Buffer, size: nat)
    requires s.Inv()
    ensures Retrieve(s, size).Inv()
  {
    hide Canonical;
    CanonicalInChain(s.rd.Pos() + Min(size, s.size.readable), s.blocks);
  }

  /** Reading never disturbs the write side, and leaves normal form alone. */
  lemma RetrieveKeeps(s: Buffer, size: nat)
    requires s.Inv()
    ensures var s' := Retrieve(s, size);
      && s'.Inv()
      && s'.Content() == s.Content()[Min(size, |s.Content()|)..]
      && (s.Normal() ==> s'.Normal())
      && s'.wr == s.wr && s'.bytes == s.bytes
  {
    hide Canonical;
    var l := Min(size, s.size.readable);
    RetrieveSound(s, size);
    DropSlice(s.bytes, s.rd.Pos(), l, s.wr.Pos());
  }

  lemma FillKeeps(s: Buffer, delivered: seq<Byte>)
    requires s.Inv() && |delivered| <= s.size.writable
    ensures var s' := ReadFd(s, delivered).0;
      s'.Inv() && s'.Content() == s.Content() + delivered
  {
    hide Unnormalized, Overwrite, Filled, Write;
    if |delivered| > 0 {
      UnnormalizedInChain(s.wr.Pos() + |delivered|, s.blocks);
    }
    OverwriteSlice(s.bytes, s.rd.Pos(), s.wr.Pos(), delivered);
  }

  lemma UnnormalizedInChain(pos: nat, blocks: nat)
    requires 0 < pos <= blocks * BLOCK_SIZE
    ensures Unnormalized(pos).offset <= BLOCK_SIZE && Unnormalized(pos).block < blocks
  {
  }

  lemma FilledSizes(s: Buffer, data: seq<Byte>)
    requires s.Inv() && |data| == s.size.writable
    ensures var s' := Filled(s, data);
      s'.rd == s.rd && s'.size.writable == 0 && s'.size.buflen == s.size.buflen
  {
  }

  /** What does not fit into the chain is accepted unless the buffer can neither reclaim nor grow. */
  lemma OverflowAccepts(s: Buffer, data: seq<Byte>, len: nat)
    requires s.Inv() && |data| == s.size.writable && 0 < len <= EXTRA_SIZE
    ensures Filled(s, data).Accepts(len) <==>
      s.size.writable + len <= s.Reclaimable() || s.size.buflen < MAX_BLOCK_SIZE
  {
    hide Filled;
    FilledSizes(s, data);
  }

  lemma OverflowKeeps(s: Buffer, delivered: seq<Byte>)
    requires s.Inv() && s.size.writable < |delivered| <= s.size.writable + EXTRA_SIZE
    ensures var (s', n) := ReadFd(s, delivered);
      && s'.Inv()
      && n == (if |delivered| <= s.Reclaimable() || s.size.buflen < MAX_BLOCK_SIZE then |delivered|
               else s.size.writable)
      && s'.Content() == s.Content() + delivered[..n]
  {
    hide Filled, Write, Buffer.Content, Buffer.Normal, Buffer.Accepts;
    var head, rest := delivered[..s.size.writable], delivered[s.size.writable..];
    var filled := Filled(s, head);
    OverflowAccepts(s, head, |rest|);
    FilledKeeps(s, head);
    WriteKeeps(filled, rest);
    SplitDelivery(s.Content(), delivered, s.size.writable, Write(filled, rest).1);
  }

  lemma SplitDelivery(q: seq<Byte>, delivered: seq<Byte>, w: nat, n: nat)
    requires w + n <= |delivered|
    ensures (q + delivered[..w]) + delivered[w..][..n] == q + delivered[..w + n]
  {
    assert delivered[..w] + delivered[w..][..n] == delivered[..w + n];
  }

  /** `readFd` appends exactly the first `n` delivered bytes, n being the count it returns, from
      every sound state: in the chain, at a block boundary, and into the overflow area.  Only a
      full buffer makes it drop anything, and then it keeps what fitted into the chain. */
  lemma ReadFdKeeps(s: Buffer, delivered: seq<Byte>)
    requires s.Inv() && |delivered| <= s.size.writable + EXTRA_SIZE
    ensures var (s', n) := ReadFd(s, delivered);
      && s'.Inv()
      && n <= |delivered|
      && s'.Content() == s.Content() + delivered[..n]
      && n == (if |delivered| <= s.Reclaimable() || s.size.buflen < MAX_BLOCK_SIZE then |delivered|
               else s.size.writable)
  {
    hide Write, Filled, Buffer.Content, Overwrite, Unnormalized;
    var t := |delivered|;
    if t <= s.size.writable {
      FillKeeps(s, delivered);
      assert delivered[..t] == delivered;
    } else {
      OverflowKeeps(s, delivered);
    }
  }
}
