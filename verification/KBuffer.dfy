/** The buffer itself: pointers, cursors and counters over a chain of blocks. */
module KBuffers {
  import opened BufferSpec
  import opened BlockChains

  /** What `readv` returns: an error, or the bytes the kernel delivered. */
  datatype ReadResult = ReadError | Delivered(data: seq<Byte>)

  // ---------------------------------------------------------------- what the operations compute

  lemma FillShape(s: Buffer, data: seq<Byte>)
    requires s.Inv() && |data| <= s.size.writable
    ensures s.wr.Pos() + |data| <= |s.bytes|
    ensures var s' := BufferSpec.ReadFd(s, data).0;
      && s'.Inv() && s'.bytes == Overwrite(s.bytes, s.wr.Pos(), data)
      && s'.blocks == s.blocks && s'.rd == s.rd
      && s'.wr == (if |data| == 0 then s.wr else Unnormalized(s.wr.Pos() + |data|))
      && s'.size.readable == s.size.readable + |data| && s'.size.writable == s.size.writable - |data|
      && s'.size.used == s.size.used && s'.size.buflen == s.size.buflen
  {
    FillKeeps(s, data);
  }

  lemma FilledShape(s: Buffer, data: seq<Byte>)
    requires s.Inv() && |data| == s.size.writable
    ensures s.wr.Pos() + |data| == |s.bytes|
    ensures var s' := Filled(s, data);
      && s'.Inv() && s'.bytes == Overwrite(s.bytes, s.wr.Pos(), data)
      && s'.blocks == s.blocks && s'.rd == s.rd
      && (s.blocks == 0 ==> s'.wr.offset == 0)
      && (s.blocks > 0 ==> s'.wr.block == s.blocks - 1 && s'.wr.offset == BLOCK_SIZE)
      && s'.size.readable == s.size.readable + |data| && s'.size.writable == 0
      && s'.size.used == s.size.used && s'.size.buflen == s.size.buflen
  {
    FilledKeeps(s, data);
  }

  lemma MoveHeadStays(s: Buffer)
    requires s.Inv() && s.rd.block == 0
    ensures BufferSpec.MoveHead(s) == s
  {
  }

  lemma DoWriteShape(s: Buffer, data: seq<Byte>)
    requires s.Inv() && |data| <= s.size.writable
    ensures s.wr.Pos() + |data| <= |s.bytes|
    ensures var s' := BufferSpec.DoWrite(s, data);
      && s'.Inv() && s'.bytes == Overwrite(s.bytes, s.wr.Pos(), data)
      && s'.blocks == s.blocks && s'.rd == s.rd && s'.wr == Canonical(s.wr.Pos() + |data|, s.blocks)
      && s'.size.readable == s.size.readable + |data| && s'.size.writable == s.size.writable - |data|
      && s'.size.used == s.size.used && s'.size.buflen == s.size.buflen
  {
    DoWriteKeeps(s, data);
  }

  lemma MoveHeadShape(s: Buffer)
    requires s.Inv() && 0 < s.rd.block <= s.wr.block
    ensures s.rd.block * BLOCK_SIZE <= |s.bytes|
    ensures var s' := BufferSpec.MoveHead(s);
      && s'.Inv()
      && s'.bytes == s.bytes[s.rd.block * BLOCK_SIZE..] + s.bytes[..s.rd.block * BLOCK_SIZE]
      && s'.blocks == s.blocks
      && s'.rd.block == 0 && s'.rd.offset == s.rd.offset
      && s'.wr.block == s.wr.block - s.rd.block && s'.wr.offset == s.wr.offset
      && s'.size.readable == s.size.readable && s'.size.buflen == s.size.buflen
      && s'.size.writable == s.size.writable + (s.size.used - s.rd.offset)
      && s'.size.used == s.rd.offset
  {
    MoveHeadKeeps(s);
  }

  lemma MakeSpaceShape(s: Buffer, size: nat)
    requires s.Inv() && BufferSpec.MakeSpace(s, size).Inv()
    ensures var s', added := BufferSpec.MakeSpace(s, size), BlocksFor(size) * BLOCK_SIZE;
      && s'.bytes == s.bytes + Zeros(added) && s'.blocks == s.blocks + BlocksFor(size) && s'.rd == s.rd
      && (s.wr.offset == BLOCK_SIZE ==> s'.wr.block == s.wr.block + 1 && s'.wr.offset == 0)
      && (s.wr.offset != BLOCK_SIZE ==> s'.wr == s.wr)
      && s'.size.readable == s.size.readable && s'.size.used == s.size.used
      && s'.size.writable == s.size.writable + added && s'.size.buflen == s.size.buflen + added
  {
  }

  lemma RetrieveShape(s: Buffer, size: nat)
    requires s.Inv()
    ensures var s', len := BufferSpec.Retrieve(s, size), Min(size, s.size.readable);
      && s'.Inv() && s'.bytes == s.bytes && s'.blocks == s.blocks && s'.wr == s.wr
      && s'.rd == Canonical(s.rd.Pos() + len, s.blocks)
      && s'.size.readable == s.size.readable - len && s'.size.used == s.size.used + len
      && s'.size.writable == s.size.writable && s'.size.buflen == s.size.buflen
  {
    RetrieveSound(s, size);
  }

  lemma NewBuffer() returns (s: Buffer, chain: seq<DataBlock>, bufs: seq<array<Byte>>)
    ensures |s.bytes| == s.blocks == |chain| == |bufs| == 0 && s.rd.Pos() == s.wr.Pos() == 0
    ensures s.size.readable == s.size.writable == s.size.used == s.size.buflen == 0
    ensures s.Inv()
  {
    s, chain, bufs := EMPTY, [], [];
  }

  class KBuffer {
    var head: DataBlock?
    var tail: DataBlock?
    var readstr: DataBlock?
    var writestr: DataBlock?
    var readablePos: nat
    var writablePos: nat
    var readableSize: nat
    var writableSize: nat
    var usedSize: nat
    var buflen: nat

    ghost var chain: seq<DataBlock>    // the blocks from head to tail
    ghost var bufs: seq<array<Byte>>   // their arrays
    ghost var view: Buffer             // what the buffer stands for
    ghost var Repr: set<object>

    /** The pointers and counters are those of `view`. */
    ghost predicate Viewed()
      reads this
    {
      && view.blocks == |chain|
      && readablePos == view.rd.offset && writablePos == view.wr.offset
      && readableSize == view.size.readable && writableSize == view.size.writable
      && usedSize == view.size.used && buflen == view.size.buflen
      && if |chain| == 0 then head == tail == readstr == writestr == null
         else
           && view.rd.block < |chain| && view.wr.block < |chain|
           && head == chain[0] && tail == chain[|chain| - 1]
           && readstr == chain[view.rd.block] && writestr == chain[view.wr.block]
    }

    ghost predicate Valid()
      reads this, Repr
      ensures Valid() ==> this in Repr
    {
      && this in Repr
      && Owned(chain, bufs, Repr) && Links(chain) && Holds(bufs, view.bytes)
      && Viewed() && view.Inv()
    }

    constructor ()
      ensures fresh(Repr)
      ensures Valid() && view.blocks == 0
    {
      head, tail, readstr, writestr := null, null, null, null;
      readablePos, writablePos, readableSize, writableSize := 0, 0, 0, 0;
      usedSize, buflen := 0, 0;
      ghost var empty, none, noBufs := NewBuffer();
      chain, bufs, view, Repr := none, noBufs, empty, {this};
    }

    ghost method Become(newChain: seq<DataBlock>, newBufs: seq<array<Byte>>, next: Buffer, objects: set<object>)
      modifies `chain, `bufs, `view, `Repr
      ensures chain == newChain && bufs == newBufs && view == next && Repr == objects
    {
      chain, bufs, view, Repr := newChain, newBufs, next, objects;
    }

    lemma ViewedBounds()
      requires Viewed() && view.Inv()
      ensures view.wr.Pos() == view.wr.block * BLOCK_SIZE + writablePos && writablePos <= BLOCK_SIZE
      ensures view.wr.Pos() + writableSize == |chain| * BLOCK_SIZE == |view.bytes|
      ensures view.size.readable == readableSize && view.size.writable == writableSize
      ensures view.size.used == usedSize && view.size.buflen == buflen
      ensures view.blocks == |chain|
      ensures |chain| == 0 ==> tail == null && writestr == null
      ensures |chain| > 0 ==>
        view.wr.block < |chain| && tail == chain[|chain| - 1] && writestr == chain[view.wr.block]
    {
    }

    lemma Bounds()
      requires Valid()
      ensures Owned(chain, bufs, Repr) && Links(chain) && Holds(bufs, view.bytes) && view.Inv()
      ensures view.rd.Pos() == view.rd.block * BLOCK_SIZE + readablePos && readablePos <= BLOCK_SIZE
      ensures view.wr.Pos() == view.wr.block * BLOCK_SIZE + writablePos && writablePos <= BLOCK_SIZE
      ensures view.rd.Pos() + readableSize == view.wr.Pos()
      ensures view.wr.Pos() + writableSize == |chain| * BLOCK_SIZE == |view.bytes| == buflen
      ensures view.size == Sizes(readableSize, writableSize, usedSize, buflen)
      ensures usedSize == view.rd.Pos() && view.blocks == |chain|
      ensures |chain| == 0 ==>
        && view.rd.block == readablePos == view.wr.block == writablePos == 0
        && head == tail == readstr == writestr == null
      ensures |chain| > 0 ==>
        && view.rd.block < |chain| && view.wr.block < |chain|
        && head == chain[0] && tail == chain[|chain| - 1]
        && readstr == chain[view.rd.block] && writestr == chain[view.wr.block]
    {
    }

    // ---------------------------------------------------------------- reading

    method Peek(buf: array<Byte>, size: nat)
      requires Valid() && buf !in Repr && Min(size, readableSize) <= buf.Length
      modifies buf
      ensures buf[..] == view.Content()[..Min(size, readableSize)] + old(buf[Min(size, readableSize)..])
    {
      hide Links, Holds, Owned, Buffer.Inv, Buffer.Content, Copied;
      Bounds();
      OwnedApart(chain, bufs, Repr, buf);
      var l := if size > readableSize then readableSize else size;
      ghost var rest := buf[..];
      CopyOut(buf, readstr, readablePos, l, chain, bufs, view.bytes, view.rd.block);
      AllCopied(buf, view, l, rest);
    }

    /** The walk of `retrieve`: `len` bytes on from the read cursor. */
    method Advance(len: nat) returns (walk: DataBlock?, pos: nat, ghost k: nat)
      requires Valid() && len <= readableSize
      ensures k * BLOCK_SIZE + pos == view.rd.Pos() + len && pos <= BLOCK_SIZE
      ensures if |chain| == 0 then k == 0 && walk == null else k < |chain| && walk == chain[k]
    {
      hide Links, Holds, Buffer.Inv;
      Bounds();
      ghost var first: nat, start: nat := view.rd.block, view.rd.Pos();
      var l := len;
      k := first;
      walk, pos := readstr, readablePos;
      while len > 0
        invariant pos == readablePos && 0 <= l <= len && (if len > 0 then l > 0 else k == first)
        invariant (k == first && l == len) || (k > first && start + len == k * BLOCK_SIZE + l)
        invariant if |chain| == 0 then k == 0 && walk == null else k < |chain| && walk == chain[k]
        decreases |chain| - k
      {
        Distinct(chain, first, k);
        LinksAt(chain, k);
        if walk == readstr {
          if BLOCK_SIZE - pos >= l {
            pos := pos + l;
            break;
          } else {
            l := l - (BLOCK_SIZE - pos);
          }
        } else {
          if BLOCK_SIZE >= l {
            pos := l;
            break;
          } else {
            l := l - BLOCK_SIZE;
          }
        }
        walk := walk.next;
        k := k + 1;
      }
    }

    /** The field updates of `retrieve`, `next` being the buffer they stand for. */
    method MoveReader(walk: DataBlock?, pos: nat, len: nat, ghost next: Buffer)
      requires Valid() && len <= readableSize
      requires next.Inv() && next.bytes == view.bytes && next.blocks == view.blocks && next.wr == view.wr
      requires next.size.readable == readableSize - len && next.size.used == usedSize + len
      requires next.size.writable == writableSize && next.size.buflen == buflen
      requires pos == next.rd.offset
      requires if |chain| == 0 then walk == null
               else next.rd.block < |chain| && walk == chain[next.rd.block]
      modifies this
      ensures Valid() && view == next && Repr == old(Repr)
    {
      hide Links, Holds, Owned, Buffer.Inv;
      readableSize := readableSize - len;
      usedSize := usedSize + len;
      readstr := walk;
      readablePos := pos;
      view := next;
    }

    method Retrieve(size: nat)
      requires Valid()
      modifies this
      ensures Valid() && Repr == old(Repr)
      ensures view == BufferSpec.Retrieve(old(view), size)
    {
      hide Links, Holds, Owned, Buffer.Inv, BufferSpec.Retrieve, Canonical;
      Bounds();
      var len := if size > readableSize then readableSize else size;
      RetrieveShape(view, size);
      var walk, pos, k := Advance(len);
      walk, pos, k := StepOver(walk, pos, chain, k);
      MoveReader(walk, pos, len, BufferSpec.Retrieve(view, size));
    }

    method Read(buf: array<Byte>, size: nat)
      requires Valid() && buf !in Repr && Min(size, readableSize) <= buf.Length
      modifies this, buf
      ensures Valid() && Repr == old(Repr)
      ensures view == BufferSpec.Retrieve(old(view), size)
      ensures var l := old(Min(size, readableSize));
        buf[..] == old(view).Content()[..l] + old(buf[l..])
    {
      Peek(buf, size);
      Retrieve(size);
    }

    static lemma NextLineIs(q: seq<Byte>)
      ensures FirstNewline(q) < |q| ==>
        NextLine(q) == q[..FirstNewline(q) + 1] && |NextLine(q)| == FirstNewline(q) + 1
      ensures FirstNewline(q) == |q| ==> NextLine(q) == []
    {
    }

    /** `getLine` needs something to read and, if a line is there, room for it in `buf`. */
    method GetLine(buf: array<Byte>) returns (found: bool)
      requires Valid() && readableSize > 0
      requires buf !in Repr && |NextLine(view.Content())| <= buf.Length
      modifies this, buf
      ensures Valid() && Repr == old(Repr)
      ensures found <==> NextLine(old(view).Content()) != []
      ensures found ==> var line := NextLine(old(view).Content());
        view == BufferSpec.Retrieve(old(view), |line|) && buf[..] == line + old(buf[|line|..])
      ensures !found ==> view == old(view) && buf[..] == old(buf[..])
    {
      hide Links, Holds, Owned, Viewed, Buffer.Inv, FirstNewline, NextLine, BufferSpec.Retrieve;
      Bounds();
      NextLineIs(view.Content());
      OwnedApart(chain, bufs, Repr, buf);
      var i := FindNewline(readstr, readablePos, readableSize, chain, bufs, view.bytes, view.rd.block);
      if i >= readableSize {
        return false;
      }
      Read(buf, i + 1);
      return true;
    }

    // ---------------------------------------------------------------- writing

    /** The field updates after `len` bytes went in at the write cursor, `next` being the buffer
        that the blocks now hold. */
    method MoveWriter(walk: DataBlock?, pos: nat, len: nat, ghost next: Buffer)
      requires this in Repr && Owned(chain, bufs, Repr) && Links(chain) && Viewed()
      requires Holds(bufs, next.bytes) && next.Inv() && len <= writableSize
      requires next.blocks == view.blocks && next.rd == view.rd
      requires next.size.readable == readableSize + len && next.size.writable == writableSize - len
      requires next.size.used == usedSize && next.size.buflen == buflen
      requires pos == next.wr.offset
      requires if |chain| == 0 then walk == null
               else next.wr.block < |chain| && walk == chain[next.wr.block]
      modifies this
      ensures Valid() && view == next && Repr == old(Repr)
    {
      hide Links, Holds, Owned, Buffer.Inv;
      readableSize := readableSize + len;
      writableSize := writableSize - len;
      writestr := walk;
      writablePos := pos;
      view := next;
    }

    method DoWrite(data: seq<Byte>)
      requires Valid() && |data| <= writableSize
      modifies this, bufs
      ensures Valid() && Repr == old(Repr)
      ensures view == BufferSpec.DoWrite(old(view), data)
    {
      hide Links, Holds, Owned, Buffer.Inv, BufferSpec.DoWrite, Canonical, Overwrite;
      Bounds();
      OwnedPaired(chain, bufs, Repr);
      DoWriteShape(view, data);
      var walk, pos, k := FillChain(writestr, writablePos, data, chain, bufs, view.bytes, view.wr.block);
      walk, pos, k := StepOver(walk, pos, chain, k);
      MoveWriter(walk, pos, |data|, BufferSpec.DoWrite(view, data));
    }

    /** The field updates of `move_head`, once the blocks are linked in their new order. */
    method MoveFront(newTail: DataBlock, ghost newChain: seq<DataBlock>,
                     ghost newBufs: seq<array<Byte>>, ghost next: Buffer)
      requires this in Repr && Owned(newChain, newBufs, Repr) && Links(newChain) && Viewed()
      requires Holds(newBufs, next.bytes) && next.Inv() && readablePos <= usedSize
      requires |newChain| == |chain| > 0 && next.blocks == view.blocks
      requires readstr == newChain[0] && newTail == newChain[|newChain| - 1]
      requires next.wr.block < |newChain| && writestr == newChain[next.wr.block]
      requires next.rd.block == 0 && next.rd.offset == readablePos && next.wr.offset == writablePos
      requires next.size.readable == readableSize && next.size.buflen == buflen
      requires next.size.writable == writableSize + (usedSize - readablePos)
      requires next.size.used == readablePos
      modifies this
      ensures Valid() && view == next && Repr == old(Repr)
    {
      hide Links, Holds, Owned, Buffer.Inv;
      tail := newTail;
      head := readstr;
      writableSize := writableSize + (usedSize - readablePos);
      usedSize := readablePos;
      Become(newChain, newBufs, next, Repr);
    }

    method MoveHead()
      requires Valid() && view.rd.block <= view.wr.block
      modifies this, chain
      ensures Valid() && Repr == old(Repr)
      ensures view == BufferSpec.MoveHead(old(view))
    {
      hide Links, Holds, Owned, Buffer.Inv, BufferSpec.MoveHead;
      Bounds();
      if |chain| > 0 {
        Distinct(chain, 0, view.rd.block);
      }
      if readstr != head {
        MoveHeadShape(view);
        ghost var cut, next := view.rd.block, BufferSpec.MoveHead(view);
        RotateHolds(bufs, view.bytes, cut);
        RotateOwned(chain, bufs, Repr, cut);
        var temp := Rotate(head, tail, readstr, chain, cut);
        MoveFront(temp, chain[cut..] + chain[..cut], bufs[cut..] + bufs[..cut], next);
      } else {
        MoveHeadStays(view);
      }
    }

    method MakeSpace(size: nat)
      requires Valid() && size > 0 && BufferSpec.MakeSpace(view, size).Inv()
      modifies this, chain
      ensures Valid() && fresh(Repr - old(Repr)) && old(Repr) <= Repr
      ensures view == BufferSpec.MakeSpace(old(view), size)
    {
      hide Links, Holds, Owned, Buffer.Inv, BufferSpec.MakeSpace, BlocksFor;
      Bounds();
      OwnedPaired(chain, bufs, Repr);
      MakeSpaceShape(view, size);
      ghost var next := BufferSpec.MakeSpace(view, size);
      var first, walk, added, grown, news := GrowChain(tail, size, chain, bufs, view.bytes, Repr);
      LinksAt(grown.chain, view.wr.block);
      if tail == null {
        MoveTailFirst(first, walk, added, grown.chain, grown.bufs, Repr + news, next);
      } else {
        MoveTail(walk, added, grown.chain, grown.bufs, Repr + news, next);
      }
    }

    /** The field updates of `makeSpace` on an empty chain: `added` blocks from `first` to `walk`. */
    method MoveTailFirst(first: DataBlock, walk: DataBlock, added: nat, ghost newChain: seq<DataBlock>,
                         ghost newBufs: seq<array<Byte>>, ghost objects: set<object>, ghost next: Buffer)
      requires this in Repr && Repr <= objects && Owned(newChain, newBufs, objects) && Links(newChain)
      requires Viewed() && Holds(newBufs, next.bytes) && next.Inv() && |chain| == 0
      requires |newChain| == added == next.blocks && added > 0
      requires next.rd.block < added && next.wr.block < added && walk == newChain[added - 1]
      requires first == newChain[0] == newChain[next.rd.block] == newChain[next.wr.block]
      requires next.rd.offset == readablePos && next.wr.offset == writablePos
      requires next.size.readable == readableSize && next.size.used == usedSize
      requires next.size.writable == writableSize + added * BLOCK_SIZE
      requires next.size.buflen == buflen + added * BLOCK_SIZE
      modifies this
      ensures Valid() && view == next && Repr == objects
    {
      hide Links, Holds, Owned, Buffer.Inv;
      head, writestr, readstr := first, first, first;
      buflen := buflen + added * BLOCK_SIZE;
      writableSize := writableSize + added * BLOCK_SIZE;
      tail := walk;
      Become(newChain, newBufs, next, objects);
    }

    /** The field updates of `makeSpace` when `added` blocks up to `walk` follow the old tail. */
    method MoveTail(walk: DataBlock, added: nat, ghost newChain: seq<DataBlock>,
                    ghost newBufs: seq<array<Byte>>, ghost objects: set<object>, ghost next: Buffer)
      requires this in Repr && Repr <= objects && Owned(newChain, newBufs, objects) && Links(newChain)
      requires Viewed() && Holds(newBufs, next.bytes) && next.Inv() && |chain| > 0
      requires |newChain| == |chain| + added == next.blocks && added > 0 && chain <= newChain
      requires walk == newChain[|newChain| - 1]
      requires writablePos == BLOCK_SIZE ==>
        && next.wr.block == view.wr.block + 1 < |newChain| && next.wr.offset == 0
        && newChain[view.wr.block].next == newChain[view.wr.block + 1]
      requires writablePos != BLOCK_SIZE ==> next.wr == view.wr
      requires next.rd == view.rd
      requires next.size.readable == readableSize && next.size.used == usedSize
      requires next.size.writable == writableSize + added * BLOCK_SIZE
      requires next.size.buflen == buflen + added * BLOCK_SIZE
      modifies this
      ensures Valid() && view == next && Repr == objects
    {
      hide Links, Holds, Owned, Buffer.Inv;
      buflen := buflen + added * BLOCK_SIZE;
      writableSize := writableSize + added * BLOCK_SIZE;
      tail := walk;
      if writablePos == BLOCK_SIZE {
        writestr := writestr.next;
        writablePos := 0;
      }
      Become(newChain, newBufs, next, objects);
    }

    /** The last part of `write`, with the chain rotated and still short of space. */
    method WriteGrown(data: seq<Byte>) returns (n: nat)
      requires Valid() && view.rd.block == 0 && buflen < MAX_BLOCK_SIZE && |data| > writableSize
      modifies Repr
      ensures Valid() && fresh(Repr - old(Repr)) && old(Repr) <= Repr
      ensures view == BufferSpec.WriteGrown(old(view), data).0
      ensures n == BufferSpec.WriteGrown(old(view), data).1
    {
      hide Links, Holds, Owned, Viewed, Buffer.Inv, BufferSpec.DoWrite, BufferSpec.MakeSpace, Cursor.Pos;
      Bounds();
      OwnedWithin(chain, bufs, Repr);
      var size := |data|;
      var room: nat := MAX_BLOCK_SIZE - writableSize;   // unsigned: no wrap-around
      if size > room {
        return 0;
      } else {
        MakeSpaceKeeps(view, size);
        MakeSpace(size);
        Bounds();
        OwnedWithin(chain, bufs, Repr);
        DoWrite(data);
        return size;
      }
    }

    /** `write` is called with its cursors in the order `move_head` needs: see WriteSafe. */
    method Write(data: seq<Byte>) returns (n: nat)
      requires Valid() && view.WriteSafe(|data|)
      modifies Repr
      ensures Valid() && fresh(Repr - old(Repr)) && old(Repr) <= Repr
      ensures view == BufferSpec.Write(old(view), data).0 && n == BufferSpec.Write(old(view), data).1
    {
      hide Links, Holds, Owned, Viewed, Buffer.Inv, BufferSpec.DoWrite, BufferSpec.MoveHead, BufferSpec.WriteGrown;
      Bounds();
      OwnedWithin(chain, bufs, Repr);
      var size := |data|;
      var consumed: nat := usedSize - readablePos;      // unsigned: no wrap-around
      if size > consumed + writableSize && buflen >= MAX_BLOCK_SIZE {
        return 0;
      }
      if size <= writableSize {
        DoWrite(data);
        return size;
      }
      MoveHeadSound(view);
      var fits := size <= consumed + writableSize;
      MoveHead();
      Bounds();
      if fits {
        OwnedWithin(chain, bufs, Repr);
        DoWrite(data);
        return size;
      } else {
        n := WriteGrown(data);
      }
    }

    // ---------------------------------------------------------------- readFd

    /** Where a read of `len` bytes into the free space leaves the write cursor, `vec` being that
        space from the write block on. */
    static lemma UnnormalizedIs(block: nat, offset: nat, len: nat)
      requires offset <= BLOCK_SIZE && len > 0
      ensures Unnormalized(block * BLOCK_SIZE + offset + len) ==
        if len <= BLOCK_SIZE - offset then Cursor(block, offset + len)
        else
          var over := len - (BLOCK_SIZE - offset);
          if over % BLOCK_SIZE == 0 then Cursor(block + over / BLOCK_SIZE, BLOCK_SIZE)
          else Cursor(block + over / BLOCK_SIZE + 1, over % BLOCK_SIZE)
    {
    }

    /** The entry and the offset at which `n` bytes end that go beyond the first entry. */
    static method Landing(writablePos: nat, n: nat, ghost block: nat, ghost blocks: nat) returns (pos: nat, offset: nat)
      requires writablePos <= BLOCK_SIZE && n > BLOCK_SIZE - writablePos
      requires block * BLOCK_SIZE + writablePos + n <= blocks * BLOCK_SIZE
      ensures Unnormalized(block * BLOCK_SIZE + writablePos + n) == Cursor(block + pos, offset)
      ensures block + pos < blocks && offset <= BLOCK_SIZE
    {
      UnnormalizedIs(block, writablePos, n);
      pos := (n - (BLOCK_SIZE - writablePos)) / BLOCK_SIZE;
      offset := (n - (BLOCK_SIZE - writablePos)) % BLOCK_SIZE;
      if offset == 0 {
        offset := BLOCK_SIZE;
      } else {
        pos := pos + 1;
      }
    }

    /** What `readFd` does once `n` bytes fitted into the free space. */
    method Fill(vec: seq<IoVec>, n: nat, ghost data: seq<Byte>)
      requires this in Repr && Owned(chain, bufs, Repr) && Links(chain) && Viewed() && view.Inv()
      requires |data| == n <= writableSize && view.wr.Pos() + n <= |view.bytes|
      requires Holds(bufs, Overwrite(view.bytes, view.wr.Pos(), data))
      requires writablePos <= BLOCK_SIZE && IsFreeSpace(vec, chain, view.wr.block, writablePos)
      modifies this
      ensures Valid() && Repr == old(Repr)
      ensures view == BufferSpec.ReadFd(old(view), data).0
    {
      hide Links, Holds, Owned, Viewed, Buffer.Inv, Overwrite, BufferSpec.Write, BufferSpec.Filled, Unnormalized;
      ViewedBounds();
      FillShape(view, data);
      ghost var next := BufferSpec.ReadFd(view, data).0;
      if n <= BLOCK_SIZE - writablePos {
        if n > 0 {
          UnnormalizedIs(view.wr.block, writablePos, n);
        }
        MoveWriter(writestr, writablePos + n, n, next);
      } else {
        var pos, offset := Landing(writablePos, n, view.wr.block, |chain|);
        MoveWriter(vec[pos].block, offset, n, next);
      }
    }

    /** What `readFd` does first when the free space was filled to the last byte. */
    method FillUp(ghost data: seq<Byte>)
      requires this in Repr && Owned(chain, bufs, Repr) && Links(chain) && Viewed() && view.Inv()
      requires |data| == writableSize && view.wr.Pos() + writableSize == |view.bytes|
      requires Holds(bufs, Overwrite(view.bytes, view.wr.Pos(), data))
      modifies this
      ensures Valid() && Repr == old(Repr)
      ensures view == Filled(old(view), data)
    {
      hide Links, Holds, Owned, Viewed, Buffer.Inv, Overwrite, BufferSpec.Filled;
      ViewedBounds();
      FilledShape(view, data);
      MoveWriter(tail, if tail != null then BLOCK_SIZE else 0, writableSize, Filled(view, data));
    }

    static lemma FitsWhole(s: Buffer, data: seq<Byte>)
      requires s.Inv() && |data| <= s.size.writable
      ensures BufferSpec.ReadFd(s, data).1 == |data|
    {
    }

    static lemma OverflowIs(s: Buffer, data: seq<Byte>)
      requires s.Inv() && s.size.writable < |data| <= s.size.writable + EXTRA_SIZE
      ensures Filled(s, data[..s.size.writable]).Inv()
      ensures Filled(s, data[..s.size.writable]).WriteSafe(|data| - s.size.writable)
      ensures var (grown, n) := BufferSpec.Write(Filled(s, data[..s.size.writable]), data[s.size.writable..]);
        BufferSpec.ReadFd(s, data) == (grown, s.size.writable + n)
    {
      FilledSound(s, data[..s.size.writable]);
    }

    /** `readv` with an error changes nothing; otherwise `readFd` returns the number of delivered
        bytes that it kept. */
    method ReadFd(result: ReadResult) returns (t: int)
      requires Valid()
      requires result.Delivered? ==> |result.data| <= writableSize + EXTRA_SIZE
      modifies Repr
      ensures Valid() && fresh(Repr - old(Repr)) && old(Repr) <= Repr
      ensures result.ReadError? ==> view == old(view) && t < 0
      ensures result.Delivered? ==>
        view == BufferSpec.ReadFd(old(view), result.data).0 && t == BufferSpec.ReadFd(old(view), result.data).1
    {
      hide Links, Holds, Owned, Viewed, Buffer.Inv, IsFreeSpace, BufferSpec.ReadFd;
      Bounds();
      var vec := FreeSpace(writestr, writablePos, chain, view.wr.block);
      if result.ReadError? {
        return -1;
      }
      t := Receive(vec, result.data);
    }

    /** What `readFd` does with delivered bytes, `vec` being the free space. */
    method Receive(vec: seq<IoVec>, data: seq<Byte>) returns (t: nat)
      requires Valid() && |data| <= writableSize + EXTRA_SIZE
      requires writablePos <= BLOCK_SIZE && IsFreeSpace(vec, chain, view.wr.block, writablePos)
      modifies Repr
      ensures Valid() && fresh(Repr - old(Repr)) && old(Repr) <= Repr
      ensures view == BufferSpec.ReadFd(old(view), data).0 && t == BufferSpec.ReadFd(old(view), data).1
    {
      hide Links, Holds, Owned, Viewed, Buffer.Inv, Buffer.WriteSafe, IsFreeSpace, Overwrite;
      hide BufferSpec.ReadFd, BufferSpec.Write, BufferSpec.Filled;
      Bounds();
      OwnedWithin(chain, bufs, Repr);
      OwnedPaired(chain, bufs, Repr);
      var writable := writableSize;
      if |data| <= writable {
        FitsWhole(view, data);
      } else {
        OverflowIs(view, data);
      }
      var extrabuf := Scatter(vec, data, chain, bufs, view.bytes, view.wr.block, writablePos);
      if |data| <= writable {
        assert data[..|data|] == data;
        Fill(vec, |data|, data);
        return |data|;
      } else {
        var t2 := Overflow(extrabuf, data[..writable]);
        return writable + t2;
      }
    }

    /** What `readFd` does when `extrabuf` was needed; `data` is what filled the free space. */
    method Overflow(extrabuf: seq<Byte>, ghost data: seq<Byte>) returns (t2: nat)
      requires this in Repr && Owned(chain, bufs, Repr) && Links(chain) && Viewed() && view.Inv()
      requires |data| == writableSize && view.wr.Pos() + writableSize == |view.bytes|
      requires Holds(bufs, Overwrite(view.bytes, view.wr.Pos(), data))
      requires Filled(view, data).Inv() && Filled(view, data).WriteSafe(|extrabuf|)
      modifies Repr
      ensures Valid() && fresh(Repr - old(Repr)) && old(Repr) <= Repr
      ensures view == BufferSpec.Write(Filled(old(view), data), extrabuf).0
      ensures t2 == BufferSpec.Write(Filled(old(view), data), extrabuf).1
    {
      hide Links, Holds, Owned, Viewed, Buffer.Inv, Overwrite, BufferSpec.Filled, BufferSpec.Write, Buffer.WriteSafe;
      FillUp(data);
      t2 := Write(extrabuf);
    }
  }
}
