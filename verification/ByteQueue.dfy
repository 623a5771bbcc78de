/** Whole runs of a `KBuffer`: every run that keeps to what `write` needs behaves as a plain queue
    of bytes, and both ways the repository uses a buffer keep to it. */
module ByteQueue {
  import opened BufferSpec

  datatype Op =
    | Write(data: seq<Byte>)
    | Peek(size: nat)
    | Read(size: nat)
    | Retrieve(size: nat)
    | GetLine
    | ReadFd(delivered: seq<Byte>)

  /** The returned count (1 or 0 for `getLine`) and the bytes copied out to the caller. */
  datatype Reply = Reply(count: nat, out: seq<Byte>)

  /** What an operation asks of the state it is called in. */
  ghost predicate Allowed(s: Buffer, op: Op) {
    match op
    case Write(data) => s.WriteSafe(|data|)
    case GetLine => s.size.readable > 0
    case ReadFd(delivered) => |delivered| <= s.size.writable + EXTRA_SIZE
    case _ => true
  }

  function Prefix(s: Buffer, size: nat): seq<Byte>
    requires s.Inv()
  {
    s.Content()[..Min(size, s.size.readable)]
  }

  function Step(s: Buffer, op: Op): (r: (Buffer, Reply))
    requires s.Inv() && Allowed(s, op)
    ensures r.0.Inv()
  {
    match op
    case Write(data) =>
      WriteKeeps(s, data);
      var (s', n) := BufferSpec.Write(s, data); (s', Reply(n, []))
    case Peek(size) => (s, Reply(0, Prefix(s, size)))
    case Read(size) =>
      RetrieveKeeps(s, size);
      (BufferSpec.Retrieve(s, size), Reply(0, Prefix(s, size)))
    case Retrieve(size) =>
      RetrieveKeeps(s, size);
      (BufferSpec.Retrieve(s, size), Reply(0, []))
    case GetLine =>
      var line := NextLine(s.Content());
      RetrieveKeeps(s, |line|);
      if line == [] then (s, Reply(0, [])) else (BufferSpec.Retrieve(s, |line|), Reply(1, line))
    case ReadFd(delivered) =>
      ReadFdKeeps(s, delivered);
      var (s', n) := BufferSpec.ReadFd(s, delivered); (s', Reply(n, []))
  }

  ghost predicate Permitted(s: Buffer, ops: seq<Op>)
    requires s.Inv()
    decreases |ops|
  {
    ops == [] || (Allowed(s, ops[0]) && Permitted(Step(s, ops[0]).0, ops[1..]))
  }

  /** The state a run ends in. */
  function Final(s: Buffer, ops: seq<Op>): (s': Buffer)
    requires s.Inv() && Permitted(s, ops)
    ensures s'.Inv()
    decreases |ops|
  {
    if ops == [] then s else Final(Step(s, ops[0]).0, ops[1..])
  }

  /** What the caller gets back from each operation of a run. */
  function Replies(s: Buffer, ops: seq<Op>): (r: seq<Reply>)
    requires s.Inv() && Permitted(s, ops)
    ensures |r| == |ops|
    decreases |ops|
  {
    if ops == [] then [] else [Step(s, ops[0]).1] + Replies(Step(s, ops[0]).0, ops[1..])
  }

  /** The readable bytes before the run and after each operation of it. */
  function Contents(s: Buffer, ops: seq<Op>): (r: seq<seq<Byte>>)
    requires s.Inv() && Permitted(s, ops)
    ensures |r| == |ops| + 1
    decreases |ops|
  {
    [s.Content()] + (if ops == [] then [] else Contents(Step(s, ops[0]).0, ops[1..]))
  }

  lemma {:induction false} ContentsEnds(s: Buffer, ops: seq<Op>)
    requires s.Inv() && Permitted(s, ops)
    ensures Contents(s, ops)[0] == s.Content()
    ensures Contents(s, ops)[|ops|] == Final(s, ops).Content()
    decreases |ops|
  {
    hide Step, Allowed, Buffer.Inv, Buffer.Content, Cursor.Pos;
    InOrder(s);
    if ops != [] {
      var s1 := Step(s, ops[0]).0;
      ContentsEnds(s1, ops[1..]);
      assert Contents(s, ops) == [s.Content()] + Contents(s1, ops[1..]);
    }
  }

  // ---------------------------------------------------------------- the queue

  /** `op` with `reply` is something a byte queue holding `q` may do, leaving `q'`. */
  ghost predicate QueueStep(q: seq<Byte>, op: Op, reply: Reply, q': seq<Byte>) {
    match op
    case Write(data) =>
      (reply.count == 0 || reply.count == |data|) && q' == q + data[..reply.count]
    case ReadFd(delivered) =>
      reply.count <= |delivered| && q' == q + delivered[..reply.count]
    case Peek(size) =>
      reply.out == q[..Min(size, |q|)] && q' == q
    case Read(size) =>
      q == reply.out + q' && |reply.out| == Min(size, |q|)
    case Retrieve(size) =>
      q' == q[Min(size, |q|)..]
    case GetLine =>
      && (reply.count == 1 <==> NEWLINE in q)
      && (NEWLINE in q ==> q == reply.out + q' && IsLine(reply.out))
      && (NEWLINE !in q ==> reply == Reply(0, []) && q' == q)
  }

  /** Bytes that end with their only newline. */
  ghost predicate IsLine(line: seq<Byte>) {
    |line| > 0 && line[|line| - 1] == NEWLINE && NEWLINE !in line[..|line| - 1]
  }

  /** `qs` is what a byte queue holds before, between and after `ops` answered by `replies`. */
  ghost predicate QueueRun(qs: seq<seq<Byte>>, ops: seq<Op>, replies: seq<Reply>)
    requires |ops| == |replies| && |qs| == |ops| + 1
    decreases |ops|
  {
    ops == [] || (
      && QueueStep(qs[0], ops[0], replies[0], qs[1])
      && QueueRun(qs[1..], ops[1..], replies[1..]))
  }

  lemma NextLineIsFirst(q: seq<Byte>)
    ensures NextLine(q) == [] <==> NEWLINE !in q
    ensures NextLine(q) != [] ==> IsLine(NextLine(q)) && NextLine(q) == q[..|NextLine(q)|]
  {
    var k := FirstNewline(q);
    if k < |q| {
      assert q[..k + 1][..k] == q[..k];
    } else {
      assert q[..k] == q;
    }
  }

  lemma StepRefinesQueue(s: Buffer, op: Op)
    requires s.Inv() && Allowed(s, op)
    ensures var (s', reply) := Step(s, op);
      QueueStep(s.Content(), op, reply, s'.Content())
  {
    hide BufferSpec.Write, BufferSpec.ReadFd, BufferSpec.Retrieve, NextLine, Buffer.Inv, Buffer.Content, IsLine;
    ContentLength(s);
    match op
    case Write(data) => WriteKeeps(s, data);
    case Peek(size) =>
    case Read(size) => RetrieveKeeps(s, size);
    case Retrieve(size) => RetrieveKeeps(s, size);
    case GetLine => GetLineRefinesQueue(s);
    case ReadFd(delivered) => ReadFdKeeps(s, delivered);
  }

  lemma GetLineRefinesQueue(s: Buffer)
    requires s.Inv() && s.size.readable > 0
    ensures var (s', reply) := Step(s, GetLine);
      QueueStep(s.Content(), GetLine, reply, s'.Content())
  {
    hide BufferSpec.Retrieve, NextLine, Buffer.Inv, Buffer.Content, IsLine;
    InOrder(s);
    ContentLength(s);
    var line := NextLine(s.Content());
    NextLineIsFirst(s.Content());
    RetrieveKeeps(s, |line|);
    if line == [] {
    } else {
      LineSplits(s.Content(), line);
    }
  }

  lemma LineSplits(q: seq<Byte>, line: seq<Byte>)
    requires line <= q && line != [] && IsLine(line)
    ensures NEWLINE in q && q == line + q[|line|..] && |line| <= |q|
  {
    assert q[|line| - 1] == NEWLINE;
  }

  /** Every permitted run is a run of a byte queue. */
  lemma {:induction false} RunRefinesQueue(s: Buffer, ops: seq<Op>)
    requires s.Inv() && Permitted(s, ops)
    ensures QueueRun(Contents(s, ops), ops, Replies(s, ops))
    decreases |ops|
  {
    if ops != [] {
      StepRefinesQueue(s, ops[0]);
      var s1 := Step(s, ops[0]).0;
      RunRefinesQueue(s1, ops[1..]);
      assert Contents(s, ops)[1..] == Contents(s1, ops[1..]);
      assert Replies(s, ops)[1..] == Replies(s1, ops[1..]);
    }
  }

  // ---------------------------------------------------------------- the two usage disciplines

  ghost predicate DirectUse(s: Buffer, op: Op) {
    match op
    case Write(data) => !s.LosesNormalForm(|data|)
    case GetLine => s.size.readable > 0
    case ReadFd(_) => false
    case _ => true
  }

  /** An output buffer: written directly, never by `readFd`, and no write is rejected after the
      chain was rotated from under a write cursor at its very end. */
  ghost predicate WriteFed(s: Buffer, ops: seq<Op>)
    requires s.Inv() && s.Normal()
    decreases |ops|
  {
    ops == [] || (
      && DirectUse(s, ops[0])
      && (NormalStep(s, ops[0]); WriteFed(Step(s, ops[0]).0, ops[1..])))
  }

  /** An input buffer: filled by `readFd` alone. */
  ghost predicate ReadFdFed(s: Buffer, ops: seq<Op>)
    requires s.Inv()
    decreases |ops|
  {
    ops == [] ||
    (!ops[0].Write? && Allowed(s, ops[0]) && ReadFdFed(Step(s, ops[0]).0, ops[1..]))
  }

  lemma NormalStep(s: Buffer, op: Op)
    requires s.Inv() && s.Normal() && DirectUse(s, op)
    ensures Allowed(s, op) && Step(s, op).0.Normal()
  {
    BlockOrder(s);
    match op
    case Write(data) => WriteNormalIff(s, data);
    case Peek(_) =>
    case Read(size) => RetrieveKeeps(s, size);
    case Retrieve(size) => RetrieveKeeps(s, size);
    case GetLine => RetrieveKeeps(s, |NextLine(s.Content())|);
  }

  lemma {:induction false} WriteFedPermitted(s: Buffer, ops: seq<Op>)
    requires s.Inv() && s.Normal() && WriteFed(s, ops)
    ensures Permitted(s, ops) && Final(s, ops).Normal()
    decreases |ops|
  {
    if ops != [] {
      NormalStep(s, ops[0]);
      WriteFedPermitted(Step(s, ops[0]).0, ops[1..]);
    }
  }

  lemma {:induction false} ReadFdFedPermitted(s: Buffer, ops: seq<Op>)
    requires s.Inv() && ReadFdFed(s, ops)
    ensures Permitted(s, ops)
    decreases |ops|
  {
    if ops != [] {
      ReadFdFedPermitted(Step(s, ops[0]).0, ops[1..]);
    }
  }

  /** A new buffer, which has no blocks, is normal and holds nothing. */
  lemma EmptyIsNormal(s: Buffer)
    requires s.Inv() && s.blocks == 0
    ensures s.Normal() && s.Content() == []
  {
  }

  /** A buffer that is only written to refines a byte queue, stays accounted for and within its
      capacity bound, and never reaches `move_head` with its cursors out of order. */
  lemma WriteFedRefinesQueue(s: Buffer, ops: seq<Op>)
    requires s.Inv() && s.Normal() && WriteFed(s, ops)
    ensures Permitted(s, ops)
    ensures QueueRun(Contents(s, ops), ops, Replies(s, ops))
    ensures var s' := Final(s, ops);
      && s'.size.used + s'.size.readable + s'.size.writable == s'.size.buflen == |s'.bytes|
      && s'.size.buflen <= 2 * MAX_BLOCK_SIZE - BLOCK_SIZE
      && s'.rd.block <= s'.wr.block
  {
    WriteFedPermitted(s, ops);
    RunRefinesQueue(s, ops);
    BlockOrder(Final(s, ops));
  }

  /** A buffer filled only by `readFd` refines a byte queue in every run, even though its read
      cursor may move one block past its write cursor. */
  lemma ReadFdFedRefinesQueue(s: Buffer, ops: seq<Op>)
    requires s.Inv() && ReadFdFed(s, ops)
    ensures Permitted(s, ops)
    ensures QueueRun(Contents(s, ops), ops, Replies(s, ops))
    ensures var s' := Final(s, ops);
      && s'.size.used + s'.size.readable + s'.size.writable == s'.size.buflen == |s'.bytes|
      && s'.size.buflen <= 2 * MAX_BLOCK_SIZE - BLOCK_SIZE
  {
    ReadFdFedPermitted(s, ops);
    RunRefinesQueue(s, ops);
  }

  // ---------------------------------------------------------------- mixing the two is not sound

  /** The write cursor has at least one whole block after its own. */
  ghost predicate SpareBlock(s: Buffer) {
    s.Inv() && s.wr.block + 1 < s.blocks
  }

  /** From any sound buffer with a spare block: a `readFd` that stops exactly at the end of the
      write block, then reading everything, leaves a sound buffer in which every write that
      rotates the chain leaves counters that no longer describe it. */
  lemma BoundaryStopBreaks(s: Buffer, c: seq<Byte>)
    requires SpareBlock(s) && |c| == BLOCK_SIZE - s.wr.offset > 0
    ensures Allowed(s, ReadFd(c))
    ensures var full := Step(s, ReadFd(c)).0;
      var drained := Step(full, Retrieve(full.size.readable)).0;
      && drained.rd.block == drained.wr.block + 1
      && drained.size.writable < drained.Reclaimable()
      && !MoveHead(drained).Inv()
      && (forall n :: drained.size.writable < n <= drained.Reclaimable() ==> !drained.WriteSafe(n))
  {
    hide MoveHead, BufferSpec.Retrieve;
    BoundaryStop(s, c);
    DrainedPast(Step(s, ReadFd(c)).0);
  }

  lemma BoundaryStop(s: Buffer, c: seq<Byte>)
    requires SpareBlock(s) && |c| == BLOCK_SIZE - s.wr.offset > 0
    ensures |c| <= s.size.writable
    ensures Step(s, ReadFd(c)).0.wr == Cursor(s.wr.block, BLOCK_SIZE)
  {
  }

  /** A spare block is there after any write that grows the buffer by more than it needs. */
  lemma GrowthLeavesSpareBlock(s: Buffer, data: seq<Byte>)
    requires s.Inv() && s.rd.block <= s.wr.block
    requires s.Reclaimable() < |data| && s.Accepts(|data|)
    requires s.Reclaimable() + BlocksFor(|data|) * BLOCK_SIZE > |data| + BLOCK_SIZE
    ensures s.WriteSafe(|data|) && SpareBlock(BufferSpec.Write(s, data).0)
  {
    WriteKeeps(s, data);
    MoveHeadKeeps(s);
    MakeSpaceKeeps(MoveHead(s), |data|);
  }

  /** So the sequence of BoundaryStopBreaks can be reached from an empty buffer: after writing a few
      bytes and then one byte more than a block, a spare block is there. */
  lemma SpareBlockReachable(s: Buffer, a: seq<Byte>, b: seq<Byte>)
    requires s.Inv() && s.blocks == 0 && 0 < |a| < BLOCK_SIZE - 1 && |b| == BLOCK_SIZE + 1
    ensures s.WriteSafe(|a|)
    ensures var s1 := BufferSpec.Write(s, a).0;
      && s1.Inv() && s1.WriteSafe(|b|)
      && SpareBlock(BufferSpec.Write(s1, b).0)
  {
    WriteKeeps(s, a);
    OneBlock(s, a);
    var s1 := BufferSpec.Write(s, a).0;
    assert BlocksFor(|b|) == 2;
    GrowthLeavesSpareBlock(s1, b);
  }

  lemma OneBlock(s: Buffer, a: seq<Byte>)
    requires s.Inv() && s.blocks == 0 && 0 < |a| < BLOCK_SIZE
    ensures s.WriteSafe(|a|)
    ensures var s1 := BufferSpec.Write(s, a).0;
      s1.rd.block == 0 && s1.Reclaimable() == BLOCK_SIZE - |a| && s1.size.buflen == BLOCK_SIZE
  {
    assert BlocksFor(|a|) == 1;
  }

  // ---------------------------------------------------------------- neither is the excluded rejection

  /** From any normal buffer: a write that is rejected after such a rotation, then reading everything,
      breaks the buffer in the same way. */
  lemma LateRejectionBreaks(s: Buffer, data: seq<Byte>)
    requires s.Inv() && s.Normal() && s.LosesNormalForm(|data|)
    ensures Allowed(s, Write(data))
    ensures var rejected := Step(s, Write(data)).0;
      var drained := Step(rejected, Retrieve(rejected.size.readable)).0;
      && drained.rd.block == drained.wr.block + 1
      && !MoveHead(drained).Inv()
      && (forall n :: drained.size.writable < n <= drained.Reclaimable() ==> !drained.WriteSafe(n))
  {
    hide MoveHead, BufferSpec.Write, BufferSpec.Retrieve, Buffer.RejectsLate;
    BlockOrder(s);
    RejectedLate(s, data);
    MoveHeadSizes(s);
    MoveHeadKeeps(s);
    DrainedPast(MoveHead(s));
  }

  /** A buffer whose write cursor is at the end of a block that is not the last, once drained. */
  lemma DrainedPast(s: Buffer)
    requires s.Inv() && s.wr.offset == BLOCK_SIZE && s.wr.block + 1 < s.blocks
    ensures var drained := BufferSpec.Retrieve(s, s.size.readable);
      && drained.Inv() && drained.rd.block == drained.wr.block + 1
      && drained.size.writable < drained.Reclaimable()
      && !MoveHead(drained).Inv()
      && (forall n :: drained.size.writable < n <= drained.Reclaimable() ==> !drained.WriteSafe(n))
  {
    hide MoveHead;
    RetrieveSound(s, s.size.readable);
    AtBlockEnd(s);
    MoveHeadSoundIff(BufferSpec.Retrieve(s, s.size.readable));
  }

  lemma AtBlockEnd(s: Buffer)
    requires s.Inv() && s.wr.offset == BLOCK_SIZE && s.wr.block + 1 < s.blocks
    ensures BufferSpec.Retrieve(s, s.size.readable).rd == Cursor(s.wr.block + 1, 0)
  {
  }

  /** Such a write is reached from an empty buffer by writes and reads alone: fill two blocks, read
      one of them, and offer more than can ever fit. */
  lemma LateRejectionReachable(s: Buffer, a: seq<Byte>)
    requires s.Inv() && s.blocks == 0 && |a| == 2 * BLOCK_SIZE
    ensures s.WriteSafe(|a|)
    ensures var full := BufferSpec.Write(s, a).0;
      && full.Inv()
      && var half := BufferSpec.Retrieve(full, BLOCK_SIZE);
         half.Inv() && half.Normal() && forall n :: n > MAX_BLOCK_SIZE - BLOCK_SIZE ==> half.LosesNormalForm(n)
  {
    WriteKeeps(s, a);
    assert BlocksFor(|a|) == 2;
    RetrieveKeeps(BufferSpec.Write(s, a).0, BLOCK_SIZE);
  }

  // ---------------------------------------------------------------- lines

  function Joined(lines: seq<seq<Byte>>): seq<Byte> {
    if lines == [] then [] else lines[0] + [NEWLINE] + Joined(lines[1..])
  }

  function Concat(parts: seq<seq<Byte>>): seq<Byte> {
    if parts == [] then [] else parts[0] + Concat(parts[1..])
  }

  /** A run whose only consumer is `getLine`. */
  predicate LineReader(ops: seq<Op>) {
    forall op :: op in ops ==> !op.Read? && !op.Retrieve?
  }

  predicate GotLine(op: Op, reply: Reply) {
    op.GetLine? && reply.count == 1
  }

  function TakenIn(op: Op, reply: Reply): seq<Byte> {
    match op
    case Write(data) => data[..Min(reply.count, |data|)]
    case ReadFd(data) => data[..Min(reply.count, |data|)]
    case _ => []
  }

  /** The bytes a run took in, whatever the fragmentation. */
  function Accepted(ops: seq<Op>, replies: seq<Reply>): seq<Byte>
    requires |ops| == |replies|
  {
    if ops == [] then []
    else TakenIn(ops[0], replies[0]) + Accepted(ops[1..], replies[1..])
  }

  /** What the successful calls of `getLine` in a run copied out, in order. */
  function LinesOut(ops: seq<Op>, replies: seq<Reply>): seq<seq<Byte>>
    requires |ops| == |replies|
  {
    if ops == [] then []
    else (if GotLine(ops[0], replies[0]) then [replies[0].out] else [])
         + LinesOut(ops[1..], replies[1..])
  }

  /** Bytes are conserved: what came in is what `getLine` handed out, followed by what is left. */
  lemma {:induction false} LinesConserveBytes(qs: seq<seq<Byte>>, ops: seq<Op>, replies: seq<Reply>)
    requires |ops| == |replies| && |qs| == |ops| + 1
    requires LineReader(ops) && QueueRun(qs, ops, replies)
    ensures qs[0] + Accepted(ops, replies) == Concat(LinesOut(ops, replies)) + qs[|ops|]
    decreases |ops|
  {
    hide QueueStep, IsLine, TakenIn, GotLine, Concat, LineReader;
    if ops == [] {
      NoLines(qs[0]);
    } else {
      FewerOps(ops);
      LinesConserveBytes(qs[1..], ops[1..], replies[1..]);
      var rest, outs := Accepted(ops[1..], replies[1..]), LinesOut(ops[1..], replies[1..]);
      StepConserves(qs[0], ops[0], replies[0], qs[1]);
      if GotLine(ops[0], replies[0]) {
        TakeLine(qs[0], qs[1], replies[0].out, rest, outs, qs[|ops|]);
        assert [] + rest == rest;
      } else {
        assert [] + outs == outs;
        TakeIn(qs[0], TakenIn(ops[0], replies[0]), rest);
      }
    }
  }

  lemma FewerOps(ops: seq<Op>)
    requires LineReader(ops) && ops != []
    ensures LineReader(ops[1..]) && !ops[0].Read? && !ops[0].Retrieve?
  {
    assert ops[0] in ops && forall op :: op in ops[1..] ==> op in ops;
  }

  lemma TakeIn(q: seq<Byte>, data: seq<Byte>, rest: seq<Byte>)
    ensures q + (data + rest) == (q + data) + rest
  {
  }

  /** And what it handed out are lines. */
  lemma {:induction false} OnlyLinesOut(qs: seq<seq<Byte>>, ops: seq<Op>, replies: seq<Reply>)
    requires |ops| == |replies| && |qs| == |ops| + 1
    requires LineReader(ops) && QueueRun(qs, ops, replies)
    ensures forall line :: line in LinesOut(ops, replies) ==> IsLine(line)
    decreases |ops|
  {
    hide QueueStep, IsLine, TakenIn, GotLine;
    if ops != [] {
      OnlyLinesOut(qs[1..], ops[1..], replies[1..]);
      assert ops[0] in ops;
      StepConserves(qs[0], ops[0], replies[0], qs[1]);
    }
  }

  lemma NoLines(q: seq<Byte>)
    ensures q + [] == Concat([]) + q
  {
  }

  lemma StepConserves(q: seq<Byte>, op: Op, reply: Reply, mid: seq<Byte>)
    requires !op.Read? && !op.Retrieve? && QueueStep(q, op, reply, mid)
    ensures GotLine(op, reply) ==> TakenIn(op, reply) == [] && q == reply.out + mid && IsLine(reply.out)
    ensures !GotLine(op, reply) ==> mid == q + TakenIn(op, reply)
  {
  }

  lemma TakeLine(q: seq<Byte>, mid: seq<Byte>, line: seq<Byte>, rest: seq<Byte>, outs: seq<seq<Byte>>, q': seq<Byte>)
    requires q == line + mid && mid + rest == Concat(outs) + q'
    ensures q + rest == Concat([line] + outs) + q'
  {
    assert ([line] + outs)[1..] == outs;
    assert q + rest == line + (mid + rest);
    assert line + (Concat(outs) + q') == (line + Concat(outs)) + q';
  }

  /** Text splits into lines in one way only. */
  lemma {:induction false} LinesUnique(outs: seq<seq<Byte>>, left: seq<Byte>, lines: seq<seq<Byte>>, tail: seq<Byte>)
    requires Concat(outs) + left == Joined(lines) + tail
    requires forall line :: line in outs ==> IsLine(line)
    requires forall line :: line in lines ==> NEWLINE !in line
    requires NEWLINE !in tail
    ensures |outs| <= |lines|
    ensures forall i :: 0 <= i < |outs| ==> outs[i] == lines[i] + [NEWLINE]
    ensures left == Joined(lines[|outs|..]) + tail
  {
    if outs == [] {
      assert Concat(outs) + left == left;
    } else {
      var text := Concat(outs) + left;
      var out := outs[0];
      assert out in outs;
      assert text[..|out|] == out && text[|out| - 1] == NEWLINE;
      assert lines == [] ==> text == tail;
      if lines == [] {
        assert false;
      } else {
        var line := lines[0];
        assert line in lines;
        assert text[..|line|] == line && text[|line|] == NEWLINE;
        FirstAgree(text, |out| - 1, |line|);
        assert out == text[..|out|] == line + [NEWLINE];
        assert text[|out|..] == Concat(outs[1..]) + left;
        assert text[|out|..] == Joined(lines[1..]) + tail;
        LinesUnique(outs[1..], left, lines[1..], tail);
        assert lines[1..][|outs[1..]|..] == lines[|outs|..];
      }
    }
  }

  lemma FirstAgree(text: seq<Byte>, i: nat, j: nat)
    requires i < |text| && j < |text| && text[i] == text[j] == NEWLINE
    requires NEWLINE !in text[..i] && NEWLINE !in text[..j]
    ensures i == j
  {
    forall k | 0 <= k < i
      ensures text[k] != NEWLINE
    {
      assert text[k] == text[..i][k];
    }
    forall k | 0 <= k < j
      ensures text[k] != NEWLINE
    {
      assert text[k] == text[..j][k];
    }
  }

  lemma UnreadLines(lines: seq<seq<Byte>>, tail: seq<Byte>)
    ensures NEWLINE !in Joined(lines) + tail ==> lines == [] && Joined(lines) + tail == tail
  {
    if lines != [] {
      assert (Joined(lines) + tail)[|lines[0]|] == NEWLINE;
    }
  }

  /** Line round trip.  In any permitted run that only consumes by `getLine`, with the text arriving
      in any fragments between the calls: the lines come back unchanged, one by one and in order,
      and what is left is the text after them. */
  lemma LineRoundTrip(s: Buffer, ops: seq<Op>, lines: seq<seq<Byte>>, tail: seq<Byte>)
    requires s.Inv() && Permitted(s, ops) && LineReader(ops)
    requires s.Content() + Accepted(ops, Replies(s, ops)) == Joined(lines) + tail
    requires NEWLINE !in tail && forall line :: line in lines ==> NEWLINE !in line
    ensures var outs, left := LinesOut(ops, Replies(s, ops)), Final(s, ops).Content();
      && |outs| <= |lines|
      && (forall i :: 0 <= i < |outs| ==> outs[i] == lines[i] + [NEWLINE])
      && left == Joined(lines[|outs|..]) + tail
      && (NEWLINE !in left ==> |outs| == |lines| && left == tail)
  {
    hide Step, Permitted, Contents, Replies, Final, QueueRun, Concat, Joined, IsLine, Buffer.Inv, Buffer.Content;
    RunRefinesQueue(s, ops);
    ContentsEnds(s, ops);
    InOrder(Final(s, ops));
    InOrder(s);
    var outs := LinesOut(ops, Replies(s, ops));
    LinesConserveBytes(Contents(s, ops), ops, Replies(s, ops));
    OnlyLinesOut(Contents(s, ops), ops, Replies(s, ops));
    LinesUnique(outs, Final(s, ops).Content(), lines, tail);
    UnreadLines(lines[|outs|..], tail);
  }
}
