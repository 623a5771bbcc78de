/** The output path of a `Connection`: what it sends directly, what it keeps in its buffer, and when
    it shuts the socket down for writing. */
module ConnectionSpec {
  import opened BufferSpec

  datatype Phase = Disconnected | Connecting | Connected | Disconnecting

  /** What `write` on the socket returns: a count, or an error that is fatal (EPIPE, ECONNRESET) or
      not. */
  datatype WriteResult = Wrote(n: nat) | Fatal | Failed

  datatype Conn = Conn(
    phase: Phase,             // state_
    writing: bool,            // writing_
    out: Buffer,              // outputBuffer_
    wire: seq<Byte>,          // bytes the socket took so far
    accepted: seq<Byte>,      // bytes of all sends that were not dropped
    unsent: seq<nat>)         // at each shutdownWrite, how many accepted bytes were not on the wire

  datatype Event =
    | Complete                                       // completeConnect
    | Send(data: seq<Byte>, result: WriteResult)     // sendInLoop
    | Writable(offered: nat, result: WriteResult)    // handleWrite, offering a prefix of the buffer
    | Shutdown(inLoop: bool)                         // shutdown, from the loop thread or another one
    | ShutdownTask                                   // shutdownInLoop, run as a task
    | ForceClose
    | Close                                          // handleClose

  /** How many bytes of a write of `len` bytes the socket took. */
  function Taken(result: WriteResult, len: nat): nat {
    if result.Wrote? then Min(result.n, len) else 0
  }

  function ShutdownInLoop(c: Conn): Conn
    requires |c.wire| <= |c.accepted|
  {
    if c.writing then c else c.(unsent := c.unsent + [|c.accepted| - |c.wire|])
  }

  /** `sendInLoop`: bytes offered while the connection is writing, or has something buffered, are
      dropped, and so is what the buffer rejects. */
  function SendInLoop(c: Conn, data: seq<Byte>, result: WriteResult): Conn
    requires Inv(c)
  {
    if c.phase == Disconnected || c.writing || c.out.size.readable != 0 then c
    else
      var nwrote := Taken(result, |data|);
      var sent := c.(wire := c.wire + data[..nwrote], accepted := c.accepted + data[..nwrote]);
      if result.Fatal? || nwrote == |data| then sent
      else
        BlockOrder(c.out);
        var (out', n) := BufferSpec.Write(c.out, data[nwrote..]);
        WriteKeeps(c.out, data[nwrote..]);
        sent.(out := out', accepted := sent.accepted + data[nwrote..][..n], writing := true)
  }

  function HandleWrite(c: Conn, offered: nat, result: WriteResult): Conn
    requires Inv(c)
  {
    var n := Taken(result, Min(offered, c.out.size.readable));
    if !c.writing || n == 0 then c
    else
      RetrieveKeeps(c.out, n);
      var sent := c.(out := BufferSpec.Retrieve(c.out, n), wire := c.wire + c.out.Content()[..n]);
      if sent.out.size.readable != 0 then sent
      else
        var done := sent.(writing := false);
        ContentEmpty(c, n);
        if c.phase == Disconnecting then ShutdownInLoop(done) else done
  }

  function Step(c: Conn, e: Event): Conn
    requires Inv(c)
  {
    match e
    case Complete => c.(phase := Connected)
    case Send(data, result) => SendInLoop(c, data, result)
    case Writable(offered, result) => HandleWrite(c, offered, result)
    case Shutdown(inLoop) =>
      if c.phase != Connected then c
      else
        var leaving := c.(phase := Disconnecting);
        if inLoop then ShutdownInLoop(leaving) else leaving
    case ShutdownTask => ShutdownInLoop(c)
    case ForceClose => if c.phase == Connected then c.(phase := Disconnecting) else c
    case Close => if c.phase == Disconnecting then c.(phase := Disconnected) else c
  }

  /** The wire followed by the buffer is what was accepted; buffered bytes imply writing; the buffer
      is in the form `write` needs whenever one may come; and no shutdown was premature. */
  ghost predicate Inv(c: Conn) {
    && c.out.Inv()
    && c.wire + c.out.Content() == c.accepted
    && (c.out.size.readable > 0 ==> c.writing)
    && (c.out.Normal() || (c.writing && c.out.size.readable == 0))
    && (forall i :: 0 <= i < |c.unsent| ==> c.unsent[i] == 0)
  }

  lemma ContentEmpty(c: Conn, n: nat)
    requires Inv(c) && n <= c.out.size.readable
    ensures c.wire + c.out.Content()[..n] <= c.accepted
    ensures n == c.out.size.readable ==> c.wire + c.out.Content()[..n] == c.accepted
  {
    assert c.out.Content() == c.out.Content()[..n] + c.out.Content()[n..];
    assert c.wire + c.out.Content() == (c.wire + c.out.Content()[..n]) + c.out.Content()[n..];
  }

  /** What an empty, normal buffer does with a write. */
  lemma WriteToEmpty(s: Buffer, data: seq<Byte>)
    requires s.Inv() && s.Normal() && s.size.readable == 0
    ensures s.Content() == [] && s.WriteSafe(|data|)
    ensures var (s', n) := BufferSpec.Write(s, data);
      && s'.Inv() && n <= |data| && s'.Content() == data[..n] && s'.size.readable == n
      && (s'.Normal() || n == 0)
  {
    BlockOrder(s);
    WriteKeeps(s, data);
    assert s.Content() == [];
    var (s', n) := BufferSpec.Write(s, data);
    assert |s'.Content()| == s'.size.readable;
  }

  lemma SendKeepsInv(c: Conn, data: seq<Byte>, result: WriteResult)
    requires Inv(c)
    ensures Inv(SendInLoop(c, data, result))
  {
    hide BufferSpec.Write, Buffer.Inv, Buffer.Content, Buffer.Normal;
    if !(c.phase == Disconnected || c.writing || c.out.size.readable != 0) {
      var nwrote := Taken(result, |data|);
      WriteToEmpty(c.out, data[nwrote..]);
      assert c.wire + [] == c.wire;
      assert c.wire + data[..nwrote] + [] == c.wire + data[..nwrote];
    }
  }

  lemma HandleWriteKeepsInv(c: Conn, offered: nat, result: WriteResult)
    requires Inv(c)
    ensures Inv(HandleWrite(c, offered, result))
  {
    var n := Taken(result, Min(offered, c.out.size.readable));
    if c.writing && n != 0 {
      RetrieveKeeps(c.out, n);
      ContentEmpty(c, n);
      var content := c.out.Content();
      assert c.wire + content == (c.wire + content[..n]) + content[n..];
    }
  }

  lemma StepKeepsInv(c: Conn, e: Event)
    requires Inv(c)
    ensures Inv(Step(c, e))
  {
    match e
    case Send(data, result) => SendKeepsInv(c, data, result);
    case Writable(offered, result) => HandleWriteKeepsInv(c, offered, result);
    case Shutdown(_) => NothingUnsent(c);
    case ShutdownTask => NothingUnsent(c);
    case _ =>
  }

  lemma NothingUnsent(c: Conn)
    requires Inv(c)
    ensures |c.wire| <= |c.accepted| && (!c.writing ==> c.wire == c.accepted)
  {
    if !c.writing {
      assert c.out.Content() == [];
    }
  }

  function Run(c: Conn, events: seq<Event>): (c': Conn)
    requires Inv(c)
    ensures Inv(c')
    decreases |events|
  {
    if events == [] then c else StepKeepsInv(c, events[0]); Run(Step(c, events[0]), events[1..])
  }

  /** Output stream safety over every run: the bytes on the wire followed by the buffered ones are
      exactly the accepted ones, in order; nothing is buffered unless the connection is writing; and
      every shutdownWrite came when all accepted bytes were on the wire. */
  lemma StreamSafety(c: Conn, events: seq<Event>)
    requires Inv(c)
    ensures var c' := Run(c, events);
      && c'.wire + c'.out.Content() == c'.accepted
      && (c'.out.size.readable > 0 ==> c'.writing)
      && (forall i :: 0 <= i < |c'.unsent| ==> c'.unsent[i] == 0)
  {
  }

  // ---------------------------------------------------------------- what is accepted, and when it is out

  /** A send on an idle connection is accepted whole unless the socket fails for good or the buffer
      rejects what the socket left over; then exactly what the socket took is accepted.  A send on
      a writing connection is dropped. */
  lemma SendAccepts(c: Conn, data: seq<Byte>, result: WriteResult)
    requires Inv(c)
    ensures var c', taken := SendInLoop(c, data, result), Taken(result, |data|);
      && (c.writing || c.phase == Disconnected ==> c' == c)
      && (!c.writing && c.phase != Disconnected ==>
            && c'.wire == c.wire + data[..taken]
            && c'.accepted == c.accepted
                 + (if taken == |data| || (!result.Fatal? && c.out.Accepts(|data| - taken)) then data else data[..taken])
            && (c'.writing <==> taken < |data| && !result.Fatal?))
  {
    hide BufferSpec.Write, Buffer.Inv, Buffer.Content, Buffer.Normal, Buffer.Accepts, Buffer.WriteSafe;
    if !c.writing && c.phase != Disconnected {
      var taken := Taken(result, |data|);
      assert data[..taken] + data[taken..] == data;
      WriteToEmpty(c.out, data[taken..]);
      WriteKeeps(c.out, data[taken..]);
      assert (c.accepted + data[..taken]) + data[taken..] == c.accepted + data;
    }
  }

  /** When the last buffered byte goes out, the connection stops writing, everything accepted is on
      the wire, and a shutdown that was asked for is carried out; before that, it is not. */
  lemma DrainSettles(c: Conn, offered: nat, result: WriteResult)
    requires Inv(c) && c.out.size.readable > 0
    ensures var c' := HandleWrite(c, offered, result);
      var last := Taken(result, Min(offered, c.out.size.readable)) == c.out.size.readable;
      && (!c'.writing <==> last)
      && (last ==> c'.wire == c'.accepted == c.accepted)
      && c'.unsent == c.unsent + (if last && c.phase == Disconnecting then [0] else [])
  {
    HandleWriteKeepsInv(c, offered, result);
    var n := Taken(result, Min(offered, c.out.size.readable));
    if n > 0 {
      RetrieveKeeps(c.out, n);
      ContentEmpty(c, n);
    }
  }

  /** A write event takes exactly what the socket took off the front of the buffer, onto the wire. */
  lemma WriteTakes(c: Conn, offered: nat, result: WriteResult)
    requires Inv(c)
    ensures var c', n := HandleWrite(c, offered, result), Taken(result, Min(offered, c.out.size.readable));
      && n <= |c.out.Content()| && c'.out.Inv()
      && (!c.writing ==> c' == c)
      && (c.writing ==>
            && c'.wire == c.wire + c.out.Content()[..n] && c'.out.Content() == c.out.Content()[n..]
            && c'.accepted == c.accepted && c'.phase == c.phase)
  {
    hide BufferSpec.Retrieve, Buffer.Inv, Buffer.Content, Buffer.Normal;
    var n := Taken(result, Min(offered, c.out.size.readable));
    InOrder(c.out);
    ContentLength(c.out);
    RetrieveKeeps(c.out, n);
    HandleWriteKeepsInv(c, offered, result);
    assert c.wire + c.out.Content()[..0] == c.wire && c.out.Content()[0..] == c.out.Content();
  }

  /** How many bytes the socket reports taking at an event. */
  function Reported(c: Conn, e: Event): nat {
    match e
    case Send(data, result) => if c.phase == Disconnected || c.writing then 0 else Taken(result, |data|)
    case Writable(offered, result) => if c.writing then Taken(result, Min(offered, c.out.size.readable)) else 0
    case _ => 0
  }

  function ReportedInRun(c: Conn, events: seq<Event>): nat
    requires Inv(c)
    decreases |events|
  {
    if events == [] then 0
    else
      StepKeepsInv(c, events[0]);
      Reported(c, events[0]) + ReportedInRun(Step(c, events[0]), events[1..])
  }

  lemma StepGrowsWire(c: Conn, e: Event)
    requires Inv(c)
    ensures var c' := Step(c, e);
      c.wire <= c'.wire && |c'.wire| == |c.wire| + Reported(c, e) && c.accepted <= c'.accepted
  {
    hide HandleWrite, SendInLoop, Buffer.Inv, Buffer.Content, Buffer.Normal, Buffer.Accepts;
    match e
    case Send(data, result) => SendAccepts(c, data, result);
    case Writable(offered, result) => WriteTakes(c, offered, result);
    case _ => NothingUnsent(c);
  }

  /** Over every run the wire grows by exactly the bytes the socket reports taking, and nothing that was
      written or accepted is ever taken back. */
  lemma {:induction false} WireGrows(c: Conn, events: seq<Event>)
    requires Inv(c)
    ensures var c' := Run(c, events);
      c.wire <= c'.wire && |c'.wire| == |c.wire| + ReportedInRun(c, events) && c.accepted <= c'.accepted
    decreases |events|
  {
    hide Inv, Step, Reported;
    if events != [] {
      StepKeepsInv(c, events[0]);
      StepGrowsWire(c, events[0]);
      WireGrows(Step(c, events[0]), events[1..]);
    }
  }

  // ---------------------------------------------------------------- shutdown

  /** A connection in use is shut down once when it is idle, at once or by the queued task; while it is
      writing it is not, and what is left then is DrainSettles.  Nothing else is touched. */
  lemma ShutdownOfConnected(c: Conn, inLoop: bool)
    requires Inv(c) && c.phase == Connected
    ensures Inv(Step(c, Shutdown(inLoop)))
    ensures var asked := Step(c, Shutdown(inLoop));
      var done := if inLoop then asked else Step(asked, ShutdownTask);
      && asked.phase == Disconnecting && done.phase == Disconnecting
      && done.unsent == c.unsent + (if c.writing then [] else [0])
      && (!inLoop ==> asked.unsent == c.unsent)
      && done.wire == c.wire && done.accepted == c.accepted && done.out == c.out && done.writing == c.writing
  {
    StepKeepsInv(c, Shutdown(inLoop));
    NothingUnsent(c);
  }

  /** Completion makes a connection usable; only then do shutdown and forced closing begin anything. */
  lemma PhaseChanges(c: Conn, inLoop: bool, data: seq<Byte>, result: WriteResult)
    requires Inv(c)
    ensures Step(c, Complete) == c.(phase := Connected)
    ensures c.phase != Connected ==> Step(c, Shutdown(inLoop)) == c && Step(c, ForceClose) == c
    ensures c.phase == Connected ==> Step(c, ForceClose) == c.(phase := Disconnecting)
    ensures Step(c, Close) == c.(phase := if c.phase == Disconnecting then Disconnected else c.phase)
    ensures c.phase == Disconnected ==> Step(c, Send(data, result)) == c
  {
    hide HandleWrite, BufferSpec.Write;
  }

  /** A shutdown asked for while the connection is writing is carried out by the write event that
      takes the last byte, and by none before it, whatever is sent or asked for in between. */
  lemma {:induction false} ShutdownAtDrain(c: Conn, events: seq<Event>, offered: nat, result: WriteResult)
    requires Inv(c) && c.phase == Disconnecting && c.writing
    requires Close !in events && Complete !in events
    requires forall k :: 0 <= k <= |events| ==> Run(c, events[..k]).out.size.readable > 0
    ensures var c' := Run(c, events);
      && c'.writing && c'.phase == Disconnecting && c'.unsent == c.unsent
      && var last := Taken(result, Min(offered, c'.out.size.readable)) == c'.out.size.readable;
         Step(c', Writable(offered, result)).unsent == c.unsent + (if last then [0] else [])
    decreases |events|
  {
    hide Inv, Step, HandleWrite;
    if events == [] {
      assert Run(c, events[..0]) == c;
      WritableDrains(c, offered, result);
    } else {
      var c1 := Step(c, events[0]);
      StepKeepsInv(c, events[0]);
      assert events[0] in events;
      assert Run(c, events[..0]).out.size.readable > 0 && Run(c, events[..0]) == c;
      RunOne(c, events);
      StillWriting(c, events[0]);
      forall k | 0 <= k <= |events[1..]|
        ensures Run(c1, events[1..][..k]).out.size.readable > 0
      {
        assert events[..k + 1][1..] == events[1..][..k];
      }
      ShutdownAtDrain(c1, events[1..], offered, result);
    }
  }

  lemma WritableDrains(c: Conn, offered: nat, result: WriteResult)
    requires Inv(c) && c.phase == Disconnecting && c.out.size.readable > 0
    ensures var last := Taken(result, Min(offered, c.out.size.readable)) == c.out.size.readable;
      Step(c, Writable(offered, result)).unsent == c.unsent + (if last then [0] else [])
  {
    DrainSettles(c, offered, result);
  }

  lemma RunOne(c: Conn, events: seq<Event>)
    requires Inv(c) && events != []
    ensures Inv(Step(c, events[0])) && Run(c, events[..1]) == Step(c, events[0])
  {
    hide Inv, Step;
    StepKeepsInv(c, events[0]);
    assert events[..1][1..] == [];
    assert Run(Step(c, events[0]), []) == Step(c, events[0]);
  }

  lemma StillWriting(c: Conn, e: Event)
    requires Inv(c) && c.phase == Disconnecting && c.writing && c.out.size.readable > 0
    requires e != Close && e != Complete && Step(c, e).out.size.readable > 0
    ensures Step(c, e).writing && Step(c, e).phase == Disconnecting && Step(c, e).unsent == c.unsent
  {
    StepKeepsInv(c, e);
    if e.Writable? {
      DrainSettles(c, e.offered, e.result);
    }
  }

  // ---------------------------------------------------------------- a rejected send is final

  /** The connection believes it is writing and has nothing to write. */
  ghost predicate Wedged(c: Conn) {
    c.writing && c.out.size.readable == 0
  }

  /** A send wedges the connection exactly when the socket left bytes over, without a fatal error,
      that the output buffer rejects. */
  lemma SendWedgesIff(c: Conn, data: seq<Byte>, result: WriteResult)
    requires Inv(c) && !c.writing && c.phase != Disconnected
    ensures Wedged(SendInLoop(c, data, result)) <==>
      !result.Fatal? && Taken(result, |data|) < |data| && !c.out.Accepts(|data| - Taken(result, |data|))
  {
    BlockOrder(c.out);
    WriteKeeps(c.out, data[Taken(result, |data|)..]);
  }

  /** A new connection is wedged by a first send of more than the buffer can ever take, when the
      socket fails without a fatal error. */
  lemma WedgeReachable(c: Conn, data: seq<Byte>)
    requires Inv(c) && c.phase == Connecting && !c.writing && c.out.blocks == 0 && |data| > MAX_BLOCK_SIZE
    ensures Wedged(Run(c, [Complete, Send(data, Failed)]))
  {
    hide Inv, Run, SendInLoop, Wedged, Buffer.Accepts, Buffer.Inv;
    StepKeepsInv(c, Complete);
    RunTwo(c, Complete, Send(data, Failed));
    NoRoom(c, |data|);
    SendWedgesIff(Step(c, Complete), data, Failed);
  }

  lemma RunTwo(c: Conn, a: Event, b: Event)
    requires Inv(c)
    ensures Inv(Step(c, a)) && Run(c, [a, b]) == Step(Step(c, a), b)
  {
    hide Inv, Step;
    StepKeepsInv(c, a);
    StepKeepsInv(Step(c, a), b);
    var c1, c2 := Step(c, a), Step(Step(c, a), b);
    assert Run(c2, []) == c2;
    assert Run(c1, [b]) == Run(c2, [b][1..]);
    assert [a, b][1..] == [b];
  }

  lemma NoRoom(c: Conn, len: nat)
    requires Inv(c) && c.out.blocks == 0 && len > MAX_BLOCK_SIZE
    ensures !c.out.Accepts(len)
  {
  }

  /** And from then on it accepts nothing and puts nothing on the wire, whatever happens. */
  lemma {:induction false} WedgedForever(c: Conn, events: seq<Event>)
    requires Inv(c) && Wedged(c)
    ensures var c' := Run(c, events);
      Wedged(c') && c'.wire == c.wire && c'.accepted == c.accepted && c'.unsent == c.unsent
    decreases |events|
  {
    if events != [] {
      StepKeepsInv(c, events[0]);
      WedgedForever(Step(c, events[0]), events[1..]);
    }
  }
}

/** The connection itself, over a `KBuffer` on the heap. */
module Connections {
  import opened BufferSpec
  import opened ConnectionSpec
  import opened KBuffers

  class Connection {
    var phase: Phase
    var writing: bool
    const outputBuffer: KBuffer
    ghost var wire: seq<Byte>
    ghost var accepted: seq<Byte>
    ghost var unsent: seq<nat>

    ghost function View(): Conn
      reads this, outputBuffer
    {
      Conn(phase, writing, outputBuffer.view, wire, accepted, unsent)
    }

    ghost predicate Valid()
      reads this, outputBuffer, outputBuffer.Repr
    {
      this !in outputBuffer.Repr && outputBuffer.Valid() && Inv(View())
    }

    /** `writing_` is taken to start as false, which the source leaves unset. */
    constructor ()
      ensures fresh(outputBuffer) && fresh(outputBuffer.Repr)
      ensures Valid() && phase == Connecting
    {
      hide KBuffer.Valid, Buffer.Inv, ConnectionSpec.Inv;
      phase, writing := Connecting, false;
      outputBuffer := new KBuffer();
      wire, accepted, unsent := [], [], [];
      new;
      SoundBuffer();
      EmptyConnection(View());
    }

    lemma SoundBuffer()
      requires outputBuffer.Valid()
      ensures outputBuffer.view.Inv()
    {
    }

    static lemma EmptyConnection(c: Conn)
      requires c.out.Inv() && c.out.blocks == 0
      requires |c.wire| == |c.accepted| == |c.unsent| == 0
      ensures Inv(c)
    {
      assert c.out.Content() == [];
    }

    method SendInLoop(data: seq<Byte>, result: WriteResult)
      requires Valid()
      modifies this, outputBuffer.Repr
      ensures Valid() && fresh(outputBuffer.Repr - old(outputBuffer.Repr))
      ensures View() == ConnectionSpec.SendInLoop(old(View()), data, result)
    {
      hide BufferSpec.Write, Buffer.Inv, Buffer.Content, Buffer.Normal, KBuffer.Valid;
      SendKeepsInv(View(), data, result);
      if phase == Disconnected {
        return;
      }
      ReadableSize();
      if !writing && outputBuffer.readableSize == 0 {
        var nwrote := Taken(result, |data|);
        WriteToEmpty(outputBuffer.view, data[nwrote..]);
        wire := wire + data[..nwrote];
        accepted := accepted + data[..nwrote];
        if !result.Fatal? && nwrote != |data| {
          var n := outputBuffer.Write(data[nwrote..]);
          accepted := accepted + data[nwrote..][..n];
          writing := true;
        }
      }
    }

    lemma ReadableSize()
      requires outputBuffer.Valid()
      ensures outputBuffer.readableSize == outputBuffer.view.size.readable
    {
    }

    /** `offered` is how much of the buffered bytes the string handed to the socket holds. */
    method HandleWrite(offered: nat, result: WriteResult)
      requires Valid()
      modifies this, outputBuffer.Repr
      ensures Valid() && outputBuffer.Repr == old(outputBuffer.Repr)
      ensures View() == ConnectionSpec.HandleWrite(old(View()), offered, result)
    {
      hide BufferSpec.Retrieve, Buffer.Inv, Buffer.Content, Buffer.Normal, KBuffer.Valid;
      HandleWriteKeepsInv(View(), offered, result);
      ReadableSize();
      if writing {
        var buf := new Byte[outputBuffer.readableSize];
        assert buf !in outputBuffer.Repr;
        outputBuffer.Peek(buf, outputBuffer.readableSize);
        assert Min(outputBuffer.readableSize, outputBuffer.readableSize) == buf.Length;
        var n := Taken(result, Min(offered, outputBuffer.readableSize));
        if n > 0 {
          ContentEmpty(View(), n);
          RetrieveKeeps(outputBuffer.view, n);
          AllPeeked(outputBuffer.view, buf[..], n);
          wire := wire + buf[..n];
          outputBuffer.Retrieve(n);
          ReadableSize();
          if outputBuffer.readableSize == 0 {
            writing := false;
            if phase == Disconnecting {
              ShutdownInLoop();
            }
          }
        }
      }
    }

    static lemma AllPeeked(s: Buffer, bytes: seq<Byte>, n: nat)
      requires s.Inv() && n <= s.size.readable == |bytes|
      requires bytes == s.Content()[..s.size.readable] + bytes[s.size.readable..]
      ensures bytes[..n] == s.Content()[..n]
    {
    }

    method ShutdownInLoop()
      requires |wire| <= |accepted|
      modifies this`unsent
      ensures View() == ConnectionSpec.ShutdownInLoop(old(View()))
    {
      if !writing {
        unsent := unsent + [|accepted| - |wire|];
      }
    }
  }
}
