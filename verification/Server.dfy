/** Who owns a connection's descriptor: the server's map, the event loops' pollers and task lists,
    and the code that was handed the connection.  The descriptor is open for as long as somebody
    holds a reference, since only the destructor closes it, and the kernel may hand the number out
    again at once.  Every event loop is a thread; a step is what one of them does on its own. */
module ServerSpec {
  import opened PollSpec

  /** Connections are numbered in the order in which they were accepted. */
  type ConnId = Handler
  type LoopId = nat

  datatype Conn = Conn(fd: Fd, loop: LoopId, completed: bool)

  datatype Kind =
    | Complete    // completeConnect
    | Remove      // removeConnectionInLoop
    | Destroy     // connectDestroyed
    | CloseLater  // handleClose, from forceClose
    | Use         // sendInLoop, shutdownInLoop, a write-complete callback

  /** A queued function object, which holds a reference to its connection. */
  datatype Task = Task(kind: Kind, conn: ConnId)

  /** The thread is running handlers while `batch` is empty, and tasks otherwise: those of `batch`
      from `next` on are still to run, all of them hold their references until the batch ends. */
  datatype Loop = Loop(poll: Table, ready: set<ConnId>, tasks: seq<Task>, batch: seq<Task>, next: nat)

  datatype Net = Net(
    conns: seq<Conn>,
    connections: map<Fd, ConnId>,
    users: set<ConnId>,          // held by code outside the library
    loops: seq<Loop>,
    main: LoopId)                // the loop of the acceptor

  // ---------------------------------------------------------------- references

  function Held(l: Loop): set<ConnId> {
    (set t | t in l.batch :: t.conn) + (set t | t in l.tasks :: t.conn)
  }

  ghost predicate Alive(n: Net, c: ConnId) {
    c in n.connections.Values || c in n.users || exists l :: 0 <= l < |n.loops| && c in Held(n.loops[l])
  }

  ghost predicate OpenFd(n: Net, fd: Fd) {
    exists c :: 0 <= c < |n.conns| && Alive(n, c) && n.conns[c].fd == fd
  }

  // ---------------------------------------------------------------- the operations

  ghost predicate Sane(n: Net) {
    && n.main < |n.loops|
    && forall c :: 0 <= c < |n.conns| ==> n.conns[c].loop < |n.loops|
  }

  function WithPoll(n: Net, l: LoopId, t: Table): Net
    requires l < |n.loops|
  {
    n.(loops := n.loops[l := n.loops[l].(poll := t)])
  }

  function QueueInLoop(n: Net, l: LoopId, t: Task): Net
    requires l < |n.loops|
  {
    n.(loops := n.loops[l := n.loops[l].(tasks := n.loops[l].tasks + [t])])
  }

  function CompleteConnect(n: Net, c: ConnId): Net
    requires Sane(n) && c < |n.conns|
  {
    var conn := n.conns[c];
    var t := FlagEvent(AddFd(n.loops[conn.loop].poll, conn.fd, c), conn.fd, Read, true);
    WithPoll(n, conn.loop, t).(conns := n.conns[c := conn.(completed := true)])
  }

  function NewConnection(n: Net, fd: Fd, ioLoop: LoopId): Net
    requires Sane(n) && ioLoop < |n.loops|
  {
    var c := |n.conns|;
    var n1 := n.(conns := n.conns + [Conn(fd, ioLoop, false)], connections := n.connections[fd := c]);
    if ioLoop == n.main then CompleteConnect(n1, c) else QueueInLoop(n1, ioLoop, Task(Complete, c))
  }

  function RemoveConnectionInLoop(n: Net, c: ConnId): Net
    requires Sane(n) && c < |n.conns|
  {
    QueueInLoop(n.(connections := n.connections - {n.conns[c].fd}), n.conns[c].loop, Task(Destroy, c))
  }

  /** `at` is the loop of the calling thread. */
  function RemoveConnection(n: Net, at: LoopId, c: ConnId): Net
    requires Sane(n) && c < |n.conns|
  {
    if at == n.main then RemoveConnectionInLoop(n, c) else QueueInLoop(n, n.main, Task(Remove, c))
  }

  function HandleClose(n: Net, c: ConnId): Net
    requires Sane(n) && c < |n.conns|
  {
    var l := n.conns[c].loop;
    RemoveConnection(WithPoll(n, l, DeleteAllEvent(n.loops[l].poll, n.conns[c].fd)), l, c)
  }

  function ConnectDestroyed(n: Net, c: ConnId): Net
    requires Sane(n) && c < |n.conns|
  {
    var l := n.conns[c].loop;
    WithPoll(n, l, DeleteFd(n.loops[l].poll, n.conns[c].fd))
  }

  /** `enableWriting`, `disableWriting`, `enableReading` or `disableReading`. */
  function Enable(n: Net, c: ConnId, kind: EventType, on: bool): Net
    requires Sane(n) && c < |n.conns|
  {
    var l := n.conns[c].loop;
    WithPoll(n, l, FlagEvent(n.loops[l].poll, n.conns[c].fd, kind, on))
  }

  function Effect(n: Net, t: Task): Net
    requires Sane(n) && t.conn < |n.conns|
  {
    match t.kind
    case Complete => CompleteConnect(n, t.conn)
    case Remove => RemoveConnectionInLoop(n, t.conn)
    case Destroy => ConnectDestroyed(n, t.conn)
    case CloseLater => HandleClose(n, t.conn)
    case Use => n
  }

  // ---------------------------------------------------------------- the steps

  datatype Step =
    | Accept(fd: Fd, ioLoop: LoopId)
    | Wait(l: LoopId, report: Report)
    | HandlerCloses(l: LoopId, c: ConnId)
    | Switch(c: ConnId, event: EventType, on: bool)  // in the thread of c's loop
    | SwapTasks(l: LoopId)
    | RunTask(l: LoopId)
    | EndTasks(l: LoopId)
    | UserTakes(c: ConnId)                           // a callback was handed c
    | UserDrops(c: ConnId)
    | UserQueues(c: ConnId, kind: Kind)

  ghost predicate Enabled(n: Net, step: Step)
    requires Sane(n)
  {
    match step
    case Accept(fd, ioLoop) => ioLoop < |n.loops| && n.loops[n.main].batch == [] && !OpenFd(n, fd)
    case Wait(l, _) => l < |n.loops| && n.loops[l].batch == []
    case HandlerCloses(l, c) => l < |n.loops| && c in n.loops[l].ready && c < |n.conns|
    case Switch(c, _, _) => c < |n.conns| && n.conns[c].completed && Alive(n, c)
    case SwapTasks(l) => l < |n.loops| && n.loops[l].batch == []
    case RunTask(l) =>
      && l < |n.loops| && n.loops[l].next < |n.loops[l].batch|
      && n.loops[l].batch[n.loops[l].next].conn < |n.conns|
    case EndTasks(l) => l < |n.loops| && n.loops[l].next == |n.loops[l].batch|
    case UserTakes(c) => c < |n.conns| && n.conns[c].completed && Alive(n, c)
    case UserDrops(c) => true
    case UserQueues(c, kind) =>
      c < |n.conns| && n.conns[c].completed && Alive(n, c) && (kind.CloseLater? || kind.Use?)
  }

  function Advance(n: Net, l: LoopId): Net
    requires l < |n.loops|
  {
    n.(loops := n.loops[l := n.loops[l].(next := n.loops[l].next + 1)])
  }

  function WithLoop(n: Net, l: LoopId, loop: Loop): Net
    requires l < |n.loops|
  {
    n.(loops := n.loops[l := loop])
  }

  function ReadyHandlers(t: Table, r: Report): set<ConnId> {
    set fd | fd in ReadyFds(t, r) && fd in Watchers(t) :: Watchers(t)[fd]
  }

  ghost function Apply(n: Net, step: Step): Net
    requires Sane(n) && Enabled(n, step)
  {
    match step
    case Accept(fd, ioLoop) => NewConnection(n, fd, ioLoop)
    case Wait(l, r) => WithLoop(n, l, n.loops[l].(ready := ReadyHandlers(n.loops[l].poll, r)))
    case HandlerCloses(l, c) => HandleClose(n, c)
    case Switch(c, event, on) => Enable(n, c, event, on)
    case SwapTasks(l) =>
      WithLoop(n, l, n.loops[l].(ready := {}, batch := n.loops[l].tasks, tasks := [], next := 0))
    case RunTask(l) =>
      Advance(Effect(n, n.loops[l].batch[n.loops[l].next]), l)
    case EndTasks(l) => WithLoop(n, l, n.loops[l].(batch := [], next := 0))
    case UserTakes(c) => n.(users := n.users + {c})
    case UserDrops(c) => n.(users := n.users - {c})
    case UserQueues(c, kind) => QueueInLoop(n, n.conns[c].loop, Task(kind, c))
  }

  // ---------------------------------------------------------------- the invariant

  /** The tasks still to run. */
  function Rest(l: Loop): seq<Task> {
    (if l.next <= |l.batch| then l.batch[l.next..] else []) + l.tasks
  }

  predicate Maps(m: map<Fd, ConnId>, fd: Fd, c: ConnId) {
    fd in m && m[fd] == c
  }

  /** The map's keys are the descriptors of its connections; those that wait for `completeConnect`
      are in it, and only others were handed out. */
  ghost predicate MapInv(n: Net) {
    && (forall fd :: fd in n.connections ==> n.connections[fd] < |n.conns| && n.conns[n.connections[fd]].fd == fd)
    && (forall c :: 0 <= c < |n.conns| && !n.conns[c].completed ==> Maps(n.connections, n.conns[c].fd, c))
    && (forall c :: c in n.users ==> c < |n.conns| && n.conns[c].completed)
  }

  /** No two live connections share a descriptor. */
  ghost predicate FdInv(n: Net) {
    forall a, b :: 0 <= a < b < |n.conns| && Alive(n, a) && Alive(n, b) ==> n.conns[a].fd != n.conns[b].fd
  }

  /** A task waits in the loop it is meant for; `completeConnect` is the first that a connection
      gets. */
  predicate TaskFits(conns: seq<Conn>, main: LoopId, l: LoopId, t: Task) {
    && t.conn < |conns|
    && l == (if t.kind.Remove? then main else conns[t.conn].loop)
    && (t.kind.Complete? <==> !conns[t.conn].completed)
  }

  ghost predicate TasksFit(conns: seq<Conn>, main: LoopId, l: LoopId, rest: seq<Task>) {
    && (forall t :: t in rest ==> TaskFits(conns, main, l, t))
    && (forall i, j :: 0 <= i < j < |rest| && rest[i].kind.Complete? ==> rest[i] != rest[j])
  }

  /** A watched descriptor belongs to a connection of this loop which is in the server's map or has
      a `connectDestroyed` to come. */
  predicate WatchFits(conns: seq<Conn>, connections: map<Fd, ConnId>, l: LoopId, rest: seq<Task>, fd: Fd, c: ConnId) {
    && c < |conns| && conns[c].fd == fd && conns[c].loop == l && conns[c].completed
    && (Maps(connections, fd, c) || Task(Destroy, c) in rest)
  }

  ghost predicate WatchesFit(conns: seq<Conn>, connections: map<Fd, ConnId>, l: LoopId, rest: seq<Task>,
                             watchers: map<Fd, ConnId>) {
    forall fd :: fd in watchers ==> WatchFits(conns, connections, l, rest, fd, watchers[fd])
  }

  /** Conversely, a completed connection of this loop is watched for as long as it is in the map. */
  ghost predicate MappedWatched(conns: seq<Conn>, connections: map<Fd, ConnId>, l: LoopId, watchers: map<Fd, ConnId>) {
    forall c :: 0 <= c < |conns| && conns[c].completed && conns[c].loop == l && Maps(connections, conns[c].fd, c) ==>
      Maps(watchers, conns[c].fd, c)
  }

  /** `connectDestroyed` waits only for connections that left the map. */
  ghost predicate DestroysFit(conns: seq<Conn>, connections: map<Fd, ConnId>, rest: seq<Task>) {
    forall t :: t in rest && t.kind.Destroy? && t.conn < |conns| ==> !Maps(connections, conns[t.conn].fd, t.conn)
  }

  /** The handlers about to run are still watched. */
  ghost predicate ReadyFit(conns: seq<Conn>, watchers: map<Fd, ConnId>, ready: set<ConnId>) {
    forall c :: c in ready ==> c < |conns| && Maps(watchers, conns[c].fd, c)
  }

  ghost predicate Shape(conns: seq<Conn>, l: Loop) {
    && l.next <= |l.batch|
    && (l.ready != {} ==> l.batch == [])
    && (forall c :: c in Held(l) ==> c < |conns|)
  }

  ghost predicate LoopInv(conns: seq<Conn>, connections: map<Fd, ConnId>, main: LoopId, l: LoopId, loop: Loop) {
    && Shape(conns, loop)
    && TasksFit(conns, main, l, Rest(loop))
    && WatchesFit(conns, connections, l, Rest(loop), Watchers(loop.poll))
    && MappedWatched(conns, connections, l, Watchers(loop.poll))
    && DestroysFit(conns, connections, Rest(loop))
    && ReadyFit(conns, Watchers(loop.poll), loop.ready)
  }

  ghost predicate Inv(n: Net) {
    && Sane(n) && MapInv(n) && FdInv(n)
    && forall l :: 0 <= l < |n.loops| ==> LoopInv(n.conns, n.connections, n.main, l, n.loops[l])
  }

  // ---------------------------------------------------------------- who is alive

  lemma LoopRefs(n: Net, l: LoopId, loop: Loop, c: ConnId)
    requires l < |n.loops| && (c in Held(loop) ==> Alive(n, c))
    ensures Alive(WithLoop(n, l, loop), c) ==> Alive(n, c)
  {
    var n' := WithLoop(n, l, loop);
    if k :| 0 <= k < |n'.loops| && c in Held(n'.loops[k]) {
      assert k == l || c in Held(n.loops[k]);
    }
  }

  lemma HeldAppend(l: Loop, t: Task)
    ensures Held(l.(tasks := l.tasks + [t])) == Held(l) + {t.conn}
  {
    var l' := l.(tasks := l.tasks + [t]);
    assert t in l'.tasks;
    forall c | c in Held(l) + {t.conn}
      ensures c in Held(l')
    {
      if u :| u in l.tasks && u.conn == c {
        assert u in l'.tasks;
      }
    }
  }

  lemma RestHeld(l: Loop, t: Task)
    requires t in Rest(l)
    ensures t.conn in Held(l)
  {
    assert t in l.batch || t in l.tasks;
  }

  lemma FdKept(n: Net, n': Net)
    requires FdInv(n) && |n'.conns| == |n.conns|
    requires forall c :: 0 <= c < |n.conns| ==> n'.conns[c].fd == n.conns[c].fd
    requires forall c :: Alive(n', c) ==> Alive(n, c)
    ensures FdInv(n')
  {
  }

  // ---------------------------------------------------------------- removal is exact

  /** Whatever connection is still held, the map's entry under its descriptor is its own or none:
      erasing it cannot evict another connection. */
  lemma EntryIsOwn(n: Net, c: ConnId)
    requires Inv(n) && c < |n.conns| && Alive(n, c)
    ensures n.conns[c].fd in n.connections ==> n.connections[n.conns[c].fd] == c
  {
    var fd := n.conns[c].fd;
    if fd in n.connections {
      var d := n.connections[fd];
      assert d in n.connections.Values && Alive(n, d) && n.conns[d].fd == fd;
    }
  }

  // ---------------------------------------------------------------- what each operation keeps

  /** One loop changes, and who is alive does not grow. */
  lemma LoopKeeps(n: Net, l: LoopId, loop: Loop)
    requires Inv(n) && l < |n.loops| && LoopInv(n.conns, n.connections, n.main, l, loop)
    requires forall c :: c in Held(loop) ==> Alive(n, c)
    ensures Inv(WithLoop(n, l, loop))
    ensures forall c :: Alive(WithLoop(n, l, loop), c) ==> Alive(n, c)
  {
    hide LoopInv, Alive, Held;
    var n' := WithLoop(n, l, loop);
    forall c
      ensures Alive(n', c) ==> Alive(n, c)
    {
      LoopRefs(n, l, loop, c);
    }
    FdKept(n, n');
  }

  lemma OwnRefs(n: Net, l: LoopId)
    requires l < |n.loops|
    ensures forall c :: c in Held(n.loops[l]) ==> Alive(n, c)
  {
  }

  lemma QueueKeeps(n: Net, l: LoopId, t: Task)
    requires Inv(n) && l < |n.loops| && TaskFits(n.conns, n.main, l, t) && Alive(n, t.conn)
    requires t.kind.Complete? ==> t !in Rest(n.loops[l])
    requires !t.kind.Destroy?
    ensures Inv(QueueInLoop(n, l, t))
    ensures forall c :: Alive(QueueInLoop(n, l, t), c) ==> Alive(n, c)
  {
    hide Held, Alive, Watchers, Rest, TasksFit, MappedWatched, ReadyFit;
    var loop, loop' := n.loops[l], n.loops[l].(tasks := n.loops[l].tasks + [t]);
    assert LoopInv(n.conns, n.connections, n.main, l, loop);
    HeldAppend(loop, t);
    OwnRefs(n, l);
    RestAppend(loop, t);
    TasksAppend(n.conns, n.main, l, Rest(loop), t);
    LoopKeeps(n, l, loop');
  }

  lemma PollKeeps(n: Net, l: LoopId, t: Table)
    requires Inv(n) && l < |n.loops| && Watchers(t) == Watchers(n.loops[l].poll)
    ensures Inv(WithPoll(n, l, t))
    ensures forall c :: Alive(WithPoll(n, l, t), c) <==> Alive(n, c)
  {
    hide TaskFits, Watchers;
    var loop, loop' := n.loops[l], n.loops[l].(poll := t);
    assert LoopInv(n.conns, n.connections, n.main, l, loop);
    assert Held(loop') == Held(loop) && Rest(loop') == Rest(loop);
    OwnRefs(n, l);
    LoopKeeps(n, l, loop');
    forall c | Alive(n, c)
      ensures Alive(WithPoll(n, l, t), c)
    {
      if k :| 0 <= k < |n.loops| && c in Held(n.loops[k]) {
        assert c in Held(WithPoll(n, l, t).loops[k]);
      }
    }
  }

  lemma TasksAppend(conns: seq<Conn>, main: LoopId, l: LoopId, rest: seq<Task>, t: Task)
    requires TasksFit(conns, main, l, rest) && TaskFits(conns, main, l, t)
    requires t.kind.Complete? ==> t !in rest
    ensures TasksFit(conns, main, l, rest + [t])
  {
    hide TaskFits;
  }

  lemma RemoveWatches(conns: seq<Conn>, connections: map<Fd, ConnId>, l: LoopId, rest: seq<Task>, rest': seq<Task>,
                      watchers: map<Fd, ConnId>, c: ConnId)
    requires WatchesFit(conns, connections, l, rest, watchers) && c < |conns|
    requires forall t :: t in rest ==> t in rest'
    requires conns[c].loop == l ==> Task(Destroy, c) in rest'
    requires conns[c].fd in connections ==> connections[conns[c].fd] == c
    ensures WatchesFit(conns, connections - {conns[c].fd}, l, rest', watchers)
  {
    forall fd | fd in watchers
      ensures WatchFits(conns, connections - {conns[c].fd}, l, rest', fd, watchers[fd])
    {
      assert WatchFits(conns, connections, l, rest, fd, watchers[fd]);
    }
  }

  lemma RemoveDestroys(conns: seq<Conn>, connections: map<Fd, ConnId>, rest: seq<Task>, rest': seq<Task>, c: ConnId)
    requires DestroysFit(conns, connections, rest) && c < |conns|
    requires forall t :: t in rest' ==> t in rest || t == Task(Destroy, c)
    ensures DestroysFit(conns, connections - {conns[c].fd}, rest')
  {
  }

  lemma RemoveMapped(conns: seq<Conn>, connections: map<Fd, ConnId>, l: LoopId, watchers: map<Fd, ConnId>, fd: Fd)
    requires MappedWatched(conns, connections, l, watchers)
    ensures MappedWatched(conns, connections - {fd}, l, watchers)
  {
  }

  /** One loop, when c leaves the map and, if it is a connection of this loop, gets its
      `connectDestroyed`. */
  lemma RemoveLoop(conns: seq<Conn>, connections: map<Fd, ConnId>, main: LoopId, l: LoopId, loop: Loop, c: ConnId)
    requires LoopInv(conns, connections, main, l, loop) && c < |conns| && conns[c].completed
    requires conns[c].fd in connections ==> connections[conns[c].fd] == c
    ensures var loop' := if l == conns[c].loop then loop.(tasks := loop.tasks + [Task(Destroy, c)]) else loop;
      LoopInv(conns, connections - {conns[c].fd}, main, l, loop')
  {
    hide Watchers, Held, Rest, TasksFit, WatchesFit, MappedWatched, DestroysFit, ReadyFit;
    var rest, t := Rest(loop), Task(Destroy, c);
    var watchers := Watchers(loop.poll);
    RemoveMapped(conns, connections, l, watchers, conns[c].fd);
    if l == conns[c].loop {
      HeldAppend(loop, t);
      RestAppend(loop, t);
      TasksAppend(conns, main, l, rest, t);
      RemoveWatches(conns, connections, l, rest, rest + [t], watchers, c);
      RemoveDestroys(conns, connections, rest, rest + [t], c);
    } else {
      RemoveWatches(conns, connections, l, rest, rest, watchers, c);
      RemoveDestroys(conns, connections, rest, rest, c);
    }
  }

  lemma RestAppend(l: Loop, t: Task)
    ensures Rest(l.(tasks := l.tasks + [t])) == Rest(l) + [t]
  {
  }

  lemma RemoveInLoopKeeps(n: Net, c: ConnId)
    requires Inv(n) && c < |n.conns| && n.conns[c].completed && Alive(n, c)
    ensures Inv(RemoveConnectionInLoop(n, c))
    ensures forall d :: Alive(RemoveConnectionInLoop(n, c), d) ==> Alive(n, d)
  {
    hide LoopInv;
    var n' := RemoveConnectionInLoop(n, c);
    EntryIsOwn(n, c);
    HeldAppend(n.loops[n.conns[c].loop], Task(Destroy, c));
    forall d | Alive(n', d)
      ensures Alive(n, d)
    {
      if k :| 0 <= k < |n'.loops| && d in Held(n'.loops[k]) {
        assert d == c || d in Held(n.loops[k]);
      }
    }
    FdKept(n, n');
    forall l | 0 <= l < |n.loops|
      ensures LoopInv(n'.conns, n'.connections, n'.main, l, n'.loops[l])
    {
      assert LoopInv(n.conns, n.connections, n.main, l, n.loops[l]);
      RemoveLoop(n.conns, n.connections, n.main, l, n.loops[l], c);
    }
  }

  lemma HandleCloseKeeps(n: Net, c: ConnId)
    requires Inv(n) && c < |n.conns| && n.conns[c].completed && Alive(n, c)
    ensures Inv(HandleClose(n, c))
    ensures forall d :: Alive(HandleClose(n, c), d) ==> Alive(n, d)
  {
    hide Watchers, DeleteAllEvent, Rest, LoopInv, Alive, Held;
    var l := n.conns[c].loop;
    var t := DeleteAllEvent(n.loops[l].poll, n.conns[c].fd);
    DeleteAllEventWatchesSame(n.loops[l].poll, n.conns[c].fd);
    PollKeeps(n, l, t);
    var n1 := WithPoll(n, l, t);
    if l == n.main {
      RemoveInLoopKeeps(n1, c);
    } else {
      QueueKeeps(n1, n.main, Task(Remove, c));
    }
  }

  lemma EnableKeeps(n: Net, c: ConnId, event: EventType, on: bool)
    requires Inv(n) && c < |n.conns|
    ensures Inv(Enable(n, c, event, on))
    ensures forall d :: Alive(Enable(n, c, event, on), d) ==> Alive(n, d)
  {
    hide Watchers, FlagEvent, Rest, LoopInv, Alive, Held;
    FlagEventWatchesSame(n.loops[n.conns[c].loop].poll, n.conns[c].fd, event, on);
    PollKeeps(n, n.conns[c].loop, FlagEvent(n.loops[n.conns[c].loop].poll, n.conns[c].fd, event, on));
  }

  lemma ReadyIrrelevant(l: Loop, ready: set<ConnId>)
    ensures Held(l.(ready := ready)) == Held(l) && Rest(l.(ready := ready)) == Rest(l)
  {
  }

  lemma WaitKeeps(n: Net, l: LoopId, r: Report)
    requires Inv(n) && Enabled(n, Wait(l, r))
    ensures Inv(Apply(n, Wait(l, r)))
    ensures forall d :: Alive(Apply(n, Wait(l, r)), d) ==> Alive(n, d)
  {
    hide Watchers, TasksFit, MappedWatched, DestroysFit, Alive, ReadyFds, Held, Rest;
    var loop := n.loops[l];
    var loop' := loop.(ready := ReadyHandlers(loop.poll, r));
    assert LoopInv(n.conns, n.connections, n.main, l, loop);
    ReadyIrrelevant(loop, loop'.ready);
    OwnRefs(n, l);
    LoopKeeps(n, l, loop');
  }

  lemma Swapped(l: Loop)
    requires l.batch == [] && l.next == 0
    ensures var l' := l.(ready := {}, batch := l.tasks, tasks := [], next := 0);
      Held(l') == Held(l) && Rest(l') == Rest(l)
  {
  }

  lemma Ended(l: Loop)
    requires l.next == |l.batch|
    ensures var l' := l.(batch := [], next := 0);
      Held(l') <= Held(l) && Rest(l') == Rest(l)
  {
  }

  lemma SwapKeeps(n: Net, l: LoopId)
    requires Inv(n) && Enabled(n, SwapTasks(l))
    ensures Inv(Apply(n, SwapTasks(l)))
    ensures forall d :: Alive(Apply(n, SwapTasks(l)), d) ==> Alive(n, d)
  {
    hide Watchers, TasksFit, WatchesFit, MappedWatched, DestroysFit, Alive, Held, Rest;
    var loop := n.loops[l];
    var loop' := loop.(ready := {}, batch := loop.tasks, tasks := [], next := 0);
    assert LoopInv(n.conns, n.connections, n.main, l, loop);
    Swapped(loop);
    OwnRefs(n, l);
    LoopKeeps(n, l, loop');
  }

  lemma EndTasksKeeps(n: Net, l: LoopId)
    requires Inv(n) && Enabled(n, EndTasks(l))
    ensures Inv(Apply(n, EndTasks(l)))
    ensures forall d :: Alive(Apply(n, EndTasks(l)), d) ==> Alive(n, d)
  {
    hide Watchers, TasksFit, WatchesFit, MappedWatched, DestroysFit, Alive, Held, Rest;
    var loop := n.loops[l];
    var loop' := loop.(batch := [], next := 0);
    assert LoopInv(n.conns, n.connections, n.main, l, loop);
    Ended(loop);
    OwnRefs(n, l);
    LoopKeeps(n, l, loop');
  }

  lemma UsersKeep(n: Net, users: set<ConnId>)
    requires Inv(n) && forall c :: c in users ==> c < |n.conns| && n.conns[c].completed && Alive(n, c)
    ensures Inv(n.(users := users))
    ensures forall d :: Alive(n.(users := users), d) ==> Alive(n, d)
  {
    hide LoopInv;
    FdKept(n, n.(users := users));
  }

  /** The head of the batch is done, and was neither a `connectDestroyed` still owed nor a
      `completeConnect`. */
  lemma AdvanceKeeps(n: Net, l: LoopId)
    requires Inv(n) && l < |n.loops| && n.loops[l].next < |n.loops[l].batch|
    requires var t := n.loops[l].batch[n.loops[l].next];
      t.kind.Destroy? && t.conn < |n.conns| ==> !Maps(Watchers(n.loops[l].poll), n.conns[t.conn].fd, t.conn)
    ensures Inv(Advance(n, l))
    ensures forall d :: Alive(Advance(n, l), d) ==> Alive(n, d)
  {
    hide Watchers, Alive, Held, TasksFit, WatchesFit, WatchFits, MappedWatched, Rest;
    var loop := n.loops[l];
    var loop' := loop.(next := loop.next + 1);
    assert LoopInv(n.conns, n.connections, n.main, l, loop);
    RestAdvanced(loop);
    TailFits(n.conns, n.main, l, loop.batch[loop.next], Rest(loop'));
    TailWatches(n.conns, n.connections, l, loop.batch[loop.next], Rest(loop'), Watchers(loop.poll));
    OwnRefs(n, l);
    LoopKeeps(n, l, loop');
    assert Advance(n, l) == WithLoop(n, l, loop');
  }

  lemma TailFits(conns: seq<Conn>, main: LoopId, l: LoopId, head: Task, tail: seq<Task>)
    requires TasksFit(conns, main, l, [head] + tail)
    ensures TasksFit(conns, main, l, tail)
    ensures head.kind.Complete? ==> head !in tail
  {
    hide TaskFits;
    var rest := [head] + tail;
    assert forall t :: t in tail ==> t in rest;
    assert forall i :: 0 <= i < |tail| ==> tail[i] == rest[i + 1];
    forall i, j | 0 <= i < j < |tail| && tail[i].kind.Complete?
      ensures tail[i] != tail[j]
    {
      assert rest[i + 1] != rest[j + 1];
    }
    forall j | 0 <= j < |tail|
      ensures head.kind.Complete? ==> tail[j] != head
    {
      assert rest[0] == head && rest[j + 1] == tail[j];
    }
  }

  lemma TailWatches(conns: seq<Conn>, connections: map<Fd, ConnId>, l: LoopId, head: Task, tail: seq<Task>,
                    watchers: map<Fd, ConnId>)
    requires WatchesFit(conns, connections, l, [head] + tail, watchers)
    requires head.kind.Destroy? && head.conn < |conns| ==> !Maps(watchers, conns[head.conn].fd, head.conn)
    ensures WatchesFit(conns, connections, l, tail, watchers)
  {
    forall fd | fd in watchers
      ensures WatchFits(conns, connections, l, tail, fd, watchers[fd])
    {
      assert WatchFits(conns, connections, l, [head] + tail, fd, watchers[fd]);
    }
  }

  lemma RestAdvanced(l: Loop)
    requires l.next < |l.batch|
    ensures Rest(l) == [l.batch[l.next]] + Rest(l.(next := l.next + 1))
    ensures Held(l.(next := l.next + 1)) == Held(l)
  {
  }

  /** Another connection's descriptor is never touched through the number of a live one. */
  lemma WatchIsOwn(n: Net, l: LoopId, c: ConnId)
    requires Inv(n) && l < |n.loops| && c < |n.conns| && Alive(n, c)
    ensures var w, fd := Watchers(n.loops[l].poll), n.conns[c].fd; fd in w ==> w[fd] == c
  {
    hide Watchers;
    var w, fd := Watchers(n.loops[l].poll), n.conns[c].fd;
    if fd in w {
      WatchedAlive(n, l, fd);
      assert n.conns[w[fd]].fd == fd;
    }
  }

  /** The connection behind a watched descriptor is alive. */
  lemma WatchedAlive(n: Net, l: LoopId, fd: Fd)
    requires Inv(n) && l < |n.loops| && fd in Watchers(n.loops[l].poll)
    ensures var c := Watchers(n.loops[l].poll)[fd];
      c < |n.conns| && n.conns[c].fd == fd && Alive(n, c)
  {
    hide Watchers, Held;
    var loop := n.loops[l];
    var c := Watchers(loop.poll)[fd];
    assert LoopInv(n.conns, n.connections, n.main, l, loop);
    assert WatchFits(n.conns, n.connections, l, Rest(loop), fd, c);
    if Task(Destroy, c) in Rest(loop) {
      RestHeld(loop, Task(Destroy, c));
    }
  }

  lemma DestroyedKeeps(n: Net, c: ConnId)
    requires Inv(n) && c < |n.conns| && n.loops[n.conns[c].loop].ready == {} && n.conns[c].fd !in n.connections
    ensures Inv(ConnectDestroyed(n, c))
    ensures forall d :: Alive(ConnectDestroyed(n, c), d) ==> Alive(n, d)
    ensures !Maps(Watchers(ConnectDestroyed(n, c).loops[n.conns[c].loop].poll), n.conns[c].fd, c)
  {
    hide Watchers, Alive, Held, Rest, TasksFit, DestroysFit, DeleteFd;
    var l := n.conns[c].loop;
    var loop := n.loops[l];
    var loop' := loop.(poll := DeleteFd(loop.poll, n.conns[c].fd));
    assert LoopInv(n.conns, n.connections, n.main, l, loop);
    DeleteFdUnwatches(loop.poll, n.conns[c].fd);
    PollIrrelevant(loop, loop'.poll);
    OwnRefs(n, l);
    LoopKeeps(n, l, loop');
  }

  lemma NextTask(n: Net, l: LoopId)
    requires Inv(n) && l < |n.loops| && n.loops[l].next < |n.loops[l].batch|
    ensures var t := n.loops[l].batch[n.loops[l].next];
      && TaskFits(n.conns, n.main, l, t) && Alive(n, t.conn) && n.loops[l].ready == {}
      && (t.kind.Destroy? ==> n.conns[t.conn].fd !in n.connections)
  {
    hide Watchers;
    var loop := n.loops[l];
    assert LoopInv(n.conns, n.connections, n.main, l, loop);
    RestAdvanced(loop);
    assert Rest(loop)[0] in Rest(loop);
    RestHeld(loop, Rest(loop)[0]);
    EntryIsOwn(n, Rest(loop)[0].conn);
  }

  predicate SameBatches(n: Net, n': Net) {
    |n'.loops| == |n.loops| && forall l :: 0 <= l < |n.loops| ==>
      n'.loops[l].batch == n.loops[l].batch && n'.loops[l].next == n.loops[l].next
  }

  lemma RunTaskKeeps(n: Net, l: LoopId)
    requires Inv(n) && Enabled(n, RunTask(l)) && !n.loops[l].batch[n.loops[l].next].kind.Complete?
    ensures Inv(Apply(n, RunTask(l)))
    ensures forall d :: Alive(Apply(n, RunTask(l)), d) ==> Alive(n, d)
  {
    hide LoopInv, FdInv, MapInv, Effect, Alive, Watchers, Maps;
    var t := n.loops[l].batch[n.loops[l].next];
    EffectKeeps(n, l);
    EffectBatches(n, t);
    AdvanceKeeps(Effect(n, t), l);
  }

  lemma EffectBatches(n: Net, t: Task)
    requires Sane(n) && t.conn < |n.conns|
    ensures SameBatches(n, Effect(n, t))
  {
  }

  lemma EffectKeeps(n: Net, l: LoopId)
    requires Inv(n) && Enabled(n, RunTask(l)) && !n.loops[l].batch[n.loops[l].next].kind.Complete?
    ensures var t := n.loops[l].batch[n.loops[l].next]; var n' := Effect(n, t);
      && Inv(n') && (forall d :: Alive(n', d) ==> Alive(n, d))
      && |n'.loops| == |n.loops|
      && (t.kind.Destroy? && t.conn < |n'.conns| ==>
            !Maps(Watchers(n'.loops[l].poll), n'.conns[t.conn].fd, t.conn))
  {
    hide Watchers, Alive, TasksFit, WatchesFit, ReadyFit;
    var t := n.loops[l].batch[n.loops[l].next];
    NextTask(n, l);
    match t.kind
    case Use =>
    case CloseLater => HandleCloseKeeps(n, t.conn);
    case Remove => RemoveInLoopKeeps(n, t.conn);
    case Destroy => DestroyedKeeps(n, t.conn);
  }

  // ---------------------------------------------------------------- completeConnect

  function Completed(conns: seq<Conn>, c: ConnId): seq<Conn>
    requires c < |conns|
  {
    conns[c := conns[c].(completed := true)]
  }

  lemma CompletedTasks(conns: seq<Conn>, connections: map<Fd, ConnId>, main: LoopId, l: LoopId, rest: seq<Task>, c: ConnId)
    requires TasksFit(conns, main, l, rest) && DestroysFit(conns, connections, rest) && c < |conns|
    requires forall t :: t in rest ==> t.conn != c
    ensures TasksFit(Completed(conns, c), main, l, rest) && DestroysFit(Completed(conns, c), connections, rest)
  {
    forall t | t in rest
      ensures TaskFits(Completed(conns, c), main, l, t)
    {
      assert TaskFits(conns, main, l, t);
    }
  }

  lemma CompletedWatches(conns: seq<Conn>, connections: map<Fd, ConnId>, l: LoopId, rest: seq<Task>,
                         watchers: map<Fd, ConnId>, watchers': map<Fd, ConnId>, c: ConnId)
    requires WatchesFit(conns, connections, l, rest, watchers) && c < |conns|
    requires watchers' == watchers || (watchers' == watchers[conns[c].fd := c] && conns[c].loop == l && Maps(connections, conns[c].fd, c))
    ensures WatchesFit(Completed(conns, c), connections, l, rest, watchers')
  {
    forall fd | fd in watchers'
      ensures WatchFits(Completed(conns, c), connections, l, rest, fd, watchers'[fd])
    {
      assert fd in watchers ==> WatchFits(conns, connections, l, rest, fd, watchers[fd]);
    }
  }

  lemma CompletedMapped(conns: seq<Conn>, connections: map<Fd, ConnId>, l: LoopId, watchers: map<Fd, ConnId>,
                        watchers': map<Fd, ConnId>, c: ConnId)
    requires MappedWatched(conns, connections, l, watchers) && c < |conns|
    requires if conns[c].loop == l then watchers' == watchers[conns[c].fd := c] && Maps(connections, conns[c].fd, c)
             else watchers' == watchers
    ensures MappedWatched(Completed(conns, c), connections, l, watchers')
  {
  }

  /** The other loops, when c is completed. */
  lemma FlipLoop(conns: seq<Conn>, connections: map<Fd, ConnId>, main: LoopId, l: LoopId, loop: Loop, c: ConnId)
    requires LoopInv(conns, connections, main, l, loop)
    requires c < |conns| && !conns[c].completed && conns[c].loop != l
    requires forall t :: t in Rest(loop) ==> t.conn != c
    ensures LoopInv(Completed(conns, c), connections, main, l, loop)
  {
    hide Watchers, Held, Rest, TasksFit, WatchesFit, MappedWatched, DestroysFit;
    var watchers := Watchers(loop.poll);
    CompletedTasks(conns, connections, main, l, Rest(loop), c);
    CompletedWatches(conns, connections, l, Rest(loop), watchers, watchers, c);
    CompletedMapped(conns, connections, l, watchers, watchers, c);
  }

  /** The loop of c, when c is completed and its descriptor watched. */
  lemma RegisterLoop(conns: seq<Conn>, connections: map<Fd, ConnId>, main: LoopId, loop: Loop, c: ConnId, t: Table)
    requires c < |conns| && !conns[c].completed && LoopInv(conns, connections, main, conns[c].loop, loop)
    requires Maps(connections, conns[c].fd, c) && Watchers(t) == Watchers(loop.poll)[conns[c].fd := c]
    requires loop.ready == {} || conns[c].fd !in Watchers(loop.poll)
    requires forall t :: t in Rest(loop) ==> t.conn != c
    ensures LoopInv(Completed(conns, c), connections, main, conns[c].loop, loop.(poll := t))
  {
    hide Watchers, Held, Rest, TasksFit, WatchesFit, MappedWatched, DestroysFit;
    var l, watchers := conns[c].loop, Watchers(loop.poll);
    PollIrrelevant(loop, t);
    CompletedTasks(conns, connections, main, l, Rest(loop), c);
    CompletedWatches(conns, connections, l, Rest(loop), watchers, Watchers(t), c);
    CompletedMapped(conns, connections, l, watchers, Watchers(t), c);
  }

  lemma PollIrrelevant(l: Loop, t: Table)
    ensures Rest(l.(poll := t)) == Rest(l) && Held(l.(poll := t)) == Held(l)
  {
  }

  /** c waits for its `completeConnect` and nothing else, and no handler about to run is replaced. */
  ghost predicate Completable(n: Net, c: ConnId) {
    && c < |n.conns| && !n.conns[c].completed && n.conns[c].loop < |n.loops| && Alive(n, c)
    && (forall l, t :: 0 <= l < |n.loops| && t in Rest(n.loops[l]) ==> t.conn != c)
    && (n.loops[n.conns[c].loop].ready == {} || n.conns[c].fd !in Watchers(n.loops[n.conns[c].loop].poll))
  }

  lemma CompleteKeeps(n: Net, c: ConnId)
    requires Inv(n) && Completable(n, c)
    ensures Inv(CompleteConnect(n, c))
    ensures forall d :: Alive(CompleteConnect(n, c), d) ==> Alive(n, d)
  {
    hide Watchers, AddFd, FlagEvent, LoopInv, Rest;
    var conn, n' := n.conns[c], CompleteConnect(n, c);
    var l := conn.loop;
    var t := FlagEvent(AddFd(n.loops[l].poll, conn.fd, c), conn.fd, Read, true);
    AddFdWatches(n.loops[l].poll, conn.fd, c);
    FlagEventWatchesSame(AddFd(n.loops[l].poll, conn.fd, c), conn.fd, Read, true);
    forall k | 0 <= k < |n.loops|
      ensures LoopInv(n'.conns, n'.connections, n'.main, k, n'.loops[k])
    {
      assert LoopInv(n.conns, n.connections, n.main, k, n.loops[k]);
      if k == l {
        RegisterLoop(n.conns, n.connections, n.main, n.loops[l], c, t);
      } else {
        FlipLoop(n.conns, n.connections, n.main, k, n.loops[k], c);
      }
    }
    PollRefs(n, n', l);
    FdKept(n, n');
  }

  lemma PollRefs(n: Net, n': Net, l: LoopId)
    requires l < |n.loops| == |n'.loops| && n'.connections == n.connections && n'.users == n.users
    requires n'.loops == n.loops[l := n.loops[l].(poll := n'.loops[l].poll)]
    ensures forall d :: Alive(n', d) ==> Alive(n, d)
  {
    forall d | Alive(n', d)
      ensures Alive(n, d)
    {
      if k :| 0 <= k < |n'.loops| && d in Held(n'.loops[k]) {
        assert d in Held(n.loops[k]);
      }
    }
  }

  lemma NoTaskLeft(n: Net, l: LoopId)
    requires Inv(n) && l < |n.loops| && n.loops[l].next < |n.loops[l].batch|
    requires n.loops[l].batch[n.loops[l].next].kind.Complete?
    ensures forall k, t :: 0 <= k < |n.loops| && t in Rest(Advance(n, l).loops[k]) ==>
      t.conn != n.loops[l].batch[n.loops[l].next].conn
  {
    hide Watchers, Rest, WatchesFit, ReadyFit, Shape;
    var head, tail := n.loops[l].batch[n.loops[l].next], Rest(Advance(n, l).loops[l]);
    NextTask(n, l);
    RestAdvanced(n.loops[l]);
    assert LoopInv(n.conns, n.connections, n.main, l, n.loops[l]);
    TailFits(n.conns, n.main, l, head, tail);
    forall k, t | 0 <= k < |n.loops| && t in Rest(Advance(n, l).loops[k])
      ensures t.conn != head.conn
    {
      assert LoopInv(n.conns, n.connections, n.main, k, n.loops[k]);
      assert TaskFits(n.conns, n.main, k, t);
    }
  }

  lemma RunCompleteKeeps(n: Net, l: LoopId)
    requires Inv(n) && Enabled(n, RunTask(l)) && n.loops[l].batch[n.loops[l].next].kind.Complete?
    ensures Inv(Apply(n, RunTask(l)))
    ensures forall d :: Alive(Apply(n, RunTask(l)), d) ==> Alive(n, d)
  {
    hide Watchers, AddFd, FlagEvent, LoopInv, Rest, FdInv, MapInv;
    var c, n1 := n.loops[l].batch[n.loops[l].next].conn, Advance(n, l);
    NextTask(n, l);
    NoTaskLeft(n, l);
    AdvanceKeeps(n, l);
    assert Alive(n1, c) by {
      StillHeld(n, l, c);
    }
    CompleteKeeps(n1, c);
    assert Apply(n, RunTask(l)) == CompleteConnect(n1, c);
  }

  lemma StillHeld(n: Net, l: LoopId, c: ConnId)
    requires l < |n.loops| && Alive(n, c)
    ensures Alive(Advance(n, l), c)
  {
    if k :| 0 <= k < |n.loops| && c in Held(n.loops[k]) {
      assert c in Held(Advance(n, l).loops[k]);
    }
  }

  // ---------------------------------------------------------------- removal happens

  /** A close, in whichever loop, takes the connection out of the map and has `connectDestroyed` queued in
      its own loop, or has the removal queued in the acceptor's loop, which will do both; and its
      descriptor is not ready any more. */
  lemma CloseRemoves(n: Net, c: ConnId, n': Net)
    requires Inv(n) && c < |n.conns| && n.conns[c].completed && Alive(n, c)
    requires || n' == Effect(n, Task(CloseLater, c))
             || (Enabled(n, HandlerCloses(n.conns[c].loop, c)) && n' == Apply(n, HandlerCloses(n.conns[c].loop, c)))
    ensures |n'.loops| == |n.loops|
    ensures var conn := n.conns[c];
      && (if conn.loop == n.main then conn.fd !in n'.connections && Task(Destroy, c) in n'.loops[conn.loop].tasks
          else Task(Remove, c) in n'.loops[n.main].tasks)
      && forall r :: conn.fd !in ReadyFds(n'.loops[conn.loop].poll, r)
  {
    hide LoopInv, Alive, FdInv, MapInv, DeleteAllEvent, ReadyFds;
    var conn := n.conns[c];
    forall r
      ensures conn.fd !in ReadyFds(n'.loops[conn.loop].poll, r)
    {
      NeverReady(n.loops[conn.loop].poll, conn.fd, r);
    }
  }

  /** And running that removal takes the connection out of the map, whoever else is in it, and has
      `connectDestroyed` queued. */
  lemma RemovalIsExact(n: Net, c: ConnId)
    requires Inv(n) && c < |n.conns| && n.conns[c].completed && Alive(n, c)
    ensures var n' := Effect(n, Task(Remove, c));
      && (forall fd :: fd in n'.connections ==> n'.connections[fd] != c)
      && (forall fd :: fd in n.connections && n.connections[fd] != c ==> Maps(n'.connections, fd, n.connections[fd]))
      && Task(Destroy, c) in n'.loops[n.conns[c].loop].tasks
  {
    hide LoopInv, Alive, FdInv;
    EntryIsOwn(n, c);
  }

  /** Running `connectDestroyed` unwatches the descriptor; the other tasks that are no removal leave the polls
      to the connection. */
  lemma DestroyUnwatches(n: Net, c: ConnId)
    requires Inv(n) && c < |n.conns|
    ensures var n' := Effect(n, Task(Destroy, c));
      && n.conns[c].fd !in Watchers(n'.loops[n.conns[c].loop].poll) && n'.connections == n.connections
      && Effect(n, Task(Use, c)) == n
      && Effect(n, Task(Complete, c)) == CompleteConnect(n, c)
  {
    DeleteFdUnwatches(n.loops[n.conns[c].loop].poll, n.conns[c].fd);
  }

  // ---------------------------------------------------------------- newConnection

  /** The connection as it is entered into the map. */
  function Entered(n: Net, fd: Fd, ioLoop: LoopId): Net {
    n.(conns := n.conns + [Conn(fd, ioLoop, false)], connections := n.connections[fd := |n.conns|])
  }

  lemma EntryAlive(n: Net, fd: Fd)
    requires Inv(n) && fd in n.connections
    ensures var c := n.connections[fd]; c < |n.conns| && n.conns[c].fd == fd && Alive(n, c)
  {
  }

  /** A descriptor that the kernel may hand out is neither in the map nor watched by any loop. */
  lemma AcceptEvictsNone(n: Net, fd: Fd)
    requires Inv(n) && !OpenFd(n, fd)
    ensures fd !in n.connections
    ensures forall l :: 0 <= l < |n.loops| ==> fd !in Watchers(n.loops[l].poll)
  {
    hide Watchers;
    if fd in n.connections {
      EntryAlive(n, fd);
    }
    forall l | 0 <= l < |n.loops|
      ensures fd !in Watchers(n.loops[l].poll)
    {
      if fd in Watchers(n.loops[l].poll) {
        WatchedAlive(n, l, fd);
      }
    }
  }

  lemma EnteredRefs(n: Net, fd: Fd, ioLoop: LoopId)
    ensures forall d :: Alive(Entered(n, fd, ioLoop), d) ==> Alive(n, d) || d == |n.conns|
    ensures Alive(Entered(n, fd, ioLoop), |n.conns|)
  {
    var n' := Entered(n, fd, ioLoop);
    assert fd in n'.connections && n'.connections[fd] == |n.conns|;
    forall d | Alive(n', d)
      ensures Alive(n, d) || d == |n.conns|
    {
      if k :| 0 <= k < |n'.loops| && d in Held(n'.loops[k]) {
        assert d in Held(n.loops[k]);
      }
    }
  }

  lemma EnteredLoop(n: Net, fd: Fd, ioLoop: LoopId, l: LoopId)
    requires Inv(n) && fd !in n.connections && l < |n.loops|
    ensures var n' := Entered(n, fd, ioLoop); LoopInv(n'.conns, n'.connections, n.main, l, n.loops[l])
    ensures forall t :: t in Rest(n.loops[l]) ==> t.conn < |n.conns|
  {
    hide Watchers, Rest, Held, TasksFit, DestroysFit;
    var loop, n' := n.loops[l], Entered(n, fd, ioLoop);
    assert LoopInv(n.conns, n.connections, n.main, l, loop);
    EnteredTasks(n, fd, ioLoop, l, Rest(loop));
  }

  lemma EnteredTasks(n: Net, fd: Fd, ioLoop: LoopId, l: LoopId, rest: seq<Task>)
    requires TasksFit(n.conns, n.main, l, rest) && DestroysFit(n.conns, n.connections, rest)
    ensures var n' := Entered(n, fd, ioLoop);
      TasksFit(n'.conns, n'.main, l, rest) && DestroysFit(n'.conns, n'.connections, rest)
    ensures forall t :: t in rest ==> t.conn < |n.conns|
  {
    forall t | t in rest
      ensures TaskFits(Entered(n, fd, ioLoop).conns, n.main, l, t) && t.conn < |n.conns|
    {
      assert TaskFits(n.conns, n.main, l, t);
    }
  }

  lemma EnteredKeeps(n: Net, fd: Fd, ioLoop: LoopId)
    requires Inv(n) && ioLoop < |n.loops| && !OpenFd(n, fd)
    ensures Inv(Entered(n, fd, ioLoop))
  {
    hide LoopInv, Held, Rest;
    var n' := Entered(n, fd, ioLoop);
    AcceptEvictsNone(n, fd);
    EnteredRefs(n, fd, ioLoop);
    forall l | 0 <= l < |n.loops|
      ensures LoopInv(n'.conns, n'.connections, n'.main, l, n'.loops[l])
    {
      EnteredLoop(n, fd, ioLoop, l);
    }
  }

  /** The new connection may be completed, or have its completion queued. */
  lemma EnteredFit(n: Net, fd: Fd, ioLoop: LoopId)
    requires Inv(n) && ioLoop < |n.loops| && !OpenFd(n, fd)
    ensures var n', c := Entered(n, fd, ioLoop), |n.conns|;
      Inv(n') && Alive(n', c) && Completable(n', c)
  {
    hide LoopInv, Held, Rest, Alive, MapInv, FdInv, Watchers;
    var n', c := Entered(n, fd, ioLoop), |n.conns|;
    AcceptEvictsNone(n, fd);
    EnteredRefs(n, fd, ioLoop);
    EnteredKeeps(n, fd, ioLoop);
    forall l, t | 0 <= l < |n'.loops| && t in Rest(n'.loops[l])
      ensures t.conn != c
    {
      EnteredLoop(n, fd, ioLoop, l);
    }
  }

  lemma AcceptKeeps(n: Net, fd: Fd, ioLoop: LoopId)
    requires Inv(n) && Enabled(n, Accept(fd, ioLoop))
    ensures Inv(NewConnection(n, fd, ioLoop))
    ensures forall d :: Alive(NewConnection(n, fd, ioLoop), d) ==> Alive(n, d) || d == |n.conns|
  {
    hide LoopInv, Held, Rest, Alive, MapInv, FdInv, CompleteConnect, QueueInLoop, Watchers;
    var n', c := Entered(n, fd, ioLoop), |n.conns|;
    EnteredRefs(n, fd, ioLoop);
    EnteredFit(n, fd, ioLoop);
    if ioLoop == n.main {
      CompleteKeeps(n', c);
    } else {
      QueueKeeps(n', ioLoop, Task(Complete, c));
    }
  }

  /** The descriptor is watched for one event. */
  ghost predicate WantsOnly(t: Table, fd: Fd, kind: EventType) {
    Watched(t, fd) && forall k :: Wants(t.events[fd], k) <==> k == kind
  }

  /** What `completeConnect` leaves behind: the descriptor is watched for reading, for this connection. */
  lemma CompletionWatches(n: Net, c: ConnId)
    requires Sane(n) && c < |n.conns|
    ensures var n', conn := CompleteConnect(n, c), n.conns[c];
      && n'.conns == n.conns[c := conn.(completed := true)]
      && Maps(Watchers(n'.loops[conn.loop].poll), conn.fd, c) && WantsOnly(n'.loops[conn.loop].poll, conn.fd, Read)
  {
    AddFdWatches(n.loops[n.conns[c].loop].poll, n.conns[c].fd, c);
  }

  /** Enabling or disabling an event of a watched connection does that. */
  lemma SwitchSwitches(n: Net, c: ConnId, event: EventType, on: bool)
    requires Sane(n) && c < |n.conns| && Watched(n.loops[n.conns[c].loop].poll, n.conns[c].fd) && event != Close
    requires n.conns[c].completed && Alive(n, c)
    ensures var n', l, fd := Apply(n, Switch(c, event, on)), n.conns[c].loop, n.conns[c].fd;
      && Watched(n'.loops[l].poll, fd) && n'.loops[l].poll.events[fd].handler == n.loops[l].poll.events[fd].handler
      && forall k :: Wants(n'.loops[l].poll.events[fd], k) <==> if k == event then on else Wants(n.loops[l].poll.events[fd], k)
  {
    EventsChange(n.loops[n.conns[c].loop].poll, n.conns[c].fd, c, event, on, n.conns[c].fd);
  }

  /** A poll collects exactly the handlers of the descriptors that are ready. */
  lemma WaitCollects(n: Net, l: LoopId, r: Report, c: ConnId)
    requires Sane(n) && Enabled(n, Wait(l, r))
    ensures c in Apply(n, Wait(l, r)).loops[l].ready <==>
      exists fd :: fd in ReadyFds(n.loops[l].poll, r) && Maps(Watchers(n.loops[l].poll), fd, c)
  {
  }

  /** How tasks come and go: queued at the end, taken all together, dropped when all were run; and how user
      code holds a connection. */
  lemma TasksMove(n: Net, step: Step)
    requires Sane(n) && Enabled(n, step)
    ensures step.UserQueues? ==>
      var l := n.conns[step.c].loop;
      Apply(n, step).loops[l].tasks == n.loops[l].tasks + [Task(step.kind, step.c)]
    ensures step.SwapTasks? ==> var loop := Apply(n, step).loops[step.l];
      loop.batch == n.loops[step.l].tasks && loop.tasks == [] && loop.next == 0 && loop.ready == {}
    ensures step.EndTasks? ==> var loop := Apply(n, step).loops[step.l];
      loop.batch == [] && loop.tasks == n.loops[step.l].tasks
    ensures step.RunTask? ==> Apply(n, step).loops[step.l].next == n.loops[step.l].next + 1
    ensures step.UserTakes? ==> Apply(n, step).users == n.users + {step.c}
    ensures step.UserDrops? ==> Apply(n, step).users == n.users - {step.c}
  {
    hide DeleteAllEvent, DeleteFd, FlagEvent, AddFd, Alive;
  }

  /** What `newConnection` leaves behind: the connection is in the map and either watched already or
      about to be, in its own loop. */
  lemma AcceptRegisters(n: Net, fd: Fd, ioLoop: LoopId)
    requires Inv(n) && ioLoop < |n.loops|
    ensures var n', c := NewConnection(n, fd, ioLoop), |n.conns|;
      && |n'.conns| == c + 1 && Maps(n'.connections, fd, c) && n'.conns[c].loop == ioLoop
      && (if ioLoop == n.main
          then Maps(Watchers(n'.loops[ioLoop].poll), fd, c) && n'.conns[c].completed && WantsOnly(n'.loops[ioLoop].poll, fd, Read)
          else Task(Complete, c) in Rest(n'.loops[ioLoop]) && !n'.conns[c].completed)
  {
    if ioLoop == n.main {
      AddFdWatches(n.loops[ioLoop].poll, fd, |n.conns|);
      FlagEventWatchesSame(AddFd(n.loops[ioLoop].poll, fd, |n.conns|), fd, Read, true);
    }
  }

  // ---------------------------------------------------------------- every step, every run

  lemma HandlerClosesKeeps(n: Net, l: LoopId, c: ConnId)
    requires Inv(n) && Enabled(n, HandlerCloses(l, c))
    ensures Inv(HandleClose(n, c))
    ensures forall d :: Alive(HandleClose(n, c), d) ==> Alive(n, d)
  {
    hide Watchers, HandleClose;
    ReadyAlive(n, l, c);
    HandleCloseKeeps(n, c);
  }

  /** A handler that is about to run belongs to a live connection of that loop. */
  lemma ReadyAlive(n: Net, l: LoopId, c: ConnId)
    requires Inv(n) && l < |n.loops| && c in n.loops[l].ready
    ensures c < |n.conns| && n.conns[c].loop == l && n.conns[c].completed && Alive(n, c)
  {
    hide Watchers, Held, Rest;
    var loop := n.loops[l];
    assert LoopInv(n.conns, n.connections, n.main, l, loop);
    WatchedAlive(n, l, n.conns[c].fd);
    assert WatchFits(n.conns, n.connections, l, Rest(loop), n.conns[c].fd, c);
  }

  lemma StepKeepsInv(n: Net, step: Step)
    requires Inv(n) && Enabled(n, step)
    ensures Inv(Apply(n, step))
    ensures forall d :: Alive(Apply(n, step), d) ==> Alive(n, d) || (step.Accept? && d == |n.conns|)
  {
    hide Watchers, Alive, Held, LoopInv, FdInv, Rest, QueueInLoop;
    match step
    case Accept(fd, ioLoop) => AcceptKeeps(n, fd, ioLoop);
    case Wait(l, r) => WaitKeeps(n, l, r);
    case HandlerCloses(l, c) => HandlerClosesKeeps(n, l, c);
    case Switch(c, event, on) => EnableKeeps(n, c, event, on);
    case SwapTasks(l) => SwapKeeps(n, l);
    case RunTask(l) =>
      if n.loops[l].batch[n.loops[l].next].kind.Complete? {
        RunCompleteKeeps(n, l);
      } else {
        RunTaskKeeps(n, l);
      }
    case EndTasks(l) => EndTasksKeeps(n, l);
    case UserTakes(c) => UserTakesKeeps(n, c);
    case UserDrops(c) => UserDropsKeeps(n, c);
    case UserQueues(c, kind) => QueueKeeps(n, n.conns[c].loop, Task(kind, c));
  }

  lemma UserTakesKeeps(n: Net, c: ConnId)
    requires Inv(n) && c < |n.conns| && n.conns[c].completed && Alive(n, c)
    ensures Inv(n.(users := n.users + {c}))
    ensures forall d :: Alive(n.(users := n.users + {c}), d) ==> Alive(n, d)
  {
    UsersKeep(n, n.users + {c});
  }

  lemma UserDropsKeeps(n: Net, c: ConnId)
    requires Inv(n)
    ensures Inv(n.(users := n.users - {c}))
    ensures forall d :: Alive(n.(users := n.users - {c}), d) ==> Alive(n, d)
  {
    UsersKeep(n, n.users - {c});
  }

  ghost predicate Initial(n: Net) {
    && n.main < |n.loops| && n.conns == [] && n.connections == map[] && n.users == {}
    && forall l :: 0 <= l < |n.loops| ==>
         var loop := n.loops[l];
         loop.poll.events == map[] && loop.ready == {} && loop.tasks == [] && loop.batch == [] && loop.next == 0
  }

  lemma InitialInv(n: Net)
    requires Initial(n)
    ensures Inv(n)
  {
    hide LoopInv;
    forall l | 0 <= l < |n.loops|
      ensures LoopInv(n.conns, n.connections, n.main, l, n.loops[l])
    {
      IdleLoop(n.main, l, n.loops[l]);
    }
  }

  ghost predicate Run(n: Net, steps: seq<Step>, n': Net)
    decreases |steps|
  {
    if steps == [] then n == n'
    else Sane(n) && Enabled(n, steps[0]) && Run(Apply(n, steps[0]), steps[1..], n')
  }

  lemma IdleLoop(main: LoopId, l: LoopId, loop: Loop)
    requires loop.poll.events == map[] && loop.ready == {} && loop.tasks == [] && loop.batch == [] && loop.next == 0
    ensures LoopInv([], map[], main, l, loop)
  {
    assert Rest(loop) == [] && Held(loop) == {} && Watchers(loop.poll) == map[];
  }

  lemma {:induction false} RunKeepsInv(n: Net, steps: seq<Step>, n': Net)
    requires Inv(n) && Run(n, steps, n')
    ensures Inv(n')
    decreases |steps|
  {
    hide Inv, Apply, Enabled;
    if steps != [] {
      StepKeepsInv(n, steps[0]);
      RunKeepsInv(Apply(n, steps[0]), steps[1..], n');
    }
  }

  ghost predicate WatchedOwned(n: Net, l: LoopId)
    requires l < |n.loops|
  {
    var watchers := Watchers(n.loops[l].poll);
    forall fd :: fd in watchers ==>
      watchers[fd] < |n.conns| && Alive(n, watchers[fd]) && n.conns[watchers[fd]].fd == fd && n.conns[watchers[fd]].loop == l
  }

  ghost predicate ReadyOwned(n: Net, l: LoopId)
    requires l < |n.loops|
  {
    forall c :: c in n.loops[l].ready ==> c < |n.conns| && Alive(n, c) && n.conns[c].loop == l
  }

  ghost predicate ErasesOwn(n: Net) {
    forall c :: 0 <= c < |n.conns| && Alive(n, c) && n.conns[c].fd in n.connections ==>
      n.connections[n.conns[c].fd] == c
  }

  /** Every connection in the map, once completed, is watched by its loop. */
  ghost predicate AllWatched(n: Net, l: LoopId)
    requires l < |n.loops|
  {
    MappedWatched(n.conns, n.connections, l, Watchers(n.loops[l].poll))
  }

  lemma LoopWatches(n: Net, l: LoopId)
    requires Inv(n) && l < |n.loops|
    ensures AllWatched(n, l)
  {
    assert LoopInv(n.conns, n.connections, n.main, l, n.loops[l]);
  }

  lemma LoopOwned(n: Net, l: LoopId)
    requires Inv(n) && l < |n.loops|
    ensures WatchedOwned(n, l) && ReadyOwned(n, l)
  {
    hide Watchers, Alive, LoopInv;
    var watchers := Watchers(n.loops[l].poll);
    forall fd | fd in watchers
      ensures watchers[fd] < |n.conns| && Alive(n, watchers[fd])
      ensures n.conns[watchers[fd]].fd == fd && n.conns[watchers[fd]].loop == l
    {
      WatchedAlive(n, l, fd);
      WatchedHere(n, l, fd);
    }
    forall c | c in n.loops[l].ready
      ensures c < |n.conns| && Alive(n, c) && n.conns[c].loop == l
    {
      ReadyAlive(n, l, c);
    }
  }

  lemma MapOwned(n: Net)
    requires Inv(n)
    ensures ErasesOwn(n) && FdInv(n)
  {
    hide Alive, LoopInv;
    forall c | 0 <= c < |n.conns| && Alive(n, c) && n.conns[c].fd in n.connections
      ensures n.connections[n.conns[c].fd] == c
    {
      EntryIsOwn(n, c);
    }
  }

  /** In every run of any number of loops, connections, closings and references held outside: no two
      live connections share a descriptor; every connection handler that is watched by a poller, or
      about to be run by a loop, belongs to a live connection of that loop, under its descriptor;
      every completed connection in the server's map is watched by its loop; and erasing the map's
      entry under a live connection's descriptor erases that connection and no other. */
  lemma DescriptorsOwned(n: Net, steps: seq<Step>, n': Net)
    requires Initial(n) && Run(n, steps, n')
    ensures FdInv(n')
    ensures forall l :: 0 <= l < |n'.loops| ==> WatchedOwned(n', l) && ReadyOwned(n', l) && AllWatched(n', l)
    ensures ErasesOwn(n')
  {
    InitialInv(n);
    RunKeepsInv(n, steps, n');
    hide *;
    forall l | 0 <= l < |n'.loops|
      ensures WatchedOwned(n', l) && ReadyOwned(n', l) && AllWatched(n', l)
    {
      LoopOwned(n', l);
      LoopWatches(n', l);
    }
    MapOwned(n');
  }

  lemma WatchedHere(n: Net, l: LoopId, fd: Fd)
    requires Inv(n) && l < |n.loops| && fd in Watchers(n.loops[l].poll)
    ensures var c := Watchers(n.loops[l].poll)[fd]; c < |n.conns| && n.conns[c].loop == l
  {
    assert LoopInv(n.conns, n.connections, n.main, l, n.loops[l]);
  }

  /** A connection that lost its last reference never gets another, so its destructor closes its
      descriptor once; and at that moment no poller watches the descriptor. */
  lemma {:induction false} ClosedOnce(n: Net, steps: seq<Step>, n': Net, c: ConnId)
    requires Inv(n) && Run(n, steps, n') && c < |n.conns| && !Alive(n, c)
    ensures !Alive(n', c)
    ensures forall l, fd :: 0 <= l < |n'.loops| && fd in Watchers(n'.loops[l].poll) ==>
      Watchers(n'.loops[l].poll)[fd] != c
    decreases |steps|
  {
    hide Inv, Enabled, Alive, Watchers;
    if steps == [] {
      forall l, fd | 0 <= l < |n'.loops| && fd in Watchers(n'.loops[l].poll)
        ensures Watchers(n'.loops[l].poll)[fd] != c
      {
        WatchedAlive(n', l, fd);
      }
    } else {
      StepKeepsInv(n, steps[0]);
      ConnsStay(n, steps[0]);
      ClosedOnce(Apply(n, steps[0]), steps[1..], n', c);
    }
  }

  lemma ConnsStay(n: Net, step: Step)
    requires Sane(n) && Enabled(n, step)
    ensures var n' := Apply(n, step);
      |n'.conns| >= |n.conns| && forall c :: 0 <= c < |n.conns| ==> n'.conns[c].fd == n.conns[c].fd
  {
  }

  /** What a step may rely on is there in every reachable state. */
  lemma NextTaskKnown(n: Net, l: LoopId)
    requires Inv(n) && l < |n.loops| && n.loops[l].next < |n.loops[l].batch|
    ensures Enabled(n, RunTask(l))
  {
    hide LoopInv;
    NextTask(n, l);
  }

  /** Closing twice is safe for the references but not for the table: a close or a
      `connectDestroyed` leaves the table fit for `wait` exactly when the descriptor is still
      watched, that is, the first `connectDestroyed` did not run. */
  lemma SecondCloseLeavesNull(n: Net, c: ConnId)
    requires Inv(n) && c < |n.conns| && NoNullEvent(n.loops[n.conns[c].loop].poll)
    ensures var l, fd := n.conns[c].loop, n.conns[c].fd;
      && (NoNullEvent(HandleClose(n, c).loops[l].poll) <==> Watched(n.loops[l].poll, fd))
      && (NoNullEvent(ConnectDestroyed(n, c).loops[l].poll) <==> Watched(n.loops[l].poll, fd))
      && !Watched(ConnectDestroyed(n, c).loops[l].poll, fd)
  {
    hide Alive, LoopInv, FdInv;
    var l, fd := n.conns[c].loop, n.conns[c].fd;
    var t := n.loops[l].poll;
    assert HandleClose(n, c).loops[l].poll == DeleteAllEvent(t, fd);
    NoNullEventIff(t, Delete(fd));
    DeleteAllEventNull(t, fd);
  }

  // ---------------------------------------------------------------- a null entry is reached

  /** One connection, of the acceptor's loop, on descriptor `fd`. */
  ghost predicate Single(n: Net, fd: Fd, watched: bool, tasks: seq<Task>, batch: seq<Task>, next: nat) {
    && n.main < |n.loops| && n.conns == [Conn(fd, n.main, true)]
    && (Watched(n.loops[n.main].poll, fd) <==> watched)
    && (watched ==> n.loops[n.main].poll.events[fd].handler == 0)
    && n.loops[n.main].tasks == tasks
    && n.loops[n.main].batch == batch && n.loops[n.main].next == next
  }

  lemma SingleAccepted(n: Net, fd: Fd)
    requires Initial(n)
    ensures Sane(n) && Enabled(n, Accept(fd, n.main))
    ensures var n' := Apply(n, Accept(fd, n.main));
      Single(n', fd, true, [], [], 0) && n'.loops[n.main].poll.events[fd].read && n'.main == n.main
  {
    hide Watchers;
    assert !OpenFd(n, fd);
  }

  lemma SingleReady(n: Net, fd: Fd)
    requires Single(n, fd, true, [], [], 0) && n.loops[n.main].poll.events[fd].read
    ensures Sane(n) && Enabled(n, Wait(n.main, Report({fd}, {}, {})))
    ensures var n' := Apply(n, Wait(n.main, Report({fd}, {}, {})));
      && Single(n', fd, true, [], [], 0) && 0 in n'.loops[n.main].ready && n'.main == n.main
  {
    var t, r := n.loops[n.main].poll, Report({fd}, {}, {});
    assert fd in ReadyFds(t, r) && fd in Watchers(t) && Watchers(t)[fd] == 0;
    assert 0 in ReadyHandlers(t, r);
  }

  lemma SingleClosed(n: Net, fd: Fd)
    requires Single(n, fd, true, [], [], 0) && 0 in n.loops[n.main].ready
    ensures Sane(n) && Enabled(n, HandlerCloses(n.main, 0))
    ensures var n' := Apply(n, HandlerCloses(n.main, 0));
      Single(n', fd, true, [Task(Destroy, 0)], [], 0) && n'.main == n.main
  {
    hide Watchers;
  }

  lemma SingleForced(n: Net, fd: Fd)
    requires Single(n, fd, true, [Task(Destroy, 0)], [], 0)
    ensures Sane(n) && Enabled(n, UserQueues(0, CloseLater))
    ensures var n' := Apply(n, UserQueues(0, CloseLater));
      && Single(n', fd, true, [Task(Destroy, 0), Task(CloseLater, 0)], [], 0)
      && n'.main == n.main
  {
    hide Watchers;
    assert Task(Destroy, 0) in n.loops[n.main].tasks;
    assert 0 in Held(n.loops[n.main]);
  }

  lemma SingleSwapped(n: Net, fd: Fd)
    requires Single(n, fd, true, [Task(Destroy, 0), Task(CloseLater, 0)], [], 0)
    ensures Sane(n) && Enabled(n, SwapTasks(n.main))
    ensures var n' := Apply(n, SwapTasks(n.main));
      Single(n', fd, true, [], [Task(Destroy, 0), Task(CloseLater, 0)], 0) && n'.main == n.main
  {
    hide Watchers;
  }

  lemma SingleDestroyed(n: Net, fd: Fd)
    requires Single(n, fd, true, [], [Task(Destroy, 0), Task(CloseLater, 0)], 0)
    ensures Sane(n) && Enabled(n, RunTask(n.main))
    ensures var n' := Apply(n, RunTask(n.main));
      Single(n', fd, false, [], [Task(Destroy, 0), Task(CloseLater, 0)], 1) && n'.main == n.main
  {
    hide Watchers;
  }

  lemma SingleClosedAgain(n: Net, fd: Fd)
    requires Single(n, fd, false, [], [Task(Destroy, 0), Task(CloseLater, 0)], 1)
    ensures Sane(n) && Enabled(n, RunTask(n.main))
    ensures var n' := Apply(n, RunTask(n.main));
      n'.main < |n'.loops| && !NoNullEvent(n'.loops[n'.main].poll)
  {
    hide Watchers;
    var l := n.main;
    var t := n.loops[l].poll;
    assert Effect(n, Task(CloseLater, 0)).loops[l].poll == DeleteAllEvent(t, fd);
    assert fd in DeleteAllEvent(t, fd).events && DeleteAllEvent(t, fd).events[fd].NullEvent?;
  }

  lemma RunFrom(n: Net, steps: seq<Step>, k: nat, n': Net)
    requires Sane(n) && k < |steps| && Enabled(n, steps[k]) && Run(Apply(n, steps[k]), steps[k + 1..], n')
    ensures Run(n, steps[k..], n')
  {
    hide Apply, Enabled, Sane;
    assert steps[k..][1..] == steps[k + 1..];
  }

  /** The peer closes the connection, and the close callback, which is handed it, closes it too. */
  function ClosedTwice(main: LoopId, fd: Fd): seq<Step> {
    [Accept(fd, main), Wait(main, Report({fd}, {}, {})), HandlerCloses(main, 0), UserQueues(0, CloseLater),
     SwapTasks(main), RunTask(main), RunTask(main)]
  }

  /** A new server reaches a table unfit for `wait` with one connection. */
  lemma NullEntryReachable(n: Net, fd: Fd) returns (n': Net)
    requires Initial(n)
    ensures Run(n, ClosedTwice(n.main, fd), n')
    ensures n'.main < |n'.loops| && !NoNullEvent(n'.loops[n'.main].poll)
  {
    hide Initial, Single, Apply, Enabled, Sane, NoNullEvent, Run;
    var steps := ClosedTwice(n.main, fd);
    SingleAccepted(n, fd);
    var n1 := Apply(n, steps[0]);
    SingleReady(n1, fd);
    var n2 := Apply(n1, steps[1]);
    SingleClosed(n2, fd);
    var n3 := Apply(n2, steps[2]);
    SingleForced(n3, fd);
    var n4 := Apply(n3, steps[3]);
    SingleSwapped(n4, fd);
    var n5 := Apply(n4, steps[4]);
    SingleDestroyed(n5, fd);
    var n6 := Apply(n5, steps[5]);
    SingleClosedAgain(n6, fd);
    n' := Apply(n6, steps[6]);
    NoSteps(n', steps[7..]);
    RunFrom(n6, steps, 6, n');
    RunFrom(n5, steps, 5, n');
    RunFrom(n4, steps, 4, n');
    RunFrom(n3, steps, 3, n');
    RunFrom(n2, steps, 2, n');
    RunFrom(n1, steps, 1, n');
    RunFrom(n, steps, 0, n');
    assert steps[0..] == steps;
  }

  lemma NoSteps(n: Net, steps: seq<Step>)
    requires |steps| == 0
    ensures Run(n, steps, n)
  {
  }
}

/** The server itself, on the thread of its acceptor. */
module Servers {
  import opened PollSpec
  import opened ServerSpec

  class Server {
    var connections: map<Fd, ConnId>
    var nextConnId: nat
    const main: LoopId
    var conns: seq<Conn>         // the connection objects
    ghost var users: set<ConnId>
    ghost var loops: seq<Loop>

    ghost function View(): Net
      reads this
    {
      Net(conns, connections, users, loops, main)
    }

    ghost predicate Valid()
      reads this
    {
      Inv(View()) && nextConnId == |conns|
    }

    constructor (main: LoopId, count: nat, poll: Table)
      requires main < count && poll.events == map[]
      ensures Valid() && Initial(View()) && |loops| == count && this.main == main
    {
      connections, nextConnId := map[], 0;
      this.main := main;
      conns, users := [], {};
      loops := seq(count, _ => Loop(poll, {}, [], [], 0));
      new;
      InitialInv(View());
    }

    /** `sockfd` is what the kernel returned from `accept`. */
    method NewConnection(sockfd: Fd, ioLoop: LoopId)
      requires Valid() && Enabled(View(), Accept(sockfd, ioLoop))
      modifies this
      ensures Valid() && sockfd in connections && connections[sockfd] == old(nextConnId)
      ensures View() == ServerSpec.NewConnection(old(View()), sockfd, ioLoop)
    {
      AcceptKeeps(View(), sockfd, ioLoop);
      EnteredFit(View(), sockfd, ioLoop);
      hide LoopInv, MapInv, FdInv, Alive, Rest, Watchers, Completable;
      ghost var before := View();
      var conn := nextConnId;
      nextConnId := nextConnId + 1;
      conns := conns + [Conn(sockfd, ioLoop, false)];
      connections := connections[sockfd := conn];
      if ioLoop == main {
        CompleteConnect(conn);
      } else {
        loops := QueueInLoop(View(), ioLoop, Task(Complete, conn)).loops;
      }
    }

    /** `completeConnect`, in the connection's own loop. */
    method CompleteConnect(conn: ConnId)
      requires Sane(View()) && conn < |conns|
      modifies this`conns, this`loops
      ensures old(Valid() && Completable(View(), conn)) ==> Valid()
      ensures Sane(View()) && |conns| == old(|conns|) && conns[conn] == old(conns[conn]).(completed := true)
      ensures |loops| == old(|loops|) && forall l :: 0 <= l < |loops| && l != conns[conn].loop ==> loops[l] == old(loops)[l]
      ensures Watchers(loops[conns[conn].loop].poll)
           == Watchers(old(loops[conns[conn].loop]).poll)[conns[conn].fd := conn]
      ensures View() == ServerSpec.CompleteConnect(old(View()), conn)
    {
      hide LoopInv, MapInv, FdInv, Alive, Watchers, Rest, Completable;
      if Valid() && Completable(View(), conn) {
        CompleteKeeps(View(), conn);
      }
      var c := conns[conn];
      ghost var poll := AddFd(loops[c.loop].poll, c.fd, conn);
      AddFdWatches(loops[c.loop].poll, c.fd, conn);
      FlagEventWatchesSame(poll, c.fd, Read, true);
      poll := FlagEvent(poll, c.fd, Read, true);
      loops := loops[c.loop := loops[c.loop].(poll := poll)];
      conns := conns[conn := c.(completed := true)];
    }

    method RemoveConnectionInLoop(conn: ConnId)
      requires Valid() && conn < |conns| && conns[conn].completed && Alive(View(), conn)
      modifies this
      ensures Valid()
      ensures forall fd :: fd in old(connections) && old(connections)[fd] != conn ==>
        fd in connections && connections[fd] == old(connections)[fd]
      ensures forall fd :: fd in connections ==> connections[fd] != conn
      ensures View() == ServerSpec.RemoveConnectionInLoop(old(View()), conn)
    {
      EntryIsOwn(View(), conn);
      RemoveInLoopKeeps(View(), conn);
      connections := connections - {conns[conn].fd};
      loops := QueueInLoop(View(), conns[conn].loop, Task(Destroy, conn)).loops;
    }

    /** `at` is the loop of the calling thread. */
    method RemoveConnection(at: LoopId, conn: ConnId)
      requires Valid() && conn < |conns| && conns[conn].completed && Alive(View(), conn)
      modifies this
      ensures Valid()
      ensures View() == ServerSpec.RemoveConnection(old(View()), at, conn)
    {
      if at == main {
        RemoveConnectionInLoop(conn);
      } else {
        QueueKeeps(View(), main, Task(Remove, conn));
        loops := QueueInLoop(View(), main, Task(Remove, conn)).loops;
      }
    }
  }
}
