/** The registration table of the select poller: a map from descriptors to events, where looking up
    an absent descriptor inserts a null entry. */
module PollSpec {

  type Fd = nat

  /** The event handler, by the number of its owner. */
  type Handler = nat

  datatype EventType = Read | Write | Error | Close

  datatype FdEvent =
    | NullEvent
    | FdEvent(handler: Handler, read: bool, write: bool, error: bool)

  datatype Table = Table(events: map<Fd, FdEvent>, maxfd: int)

  predicate Watched(t: Table, fd: Fd) {
    fd in t.events && t.events[fd].FdEvent?
  }

  function AddFd(t: Table, fd: Fd, h: Handler): Table {
    Table(t.events[fd := FdEvent(h, false, false, false)], if fd > t.maxfd then fd else t.maxfd)
  }

  function Flagged(e: FdEvent, kind: EventType, on: bool): FdEvent
    requires e.FdEvent?
  {
    match kind
    case Read => e.(read := on)
    case Write => e.(write := on)
    case Error => e.(error := on)
    case Close => e
  }

  /** `setEvent` when `on`, `deleteEvent` otherwise. */
  function FlagEvent(t: Table, fd: Fd, kind: EventType, on: bool): Table {
    t.(events := t.events[fd := if Watched(t, fd) then Flagged(t.events[fd], kind, on) else NullEvent])
  }

  function DeleteAllEvent(t: Table, fd: Fd): Table {
    FlagEvent(FlagEvent(FlagEvent(FlagEvent(t, fd, Close, false), fd, Error, false), fd, Read, false), fd, Write, false)
  }

  function DeleteFd(t: Table, fd: Fd): Table {
    if Watched(t, fd)
    then Table(t.events - {fd}, if t.maxfd == fd then t.maxfd - 1 else t.maxfd)
    else t.(events := t.events[fd := NullEvent])
  }

  /** What `select` reports. */
  datatype Report = Report(rset: set<Fd>, wset: set<Fd>, eset: set<Fd>)

  predicate Flags(e: FdEvent, fd: Fd, r: Report)
    requires e.FdEvent?
  {
    (fd in r.rset && e.read) || (fd in r.wset && e.write) || (fd in r.eset && e.error)
  }

  function ReadyFds(t: Table, r: Report): set<Fd> {
    set fd | fd in t.events && t.events[fd].FdEvent? && Flags(t.events[fd], fd, r)
  }

  // ---------------------------------------------------------------- the table is a map from descriptors to handlers

  function Watchers(t: Table): map<Fd, Handler> {
    map fd | fd in t.events && t.events[fd].FdEvent? :: t.events[fd].handler
  }

  lemma AddFdWatches(t: Table, fd: Fd, h: Handler)
    ensures Watchers(AddFd(t, fd, h)) == Watchers(t)[fd := h]
  {
  }

  lemma FlagEventWatchesSame(t: Table, fd: Fd, kind: EventType, on: bool)
    ensures Watchers(FlagEvent(t, fd, kind, on)) == Watchers(t)
  {
  }

  lemma DeleteAllEventWatchesSame(t: Table, fd: Fd)
    ensures Watchers(DeleteAllEvent(t, fd)) == Watchers(t)
  {
    hide Watchers, Watched;
    var t1 := FlagEvent(t, fd, Close, false);
    var t2 := FlagEvent(t1, fd, Error, false);
    var t3 := FlagEvent(t2, fd, Read, false);
    FlagEventWatchesSame(t, fd, Close, false);
    FlagEventWatchesSame(t1, fd, Error, false);
    FlagEventWatchesSame(t2, fd, Read, false);
    FlagEventWatchesSame(t3, fd, Write, false);
  }

  lemma DeleteFdUnwatches(t: Table, fd: Fd)
    ensures Watchers(DeleteFd(t, fd)) == Watchers(t) - {fd}
  {
  }

  // ---------------------------------------------------------------- the events

  predicate Wants(e: FdEvent, kind: EventType)
    requires e.FdEvent?
  {
    match kind
    case Read => e.read
    case Write => e.write
    case Error => e.error
    case Close => false
  }

  /** A new registration wants nothing; setting or deleting an event changes that one wish, of that one
      descriptor. */
  lemma EventsChange(t: Table, fd: Fd, h: Handler, kind: EventType, on: bool, g: Fd)
    ensures Watched(AddFd(t, fd, h), fd) && forall k :: !Wants(AddFd(t, fd, h).events[fd], k)
    ensures g != fd ==> (g in AddFd(t, fd, h).events <==> g in t.events) && (g in t.events ==> AddFd(t, fd, h).events[g] == t.events[g])
    ensures g != fd ==> (g in FlagEvent(t, fd, kind, on).events <==> g in t.events)
    ensures g != fd && g in t.events ==> FlagEvent(t, fd, kind, on).events[g] == t.events[g]
    ensures Watched(t, fd) ==> Watched(FlagEvent(t, fd, kind, on), fd)
    ensures Watched(t, fd) ==> forall k :: Wants(FlagEvent(t, fd, kind, on).events[fd], k) <==>
      if k == kind then on && kind != Close else Wants(t.events[fd], k)
  {
  }

  /** After `deleteAllEvent` the descriptor is never ready; before, it is ready exactly when it is
      reported for something it wants. */
  lemma NeverReady(t: Table, fd: Fd, r: Report)
    ensures fd !in ReadyFds(DeleteAllEvent(t, fd), r)
    ensures fd in ReadyFds(t, r) <==>
      && Watched(t, fd)
      && (|| (fd in r.rset && Wants(t.events[fd], Read))
          || (fd in r.wset && Wants(t.events[fd], Write))
          || (fd in r.eset && Wants(t.events[fd], Error)))
  {
  }

  // ---------------------------------------------------------------- maxfd_

  datatype Op =
    | Add(fd: Fd, handler: Handler)
    | Flag(fd: Fd, kind: EventType, on: bool)
    | Delete(fd: Fd)

  function Apply(t: Table, op: Op): Table {
    match op
    case Add(fd, h) => AddFd(t, fd, h)
    case Flag(fd, kind, on) => FlagEvent(t, fd, kind, on)
    case Delete(fd) => DeleteFd(t, fd)
  }

  function ApplyAll(t: Table, ops: seq<Op>): Table
    decreases |ops|
  {
    if ops == [] then t else ApplyAll(Apply(t, ops[0]), ops[1..])
  }

  ghost predicate Covered(t: Table) {
    forall fd :: fd in Watchers(t) ==> fd <= t.maxfd
  }

  lemma OpKeepsCovered(t: Table, op: Op)
    requires Covered(t)
    ensures Covered(Apply(t, op))
  {
    hide Watchers;
    match op
    case Add(fd, h) => AddFdWatches(t, fd, h);
    case Flag(fd, kind, on) => FlagEventWatchesSame(t, fd, kind, on);
    case Delete(fd) =>
      DeleteFdUnwatches(t, fd);
      WatchedIffWatcher(t, fd);
  }

  lemma WatchedIffWatcher(t: Table, fd: Fd)
    ensures fd in Watchers(t) <==> Watched(t, fd)
  {
  }

  /** `maxfd_` goes up to a larger new descriptor, and down by one when its own is deleted. */
  lemma MaxfdMoves(t: Table, op: Op)
    ensures var m := Apply(t, op).maxfd;
      && (op.Add? ==> m >= op.fd && m >= t.maxfd && (m == op.fd || m == t.maxfd))
      && (op.Delete? && Watched(t, op.fd) && op.fd == t.maxfd ==> m == t.maxfd - 1)
      && (op.Flag? || (op.Delete? && !(Watched(t, op.fd) && op.fd == t.maxfd)) ==> m == t.maxfd)
  {
  }

  /** `select` looks at the descriptors up to `maxfd_`: those are all that are watched, in every run,
      though a deletion lowers `maxfd_` by one only. */
  lemma {:induction false} SelectSeesAll(t: Table, ops: seq<Op>)
    requires Covered(t)
    ensures Covered(ApplyAll(t, ops))
    decreases |ops|
  {
    if ops != [] {
      OpKeepsCovered(t, ops[0]);
      SelectSeesAll(Apply(t, ops[0]), ops[1..]);
    }
  }

  // ---------------------------------------------------------------- null entries

  /** `wait` follows the pointer of every entry. */
  ghost predicate NoNullEvent(t: Table) {
    forall fd :: fd in t.events ==> t.events[fd].FdEvent?
  }

  /** A table stays fit for `wait` exactly when no event is set or deleted, and no descriptor
      deleted, that is not in it. */
  lemma NoNullEventIff(t: Table, op: Op)
    requires NoNullEvent(t)
    ensures NoNullEvent(Apply(t, op)) <==> op.Add? || op.fd in t.events
  {
    assert op.fd in Apply(t, op).events || (op.Delete? && op.fd in t.events);
  }

  lemma DeleteAllEventNull(t: Table, fd: Fd)
    requires NoNullEvent(t)
    ensures NoNullEvent(DeleteAllEvent(t, fd)) <==> Watched(t, fd)
  {
    assert fd in DeleteAllEvent(t, fd).events;
  }
}

/** The poller itself. */
module PollSelects {
  import opened PollSpec

  lemma {:induction false} Smallest(s: set<Fd>) returns (least: Fd)
    requires s != {}
    ensures least in s && forall fd :: fd in s ==> least <= fd
    decreases |s|
  {
    least :| least in s;
    if s != {least} {
      var other := Smallest(s - {least});
      assert forall fd :: fd in s ==> fd == least || fd in s - {least};
      if other < least {
        least := other;
      }
    }
  }

  /** Where an iterator over an ordered map goes next. */
  method First(todo: set<Fd>) returns (fd: Fd)
    requires todo != {}
    ensures fd in todo && forall g :: g in todo ==> fd <= g
  {
    ghost var least := Smallest(todo);
    fd :| fd in todo && forall g :: g in todo ==> fd <= g;
  }

  class PollSelect {
    var events: map<Fd, FdEvent>
    var maxfd: int
    var srevents: seq<Handler>

    ghost function View(): Table
      reads this
    {
      Table(events, maxfd)
    }

    /** `maxfd_` is taken to start below every descriptor, which the source leaves unset. */
    constructor ()
      ensures View().events == map[] && maxfd == -1 && srevents == []
    {
      events, maxfd, srevents := map[], -1, [];
    }

    method AddFd(fd: Fd, handler: Handler)
      modifies this`events, this`maxfd
      ensures View() == PollSpec.AddFd(old(View()), fd, handler)
    {
      if fd > maxfd {
        maxfd := fd;
      }
      events := events[fd := FdEvent(handler, false, false, false)];
    }

    /** `events_[fd]`, which inserts a null entry for an absent descriptor. */
    method Lookup(fd: Fd) returns (event: FdEvent)
      modifies this`events
      ensures fd in events && event == events[fd]
      ensures events == if fd in old(events) then old(events) else old(events)[fd := NullEvent]
    {
      if fd !in events {
        events := events[fd := NullEvent];
      }
      event := events[fd];
    }

    method FlagEvent(fd: Fd, kind: EventType, on: bool) returns (found: bool)
      modifies this`events
      ensures View() == PollSpec.FlagEvent(old(View()), fd, kind, on)
      ensures found == Watched(old(View()), fd)
    {
      var event := Lookup(fd);
      if event.NullEvent? {
        return false;
      }
      events := events[fd := Flagged(event, kind, on)];
      found := true;
    }

    method DeleteFd(fd: Fd) returns (found: bool)
      modifies this`events, this`maxfd
      ensures View() == PollSpec.DeleteFd(old(View()), fd)
      ensures found == Watched(old(View()), fd)
    {
      var event := Lookup(fd);
      if event.NullEvent? {
        return false;
      }
      events := events - {fd};
      if maxfd == fd {
        maxfd := maxfd - 1;
      }
      found := true;
    }

    /** The list of handlers to run: those of the ready descriptors, in ascending order of
        descriptor, each once. */
    method Wait(r: Report)
      requires NoNullEvent(View())
      modifies this`srevents
      ensures exists fds: seq<Fd> :: Lists(fds, ReadyFds(View(), r), Watchers(View()), srevents)
    {
      hide ReadyFds, Watchers, Lists;
      srevents := [];
      ghost var fds: seq<Fd>, ready: set<Fd> := [], {};
      ghost var floor, watchers := 0, Watchers(View());
      Nothing(watchers);
      var todo := events.Keys;
      while todo != {}
        modifies this`srevents
        invariant todo <= events.Keys
        invariant ready <= events.Keys - todo
        invariant forall g :: g in ready ==> g < floor
        invariant forall g :: g in todo ==> floor <= g
        invariant forall fd :: fd in events && fd !in todo ==> (fd in ready <==> Flags(events[fd], fd, r))
        invariant Lists(fds, ready, watchers, srevents)
        decreases |todo|
      {
        var fd := First(todo);
        todo, floor := todo - {fd}, fd + 1;
        if Flags(events[fd], fd, r) {
          OneMore(View(), fds, ready, srevents, fd);
          srevents := srevents + [events[fd].handler];
          fds, ready := fds + [fd], ready + {fd};
        }
      }
      AllListed(View(), r, ready);
    }
  }

  lemma Nothing(watchers: map<Fd, Handler>)
    ensures Lists([], {}, watchers, [])
  {
  }

  lemma OneMore(t: Table, fds: seq<Fd>, ready: set<Fd>, handlers: seq<Handler>, fd: Fd)
    requires Lists(fds, ready, Watchers(t), handlers)
    requires Watched(t, fd) && forall g :: g in ready ==> g < fd
    ensures Lists(fds + [fd], ready + {fd}, Watchers(t), handlers + [t.events[fd].handler])
  {
    assert forall i :: 0 <= i < |fds| ==> fds[i] in fds && fds[i] in ready;
  }

  lemma AllListed(t: Table, r: Report, ready: set<Fd>)
    requires NoNullEvent(t) && ready <= t.events.Keys
    requires forall fd :: fd in t.events ==> (fd in ready <==> Flags(t.events[fd], fd, r))
    ensures ready == ReadyFds(t, r)
  {
  }

  ghost predicate Lists(fds: seq<Fd>, ready: set<Fd>, watchers: map<Fd, Handler>, handlers: seq<Handler>) {
    && |handlers| == |fds|
    && (forall i, j :: 0 <= i < j < |fds| ==> fds[i] < fds[j])
    && (forall fd :: fd in fds <==> fd in ready)
    && (forall i :: 0 <= i < |fds| ==> fds[i] in watchers && handlers[i] == watchers[fds[i]])
  }
}
