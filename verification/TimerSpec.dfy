/** What `TimerQueue` computes, on values, and the invariants that every step keeps.

    The heap maps the addresses of live `Timer` objects to them; an address that was freed may be
    handed out again.  Callbacks are arbitrary lists of commands.  Whole runs are in TimerRuns.dfy,
    the class itself in TimerQueue.dfy. */
module TimerSpec {
  import opened OrderedSet

  const MIN_DELAY: int := 100

  datatype Timer = Timer(time: int, interval: int, sequence: nat) {
    predicate Repeat() {
      interval > 0
    }
  }

  /** Both `TimerId` and `ActiveTimer`: an address and the sequence number of the timer meant. */
  datatype TimerId = TimerId(timer: Addr, sequence: nat)

  /** The timerfd: idle, or armed at clock reading `setAt` to expire at `at`.  An expiration that
      was not read yet is an armed one whose `at` has passed. */
  datatype TimerFd = Idle | Armed(at: int, setAt: int)

  /** One run of a callback: whose, the deadline it had, and `now` of the handler that ran it. */
  datatype Firing = Firing(sequence: nat, deadline: int, now: int, interval: int)

  datatype Queue = Queue(
    timers: seq<Entry>,        // timers_
    active: set<TimerId>,      // activeTimers_
    calling: bool,             // callingExpiredTimers_
    canceling: set<TimerId>,   // cancelingTimers_
    heap: map<Addr, Timer>,
    pending: set<Addr>,        // allocated, the task that inserts them not yet run
    num: nat,                  // Timer::num_
    fd: TimerFd,
    log: seq<Firing>,          // callbacks run so far
    freed: seq<nat>)           // sequence numbers of the timers deleted so far

  /** What callbacks, and any code between two wakeups of the timerfd, may do to the queue. */
  datatype Command =
    | New(timer: Addr, time: int, interval: int)
    | AddInLoop(timer: Addr, clock: int)
    | Cancel(id: TimerId)

  // ---------------------------------------------------------------- operations

  /** `resetTimerfd`: at least 100 microseconds ahead of the clock it reads. */
  function ResetTimerfd(when: int, clock: int): TimerFd {
    var microseconds := when - clock;
    Armed(clock + if microseconds < MIN_DELAY then MIN_DELAY else microseconds, clock)
  }

  /** `insert`, without its result. */
  function InsertTimer(s: Queue, timer: Addr): Queue
    requires timer in s.heap
  {
    s.(timers := OrderedSet.Insert(s.timers, Entry(s.heap[timer].time, timer)),
       active := s.active + {TimerId(timer, s.heap[timer].sequence)})
  }

  predicate EarliestChanged(s: Queue, timer: Addr)
    requires timer in s.heap
  {
    s.timers == [] || s.heap[timer].time < s.timers[0].time
  }

  /** `new Timer` and the sequence number it draws. */
  function NewTimer(s: Queue, timer: Addr, time: int, interval: int): Queue {
    s.(heap := s.heap[timer := Timer(time, interval, s.num + 1)],
       pending := s.pending + {timer},
       num := s.num + 1)
  }

  function AddTimerInLoop(s: Queue, timer: Addr, clock: int): Queue
    requires timer in s.heap
  {
    InsertTimer(s, timer).(
      pending := s.pending - {timer},
      fd := if EarliestChanged(s, timer) then ResetTimerfd(s.heap[timer].time, clock) else s.fd)
  }

  function Delete(s: Queue, timer: Addr): Queue
    requires timer in s.heap
  {
    s.(heap := s.heap - {timer}, freed := s.freed + [s.heap[timer].sequence])
  }

  function CancelInLoop(s: Queue, id: TimerId): Queue
    requires id in s.active ==> id.timer in s.heap
  {
    if id in s.active then
      Delete(s.(timers := OrderedSet.Erase(s.timers, Entry(s.heap[id.timer].time, id.timer)),
                active := s.active - {id}), id.timer)
    else if s.calling then s.(canceling := s.canceling + {id})
    else s
  }

  /** A command whose guard fails does not happen: `malloc` returns no live address, and only a
      timer that was allocated and not yet inserted has a task that inserts it. */
  function Run(s: Queue, c: Command): Queue
    requires Indexed(s)
  {
    match c
    case New(timer, time, interval) =>
      if timer in s.heap then s else NewTimer(s, timer, time, interval)
    case AddInLoop(timer, clock) =>
      if timer !in s.pending || timer !in s.heap then s else AddTimerInLoop(s, timer, clock)
    case Cancel(id) => CancelInLoop(s, id)
  }

  // ---------------------------------------------------------------- the invariant

  /** The two indexes hold the same timers, all live, each under its current time and sequence. */
  ghost predicate Indexed(s: Queue) {
    && Sorted(s.timers)
    && (forall e :: e in s.timers ==>
          && e.timer in s.heap && s.heap[e.timer].time == e.time
          && TimerId(e.timer, s.heap[e.timer].sequence) in s.active)
    && (forall id :: id in s.active ==>
          && id.timer in s.heap && s.heap[id.timer].sequence == id.sequence
          && Entry(s.heap[id.timer].time, id.timer) in s.timers)
  }

  ghost predicate InIndex(s: Queue, timer: Addr)
    requires timer in s.heap
  {
    TimerId(timer, s.heap[timer].sequence) in s.active
  }

  /** Every live timer is in the indexes or, exclusively, in `out`: waiting to be inserted, or in
      the batch of expired timers that is being run. */
  ghost predicate Owned(s: Queue, out: set<Addr>) {
    && s.pending <= out
    && (forall a :: a in out ==> a in s.heap)
    && (forall a :: a in s.heap ==> (InIndex(s, a) <==> a !in out))
  }

  ghost predicate Distinct(seqs: seq<nat>) {
    forall i, j :: 0 <= i < j < |seqs| ==> seqs[i] != seqs[j]
  }

  /** Sequence numbers are never shared, nor used again after the timer was deleted. */
  ghost predicate Sequenced(s: Queue) {
    && (forall a :: a in s.heap ==> 0 < s.heap[a].sequence <= s.num && s.heap[a].sequence !in s.freed)
    && (forall a, b :: a in s.heap && b in s.heap && a != b ==> s.heap[a].sequence != s.heap[b].sequence)
    && (forall q :: q in s.freed ==> q <= s.num)
    && Distinct(s.freed)
  }

  ghost predicate Inv(s: Queue, out: set<Addr>) {
    Indexed(s) && Owned(s, out) && Sequenced(s)
  }

  lemma NewKeeps(s: Queue, timer: Addr, time: int, interval: int, out: set<Addr>)
    requires Inv(s, out) && timer !in s.heap
    ensures Inv(NewTimer(s, timer, time, interval), out + {timer})
  {
  }

  lemma InsertKeeps(s: Queue, timer: Addr, out: set<Addr>)
    requires Inv(s, out) && timer in out - s.pending
    ensures Inv(InsertTimer(s, timer), out - {timer})
  {
    var e := Entry(s.heap[timer].time, timer);
    InsertMembers(s.timers, e);
    InsertSorted(s.timers, e);
  }

  lemma AddKeeps(s: Queue, timer: Addr, clock: int, out: set<Addr>)
    requires Inv(s, out) && timer in s.pending
    ensures Inv(AddTimerInLoop(s, timer, clock), out - {timer})
  {
    InsertKeeps(s.(pending := s.pending - {timer}), timer, out);
  }

  lemma DeleteKeeps(s: Queue, timer: Addr, out: set<Addr>)
    requires Inv(s, out) && timer in out - s.pending
    ensures Inv(Delete(s, timer), out - {timer})
  {
  }

  lemma CancelKeeps(s: Queue, id: TimerId, out: set<Addr>)
    requires Inv(s, out)
    ensures Inv(CancelInLoop(s, id), out)
  {
    if id in s.active {
      var e := Entry(s.heap[id.timer].time, id.timer);
      EraseMembers(s.timers, e);
      EraseSorted(s.timers, e);
      var s1 := s.(timers := OrderedSet.Erase(s.timers, e), active := s.active - {id});
      assert Inv(s1, out + {id.timer});
      DeleteKeeps(s1, id.timer, out + {id.timer});
      assert out + {id.timer} - {id.timer} == out;
    }
  }

  // ---------------------------------------------------------------- between and inside callbacks

  /** The invariant at every callback boundary: outside the indexes are exactly the timers waiting
      to be inserted and those of the batch in hand. */
  ghost predicate Sound(s: Queue, batch: set<Addr>) {
    s.pending !! batch && Inv(s, s.pending + batch)
  }

  lemma SoundLive(s: Queue, batch: set<Addr>)
    requires Sound(s, batch)
    ensures Indexed(s) && forall a :: a in s.pending + batch ==> a in s.heap
  {
  }

  /** Soundness does not depend on the flag, the canceling set, the timerfd and the log. */
  lemma SoundElsewhere(s: Queue, s': Queue, batch: set<Addr>)
    requires Sound(s, batch)
    requires s'.timers == s.timers && s'.active == s.active && s'.heap == s.heap
    requires s'.pending == s.pending && s'.num == s.num && s'.freed == s.freed
    ensures Sound(s', batch)
  {
  }

  lemma RunKeeps(s: Queue, c: Command, batch: set<Addr>)
    requires Sound(s, batch)
    ensures Indexed(s) && Sound(Run(s, c), batch)
  {
    hide Inv, Indexed;
    SoundLive(s, batch);
    var out := s.pending + batch;
    match c
    case New(timer, time, interval) =>
      if timer !in s.heap {
        NewKeeps(s, timer, time, interval, out);
        assert out + {timer} == Run(s, c).pending + batch;
      }
    case AddInLoop(timer, clock) =>
      if timer in s.pending {
        AddKeeps(s, timer, clock, out);
        assert out - {timer} == Run(s, c).pending + batch;
      }
    case Cancel(id) => CancelKeeps(s, id, out);
  }

  function RunScript(s: Queue, script: seq<Command>, ghost batch: set<Addr>): (s': Queue)
    requires Sound(s, batch)
    ensures Sound(s', batch)
    decreases |script|
  {
    if script == [] then s
    else
      RunKeeps(s, script[0], batch);
      RunScript(Run(s, script[0]), script[1..], batch)
  }

  // ---------------------------------------------------------------- the handler

  ghost function Batch(expired: seq<Entry>): set<Addr> {
    set e | e in expired :: e.timer
  }

  /** The entries of a batch belong to distinct live timers, under the times these have. */
  ghost predicate InHand(s: Queue, expired: seq<Entry>) {
    && (forall e :: e in expired ==> e.timer in s.heap && s.heap[e.timer].time == e.time)
    && (forall i, j :: 0 <= i < j < |expired| ==> expired[i].timer != expired[j].timer)
  }

  /** `getExpired`: what is due leaves both indexes. */
  function GetExpired(s: Queue, now: int): (r: (Queue, seq<Entry>))
    requires Indexed(s)
  {
    var n := OrderedSet.Expired(s.timers, now);
    var expired := s.timers[..n];
    (s.(timers := s.timers[n..],
        active := s.active - (set e | e in expired :: TimerId(e.timer, s.heap[e.timer].sequence))),
     expired)
  }

  lemma GetExpiredKeeps(s: Queue, now: int)
    requires Sound(s, {})
    ensures var (s', expired) := GetExpired(s, now);
      && Sound(s', Batch(expired)) && InHand(s', expired) && Sorted(expired)
      && s'.heap == s.heap && s'.pending == s.pending
      && (forall e :: e in s.timers ==> (e in expired <==> e.time <= now))
      && (forall e :: e in s'.timers ==> e.time > now)
  {
    var n := OrderedSet.Expired(s.timers, now);
    ExpiredSplits(s.timers, now);
    var (s', expired) := GetExpired(s, now);
    assert s.timers == expired + s'.timers;
    assert forall e :: e in s.timers <==> e in expired || e in s'.timers;
    SplitIndex(s, n);
  }

  lemma SplitIndex(s: Queue, n: nat)
    requires Sound(s, {}) && n <= |s.timers|
    ensures var expired := s.timers[..n];
      var s' := s.(timers := s.timers[n..],
                   active := s.active - (set e | e in expired :: TimerId(e.timer, s.heap[e.timer].sequence)));
      Sound(s', Batch(expired)) && InHand(s', expired) && Sorted(expired)
  {
    hide Owned, InHand, Sorted;
    var expired, rest := s.timers[..n], s.timers[n..];
    var gone := set e | e in expired :: TimerId(e.timer, s.heap[e.timer].sequence);
    var s' := s.(timers := rest, active := s.active - gone);
    SplitApart(s, n);
    SplitIndexed(s, n, s');
    SplitOwned(s, n, s');
    assert s.pending + {} == s.pending;
    assert s'.pending !! Batch(expired) by {
      PendingApart(s);
    }
  }

  lemma PendingApart(s: Queue)
    requires Sound(s, {})
    ensures forall e :: e in s.timers ==> e.timer !in s.pending
  {
  }

  lemma SplitIndexed(s: Queue, n: nat, s': Queue)
    requires Sound(s, {}) && n <= |s.timers|
    requires s' == s.(timers := s.timers[n..],
                      active := s.active - (set e | e in s.timers[..n] :: TimerId(e.timer, s.heap[e.timer].sequence)))
    ensures Indexed(s') && InHand(s', s.timers[..n]) && Sorted(s.timers[..n])
  {
    SplitApart(s, n);
    assert Sorted(s'.timers);
  }

  lemma SplitOwned(s: Queue, n: nat, s': Queue)
    requires Sound(s, {}) && n <= |s.timers|
    requires s' == s.(timers := s.timers[n..],
                      active := s.active - (set e | e in s.timers[..n] :: TimerId(e.timer, s.heap[e.timer].sequence)))
    ensures Owned(s', s.pending + Batch(s.timers[..n]))
  {
    SplitApart(s, n);
  }

  lemma SplitApart(s: Queue, n: nat)
    requires Sound(s, {}) && n <= |s.timers|
    ensures var expired, rest := s.timers[..n], s.timers[n..];
      && (forall e :: e in s.timers <==> e in expired || e in rest)
      && (forall e, f :: e in expired && f in rest ==> e.timer != f.timer)
      && (forall i, j :: 0 <= i < j < n ==> expired[i].timer != expired[j].timer)
  {
    assert s.timers == s.timers[..n] + s.timers[n..];
    forall i, j | 0 <= i < j < |s.timers|
      ensures s.timers[i].timer != s.timers[j].timer
    {
      assert Less(s.timers[i], s.timers[j]);
      assert s.timers[i] in s.timers && s.timers[j] in s.timers;
    }
  }

  /** One callback starts: the timer must still be there. */
  function Fire(s: Queue, timer: Addr, now: int): Queue
    requires timer in s.heap
  {
    var t := s.heap[timer];
    s.(log := s.log + [Firing(t.sequence, t.time, now, t.interval)])
  }

  lemma FireKeeps(s: Queue, timer: Addr, now: int, batch: set<Addr>)
    requires Sound(s, batch) && timer in s.heap
    ensures Sound(Fire(s, timer, now), batch)
  {
    hide Sound;
    SoundElsewhere(s, Fire(s, timer, now), batch);
  }

  function ScriptOf(scripts: seq<seq<Command>>): seq<Command> {
    if scripts == [] then [] else scripts[0]
  }

  function Later(scripts: seq<seq<Command>>): seq<seq<Command>> {
    if scripts == [] then [] else scripts[1..]
  }

  /** The callbacks of `todo`, each doing what its script says. */
  function RunBatch(s: Queue, todo: seq<Entry>, scripts: seq<seq<Command>>, now: int, ghost batch: set<Addr>): (s': Queue)
    requires Sound(s, batch) && forall e :: e in todo ==> e.timer in batch
    ensures Sound(s', batch)
    decreases |todo|
  {
    if todo == [] then s
    else
      var fired := Fire(s, todo[0].timer, now);
      SoundElsewhere(s, fired, batch);
      RunBatch(RunScript(fired, ScriptOf(scripts), batch), todo[1..], Later(scripts), now, batch)
  }

  /** `Timer::restart`: an invalid time for a timer that does not repeat. */
  function Restart(s: Queue, timer: Addr, now: int): Queue
    requires timer in s.heap
  {
    var t := s.heap[timer];
    s.(heap := s.heap[timer := t.(time := if t.Repeat() then now + t.interval else 0)])
  }

  /** What `reset` does with one timer of the batch. */
  function ResetOne(s: Queue, timer: Addr, now: int): Queue
    requires timer in s.heap
  {
    var t := s.heap[timer];
    if t.Repeat() && TimerId(timer, t.sequence) !in s.canceling then InsertTimer(Restart(s, timer, now), timer)
    else Delete(s, timer)
  }

  lemma ResetOneKeeps(s: Queue, timer: Addr, now: int, batch: set<Addr>)
    requires Sound(s, batch) && timer in batch
    ensures Sound(ResetOne(s, timer, now), batch - {timer})
  {
    var out := s.pending + batch;
    assert out - {timer} == s.pending + (batch - {timer});
    var t := s.heap[timer];
    if t.Repeat() && TimerId(timer, t.sequence) !in s.canceling {
      RestartKeeps(s, timer, now, out);
      InsertKeeps(Restart(s, timer, now), timer, out);
    } else {
      DeleteKeeps(s, timer, out);
    }
  }

  lemma RestartKeeps(s: Queue, timer: Addr, now: int, out: set<Addr>)
    requires Inv(s, out) && timer in out
    ensures Inv(Restart(s, timer, now), out)
  {
  }

  function ResetAll(s: Queue, expired: seq<Entry>, now: int): (s': Queue)
    requires Sound(s, Batch(expired))
    requires forall i, j :: 0 <= i < j < |expired| ==> expired[i].timer != expired[j].timer
    ensures Sound(s', {})
    decreases |expired|
  {
    if expired == [] then s
    else
      BatchTail(expired);
      ResetOneKeeps(s, expired[0].timer, now, Batch(expired));
      ResetAll(ResetOne(s, expired[0].timer, now), expired[1..], now)
  }

  lemma BatchTail(expired: seq<Entry>)
    requires expired != []
    requires forall i, j :: 0 <= i < j < |expired| ==> expired[i].timer != expired[j].timer
    ensures expired[0].timer in Batch(expired)
    ensures Batch(expired) - {expired[0].timer} == Batch(expired[1..])
  {
    assert expired == [expired[0]] + expired[1..];
    assert forall e :: e in expired[1..] ==> e.timer != expired[0].timer;
  }

  /** The end of `reset`: the timerfd is armed for the earliest timer if that has a valid time. */
  function Rearm(s: Queue, clock: int): Queue
    requires Indexed(s)
  {
    if s.timers == [] then s
    else
      var next := s.heap[s.timers[0].timer].time;
      if next > 0 then s.(fd := ResetTimerfd(next, clock)) else s
  }

  /** `handleRead`.  `drained`: the read of the timerfd found an expiration. */
  function HandleRead(s: Queue, now: int, drained: bool, scripts: seq<seq<Command>>, clock: int): (s': Queue)
    requires Sound(s, {})
    ensures Sound(s', {})
  {
    var read := s.(fd := if drained then Idle else s.fd);
    HandlerSound(s, read, now);
    var (s1, expired) := GetExpired(read, now);
    var s2 := RunBatch(s1.(calling := true, canceling := {}), expired, scripts, now, Batch(expired));
    SoundElsewhere(s2, s2.(calling := false), Batch(expired));
    var s3 := ResetAll(s2.(calling := false), expired, now);
    RearmKeeps(s3, clock);
    Rearm(s3, clock)
  }

  lemma RearmKeeps(s: Queue, clock: int)
    requires Sound(s, {})
    ensures Indexed(s) && Sound(Rearm(s, clock), {})
  {
  }

  lemma HandlerSound(s: Queue, read: Queue, now: int)
    requires Sound(s, {}) && (read == s || read == s.(fd := Idle))
    ensures Indexed(s) && Indexed(read)
    ensures var (s1, expired) := GetExpired(read, now);
      && Sound(s1.(calling := true, canceling := {}), Batch(expired))
      && InHand(s1, expired)
  {
    SoundElsewhere(s, read, {});
    GetExpiredKeeps(read, now);
    var (s1, expired) := GetExpired(read, now);
    SoundElsewhere(s1, s1.(calling := true, canceling := {}), Batch(expired));
  }
}
