/** The life of a timer from `new Timer` on: it is scheduled under the time and interval it was given,
    whatever happens before its queued insertion is run, fires for that time, and goes on by that
    interval. */
module TimerLife {
  import opened OrderedSet
  import opened TimerSpec
  import opened TimerRuns
  import opened TimerTheorems
  import opened TimerCallbacks

  // ---------------------------------------------------------------- waiting for the insertion

  /** The insertion of the timer at `a`. */
  predicate Inserts(c: Command, a: Addr) {
    c.AddInLoop? && c.timer == a
  }

  predicate NoneInserts(script: seq<Command>, a: Addr) {
    forall c :: c in script ==> !Inserts(c, a)
  }

  predicate EventInserts(e: Event, a: Addr) {
    match e
    case Do(c) => Inserts(c, a)
    case Wakeup(_, _, scripts, _) => exists k :: 0 <= k < |scripts| && !NoneInserts(scripts[k], a)
  }

  /** The timer at `a` waits for its insertion and is `t`. */
  ghost predicate Waiting(s: Queue, a: Addr, t: Timer) {
    a in s.pending && a in s.heap && s.heap[a] == t
  }

  lemma CommandWaits(s: Queue, c: Command, batch: set<Addr>, a: Addr, t: Timer)
    requires Sound(s, batch) && Waiting(s, a, t) && !Inserts(c, a)
    ensures Indexed(s) && Waiting(TimerSpec.Run(s, c), a, t)
  {
  }

  lemma {:induction false} ScriptWaits(s: Queue, script: seq<Command>, batch: set<Addr>, a: Addr, t: Timer)
    requires Sound(s, batch) && Waiting(s, a, t) && NoneInserts(script, a)
    ensures Waiting(RunScript(s, script, batch), a, t)
    decreases |script|
  {
    hide Sound, Waiting, Inserts;
    if script != [] {
      assert script[0] in script && forall c :: c in script[1..] ==> c in script;
      RunKeeps(s, script[0], batch);
      CommandWaits(s, script[0], batch, a, t);
      ScriptWaits(TimerSpec.Run(s, script[0]), script[1..], batch, a, t);
    }
  }

  lemma FireWaits(s: Queue, timer: Addr, now: int, a: Addr, t: Timer)
    requires timer in s.heap && Waiting(s, a, t)
    ensures Waiting(Fire(s, timer, now), a, t)
  {
  }

  lemma {:induction false} BatchWaits(s: Queue, todo: seq<Entry>, scripts: seq<seq<Command>>, now: int, batch: set<Addr>, a: Addr, t: Timer)
    requires Sound(s, batch) && Waiting(s, a, t) && forall e :: e in todo ==> e.timer in batch
    requires forall k :: 0 <= k < |scripts| ==> NoneInserts(scripts[k], a)
    ensures Waiting(RunBatch(s, todo, scripts, now, batch), a, t)
    decreases |todo|
  {
    hide Sound, Waiting, Fire, NoneInserts;
    BatchLive(s, batch);
    if todo != [] {
      var fired := Fire(s, todo[0].timer, now);
      FireKeeps(s, todo[0].timer, now, batch);
      FireWaits(s, todo[0].timer, now, a, t);
      NothingInserts(a);
      ScriptWaits(fired, ScriptOf(scripts), batch, a, t);
      BatchWaits(RunScript(fired, ScriptOf(scripts), batch), todo[1..], Later(scripts), now, batch, a, t);
    }
  }

  lemma NothingInserts(a: Addr)
    ensures NoneInserts([], a)
  {
  }

  lemma ResetOneWaits(s: Queue, timer: Addr, now: int, a: Addr, t: Timer)
    requires timer in s.heap && timer != a && Waiting(s, a, t)
    ensures Waiting(ResetOne(s, timer, now), a, t)
  {
  }

  lemma {:induction false} ResetWaits(s: Queue, expired: seq<Entry>, now: int, a: Addr, t: Timer)
    requires Sound(s, Batch(expired)) && Waiting(s, a, t)
    requires forall i, j :: 0 <= i < j < |expired| ==> expired[i].timer != expired[j].timer
    ensures Waiting(ResetAll(s, expired, now), a, t)
    decreases |expired|
  {
    hide Sound, Waiting, ResetOne;
    if expired != [] {
      BatchTail(expired);
      BatchLive(s, Batch(expired));
      WaitingApart(s, Batch(expired), a, t);
      ResetOneKeeps(s, expired[0].timer, now, Batch(expired));
      ResetOneWaits(s, expired[0].timer, now, a, t);
      ResetWaits(ResetOne(s, expired[0].timer, now), expired[1..], now, a, t);
    }
  }

  lemma WaitingApart(s: Queue, batch: set<Addr>, a: Addr, t: Timer)
    requires Sound(s, batch) && Waiting(s, a, t)
    ensures a !in batch
  {
  }

  lemma WaitingElsewhere(s: Queue, s': Queue, a: Addr, t: Timer)
    requires s'.heap == s.heap && s'.pending == s.pending && Waiting(s, a, t)
    ensures Waiting(s', a, t)
  {
  }

  lemma OpenedPending(s: Queue, now: int, drained: bool)
    requires Sound(s, {})
    ensures Indexed(s) && Opened(s, now, drained).pending == s.pending && Opened(s, now, drained).heap == s.heap
  {
    OpenedSound(s, now, drained);
  }

  lemma WakeupWaits(s: Queue, now: int, drained: bool, scripts: seq<seq<Command>>, clock: int, a: Addr, t: Timer)
    requires Sound(s, {}) && Waiting(s, a, t)
    requires forall k :: 0 <= k < |scripts| ==> NoneInserts(scripts[k], a)
    ensures Waiting(HandleRead(s, now, drained, scripts, clock), a, t)
  {
    hide Sound, Opened, Waiting, Due, NoneInserts;
    var due, batch := Due(s, now), Batch(Due(s, now));
    OpenedSound(s, now, drained);
    OpenedPending(s, now, drained);
    WaitingElsewhere(s, Opened(s, now, drained), a, t);
    BatchWaits(Opened(s, now, drained), due, scripts, now, batch, a, t);
    CalledSince(s, now, drained, scripts);
    var s2 := Called(s, now, drained, scripts);
    WaitingElsewhere(RunBatch(Opened(s, now, drained), due, scripts, now, batch), s2, a, t);
    ResetWaits(s2, due, now, a, t);
    var s3 := ResetAll(s2, due, now);
    RearmKeeps(s3, clock);
    WaitingElsewhere(s3, Rearm(s3, clock), a, t);
    HandlerIs(s, now, drained, scripts, clock);
  }

  lemma {:induction false} RunWaits(s: Queue, events: seq<Event>, a: Addr, t: Timer)
    requires Sound(s, {}) && Waiting(s, a, t) && forall e :: e in events ==> !EventInserts(e, a)
    ensures Waiting(RunEvents(s, events), a, t)
    decreases |events|
  {
    hide Sound, Waiting, HandleRead, TimerSpec.Run, NoneInserts, Inserts;
    if events != [] {
      assert events[0] in events;
      match events[0] {
        case Do(c) => CommandWaits(s, c, {}, a, t);
        case Wakeup(now, drained, scripts, clock) => WakeupWaits(s, now, drained, scripts, clock, a, t);
      }
      RunWaits(StepEvent(s, events[0]), events[1..], a, t);
    }
  }

  // ---------------------------------------------------------------- scheduled as asked

  /** The timer `id` is scheduled for `time`, with `interval`, in both indexes. */
  ghost predicate ScheduledAs(s: Queue, id: TimerId, time: int, interval: int) {
    && id in s.active && Entry(time, id.timer) in s.timers
    && id.timer in s.heap && s.heap[id.timer] == Timer(time, interval, id.sequence)
  }

  lemma NewWaits(s: Queue, a: Addr, time: int, interval: int, batch: set<Addr>)
    requires Sound(s, batch) && a !in s.heap
    ensures Indexed(s)
    ensures Waiting(TimerSpec.Run(s, New(a, time, interval)), a, Timer(time, interval, s.num + 1))
  {
  }

  lemma AddSchedules(s: Queue, a: Addr, t: Timer, clock: int, batch: set<Addr>)
    requires Sound(s, batch) && Waiting(s, a, t)
    ensures Indexed(s)
    ensures ScheduledAs(TimerSpec.Run(s, AddInLoop(a, clock)), TimerId(a, t.sequence), t.time, t.interval)
  {
    InsertMembers(s.timers, Entry(t.time, a));
  }

  lemma {:induction false} RunsJoin(s: Queue, a: seq<Event>, b: seq<Event>)
    requires Sound(s, {})
    ensures RunEvents(s, a + b) == RunEvents(RunEvents(s, a), b)
    decreases |a|
  {
    hide Sound, StepEvent;
    if a == [] {
      assert a + b == b;
    } else {
      RunsJoin(StepEvent(s, a[0]), a[1..], b);
      assert (a + b)[1..] == a[1..] + b;
    }
  }

  /** What `addTimer` does from outside a callback: `new Timer`, anything else in between, and the queued
      insertion. */
  function Adding(a: Addr, time: int, interval: int, between: seq<Event>, clock: int): seq<Event> {
    ([Do(New(a, time, interval))] + between) + [Do(AddInLoop(a, clock))]
  }

  lemma OneEvent(s: Queue, e: Event)
    requires Sound(s, {})
    ensures RunEvents(s, [e]) == StepEvent(s, e)
  {
    hide Sound, StepEvent;
    assert RunEvents(StepEvent(s, e), []) == StepEvent(s, e);
    assert [e][1..] == [];
  }

  /** A timer allocated at any free address, reused or not, is scheduled under the time and interval it was
      given once its insertion is run, whatever commands and wakeups come in between. */
  lemma AddedIsScheduled(s: Queue, a: Addr, time: int, interval: int, between: seq<Event>, clock: int)
    requires Sound(s, {}) && a !in s.heap && forall e :: e in between ==> !EventInserts(e, a)
    ensures ScheduledAs(RunEvents(s, Adding(a, time, interval, between, clock)), TimerId(a, s.num + 1), time, interval)
  {
    hide Sound, Waiting, ScheduledAs, TimerSpec.Run, EventInserts;
    var t := Timer(time, interval, s.num + 1);
    var create, insert := Do(New(a, time, interval)), Do(AddInLoop(a, clock));
    NewWaits(s, a, time, interval, {});
    OneEvent(s, create);
    var s1 := RunEvents(s, [create]);
    RunWaits(s1, between, a, t);
    RunsJoin(s, [create], between);
    var s2 := RunEvents(s1, between);
    AddSchedules(s2, a, t, clock, {});
    OneEvent(s2, insert);
    RunsJoin(s, [create] + between, [insert]);
  }

  // ---------------------------------------------------------------- added by a callback

  lemma ScriptFrom(s: Queue, script: seq<Command>, i: nat, j: nat, batch: set<Addr>)
    requires Sound(s, batch) && i <= j <= |script|
    ensures RunScript(s, script[..j], batch) == RunScript(RunScript(s, script[..i], batch), script[i..j], batch)
  {
    hide Sound;
    SplitScript(s, script[..j], i, batch);
    assert script[..j][..i] == script[..i] && script[..j][i..] == script[i..j];
  }

  lemma {:induction false} WithinAdvances(s: Queue, todo: seq<Entry>, scripts: seq<seq<Command>>, now: int, batch: set<Addr>, k: nat, i: nat, j: nat)
    requires Sound(s, batch) && forall e :: e in todo ==> e.timer in batch
    requires k < |todo| && i <= j <= |ScriptAt(scripts, k)|
    ensures Within(s, todo, scripts, now, batch, k, j)
         == RunScript(Within(s, todo, scripts, now, batch, k, i), ScriptAt(scripts, k)[i..j], batch)
    decreases k
  {
    hide Sound, Fire, RunScript;
    ScriptsShift(scripts);
    BatchLive(s, batch);
    var fired := Fire(s, todo[0].timer, now);
    FireKeeps(s, todo[0].timer, now, batch);
    if k == 0 {
      ScriptFrom(fired, ScriptOf(scripts), i, j, batch);
    } else {
      WithinAdvances(RunScript(fired, ScriptOf(scripts), batch), todo[1..], Later(scripts), now, batch, k - 1, i, j);
    }
  }

  lemma CallbackAdvances(s: Queue, now: int, drained: bool, scripts: seq<seq<Command>>, k: nat, i: nat, j: nat)
    requires Sound(s, {}) && k < |Due(s, now)| && i <= j <= |ScriptAt(scripts, k)|
    ensures InCallback(s, now, drained, scripts, k, j)
         == RunScript(InCallback(s, now, drained, scripts, k, i), ScriptAt(scripts, k)[i..j], Batch(Due(s, now)))
  {
    hide Sound, Opened;
    OpenedSound(s, now, drained);
    WithinAdvances(Opened(s, now, drained), Due(s, now), scripts, now, Batch(Due(s, now)), k, i, j);
  }

  /** A script that allocates a timer and later inserts it. */
  lemma ScriptAdds(m: Queue, a: Addr, time: int, interval: int, between: seq<Command>, clock: int, batch: set<Addr>)
    requires Sound(m, batch) && a !in m.heap && NoneInserts(between, a)
    ensures ScheduledAs(RunScript(m, [New(a, time, interval)] + between + [AddInLoop(a, clock)], batch),
                        TimerId(a, m.num + 1), time, interval)
  {
    hide Sound, Waiting, ScheduledAs, TimerSpec.Run, NoneInserts;
    var create, insert := New(a, time, interval), AddInLoop(a, clock);
    var script := [create] + between + [insert];
    NewWaits(m, a, time, interval, batch);
    OneCommand(m, create, batch);
    var m1 := RunScript(m, [create], batch);
    ScriptWaits(m1, between, batch, a, Timer(time, interval, m.num + 1));
    var m2 := RunScript(m1, between, batch);
    AddSchedules(m2, a, Timer(time, interval, m.num + 1), clock, batch);
    OneCommand(m2, insert, batch);
    SplitScript(m, script, 1, batch);
    assert script[..1] == [create] && script[1..] == between + [insert];
    SplitScript(m1, between + [insert], |between|, batch);
    assert (between + [insert])[..|between|] == between && (between + [insert])[|between|..] == [insert];
  }

  lemma OneCommand(s: Queue, c: Command, batch: set<Addr>)
    requires Sound(s, batch)
    ensures Indexed(s) && RunScript(s, [c], batch) == TimerSpec.Run(s, c)
  {
    hide Sound, TimerSpec.Run;
    RunKeeps(s, c, batch);
    assert RunScript(TimerSpec.Run(s, c), [], batch) == TimerSpec.Run(s, c);
    assert [c][1..] == [];
  }

  /** A timer that a callback allocates and inserts is scheduled as asked when the wakeup is over, and was
      not run by it, if and only if no later command of the wakeup cancels it. */
  lemma AddedByCallback(s: Queue, now: int, drained: bool, scripts: seq<seq<Command>>, clock: int,
                        k: nat, i: nat, j: nat, a: Addr, time: int, interval: int, c: int)
    requires Sound(s, {}) && k < |Due(s, now)| && i < j < |ScriptAt(scripts, k)|
    requires ScriptAt(scripts, k)[i] == New(a, time, interval) && ScriptAt(scripts, k)[j] == AddInLoop(a, c)
    requires NoneInserts(ScriptAt(scripts, k)[i + 1..j], a)
    requires a !in InCallback(s, now, drained, scripts, k, i).heap
    ensures var m, s' := InCallback(s, now, drained, scripts, k, i), HandleRead(s, now, drained, scripts, clock);
      var id := TimerId(a, m.num + 1);
      && NotFired(InCallback(s, now, drained, scripts, k, j + 1), s', id.sequence)
      && (id in s'.active <==> !CancelledFrom(scripts, |Due(s, now)|, k, j + 1, id))
      && (id in s'.active ==> id.timer in s'.heap && s'.heap[id.timer] == Timer(time, interval, id.sequence))
  {
    hide Sound, NoneInserts, CancelledFrom, NotFired, HandleRead, Dead, Due, ScriptAt;
    var script, m := ScriptAt(scripts, k), InCallback(s, now, drained, scripts, k, i);
    var id := TimerId(a, m.num + 1);
    CallbackAdvances(s, now, drained, scripts, k, i, j + 1);
    assert script[i..j + 1] == [New(a, time, interval)] + script[i + 1..j] + [AddInLoop(a, c)];
    ScriptAdds(m, a, time, interval, script[i + 1..j], c, Batch(Due(s, now)));
    CallbackOutcome(s, now, drained, scripts, clock, k, j + 1, id);
  }

  // ---------------------------------------------------------------- the first firing

  /** Between the two states, the callback ran for firing `f`. */
  ghost predicate FiredAs(s: Queue, s': Queue, f: Firing) {
    s.log <= s'.log && exists k :: |s.log| <= k < |s'.log| && s'.log[k] == f
  }

  lemma DueIsFired(s: Queue, now: int, drained: bool, scripts: seq<seq<Command>>, clock: int, id: TimerId)
    requires Sound(s, {}) && id in s.active
    ensures id.timer in s.heap
    ensures var t := s.heap[id.timer];
      t.time <= now ==>
        FiredAs(s, HandleRead(s, now, drained, scripts, clock), Firing(id.sequence, t.time, now, t.interval))
  {
    hide Sound, HandleRead, AfterWakeup, InHand;
    var due, log := Due(s, now), HandleRead(s, now, drained, scripts, clock).log;
    SparedAtOpening(s, now, drained, id);
    OpenedSound(s, now, drained);
    WakeupEffect(s, now, drained, scripts, clock);
    FiringsAt(s, due, now);
    SequencesApart(s, id);
    var e := Entry(s.heap[id.timer].time, id.timer);
    if e.time <= now {
      assert e in due;
      var i :| 0 <= i < |due| && due[i] == e;
      assert log[|s.log| + i] == Firings(s, due, now)[i];
    }
  }

  /** From allocation to the first firing and on.  A timer added for `time` with `interval`, and not
      cancelled: no wakeup before `time` runs it, and it stays; the first that reads `time` or later
      runs it, for that deadline, and schedules it for an interval from then if and only if the
      interval is positive. */
  lemma LifeOfTimer(s: Queue, a: Addr, time: int, interval: int, between: seq<Event>, clock: int,
                    before: seq<Event>, now: int, drained: bool, scripts: seq<seq<Command>>, rearmed: int)
    requires Sound(s, {}) && a !in s.heap && forall e :: e in between ==> !EventInserts(e, a)
    requires var id, added := TimerId(a, s.num + 1), RunEvents(s, Adding(a, time, interval, between, clock));
      && !CancelledInRun(added, before, id)
      && NotFired(added, RunEvents(added, before), id.sequence)
      && !CancelledWithin(scripts, |Due(RunEvents(added, before), now)|, id)
    ensures var id, added := TimerId(a, s.num + 1), RunEvents(s, Adding(a, time, interval, between, clock));
      var reached := RunEvents(added, before);
      var s' := HandleRead(reached, now, drained, scripts, rearmed);
      && (now < time ==> NotFired(reached, s', id.sequence) && ScheduledAs(s', id, time, interval))
      && (now >= time ==>
            && FiredAs(reached, s', Firing(id.sequence, time, now, interval))
            && (id in s'.active <==> interval > 0)
            && (interval > 0 ==> ScheduledAs(s', id, now + interval, interval)))
  {
    hide Sound, ScheduledAs, HandleRead, CancelledInRun, CancelledWithin, NotFired, Due, FiredAs, EventInserts, RunEvents, Adding;
    var id, added := TimerId(a, s.num + 1), RunEvents(s, Adding(a, time, interval, between, clock));
    AddedIsScheduled(s, a, time, interval, between, clock);
    ScheduledActive(added, id, time, interval);
    var reached := RunEvents(added, before);
    NoTimerLost(added, before, id);
    StillActive(added, reached, id, time, interval);
    DueIsFired(reached, now, drained, scripts, rearmed, id);
    FiresIffDue(reached, now, drained, scripts, rearmed, id);
    WakeupOutcome(reached, now, drained, scripts, rearmed, id);
    var s' := HandleRead(reached, now, drained, scripts, rearmed);
    CourseScheduled(s', id, Timer(time, interval, id.sequence), now);
  }

  lemma ScheduledActive(s: Queue, id: TimerId, time: int, interval: int)
    requires ScheduledAs(s, id, time, interval)
    ensures id in s.active && id.timer in s.heap && s.heap[id.timer] == Timer(time, interval, id.sequence)
  {
  }

  lemma StillActive(s: Queue, s': Queue, id: TimerId, time: int, interval: int)
    requires Fate(s, s', id, Timer(time, interval, id.sequence), false) && NotFired(s, s', id.sequence)
    ensures id in s'.active && id.timer in s'.heap && s'.heap[id.timer] == Timer(time, interval, id.sequence)
  {
  }

  lemma CourseScheduled(s: Queue, id: TimerId, t: Timer, now: int)
    requires Sound(s, {}) && RunsItsCourse(s, id, t, now) && t.sequence == id.sequence
    ensures t.time > now ==> ScheduledAs(s, id, t.time, t.interval)
    ensures t.time <= now && t.Repeat() ==> ScheduledAs(s, id, now + t.interval, t.interval)
    ensures t.time <= now && !t.Repeat() ==> id !in s.active
  {
  }
}
