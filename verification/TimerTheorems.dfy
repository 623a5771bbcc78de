/** What users of the timer queue rely on, over whole runs: ownership, cancellation, spacing of
    firings, and arming of the timerfd. */
module TimerTheorems {
  import opened OrderedSet
  import opened TimerSpec
  import opened TimerRuns

  // ---------------------------------------------------------------- ownership

  /** A cancel removes exactly the timer it names, from both indexes and from the heap, and only if
      that very timer is scheduled: an id whose address now belongs to another timer removes
      nothing, and every other timer keeps its time and its place. */
  lemma CancelExact(s: Queue, id: TimerId, batch: set<Addr>)
    requires Sound(s, batch)
    ensures Indexed(s)
    ensures var s' := TimerSpec.Run(s, Cancel(id));
      && s'.active == s.active - {id}
      && (forall a :: a in s.heap ==> (a !in s'.heap <==> id in s.active && a == id.timer))
      && (forall a :: a in s'.heap ==> a in s.heap && s'.heap[a] == s.heap[a])
      && (forall e :: e in s'.timers <==> e in s.timers && !(id in s.active && e.timer == id.timer))
      && s'.freed == s.freed + (if id in s.active then [id.sequence] else [])
      && (id.timer in s.heap && s.heap[id.timer].sequence != id.sequence ==>
            s'.heap == s.heap && s'.timers == s.timers && s'.active == s.active)
      && (id !in s.active && !s.calling ==> s' == s)
  {
    if id in s.active {
      EraseMembers(s.timers, Entry(s.heap[id.timer].time, id.timer));
      assert s.active - {id} == TimerSpec.Run(s, Cancel(id)).active;
    } else {
      assert s.active - {id} == s.active;
    }
  }

  /** Over every run: no timer is deleted twice, and whatever the indexes refer to is live, is the
      timer meant, and is listed in both indexes under its current time. */
  lemma OwnershipOverRuns(s: Queue, events: seq<Event>)
    requires Sound(s, {})
    ensures var s' := RunEvents(s, events);
      && Distinct(s'.freed)
      && (forall a :: a in s'.heap ==> s'.heap[a].sequence !in s'.freed)
      && (forall t, a :: Entry(t, a) in s'.timers <==>
            a in s'.heap && s'.heap[a].time == t && TimerId(a, s'.heap[a].sequence) in s'.active)
      && (forall a :: a in s'.heap ==> (a in s'.pending <==> TimerId(a, s'.heap[a].sequence) !in s'.active))
  {
    var s' := RunEvents(s, events);
    IndexesAgree(s', {});
    assert s'.pending + {} == s'.pending;
  }

  /** The same at every callback boundary, where the timers of the batch are live, untouched, and
      in neither index. */
  lemma OwnershipInCallbacks(s: Queue, now: int, drained: bool, scripts: seq<seq<Command>>, k: nat)
    requires Sound(s, {}) && k <= |Due(s, now)|
    ensures Indexed(s) && Sound(Opened(s, now, drained), Batch(Due(s, now)))
    ensures forall e :: e in Due(s, now)[..k] ==> e.timer in Batch(Due(s, now))
    ensures var due := Due(s, now);
      var s' := RunBatch(Opened(s, now, drained), due[..k], scripts, now, Batch(due));
      && Distinct(s'.freed)
      && (forall a :: a in s'.heap ==> s'.heap[a].sequence !in s'.freed)
      && (forall t, a :: Entry(t, a) in s'.timers <==>
            a in s'.heap && s'.heap[a].time == t && TimerId(a, s'.heap[a].sequence) in s'.active)
      && (forall e :: e in due ==>
            && e.timer in s.heap && e.timer in s'.heap && s'.heap[e.timer] == s.heap[e.timer]
            && TimerId(e.timer, s'.heap[e.timer].sequence) !in s'.active)
  {
    hide Opened;
    OpenedSound(s, now, drained);
    var s1, due := Opened(s, now, drained), Due(s, now);
    DueMembers(due, k);
    BatchSince(s1, due[..k], scripts, now, Batch(due));
    IndexesAgree(RunBatch(s1, due[..k], scripts, now, Batch(due)), Batch(due));
  }

  lemma IndexesAgree(s: Queue, batch: set<Addr>)
    requires Sound(s, batch)
    ensures forall t, a :: Entry(t, a) in s.timers <==>
      a in s.heap && s.heap[a].time == t && TimerId(a, s.heap[a].sequence) in s.active
    ensures forall a :: a in batch ==> a in s.heap && TimerId(a, s.heap[a].sequence) !in s.active
    ensures Distinct(s.freed) && forall a :: a in s.heap ==> s.heap[a].sequence !in s.freed
  {
  }

  // ---------------------------------------------------------------- cancellation

  ghost predicate NotFired(s: Queue, s': Queue, q: nat) {
    && s.log <= s'.log
    && forall i :: |s.log| <= i < |s'.log| ==> s'.log[i].sequence != q
  }

  lemma CancelActiveKills(s: Queue, id: TimerId, batch: set<Addr>)
    requires Sound(s, batch) && id in s.active
    ensures Indexed(s) && Dead(TimerSpec.Run(s, Cancel(id)), id.sequence)
  {
  }

  lemma DeadSince(s: Queue, s': Queue, batch: set<Addr>, q: nat)
    requires Dead(s, q) && Since(s, s', batch)
    ensures Dead(s', q)
  {
  }

  /** A dead timer is not fired by a wakeup, nor brought back by it. */
  lemma DeadThroughWakeup(s: Queue, now: int, drained: bool, scripts: seq<seq<Command>>, clock: int, q: nat)
    requires Sound(s, {}) && Dead(s, q)
    ensures var s' := HandleRead(s, now, drained, scripts, clock);
      Dead(s', q) && NotFired(s, s', q)
  {
    hide Sound, HandleRead;
    WakeupEffect(s, now, drained, scripts, clock);
    FiringsAt(s, Due(s, now), now);
  }

  lemma {:induction false} DeadForever(s: Queue, events: seq<Event>, q: nat)
    requires Sound(s, {}) && Dead(s, q)
    ensures Dead(RunEvents(s, events), q) && NotFired(s, RunEvents(s, events), q)
    decreases |events|
  {
    hide Sound, HandleRead;
    if events != [] {
      var s1 := StepEvent(s, events[0]);
      match events[0] {
        case Do(c) =>
          CommandSince(s, c, {});
          DeadSince(s, s1, {}, q);
        case Wakeup(now, drained, scripts, clock) =>
          DeadThroughWakeup(s, now, drained, scripts, clock, q);
      }
      DeadForever(s1, events[1..], q);
    }
  }

  /** A scheduled timer that is cancelled between two wakeups never runs again. */
  lemma CancelledNeverRuns(s: Queue, id: TimerId, events: seq<Event>)
    requires Sound(s, {}) && id in s.active
    ensures NotFired(s, RunEvents(s, [Do(Cancel(id))] + events), id.sequence)
  {
    CancelActiveKills(s, id, {});
    var s1 := StepEvent(s, Do(Cancel(id)));
    CommandSince(s, Cancel(id), {});
    DeadForever(s1, events, id.sequence);
    assert ([Do(Cancel(id))] + events)[1..] == events;
  }

  /** Doomed: in the batch and marked for deletion, or already dead. */
  ghost predicate Doomed(s: Queue, id: TimerId, batch: set<Addr>) {
    if id.timer in batch then id in s.canceling else Dead(s, id.sequence)
  }

  /** The timer `id` is in the batch, or scheduled, or gone already. */
  ghost predicate Known(s: Queue, id: TimerId, batch: set<Addr>) {
    if id.timer in batch then id.timer in s.heap && s.heap[id.timer].sequence == id.sequence
    else id in s.active || Dead(s, id.sequence)
  }

  lemma CommandDooms(s: Queue, c: Command, batch: set<Addr>, id: TimerId)
    requires Sound(s, batch) && s.calling && Known(s, id, batch)
    ensures Indexed(s) && Known(TimerSpec.Run(s, c), id, batch)
    ensures c == Cancel(id) || Doomed(s, id, batch) ==> Doomed(TimerSpec.Run(s, c), id, batch)
  {
  }

  lemma {:induction false} ScriptDooms(s: Queue, script: seq<Command>, batch: set<Addr>, id: TimerId)
    requires Sound(s, batch) && s.calling && Known(s, id, batch)
    ensures var s' := RunScript(s, script, batch);
      && Known(s', id, batch)
      && (Cancel(id) in script || Doomed(s, id, batch) ==> Doomed(s', id, batch))
    decreases |script|
  {
    hide Sound, Known, Doomed;
    if script != [] {
      RunKeeps(s, script[0], batch);
      CommandSince(s, script[0], batch);
      CommandDooms(s, script[0], batch, id);
      ScriptDooms(TimerSpec.Run(s, script[0]), script[1..], batch, id);
    }
  }

  lemma DoomedElsewhere(s: Queue, s': Queue, id: TimerId, batch: set<Addr>)
    requires s'.heap == s.heap && s'.active == s.active && s'.num == s.num && s'.canceling == s.canceling
    ensures Known(s, id, batch) ==> Known(s', id, batch)
    ensures Doomed(s, id, batch) ==> Doomed(s', id, batch)
  {
  }

  lemma {:induction false} BatchDooms(s: Queue, todo: seq<Entry>, scripts: seq<seq<Command>>, now: int, batch: set<Addr>, id: TimerId, k: nat)
    requires Sound(s, batch) && s.calling && Known(s, id, batch)
    requires forall e :: e in todo ==> e.timer in batch
    ensures var s' := RunBatch(s, todo, scripts, now, batch);
      && Known(s', id, batch)
      && (Doomed(s, id, batch) || (k < |todo| && k < |scripts| && Cancel(id) in scripts[k]) ==>
            Doomed(s', id, batch))
    decreases |todo|
  {
    hide Sound, Known, Doomed;
    BatchLive(s, batch);
    if todo != [] {
      var fired := Fire(s, todo[0].timer, now);
      SoundElsewhere(s, fired, batch);
      DoomedElsewhere(s, fired, id, batch);
      ScriptSince(fired, ScriptOf(scripts), batch);
      ScriptDooms(fired, ScriptOf(scripts), batch, id);
      var next := RunScript(fired, ScriptOf(scripts), batch);
      BatchDooms(next, todo[1..], Later(scripts), now, batch, id, if k > 0 then k - 1 else 0);
    }
  }

  lemma KnownAtOpening(s: Queue, now: int, drained: bool, id: TimerId)
    requires Sound(s, {}) && id in s.active
    ensures Indexed(s) && Known(Opened(s, now, drained), id, Batch(Due(s, now)))
  {
    OpenedSound(s, now, drained);
  }

  lemma DoomedIsSettled(s: Queue, s': Queue, id: TimerId, batch: set<Addr>, now: int)
    requires Known(s, id, batch) && Doomed(s, id, batch) && Untouched(s, s', batch)
    requires forall a :: a in batch ==> a in s.heap && Settled(s, s', a, now)
    ensures Dead(s', id.sequence)
  {
  }

  /** A timer that is scheduled when a wakeup starts and that a callback of this wakeup cancels,
      whether it is in the batch or not, is gone after it and never runs again.  During the wakeup
      it runs at most once, and only if it was due (FiringDiscipline).  Timers that callbacks add
      are dealt with in TimerCallbacks. */
  lemma ScheduledThenCancelled(s: Queue, now: int, drained: bool, scripts: seq<seq<Command>>, clock: int,
                            id: TimerId, k: nat, events: seq<Event>)
    requires Sound(s, {}) && id in s.active
    requires k < |Due(s, now)| && k < |scripts| && Cancel(id) in scripts[k]
    ensures var s' := HandleRead(s, now, drained, scripts, clock);
      Dead(s', id.sequence) && NotFired(s', RunEvents(s', events), id.sequence)
  {
    hide Sound, Opened, Known, Doomed, Settled, Untouched, Due;
    var due, batch := Due(s, now), Batch(Due(s, now));
    OpenedSound(s, now, drained);
    OpenedCalling(s, now, drained);
    KnownAtOpening(s, now, drained, id);
    BatchDooms(Opened(s, now, drained), due, scripts, now, batch, id, k);
    CalledSince(s, now, drained, scripts);
    var s2 := Called(s, now, drained, scripts);
    DoomedElsewhere(RunBatch(Opened(s, now, drained), due, scripts, now, batch), s2, id, batch);
    ResetSettles(s2, due, now);
    BatchLive(s2, batch);
    var s3 := ResetAll(s2, due, now);
    DoomedIsSettled(s2, s3, id, batch, now);
    RearmKeeps(s3, clock);
    HandlerIs(s, now, drained, scripts, clock);
    var s' := HandleRead(s, now, drained, scripts, clock);
    assert Dead(s', id.sequence);
    DeadForever(s', events, id.sequence);
  }

  // ---------------------------------------------------------------- spacing of firings

  /** Firings of one timer are at least its interval apart; one that does not repeat fires once. */
  ghost predicate Spaced(log: seq<Firing>) {
    forall i, j :: 0 <= i < j < |log| && log[i].sequence == log[j].sequence ==>
      && log[i].interval == log[j].interval > 0
      && log[j].now >= log[i].now + log[i].interval
  }

  /** The log so far, and the deadlines of the live timers that appear in it. */
  ghost predicate History(s: Queue) {
    && Spaced(s.log)
    && (forall i :: 0 <= i < |s.log| ==> s.log[i].sequence <= s.num)
    && (forall a, i :: a in s.heap && 0 <= i < |s.log| && s.log[i].sequence == s.heap[a].sequence ==>
          && s.log[i].interval == s.heap[a].interval > 0
          && s.heap[a].time >= s.log[i].now + s.log[i].interval)
  }

  lemma HistoryAfterCommand(s: Queue, c: Command)
    requires Sound(s, {}) && History(s)
    ensures Indexed(s) && History(TimerSpec.Run(s, c))
  {
    CommandSince(s, c, {});
  }

  lemma HistoryAfterWakeup(s: Queue, now: int, drained: bool, scripts: seq<seq<Command>>, clock: int)
    requires Sound(s, {}) && History(s)
    ensures History(HandleRead(s, now, drained, scripts, clock))
  {
    hide HandleRead, Sound, History, AfterWakeup;
    WakeupEffect(s, now, drained, scripts, clock);
    FiringDiscipline(s, now, drained, scripts, clock);
    FiringsAt(s, Due(s, now), now);
    DueDeadlines(s, now, drained);
    NewFirings(s, Due(s, now), now);
    NewDeadlines(s, HandleRead(s, now, drained, scripts, clock), Due(s, now), now);
  }

  lemma DueDeadlines(s: Queue, now: int, drained: bool)
    requires Sound(s, {})
    ensures forall e :: e in Due(s, now) ==> e.timer in s.heap && s.heap[e.timer].time == e.time <= now
    ensures forall a :: a in s.heap ==> s.heap[a].sequence <= s.num
    ensures forall a, b :: a in s.heap && b in s.heap && a != b ==> s.heap[a].sequence != s.heap[b].sequence
    ensures forall i, j :: 0 <= i < j < |Due(s, now)| ==> Due(s, now)[i].timer != Due(s, now)[j].timer
  {
    OpenedSound(s, now, drained);
  }

  lemma NewFirings(s: Queue, due: seq<Entry>, now: int)
    requires History(s)
    requires forall e :: e in due ==> e.timer in s.heap && s.heap[e.timer].time <= now
    requires forall a, b :: a in s.heap && b in s.heap && a != b ==> s.heap[a].sequence != s.heap[b].sequence
    requires forall i, j :: 0 <= i < j < |due| ==> due[i].timer != due[j].timer
    ensures Spaced(s.log + Firings(s, due, now))
  {
    FiringsAt(s, due, now);
    var log, n := s.log + Firings(s, due, now), |s.log|;
    forall i | n <= i < |log|
      ensures due[i - n] in due && log[i] == Firings(s, due, now)[i - n]
    {
    }
    forall i, j | 0 <= i < j < |log| && log[i].sequence == log[j].sequence
      ensures log[i].interval == log[j].interval > 0 && log[j].now >= log[i].now + log[i].interval
    {
      if i < n {
        assert log[i] == s.log[i];
      }
    }
  }

  lemma NewDeadlines(s: Queue, s': Queue, due: seq<Entry>, now: int)
    requires History(s) && AfterWakeup(s, s', Batch(due), now)
    requires forall e :: e in due ==> e.timer in s.heap && s.heap[e.timer].time <= now
    requires forall a :: a in s.heap ==> s.heap[a].sequence <= s.num
    requires forall a, b :: a in s.heap && b in s.heap && a != b ==> s.heap[a].sequence != s.heap[b].sequence
    requires s'.log == s.log + Firings(s, due, now) && Spaced(s'.log)
    ensures History(s')
  {
    hide Spaced;
    FiringsAt(s, due, now);
    var n := |s.log|;
    forall i | n <= i < |s'.log|
      ensures due[i - n] in due && s'.log[i] == Firings(s, due, now)[i - n]
      ensures s'.log[i].sequence <= s.num
    {
    }
    forall a, i | a in s'.heap && 0 <= i < |s'.log| && s'.log[i].sequence == s'.heap[a].sequence
      ensures s'.log[i].interval == s'.heap[a].interval > 0
      ensures s'.heap[a].time >= s'.log[i].now + s'.log[i].interval
    {
      if i < n {
        FiringOfOld(s, s', due, now, a, i);
      } else {
        FiringOfBatch(s, s', due, now, a, i - n);
      }
    }
  }

  lemma FiringOfOld(s: Queue, s': Queue, due: seq<Entry>, now: int, a: Addr, i: nat)
    requires History(s) && AfterWakeup(s, s', Batch(due), now) && i < |s.log| && a in s'.heap
    requires forall e :: e in due ==> e.timer in s.heap && s.heap[e.timer].time <= now
    requires s.log[i].sequence == s'.heap[a].sequence
    ensures s.log[i].interval == s'.heap[a].interval > 0
    ensures s'.heap[a].time >= s.log[i].now + s.log[i].interval
  {
    hide Spaced;
  }

  lemma FiringOfBatch(s: Queue, s': Queue, due: seq<Entry>, now: int, a: Addr, k: nat)
    requires AfterWakeup(s, s', Batch(due), now) && k < |due|
    requires forall e :: e in due ==> e.timer in s.heap && s.heap[e.timer].time <= now
    requires forall a :: a in s.heap ==> s.heap[a].sequence <= s.num
    requires forall a, b :: a in s.heap && b in s.heap && a != b ==> s.heap[a].sequence != s.heap[b].sequence
    requires k < |Firings(s, due, now)| && a in s'.heap
    requires Firings(s, due, now)[k].sequence == s'.heap[a].sequence
    ensures Firings(s, due, now)[k].interval == s'.heap[a].interval > 0
    ensures s'.heap[a].time >= Firings(s, due, now)[k].now + s'.heap[a].interval
  {
    FiringsAt(s, due, now);
    assert due[k] in due;
    assert due[k].timer in Batch(due);
    assert due[k].timer == a;
  }

  /** Over every run: a one-shot timer fires at most once, and two firings of a repeating timer are
      at least its interval apart. */
  lemma {:induction false} FiringsSpaced(s: Queue, events: seq<Event>)
    requires Sound(s, {}) && History(s)
    ensures History(RunEvents(s, events)) && Spaced(RunEvents(s, events).log)
    decreases |events|
  {
    hide Sound, HandleRead;
    if events != [] {
      match events[0] {
        case Do(c) => HistoryAfterCommand(s, c);
        case Wakeup(now, drained, scripts, clock) => HistoryAfterWakeup(s, now, drained, scripts, clock);
      }
      FiringsSpaced(StepEvent(s, events[0]), events[1..]);
    }
  }

  // ---------------------------------------------------------------- arming

  function Max(a: int, b: int): int {
    if a < b then b else a
  }

  /** When something is scheduled, the timerfd is armed, or has expired unread, for no later than
      the earliest deadline, or 100 microseconds after it was armed. */
  ghost predicate WakesInTime(s: Queue) {
    s.timers != [] ==> s.fd.Armed? && s.fd.at <= Max(s.timers[0].time, s.fd.setAt + MIN_DELAY)
  }

  ghost predicate Positive(s: Queue) {
    forall a :: a in s.heap ==> s.heap[a].time > 0
  }

  predicate PositiveCommand(c: Command) {
    c.New? ==> c.time > 0
  }

  predicate PositiveScripts(scripts: seq<seq<Command>>) {
    forall k, j :: 0 <= k < |scripts| && 0 <= j < |scripts[k]| ==> PositiveCommand(scripts[k][j])
  }

  predicate PositiveEvent(e: Event) {
    match e
    case Do(c) => PositiveCommand(c)
    case Wakeup(now, _, scripts, _) => now >= 0 && PositiveScripts(scripts)
  }

  /** Outside the handler every command keeps the timerfd armed in time. */
  lemma CommandArms(s: Queue, c: Command)
    requires Sound(s, {}) && WakesInTime(s)
    ensures Indexed(s) && WakesInTime(TimerSpec.Run(s, c))
  {
    match c
    case New(_, _, _) =>
    case AddInLoop(timer, clock) =>
      if timer in s.pending {
        InsertSorted(s.timers, Entry(s.heap[timer].time, timer));
      }
    case Cancel(id) =>
      if id in s.active {
        var e := Entry(s.heap[id.timer].time, id.timer);
        EraseMembers(s.timers, e);
        EarliestLater(s.timers, Erase(s.timers, e));
      }
  }

  lemma EarliestLater(es: seq<Entry>, es': seq<Entry>)
    requires Sorted(es) && forall e :: e in es' ==> e in es
    ensures es' != [] ==> es != [] && es'[0].time >= es[0].time
  {
    if es' != [] {
      assert es'[0] in es;
    }
  }

  /** What the handler leaves armed, exactly: a valid earliest deadline arms the timerfd in time. */
  lemma HandlerArms(s: Queue, now: int, drained: bool, scripts: seq<seq<Command>>, clock: int)
    requires Sound(s, {})
    ensures var s' := HandleRead(s, now, drained, scripts, clock);
      s'.timers != [] && s'.timers[0].time > 0 ==>
        s'.fd == Armed(Max(s'.timers[0].time, clock + MIN_DELAY), clock) && WakesInTime(s')
  {
    hide Sound, Called, Due, ResetAll;
    HandlerIs(s, now, drained, scripts, clock);
    RearmArms(ResetAll(Called(s, now, drained, scripts), Due(s, now), now), clock);
  }

  /** Arming is exact: for the deadline, or 100 microseconds from now if that is later. */
  lemma ArmedExactly(when: int, clock: int)
    ensures ResetTimerfd(when, clock) == Armed(Max(when, clock + MIN_DELAY), clock)
  {
  }

  /** An insertion arms the timerfd for the new timer exactly when that becomes the earliest, and a cancel
      never touches it. */
  lemma CommandArmsExactly(s: Queue, c: Command)
    requires Sound(s, {})
    ensures Indexed(s)
    ensures var s' := TimerSpec.Run(s, c);
      if c.AddInLoop? && c.timer in s.pending && c.timer in s.heap
         && (s.timers == [] || s.heap[c.timer].time < s.timers[0].time)
      then s'.fd == Armed(Max(s.heap[c.timer].time, c.clock + MIN_DELAY), c.clock)
      else s'.fd == s.fd
  {
  }

  /** What a wakeup without commands leaves armed, in every case. */
  lemma HandlerFd(s: Queue, now: int, drained: bool, clock: int)
    requires Sound(s, {})
    ensures var s' := HandleRead(s, now, drained, [], clock);
      && !s'.calling
      && s'.fd == if s'.timers != [] && s'.timers[0].time > 0 then Armed(Max(s'.timers[0].time, clock + MIN_DELAY), clock)
                  else if drained then Idle else s.fd
  {
    hide Sound, Called, Due, ResetAll;
    HandlerIs(s, now, drained, [], clock);
    var s2, due := Called(s, now, drained, []), Due(s, now);
    SoundLive(s, {});
    OpenedFd(s, now, drained);
    BatchFd(s, now, drained);
    ResetFd(s2, due, now);
    RearmFd(ResetAll(s2, due, now), clock);
  }

  lemma OpenedFd(s: Queue, now: int, drained: bool)
    requires Indexed(s)
    ensures Opened(s, now, drained).fd == if drained then Idle else s.fd
  {
  }

  lemma BatchFd(s: Queue, now: int, drained: bool)
    requires Sound(s, {})
    ensures Indexed(s) && Called(s, now, drained, []).fd == Opened(s, now, drained).fd
    ensures !Called(s, now, drained, []).calling
  {
    hide Sound, Opened, Due;
    OpenedSound(s, now, drained);
    SilentBatch(Opened(s, now, drained), Due(s, now), now, Batch(Due(s, now)));
  }

  lemma {:induction false} SilentBatch(s: Queue, todo: seq<Entry>, now: int, batch: set<Addr>)
    requires Sound(s, batch) && forall e :: e in todo ==> e.timer in batch
    ensures RunBatch(s, todo, [], now, batch).fd == s.fd
    decreases |todo|
  {
    hide Sound;
    if todo != [] {
      BatchLive(s, batch);
      var fired := Fire(s, todo[0].timer, now);
      SoundElsewhere(s, fired, batch);
      SilentBatch(RunScript(fired, ScriptOf([]), batch), todo[1..], now, batch);
    }
  }

  lemma {:induction false} ResetFd(s: Queue, expired: seq<Entry>, now: int)
    requires Sound(s, Batch(expired))
    requires forall i, j :: 0 <= i < j < |expired| ==> expired[i].timer != expired[j].timer
    ensures ResetAll(s, expired, now).fd == s.fd && ResetAll(s, expired, now).calling == s.calling
    decreases |expired|
  {
    hide Sound;
    if expired != [] {
      BatchTail(expired);
      ResetOneKeeps(s, expired[0].timer, now, Batch(expired));
      BatchLive(s, Batch(expired));
      ResetFd(ResetOne(s, expired[0].timer, now), expired[1..], now);
    }
  }

  lemma RearmFd(s: Queue, clock: int)
    requires Indexed(s)
    ensures var s' := Rearm(s, clock);
      && s'.timers == s.timers && s'.calling == s.calling
      && s'.fd == if s.timers != [] && s.timers[0].time > 0 then Armed(Max(s.timers[0].time, clock + MIN_DELAY), clock)
                  else s.fd
  {
    if s.timers != [] {
      assert s.timers[0] in s.timers;
    }
  }

  lemma RearmArms(s: Queue, clock: int)
    requires Indexed(s)
    ensures var s' := Rearm(s, clock);
      s'.timers != [] && s'.timers[0].time > 0 ==>
        s'.fd == Armed(Max(s'.timers[0].time, clock + MIN_DELAY), clock) && WakesInTime(s')
  {
    if s.timers != [] {
      assert s.timers[0] in s.timers;
    }
  }

  lemma PositiveAfterCommand(s: Queue, c: Command, batch: set<Addr>)
    requires Sound(s, batch) && Positive(s) && PositiveCommand(c)
    ensures Indexed(s) && Positive(TimerSpec.Run(s, c))
  {
  }

  lemma {:induction false} PositiveAfterScript(s: Queue, script: seq<Command>, batch: set<Addr>)
    requires Sound(s, batch) && Positive(s)
    requires forall j :: 0 <= j < |script| ==> PositiveCommand(script[j])
    ensures Positive(RunScript(s, script, batch))
    decreases |script|
  {
    hide Sound, Positive, PositiveCommand;
    if script != [] {
      RunKeeps(s, script[0], batch);
      PositiveAfterCommand(s, script[0], batch);
      PositiveAfterScript(TimerSpec.Run(s, script[0]), script[1..], batch);
    }
  }

  lemma PositiveElsewhere(s: Queue, s': Queue)
    requires s'.heap == s.heap && Positive(s)
    ensures Positive(s')
  {
  }

  lemma {:induction false} PositiveAfterBatch(s: Queue, todo: seq<Entry>, scripts: seq<seq<Command>>, now: int, batch: set<Addr>)
    requires Sound(s, batch) && Positive(s) && PositiveScripts(scripts)
    requires forall e :: e in todo ==> e.timer in batch
    ensures Positive(RunBatch(s, todo, scripts, now, batch))
    decreases |todo|
  {
    hide Sound, Positive;
    BatchLive(s, batch);
    if todo != [] {
      var fired := Fire(s, todo[0].timer, now);
      SoundElsewhere(s, fired, batch);
      PositiveElsewhere(s, fired);
      PositiveAfterScript(fired, ScriptOf(scripts), batch);
      PositiveAfterBatch(RunScript(fired, ScriptOf(scripts), batch), todo[1..], Later(scripts), now, batch);
    }
  }

  lemma PositiveAfterReset(s: Queue, s': Queue, batch: set<Addr>, now: int)
    requires Positive(s) && now >= 0 && Untouched(s, s', batch)
    requires forall a :: a in batch ==> a in s.heap && Settled(s, s', a, now)
    ensures Positive(s')
  {
  }

  lemma PositiveAfterWakeup(s: Queue, now: int, drained: bool, scripts: seq<seq<Command>>, clock: int)
    requires Sound(s, {}) && Positive(s) && now >= 0 && PositiveScripts(scripts)
    ensures Positive(HandleRead(s, now, drained, scripts, clock))
  {
    hide Sound, Opened, Positive, Settled, Untouched, Due, PositiveScripts;
    var due, batch := Due(s, now), Batch(Due(s, now));
    OpenedSound(s, now, drained);
    PositiveElsewhere(s, Opened(s, now, drained));
    PositiveAfterBatch(Opened(s, now, drained), due, scripts, now, batch);
    CalledSince(s, now, drained, scripts);
    var s2 := Called(s, now, drained, scripts);
    PositiveElsewhere(RunBatch(Opened(s, now, drained), due, scripts, now, batch), s2);
    ResetSettles(s2, due, now);
    BatchLive(s2, batch);
    var s3 := ResetAll(s2, due, now);
    PositiveAfterReset(s2, s3, batch, now);
    RearmKeeps(s3, clock);
    PositiveElsewhere(s3, Rearm(s3, clock));
    HandlerIs(s, now, drained, scripts, clock);
  }

  lemma EarliestPositive(s: Queue)
    requires Indexed(s) && Positive(s)
    ensures s.timers != [] ==> s.timers[0].time > 0
  {
    if s.timers != [] {
      assert s.timers[0] in s.timers;
    }
  }

  /** Arming over whole runs: with positive deadlines, whenever no handler is running the timerfd
      wakes the loop in time for the earliest timer, whatever mix of adds, cancels and wakeups led
      there. */
  lemma {:induction false} AlwaysArmed(s: Queue, events: seq<Event>)
    requires Sound(s, {}) && Positive(s) && WakesInTime(s)
    requires forall e :: e in events ==> PositiveEvent(e)
    ensures Positive(RunEvents(s, events)) && WakesInTime(RunEvents(s, events))
    decreases |events|
  {
    hide Sound, Indexed, HandleRead, Positive, WakesInTime, TimerSpec.Run;
    if events != [] {
      SoundLive(s, {});
      assert PositiveEvent(events[0]);
      var s1 := StepEvent(s, events[0]);
      match events[0] {
        case Do(c) =>
          CommandArms(s, c);
          PositiveAfterCommand(s, c, {});
        case Wakeup(now, drained, scripts, clock) =>
          HandlerArms(s, now, drained, scripts, clock);
          PositiveAfterWakeup(s, now, drained, scripts, clock);
          SoundLive(s1, {});
          EarliestPositive(s1);
          NothingToWake(s1);
      }
      AlwaysArmed(s1, events[1..]);
    }
  }

  lemma NothingToWake(s: Queue)
    ensures s.timers == [] ==> WakesInTime(s)
  {
  }

  // ---------------------------------------------------------------- where runs start

  /** A queue just constructed meets everything the theorems ask of the state a run starts in. */
  lemma NewQueueIsSound(s: Queue)
    requires |s.timers| == 0 && |s.active| == 0 && |s.heap| == 0 && |s.pending| == 0
    requires |s.log| == 0 && |s.freed| == 0
    ensures Sound(s, {}) && History(s) && Positive(s) && WakesInTime(s)
  {
    assert forall a :: a !in s.heap;
  }
}
