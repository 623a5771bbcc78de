/** Cancellation in full: which timers a wakeup and a run leave scheduled, when callbacks add and cancel
    timers at will.  A timer goes if and only if it is cancelled, or fires for the only time. */
module TimerCallbacks {
  import opened OrderedSet
  import opened TimerSpec
  import opened TimerRuns
  import opened TimerTheorems

  // ---------------------------------------------------------------- what is not cancelled stays

  /** The timer `id` is live, and scheduled or in the batch; nothing will stop it from staying. */
  ghost predicate Spared(s: Queue, id: TimerId, batch: set<Addr>) {
    && id.timer in s.heap && s.heap[id.timer].sequence == id.sequence
    && if id.timer in batch then id !in s.canceling else id in s.active
  }

  lemma CommandSpares(s: Queue, c: Command, batch: set<Addr>, id: TimerId)
    requires Sound(s, batch) && Spared(s, id, batch) && c != Cancel(id)
    ensures Indexed(s)
    ensures var s' := TimerSpec.Run(s, c);
      Spared(s', id, batch) && s'.heap[id.timer] == s.heap[id.timer]
  {
  }

  lemma {:induction false} ScriptSpares(s: Queue, script: seq<Command>, batch: set<Addr>, id: TimerId)
    requires Sound(s, batch) && Spared(s, id, batch) && Cancel(id) !in script
    ensures var s' := RunScript(s, script, batch);
      id.timer in s'.heap && id.timer in s.heap && Spared(s', id, batch) && s'.heap[id.timer] == s.heap[id.timer]
    decreases |script|
  {
    hide Sound;
    if script != [] {
      RunKeeps(s, script[0], batch);
      CommandSpares(s, script[0], batch, id);
      ScriptSpares(TimerSpec.Run(s, script[0]), script[1..], batch, id);
    }
  }

  /** What callback k of a batch does. */
  function ScriptAt(scripts: seq<seq<Command>>, k: nat): seq<Command> {
    if k < |scripts| then scripts[k] else []
  }

  /** One of the first n callbacks cancels `id`. */
  ghost predicate CancelledWithin(scripts: seq<seq<Command>>, n: nat, id: TimerId) {
    exists k :: 0 <= k < n && Cancel(id) in ScriptAt(scripts, k)
  }

  lemma LaterScripts(scripts: seq<seq<Command>>, n: nat, id: TimerId)
    requires n > 0
    ensures CancelledWithin(scripts, n, id) <==>
      Cancel(id) in ScriptOf(scripts) || CancelledWithin(Later(scripts), n - 1, id)
  {
    hide ScriptAt;
    ScriptsShift(scripts);
    if k :| 0 <= k < n && Cancel(id) in ScriptAt(scripts, k) {
      assert k > 0 ==> Cancel(id) in ScriptAt(Later(scripts), k - 1);
    }
    if k :| 0 <= k < n - 1 && Cancel(id) in ScriptAt(Later(scripts), k) {
      assert Cancel(id) in ScriptAt(scripts, k + 1);
    }
  }

  lemma ScriptsShift(scripts: seq<seq<Command>>)
    ensures ScriptOf(scripts) == ScriptAt(scripts, 0)
    ensures forall k: nat {:trigger ScriptAt(scripts, k)} :: k > 0 ==> ScriptAt(Later(scripts), k - 1) == ScriptAt(scripts, k)
    ensures forall k: nat {:trigger ScriptAt(Later(scripts), k)} :: ScriptAt(Later(scripts), k) == ScriptAt(scripts, k + 1)
  {
  }

  lemma {:induction false} BatchSpares(s: Queue, todo: seq<Entry>, scripts: seq<seq<Command>>, now: int, batch: set<Addr>, id: TimerId)
    requires Sound(s, batch) && Spared(s, id, batch)
    requires forall e :: e in todo ==> e.timer in batch
    requires !CancelledWithin(scripts, |todo|, id)
    ensures var s' := RunBatch(s, todo, scripts, now, batch);
      id.timer in s'.heap && id.timer in s.heap && Spared(s', id, batch) && s'.heap[id.timer] == s.heap[id.timer]
    decreases |todo|
  {
    hide Sound, CancelledWithin;
    BatchLive(s, batch);
    if todo != [] {
      LaterScripts(scripts, |todo|, id);
      var fired := Fire(s, todo[0].timer, now);
      SoundElsewhere(s, fired, batch);
      ScriptSpares(fired, ScriptOf(scripts), batch, id);
      var next := RunScript(fired, ScriptOf(scripts), batch);
      BatchSpares(next, todo[1..], Later(scripts), now, batch, id);
    }
  }

  // ---------------------------------------------------------------- a timer that is scheduled when a wakeup starts

  /** What becomes of a timer `t` that no callback cancels: it stays as it is if it is not due; it is
      scheduled an interval from now if it repeats; otherwise it is gone. */
  ghost predicate RunsItsCourse(s': Queue, id: TimerId, t: Timer, now: int) {
    if t.time > now then id in s'.active && id.timer in s'.heap && s'.heap[id.timer] == t
    else if t.Repeat() then
      id in s'.active && id.timer in s'.heap && s'.heap[id.timer] == t.(time := now + t.interval)
    else Dead(s', id.sequence)
  }

  lemma SparedAtOpening(s: Queue, now: int, drained: bool, id: TimerId)
    requires Sound(s, {}) && id in s.active
    ensures Indexed(s) && id.timer in s.heap && s.heap[id.timer].sequence == id.sequence
    ensures Spared(Opened(s, now, drained), id, Batch(Due(s, now)))
    ensures Opened(s, now, drained).heap == s.heap
    ensures id.timer in Batch(Due(s, now)) <==> s.heap[id.timer].time <= now
  {
    OpenedSound(s, now, drained);
    OpenedCalling(s, now, drained);
    var e := Entry(s.heap[id.timer].time, id.timer);
    assert e in s.timers;
    assert e in Due(s, now) <==> e.time <= now;
  }

  lemma SparedThroughReset(s: Queue, s': Queue, id: TimerId, batch: set<Addr>, now: int)
    requires Spared(s, id, batch) && Untouched(s, s', batch)
    requires forall a :: a in batch ==> a in s.heap && Settled(s, s', a, now)
    requires id.timer in batch <==> s.heap[id.timer].time <= now
    ensures RunsItsCourse(s', id, s.heap[id.timer], now)
  {
  }

  lemma SparedElsewhere(s: Queue, s': Queue, id: TimerId, batch: set<Addr>)
    requires s'.heap == s.heap && s'.active == s.active && s'.canceling == s.canceling
    ensures Spared(s, id, batch) ==> Spared(s', id, batch)
  {
  }

  lemma CourseElsewhere(s: Queue, s': Queue, id: TimerId, t: Timer, now: int)
    requires s'.heap == s.heap && s'.active == s.active && s'.num == s.num
    ensures RunsItsCourse(s, id, t, now) ==> RunsItsCourse(s', id, t, now)
  {
  }

  lemma NotCancelledRunsItsCourse(s: Queue, now: int, drained: bool, scripts: seq<seq<Command>>, clock: int, id: TimerId)
    requires Sound(s, {}) && id in s.active && !CancelledWithin(scripts, |Due(s, now)|, id)
    ensures id.timer in s.heap
    ensures RunsItsCourse(HandleRead(s, now, drained, scripts, clock), id, s.heap[id.timer], now)
  {
    hide Sound, Opened, Spared, Settled, Untouched, Due, CancelledWithin, RunsItsCourse;
    var due, batch := Due(s, now), Batch(Due(s, now));
    OpenedSound(s, now, drained);
    SparedAtOpening(s, now, drained, id);
    BatchSpares(Opened(s, now, drained), due, scripts, now, batch, id);
    CalledSince(s, now, drained, scripts);
    var s2 := Called(s, now, drained, scripts);
    SparedElsewhere(RunBatch(Opened(s, now, drained), due, scripts, now, batch), s2, id, batch);
    ResetSettles(s2, due, now);
    BatchLive(s2, batch);
    var s3 := ResetAll(s2, due, now);
    SparedThroughReset(s2, s3, id, batch, now);
    RearmKeeps(s3, clock);
    CourseElsewhere(s3, Rearm(s3, clock), id, s.heap[id.timer], now);
    HandlerIs(s, now, drained, scripts, clock);
  }

  /** A timer scheduled when a wakeup starts is scheduled after it if and only if no callback of the
      wakeup cancels it and it is not due or repeats: then it is as before, or an interval from now.
      If a callback cancels it, before or after it ran, it is gone. */
  lemma WakeupOutcome(s: Queue, now: int, drained: bool, scripts: seq<seq<Command>>, clock: int, id: TimerId)
    requires Sound(s, {}) && id in s.active
    ensures id.timer in s.heap
    ensures var s', t := HandleRead(s, now, drained, scripts, clock), s.heap[id.timer];
      var cancelled := CancelledWithin(scripts, |Due(s, now)|, id);
      && (id in s'.active <==> !cancelled && (t.time > now || t.Repeat()))
      && (cancelled ==> Dead(s', id.sequence))
      && (!cancelled ==> RunsItsCourse(s', id, t, now))
  {
    hide CancelledWithin, Sound, HandleRead;
    SoundLive(s, {});
    SoundLive(HandleRead(s, now, drained, scripts, clock), {});
    LiveOfActive(s, id);
    if CancelledWithin(scripts, |Due(s, now)|, id) {
      var k := CancelledAt(scripts, |Due(s, now)|, id);
      ScheduledThenCancelled(s, now, drained, scripts, clock, id, k, []);
      DeadNotActive(HandleRead(s, now, drained, scripts, clock), id);
    } else {
      NotCancelledRunsItsCourse(s, now, drained, scripts, clock, id);
      DeadNotActive(HandleRead(s, now, drained, scripts, clock), id);
    }
  }

  lemma LiveOfActive(s: Queue, id: TimerId)
    requires Indexed(s) && id in s.active
    ensures id.timer in s.heap && s.heap[id.timer].sequence == id.sequence
  {
  }

  lemma DeadNotActive(s: Queue, id: TimerId)
    requires Indexed(s)
    ensures Dead(s, id.sequence) ==> id !in s.active
  {
  }

  lemma CancelledAt(scripts: seq<seq<Command>>, n: nat, id: TimerId) returns (k: nat)
    requires CancelledWithin(scripts, n, id)
    ensures k < n && k < |scripts| && Cancel(id) in scripts[k]
  {
    k :| 0 <= k < n && Cancel(id) in ScriptAt(scripts, k);
  }

  // ---------------------------------------------------------------- a timer that becomes scheduled during a wakeup

  /** The state inside a batch: before command j of callback k. */
  ghost function Within(s: Queue, todo: seq<Entry>, scripts: seq<seq<Command>>, now: int, batch: set<Addr>, k: nat, j: nat): (m: Queue)
    requires Sound(s, batch) && forall e :: e in todo ==> e.timer in batch
    requires k < |todo| && j <= |ScriptAt(scripts, k)|
    ensures Sound(m, batch)
    decreases k
  {
    ScriptsShift(scripts);
    BatchLive(s, batch);
    var fired := Fire(s, todo[0].timer, now);
    SoundElsewhere(s, fired, batch);
    if k == 0 then RunScript(fired, ScriptOf(scripts)[..j], batch)
    else Within(RunScript(fired, ScriptOf(scripts), batch), todo[1..], Later(scripts), now, batch, k - 1, j)
  }

  /** A command from j of callback k on cancels `id`. */
  ghost predicate CancelledFrom(scripts: seq<seq<Command>>, n: nat, k: nat, j: nat, id: TimerId)
    requires j <= |ScriptAt(scripts, k)|
  {
    Cancel(id) in ScriptAt(scripts, k)[j..] || exists i :: k < i < n && Cancel(id) in ScriptAt(scripts, i)
  }

  lemma CancelledFromShift(scripts: seq<seq<Command>>, n: nat, k: nat, j: nat, id: TimerId)
    requires k < n && j <= |ScriptAt(scripts, k)|
    ensures k == 0 ==> (CancelledFrom(scripts, n, k, j, id) <==>
      Cancel(id) in ScriptOf(scripts)[j..] || CancelledWithin(Later(scripts), n - 1, id))
    ensures k > 0 ==> j <= |ScriptAt(Later(scripts), k - 1)|
    ensures k > 0 ==>
      (CancelledFrom(scripts, n, k, j, id) <==> CancelledFrom(Later(scripts), n - 1, k - 1, j, id))
  {
    hide ScriptAt;
    ScriptsShift(scripts);
    if i :| k < i < n && Cancel(id) in ScriptAt(scripts, i) {
      assert Cancel(id) in ScriptAt(Later(scripts), i - 1);
    }
    if i :| 0 <= i < n - 1 && i >= k && Cancel(id) in ScriptAt(Later(scripts), i) {
      assert Cancel(id) in ScriptAt(scripts, i + 1);
    }
  }

  lemma {:induction false} SplitScript(s: Queue, script: seq<Command>, j: nat, batch: set<Addr>)
    requires Sound(s, batch) && j <= |script|
    ensures RunScript(s, script, batch) == RunScript(RunScript(s, script[..j], batch), script[j..], batch)
    decreases j
  {
    hide Sound;
    if j > 0 {
      RunKeeps(s, script[0], batch);
      SplitScript(TimerSpec.Run(s, script[0]), script[1..], j - 1, batch);
      assert script[..j][1..] == script[1..][..j - 1] && script[1..][j - 1..] == script[j..];
    } else {
      assert script[j..] == script;
    }
  }

  /** Scheduled outside the batch, or dead. */
  ghost predicate Apart(s: Queue, id: TimerId, batch: set<Addr>) {
    id.timer !in batch && (id in s.active || Dead(s, id.sequence))
  }

  /** Such a timer is not run by what is left of the batch. */
  lemma BatchNotFires(s: Queue, todo: seq<Entry>, scripts: seq<seq<Command>>, now: int, batch: set<Addr>, id: TimerId)
    requires Sound(s, batch) && forall e :: e in todo ==> e.timer in batch
    requires Apart(s, id, batch)
    ensures NotFired(s, RunBatch(s, todo, scripts, now, batch), id.sequence)
  {
    hide Sound;
    BatchLive(s, batch);
    BatchSince(s, todo, scripts, now, batch);
    FiringsAt(s, todo, now);
    OtherSequences(s, batch, id);
  }

  lemma OtherSequences(s: Queue, batch: set<Addr>, id: TimerId)
    requires Sound(s, batch) && Apart(s, id, batch)
    ensures forall a :: a in batch ==> a in s.heap && s.heap[a].sequence != id.sequence
  {
  }

  /** What is left of the batch decides: the timer dies if a command left cancels it, and otherwise
      stays as it is. */
  lemma RestDecides(s: Queue, todo: seq<Entry>, scripts: seq<seq<Command>>, now: int, batch: set<Addr>, id: TimerId)
    requires Sound(s, batch) && s.calling && forall e :: e in todo ==> e.timer in batch
    requires Spared(s, id, batch) && id.timer !in batch
    ensures var s' := RunBatch(s, todo, scripts, now, batch);
      if CancelledWithin(scripts, |todo|, id) then Dead(s', id.sequence)
      else id.timer in s.heap && Spared(s', id, batch) && s'.heap[id.timer] == s.heap[id.timer]
  {
    hide Sound, RunBatch, CancelledWithin;
    if CancelledWithin(scripts, |todo|, id) {
      var k := CancelledAt(scripts, |todo|, id);
      BatchDooms(s, todo, scripts, now, batch, id, k);
    } else {
      BatchSpares(s, todo, scripts, now, batch, id);
    }
  }

  /** Scheduled at some point inside a batch, so not in it. */
  lemma ScheduledIsApart(s: Queue, id: TimerId, batch: set<Addr>)
    requires Sound(s, batch) && id in s.active
    ensures id.timer !in batch && Apart(s, id, batch) && Spared(s, id, batch) && Known(s, id, batch)
  {
  }

  lemma DeadThroughBatch(s: Queue, todo: seq<Entry>, scripts: seq<seq<Command>>, now: int, batch: set<Addr>, q: nat)
    requires Sound(s, batch) && Dead(s, q) && forall e :: e in todo ==> e.timer in batch
    ensures Dead(RunBatch(s, todo, scripts, now, batch), q)
  {
    hide Sound;
    BatchSince(s, todo, scripts, now, batch);
    DeadSince(s, RunBatch(s, todo, scripts, now, batch), batch, q);
  }

  /** The rest of the batch after command j of its first callback. */
  lemma FirstCallback(s: Queue, todo: seq<Entry>, scripts: seq<seq<Command>>, now: int, batch: set<Addr>, j: nat, id: TimerId)
    requires Sound(s, batch) && s.calling && forall e :: e in todo ==> e.timer in batch
    requires |todo| > 0 && j <= |ScriptAt(scripts, 0)|
    requires id in Within(s, todo, scripts, now, batch, 0, j).active
    ensures var m, s' := Within(s, todo, scripts, now, batch, 0, j), RunBatch(s, todo, scripts, now, batch);
      && NotFired(m, s', id.sequence)
      && (if CancelledFrom(scripts, |todo|, 0, j, id) then Dead(s', id.sequence)
          else id.timer in m.heap && Spared(s', id, batch) && s'.heap[id.timer] == m.heap[id.timer])
  {
    hide Sound, Spared, Apart, Known, Doomed, CancelledWithin, CancelledFrom, ScriptAt;
    ScriptsShift(scripts);
    BatchLive(s, batch);
    var script, fired := ScriptOf(scripts), Fire(s, todo[0].timer, now);
    SoundElsewhere(s, fired, batch);
    var m := Within(s, todo, scripts, now, batch, 0, j);
    assert m == RunScript(fired, script[..j], batch);
    SplitScript(fired, script, j, batch);
    var next := RunScript(fired, script, batch);
    ScriptSince(fired, script[..j], batch);
    ScheduledIsApart(m, id, batch);
    ScriptSince(m, script[j..], batch);
    ScriptDooms(m, script[j..], batch, id);
    CancelledFromShift(scripts, |todo|, 0, j, id);
    if Cancel(id) in script[j..] {
      DoomedApart(next, id, batch);
      DeadThroughBatch(next, todo[1..], Later(scripts), now, batch, id.sequence);
    } else {
      ScriptSpares(m, script[j..], batch, id);
      SparedApart(next, id, batch);
      RestDecides(next, todo[1..], Later(scripts), now, batch, id);
    }
    BatchNotFires(next, todo[1..], Later(scripts), now, batch, id);
  }

  lemma DoomedApart(s: Queue, id: TimerId, batch: set<Addr>)
    requires Doomed(s, id, batch) && id.timer !in batch
    ensures Dead(s, id.sequence) && Apart(s, id, batch)
  {
  }

  lemma SparedApart(s: Queue, id: TimerId, batch: set<Addr>)
    requires Spared(s, id, batch) && id.timer !in batch
    ensures Apart(s, id, batch)
  {
  }

  lemma {:induction false} AnyCallback(s: Queue, todo: seq<Entry>, scripts: seq<seq<Command>>, now: int, batch: set<Addr>, k: nat, j: nat, id: TimerId)
    requires Sound(s, batch) && s.calling && forall e :: e in todo ==> e.timer in batch
    requires k < |todo| && j <= |ScriptAt(scripts, k)|
    requires id in Within(s, todo, scripts, now, batch, k, j).active
    ensures var m, s' := Within(s, todo, scripts, now, batch, k, j), RunBatch(s, todo, scripts, now, batch);
      && NotFired(m, s', id.sequence)
      && (if CancelledFrom(scripts, |todo|, k, j, id) then Dead(s', id.sequence)
          else id.timer in m.heap && Spared(s', id, batch) && s'.heap[id.timer] == m.heap[id.timer])
    decreases k
  {
    hide Sound, Spared, CancelledFrom, ScriptAt, Dead, NotFired;
    if k == 0 {
      FirstCallback(s, todo, scripts, now, batch, j, id);
    } else {
      ScriptsShift(scripts);
      BatchLive(s, batch);
      var fired := Fire(s, todo[0].timer, now);
      SoundElsewhere(s, fired, batch);
      ScriptSince(fired, ScriptOf(scripts), batch);
      CancelledFromShift(scripts, |todo|, k, j, id);
      var next := RunScript(fired, ScriptOf(scripts), batch);
      AnyCallback(next, todo[1..], Later(scripts), now, batch, k - 1, j, id);
    }
  }

  /** The state inside a wakeup: before command j of callback k. */
  ghost function InCallback(s: Queue, now: int, drained: bool, scripts: seq<seq<Command>>, k: nat, j: nat): (m: Queue)
    requires Sound(s, {}) && k < |Due(s, now)| && j <= |ScriptAt(scripts, k)|
    ensures Sound(m, Batch(Due(s, now)))
  {
    OpenedSound(s, now, drained);
    Within(Opened(s, now, drained), Due(s, now), scripts, now, Batch(Due(s, now)), k, j)
  }

  lemma DeadThroughReset(s: Queue, s': Queue, batch: set<Addr>, now: int, q: nat)
    requires Dead(s, q) && Untouched(s, s', batch)
    requires forall a :: a in batch ==> a in s.heap && Settled(s, s', a, now)
    ensures Dead(s', q)
  {
  }

  lemma ApartThroughReset(s: Queue, s': Queue, batch: set<Addr>, id: TimerId)
    requires Spared(s, id, batch) && id.timer !in batch && Untouched(s, s', batch)
    ensures id in s'.active && id.timer in s'.heap && s'.heap[id.timer] == s.heap[id.timer]
  {
  }

  /** A timer that is scheduled at any point inside a wakeup, perhaps because a callback added it, is
      not run by that wakeup, and is scheduled after it if and only if no command from that point on
      cancels it; otherwise it is gone. */
  lemma CallbackOutcome(s: Queue, now: int, drained: bool, scripts: seq<seq<Command>>, clock: int, k: nat, j: nat, id: TimerId)
    requires Sound(s, {}) && k < |Due(s, now)| && j <= |ScriptAt(scripts, k)|
    requires id in InCallback(s, now, drained, scripts, k, j).active
    ensures var m, s' := InCallback(s, now, drained, scripts, k, j), HandleRead(s, now, drained, scripts, clock);
      var cancelled := CancelledFrom(scripts, |Due(s, now)|, k, j, id);
      && NotFired(m, s', id.sequence)
      && (id in s'.active <==> !cancelled)
      && (cancelled ==> Dead(s', id.sequence))
      && (!cancelled ==> id.timer in m.heap && id.timer in s'.heap && s'.heap[id.timer] == m.heap[id.timer])
  {
    hide Sound, Opened, Spared, Settled, Untouched, Due, CancelledFrom, ScriptAt, Dead;
    var due, batch := Due(s, now), Batch(Due(s, now));
    OpenedSound(s, now, drained);
    OpenedCalling(s, now, drained);
    var m := InCallback(s, now, drained, scripts, k, j);
    ScheduledIsApart(m, id, batch);
    AnyCallback(Opened(s, now, drained), due, scripts, now, batch, k, j, id);
    CalledSince(s, now, drained, scripts);
    var ran, s2 := RunBatch(Opened(s, now, drained), due, scripts, now, batch), Called(s, now, drained, scripts);
    SparedElsewhere(ran, s2, id, batch);
    ResetSettles(s2, due, now);
    BatchLive(s2, batch);
    var s3 := ResetAll(s2, due, now);
    RearmKeeps(s3, clock);
    SoundLive(s3, {});
    ResetLog(s2, s3, batch);
    HandlerIs(s, now, drained, scripts, clock);
    if CancelledFrom(scripts, |due|, k, j, id) {
      DeadElsewhere(ran, s2, id.sequence);
      DeadThroughReset(s2, s3, batch, now, id.sequence);
      DeadElsewhere(s3, Rearm(s3, clock), id.sequence);
      DeadNotActive(s3, id);
    } else {
      ApartThroughReset(s2, s3, batch, id);
    }
  }

  lemma ResetLog(s: Queue, s': Queue, batch: set<Addr>)
    requires Untouched(s, s', batch)
    ensures s'.log == s.log
  {
  }

  lemma DeadElsewhere(s: Queue, s': Queue, q: nat)
    requires s'.heap == s.heap && s'.num == s.num && Dead(s, q)
    ensures Dead(s', q)
  {
  }

  // ---------------------------------------------------------------- a cancel from a callback

  lemma {:induction false} WithinSince(s: Queue, todo: seq<Entry>, scripts: seq<seq<Command>>, now: int, batch: set<Addr>, k: nat, j: nat)
    requires Sound(s, batch) && forall e :: e in todo ==> e.timer in batch
    requires k < |todo| && j <= |ScriptAt(scripts, k)|
    ensures Since(s, Within(s, todo, scripts, now, batch, k, j), batch)
    decreases k
  {
    hide Sound;
    ScriptsShift(scripts);
    BatchLive(s, batch);
    var fired := Fire(s, todo[0].timer, now);
    SoundElsewhere(s, fired, batch);
    if k == 0 {
      ScriptSince(fired, ScriptOf(scripts)[..j], batch);
    } else {
      ScriptSince(fired, ScriptOf(scripts), batch);
      WithinSince(RunScript(fired, ScriptOf(scripts), batch), todo[1..], Later(scripts), now, batch, k - 1, j);
    }
  }

  /** `id` names a live timer that was inserted: it is scheduled, or in the batch. */
  ghost predicate Inserted(s: Queue, id: TimerId) {
    id.timer in s.heap && s.heap[id.timer].sequence == id.sequence && id.timer !in s.pending
  }

  lemma InsertedWhere(m: Queue, id: TimerId, batch: set<Addr>)
    requires Sound(m, batch) && Inserted(m, id)
    ensures id in m.active || id.timer in batch
  {
  }

  lemma BatchWasScheduled(s: Queue, now: int, drained: bool, m: Queue, id: TimerId)
    requires Sound(s, {}) && Since(Opened(s, now, drained), m, Batch(Due(s, now)))
    requires Inserted(m, id) && id.timer in Batch(Due(s, now))
    ensures id in s.active
  {
    OpenedSound(s, now, drained);
  }

  /** Whatever inserted timer a callback cancels, one of the batch, one that was scheduled before, or
      one that a callback of the same wakeup added: it is gone after the wakeup and never runs
      again; and unless it is in the batch it does not run from the cancel on. */
  lemma CancelledInCallback(s: Queue, now: int, drained: bool, scripts: seq<seq<Command>>, clock: int,
                            k: nat, j: nat, id: TimerId, events: seq<Event>)
    requires Sound(s, {}) && k < |Due(s, now)| && j < |ScriptAt(scripts, k)| && ScriptAt(scripts, k)[j] == Cancel(id)
    requires Inserted(InCallback(s, now, drained, scripts, k, j), id)
    ensures var m, s' := InCallback(s, now, drained, scripts, k, j), HandleRead(s, now, drained, scripts, clock);
      && Dead(s', id.sequence) && NotFired(s', RunEvents(s', events), id.sequence)
      && (id.timer !in Batch(Due(s, now)) ==> NotFired(m, s', id.sequence))
  {
    hide Sound, Opened, Due, Dead, NotFired, Inserted, HandleRead, Since;
    var due, batch := Due(s, now), Batch(Due(s, now));
    var m := InCallback(s, now, drained, scripts, k, j);
    InsertedWhere(m, id, batch);
    if id in m.active {
      assert Cancel(id) in ScriptAt(scripts, k)[j..];
      CallbackOutcome(s, now, drained, scripts, clock, k, j, id);
    } else {
      OpenedSound(s, now, drained);
      WithinSince(Opened(s, now, drained), due, scripts, now, batch, k, j);
      BatchWasScheduled(s, now, drained, m, id);
      assert Cancel(id) in ScriptAt(scripts, k);
      WakeupOutcome(s, now, drained, scripts, clock, id);
    }
    DeadForever(HandleRead(s, now, drained, scripts, clock), events, id.sequence);
  }

  // ---------------------------------------------------------------- over whole runs

  /** The event, when it happens in `s`, executes a cancel of `id`. */
  ghost predicate Cancels(s: Queue, e: Event, id: TimerId) {
    match e
    case Do(c) => c == Cancel(id)
    case Wakeup(now, _, scripts, _) => CancelledWithin(scripts, |Due(s, now)|, id)
  }

  ghost predicate CancelledInRun(s: Queue, events: seq<Event>, id: TimerId)
    requires Sound(s, {})
    decreases |events|
  {
    events != [] && (Cancels(s, events[0], id) || CancelledInRun(StepEvent(s, events[0]), events[1..], id))
  }

  /** What a run has made of the timer `id`, which was `t` at its start. */
  ghost predicate Fate(s: Queue, s': Queue, id: TimerId, t: Timer, cancelled: bool) {
    && s.log <= s'.log
    && (id in s'.active <==> !cancelled && (t.Repeat() || NotFired(s, s', id.sequence)))
    && (id in s'.active ==> id.timer in s'.heap && s'.heap[id.timer].interval == t.interval)
    && (id in s'.active && NotFired(s, s', id.sequence) ==> s'.heap[id.timer] == t)
    && (id !in s'.active ==> Dead(s', id.sequence))
  }

  lemma FiresIffDue(s: Queue, now: int, drained: bool, scripts: seq<seq<Command>>, clock: int, id: TimerId)
    requires Sound(s, {}) && id in s.active
    ensures id.timer in s.heap
    ensures var s' := HandleRead(s, now, drained, scripts, clock);
      s.log <= s'.log && (NotFired(s, s', id.sequence) <==> s.heap[id.timer].time > now)
  {
    hide Sound, HandleRead, AfterWakeup, InHand;
    var due, log := Due(s, now), HandleRead(s, now, drained, scripts, clock).log;
    SparedAtOpening(s, now, drained, id);
    OpenedSound(s, now, drained);
    WakeupEffect(s, now, drained, scripts, clock);
    FiringsAt(s, due, now);
    SequencesApart(s, id);
    var e := Entry(s.heap[id.timer].time, id.timer);
    if e in due {
      var i :| 0 <= i < |due| && due[i] == e;
      assert log[|s.log| + i].sequence == id.sequence;
    } else {
      forall i | |s.log| <= i < |log|
        ensures log[i].sequence != id.sequence
      {
        assert log[i] == Firings(s, due, now)[i - |s.log|] && due[i - |s.log|] in due;
      }
    }
  }

  lemma SequencesApart(s: Queue, id: TimerId)
    requires Sound(s, {}) && id in s.active
    ensures id.timer in s.heap && s.heap[id.timer].sequence == id.sequence
    ensures Entry(s.heap[id.timer].time, id.timer) in s.timers
    ensures forall a :: a in s.heap && s.heap[a].sequence == id.sequence ==> a == id.timer
  {
  }

  lemma WakeupFate(s: Queue, now: int, drained: bool, scripts: seq<seq<Command>>, clock: int, id: TimerId)
    requires Sound(s, {}) && id in s.active
    ensures id.timer in s.heap
    ensures Fate(s, HandleRead(s, now, drained, scripts, clock), id, s.heap[id.timer],
                 CancelledWithin(scripts, |Due(s, now)|, id))
  {
    hide Sound, HandleRead, NotFired, CancelledWithin, Due;
    FiresIffDue(s, now, drained, scripts, clock, id);
    WakeupOutcome(s, now, drained, scripts, clock, id);
    SoundLive(HandleRead(s, now, drained, scripts, clock), {});
    LiveUnlessDead(HandleRead(s, now, drained, scripts, clock), id);
  }

  lemma LiveUnlessDead(s: Queue, id: TimerId)
    requires Indexed(s)
    ensures id in s.active ==> id.timer in s.heap
  {
  }

  lemma CommandFate(s: Queue, c: Command, id: TimerId)
    requires Sound(s, {}) && id in s.active
    ensures id.timer in s.heap && Indexed(s)
    ensures Fate(s, TimerSpec.Run(s, c), id, s.heap[id.timer], c == Cancel(id))
  {
    hide TimerSpec.Run;
    LiveOfActive(s, id);
    RunKeeps(s, c, {});
    CommandSince(s, c, {});
    if c == Cancel(id) {
      CancelActiveKills(s, id, {});
      DeadNotActive(TimerSpec.Run(s, c), id);
    } else {
      CommandSpares(s, c, {}, id);
    }
  }

  lemma StepFate(s: Queue, e: Event, id: TimerId)
    requires Sound(s, {}) && id in s.active
    ensures id.timer in s.heap
    ensures Fate(s, StepEvent(s, e), id, s.heap[id.timer], Cancels(s, e, id))
  {
    hide Sound, HandleRead, TimerSpec.Run, Fate, CancelledWithin;
    SoundLive(s, {});
    match e
    case Do(c) => CommandFate(s, c, id);
    case Wakeup(now, drained, scripts, clock) => WakeupFate(s, now, drained, scripts, clock, id);
  }

  lemma FateGoesOn(s: Queue, s1: Queue, s': Queue, id: TimerId, t: Timer, cancelled: bool, later: bool)
    requires Fate(s, s1, id, t, cancelled) && id in s1.active
    requires id.timer in s1.heap && Fate(s1, s', id, s1.heap[id.timer], later)
    ensures Fate(s, s', id, t, cancelled || later)
  {
    FiredBefore(s, s1, s', id.sequence);
  }

  lemma FateSealed(s: Queue, s1: Queue, s': Queue, id: TimerId, t: Timer, cancelled: bool, later: bool)
    requires Fate(s, s1, id, t, cancelled) && id !in s1.active
    requires NotFired(s1, s', id.sequence) && Dead(s', id.sequence) && id !in s'.active
    ensures Fate(s, s', id, t, cancelled || later)
  {
    FiredBefore(s, s1, s', id.sequence);
  }

  lemma FiredBefore(a: Queue, b: Queue, c: Queue, q: nat)
    requires a.log <= b.log && b.log <= c.log
    ensures a.log <= c.log
    ensures NotFired(a, c, q) <==> NotFired(a, b, q) && NotFired(b, c, q)
  {
    assert forall i :: 0 <= i < |b.log| ==> c.log[i] == b.log[i];
  }

  /** No timer is lost, over every run of commands and wakeups.  A repeating timer is scheduled at the
      end of the run if and only if no cancel of it was executed; a one-shot, if and only if
      moreover it did not fire.  What did not fire is as it was, and what is not scheduled is gone
      for good. */
  lemma {:induction false} NoTimerLost(s: Queue, events: seq<Event>, id: TimerId)
    requires Sound(s, {}) && id in s.active
    ensures id.timer in s.heap
    ensures Fate(s, RunEvents(s, events), id, s.heap[id.timer], CancelledInRun(s, events, id))
    decreases |events|
  {
    hide Sound, StepEvent, Cancels, NotFired, Dead;
    SoundLive(s, {});
    LiveOfActive(s, id);
    if events == [] {
      NothingFired(s, id.sequence);
    } else {
      var s1, s' := StepEvent(s, events[0]), RunEvents(s, events);
      var t, cancelled := s.heap[id.timer], Cancels(s, events[0], id);
      StepFate(s, events[0], id);
      if id in s1.active {
        NoTimerLost(s1, events[1..], id);
        FateGoesOn(s, s1, s', id, t, cancelled, CancelledInRun(s1, events[1..], id));
      } else {
        DeadForever(s1, events[1..], id.sequence);
        SoundLive(s', {});
        DeadNotActive(s', id);
        FateSealed(s, s1, s', id, t, cancelled, CancelledInRun(s1, events[1..], id));
      }
    }
  }

  lemma NothingFired(s: Queue, q: nat)
    ensures NotFired(s, s, q)
  {
  }
}
