/** Whole runs of a timer queue: any sequence of commands and wakeups, with callbacks that re-enter
    the queue, starting from any sound state. */
module TimerRuns {
  import opened OrderedSet
  import opened TimerSpec

  datatype Event =
    | Do(command: Command)
    | Wakeup(now: int, drained: bool, scripts: seq<seq<Command>>, clock: int)

  function StepEvent(s: Queue, e: Event): (s': Queue)
    requires Sound(s, {})
    ensures Sound(s', {})
  {
    match e
    case Do(c) => RunKeeps(s, c, {}); TimerSpec.Run(s, c)
    case Wakeup(now, drained, scripts, clock) => HandleRead(s, now, drained, scripts, clock)
  }

  function RunEvents(s: Queue, events: seq<Event>): (s': Queue)
    requires Sound(s, {})
    ensures Sound(s', {})
    decreases |events|
  {
    if events == [] then s else RunEvents(StepEvent(s, events[0]), events[1..])
  }

  // ---------------------------------------------------------------- what a command leaves alone

  /** What commands do to the rest: live timers are the old ones, untouched, or have a sequence
      number drawn since; the batch stays; nothing is fired; what was cancelled stays cancelled. */
  ghost predicate Since(s: Queue, s': Queue, batch: set<Addr>) {
    && s.num <= s'.num
    && (forall a :: a in s'.heap ==> (a in s.heap && s'.heap[a] == s.heap[a]) || s'.heap[a].sequence > s.num)
    && (forall a :: a in batch && a in s.heap ==> a in s'.heap && s'.heap[a] == s.heap[a])
    && s'.calling == s.calling && s.canceling <= s'.canceling
  }

  lemma CommandSince(s: Queue, c: Command, batch: set<Addr>)
    requires Sound(s, batch)
    ensures Since(s, TimerSpec.Run(s, c), batch) && TimerSpec.Run(s, c).log == s.log
  {
  }

  lemma {:induction false} ScriptSince(s: Queue, script: seq<Command>, batch: set<Addr>)
    requires Sound(s, batch)
    ensures Since(s, RunScript(s, script, batch), batch)
    ensures RunScript(s, script, batch).log == s.log
    decreases |script|
  {
    hide Sound;
    if script != [] {
      RunKeeps(s, script[0], batch);
      CommandSince(s, script[0], batch);
      ScriptSince(TimerSpec.Run(s, script[0]), script[1..], batch);
    }
  }

  /** The log entries that a batch adds, in the order of the batch. */
  function Firings(s: Queue, todo: seq<Entry>, now: int): seq<Firing>
    requires forall e :: e in todo ==> e.timer in s.heap
  {
    if todo == [] then []
    else
      var t := s.heap[todo[0].timer];
      [Firing(t.sequence, t.time, now, t.interval)] + Firings(s, todo[1..], now)
  }

  lemma {:induction false} FiringsSame(s: Queue, s': Queue, todo: seq<Entry>, now: int)
    requires forall e :: e in todo ==> e.timer in s.heap && e.timer in s'.heap && s.heap[e.timer] == s'.heap[e.timer]
    ensures Firings(s, todo, now) == Firings(s', todo, now)
    decreases |todo|
  {
    if todo != [] {
      FiringsSame(s, s', todo[1..], now);
    }
  }

  lemma SinceTrans(s: Queue, m: Queue, s': Queue, batch: set<Addr>)
    requires Since(s, m, batch) && Since(m, s', batch)
    ensures Since(s, s', batch)
  {
  }

  lemma FireSince(s: Queue, timer: Addr, now: int, batch: set<Addr>)
    requires Sound(s, batch) && timer in s.heap
    ensures Sound(Fire(s, timer, now), batch) && Since(s, Fire(s, timer, now), batch)
    ensures var t := s.heap[timer];
      Fire(s, timer, now).log == s.log + [Firing(t.sequence, t.time, now, t.interval)]
  {
    FireKeeps(s, timer, now, batch);
  }

  lemma SinceSame(s: Queue, s': Queue, batch: set<Addr>, todo: seq<Entry>)
    requires Sound(s, batch) && Since(s, s', batch) && forall e :: e in todo ==> e.timer in batch
    ensures forall e :: e in todo ==>
      e.timer in s.heap && e.timer in s'.heap && s'.heap[e.timer] == s.heap[e.timer]
  {
    BatchLive(s, batch);
  }

  lemma SinceSelf(s: Queue, batch: set<Addr>)
    ensures Since(s, s, batch)
  {
  }

  lemma BatchLive(s: Queue, batch: set<Addr>)
    requires Sound(s, batch)
    ensures forall a :: a in batch ==> a in s.heap
  {
  }

  /** Whatever the callbacks do, a batch runs each of its timers once, in its order, and nothing
      else; and the timers of the batch stay as they were until `reset`. */
  lemma {:induction false} BatchSince(s: Queue, todo: seq<Entry>, scripts: seq<seq<Command>>, now: int, batch: set<Addr>)
    requires Sound(s, batch) && forall e :: e in todo ==> e.timer in batch
    ensures forall a :: a in batch ==> a in s.heap
    ensures var s' := RunBatch(s, todo, scripts, now, batch);
      Since(s, s', batch) && s'.log == s.log + Firings(s, todo, now)
    decreases |todo|
  {
    hide Sound, Since, Fire, RunScript;
    BatchLive(s, batch);
    if todo == [] {
      SinceSelf(s, batch);
    } else {
      FireNext(s, todo[0].timer, ScriptOf(scripts), now, batch);
      var next := RunScript(Fire(s, todo[0].timer, now), ScriptOf(scripts), batch);
      BatchSince(next, todo[1..], Later(scripts), now, batch);
      SinceTrans(s, next, RunBatch(s, todo, scripts, now, batch), batch);
      SinceSame(s, next, batch, todo[1..]);
      FiringsSame(s, next, todo[1..], now);
    }
  }

  lemma FireNext(s: Queue, timer: Addr, script: seq<Command>, now: int, batch: set<Addr>)
    requires Sound(s, batch) && timer in batch && timer in s.heap
    ensures Sound(Fire(s, timer, now), batch)
    ensures var next, t := RunScript(Fire(s, timer, now), script, batch), s.heap[timer];
      && Sound(next, batch) && Since(s, next, batch)
      && next.log == s.log + [Firing(t.sequence, t.time, now, t.interval)]
  {
    hide Sound, Since, Fire, RunScript;
    var fired := Fire(s, timer, now);
    FireSince(s, timer, now, batch);
    ScriptSince(fired, script, batch);
    SinceTrans(s, fired, RunScript(fired, script, batch), batch);
  }

  // ---------------------------------------------------------------- what reset does to the batch

  /** No live timer has sequence number q, and none will be given it. */
  ghost predicate Dead(s: Queue, q: nat) {
    q <= s.num && forall a :: a in s.heap ==> s.heap[a].sequence != q
  }

  ghost predicate KeptOn(s: Queue, timer: Addr)
    requires timer in s.heap
  {
    s.heap[timer].Repeat() && TimerId(timer, s.heap[timer].sequence) !in s.canceling
  }

  /** A timer of the batch is restarted if it repeats and was not cancelled; otherwise it is gone,
      for good. */
  ghost predicate Settled(s: Queue, s': Queue, timer: Addr, now: int)
    requires timer in s.heap
  {
    var t := s.heap[timer];
    if KeptOn(s, timer) then timer in s'.heap && s'.heap[timer] == t.(time := now + t.interval) && InIndex(s', timer)
    else timer !in s'.heap && Dead(s', t.sequence)
  }

  /** `reset` touches nothing but the timers `touched`. */
  ghost predicate Untouched(s: Queue, s': Queue, touched: set<Addr>) {
    && s'.num == s.num && s'.canceling == s.canceling && s'.log == s.log
    && (forall a :: a !in touched ==> (a in s'.heap <==> a in s.heap))
    && (forall a :: a in s'.heap && a !in touched ==> s'.heap[a] == s.heap[a])
    && s.active <= s'.active
  }

  lemma ResetOneSettles(s: Queue, timer: Addr, now: int, batch: set<Addr>)
    requires Sound(s, batch) && timer in batch
    ensures timer in s.heap
    ensures Settled(s, ResetOne(s, timer, now), timer, now)
    ensures Untouched(s, ResetOne(s, timer, now), {timer})
  {
  }

  lemma {:induction false} ResetSettles(s: Queue, expired: seq<Entry>, now: int)
    requires Sound(s, Batch(expired))
    requires forall i, j :: 0 <= i < j < |expired| ==> expired[i].timer != expired[j].timer
    ensures forall a :: a in Batch(expired) ==> a in s.heap
    ensures forall a :: a in Batch(expired) ==> Settled(s, ResetAll(s, expired, now), a, now)
    ensures Untouched(s, ResetAll(s, expired, now), Batch(expired))
    decreases |expired|
  {
    hide Sound, Settled, ResetOne;
    BatchLive(s, Batch(expired));
    if expired != [] {
      BatchTail(expired);
      var first, rest := expired[0].timer, Batch(expired[1..]);
      ResetOneKeeps(s, first, now, Batch(expired));
      ResetOneSettles(s, first, now, Batch(expired));
      var s1 := ResetOne(s, first, now);
      var s' := ResetAll(s1, expired[1..], now);
      ResetSettles(s1, expired[1..], now);
      SettledAfter(s, s1, s', first, rest, now);
      forall a | a in rest
        ensures Settled(s, s', a, now)
      {
        SettledBefore(s, s1, s', first, a, now);
      }
    }
  }

  lemma SettledAfter(s: Queue, s1: Queue, s': Queue, first: Addr, rest: set<Addr>, now: int)
    requires first in s.heap && first !in rest
    requires forall a :: a in rest ==> a in s1.heap
    requires Settled(s, s1, first, now) && Untouched(s1, s', rest)
    requires forall a :: a in rest ==> Settled(s1, s', a, now)
    ensures Settled(s, s', first, now)
  {
  }

  lemma SettledBefore(s: Queue, s1: Queue, s': Queue, first: Addr, a: Addr, now: int)
    requires a in s.heap && a in s1.heap && a != first
    requires Untouched(s, s1, {first}) && Settled(s1, s', a, now)
    ensures Settled(s, s', a, now)
  {
  }

  // ---------------------------------------------------------------- one wakeup

  /** The timers that a handler reading `now` takes out: the due ones, in order of deadline. */
  function Due(s: Queue, now: int): seq<Entry> {
    s.timers[..OrderedSet.Expired(s.timers, now)]
  }

  /** The state in which the handler starts to run callbacks. */
  function Opened(s: Queue, now: int, drained: bool): Queue
    requires Indexed(s)
  {
    var read := s.(fd := if drained then Idle else s.fd);
    assert Indexed(read);
    GetExpired(read, now).0.(calling := true, canceling := {})
  }

  lemma OpenedSound(s: Queue, now: int, drained: bool)
    requires Sound(s, {})
    ensures Indexed(s)
    ensures var s1, due := Opened(s, now, drained), Due(s, now);
      && Sound(s1, Batch(due)) && InHand(s1, due) && Sorted(due)
      && s1.heap == s.heap && s1.num == s.num && s1.log == s.log
      && (forall e :: e in s.timers ==> (e in due <==> e.time <= now))
      && (forall e :: e in due ==> e in s.timers && e.timer in s.heap && s.heap[e.timer].time == e.time)
      && InHand(s, due)
  {
    var read := s.(fd := if drained then Idle else s.fd);
    HandlerSound(s, read, now);
    SoundElsewhere(s, read, {});
    GetExpiredKeeps(read, now);
    DueMembers(s.timers, OrderedSet.Expired(s.timers, now));
  }

  lemma DueMembers(es: seq<Entry>, n: nat)
    requires n <= |es|
    ensures forall e :: e in es[..n] ==> e in es
  {
  }

  /** What is left of a live timer that was there before a wakeup, and what is new. */
  ghost predicate AfterWakeup(s: Queue, s': Queue, batch: set<Addr>, now: int) {
    && s.num <= s'.num
    && (forall a :: a in s'.heap ==>
          || s'.heap[a].sequence > s.num
          || (a in s.heap && a !in batch && s'.heap[a] == s.heap[a])
          || (a in s.heap && a in batch && s.heap[a].Repeat()
              && s'.heap[a] == s.heap[a].(time := now + s.heap[a].interval)))
    && (forall a :: a in batch && a in s.heap ==>
          || Dead(s', s.heap[a].sequence)
          || (s.heap[a].Repeat() && a in s'.heap && s'.heap[a] == s.heap[a].(time := now + s.heap[a].interval)))
  }

  /** The state after the callbacks, and after `reset` dealt with the batch. */
  function Called(s: Queue, now: int, drained: bool, scripts: seq<seq<Command>>): Queue
    requires Sound(s, {})
  {
    OpenedSound(s, now, drained);
    RunBatch(Opened(s, now, drained), Due(s, now), scripts, now, Batch(Due(s, now))).(calling := false)
  }

  lemma CalledSince(s: Queue, now: int, drained: bool, scripts: seq<seq<Command>>)
    requires Sound(s, {})
    ensures Indexed(s) && forall e :: e in Due(s, now) ==> e.timer in s.heap
    ensures var s2, due := Called(s, now, drained, scripts), Due(s, now);
      && Sound(s2, Batch(due))
      && (forall i, j :: 0 <= i < j < |due| ==> due[i].timer != due[j].timer)
      && Since(Opened(s, now, drained), s2.(calling := true), Batch(due))
      && s2.log == s.log + Firings(s, due, now)
  {
    hide Sound, Opened;
    OpenedSound(s, now, drained);
    var s1, due := Opened(s, now, drained), Due(s, now);
    BatchLive(s1, Batch(due));
    BatchSince(s1, due, scripts, now, Batch(due));
    var s2 := RunBatch(s1, due, scripts, now, Batch(due));
    SoundElsewhere(s2, s2.(calling := false), Batch(due));
    FiringsSame(s, s1, due, now);
    OpenedCalling(s, now, drained);
    assert s2.(calling := false).(calling := true) == s2;
  }

  lemma OpenedCalling(s: Queue, now: int, drained: bool)
    requires Indexed(s)
    ensures Opened(s, now, drained).calling && Opened(s, now, drained).canceling == {}
  {
  }

  lemma WakeupEffect(s: Queue, now: int, drained: bool, scripts: seq<seq<Command>>, clock: int)
    requires Sound(s, {})
    ensures Indexed(s) && forall e :: e in Due(s, now) ==> e.timer in s.heap
    ensures var s' := HandleRead(s, now, drained, scripts, clock);
      && s'.log == s.log + Firings(s, Due(s, now), now)
      && AfterWakeup(s, s', Batch(Due(s, now)), now)
  {
    hide Sound, Opened, Settled, AfterWakeup, Due, RunBatch, ResetAll;
    OpenedSound(s, now, drained);
    CalledSince(s, now, drained, scripts);
    var due, s2 := Due(s, now), Called(s, now, drained, scripts);
    ResetSettles(s2, due, now);
    var s3 := ResetAll(s2, due, now);
    RearmKeeps(s3, clock);
    BatchLive(Opened(s, now, drained), Batch(due));
    CombineEffects(s, Opened(s, now, drained), s2, s3, Rearm(s3, clock), Batch(due), now);
    HandlerIs(s, now, drained, scripts, clock);
  }

  lemma HandlerIs(s: Queue, now: int, drained: bool, scripts: seq<seq<Command>>, clock: int)
    requires Sound(s, {})
    ensures var due, s2 := Due(s, now), Called(s, now, drained, scripts);
      && Sound(s2, Batch(due)) && Indexed(s2)
      && (forall i, j :: 0 <= i < j < |due| ==> due[i].timer != due[j].timer)
      && Sound(ResetAll(s2, due, now), {}) && Indexed(ResetAll(s2, due, now))
      && HandleRead(s, now, drained, scripts, clock) == Rearm(ResetAll(s2, due, now), clock)
  {
    CalledSince(s, now, drained, scripts);
  }

  lemma CombineEffects(s: Queue, s1: Queue, s2: Queue, s3: Queue, s4: Queue, batch: set<Addr>, now: int)
    requires s1.heap == s.heap && s1.num == s.num
    requires forall a :: a in batch ==> a in s.heap && a in s2.heap && s2.heap[a] == s.heap[a]
    requires s1.num <= s2.num
    requires forall a :: a in s2.heap ==>
      (a in s1.heap && s2.heap[a] == s1.heap[a]) || s2.heap[a].sequence > s1.num
    requires forall a :: a in batch ==> Settled(s2, s3, a, now)
    requires Untouched(s2, s3, batch) && s4.heap == s3.heap && s4.num == s3.num
    ensures AfterWakeup(s, s4, batch, now)
  {
  }

  /** Firing discipline of one wakeup: the callbacks run are those of exactly the timers with
      deadline at most `now`, in order of deadline, each timer once; none that a callback added. */
  lemma FiringDiscipline(s: Queue, now: int, drained: bool, scripts: seq<seq<Command>>, clock: int)
    requires Sound(s, {})
    ensures var due, s' := Due(s, now), HandleRead(s, now, drained, scripts, clock);
      && (forall e :: e in s.timers ==> (e in due <==> e.time <= now))
      && Sorted(due) && (forall i, j :: 0 <= i < j < |due| ==> due[i].time <= due[j].time)
      && |s'.log| == |s.log| + |due| && s'.log[..|s.log|] == s.log
      && (forall i :: 0 <= i < |due| ==>
            && due[i].timer in s.heap
            && s'.log[|s.log| + i].sequence == s.heap[due[i].timer].sequence
            && s'.log[|s.log| + i].deadline == due[i].time && s'.log[|s.log| + i].now == now)
      && (forall i, j :: |s.log| <= i < j < |s'.log| ==> s'.log[i].sequence != s'.log[j].sequence)
  {
    hide Sound, HandleRead, AfterWakeup, Firings, InHand, Due;
    WakeupEffect(s, now, drained, scripts, clock);
    OpenedSound(s, now, drained);
    var due, log := Due(s, now), HandleRead(s, now, drained, scripts, clock).log;
    FiringsAt(s, due, now);
    assert forall i, j :: 0 <= i < j < |due| ==> Less(due[i], due[j]);
    DueSequences(s, due);
    forall i | |s.log| <= i < |log|
      ensures log[i] == Firings(s, due, now)[i - |s.log|] && due[i - |s.log|] in due
    {
    }
  }

  lemma DueSequences(s: Queue, due: seq<Entry>)
    requires Sound(s, {}) && InHand(s, due)
    ensures forall i, j :: 0 <= i < j < |due| ==>
      && due[i] in due && due[j] in due
      && s.heap[due[i].timer].sequence != s.heap[due[j].timer].sequence
  {
  }

  lemma {:induction false} FiringsAt(s: Queue, todo: seq<Entry>, now: int)
    requires forall e :: e in todo ==> e.timer in s.heap
    ensures |Firings(s, todo, now)| == |todo|
    ensures forall i :: 0 <= i < |todo| ==>
      && todo[i] in todo
      && Firings(s, todo, now)[i] == var t := s.heap[todo[i].timer]; Firing(t.sequence, t.time, now, t.interval)
    decreases |todo|
  {
    if todo != [] {
      FiringsAt(s, todo[1..], now);
    }
  }
}