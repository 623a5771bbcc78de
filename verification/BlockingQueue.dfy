/** `BlockingQueue`: a monitor with one mutex and two condition variables, as a transition system
    over any number of threads.  A step is what a thread does between two points at which others
    can interfere; a waiting thread may also wake up spuriously. */
module BlockingQueues {

  type Thread = nat
  type Item = int

  /** Where a thread is in `put` or `take`. */
  datatype Pc =
    | Idle
    | PutTest(x: Item)     // holds the mutex, at the test of the wait loop
    | PutWait(x: Item)     // waits on notFull_, not signalled
    | PutWoken(x: Item)    // signalled, has to get the mutex back
    | PutRoused(x: Item)   // woken by nobody, has to get the mutex back
    | PutPushed            // holds the mutex, pushed, still to notify
    | PutNotified          // holds the mutex, still to unlock
    | TakeTest
    | TakeWait             // waits on notEmpty_, not signalled
    | TakeWoken
    | TakeRoused
    | TakePopped(x: Item)
    | TakeNotified(x: Item)

  predicate HoldsMutex(pc: Pc) {
    pc.PutTest? || pc.PutPushed? || pc.PutNotified? || pc.TakeTest? || pc.TakePopped? || pc.TakeNotified?
  }

  datatype Mutex = Free | HeldBy(thread: Thread)

  datatype State = State(
    queue: seq<Item>,
    maxQueueSize: int,
    mutex: Mutex,
    pcs: map<Thread, Pc>,
    pushed: seq<Item>,     // everything ever pushed, in order
    popped: seq<Item>)     // everything ever popped, in order
  {
    /** `queue_.size() >= maxQueueSize_` compares in size_t: a negative maximum is a huge one. */
    function Limit(): int {
      if maxQueueSize >= 0 then maxQueueSize else maxQueueSize + 0x1_0000_0000_0000_0000
    }

    predicate Full() {
      maxQueueSize != 0 && |queue| >= Limit()
    }

    function Moved(t: Thread, pc: Pc): State {
      this.(pcs := pcs[t := pc])
    }
  }

  /** `signalled` and `woken`: the threads that a notify wakes, at least one if any waits. */
  datatype Step =
    | LockPut(t: Thread, x: Item)
    | TestPut(t: Thread)
    | NotifyNotEmpty(t: Thread, signalled: set<Thread>)
    | UnlockPut(t: Thread)
    | RelockPut(t: Thread)
    | LockTake(t: Thread)
    | TestTake(t: Thread)
    | NotifyNotFull(t: Thread, signalled: set<Thread>)
    | UnlockTake(t: Thread)
    | RelockTake(t: Thread)
    | Spurious(t: Thread)

  // ---------------------------------------------------------------- the steps

  function WaitingConsumers(s: State): set<Thread> {
    set t | t in s.pcs && s.pcs[t].TakeWait?
  }

  function WaitingProducers(s: State): set<Thread> {
    set t | t in s.pcs && s.pcs[t].PutWait?
  }

  predicate Signals(signalled: set<Thread>, waiting: set<Thread>) {
    signalled <= waiting && (waiting != {} ==> signalled != {})
  }

  predicate Enabled(s: State, step: Step) {
    step.t in s.pcs &&
    match step
    case LockPut(t, _) => s.pcs[t].Idle? && s.mutex.Free?
    case TestPut(t) => s.pcs[t].PutTest?
    case NotifyNotEmpty(t, signalled) => s.pcs[t].PutPushed? && Signals(signalled, WaitingConsumers(s))
    case UnlockPut(t) => s.pcs[t].PutNotified?
    case RelockPut(t) => (s.pcs[t].PutWoken? || s.pcs[t].PutRoused?) && s.mutex.Free?
    case LockTake(t) => s.pcs[t].Idle? && s.mutex.Free?
    case TestTake(t) => s.pcs[t].TakeTest?
    case NotifyNotFull(t, signalled) =>
      && s.pcs[t].TakePopped?
      && (if s.maxQueueSize != 0 then Signals(signalled, WaitingProducers(s)) else signalled == {})
    case UnlockTake(t) => s.pcs[t].TakeNotified?
    case RelockTake(t) => (s.pcs[t].TakeWoken? || s.pcs[t].TakeRoused?) && s.mutex.Free?
    case Spurious(t) => s.pcs[t].PutWait? || s.pcs[t].TakeWait?
  }

  function WokenPc(pc: Pc): Pc {
    match pc
    case PutWait(x) => PutWoken(x)
    case TakeWait => TakeWoken
    case _ => pc
  }

  function Wake(pcs: map<Thread, Pc>, signalled: set<Thread>): map<Thread, Pc> {
    map t | t in pcs :: if t in signalled then WokenPc(pcs[t]) else pcs[t]
  }

  function Apply(s: State, step: Step): State
    requires Enabled(s, step)
  {
    match step
    case LockPut(t, x) => s.Moved(t, PutTest(x)).(mutex := HeldBy(t))
    case TestPut(t) =>
      var x := s.pcs[t].x;
      if s.Full() then s.Moved(t, PutWait(x)).(mutex := Free)
      else s.Moved(t, PutPushed).(queue := s.queue + [x], pushed := s.pushed + [x])
    case NotifyNotEmpty(t, signalled) => s.(pcs := Wake(s.pcs, signalled)[t := PutNotified])
    case UnlockPut(t) => s.Moved(t, Idle).(mutex := Free)
    case RelockPut(t) => s.Moved(t, PutTest(s.pcs[t].x)).(mutex := HeldBy(t))
    case LockTake(t) => s.Moved(t, TakeTest).(mutex := HeldBy(t))
    case TestTake(t) =>
      if s.queue == [] then s.Moved(t, TakeWait).(mutex := Free)
      else
        s.Moved(t, TakePopped(s.queue[0])).(queue := s.queue[1..], popped := s.popped + [s.queue[0]])
    case NotifyNotFull(t, signalled) =>
      s.(pcs := Wake(s.pcs, signalled)[t := TakeNotified(s.pcs[t].x)])
    case UnlockTake(t) => s.Moved(t, Idle).(mutex := Free)
    case RelockTake(t) => s.Moved(t, TakeTest).(mutex := HeldBy(t))
    case Spurious(t) => s.Moved(t, if s.pcs[t].PutWait? then PutRoused(s.pcs[t].x) else TakeRoused)
  }

  ghost predicate Run(s: State, steps: seq<Step>, s': State)
    decreases |steps|
  {
    if steps == [] then s == s'
    else Enabled(s, steps[0]) && Run(Apply(s, steps[0]), steps[1..], s')
  }

  // ---------------------------------------------------------------- the invariant

  /** Consumers that were signalled, and the one at the test; one that woke up by itself counts only
      while it is at the test. */
  function AwakeConsumers(s: State): set<Thread> {
    set t | t in s.pcs && Consuming(s.pcs[t])
  }

  function AwakeProducers(s: State): set<Thread> {
    set t | t in s.pcs && Producing(s.pcs[t])
  }

  /** A notify on notEmpty_ is still to come from the thread that holds the mutex. */
  function OwedNotEmpty(s: State): nat {
    if s.mutex.HeldBy? && s.mutex.thread in s.pcs && s.pcs[s.mutex.thread].PutPushed? then 1 else 0
  }

  function OwedNotFull(s: State): nat {
    if s.mutex.HeldBy? && s.mutex.thread in s.pcs && s.pcs[s.mutex.thread].TakePopped? then 1 else 0
  }

  ghost predicate Locking(s: State) {
    && (s.mutex.HeldBy? ==> s.mutex.thread in s.pcs)
    && (forall t :: t in s.pcs ==> (HoldsMutex(s.pcs[t]) <==> s.mutex == HeldBy(t)))
  }

  /** While a consumer waits unsignalled, every item has a consumer coming for it. */
  ghost predicate NoLostItem(s: State) {
    WaitingConsumers(s) != {} ==> |s.queue| <= |AwakeConsumers(s)| + OwedNotEmpty(s)
  }

  /** While a producer waits unsignalled, every free slot has a producer coming for it. */
  ghost predicate NoLostSlot(s: State) {
    WaitingProducers(s) != {} ==>
      s.maxQueueSize != 0 && s.Limit() - |s.queue| <= |AwakeProducers(s)| + OwedNotFull(s)
  }

  ghost predicate Inv(s: State) {
    && Locking(s)
    && NoLostItem(s) && NoLostSlot(s)
    && (s.maxQueueSize != 0 ==> |s.queue| <= s.Limit())
    && s.pushed == s.popped + s.queue
  }

  ghost predicate Initial(s: State) {
    && s.queue == s.pushed == s.popped == [] && s.mutex.Free?
    && -0x8000_0000 <= s.maxQueueSize < 0x8000_0000
    && forall t :: t in s.pcs ==> s.pcs[t].Idle?
  }

  lemma InitialInv(s: State)
    requires Initial(s)
    ensures Inv(s)
  {
    assert WaitingConsumers(s) == {} && WaitingProducers(s) == {};
  }

  // ---------------------------------------------------------------- every step keeps it

  lemma LockingKept(s: State, step: Step)
    requires Locking(s) && Enabled(s, step)
    ensures Locking(Apply(s, step))
  {
  }

  lemma OneMember(a: set<Thread>, b: set<Thread>, t: Thread)
    requires a - {t} == b - {t}
    ensures |b| == |a| + (if t in b then 1 else 0) - (if t in a then 1 else 0)
  {
    assert a == (a - {t}) + (if t in a then {t} else {});
    assert b == (b - {t}) + (if t in b then {t} else {});
  }

  lemma Larger(a: set<Thread>, b: set<Thread>)
    requires a <= b
    ensures |a| <= |b| && (a != b ==> |a| < |b|)
  {
    assert b == a + (b - a);
    if a != b {
      assert b - a != {};
    }
  }

  predicate Consuming(pc: Pc) {
    pc.TakeWoken? || pc.TakeTest?
  }

  predicate Producing(pc: Pc) {
    pc.PutWoken? || pc.PutTest?
  }

  /** One thread moves: how that changes who is awake and who waits. */
  lemma ConsumersAfterMove(s: State, s': State, t: Thread, pc: Pc)
    requires t in s.pcs && s'.pcs == s.pcs[t := pc]
    ensures |AwakeConsumers(s')|
         == |AwakeConsumers(s)| + (if Consuming(pc) then 1 else 0) - (if Consuming(s.pcs[t]) then 1 else 0)
    ensures WaitingConsumers(s') != {} ==> pc.TakeWait? || WaitingConsumers(s) != {}
  {
    OneMember(AwakeConsumers(s), AwakeConsumers(s'), t);
    if WaitingConsumers(s') != {} && !pc.TakeWait? {
      var c :| c in WaitingConsumers(s');
      assert c in WaitingConsumers(s);
    }
  }

  lemma ProducersAfterMove(s: State, s': State, t: Thread, pc: Pc)
    requires t in s.pcs && s'.pcs == s.pcs[t := pc]
    ensures |AwakeProducers(s')|
         == |AwakeProducers(s)| + (if Producing(pc) then 1 else 0) - (if Producing(s.pcs[t]) then 1 else 0)
    ensures WaitingProducers(s') != {} ==> pc.PutWait? || WaitingProducers(s) != {}
  {
    OneMember(AwakeProducers(s), AwakeProducers(s'), t);
    if WaitingProducers(s') != {} && !pc.PutWait? {
      var c :| c in WaitingProducers(s');
      assert c in WaitingProducers(s);
    }
  }

  /** A notify: the signalled threads join those awake on their side; the other side is unmoved. */
  lemma NotifyConsumers(s: State, t: Thread, signalled: set<Thread>)
    requires Enabled(s, NotifyNotEmpty(t, signalled))
    ensures var s' := Apply(s, NotifyNotEmpty(t, signalled));
      && WaitingConsumers(s') <= WaitingConsumers(s)
      && WaitingProducers(s') == WaitingProducers(s) && AwakeProducers(s') == AwakeProducers(s)
      && (WaitingConsumers(s) != {} ==> |AwakeConsumers(s')| > |AwakeConsumers(s)|)
  {
    var s' := Apply(s, NotifyNotEmpty(t, signalled));
    assert WaitingProducers(s') == WaitingProducers(s) && AwakeProducers(s') == AwakeProducers(s);
    assert AwakeConsumers(s') == AwakeConsumers(s) + signalled;
    Larger(AwakeConsumers(s), AwakeConsumers(s'));
    if WaitingConsumers(s) != {} {
      var c :| c in signalled;
      assert c !in AwakeConsumers(s);
    }
  }

  lemma ConsumersUnmoved(s: State, t: Thread, signalled: set<Thread>)
    requires Enabled(s, NotifyNotFull(t, signalled))
    ensures var s' := Apply(s, NotifyNotFull(t, signalled));
      WaitingConsumers(s') == WaitingConsumers(s) && AwakeConsumers(s') == AwakeConsumers(s)
  {
  }

  lemma NotifyProducers(s: State, t: Thread, signalled: set<Thread>)
    requires Enabled(s, NotifyNotFull(t, signalled))
    ensures var s' := Apply(s, NotifyNotFull(t, signalled));
      && WaitingProducers(s') <= WaitingProducers(s)
      && WaitingConsumers(s') == WaitingConsumers(s) && AwakeConsumers(s') == AwakeConsumers(s)
      && |AwakeProducers(s')| >= |AwakeProducers(s)|
      && (WaitingProducers(s) != {} && s.maxQueueSize != 0 ==> |AwakeProducers(s')| > |AwakeProducers(s)|)
  {
    var s' := Apply(s, NotifyNotFull(t, signalled));
    ConsumersUnmoved(s, t, signalled);
    assert AwakeProducers(s') == AwakeProducers(s) + signalled;
    Larger(AwakeProducers(s), AwakeProducers(s'));
    if WaitingProducers(s) != {} && s.maxQueueSize != 0 {
      var c :| c in signalled;
      assert c !in AwakeProducers(s);
    }
  }

  predicate Notifies(step: Step) {
    step.NotifyNotEmpty? || step.NotifyNotFull?
  }

  /** A step that notifies no one moves one thread only. */
  lemma OneMoves(s: State, step: Step) returns (pc: Pc)
    requires Enabled(s, step) && !Notifies(step)
    ensures Apply(s, step).pcs == s.pcs[step.t := pc] && Apply(s, step).pcs[step.t] == pc
  {
    pc := Apply(s, step).pcs[step.t];
  }

  lemma ItemsKept(s: State, step: Step)
    requires Inv(s) && Enabled(s, step) && !Notifies(step)
    ensures NoLostItem(Apply(s, step))
  {
    hide AwakeConsumers, WaitingConsumers, NoLostSlot;
    var pc := OneMoves(s, step);
    ConsumersAfterMove(s, Apply(s, step), step.t, pc);
  }

  lemma SlotsKept(s: State, step: Step)
    requires Inv(s) && Enabled(s, step) && !Notifies(step)
    ensures NoLostSlot(Apply(s, step))
  {
    hide AwakeProducers, WaitingProducers, NoLostItem;
    var pc := OneMoves(s, step);
    ProducersAfterMove(s, Apply(s, step), step.t, pc);
  }

  lemma CountsKept(s: State, step: Step)
    requires Inv(s) && Enabled(s, step)
    ensures NoLostItem(Apply(s, step)) && NoLostSlot(Apply(s, step))
  {
    match step {
      case NotifyNotEmpty(t, signalled) => NotifyConsumers(s, t, signalled);
      case NotifyNotFull(t, signalled) => NotifyProducers(s, t, signalled);
      case _ =>
        ItemsKept(s, step);
        SlotsKept(s, step);
    }
  }

  lemma StepKeepsInv(s: State, step: Step)
    requires Inv(s) && Enabled(s, step)
    ensures Inv(Apply(s, step))
  {
    LockingKept(s, step);
    CountsKept(s, step);
  }

  lemma {:induction false} RunKeepsInv(s: State, steps: seq<Step>, s': State)
    requires Inv(s) && Run(s, steps, s')
    ensures Inv(s') && s'.maxQueueSize == s.maxQueueSize
    decreases |steps|
  {
    if steps != [] {
      StepKeepsInv(s, steps[0]);
      RunKeepsInv(Apply(s, steps[0]), steps[1..], s');
    }
  }

  // ---------------------------------------------------------------- what users rely on

  /** In every reachable state in which the mutex is free: an unsignalled waiting consumer means no
      more items than consumers that were signalled and still have to run, an unsignalled waiting
      producer no more free slots than such producers, threads that woke up by themselves not
      counted; items come out in the order they went in, and never more than the maximum are
      held. */
  lemma NoLostWakeup(s: State, steps: seq<Step>, s': State)
    requires Initial(s) && Run(s, steps, s') && s'.mutex.Free?
    ensures WaitingConsumers(s') != {} ==>
      |s'.queue| <= |set t | t in s'.pcs && s'.pcs[t].TakeWoken?|
    ensures WaitingProducers(s') != {} ==>
      s.maxQueueSize != 0 && s'.Limit() - |s'.queue| <= |set t | t in s'.pcs && s'.pcs[t].PutWoken?|
    ensures s'.pushed == s'.popped + s'.queue
    ensures s.maxQueueSize != 0 ==> |s'.queue| <= s'.Limit()
  {
    InitialInv(s);
    RunKeepsInv(s, steps, s');
    assert AwakeConsumers(s') == set t | t in s'.pcs && s'.pcs[t].TakeWoken?;
    assert AwakeProducers(s') == set t | t in s'.pcs && s'.pcs[t].PutWoken?;
  }

  /** Nothing moves by itself any more: every thread is outside or waits unsignalled. */
  predicate Quiet(s: State) {
    forall t :: t in s.pcs ==> s.pcs[t].Idle? || s.pcs[t].PutWait? || s.pcs[t].TakeWait?
  }

  /** No deadlock.  When all threads are outside or waiting, consumers wait only for an empty queue
      and producers only for a full one, so the two sides never wait at once. */
  lemma NeverBothStuck(s: State, steps: seq<Step>, s': State)
    requires Initial(s) && Run(s, steps, s') && Quiet(s')
    ensures WaitingConsumers(s') != {} ==> s'.queue == []
    ensures WaitingProducers(s') != {} ==> s'.Full() && s'.queue != []
    ensures WaitingConsumers(s') == {} || WaitingProducers(s') == {}
  {
    InitialInv(s);
    RunKeepsInv(s, steps, s');
    assert s'.mutex.Free?;
    NoLostWakeup(s, steps, s');
    assert (set t | t in s'.pcs && s'.pcs[t].TakeWoken?) == {};
    assert (set t | t in s'.pcs && s'.pcs[t].PutWoken?) == {};
  }

  /** And as long as a thread is neither outside nor waiting, some thread can take a step that is
      neither a new call nor a spurious wakeup. */
  lemma SomeoneCanMove(s: State, steps: seq<Step>, s': State) returns (step: Step)
    requires Initial(s) && Run(s, steps, s') && !Quiet(s')
    ensures Enabled(s', step) && !step.LockPut? && !step.LockTake? && !step.Spurious?
  {
    InitialInv(s);
    RunKeepsInv(s, steps, s');
    var t :| t in s'.pcs && !(s'.pcs[t].Idle? || s'.pcs[t].PutWait? || s'.pcs[t].TakeWait?);
    if s'.mutex.HeldBy? {
      t := s'.mutex.thread;
    }
    step := match s'.pcs[t]
      case PutTest(_) => TestPut(t)
      case PutPushed => NotifyNotEmpty(t, WaitingConsumers(s'))
      case PutNotified => UnlockPut(t)
      case PutWoken(_) => RelockPut(t)
      case PutRoused(_) => RelockPut(t)
      case TakeTest => TestTake(t)
      case TakePopped(_) => NotifyNotFull(t, if s'.maxQueueSize != 0 then WaitingProducers(s') else {})
      case TakeNotified(_) => UnlockTake(t)
      case _ => RelockTake(t);
  }

  /** A producer has to wait exactly when a positive maximum is reached; zero is no limit at all, and a
      negative one is a limit only above 2^63 items. */
  lemma WaitsIff(s: State, t: Thread)
    requires -0x8000_0000 <= s.maxQueueSize < 0x8000_0000 && Enabled(s, TestPut(t))
    ensures s.maxQueueSize > 0 ==> (Apply(s, TestPut(t)).pcs[t].PutWait? <==> |s.queue| >= s.maxQueueSize)
    ensures s.maxQueueSize <= 0 && |s.queue| < 0x8000_0000_0000_0000 ==> Apply(s, TestPut(t)).pcs[t].PutPushed?
  {
  }

  function Started(steps: seq<Step>, t: Thread): nat {
    if steps == [] then 0
    else (if (steps[0].LockPut? || steps[0].LockTake?) && steps[0].t == t then 1 else 0) + Started(steps[1..], t)
  }

  function Finished(steps: seq<Step>, t: Thread): nat {
    if steps == [] then 0
    else (if (steps[0].UnlockPut? || steps[0].UnlockTake?) && steps[0].t == t then 1 else 0) + Finished(steps[1..], t)
  }

  function Inside(s: State, t: Thread): nat {
    if t in s.pcs && !s.pcs[t].Idle? then 1 else 0
  }

  lemma StepCalls(s: State, step: Step, t: Thread)
    requires Enabled(s, step)
    ensures Inside(s, t) + (if (step.LockPut? || step.LockTake?) && step.t == t then 1 else 0)
         == Inside(Apply(s, step), t) + (if (step.UnlockPut? || step.UnlockTake?) && step.t == t then 1 else 0)
  {
  }

  /** Each call of `put` and `take` locks the mutex anew once and unlocks it once when it returns. */
  lemma {:induction false} OneReturnPerCall(s: State, steps: seq<Step>, s': State, t: Thread)
    requires Run(s, steps, s')
    ensures Inside(s, t) + Started(steps, t) == Finished(steps, t) + Inside(s', t)
    decreases |steps|
  {
    hide Inside, Apply;
    if steps != [] {
      StepCalls(s, steps[0], t);
      OneReturnPerCall(Apply(s, steps[0]), steps[1..], s', t);
    }
  }

  // ---------------------------------------------------------------- what callers give and get

  datatype Insertion = Insertion(thread: Thread, item: Item)

  /** What one step appends to `queue_`, and for whom. */
  function InsertedBy(s: State, step: Step): seq<Insertion>
    requires Enabled(s, step)
  {
    var s' := Apply(s, step);
    if |s'.queue| > |s.queue| then [Insertion(step.t, s'.queue[|s'.queue| - 1])] else []
  }

  function Insertions(s: State, steps: seq<Step>): seq<Insertion>
    requires Possible(s, steps)
    decreases |steps|
  {
    if steps == [] then [] else InsertedBy(s, steps[0]) + Insertions(Apply(s, steps[0]), steps[1..])
  }

  predicate Possible(s: State, steps: seq<Step>)
    decreases |steps|
  {
    steps == [] || (Enabled(s, steps[0]) && Possible(Apply(s, steps[0]), steps[1..]))
  }

  function Items(insertions: seq<Insertion>): seq<Item> {
    if insertions == [] then [] else [insertions[0].item] + Items(insertions[1..])
  }

  function By(insertions: seq<Insertion>, t: Thread): seq<Item> {
    if insertions == [] then []
    else (if insertions[0].thread == t then [insertions[0].item] else []) + By(insertions[1..], t)
  }

  /** What thread t gave to `put`, call by call. */
  function Given(steps: seq<Step>, t: Thread): seq<Item> {
    if steps == [] then []
    else (if steps[0].LockPut? && steps[0].t == t then [steps[0].x] else []) + Given(steps[1..], t)
  }

  /** What a step returns from `take`. */
  function ReturnedBy(s: State, step: Step): seq<Item>
    requires Enabled(s, step)
  {
    if step.UnlockTake? then [s.pcs[step.t].x] else []
  }

  /** What the calls of `take` returned, in order. */
  function Returned(s: State, steps: seq<Step>): seq<Item>
    requires Possible(s, steps)
    decreases |steps|
  {
    if steps == [] then [] else ReturnedBy(s, steps[0]) + Returned(Apply(s, steps[0]), steps[1..])
  }

  /** The item that is on its way out, in the hands of the thread inside. */
  function Leaving(s: State): seq<Item> {
    if s.mutex.HeldBy? && s.mutex.thread in s.pcs
       && (s.pcs[s.mutex.thread].TakePopped? || s.pcs[s.mutex.thread].TakeNotified?)
    then [s.pcs[s.mutex.thread].x] else []
  }

  /** The item that a thread inside `put` did not insert yet. */
  function Entering(s: State, t: Thread): seq<Item> {
    if t in s.pcs && (s.pcs[t].PutTest? || s.pcs[t].PutWait? || s.pcs[t].PutWoken? || s.pcs[t].PutRoused?)
    then [s.pcs[t].x] else []
  }

  /** What a step takes off the front of `queue_`. */
  function TakenBy(s: State, step: Step): seq<Item>
    requires Enabled(s, step)
  {
    if |Apply(s, step).queue| < |s.queue| then [s.queue[0]] else []
  }

  lemma StepQueues(s: State, step: Step)
    requires Enabled(s, step)
    ensures s.queue + Items(InsertedBy(s, step)) == TakenBy(s, step) + Apply(s, step).queue
  {
    hide Wake;
    if step.TestTake? && s.queue != [] {
      assert s.queue == [s.queue[0]] + s.queue[1..];
    }
  }

  lemma StepLeaves(s: State, step: Step)
    requires Locking(s) && Enabled(s, step)
    ensures Leaving(s) + TakenBy(s, step) == ReturnedBy(s, step) + Leaving(Apply(s, step))
  {
  }

  lemma StepConserves(s: State, step: Step)
    requires Locking(s) && Enabled(s, step)
    ensures var s' := Apply(s, step);
      Leaving(s) + s.queue + Items(InsertedBy(s, step)) == ReturnedBy(s, step) + Leaving(s') + s'.queue
  {
    hide Locking, Leaving, InsertedBy, ReturnedBy, TakenBy, Items, Apply;
    StepQueues(s, step);
    StepLeaves(s, step);
    Associate(Leaving(s), s.queue, Items(InsertedBy(s, step)));
    Associate(Leaving(s), TakenBy(s, step), Apply(s, step).queue);
  }

  lemma StepInserts(s: State, step: Step, t: Thread)
    requires Enabled(s, step)
    ensures Entering(s, t) + Given([step], t) == By(InsertedBy(s, step), t) + Entering(Apply(s, step), t)
  {
    assert [step][1..] == [];
  }

  lemma {:induction false} ItemsJoin(a: seq<Insertion>, b: seq<Insertion>)
    ensures Items(a + b) == Items(a) + Items(b)
  {
    if a == [] {
      assert a + b == b;
    } else {
      ItemsJoin(a[1..], b);
      assert (a + b)[1..] == a[1..] + b;
      Associate([a[0].item], Items(a[1..]), Items(b));
    }
  }

  lemma {:induction false} ByJoin(a: seq<Insertion>, b: seq<Insertion>, t: Thread)
    ensures By(a + b, t) == By(a, t) + By(b, t)
  {
    if a == [] {
      assert a + b == b;
    } else {
      ByJoin(a[1..], b, t);
      assert (a + b)[1..] == a[1..] + b;
      Associate(if a[0].thread == t then [a[0].item] else [], By(a[1..], t), By(b, t));
    }
  }

  lemma Associate(a: seq<Item>, b: seq<Item>, c: seq<Item>)
    ensures a + (b + c) == (a + b) + c
  {
  }

  lemma {:induction false} RunConserves(s: State, steps: seq<Step>, s': State)
    requires Locking(s) && Run(s, steps, s')
    ensures Possible(s, steps)
    ensures Leaving(s) + s.queue + Items(Insertions(s, steps)) == Returned(s, steps) + Leaving(s') + s'.queue
    decreases |steps|
  {
    hide Locking, Leaving, InsertedBy, ReturnedBy, Items;
    if steps == [] {
      NoItems(Leaving(s) + s.queue);
    } else {
      var s1 := Apply(s, steps[0]);
      var first, rest := InsertedBy(s, steps[0]), steps[1..];
      LockingKept(s, steps[0]);
      StepConserves(s, steps[0]);
      RunConserves(s1, rest, s');
      ItemsJoin(first, Insertions(s1, rest));
      Regroup(Leaving(s) + s.queue, Items(first), Items(Insertions(s1, rest)),
              ReturnedBy(s, steps[0]), Leaving(s1), s1.queue, Returned(s1, rest), Leaving(s'), s'.queue);
    }
  }

  lemma NoItems(q: seq<Item>)
    ensures q + Items([]) == q && [] + q == q
  {
  }

  lemma Regroup(before: seq<Item>, first: seq<Item>, more: seq<Item>, out: seq<Item>, leaving: seq<Item>, queue: seq<Item>,
                outs: seq<Item>, leaving': seq<Item>, queue': seq<Item>)
    requires before + first == out + leaving + queue && leaving + queue + more == outs + leaving' + queue'
    ensures before + (first + more) == (out + outs) + leaving' + queue'
  {
    assert before + (first + more) == (before + first) + more;
    assert (out + leaving + queue) + more == out + (leaving + queue + more);
    assert out + (outs + leaving' + queue') == (out + outs) + leaving' + queue';
  }

  lemma {:induction false} RunInserts(s: State, steps: seq<Step>, s': State, t: Thread)
    requires Run(s, steps, s')
    ensures Possible(s, steps)
    ensures Entering(s, t) + Given(steps, t) == By(Insertions(s, steps), t) + Entering(s', t)
    decreases |steps|
  {
    hide Entering, InsertedBy, By;
    if steps == [] {
      NothingBy(Entering(s, t), t);
    } else {
      var s1, rest := Apply(s, steps[0]), steps[1..];
      StepInserts(s, steps[0], t);
      RunInserts(s1, rest, s', t);
      ByJoin(InsertedBy(s, steps[0]), Insertions(s1, rest), t);
      GivenFirst(steps, t);
      Rejoin(Entering(s, t), Given([steps[0]], t), Given(rest, t), By(InsertedBy(s, steps[0]), t), Entering(s1, t),
             By(Insertions(s1, rest), t), Entering(s', t));
    }
  }

  lemma Rejoin(waiting: seq<Item>, given: seq<Item>, more: seq<Item>, first: seq<Item>, waiting1: seq<Item>,
               rest: seq<Item>, waiting': seq<Item>)
    requires waiting + given == first + waiting1 && waiting1 + more == rest + waiting'
    ensures waiting + (given + more) == (first + rest) + waiting'
  {
    assert waiting + (given + more) == (waiting + given) + more;
    assert (first + waiting1) + more == first + (waiting1 + more);
    assert first + (rest + waiting') == (first + rest) + waiting';
  }

  lemma NothingBy(q: seq<Item>, t: Thread)
    ensures q + [] == By([], t) + q
  {
  }

  lemma GivenFirst(steps: seq<Step>, t: Thread)
    requires steps != []
    ensures Given(steps, t) == Given([steps[0]], t) + Given(steps[1..], t)
  {
    assert [steps[0]][1..] == [];
  }

  /** First in, first out, over every run of any number of threads.  Read off the calls and the queue alone:
      what was inserted is what the calls of `take` returned, in order, then what is on its way out,
      then what is queued; and what each thread inserted is what it gave to its own calls of `put`,
      each once and in order, but for the one it did not get to insert yet. */
  lemma FirstInFirstOut(s: State, steps: seq<Step>, s': State)
    requires Initial(s) && Run(s, steps, s')
    ensures Possible(s, steps)
    ensures Items(Insertions(s, steps)) == Returned(s, steps) + Leaving(s') + s'.queue
    ensures forall t :: Given(steps, t) == By(Insertions(s, steps), t) + Entering(s', t)
  {
    InitialInv(s);
    RunConserves(s, steps, s');
    assert Leaving(s) + s.queue + Items(Insertions(s, steps)) == Items(Insertions(s, steps));
    forall t
      ensures Given(steps, t) == By(Insertions(s, steps), t) + Entering(s', t)
    {
      RunInserts(s, steps, s', t);
      assert Entering(s, t) == [];
    }
  }
}
