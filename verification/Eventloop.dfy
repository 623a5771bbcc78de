/** The task queue of an event loop, as a transition system: the loop thread goes round poll,
    handlers and tasks, while any number of other threads queue tasks at any point. */
module Eventloops {

  /** Tasks are numbered in the order in which they were queued. */
  type Task = nat

  /** Where the loop thread is. */
  datatype Phase =
    | Before       // loop() was not called yet
    | Polling      // in poll_->wait
    | Handling     // running the handlers of the ready descriptors
    | Testing      // eventHandling_ set, at the test of tasks_.empty()
    | Swapping     // the test found tasks, about to swap
    | Running      // in runTasks, or done with it, eventHandling_ still set

  datatype Loop = Loop(
    phase: Phase,
    tasks: seq<Task>,          // tasks_
    taskings: seq<Task>,       // taken by runTasks and not yet run
    executed: seq<Task>,
    queued: nat,               // how many tasks were ever queued
    own: set<Task>,            // queued by the loop thread since loop() was called
    wakeups: nat,              // the counter of the eventfd
    owed: nat)                 // other threads between wakeup() and addTask()
  {
    /** `eventHandling_` */
    predicate EventHandling() {
      phase.Testing? || phase.Swapping? || phase.Running?
    }

    /** The loop thread runs code that may call `queueInLoop`. */
    predicate InUserCode() {
      phase.Before? || phase.Handling? || phase.Running?
    }
  }

  datatype Step =
    | QueueOwn        // queueInLoop from the loop thread
    | OtherWakes      // queueInLoop from another thread: wakeup() first,
    | OtherAdds       //   addTask() later
    | StartLoop
    | PollReturns     // a ready descriptor, or the timeout
    | DrainWakeup     // wakeupReadCallback
    | EndHandlers
    | TestTasks
    | Swap
    | RunNext
    | EndTasks

  predicate Enabled(s: Loop, step: Step) {
    match step
    case QueueOwn => s.InUserCode()
    case OtherWakes => true
    case OtherAdds => s.owed > 0
    case StartLoop => s.phase.Before?
    case PollReturns => s.phase.Polling?
    case DrainWakeup => s.phase.Handling?
    case EndHandlers => s.phase.Handling?
    case TestTasks => s.phase.Testing?
    case Swap => s.phase.Swapping?
    case RunNext => s.phase.Running? && s.taskings != []
    case EndTasks => s.phase.Running? && s.taskings == []
  }

  function AddTask(s: Loop): Loop {
    s.(tasks := s.tasks + [s.queued], queued := s.queued + 1)
  }

  function Apply(s: Loop, step: Step): Loop
    requires Enabled(s, step)
  {
    match step
    case QueueOwn =>
      var woken := if s.EventHandling() then s.(wakeups := s.wakeups + 1) else s;
      AddTask(woken).(own := if s.phase.Before? then s.own else s.own + {s.queued})
    case OtherWakes => s.(wakeups := s.wakeups + 1, owed := s.owed + 1)
    case OtherAdds => AddTask(s).(owed := s.owed - 1)
    case StartLoop => s.(phase := Polling)
    case PollReturns => s.(phase := Handling)
    case DrainWakeup => s.(wakeups := 0)
    case EndHandlers => s.(phase := Testing)
    case TestTasks => s.(phase := if s.tasks != [] then Swapping else Running)
    case Swap => s.(phase := Running, taskings := s.tasks, tasks := [])
    case RunNext => s.(executed := s.executed + [s.taskings[0]], taskings := s.taskings[1..])
    case EndTasks => s.(phase := Polling)
  }

  ghost predicate Run(s: Loop, steps: seq<Step>, s': Loop)
    decreases |steps|
  {
    if steps == [] then s == s'
    else Enabled(s, steps[0]) && Run(Apply(s, steps[0]), steps[1..], s')
  }

  function FirstTasks(n: nat): seq<Task> {
    seq(n, i => i)
  }

  ghost predicate HasOwn(s: Loop) {
    exists t :: t in s.tasks && t in s.own
  }

  ghost predicate Inv(s: Loop) {
    && s.executed + s.taskings + s.tasks == FirstTasks(s.queued)
    && (!s.phase.Running? ==> s.taskings == [])
    && (s.phase.Before? ==> s.own == {})
    && (forall t :: t in s.own ==> t < s.queued)
    && (HasOwn(s) && (s.phase.Polling? || s.phase.Running?) ==> s.wakeups > 0)
  }

  ghost predicate Initial(s: Loop) {
    s.phase.Before? && |s.tasks| == |s.taskings| == |s.executed| == s.queued == 0 && s.own == {}
  }

  lemma OrderKept(s: Loop, step: Step)
    requires Inv(s) && Enabled(s, step)
    ensures var s' := Apply(s, step);
      s'.executed + s'.taskings + s'.tasks == FirstTasks(s'.queued)
  {
    var s' := Apply(s, step);
    match step
    case QueueOwn =>
      assert s'.executed + s'.taskings + s'.tasks == (s.executed + s.taskings + s.tasks) + [s.queued];
    case OtherAdds =>
      assert s'.executed + s'.taskings + s'.tasks == (s.executed + s.taskings + s.tasks) + [s.queued];
    case Swap =>
      assert s'.executed + s'.taskings + s'.tasks == s.executed + s.taskings + s.tasks;
    case RunNext =>
      assert s.taskings == [s.taskings[0]] + s.taskings[1..];
      assert s'.executed + s'.taskings == s.executed + s.taskings;
    case _ =>
  }

  lemma StepKeepsInv(s: Loop, step: Step)
    requires Inv(s) && Enabled(s, step)
    ensures Inv(Apply(s, step))
  {
    OrderKept(s, step);
    WakeupKept(s, step);
  }

  lemma WakeupKept(s: Loop, step: Step)
    requires Inv(s) && Enabled(s, step)
    ensures var s' := Apply(s, step);
      HasOwn(s') && (s'.phase.Polling? || s'.phase.Running?) ==> s'.wakeups > 0
  {
    hide FirstTasks;
    var s' := Apply(s, step);
    if HasOwn(s') && (s'.phase.Polling? || s'.phase.Running?) && !step.QueueOwn? {
      var t :| t in s'.tasks && t in s'.own;
      assert t in s.tasks && t in s.own;
    }
  }

  lemma {:induction false} RunKeepsInv(s: Loop, steps: seq<Step>, s': Loop)
    requires Inv(s) && Run(s, steps, s')
    ensures Inv(s')
    decreases |steps|
  {
    if steps != [] {
      StepKeepsInv(s, steps[0]);
      RunKeepsInv(Apply(s, steps[0]), steps[1..], s');
    }
  }

  lemma InitialInv(s: Loop)
    requires Initial(s)
    ensures Inv(s)
  {
  }

  /** Under every interleaving: the tasks run so far, then those taken, then those waiting are all
      tasks ever queued, in the order in which they were queued; so each runs at most once, in
      order; and while the loop sleeps in poll on a task that its own thread queued since loop()
      was called, the eventfd is readable, so the poll returns at once. */
  lemma TasksInOrder(s: Loop, steps: seq<Step>, s': Loop)
    requires Initial(s) && Run(s, steps, s')
    ensures s'.executed + s'.taskings + s'.tasks == FirstTasks(s'.queued)
    ensures forall i :: 0 <= i < |s'.executed| ==> s'.executed[i] == i
    ensures s'.phase.Polling? && HasOwn(s') ==> s'.wakeups > 0
  {
    InitialInv(s);
    RunKeepsInv(s, steps, s');
    forall i | 0 <= i < |s'.executed|
      ensures s'.executed[i] == i
    {
      assert s'.executed[i] == (s'.executed + s'.taskings + s'.tasks)[i];
    }
  }

  /** A call of runTasks runs only what it found at the swap: until the next swap, what was run and
      what is left to run of the batch stay the same tasks, whatever is queued meanwhile. */
  lemma {:induction false} BatchIsFixed(s: Loop, steps: seq<Step>, s': Loop)
    requires Inv(s) && Run(s, steps, s') && Swap !in steps
    ensures s'.executed + s'.taskings == s.executed + s.taskings && s.executed <= s'.executed
    decreases |steps|
  {
    if steps != [] {
      var s1 := Apply(s, steps[0]);
      assert steps[0] in steps;
      StepKeepsInv(s, steps[0]);
      BatchIsFixed(s1, steps[1..], s');
      if steps[0].RunNext? {
        assert s1.executed + s1.taskings == s.executed + s.taskings;
      }
    }
  }

  /** A round of the loop clears the queue: whatever is queued and run meanwhile, the tasks that
      wait when the poll returned, or when the handlers are done, are all run before the next poll. */
  lemma {:induction false} RoundRunsAll(s: Loop, steps: seq<Step>, s': Loop)
    requires Inv(s) && Run(s, steps, s') && s'.phase.Polling?
    ensures s.phase.Handling? || s.phase.Testing? || s.phase.Swapping? ==> s.executed + s.tasks <= s'.executed
    ensures s.phase.Running? ==> s.executed + s.taskings <= s'.executed
    ensures s.executed <= s'.executed
    decreases |steps|
  {
    if steps != [] {
      StepKeepsInv(s, steps[0]);
      RoundRunsAll(Apply(s, steps[0]), steps[1..], s');
    }
  }

  function RunMany(n: nat): seq<Step> {
    if n == 0 then [] else [RunNext] + RunMany(n - 1)
  }

  /** What the loop thread does from one poll to the next when nobody else queues anything and n tasks wait. */
  function Round(n: nat): seq<Step> {
    [PollReturns, EndHandlers, TestTasks] + (if n == 0 then [] else [Swap] + RunMany(n)) + [EndTasks]
  }

  lemma {:induction false} BatchCompletes(s: Loop) returns (s': Loop)
    requires s.phase.Running?
    ensures Run(s, RunMany(|s.taskings|) + [EndTasks], s')
    ensures s'.phase.Polling? && s'.executed == s.executed + s.taskings && s'.tasks == s.tasks
    decreases |s.taskings|
  {
    if s.taskings == [] {
      s' := Apply(s, EndTasks);
      assert RunMany(0) + [EndTasks] == [EndTasks];
      assert Run(s', [EndTasks][1..], s');
    } else {
      s' := BatchCompletes(Apply(s, RunNext));
      var steps := RunMany(|s.taskings|) + [EndTasks];
      assert steps[1..] == RunMany(|s.taskings| - 1) + [EndTasks];
      assert s.taskings == [s.taskings[0]] + s.taskings[1..];
    }
  }

  /** The loop comes round: from any poll, its own steps lead to the next poll, with every task that waited
      run, in order, and none left. */
  lemma RoundCompletes(s: Loop) returns (s': Loop)
    requires Inv(s) && s.phase.Polling?
    ensures Run(s, Round(|s.tasks|), s')
    ensures s'.phase.Polling? && s'.executed == s.executed + s.tasks && s'.tasks == []
  {
    var n := |s.tasks|;
    var tested := Apply(Apply(Apply(s, PollReturns), EndHandlers), TestTasks);
    var rest := Round(n)[3..];
    if n == 0 {
      s' := BatchCompletes(tested);
      assert rest == RunMany(0) + [EndTasks];
    } else {
      s' := BatchCompletes(Apply(tested, Swap));
      assert rest[1..] == RunMany(n) + [EndTasks];
    }
    assert Run(tested, rest, s');
    assert Round(n)[1..][1..][1..] == rest;
  }

  /** Queueing by another thread makes the eventfd readable, and so does queueing by the loop thread while
      it runs tasks: until the loop drains it, poll returns at once. */
  lemma {:induction false} WakeupLasts(s: Loop, steps: seq<Step>, s': Loop)
    requires s.wakeups > 0 && Run(s, steps, s') && DrainWakeup !in steps
    ensures s'.wakeups > 0
    decreases |steps|
  {
    if steps != [] {
      assert steps[0] in steps;
      WakeupLasts(Apply(s, steps[0]), steps[1..], s');
    }
  }

  lemma QueueingWakes(s: Loop, step: Step)
    requires Enabled(s, step) && (step.OtherWakes? || (step.QueueOwn? && s.EventHandling()))
    ensures Apply(s, step).wakeups > 0
  {
  }

  /** Every queueing adds one task at the end, that of another thread after it woke the loop; the loop
      thread wakes itself exactly while it runs tasks; and draining empties the eventfd. */
  lemma QueueingAdds(s: Loop, step: Step)
    requires Enabled(s, step)
    ensures Apply(s, step).tasks
         == if step.Swap? then [] else if step.QueueOwn? || step.OtherAdds? then s.tasks + [s.queued] else s.tasks
    ensures step.OtherWakes? ==> Apply(s, step).owed == s.owed + 1 && Enabled(Apply(s, step), OtherAdds)
    ensures Apply(s, step).wakeups
         == if step.DrainWakeup? then 0
            else s.wakeups + if step.OtherWakes? || (step.QueueOwn? && s.EventHandling()) then 1 else 0
    ensures Apply(s, step).own
         == if step.QueueOwn? && !s.phase.Before? then s.own + {s.queued} else s.own
  {
  }

  /** What is queued by the loop thread before loop() is called gets no such wakeup: the first poll
      may sleep on it. */
  lemma EarlyTaskMaySleep(s: Loop)
    requires Initial(s) && s.wakeups == 0
    ensures var s' := Apply(Apply(s, QueueOwn), StartLoop);
      s'.phase.Polling? && s'.tasks != [] && s'.wakeups == 0
  {
  }
}
