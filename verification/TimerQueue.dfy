/** The timer queue itself: its sets, flag and timers, updated in place by each method. */
module TimerQueues {
  import opened OrderedSet
  import opened TimerSpec
  import TimerRuns

  class TimerQueue {
    var timers: seq<Entry>
    var activeTimers: set<TimerId>
    var callingExpiredTimers: bool
    var cancelingTimers: set<TimerId>
    var heap: map<Addr, Timer>        // the live Timer objects
    var num: nat
    var timerfd: TimerFd
    var pending: set<Addr>            // allocated, their insertion queued
    ghost var log: seq<Firing>
    ghost var freed: seq<nat>

    ghost function State(): Queue
      reads this
    {
      Queue(timers, activeTimers, callingExpiredTimers, cancelingTimers, heap, pending, num, timerfd, log, freed)
    }

    constructor ()
      ensures |timers| == |activeTimers| == |heap| == |pending| == |log| == |freed| == 0
      ensures !callingExpiredTimers
    {
      timers, activeTimers, callingExpiredTimers, cancelingTimers := [], {}, false, {};
      heap, num, timerfd := map[], 0, Idle;
      pending, log, freed := {}, [], [];
    }

    /** `new Timer` at an address the allocator returns, with the next sequence number. */
    method NewTimer(timer: Addr, time: int, interval: int) returns (id: TimerId)
      requires timer !in heap
      modifies this
      ensures State() == TimerSpec.NewTimer(old(State()), timer, time, interval)
      ensures id == TimerId(timer, old(num) + 1)
    {
      num := num + 1;
      heap := heap[timer := Timer(time, interval, num)];
      pending := pending + {timer};
      id := TimerId(timer, num);
    }

    method Insert(timer: Addr) returns (earliestChanged: bool)
      requires timer in heap
      modifies this
      ensures State() == InsertTimer(old(State()), timer)
      ensures earliestChanged == EarliestChanged(old(State()), timer)
    {
      earliestChanged := false;
      var when := heap[timer].time;
      if timers == [] || when < timers[0].time {
        earliestChanged := true;
      }
      timers := OrderedSet.Insert(timers, Entry(when, timer));
      activeTimers := activeTimers + {TimerId(timer, heap[timer].sequence)};
    }

    method AddTimerInLoop(timer: Addr, clock: int)
      requires timer in heap
      modifies this
      ensures State() == TimerSpec.AddTimerInLoop(old(State()), timer, clock)
    {
      var earliestChanged := Insert(timer);
      if earliestChanged {
        timerfd := ResetTimerfd(heap[timer].time, clock);
      }
      pending := pending - {timer};
    }

    /** `delete`: only of a live timer. */
    method Delete(timer: Addr)
      requires timer in heap
      modifies this
      ensures State() == TimerSpec.Delete(old(State()), timer)
    {
      freed := freed + [heap[timer].sequence];
      heap := heap - {timer};
    }

    method CancelInLoop(id: TimerId)
      requires Indexed(State())
      modifies this
      ensures State() == TimerSpec.CancelInLoop(old(State()), id)
    {
      if id in activeTimers {
        timers := Erase(timers, Entry(heap[id.timer].time, id.timer));
        Delete(id.timer);
        activeTimers := activeTimers - {id};
      } else if callingExpiredTimers {
        cancelingTimers := cancelingTimers + {id};
      }
    }

    method GetExpired(now: int) returns (expired: seq<Entry>)
      requires Indexed(State())
      modifies this
      ensures State() == TimerSpec.GetExpired(old(State()), now).0
      ensures expired == TimerSpec.GetExpired(old(State()), now).1
    {
      var end := OrderedSet.Expired(timers, now);
      expired := timers[..end];
      ghost var before := timers;
      assert forall e :: e in expired ==> e in before && e.timer in heap;
      timers := timers[end..];
      for i := 0 to |expired|
        modifies this`activeTimers
        invariant activeTimers == old(activeTimers)
          - (set e | e in expired[..i] :: TimerId(e.timer, heap[e.timer].sequence))
      {
        assert expired[i] in expired;
        assert expired[..i + 1] == expired[..i] + [expired[i]];
        activeTimers := activeTimers - {TimerId(expired[i].timer, heap[expired[i].timer].sequence)};
      }
      assert expired[..|expired|] == expired;
    }

    /** One command of a callback, or of code outside the handler. */
    method Execute(c: Command)
      requires Indexed(State())
      modifies this
      ensures State() == TimerSpec.Run(old(State()), c)
    {
      match c
      case New(timer, time, interval) =>
        if timer !in heap {
          var _ := NewTimer(timer, time, interval);
        }
      case AddInLoop(timer, clock) =>
        if timer in pending && timer in heap {
          AddTimerInLoop(timer, clock);
        }
      case Cancel(id) => CancelInLoop(id);
    }

    /** A callback runs: the timer it belongs to must be live. */
    method Fire(timer: Addr, now: int)
      requires timer in heap
      modifies this
      ensures State() == TimerSpec.Fire(old(State()), timer, now)
    {
      var t := heap[timer];
      log := log + [Firing(t.sequence, t.time, now, t.interval)];
    }

    method RunScript(script: seq<Command>, ghost batch: set<Addr>)
      requires Sound(State(), batch)
      modifies this
      ensures State() == TimerSpec.RunScript(old(State()), script, batch)
    {
      hide Sound;
      var i := 0;
      while i < |script|
        invariant 0 <= i <= |script| && Sound(State(), batch)
        invariant TimerSpec.RunScript(State(), script[i..], batch)
               == TimerSpec.RunScript(old(State()), script, batch)
      {
        SoundLive(State(), batch);
        RunKeeps(State(), script[i], batch);
        assert script[i..][0] == script[i] && script[i..][1..] == script[i + 1..];
        Execute(script[i]);
        i := i + 1;
      }
    }

    /** `scripts` says what each callback of the batch does. */
    method HandleRead(now: int, drained: bool, scripts: seq<seq<Command>>, clock: int)
      requires Sound(State(), {})
      modifies this
      ensures Sound(State(), {})
      ensures State() == TimerSpec.HandleRead(old(State()), now, drained, scripts, clock)
    {
      hide Sound, TimerSpec.Fire, TimerSpec.GetExpired, InHand;
      ghost var before := State();
      if drained {
        timerfd := Idle;
      }
      ghost var read := State();
      HandlerSound(before, read, now);
      var expired := GetExpired(now);
      callingExpiredTimers := true;
      cancelingTimers := {};
      ghost var batch := Batch(expired);
      ghost var first := State();
      var i, rest := 0, scripts;
      while i < |expired|
        invariant 0 <= i <= |expired| && Sound(State(), batch)
        invariant forall e :: e in expired[i..] ==> e.timer in batch
        invariant RunBatch(State(), expired[i..], rest, now, batch)
               == RunBatch(first, expired, scripts, now, batch)
      {
        assert expired[i..][0] == expired[i] && expired[i..][1..] == expired[i + 1..];
        TimerRuns.BatchLive(State(), batch);
        assert expired[i] in expired[i..];
        FireKeeps(State(), expired[i].timer, now, batch);
        Fire(expired[i].timer, now);
        RunScript(ScriptOf(rest), batch);
        i, rest := i + 1, Later(rest);
      }
      SoundElsewhere(State(), State().(calling := false), batch);
      callingExpiredTimers := false;
      Reset(expired, now, clock);
    }

    method Reset(expired: seq<Entry>, now: int, clock: int)
      requires Sound(State(), Batch(expired))
      requires forall i, j :: 0 <= i < j < |expired| ==> expired[i].timer != expired[j].timer
      modifies this
      ensures Sound(State(), {})
      ensures State() == Rearm(ResetAll(old(State()), expired, now), clock)
    {
      hide Sound;
      var i := 0;
      while i < |expired|
        invariant 0 <= i <= |expired| && Sound(State(), Batch(expired[i..]))
        invariant ResetAll(State(), expired[i..], now) == ResetAll(old(State()), expired, now)
      {
        var timer := expired[i].timer;
        assert expired[i..][0] == expired[i] && expired[i..][1..] == expired[i + 1..];
        BatchTail(expired[i..]);
        TimerRuns.BatchLive(State(), Batch(expired[i..]));
        ResetOneKeeps(State(), timer, now, Batch(expired[i..]));
        if heap[timer].Repeat() && TimerId(timer, heap[timer].sequence) !in cancelingTimers {
          Restart(timer, now);
          var _ := Insert(timer);
        } else {
          Delete(timer);
        }
        i := i + 1;
      }
      RearmKeeps(State(), clock);
      if timers != [] {
        var nextExpire := heap[timers[0].timer].time;
        if nextExpire > 0 {
          timerfd := ResetTimerfd(nextExpire, clock);
        }
      }
    }

    method Restart(timer: Addr, now: int)
      requires timer in heap
      modifies this
      ensures State() == TimerSpec.Restart(old(State()), timer, now)
    {
      var t := heap[timer];
      heap := heap[timer := t.(time := if t.Repeat() then now + t.interval else 0)];
    }
  }
}
