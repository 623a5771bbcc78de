/** The retry machine of a client connector, with the loop it lives in: timers, queued tasks and the
    poll.  Sockets are numbered in the order of their creation, so that a descriptor which the
    kernel hands out again is another socket. */
module ConnectorSpec {

  const INIT_RETRY_DELAY_MS: nat := 500
  const MAX_RETRY_DELAY_MS: nat := 30000

  type Socket = nat

  datatype States = Disconnected | Connecting | Connected

  /** The errno of `connect`, by the branch it selects. */
  datatype Outcome = Progress | Retryable | Failed

  /** What became of a socket, and whether the poll still watched it then. */
  datatype Fate =
    | Closed(socket: Socket, polled: bool)
    | HandedOver(socket: Socket, polled: bool)

  datatype Handler = NoHandler | HandlerOf(socket: Socket)

  datatype Connector = Connector(
    connect: bool,
    state: States,
    sockfd: Socket,
    retryDelayMs: nat,
    handler: Handler,
    sockets: nat,          // created so far
    polled: set<Socket>,
    fates: seq<Fate>,
    delays: seq<nat>,      // of the retries scheduled since construction or the last restart
    timers: nat,           // retries scheduled and not begun
    starts: nat,           // queued startInLoop
    stops: nat,            // queued stopInLoop
    resets: nat)           // queued resetChannel

  function Min(a: nat, b: nat): nat {
    if a <= b then a else b
  }

  function Close(c: Connector): Connector {
    c.(fates := c.fates + [Closed(c.sockfd, c.sockfd in c.polled)])
  }

  function HandOver(c: Connector): Connector {
    c.(fates := c.fates + [HandedOver(c.sockfd, c.sockfd in c.polled)])
  }

  function BeginConnecting(c: Connector): Connector {
    c.(state := Connecting, handler := HandlerOf(c.sockfd), polled := c.polled + {c.sockfd})
  }

  function Retry(c: Connector): Connector {
    var closed := Close(c).(state := Disconnected);
    if !c.connect then closed
    else closed.(timers := c.timers + 1,
                 delays := c.delays + [c.retryDelayMs],
                 retryDelayMs := Min(c.retryDelayMs * 2, MAX_RETRY_DELAY_MS))
  }

  function Connect(c: Connector, o: Outcome): Connector {
    var created := c.(sockfd := c.sockets, sockets := c.sockets + 1);
    match o
    case Progress => BeginConnecting(created)
    case Retryable => Retry(created)
    case Failed => Close(created)
  }

  function StartInLoop(c: Connector, o: Outcome): Connector {
    if c.connect then Connect(c, o) else c
  }

  function Restart(c: Connector, o: Outcome): Connector {
    StartInLoop(c.(state := Disconnected, retryDelayMs := INIT_RETRY_DELAY_MS, connect := true, delays := []), o)
  }

  function RemoveAndResetChannel(c: Connector): Connector {
    c.(polled := c.polled - {c.sockfd}, resets := c.resets + 1)
  }

  function HandleWrite(c: Connector, err: bool): Connector {
    if !c.state.Connecting? then c
    else
      var removed := RemoveAndResetChannel(c);
      if err then Retry(removed)
      else if c.connect then HandOver(removed.(state := Connected))
      else Close(removed.(state := Connected))
  }

  function HandleError(c: Connector): Connector {
    if c.state.Connecting? then Retry(RemoveAndResetChannel(c)) else c
  }

  function StopInLoop(c: Connector): Connector {
    if c.state.Connecting? then Close(RemoveAndResetChannel(c.(state := Disconnected))) else c
  }

  /** Callbacks of the source run last in their handler, so what they call is a step of its own. */
  datatype Step =
    | Start(inLoop: bool, outcome: Outcome)
    | RunStart(outcome: Outcome)
    | Restarted(outcome: Outcome)
    | TimerFires(outcome: Outcome)
    | Stop
    | RunStop
    | RunReset
    | WriteEvent(err: bool)
    | ErrorEvent

  predicate Enabled(c: Connector, step: Step) {
    match step
    case RunStart(_) => c.starts > 0
    case TimerFires(_) => c.timers > 0
    case RunStop => c.stops > 0
    case RunReset => c.resets > 0
    case _ => true
  }

  function Apply(c: Connector, step: Step): Connector
    requires Enabled(c, step)
  {
    match step
    case Start(inLoop, o) =>
      var wanted := c.(connect := true);
      if inLoop then StartInLoop(wanted, o) else wanted.(starts := c.starts + 1)
    case RunStart(o) => StartInLoop(c.(starts := c.starts - 1), o)
    case Restarted(o) => Restart(c, o)
    case TimerFires(o) => StartInLoop(c.(timers := c.timers - 1), o)
    case Stop => c.(connect := false, stops := c.stops + 1)
    case RunStop => StopInLoop(c.(stops := c.stops - 1))
    case RunReset => c.(handler := NoHandler, resets := c.resets - 1)
    case WriteEvent(err) => HandleWrite(c, err)
    case ErrorEvent => HandleError(c)
  }

  ghost predicate Initial(c: Connector) {
    && !c.connect && c.state.Disconnected? && c.retryDelayMs == INIT_RETRY_DELAY_MS && c.handler.NoHandler?
    && c.sockets == |c.polled| == |c.fates| == |c.delays| == c.timers == c.starts == c.stops == c.resets == 0
  }

  // ---------------------------------------------------------------- back-off

  function Pow2(k: nat): nat {
    if k == 0 then 1 else 2 * Pow2(k - 1)
  }

  /** The wait of the k-th retry. */
  function Delay(k: nat): nat {
    Min(INIT_RETRY_DELAY_MS * Pow2(k), MAX_RETRY_DELAY_MS)
  }

  ghost predicate BackOff(c: Connector) {
    && c.retryDelayMs == Delay(|c.delays|)
    && forall k :: 0 <= k < |c.delays| ==> c.delays[k] == Delay(k)
  }

  lemma NextDelay(k: nat)
    ensures Delay(k + 1) == Min(Delay(k) * 2, MAX_RETRY_DELAY_MS)
    ensures Delay(0) == INIT_RETRY_DELAY_MS
  {
    assert Pow2(0) == 1 && Pow2(k + 1) == 2 * Pow2(k);
  }

  lemma StepBacksOff(c: Connector, step: Step)
    requires BackOff(c) && Enabled(c, step)
    ensures BackOff(Apply(c, step))
  {
    hide Delay;
    NextDelay(|c.delays|);
    NextDelay(0);
  }

  lemma ConnectBacksOff(c: Connector, o: Outcome)
    requires BackOff(c)
    ensures BackOff(Connect(c, o))
  {
    hide Delay;
    NextDelay(|c.delays|);
  }

  ghost predicate Run(c: Connector, steps: seq<Step>, c': Connector)
    decreases |steps|
  {
    if steps == [] then c == c'
    else Enabled(c, steps[0]) && Run(Apply(c, steps[0]), steps[1..], c')
  }

  /** In every run, the k-th retry scheduled since construction or the last restart waits
      min(500 * 2^k, 30000) ms. */
  lemma {:induction false} RetriesBackOff(c: Connector, steps: seq<Step>, c': Connector)
    requires BackOff(c) && Run(c, steps, c')
    ensures forall k :: 0 <= k < |c'.delays| ==>
      c'.delays[k] == Min(INIT_RETRY_DELAY_MS * Pow2(k), MAX_RETRY_DELAY_MS)
    decreases |steps|
  {
    if steps != [] {
      StepBacksOff(c, steps[0]);
      RetriesBackOff(Apply(c, steps[0]), steps[1..], c');
    }
  }

  lemma InitialBacksOff(c: Connector)
    requires Initial(c)
    ensures BackOff(c)
  {
    assert Pow2(0) == 1;
  }

  // ---------------------------------------------------------------- who owns the sockets

  function SocketsOf(fates: seq<Fate>): set<Socket> {
    set f | f in fates :: f.socket
  }

  /** The socket of the attempt under way, if there is one. */
  function Attempt(c: Connector): set<Socket> {
    if c.state.Connecting? then {c.sockfd} else {}
  }

  /** Every socket ever created is either the one of the attempt under way, which alone is in the
      poll, or it was closed or handed over, exactly once, out of the poll. */
  ghost predicate Accounted(c: Connector) {
    && (forall i, j :: 0 <= i < j < |c.fates| ==> c.fates[i].socket != c.fates[j].socket)
    && (forall f :: f in c.fates ==> !f.polled)
    && (forall k: Socket :: k in SocketsOf(c.fates) || k in Attempt(c) <==> k < c.sockets)
    && SocketsOf(c.fates) !! Attempt(c)
    && c.polled == Attempt(c)
  }

  /** At most one of an attempt, a scheduled retry and a queued start is outstanding. */
  ghost predicate Exclusive(c: Connector) {
    |Attempt(c)| + c.timers + c.starts <= 1
  }

  /** A start or restart comes only when no attempt, retry or start is outstanding. */
  ghost predicate Disciplined(c: Connector, step: Step) {
    step.Start? || step.Restarted? ==> |Attempt(c)| + c.timers + c.starts == 0
  }

  lemma FateRecorded(fates: seq<Fate>, f: Fate)
    ensures SocketsOf(fates + [f]) == SocketsOf(fates) + {f.socket}
  {
    assert forall g :: g in fates + [f] <==> g in fates || g == f;
    assert forall g :: g in fates ==> g.socket in SocketsOf(fates);
    assert f in fates + [f];
  }

  /** The socket of a new or an interrupted attempt meets its fate. */
  lemma Settled(before: Connector, after: Connector, f: Fate)
    requires Accounted(before) && after.fates == before.fates + [f] && !f.polled && !after.state.Connecting?
    requires after.polled == before.polled - {f.socket}
    requires || (before.state.Connecting? && f.socket == before.sockfd && after.sockets == before.sockets)
             || (!before.state.Connecting? && f.socket == before.sockets && after.sockets == before.sockets + 1)
    ensures Accounted(after)
  {
    FateRecorded(before.fates, f);
    assert forall g :: g in before.fates ==> g.socket in SocketsOf(before.fates);
  }

  lemma ConnectAccounted(c: Connector, o: Outcome)
    requires Accounted(c) && !c.state.Connecting?
    ensures Accounted(Connect(c, o))
  {
    assert c.sockets !in SocketsOf(c.fates);
    if o.Progress? {
      var c' := Connect(c, o);
      assert SocketsOf(c'.fates) == SocketsOf(c.fates);
    } else {
      Settled(c, Connect(c, o), Closed(c.sockets, false));
    }
  }

  /** The step calls `connect()`. */
  predicate Begins(c: Connector, step: Step) {
    match step
    case Start(inLoop, _) => inLoop
    case RunStart(_) => c.connect
    case TimerFires(_) => c.connect
    case Restarted(_) => true
    case _ => false
  }

  lemma StepAccounted(c: Connector, step: Step)
    requires Accounted(c) && Enabled(c, step) && !(Begins(c, step) && c.state.Connecting?)
    ensures Accounted(Apply(c, step))
  {
    hide Connect;
    match step
    case Start(inLoop, o) =>
      assert Accounted(c.(connect := true));
      if inLoop {
        ConnectAccounted(c.(connect := true), o);
      }
    case RunStart(o) =>
      assert Accounted(c.(starts := c.starts - 1));
      if c.connect {
        ConnectAccounted(c.(starts := c.starts - 1), o);
      }
    case TimerFires(o) =>
      assert Accounted(c.(timers := c.timers - 1));
      if c.connect {
        ConnectAccounted(c.(timers := c.timers - 1), o);
      }
    case Restarted(o) =>
      var again := c.(state := Disconnected, retryDelayMs := INIT_RETRY_DELAY_MS, connect := true, delays := []);
      assert Accounted(again);
      ConnectAccounted(again, o);
    case WriteEvent(err) =>
      if c.state.Connecting? {
        Settled(c, Apply(c, step), if err || !c.connect then Closed(c.sockfd, false) else HandedOver(c.sockfd, false));
      }
    case ErrorEvent =>
      if c.state.Connecting? {
        Settled(c, Apply(c, step), Closed(c.sockfd, false));
      }
    case RunStop =>
      if c.state.Connecting? {
        Settled(c, Apply(c, step), Closed(c.sockfd, false));
      }
    case _ =>
  }

  lemma StopAccounted(c: Connector)
    requires Accounted(c) && BackOff(c)
    ensures Accounted(StopInLoop(c)) && BackOff(StopInLoop(c))
  {
    if c.state.Connecting? {
      Settled(c, StopInLoop(c), Closed(c.sockfd, false));
    }
  }

  /** A step loses a socket exactly when it begins an attempt while another is under way: the
      descriptor of the first is overwritten, never closed and left in the poll. */
  lemma StepAccountedIff(c: Connector, step: Step)
    requires Accounted(c) && Enabled(c, step)
    ensures Accounted(Apply(c, step)) <==> !(Begins(c, step) && c.state.Connecting?)
  {
    if Begins(c, step) && c.state.Connecting? {
      var c' := Apply(c, step);
      assert c.sockfd in Attempt(c);
      assert c.sockfd < c.sockets && c'.sockfd == c.sockets;
      assert c.sockfd in c'.polled && c.sockfd !in Attempt(c');
    } else {
      StepAccounted(c, step);
    }
  }

  /** A new connector reaches such a step with its second call of `start`: the first socket stays in
      the poll, and nothing will ever close it or hand it over. */
  lemma SocketLostReachable(c: Connector)
    requires Initial(c)
    ensures var c' := Apply(Apply(c, Start(true, Progress)), Start(true, Progress));
      !Accounted(c') && c'.sockets == 2 && c'.sockfd == 1 && c'.polled == {0, 1} && c'.fates == []
  {
    hide Accounted;
    InitialAccounted(c);
    StepAccountedIff(c, Start(true, Progress));
    StepAccountedIff(Apply(c, Start(true, Progress)), Start(true, Progress));
  }

  lemma StepExclusive(c: Connector, step: Step)
    requires Exclusive(c) && Enabled(c, step) && Disciplined(c, step)
    ensures Exclusive(Apply(c, step))
    ensures !(Begins(c, step) && c.state.Connecting?)
  {
  }

  ghost predicate DisciplinedRun(c: Connector, steps: seq<Step>, c': Connector)
    decreases |steps|
  {
    if steps == [] then c == c'
    else Enabled(c, steps[0]) && Disciplined(c, steps[0]) && DisciplinedRun(Apply(c, steps[0]), steps[1..], c')
  }

  /** In every run with no start or restart while an attempt, a scheduled retry or a queued start is
      outstanding, no socket is lost: each but the one of the attempt under way was closed or handed
      over, exactly once, after it left the poll. */
  lemma {:induction false} EverySocketSettledOnce(c: Connector, steps: seq<Step>, c': Connector)
    requires Accounted(c) && Exclusive(c) && DisciplinedRun(c, steps, c')
    ensures Accounted(c') && Exclusive(c')
    ensures forall i, j :: 0 <= i < j < |c'.fates| ==> c'.fates[i].socket != c'.fates[j].socket
    ensures forall f :: f in c'.fates ==> !f.polled
    ensures forall k: Socket :: k in SocketsOf(c'.fates) || k in Attempt(c') <==> k < c'.sockets
    decreases |steps|
  {
    hide Apply;
    if steps != [] {
      StepExclusive(c, steps[0]);
      StepAccounted(c, steps[0]);
      EverySocketSettledOnce(Apply(c, steps[0]), steps[1..], c');
    }
  }

  lemma InitialAccounted(c: Connector)
    requires Initial(c)
    ensures Accounted(c) && Exclusive(c)
  {
    assert c.fates == [];
    assert SocketsOf(c.fates) == {};
  }

  lemma ConnectAccountedIff(c: Connector, o: Outcome)
    requires Accounted(c)
    ensures Accounted(Connect(c, o)) <==> !c.state.Connecting?
  {
    if c.state.Connecting? {
      var c' := Connect(c, o);
      assert c.sockfd in Attempt(c) && c.sockfd < c.sockets;
      assert c.sockfd in c'.polled && c.sockfd !in Attempt(c');
    } else {
      ConnectAccounted(c, o);
    }
  }

  /** Once `removeAndResetChannel` took the socket of the attempt out of the poll, closing it and
      handing it over both settle it, and the handler is due to be reset. */
  lemma ChannelLeavesPoll(c: Connector, s: States)
    requires Accounted(c) && c.state.Connecting? && !s.Connecting?
    ensures var removed := RemoveAndResetChannel(c);
      && removed.polled == {} && Enabled(removed, RunReset)
      && Accounted(Close(removed.(state := s))) && Accounted(HandOver(removed.(state := s)))
  {
    hide Accounted;
    var removed := RemoveAndResetChannel(c);
    OnlyAttemptPolled(c);
    Settled(c, Close(removed.(state := s)), Closed(c.sockfd, false));
    Settled(c, HandOver(removed.(state := s)), HandedOver(c.sockfd, false));
  }

  lemma OnlyAttemptPolled(c: Connector)
    requires Accounted(c)
    ensures c.polled == Attempt(c)
  {
  }

  // ---------------------------------------------------------------- what comes of an attempt

  /** The step ends an attempt without a connection, with an error that is tried again. */
  predicate FailsAgain(c: Connector, step: Step) {
    || (c.state.Connecting? && (step == WriteEvent(true) || step == ErrorEvent))
    || (Begins(c, step) && step.outcome.Retryable?)
  }

  /** A socket is handed over exactly when its attempt succeeds and the connector still wants it. */
  lemma HandedOverIff(c: Connector, step: Step)
    requires Enabled(c, step)
    ensures var c' := Apply(c, step);
      && (c'.fates == c.fates + [HandedOver(c.sockfd, false)] <==>
            step == WriteEvent(false) && c.state.Connecting? && c.connect)
      && (c'.state.Connected? && !c.state.Connected? <==> step == WriteEvent(false) && c.state.Connecting?)
  {
    hide Min;
    var c' := Apply(c, step);
    if c'.fates == c.fates + [HandedOver(c.sockfd, false)] {
      assert c'.fates[|c.fates|].HandedOver?;
    }
  }

  /** A retry is scheduled exactly when an attempt fails and the connector still wants it. */
  lemma RetriedIff(c: Connector, step: Step)
    requires Enabled(c, step)
    ensures var begun := if step.TimerFires? then c.timers - 1 else c.timers;
      && begun <= Apply(c, step).timers <= begun + 1
      && (Apply(c, step).timers == begun + 1 <==>
            FailsAgain(c, step) && (c.connect || step.Start? || step.Restarted?))
  {
    hide Min;
  }

  /** After `stop`, and until the next start or restart: no socket is created, none handed over, no
      retry scheduled. */
  lemma {:induction false} StoppedIsQuiet(c: Connector, steps: seq<Step>, c': Connector)
    requires !c.connect && Run(c, steps, c')
    requires forall step :: step in steps ==> !step.Start? && !step.Restarted?
    ensures !c'.connect && c'.sockets == c.sockets && c'.delays == c.delays && c'.timers <= c.timers
    ensures c.fates <= c'.fates && forall i :: |c.fates| <= i < |c'.fates| ==> c'.fates[i].Closed?
    decreases |steps|
  {
    if steps != [] {
      var c1 := Apply(c, steps[0]);
      assert steps[0] in steps;
      StepIsQuiet(c, steps[0]);
      StoppedIsQuiet(c1, steps[1..], c');
    }
  }

  /** So from every state, after a `stop` that no start or restart follows. */
  lemma StopQuiets(c: Connector, steps: seq<Step>, c': Connector)
    requires Run(Apply(c, Stop), steps, c')
    requires forall step :: step in steps ==> !step.Start? && !step.Restarted?
    ensures c'.sockets == c.sockets && c'.delays == c.delays && c'.timers <= c.timers
    ensures c.fates <= c'.fates && forall i :: |c.fates| <= i < |c'.fates| ==> c'.fates[i].Closed?
    ensures forall o, step :: step == RunStart(o) || step == TimerFires(o) ==> !Begins(c', step)
  {
    StoppedIsQuiet(Apply(c, Stop), steps, c');
  }

  /** A start from another thread is carried out: until a `stop`, its task is queued or was run, and
      running it begins an attempt on a new socket. */
  lemma {:induction false} StartIsCarriedOut(c: Connector, steps: seq<Step>, c': Connector, o: Outcome)
    requires c.connect && Run(c, steps, c') && Stop !in steps
    ensures c'.connect
    ensures (forall step :: step in steps ==> !step.RunStart?) ==> c'.starts >= c.starts
    ensures c'.starts > 0 ==> Enabled(c', RunStart(o)) && Begins(c', RunStart(o))
    ensures c'.starts > 0 ==>
      Apply(c', RunStart(o)).sockets == c'.sockets + 1 && Apply(c', RunStart(o)).sockfd == c'.sockets
    decreases |steps|
  {
    if steps == [] {
      if c.starts > 0 {
        StartBegins(c, o);
      }
    } else {
      assert steps[0] in steps;
      StepStaysWanted(c, steps[0]);
      assert forall step :: step in steps[1..] ==> step in steps;
      StartIsCarriedOut(Apply(c, steps[0]), steps[1..], c', o);
    }
  }

  lemma StartBegins(c: Connector, o: Outcome)
    requires c.connect && c.starts > 0
    ensures Enabled(c, RunStart(o)) && Begins(c, RunStart(o))
    ensures Apply(c, RunStart(o)).sockets == c.sockets + 1 && Apply(c, RunStart(o)).sockfd == c.sockets
  {
  }

  lemma StepStaysWanted(c: Connector, step: Step)
    requires c.connect && Enabled(c, step) && !step.Stop?
    ensures Apply(c, step).connect && (!step.RunStart? ==> Apply(c, step).starts >= c.starts)
  {
  }

  /** What `start` and `restart` ask for. */
  lemma StartAsks(c: Connector, o: Outcome)
    ensures var queued := Apply(c, Start(false, o));
      queued.connect && queued.starts == c.starts + 1 && queued.sockets == c.sockets
    ensures Apply(c, Start(true, o)).connect && Apply(c, Start(true, o)).sockets == c.sockets + 1
    ensures Apply(c, Restarted(o)).connect && Apply(c, Restarted(o)).sockets == c.sockets + 1
  {
  }

  /** Whatever is queued or scheduled runs once: a step takes at most its own entry off, and what it adds
      is what it asked for. */
  lemma QueuedRunsOnce(c: Connector, step: Step)
    requires Enabled(c, step)
    ensures var c' := Apply(c, step);
      && c'.starts == c.starts + (match step case Start(false, _) => 1 case RunStart(_) => -1 case _ => 0)
      && c'.stops == c.stops + (match step case Stop => 1 case RunStop => -1 case _ => 0)
      && c'.resets == c.resets + (if step.RunReset? then -1 else if EndsAttempt(c, step) then 1 else 0)
      && (!step.Restarted? ==>
            c'.timers == c.timers + (|c'.delays| - |c.delays|) - (if step.TimerFires? then 1 else 0))
      && (step.Restarted? ==> c'.timers == c.timers + |c'.delays|)
  {
  }

  predicate EndsAttempt(c: Connector, step: Step) {
    c.state.Connecting? && (step.WriteEvent? || step.ErrorEvent? || step.RunStop?)
  }

  /** An attempt that fails for good is given up: its socket is closed at once, nothing is watched or
      scheduled for it, and whatever else goes on is left alone. */
  lemma FailedGivesUp(c: Connector, step: Step)
    requires Enabled(c, step) && Begins(c, step) && step.outcome.Failed?
    ensures var c' := Apply(c, step);
      && c'.fates == c.fates + [Closed(c.sockets, c.sockets in c.polled)] && c'.sockets == c.sockets + 1
      && c'.polled == c.polled && c'.handler == c.handler && c'.timers <= c.timers
      && c'.state == if step.Restarted? then Disconnected else c.state
  {
  }

  /** The queued `stopInLoop` ends an attempt under way: its socket leaves the poll and is closed; it touches
      nothing else. */
  lemma StopEndsAttempt(c: Connector)
    requires Accounted(c) && c.stops > 0
    ensures var c' := Apply(c, RunStop);
      && c'.stops == c.stops - 1 && !c'.state.Connecting? && c'.polled == {}
      && (if c.state.Connecting? then c'.state.Disconnected? && c'.fates == c.fates + [Closed(c.sockfd, false)]
          else c'.state == c.state && c'.fates == c.fates)
      && c'.connect == c.connect && c'.timers == c.timers && c'.starts == c.starts && c'.sockets == c.sockets
  {
    OnlyAttemptPolled(c);
  }

  lemma StepIsQuiet(c: Connector, step: Step)
    requires !c.connect && Enabled(c, step) && !step.Start? && !step.Restarted?
    ensures var c' := Apply(c, step);
      && !c'.connect && c'.sockets == c.sockets && c'.delays == c.delays && c'.timers <= c.timers
      && (c'.fates == c.fates || c'.fates == c.fates + [Closed(c.sockfd, c'.fates[|c'.fates| - 1].polled)])
  {
  }

  // ---------------------------------------------------------------- the handler outlives the poll's use of it

  /** The poll's pointer, if it has one, is to the handler the connector still owns. */
  ghost predicate HandlerAlive(c: Connector) {
    c.state.Connecting? ==> c.handler == HandlerOf(c.sockfd) && c.resets == 0
  }

  /** No attempt gets under way while a `resetChannel` is queued.  Scheduled retries keep to it when
      the loop gets to its tasks within the 500 ms that a retry waits at least. */
  ghost predicate Prompt(c: Connector, step: Step) {
    !(Begins(c, step) && step.outcome.Progress? && c.resets > 0)
  }

  /** A step endangers the handler that the poll points to exactly when it gets an attempt under
      way ahead of a queued `resetChannel`. */
  lemma StepKeepsHandlerIff(c: Connector, step: Step)
    requires HandlerAlive(c) && Enabled(c, step) && !(Begins(c, step) && c.state.Connecting?)
    ensures HandlerAlive(Apply(c, step)) <==> Prompt(c, step)
  {
  }

  ghost predicate PromptRun(c: Connector, steps: seq<Step>, c': Connector)
    decreases |steps|
  {
    if steps == [] then c == c'
    else
      && Enabled(c, steps[0]) && Disciplined(c, steps[0]) && Prompt(c, steps[0])
      && PromptRun(Apply(c, steps[0]), steps[1..], c')
  }

  lemma {:induction false} HandlerOutlivesPoll(c: Connector, steps: seq<Step>, c': Connector)
    requires Accounted(c) && Exclusive(c) && HandlerAlive(c) && PromptRun(c, steps, c')
    ensures forall k :: k in c'.polled ==> c'.handler == HandlerOf(k)
    decreases |steps|
  {
    hide Apply, Prompt, Begins, HandlerAlive;
    if steps == [] {
      PolledHandler(c);
    } else {
      StepExclusive(c, steps[0]);
      StepKeepsHandlerIff(c, steps[0]);
      StepAccounted(c, steps[0]);
      HandlerOutlivesPoll(Apply(c, steps[0]), steps[1..], c');
    }
  }

  lemma PolledHandler(c: Connector)
    requires Accounted(c) && HandlerAlive(c)
    ensures forall k :: k in c.polled ==> c.handler == HandlerOf(k)
  {
  }

  /** And every such step is fatal: when the queued reset runs, it destroys the handler of the new
      attempt, and the poll goes on pointing to it. */
  lemma LateResetKillsHandler(c: Connector, step: Step)
    requires Accounted(c) && Enabled(c, step) && !(Begins(c, step) && c.state.Connecting?)
    requires !Prompt(c, step)
    ensures var begun := Apply(c, step);
      && Enabled(begun, RunReset)
      && var c' := Apply(begun, RunReset); c'.handler.NoHandler? && c'.polled == {c'.sockfd}
  {
    hide Accounted;
    OnlyAttemptPolled(c);
    assert Apply(c, step).polled == {Apply(c, step).sockfd};
  }

  lemma DisciplinedFrom(c: Connector, steps: seq<Step>, k: nat, c': Connector)
    requires k < |steps| && Enabled(c, steps[k]) && Disciplined(c, steps[k])
    requires DisciplinedRun(Apply(c, steps[k]), steps[k + 1..], c')
    ensures DisciplinedRun(c, steps[k..], c')
  {
    hide Apply, Enabled, Disciplined;
    assert steps[k..][1..] == steps[k + 1..];
  }

  /** An attempt is stopped, and the next one started before the loop gets back to its tasks. */
  const STOPPED_AND_STARTED: seq<Step> := [Start(true, Progress), Stop, RunStop, Start(true, Progress)]

  /** So a new connector reaches such a step without any slow handler. */
  lemma LateResetReachable(c: Connector) returns (c': Connector)
    requires Initial(c)
    ensures DisciplinedRun(c, STOPPED_AND_STARTED, c')
    ensures Accounted(c') && c'.state.Connecting? && c'.resets > 0
    ensures Apply(c', RunReset).handler.NoHandler? && Apply(c', RunReset).polled == {c'.sockfd}
  {
    hide Accounted, SocketsOf, Min;
    var steps := STOPPED_AND_STARTED;
    var started := Apply(c, steps[0]);
    var stopping := Apply(started, steps[1]);
    var stopped := Apply(stopping, steps[2]);
    c' := Apply(stopped, steps[3]);
    InitialAccounted(c);
    StepAccounted(c, steps[0]);
    StepAccounted(started, steps[1]);
    StepAccounted(stopping, steps[2]);
    StepAccounted(stopped, steps[3]);
    LateResetKillsHandler(stopped, steps[3]);
    assert DisciplinedRun(c', steps[4..], c');
    DisciplinedFrom(stopped, steps, 3, c');
    DisciplinedFrom(stopping, steps, 2, c');
    DisciplinedFrom(started, steps, 1, c');
    DisciplinedFrom(c, steps, 0, c');
    assert steps[0..] == steps;
  }
}

/** The connector itself. */
module ClientConnectors {
  import opened ConnectorSpec

  class ClientConnector {
    var connect: bool
    var state: States
    var sockfd: Socket
    var retryDelayMs: nat
    var handler: Handler
    ghost var sockets: nat
    ghost var polled: set<Socket>
    ghost var fates: seq<Fate>
    ghost var delays: seq<nat>
    ghost var timers: nat
    ghost var starts: nat
    ghost var stops: nat
    ghost var resets: nat

    ghost function View(): Connector
      reads this
    {
      Connector(connect, state, sockfd, retryDelayMs, handler, sockets, polled, fates, delays, timers,
                starts, stops, resets)
    }

    /** No socket is lost, and the delay is the next one of the back-off. */
    ghost predicate Valid()
      reads this
    {
      Accounted(View()) && BackOff(View())
    }

    constructor ()
      ensures Initial(View()) && Valid()
    {
      connect, state, retryDelayMs, handler := false, Disconnected, INIT_RETRY_DELAY_MS, NoHandler;
      sockets, polled, fates, delays := 0, {}, [], [];
      timers, starts, stops, resets := 0, 0, 0, 0;
      new;
      InitialAccounted(View());
      InitialBacksOff(View());
    }

    /** `created` is the socket the kernel returns.  An attempt begun during another loses that
        one's socket. */
    method Connect(created: Socket, outcome: Outcome)
      requires created == sockets
      modifies this
      ensures View() == ConnectorSpec.Connect(old(View()), outcome)
      ensures old(Valid()) ==> (Valid() <==> old(state) != Connecting)
    {
      hide Accounted, BackOff;
      if Valid() {
        ConnectAccountedIff(View(), outcome);
        ConnectBacksOff(View(), outcome);
      }
      sockfd := created;
      sockets := sockets + 1;
      match outcome
      case Progress => BeginConnecting();
      case Retryable => Retry();
      case Failed => Close();
    }

    method StartInLoop(created: Socket, outcome: Outcome)
      requires created == sockets
      modifies this
      ensures View() == ConnectorSpec.StartInLoop(old(View()), outcome)
      ensures old(Valid()) ==> (Valid() <==> !old(connect && state == Connecting))
    {
      if connect {
        Connect(created, outcome);
      }
    }

    /** `restart`, which forgets an attempt under way. */
    method Restart(created: Socket, outcome: Outcome)
      requires created == sockets
      modifies this
      ensures View() == ConnectorSpec.Restart(old(View()), outcome)
      ensures old(Valid()) ==> (Valid() <==> old(state) != Connecting)
    {
      hide Accounted, BackOff;
      if Valid() {
        StepAccountedIff(View(), Restarted(outcome));
        StepBacksOff(View(), Restarted(outcome));
      }
      state := Disconnected;
      retryDelayMs := INIT_RETRY_DELAY_MS;
      delays := [];
      connect := true;
      StartInLoop(created, outcome);
    }

    method BeginConnecting()
      modifies this
      ensures View() == ConnectorSpec.BeginConnecting(old(View()))
    {
      state := Connecting;
      handler := HandlerOf(sockfd);
      polled := polled + {sockfd};
    }

    method Retry()
      modifies this
      ensures View() == ConnectorSpec.Retry(old(View()))
    {
      Close();
      state := Disconnected;
      if connect {
        timers, delays := timers + 1, delays + [retryDelayMs];
        retryDelayMs := Min(retryDelayMs * 2, MAX_RETRY_DELAY_MS);
      }
    }

    method Close()
      modifies this`fates
      ensures View() == ConnectorSpec.Close(old(View()))
    {
      fates := fates + [Closed(sockfd, sockfd in polled)];
    }

    method RemoveAndResetChannel()
      modifies this
      ensures View() == ConnectorSpec.RemoveAndResetChannel(old(View()))
      ensures old(Valid() && state == Connecting) ==>
        && polled == {} && Enabled(View(), RunReset)
        && Accounted(ConnectorSpec.Close(View().(state := Disconnected)))
        && Accounted(HandOver(View().(state := Connected)))
    {
      hide Accounted, BackOff;
      if Valid() && state == Connecting {
        ChannelLeavesPoll(View(), Disconnected);
        ChannelLeavesPoll(View(), Connected);
      }
      polled := polled - {sockfd};
      resets := resets + 1;
    }

    method HandleWrite(err: bool)
      modifies this
      ensures View() == ConnectorSpec.HandleWrite(old(View()), err)
      ensures old(Valid()) ==> Valid()
    {
      hide Accounted, BackOff;
      if Valid() {
        StepAccounted(View(), WriteEvent(err));
        StepBacksOff(View(), WriteEvent(err));
      }
      if state == Connecting {
        RemoveAndResetChannel();
        if err {
          Retry();
        } else {
          state := Connected;
          if connect {
            fates := fates + [HandedOver(sockfd, sockfd in polled)];
          } else {
            Close();
          }
        }
      }
    }

    method HandleError()
      modifies this
      ensures View() == ConnectorSpec.HandleError(old(View()))
      ensures old(Valid()) ==> Valid()
    {
      hide Accounted, BackOff;
      if Valid() {
        StepAccounted(View(), ErrorEvent);
        StepBacksOff(View(), ErrorEvent);
      }
      if state == Connecting {
        RemoveAndResetChannel();
        Retry();
      }
    }

    method StopInLoop()
      modifies this
      ensures View() == ConnectorSpec.StopInLoop(old(View()))
      ensures old(Valid()) ==> Valid()
    {
      hide Accounted, BackOff;
      if Valid() {
        StopAccounted(View());
      }
      if state == Connecting {
        state := Disconnected;
        RemoveAndResetChannel();
        Close();
      }
    }
  }
}
