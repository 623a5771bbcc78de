/** The idle wheel: a ring of n sets of connection entries.  `push` puts an entry into the current
    set; `onTime` moves on and empties the set it arrives at, which destroys the entries that no
    other set holds and shuts their connections down. */
module TimeWheelSpec {

  type Entry = nat

  /** `window` lists the sets from the current one on, round the ring. */
  datatype Wheel = Wheel(
    window: seq<set<Entry>>,
    pushes: seq<set<Entry>>,      // what was pushed between tick s and the next, for each s
    shut: seq<set<Entry>>)        // whose connections tick s shut down, for each s

  datatype Event = Push(entry: Entry) | OnTime

  function Empty(n: nat): (w: Wheel) {
    Wheel(seq(n, _ => {}), [{}], [{}])
  }

  predicate Holds(sets: seq<set<Entry>>, e: Entry) {
    exists i :: 0 <= i < |sets| && e in sets[i]
  }

  function Rotated(window: seq<set<Entry>>): seq<set<Entry>>
    requires |window| > 0
  {
    window[1..] + [window[0]]
  }

  /** The entries that lose their last holder when the first set of `window` is emptied. */
  function Destroyed(window: seq<set<Entry>>): set<Entry>
    requires |window| > 0
  {
    set e | e in window[0] && !Holds(window[1..], e)
  }

  function Step(w: Wheel, e: Event): Wheel
    requires |w.window| > 0 && |w.pushes| > 0
  {
    match e
    case Push(entry) =>
      w.(window := w.window[0 := w.window[0] + {entry}],
         pushes := w.pushes[|w.pushes| - 1 := w.pushes[|w.pushes| - 1] + {entry}])
    case OnTime =>
      var moved := Rotated(w.window);
      w.(window := moved[0 := {}], pushes := w.pushes + [{}], shut := w.shut + [Destroyed(moved)])
  }

  /** The set that is i places ahead of the current one was last filled n - i ticks ago. */
  ghost predicate Inv(w: Wheel) {
    var n, u := |w.window|, |w.pushes| - 1;
    && n > 0 && u >= 0 && |w.shut| == u + 1
    && w.window[0] == w.pushes[u]
    && (forall i :: 1 <= i < n ==> w.window[i] == if u - n + i >= 0 then w.pushes[u - n + i] else {})
    && (forall t :: 0 <= t <= u ==> ShutAt(w, t, n))
  }

  /** Tick t shut down exactly the entries last pushed n ticks before. */
  ghost predicate ShutAt(w: Wheel, t: nat, n: nat)
    requires t < |w.shut| && t < |w.pushes|
  {
    forall e :: e in w.shut[t] <==> LastPushed(w.pushes, e, t - n, t)
  }

  /** `e` was pushed at tick s and at no tick after that and before `end`. */
  ghost predicate LastPushed(pushes: seq<set<Entry>>, e: Entry, s: int, end: nat)
    requires end < |pushes|
  {
    0 <= s < end && e in pushes[s] && forall r :: s < r < end ==> e !in pushes[r]
  }

  /** What tick t shut down depends only on the pushes before it. */
  lemma ShutStays(w: Wheel, w': Wheel, t: nat, n: nat)
    requires t < |w.shut| <= |w'.shut| && t < |w.pushes| <= |w'.pushes| && ShutAt(w, t, n)
    requires w'.shut[t] == w.shut[t] && forall r :: 0 <= r < t ==> w'.pushes[r] == w.pushes[r]
    ensures ShutAt(w', t, n)
  {
    forall e
      ensures e in w'.shut[t] <==> LastPushed(w'.pushes, e, t - n, t)
    {
    }
  }

  lemma PushKeepsInv(w: Wheel, entry: Entry)
    requires Inv(w)
    ensures Inv(Step(w, Push(entry)))
  {
    var w', u := Step(w, Push(entry)), |w.pushes| - 1;
    forall t | 0 <= t <= u
      ensures ShutAt(w', t, |w.window|)
    {
      ShutStays(w, w', t, |w.window|);
    }
  }

  lemma OnTimeKeepsInv(w: Wheel)
    requires Inv(w)
    ensures Inv(Step(w, OnTime))
  {
    var w', n, u := Step(w, OnTime), |w.window|, |w.pushes| - 1;
    forall i | 1 <= i < n
      ensures w'.window[i] == if u + 1 - n + i >= 0 then w'.pushes[u + 1 - n + i] else {}
    {
    }
    forall t | 0 <= t <= u
      ensures ShutAt(w', t, n)
    {
      ShutStays(w, w', t, n);
    }
    DestroyedIsLastPushed(w);
  }

  lemma DestroyedIsLastPushed(w: Wheel)
    requires Inv(w)
    ensures ShutAt(Step(w, OnTime), |w.pushes|, |w.window|)
  {
    var w', n, u := Step(w, OnTime), |w.window|, |w.pushes| - 1;
    var moved := Rotated(w.window);
    var others: seq<set<Entry>> := moved[1..];
    assert moved[0] == if u + 1 - n >= 0 then w.pushes[u + 1 - n] else {};
    forall e | e in moved[0]
      ensures Holds(others, e) <==> exists r :: u + 1 - n < r <= u && e in w'.pushes[r]
    {
      if Holds(others, e) {
        var i: int :| 0 <= i < n - 1 && e in others[i];
        assert e in w'.pushes[u + 2 - n + i];
      }
      if r :| u + 1 - n < r <= u && e in w'.pushes[r] {
        assert others[r - u - 2 + n] == w.pushes[r];
      }
    }
  }

  lemma StepKeepsInv(w: Wheel, e: Event)
    requires Inv(w)
    ensures Inv(Step(w, e)) && |Step(w, e).window| == |w.window|
  {
    match e
    case Push(entry) => PushKeepsInv(w, entry);
    case OnTime => OnTimeKeepsInv(w);
  }

  function Run(w: Wheel, events: seq<Event>): (w': Wheel)
    requires Inv(w)
    ensures Inv(w') && |w'.window| == |w.window|
    decreases |events|
  {
    if events == [] then w
    else
      StepKeepsInv(w, events[0]);
      Run(Step(w, events[0]), events[1..])
  }

  lemma EmptyInv(n: nat)
    requires n > 0
    ensures Inv(Empty(n))
  {
  }

  /** After any run, with u ticks gone, an entry is held iff it was pushed at some tick s with
      s <= u < s + n; and each tick t shut down exactly the entries last pushed at tick t - n. */
  lemma WindowSlides(w: Wheel, events: seq<Event>)
    requires Inv(w)
    ensures var w', n := Run(w, events), |w.window|;
      var u := |w'.pushes| - 1;
      && (forall e :: Holds(w'.window, e) <==> exists s :: 0 <= s <= u < s + n && e in w'.pushes[s])
      && (forall t, e :: 0 <= t <= u ==> (e in w'.shut[t] <==> LastPushed(w'.pushes, e, t - n, t)))
  {
    var w', n := Run(w, events), |w.window|;
    var u := |w'.pushes| - 1;
    forall e
      ensures Holds(w'.window, e) <==> exists s :: 0 <= s <= u < s + n && e in w'.pushes[s]
    {
      if Holds(w'.window, e) {
        var i: int :| 0 <= i < n && e in w'.window[i];
        assert e in w'.pushes[if i == 0 then u else u - n + i];
      }
      if s :| 0 <= s <= u < s + n && e in w'.pushes[s] {
        assert e in w'.window[if s == u then 0 else s + n - u];
      }
    }
    forall t, e | 0 <= t <= u
      ensures e in w'.shut[t] <==> LastPushed(w'.pushes, e, t - n, t)
    {
      assert ShutAt(w', t, n);
    }
  }

  // ---------------------------------------------------------------- in terms of the events alone

  function Ticks(events: seq<Event>): nat {
    if events == [] then 0 else (if events[0].OnTime? then 1 else 0) + Ticks(events[1..])
  }

  /** The entries pushed after tick s and before the next one. */
  function PushedAt(events: seq<Event>, s: nat): set<Entry> {
    if events == [] then {}
    else match events[0]
      case Push(e) => (if s == 0 then {e} else {}) + PushedAt(events[1..], s)
      case OnTime => if s == 0 then {} else PushedAt(events[1..], s - 1)
  }

  /** What a run adds to the history. */
  lemma {:induction false} HistoryOfRun(w: Wheel, events: seq<Event>)
    requires Inv(w)
    ensures var w', u := Run(w, events), |w.pushes| - 1;
      && |w'.pushes| == |w'.shut| == u + 1 + Ticks(events)
      && (forall s :: 0 <= s < u ==> w'.pushes[s] == w.pushes[s])
      && w'.pushes[u] == w.pushes[u] + PushedAt(events, 0)
      && (forall s :: u < s < |w'.pushes| ==> w'.pushes[s] == PushedAt(events, s - u))
    decreases |events|
  {
    hide Inv, ShutAt, LastPushed, PushedAt;
    Counted(w);
    FirstPush(events);
    if events != [] {
      var w1, rest := Step(w, events[0]), events[1..];
      StepKeepsInv(w, events[0]);
      Counted(w1);
      HistoryOfRun(w1, rest);
      var w', u := Run(w, events), |w.pushes| - 1;
      match events[0]
      case Push(e) =>
        forall s | u < s < |w'.pushes|
          ensures w'.pushes[s] == PushedAt(events, s - u)
        {
          assert PushedAt(events, s - u) == PushedAt(rest, s - u);
        }
      case OnTime =>
        forall s | u < s < |w'.pushes|
          ensures w'.pushes[s] == PushedAt(events, s - u)
        {
          assert PushedAt(events, s - u) == PushedAt(rest, s - u - 1);
        }
    }
  }

  lemma FirstPush(events: seq<Event>)
    ensures events == [] ==> forall s :: PushedAt(events, s) == {}
    ensures events != [] && events[0].Push? ==>
      PushedAt(events, 0) == {events[0].entry} + PushedAt(events[1..], 0)
    ensures events != [] && events[0].Push? ==> forall s :: s > 0 ==> PushedAt(events, s) == PushedAt(events[1..], s)
    ensures events != [] && events[0].OnTime? ==> PushedAt(events, 0) == {}
    ensures events != [] && events[0].OnTime? ==>
      forall s: nat {:trigger PushedAt(events, s)} :: s > 0 ==> PushedAt(events, s) == PushedAt(events[1..], s - 1)
  {
  }

  lemma Counted(w: Wheel)
    requires Inv(w)
    ensures |w.window| > 0 && |w.pushes| > 0 && |w.shut| == |w.pushes|
  {
  }

  predicate WasPushed(events: seq<Event>, e: Entry, s: nat) {
    e in PushedAt(events, s)
  }

  /** `e` was pushed at tick s and at no tick after that and before `end`. */
  ghost predicate LastPushedAt(events: seq<Event>, e: Entry, s: int, end: nat) {
    0 <= s < end && WasPushed(events, e, s) && forall r :: s < r < end ==> !WasPushed(events, e, r)
  }

  lemma HistoryFromEmpty(n: nat, events: seq<Event>)
    requires n > 0
    ensures Inv(Empty(n))
    ensures var w' := Run(Empty(n), events);
      && |w'.pushes| == |w'.shut| == Ticks(events) + 1
      && forall s :: 0 <= s <= Ticks(events) ==> w'.pushes[s] == PushedAt(events, s)
  {
    EmptyInv(n);
    HistoryOfRun(Empty(n), events);
    var w' := Run(Empty(n), events);
    assert w'.pushes[0] == {} + PushedAt(events, 0);
  }

  /** The wheel is a sliding window.  Whatever is pushed and whenever the wheel ticks: after u ticks an
      entry is held iff it was pushed at some tick s with s <= u < s + n; and each tick t shuts down
      exactly the entries last pushed at tick t - n. */
  lemma SlidingWindow(n: nat, events: seq<Event>)
    requires n > 0
    ensures Inv(Empty(n))
    ensures var w', u := Run(Empty(n), events), Ticks(events);
      && (forall e :: Holds(w'.window, e) <==> exists s :: 0 <= s <= u < s + n && WasPushed(events, e, s))
      && |w'.shut| == u + 1
      && (forall t, e :: 0 <= t <= u ==> (e in w'.shut[t] <==> LastPushedAt(events, e, t - n, t)))
  {
    hide Inv, Holds;
    HistoryFromEmpty(n, events);
    WindowSlides(Empty(n), events);
    var w', u := Run(Empty(n), events), Ticks(events);
    assert |Empty(n).window| == n && |w'.pushes| - 1 == u;
    forall e
      ensures Holds(w'.window, e) <==> exists s :: 0 <= s <= u < s + n && WasPushed(events, e, s)
    {
      SameAlive(w'.pushes, events, e, u, n);
    }
    forall t, e | 0 <= t <= u
      ensures e in w'.shut[t] <==> LastPushedAt(events, e, t - n, t)
    {
      SameLast(w'.pushes, events, e, t - n, t);
    }
  }

  lemma SameAlive(pushes: seq<set<Entry>>, events: seq<Event>, e: Entry, u: nat, n: nat)
    requires u + 1 == |pushes| && forall r :: 0 <= r <= u ==> pushes[r] == PushedAt(events, r)
    ensures (exists s :: 0 <= s <= u < s + n && e in pushes[s])
      <==> (exists s :: 0 <= s <= u < s + n && WasPushed(events, e, s))
  {
    if s :| 0 <= s <= u < s + n && e in pushes[s] {
      assert WasPushed(events, e, s);
    }
    if s :| 0 <= s <= u < s + n && WasPushed(events, e, s) {
      assert e in pushes[s];
    }
  }

  lemma SameLast(pushes: seq<set<Entry>>, events: seq<Event>, e: Entry, s: int, end: nat)
    requires end < |pushes| && forall r :: 0 <= r <= end ==> pushes[r] == PushedAt(events, r)
    ensures LastPushed(pushes, e, s, end) <==> LastPushedAt(events, e, s, end)
  {
    assert forall r :: 0 <= r <= end ==> (e in pushes[r] <==> WasPushed(events, e, r));
  }

  /** What a tick records as shut down is what lost its last holder by it. */
  lemma ShutIsReleased(w: Wheel, e: Entry)
    requires Inv(w)
    ensures var w' := Step(w, OnTime);
      e in w'.shut[|w'.shut| - 1] <==> Holds(w.window, e) && !Holds(w'.window, e)
  {
    var w', moved := Step(w, OnTime), Rotated(w.window);
    assert Holds(w.window, e) <==> Holds(moved, e) by {
      RotatedHolds(w.window, e);
    }
    EmptiedHolds(moved, e);
  }

  lemma RotatedHolds(window: seq<set<Entry>>, e: Entry)
    requires |window| > 0
    ensures Holds(Rotated(window), e) <==> Holds(window, e)
  {
    var moved := Rotated(window);
    if i :| 0 <= i < |window| && e in window[i] {
      assert e in moved[if i == 0 then |window| - 1 else i - 1];
    }
    if i :| 0 <= i < |moved| && e in moved[i] {
      assert e in window[if i == |window| - 1 then 0 else i + 1];
    }
  }

  lemma EmptiedHolds(moved: seq<set<Entry>>, e: Entry)
    requires |moved| > 0
    ensures Holds(moved[0 := {}], e) <==> Holds(moved[1..], e)
    ensures Holds(moved, e) <==> e in moved[0] || Holds(moved[1..], e)
  {
    var rest, emptied := moved[1..], moved[0 := {}];
    if i :| 0 <= i < |rest| && e in rest[i] {
      assert e in moved[i + 1] && e in emptied[i + 1];
    }
    if i :| 0 <= i < |emptied| && e in emptied[i] {
      assert e in rest[i - 1];
    }
    if i :| 0 <= i < |moved| && e in moved[i] {
      assert i > 0 ==> e in rest[i - 1];
    }
  }
}

/** The wheel itself: a ring of nodes linked by their `next` pointers. */
module TimeWheels {
  import opened TimeWheelSpec

  class WheelNode {
    var next: WheelNode?
    var entries: set<Entry>

    constructor ()
      ensures next == null && entries == {}
    {
      next, entries := null, {};
    }
  }

  /** Distinct nodes, each linked to the next one round. */
  ghost predicate Ring(ring: seq<WheelNode>)
    reads ring
  {
    && (forall i, j :: 0 <= i < j < |ring| ==> ring[i] != ring[j])
    && (forall i {:trigger ring[i].next} :: 0 <= i < |ring| ==>
          ring[i].next == ring[if i + 1 < |ring| then i + 1 else 0])
  }

  ghost predicate Shows(ring: seq<WheelNode>, window: seq<set<Entry>>)
    reads ring
  {
    |window| == |ring| && forall i :: 0 <= i < |ring| ==> ring[i].entries == window[i]
  }

  /** A list of new nodes, its end linked to its start. */
  lemma RingClosed(nodes: seq<WheelNode>, window: seq<set<Entry>>)
    requires |nodes| == |window| > 0 && forall i :: 0 <= i < |nodes| ==> nodes[i].entries == window[i] == {}
    requires forall i, j :: 0 <= i < j < |nodes| ==> nodes[i] != nodes[j]
    requires forall i {:trigger nodes[i].next} :: 0 <= i < |nodes| - 1 ==> nodes[i].next == nodes[i + 1]
    requires nodes[|nodes| - 1].next == nodes[0]
    ensures Ring(nodes) && Shows(nodes, window)
  {
  }

  lemma RingTurns(ring: seq<WheelNode>)
    requires Ring(ring) && |ring| > 0
    ensures Ring(ring[1..] + [ring[0]])
    ensures ring[0].next == (ring[1..] + [ring[0]])[0]
  {
  }

  /** One node on, and that node emptied. */
  lemma WindowTurns(ring: seq<WheelNode>, window: seq<set<Entry>>)
    requires |ring| == |window| > 0
    requires forall i :: 0 <= i < |ring| ==> ring[i].entries == if i == 1 || |ring| == 1 then {} else window[i]
    ensures Shows(ring[1..] + [ring[0]], Rotated(window)[0 := {}])
  {
  }

  class TimeWheel {
    var maxNum: int
    var head: WheelNode?
    var tail: WheelNode?
    var currentNode: WheelNode?
    ghost var ring: seq<WheelNode>   // the nodes from the current one on
    ghost var wheel: Wheel

    ghost predicate Valid()
      reads this, ring
    {
      && |ring| > 0 && currentNode == ring[0]
      && Ring(ring) && Shows(ring, wheel.window) && Inv(wheel)
    }

    /** A wheel is used after `setMaxNum`, which always makes at least one node.  The current node
        is taken to start as the head, which the source leaves unset. */
    constructor (num: int)
      ensures Valid() && fresh(ring)
      ensures wheel == Empty(if num > 1 then num else 1)
    {
      hide TimeWheelSpec.Inv, Ring, Shows;
      maxNum := num;
      new;
      head := new WheelNode();
      var walk := head;
      ghost var nodes: seq<WheelNode> := [walk];
      var n := 1;
      while n < num
        invariant n == |nodes| && n <= (if num > 1 then num else 1)
        invariant walk == nodes[n - 1] && head == nodes[0] && walk.next == null
        invariant forall i, j :: 0 <= i < j < n ==> nodes[i] != nodes[j]
        invariant forall i {:trigger nodes[i].next} :: 0 <= i < n - 1 ==> nodes[i].next == nodes[i + 1]
        invariant forall i :: 0 <= i < n ==> nodes[i].entries == {} && fresh(nodes[i])
      {
        var next := new WheelNode();
        walk.next := next;
        walk := next;
        nodes := nodes + [next];
        n := n + 1;
      }
      tail := walk;
      tail.next := head;
      currentNode := head;
      ring := nodes;
      wheel := Empty(n);
      EmptyInv(n);
      RingClosed(ring, wheel.window);
    }

    method Push(entry: Entry)
      requires Valid()
      modifies this, ring
      ensures Valid() && ring == old(ring)
      ensures wheel == Step(old(wheel), TimeWheelSpec.Push(entry))
    {
      currentNode.entries := currentNode.entries + {entry};
      PushKeepsInv(wheel, entry);
      wheel := Step(wheel, TimeWheelSpec.Push(entry));
    }

    lemma WheelIsInv()
      requires Valid()
      ensures |wheel.pushes| > 0
    {
    }

    method OnTime()
      requires Valid()
      modifies this, ring
      ensures Valid() && ring == old(ring)[1..] + [old(ring)[0]]
      ensures wheel == Step(old(wheel), TimeWheelSpec.OnTime)
    {
      hide TimeWheelSpec.Inv, Destroyed;
      ghost var before := ring;
      WheelIsInv();
      RingTurns(ring);
      currentNode := currentNode.next;
      if currentNode.entries != {} {
        currentNode.entries := {};
      }
      OnTimeKeepsInv(wheel);
      WindowTurns(ring, wheel.window);
      assert Ring(before[1..] + [before[0]]);
      ring := ring[1..] + [ring[0]];
      wheel := Step(wheel, TimeWheelSpec.OnTime);
    }
  }
}
