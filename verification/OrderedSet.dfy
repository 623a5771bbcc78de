/** `std::set<Entry>` of the timer queue: a strictly increasing sequence of (time, timer) pairs. */
module OrderedSet {

  const UINTPTR_MAX: nat := 0xFFFF_FFFF_FFFF_FFFF

  /** Where a `Timer` object lives; the sentry of `getExpired` lies above every address. */
  type Addr = a: nat | a < UINTPTR_MAX

  datatype Entry = Entry(time: int, timer: Addr)

  predicate Less(a: Entry, b: Entry) {
    a.time < b.time || (a.time == b.time && a.timer < b.timer)
  }

  ghost predicate Sorted(es: seq<Entry>) {
    forall i, j :: 0 <= i < j < |es| ==> Less(es[i], es[j])
  }

  /** `insert`: no effect when the pair is already there. */
  function Insert(es: seq<Entry>, e: Entry): seq<Entry> {
    if es == [] then [e]
    else if Less(e, es[0]) then [e] + es
    else if e == es[0] then es
    else [es[0]] + Insert(es[1..], e)
  }

  /** `erase` by value. */
  function Erase(es: seq<Entry>, e: Entry): seq<Entry> {
    if es == [] then []
    else if e == es[0] then es[1..]
    else [es[0]] + Erase(es[1..], e)
  }

  /** How many entries come before `lower_bound` of (now, UINTPTR_MAX). */
  function Expired(es: seq<Entry>, now: int): (n: nat)
    ensures n <= |es|
  {
    if es == [] || now < es[0].time then 0 else Expired(es[1..], now) + 1
  }

  lemma {:induction false} InsertMembers(es: seq<Entry>, e: Entry)
    ensures forall x :: x in Insert(es, e) <==> x in es || x == e
  {
    if es != [] && !Less(e, es[0]) && e != es[0] {
      InsertMembers(es[1..], e);
      assert es == [es[0]] + es[1..];
    }
  }

  lemma {:induction false} InsertSorted(es: seq<Entry>, e: Entry)
    requires Sorted(es)
    ensures Sorted(Insert(es, e))
    ensures Insert(es, e) != []
    ensures Insert(es, e)[0] == if es == [] || Less(e, es[0]) then e else es[0]
  {
    if es != [] && !Less(e, es[0]) && e != es[0] {
      InsertSorted(es[1..], e);
      InsertMembers(es[1..], e);
      assert forall x :: x in es[1..] ==> Less(es[0], x);
      assert forall x :: x in Insert(es[1..], e) ==> Less(es[0], x);
      SortedCons(es[0], Insert(es[1..], e));
    }
  }

  lemma SortedCons(e: Entry, es: seq<Entry>)
    requires Sorted(es) && forall x :: x in es ==> Less(e, x)
    ensures Sorted([e] + es)
  {
  }

  lemma {:induction false} EraseMembers(es: seq<Entry>, e: Entry)
    requires Sorted(es)
    ensures forall x :: x in Erase(es, e) <==> x in es && x != e
  {
    if es != [] {
      assert es == [es[0]] + es[1..];
      assert forall x :: x in es[1..] ==> Less(es[0], x);
      if e != es[0] {
        EraseMembers(es[1..], e);
      }
    }
  }

  lemma {:induction false} EraseSorted(es: seq<Entry>, e: Entry)
    requires Sorted(es)
    ensures Sorted(Erase(es, e))
  {
    if es != [] && e != es[0] {
      EraseSorted(es[1..], e);
      EraseMembers(es[1..], e);
      assert forall x :: x in es[1..] ==> Less(es[0], x);
      assert forall x :: x in Erase(es[1..], e) ==> Less(es[0], x);
      SortedCons(es[0], Erase(es[1..], e));
    }
  }

  /** `lower_bound` splits the set exactly at `now`. */
  lemma {:induction false} ExpiredSplits(es: seq<Entry>, now: int)
    requires Sorted(es)
    ensures forall i :: 0 <= i < |es| ==> (i < Expired(es, now) <==> es[i].time <= now)
  {
    if es != [] {
      if now < es[0].time {
        forall i | 0 <= i < |es|
          ensures now < es[i].time
        {
          assert i > 0 ==> Less(es[0], es[i]);
        }
      } else {
        ExpiredSplits(es[1..], now);
        forall i | 0 <= i < |es|
          ensures i < Expired(es, now) <==> es[i].time <= now
        {
          if i > 0 {
            assert es[1..][i - 1] == es[i];
          }
        }
      }
    }
  }
}
