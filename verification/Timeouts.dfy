/** `tick_at`: which threads a passing deadline wakes, and what is left of them in the objects. */
module Timeouts {
  import opened Outcomes
  import opened Machine
  import opened Wakers

  /** How a thread looks after its deadline has passed. */
  function TimedOut(th: Thread): Thread
    requires th.waitType.Some?
  {
    th.(
      state := Ready, wakeKey := KeyAfter(th.wakeKey), waitObjects := [],
      resume := if th.waitType.value == WaitSleep then Normal else TimeoutReached)
  }

  /** From thread `i` on, exactly the expired threads have timed out. */
  ghost predicate ThreadsTicked(s: State, s': State, i: nat, time: nat) {
    && |s'.threads| == |s.threads|
    && (forall t :: 0 <= t < |s.threads| && t >= i && Expired(s.threads[t], time) && s.threads[t].waitType.Some? ==>
          s'.threads[t] == TimedOut(s.threads[t]))
    && (forall t :: 0 <= t < |s.threads| && !(t >= i && Expired(s.threads[t], time)) ==>
          s'.threads[t] == s.threads[t])
  }

  /** The waker belongs to a thread, from thread `i` on, whose deadline has passed. */
  predicate Late(threads: seq<Thread>, i: nat, time: nat, w: Waker) {
    i <= w.thread < |threads| && Expired(threads[w.thread], time)
  }

  /** A queue without the late wakers; the others keep their order and their number. */
  function InTime(threads: seq<Thread>, i: nat, time: nat, q: seq<Waker>): seq<Waker> {
    if q == [] then []
    else (if Late(threads, i, time, q[0]) then [] else [q[0]]) + InTime(threads, i, time, q[1..])
  }

  function SlotsInTime(threads: seq<Thread>, i: nat, time: nat, slots: seq<Slot>): seq<Slot> {
    if slots == [] then []
    else (if Late(threads, i, time, slots[0].waker) then [] else [slots[0]]) + SlotsInTime(threads, i, time, slots[1..])
  }

  /** An object without the late wakers, otherwise as it was. */
  function ObjectInTime(threads: seq<Thread>, i: nat, time: nat, o: Object): Object {
    if o.kind.Arbiter? then o.(kind := Arbiter(SlotsInTime(threads, i, time, o.kind.slots)))
    else o.(queue := InTime(threads, i, time, o.queue))
  }

  ghost predicate Swept(s: State, s': State, i: nat, time: nat) {
    && ThreadsTicked(s, s', i, time)
    && |s'.objects| == |s.objects|
    && (forall o :: 0 <= o < |s.objects| ==> s'.objects[o] == ObjectInTime(s.threads, i, time, s.objects[o]))
  }

  /** Purging an expired thread and going on with the next is sweeping from that thread on. */
  lemma {:induction false} PurgeThenSweep(ths: seq<Thread>, ths': seq<Thread>, i: nat, time: nat, q: seq<Waker>)
    requires i < |ths| == |ths'| && Expired(ths[i], time) && ths' == ths[i := ths'[i]]
    ensures InTime(ths', i + 1, time, PurgeQueue(q, i)) == InTime(ths, i, time, q)
  {
    if q != [] {
      PurgeThenSweep(ths, ths', i, time, q[1..]);
      if q[0].thread == i {
        assert [] + InTime(ths, i, time, q[1..]) == InTime(ths, i, time, q[1..]);
      } else {
        var rest := PurgeQueue(q[1..], i);
        assert PurgeQueue(q, i) == [q[0]] + rest && ([q[0]] + rest)[1..] == rest;
        assert Late(ths', i + 1, time, q[0]) <==> Late(ths, i, time, q[0]);
      }
    }
  }

  lemma {:induction false} PurgeThenSweepSlots(
      ths: seq<Thread>, ths': seq<Thread>, i: nat, time: nat, slots: seq<Slot>)
    requires i < |ths| == |ths'| && Expired(ths[i], time) && ths' == ths[i := ths'[i]]
    ensures SlotsInTime(ths', i + 1, time, PurgeSlots(slots, i)) == SlotsInTime(ths, i, time, slots)
  {
    hide WakersOf;
    hide PurgeQueue;
    if slots != [] {
      PurgeThenSweepSlots(ths, ths', i, time, slots[1..]);
      var w := slots[0].waker;
      if w.thread == i {
        assert [] + SlotsInTime(ths, i, time, slots[1..]) == SlotsInTime(ths, i, time, slots[1..]);
      } else {
        var rest := PurgeSlots(slots[1..], i);
        assert PurgeSlots(slots, i) == [slots[0]] + rest && ([slots[0]] + rest)[1..] == rest;
        assert Late(ths', i + 1, time, w) <==> Late(ths, i, time, w);
      }
    }
  }

  /** A thread that has not expired makes no difference. */
  lemma {:induction false} SweepSkips(ths: seq<Thread>, i: nat, time: nat, q: seq<Waker>)
    requires i < |ths| && !Expired(ths[i], time)
    ensures InTime(ths, i + 1, time, q) == InTime(ths, i, time, q)
  {
    if q != [] {
      SweepSkips(ths, i, time, q[1..]);
    }
  }

  lemma {:induction false} SweepSkipsSlots(ths: seq<Thread>, i: nat, time: nat, slots: seq<Slot>)
    requires i < |ths| && !Expired(ths[i], time)
    ensures SlotsInTime(ths, i + 1, time, slots) == SlotsInTime(ths, i, time, slots)
  {
    if slots != [] {
      SweepSkipsSlots(ths, i, time, slots[1..]);
    }
  }

  /** Behind the last thread nothing is late. */
  lemma {:induction false} SweepEnds(ths: seq<Thread>, time: nat, q: seq<Waker>)
    ensures InTime(ths, |ths|, time, q) == q
  {
    if q != [] {
      SweepEnds(ths, time, q[1..]);
    }
  }

  lemma {:induction false} SweepEndsSlots(ths: seq<Thread>, time: nat, slots: seq<Slot>)
    ensures SlotsInTime(ths, |ths|, time, slots) == slots
  {
    if slots != [] {
      SweepEndsSlots(ths, time, slots[1..]);
    }
  }

  lemma ExpireFirst(s: State, s1: State, s': State, i: nat, time: nat)
    requires i < |s.threads| && Expired(s.threads[i], time) && s.threads[i].waitType.Some?
    requires WokenUp(s, s1, i, None) && s1.threads[i] == TimedOut(s.threads[i])
    requires Swept(s1, s', i + 1, time)
    ensures Swept(s, s', i, time)
  {
    forall o | 0 <= o < |s.objects| ensures s'.objects[o] == ObjectInTime(s.threads, i, time, s.objects[o]) {
      var obj := s.objects[o];
      assert s1.objects[o] == Purge(obj, i);
      if obj.kind.Arbiter? {
        PurgeThenSweepSlots(s.threads, s1.threads, i, time, obj.kind.slots);
      } else {
        PurgeThenSweep(s.threads, s1.threads, i, time, obj.queue);
      }
      hide PurgeQueue;
      hide PurgeSlots;
      hide InTime;
      hide SlotsInTime;
    }
    hide ObjectInTime;
    hide Purge;
  }

  lemma SkipFirst(s: State, s': State, i: nat, time: nat)
    requires i < |s.threads| && !Expired(s.threads[i], time) && Swept(s, s', i + 1, time)
    ensures Swept(s, s', i, time)
  {
    forall o | 0 <= o < |s.objects| ensures s'.objects[o] == ObjectInTime(s.threads, i, time, s.objects[o]) {
      if s.objects[o].kind.Arbiter? {
        SweepSkipsSlots(s.threads, i, time, s.objects[o].kind.slots);
      } else {
        SweepSkips(s.threads, i, time, s.objects[o].queue);
      }
    }
  }

  lemma SweptLast(s: State, time: nat)
    ensures Swept(s, s, |s.threads|, time)
  {
    forall o | 0 <= o < |s.objects| ensures s.objects[o] == ObjectInTime(s.threads, |s.threads|, time, s.objects[o]) {
      if s.objects[o].kind.Arbiter? {
        SweepEndsSlots(s.threads, time, s.objects[o].kind.slots);
      } else {
        SweepEnds(s.threads, time, s.objects[o].queue);
      }
    }
  }

  lemma TimedOutBy(s: State, t: ThreadId)
    requires t < |s.threads| && s.threads[t].waitType.Some? && WakeUp(s, t, None).Ok?
    ensures WakeUp(s, t, None).value.threads[t] == TimedOut(s.threads[t])
  {
  }

  lemma {:induction false} TickThreadsExact(s: State, i: nat, time: nat)
    requires Inv(s) && i <= |s.threads|
    ensures TickThreads(s, i, time).Ok?
    ensures Swept(s, TickThreads(s, i, time).value, i, time)
    decreases |s.threads| - i
  {
    hide WakeUp;
    hide Swept;
    if i == |s.threads| {
      SweptLast(s, time);
    } else {
      assert ThreadOk(s.threads[i]);
      hide Inv;
      if Expired(s.threads[i], time) {
        WakeUpKeeps(s, i, None);
        TimedOutBy(s, i);
        var s1 := WakeUp(s, i, None).value;
        TickThreadsExact(s1, i + 1, time);
        ExpireFirst(s, s1, TickThreads(s1, i + 1, time).value, i, time);
      } else {
        TickThreadsExact(s, i + 1, time);
        SkipFirst(s, TickThreads(s, i + 1, time).value, i, time);
      }
    }
  }

  /** No late waker is left, and every other one is. */
  lemma {:induction false} InTimeHas(ths: seq<Thread>, time: nat, q: seq<Waker>, w: Waker)
    ensures w in InTime(ths, 0, time, q) <==> w in q && !Late(ths, 0, time, w)
  {
    if q != [] {
      InTimeHas(ths, time, q[1..], w);
    }
  }

  /**
    Ticking the threads wakes exactly the Waiting ones whose deadline has passed and tells each of them
    that its timeout was reached unless it was merely sleeping. Every object keeps its kind and its
    queue in order, without exactly the wakers of those threads.
   */
  lemma TickWakesExactlyTheExpired(s: State, time: nat)
    requires Inv(s)
    ensures TickThreads(s, 0, time).Ok?
    ensures var s' := TickThreads(s, 0, time).value;
      && |s'.threads| == |s.threads| && |s'.objects| == |s.objects|
      && (forall t :: 0 <= t < |s.threads| ==>
            if Expired(s.threads[t], time) then Resumed(s.threads[t], s'.threads[t], None)
            else s'.threads[t] == s.threads[t])
      && (forall o :: 0 <= o < |s.objects| ==> s'.objects[o] == ObjectInTime(s.threads, 0, time, s.objects[o]))
  {
    TickThreadsExact(s, 0, time);
    hide TickThreads;
    hide ObjectInTime;
    assert forall t :: 0 <= t < |s.threads| ==> ThreadOk(s.threads[t]);
  }

  lemma {:induction false} SlotsInTimeWakers(ths: seq<Thread>, time: nat, slots: seq<Slot>)
    ensures WakersOf(SlotsInTime(ths, 0, time, slots)) == InTime(ths, 0, time, WakersOf(slots))
  {
    if slots != [] {
      SlotsInTimeWakers(ths, time, slots[1..]);
      assert WakersOf(slots)[1..] == WakersOf(slots[1..]);
      var rest := SlotsInTime(ths, 0, time, slots[1..]);
      assert WakersOf([slots[0]] + rest) == [slots[0].waker] + WakersOf(rest);
      assert [] + rest == rest;
    }
  }

  /** So after a tick no object holds a waker of a timed-out thread, and none of another thread was lost. */
  lemma NoLateWaker(s: State, time: nat, o: ObjId, w: Waker)
    requires Inv(s) && o < |s.objects|
    ensures TickThreads(s, 0, time).Ok? && o < |TickThreads(s, 0, time).value.objects|
    ensures w in Queue(TickThreads(s, 0, time).value.objects[o]) <==>
      w in Queue(s.objects[o]) && !Late(s.threads, 0, time, w)
  {
    TickWakesExactlyTheExpired(s, time);
    hide TickThreads;
    hide Inv;
    var obj := s.objects[o];
    if obj.kind.Arbiter? {
      SlotsInTimeWakers(s.threads, time, obj.kind.slots);
    }
    InTimeHas(s.threads, time, Queue(obj), w);
    hide InTime;
    hide SlotsInTime;
    hide Late;
  }
}
