/** A whole kernel tick: whose deadline passes, which timers fire, and whom they wake. */
module Ticks {
  import opened Outcomes
  import opened Machine
  import opened Wakers
  import opened WaitSyncN
  import opened Timeouts
  import opened Grants
  import opened Signals
  import opened Calls
  import opened Safety
  import H = History

  // ---------------------------------------------------------------- what a timer's tick leaves alone

  /** Of object `o` at most wakers of woken threads are gone: its kind, its oldest waiter and the others stay. */
  ghost predicate Remains(s: State, s': State, o: ObjId) {
    && |s'.threads| == |s.threads| && o < |s.objects| == |s'.objects|
    && (s.objects[o].kind.Arbiter? <==> s'.objects[o].kind.Arbiter?)
    && (!s.objects[o].kind.Arbiter? ==>
          var q, q' := s.objects[o].queue, s'.objects[o].queue;
          && s'.objects[o].kind == s.objects[o].kind && (q == [] ==> q' == [])
          && (forall w :: w in q && w.thread < |s.threads| && s'.threads[w.thread].state == Waiting ==> w in q')
          && (q != [] && q[0].thread < |s.threads| && s'.threads[q[0].thread].state == Waiting ==>
                q' != [] && q'[0] == q[0]))
  }

  lemma WokenRemains(s: State, s': State, t: ThreadId, cause: Option<ObjId>, o: ObjId)
    requires WokenUp(s, s', t, cause) && o < |s.objects|
    ensures Remains(s, s', o)
  {
    H.PurgeKeepsKind(s.objects[o], t);
    assert s'.objects[o] == Purge(s.objects[o], t);
  }

  lemma RemainsTrans(s: State, s1: State, s': State, o: ObjId)
    requires Remains(s, s1, o) && Remains(s1, s', o) && OnlyWakes(s1, s')
    ensures Remains(s, s', o)
  {
  }

  lemma {:induction false} WakeAllRemains(s: State, ws: seq<Waker>, giver: ObjId, o: ObjId)
    requires Inv(s) && OneWakerPerThread(ws) && o < |s.objects|
    requires forall w :: w in ws ==> LiveOrSpent(s, w, giver)
    ensures WakeAll(s, ws, giver).Ok? && Remains(s, WakeAll(s, ws, giver).value, o)
    ensures OnlyWakes(s, WakeAll(s, ws, giver).value)
    decreases |ws|
  {
    if ws != [] {
      assert ws[0] in ws;
      WakeFirstOf(s, ws, giver);
      var s1 := Wake(s, ws[0], giver).value.state;
      if LiveIn(s, ws[0], giver) {
        WakeKeeps(s, ws[0], giver);
        WokenRemains(s, s1, ws[0].thread, Some(giver), o);
      }
      hide Inv;
      hide Wake;
      hide LiveOrSpent;
      WakeAllRemains(s1, ws[1..], giver, o);
      RemainsTrans(s, s1, WakeAll(s1, ws[1..], giver).value, o);
    }
  }

  /** Raising one signal leaves every other object alone but for the wakers of the threads it wakes. */
  lemma RaiseRemains(s: State, i: ObjId, o: ObjId)
    requires Inv(s) && i < |s.objects| && o < |s.objects| && i != o && HasSignal(s.objects[i])
    ensures RaiseSignal(s, i).Ok? && Remains(s, RaiseSignal(s, i).value, o)
  {
    if s.objects[i].kind.signal.reset.Sticky? {
      StickyRemains(s, i, o);
    } else {
      OneShotRemains(s, i, o);
    }
  }

  lemma StickyRemains(s: State, i: ObjId, o: ObjId)
    requires Inv(s) && i < |s.objects| && o < |s.objects| && i != o && HasSignal(s.objects[i])
    requires s.objects[i].kind.signal.reset.Sticky?
    ensures RaiseSignal(s, i).Ok? && Remains(s, RaiseSignal(s, i).value, o)
  {
    hide WakeAll;
    var obj := s.objects[i];
    var raised := WithSignal(obj, obj.kind.signal.(signaled := true));
    var s1 := SetObj(s, i, raised.(queue := []));
    SetObjKeeps(s, i, raised.(queue := []));
    QueueHasOneWakerPerThread(s, i);
    forall w | w in obj.queue ensures LiveOrSpent(s1, w, i) {
      assert w in Queue(obj);
    }
    hide Inv;
    WakeAllRemains(s1, obj.queue, i, o);
  }

  lemma OneShotRemains(s: State, i: ObjId, o: ObjId)
    requires Inv(s) && i < |s.objects| && o < |s.objects| && i != o && HasSignal(s.objects[i])
    requires !s.objects[i].kind.signal.reset.Sticky?
    ensures RaiseSignal(s, i).Ok? && Remains(s, RaiseSignal(s, i).value, o)
  {
    hide Wake;
    var obj := s.objects[i];
    if obj.queue != [] {
      var raised := WithSignal(obj, obj.kind.signal.(signaled := true));
      var s1 := SetObj(s, i, raised);
      SetObjKeeps(s, i, raised);
      assert obj.queue[0] in Queue(obj) && LiveIn(s, obj.queue[0], i);
      hide Inv;
      WakeKeeps(s1, obj.queue[0], i);
      WokenRemains(s1, Wake(s1, obj.queue[0], i).value.state, obj.queue[0].thread, Some(i), o);
      hide WokenUp;
    }
  }

  lemma TimerTickRemains(s: State, i: ObjId, time: nat, o: ObjId)
    requires Inv(s) && i < |s.objects| && o < |s.objects| && i != o
    ensures TimerTick(s, i, time).Ok? && Remains(s, TimerTick(s, i, time).value, o)
  {
    if TimerDue(s.objects[i], time) {
      var s1 := SetObj(Log(s, Signalled(i)), i, Rearm(s.objects[i], time));
      LogKeeps(s, Signalled(i));
      SetObjKeeps(Log(s, Signalled(i)), i, Rearm(s.objects[i], time));
      hide Inv;
      RaiseRemains(s1, i, o);
      hide RaiseSignal;
    }
  }

  // ---------------------------------------------------------------- whom the timers wake

  /** The thread waits for a timer that is due. */
  predicate WaitsForDue(s: State, t: ThreadId, o: ObjId, time: nat) {
    && t < |s.threads| && s.threads[t].state == Waiting && o in s.threads[t].waitObjects
    && o < |s.objects| && TimerDue(s.objects[o], time)
  }

  /** A thread is as it was, or has been woken by a due timer, from object `i` on, that it waited for. */
  ghost predicate SameOrFired(s: State, s': State, t: ThreadId, i: nat, time: nat)
    requires t < |s.threads| == |s'.threads|
  {
    s'.threads[t] == s.threads[t]
    || exists o :: i <= o && WaitsForDue(s, t, o, time) && Resumed(s.threads[t], s'.threads[t], Some(o))
  }

  /** One timer's tick wakes only threads that wait for it, and only if it is due. */
  lemma TimerWakesItsOwn(s: State, i: ObjId, time: nat, t: ThreadId)
    requires Inv(s) && i < |s.objects| && t < |s.threads|
    ensures TimerTick(s, i, time).Ok? && |TimerTick(s, i, time).value.threads| == |s.threads|
    ensures var s' := TimerTick(s, i, time).value;
      s'.threads[t] != s.threads[t] ==>
        WaitsForDue(s, t, i, time) && Resumed(s.threads[t], s'.threads[t], Some(i))
  {
    if s.objects[i].kind.Timer? {
      TimerTickExact(s, i, time);
      var q := s.objects[i].queue;
      assert forall w :: w in q ==> w in Queue(s.objects[i]) && LiveIn(s, w, i);
      hide Inv;
      hide TimerTick;
      hide Resumed;
      hide PurgeQueue;
      if Due(ScheduleOf(s.objects[i]), time) && s.objects[i].kind.signal.reset != Sticky && q != [] {
        assert q[0] in q && [q[0]][0] == q[0];
        if t != q[0].thread {
          assert forall j :: 0 <= j < |[q[0]]| ==> [q[0]][j].thread != t;
        }
      }
    }
  }

  /** Ticking the timers from `i` on is ticking timer `i` and going on with the next. */
  lemma TimersStep(s: State, i: nat, time: nat)
    requires Inv(s) && i < |s.objects|
    ensures TimerTick(s, i, time).Ok?
    ensures var s1 := TimerTick(s, i, time).value;
      && Inv(s1) && |s1.objects| == |s.objects| && |s1.threads| == |s.threads|
      && TickTimers(s1, i + 1, time).Ok? && TickTimers(s, i, time) == TickTimers(s1, i + 1, time)
      && OnlyWakes(s1, TickTimers(s1, i + 1, time).value)
  {
    TimerTickKeeps(s, i, time);
    hide TimerTick;
    hide Inv;
    TickTimersKeeps(TimerTick(s, i, time).value, i + 1, time);
  }

  lemma {:induction false} TimersWakeTheirOwn(s: State, i: nat, time: nat, t: ThreadId)
    requires Inv(s) && i <= |s.objects| && t < |s.threads|
    ensures TickTimers(s, i, time).Ok? && |TickTimers(s, i, time).value.threads| == |s.threads|
    ensures SameOrFired(s, TickTimers(s, i, time).value, t, i, time)
    decreases |s.objects| - i
  {
    hide TimerTick;
    hide Resumed;
    hide Inv;
    if i < |s.objects| {
      TimersStep(s, i, time);
      hide TickTimers;
      var s1 := TimerTick(s, i, time).value;
      TimerWakesItsOwn(s, i, time, t);
      TimersWakeTheirOwn(s1, i + 1, time, t);
      var s' := TickTimers(s1, i + 1, time).value;
      if s1.threads[t] != s.threads[t] {
        ResumedReady(s.threads[t], s1.threads[t], Some(i));
        assert WaitsForDue(s, t, i, time) && s'.threads[t] == s1.threads[t];
      } else if s'.threads[t] != s1.threads[t] {
        var o :| i + 1 <= o && WaitsForDue(s1, t, o, time) && Resumed(s1.threads[t], s'.threads[t], Some(o));
        TimerTickRemains(s, i, time, o);
        assert WaitsForDue(s, t, o, time);
      }
    }
  }

  lemma ResumedReady(th: Thread, th': Thread, cause: Option<ObjId>)
    requires Resumed(th, th', cause)
    ensures th'.state == Ready
  {
  }

  /** Whoever is first in the queue of a due timer, or anywhere in that of a sticky one, ends up Ready. */
  lemma {:induction false} DueWaiterReady(s: State, i: nat, time: nat, o: ObjId, w: Waker)
    requires Inv(s) && i <= o < |s.objects| && TimerDue(s.objects[o], time) && w in s.objects[o].queue
    requires s.objects[o].kind.signal.reset == Sticky || w == s.objects[o].queue[0]
    ensures TickTimers(s, i, time).Ok? && w.thread < |s.threads| == |TickTimers(s, i, time).value.threads|
    ensures TickTimers(s, i, time).value.threads[w.thread].state == Ready
    decreases |s.objects| - i
  {
    hide TimerTick;
    hide Resumed;
    assert w in Queue(s.objects[o]) && LiveIn(s, w, o);
    hide Inv;
    TimersStep(s, i, time);
    hide TickTimers;
    var s1 := TimerTick(s, i, time).value;
    if i == o {
      FiredWaiter(s, o, time, w);
    } else {
      TimerWakesItsOwn(s, i, time, w.thread);
      TimerTickRemains(s, i, time, o);
      if s1.threads[w.thread] == s.threads[w.thread] {
        hide OnlyWakes;
        DueWaiterReady(s1, i + 1, time, o, w);
      } else {
        ResumedReady(s.threads[w.thread], s1.threads[w.thread], Some(i));
      }
    }
  }

  lemma FiredWaiter(s: State, o: ObjId, time: nat, w: Waker)
    requires Inv(s) && o < |s.objects| && TimerDue(s.objects[o], time) && w in s.objects[o].queue
    requires s.objects[o].kind.signal.reset == Sticky || w == s.objects[o].queue[0]
    ensures TimerTick(s, o, time).Ok? && w.thread < |TimerTick(s, o, time).value.threads|
    ensures TimerTick(s, o, time).value.threads[w.thread].state == Ready
  {
    TimerTickExact(s, o, time);
    var q := s.objects[o].queue;
    assert w in Queue(s.objects[o]) && LiveIn(s, w, o);
    hide Inv;
    hide TimerTick;
    if s.objects[o].kind.signal.reset == Sticky {
      var i :| 0 <= i < |q| && q[i] == w;
      assert Called(s, q, o, w.thread);
    } else {
      assert [q[0]][0] == w;
    }
  }

  /** The signal of a due timer is up afterwards if it is sticky or nobody waited for it. */
  lemma {:induction false} DueSignalUp(s: State, i: nat, time: nat, o: ObjId)
    requires Inv(s) && i <= |s.objects| && o < |s.objects| && s.objects[o].kind.Timer?
    requires i <= o ==>
      Due(ScheduleOf(s.objects[o]), time) && (s.objects[o].kind.signal.reset == Sticky || s.objects[o].queue == [])
    requires i > o ==> s.objects[o].kind.signal.signaled
    ensures TickTimers(s, i, time).Ok? && o < |TickTimers(s, i, time).value.objects|
    ensures TickTimers(s, i, time).value.objects[o].kind.Timer?
    ensures TickTimers(s, i, time).value.objects[o].kind.signal.signaled
    decreases |s.objects| - i
  {
    hide TimerTick;
    hide Inv;
    if i < |s.objects| {
      TimersStep(s, i, time);
      hide TickTimers;
      hide OnlyWakes;
      if i == o {
        TimerTickExact(s, o, time);
        hide WokeCalled;
        hide WokeExactly;
        hide PurgeQueue;
      } else {
        TimerTickRemains(s, i, time, o);
      }
      DueSignalUp(TimerTick(s, i, time).value, i + 1, time, o);
    }
  }

  // ---------------------------------------------------------------- the whole tick

  /** What one tick of the kernel does to threads, queues and signals. */
  ghost predicate KernelTicked(s: State, s': State, time: nat) {
    && |s'.threads| == |s.threads| && |s'.objects| == |s.objects|
    && (forall t :: 0 <= t < |s.threads| && Expired(s.threads[t], time) ==>
          Resumed(s.threads[t], s'.threads[t], None))
    && (forall t :: 0 <= t < |s.threads| && !Expired(s.threads[t], time) ==> SameOrFired(s, s', t, 0, time))
    && (forall o, w :: 0 <= o < |s'.objects| && w in Queue(s'.objects[o]) ==>
          w.thread < |s.threads| && !Expired(s.threads[w.thread], time))
    && (forall o :: 0 <= o < |s.objects| && TimerDue(s.objects[o], time) ==> FiredInTick(s, s', o))
  }

  /** A due timer's oldest waiter, or every waiter if it is sticky, is Ready; else its signal is up. */
  ghost predicate FiredInTick(s: State, s': State, o: ObjId)
    requires o < |s.objects| == |s'.objects| && s.objects[o].kind.Timer? && |s'.threads| == |s.threads|
  {
    var q, sticky := s.objects[o].queue, s.objects[o].kind.signal.reset == Sticky;
    && (forall w :: w in q && (sticky || w == q[0]) ==>
          w.thread < |s.threads| && s'.threads[w.thread].state == Ready)
    && (sticky || q == [] ==> s'.objects[o].kind.Timer? && s'.objects[o].kind.signal.signaled)
  }

  lemma TimedOutResumed(th: Thread)
    requires th.waitType.Some?
    ensures Resumed(th, TimedOut(th), None)
  {
  }

  /** After the threads' deadlines, every thread is as it was or has timed out; objects lost late wakers only. */
  lemma DeadlinesFirst(s: State, time: nat)
    requires Inv(s)
    ensures TickThreads(s, 0, time).Ok? && Inv(TickThreads(s, 0, time).value)
    ensures var s1 := TickThreads(s, 0, time).value;
      && |s1.threads| == |s.threads| && |s1.objects| == |s.objects|
      && (forall t :: 0 <= t < |s.threads| ==>
            if Expired(s.threads[t], time) then Resumed(s.threads[t], s1.threads[t], None)
            else s1.threads[t] == s.threads[t])
      && (forall o :: 0 <= o < |s.objects| ==> s1.objects[o] == ObjectInTime(s.threads, 0, time, s.objects[o]))
  {
    TickThreadsKeeps(s, 0, time);
    TickThreadsExact(s, 0, time);
    var s1 := TickThreads(s, 0, time).value;
    assert forall t :: 0 <= t < |s.threads| ==> ThreadOk(s.threads[t]);
    hide Inv;
    hide TickThreads;
    hide Resumed;
    hide ObjectInTime;
    forall t | 0 <= t < |s.threads| && Expired(s.threads[t], time)
      ensures Resumed(s.threads[t], s1.threads[t], None)
    {
      TimedOutResumed(s.threads[t]);
    }
  }

  lemma InTimeHead(ths: seq<Thread>, time: nat, q: seq<Waker>)
    requires q != [] && !Late(ths, 0, time, q[0])
    ensures InTime(ths, 0, time, q) != [] && InTime(ths, 0, time, q)[0] == q[0]
  {
  }

  lemma FiresInTick(s: State, time: nat, o: ObjId)
    requires Inv(s) && o < |s.objects| && TimerDue(s.objects[o], time)
    ensures Tick(s, time).Ok? && |Tick(s, time).value.objects| == |s.objects|
    ensures |Tick(s, time).value.threads| == |s.threads| && FiredInTick(s, Tick(s, time).value, o)
  {
    DeadlinesFirst(s, time);
    var s1 := TickThreads(s, 0, time).value;
    var q := s.objects[o].queue;
    TickTimersKeeps(s1, 0, time);
    var s' := TickTimers(s1, 0, time).value;
    assert Tick(s, time) == Ok(s');
    if s.objects[o].kind.signal.reset == Sticky || q == [] {
      DueSignalUp(s1, 0, time, o);
    }
    forall w | w in q && (s.objects[o].kind.signal.reset == Sticky || w == q[0])
      ensures w.thread < |s.threads| && s'.threads[w.thread].state == Ready
    {
      assert w in Queue(s.objects[o]) && LiveIn(s, w, o);
      if !Expired(s.threads[w.thread], time) {
        InTimeHas(s.threads, time, q, w);
        if w == q[0] {
          InTimeHead(s.threads, time, q);
        }
        DueWaiterReady(s1, 0, time, o, w);
      }
    }
    hide Inv;
    hide TickTimers;
    hide TickThreads;
    hide Tick;
  }

  /**
    A kernel tick wakes every thread whose deadline has passed and tells it so; any other thread changes
    only if a due timer it waits for wakes it; no object keeps a waker of a timed-out thread; and every
    due timer wakes its oldest waiter, or all of them if it is sticky, or has its signal up.
   */
  lemma TickExact(s: State, time: nat)
    requires Inv(s)
    ensures Tick(s, time).Ok? && Inv(Tick(s, time).value) && KernelTicked(s, Tick(s, time).value, time)
  {
    DeadlinesFirst(s, time);
    var s1 := TickThreads(s, 0, time).value;
    TickTimersKeeps(s1, 0, time);
    var s' := TickTimers(s1, 0, time).value;
    assert Tick(s, time) == Ok(s');
    hide TickTimers;
    hide TickThreads;
    forall t | 0 <= t < |s.threads| && !Expired(s.threads[t], time) ensures SameOrFired(s, s', t, 0, time) {
      TimersWakeTheirOwn(s1, 0, time, t);
      hide Inv;
      hide Resumed;
      if s'.threads[t] != s1.threads[t] {
        var o :| 0 <= o && WaitsForDue(s1, t, o, time) && Resumed(s1.threads[t], s'.threads[t], Some(o));
        assert WaitsForDue(s, t, o, time);
      }
    }
    forall o | 0 <= o < |s.objects| && TimerDue(s.objects[o], time)
      ensures |s'.threads| == |s.threads| && |s'.objects| == |s.objects| && FiredInTick(s, s', o)
    {
      FiresInTick(s, time, o);
      hide Inv;
    }
    hide Resumed;
    hide FiredInTick;
    hide SameOrFired;
    hide Tick;
    forall o, w | 0 <= o < |s'.objects| && w in Queue(s'.objects[o])
      ensures w.thread < |s.threads| && !Expired(s.threads[w.thread], time)
    {
      assert LiveIn(s', w, o);
    }
  }

  // ---------------------------------------------------------------- timed waits, end to end

  /** A waiting thread times out at the first tick not before its deadline, and at none before it. */
  lemma TimedWait(s: State, t: ThreadId, time: nat)
    requires Inv(s) && t < |s.threads| && s.threads[t].state == Waiting
    ensures Tick(s, time).Ok? && |Tick(s, time).value.threads| == |s.threads|
    ensures var th' := Tick(s, time).value.threads[t];
      if s.threads[t].deadline.Some? && s.threads[t].deadline.value <= time then
        Resumed(s.threads[t], th', None)
      else SameOrFired(s, Tick(s, time).value, t, 0, time)
  {
    hide Inv;
    hide Tick;
    hide Resumed;
    hide SameOrFired;
    hide FiredInTick;
    TickExact(s, time);
  }

  /** The processor goes from a thread that has just suspended itself back to the kernel. */
  lemma BackToKernel(s: State, t: ThreadId)
    requires Inv(s) && s.current == Some(t) && t < |s.threads| && s.threads[t].state == Waiting
    ensures Yield(s).Ok? && Inv(Yield(s).value) && |Yield(s).value.threads| == |s.threads|
    ensures Yield(s).value.threads[t] == s.threads[t] && Yield(s).value.objects == s.objects
  {
    hide Inv;
    SchedulingKeeps(s);
  }

  /** A sleep until `d` ends, normally, at the first tick not before `d`, and goes on at any tick before it. */
  lemma SleepEnds(s: State, d: nat, time: nat)
    requires Inv(s) && RunningCurrent(s)
    ensures SleepThread(s, Some(d)).Ok? && Yield(SleepThread(s, Some(d)).value).Ok?
    ensures var s2 := Yield(SleepThread(s, Some(d)).value).value;
      var t := s.current.value;
      && Tick(s2, time).Ok? && t < |s2.threads| == |Tick(s2, time).value.threads|
      && var th' := Tick(s2, time).value.threads[t];
         if d <= time then th'.state == Ready && th'.resume == Normal
         else th'.state == Waiting && th' == s2.threads[t]
  {
    hide Inv;
    hide Yield;
    hide Tick;
    var t := s.current.value;
    SuspendExact(s, [], Some(d), WaitSleep);
    var s1 := SleepThread(s, Some(d)).value;
    BackToKernel(s1, t);
    TimedWait(Yield(s1).value, t, time);
  }

  /** A wait for one unavailable object until `d` times out at the first tick not before `d`, and at none before it. */
  lemma Wait1TimesOut(s: State, o: ObjId, d: nat, time: nat)
    requires Inv(s) && RunningCurrent(s) && o < |s.objects| && Synchronizable(s.objects[o])
    requires !Available(s.objects[o].kind)
    ensures Wait1(s, o, Some(d)).Ok? && Yield(Wait1(s, o, Some(d)).value).Ok?
    ensures var s2 := Yield(Wait1(s, o, Some(d)).value).value;
      var t := s.current.value;
      && Tick(s2, time).Ok? && t < |s2.threads| == |Tick(s2, time).value.threads|
      && var th' := Tick(s2, time).value.threads[t];
         if d <= time then th'.state == Ready && th'.resume == TimeoutReached
         else th' == s2.threads[t] || (TimerDue(s2.objects[o], time) && th'.state == Ready && th'.resume == Normal)
  {
    hide Inv;
    hide Wait1;
    hide Yield;
    hide Tick;
    var t := s.current.value;
    Wait1Exact(s, o, Some(d));
    var s1 := Wait1(s, o, Some(d)).value;
    KeepsCurrent(s, o, Some(d));
    BackToKernel(s1, t);
    TimedWait(Yield(s1).value, t, time);
  }

  lemma KeepsCurrent(s: State, o: ObjId, deadline: Option<nat>)
    requires Inv(s) && RunningCurrent(s) && o < |s.objects| && Synchronizable(s.objects[o])
    ensures Wait1(s, o, deadline).Ok? && Wait1(s, o, deadline).value.current == s.current
  {
    SuspendKeeps(s, [o], deadline, WaitSync1);
    var r := Suspend(s, [o], deadline, WaitSync1).value;
    assert o in [o] && LiveIn(r.state, r.waker, o);
    WaitOnKeeps(r.state, o, r.waker);
    hide Inv;
    hide WaitOn;
  }

  /** The same for a wait for any of several objects, none of which is available. */
  lemma WaitNTimesOut(s: State, objs: seq<ObjId>, d: nat, time: nat)
    requires Inv(s) && RunningCurrent(s) && Waitable(Kinds(s), objs) && FirstAvailable(Kinds(s), objs) == |objs|
    ensures WaitN(s, objs, Some(d)).Ok? && Yield(WaitN(s, objs, Some(d)).value).Ok?
    ensures var s2 := Yield(WaitN(s, objs, Some(d)).value).value;
      var t := s.current.value;
      && Tick(s2, time).Ok? && t < |s2.threads| == |Tick(s2, time).value.threads|
      && var th' := Tick(s2, time).value.threads[t];
         if d <= time then th'.state == Ready && th'.resume == TimeoutReached
         else th' == s2.threads[t] || (th'.state == Ready && th'.resume.WokenBy?)
  {
    hide Inv;
    hide WaitN;
    hide Yield;
    hide Tick;
    var t := s.current.value;
    WaitNTakesAtMostOne(s, objs, Some(d));
    WaitNKeepsIffSafe(s, objs, Some(d));
    NothingAvailableIsSafe(Kinds(s), objs);
    var s1 := WaitN(s, objs, Some(d)).value;
    WaitNKeepsCurrent(s, objs, Some(d));
    BackToKernel(s1, t);
    TimedWait(Yield(s1).value, t, time);
  }

  lemma {:induction false} NothingAvailableIsSafe(kinds: seq<Kind>, objs: seq<ObjId>)
    requires ValidIds(objs, |kinds|) && FirstAvailable(kinds, objs) == |objs|
    ensures SafeList(kinds, objs)
  {
    if objs != [] {
      NothingAvailableIsSafe(kinds, objs[1..]);
    }
  }

  lemma WaitNKeepsCurrent(s: State, objs: seq<ObjId>, deadline: Option<nat>)
    requires RunningCurrent(s) && Waitable(Kinds(s), objs)
    ensures WaitN(s, objs, deadline).Ok? && WaitN(s, objs, deadline).value.current == s.current
  {
    var r := Suspend(s, objs, deadline, WaitSyncN).value;
    assert Kinds(r.state) == Kinds(s);
    PendingLoop(r.state, objs, objs, r.waker);
    hide WaitEach;
  }
}
