/** Single calls on events, timers and thread objects: exactly who is woken, and what is left. */
module Signals {
  import opened Outcomes
  import opened Machine
  import opened Wakers
  import opened Grants

  /** Some waker of the list is live for the thread. */
  ghost predicate Called(s: State, ws: seq<Waker>, o: ObjId, t: ThreadId) {
    exists i :: 0 <= i < |ws| && ws[i].thread == t && LiveIn(s, ws[i], o)
  }

  /** Exactly the threads with a live waker in the list have been woken. */
  ghost predicate WokeCalled(s: State, s': State, ws: seq<Waker>, o: ObjId) {
    && |s'.threads| == |s.threads|
    && forall t :: 0 <= t < |s.threads| ==>
         if Called(s, ws, o, t) then s.threads[t].state == Waiting && Resumed(s.threads[t], s'.threads[t], Some(o))
         else s'.threads[t] == s.threads[t]
  }

  /** One waker at a time: the thread of the first is called, or it is spent. */
  lemma CalledFirst(s: State, s1: State, ws: seq<Waker>, o: ObjId, t: ThreadId)
    requires ws != [] && t < |s.threads| && OneWakerPerThread(ws)
    requires LiveIn(s, ws[0], o) ==> WokenUp(s, s1, ws[0].thread, Some(o))
    requires !LiveIn(s, ws[0], o) ==> s1 == s
    ensures t == ws[0].thread && LiveIn(s, ws[0], o) ==> Called(s, ws, o, t) && !Called(s1, ws[1..], o, t)
    ensures !(t == ws[0].thread && LiveIn(s, ws[0], o)) ==> (Called(s, ws, o, t) <==> Called(s1, ws[1..], o, t))
  {
    if t == ws[0].thread && LiveIn(s, ws[0], o) {
      assert Called(s, ws, o, t);
    } else {
      if Called(s, ws, o, t) {
        var i :| 0 <= i < |ws| && ws[i].thread == t && LiveIn(s, ws[i], o);
        assert i > 0 && ws[1..][i - 1] == ws[i] && LiveIn(s1, ws[i], o);
      }
      if Called(s1, ws[1..], o, t) {
        var i :| 0 <= i < |ws| - 1 && ws[1..][i].thread == t && LiveIn(s1, ws[1..][i], o);
        assert ws[i + 1].thread == t && LiveIn(s, ws[i + 1], o);
      }
    }
  }

  /** A drained queue wakes exactly the threads it still has a live waker for, once each. */
  lemma {:induction false} WakeAllExact(s: State, ws: seq<Waker>, o: ObjId)
    requires Inv(s) && OneWakerPerThread(ws)
    requires forall w :: w in ws ==> LiveOrSpent(s, w, o)
    ensures WakeAll(s, ws, o).Ok? && WokeCalled(s, WakeAll(s, ws, o).value, ws, o)
    decreases |ws|
  {
    if ws != [] {
      assert ws[0] in ws;
      WakeFirstOf(s, ws, o);
      if LiveIn(s, ws[0], o) {
        WakeKeeps(s, ws[0], o);
      }
      var s1 := Wake(s, ws[0], o).value.state;
      WakeAllExact(s1, ws[1..], o);
      hide Inv;
      hide LiveOrSpent;
      hide Resumed;
      forall t | 0 <= t < |s.threads|
        ensures
          var s' := WakeAll(s, ws, o).value;
          if Called(s, ws, o, t) then s.threads[t].state == Waiting && Resumed(s.threads[t], s'.threads[t], Some(o))
          else s'.threads[t] == s.threads[t]
      {
        CalledFirst(s, s1, ws, o, t);
        hide Called;
      }
    }
  }

  lemma {:induction false} WakeAllKeepsEmpty(s: State, ws: seq<Waker>, giver: ObjId, o: ObjId)
    requires o < |s.objects| && !s.objects[o].kind.Arbiter? && s.objects[o].queue == []
    requires WakeAll(s, ws, giver).Ok?
    ensures WakeAll(s, ws, giver).value.objects[o] == s.objects[o]
    decreases |ws|
  {
    if ws != [] {
      WakeAllKeepsEmpty(Wake(s, ws[0], giver).value.state, ws[1..], giver, o);
    }
  }

  /** In a state that satisfies the waker invariant, every queued waker calls its thread. */
  lemma QueueCalls(s: State, s1: State, o: ObjId, t: ThreadId)
    requires WakersLive(s) && o < |s.objects| && s1.threads == s.threads
    ensures Called(s1, Queue(s.objects[o]), o, t) <==> exists w :: w in Queue(s.objects[o]) && w.thread == t
  {
    var q := Queue(s.objects[o]);
    if w :| w in q && w.thread == t {
      var i :| 0 <= i < |q| && q[i] == w;
      assert LiveIn(s, w, o) && LiveIn(s1, q[i], o);
    }
  }

  /** Raising a sticky signal wakes every waiter; the object stays signalled with an empty queue. */
  lemma StickyWakesAll(s: State, o: ObjId)
    requires Inv(s) && o < |s.objects| && HasSignal(s.objects[o]) && s.objects[o].kind.signal.reset.Sticky?
    ensures RaiseSignal(s, o).Ok?
    ensures var s' := RaiseSignal(s, o).value;
      && WokeCalled(s, s', s.objects[o].queue, o)
      && s'.objects[o] == WithSignal(s.objects[o], Signal(Sticky, true)).(queue := [])
    ensures forall t :: 0 <= t < |s.threads| ==>
      (Called(s, s.objects[o].queue, o, t) <==> exists w :: w in s.objects[o].queue && w.thread == t)
  {
    var obj := s.objects[o];
    var raised := WithSignal(obj, obj.kind.signal.(signaled := true)).(queue := []);
    var s1 := SetObj(s, o, raised);
    SetObjKeeps(s, o, raised);
    QueueHasOneWakerPerThread(s, o);
    forall w | w in obj.queue ensures LiveOrSpent(s1, w, o) {
      assert w in Queue(obj);
    }
    WakeAllExact(s1, obj.queue, o);
    WakeAllKeepsEmpty(s1, obj.queue, o, o);
    forall t | 0 <= t < |s.threads|
      ensures Called(s, obj.queue, o, t) <==> exists w :: w in obj.queue && w.thread == t
    {
      QueueCalls(s, s, o, t);
    }
    hide Inv;
    hide WakeAll;
    forall t | 0 <= t < |s.threads| ensures Called(s1, obj.queue, o, t) <==> Called(s, obj.queue, o, t) {
      assert forall w :: LiveIn(s1, w, o) <==> LiveIn(s, w, o);
    }
  }

  /** Raising and lowering a signal around a change of the queue. */
  lemma LoweredAgain(obj: Object, q: seq<Waker>)
    requires HasSignal(obj)
    ensures var raised := WithSignal(obj, obj.kind.signal.(signaled := true));
      && HasSignal(raised) && !raised.kind.Arbiter? && raised.queue == obj.queue
      && var purged := raised.(queue := q);
         WithSignal(purged, purged.kind.signal.(signaled := false)) ==
         WithSignal(obj, obj.kind.signal.(signaled := false)).(queue := q)
  {
  }

  /**
    Raising any other signal wakes exactly the oldest waiter, which consumes the signal; without
    waiters the signal stays up and no thread changes.
   */
  lemma OneShotWakesOldest(s: State, o: ObjId)
    requires Inv(s) && o < |s.objects| && HasSignal(s.objects[o]) && !s.objects[o].kind.signal.reset.Sticky?
    ensures RaiseSignal(s, o).Ok?
    ensures var s' := RaiseSignal(s, o).value;
      var q := s.objects[o].queue;
      var sig := s.objects[o].kind.signal;
      if q == [] then
        s'.threads == s.threads && s'.objects[o] == WithSignal(s.objects[o], sig.(signaled := true))
      else
        && WokeExactly(s, s', [q[0]], o)
        && s'.objects[o] == WithSignal(s.objects[o], sig.(signaled := false)).(queue := PurgeQueue(q, q[0].thread))
  {
    if s.objects[o].queue != [] {
      hide Inv;
      hide RaiseSignal;
      OldestWoken(s, o);
    }
  }

  lemma OldestWoken(s: State, o: ObjId)
    requires Inv(s) && o < |s.objects| && HasSignal(s.objects[o]) && !s.objects[o].kind.signal.reset.Sticky?
    requires s.objects[o].queue != []
    ensures RaiseSignal(s, o).Ok?
    ensures var s' := RaiseSignal(s, o).value;
      var q := s.objects[o].queue;
      && WokeExactly(s, s', [q[0]], o)
      && s'.objects[o] ==
        WithSignal(s.objects[o], s.objects[o].kind.signal.(signaled := false)).(queue := PurgeQueue(q, q[0].thread))
  {
    var obj := s.objects[o];
    var w := obj.queue[0];
    var raised := WithSignal(obj, obj.kind.signal.(signaled := true));
    var s1 := SetObj(s, o, raised);
    SetObjKeeps(s, o, raised);
    assert w in Queue(obj) && LiveIn(s, w, o);
    hide Inv;
    hide Purge;
    hide WithSignal;
    hide PurgeQueue;
    WakeKeeps(s1, w, o);
    hide Wake;
    hide WakeExpect;
    var s2 := Wake(s1, w, o).value.state;
    LoweredAgain(obj, PurgeQueue(obj.queue, w.thread));
    PurgePlain(raised, w.thread);
    WokeOne(s, s1, s2, ResetSignal(s2, o), w, o);
    hide WokeExactly;
    assert RaiseSignal(s, o) == Ok(ResetSignal(s2, o));
  }

  lemma PurgePlain(obj: Object, t: ThreadId)
    requires !obj.kind.Arbiter?
    ensures Purge(obj, t) == obj.(queue := PurgeQueue(obj.queue, t))
  {
  }

  lemma WokeOne(s: State, s1: State, s2: State, s3: State, w: Waker, o: ObjId)
    requires s1.threads == s.threads && WokenUp(s1, s2, w.thread, Some(o)) && s3.threads == s2.threads
    ensures WokeExactly(s, s3, [w], o)
  {
    hide Purge;
    assert [w][0] == w;
    forall t | 0 <= t < |s.threads| && (forall i :: 0 <= i < |[w]| ==> [w][i].thread != t)
      ensures s3.threads[t] == s.threads[t]
    {
      assert [w][0].thread != t;
    }
  }

  /** What raising a signal leaves behind, in each of the reset types. */
  ghost predicate RaisedExactly(s: State, s': State, o: ObjId)
    requires o < |s.objects| && HasSignal(s.objects[o])
  {
    var q, sig := s.objects[o].queue, s.objects[o].kind.signal;
    && |s'.objects| == |s.objects|
    && if sig.reset.Sticky? then
         && WokeCalled(s, s', q, o)
         && s'.objects[o] == WithSignal(s.objects[o], Signal(Sticky, true)).(queue := [])
       else if q == [] then
         s'.threads == s.threads && s'.objects[o] == WithSignal(s.objects[o], sig.(signaled := true))
       else
         && WokeExactly(s, s', [q[0]], o)
         && s'.objects[o] == WithSignal(s.objects[o], sig.(signaled := false)).(queue := PurgeQueue(q, q[0].thread))
  }

  lemma RaiseExact(s: State, o: ObjId)
    requires Inv(s) && o < |s.objects| && HasSignal(s.objects[o])
    ensures RaiseSignal(s, o).Ok? && RaisedExactly(s, RaiseSignal(s, o).value, o)
  {
    hide Inv;
    hide RaiseSignal;
    hide WithSignal;
    hide PurgeQueue;
    if s.objects[o].kind.signal.reset.Sticky? {
      StickyWakesAll(s, o);
    } else {
      OneShotWakesOldest(s, o);
    }
  }

  /** Who is called depends on the threads alone. */
  lemma CalledSame(s: State, s1: State, ws: seq<Waker>, o: ObjId)
    requires s1.threads == s.threads
    ensures forall t :: Called(s1, ws, o, t) <==> Called(s, ws, o, t)
  {
    assert forall w :: LiveIn(s1, w, o) <==> LiveIn(s, w, o);
  }

  /**
    Signalling an event: a sticky one wakes every waiter and stays signalled; any other wakes exactly
    the oldest waiter and is not signalled afterwards, or stays signalled if nobody waits.
   */
  lemma SignalEventExact(s: State, o: ObjId)
    requires Inv(s) && o < |s.objects| && s.objects[o].kind.Event?
    ensures SignalEvent(s, o).Ok? && Inv(SignalEvent(s, o).value)
    ensures RaisedExactly(s, SignalEvent(s, o).value, o)
  {
    var s1 := Log(s, Signalled(o));
    LogKeeps(s, Signalled(o));
    RaiseExact(s1, o);
    RaiseSignalKeeps(s1, o);
    CalledSame(s, s1, s.objects[o].queue, o);
    hide Inv;
    hide RaiseSignal;
    hide Called;
    hide Resumed;
    hide PurgeQueue;
    hide WithSignal;
  }

  // ---------------------------------------------------------------- timers

  /** A due timer has moved on, its signal is up or was consumed by the oldest waiter, and the rest stayed. */
  ghost predicate TimerFired(s: State, s': State, o: ObjId, time: nat)
    requires o < |s.objects| && s.objects[o].kind.Timer?
  {
    var q, reset := s.objects[o].queue, s.objects[o].kind.signal.reset;
    var p := Ticked(ScheduleOf(s.objects[o]), time);
    && |s'.objects| == |s.objects|
    && s'.objects[o].kind == Timer(Signal(reset, reset == Sticky || q == []), p.nextNs, p.interval)
    && if reset == Sticky then WokeCalled(s, s', q, o) && s'.objects[o].queue == []
       else if q == [] then s'.threads == s.threads && s'.objects[o].queue == []
       else WokeExactly(s, s', [q[0]], o) && s'.objects[o].queue == PurgeQueue(q, q[0].thread)
  }

  lemma RearmedKind(s: State, o: ObjId, time: nat, sig: Signal)
    requires o < |s.objects| && s.objects[o].kind.Timer?
    ensures var obj := Rearm(s.objects[o], time);
      var p := Ticked(ScheduleOf(s.objects[o]), time);
      && HasSignal(obj) && obj.queue == s.objects[o].queue && obj.kind.signal == s.objects[o].kind.signal
      && WithSignal(obj, sig).kind == Timer(sig, p.nextNs, p.interval) && WithSignal(obj, sig).queue == obj.queue
  {
  }

  /** A tick of a timer does nothing before it is due; when it is, it fires: it signals, and wakes whom it should. */
  lemma TimerTickExact(s: State, o: ObjId, time: nat)
    requires Inv(s) && o < |s.objects| && s.objects[o].kind.Timer?
    ensures TimerTick(s, o, time).Ok? && Inv(TimerTick(s, o, time).value)
    ensures if Due(ScheduleOf(s.objects[o]), time) then TimerFired(s, TimerTick(s, o, time).value, o, time)
      else TimerTick(s, o, time).value == s
  {
    TimerTickKeeps(s, o, time);
    if TimerDue(s.objects[o], time) {
      var reset := s.objects[o].kind.signal.reset;
      var s1 := SetObj(Log(s, Signalled(o)), o, Rearm(s.objects[o], time));
      LogKeeps(s, Signalled(o));
      SetObjKeeps(Log(s, Signalled(o)), o, Rearm(s.objects[o], time));
      RearmedKind(s, o, time, Signal(reset, true));
      RearmedKind(s, o, time, Signal(reset, false));
      assert TimerTick(s, o, time) == RaiseSignal(s1, o);
      hide Rearm;
      hide Ticked;
      RaiseExact(s1, o);
      CalledSame(s, s1, s.objects[o].queue, o);
      hide Inv;
      hide RaiseSignal;
      hide TimerTick;
      hide Called;
      hide Resumed;
      hide PurgeQueue;
      hide WithSignal;
    }
  }

  /** After an event is cleared, a wait on it queues. */
  lemma ClearedEventBlocks(s: State, o: ObjId, w: Waker)
    requires o < |s.objects| && s.objects[o].kind.Event?
    ensures WaitOn(ClearEvent(s, o), o, w) == Ok(Push(ClearEvent(s, o), o, w))
    ensures ClearEvent(s, o) ==
      SetObj(s, o, s.objects[o].(kind := Event(Signal(s.objects[o].kind.signal.reset, false))))
  {
  }

  /** The caller is Done, its thread object dead, and exactly the threads that waited for it are woken. */
  ghost predicate JoinersWoken(s: State, s': State)
    requires RunningCurrent(s) && s.threads[s.current.value].kobj < |s.objects|
  {
    var t := s.current.value;
    var kobj := s.threads[t].kobj;
    && kobj < |s'.objects| && t < |s'.threads|
    && s'.objects[kobj] == Object([], ThreadObj(true)) && Available(s'.objects[kobj].kind)
    && WokeCalled(s.(threads := s.threads[t := s.threads[t].(state := Done)]), s', s.objects[kobj].queue, kobj)
    && s'.threads[t].state == Done
  }

  /** A thread's end wakes every thread that waits for it, and later waits succeed at once. */
  lemma ExitWakesJoiners(s: State)
    requires Inv(s) && RunningCurrent(s)
    requires var kobj := s.threads[s.current.value].kobj;
      kobj < |s.objects| && s.objects[kobj].kind == ThreadObj(false)
    ensures Exit(s).Ok? && JoinersWoken(s, Exit(s).value)
  {
    var t := s.current.value;
    var kobj := s.threads[t].kobj;
    var q := s.objects[kobj].queue;
    var s1 := s.(threads := s.threads[t := s.threads[t].(state := Done)]);
    assert Inv(s1);
    var s2 := SetObj(s1, kobj, Object([], ThreadObj(true)));
    SetObjKeeps(s1, kobj, Object([], ThreadObj(true)));
    QueueHasOneWakerPerThread(s1, kobj);
    forall w | w in q ensures LiveOrSpent(s2, w, kobj) {
      assert w in Queue(s1.objects[kobj]);
    }
    WakeAllExact(s2, q, kobj);
    WakeAllKeepsEmpty(s2, q, kobj, kobj);
    hide Inv;
    hide WakeAll;
    forall u | 0 <= u < |s.threads| ensures Called(s2, q, kobj, u) <==> Called(s1, q, kobj, u) {
      assert forall w :: LiveIn(s2, w, kobj) <==> LiveIn(s1, w, kobj);
    }
    assert !Called(s1, q, kobj, t);
  }
}
