/**
  The waker protocol: every queued waker names a Waiting thread, carries its current key and sits in
  an object that thread waits on. This is the global invariant behind every
  `.expect("Failed to wake up thread")`.
 */
module Wakers {
  import opened Outcomes
  import opened Machine
  import Bytes

  /** The waker is the one its thread is suspended on, and the thread waits on object `o`. */
  predicate LiveIn(s: State, w: Waker, o: ObjId) {
    w.thread < |s.threads|
    && s.threads[w.thread].state == Waiting
    && s.threads[w.thread].wakeKey == w.key
    && o in s.threads[w.thread].waitObjects
  }

  ghost predicate WakersLive(s: State) {
    forall o, w :: 0 <= o < |s.objects| && w in Queue(s.objects[o]) ==> LiveIn(s, w, o)
  }

  predicate ThreadOk(th: Thread) {
    th.state == Waiting ==> th.waitType.Some? && (th.waitType.value == WaitSleep ==> th.waitObjects == [])
  }

  ghost predicate ThreadsOk(s: State) {
    forall t :: 0 <= t < |s.threads| ==> ThreadOk(s.threads[t])
  }

  predicate DistinctThreads(q: seq<Waker>) {
    forall i, j :: 0 <= i < j < |q| ==> q[i].thread != q[j].thread
  }

  /** An arbiter holds at most one waker per thread, which is why it may insist on every wake. */
  ghost predicate ArbitersOk(s: State) {
    forall o :: 0 <= o < |s.objects| && s.objects[o].kind.Arbiter? ==> DistinctThreads(Queue(s.objects[o]))
  }

  /** Only the current thread can be Running, and a chosen next thread is Ready. */
  ghost predicate Scheduled(s: State) {
    && (forall t :: 0 <= t < |s.threads| && s.threads[t].state == Running ==> s.current == Some(t))
    && (s.current.Some? ==> s.current.value < |s.threads|)
    && (s.next.Some? ==> s.next.value < |s.threads| && s.threads[s.next.value].state == Ready)
  }

  ghost predicate Inv(s: State) {
    WakersLive(s) && ThreadsOk(s) && ArbitersOk(s) && Scheduled(s)
  }

  /** A step that, as far as threads go, only wakes Waiting ones. */
  ghost predicate OnlyWakes(s: State, s': State) {
    && |s'.threads| == |s.threads|
    && s'.current == s.current && s'.next == s.next
    && (forall t :: 0 <= t < |s.threads| && s.threads[t].state != Waiting ==> s'.threads[t] == s.threads[t])
  }

  // ---------------------------------------------------------------- one wake-up

  lemma {:induction false} PurgeDistinct(q: seq<Waker>, t: ThreadId)
    requires DistinctThreads(q)
    ensures DistinctThreads(PurgeQueue(q, t))
  {
    if q != [] {
      PurgeDistinct(q[1..], t);
      forall w | w in q[1..] ensures w.thread != q[0].thread {
      }
    }
  }

  /**
    What a woken thread is told: that its timeout was reached, unless it merely slept; or, if it waits
    for any of several objects, the first position of the one that woke it; or nothing in particular.
   */
  predicate Told(th: Thread, cause: Option<ObjId>, r: Resume) {
    match cause
    case None => r == if th.waitType == Some(WaitSleep) then Normal else TimeoutReached
    case Some(o) =>
      if th.waitType == Some(WaitSyncN) then
        && r.WokenBy? && r.index < |th.waitObjects| && th.waitObjects[r.index] == o
        && forall j :: 0 <= j < r.index ==> th.waitObjects[j] != o
      else r == Normal
  }

  /** The thread after a wake-up: Ready, with a new key, waiting for nothing, told why; otherwise the same. */
  predicate Resumed(th: Thread, th': Thread, cause: Option<ObjId>) {
    && th' == th.(state := Ready, wakeKey := KeyAfter(th.wakeKey), waitObjects := [], resume := th'.resume)
    && Told(th, cause, th'.resume)
  }

  /** A thread suspended on a list of objects, with the deadline and the wait type it asked for. */
  function Sleeper(th: Thread, objs: seq<ObjId>, deadline: Option<nat>, kind: WaitType): Thread {
    th.(state := Waiting, waitObjects := objs, deadline := deadline, waitType := Some(kind))
  }

  /** What a successful wait leaves of an object: only a sticky signal stays up, and a mutex is held. */
  predicate Taken(k: Kind, k': Kind) {
    match k
    case Event(sig) => k' == Event(Signal(sig.reset, sig.reset == Sticky))
    case Timer(sig, nextNs, interval) => k' == Timer(Signal(sig.reset, sig.reset == Sticky), nextNs, interval)
    case Mutex(_) => k' == Mutex(true)
    case _ => k' == k
  }

  lemma TakeTakes(k: Kind)
    requires Available(k)
    ensures Taken(k, Take(k))
  {
  }

  /** What a wake-up of thread `t` does to a state in which the waker protocol holds. */
  ghost predicate WokenUp(s: State, s': State, t: ThreadId, cause: Option<ObjId>) {
    && t < |s.threads| == |s'.threads| && Resumed(s.threads[t], s'.threads[t], cause)
    && s.threads[t].state == Waiting && s'.threads[t].state == Ready
    && s'.threads[t].wakeKey == KeyAfter(s.threads[t].wakeKey)
    && s'.threads == s.threads[t := s'.threads[t]]
    && |s'.objects| == |s.objects|
    && (forall o :: 0 <= o < |s.objects| ==> s'.objects[o] == Purge(s.objects[o], t))
    && s'.current == s.current && s'.next == s.next
  }

  lemma PurgeIdentity(s: State, o: ObjId, t: ThreadId)
    requires o < |s.objects|
    requires forall w :: w in Queue(s.objects[o]) ==> w.thread != t
    ensures Purge(s.objects[o], t) == s.objects[o]
  {
    var obj := s.objects[o];
    if obj.kind.Arbiter? {
      SlotsIdentity(obj.kind.slots, t);
    }
  }

  lemma {:induction false} SlotsIdentity(slots: seq<Slot>, t: ThreadId)
    requires forall w :: w in WakersOf(slots) ==> w.thread != t
    ensures PurgeSlots(slots, t) == slots
  {
    if slots != [] {
      assert WakersOf(slots)[0] in WakersOf(slots);
      forall w | w in WakersOf(slots[1..]) ensures w in WakersOf(slots) {
        assert WakersOf(slots[1..]) == WakersOf(slots)[1..];
      }
      SlotsIdentity(slots[1..], t);
    }
  }

  lemma WakeUpKeeps(s: State, t: ThreadId, cause: Option<ObjId>)
    requires Inv(s)
    requires t < |s.threads| && s.threads[t].state == Waiting
    requires cause.Some? ==> cause.value in s.threads[t].waitObjects
    ensures WakeUp(s, t, cause).Ok?
    ensures WokenUp(s, WakeUp(s, t, cause).value, t, cause)
    ensures Inv(WakeUp(s, t, cause).value)
    ensures OnlyWakes(s, WakeUp(s, t, cause).value)
  {
    hide KeyAfter;
    hide ResumeValue;
    hide Told;
    hide Purge;
    assert ThreadOk(s.threads[t]);
    ToldWhy(s.threads[t], cause);
    var s' := WakeUp(s, t, cause).value;
    forall o | 0 <= o < |s.objects| && o !in s.threads[t].waitObjects
      ensures s.objects[o] == Purge(s.objects[o], t)
    {
      UnwaitedUnqueued(s, t, o);
      PurgeIdentity(s, o, t);
    }
    assert WokenUp(s, s', t, cause);
    hide WokenUp;
    WokenUpKeeps(s, s', t, cause);
    hide Inv;
  }

  lemma ToldWhy(th: Thread, cause: Option<ObjId>)
    requires ThreadOk(th) && th.state == Waiting && (cause.Some? ==> cause.value in th.waitObjects)
    ensures ResumeValue(th, cause).Ok? && Told(th, cause, ResumeValue(th, cause).value)
  {
  }

  lemma UnwaitedUnqueued(s: State, t: ThreadId, o: ObjId)
    requires WakersLive(s) && t < |s.threads| && o < |s.objects| && o !in s.threads[t].waitObjects
    ensures forall w :: w in Queue(s.objects[o]) ==> w.thread != t
  {
  }

  /** A wake-up that purges its thread everywhere keeps the invariant. */
  lemma WokenUpKeeps(s: State, s': State, t: ThreadId, cause: Option<ObjId>)
    requires Inv(s) && WokenUp(s, s', t, cause)
    ensures Inv(s')
  {
    hide Purge;
    hide PurgeQueue;
    hide Told;
    forall o, w | 0 <= o < |s'.objects| && w in Queue(s'.objects[o]) ensures LiveIn(s', w, o) {
      assert Queue(s'.objects[o]) == PurgeQueue(Queue(s.objects[o]), t);
      assert LiveIn(s, w, o);
    }
    forall o | 0 <= o < |s'.objects| && s'.objects[o].kind.Arbiter?
      ensures DistinctThreads(Queue(s'.objects[o]))
    {
      PurgedKind(s.objects[o], t);
      PurgeDistinct(Queue(s.objects[o]), t);
    }
  }

  lemma PurgedKind(o: Object, t: ThreadId)
    ensures Purge(o, t).kind.Arbiter? <==> o.kind.Arbiter?
  {
  }

  lemma WakeKeeps(s: State, w: Waker, o: ObjId)
    requires Inv(s) && LiveIn(s, w, o)
    ensures Wake(s, w, o).Ok? && Wake(s, w, o).value.success
    ensures WokenUp(s, Wake(s, w, o).value.state, w.thread, Some(o))
    ensures Inv(Wake(s, w, o).value.state)
    ensures WakeExpect(s, w, o) == Ok(Wake(s, w, o).value.state)
    ensures OnlyWakes(s, Wake(s, w, o).value.state)
  {
    WakeUpKeeps(s, w.thread, Some(o));
  }

  /** Replacing an object keeps the invariant when all its wakers are live there. */
  lemma SetObjKeeps(s: State, o: ObjId, obj: Object)
    requires Inv(s) && o < |s.objects|
    requires forall w :: w in Queue(obj) ==> LiveIn(s, w, o)
    requires obj.kind.Arbiter? ==> DistinctThreads(Queue(obj))
    ensures Inv(SetObj(s, o, obj))
  {
  }

  lemma LogKeeps(s: State, e: Entry)
    requires Inv(s)
    ensures Inv(Log(s, e))
  {
  }

  lemma NewObjectsKeep(s: State, added: seq<Object>)
    requires Inv(s)
    requires forall i :: 0 <= i < |added| ==> Queue(added[i]) == []
    ensures Inv(s.(objects := s.objects + added))
  {
    var s' := s.(objects := s.objects + added);
    forall o | 0 <= o < |s'.objects|
      ensures s'.objects[o] == if o < |s.objects| then s.objects[o] else added[o - |s.objects|]
    {
    }
  }

  // ---------------------------------------------------------------- drained queues

  /** A drained waker: still live, or its thread has been woken once since. */
  predicate LiveOrSpent(s: State, w: Waker, o: ObjId) {
    LiveIn(s, w, o)
    || (w.thread < |s.threads| && s.threads[w.thread].wakeKey == KeyAfter(w.key))
  }

  /** Wakers of one thread in one queue are the same waker. */
  predicate OneWakerPerThread(ws: seq<Waker>) {
    forall i, j :: 0 <= i < j < |ws| && ws[i].thread == ws[j].thread ==> ws[i] == ws[j]
  }

  lemma StaysLiveOrSpent(s: State, s': State, w: Waker, v: Waker, o: ObjId)
    requires WokenUp(s, s', w.thread, Some(o)) && s.threads[w.thread].wakeKey == w.key
    requires LiveOrSpent(s, v, o) && (v.thread == w.thread ==> v == w)
    ensures LiveOrSpent(s', v, o)
  {
  }

  lemma SameThreadSameWaker(ws: seq<Waker>, v: Waker)
    requires OneWakerPerThread(ws) && ws != [] && v in ws[1..]
    ensures v in ws && (v.thread == ws[0].thread ==> v == ws[0])
  {
  }

  /** One step through a drained queue: the rest of it stays live or spent. */
  lemma WakeFirstOf(s: State, ws: seq<Waker>, o: ObjId)
    requires Inv(s) && ws != []
    requires forall w :: w in ws ==> LiveOrSpent(s, w, o)
    requires OneWakerPerThread(ws)
    ensures Wake(s, ws[0], o).Ok?
    ensures var s' := Wake(s, ws[0], o).value.state;
      && Inv(s') && OnlyWakes(s, s')
      && (forall w :: w in ws[1..] ==> LiveOrSpent(s', w, o))
      && (!LiveIn(s, ws[0], o) ==> s' == s)
  {
    var w := ws[0];
    assert w in ws;
    if LiveIn(s, w, o) {
      WakeKeeps(s, w, o);
      forall v | v in ws[1..] ensures LiveOrSpent(Wake(s, w, o).value.state, v, o) {
        SameThreadSameWaker(ws, v);
        StaysLiveOrSpent(s, Wake(s, w, o).value.state, w, v, o);
      }
    } else {
      forall v | v in ws[1..] ensures LiveOrSpent(s, v, o) {
        SameThreadSameWaker(ws, v);
      }
    }
  }

  lemma {:induction false} WakeAllKeeps(s: State, ws: seq<Waker>, o: ObjId)
    requires Inv(s)
    requires forall w :: w in ws ==> LiveOrSpent(s, w, o)
    requires OneWakerPerThread(ws)
    ensures WakeAll(s, ws, o).Ok?
    ensures Inv(WakeAll(s, ws, o).value)
    ensures OnlyWakes(s, WakeAll(s, ws, o).value)
    decreases |ws|
  {
    if ws != [] {
      WakeFirstOf(s, ws, o);
      WakeAllKeeps(Wake(s, ws[0], o).value.state, ws[1..], o);
    }
  }

  lemma {:induction false} WakeAllExpectKeeps(s: State, ws: seq<Waker>, o: ObjId)
    requires Inv(s)
    requires forall w :: w in ws ==> LiveIn(s, w, o)
    requires DistinctThreads(ws)
    ensures WakeAllExpect(s, ws, o).Ok?
    ensures Inv(WakeAllExpect(s, ws, o).value)
    ensures OnlyWakes(s, WakeAllExpect(s, ws, o).value)
    decreases |ws|
  {
    if ws != [] {
      assert ws[0] in ws;
      WakeKeeps(s, ws[0], o);
      var s' := Wake(s, ws[0], o).value.state;
      forall v | v in ws[1..] ensures LiveIn(s', v, o) {
        assert v in ws;
      }
      WakeAllExpectKeeps(s', ws[1..], o);
    }
  }

  lemma QueueHasOneWakerPerThread(s: State, o: ObjId)
    requires WakersLive(s) && o < |s.objects|
    ensures OneWakerPerThread(Queue(s.objects[o]))
  {
    var q := Queue(s.objects[o]);
    forall i, j | 0 <= i < j < |q| && q[i].thread == q[j].thread ensures q[i] == q[j] {
      assert LiveIn(s, q[i], o) && LiveIn(s, q[j], o);
    }
  }

  // ---------------------------------------------------------------- steps

  /** A thread that is Done stays Done. */
  ghost predicate DoneStays(s: State, s': State) {
    && |s.threads| <= |s'.threads|
    && forall t :: 0 <= t < |s.threads| && s.threads[t].state == Done ==> s'.threads[t].state == Done
  }

  /** The step keeps the invariant, or stops on a fault that is not one of the wake-up protocol. */
  ghost predicate Keeps(s: State, r: Outcome<State>) {
    match r
    case Ok(s') => Inv(s') && DoneStays(s, s')
    case Panic(f) => !WakeFault(f)
  }

  lemma WakeFrontKeeps(s: State, o: ObjId)
    requires Inv(s) && o < |s.objects| && Synchronizable(s.objects[o])
    ensures WakeFront(s, o).Ok? && Inv(WakeFront(s, o).value)
    ensures OnlyWakes(s, WakeFront(s, o).value)
  {
    var obj := s.objects[o];
    if obj.queue != [] {
      assert obj.queue[0] in Queue(obj);
      var s1 := SetObj(s, o, obj.(queue := obj.queue[1..]));
      SetObjKeeps(s, o, obj.(queue := obj.queue[1..]));
      WakeKeeps(s1, obj.queue[0], o);
    }
  }

  /** The oldest waiter of object `x`, if there is one, is woken by it and leaves every queue; nobody else changes. */
  ghost predicate FrontWoken(s: State, s': State, x: ObjId)
    requires x < |s.objects|
  {
    var q := s.objects[x].queue;
    && |s'.threads| == |s.threads|
    && if q == [] then s'.threads == s.threads
       else
         var h := q[0].thread;
         && h < |s.threads| && s.threads[h].state == Waiting && Resumed(s.threads[h], s'.threads[h], Some(x))
         && (forall u :: 0 <= u < |s.threads| && u != h ==> s'.threads[u] == s.threads[u])
         && (forall y, v :: 0 <= y < |s'.objects| && v in Queue(s'.objects[y]) ==> v.thread != h)
  }

  lemma WakeFrontExact(s: State, x: ObjId)
    requires Inv(s) && x < |s.objects| && Synchronizable(s.objects[x])
    ensures WakeFront(s, x).Ok? && FrontWoken(s, WakeFront(s, x).value, x)
  {
    var obj := s.objects[x];
    if obj.queue != [] {
      assert obj.queue[0] in Queue(obj);
      var s1 := SetObj(s, x, obj.(queue := obj.queue[1..]));
      SetObjKeeps(s, x, obj.(queue := obj.queue[1..]));
      WakeKeeps(s1, obj.queue[0], x);
      var s' := Wake(s1, obj.queue[0], x).value.state;
      assert WakeFront(s, x) == Ok(s');
      hide WakeFront;
      hide Wake;
      hide WakeExpect;
      hide Resumed;
      forall y, v | 0 <= y < |s'.objects| && v in Queue(s'.objects[y]) ensures v.thread != obj.queue[0].thread {
        assert s'.objects[y] == Purge(s1.objects[y], obj.queue[0].thread);
      }
    }
  }

  /** A Running thread owns no queued waker, so suspending it keeps the invariant. */
  lemma SuspendKeeps(s: State, objs: seq<ObjId>, deadline: Option<nat>, kind: WaitType)
    requires Inv(s) && RunningCurrent(s)
    requires kind == WaitSleep ==> objs == []
    ensures Suspend(s, objs, deadline, kind).Ok?
    ensures Inv(Suspend(s, objs, deadline, kind).value.state)
    ensures var r := Suspend(s, objs, deadline, kind).value;
      forall o :: o in objs ==> LiveIn(r.state, r.waker, o)
    ensures var r := Suspend(s, objs, deadline, kind).value;
      r.waker.thread == s.current.value
      && forall o, w :: 0 <= o < |s.objects| && w in Queue(s.objects[o]) ==> w.thread != r.waker.thread
  {
  }

  /** The step discipline of a system call: the calling thread is current and Running. */
  predicate RunningCurrent(s: State) {
    s.current.Some? && s.current.value < |s.threads| && s.threads[s.current.value].state == Running
  }

  lemma PushKeeps(s: State, o: ObjId, w: Waker)
    requires Inv(s) && o < |s.objects| && Synchronizable(s.objects[o]) && LiveIn(s, w, o)
    ensures Inv(Push(s, o, w))
  {
    SetObjKeeps(s, o, s.objects[o].(queue := s.objects[o].queue + [w]));
  }

  lemma WaitOnKeeps(s: State, o: ObjId, w: Waker)
    requires Inv(s) && o < |s.objects| && Synchronizable(s.objects[o]) && LiveIn(s, w, o)
    ensures WaitOn(s, o, w).Ok? && Inv(WaitOn(s, o, w).value)
    ensures OnlyWakes(s, WaitOn(s, o, w).value)
  {
    if Available(s.objects[o].kind) {
      SetObjKeeps(s, o, s.objects[o].(kind := Take(s.objects[o].kind)));
      WakeKeeps(SetKind(s, o, Take(s.objects[o].kind)), w, o);
    } else {
      PushKeeps(s, o, w);
    }
  }

  lemma RaiseSignalKeeps(s: State, o: ObjId)
    requires Inv(s) && o < |s.objects| && HasSignal(s.objects[o])
    ensures RaiseSignal(s, o).Ok? && Inv(RaiseSignal(s, o).value)
    ensures OnlyWakes(s, RaiseSignal(s, o).value)
  {
    var obj := s.objects[o];
    var raised := WithSignal(obj, obj.kind.signal.(signaled := true));
    if obj.kind.signal.reset.Sticky? {
      var s1 := SetObj(s, o, raised.(queue := []));
      SetObjKeeps(s, o, raised.(queue := []));
      QueueHasOneWakerPerThread(s, o);
      forall w | w in obj.queue ensures LiveOrSpent(s1, w, o) {
        assert w in Queue(obj);
      }
      WakeAllKeeps(s1, obj.queue, o);
    } else {
      SetObjKeeps(s, o, raised);
      if obj.queue != [] {
        var s1 := SetObj(s, o, raised);
        assert obj.queue[0] in Queue(obj);
        WakeKeeps(s1, obj.queue[0], o);
        ResetKeeps(Wake(s1, obj.queue[0], o).value.state, o);
      }
    }
  }

  lemma ResetKeeps(s: State, o: ObjId)
    requires Inv(s) && o < |s.objects|
    ensures Inv(ResetSignal(s, o))
  {
    if HasSignal(s.objects[o]) {
      SetObjKeeps(s, o, WithSignal(s.objects[o], s.objects[o].kind.signal.(signaled := false)));
    }
  }

  lemma TimerTickKeeps(s: State, o: ObjId, time: nat)
    requires Inv(s) && o < |s.objects|
    ensures TimerTick(s, o, time).Ok? && Inv(TimerTick(s, o, time).value)
    ensures OnlyWakes(s, TimerTick(s, o, time).value)
  {
    if TimerDue(s.objects[o], time) {
      LogKeeps(s, Signalled(o));
      SetObjKeeps(Log(s, Signalled(o)), o, Rearm(s.objects[o], time));
      RaiseSignalKeeps(SetObj(Log(s, Signalled(o)), o, Rearm(s.objects[o], time)), o);
    }
  }

  lemma ReleaseMutexKeeps(s: State, o: ObjId)
    requires Inv(s) && RunningCurrent(s)
    ensures ReleaseMutex(s, o).Ok? && Inv(ReleaseMutex(s, o).value)
    ensures OnlyWakes(s, ReleaseMutex(s, o).value)
  {
    if o < |s.objects| && s.objects[o].kind.Mutex? {
      var obj := s.objects[o];
      var s1 := Log(s, Released(o, s.current.value));
      LogKeeps(s, Released(o, s.current.value));
      if obj.queue != [] {
        assert obj.queue[0] in Queue(obj);
        WakeKeeps(s1, obj.queue[0], o);
      } else {
        SetObjKeeps(s1, o, obj.(kind := Mutex(false)));
      }
    }
  }

  /** The wakers a drain takes out, and the ones it keeps, all come from the arbiter's own queue. */
  lemma {:induction false} DrainParts(slots: seq<Slot>, addr: Address, count: nat)
    requires DistinctThreads(WakersOf(slots))
    ensures var d := DrainSlots(slots, addr, count);
      && (forall w :: w in d.woken ==> w in WakersOf(slots))
      && (forall w :: w in WakersOf(d.kept) ==> w in WakersOf(slots))
      && DistinctThreads(d.woken) && DistinctThreads(WakersOf(d.kept))
  {
    if slots != [] {
      var all, tail := WakersOf(slots), WakersOf(slots[1..]);
      assert all == [slots[0].waker] + tail;
      forall i | 0 <= i < |tail| ensures all[0].thread != tail[i].thread {
        assert tail[i] == all[i + 1];
      }
      var first := slots[0].addr == addr && count > 0;
      var left := if first && count != UNLIMITED then count - 1 else count;
      var rest := DrainSlots(slots[1..], addr, left);
      assert DistinctThreads(tail) by {
        forall i, j | 0 <= i < j < |tail| ensures tail[i].thread != tail[j].thread {
          assert all[i + 1].thread != all[j + 1].thread;
        }
      }
      DrainParts(slots[1..], addr, left);
      if first {
        PrependDistinct(all[0], tail, rest.woken);
      } else {
        PrependDistinct(all[0], tail, WakersOf(rest.kept));
        assert WakersOf([slots[0]] + rest.kept) == [all[0]] + WakersOf(rest.kept);
      }
    }
  }

  lemma PrependDistinct(w: Waker, tail: seq<Waker>, part: seq<Waker>)
    requires forall i :: 0 <= i < |tail| ==> w.thread != tail[i].thread
    requires DistinctThreads(part)
    requires forall v :: v in part ==> v in tail
    ensures DistinctThreads([w] + part)
  {
    forall i | 0 <= i < |part| ensures part[i].thread != w.thread {
      assert part[i] in part;
    }
  }

  lemma ArbiterSignalKeeps(s: State, o: ObjId, amount: I32, addr: Address)
    requires Inv(s)
    ensures ArbiterSignal(s, o, amount, addr).Ok? && Inv(ArbiterSignal(s, o, amount, addr).value)
    ensures OnlyWakes(s, ArbiterSignal(s, o, amount, addr).value)
  {
    if o < |s.objects| && s.objects[o].kind.Arbiter? {
      var obj := s.objects[o];
      var d := DrainSlots(obj.kind.slots, addr, SignalCount(amount));
      DrainParts(obj.kind.slots, addr, SignalCount(amount));
      SetObjKeeps(s, o, obj.(kind := Arbiter(d.kept)));
      WakeAllExpectKeeps(SetObj(s, o, obj.(kind := Arbiter(d.kept))), d.woken, o);
    }
  }

  lemma ArbiterWaitKeeps(s: State, o: ObjId, addr: Address)
    requires Inv(s) && RunningCurrent(s)
    ensures Keeps(s, ArbiterWait(s, o, addr))
  {
    if o < |s.objects| && s.objects[o].kind.Arbiter? {
      SuspendKeeps(s, [o], None, WaitArbiter);
      var r := Suspend(s, [o], None, WaitArbiter).value;
      var obj := s.objects[o];
      var obj' := obj.(kind := Arbiter(obj.kind.slots + [Slot(r.waker, addr)]));
      assert Queue(obj') == Queue(obj) + [r.waker];
      forall i | 0 <= i < |Queue(obj)| ensures Queue(obj)[i].thread != r.waker.thread {
        assert Queue(obj)[i] in Queue(obj);
      }
      SetObjKeeps(r.state, o, obj');
    }
  }

  lemma SendRequestKeeps(s: State, o: ObjId)
    requires Inv(s) && RunningCurrent(s)
    ensures Keeps(s, SendRequest(s, o))
  {
    if o < |s.objects| && s.objects[o].kind.ClientSession? {
      SuspendKeeps(s, [o], None, WaitSync1);
      var r := Suspend(s, [o], None, WaitSync1).value;
      var server := s.objects[o].kind.server;
      if server < |s.objects| && s.objects[server].kind.ServerSession? {
        PushKeeps(r.state, o, r.waker);
        var s1 := Push(r.state, o, r.waker);
        var srv := s1.objects[server];
        var srv' := srv.(kind := srv.kind.(requests := srv.kind.requests + [r.waker.thread]));
        SetObjKeeps(s1, server, srv');
        WakeFrontKeeps(SetObj(s1, server, srv'), server);
      }
    }
  }

  lemma DeliverKeeps(s: State, src: ThreadId, dest: ThreadId, image: seq<Bytes.Byte>)
    requires Inv(s)
    ensures Keeps(s, DeliverIpc(s, src, dest, image))
  {
  }

  lemma ReplyKeeps(s: State, o: ObjId, image: seq<Bytes.Byte>)
    requires Inv(s) && RunningCurrent(s)
    ensures Keeps(s, Reply(s, o, image))
  {
    if o < |s.objects| && s.objects[o].kind.ServerSession? && s.objects[o].kind.requests != [] {
      var srv := s.objects[o];
      var srv' := srv.(kind := srv.kind.(requests := srv.kind.requests[1..]));
      SetObjKeeps(s, o, srv');
      var s1 := SetObj(s, o, srv');
      DeliverKeeps(s1, s.current.value, srv.kind.requests[0], image);
      var r := DeliverIpc(s1, s.current.value, srv.kind.requests[0], image);
      if r.Ok? && srv.kind.client < |s.objects| && s.objects[srv.kind.client].kind.ClientSession? {
        WakeFrontKeeps(r.value, srv.kind.client);
      }
    }
  }

  /** Suspending on one object and queueing there, without trying to take it. */
  lemma SuspendPushKeeps(s: State, o: ObjId)
    requires Inv(s) && RunningCurrent(s) && o < |s.objects| && Synchronizable(s.objects[o])
    ensures Suspend(s, [o], None, WaitSync1).Ok?
    ensures var r := Suspend(s, [o], None, WaitSync1).value; Inv(Push(r.state, o, r.waker))
  {
    SuspendKeeps(s, [o], None, WaitSync1);
    var r := Suspend(s, [o], None, WaitSync1).value;
    PushKeeps(r.state, o, r.waker);
  }

  /** The state after a new session was queued at the server port. */
  ghost function WithPending(s: State, o: ObjId): State
    requires s.current.Some? && o < |s.objects| && s.objects[o].kind.ClientPort?
    requires s.objects[o].kind.server < |s.objects| && s.objects[s.objects[o].kind.server].kind.ServerPort?
  {
    var id := |s.objects|;
    var server := s.objects[o].kind.server;
    var srv := s.objects[server];
    SetObj(
      s.(objects := s.objects + [Object([], ServerSession([], id + 1, s.current.value)), Object([], ClientSession(id))]),
      server,
      srv.(kind := srv.kind.(sessions := srv.kind.sessions + [id])))
  }

  lemma WithPendingKeeps(s: State, o: ObjId)
    requires Inv(s) && s.current.Some? && o < |s.objects| && s.objects[o].kind.ClientPort?
    requires s.objects[o].kind.server < |s.objects| && s.objects[s.objects[o].kind.server].kind.ServerPort?
    ensures Inv(WithPending(s, o))
  {
    var id := |s.objects|;
    var server := s.objects[o].kind.server;
    var srv := s.objects[server];
    var added := [Object([], ServerSession([], id + 1, s.current.value)), Object([], ClientSession(id))];
    NewObjectsKeep(s, added);
    var s1 := s.(objects := s.objects + added);
    assert s1.objects[server] == srv;
    SetObjKeeps(s1, server, srv.(kind := srv.kind.(sessions := srv.kind.sessions + [id])));
  }

  lemma CreateSessionKeeps(s: State, o: ObjId)
    requires Inv(s) && RunningCurrent(s)
    ensures Keeps(s, CreateSession(s, o))
  {
    if o < |s.objects| && s.objects[o].kind.ClientPort? {
      var server := s.objects[o].kind.server;
      if server < |s.objects| && s.objects[server].kind.ServerPort? {
        WithPendingKeeps(s, o);
        var s1 := WithPending(s, o);
        WakeFrontKeeps(s1, server);
        WakeFrontKinds(s1, server);
        assert s1.objects[o].kind.ClientPort?;
        SuspendPushKeeps(WakeFront(s1, server).value, o);
      }
    }
  }

  /** Waking never changes what an object is, nor anything but its queue. */
  lemma WakeFrontKinds(s: State, o: ObjId)
    requires o < |s.objects| && WakeFront(s, o).Ok?
    ensures forall i :: 0 <= i < |s.objects| && !s.objects[i].kind.Arbiter? ==>
      WakeFront(s, o).value.objects[i].kind == s.objects[i].kind
  {
  }

  lemma AcceptSessionKeeps(s: State, o: ObjId)
    requires Inv(s) && RunningCurrent(s)
    ensures Keeps(s, AcceptSession(s, o))
  {
    if o < |s.objects| && s.objects[o].kind.ServerPort? {
      var srv := s.objects[o];
      if srv.kind.sessions == [] {
        SuspendKeeps(s, [o], None, WaitSync1);
        var r := Suspend(s, [o], None, WaitSync1).value;
        PushKeeps(r.state, o, r.waker);
      } else if srv.kind.client < |s.objects| && s.objects[srv.kind.client].kind.ClientPort? {
        var srv' := srv.(kind := srv.kind.(sessions := srv.kind.sessions[1..]));
        SetObjKeeps(s, o, srv');
        WakeFrontKeeps(SetObj(s, o, srv'), srv.kind.client);
      }
    }
  }

  lemma ExitKeeps(s: State)
    requires Inv(s) && RunningCurrent(s)
    ensures Keeps(s, Exit(s))
  {
    var t := s.current.value;
    var th := s.threads[t];
    var s1 := s.(threads := s.threads[t := th.(state := Done)]);
    assert Inv(s1);
    if th.kobj < |s.objects| && s.objects[th.kobj].kind.ThreadObj? && !s.objects[th.kobj].kind.dead {
      var obj := s.objects[th.kobj];
      var s2 := SetObj(s1, th.kobj, Object([], ThreadObj(true)));
      SetObjKeeps(s1, th.kobj, Object([], ThreadObj(true)));
      QueueHasOneWakerPerThread(s1, th.kobj);
      forall w | w in obj.queue ensures LiveOrSpent(s2, w, th.kobj) {
        assert w in Queue(s1.objects[th.kobj]);
      }
      WakeAllKeeps(s2, obj.queue, th.kobj);
    }
  }

  lemma {:induction false} TickThreadsKeeps(s: State, i: nat, time: nat)
    requires Inv(s) && i <= |s.threads|
    ensures TickThreads(s, i, time).Ok? && Inv(TickThreads(s, i, time).value)
    ensures OnlyWakes(s, TickThreads(s, i, time).value)
    decreases |s.threads| - i
  {
    hide WakeUp;
    hide Inv;
    if i < |s.threads| {
      if Expired(s.threads[i], time) {
        WakeUpKeeps(s, i, None);
        hide WokenUp;
        TickThreadsKeeps(WakeUp(s, i, None).value, i + 1, time);
      } else {
        TickThreadsKeeps(s, i + 1, time);
      }
    }
  }

  lemma {:induction false} TickTimersKeeps(s: State, i: nat, time: nat)
    requires Inv(s) && i <= |s.objects|
    ensures TickTimers(s, i, time).Ok? && Inv(TickTimers(s, i, time).value)
    ensures OnlyWakes(s, TickTimers(s, i, time).value)
    decreases |s.objects| - i
  {
    if i < |s.objects| {
      TimerTickKeeps(s, i, time);
      TickTimersKeeps(TimerTick(s, i, time).value, i + 1, time);
    }
  }
}
