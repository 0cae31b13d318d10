/**
  The kernel as it runs: thread and object tables updated in place, queues filtered and drained by
  loops. Every method is proved against the step function of the same name, so what is shown about the
  steps and their runs holds of it.
 */
module KernelImpl {
  import opened Outcomes
  import opened Bytes
  import opened Machine
  import M = Machine
  import opened Wakers
  import opened WaitSyncN
  import opened Safety
  import opened Grants
  import opened Signals
  import opened Timers
  import opened Lockstep
  import opened Calls
  import opened Ticks
  import opened Joins
  import opened Progress
  import opened Waiters

  /** An operation ends in the state the step yields, or in the panic it reports. */
  predicate Did(r: Outcome<State>, fault: Option<Fault>, after: State) {
    match r
    case Ok(s) => fault.None? && after == s
    case Panic(f) => fault == Some(f)
  }

  // ---------------------------------------------------------------- queues

  /** `retain(|waker| !waker.check_opaque_id(id))` */
  method Retain(q: seq<Waker>, t: ThreadId) returns (r: seq<Waker>)
    ensures r == PurgeQueue(q, t)
  {
    r := [];
    ghost var whole := PurgeQueue(q, t);
    assert q[0..] == q;
    for i := 0 to |q|
      invariant whole == r + PurgeQueue(q[i..], t)
    {
      assert q[i..][0] == q[i] && q[i..][1..] == q[i + 1..];
      if q[i].thread != t {
        r := r + [q[i]];
      }
    }
  }

  lemma PurgeSlotsFrom(done: seq<Slot>, slots: seq<Slot>, i: nat, t: ThreadId)
    requires i < |slots|
    ensures done + PurgeSlots(slots[i..], t) ==
      (if slots[i].waker.thread != t then done + [slots[i]] else done) + PurgeSlots(slots[i + 1..], t)
  {
    hide WakersOf;
    hide PurgeQueue;
    assert slots[i..][0] == slots[i] && slots[i..][1..] == slots[i + 1..];
  }

  method RetainSlots(slots: seq<Slot>, t: ThreadId) returns (r: seq<Slot>)
    ensures r == PurgeSlots(slots, t)
  {
    hide WakersOf;
    hide PurgeQueue;
    r := [];
    ghost var whole := PurgeSlots(slots, t);
    assert slots[0..] == slots && slots[|slots|..] == [];
    assert PurgeSlots([], t) == [];
    hide PurgeSlots;
    for i := 0 to |slots|
      invariant whole == r + PurgeSlots(slots[i..], t)
    {
      PurgeSlotsFrom(r, slots, i, t);
      if slots[i].waker.thread != t {
        r := r + [slots[i]];
      }
    }
  }

  lemma {:induction false} PurgeSlotsAgain(slots: seq<Slot>, t: ThreadId)
    ensures PurgeSlots(PurgeSlots(slots, t), t) == PurgeSlots(slots, t)
  {
    hide WakersOf;
    hide PurgeQueue;
    if slots != [] {
      PurgeSlotsAgain(slots[1..], t);
    }
  }

  /** Purging an object twice is purging it once. */
  lemma PurgeAgain(o: Object, t: ThreadId)
    ensures Purge(Purge(o, t), t) == Purge(o, t)
  {
    if o.kind.Arbiter? {
      PurgeSlotsAgain(o.kind.slots, t);
    }
  }

  /** The wakers drained by an arbiter signal, and the slots that stay. */
  method DrainFilter(slots: seq<Slot>, addr: Address, count: nat) returns (woken: seq<Waker>, kept: seq<Slot>)
    ensures Drain(woken, kept) == DrainSlots(slots, addr, count)
  {
    woken, kept := [], [];
    var left := count;
    ghost var whole := DrainSlots(slots, addr, count);
    assert slots[0..] == slots && [] + whole.woken == whole.woken && [] + whole.kept == whole.kept;
    for i := 0 to |slots|
      invariant whole.woken == woken + DrainSlots(slots[i..], addr, left).woken
      invariant whole.kept == kept + DrainSlots(slots[i..], addr, left).kept
    {
      assert slots[i..][0] == slots[i] && slots[i..][1..] == slots[i + 1..];
      if slots[i].addr == addr && left > 0 {
        if left != UNLIMITED {
          left := left - 1;
        }
        woken := woken + [slots[i].waker];
      } else {
        kept := kept + [slots[i]];
      }
    }
  }

  /** Creating a session: offer it, then suspend, then queue. */
  lemma CreateUnfolds(s: State, o: ObjId)
    requires s.current.Some? && o < |s.objects| && s.objects[o].kind.ClientPort?
    requires s.objects[o].kind.server < |s.objects| && s.objects[s.objects[o].kind.server].kind.ServerPort?
    ensures o < |WithPending(s, o).objects| && s.objects[o].kind.server < |WithPending(s, o).objects|
    ensures M.CreateSession(s, o) ==
      match M.WakeFront(WithPending(s, o), s.objects[o].kind.server)
      case Panic(f) => Panic(f)
      case Ok(s2) =>
        match M.Suspend(s2, [o], None, WaitSync1)
        case Panic(f) => Panic(f)
        case Ok(r) => Ok(Push(r.state, o, r.waker))
  {
    hide M.WakeFront;
    hide M.Suspend;
  }

  class Kernel {
    var threads: seq<Thread>
    var objects: seq<Object>
    var current: Option<ThreadId>
    var next: Option<ThreadId>
    ghost var history: seq<Entry>

    ghost function Snapshot(): State
      reads this
    {
      State(threads, objects, current, next, history)
    }

    constructor ()
      ensures Snapshot() == Initial
    {
      threads, objects, current, next, history := [], [], None, None, [];
    }

    // -------------------------------------------------------------- suspending and waking

    /** `remove_wakers_by_opaque_id` */
    method PurgeObject(o: ObjId, t: ThreadId)
      requires o < |objects|
      modifies this`objects
      ensures objects == old(objects)[o := Purge(old(objects)[o], t)]
    {
      var obj := objects[o];
      if obj.kind.Arbiter? {
        var slots := RetainSlots(obj.kind.slots, t);
        objects := objects[o := obj.(kind := Arbiter(slots))];
      } else {
        var queue := Retain(obj.queue, t);
        objects := objects[o := obj.(queue := queue)];
      }
    }

    /** The purge loop at the end of `wake_up`. */
    method PurgeAll(waited: seq<ObjId>, t: ThreadId)
      modifies this`objects
      ensures objects == PurgeWaited(old(objects), waited, t)
    {
      hide Purge;
      for i := 0 to |waited|
        invariant objects == PurgeWaited(old(objects), waited[..i], t)
      {
        assert waited[..i + 1] == waited[..i] + [waited[i]];
        if waited[i] < |objects| {
          PurgeAgain(old(objects)[waited[i]], t);
          PurgeObject(waited[i], t);
        }
      }
      assert waited[..|waited|] == waited;
    }

    /** `CommonThread::wake_up` */
    method WakeUp(t: ThreadId, cause: Option<ObjId>) returns (fault: Option<Fault>)
      requires t < |threads|
      modifies this`threads, this`objects, this`history
      ensures Did(M.WakeUp(old(Snapshot()), t, cause), fault, Snapshot())
    {
      hide PurgeWaited;
      hide ResumeValue;
      var th := threads[t];
      var resume := ResumeValue(th, cause);
      if resume.Panic? {
        return Some(resume.fault);
      }
      PurgeAll(th.waitObjects, t);
      threads := threads[t := th.(
        state := Ready, wakeKey := KeyAfter(th.wakeKey), resume := resume.value, waitObjects := [])];
      history := history + [Woken(Waker(t, th.wakeKey), cause)];
      return None;
    }

    /** `Waker::wake` */
    method Wake(w: Waker, o: ObjId) returns (fault: Option<Fault>, success: bool)
      modifies this`threads, this`objects, this`history
      ensures match M.Wake(old(Snapshot()), w, o)
        case Ok(r) => fault.None? && Snapshot() == r.state && success == r.success
        case Panic(f) => fault == Some(f)
      ensures Inv(old(Snapshot())) && LiveIn(old(Snapshot()), w, o) ==>
        fault.None? && success && WokenUp(old(Snapshot()), Snapshot(), w.thread, Some(o)) && Inv(Snapshot())
      ensures w.thread < |old(threads)| && old(threads)[w.thread].wakeKey != w.key ==>
        fault.None? && !success && Snapshot() == old(Snapshot())
    {
      hide Inv;
      if Inv(Snapshot()) && LiveIn(Snapshot(), w, o) {
        WakeKeeps(Snapshot(), w, o);
      }
      hide WokenUp;
      hide M.WakeUp;
      if w.thread >= |threads| {
        return Some(NoSuchThread), false;
      }
      if threads[w.thread].wakeKey != w.key {
        return None, false;
      }
      fault := WakeUp(w.thread, Some(o));
      success := true;
    }

    /** `wake(..).expect(..)` */
    method WakeExpect(w: Waker, o: ObjId) returns (fault: Option<Fault>)
      modifies this`threads, this`objects, this`history
      ensures Did(M.WakeExpect(old(Snapshot()), w, o), fault, Snapshot())
    {
      hide M.Wake;
      var success;
      fault, success := Wake(w, o);
      if fault.None? && !success {
        fault := Some(WakeFailed);
      }
    }

    /** The loop over a drained queue that ignores wakers no longer valid. */
    method WakeAll(ws: seq<Waker>, o: ObjId) returns (fault: Option<Fault>)
      modifies this`threads, this`objects, this`history
      ensures Did(M.WakeAll(old(Snapshot()), ws, o), fault, Snapshot())
    {
      hide M.Wake;
      assert ws[0..] == ws;
      for i := 0 to |ws|
        invariant M.WakeAll(Snapshot(), ws[i..], o) == M.WakeAll(old(Snapshot()), ws, o)
      {
        assert ws[i..][0] == ws[i] && ws[i..][1..] == ws[i + 1..];
        var success;
        fault, success := Wake(ws[i], o);
        if fault.Some? {
          return;
        }
      }
      return None;
    }

    /** The loop over a drained queue that insists on every waker. */
    method WakeAllExpect(ws: seq<Waker>, o: ObjId) returns (fault: Option<Fault>)
      modifies this`threads, this`objects, this`history
      ensures Did(M.WakeAllExpect(old(Snapshot()), ws, o), fault, Snapshot())
    {
      hide M.WakeExpect;
      assert ws[0..] == ws;
      for i := 0 to |ws|
        invariant M.WakeAllExpect(Snapshot(), ws[i..], o) == M.WakeAllExpect(old(Snapshot()), ws, o)
      {
        assert ws[i..][0] == ws[i] && ws[i..][1..] == ws[i + 1..];
        fault := WakeExpect(ws[i], o);
        if fault.Some? {
          return;
        }
      }
      return None;
    }

    /** `wake_thread` of ports and sessions */
    method WakeFront(o: ObjId) returns (fault: Option<Fault>)
      requires o < |objects|
      modifies this`threads, this`objects, this`history
      ensures Did(M.WakeFront(old(Snapshot()), o), fault, Snapshot())
    {
      hide M.WakeExpect;
      var obj := objects[o];
      if obj.queue == [] {
        return None;
      }
      objects := objects[o := obj.(queue := obj.queue[1..])];
      fault := WakeExpect(obj.queue[0], o);
    }

    /** `suspend_thread` */
    method Suspend(objs: seq<ObjId>, deadline: Option<nat>, kind: WaitType)
      returns (fault: Option<Fault>, waker: Waker)
      modifies this`threads
      ensures match M.Suspend(old(Snapshot()), objs, deadline, kind)
        case Ok(r) => fault.None? && Snapshot() == r.state && waker == r.waker
        case Panic(f) => fault == Some(f)
      ensures Inv(old(Snapshot())) && RunningCurrent(old(Snapshot())) && (kind == WaitSleep ==> objs == []) ==>
        fault.None? && Inv(Snapshot()) && SuspendedOn(old(Snapshot()), Snapshot(), objs, deadline, kind, waker)
    {
      hide Inv;
      if Inv(Snapshot()) && RunningCurrent(Snapshot()) && (kind == WaitSleep ==> objs == []) {
        SuspendExact(Snapshot(), objs, deadline, kind);
      }
      hide SuspendedOn;
      waker := Waker(0, 0);
      if current.None? {
        return Some(NoCurrentThread), waker;
      }
      if current.value >= |threads| {
        return Some(NoSuchThread), waker;
      }
      var t := current.value;
      var th := threads[t];
      if th.state != Running {
        return Some(NotRunning), waker;
      }
      threads := threads[t := th.(
        state := Waiting, waitObjects := objs, deadline := deadline, waitType := Some(kind))];
      return None, Waker(t, th.wakeKey);
    }

    // -------------------------------------------------------------- waiting

    /** `wait` of every synchronisation object */
    method WaitOn(o: ObjId, w: Waker) returns (fault: Option<Fault>)
      requires o < |objects| && Synchronizable(objects[o])
      modifies this`threads, this`objects, this`history
      ensures Did(M.WaitOn(old(Snapshot()), o, w), fault, Snapshot())
      ensures Inv(old(Snapshot())) && LiveIn(old(Snapshot()), w, o) ==>
        fault.None? && Inv(Snapshot()) && OnlyWakes(old(Snapshot()), Snapshot())
      ensures w.thread < |old(threads)| && old(threads)[w.thread].wakeKey != w.key ==>
        && fault.None? && threads == old(threads)
        && forall x :: 0 <= x < |objects| ==> objects[x].kind == old(objects)[x].kind
    {
      hide Inv;
      if Inv(Snapshot()) && LiveIn(Snapshot(), w, o) {
        WaitOnKeeps(Snapshot(), o, w);
      }
      if w.thread < |threads| && threads[w.thread].wakeKey != w.key {
        SpentWaitOn(Snapshot(), o, w);
      }
      hide M.Wake;
      hide Take;
      hide GiveBack;
      hide Available;
      var obj := objects[o];
      if Available(obj.kind) {
        objects := objects[o := obj.(kind := Take(obj.kind))];
        var success;
        fault, success := Wake(w, o);
        if fault.None? && !success {
          objects := objects[o := objects[o].(kind := GiveBack(objects[o].kind))];
        }
      } else {
        objects := objects[o := obj.(queue := obj.queue + [w])];
        return None;
      }
    }

    /** `wait_sync_1` */
    method Wait1(o: ObjId, deadline: Option<nat>) returns (fault: Option<Fault>)
      modifies this`threads, this`objects, this`history
      ensures Did(M.Wait1(old(Snapshot()), o, deadline), fault, Snapshot())
      ensures Inv(old(Snapshot())) && RunningCurrent(old(Snapshot())) && o < |old(objects)| && Synchronizable(old(objects)[o]) ==>
        fault.None? && Inv(Snapshot()) && GotOrQueued(old(Snapshot()), Snapshot(), o, deadline)
    {
      hide Inv;
      if Inv(Snapshot()) && RunningCurrent(Snapshot()) && o < |objects| && Synchronizable(objects[o]) {
        Wait1Exact(Snapshot(), o, deadline);
      }
      hide GotOrQueued;
      hide M.Suspend;
      hide M.WaitOn;
      if o >= |objects| || !Synchronizable(objects[o]) {
        return None;
      }
      var w;
      fault, w := Suspend([o], deadline, WaitSync1);
      if fault.None? {
        fault := WaitOn(o, w);
      }
    }

    /** The loop of `wait_sync_n`, which goes on after a successful wait. */
    method WaitEach(objs: seq<ObjId>, w: Waker) returns (fault: Option<Fault>)
      requires forall i :: 0 <= i < |objs| ==> objs[i] < |objects|
      modifies this`threads, this`objects, this`history
      ensures Did(M.WaitEach(old(Snapshot()), objs, w), fault, Snapshot())
    {
      hide M.WaitOn;
      assert objs[0..] == objs;
      for i := 0 to |objs|
        invariant |objects| == |old(objects)|
        invariant M.WaitEach(Snapshot(), objs[i..], w) == M.WaitEach(old(Snapshot()), objs, w)
      {
        assert objs[i..][0] == objs[i] && objs[i..][1..] == objs[i + 1..];
        if !Synchronizable(objects[objs[i]]) {
          return Some(NotSynchronizable);
        }
        fault := WaitOn(objs[i], w);
        if fault.Some? {
          return;
        }
      }
      return None;
    }

    /** `wait_sync_n` */
    method WaitN(objs: seq<ObjId>, deadline: Option<nat>) returns (fault: Option<Fault>)
      modifies this`threads, this`objects, this`history
      ensures Did(M.WaitN(old(Snapshot()), objs, deadline), fault, Snapshot())
      ensures RunningCurrent(old(Snapshot())) && Waitable(Kinds(old(Snapshot())), objs) ==>
        fault.None? && TookFirst(old(Snapshot()), Snapshot(), objs, deadline)
      ensures Inv(old(Snapshot())) && RunningCurrent(old(Snapshot())) && Waitable(Kinds(old(Snapshot())), objs) ==>
        (Inv(Snapshot()) <==> SafeList(Kinds(old(Snapshot())), objs))
    {
      hide Inv;
      ghost var before := Snapshot();
      if RunningCurrent(before) && Waitable(Kinds(before), objs) {
        WaitNTakesAtMostOne(before, objs, deadline);
        if Inv(before) {
          WaitNKeepsIffSafe(before, objs, deadline);
        }
      }
      hide TookFirst;
      hide SafeList;
      hide Waitable;
      hide M.Suspend;
      hide M.WaitEach;
      if exists i :: 0 <= i < |objs| && objs[i] >= |objects| {
        return Some(NullObject);
      }
      var w;
      fault, w := Suspend(objs, deadline, WaitSyncN);
      if fault.None? {
        fault := WaitEach(objs, w);
      }
    }

    method SleepThread(deadline: Option<nat>) returns (fault: Option<Fault>)
      modifies this`threads
      ensures Did(M.SleepThread(old(Snapshot()), deadline), fault, Snapshot())
      ensures Inv(old(Snapshot())) && RunningCurrent(old(Snapshot())) ==>
        && fault.None? && Inv(Snapshot())
        && SuspendedOn(
          old(Snapshot()), Snapshot(), [], deadline, WaitSleep,
          Waker(old(current).value, old(threads)[old(current).value].wakeKey))
    {
      hide Inv;
      hide SuspendedOn;
      var w;
      fault, w := Suspend([], deadline, WaitSleep);
    }

    // -------------------------------------------------------------- events, timers, mutexes, arbiters

    /** `signal` of an event, and the firing of a timer */
    method RaiseSignal(o: ObjId) returns (fault: Option<Fault>)
      requires o < |objects| && HasSignal(objects[o])
      modifies this`threads, this`objects, this`history
      ensures Did(M.RaiseSignal(old(Snapshot()), o), fault, Snapshot())
      ensures Inv(old(Snapshot())) ==> fault.None? && Inv(Snapshot()) && RaisedExactly(old(Snapshot()), Snapshot(), o)
    {
      hide Inv;
      if Inv(Snapshot()) {
        RaiseExact(Snapshot(), o);
        RaiseSignalKeeps(Snapshot(), o);
      }
      hide RaisedExactly;
      hide M.WakeAll;
      hide M.WakeExpect;
      hide WithSignal;
      var obj := objects[o];
      var raised := WithSignal(obj, obj.kind.signal.(signaled := true));
      if obj.kind.signal.reset.Sticky? {
        objects := objects[o := raised.(queue := [])];
        fault := WakeAll(obj.queue, o);
      } else {
        objects := objects[o := raised];
        if obj.queue == [] {
          return None;
        }
        fault := WakeExpect(obj.queue[0], o);
        if fault.None? {
          ResetSignal(o);
        }
      }
    }

    /** `Signal::reset` */
    method ResetSignal(o: ObjId)
      requires o < |objects|
      modifies this`objects
      ensures Snapshot() == M.ResetSignal(old(Snapshot()), o)
    {
      hide WithSignal;
      var obj := objects[o];
      if HasSignal(obj) {
        objects := objects[o := WithSignal(obj, obj.kind.signal.(signaled := false))];
      }
    }

    method SignalEvent(o: ObjId) returns (fault: Option<Fault>)
      modifies this`threads, this`objects, this`history
      ensures Did(M.SignalEvent(old(Snapshot()), o), fault, Snapshot())
      ensures Inv(old(Snapshot())) && o < |old(objects)| && old(objects)[o].kind.Event? ==>
        fault.None? && Inv(Snapshot()) && RaisedExactly(old(Snapshot()), Snapshot(), o)
    {
      hide Inv;
      if Inv(Snapshot()) && o < |objects| && objects[o].kind.Event? {
        SignalEventExact(Snapshot(), o);
      }
      hide RaisedExactly;
      hide M.RaiseSignal;
      if o >= |objects| || !objects[o].kind.Event? {
        return None;
      }
      history := history + [Signalled(o)];
      fault := RaiseSignal(o);
    }

    method ClearEvent(o: ObjId)
      modifies this`objects
      ensures Snapshot() == M.ClearEvent(old(Snapshot()), o)
      ensures o < |old(objects)| && old(objects)[o].kind.Event? ==>
        objects == old(objects)[o := Object(old(objects)[o].queue, Event(Signal(old(objects)[o].kind.signal.reset, false)))]
    {
      if o < |objects| && objects[o].kind.Event? {
        ClearedEventBlocks(Snapshot(), o, Waker(0, 0));
      }
      hide M.ResetSignal;
      if o < |objects| && objects[o].kind.Event? {
        ResetSignal(o);
      }
    }

    method SetTimer(o: ObjId, initial: int, interval: int)
      modifies this`objects
      ensures Snapshot() == M.SetTimer(old(Snapshot()), o, initial, interval)
      ensures o < |old(objects)| && old(objects)[o].kind.Timer? ==>
        TimerSet(old(Snapshot()), Snapshot(), o, initial, interval)
    {
      if o < |objects| && objects[o].kind.Timer? {
        SetTimerExact(Snapshot(), o, initial, interval);
      }
      hide TimerSet;
      if o < |objects| && objects[o].kind.Timer? {
        objects := objects[o := objects[o].(kind := Timer(objects[o].kind.signal, initial, interval))];
      }
    }

    /** `tick` of a timer */
    method TimerTick(o: ObjId, time: nat) returns (fault: Option<Fault>)
      requires o < |objects|
      modifies this`threads, this`objects, this`history
      ensures Did(M.TimerTick(old(Snapshot()), o, time), fault, Snapshot())
      ensures Inv(old(Snapshot())) ==> fault.None? && Inv(Snapshot())
      ensures Inv(old(Snapshot())) && TimerDue(old(objects)[o], time) ==>
        TimerFired(old(Snapshot()), Snapshot(), o, time)
      ensures !TimerDue(old(objects)[o], time) ==> Snapshot() == old(Snapshot())
      ensures fault.None? ==> OneTimerMoved(old(Snapshot()), Snapshot(), o, time)
    {
      hide Inv;
      if Inv(Snapshot()) {
        TimerTickKeeps(Snapshot(), o, time);
        if objects[o].kind.Timer? {
          TimerTickExact(Snapshot(), o, time);
        }
      }
      hide TimerFired;
      if M.TimerTick(Snapshot(), o, time).Ok? {
        TimerTickMovesOne(Snapshot(), o, time);
      }
      hide OneTimerMoved;
      hide M.RaiseSignal;
      if !TimerDue(objects[o], time) {
        return None;
      }
      history := history + [Signalled(o)];
      objects := objects[o := Rearm(objects[o], time)];
      fault := RaiseSignal(o);
    }

    /** `release` */
    method ReleaseMutex(o: ObjId) returns (fault: Option<Fault>)
      modifies this`threads, this`objects, this`history
      ensures Did(M.ReleaseMutex(old(Snapshot()), o), fault, Snapshot())
      ensures Inv(old(Snapshot())) && RunningCurrent(old(Snapshot())) && o < |old(objects)| && old(objects)[o].kind.Mutex? ==>
        fault.None? && Inv(Snapshot()) && HandedOver(old(Snapshot()), Snapshot(), o)
    {
      hide Inv;
      ghost var before := Snapshot();
      if Inv(before) && RunningCurrent(before) && o < |objects| && objects[o].kind.Mutex? {
        ReleaseHandsToOldest(before, o);
        ReleaseMutexKeeps(before, o);
      }
      hide HandedOver;
      hide M.WakeExpect;
      if current.None? {
        return Some(NoCurrentThread);
      }
      if o >= |objects| || !objects[o].kind.Mutex? {
        return None;
      }
      history := history + [Released(o, current.value)];
      var obj := objects[o];
      if obj.queue != [] {
        fault := WakeExpect(obj.queue[0], o);
      } else {
        objects := objects[o := obj.(kind := Mutex(false))];
        return None;
      }
    }

    /** `signal` of an arbiter: whether any waiter was woken is returned as well. */
    method ArbiterSignal(o: ObjId, amount: I32, addr: Address) returns (fault: Option<Fault>, hasWoken: bool)
      modifies this`threads, this`objects, this`history
      ensures Did(M.ArbiterSignal(old(Snapshot()), o, amount, addr), fault, Snapshot())
      ensures hasWoken <==>
        && o < |old(objects)| && old(objects)[o].kind.Arbiter?
        && amount != 0 && WaitersOn(old(objects)[o].kind.slots, addr) != []
      ensures Inv(old(Snapshot())) && o < |old(objects)| && old(objects)[o].kind.Arbiter? ==>
        fault.None? && Inv(Snapshot()) && OldestReleased(old(Snapshot()), Snapshot(), o, amount, addr)
    {
      hide Inv;
      hide WaitersOn;
      ghost var before := Snapshot();
      if o < |objects| && objects[o].kind.Arbiter? {
        DrainTakesOldest(objects[o].kind.slots, addr, SignalCount(amount));
        if Inv(before) {
          ArbiterSignalExact(before, o, amount, addr);
          ArbiterSignalKeeps(before, o, amount, addr);
        }
      }
      hide OldestReleased;
      hide M.WakeAllExpect;
      hide DrainSlots;
      if o >= |objects| || !objects[o].kind.Arbiter? {
        return None, false;
      }
      var woken, kept := DrainFilter(objects[o].kind.slots, addr, SignalCount(amount));
      objects := objects[o := objects[o].(kind := Arbiter(kept))];
      hasWoken := woken != [];
      fault := WakeAllExpect(woken, o);
    }

    /** `wait` of an arbiter */
    method ArbiterWait(o: ObjId, addr: Address) returns (fault: Option<Fault>)
      modifies this`threads, this`objects
      ensures Did(M.ArbiterWait(old(Snapshot()), o, addr), fault, Snapshot())
      ensures Inv(old(Snapshot())) && RunningCurrent(old(Snapshot())) && o < |old(objects)| && old(objects)[o].kind.Arbiter? ==>
        fault.None? && Inv(Snapshot()) && QueuedAtArbiter(old(Snapshot()), Snapshot(), o, addr)
    {
      hide Inv;
      if Inv(Snapshot()) && RunningCurrent(Snapshot()) && o < |objects| && objects[o].kind.Arbiter? {
        ArbiterWaitExact(Snapshot(), o, addr);
      }
      hide QueuedAtArbiter;
      hide M.Suspend;
      if o >= |objects| || !objects[o].kind.Arbiter? {
        return None;
      }
      var w;
      fault, w := Suspend([o], None, WaitArbiter);
      if fault.None? {
        objects := objects[o := objects[o].(kind := Arbiter(objects[o].kind.slots + [Slot(w, addr)]))];
      }
    }

    // -------------------------------------------------------------- sessions and ports

    /** `send_sync_request` */
    method SendRequest(o: ObjId) returns (fault: Option<Fault>)
      modifies this`threads, this`objects, this`history
      ensures Did(M.SendRequest(old(Snapshot()), o), fault, Snapshot())
      ensures IpcCaller(old(Snapshot())) && o < |old(objects)| && old(objects)[o].kind.ClientSession? ==>
        && fault.None? && IpcSound(Snapshot()) && RequestSent(old(Snapshot()), Snapshot(), o)
        && old(objects)[o].kind.server < |old(objects)|
        && CallerQueued(old(Snapshot()), Snapshot(), o, old(objects)[o].kind.server)
    {
      hide IpcCaller;
      hide IpcSound;
      if IpcCaller(Snapshot()) && o < |objects| && objects[o].kind.ClientSession? {
        SendExact(Snapshot(), o);
      }
      hide CallerQueued;
      hide RequestSent;
      hide M.Suspend;
      hide M.WakeFront;
      if o >= |objects| || !objects[o].kind.ClientSession? {
        return None;
      }
      var w;
      fault, w := Suspend([o], None, WaitSync1);
      if fault.Some? {
        return;
      }
      var server := objects[o].kind.server;
      if server >= |objects| || !objects[server].kind.ServerSession? {
        return Some(Disconnected);
      }
      objects := objects[o := objects[o].(queue := objects[o].queue + [w])];
      var srv := objects[server];
      objects := objects[server := srv.(kind := srv.kind.(requests := srv.kind.requests + [w.thread]))];
      fault := WakeFront(server);
    }

    /** `translate_ipc`, with the message it delivers as a parameter */
    method DeliverIpc(src: ThreadId, dest: ThreadId, image: seq<Byte>) returns (fault: Option<Fault>)
      modifies this`threads
      ensures Did(M.DeliverIpc(old(Snapshot()), src, dest, image), fault, Snapshot())
    {
      if src == dest || src >= |threads| || dest >= |threads| {
        return Some(NoSuchThread);
      }
      threads := threads[dest := threads[dest].(ipcData := image)];
      return None;
    }

    /** `receive` */
    method Receive(o: ObjId, image: seq<Byte>) returns (fault: Option<Fault>)
      modifies this`threads
      ensures Did(M.Receive(old(Snapshot()), o, image), fault, Snapshot())
      ensures IpcCaller(old(Snapshot())) && Requested(old(objects), o) ==>
        fault.None? && OnlyReceived(old(Snapshot()), Snapshot(), image)
    {
      hide IpcCaller;
      hide IpcSound;
      if IpcCaller(Snapshot()) && Requested(objects, o) {
        ReceiveExact(Snapshot(), o, image);
      }
      hide OnlyReceived;
      hide M.DeliverIpc;
      if current.None? {
        return Some(NoCurrentThread);
      }
      if o >= |objects| || !objects[o].kind.ServerSession? || objects[o].kind.requests == [] {
        return None;
      }
      fault := DeliverIpc(objects[o].kind.requests[0], current.value, image);
    }

    /** `reply` */
    method Reply(o: ObjId, image: seq<Byte>) returns (fault: Option<Fault>)
      modifies this`threads, this`objects, this`history
      ensures Did(M.Reply(old(Snapshot()), o, image), fault, Snapshot())
      ensures IpcCaller(old(Snapshot())) && Requested(old(objects), o) ==>
        fault.None? && IpcSound(Snapshot()) && Replied(old(Snapshot()), Snapshot(), o, image)
    {
      hide IpcCaller;
      hide IpcSound;
      if IpcCaller(Snapshot()) && Requested(objects, o) {
        ReplyExact(Snapshot(), o, image);
      }
      hide Replied;
      hide M.DeliverIpc;
      hide M.WakeFront;
      if current.None? {
        return Some(NoCurrentThread);
      }
      if o >= |objects| || !objects[o].kind.ServerSession? {
        return None;
      }
      var srv := objects[o];
      if srv.kind.requests == [] {
        return Some(RepliedToNobody);
      }
      var client := srv.kind.client;
      var connected := client < |objects| && objects[client].kind.ClientSession?;
      objects := objects[o := srv.(kind := srv.kind.(requests := srv.kind.requests[1..]))];
      fault := DeliverIpc(current.value, srv.kind.requests[0], image);
      if fault.Some? {
        return;
      }
      if !connected {
        return Some(Disconnected);
      }
      fault := WakeFront(client);
    }

    /** A new pair of session ends is made, and its server end offered at the server port. */
    method OfferSession(o: ObjId) returns (fault: Option<Fault>)
      requires current.Some? && o < |objects| && objects[o].kind.ClientPort?
      requires objects[o].kind.server < |objects| && objects[objects[o].kind.server].kind.ServerPort?
      modifies this`threads, this`objects, this`history
      ensures Did(M.WakeFront(WithPending(old(Snapshot()), o), old(objects)[o].kind.server), fault, Snapshot())
    {
      hide M.WakeFront;
      var id, server := |objects|, objects[o].kind.server;
      var srv := objects[server];
      objects := objects + [Object([], ServerSession([], id + 1, current.value)), Object([], ClientSession(id))];
      objects := objects[server := srv.(kind := srv.kind.(sessions := srv.kind.sessions + [id]))];
      fault := WakeFront(server);
    }

    /** `create_session_to_port` */
    method CreateSession(o: ObjId) returns (fault: Option<Fault>)
      modifies this`threads, this`objects, this`history
      ensures Did(M.CreateSession(old(Snapshot()), o), fault, Snapshot())
      ensures IpcCaller(old(Snapshot())) && o < |old(objects)| && old(objects)[o].kind.ClientPort? ==>
        && fault.None? && IpcSound(Snapshot()) && SessionPending(old(Snapshot()), Snapshot(), o)
        && old(objects)[o].kind.server < |old(objects)|
        && CallerQueued(old(Snapshot()), Snapshot(), o, old(objects)[o].kind.server)
    {
      hide CallerQueued;
      hide IpcCaller;
      hide IpcSound;
      hide SessionPending;
      hide M.Suspend;
      hide M.WakeFront;
      if IpcCaller(Snapshot()) && o < |objects| && objects[o].kind.ClientPort? {
        CreateExact(Snapshot(), o);
      }
      if current.None? {
        return Some(NoCurrentThread);
      }
      if o >= |objects| || !objects[o].kind.ClientPort? {
        return None;
      }
      var server := objects[o].kind.server;
      if server >= |objects| || !objects[server].kind.ServerPort? {
        return Some(Disconnected);
      }
      ghost var before := Snapshot();
      CreateUnfolds(before, o);
      hide M.CreateSession;
      fault := OfferSession(o);
      if fault.Some? {
        return;
      }
      var w;
      fault, w := Suspend([o], None, WaitSync1);
      if fault.None? {
        objects := objects[o := objects[o].(queue := objects[o].queue + [w])];
      }
    }

    /** `accept_session` */
    method AcceptSession(o: ObjId) returns (fault: Option<Fault>)
      modifies this`threads, this`objects, this`history
      ensures Did(M.AcceptSession(old(Snapshot()), o), fault, Snapshot())
      ensures IpcCaller(old(Snapshot())) && Offered(old(objects), o) ==>
        fault.None? && IpcSound(Snapshot()) && Accepted(old(Snapshot()), Snapshot(), o)
      ensures IpcCaller(old(Snapshot())) && NothingOffered(old(objects), o) ==>
        fault.None? && IpcSound(Snapshot()) && Snapshot() == Joined(old(Snapshot()), o)
    {
      hide IpcCaller;
      hide IpcSound;
      hide Joined;
      if IpcCaller(Snapshot()) && Offered(objects, o) {
        AcceptExact(Snapshot(), o);
      }
      if IpcCaller(Snapshot()) && NothingOffered(objects, o) {
        AcceptWaits(Snapshot(), o);
      }
      hide Accepted;
      hide M.Suspend;
      hide M.WakeFront;
      if current.None? {
        return Some(NoCurrentThread);
      }
      if o >= |objects| || !objects[o].kind.ServerPort? {
        return None;
      }
      var srv := objects[o];
      if srv.kind.sessions == [] {
        var w;
        fault, w := Suspend([o], None, WaitSync1);
        if fault.None? {
          objects := objects[o := objects[o].(queue := objects[o].queue + [w])];
        }
      } else {
        var client := srv.kind.client;
        if client >= |objects| || !objects[client].kind.ClientPort? {
          return Some(Disconnected);
        }
        objects := objects[o := srv.(kind := srv.kind.(sessions := srv.kind.sessions[1..]))];
        fault := WakeFront(client);
      }
    }

    // -------------------------------------------------------------- scheduling and time

    /** `next_thread` */
    method NextThread() returns (t: Option<ThreadId>)
      ensures t == FirstReady(threads, 0)
    {
      for i := 0 to |threads|
        invariant FirstReady(threads, 0) == FirstReady(threads, i)
      {
        if threads[i].state == Ready {
          return Some(i);
        }
      }
      return None;
    }

    /** `run_next` up to the point where the chosen thread resumes, with the value it resumes with */
    method Dispatch() returns (fault: Option<Fault>, payload: Resume)
      modifies this`threads, this`current, this`next
      ensures Did(M.Dispatch(old(Snapshot())), fault, Snapshot())
      ensures fault.None? && current.Some? && current.value < |old(threads)| && old(current).None? ==>
        payload == old(threads)[current.value].resume
      ensures Inv(old(Snapshot())) && old(current).None? ==>
        fault.None? && Inv(Snapshot()) && Dispatched(old(Snapshot()), Snapshot())
    {
      hide Inv;
      if Inv(Snapshot()) && current.None? {
        DispatchExact(Snapshot());
        SchedulingKeeps(Snapshot());
      }
      hide Dispatched;
      hide FirstReady;
      payload := Normal;
      var chosen := next;
      next := None;
      if chosen.None? {
        chosen := NextThread();
        if chosen.None? {
          return None, payload;
        }
      }
      var t := chosen.value;
      if t >= |threads| {
        return Some(NoSuchThread), payload;
      }
      if threads[t].state != Ready {
        return Some(NotReady), payload;
      }
      payload := threads[t].resume;
      threads := threads[t := threads[t].(state := Running, resume := Normal)];
      current := Some(t);
      return None, payload;
    }

    /** The tail of `run_thread` */
    method Yield() returns (fault: Option<Fault>)
      modifies this`threads, this`current
      ensures Did(M.Yield(old(Snapshot())), fault, Snapshot())
      ensures Inv(old(Snapshot())) && old(current).Some? ==>
        fault.None? && Inv(Snapshot()) && Yielded(old(Snapshot()), Snapshot())
    {
      hide Inv;
      if Inv(Snapshot()) && current.Some? {
        YieldExact(Snapshot());
        SchedulingKeeps(Snapshot());
      }
      hide Yielded;
      if current.None? {
        return Some(NoCurrentThread);
      }
      var t := current.value;
      if t >= |threads| {
        return Some(NoSuchThread);
      }
      if threads[t].state == Running {
        threads := threads[t := threads[t].(state := Ready)];
      }
      current := None;
      return None;
    }

    /** `exit_thread` */
    method Exit() returns (fault: Option<Fault>)
      modifies this`threads, this`objects, this`history
      ensures Did(M.Exit(old(Snapshot())), fault, Snapshot())
      ensures Inv(old(Snapshot())) && RunningCurrent(old(Snapshot())) ==>
        var kobj := old(threads)[old(current).value].kobj;
        kobj < |old(objects)| && old(objects)[kobj].kind == ThreadObj(false) ==>
          fault.None? && Inv(Snapshot()) && JoinersWoken(old(Snapshot()), Snapshot())
      ensures Inv(old(Snapshot())) && RunningCurrent(old(Snapshot())) && Joinable(old(Snapshot())) ==>
        fault.None? && Joinable(Snapshot())
    {
      hide Inv;
      hide Joinable;
      ghost var before := Snapshot();
      if Inv(before) && RunningCurrent(before) && Joinable(before) {
        ExitJoins(before);
      }
      if Inv(before) && RunningCurrent(before) {
        ExitKeeps(before);
        var kobj := threads[current.value].kobj;
        if kobj < |objects| && objects[kobj].kind == ThreadObj(false) {
          ExitWakesJoiners(before);
        }
      }
      hide JoinersWoken;
      hide M.WakeAll;
      if current.None? {
        return Some(NoCurrentThread);
      }
      var t := current.value;
      if t >= |threads| {
        return Some(NoSuchThread);
      }
      var kobj := threads[t].kobj;
      threads := threads[t := threads[t].(state := Done)];
      if kobj >= |objects| || !objects[kobj].kind.ThreadObj? {
        return Some(Disconnected);
      }
      var obj := objects[kobj];
      if obj.kind.dead {
        return None;
      }
      objects := objects[kobj := Object([], ThreadObj(true))];
      fault := WakeAll(obj.queue, kobj);
    }

    /** `tick_at`, thread by thread */
    method TickThreads(time: nat) returns (fault: Option<Fault>)
      modifies this`threads, this`objects, this`history
      ensures Did(M.TickThreads(old(Snapshot()), 0, time), fault, Snapshot())
    {
      hide M.WakeUp;
      for i := 0 to |threads|
        invariant |threads| == |old(threads)|
        invariant M.TickThreads(Snapshot(), i, time) == M.TickThreads(old(Snapshot()), 0, time)
      {
        if Expired(threads[i], time) {
          fault := WakeUp(i, None);
          if fault.Some? {
            return;
          }
        }
      }
      return None;
    }

    /** The timers in turn */
    method TickTimers(time: nat) returns (fault: Option<Fault>)
      modifies this`threads, this`objects, this`history
      ensures Did(M.TickTimers(old(Snapshot()), 0, time), fault, Snapshot())
    {
      hide M.TimerTick;
      for i := 0 to |objects|
        invariant |objects| == |old(objects)|
        invariant M.TickTimers(Snapshot(), i, time) == M.TickTimers(old(Snapshot()), 0, time)
      {
        fault := TimerTick(i, time);
        if fault.Some? {
          return;
        }
      }
      return None;
    }

    method Tick(time: nat) returns (fault: Option<Fault>)
      modifies this`threads, this`objects, this`history
      ensures Did(M.Tick(old(Snapshot()), time), fault, Snapshot())
      ensures Inv(old(Snapshot())) ==>
        fault.None? && Inv(Snapshot()) && KernelTicked(old(Snapshot()), Snapshot(), time)
    {
      hide Inv;
      hide KernelTicked;
      if Inv(Snapshot()) {
        TickExact(Snapshot(), time);
      }
      hide M.TickThreads;
      hide M.TickTimers;
      fault := TickThreads(time);
      if fault.None? {
        fault := TickTimers(time);
      }
    }

    // -------------------------------------------------------------- any step

    method CreateThread()
      modifies this`threads, this`objects
      ensures Snapshot() == M.CreateThread(old(Snapshot()))
    {
      threads := threads + [Thread(Ready, [], 0, None, None, Normal, |objects|, seq(256, _ => 0))];
      objects := objects + [Object([], ThreadObj(false))];
    }

    method CreateMutex(locked: bool) returns (fault: Option<Fault>)
      modifies this`objects, this`history
      ensures Did(M.CreateMutex(old(Snapshot()), locked), fault, Snapshot())
    {
      if current.None? {
        return Some(NoCurrentThread);
      }
      if locked {
        history := history + [Locked(|objects|, current.value)];
      }
      objects := objects + [Object([], Mutex(locked))];
      return None;
    }

    method CreatePort()
      modifies this`objects
      ensures Snapshot() == M.CreatePort(old(Snapshot()))
    {
      var id := |objects|;
      objects := objects + [Object([], ServerPort([], id + 1)), Object([], ClientPort(id))];
    }

    method Create(op: Op) returns (fault: Option<Fault>)
      requires Creates(op)
      modifies this
      ensures Did(Apply(old(Snapshot()), op), fault, Snapshot())
      ensures (op.OpCreateMutex? ==> old(current).Some?) ==> fault.None? && MadeBy(old(Snapshot()), Snapshot(), op)
    {
      if op.OpCreateMutex? ==> current.Some? {
        CreationExact(Snapshot(), op);
      }
      hide MadeBy;
      fault := None;
      match op {
        case OpCreateThread => CreateThread();
        case OpCreateEvent(reset) => objects := objects + [Object([], Event(Signal(reset, false)))];
        case OpCreateTimer(reset) => objects := objects + [Object([], Timer(Signal(reset, false), -1, -1))];
        case OpCreateMutex(locked) => fault := CreateMutex(locked);
        case OpCreateArbiter => objects := objects + [Object([], Arbiter([]))];
        case OpCreatePort => CreatePort();
      }
    }

    /**
      Any operation: it does what its step says. So in a state that satisfies the waker invariant, a
      step that respects the discipline keeps the invariant and never stops on a failed wake-up; in a
      healthy state it stops on nothing but a misuse; and whatever it does, every thread that waits
      for an object afterwards is in its queue.
     */
    method Perform(op: Op) returns (fault: Option<Fault>)
      modifies this
      ensures Did(Apply(old(Snapshot()), op), fault, Snapshot())
      ensures Inv(old(Snapshot())) && Disciplined(old(Snapshot()), op) ==>
        Keeps(old(Snapshot()), if fault.None? then Ok(Snapshot()) else Panic(fault.value))
      ensures Healthy(old(Snapshot())) && Disciplined(old(Snapshot()), op) ==>
        (fault.None? <==> !Misused(old(Snapshot()), op))
      ensures Healthy(old(Snapshot())) && Disciplined(old(Snapshot()), op) && OwnCallsOnly(old(Snapshot()), op) ==>
        (fault.None? ==> Healthy(Snapshot()))
      ensures fault.None? ==> forall t, o :: Tied(old(Snapshot()), t, o) ==> Tied(Snapshot(), t, o)
    {
      hide Healthy;
      hide Misused;
      hide OwnCallsOnly;
      hide Tied;
      hide Apply;
      hide Inv;
      hide Disciplined;
      hide Keeps;
      ghost var before := Snapshot();
      fault := PerformAny(op);
      if Inv(before) && Disciplined(before, op) {
        StepKeeps(before, op);
      }
      if Healthy(before) && Disciplined(before, op) {
        StepSucceedsIff(before, op);
        if OwnCallsOnly(before, op) && fault.None? {
          StepHealthy(before, op);
        }
      }
      if fault.None? {
        forall t, o | Tied(before, t, o) ensures Tied(Snapshot(), t, o) {
          StepTied(before, op, t, o);
        }
      }
    }

    /** The operations by which a thread suspends itself. */
    method PerformWait(op: Op) returns (fault: Option<Fault>)
      requires op.OpWait1? || op.OpWaitN? || op.OpSleep? || op.OpArbiterWait?
      modifies this
      ensures Did(Apply(old(Snapshot()), op), fault, Snapshot())
    {
      hide M.Wait1;
      hide M.WaitN;
      hide M.SleepThread;
      hide M.ArbiterWait;
      hide Inv;
      hide SuspendedOn;
      hide GotOrQueued;
      hide TookFirst;
      hide Waitable;
      hide QueuedAtArbiter;
      match op {
        case OpWait1(o, deadline) => fault := Wait1(o, deadline);
        case OpWaitN(objs, deadline) => fault := WaitN(objs, deadline);
        case OpSleep(deadline) => fault := SleepThread(deadline);
        case OpArbiterWait(o, addr) => fault := ArbiterWait(o, addr);
      }
    }

    /** The operations on sessions and ports. */
    method PerformIpc(op: Op) returns (fault: Option<Fault>)
      requires op.OpSendRequest? || op.OpReceive? || op.OpReply? || op.OpCreateSession? || op.OpAcceptSession?
      modifies this
      ensures Did(Apply(old(Snapshot()), op), fault, Snapshot())
    {
      hide M.SendRequest;
      hide M.Receive;
      hide M.Reply;
      hide M.CreateSession;
      hide M.AcceptSession;
      hide IpcCaller;
      hide IpcSound;
      hide RequestSent;
      hide OnlyReceived;
      hide Replied;
      hide SessionPending;
      hide Accepted;
      hide CallerQueued;
      hide Joined;
      match op {
        case OpSendRequest(o) => fault := SendRequest(o);
        case OpReceive(o, image) => fault := Receive(o, image);
        case OpReply(o, image) => fault := Reply(o, image);
        case OpCreateSession(o) => fault := CreateSession(o);
        case OpAcceptSession(o) => fault := AcceptSession(o);
      }
    }

    /** The operations that wake waiters of an object, and time. */
    method PerformSignal(op: Op) returns (fault: Option<Fault>)
      requires Safety.Signals(op)
      modifies this
      ensures Did(Apply(old(Snapshot()), op), fault, Snapshot())
    {
      hide M.ArbiterSignal;
      hide M.SignalEvent;
      hide M.ClearEvent;
      hide M.SetTimer;
      hide M.ReleaseMutex;
      hide M.Tick;
      hide Inv;
      hide HandedOver;
      hide OldestReleased;
      hide RaisedExactly;
      hide TimerSet;
      hide KernelTicked;
      fault := None;
      match op {
        case OpArbiterSignal(o, amount, addr) =>
          var woken;
          fault, woken := ArbiterSignal(o, amount, addr);
        case OpSignalEvent(o) => fault := SignalEvent(o);
        case OpInterrupt(o) => fault := SignalEvent(o);
        case OpClearEvent(o) => ClearEvent(o);
        case OpSetTimer(o, initial, interval) => SetTimer(o, initial, interval);
        case OpReleaseMutex(o) => fault := ReleaseMutex(o);
        case OpTick(time) => fault := Tick(time);
      }
    }

    method PerformAny(op: Op) returns (fault: Option<Fault>)
      modifies this
      ensures Did(Apply(old(Snapshot()), op), fault, Snapshot())
    {
      hide M.Exit;
      hide M.Dispatch;
      hide M.Yield;
      hide Inv;
      hide Dispatched;
      hide Yielded;
      hide JoinersWoken;
      hide Joinable;
      hide MadeBy;
      if Creates(op) {
        hide Apply;
        fault := Create(op);
      } else if op.OpWait1? || op.OpWaitN? || op.OpSleep? || op.OpArbiterWait? {
        hide Apply;
        fault := PerformWait(op);
      } else if op.OpSendRequest? || op.OpReceive? || op.OpReply? || op.OpCreateSession? || op.OpAcceptSession? {
        hide Apply;
        fault := PerformIpc(op);
      } else if Safety.Signals(op) {
        hide Apply;
        fault := PerformSignal(op);
      } else {
        fault := None;
        match op {
          case OpScheduleNext(t) => next := Some(t);
          case OpDispatch =>
            var payload;
            fault, payload := Dispatch();
          case OpYield => fault := Yield();
          case OpExit => fault := Exit();
        }
      }
    }
  }
}
