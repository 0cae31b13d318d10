/**
  The converse of the waker protocol, over every run whatever: whoever waits for an object is in its
  queue. With what `Runs` shows about queues, nobody waits for an object that could be taken.
 */
module Waiters {
  import opened Outcomes
  import opened Machine
  import opened Wakers
  import opened Safety
  import Bytes
  import Runs

  /** The thread is suspended and the object is one it waits for. */
  predicate Awaits(s: State, t: ThreadId, o: ObjId) {
    t < |s.threads| && s.threads[t].state == Waiting && o in s.threads[t].waitObjects
  }

  /** The object's queue holds the thread's current waker. */
  predicate Queued(s: State, t: ThreadId, o: ObjId) {
    t < |s.threads| && o < |s.objects| && Waker(t, s.threads[t].wakeKey) in Queue(s.objects[o])
  }

  predicate Tied(s: State, t: ThreadId, o: ObjId) {
    Awaits(s, t, o) ==> Queued(s, t, o)
  }

  // ---------------------------------------------------------------- waking

  /** Whoever still waits for the object waited for it before, and has not been dropped from its queue. */
  predicate Undropped(s: State, s': State, t: ThreadId, o: ObjId) {
    Awaits(s', t, o) ==>
      && Awaits(s, t, o) && s'.threads[t].wakeKey == s.threads[t].wakeKey
      && (Queued(s, t, o) ==> Queued(s', t, o))
  }

  lemma WakeUpUndropped(s: State, u: ThreadId, cause: Option<ObjId>, t: ThreadId, o: ObjId)
    requires u < |s.threads| && WakeUp(s, u, cause).Ok?
    ensures Undropped(s, WakeUp(s, u, cause).value, t, o)
    ensures u == t ==> !Awaits(WakeUp(s, u, cause).value, t, o)
  {
    hide Purge;
    hide ResumeValue;
    hide PurgeQueue;
    hide WakersOf;
  }

  lemma WakeUndropped(s: State, w: Waker, giver: ObjId, t: ThreadId, o: ObjId)
    requires Wake(s, w, giver).Ok?
    ensures Undropped(s, Wake(s, w, giver).value.state, t, o)
    ensures t < |s.threads| && w == Waker(t, s.threads[t].wakeKey) ==> !Awaits(Wake(s, w, giver).value.state, t, o)
  {
    hide WakeUp;
    if w.thread < |s.threads| && s.threads[w.thread].wakeKey == w.key {
      WakeUpUndropped(s, w.thread, Some(giver), t, o);
    }
  }

  /** A drained queue loses nobody: every thread whose waker was in it no longer waits. */
  lemma {:induction false} DrainUndropped(s: State, ws: seq<Waker>, giver: ObjId, t: ThreadId, o: ObjId)
    ensures WakeAll(s, ws, giver).Ok? ==> Undropped(s, WakeAll(s, ws, giver).value, t, o)
    ensures WakeAllExpect(s, ws, giver).Ok? ==> Undropped(s, WakeAllExpect(s, ws, giver).value, t, o)
    ensures t < |s.threads| && Waker(t, s.threads[t].wakeKey) in ws ==>
      && (WakeAll(s, ws, giver).Ok? ==> !Awaits(WakeAll(s, ws, giver).value, t, o))
      && (WakeAllExpect(s, ws, giver).Ok? ==> !Awaits(WakeAllExpect(s, ws, giver).value, t, o))
    decreases |ws|
  {
    hide Wake;
    hide Queue;
    if ws != [] && Wake(s, ws[0], giver).Ok? {
      WakeUndropped(s, ws[0], giver, t, o);
      DrainUndropped(Wake(s, ws[0], giver).value.state, ws[1..], giver, t, o);
    }
  }

  lemma WakeFrontUndropped(s: State, x: ObjId, t: ThreadId, o: ObjId)
    requires x < |s.objects| && Synchronizable(s.objects[x]) && WakeFront(s, x).Ok?
    ensures Undropped(s, WakeFront(s, x).value, t, o)
  {
    hide Wake;
    var obj := s.objects[x];
    if obj.queue != [] {
      WakeUndropped(SetObj(s, x, obj.(queue := obj.queue[1..])), obj.queue[0], x, t, o);
    }
  }

  lemma RaiseUndropped(s: State, x: ObjId, t: ThreadId, o: ObjId)
    requires x < |s.objects| && HasSignal(s.objects[x]) && RaiseSignal(s, x).Ok?
    ensures Undropped(s, RaiseSignal(s, x).value, t, o)
  {
    hide WakeAll;
    hide Wake;
    var obj := s.objects[x];
    var raised := WithSignal(obj, obj.kind.signal.(signaled := true));
    if obj.kind.signal.reset.Sticky? {
      DrainUndropped(SetObj(s, x, raised.(queue := [])), obj.queue, x, t, o);
    } else if obj.queue != [] {
      WakeUndropped(SetObj(s, x, raised), obj.queue[0], x, t, o);
    }
  }

  lemma TimerTickUndropped(s: State, x: ObjId, time: nat, t: ThreadId, o: ObjId)
    requires x < |s.objects| && TimerTick(s, x, time).Ok?
    ensures Undropped(s, TimerTick(s, x, time).value, t, o)
  {
    hide RaiseSignal;
    if TimerDue(s.objects[x], time) {
      RaiseUndropped(SetObj(Log(s, Signalled(x)), x, Rearm(s.objects[x], time)), x, t, o);
    }
  }

  lemma {:induction false} TickThreadsUndropped(s: State, i: nat, time: nat, t: ThreadId, o: ObjId)
    requires i <= |s.threads| && TickThreads(s, i, time).Ok?
    ensures Undropped(s, TickThreads(s, i, time).value, t, o)
    decreases |s.threads| - i
  {
    hide WakeUp;
    hide Queue;
    if i < |s.threads| {
      if Expired(s.threads[i], time) {
        WakeUpUndropped(s, i, None, t, o);
        TickThreadsUndropped(WakeUp(s, i, None).value, i + 1, time, t, o);
      } else {
        TickThreadsUndropped(s, i + 1, time, t, o);
      }
    }
  }

  lemma {:induction false} TickTimersUndropped(s: State, i: nat, time: nat, t: ThreadId, o: ObjId)
    requires i <= |s.objects| && TickTimers(s, i, time).Ok?
    ensures Undropped(s, TickTimers(s, i, time).value, t, o)
    decreases |s.objects| - i
  {
    hide TimerTick;
    hide Queue;
    if i < |s.objects| {
      TimerTickUndropped(s, i, time, t, o);
      TickTimersUndropped(TimerTick(s, i, time).value, i + 1, time, t, o);
    }
  }

  lemma TickUndropped(s: State, time: nat, t: ThreadId, o: ObjId)
    requires Tick(s, time).Ok?
    ensures Undropped(s, Tick(s, time).value, t, o)
  {
    hide TickThreads;
    hide TickTimers;
    hide Queue;
    TickThreadsUndropped(s, 0, time, t, o);
    TickTimersUndropped(TickThreads(s, 0, time).value, 0, time, t, o);
  }

  lemma ReleaseUndropped(s: State, x: ObjId, t: ThreadId, o: ObjId)
    requires ReleaseMutex(s, x).Ok?
    ensures Undropped(s, ReleaseMutex(s, x).value, t, o)
  {
    hide Wake;
    if x < |s.objects| && s.objects[x].kind.Mutex? && s.objects[x].queue != [] {
      WakeUndropped(Log(s, Released(x, s.current.value)), s.objects[x].queue[0], x, t, o);
    }
  }

  /** A drain of an arbiter sorts its slots: each waker is taken out or kept. */
  lemma {:induction false} DrainSorts(slots: seq<Slot>, addr: Address, count: nat, w: Waker)
    requires w in WakersOf(slots)
    ensures w in DrainSlots(slots, addr, count).woken || w in WakersOf(DrainSlots(slots, addr, count).kept)
  {
    hide WakersOf;
    if slots != [] {
      WakersTail(slots);
      var first := slots[0].addr == addr && count > 0;
      var left := if first && count != UNLIMITED then count - 1 else count;
      WakersCons(slots[0], DrainSlots(slots[1..], addr, left).kept);
      if w in WakersOf(slots[1..]) {
        DrainSorts(slots[1..], addr, left, w);
      }
    }
  }

  lemma ArbiterSignalUndropped(s: State, x: ObjId, amount: I32, addr: Address, t: ThreadId, o: ObjId)
    requires ArbiterSignal(s, x, amount, addr).Ok?
    ensures Undropped(s, ArbiterSignal(s, x, amount, addr).value, t, o)
  {
    hide WakeAllExpect;
    hide DrainSlots;
    hide WakersOf;
    if x < |s.objects| && s.objects[x].kind.Arbiter? {
      var d := DrainSlots(s.objects[x].kind.slots, addr, SignalCount(amount));
      DrainUndropped(SetObj(s, x, s.objects[x].(kind := Arbiter(d.kept))), d.woken, x, t, o);
      if o == x && Queued(s, t, o) {
        DrainSorts(s.objects[x].kind.slots, addr, SignalCount(amount), Waker(t, s.threads[t].wakeKey));
      }
    }
  }

  lemma SignalStepUndropped(s: State, op: Op, t: ThreadId, o: ObjId)
    requires Apply(s, op).Ok? && Signals(op)
    ensures Undropped(s, Apply(s, op).value, t, o)
  {
    hide RaiseSignal;
    hide ReleaseMutex;
    hide ArbiterSignal;
    hide Tick;
    match op
    case OpSignalEvent(x) =>
      if x < |s.objects| && s.objects[x].kind.Event? {
        RaiseUndropped(Log(s, Signalled(x)), x, t, o);
      }
    case OpInterrupt(x) =>
      if x < |s.objects| && s.objects[x].kind.Event? {
        RaiseUndropped(Log(s, Signalled(x)), x, t, o);
      }
    case OpReleaseMutex(x) => ReleaseUndropped(s, x, t, o);
    case OpArbiterSignal(x, amount, addr) => ArbiterSignalUndropped(s, x, amount, addr, t, o);
    case OpClearEvent(_) =>
    case OpSetTimer(_, _, _) =>
    case OpTick(time) => TickUndropped(s, time, t, o);
  }

  // ---------------------------------------------------------------- scheduling and creating

  lemma ExitUndropped(s: State, t: ThreadId, o: ObjId)
    requires Exit(s).Ok?
    ensures Undropped(s, Exit(s).value, t, o)
  {
    hide WakeAll;
    var c := s.current.value;
    var kobj := s.threads[c].kobj;
    var s1 := s.(threads := s.threads[c := s.threads[c].(state := Done)]);
    if !s.objects[kobj].kind.dead {
      DrainUndropped(SetObj(s1, kobj, Object([], ThreadObj(true))), s.objects[kobj].queue, kobj, t, o);
    }
  }

  lemma OtherStepUndropped(s: State, op: Op, t: ThreadId, o: ObjId)
    requires Apply(s, op).Ok?
    requires Creates(op) || op.OpScheduleNext? || op.OpDispatch? || op.OpYield? || op.OpExit?
    ensures Undropped(s, Apply(s, op).value, t, o)
  {
    hide FirstReady;
    hide Exit;
    if op.OpExit? {
      ExitUndropped(s, t, o);
    }
  }

  // ---------------------------------------------------------------- suspending

  /** Waiting on one object: a thread waits for it only if it is queued there. */
  lemma WaitOnTied(s: State, x: ObjId, w: Waker, t: ThreadId, o: ObjId)
    requires x < |s.objects| && Synchronizable(s.objects[x]) && WaitOn(s, x, w).Ok?
    ensures Undropped(s, WaitOn(s, x, w).value, t, o)
    ensures t < |s.threads| && w == Waker(t, s.threads[t].wakeKey) && o == x ==> Tied(WaitOn(s, x, w).value, t, o)
    ensures t < |s.threads| && w == Waker(t, s.threads[t].wakeKey) && Awaits(WaitOn(s, x, w).value, t, o) ==>
      WaitOn(s, x, w).value.threads == s.threads
  {
    hide Wake;
    if Available(s.objects[x].kind) {
      WakeUndropped(SetKind(s, x, Take(s.objects[x].kind)), w, x, t, o);
    }
  }

  lemma {:induction false} WaitEachTied(s: State, objs: seq<ObjId>, w: Waker, t: ThreadId, o: ObjId)
    requires forall i :: 0 <= i < |objs| ==> objs[i] < |s.objects|
    requires Awaits(s, t, o) ==> Queued(s, t, o) || (w == Waker(t, s.threads[t].wakeKey) && o in objs)
    ensures WaitEach(s, objs, w).Ok? ==> Tied(WaitEach(s, objs, w).value, t, o)
    decreases |objs|
  {
    hide WaitOn;
    hide Queue;
    if objs != [] && Synchronizable(s.objects[objs[0]]) && WaitOn(s, objs[0], w).Ok? {
      WaitOnTied(s, objs[0], w, t, o);
      WaitEachTied(WaitOn(s, objs[0], w).value, objs[1..], w, t, o);
    }
  }

  lemma WaitStepTied(s: State, op: Op, t: ThreadId, o: ObjId)
    requires Tied(s, t, o) && Apply(s, op).Ok?
    requires op.OpWait1? || op.OpWaitN? || op.OpSleep? || op.OpArbiterWait?
    ensures Tied(Apply(s, op).value, t, o)
  {
    hide WaitOn;
    hide WaitEach;
    hide WakersOf;
    match op
    case OpWait1(x, deadline) =>
      if x < |s.objects| && Synchronizable(s.objects[x]) {
        var r := Suspend(s, [x], deadline, WaitSync1).value;
        WaitOnTied(r.state, x, r.waker, t, o);
      }
    case OpWaitN(objs, deadline) =>
      var r := Suspend(s, objs, deadline, WaitSyncN).value;
      WaitEachTied(r.state, objs, r.waker, t, o);
    case OpSleep(_) =>
    case OpArbiterWait(x, addr) =>
      if x < |s.objects| && s.objects[x].kind.Arbiter? {
        ArbiterWaitTied(s, x, addr, t, o);
      }
  }

  lemma ArbiterWaitTied(s: State, x: ObjId, addr: Address, t: ThreadId, o: ObjId)
    requires Tied(s, t, o) && x < |s.objects| && s.objects[x].kind.Arbiter? && ArbiterWait(s, x, addr).Ok?
    ensures Tied(ArbiterWait(s, x, addr).value, t, o)
  {
    var w := Suspend(s, [x], None, WaitArbiter).value.waker;
    var slots := s.objects[x].kind.slots;
    assert WakersOf(slots + [Slot(w, addr)]) == WakersOf(slots) + [w];
  }

  // ---------------------------------------------------------------- sessions and ports

  lemma SendTied(s: State, x: ObjId, t: ThreadId, o: ObjId)
    requires Tied(s, t, o) && SendRequest(s, x).Ok?
    ensures Tied(SendRequest(s, x).value, t, o)
  {
    hide WakeFront;
    if x < |s.objects| && s.objects[x].kind.ClientSession? {
      var r := Suspend(s, [x], None, WaitSync1).value;
      var server := s.objects[x].kind.server;
      var s1 := Push(r.state, x, r.waker);
      assert Tied(s1, t, o);
      var k := s1.objects[server].kind;
      WakeFrontUndropped(SetKind(s1, server, k.(requests := k.requests + [r.waker.thread])), server, t, o);
    }
  }

  lemma ReplyTied(s: State, x: ObjId, image: seq<Bytes.Byte>, t: ThreadId, o: ObjId)
    requires Tied(s, t, o) && Reply(s, x, image).Ok?
    ensures Tied(Reply(s, x, image).value, t, o)
  {
    hide WakeFront;
    if x < |s.objects| && s.objects[x].kind.ServerSession? {
      var k := s.objects[x].kind;
      var s1 := SetKind(s, x, k.(requests := k.requests[1..]));
      WakeFrontUndropped(DeliverIpc(s1, s.current.value, k.requests[0], image).value, k.client, t, o);
    }
  }

  lemma CreateSessionTied(s: State, x: ObjId, t: ThreadId, o: ObjId)
    requires Tied(s, t, o) && CreateSession(s, x).Ok?
    ensures Tied(CreateSession(s, x).value, t, o)
  {
    hide WakeFront;
    if x < |s.objects| && s.objects[x].kind.ClientPort? {
      var server := s.objects[x].kind.server;
      var s1 := WithPending(s, x);
      WakeFrontUndropped(s1, server, t, o);
      WakeFrontKinds(s1, server);
      var s2 := WakeFront(s1, server).value;
      assert Tied(s2, t, o) && s2.objects[x].kind.ClientPort?;
      SuspendPushTied(s2, x, t, o);
    }
  }

  lemma SuspendPushTied(s: State, x: ObjId, t: ThreadId, o: ObjId)
    requires Tied(s, t, o) && x < |s.objects| && Synchronizable(s.objects[x])
    requires Suspend(s, [x], None, WaitSync1).Ok?
    ensures var r := Suspend(s, [x], None, WaitSync1).value; Tied(Push(r.state, x, r.waker), t, o)
  {
  }

  lemma AcceptTied(s: State, x: ObjId, t: ThreadId, o: ObjId)
    requires Tied(s, t, o) && AcceptSession(s, x).Ok?
    ensures Tied(AcceptSession(s, x).value, t, o)
  {
    hide WakeFront;
    if x < |s.objects| && s.objects[x].kind.ServerPort? {
      var k := s.objects[x].kind;
      if k.sessions == [] {
        SuspendPushTied(s, x, t, o);
      } else {
        WakeFrontUndropped(SetKind(s, x, k.(sessions := k.sessions[1..])), k.client, t, o);
      }
    }
  }

  lemma IpcStepTied(s: State, op: Op, t: ThreadId, o: ObjId)
    requires Tied(s, t, o) && Apply(s, op).Ok?
    requires op.OpSendRequest? || op.OpReceive? || op.OpReply? || op.OpCreateSession? || op.OpAcceptSession?
    ensures Tied(Apply(s, op).value, t, o)
  {
    hide SendRequest;
    hide Reply;
    hide CreateSession;
    hide AcceptSession;
    match op
    case OpSendRequest(x) => SendTied(s, x, t, o);
    case OpReceive(_, _) =>
    case OpReply(x, image) => ReplyTied(s, x, image, t, o);
    case OpCreateSession(x) => CreateSessionTied(s, x, t, o);
    case OpAcceptSession(x) => AcceptTied(s, x, t, o);
  }

  // ---------------------------------------------------------------- every step, every run

  /** No step that does not panic leaves a thread waiting for an object whose queue does not have it. */
  lemma StepTied(s: State, op: Op, t: ThreadId, o: ObjId)
    requires Tied(s, t, o) && Apply(s, op).Ok?
    ensures Tied(Apply(s, op).value, t, o)
  {
    hide Apply;
    hide Queue;
    if op.OpWait1? || op.OpWaitN? || op.OpSleep? || op.OpArbiterWait? {
      WaitStepTied(s, op, t, o);
    } else if op.OpSendRequest? || op.OpReceive? || op.OpReply? || op.OpCreateSession? || op.OpAcceptSession? {
      IpcStepTied(s, op, t, o);
    } else if Signals(op) {
      SignalStepUndropped(s, op, t, o);
    } else {
      OtherStepUndropped(s, op, t, o);
    }
  }

  lemma {:induction false} RunTied(s: State, ops: seq<Op>, t: ThreadId, o: ObjId)
    requires Tied(s, t, o) && Run(s, ops).Ok?
    ensures Tied(Run(s, ops).value, t, o)
    decreases |ops|
  {
    hide Apply;
    hide Tied;
    if ops != [] {
      StepTied(s, ops[0], t, o);
      RunTied(Apply(s, ops[0]).value, ops[1..], t, o);
    }
  }

  /**
    In every state any run reaches, whoever waits for an object is in its queue with the waker that
    wakes it, and the object could not be taken at once: no wake-up is ever lost.
   */
  lemma NobodyWaitsInVain(ops: seq<Op>, t: ThreadId, o: ObjId)
    requires Run(Initial, ops).Ok? && Awaits(Run(Initial, ops).value, t, o)
    ensures Queued(Run(Initial, ops).value, t, o)
    ensures !Available(Run(Initial, ops).value.objects[o].kind)
  {
    RunTied(Initial, ops, t, o);
    Runs.NoWaiterOnAvailable(ops, o);
    hide Run;
  }

  /** In a disciplined run the queues hold nothing else: a waker is queued exactly where its thread waits. */
  lemma QueuedExactlyWhereWaiting(ops: seq<Op>, w: Waker, o: ObjId)
    requires DisciplinedRun(Initial, ops) && Run(Initial, ops).Ok? && o < |Run(Initial, ops).value.objects|
    ensures var s := Run(Initial, ops).value;
      w in Queue(s.objects[o]) <==> Awaits(s, w.thread, o) && s.threads[w.thread].wakeKey == w.key
  {
    FromStart(ops);
    RunTied(Initial, ops, w.thread, o);
    var s := Run(Initial, ops).value;
    hide Run;
    hide DisciplinedRun;
    if w in Queue(s.objects[o]) {
      assert LiveIn(s, w, o);
    }
  }

  /** Sessions are not among the objects that can be taken: a server that waits while requests are pending is queued. */
  lemma PendingRequestMissed(s: State, o: ObjId, deadline: Option<nat>)
    requires RunningCurrent(s) && o < |s.objects| && s.objects[o].kind.ServerSession? && s.objects[o].kind.requests != []
    ensures Wait1(s, o, deadline).Ok? && Awaits(Wait1(s, o, deadline).value, s.current.value, o)
    ensures Wait1(s, o, deadline).value.objects[o].kind.requests == s.objects[o].kind.requests
  {
  }
}
