/** The invariant of `History` over every step and every run, and what it means for the objects. */
module Runs {
  import opened Outcomes
  import opened Machine
  import opened History

  lemma WaitSound(s: State, op: Op)
    requires Sound(s) && Apply(s, op).Ok?
    requires op.OpWait1? || op.OpWaitN? || op.OpSleep? || op.OpArbiterWait?
    ensures Sound(Apply(s, op).value)
  {
    match op
    case OpWait1(o, deadline) =>
      if o < |s.objects| && Synchronizable(s.objects[o]) {
        SuspendSound(s, [o], deadline, WaitSync1);
        var r := Suspend(s, [o], deadline, WaitSync1).value;
        WaitOnSound(r.state, o, r.waker);
      }
    case OpWaitN(objs, deadline) =>
      SuspendSound(s, objs, deadline, WaitSyncN);
      var r := Suspend(s, objs, deadline, WaitSyncN).value;
      WaitEachSound(r.state, objs, r.waker);
    case OpSleep(deadline) => SuspendSound(s, [], deadline, WaitSleep);
    case OpArbiterWait(o, addr) =>
      if o < |s.objects| && s.objects[o].kind.Arbiter? {
        SuspendSound(s, [o], None, WaitArbiter);
        var r := Suspend(s, [o], None, WaitArbiter).value;
        SetObjSound(r.state, o, s.objects[o].(kind := Arbiter(s.objects[o].kind.slots + [Slot(r.waker, addr)])));
      }
  }

  lemma ExitSound(s: State)
    requires Sound(s) && Exit(s).Ok?
    ensures Sound(Exit(s).value)
  {
    var t := s.current.value;
    var kobj := s.threads[t].kobj;
    var s1 := s.(threads := s.threads[t := s.threads[t].(state := Done)]);
    assert Sound(s1);
    if !s.objects[kobj].kind.dead {
      SetObjSound(s1, kobj, Object([], ThreadObj(true)));
      WakeAllSound(SetObj(s1, kobj, Object([], ThreadObj(true))), s.objects[kobj].queue, kobj);
    }
  }

  lemma {:induction false} TickThreadsSound(s: State, i: nat, time: nat)
    requires Sound(s) && i <= |s.threads| && TickThreads(s, i, time).Ok?
    ensures Sound(TickThreads(s, i, time).value)
    decreases |s.threads| - i
  {
    if i < |s.threads| {
      if Expired(s.threads[i], time) {
        WakeUpSound(s, i, None, -1);
        TickThreadsSound(WakeUp(s, i, None).value, i + 1, time);
      } else {
        TickThreadsSound(s, i + 1, time);
      }
    }
  }

  lemma {:induction false} TickTimersSound(s: State, i: nat, time: nat)
    requires Sound(s) && i <= |s.objects| && TickTimers(s, i, time).Ok?
    ensures Sound(TickTimers(s, i, time).value)
    decreases |s.objects| - i
  {
    if i < |s.objects| {
      TimerTickSound(s, i, time);
      TickTimersSound(TimerTick(s, i, time).value, i + 1, time);
    }
  }

  lemma CreateLockedSound(s: State)
    requires Sound(s) && s.current.Some?
    ensures Sound(CreateMutex(s, true).value)
  {
    var o := |s.objects|;
    NewObjectsSound(s, [Object([], Mutex(false))]);
    LockNewSound(NewObject(s, Object([], Mutex(false))), o, s.current.value);
    var s' := SetObj(NewObject(s, Object([], Mutex(false))), o, Object([], Mutex(true)));
    assert s'.objects == NewObject(s, Object([], Mutex(true))).objects;
  }

  lemma LockNewSound(s: State, o: ObjId, t: ThreadId)
    requires Sound(s) && o < |s.objects| && s.objects[o] == Object([], Mutex(false))
    requires Owners(s.history, o) == multiset{}
    ensures Sound(Log(SetObj(s, o, Object([], Mutex(true))), Locked(o, t)))
  {
    var locked := SetObj(s, o, Object([], Mutex(true)));
    SetObjSoundBut(s, o, Object([], Mutex(true)));
    LogSoundBut(locked, Locked(o, t), o);
    OwnersAppended(s.history, Locked(o, t), o);
    Restore(Log(locked, Locked(o, t)), o);
  }

  lemma CreationSound(s: State, op: Op)
    requires Sound(s) && Apply(s, op).Ok?
    requires op.OpCreateThread? || op.OpCreateEvent? || op.OpCreateTimer? || op.OpCreateMutex?
      || op.OpCreateArbiter? || op.OpCreatePort?
    ensures Sound(Apply(s, op).value)
  {
    match op
    case OpCreateThread => NewObjectsSound(s, [Object([], ThreadObj(false))]);
    case OpCreateEvent(reset) => NewObjectsSound(s, [Object([], Event(Signal(reset, false)))]);
    case OpCreateTimer(reset) => NewObjectsSound(s, [Object([], Timer(Signal(reset, false), -1, -1))]);
    case OpCreateMutex(locked) =>
      NewObjectsSound(s, [Object([], Mutex(false))]);
      if locked {
        CreateLockedSound(s);
      }
    case OpCreateArbiter => NewObjectsSound(s, [Object([], Arbiter([]))]);
    case OpCreatePort =>
      var id := |s.objects|;
      NewObjectsSound(s, [Object([], ServerPort([], id + 1)), Object([], ClientPort(id))]);
  }

  lemma IpcSound(s: State, op: Op)
    requires Sound(s) && Apply(s, op).Ok?
    requires op.OpSendRequest? || op.OpReceive? || op.OpReply? || op.OpCreateSession? || op.OpAcceptSession?
    ensures Sound(Apply(s, op).value)
  {
    hide Sound;
    hide SendRequest;
    hide Reply;
    hide CreateSession;
    hide AcceptSession;
    hide DeliverIpc;
    match op
    case OpSendRequest(o) => SendRequestSound(s, o);
    case OpReceive(o, image) =>
      if o < |s.objects| && s.objects[o].kind.ServerSession? && s.objects[o].kind.requests != [] {
        DeliverSound(s, s.objects[o].kind.requests[0], s.current.value, image);
      }
    case OpReply(o, image) => ReplySound(s, o, image);
    case OpCreateSession(o) => CreateSessionSound(s, o);
    case OpAcceptSession(o) => AcceptSessionSound(s, o);
  }

  lemma TickSound(s: State, time: nat)
    requires Sound(s) && Tick(s, time).Ok?
    ensures Sound(Tick(s, time).value)
  {
    TickThreadsSound(s, 0, time);
    TickTimersSound(TickThreads(s, 0, time).value, 0, time);
  }

  lemma SignallingSound(s: State, op: Op)
    requires Sound(s) && Apply(s, op).Ok?
    requires op.OpArbiterSignal? || op.OpSignalEvent? || op.OpInterrupt? || op.OpClearEvent? || op.OpSetTimer?
      || op.OpReleaseMutex? || op.OpTick?
    ensures Sound(Apply(s, op).value)
  {
    hide Sound;
    hide ArbiterSignal;
    hide SignalEvent;
    hide ClearEvent;
    hide SetTimer;
    hide ReleaseMutex;
    hide Tick;
    match op
    case OpArbiterSignal(o, amount, addr) => ArbiterSignalSound(s, o, amount, addr);
    case OpSignalEvent(o) => SignalEventSound(s, o);
    case OpInterrupt(o) => SignalEventSound(s, o);
    case OpClearEvent(o) => ClearEventSound(s, o);
    case OpSetTimer(o, initial, interval) => SetTimerSound(s, o, initial, interval);
    case OpReleaseMutex(o) => ReleaseMutexSound(s, o);
    case OpTick(time) => TickSound(s, time);
  }

  /** The invariant is about keys, objects and the log; nothing else about threads matters to it. */
  lemma SameKeysSound(s: State, s': State)
    requires Sound(s) && s'.objects == s.objects && s'.history == s.history && |s'.threads| == |s.threads|
    requires forall t :: 0 <= t < |s.threads| ==> s'.threads[t].wakeKey == s.threads[t].wakeKey
    ensures Sound(s')
  {
    hide Wakes;
    hide Grants;
    hide Raises;
    hide Owners;
    hide Fair;
    forall o | 0 <= o < |s.objects| ensures LatchOk(s'.objects[o]) && Balanced(s', o) {
      assert LatchOk(s.objects[o]) && Balanced(s, o);
    }
    hide LatchOk;
    hide Balanced;
  }

  lemma DispatchSound(s: State)
    requires Sound(s)
    ensures Dispatch(s).Ok? ==> Sound(Dispatch(s).value)
    ensures Yield(s).Ok? ==> Sound(Yield(s).value)
  {
    hide Sound;
    hide FirstReady;
    if Dispatch(s).Ok? {
      SameKeysSound(s, Dispatch(s).value);
    }
    if Yield(s).Ok? {
      SameKeysSound(s, Yield(s).value);
    }
  }

  lemma SchedulingSound(s: State, op: Op)
    requires Sound(s) && Apply(s, op).Ok?
    requires op.OpScheduleNext? || op.OpDispatch? || op.OpYield? || op.OpExit?
    ensures Sound(Apply(s, op).value)
  {
    hide Sound;
    hide Dispatch;
    hide Yield;
    hide Exit;
    match op
    case OpScheduleNext(_) => SameKeysSound(s, Apply(s, op).value);
    case OpDispatch => DispatchSound(s);
    case OpYield => DispatchSound(s);
    case OpExit => ExitSound(s);
  }

  /** Every step that does not panic keeps the invariant, whatever the caller does. */
  lemma StepSound(s: State, op: Op)
    requires Sound(s) && Apply(s, op).Ok?
    ensures Sound(Apply(s, op).value)
  {
    hide Sound;
    hide Apply;
    if op.OpWait1? || op.OpWaitN? || op.OpSleep? || op.OpArbiterWait? {
      WaitSound(s, op);
    } else if op.OpSendRequest? || op.OpReceive? || op.OpReply? || op.OpCreateSession? || op.OpAcceptSession? {
      IpcSound(s, op);
    } else if op.OpScheduleNext? || op.OpDispatch? || op.OpYield? || op.OpExit? {
      SchedulingSound(s, op);
    } else if op.OpArbiterSignal? || op.OpSignalEvent? || op.OpInterrupt? || op.OpClearEvent? || op.OpSetTimer?
      || op.OpReleaseMutex? || op.OpTick? {
      SignallingSound(s, op);
    } else {
      CreationSound(s, op);
    }
  }

  lemma {:induction false} RunSound(s: State, ops: seq<Op>)
    requires Sound(s) && Run(s, ops).Ok?
    ensures Sound(Run(s, ops).value)
    decreases |ops|
  {
    hide Sound;
    hide Apply;
    if ops != [] {
      StepSound(s, ops[0]);
      RunSound(Apply(s, ops[0]).value, ops[1..]);
    }
  }

  // ---------------------------------------------------------------- what it means

  /** In every reachable state an object that can be taken at once has an empty waker queue. */
  lemma NoWaiterOnAvailable(ops: seq<Op>, o: ObjId)
    requires Run(Initial, ops).Ok? && o < |Run(Initial, ops).value.objects|
    ensures var obj := Run(Initial, ops).value.objects[o];
      && ((obj.kind.Event? || obj.kind.Timer?) && obj.kind.signal.signaled ==> obj.queue == [])
      && (obj.kind.Mutex? && obj.queue != [] ==> obj.kind.acquired)
      && (obj.kind.ThreadObj? && obj.kind.dead ==> obj.queue == [])
  {
    RunSound(Initial, ops);
  }

  /** Waits granted by a one-shot or pulse object, plus one if it is still signalled, never exceed its signals. */
  lemma GrantsNeverExceedSignals(ops: seq<Op>, o: ObjId)
    requires Run(Initial, ops).Ok? && o < |Run(Initial, ops).value.objects|
    requires Counted(Run(Initial, ops).value.objects[o].kind)
    ensures var s := Run(Initial, ops).value;
      Grants(s.history, o) + (if s.objects[o].kind.signal.signaled then 1 else 0) <= Raises(s.history, o)
  {
    RunSound(Initial, ops);
    assert Balanced(Run(Initial, ops).value, o);
  }

  /** In a run where only holders release mutex `o`, it never has more than one holder, and none when free. */
  lemma AtMostOneHolder(ops: seq<Op>, o: ObjId)
    requires Run(Initial, ops).Ok? && o < |Run(Initial, ops).value.objects|
    requires Run(Initial, ops).value.objects[o].kind.Mutex? && Fair(Run(Initial, ops).value.history, o)
    ensures var s := Run(Initial, ops).value;
      |Owners(s.history, o)| == if s.objects[o].kind.acquired then 1 else 0
  {
    RunSound(Initial, ops);
    assert Balanced(Run(Initial, ops).value, o);
  }

  /** The count of a thread's wake-ups grows along the log. */
  lemma {:induction false} WakesMonotone(h: seq<Entry>, i: nat, j: nat, t: ThreadId)
    requires i <= j <= |h|
    ensures Wakes(h[..i], t) <= Wakes(h[..j], t)
    decreases j
  {
    if i < j {
      WakesMonotone(h, i, j - 1, t);
      assert h[..j][..j - 1] == h[..j - 1];
    }
  }

  /** Each of a thread's wake-ups counts. */
  lemma WakesGrow(h: seq<Entry>, i: nat, j: nat, t: ThreadId)
    requires i < j <= |h| && h[i].Woken? && h[i].waker.thread == t
    ensures Wakes(h[..i], t) < Wakes(h[..j], t) <= Wakes(h, t)
  {
    assert h[..i + 1][..i] == h[..i] && h[..|h|] == h;
    WakesMonotone(h, i + 1, j, t);
    WakesMonotone(h, j, |h|, t);
  }

  /**
    Every suspension ends at most once, by one object or by its timeout: over a run that wakes the
    thread at most 2^64 times no waker of it is used up twice. A timed-out waiter is therefore never
    granted anything later.
   */
  lemma SuspensionEndsOnce(ops: seq<Op>, i: nat, j: nat)
    requires Run(Initial, ops).Ok?
    requires var h := Run(Initial, ops).value.history;
      i < j < |h| && h[i].Woken? && h[j].Woken? && Wakes(h, h[i].waker.thread) <= KEYS
    ensures var h := Run(Initial, ops).value.history; h[i].waker != h[j].waker
  {
    RunSound(Initial, ops);
    EntriesApart(Run(Initial, ops).value, i, j);
  }

  lemma EntriesApart(s: State, i: nat, j: nat)
    requires KeysCount(s) && i < j < |s.history| && s.history[i].Woken? && s.history[j].Woken?
    requires Wakes(s.history, s.history[i].waker.thread) <= KEYS
    ensures s.history[i].waker != s.history[j].waker
  {
    hide Wakes;
    var h := s.history;
    var t := h[i].waker.thread;
    if t == h[j].waker.thread {
      WakesGrow(h, i, j, t);
      WakesGrow(h, j, j + 1, t);
      SmallKey(Wakes(h[..i], t));
      SmallKey(Wakes(h[..j], t));
    }
  }

  /** The bound is exact: 2^64 wake-ups later a thread uses up the same waker again. */
  lemma WakerComesBack(s: State, i: nat, j: nat)
    requires KeysCount(s) && i < |s.history| && j < |s.history| && s.history[i].Woken? && s.history[j].Woken?
    requires s.history[i].waker.thread == s.history[j].waker.thread
    requires var t := s.history[i].waker.thread;
      Wakes(s.history[..j], t) == Wakes(s.history[..i], t) + KEYS
    ensures s.history[i].waker == s.history[j].waker
  {
    hide Wakes;
    assert s.history[j].waker.key == (Wakes(s.history[..i], s.history[i].waker.thread) + KEYS) % KEYS;
  }

  lemma SmallKey(count: nat)
    requires count < KEYS
    ensures count % KEYS == count
  {
  }
}
