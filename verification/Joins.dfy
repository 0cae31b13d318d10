/** Threads and their thread objects: whoever waits for a thread is released when it ends, and not before. */
module Joins {
  import opened Outcomes
  import opened Machine
  import opened Wakers
  import opened Signals
  import opened Safety
  import Bytes
  import H = History

  /** The thread has a thread object, which is dead exactly when the thread is Done. */
  predicate Owns(s: State, t: ThreadId) {
    && t < |s.threads| && s.threads[t].kobj < |s.objects|
    && s.objects[s.threads[t].kobj].kind == ThreadObj(s.threads[t].state == Done)
  }

  /** Every thread has a thread object of its own. */
  ghost predicate Joinable(s: State) {
    && (forall t :: 0 <= t < |s.threads| ==> Owns(s, t))
    && (forall t, u :: 0 <= t < u < |s.threads| ==> s.threads[t].kobj != s.threads[u].kobj)
  }

  // ---------------------------------------------------------------- steps that end no thread

  /** Thread `t` has the same object in the same condition, and has not ended. */
  predicate Kept(s: State, s': State, t: ThreadId) {
    && t < |s.threads| <= |s'.threads| && |s.objects| <= |s'.objects|
    && s'.threads[t].kobj == s.threads[t].kobj
    && (s'.threads[t].state == Done ==> s.threads[t].state == Done)
    && (s.threads[t].kobj < |s.objects| && s.objects[s.threads[t].kobj].kind.ThreadObj? ==>
          s'.objects[s.threads[t].kobj].kind == s.objects[s.threads[t].kobj].kind)
  }

  lemma WakeUpKept(s: State, u: ThreadId, cause: Option<ObjId>, t: ThreadId)
    requires u < |s.threads| && t < |s.threads| && WakeUp(s, u, cause).Ok?
    ensures Kept(s, WakeUp(s, u, cause).value, t)
  {
    hide Purge;
    hide ResumeValue;
    if s.threads[t].kobj < |s.objects| {
      H.PurgeKeepsKind(s.objects[s.threads[t].kobj], u);
    }
  }

  lemma WakeKept(s: State, w: Waker, giver: ObjId, t: ThreadId)
    requires t < |s.threads| && Wake(s, w, giver).Ok?
    ensures Kept(s, Wake(s, w, giver).value.state, t)
  {
    hide WakeUp;
    if w.thread < |s.threads| && s.threads[w.thread].wakeKey == w.key {
      WakeUpKept(s, w.thread, Some(giver), t);
    }
  }

  lemma {:induction false} WakeAllKept(s: State, ws: seq<Waker>, giver: ObjId, t: ThreadId)
    requires t < |s.threads|
    ensures WakeAll(s, ws, giver).Ok? ==> Kept(s, WakeAll(s, ws, giver).value, t)
    ensures WakeAllExpect(s, ws, giver).Ok? ==> Kept(s, WakeAllExpect(s, ws, giver).value, t)
    decreases |ws|
  {
    hide Wake;
    if ws != [] && Wake(s, ws[0], giver).Ok? {
      WakeKept(s, ws[0], giver, t);
      WakeAllKept(Wake(s, ws[0], giver).value.state, ws[1..], giver, t);
    }
  }

  lemma WakeFrontKept(s: State, x: ObjId, t: ThreadId)
    requires x < |s.objects| && t < |s.threads| && WakeFront(s, x).Ok?
    ensures Kept(s, WakeFront(s, x).value, t)
  {
    hide Wake;
    var obj := s.objects[x];
    if obj.queue != [] {
      WakeKept(SetObj(s, x, obj.(queue := obj.queue[1..])), obj.queue[0], x, t);
    }
  }

  lemma WaitOnKept(s: State, x: ObjId, w: Waker, t: ThreadId)
    requires x < |s.objects| && Synchronizable(s.objects[x]) && t < |s.threads| && WaitOn(s, x, w).Ok?
    ensures Kept(s, WaitOn(s, x, w).value, t)
  {
    hide Wake;
    if Available(s.objects[x].kind) {
      WakeKept(SetKind(s, x, Take(s.objects[x].kind)), w, x, t);
    }
  }

  lemma {:induction false} WaitEachKept(s: State, objs: seq<ObjId>, w: Waker, t: ThreadId)
    requires forall i :: 0 <= i < |objs| ==> objs[i] < |s.objects|
    requires t < |s.threads|
    ensures WaitEach(s, objs, w).Ok? ==> Kept(s, WaitEach(s, objs, w).value, t)
    decreases |objs|
  {
    hide WaitOn;
    if objs != [] && Synchronizable(s.objects[objs[0]]) && WaitOn(s, objs[0], w).Ok? {
      WaitOnKept(s, objs[0], w, t);
      WaitEachKept(WaitOn(s, objs[0], w).value, objs[1..], w, t);
    }
  }

  lemma WaitStepKept(s: State, op: Op, t: ThreadId)
    requires t < |s.threads| && Apply(s, op).Ok?
    requires op.OpWait1? || op.OpWaitN? || op.OpSleep? || op.OpArbiterWait?
    ensures Kept(s, Apply(s, op).value, t)
  {
    hide WaitOn;
    hide WaitEach;
    match op
    case OpWait1(x, deadline) =>
      if x < |s.objects| && Synchronizable(s.objects[x]) {
        var r := Suspend(s, [x], deadline, WaitSync1).value;
        WaitOnKept(r.state, x, r.waker, t);
      }
    case OpWaitN(objs, deadline) =>
      var r := Suspend(s, objs, deadline, WaitSyncN).value;
      WaitEachKept(r.state, objs, r.waker, t);
    case OpSleep(_) =>
    case OpArbiterWait(_, _) =>
  }

  lemma RaiseKept(s: State, x: ObjId, t: ThreadId)
    requires x < |s.objects| && HasSignal(s.objects[x]) && t < |s.threads| && RaiseSignal(s, x).Ok?
    ensures Kept(s, RaiseSignal(s, x).value, t)
  {
    hide WakeAll;
    hide Wake;
    var obj := s.objects[x];
    var raised := WithSignal(obj, obj.kind.signal.(signaled := true));
    if obj.kind.signal.reset.Sticky? {
      WakeAllKept(SetObj(s, x, raised.(queue := [])), obj.queue, x, t);
    } else if obj.queue != [] {
      WakeKept(SetObj(s, x, raised), obj.queue[0], x, t);
    }
  }

  lemma TimerTickKept(s: State, x: ObjId, time: nat, t: ThreadId)
    requires x < |s.objects| && t < |s.threads| && TimerTick(s, x, time).Ok?
    ensures Kept(s, TimerTick(s, x, time).value, t)
  {
    hide RaiseSignal;
    if TimerDue(s.objects[x], time) {
      RaiseKept(SetObj(Log(s, Signalled(x)), x, Rearm(s.objects[x], time)), x, t);
    }
  }

  lemma {:induction false} TickThreadsKept(s: State, i: nat, time: nat, t: ThreadId)
    requires i <= |s.threads| && t < |s.threads| && TickThreads(s, i, time).Ok?
    ensures Kept(s, TickThreads(s, i, time).value, t)
    decreases |s.threads| - i
  {
    hide WakeUp;
    if i < |s.threads| {
      if Expired(s.threads[i], time) {
        WakeUpKept(s, i, None, t);
        TickThreadsKept(WakeUp(s, i, None).value, i + 1, time, t);
      } else {
        TickThreadsKept(s, i + 1, time, t);
      }
    }
  }

  lemma {:induction false} TickTimersKept(s: State, i: nat, time: nat, t: ThreadId)
    requires i <= |s.objects| && t < |s.threads| && TickTimers(s, i, time).Ok?
    ensures Kept(s, TickTimers(s, i, time).value, t)
    decreases |s.objects| - i
  {
    hide TimerTick;
    if i < |s.objects| {
      TimerTickKept(s, i, time, t);
      TickTimersKept(TimerTick(s, i, time).value, i + 1, time, t);
    }
  }

  lemma TickKept(s: State, time: nat, t: ThreadId)
    requires t < |s.threads| && Tick(s, time).Ok?
    ensures Kept(s, Tick(s, time).value, t)
  {
    hide TickThreads;
    hide TickTimers;
    TickThreadsKept(s, 0, time, t);
    TickTimersKept(TickThreads(s, 0, time).value, 0, time, t);
  }

  lemma ArbiterSignalKept(s: State, x: ObjId, amount: I32, addr: Address, t: ThreadId)
    requires t < |s.threads| && ArbiterSignal(s, x, amount, addr).Ok?
    ensures Kept(s, ArbiterSignal(s, x, amount, addr).value, t)
  {
    hide WakeAllExpect;
    hide DrainSlots;
    if x < |s.objects| && s.objects[x].kind.Arbiter? {
      var d := DrainSlots(s.objects[x].kind.slots, addr, SignalCount(amount));
      WakeAllKept(SetObj(s, x, s.objects[x].(kind := Arbiter(d.kept))), d.woken, x, t);
    }
  }

  lemma ReleaseKept(s: State, x: ObjId, t: ThreadId)
    requires t < |s.threads| && ReleaseMutex(s, x).Ok?
    ensures Kept(s, ReleaseMutex(s, x).value, t)
  {
    hide Wake;
    if x < |s.objects| && s.objects[x].kind.Mutex? && s.objects[x].queue != [] {
      WakeKept(Log(s, Released(x, s.current.value)), s.objects[x].queue[0], x, t);
    }
  }

  lemma SignalStepKept(s: State, op: Op, t: ThreadId)
    requires t < |s.threads| && Apply(s, op).Ok? && Safety.Signals(op)
    ensures Kept(s, Apply(s, op).value, t)
  {
    hide RaiseSignal;
    hide ReleaseMutex;
    hide ArbiterSignal;
    hide Tick;
    match op
    case OpSignalEvent(x) =>
      if x < |s.objects| && s.objects[x].kind.Event? {
        RaiseKept(Log(s, Signalled(x)), x, t);
      }
    case OpInterrupt(x) =>
      if x < |s.objects| && s.objects[x].kind.Event? {
        RaiseKept(Log(s, Signalled(x)), x, t);
      }
    case OpReleaseMutex(x) => ReleaseKept(s, x, t);
    case OpArbiterSignal(x, amount, addr) => ArbiterSignalKept(s, x, amount, addr, t);
    case OpClearEvent(_) =>
    case OpSetTimer(_, _, _) =>
    case OpTick(time) => TickKept(s, time, t);
  }

  lemma IpcStepKept(s: State, op: Op, t: ThreadId)
    requires t < |s.threads| && Apply(s, op).Ok?
    requires op.OpSendRequest? || op.OpReceive? || op.OpReply? || op.OpCreateSession? || op.OpAcceptSession?
    ensures Kept(s, Apply(s, op).value, t)
  {
    hide SendRequest;
    hide Reply;
    hide CreateSession;
    hide AcceptSession;
    match op
    case OpSendRequest(x) => SendKept(s, x, t);
    case OpReceive(_, _) =>
    case OpReply(x, image) => ReplyKept(s, x, image, t);
    case OpCreateSession(x) => CreateSessionKept(s, x, t);
    case OpAcceptSession(x) => AcceptKept(s, x, t);
  }

  lemma SendKept(s: State, x: ObjId, t: ThreadId)
    requires t < |s.threads| && SendRequest(s, x).Ok?
    ensures Kept(s, SendRequest(s, x).value, t)
  {
    hide WakeFront;
    if x < |s.objects| && s.objects[x].kind.ClientSession? {
      var r := Suspend(s, [x], None, WaitSync1).value;
      var server := s.objects[x].kind.server;
      var s1 := Push(r.state, x, r.waker);
      var k := s1.objects[server].kind;
      WakeFrontKept(SetKind(s1, server, k.(requests := k.requests + [r.waker.thread])), server, t);
    }
  }

  lemma ReplyKept(s: State, x: ObjId, image: seq<Bytes.Byte>, t: ThreadId)
    requires t < |s.threads| && Reply(s, x, image).Ok?
    ensures Kept(s, Reply(s, x, image).value, t)
  {
    hide WakeFront;
    if x < |s.objects| && s.objects[x].kind.ServerSession? {
      var k := s.objects[x].kind;
      var s1 := SetKind(s, x, k.(requests := k.requests[1..]));
      WakeFrontKept(DeliverIpc(s1, s.current.value, k.requests[0], image).value, k.client, t);
    }
  }

  lemma CreateSessionKept(s: State, x: ObjId, t: ThreadId)
    requires t < |s.threads| && CreateSession(s, x).Ok?
    ensures Kept(s, CreateSession(s, x).value, t)
  {
    hide WakeFront;
    if x < |s.objects| && s.objects[x].kind.ClientPort? {
      WakeFrontKept(WithPending(s, x), s.objects[x].kind.server, t);
    }
  }

  lemma AcceptKept(s: State, x: ObjId, t: ThreadId)
    requires t < |s.threads| && AcceptSession(s, x).Ok?
    ensures Kept(s, AcceptSession(s, x).value, t)
  {
    hide WakeFront;
    if x < |s.objects| && s.objects[x].kind.ServerPort? && s.objects[x].kind.sessions != [] {
      var k := s.objects[x].kind;
      WakeFrontKept(SetKind(s, x, k.(sessions := k.sessions[1..])), k.client, t);
    }
  }

  lemma OtherStepKept(s: State, op: Op, t: ThreadId)
    requires t < |s.threads| && Apply(s, op).Ok?
    requires Creates(op) || op.OpScheduleNext? || op.OpDispatch? || op.OpYield?
    ensures Kept(s, Apply(s, op).value, t)
  {
    hide FirstReady;
  }

  /** No step but a thread's own exit ends it or touches its object's life. */
  lemma StepKept(s: State, op: Op, t: ThreadId)
    requires t < |s.threads| && Apply(s, op).Ok? && !op.OpExit?
    ensures Kept(s, Apply(s, op).value, t)
  {
    hide Apply;
    hide Kept;
    if op.OpWait1? || op.OpWaitN? || op.OpSleep? || op.OpArbiterWait? {
      WaitStepKept(s, op, t);
    } else if op.OpSendRequest? || op.OpReceive? || op.OpReply? || op.OpCreateSession? || op.OpAcceptSession? {
      IpcStepKept(s, op, t);
    } else if Safety.Signals(op) {
      SignalStepKept(s, op, t);
    } else {
      OtherStepKept(s, op, t);
    }
  }

  /** Only creating a thread changes how many there are. */
  lemma StepThreads(s: State, op: Op)
    requires Apply(s, op).Ok?
    ensures |Apply(s, op).value.threads| == |s.threads| + if op.OpCreateThread? then 1 else 0
  {
    hide FirstReady;
    hide WakeAll;
    hide WakeAllExpect;
    hide WakeExpect;
    hide WakeFront;
    hide WaitOn;
    hide WaitEach;
    hide RaiseSignal;
    hide TickThreads;
    hide TickTimers;
    hide DrainSlots;
  }

  // ---------------------------------------------------------------- every step, every run

  lemma KeptOwns(s: State, s': State, t: ThreadId)
    requires Owns(s, t) && Kept(s, s', t) && DoneStays(s, s')
    ensures Owns(s', t)
  {
  }

  lemma CreateThreadJoinable(s: State)
    requires Joinable(s)
    ensures Joinable(CreateThread(s))
  {
    var s' := CreateThread(s);
    forall t | 0 <= t < |s'.threads| ensures Owns(s', t) {
      if t < |s.threads| {
        assert Owns(s, t);
      }
    }
    forall t, u | 0 <= t < u < |s'.threads| ensures s'.threads[t].kobj != s'.threads[u].kobj {
      assert Owns(s, t);
    }
  }

  /** A thread's end succeeds: it is Done, its object dead, and whoever waited for it is released. */
  lemma ExitJoins(s: State)
    requires Inv(s) && Joinable(s) && RunningCurrent(s)
    ensures Exit(s).Ok? && Inv(Exit(s).value) && Joinable(Exit(s).value)
    ensures s.threads[s.current.value].kobj < |s.objects| && JoinersWoken(s, Exit(s).value)
  {
    hide Inv;
    var t := s.current.value;
    assert Owns(s, t);
    ExitKeeps(s);
    ExitWakesJoiners(s);
    var kobj := s.threads[t].kobj;
    var s2 := SetObj(s.(threads := s.threads[t := s.threads[t].(state := Done)]), kobj, Object([], ThreadObj(true)));
    var s' := Exit(s).value;
    assert Exit(s) == WakeAll(s2, s.objects[kobj].queue, kobj);
    hide Exit;
    hide WakeAll;
    hide WokeCalled;
    forall u | 0 <= u < |s.threads| ensures Owns(s', u) && s'.threads[u].kobj == s.threads[u].kobj {
      assert Owns(s, u);
      WakeAllKept(s2, s.objects[kobj].queue, kobj, u);
    }
  }

  lemma StepJoinable(s: State, op: Op)
    requires Inv(s) && Joinable(s) && Disciplined(s, op) && Apply(s, op).Ok?
    ensures Joinable(Apply(s, op).value)
  {
    StepKeeps(s, op);
    StepThreads(s, op);
    hide Inv;
    if op.OpExit? {
      ExitJoins(s);
    } else if op.OpCreateThread? {
      CreateThreadJoinable(s);
    } else {
      hide Apply;
      hide Disciplined;
      var s' := Apply(s, op).value;
      forall t | 0 <= t < |s.threads| ensures Owns(s', t) && s'.threads[t].kobj == s.threads[t].kobj {
        StepKept(s, op, t);
        KeptOwns(s, s', t);
      }
      hide Owns;
    }
  }

  lemma {:induction false} RunJoinable(s: State, ops: seq<Op>)
    requires Inv(s) && Joinable(s) && DisciplinedRun(s, ops) && Run(s, ops).Ok?
    ensures Inv(Run(s, ops).value) && Joinable(Run(s, ops).value)
    decreases |ops|
  {
    hide Inv;
    hide Joinable;
    hide Apply;
    hide Disciplined;
    if ops != [] {
      StepKeeps(s, ops[0]);
      StepJoinable(s, ops[0]);
      RunJoinable(Apply(s, ops[0]).value, ops[1..]);
    }
  }

  /** In every state a disciplined run reaches, a wait for a thread succeeds at once exactly when it is Done. */
  lemma JoinedWhenDone(ops: seq<Op>, t: ThreadId)
    requires DisciplinedRun(Initial, ops) && Run(Initial, ops).Ok? && t < |Run(Initial, ops).value.threads|
    ensures var s := Run(Initial, ops).value;
      && s.threads[t].kobj < |s.objects| && s.objects[s.threads[t].kobj].kind.ThreadObj?
      && (Available(s.objects[s.threads[t].kobj].kind) <==> s.threads[t].state == Done)
  {
    RunJoinable(Initial, ops);
    assert Owns(Run(Initial, ops).value, t);
    hide Run;
  }

  /** In every such state the running thread can end, and its end releases whoever waits for it. */
  lemma EndReleasesJoiners(ops: seq<Op>)
    requires DisciplinedRun(Initial, ops) && Run(Initial, ops).Ok? && RunningCurrent(Run(Initial, ops).value)
    ensures var s := Run(Initial, ops).value;
      Exit(s).Ok? && s.threads[s.current.value].kobj < |s.objects| && JoinersWoken(s, Exit(s).value)
  {
    RunJoinable(Initial, ops);
    ExitJoins(Run(Initial, ops).value);
    hide Run;
  }
}
