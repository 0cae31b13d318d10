/** When a step panics, exactly, and the runs in which none does. */
module Progress {
  import opened Outcomes
  import opened Machine
  import opened Wakers
  import opened WaitSyncN
  import opened Safety
  import opened Grants
  import opened Lockstep
  import opened Calls
  import opened Joins
  import opened Signals

  // ---------------------------------------------------------------- single operations

  /** A thread is suspended exactly when it is current and Running. */
  lemma SuspendsIff(s: State, objs: seq<ObjId>, deadline: Option<nat>, kind: WaitType)
    ensures Suspend(s, objs, deadline, kind).Ok? <==> RunningCurrent(s)
  {
  }

  /** Whether a thread can be told that it was woken by such a cause. */
  predicate CanBeTold(th: Thread, cause: Option<ObjId>) {
    && th.waitType.Some?
    && (cause.Some? ==> th.waitType != Some(WaitSleep))
    && (cause.Some? && th.waitType == Some(WaitSyncN) ==> cause.value in th.waitObjects)
  }

  /** A wake-up panics exactly on a thread without wait type, a sleeper woken by an object, or an object not waited for. */
  lemma WakesIff(s: State, t: ThreadId, cause: Option<ObjId>)
    requires t < |s.threads|
    ensures WakeUp(s, t, cause).Ok? <==> CanBeTold(s.threads[t], cause)
    ensures WakeUp(s, t, cause).Ok? ==> Told(s.threads[t], cause, WakeUp(s, t, cause).value.threads[t].resume)
  {
  }

  /** An operation on an object that does not exist, or not of the kind it is for, leaves everything as it was. */
  lemma WrongObjectIgnored(s: State, op: Op)
    requires s.current.Some? && WrongObject(s, op)
    ensures Apply(s, op) == Ok(s)
  {
  }

  predicate WrongObject(s: State, op: Op) {
    match op
    case OpWait1(o, _) => o >= |s.objects| || s.objects[o].kind.Arbiter?
    case OpArbiterWait(o, _) => o >= |s.objects| || !s.objects[o].kind.Arbiter?
    case OpArbiterSignal(o, _, _) => o >= |s.objects| || !s.objects[o].kind.Arbiter?
    case OpSignalEvent(o) => o >= |s.objects| || !s.objects[o].kind.Event?
    case OpInterrupt(o) => o >= |s.objects| || !s.objects[o].kind.Event?
    case OpClearEvent(o) => o >= |s.objects| || !s.objects[o].kind.Event?
    case OpSetTimer(o, _, _) => o >= |s.objects| || !s.objects[o].kind.Timer?
    case OpReleaseMutex(o) => o >= |s.objects| || !s.objects[o].kind.Mutex?
    case OpSendRequest(o) => o >= |s.objects| || !s.objects[o].kind.ClientSession?
    case OpReceive(o, _) => o >= |s.objects| || !s.objects[o].kind.ServerSession? || s.objects[o].kind.requests == []
    case OpReply(o, _) => o >= |s.objects| || !s.objects[o].kind.ServerSession?
    case OpCreateSession(o) => o >= |s.objects| || !s.objects[o].kind.ClientPort?
    case OpAcceptSession(o) => o >= |s.objects| || !s.objects[o].kind.ServerPort?
    case _ => false
  }

  // ---------------------------------------------------------------- every step

  /** The two misuses the kernel answers with a panic: a wait on a null handle, a reply to nobody. */
  predicate Misused(s: State, op: Op) {
    || (op.OpWaitN? && !ValidIds(op.objs, |s.objects|))
    || (op.OpReply? && op.obj < |s.objects| && s.objects[op.obj].kind.ServerSession?
        && s.objects[op.obj].kind.requests == [])
  }

  /** All that is known of the states a well-behaved run reaches. */
  ghost predicate Healthy(s: State) {
    Inv(s) && InStep(s) && Joinable(s)
  }

  lemma MisusePanics(s: State, op: Op)
    requires Misused(s, op) && RunningCurrent(s)
    ensures Apply(s, op) == Panic(if op.OpWaitN? then NullObject else RepliedToNobody)
  {
  }

  lemma WaitSucceeds(s: State, op: Op)
    requires Inv(s) && Disciplined(s, op) && !Misused(s, op)
    requires op.OpWait1? || op.OpWaitN? || op.OpSleep? || op.OpArbiterWait?
    ensures Apply(s, op).Ok?
  {
    hide Inv;
    hide Wait1;
    hide WaitN;
    hide ArbiterWait;
    hide GotOrQueued;
    hide TookFirst;
    hide QueuedAtArbiter;
    hide SuspendedOn;
    match op
    case OpWait1(o, deadline) =>
      if WrongObject(s, op) {
        WrongObjectIgnored(s, op);
      } else {
        Wait1Exact(s, o, deadline);
      }
    case OpWaitN(objs, deadline) => WaitNTakesAtMostOne(s, objs, deadline);
    case OpSleep(deadline) => SuspendExact(s, [], deadline, WaitSleep);
    case OpArbiterWait(o, addr) =>
      if WrongObject(s, op) {
        WrongObjectIgnored(s, op);
      } else {
        ArbiterWaitExact(s, o, addr);
      }
  }

  lemma SessionSucceeds(s: State, op: Op)
    requires IpcCaller(s) && !Misused(s, op) && (op.OpSendRequest? || op.OpReceive? || op.OpReply?)
    ensures Apply(s, op).Ok?
  {
    assert s.current.Some?;
    hide IpcCaller;
    hide IpcSound;
    hide SendRequest;
    hide Receive;
    hide Reply;
    hide RequestSent;
    hide CallerQueued;
    hide Replied;
    hide OnlyReceived;
    if WrongObject(s, op) {
      WrongObjectIgnored(s, op);
    } else {
      match op
      case OpSendRequest(o) => SendExact(s, o);
      case OpReceive(o, image) => ReceiveExact(s, o, image);
      case OpReply(o, image) => ReplyExact(s, o, image);
    }
  }

  lemma PortSucceeds(s: State, op: Op)
    requires IpcCaller(s) && (op.OpCreateSession? || op.OpAcceptSession?)
    ensures Apply(s, op).Ok?
  {
    assert s.current.Some?;
    hide IpcCaller;
    hide IpcSound;
    hide CreateSession;
    hide AcceptSession;
    hide CallerQueued;
    hide SessionPending;
    hide Accepted;
    hide Joined;
    if WrongObject(s, op) {
      WrongObjectIgnored(s, op);
    } else if op.OpCreateSession? {
      CreateExact(s, op.obj);
    } else if s.objects[op.obj].kind.sessions == [] {
      AcceptWaits(s, op.obj);
    } else {
      AcceptExact(s, op.obj);
    }
  }

  lemma SignalSucceeds(s: State, op: Op)
    requires Inv(s) && Disciplined(s, op) && Safety.Signals(op)
    ensures Apply(s, op).Ok?
  {
    hide Inv;
    hide SignalEvent;
    hide ReleaseMutex;
    hide ArbiterSignal;
    hide TickThreads;
    hide TickTimers;
    match op
    case OpSignalEvent(o) => SignalEventKeeps(s, o);
    case OpInterrupt(o) => SignalEventKeeps(s, o);
    case OpClearEvent(_) =>
    case OpSetTimer(_, _, _) =>
    case OpReleaseMutex(o) => ReleaseMutexKeeps(s, o);
    case OpArbiterSignal(o, amount, addr) => ArbiterSignalKeeps(s, o, amount, addr);
    case OpTick(time) =>
      TickThreadsKeeps(s, 0, time);
      TickTimersKeeps(TickThreads(s, 0, time).value, 0, time);
  }

  lemma OtherStepSucceeds(s: State, op: Op)
    requires Inv(s) && Joinable(s) && Disciplined(s, op)
    requires Creates(op) || op.OpScheduleNext? || op.OpDispatch? || op.OpYield? || op.OpExit?
    ensures Apply(s, op).Ok?
  {
    hide Inv;
    hide Joinable;
    hide Dispatch;
    hide Yield;
    hide Exit;
    hide JoinersWoken;
    match op
    case OpDispatch => SchedulingKeeps(s);
    case OpYield => SchedulingKeeps(s);
    case OpExit => ExitJoins(s);
    case _ =>
  }

  /** In a healthy state a disciplined step panics exactly when it is one of the two misuses. */
  lemma StepSucceedsIff(s: State, op: Op)
    requires Healthy(s) && Disciplined(s, op)
    ensures Apply(s, op).Ok? <==> !Misused(s, op)
  {
    hide Apply;
    hide Inv;
    hide InStep;
    hide Joinable;
    if Misused(s, op) {
      MisusePanics(s, op);
    } else if op.OpWait1? || op.OpWaitN? || op.OpSleep? || op.OpArbiterWait? {
      WaitSucceeds(s, op);
    } else if op.OpSendRequest? || op.OpReceive? || op.OpReply? {
      SessionSucceeds(s, op);
    } else if op.OpCreateSession? || op.OpAcceptSession? {
      PortSucceeds(s, op);
    } else if Safety.Signals(op) {
      SignalSucceeds(s, op);
    } else {
      OtherStepSucceeds(s, op);
    }
  }

  lemma StepHealthy(s: State, op: Op)
    requires Healthy(s) && Disciplined(s, op) && OwnCallsOnly(s, op) && Apply(s, op).Ok?
    ensures Healthy(Apply(s, op).value)
  {
    hide Inv;
    hide InStep;
    hide Joinable;
    hide Apply;
    hide Disciplined;
    hide OwnCallsOnly;
    StepKeeps(s, op);
    StepInStep(s, op);
    StepJoinable(s, op);
  }

  // ---------------------------------------------------------------- whole runs

  /** A run whose steps respect the discipline and use client ends and handles as they are meant to be used. */
  ghost predicate CarefulRun(s: State, ops: seq<Op>)
    decreases |ops|
  {
    ops == []
    || (Disciplined(s, ops[0]) && OwnCallsOnly(s, ops[0]) && !Misused(s, ops[0])
        && (Apply(s, ops[0]).Ok? ==> CarefulRun(Apply(s, ops[0]).value, ops[1..])))
  }

  lemma {:induction false} CarefulRunSucceeds(s: State, ops: seq<Op>)
    requires Healthy(s) && CarefulRun(s, ops)
    ensures Run(s, ops).Ok? && Healthy(Run(s, ops).value)
    decreases |ops|
  {
    hide Healthy;
    hide Apply;
    hide Disciplined;
    hide OwnCallsOnly;
    hide Misused;
    if ops != [] {
      StepSucceedsIff(s, ops[0]);
      StepHealthy(s, ops[0]);
      CarefulRunSucceeds(Apply(s, ops[0]).value, ops[1..]);
    }
  }

  /** From the empty kernel, a careful run never panics, whatever its threads do. */
  lemma NeverPanics(ops: seq<Op>)
    requires CarefulRun(Initial, ops)
    ensures Run(Initial, ops).Ok?
  {
    CarefulRunSucceeds(Initial, ops);
  }
}
