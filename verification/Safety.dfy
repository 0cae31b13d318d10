/** What every run of the kernel keeps, for every sequence of steps that respects the step discipline. */
module Safety {
  import opened Outcomes
  import opened Machine
  import Bytes
  import opened Wakers
  import opened WaitSyncN

  /**
    The step discipline. Time and scheduling happen between threads, a system call is made by the
    current Running thread, callers hand Ready threads to the scheduler, and WaitSynchronizationN is
    given objects that can be waited on.
   */
  ghost predicate InOrder(s: State, op: Op) {
    match op
    case OpCreateThread => true
    case OpCreateEvent(_) => true
    case OpCreateTimer(_) => true
    case OpCreateArbiter => true
    case OpCreatePort => true
    case OpScheduleNext(t) => t < |s.threads| && s.threads[t].state == Ready
    case OpDispatch => s.current.None?
    case OpTick(_) => s.current.None?
    case OpInterrupt(_) => s.current.None?
    case OpYield => s.current.Some?
    case OpWaitN(objs, _) =>
      RunningCurrent(s) && (ValidIds(objs, |s.objects|) ==> Waitable(Kinds(s), objs))
    case _ => RunningCurrent(s)
  }

  /** A step in order whose WaitSynchronizationN list, if it has one, leaves no spent waker behind. */
  ghost predicate Disciplined(s: State, op: Op) {
    InOrder(s, op) && (op.OpWaitN? && ValidIds(op.objs, |s.objects|) ==> SafeList(Kinds(s), op.objs))
  }

  lemma CreateThreadKeeps(s: State)
    requires Inv(s)
    ensures Keeps(s, Ok(CreateThread(s)))
  {
    NewObjectsKeep(s, [Object([], ThreadObj(false))]);
  }

  lemma SchedulingKeeps(s: State)
    requires Inv(s)
    ensures s.current.None? ==> Dispatch(s).Ok? && Keeps(s, Dispatch(s))
    ensures s.current.Some? ==> Yield(s).Ok? && Keeps(s, Yield(s))
  {
    hide FirstReady;
    if s.current.None? {
      DispatchReady(s);
      if Dispatch(s).value.current.Some? {
        OneThreadMoves(s, Dispatch(s).value, Dispatch(s).value.current.value);
      }
    } else {
      YieldReady(s);
      OneThreadMoves(s, Yield(s).value, s.current.value);
    }
  }

  lemma DispatchReady(s: State)
    requires Scheduled(s) && s.current.None?
    ensures Dispatch(s).Ok? && Scheduled(Dispatch(s).value)
    ensures Dispatch(s).value.current.Some? ==>
      var t := Dispatch(s).value.current.value;
      t < |s.threads| && s.threads[t].state == Ready
  {
  }

  lemma YieldReady(s: State)
    requires Scheduled(s) && s.current.Some?
    ensures Yield(s).Ok? && Scheduled(Yield(s).value)
  {
  }

  /** A thread that is not Waiting may go between Ready and Running as the scheduler likes. */
  lemma OneThreadMoves(s: State, s': State, t: ThreadId)
    requires Inv(s) && Scheduled(s') && s'.objects == s.objects && t < |s.threads| == |s'.threads|
    requires s'.threads[t] == s.threads[t]
      || (s.threads[t].state in {Ready, Running} && s'.threads[t].state in {Ready, Running})
    requires forall u :: 0 <= u < |s.threads| && u != t ==> s'.threads[u] == s.threads[u]
    ensures Inv(s') && DoneStays(s, s')
  {
    hide Scheduled;
    forall o, w | 0 <= o < |s'.objects| && w in Queue(s'.objects[o]) ensures LiveIn(s', w, o) {
      assert LiveIn(s, w, o);
    }
    hide Queue;
  }

  lemma WaitKeeps(s: State, o: ObjId, deadline: Option<nat>)
    requires Inv(s) && RunningCurrent(s)
    ensures Keeps(s, Wait1(s, o, deadline))
  {
    if o < |s.objects| && Synchronizable(s.objects[o]) {
      SuspendKeeps(s, [o], deadline, WaitSync1);
      var r := Suspend(s, [o], deadline, WaitSync1).value;
      WaitOnKeeps(r.state, o, r.waker);
    }
  }

  lemma WaitNKeeps(s: State, objs: seq<ObjId>, deadline: Option<nat>)
    requires Inv(s) && Disciplined(s, OpWaitN(objs, deadline))
    ensures Keeps(s, WaitN(s, objs, deadline))
  {
    if ValidIds(objs, |s.objects|) {
      WaitNKeepsIffSafe(s, objs, deadline);
      WaitNTakesAtMostOne(s, objs, deadline);
    }
  }

  predicate Creates(op: Op) {
    op.OpCreateThread? || op.OpCreateEvent? || op.OpCreateTimer? || op.OpCreateMutex? || op.OpCreateArbiter?
    || op.OpCreatePort?
  }

  lemma CreationKeeps(s: State, op: Op)
    requires Inv(s) && Creates(op)
    ensures Keeps(s, Apply(s, op))
  {
    match op
    case OpCreateThread => CreateThreadKeeps(s);
    case OpCreateEvent(reset) => NewObjectsKeep(s, [Object([], Event(Signal(reset, false)))]);
    case OpCreateTimer(reset) => NewObjectsKeep(s, [Object([], Timer(Signal(reset, false), -1, -1))]);
    case OpCreateMutex(locked) => NewObjectsKeep(s, [Object([], Mutex(locked))]);
    case OpCreateArbiter => NewObjectsKeep(s, [Object([], Arbiter([]))]);
    case OpCreatePort =>
      var id := |s.objects|;
      NewObjectsKeep(s, [Object([], ServerPort([], id + 1)), Object([], ClientPort(id))]);
  }

  predicate Signals(op: Op) {
    op.OpSignalEvent? || op.OpInterrupt? || op.OpClearEvent? || op.OpSetTimer? || op.OpReleaseMutex?
    || op.OpArbiterSignal? || op.OpTick?
  }

  lemma SignallingKeeps(s: State, op: Op)
    requires Inv(s) && Disciplined(s, op) && Signals(op)
    ensures Keeps(s, Apply(s, op))
  {
    hide Inv;
    hide SignalEvent;
    hide SetTimer;
    hide ReleaseMutex;
    hide ArbiterSignal;
    hide Tick;
    match op
    case OpSignalEvent(o) => SignalEventKeeps(s, o);
    case OpInterrupt(o) => SignalEventKeeps(s, o);
    case OpClearEvent(o) => if o < |s.objects| { ResetKeeps(s, o); }
    case OpSetTimer(o, initial, interval) => SetTimerKeeps(s, o, initial, interval);
    case OpReleaseMutex(o) => ReleaseMutexKeeps(s, o);
    case OpArbiterSignal(o, amount, addr) => ArbiterSignalKeeps(s, o, amount, addr);
    case OpTick(time) => TickKeeps(s, time);
  }

  lemma TickKeeps(s: State, time: nat)
    requires Inv(s)
    ensures Keeps(s, Tick(s, time))
  {
    TickThreadsKeeps(s, 0, time);
    TickTimersKeeps(TickThreads(s, 0, time).value, 0, time);
  }

  lemma ReceiveKeeps(s: State, o: ObjId, image: seq<Bytes.Byte>)
    requires Inv(s) && RunningCurrent(s)
    ensures Keeps(s, Receive(s, o, image))
  {
    if o < |s.objects| && s.objects[o].kind.ServerSession? && s.objects[o].kind.requests != [] {
      DeliverKeeps(s, s.objects[o].kind.requests[0], s.current.value, image);
    }
  }

  /** Every disciplined step keeps the invariant and never trips over a failed wake-up. */
  lemma StepKeeps(s: State, op: Op)
    requires Inv(s) && Disciplined(s, op)
    ensures Keeps(s, Apply(s, op))
  {
    hide Inv;
    hide Keeps;
    hide Apply;
    if Creates(op) {
      CreationKeeps(s, op);
    } else if Signals(op) {
      SignallingKeeps(s, op);
    } else {
      CallKeeps(s, op);
    }
  }

  lemma ScheduleNextKeeps(s: State, t: ThreadId)
    requires Inv(s) && t < |s.threads| && s.threads[t].state == Ready
    ensures Keeps(s, Apply(s, OpScheduleNext(t)))
  {
  }

  lemma SleepKeeps(s: State, deadline: Option<nat>)
    requires Inv(s) && RunningCurrent(s)
    ensures Keeps(s, SleepThread(s, deadline))
  {
    SuspendKeeps(s, [], deadline, WaitSleep);
    hide Inv;
  }

  lemma CallKeeps(s: State, op: Op)
    requires Inv(s) && Disciplined(s, op) && !Creates(op) && !Signals(op)
    ensures Keeps(s, Apply(s, op))
  {
    hide Inv;
    hide Keeps;
    hide Dispatch;
    hide Yield;
    hide Exit;
    hide Wait1;
    hide WaitN;
    hide SleepThread;
    hide ArbiterWait;
    hide SendRequest;
    hide Receive;
    hide Reply;
    hide CreateSession;
    hide AcceptSession;
    match op
    case OpScheduleNext(t) => ScheduleNextKeeps(s, t);
    case OpDispatch => SchedulingKeeps(s);
    case OpYield => SchedulingKeeps(s);
    case OpExit => ExitKeeps(s);
    case OpWait1(o, deadline) => WaitKeeps(s, o, deadline);
    case OpWaitN(objs, deadline) => WaitNKeeps(s, objs, deadline);
    case OpSleep(deadline) => SleepKeeps(s, deadline);
    case OpArbiterWait(o, addr) => ArbiterWaitKeeps(s, o, addr);
    case OpSendRequest(o) => SendRequestKeeps(s, o);
    case OpReceive(o, image) => ReceiveKeeps(s, o, image);
    case OpReply(o, image) => ReplyKeeps(s, o, image);
    case OpCreateSession(o) => CreateSessionKeeps(s, o);
    case OpAcceptSession(o) => AcceptSessionKeeps(s, o);
  }

  lemma SignalEventKeeps(s: State, o: ObjId)
    requires Inv(s)
    ensures SignalEvent(s, o).Ok? && Keeps(s, SignalEvent(s, o))
  {
    if o < |s.objects| && s.objects[o].kind.Event? {
      LogKeeps(s, Signalled(o));
      RaiseSignalKeeps(Log(s, Signalled(o)), o);
    }
  }

  lemma SetTimerKeeps(s: State, o: ObjId, initial: int, interval: int)
    requires Inv(s)
    ensures Keeps(s, Ok(SetTimer(s, o, initial, interval)))
  {
    if o < |s.objects| && s.objects[o].kind.Timer? {
      SetObjKeeps(s, o, s.objects[o].(kind := Timer(s.objects[o].kind.signal, initial, interval)));
    }
  }

  // ---------------------------------------------------------------- whole runs

  ghost predicate DisciplinedRun(s: State, ops: seq<Op>)
    decreases |ops|
  {
    ops == []
    || (Disciplined(s, ops[0]) && (Apply(s, ops[0]).Ok? ==> DisciplinedRun(Apply(s, ops[0]).value, ops[1..])))
  }

  /**
    Over every disciplined run, from the empty kernel or from any state reached so far: each queued
    waker is live, at most the current thread is Running, a thread chosen to run next is Ready, Done
    is terminal, and the run never stops on a failed wake-up or on a scheduler assertion.
   */
  lemma {:induction false} RunKeeps(s: State, ops: seq<Op>)
    requires Inv(s) && DisciplinedRun(s, ops)
    ensures Keeps(s, Run(s, ops))
    decreases |ops|
  {
    if ops != [] {
      StepKeeps(s, ops[0]);
      if Apply(s, ops[0]).Ok? {
        RunKeeps(Apply(s, ops[0]).value, ops[1..]);
      }
    }
  }

  lemma FromStart(ops: seq<Op>)
    requires DisciplinedRun(Initial, ops)
    ensures Keeps(Initial, Run(Initial, ops))
  {
    RunKeeps(Initial, ops);
  }

  ghost predicate RunInOrder(s: State, ops: seq<Op>)
    decreases |ops|
  {
    ops == [] || (InOrder(s, ops[0]) && (Apply(s, ops[0]).Ok? ==> RunInOrder(Apply(s, ops[0]).value, ops[1..])))
  }

  // Without the restriction to safe lists the failure is real. One thread waits on two one-shot
  // events of which only the first is signalled; the second is left holding a spent waker.

  function Lone(state: ThreadState, key: Key, waitType: Option<WaitType>, resume: Resume): Thread {
    Thread(state, [], key, None, waitType, resume, 0, seq(256, _ => 0))
  }

  function OneShotEvent(queue: seq<Waker>, signaled: bool): Object {
    Object(queue, Event(Signal(OneShot, signaled)))
  }

  function Pair(first: Object, second: Object): seq<Object> {
    [Object([], ThreadObj(false)), first, second]
  }

  const Spent := Waker(0, 0)
  const Idle := OneShotEvent([], false)

  const Created := State([Lone(Ready, 0, None, Normal)], Pair(Idle, Idle), None, None, [])
  const FirstRaised := Created.(objects := Pair(OneShotEvent([], true), Idle), history := [Signalled(1)])
  const NowRunning := FirstRaised.(threads := [Lone(Running, 0, None, Normal)], current := Some(0))
  const Spoilt := State(
    [Lone(Ready, 1, Some(WaitSyncN), WokenBy(0))], Pair(Idle, OneShotEvent([Spent], false)), Some(0), None,
    [Signalled(1), Woken(Spent, Some(1))])

  lemma SpoiltByWait()
    ensures WaitN(NowRunning, [1, 2], None) == Ok(Spoilt)
  {
    var r := Suspend(NowRunning, [1, 2], None, WaitSyncN).value;
    var taken := SetKind(r.state, 1, Event(Signal(OneShot, false)));
    var s1 := WakeUp(taken, 0, Some(1)).value;
    assert IndexOf([1, 2], 1) == 0;
    assert PurgeWaited(taken.objects, [1, 2], 0) == Pair(Idle, Idle);
    assert s1 == Spoilt.(objects := Pair(Idle, Idle));
    assert WaitOn(r.state, 1, r.waker) == Ok(s1);
    assert Idle.queue + [r.waker] == [Spent];
    assert Push(s1, 2, r.waker).objects == Spoilt.objects;
    assert WaitOn(s1, 2, r.waker) == Ok(Spoilt);
    assert [1, 2][1..] == [2] && [2][1..] == [];
    assert WaitEach(Spoilt, [], r.waker) == Ok(Spoilt);
    assert WaitEach(s1, [2], r.waker) == Ok(Spoilt);
  }

  /** A run that respects the step discipline but uses an unsafe list, and ends in a failed wake-up. */
  lemma UnsafeListPanics() returns (ops: seq<Op>)
    ensures RunInOrder(Initial, ops)
    ensures Run(Initial, ops) == Panic(WakeFailed)
  {
    ops := PanicFromSpoilt();
    SpoiltByWait();
    ops := Prepend(NowRunning, OpWaitN([1, 2], None), Spoilt, ops);
    ops := ResumeFirst(ops);
    ops := CreatePair(ops);
  }

  lemma ResumeFirst(rest: seq<Op>) returns (ops: seq<Op>)
    requires RunInOrder(NowRunning, rest)
    ensures RunInOrder(Created, ops) && Run(Created, ops) == Run(NowRunning, rest)
  {
    assert Dispatch(FirstRaised).value.threads == NowRunning.threads;
    ops := Prepend(FirstRaised, OpDispatch, NowRunning, rest);
    assert Created.history + [Signalled(1)] == FirstRaised.history;
    assert RaiseSignal(Log(Created, Signalled(1)), 1).value.objects == FirstRaised.objects;
    ops := Prepend(Created, OpInterrupt(1), FirstRaised, ops);
  }

  lemma PanicFromSpoilt() returns (ops: seq<Op>)
    ensures RunInOrder(Spoilt, ops) && Run(Spoilt, ops) == Panic(WakeFailed)
  {
    var yielded := Spoilt.(current := None);
    assert Apply(yielded, OpInterrupt(2)) == Panic(WakeFailed);
    ops := [OpInterrupt(2)];
    assert Spoilt.threads[0 := Spoilt.threads[0]] == Spoilt.threads;
    ops := Prepend(Spoilt, OpYield, yielded, ops);
  }

  lemma CreatePair(rest: seq<Op>) returns (ops: seq<Op>)
    requires RunInOrder(Created, rest)
    ensures RunInOrder(Initial, ops) && Run(Initial, ops) == Run(Created, rest)
  {
    var one := Created.(objects := Created.objects[..1]);
    var two := Created.(objects := Created.objects[..2]);
    assert two.objects + [Idle] == Created.objects && one.objects + [Idle] == two.objects;
    assert CreateThread(Initial).objects == one.objects && CreateThread(Initial).threads == one.threads;
    ops := Prepend(two, OpCreateEvent(OneShot), Created, rest);
    ops := Prepend(one, OpCreateEvent(OneShot), two, ops);
    ops := Prepend(Initial, OpCreateThread, one, ops);
  }

  lemma Prepend(s: State, op: Op, s': State, rest: seq<Op>) returns (ops: seq<Op>)
    requires InOrder(s, op) && Apply(s, op) == Ok(s') && RunInOrder(s', rest)
    ensures RunInOrder(s, ops) && Run(s, ops) == Run(s', rest)
  {
    ops := [op] + rest;
    assert ops[1..] == rest;
  }
}
