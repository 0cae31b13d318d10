/** What the single kernel calls do for their callers: who waits where, who runs, what else changes. */
module Calls {
  import opened Outcomes
  import opened Machine
  import opened Wakers
  import opened Lockstep
  import opened Safety
  import Bytes

  // ---------------------------------------------------------------- suspending

  /**
    The caller waits, with the list, deadline and wait type it asked for and a fresh, live waker; no
    object holds another waker of it, and nothing else changed.
   */
  ghost predicate SuspendedOn(
      s: State, s': State, objs: seq<ObjId>, deadline: Option<nat>, kind: WaitType, w: Waker)
    requires RunningCurrent(s)
  {
    var t := s.current.value;
    && s'.objects == s.objects && s'.history == s.history && s'.current == s.current && s'.next == s.next
    && s'.threads == s.threads[t := Sleeper(s.threads[t], objs, deadline, kind)]
    && w == Waker(t, s.threads[t].wakeKey)
    && (forall o :: o in objs ==> LiveIn(s', w, o))
    && (forall o, v :: 0 <= o < |s.objects| && v in Queue(s.objects[o]) ==> v.thread != t)
  }

  lemma SuspendExact(s: State, objs: seq<ObjId>, deadline: Option<nat>, kind: WaitType)
    requires Inv(s) && RunningCurrent(s) && (kind == WaitSleep ==> objs == [])
    ensures Suspend(s, objs, deadline, kind).Ok?
    ensures var r := Suspend(s, objs, deadline, kind).value;
      Inv(r.state) && SuspendedOn(s, r.state, objs, deadline, kind, r.waker)
  {
    SuspendKeeps(s, objs, deadline, kind);
    hide Inv;
  }

  // ---------------------------------------------------------------- waiting for one object

  /** The caller has the object and is Ready, or waits behind everybody else in its queue until its deadline. */
  ghost predicate GotOrQueued(s: State, s': State, o: ObjId, deadline: Option<nat>)
    requires RunningCurrent(s) && o < |s.objects|
  {
    var t, obj := s.current.value, s.objects[o];
    var asleep := Sleeper(s.threads[t], [o], deadline, WaitSync1);
    && |s'.threads| == |s.threads| && |s'.objects| == |s.objects|
    && (forall u :: 0 <= u < |s.threads| && u != t ==> s'.threads[u] == s.threads[u])
    && (forall x :: 0 <= x < |s.objects| && x != o ==> s'.objects[x] == s.objects[x])
    && if Available(obj.kind) then
         && Resumed(asleep, s'.threads[t], Some(o))
         && s'.objects[o].queue == obj.queue && Taken(obj.kind, s'.objects[o].kind)
       else
         && s'.threads[t] == asleep
         && s'.objects[o] == obj.(queue := obj.queue + [Waker(t, s.threads[t].wakeKey)])
  }

  /** A wake-up of a thread that no queue knows changes no object. */
  lemma UnqueuedWake(s: State, s': State, t: ThreadId, cause: Option<ObjId>)
    requires WokenUp(s, s', t, cause)
    requires forall o, v :: 0 <= o < |s.objects| && v in Queue(s.objects[o]) ==> v.thread != t
    ensures s'.objects == s.objects
  {
    forall o | 0 <= o < |s.objects| ensures s'.objects[o] == s.objects[o] {
      PurgeIdentity(s, o, t);
      hide Purge;
    }
  }

  lemma Wait1Exact(s: State, o: ObjId, deadline: Option<nat>)
    requires Inv(s) && RunningCurrent(s) && o < |s.objects| && Synchronizable(s.objects[o])
    ensures Wait1(s, o, deadline).Ok? && Inv(Wait1(s, o, deadline).value)
    ensures GotOrQueued(s, Wait1(s, o, deadline).value, o, deadline)
  {
    hide Wake;
    hide Take;
    hide Available;
    SuspendExact(s, [o], deadline, WaitSync1);
    var r := Suspend(s, [o], deadline, WaitSync1).value;
    assert o in [o] && LiveIn(r.state, r.waker, o);
    WaitOnKeeps(r.state, o, r.waker);
    if Available(s.objects[o].kind) {
      TakenAtOnce(s, r.state, o, deadline, r.waker);
    }
    hide Inv;
  }

  lemma TakenAtOnce(s: State, r: State, o: ObjId, deadline: Option<nat>, w: Waker)
    requires Inv(r) && RunningCurrent(s) && o < |s.objects| && SuspendedOn(s, r, [o], deadline, WaitSync1, w)
    requires LiveIn(r, w, o) && Synchronizable(s.objects[o]) && Available(s.objects[o].kind)
    ensures WaitOn(r, o, w).Ok? && GotOrQueued(s, WaitOn(r, o, w).value, o, deadline)
  {
    hide Available;
    hide Wake;
    hide Purge;
    hide PurgeQueue;
    hide WakersOf;
    hide KeyAfter;
    var k := s.objects[o].kind;
    TakeTakes(k);
    hide Take;
    hide Taken;
    var taken := SetKind(r, o, Take(k));
    SetObjKeeps(r, o, r.objects[o].(kind := Take(k)));
    hide Inv;
    assert LiveIn(taken, w, o);
    WakeKeeps(taken, w, o);
    var s' := Wake(taken, w, o).value.state;
    assert WaitOn(r, o, w) == Ok(s');
    hide WaitOn;
    hide Resumed;
    forall x, v | 0 <= x < |taken.objects| && v in Queue(taken.objects[x]) ensures v.thread != w.thread {
      assert v in Queue(s.objects[x]);
    }
    hide Queue;
    UnqueuedWake(taken, s', w.thread, Some(o));
  }

  // ---------------------------------------------------------------- arbiters

  /** The caller waits on the address behind everybody else. */
  ghost predicate QueuedAtArbiter(s: State, s': State, o: ObjId, addr: Address)
    requires RunningCurrent(s) && o < |s.objects| && s.objects[o].kind.Arbiter?
  {
    var t, obj := s.current.value, s.objects[o];
    && s'.threads == s.threads[t := Sleeper(s.threads[t], [o], None, WaitArbiter)]
    && s'.objects == s.objects[o :=
         obj.(kind := Arbiter(obj.kind.slots + [Slot(Waker(t, s.threads[t].wakeKey), addr)]))]
  }

  lemma ArbiterWaitExact(s: State, o: ObjId, addr: Address)
    requires Inv(s) && RunningCurrent(s) && o < |s.objects| && s.objects[o].kind.Arbiter?
    ensures ArbiterWait(s, o, addr).Ok? && Inv(ArbiterWait(s, o, addr).value)
    ensures QueuedAtArbiter(s, ArbiterWait(s, o, addr).value, o, addr)
  {
    ArbiterWaitKeeps(s, o, addr);
    hide Inv;
  }

  // ---------------------------------------------------------------- sessions and ports

  /** All queues are live and in step. */
  ghost predicate IpcSound(s: State) {
    Inv(s) && InStep(s)
  }

  /** So they are, and a running thread makes the call. */
  ghost predicate IpcCaller(s: State) {
    IpcSound(s) && RunningCurrent(s)
  }

  /** A request is pending at the server session. */
  predicate Requested(objects: seq<Object>, o: ObjId) {
    o < |objects| && objects[o].kind.ServerSession? && objects[o].kind.requests != []
  }

  /** A session is pending at the server port. */
  predicate Offered(objects: seq<Object>, o: ObjId) {
    o < |objects| && objects[o].kind.ServerPort? && objects[o].kind.sessions != []
  }

  /** No session is. */
  predicate NothingOffered(objects: seq<Object>, o: ObjId) {
    o < |objects| && objects[o].kind.ServerPort? && objects[o].kind.sessions == []
  }

  /**
    The caller waits, without a deadline, behind everybody else at object `o`; the oldest waiter of the
    serving end, if there is one, is woken by it and leaves every queue; no other thread changes.
   */
  ghost predicate CallerQueued(s: State, s': State, o: ObjId, server: ObjId)
    requires RunningCurrent(s) && o < |s.objects| && server < |s.objects|
  {
    var t := s.current.value;
    var asleep := s.(threads := s.threads[t := Sleeper(s.threads[t], [o], None, WaitSync1)]);
    && o < |s'.objects| && t < |s'.threads| && s'.threads[t] == asleep.threads[t]
    && s'.objects[o].queue == s.objects[o].queue + [Waker(t, s.threads[t].wakeKey)]
    && FrontWoken(asleep, s', server)
  }

  /** Who is woken depends on the threads and on the one queue. */
  lemma FrontWokenFrom(s: State, s1: State, s': State, x: ObjId)
    requires x < |s.objects| && x < |s1.objects| && s1.threads == s.threads
    requires s1.objects[x].queue == s.objects[x].queue && FrontWoken(s1, s', x)
    ensures FrontWoken(s, s', x)
  {
    hide Resumed;
    hide Queue;
  }

  lemma SendWakesServer(s: State, o: ObjId)
    requires IpcCaller(s) && o < |s.objects| && s.objects[o].kind.ClientSession?
    ensures SendRequest(s, o).Ok?
    ensures s.objects[o].kind.server < |s.objects|
    ensures CallerQueued(s, SendRequest(s, o).value, o, s.objects[o].kind.server)
  {
    assert PairOk(s, o);
    var server := s.objects[o].kind.server;
    SuspendExact(s, [o], None, WaitSync1);
    SuspendInStep(s, [o], None, WaitSync1);
    var r := Suspend(s, [o], None, WaitSync1).value;
    assert o in [o] && LiveIn(r.state, r.waker, o);
    PushKeeps(r.state, o, r.waker);
    var s1 := Push(r.state, o, r.waker);
    var k := s1.objects[server].kind;
    var s2 := SetKind(s1, server, k.(requests := k.requests + [r.waker.thread]));
    SetObjKeeps(s1, server, s1.objects[server].(kind := k.(requests := k.requests + [r.waker.thread])));
    assert PairOk(s, server);
    QueuedRequestInStep(r.state, s2, o, r.waker);
    WakeFrontAside(s2, server);
    WakeFrontExact(s2, server);
    var s' := WakeFront(s2, server).value;
    assert SendRequest(s, o) == Ok(s');
    assert forall v :: v in s.objects[server].queue ==> v in Queue(s.objects[server]);
    hide SendRequest;
    hide WakeFront;
    hide Inv;
    hide InStep;
    hide PairOk;
    hide Resumed;
    FrontWokenFrom(s.(threads := r.state.threads), s2, s', server);
    assert AsideObject(s2.objects[o], s'.objects[o]);
  }

  lemma SendExact(s: State, o: ObjId)
    requires IpcCaller(s) && o < |s.objects| && s.objects[o].kind.ClientSession?
    ensures SendRequest(s, o).Ok? && IpcSound(SendRequest(s, o).value) && RequestSent(s, SendRequest(s, o).value, o)
    ensures s.objects[o].kind.server < |s.objects|
    ensures CallerQueued(s, SendRequest(s, o).value, o, s.objects[o].kind.server)
  {
    SendWakesServer(s, o);
    hide Inv;
    hide InStep;
    hide SendRequest;
    hide CallerQueued;
    SendRequestInStep(s, o);
    SendRequestKeeps(s, o);
  }

  lemma ReplyExact(s: State, o: ObjId, image: seq<Bytes.Byte>)
    requires IpcCaller(s) && Requested(s.objects, o)
    ensures Reply(s, o, image).Ok? && IpcSound(Reply(s, o, image).value)
    ensures Replied(s, Reply(s, o, image).value, o, image)
  {
    hide Inv;
    hide InStep;
    hide Reply;
    ReplyReachesRequester(s, o, image);
    ReplyKeeps(s, o, image);
  }

  lemma CreateWakesServer(s: State, o: ObjId)
    requires IpcCaller(s) && o < |s.objects| && s.objects[o].kind.ClientPort?
    ensures CreateSession(s, o).Ok?
    ensures s.objects[o].kind.server < |s.objects|
    ensures CallerQueued(s, CreateSession(s, o).value, o, s.objects[o].kind.server)
  {
    assert PairOk(s, o);
    var server := s.objects[o].kind.server;
    assert PairOk(s, server);
    var s1 := WithPending(s, o);
    WithPendingKeeps(s, o);
    WithPendingInStep(s, o);
    WakeFrontKeeps(s1, server);
    WakeFrontAside(s1, server);
    WakeFrontExact(s1, server);
    var s2 := WakeFront(s1, server).value;
    SuspendExact(s2, [o], None, WaitSync1);
    var r := Suspend(s2, [o], None, WaitSync1).value;
    assert CreateSession(s, o) == Ok(Push(r.state, o, r.waker));
    assert s1.objects[o] == s.objects[o] && AsideObject(s1.objects[o], s2.objects[o]);
    assert forall v :: v in s.objects[server].queue ==> v in Queue(s.objects[server]) && LiveIn(s, v, server);
    hide CreateSession;
    hide WakeFront;
    hide Inv;
    hide InStep;
    hide PairOk;
    hide Resumed;
    CreatorAsleep(s, s1, s2, r.state, o, server, r.waker);
  }

  /** The woken accepter and the suspended creator are different threads, so the order does not matter. */
  lemma CreatorAsleep(s: State, s1: State, s2: State, s3: State, o: ObjId, server: ObjId, w: Waker)
    requires RunningCurrent(s) && o < |s.objects| && server < |s.objects| && server != o
    requires s1.threads == s.threads && server < |s1.objects| && s1.objects[server].queue == s.objects[server].queue
    requires FrontWoken(s1, s2, server) && s2.current == s.current && RunningCurrent(s2)
    requires o < |s2.objects| && s2.objects[o].queue == s.objects[o].queue && Synchronizable(s2.objects[o])
    requires SuspendedOn(s2, s3, [o], None, WaitSync1, w)
    requires s2.threads[s.current.value] == s.threads[s.current.value]
    requires forall v :: v in s.objects[server].queue ==> LiveIn(s, v, server)
    ensures CallerQueued(s, Push(s3, o, w), o, server)
  {
    hide Resumed;
    var t := s.current.value;
    var s' := Push(s3, o, w);
    var q := s.objects[server].queue;
    if q != [] {
      var h := q[0].thread;
      assert q[0] in q;
      forall y, v | 0 <= y < |s'.objects| && v in Queue(s'.objects[y]) ensures v.thread != h {
        assert v == w || v in Queue(s2.objects[y]);
      }
    }
  }

  lemma CreateExact(s: State, o: ObjId)
    requires IpcCaller(s) && o < |s.objects| && s.objects[o].kind.ClientPort?
    ensures CreateSession(s, o).Ok? && IpcSound(CreateSession(s, o).value)
    ensures SessionPending(s, CreateSession(s, o).value, o)
    ensures s.objects[o].kind.server < |s.objects|
    ensures CallerQueued(s, CreateSession(s, o).value, o, s.objects[o].kind.server)
  {
    CreateWakesServer(s, o);
    hide Inv;
    hide InStep;
    hide CreateSession;
    hide CallerQueued;
    CreateSessionInStep(s, o);
    CreateSessionKeeps(s, o);
  }

  /** With no session pending, the caller of accept waits behind everybody else at the port; nothing else changes. */
  lemma AcceptWaits(s: State, o: ObjId)
    requires IpcCaller(s) && o < |s.objects| && s.objects[o].kind.ServerPort? && s.objects[o].kind.sessions == []
    ensures AcceptSession(s, o).Ok? && IpcSound(AcceptSession(s, o).value)
    ensures AcceptSession(s, o).value == Joined(s, o)
  {
    AcceptWaitsInStep(s, o);
    AcceptSessionKeeps(s, o);
    hide Inv;
    hide InStep;
  }

  /** The caller suspended, without a deadline, on one object, last in its queue. */
  function Joined(s: State, o: ObjId): State
    requires RunningCurrent(s) && o < |s.objects|
  {
    var t := s.current.value;
    s.(threads := s.threads[t := Sleeper(s.threads[t], [o], None, WaitSync1)],
       objects := s.objects[o := s.objects[o].(queue := s.objects[o].queue + [Waker(t, s.threads[t].wakeKey)])])
  }

  lemma AcceptExact(s: State, o: ObjId)
    requires IpcCaller(s) && Offered(s.objects, o)
    ensures AcceptSession(s, o).Ok? && IpcSound(AcceptSession(s, o).value)
    ensures Accepted(s, AcceptSession(s, o).value, o)
  {
    hide Inv;
    hide InStep;
    hide AcceptSession;
    AcceptReachesCreator(s, o);
    AcceptSessionKeeps(s, o);
  }

  // ---------------------------------------------------------------- receiving

  /** The caller has the front request's message; the request itself stays pending. */
  predicate OnlyReceived(s: State, s': State, image: seq<Bytes.Byte>)
    requires RunningCurrent(s)
  {
    var t := s.current.value;
    s' == s.(threads := s.threads[t := s.threads[t].(ipcData := image)])
  }

  lemma ReceiveExact(s: State, o: ObjId, image: seq<Bytes.Byte>)
    requires IpcCaller(s) && Requested(s.objects, o)
    ensures Receive(s, o, image).Ok? && OnlyReceived(s, Receive(s, o, image).value, image)
  {
    RequesterWaits(s, o);
  }

  // ---------------------------------------------------------------- scheduling

  /**
    The chosen thread, or else the first Ready one, runs, its resume value used up; if there is none,
    nothing happens.
   */
  ghost predicate Dispatched(s: State, s': State) {
    && s'.objects == s.objects && s'.history == s.history && s'.next == None
    && match s'.current
       case None => s.next.None? && s'.threads == s.threads && forall t :: 0 <= t < |s.threads| ==> s.threads[t].state != Ready
       case Some(c) =>
         && c < |s.threads| && s.threads[c].state == Ready
         && (s.next.Some? ==> s.next == Some(c))
         && (s.next.None? ==> forall t :: 0 <= t < c ==> s.threads[t].state != Ready)
         && s'.threads == s.threads[c := s.threads[c].(state := Running, resume := Normal)]
  }

  lemma DispatchExact(s: State)
    requires Inv(s) && s.current.None?
    ensures Dispatch(s).Ok? && Dispatched(s, Dispatch(s).value)
  {
    hide WakersLive;
    hide ThreadsOk;
    hide ArbitersOk;
  }

  /** A Ready thread handed to the scheduler is the one that runs next, whoever comes first. */
  lemma ScheduledRunsNext(s: State, t: ThreadId)
    requires Inv(s) && s.current.None? && t < |s.threads| && s.threads[t].state == Ready
    ensures Apply(s, OpScheduleNext(t)).Ok?
    ensures var s1 := Apply(s, OpScheduleNext(t)).value;
      Dispatch(s1).Ok? && Dispatch(s1).value.current == Some(t) && Dispatch(s1).value.next == None
  {
  }

  /** The caller gave up the processor: it is Ready unless it waits or is done, and no thread is Running. */
  ghost predicate Yielded(s: State, s': State)
    requires s.current.Some?
  {
    && s'.current.None? && s'.next == s.next && s'.objects == s.objects && s'.history == s.history
    && |s'.threads| == |s.threads|
    && (forall t :: 0 <= t < |s.threads| ==>
          s'.threads[t] == if s.threads[t].state == Running then s.threads[t].(state := Ready) else s.threads[t])
  }

  lemma YieldExact(s: State)
    requires Inv(s) && s.current.Some?
    ensures Yield(s).Ok? && Yielded(s, Yield(s).value)
    ensures forall t :: 0 <= t < |s.threads| ==> Yield(s).value.threads[t].state != Running
  {
    hide WakersLive;
    hide ThreadsOk;
    hide ArbitersOk;
  }

  // ---------------------------------------------------------------- creating

  /** A wait on the object would queue. */
  predicate Blocks(obj: Object) {
    !Available(obj.kind) && obj.queue == []
  }

  /** What exists after a creation, and how a first wait on it would go. */
  ghost predicate MadeBy(s: State, s': State, op: Op) {
    var n := |s.objects|;
    && n < |s'.objects| && s'.objects[..n] == s.objects && s'.current == s.current && s'.next == s.next
    && (op.OpCreateThread? ==>
          && |s'.threads| == |s.threads| + 1 && s'.threads[..|s.threads|] == s.threads
          && s'.threads[|s.threads|].state == Ready && s'.threads[|s.threads|].kobj == n
          && s'.threads[|s.threads|].waitObjects == [] && s'.threads[|s.threads|].resume == Normal
          && s'.threads[|s.threads|].deadline == None && s'.threads[|s.threads|].wakeKey == 0
          && |s'.threads[|s.threads|].ipcData| == 256 && (forall b :: b in s'.threads[|s.threads|].ipcData ==> b == 0)
          && s'.objects[n] == Object([], ThreadObj(false)))
    && (!op.OpCreateThread? ==> s'.threads == s.threads)
    && (op.OpCreatePort? ==> |s'.objects| == n + 2) && (!op.OpCreatePort? ==> |s'.objects| == n + 1)
    && (op.OpCreateEvent? ==>
          s'.objects[n].kind.Event? && s'.objects[n].kind.signal.reset == op.reset && Blocks(s'.objects[n]))
    && (op.OpCreateTimer? ==>
          && s'.objects[n].kind.Timer? && s'.objects[n].kind.signal.reset == op.reset && Blocks(s'.objects[n])
          && forall time: nat :: !TimerDue(s'.objects[n], time))
    && (op.OpCreateMutex? ==>
          s'.objects[n].kind.Mutex? && s'.objects[n].queue == [] && (Available(s'.objects[n].kind) <==> !op.locked))
    && (op.OpCreateArbiter? ==> s'.objects[n].kind == Arbiter([]))
    && (op.OpCreatePort? ==>
          s'.objects[n] == Object([], ServerPort([], n + 1)) && s'.objects[n + 1] == Object([], ClientPort(n)))
  }

  lemma CreationExact(s: State, op: Op)
    requires Creates(op) && (op.OpCreateMutex? ==> s.current.Some?)
    ensures Apply(s, op).Ok? && MadeBy(s, Apply(s, op).value, op)
  {
  }

  /** The timer's schedule is new and nothing else has changed, not even its signal. */
  ghost predicate TimerSet(s: State, s': State, o: ObjId, initial: int, interval: int)
    requires o < |s.objects| && s.objects[o].kind.Timer?
  {
    && s' == s.(objects := s'.objects) && |s'.objects| == |s.objects|
    && (forall x :: 0 <= x < |s.objects| && x != o ==> s'.objects[x] == s.objects[x])
    && s'.objects[o].queue == s.objects[o].queue && s'.objects[o].kind.Timer?
    && s'.objects[o].kind.signal == s.objects[o].kind.signal
    && ScheduleOf(s'.objects[o]) == Schedule(s.objects[o].kind.signal.reset, initial, interval)
  }

  lemma SetTimerExact(s: State, o: ObjId, initial: int, interval: int)
    requires o < |s.objects| && s.objects[o].kind.Timer?
    ensures TimerSet(s, SetTimer(s, o, initial, interval), o, initial, interval)
  {
  }
}
