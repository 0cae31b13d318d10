/**
  Sessions and ports pair a server-side queue with a client-side waker queue. When client ends are
  waited on only through their own system calls, the two queues stay in step, so that a reply or an
  accepted session reaches exactly the thread it belongs to.
 */
module Lockstep {
  import opened Outcomes
  import opened Machine
  import opened Wakers
  import opened WaitSyncN
  import opened Safety
  import Bytes

  predicate ClientEnd(k: Kind) {
    k.ClientSession? || k.ClientPort?
  }

  predicate End(k: Kind) {
    ClientEnd(k) || k.ServerSession? || k.ServerPort?
  }

  ghost function ThreadsOf(q: seq<Waker>): (r: seq<ThreadId>)
    ensures |r| == |q| && forall i :: 0 <= i < |q| ==> r[i] == q[i].thread
  {
    seq(|q|, i requires 0 <= i < |q| => q[i].thread)
  }

  /** The i-th pending session was asked for by the thread of the i-th waker. */
  ghost predicate CreatedBy(s: State, sessions: seq<ObjId>, q: seq<Waker>) {
    && |sessions| == |q|
    && forall i :: 0 <= i < |q| ==>
      && sessions[i] < |s.objects| && s.objects[sessions[i]].kind.ServerSession?
      && s.objects[sessions[i]].kind.creator == q[i].thread
  }

  ghost predicate PairOk(s: State, o: ObjId)
    requires o < |s.objects|
  {
    match s.objects[o].kind
    case ServerSession(requests, client, _) =>
      client < |s.objects| && s.objects[client].kind == ClientSession(o)
      && requests == ThreadsOf(s.objects[client].queue)
    case ServerPort(sessions, client) =>
      client < |s.objects| && s.objects[client].kind == ClientPort(o)
      && CreatedBy(s, sessions, s.objects[client].queue)
    case ClientSession(server) =>
      server < |s.objects| && s.objects[server].kind.ServerSession? && s.objects[server].kind.client == o
      && DistinctThreads(s.objects[o].queue)
    case ClientPort(server) =>
      server < |s.objects| && s.objects[server].kind.ServerPort? && s.objects[server].kind.client == o
      && DistinctThreads(s.objects[o].queue)
    case _ => true
  }

  /** A thread waiting on a client end waits on nothing else, and without a deadline. */
  ghost predicate Alone(s: State, th: Thread) {
    th.state == Waiting ==>
      forall o :: o in th.waitObjects ==>
        && o < |s.objects|
        && (ClientEnd(s.objects[o].kind) ==>
              th.waitObjects == [o] && th.deadline.None? && th.waitType == Some(WaitSync1))
  }

  /** The pairing, except possibly for the server end named by `skip`. */
  ghost predicate InStepBut(s: State, skip: int) {
    AllAlone(s) && forall o :: 0 <= o < |s.objects| && o != skip ==> PairOk(s, o)
  }

  ghost predicate AllAlone(s: State) {
    forall t :: 0 <= t < |s.threads| ==> Alone(s, s.threads[t])
  }

  ghost predicate InStep(s: State) {
    InStepBut(s, -1)
  }

  // ---------------------------------------------------------------- steps that do not touch the pairs

  /** Whatever matters to the pairs stays the same in this object. */
  predicate AsideObject(x: Object, y: Object) {
    && (End(x.kind) || End(y.kind) ==> y.kind == x.kind)
    && (ClientEnd(x.kind) ==> y.queue == x.queue)
  }

  /** This thread does not start to wait. */
  predicate AsideThread(x: Thread, y: Thread) {
    y.state == Waiting ==>
      x.state == Waiting && y.waitObjects == x.waitObjects && y.deadline == x.deadline && y.waitType == x.waitType
  }

  /** Nothing about any pair changes, and no thread starts to wait. */
  ghost predicate Aside(s: State, s': State) {
    && |s'.objects| == |s.objects| && |s'.threads| == |s.threads|
    && (forall o :: 0 <= o < |s.objects| ==> AsideObject(s.objects[o], s'.objects[o]))
    && (forall t :: 0 <= t < |s.threads| ==> AsideThread(s.threads[t], s'.threads[t]))
  }

  lemma AsideKeeps(s: State, s': State, skip: int)
    requires InStepBut(s, skip) && Aside(s, s')
    ensures InStepBut(s', skip)
  {
    forall o | 0 <= o < |s'.objects| && o != skip ensures PairOk(s', o) {
      assert PairOk(s, o);
    }
    AsideAlone(s, s');
  }

  lemma AsideTrans(s: State, s1: State, s2: State)
    requires Aside(s, s1) && Aside(s1, s2)
    ensures Aside(s, s2)
  {
  }

  lemma SetObjAside(s: State, o: ObjId, obj: Object)
    requires o < |s.objects| && AsideObject(s.objects[o], obj)
    ensures Aside(s, SetObj(s, o, obj))
  {
  }

  /** A wake-up by a timeout, or by anything but a client end, leaves all pairs alone. */
  lemma WakeUpAside(s: State, t: ThreadId, cause: Option<ObjId>)
    requires Inv(s) && AllAlone(s)
    requires t < |s.threads| && s.threads[t].state == Waiting
    requires cause.None? ==> s.threads[t].deadline.Some?
    requires cause.Some? ==>
      cause.value in s.threads[t].waitObjects && cause.value < |s.objects| && !ClientEnd(s.objects[cause.value].kind)
    ensures WakeUp(s, t, cause).Ok? && Aside(s, WakeUp(s, t, cause).value)
  {
    hide PurgeQueue;
    hide PurgeSlots;
    var th := s.threads[t];
    assert ThreadOk(th) && Alone(s, th);
    hide Inv;
    hide AllAlone;
    var s' := WakeUp(s, t, cause).value;
    forall o | 0 <= o < |s.objects| ensures AsideObject(s.objects[o], s'.objects[o]) {
      assert ClientEnd(s.objects[o].kind) ==> o !in th.waitObjects;
    }
    hide Alone;
    hide PurgeWaited;
  }

  lemma AsideAlone(s: State, s': State)
    requires AllAlone(s) && Aside(s, s')
    ensures AllAlone(s')
  {
    forall t | 0 <= t < |s'.threads| ensures Alone(s', s'.threads[t]) {
      assert Alone(s, s.threads[t]) && AsideThread(s.threads[t], s'.threads[t]);
    }
  }

  lemma WakeAside(s: State, w: Waker, o: ObjId)
    requires Inv(s) && AllAlone(s) && o < |s.objects| && !ClientEnd(s.objects[o].kind) && LiveIn(s, w, o)
    ensures Wake(s, w, o).Ok? && Aside(s, Wake(s, w, o).value.state)
  {
    WakeUpAside(s, w.thread, Some(o));
  }

  lemma {:induction false} WakeAllAside(s: State, ws: seq<Waker>, o: ObjId)
    requires Inv(s) && AllAlone(s) && o < |s.objects| && !ClientEnd(s.objects[o].kind)
    requires forall w :: w in ws ==> LiveOrSpent(s, w, o)
    requires OneWakerPerThread(ws)
    ensures WakeAll(s, ws, o).Ok? && Aside(s, WakeAll(s, ws, o).value)
    decreases |ws|
  {
    if ws != [] {
      WakeFirstOf(s, ws, o);
      var s' := Wake(s, ws[0], o).value.state;
      if LiveIn(s, ws[0], o) {
        WakeAside(s, ws[0], o);
      }
      AsideAlone(s, s');
      WakeAllAside(s', ws[1..], o);
      AsideTrans(s, s', WakeAll(s', ws[1..], o).value);
    }
  }

  lemma {:induction false} WakeAllExpectAside(s: State, ws: seq<Waker>, o: ObjId)
    requires Inv(s) && AllAlone(s) && o < |s.objects| && !ClientEnd(s.objects[o].kind)
    requires forall w :: w in ws ==> LiveIn(s, w, o)
    requires DistinctThreads(ws)
    ensures WakeAllExpect(s, ws, o).Ok? && Aside(s, WakeAllExpect(s, ws, o).value)
    decreases |ws|
  {
    if ws != [] {
      assert ws[0] in ws;
      WakeAside(s, ws[0], o);
      WakeKeeps(s, ws[0], o);
      var s' := Wake(s, ws[0], o).value.state;
      AsideAlone(s, s');
      forall v | v in ws[1..] ensures LiveIn(s', v, o) {
        assert v in ws;
      }
      WakeAllExpectAside(s', ws[1..], o);
      AsideTrans(s, s', WakeAllExpect(s', ws[1..], o).value);
    }
  }

  lemma RaiseSignalAside(s: State, o: ObjId)
    requires Inv(s) && AllAlone(s) && o < |s.objects| && HasSignal(s.objects[o])
    ensures RaiseSignal(s, o).Ok? && Aside(s, RaiseSignal(s, o).value)
  {
    var obj := s.objects[o];
    var raised := WithSignal(obj, obj.kind.signal.(signaled := true));
    if obj.kind.signal.reset.Sticky? {
      var s1 := SetObj(s, o, raised.(queue := []));
      SetObjKeeps(s, o, raised.(queue := []));
      SetObjAside(s, o, raised.(queue := []));
      AsideAlone(s, s1);
      QueueHasOneWakerPerThread(s, o);
      forall w | w in obj.queue ensures LiveOrSpent(s1, w, o) {
        assert w in Queue(obj);
      }
      WakeAllAside(s1, obj.queue, o);
      AsideTrans(s, s1, WakeAll(s1, obj.queue, o).value);
    } else {
      var s1 := SetObj(s, o, raised);
      SetObjKeeps(s, o, raised);
      SetObjAside(s, o, raised);
      if obj.queue != [] {
        AsideAlone(s, s1);
        assert obj.queue[0] in Queue(obj);
        WakeAside(s1, obj.queue[0], o);
        WakeKeeps(s1, obj.queue[0], o);
        var s2 := Wake(s1, obj.queue[0], o).value.state;
        AsideTrans(s, s1, s2);
        SetObjAside(s2, o, WithSignal(s2.objects[o], s2.objects[o].kind.signal.(signaled := false)));
        AsideTrans(s, s2, ResetSignal(s2, o));
      }
    }
  }

  lemma TimerTickAside(s: State, o: ObjId, time: nat)
    requires Inv(s) && AllAlone(s) && o < |s.objects|
    ensures TimerTick(s, o, time).Ok? && Aside(s, TimerTick(s, o, time).value)
  {
    if TimerDue(s.objects[o], time) {
      var s1 := SetObj(Log(s, Signalled(o)), o, Rearm(s.objects[o], time));
      LogKeeps(s, Signalled(o));
      SetObjKeeps(Log(s, Signalled(o)), o, Rearm(s.objects[o], time));
      assert Aside(s, s1);
      AsideAlone(s, s1);
      RaiseSignalAside(s1, o);
      AsideTrans(s, s1, RaiseSignal(s1, o).value);
    }
  }

  lemma {:induction false} TickThreadsAside(s: State, i: nat, time: nat)
    requires Inv(s) && AllAlone(s) && i <= |s.threads|
    ensures TickThreads(s, i, time).Ok? && Aside(s, TickThreads(s, i, time).value)
    decreases |s.threads| - i
  {
    hide WakeUp;
    if i < |s.threads| {
      hide Inv;
      hide AllAlone;
      hide Aside;
      if Expired(s.threads[i], time) {
        WakeUpKeeps(s, i, None);
        WakeUpAside(s, i, None);
        var s' := WakeUp(s, i, None).value;
        AsideAlone(s, s');
        TickThreadsAside(s', i + 1, time);
        AsideTrans(s, s', TickThreads(s', i + 1, time).value);
      } else {
        TickThreadsAside(s, i + 1, time);
      }
    }
  }

  lemma {:induction false} TickTimersAside(s: State, i: nat, time: nat)
    requires Inv(s) && AllAlone(s) && i <= |s.objects|
    ensures TickTimers(s, i, time).Ok? && Aside(s, TickTimers(s, i, time).value)
    decreases |s.objects| - i
  {
    if i < |s.objects| {
      TimerTickKeeps(s, i, time);
      TimerTickAside(s, i, time);
      var s' := TimerTick(s, i, time).value;
      AsideAlone(s, s');
      TickTimersAside(s', i + 1, time);
      AsideTrans(s, s', TickTimers(s', i + 1, time).value);
    }
  }

  lemma TickAside(s: State, time: nat)
    requires Inv(s) && AllAlone(s)
    ensures Tick(s, time).Ok? && Aside(s, Tick(s, time).value)
  {
    TickThreadsKeeps(s, 0, time);
    TickThreadsAside(s, 0, time);
    var s' := TickThreads(s, 0, time).value;
    AsideAlone(s, s');
    TickTimersAside(s', 0, time);
    AsideTrans(s, s', TickTimers(s', 0, time).value);
  }

  lemma SignalEventAside(s: State, o: ObjId)
    requires Inv(s) && AllAlone(s)
    ensures SignalEvent(s, o).Ok? && Aside(s, SignalEvent(s, o).value)
  {
    if o < |s.objects| && s.objects[o].kind.Event? {
      var s1 := Log(s, Signalled(o));
      LogKeeps(s, Signalled(o));
      RaiseSignalAside(s1, o);
    }
  }

  lemma ReleaseMutexAside(s: State, o: ObjId)
    requires Inv(s) && AllAlone(s) && RunningCurrent(s)
    ensures ReleaseMutex(s, o).Ok? && Aside(s, ReleaseMutex(s, o).value)
  {
    if o < |s.objects| && s.objects[o].kind.Mutex? && s.objects[o].queue != [] {
      var s1 := Log(s, Released(o, s.current.value));
      LogKeeps(s, Released(o, s.current.value));
      assert s.objects[o].queue[0] in Queue(s.objects[o]);
      WakeAside(s1, s.objects[o].queue[0], o);
      WakeKeeps(s1, s.objects[o].queue[0], o);
    }
  }

  lemma ArbiterSignalAside(s: State, o: ObjId, amount: I32, addr: Address)
    requires Inv(s) && AllAlone(s)
    ensures ArbiterSignal(s, o, amount, addr).Ok? && Aside(s, ArbiterSignal(s, o, amount, addr).value)
  {
    if o < |s.objects| && s.objects[o].kind.Arbiter? {
      var obj := s.objects[o];
      var d := DrainSlots(obj.kind.slots, addr, SignalCount(amount));
      DrainParts(obj.kind.slots, addr, SignalCount(amount));
      var s1 := SetObj(s, o, obj.(kind := Arbiter(d.kept)));
      SetObjKeeps(s, o, obj.(kind := Arbiter(d.kept)));
      SetObjAside(s, o, obj.(kind := Arbiter(d.kept)));
      AsideAlone(s, s1);
      WakeAllExpectAside(s1, d.woken, o);
      AsideTrans(s, s1, WakeAllExpect(s1, d.woken, o).value);
    }
  }

  lemma ExitAside(s: State)
    requires Inv(s) && AllAlone(s) && RunningCurrent(s)
    ensures Exit(s).Ok? ==> Aside(s, Exit(s).value)
  {
    var t := s.current.value;
    var kobj := s.threads[t].kobj;
    var s1 := s.(threads := s.threads[t := s.threads[t].(state := Done)]);
    assert Inv(s1);
    if kobj < |s.objects| && s.objects[kobj].kind.ThreadObj? && !s.objects[kobj].kind.dead {
      var s2 := SetObj(s1, kobj, Object([], ThreadObj(true)));
      SetObjKeeps(s1, kobj, Object([], ThreadObj(true)));
      assert Aside(s, s2);
      AsideAlone(s, s2);
      QueueHasOneWakerPerThread(s1, kobj);
      forall w | w in s.objects[kobj].queue ensures LiveOrSpent(s2, w, kobj) {
        assert w in Queue(s1.objects[kobj]);
      }
      WakeAllAside(s2, s.objects[kobj].queue, kobj);
      AsideTrans(s, s2, WakeAll(s2, s.objects[kobj].queue, kobj).value);
    }
  }

  lemma WakeFrontAside(s: State, o: ObjId)
    requires Inv(s) && AllAlone(s) && o < |s.objects| && Synchronizable(s.objects[o]) && !ClientEnd(s.objects[o].kind)
    ensures WakeFront(s, o).Ok? && Aside(s, WakeFront(s, o).value)
  {
    var obj := s.objects[o];
    if obj.queue != [] {
      var s1 := SetObj(s, o, obj.(queue := obj.queue[1..]));
      assert obj.queue[0] in Queue(obj);
      SetObjKeeps(s, o, obj.(queue := obj.queue[1..]));
      SetObjAside(s, o, obj.(queue := obj.queue[1..]));
      AsideAlone(s, s1);
      WakeAside(s1, obj.queue[0], o);
      WakeKeeps(s1, obj.queue[0], o);
      AsideTrans(s, s1, Wake(s1, obj.queue[0], o).value.state);
    }
  }

  // ---------------------------------------------------------------- waiting on other objects

  ghost predicate NoClientEnds(s: State, objs: seq<ObjId>) {
    forall o :: 0 <= o < |s.objects| && o in objs ==> !ClientEnd(s.objects[o].kind)
  }

  lemma SuspendInStep(s: State, objs: seq<ObjId>, deadline: Option<nat>, kind: WaitType)
    requires InStep(s) && RunningCurrent(s)
    requires ValidIds(objs, |s.objects|)
    requires NoClientEnds(s, objs) || (|objs| == 1 && deadline.None? && kind == WaitSync1)
    ensures Suspend(s, objs, deadline, kind).Ok?
    ensures InStep(Suspend(s, objs, deadline, kind).value.state)
  {
    var s' := Suspend(s, objs, deadline, kind).value.state;
    forall t | 0 <= t < |s'.threads| ensures Alone(s', s'.threads[t]) {
      assert Alone(s, s.threads[t]);
    }
    forall o | 0 <= o < |s'.objects| ensures PairOk(s', o) {
      assert PairOk(s, o);
    }
  }

  lemma WaitOnAside(s: State, o: ObjId, w: Waker)
    requires Inv(s) && AllAlone(s) && o < |s.objects| && Synchronizable(s.objects[o]) && !ClientEnd(s.objects[o].kind)
    requires LiveIn(s, w, o)
    ensures WaitOn(s, o, w).Ok? && Aside(s, WaitOn(s, o, w).value)
  {
    var obj := s.objects[o];
    if Available(obj.kind) {
      var taken := SetKind(s, o, Take(obj.kind));
      SetObjKeeps(s, o, obj.(kind := Take(obj.kind)));
      SetObjAside(s, o, obj.(kind := Take(obj.kind)));
      AsideAlone(s, taken);
      WakeAside(taken, w, o);
      WakeKeeps(taken, w, o);
      AsideTrans(s, taken, Wake(taken, w, o).value.state);
    } else {
      SetObjAside(s, o, obj.(queue := obj.queue + [w]));
    }
  }

  lemma {:induction false} SpentAside(s: State, objs: seq<ObjId>, w: Waker)
    requires Waitable(Kinds(s), objs) && NoClientEnds(s, objs)
    requires w.thread < |s.threads| && s.threads[w.thread].wakeKey != w.key
    ensures WaitEach(s, objs, w).Ok? && Aside(s, WaitEach(s, objs, w).value)
    decreases |objs|
  {
    if objs != [] {
      SpentWaitOn(s, objs[0], w);
      var s1 := WaitOn(s, objs[0], w).value;
      assert objs[0] in objs;
      SetObjAside(s, objs[0], s.objects[objs[0]].(queue := s.objects[objs[0]].queue + [w]));
      assert Kinds(s1) == Kinds(s);
      SpentAside(s1, objs[1..], w);
      AsideTrans(s, s1, WaitEach(s1, objs[1..], w).value);
    }
  }

  lemma {:induction false} WaitEachAside(s: State, list: seq<ObjId>, objs: seq<ObjId>, w: Waker)
    requires Inv(s) && AllAlone(s) && Pending(s, w, list)
    requires Waitable(Kinds(s), list) && Waitable(Kinds(s), objs) && NoClientEnds(s, objs)
    requires forall i :: 0 <= i < |objs| ==> objs[i] in list
    ensures WaitEach(s, objs, w).Ok? && Aside(s, WaitEach(s, objs, w).value)
    decreases |objs|
  {
    if objs != [] {
      assert objs[0] in objs;
      if Available(s.objects[objs[0]].kind) {
        TakeAside(s, list, objs, w);
      } else {
        var s1 := Push(s, objs[0], w);
        PushKeeps(s, objs[0], w);
        SetObjAside(s, objs[0], s.objects[objs[0]].(queue := s.objects[objs[0]].queue + [w]));
        AsideAlone(s, s1);
        assert Kinds(s1) == Kinds(s);
        WaitEachAside(s1, list, objs[1..], w);
        AsideTrans(s, s1, WaitEach(s1, objs[1..], w).value);
      }
    }
  }

  lemma TakeAside(s: State, list: seq<ObjId>, objs: seq<ObjId>, w: Waker)
    requires Inv(s) && AllAlone(s) && Pending(s, w, list)
    requires Waitable(Kinds(s), list) && Waitable(Kinds(s), objs) && NoClientEnds(s, objs)
    requires forall i :: 0 <= i < |objs| ==> objs[i] in list
    requires objs != [] && Available(s.objects[objs[0]].kind)
    ensures WaitEach(s, objs, w).Ok? && Aside(s, WaitEach(s, objs, w).value)
  {
    assert objs[0] in objs;
    WaitOnAside(s, objs[0], w);
    AfterTake(s, list, objs, w);
    var s1 := WaitOn(s, objs[0], w).value;
    AsideNoClientEnds(s, s1, objs);
    SpentAside(s1, objs[1..], w);
    AsideTrans(s, s1, WaitEach(s1, objs[1..], w).value);
  }

  lemma AfterTake(s: State, list: seq<ObjId>, objs: seq<ObjId>, w: Waker)
    requires Pending(s, w, list) && Waitable(Kinds(s), list) && Waitable(Kinds(s), objs)
    requires objs != [] && objs[0] in list && Available(s.objects[objs[0]].kind)
    ensures WaitOn(s, objs[0], w).Ok?
    ensures var s1 := WaitOn(s, objs[0], w).value;
      && w.thread < |s1.threads| && s1.threads[w.thread].wakeKey != w.key
      && Waitable(Kinds(s1), objs[1..])
  {
    TakeAndWake(s, list, objs[0], w);
  }

  lemma AsideNoClientEnds(s: State, s1: State, objs: seq<ObjId>)
    requires Aside(s, s1) && NoClientEnds(s, objs) && objs != []
    ensures NoClientEnds(s1, objs[1..])
  {
    forall o | 0 <= o < |s1.objects| && o in objs[1..] ensures !ClientEnd(s1.objects[o].kind) {
      assert o in objs && AsideObject(s.objects[o], s1.objects[o]);
    }
  }

  // ---------------------------------------------------------------- requests and replies

  /** The caller's request is pending behind all others at the server, and nowhere else. */
  ghost predicate RequestSent(s: State, s': State, o: ObjId)
    requires s.current.Some? && o < |s.objects| && s.objects[o].kind.ClientSession?
  {
    var server := s.objects[o].kind.server;
    && server < |s.objects| == |s'.objects| && s.objects[server].kind.ServerSession?
    && s'.objects[server].kind ==
         s.objects[server].kind.(requests := s.objects[server].kind.requests + [s.current.value])
    && (forall x :: 0 <= x < |s.objects| && x != server && s.objects[x].kind.ServerSession? ==>
          s'.objects[x].kind == s.objects[x].kind)
  }

  lemma SendRequestInStep(s: State, o: ObjId)
    requires Inv(s) && InStep(s) && RunningCurrent(s)
    requires o < |s.objects| && s.objects[o].kind.ClientSession?
    ensures SendRequest(s, o).Ok? && InStep(SendRequest(s, o).value)
    ensures RequestSent(s, SendRequest(s, o).value, o)
  {
    assert PairOk(s, o);
    var server := s.objects[o].kind.server;
    assert PairOk(s, server);
    SuspendKeeps(s, [o], None, WaitSync1);
    SuspendInStep(s, [o], None, WaitSync1);
    var r := Suspend(s, [o], None, WaitSync1).value;
    PushKeeps(r.state, o, r.waker);
    var s1 := Push(r.state, o, r.waker);
    var k := s1.objects[server].kind;
    var s2 := SetKind(s1, server, k.(requests := k.requests + [r.waker.thread]));
    SetObjKeeps(s1, server, s1.objects[server].(kind := k.(requests := k.requests + [r.waker.thread])));
    QueuedRequestInStep(r.state, s2, o, r.waker);
    WakeFrontAside(s2, server);
    AsideKeeps(s2, WakeFront(s2, server).value, -1);
  }

  /** Appending a thread to both sides of one session keeps every pair in step. */
  lemma QueuedRequestInStep(s: State, s2: State, o: ObjId, w: Waker)
    requires InStep(s) && o < |s.objects| && s.objects[o].kind.ClientSession?
    requires forall v :: v in s.objects[o].queue ==> v.thread != w.thread
    requires var server := s.objects[o].kind.server;
      && server < |s.objects| && s.objects[server].kind.ServerSession?
      && s2 == SetKind(Push(s, o, w), server,
           s.objects[server].kind.(requests := s.objects[server].kind.requests + [w.thread]))
    ensures InStep(s2)
  {
    var server := s.objects[o].kind.server;
    var q := s.objects[o].queue;
    assert PairOk(s, o) && PairOk(s, server);
    assert ThreadsOf(q + [w]) == ThreadsOf(q) + [w.thread];
    forall i | 0 <= i < |q| ensures q[i].thread != w.thread {
      assert q[i] in q;
    }
    forall x | 0 <= x < |s2.objects| ensures PairOk(s2, x) {
      assert PairOk(s, x);
    }
    forall t | 0 <= t < |s2.threads| ensures Alone(s2, s2.threads[t]) {
      assert Alone(s, s.threads[t]);
    }
  }

  lemma PurgeHead(q: seq<Waker>)
    requires q != [] && DistinctThreads(q)
    ensures PurgeQueue(q[1..], q[0].thread) == q[1..]
  {
  }

  /** Waking the front of a client end: it alone is dequeued, woken and told that all is well. */
  lemma WakeClientFront(s: State, c: ObjId)
    requires Inv(s) && AllAlone(s) && c < |s.objects| && ClientEnd(s.objects[c].kind)
    requires s.objects[c].queue != [] && DistinctThreads(s.objects[c].queue)
    ensures WakeFront(s, c).Ok?
    ensures var s' := WakeFront(s, c).value;
      var q := s.objects[c].queue;
      var t := q[0].thread;
      && s'.objects == s.objects[c := s.objects[c].(queue := q[1..])]
      && t < |s.threads| && s.threads[t].state == Waiting
      && s'.threads == s.threads[t := s'.threads[t]]
      && Resumed(s.threads[t], s'.threads[t], Some(c)) && s'.threads[t].resume == Normal
      && s'.current == s.current && s'.next == s.next
  {
    var q := s.objects[c].queue;
    var t := q[0].thread;
    assert q[0] in Queue(s.objects[c]);
    assert LiveIn(s, q[0], c) && Alone(s, s.threads[t]);
    assert s.threads[t].waitObjects == [c];
    PurgeHead(q);
    var s1 := SetObj(s, c, s.objects[c].(queue := q[1..]));
    var s' := WakeUp(s1, t, Some(c)).value;
    assert s'.objects == s1.objects;
  }

  /** The thread whose request was at the front has the answer and is Ready; nothing else changed. */
  ghost predicate Replied(s: State, s': State, o: ObjId, image: seq<Bytes.Byte>)
    requires o < |s.objects| && s.objects[o].kind.ServerSession? && s.objects[o].kind.requests != []
  {
    var t := s.objects[o].kind.requests[0];
    && t < |s.threads| == |s'.threads| && s.current != Some(t)
    && s.threads[t].state == Waiting
    && Resumed(s.threads[t].(ipcData := image), s'.threads[t], Some(s.objects[o].kind.client))
    && s'.threads[t].state == Ready && s'.threads[t].resume == Normal && s'.threads[t].ipcData == image
    && (forall u :: 0 <= u < |s.threads| && u != t ==> s'.threads[u] == s.threads[u])
    && |s'.objects| == |s.objects|
    && s'.objects[o].kind == s.objects[o].kind.(requests := s.objects[o].kind.requests[1..])
    && (forall x :: 0 <= x < |s.objects| && x != o ==> s'.objects[x].kind == s.objects[x].kind)
  }

  /**
    A reply is written to, and wakes, exactly the thread whose request was at the front. No other
    thread changes, and no other session is affected.
   */
  lemma ReplyReachesRequester(s: State, o: ObjId, image: seq<Bytes.Byte>)
    requires Inv(s) && InStep(s) && RunningCurrent(s)
    requires o < |s.objects| && s.objects[o].kind.ServerSession? && s.objects[o].kind.requests != []
    ensures Reply(s, o, image).Ok? && InStep(Reply(s, o, image).value)
    ensures Replied(s, Reply(s, o, image).value, o, image)
  {
    RequesterWaits(s, o);
    AnsweredFacts(s, o, image);
    hide Reply;
    hide Inv;
    hide AllAlone;
    hide PairOk;
    hide WakeFront;
    hide InStep;
    var k := s.objects[o].kind;
    var s2 := Answered(s, o, image);
    WakeClientFront(s2, k.client);
    DequeuedInStep(s, WakeFront(s2, k.client).value, o, k.client, k.(requests := k.requests[1..]));
  }

  /** The answer is delivered and the request taken off, but the requester still waits. */
  ghost function Answered(s: State, o: ObjId, image: seq<Bytes.Byte>): State
    requires o < |s.objects| && s.objects[o].kind.ServerSession? && s.objects[o].kind.requests != []
    requires s.objects[o].kind.requests[0] < |s.threads|
  {
    var k := s.objects[o].kind;
    var t := k.requests[0];
    SetKind(s, o, k.(requests := k.requests[1..])).(threads := s.threads[t := s.threads[t].(ipcData := image)])
  }

  lemma AnsweredFacts(s: State, o: ObjId, image: seq<Bytes.Byte>)
    requires Inv(s) && InStep(s) && RunningCurrent(s)
    requires o < |s.objects| && s.objects[o].kind.ServerSession? && s.objects[o].kind.requests != []
    ensures s.objects[o].kind.requests[0] < |s.threads| && s.objects[o].kind.client < |s.objects|
    ensures Inv(Answered(s, o, image)) && AllAlone(Answered(s, o, image))
    ensures Reply(s, o, image) == WakeFront(Answered(s, o, image), s.objects[o].kind.client)
  {
    RequesterWaits(s, o);
    var k := s.objects[o].kind;
    var s1 := SetKind(s, o, k.(requests := k.requests[1..]));
    SetObjKeeps(s, o, s.objects[o].(kind := k.(requests := k.requests[1..])));
    DeliverKeeps(s1, s.current.value, k.requests[0], image);
    hide Inv;
    hide PairOk;
    hide WakeFront;
    var s2 := Answered(s, o, image);
    assert DeliverIpc(s1, s.current.value, k.requests[0], image) == Ok(s2);
    forall t | 0 <= t < |s2.threads| ensures Alone(s2, s2.threads[t]) {
      assert Alone(s, s.threads[t]);
    }
  }

  /** The front request of a session belongs to the Waiting thread at the front of its client. */
  lemma RequesterWaits(s: State, o: ObjId)
    requires Inv(s) && InStep(s) && RunningCurrent(s)
    requires o < |s.objects| && s.objects[o].kind.ServerSession? && s.objects[o].kind.requests != []
    ensures var k := s.objects[o].kind;
      && k.client < |s.objects| && k.client != o && s.objects[k.client].kind == ClientSession(o)
      && var q := s.objects[k.client].queue;
         && q != [] && DistinctThreads(q) && q[0].thread == k.requests[0]
         && k.requests[0] < |s.threads| && s.threads[k.requests[0]].state == Waiting
         && k.requests[0] != s.current.value
  {
    var c := s.objects[o].kind.client;
    assert PairOk(s, o);
    assert PairOk(s, c);
    var q := s.objects[c].queue;
    assert q[0] in Queue(s.objects[c]) && LiveIn(s, q[0], c);
  }

  /** Taking the front off both sides of one pair keeps every pair in step. */
  lemma DequeuedInStep(s: State, s': State, o: ObjId, c: ObjId, k: Kind)
    requires InStep(s) && o < |s.objects| && c < |s.objects| && o != c
    requires ClientEnd(s.objects[c].kind) && s.objects[c].kind.server == o && s.objects[c].queue != []
    requires s'.objects == s.objects[o := s.objects[o].(kind := k)][c := s.objects[c].(queue := s.objects[c].queue[1..])]
    requires
      || (s.objects[o].kind.ServerSession? && s.objects[o].kind.client == c && s.objects[o].kind.requests != []
          && k == s.objects[o].kind.(requests := s.objects[o].kind.requests[1..]))
      || (s.objects[o].kind.ServerPort? && s.objects[o].kind.client == c && s.objects[o].kind.sessions != []
          && k == s.objects[o].kind.(sessions := s.objects[o].kind.sessions[1..]))
    requires |s'.threads| == |s.threads|
    requires forall t :: 0 <= t < |s.threads| && s'.threads[t].state == Waiting ==> s'.threads[t] == s.threads[t]
    ensures InStep(s')
  {
    var q := s.objects[c].queue;
    assert PairOk(s, o) && PairOk(s, c);
    assert ThreadsOf(q)[1..] == ThreadsOf(q[1..]);
    forall x | 0 <= x < |s'.objects| ensures PairOk(s', x) {
      assert PairOk(s, x);
    }
    forall t | 0 <= t < |s'.threads| ensures Alone(s', s'.threads[t]) {
      assert Alone(s, s.threads[t]);
      hide PairOk;
    }
    hide PairOk;
    hide Alone;
  }

  // ---------------------------------------------------------------- ports

  /** Exactly one thread changes: it was Waiting and resumes normally, woken by object `c`. */
  ghost predicate OnlyWoken(s: State, s': State, t: ThreadId, c: ObjId) {
    && t < |s.threads| == |s'.threads| && s.threads[t].state == Waiting
    && Resumed(s.threads[t], s'.threads[t], Some(c)) && s'.threads[t].resume == Normal
    && (forall u :: 0 <= u < |s.threads| && u != t ==> s'.threads[u] == s.threads[u])
  }

  /** The oldest pending session is taken and exactly its creator resumes. */
  ghost predicate Accepted(s: State, s': State, o: ObjId)
    requires o < |s.objects| && s.objects[o].kind.ServerPort? && s.objects[o].kind.sessions != []
  {
    var session := s.objects[o].kind.sessions[0];
    && session < |s.objects| == |s'.objects| && s.objects[session].kind.ServerSession?
    && s'.objects[o].kind == s.objects[o].kind.(sessions := s.objects[o].kind.sessions[1..])
    && (forall x :: 0 <= x < |s.objects| && x != o ==> s'.objects[x].kind == s.objects[x].kind)
    && OnlyWoken(s, s', s.objects[session].kind.creator, s.objects[o].kind.client)
  }

  /**
    Accepting takes the oldest pending session and wakes exactly the thread that asked for it; the
    others stay pending in the same order.
   */
  lemma AcceptReachesCreator(s: State, o: ObjId)
    requires Inv(s) && InStep(s) && RunningCurrent(s)
    requires o < |s.objects| && s.objects[o].kind.ServerPort? && s.objects[o].kind.sessions != []
    ensures AcceptSession(s, o).Ok? && InStep(AcceptSession(s, o).value)
    ensures Accepted(s, AcceptSession(s, o).value, o)
  {
    CreatorWaits(s, o);
    TakenOffFacts(s, o);
    hide AcceptSession;
    hide Inv;
    hide AllAlone;
    hide PairOk;
    hide WakeFront;
    hide InStep;
    hide Resumed;
    var k := s.objects[o].kind;
    var s1 := TakenOff(s, o);
    WakeClientFront(s1, k.client);
    DequeuedInStep(s, WakeFront(s1, k.client).value, o, k.client, k.(sessions := k.sessions[1..]));
  }

  /** The oldest session is taken off the port, but its creator still waits. */
  ghost function TakenOff(s: State, o: ObjId): State
    requires o < |s.objects| && s.objects[o].kind.ServerPort? && s.objects[o].kind.sessions != []
  {
    SetKind(s, o, s.objects[o].kind.(sessions := s.objects[o].kind.sessions[1..]))
  }

  /** The oldest session of a port was asked for by the Waiting thread at the front of its client. */
  lemma CreatorWaits(s: State, o: ObjId)
    requires Inv(s) && InStep(s)
    requires o < |s.objects| && s.objects[o].kind.ServerPort? && s.objects[o].kind.sessions != []
    ensures var k := s.objects[o].kind;
      && k.client < |s.objects| && k.client != o && s.objects[k.client].kind == ClientPort(o)
      && var q := s.objects[k.client].queue;
         && q != [] && DistinctThreads(q)
         && k.sessions[0] < |s.objects| && s.objects[k.sessions[0]].kind.ServerSession?
         && s.objects[k.sessions[0]].kind.creator == q[0].thread
  {
    assert PairOk(s, o);
    assert PairOk(s, s.objects[o].kind.client);
  }

  lemma TakenOffFacts(s: State, o: ObjId)
    requires Inv(s) && InStep(s) && RunningCurrent(s)
    requires o < |s.objects| && s.objects[o].kind.ServerPort? && s.objects[o].kind.sessions != []
    ensures s.objects[o].kind.client < |s.objects|
    ensures Inv(TakenOff(s, o)) && AllAlone(TakenOff(s, o))
    ensures AcceptSession(s, o) == WakeFront(TakenOff(s, o), s.objects[o].kind.client)
  {
    CreatorWaits(s, o);
    var k := s.objects[o].kind;
    SetObjKeeps(s, o, s.objects[o].(kind := k.(sessions := k.sessions[1..])));
    hide Inv;
    hide PairOk;
    hide WakeFront;
    var s1 := TakenOff(s, o);
    forall t | 0 <= t < |s1.threads| ensures Alone(s1, s1.threads[t]) {
      assert Alone(s, s.threads[t]);
    }
  }

  lemma AcceptWaitsInStep(s: State, o: ObjId)
    requires Inv(s) && InStep(s) && RunningCurrent(s)
    requires o < |s.objects| && s.objects[o].kind.ServerPort? && s.objects[o].kind.sessions == []
    ensures AcceptSession(s, o).Ok? && InStep(AcceptSession(s, o).value)
    ensures forall x :: 0 <= x < |s.objects| ==> AcceptSession(s, o).value.objects[x].kind == s.objects[x].kind
  {
    SuspendInStep(s, [o], None, WaitSync1);
    var r := Suspend(s, [o], None, WaitSync1).value;
    SetObjAside(r.state, o, r.state.objects[o].(queue := r.state.objects[o].queue + [r.waker]));
    AsideKeeps(r.state, Push(r.state, o, r.waker), -1);
  }

  /** With a session pending but its creator not yet queued, only that server port is out of step. */
  lemma WithPendingInStep(s: State, o: ObjId)
    requires InStep(s) && s.current.Some? && o < |s.objects| && s.objects[o].kind.ClientPort?
    requires s.objects[o].kind.server < |s.objects| && s.objects[s.objects[o].kind.server].kind.ServerPort?
    ensures InStepBut(WithPending(s, o), s.objects[o].kind.server)
  {
    var s' := WithPending(s, o);
    var server := s.objects[o].kind.server;
    var n := |s.objects|;
    forall x | 0 <= x < |s'.objects| && x != server ensures PairOk(s', x) {
      if x < n {
        assert PairOk(s, x);
        assert s'.objects[x] == s.objects[x];
      } else {
        assert s'.objects[n] == Object([], ServerSession([], n + 1, s.current.value));
        assert s'.objects[n + 1] == Object([], ClientSession(n));
      }
    }
    forall t | 0 <= t < |s'.threads| ensures Alone(s', s'.threads[t]) {
      assert Alone(s, s.threads[t]);
    }
  }

  /** The creator joins the client queue: the server port is in step again. */
  lemma CreatorQueuedInStep(s: State, o: ObjId, w: Waker, sessions: seq<ObjId>, id: ObjId)
    requires o < |s.objects| && s.objects[o].kind.ClientPort?
    requires var server := s.objects[o].kind.server;
      && server < |s.objects| && InStepBut(s, server)
      && s.objects[server].kind == ServerPort(sessions + [id], o)
    requires CreatedBy(s, sessions, s.objects[o].queue)
    requires id < |s.objects| && s.objects[id].kind.ServerSession? && s.objects[id].kind.creator == w.thread
    requires forall v :: v in s.objects[o].queue ==> v.thread != w.thread
    ensures InStep(Push(s, o, w))
  {
    var s' := Push(s, o, w);
    var server := s.objects[o].kind.server;
    var q := s.objects[o].queue;
    assert PairOk(s, o);
    forall i | 0 <= i < |q| ensures q[i].thread != w.thread {
      assert q[i] in q;
    }
    assert CreatedBy(s', sessions + [id], q + [w]);
    forall x | 0 <= x < |s'.objects| ensures PairOk(s', x) {
      if x != server {
        assert PairOk(s, x);
      }
    }
    forall t | 0 <= t < |s'.threads| ensures Alone(s', s'.threads[t]) {
      assert Alone(s, s.threads[t]);
    }
  }

  /** A new pair of session ends exists; its server end is pending behind all others, with its creator. */
  ghost predicate SessionPending(s: State, s': State, o: ObjId)
    requires s.current.Some? && o < |s.objects| && s.objects[o].kind.ClientPort?
  {
    var n, server := |s.objects|, s.objects[o].kind.server;
    && |s'.objects| == n + 2 && server < n && s.objects[server].kind.ServerPort?
    && s'.objects[n].kind == ServerSession([], n + 1, s.current.value) && s'.objects[n + 1].kind == ClientSession(n)
    && s'.objects[server].kind == s.objects[server].kind.(sessions := s.objects[server].kind.sessions + [n])
    && (forall x :: 0 <= x < n && x != server && End(s.objects[x].kind) ==> s'.objects[x].kind == s.objects[x].kind)
  }

  /** The kinds of the ends after a session was created. */
  lemma PendingKinds(s: State, o: ObjId, s': State)
    requires s.current.Some? && o < |s.objects| && s.objects[o].kind.ClientPort?
    requires s.objects[o].kind.server < |s.objects| && s.objects[s.objects[o].kind.server].kind.ServerPort?
    requires |s'.objects| == |s.objects| + 2
    requires forall x :: 0 <= x < |s'.objects| && End(WithPending(s, o).objects[x].kind) ==>
      s'.objects[x].kind == WithPending(s, o).objects[x].kind
    ensures SessionPending(s, s', o)
  {
    var n := |s.objects|;
    var s1 := WithPending(s, o);
    assert s1.objects[n] == Object([], ServerSession([], n + 1, s.current.value));
    assert s1.objects[n + 1] == Object([], ClientSession(n));
    forall x | 0 <= x < n && x != s.objects[o].kind.server ensures s1.objects[x] == s.objects[x] {
    }
  }

  lemma CreateSessionInStep(s: State, o: ObjId)
    requires Inv(s) && InStep(s) && RunningCurrent(s)
    requires o < |s.objects| && s.objects[o].kind.ClientPort?
    ensures CreateSession(s, o).Ok? && InStep(CreateSession(s, o).value)
    ensures SessionPending(s, CreateSession(s, o).value, o)
  {
    var n := |s.objects|;
    assert PairOk(s, o);
    var server := s.objects[o].kind.server;
    assert PairOk(s, server);
    var s1 := WithPending(s, o);
    WithPendingKeeps(s, o);
    WithPendingInStep(s, o);
    WakeFrontKeeps(s1, server);
    WakeFrontAside(s1, server);
    var s2 := WakeFront(s1, server).value;
    AsideKeeps(s1, s2, server);
    SuspendKeeps(s2, [o], None, WaitSync1);
    var r := Suspend(s2, [o], None, WaitSync1).value;
    SuspendInStepBut(s2, o, server);
    assert s1.objects[n] == Object([], ServerSession([], n + 1, s.current.value));
    assert s1.objects[o] == s.objects[o];
    CreatorQueuedInStep(r.state, o, r.waker, s.objects[server].kind.sessions, n);
    hide PairOk;
    hide Alone;
    hide Inv;
    PendingKinds(s, o, Push(r.state, o, r.waker));
  }

  lemma SuspendInStepBut(s: State, o: ObjId, skip: int)
    requires InStepBut(s, skip) && RunningCurrent(s) && o < |s.objects|
    ensures Suspend(s, [o], None, WaitSync1).Ok?
    ensures InStepBut(Suspend(s, [o], None, WaitSync1).value.state, skip)
  {
    var s' := Suspend(s, [o], None, WaitSync1).value.state;
    forall t | 0 <= t < |s'.threads| ensures Alone(s', s'.threads[t]) {
      assert Alone(s, s.threads[t]);
    }
    forall x | 0 <= x < |s'.objects| && x != skip ensures PairOk(s', x) {
      assert PairOk(s, x);
    }
  }

  // ---------------------------------------------------------------- every step

  /** Client ends are waited on only through SendSyncRequest and CreateSessionToPort. */
  ghost predicate OwnCallsOnly(s: State, op: Op) {
    match op
    case OpWait1(o, _) => o < |s.objects| ==> !ClientEnd(s.objects[o].kind)
    case OpWaitN(objs, _) => NoClientEnds(s, objs)
    case _ => true
  }

  /** The requests pending at a server session, if it is one. */
  ghost function Requests(s: State, o: ObjId): seq<ThreadId> {
    if o < |s.objects| && s.objects[o].kind.ServerSession? then s.objects[o].kind.requests else []
  }

  /** Server sessions stay what they are, and only a reply takes anything off a request queue. */
  ghost predicate RequestsGrow(s: State, s': State, replied: int) {
    && |s.objects| <= |s'.objects|
    && forall o :: 0 <= o < |s.objects| && s.objects[o].kind.ServerSession? ==>
      s'.objects[o].kind.ServerSession? && (o != replied ==> Requests(s, o) <= Requests(s', o))
  }

  lemma AsideGrows(s: State, s': State)
    requires Aside(s, s')
    ensures RequestsGrow(s, s', -1)
  {
  }

  lemma AppendedInStep(s: State, s': State, added: seq<Object>)
    requires InStep(s) && s'.objects == s.objects + added
    requires forall i :: 0 <= i < |added| && |added| == 1 ==> !End(added[i].kind)
    requires |added| == 1
      || added == [Object([], ServerPort([], |s.objects| + 1)), Object([], ClientPort(|s.objects|))]
    requires s.threads <= s'.threads && forall t :: |s.threads| <= t < |s'.threads| ==> s'.threads[t].state != Waiting
    ensures InStep(s') && RequestsGrow(s, s', -1)
  {
    var n := |s.objects|;
    forall x | 0 <= x < |s'.objects| ensures PairOk(s', x) {
      if x < n {
        assert PairOk(s, x);
        assert s'.objects[x] == s.objects[x];
      } else {
        assert s'.objects[n] == added[0];
        assert |added| == 2 ==> s'.objects[n + 1] == added[1];
      }
    }
    forall t | 0 <= t < |s'.threads| ensures Alone(s', s'.threads[t]) {
      if t < |s.threads| {
        assert s'.threads[t] == s.threads[t] && Alone(s, s.threads[t]);
      }
    }
  }

  lemma CreationInStep(s: State, op: Op)
    requires InStep(s) && Creates(op) && Apply(s, op).Ok?
    ensures InStep(Apply(s, op).value) && RequestsGrow(s, Apply(s, op).value, -1)
  {
    var s' := Apply(s, op).value;
    match op
    case OpCreateThread => AppendedInStep(s, s', [Object([], ThreadObj(false))]);
    case OpCreateEvent(reset) => AppendedInStep(s, s', [Object([], Event(Signal(reset, false)))]);
    case OpCreateTimer(reset) => AppendedInStep(s, s', [Object([], Timer(Signal(reset, false), -1, -1))]);
    case OpCreateMutex(locked) => AppendedInStep(s, s', [Object([], Mutex(locked))]);
    case OpCreateArbiter => AppendedInStep(s, s', [Object([], Arbiter([]))]);
    case OpCreatePort =>
      var id := |s.objects|;
      AppendedInStep(s, s', [Object([], ServerPort([], id + 1)), Object([], ClientPort(id))]);
  }

  lemma SignalStepAside(s: State, op: Op)
    requires Inv(s) && InStep(s) && Disciplined(s, op) && Signals(op)
    ensures Apply(s, op).Ok? ==> Aside(s, Apply(s, op).value)
  {
    assert AllAlone(s) && (op.OpReleaseMutex? ==> RunningCurrent(s));
    hide AllAlone;
    hide Disciplined;
    hide Inv;
    hide InStep;
    hide Aside;
    hide SignalEvent;
    hide ReleaseMutex;
    hide ArbiterSignal;
    hide Tick;
    hide ClearEvent;
    hide SetTimer;
    match op
    case OpSignalEvent(o) => SignalEventAside(s, o);
    case OpInterrupt(o) => SignalEventAside(s, o);
    case OpReleaseMutex(o) => ReleaseMutexAside(s, o);
    case OpArbiterSignal(o, amount, addr) => ArbiterSignalAside(s, o, amount, addr);
    case OpTick(time) => TickAside(s, time);
    case OpClearEvent(o) => ClearEventAside(s, o);
    case OpSetTimer(o, initial, interval) => SetTimerAside(s, o, initial, interval);
  }

  lemma ClearEventAside(s: State, o: ObjId)
    ensures Aside(s, ClearEvent(s, o))
  {
  }

  lemma SetTimerAside(s: State, o: ObjId, initial: int, interval: int)
    ensures Aside(s, SetTimer(s, o, initial, interval))
  {
  }

  lemma ScheduleAside(s: State, op: Op)
    requires op.OpScheduleNext? || op.OpDispatch? || op.OpYield? || op.OpReceive?
    ensures Apply(s, op).Ok? ==> Aside(s, Apply(s, op).value)
  {
  }

  lemma ScheduleStepAside(s: State, op: Op)
    requires Inv(s) && InStep(s) && Disciplined(s, op)
    requires op.OpExit? || op.OpScheduleNext? || op.OpDispatch? || op.OpYield? || op.OpReceive?
    ensures Apply(s, op).Ok? ==> Aside(s, Apply(s, op).value)
  {
    assert AllAlone(s);
    hide AllAlone;
    hide Inv;
    hide InStep;
    hide Aside;
    if op.OpExit? {
      hide Exit;
      ExitAside(s);
    } else {
      hide Apply;
      ScheduleAside(s, op);
    }
  }

  lemma WaitNInStep(s: State, objs: seq<ObjId>, deadline: Option<nat>)
    requires Inv(s) && InStep(s) && RunningCurrent(s) && NoClientEnds(s, objs)
    requires ValidIds(objs, |s.objects|) ==> Waitable(Kinds(s), objs)
    ensures WaitN(s, objs, deadline).Ok? ==>
      InStep(WaitN(s, objs, deadline).value) && RequestsGrow(s, WaitN(s, objs, deadline).value, -1)
  {
    if ValidIds(objs, |s.objects|) {
      SuspendKeeps(s, objs, deadline, WaitSyncN);
      SuspendInStep(s, objs, deadline, WaitSyncN);
      var r := Suspend(s, objs, deadline, WaitSyncN).value;
      assert Kinds(r.state) == Kinds(s);
      WaitEachAside(r.state, objs, objs, r.waker);
      AsideKeeps(r.state, WaitEach(r.state, objs, r.waker).value, -1);
    }
  }

  lemma WaitStepInStep(s: State, op: Op)
    requires Inv(s) && InStep(s) && Disciplined(s, op) && OwnCallsOnly(s, op)
    requires op.OpWait1? || op.OpWaitN? || op.OpSleep? || op.OpArbiterWait?
    ensures Apply(s, op).Ok? ==> InStep(Apply(s, op).value) && RequestsGrow(s, Apply(s, op).value, -1)
  {
    hide Inv;
    hide InStep;
    hide RequestsGrow;
    hide Wait1;
    hide WaitN;
    hide SleepThread;
    hide ArbiterWait;
    match op
    case OpWait1(o, deadline) => Wait1InStep(s, o, deadline);
    case OpWaitN(objs, deadline) => WaitNInStep(s, objs, deadline);
    case OpSleep(deadline) => SleepInStep(s, deadline);
    case OpArbiterWait(o, addr) => ArbiterWaitInStep(s, o, addr);
  }

  lemma Wait1InStep(s: State, o: ObjId, deadline: Option<nat>)
    requires Inv(s) && InStep(s) && RunningCurrent(s) && (o < |s.objects| ==> !ClientEnd(s.objects[o].kind))
    ensures Wait1(s, o, deadline).Ok? ==>
      InStep(Wait1(s, o, deadline).value) && RequestsGrow(s, Wait1(s, o, deadline).value, -1)
  {
    hide WaitOn;
    if o < |s.objects| && Synchronizable(s.objects[o]) {
      SuspendKeeps(s, [o], deadline, WaitSync1);
      SuspendInStep(s, [o], deadline, WaitSync1);
      var r := Suspend(s, [o], deadline, WaitSync1).value;
      assert o in [o] && LiveIn(r.state, r.waker, o);
      hide Inv;
      WaitOnAside(r.state, o, r.waker);
      hide PairOk;
      hide Alone;
      AsideKeeps(r.state, WaitOn(r.state, o, r.waker).value, -1);
    }
  }

  lemma SleepInStep(s: State, deadline: Option<nat>)
    requires Inv(s) && InStep(s) && RunningCurrent(s)
    ensures SleepThread(s, deadline).Ok? ==>
      InStep(SleepThread(s, deadline).value) && RequestsGrow(s, SleepThread(s, deadline).value, -1)
  {
    SuspendInStep(s, [], deadline, WaitSleep);
    hide Inv;
    hide InStep;
  }

  lemma ArbiterWaitInStep(s: State, o: ObjId, addr: Address)
    requires Inv(s) && InStep(s) && RunningCurrent(s)
    ensures ArbiterWait(s, o, addr).Ok? ==>
      InStep(ArbiterWait(s, o, addr).value) && RequestsGrow(s, ArbiterWait(s, o, addr).value, -1)
  {
    if o < |s.objects| && s.objects[o].kind.Arbiter? {
      SuspendInStep(s, [o], None, WaitArbiter);
      hide Inv;
      hide PairOk;
      hide Alone;
      var r := Suspend(s, [o], None, WaitArbiter).value;
      var obj := s.objects[o].(kind := Arbiter(s.objects[o].kind.slots + [Slot(r.waker, addr)]));
      SetObjAside(r.state, o, obj);
      AsideKeeps(r.state, SetObj(r.state, o, obj), -1);
    }
  }

  lemma SendStep(s: State, o: ObjId)
    requires Inv(s) && InStep(s) && RunningCurrent(s)
    ensures SendRequest(s, o).Ok? && InStep(SendRequest(s, o).value)
    ensures RequestsGrow(s, SendRequest(s, o).value, -1)
  {
    if o < |s.objects| && s.objects[o].kind.ClientSession? {
      SendRequestInStep(s, o);
    }
  }

  lemma ReplyStep(s: State, o: ObjId, image: seq<Bytes.Byte>)
    requires Inv(s) && InStep(s) && RunningCurrent(s) && Reply(s, o, image).Ok?
    ensures InStep(Reply(s, o, image).value) && RequestsGrow(s, Reply(s, o, image).value, o)
  {
    if o < |s.objects| && s.objects[o].kind.ServerSession? {
      ReplyReachesRequester(s, o, image);
    }
  }

  lemma CreateSessionStep(s: State, o: ObjId)
    requires Inv(s) && InStep(s) && RunningCurrent(s)
    ensures CreateSession(s, o).Ok? && InStep(CreateSession(s, o).value)
    ensures RequestsGrow(s, CreateSession(s, o).value, -1)
  {
    if o < |s.objects| && s.objects[o].kind.ClientPort? {
      CreateSessionInStep(s, o);
    }
  }

  lemma AcceptStep(s: State, o: ObjId)
    requires Inv(s) && InStep(s) && RunningCurrent(s)
    ensures AcceptSession(s, o).Ok? && InStep(AcceptSession(s, o).value)
    ensures RequestsGrow(s, AcceptSession(s, o).value, -1)
  {
    if o < |s.objects| && s.objects[o].kind.ServerPort? {
      if s.objects[o].kind.sessions == [] {
        AcceptWaitsInStep(s, o);
      } else {
        AcceptReachesCreator(s, o);
      }
    }
  }

  lemma IpcStepInStep(s: State, op: Op)
    requires Inv(s) && InStep(s) && RunningCurrent(s) && Apply(s, op).Ok?
    requires op.OpSendRequest? || op.OpReply? || op.OpCreateSession? || op.OpAcceptSession?
    ensures InStep(Apply(s, op).value)
    ensures RequestsGrow(s, Apply(s, op).value, if op.OpReply? then op.obj else -1)
  {
    hide Inv;
    hide InStep;
    hide RequestsGrow;
    hide SendRequest;
    hide Reply;
    hide CreateSession;
    hide AcceptSession;
    match op
    case OpSendRequest(o) => SendStep(s, o);
    case OpReply(o, image) => ReplyStep(s, o, image);
    case OpCreateSession(o) => CreateSessionStep(s, o);
    case OpAcceptSession(o) => AcceptStep(s, o);
  }

  /** Every step keeps all pairs in step, and only a reply takes a request off its queue. */
  lemma StepInStep(s: State, op: Op)
    requires Inv(s) && InStep(s) && Disciplined(s, op) && OwnCallsOnly(s, op) && Apply(s, op).Ok?
    ensures InStep(Apply(s, op).value)
    ensures RequestsGrow(s, Apply(s, op).value, if op.OpReply? then op.obj else -1)
  {
    hide Apply;
    hide Inv;
    hide RequestsGrow;
    hide Aside;
    if Creates(op) {
      CreationInStep(s, op);
    } else if op.OpWait1? || op.OpWaitN? || op.OpSleep? || op.OpArbiterWait? {
      WaitStepInStep(s, op);
    } else if op.OpSendRequest? || op.OpReply? || op.OpCreateSession? || op.OpAcceptSession? {
      IpcStepInStep(s, op);
    } else {
      if Signals(op) {
        SignalStepAside(s, op);
      } else {
        ScheduleStepAside(s, op);
      }
      AsideKeeps(s, Apply(s, op).value, -1);
      AsideGrows(s, Apply(s, op).value);
    }
  }

  // ---------------------------------------------------------------- whole runs

  ghost predicate PairedRun(s: State, ops: seq<Op>)
    decreases |ops|
  {
    ops == []
    || (Disciplined(s, ops[0]) && OwnCallsOnly(s, ops[0])
        && (Apply(s, ops[0]).Ok? ==> PairedRun(Apply(s, ops[0]).value, ops[1..])))
  }

  lemma {:induction false} RunInStep(s: State, ops: seq<Op>)
    requires Inv(s) && InStep(s) && PairedRun(s, ops) && Run(s, ops).Ok?
    ensures Inv(Run(s, ops).value) && InStep(Run(s, ops).value)
    decreases |ops|
  {
    if ops != [] {
      StepKeeps(s, ops[0]);
      StepInStep(s, ops[0]);
      RunInStep(Apply(s, ops[0]).value, ops[1..]);
    }
  }

  /**
    In every reachable state the requests pending at a server session are, in order, the threads
    queued at its client session, and the sessions pending at a server port were created, in order, by
    the threads queued at its client port.
   */
  lemma QueuesInLockstep(ops: seq<Op>, o: ObjId)
    requires PairedRun(Initial, ops) && Run(Initial, ops).Ok? && o < |Run(Initial, ops).value.objects|
    ensures var s := Run(Initial, ops).value;
      && (s.objects[o].kind.ServerSession? ==>
            var c := s.objects[o].kind.client;
            c < |s.objects| && s.objects[o].kind.requests == ThreadsOf(s.objects[c].queue))
      && (s.objects[o].kind.ServerPort? ==>
            var c := s.objects[o].kind.client;
            c < |s.objects| && CreatedBy(s, s.objects[o].kind.sessions, s.objects[c].queue))
  {
    RunInStep(Initial, ops);
    assert PairOk(Run(Initial, ops).value, o);
  }

  /** Between two replies of a session, whatever else happens, its front request does not change. */
  lemma {:induction false} FrontRequestStays(s: State, ops: seq<Op>, o: ObjId)
    requires Inv(s) && InStep(s) && PairedRun(s, ops) && Run(s, ops).Ok?
    requires o < |s.objects| && s.objects[o].kind.ServerSession?
    requires forall i :: 0 <= i < |ops| && ops[i].OpReply? ==> ops[i].obj != o
    ensures Requests(s, o) <= Requests(Run(s, ops).value, o)
    decreases |ops|
  {
    if ops != [] {
      StepKeeps(s, ops[0]);
      StepInStep(s, ops[0]);
      FrontRequestStays(Apply(s, ops[0]).value, ops[1..], o);
    }
  }
}
