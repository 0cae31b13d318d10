/** How often a timer fires over a sequence of ticks. */
module Timers {
  import opened Outcomes
  import opened Machine
  import opened History
  import Bytes

  // ---------------------------------------------------------------- schedules

  /** The times at which a timer fires. */
  function FireTimes(p: Schedule, times: seq<nat>): seq<nat>
    decreases |times|
  {
    if times == [] then []
    else (if Due(p, times[0]) then [times[0]] else []) + FireTimes(Ticked(p, times[0]), times[1..])
  }

  lemma {:induction false} DisarmedNeverFires(p: Schedule, times: seq<nat>)
    requires p.nextNs < 0
    ensures FireTimes(p, times) == []
  {
    if times != [] {
      DisarmedNeverFires(p, times[1..]);
    }
  }

  /** A one-shot or sticky timer fires at most once after it is set. */
  lemma {:induction false} FiresAtMostOnce(p: Schedule, times: seq<nat>)
    requires !p.reset.Pulse?
    ensures |FireTimes(p, times)| <= 1
  {
    if times != [] {
      if Due(p, times[0]) {
        DisarmedNeverFires(Ticked(p, times[0]), times[1..]);
      } else {
        FiresAtMostOnce(p, times[1..]);
      }
    }
  }

  /** Consecutive times are at least `gap` apart. */
  ghost predicate Spaced(times: seq<nat>, gap: int) {
    forall i :: 0 < i < |times| ==> times[i] - times[i - 1] >= gap
  }

  lemma SpacedNothing(gap: int)
    ensures Spaced([], gap)
  {
  }

  lemma SpacedCons(x: nat, times: seq<nat>, gap: int)
    requires Spaced(times, gap) && (times != [] ==> times[0] - x >= gap)
    ensures Spaced([x] + times, gap)
  {
    var all := [x] + times;
    forall i | 0 < i < |all| ensures all[i] - all[i - 1] >= gap {
      assert all[i] == times[i - 1];
      assert i > 1 ==> all[i - 1] == times[i - 2];
    }
  }

  /** Below 2^64 a sum reads as itself, or from 2^63 on as a negative number. */
  lemma ReadAsSigned(x: nat)
    requires x < KEYS
    ensures AsI64(x) == if x < I64 then x else x - KEYS
  {
  }

  /** A due pulse timer is armed one interval from now, or disarmed where that sum reads as negative. */
  lemma PulseStep(p: Schedule, time: nat)
    requires p.reset.Pulse? && time + p.interval < KEYS
    ensures !Due(p, time) ==> Ticked(p, time) == p
    ensures Due(p, time) ==>
      && time >= p.nextNs
      && (time + p.interval < I64 ==> Ticked(p, time) == p.(nextNs := time + p.interval))
      && (time + p.interval >= I64 ==> Ticked(p, time).nextNs < 0)
      && Ticked(p, time).interval == p.interval && Ticked(p, time).reset == p.reset
  {
    hide AsI64;
    if Due(p, time) {
      ReadAsSigned(time + p.interval);
    }
  }

  /**
    A pulse timer never fires before it is due, and its firings are at least one interval apart, as
    long as no time plus the interval reaches 2^64.
   */
  lemma {:induction false} PulsesAreSpaced(p: Schedule, times: seq<nat>)
    requires p.reset.Pulse?
    requires forall i :: 0 <= i < |times| ==> times[i] + p.interval < KEYS
    ensures var f := FireTimes(p, times);
      (f != [] ==> f[0] >= p.nextNs) && Spaced(f, p.interval)
    decreases |times|
  {
    hide Spaced;
    hide Ticked;
    hide Due;
    SpacedNothing(p.interval);
    if times != [] {
      PulseStep(p, times[0]);
      var p' := Ticked(p, times[0]);
      var f := FireTimes(p', times[1..]);
      assert FireTimes(p, times) == if Due(p, times[0]) then [times[0]] + f else [] + f;
      if p'.nextNs < 0 {
        DisarmedNeverFires(p', times[1..]);
      }
      hide FireTimes;
      forall i | 0 <= i < |times[1..]| ensures times[1..][i] + p'.interval < KEYS {
        assert times[1..][i] == times[i + 1];
      }
      PulsesAreSpaced(p', times[1..]);
      if Due(p, times[0]) {
        SpacedCons(times[0], f, p.interval);
      } else {
        assert [] + f == f;
      }
    }
  }

  /** The bound is needed: with sums past 2^64 the deadline wraps into the past and spacing is lost. */
  lemma SpacingLostAtWrap()
    ensures var p := Schedule(Pulse, 0, I64 - 1);
      var ticks := [KEYS - 1, KEYS - 1];
      FireTimes(p, ticks) == ticks && !Spaced(ticks, p.interval)
  {
    var p := Schedule(Pulse, 0, I64 - 1);
    var ticks: seq<nat> := [KEYS - 1, KEYS - 1];
    assert Ticked(p, ticks[0]) == p.(nextNs := I64 - 2);
    assert ticks[1..] == [KEYS - 1];
    assert FireTimes(Ticked(p, ticks[0]), ticks[1..]) == [KEYS - 1] + FireTimes(Ticked(Ticked(p, ticks[0]), KEYS - 1), []);
    assert ticks[1] - ticks[0] < p.interval;
  }

  /** A pulse timer whose next deadline falls between 2^63 and 2^64 stops for good. */
  lemma PulseStopsPastSigned(p: Schedule, time: nat, times: seq<nat>)
    requires p.reset.Pulse? && Due(p, time) && I64 <= time + p.interval < KEYS
    ensures FireTimes(p, [time] + times) == [time]
  {
    PulseStep(p, time);
    DisarmedNeverFires(Ticked(p, time), times);
    assert ([time] + times)[1..] == times;
  }

  /** The position of the first tick at or after a time, or the number of ticks. */
  function FirstAtOrAfter(times: seq<nat>, due: int): (i: nat)
    ensures i <= |times| && forall j :: 0 <= j < i ==> times[j] < due
    ensures i < |times| ==> times[i] >= due
  {
    if times == [] || times[0] >= due then 0 else 1 + FirstAtOrAfter(times[1..], due)
  }

  /** An armed timer fires first at the first tick that is not before its due time, if there is one. */
  lemma {:induction false} FirstFiring(p: Schedule, times: seq<nat>)
    requires p.nextNs >= 0 && p.interval >= 0
    ensures var f, i := FireTimes(p, times), FirstAtOrAfter(times, p.nextNs);
      if i == |times| then f == [] else f != [] && f[0] == times[i]
    decreases |times|
  {
    if times != [] && !Due(p, times[0]) {
      FirstFiring(p, times[1..]);
      assert [] + FireTimes(p, times[1..]) == FireTimes(p, times[1..]);
    }
  }

  // ---------------------------------------------------------------- the kernel's ticks

  /** Nothing happened to object `o` but wake-ups that left its kind alone. */
  ghost predicate Unmoved(s: State, s': State, o: ObjId) {
    && o < |s.objects| == |s'.objects| && s'.objects[o].kind == s.objects[o].kind
    && Raises(s'.history, o) == Raises(s.history, o)
  }

  lemma WakeUpUnmoved(s: State, t: ThreadId, cause: Option<ObjId>, o: ObjId)
    requires t < |s.threads| && o < |s.objects| && !s.objects[o].kind.Arbiter? && WakeUp(s, t, cause).Ok?
    ensures Unmoved(s, WakeUp(s, t, cause).value, o)
  {
    hide Wakes;
    hide Grants;
    hide Raises;
    hide Purge;
    hide ResumeValue;
    Appended(s.history, Woken(Waker(t, s.threads[t].wakeKey), cause));
    PurgeKeepsKind(s.objects[o], t);
  }

  lemma WakeUnmoved(s: State, w: Waker, giver: ObjId, o: ObjId)
    requires o < |s.objects| && !s.objects[o].kind.Arbiter? && Wake(s, w, giver).Ok?
    ensures Unmoved(s, Wake(s, w, giver).value.state, o)
  {
    hide WakeUp;
    if w.thread < |s.threads| && s.threads[w.thread].wakeKey == w.key {
      WakeUpUnmoved(s, w.thread, Some(giver), o);
    }
  }

  lemma {:induction false} WakeAllUnmoved(s: State, ws: seq<Waker>, giver: ObjId, o: ObjId)
    requires o < |s.objects| && !s.objects[o].kind.Arbiter? && WakeAll(s, ws, giver).Ok?
    ensures Unmoved(s, WakeAll(s, ws, giver).value, o)
    decreases |ws|
  {
    hide Wake;
    if ws != [] {
      WakeUnmoved(s, ws[0], giver, o);
      WakeAllUnmoved(Wake(s, ws[0], giver).value.state, ws[1..], giver, o);
    }
  }

  lemma {:induction false} TickThreadsUnmoved(s: State, i: nat, time: nat, o: ObjId)
    requires i <= |s.threads| && o < |s.objects| && !s.objects[o].kind.Arbiter? && TickThreads(s, i, time).Ok?
    ensures Unmoved(s, TickThreads(s, i, time).value, o)
    decreases |s.threads| - i
  {
    hide WakeUp;
    if i < |s.threads| {
      if Expired(s.threads[i], time) {
        WakeUpUnmoved(s, i, None, o);
        TickThreadsUnmoved(WakeUp(s, i, None).value, i + 1, time, o);
      } else {
        TickThreadsUnmoved(s, i + 1, time, o);
      }
    }
  }

  /** Raising a signal moves no schedule, and no other object. */
  lemma RaiseMovesNothing(s: State, i: ObjId, o: ObjId)
    requires i < |s.objects| && HasSignal(s.objects[i]) && o < |s.objects| && s.objects[o].kind.Timer?
    requires RaiseSignal(s, i).Ok?
    ensures var s' := RaiseSignal(s, i).value;
      && s'.objects[o].kind.Timer? && ScheduleOf(s'.objects[o]) == ScheduleOf(s.objects[o])
      && Raises(s'.history, o) == Raises(s.history, o)
  {
    hide WakeAll;
    hide Wake;
    var obj := s.objects[i];
    var raised := WithSignal(obj, obj.kind.signal.(signaled := true));
    if obj.kind.signal.reset.Sticky? {
      WakeAllUnmoved(SetObj(s, i, raised.(queue := [])), obj.queue, i, o);
    } else if obj.queue != [] {
      WakeUnmoved(SetObj(s, i, raised), obj.queue[0], i, o);
    }
  }

  /** One timer's tick, as it concerns any timer: its own schedule moves and is logged, no other does. */
  lemma TimerTickMoves(s: State, i: ObjId, time: nat, o: ObjId)
    requires i < |s.objects| && o < |s.objects| && s.objects[o].kind.Timer? && TimerTick(s, i, time).Ok?
    ensures var s' := TimerTick(s, i, time).value;
      var p := ScheduleOf(s.objects[o]);
      && s'.objects[o].kind.Timer?
      && ScheduleOf(s'.objects[o]) == (if i == o then Ticked(p, time) else p)
      && Raises(s'.history, o) == Raises(s.history, o) + (if i == o && Due(p, time) then 1 else 0)
  {
    hide RaiseSignal;
    hide Wakes;
    hide Grants;
    hide Raises;
    if TimerDue(s.objects[i], time) {
      Appended(s.history, Signalled(i));
      RaiseMovesNothing(SetObj(Log(s, Signalled(i)), i, Rearm(s.objects[i], time)), i, o);
    }
  }

  /** Of all timers exactly `i` moves on by one tick, and it alone is signalled, exactly if it was due. */
  ghost predicate OneTimerMoved(s: State, s': State, i: ObjId, time: nat) {
    && |s'.objects| == |s.objects|
    && forall o :: 0 <= o < |s.objects| && s.objects[o].kind.Timer? ==>
         var p := ScheduleOf(s.objects[o]);
         && s'.objects[o].kind.Timer?
         && ScheduleOf(s'.objects[o]) == (if i == o then Ticked(p, time) else p)
         && Raises(s'.history, o) == Raises(s.history, o) + (if i == o && Due(p, time) then 1 else 0)
  }

  lemma TimerTickMovesOne(s: State, i: ObjId, time: nat)
    requires i < |s.objects| && TimerTick(s, i, time).Ok?
    ensures OneTimerMoved(s, TimerTick(s, i, time).value, i, time)
  {
    hide TimerTick;
    hide Raises;
    hide Ticked;
    forall o | 0 <= o < |s.objects| && s.objects[o].kind.Timer?
      ensures
        var s' := TimerTick(s, i, time).value;
        var p := ScheduleOf(s.objects[o]);
        && s'.objects[o].kind.Timer?
        && ScheduleOf(s'.objects[o]) == (if i == o then Ticked(p, time) else p)
        && Raises(s'.history, o) == Raises(s.history, o) + (if i == o && Due(p, time) then 1 else 0)
    {
      TimerTickMoves(s, i, time, o);
    }
  }

  lemma {:induction false} TickTimersMove(s: State, i: nat, time: nat, o: ObjId)
    requires i <= |s.objects| && o < |s.objects| && s.objects[o].kind.Timer? && TickTimers(s, i, time).Ok?
    ensures var s' := TickTimers(s, i, time).value;
      var p := ScheduleOf(s.objects[o]);
      && s'.objects[o].kind.Timer?
      && ScheduleOf(s'.objects[o]) == (if i <= o then Ticked(p, time) else p)
      && Raises(s'.history, o) == Raises(s.history, o) + (if i <= o && Due(p, time) then 1 else 0)
    decreases |s.objects| - i
  {
    hide TimerTick;
    hide Ticked;
    if i < |s.objects| {
      TimerTickMoves(s, i, time, o);
      TickTimersMove(TimerTick(s, i, time).value, i + 1, time, o);
    }
  }

  /** A kernel tick moves every timer's schedule by one tick, and logs a signal exactly when it was due. */
  lemma TickMovesSchedule(s: State, o: ObjId, time: nat)
    requires o < |s.objects| && s.objects[o].kind.Timer? && Tick(s, time).Ok?
    ensures var s' := Tick(s, time).value;
      var p := ScheduleOf(s.objects[o]);
      && o < |s'.objects| && s'.objects[o].kind.Timer? && ScheduleOf(s'.objects[o]) == Ticked(p, time)
      && Raises(s'.history, o) == Raises(s.history, o) + (if Due(p, time) then 1 else 0)
  {
    hide TickThreads;
    hide TickTimers;
    TickThreadsUnmoved(s, 0, time, o);
    TickTimersMove(TickThreads(s, 0, time).value, 0, time, o);
  }

  // ---------------------------------------------------------------- the other steps

  /** Timer `o` keeps its schedule and is not signalled. */
  ghost predicate Steady(s: State, s': State, o: ObjId) {
    && o < |s.objects| <= |s'.objects| && s.objects[o].kind.Timer? && s'.objects[o].kind.Timer?
    && ScheduleOf(s'.objects[o]) == ScheduleOf(s.objects[o])
    && Raises(s'.history, o) == Raises(s.history, o)
  }

  lemma LogSteady(s: State, e: Entry, o: ObjId)
    requires o < |s.objects| && s.objects[o].kind.Timer? && e != Signalled(o)
    ensures Steady(s, Log(s, e), o)
  {
    hide Wakes;
    hide Grants;
    hide Raises;
    Appended(s.history, e);
  }

  lemma {:induction false} WakeAllExpectUnmoved(s: State, ws: seq<Waker>, giver: ObjId, o: ObjId)
    requires o < |s.objects| && !s.objects[o].kind.Arbiter? && WakeAllExpect(s, ws, giver).Ok?
    ensures Unmoved(s, WakeAllExpect(s, ws, giver).value, o)
    decreases |ws|
  {
    hide Wake;
    if ws != [] {
      WakeUnmoved(s, ws[0], giver, o);
      WakeAllExpectUnmoved(Wake(s, ws[0], giver).value.state, ws[1..], giver, o);
    }
  }

  lemma WakeFrontSteady(s: State, x: ObjId, o: ObjId)
    requires x < |s.objects| && o < |s.objects| && s.objects[o].kind.Timer? && WakeFront(s, x).Ok?
    ensures Steady(s, WakeFront(s, x).value, o)
  {
    hide Wake;
    var obj := s.objects[x];
    if obj.queue != [] {
      WakeUnmoved(SetObj(s, x, obj.(queue := obj.queue[1..])), obj.queue[0], x, o);
    }
  }

  /** Taking and giving back an object, a timer included, moves no schedule. */
  lemma WaitOnSteady(s: State, x: ObjId, w: Waker, o: ObjId)
    requires x < |s.objects| && Synchronizable(s.objects[x]) && WaitOn(s, x, w).Ok?
    requires o < |s.objects| && s.objects[o].kind.Timer?
    ensures Steady(s, WaitOn(s, x, w).value, o)
  {
    hide Wake;
    if Available(s.objects[x].kind) {
      WakeUnmoved(SetKind(s, x, Take(s.objects[x].kind)), w, x, o);
    }
  }

  lemma {:induction false} WaitEachSteady(s: State, objs: seq<ObjId>, w: Waker, o: ObjId)
    requires forall i :: 0 <= i < |objs| ==> objs[i] < |s.objects|
    requires o < |s.objects| && s.objects[o].kind.Timer?
    ensures WaitEach(s, objs, w).Ok? ==> Steady(s, WaitEach(s, objs, w).value, o)
    decreases |objs|
  {
    hide WaitOn;
    if objs != [] && Synchronizable(s.objects[objs[0]]) && WaitOn(s, objs[0], w).Ok? {
      WaitOnSteady(s, objs[0], w, o);
      WaitEachSteady(WaitOn(s, objs[0], w).value, objs[1..], w, o);
    }
  }

  lemma WaitStepSteady(s: State, op: Op, o: ObjId)
    requires o < |s.objects| && s.objects[o].kind.Timer? && Apply(s, op).Ok?
    requires op.OpWait1? || op.OpWaitN? || op.OpSleep? || op.OpArbiterWait?
    ensures Steady(s, Apply(s, op).value, o)
  {
    hide WaitOn;
    hide WaitEach;
    match op
    case OpWait1(x, deadline) =>
      if x < |s.objects| && Synchronizable(s.objects[x]) {
        var r := Suspend(s, [x], deadline, WaitSync1).value;
        WaitOnSteady(r.state, x, r.waker, o);
      }
    case OpWaitN(objs, deadline) =>
      var r := Suspend(s, objs, deadline, WaitSyncN).value;
      WaitEachSteady(r.state, objs, r.waker, o);
    case OpSleep(_) =>
    case OpArbiterWait(_, _) =>
  }

  lemma SignalEventSteady(s: State, x: ObjId, o: ObjId)
    requires o < |s.objects| && s.objects[o].kind.Timer? && SignalEvent(s, x).Ok?
    ensures Steady(s, SignalEvent(s, x).value, o)
  {
    hide RaiseSignal;
    hide Raises;
    if x < |s.objects| && s.objects[x].kind.Event? {
      LogSteady(s, Signalled(x), o);
      RaiseMovesNothing(Log(s, Signalled(x)), x, o);
    }
  }

  lemma ReleaseSteady(s: State, x: ObjId, o: ObjId)
    requires o < |s.objects| && s.objects[o].kind.Timer? && ReleaseMutex(s, x).Ok?
    ensures Steady(s, ReleaseMutex(s, x).value, o)
  {
    hide Wake;
    hide Raises;
    if x < |s.objects| && s.objects[x].kind.Mutex? {
      var s1 := Log(s, Released(x, s.current.value));
      LogSteady(s, Released(x, s.current.value), o);
      if s.objects[x].queue != [] {
        WakeUnmoved(s1, s.objects[x].queue[0], x, o);
      }
    }
  }

  lemma ArbiterSteady(s: State, x: ObjId, amount: I32, addr: Address, o: ObjId)
    requires o < |s.objects| && s.objects[o].kind.Timer? && ArbiterSignal(s, x, amount, addr).Ok?
    ensures Steady(s, ArbiterSignal(s, x, amount, addr).value, o)
  {
    hide WakeAllExpect;
    hide DrainSlots;
    hide Raises;
    if x < |s.objects| && s.objects[x].kind.Arbiter? {
      var d := DrainSlots(s.objects[x].kind.slots, addr, SignalCount(amount));
      WakeAllExpectUnmoved(SetObj(s, x, s.objects[x].(kind := Arbiter(d.kept))), d.woken, x, o);
    }
  }

  lemma ClearAndSetSteady(s: State, x: ObjId, initial: int, interval: int, o: ObjId)
    requires o < |s.objects| && s.objects[o].kind.Timer?
    ensures Steady(s, ClearEvent(s, x), o)
    ensures x != o ==> Steady(s, SetTimer(s, x, initial, interval), o)
  {
    hide Raises;
  }

  lemma SignalStepSteady(s: State, op: Op, o: ObjId)
    requires o < |s.objects| && s.objects[o].kind.Timer? && Apply(s, op).Ok?
    requires op.OpSignalEvent? || op.OpInterrupt? || op.OpClearEvent? || op.OpReleaseMutex? || op.OpArbiterSignal?
      || (op.OpSetTimer? && op.obj != o)
    ensures Steady(s, Apply(s, op).value, o)
  {
    hide Steady;
    hide SignalEvent;
    hide ReleaseMutex;
    hide ArbiterSignal;
    hide ClearEvent;
    hide SetTimer;
    match op
    case OpSignalEvent(x) => SignalEventSteady(s, x, o);
    case OpInterrupt(x) => SignalEventSteady(s, x, o);
    case OpReleaseMutex(x) => ReleaseSteady(s, x, o);
    case OpArbiterSignal(x, amount, addr) => ArbiterSteady(s, x, amount, addr, o);
    case OpClearEvent(x) => ClearAndSetSteady(s, x, 0, 0, o);
    case OpSetTimer(x, initial, interval) => ClearAndSetSteady(s, x, initial, interval, o);
  }

  lemma IpcStepSteady(s: State, op: Op, o: ObjId)
    requires o < |s.objects| && s.objects[o].kind.Timer? && Apply(s, op).Ok?
    requires op.OpSendRequest? || op.OpReceive? || op.OpReply? || op.OpCreateSession? || op.OpAcceptSession?
    ensures Steady(s, Apply(s, op).value, o)
  {
    hide SendRequest;
    hide Reply;
    hide CreateSession;
    hide AcceptSession;
    match op
    case OpSendRequest(x) => SendRequestSteady(s, x, o);
    case OpReceive(_, _) =>
    case OpReply(x, image) => ReplySteady(s, x, image, o);
    case OpCreateSession(x) => CreateSessionSteady(s, x, o);
    case OpAcceptSession(x) => AcceptSessionSteady(s, x, o);
  }

  lemma SendRequestSteady(s: State, x: ObjId, o: ObjId)
    requires o < |s.objects| && s.objects[o].kind.Timer? && SendRequest(s, x).Ok?
    ensures Steady(s, SendRequest(s, x).value, o)
  {
    hide WakeFront;
    if x < |s.objects| && s.objects[x].kind.ClientSession? {
      var r := Suspend(s, [x], None, WaitSync1).value;
      var server := s.objects[x].kind.server;
      var s1 := Push(r.state, x, r.waker);
      var k := s1.objects[server].kind;
      WakeFrontSteady(SetKind(s1, server, k.(requests := k.requests + [r.waker.thread])), server, o);
    }
  }

  lemma ReplySteady(s: State, x: ObjId, image: seq<Bytes.Byte>, o: ObjId)
    requires o < |s.objects| && s.objects[o].kind.Timer? && Reply(s, x, image).Ok?
    ensures Steady(s, Reply(s, x, image).value, o)
  {
    hide WakeFront;
    if x < |s.objects| && s.objects[x].kind.ServerSession? {
      var k := s.objects[x].kind;
      var s1 := SetKind(s, x, k.(requests := k.requests[1..]));
      WakeFrontSteady(DeliverIpc(s1, s.current.value, k.requests[0], image).value, k.client, o);
    }
  }

  lemma CreateSessionSteady(s: State, x: ObjId, o: ObjId)
    requires o < |s.objects| && s.objects[o].kind.Timer? && CreateSession(s, x).Ok?
    ensures Steady(s, CreateSession(s, x).value, o)
  {
    hide WakeFront;
    if x < |s.objects| && s.objects[x].kind.ClientPort? {
      var id := |s.objects|;
      var server := s.objects[x].kind.server;
      var s1 := s.(objects := s.objects
        + [Object([], ServerSession([], id + 1, s.current.value)), Object([], ClientSession(id))]);
      var srv := s.objects[server];
      WakeFrontSteady(SetObj(s1, server, srv.(kind := srv.kind.(sessions := srv.kind.sessions + [id]))), server, o);
    }
  }

  lemma AcceptSessionSteady(s: State, x: ObjId, o: ObjId)
    requires o < |s.objects| && s.objects[o].kind.Timer? && AcceptSession(s, x).Ok?
    ensures Steady(s, AcceptSession(s, x).value, o)
  {
    hide WakeFront;
    if x < |s.objects| && s.objects[x].kind.ServerPort? && s.objects[x].kind.sessions != [] {
      var k := s.objects[x].kind;
      WakeFrontSteady(SetKind(s, x, k.(sessions := k.sessions[1..])), k.client, o);
    }
  }

  lemma ScheduleStepSteady(s: State, op: Op, o: ObjId)
    requires o < |s.objects| && s.objects[o].kind.Timer? && Apply(s, op).Ok?
    requires op.OpScheduleNext? || op.OpDispatch? || op.OpYield? || op.OpExit?
    ensures Steady(s, Apply(s, op).value, o)
  {
    hide WakeAll;
    if op.OpExit? {
      var t := s.current.value;
      var kobj := s.threads[t].kobj;
      var s1 := s.(threads := s.threads[t := s.threads[t].(state := Done)]);
      if !s.objects[kobj].kind.dead {
        WakeAllUnmoved(SetObj(s1, kobj, Object([], ThreadObj(true))), s.objects[kobj].queue, kobj, o);
      }
    }
  }

  lemma CreateStepSteady(s: State, op: Op, o: ObjId)
    requires o < |s.objects| && s.objects[o].kind.Timer? && Apply(s, op).Ok?
    requires op.OpCreateThread? || op.OpCreateEvent? || op.OpCreateTimer? || op.OpCreateMutex?
      || op.OpCreateArbiter? || op.OpCreatePort?
    ensures Steady(s, Apply(s, op).value, o)
  {
    if op.OpCreateMutex? && op.locked {
      LogSteady(NewObject(s, Object([], Mutex(true))), Locked(|s.objects|, s.current.value), o);
    }
  }

  /** No step but a tick or setting the timer itself moves its schedule or signals it. */
  lemma OtherStepSteady(s: State, op: Op, o: ObjId)
    requires o < |s.objects| && s.objects[o].kind.Timer? && Apply(s, op).Ok?
    requires !op.OpTick? && !(op.OpSetTimer? && op.obj == o)
    ensures Steady(s, Apply(s, op).value, o)
  {
    hide Apply;
    hide Steady;
    if op.OpWait1? || op.OpWaitN? || op.OpSleep? || op.OpArbiterWait? {
      WaitStepSteady(s, op, o);
    } else if op.OpSendRequest? || op.OpReceive? || op.OpReply? || op.OpCreateSession? || op.OpAcceptSession? {
      IpcStepSteady(s, op, o);
    } else if op.OpScheduleNext? || op.OpDispatch? || op.OpYield? || op.OpExit? {
      ScheduleStepSteady(s, op, o);
    } else if op.OpSignalEvent? || op.OpInterrupt? || op.OpClearEvent? || op.OpReleaseMutex? || op.OpArbiterSignal?
      || op.OpSetTimer? {
      SignalStepSteady(s, op, o);
    } else {
      CreateStepSteady(s, op, o);
    }
  }

  // ---------------------------------------------------------------- whole runs

  /** The times at which a run ticks. */
  function TickTimes(ops: seq<Op>): seq<nat> {
    if ops == [] then []
    else (if ops[0].OpTick? then [ops[0].time] else []) + TickTimes(ops[1..])
  }

  /** Nothing in the run sets the timer. */
  predicate LeftAlone(ops: seq<Op>, o: ObjId) {
    forall i :: 0 <= i < |ops| && ops[i].OpSetTimer? ==> ops[i].obj != o
  }

  /**
    Over every run, whatever else happens in it, a timer that is not set again is signalled exactly as
    often as its schedule fires at the run's ticks.
   */
  lemma {:induction false} SignalledAsScheduled(s: State, o: ObjId, ops: seq<Op>)
    requires o < |s.objects| && s.objects[o].kind.Timer? && LeftAlone(ops, o) && Run(s, ops).Ok?
    ensures Raises(Run(s, ops).value.history, o) ==
      Raises(s.history, o) + |FireTimes(ScheduleOf(s.objects[o]), TickTimes(ops))|
    decreases |ops|
  {
    if ops != [] {
      var s1 := Apply(s, ops[0]).value;
      if ops[0].OpTick? {
        TickMovesSchedule(s, o, ops[0].time);
        assert TickTimes(ops)[1..] == TickTimes(ops[1..]);
      } else {
        OtherStepSteady(s, ops[0], o);
        assert [] + TickTimes(ops[1..]) == TickTimes(ops[1..]);
      }
      hide Apply;
      SignalledAsScheduled(s1, o, ops[1..]);
    }
  }

  /**
    Over every run after one `set`: the first firing is at the first tick not before the initial time,
    a one-shot or sticky timer fires at most once, and a pulse timer's firings are at least one
    interval apart. The kernel signals the timer exactly at these firings.
   */
  lemma AfterSet(s: State, o: ObjId, initial: nat, interval: nat, ops: seq<Op>)
    requires o < |s.objects| && s.objects[o].kind.Timer? && LeftAlone(ops, o)
    requires s.objects[o].kind.signal.reset.Pulse? ==>
      forall i :: 0 <= i < |TickTimes(ops)| ==> TickTimes(ops)[i] + interval < KEYS
    requires Run(SetTimer(s, o, initial, interval), ops).Ok?
    ensures var s1 := SetTimer(s, o, initial, interval);
      var times := TickTimes(ops);
      && s1.objects[o].kind.Timer?
      && var fired := FireTimes(ScheduleOf(s1.objects[o]), times);
         && (fired == [] <==> FirstAtOrAfter(times, initial) == |times|)
         && (fired != [] ==> fired[0] == times[FirstAtOrAfter(times, initial)])
         && (if s.objects[o].kind.signal.reset.Pulse? then Spaced(fired, interval) else |fired| <= 1)
         && Raises(Run(s1, ops).value.history, o) == Raises(s.history, o) + |fired|
  {
    hide FireTimes;
    hide Run;
    hide TickTimes;
    var s1 := SetTimer(s, o, initial, interval);
    var p := ScheduleOf(s1.objects[o]);
    FirstFiring(p, TickTimes(ops));
    if p.reset.Pulse? {
      PulsesAreSpaced(p, TickTimes(ops));
    } else {
      FiresAtMostOnce(p, TickTimes(ops));
    }
    SignalledAsScheduled(s1, o, ops);
  }
}
