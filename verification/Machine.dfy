/**
  The kernel as one transition system: threads, waitable objects and the steps that change them.
  Threads and objects are identified by their position in creation order. Each step is a function
  that either yields the next state or reports the panic the code would raise.
 */
module Machine {
  import opened Outcomes
  import opened Bytes

  type ThreadId = nat
  type ObjId = nat
  type Address = Word

  /** Wake keys are 64-bit counters that wrap. */
  const KEYS: nat := 0x1_0000_0000_0000_0000
  type Key = k: int | 0 <= k < 0x1_0000_0000_0000_0000

  /** `wrapping_add(1)` */
  function KeyAfter(k: Key): (r: Key)
    ensures r != k
  {
    (k + 1) % KEYS
  }

  type I32 = x: int | -0x8000_0000 <= x < 0x8000_0000

  datatype ThreadState = Running | Ready | Paused | Waiting | Done
  datatype WaitType = WaitSync1 | WaitSyncN | WaitArbiter | WaitSleep
  datatype Resume = Normal | TimeoutReached | WokenBy(index: nat)

  datatype Waker = Waker(thread: ThreadId, key: Key)

  datatype Thread = Thread(
    state: ThreadState,
    waitObjects: seq<ObjId>,
    wakeKey: Key,
    deadline: Option<nat>,
    waitType: Option<WaitType>,
    resume: Resume,
    kobj: ObjId,
    ipcData: seq<Byte>)

  datatype ResetType = OneShot | Sticky | Pulse
  datatype Signal = Signal(reset: ResetType, signaled: bool)

  datatype Slot = Slot(waker: Waker, addr: Address)

  /**
    What an object holds besides its waker queue. An address arbiter keeps its wakers in `slots`, each
    with an address, and leaves the common queue empty. `creator` is a history variable: it records who
    asked for a session, and no step reads it.
   */
  datatype Kind =
    | Event(signal: Signal)
    | Timer(signal: Signal, nextNs: int, interval: int)
    | Mutex(acquired: bool)
    | Arbiter(slots: seq<Slot>)
    | ThreadObj(dead: bool)
    | ServerPort(sessions: seq<ObjId>, client: ObjId)
    | ClientPort(server: ObjId)
    | ServerSession(requests: seq<ThreadId>, client: ObjId, creator: ThreadId)
    | ClientSession(server: ObjId)

  datatype Object = Object(queue: seq<Waker>, kind: Kind)

  /** The history of a run, used only to state properties; no step reads it. */
  datatype Entry =
    | Woken(waker: Waker, cause: Option<ObjId>)   // `None` is a timeout
    | Signalled(obj: ObjId)
    | Locked(obj: ObjId, owner: ThreadId)
    | Released(obj: ObjId, owner: ThreadId)

  datatype State = State(
    threads: seq<Thread>,
    objects: seq<Object>,
    current: Option<ThreadId>,
    next: Option<ThreadId>,
    history: seq<Entry>)

  const Initial := State([], [], None, None, [])

  // ---------------------------------------------------------------- queues

  function WakersOf(slots: seq<Slot>): (r: seq<Waker>)
    ensures |r| == |slots|
    ensures forall i :: 0 <= i < |slots| ==> r[i] == slots[i].waker
  {
    seq(|slots|, i requires 0 <= i < |slots| => slots[i].waker)
  }

  /** The wakers an object holds, oldest first. */
  function Queue(o: Object): seq<Waker> {
    if o.kind.Arbiter? then WakersOf(o.kind.slots) else o.queue
  }

  /** `retain(|waker| !waker.check_opaque_id(id))` */
  function PurgeQueue(q: seq<Waker>, t: ThreadId): (r: seq<Waker>)
    ensures |r| <= |q|
    ensures forall w :: w in r <==> w in q && w.thread != t
    ensures (forall w :: w in q ==> w.thread != t) ==> r == q
  {
    if q == [] then []
    else
      assert forall w :: w in q <==> w == q[0] || w in q[1..];
      assert q == [q[0]] + q[1..];
      var rest := PurgeQueue(q[1..], t);
      if q[0].thread == t then rest else [q[0]] + rest
  }

  lemma WakersTail(slots: seq<Slot>)
    requires slots != []
    ensures WakersOf(slots)[0] == slots[0].waker && WakersOf(slots)[1..] == WakersOf(slots[1..])
  {
  }

  lemma WakersCons(x: Slot, slots: seq<Slot>)
    ensures WakersOf([x] + slots) == [x.waker] + WakersOf(slots)
  {
  }

  function PurgeSlots(slots: seq<Slot>, t: ThreadId): (r: seq<Slot>)
    ensures WakersOf(r) == PurgeQueue(WakersOf(slots), t)
  {
    if slots == [] then []
    else
      var rest := PurgeSlots(slots[1..], t);
      WakersTail(slots);
      WakersCons(slots[0], rest);
      if slots[0].waker.thread == t then rest else [slots[0]] + rest
  }

  /** `remove_wakers_by_opaque_id` on any object. */
  function Purge(o: Object, t: ThreadId): (r: Object)
    ensures Queue(r) == PurgeQueue(Queue(o), t)
  {
    if o.kind.Arbiter? then o.(kind := Arbiter(PurgeSlots(o.kind.slots, t))) else o.(queue := PurgeQueue(o.queue, t))
  }

  function PurgeWaited(objects: seq<Object>, waited: seq<ObjId>, t: ThreadId): (r: seq<Object>)
    ensures |r| == |objects|
  {
    seq(|objects|, i requires 0 <= i < |objects| =>
      if i in waited then Purge(objects[i], t) else objects[i])
  }

  function SetObj(s: State, o: ObjId, obj: Object): State
    requires o < |s.objects|
  {
    s.(objects := s.objects[o := obj])
  }

  function Push(s: State, o: ObjId, w: Waker): State
    requires o < |s.objects|
  {
    SetObj(s, o, s.objects[o].(queue := s.objects[o].queue + [w]))
  }

  function Log(s: State, e: Entry): State {
    s.(history := s.history + [e])
  }

  // ---------------------------------------------------------------- suspending and waking

  /** The position of the first occurrence. */
  function IndexOf(objs: seq<ObjId>, o: ObjId): (i: nat)
    requires o in objs
    ensures i < |objs| && objs[i] == o
    ensures forall j :: 0 <= j < i ==> objs[j] != o
  {
    if objs[0] == o then 0 else 1 + IndexOf(objs[1..], o)
  }

  function ResumeValue(th: Thread, cause: Option<ObjId>): Outcome<Resume> {
    match th.waitType
    case None => Panic(BadWaitType)
    case Some(WaitSleep) => if cause.None? then Ok(Normal) else Panic(ObjectWokeSleeper)
    case Some(WaitSyncN) =>
      if cause.None? then Ok(TimeoutReached)
      else if cause.value in th.waitObjects then Ok(WokenBy(IndexOf(th.waitObjects, cause.value)))
      else Panic(UnknownWakeObject)
    case Some(_) => Ok(if cause.None? then TimeoutReached else Normal)
  }

  /** `CommonThread::wake_up`: bump the key, fix the resume value, purge every awaited queue. */
  function WakeUp(s: State, t: ThreadId, cause: Option<ObjId>): (r: Outcome<State>)
    requires t < |s.threads|
    ensures r.Ok? ==> |r.value.threads| == |s.threads| && |r.value.objects| == |s.objects|
  {
    var th := s.threads[t];
    var resume :- ResumeValue(th, cause);
    var woken := th.(
      state := Ready, wakeKey := KeyAfter(th.wakeKey), resume := resume, waitObjects := []);
    Ok(State(
      s.threads[t := woken],
      PurgeWaited(s.objects, th.waitObjects, t),
      s.current,
      s.next,
      s.history + [Woken(Waker(t, th.wakeKey), cause)]))
  }

  datatype Woke = Woke(state: State, success: bool)

  /** `Waker::wake`: succeeds exactly when the key is still the thread's own. */
  function Wake(s: State, w: Waker, o: ObjId): (r: Outcome<Woke>)
    ensures r.Ok? ==> |r.value.state.threads| == |s.threads| && |r.value.state.objects| == |s.objects|
  {
    if w.thread >= |s.threads| then Panic(NoSuchThread)
    else if s.threads[w.thread].wakeKey == w.key then
      var s' :- WakeUp(s, w.thread, Some(o));
      Ok(Woke(s', true))
    else
      Ok(Woke(s, false))
  }

  /** `wake(..).expect("Failed to wake up thread")` */
  function WakeExpect(s: State, w: Waker, o: ObjId): (r: Outcome<State>)
    ensures r.Ok? ==> |r.value.threads| == |s.threads| && |r.value.objects| == |s.objects|
  {
    var r :- Wake(s, w, o);
    if r.success then Ok(r.state) else Panic(WakeFailed)
  }

  /** Wake every waker of a drained queue, ignoring the ones that are no longer valid. */
  function WakeAll(s: State, ws: seq<Waker>, o: ObjId): (r: Outcome<State>)
    ensures r.Ok? ==> |r.value.threads| == |s.threads| && |r.value.objects| == |s.objects|
    decreases |ws|
  {
    if ws == [] then Ok(s)
    else
      var r :- Wake(s, ws[0], o);
      WakeAll(r.state, ws[1..], o)
  }

  /** Wake every waker of a drained queue; each of them must still be valid. */
  function WakeAllExpect(s: State, ws: seq<Waker>, o: ObjId): (r: Outcome<State>)
    ensures r.Ok? ==> |r.value.threads| == |s.threads| && |r.value.objects| == |s.objects|
    decreases |ws|
  {
    if ws == [] then Ok(s)
    else
      var s' :- WakeExpect(s, ws[0], o);
      WakeAllExpect(s', ws[1..], o)
  }

  /** `wake_thread` of ports and sessions: pop the oldest waker, if any, and wake it. */
  function WakeFront(s: State, o: ObjId): (r: Outcome<State>)
    requires o < |s.objects|
    ensures r.Ok? ==> |r.value.threads| == |s.threads| && |r.value.objects| == |s.objects|
  {
    var obj := s.objects[o];
    if obj.queue == [] then Ok(s)
    else WakeExpect(SetObj(s, o, obj.(queue := obj.queue[1..])), obj.queue[0], o)
  }

  datatype Suspended = Suspended(state: State, waker: Waker)

  /** `suspend_thread`: only a Running current thread can be suspended. */
  function Suspend(s: State, objs: seq<ObjId>, deadline: Option<nat>, kind: WaitType): (r: Outcome<Suspended>)
    ensures r.Ok? ==> r.value.state.objects == s.objects && |r.value.state.threads| == |s.threads|
    ensures r.Ok? ==> r.value.waker.thread < |s.threads|
  {
    if s.current.None? then Panic(NoCurrentThread)
    else if s.current.value >= |s.threads| then Panic(NoSuchThread)
    else
      var t := s.current.value;
      var th := s.threads[t];
      if th.state != Running then Panic(NotRunning)
      else
        var th' := th.(state := Waiting, waitObjects := objs, deadline := deadline, waitType := Some(kind));
        Ok(Suspended(s.(threads := s.threads[t := th']), Waker(t, th.wakeKey)))
  }

  // ---------------------------------------------------------------- waiting on an object

  predicate Synchronizable(o: Object) {
    !o.kind.Arbiter?
  }

  predicate HasSignal(o: Object) {
    o.kind.Event? || o.kind.Timer?
  }

  function WithSignal(o: Object, sig: Signal): (r: Object)
    ensures Queue(r) == Queue(o)
  {
    match o.kind
    case Event(_) => o.(kind := Event(sig))
    case Timer(_, nextNs, interval) => o.(kind := Timer(sig, nextNs, interval))
    case _ => o
  }

  function Consume(sig: Signal): Signal {
    if sig.reset.Sticky? then sig else sig.(signaled := false)
  }

  /** Would a wait on such an object succeed at once? */
  predicate Available(k: Kind) {
    match k
    case Event(sig) => sig.signaled
    case Timer(sig, _, _) => sig.signaled
    case Mutex(acquired) => !acquired
    case ThreadObj(dead) => dead
    case _ => false
  }

  /** The object as a successful wait leaves it. */
  function Take(k: Kind): (r: Kind)
    requires Available(k)
    ensures !r.Arbiter?
  {
    match k
    case Event(sig) => Event(Consume(sig))
    case Timer(sig, nextNs, interval) => Timer(Consume(sig), nextNs, interval)
    case Mutex(_) => Mutex(true)
    case _ => k
  }

  /** What a wait undoes when the waiter turned out to be awake already. */
  function GiveBack(k: Kind): (r: Kind)
    ensures r.Arbiter? == k.Arbiter?
  {
    match k
    case Event(sig) => Event(sig.(signaled := true))
    case Timer(sig, nextNs, interval) => Timer(sig.(signaled := true), nextNs, interval)
    case Mutex(_) => Mutex(false)
    case _ => k
  }

  function SetKind(s: State, o: ObjId, k: Kind): State
    requires o < |s.objects|
  {
    SetObj(s, o, s.objects[o].(kind := k))
  }

  /** `KSynchronizationObject::wait` of every waitable object. */
  function WaitOn(s: State, o: ObjId, w: Waker): (r: Outcome<State>)
    requires o < |s.objects| && Synchronizable(s.objects[o])
    ensures r.Ok? ==> |r.value.threads| == |s.threads| && |r.value.objects| == |s.objects|
  {
    if Available(s.objects[o].kind) then
      var r :- Wake(SetKind(s, o, Take(s.objects[o].kind)), w, o);
      Ok(if r.success then r.state else SetKind(r.state, o, GiveBack(r.state.objects[o].kind)))
    else
      Ok(Push(s, o, w))
  }

  /** The loop of WaitSynchronizationN, as written: it does not stop when a wait succeeds. */
  function WaitEach(s: State, objs: seq<ObjId>, w: Waker): (r: Outcome<State>)
    requires forall i :: 0 <= i < |objs| ==> objs[i] < |s.objects|
    ensures r.Ok? ==> |r.value.threads| == |s.threads| && |r.value.objects| == |s.objects|
    decreases |objs|
  {
    if objs == [] then Ok(s)
    else if !Synchronizable(s.objects[objs[0]]) then Panic(NotSynchronizable)
    else
      var s' :- WaitOn(s, objs[0], w);
      WaitEach(s', objs[1..], w)
  }

  function Wait1(s: State, o: ObjId, deadline: Option<nat>): Outcome<State> {
    if o >= |s.objects| || !Synchronizable(s.objects[o]) then Ok(s)
    else
      var r :- Suspend(s, [o], deadline, WaitSync1);
      WaitOn(r.state, o, r.waker)
  }

  function WaitN(s: State, objs: seq<ObjId>, deadline: Option<nat>): Outcome<State> {
    if exists i :: 0 <= i < |objs| && objs[i] >= |s.objects| then Panic(NullObject)
    else
      var r :- Suspend(s, objs, deadline, WaitSyncN);
      WaitEach(r.state, objs, r.waker)
  }

  function SleepThread(s: State, deadline: Option<nat>): Outcome<State> {
    var r :- Suspend(s, [], deadline, WaitSleep);
    Ok(r.state)
  }

  // ---------------------------------------------------------------- events, timers, mutexes

  /** The part shared by `EventImpl::signal` and a firing timer. */
  function RaiseSignal(s: State, o: ObjId): (r: Outcome<State>)
    requires o < |s.objects| && HasSignal(s.objects[o])
    ensures r.Ok? ==> |r.value.threads| == |s.threads| && |r.value.objects| == |s.objects|
  {
    var obj := s.objects[o];
    var raised := WithSignal(obj, obj.kind.signal.(signaled := true));
    if obj.kind.signal.reset.Sticky? then
      WakeAll(SetObj(s, o, raised.(queue := [])), obj.queue, o)
    else if obj.queue == [] then
      Ok(SetObj(s, o, raised))
    else
      var s' :- WakeExpect(SetObj(s, o, raised), obj.queue[0], o);
      Ok(ResetSignal(s', o))
  }

  function ResetSignal(s: State, o: ObjId): State
    requires o < |s.objects|
  {
    var obj := s.objects[o];
    if HasSignal(obj) then SetObj(s, o, WithSignal(obj, obj.kind.signal.(signaled := false))) else s
  }

  function SignalEvent(s: State, o: ObjId): Outcome<State> {
    if o >= |s.objects| || !s.objects[o].kind.Event? then Ok(s)
    else RaiseSignal(Log(s, Signalled(o)), o)
  }

  function ClearEvent(s: State, o: ObjId): State {
    if o >= |s.objects| || !s.objects[o].kind.Event? then s else ResetSignal(s, o)
  }

  const I64: int := 0x8000_0000_0000_0000

  /** A 64-bit unsigned value reinterpreted as signed. */
  function AsI64(x: int): int {
    var u := x % KEYS;
    if u < I64 then u else u - KEYS
  }

  /** When a timer is going to fire, apart from whom it wakes. */
  datatype Schedule = Schedule(reset: ResetType, nextNs: int, interval: int)

  function ScheduleOf(o: Object): Schedule
    requires o.kind.Timer?
  {
    Schedule(o.kind.signal.reset, o.kind.nextNs, o.kind.interval)
  }

  predicate Due(p: Schedule, time: nat) {
    p.nextNs >= 0 && p.interval >= 0 && p.nextNs <= time
  }

  /** A schedule after one tick: a due Pulse timer is armed again from now, any other due one is disarmed. */
  function Ticked(p: Schedule, time: nat): Schedule {
    if !Due(p, time) then p
    else if p.reset.Pulse? then p.(nextNs := AsI64(time + p.interval))
    else p.(nextNs := -1, interval := -1)
  }

  predicate TimerDue(o: Object, time: nat) {
    o.kind.Timer? && Due(ScheduleOf(o), time)
  }

  function Rearm(o: Object, time: nat): Object
    requires o.kind.Timer?
  {
    var p := Ticked(ScheduleOf(o), time);
    o.(kind := Timer(o.kind.signal, p.nextNs, p.interval))
  }

  function SetTimer(s: State, o: ObjId, initial: int, interval: int): State {
    if o >= |s.objects| || !s.objects[o].kind.Timer? then s
    else SetObj(s, o, s.objects[o].(kind := Timer(s.objects[o].kind.signal, initial, interval)))
  }

  function TimerTick(s: State, o: ObjId, time: nat): (r: Outcome<State>)
    requires o < |s.objects|
    ensures r.Ok? ==> |r.value.threads| == |s.threads| && |r.value.objects| == |s.objects|
  {
    if !TimerDue(s.objects[o], time) then Ok(s)
    else RaiseSignal(SetObj(Log(s, Signalled(o)), o, Rearm(s.objects[o], time)), o)
  }

  function ReleaseMutex(s: State, o: ObjId): Outcome<State> {
    if s.current.None? then Panic(NoCurrentThread)
    else if o >= |s.objects| || !s.objects[o].kind.Mutex? then Ok(s)
    else
      var obj := s.objects[o];
      var s1 := Log(s, Released(o, s.current.value));
      if obj.queue != [] then WakeExpect(s1, obj.queue[0], o)
      else Ok(SetObj(s1, o, obj.(kind := Mutex(false))))
  }

  // ---------------------------------------------------------------- address arbiters

  /** The counter value that means "wake every waiter". */
  const UNLIMITED: nat := 0xFFFF_FFFF

  datatype Drain = Drain(woken: seq<Waker>, kept: seq<Slot>)

  /** `drain_filter` with a counter that only decreases while it is not the unlimited value. */
  function DrainSlots(slots: seq<Slot>, addr: Address, count: nat): Drain {
    if slots == [] then Drain([], [])
    else if slots[0].addr == addr && count > 0 then
      var d := DrainSlots(slots[1..], addr, if count != UNLIMITED then count - 1 else count);
      Drain([slots[0].waker] + d.woken, d.kept)
    else
      var d := DrainSlots(slots[1..], addr, count);
      Drain(d.woken, [slots[0]] + d.kept)
  }

  function SignalCount(amount: I32): (n: nat)
    ensures n <= UNLIMITED
  {
    if amount < 0 then UNLIMITED else amount
  }

  function ArbiterSignal(s: State, o: ObjId, amount: I32, addr: Address): Outcome<State> {
    if o >= |s.objects| || !s.objects[o].kind.Arbiter? then Ok(s)
    else
      var d := DrainSlots(s.objects[o].kind.slots, addr, SignalCount(amount));
      WakeAllExpect(SetObj(s, o, s.objects[o].(kind := Arbiter(d.kept))), d.woken, o)
  }

  function ArbiterWait(s: State, o: ObjId, addr: Address): Outcome<State> {
    if o >= |s.objects| || !s.objects[o].kind.Arbiter? then Ok(s)
    else
      var r :- Suspend(s, [o], None, WaitArbiter);
      Ok(SetObj(r.state, o, s.objects[o].(kind := Arbiter(s.objects[o].kind.slots + [Slot(r.waker, addr)]))))
  }

  // ---------------------------------------------------------------- sessions

  function SendRequest(s: State, o: ObjId): Outcome<State> {
    if o >= |s.objects| || !s.objects[o].kind.ClientSession? then Ok(s)
    else
      var r :- Suspend(s, [o], None, WaitSync1);
      var server := s.objects[o].kind.server;
      if server >= |s.objects| || !s.objects[server].kind.ServerSession? then Panic(Disconnected)
      else
        var s1 := Push(r.state, o, r.waker);
        var srv := s1.objects[server];
        WakeFront(SetObj(s1, server, srv.(kind := srv.kind.(requests := srv.kind.requests + [r.waker.thread]))), server)
  }

  /** `translate_ipc` as the wake-up protocol sees it: one thread's message area receives `image`. */
  function DeliverIpc(s: State, src: ThreadId, dest: ThreadId, image: seq<Byte>): (r: Outcome<State>)
    ensures r.Ok? ==> |r.value.threads| == |s.threads| && r.value.objects == s.objects
  {
    if src == dest || src >= |s.threads| || dest >= |s.threads| then Panic(NoSuchThread)
    else Ok(s.(threads := s.threads[dest := s.threads[dest].(ipcData := image)]))
  }

  function Receive(s: State, o: ObjId, image: seq<Byte>): Outcome<State> {
    if s.current.None? then Panic(NoCurrentThread)
    else if o >= |s.objects| || !s.objects[o].kind.ServerSession? then Ok(s)
    else if s.objects[o].kind.requests == [] then Ok(s)
    else DeliverIpc(s, s.objects[o].kind.requests[0], s.current.value, image)
  }

  function Reply(s: State, o: ObjId, image: seq<Byte>): Outcome<State> {
    if s.current.None? then Panic(NoCurrentThread)
    else if o >= |s.objects| || !s.objects[o].kind.ServerSession? then Ok(s)
    else
      var srv := s.objects[o];
      if srv.kind.requests == [] then Panic(RepliedToNobody)
      else
        var s1 := SetObj(s, o, srv.(kind := srv.kind.(requests := srv.kind.requests[1..])));
        var s2 :- DeliverIpc(s1, s.current.value, srv.kind.requests[0], image);
        if srv.kind.client >= |s.objects| || !s.objects[srv.kind.client].kind.ClientSession? then Panic(Disconnected)
        else WakeFront(s2, srv.kind.client)
  }

  // ---------------------------------------------------------------- ports

  /** `create_session_to_port`: queue a new session at the server, then wait on the client port. */
  function CreateSession(s: State, o: ObjId): Outcome<State> {
    if s.current.None? then Panic(NoCurrentThread)
    else if o >= |s.objects| || !s.objects[o].kind.ClientPort? then Ok(s)
    else
      var id := |s.objects|;
      var server := s.objects[o].kind.server;
      if server >= |s.objects| || !s.objects[server].kind.ServerPort? then Panic(Disconnected)
      else
        var s1 := s.(objects := s.objects + [Object([], ServerSession([], id + 1, s.current.value)), Object([], ClientSession(id))]);
        var srv := s.objects[server];
        var s2 :- WakeFront(SetObj(s1, server, srv.(kind := srv.kind.(sessions := srv.kind.sessions + [id]))), server);
        var r :- Suspend(s2, [o], None, WaitSync1);
        Ok(Push(r.state, o, r.waker))
  }

  /** `accept_session`: take the oldest pending session and wake its creator, or wait for one. */
  function AcceptSession(s: State, o: ObjId): Outcome<State> {
    if s.current.None? then Panic(NoCurrentThread)
    else if o >= |s.objects| || !s.objects[o].kind.ServerPort? then Ok(s)
    else
      var srv := s.objects[o];
      if srv.kind.sessions == [] then
        var r :- Suspend(s, [o], None, WaitSync1);
        Ok(Push(r.state, o, r.waker))
      else if srv.kind.client >= |s.objects| || !s.objects[srv.kind.client].kind.ClientPort? then Panic(Disconnected)
      else WakeFront(SetObj(s, o, srv.(kind := srv.kind.(sessions := srv.kind.sessions[1..]))), srv.kind.client)
  }

  // ---------------------------------------------------------------- creation, scheduling, time

  function NewObject(s: State, obj: Object): State {
    s.(objects := s.objects + [obj])
  }

  function CreateMutex(s: State, locked: bool): Outcome<State> {
    if s.current.None? then Panic(NoCurrentThread)
    else
      var s1 := NewObject(s, Object([], Mutex(locked)));
      Ok(if locked then Log(s1, Locked(|s.objects|, s.current.value)) else s1)
  }

  function CreatePort(s: State): State {
    var id := |s.objects|;
    s.(objects := s.objects + [Object([], ServerPort([], id + 1)), Object([], ClientPort(id))])
  }

  function CreateThread(s: State): State {
    var th := Thread(Ready, [], 0, None, None, Normal, |s.objects|, seq(256, _ => 0));
    s.(threads := s.threads + [th], objects := s.objects + [Object([], ThreadObj(false))])
  }

  /** `next_thread`: the first Ready thread. */
  function FirstReady(threads: seq<Thread>, i: nat): (r: Option<ThreadId>)
    requires i <= |threads|
    ensures r.None? ==> forall t :: i <= t < |threads| ==> threads[t].state != Ready
    ensures r.Some? ==> i <= r.value < |threads| && threads[r.value].state == Ready
    ensures r.Some? ==> forall t :: i <= t < r.value ==> threads[t].state != Ready
    decreases |threads| - i
  {
    if i == |threads| then None
    else if threads[i].state == Ready then Some(i)
    else FirstReady(threads, i + 1)
  }

  /** `run_next` up to the point where the chosen thread resumes. */
  function Dispatch(s: State): Outcome<State> {
    var s1 := s.(next := None);
    var chosen := if s.next.Some? then s.next else FirstReady(s.threads, 0);
    match chosen
    case None => Ok(s1)
    case Some(t) =>
      if t >= |s.threads| then Panic(NoSuchThread)
      else if s.threads[t].state != Ready then Panic(NotReady)
      else Ok(s1.(threads := s.threads[t := s.threads[t].(state := Running, resume := Normal)], current := Some(t)))
  }

  /** The tail of `run_thread`. */
  function Yield(s: State): Outcome<State> {
    match s.current
    case None => Panic(NoCurrentThread)
    case Some(t) =>
      if t >= |s.threads| then Panic(NoSuchThread)
      else
        var th := s.threads[t];
        var th' := if th.state == Running then th.(state := Ready) else th;
        Ok(s.(threads := s.threads[t := th'], current := None))
  }

  /** `exit_thread`, and `on_death` of its thread object. */
  function Exit(s: State): Outcome<State> {
    match s.current
    case None => Panic(NoCurrentThread)
    case Some(t) =>
      if t >= |s.threads| then Panic(NoSuchThread)
      else
        var th := s.threads[t];
        var s1 := s.(threads := s.threads[t := th.(state := Done)]);
        if th.kobj >= |s.objects| || !s.objects[th.kobj].kind.ThreadObj? then Panic(Disconnected)
        else
          var obj := s.objects[th.kobj];
          if obj.kind.dead then Ok(s1)
          else WakeAll(SetObj(s1, th.kobj, Object([], ThreadObj(true))), obj.queue, th.kobj)
  }

  predicate Expired(th: Thread, time: nat) {
    th.state == Waiting && th.deadline.Some? && th.deadline.value <= time
  }

  function TickThreads(s: State, i: nat, time: nat): (r: Outcome<State>)
    requires i <= |s.threads|
    ensures r.Ok? ==> |r.value.threads| == |s.threads| && |r.value.objects| == |s.objects|
    decreases |s.threads| - i
  {
    if i == |s.threads| then Ok(s)
    else if Expired(s.threads[i], time) then
      var s' :- WakeUp(s, i, None);
      TickThreads(s', i + 1, time)
    else TickThreads(s, i + 1, time)
  }

  function TickTimers(s: State, i: nat, time: nat): (r: Outcome<State>)
    requires i <= |s.objects|
    ensures r.Ok? ==> |r.value.threads| == |s.threads| && |r.value.objects| == |s.objects|
    decreases |s.objects| - i
  {
    if i == |s.objects| then Ok(s)
    else
      var s' :- TimerTick(s, i, time);
      TickTimers(s', i + 1, time)
  }

  function Tick(s: State, time: nat): Outcome<State> {
    var s' :- TickThreads(s, 0, time);
    TickTimers(s', 0, time)
  }

  // ---------------------------------------------------------------- steps and runs

  datatype Op =
    | OpCreateThread
    | OpCreateEvent(reset: ResetType)
    | OpCreateTimer(reset: ResetType)
    | OpCreateMutex(locked: bool)
    | OpCreateArbiter
    | OpCreatePort
    | OpScheduleNext(thread: ThreadId)
    | OpDispatch
    | OpYield
    | OpExit
    | OpWait1(obj: ObjId, deadline: Option<nat>)
    | OpWaitN(objs: seq<ObjId>, deadline: Option<nat>)
    | OpSleep(deadline: Option<nat>)
    | OpArbiterWait(obj: ObjId, addr: Address)
    | OpArbiterSignal(obj: ObjId, amount: I32, addr: Address)
    | OpSignalEvent(obj: ObjId)
    | OpInterrupt(obj: ObjId)
    | OpClearEvent(obj: ObjId)
    | OpSetTimer(obj: ObjId, initial: int, interval: int)
    | OpReleaseMutex(obj: ObjId)
    | OpSendRequest(obj: ObjId)
    | OpReceive(obj: ObjId, image: seq<Byte>)
    | OpReply(obj: ObjId, image: seq<Byte>)
    | OpCreateSession(obj: ObjId)
    | OpAcceptSession(obj: ObjId)
    | OpTick(time: nat)

  function Apply(s: State, op: Op): Outcome<State> {
    match op
    case OpCreateThread => Ok(CreateThread(s))
    case OpCreateEvent(reset) => Ok(NewObject(s, Object([], Event(Signal(reset, false)))))
    case OpCreateTimer(reset) => Ok(NewObject(s, Object([], Timer(Signal(reset, false), -1, -1))))
    case OpCreateMutex(locked) => CreateMutex(s, locked)
    case OpCreateArbiter => Ok(NewObject(s, Object([], Arbiter([]))))
    case OpCreatePort => Ok(CreatePort(s))
    case OpScheduleNext(t) => Ok(s.(next := Some(t)))
    case OpDispatch => Dispatch(s)
    case OpYield => Yield(s)
    case OpExit => Exit(s)
    case OpWait1(o, deadline) => Wait1(s, o, deadline)
    case OpWaitN(objs, deadline) => WaitN(s, objs, deadline)
    case OpSleep(deadline) => SleepThread(s, deadline)
    case OpArbiterWait(o, addr) => ArbiterWait(s, o, addr)
    case OpArbiterSignal(o, amount, addr) => ArbiterSignal(s, o, amount, addr)
    case OpSignalEvent(o) => SignalEvent(s, o)
    case OpInterrupt(o) => SignalEvent(s, o)
    case OpClearEvent(o) => Ok(ClearEvent(s, o))
    case OpSetTimer(o, initial, interval) => Ok(SetTimer(s, o, initial, interval))
    case OpReleaseMutex(o) => ReleaseMutex(s, o)
    case OpSendRequest(o) => SendRequest(s, o)
    case OpReceive(o, image) => Receive(s, o, image)
    case OpReply(o, image) => Reply(s, o, image)
    case OpCreateSession(o) => CreateSession(s, o)
    case OpAcceptSession(o) => AcceptSession(s, o)
    case OpTick(time) => Tick(s, time)
  }

  /** A whole run: the steps in order, up to the first panic. */
  function Run(s: State, ops: seq<Op>): Outcome<State>
    decreases |ops|
  {
    if ops == [] then Ok(s)
    else
      var s' :- Apply(s, ops[0]);
      Run(s', ops[1..])
  }
}
