/**
  What holds in every run whatever the callers do, including WaitSynchronizationN on unsafe lists:
  a suspension ends at most once, a signalled object has no waiters, an event or timer never grants
  more waits than it was signalled, and a mutex that only its holders release has at most one holder.
 */
module History {
  import opened Outcomes
  import opened Machine
  import Bytes

  // ---------------------------------------------------------------- counting

  /** How often thread `t` has been woken. */
  ghost function Wakes(h: seq<Entry>, t: ThreadId): nat {
    if h == [] then 0
    else Wakes(h[..|h| - 1], t) + (if h[|h| - 1].Woken? && h[|h| - 1].waker.thread == t then 1 else 0)
  }

  /** How many waits object `o` has granted. */
  ghost function Grants(h: seq<Entry>, o: ObjId): nat {
    if h == [] then 0
    else Grants(h[..|h| - 1], o) + (if h[|h| - 1].Woken? && h[|h| - 1].cause == Some(o) then 1 else 0)
  }

  /** How often object `o` has been signalled. */
  ghost function Raises(h: seq<Entry>, o: ObjId): nat {
    if h == [] then 0
    else Raises(h[..|h| - 1], o) + (if h[|h| - 1] == Signalled(o) then 1 else 0)
  }

  /** The threads that hold mutex `o`: those it was granted to or created by, minus those that released it. */
  ghost function Owners(h: seq<Entry>, o: ObjId): multiset<ThreadId> {
    if h == [] then multiset{}
    else OwnersAfter(Owners(h[..|h| - 1], o), h[|h| - 1], o)
  }

  /** So far mutex `o` was released only by threads that held it. */
  ghost predicate Fair(h: seq<Entry>, o: ObjId) {
    h == []
    || (Fair(h[..|h| - 1], o)
        && (h[|h| - 1].Released? && h[|h| - 1].obj == o ==> h[|h| - 1].owner in Owners(h[..|h| - 1], o)))
  }

  /** What one entry does to the holders of a mutex. */
  ghost function OwnersAfter(before: multiset<ThreadId>, e: Entry, o: ObjId): multiset<ThreadId> {
    match e
    case Woken(w, Some(giver)) => if giver == o then before + multiset{w.thread} else before
    case Locked(m, t) => if m == o then before + multiset{t} else before
    case Released(m, t) => if m == o then before - multiset{t} else before
    case _ => before
  }

  lemma OwnersAppended(h: seq<Entry>, e: Entry, o: ObjId)
    ensures Owners(h + [e], o) == OwnersAfter(Owners(h, o), e, o)
    ensures Fair(h + [e], o) <==> Fair(h, o) && (e.Released? && e.obj == o ==> e.owner in Owners(h, o))
  {
    assert (h + [e])[..|h|] == h;
  }

  lemma Appended(h: seq<Entry>, e: Entry)
    ensures forall t: ThreadId :: Wakes(h + [e], t) == Wakes(h, t) + (if e.Woken? && e.waker.thread == t then 1 else 0)
    ensures forall o: ObjId :: Grants(h + [e], o) == Grants(h, o) + (if e.Woken? && e.cause == Some(o) then 1 else 0)
    ensures forall o: ObjId :: Raises(h + [e], o) == Raises(h, o) + (if e == Signalled(o) then 1 else 0)
  {
    assert (h + [e])[..|h|] == h;
  }

  // ---------------------------------------------------------------- the invariant

  /** A thread's key counts its wake-ups, and each entry records the key it used up. */
  ghost predicate KeysCount(s: State) {
    && (forall t :: 0 <= t < |s.threads| ==> s.threads[t].wakeKey == Wakes(s.history, t) % KEYS)
    && (forall t :: t >= |s.threads| ==> Wakes(s.history, t) == 0)
    && (forall i :: 0 <= i < |s.history| && s.history[i].Woken? ==>
          s.history[i].waker.key == Wakes(s.history[..i], s.history[i].waker.thread) % KEYS)
  }

  /** An object that can be taken at once has nobody waiting for it. */
  predicate LatchOk(o: Object) {
    Available(o.kind) ==> o.queue == []
  }

  predicate Counted(k: Kind) {
    (k.Event? || k.Timer?) && !k.signal.reset.Sticky?
  }

  /** The history accounts for the state of the object. */
  ghost predicate Balanced(s: State, o: ObjId)
    requires o < |s.objects|
  {
    && (Counted(s.objects[o].kind) ==>
          Grants(s.history, o) + (if s.objects[o].kind.signal.signaled then 1 else 0) <= Raises(s.history, o))
    && (s.objects[o].kind.Mutex? && Fair(s.history, o) ==>
          |Owners(s.history, o)| == if s.objects[o].kind.acquired then 1 else 0)
  }

  predicate Tracked(k: Kind) {
    Counted(k) || k.Mutex?
  }

  /** The invariant, except possibly for the object named by `skip`. */
  ghost predicate SoundBut(s: State, skip: int) {
    && KeysCount(s)
    && (forall o :: 0 <= o < |s.objects| && o != skip ==> LatchOk(s.objects[o]) && Balanced(s, o))
    && (forall o :: o >= |s.objects| ==> Grants(s.history, o) == 0 && Owners(s.history, o) == multiset{})
  }

  ghost predicate Sound(s: State) {
    SoundBut(s, -1)
  }

  lemma Restore(s: State, o: ObjId)
    requires SoundBut(s, o) && o < |s.objects| && LatchOk(s.objects[o]) && Balanced(s, o)
    ensures Sound(s)
  {
  }

  // ---------------------------------------------------------------- waking

  lemma PurgeKeepsKind(o: Object, t: ThreadId)
    ensures !o.kind.Arbiter? ==> Purge(o, t).kind == o.kind
    ensures o.kind.Arbiter? == Purge(o, t).kind.Arbiter?
    ensures o.queue == [] ==> Purge(o, t).queue == []
  {
  }

  lemma WakeUpSound(s: State, t: ThreadId, cause: Option<ObjId>, skip: int)
    requires t < |s.threads| && WakeUp(s, t, cause).Ok? && SoundBut(s, skip)
    requires cause.Some? ==> skip == cause.value < |s.objects|
    ensures SoundBut(WakeUp(s, t, cause).value, skip)
  {
    var s' := WakeUp(s, t, cause).value;
    var e := Woken(Waker(t, s.threads[t].wakeKey), cause);
    Appended(s.history, e);
    WakeUpKeys(s, t, cause);
    forall o | o >= 0 ensures
      (cause != Some(o) ==>
        Owners(s'.history, o) == Owners(s.history, o) && (Fair(s'.history, o) <==> Fair(s.history, o)))
    {
      OwnersAppended(s.history, e, o);
    }
  }

  lemma NextKey(count: nat)
    ensures (count % KEYS + 1) % KEYS == (count + 1) % KEYS
  {
  }

  lemma WakeUpKeys(s: State, t: ThreadId, cause: Option<ObjId>)
    requires t < |s.threads| && WakeUp(s, t, cause).Ok? && KeysCount(s)
    ensures KeysCount(WakeUp(s, t, cause).value)
  {
    hide PurgeWaited;
    hide ResumeValue;
    hide Wakes;
    hide Grants;
    hide Raises;
    var s' := WakeUp(s, t, cause).value;
    var e := Woken(Waker(t, s.threads[t].wakeKey), cause);
    Appended(s.history, e);
    NextKey(Wakes(s.history, t));
    forall i | 0 <= i < |s'.history| && s'.history[i].Woken?
      ensures s'.history[i].waker.key == Wakes(s'.history[..i], s'.history[i].waker.thread) % KEYS
    {
      if i < |s.history| {
        assert s'.history[..i] == s.history[..i];
      } else {
        assert s'.history[..i] == s.history;
      }
    }
  }

  lemma WakeSound(s: State, w: Waker, o: ObjId)
    requires o < |s.objects| && Wake(s, w, o).Ok? && SoundBut(s, o)
    ensures SoundBut(Wake(s, w, o).value.state, o)
    ensures var s' := Wake(s, w, o).value.state;
      && (s.objects[o].queue == [] ==> s'.objects[o].queue == [])
      && (!s.objects[o].kind.Arbiter? ==> s'.objects[o].kind == s.objects[o].kind)
      && Grants(s'.history, o) == Grants(s.history, o) + (if Wake(s, w, o).value.success then 1 else 0)
      && Raises(s'.history, o) == Raises(s.history, o)
      && (Fair(s'.history, o) <==> Fair(s.history, o))
      && Owners(s'.history, o) ==
           Owners(s.history, o) + (if Wake(s, w, o).value.success then multiset{w.thread} else multiset{})
  {
    if Wake(s, w, o).value.success {
      WakeUpSound(s, w.thread, Some(o), o);
      Appended(s.history, Woken(w, Some(o)));
      OwnersAppended(s.history, Woken(w, Some(o)), o);
    }
  }

  /** Waking on behalf of an object whose grants are not tracked keeps the whole invariant. */
  lemma UntrackedWakeSound(s: State, w: Waker, o: ObjId)
    requires o < |s.objects| && Wake(s, w, o).Ok? && Sound(s) && !Tracked(s.objects[o].kind)
    ensures Sound(Wake(s, w, o).value.state) && !Tracked(Wake(s, w, o).value.state.objects[o].kind)
    ensures WakeExpect(s, w, o).Ok? ==> WakeExpect(s, w, o).value == Wake(s, w, o).value.state
  {
    WakeSound(s, w, o);
    var s' := Wake(s, w, o).value.state;
    assert LatchOk(s'.objects[o]) by {
      if s.objects[o].kind.Arbiter? && Wake(s, w, o).value.success {
        PurgeKeepsKind(s.objects[o], w.thread);
      }
    }
    Restore(s', o);
  }

  lemma {:induction false} WakeAllSound(s: State, ws: seq<Waker>, o: ObjId)
    requires o < |s.objects| && Sound(s) && !Tracked(s.objects[o].kind)
    ensures WakeAll(s, ws, o).Ok? ==> Sound(WakeAll(s, ws, o).value)
    decreases |ws|
  {
    if ws != [] && WakeAll(s, ws, o).Ok? {
      UntrackedWakeSound(s, ws[0], o);
      WakeAllSound(Wake(s, ws[0], o).value.state, ws[1..], o);
    }
  }

  lemma {:induction false} WakeAllExpectSound(s: State, ws: seq<Waker>, o: ObjId)
    requires o < |s.objects| && Sound(s) && !Tracked(s.objects[o].kind)
    ensures WakeAllExpect(s, ws, o).Ok? ==> Sound(WakeAllExpect(s, ws, o).value)
    decreases |ws|
  {
    if ws != [] && WakeAllExpect(s, ws, o).Ok? {
      UntrackedWakeSound(s, ws[0], o);
      WakeAllExpectSound(Wake(s, ws[0], o).value.state, ws[1..], o);
    }
  }

  // ---------------------------------------------------------------- changing one object

  lemma SetObjSound(s: State, o: ObjId, obj: Object)
    requires SoundBut(s, o) && o < |s.objects| && LatchOk(obj)
    requires Balanced(SetObj(s, o, obj), o)
    ensures Sound(SetObj(s, o, obj))
  {
  }

  lemma SetObjSoundBut(s: State, o: ObjId, obj: Object)
    requires SoundBut(s, o) && o < |s.objects|
    ensures SoundBut(SetObj(s, o, obj), o)
  {
  }

  lemma NewObjectsSound(s: State, added: seq<Object>)
    requires Sound(s)
    requires forall i :: 0 <= i < |added| ==>
      && added[i].queue == []
      && (Counted(added[i].kind) ==> !added[i].kind.signal.signaled)
      && (added[i].kind.Mutex? ==> !added[i].kind.acquired)
    ensures Sound(s.(objects := s.objects + added))
  {
    var s' := s.(objects := s.objects + added);
    forall o | 0 <= o < |s'.objects| ensures LatchOk(s'.objects[o]) && Balanced(s', o) {
      if o < |s.objects| {
        assert s'.objects[o] == s.objects[o] && Balanced(s, o);
      } else {
        assert s'.objects[o] == added[o - |s.objects|];
      }
    }
  }

  /** An entry about object `o` that is not a wake-up concerns `o` alone. */
  lemma LogSoundBut(s: State, e: Entry, o: ObjId)
    requires SoundBut(s, o) && !e.Woken? && e.obj == o && o < |s.objects|
    ensures SoundBut(Log(s, e), o)
  {
    Appended(s.history, e);
    var s' := Log(s, e);
    forall x | x >= 0 && x != o
      ensures Owners(s'.history, x) == Owners(s.history, x) && (Fair(s'.history, x) <==> Fair(s.history, x))
    {
      OwnersAppended(s.history, e, x);
    }
    forall i | 0 <= i < |s'.history| && s'.history[i].Woken?
      ensures s'.history[i].waker.key == Wakes(s'.history[..i], s'.history[i].waker.thread) % KEYS
    {
      assert s'.history[..i] == s.history[..i];
    }
  }

  lemma SignalledSound(s: State, o: ObjId)
    requires Sound(s) && o < |s.objects| && HasSignal(s.objects[o])
    ensures Sound(Log(s, Signalled(o)))
  {
    assert Balanced(s, o);
    LogSoundBut(s, Signalled(o), o);
    Appended(s.history, Signalled(o));
    Restore(Log(s, Signalled(o)), o);
  }

  // ---------------------------------------------------------------- the operations

  lemma SpentWake(s: State, w: Waker, o: ObjId)
    requires Wake(s, w, o).Ok? && !Wake(s, w, o).value.success
    ensures Wake(s, w, o).value.state == s
  {
  }

  lemma WaitOnSound(s: State, o: ObjId, w: Waker)
    requires Sound(s) && o < |s.objects| && Synchronizable(s.objects[o]) && WaitOn(s, o, w).Ok?
    ensures Sound(WaitOn(s, o, w).value)
    ensures WaitOn(s, o, w).value.objects[o].kind.Arbiter? == s.objects[o].kind.Arbiter?
  {
    hide Wakes;
    hide Grants;
    hide Raises;
    hide Owners;
    hide Fair;
    hide KeysCount;
    hide Wake;
    var k := s.objects[o].kind;
    if Available(k) {
      var taken := SetKind(s, o, Take(k));
      SetObjSoundBut(s, o, s.objects[o].(kind := Take(k)));
      WakeSound(taken, w, o);
      var r := Wake(taken, w, o).value;
      if r.success {
        assert Balanced(s, o);
        Restore(r.state, o);
      } else {
        SpentWake(taken, w, o);
        assert GiveBack(Take(k)) == k && SetKind(taken, o, k).objects == s.objects;
      }
    } else {
      SetObjSound(s, o, s.objects[o].(queue := s.objects[o].queue + [w]));
    }
  }

  lemma {:induction false} WaitEachSound(s: State, objs: seq<ObjId>, w: Waker)
    requires forall i :: 0 <= i < |objs| ==> objs[i] < |s.objects|
    requires Sound(s) && WaitEach(s, objs, w).Ok?
    ensures Sound(WaitEach(s, objs, w).value)
    decreases |objs|
  {
    if objs != [] {
      WaitOnSound(s, objs[0], w);
      WaitEachSound(WaitOn(s, objs[0], w).value, objs[1..], w);
    }
  }

  /** A raised signal is either kept, or spent on the oldest waiter. */
  lemma RaiseSignalSound(s: State, o: ObjId)
    requires o < |s.objects| && HasSignal(s.objects[o]) && RaiseSignal(s, o).Ok?
    requires SoundBut(s, o) && LatchOk(s.objects[o])
    requires Counted(s.objects[o].kind) ==> Grants(s.history, o) + 1 <= Raises(s.history, o)
    ensures Sound(RaiseSignal(s, o).value)
  {
    var obj := s.objects[o];
    var raised := WithSignal(obj, obj.kind.signal.(signaled := true));
    if obj.kind.signal.reset.Sticky? {
      SetObjSound(s, o, raised.(queue := []));
      WakeAllSound(SetObj(s, o, raised.(queue := [])), obj.queue, o);
    } else if obj.queue == [] {
      SetObjSound(s, o, raised);
    } else {
      var s1 := SetObj(s, o, raised);
      SetObjSoundBut(s, o, raised);
      WakeSound(s1, obj.queue[0], o);
      var s2 := Wake(s1, obj.queue[0], o).value.state;
      SetObjSound(s2, o, WithSignal(s2.objects[o], s2.objects[o].kind.signal.(signaled := false)));
    }
  }

  lemma SignalEventSound(s: State, o: ObjId)
    requires Sound(s) && SignalEvent(s, o).Ok?
    ensures Sound(SignalEvent(s, o).value)
  {
    if o < |s.objects| && s.objects[o].kind.Event? {
      assert Balanced(s, o);
      Appended(s.history, Signalled(o));
      SignalledSound(s, o);
      RaiseSignalSound(Log(s, Signalled(o)), o);
    }
  }

  lemma ClearEventSound(s: State, o: ObjId)
    requires Sound(s)
    ensures Sound(ClearEvent(s, o))
  {
    if o < |s.objects| && s.objects[o].kind.Event? {
      assert Balanced(s, o);
      SetObjSound(s, o, WithSignal(s.objects[o], s.objects[o].kind.signal.(signaled := false)));
    }
  }

  lemma SetTimerSound(s: State, o: ObjId, initial: int, interval: int)
    requires Sound(s)
    ensures Sound(SetTimer(s, o, initial, interval))
  {
    if o < |s.objects| && s.objects[o].kind.Timer? {
      assert Balanced(s, o);
      SetObjSound(s, o, s.objects[o].(kind := Timer(s.objects[o].kind.signal, initial, interval)));
    }
  }

  lemma TimerTickSound(s: State, o: ObjId, time: nat)
    requires Sound(s) && o < |s.objects| && TimerTick(s, o, time).Ok?
    ensures Sound(TimerTick(s, o, time).value)
  {
    if TimerDue(s.objects[o], time) {
      assert Balanced(s, o);
      Appended(s.history, Signalled(o));
      SignalledSound(s, o);
      SetObjSoundBut(Log(s, Signalled(o)), o, Rearm(s.objects[o], time));
      RaiseSignalSound(SetObj(Log(s, Signalled(o)), o, Rearm(s.objects[o], time)), o);
    }
  }

  /** After the release is logged, a holder too few is accounted for. */
  lemma ReleasedSoundBut(s: State, o: ObjId, t: ThreadId)
    requires Sound(s) && o < |s.objects| && s.objects[o].kind.Mutex?
    ensures var s1 := Log(s, Released(o, t));
      && SoundBut(s1, o)
      && (Fair(s1.history, o) ==> s.objects[o].kind.acquired && |Owners(s1.history, o)| == 0)
  {
    assert Balanced(s, o);
    LogSoundBut(s, Released(o, t), o);
    OwnersAppended(s.history, Released(o, t), o);
  }

  lemma HandOffSound(s: State, w: Waker, o: ObjId)
    requires SoundBut(s, o) && o < |s.objects| && s.objects[o].kind == Mutex(true)
    requires Fair(s.history, o) ==> |Owners(s.history, o)| == 0
    requires WakeExpect(s, w, o).Ok?
    ensures Sound(WakeExpect(s, w, o).value)
  {
    WakeSound(s, w, o);
    Restore(Wake(s, w, o).value.state, o);
  }

  /** A release by the holder passes the mutex on to one waiter or leaves it free, never both. */
  lemma ReleaseMutexSound(s: State, o: ObjId)
    requires Sound(s) && ReleaseMutex(s, o).Ok?
    ensures Sound(ReleaseMutex(s, o).value)
  {
    if o < |s.objects| && s.objects[o].kind.Mutex? {
      var s1 := Log(s, Released(o, s.current.value));
      ReleasedSoundBut(s, o, s.current.value);
      if s.objects[o].queue != [] {
        assert LatchOk(s.objects[o]);
        HandOffSound(s1, s.objects[o].queue[0], o);
      } else {
        SetObjSound(s1, o, s.objects[o].(kind := Mutex(false)));
      }
    }
  }

  lemma ArbiterSignalSound(s: State, o: ObjId, amount: I32, addr: Address)
    requires Sound(s) && ArbiterSignal(s, o, amount, addr).Ok?
    ensures Sound(ArbiterSignal(s, o, amount, addr).value)
  {
    if o < |s.objects| && s.objects[o].kind.Arbiter? {
      var d := DrainSlots(s.objects[o].kind.slots, addr, SignalCount(amount));
      var obj := s.objects[o].(kind := Arbiter(d.kept));
      SetObjSound(s, o, obj);
      WakeAllExpectSound(SetObj(s, o, obj), d.woken, o);
    }
  }

  lemma WakeFrontSound(s: State, o: ObjId)
    requires Sound(s) && o < |s.objects| && !Tracked(s.objects[o].kind) && WakeFront(s, o).Ok?
    ensures Sound(WakeFront(s, o).value)
    ensures |WakeFront(s, o).value.objects| == |s.objects|
    ensures forall x :: 0 <= x < |s.objects| && !s.objects[x].kind.Arbiter? ==>
      WakeFront(s, o).value.objects[x].kind == s.objects[x].kind
  {
    var obj := s.objects[o];
    if obj.queue != [] {
      var popped := obj.(queue := obj.queue[1..]);
      SetObjSound(s, o, popped);
      UntrackedWakeSound(SetObj(s, o, popped), obj.queue[0], o);
    }
  }

  lemma SuspendSound(s: State, objs: seq<ObjId>, deadline: Option<nat>, kind: WaitType)
    requires Sound(s) && Suspend(s, objs, deadline, kind).Ok?
    ensures Sound(Suspend(s, objs, deadline, kind).value.state)
  {
  }

  lemma PushSound(s: State, o: ObjId, w: Waker)
    requires Sound(s) && o < |s.objects| && !Available(s.objects[o].kind)
    ensures Sound(Push(s, o, w))
  {
    assert Balanced(s, o);
    SetObjSound(s, o, s.objects[o].(queue := s.objects[o].queue + [w]));
  }

  lemma SetServerSound(s: State, o: ObjId, k: Kind)
    requires Sound(s) && o < |s.objects| && !Available(k) && !Tracked(k)
    ensures Sound(SetKind(s, o, k))
  {
    SetObjSound(s, o, s.objects[o].(kind := k));
  }

  lemma SendRequestSound(s: State, o: ObjId)
    requires Sound(s) && SendRequest(s, o).Ok?
    ensures Sound(SendRequest(s, o).value)
  {
    hide Sound;
    hide WakeFront;
    if o < |s.objects| && s.objects[o].kind.ClientSession? {
      SuspendSound(s, [o], None, WaitSync1);
      var r := Suspend(s, [o], None, WaitSync1).value;
      PushSound(r.state, o, r.waker);
      var server := s.objects[o].kind.server;
      var s1 := Push(r.state, o, r.waker);
      var k := s1.objects[server].kind.(requests := s1.objects[server].kind.requests + [r.waker.thread]);
      SetServerSound(s1, server, k);
      WakeFrontSound(SetKind(s1, server, k), server);
    }
  }

  lemma DeliverSound(s: State, src: ThreadId, dest: ThreadId, image: seq<Bytes.Byte>)
    requires Sound(s) && DeliverIpc(s, src, dest, image).Ok?
    ensures Sound(DeliverIpc(s, src, dest, image).value)
  {
  }

  lemma ReplySound(s: State, o: ObjId, image: seq<Bytes.Byte>)
    requires Sound(s) && Reply(s, o, image).Ok?
    ensures Sound(Reply(s, o, image).value)
  {
    hide Sound;
    hide WakeFront;
    if o < |s.objects| && s.objects[o].kind.ServerSession? {
      var k := s.objects[o].kind;
      SetServerSound(s, o, k.(requests := k.requests[1..]));
      var s1 := SetKind(s, o, k.(requests := k.requests[1..]));
      DeliverSound(s1, s.current.value, k.requests[0], image);
      WakeFrontSound(DeliverIpc(s1, s.current.value, k.requests[0], image).value, k.client);
    }
  }

  lemma CreateSessionSound(s: State, o: ObjId)
    requires Sound(s) && CreateSession(s, o).Ok?
    ensures Sound(CreateSession(s, o).value)
  {
    hide Sound;
    hide WakeFront;
    if o < |s.objects| && s.objects[o].kind.ClientPort? {
      var id := |s.objects|;
      var server := s.objects[o].kind.server;
      var added := [Object([], ServerSession([], id + 1, s.current.value)), Object([], ClientSession(id))];
      NewObjectsSound(s, added);
      var s1 := s.(objects := s.objects + added);
      var k := s.objects[server].kind;
      var k' := k.(sessions := k.sessions + [id]);
      assert s1.objects[server] == s.objects[server];
      SetServerSound(s1, server, k');
      WakeFrontSound(SetKind(s1, server, k'), server);
      var s2 := WakeFront(SetKind(s1, server, k'), server).value;
      SuspendSound(s2, [o], None, WaitSync1);
      var r := Suspend(s2, [o], None, WaitSync1).value;
      PushSound(r.state, o, r.waker);
    }
  }

  lemma AcceptSessionSound(s: State, o: ObjId)
    requires Sound(s) && AcceptSession(s, o).Ok?
    ensures Sound(AcceptSession(s, o).value)
  {
    hide Sound;
    hide WakeFront;
    if o < |s.objects| && s.objects[o].kind.ServerPort? {
      var k := s.objects[o].kind;
      if k.sessions == [] {
        SuspendSound(s, [o], None, WaitSync1);
        var r := Suspend(s, [o], None, WaitSync1).value;
        PushSound(r.state, o, r.waker);
      } else {
        SetServerSound(s, o, k.(sessions := k.sessions[1..]));
        WakeFrontSound(SetKind(s, o, k.(sessions := k.sessions[1..])), k.client);
      }
    }
  }
}
