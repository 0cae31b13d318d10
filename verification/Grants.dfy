/** Single calls on mutexes and arbiters: who gets the object, and what the others keep. */
module Grants {
  import opened Outcomes
  import opened Machine
  import opened Wakers

  // ---------------------------------------------------------------- mutexes

  /** The mutex went from the caller to the oldest waiter without being free, or is free without waiters. */
  ghost predicate HandedOver(s: State, s': State, o: ObjId)
    requires s.current.Some? && o < |s.objects| && s.objects[o].kind.Mutex?
  {
    var q := s.objects[o].queue;
    if q == [] then s'.objects == s.objects[o := Object([], Mutex(false))] && s'.threads == s.threads
    else
      && WokenUp(Log(s, Released(o, s.current.value)), s', q[0].thread, Some(o))
      && s'.objects[o] == Object(PurgeQueue(q, q[0].thread), s.objects[o].kind)
      && s'.history == s.history + [Released(o, s.current.value)] + [Woken(q[0], Some(o))]
  }

  /**
    Releasing a contended mutex hands it to the oldest waiter without ever freeing it; the remaining
    waiters stay in order. Releasing an uncontended one frees it.
   */
  lemma ReleaseHandsToOldest(s: State, o: ObjId)
    requires Inv(s) && RunningCurrent(s) && o < |s.objects| && s.objects[o].kind.Mutex?
    ensures ReleaseMutex(s, o).Ok? && HandedOver(s, ReleaseMutex(s, o).value, o)
  {
    var q := s.objects[o].queue;
    var s1 := Log(s, Released(o, s.current.value));
    LogKeeps(s, Released(o, s.current.value));
    if q != [] {
      assert q[0] in Queue(s.objects[o]);
      WakeKeeps(s1, q[0], o);
    }
  }

  /** A wait on a free mutex whose waiter is awake already leaves the mutex free and its queue as it was. */
  lemma FailedWaitLeavesFree(s: State, o: ObjId, w: Waker)
    requires o < |s.objects| && s.objects[o].kind == Mutex(false)
    requires w.thread < |s.threads| && s.threads[w.thread].wakeKey != w.key
    ensures WaitOn(s, o, w) == Ok(s)
  {
    var taken := SetKind(s, o, Mutex(true));
    assert SetKind(taken, o, Mutex(false)).objects == s.objects;
  }

  // ---------------------------------------------------------------- arbiters

  /** The waiters on one address, oldest first. */
  function WaitersOn(slots: seq<Slot>, addr: Address): seq<Waker> {
    if slots == [] then []
    else (if slots[0].addr == addr then [slots[0].waker] else []) + WaitersOn(slots[1..], addr)
  }

  /** The slots that wait on other addresses, in order. */
  function Elsewhere(slots: seq<Slot>, addr: Address): seq<Slot> {
    if slots == [] then []
    else (if slots[0].addr == addr then [] else [slots[0]]) + Elsewhere(slots[1..], addr)
  }

  /** The oldest `count` of them, or all of them if unlimited. */
  function Oldest(ws: seq<Waker>, count: nat): seq<Waker> {
    if count == UNLIMITED || count >= |ws| then ws else ws[..count]
  }

  function Left(slots: seq<Slot>, addr: Address, count: nat): nat
    requires slots != [] && count > 0
  {
    if slots[0].addr == addr && count != UNLIMITED then count - 1 else count
  }

  /** The point of the queue at which a drain has used up its count. */
  function Cut(slots: seq<Slot>, addr: Address, count: nat): (cut: nat)
    ensures cut <= |slots|
  {
    if slots == [] || count == 0 then 0 else 1 + Cut(slots[1..], addr, Left(slots, addr, count))
  }

  /** A drain takes the oldest `count` waiters on the address, or all of them if unlimited. */
  lemma {:induction false} DrainTakesOldest(slots: seq<Slot>, addr: Address, count: nat)
    requires count <= UNLIMITED
    ensures DrainSlots(slots, addr, count).woken == Oldest(WaitersOn(slots, addr), count)
  {
    if slots == [] || count == 0 {
      NothingDrained(slots, addr);
    } else {
      DrainTakesOldest(slots[1..], addr, Left(slots, addr, count));
      if slots[0].addr == addr {
        OldestCons(slots[0].waker, WaitersOn(slots[1..], addr), count);
      } else {
        assert WaitersOn(slots, addr) == WaitersOn(slots[1..], addr);
      }
    }
  }

  /** Before the cut every waiter on the address is taken, and from it on nothing is. */
  lemma {:induction false} DrainUpToCut(slots: seq<Slot>, addr: Address, count: nat)
    ensures var d := DrainSlots(slots, addr, count);
      var cut := Cut(slots, addr, count);
      && d.woken == WaitersOn(slots[..cut], addr)
      && d.kept == Elsewhere(slots[..cut], addr) + slots[cut..]
  {
    if slots == [] || count == 0 {
      NothingDrained(slots, addr);
      assert slots[..0] == [] && [] + slots[0..] == slots;
    } else {
      DrainUpToCut(slots[1..], addr, Left(slots, addr, count));
      var cut := Cut(slots, addr, count);
      var taken := slots[..cut];
      assert taken[0] == slots[0] && taken[1..] == slots[1..][..cut - 1];
      assert slots[cut..] == slots[1..][cut - 1..];
    }
  }

  lemma OldestCons(w: Waker, ws: seq<Waker>, count: nat)
    requires 0 < count <= UNLIMITED
    ensures Oldest([w] + ws, count) == [w] + Oldest(ws, if count != UNLIMITED then count - 1 else count)
  {
  }

  lemma {:induction false} NothingDrained(slots: seq<Slot>, addr: Address)
    ensures DrainSlots(slots, addr, 0) == Drain([], slots)
  {
    if slots != [] {
      NothingDrained(slots[1..], addr);
    }
  }

  /** Exactly the threads of `ws` have been woken, by object `o`. */
  ghost predicate WokeExactly(s: State, s': State, ws: seq<Waker>, o: ObjId) {
    && |s'.threads| == |s.threads|
    && (forall i :: 0 <= i < |ws| ==>
          ws[i].thread < |s.threads| && s.threads[ws[i].thread].state == Waiting
          && Resumed(s.threads[ws[i].thread], s'.threads[ws[i].thread], Some(o)))
    && (forall t :: 0 <= t < |s.threads| && (forall i :: 0 <= i < |ws| ==> ws[i].thread != t) ==>
          s'.threads[t] == s.threads[t])
  }

  lemma WokeExactlyCons(s: State, s1: State, s': State, ws: seq<Waker>, o: ObjId)
    requires ws != [] && DistinctThreads(ws)
    requires WokenUp(s, s1, ws[0].thread, Some(o)) && WokeExactly(s1, s', ws[1..], o)
    ensures WokeExactly(s, s', ws, o)
  {
    hide Resumed;
    forall i | 0 <= i < |ws| ensures
      ws[i].thread < |s.threads| && s.threads[ws[i].thread].state == Waiting
      && Resumed(s.threads[ws[i].thread], s'.threads[ws[i].thread], Some(o))
    {
      if i > 0 {
        assert ws[i] == ws[1..][i - 1];
      } else {
        assert forall j :: 0 <= j < |ws| - 1 ==> ws[1..][j] == ws[j + 1];
      }
    }
  }

  function Granted(ws: seq<Waker>, o: ObjId): seq<Entry> {
    if ws == [] then [] else [Woken(ws[0], Some(o))] + Granted(ws[1..], o)
  }

  lemma RestStaysLive(s: State, s1: State, ws: seq<Waker>, o: ObjId)
    requires ws != [] && DistinctThreads(ws) && WokenUp(s, s1, ws[0].thread, Some(o))
    requires forall w :: w in ws ==> LiveIn(s, w, o)
    ensures DistinctThreads(ws[1..])
    ensures forall v :: v in ws[1..] ==> v in ws && LiveIn(s1, v, o)
  {
  }

  /** Waking a drained queue wakes exactly its threads, in order. */
  lemma {:induction false} WakeAllExpectExact(s: State, ws: seq<Waker>, o: ObjId)
    requires Inv(s) && o < |s.objects|
    requires forall w :: w in ws ==> LiveIn(s, w, o)
    requires DistinctThreads(ws)
    requires forall w, v :: w in ws && v in Queue(s.objects[o]) ==> v.thread != w.thread
    ensures WakeAllExpect(s, ws, o).Ok?
    ensures var s' := WakeAllExpect(s, ws, o).value;
      && WokeExactly(s, s', ws, o)
      && |s'.objects| == |s.objects| && s'.objects[o] == s.objects[o]
    decreases |ws|
  {
    if ws != [] {
      var w := ws[0];
      assert w in ws;
      WakeKeeps(s, w, o);
      var s1 := Wake(s, w, o).value.state;
      RestStaysLive(s, s1, ws, o);
      PurgeIdentity(s, o, w.thread);
      WakeAllExpectExact(s1, ws[1..], o);
      WokeExactlyCons(s, s1, WakeAllExpect(s1, ws[1..], o).value, ws, o);
    }
  }

  lemma {:induction false} WakeAllExpectLog(s: State, ws: seq<Waker>, o: ObjId)
    requires WakeAllExpect(s, ws, o).Ok?
    ensures WakeAllExpect(s, ws, o).value.history == s.history + Granted(ws, o)
    decreases |ws|
  {
    hide WakeExpect;
    if ws != [] {
      var s1 := WakeExpect(s, ws[0], o).value;
      WakeExpectLog(s, ws[0], o);
      WakeAllExpectLog(s1, ws[1..], o);
      assert s.history + ([Woken(ws[0], Some(o))] + Granted(ws[1..], o)) == s1.history + Granted(ws[1..], o);
    }
  }

  lemma WakeExpectLog(s: State, w: Waker, o: ObjId)
    requires WakeExpect(s, w, o).Ok?
    ensures WakeExpect(s, w, o).value.history == s.history + [Woken(w, Some(o))]
  {
  }

  /** The first slot's thread is not among the later ones. */
  lemma FirstSlotApart(slots: seq<Slot>)
    requires slots != [] && DistinctThreads(WakersOf(slots))
    ensures DistinctThreads(WakersOf(slots[1..]))
    ensures forall w :: w in WakersOf(slots[1..]) ==> w.thread != slots[0].waker.thread
  {
    var all, tail := WakersOf(slots), WakersOf(slots[1..]);
    assert all == [slots[0].waker] + tail;
    hide WakersOf;
    forall i, j | 0 <= i < j < |tail| ensures tail[i].thread != tail[j].thread {
      assert all[i + 1].thread != all[j + 1].thread;
    }
    forall i | 0 <= i < |tail| ensures tail[i].thread != slots[0].waker.thread {
      assert all[0].thread != all[i + 1].thread;
    }
  }

  lemma {:induction false} KeptApart(slots: seq<Slot>, addr: Address, count: nat)
    requires DistinctThreads(WakersOf(slots))
    ensures var d := DrainSlots(slots, addr, count);
      forall w, v :: w in d.woken && v in WakersOf(d.kept) ==> w.thread != v.thread
  {
    hide WakersOf;
    if slots != [] {
      FirstSlotApart(slots);
      hide DistinctThreads;
      var first := slots[0].addr == addr && count > 0;
      var left := if first && count != UNLIMITED then count - 1 else count;
      KeptApart(slots[1..], addr, left);
      DrainParts(slots[1..], addr, left);
      var rest := DrainSlots(slots[1..], addr, left);
      WakersCons(slots[0], rest.kept);
      assert DrainSlots(slots, addr, count) ==
        if first then Drain([slots[0].waker] + rest.woken, rest.kept)
        else Drain(rest.woken, [slots[0]] + rest.kept);
      hide DrainSlots;
    }
  }

  /** What the arbiter reports: whether anyone was woken. */
  function ArbiterWakes(slots: seq<Slot>, addr: Address, amount: I32): bool {
    DrainSlots(slots, addr, SignalCount(amount)).woken != []
  }

  /** Exactly the oldest waiters on the address are woken; the other slots keep their places. */
  ghost predicate OldestReleased(s: State, s': State, o: ObjId, amount: I32, addr: Address)
    requires o < |s.objects| && s.objects[o].kind.Arbiter?
  {
    var slots := s.objects[o].kind.slots;
    var woken := Oldest(WaitersOn(slots, addr), SignalCount(amount));
    var cut := Cut(slots, addr, SignalCount(amount));
    && WokeExactly(s, s', woken, o)
    && s'.history == s.history + Granted(woken, o)
    && woken == WaitersOn(slots[..cut], addr)
    && |s'.objects| == |s.objects|
    && s'.objects[o] == s.objects[o].(kind := Arbiter(Elsewhere(slots[..cut], addr) + slots[cut..]))
  }

  /**
    Signalling an address wakes exactly its oldest waiters, as many as asked for or all of them when
    the amount is negative; every other waiter keeps its place, every other thread is untouched, and
    the caller is told whether anyone was woken.
   */
  lemma ArbiterSignalExact(s: State, o: ObjId, amount: I32, addr: Address)
    requires Inv(s) && o < |s.objects| && s.objects[o].kind.Arbiter?
    ensures ArbiterSignal(s, o, amount, addr).Ok?
    ensures OldestReleased(s, ArbiterSignal(s, o, amount, addr).value, o, amount, addr)
    ensures var slots := s.objects[o].kind.slots;
      ArbiterWakes(slots, addr, amount) <==> amount != 0 && WaitersOn(slots, addr) != []
  {
    var obj := s.objects[o];
    var slots := obj.kind.slots;
    var d := DrainSlots(slots, addr, SignalCount(amount));
    DrainTakesOldest(slots, addr, SignalCount(amount));
    DrainUpToCut(slots, addr, SignalCount(amount));
    DrainParts(slots, addr, SignalCount(amount));
    KeptApart(slots, addr, SignalCount(amount));
    var s1 := SetObj(s, o, obj.(kind := Arbiter(d.kept)));
    SetObjKeeps(s, o, obj.(kind := Arbiter(d.kept)));
    WakeAllExpectExact(s1, d.woken, o);
    WakeAllExpectLog(s1, d.woken, o);
  }
}
