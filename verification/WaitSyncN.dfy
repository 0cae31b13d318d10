/**
  WaitSynchronizationN with its loop as written: it goes on after a wait has succeeded. It takes at
  most one object and gives back every other one, but it may leave a spent waker behind. This module
  says exactly when it does.
 */
module WaitSyncN {
  import opened Outcomes
  import opened Machine
  import opened Wakers

  ghost function Kinds(s: State): (r: seq<Kind>)
    ensures |r| == |s.objects|
    ensures forall o :: 0 <= o < |r| ==> r[o] == s.objects[o].kind
  {
    seq(|s.objects|, o requires 0 <= o < |s.objects| => s.objects[o].kind)
  }

  predicate ValidIds(objs: seq<ObjId>, n: nat) {
    forall i :: 0 <= i < |objs| ==> objs[i] < n
  }

  ghost predicate Waitable(kinds: seq<Kind>, objs: seq<ObjId>) {
    ValidIds(objs, |kinds|) && forall i :: 0 <= i < |objs| ==> !kinds[objs[i]].Arbiter?
  }

  ghost predicate AllAvailable(kinds: seq<Kind>, objs: seq<ObjId>)
    requires ValidIds(objs, |kinds|)
  {
    forall i :: 0 <= i < |objs| ==> Available(kinds[objs[i]])
  }

  /** The position of the first object that can be taken at once, or the length of the list. */
  ghost function FirstAvailable(kinds: seq<Kind>, objs: seq<ObjId>): (i: nat)
    requires ValidIds(objs, |kinds|)
    ensures i <= |objs|
    ensures forall j :: 0 <= j < i ==> !Available(kinds[objs[j]])
    ensures i < |objs| ==> Available(kinds[objs[i]])
  {
    if objs == [] || Available(kinds[objs[0]]) then 0 else 1 + FirstAvailable(kinds, objs[1..])
  }

  /**
    The lists on which the loop leaves no spent waker behind: every object after the first available
    one is still available once that one has been taken.
   */
  ghost predicate SafeList(kinds: seq<Kind>, objs: seq<ObjId>)
    requires ValidIds(objs, |kinds|)
  {
    if objs == [] then true
    else if Available(kinds[objs[0]]) then AllAvailable(kinds[objs[0] := Take(kinds[objs[0]])], objs[1..])
    else SafeList(kinds, objs[1..])
  }

  // ---------------------------------------------------------------- after the thread has been woken

  /** With a spent waker, a wait either changes nothing at all or queues the spent waker. */
  lemma SpentWaitOn(s: State, o: ObjId, w: Waker)
    requires o < |s.objects| && Synchronizable(s.objects[o])
    requires w.thread < |s.threads| && s.threads[w.thread].wakeKey != w.key
    ensures WaitOn(s, o, w) == Ok(if Available(s.objects[o].kind) then s else Push(s, o, w))
  {
    var k := s.objects[o].kind;
    if Available(k) {
      var s1 := SetKind(s, o, Take(k));
      assert GiveBack(Take(k)) == k;
      assert SetKind(s1, o, k).objects == s.objects;
    }
  }

  lemma {:induction false} SpentLoop(s: State, objs: seq<ObjId>, w: Waker)
    requires Waitable(Kinds(s), objs)
    requires w.thread < |s.threads| && s.threads[w.thread].wakeKey != w.key
    ensures WaitEach(s, objs, w).Ok?
    ensures var s' := WaitEach(s, objs, w).value;
      && s' == s.(objects := s'.objects)
      && Kinds(s') == Kinds(s)
      && (forall o, v :: 0 <= o < |s.objects| && v in Queue(s.objects[o]) ==> v in Queue(s'.objects[o]))
      && (AllAvailable(Kinds(s), objs) ==> s' == s)
      && (!AllAvailable(Kinds(s), objs) ==> exists o :: 0 <= o < |s'.objects| && w in Queue(s'.objects[o]))
    decreases |objs|
  {
    if objs != [] {
      var o := objs[0];
      SpentWaitOn(s, o, w);
      var s1 := WaitOn(s, o, w).value;
      assert Kinds(s1) == Kinds(s);
      SpentLoop(s1, objs[1..], w);
      if !Available(s.objects[o].kind) {
        assert w in Queue(s1.objects[o]);
      } else if !AllAvailable(Kinds(s), objs) {
        var i :| 0 <= i < |objs| && !Available(Kinds(s)[objs[i]]);
        assert objs[1..][i - 1] == objs[i];
      }
    }
  }

  // ---------------------------------------------------------------- the whole loop

  /** The waker still belongs to a thread suspended on exactly this list. */
  ghost predicate Pending(s: State, w: Waker, list: seq<ObjId>) {
    w.thread < |s.threads|
    && s.threads[w.thread].wakeKey == w.key
    && s.threads[w.thread].state == Waiting
    && s.threads[w.thread].waitType == Some(WaitSyncN)
    && s.threads[w.thread].waitObjects == list
  }

  /** The effect of the loop on everything but the queues, told from the state before it. */
  ghost predicate TookAtMostOne(s: State, s': State, w: Waker, list: seq<ObjId>, objs: seq<ObjId>)
    requires w.thread < |s.threads|
    requires forall i :: 0 <= i < |objs| ==> objs[i] in list
    requires ValidIds(objs, |s.objects|)
  {
    var i := FirstAvailable(Kinds(s), objs);
    var th := s.threads[w.thread];
    && s'.current == s.current && s'.next == s.next
    && (i == |objs| ==>
          s'.threads == s.threads && s'.history == s.history && Kinds(s') == Kinds(s))
    && (i < |objs| ==>
          && s'.threads == s.threads[w.thread := th.(
               state := Ready, wakeKey := KeyAfter(th.wakeKey), waitObjects := [],
               resume := WokenBy(IndexOf(list, objs[i])))]
          && s'.history == s.history + [Woken(w, Some(objs[i]))]
          && Kinds(s') == Kinds(s)[objs[i] := Take(Kinds(s)[objs[i]])])
  }

  lemma TakeAndWake(s: State, list: seq<ObjId>, o: ObjId, w: Waker)
    requires Waitable(Kinds(s), list) && Pending(s, w, list)
    requires o in list && o < |s.objects| && Synchronizable(s.objects[o]) && Available(s.objects[o].kind)
    ensures WaitOn(s, o, w).Ok?
    ensures var s' := WaitOn(s, o, w).value;
      var th := s.threads[w.thread];
      && s'.current == s.current && s'.next == s.next
      && s'.threads == s.threads[w.thread := th.(
           state := Ready, wakeKey := KeyAfter(th.wakeKey), waitObjects := [], resume := WokenBy(IndexOf(list, o)))]
      && s'.history == s.history + [Woken(w, Some(o))]
      && Kinds(s') == Kinds(s)[o := Take(Kinds(s)[o])]
  {
    var s' := Wake(SetKind(s, o, Take(s.objects[o].kind)), w, o).value.state;
    forall x | 0 <= x < |s.objects| ensures Kinds(s')[x] == Kinds(s)[o := Take(Kinds(s)[o])][x] {
    }
  }

  lemma {:induction false} PendingLoop(s: State, list: seq<ObjId>, objs: seq<ObjId>, w: Waker)
    requires Waitable(Kinds(s), list) && Waitable(Kinds(s), objs)
    requires forall i :: 0 <= i < |objs| ==> objs[i] in list
    requires Pending(s, w, list)
    ensures WaitEach(s, objs, w).Ok?
    ensures TookAtMostOne(s, WaitEach(s, objs, w).value, w, list, objs)
    decreases |objs|
  {
    if objs != [] {
      if Available(s.objects[objs[0]].kind) {
        PendingTake(s, list, objs, w);
      } else {
        var s1 := Push(s, objs[0], w);
        assert Kinds(s1) == Kinds(s);
        PendingLoop(s1, list, objs[1..], w);
        TookAfterPush(s, s1, WaitEach(s1, objs[1..], w).value, w, list, objs);
      }
    }
  }

  lemma TookAfterPush(s: State, s1: State, s': State, w: Waker, list: seq<ObjId>, objs: seq<ObjId>)
    requires s1 == s.(objects := s1.objects) && Kinds(s1) == Kinds(s) && w.thread < |s.threads|
    requires forall i :: 0 <= i < |objs| ==> objs[i] in list
    requires ValidIds(objs, |s.objects|) && objs != [] && !Available(Kinds(s)[objs[0]])
    requires TookAtMostOne(s1, s', w, list, objs[1..])
    ensures TookAtMostOne(s, s', w, list, objs)
  {
    var i := FirstAvailable(Kinds(s), objs[1..]);
    assert FirstAvailable(Kinds(s), objs) == i + 1;
    assert i < |objs| - 1 ==> objs[1..][i] == objs[i + 1];
  }

  /** Taking an object does not make it an arbiter. */
  lemma StillWaitable(kinds: seq<Kind>, objs: seq<ObjId>)
    requires Waitable(kinds, objs) && objs != [] && Available(kinds[objs[0]])
    ensures Waitable(kinds[objs[0] := Take(kinds[objs[0]])], objs[1..])
  {
  }

  /** With a spent waker the loop changes nothing but queues. */
  lemma SpentLoopSame(s: State, objs: seq<ObjId>, w: Waker)
    requires Waitable(Kinds(s), objs)
    requires w.thread < |s.threads| && s.threads[w.thread].wakeKey != w.key
    ensures WaitEach(s, objs, w).Ok?
    ensures var s' := WaitEach(s, objs, w).value;
      s' == s.(objects := s'.objects) && Kinds(s') == Kinds(s)
  {
    SpentLoop(s, objs, w);
    hide WaitEach;
    hide Queue;
    hide AllAvailable;
  }

  /** The loop took the first object of the list, and from there on only queues changed. */
  lemma TookAtOnce(s: State, s1: State, s': State, w: Waker, list: seq<ObjId>, objs: seq<ObjId>)
    requires w.thread < |s.threads| && ValidIds(objs, |s.objects|) && objs != [] && Available(Kinds(s)[objs[0]])
    requires forall i :: 0 <= i < |objs| ==> objs[i] in list
    requires s1.current == s.current && s1.next == s.next && s1.history == s.history + [Woken(w, Some(objs[0]))]
    requires var th := s.threads[w.thread];
      s1.threads == s.threads[w.thread := th.(
        state := Ready, wakeKey := KeyAfter(th.wakeKey), waitObjects := [],
        resume := WokenBy(IndexOf(list, objs[0])))]
    requires Kinds(s1) == Kinds(s)[objs[0] := Take(Kinds(s)[objs[0]])]
    requires s' == s1.(objects := s'.objects) && Kinds(s') == Kinds(s1)
    ensures TookAtMostOne(s, s', w, list, objs)
  {
    hide Take;
    hide IndexOf;
    hide Kinds;
    assert FirstAvailable(Kinds(s), objs) == 0;
  }

  lemma PendingTake(s: State, list: seq<ObjId>, objs: seq<ObjId>, w: Waker)
    requires Waitable(Kinds(s), list) && Waitable(Kinds(s), objs)
    requires forall i :: 0 <= i < |objs| ==> objs[i] in list
    requires Pending(s, w, list) && objs != [] && Available(s.objects[objs[0]].kind)
    ensures WaitEach(s, objs, w).Ok?
    ensures TookAtMostOne(s, WaitEach(s, objs, w).value, w, list, objs)
  {
    hide Take;
    hide IndexOf;
    hide KeyAfter;
    TakeAndWake(s, list, objs[0], w);
    StillWaitable(Kinds(s), objs);
    hide WaitOn;
    hide TookAtMostOne;
    var s1 := WaitOn(s, objs[0], w).value;
    assert WaitEach(s, objs, w) == WaitEach(s1, objs[1..], w);
    hide WaitEach;
    hide Waitable;
    SpentLoopSame(s1, objs[1..], w);
    TookAtOnce(s, s1, WaitEach(s1, objs[1..], w).value, w, list, objs);
  }

  /** How often an object is on a list. */
  function Occurrences(objs: seq<ObjId>, o: ObjId): nat {
    if objs == [] then 0 else (if objs[0] == o then 1 else 0) + Occurrences(objs[1..], o)
  }

  /** An object behind whose queue the same waker was put some number of times. */
  function QueuedTimes(obj: Object, w: Waker, n: nat): Object {
    obj.(queue := obj.queue + seq(n, _ => w))
  }

  /** Where nothing is available, the waker ends up once in a queue for every time its object is listed. */
  lemma {:induction false} QueuedEverywhere(s: State, objs: seq<ObjId>, w: Waker)
    requires Waitable(Kinds(s), objs) && FirstAvailable(Kinds(s), objs) == |objs|
    ensures WaitEach(s, objs, w).Ok?
    ensures var s' := WaitEach(s, objs, w).value;
      && |s'.objects| == |s.objects|
      && forall o :: 0 <= o < |s.objects| ==> s'.objects[o] == QueuedTimes(s.objects[o], w, Occurrences(objs, o))
    decreases |objs|
  {
    if objs == [] {
      forall o | 0 <= o < |s.objects| ensures s.objects[o] == QueuedTimes(s.objects[o], w, 0) {
        assert s.objects[o].queue + seq(0, _ => w) == s.objects[o].queue;
      }
    } else {
      var s1 := Push(s, objs[0], w);
      assert Kinds(s1) == Kinds(s);
      assert WaitEach(s, objs, w) == WaitEach(s1, objs[1..], w);
      QueuedEverywhere(s1, objs[1..], w);
      hide WaitEach;
      forall o | 0 <= o < |s.objects|
        ensures QueuedTimes(s1.objects[o], w, Occurrences(objs[1..], o)) ==
          QueuedTimes(s.objects[o], w, Occurrences(objs, o))
      {
        var q, n := s.objects[o].queue, Occurrences(objs[1..], o);
        assert (q + [w]) + seq(n, _ => w) == q + seq(n + 1, _ => w);
      }
    }
  }

  /**
    The caller waits for all of the objects, queued at each with the deadline it asked for, or has
    exactly the first available one and is told its position.
   */
  ghost predicate TookFirst(s: State, s': State, objs: seq<ObjId>, deadline: Option<nat>)
    requires RunningCurrent(s) && Waitable(Kinds(s), objs)
  {
    var t := s.current.value;
    var th := s.threads[t];
    var i := FirstAvailable(Kinds(s), objs);
    && |s'.threads| == |s.threads| && |s'.objects| == |s.objects|
    && (forall u :: 0 <= u < |s.threads| && u != t ==> s'.threads[u] == s.threads[u])
    && (forall o :: 0 <= o < |s.objects| && !(i < |objs| && o == objs[i]) ==>
          s'.objects[o].kind == s.objects[o].kind)
    && (i == |objs| ==>
          && s'.threads[t] == Sleeper(th, objs, deadline, WaitSyncN) && s'.history == s.history
          && forall o :: 0 <= o < |s.objects| ==>
               s'.objects[o] == QueuedTimes(s.objects[o], Waker(t, th.wakeKey), Occurrences(objs, o)))
    && (i < |objs| ==>
          && Taken(s.objects[objs[i]].kind, s'.objects[objs[i]].kind)
          && Resumed(Sleeper(th, objs, deadline, WaitSyncN), s'.threads[t], Some(objs[i]))
          && s'.threads[t].resume == WokenBy(i)
          && s'.history == s.history + [Woken(Waker(t, th.wakeKey), Some(objs[i]))])
  }

  /**
    WaitSynchronizationN as written, on any list of waitable objects and from any state: at most one
    object is taken, it is the first available one, its position is what the caller is told, and every
    other object keeps its signalled, acquired or dead state exactly.
   */
  lemma WaitNTakesAtMostOne(s: State, objs: seq<ObjId>, deadline: Option<nat>)
    requires RunningCurrent(s) && Waitable(Kinds(s), objs)
    ensures WaitN(s, objs, deadline).Ok? && TookFirst(s, WaitN(s, objs, deadline).value, objs, deadline)
  {
    hide KeyAfter;
    var r := Suspend(s, objs, deadline, WaitSyncN).value;
    assert Kinds(r.state) == Kinds(s);
    PendingLoop(r.state, objs, objs, r.waker);
    if FirstAvailable(Kinds(s), objs) == |objs| {
      QueuedEverywhere(r.state, objs, r.waker);
    }
    hide WaitEach;
    hide TookFirst;
    hide TookAtMostOne;
    hide FirstAvailable;
    hide Occurrences;
    hide Waitable;
    TookFirstFrom(s, r.state, WaitEach(r.state, objs, r.waker).value, objs, deadline);
  }

  /** What the loop does to the suspended caller's state, told from the state before the call. */
  lemma TookFirstFrom(s: State, r: State, s': State, objs: seq<ObjId>, deadline: Option<nat>)
    requires RunningCurrent(s) && Waitable(Kinds(s), objs)
    requires var t := s.current.value;
      r == s.(threads := s.threads[t := Sleeper(s.threads[t], objs, deadline, WaitSyncN)])
    requires |s'.objects| == |s.objects|
    requires TookAtMostOne(r, s', Waker(s.current.value, s.threads[s.current.value].wakeKey), objs, objs)
    requires FirstAvailable(Kinds(s), objs) == |objs| ==>
      forall o :: 0 <= o < |s.objects| ==>
        s'.objects[o] == QueuedTimes(
          s.objects[o], Waker(s.current.value, s.threads[s.current.value].wakeKey), Occurrences(objs, o))
    ensures TookFirst(s, s', objs, deadline)
  {
    hide KeyAfter;
    hide Occurrences;
    hide QueuedTimes;
    assert Kinds(r) == Kinds(s);
    var t := s.current.value;
    var i := FirstAvailable(Kinds(s), objs);
    if i < |objs| {
      FirstOccurrence(Kinds(s), objs, i);
      TakeTakes(Kinds(s)[objs[i]]);
      ToldPosition(r.threads[t], s'.threads[t], objs[i]);
    }
    KindsAfterLoop(r, s', objs);
    hide Kinds;
    hide Take;
    hide FirstAvailable;
    hide IndexOf;
    hide Taken;
    hide Resumed;
  }

  lemma KindsAfterLoop(r: State, s': State, objs: seq<ObjId>)
    requires ValidIds(objs, |r.objects|) && |s'.objects| == |r.objects|
    requires var i := FirstAvailable(Kinds(r), objs);
      Kinds(s') == if i < |objs| then Kinds(r)[objs[i] := Take(Kinds(r)[objs[i]])] else Kinds(r)
    ensures var i := FirstAvailable(Kinds(r), objs);
      forall o :: 0 <= o < |r.objects| ==>
        s'.objects[o].kind == if i < |objs| && o == objs[i] then Take(r.objects[o].kind) else r.objects[o].kind
  {
    hide Take;
    forall o | 0 <= o < |r.objects| ensures s'.objects[o].kind == Kinds(s')[o] {
    }
  }

  lemma ToldPosition(th: Thread, th': Thread, o: ObjId)
    requires th.waitType == Some(WaitSyncN) && o in th.waitObjects
    requires th' == th.(state := Ready, wakeKey := KeyAfter(th.wakeKey), waitObjects := [],
                        resume := WokenBy(IndexOf(th.waitObjects, o)))
    ensures Resumed(th, th', Some(o))
  {
  }

  lemma FirstOccurrence(kinds: seq<Kind>, objs: seq<ObjId>, i: nat)
    requires ValidIds(objs, |kinds|)
    requires i == FirstAvailable(kinds, objs) && i < |objs|
    ensures objs[i] in objs && IndexOf(objs, objs[i]) == i
  {
  }

  // ---------------------------------------------------------------- when the waker invariant survives

  /** Going on with a spent waker keeps the invariant exactly when nothing is queued. */
  lemma SpentKeepsIff(s: State, objs: seq<ObjId>, w: Waker)
    requires Inv(s) && Waitable(Kinds(s), objs)
    requires w.thread < |s.threads| && s.threads[w.thread].wakeKey != w.key
    ensures WaitEach(s, objs, w).Ok?
    ensures Inv(WaitEach(s, objs, w).value) <==> AllAvailable(Kinds(s), objs)
  {
    SpentLoop(s, objs, w);
    var s' := WaitEach(s, objs, w).value;
    if !AllAvailable(Kinds(s), objs) {
      var o :| 0 <= o < |s'.objects| && w in Queue(s'.objects[o]);
      assert !LiveIn(s', w, o);
    }
  }

  lemma {:induction false} LoopKeepsIff(s: State, list: seq<ObjId>, objs: seq<ObjId>, w: Waker)
    requires Inv(s)
    requires Waitable(Kinds(s), list) && Waitable(Kinds(s), objs)
    requires forall i :: 0 <= i < |objs| ==> objs[i] in list
    requires Pending(s, w, list)
    ensures WaitEach(s, objs, w).Ok?
    ensures Inv(WaitEach(s, objs, w).value) <==> SafeList(Kinds(s), objs)
    decreases |objs|
  {
    if objs != [] {
      if Available(s.objects[objs[0]].kind) {
        TakeKeepsIff(s, list, objs, w);
      } else {
        var s1 := Push(s, objs[0], w);
        PushKeeps(s, objs[0], w);
        assert Kinds(s1) == Kinds(s);
        LoopKeepsIff(s1, list, objs[1..], w);
      }
    }
  }

  lemma TakeKeepsIff(s: State, list: seq<ObjId>, objs: seq<ObjId>, w: Waker)
    requires Inv(s)
    requires Waitable(Kinds(s), list) && Waitable(Kinds(s), objs)
    requires forall i :: 0 <= i < |objs| ==> objs[i] in list
    requires Pending(s, w, list) && objs != [] && Available(s.objects[objs[0]].kind)
    ensures WaitEach(s, objs, w).Ok?
    ensures Inv(WaitEach(s, objs, w).value) <==> SafeList(Kinds(s), objs)
  {
    WaitOnKeeps(s, objs[0], w);
    TakeAndWake(s, list, objs[0], w);
    SpentKeepsIff(WaitOn(s, objs[0], w).value, objs[1..], w);
  }

  /** The waker invariant survives WaitSynchronizationN exactly on the safe lists. */
  lemma WaitNKeepsIffSafe(s: State, objs: seq<ObjId>, deadline: Option<nat>)
    requires Inv(s) && RunningCurrent(s) && Waitable(Kinds(s), objs)
    ensures WaitN(s, objs, deadline).Ok?
    ensures Inv(WaitN(s, objs, deadline).value) <==> SafeList(Kinds(s), objs)
  {
    SuspendKeeps(s, objs, deadline, WaitSyncN);
    var r := Suspend(s, objs, deadline, WaitSyncN).value;
    assert Kinds(r.state) == Kinds(s);
    LoopKeepsIff(r.state, objs, objs, r.waker);
  }
}
