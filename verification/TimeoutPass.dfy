/**
  The timeout pass: timeout_next, timeout_process, common_timeout_callback, and what
  they do together.
 */
module TimeoutPasses {
  import opened Bytes
  import opened EventQueues
  import opened EventBases
  import opened Timeouts

  /** min_heap_top_, as MinHeaps.MinHeap.Top provides it. */
  method LeastOf(heap: map<nat, nat>) returns (id: nat)
    requires heap != map[]
    ensures id in heap && forall x :: x in heap ==> heap[id] <= heap[x]
  {
    var keys := heap.Keys;
    assert keys != {};
    id :| id in keys;
    keys := keys - {id};
    while keys != {}
      invariant keys <= heap.Keys && id in heap
      invariant forall x :: x in heap && x !in keys ==> heap[id] <= heap[x]
    {
      var y :| y in keys;
      if heap[y] < heap[id] {
        id := y;
      }
      keys := keys - {y};
    }
  }

  /** An event deleted and then activated with EV_TIMEOUT. */
  function Fired(c: Cb): Cb {
    Activated(Deleted(c), true)
  }

  lemma FiredFacts(c: Cb)
    requires CbOk(c) && c.timeout
    ensures Fired(c) == c.(timeout := false, inserted := false, active := true, later := false, byTimeout := true)
    ensures CbOk(Fired(c))
  {
  }

  /** Firing leaves the internal timers in order: a timer that fires is active. */
  lemma TimersFired(cbs: Cbs, active: seq<seq<nat>>, later: seq<nat>, heap: map<nat, nat>, queues: seq<seq<nat>>,
                    timers: seq<nat>, but: nat, id: nat, heap': map<nat, nat>, queues': seq<seq<nat>>)
    requires QueuesOk(cbs, active, later, heap, queues) && TimersBut(cbs, timers, queues, but)
    requires id in cbs && cbs[id].timeout && CbOk(cbs[id]) && DelQueues(cbs[id], id, heap, queues, heap', queues')
    requires id in timers ==> but == |queues|
    ensures TimersBut(cbs[id := Fired(cbs[id])], timers, queues', but)
  {
    hide QueuesOk, TimersBut;
    FiredFacts(cbs[id]);
    if id in timers {
      var q :| 0 <= q < |timers| && timers[q] == id;
      TimersLen(cbs, timers, queues);
      TimerFacts(cbs, timers, queues, but, q);
      TimersWeaken(cbs, timers, queues, q);
      HeadsAreUsers(cbs, active, later, heap, queues, timers, q);
      HeadsKnown(cbs, active, later, heap, queues);
      TimersRepair(cbs, timers, queues, q, Fired(cbs[id]));
    } else {
      TimersTaken(cbs, active, later, heap, queues, timers, but, id, Fired(cbs[id]), queues');
    }
  }

  /** event_del_nolock_ and event_active_nolock_ with EV_TIMEOUT of a pending event. */
  method Fire(b: EventBase, id: nat, ghost but: nat)
    requires b.Almost(but) && id in b.cbs && b.cbs[id].timeout && (id in b.timers ==> but == |b.queues|)
    modifies b`cbs, b`active, b`later, b`heap, b`queues, b`eventCount, b`activeCount, b`cont
    ensures b.Almost(but)
    ensures b.cbs == old(b.cbs)[id := Fired(old(b.cbs)[id])]
    ensures DelQueues(old(b.cbs)[id], id, old(b.heap), old(b.queues), b.heap, b.queues)
    ensures b.running <= 0 ==> b.cont == old(b.cont)
  {
    hide QueuesOk, FlagsOk, Memberships, TotalLen, TimersBut, Activated, Deleted, DelQueues;
    FlagsAt(b.cbs, id);
    ghost var c := b.cbs[id];
    b.Del(id);
    TimersFired(old(b.cbs), old(b.active), old(b.later), old(b.heap), old(b.queues), b.timers, but, id, b.heap, b.queues);
    b.Activate(id, true);
    Overwrite(old(b.cbs), id, Deleted(c), Fired(c));
  }

  lemma TimersWeaken(cbs: Cbs, timers: seq<nat>, queues: seq<seq<nat>>, q: nat)
    requires TimersOk(cbs, timers, queues)
    ensures TimersBut(cbs, timers, queues, q)
  {
  }

  lemma HeadsKnown(cbs: Cbs, active: seq<seq<nat>>, later: seq<nat>, heap: map<nat, nat>, queues: seq<seq<nat>>)
    requires QueuesOk(cbs, active, later, heap, queues)
    ensures forall q :: 0 <= q < |queues| && queues[q] != [] ==> queues[q][0] in cbs
  {
    forall q | 0 <= q < |queues| && queues[q] != []
      ensures queues[q][0] in cbs
    {
      HeadInQueue(cbs, active, later, heap, queues, q);
    }
  }

  // ------------------------------------------------------------ timeout_process

  /** Pending in the heap, due at now. */
  predicate HeapDue(c: Cb, now: nat) {
    c.timeout && c.common == -1 && c.at <= now
  }

  /** Some of the events due in the heap were fired, and nothing else changed. */
  ghost predicate Firing(was: Cbs, cbs: Cbs, now: nat) {
    && was.Keys == cbs.Keys
    && (forall id :: id in was ==> cbs[id] == was[id] || (HeapDue(was[id], now) && cbs[id] == Fired(was[id])))
  }

  ghost predicate NoneDue(cbs: Cbs, now: nat) {
    forall id :: id in cbs ==> !HeapDue(cbs[id], now)
  }

  lemma FiringStep(was: Cbs, cbs: Cbs, now: nat, id: nat)
    requires Firing(was, cbs, now) && FlagsOk(cbs) && FlagsOk(was) && id in cbs && HeapDue(cbs[id], now)
    ensures Firing(was, cbs[id := Fired(cbs[id])], now)
  {
    FiredFacts(was[id]);
  }

  lemma FiringEnd(was: Cbs, cbs: Cbs, now: nat, id: nat)
    requires Firing(was, cbs, now) && NoneDue(cbs, now) && id in was
    ensures id in cbs && cbs[id] == if HeapDue(was[id], now) then Fired(was[id]) else was[id]
  {
  }

  lemma HeapHolds(cbs: Cbs, active: seq<seq<nat>>, later: seq<nat>, heap: map<nat, nat>, queues: seq<seq<nat>>)
    requires QueuesOk(cbs, active, later, heap, queues)
    ensures HoldsHeap(heap, cbs)
  {
  }

  lemma NothingDue(cbs: Cbs, heap: map<nat, nat>, now: nat)
    requires HoldsHeap(heap, cbs) && forall x :: x in heap ==> now < heap[x]
    ensures NoneDue(cbs, now)
  {
  }

  /** timeout_process: the events due in the heap fire, and nothing else changes. */
  method TimeoutProcess(b: EventBase, now: nat)
    requires b.Valid()
    modifies b`cbs, b`active, b`later, b`heap, b`queues, b`eventCount, b`activeCount, b`cont
    ensures b.Valid() && NoneDue(b.cbs, now)
    ensures Firing(old(b.cbs), b.cbs, now)
    ensures |b.queues| == |old(b.queues)|
    ensures b.running <= 0 ==> b.cont == old(b.cont)
  {
    hide QueuesOk, FlagsOk, Memberships, TotalLen, TimersBut, Firing, NoneDue, Fired;
    assert Firing(b.cbs, b.cbs, now) by {
      FiringSame(b.cbs, now);
    }
    while b.heap != map[]
      invariant b.Valid() && Firing(old(b.cbs), b.cbs, now) && |b.queues| == |old(b.queues)|
      invariant b.running <= 0 ==> b.cont == old(b.cont)
      decreases |b.heap|
    {
      HeapHolds(b.cbs, b.active, b.later, b.heap, b.queues);
      var id := LeastOf(b.heap);
      if b.heap[id] > now {
        NothingDue(b.cbs, b.heap, now);
        return;
      }
      // FINALIZING excludes TIMEOUT, so the event really leaves the heap.
      FlagsAt(b.cbs, id);
      FiringStep(old(b.cbs), b.cbs, now, id);
      ghost var h := b.heap;
      Fire(b, id, |b.queues|);
      Shrinks(id, h, b.heap);
    }
    HeapHolds(b.cbs, b.active, b.later, b.heap, b.queues);
    NothingDue(b.cbs, b.heap, now);
  }

  lemma Shrinks(id: nat, heap: map<nat, nat>, heap': map<nat, nat>)
    requires id in heap && heap' == heap - {id}
    ensures |heap'| < |heap|
  {
    assert heap.Keys == heap'.Keys + {id};
  }

  lemma FiringSame(cbs: Cbs, now: nat)
    ensures Firing(cbs, cbs, now)
  {
  }

  lemma TimersLen(cbs: Cbs, timers: seq<nat>, queues: seq<seq<nat>>)
    requires TimersOk(cbs, timers, queues)
    ensures |timers| == |queues|
  {
  }

  // ------------------------------------------------------------ common_timeout_callback

  /** Pending on common timeout q, due at now. */
  predicate CommonDue(c: Cb, q: nat, now: nat) {
    c.timeout && c.common == q && c.at <= now
  }

  ghost predicate CommonFiring(was: Cbs, cbs: Cbs, q: nat, now: nat) {
    && was.Keys == cbs.Keys
    && (forall id :: id in was ==> cbs[id] == was[id] || (CommonDue(was[id], q, now) && cbs[id] == Fired(was[id])))
  }

  lemma CommonStep(was: Cbs, cbs: Cbs, q: nat, now: nat, id: nat)
    requires CommonFiring(was, cbs, q, now) && FlagsOk(cbs) && FlagsOk(was) && id in cbs && CommonDue(cbs[id], q, now)
    ensures CommonFiring(was, cbs[id := Fired(cbs[id])], q, now)
  {
    FiredFacts(was[id]);
  }

  /** No event on common timeout q is due when the first is not. */
  lemma NoneWaiting(cbs: Cbs, active: seq<seq<nat>>, later: seq<nat>, heap: map<nat, nat>, queues: seq<seq<nat>>,
                    q: nat, now: nat)
    requires QueuesOk(cbs, active, later, heap, queues) && q < |queues|
    requires queues[q] == [] || (queues[q][0] in cbs && now < cbs[queues[q][0]].at)
    ensures forall id :: id in cbs ==> !CommonDue(cbs[id], q, now)
  {
    var list := queues[q];
    assert HoldsCommon(list, cbs, q) && Sorted(list, cbs);
    forall i | 0 <= i < |list|
      ensures now < cbs[list[i]].at
    {
      assert i > 0 ==> cbs[list[0]].at <= cbs[list[i]].at;
    }
  }

  /** The events of one common timeout that are due fired, and its timer, if pending,
      is no longer due. */
  ghost predicate CommonDone(was: Cbs, cbs: Cbs, timer: nat, q: nat, now: nat) {
    && was.Keys == cbs.Keys
    && (forall id :: id in was && id != timer ==>
          cbs[id] == if CommonDue(was[id], q, now) then Fired(was[id]) else was[id])
    && (timer in cbs ==> !HeapDue(cbs[timer], now) && !cbs[timer].active)
  }

  lemma CommonEnd(was: Cbs, cbs: Cbs, timer: nat, q: nat, now: nat, at: nat)
    requires CommonFiring(was, cbs, q, now) && forall id :: id in cbs ==> !CommonDue(cbs[id], q, now)
    requires timer in was && was[timer].common == -1 && !was[timer].timeout && !was[timer].active
    ensures CommonDone(was, cbs, timer, q, now)
    ensures now < at ==> CommonDone(was, cbs[timer := Scheduled(cbs[timer], at)], timer, q, now)
  {
  }

  lemma TimersEmpty(cbs: Cbs, timers: seq<nat>, queues: seq<seq<nat>>, q: nat)
    requires TimersBut(cbs, timers, queues, q) && q < |queues| && queues[q] == []
    ensures TimersOk(cbs, timers, queues)
  {
  }

  /** common_timeout_callback, after its timer left the active queue. */
  method CommonCallback(b: EventBase, q: nat, now: nat)
    requires b.Almost(q) && q < |b.queues| && b.timers[q] in b.cbs
    requires !b.cbs[b.timers[q]].timeout && !b.cbs[b.timers[q]].active
    modifies b`cbs, b`active, b`later, b`heap, b`queues, b`eventCount, b`activeCount, b`cont
    ensures b.Valid() && |b.queues| == |old(b.queues)|
    ensures CommonDone(old(b.cbs), b.cbs, b.timers[q], q, now)
    ensures b.running <= 0 ==> b.cont == old(b.cont)
  {
    hide QueuesOk, FlagsOk, Memberships, TotalLen, TimersBut, CommonFiring, CommonDone, Fired;
    TimerFacts(b.cbs, b.timers, b.queues, q, q);
    assert CommonFiring(b.cbs, b.cbs, q, now) by {
      CommonSame(b.cbs, q, now);
    }
    while b.queues[q] != []
      invariant b.Almost(q) && |b.queues| == |old(b.queues)| && CommonFiring(old(b.cbs), b.cbs, q, now)
      invariant b.running <= 0 ==> b.cont == old(b.cont)
      decreases |b.queues[q]|
    {
      HeadInQueue(b.cbs, b.active, b.later, b.heap, b.queues, q);
      HeadsAreUsers(b.cbs, b.active, b.later, b.heap, b.queues, b.timers, q);
      var id := b.queues[q][0];
      if b.cbs[id].at > now {
        break;
      }
      FlagsAt(b.cbs, id);
      CommonStep(old(b.cbs), b.cbs, q, now, id);
      Fire(b, id, q);
    }
    if b.queues[q] != [] {
      HeadInQueue(b.cbs, b.active, b.later, b.heap, b.queues, q);
      var at := b.cbs[b.queues[q][0]].at;
      NoneWaiting(b.cbs, b.active, b.later, b.heap, b.queues, q, now);
      CommonEnd(old(b.cbs), b.cbs, b.timers[q], q, now, at);
      ScheduleTimer(b, q);
    } else {
      NoneWaiting(b.cbs, b.active, b.later, b.heap, b.queues, q, now);
      CommonEnd(old(b.cbs), b.cbs, b.timers[q], q, now, 0);
      TimersEmpty(b.cbs, b.timers, b.queues, q);
    }
  }

  lemma CommonSame(cbs: Cbs, q: nat, now: nat)
    ensures CommonFiring(cbs, cbs, q, now)
  {
  }

  /** The active internal timer runs: it is deleted, and its callback called. */
  method RunTimer(b: EventBase, q: nat, now: nat)
    requires b.Valid() && q < |b.queues| && b.timers[q] in b.cbs && b.cbs[b.timers[q]].active
    modifies b`cbs, b`active, b`later, b`heap, b`queues, b`eventCount, b`activeCount, b`cont
    ensures b.Valid() && |b.queues| == |old(b.queues)|
    ensures CommonDone(old(b.cbs), b.cbs, b.timers[q], q, now)
    ensures b.running <= 0 ==> b.cont == old(b.cont)
  {
    hide QueuesOk, FlagsOk, Memberships, TotalLen, TimersBut, CommonDone;
    TimersLen(b.cbs, b.timers, b.queues);
    TimerFacts(b.cbs, b.timers, b.queues, |b.queues|, q);
    var t := b.timers[q];
    ghost var d := Deleted(b.cbs[t]);
    HeadsAreUsers(b.cbs, b.active, b.later, b.heap, b.queues, b.timers, |b.queues|);
    TimersSuspend(b.cbs, b.timers, b.queues, q, d);
    b.Del(t);
    CommonCallback(b, q, now);
    CommonDoneFrom(old(b.cbs), d, b.cbs, t, q, now);
  }

  lemma CommonDoneFrom(was: Cbs, d: Cb, cbs: Cbs, timer: nat, q: nat, now: nat)
    requires timer in was && CommonDone(was[timer := d], cbs, timer, q, now)
    ensures CommonDone(was, cbs, timer, q, now)
  {
  }

  lemma TimersSuspend(cbs: Cbs, timers: seq<nat>, queues: seq<seq<nat>>, q: nat, d: Cb)
    requires TimersOk(cbs, timers, queues) && q < |queues| && HeadsOfUsers(timers, queues)
    requires TimerShape(d)
    ensures |timers| == |queues| && TimersBut(cbs[timers[q] := d], timers, queues, q)
  {
    forall x | 0 <= x < |queues| && x != q
      ensures TimerOk(cbs[timers[q] := d], timers[x], queues[x])
    {
      assert TimerOk(cbs, timers[x], queues[x]);
      assert timers[x] != timers[q] && timers[q] in timers;
    }
  }

  // ------------------------------------------------------------ the whole pass

  /** Pending and due at now, in the heap or on a common timeout below q. */
  predicate DueBelow(c: Cb, q: nat, now: nat) {
    c.timeout && c.at <= now && c.common < q
  }

  /** What has happened to the user's events when the timers below q have run. */
  ghost predicate PassBelow(was: Cbs, cbs: Cbs, timers: seq<nat>, q: nat, now: nat) {
    && was.Keys == cbs.Keys
    && (forall id :: id in was && id !in timers ==>
          cbs[id] == if DueBelow(was[id], q, now) then Fired(was[id]) else was[id])
  }

  lemma CommonRange(cbs: Cbs, active: seq<seq<nat>>, later: seq<nat>, heap: map<nat, nat>, queues: seq<seq<nat>>)
    requires QueuesOk(cbs, active, later, heap, queues)
    ensures forall id :: id in cbs ==> -1 <= cbs[id].common < |queues|
  {
  }

  lemma PassStart(was: Cbs, cbs: Cbs, timers: seq<nat>, now: nat)
    requires Firing(was, cbs, now) && NoneDue(cbs, now) && forall id :: id in was ==> -1 <= was[id].common
    ensures PassBelow(was, cbs, timers, 0, now)
  {
    forall id | id in was
      ensures cbs[id] == if DueBelow(was[id], 0, now) then Fired(was[id]) else was[id]
    {
      FiringEnd(was, cbs, now, id);
    }
  }

  /** The timer of queue q ran. */
  lemma PassRun(was: Cbs, cbs: Cbs, cbs': Cbs, timers: seq<nat>, q: nat, now: nat)
    requires PassBelow(was, cbs, timers, q, now) && NoneDue(cbs, now) && FlagsOk(cbs)
    requires q < |timers| && timers[q] in cbs && CommonDone(cbs, cbs', timers[q], q, now)
    ensures PassBelow(was, cbs', timers, q + 1, now) && NoneDue(cbs', now)
  {
    forall id | id in cbs
      ensures !HeapDue(cbs'[id], now)
    {
      if id != timers[q] && CommonDue(cbs[id], q, now) {
        FiredFacts(cbs[id]);
      }
    }
    forall id | id in was && id !in timers
      ensures cbs'[id] == if DueBelow(was[id], q + 1, now) then Fired(was[id]) else was[id]
    {
      assert timers[q] in timers;
    }
  }

  /** The timer of queue q is not active, so nothing on its queue is due. */
  lemma PassSkip(was: Cbs, cbs: Cbs, active: seq<seq<nat>>, later: seq<nat>, heap: map<nat, nat>, queues: seq<seq<nat>>,
                 timers: seq<nat>, q: nat, now: nat)
    requires QueuesOk(cbs, active, later, heap, queues) && TimersOk(cbs, timers, queues)
    requires PassBelow(was, cbs, timers, q, now) && NoneDue(cbs, now) && q < |queues|
    requires timers[q] in cbs && !cbs[timers[q]].active
    ensures PassBelow(was, cbs, timers, q + 1, now)
  {
    assert TimerOk(cbs, timers[q], queues[q]);
    assert !HeapDue(cbs[timers[q]], now);
    NoneWaiting(cbs, active, later, heap, queues, q, now);
    forall id | id in was && id !in timers
      ensures cbs[id] == if DueBelow(was[id], q + 1, now) then Fired(was[id]) else was[id]
    {
      assert !CommonDue(cbs[id], q, now);
    }
  }

  /** timeout_process, then each internal timer it activated: exactly the user's events
      whose deadline is at or before now fire, whether they waited in the heap or on a
      common timeout, and no other event of the user changes. */
  method TimeoutPass(b: EventBase, now: nat)
    requires b.Valid()
    modifies b`cbs, b`active, b`later, b`heap, b`queues, b`eventCount, b`activeCount, b`cont
    ensures b.Valid() && b.cbs.Keys == old(b.cbs).Keys
    ensures forall id :: id in b.cbs && id !in b.timers ==>
      b.cbs[id] == var c := old(b.cbs)[id]; if c.timeout && c.at <= now then Fired(c) else c
  {
    hide QueuesOk, FlagsOk, Memberships, TotalLen, TimersBut, CommonDone, Firing, NoneDue, PassBelow, Fired;
    CommonRange(b.cbs, b.active, b.later, b.heap, b.queues);
    TimeoutProcess(b, now);
    PassStart(old(b.cbs), b.cbs, b.timers, now);
    TimersLen(b.cbs, b.timers, b.queues);
    var q := 0;
    while q < |b.queues|
      invariant q <= |b.queues| == |old(b.queues)| == |b.timers|
      invariant b.Valid() && PassBelow(old(b.cbs), b.cbs, b.timers, q, now) && NoneDue(b.cbs, now)
    {
      TimerFacts(b.cbs, b.timers, b.queues, |b.queues|, q);
      ghost var mid := b.cbs;
      if b.cbs[b.timers[q]].active {
        RunTimer(b, q, now);
        PassRun(old(b.cbs), mid, b.cbs, b.timers, q, now);
      } else {
        PassSkip(old(b.cbs), b.cbs, b.active, b.later, b.heap, b.queues, b.timers, q, now);
      }
      q := q + 1;
    }
    PassEnd(old(b.cbs), b.cbs, b.timers, q, now);
  }

  lemma PassEnd(was: Cbs, cbs: Cbs, timers: seq<nat>, q: nat, now: nat)
    requires PassBelow(was, cbs, timers, q, now) && forall id :: id in was ==> was[id].common < q
    ensures was.Keys == cbs.Keys
    ensures forall id :: id in cbs && id !in timers ==>
      cbs[id] == if was[id].timeout && was[id].at <= now then Fired(was[id]) else was[id]
  {
  }

  // ------------------------------------------------------------ timeout_next

  lemma {:induction false} NothingActive(active: seq<seq<nat>>, p: nat)
    requires TotalLen(active) == 0 && p < |active|
    ensures active[p] == []
  {
    if p > 0 {
      NothingActive(active[1..], p - 1);
    }
  }

  /** A pending event is in the heap, or the timer of its queue is, no later. */
  lemma HeapCovers(cbs: Cbs, active: seq<seq<nat>>, later: seq<nat>, heap: map<nat, nat>, queues: seq<seq<nat>>,
                   timers: seq<nat>, id: nat)
    requires QueuesOk(cbs, active, later, heap, queues) && TimersOk(cbs, timers, queues)
    requires TotalLen(active) == 0 && id in cbs && cbs[id].timeout
    ensures exists x :: x in heap && heap[x] <= cbs[id].at
  {
    hide TotalLen;
    if cbs[id].common == -1 {
      assert id in heap;
    } else {
      var q := cbs[id].common;
      var list, t := queues[q], timers[q];
      assert HoldsCommon(list, cbs, q) && Sorted(list, cbs);
      assert id in list;
      var i :| 0 <= i < |list| && list[i] == id;
      assert i > 0 ==> cbs[list[0]].at <= cbs[list[i]].at;
      assert TimerOk(cbs, t, list);
      NothingActive(active, 0);
      assert HoldsActive(active[0], cbs, 0);
      assert !cbs[t].active by {
        assert t !in active[0];
      }
      assert t in heap;
    }
  }

  /** timeout_next: how long to wait, None for no limit.  When nothing is active the
      wait ends by the deadline of every pending event, on whatever queue. */
  method TimeoutNext(b: EventBase, now: nat) returns (wait: Option<nat>)
    requires b.Valid()
    ensures wait.None? <==> b.heap == map[]
    ensures wait.Some? && wait.value > 0 ==> exists x :: x in b.heap && b.heap[x] == now + wait.value
    ensures b.activeCount == 0 ==> forall id :: id in b.cbs && b.cbs[id].timeout ==>
      wait.Some? && (wait.value == 0 || now + wait.value <= b.cbs[id].at)
  {
    hide QueuesOk, FlagsOk, Memberships, TotalLen, TimersBut;
    forall id | b.activeCount == 0 && id in b.cbs && b.cbs[id].timeout
      ensures exists x :: x in b.heap && b.heap[x] <= b.cbs[id].at
    {
      HeapCovers(b.cbs, b.active, b.later, b.heap, b.queues, b.timers, id);
    }
    if b.heap == map[] {
      return None;
    }
    var id := LeastOf(b.heap);
    wait := Some(if b.heap[id] <= now then 0 else b.heap[id] - now);
  }
}
