/**
  The event_base of event.c: queue primitives, adding, deleting and activating
  events, deferred callbacks and finalizers.  The timer heap appears as the map from
  events to deadlines that MinHeaps.MinHeap maintains.
 */
module EventBases {
  import opened EventQueues

  const MAX_DEFERREDS_QUEUED: nat := 32

  lemma ActiveRemove(list: seq<nat>, cbs: Cbs, id: nat, d: Cb)
    requires id in cbs && cbs[id].active && !d.active && d.attr.pri == cbs[id].attr.pri
    requires HoldsActive(list, cbs, d.attr.pri)
    ensures HoldsActive(Without(list, id), cbs[id := d], d.attr.pri)
    ensures |Without(list, id)| == |list| - 1
  {
    WithoutFacts(list, id);
  }

  lemma ActiveInsert(list: seq<nat>, cbs: Cbs, id: nat, d: Cb)
    requires id in cbs && !cbs[id].active && d.active && d.attr.pri == cbs[id].attr.pri
    requires HoldsActive(list, cbs, d.attr.pri)
    ensures HoldsActive(list + [id], cbs[id := d], d.attr.pri)
  {
    AppendFacts(list, id);
  }

  lemma LaterRemove(list: seq<nat>, cbs: Cbs, id: nat, d: Cb)
    requires id in cbs && cbs[id].later && !d.later && HoldsLater(list, cbs)
    ensures HoldsLater(Without(list, id), cbs[id := d])
    ensures |Without(list, id)| == |list| - 1
  {
    WithoutFacts(list, id);
  }

  lemma LaterInsert(list: seq<nat>, cbs: Cbs, id: nat, d: Cb)
    requires id in cbs && !cbs[id].later && d.later && HoldsLater(list, cbs)
    ensures HoldsLater(list + [id], cbs[id := d])
  {
    AppendFacts(list, id);
  }

  lemma CommonRemove(list: seq<nat>, cbs: Cbs, id: nat, d: Cb, q: nat)
    requires id in cbs && cbs[id].timeout && cbs[id].common == q && !d.timeout
    requires HoldsCommon(list, cbs, q) && Sorted(list, cbs)
    ensures HoldsCommon(Without(list, id), cbs[id := d], q) && Sorted(Without(list, id), cbs[id := d])
  {
    hide Sorted;
    WithoutFacts(list, id);
    SortedWithout(list, cbs, id);
    SortedFrame(Without(list, id), cbs, id, d);
  }

  lemma {:induction false} SortedWithout(list: seq<nat>, cbs: Cbs, id: nat)
    requires Sorted(list, cbs) && NoDup(list)
    ensures Sorted(Without(list, id), cbs)
  {
    if list != [] && list[0] != id {
      var rest := list[1..];
      assert forall i :: 0 <= i < |rest| ==> rest[i] == list[i + 1];
      SortedWithout(rest, cbs, id);
      WithoutFacts(rest, id);
      var r := Without(rest, id);
      forall i | 0 <= i < |r|
        ensures cbs[list[0]].at <= cbs[r[i]].at
      {
        assert r[i] in rest;
      }
    }
  }

  lemma SortedFrame(list: seq<nat>, cbs: Cbs, id: nat, d: Cb)
    requires Sorted(list, cbs) && id in cbs && id !in list
    ensures Sorted(list, cbs[id := d])
  {
    assert forall i :: 0 <= i < |list| ==> list[i] in list;
  }

  /** The search of insert_common_timeout_inorder, from the end. */
  method InsertionPoint(list: seq<nat>, cbs: Cbs, at: nat) returns (k: nat)
    requires Sorted(list, cbs)
    ensures k <= |list|
    ensures forall i :: 0 <= i < k ==> cbs[list[i]].at <= at
    ensures forall i :: k <= i < |list| ==> at < cbs[list[i]].at
  {
    k := |list|;
    while k > 0 && at < cbs[list[k - 1]].at
      invariant k <= |list|
      invariant forall i :: k <= i < |list| ==> at < cbs[list[i]].at
    {
      k := k - 1;
    }
  }

  lemma CommonInsert(list: seq<nat>, cbs: Cbs, id: nat, d: Cb, q: nat, k: nat)
    requires id in cbs && !cbs[id].timeout && d.timeout && d.common == q
    requires HoldsCommon(list, cbs, q) && Sorted(list, cbs) && k <= |list|
    requires forall i :: 0 <= i < k ==> cbs[list[i]].at <= d.at
    requires forall i :: k <= i < |list| ==> d.at < cbs[list[i]].at
    ensures HoldsCommon(list[..k] + [id] + list[k..], cbs[id := d], q)
    ensures Sorted(list[..k] + [id] + list[k..], cbs[id := d])
  {
    hide HoldsCommon, Sorted;
    NotPending(list, cbs, id, q);
    InsertMembers(list, id, k);
    InsertHolds(list, cbs, id, d, q, k);
    InsertSorted(list, cbs, id, d, k);
  }

  lemma NotPending(list: seq<nat>, cbs: Cbs, id: nat, q: nat)
    requires HoldsCommon(list, cbs, q) && id in cbs && !cbs[id].timeout
    ensures id !in list && NoDup(list)
  {
  }

  lemma InsertHolds(list: seq<nat>, cbs: Cbs, id: nat, d: Cb, q: nat, k: nat)
    requires id in cbs && !cbs[id].timeout && d.timeout && d.common == q
    requires HoldsCommon(list, cbs, q) && k <= |list|
    requires NoDup(list[..k] + [id] + list[k..])
    requires forall x :: x in list[..k] + [id] + list[k..] <==> x in list || x == id
    ensures HoldsCommon(list[..k] + [id] + list[k..], cbs[id := d], q)
  {
  }

  lemma InsertSorted(list: seq<nat>, cbs: Cbs, id: nat, d: Cb, k: nat)
    requires id in cbs && Sorted(list, cbs) && id !in list && k <= |list|
    requires forall i :: 0 <= i < k ==> cbs[list[i]].at <= d.at
    requires forall i :: k <= i < |list| ==> d.at < cbs[list[i]].at
    ensures Sorted(list[..k] + [id] + list[k..], cbs[id := d])
  {
    var r, m := list[..k] + [id] + list[k..], cbs[id := d];
    forall i | 0 <= i < |r|
      ensures r[i] in m
      ensures i < k ==> m[r[i]].at == cbs[list[i]].at
      ensures i > k ==> m[r[i]].at == cbs[list[i - 1]].at
    {
      if i != k {
        assert r[i] == list[if i < k then i else i - 1];
        assert r[i] in list;
      }
    }
  }

  lemma InsertMembers(list: seq<nat>, id: nat, k: nat)
    requires k <= |list| && NoDup(list) && id !in list
    ensures NoDup(list[..k] + [id] + list[k..])
    ensures forall x :: x in list[..k] + [id] + list[k..] <==> x in list || x == id
  {
    var r := list[..k] + [id] + list[k..];
    forall i | 0 <= i < |r|
      ensures i < k ==> r[i] == list[i]
      ensures i > k ==> r[i] == list[i - 1]
    {
    }
    forall x | x in list
      ensures x in r
    {
      var i :| 0 <= i < |list| && list[i] == x;
      assert r[if i < k then i else i + 1] == x;
    }
  }

  /** What the flags of one callback may be. */
  predicate CbOk(c: Cb) {
    && !(c.active && c.later)
    && (c.finalizing ==> !c.inserted && !c.timeout)
    && (c.timeout || c.inserted || c.attr.io || c.attr.persist ==> c.attr.isEvent)
  }

  lemma Overwrite(cbs: Cbs, id: nat, c: Cb, d: Cb)
    ensures cbs[id := c][id := d] == cbs[id := d]
  {
  }

  lemma Unchanged(cbs: Cbs, id: nat)
    requires id in cbs
    ensures cbs[id := cbs[id]] == cbs
  {
  }

  ghost predicate FlagsOk(cbs: Cbs) {
    forall id :: id in cbs ==> CbOk(cbs[id])
  }

  lemma FlagsSet(cbs: Cbs, id: nat, d: Cb)
    requires FlagsOk(cbs) && id in cbs && CbOk(d)
    ensures FlagsOk(cbs[id := d])
  {
  }

  lemma FlagsAt(cbs: Cbs, id: nat)
    requires FlagsOk(cbs) && id in cbs
    ensures CbOk(cbs[id])
  {
  }

  /** What never changes of an internal timer, and that only its timeout activates it. */
  predicate TimerShape(t: Cb) {
    && t.attr == Attr(true, true, false, false, false, 0) && t.common == -1
    && !t.finalizing && !t.later && !t.inserted && (t.active ==> t.byTimeout)
  }

  /** The internal timer of a common timeout: when events wait, it is active, or
      pending no later than the first of them. */
  ghost predicate TimerOk(cbs: Cbs, timer: nat, list: seq<nat>) {
    && timer in cbs && TimerShape(cbs[timer])
    && (list != [] ==>
          list[0] in cbs && (cbs[timer].active || (cbs[timer].timeout && cbs[timer].at <= cbs[list[0]].at)))
  }

  ghost predicate TimersOk(cbs: Cbs, timers: seq<nat>, queues: seq<seq<nat>>) {
    TimersBut(cbs, timers, queues, |queues|)
  }

  /** Every timer but that of queue but is in order. */
  ghost predicate TimersBut(cbs: Cbs, timers: seq<nat>, queues: seq<seq<nat>>, but: nat) {
    && |timers| == |queues| && NoDup(timers)
    && (forall q :: 0 <= q < |queues| && q != but ==> TimerOk(cbs, timers[q], queues[q]))
    && (forall q :: 0 <= q < |queues| ==> timers[q] in cbs && TimerShape(cbs[timers[q]]))
  }

  /** Changing an ordinary callback does not disturb the internal timers, unless it
      heads a queue and its deadline moves. */
  lemma TimersFrame(cbs: Cbs, timers: seq<nat>, queues: seq<seq<nat>>, but: nat, id: nat, d: Cb)
    requires TimersBut(cbs, timers, queues, but) && id in cbs && id !in timers
    requires d.at == cbs[id].at || forall q :: 0 <= q < |queues| ==> id !in queues[q]
    ensures TimersBut(cbs[id := d], timers, queues, but)
  {
    forall q | 0 <= q < |queues| && q != but
      ensures TimerOk(cbs[id := d], timers[q], queues[q])
    {
      assert TimerOk(cbs, timers[q], queues[q]);
      assert timers[q] in timers;
      if queues[q] != [] {
        assert queues[q][0] in queues[q];
      }
    }
  }

  /** Taking an event out of a sorted queue: the new head is not earlier. */
  lemma TimersRemove(cbs: Cbs, timers: seq<nat>, queues: seq<seq<nat>>, but: nat, id: nat, q: nat)
    requires TimersBut(cbs, timers, queues, but) && q < |queues| && Sorted(queues[q], cbs) && NoDup(queues[q])
    ensures TimersBut(cbs, timers, queues[q := Without(queues[q], id)], but)
  {
    var list := queues[q];
    var r := Without(list, id);
    assert q != but ==> TimerOk(cbs, timers[q], list);
    WithoutFacts(list, id);
    if r != [] {
      assert r[0] in r;
      var i :| 0 <= i < |list| && list[i] == r[0];
      assert cbs[list[0]].at <= cbs[r[0]].at;
    }
    forall x | 0 <= x < |queues| && x != but
      ensures TimerOk(cbs, timers[x], queues[q := r][x])
    {
      assert TimerOk(cbs, timers[x], queues[x]);
    }
  }

  /** Inserting an event that does not come first. */
  lemma TimersInsert(cbs: Cbs, timers: seq<nat>, queues: seq<seq<nat>>, id: nat, q: nat, k: nat)
    requires TimersOk(cbs, timers, queues) && q < |queues| && 0 < k <= |queues[q]|
    ensures TimersOk(cbs, timers, queues[q := queues[q][..k] + [id] + queues[q][k..]])
  {
    var list := queues[q];
    var r := list[..k] + [id] + list[k..];
    assert r[0] == list[0];
    forall x | 0 <= x < |queues|
      ensures TimerOk(cbs, timers[x], queues[q := r][x])
    {
      assert TimerOk(cbs, timers[x], queues[x]);
    }
  }

  lemma NotInQueues(cbs: Cbs, active: seq<seq<nat>>, later: seq<nat>, heap: map<nat, nat>, queues: seq<seq<nat>>, id: nat)
    requires QueuesOk(cbs, active, later, heap, queues) && id in cbs && !cbs[id].timeout
    ensures forall q :: 0 <= q < |queues| ==> id !in queues[q]
  {
  }

  /** A callback on no queue. */
  predicate Idle(c: Cb, nPriorities: nat) {
    && CbOk(c) && c.attr.pri < nPriorities && c.common == -1 && (c.attr.persist ==> c.period == 0 && c.ioCommon == -1)
    && !c.timeout && !c.inserted && !c.active && !c.later
  }

  class EventBase {
    var cbs: Cbs
    var active: seq<seq<nat>>
    var later: seq<nat>
    var heap: map<nat, nat>
    /** The events on each common timeout, and the internal timer of each. */
    var queues: seq<seq<nat>>
    const timers: seq<nat>
    /** nactivequeues */
    const nActive: nat
    var eventCount: int
    var activeCount: int
    var nDeferreds: nat
    var running: int
    var cont: bool

    /** event_base_new, with the callbacks that will be used on it, none of them active or
        pending, among them an internal timer for each common timeout. */
    constructor (callbacks: Cbs, internals: seq<nat>, nPriorities: nat)
      requires forall id :: id in callbacks ==> Idle(callbacks[id], nPriorities)
      requires NoDup(internals) && forall t :: t in internals ==> t in callbacks && TimerShape(callbacks[t])
      ensures Valid() && running == -1 && !cont && nDeferreds == 0
      ensures cbs == callbacks && timers == internals && nActive == nPriorities && |queues| == |internals|
    {
      cbs, timers, nActive := callbacks, internals, nPriorities;
      active, queues := seq(nPriorities, i => []), seq(|internals|, i => []);
      later, heap := [], map[];
      eventCount, activeCount, nDeferreds, running, cont := 0, 0, 0, -1, false;
      new;
      NothingQueued(active);
      assert forall k :: Members(cbs, k) == {};
    }

    /** Queue membership matches the flags and the counters match the queues. */
    ghost predicate Sound()
      reads this`cbs, this`active, this`later, this`heap, this`queues, this`eventCount, this`activeCount
    {
      && QueuesOk(cbs, active, later, heap, queues) && |active| == nActive
      && eventCount == Memberships(cbs)
      && activeCount == TotalLen(active) + |later|
    }

    ghost predicate Valid()
      reads this`cbs, this`active, this`later, this`heap, this`queues, this`eventCount, this`activeCount
    {
      Sound() && FlagsOk(cbs) && TimersOk(cbs, timers, queues)
    }

    /** Everything but the internal timer of queue but is in order. */
    ghost predicate Almost(but: nat)
      reads this`cbs, this`active, this`later, this`heap, this`queues, this`eventCount, this`activeCount
    {
      Sound() && FlagsOk(cbs) && TimersBut(cbs, timers, queues, but)
    }

    /** An event or callback of the user, not an internal timer. */
    predicate User(id: nat)
      reads this`cbs
    {
      id in cbs && id !in timers
    }

    /** event_queue_remove_active */
    method RemoveActive(id: nat)
      requires Sound() && id in cbs && cbs[id].active
      modifies this`cbs, this`active, this`eventCount, this`activeCount
      ensures Sound()
      ensures cbs == old(cbs)[id := old(cbs)[id].(active := false)]
      ensures var p := old(cbs)[id].attr.pri;
        p < |old(active)| && active == old(active)[p := Without(old(active)[p], id)]
    {
      hide HoldsActive, HoldsLater, HoldsHeap, HoldsCommon, Sorted, Memberships, TotalLen;
      var c := cbs[id];
      var d := c.(active := false);
      ActiveRemove(active[c.attr.pri], cbs, id, d);
      SetActive(cbs, active, later, heap, queues, id, d, Without(active[c.attr.pri], id));
      MembershipsFlip(cbs, id, d, KActive);
      TotalLenUpdate(active, c.attr.pri, Without(active[c.attr.pri], id));
      active := active[c.attr.pri := Without(active[c.attr.pri], id)];
      cbs := cbs[id := d];
      eventCount := eventCount - if c.attr.internal then 0 else 1;
      activeCount := activeCount - 1;
    }

    /** event_queue_insert_active */
    method InsertActive(id: nat)
      requires Sound() && id in cbs && !cbs[id].active
      modifies this`cbs, this`active, this`eventCount, this`activeCount
      ensures Sound()
      ensures cbs == old(cbs)[id := old(cbs)[id].(active := true)]
      ensures var p := old(cbs)[id].attr.pri;
        p < |old(active)| && active == old(active)[p := old(active)[p] + [id]]
    {
      hide HoldsActive, HoldsLater, HoldsHeap, HoldsCommon, Sorted, Memberships, TotalLen;
      var c := cbs[id];
      var d := c.(active := true);
      ActiveInsert(active[c.attr.pri], cbs, id, d);
      SetActive(cbs, active, later, heap, queues, id, d, active[c.attr.pri] + [id]);
      MembershipsFlip(cbs, id, d, KActive);
      TotalLenUpdate(active, c.attr.pri, active[c.attr.pri] + [id]);
      active := active[c.attr.pri := active[c.attr.pri] + [id]];
      cbs := cbs[id := d];
      eventCount := eventCount + if c.attr.internal then 0 else 1;
      activeCount := activeCount + 1;
    }

    /** event_queue_remove_active_later */
    method RemoveLater(id: nat)
      requires Sound() && id in cbs && cbs[id].later
      modifies this`cbs, this`later, this`eventCount, this`activeCount
      ensures Sound()
      ensures cbs == old(cbs)[id := old(cbs)[id].(later := false)]
      ensures later == Without(old(later), id)
    {
      hide HoldsActive, HoldsLater, HoldsHeap, HoldsCommon, Sorted, Memberships, TotalLen;
      var c := cbs[id];
      var d := c.(later := false);
      LaterRemove(later, cbs, id, d);
      SetLater(cbs, active, later, heap, queues, id, d, Without(later, id));
      MembershipsFlip(cbs, id, d, KLater);
      later := Without(later, id);
      cbs := cbs[id := d];
      eventCount := eventCount - if c.attr.internal then 0 else 1;
      activeCount := activeCount - 1;
    }

    /** event_queue_insert_active_later */
    method InsertLater(id: nat)
      requires Sound() && id in cbs && !cbs[id].later && !cbs[id].active
      modifies this`cbs, this`later, this`eventCount, this`activeCount
      ensures Sound()
      ensures cbs == old(cbs)[id := old(cbs)[id].(later := true)]
      ensures later == old(later) + [id]
    {
      hide HoldsActive, HoldsLater, HoldsHeap, HoldsCommon, Sorted, Memberships, TotalLen;
      var c := cbs[id];
      var d := c.(later := true);
      LaterInsert(later, cbs, id, d);
      SetLater(cbs, active, later, heap, queues, id, d, later + [id]);
      MembershipsFlip(cbs, id, d, KLater);
      later := later + [id];
      cbs := cbs[id := d];
      eventCount := eventCount + if c.attr.internal then 0 else 1;
      activeCount := activeCount + 1;
    }

    /** event_queue_insert_inserted and event_queue_remove_inserted */
    method SetInserted(id: nat, on: bool)
      requires Sound() && id in cbs && cbs[id].inserted != on
      modifies this`cbs, this`eventCount
      ensures Sound()
      ensures cbs == old(cbs)[id := old(cbs)[id].(inserted := on)]
    {
      hide HoldsActive, HoldsLater, HoldsHeap, HoldsCommon, Sorted, Memberships, TotalLen;
      var d := cbs[id].(inserted := on);
      SetOther(cbs, active, later, heap, queues, id, d);
      MembershipsFlip(cbs, id, d, KInserted);
      cbs := cbs[id := d];
      eventCount := eventCount + if d.attr.internal then 0 else if on then 1 else -1;
    }

    /** event_queue_remove_timeout */
    method RemoveTimeout(id: nat)
      requires Sound() && id in cbs && cbs[id].timeout
      modifies this`cbs, this`heap, this`queues, this`eventCount
      ensures Sound()
      ensures cbs == old(cbs)[id := old(cbs)[id].(timeout := false)]
      ensures var q := old(cbs)[id].common;
        if q == -1 then heap == old(heap) - {id} && queues == old(queues)
        else
          && heap == old(heap) && 0 <= q < |old(queues)|
          && queues == old(queues)[q := Without(old(queues)[q], id)]
    {
      hide HoldsActive, HoldsLater, HoldsCommon, Sorted, Memberships, TotalLen;
      var c := cbs[id];
      var d := c.(timeout := false);
      MembershipsFlip(cbs, id, d, KTimeout);
      if c.common == -1 {
        SetHeap(cbs, active, later, heap, queues, id, d, heap - {id});
        heap := heap - {id};
      } else {
        var q := c.common;
        CommonRemove(queues[q], cbs, id, d, q);
        SetCommon(cbs, active, later, heap, queues, id, d, q, Without(queues[q], id));
        queues := queues[q := Without(queues[q], id)];
      }
      cbs := cbs[id := d];
      eventCount := eventCount - if c.attr.internal then 0 else 1;
    }

    /** Set ev_timeout of an event that is not pending, then
        event_queue_insert_timeout. */
    method InsertTimeout(id: nat, at: nat, common: int) returns (ghost k: nat)
      requires Sound() && id in cbs && !cbs[id].timeout && -1 <= common < |queues|
      modifies this`cbs, this`heap, this`queues, this`eventCount
      ensures Sound()
      ensures cbs == old(cbs)[id := old(cbs)[id].(timeout := true, at := at, common := common)]
      ensures if common == -1 then heap == old(heap)[id := at] && queues == old(queues)
        else
          && heap == old(heap)
          && k <= |old(queues)[common]|
          && queues == old(queues)[common := old(queues)[common][..k] + [id] + old(queues)[common][k..]]
    {
      hide HoldsActive, HoldsLater, HoldsCommon, Sorted, Memberships, TotalLen;
      k := 0;
      var d := cbs[id].(timeout := true, at := at, common := common);
      MembershipsFlip(cbs, id, d, KTimeout);
      if common == -1 {
        SetHeap(cbs, active, later, heap, queues, id, d, heap[id := at]);
        heap := heap[id := at];
      } else {
        var list := queues[common];
        var i := InsertionPoint(list, cbs, at);
        CommonInsert(list, cbs, id, d, common, i);
        SetCommon(cbs, active, later, heap, queues, id, d, common, list[..i] + [id] + list[i..]);
        queues := queues[common := list[..i] + [id] + list[i..]];
        k := i;
      }
      cbs := cbs[id := d];
      eventCount := eventCount + if d.attr.internal then 0 else 1;
    }

    /** Change fields that neither a queue nor a counter depends on. */
    method Patch(id: nat, d: Cb)
      requires Sound() && id in cbs
      requires d == cbs[id].(byTimeout := d.byTimeout, period := d.period, ioCommon := d.ioCommon, finalizing := d.finalizing)
      modifies this`cbs
      ensures Sound() && cbs == old(cbs)[id := d]
    {
      hide HoldsActive, HoldsLater, HoldsHeap, HoldsCommon, Sorted, Memberships, TotalLen;
      SetOther(cbs, active, later, heap, queues, id, d);
      MembershipsFlip(cbs, id, d, KActive);
      cbs := cbs[id := d];
    }

    /** Everything but the internal timers is in order. */
    ghost predicate Base()
      reads this`cbs, this`active, this`later, this`heap, this`queues, this`eventCount, this`activeCount
    {
      Sound() && FlagsOk(cbs)
    }

    /** event_del_nolock_ */
    method Del(id: nat)
      requires Base() && id in cbs && cbs[id].attr.isEvent
      modifies this`cbs, this`active, this`later, this`heap, this`queues, this`eventCount, this`activeCount
      ensures Base()
      ensures cbs == old(cbs)[id := Deleted(old(cbs)[id])]
      ensures DelQueues(old(cbs)[id], id, old(heap), old(queues), heap, queues)
    {
      hide Sound, FlagsOk;
      var c := cbs[id];
      FlagsAt(cbs, id);
      if c.finalizing {
        assert cbs == cbs[id := c];
        return;
      }
      FlagsSet(cbs, id, Deleted(c));
      ghost var d1 := c.(timeout := false);
      ghost var d2 := d1.(active := false, later := false);
      if c.timeout {
        RemoveTimeout(id);
      }
      Unchanged(old(cbs), id);
      assert cbs == old(cbs)[id := d1];
      if c.active {
        RemoveActive(id);
      } else if c.later {
        RemoveLater(id);
      }
      Overwrite(old(cbs), id, d1, d2);
      assert cbs == old(cbs)[id := d2];
      if c.inserted {
        SetInserted(id, false);
      }
      Overwrite(old(cbs), id, d2, Deleted(c));
    }

    /** event_active_nolock_; byTimeout says whether EV_TIMEOUT is among the results. */
    method Activate(id: nat, byTimeout: bool)
      requires Base() && id in cbs
      modifies this`cbs, this`active, this`later, this`eventCount, this`activeCount, this`cont
      ensures Base()
      ensures cbs == old(cbs)[id := Activated(old(cbs)[id], byTimeout)]
      ensures cont == (old(cont) || (!old(cbs)[id].finalizing && !old(cbs)[id].active && old(cbs)[id].attr.pri < running))
    {
      hide Sound, FlagsOk, Activated;
      var c := cbs[id];
      FlagsAt(cbs, id);
      ActivatedFacts(c, byTimeout);
      FlagsSet(cbs, id, Activated(c, byTimeout));
      if c.finalizing {
        Unchanged(cbs, id);
        return;
      }
      var d := c.(byTimeout := if c.active || c.later then c.byTimeout || byTimeout else byTimeout);
      Overwrite(cbs, id, d, Activated(c, byTimeout));
      Patch(id, d);
      if c.active {
        return;
      }
      if c.attr.pri < running {
        cont := true;
      }
      var r := CallbackActivate(id);
    }

    /** event_callback_activate_nolock_ */
    method CallbackActivate(id: nat) returns (r: int)
      requires Sound() && id in cbs && !(cbs[id].active && cbs[id].later)
      modifies this`cbs, this`active, this`later, this`eventCount, this`activeCount
      ensures Sound()
      ensures r == if old(cbs)[id].finalizing || old(cbs)[id].active || old(cbs)[id].later then 0 else 1
      ensures cbs == if old(cbs)[id].finalizing then old(cbs)
        else old(cbs)[id := old(cbs)[id].(active := true, later := false)]
      ensures Enqueued(old(cbs)[id], id, old(active), active)
    {
      hide Sound;
      var c := cbs[id];
      r := 1;
      if c.finalizing {
        return 0;
      }
      if c.active {
        assert cbs == cbs[id := c.(active := true, later := false)];
        return 0;
      }
      if c.later {
        RemoveLater(id);
        r := 0;
      }
      InsertActive(id);
    }

    /** event_callback_activate_later_nolock_ */
    method CallbackActivateLater(id: nat) returns (r: int)
      requires Base() && id in cbs
      modifies this`cbs, this`later, this`eventCount, this`activeCount
      ensures Base()
      ensures r == if old(cbs)[id].active || old(cbs)[id].later then 0 else 1
      ensures cbs == if r == 0 then old(cbs) else old(cbs)[id := old(cbs)[id].(later := true)]
    {
      hide Sound, FlagsOk;
      var c := cbs[id];
      FlagsAt(cbs, id);
      if c.active || c.later {
        return 0;
      }
      FlagsSet(cbs, id, c.(later := true));
      InsertLater(id);
      r := 1;
    }
  }

  /** The callback after event_del_nolock_. */
  function Deleted(c: Cb): Cb {
    if c.finalizing then c else c.(timeout := false, active := false, later := false, inserted := false)
  }

  /** The callback after event_active_nolock_. */
  function Activated(c: Cb, byTimeout: bool): Cb {
    if c.finalizing then c
    else c.(active := true, later := false,
            byTimeout := if c.active || c.later then c.byTimeout || byTimeout else byTimeout)
  }

  lemma ActivatedFacts(c: Cb, byTimeout: bool)
    requires CbOk(c)
    ensures CbOk(Activated(c, byTimeout))
    ensures c.finalizing ==> Activated(c, byTimeout) == c
    ensures !c.finalizing ==>
      var d := c.(byTimeout := if c.active || c.later then c.byTimeout || byTimeout else byTimeout);
      Activated(c, byTimeout) == d.(active := true, later := false) && (c.active ==> Activated(c, byTimeout) == d)
  {
  }

  /** A callback that is newly activated joins the end of its queue. */
  predicate Enqueued(c: Cb, id: nat, active: seq<seq<nat>>, active': seq<seq<nat>>) {
    if c.finalizing || c.active then active' == active
    else c.attr.pri < |active| && active' == active[c.attr.pri := active[c.attr.pri] + [id]]
  }

  /** What event_del_nolock_ does to the heap and the common timeout queues. */
  predicate DelQueues(c: Cb, id: nat, heap: map<nat, nat>, queues: seq<seq<nat>>, heap': map<nat, nat>, queues': seq<seq<nat>>) {
    if c.finalizing || !c.timeout then heap' == heap && queues' == queues
    else if c.common == -1 then heap' == heap - {id} && queues' == queues
    else heap' == heap && 0 <= c.common < |queues| && queues' == queues[c.common := Without(queues[c.common], id)]
  }

  lemma CommonFacts(cbs: Cbs, active: seq<seq<nat>>, later: seq<nat>, heap: map<nat, nat>, queues: seq<seq<nat>>, id: nat)
    requires QueuesOk(cbs, active, later, heap, queues) && id in cbs && cbs[id].common != -1
    ensures 0 <= cbs[id].common < |queues| && Sorted(queues[cbs[id].common], cbs) && NoDup(queues[cbs[id].common])
  {
  }
}
