/** Callbacks, their EVLIST flags and the queues of an event_base, as values. */
module EventQueues {
  /** What a callback is: an event or a bare event_callback, its closure and priority. */
  datatype Attr = Attr(isEvent: bool, internal: bool, selfCb: bool, persist: bool, io: bool, pri: nat)

  /** A callback.  The flags are the EVLIST_* bits; at and common are ev_timeout with
      the common-timeout index it carries, -1 for none; period and ioCommon are the same for
      ev_io_timeout. */
  datatype Cb = Cb(
    attr: Attr, timeout: bool, inserted: bool, active: bool, later: bool, finalizing: bool,
    at: nat, common: int, period: nat, ioCommon: int, byTimeout: bool)

  type Cbs = map<nat, Cb>

  datatype Kind = KTimeout | KInserted | KActive | KLater

  function Flag(c: Cb, k: Kind): bool {
    match k
    case KTimeout => c.timeout
    case KInserted => c.inserted
    case KActive => c.active
    case KLater => c.later
  }

  // ------------------------------------------------------------ lists of ids

  ghost predicate NoDup(s: seq<nat>) {
    forall i, j :: 0 <= i < j < |s| ==> s[i] != s[j]
  }

  /** TAILQ_REMOVE */
  function Without(s: seq<nat>, id: nat): seq<nat> {
    if s == [] then [] else if s[0] == id then s[1..] else [s[0]] + Without(s[1..], id)
  }

  lemma {:induction false} WithoutFacts(s: seq<nat>, id: nat)
    requires NoDup(s)
    ensures NoDup(Without(s, id))
    ensures forall x :: x in Without(s, id) <==> x in s && x != id
    ensures |Without(s, id)| == |s| - (if id in s then 1 else 0)
  {
    if s != [] {
      assert forall i :: 0 <= i < |s[1..]| ==> s[1..][i] == s[i + 1];
      assert NoDup(s[1..]);
      WithoutFacts(s[1..], id);
      assert s[0] !in s[1..];
      assert forall x :: x in s <==> x == s[0] || x in s[1..];
    }
  }

  lemma AppendFacts(s: seq<nat>, id: nat)
    requires NoDup(s) && id !in s
    ensures NoDup(s + [id])
    ensures forall x :: x in s + [id] <==> x in s || x == id
  {
  }

  function TotalLen(qs: seq<seq<nat>>): nat {
    if qs == [] then 0 else |qs[0]| + TotalLen(qs[1..])
  }

  lemma {:induction false} TotalLenUpdate(qs: seq<seq<nat>>, p: nat, l: seq<nat>)
    requires p < |qs|
    ensures TotalLen(qs[p := l]) == TotalLen(qs) - |qs[p]| + |l|
  {
    if p > 0 {
      assert qs[p := l][1..] == qs[1..][p - 1 := l];
      TotalLenUpdate(qs[1..], p - 1, l);
    } else {
      assert qs[p := l][1..] == qs[1..];
    }
  }

  lemma {:induction false} NothingQueued(qs: seq<seq<nat>>)
    requires forall i :: 0 <= i < |qs| ==> qs[i] == []
    ensures TotalLen(qs) == 0
  {
    if qs != [] {
      NothingQueued(qs[1..]);
    }
  }

  // ------------------------------------------------------------ what the queues hold

  /** list holds exactly the callbacks of priority p that are flagged active. */
  ghost predicate HoldsActive(list: seq<nat>, cbs: Cbs, p: nat) {
    NoDup(list) && forall id :: id in list <==> id in cbs && cbs[id].active && cbs[id].attr.pri == p
  }

  ghost predicate HoldsLater(list: seq<nat>, cbs: Cbs) {
    NoDup(list) && forall id :: id in list <==> id in cbs && cbs[id].later
  }

  ghost predicate HoldsHeap(heap: map<nat, nat>, cbs: Cbs) {
    && (forall id :: id in heap <==> id in cbs && cbs[id].timeout && cbs[id].common == -1)
    && (forall id :: id in heap ==> heap[id] == cbs[id].at)
  }

  /** list holds exactly the events pending on common timeout q. */
  ghost predicate HoldsCommon(list: seq<nat>, cbs: Cbs, q: nat) {
    && NoDup(list)
    && (forall id :: id in list <==> id in cbs && cbs[id].timeout && cbs[id].common == q)
  }

  ghost predicate Sorted(list: seq<nat>, cbs: Cbs) {
    && (forall i :: 0 <= i < |list| ==> list[i] in cbs)
    && (forall i, j :: 0 <= i < j < |list| ==> cbs[list[i]].at <= cbs[list[j]].at)
  }

  /** Non-internal callbacks with a given flag. */
  function Members(cbs: Cbs, k: Kind): set<nat> {
    set id | id in cbs && Flag(cbs[id], k) && !cbs[id].attr.internal
  }

  function Num(cbs: Cbs, k: Kind): nat {
    |Members(cbs, k)|
  }

  function Memberships(cbs: Cbs): nat {
    Num(cbs, KTimeout) + Num(cbs, KInserted) + Num(cbs, KActive) + Num(cbs, KLater)
  }

  /** A callback that differs from c in flag k at most. */
  predicate SameBut(c: Cb, d: Cb, k: Kind) {
    && d.attr == c.attr
    && (k != KTimeout ==> d.timeout == c.timeout && d.at == c.at && d.common == c.common)
    && (k != KInserted ==> d.inserted == c.inserted)
    && (k != KActive ==> d.active == c.active)
    && (k != KLater ==> d.later == c.later)
  }

  function Weight(c: Cb, k: Kind): nat {
    if Flag(c, k) && !c.attr.internal then 1 else 0
  }

  lemma NumUpdate(cbs: Cbs, id: nat, d: Cb, k: Kind)
    requires id in cbs
    ensures Num(cbs[id := d], k) == Num(cbs, k) - Weight(cbs[id], k) + Weight(d, k)
  {
    hide Weight, Members;
    NumOne(cbs, id, k);
    NumOne(cbs[id := d], id, k);
    MembersRest(cbs, id, d, k);
  }

  lemma MembersRest(cbs: Cbs, id: nat, d: Cb, k: Kind)
    requires id in cbs
    ensures Members(cbs[id := d], k) - {id} == Members(cbs, k) - {id}
  {
    hide Flag;
    var a, b := Members(cbs[id := d], k) - {id}, Members(cbs, k) - {id};
    forall x: nat
      ensures x in a <==> x in b
    {
      assert x != id ==> (x in cbs[id := d] <==> x in cbs);
    }
  }

  lemma NumOne(cbs: Cbs, id: nat, k: Kind)
    requires id in cbs
    ensures Num(cbs, k) == |Members(cbs, k) - {id}| + Weight(cbs[id], k)
  {
    if Weight(cbs[id], k) == 1 {
      assert Members(cbs, k) == (Members(cbs, k) - {id}) + {id};
    } else {
      assert Members(cbs, k) == Members(cbs, k) - {id};
    }
  }

  /** Changing one callback moves event_count by its change in membership. */
  lemma MembershipsUpdate(cbs: Cbs, id: nat, d: Cb)
    requires id in cbs
    ensures Memberships(cbs[id := d]) - Memberships(cbs) ==
      Weight(d, KTimeout) + Weight(d, KInserted) + Weight(d, KActive) + Weight(d, KLater)
      - Weight(cbs[id], KTimeout) - Weight(cbs[id], KInserted) - Weight(cbs[id], KActive) - Weight(cbs[id], KLater)
  {
    hide Num, Weight;
    NumUpdate(cbs, id, d, KTimeout);
    NumUpdate(cbs, id, d, KInserted);
    NumUpdate(cbs, id, d, KActive);
    NumUpdate(cbs, id, d, KLater);
  }

  /** Turning one flag on or off counts only that flag, and only for a callback that
      is not internal. */
  lemma MembershipsFlip(cbs: Cbs, id: nat, d: Cb, k: Kind)
    requires id in cbs && SameBut(cbs[id], d, k)
    ensures Memberships(cbs[id := d]) - Memberships(cbs) ==
      if d.attr.internal || Flag(d, k) == Flag(cbs[id], k) then 0 else if Flag(d, k) then 1 else -1
  {
    hide Memberships;
    MembershipsUpdate(cbs, id, d);
  }

  // ------------------------------------------------------------ all queues together

  /** Every queue holds exactly the callbacks whose flags say so. */
  ghost predicate QueuesOk(cbs: Cbs, active: seq<seq<nat>>, later: seq<nat>, heap: map<nat, nat>, queues: seq<seq<nat>>) {
    && (forall p :: 0 <= p < |active| ==> HoldsActive(active[p], cbs, p))
    && HoldsLater(later, cbs)
    && HoldsHeap(heap, cbs)
    && (forall q :: 0 <= q < |queues| ==> HoldsCommon(queues[q], cbs, q) && Sorted(queues[q], cbs))
    && (forall id :: id in cbs ==> cbs[id].attr.pri < |active| && -1 <= cbs[id].common < |queues|)
  }

  predicate SameTimeout(c: Cb, d: Cb) {
    d.timeout == c.timeout && d.at == c.at && d.common == c.common
  }

  lemma ActiveFrame(list: seq<nat>, cbs: Cbs, p: nat, id: nat, d: Cb)
    requires HoldsActive(list, cbs, p) && id in cbs && d.attr.pri == cbs[id].attr.pri
    requires d.active == cbs[id].active || d.attr.pri != p
    ensures HoldsActive(list, cbs[id := d], p)
  {
  }

  lemma LaterFrame(list: seq<nat>, cbs: Cbs, id: nat, d: Cb)
    requires HoldsLater(list, cbs) && id in cbs && d.later == cbs[id].later
    ensures HoldsLater(list, cbs[id := d])
  {
  }

  lemma HeapFrame(heap: map<nat, nat>, cbs: Cbs, id: nat, d: Cb)
    requires HoldsHeap(heap, cbs) && id in cbs
    requires SameTimeout(cbs[id], d) || ((!d.timeout || d.common != -1) && (!cbs[id].timeout || cbs[id].common != -1))
    ensures HoldsHeap(heap, cbs[id := d])
  {
  }

  lemma CommonFrame(list: seq<nat>, cbs: Cbs, q: nat, id: nat, d: Cb)
    requires HoldsCommon(list, cbs, q) && Sorted(list, cbs) && id in cbs
    requires SameTimeout(cbs[id], d) || ((!d.timeout || d.common != q) && (!cbs[id].timeout || cbs[id].common != q))
    ensures HoldsCommon(list, cbs[id := d], q) && Sorted(list, cbs[id := d])
  {
    if !SameTimeout(cbs[id], d) {
      assert id !in list;
      assert forall i :: 0 <= i < |list| ==> list[i] in list;
    }
  }

  /** Only the active flag and its queue change. */
  lemma SetActive(cbs: Cbs, active: seq<seq<nat>>, later: seq<nat>, heap: map<nat, nat>, queues: seq<seq<nat>>,
                  id: nat, d: Cb, list: seq<nat>)
    requires QueuesOk(cbs, active, later, heap, queues) && id in cbs
    requires d.attr.pri == cbs[id].attr.pri && d.later == cbs[id].later && SameTimeout(cbs[id], d)
    requires HoldsActive(list, cbs[id := d], d.attr.pri)
    ensures d.attr.pri < |active| && QueuesOk(cbs[id := d], active[d.attr.pri := list], later, heap, queues)
  {
    hide HoldsActive, HoldsLater, HoldsHeap, HoldsCommon, Sorted;
    forall p | 0 <= p < |active| && p != d.attr.pri
      ensures HoldsActive(active[p], cbs[id := d], p)
    {
      ActiveFrame(active[p], cbs, p, id, d);
    }
    LaterFrame(later, cbs, id, d);
    HeapFrame(heap, cbs, id, d);
    forall q | 0 <= q < |queues|
      ensures HoldsCommon(queues[q], cbs[id := d], q) && Sorted(queues[q], cbs[id := d])
    {
      CommonFrame(queues[q], cbs, q, id, d);
    }
  }

  /** Only the later flag and its queue change, or no queue at all. */
  lemma SetLater(cbs: Cbs, active: seq<seq<nat>>, later: seq<nat>, heap: map<nat, nat>, queues: seq<seq<nat>>,
                 id: nat, d: Cb, list: seq<nat>)
    requires QueuesOk(cbs, active, later, heap, queues) && id in cbs
    requires d.attr.pri == cbs[id].attr.pri && d.active == cbs[id].active && SameTimeout(cbs[id], d)
    requires HoldsLater(list, cbs[id := d])
    ensures QueuesOk(cbs[id := d], active, list, heap, queues)
  {
    hide HoldsActive, HoldsLater, HoldsHeap, HoldsCommon, Sorted;
    forall p | 0 <= p < |active|
      ensures HoldsActive(active[p], cbs[id := d], p)
    {
      ActiveFrame(active[p], cbs, p, id, d);
    }
    HeapFrame(heap, cbs, id, d);
    forall q | 0 <= q < |queues|
      ensures HoldsCommon(queues[q], cbs[id := d], q) && Sorted(queues[q], cbs[id := d])
    {
      CommonFrame(queues[q], cbs, q, id, d);
    }
  }

  /** Fields that no queue depends on. */
  lemma SetOther(cbs: Cbs, active: seq<seq<nat>>, later: seq<nat>, heap: map<nat, nat>, queues: seq<seq<nat>>, id: nat, d: Cb)
    requires QueuesOk(cbs, active, later, heap, queues) && id in cbs
    requires d.attr.pri == cbs[id].attr.pri && d.active == cbs[id].active && d.later == cbs[id].later && SameTimeout(cbs[id], d)
    ensures QueuesOk(cbs[id := d], active, later, heap, queues)
  {
    LaterFrame(later, cbs, id, d);
    SetLater(cbs, active, later, heap, queues, id, d, later);
  }

  /** The timeout flag of an event without a common timeout changes, with the heap;
      at and common may change too while the event is not pending. */
  lemma SetHeap(cbs: Cbs, active: seq<seq<nat>>, later: seq<nat>, heap: map<nat, nat>, queues: seq<seq<nat>>,
                id: nat, d: Cb, heap': map<nat, nat>)
    requires QueuesOk(cbs, active, later, heap, queues) && id in cbs
    requires d.attr.pri == cbs[id].attr.pri && d.active == cbs[id].active && d.later == cbs[id].later
    requires !cbs[id].timeout || cbs[id].common == -1
    requires !d.timeout || d.common == -1
    requires -1 <= d.common < |queues|
    requires HoldsHeap(heap', cbs[id := d])
    ensures QueuesOk(cbs[id := d], active, later, heap', queues)
  {
    hide HoldsActive, HoldsLater, HoldsHeap, HoldsCommon, Sorted;
    forall p | 0 <= p < |active|
      ensures HoldsActive(active[p], cbs[id := d], p)
    {
      ActiveFrame(active[p], cbs, p, id, d);
    }
    LaterFrame(later, cbs, id, d);
    forall q | 0 <= q < |queues|
      ensures HoldsCommon(queues[q], cbs[id := d], q) && Sorted(queues[q], cbs[id := d])
    {
      CommonFrame(queues[q], cbs, q, id, d);
    }
  }

  /** The timeout flag of an event on common timeout q changes, with that queue. */
  lemma SetCommon(cbs: Cbs, active: seq<seq<nat>>, later: seq<nat>, heap: map<nat, nat>, queues: seq<seq<nat>>,
                  id: nat, d: Cb, q: nat, list: seq<nat>)
    requires QueuesOk(cbs, active, later, heap, queues) && id in cbs && q < |queues|
    requires d.attr.pri == cbs[id].attr.pri && d.active == cbs[id].active && d.later == cbs[id].later
    requires !cbs[id].timeout || cbs[id].common == q
    requires !d.timeout || d.common == q
    requires -1 <= d.common < |queues|
    requires HoldsCommon(list, cbs[id := d], q) && Sorted(list, cbs[id := d])
    ensures QueuesOk(cbs[id := d], active, later, heap, queues[q := list])
  {
    hide HoldsActive, HoldsLater, HoldsHeap, HoldsCommon, Sorted;
    forall p | 0 <= p < |active|
      ensures HoldsActive(active[p], cbs[id := d], p)
    {
      ActiveFrame(active[p], cbs, p, id, d);
    }
    LaterFrame(later, cbs, id, d);
    HeapFrame(heap, cbs, id, d);
    forall x | 0 <= x < |queues| && x != q
      ensures HoldsCommon(queues[x], cbs[id := d], x) && Sorted(queues[x], cbs[id := d])
    {
      CommonFrame(queues[x], cbs, x, id, d);
    }
  }
}
