/** The timer heap of minheap-internal.h: a binary heap in an array, with every
    element's position stored in the element. */
module MinHeaps {
  import opened Bytes

  /** A timer in the heap: an event identity and its absolute deadline. */
  datatype Item = Item(id: nat, at: nat)

  function Parent(i: nat): nat
    requires i > 0
  {
    (i - 1) / 2
  }

  /** Element i is not earlier than its parent. */
  predicate ParentOk(q: seq<Item>, i: nat)
    requires i < |q|
  {
    i > 0 ==> q[Parent(i)].at <= q[i].at
  }

  /** If i is a child of h, it is not earlier than the parent of h. */
  predicate SkipOk(q: seq<Item>, h: nat, i: nat)
    requires h < |q| && i < |q|
  {
    i > 0 && Parent(i) == h && h > 0 ==> q[Parent(h)].at <= q[i].at
  }

  ghost predicate HeapOrder(q: seq<Item>) {
    forall i :: 0 <= i < |q| ==> ParentOk(q, i)
  }

  /** Positions and elements match: idx is min_heap_idx, absent meaning -1. */
  ghost predicate IdxOk(q: seq<Item>, idx: map<nat, nat>) {
    && (forall i :: 0 <= i < |q| ==> q[i].id in idx && idx[q[i].id] == i)
    && (forall id :: id in idx ==> idx[id] < |q| && q[idx[id]].id == id)
  }

  /** The deadlines by event. */
  ghost function View(q: seq<Item>, idx: map<nat, nat>): map<nat, nat>
    requires IdxOk(q, idx)
  {
    map id | id in idx :: q[idx[id]].at
  }

  lemma {:induction false} RootIsLeast(q: seq<Item>, i: nat)
    requires HeapOrder(q) && i < |q|
    ensures q[0].at <= q[i].at
    decreases i
  {
    if i > 0 {
      assert ParentOk(q, i);
      RootIsLeast(q, Parent(i));
    }
  }

  /** Order except possibly between h and its parent. */
  ghost predicate OrderBelow(q: seq<Item>, h: nat)
    requires h < |q|
  {
    && (forall i :: 0 <= i < |q| && i != h ==> ParentOk(q, i))
    && (forall i :: 0 <= i < |q| ==> SkipOk(q, h, i))
  }

  /** Order except possibly between h and its children. */
  ghost predicate OrderAbove(q: seq<Item>, h: nat)
    requires h < |q|
  {
    && (forall i :: 0 <= i < |q| && !(i > 0 && Parent(i) == h) ==> ParentOk(q, i))
    && (forall i :: 0 <= i < |q| ==> SkipOk(q, h, i))
  }

  function Swap(q: seq<Item>, a: nat, b: nat): seq<Item>
    requires a < |q| && b < |q|
  {
    q[a := q[b]][b := q[a]]
  }

  /** Exchanging two elements and their positions changes no deadline. */
  lemma SwapView(q: seq<Item>, idx: map<nat, nat>, a: nat, b: nat)
    requires IdxOk(q, idx) && a < |q| && b < |q| && a != b
    ensures var idx' := idx[q[a].id := b][q[b].id := a];
      IdxOk(Swap(q, a, b), idx') && View(Swap(q, a, b), idx') == View(q, idx)
  {
    var idx' := idx[q[a].id := b][q[b].id := a];
    assert q[a].id != q[b].id;
  }

  /** Moving up one level: the violation moves to the parent. */
  lemma UpStep(q: seq<Item>, h: nat)
    requires h < |q| && h > 0 && OrderBelow(q, h) && q[Parent(h)].at > q[h].at
    ensures OrderBelow(Swap(q, h, Parent(h)), Parent(h))
  {
    var p := Parent(h);
    var r := Swap(q, h, p);
    forall i | 0 <= i < |r| && i != p
      ensures ParentOk(r, i)
    {
      if i > 0 && i != h {
        assert ParentOk(q, i) && SkipOk(q, h, i);
      }
    }
    forall i | 0 <= i < |r|
      ensures SkipOk(r, p, i)
    {
      if i > 0 && Parent(i) == p && p > 0 {
        assert ParentOk(q, p);
        if i != h {
          assert ParentOk(q, i);
        }
      }
    }
  }

  /** Moving down one level to the smaller child m. */
  lemma DownStep(q: seq<Item>, h: nat, m: nat)
    requires h < |q| && m < |q| && m > 0 && Parent(m) == h && OrderAbove(q, h) && q[h].at > q[m].at
    requires forall i :: 0 < i < |q| && Parent(i) == h ==> q[m].at <= q[i].at
    ensures OrderAbove(Swap(q, h, m), m)
  {
    var r := Swap(q, h, m);
    forall i | 0 <= i < |r| && !(i > 0 && Parent(i) == m)
      ensures ParentOk(r, i)
    {
      if i == h {
        assert SkipOk(q, h, m);
      } else if i > 0 && Parent(i) != h {
        assert ParentOk(q, i);
      }
    }
    forall i | 0 <= i < |r|
      ensures SkipOk(r, m, i)
    {
      if i > 0 && Parent(i) == m {
        assert ParentOk(q, i);
      }
    }
  }

  /** min_heap_shift_up_ and, with force, min_heap_shift_up_unconditional_: move the
      hole up until e may go there. */
  method ShiftUp(p0: seq<Item>, idx0: map<nat, nat>, hole0: nat, e: Item, force0: bool)
    returns (p: seq<Item>, idx: map<nat, nat>)
    requires hole0 < |p0| && IdxOk(p0[hole0 := e], idx0[e.id := hole0])
    requires OrderBelow(p0[hole0 := e], hole0)
    requires force0 ==> hole0 > 0 && p0[Parent(hole0)].at > e.at
    ensures IdxOk(p, idx) && HeapOrder(p) && |p| == |p0|
    ensures View(p, idx) == View(p0[hole0 := e], idx0[e.id := hole0])
  {
    hide IdxOk, View, OrderBelow;
    p, idx := p0, idx0;
    var hole: nat, force := hole0, force0;
    while hole > 0 && (force || p[Parent(hole)].at > e.at)
      invariant hole < |p| == |p0|
      invariant IdxOk(p[hole := e], idx[e.id := hole]) && OrderBelow(p[hole := e], hole)
      invariant View(p[hole := e], idx[e.id := hole]) == View(p0[hole0 := e], idx0[e.id := hole0])
      invariant force ==> hole > 0 && p[Parent(hole)].at > e.at
    {
      var parent: nat := Parent(hole);
      ghost var q, g := p[hole := e], idx[e.id := hole];
      UpStep(q, hole);
      SwapView(q, g, hole, parent);
      DistinctIds(q, g, hole, parent);
      assert Swap(q, hole, parent) == p[hole := p[parent]][parent := e];
      assert g[e.id := parent][p[parent].id := hole] == idx[p[parent].id := hole][e.id := parent];
      p, idx := p[hole := p[parent]], idx[p[parent].id := hole];
      hole := parent;
      force := false;
    }
    UpDone(p[hole := e], hole);
    p, idx := p[hole := e], idx[e.id := hole];
  }

  lemma DistinctIds(q: seq<Item>, idx: map<nat, nat>, a: nat, b: nat)
    requires IdxOk(q, idx) && a < |q| && b < |q| && a != b
    ensures q[a].id != q[b].id
  {
  }

  lemma UpDone(q: seq<Item>, h: nat)
    requires h < |q| && OrderBelow(q, h) && (h > 0 ==> q[Parent(h)].at <= q[h].at)
    ensures HeapOrder(q)
  {
  }

  /** min_heap_shift_down_: move the hole down until e may go there. */
  method ShiftDown(p0: seq<Item>, idx0: map<nat, nat>, hole0: nat, e: Item)
    returns (p: seq<Item>, idx: map<nat, nat>)
    requires hole0 < |p0| && IdxOk(p0[hole0 := e], idx0[e.id := hole0])
    requires OrderAbove(p0[hole0 := e], hole0)
    ensures IdxOk(p, idx) && HeapOrder(p) && |p| == |p0|
    ensures View(p, idx) == View(p0[hole0 := e], idx0[e.id := hole0])
  {
    hide IdxOk, View, OrderAbove;
    p, idx := p0, idx0;
    var n := |p|;
    var hole: nat := hole0;
    var minChild: nat := 2 * (hole + 1);
    while minChild <= n
      invariant hole < |p| == n == |p0| && minChild == 2 * (hole + 1)
      invariant IdxOk(p[hole := e], idx[e.id := hole]) && OrderAbove(p[hole := e], hole)
      invariant View(p[hole := e], idx[e.id := hole]) == View(p0[hole0 := e], idx0[e.id := hole0])
      decreases n - hole
    {
      if minChild == n || p[minChild].at > p[minChild - 1].at {
        minChild := minChild - 1;
      }
      if !(e.at > p[minChild].at) {
        ChildLeast(p[hole := e], hole, minChild);
        break;
      }
      ghost var q, g := p[hole := e], idx[e.id := hole];
      ChildLeast(q, hole, minChild);
      DownStep(q, hole, minChild);
      SwapView(q, g, hole, minChild);
      DistinctIds(q, g, hole, minChild);
      assert Swap(q, hole, minChild) == p[hole := p[minChild]][minChild := e];
      assert g[e.id := minChild][p[minChild].id := hole] == idx[p[minChild].id := hole][e.id := minChild];
      p, idx := p[hole := p[minChild]], idx[p[minChild].id := hole];
      hole := minChild;
      minChild := 2 * (hole + 1);
    }
    DownDone(p[hole := e], hole);
    p, idx := p[hole := e], idx[e.id := hole];
  }

  /** The children of h are 2h + 1 and 2h + 2. */
  lemma ChildLeast(q: seq<Item>, h: nat, m: nat)
    requires h < m < |q| && (m == 2 * h + 1 || m == 2 * h + 2)
    requires 2 * h + 1 < |q| ==> q[m].at <= q[2 * h + 1].at
    requires 2 * h + 2 < |q| ==> q[m].at <= q[2 * h + 2].at
    ensures forall i :: 0 < i < |q| && Parent(i) == h ==> q[m].at <= q[i].at
  {
  }

  lemma DownDone(q: seq<Item>, h: nat)
    requires h < |q| && OrderAbove(q, h)
    requires forall i :: 0 < i < |q| && Parent(i) == h ==> q[h].at <= q[i].at
    ensures HeapOrder(q)
  {
    forall i | 0 <= i < |q|
      ensures ParentOk(q, i)
    {
    }
  }

  /** Replacing the element at h by e in an ordered heap: if e is earlier than the
      parent of h it may only have to move up, otherwise only down. */
  lemma ReplaceOrder(q: seq<Item>, h: nat, e: Item)
    requires HeapOrder(q) && h < |q|
    ensures h > 0 && q[Parent(h)].at > e.at ==> OrderBelow(q[h := e], h)
    ensures !(h > 0 && q[Parent(h)].at > e.at) ==> OrderAbove(q[h := e], h)
  {
    var r := q[h := e];
    assert ParentOk(q, h);
    forall i | 0 <= i < |r|
      ensures SkipOk(r, h, i)
      ensures !(i > 0 && Parent(i) == h) && i != h ==> ParentOk(r, i)
    {
      assert ParentOk(q, i);
    }
    if h > 0 && q[Parent(h)].at > e.at {
      forall i | 0 <= i < |r| && i != h
        ensures ParentOk(r, i)
      {
        assert ParentOk(q, i);
      }
    } else {
      assert ParentOk(r, h);
    }
  }

  class MinHeap {
    var p: seq<Item>
    var idx: map<nat, nat>

    ghost predicate Valid()
      reads this
    {
      IdxOk(p, idx) && HeapOrder(p)
    }

    /** The pending deadlines, by event. */
    ghost function Deadlines(): map<nat, nat>
      requires Valid()
      reads this
    {
      View(p, idx)
    }

    constructor ()
      ensures Valid() && Deadlines() == map[]
    {
      p, idx := [], map[];
    }

    /** min_heap_top_: an event with the earliest deadline. */
    method Top() returns (r: Option<Item>)
      requires Valid()
      ensures r == None <==> Deadlines() == map[]
      ensures r.Some? ==> r.value.id in Deadlines() && Deadlines()[r.value.id] == r.value.at
      ensures r.Some? ==> forall id :: id in Deadlines() ==> r.value.at <= Deadlines()[id]
    {
      if |p| == 0 {
        return None;
      }
      assert p[0].id in idx;
      forall id | id in idx
        ensures p[0].at <= p[idx[id]].at
      {
        RootIsLeast(p, idx[id]);
      }
      r := Some(p[0]);
    }

    /** min_heap_push_ */
    method Push(e: Item)
      requires Valid() && e.id !in Deadlines()
      modifies this
      ensures Valid() && Deadlines() == old(Deadlines())[e.id := e.at]
    {
      hide HeapOrder, OrderBelow;
      PushLast(p, idx, e);
      assert (p + [e])[|p| := e] == p + [e];
      p, idx := ShiftUp(p + [e], idx, |p|, e, false);
    }

    /** min_heap_erase_: the last element takes the place of the erased one. */
    method Erase(id: nat) returns (r: int)
      requires Valid()
      modifies this
      ensures Valid() && Deadlines() == old(Deadlines()) - {id}
      ensures r == if id in old(Deadlines()) then 0 else -1
    {
      if id !in idx {
        return -1;
      }
      var hole, n := idx[id], |p| - 1;
      var last := p[n];
      DropLast(p, idx);
      if hole == n {
        p, idx := p[..n], idx - {id};
      } else {
        ghost var q := p[..n];
        TakePlace(p, idx, hole);
        ReplaceOrder(q, hole, last);
        if hole > 0 && p[Parent(hole)].at > last.at {
          p, idx := ShiftUp(p[..n], idx - {id}, hole, last, true);
        } else {
          p, idx := ShiftDown(p[..n], idx - {id}, hole, last);
        }
      }
      r := 0;
    }

    /** min_heap_adjust_: the deadline of an event has changed. */
    method Adjust(e: Item)
      requires Valid()
      modifies this
      ensures Valid() && Deadlines() == old(Deadlines())[e.id := e.at]
    {
      if e.id !in idx {
        Push(e);
        return;
      }
      var hole := idx[e.id];
      ReplaceOrder(p, hole, e);
      NewDeadline(p, idx, e);
      if hole > 0 && p[Parent(hole)].at > e.at {
        p, idx := ShiftUp(p, idx, hole, e, true);
      } else {
        p, idx := ShiftDown(p, idx, hole, e);
      }
    }
  }

  /** A new element at the end. */
  lemma PushLast(q: seq<Item>, idx: map<nat, nat>, e: Item)
    requires IdxOk(q, idx) && HeapOrder(q) && e.id !in idx
    ensures var r, g := q + [e], idx[e.id := |q|];
      OrderBelow(r, |q|) && IdxOk(r, g) && View(r, g) == View(q, idx)[e.id := e.at]
  {
    var r := q + [e];
    forall i | 0 <= i < |r| && i != |q|
      ensures ParentOk(r, i)
    {
      assert ParentOk(q, i);
    }
  }

  lemma NewDeadline(q: seq<Item>, idx: map<nat, nat>, e: Item)
    requires IdxOk(q, idx) && e.id in idx
    ensures var r, g := q[idx[e.id] := e], idx[e.id := idx[e.id]];
      IdxOk(r, g) && View(r, g) == View(q, idx)[e.id := e.at]
  {
  }

  /** Cutting off the last element. */
  lemma DropLast(q: seq<Item>, idx: map<nat, nat>)
    requires IdxOk(q, idx) && HeapOrder(q) && |q| > 0
    ensures var n := |q| - 1;
      HeapOrder(q[..n]) && IdxOk(q[..n], idx - {q[n].id}) && View(q[..n], idx - {q[n].id}) == View(q, idx) - {q[n].id}
  {
    var n := |q| - 1;
    forall i | 0 <= i < n
      ensures ParentOk(q[..n], i)
    {
      assert ParentOk(q, i);
    }
  }

  /** The last element moves into the place of the element at hole. */
  lemma TakePlace(q: seq<Item>, idx: map<nat, nat>, hole: nat)
    requires IdxOk(q, idx) && hole < |q| - 1
    ensures var n := |q| - 1;
      var r, g := q[..n][hole := q[n]], (idx - {q[hole].id})[q[n].id := hole];
      IdxOk(r, g) && View(r, g) == View(q, idx) - {q[hole].id}
  {
    var n := |q| - 1;
    var r, g := q[..n][hole := q[n]], (idx - {q[hole].id})[q[n].id := hole];
    assert q[n].id != q[hole].id;
    assert forall i :: 0 <= i < n && i != hole ==> r[i] == q[i];
  }
}
