/** Whole runs of evbuffer calls on two buffers, checked against two byte strings. */
module BufferRuns {
  import opened Bytes
  import opened Chains
  import opened EvBuffers
  import opened BufferMoves

  lemma {:induction false} WrittenSame(cs: seq<Chain>, ds: seq<Chain>, vecs: seq<IoVec>)
    requires forall i :: 0 <= i < |vecs| ==>
      NamesSpace(cs, vecs[i]) && NamesSpace(ds, vecs[i]) && cs[vecs[i].chain] == ds[vecs[i].chain]
    ensures Written(cs, vecs) == Written(ds, vecs)
  {
    if vecs != [] {
      var v := vecs[|vecs| - 1];
      assert NamesSpace(cs, v) && cs[v.chain] == ds[v.chain];
      WrittenSame(cs, ds, vecs[..|vecs| - 1]);
    }
  }

  lemma WrittenSnoc(cs: seq<Chain>, vecs: seq<IoVec>, v: IoVec)
    requires forall i :: 0 <= i < |vecs| ==> NamesSpace(cs, vecs[i])
    requires NamesSpace(cs, v)
    ensures forall i :: 0 <= i < |vecs + [v]| ==> NamesSpace(cs, (vecs + [v])[i])
    ensures Written(cs, vecs + [v]) == Written(cs, vecs) + cs[v.chain].buf[v.base..v.base + v.len]
  {
    assert (vecs + [v])[..|vecs|] == vecs;
  }

  /** Same chains up to the bytes nobody has claimed yet. */
  predicate SameSlots(cs: seq<Chain>, ds: seq<Chain>) {
    && |cs| == |ds|
    && forall i :: 0 <= i < |cs| ==>
         ds[i].misalign == cs[i].misalign && ds[i].off == cs[i].off && |ds[i].buf| == |cs[i].buf|
  }

  lemma SameSlotsOrder(cs: seq<Chain>, ds: seq<Chain>, lwd: nat, vecs: seq<IoVec>)
    requires SameSlots(cs, ds) && InOrder(cs, lwd, vecs) && AllOk(ds)
    ensures InOrder(ds, lwd, vecs) && FirstSpace(ds, lwd) == FirstSpace(cs, lwd)
  {
    forall i | 0 <= i < |vecs|
      ensures NamesSpace(ds, vecs[i])
    {
      assert NamesSpace(cs, vecs[i]);
    }
  }

  lemma SameSlotsNth(cs: seq<Chain>, ds: seq<Chain>, lwd: nat, vecs: seq<IoVec>, i: nat)
    requires SameSlots(cs, ds) && InOrder(cs, lwd, vecs) && AllOk(ds) && i < |vecs|
    ensures lwd < |ds| && NamesSpace(ds, vecs[i]) && vecs[i].chain == FirstSpace(ds, lwd) + i
  {
    SameSlotsOrder(cs, ds, lwd, vecs);
  }

  /** Write the next piece into vector v and remember how much of it was used. */
  method WriteNext(buf: EvBuffer, v: IoVec, used: seq<IoVec>, piece: seq<Byte>) returns (now: seq<IoVec>)
    requires buf.Valid() && buf.lwd < |buf.chains|
    requires InOrder(buf.chains, buf.lwd, used) && NamesSpace(buf.chains, v) && |piece| <= v.len
    requires v.chain == FirstSpace(buf.chains, buf.lwd) + |used|
    modifies buf`chains
    ensures buf.Valid() && buf.Content() == old(buf.Content())
    ensures SameSlots(old(buf.chains), buf.chains)
    ensures now == used + [IoVec(v.chain, v.base, |piece|)]
    ensures InOrder(buf.chains, buf.lwd, now)
    ensures Written(buf.chains, now) == Written(old(buf.chains), used) + piece
  {
    hide Flatten, Leads, Written, Chain.Scribble;
    ghost var was := buf.chains;
    buf.WriteSpace(v, piece);
    SameSlotsOrder(was, buf.chains, buf.lwd, used);
    WrittenSame(was, buf.chains, used);
    var u := IoVec(v.chain, v.base, |piece|);
    WrittenSnoc(buf.chains, used, u);
    now := used + [u];
  }

  /** Spread data over the vectors, in order. */
  method WriteAll(buf: EvBuffer, vecs: seq<IoVec>, data: seq<Byte>) returns (used: seq<IoVec>)
    requires buf.Valid() && buf.lwd < |buf.chains| && InOrder(buf.chains, buf.lwd, vecs)
    requires SumLen(vecs) >= |data| && forall i :: 0 <= i < |vecs| ==> vecs[i].len > 0
    modifies buf`chains
    ensures buf.Valid() && buf.Content() == old(buf.Content())
    ensures SameSlots(old(buf.chains), buf.chains)
    ensures InOrder(buf.chains, buf.lwd, used) && forall j :: 0 <= j < |used| ==> used[j].len > 0
    ensures Written(buf.chains, used) == data
  {
    hide Flatten, Leads, Layout, Written, SumLen;
    used := [];
    WrittenNone(buf.chains, used);
    assert used[..0] == used;
    SumLenNone(vecs);
    var i, pos := 0, 0;
    while i < |vecs| && pos < |data|
      invariant buf.Valid() && buf.Content() == old(buf.Content())
      invariant SameSlots(old(buf.chains), buf.chains)
      invariant i == |used| <= |vecs| && 0 <= pos <= |data|
      invariant InOrder(buf.chains, buf.lwd, used)
      invariant Written(buf.chains, used) == data[..pos]
      invariant forall j :: 0 <= j < i ==> used[j].len > 0
      invariant pos < |data| ==> pos == SumLen(vecs[..i])
    {
      SameSlotsNth(old(buf.chains), buf.chains, buf.lwd, vecs, i);
      var take := Min(|data| - pos, vecs[i].len);
      used := WriteNext(buf, vecs[i], used, data[pos..pos + take]);
      SumLenStep(vecs, i);
      assert data[..pos + take] == data[..pos] + data[pos..pos + take];
      pos := pos + take;
      i := i + 1;
    }
    assert i == |vecs| ==> vecs[..i] == vecs;
    assert data[..|data|] == data;
  }

  /** Reserve space, write data into the vectors in order, commit the vectors used:
      the buffer grows by exactly data. */
  method ReserveWriteCommit(buf: EvBuffer, data: seq<Byte>, nVecs: nat) returns (ok: bool)
    requires buf.Valid() && nVecs >= 2
    modifies buf`chains, buf`lwd, buf`totalLen, buf`nAdd, buf`nDel, buf`baseLen, buf`shown
    ensures buf.Valid()
    ensures ok <==> !buf.freezeEnd
    ensures buf.Content() == if ok then old(buf.Content()) + data else old(buf.Content())
  {
    hide Flatten, Leads, Layout, Written, SumLen;
    var n, vecs := buf.ReserveSpace(|data|, nVecs);
    if n == -1 {
      return false;
    }
    var used := WriteAll(buf, vecs, data);
    ok := buf.CommitSpace(used);
  }

  lemma SumLenNone(vecs: seq<IoVec>)
    ensures SumLen(vecs[..0]) == 0
  {
  }

  lemma SumLenStep(vecs: seq<IoVec>, i: nat)
    requires i < |vecs|
    ensures SumLen(vecs[..i + 1]) == SumLen(vecs[..i]) + vecs[i].len
  {
    assert vecs[..i + 1] == vecs[..i] + [vecs[i]];
    SumLenSnoc(vecs[..i], vecs[i]);
  }

  /** Calls on two buffers; a flag picks the left or the right one. */
  datatype Op =
    | OpAdd(left: bool, data: seq<Byte>)
    | OpPrepend(left: bool, data: seq<Byte>)
    | OpFill(left: bool, data: seq<Byte>, extraVecs: nat)
    | OpDrain(left: bool, n: nat)
    | OpRemove(left: bool, n: nat)
    | OpCopyOut(left: bool, n: nat)
    | OpPullup(left: bool, size: int)
    | OpExpand(left: bool, n: nat)
    | OpMove(left: bool, n: nat)
    | OpMoveAll(left: bool)

  /** The byte-string view of the two buffers. */
  datatype Two = Two(left: seq<Byte>, right: seq<Byte>) {
    function Get(l: bool): seq<Byte> { if l then left else right }
    function Put(l: bool, s: seq<Byte>): Two { if l then Two(s, right) else Two(left, s) }
  }

  function Step(op: Op, p: Two): Two {
    var s := p.Get(op.left);
    match op
    case OpAdd(l, data) => p.Put(l, s + data)
    case OpPrepend(l, data) => p.Put(l, data + s)
    case OpFill(l, data, _) => p.Put(l, s + data)
    case OpDrain(l, n) => p.Put(l, s[Min(n, |s|)..])
    case OpRemove(l, n) => p.Put(l, s[Min(n, |s|)..])
    case OpCopyOut(_, _) => p
    case OpPullup(_, _) => p
    case OpExpand(_, _) => p
    case OpMove(l, n) => p.Put(!l, p.Get(!l) + s[..Min(n, |s|)]).Put(l, s[Min(n, |s|)..])
    case OpMoveAll(l) => p.Put(!l, p.Get(!l) + s).Put(l, [])
  }

  /** The bytes a call hands to its caller. */
  function Out(op: Op, p: Two): seq<Byte> {
    var s := p.Get(op.left);
    match op
    case OpRemove(_, n) => s[..Min(n, |s|)]
    case OpCopyOut(_, n) => s[..Min(n, |s|)]
    case OpPullup(_, size) =>
      var want := if size < 0 then |s| else size;
      if want <= |s| then s[..want] else []
    case _ => []
  }

  function BytesIn(op: Op): nat {
    if op.OpAdd? || op.OpPrepend? || op.OpFill? then |op.data| else 0
  }

  function After(ops: seq<Op>, p: Two): Two {
    if ops == [] then p else Step(ops[|ops| - 1], After(ops[..|ops| - 1], p))
  }

  function Outs(ops: seq<Op>, p: Two): seq<seq<Byte>> {
    if ops == [] then []
    else Outs(ops[..|ops| - 1], p) + [Out(ops[|ops| - 1], After(ops[..|ops| - 1], p))]
  }

  function TotalIn(ops: seq<Op>): nat {
    if ops == [] then 0 else TotalIn(ops[..|ops| - 1]) + BytesIn(ops[|ops| - 1])
  }

  lemma RunStep(ops: seq<Op>, p: Two, i: nat)
    requires i < |ops|
    ensures After(ops[..i + 1], p) == Step(ops[i], After(ops[..i], p))
    ensures Outs(ops[..i + 1], p) == Outs(ops[..i], p) + [Out(ops[i], After(ops[..i], p))]
    ensures TotalIn(ops[..i + 1]) == TotalIn(ops[..i]) + BytesIn(ops[i])
  {
    assert ops[..i + 1][..i] == ops[..i];
  }

  lemma {:induction false} TotalInPrefix(ops: seq<Op>, i: nat)
    requires i <= |ops|
    ensures TotalIn(ops[..i]) <= TotalIn(ops)
  {
    if i < |ops| {
      assert ops[..|ops| - 1][..i] == ops[..i];
      TotalInPrefix(ops[..|ops| - 1], i);
    } else {
      assert ops[..i] == ops;
    }
  }

  /** No call creates bytes beyond the ones it is given. */
  lemma StepSize(op: Op, p: Two)
    ensures |Step(op, p).left| + |Step(op, p).right| <= |p.left| + |p.right| + BytesIn(op)
  {
  }

  method RunOne(a: EvBuffer, b: EvBuffer, op: Op) returns (out: seq<Byte>)
    requires a != b && a.Valid() && b.Valid()
    requires !a.freezeStart && !a.freezeEnd && !b.freezeStart && !b.freezeEnd
    requires a.totalLen + b.totalLen + BytesIn(op) <= SIZE_MAX
    modifies a`chains, a`lwd, a`totalLen, a`nAdd, a`nDel, a`baseLen, a`shown
    modifies b`chains, b`lwd, b`totalLen, b`nAdd, b`nDel, b`baseLen, b`shown
    ensures a.Valid() && b.Valid()
    ensures Two(a.Content(), b.Content()) == Step(op, old(Two(a.Content(), b.Content())))
    ensures out == Out(op, old(Two(a.Content(), b.Content())))
  {
    hide Flatten, Leads, Layout;
    var x, y := if op.left then a else b, if op.left then b else a;
    out := [];
    match op {
      case OpAdd(_, data) => var _ := x.Add(data);
      case OpPrepend(_, data) => var _ := x.Prepend(data);
      case OpFill(_, data, extra) => var _ := ReserveWriteCommit(x, data, extra + 2);
      case OpDrain(_, n) => var _ := x.Drain(n);
      case OpRemove(_, n) =>
        var r, d := x.Remove(n);
        out := d;
      case OpCopyOut(_, n) =>
        var r, d := x.CopyOut(n);
        out := d;
      case OpPullup(_, size) =>
        var r := x.Pullup(size);
        out := if r.Some? then r.value else [];
      case OpExpand(_, n) => var _ := x.ExpandSingle(n);
      case OpMove(_, n) => var _ := RemoveBuffer(x, y, n);
      case OpMoveAll(_) => var _ := AddBuffer(y, x);
    }
  }

  /** Any run of calls refines the run on byte strings, output by output. */
  method Run(a: EvBuffer, b: EvBuffer, ops: seq<Op>) returns (outs: seq<seq<Byte>>)
    requires a != b && a.Valid() && b.Valid()
    requires !a.freezeStart && !a.freezeEnd && !b.freezeStart && !b.freezeEnd
    requires a.totalLen + b.totalLen + TotalIn(ops) <= SIZE_MAX
    modifies a`chains, a`lwd, a`totalLen, a`nAdd, a`nDel, a`baseLen, a`shown
    modifies b`chains, b`lwd, b`totalLen, b`nAdd, b`nDel, b`baseLen, b`shown
    ensures a.Valid() && b.Valid()
    ensures Two(a.Content(), b.Content()) == After(ops, old(Two(a.Content(), b.Content())))
    ensures outs == Outs(ops, old(Two(a.Content(), b.Content())))
  {
    ghost var p := Two(a.Content(), b.Content());
    outs := [];
    hide Flatten, Leads, Layout, Step, Out;
    var i := 0;
    while i < |ops|
      invariant 0 <= i <= |ops| && a.Valid() && b.Valid()
      invariant Two(a.Content(), b.Content()) == After(ops[..i], p)
      invariant outs == Outs(ops[..i], p)
      invariant a.totalLen + b.totalLen <= |p.left| + |p.right| + TotalIn(ops[..i])
    {
      RunStep(ops, p, i);
      TotalInPrefix(ops, i + 1);
      StepSize(ops[i], After(ops[..i], p));
      var out := RunOne(a, b, ops[i]);
      outs := outs + [out];
      i := i + 1;
    }
    assert ops[..i] == ops;
  }

  /** Calls that only feed the left buffer, move bytes left to right, and take them
      out on the right. */
  predicate PipeOp(op: Op) {
    || ((op.OpAdd? || op.OpFill? || op.OpMove? || op.OpMoveAll?) && op.left)
    || (op.OpRemove? && !op.left)
    || op.OpPullup? || op.OpExpand? || op.OpCopyOut?
  }

  function Added(ops: seq<Op>): seq<Byte> {
    if ops == [] then []
    else
      var op := ops[|ops| - 1];
      Added(ops[..|ops| - 1]) + (if op.OpAdd? || op.OpFill? then op.data else [])
  }

  function Taken(ops: seq<Op>, p: Two): seq<Byte> {
    if ops == [] then []
    else
      var op := ops[|ops| - 1];
      Taken(ops[..|ops| - 1], p) +
      (if op.OpRemove? then Out(op, After(ops[..|ops| - 1], p)) else [])
  }

  /** Through two buffers in a row, bytes come out in the order they went in: what
      was taken, what sits right and what sits left is what was there and what
      was added. */
  lemma {:induction false} PipeConserves(ops: seq<Op>, p: Two)
    requires forall i :: 0 <= i < |ops| ==> PipeOp(ops[i])
    ensures Taken(ops, p) + After(ops, p).right + After(ops, p).left == p.right + p.left + Added(ops)
  {
    hide Step, Out, PipeOp;
    if ops != [] {
      var n := |ops| - 1;
      var q := After(ops[..n], p);
      PipeConserves(ops[..n], p);
      assert PipeOp(ops[n]);
      PipeStep(ops[n], q, Taken(ops[..n], p), p.right + p.left + Added(ops[..n]));
    }
  }

  lemma PipeStep(op: Op, q: Two, taken: seq<Byte>, all: seq<Byte>)
    requires PipeOp(op) && taken + q.right + q.left == all
    ensures var r := Step(op, q);
      taken + (if op.OpRemove? then Out(op, q) else []) + r.right + r.left ==
      all + (if op.OpAdd? || op.OpFill? then op.data else [])
  {
    Nothing(taken, all);
    match op {
      case OpRemove(_, n) =>
        CutJoin(taken, q.right, Min(n, |q.right|));
      case OpMove(_, n) =>
        Rejoin(taken, q.right, q.left, Min(n, |q.left|));
      case OpMoveAll(_) =>
        Rejoin(taken, q.right, q.left, |q.left|);
      case OpAdd(_, data) =>
        Assoc(taken + q.right, q.left, data);
      case OpFill(_, data, _) =>
        Assoc(taken + q.right, q.left, data);
      case _ =>
    }
  }

  lemma Nothing(a: seq<Byte>, b: seq<Byte>)
    ensures a + [] == a && b + [] == b
  {
  }

  lemma Rejoin(t: seq<Byte>, r: seq<Byte>, l: seq<Byte>, k: nat)
    requires k <= |l|
    ensures t + (r + l[..k]) + l[k..] == t + r + l
    ensures k == |l| ==> t + (r + l) + [] == t + r + l
  {
  }
}
