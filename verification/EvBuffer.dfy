/**
  The evbuffer of buffer.c: a list of chains, an index naming the chain that
  *last_with_datap points at, and the byte counters.  Every operation is proved
  against one byte string, Content().
 */
module EvBuffers {
  import opened Bytes
  import opened Chains

  /** The shape of the chain list (evbuffer-internal.h:86-102).  lwd is the
      position of *last_with_datap; position 0 stands for &buf->first.  Only
      chains behind lwd, or all of them, may be empty. */
  predicate Layout(cs: seq<Chain>, lwd: nat) {
    && AllOk(cs)
    && (|cs| == 0 ==> lwd == 0)
    && (|cs| > 0 ==> lwd < |cs|)
    && (forall i :: 0 <= i < lwd ==> i < |cs| && cs[i].off > 0)
    && (forall i :: lwd < i < |cs| ==> cs[i].off == 0)
    && (lwd > 0 ==> lwd < |cs| && cs[lwd].off > 0)
  }

  lemma LayoutOk(cs: seq<Chain>, lwd: nat)
    requires Layout(cs, lwd)
    ensures AllOk(cs) && (|cs| > 0 ==> lwd < |cs|)
  {
  }

  lemma DataUpToLwd(cs: seq<Chain>, lwd: nat, p: nat)
    requires Layout(cs, lwd) && p < |cs| && cs[p].off > 0
    ensures p <= lwd
  {
  }

  /** The content is empty exactly when the first chain is. */
  lemma LayoutEmpty(cs: seq<Chain>, lwd: nat)
    requires Layout(cs, lwd)
    ensures Flatten(cs) == [] <==> |cs| == 0 || cs[0].off == 0
  {
    if |cs| > 0 && cs[0].off == 0 {
      FlattenEmpty(cs);
    } else if |cs| > 0 {
      FlattenSplit(cs, 0);
    }
  }

  /** last_with_datap is determined by the chains: it names the last chain with
      data, or the first chain when there is none. */
  lemma LastWithDataUnique(cs: seq<Chain>, a: nat, b: nat)
    requires Layout(cs, a) && Layout(cs, b)
    ensures a == b
  {
    if a < b {
      assert false;
    }
    if b < a {
      assert false;
    }
  }

  /** The chains up to and including last_with_data hold everything. */
  lemma LwdHoldsAll(cs: seq<Chain>, lwd: nat)
    requires Layout(cs, lwd) && |cs| > 0
    ensures Flatten(cs) == Flatten(cs[..lwd]) + cs[lwd].Data()
  {
    FlattenSplit(cs, lwd);
    FlattenEmpty(cs[lwd + 1..]);
  }

  /** Appending data to the last chain with data. */
  lemma GrowLwd(cs: seq<Chain>, lwd: nat, c: Chain, data: seq<Byte>)
    requires Layout(cs, lwd) && |cs| > 0 && c.Ok()
    requires c.Data() == cs[lwd].Data() + data
    ensures Layout(cs[lwd := c], lwd)
    ensures Flatten(cs[lwd := c]) == Flatten(cs) + data
  {
    assert c.off == |c.Data()| == cs[lwd].off + |data|;
    FlattenGrow(cs, lwd, c, data);
  }

  /** Putting data in front of the first chain. */
  lemma GrowFirst(cs: seq<Chain>, lwd: nat, c: Chain, data: seq<Byte>)
    requires Layout(cs, lwd) && |cs| > 0 && c.Ok()
    requires c.Data() == data + cs[0].Data()
    ensures Layout(cs[0 := c], lwd)
    ensures Flatten(cs[0 := c]) == data + Flatten(cs)
  {
    assert c.off == |c.Data()| == |data| + cs[0].off;
    FlattenUpdate(cs, 0, c);
    FlattenSplit(cs, 0);
    assert Flatten(cs[..0]) == [];
  }

  /** A new chain with data in front of a list that holds data. */
  lemma PushFront(cs: seq<Chain>, lwd: nat, c: Chain)
    requires Layout(cs, lwd) && |cs| > 0 && cs[0].off > 0 && c.Ok() && c.off > 0
    ensures Layout([c] + cs, lwd + 1)
    ensures Flatten([c] + cs) == c.Data() + Flatten(cs)
  {
    hide Flatten, Layout;
    PushFrontLayout(cs, lwd, c);
    LayoutOk(cs, lwd);
    FlattenCons(c, cs);
  }

  lemma PushFrontLayout(cs: seq<Chain>, lwd: nat, c: Chain)
    requires Layout(cs, lwd) && |cs| > 0 && cs[0].off > 0 && c.Ok() && c.off > 0
    ensures Layout([c] + cs, lwd + 1)
  {
    var ds := [c] + cs;
    assert forall i :: 0 < i < |ds| ==> ds[i] == cs[i - 1];
  }

  /** Dropping the chains before k, and part of chain k. */
  lemma DropChains(cs: seq<Chain>, lwd: nat, k: nat, n: nat)
    requires Layout(cs, lwd) && k <= lwd < |cs| && n < cs[k].off
    ensures Layout(cs[k..][0 := cs[k].DropFront(n)], lwd - k)
    ensures n <= |Flatten(cs[k..])| && Flatten(cs[k..][0 := cs[k].DropFront(n)]) == Flatten(cs[k..])[n..]
  {
    var ds := cs[k..][0 := cs[k].DropFront(n)];
    assert forall i :: 0 < i < |ds| ==> ds[i] == cs[i + k];
    assert ds[1..] == cs[k..][1..];
  }

  /** Pullup stopped inside chain k: it keeps its tail, behind tmp. */
  lemma PullupPart(cs: seq<Chain>, lwd: nat, tmp: Chain, k: nat, left: nat)
    requires Layout(cs, lwd) && k < |cs| && left < cs[k].off
    requires tmp.Ok() && tmp.Data() == Flatten(cs[..k]) && left <= tmp.SpaceLen() && tmp.off + left > 0
    ensures k <= lwd
    ensures var t := tmp.Append(cs[k].Data()[..left]);
      var rest := cs[k..][0 := cs[k].DropFront(left)];
      Layout([t] + rest, lwd - k + 1) && Flatten([t] + rest) == Flatten(cs)
  {
    hide Flatten, Layout, Chain.Append, Chain.DropFront;
    LayoutOk(cs, lwd);
    DataUpToLwd(cs, lwd, k);
    DropChains(cs, lwd, k, left);
    var t := tmp.Append(cs[k].Data()[..left]);
    var rest := cs[k..][0 := cs[k].DropFront(left)];
    PushFront(rest, lwd - k, t);
    PullupBytes(cs, k, left);
  }

  lemma PullupBytes(cs: seq<Chain>, k: nat, left: nat)
    requires AllOk(cs) && k < |cs| && left <= cs[k].off
    ensures left <= |Flatten(cs[k..])|
    ensures Flatten(cs[..k]) + cs[k].Data()[..left] + Flatten(cs[k..])[left..] == Flatten(cs)
  {
    FlattenCut(cs, k);
    var head, tail := cs[k].Data(), Flatten(cs[k..]);
    assert tail == head + Flatten(cs[k..][1..]);
    assert tail == head[..left] + tail[left..];
  }

  /** Pullup consumed every chain. */
  lemma PullupAll(cs: seq<Chain>, tmp: Chain, left: nat)
    requires AllOk(cs) && tmp.Ok() && tmp.Data() == Flatten(cs[..|cs|]) && tmp.off + left <= |Flatten(cs)|
    ensures left == 0
    ensures Layout([tmp], 0) && Flatten([tmp]) == Flatten(cs)
  {
    assert cs[..|cs|] == cs;
    FlattenOne(tmp);
  }

  /** Replacing a chain by one with the same data keeps shape and content. */
  lemma SameData(cs: seq<Chain>, lwd: nat, i: nat, c: Chain)
    requires Layout(cs, lwd) && i < |cs| && c.Ok() && c.Data() == cs[i].Data()
    ensures Layout(cs[i := c], lwd) && Flatten(cs[i := c]) == Flatten(cs)
  {
    assert c.off == |c.Data()| == cs[i].off;
    FlattenSame(cs, i, c);
  }

  /** An empty chain at the end changes neither shape nor content. */
  lemma AppendEmpty(cs: seq<Chain>, lwd: nat, c: Chain)
    requires Layout(cs, lwd) && |cs| > 0 && c.Ok() && c.off == 0
    ensures Layout(cs + [c], lwd) && Flatten(cs + [c]) == Flatten(cs)
  {
    hide Flatten;
    FlattenConcat(cs, [c]);
    FlattenEmpty([c]);
  }

  /** Linking a list that holds data behind chains that all hold data. */
  lemma Link(a: seq<Chain>, b: seq<Chain>, blwd: nat)
    requires AllOk(a) && NoneEmpty(a) && Layout(b, blwd) && |b| > 0 && b[0].off > 0
    ensures Layout(a + b, |a| + blwd) && Flatten(a + b) == Flatten(a) + Flatten(b)
  {
    hide Flatten;
    var cs := a + b;
    assert forall i :: 0 <= i < |a| ==> cs[i] == a[i];
    assert forall i :: |a| <= i < |cs| ==> cs[i] == b[i - |a|];
    FlattenConcat(a, b);
  }

  /** The chain evbuffer_read_setup_vecs_ and evbuffer_commit_space start at: the
      last chain with data, or the next one when that is full. */
  function FirstSpace(cs: seq<Chain>, lwd: nat): nat
    requires AllOk(cs) && lwd < |cs|
  {
    if cs[lwd].SpaceLen() == 0 then lwd + 1 else lwd
  }

  /** The free space of the chains at positions from..to. */
  function SpaceIn(cs: seq<Chain>, from: nat, to: nat): nat
    requires AllOk(cs) && from <= to <= |cs|
  {
    if from == to then 0 else SpaceIn(cs, from, to - 1) + cs[to - 1].SpaceLen()
  }

  lemma {:induction false} SpaceInSame(cs: seq<Chain>, ds: seq<Chain>, from: nat, to: nat)
    requires AllOk(cs) && AllOk(ds) && from <= to <= |cs| && to <= |ds|
    requires forall i :: from <= i < to ==> cs[i] == ds[i]
    ensures SpaceIn(cs, from, to) == SpaceIn(ds, from, to)
  {
    if from < to {
      SpaceInSame(cs, ds, from, to - 1);
    }
  }

  /** At least datlen bytes of space in the first m <= n chains from FirstSpace. */
  ghost predicate Roomy(cs: seq<Chain>, lwd: nat, datlen: nat, n: nat, m: nat) {
    && Layout(cs, lwd) && |cs| > 0 && m <= n
    && FirstSpace(cs, lwd) + m <= |cs|
    && SpaceIn(cs, FirstSpace(cs, lwd), FirstSpace(cs, lwd) + m) >= datlen
    && forall i :: FirstSpace(cs, lwd) <= i < FirstSpace(cs, lwd) + m ==> cs[i].SpaceLen() > 0
  }

  /** What a callback is told about a change (struct evbuffer_cb_info). */
  datatype CbInfo = CbInfo(origSize: int, nAdded: nat, nDeleted: nat)

  /** The next chain is twice as large as the last one, up to a limit. */
  function Grown(size: nat): nat {
    if 2 * size <= CHAIN_MAX_AUTO_SIZE then 2 * size else size
  }

  /** The changes lead from one length to another, each from where the last one left. */
  ghost predicate Leads(shown: seq<CbInfo>, from: int, to: int) {
    if shown == [] then from == to
    else
      var last := shown[|shown| - 1];
      last.origSize + last.nAdded - last.nDeleted == to && Leads(shown[..|shown| - 1], from, last.origSize)
  }

  lemma LeadsOn(shown: seq<CbInfo>, from: int, info: CbInfo)
    requires Leads(shown, from, info.origSize)
    ensures Leads(shown + [info], from, info.origSize + info.nAdded - info.nDeleted)
  {
    assert (shown + [info])[..|shown|] == shown;
  }

  /** An I/O vector handed out by evbuffer_reserve_space: the free space of the
      chain at position chain, which starts at buffer offset base. */
  datatype IoVec = IoVec(chain: nat, base: nat, len: nat)

  function SumLen(vecs: seq<IoVec>): nat {
    if vecs == [] then 0 else SumLen(vecs[..|vecs| - 1]) + vecs[|vecs| - 1].len
  }

  lemma SumLenSnoc(vecs: seq<IoVec>, v: IoVec)
    ensures SumLen(vecs + [v]) == SumLen(vecs) + v.len
  {
    assert (vecs + [v])[..|vecs|] == vecs;
  }

  /** v is a part of the free space of the chain it names. */
  predicate NamesSpace(cs: seq<Chain>, v: IoVec) {
    && v.chain < |cs| && cs[v.chain].Ok()
    && v.base == cs[v.chain].misalign + cs[v.chain].off
    && v.len <= cs[v.chain].SpaceLen()
  }

  predicate OffersSpace(cs: seq<Chain>, v: IoVec, p: nat, exact: bool) {
    NamesSpace(cs, v) && v.chain == p && (exact || v.len == cs[p].SpaceLen() > 0)
  }

  /** The vectors name consecutive chains, the first one with space first. */
  predicate InOrder(cs: seq<Chain>, lwd: nat, vecs: seq<IoVec>) {
    && AllOk(cs) && lwd < |cs|
    && forall i :: 0 <= i < |vecs| ==>
         NamesSpace(cs, vecs[i]) && vecs[i].chain == FirstSpace(cs, lwd) + i
  }

  /** The vectors offer the space of the chains from position first on. */
  ghost predicate Offered(cs: seq<Chain>, first: nat, vecs: seq<IoVec>, exact: bool) {
    forall j :: 0 <= j < |vecs| ==> OffersSpace(cs, vecs[j], first + j, exact)
  }

  lemma OfferedStep(cs: seq<Chain>, first: nat, vecs: seq<IoVec>, exact: bool, v: IoVec)
    requires Offered(cs, first, vecs, exact) && OffersSpace(cs, v, first + |vecs|, exact)
    ensures Offered(cs, first, vecs + [v], exact)
  {
    hide OffersSpace;
  }

  lemma OfferedInOrder(cs: seq<Chain>, lwd: nat, vecs: seq<IoVec>, exact: bool)
    requires AllOk(cs) && lwd < |cs| && Offered(cs, FirstSpace(cs, lwd), vecs, exact)
    ensures InOrder(cs, lwd, vecs)
    ensures !exact ==> forall j :: 0 <= j < |vecs| ==> vecs[j].chain < |cs| && vecs[j].len == cs[vecs[j].chain].SpaceLen() > 0
  {
    forall j | 0 <= j < |vecs|
      ensures NamesSpace(cs, vecs[j]) && vecs[j].chain == FirstSpace(cs, lwd) + j
      ensures !exact ==> vecs[j].len == cs[vecs[j].chain].SpaceLen() > 0
    {
      assert OffersSpace(cs, vecs[j], FirstSpace(cs, lwd) + j, exact);
    }
  }

  /** With that room, the walk has not reached the end while it is short. */
  lemma RoomLeft(cs: seq<Chain>, lwd: nat, howmuch: nat, n: nat, m: nat, i: nat)
    requires Roomy(cs, lwd, howmuch, n, m) && i <= m
    ensures FirstSpace(cs, lwd) + i <= |cs|
    ensures SpaceIn(cs, FirstSpace(cs, lwd), FirstSpace(cs, lwd) + i) < howmuch ==>
      && i < m && FirstSpace(cs, lwd) + i < |cs| && cs[FirstSpace(cs, lwd) + i].SpaceLen() > 0
      && SpaceIn(cs, FirstSpace(cs, lwd), FirstSpace(cs, lwd) + i + 1) ==
           SpaceIn(cs, FirstSpace(cs, lwd), FirstSpace(cs, lwd) + i) + cs[FirstSpace(cs, lwd) + i].SpaceLen()
  {
  }

  /** The bytes that sit in the space the vectors name. */
  function Written(cs: seq<Chain>, vecs: seq<IoVec>): seq<Byte>
    requires forall i :: 0 <= i < |vecs| ==> NamesSpace(cs, vecs[i])
  {
    if vecs == [] then []
    else
      var v := vecs[|vecs| - 1];
      assert NamesSpace(cs, vecs[|vecs| - 1]);
      Written(cs, vecs[..|vecs| - 1]) + cs[v.chain].buf[v.base..v.base + v.len]
  }

  lemma WrittenNone(cs: seq<Chain>, vecs: seq<IoVec>)
    requires forall i :: 0 <= i < |vecs| ==> NamesSpace(cs, vecs[i])
    ensures Written(cs, vecs[..0]) == []
  {
  }

  lemma WrittenStep(cs: seq<Chain>, vecs: seq<IoVec>, i: nat)
    requires i < |vecs| && forall j :: 0 <= j < |vecs| ==> NamesSpace(cs, vecs[j])
    ensures NamesSpace(cs, vecs[i])
    ensures Written(cs, vecs[..i + 1]) ==
      Written(cs, vecs[..i]) + cs[vecs[i].chain].buf[vecs[i].base..vecs[i].base + vecs[i].len]
  {
    assert NamesSpace(cs, vecs[i]);
    assert vecs[..i + 1][..i] == vecs[..i];
  }

  /** A vector is filled only when every chain before it holds data or is filled. */
  predicate GapFree(cs: seq<Chain>, lwd: nat, vecs: seq<IoVec>) {
    forall j :: 0 <= j < |vecs| && vecs[j].len > 0 ==>
      && (lwd < vecs[0].chain ==> lwd < |cs| && cs[lwd].off > 0)
      && (forall i :: 0 <= i < j ==> vecs[i].len > 0 || (vecs[i].chain < |cs| && cs[vecs[i].chain].off > 0))
  }

  /** What a caller has to see to when it commits fewer bytes than it reserved. */
  predicate Tidy(cs: seq<Chain>, lwd: nat, vecs: seq<IoVec>) {
    GapFree(cs, lwd, vecs) && (|vecs| == 1 && vecs[0].len > 0 ==> vecs[0].chain <= lwd + 1)
  }

  /** ds is cs with the space that the vectors name claimed. */
  ghost predicate Claims(cs: seq<Chain>, ds: seq<Chain>, vecs: seq<IoVec>) {
    && |ds| == |cs|
    && (forall i :: 0 <= i < |vecs| ==> ClaimedVec(cs, ds, vecs[i]))
    && (vecs != [] ==>
          forall p :: 0 <= p < |cs| && !(vecs[0].chain <= p < vecs[0].chain + |vecs|) ==> ds[p] == cs[p])
  }

  ghost predicate ClaimedVec(cs: seq<Chain>, ds: seq<Chain>, v: IoVec) {
    |ds| == |cs| && NamesSpace(cs, v) && ds[v.chain] == cs[v.chain].Claim(v.len)
  }

  /** When evbuffer_commit_space accepts a non-empty list of vectors. */
  predicate Accepts(cs: seq<Chain>, lwd: nat, vecs: seq<IoVec>) {
    && AllOk(cs) && lwd < |cs|
    && (InOrder(cs, lwd, vecs) || (|vecs| == 1 && vecs[0].chain == |cs| - 1 && NamesSpace(cs, vecs[0])))
  }

  lemma SingleInOrder(cs: seq<Chain>, lwd: nat, vecs: seq<IoVec>)
    requires |vecs| == 1
    ensures InOrder(cs, lwd, vecs) ==> NamesSpace(cs, vecs[0])
  {
  }

  /** pass 1 of evbuffer_commit_space */
  method VecsInOrder(cs: seq<Chain>, lwd: nat, vecs: seq<IoVec>) returns (ok: bool)
    requires AllOk(cs) && lwd < |cs|
    ensures ok <==> InOrder(cs, lwd, vecs)
  {
    var first := FirstSpace(cs, lwd);
    for i := 0 to |vecs|
      invariant forall j :: 0 <= j < i ==> NamesSpace(cs, vecs[j]) && vecs[j].chain == first + j
    {
      if first + i >= |cs| || vecs[i].chain != first + i
         || vecs[i].base != cs[first + i].misalign + cs[first + i].off
         || vecs[i].len > cs[first + i].SpaceLen() {
        return false;
      }
    }
    ok := true;
  }

  /** evbuffer_expand_singlechain leaves a half-full last chain alone and picks the
      empty chain behind it. */
  predicate PicksNext(cs: seq<Chain>, lwd: nat, datlen: nat) {
    && AllOk(cs) && lwd + 1 < |cs|
    && 0 < cs[lwd].SpaceLen() < datlen && cs[lwd].off > 0
    && !cs[lwd].ShouldRealign(datlen)
    && (cs[lwd].SpaceLen() < |cs[lwd].buf| / 8 || cs[lwd].off > MAX_TO_COPY_IN_EXPAND || datlen + cs[lwd].off >= CHAIN_MAX)
    && cs[lwd + 1].SpaceLen() >= datlen
  }

  /** A vector on that chain is refused by evbuffer_commit_space unless the chain
      is the last one. */
  lemma SingleCommit(cs: seq<Chain>, lwd: nat, v: IoVec)
    requires AllOk(cs) && lwd < |cs| && NamesSpace(cs, v)
    ensures Accepts(cs, lwd, [v]) <==> v.chain == |cs| - 1 || v.chain == FirstSpace(cs, lwd)
  {
    assert forall i :: 0 <= i < |[v]| ==> [v][i] == v;
    if v.chain == FirstSpace(cs, lwd) {
      assert InOrder(cs, lwd, [v]);
    }
    if InOrder(cs, lwd, [v]) {
      assert [v][0].chain == FirstSpace(cs, lwd) + 0;
    }
  }

  /** The empty chains from lwd on start at the front of their memory. */
  predicate Fresh(cs: seq<Chain>, lwd: nat) {
    forall i :: lwd <= i < |cs| && cs[i].off == 0 ==> cs[i].misalign == 0
  }

  /** All the chains from the first one with space on, fewer than n, lack the room. */
  predicate Short(cs: seq<Chain>, lwd: nat, datlen: nat, n: nat) {
    && AllOk(cs) && lwd < |cs| && Fresh(cs, lwd) && FirstSpace(cs, lwd) <= |cs| < FirstSpace(cs, lwd) + n
    && SpaceIn(cs, FirstSpace(cs, lwd), |cs|) < datlen
  }

  /** One empty chain more, with at least that much room. */
  predicate OneMore(cs: seq<Chain>, ds: seq<Chain>, room: nat) {
    && |ds| == |cs| + 1 && ds[..|cs|] == cs
    && ds[|cs|].Ok() && ds[|cs|].off == 0 && ds[|cs|].misalign == 0 && ds[|cs|].SpaceLen() >= room
  }

  predicate OneEmpty(cs: seq<Chain>, lwd: nat) {
    |cs| == 1 && lwd == 0 && cs[0].off == 0 && cs[0].misalign == 0
  }

  lemma ShortSome(cs: seq<Chain>, lwd: nat, datlen: nat, n: nat)
    ensures Short(cs, lwd, datlen, n) ==> |cs| > 0
  {
  }

  /** Then the scan finds all of them, and that they are too few. */
  lemma ShortScan(cs: seq<Chain>, ds: seq<Chain>, lwd: nat, datlen: nat, n: nat, avail: nat, used: nat, k: nat)
    requires AllOk(cs) && AllOk(ds) && lwd < |cs| == |ds| && (Fresh(cs, lwd) ==> ds == cs)
    requires FirstSpace(ds, lwd) <= k <= |ds| && used == k - FirstSpace(ds, lwd) && avail == SpaceIn(ds, FirstSpace(ds, lwd), k)
    requires avail < datlen ==> k == |ds| || used == n
    ensures Short(cs, lwd, datlen, n) ==>
      ds == cs && avail < datlen && used < n && avail == SpaceIn(cs, FirstSpace(cs, lwd), |cs|)
  {
    SpaceInMono(ds, FirstSpace(ds, lwd), k, |ds|);
  }

  lemma {:induction false} SpaceInMono(cs: seq<Chain>, from: nat, k: nat, to: nat)
    requires AllOk(cs) && from <= k <= to <= |cs|
    ensures SpaceIn(cs, from, k) <= SpaceIn(cs, from, to)
  {
    if k < to {
      SpaceInMono(cs, from, k, to - 1);
    }
  }

  /** The state of the scan: chains up to k are seen, those from f on have space. */
  ghost predicate Scanning(cs: seq<Chain>, ds: seq<Chain>, lwd: nat, f: nat, k: nat, avail: nat, used: nat) {
    && Layout(ds, lwd) && lwd <= k <= |ds| == |cs| && lwd < |ds| && AllOk(cs)
    && Flatten(ds) == Flatten(cs) && (Fresh(cs, lwd) ==> ds == cs)
    && (k == lwd ==> f == lwd)
    && (k > lwd ==> f == FirstSpace(ds, lwd) && ds[lwd].SpaceLen() <= avail)
    && (k > lwd ==> ds[lwd].off > 0 || ds[lwd].SpaceLen() > 0)
    && f <= k && used == k - f && avail == SpaceIn(ds, f, k)
    && (forall i :: f <= i < k ==> ds[i].SpaceLen() > 0)
  }

  lemma ScanStart(cs: seq<Chain>, lwd: nat)
    requires Layout(cs, lwd) && |cs| > 0
    ensures Scanning(cs, cs, lwd, lwd, lwd, 0, 0)
  {
    hide Flatten;
  }

  /** A chain with data is the one the scan starts at. */
  lemma ScanData(cs: seq<Chain>, ds: seq<Chain>, lwd: nat, f: nat, k: nat, avail: nat, used: nat)
    requires Scanning(cs, ds, lwd, f, k, avail, used) && k < |ds| && ds[k].off > 0
    ensures ds[k].Ok() && if ds[k].SpaceLen() > 0
      then Scanning(cs, ds, lwd, f, k + 1, avail + ds[k].SpaceLen(), used + 1)
      else Scanning(cs, ds, lwd, k + 1, k + 1, avail, used)
  {
    hide Flatten;
    assert k == lwd;
  }

  lemma ScanEmpty(cs: seq<Chain>, ds: seq<Chain>, lwd: nat, f: nat, k: nat, avail: nat, used: nat)
    requires Scanning(cs, ds, lwd, f, k, avail, used) && k < |ds| && ds[k].off == 0
    ensures var c := Chain(ds[k].buf, 0, 0);
      Scanning(cs, ds[k := c], lwd, f, k + 1, avail + |c.buf|, used + 1)
  {
    hide Flatten, Layout, SpaceIn;
    var c := Chain(ds[k].buf, 0, 0);
    LayoutOk(ds, lwd);
    SameData(ds, lwd, k, c);
    SpaceInSame(ds, ds[k := c], f, k);
    SpaceInStep(ds[k := c], f, k);
    if Fresh(cs, lwd) {
      assert ds[k] == c;
      assert ds[k := c] == ds;
    }
  }

  lemma SpaceInStep(cs: seq<Chain>, from: nat, k: nat)
    requires AllOk(cs) && from <= k < |cs|
    ensures SpaceIn(cs, from, k + 1) == SpaceIn(cs, from, k) + cs[k].SpaceLen()
  {
  }

  lemma ScanBounds(cs: seq<Chain>, ds: seq<Chain>, lwd: nat, f: nat, k: nat, avail: nat, used: nat)
    requires Scanning(cs, ds, lwd, f, k, avail, used)
    ensures AllOk(ds) && lwd <= k <= |ds| == |cs|
  {
    hide Flatten, SpaceIn;
  }

  lemma ScanEnds(cs: seq<Chain>, ds: seq<Chain>, lwd: nat, f: nat, k: nat, avail: nat, used: nat)
    requires Scanning(cs, ds, lwd, f, k, avail, used) && k > lwd
    ensures Layout(ds, lwd) && AllOk(ds) && lwd < k <= |ds| == |cs|
    ensures Flatten(ds) == Flatten(cs) && (Fresh(cs, lwd) ==> ds == cs)
    ensures FirstSpace(ds, lwd) <= k && used == k - FirstSpace(ds, lwd) && avail == SpaceIn(ds, FirstSpace(ds, lwd), k)
    ensures ds[lwd].SpaceLen() <= avail && (ds[lwd].off > 0 || ds[lwd].SpaceLen() > 0)
    ensures forall i :: FirstSpace(ds, lwd) <= i < k ==> ds[i].SpaceLen() > 0
  {
    hide Flatten, SpaceIn;
  }

  /** The scan of evbuffer_expand_fast_: realign empty chains from the last chain
      with data on, until datlen bytes or n usable chains are found. */
  method ScanSpace(cs: seq<Chain>, lwd: nat, datlen: nat, n: nat)
    returns (ds: seq<Chain>, avail: nat, used: nat, k: nat)
    requires Layout(cs, lwd) && |cs| > 0 && n >= 2
    ensures Layout(ds, lwd) && Flatten(ds) == Flatten(cs) && |ds| == |cs|
    ensures FirstSpace(ds, lwd) <= k <= |ds| && used == k - FirstSpace(ds, lwd) <= n
    ensures avail == SpaceIn(ds, FirstSpace(ds, lwd), k)
    ensures forall i :: FirstSpace(ds, lwd) <= i < k ==> ds[i].SpaceLen() > 0
    ensures avail < datlen ==> k == |ds| || used == n
    ensures avail < datlen ==> ds[lwd].SpaceLen() <= avail && k > lwd
    ensures ds[lwd].off > 0 || ds[lwd].SpaceLen() > 0
    ensures Fresh(cs, lwd) ==> ds == cs
  {
    LayoutOk(cs, lwd);
    hide Flatten, Leads, Layout, SpaceIn, Scanning, Fresh, FirstSpace;
    ds, avail, used, k := cs, 0, 0, lwd;
    ghost var f: nat := lwd;
    ScanStart(cs, lwd);
    while k < |ds|
      invariant lwd <= k <= |ds| == |cs| && AllOk(ds) && used < n && (k > lwd ==> avail < datlen)
      invariant Scanning(cs, ds, lwd, f, k, avail, used)
    {
      if ds[k].off > 0 {
        ScanData(cs, ds, lwd, f, k, avail, used);
        if ds[k].SpaceLen() > 0 {
          avail := avail + ds[k].SpaceLen();
          used := used + 1;
        } else {
          f := k + 1;
        }
      } else {
        ScanEmpty(cs, ds, lwd, f, k, avail, used);
        var c := Chain(ds[k].buf, 0, 0);
        ds := ds[k := c];
        avail := avail + |c.buf|;
        used := used + 1;
      }
      k := k + 1;
      ScanBounds(cs, ds, lwd, f, k, avail, used);
      if avail >= datlen || used == n {
        break;
      }
    }
    ScanEnds(cs, ds, lwd, f, k, avail, used);
  }

  /** evbuffer_read_setup_vecs_: with the room that evbuffer_expand_fast_ leaves,
      the walk never runs off the list and offers at least howmuch bytes. */
  method ReadSetupVecs(cs: seq<Chain>, lwd: nat, howmuch: int, nVecs: nat, exact: bool, ghost m: nat)
    returns (n: int, vecs: seq<IoVec>)
    requires AllOk(cs) && lwd < |cs|
    requires howmuch >= 0 ==> Roomy(cs, lwd, howmuch, nVecs, m)
    ensures howmuch < 0 ==> n == -1 && vecs == []
    ensures howmuch >= 0 ==> n == |vecs| <= nVecs
    ensures InOrder(cs, lwd, vecs)
    ensures howmuch >= 0 ==> SumLen(vecs) >= howmuch && (exact ==> SumLen(vecs) == howmuch)
    ensures !exact ==> forall i :: 0 <= i < |vecs| ==> vecs[i].chain < |cs| && vecs[i].len == cs[vecs[i].chain].SpaceLen() > 0
  {
    hide Layout, InOrder, Offered, Roomy, SpaceIn, SumLen, OffersSpace;
    vecs := [];
    OfferedNone(cs, lwd, exact);
    OfferedInOrder(cs, lwd, vecs, exact);
    if howmuch < 0 {
      return -1, [];
    }
    var soFar := 0;
    var first := lwd;
    if cs[lwd].SpaceLen() == 0 {
      first := lwd + 1;
    }
    var i := 0;
    RoomLeft(cs, lwd, howmuch, nVecs, m, 0);
    while i < nVecs && soFar < howmuch
      invariant i == |vecs| <= nVecs && i <= m
      invariant soFar == SumLen(vecs) && first + i <= |cs|
      invariant soFar < howmuch ==> soFar == SpaceIn(cs, first, first + i)
      invariant exact ==> soFar <= howmuch
      invariant Offered(cs, first, vecs, exact)
    {
      RoomLeft(cs, lwd, howmuch, nVecs, m, i);
      var avail := cs[first + i].SpaceLen();
      if avail > howmuch - soFar && exact {
        avail := howmuch - soFar;
      }
      var v := IoVec(first + i, cs[first + i].misalign + cs[first + i].off, avail);
      Offers(cs, v, exact);
      SumLenSnoc(vecs, v);
      OfferedStep(cs, first, vecs, exact, v);
      vecs := vecs + [v];
      soFar := soFar + avail;
      i := i + 1;
    }
    n := i;
    RoomEnough(cs, lwd, howmuch, nVecs, m);
    OfferedInOrder(cs, lwd, vecs, exact);
  }

  lemma OfferedNone(cs: seq<Chain>, lwd: nat, exact: bool)
    requires AllOk(cs) && lwd < |cs|
    ensures Offered(cs, FirstSpace(cs, lwd), [], exact) && SumLen([]) == 0
    ensures FirstSpace(cs, lwd) <= |cs| && SpaceIn(cs, FirstSpace(cs, lwd), FirstSpace(cs, lwd)) == 0
  {
  }

  lemma Offers(cs: seq<Chain>, v: IoVec, exact: bool)
    requires AllOk(cs) && v.chain < |cs| && v.base == cs[v.chain].misalign + cs[v.chain].off && v.len <= cs[v.chain].SpaceLen()
    requires !exact ==> v.len == cs[v.chain].SpaceLen() > 0
    ensures OffersSpace(cs, v, v.chain, exact)
  {
  }

  lemma RoomEnough(cs: seq<Chain>, lwd: nat, howmuch: nat, n: nat, m: nat)
    requires Roomy(cs, lwd, howmuch, n, m)
    ensures m <= n && FirstSpace(cs, lwd) + m <= |cs|
    ensures SpaceIn(cs, FirstSpace(cs, lwd), FirstSpace(cs, lwd) + m) >= howmuch
  {
  }

  class EvBuffer {
    var chains: seq<Chain>
    var lwd: nat
    var totalLen: nat
    var nAdd: nat
    var nDel: nat
    var freezeStart: bool
    var freezeEnd: bool
    var hasCallbacks: bool
    var deferredCbs: bool
    /** The length at the last point where the callback counters were cleared. */
    ghost var baseLen: nat
    /** What the callbacks were told, run by run, and the length before the first run. */
    ghost var shown: seq<CbInfo>
    ghost var startLen: nat

    ghost predicate Shape()
      reads this
    {
      AllOk(chains) && Layout(chains, lwd) && totalLen == |Flatten(chains)|
    }

    /** The callback counters account for the length. */
    ghost predicate Counted()
      reads this`totalLen, this`nAdd, this`nDel, this`baseLen
    {
      baseLen + nAdd == totalLen + nDel
    }

    /** Callbacks that are not deferred were told of every change in turn, each time with the
        length that the last one left. */
    ghost predicate History()
      reads this`shown, this`startLen, this`baseLen, this`hasCallbacks, this`deferredCbs
    {
      hasCallbacks && !deferredCbs ==> Leads(shown, startLen, baseLen)
    }

    /** What holds also between a change and its callbacks. */
    ghost predicate Sound()
      reads this
    {
      Shape() && Counted() && History()
    }

    /** The callbacks know of every change, unless they are deferred. */
    ghost predicate Cleared()
      reads this`nAdd, this`nDel, this`hasCallbacks, this`deferredCbs
    {
      (hasCallbacks && deferredCbs) || nAdd == nDel == 0
    }

    ghost predicate Valid()
      reads this
    {
      Sound() && Cleared()
    }

    ghost function Content(): seq<Byte>
      requires AllOk(chains)
      reads this
    {
      Flatten(chains)
    }

    constructor ()
      ensures Valid() && Content() == [] && chains == []
      ensures !freezeStart && !freezeEnd && !hasCallbacks && !deferredCbs
    {
      chains, lwd, totalLen, nAdd, nDel := [], 0, 0, 0, 0;
      freezeStart, freezeEnd, hasCallbacks, deferredCbs := false, false, false, false;
      baseLen, shown, startLen := 0, [], 0;
    }

    /** evbuffer_run_callbacks: what the callbacks see is the exact difference
        between now and the last clearing point. */
    method RunCallbacks(runningDeferred: bool) returns (info: Option<CbInfo>)
      requires Counted() && History()
      modifies this`nAdd, this`nDel, this`baseLen, this`shown
      ensures Counted() && Cleared() && History()
      ensures info.Some? <==> hasCallbacks && (old(nAdd) != 0 || old(nDel) != 0)
      ensures info.Some? ==>
        info.value.origSize == old(baseLen) &&
        info.value.origSize + info.value.nAdded - info.value.nDeleted == totalLen
      ensures if hasCallbacks && deferredCbs && !runningDeferred
        then nAdd == old(nAdd) && nDel == old(nDel) && baseLen == old(baseLen)
        else nAdd == nDel == 0 && baseLen == totalLen
    {
      info := None;
      var clear := runningDeferred || !deferredCbs;
      if !hasCallbacks {
        nAdd, nDel := 0, 0;
        baseLen := totalLen;
        return;
      }
      if nAdd == 0 && nDel == 0 {
        return;
      }
      info := Some(CbInfo(totalLen + nDel - nAdd, nAdd, nDel));
      if !deferredCbs {
        LeadsOn(shown, startLen, info.value);
      }
      shown := shown + [info.value];
      if clear {
        nAdd, nDel := 0, 0;
        baseLen := totalLen;
      }
    }

    /** evbuffer_invoke_callbacks_ */
    method InvokeCallbacks()
      requires Counted() && History()
      modifies this`nAdd, this`nDel, this`baseLen, this`shown
      ensures Counted() && Cleared() && History()
      ensures hasCallbacks && deferredCbs ==> nAdd == old(nAdd) && nDel == old(nDel) && baseLen == old(baseLen)
    {
      if !hasCallbacks {
        nAdd, nDel := 0, 0;
        baseLen := totalLen;
        return;
      }
      var _ := RunCallbacks(false);
    }

    /** evbuffer_free_trailing_empty_chains: returns the place where the next
        chain will go. */
    method FreeTrailingEmptyChains() returns (chp: nat)
      requires Layout(chains, lwd)
      modifies this`chains
      ensures chp == if |old(chains)| > 0 && old(chains)[lwd].off > 0 then lwd + 1 else lwd
      ensures chp <= |old(chains)| && chains == old(chains)[..chp]
      ensures AllOk(chains) && NoneEmpty(chains)
      ensures Content() == old(Content())
    {
      hide Flatten, Leads;
      chp := lwd;
      while chp < |chains| && chains[chp].off != 0
        invariant lwd <= chp <= |chains|
        invariant chp > lwd ==> chp == lwd + 1 && chains[lwd].off > 0
      {
        chp := chp + 1;
      }
      if chp < |chains| {
        assert AllEmpty(chains[chp..]);
        FlattenDropTail(chains, chp);
        chains := chains[..chp];
      }
    }

    /** evbuffer_chain_insert */
    method ChainInsert(c: Chain)
      requires Shape() && c.Ok()
      modifies this`chains, this`lwd, this`totalLen
      ensures Shape()
      ensures Content() == old(Content()) + c.Data()
      ensures |chains| > 0 && chains[|chains| - 1] == c
      ensures old(chains) == [] ==> chains == [c] && lwd == 0
      ensures c.off == 0 ==> lwd + 2 >= |chains|
      ensures c.off > 0 ==> lwd == |chains| - 1 && chains[lwd] == c
      ensures c.off > 0 && old(lwd) < |old(chains)| && old(chains)[old(lwd)].off > 0 ==> lwd == old(lwd) + 1
    {
      hide Flatten, Leads;
      FlattenOne(c);
      FlattenNil();
      if lwd == |chains| {
        // *last_with_datap == NULL: there are no chains at all.
        chains := [c];
        totalLen := totalLen + c.off;
      } else {
        var chp := FreeTrailingEmptyChains();
        FlattenConcat(chains, [c]);
        chains := chains + [c];
        if c.off > 0 {
          lwd := chp;
        }
        totalLen := totalLen + c.off;
      }
    }

    /** evbuffer_add */
    method Add(data: seq<Byte>) returns (ok: bool)
      requires Sound()
      modifies this`chains, this`lwd, this`totalLen, this`nAdd, this`nDel, this`baseLen, this`shown
      ensures Sound() && (ok || old(Valid()) ==> Valid())
      ensures ok <==> !freezeEnd && |data| <= SIZE_MAX - old(totalLen)
      ensures Content() == if ok then old(Content()) + data else old(Content())
    {
      hide Flatten, Leads;
      if freezeEnd {
        return false;
      }
      if |data| > SIZE_MAX - totalLen {
        return false;
      }
      if lwd == |chains| {
        var c := ChainNew(|data|);
        ChainInsert(c);
      }
      AddIntoChains(data);
      InvokeCallbacks();
      ok := true;
    }

    /** The three ways evbuffer_add places bytes once there is a chain: behind the
        data of the last chain with data, into its misalignment, or partly into a
        new chain. */
    method AddIntoChains(data: seq<Byte>)
      requires Sound() && lwd < |chains|
      modifies this`chains, this`lwd, this`totalLen, this`nAdd
      ensures Sound()
      ensures Content() == old(Content()) + data
      ensures var c := old(chains)[old(lwd)];
        if c.SpaceLen() >= |data| || (|c.buf| - c.off >= |data| && c.off < |c.buf| / 2 && c.off <= MAX_TO_REALIGN_IN_EXPAND)
        then lwd == old(lwd) && |chains| == |old(chains)| && |chains[lwd].buf| == |c.buf|
        else
          && lwd == |chains| - 1 && |chains[lwd].buf| >= Max(|data|, Grown(|c.buf|))
          && (c.off > 0 ==> lwd == old(lwd) + 1)
    {
      hide Flatten, Leads, Layout;
      var chain := chains[lwd];
      var remain := chain.SpaceLen();
      if remain >= |data| {
        Fill(chain, data);
      } else if chain.ShouldRealign(|data|) {
        Fill(chain.Align(), data);
      } else {
        AddNewChain(data);
      }
    }

    /** Put data behind the bytes of the last chain with data, whose current value
        may first have been realigned. */
    method Fill(chain: Chain, data: seq<Byte>)
      requires Sound() && lwd < |chains|
      requires chain.Ok() && chain.Data() == chains[lwd].Data() && |data| <= chain.SpaceLen()
      modifies this`chains, this`totalLen, this`nAdd
      ensures Sound() && lwd < |chains| == |old(chains)| && |chains[lwd].buf| == |chain.buf|
      ensures Content() == old(Content()) + data
      ensures chain.off > 0 ==> chains[lwd].off > 0
    {
      hide Flatten, Leads, Chain.Append;
      var c := chain.Append(data);
      GrowLwd(chains, lwd, c, data);
      chains := chains[lwd := c];
      totalLen := totalLen + |data|;
      nAdd := nAdd + |data|;
    }

    /** evbuffer_add when the current chain cannot take all the data. */
    method AddNewChain(data: seq<Byte>)
      requires Sound() && lwd < |chains| && chains[lwd].SpaceLen() < |data|
      modifies this`chains, this`lwd, this`totalLen, this`nAdd
      ensures Sound()
      ensures Content() == old(Content()) + data
      ensures lwd == |chains| - 1 && |chains[lwd].buf| >= Max(|data|, Grown(|old(chains)[old(lwd)].buf|))
      ensures old(chains)[old(lwd)].off > 0 ==> lwd == old(lwd) + 1
    {
      hide Flatten, Leads, Layout, Chain.Append;
      var remain := chains[lwd].SpaceLen();
      var toAlloc := |chains[lwd].buf|;
      if toAlloc <= CHAIN_MAX_AUTO_SIZE / 2 {
        toAlloc := toAlloc * 2;
      }
      if |data| > toAlloc {
        toAlloc := |data|;
      }
      var tmp := ChainNew(toAlloc);
      if remain > 0 {
        Fill(chains[lwd], data[..remain]);
      }
      tmp := tmp.Append(data[remain..]);
      assert tmp.Data() == data[remain..];
      ChainInsert(tmp);
      nAdd := nAdd + |data| - remain;
      CutJoin(old(Content()), data, remain);
    }

    /** evbuffer_prepend */
    method Prepend(data: seq<Byte>) returns (ok: bool)
      requires Valid()
      modifies this`chains, this`lwd, this`totalLen, this`nAdd, this`nDel, this`baseLen, this`shown
      ensures Valid()
      ensures ok <==> !freezeStart && |data| <= SIZE_MAX - old(totalLen)
      ensures Content() == if ok then data + old(Content()) else old(Content())
    {
      hide Flatten, Leads;
      if freezeStart {
        return false;
      }
      if |data| > SIZE_MAX - totalLen {
        return false;
      }
      if |chains| == 0 {
        var c := ChainNew(|data|);
        ChainInsert(c);
      }
      PrependIntoChains(data);
      InvokeCallbacks();
      ok := true;
    }

    /** Fill the misalignment of the first chain from the back of data; what does
        not fit goes into a new first chain. */
    method PrependIntoChains(data: seq<Byte>)
      requires Sound() && |chains| > 0
      modifies this`chains, this`lwd, this`totalLen, this`nAdd
      ensures Sound()
      ensures Content() == data + old(Content())
    {
      hide Flatten, Leads, Layout, Chain.PrependInto;
      var chain := chains[0];
      if chain.off == 0 {
        // Treat the empty chain as empty at the beginning.
        chain := Chain(chain.buf, |chain.buf|, 0);
      }
      var cut := |data| - Min(chain.misalign, |data|);
      CutJoinFront(data, cut, Content());
      FillFront(chain, data[cut..]);
      if cut > 0 {
        PushNewFront(data[..cut]);
      }
    }

    method FillFront(chain: Chain, data: seq<Byte>)
      requires Sound() && |chains| > 0
      requires chain.Ok() && chain.Data() == chains[0].Data() && |data| <= chain.misalign
      modifies this`chains, this`totalLen, this`nAdd
      ensures Sound() && |chains| > 0 && chains[0].off == old(chains)[0].off + |data|
      ensures Content() == data + old(Content())
    {
      hide Flatten, Leads, Chain.PrependInto;
      var c := chain.PrependInto(data);
      GrowFirst(chains, lwd, c, data);
      chains := chains[0 := c];
      totalLen := totalLen + |data|;
      nAdd := nAdd + |data|;
    }

    method PushNewFront(data: seq<Byte>)
      requires Sound() && |chains| > 0 && chains[0].off > 0 && data != []
      modifies this`chains, this`lwd, this`totalLen, this`nAdd
      ensures Sound()
      ensures Content() == data + old(Content())
    {
      hide Flatten, Leads, Chain.PrependInto;
      var tmp := ChainNew(|data|);
      tmp := Chain(tmp.buf, |tmp.buf|, 0).PrependInto(data);
      PushFront(chains, lwd, tmp);
      // &buf->first becomes &tmp->next; any other pointer stays where it is.
      lwd := lwd + 1;
      chains := [tmp] + chains;
      totalLen := totalLen + |data|;
      nAdd := nAdd + |data|;
    }

    /** evbuffer_drain */
    method Drain(len: nat) returns (ok: bool)
      requires Valid()
      modifies this`chains, this`lwd, this`totalLen, this`nAdd, this`nDel, this`baseLen, this`shown
      ensures Valid()
      ensures ok <==> old(totalLen) == 0 || !freezeStart
      ensures Content() == if ok then old(Content())[Min(len, old(totalLen))..] else old(Content())
    {
      hide Flatten, Leads;
      if totalLen == 0 {
        return true;
      }
      if freezeStart {
        return false;
      }
      var n := Min(len, totalLen);
      FlattenNil();
      if len >= totalLen {
        chains, lwd, totalLen := [], 0, 0;
      } else {
        DrainChains(len);
      }
      nDel := nDel + n;
      InvokeCallbacks();
      ok := true;
    }

    /** The chain walk of evbuffer_drain for fewer bytes than the buffer holds. */
    method DrainChains(len: nat)
      requires Shape() && len < totalLen
      modifies this`chains, this`lwd, this`totalLen
      ensures Shape()
      ensures Content() == old(Content())[len..]
      ensures totalLen == old(totalLen) - len
    {
      hide Flatten, Leads, Chain.DropFront;
      FlattenNil();
      var cs := chains;
      var remaining: nat := len;
      var k := 0;
      // True once last_with_datap has been reset to &buf->first.
      var reset := false;
      LwdHoldsAll(cs, lwd);
      while remaining >= cs[k].off
        invariant 0 <= k <= lwd < |cs|
        invariant len == remaining + |Flatten(cs[..k])|
        invariant reset <==> 0 < k == lwd
        modifies {}
        decreases lwd - k
      {
        FlattenStep(cs, k);
        remaining := remaining - cs[k].off;
        if k + 1 == lwd {
          reset := true;
        }
        k := k + 1;
      }
      FlattenCut(cs, k);
      DropChains(cs, lwd, k, remaining);
      chains := cs[k..][0 := cs[k].DropFront(remaining)];
      lwd := if reset then 0 else lwd - k;
      totalLen := totalLen - len;
    }

    /** evbuffer_copyout_from with a null position: how many bytes were copied, or
        -1, and the bytes. */
    method CopyOut(datlen: nat) returns (result: int, data: seq<Byte>)
      requires Valid()
      ensures result == if Min(datlen, totalLen) > 0 && freezeStart then -1 else Min(datlen, totalLen)
      ensures data == if result < 0 then [] else Content()[..result]
    {
      hide Flatten, Leads;
      FlattenNil();
      var want := Min(datlen, totalLen);
      data := [];
      if want == 0 {
        return 0, [];
      }
      if freezeStart {
        return -1, [];
      }
      var left: nat := want;
      var k := 0;
      while left > 0 && left >= chains[k].off
        invariant 0 <= k <= |chains|
        invariant left > 0 ==> k < |chains|
        invariant data == Flatten(chains[..k])
        invariant |data| + left == want
        decreases |chains| - k
      {
        FlattenStep(chains, k);
        data := data + chains[k].Data();
        left := left - chains[k].off;
        k := k + 1;
        assert k == |chains| ==> chains[..k] == chains;
      }
      FlattenCut(chains, k);
      if left > 0 {
        FlattenSplit(chains, k);
        data := data + chains[k].Data()[..left];
      }
      assert data == Content()[..want];
      result := want;
    }

    /** evbuffer_remove */
    method Remove(datlen: nat) returns (result: int, data: seq<Byte>)
      requires Valid()
      modifies this`chains, this`lwd, this`totalLen, this`nAdd, this`nDel, this`baseLen, this`shown
      ensures Valid()
      ensures result == if Min(datlen, old(totalLen)) > 0 && freezeStart then -1 else Min(datlen, old(totalLen))
      ensures result >= 0 ==> old(Content()) == data + Content() && |data| == result
      ensures result < 0 ==> Content() == old(Content())
    {
      hide Flatten, Leads;
      result, data := CopyOut(datlen);
      if result > 0 {
        var ok := Drain(result);
        if !ok {
          result := -1;
        }
      }
    }

    /** evbuffer_pullup: the first size bytes as one contiguous block at the start
        of the first chain. */
    method Pullup(size: int) returns (r: Option<seq<Byte>>)
      requires Valid()
      modifies this`chains, this`lwd
      ensures Valid()
      ensures Content() == old(Content())
      ensures var want := if size < 0 then totalLen else size;
        if want == 0 || want > totalLen then r == None && chains == old(chains)
        else r == Some(Content()[..want]) && |chains| > 0 && chains[0].off >= want
    {
      hide Flatten, Leads;
      var want: nat := if size < 0 then totalLen else size;
      if want == 0 || want > totalLen {
        return None;
      }
      LayoutEmpty(chains, lwd);
      if chains[0].off < want {
        PullupChains(want);
      }
      FlattenNil();
      FlattenSplit(chains, 0);
      assert Content()[..want] == chains[0].Data()[..want];
      r := Some(chains[0].Data()[..want]);
    }

    /** The copying part of evbuffer_pullup. */
    method PullupChains(size: nat)
      requires Valid() && |chains| > 0 && chains[0].off < size <= totalLen
      modifies this`chains, this`lwd
      ensures Valid()
      ensures Content() == old(Content())
      ensures |chains| > 0 && chains[0].off == size
    {
      hide Flatten, Leads;
      // tmp collects the data; k is the first chain still to be copied.
      var tmp, k;
      FlattenNil();
      if |chains[0].buf| - chains[0].misalign >= size {
        tmp, k := chains[0], 1;
        FlattenStep(chains, 0);
      } else {
        tmp := ChainNew(size);
        k := 0;
      }
      var rest, newLwd;
      tmp, rest, newLwd := Collect(chains, lwd, tmp, k, size);
      chains, lwd := [tmp] + rest, newLwd;
    }

    /** Copy whole chains into tmp as long as they fit, then the part of the next
        one that is still wanted; rest is what stays behind tmp. */
    static method Collect(cs: seq<Chain>, lwd: nat, first: Chain, start: nat, size: nat)
      returns (tmp: Chain, rest: seq<Chain>, newLwd: nat)
      requires Layout(cs, lwd) && |cs| > 0 && cs[0].off < size <= |Flatten(cs)| && start <= 1
      requires first.Ok() && first.Data() == Flatten(cs[..start]) && first.off <= size <= |first.buf| - first.misalign
      ensures tmp.Ok() && tmp.off == size
      ensures Layout([tmp] + rest, newLwd)
      ensures Flatten([tmp] + rest) == Flatten(cs)
    {
      hide Flatten, Leads, Chain.Append, Chain.DropFront;
      tmp := first;
      var k := start;
      var left: nat := size - tmp.off;
      var removedLwd, removedLwdp := false, false;
      LwdHoldsAll(cs, lwd);
      FlattenNil();
      while k < |cs| && left >= cs[k].off
        invariant start <= k <= |cs|
        invariant tmp.Ok() && tmp.off + left == size && left <= tmp.SpaceLen()
        invariant tmp.Data() == Flatten(cs[..k])
        invariant removedLwd <==> start <= lwd < k
        invariant removedLwdp <==> start < lwd <= k
      {
        FlattenStep(cs, k);
        tmp := tmp.Append(cs[k].Data());
        left := left - cs[k].off;
        if k == lwd {
          removedLwd := true;
        }
        if k + 1 == lwd {
          removedLwdp := true;
        }
        k := k + 1;
      }
      if k < |cs| {
        PullupPart(cs, lwd, tmp, k, left);
        tmp := tmp.Append(cs[k].Data()[..left]);
        rest := cs[k..][0 := cs[k].DropFront(left)];
      } else {
        PullupAll(cs, tmp, left);
        rest := [];
        assert [tmp] + rest == [tmp];
      }
      if removedLwd {
        newLwd := 0;
      } else if removedLwdp {
        // The chain behind the new first one still holds data.
        assert |rest| > 0 && rest[0].off > 0;
        newLwd := 1;
      } else {
        newLwd := lwd - k + 1;
      }
    }

    /** evbuffer_expand_singlechain: room for datlen bytes in one chain, which is
        the last chain with data or the one behind it. */
    method ExpandSingle(datlen: nat) returns (r: nat)
      requires Valid()
      modifies this`chains, this`lwd, this`totalLen
      ensures Valid() && Content() == old(Content())
      ensures r < |chains| && lwd <= r <= lwd + 1
      ensures chains[r].SpaceLen() >= datlen
      ensures if PicksNext(old(chains), old(lwd), datlen)
        then r == lwd + 1 && chains == old(chains)
        else r == FirstSpace(chains, lwd) || r == |chains| - 1
      ensures old(chains) == [] ==> OneEmpty(chains, lwd)
    {
      hide Flatten, Leads, Chain.Align, Chain.Append;
      var p := lwd;
      if p < |chains| && chains[p].SpaceLen() == 0 {
        p := p + 1;
      }
      if p >= |chains| {
        r := InsertNew(datlen);
      } else if chains[p].SpaceLen() >= datlen {
        r := p;
      } else if chains[p].off == 0 {
        r := InsertNew(datlen);
      } else if chains[p].ShouldRealign(datlen) {
        SameData(chains, lwd, p, chains[p].Align());
        chains := chains[p := chains[p].Align()];
        r := p;
      } else if chains[p].SpaceLen() < |chains[p].buf| / 8 || chains[p].off > MAX_TO_COPY_IN_EXPAND
                || datlen + chains[p].off >= CHAIN_MAX {
        if p + 1 < |chains| && chains[p + 1].SpaceLen() >= datlen {
          r := p + 1;
        } else {
          r := InsertNew(datlen);
        }
      } else {
        var tmp := ChainNew(chains[p].off + datlen);
        tmp := tmp.Append(chains[p].Data());
        SameData(chains, lwd, p, tmp);
        chains := chains[p := tmp];
        r := p;
      }
    }

    /** evbuffer_chain_insert_new */
    method InsertNew(datlen: nat) returns (r: nat)
      requires Valid()
      modifies this`chains, this`lwd, this`totalLen
      ensures Valid() && Content() == old(Content())
      ensures r == |chains| - 1 && lwd <= r <= lwd + 1
      ensures chains[r].SpaceLen() >= datlen
      ensures old(chains) == [] ==> OneEmpty(chains, lwd)
    {
      hide Flatten, Leads;
      var c := ChainNew(datlen);
      ChainInsert(c);
      r := |chains| - 1;
    }

    /** evbuffer_expand_fast_: room for datlen bytes in at most n consecutive
        chains; m witnesses how many. */
    method ExpandFast(datlen: nat, n: nat) returns (ghost m: nat)
      requires Valid() && n >= 2
      modifies this`chains, this`lwd, this`totalLen
      ensures Valid() && Content() == old(Content())
      ensures |old(chains)| > 0 ==> lwd == old(lwd)
      ensures Roomy(chains, lwd, datlen, n, m)
      ensures chains[lwd].off > 0 || chains[lwd].SpaceLen() > 0
      ensures old(chains) == [] ==> OneEmpty(chains, lwd)
      ensures Short(old(chains), old(lwd), datlen, n) ==>
        OneMore(old(chains), chains, datlen - SpaceIn(old(chains), FirstSpace(old(chains), old(lwd)), |old(chains)|))
    {
      ShortSome(chains, lwd, datlen, n);
      hide Flatten, Leads, Layout, Short, OneMore, Fresh;
      if |chains| == 0 {
        var c := ChainNew(datlen);
        ChainInsert(c);
        m := 1;
        return;
      }
      var avail, used, k;
      chains, avail, used, k := ScanSpace(chains, lwd, datlen, n);
      LayoutOk(chains, lwd);
      ShortScan(old(chains), chains, lwd, datlen, n, avail, used, k);
      if avail >= datlen {
        m := used;
      } else if used < n {
        AppendRoom(datlen - avail);
        m := used + 1;
      } else {
        m := ReplaceEmpty(datlen, n);
      }
    }

    /** Link one more empty chain behind the list. */
    method AppendRoom(size: nat)
      requires Valid() && |chains| > 0
      modifies this`chains
      ensures Valid() && Content() == old(Content())
      ensures |chains| == |old(chains)| + 1 && forall i :: 0 <= i < |old(chains)| ==> chains[i] == old(chains)[i]
      ensures chains[|old(chains)|].SpaceLen() > 0
      ensures lwd < |old(chains)| && FirstSpace(chains, lwd) == old(FirstSpace(chains, lwd))
      ensures var f := FirstSpace(chains, lwd);
        SpaceIn(chains, f, |chains|) >= SpaceIn(old(chains), f, |old(chains)|) + size
      ensures OneMore(old(chains), chains, size)
    {
      hide Flatten, Leads;
      var tmp := ChainNew(size);
      AppendEmpty(chains, lwd, tmp);
      ghost var f := FirstSpace(chains, lwd);
      ghost var was := chains;
      chains := chains + [tmp];
      SpaceInSame(was, chains, f, |was|);
    }

    /** The last case of evbuffer_expand_fast_: one new chain replaces all the empty
        ones. */
    method ReplaceEmpty(datlen: nat, n: nat) returns (ghost m: nat)
      requires Valid() && |chains| > 0 && n >= 2 && chains[lwd].SpaceLen() < datlen
      modifies this`chains
      ensures Valid() && Content() == old(Content())
      ensures Roomy(chains, lwd, datlen, n, m)
      ensures chains[lwd].off > 0 || chains[lwd].SpaceLen() > 0
    {
      hide Flatten, Leads;
      var keep := if chains[lwd].off == 0 then lwd else lwd + 1;
      var avail := if chains[lwd].off == 0 then 0 else chains[lwd].SpaceLen();
      assert AllEmpty(chains[keep..]);
      FlattenDropTail(chains, keep);
      var tmp := ChainNew(datlen - avail);
      FlattenConcat(chains[..keep], [tmp]);
      chains := chains[..keep] + [tmp];
      ghost var f := FirstSpace(chains, lwd);
      m := |chains| - f;
      assert SpaceIn(chains, f, keep) == if f == keep then 0 else chains[f].SpaceLen();
    }

    /** evbuffer_reserve_space */
    method ReserveSpace(size: nat, nVecs: int) returns (n: int, vecs: seq<IoVec>)
      requires Valid()
      modifies this`chains, this`lwd, this`totalLen
      ensures Valid() && Content() == old(Content())
      ensures n == -1 <==> freezeEnd || nVecs < 1
      ensures n != -1 ==> n == |vecs| <= nVecs && SumLen(vecs) >= size
      ensures forall i :: 0 <= i < |vecs| ==> NamesSpace(chains, vecs[i])
      ensures nVecs > 1 && n != -1 ==> InOrder(chains, lwd, vecs)
      ensures nVecs > 1 ==> forall i :: 0 <= i < |vecs| ==> vecs[i].len > 0
      ensures nVecs > 1 && n != -1 ==> chains[lwd].off > 0 || chains[lwd].SpaceLen() > 0
      ensures nVecs == 1 && n != -1 ==> |vecs| == 1 && lwd <= vecs[0].chain <= lwd + 1
      ensures nVecs == 1 && n != -1 ==>
        (Accepts(chains, lwd, vecs) <==> !(PicksNext(old(chains), old(lwd), size) && old(lwd) + 2 < |old(chains)|))
      ensures old(chains) == [] && n != -1 ==> OneEmpty(chains, lwd)
      ensures nVecs > 1 && n != -1 && Short(old(chains), old(lwd), size, nVecs) ==>
        OneMore(old(chains), chains, size - SpaceIn(old(chains), FirstSpace(old(chains), old(lwd)), |old(chains)|))
    {
      hide Flatten, Leads;
      vecs := [];
      if freezeEnd || nVecs < 1 {
        return -1, [];
      }
      if nVecs == 1 {
        var r := ExpandSingle(size);
        vecs := [IoVec(r, chains[r].misalign + chains[r].off, chains[r].SpaceLen())];
        assert SumLen(vecs[..0]) == 0;
        SingleCommit(chains, lwd, vecs[0]);
        n := 1;
      } else {
        ghost var m := ExpandFast(size, nVecs);
        n, vecs := ReadSetupVecs(chains, lwd, size, nVecs, false, m);
      }
    }

    /** The caller writes into space it was given; nothing is committed yet. */
    method WriteSpace(v: IoVec, data: seq<Byte>)
      requires Valid() && NamesSpace(chains, v) && |data| <= v.len
      modifies this`chains
      ensures Valid() && Content() == old(Content())
      ensures chains == old(chains)[v.chain := old(chains)[v.chain].Scribble(data)]
    {
      hide Flatten, Leads, Chain.Scribble;
      SameData(chains, lwd, v.chain, chains[v.chain].Scribble(data));
      chains := chains[v.chain := chains[v.chain].Scribble(data)];
    }

    /** advance_last_with_data */
    method AdvanceLastWithData()
      requires AllOk(chains)
      modifies this`lwd
      ensures lwd == old(lwd) || old(lwd) < lwd < |chains|
      ensures forall i :: old(lwd) < i <= lwd ==> i < |chains| && chains[i].off > 0
      ensures lwd + 1 < |chains| ==> chains[lwd + 1].off == 0
    {
      if lwd >= |chains| {
        return;
      }
      var p := lwd;
      while p + 1 < |chains| && chains[p + 1].off > 0
        invariant lwd <= p < |chains|
        invariant forall i :: lwd < i <= p ==> chains[i].off > 0
      {
        p := p + 1;
      }
      lwd := p;
    }

    /** evbuffer_commit_space.  What was written is added whatever the vectors, but
        last_with_datap stays right exactly when the chains are filled without a gap. */
    method CommitSpace(vecs: seq<IoVec>) returns (ok: bool)
      requires Valid()
      modifies this`chains, this`lwd, this`totalLen, this`nAdd, this`nDel, this`baseLen, this`shown
      ensures AllOk(chains) && totalLen == |Content()| && Counted()
      ensures ok <==> !freezeEnd && (vecs == [] || Accepts(old(chains), old(lwd), vecs))
      ensures ok ==> (forall i :: 0 <= i < |vecs| ==> NamesSpace(old(chains), vecs[i])) && Claims(old(chains), chains, vecs)
      ensures ok ==> Content() == old(Content()) + Written(old(chains), vecs)
      ensures !ok ==> chains == old(chains)
      ensures Valid() <==> !ok || Tidy(old(chains), old(lwd), vecs)
    {
      hide Flatten, Leads, Layout, InOrder, Written, Chain.Claim, Claims, Counted, GapFree, Tidy;
      LayoutOk(chains, lwd);
      if freezeEnd {
        return false;
      }
      if |vecs| == 0 {
        WrittenNone(chains, vecs);
        ClaimsNone(chains, lwd);
        return true;
      }
      if |vecs| == 1 && |chains| > 0 && vecs[0].chain == |chains| - 1
         && vecs[0].base == chains[|chains| - 1].misalign + chains[|chains| - 1].off {
        SingleInOrder(chains, lwd, vecs);
        if vecs[0].len > chains[|chains| - 1].SpaceLen() {
          return false;
        }
        CommitLast(vecs[0]);
        assert vecs == [vecs[0]];
      } else {
        if |chains| == 0 {
          return false;
        }
        var accepted := VecsInOrder(chains, lwd, vecs);
        if !accepted {
          return false;
        }
        CommitInOrder(vecs);
      }
      InvokeCallbacks();
      ok := true;
    }

    /** The case of a single vector on the last chain. */
    method CommitLast(v: IoVec)
      requires Valid() && v.chain == |chains| - 1 && NamesSpace(chains, v)
      modifies this`chains, this`lwd, this`totalLen, this`nAdd
      ensures AllOk(chains) && totalLen == |Content()| && Counted()
      ensures Claims(old(chains), chains, [v])
      ensures Content() == old(Content()) + Written(old(chains), [v])
      ensures Layout(chains, lwd) <==> Tidy(old(chains), old(lwd), [v])
    {
      hide Flatten, Leads, Chain.Claim;
      LastClaimed(chains, lwd, v);
      var c := chains[v.chain].Claim(v.len);
      chains := chains[v.chain := c];
      if v.len > 0 {
        AdvanceLastWithData();
      }
      totalLen := totalLen + v.len;
      nAdd := nAdd + v.len;
      LastTidy(old(chains), old(lwd), v, lwd);
    }

    /** pass 2 of evbuffer_commit_space */
    method CommitInOrder(vecs: seq<IoVec>)
      requires Valid() && InOrder(chains, lwd, vecs) && vecs != []
      modifies this`chains, this`lwd, this`totalLen, this`nAdd
      ensures AllOk(chains) && totalLen == |Content()| && Counted()
      ensures (forall i :: 0 <= i < |vecs| ==> NamesSpace(old(chains), vecs[i])) && Claims(old(chains), chains, vecs)
      ensures Content() == old(Content()) + Written(old(chains), vecs)
      ensures Layout(chains, lwd) <==> Tidy(old(chains), old(lwd), vecs)
    {
      hide Flatten, Leads, Layout, Written, Claims, GapFree;
      var added;
      chains, lwd, added := ClaimAll(chains, lwd, vecs);
      totalLen := totalLen + added;
      nAdd := nAdd + added;
    }
  }

  lemma ClaimsNone(cs: seq<Chain>, lwd: nat)
    requires AllOk(cs)
    ensures Claims(cs, cs, []) && Tidy(cs, lwd, []) && Written(cs, []) == []
  {
  }

  lemma LastClaimed(cs: seq<Chain>, lwd: nat, v: IoVec)
    requires Layout(cs, lwd) && v.chain == |cs| - 1 && NamesSpace(cs, v)
    ensures NamesSpace(cs, [v][0]) && Claims(cs, cs[v.chain := cs[v.chain].Claim(v.len)], [v])
    ensures |Written(cs, [v])| == v.len
    ensures Flatten(cs[v.chain := cs[v.chain].Claim(v.len)]) == Flatten(cs) + Written(cs, [v])
  {
    hide Flatten, Chain.Claim, Layout, Written;
    LayoutOk(cs, lwd);
    WrittenOne(cs, v);
    FlattenGrow(cs, v.chain, cs[v.chain].Claim(v.len), Written(cs, [v]));
  }

  lemma WrittenOne(cs: seq<Chain>, v: IoVec)
    requires NamesSpace(cs, v)
    ensures NamesSpace(cs, [v][0]) && Written(cs, [v]) == cs[v.chain].buf[v.base..v.base + v.len]
  {
    WrittenNone(cs, [v]);
    WrittenStep(cs, [v], 0);
    assert [v][..1] == [v];
  }

  /** Where advance_last_with_data leaves the index, and whether that is right. */
  lemma LastTidy(cs: seq<Chain>, lwd: nat, v: IoVec, l: nat)
    requires Layout(cs, lwd) && v.chain == |cs| - 1 && NamesSpace(cs, v)
    requires var ds := cs[v.chain := cs[v.chain].Claim(v.len)];
      && (v.len == 0 ==> l == lwd)
      && (v.len > 0 ==>
            && (l == lwd || lwd < l < |ds|)
            && (forall i :: lwd < i <= l ==> i < |ds| && ds[i].off > 0)
            && (l + 1 < |ds| ==> ds[l + 1].off == 0))
    ensures Layout(cs[v.chain := cs[v.chain].Claim(v.len)], l) <==> Tidy(cs, lwd, [v])
  {
    hide Chain.Claim;
    var ds := cs[v.chain := cs[v.chain].Claim(v.len)];
    assert [v][0] == v;
    assert GapFree(cs, lwd, [v]) <==> v.len == 0 || v.chain <= lwd || cs[lwd].off > 0;
    if v.len == 0 {
      assert forall i :: 0 <= i < |cs| ==> ds[i].off == cs[i].off;
    } else if v.chain == lwd {
      assert l == lwd;
    } else if v.chain == lwd + 1 {
      assert l == lwd + 1;
      assert ds[lwd] == cs[lwd];
    } else {
      assert ds[v.chain].off > 0;
      assert ds[lwd + 1].off == 0;
      assert l == lwd;
    }
  }

  /** The bytes that the first i vectors, the first of them on chain first, give to chain
      p. */
  function Given(vecs: seq<IoVec>, i: nat, first: nat, p: nat): nat
    requires i <= |vecs|
  {
    if first <= p < first + i then vecs[p - first].len else 0
  }

  ghost predicate ClaimedBy(c: Chain, d: Chain, n: nat) {
    c.Ok() && n <= c.SpaceLen() && d == c.Claim(n)
  }

  /** The state of pass 2 after i vectors. */
  ghost predicate Claiming(cs: seq<Chain>, lwd: nat, vecs: seq<IoVec>, i: nat, ds: seq<Chain>, l: nat)
    requires AllOk(cs) && lwd < |cs|
  {
    var first := FirstSpace(cs, lwd);
    && i <= |vecs| && |ds| == |cs|
    && (forall p :: 0 <= p < |cs| ==> ClaimedBy(cs[p], ds[p], Given(vecs, i, first, p)))
    && (l == lwd || (first <= l < |cs| && Given(vecs, i, first, l) > 0))
    && (forall p :: 0 <= p < |cs| && Given(vecs, i, first, p) > 0 ==> p <= l)
  }

  lemma VecAt(cs: seq<Chain>, lwd: nat, vecs: seq<IoVec>, i: nat)
    requires InOrder(cs, lwd, vecs) && i < |vecs|
    ensures NamesSpace(cs, vecs[i]) && vecs[i].chain == FirstSpace(cs, lwd) + i
  {
  }

  lemma ClaimingStart(cs: seq<Chain>, lwd: nat, vecs: seq<IoVec>)
    requires Layout(cs, lwd) && InOrder(cs, lwd, vecs)
    ensures Claiming(cs, lwd, vecs, 0, cs, lwd) && (forall i :: 0 <= i < |vecs| ==> NamesSpace(cs, vecs[i]))
    ensures Written(cs, vecs[..0]) == []
  {
    WrittenNone(cs, vecs);
    forall p | 0 <= p < |cs|
      ensures ClaimedBy(cs[p], cs[p], 0)
    {
    }
  }

  lemma ClaimingStep(cs: seq<Chain>, lwd: nat, vecs: seq<IoVec>, i: nat, ds: seq<Chain>, l: nat)
    requires Layout(cs, lwd) && InOrder(cs, lwd, vecs) && i < |vecs| && Claiming(cs, lwd, vecs, i, ds, l)
    ensures var p := vecs[i].chain;
      && p < |ds| == |cs| && ds[p] == cs[p] && NamesSpace(cs, vecs[i]) && vecs[i].len <= cs[p].SpaceLen()
      && Claiming(cs, lwd, vecs, i + 1, ds[p := cs[p].Claim(vecs[i].len)], if vecs[i].len > 0 then p else l)
      && AllEmpty(ds[p + 1..])
  {
    hide InOrder, Layout;
    VecAt(cs, lwd, vecs, i);
    var first, p := FirstSpace(cs, lwd), vecs[i].chain;
    assert ClaimedBy(cs[p], ds[p], Given(vecs, i, first, p));
    forall q | p < q < |ds|
      ensures ds[q].off == 0
    {
      assert ClaimedBy(cs[q], ds[q], Given(vecs, i, first, q));
      EmptyBehind(cs, lwd, q);
    }
    forall q | 0 <= q < |cs| && q != p
      ensures Given(vecs, i + 1, first, q) == Given(vecs, i, first, q)
    {
    }
  }

  lemma EmptyBehind(cs: seq<Chain>, lwd: nat, q: nat)
    requires Layout(cs, lwd) && lwd < q < |cs|
    ensures cs[q].off == 0
  {
  }

  lemma ClaimingBytes(cs: seq<Chain>, ds: seq<Chain>, vecs: seq<IoVec>, i: nat)
    requires AllOk(cs) && AllOk(ds) && i < |vecs| && forall j :: 0 <= j < |vecs| ==> NamesSpace(cs, vecs[j])
    requires NamesSpace(cs, vecs[i])
    requires vecs[i].chain < |ds| == |cs| && ds[vecs[i].chain] == cs[vecs[i].chain] && AllEmpty(ds[vecs[i].chain + 1..])
    requires Flatten(ds) == Flatten(cs) + Written(cs, vecs[..i])
    ensures Flatten(ds[vecs[i].chain := cs[vecs[i].chain].Claim(vecs[i].len)]) == Flatten(cs) + Written(cs, vecs[..i + 1])
    ensures |Written(cs, vecs[..i + 1])| == |Written(cs, vecs[..i])| + vecs[i].len
  {
    hide Flatten, Written, Chain.Claim;
    var v := vecs[i];
    WrittenStep(cs, vecs, i);
    var piece := cs[v.chain].buf[v.base..v.base + v.len];
    FlattenGrow(ds, v.chain, ds[v.chain].Claim(v.len), piece);
    Assoc(Flatten(cs), Written(cs, vecs[..i]), piece);
  }

  /** No chain from the last one with data on stays empty before one that is given
      bytes. */
  ghost predicate NoGap(cs: seq<Chain>, lwd: nat, vecs: seq<IoVec>)
    requires AllOk(cs) && lwd < |cs|
  {
    var first := FirstSpace(cs, lwd);
    forall p, q :: lwd <= p < q < |cs| && Given(vecs, |vecs|, first, q) > 0 ==>
      cs[p].off + Given(vecs, |vecs|, first, p) > 0
  }

  lemma GivenAt(cs: seq<Chain>, lwd: nat, vecs: seq<IoVec>, i: nat)
    requires InOrder(cs, lwd, vecs) && i < |vecs|
    ensures NamesSpace(cs, vecs[i]) && vecs[i].chain == FirstSpace(cs, lwd) + i
    ensures Given(vecs, |vecs|, FirstSpace(cs, lwd), vecs[i].chain) == vecs[i].len
    ensures vecs[i].chain <= lwd + 1 + i
  {
  }

  lemma NoGapGapFree(cs: seq<Chain>, lwd: nat, vecs: seq<IoVec>)
    requires InOrder(cs, lwd, vecs) && NoGap(cs, lwd, vecs)
    ensures GapFree(cs, lwd, vecs)
  {
    var first, n := FirstSpace(cs, lwd), |vecs|;
    assert lwd < |cs| && lwd <= first && AllOk(cs);
    assert lwd < first ==> Given(vecs, n, first, lwd) == 0;
    hide InOrder, Given, FirstSpace;
    forall j | 0 <= j < n && vecs[j].len > 0
      ensures lwd < vecs[0].chain ==> cs[lwd].off > 0
      ensures forall i :: 0 <= i < j ==> vecs[i].len > 0 || (vecs[i].chain < |cs| && cs[vecs[i].chain].off > 0)
    {
      GivenAt(cs, lwd, vecs, 0);
      GivenAt(cs, lwd, vecs, j);
      if lwd < vecs[0].chain {
        assert cs[lwd].off + Given(vecs, n, first, lwd) > 0;
      }
      forall i | 0 <= i < j
        ensures vecs[i].len > 0 || (vecs[i].chain < |cs| && cs[vecs[i].chain].off > 0)
      {
        GivenAt(cs, lwd, vecs, i);
        assert cs[first + i].off + Given(vecs, n, first, first + i) > 0;
      }
    }
  }

  lemma GapFreeNoGap(cs: seq<Chain>, lwd: nat, vecs: seq<IoVec>)
    requires InOrder(cs, lwd, vecs) && GapFree(cs, lwd, vecs)
    ensures NoGap(cs, lwd, vecs)
  {
    var first, n := FirstSpace(cs, lwd), |vecs|;
    assert lwd < |cs| && lwd <= first <= lwd + 1 && AllOk(cs);
    hide InOrder, FirstSpace;
    forall p, q | lwd <= p < q < |cs| && Given(vecs, n, first, q) > 0
      ensures cs[p].off + Given(vecs, n, first, p) > 0
    {
      GivenAt(cs, lwd, vecs, q - first);
      GivenAt(cs, lwd, vecs, 0);
      if p >= first {
        GivenAt(cs, lwd, vecs, p - first);
      }
    }
  }

  /** The last chain that was filled ends the data exactly when no chain before it was
      left empty. */
  lemma ClaimingEnd(cs: seq<Chain>, lwd: nat, vecs: seq<IoVec>, ds: seq<Chain>, l: nat)
    requires Layout(cs, lwd) && lwd < |cs| && Claiming(cs, lwd, vecs, |vecs|, ds, l)
    ensures Layout(ds, l) <==> NoGap(cs, lwd, vecs)
  {
    hide Chain.Claim;
    var first := FirstSpace(cs, lwd);
    forall p | 0 <= p < |cs|
      ensures ds[p].Ok() && ds[p].off == cs[p].off + Given(vecs, |vecs|, first, p)
    {
      assert ClaimedBy(cs[p], ds[p], Given(vecs, |vecs|, first, p));
    }
    hide Given, FirstSpace;
    if NoGap(cs, lwd, vecs) {
      forall p | 0 <= p < l
        ensures ds[p].off > 0
      {
      }
    }
  }

  lemma ClaimingAt(cs: seq<Chain>, lwd: nat, vecs: seq<IoVec>, ds: seq<Chain>, l: nat, p: nat)
    requires AllOk(cs) && lwd < |cs| && p < |cs| && Claiming(cs, lwd, vecs, |vecs|, ds, l)
    ensures |ds| == |cs| && ClaimedBy(cs[p], ds[p], Given(vecs, |vecs|, FirstSpace(cs, lwd), p))
    ensures Given(vecs, |vecs|, FirstSpace(cs, lwd), p) == 0 ==> ds[p] == cs[p]
  {
  }

  lemma ClaimingNamed(cs: seq<Chain>, lwd: nat, vecs: seq<IoVec>, ds: seq<Chain>, l: nat, i: nat)
    requires InOrder(cs, lwd, vecs) && Claiming(cs, lwd, vecs, |vecs|, ds, l) && i < |vecs|
    ensures ClaimedVec(cs, ds, vecs[i]) && |ds| == |cs| && vecs[i].chain <= lwd + 1 + i
  {
    GivenAt(cs, lwd, vecs, i);
    assert AllOk(cs) && lwd < |cs|;
    hide InOrder, Claiming, Given, Chain.Claim, FirstSpace;
    ClaimingAt(cs, lwd, vecs, ds, l, vecs[i].chain);
  }

  lemma ClaimingRest(cs: seq<Chain>, lwd: nat, vecs: seq<IoVec>, ds: seq<Chain>, l: nat, p: nat)
    requires InOrder(cs, lwd, vecs) && Claiming(cs, lwd, vecs, |vecs|, ds, l) && p < |cs|
    requires vecs != [] && !(vecs[0].chain <= p < vecs[0].chain + |vecs|)
    ensures |ds| == |cs| && ds[p] == cs[p]
  {
    GivenAt(cs, lwd, vecs, 0);
    ClaimingAt(cs, lwd, vecs, ds, l, p);
  }

  lemma ClaimingClaims(cs: seq<Chain>, lwd: nat, vecs: seq<IoVec>, ds: seq<Chain>, l: nat)
    requires InOrder(cs, lwd, vecs) && vecs != [] && Claiming(cs, lwd, vecs, |vecs|, ds, l)
    ensures Claims(cs, ds, vecs) && vecs[0].chain <= lwd + 1
  {
    hide InOrder, Claiming, ClaimedVec;
    ClaimingNamed(cs, lwd, vecs, ds, l, 0);
    forall i | 0 <= i < |vecs|
      ensures ClaimedVec(cs, ds, vecs[i])
    {
      ClaimingNamed(cs, lwd, vecs, ds, l, i);
    }
    forall p | 0 <= p < |cs| && !(vecs[0].chain <= p < vecs[0].chain + |vecs|)
      ensures ds[p] == cs[p]
    {
      ClaimingRest(cs, lwd, vecs, ds, l, p);
    }
  }

  lemma ClaimingTidy(cs: seq<Chain>, lwd: nat, vecs: seq<IoVec>, ds: seq<Chain>, l: nat)
    requires Layout(cs, lwd) && InOrder(cs, lwd, vecs) && vecs != [] && Claiming(cs, lwd, vecs, |vecs|, ds, l)
    ensures Claims(cs, ds, vecs)
    ensures Layout(ds, l) <==> Tidy(cs, lwd, vecs)
  {
    assert lwd < |cs|;
    hide Layout, InOrder, Claiming, Claims, NoGap, GapFree;
    ClaimingEnd(cs, lwd, vecs, ds, l);
    ClaimingClaims(cs, lwd, vecs, ds, l);
    if NoGap(cs, lwd, vecs) {
      NoGapGapFree(cs, lwd, vecs);
    }
    if GapFree(cs, lwd, vecs) {
      GapFreeNoGap(cs, lwd, vecs);
    }
  }

  /** Claiming, with the bytes. */
  ghost predicate Claimed(cs: seq<Chain>, lwd: nat, vecs: seq<IoVec>, i: nat, ds: seq<Chain>, l: nat, added: nat) {
    && AllOk(cs) && AllOk(ds) && lwd < |cs| && i <= |vecs| && (forall j :: 0 <= j < |vecs| ==> NamesSpace(cs, vecs[j]))
    && Claiming(cs, lwd, vecs, i, ds, l)
    && Flatten(ds) == Flatten(cs) + Written(cs, vecs[..i]) && added == |Written(cs, vecs[..i])|
  }

  lemma ClaimedStart(cs: seq<Chain>, lwd: nat, vecs: seq<IoVec>)
    requires Layout(cs, lwd) && InOrder(cs, lwd, vecs)
    ensures Claimed(cs, lwd, vecs, 0, cs, lwd, 0)
  {
    hide Flatten, Layout, Written, Claiming;
    LayoutOk(cs, lwd);
    ClaimingStart(cs, lwd, vecs);
  }

  lemma ClaimedStep(cs: seq<Chain>, lwd: nat, vecs: seq<IoVec>, i: nat, ds: seq<Chain>, l: nat, added: nat)
    requires Layout(cs, lwd) && InOrder(cs, lwd, vecs) && i < |vecs| && Claimed(cs, lwd, vecs, i, ds, l, added)
    ensures var p := vecs[i].chain;
      && p < |ds| == |cs| && ds[p] == cs[p] && cs[p].Ok() && vecs[i].len <= cs[p].SpaceLen()
      && Claimed(cs, lwd, vecs, i + 1, ds[p := cs[p].Claim(vecs[i].len)], if vecs[i].len > 0 then p else l, added + vecs[i].len)
  {
    hide Flatten, Layout, Written, Claiming, Chain.Claim, InOrder, AllEmpty;
    var p := vecs[i].chain;
    ClaimingStep(cs, lwd, vecs, i, ds, l);
    ClaimingBytes(cs, ds, vecs, i);
    ClaimingOk(cs, lwd, vecs, i + 1, ds[p := cs[p].Claim(vecs[i].len)], if vecs[i].len > 0 then p else l);
  }

  lemma ClaimedEnd(cs: seq<Chain>, lwd: nat, vecs: seq<IoVec>, ds: seq<Chain>, l: nat, added: nat)
    requires Layout(cs, lwd) && InOrder(cs, lwd, vecs) && vecs != [] && Claimed(cs, lwd, vecs, |vecs|, ds, l, added)
    ensures AllOk(ds) && (forall i :: 0 <= i < |vecs| ==> NamesSpace(cs, vecs[i])) && Claims(cs, ds, vecs)
    ensures Flatten(ds) == Flatten(cs) + Written(cs, vecs) && added == |Written(cs, vecs)|
    ensures Layout(ds, l) <==> Tidy(cs, lwd, vecs)
  {
    hide Flatten, Layout, Written, Claiming, Claims, Tidy, InOrder;
    assert vecs[..|vecs|] == vecs;
    ClaimingTidy(cs, lwd, vecs, ds, l);
  }

  method ClaimAll(cs: seq<Chain>, lwd: nat, vecs: seq<IoVec>) returns (ds: seq<Chain>, l: nat, added: nat)
    requires Layout(cs, lwd) && InOrder(cs, lwd, vecs) && vecs != []
    ensures AllOk(ds) && (forall i :: 0 <= i < |vecs| ==> NamesSpace(cs, vecs[i])) && Claims(cs, ds, vecs)
    ensures Flatten(ds) == Flatten(cs) + Written(cs, vecs) && added == |Written(cs, vecs)|
    ensures Layout(ds, l) <==> Tidy(cs, lwd, vecs)
  {
    hide Flatten, Leads, Layout, Written, Claimed, Chain.Claim, Claims, InOrder, Tidy, NamesSpace;
    ClaimedStart(cs, lwd, vecs);
    ds, l, added := cs, lwd, 0;
    var i := 0;
    while i < |vecs|
      invariant 0 <= i <= |vecs|
      invariant Claimed(cs, lwd, vecs, i, ds, l, added)
    {
      var v := vecs[i];
      ClaimedStep(cs, lwd, vecs, i, ds, l, added);
      ds := ds[v.chain := ds[v.chain].Claim(v.len)];
      added := added + v.len;
      if v.len > 0 {
        l := v.chain;
      }
      i := i + 1;
    }
    ClaimedEnd(cs, lwd, vecs, ds, l, added);
  }

  lemma ClaimingOk(cs: seq<Chain>, lwd: nat, vecs: seq<IoVec>, i: nat, ds: seq<Chain>, l: nat)
    requires AllOk(cs) && lwd < |cs| && Claiming(cs, lwd, vecs, i, ds, l)
    ensures AllOk(ds)
  {
    forall p | 0 <= p < |ds|
      ensures ds[p].Ok()
    {
      assert ClaimedBy(cs[p], ds[p], Given(vecs, i, FirstSpace(cs, lwd), p));
    }
  }

  // ------------------------------------------------------------ two calls that go wrong

  lemma SumTwo(vecs: seq<IoVec>)
    ensures vecs == [] ==> SumLen(vecs) == 0
    ensures |vecs| == 1 ==> SumLen(vecs) == vecs[0].len
  {
    if |vecs| == 1 {
      assert vecs[..0] == [];
    }
  }

  lemma SpaceOf(cs: seq<Chain>)
    requires AllOk(cs) && 1 <= |cs| <= 2
    ensures |cs| == 1 ==> SpaceIn(cs, 0, 1) == cs[0].SpaceLen()
    ensures |cs| == 2 ==> SpaceIn(cs, 0, 2) == cs[0].SpaceLen() + cs[1].SpaceLen()
  {
    assert SpaceIn(cs, 0, 1) == SpaceIn(cs, 0, 0) + cs[0].SpaceLen();
  }

  /** An empty buffer with two empty chains, and the two vectors that cover them. */
  method TwoEmptyChains() returns (b: EvBuffer, vecs: seq<IoVec>)
    ensures fresh(b) && b.Valid() && b.Content() == [] && !b.freezeEnd
    ensures |b.chains| == 2 && b.lwd == 0 && b.chains[0].off == b.chains[1].off == 0 && |vecs| == 2 && InOrder(b.chains, 0, vecs)
    ensures vecs[0].chain == 0 && vecs[1].chain == 1 && vecs[1].len > 0
  {
    hide Flatten, Leads, SumLen;
    b := new EvBuffer();
    FlattenNil();
    var n, first := b.ReserveSpace(1, 2);
    SumTwo(first);
    SpaceOf(b.chains);
    n, vecs := b.ReserveSpace(b.chains[0].SpaceLen() + 1, 2);
    SumTwo(vecs);
  }

  /** Committing only the second vector is accepted, and leaves last_with_datap on a chain
      behind an empty one. */
  method CommitWithGap() returns (b: EvBuffer, ok: bool)
    ensures ok && !b.Valid() && |b.chains| == 2 && b.chains[0].off == 0 && b.chains[1].off == 1
  {
    hide Flatten, Leads, Layout;
    var vecs;
    b, vecs := TwoEmptyChains();
    ghost var was := b.chains;
    var used := [vecs[0].(len := 0), vecs[1].(len := 1)];
    assert used[0].len == 0 && used[1].len == 1;
    assert NamesSpace(was, vecs[0]) && NamesSpace(was, vecs[1]);
    assert InOrder(was, 0, used);
    assert !GapFree(was, 0, used);
    ok := b.CommitSpace(used);
    assert ClaimedVec(was, b.chains, used[0]) && ClaimedVec(was, b.chains, used[1]);
  }

  /** A buffer of one long chain with a little room left. */
  method LongChain() returns (b: EvBuffer)
    ensures fresh(b) && b.Valid() && !b.freezeEnd
    ensures |b.chains| == 1 && b.lwd == 0 && b.chains[0].off == 5000 && b.chains[0].SpaceLen() > 0
  {
    hide Flatten, Leads, SumLen;
    b := new EvBuffer();
    var n, vecs := b.ReserveSpace(5001, 1);
    SumTwo(vecs);
    ghost var was := b.chains;
    var used := [vecs[0].(len := 5000)];
    assert used[0].len == 5000 && NamesSpace(was, vecs[0]);
    SingleCommit(was, 0, used[0]);
    assert used == [used[0]];
    var ok := b.CommitSpace(used);
    assert ClaimedVec(was, b.chains, used[0]);
  }

  /** With two empty chains behind that chain, space reserved in one piece is on the first
      of them, and committing it is refused. */
  method SingleReserveRefused() returns (ok: bool)
    ensures !ok
  {
    hide Flatten, EvBuffer.History, EvBuffer.Counted, SumLen, SpaceIn;
    var b, room := LongThenEmpty();
    var n, vecs := b.ReserveSpace(room + 1, 1);
    ok := b.CommitSpace(vecs);
  }

  /** That chain with two empty ones behind it, and the room that it has left. */
  method LongThenEmpty() returns (b: EvBuffer, room: nat)
    ensures fresh(b) && b.Valid() && !b.freezeEnd && |b.chains| == 3 && b.lwd == 0
    ensures PicksNext(b.chains, b.lwd, room + 1)
  {
    hide Flatten, EvBuffer.History, EvBuffer.Counted, SumLen;
    b := LongChain();
    room := b.chains[0].SpaceLen();
    SpaceOf(b.chains);
    var n, vecs := b.ReserveSpace(2 * room + 1, 2);
    SpaceOf(b.chains);
    assert b.chains[0] == b.chains[..1][0];
    n, vecs := b.ReserveSpace(room + b.chains[1].SpaceLen() + 1, 3);
    assert b.chains[0] == b.chains[..2][0] && b.chains[1] == b.chains[..2][1];
  }
}
