/** Positions inside an evbuffer, searching and reading lines (buffer.c).  A cursor
    names a chain and an offset in it; every operation is proved against the
    integer position it stands for in the content. */
module Cursors {
  import opened Bytes
  import opened Chains
  import opened EvBuffers

  /** struct evbuffer_ptr; chain == -1 stands for a null chain. */
  datatype Ptr = Ptr(pos: int, chain: int, inChain: nat)

  const NOT_FOUND := Ptr(-1, -1, 0)

  /** p.pos is the position of byte inChain of chain p.chain, or the end. */
  predicate Canonical(cs: seq<Chain>, p: Ptr)
    requires AllOk(cs)
  {
    if p.chain == -1 then p.pos == |Flatten(cs)| && p.inChain == 0
    else
      && 0 <= p.chain < |cs|
      && p.inChain < cs[p.chain].off
      && p.pos == |Flatten(cs[..p.chain])| + p.inChain
  }

  /** Like Canonical, but the offset may sit at the end of its chain. */
  predicate Near(cs: seq<Chain>, p: Ptr)
    requires AllOk(cs)
  {
    if p.chain == -1 then p.pos == |Flatten(cs)| && p.inChain == 0
    else
      && 0 <= p.chain < |cs|
      && p.inChain <= cs[p.chain].off
      && p.pos == |Flatten(cs[..p.chain])| + p.inChain
  }

  lemma {:induction false} PrefixGrows(cs: seq<Chain>, i: nat, j: nat)
    requires AllOk(cs) && i <= j <= |cs|
    ensures |Flatten(cs[..i])| <= |Flatten(cs[..j])|
    decreases j - i
  {
    if i < j {
      FlattenStep(cs, j - 1);
      PrefixGrows(cs, i, j - 1);
    } else {
      assert cs[..i] == cs[..j];
    }
  }

  lemma PrefixAll(cs: seq<Chain>)
    requires AllOk(cs)
    ensures Flatten(cs[..|cs|]) == Flatten(cs)
  {
    assert cs[..|cs|] == cs;
  }

  /** A position has only one canonical cursor. */
  lemma CanonicalUnique(cs: seq<Chain>, p: Ptr, q: Ptr)
    requires AllOk(cs) && Canonical(cs, p) && Canonical(cs, q) && p.pos == q.pos
    ensures p == q
  {
    hide Flatten;
    PrefixAll(cs);
    if p.chain != -1 {
      FlattenStep(cs, p.chain);
      PrefixGrows(cs, p.chain + 1, |cs|);
    }
    if q.chain != -1 {
      FlattenStep(cs, q.chain);
      PrefixGrows(cs, q.chain + 1, |cs|);
    }
    if p.chain != -1 && q.chain != -1 {
      if p.chain < q.chain {
        PrefixGrows(cs, p.chain + 1, q.chain);
      } else if q.chain < p.chain {
        PrefixGrows(cs, q.chain + 1, p.chain);
      }
    }
  }

  /** The byte under a cursor, and the bytes of a chain inside the content. */
  lemma ChainInContent(cs: seq<Chain>, k: nat)
    requires AllOk(cs) && k < |cs|
    ensures var base := |Flatten(cs[..k])|;
      base + cs[k].off <= |Flatten(cs)| && Flatten(cs)[base..base + cs[k].off] == cs[k].Data()
  {
    hide Flatten;
    FlattenSplit(cs, k);
  }

  lemma ChainSlice(cs: seq<Chain>, k: nat, a: nat, b: nat)
    requires AllOk(cs) && k < |cs| && a <= b <= cs[k].off
    ensures var base := |Flatten(cs[..k])|;
      base + b <= |Flatten(cs)| && Flatten(cs)[base + a..base + b] == cs[k].Data()[a..b]
  {
    hide Flatten;
    ChainInContent(cs, k);
    var base := |Flatten(cs[..k])|;
    SliceSlice(Flatten(cs), base, base + cs[k].off, a, b);
  }

  /** memcmp of strings of one length: the order of the first bytes that differ. */
  function Memcmp(a: seq<Byte>, b: seq<Byte>): (r: int)
    requires |a| == |b|
  {
    if a == [] then 0
    else if a[0] != b[0] then if a[0] < b[0] then -1 else 1
    else Memcmp(a[1..], b[1..])
  }

  lemma {:induction false} MemcmpZero(a: seq<Byte>, b: seq<Byte>)
    requires |a| == |b|
    ensures Memcmp(a, b) == 0 <==> a == b
  {
    if a != [] && a[0] == b[0] {
      MemcmpZero(a[1..], b[1..]);
      assert a == [a[0]] + a[1..] && b == [b[0]] + b[1..];
    }
  }

  /** Byte k is the first at which a and b differ, and a has the smaller one. */
  predicate SmallerAt(a: seq<Byte>, b: seq<Byte>, k: nat)
    requires |a| == |b|
  {
    k < |a| && a[..k] == b[..k] && a[k] < b[k]
  }

  lemma {:induction false} MemcmpOrder(a: seq<Byte>, b: seq<Byte>)
    requires |a| == |b|
    ensures Memcmp(a, b) < 0 <==> exists k: nat :: SmallerAt(a, b, k)
    ensures Memcmp(a, b) > 0 <==> exists k: nat :: SmallerAt(b, a, k)
  {
    if a != [] {
      if a[0] == b[0] {
        MemcmpOrder(a[1..], b[1..]);
        SmallerShift(a, b);
        SmallerShift(b, a);
      } else {
        SmallerHere(a, b);
        SmallerHere(b, a);
      }
    }
  }

  lemma SmallerHere(a: seq<Byte>, b: seq<Byte>)
    requires |a| == |b| && a != [] && a[0] != b[0]
    ensures (exists k: nat :: SmallerAt(a, b, k)) <==> a[0] < b[0]
  {
    if a[0] < b[0] {
      assert SmallerAt(a, b, 0);
    } else if exists k: nat :: SmallerAt(a, b, k) {
      var k: nat :| SmallerAt(a, b, k);
      assert k > 0 ==> a[..k][0] == a[0] && b[..k][0] == b[0];
    }
  }

  lemma SmallerShift(a: seq<Byte>, b: seq<Byte>)
    requires |a| == |b| && a != [] && a[0] == b[0]
    ensures (exists k: nat :: SmallerAt(a, b, k)) <==> exists k: nat :: SmallerAt(a[1..], b[1..], k)
  {
    if exists k: nat :: SmallerAt(a, b, k) {
      var k: nat :| SmallerAt(a, b, k);
      assert a[1..][..k - 1] == a[..k][1..] && b[1..][..k - 1] == b[..k][1..];
      assert SmallerAt(a[1..], b[1..], k - 1);
    }
    if exists k: nat :: SmallerAt(a[1..], b[1..], k) {
      var k: nat :| SmallerAt(a[1..], b[1..], k);
      assert a[..k + 1] == [a[0]] + a[1..][..k] && b[..k + 1] == [b[0]] + b[1..][..k];
      assert SmallerAt(a, b, k + 1);
    }
  }

  lemma {:induction false} MemcmpConcat(a: seq<Byte>, a': seq<Byte>, b: seq<Byte>, b': seq<Byte>)
    requires |a| == |b| && |a'| == |b'|
    ensures Memcmp(a + a', b + b') == if Memcmp(a, b) != 0 then Memcmp(a, b) else Memcmp(a', b')
  {
    if a == [] {
      assert a + a' == a' && b + b' == b';
    } else {
      assert (a + a')[1..] == a[1..] + a' && (b + b')[1..] == b[1..] + b';
      if a[0] == b[0] {
        MemcmpConcat(a[1..], a', b[1..], b');
      }
    }
  }

  /** Comparing two strings piece by piece. */
  lemma ComparePiece(s: seq<Byte>, at: nat, mem: seq<Byte>, done: nat, n: nat)
    requires at + |mem| <= |s| && done + n <= |mem|
    ensures Memcmp(s[at + done..at + |mem|], mem[done..]) ==
      var r := Memcmp(s[at + done..at + done + n], mem[done..done + n]);
      if r != 0 then r else Memcmp(s[at + done + n..at + |mem|], mem[done + n..])
  {
    assert s[at + done..at + |mem|] == s[at + done..at + done + n] + s[at + done + n..at + |mem|];
    assert mem[done..] == mem[done..done + n] + mem[done + n..];
    MemcmpConcat(s[at + done..at + done + n], s[at + done + n..at + |mem|], mem[done..done + n], mem[done + n..]);
  }

  lemma CompareEnds(s: seq<Byte>, at: nat, mem: seq<Byte>)
    requires at + |mem| <= |s|
    ensures mem[0..] == mem && Memcmp(s[at + |mem|..at + |mem|], mem[|mem|..]) == 0
    ensures Memcmp(s[at..at + |mem|], mem) == 0 <==> MatchAt(s, at, mem)
  {
    MemcmpZero(s[at..at + |mem|], mem);
  }

  /** The chain walk of evbuffer_ptr_set: from byte offset of chain start, go howfar
      bytes further; pos is the integer position that should be reached. */
  method Walk(cs: seq<Chain>, start: int, offset: nat, howfar: nat, pos: int) returns (p: Ptr, ok: bool)
    requires AllOk(cs)
    requires start == -1 || (0 <= start <= |cs| && (start < |cs| ==> offset <= cs[start].off))
    requires start == |cs| || start == -1 ==> offset == 0
    requires pos == (if start == -1 then |Flatten(cs)| else |Flatten(cs[..start])|) + offset + howfar
    ensures if pos <= |Flatten(cs)| then ok && Canonical(cs, p) && p.pos == pos
      else !ok && p == NOT_FOUND
  {
    hide Flatten, Leads;
    PrefixAll(cs);
    var k := if start == -1 then |cs| else start;
    var left: nat, position: nat := howfar, offset;
    while k < |cs| && position + left >= cs[k].off
      invariant 0 <= k <= |cs|
      invariant k < |cs| ==> position <= cs[k].off
      invariant k == |cs| ==> position == 0
      invariant pos == |Flatten(cs[..k])| + position + left
    {
      FlattenStep(cs, k);
      left := left - (cs[k].off - position);
      k := k + 1;
      position := 0;
    }
    if k < |cs| {
      ChainInContent(cs, k);
      p, ok := Ptr(pos, k, position + left), true;
    } else if left == 0 {
      p, ok := Ptr(pos, -1, 0), true;
    } else {
      p, ok := NOT_FOUND, false;
    }
  }

  /** evbuffer_ptr_set with EVBUFFER_PTR_SET */
  method PtrSet(cs: seq<Chain>, position: nat) returns (p: Ptr, ok: bool)
    requires AllOk(cs)
    ensures ok <==> position <= |Flatten(cs)|
    ensures ok ==> Canonical(cs, p) && p.pos == position
    ensures !ok ==> p == NOT_FOUND
  {
    hide Flatten, Leads;
    FlattenNil();
    p, ok := Walk(cs, 0, 0, position, position);
  }

  /** evbuffer_ptr_set with EVBUFFER_PTR_ADD: on success the cursor is the one
      EVBUFFER_PTR_SET gives for the sum. */
  method PtrAdd(cs: seq<Chain>, p: Ptr, howfar: nat) returns (q: Ptr, ok: bool)
    requires AllOk(cs) && |Flatten(cs)| <= SIZE_MAX
    requires p.pos < 0 || Canonical(cs, p)
    ensures ok <==> p.pos >= 0 && p.pos + howfar <= |Flatten(cs)|
    ensures ok ==> Canonical(cs, q) && q.pos == p.pos + howfar
    ensures ok ==> forall r: Ptr :: Canonical(cs, r) && r.pos == p.pos + howfar ==> q == r
  {
    hide Flatten, Leads;
    if p.pos < 0 || howfar > SIZE_MAX - p.pos {
      return p, false;
    }
    q, ok := Walk(cs, p.chain, p.inChain, howfar, p.pos + howfar);
    if ok {
      forall r: Ptr | Canonical(cs, r) && r.pos == p.pos + howfar
        ensures q == r
      {
        CanonicalUnique(cs, q, r);
      }
    }
  }

  /** evbuffer_ptr_subtract */
  method PtrSubtract(cs: seq<Chain>, p: Ptr, howfar: nat) returns (q: Ptr, ok: bool)
    requires AllOk(cs)
    requires p.pos < 0 || Canonical(cs, p)
    ensures ok <==> p.pos >= 0 && howfar <= p.pos
    ensures ok ==> Canonical(cs, q) && q.pos == p.pos - howfar
    ensures !ok ==> q == p
  {
    hide Flatten, Leads;
    if p.pos < 0 || howfar > p.pos {
      return p, false;
    }
    CanonicalBound(cs, p);
    if p.chain != -1 && howfar <= p.inChain {
      return Ptr(p.pos - howfar, p.chain, p.inChain - howfar), true;
    }
    q, ok := PtrSet(cs, p.pos - howfar);
  }

  lemma CanonicalBound(cs: seq<Chain>, p: Ptr)
    requires AllOk(cs) && Canonical(cs, p)
    ensures 0 <= p.pos <= |Flatten(cs)|
    ensures p.chain != -1 ==> p.pos < |Flatten(cs)| && Flatten(cs)[p.pos] == cs[p.chain].Data()[p.inChain]
    ensures p.chain == -1 <==> p.pos == |Flatten(cs)|
  {
    hide Flatten;
    if p.chain != -1 {
      ChainInContent(cs, p.chain);
      var base := |Flatten(cs[..p.chain])|;
      assert Flatten(cs)[base..base + cs[p.chain].off][p.inChain] == Flatten(cs)[p.pos];
    }
  }

  lemma NearBound(cs: seq<Chain>, p: Ptr)
    requires AllOk(cs) && Near(cs, p)
    ensures 0 <= p.pos <= |Flatten(cs)|
  {
    hide Flatten;
    if p.chain != -1 {
      ChainInContent(cs, p.chain);
    }
  }

  /** what occurs in s at position i. */
  predicate MatchAt(s: seq<Byte>, i: int, what: seq<Byte>) {
    0 <= i && i + |what| <= |s| && s[i..i + |what|] == what
  }

  /** evbuffer_ptr_memcmp: the bytes at p against mem, in the order of memcmp; -1 when there
      are not that many.  Zero means that mem occurs at p. */
  method PtrMemcmp(cs: seq<Chain>, p: Ptr, mem: seq<Byte>) returns (r: int)
    requires AllOk(cs) && |Flatten(cs)| <= SIZE_MAX
    requires p.pos < 0 || Canonical(cs, p)
    ensures r == if 0 <= p.pos && p.pos + |mem| <= |Flatten(cs)| then Memcmp(Flatten(cs)[p.pos..p.pos + |mem|], mem) else -1
    ensures r == 0 <==> MatchAt(Flatten(cs), p.pos, mem)
  {
    hide Flatten, Leads, Chain.Data, Memcmp;
    if p.pos < 0 || |mem| > SIZE_MAX - p.pos || p.pos + |mem| > |Flatten(cs)| {
      return -1;
    }
    PrefixAll(cs);
    var k := if p.chain == -1 then |cs| else p.chain;
    var position: nat, done: nat := p.inChain, 0;
    ghost var all := Flatten(cs);
    CompareEnds(all, p.pos, mem);
    while done < |mem| && k < |cs|
      invariant 0 <= k <= |cs| && done <= |mem|
      invariant done < |mem| ==> p.pos + done == |Flatten(cs[..k])| + position
      invariant k < |cs| ==> position <= cs[k].off
      invariant k == |cs| && done < |mem| ==> position == 0
      invariant Memcmp(all[p.pos + done..p.pos + |mem|], mem[done..]) == Memcmp(all[p.pos..p.pos + |mem|], mem)
      decreases |cs| - k
    {
      FlattenStep(cs, k);
      var n := if |mem| - done + position > cs[k].off then cs[k].off - position else |mem| - done;
      ChainSlice(cs, k, position, position + n);
      ComparePiece(all, p.pos, mem, done, n);
      r := Memcmp(cs[k].Data()[position..position + n], mem[done..done + n]);
      if r != 0 {
        return r;
      }
      done := done + n;
      position := 0;
      k := k + 1;
    }
    assert done == |mem|;
    r := 0;
  }

  /** memchr and its relatives: the first position from `from` on that holds a
      wanted byte, or |s|. */
  function FirstIn(s: seq<Byte>, from: nat, wanted: set<Byte>): (r: nat)
    requires from <= |s|
    ensures from <= r <= |s|
    ensures forall j :: from <= j < r ==> s[j] !in wanted
    ensures r < |s| ==> s[r] in wanted
    decreases |s| - from
  {
    if from == |s| || s[from] in wanted then from else FirstIn(s, from + 1, wanted)
  }

  /** No occurrence of what starts in [from, to). */
  ghost predicate NoMatch(s: seq<Byte>, what: seq<Byte>, from: int, to: int) {
    forall i :: from <= i < to ==> !MatchAt(s, i, what)
  }

  lemma MatchFits(s: seq<Byte>, what: seq<Byte>)
    ensures forall i :: MatchAt(s, i, what) ==> 0 <= i && i + |what| <= |s|
  {
  }

  lemma MatchFirst(s: seq<Byte>, i: int, what: seq<Byte>)
    requires |what| > 0
    ensures MatchAt(s, i, what) ==> s[i] == what[0]
  {
    if MatchAt(s, i, what) {
      assert s[i..i + |what|][0] == s[i];
    }
  }

  /** Positions of chain k without the first byte of what hold no match. */
  lemma SkipNoMatch(cs: seq<Chain>, k: nat, a: nat, b: nat, what: seq<Byte>)
    requires AllOk(cs) && k < |cs| && a <= b <= cs[k].off && |what| > 0
    requires forall j :: a <= j < b ==> cs[k].Data()[j] != what[0]
    ensures var base := |Flatten(cs[..k])|; NoMatch(Flatten(cs), what, base + a, base + b)
  {
    hide Flatten, Chain.Data;
    ChainInContent(cs, k);
    var base, all := |Flatten(cs[..k])|, Flatten(cs);
    forall i | base + a <= i < base + b
      ensures !MatchAt(all, i, what)
    {
      assert all[base..base + cs[k].off][i - base] == all[i];
      assert all[i] == cs[k].Data()[i - base] != what[0];
      MatchFirst(all, i, what);
    }
  }

  /** evbuffer_search_range: the least occurrence from start on, if it ends before
      end. */
  method SearchRange(cs: seq<Chain>, what: seq<Byte>, start: Option<Ptr>, end: Option<Ptr>) returns (r: Ptr)
    requires AllOk(cs) && |Flatten(cs)| <= SIZE_MAX
    requires start.Some? ==> Near(cs, start.value)
    requires end.Some? ==> Canonical(cs, end.value)
    ensures var from := if start.Some? then start.value.pos else 0;
      var limit := if end.Some? then end.value.pos else |Flatten(cs)|;
      if what == [] then r.pos == from && Near(cs, r)
      else
        || (r == NOT_FOUND && NoMatch(Flatten(cs), what, from, limit - |what| + 1))
        || (&& Canonical(cs, r) && from <= r.pos && r.pos + |what| <= limit
            && MatchAt(Flatten(cs), r.pos, what) && NoMatch(Flatten(cs), what, from, r.pos))
  {
    hide Flatten, Leads, Chain.Data, FirstIn, MatchAt;
    FlattenNil();
    var pos, k, inChain := 0, 0, 0;
    if start.Some? {
      pos, inChain := start.value.pos, start.value.inChain;
      k := if start.value.chain == -1 then |cs| else start.value.chain;
      NearBound(cs, start.value);
    }
    if what == [] {
      return Ptr(pos, if k == |cs| then -1 else k, inChain);
    }
    ghost var all, from := Flatten(cs), pos;
    PrefixAll(cs);
    MatchFits(all, what);
    while k < |cs|
      invariant 0 <= k <= |cs| && 0 <= inChain
      invariant pos == |Flatten(cs[..k])| + inChain
      invariant k < |cs| ==> inChain <= cs[k].off
      invariant k == |cs| ==> inChain == 0
      invariant from <= pos <= |all| && NoMatch(all, what, from, pos)
      decreases |cs| - k, |all| - pos
    {
      ChainInContent(cs, k);
      FlattenStep(cs, k);
      var j := FirstIn(cs[k].Data(), inChain, {what[0]});
      SkipNoMatch(cs, k, inChain, j, what);
      pos := pos + j - inChain;
      inChain := j;
      if j < cs[k].off {
        var here := Ptr(pos, k, j);
        var c := PtrMemcmp(cs, here, what);
        if c == 0 {
          if end.Some? && pos + |what| > end.value.pos {
            return NOT_FOUND;
          }
          return here;
        }
        pos := pos + 1;
        inChain := inChain + 1;
        if inChain == cs[k].off {
          k := k + 1;
          inChain := 0;
        }
      } else {
        if end.Some? && k == end.value.chain {
          return NOT_FOUND;
        }
        k := k + 1;
        inChain := 0;
      }
    }
    r := NOT_FOUND;
  }

  /** evbuffer_strchr and evbuffer_find_eol_char: move the cursor to the first
      wanted byte at or behind it. */
  method ScanFor(cs: seq<Chain>, it: Ptr, wanted: set<Byte>) returns (r: Ptr)
    requires AllOk(cs) && Near(cs, it) && 0 <= it.pos <= |Flatten(cs)|
    ensures var i := FirstIn(Flatten(cs), it.pos, wanted);
      if i < |Flatten(cs)| then Canonical(cs, r) && r.pos == i else r == NOT_FOUND
  {
    hide Flatten, Leads, Chain.Data, FirstIn;
    PrefixAll(cs);
    ghost var all := Flatten(cs);
    var k := if it.chain == -1 then |cs| else it.chain;
    var i, pos := it.inChain, it.pos;
    while k < |cs|
      invariant 0 <= k <= |cs| && 0 <= i
      invariant pos == |Flatten(cs[..k])| + i
      invariant k < |cs| ==> i <= cs[k].off
      invariant k == |cs| ==> i == 0
      invariant it.pos <= pos <= |all| && FirstIn(all, it.pos, wanted) == FirstIn(all, pos, wanted)
      decreases |cs| - k
    {
      ChainInContent(cs, k);
      FlattenStep(cs, k);
      var j := FirstIn(cs[k].Data(), i, wanted);
      FirstInChain(cs, k, i, wanted);
      if j < cs[k].off {
        return Ptr(pos + j - i, k, j);
      }
      pos := pos + cs[k].off - i;
      i := 0;
      k := k + 1;
    }
    r := NOT_FOUND;
  }

  /** Looking inside chain k is looking inside the content. */
  lemma FirstInChain(cs: seq<Chain>, k: nat, i: nat, wanted: set<Byte>)
    requires AllOk(cs) && k < |cs| && i <= cs[k].off
    ensures var base := |Flatten(cs[..k])|;
      var j := FirstIn(cs[k].Data(), i, wanted);
      && base + cs[k].off <= |Flatten(cs)|
      && FirstIn(Flatten(cs), base + i, wanted) == FirstIn(Flatten(cs), base + j, wanted)
      && (j < cs[k].off ==> FirstIn(Flatten(cs), base + i, wanted) == base + j)
  {
    hide Flatten, Chain.Data;
    ChainInContent(cs, k);
    var base, all := |Flatten(cs[..k])|, Flatten(cs);
    var j := FirstIn(cs[k].Data(), i, wanted);
    forall x | base + i <= x < base + cs[k].off
      ensures all[x] == cs[k].Data()[x - base]
    {
      assert all[base..base + cs[k].off][x - base] == all[x];
    }
    FirstInSkip(all, base + i, base + j, wanted);
  }

  lemma {:induction false} FirstInSkip(s: seq<Byte>, from: nat, to: nat, wanted: set<Byte>)
    requires from <= to <= |s| && forall j :: from <= j < to ==> s[j] !in wanted
    ensures FirstIn(s, from, wanted) == FirstIn(s, to, wanted)
    decreases |s| - from
  {
    if from < to {
      FirstInSkip(s, from + 1, to, wanted);
    }
  }

  const CR: Byte := 13
  const LF: Byte := 10

  /** The position behind the longest run of wanted bytes that starts at from. */
  function SpanEnd(s: seq<Byte>, from: nat, wanted: set<Byte>): (r: nat)
    requires from <= |s|
    ensures from <= r <= |s|
    ensures forall j :: from <= j < r ==> s[j] in wanted
    ensures r < |s| ==> s[r] !in wanted
    decreases |s| - from
  {
    if from == |s| || s[from] !in wanted then from else SpanEnd(s, from + 1, wanted)
  }

  lemma {:induction false} SpanEndSkip(s: seq<Byte>, from: nat, to: nat, wanted: set<Byte>)
    requires from <= to <= |s| && forall j :: from <= j < to ==> s[j] in wanted
    ensures SpanEnd(s, from, wanted) == SpanEnd(s, to, wanted)
    decreases |s| - from
  {
    if from < to {
      SpanEndSkip(s, from + 1, to, wanted);
    }
  }

  /** evbuffer_strspn: how many wanted bytes follow the cursor. */
  method StrSpn(cs: seq<Chain>, p: Ptr, wanted: set<Byte>) returns (count: nat)
    requires AllOk(cs) && Near(cs, p) && 0 <= p.pos <= |Flatten(cs)|
    ensures p.pos + count == SpanEnd(Flatten(cs), p.pos, wanted)
  {
    hide Flatten, Leads, Chain.Data, SpanEnd;
    PrefixAll(cs);
    ghost var all := Flatten(cs);
    count := 0;
    var k := if p.chain == -1 then |cs| else p.chain;
    var i := p.inChain;
    while k < |cs|
      invariant 0 <= k <= |cs| && 0 <= i
      invariant p.pos + count == |Flatten(cs[..k])| + i
      invariant k < |cs| ==> i <= cs[k].off
      invariant k == |cs| ==> i == 0
      invariant p.pos + count <= |all|
      invariant SpanEnd(all, p.pos, wanted) == SpanEnd(all, p.pos + count, wanted)
    {
      ChainInContent(cs, k);
      FlattenStep(cs, k);
      ghost var base := |Flatten(cs[..k])|;
      var e := SpanEnd(cs[k].Data(), i, wanted);
      forall x | i <= x < cs[k].off
        ensures all[base + x] == cs[k].Data()[x]
      {
        assert all[base..base + cs[k].off][x] == all[base + x];
      }
      forall j | base + i <= j < base + e
        ensures all[j] in wanted
      {
        assert cs[k].Data()[j - base] in wanted && all[base + (j - base)] == cs[k].Data()[j - base];
      }
      SpanEndSkip(all, base + i, base + e, wanted);
      count := count + e - i;
      if e < cs[k].off {
        return;
      }
      i := 0;
      k := k + 1;
    }
  }

  datatype EolStyle = EolAny | EolCrlfStrict | EolCrlf | EolLf | EolNul

  /** In s, the first line end of this style at or behind from sits at pos and is
      len bytes long. */
  ghost predicate EolFound(s: seq<Byte>, from: nat, style: EolStyle, pos: int, len: nat)
    requires from <= |s|
  {
    match style
    case EolAny =>
      var i := FirstIn(s, from, {CR, LF});
      pos == i < |s| && pos + len == SpanEnd(s, i, {CR, LF})
    case EolCrlfStrict =>
      from <= pos && MatchAt(s, pos, [CR, LF]) && len == 2 && NoMatch(s, [CR, LF], from, pos)
    case EolCrlf =>
      var i := FirstIn(s, from, {LF});
      i < |s| && if i > from && s[i - 1] == CR then pos == i - 1 && len == 2 else pos == i && len == 1
    case EolLf => pos == FirstIn(s, from, {LF}) < |s| && len == 1
    case EolNul => pos == FirstIn(s, from, {0}) < |s| && len == 1
  }

  /** s holds no line end of this style at or behind from. */
  ghost predicate NoEol(s: seq<Byte>, from: nat, style: EolStyle)
    requires from <= |s|
  {
    match style
    case EolAny => FirstIn(s, from, {CR, LF}) == |s|
    case EolCrlfStrict => NoMatch(s, [CR, LF], from, |s|)
    case EolCrlf => FirstIn(s, from, {LF}) == |s|
    case EolLf => FirstIn(s, from, {LF}) == |s|
    case EolNul => FirstIn(s, from, {0}) == |s|
  }

  /** evbuffer_search_eol */
  method SearchEol(cs: seq<Chain>, start: Option<Ptr>, style: EolStyle) returns (it: Ptr, eolLen: nat)
    requires AllOk(cs) && |Flatten(cs)| <= SIZE_MAX
    requires start.Some? ==> Near(cs, start.value) && 0 <= start.value.pos <= |Flatten(cs)|
    ensures var from := if start.Some? then start.value.pos else 0;
      if it == NOT_FOUND then NoEol(Flatten(cs), from, style)
      else EolFound(Flatten(cs), from, style, it.pos, eolLen) && Canonical(cs, it)
  {
    hide Flatten, Leads, Chain.Data, FirstIn, SpanEnd, MatchAt;
    FlattenNil();
    MatchFits(Flatten(cs), [CR, LF]);
    eolLen := 0;
    if start.Some? && start.value.chain == -1 {
      return NOT_FOUND, 0;
    }
    if start.Some? {
      it := start.value;
    } else {
      it := Ptr(0, if |cs| == 0 then -1 else 0, 0);
    }
    var from := it.pos;
    match style {
      case EolAny =>
        it := ScanFor(cs, it, {CR, LF});
        if it != NOT_FOUND {
          CanonicalBound(cs, it);
          eolLen := StrSpn(cs, it, {CR, LF});
        }
      case EolCrlfStrict =>
        it := SearchRange(cs, [CR, LF], Some(it), None);
        eolLen := if it == NOT_FOUND then 0 else 2;
      case EolCrlf =>
        it := ScanFor(cs, it, {LF});
        if it != NOT_FOUND {
          eolLen := 1;
          if it.pos != from {
            var it2, ok := PtrSubtract(cs, it, 1);
            if ok {
              CanonicalBound(cs, it2);
              if it2.chain != -1 && cs[it2.chain].Data()[it2.inChain] == CR {
                it, eolLen := it2, 2;
              }
            }
          }
        }
      case EolLf =>
        it := ScanFor(cs, it, {LF});
        eolLen := if it == NOT_FOUND then 0 else 1;
      case EolNul =>
        it := ScanFor(cs, it, {0});
        eolLen := if it == NOT_FOUND then 0 else 1;
    }
  }

  /** evbuffer_readln: the content splits into the line, the line end and the rest. */
  method ReadLn(buf: EvBuffer, style: EolStyle) returns (line: Option<seq<Byte>>)
    requires buf.Valid() && buf.totalLen <= SIZE_MAX
    modifies buf`chains, buf`lwd, buf`totalLen, buf`nAdd, buf`nDel, buf`baseLen, buf`shown
    ensures buf.Valid()
    ensures line == None ==>
      buf.Content() == old(buf.Content()) && (buf.freezeStart || NoEol(old(buf.Content()), 0, style))
    ensures line.Some? ==>
      var n := |line.value|;
      var e := |old(buf.Content())| - n - |buf.Content()|;
      && e >= 0 && old(buf.Content())[..n] == line.value && old(buf.Content())[n + e..] == buf.Content()
      && EolFound(old(buf.Content()), 0, style, n, e)
  {
    hide Flatten, Layout, AllOk, EolFound, NoEol, EvBuffer.History, EvBuffer.Counted, EvBuffer.Cleared;
    if buf.freezeStart {
      return None;
    }
    var it, eolLen := SearchEol(buf.chains, None, style);
    if it.pos < 0 {
      EolBounds(buf.Content(), style, it, eolLen);
      return None;
    }
    EolBounds(buf.Content(), style, it, eolLen);
    var data := TakeLine(buf, it.pos, eolLen);
    line := Some(data);
  }

  /** The line and its end are taken from the front. */
  method TakeLine(buf: EvBuffer, n: nat, eolLen: nat) returns (line: seq<Byte>)
    requires buf.Valid() && !buf.freezeStart && n + eolLen <= buf.totalLen
    modifies buf`chains, buf`lwd, buf`totalLen, buf`nAdd, buf`nDel, buf`baseLen, buf`shown
    ensures buf.Valid() && line == old(buf.Content())[..n] && buf.Content() == old(buf.Content())[n + eolLen..]
  {
    hide Flatten, Layout, AllOk, EvBuffer.History, EvBuffer.Counted, EvBuffer.Cleared;
    ghost var all := buf.Content();
    var k;
    k, line := buf.Remove(n);
    var ok := buf.Drain(eolLen);
    assert all[n..][eolLen..] == all[n + eolLen..];
  }

  lemma EolBounds(s: seq<Byte>, style: EolStyle, it: Ptr, len: nat)
    requires it == NOT_FOUND || EolFound(s, 0, style, it.pos, len)
    ensures it != NOT_FOUND ==> 0 <= it.pos && it.pos + len <= |s|
  {
  }
}
