/** Moving bytes from one evbuffer to another without copying whole chains
    (buffer.c). */
module BufferMoves {
  import opened Bytes
  import opened Chains
  import opened EvBuffers

  /** evbuffer_add_buffer: everything in inbuf goes to the end of outbuf. */
  method AddBuffer(outbuf: EvBuffer, inbuf: EvBuffer) returns (ok: bool)
    requires outbuf.Valid() && inbuf.Valid()
    modifies outbuf`chains, outbuf`lwd, outbuf`totalLen, outbuf`nAdd, outbuf`nDel, outbuf`baseLen, outbuf`shown
    modifies inbuf`chains, inbuf`lwd, inbuf`totalLen, inbuf`nAdd, inbuf`nDel, inbuf`baseLen, inbuf`shown
    ensures outbuf.Valid() && inbuf.Valid()
    ensures ok <==> old(inbuf.totalLen) == 0 || outbuf == inbuf || (!outbuf.freezeEnd && !inbuf.freezeStart)
    ensures ok && outbuf != inbuf ==> outbuf.Content() == old(outbuf.Content() + inbuf.Content()) && inbuf.Content() == []
    ensures !ok || outbuf == inbuf ==>
      outbuf.Content() == old(outbuf.Content()) && inbuf.Content() == old(inbuf.Content())
  {
    hide Flatten, Layout, AllOk, EvBuffer.History, EvBuffer.Counted;
    NoBytes(inbuf);
    if inbuf.totalLen == 0 || outbuf == inbuf {
      return true;
    }
    if outbuf.freezeEnd || inbuf.freezeStart {
      return false;
    }
    TakeAll(outbuf, inbuf);
    ZeroChain(inbuf);
    inbuf.InvokeCallbacks();
    outbuf.InvokeCallbacks();
    ok := true;
  }

  lemma NoChains()
    ensures AllOk([]) && Layout([], 0) && Flatten([]) == []
  {
  }

  lemma NoBytes(b: EvBuffer)
    requires b.Valid()
    ensures b.totalLen == 0 ==> b.Content() == []
  {
    hide Flatten;
  }

  /** COPY_CHAIN or APPEND_CHAIN: the chains of inbuf are also those of outbuf. */
  method TakeAll(outbuf: EvBuffer, inbuf: EvBuffer)
    requires outbuf != inbuf && outbuf.Valid() && inbuf.Valid() && inbuf.totalLen > 0
    modifies outbuf`chains, outbuf`lwd, outbuf`totalLen, outbuf`nAdd
    ensures outbuf.Sound() && outbuf.Content() == old(outbuf.Content()) + inbuf.Content()
  {
    hide Flatten, Layout, AllOk;
    if outbuf.totalLen == 0 {
      assert outbuf.Content() + inbuf.Content() == inbuf.Content();
      outbuf.chains, outbuf.lwd, outbuf.totalLen := inbuf.chains, inbuf.lwd, inbuf.totalLen;
    } else {
      AppendChain(outbuf, inbuf);
    }
    outbuf.nAdd := outbuf.nAdd + inbuf.totalLen;
  }

  /** ZERO_CHAIN */
  method ZeroChain(b: EvBuffer)
    requires b.Valid()
    modifies b`chains, b`lwd, b`totalLen, b`nDel
    ensures b.Sound() && b.Content() == []
  {
    hide Flatten, Layout, AllOk;
    NoChains();
    b.nDel := b.nDel + b.totalLen;
    b.chains, b.lwd, b.totalLen := [], 0, 0;
  }

  /** APPEND_CHAIN */
  method AppendChain(dst: EvBuffer, src: EvBuffer)
    requires dst != src && dst.Shape() && src.Shape() && src.totalLen > 0 && dst.totalLen > 0
    modifies dst`chains, dst`lwd, dst`totalLen
    ensures dst.Shape()
    ensures dst.Content() == old(dst.Content()) + src.Content()
    ensures dst.totalLen == old(dst.totalLen) + src.totalLen
  {
    hide Flatten, Leads;
    LayoutEmpty(src.chains, src.lwd);
    var chp := dst.FreeTrailingEmptyChains();
    Link(dst.chains, src.chains, src.lwd);
    dst.chains := dst.chains + src.chains;
    dst.lwd := chp + src.lwd;
    dst.totalLen := dst.totalLen + src.totalLen;
  }

  /** The number of whole leading chains that fit into datlen bytes. */
  method WholeChains(cs: seq<Chain>, lwd: nat, datlen: nat)
    returns (k: nat, nread: nat, reset: bool)
    requires Layout(cs, lwd) && datlen < |Flatten(cs)|
    ensures k <= lwd < |cs|
    ensures nread == |Flatten(cs[..k])| <= datlen
    ensures datlen - nread < cs[k].off
    ensures reset <==> 0 < k == lwd
  {
    hide Flatten, Leads;
    FlattenNil();
    LwdHoldsAll(cs, lwd);
    k, nread, reset := 0, 0, false;
    while cs[k].off <= datlen - nread
      invariant 0 <= k <= lwd < |cs|
      invariant nread == |Flatten(cs[..k])| <= datlen
      invariant reset <==> 0 < k == lwd
      decreases lwd - k
    {
      FlattenStep(cs, k);
      // The last chain with data cannot be taken whole.
      assert k != lwd;
      nread := nread + cs[k].off;
      if k + 1 == lwd {
        reset := true;
      }
      k := k + 1;
    }
  }

  /** evbuffer_remove_buffer: the first datlen bytes of src go to the end of dst.
      Both buffers live in one address space. */
  method RemoveBuffer(src: EvBuffer, dst: EvBuffer, datlen: nat) returns (result: int)
    requires src.Valid() && dst.Valid()
    requires src != dst ==> src.totalLen + dst.totalLen <= SIZE_MAX
    modifies src`chains, src`lwd, src`totalLen, src`nAdd, src`nDel, src`baseLen, src`shown
    modifies dst`chains, dst`lwd, dst`totalLen, dst`nAdd, dst`nDel, dst`baseLen, dst`shown
    ensures src.Valid() && dst.Valid()
    ensures result == if datlen == 0 || src == dst then 0
      else if dst.freezeEnd || src.freezeStart then -1
      else Min(datlen, old(src.totalLen))
    ensures result <= 0 ==> src.Content() == old(src.Content()) && dst.Content() == old(dst.Content())
    ensures result > 0 ==>
      dst.Content() == old(dst.Content()) + old(src.Content())[..result] &&
      src.Content() == old(src.Content())[result..]
  {
    hide Flatten, Leads;
    if datlen == 0 || src == dst {
      return 0;
    }
    if dst.freezeEnd || src.freezeStart {
      return -1;
    }
    if datlen >= src.totalLen {
      result := src.totalLen;
      var _ := AddBuffer(dst, src);
      return;
    }
    RemovePart(src, dst, datlen);
    result := datlen;
  }

  /** evbuffer_remove_buffer for fewer bytes than src holds. */
  method RemovePart(src: EvBuffer, dst: EvBuffer, datlen: nat)
    requires src.Valid() && dst.Valid() && src != dst
    requires src.totalLen + dst.totalLen <= SIZE_MAX && datlen < src.totalLen && !dst.freezeEnd
    modifies src`chains, src`lwd, src`totalLen, src`nAdd, src`nDel, src`baseLen, src`shown
    modifies dst`chains, dst`lwd, dst`totalLen, dst`nAdd, dst`nDel, dst`baseLen, dst`shown
    ensures src.Valid() && dst.Valid()
    ensures dst.Content() == old(dst.Content()) + old(src.Content())[..datlen]
    ensures src.Content() == old(src.Content())[datlen..]
  {
    hide Flatten, Layout, Chain.DropFront, EvBuffer.History, EvBuffer.Counted;
    var k, nread, reset := WholeChains(src.chains, src.lwd, datlen);
    TakeSplit(src.chains, src.lwd, k, datlen - nread);
    var part := src.chains[k].Data()[..datlen - nread];
    var rest := src.chains[k..][0 := src.chains[k].DropFront(datlen - nread)];
    ThreeParts(old(dst.Content()), Flatten(src.chains[..k]), part, Flatten(rest));
    Give(src.chains[..k], nread, part, dst);
    KeepRest(src, rest, if reset then 0 else src.lwd - k, datlen);
    dst.InvokeCallbacks();
    src.InvokeCallbacks();
  }

  lemma ThreeParts(a: seq<Byte>, x: seq<Byte>, y: seq<Byte>, z: seq<Byte>)
    ensures (x + y + z)[|x| + |y|..] == z
    ensures a + (x + y + z)[..|x| + |y|] == a + x + y
    ensures x == [] ==> a + (x + y + z)[..|x| + |y|] == a + y
  {
    assert (x + y + z)[..|x| + |y|] == x + y;
  }

  /** What evbuffer_remove_buffer leaves behind in src. */
  lemma TakeSplit(cs: seq<Chain>, lwd: nat, k: nat, n: nat)
    requires Layout(cs, lwd) && k <= lwd < |cs| && n < cs[k].off
    ensures k == 0 || (forall i :: 0 <= i < k ==> cs[i].off > 0)
    ensures k == 0 <==> |Flatten(cs[..k])| == 0
    ensures var rest := cs[k..][0 := cs[k].DropFront(n)];
      Layout(rest, lwd - k) && Flatten(cs) == Flatten(cs[..k]) + cs[k].Data()[..n] + Flatten(rest)
  {
    hide Flatten, Chain.DropFront;
    FlattenNil();
    DropChains(cs, lwd, k, n);
    PullupBytes(cs, k, n);
    if k > 0 {
      FlattenSplit(cs[..k], 0);
    }
  }

  /** The chains that are left, datlen bytes fewer. */
  method KeepRest(src: EvBuffer, rest: seq<Chain>, lwd: nat, datlen: nat)
    requires src.Valid() && AllOk(rest) && Layout(rest, lwd) && |Flatten(rest)| + datlen == src.totalLen
    modifies src`chains, src`lwd, src`totalLen, src`nDel
    ensures src.Sound() && src.Content() == Flatten(rest)
  {
    hide Flatten, Layout, AllOk;
    src.lwd := lwd;
    src.chains := rest;
    src.totalLen := src.totalLen - datlen;
    src.nDel := src.nDel + datlen;
  }

  /** Whole chains and a few bytes more for dst. */
  method Give(cs: seq<Chain>, n: nat, part: seq<Byte>, dst: EvBuffer)
    requires dst.Valid() && !dst.freezeEnd && AllOk(cs) && NoneEmpty(cs) && n == |Flatten(cs)|
    requires dst.totalLen + n + |part| <= SIZE_MAX
    modifies dst`chains, dst`lwd, dst`totalLen, dst`nAdd, dst`nDel, dst`baseLen, dst`shown
    ensures dst.Valid() && dst.Content() == old(dst.Content()) + Flatten(cs) + part
  {
    hide Flatten, Leads, Layout, AllOk;
    if n > 0 {
      TakeChains(cs, n, dst);
    } else {
      assert Flatten(cs) == [];
    }
    var ok := dst.Add(part);
  }

  /** Link whole chains behind dst. */
  method TakeChains(cs: seq<Chain>, n: nat, dst: EvBuffer)
    requires dst.Sound() && AllOk(cs) && NoneEmpty(cs) && n == |Flatten(cs)| > 0
    modifies dst`chains, dst`lwd, dst`totalLen, dst`nAdd
    ensures dst.Sound()
    ensures dst.Content() == old(dst.Content()) + Flatten(cs)
    ensures dst.totalLen == old(dst.totalLen) + n
  {
    hide Flatten, Leads;
    FlattenNil();
    assert Layout(cs, |cs| - 1);
    var chp := dst.FreeTrailingEmptyChains();
    Link(dst.chains, cs, |cs| - 1);
    dst.chains := dst.chains + cs;
    dst.AdvanceLastWithData();
    assert dst.lwd == |dst.chains| - 1;
    dst.totalLen := dst.totalLen + n;
    dst.nAdd := dst.nAdd + n;
  }
}
