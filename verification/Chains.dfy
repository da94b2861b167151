/** One evbuffer chain as a value, and the byte string a list of chains stands for. */
module Chains {
  import opened Bytes

  // 64-bit constants of evbuffer-internal.h and buffer.c.
  const CHAIN_SIZE: nat := 48
  const MIN_BUFFER_SIZE: nat := 1024
  const SIZE_MAX: nat := 0xffff_ffff_ffff_ffff
  const CHAIN_MAX: nat := 0x7fff_ffff_ffff_ffff
  const CHAIN_MAX_AUTO_SIZE: nat := 4096
  const MAX_TO_COPY_IN_EXPAND: nat := 4096
  const MAX_TO_REALIGN_IN_EXPAND: nat := 2048

  /** buf is the whole allocation (buffer_len == |buf|); the stored bytes are
      the off bytes that start at misalign. */
  datatype Chain = Chain(buf: seq<Byte>, misalign: nat, off: nat) {
    predicate Ok() {
      0 < |buf| && misalign + off <= |buf|
    }

    function Data(): (d: seq<Byte>)
      requires Ok()
      ensures |d| == off
    {
      buf[misalign..misalign + off]
    }

    function SpaceLen(): nat
      requires Ok()
    {
      |buf| - misalign - off
    }

    /** Write into the free space behind the data without claiming it. */
    function Scribble(data: seq<Byte>): (c: Chain)
      requires Ok() && |data| <= SpaceLen()
      ensures c.Ok() && c.Data() == Data() && c.off == off && c.misalign == misalign && |c.buf| == |buf|
      ensures c.buf[misalign + off..misalign + off + |data|] == data
    {
      var b := Blit(buf, misalign + off, data);
      assert b[misalign..misalign + off] == b[..misalign + off][misalign..];
      Chain(b, misalign, off)
    }

    /** Claim n bytes of the free space. */
    function Claim(n: nat): (c: Chain)
      requires Ok() && n <= SpaceLen()
      ensures c.Ok() && c.Data() == Data() + buf[misalign + off..misalign + off + n]
      ensures c.off == off + n && c.misalign == misalign && |c.buf| == |buf|
    {
      Chain(buf, misalign, off + n)
    }

    function Append(data: seq<Byte>): (c: Chain)
      requires Ok() && |data| <= SpaceLen()
      ensures c.Ok() && c.Data() == Data() + data
      ensures c.off == off + |data| && |c.buf| == |buf| && c.misalign == misalign
    {
      Scribble(data).Claim(|data|)
    }

    /** evbuffer_chain_align */
    function Align(): (c: Chain)
      requires Ok()
      ensures c.Ok() && c.Data() == Data() && c.misalign == 0 && c.off == off && |c.buf| == |buf|
    {
      Chain(Blit(buf, 0, Data()), 0, off)
    }

    /** evbuffer_chain_should_realign */
    predicate ShouldRealign(datlen: nat)
      requires Ok()
    {
      |buf| - off >= datlen && off < |buf| / 2 && off <= MAX_TO_REALIGN_IN_EXPAND
    }

    /** Put data in front of the stored bytes, into the misalignment. */
    function PrependInto(data: seq<Byte>): (c: Chain)
      requires Ok() && |data| <= misalign
      ensures c.Ok() && c.Data() == data + Data()
      ensures c.off == off + |data| && |c.buf| == |buf| && c.misalign == misalign - |data|
    {
      var b := Blit(buf, misalign - |data|, data);
      assert b[misalign..misalign + off] == buf[misalign..misalign + off] by {
        assert b[misalign..] == buf[misalign..];
        assert b[misalign..misalign + off] == b[misalign..][..off];
        assert buf[misalign..misalign + off] == buf[misalign..][..off];
      }
      assert b[misalign - |data|..misalign + off] == b[misalign - |data|..misalign] + b[misalign..misalign + off];
      Chain(b, misalign - |data|, off + |data|)
    }

    function DropFront(n: nat): (c: Chain)
      requires Ok() && n <= off
      ensures c.Ok() && c.Data() == Data()[n..] && c.off == off - n
    {
      Chain(buf, misalign + n, off - n)
    }
  }

  predicate AllOk(cs: seq<Chain>) {
    forall i :: 0 <= i < |cs| ==> cs[i].Ok()
  }

  predicate AllEmpty(cs: seq<Chain>) {
    forall i :: 0 <= i < |cs| ==> cs[i].off == 0
  }

  predicate NoneEmpty(cs: seq<Chain>) {
    forall i :: 0 <= i < |cs| ==> cs[i].off > 0
  }

  /** The byte string a chain list stands for. */
  function Flatten(cs: seq<Chain>): (r: seq<Byte>)
    requires AllOk(cs)
  {
    if cs == [] then [] else cs[0].Data() + Flatten(cs[1..])
  }

  lemma {:induction false} FlattenConcat(a: seq<Chain>, b: seq<Chain>)
    requires AllOk(a) && AllOk(b)
    ensures Flatten(a + b) == Flatten(a) + Flatten(b)
  {
    if a == [] {
      assert a + b == b;
    } else {
      assert (a + b)[1..] == a[1..] + b;
      FlattenConcat(a[1..], b);
    }
  }

  lemma FlattenOne(c: Chain)
    requires c.Ok()
    ensures Flatten([c]) == c.Data()
  {
    assert [c][1..] == [];
  }

  lemma FlattenCons(c: Chain, cs: seq<Chain>)
    requires c.Ok() && AllOk(cs)
    ensures Flatten([c] + cs) == c.Data() + Flatten(cs)
  {
    assert ([c] + cs)[1..] == cs;
  }

  lemma FlattenNil()
    ensures Flatten([]) == []
    ensures forall cs: seq<Chain> :: Flatten(cs[..0]) == []
  {
  }

  lemma FlattenCut(cs: seq<Chain>, i: nat)
    requires AllOk(cs) && i <= |cs|
    ensures Flatten(cs) == Flatten(cs[..i]) + Flatten(cs[i..])
  {
    assert cs == cs[..i] + cs[i..];
    FlattenConcat(cs[..i], cs[i..]);
  }

  lemma HeadAndTail(cs: seq<Chain>, i: nat)
    requires i < |cs|
    ensures cs[i..] == [cs[i]] + cs[i + 1..]
  {
  }

  lemma FlattenFrom(cs: seq<Chain>, i: nat)
    requires AllOk(cs) && i < |cs|
    ensures Flatten(cs[i..]) == cs[i].Data() + Flatten(cs[i + 1..])
  {
    hide Flatten, Chain.Data;
    HeadAndTail(cs, i);
    FlattenCons(cs[i], cs[i + 1..]);
  }

  /** Cut a list around position i. */
  lemma FlattenSplit(cs: seq<Chain>, i: nat)
    requires AllOk(cs) && i < |cs|
    ensures Flatten(cs) == Flatten(cs[..i]) + cs[i].Data() + Flatten(cs[i + 1..])
  {
    hide Flatten, Chain.Data;
    FlattenCut(cs, i);
    FlattenFrom(cs, i);
    Assoc(Flatten(cs[..i]), cs[i].Data(), Flatten(cs[i + 1..]));
  }

  lemma FlattenStep(cs: seq<Chain>, i: nat)
    requires AllOk(cs) && i < |cs|
    ensures Flatten(cs[..i + 1]) == Flatten(cs[..i]) + cs[i].Data()
  {
    assert cs[..i + 1] == cs[..i] + [cs[i]];
    FlattenConcat(cs[..i], [cs[i]]);
    FlattenOne(cs[i]);
  }

  lemma {:induction false} FlattenEmpty(cs: seq<Chain>)
    requires AllOk(cs) && AllEmpty(cs)
    ensures Flatten(cs) == []
  {
    if cs != [] {
      FlattenEmpty(cs[1..]);
    }
  }

  lemma FlattenUpdate(cs: seq<Chain>, i: nat, c: Chain)
    requires AllOk(cs) && i < |cs| && c.Ok()
    ensures Flatten(cs[i := c]) == Flatten(cs[..i]) + c.Data() + Flatten(cs[i + 1..])
  {
    var ds := cs[i := c];
    assert ds[..i] == cs[..i] && ds[i + 1..] == cs[i + 1..];
    FlattenSplit(ds, i);
  }

  /** Replacing a chain by one with the same data changes no content. */
  lemma FlattenSame(cs: seq<Chain>, i: nat, c: Chain)
    requires AllOk(cs) && i < |cs| && c.Ok() && c.Data() == cs[i].Data()
    ensures Flatten(cs[i := c]) == Flatten(cs)
  {
    FlattenUpdate(cs, i, c);
    FlattenSplit(cs, i);
  }

  /** Growing the last chain that holds data appends to the content. */
  lemma FlattenGrow(cs: seq<Chain>, i: nat, c: Chain, data: seq<Byte>)
    requires AllOk(cs) && i < |cs| && c.Ok() && AllEmpty(cs[i + 1..])
    requires c.Data() == cs[i].Data() + data
    ensures Flatten(cs[i := c]) == Flatten(cs) + data
  {
    FlattenUpdate(cs, i, c);
    FlattenSplit(cs, i);
    FlattenEmpty(cs[i + 1..]);
  }

  /** Empty chains behind position i hold nothing. */
  lemma FlattenDropTail(cs: seq<Chain>, i: nat)
    requires AllOk(cs) && i <= |cs| && AllEmpty(cs[i..])
    ensures Flatten(cs[..i]) == Flatten(cs)
  {
    FlattenCut(cs, i);
    FlattenEmpty(cs[i..]);
  }

  /** evbuffer_chain_new: an empty chain with room for at least size bytes; its
      allocation is rounded up to a power-of-two multiple of MIN_BUFFER_SIZE. */
  method ChainNew(size: nat) returns (c: Chain)
    ensures c.Ok() && c.off == 0 && c.misalign == 0
    ensures |c.buf| >= size
    ensures var want, room := size + CHAIN_SIZE, |c.buf| + CHAIN_SIZE;
      if want < CHAIN_MAX / 2 then room == MIN_BUFFER_SIZE || MIN_BUFFER_SIZE < room < 2 * want else room == want
    ensures c.Data() == [] && Flatten([c]) == []
  {
    var want := size + CHAIN_SIZE;
    var toAlloc := want;
    if want < CHAIN_MAX / 2 {
      toAlloc := MIN_BUFFER_SIZE;
      while toAlloc < want
        invariant toAlloc >= MIN_BUFFER_SIZE && (toAlloc > MIN_BUFFER_SIZE ==> toAlloc < 2 * want)
      {
        toAlloc := toAlloc * 2;
      }
    }
    c := Chain(seq(toAlloc - CHAIN_SIZE, _ => 0), 0, 0);
    FlattenOne(c);
  }
}
