/** Bytes and the two memory primitives every other module relies on. */
module Bytes {
  type Byte = b: int | 0 <= b < 256

  datatype Option<+T> = None | Some(value: T)

  const INT_MAX: nat := 0x7fff_ffff

  function Min(a: nat, b: nat): nat { if a < b then a else b }

  function Max(a: nat, b: nat): nat { if a < b then b else a }

  /** memcpy: overwrite the |data| bytes of buf that start at position at. */
  function Blit(buf: seq<Byte>, at: nat, data: seq<Byte>): (r: seq<Byte>)
    requires at + |data| <= |buf|
    ensures |r| == |buf|
    ensures r[..at] == buf[..at]
    ensures r[at..at + |data|] == data
    ensures r[at + |data|..] == buf[at + |data|..]
  {
    buf[..at] + data + buf[at + |data|..]
  }

  /** Append data in two pieces. */
  lemma CutJoin(a: seq<Byte>, data: seq<Byte>, n: nat)
    requires n <= |data|
    ensures a + data == a + data[..n] + data[n..]
  {
  }

  /** Prepend data in two pieces, the later piece first. */
  lemma CutJoinFront(data: seq<Byte>, n: nat, a: seq<Byte>)
    requires n <= |data|
    ensures data + a == data[..n] + (data[n..] + a)
  {
  }

  lemma Assoc(a: seq<Byte>, b: seq<Byte>, c: seq<Byte>)
    ensures a + b + c == a + (b + c)
  {
  }

  lemma SliceSlice(s: seq<Byte>, x: nat, y: nat, a: nat, b: nat)
    requires x <= y <= |s| && a <= b <= y - x
    ensures s[x..y][a..b] == s[x + a..x + b]
  {
    var l, r := s[x..y][a..b], s[x + a..x + b];
    assert |l| == |r|;
    forall i | 0 <= i < |l|
      ensures l[i] == r[i]
    {
      assert l[i] == s[x..y][a + i] == s[x + a + i];
    }
  }
}
