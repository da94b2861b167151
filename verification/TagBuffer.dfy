/** Tagged records in evbuffers: evtag_marshal and evtag_unmarshal over EvBuffers. */
module TagBuffers {
  import opened Bytes
  import opened Chains
  import opened EvBuffers
  import opened Tagging

  /** A tag is in the first five bytes or not at all. */
  lemma {:induction false} TagInFive(s: seq<Byte>, i: nat)
    requires i <= 5
    ensures ReadTag(s, i) == ReadTag(s[..Min(|s|, 5 - i)], i)
    decreases |s|
  {
    hide TagCap;
    var n := Min(|s|, 5 - i);
    if s != [] && i <= 4 {
      TagInFive(s[1..], i + 1);
      assert s[..n][0] == s[0] && s[..n][1..] == s[1..][..n - 1];
      assert n - 1 == Min(|s[1..]|, 5 - (i + 1));
    }
  }

  lemma ReadIntFront(s: seq<Byte>, maxNibbles: nat, k: nat)
    requires s != [] && s[0] / 16 + 1 <= maxNibbles && (s[0] / 16 + 1) / 2 + 1 <= k <= |s|
    ensures ReadInt(s[..k], maxNibbles) == ReadInt(s, maxNibbles)
  {
    var n := s[0] / 16 + 1;
    FrontNibbles(s, k, 1, n);
  }

  lemma {:induction false} FrontNibbles(s: seq<Byte>, k: nat, p: nat, n: nat)
    requires n / 2 < k <= |s|
    ensures NibbleValue(s[..k], p, n) == NibbleValue(s, p, n)
    decreases n - p
  {
    if p <= n {
      FrontNibbles(s, k, p + 1, n);
    }
  }

  /** evtag_marshal */
  method Marshal(buf: EvBuffer, tag: nat, payload: seq<Byte>)
    requires buf.Valid() && !buf.freezeEnd && tag < MAX32 && |payload| <= INT_MAX
    requires buf.totalLen + |Record(tag, payload)| <= SIZE_MAX
    modifies buf`chains, buf`lwd, buf`totalLen, buf`nAdd, buf`nDel, buf`baseLen, buf`shown
    ensures buf.Valid() && buf.Content() == old(buf.Content()) + Record(tag, payload)
  {
    hide Flatten, Leads, AllOk, Layout, TagBytes, IntBytes;
    LengthFits(|payload|);
    assert |payload| < Pow16(2 * 4);
    ghost var was := buf.Content();
    var t := EncodeTag(tag);
    var l := EncodeInt(|payload|, 4);
    var ok1 := buf.Add(t);
    var ok2 := buf.Add(l);
    var ok3 := buf.Add(payload);
    assert was + t + l + payload == was + (t + l + payload);
  }

  /** decode_tag_internal with draining.  Five bytes are pulled up; past says that the loop
      looks at the byte behind them before it rejects the tag. */
  method TakeTag(buf: EvBuffer) returns (tag: Option<nat>, past: bool)
    requires buf.Valid() && !buf.freezeStart
    modifies buf`chains, buf`lwd, buf`totalLen, buf`nAdd, buf`nDel, buf`baseLen, buf`shown
    ensures buf.Valid()
    ensures match ReadTag(old(buf.Content()), 0)
      case None => tag == None && buf.Content() == old(buf.Content())
      case Some(t) => tag == Some(t.tag) && buf.Content() == old(buf.Content())[t.count..]
    ensures past <==> FiveGoOn(old(buf.Content())) && old(buf.totalLen) > 5
    ensures past ==> tag == None
  {
    hide Flatten, Leads, AllOk, Layout, ReadTag, FiveGoOn;
    ghost var s := buf.Content();
    TagInFive(s, 0);
    TagNowhere();
    FiveInFive(s);
    var data := buf.Pullup(Min(buf.totalLen, 5));
    if data.None? {
      return None, false;
    }
    var r, loads := DecodeTag(data.value);
    if r.None? {
      return None, buf.totalLen > 5 && FiveGoOn(data.value);
    }
    var ok := buf.Drain(r.value.count);
    return Some(r.value.tag), false;
  }

  /** Five bytes that all go on and one more: the loop looks behind what it pulled up. */
  method LooksBehind() returns (tag: Option<nat>, past: bool)
    ensures past && tag == None
  {
    hide Flatten, Leads, AllOk, Layout, ReadTag;
    var buf := new EvBuffer();
    var bytes: seq<Byte> := [128, 128, 128, 128, 128, 0];
    var ok := buf.Add(bytes);
    assert buf.Content() == bytes;
    tag, past := TakeTag(buf);
  }

  lemma FiveInFive(s: seq<Byte>)
    ensures FiveGoOn(s) <==> FiveGoOn(s[..Min(|s|, 5)])
    ensures FiveGoOn(s) ==> |s| >= 5 && ReadTag(s, 0) == None
  {
    hide ReadTag;
    if FiveGoOn(s) {
      NoTagInFive(s, 0);
    }
  }

  lemma {:induction false} NoTagInFive(s: seq<Byte>, i: nat)
    requires i <= 5 && |s| >= 5 - i && forall j :: 0 <= j < 5 - i ==> s[j] >= 128
    ensures ReadTag(s, i) == None
    decreases 5 - i
  {
    if i < 5 {
      NoTagInFive(s[1..], i + 1);
    }
  }

  lemma TagNowhere()
    ensures ReadTag([], 0) == None
  {
  }

  /** evtag_decode_int */
  method TakeInt(buf: EvBuffer) returns (number: Option<nat>)
    requires buf.Valid() && !buf.freezeStart
    modifies buf`chains, buf`lwd, buf`totalLen, buf`nAdd, buf`nDel, buf`baseLen, buf`shown
    ensures buf.Valid()
    ensures match ReadInt(old(buf.Content()), 8)
      case None => number == None && buf.Content() == old(buf.Content())
      case Some(i) => number == Some(i.value) && buf.Content() == old(buf.Content())[i.count..]
  {
    hide Flatten, Leads, AllOk, Layout, NibbleValue;
    ghost var s := buf.Content();
    if buf.totalLen == 0 {
      return None;
    }
    var first := buf.Pullup(1);
    var nibbles := first.value[0] / 16 + 1;
    if nibbles > 8 || nibbles / 2 + 1 > buf.totalLen {
      return None;
    }
    var data := buf.Pullup(nibbles / 2 + 1);
    ReadIntFront(s, 8, nibbles / 2 + 1);
    var r := DecodeInt(data.value, 8);
    var ok := buf.Drain(nibbles / 2 + 1);
    return Some(r.value.value);
  }

  /** A 32-bit length as the int that is returned. */
  function AsInt(len: nat): int {
    if len <= INT_MAX then len else len - MAX32
  }

  /** What is left of s once its header was looked for: the tag and the length are gone as far
      as they could be read, even when the record is not all there. */
  function PastHeader(s: seq<Byte>): (r: seq<Byte>)
    ensures ReadHeader(s).Some? ==> r == s[ReadHeader(s).value.start..]
  {
    match ReadTag(s, 0)
    case None => s
    case Some(t) =>
      match ReadInt(s[t.count..], 8)
      case None => s[t.count..]
      case Some(i) => s[t.count + i.count..]
  }

  /** evtag_unmarshal_header */
  method TakeHeader(src: EvBuffer) returns (len: int, tag: nat)
    requires src.Valid() && !src.freezeStart
    modifies src`chains, src`lwd, src`totalLen, src`nAdd, src`nDel, src`baseLen, src`shown
    ensures src.Valid()
    ensures match ReadHeader(old(src.Content()))
      case None => len == -1
      case Some(h) => len == AsInt(h.len) && tag == h.tag
    ensures src.Content() == PastHeader(old(src.Content()))
  {
    hide Flatten, Leads, AllOk, Layout, ReadTag, ReadInt, FiveGoOn;
    ghost var s := src.Content();
    tag := 0;
    var t, past := TakeTag(src);
    if t.None? {
      return -1, 0;
    }
    ghost var s1 := src.Content();
    var l := TakeInt(src);
    if l.None? {
      return -1, 0;
    }
    DropTwice(s, |s| - |s1|, |s1| - |src.Content()|);
    if src.totalLen < l.value {
      return -1, 0;
    }
    len, tag := AsInt(l.value), t.value;
  }

  /** evtag_unmarshal: the first record of src, its payload added to dst; a record too long
      for an int is refused, its header gone. */
  method Unmarshal(src: EvBuffer, dst: EvBuffer) returns (len: int, tag: nat)
    requires src.Valid() && dst.Valid() && src != dst && !src.freezeStart && !dst.freezeEnd
    requires src.totalLen + dst.totalLen <= SIZE_MAX
    modifies src`chains, src`lwd, src`totalLen, src`nAdd, src`nDel, src`baseLen, src`shown
    modifies dst`chains, dst`lwd, dst`totalLen, dst`nAdd, dst`nDel, dst`baseLen, dst`shown
    ensures src.Valid() && dst.Valid()
    ensures match ReadRecord(old(src.Content()))
      case None => len == -1 && dst.Content() == old(dst.Content()) && src.Content() == PastHeader(old(src.Content()))
      case Some(u) =>
        if |u.payload| <= INT_MAX then
          && len == |u.payload| && tag == u.tag
          && src.Content() == u.rest && dst.Content() == old(dst.Content()) + u.payload
        else
          len == -1 && dst.Content() == old(dst.Content()) && src.Content() == u.payload + u.rest
  {
    hide Flatten, Leads, AllOk, Layout, ReadHeader, PastHeader;
    ghost var s := src.Content();
    ShortHeader(s);
    len, tag := TakeHeader(src);
    ghost var h := |s| - |src.Content()|;
    if ReadHeader(s).Some? {
      CutPayload(s, ReadHeader(s).value.start, ReadHeader(s).value.len);
    }
    if len < 0 {
      if len < -1 {
        // evbuffer_add is given this length as a size_t and has no chain of that size.
        var all := src.Pullup(len);
      }
      return -1, tag;
    }
    var data := src.Pullup(len);
    var ok := dst.Add(if data.None? then [] else data.value);
    var ok' := src.Drain(len);
  }

  /** An announced length has 32 bits. */
  lemma ShortHeader(s: seq<Byte>)
    ensures ReadHeader(s).Some? ==> ReadHeader(s).value.len < MAX32
  {
    hide ReadTag, ReadInt;
    if ReadTag(s, 0).Some? {
      ShortInt(s[ReadTag(s, 0).value.count..]);
    }
  }

  lemma ShortInt(s: seq<Byte>)
    ensures ReadInt(s, 8).Some? ==> ReadInt(s, 8).value.value < MAX32
  {
    if ReadInt(s, 8).Some? {
      var n := s[0] / 16 + 1;
      NibblesBound(s, 1, n);
      Pow16Mono(n, 8);
      assert Pow16(8) == MAX32;
    }
  }

  lemma CutPayload(s: seq<Byte>, a: nat, n: nat)
    requires a + n <= |s|
    ensures s[a..][..n] == s[a..a + n] && s[a..][n..] == s[a + n..]
    ensures s[a..] == s[a..a + n] + s[a + n..]
  {
  }

  lemma DropTwice(s: seq<Byte>, a: nat, b: nat)
    requires a + b <= |s|
    ensures s[a..][b..] == s[a + b..]
  {
  }

  // ------------------------------------------------------------ many records

  /** Marshal the records one after another. */
  method MarshalAll(buf: EvBuffer, rs: seq<Tagged>)
    requires buf.Valid() && !buf.freezeEnd && AllSendable(rs) && buf.totalLen + |Stream(rs)| <= SIZE_MAX
    modifies buf`chains, buf`lwd, buf`totalLen, buf`nAdd, buf`nDel, buf`baseLen, buf`shown
    ensures buf.Valid() && buf.Content() == old(buf.Content()) + Stream(rs)
    decreases |rs|
  {
    hide Flatten, Leads, AllOk, Layout, Record;
    if rs == [] {
      assert buf.Content() + [] == buf.Content();
      return;
    }
    Marshal(buf, rs[0].tag, rs[0].payload);
    Assoc(old(buf.Content()), Record(rs[0].tag, rs[0].payload), Stream(rs[1..]));
    MarshalAll(buf, rs[1..]);
  }

  /** Unmarshal records, each into a buffer of its own, until src is empty. */
  method UnmarshalAll(src: EvBuffer) returns (rs: Option<seq<Tagged>>)
    requires src.Valid() && !src.freezeStart && src.totalLen <= SIZE_MAX
    modifies src`chains, src`lwd, src`totalLen, src`nAdd, src`nDel, src`baseLen, src`shown
    ensures src.Valid()
    ensures rs.Some? ==> rs == ReadStream(old(src.Content())) && src.Content() == []
    ensures rs.None? <==> ReadStream(old(src.Content())).None? || !AllShort(ReadStream(old(src.Content())).value)
    decreases src.totalLen
  {
    hide Flatten, Leads, AllOk, Layout, ReadRecord;
    ghost var s := src.Content();
    if src.totalLen == 0 {
      return Some([]);
    }
    var dst := new EvBuffer();
    var len, tag := Unmarshal(src, dst);
    if ReadRecord(s).Some? && ReadStream(ReadRecord(s).value.rest).Some? {
      ShortCons(Tagged(ReadRecord(s).value.tag, ReadRecord(s).value.payload), ReadStream(ReadRecord(s).value.rest).value);
    }
    if len == -1 {
      return None;
    }
    ghost var d := dst.Content();
    var n, payload := dst.Remove(dst.totalLen);
    assert d == payload + dst.Content() && |payload| == |d|;
    assert payload == d == ReadRecord(s).value.payload;
    var rest := UnmarshalAll(src);
    if rest.None? {
      return None;
    }
    return Some([Tagged(tag, payload)] + rest.value);
  }

  predicate AllShort(rs: seq<Tagged>) {
    forall i :: 0 <= i < |rs| ==> |rs[i].payload| <= INT_MAX
  }

  lemma ShortCons(r: Tagged, rs: seq<Tagged>)
    ensures AllShort([r] + rs) <==> |r.payload| <= INT_MAX && AllShort(rs)
  {
    var all := [r] + rs;
    assert all[0] == r;
    forall i | 0 <= i < |rs|
      ensures rs[i] == all[i + 1]
    {
    }
    assert forall i :: 0 < i < |all| ==> all[i] == rs[i - 1];
  }

  /** Any list of records comes back through an evbuffer, however its chains fall. */
  method ThroughBuffer(buf: EvBuffer, rs: seq<Tagged>) returns (got: Option<seq<Tagged>>)
    requires buf.Valid() && !buf.freezeEnd && !buf.freezeStart && buf.Content() == []
    requires AllSendable(rs) && |Stream(rs)| <= SIZE_MAX
    modifies buf`chains, buf`lwd, buf`totalLen, buf`nAdd, buf`nDel, buf`baseLen, buf`shown
    ensures buf.Valid() && got == Some(rs) && buf.Content() == []
  {
    hide Flatten, Leads, AllOk, Layout, Stream, ReadStream;
    MarshalAll(buf, rs);
    assert buf.Content() == Stream(rs);
    StreamRoundTrip(rs);
    got := UnmarshalAll(buf);
  }
}
