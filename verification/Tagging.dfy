/**
  The tagged wire format of event_tagging.c: tags in base 128, integers in nibbles, and
  length-delimited records.
 */
module Tagging {
  import opened Bytes

  const MAX32: nat := 0x1_0000_0000
  const MAX64: nat := 0x1_0000_0000_0000_0000

  // ------------------------------------------------------------ tags

  /** Seven bits a byte, the low ones first, the high bit saying that more follow. */
  function TagBytes(tag: nat): seq<Byte> {
    if tag < 128 then [tag] else [128 + tag % 128] + TagBytes(tag / 128)
  }

  /** What is left of a 32-bit tag after i bytes. */
  function TagCap(i: nat): nat {
    if i == 0 then 0x1_0000_0000
    else if i == 1 then 0x200_0000
    else if i == 2 then 0x4_0000
    else if i == 3 then 0x800
    else if i == 4 then 16
    else 0
  }

  /** A tag and the number of bytes it took. */
  datatype TagRead = TagRead(tag: nat, count: nat)

  /** The tag at the front of s, whose first byte is the i-th of the tag. */
  function ReadTag(s: seq<Byte>, i: nat): (r: Option<TagRead>)
    ensures r.Some? ==> 0 < r.value.count <= |s| && r.value.tag < TagCap(i)
    decreases |s|
  {
    if s == [] || i > 4 || (i == 4 && s[0] % 128 > 15) then None
    else if s[0] < 128 then Some(TagRead(s[0], 1))
    else
      match ReadTag(s[1..], i + 1)
      case None => None
      case Some(t) => Some(TagRead(s[0] % 128 + 128 * t.tag, t.count + 1))
  }

  lemma {:induction false} TagRoundTrip(tag: nat, rest: seq<Byte>, i: nat)
    requires tag < TagCap(i)
    ensures ReadTag(TagBytes(tag) + rest, i) == Some(TagRead(tag, |TagBytes(tag)|))
    decreases tag
  {
    var s := TagBytes(tag) + rest;
    if tag >= 128 {
      assert s[0] == 128 + tag % 128;
      assert s[1..] == TagBytes(tag / 128) + rest;
      TagRoundTrip(tag / 128, rest, i + 1);
    } else {
      assert s[0] == tag;
    }
  }

  /** No strict prefix of a tag is a tag. */
  lemma {:induction false} TagPrefix(tag: nat, k: nat, i: nat)
    requires k < |TagBytes(tag)|
    ensures ReadTag(TagBytes(tag)[..k], i) == None
    decreases tag
  {
    if k > 0 {
      var s := TagBytes(tag)[..k];
      assert s[1..] == TagBytes(tag / 128)[..k - 1];
      TagPrefix(tag / 128, k - 1, i + 1);
    }
  }

  /** evtag_encode_tag */
  method EncodeTag(tag: nat) returns (data: seq<Byte>)
    ensures data == TagBytes(tag)
  {
    data := [];
    var t := tag;
    while true
      invariant data + TagBytes(t) == TagBytes(tag)
      decreases t
    {
      var lower: Byte := t % 128;
      ghost var was := t;
      t := t / 128;
      if t > 0 {
        lower := lower + 128;
      }
      assert t > 0 ==> TagBytes(was) == [lower] + TagBytes(t);
      assert t == 0 ==> TagBytes(was) == [lower];
      assert t > 0 ==> data + TagBytes(was) == data + [lower] + TagBytes(t);
      data := data + [lower];
      if t == 0 {
        return;
      }
    }
  }

  function Shift(i: nat): nat {
    if i == 0 then 1 else 128 * Shift(i - 1)
  }

  /** t << (7 * i) */
  function Shifted(t: nat, i: nat): nat {
    Shift(i) * t
  }

  lemma ShiftStep(low: nat, t: nat, i: nat)
    ensures Shifted(low + 128 * t, i) == Shifted(low, i) + Shifted(t, i + 1)
  {
  }

  /** What remains to be read, with what has been read, is the tag. */
  ghost predicate TagProgress(s: seq<Byte>, count: nat, number: nat) {
    && count <= |s|
    && match ReadTag(s[count..], count)
       case None => ReadTag(s, 0) == None
       case Some(t) => ReadTag(s, 0) == Some(TagRead(number + Shifted(t.tag, count), count + t.count))
  }

  /** The same of the two readings alone. */
  ghost predicate Ahead(goal: Option<TagRead>, here: Option<TagRead>, number: nat, count: nat) {
    match here
    case None => goal == None
    case Some(t) => goal == Some(TagRead(number + Shifted(t.tag, count), count + t.count))
  }

  lemma AheadNow(s: seq<Byte>, count: nat, number: nat)
    requires count <= |s|
    ensures TagProgress(s, count, number) <==> Ahead(ReadTag(s, 0), ReadTag(s[count..], count), number, count)
  {
    hide ReadTag, Shifted;
  }

  lemma AheadNone(goal: Option<TagRead>, number: nat, count: nat)
    requires Ahead(goal, None, number, count)
    ensures goal == None
  {
  }

  lemma AheadStep(goal: Option<TagRead>, rest: Option<TagRead>, low: nat, more: bool, number: nat, count: nat)
    requires Ahead(goal, if !more then Some(TagRead(low, 1)) else Longer(low, rest), number, count)
    ensures !more ==> goal == Some(TagRead(number + Shifted(low, count), count + 1))
    ensures more ==> Ahead(goal, rest, number + Shifted(low, count), count + 1)
  {
    hide Shifted;
    if more && rest.Some? {
      ShiftStep(low, rest.value.tag, count);
    }
  }

  function Longer(low: nat, rest: Option<TagRead>): Option<TagRead> {
    match rest
    case None => None
    case Some(t) => Some(TagRead(low + 128 * t.tag, t.count + 1))
  }

  lemma TagStart(s: seq<Byte>)
    ensures TagProgress(s, 0, 0)
  {
    assert s[0..] == s;
  }

  lemma TagStep(s: seq<Byte>, count: nat, number: nat)
    requires TagProgress(s, count, number) && count < |s|
    ensures count > 4 || (count == 4 && s[count] % 128 > 15) ==> ReadTag(s, 0) == None
    ensures count < 4 || (count == 4 && s[count] % 128 <= 15) ==>
      var number' := number + Shifted(s[count] % 128, count);
      if s[count] < 128 then ReadTag(s, 0) == Some(TagRead(number', count + 1))
      else TagProgress(s, count + 1, number')
  {
    hide Shifted, ReadTag, Ahead;
    AheadNow(s, count, number);
    ReadTagOf(s, count);
    if count < 4 || (count == 4 && s[count] % 128 <= 15) {
      AheadStep(ReadTag(s, 0), ReadTag(s[count + 1..], count + 1), s[count] % 128, s[count] >= 128, number, count);
      AheadNow(s, count + 1, number + Shifted(s[count] % 128, count));
    } else {
      AheadNone(ReadTag(s, 0), number, count);
    }
  }

  /** One step of ReadTag, at position i. */
  lemma ReadTagOf(s: seq<Byte>, i: nat)
    requires i < |s|
    ensures i > 4 || (i == 4 && s[i] % 128 > 15) ==> ReadTag(s[i..], i) == None
    ensures i < 4 || (i == 4 && s[i] % 128 <= 15) ==>
      ReadTag(s[i..], i) ==
        if s[i] < 128 then Some(TagRead(s[i] % 128, 1)) else Longer(s[i] % 128, ReadTag(s[i + 1..], i + 1))
  {
    assert s[i..][0] == s[i] && s[i..][1..] == s[i + 1..];
  }

  lemma TagStop(s: seq<Byte>, number: nat)
    requires TagProgress(s, |s|, number)
    ensures ReadTag(s, 0) == None
  {
    assert s[|s|..] == [];
  }

  /** Five bytes of a tag that say that more follow. */
  predicate FiveGoOn(s: seq<Byte>) {
    |s| >= 5 && (forall i :: 0 <= i < 5 ==> s[i] >= 128) && s[4] % 128 <= 15
  }

  /** decode_tag_internal without the draining; loads is how many bytes it looks at.  It
      looks at a sixth one, only to reject the tag, exactly when the first five all go on
      and there is one. */
  method DecodeTag(s: seq<Byte>) returns (r: Option<TagRead>, loads: nat)
    ensures r == ReadTag(s, 0) && loads <= |s|
    ensures r.Some? ==> loads == r.value.count
    ensures loads > 5 <==> FiveGoOn(s) && |s| > 5
    ensures loads > 5 ==> loads == 6 && r == None
  {
    hide TagProgress, ReadTag, Shifted;
    var number: nat, count: nat := 0, 0;
    loads := 0;
    TagStart(s);
    while count < |s|
      invariant loads == count <= |s| && count <= 5 && TagProgress(s, count, number)
      invariant forall i :: 0 <= i < count ==> s[i] >= 128
      invariant count == 5 ==> s[4] % 128 <= 15
    {
      var lower := s[count];
      loads := count + 1;
      TagStep(s, count, number);
      if count >= 4 {
        if count > 4 || lower % 128 > 15 {
          return None, loads;
        }
      }
      number := number + Shifted(lower % 128, count);
      count := count + 1;
      if lower < 128 {
        return Some(TagRead(number, count)), loads;
      }
    }
    TagStop(s, number);
    return None, loads;
  }

  // ------------------------------------------------------------ integers

  /** The base-16 digits of x, the low ones first. */
  function Digits(x: nat): (d: seq<nat>)
    ensures forall i :: 0 <= i < |d| ==> d[i] < 16
  {
    if x == 0 then [] else [x % 16] + Digits(x / 16)
  }

  function Value(d: seq<nat>): nat {
    if d == [] then 0 else d[0] + 16 * Value(d[1..])
  }

  lemma {:induction false} DigitsValue(x: nat)
    ensures Value(Digits(x)) == x
  {
    if x > 0 {
      DigitsValue(x / 16);
      assert Digits(x)[1..] == Digits(x / 16);
    }
  }

  function Pow16(n: nat): nat {
    if n == 0 then 1 else 16 * Pow16(n - 1)
  }

  lemma {:induction false} DigitsCount(x: nat, n: nat)
    requires x < Pow16(n)
    ensures |Digits(x)| <= n
  {
    if x > 0 {
      DigitsCount(x / 16, n - 1);
    }
  }

  /** Two nibbles a byte, the first one high, with a zero for padding. */
  function Pack(ns: seq<nat>): (s: seq<Byte>)
    requires forall i :: 0 <= i < |ns| ==> ns[i] < 16
    ensures |s| == (|ns| + 1) / 2
  {
    if ns == [] then []
    else if |ns| == 1 then [16 * ns[0]]
    else [16 * ns[0] + ns[1]] + Pack(ns[2..])
  }

  /** Nibble p of s, counting from the high half of the first byte. */
  function NibbleAt(s: seq<Byte>, p: nat): nat
    requires p / 2 < |s|
  {
    if p % 2 == 0 then s[p / 2] / 16 else s[p / 2] % 16
  }

  lemma {:induction false} PackNibble(ns: seq<nat>, p: nat)
    requires forall i :: 0 <= i < |ns| ==> ns[i] < 16
    requires p / 2 < (|ns| + 1) / 2
    ensures NibbleAt(Pack(ns), p) == if p < |ns| then ns[p] else 0
  {
    if p >= 2 {
      PackNibble(ns[2..], p - 2);
      assert Pack(ns)[p / 2] == Pack(ns[2..])[(p - 2) / 2];
    }
  }

  /** encode_int_internal: how many nibbles, less one, then the nibbles. */
  function IntBytes(x: nat): (s: seq<Byte>)
    requires |Digits(x)| <= 16
    ensures 0 < |s| <= 9
  {
    Pack([IntHead(x)] + Digits(x))
  }

  function IntHead(x: nat): nat
    requires |Digits(x)| <= 16
  {
    if |Digits(x)| > 0 then |Digits(x)| - 1 else 0
  }

  datatype IntRead = IntRead(value: nat, count: nat)

  /** Nibbles p to n of s as a number, nibble p the lowest. */
  function NibbleValue(s: seq<Byte>, p: nat, n: nat): nat
    requires n / 2 < |s|
    decreases n - p
  {
    if p > n then 0 else NibbleAt(s, p) + 16 * NibbleValue(s, p + 1, n)
  }

  lemma {:induction false} NibblesBound(s: seq<Byte>, p: nat, n: nat)
    requires n / 2 < |s| && p <= n + 1
    ensures NibbleValue(s, p, n) < Pow16(n + 1 - p)
    decreases n - p
  {
    if p <= n {
      NibblesBound(s, p + 1, n);
    }
  }

  lemma {:induction false} Pow16Mono(a: nat, b: nat)
    requires a <= b
    ensures 0 < Pow16(a) <= Pow16(b)
    decreases b - a, a
  {
    if a < b {
      Pow16Mono(a, b - 1);
    } else if a > 0 {
      Pow16Mono(a - 1, a - 1);
    }
  }

  /** decode_int_internal: the integer at the front of s, of at most maxNibbles. */
  function ReadInt(s: seq<Byte>, maxNibbles: nat): (r: Option<IntRead>)
    ensures r.Some? ==> 0 < r.value.count <= |s|
  {
    if s == [] then None
    else
      var n := s[0] / 16 + 1;
      if n > maxNibbles || n / 2 + 1 > |s| then None
      else Some(IntRead(NibbleValue(s, 1, n), n / 2 + 1))
  }

  lemma {:induction false} NibblesAre(s: seq<Byte>, d: seq<nat>, p: nat)
    requires (p + |d| - 1) / 2 < |s| && p >= 1
    requires forall i :: 0 <= i < |d| ==> (p + i) / 2 < |s| && NibbleAt(s, p + i) == d[i]
    ensures NibbleValue(s, p, p + |d| - 1) == Value(d)
    decreases |d|
  {
    if d != [] {
      assert NibbleAt(s, p) == d[0] by {
        assert NibbleAt(s, p + 0) == d[0];
      }
      forall i | 0 <= i < |d| - 1
        ensures NibbleAt(s, p + 1 + i) == d[1..][i]
      {
        assert NibbleAt(s, p + (i + 1)) == d[i + 1];
      }
      NibblesAre(s, d[1..], p + 1);
    }
  }

  /** An encoded integer is read back, whatever follows it. */
  lemma IntRoundTrip(x: nat, rest: seq<Byte>, maxNibbles: nat)
    requires |Digits(x)| <= maxNibbles && 1 <= maxNibbles <= 16
    ensures ReadInt(IntBytes(x) + rest, maxNibbles) == Some(IntRead(x, |IntBytes(x)|))
  {
    hide Digits, Pack, NibbleValue, Value;
    var d := Digits(x);
    var ns := [IntHead(x)] + d;
    var b := Pack(ns);
    var s := b + rest;
    PackedAt(ns, rest, 0);
    DigitsValue(x);
    if d == [] {
      PackedAt(ns, rest, 1);
      ZeroInt(s, x);
    } else {
      forall i | 0 <= i < |d|
        ensures (1 + i) / 2 < |s| && NibbleAt(s, 1 + i) == d[i]
      {
        PackedAt(ns, rest, 1 + i);
      }
      NibblesAre(s, d, 1);
    }
  }

  lemma PackedAt(ns: seq<nat>, rest: seq<Byte>, p: nat)
    requires forall i :: 0 <= i < |ns| ==> ns[i] < 16
    requires p / 2 < (|ns| + 1) / 2
    ensures NibbleAt(Pack(ns) + rest, p) == if p < |ns| then ns[p] else 0
  {
    PackNibble(ns, p);
  }

  lemma ZeroInt(s: seq<Byte>, x: nat)
    requires s != [] && NibbleAt(s, 1) == 0 && Value(Digits(x)) == x && Digits(x) == []
    ensures NibbleValue(s, 1, 1) == x
  {
    assert NibbleValue(s, 2, 1) == 0;
  }

  /** No strict prefix of an encoded integer is one. */
  lemma IntPrefix(x: nat, k: nat, maxNibbles: nat)
    requires |Digits(x)| <= 16 && k < |IntBytes(x)|
    ensures ReadInt(IntBytes(x)[..k], maxNibbles) == None
  {
    if k > 0 {
      hide Digits;
      var ns := [IntHead(x)] + Digits(x);
      PackNibble(ns, 0);
    }
  }

  function SetNibble(s: seq<Byte>, p: nat, v: nat): (r: seq<Byte>)
    requires p / 2 < |s| && v < 16
    ensures |r| == |s|
  {
    s[p / 2 := if p % 2 == 1 then s[p / 2] / 16 * 16 + v else s[p / 2] % 16 + v * 16]
  }

  lemma SetNibbleAt(s: seq<Byte>, p: nat, v: nat, q: nat)
    requires p / 2 < |s| && v < 16 && q / 2 < |s|
    ensures NibbleAt(SetNibble(s, p, v), q) == if q == p then v else NibbleAt(s, q)
  {
  }

  lemma SameNibbles(a: seq<Byte>, b: seq<Byte>)
    requires |a| == |b| && forall p: nat :: p / 2 < |a| ==> NibbleAt(a, p) == NibbleAt(b, p)
    ensures a == b
  {
    forall i | 0 <= i < |a|
      ensures a[i] == b[i]
    {
      assert NibbleAt(a, 2 * i) == NibbleAt(b, 2 * i) && NibbleAt(a, 2 * i + 1) == NibbleAt(b, 2 * i + 1);
    }
  }

  /** The array while encode_int_internal fills it: the first digits are in place. */
  ghost predicate Filled(data: seq<Byte>, d: seq<nat>, off: nat) {
    && 1 <= off <= |d| + 1 && off <= 2 * |data| && |d| < 2 * |data|
    && (forall p: nat :: p / 2 < |data| ==> NibbleAt(data, p) == if 1 <= p < off then d[p - 1] else 0)
  }

  lemma FillStep(data: seq<Byte>, d: seq<nat>, off: nat)
    requires Filled(data, d, off) && off <= |d| && d[off - 1] < 16
    ensures off / 2 < |data| && Filled(SetNibble(data, off, d[off - 1]), d, off + 1)
  {
    hide NibbleAt, SetNibble;
    var data' := SetNibble(data, off, d[off - 1]);
    forall p: nat | p / 2 < |data'|
      ensures NibbleAt(data', p) == if 1 <= p < off + 1 then d[p - 1] else 0
    {
      SetNibbleAt(data, off, d[off - 1], p);
    }
  }

  lemma FillEnd(data: seq<Byte>, x: nat, size: nat)
    requires |Digits(x)| <= 16 && Filled(data, Digits(x), |Digits(x)| + 1)
    ensures var n := (|Digits(x)| + 2) / 2;
      n <= |data| && SetNibble(data, 0, IntHead(x))[..n] == IntBytes(x)
  {
    hide Digits, Pack, NibbleAt, SetNibble;
    var d := Digits(x);
    var n, ns := (|d| + 2) / 2, [IntHead(x)] + d;
    var a, b := SetNibble(data, 0, IntHead(x)), Pack(ns);
    forall p: nat | p / 2 < n
      ensures NibbleAt(a[..n], p) == NibbleAt(b, p)
    {
      SetNibbleAt(data, 0, IntHead(x), p);
      PackNibble(ns, p);
      NibblePrefix(a, n, p);
    }
    SameNibbles(a[..n], b);
  }

  lemma NibblePrefix(a: seq<Byte>, n: nat, p: nat)
    requires n <= |a| && p / 2 < n
    ensures NibbleAt(a[..n], p) == NibbleAt(a, p)
  {
  }

  lemma FillStart(d: seq<nat>, data: seq<Byte>)
    requires |d| < 2 * |data| && forall i :: 0 <= i < |data| ==> data[i] == 0
    ensures Filled(data, d, 1)
  {
  }

  lemma DigitsFirst(x: nat)
    requires x > 0
    ensures Digits(x) != [] && Digits(x)[0] == x % 16 && Digits(x)[1..] == Digits(x / 16)
  {
  }

  lemma DigitsNone(x: nat)
    ensures Digits(x) == [] <==> x == 0
  {
  }

  /** ENCODE_INT_INTERNAL for an integer of the given size in bytes. */
  method EncodeInt(number: nat, size: nat) returns (r: seq<Byte>)
    requires 1 <= size <= 8 && number < Pow16(2 * size)
    ensures |Digits(number)| <= 2 * size && r == IntBytes(number)
  {
    hide Digits, Filled, SetNibble, Pow16, IntBytes;
    DigitsCount(number, 2 * size);
    ghost var d := Digits(number);
    var data: seq<Byte> := seq(size + 1, i => 0);
    var off, x := 1, number;
    FillStart(d, data);
    while x > 0
      invariant 1 <= off <= |d| + 1 && Digits(x) == d[off - 1..] && |data| == size + 1 && Filled(data, d, off)
      decreases |d| - off
    {
      DigitsFirst(x);
      FillStep(data, d, off);
      data := SetNibble(data, off, x % 16);
      x := x / 16;
      off := off + 1;
    }
    DigitsNone(x);
    FillEnd(data, number, size);
    var nibbles := if off > 2 then off - 2 else 0;
    r := SetNibble(data, 0, nibbles)[..(off + 1) / 2];
  }

  /** DECODE_INT_INTERNAL */
  method DecodeInt(s: seq<Byte>, maxNibbles: nat) returns (r: Option<IntRead>)
    ensures r == ReadInt(s, maxNibbles)
  {
    if s == [] {
      return None;
    }
    var nibbles: nat := s[0] / 16 + 1;
    if nibbles > maxNibbles || nibbles / 2 + 1 > |s| {
      return None;
    }
    var len, number := nibbles / 2 + 1, 0;
    ghost var n := nibbles;
    while nibbles > 0
      invariant nibbles <= n && number == NibbleValue(s, nibbles + 1, n)
    {
      number := number * 16 + NibbleAt(s, nibbles);
      nibbles := nibbles - 1;
    }
    return Some(IntRead(number, len));
  }

  // ------------------------------------------------------------ records

  lemma LengthFits(n: nat)
    requires n <= INT_MAX
    ensures |Digits(n)| <= 8
  {
    assert Pow16(8) == 0x1_0000_0000;
    DigitsCount(n, 8);
  }

  /** evtag_marshal: tag, length, payload. */
  function Record(tag: nat, payload: seq<Byte>): (r: seq<Byte>)
    requires |payload| <= INT_MAX
    ensures |payload| < |r|
  {
    LengthFits(|payload|);
    TagBytes(tag) + IntBytes(|payload|) + payload
  }

  /** A tag, the length of its payload, and where the payload starts. */
  datatype Header = Header(tag: nat, len: nat, start: nat)

  /** evtag_unmarshal_header */
  function ReadHeader(s: seq<Byte>): (r: Option<Header>)
    ensures r.Some? ==> 0 < r.value.start && r.value.start + r.value.len <= |s|
  {
    match ReadTag(s, 0)
    case None => None
    case Some(t) =>
      match ReadInt(s[t.count..], 8)
      case None => None
      case Some(i) =>
        if |s| - (t.count + i.count) < i.value then None else Some(Header(t.tag, i.value, t.count + i.count))
  }

  datatype Unpacked = Unpacked(tag: nat, payload: seq<Byte>, rest: seq<Byte>)

  /** evtag_unmarshal: the first record of s and what follows it. */
  function ReadRecord(s: seq<Byte>): (r: Option<Unpacked>)
    ensures r.Some? ==> |r.value.payload| + |r.value.rest| < |s|
  {
    match ReadHeader(s)
    case None => None
    case Some(h) => Some(Unpacked(h.tag, s[h.start..h.start + h.len], s[h.start + h.len..]))
  }

  /** A record is read back, whatever follows it. */
  lemma RecordRoundTrip(tag: nat, payload: seq<Byte>, rest: seq<Byte>)
    requires tag < MAX32 && |payload| <= INT_MAX
    ensures ReadRecord(Record(tag, payload) + rest) == Some(Unpacked(tag, payload, rest))
    ensures ReadTag(Record(tag, payload) + rest, 0) == Some(TagRead(tag, |TagBytes(tag)|))
  {
    hide ReadTag, ReadInt, TagBytes, IntBytes;
    LengthFits(|payload|);
    var t, l := TagBytes(tag), IntBytes(|payload|);
    var s := Record(tag, payload) + rest;
    assert s == t + (l + (payload + rest));
    TagRoundTrip(tag, l + (payload + rest), 0);
    IntRoundTrip(|payload|, payload + rest, 8);
    assert s[|t|..] == l + (payload + rest);
    assert s[|t| + |l|..] == payload + rest;
    assert s[|t| + |l|..|t| + |l| + |payload|] == payload;
    assert s[|t| + |l| + |payload|..] == rest;
  }

  /** Every strict prefix of a record is rejected. */
  lemma RecordPrefix(tag: nat, payload: seq<Byte>, k: nat)
    requires tag < MAX32 && |payload| <= INT_MAX && k < |Record(tag, payload)|
    ensures ReadHeader(Record(tag, payload)[..k]) == None
  {
    hide ReadTag, ReadInt, TagBytes, IntBytes;
    LengthFits(|payload|);
    var t, l := TagBytes(tag), IntBytes(|payload|);
    var s := Record(tag, payload)[..k];
    if k < |t| {
      assert s == t[..k];
      TagPrefix(tag, k, 0);
    } else {
      assert s == t + s[|t|..];
      TagRoundTrip(tag, s[|t|..], 0);
      if k < |t| + |l| {
        assert s[|t|..] == l[..k - |t|];
        IntPrefix(|payload|, k - |t|, 8);
      } else {
        assert s[|t|..] == l + payload[..k - |t| - |l|];
        IntRoundTrip(|payload|, payload[..k - |t| - |l|], 8);
      }
    }
  }

  datatype Tagged = Tagged(tag: nat, payload: seq<Byte>)

  predicate Sendable(r: Tagged) {
    r.tag < MAX32 && |r.payload| <= INT_MAX
  }

  predicate AllSendable(rs: seq<Tagged>) {
    forall i :: 0 <= i < |rs| ==> Sendable(rs[i])
  }

  /** Records one after another. */
  function Stream(rs: seq<Tagged>): seq<Byte>
    requires AllSendable(rs)
  {
    if rs == [] then [] else Record(rs[0].tag, rs[0].payload) + Stream(rs[1..])
  }

  /** Unmarshal until the buffer is empty. */
  function ReadStream(s: seq<Byte>): Option<seq<Tagged>>
    decreases |s|
  {
    if s == [] then Some([])
    else
      match ReadRecord(s)
      case None => None
      case Some(u) =>
        match ReadStream(u.rest)
        case None => None
        case Some(rs) => Some([Tagged(u.tag, u.payload)] + rs)
  }

  /** Any list of records comes back as it was sent. */
  lemma {:induction false} StreamRoundTrip(rs: seq<Tagged>)
    requires AllSendable(rs)
    ensures ReadStream(Stream(rs)) == Some(rs)
  {
    if rs != [] {
      hide ReadRecord, Record;
      RecordRoundTrip(rs[0].tag, rs[0].payload, Stream(rs[1..]));
      StreamRoundTrip(rs[1..]);
      assert [Tagged(rs[0].tag, rs[0].payload)] + rs[1..] == rs;
    }
  }
}
