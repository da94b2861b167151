/**
  The codec that event_rpcgen.py generates for a struct, over an arbitrary schema: marshal,
  unmarshal and complete, with optional, repeated and nested entries.
 */
module RpcGen {
  import opened Bytes
  import opened Tagging

  /** What an entry holds; a struct is named by its place in the schema, so structs may
      refer to each other and to themselves. */
  datatype Type = TBytes(len: nat) | TInt | TInt64 | TString | TVarBytes | TStruct(ref: nat)

  datatype Entry = Entry(tag: nat, ty: Type, optional: bool, many: bool)

  type Schema = seq<seq<Entry>>

  datatype Value = VBytes(b: seq<Byte>) | VInt(n: nat) | VMsg(fields: seq<Slot>)

  /** The values set for an entry of a message: none or one, or any number for an array. */
  datatype Slot = Slot(vals: seq<Value>)

  // ------------------------------------------------------------ schemas and messages

  /** AddEntry refuses duplicate tags; Verify refuses optional arrays. */
  ghost predicate StructOk(es: seq<Entry>) {
    && (forall i :: 0 <= i < |es| ==> es[i].tag < MAX32 && !(es[i].optional && es[i].many))
    && (forall i, j :: 0 <= i < j < |es| ==> es[i].tag != es[j].tag)
  }

  ghost predicate SchemaOk(schema: Schema) {
    forall r :: 0 <= r < |schema| ==> StructOk(schema[r])
  }

  /** The number of values an entry may have in a complete message. */
  predicate CountOk(e: Entry, n: nat) {
    (e.many || n <= 1) && (e.many || e.optional || n == 1)
  }

  /** A complete value of the type; with cstr, strings must be C strings. */
  predicate FitsType(schema: Schema, ty: Type, v: Value, cstr: bool)
    decreases v
  {
    match ty
    case TBytes(len) => v.VBytes? && |v.b| == len
    case TInt => v.VInt? && v.n < MAX32
    case TInt64 => v.VInt? && v.n < MAX64
    case TString => v.VBytes? && (cstr ==> forall i :: 0 <= i < |v.b| ==> v.b[i] != 0)
    case TVarBytes => v.VBytes?
    case TStruct(ref) =>
      && v.VMsg? && ref < |schema| && |v.fields| == |schema[ref]|
      && (forall i :: 0 <= i < |v.fields| ==>
            && CountOk(schema[ref][i], |v.fields[i].vals|)
            && forall j :: 0 <= j < |v.fields[i].vals| ==> FitsType(schema, schema[ref][i].ty, v.fields[i].vals[j], cstr))
  }

  // ------------------------------------------------------------ marshal

  /** A record; beyond the size the format supports its form does not matter. */
  function Wire(tag: nat, payload: seq<Byte>): (r: seq<Byte>)
    ensures |payload| < |r|
  {
    if |payload| <= INT_MAX then Record(tag, payload) else TagBytes(tag) + payload
  }

  /** CodeMarshal of an entry, for one value. */
  function Marshal(schema: Schema, tag: nat, ty: Type, v: Value): seq<Byte>
    decreases v, 3
  {
    match v
    case VBytes(b) => Wire(tag, b)
    case VInt(n) => Wire(tag, if |Digits(n)| <= 16 then IntBytes(n) else [])
    case VMsg(fields) => Wire(tag, if ty.TStruct? && ty.ref < |schema| then MarshalFrom(schema, schema[ty.ref], v, 0) else [])
  }

  /** The struct's marshal function, from entry i on. */
  function MarshalFrom(schema: Schema, es: seq<Entry>, v: Value, i: nat): seq<Byte>
    requires v.VMsg?
    decreases v, 1, |v.fields| - i
  {
    if i >= |v.fields| || i >= |es| then []
    else MarshalEntry(schema, es[i], v, i, 0) + MarshalFrom(schema, es, v, i + 1)
  }

  /** The values of entry i, from the j-th on. */
  function MarshalEntry(schema: Schema, e: Entry, v: Value, i: nat, j: nat): seq<Byte>
    requires v.VMsg? && i < |v.fields|
    decreases v, 0, |v.fields[i].vals| - j
  {
    if j >= |v.fields[i].vals| then []
    else Marshal(schema, e.tag, e.ty, v.fields[i].vals[j]) + MarshalEntry(schema, e, v, i, j + 1)
  }

  // ------------------------------------------------------------ unmarshal

  /** The case of the switch that a tag selects. */
  function FindEntry(es: seq<Entry>, tag: nat): (i: nat)
    ensures i <= |es| && (i < |es| ==> es[i].tag == tag)
    ensures forall k :: 0 <= k < i ==> es[k].tag != tag
  {
    if es == [] || es[0].tag == tag then 0 else 1 + FindEntry(es[1..], tag)
  }

  predicate Complete(es: seq<Entry>, cur: seq<Slot>) {
    |cur| == |es| && forall i :: 0 <= i < |es| && !es[i].optional && !es[i].many ==> cur[i].vals != []
  }

  datatype Taken = Taken(v: Value, rest: seq<Byte>)

  /** evtag_unmarshal_int and evtag_unmarshal_int64 */
  function UnmarshalInt(tag: nat, buf: seq<Byte>, maxNibbles: nat): (r: Option<Taken>)
    ensures r.Some? ==> |r.value.rest| < |buf|
  {
    match ReadHeader(buf)
    case None => None
    case Some(h) =>
      if h.tag != tag then None
      else
        match ReadInt(buf[h.start..], maxNibbles)
        case None => None
        case Some(i) => if i.count > h.len then None else Some(Taken(VInt(i.value), buf[h.start + h.len..]))
  }

  /** CodeUnmarshal of an entry, for one value. */
  function Unmarshal(schema: Schema, tag: nat, ty: Type, buf: seq<Byte>): (r: Option<Taken>)
    ensures r.Some? ==> |r.value.rest| < |buf|
    decreases |buf|, 0
  {
    if ty.TInt? then UnmarshalInt(tag, buf, 8)
    else if ty.TInt64? then UnmarshalInt(tag, buf, 16)
    else
      match ReadRecord(buf)
      case None => None
      case Some(u) =>
        if u.tag != tag then None
        else if ty.TStruct? then
          if ty.ref >= |schema| then None
          else
            match UnmarshalFrom(schema, schema[ty.ref], Fresh(|schema[ty.ref]|), u.payload)
            case None => None
            case Some(fields) => Some(Taken(VMsg(fields), u.rest))
        else if ty.TBytes? && |u.payload| != ty.len then None
        else Some(Taken(VBytes(u.payload), u.rest))
  }

  function Fresh(n: nat): (r: seq<Slot>)
    ensures |r| == n && forall i :: 0 <= i < n ==> r[i] == Slot([])
  {
    seq(n, i => Slot([]))
  }

  /** The struct's unmarshal function, with what it has set so far. */
  function UnmarshalFrom(schema: Schema, es: seq<Entry>, cur: seq<Slot>, buf: seq<Byte>): Option<seq<Slot>>
    requires |cur| == |es|
    decreases |buf|, 1
  {
    if buf == [] then if Complete(es, cur) then Some(cur) else None
    else
      match ReadTag(buf, 0)
      case None => None
      case Some(t) =>
        var i := FindEntry(es, t.tag);
        if i == |es| || (!es[i].many && cur[i].vals != []) then None
        else
          match Unmarshal(schema, t.tag, es[i].ty, buf)
          case None => None
          case Some(x) => UnmarshalFrom(schema, es, cur[i := Slot(cur[i].vals + [x.v])], x.rest)
  }

  // ------------------------------------------------------------ what was marshalled comes back

  lemma WireIsRecord(tag: nat, payload: seq<Byte>)
    requires |Wire(tag, payload)| <= INT_MAX
    ensures |payload| <= INT_MAX && Wire(tag, payload) == Record(tag, payload)
  {
  }

  lemma IntFits(n: nat)
    ensures n < MAX32 ==> |Digits(n)| <= 8
    ensures n < MAX64 ==> |Digits(n)| <= 16
  {
    hide Digits, Pow16;
    Powers();
    if n < MAX32 {
      DigitsCount(n, 8);
    }
    if n < MAX64 {
      DigitsCount(n, 16);
    }
  }

  lemma IntComesBack(tag: nat, n: nat, rest: seq<Byte>, maxNibbles: nat)
    requires tag < MAX32 && |Digits(n)| <= maxNibbles && 1 <= maxNibbles <= 16
    ensures UnmarshalInt(tag, Record(tag, IntBytes(n)) + rest, maxNibbles) == Some(Taken(VInt(n), rest))
  {
    hide ReadHeader, ReadInt, IntBytes, Record;
    var buf := Record(tag, IntBytes(n)) + rest;
    RecordRoundTrip(tag, IntBytes(n), rest);
    var h := ReadHeader(buf).value;
    assert buf[h.start..h.start + h.len] == IntBytes(n) && buf[h.start + h.len..] == rest;
    assert buf[h.start..] == IntBytes(n) + rest by {
      assert buf[h.start..] == buf[h.start..h.start + h.len] + buf[h.start + h.len..];
    }
    IntRoundTrip(n, rest, maxNibbles);
  }

  lemma FindDistinct(es: seq<Entry>, i: nat)
    requires StructOk(es) && i < |es|
    ensures FindEntry(es, es[i].tag) == i
  {
    hide FindEntry;
    var k := FindEntry(es, es[i].tag);
    assert k <= i;
  }

  /** What has been set when everything before value j of entry i has been read. */
  ghost predicate Partial(v: Value, i: nat, j: nat, cur: seq<Slot>)
    requires v.VMsg?
  {
    && |cur| == |v.fields| && i <= |cur|
    && (forall k :: 0 <= k < i ==> cur[k] == v.fields[k])
    && (i < |cur| ==> j <= |v.fields[i].vals| && cur[i].vals == v.fields[i].vals[..j])
    && (forall k :: i < k < |cur| ==> cur[k].vals == [])
  }

  lemma PartialStep(v: Value, i: nat, j: nat, cur: seq<Slot>)
    requires v.VMsg? && Partial(v, i, j, cur) && i < |cur|
    ensures j == |v.fields[i].vals| ==> Partial(v, i + 1, 0, cur)
    ensures j < |v.fields[i].vals| ==> Partial(v, i, j + 1, cur[i := Slot(cur[i].vals + [v.fields[i].vals[j]])])
  {
    var vals := v.fields[i].vals;
    if j == |vals| {
      assert vals[..j] == vals;
      assert cur[i] == Slot(cur[i].vals) && v.fields[i] == Slot(vals);
      assert i + 1 < |cur| ==> v.fields[i + 1].vals[..0] == [];
    } else {
      assert vals[..j + 1] == vals[..j] + [vals[j]];
    }
  }

  /** The bytes that are left at that point. */
  function Tail(schema: Schema, es: seq<Entry>, v: Value, i: nat, j: nat): seq<Byte>
    requires v.VMsg? && |v.fields| == |es|
  {
    if i >= |es| then [] else MarshalEntry(schema, es[i], v, i, j) + MarshalFrom(schema, es, v, i + 1)
  }

  lemma TailStep(schema: Schema, es: seq<Entry>, v: Value, i: nat, j: nat)
    requires v.VMsg? && |v.fields| == |es| && i < |es|
    ensures j >= |v.fields[i].vals| ==> Tail(schema, es, v, i, j) == Tail(schema, es, v, i + 1, 0)
    ensures j < |v.fields[i].vals| ==>
      Tail(schema, es, v, i, j) == Marshal(schema, es[i].tag, es[i].ty, v.fields[i].vals[j]) + Tail(schema, es, v, i, j + 1)
  {
    if j < |v.fields[i].vals| {
      var m := Marshal(schema, es[i].tag, es[i].ty, v.fields[i].vals[j]);
      Assoc(m, MarshalEntry(schema, es[i], v, i, j + 1), MarshalFrom(schema, es, v, i + 1));
    }
  }

  /** A complete value of any type comes back from its marshalled form. */
  lemma {:induction false} ValueRoundTrip(schema: Schema, tag: nat, ty: Type, v: Value, rest: seq<Byte>)
    requires SchemaOk(schema) && tag < MAX32 && FitsType(schema, ty, v, true)
    requires |Marshal(schema, tag, ty, v)| <= INT_MAX
    ensures Unmarshal(schema, tag, ty, Marshal(schema, tag, ty, v) + rest) == Some(Taken(v, rest))
    ensures ReadTag(Marshal(schema, tag, ty, v) + rest, 0).Some? && ReadTag(Marshal(schema, tag, ty, v) + rest, 0).value.tag == tag
    decreases v, 3
  {
    hide ReadRecord, ReadTag, Record, Wire, IntBytes, Digits, MarshalFrom, UnmarshalFrom, UnmarshalInt;
    match v {
      case VBytes(b) =>
        WireIsRecord(tag, b);
        RecordRoundTrip(tag, b, rest);
      case VInt(n) =>
        IntFits(n);
        WireIsRecord(tag, IntBytes(n));
        RecordRoundTrip(tag, IntBytes(n), rest);
        IntComesBack(tag, n, rest, if ty.TInt? then 8 else 16);
      case VMsg(fields) =>
        var es := schema[ty.ref];
        var payload := MarshalFrom(schema, es, v, 0);
        WireIsRecord(tag, payload);
        RecordRoundTrip(tag, payload, rest);
        TailStart(schema, es, v);
        FieldsRoundTrip(schema, ty.ref, v, 0, 0, Fresh(|es|));
    }
  }

  lemma TailStart(schema: Schema, es: seq<Entry>, v: Value)
    requires v.VMsg? && |v.fields| == |es|
    ensures Tail(schema, es, v, 0, 0) == MarshalFrom(schema, es, v, 0)
    ensures Partial(v, 0, 0, Fresh(|es|))
  {
  }

  /** The loop of the struct's unmarshal function, from value j of entry i on. */
  lemma {:induction false} FieldsRoundTrip(schema: Schema, ref: nat, v: Value, i: nat, j: nat, cur: seq<Slot>)
    requires SchemaOk(schema) && FitsType(schema, TStruct(ref), v, true) && Partial(v, i, j, cur)
    requires |Tail(schema, schema[ref], v, i, j)| <= INT_MAX
    ensures UnmarshalFrom(schema, schema[ref], cur, Tail(schema, schema[ref], v, i, j)) == Some(v.fields)
    decreases v, 2, |v.fields| - i, if i < |v.fields| then |v.fields[i].vals| - j else 0
  {
    hide ReadTag, Unmarshal, Marshal, Tail, Partial, Complete, FindEntry, StructOk;
    var es := schema[ref];
    PartialLen(v, i, j, cur);
    if i == |es| {
      LastTail(schema, es, v, i, j, cur);
    } else {
      PartialStep(v, i, j, cur);
      TailStep(schema, es, v, i, j);
      PartialAt(v, i, j, cur);
      if j == |v.fields[i].vals| {
        FieldsRoundTrip(schema, ref, v, i + 1, 0, cur);
      } else {
        var x, rest := v.fields[i].vals[j], Tail(schema, es, v, i, j + 1);
        TagsSmall(es, i);
        ValueRoundTrip(schema, es[i].tag, es[i].ty, x, rest);
        FindDistinct(es, i);
        FieldsRoundTrip(schema, ref, v, i, j + 1, cur[i := Slot(cur[i].vals + [x])]);
      }
    }
  }

  lemma TagsSmall(es: seq<Entry>, i: nat)
    requires StructOk(es) && i < |es|
    ensures es[i].tag < MAX32
  {
  }

  lemma PartialLen(v: Value, i: nat, j: nat, cur: seq<Slot>)
    requires v.VMsg? && Partial(v, i, j, cur)
    ensures |cur| == |v.fields| && i <= |cur|
  {
  }

  lemma PartialAt(v: Value, i: nat, j: nat, cur: seq<Slot>)
    requires v.VMsg? && Partial(v, i, j, cur) && i < |cur|
    ensures |cur| == |v.fields| && j <= |v.fields[i].vals| && |cur[i].vals| == j
  {
  }

  lemma LastTail(schema: Schema, es: seq<Entry>, v: Value, i: nat, j: nat, cur: seq<Slot>)
    requires v.VMsg? && |v.fields| == |es| == i && Partial(v, i, j, cur)
    requires forall k :: 0 <= k < |es| ==> CountOk(es[k], |v.fields[k].vals|)
    ensures Tail(schema, es, v, i, j) == [] && cur == v.fields && Complete(es, cur)
  {
  }

  /** unmarshal(marshal(m)) == m for every complete message of every schema. */
  lemma MessageRoundTrip(schema: Schema, ref: nat, v: Value)
    requires SchemaOk(schema) && FitsType(schema, TStruct(ref), v, true)
    requires |MarshalFrom(schema, schema[ref], v, 0)| <= INT_MAX
    ensures UnmarshalFrom(schema, schema[ref], Fresh(|schema[ref]|), MarshalFrom(schema, schema[ref], v, 0)) == Some(v.fields)
  {
    hide MarshalFrom, UnmarshalFrom, Tail;
    TailStart(schema, schema[ref], v);
    FieldsRoundTrip(schema, ref, v, 0, 0, Fresh(|schema[ref]|));
  }

  // ------------------------------------------------------------ what is accepted is complete

  lemma IntInRange(tag: nat, buf: seq<Byte>, maxNibbles: nat)
    requires UnmarshalInt(tag, buf, maxNibbles).Some?
    ensures var v := UnmarshalInt(tag, buf, maxNibbles).value.v; v.VInt? && v.n < Pow16(maxNibbles)
  {
    hide ReadHeader, Pow16;
    var s := buf[ReadHeader(buf).value.start..];
    var n := s[0] / 16 + 1;
    NibblesBound(s, 1, n);
    Pow16Mono(n, maxNibbles);
  }

  /** The values taken so far fit their entries. */
  ghost predicate FitSoFar(schema: Schema, es: seq<Entry>, cur: seq<Slot>) {
    && |cur| == |es|
    && (forall i :: 0 <= i < |es| ==> es[i].many || |cur[i].vals| <= 1)
    && (forall i, j :: 0 <= i < |es| && 0 <= j < |cur[i].vals| ==> FitsType(schema, es[i].ty, cur[i].vals[j], false))
  }

  lemma FitMore(schema: Schema, es: seq<Entry>, cur: seq<Slot>, i: nat, v: Value)
    requires FitSoFar(schema, es, cur) && i < |es| && FitsType(schema, es[i].ty, v, false)
    requires es[i].many || cur[i].vals == []
    ensures FitSoFar(schema, es, cur[i := Slot(cur[i].vals + [v])])
  {
    hide FitsType;
  }

  lemma FitAll(schema: Schema, ref: nat, cur: seq<Slot>)
    requires ref < |schema| && FitSoFar(schema, schema[ref], cur) && Complete(schema[ref], cur)
    ensures FitsType(schema, TStruct(ref), VMsg(cur), false)
  {
  }

  /** Whatever unmarshal accepts is a complete value of the type. */
  lemma {:induction false} AcceptsOnlyComplete(schema: Schema, tag: nat, ty: Type, buf: seq<Byte>)
    requires Unmarshal(schema, tag, ty, buf).Some?
    ensures FitsType(schema, ty, Unmarshal(schema, tag, ty, buf).value.v, false)
    decreases |buf|, 0
  {
    hide ReadRecord, UnmarshalFrom, UnmarshalInt, FitSoFar, Complete, Pow16;
    if ty.TInt? || ty.TInt64? {
      IntInRange(tag, buf, if ty.TInt? then 8 else 16);
      Powers();
    } else if ty.TStruct? {
      var es, payload := schema[ty.ref], ReadRecord(buf).value.payload;
      NoneYet(schema, es);
      StructAccepts(schema, es, Fresh(|es|), payload);
      FitAll(schema, ty.ref, UnmarshalFrom(schema, es, Fresh(|es|), payload).value);
    }
  }

  lemma Powers()
    ensures Pow16(8) == MAX32 && Pow16(16) == MAX64
  {
    assert Pow16(8) == MAX32;
    assert Pow16(12) == 0x1_0000_0000_0000;
  }

  lemma NoneYet(schema: Schema, es: seq<Entry>)
    ensures FitSoFar(schema, es, Fresh(|es|))
  {
  }

  lemma {:induction false} StructAccepts(schema: Schema, es: seq<Entry>, cur: seq<Slot>, buf: seq<Byte>)
    requires FitSoFar(schema, es, cur) && |cur| == |es| && UnmarshalFrom(schema, es, cur, buf).Some?
    ensures FitSoFar(schema, es, UnmarshalFrom(schema, es, cur, buf).value)
    ensures Complete(es, UnmarshalFrom(schema, es, cur, buf).value)
    decreases |buf|, 1
  {
    hide ReadTag, Unmarshal, FitSoFar, Complete, FitsType, FindEntry;
    if buf != [] {
      var t := ReadTag(buf, 0).value;
      var i := FindEntry(es, t.tag);
      var x := Unmarshal(schema, t.tag, es[i].ty, buf).value;
      AcceptsOnlyComplete(schema, t.tag, es[i].ty, buf);
      FitMore(schema, es, cur, i, x.v);
      StructAccepts(schema, es, cur[i := Slot(cur[i].vals + [x.v])], x.rest);
    }
  }

  // ------------------------------------------------------------ no record is passed over

  /** The tags of the records that buf consists of, up to the first that cannot be read. */
  function RecordTags(buf: seq<Byte>): seq<nat>
    decreases |buf|
  {
    match ReadRecord(buf)
    case None => []
    case Some(u) => [u.tag] + RecordTags(u.rest)
  }

  /** How many of the tags select entry i. */
  function CountFor(es: seq<Entry>, tags: seq<nat>, i: nat): nat {
    if tags == [] then 0 else (if FindEntry(es, tags[0]) == i then 1 else 0) + CountFor(es, tags[1..], i)
  }

  /** Unmarshalling a value takes one record. */
  lemma TakesRecord(schema: Schema, tag: nat, ty: Type, buf: seq<Byte>)
    requires Unmarshal(schema, tag, ty, buf).Some?
    ensures ReadRecord(buf).Some? && ReadRecord(buf).value.tag == tag && ReadRecord(buf).value.rest == Unmarshal(schema, tag, ty, buf).value.rest
  {
    hide ReadHeader, ReadInt, UnmarshalFrom;
  }

  /** Every record of an accepted message has a known tag, and every entry has one value for
      each record with its tag: no record is passed over. */
  lemma {:induction false} RecordsTaken(schema: Schema, es: seq<Entry>, cur: seq<Slot>, buf: seq<Byte>)
    requires |cur| == |es| && UnmarshalFrom(schema, es, cur, buf).Some?
    ensures forall t :: t in RecordTags(buf) ==> FindEntry(es, t) < |es|
    ensures var r := UnmarshalFrom(schema, es, cur, buf).value;
      |r| == |es| && forall i :: 0 <= i < |es| ==> |r[i].vals| == |cur[i].vals| + CountFor(es, RecordTags(buf), i)
    decreases |buf|
  {
    hide ReadTag, ReadRecord, Unmarshal, FindEntry, Complete;
    if buf == [] {
      EmptyEnds(es);
    } else {
      var t := ReadTag(buf, 0).value;
      var k := FindEntry(es, t.tag);
      var x := Unmarshal(schema, t.tag, es[k].ty, buf).value;
      TakesRecord(schema, t.tag, es[k].ty, buf);
      RecordsTaken(schema, es, cur[k := Slot(cur[k].vals + [x.v])], x.rest);
      assert RecordTags(buf)[1..] == RecordTags(x.rest);
    }
  }

  lemma EmptyEnds(es: seq<Entry>)
    ensures RecordTags([]) == []
  {
  }

  /** The default case of the switch: a message with an unknown tag is rejected. */
  lemma UnknownTag(schema: Schema, es: seq<Entry>, cur: seq<Slot>, buf: seq<Byte>, tag: nat)
    requires |cur| == |es| && tag in RecordTags(buf) && forall i :: 0 <= i < |es| ==> es[i].tag != tag
    ensures UnmarshalFrom(schema, es, cur, buf).None?
  {
    hide RecordTags, UnmarshalFrom;
    if UnmarshalFrom(schema, es, cur, buf).Some? {
      RecordsTaken(schema, es, cur, buf);
    }
  }
}
