/**
  Domain names on the wire (sections 2.3.4 and 4.1.4 of RFC 1035): dnsname_to_labels with
  its compression table, and name_parse.
 */
module DnsNames {
  import opened Bytes

  const DOT: Byte := 46
  const MAX_LABELS: nat := 128
  const MAX_LABEL: nat := 63
  const MAX_NAME: nat := 255
  /** A compression pointer holds fourteen bits. */
  const PTR_LIMIT: nat := 0x4000

  type Name = seq<Byte>

  // ------------------------------------------------------------ reading

  datatype Found = Found(labels: seq<Name>, end: nat)

  predicate NonEmpty(labels: seq<Name>) {
    forall i :: 0 <= i < |labels| ==> labels[i] != []
  }

  function Target(hi: Byte, lo: Byte): nat {
    hi % 64 * 256 + lo
  }

  /** The labels at pos and the offset after them, following at most hops pointers. */
  function ReadName(pkt: seq<Byte>, pos: nat, hops: nat): (r: Option<Found>)
    ensures r.Some? ==> NonEmpty(r.value.labels)
    decreases hops, |pkt| - pos
  {
    if pos >= |pkt| then None
    else if pkt[pos] == 0 then Some(Found([], pos + 1))
    else if pkt[pos] > MAX_LABEL then
      if pos + 1 >= |pkt| || Target(pkt[pos], pkt[pos + 1]) >= |pkt| || hops == 0 then None
      else
        match ReadName(pkt, Target(pkt[pos], pkt[pos + 1]), hops - 1)
        case None => None
        case Some(f) => Some(Found(f.labels, pos + 2))
    else if pos + 1 + pkt[pos] > |pkt| then None
    else
      match ReadName(pkt, pos + 1 + pkt[pos], hops)
      case None => None
      case Some(f) => Some(Found([pkt[pos + 1..pos + 1 + pkt[pos]]] + f.labels, f.end))
  }

  function Join(labels: seq<Name>): Name {
    if labels == [] then []
    else if |labels| == 1 then labels[0]
    else labels[0] + [DOT] + Join(labels[1..])
  }

  /** Appending a label as name_parse does. */
  function Extend(out: Name, lab: Name): Name {
    if out == [] then lab else out + [DOT] + lab
  }

  lemma {:induction false} JoinSnoc(labels: seq<Name>, l: Name)
    requires NonEmpty(labels)
    ensures Join(labels + [l]) == Extend(Join(labels), l)
    ensures labels != [] ==> Join(labels) != []
  {
    if |labels| >= 2 {
      JoinSnoc(labels[1..], l);
      assert (labels + [l])[1..] == labels[1..] + [l];
    } else if |labels| == 1 {
      assert (labels + [l])[1..] == [l];
    } else {
      assert labels + [l] == [l];
    }
  }

  lemma {:induction false} JoinLonger(labels: seq<Name>, more: seq<Name>)
    requires NonEmpty(labels)
    requires NonEmpty(more)
    ensures |Join(labels)| <= |Join(labels + more)|
    decreases |more|
  {
    if more == [] {
      assert labels + more == labels;
    } else {
      JoinSnoc(labels, more[0]);
      JoinLonger(labels + [more[0]], more[1..]);
      assert labels + [more[0]] + more[1..] == labels + more;
    }
  }

  /** More hops or more packet do not change what was read. */
  lemma {:induction false} ReadMore(pkt: seq<Byte>, more: seq<Byte>, pos: nat, hops: nat, hops': nat)
    requires ReadName(pkt, pos, hops).Some? && hops <= hops'
    ensures ReadName(pkt + more, pos, hops') == ReadName(pkt, pos, hops)
    decreases hops, |pkt| - pos
  {
    var p := pkt + more;
    assert p[pos] == pkt[pos];
    if pkt[pos] > MAX_LABEL {
      assert p[pos + 1] == pkt[pos + 1];
      ReadMore(pkt, more, Target(pkt[pos], pkt[pos + 1]), hops - 1, hops' - 1);
    } else if pkt[pos] != 0 {
      assert p[pos + 1..pos + 1 + pkt[pos]] == pkt[pos + 1..pos + 1 + pkt[pos]];
      ReadMore(pkt, more, pos + 1 + pkt[pos], hops, hops');
    }
  }

  /** name_parse: the name at idx and the offset after it, when the labels can be read
      and the name with its terminator fits in outLen bytes. */
  method Parse(pkt: seq<Byte>, idx: nat, outLen: nat) returns (r: Option<(Name, nat)>)
    ensures var f := ReadName(pkt, idx, |pkt|);
      if f.Some? && |Join(f.value.labels)| < outLen then r == Some((Join(f.value.labels), f.value.end))
      else r == None
  {
    hide Join;
    var j: nat, hops: nat, out: Name := idx, |pkt|, [];
    var nameEnd: int := -1;
    ghost var labels: seq<Name> := [];
    ghost var goal := ReadName(pkt, idx, |pkt|);
    EmptyJoin();
    while true
      invariant hops <= |pkt| && Progress(pkt, j, hops, labels, nameEnd, goal)
      invariant out == Join(labels) && NonEmpty(labels)
      invariant out == [] || |out| < outLen
      decreases hops, |pkt| - j
    {
      if j >= |pkt| {
        return None;
      }
      var len := pkt[j];
      if len == 0 {
        JoinDone(labels);
        return if |out| >= outLen then None else Some((out, if nameEnd < 0 then j + 1 else nameEnd));
      }
      if len > MAX_LABEL {
        if j + 1 >= |pkt| {
          return None;
        }
        if nameEnd < 0 {
          nameEnd := j + 2;
        }
        j := Target(len, pkt[j + 1]);
        if j >= |pkt| || hops == 0 {
          return None;
        }
        hops := hops - 1;
      } else {
        if j + 1 + len > |pkt| {
          return None;
        }
        var lab := pkt[j + 1..j + 1 + len];
        JoinSnoc(labels, lab);
        if |Extend(out, lab)| >= outLen {
          TooLong(labels, lab, ReadName(pkt, j + 1 + len, hops), goal);
          return None;
        }
        LabelStep(pkt, j, hops, labels, nameEnd, goal);
        out, labels := Extend(out, lab), labels + [lab];
        j := j + 1 + len;
      }
    }
  }

  lemma EmptyJoin()
    ensures Join([]) == []
  {
  }

  /** What is left to read, with the labels already read, is what there was to read. */
  ghost predicate Progress(pkt: seq<Byte>, j: nat, hops: nat, labels: seq<Name>, nameEnd: int, goal: Option<Found>) {
    match ReadName(pkt, j, hops)
    case None => goal == None
    case Some(f) =>
      && goal.Some? && goal.value.labels == labels + f.labels
      && goal.value.end == if nameEnd < 0 then f.end else nameEnd
  }

  lemma LabelStep(pkt: seq<Byte>, j: nat, hops: nat, labels: seq<Name>, nameEnd: int, goal: Option<Found>)
    requires Progress(pkt, j, hops, labels, nameEnd, goal)
    requires j < |pkt| && 0 < pkt[j] <= MAX_LABEL && j + 1 + pkt[j] <= |pkt|
    ensures Progress(pkt, j + 1 + pkt[j], hops, labels + [pkt[j + 1..j + 1 + pkt[j]]], nameEnd, goal)
  {
    var l := pkt[j + 1..j + 1 + pkt[j]];
    var f := ReadName(pkt, j + 1 + pkt[j], hops);
    if f.Some? {
      assert labels + ([l] + f.value.labels) == labels + [l] + f.value.labels;
    }
  }

  lemma JoinDone(labels: seq<Name>)
    ensures labels + [] == labels
  {
  }

  lemma TooLong(labels: seq<Name>, l: Name, rest: Option<Found>, goal: Option<Found>)
    requires NonEmpty(labels)
    requires l != [] && (rest.Some? ==> NonEmpty(rest.value.labels))
    requires rest.Some? ==> goal.Some? && goal.value.labels == labels + ([l] + rest.value.labels)
    requires rest.None? ==> goal.None?
    ensures goal.Some? ==> |Extend(Join(labels), l)| <= |Join(goal.value.labels)|
  {
    if rest.Some? {
      JoinSnoc(labels, l);
      JoinLonger(labels + [l], rest.value.labels);
      assert labels + [l] + rest.value.labels == labels + ([l] + rest.value.labels);
    }
  }

  // ------------------------------------------------------------ names and labels

  /** Where the first label of name ends: strchr(name, '.'), or the end. */
  function DotAt(name: Name): (d: nat)
    ensures d <= |name| && (d < |name| ==> name[d] == DOT)
    ensures forall i :: 0 <= i < d ==> name[i] != DOT
  {
    if name == [] || name[0] == DOT then 0 else 1 + DotAt(name[1..])
  }

  /** The labels of name up to its first empty label. */
  function Visible(name: Name): seq<Name> {
    var d := DotAt(name);
    if d == 0 then []
    else if d == |name| then [name]
    else [name[..d]] + Visible(name[d + 1..])
  }

  /** No two dots in a row and none at either end. */
  predicate NoEmptyLabel(name: Name) {
    && (name != [] ==> name[0] != DOT && name[|name| - 1] != DOT)
    && (forall i :: 0 <= i < |name| - 1 ==> !(name[i] == DOT && name[i + 1] == DOT))
  }

  lemma {:induction false} VisibleLength(name: Name)
    ensures |Join(Visible(name))| <= |name| && NonEmpty(Visible(name))
  {
    var d := DotAt(name);
    if 0 < d < |name| {
      VisibleLength(name[d + 1..]);
      JoinCons(name[..d], Visible(name[d + 1..]));
    }
  }

  lemma JoinCons(l: Name, ls: seq<Name>)
    ensures Join([l] + ls) == if ls == [] then l else l + [DOT] + Join(ls)
  {
    assert ([l] + ls)[1..] == ls;
  }

  /** An empty label is the first one or in the rest. */
  lemma EmptyLabelOf(name: Name)
    ensures var d := DotAt(name);
      NoEmptyLabel(name) <==>
        if d == 0 then name == []
        else d == |name| || (d + 1 < |name| && NoEmptyLabel(name[d + 1..]))
  {
    hide DotAt;
    var d := DotAt(name);
    if 0 < d < |name| {
      if d + 1 == |name| {
        assert name[|name| - 1] == DOT;
      } else {
        LabelsOfRest(name, d);
      }
    }
  }

  /** The visible labels spell the name exactly when it has no empty label. */
  lemma {:induction false} VisibleIsName(name: Name)
    ensures Join(Visible(name)) == name <==> NoEmptyLabel(name)
  {
    hide DotAt, Visible, Join, NoEmptyLabel;
    var d := DotAt(name);
    EmptyLabelOf(name);
    VisibleOf(name);
    JoinFew(name);
    if 0 < d < |name| {
      var l, rest := name[..d], name[d + 1..];
      VisibleIsName(rest);
      VisibleLength(rest);
      JoinCons(l, Visible(rest));
      JoinNonEmpty(Visible(rest));
      assert name == l + [DOT] + rest;
      if rest == [] {
        EmptyLabelOf(rest);
        assert Visible(rest) == [];
      } else {
        SameTail(l, Join(Visible(rest)), rest);
      }
    }
  }

  lemma JoinFew(l: Name)
    ensures Join([]) == [] && Join([l]) == l
  {
  }

  lemma JoinNonEmpty(labels: seq<Name>)
    requires NonEmpty(labels)
    ensures Join(labels) == [] <==> labels == []
  {
  }

  lemma SameTail(l: Name, a: Name, b: Name)
    ensures l + [DOT] + a == l + [DOT] + b <==> a == b
  {
    if l + [DOT] + a == l + [DOT] + b {
      assert a == (l + [DOT] + a)[|l| + 1..];
      assert b == (l + [DOT] + b)[|l| + 1..];
    }
  }

  lemma LabelsOfRest(name: Name, d: nat)
    requires 0 < d < |name| - 1 && d == DotAt(name)
    ensures NoEmptyLabel(name) <==> NoEmptyLabel(name[d + 1..])
  {
    hide DotAt;
    var rest := name[d + 1..];
    assert forall i :: 0 <= i < |rest| ==> rest[i] == name[d + 1 + i];
    if NoEmptyLabel(rest) {
      forall i | 0 <= i < |name| - 1
        ensures !(name[i] == DOT && name[i + 1] == DOT)
      {
        if i > d {
          assert rest[i - d - 1] == name[i] && rest[i - d] == name[i + 1];
        } else if i == d {
          assert rest[0] == name[d + 1];
        }
      }
    }
  }

  // ------------------------------------------------------------ writing

  datatype Entry = Entry(v: Name, pos: nat)

  datatype Wrote = Ok(pkt: seq<Byte>, table: seq<Entry>) | Err(code: int)

  /** dnslabel_table_get_pos */
  function Lookup(table: seq<Entry>, name: Name): (r: Option<nat>)
    ensures r.Some? ==> Entry(name, r.value) in table
  {
    if table == [] then None
    else if table[0].v == name then Some(table[0].pos)
    else Lookup(table[1..], name)
  }

  /** name has an entry in the table. */
  predicate Known(table: seq<Entry>, name: Name) {
    exists i :: 0 <= i < |table| && table[i].v == name
  }

  /** Entry i is the first one for name. */
  predicate FirstFor(table: seq<Entry>, name: Name, i: nat) {
    i < |table| && table[i].v == name && forall j :: 0 <= j < i ==> table[j].v != name
  }

  /** Every name that has an entry is found, at its first one. */
  lemma {:induction false} LookupFinds(table: seq<Entry>, name: Name)
    ensures Lookup(table, name).Some? <==> Known(table, name)
    ensures forall i: nat :: FirstFor(table, name, i) ==> Lookup(table, name) == Some(table[i].pos)
  {
    if table != [] && table[0].v != name {
      var rest := table[1..];
      LookupFinds(rest, name);
      forall i: nat | FirstFor(table, name, i)
        ensures i > 0 && FirstFor(rest, name, i - 1) && rest[i - 1] == table[i]
      {
        assert forall j :: 0 <= j < i - 1 ==> rest[j] == table[j + 1];
      }
      if Known(table, name) {
        var i :| 0 <= i < |table| && table[i].v == name;
        assert rest[i - 1] == table[i];
      }
      if Known(rest, name) {
        var i :| 0 <= i < |rest| && rest[i].v == name;
        assert table[i + 1] == rest[i];
      }
    }
  }

  /** dnslabel_table_add */
  function Remember(table: seq<Entry>, name: Name, pos: nat): seq<Entry> {
    if |table| == MAX_LABELS then table else table + [Entry(name, pos)]
  }

  /** One label with its length. */
  function Labelled(pkt: seq<Byte>, l: Name): seq<Byte>
    requires |l| <= MAX_LABEL
  {
    pkt + [|l|] + l
  }

  function Terminated(pkt: seq<Byte>): seq<Byte>
    requires pkt != []
  {
    if pkt[|pkt| - 1] != 0 then pkt + [0] else pkt
  }

  /** dnsname_to_labels from here on: pkt is what the buffer holds so far. */
  function Write(pkt: seq<Byte>, table: seq<Entry>, name: Name, bufLen: nat, compress: bool): Wrote
    decreases |name|
  {
    var ref := if compress then Lookup(table, name) else None;
    if ref.Some? then
      if |pkt| + 2 > bufLen then Err(-2)
      else Ok(pkt + [0xc0 + ref.value / 256 % 64, ref.value % 256], table)
    else
      var d := DotAt(name);
      if d > MAX_LABEL then Err(-1)
      else if |pkt| + d + 1 > bufLen then Err(-2)
      else
        var table' := if compress then Remember(table, name, |pkt|) else table;
        var pkt' := Labelled(pkt, name[..d]);
        if d == |name| then Ok(Terminated(pkt'), table')
        else Write(pkt', table', name[d + 1..], bufLen, compress)
  }

  /** No byte of a C string is zero. */
  predicate NoNul(name: Name) {
    forall i :: 0 <= i < |name| ==> name[i] != 0
  }

  /** An entry of the table: its position reads as its name, following pointers that
      lead strictly backwards. */
  ghost predicate Readable(pkt: seq<Byte>, e: Entry) {
    && e.pos < |pkt| && e.pos < PTR_LIMIT
    && ReadName(pkt, e.pos, e.pos).Some? && ReadName(pkt, e.pos, e.pos).value.labels == Visible(e.v)
  }

  lemma ReadableMore(pkt: seq<Byte>, more: seq<Byte>, e: Entry)
    requires Readable(pkt, e)
    ensures Readable(pkt + more, e)
  {
    ReadMore(pkt, more, e.pos, e.pos, e.pos);
  }

  /** The table entries that matter for names no longer than n are before start. */
  ghost predicate Behind(pkt: seq<Byte>, table: seq<Entry>, n: nat, start: nat) {
    forall i :: 0 <= i < |table| && |table[i].v| <= n ==> Readable(pkt, table[i]) && table[i].pos < start
  }

  lemma BehindAll(pkt: seq<Byte>, table: seq<Entry>, n: nat)
    requires forall i :: 0 <= i < |table| ==> Readable(pkt, table[i])
    ensures Behind(pkt, table, n, |pkt|)
  {
  }

  lemma BehindMore(pkt: seq<Byte>, more: seq<Byte>, table: seq<Entry>, n: nat, n': nat, start: nat, e: Entry)
    requires Behind(pkt, table, n, start) && n' <= n && n' < |e.v|
    ensures Behind(pkt + more, table, n', start) && Behind(pkt + more, table + [e], n', start)
  {
    hide Readable;
    forall i | 0 <= i < |table| && |table[i].v| <= n'
      ensures Readable(pkt + more, table[i])
    {
      ReadableMore(pkt, more, table[i]);
    }
  }

  /** No empty label is written before the last label or the pointer. */
  predicate Clean(table: seq<Entry>, name: Name, compress: bool)
    decreases |name|
  {
    if compress && Lookup(table, name).Some? then true
    else
      var d := DotAt(name);
      d == |name| || (d > 0 && Clean(table, name[d + 1..], compress))
  }

  /** What is written at pos: the labels of name, and whether reading ends where the
      writing did. */
  ghost predicate Spells(pkt: seq<Byte>, pos: nat, hops: nat, name: Name, clean: bool) {
    var f := ReadName(pkt, pos, hops);
    f.Some? && f.value.labels == Visible(name) && if clean then f.value.end == |pkt| else f.value.end < |pkt|
  }

  lemma SpellsPointer(pkt: seq<Byte>, e: Entry, start: nat)
    requires Readable(pkt, e) && e.pos < start <= |pkt|
    ensures Spells(pkt + [0xc0 + e.pos / 256 % 64, e.pos % 256], |pkt|, start, e.v, true)
  {
    var p := pkt + [0xc0 + e.pos / 256 % 64, e.pos % 256];
    assert p[|pkt|] == 0xc0 + e.pos / 256 && p[|pkt| + 1] == e.pos % 256;
    assert Target(p[|pkt|], p[|pkt| + 1]) == e.pos;
    ReadMore(pkt, [0xc0 + e.pos / 256 % 64, e.pos % 256], e.pos, e.pos, start - 1);
  }

  /** The packet holds label l, with its length, at pos. */
  predicate LabelAt(p: seq<Byte>, pos: nat, l: Name) {
    pos + 1 + |l| <= |p| && |l| <= MAX_LABEL && p[pos] == |l| && p[pos + 1..pos + 1 + |l|] == l
  }

  lemma ReadLabel(p: seq<Byte>, pos: nat, hops: nat, l: Name)
    requires LabelAt(p, pos, l)
    ensures l == [] ==> ReadName(p, pos, hops) == Some(Found([], pos + 1))
    ensures l != [] ==> ReadName(p, pos, hops) == match ReadName(p, pos + 1 + |l|, hops)
      case None => None
      case Some(f) => Some(Found([l] + f.labels, f.end))
  {
  }

  lemma LabelledAt(pkt: seq<Byte>, l: Name, p: seq<Byte>)
    requires |l| <= MAX_LABEL && Labelled(pkt, l) <= p
    ensures pkt < p && LabelAt(p, |pkt|, l)
    ensures Labelled(pkt, l) != p ==> |pkt| + 1 + |l| < |p|
  {
    var q := Labelled(pkt, l);
    assert p[..|q|] == q;
    assert q[|pkt|] == |l| && q[|pkt| + 1..] == l;
    assert p[|pkt| + 1..|pkt| + 1 + |l|] == p[..|q|][|pkt| + 1..];
  }

  lemma VisibleOf(name: Name)
    ensures var d := DotAt(name);
      Visible(name) == if d == 0 then [] else if d == |name| then [name] else [name[..d]] + Visible(name[d + 1..])
  {
    hide DotAt;
  }

  lemma SpellsLast(pkt: seq<Byte>, name: Name, start: nat)
    requires DotAt(name) == |name| <= MAX_LABEL && NoNul(name)
    ensures Spells(Terminated(Labelled(pkt, name)), |pkt|, start, name, true)
    ensures pkt < Terminated(Labelled(pkt, name))
  {
    hide ReadName, DotAt, Visible, Labelled, Terminated, LabelAt, NoNul;
    TerminatedAt(pkt, name);
    var p := Terminated(Labelled(pkt, name));
    VisibleOf(name);
    LabelledAt(pkt, name, p);
    ReadLast(p, |pkt|, start, name);
  }

  lemma ReadLast(p: seq<Byte>, pos: nat, hops: nat, name: Name)
    requires LabelAt(p, pos, name) && |p| == pos + 1 + |name| + (if name == [] then 0 else 1) && p[|p| - 1] == 0
    ensures ReadName(p, pos, hops) == Some(Found(if name == [] then [] else [name], |p|))
  {
    hide ReadName;
    ReadLabel(p, pos, hops, name);
    if name != [] {
      assert LabelAt(p, |p| - 1, []);
      ReadLabel(p, |p| - 1, hops, []);
      assert [name] + [] == [name];
    }
  }

  lemma TerminatedAt(pkt: seq<Byte>, name: Name)
    requires |name| <= MAX_LABEL && NoNul(name)
    ensures Labelled(pkt, name) != []
    ensures var p := Terminated(Labelled(pkt, name));
      && Labelled(pkt, name) <= p
      && |p| == |pkt| + 1 + |name| + (if name == [] then 0 else 1) && p[|p| - 1] == 0
  {
    var q := Labelled(pkt, name);
    if name != [] {
      assert q[|q| - 1] == name[|name| - 1];
    }
  }

  lemma SpellsLabel(pkt: seq<Byte>, name: Name, p: seq<Byte>, start: nat, clean: bool)
    requires DotAt(name) < |name| && DotAt(name) <= MAX_LABEL && Labelled(pkt, name[..DotAt(name)]) < p
    requires Spells(p, |pkt| + 1 + DotAt(name), start, name[DotAt(name) + 1..], clean)
    ensures Spells(p, |pkt|, start, name, DotAt(name) > 0 && clean)
  {
    hide ReadName, DotAt, Visible, Labelled, LabelAt, Spells;
    LabelledAt(pkt, name[..DotAt(name)], p);
    SpellsAt(p, |pkt|, name, start, clean);
  }

  lemma SpellsAt(p: seq<Byte>, pos: nat, name: Name, start: nat, clean: bool)
    requires DotAt(name) < |name| && pos + 1 + DotAt(name) < |p| && LabelAt(p, pos, name[..DotAt(name)])
    requires Spells(p, pos + 1 + DotAt(name), start, name[DotAt(name) + 1..], clean)
    ensures Spells(p, pos, start, name, DotAt(name) > 0 && clean)
  {
    hide ReadName, DotAt, Visible, LabelAt;
    VisibleOf(name);
    ReadLabel(p, pos, start, name[..DotAt(name)]);
  }

  // ------------------------------------------------------------ written names are read back

  lemma {:induction false} LookupShort(table: seq<Entry>, e: Entry, name: Name)
    requires |name| < |e.v|
    ensures Lookup(table + [e], name) == Lookup(table, name)
  {
    if table == [] {
      assert table + [e] == [e];
    } else {
      assert (table + [e])[1..] == table[1..] + [e];
      LookupShort(table[1..], e, name);
    }
  }

  lemma {:induction false} CleanShort(table: seq<Entry>, e: Entry, name: Name, compress: bool)
    requires |name| < |e.v|
    ensures Clean(table + [e], name, compress) == Clean(table, name, compress)
    decreases |name|
  {
    LookupShort(table, e, name);
    if DotAt(name) < |name| {
      CleanShort(table, e, name[DotAt(name) + 1..], compress);
    }
  }

  /** The new entries of a table, and everything before them, are readable. */
  ghost predicate Grown(table: seq<Entry>, table': seq<Entry>, pkt: seq<Byte>) {
    table <= table' && forall i :: |table| <= i < |table'| ==> Readable(pkt, table'[i])
  }

  ghost predicate WrittenWell(w: Wrote, pkt: seq<Byte>, table: seq<Entry>, name: Name, start: nat, clean: bool) {
    w.Ok? ==>
      && pkt < w.pkt && Spells(w.pkt, |pkt|, start, name, clean) && Grown(table, w.table, w.pkt)
  }

  /** What is written at the end of the packet reads back as the labels of the name up to
      the first empty one; reading ends where writing did exactly when no empty label was
      written before the end; and every table entry made on the way is readable. */
  lemma {:induction false} WriteReads(pkt: seq<Byte>, table: seq<Entry>, name: Name, bufLen: nat, compress: bool, start: nat)
    requires bufLen <= PTR_LIMIT && NoNul(name) && start <= |pkt| && Behind(pkt, table, |name|, start)
    ensures WrittenWell(Write(pkt, table, name, bufLen, compress), pkt, table, name, start, Clean(table, name, compress))
    ensures var w := Write(pkt, table, name, bufLen, compress);
      w.Ok? ==> InRoom(w.pkt, |pkt|, table, name, bufLen, compress)
    decreases |name|, 1
  {
    hide ReadName, DotAt, Visible, Labelled, Terminated, Spells, Readable, InRoom;
    WriteRoom(pkt, table, name, bufLen, compress);
    var w, d := Write(pkt, table, name, bufLen, compress), DotAt(name);
    if compress && Lookup(table, name).Some? {
      var e := Entry(name, Lookup(table, name).value);
      var i :| 0 <= i < |table| && table[i] == e;
      SpellsPointer(pkt, e, start);
    } else if w.Ok? && d == |name| {
      TerminatedAt(pkt, name[..d]);
      assert name[..d] == name;
      SpellsLast(pkt, name, start);
      EntryReads(w.pkt, |pkt|, start, name, true);
    } else if w.Ok? {
      WriteInner(pkt, table, name, bufLen, compress, start);
    }
  }

  lemma EntryReads(pkt: seq<Byte>, pos: nat, start: nat, name: Name, clean: bool)
    requires Spells(pkt, pos, start, name, clean) && start <= pos < |pkt| && pos < PTR_LIMIT
    ensures Readable(pkt, Entry(name, pos))
  {
    ReadMore(pkt, [], pos, start, pos);
    assert pkt + [] == pkt;
  }

  /** The step over a label that is not the last. */
  lemma WriteInner(pkt: seq<Byte>, table: seq<Entry>, name: Name, bufLen: nat, compress: bool, start: nat)
    requires bufLen <= PTR_LIMIT && NoNul(name) && start <= |pkt| && Behind(pkt, table, |name|, start)
    requires DotAt(name) < |name| && DotAt(name) <= MAX_LABEL && |pkt| + DotAt(name) + 1 <= bufLen
    requires !compress || Lookup(table, name).None?
    ensures WrittenWell(Write(pkt, table, name, bufLen, compress), pkt, table, name, start, Clean(table, name, compress))
    decreases |name|, 0
  {
    hide ReadName, DotAt, Visible, Terminated, Spells, Readable, Behind, NoNul, Lookup, Clean, InRoom, Grown;
    var d := DotAt(name);
    var rest := name[d + 1..];
    var pkt' := Labelled(pkt, name[..d]);
    var table' := if compress then Remember(table, name, |pkt|) else table;
    NoNulRest(name, d + 1);
    assert pkt' == pkt + ([d] + name[..d]);
    BehindMore(pkt, [d] + name[..d], table, |name|, |rest|, start, Entry(name, |pkt|));
    CleanShort(table, Entry(name, |pkt|), rest, compress);
    CleanOf(table, name, compress);
    WriteReads(pkt', table', rest, bufLen, compress, start);
    var w := Write(pkt', table', rest, bufLen, compress);
    assert Write(pkt, table, name, bufLen, compress) == w;
    if w.Ok? {
      SpellsLabel(pkt, name, w.pkt, start, Clean(table, rest, compress));
      EntryReads(w.pkt, |pkt|, start, name, d > 0 && Clean(table, rest, compress));
      GrownBy(table, table', w.table, w.pkt, Entry(name, |pkt|));
    }
  }

  lemma GrownBy(table: seq<Entry>, table': seq<Entry>, table'': seq<Entry>, pkt: seq<Byte>, e: Entry)
    requires Grown(table', table'', pkt) && (table' == table || table' == table + [e]) && Readable(pkt, e)
    ensures Grown(table, table'', pkt)
  {
    hide Readable;
  }

  lemma CleanOf(table: seq<Entry>, name: Name, compress: bool)
    requires DotAt(name) < |name| && (!compress || Lookup(table, name).None?)
    ensures Clean(table, name, compress) <==> DotAt(name) > 0 && Clean(table, name[DotAt(name) + 1..], compress)
  {
  }

  lemma NoNulRest(name: Name, k: nat)
    requires NoNul(name) && k <= |name|
    ensures NoNul(name[k..])
  {
  }

  // ------------------------------------------------------------ room and errors

  /** "a..b" is written with its empty label, and what was written reads back as "a",
      ending before the rest. */
  lemma EmptyLabelCuts()
    ensures Write([], [], [97, DOT, DOT, 98], 8, false) == Ok([1, 97, 0, 1, 98, 0], [])
    ensures ReadName([1, 97, 0, 1, 98, 0], 0, 6) == Some(Found([[97]], 3))
    ensures Join([[97]]) == [97] == Join(Visible([97, DOT, DOT, 98]))
  {
    hide ReadName;
    var n: Name := [97, DOT, DOT, 98];
    assert DotAt(n) == 1 && n[..1] == [97] && n[2..] == [DOT, 98];
    assert DotAt(n[2..]) == 0 && n[2..][..0] == [] && n[2..][1..] == [98];
    assert DotAt([98]) == 1 && [98][..1] == [98];
    var p: seq<Byte> := [1, 97, 0, 1, 98, 0];
    assert Labelled([], n[..1]) == p[..2] && Labelled(p[..2], []) == p[..3] && Labelled(p[..3], [98]) == p[..5];
    assert Write(p[..3], [], [98], 8, false) == Ok(p, []);
    assert Write(p[..2], [], [DOT, 98], 8, false) == Ok(p, []);
    CutReads(p);
  }

  lemma CutReads(p: seq<Byte>)
    requires p == [1, 97, 0, 1, 98, 0]
    ensures ReadName(p, 0, 6) == Some(Found([[97]], 3))
  {
    hide ReadName;
    assert p[1..2] == [97];
    ReadLabel(p, 0, 6, [97]);
    ReadLabel(p, 2, 6, []);
    assert [[97]] + [] == [[97]];
  }

  /** No suffix of name is in the table, so every label is written out. */
  predicate Spelled(table: seq<Entry>, name: Name, compress: bool)
    decreases |name|
  {
    && (compress ==> Lookup(table, name).None?)
    && (DotAt(name) == |name| || Spelled(table, name[DotAt(name) + 1..], compress))
  }

  lemma {:induction false} SpelledShort(table: seq<Entry>, e: Entry, name: Name, compress: bool)
    requires |name| < |e.v|
    ensures Spelled(table + [e], name, compress) == Spelled(table, name, compress)
    decreases |name|
  {
    LookupShort(table, e, name);
    if DotAt(name) < |name| {
      SpelledShort(table, e, name[DotAt(name) + 1..], compress);
    }
  }

  /** The last label is written out, is not empty and ends where the buffer does. */
  predicate Overruns(used: nat, table: seq<Entry>, name: Name, bufLen: nat, compress: bool) {
    Spelled(table, name, compress) && name != [] && name[|name| - 1] != DOT && used + |name| + 1 == bufLen
  }

  /** What a successful write leaves in a buffer of bufLen bytes. */
  predicate InRoom(pkt: seq<Byte>, used: nat, table: seq<Entry>, name: Name, bufLen: nat, compress: bool) {
    |pkt| <= bufLen + 1 && (|pkt| == bufLen + 1 <==> Overruns(used, table, name, bufLen, compress))
  }

  /** The zero after the labels is written without looking for room: a successful write
      stays in the buffer, except for that one byte, and exactly when the last label, not
      empty and not a reference, fills the buffer. */
  lemma {:induction false} WriteRoom(pkt: seq<Byte>, table: seq<Entry>, name: Name, bufLen: nat, compress: bool)
    requires NoNul(name)
    ensures var w := Write(pkt, table, name, bufLen, compress);
      w.Ok? ==> InRoom(w.pkt, |pkt|, table, name, bufLen, compress)
    decreases |name|
  {
    hide DotAt, Lookup, Labelled, Terminated, NoNul, Overruns;
    var d := DotAt(name);
    if compress && Lookup(table, name).Some? {
      RefFits(|pkt|, table, name, bufLen);
    } else if d <= MAX_LABEL && |pkt| + d + 1 <= bufLen {
      LabelLength(pkt, name[..d]);
      if d == |name| {
        assert name[..d] == name;
        TerminatedAt(pkt, name);
        LastOverruns(|pkt|, table, name, bufLen, compress);
      } else {
        var table' := if compress then Remember(table, name, |pkt|) else table;
        NoNulRest(name, d + 1);
        RestOverruns(|pkt|, table, name, bufLen, compress);
        WriteRoom(Labelled(pkt, name[..d]), table', name[d + 1..], bufLen, compress);
      }
    }
  }

  lemma RefFits(used: nat, table: seq<Entry>, name: Name, bufLen: nat)
    requires Lookup(table, name).Some?
    ensures !Overruns(used, table, name, bufLen, true)
  {
  }

  lemma LastOverruns(used: nat, table: seq<Entry>, name: Name, bufLen: nat, compress: bool)
    requires DotAt(name) == |name| && (compress ==> Lookup(table, name).None?)
    ensures Overruns(used, table, name, bufLen, compress) <==> name != [] && used + |name| + 1 == bufLen
  {
    hide Lookup;
  }

  lemma RestOverruns(used: nat, table: seq<Entry>, name: Name, bufLen: nat, compress: bool)
    requires DotAt(name) < |name| && (compress ==> Lookup(table, name).None?)
    ensures var d := DotAt(name);
      var table' := if compress then Remember(table, name, used) else table;
      Overruns(used + 1 + d, table', name[d + 1..], bufLen, compress) <==> Overruns(used, table, name, bufLen, compress)
  {
    hide DotAt, Lookup;
    var rest := name[DotAt(name) + 1..];
    SpelledShort(table, Entry(name, used), rest, compress);
    assert rest != [] ==> rest[|rest| - 1] == name[|name| - 1];
  }

  lemma LabelLength(pkt: seq<Byte>, l: Name)
    requires |l| <= MAX_LABEL
    ensures |Labelled(pkt, l)| == |pkt| + 1 + |l|
  {
  }

  /** One byte past the buffer: "a" into two bytes. */
  lemma OneByteOver()
    ensures Write([], [], [97], 2, false) == Ok([1, 97, 0], [])
    ensures Overruns(0, [], [97], 2, false)
  {
    assert DotAt([97]) == 1 && [97][..1] == [97];
    assert Labelled([], [97]) == [1, 97];
  }

  /** Some label of name has more than 63 bytes. */
  predicate HasLong(name: Name)
    decreases |name|
  {
    var d := DotAt(name);
    d > MAX_LABEL || (d < |name| && HasLong(name[d + 1..]))
  }

  /** Writing fails only for an overlong label or for want of room, and with the right
      code; two bytes more than the name are room enough. */
  lemma {:induction false} WriteFits(pkt: seq<Byte>, table: seq<Entry>, name: Name, bufLen: nat, compress: bool)
    ensures NoNul(name) ==> var w := Write(pkt, table, name, bufLen, compress);
      w.Ok? ==> InRoom(w.pkt, |pkt|, table, name, bufLen, compress)
    ensures var w := Write(pkt, table, name, bufLen, compress);
      match w
      case Ok(pkt', _) => |pkt'| <= |pkt| + |name| + 2
      case Err(code) => (code == -1 && HasLong(name)) || (code == -2 && |pkt| + |name| + 2 > bufLen)
    decreases |name|
  {
    hide InRoom;
    if NoNul(name) {
      WriteRoom(pkt, table, name, bufLen, compress);
    }
    var d := DotAt(name);
    if (!compress || Lookup(table, name).None?) && d <= MAX_LABEL && |pkt| + d + 1 <= bufLen && d < |name| {
      var table' := if compress then Remember(table, name, |pkt|) else table;
      WriteFits(Labelled(pkt, name[..d]), table', name[d + 1..], bufLen, compress);
    }
  }

  // ------------------------------------------------------------ what compression saves

  /** A label of name starts at s. */
  predicate LabelStart(name: Name, s: nat) {
    s <= |name| && (s == 0 || name[s - 1] == DOT)
  }

  /** From s on starts the longest run of labels of name that is in the table. */
  ghost predicate IsCut(table: seq<Entry>, name: Name, s: nat) {
    && LabelStart(name, s) && Known(table, name[s..])
    && forall t :: 0 <= t < s && LabelStart(name, t) ==> !Known(table, name[t..])
  }

  ghost predicate NoCut(table: seq<Entry>, name: Name) {
    forall s :: 0 <= s <= |name| && LabelStart(name, s) ==> !Known(table, name[s..])
  }

  /** Where the labels end that have to be written out. */
  ghost predicate CutAt(table: seq<Entry>, name: Name, compress: bool, cut: Option<nat>) {
    match cut
    case Some(s) => compress && IsCut(table, name, s)
    case None => !compress || NoCut(table, name)
  }

  /** There is such a place, or none. */
  lemma CutExists(table: seq<Entry>, name: Name, compress: bool) returns (cut: Option<nat>)
    ensures CutAt(table, name, compress, cut)
  {
    if !compress || NoCut(table, name) {
      return None;
    }
    var s := 0;
    while !(LabelStart(name, s) && Known(table, name[s..]))
      invariant s <= |name|
      invariant forall t :: 0 <= t < s && LabelStart(name, t) ==> !Known(table, name[t..])
      decreases |name| - s
    {
      s := s + 1;
    }
    return Some(s);
  }

  /** The first n bytes of name hold 64 in a row without a dot. */
  ghost predicate LongRun(name: Name, n: nat) {
    exists a: nat :: a + MAX_LABEL < n <= |name| && DotFree(name, a)
  }

  predicate DotFree(name: Name, a: nat) {
    a + MAX_LABEL < |name| && forall i :: a <= i <= a + MAX_LABEL ==> name[i] != DOT
  }

  lemma LongRunStep(name: Name, n: nat)
    requires DotAt(name) <= n <= |name|
    ensures DotAt(name) > MAX_LABEL ==> LongRun(name, n)
    ensures DotAt(name) == n && DotAt(name) <= MAX_LABEL ==> !LongRun(name, n)
    ensures DotAt(name) < n && DotAt(name) <= MAX_LABEL ==>
      (LongRun(name, n) <==> LongRun(name[DotAt(name) + 1..], n - DotAt(name) - 1))
  {
    hide DotAt;
    var d := DotAt(name);
    if d > MAX_LABEL {
      assert DotFree(name, 0);
    } else if d < n {
      var rest := name[d + 1..];
      if LongRun(name, n) {
        var a: nat :| a + MAX_LABEL < n <= |name| && DotFree(name, a);
        assert DotFree(rest, a - d - 1);
      }
      if LongRun(rest, n - d - 1) {
        var a: nat :| a + MAX_LABEL < n - d - 1 <= |rest| && DotFree(rest, a);
        forall i | a + d + 1 <= i <= a + d + 1 + MAX_LABEL
          ensures name[i] != DOT
        {
          assert rest[i - d - 1] == name[i];
        }
        assert DotFree(name, a + d + 1);
      }
    }
  }

  /** The same cut, seen from the next label on, with the entry that is made on the way. */
  lemma CutStep(table: seq<Entry>, name: Name, compress: bool, cut: Option<nat>, pos: nat)
    requires CutAt(table, name, compress, cut) && (compress ==> !Known(table, name)) && DotAt(name) < |name|
    ensures var d := DotAt(name);
      var table' := if compress then Remember(table, name, pos) else table;
      && (cut.Some? ==> cut.value >= d + 1)
      && CutAt(table', name[d + 1..], compress, if cut.Some? then Some(cut.value - d - 1) else None)
  {
    hide DotAt, Known, Remember, IsCut, NoCut, LabelStart;
    CutAfter(table, name, compress, cut);
    if compress {
      if cut.Some? {
        IsCutStep(table, name, cut.value, DotAt(name), pos);
      } else {
        NoCutStep(table, name, DotAt(name), pos);
      }
    }
  }

  lemma IsCutStep(table: seq<Entry>, name: Name, s: nat, d: nat, pos: nat)
    requires IsCut(table, name, s) && d < s <= |name| && name[d] == DOT
    ensures IsCut(Remember(table, name, pos), name[d + 1..], s - d - 1)
  {
    hide Known, LabelStart, Remember;
    SuffixStep(table, name, d, pos, s - d - 1);
    var rest := name[d + 1..];
    forall t: nat | t < s - d - 1 && LabelStart(rest, t)
      ensures !Known(Remember(table, name, pos), rest[t..])
    {
      SuffixStep(table, name, d, pos, t);
    }
  }

  lemma NoCutStep(table: seq<Entry>, name: Name, d: nat, pos: nat)
    requires NoCut(table, name) && d < |name| && name[d] == DOT
    ensures NoCut(Remember(table, name, pos), name[d + 1..])
  {
    hide Known, LabelStart, Remember;
    var rest := name[d + 1..];
    forall t: nat | t <= |rest| && LabelStart(rest, t)
      ensures !Known(Remember(table, name, pos), rest[t..])
    {
      SuffixStep(table, name, d, pos, t);
    }
  }

  lemma SuffixStep(table: seq<Entry>, name: Name, d: nat, pos: nat, s: nat)
    requires d < |name| && name[d] == DOT && d + 1 + s <= |name|
    ensures LabelStart(name[d + 1..], s) <==> LabelStart(name, d + 1 + s)
    ensures Known(Remember(table, name, pos), name[d + 1..][s..]) <==> Known(table, name[d + 1 + s..])
  {
    hide Known;
    assert name[d + 1..][s..] == name[d + 1 + s..];
    KnownShort(table, Entry(name, pos), name[d + 1 + s..]);
  }

  lemma KnownShort(table: seq<Entry>, e: Entry, name: Name)
    requires |name| < |e.v|
    ensures Known(table + [e], name) <==> Known(table, name)
  {
    var t := table + [e];
    if Known(table, name) {
      var i :| 0 <= i < |table| && table[i].v == name;
      assert t[i].v == name;
    }
  }

  /** Whether a name fits behind n bytes, and the length of the packet afterwards: up to the
      longest known suffix and two for the pointer, or that of the whole name. */
  ghost predicate SizeIs(w: Wrote, n: nat, name: Name, bufLen: nat, cut: Option<nat>) {
    match cut
    case Some(s) =>
      && (w.Ok? <==> !LongRun(name, s) && n + s + 2 <= bufLen)
      && (w.Ok? ==> |w.pkt| == n + s + 2)
    case None =>
      && (w.Ok? <==> !LongRun(name, |name|) && n + |name| + 1 <= bufLen)
      && (w.Ok? ==> |w.pkt| == n + |name| + 1 + if name == [] || name[|name| - 1] == DOT then 0 else 1)
  }

  /** One step of a write. */
  lemma WriteUnfolds(pkt: seq<Byte>, table: seq<Entry>, name: Name, bufLen: nat, compress: bool)
    ensures var w, d := Write(pkt, table, name, bufLen, compress), DotAt(name);
      if compress && Known(table, name) then if |pkt| + 2 > bufLen then w.Err? else w.Ok? && |w.pkt| == |pkt| + 2 && w.table == table
      else if d > MAX_LABEL || |pkt| + d + 1 > bufLen then w.Err?
      else
        var table' := if compress then Remember(table, name, |pkt|) else table;
        if d == |name| then w == Ok(Terminated(Labelled(pkt, name[..d])), table')
        else w == Write(Labelled(pkt, name[..d]), table', name[d + 1..], bufLen, compress)
  {
    hide Lookup, Known, Terminated, Remember, DotAt;
    LookupFinds(table, name);
  }

  lemma SizeStep(w: Wrote, n: nat, name: Name, d: nat, bufLen: nat, cut: Option<nat>)
    requires d == DotAt(name) < |name| && d <= MAX_LABEL && (cut.Some? ==> d < cut.value <= |name|)
    requires SizeIs(w, n + d + 1, name[d + 1..], bufLen, if cut.Some? then Some(cut.value - d - 1) else None)
    ensures SizeIs(w, n, name, bufLen, cut)
  {
    hide DotAt, LongRun;
    LongRunStep(name, if cut.Some? then cut.value else |name|);
    var rest := name[d + 1..];
    assert rest != [] ==> rest[|rest| - 1] == name[|name| - 1];
  }

  lemma SizeFails(w: Wrote, n: nat, name: Name, d: nat, bufLen: nat, cut: Option<nat>)
    requires d == DotAt(name) && w.Err? && (d > MAX_LABEL || n + d + 1 > bufLen) && (cut.Some? ==> d < cut.value <= |name|)
    ensures SizeIs(w, n, name, bufLen, cut)
  {
    hide DotAt, LongRun;
    LongRunStep(name, if cut.Some? then cut.value else |name|);
  }

  lemma {:induction false} WriteSize(pkt: seq<Byte>, table: seq<Entry>, name: Name, bufLen: nat, compress: bool, cut: Option<nat>)
    requires NoNul(name) && CutAt(table, name, compress, cut)
    ensures SizeIs(Write(pkt, table, name, bufLen, compress), |pkt|, name, bufLen, cut)
    decreases |name|
  {
    hide DotAt, Known, Labelled, Terminated, NoNul, LongRun, Write, Remember, CutAt, SizeIs;
    WriteUnfolds(pkt, table, name, bufLen, compress);
    var w, d := Write(pkt, table, name, bufLen, compress), DotAt(name);
    if compress && Known(table, name) {
      CutHere(table, name, cut);
      SizeHere(w, |pkt|, name, bufLen);
    } else {
      CutAfter(table, name, compress, cut);
      if d > MAX_LABEL || |pkt| + d + 1 > bufLen {
        SizeFails(w, |pkt|, name, d, bufLen, cut);
      } else {
        LabelLength(pkt, name[..d]);
        if d == |name| {
          assert name[..d] == name;
          SizeEnds(w, pkt, name, bufLen, cut);
        } else {
          CutStep(table, name, compress, cut, |pkt|);
          NoNulRest(name, d + 1);
          var table' := if compress then Remember(table, name, |pkt|) else table;
          WriteSize(Labelled(pkt, name[..d]), table', name[d + 1..], bufLen, compress,
                    if cut.Some? then Some(cut.value - d - 1) else None);
          SizeStep(w, |pkt|, name, d, bufLen, cut);
        }
      }
    }
  }

  lemma SizeHere(w: Wrote, n: nat, name: Name, bufLen: nat)
    requires if n + 2 > bufLen then w.Err? else w.Ok? && |w.pkt| == n + 2
    ensures SizeIs(w, n, name, bufLen, Some(0))
  {
    hide LongRun;
    NoRun(name);
  }

  lemma SizeEnds(w: Wrote, pkt: seq<Byte>, name: Name, bufLen: nat, cut: Option<nat>)
    requires NoNul(name) && DotAt(name) == |name| <= MAX_LABEL && |pkt| + |name| + 1 <= bufLen && cut.None?
    requires w.Ok? && w.pkt == Terminated(Labelled(pkt, name))
    ensures SizeIs(w, |pkt|, name, bufLen, cut)
  {
    hide DotAt, LongRun, Labelled, Terminated, NoNul;
    LongRunStep(name, |name|);
    LabelLength(pkt, name);
    TerminatedAt(pkt, name);
    NoDotLast(name);
  }

  lemma NoDotLast(name: Name)
    requires DotAt(name) == |name|
    ensures name != [] ==> name[|name| - 1] != DOT
  {
  }

  lemma NoRun(name: Name)
    ensures !LongRun(name, 0)
  {
  }

  lemma CutHere(table: seq<Entry>, name: Name, cut: Option<nat>)
    requires CutAt(table, name, true, cut) && Known(table, name)
    ensures cut == Some(0)
  {
    assert name[0..] == name && LabelStart(name, 0);
  }

  lemma CutAfter(table: seq<Entry>, name: Name, compress: bool, cut: Option<nat>)
    requires CutAt(table, name, compress, cut) && (compress ==> !Known(table, name))
    ensures cut.Some? ==> DotAt(name) < cut.value <= |name|
  {
    hide DotAt;
    if cut.Some? {
      assert name[0..] == name;
    }
  }

  lemma RememberGrows(table: seq<Entry>, name: Name, pos: nat)
    ensures table <= Remember(table, name, pos) && |Remember(table, name, pos)| <= |table| + 1
    ensures |Remember(table, name, pos)| < MAX_LABELS ==> Known(Remember(table, name, pos), name)
  {
    KnownLast(table, Entry(name, pos));
  }

  /** While the table has room, every suffix of a written name is in it, down to the one
      that was there before. */
  lemma {:induction false} WriteRemembers(pkt: seq<Byte>, table: seq<Entry>, name: Name, bufLen: nat, cut: Option<nat>, s: nat)
    requires CutAt(table, name, true, cut) && LabelStart(name, s) && (cut.Some? ==> s <= cut.value)
    requires var w := Write(pkt, table, name, bufLen, true); w.Ok? && |w.table| < MAX_LABELS
    ensures Known(Write(pkt, table, name, bufLen, true).table, name[s..])
    decreases |name|
  {
    hide DotAt, Known, Labelled, Write, CutAt, LabelStart, Remember;
    WriteUnfolds(pkt, table, name, bufLen, true);
    var w, d := Write(pkt, table, name, bufLen, true), DotAt(name);
    assert name[0..] == name;
    if Known(table, name) {
      CutHere(table, name, cut);
    } else {
      var table' := Remember(table, name, |pkt|);
      RememberGrows(table, name, |pkt|);
      if d < |name| {
        WriteGrows(Labelled(pkt, name[..d]), table', name[d + 1..], bufLen);
      }
      if s == 0 {
        KnownMore(table', w.table, name);
      } else {
        LaterStart(name, s);
        CutStep(table, name, true, cut, |pkt|);
        assert name[s..] == name[d + 1..][s - d - 1..];
        WriteRemembers(Labelled(pkt, name[..d]), table', name[d + 1..], bufLen,
                       if cut.Some? then Some(cut.value - d - 1) else None, s - d - 1);
      }
    }
  }

  lemma LaterStart(name: Name, s: nat)
    requires LabelStart(name, s) && s > 0
    ensures DotAt(name) < s <= |name| && LabelStart(name[DotAt(name) + 1..], s - DotAt(name) - 1)
  {
    hide DotAt;
  }

  lemma KnownLast(table: seq<Entry>, e: Entry)
    ensures Known(table + [e], e.v)
  {
    assert (table + [e])[|table|] == e;
  }

  lemma KnownMore(table: seq<Entry>, table': seq<Entry>, name: Name)
    requires table <= table' && Known(table, name)
    ensures Known(table', name)
  {
    var i :| 0 <= i < |table| && table[i].v == name;
    assert table'[i] == table[i];
  }

  lemma {:induction false} WriteGrows(pkt: seq<Byte>, table: seq<Entry>, name: Name, bufLen: nat)
    ensures var w := Write(pkt, table, name, bufLen, true);
      w.Ok? ==> table <= w.table && |w.table| <= |table| + |name| + 1
    decreases |name|
  {
    hide Write, Labelled, Known, DotAt, Remember;
    if Write(pkt, table, name, bufLen, true).Ok? {
      WriteUnfolds(pkt, table, name, bufLen, true);
      RememberGrows(table, name, |pkt|);
      var d := DotAt(name);
      if !Known(table, name) && d < |name| {
        WriteGrows(Labelled(pkt, name[..d]), Remember(table, name, |pkt|), name[d + 1..], bufLen);
      }
    }
  }

  /** Two names with the labels from s and from t on in common, written one after the other:
      while the table has room the second takes at most the bytes before t and two.  The
      same name again takes two. */
  lemma SharedSuffix(pkt: seq<Byte>, table: seq<Entry>, a: Name, b: Name, bufLen: nat, cut: Option<nat>, s: nat, t: nat)
    requires NoNul(a) && NoNul(b) && LabelStart(a, s) && LabelStart(b, t) && a[s..] == b[t..]
    requires CutAt(table, a, true, cut) && (cut.Some? ==> s <= cut.value)
    requires var w := Write(pkt, table, a, bufLen, true); w.Ok? && |w.table| < MAX_LABELS
    ensures var w := Write(pkt, table, a, bufLen, true);
      var v := Write(w.pkt, w.table, b, bufLen, true);
      && (v.Ok? ==> |w.pkt| + 2 <= |v.pkt| <= |w.pkt| + t + 2)
      && (t == 0 && |w.pkt| + 2 <= bufLen ==> v.Ok? && |v.pkt| == |w.pkt| + 2)
  {
    hide Write, LongRun, Known;
    var w := Write(pkt, table, a, bufLen, true);
    WriteRemembers(pkt, table, a, bufLen, cut, s);
    var c := CutExists(w.table, b, true);
    assert c.Some? && c.value <= t;
    WriteSize(w.pkt, w.table, b, bufLen, true, c);
    NoRun(b);
  }

  lemma ShortRun(name: Name)
    requires |name| <= MAX_LABEL
    ensures forall n: nat :: !LongRun(name, n)
  {
  }

  /** A write enters no name that is longer than the one written. */
  lemma {:induction false} OnlySuffixes(pkt: seq<Byte>, table: seq<Entry>, name: Name, bufLen: nat, x: Name)
    requires var w := Write(pkt, table, name, bufLen, true); w.Ok? && Known(w.table, x) && |x| > |name|
    ensures Known(table, x)
    decreases |name|
  {
    hide DotAt, Known, Labelled, Write, Terminated;
    WriteUnfolds(pkt, table, name, bufLen, true);
    var d := DotAt(name);
    if !Known(table, name) {
      if d < |name| {
        OnlySuffixes(Labelled(pkt, name[..d]), Remember(table, name, |pkt|), name[d + 1..], bufLen, x);
      }
      OtherName(table, name, |pkt|, x);
    }
  }

  lemma OtherName(table: seq<Entry>, name: Name, pos: nat, x: Name)
    requires Known(Remember(table, name, pos), x) && x != name
    ensures Known(table, x)
  {
    var i :| 0 <= i < |Remember(table, name, pos)| && Remember(table, name, pos)[i].v == x;
    assert table[i].v == x;
  }

  /** "www.example.com" and then "mail.example.com": 17 bytes and 7. */
  lemma MailAfterWww()
    ensures var www: Name := [119, 119, 119, 46, 101, 120, 97, 109, 112, 108, 101, 46, 99, 111, 109];
      var mail: Name := [109, 97, 105, 108, 46, 101, 120, 97, 109, 112, 108, 101, 46, 99, 111, 109];
      var w := Write([], [], www, 512, true);
      w.Ok? && |w.pkt| == 17 && var v := Write(w.pkt, w.table, mail, 512, true); v.Ok? && |v.pkt| == 24
  {
    hide Write, Known, LongRun;
    var www: Name := [119, 119, 119, 46, 101, 120, 97, 109, 112, 108, 101, 46, 99, 111, 109];
    var mail: Name := [109, 97, 105, 108, 46, 101, 120, 97, 109, 112, 108, 101, 46, 99, 111, 109];
    NothingKnown(www);
    ShortRun(www);
    ShortRun(mail);
    WriteSize([], [], www, 512, true, None);
    WriteGrows([], [], www, 512);
    assert www[4..] == mail[5..];
    SharedSuffix([], [], www, mail, 512, None, 4, 5);
    var w := Write([], [], www, 512, true);
    if Known(w.table, mail) {
      OnlySuffixes([], [], www, 512, mail);
      assert false by {
        NoneKnown(mail);
      }
    }
    var c := CutExists(w.table, mail, true);
    MailCut(w.table, mail, c);
    WriteSize(w.pkt, w.table, mail, 512, true, c);
  }

  lemma NoneKnown(name: Name)
    ensures !Known([], name)
  {
  }

  lemma MailCut(table: seq<Entry>, mail: Name, c: Option<nat>)
    requires mail == [109, 97, 105, 108, 46, 101, 120, 97, 109, 112, 108, 101, 46, 99, 111, 109]
    requires CutAt(table, mail, true, c) && !Known(table, mail)
    ensures c.Some? ==> c.value >= 5
  {
    if c.Some? {
      assert mail[0..] == mail;
    }
  }

  lemma NothingKnown(name: Name)
    ensures CutAt([], name, true, None)
  {
  }

  // ------------------------------------------------------------ packets

  /** dnslabel_table_get_pos: the position of the first entry for the name. */
  method GetPos(table: seq<Entry>, name: Name) returns (r: Option<nat>)
    ensures r.Some? <==> Known(table, name)
    ensures forall i: nat :: FirstFor(table, name, i) ==> r == Some(table[i].pos)
    ensures r == Lookup(table, name)
  {
    LookupFinds(table, name);
    for i := 0 to |table|
      invariant forall j :: 0 <= j < i ==> table[j].v != name
    {
      if table[i].v == name {
        assert FirstFor(table, name, i);
        return Some(table[i].pos);
      }
    }
    return None;
  }

  /** A packet being built, with its compression table. */
  class DnsWriter {
    var bytes: seq<Byte>
    var table: seq<Entry>

    ghost predicate Valid()
      reads this
    {
      forall i :: 0 <= i < |table| ==> Readable(bytes, table[i])
    }

    constructor ()
      ensures Valid() && bytes == [] && table == []
    {
      bytes, table := [], [];
    }

    /** Header and record bytes between the names. */
    method AddRaw(data: seq<Byte>)
      requires Valid()
      modifies this
      ensures Valid() && bytes == old(bytes) + data && table == old(table)
    {
      hide Readable;
      forall i | 0 <= i < |table|
        ensures Readable(bytes + data, table[i])
      {
        ReadableMore(bytes, data, table[i]);
      }
      bytes := bytes + data;
    }

    /** dnsname_to_labels: the new end of the packet, or -1 or -2. */
    method Emit(name: Name, bufLen: nat, compress: bool) returns (r: int)
      modifies this
      ensures |name| > MAX_NAME ==> r == -2 && bytes == old(bytes) && table == old(table)
      ensures |name| <= MAX_NAME ==>
        match Write(old(bytes), old(table), name, bufLen, compress)
        case Ok(pkt, t) => bytes == pkt && table == t && r == |pkt|
        case Err(code) => r == code
      ensures r >= 0 && NoNul(name) ==> InRoom(bytes, |old(bytes)|, old(table), name, bufLen, compress)
    {
      hide Lookup, Known, FirstFor, DotAt, Terminated, Remember, InRoom, NoNul;
      if NoNul(name) {
        WriteRoom(bytes, table, name, bufLen, compress);
      }
      if |name| > MAX_NAME {
        return -2;
      }
      var rest := name;
      while true
        invariant Write(bytes, table, rest, bufLen, compress) == Write(old(bytes), old(table), name, bufLen, compress)
        decreases |rest|
      {
        if compress {
          var ref := GetPos(table, rest);
          if ref.Some? {
            if |bytes| + 2 > bufLen {
              return -2;
            }
            bytes := bytes + [0xc0 + ref.value / 256 % 64, ref.value % 256];
            return |bytes|;
          }
        }
        var d := DotAt(rest);
        if d > MAX_LABEL {
          return -1;
        }
        if |bytes| + d + 1 > bufLen {
          return -2;
        }
        if compress {
          table := Remember(table, rest, |bytes|);
        }
        bytes := Labelled(bytes, rest[..d]);
        if d == |rest| {
          bytes := Terminated(bytes);
          return |bytes|;
        }
        rest := rest[d + 1..];
      }
    }

    /** A name written on success reads back from where it was written. */
    method AddName(name: Name, bufLen: nat, compress: bool) returns (r: int)
      requires Valid() && NoNul(name) && bufLen <= PTR_LIMIT
      modifies this
      ensures r >= 0 ==> Valid() && old(bytes) < bytes && r == |bytes| && |name| <= MAX_NAME
      ensures r >= 0 ==> Write(old(bytes), old(table), name, bufLen, compress) == Ok(bytes, table)
      ensures r < 0 ==> |name| > MAX_NAME || Write(old(bytes), old(table), name, bufLen, compress).Err?
      ensures r >= 0 ==> Spells(bytes, |old(bytes)|, |old(bytes)|, name, Clean(old(table), name, compress))
      ensures r >= 0 ==> InRoom(bytes, |old(bytes)|, old(table), name, bufLen, compress)
      ensures r < 0 ==> (r == -1 && HasLong(name)) || (r == -2 && (|name| > MAX_NAME || |old(bytes)| + |name| + 2 > bufLen))
    {
      hide Spells, Readable, Write, Clean, InRoom;
      WriteFits(bytes, table, name, bufLen, compress);
      BehindAll(bytes, table, |name|);
      WriteReads(bytes, table, name, bufLen, compress, |bytes|);
      r := Emit(name, bufLen, compress);
      if r >= 0 {
        forall i | 0 <= i < |old(table)|
          ensures Readable(bytes, old(table)[i])
        {
          ReadableMore(old(bytes), bytes[|old(bytes)|..], old(table)[i]);
          assert old(bytes) + bytes[|old(bytes)|..] == bytes;
        }
      }
    }
  }

  // ------------------------------------------------------------ many names in one packet

  datatype Item = Raw(data: seq<Byte>) | Named(name: Name)

  /** A name and where it was written. */
  datatype Span = Span(name: Name, start: nat, end: nat)

  /** Reading from its start gives back the labels of the name, and its end. */
  ghost predicate Kept(pkt: seq<Byte>, s: Span) {
    var f := ReadName(pkt, s.start, |pkt|);
    && f.Some? && f.value.labels == Visible(s.name) && |s.name| <= MAX_NAME
    && (NoEmptyLabel(s.name) ==> f.value.end == s.end)
  }

  lemma KeptMore(pkt: seq<Byte>, more: seq<Byte>, s: Span)
    requires Kept(pkt, s)
    ensures Kept(pkt + more, s)
  {
    ReadMore(pkt, more, s.start, |pkt|, |pkt + more|);
  }

  lemma KeptAll(pkt: seq<Byte>, pkt': seq<Byte>, spans: seq<Span>)
    requires pkt <= pkt' && forall i :: 0 <= i < |spans| ==> Kept(pkt, spans[i])
    ensures forall i :: 0 <= i < |spans| ==> Kept(pkt', spans[i])
  {
    hide Kept;
    assert pkt' == pkt + pkt'[|pkt|..];
    forall i | 0 <= i < |spans|
      ensures Kept(pkt', spans[i])
    {
      KeptMore(pkt, pkt'[|pkt|..], spans[i]);
    }
  }

  lemma {:induction false} CleanGood(table: seq<Entry>, name: Name, compress: bool)
    requires NoEmptyLabel(name)
    ensures Clean(table, name, compress)
    decreases |name|
  {
    var d := DotAt(name);
    if d < |name| {
      assert name[|name| - 1] != DOT;
      LabelsOfRest(name, d);
      CleanGood(table, name[d + 1..], compress);
    }
  }

  lemma KeptNew(pkt: seq<Byte>, pos: nat, name: Name, clean: bool)
    requires Spells(pkt, pos, pos, name, clean) && pos <= |pkt| && |name| <= MAX_NAME
    requires NoEmptyLabel(name) ==> clean
    ensures Kept(pkt, Span(name, pos, |pkt|))
  {
    ReadMore(pkt, [], pos, pos, |pkt|);
    assert pkt + [] == pkt;
  }

  function WriteItem(pkt: seq<Byte>, table: seq<Entry>, item: Item, bufLen: nat, compress: bool): Wrote {
    match item
    case Raw(data) => if |pkt| + |data| > bufLen then Err(-2) else Ok(pkt + data, table)
    case Named(name) => if |name| > MAX_NAME then Err(-2) else Write(pkt, table, name, bufLen, compress)
  }

  /** The items written one after another, or the first failure. */
  function WriteFrom(pkt: seq<Byte>, table: seq<Entry>, items: seq<Item>, bufLen: nat, compress: bool): Wrote
    decreases |items|
  {
    if items == [] then Ok(pkt, table)
    else
      var w := WriteItem(pkt, table, items[0], bufLen, compress);
      if w.Err? then w else WriteFrom(w.pkt, w.table, items[1..], bufLen, compress)
  }

  lemma WriteNext(pkt: seq<Byte>, table: seq<Entry>, items: seq<Item>, bufLen: nat, compress: bool, k: nat)
    requires k < |items|
    ensures var w := WriteItem(pkt, table, items[k], bufLen, compress);
      WriteFrom(pkt, table, items[k..], bufLen, compress) ==
        if w.Err? then w else WriteFrom(w.pkt, w.table, items[k + 1..], bufLen, compress)
  {
    hide WriteItem;
    assert items[k..][0] == items[k] && items[k..][1..] == items[k + 1..];
  }

  lemma WriteEnds(pkt: seq<Byte>, table: seq<Entry>, items: seq<Item>, bufLen: nat, compress: bool)
    ensures items[0..] == items && items[|items|..] == [] && WriteFrom(pkt, table, [], bufLen, compress) == Ok(pkt, table)
  {
  }

  /** Write all items into one packet with one table. */
  method WriteItems(items: seq<Item>, bufLen: nat, compress: bool) returns (ok: bool, pkt: seq<Byte>, spans: seq<Span>)
    requires bufLen <= PTR_LIMIT && forall i :: 0 <= i < |items| && items[i].Named? ==> NoNul(items[i].name)
    ensures ok ==> forall i :: 0 <= i < |spans| ==> Kept(pkt, spans[i])
    ensures ok ==> Names(items) == SpanNames(spans)
    ensures ok ==> |pkt| <= bufLen + 1
    ensures ok <==> WriteFrom([], [], items, bufLen, compress).Ok?
    ensures ok ==> pkt == WriteFrom([], [], items, bufLen, compress).pkt
  {
    hide Write, WriteFrom, Kept, Spells, Clean, Overruns, NoEmptyLabel, Readable, Names, SpanNames, NoNul;
    NoNames();
    var w := new DnsWriter();
    spans := [];
    WriteEnds([], [], items, bufLen, compress);
    for k := 0 to |items|
      invariant w.Valid() && fresh(w) && |w.bytes| <= bufLen + 1
      invariant forall i :: 0 <= i < |spans| ==> Kept(w.bytes, spans[i])
      invariant Names(items[..k]) == SpanNames(spans)
      invariant WriteFrom(w.bytes, w.table, items[k..], bufLen, compress) == WriteFrom([], [], items, bufLen, compress)
    {
      ghost var was := w.bytes;
      NamesSnoc(items, k);
      WriteNext(w.bytes, w.table, items, bufLen, compress, k);
      match items[k] {
        case Raw(data) =>
          if |w.bytes| + |data| > bufLen {
            return false, w.bytes, spans;
          }
          w.AddRaw(data);
          KeptAll(was, w.bytes, spans);
        case Named(name) =>
          var start := |w.bytes|;
          ghost var clean := Clean(w.table, name, compress);
          if NoEmptyLabel(name) {
            CleanGood(w.table, name, compress);
          }
          var r := w.AddName(name, bufLen, compress);
          if r < 0 {
            return false, w.bytes, spans;
          }
          KeptAll(was, w.bytes, spans);
          KeptNew(w.bytes, start, name, clean);
          SpanSnoc(spans, Span(name, start, |w.bytes|));
          spans := spans + [Span(name, start, |w.bytes|)];
      }
    }
    assert items[..|items|] == items;
    WriteEnds(w.bytes, w.table, items, bufLen, compress);
    return true, w.bytes, spans;
  }

  /** The size of the buffer in evdns_server_request_format_response. */
  const RESPONSE_LEN: nat := 1500

  /** A response whose last label fills that buffer takes one byte more. */
  method ResponseOverrun() returns (pkt: seq<Byte>)
    ensures |pkt| == RESPONSE_LEN + 1
  {
    hide Write, WriteFrom, Kept, Names, SpanNames;
    var head: seq<Byte> := seq(RESPONSE_LEN - 2, _ => 0);
    var items := [Raw(head), Named([97])];
    FillsExactly(head, items, RESPONSE_LEN);
    var ok, spans;
    ok, pkt, spans := WriteItems(items, RESPONSE_LEN, true);
  }

  lemma FillsExactly(head: seq<Byte>, items: seq<Item>, bufLen: nat)
    requires |head| + 2 == bufLen && items == [Raw(head), Named([97])]
    ensures var w := WriteFrom([], [], items, bufLen, true); w.Ok? && |w.pkt| == bufLen + 1
  {
    hide Write, WriteFrom, Overruns;
    WriteEnds([], [], items, bufLen, true);
    WriteNext([], [], items, bufLen, true, 0);
    assert [] + head == head;
    WriteNext(head, [], items, bufLen, true, 1);
    LastLabelFills(head, bufLen);
    var w := Write(head, [], [97], bufLen, true);
    WriteEnds(w.pkt, w.table, items, bufLen, true);
    WriteRoom(head, [], [97], bufLen, true);
  }

  lemma LastLabelFills(head: seq<Byte>, bufLen: nat)
    requires |head| + 2 == bufLen
    ensures Write(head, [], [97], bufLen, true).Ok? && Overruns(|head|, [], [97], bufLen, true)
  {
    assert DotAt([97]) == 1;
  }

  function Names(items: seq<Item>): seq<Name> {
    if items == [] then []
    else Names(items[..|items| - 1]) + match items[|items| - 1] { case Raw(_) => [] case Named(n) => [n] }
  }

  function SpanNames(spans: seq<Span>): seq<Name> {
    if spans == [] then [] else SpanNames(spans[..|spans| - 1]) + [spans[|spans| - 1].name]
  }

  lemma NoNames()
    ensures Names([]) == [] == SpanNames([])
  {
  }

  lemma NamesSnoc(items: seq<Item>, k: nat)
    requires k < |items|
    ensures Names(items[..k + 1]) == Names(items[..k]) + match items[k] { case Raw(_) => [] case Named(n) => [n] }
  {
    assert items[..k + 1][..k] == items[..k];
  }

  lemma SpanSnoc(spans: seq<Span>, s: Span)
    ensures SpanNames(spans + [s]) == SpanNames(spans) + [s.name]
  {
    assert (spans + [s])[..|spans|] == spans;
  }

  /** A name read back with the buffer the callers use: the labels before the first empty
      one, so the name itself exactly when it has no empty label. */
  method ReadSpan(pkt: seq<Byte>, s: Span) returns (name: Name, end: nat)
    requires Kept(pkt, s)
    ensures name == Join(Visible(s.name))
    ensures name == s.name <==> NoEmptyLabel(s.name)
    ensures name == s.name ==> end == s.end
  {
    VisibleLength(s.name);
    VisibleIsName(s.name);
    var r := Parse(pkt, s.start, MAX_NAME + 1);
    return r.value.0, r.value.1;
  }
}
