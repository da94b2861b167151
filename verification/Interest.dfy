/**
  Interest in file descriptors: the per-fd reference counts of evmap.c, the
  changelist that batches backend changes, and the epoll backend that applies them.
 */
module Interest {
  import opened Bytes
  import opened EpollTable

  datatype Ev = Rd | Wr | Cl

  function Bit(m: Mask, e: Ev): bool {
    match e
    case Rd => m.r
    case Wr => m.w
    case Cl => m.c
  }

  /** An event as far as evmap.c cares: an identity and the interests in ev_events. */
  datatype Event = Event(id: nat, wants: Mask)

  /** struct evmap_io, with the changelist_fdinfo stored behind it. */
  datatype Ctx = Ctx(nread: nat, nwrite: nat, nclose: nat, events: seq<Event>, idxplus1: nat)

  const MAX_PER_FD: nat := 0xffff

  function Count(events: seq<Event>, e: Ev): nat {
    if events == [] then 0 else (if Bit(events[0].wants, e) then 1 else 0) + Count(events[1..], e)
  }

  /** The interests some registered event has: what the backend should watch. */
  function Desired(events: seq<Event>): Mask {
    Mask(Count(events, Rd) > 0, Count(events, Wr) > 0, Count(events, Cl) > 0)
  }

  lemma {:induction false} CountPositive(events: seq<Event>, e: Ev)
    ensures Count(events, e) > 0 <==> exists i :: 0 <= i < |events| && Bit(events[i].wants, e)
  {
    if events != [] {
      CountPositive(events[1..], e);
      if exists i :: 0 <= i < |events| && Bit(events[i].wants, e) {
        var i :| 0 <= i < |events| && Bit(events[i].wants, e);
        if i > 0 {
          assert events[1..][i - 1] == events[i];
        }
      }
      if j :| 0 <= j < |events[1..]| && Bit(events[1..][j].wants, e) {
        assert events[j + 1] == events[1..][j];
      }
    }
  }

  /** Desired really is the union of what the registered events want. */
  lemma DesiredIsUnion(events: seq<Event>, e: Ev)
    ensures Bit(Desired(events), e) <==> exists i :: 0 <= i < |events| && Bit(events[i].wants, e)
  {
    CountPositive(events, e);
  }

  function RemoveOne(events: seq<Event>, ev: Event): seq<Event>
    requires ev in events
  {
    if events[0] == ev then events[1..] else [events[0]] + RemoveOne(events[1..], ev)
  }

  lemma {:induction false} CountRemove(events: seq<Event>, ev: Event, e: Ev)
    requires ev in events
    ensures Count(events, e) == Count(RemoveOne(events, ev), e) + (if Bit(ev.wants, e) then 1 else 0)
  {
    if events[0] != ev {
      CountRemove(events[1..], ev, e);
      assert ([events[0]] + RemoveOne(events[1..], ev))[1..] == RemoveOne(events[1..], ev);
    }
  }

  // ---------------------------------------------------------------- the kernel

  type Kernel = map<nat, Mask>

  function Has(k: Kernel, fd: nat): Mask {
    if fd in k then k[fd] else NONE
  }

  function Put(k: Kernel, fd: nat, m: Mask): Kernel {
    if m == NONE then k - {fd} else k[fd := m]
  }

  datatype Errno = Success | ENOENT | EEXIST

  /** epoll_ctl(2) on one epoll instance. */
  function EpollCtl(k: Kernel, op: Ctl, fd: nat, events: Mask): (Kernel, Errno)
    requires op == CtlAdd || op == CtlMod || op == CtlDel
  {
    match op
    case CtlAdd => if fd in k then (k, EEXIST) else (k[fd := events], Success)
    case CtlMod => if fd in k then (k[fd := events], Success) else (k, ENOENT)
    case CtlDel => if fd in k then (k - {fd}, Success) else (k, ENOENT)
    case _ => (k, ENOENT)
  }

  predicate Sane(ch: Change) {
    ch.rd != AddDel && ch.wr != AddDel && ch.cl != AddDel
  }

  predicate NoOp(ch: Change) {
    ch.rd == Keep && ch.wr == Keep && ch.cl == Keep
  }

  function Target(ch: Change): Mask {
    Wanted(ch.was, ch.rd, ch.wr, ch.cl)
  }

  /** epoll_apply_one_change: whatever the kernel held for the fd before, a change
      that is not a no-op leaves exactly its target set there. */
  method ApplyOneChange(k: Kernel, ch: Change) returns (k': Kernel, r: int)
    requires Sane(ch)
    ensures r == 0
    ensures k' == if NoOp(ch) then k else Put(k, ch.fd, Target(ch))
  {
    TableMatches(ch);
    hide Table;
    var entry := Table(Index(ch));
    if entry.events == NONE {
      assert entry.op == CtlNone;
      return k, 0;
    }
    var err;
    k', err := EpollCtl(k, entry.op, ch.fd, entry.events).0, EpollCtl(k, entry.op, ch.fd, entry.events).1;
    if err == Success {
      return k', 0;
    }
    match entry.op {
      case CtlMod =>
        if err == ENOENT {
          var again := EpollCtl(k', CtlAdd, ch.fd, entry.events);
          return again.0, if again.1 == Success then 0 else -1;
        }
      case CtlAdd =>
        if err == EEXIST {
          var again := EpollCtl(k', CtlMod, ch.fd, entry.events);
          return again.0, if again.1 == Success then 0 else -1;
        }
      case CtlDel =>
        if err == ENOENT {
          return k', 0;
        }
      case _ =>
    }
    r := -1;
  }

  // ---------------------------------------------------------------- the event base

  /** Everything evmap.c, the changelist and the kernel say about one fd agrees. */
  predicate FdOk(slot: Option<Ctx>, fd: nat, changes: seq<Change>, k: Kernel) {
    match slot
    case None => Has(k, fd) == NONE
    case Some(c) =>
      && c.nread == Count(c.events, Rd) <= MAX_PER_FD
      && c.nwrite == Count(c.events, Wr) <= MAX_PER_FD
      && c.nclose == Count(c.events, Cl) <= MAX_PER_FD
      && c.idxplus1 <= |changes|
      && if c.idxplus1 == 0 then Has(k, fd) == Desired(c.events)
         else
           var ch := changes[c.idxplus1 - 1];
           ch.fd == fd && Sane(ch) && ch.was == Has(k, fd) && Target(ch) == Desired(c.events)
  }

  predicate SlotOf(io: seq<Option<Ctx>>, ch: Change, i: nat) {
    ch.fd < |io| && io[ch.fd].Some? && io[ch.fd].value.idxplus1 == i + 1
  }

  ghost predicate Agree(io: seq<Option<Ctx>>, changes: seq<Change>, k: Kernel) {
    && (forall fd :: 0 <= fd < |io| ==> FdOk(io[fd], fd, changes, k))
    && (forall i :: 0 <= i < |changes| ==> SlotOf(io, changes[i], i))
    && (forall fd :: fd in k ==> fd < |io| && k[fd] != NONE)
  }

  function EventsIn(io: seq<Option<Ctx>>, fd: nat): seq<Event> {
    if fd < |io| && io[fd].Some? then io[fd].value.events else []
  }

  function InterestOf(c: Ctx): Mask {
    Mask(c.nread > 0, c.nwrite > 0, c.nclose > 0)
  }

  lemma FdFacts(c: Ctx, fd: nat, changes: seq<Change>, k: Kernel)
    requires FdOk(Some(c), fd, changes, k)
    ensures c.nread == Count(c.events, Rd) <= MAX_PER_FD
    ensures c.nwrite == Count(c.events, Wr) <= MAX_PER_FD
    ensures c.nclose == Count(c.events, Cl) <= MAX_PER_FD
    ensures c.idxplus1 <= |changes|
  {
  }

  lemma AgreeAt(io: seq<Option<Ctx>>, changes: seq<Change>, k: Kernel, fd: nat)
    requires Agree(io, changes, k) && fd < |io|
    ensures FdOk(io[fd], fd, changes, k)
  {
  }

  lemma ToldNothing(adding: bool, fd: nat, was: Mask, idx: nat, changes: seq<Change>, k: Kernel)
    requires idx <= |changes|
    ensures Told(adding, fd, was, NONE, idx, changes, k, idx, changes, k)
  {
  }

  /** Changing one slot, and at most the change record of that fd, keeps the rest. */
  lemma AgreeUpdate(io: seq<Option<Ctx>>, changes: seq<Change>, k: Kernel,
                    fd: nat, c: Ctx, changes': seq<Change>, k': Kernel)
    requires Agree(io, changes, k) && fd < |io|
    requires FdOk(Some(c), fd, changes', k')
    requires |changes| <= |changes'|
    requires forall i :: 0 <= i < |changes'| && i + 1 != c.idxplus1 ==> i < |changes| && changes'[i] == changes[i]
    requires io[fd].Some? && io[fd].value.idxplus1 != 0 ==> c.idxplus1 == io[fd].value.idxplus1
    requires c.idxplus1 != 0 && (io[fd].None? || io[fd].value.idxplus1 == 0) ==> c.idxplus1 == |changes'| == |changes| + 1
    requires forall f :: f in k' && f != fd ==> f in k && k[f] == k'[f]
    requires forall f :: f in k && f != fd ==> f in k'
    requires fd in k' ==> k'[fd] != NONE
    ensures Agree(io[fd := Some(c)], changes', k')
  {
    var io' := io[fd := Some(c)];
    forall f | 0 <= f < |io'|
      ensures FdOk(io'[f], f, changes', k')
    {
      if f != fd {
        assert FdOk(io[f], f, changes, k) && Has(k, f) == Has(k', f);
        if io[f].Some? && io[f].value.idxplus1 != 0 {
          var j := io[f].value.idxplus1 - 1;
          assert SlotOf(io, changes[j], j);
          assert FdOk(io[fd], fd, changes, k);
          assert j + 1 != c.idxplus1;
        }
      }
    }
    forall i | 0 <= i < |changes'|
      ensures SlotOf(io', changes'[i], i)
    {
      var ch := changes'[i];
      if i + 1 != c.idxplus1 {
        assert ch == changes[i] && SlotOf(io, changes[i], i);
      }
    }
  }

  /** What event_changelist_add_ does to a change record. */
  function AddActs(ch: Change, events: Mask): Change {
    ch.(rd := if events.r then Add else ch.rd, wr := if events.w then Add else ch.wr, cl := if events.c then Add else ch.cl)
  }

  /** What event_changelist_del_ does: deleting an interest that was not there when
      the record was made cancels the pending add. */
  function DelActs(ch: Change, events: Mask): Change {
    ch.(rd := if !events.r then ch.rd else if ch.was.r then Del else Keep,
        wr := if !events.w then ch.wr else if ch.was.w then Del else Keep,
        cl := if !events.c then ch.cl else if ch.was.c then Del else Keep)
  }

  function Without(m: Mask, gone: Mask): Mask {
    Mask(m.r && !gone.r, m.w && !gone.w, m.c && !gone.c)
  }

  function Union(m: Mask, more: Mask): Mask {
    Mask(m.r || more.r, m.w || more.w, m.c || more.c)
  }

  /** Coalescing is exact: a later add or delete of some interests moves the target
      of the pending change by exactly those interests. */
  lemma CoalesceExact(ch: Change, events: Mask)
    requires Sane(ch)
    ensures Sane(AddActs(ch, events)) && Target(AddActs(ch, events)) == Union(Target(ch), events)
    ensures Sane(DelActs(ch, events)) && Target(DelActs(ch, events)) == Without(Target(ch), events)
    ensures AddActs(ch, events).was == ch.was && AddActs(ch, events).fd == ch.fd
    ensures DelActs(ch, events).was == ch.was && DelActs(ch, events).fd == ch.fd
  {
  }

  /** The effect of telling the backend about the interests in res, or of not
      telling it when there are none: a change record, or a new kernel entry. */
  predicate Told(adding: bool, fd: nat, was: Mask, res: Mask,
                 idx: nat, changes: seq<Change>, k: Kernel,
                 idx': nat, changes': seq<Change>, k': Kernel)
    requires idx <= |changes|
  {
    if res == NONE then idx' == idx && changes' == changes && k' == k
    else
      var ch := if idx == 0 then Change(fd, was, Keep, Keep, Keep) else changes[idx - 1];
      var ch' := if adding then AddActs(ch, res) else DelActs(ch, res);
      || (&& k' == k
          && idx' == (if idx == 0 then |changes| + 1 else idx)
          && changes' == (if idx == 0 then changes + [ch'] else changes[idx - 1 := ch']))
      || (&& idx == idx' == 0 && changes == changes' == []
          && k' == Put(k, fd, if adding then Union(was, res) else Without(was, res)))
  }

  predicate DistinctFds(changes: seq<Change>) {
    forall i, j :: 0 <= i < j < |changes| ==> changes[i].fd != changes[j].fd
  }

  predicate Clean(k: Kernel) {
    forall fd :: fd in k ==> k[fd] != NONE
  }

  lemma AppliedEffect(k: Kernel, ch: Change, k': Kernel)
    requires k' == if NoOp(ch) then k else Put(k, ch.fd, Target(ch))
    ensures forall fd: nat :: fd != ch.fd ==> Has(k', fd) == Has(k, fd)
    ensures ch.was == Has(k, ch.fd) || !NoOp(ch) ==> Has(k', ch.fd) == Target(ch)
    ensures Clean(k) ==> Clean(k')
    ensures k'.Keys <= k.Keys + {ch.fd}
  {
  }

  /** epoll_apply_changes */
  method ApplyChanges(changes: seq<Change>, k: Kernel) returns (k': Kernel, r: int)
    requires DistinctFds(changes) && Clean(k)
    requires forall i :: 0 <= i < |changes| ==> Sane(changes[i]) && changes[i].was == Has(k, changes[i].fd)
    ensures r == 0 && Clean(k')
    ensures forall i :: 0 <= i < |changes| ==> Has(k', changes[i].fd) == Target(changes[i])
    ensures forall fd: nat :: (forall i :: 0 <= i < |changes| ==> changes[i].fd != fd) ==> Has(k', fd) == Has(k, fd)
    ensures k'.Keys <= k.Keys + set i | 0 <= i < |changes| :: changes[i].fd
  {
    hide Clean, Put, Target, Has;
    k', r := k, 0;
    for i := 0 to |changes|
      invariant r == 0 && Clean(k')
      invariant forall j :: 0 <= j < i ==> Has(k', changes[j].fd) == Target(changes[j])
      invariant forall j :: i <= j < |changes| ==> Has(k', changes[j].fd) == Has(k, changes[j].fd)
      invariant forall fd: nat :: (forall j :: 0 <= j < |changes| ==> changes[j].fd != fd) ==> Has(k', fd) == Has(k, fd)
      invariant k'.Keys <= k.Keys + set j | 0 <= j < |changes| :: changes[j].fd
    {
      var one;
      ghost var before := k';
      k', one := ApplyOneChange(k', changes[i]);
      AppliedEffect(before, changes[i], k');
      if one < 0 {
        r := -1;
      }
    }
  }

  /** event_changelist_remove_all_, as far as the fdinfo entries go. */
  method ClearFdinfo(io: seq<Option<Ctx>>, changes: seq<Change>) returns (io': seq<Option<Ctx>>)
    requires forall i :: 0 <= i < |changes| ==> SlotOf(io, changes[i], i)
    ensures |io'| == |io|
    ensures forall fd :: 0 <= fd < |io| ==>
      io'[fd] == if io[fd].Some? && 0 < io[fd].value.idxplus1 <= |changes| && changes[io[fd].value.idxplus1 - 1].fd == fd
        then Some(io[fd].value.(idxplus1 := 0)) else io[fd]
  {
    io' := io;
    for i := 0 to |changes|
      invariant |io'| == |io|
      invariant forall fd :: 0 <= fd < |io| ==>
        io'[fd] == if io[fd].Some? && 0 < io[fd].value.idxplus1 <= i && changes[io[fd].value.idxplus1 - 1].fd == fd
          then Some(io[fd].value.(idxplus1 := 0)) else io[fd]
    {
      assert SlotOf(io, changes[i], i);
      var fd := changes[i].fd;
      assert io'[fd].value.idxplus1 == i + 1;
      io' := io'[fd := Some(io'[fd].value.(idxplus1 := 0))];
    }
  }

  class IoBase {
    /** true: changes go through the changelist; false: straight to the kernel. */
    const batched: bool
    var io: seq<Option<Ctx>>
    var changes: seq<Change>
    var kernel: Kernel

    ghost predicate Valid()
      reads this
    {
      Agree(io, changes, kernel) && (!batched ==> changes == [])
    }

    ghost function EventsOn(fd: nat): seq<Event>
      reads this
    {
      EventsIn(io, fd)
    }

    /** The kernel watches exactly what the registered events want. */
    ghost predicate Synced()
      reads this
    {
      forall fd: nat :: Has(kernel, fd) == Desired(EventsIn(io, fd))
    }

    constructor (batched: bool)
      ensures Valid() && this.batched == batched && kernel == map[] && forall fd: nat :: EventsOn(fd) == []
    {
      this.batched := batched;
      io, changes, kernel := [], [], map[];
    }

    /** evmap_make_space and GET_IO_SLOT_AND_CTOR */
    method Slot(fd: nat) returns (c: Ctx)
      requires Valid()
      modifies this`io
      ensures Valid() && fd < |io| && io[fd] == Some(c)
      ensures forall f: nat :: EventsIn(io, f) == old(EventsIn(io, f))
      ensures FdOk(Some(c), fd, changes, kernel)
    {
      if fd >= |io| {
        var n := if |io| > 0 then |io| else 32;
        while n <= fd
          invariant n > 0 && n >= |io|
        {
          n := n * 2;
        }
        io := io + seq(n - |io|, _ => None);
      }
      if io[fd].None? {
        assert FdOk(io[fd], fd, changes, kernel);
        AgreeUpdate(io, changes, kernel, fd, Ctx(0, 0, 0, [], 0), changes, kernel);
        io := io[fd := Some(Ctx(0, 0, 0, [], 0))];
      }
      c := io[fd].value;
      assert FdOk(io[fd], fd, changes, kernel);
    }

    /** evsel->add or evsel->del: queue the change (event_changelist_add_,
        event_changelist_del_) or apply it now (epoll_nochangelist_add,
        epoll_nochangelist_del).  idx is the fdinfo of the fd. */
    method Backend(adding: bool, fd: nat, was: Mask, events: Mask, idx: nat)
      returns (idx': nat, changes': seq<Change>, kernel': Kernel)
      requires idx <= |changes| && events != NONE && (!batched ==> changes == [])
      ensures Told(adding, fd, was, events, idx, changes, kernel, idx', changes', kernel')
      ensures !batched ==> changes' == []
    {
      idx', changes', kernel' := idx, changes, kernel;
      if batched {
        // event_changelist_get_or_construct
        if idx' == 0 {
          changes' := changes' + [Change(fd, was, Keep, Keep, Keep)];
          idx' := |changes'|;
        }
        var ch := changes'[idx' - 1];
        changes' := changes'[idx' - 1 := if adding then AddActs(ch, events) else DelActs(ch, events)];
      } else {
        var act := if adding then Add else Del;
        var ch := Change(fd, was, if events.r then act else Keep, if events.w then act else Keep, if events.c then act else Keep);
        assert Target(ch) == if adding then Union(was, events) else Without(was, events);
        var r;
        kernel', r := ApplyOneChange(kernel, ch);
      }
    }

    /** evmap_io_add_ */
    method IoAdd(fd: int, ev: Event) returns (r: int)
      requires Valid()
      modifies this`io, this`changes, this`kernel
      ensures Valid()
      ensures r == -1 <==> fd >= 0 && exists e: Ev ::
        Bit(ev.wants, e) && Count(old(EventsOn(fd)), e) >= MAX_PER_FD
      ensures fd < 0 || r == -1 ==> forall f: nat :: EventsOn(f) == old(EventsOn(f))
      ensures fd >= 0 && r != -1 ==> forall f: nat ::
        EventsOn(f) == if f == fd then [ev] + old(EventsOn(f)) else old(EventsOn(f))
      ensures r == 0 || r == 1 || r == -1
      ensures r == 1 <==> fd >= 0 && Desired(EventsOn(fd)) != old(Desired(EventsOn(fd)))
    {
      hide Agree, FdOk, Told, Count, Desired;
      if fd < 0 {
        return 0;
      }
      var c := Slot(fd);
      FdFacts(c, fd, changes, kernel);
      var was := InterestOf(c);
      var nread := c.nread + if ev.wants.r then 1 else 0;
      var nwrite := c.nwrite + if ev.wants.w then 1 else 0;
      var nclose := c.nclose + if ev.wants.c then 1 else 0;
      var res := Mask(ev.wants.r && nread == 1, ev.wants.w && nwrite == 1, ev.wants.c && nclose == 1);
      TooMany(c.events, ev);
      if nread > MAX_PER_FD || nwrite > MAX_PER_FD || nclose > MAX_PER_FD {
        return -1;
      }
      var idx, ch, k := c.idxplus1, changes, kernel;
      ToldNothing(true, fd, was, idx, ch, k);
      r := 0;
      if res != NONE {
        idx, ch, k := Backend(true, fd, was, res, idx);
        r := 1;
      }
      var c' := Ctx(nread, nwrite, nclose, [ev] + c.events, idx);
      AddedOk(c, c', ev, res, fd, changes, kernel, ch, k);
      ToldAgree(io, true, fd, was, res, changes, kernel, c', ch, k);
      io, changes, kernel := io[fd := Some(c')], ch, k;
    }

    /** evmap_io_del_ */
    method IoDel(fd: int, ev: Event) returns (r: int)
      requires Valid() && (fd >= 0 ==> ev in EventsOn(fd))
      modifies this`io, this`changes, this`kernel
      ensures Valid() && (r == 0 || r == 1)
      ensures fd < 0 ==> forall f: nat :: EventsOn(f) == old(EventsOn(f))
      ensures fd >= 0 ==> forall f: nat ::
        EventsOn(f) == if f == fd then RemoveOne(old(EventsOn(f)), ev) else old(EventsOn(f))
      ensures r == 1 <==> fd >= 0 && Desired(EventsOn(fd)) != old(Desired(EventsOn(fd)))
    {
      hide Agree, FdOk, Told, Count, RemoveOne, Desired;
      if fd < 0 {
        return 0;
      }
      AgreeAt(io, changes, kernel, fd);
      var c := io[fd].value;
      FdFacts(c, fd, changes, kernel);
      CountRemove(c.events, ev, Rd);
      CountRemove(c.events, ev, Wr);
      CountRemove(c.events, ev, Cl);
      var was := InterestOf(c);
      var nread := c.nread - if ev.wants.r then 1 else 0;
      var nwrite := c.nwrite - if ev.wants.w then 1 else 0;
      var nclose := c.nclose - if ev.wants.c then 1 else 0;
      assert nread >= 0 && nwrite >= 0 && nclose >= 0;
      var res := Mask(ev.wants.r && nread == 0, ev.wants.w && nwrite == 0, ev.wants.c && nclose == 0);
      var idx, ch, k := c.idxplus1, changes, kernel;
      ToldNothing(false, fd, was, idx, ch, k);
      r := 0;
      if res != NONE {
        idx, ch, k := Backend(false, fd, was, res, idx);
        r := 1;
      }
      var c' := Ctx(nread, nwrite, nclose, RemoveOne(c.events, ev), idx);
      RemovedOk(c, c', ev, res, fd, changes, kernel, ch, k);
      ToldAgree(io, false, fd, was, res, changes, kernel, c', ch, k);
      io, changes, kernel := io[fd := Some(c')], ch, k;
    }

    /** The part of epoll_dispatch before epoll_wait: apply the changelist, empty it. */
    method Dispatch()
      requires Valid()
      modifies this`io, this`changes, this`kernel
      ensures Valid() && changes == [] && Synced()
      ensures forall f: nat :: EventsOn(f) == old(EventsOn(f))
    {
      ghost var io0, ch0, k0 := io, changes, kernel;
      ChangesReady(io, changes, kernel);
      var r;
      kernel, r := ApplyChanges(changes, kernel);
      io := ClearFdinfo(io, changes);
      changes := [];
      DispatchAgree(io0, ch0, k0, io, kernel);
    }

    /** event_reinit for a backend that needs it: a fresh, empty epoll instance, an
        empty changelist, and evmap_reinit_ telling the backend about every fd. */
    method Reinit()
      requires Valid()
      modifies this`io, this`changes, this`kernel
      ensures Valid()
      ensures forall f: nat :: EventsOn(f) == old(EventsOn(f))
      ensures batched ==> kernel == map[]
    {
      hide ReinitUpTo, Agree, FdOk;
      ghost var io0 := io;
      ghost var ch0, k0 := changes, kernel;
      kernel := map[];
      changes := [];
      ReinitStart(io);
      var fd := 0;
      while fd < |io|
        invariant 0 <= fd <= |io| == |io0|
        invariant ReinitUpTo(io0, fd, io, changes, kernel)
        invariant batched ==> kernel == map[]
        invariant !batched ==> changes == []
      {
        AgreeAt(io0, ch0, k0, fd);
        if io[fd].Some? {
          var c := io[fd].value;
          var events := InterestOf(c);
          if batched {
            var ch := AddActs(Change(fd, NONE, Keep, Keep, Keep), events);
            ReinitStep(io0, ch0, k0, fd, io, changes, kernel, changes + [ch], kernel, |changes| + 1);
            changes := changes + [ch];
            io := io[fd := Some(c.(idxplus1 := |changes|))];
          } else {
            var ch := Change(fd, NONE, if events.r then Add else Keep, if events.w then Add else Keep, if events.c then Add else Keep);
            assert Target(ch) == events;
            ReinitFacts(io0, fd, io, changes, kernel);
            var k', r := ApplyOneChange(kernel, ch);
            AppliedEffect(kernel, ch, k');
            ReinitStep(io0, ch0, k0, fd, io, changes, kernel, changes, k', 0);
            kernel := k';
            io := io[fd := Some(c.(idxplus1 := 0))];
          }
        } else {
          ReinitSkip(io0, ch0, k0, fd, io, changes, kernel);
        }
        fd := fd + 1;
      }
      ReinitEnd(io0, io, changes, kernel);
    }

    lemma TooMany(events: seq<Event>, ev: Event)
      ensures (exists e: Ev :: Bit(ev.wants, e) && Count(events, e) >= MAX_PER_FD) <==>
        (ev.wants.r && Count(events, Rd) >= MAX_PER_FD) ||
        (ev.wants.w && Count(events, Wr) >= MAX_PER_FD) ||
        (ev.wants.c && Count(events, Cl) >= MAX_PER_FD)
    {
      assert Bit(ev.wants, Rd) == ev.wants.r && Bit(ev.wants, Wr) == ev.wants.w && Bit(ev.wants, Cl) == ev.wants.c;
    }
  }

  /** One more event on a fd: the interests that go from zero to one reach the
      backend, and everything agrees again. */
  lemma AddedOk(c: Ctx, c': Ctx, ev: Event, res: Mask, fd: nat,
                changes: seq<Change>, k: Kernel, changes': seq<Change>, k': Kernel)
    requires FdOk(Some(c), fd, changes, k)
    requires c'.events == [ev] + c.events
    requires c'.nread == c.nread + (if ev.wants.r then 1 else 0) <= MAX_PER_FD
    requires c'.nwrite == c.nwrite + (if ev.wants.w then 1 else 0) <= MAX_PER_FD
    requires c'.nclose == c.nclose + (if ev.wants.c then 1 else 0) <= MAX_PER_FD
    requires res == Mask(ev.wants.r && c'.nread == 1, ev.wants.w && c'.nwrite == 1, ev.wants.c && c'.nclose == 1)
    requires Told(true, fd, InterestOf(c), res, c.idxplus1, changes, k, c'.idxplus1, changes', k')
    ensures FdOk(Some(c'), fd, changes', k')
    ensures Desired(c'.events) != Desired(c.events) <==> res != NONE
  {
    assert c'.events[1..] == c.events;
    assert Desired(c'.events) == Union(Desired(c.events), res);
    if c.idxplus1 != 0 {
      CoalesceExact(changes[c.idxplus1 - 1], res);
    }
  }

  /** One event fewer on a fd. */
  lemma RemovedOk(c: Ctx, c': Ctx, ev: Event, res: Mask, fd: nat,
                  changes: seq<Change>, k: Kernel, changes': seq<Change>, k': Kernel)
    requires FdOk(Some(c), fd, changes, k) && ev in c.events
    requires c'.events == RemoveOne(c.events, ev)
    requires c.nread == c'.nread + (if ev.wants.r then 1 else 0)
    requires c.nwrite == c'.nwrite + (if ev.wants.w then 1 else 0)
    requires c.nclose == c'.nclose + (if ev.wants.c then 1 else 0)
    requires res == Mask(ev.wants.r && c'.nread == 0, ev.wants.w && c'.nwrite == 0, ev.wants.c && c'.nclose == 0)
    requires Told(false, fd, InterestOf(c), res, c.idxplus1, changes, k, c'.idxplus1, changes', k')
    ensures FdOk(Some(c'), fd, changes', k')
    ensures Desired(c'.events) != Desired(c.events) <==> res != NONE
  {
    CountRemove(c.events, ev, Rd);
    CountRemove(c.events, ev, Wr);
    CountRemove(c.events, ev, Cl);
    assert Desired(c'.events) == Without(Desired(c.events), res);
    if c.idxplus1 != 0 {
      CoalesceExact(changes[c.idxplus1 - 1], res);
    }
  }

  lemma ToldAgree(io: seq<Option<Ctx>>, adding: bool, fd: nat, was: Mask, res: Mask,
                  changes: seq<Change>, k: Kernel, c': Ctx, changes': seq<Change>, k': Kernel)
    requires Agree(io, changes, k) && fd < |io| && io[fd].Some?
    requires FdOk(io[fd], fd, changes, k)
    requires Told(adding, fd, was, res, io[fd].value.idxplus1, changes, k, c'.idxplus1, changes', k')
    requires FdOk(Some(c'), fd, changes', k')
    ensures Agree(io[fd := Some(c')], changes', k')
  {
    AgreeUpdate(io, changes, k, fd, c', changes', k');
  }

  lemma ChangesReady(io: seq<Option<Ctx>>, changes: seq<Change>, k: Kernel)
    requires Agree(io, changes, k)
    ensures DistinctFds(changes) && Clean(k)
    ensures forall i :: 0 <= i < |changes| ==>
      SlotOf(io, changes[i], i) && Sane(changes[i]) && changes[i].was == Has(k, changes[i].fd)
  {
    forall i | 0 <= i < |changes|
      ensures Sane(changes[i]) && changes[i].was == Has(k, changes[i].fd)
    {
      assert SlotOf(io, changes[i], i);
      assert FdOk(io[changes[i].fd], changes[i].fd, changes, k);
    }
    forall i, j | 0 <= i < j < |changes|
      ensures changes[i].fd != changes[j].fd
    {
      assert SlotOf(io, changes[i], i) && SlotOf(io, changes[j], j);
    }
  }

  /** Once the changelist has been applied, the kernel holds what the events want. */
  lemma DispatchAgree(io: seq<Option<Ctx>>, changes: seq<Change>, k: Kernel, io': seq<Option<Ctx>>, k': Kernel)
    requires Agree(io, changes, k) && |io'| == |io| && Clean(k')
    requires forall i :: 0 <= i < |changes| ==> Has(k', changes[i].fd) == Target(changes[i])
    requires forall fd: nat :: (forall i :: 0 <= i < |changes| ==> changes[i].fd != fd) ==> Has(k', fd) == Has(k, fd)
    requires k'.Keys <= k.Keys + set i | 0 <= i < |changes| :: changes[i].fd
    requires forall fd :: 0 <= fd < |io| ==>
      io'[fd] == if io[fd].Some? && 0 < io[fd].value.idxplus1 <= |changes| && changes[io[fd].value.idxplus1 - 1].fd == fd
        then Some(io[fd].value.(idxplus1 := 0)) else io[fd]
    ensures Agree(io', [], k')
    ensures forall fd: nat :: EventsIn(io', fd) == EventsIn(io, fd)
    ensures forall fd: nat :: Has(k', fd) == Desired(EventsIn(io', fd))
  {
    forall fd | 0 <= fd < |io|
      ensures FdOk(io'[fd], fd, [], k')
    {
      assert FdOk(io[fd], fd, changes, k);
      if io[fd].None? || io[fd].value.idxplus1 == 0 {
        forall i | 0 <= i < |changes|
          ensures changes[i].fd != fd
        {
          assert SlotOf(io, changes[i], i);
        }
      }
    }
    forall fd | fd in k'
      ensures fd < |io'|
    {
      if fd !in k {
        var i :| 0 <= i < |changes| && changes[i].fd == fd;
        assert SlotOf(io, changes[i], i);
      }
    }
    forall fd: nat
      ensures Has(k', fd) == Desired(EventsIn(io', fd))
    {
      if fd < |io| {
        assert FdOk(io'[fd], fd, [], k');
      }
    }
  }

  /** evmap_reinit_ has told the backend about the fds below n; the fdinfo entries of
      the others are stale. */
  ghost predicate ReinitUpTo(io0: seq<Option<Ctx>>, n: nat, io: seq<Option<Ctx>>, changes: seq<Change>, k: Kernel) {
    && |io| == |io0| && n <= |io|
    && (forall fd :: 0 <= fd < n ==> FdOk(io[fd], fd, changes, k))
    && (forall i :: 0 <= i < |changes| ==> changes[i].fd < n && SlotOf(io, changes[i], i))
    && (forall fd :: fd in k ==> fd < n && k[fd] != NONE)
    && (forall fd :: n <= fd < |io| ==> io[fd] == io0[fd])
    && (forall fd :: 0 <= fd < |io| ==> io[fd].Some? == io0[fd].Some? && (io[fd].Some? ==> io[fd].value.events == io0[fd].value.events))
  }

  lemma ReinitStart(io: seq<Option<Ctx>>)
    ensures ReinitUpTo(io, 0, io, [], map[])
  {
  }

  lemma ReinitFacts(io0: seq<Option<Ctx>>, n: nat, io: seq<Option<Ctx>>, changes: seq<Change>, k: Kernel)
    requires ReinitUpTo(io0, n, io, changes, k)
    ensures Clean(k) && n !in k
  {
  }

  lemma ReinitEnd(io0: seq<Option<Ctx>>, io: seq<Option<Ctx>>, changes: seq<Change>, k: Kernel)
    requires ReinitUpTo(io0, |io|, io, changes, k)
    ensures Agree(io, changes, k)
    ensures forall fd: nat :: EventsIn(io, fd) == EventsIn(io0, fd)
  {
  }

  lemma ReinitStep(io0: seq<Option<Ctx>>, ch0: seq<Change>, k0: Kernel, fd: nat,
                   io: seq<Option<Ctx>>, changes: seq<Change>, k: Kernel,
                   changes': seq<Change>, k': Kernel, idx: nat)
    requires ReinitUpTo(io0, fd, io, changes, k) && fd < |io| && io[fd].Some?
    requires FdOk(io0[fd], fd, ch0, k0)
    requires var events := InterestOf(io[fd].value);
      || (&& k' == k && idx == |changes| + 1
          && changes' == changes + [AddActs(Change(fd, NONE, Keep, Keep, Keep), events)])
      || (&& idx == 0 && changes' == changes == []
          && Has(k', fd) == events && Clean(k')
          && k'.Keys <= k.Keys + {fd} && forall f: nat :: f != fd ==> Has(k', f) == Has(k, f))
    ensures ReinitUpTo(io0, fd + 1, io[fd := Some(io[fd].value.(idxplus1 := idx))], changes', k')
  {
    var io' := io[fd := Some(io[fd].value.(idxplus1 := idx))];
    forall f | 0 <= f < fd + 1
      ensures FdOk(io'[f], f, changes', k')
    {
      if f < fd {
        assert FdOk(io[f], f, changes, k);
      }
    }
    forall i | 0 <= i < |changes'|
      ensures changes'[i].fd < fd + 1 && SlotOf(io', changes'[i], i)
    {
      if i < |changes| {
        assert SlotOf(io, changes[i], i);
      }
    }
  }

  lemma ReinitSkip(io0: seq<Option<Ctx>>, ch0: seq<Change>, k0: Kernel, fd: nat,
                   io: seq<Option<Ctx>>, changes: seq<Change>, k: Kernel)
    requires ReinitUpTo(io0, fd, io, changes, k) && fd < |io| && io[fd].None?
    ensures ReinitUpTo(io0, fd + 1, io, changes, k)
  {
  }

  // ---------------------------------------------------------------- whole runs

  datatype IoOp = OpAdd(fd: int, ev: Event) | OpDel(fd: int, ev: Event) | OpDispatch | OpReinit

  /** Which events are registered on which fd: the plain view of a run. */
  type Registry = map<nat, seq<Event>>

  function Lookup(m: Registry, fd: nat): seq<Event> {
    if fd in m then m[fd] else []
  }

  ghost predicate Full(events: seq<Event>, ev: Event) {
    exists e: Ev :: Bit(ev.wants, e) && Count(events, e) >= MAX_PER_FD
  }

  ghost function StepRegistry(m: Registry, op: IoOp): Registry {
    match op
    case OpAdd(fd, ev) => if fd < 0 || Full(Lookup(m, fd), ev) then m else m[fd := [ev] + Lookup(m, fd)]
    case OpDel(fd, ev) => if fd < 0 || ev !in Lookup(m, fd) then m else m[fd := RemoveOne(Lookup(m, fd), ev)]
    case OpDispatch => m
    case OpReinit => m
  }

  ghost function RunRegistry(m: Registry, ops: seq<IoOp>): Registry {
    if ops == [] then m else StepRegistry(RunRegistry(m, ops[..|ops| - 1]), ops[|ops| - 1])
  }

  /** For an unbatched base, agreement already means that the kernel is in step. */
  lemma UnbatchedSynced(io: seq<Option<Ctx>>, k: Kernel)
    requires Agree(io, [], k)
    ensures forall fd: nat :: Has(k, fd) == Desired(EventsIn(io, fd))
  {
    forall fd: nat
      ensures Has(k, fd) == Desired(EventsIn(io, fd))
    {
      if fd < |io| {
        assert FdOk(io[fd], fd, [], k);
      }
    }
  }

  /** One call; a delete is only made for an event that is registered. */
  method RunOp(b: IoBase, op: IoOp, ghost m: Registry)
    requires b.Valid() && forall f: nat :: b.EventsOn(f) == Lookup(m, f)
    modifies b`io, b`changes, b`kernel
    ensures b.Valid() && forall f: nat :: b.EventsOn(f) == Lookup(StepRegistry(m, op), f)
  {
    hide Agree, Count;
    match op {
      case OpAdd(fd, ev) =>
        var r := b.IoAdd(fd, ev);
      case OpDel(fd, ev) =>
        if fd >= 0 && fd < |b.io| && b.io[fd].Some? && ev in b.io[fd].value.events {
          var r := b.IoDel(fd, ev);
        } else if fd >= 0 {
          assert b.EventsOn(fd) == Lookup(m, fd);
        }
      case OpDispatch => b.Dispatch();
      case OpReinit => b.Reinit();
    }
  }

  /** Any run of adds, deletes, dispatches and reinits, followed by a dispatch, leaves
      the batched base and the immediate base with the same kernel interest map, and
      that map is the one the registered events ask for. */
  method RunBoth(a: IoBase, b: IoBase, ops: seq<IoOp>, ghost m: Registry)
    requires a != b && a.batched && !b.batched && a.Valid() && b.Valid()
    requires forall f: nat :: a.EventsOn(f) == Lookup(m, f)
    requires forall f: nat :: b.EventsOn(f) == Lookup(m, f)
    modifies a`io, a`changes, a`kernel, b`io, b`changes, b`kernel
    ensures a.kernel == b.kernel
    ensures forall f: nat :: Has(a.kernel, f) == Desired(Lookup(RunRegistry(m, ops), f))
    ensures forall f: nat :: f in a.kernel ==> a.kernel[f] != NONE
  {
    hide Agree, Count, StepRegistry;
    assert ops[..0] == [];
    var i := 0;
    while i < |ops|
      invariant 0 <= i <= |ops| && a.Valid() && b.Valid()
      invariant forall f: nat :: a.EventsOn(f) == Lookup(RunRegistry(m, ops[..i]), f)
      invariant forall f: nat :: b.EventsOn(f) == Lookup(RunRegistry(m, ops[..i]), f)
    {
      ghost var now := RunRegistry(m, ops[..i]);
      RunOp(a, ops[i], now);
      RunOp(b, ops[i], now);
      assert ops[..i + 1][..i] == ops[..i];
      i := i + 1;
    }
    assert ops[..i] == ops;
    a.Dispatch();
    UnbatchedSynced(b.io, b.kernel);
    forall f: nat
      ensures EventsIn(a.io, f) == EventsIn(b.io, f)
    {
      assert a.EventsOn(f) == b.EventsOn(f);
    }
    SameKernel(a.io, a.kernel, b.io, b.kernel);
    AgreeClean(a.io, a.changes, a.kernel);
  }

  lemma AgreeClean(io: seq<Option<Ctx>>, changes: seq<Change>, k: Kernel)
    requires Agree(io, changes, k)
    ensures Clean(k)
  {
  }

  lemma SameKernel(io1: seq<Option<Ctx>>, k1: Kernel, io2: seq<Option<Ctx>>, k2: Kernel)
    requires Agree(io1, [], k1) && Agree(io2, [], k2)
    requires forall f: nat :: EventsIn(io1, f) == EventsIn(io2, f)
    ensures k1 == k2
  {
    UnbatchedSynced(io1, k1);
    UnbatchedSynced(io2, k2);
    forall f: nat
      ensures f in k1 <==> f in k2
      ensures f in k1 && f in k2 ==> k1[f] == k2[f]
    {
      assert EventsIn(io1, f) == EventsIn(io2, f);
      assert Has(k1, f) == Has(k2, f);
    }
  }
}
