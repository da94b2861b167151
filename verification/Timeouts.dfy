/**
  Timeouts of an event_base: adding and deleting events, the min-heap together with the
  common timeout queues and their internal timers, and the timeout pass of the loop.
 */
module Timeouts {
  import opened EventQueues
  import opened EventBases

  /** Nothing but id and the internal timers changed, and no internal timer became
      active. */
  ghost predicate Quiet(was: Cbs, cbs: Cbs, timers: seq<nat>, id: nat) {
    && was.Keys == cbs.Keys
    && (forall x :: x in was && x != id && x !in timers ==> cbs[x] == was[x])
    && (forall x :: x in was && x in timers && cbs[x].active ==> was[x].active)
  }

  lemma QuietSet(cbs: Cbs, timers: seq<nat>, id: nat, d: Cb)
    requires id in cbs && id !in timers
    ensures Quiet(cbs, cbs[id := d], timers, id)
  {
  }

  lemma QuietTrans(a: Cbs, b: Cbs, c: Cbs, timers: seq<nat>, id: nat)
    requires Quiet(a, b, timers, id) && Quiet(b, c, timers, id)
    ensures Quiet(a, c, timers, id)
  {
  }

  /** Taking an event out of its common timeout queue, or out of no queue. */
  lemma TimersTaken(cbs: Cbs, active: seq<seq<nat>>, later: seq<nat>, heap: map<nat, nat>, queues: seq<seq<nat>>,
                    timers: seq<nat>, but: nat, id: nat, d: Cb, queues': seq<seq<nat>>)
    requires QueuesOk(cbs, active, later, heap, queues) && TimersBut(cbs, timers, queues, but)
    requires id in cbs && id !in timers && d.at == cbs[id].at
    requires queues' == queues || (0 <= cbs[id].common < |queues|
      && queues' == queues[cbs[id].common := Without(queues[cbs[id].common], id)])
    ensures TimersBut(cbs[id := d], timers, queues', but)
  {
    hide QueuesOk, TimersBut;
    if queues' != queues {
      CommonFacts(cbs, active, later, heap, queues, id);
      TimersRemove(cbs, timers, queues, but, id, cbs[id].common);
    }
    TimersFrame(cbs, timers, queues', but, id, d);
  }

  /** event_queue_remove_timeout on an event of the user. */
  method DropTimeout(b: EventBase, id: nat)
    requires b.Valid() && b.User(id) && b.cbs[id].timeout
    modifies b`cbs, b`heap, b`queues, b`eventCount
    ensures b.Valid()
    ensures b.cbs == old(b.cbs)[id := old(b.cbs)[id].(timeout := false)]
    ensures |b.queues| == |old(b.queues)|
  {
    hide QueuesOk, FlagsOk, TimersBut, Memberships, TotalLen;
    ghost var c := b.cbs[id];
    FlagsAt(b.cbs, id);
    FlagsSet(b.cbs, id, c.(timeout := false));
    label Was:
    b.RemoveTimeout(id);
    TimersTaken(old@Was(b.cbs), old@Was(b.active), old@Was(b.later), old@Was(b.heap), old@Was(b.queues), b.timers,
                |b.queues|, id, c.(timeout := false), b.queues);
  }

  /** event_del_nolock_ on an event of the user, while the timer of one common timeout
      may be late; no queue is exempt when but is their number. */
  method DelUser(b: EventBase, id: nat, ghost but: nat)
    requires b.Almost(but) && b.User(id) && b.cbs[id].attr.isEvent
    modifies b`cbs, b`active, b`later, b`heap, b`queues, b`eventCount, b`activeCount
    ensures b.Almost(but)
    ensures b.cbs == old(b.cbs)[id := Deleted(old(b.cbs)[id])]
    ensures DelQueues(old(b.cbs)[id], id, old(b.heap), old(b.queues), b.heap, b.queues)
  {
    hide QueuesOk, FlagsOk, TimersBut, Memberships, TotalLen;
    label Was:
    b.Del(id);
    TimersTaken(old@Was(b.cbs), old@Was(b.active), old@Was(b.later), old@Was(b.heap), old@Was(b.queues), b.timers,
                but, id, Deleted(old@Was(b.cbs)[id]), b.queues);
  }

  /** event_active_nolock_ on an event of the user. */
  method ActivateUser(b: EventBase, id: nat, byTimeout: bool, ghost but: nat)
    requires b.Almost(but) && b.User(id)
    modifies b`cbs, b`active, b`later, b`eventCount, b`activeCount, b`cont
    ensures b.Almost(but)
    ensures b.cbs == old(b.cbs)[id := Activated(old(b.cbs)[id], byTimeout)]
    ensures b.cont == (old(b.cont)
      || (!old(b.cbs)[id].finalizing && !old(b.cbs)[id].active && old(b.cbs)[id].attr.pri < b.running))
  {
    hide QueuesOk, FlagsOk, TimersBut, Memberships, TotalLen;
    TimersFrame(b.cbs, b.timers, b.queues, but, id, Activated(b.cbs[id], byTimeout));
    b.Activate(id, byTimeout);
  }

  // ------------------------------------------------------------ internal timers

  ghost predicate HeadsOfUsers(timers: seq<nat>, queues: seq<seq<nat>>) {
    forall x :: 0 <= x < |queues| && queues[x] != [] ==> queues[x][0] !in timers
  }

  /** No internal timer waits on a common timeout. */
  lemma HeadsAreUsers(cbs: Cbs, active: seq<seq<nat>>, later: seq<nat>, heap: map<nat, nat>, queues: seq<seq<nat>>,
                      timers: seq<nat>, but: nat)
    requires QueuesOk(cbs, active, later, heap, queues) && TimersBut(cbs, timers, queues, but)
    ensures HeadsOfUsers(timers, queues)
  {
    forall x | 0 <= x < |queues| && queues[x] != []
      ensures queues[x][0] !in timers
    {
      assert HoldsCommon(queues[x], cbs, x);
      assert queues[x][0] in queues[x];
    }
  }

  lemma HeadInQueue(cbs: Cbs, active: seq<seq<nat>>, later: seq<nat>, heap: map<nat, nat>, queues: seq<seq<nat>>, q: nat)
    requires QueuesOk(cbs, active, later, heap, queues) && q < |queues| && queues[q] != []
    ensures queues[q][0] in cbs && cbs[queues[q][0]].timeout && cbs[queues[q][0]].common == q
  {
    assert HoldsCommon(queues[q], cbs, q);
    assert queues[q][0] in queues[q];
  }

  /** Setting the timer of queue q right repairs the whole. */
  lemma TimersRepair(cbs: Cbs, timers: seq<nat>, queues: seq<seq<nat>>, q: nat, t: Cb)
    requires TimersBut(cbs, timers, queues, q) && q < |queues| && TimerShape(t)
    requires queues[q] == [] || (queues[q][0] in cbs
      && (t.active || (t.timeout && t.at <= cbs[queues[q][0]].at)))
    requires HeadsOfUsers(timers, queues)
    ensures TimersOk(cbs[timers[q] := t], timers, queues)
  {
    var cbs' := cbs[timers[q] := t];
    forall x | 0 <= x < |queues|
      ensures TimerOk(cbs', timers[x], queues[x])
    {
      assert x != q ==> timers[x] != timers[q];
      assert timers[q] in timers;
      if x != q {
        assert TimerOk(cbs, timers[x], queues[x]);
      }
    }
  }

  /** common_timeout_schedule: event_add_nolock_ of the internal timer, at the absolute
      deadline of the first event waiting. */
  method ScheduleTimer(b: EventBase, q: nat)
    requires b.Base() && q < |b.queues| && TimersBut(b.cbs, b.timers, b.queues, q) && b.queues[q] != []
    requires b.queues[q][0] in b.cbs
    modifies b`cbs, b`active, b`heap, b`queues, b`eventCount, b`activeCount
    ensures b.Valid() && b.queues == old(b.queues)
    ensures var t := b.timers[q];
      t in old(b.cbs) && b.cbs == old(b.cbs)[t := Scheduled(old(b.cbs)[t], old(b.cbs)[b.queues[q][0]].at)]
  {
    hide QueuesOk, FlagsOk, TimersBut, Memberships, TotalLen, CbOk;
    HeadsAreUsers(b.cbs, b.active, b.later, b.heap, b.queues, b.timers, q);
    TimerFacts(b.cbs, b.timers, b.queues, q, q);
    var t, at := b.timers[q], b.cbs[b.queues[q][0]].at;
    ghost var c := b.cbs[t];
    FlagsAt(b.cbs, t);
    ScheduledFacts(c, at);
    FlagsSet(b.cbs, t, Scheduled(c, at));
    TimersRepair(b.cbs, b.timers, b.queues, q, Scheduled(c, at));
    ghost var d1 := c.(timeout := false);
    ghost var d2 := d1.(active := false);
    if b.cbs[t].timeout {
      b.RemoveTimeout(t);
    }
    Unchanged(old(b.cbs), t);
    assert b.cbs == old(b.cbs)[t := d1];
    if b.cbs[t].active && b.cbs[t].byTimeout {
      b.RemoveActive(t);
    }
    Overwrite(old(b.cbs), t, d1, d2);
    assert b.cbs == old(b.cbs)[t := d2];
    Overwrite(old(b.cbs), t, d2, Scheduled(c, at));
    ghost var k := b.InsertTimeout(t, at, -1);
  }

  function Scheduled(t: Cb, at: nat): Cb {
    t.(timeout := true, at := at, active := false)
  }

  lemma ScheduledFacts(t: Cb, at: nat)
    requires TimerShape(t) && CbOk(t)
    ensures TimerShape(Scheduled(t, at)) && CbOk(Scheduled(t, at))
    ensures Scheduled(t, at) == t.(timeout := false, active := false).(timeout := true, at := at, common := -1)
  {
  }

  lemma TimerFacts(cbs: Cbs, timers: seq<nat>, queues: seq<seq<nat>>, but: nat, q: nat)
    requires TimersBut(cbs, timers, queues, but) && q < |queues|
    ensures |timers| == |queues| && timers[q] in cbs && TimerShape(cbs[timers[q]])
  {
  }

  // ------------------------------------------------------------ event_add

  /** An event put first in its queue: only the timer of that queue may now be late. */
  lemma TimersFirst(cbs: Cbs, timers: seq<nat>, queues: seq<seq<nat>>, q: nat, list: seq<nat>)
    requires TimersOk(cbs, timers, queues) && q < |queues|
    ensures TimersBut(cbs, timers, queues[q := list], q)
  {
  }

  /** What inserting an event into common timeout q at position k asks of the timers. */
  lemma TimersPlaced(cbs: Cbs, active: seq<seq<nat>>, later: seq<nat>, heap: map<nat, nat>, queues: seq<seq<nat>>,
                     timers: seq<nat>, id: nat, d: Cb, q: nat, k: nat)
    requires QueuesOk(cbs, active, later, heap, queues) && TimersOk(cbs, timers, queues)
    requires id in cbs && id !in timers && !cbs[id].timeout && q < |queues| && k <= |queues[q]|
    ensures var list := queues[q][..k] + [id] + queues[q][k..];
      if k == 0 then list[0] == id && TimersBut(cbs[id := d], timers, queues[q := list], q)
      else list[0] != id && TimersOk(cbs[id := d], timers, queues[q := list])
  {
    hide QueuesOk, TimersBut;
    NotInQueues(cbs, active, later, heap, queues, id);
    TimersFrame(cbs, timers, queues, |queues|, id, d);
    var list := queues[q][..k] + [id] + queues[q][k..];
    if k == 0 {
      TimersFirst(cbs[id := d], timers, queues, q, list);
    } else {
      assert list[0] == queues[q][0];
      assert queues[q][0] in queues[q];
      TimersInsert(cbs[id := d], timers, queues, id, q, k);
    }
  }

  /** Set ev_timeout, insert, and wake the internal timer when the event comes first
      on its common timeout. */
  method PlaceTimeout(b: EventBase, id: nat, at: nat, common: int)
    requires b.Valid() && b.User(id) && -1 <= common < |b.queues|
    requires !b.cbs[id].timeout && b.cbs[id].attr.isEvent && !b.cbs[id].finalizing
    modifies b`cbs, b`active, b`heap, b`queues, b`eventCount, b`activeCount
    ensures b.Valid() && |b.queues| == |old(b.queues)|
    ensures Quiet(old(b.cbs), b.cbs, b.timers, id)
    ensures b.cbs[id] == old(b.cbs)[id].(timeout := true, at := at, common := common)
  {
    hide QueuesOk, FlagsOk, TimersBut, Memberships, TotalLen, Quiet;
    ghost var c := b.cbs[id];
    ghost var d := c.(timeout := true, at := at, common := common);
    FlagsAt(b.cbs, id);
    FlagsSet(b.cbs, id, d);
    QuietSet(b.cbs, b.timers, id, d);
    label Was:
    ghost var k := b.InsertTimeout(id, at, common);
    if common == -1 {
      NotInQueues(old@Was(b.cbs), old@Was(b.active), old@Was(b.later), old@Was(b.heap), old@Was(b.queues), id);
      TimersFrame(old@Was(b.cbs), b.timers, b.queues, |b.queues|, id, d);
      return;
    }
    TimersPlaced(old@Was(b.cbs), old@Was(b.active), old@Was(b.later), old@Was(b.heap), old@Was(b.queues), b.timers,
                 id, d, common, k);
    if b.queues[common][0] == id {
      label Mid:
      TimerFacts(b.cbs, b.timers, b.queues, common, common);
      ScheduleTimer(b, common);
      QuietTimer(old@Mid(b.cbs), b.timers, common, id, at);
      QuietTrans(old@Was(b.cbs), old@Mid(b.cbs), b.cbs, b.timers, id);
    }
  }

  lemma QuietTimer(cbs: Cbs, timers: seq<nat>, q: nat, id: nat, at: nat)
    requires q < |timers| && timers[q] in cbs && id !in timers
    ensures Quiet(cbs, cbs[timers[q] := Scheduled(cbs[timers[q]], at)], timers, id)
    ensures id in cbs ==> cbs[timers[q] := Scheduled(cbs[timers[q]], at)][id] == cbs[id]
  {
    assert timers[q] in timers;
  }

  /** event_queue_remove_active on a callback of the user. */
  method DropActive(b: EventBase, id: nat)
    requires b.Valid() && b.User(id) && b.cbs[id].active
    modifies b`cbs, b`active, b`eventCount, b`activeCount
    ensures b.Valid()
    ensures b.cbs == old(b.cbs)[id := old(b.cbs)[id].(active := false)]
    ensures var p := old(b.cbs)[id].attr.pri;
      p < |old(b.active)| && b.active == old(b.active)[p := Without(old(b.active)[p], id)]
  {
    hide QueuesOk, FlagsOk, TimersBut, Memberships, TotalLen;
    ghost var d := b.cbs[id].(active := false);
    FlagsAt(b.cbs, id);
    FlagsSet(b.cbs, id, d);
    TimersFrame(b.cbs, b.timers, b.queues, |b.queues|, id, d);
    b.RemoveActive(id);
  }

  /** The event after its timeout is set: an activation by an earlier timeout is
      withdrawn. */
  function Timed(c: Cb, at: nat, common: int): Cb {
    c.(timeout := true, at := at, common := common, active := c.active && !c.byTimeout)
  }

  function Untimed(c: Cb): Cb {
    c.(timeout := false, active := c.active && !c.byTimeout)
  }

  /** Withdraw the timeout of an event and its activation by that timeout. */
  method ClearTimeout(b: EventBase, id: nat)
    requires b.Valid() && b.User(id)
    modifies b`cbs, b`active, b`heap, b`queues, b`eventCount, b`activeCount
    ensures b.Valid() && |b.queues| == |old(b.queues)|
    ensures b.cbs == old(b.cbs)[id := Untimed(old(b.cbs)[id])]
  {
    hide EventBase.Valid;
    var c := b.cbs[id];
    ghost var d := c.(timeout := false);
    if c.timeout {
      DropTimeout(b, id);
    }
    Unchanged(old(b.cbs), id);
    assert b.cbs == old(b.cbs)[id := d];
    Overwrite(old(b.cbs), id, d, Untimed(c));
    if c.active && c.byTimeout {
      DropActive(b, id);
    }
  }

  /** The timeout part of event_add_nolock_. */
  method AddTimeout(b: EventBase, id: nat, at: nat, common: int)
    requires b.Valid() && b.User(id) && -1 <= common < |b.queues|
    requires b.cbs[id].attr.isEvent && !b.cbs[id].finalizing
    modifies b`cbs, b`active, b`heap, b`queues, b`eventCount, b`activeCount
    ensures b.Valid() && |b.queues| == |old(b.queues)|
    ensures Quiet(old(b.cbs), b.cbs, b.timers, id)
    ensures b.cbs[id] == Timed(old(b.cbs)[id], at, common)
  {
    hide EventBase.Valid, Quiet;
    ClearTimeout(b, id);
    QuietSet(old(b.cbs), b.timers, id, Untimed(old(b.cbs)[id]));
    label Mid:
    PlaceTimeout(b, id, at, common);
    QuietTrans(old(b.cbs), old@Mid(b.cbs), b.cbs, b.timers, id);
    QuietKeys(old@Mid(b.cbs), b.cbs, b.timers, id);
  }

  lemma QuietKeys(was: Cbs, cbs: Cbs, timers: seq<nat>, id: nat)
    requires Quiet(was, cbs, timers, id)
    ensures was.Keys == cbs.Keys
  {
  }

  /** The tv argument of event_add_nolock_, with the common timeout it names, or -1. */
  datatype When = NoTv | Rel(dur: nat, common: int) | Abs(at: nat, common: int)

  /** evmap_io_add_ is called. */
  predicate NeedsIo(c: Cb) {
    c.attr.io && !c.inserted && !c.active && !c.later
  }

  function Registered(c: Cb): Cb {
    if NeedsIo(c) then c.(inserted := true) else c
  }

  /** A persistent event remembers its relative timeout. */
  function WithPeriod(c: Cb, dur: nat, common: int): Cb {
    if c.attr.persist then c.(period := dur, ioCommon := common) else c
  }

  /** The event after event_add_nolock_. */
  function Added(c: Cb, tv: When, now: nat, ioFails: bool): Cb {
    if c.finalizing || (NeedsIo(c) && ioFails) then c
    else
      match tv
      case NoTv => Registered(c)
      case Rel(dur, common) => Timed(WithPeriod(Registered(c), dur, common), now + dur, common)
      case Abs(at, common) => Timed(Registered(c), at, common)
  }

  /** What adding an event comes to: it is registered for I/O unless it already is, is active
      or waits to be; with a timeout it is due then, an activation by an earlier timeout is
      withdrawn, and a persistent event remembers a relative one as its period. */
  lemma AddedMeans(c: Cb, tv: When, now: nat, ioFails: bool)
    ensures var d := Added(c, tv, now, ioFails);
      if c.finalizing || (c.attr.io && !c.inserted && !c.active && !c.later && ioFails) then d == c
      else
        && d.attr == c.attr && d.later == c.later && d.byTimeout == c.byTimeout && !d.finalizing
        && d.inserted == (c.inserted || (c.attr.io && !c.active && !c.later))
        && match tv
           case NoTv => d == c.(inserted := d.inserted)
           case Rel(dur, common) =>
             && d.timeout && d.at == now + dur && d.common == common && d.active == (c.active && !c.byTimeout)
             && (if c.attr.persist then d.period == dur && d.ioCommon == common else d.period == c.period && d.ioCommon == c.ioCommon)
           case Abs(at, common) =>
             && d.timeout && d.at == at && d.common == common && d.active == (c.active && !c.byTimeout)
             && d.period == c.period && d.ioCommon == c.ioCommon
  {
  }

  /** Set EVLIST_INSERTED of a user's event. */
  method Register(b: EventBase, id: nat)
    requires b.Valid() && b.User(id) && NeedsIo(b.cbs[id]) && !b.cbs[id].finalizing
    modifies b`cbs, b`eventCount
    ensures b.Valid()
    ensures b.cbs == old(b.cbs)[id := Registered(old(b.cbs)[id])]
  {
    hide QueuesOk, FlagsOk, TimersBut, Memberships, TotalLen;
    ghost var d := Registered(b.cbs[id]);
    FlagsAt(b.cbs, id);
    FlagsSet(b.cbs, id, d);
    TimersFrame(b.cbs, b.timers, b.queues, |b.queues|, id, d);
    b.SetInserted(id, true);
  }

  /** Set ev_io_timeout of a user's event. */
  method SetPeriod(b: EventBase, id: nat, dur: nat, common: int)
    requires b.Valid() && b.User(id) && b.cbs[id].attr.persist
    modifies b`cbs
    ensures b.Valid()
    ensures b.cbs == old(b.cbs)[id := WithPeriod(old(b.cbs)[id], dur, common)]
  {
    hide QueuesOk, FlagsOk, TimersBut, Memberships, TotalLen;
    ghost var d := WithPeriod(b.cbs[id], dur, common);
    FlagsAt(b.cbs, id);
    FlagsSet(b.cbs, id, d);
    TimersFrame(b.cbs, b.timers, b.queues, |b.queues|, id, d);
    b.Patch(id, b.cbs[id].(period := dur, ioCommon := common));
  }

  /** event_add_nolock_; ioFails is the failure of evmap_io_add_. */
  method Add(b: EventBase, id: nat, tv: When, now: nat, ioFails: bool) returns (res: int)
    requires b.Valid() && b.User(id) && b.cbs[id].attr.isEvent
    requires tv != NoTv ==> -1 <= tv.common < |b.queues|
    modifies b`cbs, b`active, b`heap, b`queues, b`eventCount, b`activeCount
    ensures b.Valid() && |b.queues| == |old(b.queues)|
    ensures Quiet(old(b.cbs), b.cbs, b.timers, id)
    ensures b.cbs[id] == Added(old(b.cbs)[id], tv, now, ioFails)
    ensures res == if old(b.cbs)[id].finalizing || (NeedsIo(old(b.cbs)[id]) && ioFails) then -1 else 0
  {
    hide EventBase.Valid, Quiet, Timed;
    ghost var c := b.cbs[id];
    Unchanged(b.cbs, id);
    QuietSet(b.cbs, b.timers, id, c);
    if b.cbs[id].finalizing {
      return -1;
    }
    if NeedsIo(b.cbs[id]) {
      if ioFails {
        return -1;
      }
      Register(b, id);
    }
    assert b.cbs == old(b.cbs)[id := Registered(c)];
    QuietSet(old(b.cbs), b.timers, id, Registered(c));
    res := 0;
    match tv {
      case NoTv =>
      case Rel(dur, common) =>
        AddRelative(b, id, dur, common, now);
        QuietTrans(old(b.cbs), old(b.cbs)[id := Registered(c)], b.cbs, b.timers, id);
      case Abs(at, common) =>
        AddTimeout(b, id, at, common);
        QuietTrans(old(b.cbs), old(b.cbs)[id := Registered(c)], b.cbs, b.timers, id);
    }
  }

  /** A relative timeout: a persistent event remembers its period. */
  method AddRelative(b: EventBase, id: nat, dur: nat, common: int, now: nat)
    requires b.Valid() && b.User(id) && -1 <= common < |b.queues|
    requires b.cbs[id].attr.isEvent && !b.cbs[id].finalizing
    modifies b`cbs, b`active, b`heap, b`queues, b`eventCount, b`activeCount
    ensures b.Valid() && |b.queues| == |old(b.queues)|
    ensures Quiet(old(b.cbs), b.cbs, b.timers, id)
    ensures var c := old(b.cbs)[id];
      b.cbs[id] == Timed(WithPeriod(c, dur, common), now + dur, common)
  {
    hide EventBase.Valid, Quiet, Timed;
    ghost var c := b.cbs[id];
    ghost var d := WithPeriod(c, dur, common);
    if b.cbs[id].attr.persist {
      SetPeriod(b, id, dur, common);
    }
    Unchanged(old(b.cbs), id);
    assert b.cbs == old(b.cbs)[id := d];
    QuietSet(old(b.cbs), b.timers, id, d);
    AddTimeout(b, id, now + dur, common);
    QuietTrans(old(b.cbs), old(b.cbs)[id := d], b.cbs, b.timers, id);
  }
}
