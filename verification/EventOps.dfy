/**
  The calls a callback can make on its event_base, as one operation each: what each does
  to the callback it names, to the continue flag and to the count of deferred callbacks.
 */
module EventOps {
  import opened EventQueues
  import opened EventBases
  import opened Timeouts

  datatype Op =
    | OpAdd(id: nat, tv: When, now: nat, ioFails: bool)
    | OpDel(id: nat)
    | OpActive(id: nat, byTimeout: bool)
    | OpActiveLater(id: nat, byTimeout: bool)
    | OpCancel(id: nat)
    | OpFinalize(id: nat)
    | OpDeferred(id: nat)

  /** The callback named by op, after op; n is n_deferreds_queued before. */
  function Effect(op: Op, c: Cb, n: nat): Cb {
    match op
    case OpAdd(_, tv, now, ioFails) => Added(c, tv, now, ioFails)
    case OpDel(_) => Deleted(c)
    case OpActive(_, byTimeout) => Activated(c, byTimeout)
    case OpActiveLater(_, byTimeout) => DeferredTo(c.(byTimeout := Merged(c, byTimeout)))
    case OpCancel(_) => Deleted(c)
    case OpFinalize(_) => Finalized(c)
    case OpDeferred(_) => if n > MAX_DEFERREDS_QUEUED then DeferredTo(c) else Started(c)
  }

  /** ev_res after an activation with or without EV_TIMEOUT. */
  function Merged(c: Cb, byTimeout: bool): bool {
    if c.active || c.later then c.byTimeout || byTimeout else byTimeout
  }

  /** After event_callback_activate_later_nolock_. */
  function DeferredTo(c: Cb): Cb {
    if c.active || c.later then c else c.(later := true)
  }

  /** After event_callback_activate_nolock_. */
  function Started(c: Cb): Cb {
    if c.finalizing then c else c.(active := true, later := false)
  }

  /** After event_finalize or event_callback_finalize_. */
  function Finalized(c: Cb): Cb {
    if c.finalizing then c
    else (if c.attr.isEvent then Activated(Deleted(c), false) else Started(Deleted(c))).(finalizing := true)
  }

  /** op makes the loop stop after the running callback. */
  predicate SetsCont(op: Op, c: Cb, running: int) {
    match op
    case OpActive(_, _) => !c.finalizing && !c.active && c.attr.pri < running
    case OpFinalize(_) => c.attr.isEvent && !c.finalizing && c.attr.pri < running
    case _ => false
  }

  /** What op adds to n_deferreds_queued. */
  function Counted(op: Op, c: Cb, n: nat): nat {
    if op.OpDeferred? && n <= MAX_DEFERREDS_QUEUED && !c.finalizing && !c.active && !c.later then 1 else 0
  }

  /** The op fits the callback it names: events are added, deleted and activated,
      bare callbacks are deferred.  event_add takes relative timeouts; absolute ones are for
      events without a period. */
  predicate Fits(op: Op, cbs: Cbs, timers: seq<nat>, nQueues: nat) {
    && op.id in cbs && op.id !in timers
    && (op.OpAdd? || op.OpDel? || op.OpActive? || op.OpActiveLater? ==> cbs[op.id].attr.isEvent)
    && (op.OpAdd? && op.tv != NoTv ==> -1 <= op.tv.common < nQueues)
    && (op.OpAdd? && op.tv.Abs? ==> !cbs[op.id].attr.persist)
    && (op.OpDeferred? ==> !cbs[op.id].attr.isEvent && cbs[op.id].attr.selfCb)
  }

  /** event_active_later_nolock_ */
  method ActivateLater(b: EventBase, id: nat, byTimeout: bool)
    requires b.Valid() && b.User(id)
    modifies b`cbs, b`later, b`eventCount, b`activeCount
    ensures b.Valid()
    ensures var c := old(b.cbs)[id]; b.cbs == old(b.cbs)[id := DeferredTo(c.(byTimeout := Merged(c, byTimeout)))]
  {
    hide QueuesOk, FlagsOk, Memberships, TotalLen, TimersBut;
    var c := b.cbs[id];
    var d := c.(byTimeout := byTimeout || ((c.active || c.later) && c.byTimeout));
    FlagsAt(b.cbs, id);
    FlagsSet(b.cbs, id, d);
    TimersFrame(b.cbs, b.timers, b.queues, |b.queues|, id, DeferredTo(d));
    Overwrite(b.cbs, id, d, DeferredTo(d));
    b.Patch(id, d);
    if c.active || c.later {
      return;
    }
    var r := b.CallbackActivateLater(id);
  }

  /** event_callback_cancel_nolock_ */
  method Cancel(b: EventBase, id: nat)
    requires b.Valid() && b.User(id)
    modifies b`cbs, b`active, b`later, b`heap, b`queues, b`eventCount, b`activeCount
    ensures b.Valid() && |b.queues| == |old(b.queues)|
    ensures b.cbs == old(b.cbs)[id := Deleted(old(b.cbs)[id])]
  {
    hide QueuesOk, FlagsOk, Memberships, TotalLen, TimersBut;
    var c := b.cbs[id];
    FlagsAt(b.cbs, id);
    Unchanged(b.cbs, id);
    if c.finalizing {
      return;
    }
    if c.attr.isEvent {
      DelUser(b, id, |b.queues|);
      return;
    }
    CancelBare(b, id);
  }

  /** The same for a bare callback. */
  method CancelBare(b: EventBase, id: nat)
    requires b.Valid() && b.User(id) && !b.cbs[id].attr.isEvent && !b.cbs[id].finalizing
    modifies b`cbs, b`active, b`later, b`eventCount, b`activeCount
    ensures b.Valid()
    ensures b.cbs == old(b.cbs)[id := Deleted(old(b.cbs)[id])]
  {
    hide QueuesOk, FlagsOk, Memberships, TotalLen, TimersBut, Deleted;
    var c := b.cbs[id];
    FlagsAt(b.cbs, id);
    DeletedBare(c);
    FlagsSet(b.cbs, id, Deleted(c));
    TimersFrame(b.cbs, b.timers, b.queues, |b.queues|, id, Deleted(c));
    Unchanged(b.cbs, id);
    if c.active {
      b.RemoveActive(id);
    } else if c.later {
      b.RemoveLater(id);
    }
  }

  lemma DeletedBare(c: Cb)
    requires CbOk(c) && !c.attr.isEvent && !c.finalizing
    ensures CbOk(Deleted(c)) && Deleted(c).at == c.at
    ensures Deleted(c) == if c.active then c.(active := false) else if c.later then c.(later := false) else c
  {
  }

  /** event_callback_activate_nolock_ on a callback of the user. */
  method StartUser(b: EventBase, id: nat) returns (r: int)
    requires b.Valid() && b.User(id)
    modifies b`cbs, b`active, b`later, b`eventCount, b`activeCount
    ensures b.Valid()
    ensures b.cbs == old(b.cbs)[id := Started(old(b.cbs)[id])]
    ensures var c := old(b.cbs)[id]; r == if c.finalizing || c.active || c.later then 0 else 1
    ensures Enqueued(old(b.cbs)[id], id, old(b.active), b.active)
  {
    hide QueuesOk, FlagsOk, Memberships, TotalLen, TimersBut;
    ghost var c := b.cbs[id];
    FlagsAt(b.cbs, id);
    FlagsSet(b.cbs, id, Started(c));
    TimersFrame(b.cbs, b.timers, b.queues, |b.queues|, id, Started(c));
    Unchanged(b.cbs, id);
    r := b.CallbackActivate(id);
  }

  /** event_finalize_nolock_ and event_callback_finalize_nolock_ */
  method Finalize(b: EventBase, id: nat)
    requires b.Valid() && b.User(id)
    modifies b`cbs, b`active, b`later, b`heap, b`queues, b`eventCount, b`activeCount, b`cont
    ensures b.Valid() && |b.queues| == |old(b.queues)|
    ensures b.cbs == old(b.cbs)[id := Finalized(old(b.cbs)[id])]
    ensures var c := old(b.cbs)[id]; b.cont == (old(b.cont) || (c.attr.isEvent && !c.finalizing && c.attr.pri < b.running))
  {
    hide EventBase.Valid, Deleted, Activated, Started, Finalized;
    ghost var c := b.cbs[id];
    DeletedFacts(c);
    FinalizedFacts(c);
    Unchanged(b.cbs, id);
    Cancel(b, id);
    ghost var d := Deleted(c);
    if b.cbs[id].attr.isEvent {
      ActivateKeep(b, id);
      Overwrite(old(b.cbs), id, d, Activated(d, false));
      Overwrite(old(b.cbs), id, Activated(d, false), Finalized(c));
    } else {
      var r := StartUser(b, id);
      Overwrite(old(b.cbs), id, d, Started(d));
      Overwrite(old(b.cbs), id, Started(d), Finalized(c));
    }
    SetFinalizing(b, id);
  }

  lemma DeletedFacts(c: Cb)
    ensures Deleted(c).attr.isEvent == c.attr.isEvent && Deleted(c).finalizing == c.finalizing && Deleted(c).attr.pri == c.attr.pri
    ensures c.finalizing ==> Deleted(c) == c
    ensures !c.finalizing ==> !Deleted(c).active && !Deleted(c).later && !Deleted(c).timeout && !Deleted(c).inserted
  {
  }

  lemma FinalizedFacts(c: Cb)
    ensures var d := if c.attr.isEvent then Activated(Deleted(c), false) else Started(Deleted(c));
      Finalized(c) == d.(finalizing := true) && (d.finalizing || (!d.timeout && !d.inserted))
  {
    hide Deleted;
    DeletedFacts(c);
  }

  /** event_active_nolock_ with EV_FINALIZE. */
  method ActivateKeep(b: EventBase, id: nat)
    requires b.Valid() && b.User(id)
    modifies b`cbs, b`active, b`later, b`eventCount, b`activeCount, b`cont
    ensures b.Valid()
    ensures b.cbs == old(b.cbs)[id := Activated(old(b.cbs)[id], false)]
    ensures var c := old(b.cbs)[id]; b.cont == (old(b.cont) || (!c.finalizing && !c.active && c.attr.pri < b.running))
  {
    hide EventBase.Sound, FlagsOk, TimersBut;
    ActivateUser(b, id, false, |b.queues|);
  }

  method SetFinalizing(b: EventBase, id: nat)
    requires b.Valid() && b.User(id) && (b.cbs[id].finalizing || (!b.cbs[id].timeout && !b.cbs[id].inserted))
    modifies b`cbs
    ensures b.Valid()
    ensures b.cbs == old(b.cbs)[id := old(b.cbs)[id].(finalizing := true)]
  {
    hide QueuesOk, FlagsOk, Memberships, TotalLen, TimersBut;
    var d := b.cbs[id].(finalizing := true);
    FlagsAt(b.cbs, id);
    FlagsSet(b.cbs, id, d);
    TimersFrame(b.cbs, b.timers, b.queues, |b.queues|, id, d);
    b.Patch(id, d);
  }

  /** event_deferred_cb_schedule_ */
  method ScheduleDeferred(b: EventBase, id: nat)
    requires b.Valid() && b.User(id)
    modifies b`cbs, b`active, b`later, b`eventCount, b`activeCount, b`nDeferreds
    ensures b.Valid()
    ensures b.cbs == old(b.cbs)[id := Effect(OpDeferred(id), old(b.cbs)[id], old(b.nDeferreds))]
    ensures b.nDeferreds == old(b.nDeferreds) + Counted(OpDeferred(id), old(b.cbs)[id], old(b.nDeferreds))
    ensures b.active == old(b.active) || Enqueued(old(b.cbs)[id], id, old(b.active), b.active)
  {
    hide QueuesOk, FlagsOk, Memberships, TotalLen, TimersBut, Enqueued;
    if b.nDeferreds > MAX_DEFERREDS_QUEUED {
      ghost var c := b.cbs[id];
      TimersFrame(b.cbs, b.timers, b.queues, |b.queues|, id, DeferredTo(c));
      Unchanged(b.cbs, id);
      var r := b.CallbackActivateLater(id);
    } else {
      var r := StartUser(b, id);
      if r != 0 {
        b.nDeferreds := b.nDeferreds + 1;
      }
    }
  }

  /** Any operation keeps the base valid and does to its callback what Effect says. */
  method RunOp(b: EventBase, op: Op)
    requires b.Valid() && Fits(op, b.cbs, b.timers, |b.queues|)
    modifies b`cbs, b`active, b`later, b`heap, b`queues, b`eventCount, b`activeCount, b`cont, b`nDeferreds
    ensures b.Valid() && |b.queues| == |old(b.queues)|
    ensures Quiet(old(b.cbs), b.cbs, b.timers, op.id)
    ensures op.id in b.cbs && b.cbs[op.id] == Effect(op, old(b.cbs)[op.id], old(b.nDeferreds))
    ensures b.cont == (old(b.cont) || SetsCont(op, old(b.cbs)[op.id], b.running))
    ensures b.nDeferreds == old(b.nDeferreds) + Counted(op, old(b.cbs)[op.id], old(b.nDeferreds))
  {
    hide EventBase.Sound, FlagsOk, TimersBut, Quiet, Added, Deleted, Activated, DeferredTo, Started, Finalized, Merged;
    QuietSet(b.cbs, b.timers, op.id, Effect(op, b.cbs[op.id], b.nDeferreds));
    match op {
      case OpAdd(id, tv, now, ioFails) =>
        var res := Add(b, id, tv, now, ioFails);
        QuietKeys(old(b.cbs), b.cbs, b.timers, id);
      case OpDel(id) =>
        DelUser(b, id, |b.queues|);
      case OpActive(id, byTimeout) =>
        ActivateUser(b, id, byTimeout, |b.queues|);
      case OpActiveLater(id, byTimeout) =>
        ActivateLater(b, id, byTimeout);
      case OpCancel(id) =>
        Cancel(b, id);
      case OpFinalize(id) =>
        Finalize(b, id);
      case OpDeferred(id) =>
        ScheduleDeferred(b, id);
    }
  }
}
