/**
  event_process_active, event_queue_make_later_events_active and one iteration of
  event_base_loop: priorities and the bound on deferred callbacks.
 */
module EventLoops {
  import opened EventQueues
  import opened EventBases
  import opened Timeouts
  import opened TimeoutPasses
  import opened EventOps

  // ------------------------------------------------------------ what operations keep

  /** The timeout of a persistent event and its period are of one common timeout, or of
      none. */
  predicate SameCommon(c: Cb) {
    c.attr.persist && Periodic(c) ==> c.common == c.ioCommon
  }

  /** ev_io_timeout is not all zero: that of a common timeout never is, whatever its
      length, since it carries the index. */
  predicate Periodic(c: Cb) {
    c.period != 0 || c.ioCommon != -1
  }

  ghost predicate SamePeriods(cbs: Cbs) {
    forall id :: id in cbs ==> SameCommon(cbs[id])
  }

  ghost predicate Static(was: Cbs, cbs: Cbs) {
    && was.Keys == cbs.Keys
    && (forall id :: id in was ==> cbs[id].attr == was[id].attr && (SameCommon(was[id]) ==> SameCommon(cbs[id])))
  }

  lemma PeriodsKept(was: Cbs, cbs: Cbs)
    requires Static(was, cbs) && SamePeriods(was)
    ensures SamePeriods(cbs)
  {
  }

  /** No callback with a priority number below p is active. */
  ghost predicate Clear(cbs: Cbs, p: int) {
    forall id :: id in cbs && cbs[id].active ==> p <= cbs[id].attr.pri
  }

  /** The priorities of internal callbacks. */
  ghost predicate InternalsFirst(cbs: Cbs) {
    forall id :: id in cbs && cbs[id].attr.internal ==> cbs[id].attr.pri == 0
  }

  /** A deferred callback waits for the next iteration only because more than
      MAX_DEFERREDS_QUEUED were queued in this one. */
  ghost predicate DeferOk(cbs: Cbs, n: nat) {
    forall id :: id in cbs && !cbs[id].attr.isEvent && cbs[id].later ==> n > MAX_DEFERREDS_QUEUED
  }

  /** The activation does not go through event_active_nolock_. */
  predicate Direct(op: Op, c: Cb) {
    op.OpDeferred? || (op.OpFinalize? && !c.attr.isEvent)
  }

  /** op puts a callback on a queue before priority p without stopping the pass. */
  predicate Overtakes(op: Op, c: Cb, n: nat, p: int) {
    && c.attr.pri < p && !c.finalizing && Direct(op, c)
    && (op.OpDeferred? ==> n <= MAX_DEFERREDS_QUEUED)
  }

  lemma EffectStatic(op: Op, c: Cb, n: nat)
    ensures Effect(op, c, n).attr == c.attr
    ensures (op.OpAdd? && op.tv.Abs? ==> !c.attr.persist) && SameCommon(c) ==> SameCommon(Effect(op, c, n))
  {
    hide Added;
    if op.OpAdd? {
      AddedStatic(c, op.tv, op.now, op.ioFails);
    }
  }

  lemma AddedStatic(c: Cb, tv: When, now: nat, ioFails: bool)
    ensures Added(c, tv, now, ioFails).attr == c.attr
    ensures (tv.Abs? ==> !c.attr.persist) && SameCommon(c) ==> SameCommon(Added(c, tv, now, ioFails))
  {
  }

  /** So it is in a fresh base. */
  lemma IdlePeriods(cbs: Cbs, nPriorities: nat)
    requires forall id :: id in cbs ==> Idle(cbs[id], nPriorities)
    ensures SamePeriods(cbs)
  {
  }

  lemma OpStatic(op: Op, was: Cbs, cbs: Cbs, timers: seq<nat>, queues: seq<seq<nat>>, queues': seq<seq<nat>>, n: nat)
    requires op.id in was && Quiet(was, cbs, timers, op.id) && cbs[op.id] == Effect(op, was[op.id], n)
    requires op.OpAdd? && op.tv.Abs? ==> !was[op.id].attr.persist
    requires TimersOk(was, timers, queues) && TimersOk(cbs, timers, queues')
    ensures Static(was, cbs)
  {
    hide Effect;
    EffectStatic(op, was[op.id], n);
    TimersShape(was, timers, queues);
    TimersShape(cbs, timers, queues');
  }

  lemma TimersShape(cbs: Cbs, timers: seq<nat>, queues: seq<seq<nat>>)
    requires TimersOk(cbs, timers, queues)
    ensures forall t :: t in timers ==> t in cbs && TimerShape(cbs[t])
  {
    forall t | t in timers
      ensures t in cbs && TimerShape(cbs[t])
    {
      var q :| 0 <= q < |timers| && timers[q] == t;
      TimerFacts(cbs, timers, queues, |queues|, q);
    }
  }

  /** Which operations newly activate their callback. */
  lemma EffectActive(op: Op, c: Cb, n: nat, p: int)
    requires !c.active && c.attr.pri < p
    ensures Effect(op, c, n).active <==> SetsCont(op, c, p) || Overtakes(op, c, n, p)
  {
  }

  /** Exactly when an operation leaves order: the lower queues stay empty or the pass is
      told to stop. */
  lemma OpOrder(op: Op, was: Cbs, cbs: Cbs, timers: seq<nat>, n: nat, p: int, cont: bool)
    requires op.id in was && Quiet(was, cbs, timers, op.id) && cbs[op.id] == Effect(op, was[op.id], n)
    requires Static(was, cbs) && Clear(was, p) && op.id !in timers
    requires cont == SetsCont(op, was[op.id], p)
    ensures Clear(cbs, p) || cont <==> !Overtakes(op, was[op.id], n, p)
  {
    hide Effect, SetsCont, Overtakes;
    var c := was[op.id];
    if c.attr.pri < p {
      EffectActive(op, c, n, p);
      ContExcludes(op, c, n, p);
    } else {
      NotOvertaking(op, c, n, p);
    }
  }

  lemma ContExcludes(op: Op, c: Cb, n: nat, p: int)
    ensures !(SetsCont(op, c, p) && Overtakes(op, c, n, p))
  {
  }

  lemma NotOvertaking(op: Op, c: Cb, n: nat, p: int)
    requires c.attr.pri >= p
    ensures !Overtakes(op, c, n, p)
  {
  }

  lemma OpDefer(op: Op, was: Cbs, cbs: Cbs, timers: seq<nat>, nQueues: nat, n: nat)
    requires Fits(op, was, timers, nQueues) && Quiet(was, cbs, timers, op.id)
    requires cbs[op.id] == Effect(op, was[op.id], n) && Static(was, cbs) && DeferOk(was, n)
    requires forall t :: t in timers ==> t in cbs && cbs[t].attr.isEvent
    ensures DeferOk(cbs, n + Counted(op, was[op.id], n))
    ensures Counted(op, was[op.id], n) == Put(op, was[op.id], cbs[op.id])
    ensures n + Counted(op, was[op.id], n) <= if n > MAX_DEFERREDS_QUEUED then n else MAX_DEFERREDS_QUEUED + 1
  {
    hide Quiet;
    EffectDefer(op, was[op.id], n);
    forall id | id in cbs && !cbs[id].attr.isEvent && cbs[id].later
      ensures n > MAX_DEFERREDS_QUEUED
    {
      if id != op.id {
        QuietAt(was, cbs, timers, op.id, id);
      }
    }
  }

  lemma QuietAt(was: Cbs, cbs: Cbs, timers: seq<nat>, id: nat, x: nat)
    requires Quiet(was, cbs, timers, id) && x in cbs && x != id && x !in timers
    ensures x in was && cbs[x] == was[x]
  {
  }

  /** Whether op put a deferred callback on an active queue. */
  function Put(op: Op, c: Cb, d: Cb): nat {
    if op.OpDeferred? && !c.active && d.active then 1 else 0
  }

  lemma EffectDefer(op: Op, c: Cb, n: nat)
    requires op.OpDeferred? ==> !c.attr.isEvent
    requires op.OpActiveLater? ==> c.attr.isEvent
    requires !c.attr.isEvent && c.later ==> n > MAX_DEFERREDS_QUEUED
    ensures var d := Effect(op, c, n);
      && (!c.attr.isEvent && d.later ==> n > MAX_DEFERREDS_QUEUED)
      && Counted(op, c, n) == Put(op, c, d)
  {
  }

  ghost predicate AllFit(ops: seq<Op>, cbs: Cbs, timers: seq<nat>, nQueues: nat) {
    forall i :: 0 <= i < |ops| ==> Fits(ops[i], cbs, timers, nQueues)
  }

  /** No operation activates a callback other than through event_active_nolock_. */
  ghost predicate Polite(ops: seq<Op>, cbs: Cbs) {
    forall i :: 0 <= i < |ops| && ops[i].id in cbs ==> !Direct(ops[i], cbs[ops[i].id])
  }

  lemma StaticTrans(a: Cbs, b: Cbs, c: Cbs)
    requires Static(a, b) && Static(b, c)
    ensures Static(a, c)
  {
  }

  /** No internal timer became active. */
  ghost predicate TimersCalm(was: Cbs, cbs: Cbs, timers: seq<nat>) {
    forall t :: t in timers && t in cbs && cbs[t].active ==> t in was && was[t].active
  }

  function Bound(n: nat): nat {
    if n > MAX_DEFERREDS_QUEUED then n else MAX_DEFERREDS_QUEUED + 1
  }

  // ------------------------------------------------------------ a callback's operations

  /** What holds of the base while the callbacks of queue p run, when every operation
      is polite. */
  ghost predicate InOrder(cbs: Cbs, p: int, cont: bool) {
    Clear(cbs, p) || cont
  }

  lemma OpInOrder(op: Op, was: Cbs, cbs: Cbs, timers: seq<nat>, n: nat, p: int, cont: bool, cont': bool)
    requires op.id in was && Quiet(was, cbs, timers, op.id) && cbs[op.id] == Effect(op, was[op.id], n)
    requires Static(was, cbs) && op.id !in timers && InOrder(was, p, cont) && !Direct(op, was[op.id])
    requires cont' == (cont || SetsCont(op, was[op.id], p))
    ensures InOrder(cbs, p, cont')
  {
    if !cont {
      OpOrder(op, was, cbs, timers, n, p, cont');
    }
  }

  lemma CalmQuiet(a: Cbs, b: Cbs, c: Cbs, timers: seq<nat>, id: nat)
    requires TimersCalm(a, b, timers) && Quiet(b, c, timers, id) && id !in timers
    ensures TimersCalm(a, c, timers)
  {
  }

  /** The callbacks, n_deferreds_queued and event_continue, as calls see them. */
  datatype Sim = Sim(cbs: Cbs, n: nat, cont: bool)

  /** One call made by a callback of priority p. */
  function Made(s: Sim, op: Op, p: int): Sim {
    if op.id !in s.cbs then s
    else
      var c := s.cbs[op.id];
      Sim(s.cbs[op.id := Effect(op, c, s.n)], s.n + Counted(op, c, s.n), s.cont || SetsCont(op, c, p))
  }

  function AllMade(s: Sim, ops: seq<Op>, p: int): Sim {
    if ops == [] then s else Made(AllMade(s, ops[..|ops| - 1], p), ops[|ops| - 1], p)
  }

  /** The same callbacks, but for the internal timers. */
  ghost predicate SameUsers(a: Cbs, b: Cbs, timers: seq<nat>) {
    a.Keys == b.Keys && forall id :: id in a && id !in timers ==> a[id] == b[id]
  }

  ghost predicate Agree(s: Sim, cbs: Cbs, timers: seq<nat>, n: nat, cont: bool) {
    SameUsers(s.cbs, cbs, timers) && s.n == n && s.cont == cont
  }

  lemma AgreeSelf(cbs: Cbs, timers: seq<nat>, n: nat, cont: bool, ops: seq<Op>, p: int)
    ensures Agree(Sim(cbs, n, cont), cbs, timers, n, cont) && AllMade(Sim(cbs, n, cont), ops[..0], p) == Sim(cbs, n, cont)
  {
  }

  lemma AgreeMade(s: Sim, ops: seq<Op>, i: nat, p: int, cbs: Cbs, timers: seq<nat>, n: nat, cont: bool, cbs': Cbs,
                  n': nat, cont': bool)
    requires i < |ops| && Agree(AllMade(s, ops[..i], p), cbs, timers, n, cont)
    requires ops[i].id in cbs && ops[i].id !in timers && Quiet(cbs, cbs', timers, ops[i].id)
    requires cbs'[ops[i].id] == Effect(ops[i], cbs[ops[i].id], n)
    requires n' == n + Counted(ops[i], cbs[ops[i].id], n) && cont' == (cont || SetsCont(ops[i], cbs[ops[i].id], p))
    ensures Agree(AllMade(s, ops[..i + 1], p), cbs', timers, n', cont')
  {
    hide Effect, Counted, SetsCont;
    assert ops[..i + 1][..i] == ops[..i];
  }

  /** The operations a callback makes, in turn; put counts the deferred callbacks that
      went on an active queue. */
  method RunOps(b: EventBase, ops: seq<Op>) returns (put: nat)
    requires b.Valid() && AllFit(ops, b.cbs, b.timers, |b.queues|)
    modifies b`cbs, b`active, b`later, b`heap, b`queues, b`eventCount, b`activeCount, b`cont, b`nDeferreds
    ensures b.Valid() && |b.queues| == |old(b.queues)| && Static(old(b.cbs), b.cbs)
    ensures TimersCalm(old(b.cbs), b.cbs, b.timers)
    ensures Polite(ops, old(b.cbs)) && InOrder(old(b.cbs), b.running, old(b.cont)) ==> InOrder(b.cbs, b.running, b.cont)
    ensures old(b.nDeferreds) <= b.nDeferreds <= Bound(old(b.nDeferreds))
    ensures DeferOk(old(b.cbs), old(b.nDeferreds)) ==>
      DeferOk(b.cbs, b.nDeferreds) && b.nDeferreds == old(b.nDeferreds) + put
    ensures b.running <= 0 ==> b.cont == old(b.cont)
    ensures ops == [] ==> b.cbs == old(b.cbs) && b.cont == old(b.cont)
    ensures Agree(AllMade(Sim(old(b.cbs), old(b.nDeferreds), old(b.cont)), ops, b.running), b.cbs, b.timers, b.nDeferreds, b.cont)
  {
    hide EventBase.Sound, FlagsOk, TimersBut, Agree, AllMade, OpsKept;
    ghost var sim := Sim(b.cbs, b.nDeferreds, b.cont);
    AgreeSelf(b.cbs, b.timers, b.nDeferreds, b.cont, ops, b.running);
    hide AllFit, Static, Quiet, Effect, SetsCont, Counted;
    StaticSame(b.cbs, b.timers);
    put := 0;
    OpsKeptNone(ops, sim, b.timers, b.running);
    var i := 0;
    while i < |ops|
      invariant i <= |ops| && b.Valid() && |b.queues| == |old(b.queues)| && Static(sim.cbs, b.cbs)
      invariant OpsKept(ops, sim, Sim(b.cbs, b.nDeferreds, b.cont), b.timers, b.running, put)
      invariant i == 0 ==> b.cbs == old(b.cbs) && b.cont == old(b.cont) && b.nDeferreds == old(b.nDeferreds)
      invariant Agree(AllMade(sim, ops[..i], b.running), b.cbs, b.timers, b.nDeferreds, b.cont)
    {
      ghost var was, queues := Sim(b.cbs, b.nDeferreds, b.cont), b.queues;
      FitsAt(ops, sim.cbs, b.cbs, b.timers, |b.queues|, i);
      var c := b.cbs[ops[i].id];
      RunOp(b, ops[i]);
      OpStep(ops[i], was.cbs, b.cbs, b.timers, queues, b.queues, was.n, b.running);
      StaticTrans(sim.cbs, was.cbs, b.cbs);
      AgreeMade(sim, ops, i, b.running, was.cbs, b.timers, was.n, was.cont, b.cbs, b.nDeferreds, b.cont);
      OpsKeptStep(ops, i, sim, was, Sim(b.cbs, b.nDeferreds, b.cont), b.timers, |b.queues|, b.running, put);
      put := put + Put(ops[i], c, b.cbs[ops[i].id]);
      i := i + 1;
    }
    assert ops[..i] == ops;
    OpsKeptFacts(ops, sim, Sim(b.cbs, b.nDeferreds, b.cont), b.timers, b.running, put);
  }

  /** What every call keeps: timers calm, order while all are polite, and the count of
      deferred callbacks. */
  ghost predicate OpsKept(ops: seq<Op>, was: Sim, now: Sim, timers: seq<nat>, p: int, put: nat) {
    && TimersCalm(was.cbs, now.cbs, timers)
    && (Polite(ops, was.cbs) && InOrder(was.cbs, p, was.cont) ==> InOrder(now.cbs, p, now.cont))
    && was.n <= now.n <= Bound(was.n)
    && (DeferOk(was.cbs, was.n) ==> DeferOk(now.cbs, now.n) && now.n == was.n + put)
    && (p <= 0 ==> now.cont == was.cont)
  }

  lemma OpsKeptNone(ops: seq<Op>, s: Sim, timers: seq<nat>, p: int)
    ensures OpsKept(ops, s, s, timers, p, 0)
  {
  }

  lemma OpsKeptFacts(ops: seq<Op>, was: Sim, now: Sim, timers: seq<nat>, p: int, put: nat)
    requires OpsKept(ops, was, now, timers, p, put)
    ensures TimersCalm(was.cbs, now.cbs, timers)
    ensures Polite(ops, was.cbs) && InOrder(was.cbs, p, was.cont) ==> InOrder(now.cbs, p, now.cont)
    ensures was.n <= now.n <= Bound(was.n)
    ensures DeferOk(was.cbs, was.n) ==> DeferOk(now.cbs, now.n) && now.n == was.n + put
    ensures p <= 0 ==> now.cont == was.cont
  {
  }

  lemma OpsKeptStep(ops: seq<Op>, i: nat, was: Sim, mid: Sim, now: Sim, timers: seq<nat>, nQueues: nat, p: int, put: nat)
    requires i < |ops| && OpsKept(ops, was, mid, timers, p, put) && Static(was.cbs, mid.cbs) && Static(mid.cbs, now.cbs)
    requires Fits(ops[i], mid.cbs, timers, nQueues) && Quiet(mid.cbs, now.cbs, timers, ops[i].id)
    requires var c := mid.cbs[ops[i].id];
      && now.cbs[ops[i].id] == Effect(ops[i], c, mid.n) && now.n == mid.n + Counted(ops[i], c, mid.n)
      && now.cont == (mid.cont || SetsCont(ops[i], c, p)) && (p <= 0 ==> !SetsCont(ops[i], c, p))
    requires forall t :: t in timers ==> t in now.cbs && now.cbs[t].attr.isEvent
    ensures OpsKept(ops, was, now, timers, p, put + Put(ops[i], mid.cbs[ops[i].id], now.cbs[ops[i].id]))
  {
    hide Static, Quiet, TimersCalm, Polite, InOrder, DeferOk, Effect, SetsCont, Counted, Direct, Put;
    CalmQuiet(was.cbs, mid.cbs, now.cbs, timers, ops[i].id);
    CountedBound(ops[i], mid.cbs[ops[i].id], mid.n);
    if DeferOk(mid.cbs, mid.n) {
      OpDefer(ops[i], mid.cbs, now.cbs, timers, nQueues, mid.n);
    }
    if Polite(ops, was.cbs) && InOrder(mid.cbs, p, mid.cont) {
      PoliteAt(ops, was.cbs, mid.cbs, i);
      OpInOrder(ops[i], mid.cbs, now.cbs, timers, mid.n, p, mid.cont, now.cont);
    }
  }

  lemma StaticSame(cbs: Cbs, timers: seq<nat>)
    ensures Static(cbs, cbs) && TimersCalm(cbs, cbs, timers)
  {
  }

  lemma FitsAt(ops: seq<Op>, was: Cbs, cbs: Cbs, timers: seq<nat>, nQueues: nat, i: nat)
    requires AllFit(ops, was, timers, nQueues) && Static(was, cbs) && i < |ops|
    ensures Fits(ops[i], cbs, timers, nQueues)
  {
  }

  lemma PoliteAt(ops: seq<Op>, was: Cbs, cbs: Cbs, i: nat)
    requires Polite(ops, was) && Static(was, cbs) && i < |ops| && ops[i].id in cbs
    ensures !Direct(ops[i], cbs[ops[i].id])
  {
  }

  lemma CountedBound(op: Op, c: Cb, n: nat)
    ensures n <= n + Counted(op, c, n) <= Bound(n)
    ensures forall m: nat {:trigger Bound(m)} :: n <= Bound(m) ==> n + Counted(op, c, n) <= Bound(m)
  {
  }

  lemma OpStep(op: Op, was: Cbs, cbs: Cbs, timers: seq<nat>, queues: seq<seq<nat>>, queues': seq<seq<nat>>, n: nat,
               running: int)
    requires op.id in was && Quiet(was, cbs, timers, op.id) && cbs[op.id] == Effect(op, was[op.id], n)
    requires op.OpAdd? && op.tv.Abs? ==> !was[op.id].attr.persist
    requires TimersOk(was, timers, queues) && TimersOk(cbs, timers, queues')
    ensures Static(was, cbs)
    ensures forall t :: t in timers ==> t in cbs && cbs[t].attr.isEvent
    ensures running <= 0 ==> !SetsCont(op, was[op.id], running)
  {
    hide Effect;
    OpStatic(op, was, cbs, timers, queues, queues', n);
    TimersShape(cbs, timers, queues');
  }

  // ------------------------------------------------------------ starting a callback

  /** Nothing was activated, now or for later. */
  ghost predicate Calmed(was: Cbs, cbs: Cbs) {
    && Static(was, cbs)
    && (forall id :: id in cbs ==> (cbs[id].active ==> was[id].active) && (cbs[id].later ==> was[id].later))
  }

  lemma CalmedFacts(was: Cbs, cbs: Cbs, timers: seq<nat>, p: int, cont: bool, n: nat)
    requires Calmed(was, cbs)
    ensures Static(was, cbs) && TimersCalm(was, cbs, timers)
    ensures InOrder(was, p, cont) ==> InOrder(cbs, p, cont)
    ensures DeferOk(was, n) ==> DeferOk(cbs, n)
  {
  }

  lemma CalmedTrans(a: Cbs, b: Cbs, c: Cbs)
    requires Calmed(a, b) && Calmed(b, c)
    ensures Calmed(a, c)
  {
  }

  /** The callback once event_process_active_single_queue has taken it off its queue. */
  function Begun(c: Cb): Cb {
    if c.attr.isEvent && !c.attr.persist && !c.finalizing then Deleted(c) else c.(active := false)
  }

  method Begin(b: EventBase, id: nat)
    requires b.Valid() && b.User(id) && b.cbs[id].active
    modifies b`cbs, b`active, b`later, b`heap, b`queues, b`eventCount, b`activeCount
    ensures b.Valid() && |b.queues| == |old(b.queues)|
    ensures b.cbs == old(b.cbs)[id := Begun(old(b.cbs)[id])]
    ensures var c := old(b.cbs)[id];
      !c.attr.isEvent ==>
        c.attr.pri < |old(b.active)|
        && b.active == old(b.active)[c.attr.pri := Without(old(b.active)[c.attr.pri], id)]
  {
    hide EventBase.Sound, FlagsOk, TimersBut, Deleted;
    var c := b.cbs[id];
    if c.attr.isEvent && !c.attr.persist && !c.finalizing {
      DelUser(b, id, |b.queues|);
    } else {
      DropActive(b, id);
    }
  }

  lemma BegunCalm(cbs: Cbs, id: nat)
    requires id in cbs
    ensures Calmed(cbs, cbs[id := Begun(cbs[id])]) && !Begun(cbs[id]).active
    ensures SameCommon(cbs[id]) ==> SameCommon(Begun(cbs[id]))
  {
  }

  /** When event_persist_closure runs the event next: one period after the deadline that
      activated it, or after now. */
  function RunAt(c: Cb, now: nat): nat {
    var at := (if c.byTimeout then c.at else now) + c.period;
    if at < now then now + c.period else at
  }

  /** A persistent event that is about to run. */
  function Rescheduled(c: Cb, now: nat, ioFails: bool): Cb {
    if !Periodic(c) then c else Added(c, Abs(RunAt(c, now), c.ioCommon), now, ioFails)
  }

  /** After an activation by its deadline an event is due one period after that deadline, if
      that has not passed, so the clock of the loop does not add up in it; after any other
      activation, or a deadline missed by more than a period, one period from now. */
  lemma RescheduledAt(c: Cb, now: nat, ioFails: bool)
    requires Periodic(c) && !c.finalizing && !(NeedsIo(c) && ioFails)
    ensures var d := Rescheduled(c, now, ioFails);
      && d.timeout && d.common == c.ioCommon && d.period == c.period && d.at >= now
      && d.at == if c.byTimeout && c.at + c.period >= now then c.at + c.period else now + c.period
  {
  }

  /** event_persist_closure, up to the callback. */
  method PersistClosure(b: EventBase, id: nat, now: nat, ioFails: bool)
    requires b.Valid() && b.User(id) && b.cbs[id].attr.persist && !b.cbs[id].finalizing && !b.cbs[id].active
    requires SameCommon(b.cbs[id])
    modifies b`cbs, b`active, b`heap, b`queues, b`eventCount, b`activeCount
    ensures b.Valid() && |b.queues| == |old(b.queues)| && Quiet(old(b.cbs), b.cbs, b.timers, id)
    ensures id in b.cbs && b.cbs[id] == Rescheduled(old(b.cbs)[id], now, ioFails)
    ensures id in b.cbs && SameCommon(b.cbs[id])
    ensures var c, d := old(b.cbs)[id], b.cbs[id];
      Periodic(c) && !(NeedsIo(c) && ioFails) ==>
        && d.timeout && d.common == c.ioCommon && d.period == c.period && d.at >= now
        && d.at == if c.byTimeout && c.at + c.period >= now then c.at + c.period else now + c.period
  {
    hide QueuesOk, FlagsOk, Memberships, TotalLen, TimersBut, Quiet, Added;
    var c := b.cbs[id];
    FlagsAt(b.cbs, id);
    QuietSet(b.cbs, b.timers, id, c);
    Unchanged(b.cbs, id);
    CommonRange(b.cbs, b.active, b.later, b.heap, b.queues);
    if Periodic(c) && !(NeedsIo(c) && ioFails) {
      RescheduledAt(c, now, ioFails);
    }
    if Periodic(c) {
      // EVUTIL_ASSERT(is_same_common_timeout(&ev->ev_timeout, &ev->ev_io_timeout))
      assert c.common == c.ioCommon;
      AddedSame(c, RunAt(c, now), now, ioFails);
      var res := Add(b, id, Abs(RunAt(c, now), c.ioCommon), now, ioFails);
      QuietKeys(old(b.cbs), b.cbs, b.timers, id);
    }
  }

  lemma AddedSame(c: Cb, at: nat, now: nat, ioFails: bool)
    requires SameCommon(c)
    ensures SameCommon(Added(c, Abs(at, c.ioCommon), now, ioFails))
  {
  }

  lemma AddedCalm(c: Cb, tv: When, now: nat, ioFails: bool)
    ensures var d := Added(c, tv, now, ioFails); d.attr == c.attr && d.later == c.later && (d.active ==> c.active)
  {
  }

  lemma QuietCalm(was: Cbs, cbs: Cbs, timers: seq<nat>, queues: seq<seq<nat>>, queues': seq<seq<nat>>, id: nat)
    requires Quiet(was, cbs, timers, id) && id in was && id !in timers
    requires TimersOk(was, timers, queues) && TimersOk(cbs, timers, queues')
    requires cbs[id].attr == was[id].attr && cbs[id].later == was[id].later && (cbs[id].active ==> was[id].active)
    requires SameCommon(cbs[id])
    ensures Calmed(was, cbs)
  {
    TimersShape(was, timers, queues);
    TimersShape(cbs, timers, queues');
  }

  /** The callback once it is off its queue and, if it persists, rescheduled. */
  function Resumed(c: Cb, now: nat, ioFails: bool): Cb {
    var d := Begun(c);
    if d.attr.persist && !d.finalizing then Rescheduled(d, now, ioFails) else d
  }

  /** Take a user's callback off its queue and reschedule it if it persists. */
  method BeginUser(b: EventBase, id: nat, now: nat, ioFails: bool)
    requires b.Valid() && b.User(id) && b.cbs[id].active && SameCommon(b.cbs[id])
    modifies b`cbs, b`active, b`later, b`heap, b`queues, b`eventCount, b`activeCount
    ensures b.Valid() && |b.queues| == |old(b.queues)| && Calmed(old(b.cbs), b.cbs) && id in b.cbs && !b.cbs[id].active
    ensures Quiet(old(b.cbs), b.cbs, b.timers, id) && b.cbs[id] == Resumed(old(b.cbs)[id], now, ioFails)
  {
    hide EventBase.Sound, FlagsOk, TimersBut, Quiet, Calmed, Begun, Added;
    BegunCalm(b.cbs, id);
    QuietSet(b.cbs, b.timers, id, Begun(b.cbs[id]));
    Begin(b, id);
    var c := b.cbs[id];
    if c.attr.persist && !c.finalizing {
      ghost var mid, queues := b.cbs, b.queues;
      PersistClosure(b, id, now, ioFails);
      AddedCalm(c, Abs(RunAt(c, now), c.ioCommon), now, ioFails);
      QuietCalm(mid, b.cbs, b.timers, queues, b.queues, id);
      CalmedTrans(old(b.cbs), mid, b.cbs);
      QuietTrans(old(b.cbs), mid, b.cbs, b.timers, id);
    }
  }

  /** A periodic event that waits for its deadline in the heap. */
  predicate Beating(c: Cb) {
    && c.attr.isEvent && c.attr.persist && c.timeout && c.common == -1 && c.ioCommon == -1 && c.period > 0
    && !c.active && !c.later && !c.finalizing
  }

  lemma Beat(c: Cb, now: nat)
    requires Beating(c) && c.at <= now <= c.at + c.period
    ensures HeapDue(c, now) && Fired(c).active && SameCommon(Fired(c))
    ensures Resumed(Fired(c), now, false) == c.(at := c.at + c.period, inserted := c.attr.io, byTimeout := true)
  {
  }

  /** Iterations that never miss a deadline by more than a period: the k-th deadline of a
      periodic event is k periods after the first, however late each callback ran, and it is
      never in the past. */
  method Beats(b: EventBase, id: nat, nows: seq<nat>)
    requires b.Valid() && b.User(id) && Beating(b.cbs[id])
    requires forall i :: 0 <= i < |nows| ==> var c := b.cbs[id]; c.at + i * c.period <= nows[i] <= c.at + (i + 1) * c.period
    modifies b`cbs, b`active, b`later, b`heap, b`queues, b`eventCount, b`activeCount, b`cont
    ensures b.Valid() && id in b.cbs && Beating(b.cbs[id]) && b.cbs[id].period == old(b.cbs)[id].period
    ensures b.cbs[id].at == old(b.cbs)[id].at + |nows| * old(b.cbs)[id].period
    ensures nows != [] ==> b.cbs[id].at >= nows[|nows| - 1]
  {
    hide EventBase.Sound, FlagsOk, TimersBut, Quiet, Calmed, NoneDue, Firing, Resumed, Fired, SameCommon;
    ghost var at, period := b.cbs[id].at, b.cbs[id].period;
    var i := 0;
    while i < |nows|
      invariant i <= |nows| && b.Valid() && b.User(id) && Beating(b.cbs[id]) && b.cbs[id].period == period
      invariant b.cbs[id].at == at + i * period && (i > 0 ==> b.cbs[id].at >= nows[i - 1])
    {
      ghost var was := b.cbs;
      assert (i + 1) * period == i * period + period;
      Beat(was[id], nows[i]);
      TimeoutProcess(b, nows[i]);
      FiringEnd(was, b.cbs, nows[i], id);
      BeginUser(b, id, nows[i], false);
      i := i + 1;
    }
  }

  /** What the outside world does during one callback: the clock, a failing backend, the
      operations the callback makes, and whether it asks the loop to break or continue,
      or uses up the dispatch time. */
  datatype Turn = Turn(now: nat, ioFails: bool, ops: seq<Op>, brk: bool, cont: bool, late: bool)

  /** One callback of the user of priority p: it is taken off its queue, rescheduled if it
      persists, and makes its calls. */
  function TurnOf(s: Sim, id: nat, turn: Turn, p: int): Sim {
    if id !in s.cbs then s
    else
      var t := AllMade(s.(cbs := s.cbs[id := Resumed(s.cbs[id], turn.now, turn.ioFails)]), turn.ops, p);
      t.(cont := t.cont || turn.cont)
  }

  /** The calls do the same from a state that agrees. */
  lemma {:induction false} MadeAgree(s: Sim, t: Sim, timers: seq<nat>, ops: seq<Op>, p: int)
    requires Agree(s, t.cbs, timers, t.n, t.cont) && forall i :: 0 <= i < |ops| ==> ops[i].id !in timers
    ensures var u := AllMade(t, ops, p); Agree(AllMade(s, ops, p), u.cbs, timers, u.n, u.cont)
    decreases |ops|
  {
    if ops != [] {
      hide Effect, Counted, SetsCont;
      MadeAgree(s, t, timers, ops[..|ops| - 1], p);
    }
  }

  lemma AgreeTurn(was: Cbs, mid: Cbs, cbs: Cbs, timers: seq<nat>, nQueues: nat, id: nat, turn: Turn, p: int, n: nat,
                  cont: bool, n': nat, cont': bool)
    requires id in was && id !in timers && Quiet(was, mid, timers, id) && AllFit(turn.ops, was, timers, nQueues)
    requires mid[id] == Resumed(was[id], turn.now, turn.ioFails)
    requires Agree(AllMade(Sim(mid, n, cont), turn.ops, p), cbs, timers, n', cont')
    ensures Agree(TurnOf(Sim(was, n, cont), id, turn, p), cbs, timers, n', cont' || turn.cont)
  {
    hide Resumed, AllMade;
    var s := Sim(was[id := Resumed(was[id], turn.now, turn.ioFails)], n, cont);
    assert Agree(s, mid, timers, n, cont);
    forall i | 0 <= i < |turn.ops|
      ensures turn.ops[i].id !in timers
    {
      assert Fits(turn.ops[i], was, timers, nQueues);
    }
    MadeAgree(s, Sim(mid, n, cont), timers, turn.ops, p);
    AgreeTrans(AllMade(s, turn.ops, p), AllMade(Sim(mid, n, cont), turn.ops, p), cbs, timers, n', cont');
  }

  lemma AgreeTrans(s: Sim, t: Sim, cbs: Cbs, timers: seq<nat>, n: nat, cont: bool)
    requires Agree(s, t.cbs, timers, t.n, t.cont) && Agree(t, cbs, timers, n, cont)
    ensures Agree(s, cbs, timers, n, cont)
  {
  }

  /** One callback of the user, from its queue to its end. */
  method RunUser(b: EventBase, id: nat, turn: Turn) returns (put: nat)
    requires b.Valid() && b.User(id) && b.cbs[id].active && AllFit(turn.ops, b.cbs, b.timers, |b.queues|)
    requires SameCommon(b.cbs[id])
    modifies b`cbs, b`active, b`later, b`heap, b`queues, b`eventCount, b`activeCount, b`cont, b`nDeferreds
    ensures b.Valid() && |b.queues| == |old(b.queues)| && Static(old(b.cbs), b.cbs)
    ensures TimersCalm(old(b.cbs), b.cbs, b.timers)
    ensures Polite(turn.ops, old(b.cbs)) && InOrder(old(b.cbs), b.running, old(b.cont)) ==>
      InOrder(b.cbs, b.running, b.cont)
    ensures old(b.nDeferreds) <= b.nDeferreds <= Bound(old(b.nDeferreds))
    ensures DeferOk(old(b.cbs), old(b.nDeferreds)) ==>
      DeferOk(b.cbs, b.nDeferreds) && b.nDeferreds == old(b.nDeferreds) + put
    ensures b.running <= 0 && !turn.cont ==> b.cont == old(b.cont)
    ensures turn.ops == [] ==> Calmed(old(b.cbs), b.cbs) && id in b.cbs && !b.cbs[id].active
    ensures Agree(TurnOf(Sim(old(b.cbs), old(b.nDeferreds), old(b.cont)), id, turn, b.running), b.cbs, b.timers, b.nDeferreds, b.cont)
  {
    hide Agree, AllMade, Resumed, EventBase.Valid, AllFit, Static, TimersCalm, Polite, InOrder, DeferOk, Calmed, Quiet, TurnOf;
    BeginUser(b, id, turn.now, turn.ioFails);
    CalmedFacts(old(b.cbs), b.cbs, b.timers, b.running, b.cont, b.nDeferreds);
    ghost var mid := b.cbs;
    FitPolite(turn.ops, old(b.cbs), mid, b.timers, |b.queues|);
    ghost var n, cont := b.nDeferreds, b.cont;
    put := RunOps(b, turn.ops);
    AgreeTurn(old(b.cbs), mid, b.cbs, b.timers, |b.queues|, id, turn, b.running, n, cont, b.nDeferreds, b.cont);
    StaticTrans(old(b.cbs), mid, b.cbs);
    CalmTrans(old(b.cbs), mid, b.cbs, b.timers);
    if turn.cont {
      b.cont := true;
      assert InOrder(b.cbs, b.running, b.cont) by {
        OrderCont(b.cbs, b.running);
      }
    }
  }

  lemma OrderCont(cbs: Cbs, p: int)
    ensures InOrder(cbs, p, true)
  {
  }

  lemma FitPolite(ops: seq<Op>, was: Cbs, cbs: Cbs, timers: seq<nat>, nQueues: nat)
    requires Static(was, cbs)
    ensures AllFit(ops, was, timers, nQueues) ==> AllFit(ops, cbs, timers, nQueues)
    ensures Polite(ops, was) ==> Polite(ops, cbs)
  {
  }

  lemma CalmTrans(a: Cbs, b: Cbs, c: Cbs, timers: seq<nat>)
    requires TimersCalm(a, b, timers) && TimersCalm(b, c, timers)
    ensures TimersCalm(a, c, timers)
  {
  }
}
