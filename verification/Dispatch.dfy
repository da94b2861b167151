/**
  event_process_active and the iterations of event_base_loop: priorities, the bound on
  deferred callbacks, and validity over whole runs.
 */
module Dispatch {
  import opened Bytes
  import opened EventQueues
  import opened EventBases
  import opened Timeouts
  import opened TimeoutPasses
  import opened EventOps
  import opened EventLoops
  import opened PassModels

  // ------------------------------------------------------------ measures and queues

  ghost function ActiveTimers(cbs: Cbs, timers: seq<nat>): set<nat> {
    set t | t in timers && t in cbs && cbs[t].active
  }

  ghost function ActiveAt(cbs: Cbs, p: nat): set<nat> {
    set id | id in cbs && cbs[id].active && cbs[id].attr.pri == p
  }

  lemma TimersCalmer(was: Cbs, cbs: Cbs, timers: seq<nat>)
    requires TimersCalm(was, cbs, timers)
    ensures ActiveTimers(cbs, timers) <= ActiveTimers(was, timers)
  {
  }

  lemma FewerActive(was: Cbs, cbs: Cbs, p: nat, id: nat)
    requires Calmed(was, cbs) && id in cbs && !cbs[id].active && was[id].active && was[id].attr.pri == p
    ensures ActiveAt(cbs, p) < ActiveAt(was, p)
  {
    assert id in ActiveAt(was, p);
  }

  lemma HeadActive(cbs: Cbs, active: seq<seq<nat>>, later: seq<nat>, heap: map<nat, nat>, queues: seq<seq<nat>>, p: nat)
    requires QueuesOk(cbs, active, later, heap, queues) && p < |active| && active[p] != []
    ensures active[p][0] in cbs && cbs[active[p][0]].active && cbs[active[p][0]].attr.pri == p
  {
    assert HoldsActive(active[p], cbs, p);
    assert active[p][0] in active[p];
  }

  predicate LowerEmpty(active: seq<seq<nat>>, p: nat) {
    forall i :: 0 <= i < p && i < |active| ==> active[i] == []
  }

  lemma ClearLower(cbs: Cbs, active: seq<seq<nat>>, later: seq<nat>, heap: map<nat, nat>, queues: seq<seq<nat>>, p: nat)
    requires QueuesOk(cbs, active, later, heap, queues) && p <= |active|
    ensures Clear(cbs, p) <==> LowerEmpty(active, p)
  {
    if LowerEmpty(active, p) {
      forall id | id in cbs && cbs[id].active
        ensures p <= cbs[id].attr.pri
      {
        var i := cbs[id].attr.pri;
        assert HoldsActive(active[i], cbs, i);
        assert id in active[i];
      }
    }
    if Clear(cbs, p) {
      forall i | 0 <= i < p
        ensures active[i] == []
      {
        if active[i] != [] {
          HeadActive(cbs, active, later, heap, queues, i);
        }
      }
    }
  }

  // ------------------------------------------------------------ an internal timer's turn

  lemma FiredCalm(c: Cb)
    ensures Fired(c).attr == c.attr && (Fired(c).later ==> c.later)
  {
  }

  lemma TimerDone(was: Cbs, cbs: Cbs, timers: seq<nat>, queues: seq<seq<nat>>, queues': seq<seq<nat>>, q: nat, now: nat, n: nat)
    requires q < |timers| && timers[q] in was && CommonDone(was, cbs, timers[q], q, now) && was[timers[q]].active
    requires TimersOk(was, timers, queues) && TimersOk(cbs, timers, queues') && |queues| == |queues'|
    ensures Static(was, cbs) && ActiveTimers(cbs, timers) < ActiveTimers(was, timers)
    ensures DeferOk(was, n) ==> DeferOk(cbs, n)
  {
    TimersShape(was, timers, queues);
    TimersShape(cbs, timers, queues');
    forall id | id in was && id != timers[q]
      ensures cbs[id].attr == was[id].attr && (cbs[id].later ==> was[id].later)
      ensures id in timers ==> cbs[id] == was[id]
    {
      FiredCalm(was[id]);
    }
    assert timers[q] in ActiveTimers(was, timers);
  }

  /** The list a timer event belongs to: its callback argument. */
  method TimerIndex(timers: seq<nat>, id: nat) returns (q: nat)
    requires id in timers
    ensures q < |timers| && timers[q] == id
  {
    q := 0;
    while timers[q] != id
      invariant q < |timers| && id !in timers[..q]
      decreases |timers| - q
    {
      q := q + 1;
    }
  }

  method RunInternal(b: EventBase, id: nat, now: nat)
    requires b.Valid() && id in b.timers && id in b.cbs && b.cbs[id].active && b.running <= 0
    modifies b`cbs, b`active, b`later, b`heap, b`queues, b`eventCount, b`activeCount, b`cont
    ensures b.Valid() && |b.queues| == |old(b.queues)| && Static(old(b.cbs), b.cbs) && b.cont == old(b.cont)
    ensures ActiveTimers(b.cbs, b.timers) < ActiveTimers(old(b.cbs), b.timers)
    ensures DeferOk(old(b.cbs), b.nDeferreds) ==> DeferOk(b.cbs, b.nDeferreds)
    ensures SameUsers(FiredBy(old(b.cbs), b.timers, id, now), b.cbs, b.timers)
  {
    hide EventBase.Sound, FlagsOk, TimersBut, CommonDone, Static, DeferOk, ActiveTimers, SameUsers, FiredBy;
    TimersLen(b.cbs, b.timers, b.queues);
    var q := TimerIndex(b.timers, id);
    RunTimer(b, q, now);
    TimerDone(old(b.cbs), b.cbs, b.timers, old(b.queues), b.queues, q, now, b.nDeferreds);
    FiredByTimer(old(b.cbs), b.cbs, b.timers, b.queues, q, now);
  }

  lemma FiredByTimer(was: Cbs, cbs: Cbs, timers: seq<nat>, queues: seq<seq<nat>>, q: nat, now: nat)
    requires q < |timers| && CommonDone(was, cbs, timers[q], q, now) && TimersOk(cbs, timers, queues)
    ensures SameUsers(FiredBy(was, timers, timers[q], now), cbs, timers)
  {
    hide Fired;
    forall id | id in was && id !in timers
      ensures DueOn(was[id], timers, timers[q], now) <==> CommonDue(was[id], q, now)
      ensures id != timers[q]
    {
      assert timers[q] in timers;
    }
  }

  // ------------------------------------------------------------ one queue

  ghost predicate ScriptFits(script: seq<Turn>, cbs: Cbs, timers: seq<nat>, nQueues: nat) {
    forall i :: 0 <= i < |script| ==> AllFit(script[i].ops, cbs, timers, nQueues)
  }

  /** Every activation goes through event_active_nolock_ and nobody asks the loop to
      continue. */
  ghost predicate ScriptPolite(script: seq<Turn>, cbs: Cbs) {
    forall i :: 0 <= i < |script| ==> Polite(script[i].ops, cbs) && !script[i].cont
  }

  lemma ScriptAt(script: seq<Turn>, was: Cbs, cbs: Cbs, timers: seq<nat>, nQueues: nat, i: nat, now: nat)
    requires ScriptFits(script, was, timers, nQueues) && Static(was, cbs)
    ensures AllFit(Scripted(script, i, now).ops, cbs, timers, nQueues)
    ensures ScriptPolite(script, was) ==> Polite(Scripted(script, i, now).ops, cbs) && !Scripted(script, i, now).cont
    ensures i >= |script| ==> Scripted(script, i, now).ops == []
  {
    if i < |script| {
      FitPolite(script[i].ops, was, cbs, timers, nQueues);
    }
  }

  lemma FitsUsers(script: seq<Turn>, cbs: Cbs, timers: seq<nat>, nQueues: nat)
    requires ScriptFits(script, cbs, timers, nQueues)
    ensures ScriptUsers(script, timers)
  {
    forall i | 0 <= i < |script|
      ensures NamesUsers(script[i].ops, timers)
    {
      assert AllFit(script[i].ops, cbs, timers, nQueues);
      forall k | 0 <= k < |script[i].ops|
        ensures script[i].ops[k].id !in timers
      {
        assert Fits(script[i].ops[k], cbs, timers, nQueues);
      }
    }
  }

  function Left(script: seq<Turn>, i: nat): nat {
    if i < |script| then |script| - i else 0
  }

  ghost predicate Counts(was: Cbs, n0: nat, cbs: Cbs, n: nat, put: nat) {
    && n0 <= n <= Bound(n0)
    && (DeferOk(was, n0) ==> DeferOk(cbs, n) && n == n0 + put)
  }

  lemma CountsTrans(a: Cbs, n0: nat, b: Cbs, n1: nat, put1: nat, c: Cbs, n2: nat, put2: nat)
    requires Counts(a, n0, b, n1, put1) && Counts(b, n1, c, n2, put2)
    ensures Counts(a, n0, c, n2, put1 + put2)
  {
  }

  /** One callback: its turn in the queue, whichever kind it is. */
  method RunOne(b: EventBase, id: nat, turn: Turn) returns (put: nat)
    requires b.Valid() && id in b.cbs && b.cbs[id].active && b.running == b.cbs[id].attr.pri && SameCommon(b.cbs[id])
    requires AllFit(turn.ops, b.cbs, b.timers, |b.queues|)
    modifies b`cbs, b`active, b`later, b`heap, b`queues, b`eventCount, b`activeCount, b`cont, b`nDeferreds
    ensures b.Valid() && |b.queues| == |old(b.queues)| && Static(old(b.cbs), b.cbs)
    ensures Polite(turn.ops, old(b.cbs)) && InOrder(old(b.cbs), b.running, old(b.cont)) ==>
      InOrder(b.cbs, b.running, b.cont)
    ensures Counts(old(b.cbs), old(b.nDeferreds), b.cbs, b.nDeferreds, put)
    ensures b.running <= 0 && !turn.cont ==> b.cont == old(b.cont)
    ensures turn.ops == [] ==>
      || ActiveTimers(b.cbs, b.timers) < ActiveTimers(old(b.cbs), b.timers)
      || (&& ActiveTimers(b.cbs, b.timers) <= ActiveTimers(old(b.cbs), b.timers)
          && ActiveAt(b.cbs, old(b.cbs)[id].attr.pri) < ActiveAt(old(b.cbs), old(b.cbs)[id].attr.pri))
    ensures Agree(PlayOne(Sim(old(b.cbs), old(b.nDeferreds), old(b.cont)), b.timers, id, turn), b.cbs, b.timers, b.nDeferreds, b.cont)
  {
    hide Agree, TurnOf, FiredBy, SameUsers, EventBase.Sound, FlagsOk, TimersBut, AllFit, Static, Polite, InOrder, DeferOk, ActiveTimers, ActiveAt, Calmed, TimersCalm;
    ghost var p := b.cbs[id].attr.pri;
    if id in b.timers {
      TimersShape(b.cbs, b.timers, b.queues);
      RunInternal(b, id, turn.now);
      OrderFirst(b.cbs, b.running, b.cont);
      AgreeUsers(FiredBy(old(b.cbs), b.timers, id, turn.now), b.cbs, b.timers, b.nDeferreds, b.cont);
      put := 0;
    } else {
      put := RunUser(b, id, turn);
      TimersCalmer(old(b.cbs), b.cbs, b.timers);
      if turn.ops == [] {
        FewerActive(old(b.cbs), b.cbs, p, id);
      }
    }
  }

  lemma AgreeUsers(cbs: Cbs, cbs': Cbs, timers: seq<nat>, n: nat, cont: bool)
    requires SameUsers(cbs, cbs', timers)
    ensures Agree(Sim(cbs, n, cont), cbs', timers, n, cont)
  {
  }

  lemma OrderFirst(cbs: Cbs, p: int, cont: bool)
    requires p <= 0
    ensures InOrder(cbs, p, cont)
  {
  }

  /** The first callback of queue p: which it is, whether it is internal, and whether the
      lower queues were empty when it started. */
  method RunHead(b: EventBase, p: nat, turn: Turn) returns (id: nat, internal: bool, low: bool, put: nat)
    requires b.Valid() && SamePeriods(b.cbs) && p < |b.active| && b.active[p] != [] && b.running == p
    requires AllFit(turn.ops, b.cbs, b.timers, |b.queues|)
    modifies b`cbs, b`active, b`later, b`heap, b`queues, b`eventCount, b`activeCount, b`cont, b`nDeferreds
    ensures b.Valid() && |b.queues| == |old(b.queues)| && Static(old(b.cbs), b.cbs)
    ensures id == old(b.active)[p][0] && id in old(b.cbs) && internal == old(b.cbs)[id].attr.internal
    ensures old(b.cbs)[id].active && old(b.cbs)[id].attr.pri == p
    ensures low <==> Clear(old(b.cbs), p)
    ensures Polite(turn.ops, old(b.cbs)) && Clear(old(b.cbs), p) ==> Clear(b.cbs, p) || b.cont
    ensures Counts(old(b.cbs), old(b.nDeferreds), b.cbs, b.nDeferreds, put)
    ensures p == 0 && !turn.cont ==> b.cont == old(b.cont)
    ensures InternalsFirst(old(b.cbs)) && internal ==> p == 0
    ensures turn.ops == [] ==>
      || ActiveTimers(b.cbs, b.timers) < ActiveTimers(old(b.cbs), b.timers)
      || (ActiveTimers(b.cbs, b.timers) <= ActiveTimers(old(b.cbs), b.timers) && ActiveAt(b.cbs, p) < ActiveAt(old(b.cbs), p))
    ensures Agree(PlayOne(Sim(old(b.cbs), old(b.nDeferreds), old(b.cont)), b.timers, id, turn), b.cbs, b.timers, b.nDeferreds, b.cont)
  {
    hide Agree, PlayOne, QueuesOk, FlagsOk, TimersBut, TotalLen, Memberships, AllFit, Static, Polite, InOrder;
    hide ActiveTimers, ActiveAt, Counts, Clear, LowerEmpty;
    id := b.active[p][0];
    HeadActive(b.cbs, b.active, b.later, b.heap, b.queues, p);
    ClearLower(b.cbs, b.active, b.later, b.heap, b.queues, p);
    ClearOrder(b.cbs, p, b.cont);
    low, internal := LowerEmpty(b.active, p), b.cbs[id].attr.internal;
    put := RunOne(b, id, turn);
    ClearOrder(b.cbs, p, b.cont);
  }

  lemma OnItsQueue(cbs: Cbs, active: seq<seq<nat>>, later: seq<nat>, heap: map<nat, nat>, queues: seq<seq<nat>>, id: nat)
    requires QueuesOk(cbs, active, later, heap, queues) && id in cbs && cbs[id].active
    ensures cbs[id].attr.pri < |active| && id in active[cbs[id].attr.pri]
  {
    assert HoldsActive(active[cbs[id].attr.pri], cbs, cbs[id].attr.pri);
  }

  /** A base on which two events of priority 1 are active, and a deferred callback of
      priority 0 is not. */
  method TwoActive() returns (b: EventBase)
    ensures fresh(b) && b.Valid() && b.running == -1 && !b.cont && b.nDeferreds == 0 && b.timers == [] && b.nActive == 2
    ensures b.cbs.Keys == {0, 1, 2} && Clear(b.cbs, 1) && SamePeriods(b.cbs)
    ensures b.cbs[1].active && b.cbs[2].active && b.cbs[1].attr.pri == b.cbs[2].attr.pri == 1
    ensures b.cbs[0].attr == Attr(false, false, true, false, false, 0) && !b.cbs[0].finalizing
  {
    hide EventBase.Sound, FlagsOk, TimersBut;
    var bare := Cb(Attr(false, false, true, false, false, 0), false, false, false, false, false, 0, -1, 0, -1, false);
    var event := Cb(Attr(true, false, false, false, false, 1), false, false, false, false, false, 0, -1, 0, -1, false);
    b := new EventBase(map[0 := bare, 1 := event, 2 := event], [], 2);
    ActivateUser(b, 1, false, 0);
    ActivateUser(b, 2, false, 0);
  }

  /** The first of two events of priority 1 to run schedules a deferred callback of priority
      0; the second runs before it all the same. */
  method DeferredOvertakes() returns (first: bool, second: bool)
    ensures first && !second
  {
    hide EventBase.Sound, FlagsOk, TimersBut, PlayOne, Static, Clear, SamePeriods;
    var b := TwoActive();
    b.running := 1;
    Queued(b, 1);
    ghost var was := b.cbs;
    var id, internal, put;
    id, internal, first, put := RunHead(b, 1, Turn(0, false, [OpDeferred(0)], false, false, false));
    PeriodsKept(was, b.cbs);
    var other := if id == 1 then 2 else 1;
    PlayDeferred(Sim(was, 0, false), id, other);
    Unclear(b.cbs, 0, 1);
    Queued(b, other);
    id, internal, second, put := RunHead(b, 1, Turn(0, false, [], false, false, false));
  }

  lemma Queued(b: EventBase, id: nat)
    requires b.Valid() && id in b.cbs && b.cbs[id].active
    ensures b.cbs[id].attr.pri < |b.active| && b.active[b.cbs[id].attr.pri] != []
  {
    hide QueuesOk, FlagsOk, TimersBut, Memberships, TotalLen;
    OnItsQueue(b.cbs, b.active, b.later, b.heap, b.queues, id);
  }

  /** A callback that schedules deferred callback 0 leaves it active, and others alone. */
  lemma PlayDeferred(s: Sim, id: nat, other: nat)
    requires id in s.cbs && 0 in s.cbs && other in s.cbs && id != 0 && other != 0 && other != id
    requires s.n == 0 && !s.cont && !s.cbs[0].finalizing
    ensures var t := PlayOne(s, [], id, Turn(0, false, [OpDeferred(0)], false, false, false));
      && t.cbs.Keys == s.cbs.Keys && t.cbs[other] == s.cbs[other] && t.cbs[0].active && t.cbs[0].attr == s.cbs[0].attr
      && !t.cont
  {
    hide Resumed;
    var ops := [OpDeferred(0)];
    assert ops[..0] == [] && ops[|ops| - 1] == OpDeferred(0);
    var r := s.(cbs := s.cbs[id := Resumed(s.cbs[id], 0, false)]);
    assert AllMade(r, ops[..0], s.cbs[id].attr.pri) == r;
  }

  lemma Unclear(cbs: Cbs, id: nat, p: int)
    requires id in cbs && cbs[id].active && cbs[id].attr.pri < p
    ensures !Clear(cbs, p)
  {
  }

  lemma FirstStatic(was: Cbs, cbs: Cbs)
    requires InternalsFirst(was) && Static(was, cbs)
    ensures InternalsFirst(cbs)
  {
  }

  /** The turn of the first callback of queue p, in a pass that began with was. */
  method QueueTurn(b: EventBase, p: nat, script: seq<Turn>, used: nat, now: nat, ghost was: Sim, put: nat)
    returns (id: nat, internal: bool, put': nat)
    requires b.Valid() && SamePeriods(was.cbs) && p < |b.active| == b.nActive && b.active[p] != [] && b.running == p
    requires ScriptFits(script, was.cbs, b.timers, |b.queues|) && Static(was.cbs, b.cbs)
    requires Counts(was.cbs, was.n, b.cbs, b.nDeferreds, put)
    modifies b`cbs, b`active, b`later, b`heap, b`queues, b`eventCount, b`activeCount, b`cont, b`nDeferreds
    ensures b.Valid() && |b.queues| == |old(b.queues)| && |b.active| == |old(b.active)|
    ensures Static(was.cbs, b.cbs) && Static(old(b.cbs), b.cbs) && Counts(was.cbs, was.n, b.cbs, b.nDeferreds, put')
    ensures id == old(b.active)[p][0] && id in old(b.cbs) && internal == old(b.cbs)[id].attr.internal
    ensures old(b.cbs)[id].active && old(b.cbs)[id].attr.pri == p
    ensures ScriptPolite(script, was.cbs) && InternalsFirst(was.cbs) && Clear(old(b.cbs), p) && !old(b.cont) ==>
      (Clear(b.cbs, p) || b.cont) && (internal ==> !b.cont)
    ensures used >= |script| ==>
      || ActiveTimers(b.cbs, b.timers) < ActiveTimers(old(b.cbs), b.timers)
      || (ActiveTimers(b.cbs, b.timers) <= ActiveTimers(old(b.cbs), b.timers) && ActiveAt(b.cbs, p) < ActiveAt(old(b.cbs), p))
    ensures Agree(PlayOne(Sim(old(b.cbs), old(b.nDeferreds), old(b.cont)), b.timers, id, Scripted(script, used, now)),
                  b.cbs, b.timers, b.nDeferreds, b.cont)
  {
    hide EventBase.Valid, ScriptFits, ScriptPolite, AllFit, Static, Polite, ActiveTimers, ActiveAt, Counts, Clear;
    hide Scripted, InternalsFirst, SamePeriods, Agree, PlayOne;
    ghost var mid, n := b.cbs, b.nDeferreds;
    ScriptAt(script, was.cbs, mid, b.timers, |b.queues|, used, now);
    PeriodsKept(was.cbs, mid);
    var low, k;
    id, internal, low, k := RunHead(b, p, Scripted(script, used, now));
    ActiveLen(b);
    put' := put + k;
    StaticTrans(was.cbs, mid, b.cbs);
    CountsTrans(was.cbs, was.n, mid, n, put, b.cbs, b.nDeferreds, k);
    if InternalsFirst(was.cbs) {
      FirstStatic(was.cbs, mid);
    }
  }

  /** event_process_active_single_queue.  Returns -1 on a break, or the number of
      callbacks run that are not internal; used is how many turns of the script have
      passed, ran the callbacks run in turn, and starts the states they started in. */
  method ProcessQueue(b: EventBase, p: nat, max: nat, timed: bool, script: seq<Turn>, from: nat, now: nat)
    returns (count: int, used: nat, ran: seq<nat>, put: nat, ghost starts: seq<Cbs>)
    requires b.Valid() && SamePeriods(b.cbs) && p < |b.active| == b.nActive && b.running == p && max >= 1
    requires ScriptFits(script, b.cbs, b.timers, |b.queues|)
    modifies b`cbs, b`active, b`later, b`heap, b`queues, b`eventCount, b`activeCount, b`cont, b`nDeferreds
    ensures b.Valid() && |b.queues| == |old(b.queues)| && Static(old(b.cbs), b.cbs)
    ensures ScriptPolite(script, old(b.cbs)) && InternalsFirst(old(b.cbs)) && Clear(old(b.cbs), p) && !old(b.cont) ==>
      && Ordered(ran, starts) && (count == 0 ==> !b.cont)
      && (!b.cont ==> Clear(b.cbs, p) && (b.active[p] == [] ==> Clear(b.cbs, p + 1)))
    ensures count == 0 ==> b.active[p] == [] || b.cont
    ensures -1 <= count <= max && used == from + |ran| && |b.active| == |old(b.active)|
    ensures Passed(Sim(old(b.cbs), old(b.nDeferreds), old(b.cont)), b.timers, ran, starts, script, from, now, max, timed,
                   Sim(b.cbs, b.nDeferreds, b.cont), b.active[p] == [])
    ensures count == if ran != [] && Scripted(script, used - 1, now).brk then -1 else CountUsers(ran, old(b.cbs))
    ensures if old(b.active)[p] == [] then ran == [] else ran != [] && ran[0] == old(b.active)[p][0]
    ensures AllAt(ran, old(b.cbs), p)
    ensures Counts(old(b.cbs), old(b.nDeferreds), b.cbs, b.nDeferreds, put)
  {
    hide EventBase.Valid, ScriptFits, ScriptPolite, Static, ActiveTimers, ActiveAt, Counts, Clear, LowerEmpty, Scripted, InternalsFirst, SamePeriods;
    hide Agree, PlayOne, Onward, Passed, CountUsers, ScriptUsers, AllAt, Ordered;
    count, used, ran, put, starts := 0, from, [], 0, [];
    ghost var sim, timers := Sim(b.cbs, b.nDeferreds, b.cont), b.timers;
    ghost var polite := ScriptPolite(script, b.cbs) && InternalsFirst(b.cbs) && Clear(b.cbs, p) && !b.cont;
    StaticSame(b.cbs, b.timers);
    CountsSame(b.cbs, b.nDeferreds);
    FitsUsers(script, b.cbs, b.timers, |b.queues|);
    OnwardStart(sim, timers, script, from, now, max, timed);
    AtNone(sim.cbs, p);
    var broke := false;
    ghost var stopped := false;
    while b.active[p] != []
      invariant b.Valid() && |b.queues| == |old(b.queues)| && Static(sim.cbs, b.cbs) && 0 <= count < max && !broke && !stopped
      invariant polite ==> Ordered(ran, starts) && Clear(b.cbs, p) && !b.cont
      invariant Counts(sim.cbs, sim.n, b.cbs, b.nDeferreds, put) && |b.active| == |old(b.active)|
      invariant used == from + |ran| && if ran == [] then b.active == old(b.active)
        else old(b.active)[p] != [] && ran[0] == old(b.active)[p][0]
      invariant Onward(sim, timers, ran, starts, script, from, now, max, timed, Sim(b.cbs, b.nDeferreds, b.cont))
      invariant count == CountUsers(ran, sim.cbs) && AllAt(ran, sim.cbs, p)
      decreases Left(script, used), ActiveTimers(b.cbs, b.timers), ActiveAt(b.cbs, p)
    {
      var turn := Scripted(script, used, now);
      ghost var mid := Sim(b.cbs, b.nDeferreds, b.cont);
      var id, internal;
      id, internal, put := QueueTurn(b, p, script, used, now, sim, put);
      AtStep(ran, id, sim.cbs, mid.cbs, p);
      if polite {
        OrderedStep(ran, starts, id, mid.cbs);
      }
      OnwardStep(sim, mid, timers, ran, starts, id, script, from, now, max, timed, Sim(b.cbs, b.nDeferreds, b.cont));
      used, ran, starts := used + 1, ran + [id], starts + [mid.cbs];
      if !internal {
        count := count + 1;
      }
      if turn.brk {
        broke, stopped := true, true;
        break;
      }
      if count >= max || (count > 0 && timed && turn.late) || b.cont {
        stopped := true;
        break;
      }
    }
    QueueDone(b, p);
    if !stopped {
      OnwardDone(sim, timers, ran, starts, script, from, now, max, timed, Sim(b.cbs, b.nDeferreds, b.cont));
    }
    if broke {
      count := -1;
    }
  }

  lemma QueueDone(b: EventBase, p: nat)
    requires b.Valid() && p < |b.active|
    ensures b.active[p] == [] && Clear(b.cbs, p) ==> Clear(b.cbs, p + 1)
  {
    hide QueuesOk, FlagsOk, TimersBut, TotalLen, Memberships, Clear, LowerEmpty;
    ClearLower(b.cbs, b.active, b.later, b.heap, b.queues, p);
    ClearLower(b.cbs, b.active, b.later, b.heap, b.queues, p + 1);
    if b.active[p] == [] {
      LowerNext(b.active, p);
    }
  }

  lemma AtNone(cbs: Cbs, p: nat)
    ensures AllAt([], cbs, p)
  {
  }

  lemma AtStep(ran: seq<nat>, id: nat, was: Cbs, cbs: Cbs, p: nat)
    requires AllAt(ran, was, p) && Static(was, cbs) && id in cbs && cbs[id].attr.pri == p
    ensures AllAt(ran + [id], was, p)
  {
  }

  lemma ActiveLen(b: EventBase)
    requires b.Valid()
    ensures |b.active| == b.nActive
  {
  }

  lemma CountsSame(cbs: Cbs, n: nat)
    ensures Counts(cbs, n, cbs, n, 0)
  {
  }

  lemma ClearOrder(cbs: Cbs, p: int, cont: bool)
    ensures InOrder(cbs, p, cont) <==> Clear(cbs, p) || cont
  {
  }

  lemma LowerNext(active: seq<seq<nat>>, p: nat)
    requires p < |active| && active[p] == []
    ensures LowerEmpty(active, p) ==> LowerEmpty(active, p + 1)
  {
  }

  // ------------------------------------------------------------ all queues

  /** When callbacks do nothing: the queues below passed are empty afterwards.  They are all
      queues, or end with that of the callbacks that ran, but for a queue left at its limit. */
  ghost predicate PassesAll(was: Cbs, limits: Limits, ran: seq<nat>, c: int, passed: nat, nQueues: nat, cbs: Cbs) {
    && c >= 0 && Clear(cbs, passed) && (c == 0 ==> passed == nQueues)
    && (c > 0 ==>
          && ran != [] && ran[|ran| - 1] in was
          && var p := was[ran[|ran| - 1]].attr.pri; passed == p + 1 || (passed == p && c >= limits.Max(p)))
  }

  lemma EmptyQueue(b: EventBase, p: nat)
    requires b.Valid() && p < |b.active|
    ensures b.active[p] == [] ==> NoneAt(b.cbs, b.timers, p)
  {
    assert HoldsActive(b.active[p], b.cbs, p);
  }

  /** The pass over queue p, in a pass over the queues that began with was. */
  method PassQueue(b: EventBase, limits: Limits, script: seq<Turn>, now: nat, ghost was: Sim, ran: seq<nat>,
                   ghost starts: seq<Cbs>, p: nat, put: nat)
    returns (c: int, ran': seq<nat>, put': nat, ghost starts': seq<Cbs>)
    requires b.Valid() && SamePeriods(was.cbs) && p < b.nActive && limits.maxcb >= 1
    requires ScriptFits(script, was.cbs, b.timers, |b.queues|) && Static(was.cbs, b.cbs)
    requires Counts(was.cbs, was.n, b.cbs, b.nDeferreds, put)
    requires Through(was, b.timers, script, now, limits, ran, starts, p, Sim(b.cbs, b.nDeferreds, b.cont))
    modifies b`cbs, b`active, b`later, b`heap, b`queues, b`eventCount, b`activeCount, b`cont, b`nDeferreds, b`running
    ensures b.Valid() && |b.queues| == |old(b.queues)| && p < |b.active| && Static(was.cbs, b.cbs)
    ensures Counts(was.cbs, was.n, b.cbs, b.nDeferreds, put')
    ensures PassOver(was, b.timers, script, now, limits, ran', starts', c, Sim(b.cbs, b.nDeferreds, b.cont))
    ensures c == 0 ==> Through(was, b.timers, script, now, limits, ran', starts', p + 1, Sim(b.cbs, b.nDeferreds, b.cont))
    ensures ScriptPolite(script, was.cbs) && InternalsFirst(was.cbs) && Clear(old(b.cbs), p) && !old(b.cont) && Ordered(ran, starts) ==>
      && Ordered(ran', starts') && (c == 0 ==> !b.cont && b.active[p] == [])
      && (!b.cont ==> Clear(b.cbs, p) && (b.active[p] == [] ==> Clear(b.cbs, p + 1)))
    ensures script == [] && !old(b.cont) ==>
      && c >= 0 && !b.cont && (b.active[p] == [] || c >= limits.Max(p))
      && (c > 0 ==> ran' != [] && ran'[|ran'| - 1] in was.cbs && was.cbs[ran'[|ran'| - 1]].attr.pri == p)
  {
    hide EventBase.Valid, ScriptFits, ScriptPolite, Static, Counts, Clear, InternalsFirst, SamePeriods;
    hide Through, PassOver, Passed, CountUsers, ScriptUsers, Scripted, AllAt, Ordered, NoneAt;
    b.running := p;
    ghost var mid := Sim(b.cbs, b.nDeferreds, b.cont);
    FitsUsers(script, was.cbs, b.timers, |b.queues|);
    ScriptStatic(script, was.cbs, mid.cbs, b.timers, |b.queues|);
    PeriodsKept(was.cbs, mid.cbs);
    ActiveLen(b);
    var used, more, k;
    ghost var ends;
    if p < limits.afterPrio {
      c, used, more, k, ends := ProcessQueue(b, p, INT_MAX, false, script, |ran|, now);
    } else {
      c, used, more, k, ends := ProcessQueue(b, p, limits.maxcb, limits.timed, script, |ran|, now);
    }
    ran', put', starts' := ran + more, put + k, starts + ends;
    StaticTrans(was.cbs, mid.cbs, b.cbs);
    CountsTrans(was.cbs, was.n, mid.cbs, mid.n, put, b.cbs, b.nDeferreds, k);
    EmptyQueue(b, p);
    ThroughNext(was, b.timers, script, now, limits, ran, starts, p, mid, more, ends, c, Sim(b.cbs, b.nDeferreds,
                b.cont), b.active[p] == []);
    if Ordered(ran, starts) && Ordered(more, ends) {
      OrderedConcat(ran, starts, more, ends);
    }
    if script == [] && !mid.cont {
      QuietEnd(b.timers, now, ran, p, mid, was.cbs, more, ends, limits, c, Sim(b.cbs, b.nDeferreds, b.cont), b.active[p] == []);
    }
  }

  /** event_process_active: what it runs, and what it leaves.  No callback starts while one
      of smaller priority number is active, if every activation goes through
      event_active_nolock_. */
  method ProcessActive(b: EventBase, limits: Limits, script: seq<Turn>, now: nat)
    returns (c: int, ran: seq<nat>, passed: nat, put: nat, ghost starts: seq<Cbs>)
    requires b.Valid() && SamePeriods(b.cbs) && b.running == -1 && limits.maxcb >= 1
    requires ScriptFits(script, b.cbs, b.timers, |b.queues|)
    modifies b`cbs, b`active, b`later, b`heap, b`queues, b`eventCount, b`activeCount, b`cont, b`nDeferreds, b`running
    ensures b.Valid() && |b.queues| == |old(b.queues)| && b.running == -1 && Static(old(b.cbs), b.cbs)
    ensures PassOver(Sim(old(b.cbs), old(b.nDeferreds), old(b.cont)), b.timers, script, now, limits, ran, starts, c, Sim(b.cbs, b.nDeferreds, b.cont))
    ensures ScriptPolite(script, old(b.cbs)) && InternalsFirst(old(b.cbs)) && !old(b.cont) ==> Ordered(ran, starts)
    ensures script == [] && InternalsFirst(old(b.cbs)) && !old(b.cont) ==>
      PassesAll(old(b.cbs), limits, ran, c, passed, b.nActive, b.cbs)
    ensures Counts(old(b.cbs), old(b.nDeferreds), b.cbs, b.nDeferreds, put)
  {
    hide EventBase.Valid, ScriptFits, ScriptPolite, Static, Counts, Clear, InternalsFirst, SamePeriods, Through, PassOver, Ordered;
    c, ran, passed, put, starts := 0, [], 0, 0, [];
    ghost var sim, timers := Sim(b.cbs, b.nDeferreds, b.cont), b.timers;
    ghost var polite := ScriptPolite(script, b.cbs) && InternalsFirst(b.cbs) && !b.cont;
    StaticSame(b.cbs, b.timers);
    CountsSame(b.cbs, b.nDeferreds);
    ClearZero(b.cbs);
    ThroughNone(sim, timers, script, now, limits);
    QuietPolite(b.cbs);
    while passed < b.nActive
      invariant passed <= b.nActive && b.Valid() && |b.queues| == |old(b.queues)| && Static(sim.cbs, b.cbs)
      invariant polite ==> Ordered(ran, starts) && Clear(b.cbs, passed) && !b.cont
      invariant Counts(sim.cbs, sim.n, b.cbs, b.nDeferreds, put)
      invariant c == 0 && Through(sim, timers, script, now, limits, ran, starts, passed, Sim(b.cbs, b.nDeferreds, b.cont))
      invariant PassOver(sim, timers, script, now, limits, ran, starts, c, Sim(b.cbs, b.nDeferreds, b.cont))
    {
      c, ran, put, starts := PassQueue(b, limits, script, now, sim, ran, starts, passed, put);
      if c != 0 {
        if b.active[passed] == [] {
          passed := passed + 1;
        }
        break;
      }
      passed := passed + 1;
    }
    b.running := -1;
  }

  lemma QuietEnd(timers: seq<nat>, now: nat, ran: seq<nat>, p: nat, mid: Sim, was: Cbs, more: seq<nat>,
                 starts: seq<Cbs>, limits: Limits,
                 c: int, t: Sim, empty: bool)
    requires Static(was, mid.cbs) && AllAt(more, mid.cbs, p) && !mid.cont && limits.maxcb >= 1
    requires Passed(mid, timers, more, starts, [], |ran|, now, limits.Max(p), limits.Timed(p), t, empty)
    requires c == if more != [] && Scripted([], |ran| + |more| - 1, now).brk then -1 else CountUsers(more, mid.cbs)
    ensures c >= 0 && !t.cont && (empty || c >= limits.Max(p))
    ensures c > 0 ==>
      && more != [] && (ran + more)[|ran + more| - 1] in was
      && was[(ran + more)[|ran + more| - 1]].attr.pri == p
  {
    hide Passed;
    QuietPass(mid, timers, more, starts, |ran|, now, limits.Max(p), limits.Timed(p), t, empty);
    if more != [] {
      assert more[|more| - 1] in more;
    }
  }

  lemma QuietPolite(cbs: Cbs)
    ensures ScriptPolite([], cbs)
  {
  }

  lemma ClearZero(cbs: Cbs)
    ensures Clear(cbs, 0)
  {
  }

  lemma ScriptStatic(script: seq<Turn>, was: Cbs, cbs: Cbs, timers: seq<nat>, nQueues: nat)
    requires Static(was, cbs)
    ensures ScriptFits(script, was, timers, nQueues) ==> ScriptFits(script, cbs, timers, nQueues)
    ensures ScriptPolite(script, was) ==> ScriptPolite(script, cbs)
    ensures InternalsFirst(was) ==> InternalsFirst(cbs)
  {
    forall i | 0 <= i < |script|
      ensures AllFit(script[i].ops, was, timers, nQueues) ==> AllFit(script[i].ops, cbs, timers, nQueues)
      ensures Polite(script[i].ops, was) ==> Polite(script[i].ops, cbs)
    {
      FitPolite(script[i].ops, was, cbs, timers, nQueues);
    }
  }

  // ------------------------------------------------------------ the later queue

  function Promoted(c: Cb): Cb {
    if c.later then c.(later := false, active := true) else c
  }

  /** Some of the callbacks waiting for this iteration became active. */
  ghost predicate Promoting(was: Cbs, cbs: Cbs) {
    was.Keys == cbs.Keys && forall id :: id in was ==> cbs[id] == was[id] || cbs[id] == Promoted(was[id])
  }

  /** The closure is EV_CLOSURE_CB_SELF; finalizing a callback changes it. */
  predicate IsSelf(c: Cb) {
    c.attr.selfCb && !c.finalizing
  }

  /** How many callbacks of list are deferred callbacks. */
  function Selfs(list: seq<nat>, cbs: Cbs): nat {
    if list == [] then 0
    else (if list[0] in cbs && IsSelf(cbs[list[0]]) then 1 else 0) + Selfs(list[1..], cbs)
  }

  lemma {:induction false} SelfsPromoted(list: seq<nat>, cbs: Cbs, id: nat)
    requires id in cbs
    ensures Selfs(list, cbs) == Selfs(list, cbs[id := Promoted(cbs[id])])
  {
    if list != [] {
      SelfsPromoted(list[1..], cbs, id);
    }
  }

  lemma PromotingStep(was: Cbs, cbs: Cbs, id: nat)
    requires Promoting(was, cbs) && id in cbs && cbs[id].later
    ensures Promoting(was, cbs[id := Promoted(cbs[id])])
    ensures Static(cbs, cbs[id := Promoted(cbs[id])])
  {
  }

  lemma PromotingEnd(was: Cbs, cbs: Cbs, n: nat)
    requires Promoting(was, cbs) && forall id :: id in cbs ==> !cbs[id].later
    ensures Static(was, cbs) && DeferOk(cbs, n)
    ensures forall id :: id in was ==> cbs[id] == Promoted(was[id])
  {
  }

  /** Take the first callback of the later queue to its active queue. */
  method PromoteFirst(b: EventBase)
    requires b.Valid() && b.later != []
    modifies b`cbs, b`active, b`later, b`eventCount, b`activeCount
    ensures b.Valid() && b.later == old(b.later)[1..]
    ensures var id := old(b.later)[0];
      && id in old(b.cbs) && old(b.cbs)[id].later
      && b.cbs == old(b.cbs)[id := Promoted(old(b.cbs)[id])]
  {
    hide QueuesOk, FlagsOk, TimersBut, TotalLen, Memberships;
    var id := b.later[0];
    LaterHead(b.cbs, b.active, b.later, b.heap, b.queues);
    FlagsAt(b.cbs, id);
    ghost var c := b.cbs[id];
    ghost var d := c.(later := false);
    LaterUser(b.cbs, b.timers, b.queues, id);
    FlagsSet(b.cbs, id, Promoted(c));
    TimersFrame(b.cbs, b.timers, b.queues, |b.queues|, id, Promoted(c));
    Overwrite(b.cbs, id, d, Promoted(c));
    b.RemoveLater(id);
    b.InsertActive(id);
  }

  lemma LaterHead(cbs: Cbs, active: seq<seq<nat>>, later: seq<nat>, heap: map<nat, nat>, queues: seq<seq<nat>>)
    requires QueuesOk(cbs, active, later, heap, queues)
    ensures later != [] ==> later[0] in cbs && cbs[later[0]].later
    ensures later == [] ==> forall id :: id in cbs ==> !cbs[id].later
  {
    assert HoldsLater(later, cbs);
    if later != [] {
      assert later[0] in later;
    }
  }

  lemma LaterUser(cbs: Cbs, timers: seq<nat>, queues: seq<seq<nat>>, id: nat)
    requires TimersOk(cbs, timers, queues) && id in cbs && cbs[id].later
    ensures id !in timers
  {
    TimersShape(cbs, timers, queues);
  }

  /** event_queue_make_later_events_active */
  method MakeLaterActive(b: EventBase)
    requires b.Valid()
    modifies b`cbs, b`active, b`later, b`eventCount, b`activeCount, b`nDeferreds
    ensures b.Valid() && b.later == [] && Static(old(b.cbs), b.cbs)
    ensures forall id :: id in old(b.cbs) ==> id in b.cbs && b.cbs[id] == Promoted(old(b.cbs)[id])
    ensures b.nDeferreds == old(b.nDeferreds) + Selfs(old(b.later), old(b.cbs))
    ensures DeferOk(b.cbs, b.nDeferreds)
  {
    hide QueuesOk, FlagsOk, TimersBut, TotalLen, Memberships, Static, Promoting, Promoted, DeferOk;
    assert Promoting(b.cbs, b.cbs) by {
      PromotingSame(b.cbs);
    }
    while b.later != []
      invariant b.Valid() && Promoting(old(b.cbs), b.cbs)
      invariant b.nDeferreds + Selfs(b.later, b.cbs) == old(b.nDeferreds) + Selfs(old(b.later), old(b.cbs))
      decreases |b.later|
    {
      ghost var cbs := b.cbs;
      LaterHead(b.cbs, b.active, b.later, b.heap, b.queues);
      var id, self := b.later[0], IsSelf(b.cbs[b.later[0]]);
      PromotingStep(old(b.cbs), cbs, id);
      PromoteFirst(b);
      SelfsPromoted(b.later, cbs, id);
      if self {
        b.nDeferreds := b.nDeferreds + 1;
      }
    }
    LaterHead(b.cbs, b.active, b.later, b.heap, b.queues);
    PromotingEnd(old(b.cbs), b.cbs, b.nDeferreds);
  }

  lemma PromotingSame(cbs: Cbs)
    ensures Promoting(cbs, cbs)
  {
  }

  // ------------------------------------------------------------ the loop

  /** What an iteration of the loop meets: the events whose fds are ready, the time, and
      what the callbacks do. */
  datatype Iteration = Iteration(ready: seq<nat>, now: nat, script: seq<Turn>)

  ghost predicate Feasible(it: Iteration, cbs: Cbs, timers: seq<nat>, nQueues: nat) {
    && ScriptFits(it.script, cbs, timers, nQueues)
    && (forall i :: 0 <= i < |it.ready| ==> it.ready[i] in cbs && it.ready[i] !in timers && cbs[it.ready[i]].attr.isEvent)
  }

  /** The callbacks once the backend has reported the ready events. */
  function Reported(cbs: Cbs, ready: seq<nat>): Cbs {
    map id | id in cbs :: if id in ready then Activated(cbs[id], false) else cbs[id]
  }

  lemma ReportedStep(cbs: Cbs, ready: seq<nat>, id: nat)
    requires id in cbs
    ensures var d := Reported(cbs, ready); Reported(cbs, ready + [id]) == d[id := Activated(d[id], false)]
  {
  }

  lemma ReportedNone(cbs: Cbs)
    ensures Reported(cbs, []) == cbs
  {
  }

  /** The backend reports the ready events: evmap_io_active_. */
  method Report(b: EventBase, ready: seq<nat>)
    requires b.Valid() && b.running == -1
    requires forall i :: 0 <= i < |ready| ==> ready[i] in b.cbs && ready[i] !in b.timers && b.cbs[ready[i]].attr.isEvent
    modifies b`cbs, b`active, b`later, b`eventCount, b`activeCount, b`cont
    ensures b.Valid() && b.cont == old(b.cont) && Static(old(b.cbs), b.cbs)
    ensures DeferOk(old(b.cbs), b.nDeferreds) ==> DeferOk(b.cbs, b.nDeferreds)
    ensures b.cbs == Reported(old(b.cbs), ready)
  {
    hide EventBase.Sound, FlagsOk, TimersBut, Static, DeferOk, Activated, Reported;
    StaticSame(b.cbs, b.timers);
    ReportedNone(b.cbs);
    var i := 0;
    while i < |ready|
      invariant i <= |ready| && b.Valid() && b.cont == old(b.cont) && Static(old(b.cbs), b.cbs)
      invariant DeferOk(old(b.cbs), b.nDeferreds) ==> DeferOk(b.cbs, b.nDeferreds)
      invariant b.cbs == Reported(old(b.cbs), ready[..i])
    {
      ghost var cbs := b.cbs;
      StaticKeys(old(b.cbs), cbs);
      ActivatedStep(cbs, ready[i], b.nDeferreds);
      ReportedStep(old(b.cbs), ready[..i], ready[i]);
      ActivateUser(b, ready[i], false, |b.queues|);
      StaticTrans(old(b.cbs), cbs, b.cbs);
      assert ready[..i + 1] == ready[..i] + [ready[i]];
      i := i + 1;
    }
    assert ready[..i] == ready;
  }

  lemma StaticKeys(was: Cbs, cbs: Cbs)
    requires Static(was, cbs)
    ensures was.Keys == cbs.Keys
  {
  }

  lemma ActivatedStep(cbs: Cbs, id: nat, n: nat)
    requires id in cbs
    ensures Static(cbs, cbs[id := Activated(cbs[id], false)])
    ensures DeferOk(cbs, n) ==> DeferOk(cbs[id := Activated(cbs[id], false)], n)
  {
  }

  lemma FiringStatic(was: Cbs, cbs: Cbs, now: nat, n: nat)
    requires Firing(was, cbs, now)
    ensures Static(was, cbs) && (DeferOk(was, n) ==> DeferOk(cbs, n))
  {
    forall id | id in was
      ensures cbs[id].attr == was[id].attr && (cbs[id].later ==> was[id].later)
    {
      FiredCalm(was[id]);
    }
  }

  /** A callback when event_process_active is called: the callbacks that waited for this
      iteration are active, so are those reported ready, and those due in the heap fired. */
  function Met(c: Cb, ready: bool, now: nat): Cb {
    var d := if ready then Activated(Promoted(c), false) else Promoted(c);
    if HeapDue(d, now) then Fired(d) else d
  }

  function Woken(cbs: Cbs, ready: seq<nat>, now: nat): Cbs {
    map id | id in cbs :: Met(cbs[id], id in ready, now)
  }

  lemma WokenIs(was: Cbs, promoted: Cbs, ready: seq<nat>, cbs: Cbs, now: nat)
    requires was.Keys == promoted.Keys && forall id :: id in was ==> promoted[id] == Promoted(was[id])
    requires Firing(Reported(promoted, ready), cbs, now) && NoneDue(cbs, now)
    ensures cbs == Woken(was, ready, now)
  {
    hide Fired, Activated, HeapDue, Promoted, NoneDue;
    forall id | id in was
      ensures id in cbs && cbs[id] == Woken(was, ready, now)[id]
    {
      FiringEnd(Reported(promoted, ready), cbs, now, id);
    }
  }

  /** How many deferred callbacks wait for the next iteration. */
  ghost function Carried(cbs: Cbs): nat {
    |set id | id in cbs && cbs[id].later && cbs[id].attr.selfCb && !cbs[id].finalizing|
  }

  ghost function SelfSet(list: seq<nat>, cbs: Cbs): set<nat> {
    set id | id in list && id in cbs && IsSelf(cbs[id])
  }

  lemma {:induction false} SelfsCount(list: seq<nat>, cbs: Cbs)
    requires NoDup(list)
    ensures Selfs(list, cbs) == |SelfSet(list, cbs)|
  {
    hide IsSelf, SelfSet;
    if list == [] {
      assert SelfSet(list, cbs) == {} by {
        SelfSetNone(cbs);
      }
    } else {
      SelfsCount(list[1..], cbs);
      SelfSetNext(list, cbs);
    }
  }

  lemma SelfSetNone(cbs: Cbs)
    ensures SelfSet([], cbs) == {}
  {
  }

  lemma Rest(list: seq<nat>)
    requires list != [] && NoDup(list)
    ensures NoDup(list[1..]) && list[0] !in list[1..]
    ensures forall id :: id in list <==> id == list[0] || id in list[1..]
  {
    var rest := list[1..];
    assert forall i :: 0 <= i < |rest| ==> rest[i] == list[i + 1];
    assert list == [list[0]] + rest;
  }

  lemma SelfSetNext(list: seq<nat>, cbs: Cbs)
    requires list != [] && NoDup(list)
    ensures NoDup(list[1..])
    ensures |SelfSet(list, cbs)| == |SelfSet(list[1..], cbs)| + if list[0] in cbs && IsSelf(cbs[list[0]]) then 1 else 0
  {
    hide IsSelf, NoDup;
    Rest(list);
    var all, rest := SelfSet(list, cbs), SelfSet(list[1..], cbs);
    if list[0] in cbs && IsSelf(cbs[list[0]]) {
      assert all == rest + {list[0]};
    } else {
      assert all == rest;
    }
  }

  lemma CarriedSelfs(cbs: Cbs, active: seq<seq<nat>>, later: seq<nat>, heap: map<nat, nat>, queues: seq<seq<nat>>)
    requires QueuesOk(cbs, active, later, heap, queues)
    ensures Selfs(later, cbs) == Carried(cbs)
  {
    assert HoldsLater(later, cbs);
    SelfsCount(later, cbs);
    assert SelfSet(later, cbs) == set id | id in cbs && cbs[id].later && cbs[id].attr.selfCb && !cbs[id].finalizing;
  }

  lemma {:induction false} NoneQueued(active: seq<seq<nat>>, p: nat)
    requires TotalLen(active) == 0 && p < |active|
    ensures active[p] == []
  {
    if p > 0 {
      NoneQueued(active[1..], p - 1);
    }
  }

  lemma NoneActive(b: EventBase)
    requires b.Valid() && b.activeCount <= 0
    ensures Clear(b.cbs, b.nActive)
  {
    hide QueuesOk, FlagsOk, TimersBut, Memberships, TotalLen, Clear;
    forall p | 0 <= p < |b.active|
      ensures b.active[p] == []
    {
      NoneQueued(b.active, p);
    }
    ClearLower(b.cbs, b.active, b.later, b.heap, b.queues, b.nActive);
  }

  /** An iteration: the callbacks it found, those it ran in turn and the states they started
      in, what event_process_active returned, how many queues it has gone through, and the
      state it left. */
  datatype Lap = Lap(found: Cbs, ran: seq<nat>, starts: seq<Cbs>, c: int, passed: nat, left: Sim)

  /** The iteration did what it should: first every callback was woken as Woken says, and
      nothing due was left in the heap; then came a pass over the queues, in the order of
      priorities if every activation goes through event_active_nolock_. */
  ghost predicate Lapped(lap: Lap, it: Iteration, limits: Limits, timers: seq<nat>, nQueues: nat) {
    var woken := Woken(lap.found, it.ready, it.now);
    && NoneDue(woken, it.now)
    && PassOver(Sim(woken, Carried(lap.found), false), timers, it.script, it.now, limits, lap.ran, lap.starts, lap.c, lap.left)
    && (ScriptPolite(it.script, lap.found) && InternalsFirst(lap.found) ==> Ordered(lap.ran, lap.starts))
    && (it.script == [] && InternalsFirst(lap.found) ==>
          PassesAll(woken, limits, lap.ran, lap.c, lap.passed, nQueues, lap.left.cbs))
  }

  /** The first half of an iteration, before event_process_active. */
  method Wake(b: EventBase, ready: seq<nat>, now: nat)
    requires b.Valid() && b.running == -1
    requires forall i :: 0 <= i < |ready| ==> ready[i] in b.cbs && ready[i] !in b.timers && b.cbs[ready[i]].attr.isEvent
    modifies b`cbs, b`active, b`later, b`heap, b`queues, b`eventCount, b`activeCount, b`cont, b`nDeferreds
    ensures b.Valid() && |b.queues| == |old(b.queues)| && Static(old(b.cbs), b.cbs) && DeferOk(b.cbs, b.nDeferreds)
    ensures b.cbs == Woken(old(b.cbs), ready, now) && NoneDue(b.cbs, now)
    ensures b.nDeferreds == Carried(old(b.cbs)) && !b.cont
  {
    hide QueuesOk, FlagsOk, TimersBut, Memberships, TotalLen, Static, Selfs, DeferOk, Firing, NoneDue, Promoted, Reported, Woken, Carried;
    CarriedSelfs(b.cbs, b.active, b.later, b.heap, b.queues);
    b.cont, b.nDeferreds := false, 0;
    MakeLaterActive(b);
    ghost var c1 := b.cbs;
    StaticKeys(old(b.cbs), c1);
    ReadyStatic(ready, old(b.cbs), c1, b.timers);
    Report(b, ready);
    StaticTrans(old(b.cbs), c1, b.cbs);
    ghost var c2 := b.cbs;
    TimeoutProcess(b, now);
    FiringStatic(c2, b.cbs, now, b.nDeferreds);
    StaticTrans(old(b.cbs), c2, b.cbs);
    WokenIs(old(b.cbs), c1, ready, b.cbs, now);
  }

  /** One iteration of event_base_loop, up to the waiting itself.  Callbacks start in
      order of priority, and the deferred callbacks put on active queues, counting those
      carried over from the last iteration, are at most 33 or just those carried. */
  method Iterate(b: EventBase, limits: Limits, it: Iteration) returns (put: nat, ghost lap: Lap)
    requires b.Valid() && SamePeriods(b.cbs) && b.running == -1 && limits.maxcb >= 1
    requires Feasible(it, b.cbs, b.timers, |b.queues|)
    modifies b`cbs, b`active, b`later, b`heap, b`queues, b`eventCount, b`activeCount, b`cont, b`nDeferreds, b`running
    ensures b.Valid() && |b.queues| == |old(b.queues)| && b.running == -1 && Static(old(b.cbs), b.cbs)
    ensures lap.found == old(b.cbs) && lap.left == Sim(b.cbs, b.nDeferreds, b.cont) && Lapped(lap, it, limits, b.timers, b.nActive)
    ensures Carried(old(b.cbs)) + put == b.nDeferreds <= Bound(Carried(old(b.cbs)))
  {
    hide EventBase.Valid, ScriptFits, ScriptPolite, Static, InternalsFirst, DeferOk, NoneDue, Woken, Carried, SamePeriods, PassOver, Clear, Ordered;
    Wake(b, it.ready, it.now);
    ghost var woken, n := b.cbs, b.nDeferreds;
    ScriptStatic(it.script, old(b.cbs), woken, b.timers, |b.queues|);
    PeriodsKept(old(b.cbs), woken);
    var c, ran, passed := 0, [], b.nActive;
    ghost var starts := [];
    put := 0;
    if b.activeCount > 0 {
      c, ran, passed, put, starts := ProcessActive(b, limits, it.script, it.now);
      StaticTrans(old(b.cbs), woken, b.cbs);
    } else {
      ThroughNone(Sim(b.cbs, b.nDeferreds, b.cont), b.timers, it.script, it.now, limits);
      NoneActive(b);
    }
    lap := Lap(old(b.cbs), ran, starts, c, passed, Sim(b.cbs, b.nDeferreds, b.cont));
  }

  lemma ReadyStatic(ready: seq<nat>, was: Cbs, cbs: Cbs, timers: seq<nat>)
    requires Static(was, cbs)
    requires forall i :: 0 <= i < |ready| ==> ready[i] in was && ready[i] !in timers && was[ready[i]].attr.isEvent
    ensures forall i :: 0 <= i < |ready| ==> ready[i] in cbs && ready[i] !in timers && cbs[ready[i]].attr.isEvent
  {
  }

  ghost predicate AllFeasible(its: seq<Iteration>, cbs: Cbs, timers: seq<nat>, nQueues: nat) {
    forall i :: 0 <= i < |its| ==> Feasible(its[i], cbs, timers, nQueues)
  }

  ghost predicate AllPolite(its: seq<Iteration>, cbs: Cbs) {
    forall i :: 0 <= i < |its| ==> ScriptPolite(its[i].script, cbs)
  }

  lemma IterationAt(its: seq<Iteration>, was: Cbs, cbs: Cbs, timers: seq<nat>, nQueues: nat, i: nat)
    requires AllFeasible(its, was, timers, nQueues) && Static(was, cbs) && i < |its|
    ensures Feasible(its[i], cbs, timers, nQueues)
    ensures AllPolite(its, was) ==> ScriptPolite(its[i].script, cbs)
    ensures InternalsFirst(was) ==> InternalsFirst(cbs)
  {
    hide ScriptFits, ScriptPolite, InternalsFirst, Static;
    ScriptStatic(its[i].script, was, cbs, timers, nQueues);
    ReadyStatic(its[i].ready, was, cbs, timers);
  }

  /** The iterations of a run, each from the state the last one left. */
  ghost predicate AllLapped(laps: seq<Lap>, its: seq<Iteration>, limits: Limits, timers: seq<nat>, nQueues: nat,
                            first: Cbs, last: Cbs) {
    && |laps| <= |its|
    && (forall i :: 0 <= i < |laps| ==>
          Lapped(laps[i], its[i], limits, timers, nQueues) && laps[i].found == LeftBefore(laps, i, first))
    && last == LeftBefore(laps, |laps|, first)
  }

  /** The callbacks as iteration i finds them. */
  function LeftBefore(laps: seq<Lap>, i: nat, first: Cbs): Cbs
    requires i <= |laps|
  {
    if i == 0 then first else laps[i - 1].left.cbs
  }

  lemma LapsNext(laps: seq<Lap>, lap: Lap, its: seq<Iteration>, limits: Limits, timers: seq<nat>, nQueues: nat, first: Cbs)
    requires |laps| < |its|
    requires AllLapped(laps, its, limits, timers, nQueues, first, lap.found)
    requires Lapped(lap, its[|laps|], limits, timers, nQueues)
    ensures AllLapped(laps + [lap], its, limits, timers, nQueues, first, lap.left.cbs)
  {
    hide Lapped;
    var more := laps + [lap];
    forall i | 0 <= i < |more|
      ensures Lapped(more[i], its[i], limits, timers, nQueues) && more[i].found == LeftBefore(more, i, first)
    {
      assert LeftBefore(more, i, first) == LeftBefore(laps, i, first);
      if i < |laps| {
        assert more[i] == laps[i];
      }
    }
  }

  /** In an iteration whose callbacks do nothing, an event that came due in the heap runs, or
      it is still active on a queue that was not gone through. */
  lemma DueRuns(lap: Lap, it: Iteration, limits: Limits, timers: seq<nat>, nQueues: nat, id: nat)
    requires Lapped(lap, it, limits, timers, nQueues)
    requires it.script == [] && InternalsFirst(lap.found)
    requires id in lap.found && id !in timers && HeapDue(lap.found[id], it.now) && !lap.found[id].finalizing
    ensures id in lap.ran || (id in lap.left.cbs && lap.left.cbs[id].active && lap.passed <= lap.left.cbs[id].attr.pri)
  {
    hide Played, Begins, Scripted, CountUsers, InQueueOrder, OneQueue, EndsRight, Ordered, ScriptPolite, NoneDue, PassesAll, InternalsFirst;
    var woken := Woken(lap.found, it.ready, it.now);
    assert woken[id].active;
    assert Untouched(it.script, id);
    if id !in lap.ran {
      ClearAt(woken, limits, lap.ran, lap.c, lap.passed, nQueues, lap.left.cbs, id);
    }
  }

  lemma ClearAt(was: Cbs, limits: Limits, ran: seq<nat>, c: int, passed: nat, nQueues: nat, cbs: Cbs, id: nat)
    requires PassesAll(was, limits, ran, c, passed, nQueues, cbs) && id in cbs && cbs[id].active
    ensures passed <= cbs[id].attr.pri
  {
  }

  /** event_base_loop: every state it reaches is valid, and every iteration does what it
      should. */
  method Loop(b: EventBase, limits: Limits, its: seq<Iteration>) returns (ghost laps: seq<Lap>)
    requires b.Valid() && SamePeriods(b.cbs) && b.running == -1 && limits.maxcb >= 1
    requires AllFeasible(its, b.cbs, b.timers, |b.queues|)
    modifies b`cbs, b`active, b`later, b`heap, b`queues, b`eventCount, b`activeCount, b`cont, b`nDeferreds, b`running
    ensures b.Valid() && b.running == -1 && Static(old(b.cbs), b.cbs)
    ensures |laps| == |its| && AllLapped(laps, its, limits, b.timers, b.nActive, old(b.cbs), b.cbs)
    ensures AllPolite(its, old(b.cbs)) && InternalsFirst(old(b.cbs)) ==> AllOrdered(laps)
  {
    hide EventBase.Valid, AllFeasible, AllPolite, Feasible, ScriptPolite, Static, InternalsFirst, Carried, SamePeriods, Lapped, Ordered;
    laps := [];
    StaticSame(b.cbs, b.timers);
    var i := 0;
    while i < |its|
      invariant i <= |its| && b.Valid() && b.running == -1 && |b.queues| == |old(b.queues)| && Static(old(b.cbs), b.cbs)
      invariant |laps| == i && AllLapped(laps, its, limits, b.timers, b.nActive, old(b.cbs), b.cbs)
      invariant AllPolite(its, old(b.cbs)) && InternalsFirst(old(b.cbs)) ==> AllOrdered(laps)
    {
      ghost var cbs := b.cbs;
      IterationAt(its, old(b.cbs), cbs, b.timers, |b.queues|, i);
      PeriodsKept(old(b.cbs), cbs);
      var put;
      ghost var lap;
      put, lap := Iterate(b, limits, its[i]);
      StaticTrans(old(b.cbs), cbs, b.cbs);
      LapsNext(laps, lap, its, limits, b.timers, b.nActive, old(b.cbs));
      LapOrdered(lap, its[i], limits, b.timers, b.nActive);
      laps := laps + [lap];
      i := i + 1;
    }
  }

  ghost predicate AllOrdered(laps: seq<Lap>) {
    forall i :: 0 <= i < |laps| ==> Ordered(laps[i].ran, laps[i].starts)
  }

  lemma LapOrdered(lap: Lap, it: Iteration, limits: Limits, timers: seq<nat>, nQueues: nat)
    requires Lapped(lap, it, limits, timers, nQueues)
    ensures ScriptPolite(it.script, lap.found) && InternalsFirst(lap.found) ==> Ordered(lap.ran, lap.starts)
  {
    hide PassOver, PassesAll, NoneDue, Woken;
  }

  /** The same from event_base_new on. */
  method LoopFromNew(callbacks: Cbs, internals: seq<nat>, nPriorities: nat, limits: Limits, its: seq<Iteration>)
    returns (b: EventBase, ghost laps: seq<Lap>)
    requires forall id :: id in callbacks ==> Idle(callbacks[id], nPriorities)
    requires NoDup(internals) && forall t :: t in internals ==> t in callbacks && TimerShape(callbacks[t])
    requires limits.maxcb >= 1 && AllFeasible(its, callbacks, internals, |internals|)
    ensures fresh(b) && b.Valid() && SamePeriods(b.cbs)
    ensures |laps| == |its| && AllLapped(laps, its, limits, internals, nPriorities, callbacks, b.cbs)
    ensures AllPolite(its, callbacks) && InternalsFirst(callbacks) ==> AllOrdered(laps)
  {
    hide EventBase.Valid, AllFeasible, AllPolite, InternalsFirst, AllLapped;
    IdlePeriods(callbacks, nPriorities);
    b := new EventBase(callbacks, internals, nPriorities);
    laps := Loop(b, limits, its);
    PeriodsKept(callbacks, b.cbs);
  }

  /** A timeout of 5 is added at time 0, and an iteration comes at time 10: the event runs, once,
      and no longer waits. */
  method TimerRuns() returns (pending: bool, ghost ran: seq<nat>)
    ensures !pending && ran == [0]
  {
    hide EventBase.Valid, Static, Lapped, Carried;
    var event := Cb(Attr(true, false, false, false, false, 0), false, false, false, false, false, 0, -1, 0, -1, false);
    var b := new EventBase(map[0 := event], [], 1);
    var res := Add(b, 0, Rel(5, -1), 0, false);
    var it := Iteration([], 10, []);
    var put;
    ghost var lap;
    put, lap := Iterate(b, Limits(1, false, 0), it);
    RanOnce(lap, it);
    pending, ran := b.cbs[0].timeout || b.cbs[0].active, lap.ran;
  }

  predicate Plain(c: Cb) {
    c.attr.isEvent && !c.attr.internal && !c.attr.persist && !c.finalizing && !c.later && c.attr.pri == 0
  }

  lemma WokenPlain(found: Cbs, now: nat)
    requires found.Keys == {0} && Plain(found[0]) && HeapDue(found[0], now)
    ensures var woken := Woken(found, [], now); woken.Keys == {0} && Plain(woken[0]) && woken[0].active
    ensures InternalsFirst(found)
  {
  }

  lemma PlayedPlain(s: Sim, now: nat)
    requires 0 in s.cbs && Plain(s.cbs[0])
    ensures var t := Played(s, [], [0], [], 0, now).cbs; t.Keys == s.cbs.Keys && !t[0].active && !t[0].timeout
  {
    var ran: seq<nat> := [0];
    assert ran[..0] == [];
    assert Played(s, [], ran[..0], [], 0, now) == s;
  }

  lemma RanOnce(lap: Lap, it: Iteration)
    requires it.ready == [] && it.script == []
    requires lap.found.Keys == {0} && Plain(lap.found[0]) && HeapDue(lap.found[0], it.now)
    requires Lapped(lap, it, Limits(1, false, 0), [], 1)
    ensures lap.ran == [0] && var left := lap.left.cbs; left.Keys == {0} && !left[0].timeout && !left[0].active
  {
    hide Woken, NoneDue, Played, PassesAll, CountUsers, Scripted, OneQueue, InternalsFirst, Plain, HeapDue, EndsRight, Ordered, ScriptPolite;
    hide Served, Carried, Unbroken;
    ghost var s := Sim(Woken(lap.found, it.ready, it.now), Carried(lap.found), false);
    WokenPlain(lap.found, it.now);
    PlayedPlain(s, it.now);
    PlainRuns(lap, it);
    assert lap.ran[0] in lap.ran && lap.ran[..1] == [0];
  }

  lemma PlainRuns(lap: Lap, it: Iteration)
    requires it.ready == [] && it.script == []
    requires lap.found.Keys == {0} && Plain(lap.found[0]) && HeapDue(lap.found[0], it.now)
    requires Lapped(lap, it, Limits(1, false, 0), [], 1)
    ensures lap.ran != []
  {
    hide Woken, NoneDue, InternalsFirst, HeapDue, Begins, Served, OneQueue, EndsRight, Ordered, ScriptPolite;
    WokenPlain(lap.found, it.now);
  }

  // ------------------------------------------------------------ deferred callbacks end

  ghost function ActiveSet(cbs: Cbs): set<nat> {
    set id | id in cbs && cbs[id].active
  }

  /** How many more deferred callbacks may be put on active queues in this iteration. */
  function Room(n: nat): nat {
    if n > MAX_DEFERREDS_QUEUED then 0 else MAX_DEFERREDS_QUEUED + 1 - n
  }

  ghost function Work(cbs: Cbs, n: nat): nat {
    |ActiveSet(cbs)| + Room(n)
  }

  predicate Bare(id: nat, cbs: Cbs, timers: seq<nat>) {
    id in cbs && id !in timers && !cbs[id].attr.isEvent && cbs[id].attr.selfCb
  }

  lemma ScheduleWork(cbs: Cbs, n: nat, id: nat)
    requires id in cbs && !cbs[id].attr.isEvent && DeferOk(cbs, n)
    ensures var op := OpDeferred(id);
      var cbs' := cbs[id := Effect(op, cbs[id], n)];
      var n' := n + Counted(op, cbs[id], n);
      Work(cbs', n') <= Work(cbs, n) && DeferOk(cbs', n') && Static(cbs, cbs')
  {
    hide ActiveSet;
    var op := OpDeferred(id);
    EffectDefer(op, cbs[id], n);
    ActivePut(cbs, id, Effect(op, cbs[id], n));
  }

  lemma ActivePut(cbs: Cbs, id: nat, d: Cb)
    requires id in cbs
    ensures |ActiveSet(cbs[id := d])| == |ActiveSet(cbs)| - (if cbs[id].active then 1 else 0) + (if d.active then 1 else 0)
  {
    var a, b := ActiveSet(cbs), ActiveSet(cbs[id := d]);
    assert a - {id} == b - {id};
    assert (id in a <==> cbs[id].active) && (id in b <==> d.active);
    Others(a, id);
    Others(b, id);
  }

  lemma Others(a: set<nat>, id: nat)
    ensures |a| == |a - {id}| + if id in a then 1 else 0
  {
    if id in a {
      assert a == (a - {id}) + {id};
    } else {
      assert a == a - {id};
    }
  }

  /** Queues only grew, at their ends. */
  ghost predicate Longer(was: seq<seq<nat>>, active: seq<seq<nat>>) {
    |was| == |active| && forall p :: 0 <= p < |was| ==> was[p] <= active[p]
  }

  lemma LongerSame(active: seq<seq<nat>>)
    ensures Longer(active, active)
  {
  }

  lemma LongerThen(was: seq<seq<nat>>, active: seq<seq<nat>>, active': seq<seq<nat>>, c: Cb, id: nat)
    requires Longer(was, active) && (active' == active || Enqueued(c, id, active, active'))
    ensures Longer(was, active')
  {
  }

  /** The calls that schedule these callbacks. */
  function Deferrals(ids: seq<nat>): (ops: seq<Op>)
    ensures |ops| == |ids| && forall i :: 0 <= i < |ids| ==> ops[i] == OpDeferred(ids[i])
  {
    seq(|ids|, i requires 0 <= i < |ids| => OpDeferred(ids[i]))
  }

  /** The callbacks of ran in turn, the k-th of them scheduling those of react(k). */
  function Drained(s: Sim, ran: seq<nat>, react: nat -> seq<nat>): Sim {
    if ran == [] then s
    else
      var k := |ran| - 1;
      var t := Drained(s, ran[..k], react);
      if ran[k] in t.cbs then AllMade(t.(cbs := t.cbs[ran[k] := Begun(t.cbs[ran[k]])]), Deferrals(react(k)), 0) else t
  }

  lemma NoneDrained(s: Sim, react: nat -> seq<nat>)
    ensures Drained(s, [], react) == s
  {
  }

  lemma DrainedNext(s: Sim, ran: seq<nat>, id: nat, react: nat -> seq<nat>, t: Sim)
    requires t == Drained(s, ran, react) && id in t.cbs
    ensures Drained(s, ran + [id], react) == AllMade(t.(cbs := t.cbs[id := Begun(t.cbs[id])]), Deferrals(react(|ran|)), 0)
  {
    hide AllMade, Begun, Deferrals;
    assert (ran + [id])[..|ran|] == ran;
  }

  lemma NoneMade(s: Sim)
    ensures AllMade(s, [], 0) == s
  {
  }

  lemma DeferralsNext(s: Sim, ids: seq<nat>, i: nat)
    requires i < |ids|
    ensures AllMade(s, Deferrals(ids)[..i + 1], 0) == Made(AllMade(s, Deferrals(ids)[..i], 0), OpDeferred(ids[i]), 0)
  {
    hide Made;
    var ops := Deferrals(ids);
    assert ops[..i + 1][..i] == ops[..i];
  }

  lemma DeferredMade(s: Sim, id: nat)
    requires id in s.cbs
    ensures var op := OpDeferred(id);
      Made(s, op, 0) == Sim(s.cbs[id := Effect(op, s.cbs[id], s.n)], s.n + Counted(op, s.cbs[id], s.n), s.cont)
  {
    hide Effect, Counted;
  }

  method ScheduleAll(b: EventBase, ids: seq<nat>)
    requires b.Valid() && DeferOk(b.cbs, b.nDeferreds)
    requires forall i :: 0 <= i < |ids| ==> Bare(ids[i], b.cbs, b.timers)
    modifies b`cbs, b`active, b`later, b`eventCount, b`activeCount, b`nDeferreds
    ensures b.Valid() && DeferOk(b.cbs, b.nDeferreds) && Static(old(b.cbs), b.cbs)
    ensures Work(b.cbs, b.nDeferreds) <= Work(old(b.cbs), old(b.nDeferreds))
    ensures Longer(old(b.active), b.active)
    ensures Sim(b.cbs, b.nDeferreds, false) == AllMade(Sim(old(b.cbs), old(b.nDeferreds), false), Deferrals(ids), 0)
  {
    hide EventBase.Valid, DeferOk, Static, Work, Effect, Counted, Enqueued, Longer, AllMade, Deferrals, Made;
    ghost var s := Sim(b.cbs, b.nDeferreds, false);
    assert AllMade(s, Deferrals(ids)[..0], 0) == s by {
      NoneMade(s);
    }
    StaticSame(b.cbs, b.timers);
    LongerSame(b.active);
    var i := 0;
    while i < |ids|
      invariant i <= |ids| && b.Valid() && DeferOk(b.cbs, b.nDeferreds) && Static(old(b.cbs), b.cbs)
      invariant Work(b.cbs, b.nDeferreds) <= Work(old(b.cbs), old(b.nDeferreds))
      invariant Longer(old(b.active), b.active)
      invariant Sim(b.cbs, b.nDeferreds, false) == AllMade(s, Deferrals(ids)[..i], 0)
    {
      DeferralsNext(s, ids, i);
      ghost var cbs, active := b.cbs, b.active;
      BareStatic(ids[i], old(b.cbs), cbs, b.timers);
      DeferredMade(Sim(cbs, b.nDeferreds, false), ids[i]);
      ScheduleWork(cbs, b.nDeferreds, ids[i]);
      ScheduleDeferred(b, ids[i]);
      LongerThen(old(b.active), active, b.active, cbs[ids[i]], ids[i]);
      StaticTrans(old(b.cbs), cbs, b.cbs);
      i := i + 1;
    }
    assert Deferrals(ids)[..i] == Deferrals(ids);
  }

  lemma BareStatic(id: nat, was: Cbs, cbs: Cbs, timers: seq<nat>)
    requires Static(was, cbs) && Bare(id, was, timers)
    ensures Bare(id, cbs, timers)
  {
  }

  lemma BeginWork(cbs: Cbs, n: nat, id: nat)
    requires id in cbs && !cbs[id].attr.isEvent && cbs[id].active
    ensures var cbs' := cbs[id := Begun(cbs[id])];
      Work(cbs', n) == Work(cbs, n) - 1 && Static(cbs, cbs') && (DeferOk(cbs, n) ==> DeferOk(cbs', n))
  {
    hide ActiveSet;
    ActivePut(cbs, id, Begun(cbs[id]));
  }

  /** event_process_active_single_queue over deferred callbacks that reschedule
      themselves and each other without end, react(k) being what the k-th schedules:
      the pass ends, after at most 33 callbacks more than were active, and those that were
      waiting in the queue run first, in their order. */
  method DrainDeferred(b: EventBase, p: nat, react: nat -> seq<nat>) returns (ran: seq<nat>)
    requires b.Valid() && p < |b.active| && DeferOk(b.cbs, b.nDeferreds)
    requires forall id :: id in b.cbs && b.cbs[id].attr.pri == p ==> !b.cbs[id].attr.isEvent
    requires forall k, i :: 0 <= k && 0 <= i < |react(k)| ==> Bare(react(k)[i], b.cbs, b.timers)
    modifies b`cbs, b`active, b`later, b`heap, b`queues, b`eventCount, b`activeCount, b`nDeferreds
    ensures b.Valid() && p < |b.active| && b.active[p] == []
    ensures |ran| <= |ActiveSet(old(b.cbs))| + MAX_DEFERREDS_QUEUED + 1
    ensures old(b.active)[p] <= ran
    ensures Sim(b.cbs, b.nDeferreds, false) == Drained(Sim(old(b.cbs), old(b.nDeferreds), false), ran, react)
  {
    hide QueuesOk, FlagsOk, TimersBut, TotalLen, Memberships, DeferOk, Static, Work, Begun, Without, Drained, AllMade, Deferrals;
    ghost var s := Sim(b.cbs, b.nDeferreds, false);
    NoneDrained(s, react);
    StaticSame(b.cbs, b.timers);
    WorkBound(b.cbs, b.nDeferreds);
    ran := [];
    while b.active[p] != []
      invariant b.Valid() && p < |b.active| && DeferOk(b.cbs, b.nDeferreds) && Static(old(b.cbs), b.cbs)
      invariant |ran| + Work(b.cbs, b.nDeferreds) <= Work(old(b.cbs), old(b.nDeferreds))
      invariant old(b.active)[p] <= ran + b.active[p]
      invariant Sim(b.cbs, b.nDeferreds, false) == Drained(s, ran, react)
      decreases Work(b.cbs, b.nDeferreds)
    {
      var id := b.active[p][0];
      ghost var c1, q := b.cbs, b.active[p];
      HeadActive(b.cbs, b.active, b.later, b.heap, b.queues, p);
      BareAt(old(b.cbs), c1, b.timers, b.queues, p, id);
      BeginWork(c1, b.nDeferreds, id);
      DrainedNext(s, ran, id, react, Sim(c1, b.nDeferreds, false));
      Begin(b, id);
      HeadGone(q);
      StaticTrans(old(b.cbs), c1, b.cbs);
      ghost var c2 := b.cbs;
      forall i | 0 <= i < |react(|ran|)|
        ensures Bare(react(|ran|)[i], c2, b.timers)
      {
        BareStatic(react(|ran|)[i], old(b.cbs), c2, b.timers);
      }
      ScheduleAll(b, react(|ran|));
      StaticTrans(old(b.cbs), c2, b.cbs);
      QueueMoves(old(b.active)[p], ran, q, b.active[p]);
      ran := ran + [id];
    }
    assert ran + [] == ran;
  }

  lemma HeadGone(q: seq<nat>)
    requires q != []
    ensures Without(q, q[0]) == q[1..]
  {
  }

  lemma QueueMoves(first: seq<nat>, ran: seq<nat>, q: seq<nat>, q': seq<nat>)
    requires q != [] && first <= ran + q && q[1..] <= q'
    ensures first <= ran + [q[0]] + q'
  {
    assert ran + q == ran + [q[0]] + q[1..];
    assert ran + [q[0]] + q[1..] <= ran + [q[0]] + q';
  }

  lemma WorkBound(cbs: Cbs, n: nat)
    ensures Work(cbs, n) <= |ActiveSet(cbs)| + MAX_DEFERREDS_QUEUED + 1
  {
  }

  lemma BareAt(was: Cbs, cbs: Cbs, timers: seq<nat>, queues: seq<seq<nat>>, p: nat, id: nat)
    requires forall x :: x in was && was[x].attr.pri == p ==> !was[x].attr.isEvent
    requires Static(was, cbs) && TimersOk(cbs, timers, queues) && id in cbs && cbs[id].attr.pri == p
    ensures !cbs[id].attr.isEvent && id !in timers
  {
    TimersShape(cbs, timers, queues);
    assert id in was;
  }
}
