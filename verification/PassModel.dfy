/**
  What a pass over the active queues should do, given which callbacks run in turn: the state
  of every callback of the user afterwards, and when the pass over a queue ends.
 */
module PassModels {
  import opened Bytes
  import opened EventQueues
  import opened EventBases
  import opened Timeouts
  import opened TimeoutPasses
  import opened EventOps
  import opened EventLoops

  /** What happens during the i-th callback; callbacks after the script do nothing. */
  function Scripted(script: seq<Turn>, i: nat, now: nat): Turn {
    if i < |script| then script[i] else Turn(now, false, [], false, false, false)
  }

  // ------------------------------------------------------------ one callback after another

  /** The internal timer id is that of the common timeout that c waits on, and c is due. */
  predicate DueOn(c: Cb, timers: seq<nat>, id: nat, now: nat) {
    c.timeout && 0 <= c.common < |timers| && timers[c.common] == id && c.at <= now
  }

  /** The callbacks once an internal timer has run: the due events of its queue fired. */
  function FiredBy(cbs: Cbs, timers: seq<nat>, id: nat, now: nat): Cbs {
    map x | x in cbs :: if x !in timers && DueOn(cbs[x], timers, id, now) then Fired(cbs[x]) else cbs[x]
  }

  /** One callback, of the user or of an internal timer. */
  function PlayOne(s: Sim, timers: seq<nat>, id: nat, turn: Turn): Sim {
    if id !in s.cbs then s
    else if id in timers then s.(cbs := FiredBy(s.cbs, timers, id, turn.now))
    else TurnOf(s, id, turn, s.cbs[id].attr.pri)
  }

  /** The callbacks of ran in turn, the first of them with turn from of the script. */
  function Played(s: Sim, timers: seq<nat>, ran: seq<nat>, script: seq<Turn>, from: nat, now: nat): Sim {
    if ran == [] then s
    else
      var k := |ran| - 1;
      PlayOne(Played(s, timers, ran[..k], script, from, now), timers, ran[k], Scripted(script, from + k, now))
  }

  ghost predicate NamesUsers(ops: seq<Op>, timers: seq<nat>) {
    forall i :: 0 <= i < |ops| ==> ops[i].id !in timers
  }

  ghost predicate ScriptUsers(script: seq<Turn>, timers: seq<nat>) {
    forall i :: 0 <= i < |script| ==> NamesUsers(script[i].ops, timers)
  }

  lemma ScriptedUsers(script: seq<Turn>, timers: seq<nat>, i: nat, now: nat)
    requires ScriptUsers(script, timers)
    ensures NamesUsers(Scripted(script, i, now).ops, timers)
  {
  }

  lemma AgreeFired(s: Sim, t: Sim, timers: seq<nat>, id: nat, now: nat)
    requires Agree(s, t.cbs, timers, t.n, t.cont)
    ensures Agree(s.(cbs := FiredBy(s.cbs, timers, id, now)), FiredBy(t.cbs, timers, id, now), timers, t.n, t.cont)
  {
    hide Fired, DueOn;
  }

  /** From states that agree a callback leads to states that agree. */
  lemma PlayOneAgree(s: Sim, t: Sim, timers: seq<nat>, id: nat, turn: Turn)
    requires Agree(s, t.cbs, timers, t.n, t.cont) && NamesUsers(turn.ops, timers)
    ensures var u := PlayOne(t, timers, id, turn); Agree(PlayOne(s, timers, id, turn), u.cbs, timers, u.n, u.cont)
  {
    hide AllMade, Resumed, FiredBy;
    if id in s.cbs {
      if id in timers {
        AgreeFired(s, t, timers, id, turn.now);
      } else {
        var d := Resumed(s.cbs[id], turn.now, turn.ioFails);
        MadeAgree(s.(cbs := s.cbs[id := d]), t.(cbs := t.cbs[id := d]), timers, turn.ops, s.cbs[id].attr.pri);
      }
    }
  }

  lemma PlayedStep(s: Sim, timers: seq<nat>, ran: seq<nat>, id: nat, script: seq<Turn>, from: nat, now: nat,
                   cbs: Cbs, n: nat, cont: bool, cbs': Cbs, n': nat, cont': bool)
    requires ScriptUsers(script, timers)
    requires Agree(Played(s, timers, ran, script, from, now), cbs, timers, n, cont)
    requires Agree(PlayOne(Sim(cbs, n, cont), timers, id, Scripted(script, from + |ran|, now)), cbs', timers, n', cont')
    ensures Agree(Played(s, timers, ran + [id], script, from, now), cbs', timers, n', cont')
  {
    hide PlayOne, Agree, Scripted, ScriptUsers, NamesUsers;
    var turn := Scripted(script, from + |ran|, now);
    ScriptedUsers(script, timers, from + |ran|, now);
    assert (ran + [id])[..|ran|] == ran;
    PlayOneAgree(Played(s, timers, ran, script, from, now), Sim(cbs, n, cont), timers, id, turn);
    AgreeTrans(Played(s, timers, ran + [id], script, from, now), PlayOne(Sim(cbs, n, cont), timers, id, turn), cbs',
               timers, n', cont');
  }

  lemma {:induction false} PlayedConcat(s: Sim, t: Sim, timers: seq<nat>, ran: seq<nat>, more: seq<nat>,
                                        script: seq<Turn>, from: nat, now: nat)
    requires ScriptUsers(script, timers) && Agree(Played(s, timers, ran, script, from, now), t.cbs, timers, t.n, t.cont)
    ensures var u := Played(t, timers, more, script, from + |ran|, now);
      Agree(Played(s, timers, ran + more, script, from, now), u.cbs, timers, u.n, u.cont)
    decreases |more|
  {
    hide PlayOne, Agree, Scripted, ScriptUsers, NamesUsers;
    if more == [] {
      assert ran + more == ran;
    } else {
      var k := |more| - 1;
      PlayedConcat(s, t, timers, ran, more[..k], script, from, now);
      assert (ran + more)[..|ran| + k] == ran + more[..k];
      ScriptedUsers(script, timers, from + |ran| + k, now);
      PlayOneAgree(Played(s, timers, ran + more[..k], script, from, now), Played(t, timers, more[..k], script, from + |ran|, now),
                   timers, more[k], Scripted(script, from + |ran| + k, now));
    }
  }

  // ------------------------------------------------------------ how callbacks start

  /** starts are the states in which the callbacks of ran start, each of them active; for the
      callbacks of the user they are what the callbacks before make of s. */
  ghost predicate Begins(s: Sim, timers: seq<nat>, ran: seq<nat>, script: seq<Turn>, from: nat, now: nat, starts: seq<Cbs>) {
    && |starts| == |ran|
    && (forall k :: 0 <= k < |ran| ==>
          SameUsers(Played(s, timers, ran[..k], script, from, now).cbs, starts[k], timers) && StartsActive(starts[k], ran[k]))
  }

  predicate StartsActive(cbs: Cbs, id: nat) {
    id in cbs && cbs[id].active
  }

  /** Every callback starts when no callback of smaller priority number is active. */
  ghost predicate Ordered(ran: seq<nat>, starts: seq<Cbs>) {
    |starts| == |ran| && forall k :: 0 <= k < |ran| ==> StartsInOrder(starts[k], ran[k])
  }

  ghost predicate StartsInOrder(cbs: Cbs, id: nat) {
    id in cbs && Clear(cbs, cbs[id].attr.pri)
  }

  lemma OrderedStep(ran: seq<nat>, starts: seq<Cbs>, id: nat, cbs: Cbs)
    requires Ordered(ran, starts) && StartsInOrder(cbs, id)
    ensures Ordered(ran + [id], starts + [cbs])
  {
    hide StartsInOrder;
  }

  lemma OrderedConcat(ran: seq<nat>, starts: seq<Cbs>, more: seq<nat>, starts': seq<Cbs>)
    requires Ordered(ran, starts) && Ordered(more, starts')
    ensures Ordered(ran + more, starts + starts')
  {
    hide StartsInOrder;
  }

  lemma BeginsStep(s: Sim, timers: seq<nat>, ran: seq<nat>, id: nat, script: seq<Turn>, from: nat, now: nat,
                   starts: seq<Cbs>, mid: Sim)
    requires Begins(s, timers, ran, script, from, now, starts) && StartsActive(mid.cbs, id)
    requires Agree(Played(s, timers, ran, script, from, now), mid.cbs, timers, mid.n, mid.cont)
    ensures Begins(s, timers, ran + [id], script, from, now, starts + [mid.cbs])
  {
    hide Played, SameUsers, StartsActive;
    var more, ends := ran + [id], starts + [mid.cbs];
    forall k | 0 <= k < |more|
      ensures SameUsers(Played(s, timers, more[..k], script, from, now).cbs, ends[k], timers) && StartsActive(ends[k], more[k])
    {
      assert more[..k] == ran[..k];
      assert k == |ran| ==> ran[..k] == ran;
    }
  }

  lemma BeginsConcat(s: Sim, t: Sim, timers: seq<nat>, ran: seq<nat>, more: seq<nat>, script: seq<Turn>, from: nat, now: nat,
                     starts: seq<Cbs>, starts': seq<Cbs>)
    requires ScriptUsers(script, timers) && Agree(Played(s, timers, ran, script, from, now), t.cbs, timers, t.n, t.cont)
    requires Begins(s, timers, ran, script, from, now, starts) && Begins(t, timers, more, script, from + |ran|, now, starts')
    ensures Begins(s, timers, ran + more, script, from, now, starts + starts')
  {
    hide Played, SameUsers, StartsActive, ScriptUsers;
    var all, ends := ran + more, starts + starts';
    forall k | 0 <= k < |all|
      ensures SameUsers(Played(s, timers, all[..k], script, from, now).cbs, ends[k], timers) && StartsActive(ends[k], all[k])
    {
      if k < |ran| {
        assert all[..k] == ran[..k];
      } else {
        var j := k - |ran|;
        assert all[..k] == ran + more[..j] && all[k] == more[j] && ends[k] == starts'[j];
        PlayedConcat(s, t, timers, ran, more[..j], script, from, now);
        SameTrans(Played(s, timers, all[..k], script, from, now).cbs, Played(t, timers, more[..j], script,
                  from + |ran|, now).cbs, ends[k], timers);
      }
    }
  }

  lemma SameTrans(a: Cbs, b: Cbs, c: Cbs, timers: seq<nat>)
    requires SameUsers(a, b, timers) && SameUsers(b, c, timers)
    ensures SameUsers(a, c, timers)
  {
  }

  // ------------------------------------------------------------ nobody is forgotten

  /** No call of the script names id. */
  ghost predicate Unnamed(ops: seq<Op>, id: nat) {
    forall i :: 0 <= i < |ops| ==> ops[i].id != id
  }

  ghost predicate Untouched(script: seq<Turn>, id: nat) {
    forall i :: 0 <= i < |script| ==> Unnamed(script[i].ops, id)
  }

  /** The callbacks of the user that were active have run or still are, unless a call
      interfered. */
  ghost predicate Served(was: Cbs, timers: seq<nat>, script: seq<Turn>, ran: seq<nat>, cbs: Cbs) {
    && was.Keys == cbs.Keys
    && (forall id :: id in was && id !in timers && was[id].active && Untouched(script, id) ==> id in ran || cbs[id].active)
  }

  lemma {:induction false} MadeKeeps(s: Sim, ops: seq<Op>, p: int, id: nat)
    requires Unnamed(ops, id)
    ensures AllMade(s, ops, p).cbs.Keys == s.cbs.Keys
    ensures id in s.cbs ==> AllMade(s, ops, p).cbs[id] == s.cbs[id]
    decreases |ops|
  {
    if ops != [] {
      hide Effect, Counted, SetsCont;
      MadeKeeps(s, ops[..|ops| - 1], p, id);
    }
  }

  lemma FiredActive(c: Cb)
    ensures c.active ==> Fired(c).active
  {
  }

  lemma PlayOneKeeps(s: Sim, timers: seq<nat>, id: nat, turn: Turn, x: nat)
    requires x in s.cbs && x != id && s.cbs[x].active && Unnamed(turn.ops, x)
    ensures var t := PlayOne(s, timers, id, turn); x in t.cbs && t.cbs[x].active
  {
    hide AllMade, Resumed, Fired, DueOn;
    if id in s.cbs {
      if id in timers {
        FiredActive(s.cbs[x]);
      } else {
        MadeKeeps(s.(cbs := s.cbs[id := Resumed(s.cbs[id], turn.now, turn.ioFails)]), turn.ops, s.cbs[id].attr.pri, x);
      }
    }
  }

  lemma ServedSelf(cbs: Cbs, timers: seq<nat>, script: seq<Turn>)
    ensures Served(cbs, timers, script, [], cbs)
  {
  }

  lemma ServedStep(was: Cbs, timers: seq<nat>, script: seq<Turn>, i: nat, now: nat, ran: seq<nat>, id: nat, cbs: Cbs,
                   n: nat, cont: bool, cbs': Cbs, n': nat, cont': bool)
    requires Served(was, timers, script, ran, cbs) && cbs.Keys == cbs'.Keys
    requires Agree(PlayOne(Sim(cbs, n, cont), timers, id, Scripted(script, i, now)), cbs', timers, n', cont')
    ensures Served(was, timers, script, ran + [id], cbs')
  {
    hide PlayOne, Untouched;
    forall x | x in was && x !in timers && was[x].active && Untouched(script, x)
      ensures x in ran + [id] || cbs'[x].active
    {
      if x !in ran && x != id {
        UnnamedAt(script, i, now, x);
        PlayOneKeeps(Sim(cbs, n, cont), timers, id, Scripted(script, i, now), x);
      }
    }
  }

  lemma UnnamedAt(script: seq<Turn>, i: nat, now: nat, id: nat)
    requires Untouched(script, id)
    ensures Unnamed(Scripted(script, i, now).ops, id)
  {
  }

  lemma ServedTrans(was: Cbs, mid: Cbs, cbs: Cbs, timers: seq<nat>, script: seq<Turn>, ran: seq<nat>, more: seq<nat>)
    requires Served(was, timers, script, ran, mid) && Served(mid, timers, script, more, cbs)
    ensures Served(was, timers, script, ran + more, cbs)
  {
    hide Untouched;
  }

  // ------------------------------------------------------------ when a queue is done

  /** How many callbacks of ran are not internal. */
  function CountUsers(ran: seq<nat>, cbs: Cbs): nat {
    if ran == [] then 0
    else
      var id := ran[|ran| - 1];
      CountUsers(ran[..|ran| - 1], cbs) + if id in cbs && !cbs[id].attr.internal then 1 else 0
  }

  lemma CountStep(ran: seq<nat>, id: nat, cbs: Cbs)
    ensures CountUsers(ran + [id], cbs) == CountUsers(ran, cbs) + if id in cbs && !cbs[id].attr.internal then 1 else 0
  {
    assert (ran + [id])[..|ran|] == ran;
  }

  /** After the callbacks of ran the pass over a queue goes on: nobody broke the loop, the
      limits on callbacks and on time are not reached, and nobody asked to continue. */
  ghost predicate GoesOn(s: Sim, timers: seq<nat>, ran: seq<nat>, script: seq<Turn>, from: nat, now: nat, max: nat, timed: bool) {
    ran != [] ==>
      var turn, count := Scripted(script, from + |ran| - 1, now), CountUsers(ran, s.cbs);
      && !turn.brk && count < max && !(count > 0 && timed && turn.late)
      && !Played(s, timers, ran, script, from, now).cont
  }

  /** The pass over a queue goes on as long as it should, and no longer. */
  ghost predicate StopsRight(s: Sim, timers: seq<nat>, ran: seq<nat>, script: seq<Turn>, from: nat, now: nat,
                             max: nat, timed: bool, empty: bool) {
    && (forall k :: 0 <= k < |ran| ==> GoesOn(s, timers, ran[..k], script, from, now, max, timed))
    && (!empty ==> ran != [] && !GoesOn(s, timers, ran, script, from, now, max, timed))
  }

  /** ran so far, and the pass goes on. */
  ghost predicate SoFar(s: Sim, timers: seq<nat>, ran: seq<nat>, script: seq<Turn>, from: nat, now: nat, max: nat, timed: bool) {
    forall k :: 0 <= k <= |ran| ==> GoesOn(s, timers, ran[..k], script, from, now, max, timed)
  }

  lemma SoFarNone(s: Sim, timers: seq<nat>, script: seq<Turn>, from: nat, now: nat, max: nat, timed: bool)
    ensures SoFar(s, timers, [], script, from, now, max, timed)
  {
  }

  lemma SoFarNext(s: Sim, timers: seq<nat>, ran: seq<nat>, id: nat, script: seq<Turn>, from: nat, now: nat, max: nat, timed: bool)
    requires SoFar(s, timers, ran, script, from, now, max, timed)
    ensures GoesOn(s, timers, ran + [id], script, from, now, max, timed) ==>
      SoFar(s, timers, ran + [id], script, from, now, max, timed)
    ensures forall empty: bool :: empty || !GoesOn(s, timers, ran + [id], script, from, now, max, timed) ==>
      StopsRight(s, timers, ran + [id], script, from, now, max, timed, empty)
  {
    hide GoesOn;
    var more := ran + [id];
    forall k | 0 <= k <= |ran|
      ensures more[..k] == ran[..k]
    {
    }
    assert more[..|more|] == more;
    assert forall k :: 0 <= k <= |ran| ==> GoesOn(s, timers, ran[..k], script, from, now, max, timed);
  }

  lemma SoFarDone(s: Sim, timers: seq<nat>, ran: seq<nat>, script: seq<Turn>, from: nat, now: nat, max: nat, timed: bool)
    requires SoFar(s, timers, ran, script, from, now, max, timed)
    ensures StopsRight(s, timers, ran, script, from, now, max, timed, true)
  {
    hide GoesOn;
  }

  /** The callbacks of ran have run, and the pass goes on. */
  ghost predicate Onward(s: Sim, timers: seq<nat>, ran: seq<nat>, starts: seq<Cbs>, script: seq<Turn>, from: nat,
                         now: nat, max: nat, timed: bool, t: Sim) {
    && Agree(Played(s, timers, ran, script, from, now), t.cbs, timers, t.n, t.cont)
    && Begins(s, timers, ran, script, from, now, starts)
    && SoFar(s, timers, ran, script, from, now, max, timed) && Served(s.cbs, timers, script, ran, t.cbs)
  }

  /** A pass over a queue, which it left empty or not: the state t is what the callbacks of
      ran make of s, only active ones ran, the pass ended where it should, and nobody was
      forgotten. */
  ghost predicate Passed(s: Sim, timers: seq<nat>, ran: seq<nat>, starts: seq<Cbs>, script: seq<Turn>, from: nat,
                         now: nat, max: nat, timed: bool,
                         t: Sim, empty: bool) {
    && Agree(Played(s, timers, ran, script, from, now), t.cbs, timers, t.n, t.cont)
    && Begins(s, timers, ran, script, from, now, starts)
    && StopsRight(s, timers, ran, script, from, now, max, timed, empty) && Served(s.cbs, timers, script, ran, t.cbs)
  }

  lemma GoesOnIs(s: Sim, timers: seq<nat>, ran: seq<nat>, script: seq<Turn>, from: nat, now: nat, max: nat, timed: bool, t: Sim)
    requires ran != [] && Agree(Played(s, timers, ran, script, from, now), t.cbs, timers, t.n, t.cont)
    ensures var turn, count := Scripted(script, from + |ran| - 1, now), CountUsers(ran, s.cbs);
      GoesOn(s, timers, ran, script, from, now, max, timed) <==>
        !turn.brk && count < max && !(count > 0 && timed && turn.late) && !t.cont
  {
    hide Played, Scripted, CountUsers;
  }

  lemma OnwardStart(s: Sim, timers: seq<nat>, script: seq<Turn>, from: nat, now: nat, max: nat, timed: bool)
    ensures Onward(s, timers, [], [], script, from, now, max, timed, s) && CountUsers([], s.cbs) == 0 && Ordered([], [])
  {
    SoFarNone(s, timers, script, from, now, max, timed);
    ServedSelf(s.cbs, timers, script);
  }

  /** One more callback in the pass over a queue. */
  lemma OnwardStep(s: Sim, mid: Sim, timers: seq<nat>, ran: seq<nat>, starts: seq<Cbs>, id: nat, script: seq<Turn>,
                   from: nat, now: nat,
                   max: nat, timed: bool, t: Sim)
    requires ScriptUsers(script, timers) && Static(s.cbs, mid.cbs) && Static(mid.cbs, t.cbs) && StartsActive(mid.cbs, id)
    requires Agree(PlayOne(mid, timers, id, Scripted(script, from + |ran|, now)), t.cbs, timers, t.n, t.cont)
    requires Onward(s, timers, ran, starts, script, from, now, max, timed, mid)
    ensures var count := CountUsers(ran + [id], s.cbs);
      && count == CountUsers(ran, s.cbs) + (if mid.cbs[id].attr.internal then 0 else 1)
      && var turn, ends := Scripted(script, from + |ran|, now), starts + [mid.cbs];
      if !turn.brk && count < max && !(count > 0 && timed && turn.late) && !t.cont
      then Onward(s, timers, ran + [id], ends, script, from, now, max, timed, t)
      else forall empty: bool :: Passed(s, timers, ran + [id], ends, script, from, now, max, timed, t, empty)
  {
    hide Agree, Played, PlayOne, Begins, StopsRight, SoFar, GoesOn, Served, CountUsers, ScriptUsers, Scripted;
    PlayedStep(s, timers, ran, id, script, from, now, mid.cbs, mid.n, mid.cont, t.cbs, t.n, t.cont);
    BeginsStep(s, timers, ran, id, script, from, now, starts, mid);
    SoFarNext(s, timers, ran, id, script, from, now, max, timed);
    GoesOnIs(s, timers, ran + [id], script, from, now, max, timed, t);
    CountStep(ran, id, s.cbs);
    ServedStep(s.cbs, timers, script, from + |ran|, now, ran, id, mid.cbs, mid.n, mid.cont, t.cbs, t.n, t.cont);
  }

  /** The pass goes on and the queue is empty. */
  lemma OnwardDone(s: Sim, timers: seq<nat>, ran: seq<nat>, starts: seq<Cbs>, script: seq<Turn>, from: nat, now: nat,
                   max: nat, timed: bool, t: Sim)
    requires Onward(s, timers, ran, starts, script, from, now, max, timed, t)
    ensures Passed(s, timers, ran, starts, script, from, now, max, timed, t, true)
    ensures ran != [] ==> !Scripted(script, from + |ran| - 1, now).brk
  {
    hide Agree, Played, Begins, StopsRight, GoesOn, Served, CountUsers, Scripted;
    SoFarDone(s, timers, ran, script, from, now, max, timed);
    if ran != [] {
      assert ran[..|ran|] == ran;
      GoesOnIs(s, timers, ran, script, from, now, max, timed, t);
    }
  }

  // ------------------------------------------------------------ the queues in turn

  /** The callbacks of ran are on queue p. */
  ghost predicate AllAt(ran: seq<nat>, cbs: Cbs, p: nat) {
    forall id :: id in ran ==> id in cbs && cbs[id].attr.pri == p
  }

  ghost predicate AllBelow(ran: seq<nat>, cbs: Cbs, p: nat) {
    forall id :: id in ran ==> id in cbs && cbs[id].attr.pri < p
  }

  /** The callbacks of ran are in the order of their queues. */
  ghost predicate InQueueOrder(ran: seq<nat>, cbs: Cbs) {
    && (forall id :: id in ran ==> id in cbs)
    && (forall i, j :: 0 <= i < j < |ran| ==> cbs[ran[i]].attr.pri <= cbs[ran[j]].attr.pri)
  }

  /** Those of ran that are not internal are on one queue, the last one. */
  ghost predicate OneQueue(ran: seq<nat>, cbs: Cbs) {
    forall id :: id in ran && id in cbs && !cbs[id].attr.internal ==>
      ran[|ran| - 1] in cbs && cbs[id].attr.pri == cbs[ran[|ran| - 1]].attr.pri
  }

  ghost predicate Unbroken(script: seq<Turn>, now: nat, n: int) {
    forall k: nat :: k < n ==> !Scripted(script, k, now).brk
  }

  /** The dispatch limits of the base: max_dispatch_callbacks, whether there is a
      max_dispatch_time, and limit_callbacks_after_prio. */
  datatype Limits = Limits(maxcb: nat, timed: bool, afterPrio: int) {
    /** How many callbacks of queue p a pass may run. */
    function Max(p: int): nat {
      if p < afterPrio then INT_MAX else maxcb
    }

    /** Whether the time limit holds for queue p. */
    predicate Timed(p: int) {
      timed && p >= afterPrio
    }
  }

  ghost predicate NoneAt(cbs: Cbs, timers: seq<nat>, p: int) {
    forall id :: id in cbs && id !in timers && cbs[id].active ==> cbs[id].attr.pri != p
  }

  /** The pass went on while it should: from one callback to the next of the same queue, and
      it ended only with the queue empty, or where it should not go on. */
  ghost predicate EndsRight(s: Sim, timers: seq<nat>, script: seq<Turn>, now: nat, limits: Limits, ran: seq<nat>, left: Cbs)
    requires InQueueOrder(ran, s.cbs)
  {
    && (forall k :: 0 < k < |ran| && s.cbs[ran[k]].attr.pri == s.cbs[ran[k - 1]].attr.pri ==>
          var p := s.cbs[ran[k]].attr.pri;
          GoesOn(s, timers, ran[..k], script, 0, now, limits.Max(p), limits.Timed(p)))
    && (ran != [] ==>
          var p := s.cbs[ran[|ran| - 1]].attr.pri;
          NoneAt(left, timers, p) || !GoesOn(s, timers, ran, script, 0, now, limits.Max(p), limits.Timed(p)))
  }

  /** The queues below p were gone through, and no callback that is not internal has run. */
  ghost predicate Through(s: Sim, timers: seq<nat>, script: seq<Turn>, now: nat, limits: Limits, ran: seq<nat>,
                          starts: seq<Cbs>, p: nat, t: Sim) {
    && Agree(Played(s, timers, ran, script, 0, now), t.cbs, timers, t.n, t.cont) && Served(s.cbs, timers, script, ran, t.cbs)
    && Begins(s, timers, ran, script, 0, now, starts)
    && InQueueOrder(ran, s.cbs) && AllBelow(ran, s.cbs, p) && CountUsers(ran, s.cbs) == 0 && Unbroken(script, now, |ran|)
    && EndsRight(s, timers, script, now, limits, ran, t.cbs)
  }

  /** A pass over the queues: the state t is what the callbacks of ran make of s.  Each was
      active when it started.  They ran in the order of the queues, and but for the internal
      ones they are of one queue.  The pass ended where it should, and nothing runs after a
      break.  A callback of the user that was active, and that no call names, has run or still
      is. */
  ghost predicate PassOver(s: Sim, timers: seq<nat>, script: seq<Turn>, now: nat, limits: Limits, ran: seq<nat>,
                           starts: seq<Cbs>, c: int, t: Sim) {
    && Agree(Played(s, timers, ran, script, 0, now), t.cbs, timers, t.n, t.cont) && Served(s.cbs, timers, script, ran, t.cbs)
    && Begins(s, timers, ran, script, 0, now, starts)
    && InQueueOrder(ran, s.cbs) && OneQueue(ran, s.cbs) && Unbroken(script, now, |ran| - 1)
    && EndsRight(s, timers, script, now, limits, ran, t.cbs)
    && c == if ran != [] && Scripted(script, |ran| - 1, now).brk then -1 else CountUsers(ran, s.cbs)
  }

  lemma {:induction false} CountConcat(ran: seq<nat>, more: seq<nat>, cbs: Cbs)
    ensures CountUsers(ran + more, cbs) == CountUsers(ran, cbs) + CountUsers(more, cbs)
    decreases |more|
  {
    if more == [] {
      assert ran + more == ran;
    } else {
      CountConcat(ran, more[..|more| - 1], cbs);
      assert (ran + more)[..|ran + more| - 1] == ran + more[..|more| - 1];
    }
  }

  lemma {:induction false} CountStatic(ran: seq<nat>, was: Cbs, cbs: Cbs)
    requires Static(was, cbs)
    ensures CountUsers(ran, was) == CountUsers(ran, cbs)
    decreases |ran|
  {
    if ran != [] {
      CountStatic(ran[..|ran| - 1], was, cbs);
    }
  }

  lemma {:induction false} CountNone(ran: seq<nat>, cbs: Cbs, id: nat)
    requires CountUsers(ran, cbs) == 0 && id in ran && id in cbs
    ensures cbs[id].attr.internal
    decreases |ran|
  {
    var k := |ran| - 1;
    if id != ran[k] {
      assert ran == ran[..k] + [ran[k]];
      CountNone(ran[..k], cbs, id);
    }
  }

  lemma StopsUnbroken(s: Sim, timers: seq<nat>, ran: seq<nat>, script: seq<Turn>, from: nat, now: nat, max: nat,
                      timed: bool, empty: bool)
    requires StopsRight(s, timers, ran, script, from, now, max, timed, empty) && Unbroken(script, now, from)
    ensures Unbroken(script, now, from + |ran| - 1)
  {
    hide Scripted, Played, CountUsers;
    forall k: nat | from <= k < from + |ran| - 1
      ensures !Scripted(script, k, now).brk
    {
      assert GoesOn(s, timers, ran[..k - from + 1], script, from, now, max, timed);
    }
  }

  lemma OrderConcat(ran: seq<nat>, more: seq<nat>, was: Cbs, cbs: Cbs, p: nat)
    requires InQueueOrder(ran, was) && AllBelow(ran, was, p) && AllAt(more, cbs, p) && Static(was, cbs) && CountUsers(ran, was) == 0
    ensures InQueueOrder(ran + more, was) && AllBelow(ran + more, was, p + 1) && OneQueue(ran + more, was)
  {
    hide CountUsers;
    forall id | id in ran && id in was
      ensures was[id].attr.internal
    {
      CountNone(ran, was, id);
    }
  }

  lemma GoesOnShift(s: Sim, mid: Sim, timers: seq<nat>, ran: seq<nat>, more: seq<nat>, script: seq<Turn>, now: nat,
                    max: nat, timed: bool)
    requires ScriptUsers(script, timers) && Static(s.cbs, mid.cbs) && CountUsers(ran, s.cbs) == 0 && more != []
    requires Agree(Played(s, timers, ran, script, 0, now), mid.cbs, timers, mid.n, mid.cont)
    ensures GoesOn(s, timers, ran + more, script, 0, now, max, timed) <==> GoesOn(mid, timers, more, script, |ran|, now, max, timed)
  {
    hide Played, CountUsers, ScriptUsers, Scripted, Static;
    PlayedConcat(s, mid, timers, ran, more, script, 0, now);
    CountConcat(ran, more, s.cbs);
    CountStatic(more, s.cbs, mid.cbs);
  }

  lemma WentOnAt(s: Sim, mid: Sim, timers: seq<nat>, ran: seq<nat>, more: seq<nat>, script: seq<Turn>, now: nat,
                 limits: Limits, p: nat, left: Cbs, empty: bool, k: nat)
    requires ScriptUsers(script, timers) && Static(s.cbs, mid.cbs) && CountUsers(ran, s.cbs) == 0
    requires Agree(Played(s, timers, ran, script, 0, now), mid.cbs, timers, mid.n, mid.cont)
    requires InQueueOrder(ran, s.cbs) && AllBelow(ran, s.cbs, p) && AllAt(more, mid.cbs, p) && InQueueOrder(ran + more, s.cbs)
    requires EndsRight(s, timers, script, now, limits, ran, left)
    requires StopsRight(mid, timers, more, script, |ran|, now, limits.Max(p), limits.Timed(p), empty)
    requires var all := ran + more; 0 < k < |all| && s.cbs[all[k]].attr.pri == s.cbs[all[k - 1]].attr.pri
    ensures var all := ran + more; var q := s.cbs[all[k]].attr.pri; GoesOn(s, timers, all[..k], script, 0, now, limits.Max(q), limits.Timed(q))
  {
    hide GoesOn, Played, CountUsers, ScriptUsers, Agree;
    var all := ran + more;
    if k < |ran| {
      assert all[..k] == ran[..k] && all[k] == ran[k] && all[k - 1] == ran[k - 1];
    } else {
      var j := k - |ran|;
      assert all[k] == more[j] && more[j] in more;
      assert all[..k] == ran + more[..j];
      GoesOnShift(s, mid, timers, ran, more[..j], script, now, limits.Max(p), limits.Timed(p));
    }
  }

  lemma EndsConcat(s: Sim, mid: Sim, timers: seq<nat>, ran: seq<nat>, more: seq<nat>, script: seq<Turn>, now: nat,
                   limits: Limits, p: nat, t: Sim, empty: bool)
    requires ScriptUsers(script, timers) && Static(s.cbs, mid.cbs) && CountUsers(ran, s.cbs) == 0
    requires Agree(Played(s, timers, ran, script, 0, now), mid.cbs, timers, mid.n, mid.cont)
    requires InQueueOrder(ran, s.cbs) && AllBelow(ran, s.cbs, p) && AllAt(more, mid.cbs, p) && InQueueOrder(ran + more, s.cbs)
    requires EndsRight(s, timers, script, now, limits, ran, mid.cbs)
    requires StopsRight(mid, timers, more, script, |ran|, now, limits.Max(p), limits.Timed(p), empty)
    requires empty ==> NoneAt(t.cbs, timers, p)
    requires more == [] ==> SameUsers(mid.cbs, t.cbs, timers)
    ensures EndsRight(s, timers, script, now, limits, ran + more, t.cbs)
  {
    hide GoesOn, Played, CountUsers, ScriptUsers, Agree, AllBelow;
    var all := ran + more;
    if more == [] {
      assert all == ran;
    } else {
      forall k | 0 < k < |all| && s.cbs[all[k]].attr.pri == s.cbs[all[k - 1]].attr.pri
        ensures var q := s.cbs[all[k]].attr.pri; GoesOn(s, timers, all[..k], script, 0, now, limits.Max(q), limits.Timed(q))
      {
        WentOnAt(s, mid, timers, ran, more, script, now, limits, p, mid.cbs, empty, k);
      }
      LastAt(ran, more, s.cbs, mid.cbs, p);
      GoesOnShift(s, mid, timers, ran, more, script, now, limits.Max(p), limits.Timed(p));
    }
  }

  lemma LastAt(ran: seq<nat>, more: seq<nat>, was: Cbs, cbs: Cbs, p: nat)
    requires Static(was, cbs) && AllAt(more, cbs, p) && more != []
    ensures var all := ran + more; all[|all| - 1] in was && was[all[|all| - 1]].attr.pri == p
  {
    assert more[|more| - 1] in more;
  }

  /** One more queue. */
  lemma ThroughNext(s: Sim, timers: seq<nat>, script: seq<Turn>, now: nat, limits: Limits, ran: seq<nat>,
                    starts: seq<Cbs>, p: nat, mid: Sim,
                    more: seq<nat>, starts': seq<Cbs>, c: int, t: Sim, empty: bool)
    requires ScriptUsers(script, timers) && Static(s.cbs, mid.cbs)
    requires Through(s, timers, script, now, limits, ran, starts, p, mid) && AllAt(more, mid.cbs, p)
    requires Passed(mid, timers, more, starts', script, |ran|, now, limits.Max(p), limits.Timed(p), t, empty)
    requires empty ==> NoneAt(t.cbs, timers, p)
    requires c == if more != [] && Scripted(script, |ran| + |more| - 1, now).brk then -1 else CountUsers(more, mid.cbs)
    ensures PassOver(s, timers, script, now, limits, ran + more, starts + starts', c, t)
    ensures c == 0 ==> Through(s, timers, script, now, limits, ran + more, starts + starts', p + 1, t)
  {
    hide Agree, Played, Begins, StopsRight, Served, CountUsers, ScriptUsers, Scripted, Static, InQueueOrder, OneQueue, AllAt, AllBelow, EndsRight, NoneAt;
    PlayedConcat(s, mid, timers, ran, more, script, 0, now);
    BeginsConcat(s, mid, timers, ran, more, script, 0, now, starts, starts');
    AgreeTrans(Played(s, timers, ran + more, script, 0, now), Played(mid, timers, more, script, |ran|, now), t.cbs,
               timers, t.n, t.cont);
    ServedTrans(s.cbs, mid.cbs, t.cbs, timers, script, ran, more);
    CountConcat(ran, more, s.cbs);
    CountStatic(more, s.cbs, mid.cbs);
    OrderConcat(ran, more, s.cbs, mid.cbs, p);
    StopsUnbroken(mid, timers, more, script, |ran|, now, limits.Max(p), limits.Timed(p), empty);
    NothingRan(mid, timers, more, script, |ran|, now, t);
    EndsConcat(s, mid, timers, ran, more, script, now, limits, p, t, empty);
  }

  lemma NothingRan(s: Sim, timers: seq<nat>, ran: seq<nat>, script: seq<Turn>, from: nat, now: nat, t: Sim)
    requires Agree(Played(s, timers, ran, script, from, now), t.cbs, timers, t.n, t.cont)
    ensures ran == [] ==> SameUsers(s.cbs, t.cbs, timers)
  {
  }

  lemma ThroughNone(s: Sim, timers: seq<nat>, script: seq<Turn>, now: nat, limits: Limits)
    ensures Through(s, timers, script, now, limits, [], [], 0, s) && PassOver(s, timers, script, now, limits, [], [], 0, s)
    ensures Ordered([], [])
  {
    ServedSelf(s.cbs, timers, script);
  }

  lemma {:induction false} QuietPlayed(s: Sim, timers: seq<nat>, ran: seq<nat>, from: nat, now: nat)
    ensures Played(s, timers, ran, [], from, now).cont == s.cont
    decreases |ran|
  {
    if ran != [] {
      hide Resumed, FiredBy;
      QuietPlayed(s, timers, ran[..|ran| - 1], from, now);
    }
  }

  /** When callbacks do nothing, a queue is left before it is empty only at the limit. */
  lemma QuietPass(s: Sim, timers: seq<nat>, ran: seq<nat>, starts: seq<Cbs>, from: nat, now: nat, max: nat,
                  timed: bool, t: Sim, empty: bool)
    requires Passed(s, timers, ran, starts, [], from, now, max, timed, t, empty) && !s.cont
    ensures !t.cont && (empty || CountUsers(ran, s.cbs) >= max)
  {
    hide Played, CountUsers, Served;
    QuietPlayed(s, timers, ran, from, now);
  }
}
