/**
  The evdns_getaddrinfo protocol: an A and an AAAA subrequest, the timer that limits how
  long the second may lag behind the first, and cancellation by the user, in every
  interleaving.
 */
module GetAddrInfo {
  import opened Bytes

  /** What a resolver callback is given: addresses, or why there are none. */
  datatype Reply = Answer(addrs: seq<nat>) | NotExist | Failure | Cancelled

  /** evutil getaddrinfo error codes; NoError is 0. */
  datatype Eai = NoError | NoData | NoName | Fail | Again | Canceled | Memory

  /** A subrequest: not outstanding (r is NULL), waiting for the network, or with its
      callback scheduled (pending_cb). */
  datatype Sub = Idle | Live | Scheduled(reply: Reply)

  datatype Kind = A | AAAA

  /** One call of the user's callback. */
  datatype Call = Call(err: Eai, addrs: seq<nat>)

  /** A reply taken into account before the user was answered. */
  datatype Seen = Seen(kind: Kind, reply: Reply)

  function ErrorOf(r: Reply): Eai {
    match r
    case Answer(addrs) => if addrs == [] then NoData else NoError
    case NotExist => NoName
    case Failure => Fail
    case Cancelled => Fail
  }

  /** The addresses of one kind among the replies. */
  function Addrs(seen: seq<Seen>, kind: Kind): seq<nat> {
    if seen == [] then [] else Part(seen[0], kind) + Addrs(seen[1..], kind)
  }

  function Part(s: Seen, kind: Kind): seq<nat> {
    if s.kind == kind && s.reply.Answer? then s.reply.addrs else []
  }

  /** What the replies amount to: every address, the A records first whichever came
      first, or the last error. */
  function Outcome(seen: seq<Seen>): Call {
    if Addrs(seen, A) + Addrs(seen, AAAA) != [] then Call(NoError, Addrs(seen, A) + Addrs(seen, AAAA))
    else if seen == [] then Call(Again, [])
    else Call(ErrorOf(seen[|seen| - 1].reply), [])
  }

  lemma OutcomeOne(s: Seen)
    ensures Outcome([s]) == if ErrorOf(s.reply) == NoError then Call(NoError, s.reply.addrs) else Call(ErrorOf(s.reply), [])
  {
    assert forall k :: Addrs([s], k) == Part(s, k);
  }

  /** Two replies: the addresses of both, A first, in whichever order they came. */
  lemma OutcomeTwo(s: Seen, t: Seen)
    requires s.kind != t.kind
    ensures Outcome([s, t]) ==
      var (a, b) := (ErrorOf(s.reply) == NoError, ErrorOf(t.reply) == NoError);
      if a && b then Call(NoError, if s.kind == A then s.reply.addrs + t.reply.addrs else t.reply.addrs + s.reply.addrs)
      else if a then Call(NoError, s.reply.addrs)
      else if b then Call(NoError, t.reply.addrs)
      else Call(ErrorOf(t.reply), [])
  {
    forall k: Kind
      ensures Addrs([s, t], k) == Part(s, k) + Part(t, k)
    {
      assert [s, t][1..] == [t];
      assert Addrs([t], k) == Part(t, k) + [];
    }
  }

  // ------------------------------------------------------------ what should happen

  /** What can happen next: a reply from the network, a scheduled callback, the timer, or
      the user's cancel. */
  datatype Step = Reply4(reply: Reply) | Reply6(reply: Reply) | Run4 | Run6 | Timer | Cancel

  /** The protocol as a user sees it: the subrequests, whether the timer runs or has run,
      the replies whose callbacks ran before the user was answered, and the answers. */
  datatype View = View(v4: Sub, v6: Sub, canceled: bool, timer: bool, timedOut: bool, seen: seq<Seen>, calls: seq<Call>)

  /** A cancelled subrequest still has its callback to run. */
  function Stopped(s: Sub): Sub {
    if s == Live then Scheduled(Cancelled) else s
  }

  /** A callback runs with its reply while the other subrequest is outstanding or not: the
      first waits for the other with the timer running, the last answers. */
  function Ran(v: View, s: Seen, other: bool): View {
    if v.calls != [] then v
    else
      var seen := v.seen + [s];
      if other then v.(seen := seen, timer := !v.canceled || ErrorOf(s.reply) != NoError)
      else v.(seen := seen, timer := false, calls := [if v.canceled then Call(Canceled, []) else Outcome(seen)])
  }

  function Next(v: View, step: Step): View {
    match step
    case Reply4(reply) => if v.v4 == Live && reply != Cancelled then v.(v4 := Scheduled(reply)) else v
    case Reply6(reply) => if v.v6 == Live && reply != Cancelled then v.(v6 := Scheduled(reply)) else v
    case Run4 => if v.v4.Scheduled? then Ran(v.(v4 := Idle), Seen(A, v.v4.reply), v.v6 != Idle) else v
    case Run6 => if v.v6.Scheduled? then Ran(v.(v6 := Idle), Seen(AAAA, v.v6.reply), v.v4 != Idle) else v
    case Timer =>
      if !v.timer then v
      else View(Stopped(v.v4), Stopped(v.v6), v.canceled, false, true, v.seen, v.calls + [Outcome(v.seen)])
    case Cancel =>
      if v.calls != [] then v else v.(v4 := Stopped(v.v4), v6 := Stopped(v.v6), canceled := true, timer := false)
  }

  function After(v: View, steps: seq<Step>): View {
    if steps == [] then v else Next(After(v, steps[..|steps| - 1]), steps[|steps| - 1])
  }

  lemma AfterStep(v: View, steps: seq<Step>, i: nat)
    requires i < |steps|
    ensures After(v, steps[..0]) == v && After(v, steps[..i + 1]) == Next(After(v, steps[..i]), steps[i])
  {
    assert steps[..i + 1][..i] == steps[..i];
  }

  // ------------------------------------------------------------ what the code does

  class Request {
    var v4: Sub
    var v6: Sub
    /** user_cb is not NULL. */
    var userCb: bool
    var userCanceled: bool
    var requestDone: bool
    /** The timeout event is pending. */
    var timer: bool
    var pendingResult: Option<seq<nat>>
    var pendingError: Eai
    /** Every call of the user's callback, and how often the state was freed. */
    var calls: seq<Call>
    var freed: nat
    ghost var seen: seq<Seen>
    ghost var timedOut: bool

    ghost function Status(): View
      reads this
    {
      View(v4, v6, userCanceled, timer, timedOut, seen, calls)
    }

    predicate Outstanding()
      reads this
    {
      v4 != Idle || v6 != Idle
    }

    /** The answers held back are the answers seen. */
    ghost predicate Held()
      reads this
    {
      match pendingResult
      case Some(addrs) => |seen| == 1 && seen[0].reply == Answer(addrs) && addrs != []
      case None => seen == [] || (|seen| == 1 && pendingError == ErrorOf(seen[0].reply) != NoError)
    }

    /** What is held back is one reply without addresses. */
    ghost predicate ErrorHeld()
      reads this
    {
      |seen| == 1 && pendingResult == None && pendingError == ErrorOf(seen[0].reply) != NoError
    }

    /** Before the user is answered, no subrequest is live once the user has cancelled. */
    ghost predicate Waiting()
      reads this
    {
      Pending() && (userCanceled ==> v4 != Live && v6 != Live)
    }

    /** Before the user is answered: at least one subrequest is outstanding, and exactly
        one when the timer runs; the one not outstanding was seen or never launched. */
    ghost predicate Pending()
      reads this
    {
      && userCb && calls == [] && freed == 0 && Outstanding() && !requestDone && !timedOut
      && (timer ==> v4 == Idle || v6 == Idle)
      && (!userCanceled ==> Held())
      && (!userCanceled ==> !v4.Scheduled? || v4.reply != Cancelled)
      && (!userCanceled ==> !v6.Scheduled? || v6.reply != Cancelled)
      && |seen| <= 1 && (timer && !userCanceled ==> seen != [])
      && (pendingResult.Some? ==> seen != []) && (timer && userCanceled ==> ErrorHeld())
      && (forall i :: 0 <= i < |seen| ==> (seen[i].kind == A ==> v4 == Idle) && (seen[i].kind == AAAA ==> v6 == Idle))
    }

    /** The timer answered the user while one subrequest was outstanding; its callback is
        scheduled. */
    ghost predicate Answered()
      reads this
    {
      && !userCb && |calls| == 1 && freed == 0 && !timer && timedOut
      && ((v4 == Idle && v6.Scheduled?) || (v6 == Idle && v4.Scheduled?))
    }

    ghost predicate Freed()
      reads this
    {
      freed == 1 && |calls| == 1 && !Outstanding() && !timer
    }

    /** What the user was told. */
    ghost predicate Told()
      reads this
    {
      |calls| == 1 ==>
        && (!userCanceled ==> calls[0] == Outcome(seen))
        && (userCanceled && !timedOut ==> calls[0] == Call(Canceled, []))
        && (userCanceled && timedOut ==>
              |seen| == 1 && ErrorOf(seen[0].reply) != NoError && calls[0] == Call(ErrorOf(seen[0].reply), []))
    }

    ghost predicate Valid()
      reads this
    {
      (Waiting() || Answered() || Freed()) && Told()
    }

    /** evdns_getaddrinfo, once it needs the network: at least one subrequest was
        launched. */
    constructor (launched4: bool, launched6: bool)
      requires launched4 || launched6
      ensures Status() == View(if launched4 then Live else Idle, if launched6 then Live else Idle, false, false, false, [], [])
      ensures Valid() && Waiting() && (v4 == Live <==> launched4) && (v6 == Live <==> launched6)
    {
      v4, v6 := if launched4 then Live else Idle, if launched6 then Live else Idle;
      userCb, userCanceled, requestDone, timer := true, false, false, false;
      pendingResult, pendingError, calls, freed := None, NoError, [], 0;
      seen, timedOut := [], false;
    }

    /** reply_schedule_callback for a live subrequest. */
    method Arrive(kind: Kind, reply: Reply)
      requires Valid() && reply != Cancelled && (if kind == A then v4 else v6) == Live
      modifies this
      ensures Valid() && calls == old(calls) && freed == old(freed)
      ensures v4 == if kind == A then Scheduled(reply) else old(v4)
      ensures v6 == if kind == AAAA then Scheduled(reply) else old(v6)
      ensures Status() == Next(old(Status()), if kind == A then Reply4(reply) else Reply6(reply))
    {
      if kind == A {
        v4 := Scheduled(reply);
      } else {
        v6 := Scheduled(reply);
      }
    }

    /** free_getaddrinfo_request */
    method Release()
      modifies this`freed, this`timer, this`pendingResult
      ensures freed == old(freed) + 1 && !timer && pendingResult == None
    {
      freed, timer, pendingResult := freed + 1, false, None;
    }

    /** In the midst of evdns_getaddrinfo_gotresolve, when the subrequest of this kind has
        just been taken and the user has not been answered. */
    ghost predicate Taking(kind: Kind, otherBusy: bool)
      reads this
    {
      && userCb && calls == [] && freed == 0 && !timedOut && requestDone == !otherBusy
      && (if kind == A then v4 else v6) == Idle
      && otherBusy == ((if kind == A then v6 else v4) != Idle)
      && (otherBusy ==> seen == [] && !timer) && (pendingResult.Some? ==> seen != []) && (seen == [] || (|seen| == 1 && seen[0].kind != kind))
      && (!userCanceled ==> Held() && (if kind == A then v6 else v4) != Scheduled(Cancelled))
      && (userCanceled ==> v4 != Live && v6 != Live)
    }

    /** The part of evdns_getaddrinfo_gotresolve for a reply without addresses. */
    method TakeError(kind: Kind, reply: Reply, otherBusy: bool)
      requires Taking(kind, otherBusy) && ErrorOf(reply) != NoError
      modifies this
      ensures Valid() && Status() == Ran(old(Status()), Seen(kind, reply), otherBusy)
    {
      hide Outcome;
      var err := ErrorOf(reply);
      ghost var s := Seen(kind, reply);
      OutcomeWith(seen, s);
      if otherBusy {
        timer := true;
        pendingError := err;
        seen := seen + [s];
        return;
      }
      if userCanceled {
        calls := calls + [Call(Canceled, [])];
      } else if pendingResult.Some? {
        calls := calls + [Call(NoError, pendingResult.value)];
        pendingResult := None;
      } else {
        calls := calls + [Call(err, [])];
      }
      seen := seen + [s];
      Release();
    }

    /** The part for a reply with addresses. */
    method TakeAnswer(kind: Kind, reply: Reply, otherBusy: bool)
      requires Taking(kind, otherBusy) && ErrorOf(reply) == NoError
      modifies this
      ensures Valid() && Status() == Ran(old(Status()), Seen(kind, reply), otherBusy)
    {
      hide Outcome;
      ghost var s := Seen(kind, reply);
      OutcomeWith(seen, s);
      if userCanceled {
        seen := seen + [s];
        if otherBusy {
          return;
        }
        calls := calls + [Call(Canceled, [])];
        Release();
        return;
      }
      if otherBusy {
        timer := true;
        pendingResult := Some(reply.addrs);
        seen := seen + [s];
        return;
      }
      var res := reply.addrs;
      if pendingResult.Some? {
        res := if kind == A then res + pendingResult.value else pendingResult.value + res;
        pendingResult := None;
      }
      calls := calls + [Call(NoError, res)];
      seen := seen + [s];
      Release();
    }

    /** evdns_getaddrinfo_gotresolve: the scheduled callback of one subrequest runs. */
    method GotResolve(kind: Kind)
      requires Valid() && (if kind == A then v4 else v6).Scheduled?
      modifies this
      ensures Valid() && Status() == Next(old(Status()), if kind == A then Run4 else Run6)
    {
      hide Outcome;
      assert userCb && seen != [] ==> (seen[0].kind == A ==> v4 == Idle) && (seen[0].kind == AAAA ==> v6 == Idle);
      var reply := if kind == A then v4.reply else v6.reply;
      var otherBusy := if kind == A then v6 != Idle else v4 != Idle;
      if !otherBusy {
        requestDone := true;
      }
      if kind == A {
        v4 := Idle;
      } else {
        v6 := Idle;
      }
      if reply == Cancelled && !userCanceled {
        // The timer cancelled this one, and has answered the user.
        if !otherBusy {
          Release();
        }
        return;
      }
      if !userCb {
        Release();
        return;
      }
      if ErrorOf(reply) != NoError {
        TakeError(kind, reply, otherBusy);
      } else {
        TakeAnswer(kind, reply, otherBusy);
      }
    }

    /** evdns_cancel_request: the subrequest no longer waits for the network but stays
        outstanding, so that its callback still runs; a reply that came before the cancel
        is not replaced by it, and the other subrequest notices nothing.  While the user is
        cancelling, what holds of a request that is not answered yet goes on holding. */
    method CancelSub(kind: Kind)
      modifies this`v4, this`v6
      ensures (if kind == A then v4 else v6) != Live
      ensures (v4 == Idle <==> old(v4) == Idle) && (v6 == Idle <==> old(v6) == Idle)
      ensures old(v4).Scheduled? ==> v4 == old(v4)
      ensures old(v6).Scheduled? ==> v6 == old(v6)
      ensures v4 == old(v4) || v4 == Scheduled(Cancelled)
      ensures v6 == old(v6) || v6 == Scheduled(Cancelled)
      ensures if kind == A then v6 == old(v6) else v4 == old(v4)
      ensures old(Pending()) && userCanceled ==> Pending()
    {
      if kind == A && v4 == Live {
        v4 := Scheduled(Cancelled);
      }
      if kind == AAAA && v6 == Live {
        v6 := Scheduled(Cancelled);
      }
    }

    /** evdns_getaddrinfo_timeout_cb */
    method TimeoutFires()
      requires Valid() && timer
      modifies this
      ensures Valid() && |calls| == |old(calls)| + 1 && freed == old(freed)
      ensures Status() == Next(old(Status()), Timer)
    {
      hide Outcome;
      if |seen| == 1 {
        OutcomeOne(seen[0]);
        assert seen == [seen[0]];
      }
      timer := false;
      timedOut := true;
      var late4, late6 := v4 != Idle, v6 != Idle;
      if late4 {
        CancelSub(A);
      }
      if late6 {
        CancelSub(AAAA);
      }
      assert !late4 || !late6;
      if pendingResult.Some? {
        calls := calls + [Call(NoError, pendingResult.value)];
        pendingResult := None;
      } else {
        calls := calls + [Call(if pendingError == NoError then Again else pendingError, [])];
      }
      userCb := false;
      if !late4 && !late6 {
        // The comment in the code asks whether this can happen: it cannot.
        assert false;
      }
    }

    /** evdns_getaddrinfo_cancel, which is not allowed once the callback was called. */
    method CancelByUser()
      requires Valid() && calls == []
      modifies this
      ensures Valid() && calls == old(calls) && freed == old(freed) && seen == old(seen)
      ensures Status() == Next(old(Status()), Cancel)
      ensures !timer && v4 != Live && v6 != Live && userCanceled
      ensures old(v4) == Live ==> v4 == Scheduled(Cancelled)
      ensures old(v6) == Live ==> v6 == Scheduled(Cancelled)
      ensures (v4 == Idle <==> old(v4) == Idle) && (v6 == Idle <==> old(v6) == Idle)
      ensures old(v4).Scheduled? ==> v4 == old(v4)
      ensures old(v6).Scheduled? ==> v6 == old(v6)
    {
      if requestDone {
        // request_done is only set together with the call of the user's callback.
        assert false;
        return;
      }
      timer := false;
      userCanceled := true;
      if v4 != Idle {
        CancelSub(A);
      }
      if v6 != Idle {
        CancelSub(AAAA);
      }
    }
  }

  lemma OutcomeWith(seen: seq<Seen>, s: Seen)
    ensures seen == [] ==> seen + [s] == [s]
    ensures |seen| == 1 ==> seen + [s] == [seen[0], s]
    ensures Outcome([s]) == if ErrorOf(s.reply) == NoError then Call(NoError, s.reply.addrs) else Call(ErrorOf(s.reply), [])
    ensures |seen| == 1 && s.kind != seen[0].kind ==>
      Outcome([seen[0], s]) ==
        var (a, b) := (ErrorOf(seen[0].reply) == NoError, ErrorOf(s.reply) == NoError);
        if a && b then
          Call(NoError, if s.kind == A then s.reply.addrs + seen[0].reply.addrs else seen[0].reply.addrs + s.reply.addrs)
        else if a then Call(NoError, seen[0].reply.addrs)
        else if b then Call(NoError, s.reply.addrs)
        else Call(ErrorOf(s.reply), [])
  {
    hide Outcome;
    OutcomeOne(s);
    if |seen| == 1 && s.kind != seen[0].kind {
      OutcomeTwo(seen[0], s);
    }
  }

  // ------------------------------------------------------------ whole runs

  lemma AfterNone(v: View, steps: seq<Step>)
    ensures After(v, steps[..0]) == v
  {
  }

  /** A step that is not possible does nothing. */
  lemma NextIdle(v: View, step: Step)
    ensures step.Reply4? && !(v.v4 == Live && step.reply != Cancelled) ==> Next(v, step) == v
    ensures step.Reply6? && !(v.v6 == Live && step.reply != Cancelled) ==> Next(v, step) == v
    ensures step.Run4? && !v.v4.Scheduled? ==> Next(v, step) == v
    ensures step.Run6? && !v.v6.Scheduled? ==> Next(v, step) == v
    ensures step.Timer? && !v.timer ==> Next(v, step) == v
    ensures step.Cancel? && v.calls != [] ==> Next(v, step) == v
  {
  }

  /** Any interleaving of steps, those not possible at their time being skipped: the user
      is called at most once and the state freed at most once, never while a subrequest
      is outstanding; once none is, both have happened exactly once.  What happens is what
      Next says, step by step. */
  method RunSteps(q: Request, steps: seq<Step>)
    requires q.Valid()
    modifies q
    ensures q.Valid() && q.Status() == After(old(q.Status()), steps)
    ensures |q.calls| <= 1 && q.freed <= 1
    ensures q.freed == 1 <==> !q.Outstanding()
    ensures q.freed == 1 ==> |q.calls| == 1
    ensures |q.calls| == 1 && !q.userCanceled ==> q.calls[0] == Outcome(q.seen)
    ensures |q.calls| == 1 && q.userCanceled && !q.timedOut ==> q.calls[0] == Call(Canceled, [])
    ensures |q.calls| == 1 && q.userCanceled && q.timedOut ==>
      |q.seen| == 1 && ErrorOf(q.seen[0].reply) != NoError && q.calls[0] == Call(ErrorOf(q.seen[0].reply), [])
  {
    hide Outcome, After, Next;
    assert steps[..|steps|] == steps;
    AfterNone(q.Status(), steps);
    for i := 0 to |steps|
      invariant q.Valid() && q.Status() == After(old(q.Status()), steps[..i])
    {
      AfterStep(old(q.Status()), steps, i);
      NextIdle(q.Status(), steps[i]);
      match steps[i] {
        case Reply4(reply) =>
          if q.v4 == Live && reply != Cancelled {
            q.Arrive(A, reply);
          }
        case Reply6(reply) =>
          if q.v6 == Live && reply != Cancelled {
            q.Arrive(AAAA, reply);
          }
        case Run4 =>
          if q.v4.Scheduled? {
            q.GotResolve(A);
          }
        case Run6 =>
          if q.v6.Scheduled? {
            q.GotResolve(AAAA);
          }
        case Timer =>
          if q.timer {
            q.TimeoutFires();
          }
        case Cancel =>
          if q.calls == [] {
            q.CancelByUser();
          }
      }
    }
  }

  /** A user who cancelled is told something else: the first of the two cancelled callbacks
      starts the timer, and the timer fires before the second one runs. */
  method CancelThenTimer() returns (q: Request)
    ensures q.Valid() && q.userCanceled && q.calls == [Call(Fail, [])]
  {
    hide Outcome;
    OutcomeOne(Seen(A, Cancelled));
    q := new Request(true, true);
    q.CancelByUser();
    q.GotResolve(A);
    q.TimeoutFires();
  }

  /** A lookup of one kind: a name that does not exist is EVUTIL_EAI_NONAME, any other failure
      EVUTIL_EAI_FAIL, and an answer without addresses EVUTIL_EAI_NODATA. */
  method OneKind(kind: Kind, reply: Reply) returns (q: Request)
    requires reply != Cancelled
    ensures q.calls == [match reply
                        case Answer(addrs) => Call(if addrs == [] then NoData else NoError, addrs)
                        case NotExist => Call(NoName, [])
                        case _ => Call(Fail, [])] && q.freed == 1
  {
    hide Outcome;
    OutcomeOne(Seen(kind, reply));
    assert [] + [Seen(kind, reply)] == [Seen(kind, reply)];
    q := new Request(kind == A, kind == AAAA);
    q.Arrive(kind, reply);
    q.GotResolve(kind);
  }

  /** An answer that came first is what the user is told, when the other kind does not
      exist. */
  method AnswerThenNothing(kind: Kind, addrs: seq<nat>) returns (q: Request)
    requires addrs != []
    ensures q.calls == [Call(NoError, addrs)] && q.freed == 1
  {
    hide Outcome;
    var other := if kind == A then AAAA else A;
    var first, second := Seen(kind, Answer(addrs)), Seen(other, NotExist);
    OutcomeWith([first], second);
    assert [] + [first] == [first] && [first] + [second] == [first, second];
    q := new Request(true, true);
    q.Arrive(kind, Answer(addrs));
    q.GotResolve(kind);
    q.Arrive(other, NotExist);
    q.GotResolve(other);
  }

  /** However far a request has come, the network answering and the scheduled callbacks
      running bring it to its end. */
  method Settle(q: Request, r4: Reply, r6: Reply)
    requires q.Valid() && r4 != Cancelled && r6 != Cancelled
    modifies q
    ensures q.Valid() && q.freed == 1 && |q.calls| == 1
  {
    hide After, Next, Request.Valid, Outcome;
    var steps := [Reply4(r4), Reply6(r6), Run4, Run6];
    SettledView(q.Status(), r4, r6);
    RunSteps(q, steps);
  }

  lemma SettledView(v: View, r4: Reply, r6: Reply)
    requires r4 != Cancelled && r6 != Cancelled
    ensures var w := After(v, [Reply4(r4), Reply6(r6), Run4, Run6]); w.v4 == Idle && w.v6 == Idle
  {
    hide After, Next;
    var steps := [Reply4(r4), Reply6(r6), Run4, Run6];
    AfterStep(v, steps, 0);
    AfterStep(v, steps, 1);
    AfterStep(v, steps, 2);
    AfterStep(v, steps, 3);
    NextSubs(v, r4);
    NextSubs(After(v, steps[..1]), r6);
    NextSubs(After(v, steps[..2]), r6);
    NextSubs(After(v, steps[..3]), r6);
    assert steps[..4] == steps;
  }

  lemma NextSubs(v: View, r: Reply)
    requires r != Cancelled
    ensures Next(v, Reply4(r)).v4 != Live && Next(v, Reply4(r)).v6 == v.v6
    ensures Next(v, Reply6(r)).v6 != Live && Next(v, Reply6(r)).v4 == v.v4
    ensures v.v4 != Live ==> Next(v, Run4).v4 == Idle && Next(v, Run4).v6 == v.v6
    ensures v.v6 != Live ==> Next(v, Run6).v6 == Idle && Next(v, Run6).v4 == v.v4
  {
    hide Outcome;
  }

  // ------------------------------------------------------------ what the user is told of

  /** The reply came from the network in one of the steps, or from a cancel. */
  ghost predicate Came(steps: seq<Step>, s: Seen) {
    s.reply == Cancelled || (if s.kind == A then Reply4(s.reply) else Reply6(s.reply)) in steps
  }

  ghost predicate AllCame(steps: seq<Step>, v: View) {
    && (v.v4.Scheduled? ==> Came(steps, Seen(A, v.v4.reply)))
    && (v.v6.Scheduled? ==> Came(steps, Seen(AAAA, v.v6.reply)))
    && (forall i :: 0 <= i < |v.seen| ==> Came(steps, v.seen[i]))
  }

  /** Nothing reaches the user that did not arrive: from a new request on, every reply that
      an answer is made of came in one of the steps, for its own subrequest. */
  lemma {:induction false} SeenCame(v: View, steps: seq<Step>)
    requires !v.v4.Scheduled? && !v.v6.Scheduled? && v.seen == []
    ensures AllCame(steps, After(v, steps))
    decreases |steps|
  {
    hide Outcome, Came;
    if steps != [] {
      var front, last := steps[..|steps| - 1], steps[|steps| - 1];
      SeenCame(v, front);
      CameMore(front, last, After(v, front));
      assert front + [last] == steps;
      CameNow(steps);
    }
  }

  lemma CameMore(front: seq<Step>, last: Step, v: View)
    requires AllCame(front, v)
    ensures AllCame(front + [last], v)
  {
    forall s | Came(front, s)
      ensures Came(front + [last], s)
    {
    }
  }

  lemma CameNow(steps: seq<Step>)
    requires steps != []
    ensures var last := steps[|steps| - 1];
      && (last.Reply4? ==> Came(steps, Seen(A, last.reply))) && (last.Reply6? ==> Came(steps, Seen(AAAA, last.reply)))
    ensures Came(steps, Seen(A, Cancelled)) && Came(steps, Seen(AAAA, Cancelled))
  {
  }
}
