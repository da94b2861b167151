/**
  Token buckets and rate-limit groups of bufferevent_ratelim.c.  Limits are 64-bit, ticks
  32-bit and wrapping, as in the code.
 */
module RateLimit {
  import opened Bytes
  import opened EventQueues

  const W64: int := 0x1_0000_0000_0000_0000
  const W32: int := 0x1_0000_0000
  const SSIZE_MAX: int := 0x7fff_ffff_ffff_ffff

  /** size_t and ev_ssize_t arithmetic. */
  function U64(x: int): nat { x % W64 }

  function S64(x: nat): int
    requires x < W64
  {
    if x > SSIZE_MAX then x - W64 else x
  }

  datatype Dir = Read | Write

  /** A value for each direction. */
  datatype PerDir<T> = PerDir(read: T, write: T) {
    function Get(d: Dir): T {
      if d == Read then read else write
    }

    function With(d: Dir, v: T): PerDir<T> {
      if d == Read then PerDir(v, write) else PerDir(read, v)
    }
  }

  /** ev_token_bucket_cfg for one direction, as ev_token_bucket_cfg_new accepts it. */
  datatype Cfg = Cfg(rate: nat, maximum: nat)

  predicate CfgOk(c: Cfg) {
    1 <= c.rate <= c.maximum <= SSIZE_MAX
  }

  predicate InRange(limit: int, c: Cfg) {
    -SSIZE_MAX - 1 <= limit <= c.maximum
  }

  // ------------------------------------------------------------ the arithmetic

  lemma DivLess(a: nat, n: nat, rate: nat)
    requires n > 0
    ensures a / n < rate <==> a < n * rate
  {
    var q := a / n;
    assert a == n * q + a % n;
    if q < rate {
      assert n * (q + 1) <= n * rate;
    } else {
      assert n * rate <= n * q;
    }
  }

  /** What n ticks make of a limit: refilled at the rate, up to the maximum. */
  function Refilled(limit: int, c: Cfg, n: nat): int {
    if limit + n * c.rate < c.maximum then limit + n * c.rate else c.maximum
  }

  /** One direction of ev_token_bucket_update_, in the code's arithmetic: the overflow-safe
      form computes the naive one. */
  method UpdateLimit(limit: int, c: Cfg, n: nat) returns (r: int)
    requires CfgOk(c) && InRange(limit, c) && 1 <= n <= INT_MAX
    ensures r == Refilled(limit, c, n) && InRange(r, c)
  {
    var room := U64(c.maximum - limit);
    assert room == c.maximum - limit;
    DivLess(room, n, c.rate);
    if room / n < c.rate {
      r := c.maximum;
    } else {
      assert 0 <= n * c.rate <= room;
      r := S64(U64(U64(limit) + U64(n * c.rate)));
      WrapAdd(limit, n * c.rate);
    }
  }

  /** Adding through size_t gives the sum when the sum is an ev_ssize_t. */
  lemma WrapAdd(a: int, b: nat)
    requires -SSIZE_MAX - 1 <= a <= SSIZE_MAX && b < W64 && a + b <= SSIZE_MAX
    ensures S64(U64(U64(a) + U64(b))) == a + b
  {
    if a >= 0 {
      assert U64(a) == a;
    } else {
      assert U64(a) == a + W64;
      if a + b >= 0 {
        assert (a + b + W64) % W64 == a + b;
      }
    }
  }

  /** ev_token_bucket_get_tick_ */
  function TickAt(msec: nat, perTick: nat): nat
    requires perTick > 0
  {
    msec / perTick % W32
  }

  /** n_ticks of ev_token_bucket_update_: the difference of the stored ticks. */
  function TickGap(tick: nat, last: nat): nat {
    (tick - last) % W32
  }

  /** The stored ticks wrap around, their difference does not: it is the number of ticks
      that passed, up to INT_MAX. */
  lemma GapIsElapsed(then': nat, now: nat, perTick: nat)
    requires perTick > 0 && then' / perTick <= now / perTick && now / perTick - then' / perTick <= INT_MAX
    ensures TickGap(TickAt(now, perTick), TickAt(then', perTick)) == now / perTick - then' / perTick
  {
    WrapGap(then' / perTick, now / perTick);
  }

  lemma WrapGap(then': nat, now: nat)
    requires then' <= now && now - then' <= INT_MAX
    ensures TickGap(now % W32, then' % W32) == now - then'
  {
    var a, b := now % W32, then' % W32;
    var x, y := now / W32, then' / W32;
    assert now == x * W32 + a && then' == y * W32 + b;
    assert a - b == (now - then') - (x - y) * W32;
    ModShift(now - then', x - y);
  }

  lemma ModShift(g: nat, k: int)
    requires g < W32
    ensures (g - k * W32) % W32 == g
    decreases if k < 0 then -k else k
  {
    if k > 0 {
      ModShift(g, k - 1);
      ModStep(g - (k - 1) * W32);
    } else if k < 0 {
      ModShift(g, k + 1);
      ModStep(g - k * W32);
    }
  }

  lemma ModStep(a: int)
    ensures (a - W32) % W32 == a % W32
  {
  }

  // ------------------------------------------------------------ how much a window lets through

  /** What can happen to a bucket: bytes are charged, or ticks pass. */
  datatype Event = Spend(bytes: nat) | Ticks(n: nat)

  /** bufferevent_get_rlim_max_ for a bucket of its own. */
  function Allowance(limit: int): nat {
    if limit < 0 then 0 else limit
  }

  function Step(limit: int, c: Cfg, e: Event): int {
    match e
    case Spend(bytes) => limit - bytes
    case Ticks(n) => Refilled(limit, c, n)
  }

  function After(limit: int, c: Cfg, es: seq<Event>): int
    decreases es
  {
    if es == [] then limit else After(Step(limit, c, es[0]), c, es[1..])
  }

  /** Every charge is within what was allowed at its time. */
  predicate Modest(limit: int, c: Cfg, es: seq<Event>)
    decreases es
  {
    es != [] ==> (es[0].Spend? ==> es[0].bytes <= Allowance(limit)) && Modest(Step(limit, c, es[0]), c, es[1..])
  }

  function Spent(es: seq<Event>): nat {
    if es == [] then 0 else (if es[0].Spend? then es[0].bytes else 0) + Spent(es[1..])
  }

  function Elapsed(es: seq<Event>): nat {
    if es == [] then 0 else (if es[0].Ticks? then es[0].n else 0) + Elapsed(es[1..])
  }

  /** Any window of a run, from any state the bucket can be in: over k ticks at most
      maximum + k * rate bytes. */
  lemma {:induction false} Window(limit: int, c: Cfg, es: seq<Event>)
    requires CfgOk(c) && limit <= c.maximum && Modest(limit, c, es)
    ensures After(limit, c, es) <= c.maximum
    ensures Spent(es) <= Allowance(limit) - Allowance(After(limit, c, es)) + Elapsed(es) * c.rate
    ensures Spent(es) <= c.maximum + Elapsed(es) * c.rate
    decreases es
  {
    if es != [] {
      var next, rest := Step(limit, c, es[0]), es[1..];
      if es[0].Ticks? {
        TicksAllow(limit, c, es[0].n);
        Distribute(es[0].n, Elapsed(rest), c.rate);
      }
      Window(next, c, rest);
    }
  }

  lemma TicksAllow(limit: int, c: Cfg, n: nat)
    requires limit <= c.maximum
    ensures limit <= Refilled(limit, c, n) <= c.maximum
    ensures Allowance(Refilled(limit, c, n)) <= Allowance(limit) + n * c.rate
  {
    assert n * c.rate >= 0;
  }

  lemma Distribute(a: nat, b: nat, r: nat)
    ensures (a + b) * r == a * r + b * r
  {
  }

  // ------------------------------------------------------------ a bufferevent with its own bucket

  /** How many ticks a bucket at -d needs: ceil((d + 1) / rate). */
  function TicksNeeded(d: nat, rate: nat): nat
    requires rate > 0
  {
    (d + rate) / rate
  }

  /** A bucket at -d has something to give after ceil((d + 1) / rate) ticks, and not
      before. */
  lemma Resumes(d: nat, c: Cfg, n: nat)
    requires CfgOk(c)
    ensures Refilled(0 - d, c, n) > 0 <==> n >= TicksNeeded(d, c.rate)
  {
    DivLess(d + c.rate, c.rate, n + 1);
    assert c.rate * (n + 1) == n * c.rate + c.rate;
  }

  /** The state of a bufferevent's own bucket; the refill is pending while a direction is
      suspended. */
  datatype Meter = Meter(cfg: Option<PerDir<Cfg>>, limit: PerDir<int>, last: nat, bw: PerDir<bool>)

  function Ticked(m: Meter, tick: nat): Meter
    requires m.cfg.Some?
  {
    var n, c := TickGap(tick, m.last), m.cfg.value;
    if 1 <= n <= INT_MAX
    then m.(limit := PerDir(Refilled(m.limit.read, c.read, n), Refilled(m.limit.write, c.write, n)), last := tick)
    else m
  }

  function Drawn(m: Meter, d: Dir, bytes: nat): Meter {
    if m.cfg.None? then m
    else
      var l := m.limit.Get(d) - bytes;
      m.(limit := m.limit.With(d, l), bw := m.bw.With(d, l <= 0))
  }

  /** A direction goes on once its bucket holds something. */
  function Resumed(m: Meter): Meter {
    m.(bw := PerDir(m.bw.read && m.limit.read <= 0, m.bw.write && m.limit.write <= 0))
  }

  /** A new configuration: an old bucket is cut to the new maximum, a new one starts full of
      one tick's worth. */
  function Reconfigured(m: Meter, c: Option<PerDir<Cfg>>, tick: nat): Meter {
    match c
    case None => m.(cfg := None, bw := PerDir(false, false))
    case Some(v) =>
      if m.cfg == c then m
      else
        var l := if m.cfg.Some? then PerDir(Clip(m.limit.read, v.read.maximum), Clip(m.limit.write, v.write.maximum))
                 else PerDir(v.read.rate, v.write.rate);
        Meter(c, l, if m.cfg.Some? then m.last else tick, PerDir(l.read <= 0, l.write <= 0))
  }

  class Limited {
    var cfg: Option<PerDir<Cfg>>
    var limit: PerDir<int>
    var last: nat
    /** BEV_SUSPEND_BW among the suspend reasons of each direction. */
    var bw: PerDir<bool>
    /** refill_bucket_event is pending. */
    var refill: bool

    /** No lost wakeup: an exhausted direction is suspended, and while one is suspended
        the refill is on its way. */
    ghost predicate Valid()
      reads this
    {
      && last < W32
      && (cfg.Some? ==> forall d :: CfgOk(cfg.value.Get(d)) && InRange(limit.Get(d), cfg.value.Get(d)))
      && (cfg.Some? ==> forall d :: limit.Get(d) <= 0 ==> bw.Get(d))
      && (refill <==> bw.Get(Read) || bw.Get(Write))
      && (cfg.None? ==> !refill)
    }

    ghost function View(): Meter
      reads this
    {
      Meter(cfg, limit, last, bw)
    }

    constructor ()
      ensures Valid() && cfg == None
    {
      cfg, limit, last := None, PerDir(0, 0), 0;
      bw, refill := PerDir(false, false), false;
    }

    /** ev_token_bucket_update_ */
    method Update(tick: nat)
      requires Valid() && cfg.Some? && tick < W32
      modifies this`limit, this`last
      ensures Valid() && View() == Ticked(old(View()), tick)
      ensures var n := TickGap(tick, old(last));
        if 1 <= n <= INT_MAX then
          last == tick && forall d :: limit.Get(d) == Refilled(old(limit).Get(d), cfg.value.Get(d), n)
        else last == old(last) && limit == old(limit)
    {
      hide Refilled;
      var n := TickGap(tick, last);
      if n == 0 || n > INT_MAX {
        return;
      }
      var c := cfg.value;
      assert CfgOk(c.Get(Read)) && CfgOk(c.Get(Write));
      assert InRange(limit.Get(Read), c.Get(Read)) && InRange(limit.Get(Write), c.Get(Write));
      var r := UpdateLimit(limit.read, c.read, n);
      var w := UpdateLimit(limit.write, c.write, n);
      TicksAllow(limit.read, c.read, n);
      TicksAllow(limit.write, c.write, n);
      assert limit.Get(Read) == limit.read && limit.Get(Write) == limit.write;
      limit, last := PerDir(r, w), tick;
    }

    /** bufferevent_get_rlim_max_ without a group. */
    method GetMax(d: Dir, tick: nat) returns (max: nat)
      requires Valid() && cfg.Some? && tick < W32
      modifies this`limit, this`last
      ensures Valid() && max == Allowance(limit.Get(d)) && View() == Ticked(old(View()), tick)
      ensures bw.Get(d) || max > 0
      ensures var n := TickGap(tick, old(last));
        if 1 <= n <= INT_MAX then
          last == tick && forall e :: limit.Get(e) == Refilled(old(limit).Get(e), cfg.value.Get(e), n)
        else last == old(last) && limit == old(limit)
    {
      hide Refilled;
      Update(tick);
      max := Allowance(limit.Get(d));
    }

    /** bufferevent_decrement_read_buckets_ and the write twin. */
    method Decrement(d: Dir, bytes: nat)
      requires Valid() && (cfg.Some? ==> limit.Get(d) - bytes >= -SSIZE_MAX - 1)
      modifies this`limit, this`bw, this`refill
      ensures Valid() && View() == Drawn(old(View()), d, bytes)
      ensures cfg.None? ==> limit == old(limit) && bw == old(bw)
      ensures cfg.Some? ==> limit == old(limit).With(d, old(limit).Get(d) - bytes)
      ensures cfg.Some? ==> bw == old(bw).With(d, limit.Get(d) <= 0)
    {
      if cfg.None? {
        return;
      }
      limit := limit.With(d, limit.Get(d) - bytes);
      if limit.Get(d) <= 0 {
        bw := bw.With(d, true);
        refill := true;
      } else if bw.Get(d) {
        if !bw.Get(if d == Read then Write else Read) {
          refill := false;
        }
        bw := bw.With(d, false);
      }
    }

    /** bev_refill_callback_: the event fired, and is added again while a direction is
        still exhausted. */
    method Refill(tick: nat)
      requires Valid() && refill && tick < W32
      modifies this`limit, this`last, this`bw, this`refill
      ensures Valid() && old(cfg).Some? && View() == Resumed(Ticked(old(View()), tick))
      ensures cfg.Some? && forall d :: bw.Get(d) <==> old(bw).Get(d) && limit.Get(d) <= 0
      ensures var n := TickGap(tick, old(last));
        if 1 <= n <= INT_MAX then
          && last == tick
          && forall d ::
               && limit.Get(d) == Refilled(old(limit).Get(d), cfg.value.Get(d), n)
               && (old(limit).Get(d) <= 0 ==> (bw.Get(d) <==> n < TicksNeeded(-old(limit).Get(d), cfg.value.Get(d).rate)))
        else last == old(last) && limit == old(limit)
    {
      hide Refilled, TicksNeeded;
      forall d | cfg.Some? && limit.Get(d) <= 0
        ensures forall n: nat :: Refilled(limit.Get(d), cfg.value.Get(d), n) > 0 <==>
          n >= TicksNeeded(-limit.Get(d), cfg.value.Get(d).rate)
      {
        forall n: nat
          ensures Refilled(limit.Get(d), cfg.value.Get(d), n) > 0 <==> n >= TicksNeeded(-limit.Get(d), cfg.value.Get(d).rate)
        {
          Resumes(-limit.Get(d), cfg.value.Get(d), n);
        }
      }
      Update(tick);
      var again := false;
      if bw.read {
        if limit.read > 0 {
          bw := bw.With(Read, false);
        } else {
          again := true;
        }
      }
      if bw.write {
        if limit.write > 0 {
          bw := bw.With(Write, false);
        } else {
          again := true;
        }
      }
      refill := again;
    }

    /** bufferevent_set_rate_limit */
    method SetRateLimit(c: Option<PerDir<Cfg>>, tick: nat)
      requires Valid() && tick < W32 && (c.Some? ==> CfgOk(c.value.read) && CfgOk(c.value.write))
      modifies this
      ensures Valid() && cfg == c && View() == Reconfigured(old(View()), c, tick)
      ensures c.Some? ==> forall d :: bw.Get(d) <==> if c == old(cfg) then old(bw).Get(d) else limit.Get(d) <= 0
      ensures c.None? ==> (forall d :: !bw.Get(d)) && limit == old(limit)
      ensures c.Some? ==> forall d ::
        limit.Get(d) == if c == old(cfg) then old(limit).Get(d)
                        else if old(cfg).Some? then Clip(old(limit).Get(d), c.value.Get(d).maximum)
                        else c.value.Get(d).rate
      ensures c.None? || old(cfg).Some? ==> last == old(last)
    {
      if c.None? {
        cfg, bw, refill := None, PerDir(false, false), false;
        return;
      }
      if cfg == c {
        return;
      }
      if cfg.Some? {
        limit := PerDir(Clip(limit.read, c.value.read.maximum), Clip(limit.write, c.value.write.maximum));
      } else {
        limit, last := PerDir(c.value.read.rate, c.value.write.rate), tick;
      }
      cfg := c;
      refill := false;
      bw := PerDir(limit.read <= 0, limit.write <= 0);
      if bw.read || bw.write {
        refill := true;
      }
    }
  }

  /** A run of charges within the allowance and of passing ticks: the bucket does what After
      says, so no window lets through more than Window says. */
  method RunBucket(b: Limited, d: Dir, es: seq<Event>)
    requires b.Valid() && b.cfg.Some? && Modest(b.limit.Get(d), b.cfg.value.Get(d), es)
    requires forall i :: 0 <= i < |es| && es[i].Ticks? ==> es[i].n <= INT_MAX
    modifies b
    ensures b.Valid() && b.cfg == old(b.cfg)
    ensures b.limit.Get(d) == After(old(b.limit).Get(d), b.cfg.value.Get(d), es)
    ensures Spent(es) <= b.cfg.value.Get(d).maximum + Elapsed(es) * b.cfg.value.Get(d).rate
  {
    hide After, Modest, Refilled, Spent, Elapsed, Step;
    ghost var c := b.cfg.value.Get(d);
    assert CfgOk(c) && InRange(b.limit.Get(d), c);
    Window(b.limit.Get(d), c, es);
    assert es[0..] == es;
    for i := 0 to |es|
      invariant b.Valid() && b.cfg == old(b.cfg)
      invariant Modest(b.limit.Get(d), c, es[i..])
      invariant After(b.limit.Get(d), c, es[i..]) == After(old(b.limit).Get(d), c, es)
    {
      RunOne(b.limit.Get(d), c, es[i..]);
      assert es[i..][0] == es[i] && es[i..][1..] == es[i + 1..];
      RunEvent(b, d, es[i]);
    }
    AfterNone(b.limit.Get(d), c, es);
  }

  method RunEvent(b: Limited, d: Dir, e: Event)
    requires b.Valid() && b.cfg.Some? && (if e.Spend? then e.bytes <= Allowance(b.limit.Get(d)) else e.n <= INT_MAX)
    modifies b
    ensures b.Valid() && b.cfg == old(b.cfg)
    ensures b.limit.Get(d) == Step(old(b.limit).Get(d), b.cfg.value.Get(d), e)
  {
    hide Refilled;
    assert InRange(b.limit.Get(d), b.cfg.value.Get(d));
    match e {
      case Spend(bytes) =>
        b.Decrement(d, bytes);
      case Ticks(n) =>
        WrapGap(b.last, b.last + n);
        NoTicks(b.limit.Get(d), b.cfg.value.Get(d));
        b.Update((b.last + n) % W32);
    }
  }

  lemma RunOne(limit: int, c: Cfg, es: seq<Event>)
    requires es != [] && Modest(limit, c, es)
    ensures es[0].Spend? ==> es[0].bytes <= Allowance(limit)
    ensures Modest(Step(limit, c, es[0]), c, es[1..]) && After(limit, c, es) == After(Step(limit, c, es[0]), c, es[1..])
  {
  }

  lemma NoTicks(limit: int, c: Cfg)
    requires limit <= c.maximum
    ensures Refilled(limit, c, 0) == limit
  {
  }

  lemma AfterNone(limit: int, c: Cfg, es: seq<Event>)
    ensures es[|es|..] == [] && After(limit, c, []) == limit
  {
  }

  function Clip(limit: int, max: nat): int {
    if limit > max then max else limit
  }

  // ------------------------------------------------------------ resuming, over any run

  datatype LimOp =
    | OpGetMax(d: Dir, tick: nat)
    | OpDecrement(d: Dir, bytes: nat)
    | OpRefillSelf(tick: nat)
    | OpSetRateLimit(c: Option<PerDir<Cfg>>, tick: nat)

  function LimStep(m: Meter, op: LimOp): Meter {
    match op
    case OpGetMax(_, tick) => if m.cfg.Some? then Ticked(m, tick % W32) else m
    case OpDecrement(d, bytes) => if m.cfg.None? || m.limit.Get(d) - bytes >= -SSIZE_MAX - 1 then Drawn(m, d, bytes) else m
    case OpRefillSelf(tick) => if m.cfg.Some? && (m.bw.read || m.bw.write) then Resumed(Ticked(m, tick % W32)) else m
    case OpSetRateLimit(c, tick) => Reconfigured(m, c, tick % W32)
  }

  function LimAfter(m: Meter, ops: seq<LimOp>): Meter {
    if ops == [] then m else LimStep(LimAfter(m, ops[..|ops| - 1]), ops[|ops| - 1])
  }

  lemma LimNext(m: Meter, ops: seq<LimOp>, i: nat)
    requires i < |ops|
    ensures LimAfter(m, ops[..0]) == m && LimAfter(m, ops[..i + 1]) == LimStep(LimAfter(m, ops[..i]), ops[i])
  {
    hide LimStep;
    assert ops[..i + 1][..i] == ops[..i];
  }

  /** Refills add up: what two gaps make of a limit, their sum makes of it. */
  lemma Compose(limit: int, c: Cfg, a: nat, b: nat)
    ensures Refilled(Refilled(limit, c, a), c, b) == Refilled(limit, c, a + b)
  {
    Distribute(a, b, c.rate);
    assert b * c.rate >= 0;
  }

  function Low(x: int): int {
    if x < 1 then x else 1
  }

  /** n ticks at some rate or a faster one bring a limit that much up, or above zero. */
  lemma Accrues(limit: int, c: Cfg, n: nat, rate: nat)
    requires CfgOk(c) && rate <= c.rate
    ensures Refilled(limit, c, n) >= Low(limit + n * rate)
  {
    assert n * rate <= n * c.rate;
  }

  lemma AccruesMore(l0: int, n0: nat, s0: nat, l1: int, n1: nat, l2: int, s1: nat, rate: nat)
    requires l1 + s0 >= Low(l0 + n0 * rate) && l2 + s1 >= Low(l1 + n1 * rate)
    ensures l2 + (s0 + s1) >= Low(l0 + (n0 + n1) * rate)
  {
    Distribute(n0, n1, rate);
    assert n1 * rate >= 0;
  }

  /** Every configuration that is set refills direction d at least at this rate. */
  predicate Paced(op: LimOp, d: Dir, rate: nat) {
    op.OpSetRateLimit? && op.c.Some? ==>
      CfgOk(op.c.value.read) && CfgOk(op.c.value.write) && op.c.value.Get(d).rate >= rate
  }

  /** A call that neither charges direction d nor changes the configuration. */
  predicate Plain(op: LimOp, d: Dir) {
    op.OpGetMax? || op.OpRefillSelf? || (op.OpDecrement? && op.d != d)
  }

  /** A call that takes the limit away. */
  predicate Lifts(op: LimOp) {
    op.OpSetRateLimit? && op.c.None?
  }

  /** The bytes that the calls charge to direction d. */
  function Charged(ops: seq<LimOp>, d: Dir): nat {
    if ops == [] then 0
    else
      var last := ops[|ops| - 1];
      Charged(ops[..|ops| - 1], d) + if last.OpDecrement? && last.d == d then last.bytes else 0
  }

  lemma ChargedStep(ops: seq<LimOp>, d: Dir, i: nat)
    requires i < |ops|
    ensures Charged(ops[..i + 1], d) == Charged(ops[..i], d) + Charged([ops[i]], d)
  {
    assert ops[..i + 1][..i] == ops[..i];
    assert [ops[i]][..0] == [];
  }

  lemma ChargedOne(op: LimOp, d: Dir)
    ensures Charged([op], d) == if op.OpDecrement? && op.d == d then op.bytes else 0
  {
    assert [op][..0] == [];
  }

  /** Gaps between stored ticks add up, modulo their 32 bits. */
  lemma GapsAdd(a: nat, b: nat, c: nat, n: nat)
    requires TickGap(b, a) == n % W32
    ensures TickGap(c, a) == (n + TickGap(c, b)) % W32
  {
    var q1, q2, q3 := (b - a) / W32, n / W32, (c - b) / W32;
    var r := n % W32 + TickGap(c, b);
    assert c - a == r + (q1 + q3) * W32;
    assert n + TickGap(c, b) == r + q2 * W32;
    ModShifts(r, q1 + q3);
    ModShifts(r, q2);
  }

  lemma ModShifts(x: int, k: int)
    ensures (x + k * W32) % W32 == x % W32
    decreases if k < 0 then -k else k
  {
    if k > 0 {
      ModShifts(x, k - 1);
      ModStep(x + k * W32);
    } else if k < 0 {
      ModShifts(x, k + 1);
      ModStep(x + (k + 1) * W32);
    }
  }

  /** The ticks that a call at this time credits. */
  function Credited(tick: nat, last: nat): nat {
    var n := TickGap(tick, last);
    if n <= INT_MAX then n else 0
  }

  lemma CreditedRefill(limit: int, c: Cfg, tick: nat, last: nat)
    requires limit <= c.maximum
    ensures var n := TickGap(tick, last);
      Refilled(limit, c, Credited(tick, last)) == if 1 <= n <= INT_MAX then Refilled(limit, c, n) else limit
  {
    NoTicks(limit, c);
  }

  /** One call; n is the number of ticks it credited, spent the bytes charged to d. */
  method RunLimOp(b: Limited, d: Dir, op: LimOp, rate: nat) returns (n: nat, spent: nat)
    requires b.Valid() && (b.cfg.Some? ==> b.cfg.value.Get(d).rate >= rate) && Paced(op, d, rate)
    modifies b
    ensures b.Valid() && (b.cfg.Some? ==> b.cfg.value.Get(d).rate >= rate) && b.View() == LimStep(old(b.View()), op)
    ensures n <= INT_MAX && spent <= Charged([op], d)
    ensures b.limit.Get(d) + spent >= Low(old(b.limit).Get(d) + n * rate)
    ensures old(b.cfg).Some? && !Lifts(op) ==> b.cfg.Some? && TickGap(b.last, old(b.last)) == n
    ensures op.OpRefillSelf? && b.bw.Get(d) ==> b.cfg.Some? && b.limit.Get(d) <= 0
    ensures Plain(op, d) ==> b.cfg == old(b.cfg) && spent == 0
    ensures Plain(op, d) && b.cfg.Some? ==> b.limit.Get(d) == Refilled(old(b.limit).Get(d), b.cfg.value.Get(d), n)
  {
    hide Refilled, TickGap, TicksNeeded, Charged, Ticked, Resumed, Reconfigured, Drawn;
    n, spent := 0, 0;
    RunStart([], d, b.last);
    ChargedOne(op, d);
    ghost var l, c := b.limit.Get(d), if b.cfg.Some? then b.cfg.value.Get(d) else Cfg(rate, rate);
    assert b.cfg.Some? ==> CfgOk(c) && InRange(l, c);
    if b.cfg.Some? {
      NoTicks(l, c);
    }
    assert 0 * rate == 0;
    match op {
      case OpGetMax(e, tick) =>
        if b.cfg.Some? {
          n := Credited(tick % W32, b.last);
          CreditedRefill(l, c, tick % W32, b.last);
          Accrues(l, c, n, rate);
          var max := b.GetMax(e, tick % W32);
        }
      case OpDecrement(e, bytes) =>
        if b.cfg.None? || b.limit.Get(e) - bytes >= -SSIZE_MAX - 1 {
          spent := if e == d && b.cfg.Some? then bytes else 0;
          b.Decrement(e, bytes);
        }
      case OpRefillSelf(tick) =>
        if b.refill {
          n := Credited(tick % W32, b.last);
          CreditedRefill(l, c, tick % W32, b.last);
          Accrues(l, c, n, rate);
          b.Refill(tick % W32);
        }
      case OpSetRateLimit(cfg, tick) =>
        b.SetRateLimit(cfg, tick % W32);
    }
  }

  /** Any run of a bufferevent with its own bucket.  However the refills come and whatever
      is charged or reconfigured in between, the limit gains the ticks credited at the
      slowest rate set, less what was spent, or is above zero.  So a direction at -debt is
      no longer suspended after a refill once ceil((debt + 1) / rate) ticks are credited;
      and, if nothing charges it or changes the configuration, not before. */
  method RunLimited(b: Limited, d: Dir, ops: seq<LimOp>, rate: nat) returns (n: nat, spent: nat)
    requires b.Valid() && rate > 0 && (b.cfg.Some? ==> b.cfg.value.Get(d).rate >= rate)
    requires forall i :: 0 <= i < |ops| ==> Paced(ops[i], d, rate)
    modifies b
    ensures b.Valid() && spent <= Charged(ops, d) && b.View() == LimAfter(old(b.View()), ops)
    ensures old(b.cfg).Some? && NoneLifts(ops) ==> TickGap(b.last, old(b.last)) == n % W32
    ensures b.limit.Get(d) + spent >= Low(old(b.limit).Get(d) + n * rate)
    ensures EndsInRefill(ops) && Charged(ops, d) == 0 && old(b.limit).Get(d) <= 0 ==>
      n >= TicksNeeded(-old(b.limit).Get(d), rate) ==> !b.bw.Get(d)
    ensures old(b.cfg).Some? && AllPlain(ops, d) ==>
      b.cfg == old(b.cfg) && b.limit.Get(d) == Refilled(old(b.limit).Get(d), b.cfg.value.Get(d), n)
    ensures old(b.cfg).Some? && AllPlain(ops, d) && old(b.limit).Get(d) <= 0 ==>
      n < TicksNeeded(-old(b.limit).Get(d), old(b.cfg).value.Get(d).rate) ==> b.bw.Get(d)
  {
    hide Refilled, TicksNeeded, TickGap, Charged, LimStep;
    n, spent := 0, 0;
    ghost var m0 := b.View();
    ghost var l0, tick0 := b.limit.Get(d), b.last;
    assert 0 * rate == 0;
    if b.cfg.Some? {
      assert InRange(l0, b.cfg.value.Get(d));
      NoTicks(l0, b.cfg.value.Get(d));
    }
    RunStart(ops, d, tick0);
    for i := 0 to |ops|
      invariant b.Valid() && (b.cfg.Some? ==> b.cfg.value.Get(d).rate >= rate) && spent <= Charged(ops[..i], d)
      invariant b.View() == LimAfter(m0, ops[..i])
      invariant old(b.cfg).Some? && NoneLifts(ops[..i]) ==> b.cfg.Some? && TickGap(b.last, tick0) == n % W32
      invariant b.limit.Get(d) + spent >= Low(l0 + n * rate)
      invariant EndsInRefill(ops[..i]) && b.bw.Get(d) ==> b.cfg.Some? && b.limit.Get(d) <= 0
      invariant old(b.cfg).Some? && AllPlain(ops[..i], d) ==>
        b.cfg == old(b.cfg) && b.limit.Get(d) == Refilled(l0, b.cfg.value.Get(d), n)
    {
      ghost var l1, tick1 := b.limit.Get(d), b.last;
      LimNext(m0, ops, i);
      var more, cost := RunLimOp(b, d, ops[i], rate);
      AccruesMore(l0, n, spent, l1, more, b.limit.Get(d), cost, rate);
      ChargedStep(ops, d, i);
      RunSnoc(ops, i, d);
      if old(b.cfg).Some? && NoneLifts(ops[..i + 1]) {
        GapsAdd(tick0, tick1, b.last, n);
      }
      if b.cfg.Some? {
        Compose(l0, b.cfg.value.Get(d), n, more);
      }
      n, spent := n + more, spent + cost;
    }
    assert ops[..|ops|] == ops;
    if l0 <= 0 {
      Enough(-l0, n, rate);
      if old(b.cfg).Some? {
        Resumes(-l0, old(b.cfg).value.Get(d), n);
      }
    }
  }

  predicate EndsInRefill(ops: seq<LimOp>) {
    ops != [] && ops[|ops| - 1].OpRefillSelf?
  }

  predicate NoneLifts(ops: seq<LimOp>) {
    forall i :: 0 <= i < |ops| ==> !Lifts(ops[i])
  }

  predicate AllPlain(ops: seq<LimOp>, d: Dir) {
    forall i :: 0 <= i < |ops| ==> Plain(ops[i], d)
  }

  lemma RunStart(ops: seq<LimOp>, d: Dir, tick: nat)
    ensures Charged(ops[..0], d) == 0 && TickGap(tick, tick) == 0
  {
  }

  lemma RunSnoc(ops: seq<LimOp>, i: nat, d: Dir)
    requires i < |ops|
    ensures NoneLifts(ops[..i + 1]) <==> NoneLifts(ops[..i]) && !Lifts(ops[i])
    ensures AllPlain(ops[..i + 1], d) <==> AllPlain(ops[..i], d) && Plain(ops[i], d)
    ensures EndsInRefill(ops[..i + 1]) <==> ops[i].OpRefillSelf?
  {
    assert ops[..i + 1] == ops[..i] + [ops[i]];
  }

  lemma Enough(debt: nat, n: nat, rate: nat)
    requires rate > 0
    ensures n >= TicksNeeded(debt, rate) <==> n * rate >= debt + 1
  {
    DivLess(debt + rate, rate, n + 1);
    assert rate * (n + 1) == n * rate + rate;
  }

  // ------------------------------------------------------------ groups

  /** The members visited whose lock was taken have lost their flag; again says that some
      lock could not be taken. */
  ghost predicate Swept(visited: seq<nat>, locked: set<nat>, was: set<nat>, flagged: set<nat>, again: bool) {
    && (forall m :: m in flagged <==> m in was && !(m in visited && m in locked))
    && (again <==> exists m :: m in visited && m !in locked)
  }

  lemma SweptStep(visited: seq<nat>, locked: set<nat>, was: set<nat>, flagged: set<nat>, again: bool, m: nat)
    requires Swept(visited, locked, was, flagged, again)
    ensures m in locked ==> Swept(visited + [m], locked, was, flagged - {m}, again)
    ensures m !in locked ==> Swept(visited + [m], locked, was, flagged, true)
  {
    assert forall x :: x in visited + [m] <==> x in visited || x == m;
  }

  lemma SweptAll(visited: seq<nat>, members: seq<nat>, start: nat, locked: set<nat>, was: set<nat>,
                 flagged: set<nat>, again: bool)
    requires Swept(visited, locked, was, flagged, again)
    requires start <= |members| && visited == members[start..] + members[..start]
    ensures Swept(members, locked, was, flagged, again)
    ensures multiset(visited) == multiset(members)
  {
    assert members == members[..start] + members[start..];
    assert forall m :: m in visited <==> m in members;
  }

  /** FOREACH_RANDOM_ORDER: every member exactly once, from position start to the end and
      then from the front. */
  method Sweep(members: seq<nat>, start: nat, locked: set<nat>, was: set<nat>)
    returns (flagged: set<nat>, again: bool, visited: seq<nat>)
    requires start < |members| || (members == [] && start == 0)
    ensures Swept(members, locked, was, flagged, again)
    ensures visited == members[start..] + members[..start] && multiset(visited) == multiset(members)
  {
    hide Swept;
    flagged, again, visited := was, false, [];
    assert Swept(visited, locked, was, flagged, again) by {
      SweptNone(locked, was);
    }
    for i := start to |members|
      invariant visited == members[start..i] && Swept(visited, locked, was, flagged, again)
    {
      SweptStep(visited, locked, was, flagged, again, members[i]);
      if members[i] in locked {
        flagged := flagged - {members[i]};
      } else {
        again := true;
      }
      visited := visited + [members[i]];
    }
    for i := 0 to start
      invariant visited == members[start..] + members[..i] && Swept(visited, locked, was, flagged, again)
    {
      SweptStep(visited, locked, was, flagged, again, members[i]);
      if members[i] in locked {
        flagged := flagged - {members[i]};
      } else {
        again := true;
      }
      visited := visited + [members[i]];
    }
    SweptAll(visited, members, start, locked, was, flagged, again);
  }

  lemma SweptNone(locked: set<nat>, was: set<nat>)
    ensures Swept([], locked, was, was, false)
  {
  }

  /** One direction of a group.  flagged are the members that carry BEV_SUSPEND_BW_GROUP;
      warned are members being added, their lock held, that have seen the group suspended
      and have yet to suspend themselves. */
  datatype Side = Side(limit: int, suspended: bool, pending: bool, flagged: set<nat>, warned: set<nat>)

  /** min_share; top is the largest it has been, lax says whether it has ever been 0. */
  datatype Share = Share(min: nat, top: nat, lax: bool) {
    predicate Ok() {
      min <= top && 1 <= top && (min == 0 ==> lax)
    }

    /** How far below zero a bucket can be under these shares. */
    function Bottom(): int {
      if lax then 0 - top else 1 - top
    }

    function Set(v: nat): Share {
      Share(v, Max(top, v), lax || v == 0)
    }
  }

  predicate Gives(limit: int, share: Share) {
    limit > 0 || (share.lax && limit == 0)
  }

  /** No lost wakeup: whoever is stopped on account of the group, the group is suspended
      or will try again to unsuspend.  And it is suspended when it has nothing to give,
      except that a minimum share of 0 lets it resume with an empty bucket. */
  predicate SideOk(s: Side, c: Cfg, members: seq<nat>, share: Share, adding: set<nat>) {
    && CfgOk(c) && InRange(s.limit, c) && share.Ok() && share.top <= c.rate
    && (s.flagged != {} || s.warned != {} ==> s.suspended || s.pending)
    && (!s.suspended ==> Gives(s.limit, share))
    && (s.pending ==> !s.suspended)
    && (forall m :: m in s.flagged ==> m in members)
    && s.warned <= adding
  }

  /** A side once suspended: the members whose lock can be taken are told. */
  function Stopped(s: Side, members: seq<nat>, locked: set<nat>): Side {
    s.(suspended := true, pending := false, flagged := s.flagged + set m | m in members && m in locked)
  }

  /** A side once unsuspended: those whose lock can be taken go on, and if there are others
      it will try again. */
  ghost function Released(s: Side, members: seq<nat>, locked: set<nat>): Side {
    s.(suspended := false, pending := exists m :: m in members && m !in locked, flagged := s.flagged - locked)
  }

  /** A side that bytes are charged to. */
  ghost function Paid(s: Side, bytes: nat, members: seq<nat>, locked: set<nat>): Side {
    var t := s.(limit := s.limit - bytes);
    if t.limit <= 0 then Stopped(t, members, locked)
    else if t.suspended then Released(t, members, locked)
    else t
  }

  /** What a member may move, and the side once it has asked. */
  function ShareOf(s: Side, n: nat, share: Share): nat
    requires n > 0
  {
    if s.suspended then 0 else if s.limit / n < share.min then share.min else s.limit / n
  }

  function Asked(s: Side, m: nat): Side {
    if s.suspended then s.(flagged := s.flagged + {m}) else s
  }

  ghost function Used(s: Side, m: nat, want: nat, members: seq<nat>, share: Share, locked: set<nat>): Side
    requires members != []
  {
    var moved := Min(want, ShareOf(s, |members|, share));
    if moved > 0 then Paid(Asked(s, m), moved, members, locked) else Asked(s, m)
  }

  /** A side in the refill callback: n ticks, then another try. */
  ghost function Renewed(s: Side, c: Cfg, n: nat, members: seq<nat>, share: Share, locked: set<nat>): Side {
    var t := if 1 <= n <= INT_MAX then s.(limit := Refilled(s.limit, c, n)) else s;
    Retried(t, members, share, locked)
  }

  ghost function Retried(s: Side, members: seq<nat>, share: Share, locked: set<nat>): Side {
    if s.pending || (s.suspended && s.limit >= share.min) then Released(s, members, locked) else s
  }

  function Warn(s: Side, m: nat): Side {
    if s.suspended then s.(warned := s.warned + {m}) else s
  }

  function Heed(s: Side, m: nat): Side {
    if m in s.warned then s.(flagged := s.flagged + {m}, warned := s.warned - {m}) else s
  }

  function Forget(s: Side, m: nat): Side {
    s.(flagged := s.flagged - {m})
  }

  /** A rate-limit group.  locked stands for the bufferevents whose lock EVLOCK_TRY_LOCK_
      gets; the rest are busy in other threads. */
  class Group {
    var members: seq<nat>
    var cfg: PerDir<Cfg>
    var sides: PerDir<Side>
    var last: nat
    var share: Share
    /** Members whose addition is under way. */
    var adding: set<nat>

    ghost predicate Valid()
      reads this
    {
      && NoDup(members) && (forall m :: m in adding ==> m in members)
      && SideOk(sides.read, cfg.read, members, share, adding)
      && SideOk(sides.write, cfg.write, members, share, adding)
    }

    ghost function View(): Pool
      reads this
    {
      Pool(members, sides, last, share, adding)
    }

    /** bufferevent_rate_limit_group_new */
    constructor (c: PerDir<Cfg>, tick: nat)
      requires CfgOk(c.read) && CfgOk(c.write)
      ensures Valid() && members == [] && adding == {} && cfg == c && Floored(Read) && Floored(Write)
      ensures share.min == share.top == Min(64, Min(c.read.rate, c.write.rate)) && !share.lax
      ensures forall d :: sides.Get(d) == Side(c.Get(d).rate, false, false, {}, {})
    {
      members, cfg, last, adding := [], c, tick, {};
      var min := Min(64, Min(c.read.rate, c.write.rate));
      share := Share(min, min, false);
      sides := PerDir(Side(c.read.rate, false, false, {}, {}), Side(c.write.rate, false, false, {}, {}));
    }

    /** bev_group_suspend_reading_ and its twin, on a side that need not be in order. */
    method Suspend(d: Dir, s: Side, locked: set<nat>)
      requires Valid() && SideOk(s.(suspended := true, pending := false), cfg.Get(d), members, share, adding)
      modifies this`sides
      ensures Valid() && sides == old(sides).With(d, Stopped(s, members, locked))
    {
      sides := sides.With(d, s.(suspended := true, pending := false, flagged := s.flagged + set m | m in members && m in locked));
    }

    /** bev_group_unsuspend_reading_ and its twin. */
    method Unsuspend(d: Dir, start: nat, locked: set<nat>)
      requires Valid() && Gives(sides.Get(d).limit, share) && (start < |members| || (members == [] && start == 0))
      requires locked !! adding
      modifies this`sides
      ensures Valid() && sides == old(sides).With(d, Released(old(sides).Get(d), members, locked))
    {
      hide NoDup;
      var s := sides.Get(d);
      var f, again, visited := Sweep(members, start, locked, s.flagged);
      StillTold(s, cfg.Get(d), members, share, adding, locked, f, again);
      assert f == s.flagged - locked;
      sides := sides.With(d, s.(suspended := false, pending := again, flagged := f));
    }

    /** The charge of bufferevent_decrement_read_buckets_ and its twin. */
    method Charge(d: Dir, bytes: nat, start: nat, locked: set<nat>)
      requires Valid() && sides.Get(d).limit - bytes >= -SSIZE_MAX - 1
      requires start < |members| && locked !! adding
      modifies this`sides
      ensures Valid() && sides == old(sides).With(d, Paid(old(sides).Get(d), bytes, members, locked))
    {
      var s := sides.Get(d).(limit := sides.Get(d).limit - bytes);
      if s.limit <= 0 {
        Suspend(d, s, locked);
      } else {
        sides := sides.With(d, s);
        if s.suspended {
          Unsuspend(d, start, locked);
        }
      }
    }

    /** The group's part of bufferevent_get_rlim_max_. */
    method GetShare(d: Dir, m: nat) returns (n: nat)
      requires Valid() && m in members
      modifies this`sides
      ensures Valid() && sides == old(sides).With(d, Asked(old(sides).Get(d), m))
      ensures n == ShareOf(old(sides).Get(d), |members|, share) && forall e :: sides.Get(e).limit == old(sides).Get(e).limit
    {
      var s := sides.Get(d);
      if s.suspended {
        sides := sides.With(d, s.(flagged := s.flagged + {m}));
        return 0;
      }
      n := s.limit / |members|;
      if n < share.min {
        n := share.min;
      }
    }

    /** ev_token_bucket_update_ for the group. */
    method Tick(tick: nat)
      requires Valid() && tick < W32
      modifies this`sides, this`last
      ensures Valid()
      ensures forall d :: sides.Get(d) == old(sides).Get(d).(limit := sides.Get(d).limit)
      ensures var n := TickGap(tick, old(last));
        if 1 <= n <= INT_MAX then
          && last == tick
          && forall d ::
               && sides.Get(d).limit == Refilled(old(sides).Get(d).limit, cfg.Get(d), n)
               && (n >= 2 && old(Floored(d)) ==> sides.Get(d).limit >= share.min)
        else last == old(last) && sides == old(sides)
      ensures forall d :: old(Floored(d)) ==> Floored(d)
    {
      hide Refilled, NoDup, TickGap;
      var n := TickGap(tick, last);
      if n == 0 || n > INT_MAX {
        return;
      }
      GroupResumes(sides.read.limit, cfg.read, share, n);
      GroupResumes(sides.write.limit, cfg.write, share, n);
      var r := UpdateLimit(sides.read.limit, cfg.read, n);
      var w := UpdateLimit(sides.write.limit, cfg.write, n);
      TicksAllow(sides.read.limit, cfg.read, n);
      TicksAllow(sides.write.limit, cfg.write, n);
      sides, last := PerDir(sides.read.(limit := r), sides.write.(limit := w)), tick;
    }

    /** bev_group_refill_callback_ */
    method Refill(tick: nat, start: nat, locked: set<nat>)
      requires Valid() && tick < W32 && (start < |members| || (members == [] && start == 0)) && locked !! adding
      modifies this`sides, this`last
      ensures Valid()
      ensures var n := TickGap(tick, old(last));
        if 1 <= n <= INT_MAX then
          && last == tick
          && forall d ::
               && sides.Get(d).limit == Refilled(old(sides).Get(d).limit, cfg.Get(d), n)
               && (n >= 2 && old(Floored(d)) ==> !sides.Get(d).suspended)
        else last == old(last) && forall d :: sides.Get(d).limit == old(sides).Get(d).limit
      ensures forall d :: old(Floored(d)) ==> Floored(d)
      ensures forall d :: sides.Get(d).suspended ==>
        old(sides).Get(d).suspended && sides.Get(d).limit < share.min
      ensures forall d, m :: m in sides.Get(d).flagged && m in locked ==> sides.Get(d).suspended
      ensures var n := TickGap(tick, old(last));
        sides == PerDir(Renewed(old(sides).read, cfg.read, n, members, share, locked),
                        Renewed(old(sides).write, cfg.write, n, members, share, locked))
    {
      hide Refilled, NoDup, SideOk, TickGap;
      Tick(tick);
      Retry(Read, start, locked);
      Retry(Write, start, locked);
      assert forall d :: sides.Get(d) == if d == Read then sides.read else sides.write;
    }

    /** bufferevent_add_to_rate_limit_group, up to the release of the group lock; the
        bufferevent's own lock stays held. */
    method AddBegin(m: nat)
      requires Valid() && m !in members
      modifies this`members, this`adding, this`sides
      ensures Valid() && members == [m] + old(members) && adding == old(adding) + {m}
      ensures sides == PerDir(Warn(old(sides).read, m), Warn(old(sides).write, m))
      ensures forall d :: sides.Get(d).limit == old(sides).Get(d).limit
      ensures forall d :: m in sides.Get(d).warned <==> old(sides).Get(d).suspended
    {
      members, adding := [m] + members, adding + {m};
      sides := PerDir(Warn(sides.read, m), Warn(sides.write, m));
    }

    /** The rest of it: the new member suspends itself if it saw the group suspended. */
    method AddEnd(m: nat)
      requires Valid() && m in adding
      modifies this`adding, this`sides
      ensures Valid() && adding == old(adding) - {m}
      ensures sides == PerDir(Heed(old(sides).read, m), Heed(old(sides).write, m))
      ensures forall d :: m in old(sides).Get(d).warned ==> m in sides.Get(d).flagged
      ensures forall d :: sides.Get(d).limit == old(sides).Get(d).limit
    {
      sides := PerDir(Heed(sides.read, m), Heed(sides.write, m));
      adding := adding - {m};
    }

    /** bufferevent_remove_from_rate_limit_group */
    method Remove(m: nat)
      requires Valid() && m in members && m !in adding
      modifies this`members, this`sides
      ensures Valid() && members == Without(old(members), m) && m !in members
      ensures forall x :: x != m ==> (x in members <==> x in old(members))
      ensures sides == PerDir(Forget(old(sides).read, m), Forget(old(sides).write, m))
      ensures forall d :: m !in sides.Get(d).flagged
      ensures forall d :: sides.Get(d).limit == old(sides).Get(d).limit
    {
      WithoutFacts(members, m);
      members := Without(members, m);
      sides := PerDir(sides.read.(flagged := sides.read.flagged - {m}), sides.write.(flagged := sides.write.flagged - {m}));
    }

    /** No group bucket falls below this, as long as members keep to their shares. */
    ghost predicate Floored(d: Dir)
      reads this
    {
      sides.Get(d).limit >= share.Bottom()
    }

    /** The same with the minimum share of the moment. */
    ghost predicate NearFloor(d: Dir)
      reads this
    {
      sides.Get(d).limit >= 1 - share.min
    }

    /** bufferevent_rate_limit_group_set_min_share.  Lowering the share under a bucket in
        debt leaves it below the new floor, exactly when the debt is not below the new
        share. */
    method SetMinShare(v: nat) returns (ok: bool)
      requires Valid()
      modifies this`share
      ensures Valid() && (ok <==> v <= SSIZE_MAX)
      ensures share == if ok then old(share).Set(Min(v, Min(cfg.read.rate, cfg.write.rate))) else old(share)
      ensures forall d :: old(Floored(d)) ==> Floored(d)
      ensures ok ==> forall d :: old(NearFloor(d)) ==> (NearFloor(d) <==> -sides.Get(d).limit < v)
    {
      if v > SSIZE_MAX {
        return false;
      }
      share := share.Set(Min(v, Min(cfg.read.rate, cfg.write.rate)));
      ok := true;
    }

    /** A member moves what it wants, within its share, while nobody else does. */
    method Transfer(d: Dir, m: nat, want: nat, start: nat, locked: set<nat>) returns (moved: nat)
      requires Valid() && m in members && start < |members| && locked !! adding
      modifies this`sides
      ensures Valid() && sides == old(sides).With(d, Used(old(sides).Get(d), m, want, members, share, locked))
      ensures moved == Min(want, ShareOf(old(sides).Get(d), |members|, share))
      ensures sides.Get(d).limit == old(sides).Get(d).limit - moved
      ensures forall e :: old(Floored(e)) ==> Floored(e)
      ensures !old(sides).Get(d).suspended ==> Floored(d)
    {
      var n := GetShare(d, m);
      moved := Min(want, n);
      assert members != [];
      ShareBound(sides.Get(d).limit, |members|);
      if moved > 0 {
        Charge(d, moved, start, locked);
      }
    }

    method Retry(d: Dir, start: nat, locked: set<nat>)
      requires Valid() && (start < |members| || (members == [] && start == 0)) && locked !! adding
      modifies this`sides
      ensures Valid() && sides == old(sides).With(d, Retried(old(sides).Get(d), members, share, locked))
      ensures sides.Get(d).suspended ==> old(sides).Get(d).suspended && sides.Get(d).limit < share.min
      ensures forall m :: m in sides.Get(d).flagged && m in locked ==> sides.Get(d).suspended
    {
      var s := sides.Get(d);
      if s.pending || (s.suspended && s.limit >= share.min) {
        Unsuspend(d, start, locked);
      }
    }
  }

  lemma ShareBound(limit: int, n: nat)
    requires n > 0
    ensures limit >= 0 ==> 0 <= limit / n <= limit
  {
    if limit >= 0 {
      DivLess(limit, n, limit + 1);
      AtLeast(limit + 1, n);
    }
  }

  lemma AtLeast(a: nat, n: nat)
    requires n > 0
    ensures n * a >= a
  {
  }

  /** From its floor a group bucket holds the minimum share within two ticks, so a
      refill then resumes a suspended group. */
  lemma GroupResumes(limit: int, c: Cfg, share: Share, n: nat)
    requires CfgOk(c) && share.Ok() && share.top <= c.rate && limit <= c.maximum
    ensures limit >= share.Bottom() && n >= 2 ==> Refilled(limit, c, n) >= share.min
    ensures limit >= share.Bottom() ==> Refilled(limit, c, n) >= share.Bottom()
  {
    if n >= 2 {
      assert n * c.rate >= 2 * c.rate;
    }
    TicksAllow(limit, c, n);
  }

  /** The floor of the moment is not kept: 127 bytes moved at a share of 64 leave a debt of
      63, and a share of 1 is then below it. */
  method LowerInDebt() returns (g: Group)
    ensures g.Valid() && g.Floored(Read) && !g.NearFloor(Read)
    ensures g.sides.read.limit == -63 && g.share == Share(1, 64, false)
  {
    hide SideOk, NoDup;
    g := new Group(PerDir(Cfg(64, 64), Cfg(64, 64)), 0);
    g.AddBegin(7);
    g.AddEnd(7);
    assert g.members == [7];
    var a := g.Transfer(Read, 7, 63, 0, {7});
    var b := g.Transfer(Read, 7, 64, 0, {7});
    var ok := g.SetMinShare(1);
  }

  lemma StillTold(s: Side, c: Cfg, members: seq<nat>, share: Share, adding: set<nat>, locked: set<nat>, f: set<nat>, again: bool)
    requires SideOk(s, c, members, share, adding) && locked !! adding && Gives(s.limit, share)
    requires (forall m :: m in adding ==> m in members) && Swept(members, locked, s.flagged, f, again)
    ensures SideOk(s.(suspended := false, pending := again, flagged := f), c, members, share, adding)
    ensures forall m :: m in f <==> m in s.flagged && m !in locked
  {
    if f != {} {
      var m :| m in f;
      assert m in members && m !in locked;
    }
    if s.warned != {} {
      var m :| m in s.warned;
      assert m in members && m !in locked;
    }
  }

  // ------------------------------------------------------------ runs of a group

  datatype GroupOp =
    | OpTransfer(d: Dir, m: nat, want: nat, start: nat)
    | OpCharge(d: Dir, bytes: nat, start: nat)
    | OpShare(d: Dir, m: nat)
    | OpRefill(tick: nat, start: nat)
    | OpAddBegin(m: nat)
    | OpAddEnd(m: nat)
    | OpRemove(m: nat)
    | OpMinShare(share: nat)

  /** The shares after a run. */
  function Shares(share: Share, rate: nat, ops: seq<(GroupOp, set<nat>)>): Share {
    if ops == [] then share
    else
      var before, op := Shares(share, rate, ops[..|ops| - 1]), ops[|ops| - 1].0;
      if op.OpMinShare? && op.share <= SSIZE_MAX then before.Set(Min(op.share, rate)) else before
  }

  lemma SharesStep(share: Share, rate: nat, ops: seq<(GroupOp, set<nat>)>, i: nat)
    requires i < |ops|
    ensures Shares(share, rate, ops[..i + 1]) ==
      var before, op := Shares(share, rate, ops[..i]), ops[i].0;
      if op.OpMinShare? && op.share <= SSIZE_MAX then before.Set(Min(op.share, rate)) else before
  {
    assert ops[..i + 1][..i] == ops[..i];
  }

  /** top is the largest of the shares set, lax says whether one of them was 0. */
  lemma {:induction false} SharesTop(share: Share, rate: nat, ops: seq<(GroupOp, set<nat>)>)
    ensures var r := Shares(share, rate, ops);
      && r.top >= share.top
      && (forall i :: 0 <= i < |ops| && ops[i].0.OpMinShare? && ops[i].0.share <= SSIZE_MAX ==> Min(ops[i].0.share, rate) <= r.top)
      && (r.top == share.top || exists i :: 0 <= i < |ops| && ops[i].0.OpMinShare? && ops[i].0.share <= SSIZE_MAX && r.top == Min(ops[i].0.share, rate))
      && (r.lax <==> share.lax || exists i :: 0 <= i < |ops| && ops[i].0.OpMinShare? && ops[i].0.share <= SSIZE_MAX && Min(ops[i].0.share, rate) == 0)
  {
    if ops != [] {
      SharesTop(share, rate, ops[..|ops| - 1]);
      assert ops == ops[..|ops| - 1] + [ops[|ops| - 1]];
    }
  }

  /** The state of a group. */
  datatype Pool = Pool(members: seq<nat>, sides: PerDir<Side>, last: nat, share: Share, adding: set<nat>)

  /** One call, where the locks of the members of locked can be taken. */
  ghost function PoolStep(p: Pool, cfg: PerDir<Cfg>, op: GroupOp, locked: set<nat>): Pool {
    match op
    case OpTransfer(d, m, want, start) =>
      if m in p.members && start < |p.members|
      then p.(sides := p.sides.With(d, Used(p.sides.Get(d), m, want, p.members, p.share, locked))) else p
    case OpCharge(d, bytes, start) =>
      if start < |p.members| && p.sides.Get(d).limit - bytes >= -SSIZE_MAX - 1
      then p.(sides := p.sides.With(d, Paid(p.sides.Get(d), bytes, p.members, locked))) else p
    case OpShare(d, m) =>
      if m in p.members then p.(sides := p.sides.With(d, Asked(p.sides.Get(d), m))) else p
    case OpRefill(tick, _) =>
      var n := TickGap(tick % W32, p.last);
      p.(sides := PerDir(Renewed(p.sides.read, cfg.read, n, p.members, p.share, locked),
                         Renewed(p.sides.write, cfg.write, n, p.members, p.share, locked)),
         last := if 1 <= n <= INT_MAX then tick % W32 else p.last)
    case OpAddBegin(m) =>
      if m in p.members then p
      else p.(members := [m] + p.members, adding := p.adding + {m}, sides := PerDir(Warn(p.sides.read, m), Warn(p.sides.write, m)))
    case OpAddEnd(m) =>
      if m in p.adding then p.(adding := p.adding - {m}, sides := PerDir(Heed(p.sides.read, m), Heed(p.sides.write, m))) else p
    case OpRemove(m) =>
      if m in p.members && m !in p.adding
      then p.(members := Without(p.members, m), sides := PerDir(Forget(p.sides.read, m), Forget(p.sides.write, m))) else p
    case OpMinShare(v) =>
      if v <= SSIZE_MAX then p.(share := p.share.Set(Min(v, Min(cfg.read.rate, cfg.write.rate)))) else p
  }

  /** The group after a run. */
  ghost function PoolAfter(p: Pool, cfg: PerDir<Cfg>, ops: seq<(GroupOp, set<nat>)>): Pool {
    if ops == [] then p
    else
      var q, op := PoolAfter(p, cfg, ops[..|ops| - 1]), ops[|ops| - 1];
      PoolStep(q, cfg, op.0, op.1 - q.adding)
  }

  lemma PoolNext(p: Pool, cfg: PerDir<Cfg>, ops: seq<(GroupOp, set<nat>)>, i: nat)
    requires i < |ops|
    ensures var q := PoolAfter(p, cfg, ops[..i]);
      PoolAfter(p, cfg, ops[..i + 1]) == PoolStep(q, cfg, ops[i].0, ops[i].1 - q.adding)
  {
    hide PoolStep;
    assert ops[..i + 1][..i] == ops[..i];
  }

  lemma PoolNone(p: Pool, cfg: PerDir<Cfg>, ops: seq<(GroupOp, set<nat>)>)
    ensures PoolAfter(p, cfg, ops[..0]) == p
  {
  }

  /** No bytes are charged outside a transfer. */
  predicate WithinShares(ops: seq<(GroupOp, set<nat>)>) {
    forall i :: 0 <= i < |ops| ==> !ops[i].0.OpCharge?
  }

  /** Any run of a group, with any locks failing at any time: a member that is stopped on
      account of the group is waiting for a suspended group, or for one that will try
      again.  And while members keep to their shares, the bucket of either direction is
      above minus the largest minimum share that was set. */
  method RunGroup(g: Group, ops: seq<(GroupOp, set<nat>)>)
    requires g.Valid()
    modifies g
    ensures g.Valid() && g.cfg == old(g.cfg) && g.View() == PoolAfter(old(g.View()), g.cfg, ops)
    ensures forall d :: g.sides.Get(d).flagged != {} ==> g.sides.Get(d).suspended || g.sides.Get(d).pending
    ensures g.share == Shares(old(g.share), Min(g.cfg.read.rate, g.cfg.write.rate), ops)
    ensures WithinShares(ops) ==> forall d :: old(g.Floored(d)) ==> g.Floored(d)
  {
    hide Group.Valid, Shares, PoolAfter, PoolStep;
    ghost var rate, p := Min(g.cfg.read.rate, g.cfg.write.rate), g.View();
    SharesNone(g.share, rate, ops);
    PoolNone(p, g.cfg, ops);
    for i := 0 to |ops|
      invariant g.Valid() && g.cfg == old(g.cfg) && g.share == Shares(old(g.share), rate, ops[..i])
      invariant g.View() == PoolAfter(p, g.cfg, ops[..i])
      invariant WithinShares(ops[..i]) ==> forall d :: old(g.Floored(d)) ==> g.Floored(d)
    {
      SharesStep(old(g.share), rate, ops, i);
      WithinStep(ops, i);
      PoolNext(p, g.cfg, ops, i);
      RunGroupOp(g, ops[i].0, ops[i].1 - g.adding);
    }
    assert ops[..|ops|] == ops;
    Told(g);
  }

  lemma Told(g: Group)
    requires g.Valid()
    ensures forall d :: g.sides.Get(d).flagged != {} ==> g.sides.Get(d).suspended || g.sides.Get(d).pending
  {
  }

  lemma SharesNone(share: Share, rate: nat, ops: seq<(GroupOp, set<nat>)>)
    ensures Shares(share, rate, ops[..0]) == share
  {
  }

  lemma WithinStep(ops: seq<(GroupOp, set<nat>)>, i: nat)
    requires i < |ops|
    ensures WithinShares(ops[..i + 1]) <==> WithinShares(ops[..i]) && !ops[i].0.OpCharge?
  {
    assert ops[..i + 1] == ops[..i] + [ops[i]];
  }

  method RunGroupOp(g: Group, op: GroupOp, locked: set<nat>)
    requires g.Valid() && locked !! g.adding
    modifies g
    ensures g.Valid() && g.cfg == old(g.cfg) && g.View() == PoolStep(old(g.View()), g.cfg, op, locked)
    ensures g.share == if op.OpMinShare? && op.share <= SSIZE_MAX
                       then old(g.share).Set(Min(op.share, Min(g.cfg.read.rate, g.cfg.write.rate))) else old(g.share)
    ensures !op.OpCharge? ==> forall d :: old(g.Floored(d)) ==> g.Floored(d)
  {
    hide NoDup, SideOk, Used, Paid, Asked, Renewed, Warn, Heed, Forget, TickGap;
    match op {
      case OpTransfer(d, m, want, start) =>
        if m in g.members && start < |g.members| {
          var moved := g.Transfer(d, m, want, start, locked);
        }
      case OpCharge(d, bytes, start) =>
        if start < |g.members| && g.sides.Get(d).limit - bytes >= -SSIZE_MAX - 1 {
          g.Charge(d, bytes, start, locked);
        }
      case OpShare(d, m) =>
        if m in g.members {
          var n := g.GetShare(d, m);
        }
      case OpRefill(tick, start) =>
        g.Refill(tick % W32, if g.members == [] then 0 else start % |g.members|, locked);
      case OpAddBegin(m) =>
        if m !in g.members {
          g.AddBegin(m);
        }
      case OpAddEnd(m) =>
        if m in g.adding {
          g.AddEnd(m);
        }
      case OpRemove(m) =>
        if m in g.members && m !in g.adding {
          g.Remove(m);
        }
      case OpMinShare(share) =>
        var ok := g.SetMinShare(share);
    }
  }
}
