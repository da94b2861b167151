/**
  Requests and nameservers of an evdns_base: the inflight buckets, the waiting queue, the
  counters, and the ring of nameservers.
 */
module DnsRequests {
  import opened Bytes
  import opened EventQueues

  /** The transaction id of a request that has none yet. */
  const NO_ID: nat := 0xffff

  /** What transaction_id_pick returns. */
  type TransId = x: nat | x < NO_ID

  /** A request: its transaction id, the nameserver it is assigned to, whether it has been
      sent (tx_count > 0) and whether it is marked to be sent (transmit_me). */
  datatype Req = Req(transId: nat, ns: Option<nat>, sent: bool, marked: bool)

  /** A nameserver: its state, requests_inflight, and the request probing it. */
  datatype Server = Server(up: bool, inflight: int, probe: Option<nat>)

  type Reqs = map<nat, Req>

  type Servers = map<nat, Server>

  // ------------------------------------------------------------ what the lists hold

  /** Bucket i holds exactly the assigned requests whose transaction id falls into it. */
  ghost predicate HoldsBucket(list: seq<nat>, reqs: Reqs, n: nat, i: nat)
    requires n > 0
  {
    NoDup(list) && forall id :: id in list <==> id in reqs && reqs[id].ns.Some? && reqs[id].transId % n == i
  }

  /** The waiting queue holds exactly the requests without a nameserver. */
  ghost predicate HoldsWaiting(list: seq<nat>, reqs: Reqs) {
    NoDup(list) && forall id :: id in list <==> id in reqs && reqs[id].ns.None?
  }

  ghost predicate ListsOk(reqs: Reqs, heads: seq<seq<nat>>, waiting: seq<nat>) {
    && heads != [] && HoldsWaiting(waiting, reqs)
    && (forall i :: 0 <= i < |heads| ==> HoldsBucket(heads[i], reqs, |heads|, i))
  }

  /** The requests assigned to server s. */
  ghost function Of(reqs: Reqs, s: nat): set<nat> {
    set id | id in reqs && reqs[id].ns == Some(s)
  }

  ghost predicate CountsOk(reqs: Reqs, servers: Servers) {
    && (forall s :: s in servers ==> servers[s].inflight == |Of(reqs, s)|)
    && (forall id :: id in reqs && reqs[id].ns.Some? ==> reqs[id].ns.value in servers)
  }

  ghost function UpSet(servers: Servers): set<nat> {
    set s | s in servers && servers[s].up
  }

  ghost predicate RingOk(ring: seq<nat>, servers: Servers, good: int) {
    && NoDup(ring) && (forall s :: s in ring <==> s in servers)
    && good == |UpSet(servers)|
  }

  lemma OfTake(reqs: Reqs, id: nat, s: nat)
    requires id in reqs
    ensures |Of(reqs, s)| == |Of(reqs - {id}, s)| + if reqs[id].ns == Some(s) then 1 else 0
  {
    var rest := Of(reqs - {id}, s);
    if reqs[id].ns == Some(s) {
      assert Of(reqs, s) == rest + {id};
    } else {
      assert Of(reqs, s) == rest;
    }
  }

  lemma OfPut(reqs: Reqs, id: nat, r: Req, s: nat)
    requires id !in reqs
    ensures |Of(reqs[id := r], s)| == |Of(reqs, s)| + if r.ns == Some(s) then 1 else 0
  {
    if r.ns == Some(s) {
      assert Of(reqs[id := r], s) == Of(reqs, s) + {id};
    } else {
      assert Of(reqs[id := r], s) == Of(reqs, s);
    }
  }

  /** requests_inflight of the server a request belongs to changes by k. */
  function Charge(servers: Servers, ns: Option<nat>, k: int): Servers
    requires ns.Some? ==> ns.value in servers
  {
    match ns
    case None => servers
    case Some(s) => servers[s := servers[s].(inflight := servers[s].inflight + k)]
  }

  lemma ChargeTake(reqs: Reqs, servers: Servers, id: nat)
    requires CountsOk(reqs, servers) && id in reqs
    ensures reqs[id].ns.Some? ==> reqs[id].ns.value in servers && servers[reqs[id].ns.value].inflight > 0
    ensures CountsOk(reqs - {id}, Charge(servers, reqs[id].ns, -1))
  {
    hide Of;
    var servers' := Charge(servers, reqs[id].ns, -1);
    forall s | s in servers'
      ensures servers'[s].inflight == |Of(reqs - {id}, s)|
      ensures s in servers && reqs[id].ns == Some(s) ==> servers[s].inflight > 0
    {
      OfTake(reqs, id, s);
    }
  }

  lemma ChargePut(reqs: Reqs, servers: Servers, id: nat, r: Req)
    requires CountsOk(reqs, servers) && id !in reqs && (r.ns.Some? ==> r.ns.value in servers)
    ensures CountsOk(reqs[id := r], Charge(servers, r.ns, 1))
  {
    hide Of;
    var servers' := Charge(servers, r.ns, 1);
    forall s | s in servers'
      ensures servers'[s].inflight == |Of(reqs[id := r], s)|
    {
      OfPut(reqs, id, r, s);
    }
  }

  lemma ChargeUp(ring: seq<nat>, servers: Servers, good: int, ns: Option<nat>, k: int)
    requires RingOk(ring, servers, good) && (ns.Some? ==> ns.value in servers)
    ensures RingOk(ring, Charge(servers, ns, k), good)
  {
    assert UpSet(Charge(servers, ns, k)) == UpSet(servers);
  }

  // ------------------------------------------------------------ moving requests

  /** The list a request belongs in: its bucket, or None for the waiting queue. */
  function Bucket(r: Req, n: nat): nat
    requires n > 0
  {
    r.transId % n
  }

  function HeadsWithout(heads: seq<seq<nat>>, r: Req, id: nat): seq<seq<nat>>
    requires heads != []
  {
    if r.ns.None? then heads else heads[Bucket(r, |heads|) := Without(heads[Bucket(r, |heads|)], id)]
  }

  function HeadsWith(heads: seq<seq<nat>>, r: Req, id: nat): seq<seq<nat>>
    requires heads != []
  {
    if r.ns.None? then heads else heads[Bucket(r, |heads|) := heads[Bucket(r, |heads|)] + [id]]
  }

  lemma BucketWithout(list: seq<nat>, reqs: Reqs, n: nat, i: nat, id: nat)
    requires n > 0 && HoldsBucket(list, reqs, n, i) && id in reqs
    ensures HoldsBucket(Without(list, id), reqs - {id}, n, i)
    ensures reqs[id].ns.None? || reqs[id].transId % n != i ==> HoldsBucket(list, reqs - {id}, n, i)
  {
    WithoutFacts(list, id);
  }

  lemma BucketWith(list: seq<nat>, reqs: Reqs, n: nat, i: nat, id: nat, r: Req)
    requires n > 0 && HoldsBucket(list, reqs, n, i) && id !in reqs
    ensures r.ns.Some? && r.transId % n == i ==> HoldsBucket(list + [id], reqs[id := r], n, i)
    ensures r.ns.None? || r.transId % n != i ==> HoldsBucket(list, reqs[id := r], n, i)
  {
    AppendFacts(list, id);
  }

  lemma WaitingWithout(list: seq<nat>, reqs: Reqs, id: nat)
    requires HoldsWaiting(list, reqs) && id in reqs
    ensures reqs[id].ns.None? ==> id in list && HoldsWaiting(Without(list, id), reqs - {id})
    ensures reqs[id].ns.None? ==> |Without(list, id)| == |list| - 1
    ensures reqs[id].ns.Some? ==> HoldsWaiting(list, reqs - {id})
  {
    WithoutFacts(list, id);
  }

  lemma WaitingWith(list: seq<nat>, reqs: Reqs, id: nat, r: Req)
    requires HoldsWaiting(list, reqs) && id !in reqs
    ensures r.ns.None? ==> HoldsWaiting(list + [id], reqs[id := r])
    ensures r.ns.Some? ==> HoldsWaiting(list, reqs[id := r])
  {
    AppendFacts(list, id);
  }

  lemma ListsWithout(reqs: Reqs, heads: seq<seq<nat>>, waiting: seq<nat>, id: nat)
    requires ListsOk(reqs, heads, waiting) && id in reqs
    ensures var r := reqs[id];
      && ListsOk(reqs - {id}, HeadsWithout(heads, r, id), if r.ns.None? then Without(waiting, id) else waiting)
      && TotalLen(HeadsWithout(heads, r, id)) == TotalLen(heads) - (if r.ns.None? then 0 else 1)
      && (r.ns.None? ==> |Without(waiting, id)| == |waiting| - 1)
  {
    hide HoldsBucket, HoldsWaiting, TotalLen;
    var r := reqs[id];
    WaitingWithout(waiting, reqs, id);
    forall i | 0 <= i < |heads|
      ensures HoldsBucket(HeadsWithout(heads, r, id)[i], reqs - {id}, |heads|, i)
    {
      BucketWithout(heads[i], reqs, |heads|, i, id);
    }
    if r.ns.Some? {
      var b := Bucket(r, |heads|);
      InBucket(heads[b], reqs, |heads|, b, id);
      WithoutFacts(heads[b], id);
      TotalLenUpdate(heads, b, Without(heads[b], id));
    }
  }

  lemma InBucket(list: seq<nat>, reqs: Reqs, n: nat, i: nat, id: nat)
    requires n > 0 && HoldsBucket(list, reqs, n, i) && id in reqs && reqs[id].ns.Some? && reqs[id].transId % n == i
    ensures id in list && NoDup(list)
  {
  }

  lemma ListsWith(reqs: Reqs, heads: seq<seq<nat>>, waiting: seq<nat>, id: nat, r: Req)
    requires ListsOk(reqs, heads, waiting) && id !in reqs
    ensures ListsOk(reqs[id := r], HeadsWith(heads, r, id), if r.ns.None? then waiting + [id] else waiting)
    ensures TotalLen(HeadsWith(heads, r, id)) == TotalLen(heads) + (if r.ns.None? then 0 else 1)
  {
    hide HoldsBucket, HoldsWaiting, TotalLen;
    WaitingWith(waiting, reqs, id, r);
    forall i | 0 <= i < |heads|
      ensures HoldsBucket(HeadsWith(heads, r, id)[i], reqs[id := r], |heads|, i)
    {
      BucketWith(heads[i], reqs, |heads|, i, id, r);
    }
    if r.ns.Some? {
      TotalLenUpdate(heads, Bucket(r, |heads|), heads[Bucket(r, |heads|)] + [id]);
    }
  }

  // ------------------------------------------------------------ the ring of nameservers

  /** The first server of the ring, from its head, that is up. */
  function FirstUp(ring: seq<nat>, servers: Servers): (k: nat)
    ensures k <= |ring|
    ensures k < |ring| ==> ring[k] in servers && servers[ring[k]].up
    ensures forall i :: 0 <= i < k ==> !(ring[i] in servers && servers[ring[i]].up)
  {
    if ring == [] || (ring[0] in servers && servers[ring[0]].up) then 0 else 1 + FirstUp(ring[1..], servers)
  }

  function Rotated(ring: seq<nat>, k: nat): (r: seq<nat>)
    requires k <= |ring|
    ensures |r| == |ring|
  {
    ring[k..] + ring[..k]
  }

  lemma RotatedOnce(ring: seq<nat>, k: nat)
    requires k < |ring|
    ensures Rotated(ring, k + 1) == Rotated(ring, k)[1..] + [Rotated(ring, k)[0]]
  {
    assert ring[..k + 1] == ring[..k] + [ring[k]];
  }

  lemma RotatedMembers(ring: seq<nat>, k: nat)
    requires k <= |ring| && NoDup(ring)
    ensures NoDup(Rotated(ring, k)) && forall s :: s in Rotated(ring, k) <==> s in ring
  {
    var r := Rotated(ring, k);
    forall i | 0 <= i < |r|
      ensures r[i] == ring[if i < |ring| - k then i + k else i - (|ring| - k)]
    {
    }
    forall s | s in ring
      ensures s in r
    {
      var i :| 0 <= i < |ring| && ring[i] == s;
      assert r[if i >= k then i - k else i + |ring| - k] == s;
    }
  }

  /** With a server up, some server of the ring is. */
  lemma SomeUp(ring: seq<nat>, servers: Servers, good: int)
    requires RingOk(ring, servers, good) && good > 0
    ensures FirstUp(ring, servers) < |ring|
  {
    assert UpSet(servers) != {};
    var s :| s in UpSet(servers);
    assert s in ring;
    var i :| 0 <= i < |ring| && ring[i] == s;
    assert !(i < FirstUp(ring, servers));
  }

  /** How far the head of the ring moves in one nameserver_pick. */
  function Moved(ring: seq<nat>, servers: Servers, good: int): nat {
    if ring == [] then 0
    else if good == 0 then 1
    else FirstUp(ring, servers) + 1
  }

  /** The ring after a pick. */
  function RingNext(ring: seq<nat>, servers: Servers, good: int): seq<nat> {
    var k := Moved(ring, servers, good);
    if k <= |ring| then Rotated(ring, k) else ring
  }

  /** Each pick takes the server at position j, if it is up, or brings it nearer. */
  lemma RoundRobin(ring: seq<nat>, servers: Servers, good: int, j: nat)
    requires RingOk(ring, servers, good) && j < |ring| && ring[j] in servers && servers[ring[j]].up && good > 0
    ensures var k := FirstUp(ring, servers);
      k <= j && k < |ring| && (k == j || Rotated(ring, k + 1)[j - k - 1] == ring[j])
  {
    SomeUp(ring, servers, good);
  }

  /** What the n-th nameserver_pick in a row returns, while some server is up. */
  ghost function NthPick(ring: seq<nat>, servers: Servers, n: nat): Option<nat>
    decreases n
  {
    var k := FirstUp(ring, servers);
    if k == |ring| then None
    else if n == 0 then Some(ring[k])
    else NthPick(Rotated(ring, k + 1), servers, n - 1)
  }

  /** A server that is up and at position j is picked within j + 1 picks. */
  lemma {:induction false} PickedWithin(ring: seq<nat>, servers: Servers, good: int, j: nat) returns (n: nat)
    requires RingOk(ring, servers, good) && j < |ring| && ring[j] in servers && servers[ring[j]].up && good > 0
    ensures n <= j && NthPick(ring, servers, n) == Some(ring[j])
    decreases j
  {
    hide FirstUp, Rotated, RingOk;
    RoundRobin(ring, servers, good, j);
    var k := FirstUp(ring, servers);
    if k == j {
      n := 0;
    } else {
      RingRotated(ring, servers, good, k + 1);
      var m := PickedWithin(Rotated(ring, k + 1), servers, good, j - k - 1);
      n := m + 1;
    }
  }

  // ------------------------------------------------------------ evdns_base

  /** What becomes of a transmission: sent, held back, or the socket failed. */
  datatype Outcome = Sent | Blocked | Broken

  /** What the outside decides while a call runs: the transaction id of the k-th request
      promoted and the outcome of its transmission, and the outcomes of the sweep that
      follows it, by request. */
  datatype World = World(transId: nat -> TransId, first: nat -> Outcome, sweep: nat -> (nat -> Outcome))

  class DnsBase {
    var reqs: Reqs
    var heads: seq<seq<nat>>
    var waiting: seq<nat>
    /** The nameservers in ring order, from server_head. */
    var ring: seq<nat>
    var servers: Servers
    var inflight: int
    var nWaiting: int
    var good: int
    var maxInflight: int
    /** Request handles are given out in order and never reused. */
    var nextId: nat

    /** Lists, counters and the ring agree, also in the midst of a call. */
    ghost predicate Sound()
      reads this
    {
      && (forall id :: id in reqs ==> id < nextId && (reqs[id].ns.Some? ==> reqs[id].transId != NO_ID))
      && ListsOk(reqs, heads, waiting) && CountsOk(reqs, servers) && RingOk(ring, servers, good)
      && inflight == TotalLen(heads) && nWaiting == |waiting|
    }

    /** Between calls, every assigned request has been sent or is marked to be sent. */
    ghost predicate Valid()
      reads this
    {
      Sound() && Tried(reqs)
    }

    constructor ()
      ensures Valid() && reqs == map[] && servers == map[] && ring == [] && waiting == [] && nextId == 0
      ensures good == 0 && inflight == 0 && maxInflight == 64
    {
      reqs, heads, waiting, ring, servers := map[], seq(13, i => []), [], [], map[];
      inflight, nWaiting, good, maxInflight, nextId := 0, 0, 0, 64, 0;
      new;
      NothingQueued(heads);
    }

    /** nameserver_pick: the first server from the head of the ring that is up, and the
        head moves past it; with none up, the next server of the ring. */
    method Pick() returns (ns: Option<nat>)
      requires Sound()
      modifies this`ring
      ensures Sound()
      ensures ns.None? <==> old(ring) == []
      ensures ns.Some? ==> ns.value in servers
      ensures good > 0 ==> FirstUp(old(ring), servers) < |old(ring)| && ns == Some(old(ring)[FirstUp(old(ring), servers)])
      ensures ns == Picked(old(ring), servers, good)
      ensures Moved(old(ring), servers, good) <= |old(ring)| && ring == Rotated(old(ring), Moved(old(ring), servers, good))
      ensures ring == RingNext(old(ring), servers, good)
    {
      hide ListsOk, CountsOk, TotalLen, RingOk, FirstUp, Moved, Rotated;
      ns, ring := PickFrom(ring, servers, good);
    }

    /** evdns_request_remove with the counters of request_finished. */
    method Unlink(id: nat)
      requires Sound() && id in reqs
      modifies this`reqs, this`heads, this`waiting, this`servers, this`inflight, this`nWaiting
      ensures Sound() && reqs == old(reqs) - {id} && |heads| == |old(heads)|
      ensures old(reqs)[id].ns.Some? ==> old(reqs)[id].ns.value in old(servers)
      ensures servers == Charge(old(servers), old(reqs)[id].ns, -1)
      ensures inflight == old(inflight) - (if old(reqs)[id].ns.None? then 0 else 1)
      ensures nWaiting == old(nWaiting) - (if old(reqs)[id].ns.None? then 1 else 0)
      ensures waiting == if old(reqs)[id].ns.None? then Without(old(waiting), id) else old(waiting)
    {
      hide ListsOk, CountsOk, RingOk, TotalLen, Without;
      var r := reqs[id];
      ListsAny(reqs, heads, waiting);
      ListsWithout(reqs, heads, waiting, id);
      ChargeTake(reqs, servers, id);
      ChargeUp(ring, servers, good, r.ns, -1);
      if r.ns.Some? {
        heads := HeadsWithout(heads, r, id);
        inflight := inflight - 1;
        servers := Charge(servers, r.ns, -1);
      } else {
        waiting := Without(waiting, id);
        nWaiting := nWaiting - 1;
      }
      reqs := reqs - {id};
    }

    /** evdns_request_insert with the counters of request_submit. */
    method Link(id: nat, r: Req)
      requires Sound() && id !in reqs && id < nextId && (r.ns.Some? ==> r.ns.value in servers && r.transId != NO_ID)
      modifies this`reqs, this`heads, this`waiting, this`servers, this`inflight, this`nWaiting
      ensures Sound() && reqs == old(reqs)[id := r] && |heads| == |old(heads)|
      ensures servers == Charge(old(servers), r.ns, 1)
      ensures inflight == old(inflight) + (if r.ns.None? then 0 else 1)
      ensures nWaiting == old(nWaiting) + (if r.ns.None? then 1 else 0)
      ensures waiting == if r.ns.None? then old(waiting) + [id] else old(waiting)
    {
      hide ListsOk, CountsOk, RingOk, TotalLen;
      ListsAny(reqs, heads, waiting);
      ListsWith(reqs, heads, waiting, id, r);
      ChargePut(reqs, servers, id, r);
      ChargeUp(ring, servers, good, r.ns, 1);
      if r.ns.Some? {
        heads := HeadsWith(heads, r, id);
        inflight := inflight + 1;
        servers := Charge(servers, r.ns, 1);
      } else {
        waiting := waiting + [id];
        nWaiting := nWaiting + 1;
      }
      reqs := reqs[id := r];
    }

    /** request_swap_ns to the next server nameserver_pick gives. */
    method Swap(id: nat)
      requires Sound() && id in reqs && reqs[id].ns.Some?
      modifies this`reqs, this`servers, this`ring
      ensures Sound() && id in reqs && SameUp(old(servers), servers) && (Tried(old(reqs)) ==> Tried(reqs))
      ensures reqs == old(reqs)[id := old(reqs)[id].(ns := reqs[id].ns)] && reqs[id].ns.Some?
      ensures good > 0 ==> FirstUp(old(ring), old(servers)) < |old(ring)|
      ensures good > 0 ==> reqs[id].ns == Some(old(ring)[FirstUp(old(ring), old(servers))])
      ensures reqs[id].ns == Picked(old(ring), old(servers), good) && ring == RingNext(old(ring), old(servers), good)
    {
      hide ListsOk, CountsOk, RingOk, TotalLen, FirstUp, Moved, Rotated, RingNext;
      var r := reqs[id];
      var ns := Pick();
      assert reqs == reqs[id := r];
      if ns.Some? && ns != r.ns {
        Reassign(id, ns.value);
      } else {
        HasRing(reqs, servers, ring, good, id);
      }
    }

    /** Move an assigned request to server s. */
    method Reassign(id: nat, s: nat)
      requires Sound() && id in reqs && reqs[id].ns.Some? && s in servers && reqs[id].ns != Some(s)
      modifies this`reqs, this`servers
      ensures Sound() && reqs == old(reqs)[id := old(reqs)[id].(ns := Some(s))] && SameUp(old(servers), servers)
    {
      hide ListsOk, CountsOk, RingOk, TotalLen;
      var r := reqs[id];
      var r' := r.(ns := Some(s));
      ListsReassign(reqs, heads, waiting, id, r');
      ChargeTake(reqs, servers, id);
      ChargeUp(ring, servers, good, r.ns, -1);
      // EVUTIL_ASSERT(req->ns->requests_inflight > 0)
      assert servers[r.ns.value].inflight > 0;
      servers := Charge(servers, r.ns, -1);
      ChargePut(reqs - {id}, servers, id, r');
      ChargeUp(ring, servers, good, r'.ns, 1);
      assert (reqs - {id})[id := r'] == reqs[id := r'];
      servers := Charge(servers, r'.ns, 1);
      reqs := reqs[id := r'];
    }

    /** nameserver_failed: the requests not yet sent to a server that fails go to servers
        that are up, if any is. */
    method Failed(s: nat)
      requires Sound() && s in servers
      modifies this`reqs, this`servers, this`ring, this`good
      ensures Sound() && OnlyDown(old(servers), servers, s)
      ensures good == old(good) - (if old(servers)[s].up then 1 else 0)
      ensures Shuffled(old(reqs), reqs) && MovedFrom(old(reqs), reqs, servers, s) && (Tried(old(reqs)) ==> Tried(reqs))
      ensures !old(servers)[s].up || good == 0 ==> reqs == old(reqs) && ring == old(ring)
      ensures old(servers)[s].up && good > 0 ==>
        forall id :: id in reqs && !reqs[id].sent ==> reqs[id].ns != Some(s)
    {
      hide ListsOk, CountsOk, RingOk, TotalLen, FirstUp, Moved, Rotated, RingNext, Shuffled, MovedFrom, LeftBelow, LeftBucket;
      MovedNone(reqs, servers, s);
      if !servers[s].up {
        return;
      }
      var d := servers[s].(up := false);
      MovedNone(reqs, servers[s := d], s);
      UpDown(ring, servers, good, s, d);
      CountsKeep(reqs, servers, s, d);
      good := good - 1;
      // EVUTIL_ASSERT(base->global_good_nameservers >= 0)
      assert good >= 0;
      servers := servers[s := d];
      if good == 0 {
        return;
      }
      var i := 0;
      ListsAny(reqs, heads, waiting);
      LeftNone(reqs, |heads|, s);
      while i < |heads|
        invariant i <= |heads| && Sound() && OnlyDown(old(servers), servers, s)
        invariant good == old(good) - 1 && Shuffled(old(reqs), reqs) && MovedFrom(old(reqs), reqs, servers, s)
        invariant LeftBelow(reqs, |heads|, i, s)
      {
        ghost var before, servers0 := reqs, servers;
        MoveBucket(s, i);
        MovedTrans(old(reqs), before, reqs, servers0, servers, s);
        LeftStep(before, reqs, servers, |heads|, i, s);
        DownStill(old(servers), servers0, servers, s);
        i := i + 1;
      }
      LeftAll(reqs, |heads|, s);
      TriedShuffled(old(reqs), reqs);
    }

    /** One bucket of that walk. */
    method MoveBucket(s: nat, i: nat)
      requires Sound() && s in servers && !servers[s].up && good > 0 && i < |heads|
      modifies this`reqs, this`servers, this`ring
      ensures Sound() && SameUp(old(servers), servers)
      ensures Shuffled(old(reqs), reqs) && MovedFrom(old(reqs), reqs, servers, s)
      ensures LeftBucket(reqs, |heads|, i, s)
    {
      hide ListsOk, CountsOk, RingOk, TotalLen, FirstUp, Moved, Rotated, RingNext, Shuffled, MovedFrom, SameUp, LeftList, LeftBucket;
      var j := 0;
      ghost var was := servers;
      MovedNone(reqs, servers, s);
      while j < |heads[i]|
        invariant j <= |heads[i]| && Sound() && SameUp(was, servers)
        invariant Shuffled(old(reqs), reqs) && MovedFrom(old(reqs), reqs, servers, s)
        invariant LeftList(reqs, heads[i][..j], s)
      {
        var id := heads[i][j];
        AssignedIn(reqs, heads, waiting, i, id);
        ghost var before, servers0 := reqs, servers;
        DownToo(was, servers, s);
        if !reqs[id].sent && reqs[id].ns == Some(s) {
          SwapKeepsUp(id, s);
          SwapMoved(before, reqs, servers, id, s);
          SameUpTrans(was, servers0, servers);
          MovedTrans(old(reqs), before, reqs, servers0, servers, s);
        }
        LeftMore(before, reqs, heads[i][..j], id, s);
        assert heads[i][..j + 1] == heads[i][..j] + [id];
        j := j + 1;
      }
      assert heads[i][..j] == heads[i];
      LeftHeads(reqs, heads, waiting, i, s);
    }

    /** request_swap_ns away from a server that is down while another is up. */
    method SwapKeepsUp(id: nat, s: nat)
      requires Sound() && id in reqs && reqs[id].ns.Some? && s in servers && !servers[s].up && good > 0
      modifies this`reqs, this`servers, this`ring
      ensures Sound() && SameUp(old(servers), servers)
      ensures id in reqs && reqs[id].ns.Some? && reqs[id].ns != Some(s)
      ensures reqs[id].ns.value in servers && servers[reqs[id].ns.value].up
      ensures reqs == old(reqs)[id := old(reqs)[id].(ns := reqs[id].ns)]
    {
      hide ListsOk, CountsOk, RingOk, TotalLen, Moved, Rotated, RingNext;
      Swap(id);
    }

    /** evdns_request_transmit of an assigned request: unless it was held back it counts as
        sent, even when the socket failed, and is no longer marked. */
    method Transmit(id: nat, outcome: Outcome)
      requires Sound() && id in reqs && reqs[id].ns.Some? && reqs[id].ns.value in servers
      modifies this`reqs, this`servers, this`ring, this`good
      ensures Sound() && NoneRaised(old(servers), servers)
      ensures OthersKept(old(reqs), reqs, id) && (TriedBut(old(reqs), id) ==> Tried(reqs))
      ensures reqs[id] == old(reqs)[id].(
        ns := reqs[id].ns, sent := outcome != Blocked || old(reqs)[id].sent, marked := outcome == Blocked)
      ensures outcome != Broken ==> forall x :: x in reqs ==> reqs[x].ns == old(reqs)[x].ns
      ensures outcome != Broken ==> servers == old(servers) && ring == old(ring) && good == old(good)
      ensures outcome == Broken ==>
        var s := old(reqs)[id].ns.value;
        && OnlyDown(old(servers), servers, s)
        && (old(servers)[s].up && old(good) > 1 && !old(reqs)[id].sent ==> reqs[id].ns != Some(s))
        && forall x :: x in reqs && reqs[x].ns != old(reqs)[x].ns ==> old(reqs)[x].ns == Some(s) && !old(reqs)[x].sent
    {
      hide ListsOk, CountsOk, RingOk, TotalLen, Tried, TriedBut, OthersKept, Shuffled, MovedFrom;
      // EVUTIL_ASSERT(req->trans_id != 0xffff)
      assert reqs[id].transId != NO_ID;
      MovedNone(reqs, servers, reqs[id].ns.value);
      ghost var was, s := reqs, reqs[id].ns.value;
      if outcome == Broken {
        Failed(reqs[id].ns.value);
      }
      ShuffledAt(was, reqs, servers, s);
      MarkedAfter(was, reqs, id, outcome != Blocked || reqs[id].sent, outcome == Blocked);
      Mark(id, outcome != Blocked || reqs[id].sent, outcome == Blocked);
    }

    /** Set tx_count and transmit_me of a request. */
    method Mark(id: nat, sent: bool, marked: bool)
      requires Sound() && id in reqs
      modifies this`reqs
      ensures Sound() && reqs == old(reqs)[id := old(reqs)[id].(sent := sent, marked := marked)]
    {
      hide ListsOk, CountsOk, RingOk, TotalLen;
      SentKeeps(reqs, heads, waiting, servers, id, sent, marked);
      reqs := reqs[id := reqs[id].(sent := sent, marked := marked)];
    }

    /** request_reissue: pointless when the next server is the last one; else the request
        counts as not yet sent. */
    method Reissue(id: nat) returns (reissued: bool)
      requires Valid() && id in reqs && reqs[id].ns.Some?
      modifies this`reqs, this`servers, this`ring
      ensures Valid() && SameUp(old(servers), servers) && id in reqs
      ensures reissued <==> reqs[id].ns != old(reqs)[id].ns
      ensures reqs == if reissued then old(reqs)[id := old(reqs)[id].(ns := reqs[id].ns, sent := false, marked := true)] else old(reqs)
      ensures good > 0 ==> FirstUp(old(ring), old(servers)) < |old(ring)|
      ensures good > 0 ==> (reissued <==> old(reqs)[id].ns != Some(old(ring)[FirstUp(old(ring), old(servers))]))
      ensures reqs[id].ns == Picked(old(ring), old(servers), good) && ring == RingNext(old(ring), old(servers), good)
    {
      hide ListsOk, CountsOk, RingOk, TotalLen, FirstUp, Moved, Rotated, RingNext;
      var last := reqs[id].ns;
      Swap(id);
      if reqs[id].ns == last {
        assert reqs == old(reqs);
        return false;
      }
      Mark(id, false, true);
      reissued := true;
    }

    /** evdns_transmit: every inflight request that is marked is sent again; after it the
        marked ones are those held back in this sweep. */
    method TransmitAll(outcome: nat -> Outcome) returns (tried: bool)
      requires Valid()
      modifies this`reqs, this`servers, this`ring, this`good
      ensures Valid() && NoneRaised(old(servers), servers) && Resent(old(reqs), reqs)
      ensures forall id :: id in reqs && reqs[id].ns.None? ==> reqs[id] == old(reqs)[id]
      ensures (forall id :: outcome(id) != Broken) ==>
        servers == old(servers) && ring == old(ring) && good == old(good) && SameServers(old(reqs), reqs)
      ensures forall id :: id in reqs && reqs[id].ns.Some? ==>
        (reqs[id].marked <==> old(reqs)[id].marked && outcome(id) == Blocked)
      ensures forall id :: id in reqs && reqs[id].ns.Some? ==>
        (reqs[id].sent <==> old(reqs)[id].sent || (old(reqs)[id].marked && outcome(id) != Blocked))
      ensures tried <==> exists id :: id in old(reqs) && old(reqs)[id].ns.Some? && old(reqs)[id].marked
    {
      hide ListsOk, CountsOk, RingOk, TotalLen, NoneRaised, Swept, SweptOnce, SameServers, Tried;
      tried := false;
      ListsAny(reqs, heads, waiting);
      NoneRaisedSelf(servers);
      SweepStart(reqs, |heads|, outcome);
      for i := 0 to |heads|
        invariant Sound() && NoneRaised(old(servers), servers) && Swept(old(reqs), reqs, |heads|, i, outcome, tried)
        invariant (forall id :: outcome(id) != Broken) ==>
          servers == old(servers) && ring == old(ring) && good == old(good) && SameServers(old(reqs), reqs)
      {
        ghost var before, reqs0 := servers, reqs;
        var more := TransmitBucket(i, outcome);
        NoneRaisedTrans(old(servers), before, servers);
        SweepStep(old(reqs), reqs0, reqs, |heads|, i, outcome, tried, more);
        SameServersTrans(old(reqs), reqs0, reqs);
        tried := tried || more;
      }
      SweepEnd(old(reqs), reqs, |heads|, outcome, tried);
    }

    /** One bucket of that sweep. */
    method TransmitBucket(i: nat, outcome: nat -> Outcome) returns (tried: bool)
      requires Sound() && i < |heads|
      modifies this`reqs, this`servers, this`ring, this`good
      ensures Sound() && NoneRaised(old(servers), servers) && SweptOnce(old(reqs), reqs, |heads|, i, outcome, tried)
      ensures (forall id :: outcome(id) != Broken) ==>
        servers == old(servers) && ring == old(ring) && good == old(good) && SameServers(old(reqs), reqs)
    {
      hide ListsOk, CountsOk, RingOk, TotalLen, NoneRaised, SweptList, OthersKept, SweptOnce, SameServers;
      tried := false;
      NoneRaisedSelf(servers);
      BucketDistinct(reqs, heads, waiting, i);
      ghost var was := reqs;
      SweptNone(reqs, outcome);
      SameServersSelf(reqs);
      for j := 0 to |heads[i]|
        invariant Sound() && NoneRaised(old(servers), servers)
        invariant SweptList(was, reqs, heads[i][..j], outcome, tried)
        invariant (forall id :: outcome(id) != Broken) ==>
          servers == old(servers) && ring == old(ring) && good == old(good) && SameServers(was, reqs)
      {
        var id := heads[i][j];
        AssignedIn(reqs, heads, waiting, i, id);
        AssignedKnown(reqs, servers, id);
        assert heads[i][..j + 1] == heads[i][..j] + [id];
        ghost var before, servers0 := reqs, servers;
        if reqs[id].marked {
          tried := true;
          Transmit(id, outcome(id));
          NoneRaisedTrans(old(servers), servers0, servers);
          SweptSend(was, before, reqs, heads[i][..j], id, outcome);
          if outcome(id) != Broken {
            SameServersStep(was, before, reqs, id);
          }
        } else {
          SweptSkip(was, reqs, heads[i][..j], id, outcome, tried);
        }
      }
      assert heads[i][..|heads[i]|] == heads[i];
      SweptBucket(was, reqs, heads, waiting, i, outcome, tried);
    }

    /** evdns_requests_pump_waiting_queue: requests leave the waiting queue in order until
        there is no room, no request or no nameserver.  With no socket failing, the k-th
        goes to the server of the k-th pick. */
    method Pump(w: World)
      requires Valid()
      modifies this`reqs, this`heads, this`waiting, this`servers, this`inflight, this`nWaiting, this`ring, this`good
      ensures Valid() && NoneRaised(old(servers), servers) && |heads| == |old(heads)|
      ensures |waiting| <= |old(waiting)| && waiting == old(waiting)[|old(waiting)| - |waiting|..]
      ensures inflight >= maxInflight || nWaiting == 0 || ring == []
      ensures |waiting| < |old(waiting)| ==> inflight <= maxInflight
      ensures Pumped(old(reqs), old(waiting), |old(waiting)| - |waiting|, w, reqs)
      ensures Smooth(w, |old(waiting)| - |waiting|) && old(good) > 0 ==>
        InTurn(old(waiting), |old(waiting)| - |waiting|, old(ring), old(servers), reqs)
    {
      hide ListsOk, CountsOk, RingOk, TotalLen, FirstUp, Moved, Rotated, RingNext, NoneRaised, Pumped, Smooth, InTurn, InStep, Tried, RingAfter, SameUp, NoDup, Turned, Calm, DnsBase.Sound;
      SoundFacts(this);
      ghost var k := 0;
      var n := 0;
      NoneRaisedSelf(servers);
      PumpStart(reqs, heads, waiting, w, ring, servers);
      WaitingAre(reqs, heads, waiting);
      while inflight < maxInflight && nWaiting > 0
        invariant Valid() && NoneRaised(old(servers), servers) && |heads| == |old(heads)|
        invariant k == n <= |old(waiting)| && waiting == old(waiting)[k..]
        invariant k > 0 ==> inflight <= maxInflight
        invariant Pumped(old(reqs), old(waiting), k, w, reqs)
        invariant InStep(w, k, old(waiting), old(ring), old(servers), old(good), ring, servers, good, reqs)
        decreases |waiting|
      {
        SoundFacts(this);
        // EVUTIL_ASSERT(base->req_waiting_head)
        assert waiting != [];
        var id := waiting[0];
        WaitingKnown(reqs, heads, waiting);
        ghost var ring0, servers0, reqs0, good0 := ring, servers, reqs, good;
        var ns := Pick();
        if ns.None? {
          InStepEnds(w, k, old(waiting), old(ring), old(servers), old(good), ring0, servers, good, reqs);
          return;
        }
        PromoteAndSend(id, ns.value, w, n);
        NoneRaisedTrans(old(servers), servers0, servers);
        PumpedKeys(old(reqs), old(waiting), k, w, reqs0);
        PumpStep(old(reqs), old(heads), old(waiting), k, w, reqs0, reqs);
        PumpedKeys(old(reqs), old(waiting), k + 1, w, reqs);
        InStepNext(w, k, old(waiting), old(ring), old(servers), old(good), ring0, servers0, good0, reqs0, ns, ring,
                   servers, good, reqs);
        n := n + 1;
        k := k + 1;
      }
      SoundFacts(this);
      InStepEnds(w, k, old(waiting), old(ring), old(servers), old(good), ring, servers, good, reqs);
    }

    /** One turn of that loop. */
    method PromoteAndSend(id: nat, s: nat, w: World, k: nat)
      requires Valid() && waiting != [] && id == waiting[0] && id in reqs && reqs[id].ns.None? && s in servers
      modifies this`reqs, this`heads, this`waiting, this`servers, this`inflight, this`nWaiting, this`ring, this`good
      ensures Valid() && NoneRaised(old(servers), servers) && |heads| == |old(heads)|
      ensures waiting == old(waiting)[1..] && inflight == old(inflight) + 1
      ensures Turned(old(reqs), reqs, id, w, k)
      ensures Calm(w, k) ==>
        && SameUp(old(servers), servers) && ring == old(ring) && good == old(good) && reqs[id].ns == Some(s)
        && forall x :: x in reqs && x != id ==> reqs[x].ns == old(reqs)[x].ns
    {
      hide ListsOk, CountsOk, RingOk, TotalLen, NoneRaised, Turned, Tried, TriedBut, OthersKept, Resent, SameUp;
      ghost var a, r0 := servers, reqs;
      Promote(id, s, w.transId(k));
      ghost var b, r1 := servers, reqs;
      AssignedKnown(reqs, servers, id);
      TriedButNew(r0, id, reqs[id]);
      Transmit(id, w.first(k));
      ghost var c, r2 := servers, reqs;
      var tried := TransmitAll(w.sweep(k));
      NoneRaisedTrans(a, b, c);
      NoneRaisedTrans(a, c, servers);
      TurnedBy(r0, r1, r2, reqs, id, s, w, k);
    }

    /** Move the first waiting request to the inflight bucket of its new transaction id. */
    method Promote(id: nat, s: nat, transId: TransId)
      requires Sound() && waiting != [] && id == waiting[0] && id in reqs && reqs[id].ns.None? && s in servers
      modifies this`reqs, this`heads, this`waiting, this`servers, this`inflight, this`nWaiting
      ensures Sound() && NoneRaised(old(servers), servers) && SameUp(old(servers), servers) && |heads| == |old(heads)|
      ensures reqs == old(reqs)[id := old(reqs)[id].(transId := transId, ns := Some(s))]
      ensures waiting == old(waiting)[1..] && inflight == old(inflight) + 1
    {
      hide ListsOk, CountsOk, RingOk, TotalLen;
      var r := reqs[id].(transId := transId, ns := Some(s));
      Unlink(id);
      Link(id, r);
      assert (old(reqs) - {id})[id := r] == old(reqs)[id := r];
    }

    /** The inflight part of request_submit. */
    method Launch(id: nat, s: nat, transId: TransId, outcome: Outcome)
      requires Valid() && id !in reqs && id < nextId && s in servers
      modifies this`reqs, this`heads, this`waiting, this`servers, this`inflight, this`nWaiting, this`ring, this`good
      ensures Valid() && reqs.Keys == old(reqs).Keys + {id} && |heads| == |old(heads)| && waiting == old(waiting)
      ensures reqs[id].ns.Some? && reqs[id].transId == transId
      ensures reqs[id].sent == (outcome != Blocked) && reqs[id].marked == (outcome == Blocked)
      ensures forall x :: x in old(reqs) ==> reqs[x] == old(reqs)[x].(ns := reqs[x].ns)
      ensures outcome != Broken ==> SameUp(old(servers), servers) && ring == old(ring) && good == old(good)
      ensures outcome != Broken ==> reqs[id].ns == Some(s) && forall x :: x in old(reqs) ==> reqs[x] == old(reqs)[x]
      ensures outcome == Broken ==> OnlyDown(old(servers), servers, s)
      ensures outcome == Broken && old(servers)[s].up && old(good) > 1 ==> reqs[id].ns != Some(s)
    {
      hide ListsOk, CountsOk, RingOk, TotalLen, Tried, TriedBut;
      var r := Req(transId, Some(s), false, false);
      TriedButNew(reqs, id, r);
      Link(id, r);
      Transmit(id, outcome);
    }

    /** request_new and request_submit: with room and a server the request is sent at once,
        or marked to be sent. */
    method Submit(transId: TransId, outcome: Outcome) returns (id: nat)
      requires Valid()
      modifies this`reqs, this`heads, this`waiting, this`servers, this`inflight, this`nWaiting, this`ring, this`good, this`nextId
      ensures Valid() && id == old(nextId) && nextId == id + 1 && id !in old(reqs)
      ensures reqs.Keys == old(reqs).Keys + {id} && NoneRaised(old(servers), servers) && |heads| == |old(heads)|
      ensures reqs[id].ns.Some? <==> old(inflight) < maxInflight && old(ring) != []
      ensures waiting == if reqs[id].ns.None? then old(waiting) + [id] else old(waiting)
      ensures reqs[id].ns.Some? ==>
        reqs[id].transId == transId && reqs[id].sent == (outcome != Blocked) && reqs[id].marked == (outcome == Blocked)
      ensures reqs[id].ns.Some? && outcome != Broken ==> reqs[id].ns == Picked(old(ring), old(servers), old(good))
      ensures reqs[id].ns.Some? && outcome == Broken ==>
        var s := Picked(old(ring), old(servers), old(good)).value;
        s in servers && !servers[s].up && (old(good) > 1 ==> reqs[id].ns != Some(s))
      ensures forall x :: x in old(reqs) ==> reqs[x] == old(reqs)[x].(ns := reqs[x].ns)
      ensures reqs[id].ns.None? || outcome != Broken ==> forall x :: x in old(reqs) ==> reqs[x] == old(reqs)[x]
      ensures reqs[id].ns.None? || outcome != Broken ==>
        good == old(good) && ring == if old(inflight) < maxInflight then RingNext(old(ring), old(servers), good) else old(ring)
    {
      hide ListsOk, CountsOk, RingOk, TotalLen, FirstUp, Moved, Rotated, RingNext, Tried, SameUp, OnlyDown, NoneRaised, Picked;
      var issuing := inflight < maxInflight;
      var ns := None;
      ghost var was := servers;
      PickedIs(ring, servers, good);
      NoneRaisedSelf(servers);
      if issuing {
        ns := Pick();
      }
      id := nextId;
      nextId := nextId + 1;
      if ns.Some? {
        Launch(id, ns.value, transId, outcome);
        NoneRaisedBy(was, servers, ns.value);
      } else {
        var r := Req(if issuing then transId else NO_ID, None, false, false);
        TriedNew(reqs, id, r);
        Link(id, r);
      }
    }

    /** request_finished, for a reply, a timeout or a cancel. */
    method Finish(id: nat, w: World)
      requires Valid() && id in reqs
      modifies this`reqs, this`heads, this`waiting, this`servers, this`inflight, this`nWaiting, this`ring, this`good
      ensures Valid() && reqs.Keys == old(reqs).Keys - {id} && NoneRaised(old(servers), servers)
      ensures inflight >= maxInflight || nWaiting == 0 || ring == []
      ensures Emptied(w, old(reqs) - {id}, Shorter(old(reqs), old(waiting), id), reqs, waiting)
    {
      hide ListsOk, CountsOk, RingOk, TotalLen, Pumped, Without;
      Unlink(id);
      ghost var mid, queue := reqs, waiting;
      Pump(w);
      PumpedKeys(mid, queue, |queue| - |waiting|, w, reqs);
    }

    /** nameserver_send_probe: inflight whatever the limit, and to that server. */
    method Probe(s: nat, transId: TransId, outcome: Outcome) returns (id: nat)
      requires Valid() && s in servers
      modifies this`reqs, this`heads, this`waiting, this`servers, this`inflight, this`nWaiting, this`ring, this`good, this`nextId
      ensures Valid() && id == old(nextId) && nextId == id + 1 && id !in old(reqs)
      ensures reqs.Keys == old(reqs).Keys + {id} && servers.Keys == old(servers).Keys
      ensures reqs[id].ns.Some? && servers[s].probe == Some(id) && waiting == old(waiting)
      ensures reqs[id].transId == transId && reqs[id].sent == (outcome != Blocked) && reqs[id].marked == (outcome == Blocked)
      ensures outcome != Broken ==> reqs[id].ns == Some(s)
      ensures outcome == Broken ==> !servers[s].up
      ensures forall x :: x in servers ==> (servers[x].up <==> old(servers)[x].up && !(outcome == Broken && x == s))
      ensures forall x :: x in servers && x != s ==> servers[x].probe == old(servers)[x].probe
      ensures forall x :: x in old(reqs) ==> reqs[x] == old(reqs)[x].(ns := reqs[x].ns)
      ensures outcome != Broken ==> forall x :: x in old(reqs) ==> reqs[x] == old(reqs)[x]
      ensures outcome != Broken ==>
        good == old(good) && ring == if old(inflight) < maxInflight then RingNext(old(ring), old(servers), good) else old(ring)
    {
      hide ListsOk, CountsOk, RingOk, TotalLen, FirstUp, Moved, Rotated, RingNext, Tried;
      if inflight < maxInflight {
        var ignored := Pick();
      }
      id := nextId;
      nextId := nextId + 1;
      SetProbe(s, Some(id));
      Launch(id, s, transId, outcome);
    }

    method SetProbe(s: nat, probe: Option<nat>)
      requires Sound() && s in servers
      modifies this`servers
      ensures Sound() && servers == old(servers)[s := old(servers)[s].(probe := probe)]
    {
      hide ListsOk, TotalLen;
      var d := servers[s].(probe := probe);
      CountsKeep(reqs, servers, s, d);
      assert UpSet(servers[s := d]) == UpSet(servers);
      servers := servers[s := d];
    }

    /** nameserver_up: the probe, if it is still live, is cancelled. */
    method Up(s: nat, w: World)
      requires Valid() && s in servers
      modifies this`reqs, this`heads, this`waiting, this`servers, this`inflight, this`nWaiting, this`ring, this`good
      ensures Valid() && servers.Keys == old(servers).Keys
      ensures old(servers)[s].up ==> unchanged(this)
      ensures var probe := old(servers)[s].probe;
        !old(servers)[s].up ==>
          reqs.Keys == old(reqs).Keys - (if probe.Some? then {probe.value} else {})
      ensures var probe := old(servers)[s].probe;
        !old(servers)[s].up && !(probe.Some? && probe.value in old(reqs)) ==>
          && reqs == old(reqs) && waiting == old(waiting)
          && servers == old(servers)[s := old(servers)[s].(up := true, probe := None)]
      ensures var probe := old(servers)[s].probe;
        !old(servers)[s].up && probe.Some? && probe.value in old(reqs) ==>
          Emptied(w, old(reqs) - {probe.value}, Shorter(old(reqs), old(waiting), probe.value), reqs, waiting)
      ensures forall x :: x in servers && x != s ==> (servers[x].up ==> old(servers)[x].up) && servers[x].probe == old(servers)[x].probe
      ensures servers[s].up
      ensures !old(servers)[s].up ==> servers[s].probe == None
      ensures !old(servers)[s].up && old(servers)[s].probe.Some? ==> old(servers)[s].probe.value !in reqs
    {
      hide ListsOk, CountsOk, RingOk, TotalLen, Emptied, Without, Shorter;
      if servers[s].up {
        return;
      }
      var probe := servers[s].probe;
      if probe.Some? && probe.value in reqs {
        Finish(probe.value, w);
      }
      SetProbe(s, None);
      MarkUp(s);
    }

    method MarkUp(s: nat)
      requires Sound() && s in servers && !servers[s].up
      modifies this`servers, this`good
      ensures Sound() && servers == old(servers)[s := old(servers)[s].(up := true)]
    {
      hide ListsOk, CountsOk, RingOk, TotalLen;
      var d := servers[s].(up := true);
      CountsKeep(reqs, servers, s, d);
      UpDown(ring, servers, good, s, d);
      servers := servers[s := d];
      good := good + 1;
    }

    /** A new nameserver, after the head of the ring. */
    method AddServer(s: nat)
      requires Sound() && s !in servers
      modifies this`servers, this`ring, this`good
      ensures Sound() && servers == old(servers)[s := Server(true, 0, None)] && good == old(good) + 1
      ensures ring == if old(ring) == [] then [s] else [old(ring)[0], s] + old(ring)[1..]
    {
      hide ListsOk, CountsOk, RingOk, TotalLen;
      RingNew(ring, servers, good, s);
      CountsNew(reqs, servers, s);
      ring := After(ring, s);
      servers := servers[s := Server(true, 0, None)];
      good := good + 1;
    }

    /** evdns_base_set_max_requests_inflight: every inflight request goes to its bucket
        among the new ones. */
    method SetMax(max: int)
      requires Sound()
      modifies this`heads, this`maxInflight
      ensures Sound() && maxInflight == (if max < 1 then 1 else max) && |heads| == (maxInflight + 4) / 5
    {
      hide ListsOk, CountsOk, RingOk, TotalLen;
      maxInflight := if max < 1 then 1 else max;
      heads := Rehash(reqs, heads, waiting, (maxInflight + 4) / 5);
    }
  }

  /** Only counts of the servers changed. */
  ghost predicate SameUp(was: Servers, servers: Servers) {
    && was.Keys == servers.Keys
    && (forall s :: s in was ==> servers[s].up == was[s].up && servers[s].probe == was[s].probe)
  }

  /** Server s is down, and nothing else changed but counts. */
  ghost predicate OnlyDown(was: Servers, servers: Servers, s: nat) {
    && was.Keys == servers.Keys && s in servers && !servers[s].up
    && (forall x :: x in was ==> servers[x].probe == was[x].probe && (x != s ==> servers[x].up == was[x].up))
  }

  /** The requests that changed servers were waiting to be sent to s, and now wait for a
      server that is up. */
  ghost predicate MovedFrom(was: Reqs, reqs: Reqs, servers: Servers, s: nat) {
    forall id :: id in was && id in reqs && reqs[id].ns != was[id].ns ==>
      && was[id].ns == Some(s) && !was[id].sent
      && reqs[id].ns.Some? && reqs[id].ns.value in servers && servers[reqs[id].ns.value].up
  }

  lemma MovedTrans(a: Reqs, b: Reqs, c: Reqs, servers: Servers, servers': Servers, s: nat)
    requires Shuffled(a, b) && Shuffled(b, c) && SameUp(servers, servers') && s in servers && !servers[s].up
    requires MovedFrom(a, b, servers, s) && MovedFrom(b, c, servers', s)
    ensures Shuffled(a, c) && MovedFrom(a, c, servers', s)
  {
  }

  /** Every assigned request has been sent or is marked to be sent; the others are neither. */
  ghost predicate Tried(reqs: Reqs) {
    forall id :: id in reqs ==> TriedOne(reqs[id])
  }

  predicate TriedOne(r: Req) {
    if r.ns.Some? then r.sent || r.marked else !r.sent && !r.marked
  }

  ghost predicate TriedBut(reqs: Reqs, but: nat) {
    forall id :: id in reqs && id != but ==> TriedOne(reqs[id])
  }

  ghost predicate SameServers(was: Reqs, reqs: Reqs) {
    was.Keys == reqs.Keys && forall id :: id in reqs ==> reqs[id].ns == was[id].ns
  }

  lemma TriedShuffled(was: Reqs, reqs: Reqs)
    requires Shuffled(was, reqs)
    ensures Tried(was) ==> Tried(reqs)
  {
  }

  lemma ShuffledAt(was: Reqs, reqs: Reqs, servers: Servers, s: nat)
    requires Shuffled(was, reqs)
    ensures was.Keys == reqs.Keys
    ensures forall x :: x in was ==> reqs[x] == was[x].(ns := reqs[x].ns) && (reqs[x].ns.None? <==> was[x].ns.None?)
    ensures MovedFrom(was, reqs, servers, s) ==>
      forall x :: x in reqs && reqs[x].ns != was[x].ns ==> was[x].ns == Some(s) && !was[x].sent
  {
  }

  lemma MarkedAfter(was: Reqs, mid: Reqs, id: nat, sent: bool, marked: bool)
    requires Shuffled(was, mid) && id in was && mid[id].ns.Some? && (sent || marked)
    ensures var reqs := mid[id := mid[id].(sent := sent, marked := marked)];
      OthersKept(was, reqs, id) && (TriedBut(was, id) ==> Tried(reqs))
  {
  }

  lemma SameServersSelf(reqs: Reqs)
    ensures SameServers(reqs, reqs)
  {
  }

  lemma SameServersTrans(a: Reqs, b: Reqs, c: Reqs)
    ensures SameServers(a, b) && SameServers(b, c) ==> SameServers(a, c)
  {
  }

  lemma SameServersStep(was: Reqs, mid: Reqs, reqs: Reqs, id: nat)
    requires OthersKept(mid, reqs, id) && forall x :: x in reqs ==> reqs[x].ns == mid[x].ns
    ensures SameServers(was, mid) ==> SameServers(was, reqs)
  {
  }

  /** The requests of a list that are not yet sent have left server s. */
  ghost predicate LeftList(reqs: Reqs, list: seq<nat>, s: nat) {
    forall id :: id in list ==> id in reqs && (reqs[id].sent || reqs[id].ns != Some(s))
  }

  lemma LeftMore(was: Reqs, reqs: Reqs, list: seq<nat>, id: nat, s: nat)
    requires LeftList(was, list, s) && id in reqs && (reqs[id].sent || reqs[id].ns != Some(s))
    requires was.Keys == reqs.Keys && forall x :: x in reqs && x != id ==> reqs[x] == was[x]
    ensures LeftList(reqs, list + [id], s)
  {
  }

  ghost predicate LeftBucket(reqs: Reqs, n: nat, i: nat, s: nat)
    requires n > 0
  {
    forall id :: id in reqs && reqs[id].ns.Some? && reqs[id].transId % n == i ==> reqs[id].sent || reqs[id].ns != Some(s)
  }

  lemma LeftHeads(reqs: Reqs, heads: seq<seq<nat>>, waiting: seq<nat>, i: nat, s: nat)
    requires ListsOk(reqs, heads, waiting) && i < |heads| && LeftList(reqs, heads[i], s)
    ensures LeftBucket(reqs, |heads|, i, s)
  {
    hide ListsOk;
    forall id | id in reqs && reqs[id].ns.Some? && reqs[id].transId % |heads| == i
      ensures reqs[id].sent || reqs[id].ns != Some(s)
    {
      AssignedIn(reqs, heads, waiting, i, id);
    }
  }

  ghost predicate LeftBelow(reqs: Reqs, n: nat, i: nat, s: nat)
    requires n > 0
  {
    forall id :: id in reqs && reqs[id].ns.Some? && reqs[id].transId % n < i ==> reqs[id].sent || reqs[id].ns != Some(s)
  }

  lemma LeftNone(reqs: Reqs, n: nat, s: nat)
    requires n > 0
    ensures LeftBelow(reqs, n, 0, s)
  {
  }

  lemma LeftStep(was: Reqs, reqs: Reqs, servers: Servers, n: nat, i: nat, s: nat)
    requires n > 0 && LeftBelow(was, n, i, s) && LeftBucket(reqs, n, i, s)
    requires Shuffled(was, reqs) && MovedFrom(was, reqs, servers, s) && s in servers && !servers[s].up
    ensures LeftBelow(reqs, n, i + 1, s)
  {
  }

  lemma LeftAll(reqs: Reqs, n: nat, s: nat)
    requires n > 0 && LeftBelow(reqs, n, n, s)
    ensures forall id :: id in reqs && !reqs[id].sent ==> reqs[id].ns != Some(s)
  {
  }

  lemma MovedNone(reqs: Reqs, servers: Servers, s: nat)
    ensures Shuffled(reqs, reqs) && MovedFrom(reqs, reqs, servers, s) && SameUp(servers, servers) && LeftList(reqs, [], s)
  {
  }

  lemma SwapMoved(was: Reqs, reqs: Reqs, servers: Servers, id: nat, s: nat)
    requires id in was && id in reqs && was[id].ns == Some(s) && !was[id].sent && reqs[id].ns.Some?
    requires reqs == was[id := was[id].(ns := reqs[id].ns)] && reqs[id].ns.value in servers && servers[reqs[id].ns.value].up
    ensures Shuffled(was, reqs) && MovedFrom(was, reqs, servers, s)
  {
  }

  lemma SameUpTrans(a: Servers, b: Servers, c: Servers)
    requires SameUp(a, b) && SameUp(b, c)
    ensures SameUp(a, c)
  {
  }

  lemma DownToo(was: Servers, servers: Servers, s: nat)
    requires SameUp(was, servers) && s in was && !was[s].up
    ensures s in servers && !servers[s].up
  {
  }

  lemma DownStill(was: Servers, mid: Servers, servers: Servers, s: nat)
    requires OnlyDown(was, mid, s) && SameUp(mid, servers)
    ensures OnlyDown(was, servers, s)
  {
  }

  /** What nameserver_pick returns. */
  ghost function Picked(ring: seq<nat>, servers: Servers, good: int): Option<nat> {
    if ring == [] then None
    else if good == 0 then Some(ring[1 % |ring|])
    else if FirstUp(ring, servers) < |ring| then Some(ring[FirstUp(ring, servers)])
    else None
  }

  // ------------------------------------------------------------ what a pump does

  /** The queue without a request, if it is there. */
  function Shorter(reqs: Reqs, waiting: seq<nat>, id: nat): seq<nat>
    requires id in reqs
  {
    if reqs[id].ns.None? then Without(waiting, id) else waiting
  }

  /** Some requests from the front of the queue were promoted. */
  ghost predicate Emptied(w: World, was: Reqs, queue: seq<nat>, reqs: Reqs, waiting: seq<nat>) {
    && |waiting| <= |queue| && waiting == queue[|queue| - |waiting|..]
    && Pumped(was, queue, |queue| - |waiting|, w, reqs)
  }

  /** No socket fails in turn k of a pump. */
  ghost predicate Calm(w: World, k: nat) {
    w.first(k) != Broken && forall x: nat :: w.sweep(k)(x) != Broken
  }

  ghost predicate Smooth(w: World, n: nat) {
    forall k: nat :: k < n ==> Calm(w, k)
  }

  lemma SmoothStep(w: World, k: nat)
    ensures Smooth(w, k + 1) <==> Smooth(w, k) && Calm(w, k)
  {
    hide Calm;
  }

  /** All sweeps from turn from to turn to held the request back. */
  ghost predicate HeldBack(w: World, id: nat, from: nat, to: nat) {
    forall k: nat :: from <= k < to ==> w.sweep(k)(id) == Blocked
  }

  /** A request that was assigned before: sweeps try it as long as it is marked. */
  ghost predicate Resweeped(was: Req, r: Req, held: bool) {
    && r.transId == was.transId && r.ns.Some?
    && (r.marked <==> was.marked && held) && (r.sent <==> was.sent || (was.marked && !held))
  }

  /** A request that was promoted: sent at once, or by one of the sweeps, or still marked. */
  ghost predicate Launched(r: Req, transId: nat, held: bool) {
    r.transId == transId && r.ns.Some? && (r.marked <==> held) && (r.sent <==> !held)
  }

  /** Turn k of a pump, which promotes id. */
  ghost predicate Turned(was: Reqs, reqs: Reqs, id: nat, w: World, k: nat) {
    && was.Keys == reqs.Keys && id in reqs
    && Launched(reqs[id], w.transId(k), w.first(k) == Blocked && w.sweep(k)(id) == Blocked)
    && (forall x :: x in was && x != id && was[x].ns.Some? ==> Resweeped(was[x], reqs[x], w.sweep(k)(x) == Blocked))
    && (forall x :: x in was && x != id && was[x].ns.None? ==> reqs[x] == was[x])
  }

  lemma TriedNew(was: Reqs, id: nat, r: Req)
    requires Tried(was) && TriedOne(r)
    ensures Tried(was[id := r])
  {
  }

  lemma NoneRaisedBy(was: Servers, servers: Servers, s: nat)
    requires SameUp(was, servers) || OnlyDown(was, servers, s)
    ensures NoneRaised(was, servers)
    ensures OnlyDown(was, servers, s) ==> s in servers && !servers[s].up
  {
  }

  lemma TriedButNew(was: Reqs, id: nat, r: Req)
    requires Tried(was)
    ensures TriedBut(was[id := r], id)
  {
  }

  /** Promotion, transmission and sweep make up a turn. */
  lemma TurnedBy(r0: Reqs, r1: Reqs, r2: Reqs, r3: Reqs, id: nat, s: nat, w: World, k: nat)
    requires Tried(r0) && id in r0 && r0[id].ns.None?
    requires r1 == r0[id := r0[id].(transId := w.transId(k), ns := Some(s))]
    requires OthersKept(r1, r2, id)
    requires r2[id] == r1[id].(ns := r2[id].ns, sent := w.first(k) != Blocked || r1[id].sent, marked := w.first(k) == Blocked)
    requires Resent(r2, r3) && forall x :: x in r3 && r3[x].ns.None? ==> r3[x] == r2[x]
    requires forall x :: x in r3 && r3[x].ns.Some? ==> (r3[x].marked <==> r2[x].marked && w.sweep(k)(x) == Blocked)
    requires forall x :: x in r3 && r3[x].ns.Some? ==>
      (r3[x].sent <==> r2[x].sent || (r2[x].marked && w.sweep(k)(x) != Blocked))
    ensures Turned(r0, r3, id, w, k)
    ensures r0.Keys == r2.Keys == r3.Keys
  {
  }

  /** A pump that promoted the first k of the waiting requests, in order. */
  ghost predicate Pumped(was: Reqs, waiting: seq<nat>, k: nat, w: World, reqs: Reqs) {
    && was.Keys == reqs.Keys && k <= |waiting|
    && (forall x :: x in was && was[x].ns.Some? ==> Resweeped(was[x], reqs[x], HeldBack(w, x, 0, k)))
    && (forall j :: 0 <= j < k ==>
          waiting[j] in reqs
          && Launched(reqs[waiting[j]], w.transId(j), w.first(j) == Blocked && HeldBack(w, waiting[j], j, k)))
    && (forall j :: k <= j < |waiting| ==> waiting[j] in was && reqs[waiting[j]] == was[waiting[j]])
  }

  lemma PumpedKeys(was: Reqs, waiting: seq<nat>, k: nat, w: World, reqs: Reqs)
    requires Pumped(was, waiting, k, w, reqs)
    ensures was.Keys == reqs.Keys
  {
  }

  lemma HeldStep(w: World, id: nat, from: nat, k: nat)
    requires from <= k
    ensures HeldBack(w, id, from, from)
    ensures HeldBack(w, id, from, k + 1) <==> HeldBack(w, id, from, k) && w.sweep(k)(id) == Blocked
  {
  }

  lemma PumpStart(reqs: Reqs, heads: seq<seq<nat>>, waiting: seq<nat>, w: World, ring: seq<nat>, servers: Servers)
    requires ListsOk(reqs, heads, waiting) && Tried(reqs)
    ensures Pumped(reqs, waiting, 0, w, reqs)
    ensures forall good :: InStep(w, 0, waiting, ring, servers, good, ring, servers, good, reqs)
  {
    WaitingAre(reqs, heads, waiting);
    hide ListsOk;
    forall j | 0 <= j < |waiting|
      ensures waiting[j] in reqs
    {
      assert waiting[j] in waiting;
    }
  }

  lemma WaitingAre(reqs: Reqs, heads: seq<seq<nat>>, waiting: seq<nat>)
    requires ListsOk(reqs, heads, waiting)
    ensures NoDup(waiting) && forall id :: id in waiting <==> id in reqs && reqs[id].ns.None?
  {
  }

  lemma PumpStep(was: Reqs, heads: seq<seq<nat>>, waiting: seq<nat>, k: nat, w: World, mid: Reqs, reqs: Reqs)
    requires ListsOk(was, heads, waiting) && k < |waiting|
    requires Pumped(was, waiting, k, w, mid) && Turned(mid, reqs, waiting[k], w, k)
    ensures Pumped(was, waiting, k + 1, w, reqs)
  {
    WaitingAre(was, heads, waiting);
    hide ListsOk, HeldBack;
    var id := waiting[k];
    assert id in waiting;
    forall x | x in was && was[x].ns.Some?
      ensures Resweeped(was[x], reqs[x], HeldBack(w, x, 0, k + 1))
    {
      HeldStep(w, x, 0, k);
    }
    forall j | 0 <= j < k + 1
      ensures waiting[j] in reqs
      ensures Launched(reqs[waiting[j]], w.transId(j), w.first(j) == Blocked && HeldBack(w, waiting[j], j, k + 1))
    {
      HeldStep(w, waiting[j], j, k);
    }
    forall j | k + 1 <= j < |waiting|
      ensures waiting[j] in was && reqs[waiting[j]] == was[waiting[j]]
    {
      assert waiting[j] in waiting;
    }
  }

  /** The ring after n picks, while some server is up. */
  ghost function RingAfter(ring: seq<nat>, servers: Servers, n: nat): seq<nat> {
    if n == 0 then ring
    else
      var r := RingAfter(ring, servers, n - 1);
      if FirstUp(r, servers) < |r| then Rotated(r, FirstUp(r, servers) + 1) else r
  }

  /** The first k requests of the queue went to the servers of the first k picks. */
  ghost predicate InTurn(waiting: seq<nat>, k: nat, ring: seq<nat>, servers: Servers, reqs: Reqs) {
    k <= |waiting| && forall j :: 0 <= j < k ==> waiting[j] in reqs && reqs[waiting[j]].ns == NthPick(ring, servers, j)
  }

  lemma {:induction false} NthAfter(ring: seq<nat>, servers: Servers, n: nat)
    ensures var r := RingAfter(ring, servers, n);
      NthPick(ring, servers, n) == if FirstUp(r, servers) < |r| then Some(r[FirstUp(r, servers)]) else None
    decreases n
  {
    hide FirstUp, Rotated;
    var k := FirstUp(ring, servers);
    if n > 0 {
      if k < |ring| {
        NthAfter(Rotated(ring, k + 1), servers, n - 1);
        RingShift(ring, servers, n);
      } else {
        RingStuck(ring, servers, n);
      }
    }
  }

  lemma {:induction false} RingShift(ring: seq<nat>, servers: Servers, n: nat)
    requires n > 0 && FirstUp(ring, servers) < |ring|
    ensures RingAfter(ring, servers, n) == RingAfter(Rotated(ring, FirstUp(ring, servers) + 1), servers, n - 1)
  {
    hide FirstUp, Rotated;
    if n > 1 {
      RingShift(ring, servers, n - 1);
    }
  }

  lemma {:induction false} RingStuck(ring: seq<nat>, servers: Servers, n: nat)
    requires FirstUp(ring, servers) == |ring|
    ensures RingAfter(ring, servers, n) == ring
  {
    hide FirstUp, Rotated;
    if n > 0 {
      RingStuck(ring, servers, n - 1);
    }
  }

  lemma {:induction false} FirstUpSame(ring: seq<nat>, was: Servers, servers: Servers)
    requires SameUp(was, servers)
    ensures FirstUp(ring, was) == FirstUp(ring, servers)
  {
    if ring != [] {
      FirstUpSame(ring[1..], was, servers);
    }
  }

  lemma TurnStep(waiting: seq<nat>, k: nat, ring: seq<nat>, was: Servers, mid: Servers, servers: Servers, good: int,
                 reqs0: Reqs, reqs: Reqs, ns: Option<nat>)
    requires NoDup(waiting) && k < |waiting| && InTurn(waiting, k, ring, was, reqs0) && good > 0
    requires SameUp(was, mid) && SameUp(mid, servers) && reqs0.Keys == reqs.Keys && waiting[k] in reqs
    requires var r := RingAfter(ring, was, k); FirstUp(r, mid) < |r| && ns == Some(r[FirstUp(r, mid)])
    requires reqs[waiting[k]].ns == ns
    requires forall x :: x in reqs && x != waiting[k] ==> reqs[x].ns == reqs0[x].ns
    ensures SameUp(was, servers) && InTurn(waiting, k + 1, ring, was, reqs)
    ensures var r := RingAfter(ring, was, k); RingAfter(ring, was, k + 1) == Rotated(r, FirstUp(r, mid) + 1)
  {
    hide FirstUp, Rotated;
    FirstUpSame(RingAfter(ring, was, k), was, mid);
    NthAfter(ring, was, k);
  }

  /** After k turns in which no socket failed, servers and ring are where k picks bring them,
      and the k-th request went to the k-th server picked. */
  ghost predicate InStep(w: World, k: nat, waiting: seq<nat>, ring0: seq<nat>, was: Servers, good0: int,
                         ring: seq<nat>, servers: Servers, good: int, reqs: Reqs) {
    Smooth(w, k) && good0 > 0 ==>
      good == good0 && SameUp(was, servers) && ring == RingAfter(ring0, was, k) && InTurn(waiting, k, ring0, was, reqs)
  }

  lemma InStepEnds(w: World, k: nat, waiting: seq<nat>, ring0: seq<nat>, was: Servers, good0: int,
                   ring: seq<nat>, servers: Servers, good: int, reqs: Reqs)
    requires InStep(w, k, waiting, ring0, was, good0, ring, servers, good, reqs)
    ensures Smooth(w, k) && good0 > 0 ==> InTurn(waiting, k, ring0, was, reqs)
  {
  }

  lemma InStepNext(w: World, k: nat, waiting: seq<nat>, ring0: seq<nat>, was: Servers, good0: int,
                   ring: seq<nat>, mid: Servers, good: int, reqs0: Reqs, ns: Option<nat>, ring': seq<nat>, servers: Servers, good': int, reqs: Reqs)
    requires NoDup(waiting) && k < |waiting| && reqs0.Keys == reqs.Keys && waiting[k] in reqs
    requires InStep(w, k, waiting, ring0, was, good0, ring, mid, good, reqs0)
    requires good > 0 ==> FirstUp(ring, mid) < |ring| && ns == Some(ring[FirstUp(ring, mid)])
    requires Calm(w, k) ==>
      && SameUp(mid, servers) && ring' == RingNext(ring, mid, good) && good' == good && reqs[waiting[k]].ns == ns
      && forall x :: x in reqs && x != waiting[k] ==> reqs[x].ns == reqs0[x].ns
    ensures InStep(w, k + 1, waiting, ring0, was, good0, ring', servers, good', reqs)
  {
    hide FirstUp, Rotated, InTurn, Smooth, Calm, NoDup, SameUp, RingAfter;
    SmoothStep(w, k);
    if Smooth(w, k + 1) && good0 > 0 {
      TurnStep(waiting, k, ring0, was, mid, servers, good, reqs0, reqs, ns);
    }
  }

  /** No server came up. */
  ghost predicate NoneRaised(was: Servers, servers: Servers) {
    && was.Keys == servers.Keys
    && (forall s :: s in was ==> servers[s].probe == was[s].probe && (servers[s].up ==> was[s].up))
  }

  lemma NoneRaisedSelf(servers: Servers)
    ensures NoneRaised(servers, servers)
  {
  }

  lemma NoneRaisedTrans(a: Servers, b: Servers, c: Servers)
    requires NoneRaised(a, b) && NoneRaised(b, c)
    ensures NoneRaised(a, c)
  {
  }

  /** Nothing but the servers of the requests, and request id, changed. */
  ghost predicate OthersKept(was: Reqs, reqs: Reqs, id: nat) {
    && was.Keys == reqs.Keys && id in reqs
    && (forall x :: x in was ==> (reqs[x].ns.None? <==> was[x].ns.None?))
    && (forall x :: x in was && x != id ==> reqs[x] == was[x].(ns := reqs[x].ns))
  }

  /** A sweep keeps the transaction ids, and which requests wait. */
  ghost predicate Resent(was: Reqs, reqs: Reqs) {
    && was.Keys == reqs.Keys
    && (forall x :: x in was ==> reqs[x].transId == was[x].transId && (reqs[x].ns.None? <==> was[x].ns.None?))
  }

  ghost predicate SentAgain(was: Req, r: Req, outcome: Outcome) {
    r == was.(ns := r.ns, sent := outcome != Blocked || was.sent, marked := outcome == Blocked)
  }

  /** A sweep over the requests of a list. */
  ghost predicate SweptList(was: Reqs, reqs: Reqs, list: seq<nat>, outcome: nat -> Outcome, tried: bool) {
    && Resent(was, reqs)
    && (forall id :: id in reqs ==>
          if id in list && was[id].marked then SentAgain(was[id], reqs[id], outcome(id))
          else reqs[id] == was[id].(ns := reqs[id].ns))
    && (tried <==> exists id :: id in list && id in was && was[id].marked)
  }

  lemma SweptNone(reqs: Reqs, outcome: nat -> Outcome)
    ensures SweptList(reqs, reqs, [], outcome, false)
  {
  }

  lemma SweptSkip(was: Reqs, reqs: Reqs, list: seq<nat>, id: nat, outcome: nat -> Outcome, tried: bool)
    requires SweptList(was, reqs, list, outcome, tried) && id in reqs && !reqs[id].marked && id !in list
    ensures SweptList(was, reqs, list + [id], outcome, tried)
  {
    assert forall x :: x in list + [id] <==> x in list || x == id;
  }

  lemma SweptSend(was: Reqs, before: Reqs, reqs: Reqs, list: seq<nat>, id: nat, outcome: nat -> Outcome)
    requires id !in list && (SweptList(was, before, list, outcome, true) || SweptList(was, before, list, outcome, false))
    requires OthersKept(before, reqs, id) && before[id].marked && SentAgain(before[id], reqs[id], outcome(id))
    ensures SweptList(was, reqs, list + [id], outcome, true)
  {
    assert forall x :: x in list + [id] <==> x in list || x == id;
    assert id in list + [id] && was[id].marked;
  }

  lemma SweptBucket(was: Reqs, reqs: Reqs, heads: seq<seq<nat>>, waiting: seq<nat>, i: nat, outcome: nat -> Outcome, tried: bool)
    requires ListsOk(reqs, heads, waiting) && i < |heads| && SweptList(was, reqs, heads[i], outcome, tried)
    ensures SweptOnce(was, reqs, |heads|, i, outcome, tried)
  {
    hide ListsOk;
    forall id
      ensures id in heads[i] <==> id in reqs && reqs[id].ns.Some? && reqs[id].transId % |heads| == i
    {
      AssignedIn(reqs, heads, waiting, i, id);
    }
  }

  /** A sweep of bucket i of n. */
  ghost predicate SweptOnce(was: Reqs, reqs: Reqs, n: nat, i: nat, outcome: nat -> Outcome, tried: bool)
    requires n > 0
  {
    && Resent(was, reqs)
    && (forall id :: id in reqs ==>
          if reqs[id].ns.Some? && reqs[id].transId % n == i && was[id].marked
          then SentAgain(was[id], reqs[id], outcome(id))
          else reqs[id] == was[id].(ns := reqs[id].ns))
    && (tried <==> exists id :: id in was && was[id].ns.Some? && was[id].transId % n == i && was[id].marked)
  }

  lemma SweepStart(reqs: Reqs, n: nat, outcome: nat -> Outcome)
    requires n > 0
    ensures Swept(reqs, reqs, n, 0, outcome, false) && SameServers(reqs, reqs)
  {
  }

  lemma SweepStep(was: Reqs, mid: Reqs, reqs: Reqs, n: nat, i: nat, outcome: nat -> Outcome, tried: bool, more: bool)
    requires n > 0 && Swept(was, mid, n, i, outcome, tried) && SweptOnce(mid, reqs, n, i, outcome, more)
    ensures Swept(was, reqs, n, i + 1, outcome, tried || more)
  {
    assert Resent(was, reqs);
    hide Resent;
    SweepTried(was, mid, n, i, outcome, tried, more);
  }

  lemma SweepTried(was: Reqs, mid: Reqs, n: nat, i: nat, outcome: nat -> Outcome, tried: bool, more: bool)
    requires n > 0 && Swept(was, mid, n, i, outcome, tried)
    requires more <==> exists id :: id in mid && mid[id].ns.Some? && mid[id].transId % n == i && mid[id].marked
    ensures tried || more <==> exists id :: id in was && was[id].ns.Some? && was[id].transId % n < i + 1 && was[id].marked
  {
    if tried {
      var id :| id in was && was[id].ns.Some? && was[id].transId % n < i && was[id].marked;
      assert was[id].transId % n < i + 1;
    }
    if more {
      var id :| id in mid && mid[id].ns.Some? && mid[id].transId % n == i && mid[id].marked;
      assert was[id].marked && was[id].transId % n < i + 1;
    }
    if exists id :: id in was && was[id].ns.Some? && was[id].transId % n < i + 1 && was[id].marked {
      var id :| id in was && was[id].ns.Some? && was[id].transId % n < i + 1 && was[id].marked;
      assert was[id].transId % n == i ==> mid[id].transId % n == i && mid[id].marked;
    }
  }

  lemma SweepEnd(was: Reqs, reqs: Reqs, n: nat, outcome: nat -> Outcome, tried: bool)
    requires n > 0 && Swept(was, reqs, n, n, outcome, tried)
    ensures Resent(was, reqs) && (Tried(was) ==> Tried(reqs))
    ensures forall id :: id in reqs && reqs[id].ns.None? ==> reqs[id] == was[id]
    ensures forall id :: id in reqs && reqs[id].ns.Some? ==> (reqs[id].marked <==> was[id].marked && outcome(id) == Blocked)
    ensures forall id :: id in reqs && reqs[id].ns.Some? ==>
      (reqs[id].sent <==> was[id].sent || (was[id].marked && outcome(id) != Blocked))
    ensures tried <==> exists id :: id in was && was[id].ns.Some? && was[id].marked
  {
  }

  /** A sweep after the first i of n buckets. */
  ghost predicate Swept(was: Reqs, reqs: Reqs, n: nat, i: nat, outcome: nat -> Outcome, tried: bool)
    requires n > 0
  {
    && Resent(was, reqs)
    && (forall id :: id in reqs ==>
          if reqs[id].ns.Some? && reqs[id].transId % n < i && was[id].marked
          then SentAgain(was[id], reqs[id], outcome(id))
          else reqs[id] == was[id].(ns := reqs[id].ns))
    && (tried <==> exists id :: id in was && was[id].ns.Some? && was[id].transId % n < i && was[id].marked)
  }

  /** Only the servers of assigned requests changed. */
  ghost predicate Shuffled(was: Reqs, reqs: Reqs) {
    && was.Keys == reqs.Keys
    && (forall id :: id in was ==> reqs[id] == was[id].(ns := reqs[id].ns) && (reqs[id].ns.None? <==> was[id].ns.None?))
  }

  lemma AssignedIn(reqs: Reqs, heads: seq<seq<nat>>, waiting: seq<nat>, i: nat, id: nat)
    requires ListsOk(reqs, heads, waiting) && i < |heads|
    ensures id in heads[i] <==> id in reqs && reqs[id].ns.Some? && reqs[id].transId % |heads| == i
  {
    assert HoldsBucket(heads[i], reqs, |heads|, i);
  }

  lemma UpDown(ring: seq<nat>, servers: Servers, good: int, s: nat, d: Server)
    requires RingOk(ring, servers, good) && s in servers && servers[s].up != d.up
    ensures RingOk(ring, servers[s := d], if d.up then good + 1 else good - 1)
    ensures !d.up ==> good >= 1
  {
    if d.up {
      assert UpSet(servers[s := d]) == UpSet(servers) + {s};
    } else {
      assert s in UpSet(servers);
      assert UpSet(servers[s := d]) == UpSet(servers) - {s};
    }
  }

  lemma CountsKeep(reqs: Reqs, servers: Servers, s: nat, d: Server)
    requires CountsOk(reqs, servers) && s in servers && d.inflight == servers[s].inflight
    ensures CountsOk(reqs, servers[s := d])
  {
  }

  lemma SentKeeps(reqs: Reqs, heads: seq<seq<nat>>, waiting: seq<nat>, servers: Servers, id: nat, sent: bool, marked: bool)
    requires ListsOk(reqs, heads, waiting) && CountsOk(reqs, servers) && id in reqs
    ensures ListsOk(reqs[id := reqs[id].(sent := sent, marked := marked)], heads, waiting)
    ensures CountsOk(reqs[id := reqs[id].(sent := sent, marked := marked)], servers)
  {
    var reqs' := reqs[id := reqs[id].(sent := sent, marked := marked)];
    forall s: nat
      ensures Of(reqs', s) == Of(reqs, s)
    {
    }
  }

  lemma BucketDistinct(reqs: Reqs, heads: seq<seq<nat>>, waiting: seq<nat>, i: nat)
    requires ListsOk(reqs, heads, waiting) && i < |heads|
    ensures NoDup(heads[i])
  {
    assert HoldsBucket(heads[i], reqs, |heads|, i);
  }

  function After(ring: seq<nat>, s: nat): seq<nat> {
    if ring == [] then [s] else [ring[0], s] + ring[1..]
  }

  lemma RingNew(ring: seq<nat>, servers: Servers, good: int, s: nat)
    requires RingOk(ring, servers, good) && s !in servers
    ensures RingOk(After(ring, s), servers[s := Server(true, 0, None)], good + 1)
  {
    hide After;
    RingAdd(ring, s);
    assert UpSet(servers[s := Server(true, 0, None)]) == UpSet(servers) + {s};
  }

  lemma CountsNew(reqs: Reqs, servers: Servers, s: nat)
    requires CountsOk(reqs, servers) && s !in servers
    ensures CountsOk(reqs, servers[s := Server(true, 0, None)])
  {
    assert Of(reqs, s) == {};
  }

  // ------------------------------------------------------------ rehashing

  /** The requests without a server, and those of the buckets already moved. */
  ghost predicate PartOf(part: Reqs, reqs: Reqs, moved: seq<nat>) {
    && (forall id :: id in part ==> id in reqs && part[id] == reqs[id])
    && (forall id :: id in reqs ==> (id in part <==> reqs[id].ns.None? || id in moved))
  }

  /** Move every request of the old buckets to the new ones, from the front of each. */
  method Rehash(reqs: Reqs, heads: seq<seq<nat>>, waiting: seq<nat>, n: nat) returns (heads': seq<seq<nat>>)
    requires ListsOk(reqs, heads, waiting) && n > 0
    ensures ListsOk(reqs, heads', waiting) && |heads'| == n && TotalLen(heads') == TotalLen(heads)
  {
    hide ListsOk, TotalLen, PartOf;
    ListsAny(reqs, heads, waiting);
    heads' := seq(n, i => []);
    ghost var part := Unassigned(reqs);
    ghost var moved: seq<nat> := [];
    NothingQueued(heads');
    RehashStart(reqs, heads, waiting, heads');
    for i := 0 to |heads|
      invariant ListsOk(part, heads', waiting) && |heads'| == n && PartOf(part, reqs, moved)
      invariant TotalLen(heads') == TotalLen(heads[..i])
      invariant forall id :: id in moved ==> id in reqs && reqs[id].transId % |heads| < i
      invariant forall x, id :: 0 <= x < i && id in heads[x] ==> id in moved
    {
      ghost var before := moved;
      for j := 0 to |heads[i]|
        invariant ListsOk(part, heads', waiting) && |heads'| == n && PartOf(part, reqs, moved)
        invariant TotalLen(heads') == TotalLen(heads[..i]) + j && moved == before + heads[i][..j]
      {
        var id := heads[i][j];
        AssignedIn(reqs, heads, waiting, i, id);
        NotMoved(reqs, heads, waiting, i, j, before);
        PartStep(part, reqs, moved, id);
        ListsAny(part, heads', waiting);
        ListsWith(part, heads', waiting, id, reqs[id]);
        heads' := HeadsWith(heads', reqs[id], id);
        part := part[id := reqs[id]];
        moved := moved + [id];
        assert heads[i][..j + 1] == heads[i][..j] + [id];
      }
      assert heads[i][..|heads[i]|] == heads[i];
      forall id | id in heads[i]
        ensures id in reqs && reqs[id].transId % |heads| == i
      {
        AssignedIn(reqs, heads, waiting, i, id);
      }
      TotalLenSnoc(heads, i);
    }
    assert heads[..|heads|] == heads;
    RehashEnd(reqs, heads, waiting, part, moved);
  }

  ghost function Unassigned(reqs: Reqs): Reqs {
    map id | id in reqs && reqs[id].ns.None? :: reqs[id]
  }

  lemma RehashStart(reqs: Reqs, heads: seq<seq<nat>>, waiting: seq<nat>, fresh': seq<seq<nat>>)
    requires ListsOk(reqs, heads, waiting) && fresh' != [] && forall i :: 0 <= i < |fresh'| ==> fresh'[i] == []
    ensures ListsOk(Unassigned(reqs), fresh', waiting) && PartOf(Unassigned(reqs), reqs, [])
    ensures heads[..0] == [] && TotalLen([]) == 0
  {
  }

  lemma PartStep(part: Reqs, reqs: Reqs, moved: seq<nat>, id: nat)
    requires PartOf(part, reqs, moved) && id in reqs && id !in moved && reqs[id].ns.Some?
    ensures id !in part && PartOf(part[id := reqs[id]], reqs, moved + [id])
  {
  }

  lemma NotMoved(reqs: Reqs, heads: seq<seq<nat>>, waiting: seq<nat>, i: nat, j: nat, before: seq<nat>)
    requires ListsOk(reqs, heads, waiting) && i < |heads| && j < |heads[i]|
    requires forall id :: id in before ==> id in reqs && reqs[id].transId % |heads| < i
    ensures heads[i][j] !in before + heads[i][..j]
  {
    assert HoldsBucket(heads[i], reqs, |heads|, i);
    assert heads[i][j] in heads[i];
  }

  lemma {:induction false} TotalLenSnoc(heads: seq<seq<nat>>, i: nat)
    requires i < |heads|
    ensures TotalLen(heads[..i + 1]) == TotalLen(heads[..i]) + |heads[i]|
  {
    if i == 0 {
      assert heads[..1] == [heads[0]];
      assert heads[..1][1..] == [];
    } else {
      TotalLenSnoc(heads[1..], i - 1);
      assert heads[..i + 1][1..] == heads[1..][..i] && heads[..i][1..] == heads[1..][..i - 1];
    }
  }

  lemma RehashEnd(reqs: Reqs, heads: seq<seq<nat>>, waiting: seq<nat>, part: Reqs, moved: seq<nat>)
    requires ListsOk(reqs, heads, waiting) && PartOf(part, reqs, moved)
    requires forall x, id :: 0 <= x < |heads| && id in heads[x] ==> id in moved
    ensures part == reqs
  {
    forall id | id in reqs
      ensures id in part
    {
      if reqs[id].ns.Some? {
        AssignedIn(reqs, heads, waiting, reqs[id].transId % |heads|, id);
      }
    }
  }

  lemma RingAdd(ring: seq<nat>, s: nat)
    requires NoDup(ring) && s !in ring
    ensures NoDup(After(ring, s)) && forall x :: x in After(ring, s) <==> x in ring || x == s
  {
    if ring != [] {
      var r := [ring[0], s] + ring[1..];
      assert forall i :: 2 <= i < |r| ==> r[i] == ring[i - 1];
      assert forall x :: x in ring <==> x == ring[0] || x in ring[1..];
    }
  }

  lemma AssignedKnown(reqs: Reqs, servers: Servers, id: nat)
    requires CountsOk(reqs, servers) && id in reqs && reqs[id].ns.Some?
    ensures reqs[id].ns.value in servers
  {
  }

  lemma WaitingKnown(reqs: Reqs, heads: seq<seq<nat>>, waiting: seq<nat>)
    requires ListsOk(reqs, heads, waiting) && waiting != []
    ensures waiting[0] in reqs && reqs[waiting[0]].ns.None?
  {
    assert waiting[0] in waiting;
  }

  lemma ListsAny(reqs: Reqs, heads: seq<seq<nat>>, waiting: seq<nat>)
    requires ListsOk(reqs, heads, waiting)
    ensures heads != []
  {
  }

  /** An assigned request means there is a server. */
  lemma HasRing(reqs: Reqs, servers: Servers, ring: seq<nat>, good: int, id: nat)
    requires CountsOk(reqs, servers) && RingOk(ring, servers, good) && id in reqs && reqs[id].ns.Some?
    ensures ring != []
  {
    assert reqs[id].ns.value in ring;
  }

  lemma ListsReassign(reqs: Reqs, heads: seq<seq<nat>>, waiting: seq<nat>, id: nat, r: Req)
    requires ListsOk(reqs, heads, waiting) && id in reqs && reqs[id].ns.Some? && r.ns.Some? && r.transId == reqs[id].transId
    ensures ListsOk(reqs[id := r], heads, waiting)
  {
  }

  /** The search of nameserver_pick over the ring. */
  method PickFrom(ring: seq<nat>, servers: Servers, good: int) returns (ns: Option<nat>, ring': seq<nat>)
    requires RingOk(ring, servers, good)
    ensures RingOk(ring', servers, good)
    ensures ns.None? <==> ring == []
    ensures ns.Some? ==> ns.value in servers
    ensures Moved(ring, servers, good) <= |ring| && ring' == Rotated(ring, Moved(ring, servers, good))
    ensures good > 0 ==> FirstUp(ring, servers) < |ring| && ns == Some(ring[FirstUp(ring, servers)])
    ensures ns == Picked(ring, servers, good)
  {
    hide RingOk, FirstUp, Rotated, NoDup, Picked;
    RotatedNone(ring);
    PickedIs(ring, servers, good);
    if good > 0 {
      SomeUp(ring, servers, good);
    }
    if ring == [] {
      return None, ring;
    }
    RingRotated(ring, servers, good, 1);
    RotatedOnce(ring, 0);
    if good == 0 {
      ring' := ring[1..] + [ring[0]];
      RotatedHead(ring, 1);
      return Some(ring'[0]), ring';
    }
    GoodPositive(ring, servers, good);
    ghost var k := FirstUp(ring, servers);
    ghost var i := 0;
    ring' := ring;
    RotatedHead(ring, 0);
    RingKnown(ring, servers, good);
    while !servers[ring'[0]].up
      invariant i <= k && |ring'| == |ring| && ring' == Rotated(ring, i) && ring'[0] == ring[i]
      decreases k - i
    {
      FirstUpNot(ring, servers, i);
      RotatedOnce(ring, i);
      RotatedHead(ring, i + 1);
      ring' := ring'[1..] + [ring'[0]];
      i := i + 1;
      // The head is not back where it started, so the code's assertion that all servers
      // are down is never reached.
      NotBack(ring, servers, good, i);
      assert ring'[0] != ring[0];
    }
    FirstUpAt(ring, servers, i);
    RotatedOnce(ring, i);
    RingRotated(ring, servers, good, i + 1);
    return Some(ring'[0]), ring'[1..] + [ring'[0]];
  }

  lemma PickedIs(ring: seq<nat>, servers: Servers, good: int)
    ensures ring == [] ==> Picked(ring, servers, good) == None
    ensures ring != [] && good == 0 ==> Picked(ring, servers, good) == Some(ring[if |ring| == 1 then 0 else 1])
    ensures good > 0 && FirstUp(ring, servers) < |ring| ==>
      Picked(ring, servers, good) == Some(ring[FirstUp(ring, servers)])
  {
  }

  lemma RotatedNone(ring: seq<nat>)
    ensures Rotated(ring, 0) == ring
  {
  }

  /** The head of the ring after k steps; after a full turn it is the first again. */
  lemma RotatedHead(ring: seq<nat>, k: nat)
    requires k <= |ring| && ring != []
    ensures Rotated(ring, k)[0] == ring[if k == |ring| then 0 else k]
    ensures Rotated(ring, k)[0] in ring
  {
  }

  lemma RingRotated(ring: seq<nat>, servers: Servers, good: int, k: nat)
    requires RingOk(ring, servers, good) && k <= |ring|
    ensures RingOk(Rotated(ring, k), servers, good)
  {
    RotatedMembers(ring, k);
  }

  lemma RingKnown(ring: seq<nat>, servers: Servers, good: int)
    requires RingOk(ring, servers, good)
    ensures forall s :: s in ring ==> s in servers
  {
  }

  lemma NotBack(ring: seq<nat>, servers: Servers, good: int, i: nat)
    requires RingOk(ring, servers, good) && 0 < i < |ring|
    ensures ring[i] != ring[0]
  {
  }

  lemma GoodPositive(ring: seq<nat>, servers: Servers, good: int)
    requires RingOk(ring, servers, good)
    ensures good >= 0
  {
  }

  lemma FirstUpNot(ring: seq<nat>, servers: Servers, i: nat)
    requires i < |ring| && i <= FirstUp(ring, servers) && ring[i] in servers && !servers[ring[i]].up
    ensures i < FirstUp(ring, servers)
  {
  }

  lemma FirstUpAt(ring: seq<nat>, servers: Servers, i: nat)
    requires i < |ring| && i <= FirstUp(ring, servers) && ring[i] in servers && servers[ring[i]].up
    ensures i == FirstUp(ring, servers)
  {
  }

  // ------------------------------------------------------------ whole runs

  datatype Op =
    | OpSubmit(transId: TransId, outcome: Outcome)
    | OpFinish(id: nat)
    | OpSwap(id: nat)
    | OpResend(id: nat, outcome: Outcome)
    | OpReissue(id: nat)
    | OpTransmitAll(outcomes: nat -> Outcome)
    | OpPump
    | OpFailed(s: nat)
    | OpUp(s: nat)
    | OpProbe(s: nat, transId: TransId, outcome: Outcome)
    | OpAddServer(s: nat)
    | OpSetMax(max: int)

  /** What a run can be told by. */
  datatype Snap = Snap(reqs: Reqs, servers: Servers, ring: seq<nat>, good: int, waiting: seq<nat>, inflight: int, max: int, nextId: nat)

  /** The server that nameserver_pick gives next. */
  ghost function NextServer(s: Snap): Option<nat> {
    Picked(s.ring, s.servers, s.good)
  }

  predicate Assigned(s: Snap, id: nat) {
    id in s.reqs && s.reqs[id].ns.Some?
  }

  /** The requests and servers after an operation, which does nothing when it names one that
      is not there. */
  ghost predicate Did(op: Op, w: World, was: Snap, now: Snap) {
    match op
    case OpSubmit(transId, outcome) => Joined(was, now) && SubmittedAs(was, now, transId, outcome)
    case OpProbe(s, transId, outcome) =>
      if s in was.servers then Joined(was, now) && ProbedAs(was, now, s, transId, outcome) else now == was
    case OpFinish(id) =>
      if id !in was.reqs then now == was
      else Emptied(w, was.reqs - {id}, Shorter(was.reqs, was.waiting, id), now.reqs, now.waiting) && now.servers.Keys == was.servers.Keys && now.nextId == was.nextId
    case OpPump => Emptied(w, was.reqs, was.waiting, now.reqs, now.waiting) && now.servers.Keys == was.servers.Keys && now.nextId == was.nextId
    case OpUp(s) =>
      if s !in was.servers || was.servers[s].up then now == was
      else
        && now.servers.Keys == was.servers.Keys && now.servers[s].up && now.servers[s].probe == None && now.nextId == was.nextId
        && var probe := was.servers[s].probe;
        if probe.Some? && probe.value in was.reqs
        then Emptied(w, was.reqs - {probe.value}, Shorter(was.reqs, was.waiting, probe.value), now.reqs, now.waiting)
        else now.reqs == was.reqs && now.waiting == was.waiting
    case OpFailed(s) =>
      if s !in was.servers then now == was
      else
        && OnlyDown(was.servers, now.servers, s) && Shuffled(was.reqs, now.reqs) && MovedFrom(was.reqs, now.reqs, now.servers, s)
        && SameQueue(was, now) && (was.servers[s].up && now.good > 0 ==> Deserted(now.reqs, s))
    case OpAddServer(s) =>
      if s in was.servers then now == was
      else
        && now.servers == was.servers[s := Server(true, 0, None)] && now.reqs == was.reqs && SameQueue(was, now)
        && now.ring == if was.ring == [] then [s] else [was.ring[0], s] + was.ring[1..]
    case OpSetMax(max) => now == was.(max := if max < 1 then 1 else max)
    case OpResend(id, outcome) =>
      if Assigned(was, id)
      then OthersKept(was.reqs, now.reqs, id) && SentAgain(was.reqs[id], now.reqs[id], outcome) && SameQueue(was, now)
      else now == was
    case OpSwap(id) =>
      if Assigned(was, id)
      then SwappedTo(was, now, id, was.reqs[id].(ns := NextServer(was))) && SameQueue(was, now)
      else now == was
    case OpReissue(id) =>
      if Assigned(was, id) && was.reqs[id].ns != NextServer(was)
      then SwappedTo(was, now, id, was.reqs[id].(ns := NextServer(was), sent := false, marked := true)) && SameQueue(was, now)
      else now.reqs == was.reqs && SameQueue(was, now)
    case OpTransmitAll(outcomes) =>
      SweptAll(was.reqs, now.reqs, outcomes) && SameQueue(was, now) && NoneRaised(was.servers, now.servers)
  }

  ghost predicate SwappedTo(was: Snap, now: Snap, id: nat, r: Req) {
    && now.reqs == was.reqs[id := r] && SameUp(was.servers, now.servers)
    && now.good == was.good && now.ring == RingNext(was.ring, was.servers, was.good)
  }

  /** Nothing that is still to be sent is on server s. */
  ghost predicate Deserted(reqs: Reqs, s: nat) {
    forall id :: id in reqs && !reqs[id].sent ==> reqs[id].ns != Some(s)
  }

  /** Every marked inflight request is tried once. */
  ghost predicate SweptAll(was: Reqs, reqs: Reqs, outcome: nat -> Outcome) {
    && Resent(was, reqs)
    && (forall id :: id in reqs && reqs[id].ns.None? ==> reqs[id] == was[id])
    && (forall id :: id in reqs && reqs[id].ns.Some? ==>
          && (reqs[id].marked <==> was[id].marked && outcome(id) == Blocked)
          && (reqs[id].sent <==> was[id].sent || (was[id].marked && outcome(id) != Blocked)))
  }

  ghost predicate SameQueue(was: Snap, now: Snap) {
    now.waiting == was.waiting && now.nextId == was.nextId && now.max == was.max
  }

  /** A new request: inflight or at the end of the queue. */
  ghost predicate Joined(was: Snap, now: Snap) {
    && now.nextId == was.nextId + 1 && was.nextId !in was.reqs && now.reqs.Keys == was.reqs.Keys + {was.nextId}
    && (forall x :: x in was.reqs ==> now.reqs[x] == was.reqs[x].(ns := now.reqs[x].ns))
    && now.waiting == (if now.reqs[was.nextId].ns.None? then was.waiting + [was.nextId] else was.waiting)
    && now.servers.Keys == was.servers.Keys && now.max == was.max
  }

  /** With room and a server it is sent at once, or marked to be sent, to the next server. */
  ghost predicate SubmittedAs(was: Snap, now: Snap, transId: TransId, outcome: Outcome)
    requires Joined(was, now)
  {
    var r := now.reqs[was.nextId];
    && (r.ns.Some? <==> was.inflight < was.max && was.ring != [])
    && (r.ns.Some? ==> r == Req(transId, r.ns, outcome != Blocked, outcome == Blocked))
    && (r.ns.Some? && outcome != Broken ==> r.ns == NextServer(was))
    && (r.ns.None? || outcome != Broken ==> PickedIfRoom(was, now))
  }

  /** There was a pick if there was room, and the other requests stayed where they were. */
  ghost predicate PickedIfRoom(was: Snap, now: Snap)
    requires Joined(was, now)
  {
    && now.good == was.good && (forall x :: x in was.reqs ==> now.reqs[x] == was.reqs[x])
    && now.ring == if was.inflight < was.max then RingNext(was.ring, was.servers, was.good) else was.ring
  }

  ghost predicate ProbedAs(was: Snap, now: Snap, s: nat, transId: TransId, outcome: Outcome)
    requires Joined(was, now)
  {
    var r := now.reqs[was.nextId];
    && r == Req(transId, r.ns, outcome != Blocked, outcome == Blocked) && r.ns.Some? && (outcome != Broken ==> r.ns == Some(s))
    && s in now.servers && now.servers[s].probe == Some(was.nextId) && (outcome != Broken ==> PickedIfRoom(was, now))
  }

  ghost function SnapOf(b: DnsBase): Snap
    reads b
  {
    Snap(b.reqs, b.servers, b.ring, b.good, b.waiting, b.inflight, b.maxInflight, b.nextId)
  }

  lemma SoundFacts(b: DnsBase)
    requires b.Sound()
    ensures ListsOk(b.reqs, b.heads, b.waiting) && b.nWaiting == |b.waiting|
  {
  }

  lemma AssignedHere(b: DnsBase, id: nat)
    requires b.Sound() && id in b.reqs && b.reqs[id].ns.Some?
    ensures b.reqs[id].ns.value in b.servers
  {
  }

  lemma TriedAny(reqs: Reqs, id: nat)
    requires Tried(reqs)
    ensures TriedBut(reqs, id)
  {
  }

  lemma ResentOne(was: Reqs, reqs: Reqs, id: nat, outcome: Outcome)
    requires OthersKept(was, reqs, id)
    requires reqs[id] == was[id].(ns := reqs[id].ns, sent := outcome != Blocked || was[id].sent, marked := outcome == Blocked)
    ensures was.Keys == reqs.Keys && id in reqs && SentAgain(was[id], reqs[id], outcome)
  {
  }

  /** An operation that starts a request. */
  method RunNew(b: DnsBase, op: Op, w: World)
    requires b.Valid() && (op.OpSubmit? || op.OpProbe?)
    modifies b
    ensures b.Valid() && Did(op, w, old(SnapOf(b)), SnapOf(b))
  {
    hide DnsBase.Sound, Tried, RingNext, Picked;
    match op {
      case OpSubmit(transId, outcome) =>
        var id := b.Submit(transId, outcome);
      case OpProbe(s, transId, outcome) =>
        if s in b.servers {
          var id := b.Probe(s, transId, outcome);
        }
    }
  }

  method PumpAll(b: DnsBase, w: World)
    requires b.Valid()
    modifies b
    ensures b.Valid() && Emptied(w, old(b.reqs), old(b.waiting), b.reqs, b.waiting)
    ensures b.servers.Keys == old(b.servers).Keys && b.nextId == old(b.nextId)
  {
    hide DnsBase.Valid, Pumped;
    b.Pump(w);
  }

  /** An operation that ends requests or pumps the queue. */
  method RunQueue(b: DnsBase, op: Op, w: World)
    requires b.Valid() && (op.OpFinish? || op.OpPump? || op.OpUp?)
    modifies b
    ensures b.Valid() && Did(op, w, old(SnapOf(b)), SnapOf(b))
  {
    hide DnsBase.Sound, Shorter, Emptied, Pumped, Tried;
    match op {
      case OpFinish(id) =>
        if id in b.reqs {
          b.Finish(id, w);
        }
      case OpPump =>
        PumpAll(b, w);
      case OpUp(s) =>
        if s in b.servers {
          b.Up(s, w);
        }
    }
  }

  /** An operation on the servers or the limit. */
  method RunServers(b: DnsBase, op: Op, w: World)
    requires b.Valid() && (op.OpFailed? || op.OpAddServer? || op.OpSetMax?)
    modifies b
    ensures b.Valid() && Did(op, w, old(SnapOf(b)), SnapOf(b))
  {
    hide DnsBase.Sound, Tried, Shuffled, MovedFrom, OnlyDown;
    match op {
      case OpFailed(s) =>
        if s in b.servers {
          b.Failed(s);
        }
      case OpAddServer(s) =>
        if s !in b.servers {
          b.AddServer(s);
        }
      case OpSetMax(max) =>
        b.SetMax(max);
    }
  }

  /** One operation. */
  method RunOne(b: DnsBase, op: Op, w: World)
    requires b.Valid()
    modifies b
    ensures b.Valid() && Did(op, w, old(SnapOf(b)), SnapOf(b))
  {
    hide DnsBase.Sound, Tried, Shuffled, MovedFrom, OnlyDown, OthersKept, SameUp, SentAgain, Emptied, Joined, Picked, RingNext;
    MovedNone(b.reqs, b.servers, 0);
    match op {
      case OpSwap(id) =>
        if id in b.reqs && b.reqs[id].ns.Some? {
          b.Swap(id);
        }
      case OpResend(id, outcome) =>
        if id in b.reqs && b.reqs[id].ns.Some? {
          AssignedHere(b, id);
          TriedAny(b.reqs, id);
          ghost var was := b.reqs;
          b.Transmit(id, outcome);
          ResentOne(was, b.reqs, id, outcome);
        }
      case OpReissue(id) =>
        if id in b.reqs && b.reqs[id].ns.Some? {
          var reissued := b.Reissue(id);
        }
      case OpTransmitAll(outcomes) =>
        var tried := b.TransmitAll(outcomes);
      case OpSubmit(_, _) => RunNew(b, op, w);
      case OpProbe(_, _, _) => RunNew(b, op, w);
      case OpFinish(_) => RunQueue(b, op, w);
      case OpPump => RunQueue(b, op, w);
      case OpUp(_) => RunQueue(b, op, w);
      case _ => RunServers(b, op, w);
    }
  }

  /** Any run: each live request is in exactly one list, the counters count, every assigned
      request has been sent or is marked, none of the assertions in the code fires, whatever
      the outside decides during each call; and every call does what it should. */
  method Run(ops: seq<(Op, World)>) returns (b: DnsBase, ghost trace: seq<Snap>)
    ensures b.Valid()
    ensures |trace| == |ops| + 1 && trace[0] == Snap(map[], map[], [], 0, [], 0, 64, 0) && trace[|ops|] == SnapOf(b)
    ensures forall i :: 0 <= i < |ops| ==> Did(ops[i].0, ops[i].1, trace[i], trace[i + 1])
  {
    hide DnsBase.Valid, Did;
    b := new DnsBase();
    trace := [SnapOf(b)];
    for i := 0 to |ops|
      invariant b.Valid() && fresh(b)
      invariant |trace| == i + 1 && trace[0] == Snap(map[], map[], [], 0, [], 0, 64, 0) && trace[i] == SnapOf(b)
      invariant forall j :: 0 <= j < i ==> Did(ops[j].0, ops[j].1, trace[j], trace[j + 1])
    {
      RunOne(b, ops[i].0, ops[i].1);
      trace := trace + [SnapOf(b)];
    }
  }

  /** What Valid says of one request: it is in exactly one place. */
  lemma OnePlace(b: DnsBase, id: nat)
    requires b.Valid() && id in b.reqs
    ensures b.reqs[id].ns.Some? ==>
      forall i :: 0 <= i < |b.heads| ==> (id in b.heads[i] <==> i == b.reqs[id].transId % |b.heads|)
    ensures b.reqs[id].ns.None? ==> forall i :: 0 <= i < |b.heads| ==> id !in b.heads[i]
    ensures id in b.waiting <==> b.reqs[id].ns.None?
  {
    forall i | 0 <= i < |b.heads|
      ensures id in b.heads[i] <==> b.reqs[id].ns.Some? && i == b.reqs[id].transId % |b.heads|
    {
      AssignedIn(b.reqs, b.heads, b.waiting, i, id);
    }
  }
}
