/**
 One process of uniform reliable FIFO broadcast, as values: the three atomic operations (an
 application send, a notification from a link, one iteration of the delivery loop) map the process
 state to the next state and to the message, if any, that is put on all links of the process.
 */
module Urb {
  import opened Types
  import opened Windows
  import opened Logs

  const MAX_MSGS_IN_NETWORK := 32768

  /** The in-flight allowance after `Add` has been called for the n-th process. */
  function Allowance(n: nat): nat
    requires n >= 1
  {
    var share := MAX_MSGS_IN_NETWORK / (n * n);
    if share < 1 then 1 else share
  }

  /** Before any `Add` the allowance is 1. */
  function Limit(n: nat): nat
    requires n >= 1
  {
    if n == 1 then 1 else Allowance(n)
  }

  /** `fetch_add` on an `unsigned int`. */
  function FetchAdd(x: nat, y: nat): nat {
    (x + y) % 0x1_0000_0000
  }

  const MINUS_ONE := 0xFFFF_FFFF

  datatype Proc = Proc(
    self: Pid,
    n: nat,
    next: nat,                        // n_messages_sent_
    inflight: nat,                    // n_own_pending_for_delivery_
    limit: nat,                       // n_own_pending_delivery_ideal_
    queue: seq<Message>,              // own_pending_for_broadcast_
    pending: set<MsgId>,              // pending_for_delivery_
    acks: map<MsgId, set<Pid>>,       // acks_
    delivered: map<Pid, Window>,      // delivered_
    fifo: map<Pid, Window>,           // peer_state_ of the FIFO layer
    log: seq<Line>)

  datatype Effect = Effect(proc: Proc, out: Option<Message>)

  function InitProc(self: Pid, n: nat): Proc
    requires n >= 1
  {
    Proc(self, n, 1, 0, Limit(n), [], {}, map[], map[], map[], [])
  }

  function At(m: map<Pid, Window>, a: Pid): Window {
    if a in m then m[a] else FRESH
  }

  /** `DeliveredSet::Contains`: an author without a record contains nothing. */
  predicate Has(d: map<Pid, Window>, id: MsgId) {
    id.author in d && Contains(d[id.author], id.num)
  }

  function InsertId(d: map<Pid, Window>, id: MsgId): map<Pid, Window> {
    d[id.author := Insert(At(d, id.author), id.num)]
  }

  function AckSet(acks: map<MsgId, set<Pid>>, id: MsgId): set<Pid> {
    if id in acks then acks[id] else {}
  }

  predicate MajoritySeen(p: Proc, id: MsgId) {
    |AckSet(p.acks, id)| + 1 > p.n / 2
  }

  /** The guard of the delivery loop. */
  predicate Deliverable(p: Proc, id: MsgId) {
    MajoritySeen(p, id) && !Has(p.delivered, id)
  }

  // ------------------------------------------------------------------------------------------
  // Operations

  function Send(p: Proc, payload: Bytes): Effect {
    var m := Message(MsgId(p.self, p.next), payload);
    var q := p.(next := p.next + 1, log := p.log + [B(p.next)]);
    if p.inflight >= p.limit then
      Effect(q.(queue := q.queue + [m]), None)
    else
      Effect(q.(inflight := FetchAdd(q.inflight, 1), pending := q.pending + {m.id}), Some(m))
  }

  function Notify(p: Proc, sender: Pid, m: Message): Effect {
    if Has(p.delivered, m.id) then Effect(p, None) else
      var q := p.(acks := p.acks[m.id := AckSet(p.acks, m.id) + {sender}]);
      if m.id in p.pending then Effect(q, None)
      else Effect(q.(pending := q.pending + {m.id}), Some(m))
  }

  /** The part of a delivery that only own messages cause: free a slot, start a queued message. */
  function Refill(p: Proc): Effect {
    var q := p.(inflight := FetchAdd(p.inflight, MINUS_ONE));
    if p.inflight <= p.limit && p.queue != [] then
      var m := p.queue[0];
      Effect(q.(queue := q.queue[1..],
                inflight := FetchAdd(q.inflight, 1),
                pending := q.pending + {m.id}),
             Some(m))
    else Effect(q, None)
  }

  function DLines(a: Pid, xs: seq<nat>): (ls: seq<Line>)
    ensures |ls| == |xs| && forall i :: 0 <= i < |xs| ==> ls[i] == D(a, xs[i])
  {
    seq(|xs|, i requires 0 <= i < |xs| => D(a, xs[i]))
  }

  function FifoDeliver(p: Proc, id: MsgId): Proc {
    var d := Arrive(At(p.fifo, id.author), id.num);
    p.(fifo := p.fifo[id.author := d.window], log := p.log + DLines(id.author, d.logged))
  }

  /** Looking an id up in the ack table creates an empty entry for it. */
  function Touch(p: Proc, id: MsgId): Proc {
    p.(acks := p.acks[id := AckSet(p.acks, id)])
  }

  /** The end of a delivery: record the id, drop its acks, hand it to the FIFO layer. */
  function Settle(p: Proc, id: MsgId): Proc {
    FifoDeliver(p.(delivered := InsertId(p.delivered, id), acks := p.acks - {id}), id)
  }

  /** The start of a delivery: the id is no longer pending, and an own id frees its slot. */
  function Release(p: Proc, id: MsgId): Effect {
    var q := p.(pending := p.pending - {id});
    if id.author == p.self then Refill(q) else Effect(q, None)
  }

  /** A delivery whose guard has passed. */
  function Accept(p: Proc, id: MsgId): Effect {
    var e := Release(p, id);
    Effect(Settle(e.proc, id), e.out)
  }

  function Deliver(p: Proc, id: MsgId): Effect {
    if Deliverable(p, id) then Accept(Touch(p, id), id) else Effect(Touch(p, id), None)
  }

  // ------------------------------------------------------------------------------------------
  // What one process keeps

  predicate Delivered(p: Proc, id: MsgId) {
    id.num >= 1 && Has(p.delivered, id)
  }

  /** The process has put the id on its links (proved so, system-wide, in module Invariants). */
  predicate Known(p: Proc, id: MsgId) {
    id in p.pending || Delivered(p, id)
  }

  /** How many own messages have left the queue. */
  function OnNet(p: Proc): int {
    p.next - 1 - |p.queue|
  }

  function InFlight(p: Proc): set<nat> {
    set k | 1 <= k <= OnNet(p) && !Has(p.delivered, MsgId(p.self, k)) :: k
  }

  /** Own messages: 1..k on the network, k+1..next-1 queued in order, and the counter is exact. */
  ghost predicate ThrottleInv(p: Proc) {
    && p.next >= 1 && OnNet(p) >= 0
    && (forall i :: 0 <= i < |p.queue| ==> p.queue[i].id == MsgId(p.self, OnNet(p) + 1 + i))
    && (forall id :: Known(p, id) && id.author == p.self ==> 1 <= id.num <= OnNet(p))
    && (forall k :: 1 <= k <= OnNet(p) ==> Known(p, MsgId(p.self, k)))
    && p.inflight == |InFlight(p)|
    && 1 <= p.limit < MINUS_ONE && p.inflight <= p.limit
    && (p.queue != [] ==> p.inflight == p.limit)
  }

  /**
   Pending and delivered are disjoint; the ack table has entries for pending ids only, so nothing is
   kept of a delivered id; no process ever counts its own acknowledgement.
   */
  ghost predicate TableInv(p: Proc) {
    && (forall id :: id in p.pending ==> id.num >= 1 && !Delivered(p, id))
    && (forall id :: id in p.acks ==> id in p.pending)
    && (forall id :: id in p.acks ==> p.self !in p.acks[id] && p.acks[id] <= Pids(p.n))
    && p.self in Pids(p.n)
  }

  /** The delivered-set record and the FIFO record of every author coincide. */
  ghost predicate CouplingInv(p: Proc) {
    && p.fifo == p.delivered
    && (forall a :: a in p.delivered ==> Tight(p.delivered[a]))
  }

  ghost predicate LogInv(p: Proc)
    requires CouplingInv(p) && p.next >= 1
  {
    && BNums(p.log) == UpTo(p.next - 1)
    && (forall a: Pid :: DNums(p.log, a) == UpTo(At(p.fifo, a).bottom - 1))
    && (forall a: int :: a < 0 ==> DNums(p.log, a) == [])
  }

  ghost predicate LocalInv(p: Proc) {
    ThrottleInv(p) && TableInv(p) && CouplingInv(p) && LogInv(p)
  }

  /** Exactly the emitted message becomes newly known. */
  ghost predicate Emits(p: Proc, e: Effect) {
    && (forall id :: Known(e.proc, id) <==> Known(p, id) || (e.out.Some? && id == e.out.value.id))
    && (e.out.Some? ==> !Known(p, e.out.value.id))
    && (forall id :: Delivered(p, id) ==> Delivered(e.proc, id))
    && e.proc.self == p.self && e.proc.n == p.n && e.proc.limit == p.limit
  }
}
