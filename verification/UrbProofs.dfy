/** Each of the three operations of a process keeps its local invariant. */
module UrbProofs {
  import opened Types
  import opened Windows
  import opened Logs
  import opened Urb

  lemma LimitBounds(n: nat)
    requires n >= 1
    ensures 1 <= Limit(n) <= MAX_MSGS_IN_NETWORK
  {
    if n > 1 {
      assert n * n >= 1;
      assert MAX_MSGS_IN_NETWORK / (n * n) <= MAX_MSGS_IN_NETWORK;
    }
  }

  /** With n*n copies of each message in flight the allowance is the largest that keeps within 2^15. */
  lemma AllowanceIsLargest(n: nat)
    requires n >= 1
    ensures 2 <= n <= 181 ==> n * n * Limit(n) <= 32768 < n * n * (Limit(n) + 1)
    ensures n == 1 || n > 181 ==> Limit(n) == 1
  {
    var d := n * n;
    if n > 181 {
      Grows(182, n);
      assert 32768 / d == 0;
    } else if n > 1 {
      Grows(n, 181);
      assert d * (32768 / d) <= 32768 < d * (32768 / d + 1);
      assert 32768 / d >= 1;
    }
  }

  lemma Grows(a: nat, b: nat)
    requires a <= b
    ensures a * a <= b * b
  {
    assert b * b == a * a + (b - a) * (b + a);
  }

  lemma InitLocal(self: Pid, n: nat)
    requires self in Pids(n)
    ensures n >= 1 && LocalInv(InitProc(self, n))
  {
    LimitBounds(n);
    var p := InitProc(self, n);
    assert InFlight(p) == {};
  }

  // ------------------------------------------------------------------------------------------
  // Logs

  function Ints(xs: seq<nat>): (ys: seq<int>)
    ensures |ys| == |xs| && forall i :: 0 <= i < |xs| ==> ys[i] == xs[i]
  {
    seq(|xs|, i requires 0 <= i < |xs| => xs[i] as int)
  }

  lemma {:induction false} AppendDLines(log: seq<Line>, a: Pid, xs: seq<nat>, b: int)
    ensures BNums(log + DLines(a, xs)) == BNums(log)
    ensures DNums(log + DLines(a, xs), b) == DNums(log, b) + (if b == a then Ints(xs) else [])
  {
    hide BNums, DNums, DLines, Ints;
    if xs == [] {
      assert log + DLines(a, xs) == log;
    } else {
      var k := |xs| - 1;
      var zs, l := xs[..k], D(a, xs[k]);
      AppendDLines(log, a, zs, b);
      var mid := log + DLines(a, zs);
      assert log + DLines(a, xs) == mid + [l];
      BNumsAppend(mid, l);
      DNumsAppend(mid, l, b);
      assert Ints(xs) == Ints(zs) + [xs[k] as int];
    }
  }

  // ------------------------------------------------------------------------------------------
  // Send

  lemma SendEmits(p: Proc, payload: Bytes)
    requires ThrottleInv(p)
    ensures !Known(p, MsgId(p.self, p.next))
    ensures Emits(p, Send(p, payload))
  {
  }

  /** A message sent at the limit joins the tail of the queue. */
  lemma ThrottleQueued(p: Proc, q: Proc, m: Message)
    requires ThrottleInv(p) && p.inflight == p.limit
    requires q.self == p.self && q.limit == p.limit && q.inflight == p.inflight
    requires q.next == p.next + 1 && q.queue == p.queue + [m] && m.id == MsgId(p.self, p.next)
    requires q.pending == p.pending && q.delivered == p.delivered
    ensures ThrottleInv(q)
  {
    assert OnNet(q) == OnNet(p);
    assert InFlight(q) == InFlight(p);
    assert forall id :: Known(q, id) <==> Known(p, id);
  }

  /** A message sent below the limit goes out at once: the queue was empty. */
  lemma ThrottleEmitted(p: Proc, q: Proc, id: MsgId)
    requires ThrottleInv(p) && p.inflight < p.limit
    requires q.self == p.self && q.limit == p.limit && q.inflight == p.inflight + 1
    requires q.next == p.next + 1 && q.queue == p.queue && id == MsgId(p.self, p.next)
    requires q.pending == p.pending + {id} && q.delivered == p.delivered
    ensures ThrottleInv(q)
  {
    assert p.queue == [] && OnNet(q) == OnNet(p) + 1 == p.next;
    assert !Known(p, id);
    assert forall x :: Known(q, x) <==> Known(p, x) || x == id;
    assert InFlight(q) == InFlight(p) + {p.next};
    assert p.next !in InFlight(p);
  }

  lemma SendThrottle(p: Proc, payload: Bytes)
    requires ThrottleInv(p)
    ensures ThrottleInv(Send(p, payload).proc)
  {
    var q := Send(p, payload).proc;
    var m := Message(MsgId(p.self, p.next), payload);
    if p.inflight >= p.limit {
      ThrottleQueued(p, q, m);
    } else {
      assert q.inflight == p.inflight + 1;
      ThrottleEmitted(p, q, m.id);
    }
  }

  lemma SendLog(p: Proc, q: Proc)
    requires p.next >= 1 && CouplingInv(p) && LogInv(p)
    requires q.fifo == p.fifo && q.delivered == p.delivered
    requires q.next == p.next + 1 && q.log == p.log + [B(p.next)]
    ensures CouplingInv(q) && LogInv(q)
  {
    BNumsAppend(p.log, B(p.next));
    assert UpTo(p.next) == UpTo(p.next - 1) + [p.next as int];
    forall a: Pid
      ensures DNums(q.log, a) == UpTo(At(q.fifo, a).bottom - 1)
    {
      DNumsAppend(p.log, B(p.next), a);
    }
    forall a: int | a < 0
      ensures DNums(q.log, a) == []
    {
      DNumsAppend(p.log, B(p.next), a);
    }
  }

  lemma SendLocal(p: Proc, payload: Bytes)
    requires LocalInv(p)
    ensures LocalInv(Send(p, payload).proc)
    ensures Emits(p, Send(p, payload))
  {
    SendThrottle(p, payload);
    SendEmits(p, payload);
    SendLog(p, Send(p, payload).proc);
  }

  // ------------------------------------------------------------------------------------------
  // Notify

  lemma NotifyEmits(p: Proc, sender: Pid, m: Message)
    requires m.id.num >= 1
    ensures Emits(p, Notify(p, sender, m))
  {
  }

  lemma NotifyTable(p: Proc, sender: Pid, m: Message)
    requires TableInv(p)
    requires sender in Pids(p.n) && sender != p.self
    requires m.id.num >= 1
    ensures TableInv(Notify(p, sender, m).proc)
  {
    var q := Notify(p, sender, m).proc;
    assert forall id :: Delivered(q, id) <==> Delivered(p, id);
    forall id | id in q.acks
      ensures p.self !in q.acks[id] && q.acks[id] <= Pids(p.n)
    {
      assert q.acks[id] <= AckSet(p.acks, id) + {sender};
    }
  }

  lemma NotifyThrottle(p: Proc, sender: Pid, m: Message)
    requires ThrottleInv(p)
    requires m.id.num >= 1
    requires m.id.author == p.self ==> m.id.num <= OnNet(p)
    ensures ThrottleInv(Notify(p, sender, m).proc)
  {
    var q := Notify(p, sender, m).proc;
    NotifyEmits(p, sender, m);
    assert OnNet(q) == OnNet(p);
    assert InFlight(q) == InFlight(p);
  }

  lemma NotifyLocal(p: Proc, sender: Pid, m: Message)
    requires LocalInv(p)
    requires sender in Pids(p.n) && sender != p.self
    requires m.id.num >= 1
    requires m.id.author == p.self ==> m.id.num <= OnNet(p)
    ensures LocalInv(Notify(p, sender, m).proc)
    ensures Emits(p, Notify(p, sender, m))
  {
    NotifyEmits(p, sender, m);
    NotifyTable(p, sender, m);
    NotifyThrottle(p, sender, m);
  }

  // ------------------------------------------------------------------------------------------
  // Deliver

  lemma HasInsert(d: map<Pid, Window>, id: MsgId, x: MsgId)
    requires x.num >= 1
    ensures Has(InsertId(d, id), x) <==> Has(d, x) || x == id
  {
    InsertContains(At(d, id.author), id.num, x.num);
  }

  /** Every field after a delivery that passes the guard. */
  lemma DeliverShape(p: Proc, id: MsgId)
    requires Deliverable(p, id)
    ensures var e := Deliver(p, id);
            var own := id.author == p.self;
            var d := Arrive(At(p.fifo, id.author), id.num);
            && (e.out.Some? <==> own && p.inflight <= p.limit && p.queue != [])
            && (e.out.Some? ==> e.out.value == p.queue[0] && e.proc.queue == p.queue[1..])
            && (e.out.None? ==> e.proc.queue == p.queue)
            && e.proc.pending == p.pending - {id} + (if e.out.Some? then {p.queue[0].id} else {})
            && e.proc.delivered == InsertId(p.delivered, id)
            && e.proc.fifo == p.fifo[id.author := d.window]
            && e.proc.log == p.log + DLines(id.author, d.logged)
            && e.proc.self == p.self && e.proc.n == p.n && e.proc.limit == p.limit && e.proc.next == p.next
  {
    var q := Touch(p, id).(pending := p.pending - {id});
    var e := if id.author == p.self then Refill(q) else Effect(q, None);
    var r := e.proc.(delivered := InsertId(e.proc.delivered, id), acks := e.proc.acks - {id});
    assert Deliver(p, id) == Effect(FifoDeliver(r, id), e.out);
    assert r.delivered == InsertId(p.delivered, id);
    assert r.fifo == p.fifo;
  }

  /** The unsigned decrement and increment: exact but at the ends of the 32-bit range. */
  lemma FetchAddExact(x: nat)
    requires x <= 4294967295
    ensures FetchAdd(x, MINUS_ONE) == if x == 0 then 4294967295 else x - 1
    ensures FetchAdd(x, 1) == if x == 4294967295 then 0 else x + 1
  {
  }

  lemma DeliverInflight(p: Proc, id: MsgId)
    requires Deliverable(p, id)
    requires id.author == p.self ==> 1 <= p.inflight <= MINUS_ONE
    ensures Deliver(p, id).proc.inflight ==
            if id.author == p.self && Deliver(p, id).out.None? then p.inflight - 1 else p.inflight
  {
    var q := Touch(p, id).(pending := p.pending - {id});
    var e := if id.author == p.self then Refill(q) else Effect(q, None);
    assert Deliver(p, id).proc.inflight == e.proc.inflight;
    assert Deliver(p, id).out == e.out;
    if id.author == p.self {
      FetchAddExact(p.inflight);
    }
  }

  lemma DeliverAcks(p: Proc, id: MsgId)
    requires Deliverable(p, id)
    ensures Deliver(p, id).proc.acks == p.acks - {id}
  {
    var t := Touch(p, id);
    assert Deliver(p, id).proc.acks == t.acks - {id};
    assert t.acks - {id} == p.acks - {id};
  }

  lemma DeliverKnown(p: Proc, id: MsgId)
    requires Deliverable(p, id) && id.num >= 1
    ensures forall x :: Delivered(Deliver(p, id).proc, x) <==> Delivered(p, x) || x == id
  {
    DeliverShape(p, id);
    forall x: MsgId | x.num >= 1
      ensures Has(InsertId(p.delivered, id), x) <==> Has(p.delivered, x) || x == id
    {
      HasInsert(p.delivered, id, x);
    }
  }

  /** The head of the queue is the next own number, which nobody knows yet. */
  lemma QueueHead(p: Proc)
    requires ThrottleInv(p) && p.queue != []
    ensures p.queue[0].id == MsgId(p.self, OnNet(p) + 1)
    ensures !Known(p, p.queue[0].id)
  {
  }

  lemma EmitsMove(p: Proc, e: Effect, id: MsgId)
    requires id in p.pending && id.num >= 1
    requires e.out.Some? ==> !Known(p, e.out.value.id)
    requires e.proc.pending == p.pending - {id} + (if e.out.Some? then {e.out.value.id} else {})
    requires forall x :: Delivered(e.proc, x) <==> Delivered(p, x) || x == id
    requires e.proc.self == p.self && e.proc.n == p.n && e.proc.limit == p.limit
    ensures Emits(p, e)
  {
  }

  lemma DeliverEmits(p: Proc, id: MsgId)
    requires ThrottleInv(p) && TableInv(p) && id in p.pending && Deliverable(p, id)
    ensures Emits(p, Deliver(p, id))
  {
    DeliverShape(p, id);
    DeliverKnown(p, id);
    if p.queue != [] {
      QueueHead(p);
    }
    EmitsMove(p, Deliver(p, id), id);
  }

  lemma InFlightMembers(p: Proc, q: Proc, id: MsgId)
    requires q.self == p.self
    requires forall x :: Delivered(q, x) <==> Delivered(p, x) || x == id
    ensures forall k: nat :: k in InFlight(q) <==>
              1 <= k <= OnNet(q) && !Delivered(p, MsgId(p.self, k)) && MsgId(p.self, k) != id
  {
    forall k: nat
      ensures k in InFlight(q) <==>
              1 <= k <= OnNet(q) && !Delivered(p, MsgId(p.self, k)) && MsgId(p.self, k) != id
    {
      assert Delivered(q, MsgId(p.self, k)) <==> Delivered(p, MsgId(p.self, k)) || MsgId(p.self, k) == id;
    }
  }

  /** An own message that leaves the network without a successor frees exactly one slot. */
  lemma SlotFreed(p: Proc, q: Proc, id: MsgId)
    requires ThrottleInv(p) && p.queue == [] && Known(p, id) && !Delivered(p, id) && id.author == p.self
    requires q.self == p.self && q.next == p.next && q.queue == p.queue
    requires forall x :: Delivered(q, x) <==> Delivered(p, x) || x == id
    ensures |InFlight(q)| == p.inflight - 1
  {
    InFlightMembers(p, q, id);
    assert id.num in InFlight(p);
    assert InFlight(q) == InFlight(p) - {id.num};
  }

  lemma SlotMoved(p: Proc, q: Proc, id: MsgId, k: nat)
    requires q.self == p.self && id.author == p.self
    requires 1 <= id.num < k == OnNet(p) + 1 == OnNet(q)
    requires !Delivered(p, id) && !Delivered(p, MsgId(p.self, k))
    requires forall x :: Delivered(q, x) <==> Delivered(p, x) || x == id
    ensures |InFlight(q)| == |InFlight(p)|
  {
    InFlightMembers(p, q, id);
    assert id.num in InFlight(p) && k !in InFlight(p);
    assert InFlight(q) == InFlight(p) - {id.num} + {k};
  }

  /** An own message that leaves the network passes its slot to the head of the queue. */
  lemma SlotPassed(p: Proc, q: Proc, id: MsgId)
    requires ThrottleInv(p) && p.queue != [] && Known(p, id) && !Delivered(p, id) && id.author == p.self
    requires q.self == p.self && q.next == p.next && q.queue == p.queue[1..]
    requires forall x :: Delivered(q, x) <==> Delivered(p, x) || x == id
    ensures |InFlight(q)| == p.inflight
  {
    var k := OnNet(p) + 1;
    assert !Delivered(p, MsgId(p.self, k)) && k != id.num by { QueueHead(p); }
    assert 1 <= id.num <= OnNet(p);
    SlotMoved(p, q, id, k);
  }

  lemma SlotKept(p: Proc, q: Proc, id: MsgId)
    requires ThrottleInv(p) && id.author != p.self
    requires q.self == p.self && q.next == p.next && q.queue == p.queue
    requires forall x :: Delivered(q, x) <==> Delivered(p, x) || x == id
    ensures |InFlight(q)| == p.inflight
  {
    InFlightMembers(p, q, id);
    assert InFlight(q) == InFlight(p);
  }

  /** The counter stays exact through a delivery, and a non-empty queue keeps it at the limit. */
  lemma DeliverCounter(p: Proc, id: MsgId)
    requires ThrottleInv(p) && TableInv(p) && id in p.pending && Deliverable(p, id)
    ensures var q := Deliver(p, id).proc;
            && q.inflight == |InFlight(q)| && q.inflight <= q.limit
            && (q.queue != [] ==> q.inflight == q.limit)
  {
    DeliverShape(p, id);
    DeliverKnown(p, id);
    var q := Deliver(p, id).proc;
    if id.author != p.self {
      SlotKept(p, q, id);
    } else if p.queue == [] {
      SlotFreed(p, q, id);
    } else {
      SlotPassed(p, q, id);
    }
    DeliverInflight(p, id);
  }

  /** Own numbers stay contiguous when the head of the queue may have become known. */
  lemma OwnStep(p: Proc, e: Effect)
    requires ThrottleInv(p) && Emits(p, e) && e.proc.next == p.next
    requires e.out.Some? ==> p.queue != [] && e.out.value == p.queue[0] && e.proc.queue == p.queue[1..]
    requires e.out.None? ==> e.proc.queue == p.queue
    requires e.proc.inflight == |InFlight(e.proc)| && e.proc.inflight <= e.proc.limit
    requires e.proc.queue != [] ==> e.proc.inflight == e.proc.limit
    ensures ThrottleInv(e.proc)
  {
    if e.out.Some? {
      QueueHead(p);
    }
  }

  lemma DeliverThrottle(p: Proc, id: MsgId)
    requires ThrottleInv(p) && TableInv(p) && id in p.pending && Deliverable(p, id)
    ensures ThrottleInv(Deliver(p, id).proc)
  {
    DeliverShape(p, id);
    DeliverEmits(p, id);
    DeliverCounter(p, id);
    OwnStep(p, Deliver(p, id));
  }

  lemma DeliverTable(p: Proc, id: MsgId)
    requires ThrottleInv(p) && TableInv(p) && id in p.pending && Deliverable(p, id)
    ensures TableInv(Deliver(p, id).proc)
  {
    DeliverShape(p, id);
    DeliverAcks(p, id);
    DeliverKnown(p, id);
    if p.queue != [] {
      QueueHead(p);
    }
  }

  lemma ArriveExtendsUpTo(w: Window, x: nat)
    requires Tight(w)
    ensures var d := Arrive(w, x);
            && Tight(d.window)
            && UpTo(d.window.bottom - 1) ==
               UpTo(w.bottom - 1) + Ints(d.logged)
  {
    ArriveIsInsert(w, x);
  }

  lemma DeliverCoupling(p: Proc, id: MsgId)
    requires CouplingInv(p) && TableInv(p) && id in p.pending && Deliverable(p, id)
    ensures CouplingInv(Deliver(p, id).proc)
  {
    hide Deliver, DLines, Windows.Arrive, Windows.Insert, AckSet;
    DeliverShape(p, id);
    var w := At(p.fifo, id.author);
    assert Tight(w) && !Contains(w, id.num);
    ArriveIsInsert(w, id.num);
  }

  lemma LogStep(p: Proc, q: Proc, a: Pid, x: nat)
    requires p.next >= 1 && CouplingInv(p) && LogInv(p)
    requires q.next == p.next && CouplingInv(q)
    requires q.fifo == p.fifo[a := Arrive(At(p.fifo, a), x).window]
    requires q.log == p.log + DLines(a, Arrive(At(p.fifo, a), x).logged)
    ensures LogInv(q)
  {
    var w := At(p.fifo, a);
    ArriveExtendsUpTo(w, x);
    AppendDLines(p.log, a, Arrive(w, x).logged, a);
    forall b: Pid
      ensures DNums(q.log, b) == UpTo(At(q.fifo, b).bottom - 1)
    {
      AppendDLines(p.log, a, Arrive(w, x).logged, b);
      assert DNums(p.log, b) == UpTo(At(p.fifo, b).bottom - 1);
    }
    forall b: int | b < 0
      ensures DNums(q.log, b) == []
    {
      AppendDLines(p.log, a, Arrive(w, x).logged, b);
    }
  }

  lemma DeliverLog(p: Proc, id: MsgId)
    requires p.next >= 1 && CouplingInv(p) && LogInv(p) && TableInv(p) && id in p.pending && Deliverable(p, id)
    ensures CouplingInv(Deliver(p, id).proc)
    ensures Deliver(p, id).proc.next >= 1 && LogInv(Deliver(p, id).proc)
  {
    DeliverCoupling(p, id);
    DeliverShape(p, id);
    LogStep(p, Deliver(p, id).proc, id.author, id.num);
  }

  lemma TouchLocal(p: Proc, id: MsgId)
    requires LocalInv(p) && id in p.pending
    ensures LocalInv(Touch(p, id)) && Emits(p, Effect(Touch(p, id), None))
  {
    assert InFlight(Touch(p, id)) == InFlight(p);
  }

  lemma DeliverLocal(p: Proc, id: MsgId)
    requires LocalInv(p) && id in p.pending
    ensures LocalInv(Deliver(p, id).proc)
    ensures Emits(p, Deliver(p, id))
  {
    if Deliverable(p, id) {
      DeliverThrottle(p, id);
      DeliverEmits(p, id);
      DeliverTable(p, id);
      DeliverLog(p, id);
    } else {
      TouchLocal(p, id);
    }
  }
}
