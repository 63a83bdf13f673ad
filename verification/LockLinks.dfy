/**
 The order in which own messages reach the links at lock level. The ids still on their way there form
 an ascending chain: the refill's, the queue, the application's. An id overtakes the chain exactly
 when a put of the application's id is completed while something stands before it.
 */
module LockLinks {
  import opened Types
  import opened LockLevel
  import opened LockTheorems
  import opened LockOrder

  /** The own ids on the links are 1..k for some k. */
  ghost predicate LinkOrder(self: Pid, puts: multiset<MsgId>) {
    forall id, j: nat :: id in puts && id.author == self && 1 <= j < id.num ==> MsgId(self, j) in puts
  }

  /** The refill holds a message that it has not put yet. */
  predicate Refilling(del: DelPc) {
    del.DRefill? || del.DPend? || del.DPut?
  }

  /** Own ids before the one in the hands of the application. */
  function Ahead(queue: seq<MsgId>, del: DelPc): seq<MsgId> {
    (if Refilling(del) then [del.m] else []) + queue
  }

  function Chain(queue: seq<MsgId>, main: MainPc, del: DelPc): seq<MsgId> {
    Ahead(queue, del) + (if main.MIdle? then [] else [main.id])
  }

  /** The chain ascends, and every own id so far is on the links or in it. */
  ghost predicate ChainInv(self: Pid, next: nat, puts: multiset<MsgId>, chain: seq<MsgId>) {
    && next >= 1
    && (forall i :: 0 <= i < |chain| ==> chain[i].author == self && 1 <= chain[i].num < next)
    && (forall i, j :: 0 <= i < j < |chain| ==> chain[i].num < chain[j].num)
    && (forall k: nat :: 1 <= k < next ==> MsgId(self, k) in puts || MsgId(self, k) in chain)
  }

  ghost predicate Chained(s: Local) {
    && ChainInv(s.self, s.next, s.puts, Chain(s.queue, s.main, s.del))
    && (s.del.DPut? ==> s.del.m !in s.erased)
  }

  // ------------------------------------------------------------------------------------------
  // The chain under every interleaving

  function ChainMove(s: Local, u: Step): Move {
    match u
    case MainStart => Join
    case MainStep => if s.main.MPut? then Last else Stay
    case DelStep => if s.del.DPut? then First else Stay
    case _ => Stay
  }

  /** The effect of a move on the chain; what leaves the chain is on the links. */
  ghost predicate ChainMoves(move: Move, s: Local, t: Local) {
    var w, w' := Chain(s.queue, s.main, s.del), Chain(t.queue, t.main, t.del);
    && t.self == s.self
    && (forall x :: x in s.puts ==> x in t.puts)
    && match move
       case Stay => w' == w && t.next == s.next
       case Join => w' == w + [MsgId(s.self, s.next)] && t.next == s.next + 1
       case First => w != [] && w' == w[1..] && w[0] in t.puts && t.next == s.next
       case Last => w != [] && w' == w[..|w| - 1] && w[|w| - 1] in t.puts && t.next == s.next
  }

  lemma MainChain(s: Local)
    ensures ChainMoves(if s.main.MIdle? then Join else if s.main.MPut? then Last else Stay, s, MainNext(s))
  {
    hide Ahead;
    var t, front := MainNext(s), Ahead(s.queue, s.del);
    if s.main.MPut? {
      assert (front + [s.main.id])[..|front|] == front;
    } else if s.main.MPush? {
      PushAhead(s.queue, s.del, s.main.id);
    }
  }

  lemma PushAhead(queue: seq<MsgId>, del: DelPc, id: MsgId)
    ensures Ahead(queue + [id], del) == Ahead(queue, del) + [id]
  {
  }

  lemma DelAhead(s: Local)
    ensures var t := DelNext(s);
            Ahead(t.queue, t.del) == if s.del.DPut? then Ahead(s.queue, s.del)[1..] else Ahead(s.queue, s.del)
    ensures s.del.DPut? ==> Ahead(s.queue, s.del) != [] && Ahead(s.queue, s.del)[0] == s.del.m
  {
    if s.del.DPop? && s.queue != [] {
      assert s.queue == [s.queue[0]] + s.queue[1..];
    }
  }

  lemma DelRest(s: Local)
    ensures var t := DelNext(s);
            && t.self == s.self && t.main == s.main && t.next == s.next
            && (forall x :: x in s.puts ==> x in t.puts) && (s.del.DPut? ==> s.del.m in t.puts)
  {
    hide AckSet;
  }

  lemma DelChain(s: Local)
    ensures ChainMoves(if s.del.DPut? then First else Stay, s, DelNext(s))
  {
    hide Ahead, DelNext;
    DelAhead(s);
    DelRest(s);
    if s.del.DPut? {
      var a, m := Ahead(s.queue, s.del), if s.main.MIdle? then [] else [s.main.id];
      assert (a + m)[1..] == a[1..] + m;
    }
  }

  lemma StepChain(s: Local, u: Step)
    requires Enabled(s, u)
    ensures ChainMoves(ChainMove(s, u), s, Apply(s, u))
  {
    hide MainNext, DelNext;
    match u
    case MainStart => MainChain(s);
    case MainStep => MainChain(s);
    case DelStep => DelChain(s);
    case RecvStart(_, _) => {}
    case RecvStep => {}
    case DelStart(_) => {}
  }

  lemma MoveKeepsChain(move: Move, s: Local, t: Local)
    requires ChainInv(s.self, s.next, s.puts, Chain(s.queue, s.main, s.del)) && ChainMoves(move, s, t)
    ensures ChainInv(t.self, t.next, t.puts, Chain(t.queue, t.main, t.del))
  {
    hide Chain;
    var w, w' := Chain(s.queue, s.main, s.del), Chain(t.queue, t.main, t.del);
    match move
    case Stay => {}
    case Join => {}
    case First => assert w == [w[0]] + w';
    case Last => assert w == w' + [w[|w| - 1]];
  }

  /** The refill's id is new when it is inserted, and only the refill's own thread could erase it. */
  lemma RefillNotErased(s: Local, u: Step)
    requires Inv(s) && Enabled(s, u) && (s.del.DPut? ==> s.del.m !in s.erased)
    ensures var t := Apply(s, u); t.del.DPut? ==> t.del.m !in t.erased
  {
    hide Inv, Unborn;
    if s.del.DPend? {
      UnbornOnce(s, s.del.m);
      Held(s.queue, s.main, s.del, s.del.m);
    }
  }

  lemma {:induction false} RunChained(s: Local, steps: seq<Step>, t: Local)
    requires Inv(s) && Chained(s) && Runs(s, steps, t)
    ensures Chained(t)
    decreases |steps|
  {
    hide Inv, ChainInv, Chain, ChainMoves, Apply, Enabled;
    if steps != [] {
      StepInv(s, steps[0]);
      StepChain(s, steps[0]);
      MoveKeepsChain(ChainMove(s, steps[0]), s, Apply(s, steps[0]));
      RefillNotErased(s, steps[0]);
      RunChained(Apply(s, steps[0]), steps[1..], t);
    }
  }

  /** In every reachable state the own ids on their way to the links form an ascending chain. */
  lemma ChainAscends(s: Local)
    requires Reachable(s)
    ensures Chained(s)
  {
    hide Inv, Runs;
    var self, n, limit, steps :| limit >= 1 && Runs(Init(self, n, limit), steps, s);
    InitInv(self, n, limit);
    RunChained(Init(self, n, limit), steps, s);
  }

  // ------------------------------------------------------------------------------------------
  // What is ahead is not on the links

  /** The refill's id between its insert and its put. */
  lemma RefillNotPut(s: Local)
    requires Inv(s) && s.del.DPut? && s.del.m !in s.erased
    ensures s.del.m !in s.puts
  {
    hide Unborn, OnceInv, TodoInv, UnbornInv, RecvInv, CountInv, HandsInv, BoundInv;
    var m := s.del.m;
    assert s.puts[m] + Between(s.main, s.recv, s.del, m) == Bit(m in s.pending) + Bit(m in s.erased);
  }

  lemma QueuedIsHeld(queue: seq<MsgId>, main: MainPc, del: DelPc, id: MsgId)
    requires id in queue
    ensures id in Unborn(queue, main, del)
  {
    assert id in multiset(queue);
  }

  /** Nothing before the application's id has been put or erased. */
  lemma AheadIsFresh(s: Local, id: MsgId)
    requires Inv(s) && (s.del.DPut? ==> s.del.m !in s.erased) && id in Ahead(s.queue, s.del)
    ensures id !in s.puts && id !in s.erased
  {
    hide Inv, Unborn;
    UnbornOnce(s, id);
    if id in s.queue {
      QueuedIsHeld(s.queue, s.main, s.del, id);
    } else if s.del.DPut? {
      RefillNotPut(s);
    } else {
      Held(s.queue, s.main, s.del, id);
    }
  }

  lemma HandIsFresh(s: Local)
    requires Inv(s) && !s.main.MIdle? && !s.main.MPut?
    ensures s.main.id !in s.puts && s.main.id !in s.erased
  {
    hide Inv, Unborn;
    UnbornOnce(s, s.main.id);
    Held(s.queue, s.main, s.del, s.main.id);
  }

  // ------------------------------------------------------------------------------------------
  // The exact step

  /** Putting an id keeps the order exactly when everything below it is on the links. */
  lemma PutOrder(self: Pid, puts: multiset<MsgId>, id: MsgId)
    requires LinkOrder(self, puts) && id.author == self
    ensures LinkOrder(self, puts + multiset{id}) <==> forall j: nat :: 1 <= j < id.num ==> MsgId(self, j) in puts
  {
    var more := puts + multiset{id};
    assert forall x :: x in more <==> x in puts || x == id;
    if LinkOrder(self, more) {
      forall j: nat | 1 <= j < id.num
        ensures MsgId(self, j) in puts
      {
        assert id in more && MsgId(self, j) in more;
      }
    }
  }

  lemma PutForeign(self: Pid, puts: multiset<MsgId>, id: MsgId)
    requires LinkOrder(self, puts) && id.author != self
    ensures LinkOrder(self, puts + multiset{id})
  {
    var more := puts + multiset{id};
    assert forall x :: x in more <==> x in puts || x == id;
  }

  /** The first of the chain: everything below it is on the links. */
  lemma BelowFirst(self: Pid, next: nat, puts: multiset<MsgId>, chain: seq<MsgId>)
    requires ChainInv(self, next, puts, chain) && chain != []
    ensures forall j: nat :: 1 <= j < chain[0].num ==> MsgId(self, j) in puts
  {
    forall j: nat | 1 <= j < chain[0].num
      ensures MsgId(self, j) in puts
    {
      assert MsgId(self, j) !in chain;
    }
  }

  /** The application's id: everything below it is on the links exactly when nothing is ahead. */
  lemma BelowHand(s: Local)
    requires Inv(s) && Chained(s) && !s.main.MIdle?
    ensures (forall j: nat :: 1 <= j < s.main.id.num ==> MsgId(s.self, j) in s.puts) <==> Ahead(s.queue, s.del) == []
    ensures s.main.id.author == s.self
  {
    hide Inv, Ahead;
    var a := Ahead(s.queue, s.del);
    var w := Chain(s.queue, s.main, s.del);
    assert w[|a|] == s.main.id;
    if a == [] {
      BelowFirst(s.self, s.next, s.puts, w);
    } else {
      assert w[0] == a[0] && a[0] in a;
      AheadIsFresh(s, a[0]);
      assert a[0] == MsgId(s.self, a[0].num);
    }
  }

  /** An own id that the receive thread puts is on the links, or is the application's at its put. */
  lemma RelayedOwn(s: Local)
    requires Inv(s) && Chained(s) && s.recv.RPut? && s.recv.id.author == s.self && 1 <= s.recv.id.num < s.next
    ensures s.recv.id in s.puts || s.main == MPut(s.recv.id)
  {
    hide Unborn, OnceInv, TodoInv, PutInv, UnbornInv, CountInv, HandsInv, BoundInv, Ahead;
    var id := s.recv.id;
    if id !in s.puts {
      assert id == MsgId(s.self, id.num);
      assert id in Chain(s.queue, s.main, s.del);
      if id in Ahead(s.queue, s.del) {
        AheadIsFresh(s, id);
        assert false;
      } else if !s.main.MPut? {
        HandIsFresh(s);
        assert false;
      }
    }
  }

  lemma OwnInRange(s: Local, id: MsgId)
    requires Inv(s) && Ordered(s) && id.author == s.self && (id in s.pending || id in s.erased)
    ensures 1 <= id.num < s.next
  {
    hide Unborn, OnceInv, TodoInv, PutInv, UnbornInv, RecvInv, HandsInv, BoundInv, Waiting;
    assert id in s.started;
  }

  /** A put of the application's id is completed, by it or by the receive thread, with something ahead of it. */
  predicate Overtakes(s: Local, u: Step) {
    && ((u == MainStep && s.main.MPut?) || (u == RecvStep && s.recv.RPut? && s.main == MPut(s.recv.id)))
    && (s.queue != [] || Refilling(s.del))
  }

  lemma MainPutOrder(s: Local)
    requires Inv(s) && Chained(s) && LinkOrder(s.self, s.puts) && s.main.MPut?
    ensures LinkOrder(s.self, s.puts + multiset{s.main.id}) <==> s.queue == [] && !Refilling(s.del)
  {
    hide Inv, Chained, LinkOrder;
    BelowHand(s);
    PutOrder(s.self, s.puts, s.main.id);
  }

  lemma RecvPutOrder(s: Local)
    requires Inv(s) && Chained(s) && Ordered(s) && LinkOrder(s.self, s.puts) && s.recv.RPut?
    ensures !LinkOrder(s.self, s.puts + multiset{s.recv.id}) <==> Overtakes(s, RecvStep)
  {
    hide Unborn, OnceInv, TodoInv, PutInv, UnbornInv, CountInv, HandsInv, BoundInv, Chained, Ordered, LinkOrder;
    var id := s.recv.id;
    if id.author != s.self {
      PutForeign(s.self, s.puts, id);
      if s.main == MPut(id) {
        BelowHand(s);
      }
    } else if s.main == MPut(id) {
      MainPutOrder(s);
    } else {
      OwnInRange(s, id);
      RelayedOwn(s);
      SamePuts(s.self, s.puts, id);
    }
  }

  lemma SamePuts(self: Pid, puts: multiset<MsgId>, id: MsgId)
    requires LinkOrder(self, puts) && id in puts
    ensures LinkOrder(self, puts + multiset{id})
  {
    assert forall x :: x in puts + multiset{id} <==> x in puts;
  }

  lemma DelPutOrder(s: Local)
    requires Chained(s) && LinkOrder(s.self, s.puts) && s.del.DPut?
    ensures LinkOrder(s.self, s.puts + multiset{s.del.m})
  {
    hide LinkOrder;
    var w := Chain(s.queue, s.main, s.del);
    assert w[0] == s.del.m;
    BelowFirst(s.self, s.next, s.puts, w);
    PutOrder(s.self, s.puts, s.del.m);
  }

  lemma PutsOf(s: Local, u: Step)
    requires Enabled(s, u)
    ensures Apply(s, u).self == s.self
    ensures Apply(s, u).puts ==
              if u == MainStep && s.main.MPut? then s.puts + multiset{s.main.id}
              else if u == RecvStep && s.recv.RPut? then s.puts + multiset{s.recv.id}
              else if u == DelStep && s.del.DPut? then s.puts + multiset{s.del.m}
              else s.puts
  {
  }

  /**
   Own messages reach the links in the order in which they were sent, until a put of the application's
   id is completed while an earlier id is queued or in the hands of the refill, up to the refill's own
   put; no other step breaks the order.
   */
  lemma LinkOrderIsExact(s: Local, u: Step)
    requires Reachable(s) && Enabled(s, u) && LinkOrder(s.self, s.puts)
    ensures !LinkOrder(Apply(s, u).self, Apply(s, u).puts) <==> Overtakes(s, u)
  {
    hide Reachable, Inv, Chained, Ordered, LinkOrder, Apply, Enabled;
    ReachableInv(s);
    ChainAscends(s);
    WaitingInOrder(s);
    PutsOf(s, u);
    if u == MainStep && s.main.MPut? {
      MainPutOrder(s);
    } else if u == RecvStep && s.recv.RPut? {
      RecvPutOrder(s);
    } else if u == DelStep && s.del.DPut? {
      DelPutOrder(s);
    }
  }
}
