/**
 Two more guarantees of the atomic system at lock level: own messages are counted in in the order in
 which they were sent (module LockLinks has the order on the links), and a message is on the links of
 a process before that process delivers it.
 */
module LockOrder {
  import opened Types
  import opened LockLevel
  import opened LockTheorems

  // ------------------------------------------------------------------------------------------
  // The order of own messages

  /** Own ids that have a number and are not counted in: the refill's, the queue, the application's. */
  function Waiting(queue: seq<MsgId>, main: MainPc, del: DelPc): seq<MsgId> {
    (if del.DRefill? then [del.m] else [])
    + queue
    + (if main.MTest? || main.MPush? || main.MCount? then [main.id] else [])
  }

  /** They wait in ascending order, and are exactly the own ids so far that are not counted in. */
  ghost predicate OrderInv(self: Pid, next: nat, started: set<MsgId>, waiting: seq<MsgId>) {
    && next >= 1
    && (forall i :: 0 <= i < |waiting| ==> waiting[i].author == self && 1 <= waiting[i].num < next)
    && (forall i, j :: 0 <= i < j < |waiting| ==> waiting[i].num < waiting[j].num)
    && (forall id :: id in started <==> id.author == self && 1 <= id.num < next && id !in waiting)
  }

  ghost predicate Ordered(s: Local) {
    OrderInv(s.self, s.next, s.started, Waiting(s.queue, s.main, s.del))
  }

  /** The own ids counted in are 1..k for some k. */
  ghost predicate InOrder(s: Local) {
    forall id, j: nat :: id in s.started && 1 <= j < id.num ==> MsgId(s.self, j) in s.started
  }

  // What a step does to the waiting ids.
  datatype Move = Stay | Join | First | Last

  function MoveOf(s: Local, u: Step): Move {
    match u
    case MainStart => Join
    case MainStep => if s.main.MCount? then Last else Stay
    case DelStep => if s.del.DRefill? then First else Stay
    case _ => Stay
  }

  /** The effect of a move on the waiting list and the ids counted in. */
  ghost predicate Moves(move: Move, s: Local, t: Local) {
    var w, w' := Waiting(s.queue, s.main, s.del), Waiting(t.queue, t.main, t.del);
    && t.self == s.self
    && match move
       case Stay => w' == w && t.started == s.started && t.next == s.next
       case Join => w' == w + [MsgId(s.self, s.next)] && t.started == s.started && t.next == s.next + 1
       case First => w != [] && w' == w[1..] && t.started == s.started + {w[0]} && t.next == s.next
       case Last => w != [] && w' == w[..|w| - 1] && t.started == s.started + {w[|w| - 1]} && t.next == s.next
  }

  lemma MainMoves(s: Local)
    ensures Moves(if s.main.MIdle? then Join else if s.main.MCount? then Last else Stay, s, MainNext(s))
  {
    var front := (if s.del.DRefill? then [s.del.m] else []) + s.queue;
    if s.main.MCount? {
      assert (front + [s.main.id])[..|front|] == front;
    }
  }

  lemma DelMoves(s: Local)
    ensures Moves(if s.del.DRefill? then First else Stay, s, DelNext(s))
  {
    if s.del.DPop? && s.queue != [] {
      assert s.queue == [s.queue[0]] + s.queue[1..];
    }
  }

  lemma StepMoves(s: Local, u: Step)
    requires Enabled(s, u)
    ensures Moves(MoveOf(s, u), s, Apply(s, u))
  {
    hide MainNext, DelNext;
    match u
    case MainStart => MainMoves(s);
    case MainStep => MainMoves(s);
    case DelStep => DelMoves(s);
    case RecvStart(_, _) => {}
    case RecvStep => {}
    case DelStart(_) => {}
  }

  lemma JoinOrder(self: Pid, next: nat, started: set<MsgId>, w: seq<MsgId>)
    requires OrderInv(self, next, started, w)
    ensures OrderInv(self, next + 1, started, w + [MsgId(self, next)])
  {
  }

  lemma FirstOrder(self: Pid, next: nat, started: set<MsgId>, w: seq<MsgId>)
    requires OrderInv(self, next, started, w) && w != []
    ensures OrderInv(self, next, started + {w[0]}, w[1..])
  {
    assert w == [w[0]] + w[1..];
  }

  lemma LastOrder(self: Pid, next: nat, started: set<MsgId>, w: seq<MsgId>)
    requires OrderInv(self, next, started, w) && w != []
    ensures OrderInv(self, next, started + {w[|w| - 1]}, w[..|w| - 1])
  {
    assert w == w[..|w| - 1] + [w[|w| - 1]];
  }

  lemma MoveKeepsOrder(move: Move, s: Local, t: Local)
    requires Ordered(s) && Moves(move, s, t)
    ensures Ordered(t)
  {
    hide Waiting, OrderInv;
    var w := Waiting(s.queue, s.main, s.del);
    match move
    case Stay => {}
    case Join => JoinOrder(s.self, s.next, s.started, w);
    case First => FirstOrder(s.self, s.next, s.started, w);
    case Last => LastOrder(s.self, s.next, s.started, w);
  }

  lemma {:induction false} RunOrdered(s: Local, steps: seq<Step>, t: Local)
    requires Ordered(s) && Runs(s, steps, t)
    ensures Ordered(t)
    decreases |steps|
  {
    hide Ordered, Apply, Enabled, Moves;
    if steps != [] {
      StepMoves(s, steps[0]);
      MoveKeepsOrder(MoveOf(s, steps[0]), s, Apply(s, steps[0]));
      RunOrdered(Apply(s, steps[0]), steps[1..], t);
    }
  }

  /** In every reachable state the ids not counted in wait in ascending order. */
  lemma WaitingInOrder(s: Local)
    requires Reachable(s)
    ensures Ordered(s)
  {
    hide Runs;
    var self, n, limit, steps :| limit >= 1 && Runs(Init(self, n, limit), steps, s);
    RunOrdered(Init(self, n, limit), steps, s);
  }

  /** Counting in the first of the waiting ids keeps the order; counting in the last keeps it only when it is the first. */
  lemma MoveInOrder(move: Move, s: Local, t: Local)
    requires Ordered(s) && InOrder(s) && Moves(move, s, t)
    ensures !InOrder(t) <==> move == Last && |Waiting(s.queue, s.main, s.del)| > 1
  {
    hide Waiting;
    var w := Waiting(s.queue, s.main, s.del);
    match move
    case Stay => {}
    case Join => {}
    case First =>
      forall j: nat | 1 <= j < w[0].num
        ensures MsgId(s.self, j) in s.started
      {
        assert MsgId(s.self, j) !in w;
      }
    case Last =>
      var last := w[|w| - 1];
      if |w| > 1 {
        assert w[0] in w && w[0] == MsgId(s.self, w[0].num);
        assert w[0] !in t.started;
      } else {
        forall j: nat | 1 <= j < last.num
          ensures MsgId(s.self, j) in s.started
        {
          assert MsgId(s.self, j) !in w;
        }
      }
  }

  /**
   Own messages are counted in in order, until a step counts in a new send while an earlier message
   waits in the queue or in the hands of the refill; no other step breaks the order of count-ins.
   */
  lemma OrderIsExact(s: Local, u: Step)
    requires Reachable(s) && Enabled(s, u) && InOrder(s)
    ensures !InOrder(Apply(s, u)) <==> u == MainStep && s.main.MCount? && (s.queue != [] || s.del.DRefill?)
  {
    hide Reachable, Ordered, Apply, Enabled, Moves, InOrder;
    WaitingInOrder(s);
    StepMoves(s, u);
    MoveInOrder(MoveOf(s, u), s, Apply(s, u));
  }

  // ------------------------------------------------------------------------------------------
  // Delivery before the fan-out is complete

  /** The threads at the application's and the refill's put hold own ids. */
  ghost predicate HoldOwn(self: Pid, queue: seq<MsgId>, main: MainPc, del: DelPc) {
    && (forall i :: 0 <= i < |queue| ==> queue[i].author == self)
    && (!main.MIdle? ==> main.id.author == self)
    && (del.DRefill? || del.DPend? || del.DPut? ==> del.m.author == self)
  }

  predicate Relaying(recv: RecvPc, id: MsgId) {
    recv == RPend(id) || recv == RPut(id)
  }

  /**
   Until its first relay is complete, a foreign id has at most the acknowledgement of the message
   being relayed: the receive thread is the only one that adds acknowledgements.
   */
  ghost predicate FirstRelay(self: Pid, recv: RecvPc, acks: map<MsgId, set<Pid>>, puts: multiset<MsgId>) {
    && (forall id: MsgId :: id.author != self && puts[id] == 0 ==>
          AckSet(acks, id) == {} || (Relaying(recv, id) && |AckSet(acks, id)| <= 1))
    && ((recv.RCheck? || recv.RAck?) && !recv.notPending && recv.id.author != self ==> puts[recv.id] >= 1)
  }

  ghost predicate RelayInv(s: Local) {
    HoldOwn(s.self, s.queue, s.main, s.del) && FirstRelay(s.self, s.recv, s.acks, s.puts)
  }

  /** Acknowledgements disappear only altogether, and puts only grow. */
  lemma RelayFrame(self: Pid, recv: RecvPc, acks: map<MsgId, set<Pid>>, puts: multiset<MsgId>,
                   acks': map<MsgId, set<Pid>>, puts': multiset<MsgId>)
    requires FirstRelay(self, recv, acks, puts)
    requires forall x :: AckSet(acks', x) == AckSet(acks, x) || AckSet(acks', x) == {}
    requires forall x :: puts'[x] >= puts[x]
    ensures FirstRelay(self, recv, acks', puts')
  {
    hide AckSet, Relaying;
  }

  lemma MainRelay(s: Local)
    requires RelayInv(s)
    ensures RelayInv(MainNext(s))
  {
    hide FirstRelay;
    var t := MainNext(s);
    RelayFrame(s.self, s.recv, s.acks, s.puts, t.acks, t.puts);
  }

  lemma DelHoldsOwn(s: Local)
    requires HoldOwn(s.self, s.queue, s.main, s.del)
    ensures var t := DelNext(s); HoldOwn(t.self, t.queue, t.main, t.del)
  {
    hide AckSet;
    if s.del.DPop? && s.queue != [] {
      assert forall i :: 0 <= i < |s.queue[1..]| ==> s.queue[1..][i] == s.queue[i + 1];
    }
  }

  lemma DelKeeps(s: Local)
    ensures var t := DelNext(s);
            && t.self == s.self && t.recv == s.recv && t.main == s.main
            && (forall x :: t.puts[x] >= s.puts[x])
            && (forall x :: AckSet(t.acks, x) == AckSet(s.acks, x) || AckSet(t.acks, x) == {})
  {
  }

  lemma DelRelay(s: Local)
    requires RelayInv(s)
    ensures RelayInv(DelNext(s))
  {
    hide FirstRelay, HoldOwn, DelNext, AckSet;
    var t := DelNext(s);
    DelHoldsOwn(s);
    DelKeeps(s);
    RelayFrame(s.self, s.recv, s.acks, s.puts, t.acks, t.puts);
  }

  /** A foreign id that the receive thread finds pending has been put. */
  lemma PendingWasPut(s: Local, id: MsgId)
    requires Inv(s) && RelayInv(s) && id.author != s.self && id in s.pending && s.recv != RPut(id)
    ensures s.puts[id] >= 1
  {
    hide Unborn, OnceInv, TodoInv, UnbornInv, RecvInv, CountInv, HandsInv, BoundInv, FirstRelay;
    assert s.puts[id] + Between(s.main, s.recv, s.del, id) == Bit(id in s.pending) + Bit(id in s.erased);
  }

  lemma AckRelay(self: Pid, recv: RecvPc, acks: map<MsgId, set<Pid>>, puts: multiset<MsgId>)
    requires FirstRelay(self, recv, acks, puts) && recv.RAck?
    ensures FirstRelay(self, if recv.notPending then RPend(recv.id) else RIdle,
                       acks[recv.id := AckSet(acks, recv.id) + {recv.sender}], puts)
  {
    var acks' := acks[recv.id := AckSet(acks, recv.id) + {recv.sender}];
    assert forall x :: x != recv.id ==> AckSet(acks', x) == AckSet(acks, x);
    assert AckSet(acks', recv.id) == AckSet(acks, recv.id) + {recv.sender};
  }

  lemma PutRelay(self: Pid, recv: RecvPc, acks: map<MsgId, set<Pid>>, puts: multiset<MsgId>)
    requires FirstRelay(self, recv, acks, puts) && recv.RPut?
    ensures FirstRelay(self, RIdle, acks, puts + multiset{recv.id})
  {
  }

  lemma RecvRelay(s: Local)
    requires Inv(s) && RelayInv(s)
    ensures RelayInv(RecvNext(s))
  {
    hide Inv, HoldOwn, AckSet;
    match s.recv
    case RAck(_, _, _) => AckRelay(s.self, s.recv, s.acks, s.puts);
    case RPut(_) => PutRelay(s.self, s.recv, s.acks, s.puts);
    case RLook(_, id) =>
      if id in s.pending && id.author != s.self {
        PendingWasPut(s, id);
      }
    case _ => {}
  }

  lemma StepRelay(s: Local, u: Step)
    requires Inv(s) && RelayInv(s) && Enabled(s, u)
    ensures RelayInv(Apply(s, u))
  {
    hide Inv, MainNext, RecvNext, DelNext;
    match u
    case MainStart => MainRelay(s);
    case MainStep => MainRelay(s);
    case RecvStart(_, _) => {}
    case RecvStep => RecvRelay(s);
    case DelStart(_) => {}
    case DelStep => DelRelay(s);
  }

  lemma {:induction false} RunRelay(s: Local, steps: seq<Step>, t: Local)
    requires Inv(s) && RelayInv(s) && Runs(s, steps, t)
    ensures RelayInv(t)
    decreases |steps|
  {
    hide Inv, RelayInv, Apply, Enabled;
    if steps != [] {
      StepInv(s, steps[0]);
      StepRelay(s, steps[0]);
      RunRelay(Apply(s, steps[0]), steps[1..], t);
    }
  }

  lemma ReachableRelay(s: Local)
    requires Reachable(s)
    ensures RelayInv(s)
  {
    hide Inv, Runs;
    var self, n, limit, steps :| limit >= 1 && Runs(Init(self, n, limit), steps, s);
    InitInv(self, n, limit);
    RunRelay(Init(self, n, limit), steps, s);
  }

  /** When a count of acknowledgements passed, it still stands: only delivery erases them. */
  ghost predicate CountStands(del: DelPc, n: nat, acks: map<MsgId, set<Pid>>) {
    del.DErase? || (del.DCheck? && del.seen) ==> |AckSet(acks, del.id)| + 1 > n / 2
  }

  lemma StepCount(s: Local, u: Step)
    requires CountStands(s.del, s.n, s.acks) && Enabled(s, u)
    ensures CountStands(Apply(s, u).del, s.n, Apply(s, u).acks)
  {
    var t := Apply(s, u);
    if u == RecvStep && s.recv.RAck? {
      var id := s.recv.id;
      SubsetCount(AckSet(s.acks, id), AckSet(t.acks, id));
    }
  }

  lemma {:induction false} RunCount(s: Local, steps: seq<Step>, t: Local)
    requires CountStands(s.del, s.n, s.acks) && Runs(s, steps, t)
    ensures CountStands(t.del, t.n, t.acks)
    decreases |steps|
  {
    hide CountStands, Enabled;
    if steps != [] {
      StepCount(s, steps[0]);
      RunCount(Apply(s, steps[0]), steps[1..], t);
    }
  }

  lemma ReachableCount(s: Local)
    requires Reachable(s)
    ensures CountStands(s.del, s.n, s.acks)
  {
    hide Runs;
    var self, n, limit, steps :| limit >= 1 && Runs(Init(self, n, limit), steps, s);
    RunCount(Init(self, n, limit), steps, s);
  }

  /**
   A process delivers an id that it has not completely put on its links if and only if the
   application thread is inside the fan-out of that own id, or the receive thread inside its first
   relay, and the latter takes at most three processes.
   */
  lemma CertificateIsExact(s: Local)
    requires Reachable(s) && s.del.DErase?
    ensures s.puts[s.del.id] == 0 <==> s.main == MPut(s.del.id) || s.recv == RPut(s.del.id)
    ensures s.puts[s.del.id] == 0 && s.main != MPut(s.del.id) ==> s.del.id.author != s.self && s.n <= 3
  {
    hide Reachable, Unborn, OnceInv, UnbornInv, CountInv, HandsInv, BoundInv;
    var id := s.del.id;
    ReachableInv(s);
    ReachableRelay(s);
    ReachableCount(s);
    EraseOnce(s.del, s.delivered, s.erased, s.ups);
    assert s.puts[id] + Between(s.main, s.recv, s.del, id) == Bit(id in s.pending) + Bit(id in s.erased);
  }
}
