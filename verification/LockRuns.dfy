/**
 Runs of one process at lock level, with the limit that the code computes for the number of
 processes, in which properties of the atomic system are lost.
 */
module LockRuns {
  import opened Types
  import Urb
  import UrbProofs
  import opened LockLevel
  import opened LockTheorems
  import opened LockOrder
  import opened LockLinks

  /** One of n processes, with the limit that `Add` leaves. */
  predicate Real(s: Local) {
    1 <= s.self <= s.n && s.limit == Urb.Limit(s.n)
  }

  lemma Take(s: Local, u: Step) returns (t: Local)
    requires Reachable(s) && Enabled(s, u)
    ensures Reachable(t) && t == Apply(s, u)
  {
    hide Reachable, Apply, Enabled;
    ReachableStep(s, u);
    t := Apply(s, u);
  }

  // ------------------------------------------------------------------------------------------
  // The receive thread

  /** The receive thread notes and relays a message that it does not know. */
  lemma Relay(s: Local, p: Pid, id: MsgId) returns (t: Local)
    requires Reachable(s) && s.recv == RIdle && id !in s.pending && id !in s.delivered
    requires 1 <= p <= s.n && p != s.self && id.author != s.self
    ensures Reachable(t)
    ensures t == s.(pending := s.pending + {id}, acks := s.acks[id := AckSet(s.acks, id) + {p}],
                    puts := s.puts + multiset{id})
  {
    hide Reachable;
    t := Take(s, RecvStart(p, id));
    t := Take(t, RecvStep);
    t := Take(t, RecvStep);
    t := Take(t, RecvStep);
    t := Take(t, RecvStep);
    t := Take(t, RecvStep);
  }

  /** The receive thread notes an acknowledgement of a pending message. */
  lemma Acknowledge(s: Local, p: Pid, id: MsgId) returns (t: Local)
    requires Reachable(s) && s.recv == RIdle && id in s.pending && id !in s.delivered
    requires 1 <= p <= s.n && p != s.self
    ensures Reachable(t) && t == s.(acks := s.acks[id := AckSet(s.acks, id) + {p}])
  {
    hide Reachable;
    t := Take(s, RecvStart(p, id));
    t := Take(t, RecvStep);
    t := Take(t, RecvStep);
    t := Take(t, RecvStep);
  }

  /** Only the acknowledgements of one message grow, by the given processes. */
  ghost predicate Acked(before: map<MsgId, set<Pid>>, after: map<MsgId, set<Pid>>, id: MsgId, more: set<Pid>) {
    && AckSet(after, id) == AckSet(before, id) + more
    && (forall x :: x != id ==> AckSet(after, x) == AckSet(before, x))
  }

  /** Processes 1..m, each once, acknowledge a pending message. */
  lemma {:induction false} AckMany(s: Local, id: MsgId, m: nat) returns (t: Local)
    requires Reachable(s) && s.recv == RIdle && id in s.pending && id !in s.delivered
    requires m < s.self <= s.n
    ensures Reachable(t) && t == s.(acks := t.acks) && Acked(s.acks, t.acks, id, Pids(m))
  {
    hide Reachable;
    t := s;
    if m > 0 {
      t := AckMany(s, id, m - 1);
      t := Acknowledge(t, m, id);
    }
  }

  predicate Majority(n: nat, acks: map<MsgId, set<Pid>>, id: MsgId) {
    |AckSet(acks, id)| + 1 > n / 2
  }

  lemma AckedByMany(n: nat, acks: map<MsgId, set<Pid>>, id: MsgId, m: nat)
    requires Pids(m) <= AckSet(acks, id) && m + 1 > n / 2
    ensures Majority(n, acks, id)
  {
    hide Pids, AckSet;
    PidsCount(m);
    SubsetCount(Pids(m), AckSet(acks, id));
  }

  // ------------------------------------------------------------------------------------------
  // The delivery thread

  /** The delivery thread erases the next message of its snapshot, which a majority acknowledged. */
  lemma EraseNext(s: Local) returns (t: Local)
    requires Reachable(s) && s.del.DNext? && s.del.todo != []
    requires s.del.todo[0] !in s.delivered && Majority(s.n, s.acks, s.del.todo[0])
    ensures Reachable(t)
    ensures var id := s.del.todo[0];
            t == s.(pending := s.pending - {id}, erased := s.erased + {id},
                    acks := s.acks[id := AckSet(s.acks, id)], del := DCount(id, s.del.todo[1..]))
  {
    hide Reachable;
    t := Take(s, DelStep);
    t := Take(t, DelStep);
    t := Take(t, DelStep);
  }

  /** The delivery thread records the message and passes it up. */
  lemma Finish(s: Local) returns (t: Local)
    requires Reachable(s) && s.del.DInsert?
    ensures Reachable(t)
    ensures t == s.(delivered := s.delivered + {s.del.id}, acks := s.acks - {s.del.id},
                    ups := s.ups + multiset{s.del.id}, del := DNext(s.del.todo))
  {
    hide Reachable;
    t := Take(s, DelStep);
    t := Take(t, DelStep);
    t := Take(t, DelStep);
  }

  /** The ids of todo can all be delivered. */
  ghost predicate Ripe(s: Local, todo: seq<MsgId>) {
    && (forall i, j :: 0 <= i < j < |todo| ==> todo[i] != todo[j])
    && (forall id :: id in todo ==> id.author == s.self && id !in s.delivered && Majority(s.n, s.acks, id))
  }

  /** What a pass of the delivery thread over own messages leaves alone while nothing is queued. */
  ghost predicate OnlyCounted(s: Local, t: Local, count: nat) {
    && t.main == s.main && t.recv == s.recv && t.queue == s.queue
    && t.self == s.self && t.n == s.n && t.limit == s.limit
    && t.inflight == s.inflight - count
  }

  /** One own message is delivered while the queue is empty. */
  lemma DeliverOwn(s: Local) returns (t: Local)
    requires Reachable(s) && s.del.DNext? && s.del.todo != [] && Ripe(s, s.del.todo)
    requires s.queue == [] && s.inflight <= s.limit
    ensures Reachable(t) && OnlyCounted(s, t, 1) && t.del == DNext(s.del.todo[1..]) && Ripe(t, t.del.todo)
  {
    hide Reachable;
    var id, todo := s.del.todo[0], s.del.todo[1..];
    assert id in s.del.todo;
    t := EraseNext(s);
    t := Take(t, DelStep);
    t := Take(t, DelStep);
    t := Finish(t);
    RipeRest(s, t);
  }

  lemma RipeRest(s: Local, t: Local)
    requires s.del.DNext? && s.del.todo != [] && Ripe(s, s.del.todo)
    requires t.self == s.self && t.n == s.n && t.delivered == s.delivered + {s.del.todo[0]}
    requires t.acks == s.acks[s.del.todo[0] := AckSet(s.acks, s.del.todo[0])] - {s.del.todo[0]}
    ensures Ripe(t, s.del.todo[1..])
  {
    var id, todo := s.del.todo[0], s.del.todo[1..];
    forall x | x in todo
      ensures x.author == t.self && x !in t.delivered && Majority(t.n, t.acks, x)
    {
      assert x in s.del.todo && x != id;
      assert AckSet(t.acks, x) == AckSet(s.acks, x);
    }
  }

  /** A whole pass: everything in the snapshot is delivered and counted out. */
  lemma {:induction false} DeliverPass(s: Local) returns (t: Local)
    requires Reachable(s) && s.del.DNext? && Ripe(s, s.del.todo)
    requires s.queue == [] && s.inflight <= s.limit
    ensures Reachable(t) && OnlyCounted(s, t, |s.del.todo|) && t.del == DIdle
    decreases |s.del.todo|
  {
    hide Reachable, Ripe;
    if s.del.todo == [] {
      t := Take(s, DelStep);
    } else {
      t := DeliverOwn(s);
      t := DeliverPass(t);
    }
  }

  // ------------------------------------------------------------------------------------------
  // The application thread

  /** A send that finds room. */
  lemma SendDirectly(s: Local) returns (t: Local)
    requires Reachable(s) && s.main == MIdle && s.inflight < s.limit
    ensures Reachable(t)
    ensures var id := MsgId(s.self, s.next);
            t == s.(next := s.next + 1, inflight := s.inflight + 1, started := s.started + {id},
                    pending := s.pending + {id}, puts := s.puts + multiset{id})
  {
    hide Reachable;
    t := Take(s, MainStart);
    t := Take(t, MainStep);
    t := Take(t, MainStep);
    t := Take(t, MainStep);
    t := Take(t, MainStep);
  }

  function OwnIds(p: Pid, k: nat): set<MsgId> {
    set i | 1 <= i <= k :: MsgId(p, i)
  }

  lemma OwnIdsStep(p: Pid, k: nat)
    ensures OwnIds(p, k + 1) == OwnIds(p, k) + {MsgId(p, k + 1)}
  {
  }

  /** Process n has sent k messages, which all others have acknowledged, and delivered none. */
  ghost predicate Filled(s: Local, n: nat, limit: nat, k: nat) {
    && s.self == n && s.n == n && s.limit == limit && AtRest(s)
    && s.next == k + 1 && s.inflight == k && s.queue == [] && s.delivered == {}
    && s.pending == OwnIds(n, k)
    && (forall id :: id in s.pending ==> Majority(n, s.acks, id))
  }

  lemma FillStep(s: Local, n: nat, limit: nat, k: nat) returns (t: Local)
    requires Reachable(s) && Filled(s, n, limit, k) && k < limit && n >= 1
    ensures Reachable(t) && Filled(t, n, limit, k + 1)
  {
    hide Reachable, Majority, OwnIds, Pids;
    var id := MsgId(n, k + 1);
    OwnIdsStep(n, k);
    t := SendDirectly(s);
    t := AckMany(t, id, n - 1);
    AckedByMany(n, t.acks, id, n - 1);
    StillAcked(n, s.acks, t.acks, id, Pids(n - 1), s.pending);
  }

  lemma StillAcked(n: nat, before: map<MsgId, set<Pid>>, after: map<MsgId, set<Pid>>, id: MsgId, more: set<Pid>,
                   pending: set<MsgId>)
    requires Acked(before, after, id, more) && forall x :: x in pending ==> Majority(n, before, x)
    ensures forall x :: x in pending && x != id ==> Majority(n, after, x)
  {
    hide AckSet;
  }

  lemma {:induction false} FillUp(n: nat, limit: nat, k: nat) returns (s: Local)
    requires n >= 1 && k <= limit && limit >= 1
    ensures Reachable(s) && Filled(s, n, limit, k)
  {
    hide Reachable, Majority;
    if k == 0 {
      s := Init(n, n, limit);
      InitReachable(n, n, limit);
      assert OwnIds(n, 0) == {};
    } else {
      hide Filled;
      s := FillUp(n, limit, k - 1);
      s := FillStep(s, n, limit, k - 1);
    }
  }

  /** The order in which an unordered set is iterated. */
  lemma {:induction false} SomeOrder(ids: set<MsgId>) returns (order: seq<MsgId>)
    ensures multiset(order) == multiset(ids) && |order| == |ids|
  {
    order := [];
    if ids != {} {
      var id :| id in ids;
      var rest := SomeOrder(ids - {id});
      order := [id] + rest;
      assert ids == (ids - {id}) + {id};
    }
  }

  lemma {:induction false} OwnIdsCount(p: Pid, k: nat)
    ensures |OwnIds(p, k)| == k
  {
    if k == 0 {
      assert OwnIds(p, 0) == {};
    } else {
      OwnIdsCount(p, k - 1);
      OwnIdsStep(p, k - 1);
      assert MsgId(p, k) !in OwnIds(p, k - 1);
    }
  }

  /** The delivery thread takes its snapshot of k sent and acknowledged messages. */
  lemma StartPass(s: Local, k: nat) returns (t: Local)
    requires Reachable(s) && s.del == DIdle && s.delivered == {} && s.pending == OwnIds(s.self, k)
    requires forall id :: id in s.pending ==> Majority(s.n, s.acks, id)
    ensures Reachable(t) && t.del.DNext? && t == s.(del := t.del)
    ensures |t.del.todo| == k && Ripe(t, t.del.todo)
  {
    hide Reachable, Majority;
    var order := SomeOrder(s.pending);
    OwnIdsCount(s.self, k);
    SnapshotDistinct(order, s.pending);
    t := Take(s, DelStart(order));
  }

  // ------------------------------------------------------------------------------------------
  // A message is stranded

  /** A full counter, and one more send between its test and its push. */
  lemma OneMoreWaits(n: nat, limit: nat) returns (s: Local)
    requires n >= 1 && limit >= 1
    ensures Reachable(s) && s.self == n && s.n == n && s.limit == limit == s.inflight
    ensures s.main.MPush? && s.recv == RIdle && s.del == DIdle
    ensures s.queue == [] && s.delivered == {} && s.pending == OwnIds(n, limit)
    ensures forall id :: id in s.pending ==> Majority(n, s.acks, id)
  {
    hide Reachable, Majority, OwnIds;
    s := FillUp(n, limit, limit);
    s := Take(s, MainStart);
    s := Take(s, MainStep);
  }

  /**
   Validity, which holds for an atomic send, fails at lock level, for every number of processes:
   everything in flight is delivered between the test and the push of one more send.
   */
  lemma StrandedIsReachable(n: nat) returns (s: Local)
    requires n >= 1
    ensures Reachable(s) && Real(s) && s.n == n && Stranded(s)
  {
    hide Reachable, Majority, OwnIds, Ripe, Urb.Limit;
    UrbProofs.LimitBounds(n);
    s := OneMoreWaits(n, Urb.Limit(n));
    s := StartPass(s, Urb.Limit(n));
    s := DeliverPass(s);
    s := Take(s, MainStep);
  }

  // ------------------------------------------------------------------------------------------
  // The counter exceeds the limit

  /** The delivery thread has counted one out of a full counter, and a message is queued. */
  lemma SlotOpens(n: nat, limit: nat) returns (s: Local)
    requires n >= 1 && limit >= 1
    ensures Reachable(s) && s.self == n && s.n == n && s.limit == limit
    ensures s.inflight == limit - 1 && |s.queue| == 1 && s.main == MIdle && s.del.DPop?
  {
    hide Reachable, Majority, OwnIds;
    s := OneMoreWaits(n, limit);
    s := Take(s, MainStep);
    s := StartPass(s, limit);
    assert s.del.todo[0] in s.del.todo;
    s := EraseNext(s);
    s := Take(s, DelStep);
  }

  /**
   The bound on the counter, which holds for atomic operations, fails at lock level, for every
   number of processes: a new send and the refill both take the slot that was freed.
   */
  lemma OvershootIsReachable(n: nat) returns (s: Local)
    requires n >= 1
    ensures Reachable(s) && Real(s) && s.n == n && s.inflight == s.limit + 1
  {
    hide Reachable, Urb.Limit;
    UrbProofs.LimitBounds(n);
    s := SlotOpens(n, Urb.Limit(n));
    s := Take(s, MainStart);
    s := Take(s, MainStep);
    s := Take(s, DelStep);
    s := Take(s, MainStep);
    s := Take(s, DelStep);
  }

  /** What the network budget leaves when every process is at its limit. */
  function Spare(n: nat): int
    requires n >= 2
  {
    (if 32768 > n * n then 32768 else n * n) - n * n * Urb.Limit(n)
  }

  /**
   With all counters at the limit and j of them one above, the network budget is exceeded if and only
   if n * j is more than what is left of it; n overshoots always are, from two processes on.
   */
  lemma OvershootExceedsBudget(n: nat, j: nat)
    requires n >= 2
    ensures var total := n * (n * Urb.Limit(n) + j);
            (total > 32768 && total > n * n) <==> n * j > Spare(n)
    ensures 0 <= Spare(n) < n * n
  {
    var d, limit := n * n, Urb.Limit(n);
    assert n * (n * limit + j) == d * limit + n * j;
    SpareBounds(n);
  }

  lemma SpareBounds(n: nat)
    requires n >= 2
    ensures 0 <= Spare(n) < n * n
  {
    hide Urb.Limit;
    UrbProofs.LimitBounds(n);
    UrbProofs.AllowanceIsLargest(n);
    if n <= 181 {
      UrbProofs.Grows(n, 181);
      assert n * n * (Urb.Limit(n) + 1) == n * n * Urb.Limit(n) + n * n;
    } else {
      UrbProofs.Grows(182, n);
    }
  }

  // ------------------------------------------------------------------------------------------
  // Own messages out of order

  /**
   Own messages on the network are 1..k, with the later ones queued, for atomic operations; at lock
   level, for every number of processes, a later message is on the links while an earlier one waits.
   */
  lemma OutOfOrderIsReachable(n: nat) returns (s: Local, early: MsgId, late: MsgId)
    requires n >= 1
    ensures Reachable(s) && Real(s) && s.n == n && !InOrder(s) && !LinkOrder(s.self, s.puts)
    ensures early.author == late.author == s.self && early.num < late.num
    ensures early in s.queue && early !in s.puts && late in s.puts
  {
    hide Reachable, Urb.Limit, OrderInv, InOrder, LinkOrder, Unborn;
    UrbProofs.LimitBounds(n);
    s := SlotOpens(n, Urb.Limit(n));
    s := Take(s, MainStart);
    s := Take(s, MainStep);
    early, late := s.queue[0], s.main.id;
    WaitingInOrder(s);
    assert Waiting(s.queue, s.main, s.del) == s.queue + [late];
    EarlierFirst(s.self, s.next, s.started, s.queue, late);
    s := Take(s, MainStep);
    s := Take(s, MainStep);
    s := Take(s, MainStep);
    NotInOrder(s, early, late);
    QueuedNotPut(s, early);
    Overtaken(s, early, late);
  }

  lemma EarlierFirst(self: Pid, next: nat, started: set<MsgId>, queue: seq<MsgId>, late: MsgId)
    requires OrderInv(self, next, started, queue + [late]) && queue != []
    ensures queue[0].author == late.author == self && 1 <= queue[0].num < late.num
    ensures queue[0] !in started
  {
    var w := queue + [late];
    assert w[0] == queue[0] && w[|queue|] == late && w[0] in w;
  }

  /**
   Even when the refill has counted in first, and the count-ins stay in order, the new send can
   complete its put first: a later message is on the links, and the earlier one nowhere to be seen.
   */
  lemma OvertakenIsReachable(n: nat) returns (s: Local, early: MsgId, late: MsgId)
    requires n >= 1
    ensures Reachable(s) && Real(s) && s.n == n && InOrder(s) && !LinkOrder(s.self, s.puts)
    ensures early.author == late.author == s.self && 1 <= early.num < late.num
    ensures late in s.puts && early !in s.puts && early !in s.queue && s.del.DPend? && s.del.m == early
  {
    hide Reachable, Urb.Limit, OrderInv, InOrder, LinkOrder, Unborn;
    UrbProofs.LimitBounds(n);
    s := SlotOpens(n, Urb.Limit(n));
    s := Take(s, MainStart);
    s := Take(s, MainStep);
    early, late := s.queue[0], s.main.id;
    WaitingInOrder(s);
    assert Waiting(s.queue, s.main, s.del) == s.queue + [late];
    EarlierFirst(s.self, s.next, s.started, s.queue, late);
    s := Take(s, DelStep);
    s := Take(s, DelStep);
    s := Take(s, MainStep);
    s := Take(s, MainStep);
    s := Take(s, MainStep);
    RefillPending(s);
    NoneWaits(s);
    Overtaken(s, early, late);
  }

  lemma RefillPending(s: Local)
    requires Reachable(s) && s.del.DPend?
    ensures s.del.m !in s.puts
  {
    hide Reachable, Inv, Unborn;
    ReachableInv(s);
    UnbornOnce(s, s.del.m);
    Held(s.queue, s.main, s.del, s.del.m);
  }

  /** When no id waits to be counted in, all own ids are. */
  lemma NoneWaits(s: Local)
    requires Reachable(s) && Waiting(s.queue, s.main, s.del) == []
    ensures InOrder(s)
  {
    hide Reachable, Waiting;
    WaitingInOrder(s);
  }

  lemma Overtaken(s: Local, early: MsgId, late: MsgId)
    requires late in s.puts && early !in s.puts
    requires early.author == late.author == s.self && 1 <= early.num < late.num
    ensures !LinkOrder(s.self, s.puts)
  {
    assert early == MsgId(s.self, early.num);
  }

  lemma NotInOrder(s: Local, early: MsgId, late: MsgId)
    requires late in s.started && early !in s.started
    requires early.author == s.self && 1 <= early.num < late.num
    ensures !InOrder(s)
  {
    assert early == MsgId(s.self, early.num);
  }

  lemma QueuedNotPut(s: Local, id: MsgId)
    requires Reachable(s) && id in s.queue
    ensures id !in s.puts
  {
    hide Reachable, Inv;
    ReachableInv(s);
    UnbornOnce(s, id);
    assert id in multiset(s.queue);
  }

  // ------------------------------------------------------------------------------------------
  // Delivered before the fan-out is complete

  /** The first message of process n is pending and its fan-out has begun. */
  lemma FanOutBegins(n: nat, limit: nat) returns (s: Local)
    requires n >= 1 && limit >= 1
    ensures Reachable(s)
    ensures var id := MsgId(n, 1);
            s == Init(n, n, limit).(next := 2, inflight := 1, started := {id}, pending := {id}, main := MPut(id))
  {
    hide Reachable;
    InitReachable(n, n, limit);
    s := Take(Init(n, n, limit), MainStart);
    s := Take(s, MainStep);
    s := Take(s, MainStep);
    s := Take(s, MainStep);
  }

  /**
   A process that delivers has the id on all its links for atomic operations; at lock level, for
   three processes or more, an own message that went out on some links is echoed and delivered
   before the fan-out over the others is complete.
   */
  lemma DeliveredBeforeFanOut(n: nat) returns (s: Local)
    requires n >= 3
    ensures Reachable(s) && Real(s) && s.n == n
    ensures var id := MsgId(n, 1); s.ups[id] == 1 && s.puts[id] == 0 && s.main == MPut(id)
  {
    hide Reachable, Urb.Limit, Majority, Pids;
    UrbProofs.LimitBounds(n);
    var id := MsgId(n, 1);
    s := FanOutBegins(n, Urb.Limit(n));
    s := AckMany(s, id, n - 1);
    AckedByMany(n, s.acks, id, n - 1);
    assert multiset([id]) == multiset(s.pending);
    s := Take(s, DelStart([id]));
    s := EraseNext(s);
    s := Take(s, DelStep);
    s := Take(s, DelStep);
    s := Finish(s);
  }

  /** With three processes a foreign message, too, is delivered before it is relayed on any link. */
  lemma DeliveredBeforeRelay() returns (s: Local)
    ensures Reachable(s) && Real(s) && s.n == 3
    ensures s.ups[FOREIGN] == 1 && s.puts[FOREIGN] == 0 && s.recv == RPut(FOREIGN)
  {
    hide Reachable, Urb.Limit;
    UrbProofs.LimitBounds(3);
    s := RelayBegins(Urb.Limit(3));
    assert multiset([FOREIGN]) == multiset(s.pending);
    s := Take(s, DelStart([FOREIGN]));
    s := EraseNext(s);
    s := Take(s, DelStep);
    s := Finish(s);
  }

  lemma RelayBegins(limit: nat) returns (s: Local)
    requires limit >= 1
    ensures Reachable(s)
    ensures s == Init(3, 3, limit).(pending := {FOREIGN}, acks := map[FOREIGN := {1}], recv := RPut(FOREIGN))
  {
    hide Reachable;
    InitReachable(3, 3, limit);
    s := Take(Init(3, 3, limit), RecvStart(1, FOREIGN));
    s := Take(s, RecvStep);
    s := Take(s, RecvStep);
    s := Take(s, RecvStep);
    assert s.acks == map[FOREIGN := AckSet(map[], FOREIGN) + {1}];
    assert AckSet(map[], FOREIGN) + {1} == {1};
    s := Take(s, RecvStep);
  }

  // ------------------------------------------------------------------------------------------
  // A message is relayed twice

  const FOREIGN := MsgId(1, 1)

  /** A message of process 1 reaches process n through processes 1..n-2, and is erased. */
  lemma RelayedAndErased(n: nat, limit: nat) returns (s: Local)
    requires n >= 3 && limit >= 1
    ensures Reachable(s) && s.self == n && s.n == n && s.limit == limit
    ensures s.pending == {} && s.delivered == {} && s.ups == multiset{} && s.puts == multiset{FOREIGN}
    ensures s.recv == RIdle && s.del == DCount(FOREIGN, [])
  {
    hide Reachable, Majority, Pids;
    s := Init(n, n, limit);
    InitReachable(n, n, limit);
    s := Relay(s, n - 2, FOREIGN);
    ghost var first := s.acks;
    s := AckMany(s, FOREIGN, n - 3);
    FirstCounts(n, first, s.acks);
    assert multiset([FOREIGN]) == multiset(s.pending);
    s := Take(s, DelStart([FOREIGN]));
    assert [FOREIGN][1..] == [];
    s := EraseNext(s);
  }

  lemma FirstCounts(n: nat, first: map<MsgId, set<Pid>>, acks: map<MsgId, set<Pid>>)
    requires n >= 3 && n - 2 in AckSet(first, FOREIGN) && Acked(first, acks, FOREIGN, Pids(n - 3))
    ensures Majority(n, acks, FOREIGN)
  {
    hide Majority;
    assert Pids(n - 2) <= AckSet(acks, FOREIGN);
    AckedByMany(n, acks, FOREIGN, n - 2);
  }

  /**
   Relay at most once, which holds for atomic operations, fails at lock level, for three processes
   or more: the copy from process n-1 arrives between the erase and the insert. Delivery stays single.
   */
  lemma RelayedTwiceDeliveredOnce(n: nat) returns (s: Local)
    requires n >= 3
    ensures Reachable(s) && Real(s) && s.n == n
    ensures s.puts[FOREIGN] == 2 && s.ups[FOREIGN] == 1 && FOREIGN in s.pending && FOREIGN in s.delivered
  {
    hide Reachable, Urb.Limit;
    UrbProofs.LimitBounds(n);
    s := RelayedAndErased(n, Urb.Limit(n));
    s := Relay(s, n - 1, FOREIGN);
    s := Take(s, DelStep);
    s := Finish(s);
  }
}
