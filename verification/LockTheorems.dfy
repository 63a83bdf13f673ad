/**
 Delivery, relays, the in-flight counter and the queue under lock-level interleaving: what every run
 keeps, and the exact steps and runs at which a guarantee of the atomic system is lost. Everything
 here holds for every number of processes and every limit; module LockRuns has the runs that lose.
 */
module LockTheorems {
  import opened Types
  import opened LockLevel

  // ------------------------------------------------------------------------------------------
  // Delivery

  /** No duplication: however the threads interleave, an id reaches DeliverInternal at most once. */
  lemma NoDuplicationAtLocks(s: Local, id: MsgId)
    requires Reachable(s)
    ensures s.ups[id] <= 1
    ensures s.ups[id] == 1 ==> id in s.delivered
  {
    hide Reachable, TodoInv, PutInv, UnbornInv, RecvInv, CountInv, HandsInv, BoundInv;
    ReachableInv(s);
  }

  // ------------------------------------------------------------------------------------------
  // Relays

  /** The puts of an id, done and under way. */
  function Puts(s: Local, id: MsgId): nat {
    s.puts[id] + Between(s.main, s.recv, s.del, id)
  }

  /** The id has passed the delivery thread's erase: delivered, or between the erase and the insert. */
  predicate Passed(s: Local, id: MsgId) {
    id in s.delivered || BusyOn(s.del) == Some(id)
  }

  /**
   The window between the pending erase and the delivered insert lets the receive thread put an id
   on the links again, once: puts are one for being pending plus one for having passed the erase.
   */
  lemma PutsAtLocks(s: Local, id: MsgId)
    requires Reachable(s)
    ensures Puts(s, id) == Bit(id in s.pending) + Bit(Passed(s, id))
    ensures s.puts[id] <= 2
    ensures s.puts[id] == 2 <==> id in s.pending && Passed(s, id) && Between(s.main, s.recv, s.del, id) == 0
  {
    hide Reachable, TodoInv, UnbornInv, RecvInv, CountInv, HandsInv, BoundInv;
    ReachableInv(s);
  }

  /** What the three threads are about to insert into the pending set has been nowhere before. */
  lemma InsertedAfresh(s: Local)
    requires Reachable(s)
    ensures s.main.MPend? ==> !Passed(s, s.main.id)
    ensures s.del.DPend? ==> !Passed(s, s.del.m)
  {
    hide Reachable, Unborn, TodoInv, PutInv, UnbornInv, RecvInv, CountInv, HandsInv, BoundInv;
    ReachableInv(s);
    if s.main.MPend? {
      UnbornOnce(s, s.main.id);
      Held(s.queue, s.main, s.del, s.main.id);
    }
    if s.del.DPend? {
      UnbornOnce(s, s.del.m);
      Held(s.queue, s.main, s.del, s.del.m);
    }
  }

  lemma ReachableStep(s: Local, u: Step)
    requires Reachable(s) && Enabled(s, u)
    ensures Reachable(Apply(s, u))
  {
    hide Apply, Enabled, Runs, Init;
    var self, n, limit, steps :| limit >= 1 && Runs(Init(self, n, limit), steps, s);
    RunsSnoc(Init(self, n, limit), steps, s, u);
  }

  lemma {:induction false} RunsSnoc(s: Local, steps: seq<Step>, t: Local, u: Step)
    requires Runs(s, steps, t) && Enabled(t, u)
    ensures Runs(s, steps + [u], Apply(t, u))
    decreases |steps|
  {
    hide Apply, Enabled;
    if steps == [] {
      assert steps + [u] == [u];
      assert [u][1..] == [];
    } else {
      RunsSnoc(Apply(s, steps[0]), steps[1..], t, u);
      assert (steps + [u])[1..] == steps[1..] + [u];
    }
  }

  lemma {:induction false} AtMostTwice(puts: multiset<MsgId>, ids: set<MsgId>)
    requires forall id :: puts[id] <= 2 && (id in puts ==> id in ids)
    ensures |puts| <= 2 * |ids|
  {
    if ids == {} {
      assert puts == multiset{};
    } else {
      var id :| id in ids;
      var rest := puts[id := 0];
      AtMostTwice(rest, ids - {id});
      assert puts == rest[id := puts[id]];
      assert |puts| == |rest| + puts[id];
    }
  }

  /** The numbers a link gives out: at most two for each id that was put. */
  lemma LinkNumbersAtLocks(s: Local, ids: set<MsgId>)
    requires Reachable(s) && forall id :: id in s.puts ==> id in ids
    ensures |s.puts| <= 2 * |ids|
  {
    hide Reachable, Passed, Between;
    forall id
      ensures s.puts[id] <= 2
    {
      PutsAtLocks(s, id);
    }
    AtMostTwice(s.puts, ids);
  }

  /** The step at which a second put becomes due. */
  predicate Repeats(s: Local, u: Step, id: MsgId) {
    u == RecvStep && s.recv == RPend(id) && Passed(s, id)
  }

  /** The id is pending although it has passed the erase. */
  predicate Both(s: Local, id: MsgId) {
    id in s.pending && Passed(s, id)
  }

  lemma MainBoth(s: Local, id: MsgId)
    requires !Both(s, id) && (s.main.MPend? ==> !Passed(s, s.main.id))
    ensures !Both(MainNext(s), id)
  {
  }

  lemma RecvBoth(s: Local, id: MsgId)
    requires !Both(s, id)
    ensures Both(RecvNext(s), id) <==> Repeats(s, RecvStep, id)
  {
  }

  lemma DelBoth(s: Local, id: MsgId)
    requires !Both(s, id) && (s.del.DPend? ==> !Passed(s, s.del.m))
    ensures !Both(DelNext(s), id)
  {
  }

  /** A step makes an id pending although it has passed the erase exactly when it repeats it. */
  lemma BothExactly(s: Local, u: Step, id: MsgId)
    requires Enabled(s, u) && !Both(s, id)
    requires s.main.MPend? ==> !Passed(s, s.main.id)
    requires s.del.DPend? ==> !Passed(s, s.del.m)
    ensures Both(Apply(s, u), id) <==> Repeats(s, u, id)
  {
    hide MainNext, RecvNext, DelNext;
    match u
    case MainStart => MainBoth(s, id);
    case MainStep => MainBoth(s, id);
    case RecvStart(_, _) => {}
    case RecvStep => RecvBoth(s, id);
    case DelStart(_) => {}
    case DelStep => DelBoth(s, id);
  }

  /** Relay at most once is lost at exactly one kind of step. */
  lemma SecondPutIsExact(s: Local, u: Step, id: MsgId)
    requires Reachable(s) && Enabled(s, u) && Puts(s, id) <= 1
    ensures Puts(Apply(s, u), id) == 2 <==> Repeats(s, u, id)
  {
    hide Reachable, Apply, Enabled, Passed, Repeats, Puts;
    InsertedAfresh(s);
    ReachableStep(s, u);
    PutsAtLocks(s, id);
    PutsAtLocks(Apply(s, u), id);
    BothExactly(s, u, id);
  }

  // ------------------------------------------------------------------------------------------
  // The counter

  /** The counter never goes below zero, and exceeds the limit by at most one. */
  lemma CounterAtLocks(s: Local)
    requires Reachable(s)
    ensures s.finished <= s.started && s.inflight == |s.started - s.finished|
    ensures 0 <= s.inflight <= s.limit + 1
  {
    hide Reachable, TodoInv, PutInv, UnbornInv, RecvInv, OnceInv, HandsInv;
    ReachableInv(s);
    assert s.started == (s.started - s.finished) + s.finished;
  }

  /** The slots in use, and those a thread has decided to take and not counted in yet. */
  function Claimed(s: Local): int {
    s.inflight + Bit(s.main.MCount?) + Bit(s.del.DRefill?)
  }

  /**
   The last free slot is claimed twice: a send passes its test while the refill holds a message for
   that slot, or the refill takes a message while the slots are used up by a send that passed.
   */
  predicate ClaimsTwice(s: Local, u: Step) {
    || (u == MainStep && s.main.MTest? && s.inflight + 1 == s.limit && s.del.DRefill?)
    || (u == DelStep && s.del.DPop? && s.queue != [] && s.inflight + Bit(s.main.MCount?) == s.limit)
  }

  /** An own message is counted out. */
  predicate Frees(s: Local, u: Step) {
    u == DelStep && s.del.DCount? && s.del.id.author == s.self
  }

  lemma MainClaims(s: Local)
    requires BoundInv(s.main, s.del, s.inflight, s.limit)
    ensures Claimed(MainNext(s)) > s.limit <==> ClaimsTwice(s, MainStep) || Claimed(s) > s.limit
  {
  }

  lemma DelClaims(s: Local)
    requires BoundInv(s.main, s.del, s.inflight, s.limit)
    ensures Claimed(DelNext(s)) > s.limit <==>
              ClaimsTwice(s, DelStep) || (Claimed(s) > s.limit && !Frees(s, DelStep))
  {
  }

  /** More slots are claimed than there are from a double claim on, until a message is counted out. */
  lemma ClaimIsExact(s: Local, u: Step)
    requires Reachable(s) && Enabled(s, u)
    ensures Claimed(Apply(s, u)) > s.limit <==> ClaimsTwice(s, u) || (Claimed(s) > s.limit && !Frees(s, u))
  {
    hide Reachable, OnceInv, TodoInv, PutInv, UnbornInv, RecvInv, CountInv, HandsInv, MainNext, RecvNext, DelNext;
    ReachableInv(s);
    match u
    case MainStart => MainClaims(s);
    case MainStep => MainClaims(s);
    case RecvStart(_, _) => {}
    case RecvStep => RecvClaims(s);
    case DelStart(_) => {}
    case DelStep => DelClaims(s);
  }

  lemma RecvClaims(s: Local)
    ensures Claimed(RecvNext(s)) == Claimed(s)
  {
  }

  /** No own message is counted out along the steps. */
  ghost predicate Unfreed(s: Local, steps: seq<Step>)
    decreases |steps|
  {
    steps != [] ==> !Frees(s, steps[0]) && Unfreed(Apply(s, steps[0]), steps[1..])
  }

  /** Some step claims the last slot twice, and no own message is counted out afterwards. */
  ghost predicate EndsOverclaimed(s: Local, steps: seq<Step>)
    decreases |steps|
  {
    && steps != []
    && var t := Apply(s, steps[0]);
       (ClaimsTwice(s, steps[0]) && Unfreed(t, steps[1..])) || EndsOverclaimed(t, steps[1..])
  }

  lemma StepLimit(s: Local, u: Step)
    ensures Apply(s, u).limit == s.limit
  {
  }

  lemma {:induction false} RunClaims(s: Local, steps: seq<Step>, t: Local)
    requires Reachable(s) && Runs(s, steps, t)
    ensures Claimed(t) > t.limit <==> EndsOverclaimed(s, steps) || (Claimed(s) > s.limit && Unfreed(s, steps))
    decreases |steps|
  {
    hide Reachable, Apply, Enabled, Claimed, ClaimsTwice, Frees;
    if steps != [] {
      ClaimIsExact(s, steps[0]);
      ReachableStep(s, steps[0]);
      StepLimit(s, steps[0]);
      RunClaims(Apply(s, steps[0]), steps[1..], t);
    }
  }

  /**
   The bound at lock level, exactly: a run that ends with no thread about to count in has the counter
   above the limit if and only if the last slot was claimed twice and nothing was counted out since.
   */
  lemma OvershootExactly(self: Pid, n: nat, limit: nat, steps: seq<Step>, t: Local)
    requires limit >= 1 && Runs(Init(self, n, limit), steps, t) && !t.main.MCount? && !t.del.DRefill?
    ensures t.inflight > t.limit <==> EndsOverclaimed(Init(self, n, limit), steps)
  {
    hide Runs, Apply, ClaimsTwice, Frees, EndsOverclaimed, Unfreed;
    InitReachable(self, n, limit);
    RunClaims(Init(self, n, limit), steps, t);
  }

  /** The step that takes the counter there: a thread counts in what it claimed beyond the limit. */
  lemma OvershootIsExact(s: Local, u: Step)
    requires Enabled(s, u) && s.inflight <= s.limit
    ensures Apply(s, u).inflight == s.limit + 1 <==>
              s.inflight == s.limit && ((u == MainStep && s.main.MCount?) || (u == DelStep && s.del.DRefill?))
    ensures Apply(s, u).inflight == s.limit + 1 ==> Claimed(s) > s.limit
    ensures Apply(s, u).inflight <= s.limit + 1
  {
  }

  // ------------------------------------------------------------------------------------------
  // Stranded messages

  /** All three threads at rest. */
  predicate AtRest(s: Local) {
    s.main.MIdle? && s.recv.RIdle? && s.del.DIdle?
  }

  /**
   A message waits in the queue although nothing of this author is in flight: no delivery will
   ever start it.
   */
  predicate Stranded(s: Local) {
    AtRest(s) && s.queue != [] && s.inflight == 0
  }

  /** A waiting message has an own message in flight, or about to be. */
  predicate Wakeable(s: Local) {
    s.queue != [] ==> s.inflight + Bit(s.main.MCount?) + Bit(s.del.DPop? || s.del.DRefill?) >= 1
  }

  /** A push that finds the counter at zero and no refill under way. */
  predicate Starves(s: Local, u: Step) {
    u == MainStep && s.main.MPush? && s.inflight == 0 && !s.del.DPop? && !s.del.DRefill?
  }

  /** The application thread compares the counter with the limit. */
  predicate Tests(s: Local, u: Step) {
    u == MainStep && s.main.MTest?
  }

  /** An own message that is being counted out is counted in. */
  lemma CountedOutIsIn(s: Local)
    requires Reachable(s)
    ensures s.limit >= 1 && 0 <= s.inflight <= s.limit + 1
    ensures s.del.DCount? && s.del.id.author == s.self ==> s.inflight >= 1
  {
    hide Reachable, TodoInv, PutInv, UnbornInv, RecvInv, OnceInv;
    ReachableInv(s);
    CounterAtLocks(s);
    if s.del.DCount? && s.del.id.author == s.self {
      assert s.del.id in s.started - s.finished;
    }
  }

  lemma MainWakes(s: Local)
    requires s.limit >= 1 && s.inflight >= 0
    ensures !Wakeable(MainNext(s)) <==> Starves(s, MainStep) || (!Wakeable(s) && !Tests(s, MainStep))
  {
  }

  lemma DelWakes(s: Local)
    requires s.limit >= 1 && 0 <= s.inflight
    requires s.del.DCount? && s.del.id.author == s.self ==> s.inflight >= 1
    ensures Wakeable(DelNext(s)) <==> Wakeable(s)
  {
  }

  lemma RecvWakes(s: Local)
    ensures Wakeable(RecvNext(s)) <==> Wakeable(s)
  {
  }

  /**
   The exact steps: a waiting message loses its wake-up when, and only when, a push starves it, and
   gets it back when, and only when, a later send makes its test.
   */
  lemma WakeIsExact(s: Local, u: Step)
    requires Reachable(s) && Enabled(s, u)
    ensures !Wakeable(Apply(s, u)) <==> Starves(s, u) || (!Wakeable(s) && !Tests(s, u))
  {
    hide Reachable, MainNext, RecvNext, DelNext;
    CountedOutIsIn(s);
    match u
    case MainStart => MainWakes(s);
    case MainStep => MainWakes(s);
    case RecvStart(_, _) => {}
    case RecvStep => RecvWakes(s);
    case DelStart(_) => {}
    case DelStep => DelWakes(s);
  }

  /** No application thread makes its test along the steps. */
  ghost predicate Untested(s: Local, steps: seq<Step>)
    decreases |steps|
  {
    steps != [] ==> !Tests(s, steps[0]) && Untested(Apply(s, steps[0]), steps[1..])
  }

  /** Some push starves, and no send makes its test afterwards. */
  ghost predicate EndsStarved(s: Local, steps: seq<Step>)
    decreases |steps|
  {
    && steps != []
    && var t := Apply(s, steps[0]);
       (Starves(s, steps[0]) && Untested(t, steps[1..])) || EndsStarved(t, steps[1..])
  }

  lemma {:induction false} RunWakes(s: Local, steps: seq<Step>, t: Local)
    requires Reachable(s) && Runs(s, steps, t)
    ensures !Wakeable(t) <==> EndsStarved(s, steps) || (!Wakeable(s) && Untested(s, steps))
    decreases |steps|
  {
    hide Reachable, Apply, Enabled, Wakeable, Starves, Tests;
    if steps != [] {
      WakeIsExact(s, steps[0]);
      ReachableStep(s, steps[0]);
      RunWakes(Apply(s, steps[0]), steps[1..], t);
    }
  }

  lemma RestIsExact(s: Local)
    requires AtRest(s) && s.inflight >= 0
    ensures Stranded(s) <==> !Wakeable(s)
  {
  }

  /**
   Validity at lock level, exactly: a run that ends at rest leaves a message stranded if and only if
   some push found the counter at zero with no refill under way and no send was tested after it.
   */
  lemma StrandedExactly(self: Pid, n: nat, limit: nat, steps: seq<Step>, t: Local)
    requires limit >= 1 && Runs(Init(self, n, limit), steps, t) && AtRest(t)
    ensures Stranded(t) <==> EndsStarved(Init(self, n, limit), steps)
  {
    hide Runs, Apply, Starves, Tests, EndsStarved, Untested, AtRest, Stranded;
    var s := Init(self, n, limit);
    InitReachable(self, n, limit);
    RunWakes(s, steps, t);
    CountedOutIsIn(t);
    RestIsExact(t);
  }

  lemma InitReachable(self: Pid, n: nat, limit: nat)
    requires limit >= 1
    ensures Reachable(Init(self, n, limit))
  {
    assert Runs(Init(self, n, limit), [], Init(self, n, limit));
  }

  // ------------------------------------------------------------------------------------------
  // The wake-up rule

  /** A waiting message always has the counter, with the slot about to be refilled, at the limit. */
  predicate Healthy(s: Local) {
    && (s.main.MPush? ==> s.inflight >= s.limit)
    && (s.queue != [] ==> s.inflight + Bit(s.del.DPop? || s.del.DRefill?) >= s.limit)
  }

  lemma MainHealth(s: Local)
    requires Healthy(s)
    ensures Healthy(MainNext(s))
  {
  }

  lemma DelHealth(s: Local)
    requires Healthy(s)
    ensures Healthy(DelNext(s)) <==>
              !(s.del.DCount? && s.del.id.author == s.self && s.main.MPush? && s.inflight <= s.limit)
  {
  }

  /**
   The exact step that breaks the stricter rule of the atomic system, that a waiting message has the
   counter at the limit: an own message is counted out, finding the counter within the limit, while
   the application thread stands between its test and its push.
   */
  lemma RaceIsExact(s: Local, u: Step)
    requires Healthy(s) && Enabled(s, u)
    ensures !Healthy(Apply(s, u)) <==>
              u == DelStep && s.del.DCount? && s.del.id.author == s.self && s.main.MPush? && s.inflight <= s.limit
  {
    hide MainNext, DelNext;
    match u
    case MainStart => MainHealth(s);
    case MainStep => MainHealth(s);
    case RecvStart(_, _) => {}
    case RecvStep => {}
    case DelStart(_) => {}
    case DelStep => DelHealth(s);
  }
}
