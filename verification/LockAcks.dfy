/**
 The ack table under lock-level interleaving. For whole operations it has entries for pending ids only.
 At lock level the receive thread can record an acknowledgement after the delivery thread has erased the
 entry of the same id; such an entry stays for ever. This module has the exact step and the run.
 */
module LockAcks {
  import opened Types
  import Urb
  import UrbProofs
  import opened LockLevel
  import opened LockTheorems
  import opened LockRuns

  /** Entries are of ids that are pending, about to be, or past the erase; what was pending stays one of these. */
  ghost predicate AckInv(s: Local) {
    && (forall id :: id in s.acks ==> id in s.pending || s.recv == RPend(id) || id in s.erased)
    && ((s.recv.RCheck? || s.recv.RAck?) && !s.recv.notPending ==> s.recv.id in s.pending || s.recv.id in s.erased)
  }

  lemma MainAck(s: Local)
    requires AckInv(s)
    ensures AckInv(MainNext(s))
  {
  }

  lemma RecvAck(s: Local)
    requires AckInv(s)
    ensures AckInv(RecvNext(s))
  {
  }

  lemma DelAck(s: Local)
    requires AckInv(s) && TodoInv(s.del, s.pending)
    ensures AckInv(DelNext(s))
  {
    if s.del.DNext? && s.del.todo != [] {
      assert s.del.todo[0] in s.del.todo;
    }
  }

  lemma StepAck(s: Local, u: Step)
    requires Inv(s) && AckInv(s) && Enabled(s, u)
    ensures AckInv(Apply(s, u))
  {
    hide AckInv, MainNext, RecvNext, DelNext, OnceInv, PutInv, UnbornInv, RecvInv, CountInv, HandsInv, BoundInv, TodoInv;
    match u
    case MainStart => MainAck(s);
    case MainStep => MainAck(s);
    case RecvStart(p, id) => RecvStartAck(s, p, id);
    case RecvStep => RecvAck(s);
    case DelStart(order) => assert AckInv(s.(del := DNext(order))) by { DelStartAck(s, order); }
    case DelStep => DelAck(s);
  }

  lemma RecvStartAck(s: Local, p: Pid, id: MsgId)
    requires AckInv(s) && s.recv.RIdle?
    ensures AckInv(s.(recv := RLook(p, id)))
  {
  }

  lemma DelStartAck(s: Local, order: seq<MsgId>)
    requires AckInv(s)
    ensures AckInv(s.(del := DNext(order)))
  {
  }

  lemma {:induction false} RunAck(s: Local, steps: seq<Step>, t: Local)
    requires Inv(s) && AckInv(s) && Runs(s, steps, t)
    ensures Inv(t) && AckInv(t)
    decreases |steps|
  {
    hide Inv, AckInv, Apply, Enabled;
    if steps != [] {
      StepInv(s, steps[0]);
      StepAck(s, steps[0]);
      RunAck(Apply(s, steps[0]), steps[1..], t);
    }
  }

  lemma ReachableAck(s: Local)
    requires Reachable(s)
    ensures Inv(s) && AckInv(s)
  {
    hide Inv, Runs;
    var self, n, limit, steps :| limit >= 1 && Runs(Init(self, n, limit), steps, s);
    InitInv(self, n, limit);
    RunAck(Init(self, n, limit), steps, s);
  }

  lemma ErasedIsPassed(s: Local, id: MsgId)
    requires Inv(s)
    ensures id in s.erased <==> Passed(s, id)
  {
    hide TodoInv, PutInv, UnbornInv, RecvInv, CountInv, HandsInv, BoundInv;
  }

  /** What holds instead: an entry is of an id that is pending, about to be, or past the erase. */
  lemma AcksAtLocks(s: Local, id: MsgId)
    requires Reachable(s) && id in s.acks
    ensures id in s.pending || s.recv == RPend(id) || Passed(s, id)
  {
    hide Reachable, Inv;
    ReachableAck(s);
    ErasedIsPassed(s, id);
  }

  // ------------------------------------------------------------------------------------------
  // Entries nobody will erase

  /** An entry of an id that is not pending, with no thread on its way to insert the id or erase the entry. */
  predicate Stale(s: Local, id: MsgId) {
    && id in s.acks && id !in s.pending && s.recv != RPend(id)
    && BusyOn(s.del) != Some(id) && !(s.del.DForget? && s.del.id == id)
  }

  /** A stale entry of a delivered id that the receive thread is not about to add to. */
  predicate Lasting(s: Local, id: MsgId) {
    Stale(s, id) && id in s.delivered && !(s.recv.RAck? && s.recv.id == id)
  }

  /** The receive thread records an acknowledgement of an id it saw pending and that is delivered by now. */
  predicate Belated(s: Local, u: Step, id: MsgId) {
    && u == RecvStep && s.recv.RAck? && s.recv.id == id && !s.recv.notPending
    && id in s.delivered && id !in s.pending && !(s.del.DForget? && s.del.id == id)
  }

  lemma MainStale(s: Local, id: MsgId)
    requires Inv(s)
    ensures Stale(MainNext(s), id) ==> Stale(s, id)
    ensures Lasting(s, id) ==> Lasting(MainNext(s), id) && MainNext(s).acks == s.acks
  {
    hide TodoInv, PutInv, RecvInv, CountInv, HandsInv, BoundInv, Unborn;
    if s.main.MPend? {
      Held(s.queue, s.main, s.del, s.main.id);
    }
  }

  lemma DelStale(s: Local, id: MsgId)
    requires Inv(s)
    ensures Stale(DelNext(s), id) ==> Stale(s, id)
  {
    hide PutInv, UnbornInv, RecvInv, CountInv, HandsInv, BoundInv, Unborn;
    if s.del.DNext? && s.del.todo != [] {
      assert s.del.todo[0] in s.del.todo;
    }
  }

  /** The delivery thread turns to pending ids only, and inserts only ids that were nowhere before. */
  lemma DelTurns(s: Local)
    requires Inv(s)
    ensures s.del.DNext? && s.del.todo != [] ==> s.del.todo[0] in s.pending
    ensures s.del.DErase? ==> s.del.id in s.pending
    ensures s.del.DPend? ==> s.del.m !in s.delivered
    ensures BusyOn(s.del).Some? ==> s.del.id !in s.delivered
  {
    hide PutInv, RecvInv, CountInv, HandsInv, BoundInv, Unborn;
    if s.del.DPend? {
      Held(s.queue, s.main, s.del, s.del.m);
    }
    if s.del.DNext? && s.del.todo != [] {
      assert s.del.todo[0] in s.del.todo;
    }
  }

  /** The fields of the ack entry's id that a step of the delivery thread can touch. */
  lemma DelLeaves(s: Local, id: MsgId)
    requires s.del.DNext? && s.del.todo != [] ==> s.del.todo[0] != id
    requires s.del.DErase? || s.del.DForget? ==> s.del.id != id
    requires s.del.DPend? ==> s.del.m != id
    ensures var t := DelNext(s);
            && (id in t.acks <==> id in s.acks) && (id in s.acks ==> t.acks[id] == s.acks[id])
            && (id in t.pending <==> id in s.pending) && (id in s.delivered ==> id in t.delivered)
            && t.recv == s.recv
  {
  }

  lemma DelStays(s: Local, id: MsgId)
    requires s.del.DErase? || s.del.DInsert? ==> s.del.id != id
    requires BusyOn(s.del) != Some(id)
    ensures var t := DelNext(s);
            BusyOn(t.del) != Some(id) && !(t.del.DForget? && t.del.id == id)
  {
  }

  lemma DelLasts(s: Local, id: MsgId)
    requires Inv(s) && Lasting(s, id)
    ensures Lasting(DelNext(s), id) && DelNext(s).acks[id] == s.acks[id]
  {
    hide Inv, DelNext;
    DelTurns(s);
    DelLeaves(s, id);
    DelStays(s, id);
  }

  lemma RecvStale(s: Local, id: MsgId)
    requires AckInv(s) && OnceInv(s.del, s.delivered, s.erased, s.ups) && !Stale(s, id)
    ensures Stale(RecvNext(s), id) <==> Belated(s, RecvStep, id)
  {
  }

  lemma BelatedLasts(s: Local, id: MsgId)
    requires OnceInv(s.del, s.delivered, s.erased, s.ups) && Belated(s, RecvStep, id)
    ensures Lasting(RecvNext(s), id)
  {
  }

  lemma RecvLasts(s: Local, id: MsgId)
    requires Lasting(s, id)
    ensures Lasting(RecvNext(s), id) && RecvNext(s).acks[id] == s.acks[id]
  {
  }

  lemma OnceOf(s: Local)
    requires Inv(s)
    ensures OnceInv(s.del, s.delivered, s.erased, s.ups)
  {
  }

  /** A stale entry appears exactly when the receive thread records a belated acknowledgement. */
  lemma StaleIsExact(s: Local, u: Step, id: MsgId)
    requires Reachable(s) && Enabled(s, u) && !Stale(s, id)
    ensures Stale(Apply(s, u), id) <==> Belated(s, u, id)
  {
    hide Reachable, Inv, AckInv, OnceInv, MainNext, RecvNext, DelNext;
    ReachableAck(s);
    OnceOf(s);
    match u
    case MainStart => MainStale(s, id);
    case MainStep => MainStale(s, id);
    case RecvStart(p, x) =>
    case RecvStep => RecvStale(s, id);
    case DelStart(order) =>
    case DelStep => DelStale(s, id);
  }

  lemma LastingStep(s: Local, u: Step, id: MsgId)
    requires Inv(s) && AckInv(s) && Enabled(s, u) && Lasting(s, id)
    ensures Lasting(Apply(s, u), id) && Apply(s, u).acks[id] == s.acks[id]
  {
    hide Inv, AckInv, MainNext, RecvNext, DelNext;
    match u
    case MainStart => MainStale(s, id);
    case MainStep => MainStale(s, id);
    case RecvStart(p, x) =>
    case RecvStep => RecvLasts(s, id);
    case DelStart(order) =>
    case DelStep => DelLasts(s, id);
  }

  /** Every stale entry is a lasting one. */
  ghost predicate StaleInv(s: Local) {
    forall id :: Stale(s, id) ==> Lasting(s, id)
  }

  lemma StepStale(s: Local, u: Step)
    requires Reachable(s) && StaleInv(s) && Enabled(s, u)
    ensures StaleInv(Apply(s, u))
  {
    hide Reachable, Inv, AckInv, Stale, Lasting, Belated, Apply, Enabled;
    ReachableAck(s);
    forall id | Stale(Apply(s, u), id)
      ensures Lasting(Apply(s, u), id)
    {
      if Stale(s, id) {
        LastingStep(s, u, id);
      } else {
        StaleIsExact(s, u, id);
        assert Lasting(Apply(s, u), id) by { BelatedStep(s, u, id); }
      }
    }
  }

  lemma BelatedStep(s: Local, u: Step, id: MsgId)
    requires Inv(s) && Belated(s, u, id)
    ensures Lasting(Apply(s, u), id)
  {
    hide Inv, OnceInv, RecvNext, Lasting;
    OnceOf(s);
    BelatedLasts(s, id);
  }

  lemma {:induction false} RunStale(s: Local, steps: seq<Step>, t: Local)
    requires Reachable(s) && StaleInv(s) && Runs(s, steps, t)
    ensures StaleInv(t)
    decreases |steps|
  {
    hide Reachable, StaleInv, Apply, Enabled;
    if steps != [] {
      ReachableStep(s, steps[0]);
      StepStale(s, steps[0]);
      RunStale(Apply(s, steps[0]), steps[1..], t);
    }
  }

  lemma ReachableStale(s: Local)
    requires Reachable(s)
    ensures StaleInv(s)
  {
    hide Runs;
    var self, n, limit, steps :| limit >= 1 && Runs(Init(self, n, limit), steps, s);
    InitReachable(self, n, limit);
    hide Reachable;
    RunStale(Init(self, n, limit), steps, s);
  }

  lemma {:induction false} LastingRun(s: Local, steps: seq<Step>, t: Local, id: MsgId)
    requires Inv(s) && AckInv(s) && Lasting(s, id) && Runs(s, steps, t)
    ensures Lasting(t, id) && t.acks[id] == s.acks[id]
    decreases |steps|
  {
    hide Inv, AckInv, Apply, Enabled;
    if steps != [] {
      StepInv(s, steps[0]);
      StepAck(s, steps[0]);
      LastingStep(s, steps[0], id);
      LastingRun(Apply(s, steps[0]), steps[1..], t, id);
    }
  }

  /** A stale entry, of a delivered id, stays as it is along every run: no thread touches it again. */
  lemma StaleForEver(s: Local, steps: seq<Step>, t: Local, id: MsgId)
    requires Reachable(s) && Stale(s, id) && Runs(s, steps, t)
    ensures id in t.delivered && Stale(t, id) && t.acks[id] == s.acks[id]
  {
    hide Reachable, Inv, AckInv, Runs;
    ReachableAck(s);
    ReachableStale(s);
    LastingRun(s, steps, t, id);
  }

  /** A copy of a delivered id that the receive thread takes up from the start changes nothing. */
  lemma LateCopyIsIgnored(s: Local, p: Pid, id: MsgId)
    requires Reachable(s) && s.recv == RIdle && id in s.delivered && 1 <= p <= s.n && p != s.self
    ensures Runs(s, [RecvStart(p, id), RecvStep, RecvStep], s)
  {
    hide Reachable, Inv;
    ReachableAck(s);
    ErasedIsPassed(s, id);
    var s1 := Apply(s, RecvStart(p, id));
    var s2 := Apply(s1, RecvStep);
    assert Apply(s2, RecvStep) == s;
    var steps := [RecvStart(p, id), RecvStep, RecvStep];
    assert [RecvStep][1..] == [] && [RecvStep, RecvStep][1..] == [RecvStep] && steps[1..] == [RecvStep, RecvStep];
    assert Runs(s2, [RecvStep], s);
    assert Runs(s1, [RecvStep, RecvStep], s);
  }

  /**
   Entries for pending ids only, which holds for whole operations, fails at lock level, for three
   processes or more: the copy from process n-1 is looked up before the delivery and recorded after it.
   */
  lemma StaleIsReachable(n: nat) returns (s: Local)
    requires n >= 3
    ensures Reachable(s) && Real(s) && s.n == n && AtRest(s)
    ensures Stale(s, FOREIGN) && s.acks[FOREIGN] == {n - 1} && s.pending == {} && s.ups[FOREIGN] == 1
  {
    hide Reachable, Urb.Limit, Majority, Pids;
    UrbProofs.LimitBounds(n);
    s := LookedUp(n, Urb.Limit(n));
    assert multiset([FOREIGN]) == multiset(s.pending);
    s := Take(s, DelStart([FOREIGN]));
    assert [FOREIGN][1..] == [];
    s := EraseNext(s);
    s := Take(s, DelStep);
    s := Finish(s);
    s := Take(s, DelStep);
    assert AckSet(s.acks, FOREIGN) + {n - 1} == {n - 1};
    s := Take(s, RecvStep);
  }

  /** A majority has acknowledged a foreign message, and one more copy has been looked up. */
  lemma LookedUp(n: nat, limit: nat) returns (s: Local)
    requires n >= 3 && limit >= 1
    ensures Reachable(s) && s.self == n && s.n == n && s.limit == limit && s.main == MIdle && s.del == DIdle
    ensures s.pending == {FOREIGN} && s.delivered == {} && s.ups == multiset{}
    ensures Majority(n, s.acks, FOREIGN) && s.recv == RAck(n - 1, FOREIGN, false)
  {
    hide Reachable, Majority, Pids;
    s := Init(n, n, limit);
    InitReachable(n, n, limit);
    s := Relay(s, n - 2, FOREIGN);
    ghost var first := s.acks;
    s := AckMany(s, FOREIGN, n - 3);
    FirstCounts(n, first, s.acks);
    s := Take(s, RecvStart(n - 1, FOREIGN));
    s := Take(s, RecvStep);
    s := Take(s, RecvStep);
  }
}
