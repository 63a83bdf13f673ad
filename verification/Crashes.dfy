/**
 Crashes: a crash is final, every minority can crash at any time, and what a crashed process leaves
 behind is really left: logs that stop short, and gaps in what the others deliver of a crashed author.
 */
module Crashes {
  import opened Types
  import opened Logs
  import opened Urb
  import opened Links
  import opened System
  import opened RunLemmas
  import Invariants
  import opened Theorems
  import opened Progress

  // ------------------------------------------------------------------------------------------
  // A crash is final

  /** Process p, its links and its histories are as before, and it has transmitted nothing since. */
  ghost predicate Frozen(s: State, t: State, p: Pid) {
    && p in s.procs && p in t.procs && t.procs[p] == s.procs[p]
    && (forall w :: w in s.links && w.src == p ==> w in t.links && t.links[w] == s.links[w])
    && (forall w :: w in s.sent && w.src == p ==> w in t.sent && t.sent[w] == s.sent[w])
    && (forall w :: w in s.arrivals && w.dst == p ==> w in t.arrivals && t.arrivals[w] == s.arrivals[w])
    && (forall pkt :: pkt in t.net && pkt.src == p ==> pkt in s.net)
  }

  lemma InstallFrozen(s: State, p: Pid, q: Pid, e: Effect)
    requires p in s.procs && p != q
    ensures Frozen(s, Install(s, q, e), p)
  {
    hide Put;
  }

  lemma ArriveFrozen(s: State, w: Way, k: nat, p: Pid)
    requires w in s.arrivals && Back(w) in s.links && w.dst in s.clock && p in s.procs && p != w.dst
    ensures Frozen(s, System.Arrive(s, w, k), p)
  {
    hide OnData;
  }

  lemma FrozenJoins(s: State, t: State, u: State, p: Pid)
    requires Frozen(s, t, p) && Frozen(t, u, p)
    ensures Frozen(s, u, p)
  {
  }

  lemma ReceiveFrozen(s: State, w: Way, body: Body, p: Pid)
    requires w in s.arrivals && Back(w) in s.links && w.dst in s.clock && w.dst in s.procs
    requires p in s.procs && p != w.dst
    ensures Frozen(s, ReceivePacket(s, w, body), p)
  {
    hide Notify, System.Arrive, Install;
    match body
    case Ack(k) =>
    case Data(k, m) =>
      hide Frozen;
      var r := System.Arrive(s, w, k);
      ArriveFrozen(s, w, k, p);
      if k !in s.links[Back(w)].seen {
        assert r.procs == s.procs by { ArriveProcs(s, w, k); }
        InstallFrozen(r, p, w.dst, Notify(s.procs[w.dst], w.src, m));
        FrozenJoins(s, r, Install(r, w.dst, Notify(s.procs[w.dst], w.src, m)), p);
      }
  }

  lemma ArriveProcs(s: State, w: Way, k: nat)
    requires w in s.arrivals && Back(w) in s.links && w.dst in s.clock
    ensures System.Arrive(s, w, k).procs == s.procs
  {
  }

  /** Transmissions, clean-up, clocks and crashes touch at most the links of a process that is up. */
  lemma QuietFrozen(c: Config, s: State, u: Step, p: Pid)
    requires Shape(c, s) && Enabled(c, s, u) && p in s.procs
    requires u.Retransmit? || u.TransmitAcks? || u.CleanUp? || u.Tick? || u.Crash?
    requires p in s.crashed || u == Crash(p)
    ensures p in Apply(c, s, u).crashed && Frozen(s, Apply(c, s, u), p)
  {
    hide Shape, Install, Send, Deliver, Clean, ReceivePacket;
  }

  lemma StepFrozen(c: Config, s: State, u: Step, p: Pid)
    requires Shape(c, s) && Enabled(c, s, u) && p in s.procs
    requires p in s.crashed || u == Crash(p)
    ensures p in Apply(c, s, u).crashed && Frozen(s, Apply(c, s, u), p)
  {
    hide Limit, Pids, Ways, Install, Send, Deliver, Clean, ReceivePacket, Frozen;
    match u
    case Broadcast(q, payload) =>
      InstallFrozen(s, p, q, Send(s.procs[q], payload));
      InstallCrashed(s, q, Send(s.procs[q], payload));
      TextsFrozen(s, Install(s, q, Send(s.procs[q], payload)), Apply(c, s, u), p);
    case DeliverOne(q, id) =>
      InstallFrozen(s, p, q, Deliver(s.procs[q], id));
      InstallCrashed(s, q, Deliver(s.procs[q], id));
    case Receive(pkt) =>
      ReceiveFrozen(s, Way(pkt.src, pkt.dst), pkt.body, p);
      ReceiveCrashed(s, Way(pkt.src, pkt.dst), pkt.body);
    case _ => QuietFrozen(c, s, u, p);
  }

  lemma TextsFrozen(s: State, t: State, u: State, p: Pid)
    requires Frozen(s, t, p) && u == t.(texts := u.texts)
    ensures Frozen(s, u, p)
  {
  }

  lemma InstallCrashed(s: State, q: Pid, e: Effect)
    ensures Install(s, q, e).crashed == s.crashed
  {
  }

  lemma ReceiveCrashed(s: State, w: Way, body: Body)
    requires w in s.arrivals && Back(w) in s.links && w.dst in s.clock && w.dst in s.procs
    ensures ReceivePacket(s, w, body).crashed == s.crashed
  {
  }

  /** Once crashed, for ever: nothing of the process and of its links changes again, along any run. */
  lemma {:induction false} StaysFrozen(c: Config, states: seq<State>, steps: seq<Step>, i: nat, j: nat, p: Pid)
    requires Trace(c, states, steps) && i <= j <= |steps|
    requires p in states[i].procs && p in states[i].crashed
    ensures p in states[j].crashed && Frozen(states[i], states[j], p)
    decreases j - i
  {
    hide Shape, Enabled, Apply, Frozen;
    if i == j {
      assert Frozen(states[i], states[i], p) by { FrozenSelf(states[i], p); }
    } else {
      StaysFrozen(c, states, steps, i, j - 1, p);
      assert Takes(c, states[j - 1], steps[j - 1], states[j]);
      assert p in states[j - 1].procs by { FrozenHas(states[i], states[j - 1], p); }
      StepFrozen(c, states[j - 1], steps[j - 1], p);
      FrozenJoins(states[i], states[j - 1], states[j], p);
    }
  }

  lemma FrozenSelf(s: State, p: Pid)
    requires p in s.procs
    ensures Frozen(s, s, p)
  {
  }

  lemma FrozenHas(s: State, t: State, p: Pid)
    requires Frozen(s, t, p)
    ensures p in t.procs && t.procs[p] == s.procs[p]
  {
  }

  /** A crash is final: from the crash step on, along every run, the process does nothing. */
  lemma CrashIsFinal(c: Config, states: seq<State>, steps: seq<Step>, i: nat, j: nat, p: Pid)
    requires Trace(c, states, steps) && i < j <= |steps| && steps[i] == Crash(p)
    ensures p in states[j].crashed && Frozen(states[i], states[j], p)
  {
    hide Shape, Apply, Frozen;
    assert Takes(c, states[i], steps[i], states[i + 1]);
    StepFrozen(c, states[i], steps[i], p);
    FrozenHas(states[i], states[i + 1], p);
    StaysFrozen(c, states, steps, i + 1, j, p);
    FrozenJoins(states[i], states[i + 1], states[j], p);
  }

  lemma RunFrozen(c: Config, s: State, steps: seq<Step>, t: State, p: Pid)
    requires Runs(c, s, steps, t) && p in s.procs && p in s.crashed
    ensures p in t.procs && t.procs[p] == s.procs[p]
  {
    hide Takes;
    var states :| Trace(c, states, steps) && states[0] == s && states[|steps|] == t;
    StaysFrozen(c, states, steps, 0, |steps|, p);
  }

  // ------------------------------------------------------------------------------------------
  // Every minority can crash, at any time

  lemma OneCrashes(c: Config, s: State, p: Pid)
    requires Shape(c, s) && p in Pids(c.n) && 2 * |s.crashed + {p}| < c.n
    ensures var t := s.(crashed := s.crashed + {p});
            Runs(c, s, [Crash(p)], t) && Shape(c, t)
  {
    hide Runs, Limit, Pids, Ways;
    RunsOne(c, s, Crash(p));
  }

  lemma {:induction false} MinorityCrashes(c: Config, s: State, f: set<Pid>) returns (steps: seq<Step>)
    requires Shape(c, s) && s.crashed <= f <= Pids(c.n) && 2 * |f| < c.n
    ensures Runs(c, s, steps, s.(crashed := f))
    decreases |f - s.crashed|
  {
    hide Runs, Shape, Pids;
    steps := [];
    if f == s.crashed {
      RunsNothing(c, s);
    } else {
      var p :| p in f && p !in s.crashed;
      SubsetCount(s.crashed + {p}, f);
      var t := s.(crashed := s.crashed + {p});
      OneCrashes(c, s, p);
      assert f - t.crashed == (f - s.crashed) - {p};
      var rest := MinorityCrashes(c, t, f);
      RunsJoin(c, s, [Crash(p)], t, rest, s.(crashed := f));
      steps := [Crash(p)] + rest;
    }
  }

  /** The sets of processes that can be found crashed are exactly the minorities of 1..n. */
  lemma CrashedExactly(c: Config, f: set<Pid>)
    requires c.n >= 1
    ensures (exists s :: Reachable(c, s) && s.crashed == f) <==> f <= Pids(c.n) && 2 * |f| < c.n
  {
    hide Reachable, Inv, Limit, Pids, Ways, Runs;
    forall s | Reachable(c, s)
      ensures s.crashed <= Pids(c.n) && 2 * |s.crashed| < c.n
    {
      Invariants.ReachableInv(c, s);
      Invariants.ShapeOf(c, s);
    }
    if f <= Pids(c.n) && 2 * |f| < c.n {
      StartReachable(c);
      Invariants.InitShape(c);
      var steps := MinorityCrashes(c, Init(c), f);
      ReachableRun(c, Init(c), steps, Init(c).(crashed := f));
    }
  }

  /** A crash at a quiescent state leaves it quiescent. */
  lemma CrashAtRest(c: Config, s: State, p: Pid) returns (t: State)
    requires Reachable(c, s) && Quiescent(s) && p in Pids(c.n) && s.crashed == {} && c.n >= 3
    ensures Reachable(c, t) && Quiescent(t) && t == s.(crashed := {p}) && p in s.procs && p in Up(c, s)
  {
    hide Reachable, Inv, Limit, Pids, Ways, Runs;
    Invariants.ReachableInv(c, s);
    Invariants.ShapeOf(c, s);
    t := s.(crashed := {p});
    var steps := MinorityCrashes(c, s, {p});
    ReachableRun(c, s, steps, t);
  }

  // ------------------------------------------------------------------------------------------
  // A log that stops short

  lemma SendStep(c: Config, s: State, a: Pid) returns (t: State)
    requires Reachable(c, s) && a in s.procs && a !in s.crashed
    ensures Runs(c, s, [Broadcast(a, [])], t) && Reachable(c, t)
    ensures t.crashed == s.crashed && t.procs.Keys == s.procs.Keys && t.procs[a].next == s.procs[a].next + 1
  {
    hide Reachable, Inv, Shape, Runs, PutAll, Record;
    Invariants.ReachableInv(c, s);
    Invariants.ShapeOf(c, s);
    t := Apply(c, s, Broadcast(a, []));
    RunsOne(c, s, Broadcast(a, []));
    ReachableStep(c, s, Broadcast(a, []));
  }

  /** A process that is up can send any number of messages, whatever its counter and its queue. */
  lemma {:induction false} SendMany(c: Config, s: State, a: Pid, k: nat) returns (steps: seq<Step>, t: State)
    requires Reachable(c, s) && a in s.procs && a !in s.crashed
    ensures Runs(c, s, steps, t) && Reachable(c, t)
    ensures t.crashed == s.crashed && t.procs.Keys == s.procs.Keys && t.procs[a].next == s.procs[a].next + k
  {
    hide Reachable, Runs;
    if k == 0 {
      steps, t := [], s;
      RunsNothing(c, s);
    } else {
      var first, m := SendMany(c, s, a, k - 1);
      t := SendStep(c, m, a);
      RunsJoin(c, s, first, m, [Broadcast(a, [])], t);
      steps := first + [Broadcast(a, [])];
    }
  }

  /** Send k messages and come to rest: all processes that are up have the same d-lines, all of them. */
  lemma SendAndRest(c: Config, s: State, a: Pid, k: nat) returns (steps: seq<Step>, t: State)
    requires Reachable(c, s) && a in s.procs && a !in s.crashed
    ensures Runs(c, s, steps, t) && Reachable(c, t) && Quiescent(t) && t.crashed == s.crashed
    ensures a in t.procs && t.procs[a].next == s.procs[a].next + k >= 1
    ensures forall q :: q in Up(c, t) ==> q in t.procs && DNums(t.procs[q].log, a) == UpTo(t.procs[a].next - 1)
  {
    hide Reachable, Runs, Quiescent, Inv, Limit, Pids, Ways;
    var first, m := SendMany(c, s, a, k);
    var rest;
    rest, t := DeliveryIsReachable(c, m);
    RunsJoin(c, s, first, m, rest, t);
    steps := first + rest;
    Invariants.ReachableInv(c, t);
    Invariants.ShapeOf(c, t);
    assert a in Up(c, t);
    Validity(c, t, a);
    forall q | q in Up(c, t)
      ensures q in t.procs && DNums(t.procs[q].log, a) == UpTo(t.procs[a].next - 1)
    {
      FifoAgreement(c, t, a, q, a);
    }
  }

  lemma LoggedIsDelivered(c: Config, s: State, p: Pid, a: Pid, k: nat)
    requires Reachable(c, s) && p in s.procs && DNums(s.procs[p].log, a) == UpTo(k)
    ensures forall x: nat :: 1 <= x <= k ==> Delivered(s.procs[p], MsgId(a, x))
  {
    hide Reachable;
    Coupling(c, s, p, a);
    var w := At(s.procs[p].fifo, a);
    assert |UpTo(k)| == |UpTo(w.bottom - 1)|;
    forall x: nat | 1 <= x <= k
      ensures Delivered(s.procs[p], MsgId(a, x))
    {
      WindowMember(s.procs[p], a, x);
    }
  }

  /**
   The crashed processes of the agreement theorems exist, with every log length: for all k and m there
   is a quiescent state in which a crashed process has delivered exactly 1..k of an author and the
   others exactly 1..k+m.
   */
  lemma CrashedPrefix(c: Config, p: Pid, a: Pid, k: nat, m: nat) returns (s: State)
    requires c.n >= 3 && p in Pids(c.n) && a in Pids(c.n) && p != a
    ensures Reachable(c, s) && Quiescent(s) && s.crashed == {p}
    ensures p in s.procs && DNums(s.procs[p].log, a) == UpTo(k)
    ensures forall x: nat :: 1 <= x <= k ==> Delivered(s.procs[p], MsgId(a, x))
    ensures forall q :: q in Up(c, s) ==> q in s.procs && DNums(s.procs[q].log, a) == UpTo(k + m)
  {
    hide Reachable, Runs, Quiescent, Limit, Delivered;
    Invariants.InitShape(c);
    StartReachable(c);
    var _, s1 := SendAndRest(c, Init(c), a, k);
    assert s1.procs[a].next == k + 1;
    var s2 := CrashAtRest(c, s1, p);
    var steps;
    steps, s := SendAndRest(c, s2, a, m);
    RunFrozen(c, s2, steps, s, p);
    LoggedIsDelivered(c, s, p, a, k);
  }
}
