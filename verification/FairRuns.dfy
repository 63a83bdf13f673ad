/**
 The fairness assumptions exclude no finite behaviour: every reachable state, whatever was sent, lost
 or crashed on the way, lies on a fair run. The run is continued to quiescence, everything that is
 still transmitted is put on the network once, and from there on the threads take turns for ever.
 */
module FairRuns {
  import opened Types
  import opened Urb
  import opened Links
  import opened System
  import opened RunLemmas
  import Invariants
  import opened Theorems
  import opened Progress
  import opened Liveness

  // ------------------------------------------------------------------------------------------
  // Everything on the network

  lemma VisitRun(c: Config, s: State, w: Way) returns (t: State)
    requires Inv(c, s) && w in s.links && w.src !in s.crashed
    ensures Runs(c, s, [Retransmit(w)] + [TransmitAcks(w)], t) && Inv(c, t)
    ensures t == s.(net := s.net + DataPackets(w, s.links[w]) + AckPackets(w, s.links[w]))
  {
    hide Inv, Shape, DataPackets, AckPackets, Runs;
    Invariants.ShapeOf(c, s);
    var m := s.(net := s.net + DataPackets(w, s.links[w]));
    RunsOne(c, s, Retransmit(w));
    Invariants.StepInv(c, s, Retransmit(w));
    Invariants.ShapeOf(c, m);
    RunsOne(c, m, TransmitAcks(w));
    Invariants.StepInv(c, m, TransmitAcks(w));
    t := m.(net := m.net + AckPackets(w, s.links[w]));
    RunsJoin(c, s, [Retransmit(w)], m, [TransmitAcks(w)], t);
  }

  /** Each of the given links is visited once. */
  lemma {:induction false} VisitAll(c: Config, s: State, ws: set<Way>) returns (steps: seq<Step>, t: State)
    requires Inv(c, s) && forall w :: w in ws ==> w in s.links && w.src !in s.crashed
    ensures Runs(c, s, steps, t) && Inv(c, t) && t == s.(net := t.net) && s.net <= t.net
    ensures forall w :: w in ws ==> DataPackets(w, s.links[w]) <= t.net && AckPackets(w, s.links[w]) <= t.net
  {
    hide Inv, DataPackets, AckPackets, Runs;
    if ws == {} {
      steps, t := [], s;
      RunsNothing(c, s);
    } else {
      var w :| w in ws;
      var first, m := VisitAll(c, s, ws - {w});
      t := VisitRun(c, m, w);
      RunsJoin(c, s, first, m, [Retransmit(w)] + [TransmitAcks(w)], t);
      steps := first + ([Retransmit(w)] + [TransmitAcks(w)]);
    }
  }

  // ------------------------------------------------------------------------------------------
  // A state to stay in

  /** The links of the processes that are up. */
  ghost function UpWays(s: State): set<Way> {
    set w | w in s.links && w.src !in s.crashed
  }

  /** Quiescent, nothing pending, and everything that is transmitted is on the network already. */
  ghost predicate Restful(c: Config, s: State) {
    && Shape(c, s) && LinksIdle(s)
    && (forall w :: w in UpWays(s) ==> DataPackets(w, s.links[w]) <= s.net && AckPackets(w, s.links[w]) <= s.net)
    && (forall p :: p in s.procs && p !in s.crashed ==> s.procs[p].pending == {})
  }

  lemma NothingPending(c: Config, s: State, p: Pid)
    requires Inv(c, s) && Quiescent(s) && p in s.procs && p !in s.crashed
    ensures s.procs[p].pending == {}
  {
    hide Inv, Quiescent, LocalInv, Limit, Ways, Pids;
    Invariants.ShapeOf(c, s);
    forall id | id in s.procs[p].pending
      ensures false
    {
      AllUpDeliver(c, s, p, p, id);
      LocalOf(c, s, p);
      PendingUndelivered(s.procs[p], id);
    }
  }

  lemma PendingUndelivered(p: Proc, id: MsgId)
    requires LocalInv(p) && id in p.pending
    ensures !Delivered(p, id)
  {
    hide ThrottleInv, CouplingInv, LogInv;
  }

  /** From every reachable state a state to stay in can be reached. */
  lemma ReachRest(c: Config, s: State) returns (steps: seq<Step>, t: State)
    requires Inv(c, s)
    ensures Runs(c, s, steps, t) && Restful(c, t)
  {
    hide Inv, Runs, Continues, DataPackets, AckPackets, Limit, Ways, Pids;
    var first, m := RunToQuiescence(c, s);
    var second;
    second, t := VisitAll(c, m, UpWays(m));
    RunsJoin(c, s, first, m, second, t);
    steps := first + second;
    Invariants.ShapeOf(c, t);
    assert LinksIdle(m);
    forall p | p in t.procs && p !in t.crashed
      ensures t.procs[p].pending == {}
    {
      NothingPending(c, m, p);
    }
  }

  // ------------------------------------------------------------------------------------------
  // Taking turns

  /** The acknowledgements on the network between processes that are up. */
  ghost function UpAcks(s: State): set<Packet> {
    set pkt | pkt in s.net && pkt.body.Ack? && Way(pkt.src, pkt.dst) in s.links &&
              pkt.src !in s.crashed && pkt.dst !in s.crashed
  }

  ghost function Turns(s: State): set<Step>
    requires 1 in s.clock
  {
    (set w | w in UpWays(s) :: Retransmit(w)) + (set w | w in UpWays(s) :: TransmitAcks(w))
    + (set pkt | pkt in UpAcks(s) :: Receive(pkt)) + {Tick(1, s.clock[1])}
  }

  lemma VisitStays(c: Config, s: State, w: Way)
    requires Restful(c, s) && w in UpWays(s)
    ensures Takes(c, s, Retransmit(w), s) && Takes(c, s, TransmitAcks(w), s)
  {
    hide Shape, DataPackets, AckPackets, LinksIdle;
    assert s.net + DataPackets(w, s.links[w]) == s.net;
    assert s.net + AckPackets(w, s.links[w]) == s.net;
  }

  lemma AckStaysPut(c: Config, s: State, pkt: Packet)
    requires Restful(c, s) && pkt in UpAcks(s)
    ensures Takes(c, s, Receive(pkt), s)
  {
    hide DataPackets, AckPackets, Limit, Pids, Ways;
    var v := Way(pkt.dst, pkt.src);
    assert v in s.links && s.links[v].toSend == map[];
    assert OnAck(s.links[v], pkt.body.k) == s.links[v];
    assert s.links[v := s.links[v]] == s.links;
  }

  lemma TickStays(c: Config, s: State)
    requires Shape(c, s) && 1 in s.procs && 1 in s.clock
    ensures Takes(c, s, Tick(1, s.clock[1]), s)
  {
    hide Shape;
    assert s.clock[1 := s.clock[1]] == s.clock;
  }

  lemma FirstExists(c: Config, s: State)
    requires Shape(c, s)
    ensures 1 in s.procs && 1 in s.clock
  {
    hide Limit, Ways;
  }

  lemma TurnsStay(c: Config, s: State, u: Step)
    requires Restful(c, s) && 1 in s.procs && 1 in s.clock && u in Turns(s)
    ensures Takes(c, s, u, s)
  {
    hide Restful, Takes, UpWays, UpAcks;
    if w :| w in UpWays(s) && (u == Retransmit(w) || u == TransmitAcks(w)) {
      VisitStays(c, s, w);
    } else if pkt :| pkt in UpAcks(s) && u == Receive(pkt) {
      AckStaysPut(c, s, pkt);
    } else {
      RestShape(c, s);
      TickStays(c, s);
    }
  }

  lemma RestShape(c: Config, s: State)
    requires Restful(c, s)
    ensures Shape(c, s)
  {
  }

  lemma {:induction false} SomeSequence(us: set<Step>) returns (steps: seq<Step>)
    ensures forall u :: u in steps <==> u in us
  {
    steps := [];
    if us != {} {
      var u :| u in us;
      var rest := SomeSequence(us - {u});
      steps := [u] + rest;
    }
  }

  /** A cursor that goes round n places. */
  function Cursor(n: nat, i: nat): nat
    requires n >= 1
    ensures Cursor(n, i) < n
  {
    if i == 0 then 0 else if Cursor(n, i - 1) + 1 == n then 0 else Cursor(n, i - 1) + 1
  }

  lemma {:induction false} ComesRound(n: nat, i: nat, x: nat) returns (j: nat)
    requires x < n
    ensures j >= i && Cursor(n, j) == x
    decreases if Cursor(n, i) <= x then x - Cursor(n, i) else n - Cursor(n, i) + x
  {
    if Cursor(n, i) == x {
      j := i;
    } else {
      j := ComesRound(n, i + 1, x);
    }
  }

  // ------------------------------------------------------------------------------------------
  // The run

  /** The run follows the trace and then goes round the turns without leaving the state. */
  ghost predicate Follows(r: Run, states: seq<State>, steps: seq<Step>, s: State, turns: seq<Step>) {
    && turns != [] && |states| == |steps| + 1 && states[|steps|] == s
    && (forall i: nat :: i < |steps| ==> r.state(i) == states[i] && r.act(i) == steps[i])
    && (forall i: nat :: i >= |steps| ==> r.state(i) == s && r.act(i) == turns[Cursor(|turns|, i - |steps|)])
  }

  lemma FollowsIsRun(c: Config, r: Run, states: seq<State>, steps: seq<Step>, s: State, turns: seq<Step>)
    requires Follows(r, states, steps, s, turns) && Trace(c, states, steps) && Reachable(c, states[0])
    requires forall u :: u in turns ==> Takes(c, s, u, s)
    ensures IsRun(c, r)
  {
    hide Reachable, Takes, Follows;
    forall i: nat
      ensures Takes(c, r.state(i), r.act(i), r.state(i + 1))
    {
      if i < |steps| {
        OnTrace(r, states, steps, s, turns, i);
        OnTrace(r, states, steps, s, turns, i + 1);
        assert Takes(c, states[i], steps[i], states[i + 1]);
      } else {
        FollowsTurns(r, states, steps, s, turns, i);
        FollowsTurns(r, states, steps, s, turns, i + 1);
      }
    }
    OnTrace(r, states, steps, s, turns, 0);
  }

  lemma FollowsTakes(r: Run, states: seq<State>, steps: seq<Step>, s: State, turns: seq<Step>, u: Step, i: nat)
    requires Follows(r, states, steps, s, turns) && u in turns
    ensures TakenFrom(r, u, i)
  {
    var x :| 0 <= x < |turns| && turns[x] == u;
    var j := ComesRound(|turns|, if i < |steps| then 0 else i - |steps|, x);
    assert r.act(j + |steps|) == u;
  }

  /** After the trace only turns are taken, in the final state. */
  lemma FollowsTurns(r: Run, states: seq<State>, steps: seq<Step>, s: State, turns: seq<Step>, i: nat)
    requires Follows(r, states, steps, s, turns) && i >= |steps|
    ensures r.state(i) == s && r.act(i) in turns
  {
  }

  lemma LivesIsUp(r: Run, states: seq<State>, steps: seq<Step>, s: State, turns: seq<Step>, p: Pid)
    requires Follows(r, states, steps, s, turns) && Lives(r, p)
    ensures p !in s.crashed
  {
    hide Cursor;
    assert r.state(|steps|) == s;
  }

  lemma FollowsFairLoss(c: Config, r: Run, states: seq<State>, steps: seq<Step>, s: State, turns: seq<Step>)
    requires Follows(r, states, steps, s, turns) && Restful(c, s) && 1 in s.clock
    requires forall u :: u in turns <==> u in Turns(s)
    ensures FairLoss(r)
  {
    hide Follows, Lives, Restful, Sends, Cursor, Turns, TakenFrom, Shape;
    forall pkt, i: nat | SentOften(r, pkt) && Lives(r, pkt.dst)
      ensures TakenFrom(r, Receive(pkt), i)
    {
      assert SentFrom(r, pkt, |steps|);
      var j: nat :| j >= |steps| && Sends(r.state(j), r.act(j), pkt);
      FollowsTurns(r, states, steps, s, turns, j);
      LivesIsUp(r, states, steps, s, turns, pkt.dst);
      SentIsAck(c, s, r.act(j), pkt);
      FollowsTakes(r, states, steps, s, turns, Receive(pkt), i);
    }
  }

  /** In a state of rest, what is transmitted to a process that is up is an acknowledgement. */
  lemma SentIsAck(c: Config, s: State, u: Step, pkt: Packet)
    requires Restful(c, s) && 1 in s.clock && u in Turns(s) && Sends(s, u, pkt) && pkt.dst !in s.crashed
    ensures Receive(pkt) in Turns(s)
  {
    hide Shape;
    var w := Way(pkt.src, pkt.dst);
    assert w in UpWays(s);
    assert s.links[w].toSend == map[];
    assert pkt in AckPackets(w, s.links[w]);
    assert pkt in UpAcks(s);
  }

  lemma FollowsFairLinks(c: Config, r: Run, states: seq<State>, steps: seq<Step>, s: State, turns: seq<Step>)
    requires Follows(r, states, steps, s, turns) && Shape(c, s) && 1 in s.clock
    requires forall u :: u in turns <==> u in Turns(s)
    ensures FairLinks(c, r)
  {
    hide Follows, Lives, Cursor, TakenFrom, Limit, Pids, Ways;
    forall w, i: nat | w in Ways(c.n) && Lives(r, w.src)
      ensures TakenFrom(r, Retransmit(w), i) && TakenFrom(r, TransmitAcks(w), i)
    {
      LivesIsUp(r, states, steps, s, turns, w.src);
      assert w in UpWays(s);
      assert Retransmit(w) in Turns(s) && TransmitAcks(w) in Turns(s);
      FollowsTakes(r, states, steps, s, turns, Retransmit(w), i);
      FollowsTakes(r, states, steps, s, turns, TransmitAcks(w), i);
    }
  }

  lemma FollowsFairDelivery(c: Config, r: Run, states: seq<State>, steps: seq<Step>, s: State, turns: seq<Step>)
    requires Follows(r, states, steps, s, turns) && Restful(c, s)
    ensures FairDelivery(c, r)
  {
    hide Follows, Lives, Cursor, Limit, Pids, Ways, LinksIdle;
    forall p, id, i: nat | p in Pids(c.n) && Lives(r, p)
      ensures VisitedFrom(r, p, id, i)
    {
      var j := if i < |steps| then |steps| else i;
      LivesIsUp(r, states, steps, s, turns, p);
      FollowsTurns(r, states, steps, s, turns, j);
      assert r.act(j) == r.act(j);
    }
  }

  lemma FollowsFairCleanUp(c: Config, r: Run, states: seq<State>, steps: seq<Step>, s: State, turns: seq<Step>)
    requires Follows(r, states, steps, s, turns) && 1 in s.clock && forall u :: u in turns <==> u in Turns(s)
    ensures FairCleanUp(r)
  {
    hide Follows, Lives, Cursor, UpWays;
    forall pkt: Packet | pkt.body.Data?
      ensures !ArrivesOften(r, pkt)
    {
      if TakenFrom(r, Receive(pkt), |steps|) {
        var l: nat :| l >= |steps| && r.act(l) == Receive(pkt);
        FollowsTurns(r, states, steps, s, turns, l);
        assert false;
      }
    }
  }

  lemma Build(states: seq<State>, steps: seq<Step>, s: State, turns: seq<Step>) returns (r: Run)
    requires turns != [] && |states| == |steps| + 1 && states[|steps|] == s
    ensures Follows(r, states, steps, s, turns)
  {
    hide Cursor;
    r := Run((i: nat) => if i < |steps| then states[i] else s,
             (i: nat) => if i < |steps| then steps[i] else turns[Cursor(|turns|, i - |steps|)]);
  }

  lemma FollowsIsFair(c: Config, r: Run, states: seq<State>, steps: seq<Step>, s: State, turns: seq<Step>)
    requires Follows(r, states, steps, s, turns) && Restful(c, s) && 1 in s.clock
    requires forall u :: u in turns <==> u in Turns(s)
    ensures Fair(c, r) && Silent(r, |steps|)
  {
    hide Follows, Restful, FairLoss, FairLinks, FairDelivery, FairCleanUp, UpWays, UpAcks;
    RestShape(c, s);
    FollowsFairLoss(c, r, states, steps, s, turns);
    FollowsFairLinks(c, r, states, steps, s, turns);
    FollowsFairDelivery(c, r, states, steps, s, turns);
    FollowsFairCleanUp(c, r, states, steps, s, turns);
    forall i: nat | i >= |steps|
      ensures !r.act(i).Broadcast?
    {
      FollowsTurns(r, states, steps, s, turns, i);
    }
  }

  /** Every reachable state lies on a fair run from the initial state, with finitely many sends. */
  lemma FairRunThrough(c: Config, s: State) returns (r: Run, i: nat, m: nat)
    requires Reachable(c, s)
    ensures IsRun(c, r) && Fair(c, r) && Silent(r, m)
    ensures r.state(0) == Init(c) && r.state(i) == s
  {
    hide Takes, Init, Inv, Restful, Turns, Fair, IsRun, Silent;
    var first :| Runs(c, Init(c), first, s);
    Invariants.ReachableInv(c, s);
    var second, t := ReachRest(c, s);
    var before :| Trace(c, before, first) && before[0] == Init(c) && before[|first|] == s;
    var after :| Trace(c, after, second) && after[0] == s && after[|second|] == t;
    TracesJoin(c, before, first, after, second);
    var states, steps := before + after[1..], first + second;
    assert states[|steps|] == t;
    RestShape(c, t);
    FirstExists(c, t);
    var turns := SomeSequence(Turns(t));
    TurnsExist(t, turns);
    r := Build(states, steps, t, turns);
    forall u | u in turns
      ensures Takes(c, t, u, t)
    {
      TurnsStay(c, t, u);
    }
    StartReachable(c);
    FollowsIsRun(c, r, states, steps, t, turns);
    FollowsIsFair(c, r, states, steps, t, turns);
    i, m := |first|, |steps|;
    OnTrace(r, states, steps, t, turns, 0);
    OnTrace(r, states, steps, t, turns, i);
  }

  lemma TurnsExist(s: State, turns: seq<Step>)
    requires 1 in s.clock && forall u :: u in turns <==> u in Turns(s)
    ensures turns != []
  {
    assert Tick(1, s.clock[1]) in Turns(s);
    assert Tick(1, s.clock[1]) in turns;
  }

  lemma OnTrace(r: Run, states: seq<State>, steps: seq<Step>, s: State, turns: seq<Step>, i: nat)
    requires Follows(r, states, steps, s, turns) && i <= |steps|
    ensures r.state(i) == states[i] && (i < |steps| ==> r.act(i) == steps[i])
  {
    hide Cursor;
  }
}
