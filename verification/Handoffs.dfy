/**
 When a link hands a number up. The remembered numbers of a receiver are determined by the run: a
 number is handed to the manager exactly when every earlier arrival of it has been followed by a
 clean-up nine seconds later or more. Links really do hand numbers up again.
 */
module Handoffs {
  import opened Types
  import opened Urb
  import opened Links
  import opened System
  import opened RunLemmas
  import Invariants

  /** The step brings data packet number k over way w. */
  predicate Brings(u: Step, w: Way, k: nat) {
    u.Receive? && u.pkt.src == w.src && u.pkt.dst == w.dst && u.pkt.body.Data? && u.pkt.body.k == k
  }

  function ClockOf(s: State, p: Pid): int {
    if p in s.clock then s.clock[p] else 0
  }

  function SeenOf(s: State, w: Way): map<nat, int> {
    if w in s.links then s.links[w].seen else map[]
  }

  /** The receiver's link is cleaned up after step l and before step j, nine seconds after l or later. */
  ghost predicate CleanedSince(states: seq<State>, steps: seq<Step>, w: Way, l: nat, j: nat)
    requires l < j <= |steps| < |states|
  {
    exists i :: l < i < j && steps[i] == CleanUp(Back(w)) && ClockOf(states[i], w.dst) - ClockOf(states[l], w.dst) >= 9
  }

  /** Every arrival of the number before step j has been cleaned away, which never happens in strong mode. */
  ghost predicate Forgotten(c: Config, states: seq<State>, steps: seq<Step>, w: Way, k: nat, j: nat)
    requires j <= |steps| < |states|
  {
    forall l: nat :: l < j && Brings(steps[l], w, k) ==> !c.strong && CleanedSince(states, steps, w, l, j)
  }

  /** Number k is remembered since its last arrival, at step l, and has not been cleaned away. */
  ghost predicate RememberedSince(c: Config, states: seq<State>, steps: seq<Step>, w: Way, k: nat, j: nat, l: nat)
    requires j <= |steps| < |states|
  {
    && l < j && Brings(steps[l], w, k)
    && (k in SeenOf(states[j], Back(w)) ==> SeenOf(states[j], Back(w))[k] == ClockOf(states[l], w.dst))
    && (c.strong || !CleanedSince(states, steps, w, l, j))
    && (forall i: nat :: i < j && Brings(steps[i], w, k) ==> ClockOf(states[i], w.dst) <= ClockOf(states[l], w.dst))
  }

  ghost predicate MemoryInv(c: Config, states: seq<State>, steps: seq<Step>, w: Way, k: nat, j: nat)
    requires j <= |steps| < |states|
  {
    if k in SeenOf(states[j], Back(w)) then exists l: nat :: RememberedSince(c, states, steps, w, k, j, l)
    else Forgotten(c, states, steps, w, k, j)
  }

  // ------------------------------------------------------------------------------------------
  // One step

  lemma InstallSeen(s: State, p: Pid, e: Effect, v: Way)
    ensures SeenOf(Install(s, p, e), v) == SeenOf(s, v)
  {
  }

  /** What one step does to the remembered numbers of the link at w.dst. */
  function SeenAfter(c: Config, s: State, u: Step, w: Way): map<nat, int> {
    var seen, now := SeenOf(s, Back(w)), ClockOf(s, w.dst);
    if u.Receive? && u.pkt.src == w.src && u.pkt.dst == w.dst && u.pkt.body.Data? then seen[u.pkt.body.k := now]
    else if u == CleanUp(Back(w)) && !c.strong then map k | k in seen && now - seen[k] < 9 :: seen[k]
    else seen
  }

  lemma ReceiveSeen(s: State, v: Way, body: Body, w: Way)
    requires v in s.arrivals && Back(v) in s.links && v.dst in s.clock && v.dst in s.procs
    ensures SeenOf(ReceivePacket(s, v, body), Back(w)) ==
            if v == w && body.Data? then SeenOf(s, Back(w))[body.k := ClockOf(s, w.dst)] else SeenOf(s, Back(w))
  {
    hide Notify, Install;
    assert Back(v) == Back(w) <==> v == w;
    match body
    case Ack(k) =>
    case Data(k, m) =>
      InstallSeen(System.Arrive(s, v, k), v.dst, Notify(s.procs[v.dst], v.src, m), Back(w));
  }

  lemma CleanSeen(l: Link, now: int, strong: bool)
    ensures Clean(l, now, strong).seen ==
            if strong then l.seen else map k | k in l.seen && now - l.seen[k] < 9 :: l.seen[k]
  {
  }

  lemma StepSeen(c: Config, s: State, u: Step, w: Way)
    requires Shape(c, s) && Enabled(c, s, u) && w in s.links
    ensures SeenOf(Apply(c, s, u), Back(w)) == SeenAfter(c, s, u, w)
  {
    hide Limit, Pids, Ways, Install, Send, Deliver, Clean, ReceivePacket;
    match u
    case Broadcast(p, payload) => InstallSeen(s, p, Send(s.procs[p], payload), Back(w));
    case DeliverOne(p, id) => InstallSeen(s, p, Deliver(s.procs[p], id), Back(w));
    case Receive(pkt) => ReceiveSeen(s, Way(pkt.src, pkt.dst), pkt.body, w);
    case CleanUp(v) => CleanSeen(s.links[v], s.clock[v.src], c.strong);
    case _ =>
  }

  // ------------------------------------------------------------------------------------------
  // Along a run

  lemma CleanedLater(states: seq<State>, steps: seq<Step>, w: Way, l: nat, j: nat)
    requires l < j < |steps| < |states|
    ensures CleanedSince(states, steps, w, l, j + 1) <==>
              CleanedSince(states, steps, w, l, j) ||
              (steps[j] == CleanUp(Back(w)) && ClockOf(states[j], w.dst) - ClockOf(states[l], w.dst) >= 9)
  {
  }

  lemma MemoryArrival(c: Config, states: seq<State>, steps: seq<Step>, w: Way, k: nat, j: nat)
    requires j < |steps| < |states| && Brings(steps[j], w, k)
    requires SeenOf(states[j + 1], Back(w)) == SeenAfter(c, states[j], steps[j], w)
    requires forall i: nat :: i < j ==> ClockOf(states[i], w.dst) <= ClockOf(states[j], w.dst)
    ensures MemoryInv(c, states, steps, w, k, j + 1)
  {
    assert RememberedSince(c, states, steps, w, k, j + 1, j);
  }

  lemma MemoryOther(c: Config, states: seq<State>, steps: seq<Step>, w: Way, k: nat, j: nat)
    requires j < |steps| < |states| && !Brings(steps[j], w, k) && MemoryInv(c, states, steps, w, k, j)
    requires SeenOf(states[j + 1], Back(w)) == SeenAfter(c, states[j], steps[j], w)
    ensures MemoryInv(c, states, steps, w, k, j + 1)
  {
    hide CleanedSince, Back;
    forall l: nat | l < j
      ensures CleanedSince(states, steps, w, l, j + 1) <==>
                CleanedSince(states, steps, w, l, j) ||
                (steps[j] == CleanUp(Back(w)) && ClockOf(states[j], w.dst) - ClockOf(states[l], w.dst) >= 9)
    {
      CleanedLater(states, steps, w, l, j);
    }
    if k in SeenOf(states[j], Back(w)) {
      var l: nat :| RememberedSince(c, states, steps, w, k, j, l);
      if k in SeenOf(states[j + 1], Back(w)) {
        assert RememberedSince(c, states, steps, w, k, j + 1, l);
      }
    }
  }

  lemma {:induction false} ClockGrows(c: Config, states: seq<State>, steps: seq<Step>, p: Pid, i: nat, j: nat)
    requires Trace(c, states, steps) && i <= j <= |steps| && p in Pids(c.n)
    ensures ClockOf(states[i], p) <= ClockOf(states[j], p)
    decreases j - i
  {
    hide Shape, Enabled, Apply;
    if i < j {
      ClockGrows(c, states, steps, p, i, j - 1);
      assert Takes(c, states[j - 1], steps[j - 1], states[j]);
      StepClock(c, states[j - 1], steps[j - 1], p);
    }
  }

  lemma StepClock(c: Config, s: State, u: Step, p: Pid)
    requires Shape(c, s) && Enabled(c, s, u) && p in Pids(c.n)
    ensures ClockOf(s, p) <= ClockOf(Apply(c, s, u), p)
  {
    hide Limit, Pids, Ways, PutAll, Record, Send, Deliver, Clean, Notify, OnData;
  }

  lemma {:induction false} MemoryAlong(c: Config, states: seq<State>, steps: seq<Step>, w: Way, k: nat, j: nat)
    requires c.n >= 1 && Trace(c, states, steps) && states[0] == Init(c) && w in Ways(c.n) && j <= |steps|
    ensures MemoryInv(c, states, steps, w, k, j)
  {
    hide Shape, Enabled, Apply, MemoryInv;
    if j == 0 {
      MemoryStart(c, states, steps, w, k);
    } else {
      MemoryAlong(c, states, steps, w, k, j - 1);
      assert Takes(c, states[j - 1], steps[j - 1], states[j]);
      HasWay(c, states[j - 1], w);
      StepSeen(c, states[j - 1], steps[j - 1], w);
      if Brings(steps[j - 1], w, k) {
        forall i: nat | i < j - 1
          ensures ClockOf(states[i], w.dst) <= ClockOf(states[j - 1], w.dst)
        {
          ClockGrows(c, states, steps, w.dst, i, j - 1);
        }
        MemoryArrival(c, states, steps, w, k, j - 1);
      } else {
        MemoryOther(c, states, steps, w, k, j - 1);
      }
    }
  }

  lemma HasWay(c: Config, s: State, w: Way)
    requires Shape(c, s) && w in Ways(c.n)
    ensures w in s.links && Back(w) in s.links && w in s.arrivals && w.dst in s.clock && w.dst in s.procs
  {
    hide Limit;
  }

  lemma MemoryStart(c: Config, states: seq<State>, steps: seq<Step>, w: Way, k: nat)
    requires c.n >= 1 && |states| == |steps| + 1 && states[0] == Init(c)
    ensures MemoryInv(c, states, steps, w, k, 0)
  {
    hide InitProc;
  }

  /** A number is remembered unless every arrival of it has been cleaned away nine seconds later. */
  lemma RememberedExactly(c: Config, states: seq<State>, steps: seq<Step>, w: Way, k: nat, j: nat)
    requires c.n >= 1 && Trace(c, states, steps) && states[0] == Init(c) && w in Ways(c.n) && j <= |steps|
    ensures k in SeenOf(states[j], Back(w)) <==> !Forgotten(c, states, steps, w, k, j)
  {
    hide Trace, CleanedSince, Brings, SeenOf;
    MemoryAlong(c, states, steps, w, k, j);
  }

  /**
   Along every run: an arrival is handed to the manager if and only if every earlier arrival of the
   number, if any, was followed by a clean-up of the link nine seconds later or more (and the mode is
   not strong). Otherwise no process changes.
   */
  lemma HandedUpExactly(c: Config, states: seq<State>, steps: seq<Step>, w: Way, k: nat, j: nat)
    requires c.n >= 1 && Trace(c, states, steps) && states[0] == Init(c) && w in Ways(c.n)
    requires j < |steps| && Brings(steps[j], w, k)
    ensures w.dst in states[j].procs && w in states[j].arrivals && w in states[j + 1].arrivals
    ensures var handed := Forgotten(c, states, steps, w, k, j);
            && states[j + 1].arrivals[w] == states[j].arrivals[w] + [Arrival(k, ClockOf(states[j], w.dst), handed)]
            && states[j + 1].procs ==
               if handed then states[j].procs[w.dst := Notify(states[j].procs[w.dst], w.src, steps[j].pkt.body.m).proc]
               else states[j].procs
  {
    hide Notify, PutAll, Record, Forgotten, OnData, Limit, Pids, Ways;
    assert Takes(c, states[j], steps[j], states[j + 1]);
    HasWay(c, states[j], w);
    RememberedExactly(c, states, steps, w, k, j);
    assert Way(steps[j].pkt.src, steps[j].pkt.dst) == w;
  }

  // ------------------------------------------------------------------------------------------
  // A number is handed up twice

  lemma TakeOn(c: Config, s: State, u: Step) returns (t: State)
    requires Reachable(c, s) && Shape(c, s) && Enabled(c, s, u)
    ensures Reachable(c, t) && Shape(c, t) && t == Apply(c, s, u)
  {
    hide Reachable, Shape, Enabled, Apply, Inv;
    ReachableStep(c, s, u);
    t := Apply(c, s, u);
    Invariants.ReachableInv(c, t);
    Invariants.ShapeOf(c, t);
  }

  const FIRST := Message(MsgId(1, 1), [])

  /** The first send of process 1 puts its message on the link to process 2. */
  lemma FirstSent(c: Config)
    requires c.n >= 2 && Shape(c, Init(c))
    ensures Enabled(c, Init(c), Broadcast(1, []))
    ensures var t := Apply(c, Init(c), Broadcast(1, []));
            && t.crashed == {} && t.clock == Init(c).clock && t.arrivals == Init(c).arrivals
            && Way(1, 2) in t.links && t.links[Way(1, 2)].toSend == map[1 := FIRST]
            && SeenOf(t, Way(2, 1)) == map[]
  {
    hide Limit, Pids, Ways;
    LimitPositive(c.n);
    assert Way(1, 2) in Ways(c.n) && Way(2, 1) in Ways(c.n) && 1 in Pids(c.n);
    assert Send(InitProc(1, c.n), []).out == Some(FIRST);
  }

  lemma FirstTransmitted(c: Config, s: State)
    requires Shape(c, s) && s.crashed == {} && Way(1, 2) in s.links && s.links[Way(1, 2)].toSend == map[1 := FIRST]
    ensures Enabled(c, s, Retransmit(Way(1, 2)))
    ensures var t := Apply(c, s, Retransmit(Way(1, 2)));
            t == s.(net := t.net) && Packet(1, 2, Data(1, FIRST)) in t.net
  {
    hide Shape;
    assert 1 in s.links[Way(1, 2)].toSend;
  }

  /** The first message of process 1 is on the network, on its way to process 2. */
  lemma FirstOnNet(c: Config) returns (s: State)
    requires c.n >= 2
    ensures Reachable(c, s) && Shape(c, s) && s.crashed == {} && Packet(1, 2, Data(1, FIRST)) in s.net
    ensures Way(1, 2) in s.arrivals && s.arrivals[Way(1, 2)] == [] && SeenOf(s, Way(2, 1)) == map[]
    ensures ClockOf(s, 2) == 0
  {
    hide Reachable, Limit, Pids, Ways, Runs, Apply, Enabled, Shape;
    StartReachable(c);
    Invariants.InitShape(c);
    FirstSent(c);
    s := TakeOn(c, Init(c), Broadcast(1, []));
    FirstTransmitted(c, s);
    s := TakeOn(c, s, Retransmit(Way(1, 2)));
    HasWay(c, s, Way(1, 2)) by { assert Way(1, 2) in Ways(c.n); }
  }

  lemma LimitPositive(n: nat)
    requires n >= 1
    ensures Limit(n) >= 1
  {
  }

  /** The data packet arrives at process 2 with nothing remembered. */
  lemma ArrivesUnseen(c: Config, s: State) returns (t: State)
    requires Reachable(c, s) && Shape(c, s) && c.n >= 2 && s.crashed == {} && Packet(1, 2, Data(1, FIRST)) in s.net
    requires Way(1, 2) in s.arrivals && 1 !in SeenOf(s, Way(2, 1))
    ensures Reachable(c, t) && Shape(c, t) && t.crashed == {} && t.net == s.net && t.clock == s.clock
    ensures Way(1, 2) in t.arrivals
    ensures t.arrivals[Way(1, 2)] == s.arrivals[Way(1, 2)] + [Arrival(1, ClockOf(s, 2), true)]
    ensures SeenOf(t, Way(2, 1)) == SeenOf(s, Way(2, 1))[1 := ClockOf(s, 2)]
  {
    hide Reachable, Limit, Pids, Ways, Notify, PutAll, Record, ReceivePacket;
    HasWay(c, s, Way(1, 2));
    t := TakeOn(c, s, Receive(Packet(1, 2, Data(1, FIRST))));
    ReceiveSeen(s, Way(1, 2), Data(1, FIRST), Way(1, 2));
    UnseenFields(s, Way(1, 2), 1, FIRST);
  }

  lemma UnseenFields(s: State, w: Way, k: nat, m: Message)
    requires w in s.arrivals && Back(w) in s.links && w.dst in s.clock && w.dst in s.procs && k !in s.links[Back(w)].seen
    ensures var t := ReceivePacket(s, w, Data(k, m));
            && t.crashed == s.crashed && t.net == s.net && t.clock == s.clock
            && t.arrivals == s.arrivals[w := s.arrivals[w] + [Arrival(k, s.clock[w.dst], true)]]
  {
    hide Notify, PutAll, Record;
  }

  lemma TickFields(c: Config, s: State, p: Pid, now: int)
    requires Shape(c, s) && p in s.procs && now >= ClockOf(s, p)
    ensures Enabled(c, s, Tick(p, now))
    ensures var t := Apply(c, s, Tick(p, now));
            t == s.(clock := t.clock) && ClockOf(t, p) == now
  {
    hide Limit, Pids, Ways;
  }

  lemma CleanFields(c: Config, s: State, w: Way)
    requires Shape(c, s) && w in s.links && w.src !in s.crashed
    ensures Enabled(c, s, CleanUp(w))
    ensures var t := Apply(c, s, CleanUp(w));
            t == s.(links := t.links)
  {
    hide Limit, Pids, Ways, Clean;
  }

  /** Nine seconds pass at process 2, and its link to process 1 is cleaned up. */
  lemma NineSecondsLater(c: Config, s: State) returns (t: State)
    requires Reachable(c, s) && Shape(c, s) && c.n >= 2 && s.crashed == {} && !c.strong
    requires SeenOf(s, Way(2, 1)) == map[1 := 0] && ClockOf(s, 2) == 0
    ensures Reachable(c, t) && Shape(c, t) && t.crashed == {} && t.net == s.net && t.arrivals == s.arrivals
    ensures SeenOf(t, Way(2, 1)) == map[] && ClockOf(t, 2) == 9
  {
    hide Reachable, Shape, Enabled, Apply, Pids, Ways;
    var w := Way(1, 2);
    assert w in Ways(c.n);
    HasWay(c, s, w);
    TickFields(c, s, 2, 9);
    var m := TakeOn(c, s, Tick(2, 9));
    HasWay(c, m, w);
    CleanFields(c, m, Back(w));
    StepSeen(c, m, CleanUp(Back(w)), w);
    t := TakeOn(c, m, CleanUp(Back(w)));
  }

  /** Links do hand the same number up again: in weak mode, once nine seconds have passed. */
  lemma HandedUpTwice(n: nat) returns (s: State)
    requires n >= 2
    ensures var c := Config(n, false);
            && Reachable(c, s) && Way(1, 2) in s.arrivals
            && s.arrivals[Way(1, 2)] == [Arrival(1, 0, true), Arrival(1, 9, true)]
  {
    var c := Config(n, false);
    hide Reachable, Shape;
    s := FirstOnNet(c);
    s := ArrivesUnseen(c, s);
    s := NineSecondsLater(c, s);
    s := ArrivesUnseen(c, s);
  }
}
