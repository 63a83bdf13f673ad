/**
 What a crashed author leaves behind. The live processes agree on which of its messages they deliver,
 and any selection of those it had in flight can be what is left: the gaps that make the FIFO layer
 hold messages back for ever are real, and the throttle bounds them.
 */
module Gaps {
  import opened Types
  import opened Windows
  import opened Logs
  import opened Urb
  import opened UrbProofs
  import opened Links
  import opened System
  import opened RunLemmas
  import Invariants
  import opened Theorems
  import opened Progress
  import opened Crashes

  // ------------------------------------------------------------------------------------------
  // What becomes known

  /** A received message, and nothing else, becomes known to the receiver, and to nobody else. */
  lemma ReceiveKnown(c: Config, s: State, w: Way, k: nat, m: Message)
    requires Inv(c, s) && w in s.links && Packet(w.src, w.dst, Data(k, m)) in s.net
    ensures Back(w) in s.links && w in s.arrivals && w.dst in s.clock && w.dst in s.procs && w.src in s.procs
    ensures var t := ReceiveData(s, w, k, m);
            && t.crashed == s.crashed && t.net == s.net && t.procs.Keys == s.procs.Keys
            && (forall q :: q in s.procs && q != w.dst ==> t.procs[q] == s.procs[q])
            && (forall id :: Known(t.procs[w.dst], id) <==> Known(s.procs[w.dst], id) || id == m.id)
            && t.procs[w.dst].next == s.procs[w.dst].next
            && Known(s.procs[w.src], m.id)
  {
    hide Inv, Known, Delivered, AllIds, Notify, SenderInv, ReceiverInv, ReceiveData, Absorbed, LocalInv, HandedOver, Genuine, Cast;
    ChannelOf(c, s, w);
    assert 1 <= k <= |s.sent[w]| && m == s.sent[w][k - 1];
    var e := if k in s.links[Back(w)].seen then Effect(s.procs[w.dst], None) else Notify(s.procs[w.dst], w.src, m);
    SentEmits(c, s, w, k, e);
    ReceiveDataAcks(s, w, k, m);
    ReceiveDataFields(s, w, k, m, e);
    SentOf(c, s, w);
    assert Carries(s.sent[w], m.id);
    LocalOf(c, s, w.src);
    Invariants.KnownPositive(s.procs[w.src], m.id);
    Invariants.NotifyAbsorbs(s.procs[w.dst], w.src, m);
    if k in s.links[Back(w)].seen {
      HandedOf(c, s, w);
      Invariants.SeenIsAbsorbed(w.src, w.dst, s.links[w], s.links[Back(w)], s.sent[w], s.arrivals[w], s.net,
                                s.clock[w.dst], c.strong, k, s.procs[w.dst]);
    }
    AbsorbedIsKnown(e.proc, w.src, m.id);
  }

  lemma AbsorbedIsKnown(p: Proc, sender: Pid, id: MsgId)
    ensures Absorbed(p, sender, id) ==> Known(p, id)
  {
  }

  /** No process that is up knows the id. */
  ghost predicate NoneKnows(s: State, id: MsgId) {
    forall q :: q in s.procs && q !in s.crashed ==> !Known(s.procs[q], id)
  }

  lemma EffectUnknown(s: State, p: Pid, e: Effect, id: MsgId)
    requires p in s.procs && NoneKnows(s, id) && Emits(s.procs[p], e)
    requires e.out.Some? ==> e.out.value.id != id
    ensures NoneKnows(Install(s, p, e), id)
  {
    hide Known, Delivered;
  }

  lemma SentByAuthor(p: Proc, payload: Bytes)
    ensures Send(p, payload).out.Some? ==> Send(p, payload).out.value.id.author == p.self
  {
  }

  lemma BroadcastUnknown(c: Config, s: State, p: Pid, payload: Bytes, id: MsgId)
    requires Inv(c, s) && p in s.procs && NoneKnows(s, id) && id.author != p
    ensures NoneKnows(Install(s, p, Send(s.procs[p], payload)), id)
  {
    hide Inv, Send, LocalInv, Emits, Limit, NoneKnows;
    Invariants.ShapeOf(c, s);
    LocalOf(c, s, p);
    SendLocal(s.procs[p], payload);
    SentByAuthor(s.procs[p], payload);
    EffectUnknown(s, p, Send(s.procs[p], payload), id);
  }

  lemma DeliverUnknown(c: Config, s: State, p: Pid, x: MsgId, id: MsgId)
    requires Inv(c, s) && p in s.procs && x in s.procs[p].pending && NoneKnows(s, id) && id.author != p
    ensures NoneKnows(Install(s, p, Deliver(s.procs[p], x)), id)
  {
    hide Inv, Deliver, LocalInv, Emits, Limit, NoneKnows, AckSet, Delivered;
    Invariants.ShapeOf(c, s);
    LocalOf(c, s, p);
    DeliverLocal(s.procs[p], x);
    Invariants.LocalParts(s.procs[p]);
    Invariants.DeliverTables(s.procs[p], x);
    EffectUnknown(s, p, Deliver(s.procs[p], x), id);
  }

  lemma ReceiveUnknown(c: Config, s: State, pkt: Packet, id: MsgId)
    requires Inv(c, s) && Enabled(c, s, Receive(pkt)) && NoneKnows(s, id) && pkt.src !in s.crashed
    ensures NoneKnows(Apply(c, s, Receive(pkt)), id)
  {
    hide Inv, Known, Limit, Pids, Ways, ReceiveData;
    Invariants.ShapeOf(c, s);
    var w := Way(pkt.src, pkt.dst);
    match pkt.body
    case Ack(k) =>
    case Data(k, m) => ReceiveKnown(c, s, w, k, m);
  }

  /** An id of a crashed author that no live process knows comes only from the packets of the crashed. */
  lemma StepUnknown(c: Config, s: State, u: Step, id: MsgId)
    requires Inv(c, s) && Enabled(c, s, u) && NoneKnows(s, id) && id.author in s.crashed
    requires u.Receive? ==> u.pkt.src !in s.crashed
    ensures NoneKnows(Apply(c, s, u), id)
  {
    hide Inv, Shape, Known, Install, Send, Deliver, Clean, ReceivePacket;
    Invariants.ShapeOf(c, s);
    match u
    case Broadcast(p, payload) => BroadcastUnknown(c, s, p, payload, id);
    case DeliverOne(p, x) => DeliverUnknown(c, s, p, x, id);
    case Receive(pkt) => ReceiveUnknown(c, s, pkt, id);
    case _ =>
  }

  lemma {:induction false} TraceUnknown(c: Config, states: seq<State>, steps: seq<Step>, i: nat, id: MsgId)
    requires Trace(c, states, steps) && Inv(c, states[0]) && i <= |steps|
    requires NoneKnows(states[0], id) && id.author in states[0].crashed && id.author in states[0].procs
    requires Inside(states[0].crashed, steps)
    ensures Inv(c, states[i]) && NoneKnows(states[i], id) && states[i].crashed == states[0].crashed
  {
    hide Inv, Shape, Enabled, Apply, NoneKnows;
    if i > 0 {
      TraceUnknown(c, states, steps, i - 1, id);
      var s, u := states[i - 1], steps[i - 1];
      assert Takes(c, s, u, states[i]);
      assert u in steps;
      Invariants.StepInv(c, s, u);
      StepUnknown(c, s, u, id);
      SameCrashed(c, s, u);
    }
  }

  lemma SameCrashed(c: Config, s: State, u: Step)
    requires Shape(c, s) && Enabled(c, s, u) && !u.Crash?
    ensures Apply(c, s, u).crashed == s.crashed
  {
    hide Shape, PutAll, Record, Send, Deliver, Clean;
  }

  lemma RunUnknown(c: Config, s: State, steps: seq<Step>, t: State, id: MsgId)
    requires Runs(c, s, steps, t) && Inv(c, s) && Inside(s.crashed, steps)
    requires NoneKnows(s, id) && id.author in s.crashed && id.author in s.procs
    ensures NoneKnows(t, id)
  {
    hide Inv, Takes, NoneKnows, Inside;
    var states :| Trace(c, states, steps) && states[0] == s && states[|steps|] == t;
    TraceUnknown(c, states, steps, |steps|, id);
  }

  // ------------------------------------------------------------------------------------------
  // The author sends and crashes

  /** The link holds exactly messages 1..j of process a, under their own numbers. */
  ghost predicate LinkOpens(l: Link, a: Pid, j: nat) {
    && l.next == j + 1
    && (forall k :: k in l.toSend <==> 1 <= k <= j)
    && (forall k :: 1 <= k <= j ==> l.toSend[k] == Message(MsgId(a, k), []))
  }

  ghost predicate ProcOpens(p: Proc, a: Pid, j: nat) {
    p.self == a && p.next == j + 1 && p.inflight == j
  }

  /** Process a has sent j messages, all on the network, and nothing else has happened. */
  ghost predicate Opening(c: Config, s: State, a: Pid, j: nat) {
    && c.n >= 1 && a in s.procs && s.crashed == {} && ProcOpens(s.procs[a], a, j)
    && (forall q :: q in s.procs && q != a ==> s.procs[q] == InitProc(q, c.n))
    && (forall w :: w in s.links && w.src == a ==> LinkOpens(s.links[w], a, j))
  }

  lemma PutOpens(l: Link, a: Pid, j: nat)
    requires LinkOpens(l, a, j)
    ensures LinkOpens(Put(l, Message(MsgId(a, j + 1), [])), a, j + 1)
  {
  }

  lemma SendOpens(p: Proc, a: Pid, j: nat)
    requires ProcOpens(p, a, j) && j < p.limit <= 32768
    ensures var e := Send(p, []);
            ProcOpens(e.proc, a, j + 1) && e.out == Some(Message(MsgId(a, j + 1), []))
  {
  }

  lemma OpeningStep(c: Config, s: State, a: Pid, j: nat)
    requires Shape(c, s) && Opening(c, s, a, j) && j < Limit(c.n)
    ensures Opening(c, Apply(c, s, Broadcast(a, [])), a, j + 1)
  {
    hide Limit, Pids, Ways, InitProc, Send, Put, LinkOpens, ProcOpens;
    LimitBounds(c.n);
    SendOpens(s.procs[a], a, j);
    var t := Apply(c, s, Broadcast(a, []));
    forall w | w in t.links && w.src == a
      ensures LinkOpens(t.links[w], a, j + 1)
    {
      PutOpens(s.links[w], a, j);
    }
  }

  lemma OpeningStart(c: Config, a: Pid)
    requires a in Pids(c.n) && c.n >= 1
    ensures Opening(c, Init(c), a, 0)
  {
    hide Limit, Pids, Ways;
  }

  lemma {:induction false} OpeningRun(c: Config, a: Pid, j: nat) returns (s: State)
    requires a in Pids(c.n) && c.n >= 1 && j <= Limit(c.n)
    ensures Reachable(c, s) && Shape(c, s) && Opening(c, s, a, j)
  {
    hide Reachable, Limit, Pids, Ways, Apply, Inv, Shape;
    if j == 0 {
      s := Init(c);
      Invariants.InitShape(c);
      StartReachable(c);
      OpeningStart(c, a);
    } else {
      var r := OpeningRun(c, a, j - 1);
      OpeningStep(c, r, a, j - 1);
      ReachableStep(c, r, Broadcast(a, []));
      s := Apply(c, r, Broadcast(a, []));
      Invariants.ReachableInv(c, s);
      Invariants.ShapeOf(c, s);
    }
  }

  /** The author is down, its packets to b are on the network, and only b knows anything: those in done. */
  ghost predicate Orphans(c: Config, s: State, a: Pid, b: Pid, j: nat, done: set<nat>) {
    && s.procs.Keys == Pids(c.n) && a in s.procs && b in s.procs && a != b && s.crashed == {a}
    && Way(a, b) in s.links && s.procs[a].next == j + 1
    && (forall k :: 1 <= k <= j ==> Packet(a, b, Data(k, Message(MsgId(a, k), []))) in s.net)
    && (forall q, id :: q in s.procs && q != a ==>
          (Known(s.procs[q], id) <==> q == b && id.author == a && id.num in done))
  }

  lemma Orphaned(c: Config, a: Pid, b: Pid, j: nat) returns (s: State)
    requires c.n >= 3 && a in Pids(c.n) && b in Pids(c.n) && a != b && j <= Limit(c.n)
    ensures Reachable(c, s) && Orphans(c, s, a, b, j, {})
  {
    hide Reachable, Limit, Pids, Ways, Runs;
    var r := OpeningRun(c, a, j);
    var w := Way(a, b);
    assert w in r.links;
    ReachableStep(c, r, Retransmit(w));
    var m := r.(net := r.net + DataPackets(w, r.links[w]));
    var steps := MinorityCrashes(c, m, {a});
    s := m.(crashed := {a});
    ReachableRun(c, m, steps, s);
    forall k | 1 <= k <= j
      ensures Packet(a, b, Data(k, Message(MsgId(a, k), []))) in s.net
    {
      DataOnWire(w, r.links[w], k);
    }
    forall q, id | q in s.procs && q != a
      ensures !Known(s.procs[q], id)
    {
      Invariants.InitKnown(q, c.n, id);
    }
  }

  lemma OrphanArrives(c: Config, s: State, a: Pid, b: Pid, j: nat, done: set<nat>, k: nat) returns (t: State)
    requires Reachable(c, s) && Orphans(c, s, a, b, j, done) && 1 <= k <= j
    ensures Reachable(c, t) && Orphans(c, t, a, b, j, done + {k})
  {
    hide Reachable, Inv, Shape, Pids, Known, ReceiveData;
    Invariants.ReachableInv(c, s);
    Invariants.ShapeOf(c, s);
    var w, m := Way(a, b), Message(MsgId(a, k), []);
    ReceiveKnown(c, s, w, k, m);
    ReachableStep(c, s, Receive(Packet(a, b, Data(k, m))));
    t := ReceiveData(s, w, k, m);
    assert t.links.Keys == s.links.Keys by { ReceiveDataAcks(s, w, k, m); }
  }

  lemma {:induction false} OrphansArrive(c: Config, a: Pid, b: Pid, j: nat, done: set<nat>) returns (s: State)
    requires c.n >= 3 && a in Pids(c.n) && b in Pids(c.n) && a != b && j <= Limit(c.n)
    requires forall k :: k in done ==> 1 <= k <= j
    ensures Reachable(c, s) && Orphans(c, s, a, b, j, done)
    decreases |done|
  {
    hide Reachable, Limit, Pids, Orphans;
    if done == {} {
      s := Orphaned(c, a, b, j);
    } else {
      var k :| k in done;
      var r := OrphansArrive(c, a, b, j, done - {k});
      s := OrphanArrives(c, r, a, b, j, done - {k}, k);
      assert done - {k} + {k} == done;
    }
  }

  // ------------------------------------------------------------------------------------------
  // Any selection can be what is left

  /** The d-lines of an author are the longest gap-free prefix of what has been delivered of it. */
  ghost predicate LogsPrefix(p: Proc, a: Pid, some: set<nat>) {
    var d := DNums(p.log, a);
    && d == UpTo(|d|) && |d| + 1 !in some
    && (forall x :: 1 <= x <= |d| ==> x in some)
  }

  lemma PrefixOf(p: Proc, a: Pid, some: set<nat>)
    requires LocalInv(p) && forall x: nat :: Delivered(p, MsgId(a, x)) <==> x in some
    ensures LogsPrefix(p, a, some)
  {
    hide LocalInv, Delivered;
    DLogIsWindow(p, a);
    var w := At(p.delivered, a);
    forall x: nat | x >= 1
      ensures Contains(w, x) <==> x in some
    {
      WindowMember(p, a, x);
    }
  }

  lemma LeftAtRest(c: Config, s: State, t: State, steps: seq<Step>, a: Pid, b: Pid, j: nat, some: set<nat>, q: Pid)
    requires Reachable(c, s) && Orphans(c, s, a, b, j, some) && forall k :: k in some ==> k >= 1
    requires Runs(c, s, steps, t) && Inside(s.crashed, steps) && Inv(c, t) && Quiescent(t) && t.crashed == s.crashed
    requires t.procs.Keys == s.procs.Keys && q in Up(c, t)
    ensures q in t.procs && forall x: nat :: Delivered(t.procs[q], MsgId(a, x)) <==> x in some
  {
    hide Reachable, Inv, Runs, Inside, Quiescent, Limit, Pids, Ways;
    Invariants.ReachableInv(c, s);
    forall x: nat
      ensures Delivered(t.procs[q], MsgId(a, x)) <==> x in some
    {
      if x in some {
        KnownStays(c, s, steps, t, b, MsgId(a, x));
        AllUpDeliver(c, t, b, q, MsgId(a, x));
      } else {
        RunUnknown(c, s, steps, t, MsgId(a, x));
      }
    }
  }

  lemma EffectKnown(s: State, p: Pid, e: Effect, q: Pid, id: MsgId)
    requires p in s.procs && q in s.procs && Known(s.procs[q], id) && Emits(s.procs[p], e)
    ensures q in Install(s, p, e).procs && Known(Install(s, p, e).procs[q], id)
  {
    hide Known, Delivered;
  }

  lemma ReceiveKeepsKnown(c: Config, s: State, pkt: Packet, p: Pid, id: MsgId)
    requires Inv(c, s) && Enabled(c, s, Receive(pkt)) && p in s.procs && Known(s.procs[p], id)
    ensures var t := Apply(c, s, Receive(pkt)); p in t.procs && Known(t.procs[p], id)
  {
    hide Inv, Known, Limit, Pids, Ways, ReceiveData;
    Invariants.ShapeOf(c, s);
    match pkt.body
    case Ack(k) =>
    case Data(k, m) => ReceiveKnown(c, s, Way(pkt.src, pkt.dst), k, m);
  }

  lemma StepKnown(c: Config, s: State, u: Step, p: Pid, id: MsgId)
    requires Inv(c, s) && Enabled(c, s, u) && p in s.procs && Known(s.procs[p], id)
    ensures p in Apply(c, s, u).procs && Known(Apply(c, s, u).procs[p], id)
  {
    hide Inv, Shape, Known, Emits, Install, Send, Deliver, Clean, ReceivePacket, LocalInv;
    Invariants.ShapeOf(c, s);
    match u
    case Broadcast(q, payload) =>
      LocalOf(c, s, q);
      SendLocal(s.procs[q], payload);
      EffectKnown(s, q, Send(s.procs[q], payload), p, id);
    case DeliverOne(q, x) =>
      LocalOf(c, s, q);
      DeliverLocal(s.procs[q], x);
      EffectKnown(s, q, Deliver(s.procs[q], x), p, id);
    case Receive(pkt) => ReceiveKeepsKnown(c, s, pkt, p, id);
    case _ =>
  }

  lemma {:induction false} TraceKnown(c: Config, states: seq<State>, steps: seq<Step>, i: nat, p: Pid, id: MsgId)
    requires Trace(c, states, steps) && Inv(c, states[0]) && i <= |steps|
    requires p in states[0].procs && Known(states[0].procs[p], id)
    ensures Inv(c, states[i]) && p in states[i].procs && Known(states[i].procs[p], id)
  {
    hide Inv, Shape, Enabled, Apply, Known;
    if i > 0 {
      TraceKnown(c, states, steps, i - 1, p, id);
      assert Takes(c, states[i - 1], steps[i - 1], states[i]);
      Invariants.StepInv(c, states[i - 1], steps[i - 1]);
      StepKnown(c, states[i - 1], steps[i - 1], p, id);
    }
  }

  lemma KnownStays(c: Config, s: State, steps: seq<Step>, t: State, p: Pid, id: MsgId)
    requires Runs(c, s, steps, t) && Inv(c, s) && p in s.procs && Known(s.procs[p], id)
    ensures p in t.procs && Known(t.procs[p], id)
  {
    hide Inv, Takes, Known;
    var states :| Trace(c, states, steps) && states[0] == s && states[|steps|] == t;
    TraceKnown(c, states, steps, |steps|, p, id);
  }

  /**
   An author crashes with j messages in flight, within its limit. For every selection of them there is
   a quiescent state in which the live processes have delivered exactly the selection, so that their
   d-lines stop at its first gap: a packet of a crashed process may still arrive, out of order, or not.
   */
  lemma GapsAreReachable(c: Config, a: Pid, b: Pid, j: nat, some: set<nat>) returns (s: State)
    requires c.n >= 3 && a in Pids(c.n) && b in Pids(c.n) && a != b && j <= Limit(c.n)
    requires forall k :: k in some ==> 1 <= k <= j
    ensures Reachable(c, s) && Quiescent(s) && s.crashed == {a} && a in s.procs && s.procs[a].next == j + 1
    ensures forall q :: q in Up(c, s) ==> q in s.procs && LogsPrefix(s.procs[q], a, some)
    ensures forall q, x: nat :: q in Up(c, s) ==> (Delivered(s.procs[q], MsgId(a, x)) <==> x in some)
  {
    hide Reachable, Inv, Runs, Inside, Quiescent, Limit, Pids, Ways, LogsPrefix, Delivered;
    var r := OrphansArrive(c, a, b, j, some);
    Invariants.ReachableInv(c, r);
    var steps;
    steps, s := RunToQuiescence(c, r);
    ReachableRun(c, r, steps, s);
    forall q | q in Up(c, s)
      ensures q in s.procs && LogsPrefix(s.procs[q], a, some)
      ensures forall x: nat :: Delivered(s.procs[q], MsgId(a, x)) <==> x in some
    {
      LeftAtRest(c, r, s, steps, a, b, j, some, q);
      LocalFacts(c, s, q);
      PrefixOf(s.procs[q], a, some);
    }
  }

  /** The throttle bounds the gaps: at quiescence at most `limit` cast messages of an author are missing. */
  lemma GapsAreFew(c: Config, s: State, a: Pid, q: Pid)
    requires Reachable(c, s) && Quiescent(s) && a in s.procs && q in Up(c, s)
    ensures q in s.procs
    ensures |set x | 1 <= x <= OnNet(s.procs[a]) && !Delivered(s.procs[q], MsgId(a, x))| <= Limit(c.n)
  {
    hide Reachable, Inv, Quiescent, Limit, Delivered, Carries;
    Invariants.ReachableInv(c, s);
    Invariants.ShapeOf(c, s);
    ThrottleConservation(c, s, a);
    var missing := set x | 1 <= x <= OnNet(s.procs[a]) && !Delivered(s.procs[q], MsgId(a, x));
    var inflight := set x | 1 <= x <= OnNet(s.procs[a]) && !Delivered(s.procs[a], MsgId(a, x)) :: x;
    forall x | x in missing
      ensures x in inflight
    {
      if Delivered(s.procs[a], MsgId(a, x)) {
        UniformAgreement(c, s, a, q, MsgId(a, x));
      }
    }
    SubsetCount(missing, inflight);
  }
}
