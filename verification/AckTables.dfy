/**
 What the ack table says. For a pending id, the acknowledging processes are exactly those whose copy of
 the message has arrived; for any other id there is no entry.
 */
module AckTables {
  import opened Types
  import opened Urb
  import opened UrbProofs
  import opened Links
  import opened System
  import opened RunLemmas
  import Invariants
  import opened Theorems
  import opened Handoffs

  /** Some arrival over the link brought the id. */
  ghost predicate Brought(sent: seq<Message>, arr: seq<Arrival>, id: MsgId) {
    exists i :: 0 <= i < |arr| && 1 <= arr[i].k <= |sent| && sent[arr[i].k - 1].id == id
  }

  ghost predicate BroughtOver(s: State, w: Way, id: MsgId) {
    w in s.sent && w in s.arrivals && Brought(s.sent[w], s.arrivals[w], id)
  }

  ghost predicate AcksHeard(s: State) {
    forall p, q, id :: p in s.procs && q in AckSet(s.procs[p].acks, id) ==> BroughtOver(s, Way(q, p), id)
  }

  /** Histories only grow. */
  ghost predicate HistoriesGrow(s: State, t: State) {
    && (forall w :: w in s.sent ==> w in t.sent && s.sent[w] <= t.sent[w])
    && (forall w :: w in s.arrivals ==> w in t.arrivals && s.arrivals[w] <= t.arrivals[w])
  }

  lemma BroughtStays(s: State, t: State, w: Way, id: MsgId)
    requires HistoriesGrow(s, t) && BroughtOver(s, w, id)
    ensures BroughtOver(t, w, id)
  {
    var arr, sent := s.arrivals[w], s.sent[w];
    var i :| 0 <= i < |arr| && 1 <= arr[i].k <= |sent| && sent[arr[i].k - 1].id == id;
    assert t.arrivals[w][i] == arr[i] && t.sent[w][arr[i].k - 1] == sent[arr[i].k - 1];
  }

  lemma HeardStays(s: State, t: State)
    requires AcksHeard(s) && HistoriesGrow(s, t) && t.procs.Keys == s.procs.Keys
    requires forall p, q, id :: p in t.procs && q in AckSet(t.procs[p].acks, id) ==>
               q in AckSet(s.procs[p].acks, id) || BroughtOver(t, Way(q, p), id)
    ensures AcksHeard(t)
  {
    hide AckSet, BroughtOver, HistoriesGrow;
    forall p, q, id | p in t.procs && q in AckSet(t.procs[p].acks, id)
      ensures BroughtOver(t, Way(q, p), id)
    {
      if q in AckSet(s.procs[p].acks, id) {
        BroughtStays(s, t, Way(q, p), id);
      }
    }
  }

  lemma InstallGrows(s: State, p: Pid, e: Effect)
    ensures HistoriesGrow(s, Install(s, p, e))
  {
    hide PutAll;
  }

  lemma InstallHeard(s: State, p: Pid, e: Effect)
    requires AcksHeard(s) && p in s.procs
    requires forall id :: AckSet(e.proc.acks, id) <= AckSet(s.procs[p].acks, id)
    ensures AcksHeard(Install(s, p, e))
  {
    hide AckSet, BroughtOver, HistoriesGrow, PutAll, Record;
    InstallGrows(s, p, e);
    HeardStays(s, Install(s, p, e));
  }

  lemma ArrivalBrings(sent: seq<Message>, arr: seq<Arrival>, a: Arrival)
    requires 1 <= a.k <= |sent|
    ensures Brought(sent, arr + [a], sent[a.k - 1].id)
  {
    assert (arr + [a])[|arr|] == a;
  }

  lemma ArriveGrows(s: State, w: Way, k: nat)
    requires w in s.arrivals && Back(w) in s.links && w.dst in s.clock
    ensures HistoriesGrow(s, System.Arrive(s, w, k)) && System.Arrive(s, w, k).procs == s.procs
    ensures w in s.sent && 1 <= k <= |s.sent[w]| ==> BroughtOver(System.Arrive(s, w, k), w, s.sent[w][k - 1].id)
  {
    if w in s.sent && 1 <= k <= |s.sent[w]| {
      var now, l := s.clock[w.dst], s.links[Back(w)];
      ArrivalBrings(s.sent[w], s.arrivals[w], Arrival(k, now, k !in l.seen));
    }
  }

  lemma ReceiveHeard(c: Config, s: State, w: Way, k: nat, m: Message)
    requires Inv(c, s) && AcksHeard(s) && w in s.links && Packet(w.src, w.dst, Data(k, m)) in s.net
    requires Back(w) in s.links && w in s.arrivals && w.dst in s.clock && w.dst in s.procs
    ensures AcksHeard(ReceiveData(s, w, k, m))
  {
    hide Inv, AckSet, Notify, SenderInv, ReceiverInv, BroughtOver, HistoriesGrow, System.Arrive, Install, Absorbed, Delivered;
    ChannelOf(c, s, w);
    assert 1 <= k <= |s.sent[w]| && m == s.sent[w][k - 1];
    var r := System.Arrive(s, w, k);
    ArriveGrows(s, w, k);
    HeardStays(s, r);
    if k !in s.links[Back(w)].seen {
      var e := Notify(s.procs[w.dst], w.src, m);
      OnLinkPositive(c, s, w, k);
      Invariants.NotifyAbsorbs(s.procs[w.dst], w.src, m);
      InstallGrows(r, w.dst, e);
      var t := Install(r, w.dst, e);
      BroughtStays(r, t, w, m.id);
      assert t.procs == r.procs[w.dst := e.proc] by { InstallProcs(r, w.dst, e); }
      assert w == Way(w.src, w.dst);
      HeardStays(r, t);
    }
  }

  lemma InstallProcs(s: State, p: Pid, e: Effect)
    ensures Install(s, p, e).procs == s.procs[p := e.proc]
  {
  }

  lemma OnLinkPositive(c: Config, s: State, w: Way, k: nat)
    requires Inv(c, s) && w in s.sent && w.src in s.procs && 1 <= k <= |s.sent[w]|
    ensures s.sent[w][k - 1].id.num >= 1
  {
    hide Inv;
    OnLinkOf(c, s, w, k);
  }

  lemma DeliverHeard(c: Config, s: State, p: Pid, id: MsgId)
    requires Inv(c, s) && AcksHeard(s) && p in s.procs && id in s.procs[p].pending
    ensures AcksHeard(Install(s, p, Deliver(s.procs[p], id)))
  {
    hide Inv, LocalInv, AckSet, Deliver, AcksHeard, Delivered;
    LocalOf(c, s, p);
    Invariants.LocalParts(s.procs[p]);
    Invariants.DeliverTables(s.procs[p], id);
    InstallHeard(s, p, Deliver(s.procs[p], id));
  }

  lemma SendAcksSame(p: Proc, payload: Bytes)
    ensures Send(p, payload).proc.acks == p.acks
  {
  }

  lemma SameHistories(s: State, t: State)
    requires AcksHeard(s) && t.procs == s.procs && t.sent == s.sent && t.arrivals == s.arrivals
    ensures AcksHeard(t)
  {
    hide AckSet;
  }

  lemma PacketHeard(c: Config, s: State, pkt: Packet)
    requires Inv(c, s) && AcksHeard(s) && Enabled(c, s, Receive(pkt))
    ensures AcksHeard(Apply(c, s, Receive(pkt)))
  {
    hide Inv, AcksHeard, Limit, Pids, Ways, ReceiveData;
    Invariants.ShapeOf(c, s);
    match pkt.body
    case Data(k, m) => ReceiveHeard(c, s, Way(pkt.src, pkt.dst), k, m);
    case Ack(k) => SameHistories(s, Apply(c, s, Receive(pkt)));
  }

  lemma SendHeard(s: State, p: Pid, payload: Bytes)
    requires AcksHeard(s) && p in s.procs
    ensures AcksHeard(Install(s, p, Send(s.procs[p], payload)))
  {
    hide AcksHeard, AckSet, Install, Send;
    SendAcksSame(s.procs[p], payload);
    InstallHeard(s, p, Send(s.procs[p], payload));
  }

  lemma StepHeard(c: Config, s: State, u: Step)
    requires Inv(c, s) && AcksHeard(s) && Enabled(c, s, u)
    ensures AcksHeard(Apply(c, s, u))
  {
    hide Inv, Shape, AcksHeard, Install, Send, Deliver, Clean, ReceivePacket;
    Invariants.ShapeOf(c, s);
    match u
    case Broadcast(p, payload) =>
      SendHeard(s, p, payload);
      SameHistories(Install(s, p, Send(s.procs[p], payload)), Apply(c, s, u));
    case DeliverOne(p, id) => DeliverHeard(c, s, p, id);
    case Receive(pkt) => PacketHeard(c, s, pkt);
    case _ => SameHistories(s, Apply(c, s, u));
  }

  lemma {:induction false} TraceHeard(c: Config, states: seq<State>, steps: seq<Step>, i: nat)
    requires c.n >= 1 && Trace(c, states, steps) && states[0] == Init(c) && i <= |steps|
    ensures Inv(c, states[i]) && AcksHeard(states[i])
  {
    hide Inv, Shape, Enabled, Apply, AcksHeard;
    if i == 0 {
      Invariants.InitInv(c);
      assert AcksHeard(Init(c)) by { InitHeard(c); }
    } else {
      TraceHeard(c, states, steps, i - 1);
      assert Takes(c, states[i - 1], steps[i - 1], states[i]);
      Invariants.StepInv(c, states[i - 1], steps[i - 1]);
      StepHeard(c, states[i - 1], steps[i - 1]);
    }
  }

  lemma InitHeard(c: Config)
    requires c.n >= 1
    ensures AcksHeard(Init(c))
  {
    hide Limit, Ways;
  }

  lemma ReachableHeard(c: Config, s: State)
    requires Reachable(c, s)
    ensures Inv(c, s) && AcksHeard(s)
  {
    hide Takes, Inv, AcksHeard, Init;
    var steps :| Runs(c, Init(c), steps, s);
    var states :| Trace(c, states, steps) && states[0] == Init(c) && states[|steps|] == s;
    TraceHeard(c, states, steps, |steps|);
  }

  lemma TableOf(p: Proc)
    requires LocalInv(p)
    ensures forall id :: id in p.acks ==> id in p.pending
    ensures forall id :: id in p.pending ==> !Delivered(p, id)
  {
    hide ThrottleInv, CouplingInv, LogInv;
  }

  /** After the delivery loop has visited an id, the id has an entry if and only if it is still pending. */
  lemma VisitLeavesEntry(p: Proc, id: MsgId)
    requires LocalInv(p) && id in p.pending
    ensures id in Deliver(p, id).proc.acks <==> id in Deliver(p, id).proc.pending
  {
    Invariants.LocalParts(p);
    if Deliverable(p, id) {
      DeliverShape(p, id);
      DeliverAcks(p, id);
      if p.queue != [] {
        QueueHead(p);
      }
      hide Deliver, Delivered, AckSet, ThrottleInv, TableInv;
    }
  }

  lemma BroughtIsAcked(p: Proc, sender: Pid, sent: seq<Message>, arr: seq<Arrival>, id: MsgId)
    requires HandedOver(p, sender, sent, arr) && Brought(sent, arr, id) && !Delivered(p, id)
    ensures sender in AckSet(p.acks, id)
  {
    hide AckSet, Delivered;
    var i :| 0 <= i < |arr| && 1 <= arr[i].k <= |sent| && sent[arr[i].k - 1].id == id;
    assert Absorbed(p, sender, sent[arr[i].k - 1].id);
  }

  /**
   In every reachable state the ack table has entries for pending ids only, and the processes in the
   entry of a pending id are exactly those whose copy of it has arrived.
   */
  lemma AcksAreArrivals(c: Config, s: State, p: Pid, q: Pid, id: MsgId)
    requires Reachable(c, s) && p in s.procs
    ensures id in s.procs[p].acks ==> id in s.procs[p].pending
    ensures id in s.procs[p].pending ==> (q in AckSet(s.procs[p].acks, id) <==> BroughtOver(s, Way(q, p), id))
  {
    hide Reachable, Inv, LocalInv, AckSet, Delivered, Brought, HandedOver;
    ReachableHeard(c, s);
    LocalOf(c, s, p);
    TableOf(s.procs[p]);
    var w := Way(q, p);
    if id in s.procs[p].pending && BroughtOver(s, w, id) {
      HandedOf(c, s, w);
      BroughtIsAcked(s.procs[p], q, s.sent[w], s.arrivals[w], id);
    }
  }

  lemma FirstEntry(n: nat)
    requires n >= 2
    ensures var p := Send(InitProc(1, n), []).proc;
            p.pending == {MsgId(1, 1)} && Deliver(p, MsgId(1, 1)).proc.acks == map[MsgId(1, 1) := {}]
  {
  }

  /** Entries without any acknowledgement exist: the delivery loop creates one when it counts too early. */
  lemma EmptyEntry(c: Config) returns (s: State)
    requires c.n >= 2
    ensures Reachable(c, s) && 1 in s.procs && s.procs[1].acks == map[MsgId(1, 1) := {}]
  {
    hide Reachable, Limit, Pids, Ways, Send, Deliver, PutAll, Record, InitProc;
    StartReachable(c);
    Invariants.InitShape(c);
    FirstEntry(c.n);
    s := TakeOn(c, Init(c), Broadcast(1, []));
    s := TakeOn(c, s, DeliverOne(1, MsgId(1, 1)));
  }
}
