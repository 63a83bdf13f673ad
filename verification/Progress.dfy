/**
 Quiescence is always within reach: from every reachable state the processes that are up can,
 without any further crash or application send, run to a quiescent state. Hence the guarantees
 stated at quiescence describe states that every run can be driven to.
 */
module Progress {
  import opened Types
  import opened Urb
  import opened UrbProofs
  import opened Links
  import opened System
  import opened RunLemmas
  import Invariants
  import opened Theorems

  /** Everything any application has sent, queued or not. */
  ghost function AllIds(procs: map<Pid, Proc>): set<MsgId> {
    set a, k | a in procs && 1 <= k < procs[a].next :: MsgId(a, k)
  }

  ghost function Undelivered(procs: map<Pid, Proc>): set<(Pid, MsgId)> {
    set p, id | p in procs && id in AllIds(procs) && !Delivered(procs[p], id) :: (p, id)
  }

  ghost function Unknown(procs: map<Pid, Proc>): set<(Pid, MsgId)> {
    set p, id | p in procs && id in AllIds(procs) && !Known(procs[p], id) :: (p, id)
  }

  ghost function Unacked(s: State): set<(Way, nat)> {
    set w, k | w in s.links && w.src !in s.crashed && w.dst !in s.crashed && k in s.links[w].toSend :: (w, k)
  }

  /** What a run without sends and crashes leaves alone. */
  ghost predicate Continues(s: State, t: State) {
    && t.crashed == s.crashed && t.texts == s.texts && t.procs.Keys == s.procs.Keys
    && (forall p :: p in s.procs ==> t.procs[p].next == s.procs[p].next)
  }

  /** No sends, no crashes, and nothing is received from a crashed process. */
  ghost predicate Inside(crashed: set<Pid>, steps: seq<Step>) {
    forall u :: u in steps ==> !u.Broadcast? && !u.Crash? && (u.Receive? ==> u.pkt.src !in crashed)
  }

  lemma ProperCount<T>(a: set<T>, b: set<T>, x: T)
    requires a <= b && x in b && x !in a
    ensures |a| < |b|
  {
    SubsetCount(a, b - {x});
  }

  /** One process moves on: ids only leave the sets of what is still to be done. */
  lemma MeasureShrinks(procs: map<Pid, Proc>, p: Pid, e: Effect)
    requires p in procs && Emits(procs[p], e) && e.proc.next == procs[p].next
    ensures AllIds(procs[p := e.proc]) == AllIds(procs)
    ensures Undelivered(procs[p := e.proc]) <= Undelivered(procs)
    ensures Unknown(procs[p := e.proc]) <= Unknown(procs)
    ensures |Undelivered(procs[p := e.proc])| <= |Undelivered(procs)|
    ensures |Unknown(procs[p := e.proc])| <= |Unknown(procs)|
  {
    hide Known, Delivered;
    var after := procs[p := e.proc];
    assert AllIds(after) == AllIds(procs);
    assert Undelivered(after) <= Undelivered(procs);
    assert Unknown(after) <= Unknown(procs);
    SubsetCount(Undelivered(after), Undelivered(procs));
    SubsetCount(Unknown(after), Unknown(procs));
  }

  lemma CastIsSent(c: Config, s: State, id: MsgId)
    requires Inv(c, s) && Cast(s.procs, id)
    ensures id in AllIds(s.procs)
  {
    hide Inv;
    var a := s.procs[id.author];
    assert OnNet(a) <= a.next - 1;
    assert id == MsgId(id.author, id.num);
  }

  // ------------------------------------------------------------------------------------------
  // A delivery

  lemma DeliverMeasure(c: Config, s: State, p: Pid, id: MsgId)
    requires Inv(c, s) && p in s.procs && id in s.procs[p].pending && Deliverable(s.procs[p], id)
    ensures var e := Deliver(s.procs[p], id);
            && e.proc.next == s.procs[p].next
            && |Undelivered(s.procs[p := e.proc])| < |Undelivered(s.procs)|
  {
    hide Inv, Deliver, LocalInv, AllIds, Undelivered, Unknown, Cast;
    var e := Deliver(s.procs[p], id);
    LocalOf(c, s, p);
    DeliverLocal(s.procs[p], id);
    DeliverShape(s.procs[p], id);
    MeasureShrinks(s.procs, p, e);
    CreationOf(c, s, p, id);
    CastIsSent(c, s, id);
    PendingPositive(s.procs[p], id);
    NewlyDelivered(s.procs, p, e.proc, id);
  }

  lemma NewlyDelivered(procs: map<Pid, Proc>, p: Pid, proc: Proc, id: MsgId)
    requires p in procs && id in AllIds(procs) && AllIds(procs[p := proc]) == AllIds(procs)
    requires Undelivered(procs[p := proc]) <= Undelivered(procs)
    requires !Delivered(procs[p], id) && Delivered(proc, id)
    ensures |Undelivered(procs[p := proc])| < |Undelivered(procs)|
  {
    hide Delivered, AllIds;
    ProperCount(Undelivered(procs[p := proc]), Undelivered(procs), (p, id));
  }

  lemma DeliverStep(c: Config, s: State, p: Pid, id: MsgId) returns (t: State)
    requires Inv(c, s) && p in s.procs && p !in s.crashed
    requires id in s.procs[p].pending && Deliverable(s.procs[p], id)
    ensures Runs(c, s, [DeliverOne(p, id)], t) && Inv(c, t) && Continues(s, t)
    ensures |Undelivered(t.procs)| < |Undelivered(s.procs)|
  {
    hide Inv, Deliver, Undelivered, PutAll, Record, Runs, Limit;
    Invariants.ShapeOf(c, s);
    t := Apply(c, s, DeliverOne(p, id));
    Invariants.StepInv(c, s, DeliverOne(p, id));
    RunsOne(c, s, DeliverOne(p, id));
    DeliverMeasure(c, s, p, id);
  }

  // ------------------------------------------------------------------------------------------
  // One exchange over a link: data over, acknowledgement back

  /** `SendAcks`: transmit the acknowledgements of the link at w.src, then clean up. */
  ghost function SendAcks(c: Config, s: State, w: Way): State
    requires w in s.links && w.src in s.clock
  {
    s.(net := s.net + AckPackets(w, s.links[w]),
       links := s.links[w := Clean(s.links[w], s.clock[w.src], c.strong)])
  }

  /** The state after message number k of way w has been retransmitted, received and acknowledged. */
  ghost function Exchange(c: Config, s: State, w: Way, k: nat): State
    requires w in s.links && Back(w) in s.links && w in s.arrivals && w.dst in s.clock && w.dst in s.procs
    requires k in s.links[w].toSend
  {
    var s1 := s.(net := s.net + DataPackets(w, s.links[w]));
    var s2 := ReceiveData(s1, w, k, s.links[w].toSend[k]);
    ReceiveAck(SendAcks(c, s2, Back(w)), Back(w), k)
  }

  lemma ReceiveDataAcks(s: State, w: Way, k: nat, m: Message)
    requires w in s.links && Back(w) in s.links && w in s.arrivals && w.dst in s.clock && w.dst in s.procs
    ensures var t := ReceiveData(s, w, k, m);
            && t.links.Keys == s.links.Keys && k in t.links[Back(w)].acksToSend
            && t.net == s.net && t.crashed == s.crashed && t.clock == s.clock && t.texts == s.texts
  {
    hide Notify;
  }

  /** The links and tables that a way between two processes gives access to. */
  ghost predicate Open(s: State, w: Way) {
    && w in s.links && Back(w) in s.links && w in s.arrivals && Back(w) in s.arrivals
    && w.src in s.clock && w.dst in s.clock && w.src in s.procs && w.dst in s.procs
    && w.src !in s.crashed && w.dst !in s.crashed
  }

  lemma OpenWay(c: Config, s: State, w: Way)
    requires Inv(c, s) && w in s.links && w.src !in s.crashed && w.dst !in s.crashed
    ensures Open(s, w) && Open(s, Back(w))
  {
    hide Inv, Limit, Pids, Ways;
    Invariants.ShapeOf(c, s);
  }

  lemma RetransmitRun(c: Config, s: State, w: Way)
    requires Inv(c, s) && Open(s, w)
    ensures var t := s.(net := s.net + DataPackets(w, s.links[w]));
            Runs(c, s, [Retransmit(w)], t) && Inv(c, t)
  {
    hide Inv, Shape, DataPackets, Runs;
    Invariants.ShapeOf(c, s);
    RunsOne(c, s, Retransmit(w));
    Invariants.StepInv(c, s, Retransmit(w));
  }

  lemma TransmitAcksRun(c: Config, s: State, w: Way)
    requires Inv(c, s) && Open(s, w)
    ensures var t := s.(net := s.net + AckPackets(w, s.links[w]));
            Runs(c, s, [TransmitAcks(w)], t) && Inv(c, t)
  {
    hide Inv, Shape, AckPackets, Runs;
    Invariants.ShapeOf(c, s);
    RunsOne(c, s, TransmitAcks(w));
    Invariants.StepInv(c, s, TransmitAcks(w));
  }

  lemma CleanUpRun(c: Config, s: State, w: Way)
    requires Inv(c, s) && Open(s, w)
    ensures var t := s.(links := s.links[w := Clean(s.links[w], s.clock[w.src], c.strong)]);
            Runs(c, s, [CleanUp(w)], t) && Inv(c, t)
  {
    hide Inv, Shape, Clean, Runs;
    Invariants.ShapeOf(c, s);
    RunsOne(c, s, CleanUp(w));
    Invariants.StepInv(c, s, CleanUp(w));
  }

  lemma SendAcksRun(c: Config, s: State, w: Way)
    requires Inv(c, s) && Open(s, w)
    ensures Runs(c, s, [TransmitAcks(w)] + [CleanUp(w)], SendAcks(c, s, w)) && Inv(c, SendAcks(c, s, w))
  {
    hide Inv, AckPackets, Clean, Runs;
    var s1 := s.(net := s.net + AckPackets(w, s.links[w]));
    TransmitAcksRun(c, s, w);
    CleanUpRun(c, s1, w);
    RunsJoin(c, s, [TransmitAcks(w)], s1, [CleanUp(w)], SendAcks(c, s, w));
  }

  lemma ReceiveRun(c: Config, s: State, w: Way, b: Body)
    requires Inv(c, s) && Open(s, w) && Packet(w.src, w.dst, b) in s.net
    ensures Runs(c, s, [Receive(Packet(w.src, w.dst, b))], ReceivePacket(s, w, b))
    ensures Inv(c, ReceivePacket(s, w, b))
  {
    hide Inv, Shape, ReceivePacket, Runs;
    Invariants.ShapeOf(c, s);
    RunsOne(c, s, Receive(Packet(w.src, w.dst, b)));
    Invariants.StepInv(c, s, Receive(Packet(w.src, w.dst, b)));
  }

  lemma AckOnWire(w: Way, l: Link, k: nat)
    requires k in l.acksToSend
    ensures Packet(w.src, w.dst, Ack(k)) in AckPackets(w, l)
  {
  }

  lemma DataOnWire(w: Way, l: Link, k: nat)
    requires k in l.toSend
    ensures Packet(w.src, w.dst, Data(k, l.toSend[k])) in DataPackets(w, l)
  {
  }

  lemma DataOver(c: Config, s: State, w: Way, k: nat) returns (steps: seq<Step>)
    requires Inv(c, s) && Open(s, w) && k in s.links[w].toSend
    ensures var t := ReceiveData(s.(net := s.net + DataPackets(w, s.links[w])), w, k, s.links[w].toSend[k]);
            && Runs(c, s, steps, t) && Inv(c, t) && Open(t, w) && k in t.links[Back(w)].acksToSend
            && Inside(s.crashed, steps) && t.crashed == s.crashed
  {
    hide Inv, DataPackets, Runs, ReceiveData;
    var m := s.links[w].toSend[k];
    var s1 := s.(net := s.net + DataPackets(w, s.links[w]));
    RetransmitRun(c, s, w);
    DataOnWire(w, s.links[w], k);
    ReceiveRun(c, s1, w, Data(k, m));
    ReceiveDataAcks(s1, w, k, m);
    steps := [Retransmit(w)] + [Receive(Packet(w.src, w.dst, Data(k, m)))];
    RunsJoin(c, s, [Retransmit(w)], s1, [Receive(Packet(w.src, w.dst, Data(k, m)))], ReceiveData(s1, w, k, m));
    OpenWay(c, ReceiveData(s1, w, k, m), w);
  }

  lemma AckBack(c: Config, s: State, w: Way, k: nat) returns (steps: seq<Step>)
    requires Inv(c, s) && Open(s, w) && k in s.links[w].acksToSend
    ensures var t := ReceiveAck(SendAcks(c, s, w), w, k);
            Runs(c, s, steps, t) && Inv(c, t) && Inside(s.crashed, steps)
  {
    hide Inv, AckPackets, Clean, Runs, ReceiveAck;
    var s1 := SendAcks(c, s, w);
    SendAcksRun(c, s, w);
    AckOnWire(w, s.links[w], k);
    ReceiveRun(c, s1, w, Ack(k));
    var first, last := [TransmitAcks(w)] + [CleanUp(w)], [Receive(Packet(w.src, w.dst, Ack(k)))];
    RunsJoin(c, s, first, s1, last, ReceiveAck(s1, w, k));
    steps := first + last;
  }

  lemma ExchangeRuns(c: Config, s: State, w: Way, k: nat) returns (steps: seq<Step>)
    requires Inv(c, s) && Open(s, w) && k in s.links[w].toSend
    ensures Runs(c, s, steps, Exchange(c, s, w, k)) && Inv(c, Exchange(c, s, w, k)) && Inside(s.crashed, steps)
  {
    hide Inv, AckPackets, DataPackets, Clean, Runs, ReceiveAck, ReceiveData;
    var s2 := ReceiveData(s.(net := s.net + DataPackets(w, s.links[w])), w, k, s.links[w].toSend[k]);
    var there := DataOver(c, s, w, k);
    OpenWay(c, s2, w);
    var back := AckBack(c, s2, Back(w), k);
    RunsJoin(c, s, there, s2, back, Exchange(c, s, w, k));
    steps := there + back;
  }

  /** What the manager at dst makes of the exchange. */
  ghost function ExchangeEffect(s: State, w: Way, k: nat): Effect
    requires w in s.links && Back(w) in s.links && w.dst in s.procs && k in s.links[w].toSend
  {
    if k in s.links[Back(w)].seen then Effect(s.procs[w.dst], None)
    else Notify(s.procs[w.dst], w.src, s.links[w].toSend[k])
  }

  /** Receiving data touches the unacknowledged messages only by putting a relayed message. */
  lemma ReceiveDataFields(s: State, w: Way, k: nat, m: Message, e: Effect)
    requires w in s.links && Back(w) in s.links && w in s.arrivals && w.dst in s.clock && w.dst in s.procs
    requires e == if k in s.links[Back(w)].seen then Effect(s.procs[w.dst], None) else Notify(s.procs[w.dst], w.src, m)
    ensures var t := ReceiveData(s, w, k, m);
            && t.procs == s.procs[w.dst := e.proc]
            && t.links.Keys == s.links.Keys
            && (e.out.None? ==> forall v :: v in s.links ==> t.links[v].toSend == s.links[v].toSend)
  {
    hide Notify;
  }

  lemma ExchangeFields(c: Config, s: State, w: Way, k: nat)
    requires w in s.links && Back(w) in s.links && w in s.arrivals && w.dst in s.clock && w.dst in s.procs
    requires k in s.links[w].toSend
    ensures var t, e := Exchange(c, s, w, k), ExchangeEffect(s, w, k);
            && t.procs == s.procs[w.dst := e.proc]
            && t.crashed == s.crashed && t.texts == s.texts && t.links.Keys == s.links.Keys
            && (e.out.None? ==> forall v :: v in s.links ==>
                  t.links[v].toSend == if v == w then s.links[v].toSend - {k} else s.links[v].toSend)
  {
    hide Notify, DataPackets, AckPackets, ReceiveData;
    var s1 := s.(net := s.net + DataPackets(w, s.links[w]));
    var m := s.links[w].toSend[k];
    ReceiveDataAcks(s1, w, k, m);
    ReceiveDataFields(s1, w, k, m, ExchangeEffect(s, w, k));
  }

  /** What the manager at dst makes of the k-th message of a link: it relays at most that message. */
  lemma SentEmits(c: Config, s: State, w: Way, k: nat, e: Effect)
    requires Inv(c, s) && w in s.links && Back(w) in s.links && w.dst in s.procs
    requires w in s.sent && 1 <= k <= |s.sent[w]|
    requires e == if k in s.links[Back(w)].seen then Effect(s.procs[w.dst], None)
                  else Notify(s.procs[w.dst], w.src, s.sent[w][k - 1])
    ensures Emits(s.procs[w.dst], e) && e.proc.next == s.procs[w.dst].next
    ensures e.out.Some? ==> e.out.value.id in AllIds(s.procs)
    ensures w.src != w.dst
  {
    hide Inv, Notify, LocalInv, Known, Delivered, AllIds, Limit, Pids, Ways, Emits, AckSet, Absorbed, Genuine;
    Invariants.ShapeOf(c, s);
    var m := s.sent[w][k - 1];
    OnLinkOf(c, s, w, k);
    CastIsSent(c, s, m.id);
    LocalOf(c, s, w.dst);
    NotifyEmits(s.procs[w.dst], w.src, m);
    Invariants.NotifyAbsorbs(s.procs[w.dst], w.src, m);
    EmitsNothing(s.procs[w.dst]);
  }

  lemma ExchangeEmits(c: Config, s: State, w: Way, k: nat)
    requires Inv(c, s) && w in s.links && Back(w) in s.links && w.dst in s.procs && k in s.links[w].toSend
    ensures var e := ExchangeEffect(s, w, k);
            && Emits(s.procs[w.dst], e) && e.proc.next == s.procs[w.dst].next
            && (e.out.Some? ==> e.out.value.id in AllIds(s.procs))
            && w.src != w.dst
  {
    hide Inv, Notify, AllIds, ReceiverInv, TransitInv, Emits;
    ChannelOf(c, s, w);
    assert 1 <= k <= |s.sent[w]| && s.links[w].toSend[k] == s.sent[w][k - 1];
    SentEmits(c, s, w, k, ExchangeEffect(s, w, k));
  }

  lemma EmitsNothing(p: Proc)
    ensures Emits(p, Effect(p, None))
  {
  }

  lemma NewlyKnown(procs: map<Pid, Proc>, p: Pid, e: Effect)
    requires p in procs && Emits(procs[p], e) && e.proc.next == procs[p].next
    requires e.out.Some? && e.out.value.id in AllIds(procs)
    ensures |Unknown(procs[p := e.proc])| < |Unknown(procs)|
  {
    hide Known, Delivered, AllIds;
    MeasureShrinks(procs, p, e);
    ProperCount(Unknown(procs[p := e.proc]), Unknown(procs), (p, e.out.value.id));
  }

  lemma AckedShrinks(s: State, t: State, w: Way, k: nat)
    requires w in s.links && k in s.links[w].toSend && w.src !in s.crashed && w.dst !in s.crashed
    requires t.crashed == s.crashed && t.links.Keys == s.links.Keys
    requires forall v :: v in s.links ==>
               t.links[v].toSend == if v == w then s.links[v].toSend - {k} else s.links[v].toSend
    ensures |Unacked(t)| < |Unacked(s)|
  {
    assert Unacked(t) <= Unacked(s);
    ProperCount(Unacked(t), Unacked(s), (w, k));
  }

  /** An exchange makes an id known, or else takes one message off the list of unacknowledged ones. */
  lemma ExchangeStep(c: Config, s: State, w: Way, k: nat) returns (steps: seq<Step>, t: State)
    requires Inv(c, s) && w in s.links && w.src !in s.crashed && w.dst !in s.crashed && k in s.links[w].toSend
    ensures Runs(c, s, steps, t) && Inv(c, t) && Continues(s, t) && Inside(s.crashed, steps)
    ensures |Undelivered(t.procs)| <= |Undelivered(s.procs)|
    ensures |Unknown(t.procs)| < |Unknown(s.procs)|
         || (|Unknown(t.procs)| <= |Unknown(s.procs)| && |Unacked(t)| < |Unacked(s)|)
  {
    hide Inv, Runs, Exchange, ExchangeEffect, Emits, Undelivered, Unknown, Unacked, AllIds, Limit, Pids, Ways;
    OpenWay(c, s, w);
    steps := ExchangeRuns(c, s, w, k);
    ExchangeEmits(c, s, w, k);
    ExchangeFields(c, s, w, k);
    t := Exchange(c, s, w, k);
    var e := ExchangeEffect(s, w, k);
    MeasureShrinks(s.procs, w.dst, e);
    if e.out.Some? {
      NewlyKnown(s.procs, w.dst, e);
    } else {
      AckedShrinks(s, t, w, k);
    }
  }

  // ------------------------------------------------------------------------------------------
  // To quiescence

  lemma {:induction false} RunToQuiescence(c: Config, s: State) returns (steps: seq<Step>, t: State)
    requires Inv(c, s)
    ensures Runs(c, s, steps, t) && Inv(c, t) && Continues(s, t) && Quiescent(t) && Inside(s.crashed, steps)
    decreases |Undelivered(s.procs)|, |Unknown(s.procs)|, |Unacked(s)|
  {
    hide Inv, Runs, Undelivered, Unknown, Unacked, Deliverable, Apply, Enabled, Shape;
    if p, id :| p in s.procs && p !in s.crashed && id in s.procs[p].pending && Deliverable(s.procs[p], id) {
      var u := DeliverStep(c, s, p, id);
      var rest;
      rest, t := RunToQuiescence(c, u);
      RunsJoin(c, s, [DeliverOne(p, id)], u, rest, t);
      steps := [DeliverOne(p, id)] + rest;
    } else if w, k :| w in s.links && w.src !in s.crashed && w.dst !in s.crashed && k in s.links[w].toSend {
      var first, u := ExchangeStep(c, s, w, k);
      var rest;
      rest, t := RunToQuiescence(c, u);
      RunsJoin(c, s, first, u, rest, t);
      steps := first + rest;
    } else {
      steps, t := [], s;
      RunsNothing(c, s);
      forall w | w in s.links && w.src !in s.crashed && w.dst !in s.crashed
        ensures s.links[w].toSend == map[]
      {
        assert forall k :: k !in s.links[w].toSend;
      }
    }
  }

  ghost predicate DeliveredEverywhere(c: Config, s: State, id: MsgId) {
    forall q :: q in Up(c, s) ==> q in s.procs && Delivered(s.procs[q], id)
  }

  lemma SentIsDelivered(c: Config, s: State, p: Pid, k: nat)
    requires Reachable(c, s) && Quiescent(s) && p in Up(c, s) && p in s.procs && 1 <= k < s.procs[p].next
    ensures DeliveredEverywhere(c, s, MsgId(p, k))
  {
    hide Reachable, Inv, Quiescent, Delivered, Known;
    Invariants.ReachableInv(c, s);
    Invariants.ShapeOf(c, s);
    Validity(c, s, p);
    LocalFacts(c, s, p);
    OwnKnown(s.procs[p], k);
    forall q | q in Up(c, s)
      ensures q in s.procs && Delivered(s.procs[q], MsgId(p, k))
    {
      AllUpDeliver(c, s, p, q, MsgId(p, k));
    }
  }

  /**
   From every reachable state, without further crashes or sends, the processes that are up can
   reach a state in which every message any of them ever sent, and every message any process has
   delivered, is delivered by all of them.
   */
  lemma DeliveryIsReachable(c: Config, s: State) returns (steps: seq<Step>, t: State)
    requires Reachable(c, s)
    ensures Runs(c, s, steps, t) && Reachable(c, t) && Continues(s, t) && Quiescent(t)
    ensures forall p, k: nat :: p in Up(c, s) && p in s.procs && 1 <= k < s.procs[p].next ==>
              DeliveredEverywhere(c, t, MsgId(p, k))
    ensures forall p, id :: p in t.procs && Delivered(t.procs[p], id) ==> DeliveredEverywhere(c, t, id)
  {
    hide Reachable, Runs, Inv, Quiescent, Delivered;
    Invariants.ReachableInv(c, s);
    steps, t := RunToQuiescence(c, s);
    ReachableRun(c, s, steps, t);
    forall p, k: nat | p in Up(c, s) && p in s.procs && 1 <= k < s.procs[p].next
      ensures DeliveredEverywhere(c, t, MsgId(p, k))
    {
      SentIsDelivered(c, t, p, k);
    }
    forall p, id | p in t.procs && Delivered(t.procs[p], id)
      ensures DeliveredEverywhere(c, t, id)
    {
      forall q | q in Up(c, t)
        ensures q in t.procs && Delivered(t.procs[q], id)
      {
        UniformAgreement(c, t, p, q, id);
      }
    }
  }
}
