/**
 Eventual delivery. A rank that no step raises (application sends apart) and that every useful step
 lowers shows that an infinite run with finitely many sends settles, whatever the network does; if
 the run is fair, it settles in a quiescent state, where the guarantees of module Theorems hold.
 */
module Liveness {
  import opened Types
  import opened Urb
  import opened UrbProofs
  import opened Links
  import opened System
  import opened RunLemmas
  import Invariants
  import opened Theorems
  import opened Progress

  // ------------------------------------------------------------------------------------------
  // The rank

  datatype Rank = Rank(up: nat, undelivered: nat, unknown: nat, unacked: nat)

  ghost function RankOf(c: Config, s: State): Rank {
    Rank(|Up(c, s)|, |Undelivered(s.procs)|, |Unknown(s.procs)|, |Unacked(s)|)
  }

  /** Lexicographic order. */
  predicate Below(a: Rank, b: Rank) {
    a.up < b.up || (a.up == b.up && (
      a.undelivered < b.undelivered || (a.undelivered == b.undelivered && (
        a.unknown < b.unknown || (a.unknown == b.unknown && a.unacked < b.unacked)))))
  }

  predicate AtMost(a: Rank, b: Rank) {
    a == b || Below(a, b)
  }

  /** Nothing happens to the processes, and no message becomes unacknowledged. */
  lemma SameProcsRank(c: Config, s: State, t: State)
    requires t.procs == s.procs && t.crashed == s.crashed && Unacked(t) <= Unacked(s)
    ensures AtMost(RankOf(c, t), RankOf(c, s))
    ensures Unacked(t) != Unacked(s) ==> Below(RankOf(c, t), RankOf(c, s))
  {
    hide Undelivered, Unknown, Unacked;
    SubsetCount(Unacked(t), Unacked(s));
    if Unacked(t) != Unacked(s) {
      var x :| x in Unacked(s) && x !in Unacked(t);
      ProperCount(Unacked(t), Unacked(s), x);
    }
  }

  /** The unacknowledged messages depend on the links' lists only. */
  lemma UnackedOf(s: State, t: State)
    requires t.crashed == s.crashed && t.links.Keys == s.links.Keys
    requires forall v :: v in s.links ==> t.links[v].toSend.Keys <= s.links[v].toSend.Keys
    ensures Unacked(t) <= Unacked(s)
    ensures (forall v :: v in s.links ==> t.links[v].toSend == s.links[v].toSend) ==> Unacked(t) == Unacked(s)
  {
  }

  /** One process moves on, emitting at most an id that was sent. */
  lemma EffectRank(c: Config, s: State, t: State, p: Pid, e: Effect)
    requires p in s.procs && t.procs == s.procs[p := e.proc] && t.crashed == s.crashed
    requires Emits(s.procs[p], e) && e.proc.next == s.procs[p].next
    requires e.out.Some? ==> e.out.value.id in AllIds(s.procs)
    requires e.out.None? ==> Unacked(t) == Unacked(s)
    ensures AtMost(RankOf(c, t), RankOf(c, s))
  {
    hide Undelivered, Unknown, Unacked, AllIds, Emits;
    MeasureShrinks(s.procs, p, e);
    if e.out.Some? {
      NewlyKnown(s.procs, p, e);
    }
  }

  // ------------------------------------------------------------------------------------------
  // Every step but a send

  lemma CrashRank(c: Config, s: State, p: Pid)
    requires p in Pids(c.n)
    ensures AtMost(RankOf(c, s.(crashed := s.crashed + {p})), RankOf(c, s))
  {
    hide Undelivered, Unknown, Unacked, Pids;
    var t := s.(crashed := s.crashed + {p});
    if p in s.crashed {
      assert t.crashed == s.crashed;
    } else {
      ProperCount(Up(c, t), Up(c, s), p);
    }
  }

  /** Transmissions, clean-up and clocks touch nothing that counts. */
  lemma QuietRank(c: Config, s: State, u: Step)
    requires Shape(c, s) && Enabled(c, s, u) && (u.Retransmit? || u.TransmitAcks? || u.CleanUp? || u.Tick?)
    ensures AtMost(RankOf(c, Apply(c, s, u)), RankOf(c, s))
  {
    hide Shape, Undelivered, Unknown, Unacked, DataPackets, AckPackets;
    var t := Apply(c, s, u);
    UnackedOf(s, t);
    SameProcsRank(c, s, t);
  }

  lemma AckRank(c: Config, s: State, w: Way, k: nat)
    requires w in s.links && Back(w) in s.links
    ensures var t := ReceiveAck(s, Back(w), k);
            && AtMost(RankOf(c, t), RankOf(c, s))
            && (w.src !in s.crashed && w.dst !in s.crashed && k in s.links[w].toSend ==>
                  Below(RankOf(c, t), RankOf(c, s)))
  {
    hide Undelivered, Unknown;
    var t := ReceiveAck(s, Back(w), k);
    UnackedOf(s, t);
    if w.src !in s.crashed && w.dst !in s.crashed && k in s.links[w].toSend {
      assert (w, k) in Unacked(s) && (w, k) !in Unacked(t);
    }
    SameProcsRank(c, s, t);
  }

  lemma DataRank(c: Config, s: State, w: Way, k: nat, m: Message)
    requires Inv(c, s) && w in s.links && Packet(w.src, w.dst, Data(k, m)) in s.net
    requires Back(w) in s.links && w in s.arrivals && w.dst in s.clock && w.dst in s.procs
    ensures AtMost(RankOf(c, ReceiveData(s, w, k, m)), RankOf(c, s))
  {
    hide Inv, Undelivered, Unknown, Unacked, AllIds, Emits, Notify, SenderInv, ReceiverInv, ReceiveData;
    ChannelOf(c, s, w);
    assert 1 <= k <= |s.sent[w]| && m == s.sent[w][k - 1];
    var e := if k in s.links[Back(w)].seen then Effect(s.procs[w.dst], None) else Notify(s.procs[w.dst], w.src, m);
    SentEmits(c, s, w, k, e);
    ReceiveDataAcks(s, w, k, m);
    ReceiveDataFields(s, w, k, m, e);
    if e.out.None? {
      UnackedOf(s, ReceiveData(s, w, k, m));
    }
    EffectRank(c, s, ReceiveData(s, w, k, m), w.dst, e);
  }

  lemma TouchOnly(p: Proc, id: MsgId)
    requires !Deliverable(p, id)
    ensures Deliver(p, id) == Effect(Touch(p, id), None) && Touch(p, id).next == p.next
  {
  }

  lemma PutNothing(s: State, p: Pid, e: Effect)
    requires e.out.None?
    ensures Unacked(Install(s, p, e)) == Unacked(s)
  {
    hide Put;
    UnackedOf(s, Install(s, p, e));
  }

  lemma DeliverRank(c: Config, s: State, p: Pid, id: MsgId)
    requires Inv(c, s) && p in s.procs && id in s.procs[p].pending
    ensures var t := Install(s, p, Deliver(s.procs[p], id));
            && AtMost(RankOf(c, t), RankOf(c, s))
            && (Deliverable(s.procs[p], id) ==> Below(RankOf(c, t), RankOf(c, s)))
  {
    hide Inv, Deliver, Undelivered, Unknown, Unacked, AllIds, Emits, LocalInv, PutAll, Record, Deliverable;
    var e := Deliver(s.procs[p], id);
    if Deliverable(s.procs[p], id) {
      DeliverMeasure(c, s, p, id);
    } else {
      LocalOf(c, s, p);
      DeliverLocal(s.procs[p], id);
      TouchOnly(s.procs[p], id);
      PutNothing(s, p, e);
      EffectRank(c, s, Install(s, p, e), p, e);
    }
  }

  lemma ReceiveRank(c: Config, s: State, pkt: Packet)
    requires Inv(c, s) && Enabled(c, s, Receive(pkt))
    ensures AtMost(RankOf(c, Apply(c, s, Receive(pkt))), RankOf(c, s))
  {
    hide Inv, RankOf, ReceiveData, ReceiveAck, Limit, Pids, Ways;
    Invariants.ShapeOf(c, s);
    var w := Way(pkt.src, pkt.dst);
    match pkt.body
    case Data(k, m) => DataRank(c, s, w, k, m);
    case Ack(k) => AckRank(c, s, Back(w), k);
  }

  /** No step but a send raises the rank, whatever the network, the clocks and the clean-up do. */
  lemma NothingIsUndone(c: Config, s: State, u: Step)
    requires Inv(c, s) && Enabled(c, s, u) && !u.Broadcast?
    ensures AtMost(RankOf(c, Apply(c, s, u)), RankOf(c, s))
  {
    hide Inv, Shape, RankOf, ReceivePacket, Install, Clean, AtMost, DataPackets, AckPackets, Send, Deliver;
    Invariants.ShapeOf(c, s);
    match u
    case Receive(pkt) => ReceiveRank(c, s, pkt);
    case DeliverOne(p, id) => DeliverRank(c, s, p, id);
    case Crash(p) => CrashRank(c, s, p);
    case _ => QuietRank(c, s, u);
  }

  // ------------------------------------------------------------------------------------------
  // Infinite runs

  /** State i, and the step taken there. */
  datatype Run = Run(state: nat -> State, act: nat -> Step)

  ghost predicate IsRun(c: Config, r: Run) {
    && Reachable(c, r.state(0))
    && (forall i: nat {:trigger r.act(i)} :: Takes(c, r.state(i), r.act(i), r.state(i + 1)))
  }

  lemma {:induction false} RunInvAt(c: Config, r: Run, i: nat)
    requires IsRun(c, r)
    ensures Inv(c, r.state(i)) && Takes(c, r.state(i), r.act(i), r.state(i + 1))
  {
    hide Inv, Reachable, Shape, Enabled, Apply;
    if i == 0 {
      Invariants.ReachableInv(c, r.state(0));
    } else {
      RunInvAt(c, r, i - 1);
      Invariants.StepInv(c, r.state(i - 1), r.act(i - 1));
    }
    assert Takes(c, r.state(i), r.act(i), r.state(i + 1)) by {
      var u := r.act(i);
    }
  }

  /** From step m on the application is silent. */
  ghost predicate Silent(r: Run, m: nat) {
    forall i: nat :: i >= m ==> !r.act(i).Broadcast?
  }

  lemma {:induction false} RankFalls(c: Config, r: Run, m: nat, i: nat, j: nat)
    requires IsRun(c, r) && Silent(r, m) && m <= i <= j
    ensures AtMost(RankOf(c, r.state(j)), RankOf(c, r.state(i)))
    decreases j - i
  {
    hide IsRun, Inv, RankOf, Shape, Enabled, Apply;
    if i < j {
      RankFalls(c, r, m, i, j - 1);
      RunInvAt(c, r, j - 1);
      NothingIsUndone(c, r.state(j - 1), r.act(j - 1));
    }
  }

  /** The rank has reached its final value. */
  ghost predicate Settled(c: Config, r: Run, n: nat) {
    forall j: nat :: j >= n ==> RankOf(c, r.state(j)) == RankOf(c, r.state(n))
  }

  /** Every run with finitely many sends settles, fair or not. */
  lemma {:induction false} Settles(c: Config, r: Run, m: nat) returns (n: nat)
    requires IsRun(c, r) && Silent(r, m)
    ensures n >= m && Settled(c, r, n)
    decreases RankOf(c, r.state(m)).up, RankOf(c, r.state(m)).undelivered,
              RankOf(c, r.state(m)).unknown, RankOf(c, r.state(m)).unacked
  {
    hide IsRun, RankOf;
    if j: nat :| j >= m && Below(RankOf(c, r.state(j)), RankOf(c, r.state(m))) {
      n := Settles(c, r, j);
    } else {
      n := m;
      forall j: nat | j >= n
        ensures RankOf(c, r.state(j)) == RankOf(c, r.state(n))
      {
        RankFalls(c, r, m, m, j);
      }
    }
  }

  // ------------------------------------------------------------------------------------------
  // Fairness

  ghost predicate Lives(r: Run, p: Pid) {
    forall i: nat :: p !in r.state(i).crashed
  }

  /** Step u is taken at i or later. */
  ghost predicate TakenFrom(r: Run, u: Step, i: nat) {
    exists j: nat :: j >= i && r.act(j) == u
  }

  /** The step transmits the packet. */
  ghost predicate Sends(s: State, u: Step, pkt: Packet) {
    var w := Way(pkt.src, pkt.dst);
    && w in s.links
    && ((u == Retransmit(w) && pkt in DataPackets(w, s.links[w]))
        || (u == TransmitAcks(w) && pkt in AckPackets(w, s.links[w])))
  }

  ghost predicate SentFrom(r: Run, pkt: Packet, i: nat) {
    exists j: nat :: j >= i && Sends(r.state(j), r.act(j), pkt)
  }

  ghost predicate SentOften(r: Run, pkt: Packet) {
    forall i: nat :: SentFrom(r, pkt, i)
  }

  /** Fair loss: what is transmitted again and again to a live process arrives again and again. */
  ghost predicate FairLoss(r: Run) {
    forall pkt, i: nat :: SentOften(r, pkt) && Lives(r, pkt.dst) ==> TakenFrom(r, Receive(pkt), i)
  }

  /** The sending thread of a live process visits each of its links again and again. */
  ghost predicate FairLinks(c: Config, r: Run) {
    forall w :: w in Ways(c.n) && Lives(r, w.src) ==>
      forall i: nat :: TakenFrom(r, Retransmit(w), i) && TakenFrom(r, TransmitAcks(w), i)
  }

  /** The next time acks are transmitted on the link, it has not been cleaned up since l. */
  ghost predicate Sheltered(r: Run, v: Way, l: nat) {
    exists t: nat :: l < t && r.act(t) == TransmitAcks(v) && forall x: nat :: l < x < t ==> r.act(x) != CleanUp(v)
  }

  ghost predicate ShelteredFrom(r: Run, pkt: Packet, i: nat) {
    exists l: nat :: l >= i && r.act(l) == Receive(pkt) && Sheltered(r, Way(pkt.dst, pkt.src), l)
  }

  ghost predicate ArrivesOften(r: Run, pkt: Packet) {
    forall i: nat :: TakenFrom(r, Receive(pkt), i)
  }

  /** Of a packet that arrives again and again, not every copy is cleaned up before its ack is sent. */
  ghost predicate FairCleanUp(r: Run) {
    forall pkt, i: nat :: ArrivesOften(r, pkt) && pkt.body.Data? && Lives(r, pkt.dst) ==> ShelteredFrom(r, pkt, i)
  }

  /** The id is visited by the delivery loop at i or later, or is not pending. */
  ghost predicate VisitedFrom(r: Run, p: Pid, id: MsgId, i: nat) {
    exists j: nat {:trigger r.act(j)} :: j >= i &&
      (r.act(j) == DeliverOne(p, id) || (p in r.state(j).procs && id !in r.state(j).procs[p].pending))
  }

  ghost predicate FairDelivery(c: Config, r: Run) {
    forall p, id, i: nat :: p in Pids(c.n) && Lives(r, p) ==> VisitedFrom(r, p, id, i)
  }

  ghost predicate Fair(c: Config, r: Run) {
    FairLoss(r) && FairLinks(c, r) && FairDelivery(c, r) && FairCleanUp(r)
  }

  // ------------------------------------------------------------------------------------------
  // What a settled run cannot do

  /** A step that leaves the rank alone delivers nothing. */
  lemma DeliversNothing(c: Config, s: State, t: State, p: Pid, id: MsgId)
    requires Inv(c, s) && Takes(c, s, DeliverOne(p, id), t) && RankOf(c, t) == RankOf(c, s)
    ensures p in s.procs && !Deliverable(s.procs[p], id)
  {
    hide Inv, Shape, RankOf, Install, Deliverable;
    DeliverRank(c, s, p, id);
  }

  /** A step that leaves the rank alone acknowledges nothing. */
  lemma AcksNothing(c: Config, s: State, t: State, w: Way, k: nat)
    requires Inv(c, s) && w in s.links && w.src !in s.crashed && w.dst !in s.crashed
    requires Takes(c, s, Receive(Packet(w.dst, w.src, Ack(k))), t) && RankOf(c, t) == RankOf(c, s)
    ensures k !in s.links[w].toSend
  {
    hide Inv, Shape, RankOf, ReceiveAck;
    AckRank(c, s, w, k);
  }

  /** Up never grows, so with the same rank the same processes are up. */
  lemma CrashedGrows(c: Config, s: State, u: Step, t: State)
    requires Takes(c, s, u, t)
    ensures s.crashed <= t.crashed
  {
    hide Shape, Enabled, PutAll, Record, Clean, OnData, OnAck, Notify, Send, Deliver, DataPackets, AckPackets;
  }

  lemma {:induction false} CrashedGrowsTo(c: Config, r: Run, i: nat, j: nat)
    requires IsRun(c, r) && i <= j
    ensures r.state(i).crashed <= r.state(j).crashed
    decreases j - i
  {
    hide IsRun, Inv, Shape, Enabled, Apply;
    if i < j {
      CrashedGrowsTo(c, r, i, j - 1);
      RunInvAt(c, r, j - 1);
      CrashedGrows(c, r.state(j - 1), r.act(j - 1), r.state(j));
    }
  }

  lemma SameUp(c: Config, s: State, t: State)
    requires s.crashed <= t.crashed && t.crashed <= Pids(c.n) && |Up(c, t)| == |Up(c, s)|
    ensures t.crashed == s.crashed
  {
    hide Pids;
    if p :| p in t.crashed && p !in s.crashed {
      ProperCount(Up(c, t), Up(c, s), p);
      assert false;
    }
  }

  /** Who is up in a settled state lives for ever. */
  lemma UpLives(c: Config, r: Run, n: nat, i: nat, p: Pid)
    requires IsRun(c, r) && Settled(c, r, n) && i >= n && p !in r.state(i).crashed
    ensures Lives(r, p)
  {
    hide IsRun, Inv, Limit, Ways;
    forall j: nat
      ensures p !in r.state(j).crashed
    {
      if j <= i {
        CrashedGrowsTo(c, r, j, i);
      } else {
        CrashedGrowsTo(c, r, i, j);
        RunInvAt(c, r, j);
        Invariants.ShapeOf(c, r.state(j));
        assert RankOf(c, r.state(j)) == RankOf(c, r.state(n)) == RankOf(c, r.state(i));
        SameUp(c, r.state(i), r.state(j));
      }
    }
  }

  // ------------------------------------------------------------------------------------------
  // Links, one step at a time

  /** What one step can do to the lists of one link. */
  ghost predicate LinkStep(s: State, u: Step, t: State, v: Way)
    requires v in s.links && v in t.links
  {
    && (forall k :: k in s.links[v].toSend && u != Receive(Packet(v.dst, v.src, Ack(k))) ==>
          k in t.links[v].toSend && t.links[v].toSend[k] == s.links[v].toSend[k])
    && (u != CleanUp(v) ==> s.links[v].acksToSend <= t.links[v].acksToSend)
    && (forall k, m :: u == Receive(Packet(v.dst, v.src, Data(k, m))) ==> k in t.links[v].acksToSend)
  }

  lemma InstallLink(s: State, u: Step, p: Pid, e: Effect, v: Way)
    requires v in s.links && !u.Receive?
    ensures v in Install(s, p, e).links && LinkStep(s, u, Install(s, p, e), v)
  {
  }

  lemma AckLink(s: State, w: Way, k: nat, v: Way)
    requires Back(w) in s.links && v in s.links
    ensures v in ReceiveAck(s, w, k).links
    ensures LinkStep(s, Receive(Packet(w.src, w.dst, Ack(k))), ReceiveAck(s, w, k), v)
  {
  }

  lemma DataLink(s: State, w: Way, k: nat, m: Message, v: Way)
    requires w in s.arrivals && Back(w) in s.links && w.dst in s.clock && w.dst in s.procs && v in s.links
    ensures v in ReceiveData(s, w, k, m).links
    ensures LinkStep(s, Receive(Packet(w.src, w.dst, Data(k, m))), ReceiveData(s, w, k, m), v)
  {
    hide Notify, Record;
  }

  lemma ReceiveLink(s: State, w: Way, b: Body, v: Way)
    requires w in s.arrivals && Back(w) in s.links && w.dst in s.clock && w.dst in s.procs && v in s.links
    ensures v in ReceivePacket(s, w, b).links
    ensures LinkStep(s, Receive(Packet(w.src, w.dst, b)), ReceivePacket(s, w, b), v)
  {
    hide LinkStep, ReceiveAck, ReceiveData;
    match b
    case Data(k, m) => DataLink(s, w, k, m, v);
    case Ack(k) => AckLink(s, w, k, v);
  }

  lemma OtherLink(c: Config, s: State, u: Step, t: State, v: Way)
    requires Takes(c, s, u, t) && v in s.links
    requires u.Retransmit? || u.TransmitAcks? || u.CleanUp? || u.Tick? || u.Crash?
    ensures v in t.links && LinkStep(s, u, t, v)
  {
    hide Shape, DataPackets, AckPackets;
  }

  lemma BroadcastLink(c: Config, s: State, u: Step, t: State, v: Way)
    requires Takes(c, s, u, t) && v in s.links && u.Broadcast?
    ensures v in t.links && LinkStep(s, u, t, v)
  {
    hide Shape, Install, Send;
    InstallLink(s, u, u.p, Send(s.procs[u.p], u.payload), v);
  }

  lemma DeliverLink(c: Config, s: State, u: Step, t: State, v: Way)
    requires Takes(c, s, u, t) && v in s.links && u.DeliverOne?
    ensures v in t.links && LinkStep(s, u, t, v)
  {
    hide Shape, Install, Deliver;
    InstallLink(s, u, u.p, Deliver(s.procs[u.p], u.id), v);
  }

  lemma StepLink(c: Config, s: State, u: Step, t: State, v: Way)
    requires Takes(c, s, u, t) && v in s.links
    ensures v in t.links && LinkStep(s, u, t, v)
  {
    hide LinkStep, Shape;
    match u
    case Receive(pkt) => ArriveLink(c, s, pkt, t, v);
    case Broadcast(_, _) => BroadcastLink(c, s, u, t, v);
    case DeliverOne(_, _) => DeliverLink(c, s, u, t, v);
    case _ => OtherLink(c, s, u, t, v);
  }

  lemma ArriveLink(c: Config, s: State, pkt: Packet, t: State, v: Way)
    requires Takes(c, s, Receive(pkt), t) && v in s.links
    ensures v in t.links && LinkStep(s, Receive(pkt), t, v)
  {
    hide LinkStep, ReceivePacket, Limit, Pids, Ways;
    ReceiveLink(s, Way(pkt.src, pkt.dst), pkt.body, v);
  }

  // ------------------------------------------------------------------------------------------
  // Links become idle

  /** In a settled run an unacknowledged message between live processes stays, with its payload. */
  lemma {:induction false} StaysUnacked(c: Config, r: Run, n: nat, w: Way, k: nat, i: nat, j: nat)
    requires IsRun(c, r) && Settled(c, r, n) && n <= i <= j && Lives(r, w.src) && Lives(r, w.dst)
    requires w in r.state(i).links && k in r.state(i).links[w].toSend
    ensures w in r.state(j).links && k in r.state(j).links[w].toSend
    ensures r.state(j).links[w].toSend[k] == r.state(i).links[w].toSend[k]
    decreases j - i
  {
    hide IsRun, Inv, Takes, RankOf;
    if i < j {
      StaysUnacked(c, r, n, w, k, i, j - 1);
      var s, u, t := r.state(j - 1), r.act(j - 1), r.state(j);
      RunInvAt(c, r, j - 1);
      StepLink(c, s, u, t, w);
      if u == Receive(Packet(w.dst, w.src, Ack(k))) {
        assert RankOf(c, t) == RankOf(c, r.state(n)) == RankOf(c, s);
        AcksNothing(c, s, t, w, k);
        assert false;
      }
    }
  }

  lemma RetransmitSends(s: State, w: Way, k: nat)
    requires w in s.links && k in s.links[w].toSend
    ensures Sends(s, Retransmit(w), Packet(w.src, w.dst, Data(k, s.links[w].toSend[k])))
  {
  }

  /** A message that stays unacknowledged arrives again and again. */
  lemma UnackedArrives(c: Config, r: Run, n: nat, w: Way, k: nat, i: nat, m: Message)
    requires IsRun(c, r) && Fair(c, r) && Settled(c, r, n) && n <= i && w in Ways(c.n)
    requires Lives(r, w.src) && Lives(r, w.dst)
    requires w in r.state(i).links && k in r.state(i).links[w].toSend && m == r.state(i).links[w].toSend[k]
    ensures ArrivesOften(r, Packet(w.src, w.dst, Data(k, m)))
  {
    hide IsRun, Settled, Sends, FairDelivery, FairCleanUp, Ways;
    var pkt := Packet(w.src, w.dst, Data(k, m));
    forall x: nat
      ensures SentFrom(r, pkt, x)
    {
      var from := if x < i then i else x;
      assert TakenFrom(r, Retransmit(w), from);
      var j: nat :| j >= from && r.act(j) == Retransmit(w);
      StaysUnacked(c, r, n, w, k, i, j);
      RetransmitSends(r.state(j), w, k);
    }
  }

  /** An ack that is queued stays queued until the link is cleaned up. */
  lemma {:induction false} AckStays(c: Config, r: Run, v: Way, k: nat, l: nat, t: nat)
    requires IsRun(c, r) && l < t && (forall x: nat :: l < x < t ==> r.act(x) != CleanUp(v))
    requires v in r.state(l + 1).links && k in r.state(l + 1).links[v].acksToSend
    ensures v in r.state(t).links && k in r.state(t).links[v].acksToSend
    decreases t - l
  {
    hide IsRun, Inv, Takes;
    if l + 1 < t {
      AckStays(c, r, v, k, l, t - 1);
      RunInvAt(c, r, t - 1);
      assert r.act(t - 1) != CleanUp(v);
      StepLink(c, r.state(t - 1), r.act(t - 1), r.state(t), v);
    }
  }

  lemma TransmitSends(s: State, v: Way, k: nat)
    requires v in s.links && k in s.links[v].acksToSend
    ensures Sends(s, TransmitAcks(v), Packet(v.src, v.dst, Ack(k)))
  {
  }

  /** A message that arrives again and again is acknowledged again and again. */
  lemma AckedOften(c: Config, r: Run, w: Way, k: nat, m: Message)
    requires IsRun(c, r) && Fair(c, r) && Back(w) in Ways(c.n) && Lives(r, w.src) && Lives(r, w.dst)
    requires ArrivesOften(r, Packet(w.src, w.dst, Data(k, m)))
    ensures forall x: nat :: TakenFrom(r, Receive(Packet(w.dst, w.src, Ack(k))), x)
  {
    hide IsRun, Inv, Takes, Sends, FairDelivery, FairLinks, ArrivesOften, Ways, Shape;
    var v, data := Back(w), Packet(w.src, w.dst, Data(k, m));
    forall x: nat
      ensures SentFrom(r, Packet(w.dst, w.src, Ack(k)), x)
    {
      assert ShelteredFrom(r, data, x);
      var l: nat :| l >= x && r.act(l) == Receive(data) && Sheltered(r, v, l);
      RunInvAt(c, r, l);
      LinkExists(c, r.state(l), v);
      StepLink(c, r.state(l), r.act(l), r.state(l + 1), v);
      var t: nat :| l < t && r.act(t) == TransmitAcks(v) && forall x: nat :: l < x < t ==> r.act(x) != CleanUp(v);
      AckStays(c, r, v, k, l, t);
      TransmitSends(r.state(t), v, k);
    }
  }

  lemma LinkExists(c: Config, s: State, v: Way)
    requires Inv(c, s)
    ensures v in s.links <==> v in Ways(c.n)
    ensures v in Ways(c.n) <==> Back(v) in Ways(c.n)
  {
    hide Inv, Limit, Pids;
    Invariants.ShapeOf(c, s);
  }

  /** In a settled fair run the links between processes that are up are idle. */
  lemma LinksSettle(c: Config, r: Run, n: nat, i: nat, w: Way, k: nat)
    requires IsRun(c, r) && Fair(c, r) && Settled(c, r, n) && i >= n
    requires w in r.state(i).links && w.src !in r.state(i).crashed && w.dst !in r.state(i).crashed
    ensures k !in r.state(i).links[w].toSend
  {
    hide IsRun, Fair, Inv, Takes, RankOf, Ways;
    if k in r.state(i).links[w].toSend {
      var m := r.state(i).links[w].toSend[k];
      UpLives(c, r, n, i, w.src);
      UpLives(c, r, n, i, w.dst);
      RunInvAt(c, r, i);
      LinkExists(c, r.state(i), w);
      UnackedArrives(c, r, n, w, k, i, m);
      AckedOften(c, r, w, k, m);
      assert TakenFrom(r, Receive(Packet(w.dst, w.src, Ack(k))), i);
      var j: nat :| j >= i && r.act(j) == Receive(Packet(w.dst, w.src, Ack(k)));
      StaysUnacked(c, r, n, w, k, i, j);
      RunInvAt(c, r, j);
      assert RankOf(c, r.state(j + 1)) == RankOf(c, r.state(n)) == RankOf(c, r.state(j));
      AcksNothing(c, r.state(j), r.state(j + 1), w, k);
    }
  }

  // ------------------------------------------------------------------------------------------
  // The delivery loops become idle

  /** What one step can do to one process. */
  ghost predicate ProcStep(s: State, u: Step, t: State, p: Pid)
    requires p in s.procs && p in t.procs
  {
    || t.procs[p] == s.procs[p]
    || (u.Broadcast? && t.procs[p] == Send(s.procs[p], u.payload).proc)
    || (exists sender, m :: t.procs[p] == Notify(s.procs[p], sender, m).proc)
    || (u.DeliverOne? && u.p == p && u.id in s.procs[p].pending && t.procs[p] == Deliver(s.procs[p], u.id).proc)
  }

  lemma ReceiveProc(s: State, w: Way, b: Body, p: Pid)
    requires w in s.arrivals && Back(w) in s.links && w.dst in s.clock && w.dst in s.procs && p in s.procs
    ensures var t := ReceivePacket(s, w, b);
            p in t.procs && ProcStep(s, Receive(Packet(w.src, w.dst, b)), t, p)
  {
    hide Notify, PutAll, Record;
    if b.Data? {
      assert Notify(s.procs[w.dst], w.src, b.m).proc == Notify(s.procs[w.dst], w.src, b.m).proc;
    }
  }

  lemma StepProc(c: Config, s: State, u: Step, t: State, p: Pid)
    requires Takes(c, s, u, t) && p in s.procs
    ensures p in t.procs && ProcStep(s, u, t, p)
  {
    hide Limit, Pids, Ways, ReceivePacket, Notify, Send, Deliver, PutAll, Record, Clean, DataPackets, AckPackets;
    if u.Receive? {
      ReceiveProc(s, Way(u.pkt.src, u.pkt.dst), u.pkt.body, p);
    }
  }

  lemma NotifyKeeps(p: Proc, sender: Pid, m: Message, id: MsgId)
    requires id in p.pending && Deliverable(p, id)
    ensures var q := Notify(p, sender, m).proc; id in q.pending && Deliverable(q, id)
  {
    var q := Notify(p, sender, m).proc;
    SubsetCount(AckSet(p.acks, id), AckSet(q.acks, id));
  }

  lemma TouchKeeps(p: Proc, x: MsgId, id: MsgId)
    requires id in p.pending && Deliverable(p, id) && !Deliverable(p, x)
    ensures var q := Deliver(p, x).proc; id in q.pending && Deliverable(q, id)
  {
    TouchOnly(p, x);
    assert AckSet(Touch(p, x).acks, id) == AckSet(p.acks, id);
  }

  ghost predicate Ready(s: State, p: Pid, id: MsgId) {
    p in s.procs && id in s.procs[p].pending && Deliverable(s.procs[p], id)
  }

  lemma StepKeepsReady(c: Config, s: State, u: Step, t: State, p: Pid, id: MsgId)
    requires Takes(c, s, u, t) && !u.Broadcast? && Ready(s, p, id)
    requires u.DeliverOne? && u.p in s.procs ==> !Deliverable(s.procs[u.p], u.id)
    ensures Ready(t, p, id)
  {
    hide Takes, Notify, Deliver, Deliverable;
    StepProc(c, s, u, t, p);
    if sender, m :| t.procs[p] == Notify(s.procs[p], sender, m).proc {
      NotifyKeeps(s.procs[p], sender, m, id);
    } else if u.DeliverOne? && u.p == p {
      TouchKeeps(s.procs[p], u.id, id);
    }
  }

  /** In a settled run a deliverable message stays so. */
  lemma {:induction false} StaysReady(c: Config, r: Run, n: nat, p: Pid, id: MsgId, i: nat, j: nat)
    requires IsRun(c, r) && Silent(r, n) && Settled(c, r, n) && n <= i <= j && Ready(r.state(i), p, id)
    ensures Ready(r.state(j), p, id)
    decreases j - i
  {
    hide IsRun, Inv, Takes, RankOf, Ready;
    if i < j {
      StaysReady(c, r, n, p, id, i, j - 1);
      var s, u, t := r.state(j - 1), r.act(j - 1), r.state(j);
      RunInvAt(c, r, j - 1);
      assert RankOf(c, t) == RankOf(c, r.state(n)) == RankOf(c, s);
      if u.DeliverOne? {
        DeliversNothing(c, s, t, u.p, u.id);
      }
      StepKeepsReady(c, s, u, t, p, id);
    }
  }

  /** In a settled fair run no delivery loop of a process that is up has anything to deliver. */
  lemma LoopsSettle(c: Config, r: Run, n: nat, i: nat, p: Pid, id: MsgId)
    requires IsRun(c, r) && Fair(c, r) && Silent(r, n) && Settled(c, r, n) && i >= n
    requires p in Pids(c.n) && p !in r.state(i).crashed
    ensures !Ready(r.state(i), p, id)
  {
    hide IsRun, FairLoss, FairLinks, Inv, Takes, RankOf, Deliverable;
    if Ready(r.state(i), p, id) {
      UpLives(c, r, n, i, p);
      assert VisitedFrom(r, p, id, i);
      var j: nat :| j >= i &&
        (r.act(j) == DeliverOne(p, id) || (p in r.state(j).procs && id !in r.state(j).procs[p].pending));
      StaysReady(c, r, n, p, id, i, j);
      RunInvAt(c, r, j);
      assert RankOf(c, r.state(j + 1)) == RankOf(c, r.state(n)) == RankOf(c, r.state(j));
      DeliversNothing(c, r.state(j), r.state(j + 1), p, id);
    }
  }

  // ------------------------------------------------------------------------------------------
  // Liveness

  lemma SettledIsQuiescent(c: Config, r: Run, n: nat, i: nat)
    requires IsRun(c, r) && Fair(c, r) && Silent(r, n) && Settled(c, r, n) && i >= n
    ensures Quiescent(r.state(i))
  {
    hide IsRun, Fair, Settled, Silent, Inv, Deliverable, Limit, Pids, Ways;
    var s := r.state(i);
    RunInvAt(c, r, i);
    Invariants.ShapeOf(c, s);
    forall w | w in s.links && w.src !in s.crashed && w.dst !in s.crashed
      ensures s.links[w].toSend == map[]
    {
      forall k: nat
        ensures k !in s.links[w].toSend
      {
        LinksSettle(c, r, n, i, w, k);
      }
    }
    forall p, id | p in s.procs && p !in s.crashed && id in s.procs[p].pending
      ensures !Deliverable(s.procs[p], id)
    {
      LoopsSettle(c, r, n, i, p, id);
    }
  }

  /** Every fair run with finitely many sends is quiescent from some state on. */
  lemma EventuallyQuiescent(c: Config, r: Run, m: nat) returns (n: nat)
    requires IsRun(c, r) && Fair(c, r) && Silent(r, m)
    ensures n >= m && forall i: nat :: i >= n ==> Quiescent(r.state(i))
  {
    hide IsRun, Fair, Settled, Quiescent;
    n := Settles(c, r, m);
    forall i: nat | i >= n
      ensures Quiescent(r.state(i))
    {
      SettledIsQuiescent(c, r, n, i);
    }
  }

  lemma {:induction false} ReachableAt(c: Config, r: Run, i: nat)
    requires IsRun(c, r)
    ensures Reachable(c, r.state(i))
  {
    hide Reachable, Shape, Enabled, Apply;
    if i > 0 {
      ReachableAt(c, r, i - 1);
      var u := r.act(i - 1);
      assert Takes(c, r.state(i - 1), u, r.state(i));
      ReachableStep(c, r.state(i - 1), u);
    }
  }

  /** Every message of a process that is up, and every message anyone has delivered, is delivered by all that are up. */
  ghost predicate AllDelivered(c: Config, s: State) {
    && (forall p, k: nat :: p in Up(c, s) && p in s.procs && 1 <= k < s.procs[p].next ==>
          DeliveredEverywhere(c, s, MsgId(p, k)))
    && (forall p, id :: p in s.procs && Delivered(s.procs[p], id) ==> DeliveredEverywhere(c, s, id))
  }

  lemma QuiescentDelivered(c: Config, s: State)
    requires Reachable(c, s) && Quiescent(s)
    ensures AllDelivered(c, s)
  {
    hide Reachable, Quiescent, Delivered, Up;
    forall p, k: nat | p in Up(c, s) && p in s.procs && 1 <= k < s.procs[p].next
      ensures DeliveredEverywhere(c, s, MsgId(p, k))
    {
      SentIsDelivered(c, s, p, k);
    }
    forall p, id | p in s.procs && Delivered(s.procs[p], id)
      ensures DeliveredEverywhere(c, s, id)
    {
      forall q | q in Up(c, s)
        ensures q in s.procs && Delivered(s.procs[q], id)
      {
        UniformAgreement(c, s, p, q, id);
      }
    }
  }

  /**
   URB1 and URB4 as they are written: in every fair run with finitely many sends there is a state
   from which on all live processes have delivered whatever a live process sent and whatever any
   process, live or crashed, delivered.
   */
  lemma EventualDelivery(c: Config, r: Run, m: nat) returns (n: nat)
    requires IsRun(c, r) && Fair(c, r) && Silent(r, m)
    ensures n >= m && forall i: nat :: i >= n ==> AllDelivered(c, r.state(i))
  {
    hide IsRun, Fair, Quiescent, AllDelivered;
    n := EventuallyQuiescent(c, r, m);
    forall i: nat | i >= n
      ensures AllDelivered(c, r.state(i))
    {
      ReachableAt(c, r, i);
      QuiescentDelivered(c, r.state(i));
    }
  }

  lemma DeliverKeeps(p: Proc, x: MsgId, id: MsgId)
    requires LocalInv(p) && x in p.pending && Delivered(p, id)
    ensures Delivered(Deliver(p, x).proc, id)
  {
    hide LocalInv, Deliver, Delivered, Known;
    DeliverLocal(p, x);
  }

  lemma OthersKeep(p: Proc, payload: Bytes, sender: Pid, m: Message, id: MsgId)
    requires Delivered(p, id)
    ensures Delivered(Send(p, payload).proc, id) && Delivered(Notify(p, sender, m).proc, id)
  {
  }

  /** What has been delivered stays delivered, so the guarantee covers every earlier delivery. */
  lemma {:induction false} DeliveredStays(c: Config, r: Run, p: Pid, id: MsgId, i: nat, j: nat)
    requires IsRun(c, r) && i <= j && p in r.state(i).procs && Delivered(r.state(i).procs[p], id)
    ensures p in r.state(j).procs && Delivered(r.state(j).procs[p], id)
    decreases j - i
  {
    hide IsRun, Inv, Takes, LocalInv, Delivered, Send, Notify, Deliver;
    if i < j {
      DeliveredStays(c, r, p, id, i, j - 1);
      var s, u, t := r.state(j - 1), r.act(j - 1), r.state(j);
      RunInvAt(c, r, j - 1);
      StepProc(c, s, u, t, p);
      LocalOf(c, s, p);
      if sender, m :| t.procs[p] == Notify(s.procs[p], sender, m).proc {
        OthersKeep(s.procs[p], [], sender, m, id);
      } else if u.Broadcast? {
        OthersKeep(s.procs[p], u.payload, 0, Message(id, []), id);
      } else if u.DeliverOne? && u.p == p && u.id in s.procs[p].pending {
        DeliverKeeps(s.procs[p], u.id, id);
      }
    }
  }

  // ------------------------------------------------------------------------------------------
  // A discipline that suffices for the clean-up

  /** Since acks were last transmitted on the link, no data has arrived on it. */
  ghost predicate CleansAfterAcks(r: Run, i: nat) {
    r.act(i).CleanUp? ==>
      exists j: nat :: j < i && r.act(j) == TransmitAcks(r.act(i).w) && NoData(r, r.act(i).w, j, i)
  }

  ghost predicate NoData(r: Run, v: Way, j: nat, i: nat) {
    forall x: nat :: j < x < i && r.act(x).Receive? && r.act(x).pkt.body.Data? ==>
      r.act(x).pkt.dst != v.src || r.act(x).pkt.src != v.dst
  }

  /** The first transmission of acks after l. */
  lemma {:induction false} FirstAcks(r: Run, v: Way, l: nat, t: nat) returns (f: nat)
    requires l < t && r.act(t) == TransmitAcks(v)
    ensures l < f <= t && r.act(f) == TransmitAcks(v) && forall x: nat :: l < x < f ==> r.act(x) != TransmitAcks(v)
    decreases t
  {
    if x: nat :| l < x < t && r.act(x) == TransmitAcks(v) {
      f := FirstAcks(r, v, l, x);
    } else {
      f := t;
    }
  }

  /** A clean-up after an arrival has a transmission of acks in between. */
  lemma AcksInBetween(r: Run, pkt: Packet, l: nat, x: nat)
    requires pkt.body.Data? && r.act(l) == Receive(pkt) && l < x && CleansAfterAcks(r, x)
    ensures var v := Way(pkt.dst, pkt.src);
            r.act(x) == CleanUp(v) ==> exists j: nat :: l < j < x && r.act(j) == TransmitAcks(v)
  {
    var v := Way(pkt.dst, pkt.src);
    if r.act(x) == CleanUp(v) {
      var j: nat :| j < x && r.act(j) == TransmitAcks(v) && NoData(r, v, j, x);
      assert j > l;
    }
  }

  lemma ArrivalSheltered(r: Run, pkt: Packet, l: nat, t: nat)
    requires pkt.body.Data? && r.act(l) == Receive(pkt) && l < t && r.act(t) == TransmitAcks(Way(pkt.dst, pkt.src))
    requires forall i: nat :: CleansAfterAcks(r, i)
    ensures Sheltered(r, Way(pkt.dst, pkt.src), l)
  {
    hide CleansAfterAcks;
    var v := Way(pkt.dst, pkt.src);
    var f := FirstAcks(r, v, l, t);
    forall x: nat | l < x < f
      ensures r.act(x) != CleanUp(v)
    {
      AcksInBetween(r, pkt, l, x);
    }
  }

  /**
   Cleaning a link up only while no data has arrived since its acks were transmitted, other steps in
   between allowed, is fair when the sending threads are.
   */
  lemma CleaningAfterAcksIsFair(c: Config, r: Run)
    requires IsRun(c, r) && FairLinks(c, r) && forall i: nat :: CleansAfterAcks(r, i)
    ensures FairCleanUp(r)
  {
    hide IsRun, CleansAfterAcks, Lives, Ways;
    forall pkt, i: nat | ArrivesOften(r, pkt) && pkt.body.Data? && Lives(r, pkt.dst)
      ensures ShelteredFrom(r, pkt, i)
    {
      var v := Way(pkt.dst, pkt.src);
      assert TakenFrom(r, Receive(pkt), i);
      var l: nat :| l >= i && r.act(l) == Receive(pkt);
      OverALink(c, r, l, pkt);
      assert TakenFrom(r, TransmitAcks(v), l + 1);
      var t: nat :| t >= l + 1 && r.act(t) == TransmitAcks(v);
      ArrivalSheltered(r, pkt, l, t);
    }
  }

  /** What arrives arrives over a link of the system. */
  lemma OverALink(c: Config, r: Run, l: nat, pkt: Packet)
    requires IsRun(c, r) && r.act(l) == Receive(pkt)
    ensures Way(pkt.dst, pkt.src) in Ways(c.n)
  {
    hide IsRun, Inv, Shape, Apply, Ways;
    RunInvAt(c, r, l);
    LinkExists(c, r.state(l), Way(pkt.src, pkt.dst));
  }
}
