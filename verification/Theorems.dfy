/** The guarantees of the broadcast stack, over every reachable state of the system. */
module Theorems {
  import opened Types
  import opened Windows
  import opened Logs
  import opened Urb
  import opened Links
  import opened System
  import Invariants
  import opened UrbProofs

  function Up(c: Config, s: State): set<Pid> {
    Pids(c.n) - s.crashed
  }

  lemma UpIsMajority(c: Config, s: State)
    requires Shape(c, s)
    ensures 2 * |Up(c, s)| > c.n
  {
    PidsCount(c.n);
    assert Up(c, s) + s.crashed == Pids(c.n);
  }

  // ------------------------------------------------------------------------------------------
  // Parts of the invariant

  lemma LocalOf(c: Config, s: State, p: Pid)
    requires Inv(c, s) && p in s.procs
    ensures LocalInv(s.procs[p])
  {
    hide SentAll, NoCreation, TextsAll, AcksAll, HandedAll, ChannelAll, MajorityAll, LocalInv;
  }

  lemma SentOf(c: Config, s: State, w: Way)
    requires Inv(c, s) && w in s.sent && w.src in s.procs
    ensures SentExact(s.procs[w.src], s.sent[w])
  {
    hide LocalAll, NoCreation, TextsAll, AcksAll, HandedAll, ChannelAll, MajorityAll, SentExact;
  }

  lemma ChannelOf(c: Config, s: State, w: Way)
    requires Inv(c, s) && w in s.links
    ensures Back(w) in s.links && w in s.sent && w in s.arrivals && w.dst in s.clock && w.src in s.procs && w.dst in s.procs
    ensures Channel(c.strong, s, w)
  {
    hide LocalAll, NoCreation, TextsAll, AcksAll, HandedAll, MajorityAll, SentAll, Channel;
  }

  lemma HandedOf(c: Config, s: State, w: Way)
    requires Inv(c, s) && w in s.sent && w in s.arrivals && w.dst in s.procs
    ensures HandedOver(s.procs[w.dst], w.src, s.sent[w], s.arrivals[w])
  {
    hide LocalAll, NoCreation, TextsAll, AcksAll, ChannelAll, MajorityAll, SentAll, HandedOver;
  }

  lemma AcksOf(c: Config, s: State, p: Pid)
    requires Inv(c, s) && p in s.procs
    ensures AcksHold(s.procs, s.procs[p].acks)
  {
    hide LocalAll, NoCreation, TextsAll, HandedAll, ChannelAll, MajorityAll, SentAll, AcksHold;
  }

  lemma CreationOf(c: Config, s: State, p: Pid, id: MsgId)
    requires Inv(c, s) && p in s.procs && Known(s.procs[p], id)
    ensures Cast(s.procs, id)
  {
    hide LocalAll, AcksAll, TextsAll, HandedAll, ChannelAll, MajorityAll, SentAll, Known, Cast;
  }

  lemma OnLinkOf(c: Config, s: State, w: Way, k: nat)
    requires Inv(c, s) && w in s.sent && w.src in s.procs && 1 <= k <= |s.sent[w]|
    ensures Genuine(s.texts, s.sent[w][k - 1]) && Cast(s.procs, s.sent[w][k - 1].id)
  {
    hide LocalAll, AcksAll, HandedAll, ChannelAll, MajorityAll, SentAll, NoCreation, TextsAll, Genuine, Cast, Known;
    Invariants.OnLink(s.procs, s.texts, s.sent, w, k);
  }

  // ------------------------------------------------------------------------------------------
  // Links

  /** Every number a link has given out is still being sent with its payload, or was handed up. */
  lemma LinkConservation(c: Config, s: State, w: Way, k: nat)
    requires Reachable(c, s) && w in s.links && 1 <= k < s.links[w].next
    ensures w in s.sent && w in s.arrivals && k <= |s.sent[w]|
    ensures (k in s.links[w].toSend && s.links[w].toSend[k] == s.sent[w][k - 1]) || Handed(s.arrivals[w], k)
  {
    hide Reachable, Inv, TransitInv, ReceiverInv;
    Invariants.ReachableInv(c, s);
    ChannelOf(c, s, w);
    Conservation(w.src, w.dst, s.links[w], s.links[Back(w)], s.sent[w], s.arrivals[w], s.net,
                 s.clock[w.dst], c.strong, k);
  }

  /**
   A number is handed to the manager a second time only when nine seconds of the receiver's clock
   lie between that hand-over and every earlier arrival, and never in strong mode. Every number
   that arrived was handed over, and acks are only sent for remembered numbers.
   */
  lemma TimedNoDuplication(c: Config, s: State, w: Way)
    requires Reachable(c, s) && w in s.links
    ensures w in s.arrivals && SpacedHandoffs(s.arrivals[w], c.strong)
    ensures forall i :: 0 <= i < |s.arrivals[w]| ==> Handed(s.arrivals[w], s.arrivals[w][i].k)
    ensures s.links[w].acksToSend <= s.links[w].seen.Keys
  {
    hide Reachable, Inv, TransitInv, SenderInv, SeenInv;
    Invariants.ReachableInv(c, s);
    ChannelOf(c, s, w);
    ChannelOf(c, s, Back(w));
  }

  // ------------------------------------------------------------------------------------------
  // Agreement

  lemma IdleMeansArrived(p: Pid, q: Pid, snd: Link, rcv: Link, sent: seq<Message>, arr: seq<Arrival>,
                         net: set<Packet>, now: int, strong: bool, proc: Proc, i: nat)
    requires ChannelInv(p, q, snd, rcv, sent, arr, net, now, strong) && snd.toSend == map[]
    requires HandedOver(proc, p, sent, arr) && i < |sent|
    ensures Absorbed(proc, p, sent[i].id)
  {
    hide SenderInv, ReceiverInv, Absorbed;
    var k: nat := i + 1;
    assert k in snd.toSend || Arrived(arr, k);
    var j :| 0 <= j < |arr| && arr[j].k == k;
  }

  /** At quiescence, what one live process knows has been absorbed from it by every other one. */
  lemma Spread(c: Config, s: State, r: Pid, q: Pid, id: MsgId)
    requires Inv(c, s) && LinksIdle(s)
    requires r in Up(c, s) && q in Up(c, s) && r != q
    ensures r in s.procs && q in s.procs
    ensures Known(s.procs[r], id) ==> Absorbed(s.procs[q], r, id)
  {
    hide Inv, Known, Absorbed, Deliverable, ChannelInv, HandedOver;
    Invariants.ShapeOf(c, s);
    var w := Way(r, q);
    assert w in s.links && s.links[w].toSend == map[];
    if Known(s.procs[r], id) {
      SentOf(c, s, w);
      ChannelOf(c, s, w);
      HandedOf(c, s, w);
      assert Carries(s.sent[w], id);
      var i :| 0 <= i < |s.sent[w]| && s.sent[w][i].id == id;
      IdleMeansArrived(w.src, w.dst, s.links[w], s.links[Back(w)], s.sent[w], s.arrivals[w], s.net,
                       s.clock[w.dst], c.strong, s.procs[q], i);
    }
  }

  lemma AllUpKnow(c: Config, s: State, r: Pid, q: Pid, id: MsgId)
    requires Inv(c, s) && LinksIdle(s)
    requires r in Up(c, s) && q in Up(c, s)
    ensures r in s.procs && q in s.procs
    ensures Known(s.procs[r], id) ==> Known(s.procs[q], id)
  {
    Invariants.ShapeOf(c, s);
    hide Inv, LinksIdle;
    if r != q {
      Spread(c, s, r, q, id);
    }
  }

  lemma PendingPositive(p: Proc, id: MsgId)
    requires LocalInv(p)
    ensures id in p.pending ==> id.num >= 1
  {
    hide ThrottleInv, CouplingInv, LogInv;
  }

  /** An undelivered id that is known to all live processes is acknowledged by all of them. */
  lemma AllUpAck(c: Config, s: State, q: Pid, id: MsgId)
    requires Inv(c, s) && LinksIdle(s) && q in Up(c, s)
    requires forall x :: x in Up(c, s) ==> x in s.procs && Known(s.procs[x], id)
    requires !Delivered(s.procs[q], id)
    ensures MajoritySeen(s.procs[q], id)
  {
    Invariants.ShapeOf(c, s);
    hide Inv, LinksIdle, Known, Delivered;
    var acks := AckSet(s.procs[q].acks, id);
    forall x | x in Up(c, s)
      ensures x in {q} + acks
    {
      if x != q {
        Spread(c, s, x, q, id);
      }
    }
    UpIsMajority(c, s);
    SubsetCount(Up(c, s), {q} + acks);
    assert |{q} + acks| <= 1 + |acks|;
  }

  /** At quiescence, what one live process knows every live process has delivered. */
  lemma AllUpDeliver(c: Config, s: State, r: Pid, q: Pid, id: MsgId)
    requires Inv(c, s) && Quiescent(s)
    requires r in Up(c, s) && q in Up(c, s) && r in s.procs && Known(s.procs[r], id)
    ensures q in s.procs && Delivered(s.procs[q], id)
  {
    Invariants.ShapeOf(c, s);
    hide Inv, LocalInv, MajoritySeen;
    assert LinksIdle(s) && LoopsIdle(s);
    hide LinksIdle;
    forall x | x in Up(c, s)
      ensures x in s.procs && Known(s.procs[x], id)
    {
      AllUpKnow(c, s, r, x, id);
    }
    LocalOf(c, s, q);
    PendingPositive(s.procs[q], id);
    if !Delivered(s.procs[q], id) {
      AllUpAck(c, s, q, id);
      assert false;
    }
  }

  /**
   Uniform agreement: with fewer than half of the processes crashed, at every quiescent state an
   id delivered by any process, crashed or not, is delivered by every process that is up.
   */
  lemma UniformAgreement(c: Config, s: State, p: Pid, q: Pid, id: MsgId)
    requires Reachable(c, s) && Quiescent(s)
    requires p in s.procs && Delivered(s.procs[p], id)
    requires q in Up(c, s)
    ensures q in s.procs && Delivered(s.procs[q], id)
  {
    hide Reachable, Quiescent;
    Invariants.ReachableInv(c, s);
    hide LocalAll, SentAll, NoCreation, TextsAll, AcksAll, HandedAll, ChannelAll, Delivered, Known;
    UpIsMajority(c, s);
    assert Majority(c.n, s.procs, id);
    var r := MajoritiesMeet(c.n, Holders(s.procs, id), Up(c, s));
    AllUpDeliver(c, s, r, q, id);
  }

  // ------------------------------------------------------------------------------------------
  // FIFO

  lemma LocalFacts(c: Config, s: State, p: Pid)
    requires Reachable(c, s) && p in s.procs
    ensures LocalInv(s.procs[p])
  {
    hide Reachable, Inv, LocalInv;
    Invariants.ReachableInv(c, s);
    LocalOf(c, s, p);
  }

  lemma WindowMember(p: Proc, a: Pid, x: nat)
    requires x >= 1
    ensures Contains(At(p.delivered, a), x) <==> Delivered(p, MsgId(a, x))
  {
  }

  lemma DLogIsWindow(p: Proc, a: Pid)
    requires LocalInv(p)
    ensures p.fifo == p.delivered && Tight(At(p.delivered, a))
    ensures DNums(p.log, a) == UpTo(At(p.delivered, a).bottom - 1)
  {
    hide ThrottleInv, TableInv;
  }

  /** Fewer deliveries give a prefix of the author's log; the same deliveries give the same log. */
  lemma DeliveriesOrderLogs(p: Proc, q: Proc, a: Pid)
    requires LocalInv(p) && LocalInv(q)
    requires forall x :: Delivered(p, MsgId(a, x)) ==> Delivered(q, MsgId(a, x))
    ensures DNums(p.log, a) <= DNums(q.log, a)
    ensures (forall x :: Delivered(q, MsgId(a, x)) ==> Delivered(p, MsgId(a, x))) ==>
              DNums(p.log, a) == DNums(q.log, a)
  {
    hide LocalInv, Delivered;
    DLogIsWindow(p, a);
    DLogIsWindow(q, a);
    forall x: nat | x >= 1
      ensures Contains(At(p.delivered, a), x) <==> Delivered(p, MsgId(a, x))
      ensures Contains(At(q.delivered, a), x) <==> Delivered(q, MsgId(a, x))
    {
      WindowMember(p, a, x);
      WindowMember(q, a, x);
    }
    TightUnique(At(p.delivered, a), At(q.delivered, a));
  }

  /**
   FIFO agreement: at quiescence the processes that are up have the same delivery log for every
   author, and the log of every other process is a prefix of it.
   */
  lemma FifoAgreement(c: Config, s: State, p: Pid, q: Pid, a: Pid)
    requires Reachable(c, s) && Quiescent(s)
    requires p in s.procs && q in Up(c, s)
    ensures q in s.procs
    ensures DNums(s.procs[p].log, a) <= DNums(s.procs[q].log, a)
    ensures p !in s.crashed ==> DNums(s.procs[p].log, a) == DNums(s.procs[q].log, a)
  {
    hide Reachable, Quiescent, Inv, Delivered, LocalInv;
    Invariants.ReachableInv(c, s);
    Invariants.ShapeOf(c, s);
    LocalFacts(c, s, p);
    LocalFacts(c, s, q);
    forall x | Delivered(s.procs[p], MsgId(a, x))
      ensures Delivered(s.procs[q], MsgId(a, x))
    {
      UniformAgreement(c, s, p, q, MsgId(a, x));
    }
    if p !in s.crashed {
      forall x | Delivered(s.procs[q], MsgId(a, x))
        ensures Delivered(s.procs[p], MsgId(a, x))
      {
        UniformAgreement(c, s, q, p, MsgId(a, x));
      }
    }
    DeliveriesOrderLogs(s.procs[p], s.procs[q], a);
  }

  /** The FIFO record and the delivered-set record of every author coincide, and are compact. */
  lemma Coupling(c: Config, s: State, p: Pid, a: Pid)
    requires Reachable(c, s) && p in s.procs
    ensures At(s.procs[p].fifo, a) == At(s.procs[p].delivered, a)
    ensures Tight(At(s.procs[p].fifo, a))
    ensures DNums(s.procs[p].log, a) == UpTo(At(s.procs[p].fifo, a).bottom - 1)
  {
    LocalFacts(c, s, p);
    DLogIsWindow(s.procs[p], a);
  }

  // ------------------------------------------------------------------------------------------
  // Validity

  lemma NothingInFlight(p: Proc)
    requires ThrottleInv(p) && TableInv(p)
    requires forall id :: Known(p, id) ==> Delivered(p, id)
    ensures p.inflight == 0 && p.queue == [] && OnNet(p) == p.next - 1
  {
    assert forall k: nat :: 1 <= k <= OnNet(p) ==> Delivered(p, MsgId(p.self, k));
    assert InFlight(p) == {};
  }

  /**
   Validity through the throttle: at quiescence a process that is up has an empty queue, nothing
   in flight, and d-lines for exactly the messages 1..m it ever sent.
   */
  lemma Validity(c: Config, s: State, p: Pid)
    requires Reachable(c, s) && Quiescent(s) && p in Up(c, s)
    ensures p in s.procs && s.procs[p].next >= 1
    ensures s.procs[p].queue == [] && s.procs[p].inflight == 0
    ensures BNums(s.procs[p].log) == UpTo(s.procs[p].next - 1)
    ensures DNums(s.procs[p].log, p) == UpTo(s.procs[p].next - 1)
  {
    hide Reachable, Quiescent, Inv, Known, Delivered;
    Invariants.ReachableInv(c, s);
    Invariants.ShapeOf(c, s);
    var proc := s.procs[p];
    LocalFacts(c, s, p);
    forall id | Known(proc, id)
      ensures Delivered(proc, id)
    {
      AllUpDeliver(c, s, p, p, id);
    }
    NothingInFlight(proc);
    OwnLog(proc);
  }

  lemma OwnLog(p: Proc)
    requires LocalInv(p) && OnNet(p) == p.next - 1
    requires forall id :: Known(p, id) ==> Delivered(p, id)
    ensures DNums(p.log, p.self) == UpTo(p.next - 1)
  {
    DLogIsWindow(p, p.self);
    var w := At(p.delivered, p.self);
    hide CouplingInv, LogInv, TableInv, InFlight;
    forall x: nat | x >= 1
      ensures Contains(w, x) <==> x < p.next
    {
      WindowMember(p, p.self, x);
      assert Known(p, MsgId(p.self, x)) <==> Delivered(p, MsgId(p.self, x));
    }
    assert !Contains(w, w.bottom);
    assert !Contains(w, p.next);
    assert w.bottom > 1 ==> Contains(w, w.bottom - 1);
  }

  // ------------------------------------------------------------------------------------------
  // Certificates and no creation

  /**
   Delivery certificate: when the guard passes, the process and its ack set, which never contains
   the process itself, are a strict majority; each of them has put the id on all its links; and
   some member survives every further crash of fewer than half of the processes.
   */
  lemma DeliveryCertificate(c: Config, s: State, p: Pid, id: MsgId, crashed: set<Pid>) returns (survivor: Pid)
    requires Reachable(c, s) && p in s.procs
    requires id in s.procs[p].pending && Deliverable(s.procs[p], id)
    requires crashed <= Pids(c.n) && 2 * |crashed| < c.n
    ensures var acks := AckSet(s.procs[p].acks, id);
            && p !in acks
            && 2 * |{p} + acks| > c.n
            && (forall w :: w in s.sent && w.src in {p} + acks ==> Carries(s.sent[w], id))
            && survivor in {p} + acks && survivor !in crashed
  {
    hide Reachable, Inv, Known, Delivered, Carries, AckSet, ThrottleInv, LogInv, CouplingInv;
    Invariants.ReachableInv(c, s);
    Invariants.ShapeOf(c, s);
    LocalFacts(c, s, p);
    AcksOf(c, s, p);
    var acks := AckSet(s.procs[p].acks, id);
    Invariants.Certificate(c.n, s.procs, p, id);
    assert |{p} + acks| == 1 + |acks|;
    forall w | w in s.sent && w.src in {p} + acks
      ensures Carries(s.sent[w], id)
    {
      assert w.src in Holders(s.procs, id);
      SentOf(c, s, w);
    }
    survivor := Survivor(c.n, {p} + acks, crashed);
  }

  lemma Survivor(n: nat, m: set<Pid>, crashed: set<Pid>) returns (p: Pid)
    requires m <= Pids(n) && 2 * |m| > n
    requires crashed <= Pids(n) && 2 * |crashed| < n
    ensures p in m && p !in crashed
  {
    PidsCount(n);
    assert crashed + (Pids(n) - crashed) == Pids(n);
    p := MajoritiesMeet(n, m, Pids(n) - crashed);
  }

  /** No creation: a delivered id was put by its author on the network, on every link it has. */
  lemma NoCreationAnywhere(c: Config, s: State, p: Pid, id: MsgId)
    requires Reachable(c, s) && p in s.procs && Delivered(s.procs[p], id)
    ensures Cast(s.procs, id)
    ensures forall w :: w in s.sent && w.src == id.author ==> Carries(s.sent[w], id)
  {
    hide Reachable, Inv, Carries, LocalInv;
    Invariants.ReachableInv(c, s);
    Invariants.ShapeOf(c, s);
    assert Known(s.procs[p], id);
    CreationOf(c, s, p, id);
    LocalOf(c, s, id.author);
    OwnKnown(s.procs[id.author], id.num);
    hide Known, Delivered;
    forall w | w in s.sent && w.src == id.author
      ensures Carries(s.sent[w], id)
    {
      SentOf(c, s, w);
      assert id == MsgId(id.author, id.num);
    }
  }

  lemma OwnKnown(p: Proc, k: nat)
    requires LocalInv(p) && 1 <= k <= OnNet(p)
    ensures Known(p, MsgId(p.self, k))
  {
    hide TableInv, LogInv, CouplingInv;
  }

  /** Every data packet carries the id and the payload of a message its author put on the network. */
  lemma PacketsAreGenuine(c: Config, s: State, pkt: Packet)
    requires Reachable(c, s) && pkt in s.net && pkt.body.Data? && Way(pkt.src, pkt.dst) in s.links
    ensures Genuine(s.texts, pkt.body.m) && Cast(s.procs, pkt.body.m.id)
    ensures var w := Way(pkt.src, pkt.dst);
            w in s.sent && 1 <= pkt.body.k <= |s.sent[w]| && s.sent[w][pkt.body.k - 1] == pkt.body.m
  {
    hide Reachable, Inv, SenderInv, ReceiverInv, Genuine, Cast;
    Invariants.ReachableInv(c, s);
    var w := Way(pkt.src, pkt.dst);
    ChannelOf(c, s, w);
    assert Packet(w.src, w.dst, Data(pkt.body.k, pkt.body.m)) in s.net;
    OnLinkOf(c, s, w, pkt.body.k);
  }

  /** No number appears twice among the d-lines of an author, and none is skipped. */
  lemma NoDuplication(c: Config, s: State, p: Pid, a: Pid, i: nat, j: nat)
    requires Reachable(c, s) && p in s.procs && i < j < |DNums(s.procs[p].log, a)|
    ensures DNums(s.procs[p].log, a)[i] != DNums(s.procs[p].log, a)[j]
    ensures DNums(s.procs[p].log, a)[i] == i + 1
  {
    Coupling(c, s, p, a);
  }

  // ------------------------------------------------------------------------------------------
  // Throttle

  /**
   Throttle conservation: on every link of p the own ids are exactly 1..k, the queue is exactly
   k+1..next-1 in order, the counter is the number of own ids on the network that are not
   delivered, it stays within the limit, and a non-empty queue keeps it there.
   */
  lemma ThrottleConservation(c: Config, s: State, p: Pid)
    requires Reachable(c, s) && p in s.procs
    ensures var proc := s.procs[p];
            var k := OnNet(proc);
            && 0 <= k
            && (forall w, x: nat :: w in s.sent && w.src == p ==>
                  (Carries(s.sent[w], MsgId(p, x)) <==> 1 <= x <= k))
            && k + |proc.queue| == proc.next - 1
            && (forall i :: 0 <= i < |proc.queue| ==> proc.queue[i].id == MsgId(p, k + 1 + i))
            && proc.inflight == |set x | 1 <= x <= k && !Delivered(proc, MsgId(p, x)) :: x|
            && proc.inflight <= proc.limit == Limit(c.n)
            && (proc.queue != [] ==> proc.inflight == proc.limit)
  {
    hide Reachable, Inv, TableInv, LogInv, CouplingInv, Limit;
    Invariants.ReachableInv(c, s);
    Invariants.ShapeOf(c, s);
    var proc := s.procs[p];
    LocalOf(c, s, p);
    forall w, x: nat | w in s.sent && w.src == p
      ensures Carries(s.sent[w], MsgId(p, x)) <==> 1 <= x <= OnNet(proc)
    {
      SentOf(c, s, w);
      assert Known(proc, MsgId(p, x)) <==> Carries(s.sent[w], MsgId(p, x));
    }
    assert InFlight(proc) == set x | 1 <= x <= OnNet(proc) && !Delivered(proc, MsgId(p, x)) :: x;
  }

  // ------------------------------------------------------------------------------------------
  // Cost

  /** The positions, over all links, at which an id was put. */
  ghost function LinkSends(s: State, id: MsgId): set<(Way, nat)> {
    set w, i | w in s.sent && 0 <= i < |s.sent[w]| && s.sent[w][i].id == id :: (w, i)
  }

  lemma {:induction false} OnePerWay(sends: set<(Way, nat)>, ways: set<Way>)
    requires forall x :: x in sends ==> x.0 in ways
    requires forall x, y :: x in sends && y in sends && x.0 == y.0 ==> x == y
    ensures |sends| <= |ways|
    decreases |ways|
  {
    if sends != {} {
      var x :| x in sends;
      OnePerWay(sends - {x}, ways - {x.0});
    }
  }

  function WaysOut(p: Pid, qs: set<Pid>): set<Way> {
    set q | q in qs :: Way(p, q)
  }

  function WaysFrom(n: nat, ps: set<Pid>): set<Way> {
    set w | w in Ways(n) && w.src in ps
  }

  lemma {:induction false} WaysFromCount(n: nat, ps: set<Pid>)
    requires ps <= Pids(n)
    ensures |WaysFrom(n, ps)| == |ps| * (n - 1)
    decreases |ps|
  {
    if ps == {} {
      assert WaysFrom(n, ps) == {};
    } else {
      hide Pids, Ways, WaysFrom;
      var p :| p in ps;
      WaysFromStep(n, ps, p);
      WaysFromCount(n, ps - {p});
      OneMore(|ps - {p}|, n - 1);
    }
  }

  lemma WaysFromStep(n: nat, ps: set<Pid>, p: Pid)
    requires p in ps && p in Pids(n)
    ensures |WaysFrom(n, ps)| == n - 1 + |WaysFrom(n, ps - {p})|
  {
    hide Pids, Ways, WaysFrom, WaysOut;
    WaysSplit(n, ps, p);
    WaysOutCount(p, Pids(n) - {p});
    PidsCount(n);
  }

  lemma OneMore(a: nat, b: int)
    ensures (a + 1) * b == a * b + b
  {
  }

  lemma WaysSplit(n: nat, ps: set<Pid>, p: Pid)
    requires p in ps && p in Pids(n)
    ensures WaysFrom(n, ps) == WaysOut(p, Pids(n) - {p}) + WaysFrom(n, ps - {p})
    ensures WaysOut(p, Pids(n) - {p}) !! WaysFrom(n, ps - {p})
  {
    hide Pids, Ways;
    forall w: Way
      ensures w in WaysFrom(n, ps) <==> w in WaysOut(p, Pids(n) - {p}) || w in WaysFrom(n, ps - {p})
    {
      assert w.src == p && w.dst in Pids(n) - {p} ==> w == Way(p, w.dst);
    }
  }

  lemma {:induction false} WaysOutCount(p: Pid, qs: set<Pid>)
    ensures |WaysOut(p, qs)| == |qs|
    decreases |qs|
  {
    if qs == {} {
      assert WaysOut(p, qs) == {};
    } else {
      var q :| q in qs;
      WaysOutCount(p, qs - {q});
      assert WaysOut(p, qs) == WaysOut(p, qs - {q}) + {Way(p, q)};
    }
  }

  lemma AtMostOnePerLink(c: Config, s: State, id: MsgId)
    requires s.sent.Keys == Ways(c.n) && forall w :: w in s.sent ==> Once(s.sent[w])
    ensures |LinkSends(s, id)| <= c.n * (c.n - 1)
  {
    hide LinkSends, Ways, Pids, Once;
    OneSendPerWay(s, id);
    OnePerWay(LinkSends(s, id), s.sent.Keys);
    WaysCount(c.n);
  }

  lemma WaysCount(n: nat)
    ensures |Ways(n)| == n * (n - 1)
  {
    hide Pids, Ways;
    assert Ways(n) == WaysFrom(n, Pids(n));
    WaysFromCount(n, Pids(n));
    PidsCount(n);
  }

  lemma OneSendPerWay(s: State, id: MsgId)
    requires forall w :: w in s.sent ==> Once(s.sent[w])
    ensures forall x :: x in LinkSends(s, id) ==> x.0 in s.sent.Keys
    ensures forall x, y :: x in LinkSends(s, id) && y in LinkSends(s, id) && x.0 == y.0 ==> x == y
  {
    forall x, y | x in LinkSends(s, id) && y in LinkSends(s, id) && x.0 == y.0
      ensures x == y
    {
      assert Once(s.sent[x.0]);
    }
  }

  /**
   Relay at most once: no process puts an id on the same link twice, however often links redeliver,
   so one broadcast costs at most n(n-1) link sends.
   */
  lemma RelayAtMostOnce(c: Config, s: State, id: MsgId)
    requires Reachable(c, s)
    ensures forall w :: w in s.sent ==> Once(s.sent[w])
    ensures |LinkSends(s, id)| <= c.n * (c.n - 1)
  {
    hide Reachable, Inv, Known, Limit;
    Invariants.ReachableInv(c, s);
    Invariants.ShapeOf(c, s);
    forall w | w in s.sent
      ensures Once(s.sent[w])
    {
      SentOf(c, s, w);
    }
    AtMostOnePerLink(c, s, id);
  }

  /** The ids the authors have put on the network. */
  ghost function CastIds(procs: map<Pid, Proc>): set<MsgId> {
    set a, k | a in procs && 1 <= k <= OnNet(procs[a]) :: MsgId(a, k)
  }

  lemma {:induction false} DistinctCount(ms: seq<Message>, ids: set<MsgId>)
    requires Once(ms) && forall i :: 0 <= i < |ms| ==> ms[i].id in ids
    ensures |ms| <= |ids|
  {
    if ms != [] {
      var k := |ms| - 1;
      DistinctCount(ms[..k], ids - {ms[k].id});
    }
  }

  /** A link counter never runs ahead of the number of messages put on the network. */
  lemma LinkCounterBound(c: Config, s: State, w: Way)
    requires Reachable(c, s) && w in s.links
    ensures s.links[w].next <= |CastIds(s.procs)| + 1
  {
    hide Reachable, Inv, TransitInv, ReceiverInv, Known;
    Invariants.ReachableInv(c, s);
    ChannelOf(c, s, w);
    SentOf(c, s, w);
    forall i | 0 <= i < |s.sent[w]|
      ensures s.sent[w][i].id in CastIds(s.procs)
    {
      OnLinkOf(c, s, w, i + 1);
    }
    DistinctCount(s.sent[w], CastIds(s.procs));
  }

  function TotalInFlight(procs: map<Pid, Proc>, n: nat): nat
    requires forall p :: 1 <= p <= n ==> p in procs
  {
    if n == 0 then 0 else TotalInFlight(procs, n - 1) + procs[n].inflight
  }

  lemma {:induction false} TotalBound(procs: map<Pid, Proc>, n: nat, limit: nat)
    requires forall p :: 1 <= p <= n ==> p in procs && procs[p].inflight <= limit
    ensures TotalInFlight(procs, n) <= n * limit
  {
    if n > 0 {
      TotalBound(procs, n - 1, limit);
      assert procs[n].inflight <= limit;
      assert n * limit == (n - 1) * limit + limit;
    }
  }

  lemma Scale(k: nat, a: nat, b: nat)
    requires a <= b
    ensures k * a <= k * b
  {
  }

  /** The allowance keeps n processes with n copies each within the budget. */
  lemma LimitBudget(n: nat, total: nat)
    requires n >= 1 && total <= n * Limit(n)
    ensures n * total <= 32768 || n * total <= n * n
  {
    hide Limit;
    Scale(n, total, n * Limit(n));
    AllowanceIsLargest(n);
    assert n * (n * Limit(n)) == n * n * Limit(n);
  }

  /** Network budget: n times the messages in flight stays within max(2^15, n^2). */
  lemma NetworkBudget(c: Config, s: State)
    requires Reachable(c, s)
    ensures forall p :: 1 <= p <= c.n ==> p in s.procs
    ensures c.n * TotalInFlight(s.procs, c.n) <= 32768
         || c.n * TotalInFlight(s.procs, c.n) <= c.n * c.n
    ensures c.n <= 128 ==> c.n * TotalInFlight(s.procs, c.n) <= 32768
  {
    hide Reachable, Inv, Limit;
    Invariants.ReachableInv(c, s);
    Invariants.ShapeOf(c, s);
    forall p | 1 <= p <= c.n
      ensures p in s.procs && s.procs[p].inflight <= Limit(c.n)
    {
      assert p in Pids(c.n);
      ThrottleConservation(c, s, p);
    }
    TotalBound(s.procs, c.n, Limit(c.n));
    LimitBudget(c.n, TotalInFlight(s.procs, c.n));
    if c.n <= 128 {
      Scale(c.n, c.n, 128);
    }
  }
}
