/**
 Eventual delivery, message by message, in fair runs that may go on sending for ever. The clean-up of
 the links plays no part: retransmission that may lose packets but not for ever, and delivery loops
 that keep visiting their pending ids, are enough.
 */
module Eventually {
  import opened Types
  import opened Urb
  import opened UrbProofs
  import opened Links
  import opened System
  import Invariants
  import opened Theorems
  import opened Progress
  import opened Liveness

  /** The part of fairness that delivery needs. */
  ghost predicate FairEnough(c: Config, r: Run) {
    FairLoss(r) && FairLinks(c, r) && FairDelivery(c, r)
  }

  ghost predicate Member(c: Config, r: Run, p: Pid) {
    p in Pids(c.n) && Lives(r, p)
  }

  ghost predicate KnownAt(r: Run, p: Pid, id: MsgId, i: nat) {
    p in r.state(i).procs && Known(r.state(i).procs[p], id)
  }

  ghost predicate AbsorbedAt(r: Run, q: Pid, p: Pid, id: MsgId, i: nat) {
    q in r.state(i).procs && Absorbed(r.state(i).procs[q], p, id)
  }

  ghost predicate DeliveredAt(r: Run, p: Pid, id: MsgId, i: nat) {
    p in r.state(i).procs && Delivered(r.state(i).procs[p], id)
  }

  // ------------------------------------------------------------------------------------------
  // What stays

  lemma SendStays(p: Proc, payload: Bytes, sender: Pid, id: MsgId)
    ensures var q := Send(p, payload).proc;
            && (Known(p, id) ==> Known(q, id)) && (Absorbed(p, sender, id) ==> Absorbed(q, sender, id))
  {
  }

  lemma NotifyStays(p: Proc, from: Pid, m: Message, sender: Pid, id: MsgId)
    ensures var q := Notify(p, from, m).proc;
            && (Known(p, id) ==> Known(q, id)) && (Absorbed(p, sender, id) ==> Absorbed(q, sender, id))
  {
  }

  lemma DeliverStays(p: Proc, x: MsgId, sender: Pid, id: MsgId)
    requires LocalInv(p) && x in p.pending
    ensures var q := Deliver(p, x).proc;
            && (Known(p, id) ==> Known(q, id)) && (Absorbed(p, sender, id) ==> Absorbed(q, sender, id))
  {
    hide ThrottleInv, CouplingInv, LogInv, Deliver, Known, Absorbed;
    DeliverLocal(p, x);
    if Absorbed(p, sender, id) {
      Invariants.DeliverAbsorbs(p, x, sender, id);
    }
  }

  lemma StepStays(c: Config, s: State, u: Step, t: State, p: Pid, sender: Pid, id: MsgId)
    requires Inv(c, s) && Takes(c, s, u, t) && p in s.procs
    ensures p in t.procs
    ensures Known(s.procs[p], id) ==> Known(t.procs[p], id)
    ensures Absorbed(s.procs[p], sender, id) ==> Absorbed(t.procs[p], sender, id)
  {
    hide Inv, Takes, LocalInv, Known, Absorbed, Send, Notify, Deliver;
    StepProc(c, s, u, t, p);
    LocalOf(c, s, p);
    if from, m :| t.procs[p] == Notify(s.procs[p], from, m).proc {
      NotifyStays(s.procs[p], from, m, sender, id);
    } else if u.Broadcast? {
      SendStays(s.procs[p], u.payload, sender, id);
    } else if u.DeliverOne? && u.p == p && u.id in s.procs[p].pending {
      DeliverStays(s.procs[p], u.id, sender, id);
    }
  }

  /** What a process knows, and what it has absorbed from another, it keeps. */
  lemma {:induction false} Stays(c: Config, r: Run, p: Pid, sender: Pid, id: MsgId, i: nat, j: nat)
    requires IsRun(c, r) && i <= j
    ensures KnownAt(r, p, id, i) ==> KnownAt(r, p, id, j)
    ensures AbsorbedAt(r, p, sender, id, i) ==> AbsorbedAt(r, p, sender, id, j)
    decreases j - i
  {
    hide IsRun, Inv, Takes, Known, Absorbed;
    if i < j {
      Stays(c, r, p, sender, id, i, j - 1);
      RunInvAt(c, r, j - 1);
      if p in r.state(j - 1).procs {
        StepStays(c, r.state(j - 1), r.act(j - 1), r.state(j), p, sender, id);
      }
    }
  }

  lemma MemberExists(c: Config, r: Run, p: Pid, i: nat)
    requires IsRun(c, r)
    ensures p in r.state(i).procs <==> p in Pids(c.n)
  {
    hide IsRun, Inv, Limit, Pids, Ways;
    RunInvAt(c, r, i);
    Invariants.ShapeOf(c, r.state(i));
  }

  // ------------------------------------------------------------------------------------------
  // From one process to another

  /** The k-th message of a link carries the id, now and later. */
  ghost predicate OnLink(s: State, w: Way, k: nat, id: MsgId) {
    w in s.sent && 1 <= k <= |s.sent[w]| && s.sent[w][k - 1].id == id
  }

  lemma StepSent(c: Config, s: State, u: Step, t: State, w: Way)
    requires Takes(c, s, u, t) && w in s.sent
    ensures w in t.sent && s.sent[w] <= t.sent[w]
  {
    hide Shape, PutAll, Clean, OnData, OnAck, Notify, Send, Deliver, DataPackets, AckPackets;
  }

  lemma {:induction false} StaysOnLink(c: Config, r: Run, w: Way, k: nat, id: MsgId, i: nat, j: nat)
    requires IsRun(c, r) && i <= j && OnLink(r.state(i), w, k, id)
    ensures OnLink(r.state(j), w, k, id)
    decreases j - i
  {
    hide IsRun, Inv, Takes;
    if i < j {
      StaysOnLink(c, r, w, k, id, i, j - 1);
      RunInvAt(c, r, j - 1);
      StepSent(c, r.state(j - 1), r.act(j - 1), r.state(j), w);
    }
  }

  lemma ArrivedIsHanded(p: Proc, sender: Pid, sent: seq<Message>, arr: seq<Arrival>, k: nat)
    requires HandedOver(p, sender, sent, arr) && Arrived(arr, k) && 1 <= k <= |sent|
    ensures Absorbed(p, sender, sent[k - 1].id)
  {
    hide Absorbed;
  }

  lemma SeenIsArrived(seen: map<nat, int>, acks: set<nat>, arr: seq<Arrival>, now: int, strong: bool, k: nat)
    requires ReceiverInv(seen, acks, arr, now, strong) && k in acks
    ensures Arrived(arr, k)
  {
    assert Handed(arr, k);
  }

  /** A message that is not, or no longer, to be sent, or that waits to be acknowledged, was absorbed. */
  lemma ArrivedIsAbsorbed(c: Config, s: State, w: Way, k: nat, id: MsgId)
    requires Inv(c, s) && w in s.links && Back(w) in s.links && OnLink(s, w, k, id)
    requires k !in s.links[w].toSend || k in s.links[Back(w)].acksToSend
    ensures w.dst in s.procs && Absorbed(s.procs[w.dst], w.src, id)
  {
    hide Inv, ReceiverInv, SenderInv, HandedOver, Absorbed, Arrived;
    ChannelOf(c, s, w);
    HandedOf(c, s, w);
    if k in s.links[Back(w)].acksToSend {
      SeenIsArrived(s.links[Back(w)].seen, s.links[Back(w)].acksToSend, s.arrivals[w], s.clock[w.dst], c.strong, k);
    }
    ArrivedIsHanded(s.procs[w.dst], w.src, s.sent[w], s.arrivals[w], k);
  }

  lemma KnownOnLink(c: Config, s: State, w: Way, id: MsgId) returns (k: nat)
    requires Inv(c, s) && w in s.links && w.src in s.procs && Known(s.procs[w.src], id)
    ensures OnLink(s, w, k, id)
  {
    hide Inv, Known;
    ChannelOf(c, s, w);
    SentOf(c, s, w);
    assert Carries(s.sent[w], id);
    var i :| 0 <= i < |s.sent[w]| && s.sent[w][i].id == id;
    k := i + 1;
  }

  /** While a message stays on the list of a link, its payload does too. */
  lemma {:induction false} SamePayload(c: Config, r: Run, w: Way, k: nat, i: nat, j: nat)
    requires IsRun(c, r) && i <= j && w in r.state(i).links
    requires forall x: nat :: x >= i && w in r.state(x).links ==> k in r.state(x).links[w].toSend
    ensures w in r.state(j).links && k in r.state(j).links[w].toSend
    ensures r.state(j).links[w].toSend[k] == r.state(i).links[w].toSend[k]
    decreases j - i
  {
    hide IsRun, Inv, Takes;
    if i < j {
      SamePayload(c, r, w, k, i, j - 1);
      RunInvAt(c, r, j - 1);
      StepLink(c, r.state(j - 1), r.act(j - 1), r.state(j), w);
      KeptPayload(c, r.state(j - 1), r.act(j - 1), r.state(j), w, k);
    }
  }

  /** A number that is still on the list after a step has the payload it had. */
  lemma KeptPayload(c: Config, s: State, u: Step, t: State, w: Way, k: nat)
    requires Inv(c, s) && Takes(c, s, u, t) && w in s.links && k in s.links[w].toSend
    requires w in t.links && k in t.links[w].toSend
    ensures t.links[w].toSend[k] == s.links[w].toSend[k]
  {
    hide Inv, Shape, Apply, ReceiverInv, TransitInv;
    ChannelOf(c, s, w);
    Invariants.StepInv(c, s, u);
    ChannelOf(c, t, w);
    StepSent(c, s, u, t, w);
  }

  /** A number that stays on the list of a live process for a live process arrives. */
  lemma StaysSoArrives(c: Config, r: Run, w: Way, k: nat, i: nat) returns (l: nat)
    requires IsRun(c, r) && FairEnough(c, r) && w in Ways(c.n) && Lives(r, w.src) && Lives(r, w.dst)
    requires w in r.state(i).links
    requires forall x: nat :: x >= i && w in r.state(x).links ==> k in r.state(x).links[w].toSend
    ensures l >= i && r.act(l).Receive? && exists m :: r.act(l).pkt == Packet(w.src, w.dst, Data(k, m))
  {
    hide IsRun, Sends, FairDelivery, Ways, Lives;
    var m := r.state(i).links[w].toSend[k];
    var pkt := Packet(w.src, w.dst, Data(k, m));
    forall x: nat
      ensures SentFrom(r, pkt, x)
    {
      var from := if x < i then i else x;
      assert TakenFrom(r, Retransmit(w), from);
      var j: nat :| j >= from && r.act(j) == Retransmit(w);
      SamePayload(c, r, w, k, i, j);
      RetransmitSends(r.state(j), w, k);
    }
    assert TakenFrom(r, Receive(pkt), i);
    l :| l >= i && r.act(l) == Receive(pkt);
  }

  /** What one live process knows, every other live process absorbs from it. */
  lemma Spreads(c: Config, r: Run, p: Pid, q: Pid, id: MsgId, i: nat) returns (j: nat)
    requires IsRun(c, r) && FairEnough(c, r) && Member(c, r, p) && Member(c, r, q) && p != q && KnownAt(r, p, id, i)
    ensures j >= i && AbsorbedAt(r, q, p, id, j)
  {
    hide IsRun, FairEnough, Inv, Takes, Known, Absorbed, Lives, Shape, Pids;
    var w := Way(p, q);
    RunInvAt(c, r, i);
    LinkExists(c, r.state(i), w);
    var k := KnownOnLink(c, r.state(i), w, id);
    if x: nat :| x >= i && w in r.state(x).links && k !in r.state(x).links[w].toSend {
      j := x;
    } else {
      var l := StaysSoArrives(c, r, w, k, i);
      RunInvAt(c, r, l);
      LinkExists(c, r.state(l), Back(w));
      StepLink(c, r.state(l), r.act(l), r.state(l + 1), Back(w));
      j := l + 1;
    }
    StaysOnLink(c, r, w, k, id, i, j);
    RunInvAt(c, r, j);
    LinkExists(c, r.state(j), w);
    LinkExists(c, r.state(j), Back(w));
    ArrivedIsAbsorbed(c, r.state(j), w, k, id);
  }

  // ------------------------------------------------------------------------------------------
  // From one process to all

  lemma AbsorbedIsKnown(p: Proc, sender: Pid, id: MsgId)
    requires Absorbed(p, sender, id)
    ensures Known(p, id)
  {
  }

  /** What one live process knows, all of the given live processes come to know. */
  lemma {:induction false} AllLearn(c: Config, r: Run, p: Pid, id: MsgId, i: nat, xs: set<Pid>) returns (j: nat)
    requires IsRun(c, r) && FairEnough(c, r) && Member(c, r, p) && KnownAt(r, p, id, i)
    requires forall x :: x in xs ==> Member(c, r, x)
    ensures j >= i && forall x :: x in xs ==> KnownAt(r, x, id, j)
  {
    hide IsRun, FairEnough, Known, Absorbed, Member;
    j := i;
    if xs != {} {
      var x :| x in xs;
      var before := AllLearn(c, r, p, id, i, xs - {x});
      Stays(c, r, p, p, id, i, before);
      j := before;
      if x != p {
        j := Spreads(c, r, p, x, id, before);
        AbsorbedIsKnown(r.state(j).procs[x], p, id);
      }
      forall y | y in xs - {x}
        ensures KnownAt(r, y, id, j)
      {
        Stays(c, r, y, p, id, before, j);
      }
    }
  }

  /** What all of the given live processes know, one live process absorbs from each of them. */
  lemma {:induction false} AllAbsorbed(c: Config, r: Run, q: Pid, id: MsgId, i: nat, xs: set<Pid>) returns (j: nat)
    requires IsRun(c, r) && FairEnough(c, r) && Member(c, r, q) && q !in xs
    requires forall x :: x in xs ==> Member(c, r, x) && KnownAt(r, x, id, i)
    ensures j >= i && forall x :: x in xs ==> AbsorbedAt(r, q, x, id, j)
  {
    hide IsRun, FairEnough, Known, Absorbed, Member;
    j := i;
    if xs != {} {
      var x :| x in xs;
      var before := AllAbsorbed(c, r, q, id, i, xs - {x});
      Stays(c, r, x, x, id, i, before);
      j := Spreads(c, r, x, q, id, before);
      forall y | y in xs - {x}
        ensures AbsorbedAt(r, q, y, id, j)
      {
        Stays(c, r, q, y, id, before, j);
      }
    }
  }

  // ------------------------------------------------------------------------------------------
  // The live processes are a majority

  ghost function Alive(c: Config, r: Run): set<Pid> {
    set p | p in Pids(c.n) && Lives(r, p)
  }

  /** From some state on no process crashes. */
  lemma {:induction false} CrashesEnd(c: Config, r: Run, m: nat) returns (n: nat)
    requires IsRun(c, r)
    ensures n >= m && forall j: nat :: j >= n ==> r.state(j).crashed == r.state(n).crashed
    decreases |Up(c, r.state(m))|
  {
    hide IsRun, Inv, Limit, Ways, Pids;
    if j: nat :| j >= m && r.state(j).crashed != r.state(m).crashed {
      CrashedGrowsTo(c, r, m, j);
      RunInvAt(c, r, j);
      Invariants.ShapeOf(c, r.state(j));
      var p :| p in r.state(j).crashed && p !in r.state(m).crashed;
      ProperCount(Up(c, r.state(j)), Up(c, r.state(m)), p);
      n := CrashesEnd(c, r, j);
    } else {
      n := m;
    }
  }

  lemma AliveIsMajority(c: Config, r: Run)
    requires IsRun(c, r)
    ensures 2 * |Alive(c, r)| > c.n && Alive(c, r) <= Pids(c.n)
  {
    hide IsRun, Inv, Limit, Ways, Pids;
    var n := CrashesEnd(c, r, 0);
    RunInvAt(c, r, n);
    Invariants.ShapeOf(c, r.state(n));
    forall p | p in Up(c, r.state(n))
      ensures p in Alive(c, r)
    {
      forall i: nat
        ensures p !in r.state(i).crashed
      {
        if i <= n {
          CrashedGrowsTo(c, r, i, n);
        }
      }
    }
    UpIsMajority(c, r.state(n));
    SubsetCount(Up(c, r.state(n)), Alive(c, r));
  }

  // ------------------------------------------------------------------------------------------
  // Delivery

  /** Everything a majority owes has been absorbed: the guard passes, or the id is delivered. */
  lemma MajorityAbsorbed(c: Config, s: State, q: Pid, id: MsgId, all: set<Pid>)
    requires Shape(c, s) && q in s.procs && 2 * |all| > c.n && all <= Pids(c.n)
    requires forall x :: x in all && x != q ==> Absorbed(s.procs[q], x, id)
    requires !Delivered(s.procs[q], id)
    ensures MajoritySeen(s.procs[q], id)
  {
    hide Limit, Pids, Ways, Delivered, AckSet;
    var acks := AckSet(s.procs[q].acks, id);
    SubsetCount(all, {q} + acks);
    assert |{q} + acks| <= 1 + |acks|;
  }

  lemma DeliveredNow(c: Config, s: State, t: State, q: Pid, id: MsgId)
    requires Inv(c, s) && Takes(c, s, DeliverOne(q, id), t) && q in s.procs && Deliverable(s.procs[q], id)
    requires id.num >= 1
    ensures q in t.procs && Delivered(t.procs[q], id)
  {
    hide Inv, Shape, Deliver, PutAll, Record, InsertId;
    DeliverShape(s.procs[q], id);
    NowIn(s.procs[q].delivered, id);
  }

  lemma NowIn(d: map<Pid, Windows.Window>, id: MsgId)
    requires id.num >= 1
    ensures Has(InsertId(d, id), id)
  {
    HasInsert(d, id, id);
  }

  lemma KnownCases(c: Config, s: State, q: Pid, id: MsgId)
    requires Inv(c, s) && q in s.procs && Known(s.procs[q], id)
    ensures id.num >= 1 && (id in s.procs[q].pending || Delivered(s.procs[q], id))
    ensures !Delivered(s.procs[q], id) ==> !Has(s.procs[q].delivered, id)
  {
    hide Inv, LocalInv;
    LocalOf(c, s, q);
    Invariants.KnownPositive(s.procs[q], id);
  }

  /** A live process that has absorbed an id from all others delivers it. */
  lemma Delivers(c: Config, r: Run, q: Pid, id: MsgId, i: nat) returns (j: nat)
    requires IsRun(c, r) && FairEnough(c, r) && Member(c, r, q) && KnownAt(r, q, id, i)
    requires forall x :: x in Alive(c, r) && x != q ==> AbsorbedAt(r, q, x, id, i)
    ensures j >= i && DeliveredAt(r, q, id, j)
  {
    hide IsRun, Inv, FairLoss, FairLinks, Known, Absorbed, Delivered, Takes, Lives, Alive, Deliverable;
    assert VisitedFrom(r, q, id, i);
    var l: nat :| l >= i &&
      (r.act(l) == DeliverOne(q, id) || (q in r.state(l).procs && id !in r.state(l).procs[q].pending));
    var s := r.state(l);
    RunInvAt(c, r, l);
    Stays(c, r, q, q, id, i, l);
    KnownCases(c, s, q, id);
    if Delivered(s.procs[q], id) {
      j := l;
    } else {
      NowDeliverable(c, r, q, id, i, l);
      DeliveredNow(c, s, r.state(l + 1), q, id);
      j := l + 1;
    }
  }

  /** What was absorbed from all live processes stays deliverable until it is delivered. */
  lemma NowDeliverable(c: Config, r: Run, q: Pid, id: MsgId, i: nat, l: nat)
    requires IsRun(c, r) && i <= l && KnownAt(r, q, id, i)
    requires forall x :: x in Alive(c, r) && x != q ==> AbsorbedAt(r, q, x, id, i)
    ensures q in r.state(l).procs
    ensures !Delivered(r.state(l).procs[q], id) ==> Deliverable(r.state(l).procs[q], id)
  {
    hide IsRun, Inv, Known, Absorbed, Delivered, Lives, Alive, Shape, MajoritySeen, Has;
    var s := r.state(l);
    RunInvAt(c, r, l);
    Stays(c, r, q, q, id, i, l);
    KnownCases(c, s, q, id);
    if !Delivered(s.procs[q], id) {
      forall x | x in Alive(c, r) && x != q
        ensures Absorbed(s.procs[q], x, id)
      {
        Stays(c, r, q, x, id, i, l);
        assert AbsorbedAt(r, q, x, id, l);
      }
      AliveIsMajority(c, r);
      Invariants.ShapeOf(c, s);
      MajorityAbsorbed(c, s, q, id, Alive(c, r));
    }
  }

  /** What one live process knows every live process delivers. */
  lemma KnownIsDelivered(c: Config, r: Run, p: Pid, q: Pid, id: MsgId, i: nat) returns (j: nat)
    requires IsRun(c, r) && FairEnough(c, r) && Member(c, r, p) && Member(c, r, q) && KnownAt(r, p, id, i)
    ensures j >= i && DeliveredAt(r, q, id, j)
  {
    hide IsRun, FairEnough, Known, Absorbed, Delivered, Lives, Pids;
    var all := Alive(c, r);
    assert forall x :: x in all ==> Member(c, r, x);
    var k := AllLearn(c, r, p, id, i, all);
    j := AllAbsorbed(c, r, q, id, k, all - {q});
    Stays(c, r, q, q, id, k, j);
    j := Delivers(c, r, q, id, j);
  }

  /**
   URB4 for every message, in fair runs with any number of sends: what any process delivers, crashed
   later or not, every live process delivers.
   */
  lemma EveryDeliveryIsShared(c: Config, r: Run, p: Pid, q: Pid, id: MsgId, i: nat) returns (j: nat)
    requires IsRun(c, r) && FairEnough(c, r) && Member(c, r, q) && DeliveredAt(r, p, id, i)
    ensures j >= i && DeliveredAt(r, q, id, j)
  {
    hide IsRun, FairEnough, Inv, Delivered, Known, Lives, Pids;
    RunInvAt(c, r, i);
    HoldersOf(c, r.state(i), p, id);
    AliveIsMajority(c, r);
    var holder := MajoritiesMeet(c.n, Holders(r.state(i).procs, id), Alive(c, r));
    j := KnownIsDelivered(c, r, holder, q, id, i);
  }

  lemma HoldersOf(c: Config, s: State, p: Pid, id: MsgId)
    requires Inv(c, s) && p in s.procs && Delivered(s.procs[p], id)
    ensures 2 * |Holders(s.procs, id)| > c.n && Holders(s.procs, id) <= Pids(c.n)
  {
    hide LocalAll, SentAll, NoCreation, TextsAll, AcksAll, HandedAll, ChannelAll, Delivered, Known, Limit, Pids, Ways;
    assert Majority(c.n, s.procs, id);
  }

  // ------------------------------------------------------------------------------------------
  // Through the throttle

  /** With the same messages on the network and a non-empty queue, nothing own was delivered in between. */
  lemma QueueWaits(p: Proc, q: Proc, k: nat)
    requires ThrottleInv(p) && ThrottleInv(q) && p.self == q.self && p.limit == q.limit
    requires OnNet(p) == OnNet(q) && p.queue != [] && q.queue != []
    requires forall id :: Delivered(p, id) ==> Delivered(q, id)
    requires 1 <= k <= OnNet(p) && !Delivered(p, MsgId(p.self, k))
    ensures !Delivered(q, MsgId(p.self, k))
  {
    if Delivered(q, MsgId(p.self, k)) {
      forall x | x in InFlight(q)
        ensures x in InFlight(p)
      {
        assert !Delivered(q, MsgId(p.self, x));
        assert !Delivered(p, MsgId(p.self, x));
      }
      assert k in InFlight(p) && k !in InFlight(q);
      ProperCount(InFlight(q), InFlight(p), k);
      assert false;
    }
  }

  /** A non-empty queue has an own message in flight. */
  lemma SomeInFlight(p: Proc) returns (k: nat)
    requires ThrottleInv(p) && p.queue != []
    ensures 1 <= k <= OnNet(p) && !Delivered(p, MsgId(p.self, k)) && Known(p, MsgId(p.self, k))
  {
    assert InFlight(p) != {};
    k :| k in InFlight(p);
  }

  lemma OwnShape(c: Config, s: State, p: Pid)
    requires Inv(c, s) && p in s.procs
    ensures s.procs[p].self == p && s.procs[p].limit == Limit(c.n) && ThrottleInv(s.procs[p])
  {
    hide Inv, ThrottleInv, TableInv, CouplingInv, LogInv, Limit, Ways, Pids;
    Invariants.ShapeOf(c, s);
    LocalOf(c, s, p);
  }

  lemma EffectNext(p: Proc, payload: Bytes, sender: Pid, m: Message)
    ensures Send(p, payload).proc.next >= p.next && Notify(p, sender, m).proc.next == p.next
    ensures OnNet(Send(p, payload).proc) >= OnNet(p) && OnNet(Notify(p, sender, m).proc) == OnNet(p)
  {
  }

  lemma DeliverNext(p: Proc, x: MsgId)
    ensures Deliver(p, x).proc.next == p.next && OnNet(Deliver(p, x).proc) >= OnNet(p)
  {
    hide Deliver, DLines, Windows.Arrive, InsertId, Deliverable;
    if Deliverable(p, x) {
      DeliverShape(p, x);
    } else {
      TouchOnly(p, x);
    }
  }

  /** Along a run the messages sent, and those past the queue, only grow in number. */
  lemma {:induction false} NumbersGrow(c: Config, r: Run, p: Pid, i: nat, j: nat)
    requires IsRun(c, r) && i <= j && p in r.state(i).procs
    ensures p in r.state(j).procs
    ensures r.state(i).procs[p].next <= r.state(j).procs[p].next
    ensures OnNet(r.state(i).procs[p]) <= OnNet(r.state(j).procs[p])
    decreases j - i
  {
    hide IsRun, Inv, Takes, OnNet, Send, Notify, Deliver;
    if i < j {
      NumbersGrow(c, r, p, i, j - 1);
      var s, u, t := r.state(j - 1), r.act(j - 1), r.state(j);
      RunInvAt(c, r, j - 1);
      StepProc(c, s, u, t, p);
      if from, m :| t.procs[p] == Notify(s.procs[p], from, m).proc {
        EffectNext(s.procs[p], [], from, m);
      } else if u.Broadcast? {
        EffectNext(s.procs[p], u.payload, 0, Message(MsgId(0, 0), []));
      } else if u.DeliverOne? {
        DeliverNext(s.procs[p], u.id);
      }
    }
  }

  /** While messages are queued, one more leaves the queue. */
  lemma QueueMoves(c: Config, r: Run, p: Pid, i: nat) returns (j: nat)
    requires IsRun(c, r) && FairEnough(c, r) && Member(c, r, p) && p in r.state(i).procs && r.state(i).procs[p].queue != []
    ensures j >= i && p in r.state(j).procs && OnNet(r.state(j).procs[p]) > OnNet(r.state(i).procs[p])
  {
    hide IsRun, FairEnough, Inv, Member, Known, Delivered, ThrottleInv, Limit;
    RunInvAt(c, r, i);
    OwnShape(c, r.state(i), p);
    var before := r.state(i).procs[p];
    var k := SomeInFlight(before);
    j := KnownIsDelivered(c, r, p, p, MsgId(p, k), i);
    NumbersGrow(c, r, p, i, j);
    RunInvAt(c, r, j);
    OwnShape(c, r.state(j), p);
    var after := r.state(j).procs[p];
    if OnNet(after) == OnNet(before) {
      forall id | Delivered(before, id)
        ensures Delivered(after, id)
      {
        DeliveredStays(c, r, p, id, i, j);
      }
      QueueWaits(before, after, k);
      assert false;
    }
  }

  /** Every message a live process sends leaves its queue. */
  lemma {:induction false} LeavesQueue(c: Config, r: Run, p: Pid, k: nat, i: nat) returns (j: nat)
    requires IsRun(c, r) && FairEnough(c, r) && Member(c, r, p) && p in r.state(i).procs && 1 <= k < r.state(i).procs[p].next
    ensures j >= i && p in r.state(j).procs && k <= OnNet(r.state(j).procs[p])
    decreases k - OnNet(r.state(i).procs[p])
  {
    hide IsRun, FairEnough, Member;
    if k <= OnNet(r.state(i).procs[p]) {
      j := i;
    } else {
      var m := QueueMoves(c, r, p, i);
      NumbersGrow(c, r, p, i, m);
      if k <= OnNet(r.state(m).procs[p]) {
        j := m;
      } else {
        j := LeavesQueue(c, r, p, k, m);
      }
    }
  }

  /**
   URB1 for every message, in fair runs with any number of sends: whatever a live process sends leaves
   its queue and is delivered by every live process, itself among them.
   */
  lemma EverySendIsDelivered(c: Config, r: Run, p: Pid, q: Pid, k: nat, i: nat) returns (j: nat)
    requires IsRun(c, r) && FairEnough(c, r) && Member(c, r, p) && Member(c, r, q)
    requires p in r.state(i).procs && 1 <= k < r.state(i).procs[p].next
    ensures j >= i && DeliveredAt(r, q, MsgId(p, k), j)
  {
    hide IsRun, FairEnough, Member, Inv, LocalInv, Known, Delivered, ThrottleInv;
    var m := LeavesQueue(c, r, p, k, i);
    RunInvAt(c, r, m);
    LocalOf(c, r.state(m), p);
    OwnShape(c, r.state(m), p);
    OwnKnown(r.state(m).procs[p], k);
    j := KnownIsDelivered(c, r, p, q, MsgId(p, k), m);
  }
}
