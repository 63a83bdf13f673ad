/**
 The system with bytes on the network. Every transmission puts serialized datagrams on the wire,
 and every receive parses what comes off it, through a receive buffer of fixed size. As long as no
 counter wraps and texts are at most one byte long, a run of this system is a run of the system of
 module System, so everything proved there holds here.
 */
module Wire {
  import opened Types
  import opened Urb
  import opened Links
  import opened System
  import opened Codec
  import opened RunLemmas
  import Invariants
  import Theorems

  datatype Datagram = Datagram(src: Pid, dst: Pid, bytes: Bytes)

  /** `core.net` is history here: no step of this system reads it. */
  datatype WireState = WireState(core: State, wire: set<Datagram>)

  datatype WireStep = Inner(t: Step) | Carry(d: Datagram)

  function EncodeBody(b: Body): Bytes {
    match b
    case Data(k, m) => LinkSerialize(k, BroadcastSerialize(m))
    case Ack(k) => AckSerialize(k)
  }

  function Encode(p: Packet): Datagram {
    Datagram(p.src, p.dst, EncodeBody(p.body))
  }

  function EncodeAll(net: set<Packet>): set<Datagram> {
    set p | p in net :: Encode(p)
  }

  /** What a receive into a fixed-size buffer returns. */
  function Received(bytes: Bytes): Bytes {
    if |bytes| > MAX_DATAGRAM then bytes[..MAX_DATAGRAM] else bytes
  }

  /** `PerfectLink::Notify` on raw bytes: parse, then dispatch; what does not parse is dropped. */
  function OnDatagram(s: State, w: Way, bytes: Bytes): State
    requires w in s.arrivals && Back(w) in s.links && w.dst in s.clock && w.dst in s.procs
  {
    match LinkParse(bytes)
    case None => s
    case Some(AckOf(k)) => ReceiveAck(s, w, k)
    case Some(Msg(k, payload)) =>
      match BroadcastParse(payload)
      case None => Arrive(s, w, k)
      case Some(m) => ReceiveData(s, w, k, m)
  }

  ghost predicate WireEnabled(c: Config, ws: WireState, t: WireStep)
    requires Shape(c, ws.core)
  {
    match t
    case Inner(u) => !u.Receive? && Enabled(c, ws.core, u)
    case Carry(d) => d in ws.wire && Way(d.src, d.dst) in ws.core.links && d.dst !in ws.core.crashed
  }

  function WireApply(c: Config, ws: WireState, t: WireStep): WireState
    requires Shape(c, ws.core) && WireEnabled(c, ws, t)
  {
    match t
    case Inner(u) =>
      var added := match u
        case Retransmit(w) => EncodeAll(DataPackets(w, ws.core.links[w]))
        case TransmitAcks(w) => EncodeAll(AckPackets(w, ws.core.links[w]))
        case _ => {};
      WireState(Apply(c, ws.core, u), ws.wire + added)
    case Carry(d) => ws.(core := OnDatagram(ws.core, Way(d.src, d.dst), Received(d.bytes)))
  }

  /** No counter has wrapped and every text fits the buffers. */
  ghost predicate Fits(c: Config, s: State) {
    && c.n < TWO32
    && (forall w :: w in s.links ==> s.links[w].next <= TWO32)
    && (forall p :: p in s.procs ==> s.procs[p].next <= TWO32)
    && (forall p, i :: p in s.texts && 0 <= i < |s.texts[p]| ==> |s.texts[p][i]| <= 1)
  }

  ghost predicate WireTakes(c: Config, ws: WireState, t: WireStep, wt: WireState) {
    Shape(c, ws.core) && Fits(c, ws.core) && WireEnabled(c, ws, t) && wt == WireApply(c, ws, t)
  }

  ghost predicate WireTrace(c: Config, states: seq<WireState>, steps: seq<WireStep>) {
    && |states| == |steps| + 1
    && (forall i {:trigger steps[i]} :: 0 <= i < |steps| ==> WireTakes(c, states[i], steps[i], states[i + 1]))
  }

  ghost predicate WireRuns(c: Config, ws: WireState, steps: seq<WireStep>, wt: WireState) {
    exists states :: WireTrace(c, states, steps) && states[0] == ws && states[|steps|] == wt
  }

  // ------------------------------------------------------------------------------------------
  // Packets in range

  ghost predicate InRange(b: Body) {
    && b.k < TWO32
    && (b.Data? ==> b.m.id.author < TWO32 && b.m.id.num < TWO32 && |b.m.payload| <= 1)
  }

  /** A packet in range survives serialization, the receive buffer, and both parsers. */
  lemma SurvivesWire(s: State, w: Way, b: Body)
    requires w in s.arrivals && Back(w) in s.links && w.dst in s.clock && w.dst in s.procs
    requires InRange(b)
    ensures OnDatagram(s, w, Received(EncodeBody(b))) == ReceivePacket(s, w, b)
  {
    hide ReceiveData, ReceiveAck, Arrive, LinkSerialize, AckSerialize, BroadcastSerialize, LinkParse, BroadcastParse;
    match b
    case Data(k, m) => NestedRoundTrip(k, m);
    case Ack(k) => NestedRoundTrip(k, Message(MsgId(0, 0), []));
  }

  /**
   Whatever bytes arrive: too short or of an unknown kind, they change nothing; of message kind, they are
   acknowledged and remembered; a process changes only when both headers are there.
   */
  lemma AnyDatagram(s: State, w: Way, bytes: Bytes)
    requires w in s.arrivals && Back(w) in s.links && w.dst in s.clock && w.dst in s.procs
    ensures |bytes| < 5 || bytes[0] > 1 ==> OnDatagram(s, w, bytes) == s
    ensures |bytes| < 13 || bytes[0] != 1 ==> OnDatagram(s, w, bytes).procs == s.procs
    ensures |bytes| >= 5 && bytes[0] == 1 ==>
              var t := OnDatagram(s, w, bytes);
              exists k :: k < 0x1_0000_0000 && DigitsAt(bytes, 1, k) && Back(w) in t.links
                       && k in t.links[Back(w)].acksToSend && k in t.links[Back(w)].seen
                       && t.links[Back(w)].seen[k] == s.clock[w.dst]
  {
    hide Notify, PutAll, Record, Get32, DigitsAt, ReceiveData, Arrive;
    ParseLayout(bytes);
    if |bytes| >= 5 {
      ParseLayout(bytes[5..]);
      if bytes[0] == 1 {
        var k := LinkParse(bytes).value.k;
        var m := BroadcastParse(bytes[5..]);
        ArrivesDated(s, w, k, if m.Some? then m.value else Message(MsgId(0, 0), []));
        assert DigitsAt(bytes, 1, k);
      }
    }
  }

  /** An arrival is acknowledged and dated, whether or not the manager is told. */
  lemma ArrivesDated(s: State, w: Way, k: nat, m: Message)
    requires w in s.arrivals && Back(w) in s.links && w.dst in s.clock && w.dst in s.procs
    ensures Arrive(s, w, k).procs == s.procs
    ensures forall t :: t == Arrive(s, w, k) || t == ReceiveData(s, w, k, m) ==>
              && Back(w) in t.links && k in t.links[Back(w)].acksToSend && k in t.links[Back(w)].seen
              && t.links[Back(w)].seen[k] == s.clock[w.dst]
  {
    hide Notify, Record;
  }

  /** A receive returns the first 14 bytes, so a longer text arrives as its first byte. */
  lemma LongTextIsCut(s: State, w: Way, k: nat, m: Message)
    requires w in s.arrivals && Back(w) in s.links && w.dst in s.clock && w.dst in s.procs
    requires InRange(Ack(k)) && m.id.author < TWO32 && m.id.num < TWO32 && |m.payload| > 1
    ensures OnDatagram(s, w, Received(EncodeBody(Data(k, m)))) == ReceiveData(s, w, k, m.(payload := m.payload[..1]))
  {
    hide Put32, Get32, ReceiveData, ReceiveAck, Arrive, LinkParse, BroadcastParse;
    var cut := m.(payload := m.payload[..1]);
    assert Received(EncodeBody(Data(k, m))) == EncodeBody(Data(k, cut));
    SurvivesWire(s, w, Data(k, cut));
  }

  lemma DataInRange(c: Config, s: State, pkt: Packet)
    requires Reachable(c, s) && Shape(c, s) && Fits(c, s)
    requires pkt in s.net && pkt.body.Data? && Way(pkt.src, pkt.dst) in s.links
    ensures InRange(pkt.body)
  {
    hide Reachable, Limit, Ways;
    Theorems.PacketsAreGenuine(c, s, pkt);
    SentBelowNext(c, s, Way(pkt.src, pkt.dst));
    var m := pkt.body.m;
    assert m.id.author in Pids(c.n);
    assert |s.texts[m.id.author][m.id.num - 1]| <= 1;
  }

  lemma SentBelowNext(c: Config, s: State, w: Way)
    requires Reachable(c, s) && w in s.links
    ensures w in s.sent && s.links[w].next == |s.sent[w]| + 1
  {
    hide Reachable, Inv, ReceiverInv, TransitInv;
    Invariants.ReachableInv(c, s);
    Theorems.ChannelOf(c, s, w);
  }

  lemma AckBelowNext(c: Config, s: State, w: Way, k: nat)
    requires Reachable(c, s) && w in s.links && Back(w) in s.links && Packet(w.dst, w.src, Ack(k)) in s.net
    ensures k < s.links[w].next
  {
    hide Reachable, Inv, ReceiverInv;
    Invariants.ReachableInv(c, s);
    Theorems.ChannelOf(c, s, w);
    assert Arrived(s.arrivals[w], k);
  }

  lemma PacketInRange(c: Config, s: State, pkt: Packet)
    requires Reachable(c, s) && Shape(c, s) && Fits(c, s)
    requires pkt in s.net && Way(pkt.src, pkt.dst) in s.links
    ensures InRange(pkt.body)
  {
    hide Reachable, Limit, Ways;
    match pkt.body
    case Data(_, _) => DataInRange(c, s, pkt);
    case Ack(k) =>
      var w := Way(pkt.dst, pkt.src);
      assert pkt == Packet(w.dst, w.src, Ack(k));
      AckBelowNext(c, s, w, k);
  }

  // ------------------------------------------------------------------------------------------
  // Refinement

  lemma WireStepRefines(c: Config, ws: WireState, t: WireStep)
    requires Reachable(c, ws.core) && ws.wire == EncodeAll(ws.core.net)
    requires Shape(c, ws.core) && Fits(c, ws.core) && WireEnabled(c, ws, t)
    ensures Reachable(c, WireApply(c, ws, t).core)
    ensures WireApply(c, ws, t).wire == EncodeAll(WireApply(c, ws, t).core.net)
  {
    match t
    case Inner(u) => InnerRefines(c, ws, u);
    case Carry(d) => CarryRefines(c, ws, d);
  }

  lemma InnerNet(c: Config, s: State, u: Step)
    requires Shape(c, s) && Enabled(c, s, u) && !u.Receive?
    ensures Apply(c, s, u).net == s.net +
              (match u
               case Retransmit(w) => DataPackets(w, s.links[w])
               case TransmitAcks(w) => AckPackets(w, s.links[w])
               case _ => {})
  {
    hide Shape, Enabled, Send, Deliver, Clean, PutAll, Record, DataPackets, AckPackets, ReceivePacket;
  }

  lemma EncodeUnion(a: set<Packet>, b: set<Packet>)
    ensures EncodeAll(a + b) == EncodeAll(a) + EncodeAll(b)
  {
    hide Encode;
  }

  lemma InnerRefines(c: Config, ws: WireState, u: Step)
    requires Reachable(c, ws.core) && ws.wire == EncodeAll(ws.core.net)
    requires Shape(c, ws.core) && WireEnabled(c, ws, Inner(u))
    ensures var r := WireApply(c, ws, Inner(u));
            Reachable(c, r.core) && r.wire == EncodeAll(r.core.net)
  {
    hide Reachable, Shape, Apply, Encode, DataPackets, AckPackets;
    ReachableStep(c, ws.core, u);
    InnerNet(c, ws.core, u);
    match u
    case Retransmit(w) => EncodeUnion(ws.core.net, DataPackets(w, ws.core.links[w]));
    case TransmitAcks(w) => EncodeUnion(ws.core.net, AckPackets(w, ws.core.links[w]));
    case _ => EncodeUnion(ws.core.net, {});
  }

  lemma ReceiveKeepsNet(c: Config, s: State, w: Way, b: Body)
    requires w in s.arrivals && Back(w) in s.links && w.dst in s.clock && w.dst in s.procs
    ensures ReceivePacket(s, w, b).net == s.net
  {
    hide PutAll, Record, Notify, OnData, OnAck;
  }

  lemma CarryRefines(c: Config, ws: WireState, d: Datagram)
    requires Reachable(c, ws.core) && ws.wire == EncodeAll(ws.core.net)
    requires Shape(c, ws.core) && Fits(c, ws.core) && WireEnabled(c, ws, Carry(d))
    ensures var r := WireApply(c, ws, Carry(d));
            Reachable(c, r.core) && r.wire == EncodeAll(r.core.net)
  {
    hide Reachable, Limit, Ways, Pids, Fits, EncodeBody, OnDatagram, ReceivePacket, Received;
    var pkt :| pkt in ws.core.net && Encode(pkt) == d;
    var w := Way(d.src, d.dst);
    PacketInRange(c, ws.core, pkt);
    SurvivesWire(ws.core, w, pkt.body);
    ReachableStep(c, ws.core, Receive(pkt));
    ReceiveKeepsNet(c, ws.core, w, pkt.body);
  }

  lemma {:induction false} WireTraceRefines(c: Config, states: seq<WireState>, steps: seq<WireStep>, i: nat)
    requires WireTrace(c, states, steps) && i <= |steps|
    requires Reachable(c, states[0].core) && states[0].wire == EncodeAll(states[0].core.net)
    ensures Reachable(c, states[i].core) && states[i].wire == EncodeAll(states[i].core.net)
  {
    hide Reachable, Shape, Fits, WireApply, EncodeAll, WireEnabled;
    if i > 0 {
      WireTraceRefines(c, states, steps, i - 1);
      WireStepRefines(c, states[i - 1], steps[i - 1]);
    }
  }

  /** Every in-range run over bytes reaches a state the packet-level system reaches. */
  lemma WireRefinesSystem(c: Config, steps: seq<WireStep>, wt: WireState)
    requires c.n >= 1 && WireRuns(c, WireState(Init(c), {}), steps, wt)
    ensures Reachable(c, wt.core) && wt.wire == EncodeAll(wt.core.net)
  {
    hide Init, Runs, WireTakes;
    var ws := WireState(Init(c), {});
    var states :| WireTrace(c, states, steps) && states[0] == ws && states[|steps|] == wt;
    RunsNothing(c, Init(c));
    InitNet(c);
    WireTraceRefines(c, states, steps, |steps|);
  }

  /** The step over bytes that does what a step over packets does. */
  function OnWire(u: Step): WireStep {
    if u.Receive? then Carry(Encode(u.pkt)) else Inner(u)
  }

  lemma StepOnWire(c: Config, s: State, u: Step)
    requires Reachable(c, s) && Shape(c, s) && Fits(c, s) && Enabled(c, s, u)
    ensures WireTakes(c, WireState(s, EncodeAll(s.net)), OnWire(u),
                      WireState(Apply(c, s, u), EncodeAll(Apply(c, s, u).net)))
  {
    hide Reachable, Fits, Limit, Ways, Pids, EncodeBody, OnDatagram, ReceivePacket, Received;
    hide Install, Send, Deliver, Clean, DataPackets, AckPackets;
    var ws := WireState(s, EncodeAll(s.net));
    match u
    case Receive(pkt) =>
      var w := Way(pkt.src, pkt.dst);
      PacketInRange(c, s, pkt);
      SurvivesWire(s, w, pkt.body);
      ReceiveKeepsNet(c, s, w, pkt.body);
    case _ =>
      InnerRefines(c, ws, u);
  }

  /**
   Conversely every run over packets whose states are in range is a run over bytes: the two systems
   reach the same states.
   */
  lemma {:induction false} SystemRunsOnWire(c: Config, states: seq<State>, steps: seq<Step>, i: nat)
    returns (wsteps: seq<WireStep>, wt: WireState)
    requires c.n >= 1 && Trace(c, states, steps) && states[0] == Init(c) && i <= |steps|
    requires forall j :: 0 <= j < i ==> Fits(c, states[j])
    ensures WireRuns(c, WireState(Init(c), {}), wsteps, wt)
    ensures wt == WireState(states[i], EncodeAll(states[i].net)) && Reachable(c, states[i])
  {
    hide Reachable, Shape, Enabled, Apply, Fits, WireTakes, EncodeAll, Init, Runs;
    if i == 0 {
      wsteps, wt := [], WireState(Init(c), {});
      InitNet(c);
      assert WireTrace(c, [wt], []);
      StartReachable(c);
    } else {
      var before, ws := SystemRunsOnWire(c, states, steps, i - 1);
      assert Takes(c, states[i - 1], steps[i - 1], states[i]);
      StepOnWire(c, states[i - 1], steps[i - 1]);
      ReachableStep(c, states[i - 1], steps[i - 1]);
      wsteps, wt := before + [OnWire(steps[i - 1])], WireState(states[i], EncodeAll(states[i].net));
      WireSnoc(c, WireState(Init(c), {}), before, ws, OnWire(steps[i - 1]), wt);
    }
  }

  lemma WireSnoc(c: Config, ws: WireState, steps: seq<WireStep>, wm: WireState, t: WireStep, wt: WireState)
    requires WireRuns(c, ws, steps, wm) && WireTakes(c, wm, t, wt)
    ensures WireRuns(c, ws, steps + [t], wt)
  {
    hide WireTakes;
    var states :| WireTrace(c, states, steps) && states[0] == ws && states[|steps|] == wm;
    var more := states + [wt];
    forall i | 0 <= i < |steps + [t]|
      ensures WireTakes(c, more[i], (steps + [t])[i], more[i + 1])
    {
      if i < |steps| {
        assert steps[i] == (steps + [t])[i];
      }
    }
    assert WireTrace(c, more, steps + [t]);
  }

  lemma InitNet(c: Config)
    requires c.n >= 1
    ensures Init(c).net == {} && EncodeAll(Init(c).net) == {}
  {
  }

  /** The numbers 1..m of each of the authors 1..n. */
  function Grid(n: nat, m: nat): set<MsgId> {
    set a, k | a in Pids(n) && 1 <= k <= m :: MsgId(a, k)
  }

  function Column(a: Pid, m: nat): set<MsgId> {
    set k | 1 <= k <= m :: MsgId(a, k)
  }

  lemma {:induction false} ColumnCount(a: Pid, m: nat)
    ensures |Column(a, m)| == m
  {
    if m == 0 {
      assert Column(a, 0) == {};
    } else {
      ColumnCount(a, m - 1);
      assert Column(a, m) == Column(a, m - 1) + {MsgId(a, m)};
    }
  }

  lemma {:induction false} GridCount(n: nat, m: nat)
    ensures |Grid(n, m)| == n * m
  {
    if n == 0 {
      assert Grid(0, m) == {};
    } else {
      GridCount(n - 1, m);
      ColumnCount(n, m);
      assert Grid(n, m) == Grid(n - 1, m) + Column(n, m);
      assert n * m == (n - 1) * m + m;
    }
  }

  lemma CastInGrid(c: Config, s: State, m: nat)
    requires Shape(c, s) && forall p :: p in s.procs ==> s.procs[p].next <= m + 1
    ensures |Theorems.CastIds(s.procs)| <= c.n * m
  {
    hide Limit, Ways, Pids;
    assert Theorems.CastIds(s.procs) <= Grid(c.n, m);
    SubsetCount(Theorems.CastIds(s.procs), Grid(c.n, m));
    GridCount(c.n, m);
  }

  /**
   A bound that the senders can check: when no process has sent more than m messages and n * m is
   below 2^32, no counter has wrapped, on any link.
   */
  lemma FitsFromCounts(c: Config, s: State, m: nat)
    requires Reachable(c, s) && c.n < TWO32 && c.n * m < TWO32
    requires forall p :: p in s.procs ==> s.procs[p].next <= m + 1
    requires forall p, i :: p in s.texts && 0 <= i < |s.texts[p]| ==> |s.texts[p][i]| <= 1
    ensures Fits(c, s)
  {
    hide Reachable, Inv, Shape, Theorems.CastIds;
    Invariants.ReachableInv(c, s);
    Invariants.ShapeOf(c, s);
    CastInGrid(c, s, m);
    OneOfMany(c, m);
    forall w | w in s.links
      ensures s.links[w].next <= TWO32
    {
      Theorems.LinkCounterBound(c, s, w);
    }
  }

  lemma OneOfMany(c: Config, m: nat)
    ensures c.n >= 1 ==> m <= c.n * m
  {
  }

  /** On the wire: every datagram of a live pair parses back to a genuine packet and fits the buffer. */
  lemma WireIsGenuine(c: Config, steps: seq<WireStep>, wt: WireState, d: Datagram) returns (pkt: Packet)
    requires c.n >= 1 && WireRuns(c, WireState(Init(c), {}), steps, wt)
    requires Fits(c, wt.core)
    requires d in wt.wire && Way(d.src, d.dst) in wt.core.links
    ensures pkt.src == d.src && pkt.dst == d.dst && |d.bytes| <= MAX_DATAGRAM
    ensures pkt.body.Ack? ==> LinkParse(d.bytes) == Some(AckOf(pkt.body.k))
    ensures pkt.body.Data? ==>
              && LinkParse(d.bytes) == Some(Msg(pkt.body.k, BroadcastSerialize(pkt.body.m)))
              && BroadcastParse(BroadcastSerialize(pkt.body.m)) == Some(pkt.body.m)
              && Genuine(wt.core.texts, pkt.body.m) && Cast(wt.core.procs, pkt.body.m.id)
  {
    hide WireRuns, Init, Reachable, Inv, Shape, Fits;
    hide LinkParse, BroadcastParse, LinkSerialize, BroadcastSerialize, AckSerialize, Genuine, Cast;
    WireRefinesSystem(c, steps, wt);
    Invariants.ReachableInv(c, wt.core);
    Invariants.ShapeOf(c, wt.core);
    pkt :| pkt in wt.core.net && Encode(pkt) == d;
    PacketInRange(c, wt.core, pkt);
    match pkt.body {
      case Data(k, m) =>
        NestedRoundTrip(k, m);
        LinkRoundTrip(k, BroadcastSerialize(m));
        BroadcastRoundTrip(m);
        Theorems.PacketsAreGenuine(c, wt.core, pkt);
      case Ack(k) =>
        NestedRoundTrip(k, Message(MsgId(0, 0), []));
    }
  }
}
