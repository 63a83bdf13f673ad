/**
 The whole system: n processes, one link object per ordered pair, and a network that may drop,
 duplicate and reorder packets. Sent packets stay in `net` for ever, so a receive step may take
 any of them at any time and any number of times, or never.
 */
module System {
  import opened Types
  import opened Urb
  import opened Links

  datatype Config = Config(n: nat, strong: bool)

  /** An ordered pair of different processes. */
  datatype Way = Way(src: Pid, dst: Pid)

  function Back(w: Way): Way {
    Way(w.dst, w.src)
  }

  function Ways(n: nat): (ws: set<Way>)
    ensures forall w :: w in ws <==> w.src in Pids(n) && w.dst in Pids(n) && w.src != w.dst
  {
    set p, q | p in Pids(n) && q in Pids(n) && p != q :: Way(p, q)
  }

  datatype State = State(
    procs: map<Pid, Proc>,
    links: map<Way, Link>,              // links[Way(p, q)] is the link object at p towards q
    net: set<Packet>,
    clock: map<Pid, int>,
    crashed: set<Pid>,
    // Histories, read by no operation:
    texts: map<Pid, seq<Bytes>>,        // payloads passed to the application send of a process
    sent: map<Way, seq<Message>>,       // messages put on a link; number k sits at index k - 1
    arrivals: map<Way, seq<Arrival>>)   // data packets from src that reached dst

  function Init(c: Config): State
    requires c.n >= 1
  {
    State(map p | p in Pids(c.n) :: InitProc(p, c.n),
          map w | w in Ways(c.n) :: INIT_LINK,
          {},
          map p | p in Pids(c.n) :: 0,
          {},
          map p | p in Pids(c.n) :: [],
          map w | w in Ways(c.n) :: [],
          map w | w in Ways(c.n) :: [])
  }

  datatype Step =
    | Broadcast(p: Pid, payload: Bytes)   // the application sends
    | Retransmit(w: Way)                  // SendMessages on the link at src towards dst
    | TransmitAcks(w: Way)                // SendAcks on the link at src towards dst
    | CleanUp(w: Way)                     // CleanAcks on the link at src towards dst
    | Receive(pkt: Packet)
    | DeliverOne(p: Pid, id: MsgId)       // one iteration of the delivery loop
    | Tick(p: Pid, t: int)
    | Crash(p: Pid)

  /** Put the message, if any, on every link of p. */
  function PutAll(links: map<Way, Link>, p: Pid, out: Option<Message>): map<Way, Link> {
    map w | w in links :: if w.src == p && out.Some? then Put(links[w], out.value) else links[w]
  }

  function Record(sent: map<Way, seq<Message>>, p: Pid, out: Option<Message>): map<Way, seq<Message>> {
    map w | w in sent :: if w.src == p && out.Some? then sent[w] + [out.value] else sent[w]
  }

  function Install(s: State, p: Pid, e: Effect): State {
    s.(procs := s.procs[p := e.proc],
       links := PutAll(s.links, p, e.out),
       sent := Record(s.sent, p, e.out))
  }

  /** Well-formed key sets. */
  ghost predicate Shape(c: Config, s: State) {
    && c.n >= 1
    && s.procs.Keys == Pids(c.n) && s.clock.Keys == Pids(c.n) && s.texts.Keys == Pids(c.n)
    && s.links.Keys == Ways(c.n) && s.sent.Keys == Ways(c.n) && s.arrivals.Keys == Ways(c.n)
    && (forall p :: p in s.procs ==> s.procs[p].self == p && s.procs[p].n == c.n && s.procs[p].limit == Limit(c.n))
    && s.crashed <= Pids(c.n) && 2 * |s.crashed| < c.n
  }

  /** Crashed processes take no step, and always fewer than half have crashed. */
  ghost predicate Enabled(c: Config, s: State, t: Step)
    requires Shape(c, s)
  {
    match t
    case Broadcast(p, _) => p in s.procs && p !in s.crashed
    case Retransmit(w) => w in s.links && w.src !in s.crashed
    case TransmitAcks(w) => w in s.links && w.src !in s.crashed
    case CleanUp(w) => w in s.links && w.src !in s.crashed
    case Receive(pkt) => pkt in s.net && Way(pkt.src, pkt.dst) in s.links && pkt.dst !in s.crashed
    case DeliverOne(p, id) => p in s.procs && p !in s.crashed && id in s.procs[p].pending
    case Tick(p, now) => p in s.procs && now >= s.clock[p]
    case Crash(p) => p in s.procs && 2 * |s.crashed + {p}| < c.n
  }

  function DataPackets(w: Way, l: Link): set<Packet> {
    set k | k in l.toSend :: Packet(w.src, w.dst, Data(k, l.toSend[k]))
  }

  function AckPackets(w: Way, l: Link): set<Packet> {
    set k | k in l.acksToSend :: Packet(w.src, w.dst, Ack(k))
  }

  /** The link half of receiving data packet number k over way w. */
  function Arrive(s: State, w: Way, k: nat): State
    requires w in s.arrivals && Back(w) in s.links && w.dst in s.clock
  {
    var l, now := s.links[Back(w)], s.clock[w.dst];
    s.(links := s.links[Back(w) := OnData(l, k, now)],
       arrivals := s.arrivals[w := s.arrivals[w] + [Arrival(k, now, k !in l.seen)]])
  }

  /** A data packet: acknowledge it, and hand it to the manager when its number is not in `seen`. */
  function ReceiveData(s: State, w: Way, k: nat, m: Message): State
    requires w in s.arrivals && Back(w) in s.links && w.dst in s.clock && w.dst in s.procs
  {
    var r := Arrive(s, w, k);
    if k in s.links[Back(w)].seen then r
    else Install(r, w.dst, Notify(s.procs[w.dst], w.src, m))
  }

  /** An acknowledgement for number k, over way w: stop sending it. */
  function ReceiveAck(s: State, w: Way, k: nat): State
    requires Back(w) in s.links
  {
    s.(links := s.links[Back(w) := OnAck(s.links[Back(w)], k)])
  }

  function ReceivePacket(s: State, w: Way, body: Body): State
    requires w in s.arrivals && Back(w) in s.links && w.dst in s.clock && w.dst in s.procs
  {
    match body
    case Data(k, m) => ReceiveData(s, w, k, m)
    case Ack(k) => ReceiveAck(s, w, k)
  }

  function Apply(c: Config, s: State, t: Step): State
    requires Shape(c, s) && Enabled(c, s, t)
  {
    match t
    case Broadcast(p, payload) =>
      Install(s, p, Send(s.procs[p], payload)).(texts := s.texts[p := s.texts[p] + [payload]])
    case Retransmit(w) => s.(net := s.net + DataPackets(w, s.links[w]))
    case TransmitAcks(w) => s.(net := s.net + AckPackets(w, s.links[w]))
    case CleanUp(w) => s.(links := s.links[w := Clean(s.links[w], s.clock[w.src], c.strong)])
    case Receive(pkt) => ReceivePacket(s, Way(pkt.src, pkt.dst), pkt.body)
    case DeliverOne(p, id) => Install(s, p, Deliver(s.procs[p], id))
    case Tick(p, now) => s.(clock := s.clock[p := now])
    case Crash(p) => s.(crashed := s.crashed + {p})
  }

  /** Step u leads from s to t. */
  ghost predicate Takes(c: Config, s: State, u: Step, t: State) {
    Shape(c, s) && Enabled(c, s, u) && t == Apply(c, s, u)
  }

  /** Each step leads from one state of the trace to the next. */
  ghost predicate Trace(c: Config, states: seq<State>, steps: seq<Step>) {
    && |states| == |steps| + 1
    && (forall i {:trigger steps[i]} :: 0 <= i < |steps| ==> Takes(c, states[i], steps[i], states[i + 1]))
  }

  /** A run from s to t is the list of steps taken. */
  ghost predicate Runs(c: Config, s: State, steps: seq<Step>, t: State) {
    exists states :: Trace(c, states, steps) && states[0] == s && states[|steps|] == t
  }

  ghost predicate Reachable(c: Config, s: State) {
    c.n >= 1 && exists steps :: Runs(c, Init(c), steps, s)
  }

  // ------------------------------------------------------------------------------------------
  // Vocabulary of the properties

  ghost predicate Carries(sent: seq<Message>, id: MsgId) {
    exists i :: 0 <= i < |sent| && sent[i].id == id
  }

  ghost predicate Once(sent: seq<Message>) {
    forall i, j :: 0 <= i < j < |sent| ==> sent[i].id != sent[j].id
  }

  /** The author has put the id on the network: sent by the application and past the queue. */
  predicate Cast(procs: map<Pid, Proc>, id: MsgId) {
    id.author in procs && 1 <= id.num <= OnNet(procs[id.author])
  }

  /** The message carries the payload its author passed to the application send. */
  predicate Genuine(texts: map<Pid, seq<Bytes>>, m: Message) {
    && m.id.author in texts
    && 1 <= m.id.num <= |texts[m.id.author]|
    && m.payload == texts[m.id.author][m.id.num - 1]
  }

  function Holders(procs: map<Pid, Proc>, id: MsgId): set<Pid> {
    set q | q in procs && Known(procs[q], id)
  }

  /** What a manager owes a handed-up message: delivered, or pending with the sender counted. */
  predicate Absorbed(p: Proc, sender: Pid, id: MsgId) {
    Delivered(p, id) || (id in p.pending && sender in AckSet(p.acks, id))
  }

  /** No link between two processes that are up holds an unacknowledged message. */
  ghost predicate LinksIdle(s: State) {
    forall w :: w in s.links && w.src !in s.crashed && w.dst !in s.crashed ==> s.links[w].toSend == map[]
  }

  /** No pending id at a process that is up passes the delivery guard. */
  ghost predicate LoopsIdle(s: State) {
    forall p, id :: p in s.procs && p !in s.crashed && id in s.procs[p].pending ==> !Deliverable(s.procs[p], id)
  }

  ghost predicate Quiescent(s: State) {
    LinksIdle(s) && LoopsIdle(s)
  }

  // ------------------------------------------------------------------------------------------
  // The invariant

  ghost predicate LocalAll(procs: map<Pid, Proc>) {
    forall p :: p in procs ==> LocalInv(procs[p])
  }

  ghost predicate Channel(strong: bool, s: State, w: Way)
    requires w in s.links && Back(w) in s.links && w in s.sent && w in s.arrivals && w.dst in s.clock
  {
    ChannelInv(w.src, w.dst, s.links[w], s.links[Back(w)], s.sent[w], s.arrivals[w], s.net, s.clock[w.dst], strong)
  }

  ghost predicate ChannelAll(c: Config, s: State)
    requires Shape(c, s)
  {
    forall w :: w in s.links ==> Channel(c.strong, s, w)
  }

  /** A link has carried exactly the ids its process knows, each once. */
  ghost predicate SentExact(p: Proc, sent: seq<Message>) {
    Once(sent) && forall id :: Known(p, id) <==> Carries(sent, id)
  }

  ghost predicate SentAll(procs: map<Pid, Proc>, sent: map<Way, seq<Message>>) {
    forall w :: w in sent && w.src in procs ==> SentExact(procs[w.src], sent[w])
  }

  ghost predicate NoCreation(procs: map<Pid, Proc>) {
    forall p, id :: p in procs && Known(procs[p], id) ==> Cast(procs, id)
  }

  ghost predicate AllGenuine(texts: map<Pid, seq<Bytes>>, ms: seq<Message>) {
    forall i :: 0 <= i < |ms| ==> Genuine(texts, ms[i])
  }

  ghost predicate TextsAll(procs: map<Pid, Proc>, texts: map<Pid, seq<Bytes>>, sent: map<Way, seq<Message>>) {
    && (forall p :: p in procs && p in texts ==> |texts[p]| == procs[p].next - 1)
    && (forall p :: p in procs ==> AllGenuine(texts, procs[p].queue))
    && (forall w :: w in sent ==> AllGenuine(texts, sent[w]))
  }

  ghost predicate AcksHold(procs: map<Pid, Proc>, acks: map<MsgId, set<Pid>>) {
    forall id, q :: q in AckSet(acks, id) ==> q in procs && Known(procs[q], id)
  }

  ghost predicate AcksAll(procs: map<Pid, Proc>) {
    forall p :: p in procs ==> AcksHold(procs, procs[p].acks)
  }

  ghost predicate HandedOver(p: Proc, sender: Pid, sent: seq<Message>, arr: seq<Arrival>) {
    forall i :: 0 <= i < |arr| && 1 <= arr[i].k <= |sent| ==> Absorbed(p, sender, sent[arr[i].k - 1].id)
  }

  ghost predicate HandedAll(procs: map<Pid, Proc>, sent: map<Way, seq<Message>>, arrivals: map<Way, seq<Arrival>>) {
    forall w :: w in sent && w in arrivals && w.dst in procs ==>
      HandedOver(procs[w.dst], w.src, sent[w], arrivals[w])
  }

  ghost predicate Majority(n: nat, procs: map<Pid, Proc>, id: MsgId) {
    2 * |Holders(procs, id)| > n
  }

  ghost predicate MajorityAll(n: nat, procs: map<Pid, Proc>) {
    forall p, id :: p in procs && Delivered(procs[p], id) ==> Majority(n, procs, id)
  }

  ghost predicate Inv(c: Config, s: State) {
    && Shape(c, s)
    && LocalAll(s.procs)
    && ChannelAll(c, s)
    && SentAll(s.procs, s.sent)
    && NoCreation(s.procs)
    && TextsAll(s.procs, s.texts, s.sent)
    && AcksAll(s.procs)
    && HandedAll(s.procs, s.sent, s.arrivals)
    && MajorityAll(c.n, s.procs)
  }
}
