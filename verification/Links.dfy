/**
 The retransmitting link. One `Link` value is the state of one link object: the sending half
 (numbering and unacknowledged messages) and the receiving half (acks to send, numbers seen).
 A channel from p to q joins the sending half at p with the receiving half at q.
 */
module Links {
  import opened Types

  datatype Link = Link(
    next: nat,                     // n_messages_sent_
    toSend: map<nat, Message>,     // messages_to_send_, equality by number only
    acksToSend: set<nat>,          // acks_to_send_
    seen: map<nat, int>)           // messages_delivered_, with the second of the last arrival

  datatype Packet = Packet(src: Pid, dst: Pid, body: Body)
  datatype Body = Data(k: nat, m: Message) | Ack(k: nat)

  const INIT_LINK := Link(1, map[], {}, map[])

  // 100 + 250 + 100 milliseconds, and twenty times that.
  const STOP_ACKS_MS := 450
  const FORGET_MS := STOP_ACKS_MS * 20

  /** Time differences are whole seconds. */
  predicate StopAcks(delta: int) {
    1000 * delta >= STOP_ACKS_MS
  }

  predicate Forget(delta: int) {
    1000 * delta >= FORGET_MS
  }

  function Put(l: Link, m: Message): Link {
    l.(next := l.next + 1,
       toSend := if l.next in l.toSend then l.toSend else l.toSend[l.next := m])
  }

  function OnData(l: Link, k: nat, now: int): Link {
    l.(acksToSend := l.acksToSend + {k}, seen := l.seen[k := now])
  }

  function OnAck(l: Link, k: nat): Link {
    l.(toSend := l.toSend - {k})
  }

  function Clean(l: Link, now: int, strong: bool): Link {
    l.(seen := if strong then l.seen else map k | k in l.seen && !Forget(now - l.seen[k]) :: l.seen[k],
       acksToSend := set k | k in l.acksToSend && !(k in l.seen && StopAcks(now - l.seen[k])))
  }

  /** What a clean-up keeps, in seconds. */
  lemma CleanInSeconds(l: Link, now: int, strong: bool, k: nat)
    ensures var t := Clean(l, now, strong);
            && (k in t.seen <==> k in l.seen && (strong || now - l.seen[k] < 9))
            && (k in t.seen ==> t.seen[k] == l.seen[k])
            && (k in t.acksToSend <==> k in l.acksToSend && (k in l.seen ==> now - l.seen[k] < 1))
            && t.next == l.next && t.toSend == l.toSend
  {
  }

  // ------------------------------------------------------------------------------------------
  // Histories

  /** One data packet reaching the receiver: `handed` when it was handed to the manager. */
  datatype Arrival = Arrival(k: nat, time: int, handed: bool)

  ghost predicate Arrived(arr: seq<Arrival>, k: nat) {
    exists i :: 0 <= i < |arr| && arr[i].k == k
  }

  ghost predicate Handed(arr: seq<Arrival>, k: nat) {
    exists i :: 0 <= i < |arr| && arr[i].k == k && arr[i].handed
  }

  /** A number is handed up again only nine seconds after each earlier arrival, never in strong mode. */
  ghost predicate SpacedHandoffs(arr: seq<Arrival>, strong: bool) {
    forall i, j :: 0 <= i < j < |arr| && arr[i].k == arr[j].k && arr[j].handed ==>
      !strong && arr[j].time >= arr[i].time + 9
  }

  // ------------------------------------------------------------------------------------------
  // The receiving half

  ghost predicate SeenInv(seen: map<nat, int>, arr: seq<Arrival>, now: int, strong: bool) {
    && (forall i :: 0 <= i < |arr| ==> arr[i].time <= now)
    && (forall i :: 0 <= i < |arr| && arr[i].k in seen ==> arr[i].time <= seen[arr[i].k])
    && (forall i :: 0 <= i < |arr| && arr[i].k !in seen ==> !strong && arr[i].time + 9 <= now)
    && (forall k :: k in seen ==> Handed(arr, k))
  }

  ghost predicate ReceiverInv(seen: map<nat, int>, acksToSend: set<nat>, arr: seq<Arrival>, now: int, strong: bool) {
    && SeenInv(seen, arr, now, strong)
    && SpacedHandoffs(arr, strong)
    && acksToSend <= seen.Keys
    && (forall i :: 0 <= i < |arr| ==> Handed(arr, arr[i].k))
  }

  lemma HandedGrows(arr: seq<Arrival>, a: Arrival, k: nat)
    ensures Handed(arr, k) ==> Handed(arr + [a], k)
    ensures a.handed ==> Handed(arr + [a], a.k)
    ensures Arrived(arr + [a], k) <==> Arrived(arr, k) || k == a.k
  {
    var b := arr + [a];
    assert b[|arr|] == a;
    assert forall i :: 0 <= i < |arr| ==> b[i] == arr[i];
  }

  lemma OnDataReceiver(l: Link, arr: seq<Arrival>, now: int, strong: bool, k: nat, a: Arrival)
    requires ReceiverInv(l.seen, l.acksToSend, arr, now, strong)
    requires a.k == k && a.time == now && (a.handed <==> k !in l.seen)
    ensures ReceiverInv(OnData(l, k, now).seen, OnData(l, k, now).acksToSend, arr + [a], now, strong)
  {
    hide Handed, Arrived;
    var b := arr + [a];
    forall x: nat
      ensures Handed(arr, x) ==> Handed(b, x)
      ensures a.handed ==> Handed(b, k)
    {
      HandedGrows(arr, a, x);
    }
    assert forall i :: 0 <= i < |b| ==> (i < |arr| && b[i] == arr[i]) || b[i] == a;
  }

  lemma CleanReceiver(l: Link, arr: seq<Arrival>, now: int, strong: bool)
    requires ReceiverInv(l.seen, l.acksToSend, arr, now, strong)
    ensures ReceiverInv(Clean(l, now, strong).seen, Clean(l, now, strong).acksToSend, arr, now, strong)
  {
  }

  lemma TickReceiver(l: Link, arr: seq<Arrival>, now: int, later: int, strong: bool)
    requires ReceiverInv(l.seen, l.acksToSend, arr, now, strong) && now <= later
    ensures ReceiverInv(l.seen, l.acksToSend, arr, later, strong)
  {
  }

  // ------------------------------------------------------------------------------------------
  // The sending half

  ghost predicate SenderInv(next: nat, toSend: map<nat, Message>, sent: seq<Message>) {
    && next == |sent| + 1
    && (forall k :: k in toSend ==> 1 <= k <= |sent| && toSend[k] == sent[k - 1])
  }

  // ------------------------------------------------------------------------------------------
  // The channel

  /** Data on the wire was sent; acks on the wire are of arrivals; nothing sent is lost. */
  ghost predicate TransitInv(p: Pid, q: Pid, toSend: map<nat, Message>, sent: seq<Message>, arr: seq<Arrival>, net: set<Packet>) {
    && (forall k: nat, m :: Packet(p, q, Data(k, m)) in net ==> 1 <= k <= |sent| && m == sent[k - 1])
    && (forall k: nat :: Packet(q, p, Ack(k)) in net ==> Arrived(arr, k))
    && (forall i :: 0 <= i < |arr| ==> 1 <= arr[i].k <= |sent|)
    && (forall k: nat :: 1 <= k <= |sent| ==> k in toSend || Arrived(arr, k))
  }

  ghost predicate ChannelInv(p: Pid, q: Pid, snd: Link, rcv: Link, sent: seq<Message>, arr: seq<Arrival>,
                             net: set<Packet>, now: int, strong: bool) {
    && SenderInv(snd.next, snd.toSend, sent)
    && ReceiverInv(rcv.seen, rcv.acksToSend, arr, now, strong)
    && TransitInv(p, q, snd.toSend, sent, arr, net)
  }

  /** Link conservation, from the channel invariant. */
  lemma Conservation(p: Pid, q: Pid, snd: Link, rcv: Link, sent: seq<Message>, arr: seq<Arrival>,
                     net: set<Packet>, now: int, strong: bool, k: nat)
    requires ChannelInv(p, q, snd, rcv, sent, arr, net, now, strong)
    requires 1 <= k <= |sent|
    ensures (k in snd.toSend && snd.toSend[k] == sent[k - 1]) || Handed(arr, k)
  {
    if k !in snd.toSend {
      var i :| 0 <= i < |arr| && arr[i].k == k;
      assert Handed(arr, arr[i].k);
    }
  }

  lemma PutChannel(p: Pid, q: Pid, snd: Link, sent: seq<Message>, arr: seq<Arrival>, net: set<Packet>, m: Message)
    requires SenderInv(snd.next, snd.toSend, sent) && TransitInv(p, q, snd.toSend, sent, arr, net)
    ensures SenderInv(Put(snd, m).next, Put(snd, m).toSend, sent + [m]) && TransitInv(p, q, Put(snd, m).toSend, sent + [m], arr, net)
  {
    assert snd.next !in snd.toSend;
    forall k: nat | 1 <= k <= |sent + [m]|
      ensures k in Put(snd, m).toSend || Arrived(arr, k)
    {
      assert k == |sent| + 1 || k in snd.toSend || Arrived(arr, k);
    }
  }

  lemma OnDataChannel(p: Pid, q: Pid, snd: Link, sent: seq<Message>, arr: seq<Arrival>, net: set<Packet>, a: Arrival)
    requires TransitInv(p, q, snd.toSend, sent, arr, net)
    requires 1 <= a.k <= |sent|
    ensures TransitInv(p, q, snd.toSend, sent, arr + [a], net)
  {
    forall k: nat
      ensures Arrived(arr, k) ==> Arrived(arr + [a], k)
    {
      HandedGrows(arr, a, k);
    }
  }

  lemma OnAckChannel(p: Pid, q: Pid, snd: Link, sent: seq<Message>, arr: seq<Arrival>, net: set<Packet>, k: nat)
    requires SenderInv(snd.next, snd.toSend, sent) && TransitInv(p, q, snd.toSend, sent, arr, net)
    requires Packet(q, p, Ack(k)) in net
    ensures SenderInv(snd.next, OnAck(snd, k).toSend, sent) && TransitInv(p, q, OnAck(snd, k).toSend, sent, arr, net)
  {
  }

  /** Retransmission and acknowledgement put only truthful packets on the wire. */
  lemma NetGrows(p: Pid, q: Pid, snd: Link, rcv: Link, sent: seq<Message>, arr: seq<Arrival>,
                 net: set<Packet>, more: set<Packet>, all: set<Packet>, now: int, strong: bool)
    requires all == net + more
    requires ChannelInv(p, q, snd, rcv, sent, arr, net, now, strong)
    requires forall k: nat, m :: Packet(p, q, Data(k, m)) in more ==> k in snd.toSend && snd.toSend[k] == m
    requires forall k: nat :: Packet(q, p, Ack(k)) in more ==> k in rcv.acksToSend
    ensures ChannelInv(p, q, snd, rcv, sent, arr, all, now, strong)
  {
    forall k: nat | Packet(q, p, Ack(k)) in more
      ensures Arrived(arr, k)
    {
      assert Handed(arr, k);
    }
  }
}
