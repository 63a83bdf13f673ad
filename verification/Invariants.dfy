/** Every step of the system keeps the invariant. */
module Invariants {
  import opened Types
  import opened Urb
  import opened UrbProofs
  import opened Links
  import opened System

  // ------------------------------------------------------------------------------------------
  // Installing a process effect

  /** What an operation of process p promises the rest of the system. */
  ghost predicate GoodEffect(n: nat, procs: map<Pid, Proc>, p: Pid, e: Effect)
    requires p in procs
  {
    && Emits(procs[p], e)
    && LocalInv(e.proc)
    && OnNet(e.proc) >= OnNet(procs[p])
    && (forall sender, id :: Absorbed(procs[p], sender, id) ==> Absorbed(e.proc, sender, id))
    && (forall id :: Delivered(e.proc, id) ==> Delivered(procs[p], id) || Majority(n, procs, id))
    && (e.out.Some? ==> Cast(procs[p := e.proc], e.out.value.id))
    && AcksHold(procs, e.proc.acks)
  }

  lemma InstallShape(c: Config, s: State, p: Pid, e: Effect)
    requires Shape(c, s) && p in s.procs && Emits(s.procs[p], e)
    ensures Shape(c, Install(s, p, e))
  {
    hide Limit, Pids, Ways, Known, Delivered, Put;
    var t := Install(s, p, e);
    assert t.procs.Keys == s.procs.Keys;
    assert t.links.Keys == s.links.Keys;
    assert t.sent.Keys == s.sent.Keys;
  }

  lemma InstallChannel(c: Config, s: State, p: Pid, e: Effect, w: Way)
    requires Shape(c, s) && p in s.procs && Shape(c, Install(s, p, e))
    requires w in s.links && Channel(c.strong, s, w)
    ensures Channel(c.strong, Install(s, p, e), w)
  {
    hide SenderInv, ReceiverInv, TransitInv;
    if w.src == p && e.out.Some? {
      PutChannel(w.src, w.dst, s.links[w], s.sent[w], s.arrivals[w], s.net, e.out.value);
    }
  }

  lemma CarriesAppend(sent: seq<Message>, m: Message, id: MsgId)
    ensures Carries(sent + [m], id) <==> Carries(sent, id) || id == m.id
  {
    var t := sent + [m];
    assert t[|sent|] == m;
    assert forall i :: 0 <= i < |sent| ==> t[i] == sent[i];
  }

  /** Relay at most once: an emitted id was on no link before. */
  lemma SentAppend(p: Proc, e: Effect, sent: seq<Message>)
    requires SentExact(p, sent) && Emits(p, e) && e.out.Some?
    ensures SentExact(e.proc, sent + [e.out.value])
  {
    hide Known, Delivered;
    var m := e.out.value;
    forall id
      ensures Known(e.proc, id) <==> Carries(sent + [m], id)
    {
      CarriesAppend(sent, m, id);
    }
    assert !Carries(sent, m.id);
  }

  lemma InstallSent(procs: map<Pid, Proc>, p: Pid, e: Effect, sent: map<Way, seq<Message>>)
    requires p in procs && Emits(procs[p], e) && SentAll(procs, sent)
    ensures SentAll(procs[p := e.proc], Record(sent, p, e.out))
  {
    hide Known, Delivered;
    var t := Record(sent, p, e.out);
    forall w | w in t && w.src in procs
      ensures SentExact(procs[p := e.proc][w.src], t[w])
    {
      assert SentExact(procs[w.src], sent[w]);
      if w.src == p && e.out.Some? {
        SentAppend(procs[p], e, sent[w]);
      }
    }
  }

  lemma InstallCreation(n: nat, procs: map<Pid, Proc>, p: Pid, e: Effect)
    requires p in procs && GoodEffect(n, procs, p, e) && NoCreation(procs)
    ensures NoCreation(procs[p := e.proc])
  {
    hide Known, Delivered, LocalInv, Absorbed, AcksHold, Majority;
    var after := procs[p := e.proc];
    forall q, id | q in after && Known(after[q], id)
      ensures Cast(after, id)
    {
      assert Known(procs[q], id) ==> Cast(procs, id);
    }
  }

  lemma HoldersGrow(procs: map<Pid, Proc>, p: Pid, e: Effect, id: MsgId)
    requires p in procs && Emits(procs[p], e)
    ensures |Holders(procs, id)| <= |Holders(procs[p := e.proc], id)|
    ensures forall q :: q in procs && Known(procs[q], id) ==> Known(procs[p := e.proc][q], id)
  {
    hide Known, Delivered;
    SubsetCount(Holders(procs, id), Holders(procs[p := e.proc], id));
  }

  lemma InstallAcks(procs: map<Pid, Proc>, p: Pid, e: Effect, acks: map<MsgId, set<Pid>>)
    requires p in procs && Emits(procs[p], e) && AcksHold(procs, acks)
    ensures AcksHold(procs[p := e.proc], acks)
  {
    hide Known, Delivered, AckSet;
    forall id, q | q in AckSet(acks, id)
      ensures q in procs && Known(procs[p := e.proc][q], id)
    {
      HoldersGrow(procs, p, e, id);
    }
  }

  lemma InstallMajority(n: nat, procs: map<Pid, Proc>, p: Pid, e: Effect)
    requires p in procs && GoodEffect(n, procs, p, e) && MajorityAll(n, procs)
    ensures MajorityAll(n, procs[p := e.proc])
  {
    hide Known, Delivered, LocalInv, Absorbed, AcksHold, Cast, Holders;
    var after := procs[p := e.proc];
    forall r, id | r in after && Delivered(after[r], id)
      ensures Majority(n, after, id)
    {
      HoldersGrow(procs, p, e, id);
      assert r != p ==> Delivered(procs[r], id);
      assert Majority(n, procs, id);
    }
  }

  lemma InstallHanded(n: nat, procs: map<Pid, Proc>, p: Pid, e: Effect, w: Way,
                      sent: seq<Message>, more: seq<Message>, arr: seq<Arrival>)
    requires p in procs && GoodEffect(n, procs, p, e) && w.dst in procs
    requires HandedOver(procs[w.dst], w.src, sent, arr) && sent <= more
    requires forall i :: 0 <= i < |arr| ==> arr[i].k <= |sent|
    ensures HandedOver(procs[p := e.proc][w.dst], w.src, more, arr)
  {
    hide Emits, LocalInv, AcksHold, Cast, Majority, Delivered, Absorbed;
  }

  lemma InstallHandedAll(c: Config, s: State, p: Pid, e: Effect)
    requires Shape(c, s) && ChannelAll(c, s) && HandedAll(s.procs, s.sent, s.arrivals)
    requires p in s.procs && GoodEffect(c.n, s.procs, p, e)
    ensures HandedAll(s.procs[p := e.proc], Record(s.sent, p, e.out), s.arrivals)
  {
    hide GoodEffect, ReceiverInv, SenderInv, HandedOver;
    var after := Record(s.sent, p, e.out);
    forall w | w in after && w in s.arrivals && w.dst in s.procs
      ensures HandedOver(s.procs[p := e.proc][w.dst], w.src, after[w], s.arrivals[w])
    {
      assert Channel(c.strong, s, w);
      InstallHanded(c.n, s.procs, p, e, w, s.sent[w], after[w], s.arrivals[w]);
    }
  }

  lemma InstallLocal(n: nat, procs: map<Pid, Proc>, p: Pid, e: Effect)
    requires p in procs && GoodEffect(n, procs, p, e) && LocalAll(procs)
    ensures LocalAll(procs[p := e.proc])
  {
    hide LocalInv, Emits, Absorbed, Cast, AcksHold, Delivered, Majority;
  }

  lemma InstallAcksAll(n: nat, procs: map<Pid, Proc>, p: Pid, e: Effect)
    requires p in procs && GoodEffect(n, procs, p, e) && AcksAll(procs)
    ensures AcksAll(procs[p := e.proc])
  {
    hide LocalInv, Emits, Absorbed, Cast, AcksHold, Delivered, Majority;
    var after := procs[p := e.proc];
    forall r | r in after
      ensures AcksHold(after, after[r].acks)
    {
      InstallAcks(procs, p, e, after[r].acks);
    }
  }

  /** A good effect keeps every part of the invariant, given its payload part. */
  lemma InstallInv(c: Config, s: State, p: Pid, e: Effect, t: State)
    requires Inv(c, s) && p in s.procs && GoodEffect(c.n, s.procs, p, e)
    requires t == Install(s, p, e).(texts := t.texts) && t.texts.Keys == s.texts.Keys
    requires TextsAll(t.procs, t.texts, t.sent)
    ensures Inv(c, t)
  {
    hide Limit, Pids, Ways;
    hide LocalAll, SentAll, NoCreation, AcksAll, HandedAll, MajorityAll, TextsAll, Channel;
    hide LocalInv, Absorbed, Cast, AcksHold, Delivered, Majority, Known;
    var r := Install(s, p, e);
    InstallShape(c, s, p, e);
    forall w | w in r.links
      ensures Channel(c.strong, r, w) && Channel(c.strong, t, w)
    {
      InstallChannel(c, s, p, e, w);
      ChannelFrame(c.strong, r, t, w);
    }
    InstallLocal(c.n, s.procs, p, e);
    InstallSent(s.procs, p, e, s.sent);
    InstallCreation(c.n, s.procs, p, e);
    InstallAcksAll(c.n, s.procs, p, e);
    InstallMajority(c.n, s.procs, p, e);
    InstallHandedAll(c, s, p, e);
  }

  lemma ChannelFrame(strong: bool, s: State, t: State, w: Way)
    requires w in s.links && Back(w) in s.links && w in s.sent && w in s.arrivals && w.dst in s.clock
    requires Channel(strong, s, w)
    requires t.links == s.links && t.sent == s.sent && t.arrivals == s.arrivals
    requires t.net == s.net && t.clock == s.clock
    ensures Channel(strong, t, w)
  {
    hide ChannelInv;
  }

  // ------------------------------------------------------------------------------------------
  // Broadcast

  lemma SendGood(n: nat, procs: map<Pid, Proc>, p: Pid, payload: Bytes)
    requires p in procs && LocalAll(procs) && AcksAll(procs) && procs[p].self == p
    ensures GoodEffect(n, procs, p, Send(procs[p], payload))
  {
    var e := Send(procs[p], payload);
    assert LocalInv(procs[p]);
    SendLocal(procs[p], payload);
    SendAbsorbs(procs[p], payload);
    assert AcksHold(procs, procs[p].acks);
  }

  lemma SendAbsorbs(p: Proc, payload: Bytes)
    requires ThrottleInv(p)
    ensures var e := Send(p, payload);
            && OnNet(e.proc) >= OnNet(p)
            && (e.out.Some? ==> e.out.value.id == MsgId(p.self, OnNet(e.proc)) && OnNet(e.proc) >= 1)
            && e.proc.acks == p.acks
            && (forall sender, id :: Absorbed(p, sender, id) ==> Absorbed(e.proc, sender, id))
            && (forall id :: Delivered(e.proc, id) ==> Delivered(p, id))
  {
  }

  lemma GenuineGrows(texts: map<Pid, seq<Bytes>>, p: Pid, payload: Bytes, ms: seq<Message>)
    requires p in texts && AllGenuine(texts, ms)
    ensures AllGenuine(texts[p := texts[p] + [payload]], ms)
  {
  }

  lemma BroadcastTexts(procs: map<Pid, Proc>, texts: map<Pid, seq<Bytes>>, sent: map<Way, seq<Message>>,
                       p: Pid, payload: Bytes, e: Effect)
    requires p in procs && p in texts && TextsAll(procs, texts, sent)
    requires procs[p].self == p && procs[p].next >= 1 && e == Send(procs[p], payload)
    ensures TextsAll(procs[p := e.proc], texts[p := texts[p] + [payload]], Record(sent, p, e.out))
  {
    hide AllGenuine, Genuine;
    var m := Message(MsgId(p, procs[p].next), payload);
    var after := texts[p := texts[p] + [payload]];
    var more := Record(sent, p, e.out);
    assert |texts[p]| == procs[p].next - 1;
    forall q | q in procs
      ensures AllGenuine(after, procs[p := e.proc][q].queue)
    {
      GenuineGrows(texts, p, payload, procs[q].queue);
      GenuineAppend(after, procs[q].queue, m);
    }
    forall w | w in more
      ensures AllGenuine(after, more[w])
    {
      GenuineGrows(texts, p, payload, sent[w]);
      GenuineAppend(after, sent[w], m);
    }
  }

  lemma GenuineAppend(texts: map<Pid, seq<Bytes>>, ms: seq<Message>, m: Message)
    requires AllGenuine(texts, ms)
    ensures (m.id.author in texts && 1 <= m.id.num <= |texts[m.id.author]| &&
             m.payload == texts[m.id.author][m.id.num - 1]) ==> AllGenuine(texts, ms + [m])
  {
  }

  lemma BroadcastInv(c: Config, s: State, p: Pid, payload: Bytes)
    requires Inv(c, s) && Enabled(c, s, Broadcast(p, payload))
    ensures Inv(c, Apply(c, s, Broadcast(p, payload)))
  {
    hide Limit, Pids, Ways;
    hide LocalInv, SentAll, NoCreation, AcksAll, HandedAll, MajorityAll, TextsAll, Channel, GoodEffect, Send;
    var e := Send(s.procs[p], payload);
    SendGood(c.n, s.procs, p, payload);
    var t := Install(s, p, e).(texts := s.texts[p := s.texts[p] + [payload]]);
    NextPositive(s.procs[p]);
    BroadcastTexts(s.procs, s.texts, s.sent, p, payload, e);
    InstallInv(c, s, p, e, t);
  }

  lemma NextPositive(p: Proc)
    requires LocalInv(p)
    ensures p.next >= 1
  {
  }

  /** An effect that emits a genuine message or nothing, and only shortens the queue. */
  lemma InstallTexts(procs: map<Pid, Proc>, texts: map<Pid, seq<Bytes>>, sent: map<Way, seq<Message>>,
                     p: Pid, e: Effect)
    requires p in procs && TextsAll(procs, texts, sent)
    requires e.out.Some? ==> AllGenuine(texts, [e.out.value])
    requires e.proc.next == procs[p].next
    requires AllGenuine(texts, e.proc.queue)
    ensures TextsAll(procs[p := e.proc], texts, Record(sent, p, e.out))
  {
    hide Genuine;
    var more := Record(sent, p, e.out);
    forall w | w in more
      ensures AllGenuine(texts, more[w])
    {
      assert AllGenuine(texts, sent[w]);
      assert e.out.Some? ==> Genuine(texts, [e.out.value][0]);
    }
  }

  // ------------------------------------------------------------------------------------------
  // Deliver

  /** The delivery certificate: self and the acknowledging processes all hold the id. */
  lemma Certificate(n: nat, procs: map<Pid, Proc>, p: Pid, id: MsgId)
    requires p in procs && procs[p].self == p && procs[p].n == n
    requires TableInv(procs[p]) && AcksHold(procs, procs[p].acks)
    requires id in procs[p].pending && MajoritySeen(procs[p], id)
    ensures {p} + AckSet(procs[p].acks, id) <= Holders(procs, id)
    ensures p !in AckSet(procs[p].acks, id)
    ensures Majority(n, procs, id)
  {
    hide Delivered;
    var acks := AckSet(procs[p].acks, id);
    assert p !in acks;
    assert {p} + acks <= Holders(procs, id);
    SubsetCount({p} + acks, Holders(procs, id));
    assert |{p} + acks| == 1 + |acks|;
  }

  lemma DeliverAbsorbs(p: Proc, id: MsgId, sender: Pid, x: MsgId)
    requires TableInv(p) && id in p.pending && Absorbed(p, sender, x)
    ensures Absorbed(Deliver(p, id).proc, sender, x)
  {
    if Deliverable(p, id) {
      DeliverShape(p, id);
      DeliverAcks(p, id);
      DeliverKnown(p, id);
      hide Deliver, Delivered;
      assert x != id ==> AckSet(p.acks - {id}, x) == AckSet(p.acks, x);
    }
  }

  lemma DeliverTables(p: Proc, id: MsgId)
    requires ThrottleInv(p) && TableInv(p) && id in p.pending
    ensures var e := Deliver(p, id);
            && (forall x :: AckSet(e.proc.acks, x) <= AckSet(p.acks, x))
            && e.proc.next == p.next
            && OnNet(e.proc) >= OnNet(p)
            && (e.proc.queue == p.queue || (p.queue != [] && e.proc.queue == p.queue[1..]))
            && (e.out.Some? ==> p.queue != [] && e.out.value == p.queue[0])
            && (e.out.Some? ==> e.out.value.id == MsgId(p.self, OnNet(e.proc)) && OnNet(e.proc) >= 1)
            && (forall x :: Delivered(e.proc, x) ==> Delivered(p, x) || (x == id && Deliverable(p, id)))
  {
    if Deliverable(p, id) {
      DeliverShape(p, id);
      DeliverAcks(p, id);
      DeliverKnown(p, id);
      if p.queue != [] {
        QueueHead(p);
      }
      hide Deliver, Delivered, ThrottleInv, TableInv;
    }
  }

  lemma LocalParts(p: Proc)
    requires LocalInv(p)
    ensures ThrottleInv(p) && TableInv(p)
  {
  }

  lemma DeliverGood(n: nat, procs: map<Pid, Proc>, p: Pid, id: MsgId)
    requires p in procs && LocalInv(procs[p]) && AcksHold(procs, procs[p].acks)
    requires procs[p].self == p && procs[p].n == n && id in procs[p].pending
    ensures GoodEffect(n, procs, p, Deliver(procs[p], id))
  {
    hide Deliver, Majority, Absorbed, Delivered, Known, Emits, LocalInv, ThrottleInv, TableInv;
    var before, e := procs[p], Deliver(procs[p], id);
    LocalParts(before);
    DeliverLocal(before, id);
    DeliverTables(before, id);
    forall sender, x | Absorbed(before, sender, x)
      ensures Absorbed(e.proc, sender, x)
    {
      DeliverAbsorbs(before, id, sender, x);
    }
    if Deliverable(before, id) {
      Certificate(n, procs, p, id);
    }
    assert AcksHold(procs, e.proc.acks);
  }

  lemma DeliverInv(c: Config, s: State, p: Pid, id: MsgId)
    requires Inv(c, s) && Enabled(c, s, DeliverOne(p, id))
    ensures Inv(c, Apply(c, s, DeliverOne(p, id)))
  {
    hide Limit, Pids, Ways;
    hide SentAll, NoCreation, HandedAll, MajorityAll, Channel, GoodEffect, Deliver, AcksHold, Genuine, Delivered;
    hide ThrottleInv, TableInv, CouplingInv, LogInv;
    var e := Deliver(s.procs[p], id);
    assert LocalInv(s.procs[p]);
    DeliverGood(c.n, s.procs, p, id);
    DeliverTables(s.procs[p], id);
    assert AllGenuine(s.texts, s.procs[p].queue);
    InstallTexts(s.procs, s.texts, s.sent, p, e);
    InstallInv(c, s, p, e, Install(s, p, e));
  }

  // ------------------------------------------------------------------------------------------
  // Receive data

  lemma NotifyAbsorbs(p: Proc, sender: Pid, m: Message)
    requires m.id.num >= 1
    ensures var e := Notify(p, sender, m);
            && Absorbed(e.proc, sender, m.id)
            && e.proc.next == p.next && e.proc.queue == p.queue
            && (e.out.Some? ==> e.out.value == m)
            && (forall id :: Delivered(e.proc, id) ==> Delivered(p, id))
            && (forall x, id :: Absorbed(p, x, id) ==> Absorbed(e.proc, x, id))
            && (forall id, q :: q in AckSet(e.proc.acks, id) ==>
                  q in AckSet(p.acks, id) || (q == sender && id == m.id))
  {
  }

  /** A message found on a link is genuine, was cast by its author and is known to the sender. */
  lemma OnLink(procs: map<Pid, Proc>, texts: map<Pid, seq<Bytes>>, sent: map<Way, seq<Message>>, w: Way, k: nat)
    requires w in sent && w.src in procs && 1 <= k <= |sent[w]|
    requires SentAll(procs, sent) && NoCreation(procs) && TextsAll(procs, texts, sent)
    ensures var m := sent[w][k - 1];
            && Known(procs[w.src], m.id) && Cast(procs, m.id) && Genuine(texts, m)
  {
    hide Known, Cast, Genuine;
    assert SentExact(procs[w.src], sent[w]);
    assert Carries(sent[w], sent[w][k - 1].id);
    assert AllGenuine(texts, sent[w]);
  }

  lemma NotifyGood(n: nat, procs: map<Pid, Proc>, w: Way, m: Message)
    requires w.src in procs && w.dst in procs && w.src != w.dst && w.src in Pids(n)
    requires procs[w.dst].self == w.dst && procs[w.dst].n == n && LocalInv(procs[w.dst])
    requires LocalInv(procs[w.src])
    requires AcksHold(procs, procs[w.dst].acks)
    requires Known(procs[w.src], m.id) && Cast(procs, m.id)
    ensures GoodEffect(n, procs, w.dst, Notify(procs[w.dst], w.src, m))
  {
    var p, e := procs[w.dst], Notify(procs[w.dst], w.src, m);
    KnownPositive(procs[w.src], m.id);
    hide Notify, LocalInv, Emits, Absorbed, Majority, Known, Delivered;
    NotifyLocal(p, w.src, m);
    NotifyAbsorbs(p, w.src, m);
    assert OnNet(e.proc) == OnNet(p);
    assert AcksHold(procs, e.proc.acks);
  }

  lemma KnownPositive(p: Proc, id: MsgId)
    requires Known(p, id) && LocalInv(p)
    ensures id.num >= 1
  {
    hide ThrottleInv, CouplingInv, LogInv;
  }

  /** Changing link state, arrivals, clocks and crashes only: what is left to re-prove. */
  lemma LinksOnly(c: Config, s: State, t: State)
    requires Inv(c, s) && Shape(c, t) && ChannelAll(c, t)
    requires HandedAll(t.procs, t.sent, t.arrivals)
    requires t.procs == s.procs && t.texts == s.texts && t.sent == s.sent
    ensures Inv(c, t)
  {
    hide Limit, Pids, Ways;
    hide LocalAll, SentAll, NoCreation, AcksAll, HandedAll, MajorityAll, TextsAll, Channel;
  }

  lemma ArriveShape(c: Config, s: State, w: Way, k: nat)
    requires Shape(c, s) && w in s.links
    ensures Shape(c, System.Arrive(s, w, k))
  {
    var t := System.Arrive(s, w, k);
    assert t.links.Keys == s.links.Keys && t.arrivals.Keys == s.arrivals.Keys;
  }

  lemma ArriveChannel(c: Config, s: State, w: Way, k: nat, v: Way)
    requires Shape(c, s) && w in s.links && v in s.links
    requires Shape(c, System.Arrive(s, w, k)) && Channel(c.strong, s, v)
    requires 1 <= k <= |s.sent[w]|
    ensures Channel(c.strong, System.Arrive(s, w, k), v)
  {
    hide SenderInv, ReceiverInv, TransitInv;
    var t := System.Arrive(s, w, k);
    if v == w {
      var a := t.arrivals[w][|s.arrivals[w]|];
      assert t.arrivals[w] == s.arrivals[w] + [a];
      OnDataReceiver(s.links[Back(w)], s.arrivals[w], s.clock[w.dst], c.strong, k, a);
      OnDataChannel(w.src, w.dst, s.links[w], s.sent[w], s.arrivals[w], s.net, a);
      assert t.links[Back(w)] == OnData(s.links[Back(w)], k, s.clock[w.dst]);
    }
  }

  lemma ArriveHanded(p: Proc, sender: Pid, sent: seq<Message>, arr: seq<Arrival>, a: Arrival)
    requires HandedOver(p, sender, sent, arr)
    requires 1 <= a.k <= |sent| && Absorbed(p, sender, sent[a.k - 1].id)
    ensures HandedOver(p, sender, sent, arr + [a])
  {
    hide Absorbed;
  }

  /** An arrival of something already absorbed changes the link only. */
  lemma ArriveInv(c: Config, s: State, w: Way, k: nat)
    requires Inv(c, s) && w in s.links && 1 <= k <= |s.sent[w]|
    requires Absorbed(s.procs[w.dst], w.src, s.sent[w][k - 1].id)
    ensures Inv(c, System.Arrive(s, w, k))
  {
    hide Limit, Pids, Ways;
    hide LocalAll, SentAll, NoCreation, AcksAll, MajorityAll, TextsAll, Channel, Absorbed, HandedOver;
    var t := System.Arrive(s, w, k);
    ArriveShape(c, s, w, k);
    forall v | v in t.links
      ensures Channel(c.strong, t, v)
      ensures HandedOver(t.procs[v.dst], v.src, t.sent[v], t.arrivals[v])
    {
      ArriveChannel(c, s, w, k, v);
      if v == w {
        ArriveHanded(s.procs[w.dst], w.src, s.sent[w], s.arrivals[w], t.arrivals[w][|s.arrivals[w]|]);
      }
    }
    LinksOnly(c, s, t);
  }

  /** A number still remembered by the receiver was handed up before. */
  lemma SeenIsAbsorbed(p: Pid, q: Pid, snd: Link, rcv: Link, sent: seq<Message>, arr: seq<Arrival>,
                       net: set<Packet>, now: int, strong: bool, k: nat, proc: Proc)
    requires ChannelInv(p, q, snd, rcv, sent, arr, net, now, strong) && k in rcv.seen
    requires HandedOver(proc, p, sent, arr)
    ensures 1 <= k <= |sent| && Absorbed(proc, p, sent[k - 1].id)
  {
    hide SenderInv, Absorbed;
    assert Handed(arr, k);
    var i :| 0 <= i < |arr| && arr[i].k == k && arr[i].handed;
    assert 1 <= arr[i].k <= |sent|;
  }

  lemma PutDataCommute(l: Link, k: nat, now: int, m: Message)
    ensures Put(OnData(l, k, now), m) == OnData(Put(l, m), k, now)
    ensures Put(l, m).seen == l.seen
  {
  }

  lemma LinksCommute(links: map<Way, Link>, b: Way, p: Pid, k: nat, now: int, out: Option<Message>)
    requires b in links
    ensures b in PutAll(links, p, out) && PutAll(links, p, out)[b].seen == links[b].seen
    ensures PutAll(links[b := OnData(links[b], k, now)], p, out) ==
            PutAll(links, p, out)[b := OnData(PutAll(links, p, out)[b], k, now)]
  {
    hide Put, OnData;
    if out.Some? {
      PutDataCommute(links[b], k, now, out.value);
    }
  }

  /** The two halves of a receive touch different fields, so the manager may go first. */
  lemma ArriveInstallCommute(c: Config, s: State, w: Way, k: nat, e: Effect)
    requires Shape(c, s) && w in s.links && Shape(c, Install(s, w.dst, e))
    ensures Install(System.Arrive(s, w, k), w.dst, e) == System.Arrive(Install(s, w.dst, e), w, k)
  {
    hide PutAll, Record, OnData;
    LinksCommute(s.links, Back(w), w.dst, k, s.clock[w.dst], e.out);
  }

  lemma ReceiveNewInv(c: Config, s: State, w: Way, k: nat, m: Message)
    requires Inv(c, s) && w in s.links
    requires 1 <= k <= |s.sent[w]| && m == s.sent[w][k - 1]
    ensures Inv(c, Install(System.Arrive(s, w, k), w.dst, Notify(s.procs[w.dst], w.src, m)))
  {
    hide Limit, Pids, Ways;
    hide LocalInv, SentAll, NoCreation, AcksHold, HandedAll, MajorityAll, Channel, Notify, Known;
    hide Absorbed, Delivered, AckSet, ThrottleInv, Genuine, ChannelAll;
    var e := Notify(s.procs[w.dst], w.src, m);
    OnLink(s.procs, s.texts, s.sent, w, k);
    NotifyGood(c.n, s.procs, w, m);
    NotifyAbsorbs(s.procs[w.dst], w.src, m);
    assert AllGenuine(s.texts, s.procs[w.dst].queue);
    InstallTexts(s.procs, s.texts, s.sent, w.dst, e);
    var r := Install(s, w.dst, e);
    hide GoodEffect;
    InstallInv(c, s, w.dst, e, r);
    ArriveInstallCommute(c, s, w, k, e);
    assert r.sent[w] == s.sent[w];
    ArriveInv(c, r, w, k);
  }

  lemma ReceiveDataInv(c: Config, s: State, w: Way, k: nat, m: Message)
    requires Inv(c, s) && w in s.links && Packet(w.src, w.dst, Data(k, m)) in s.net
    ensures Inv(c, ReceiveData(s, w, k, m))
  {
    hide Limit, Pids, Ways;
    hide LocalAll, SentAll, NoCreation, AcksAll, MajorityAll, TextsAll, HandedOver, Absorbed, SenderInv, ReceiverInv;
    hide Notify, System.Arrive, Install;
    assert Channel(c.strong, s, w);
    if k in s.links[Back(w)].seen {
      SeenIsAbsorbed(w.src, w.dst, s.links[w], s.links[Back(w)], s.sent[w], s.arrivals[w], s.net,
                     s.clock[w.dst], c.strong, k, s.procs[w.dst]);
      ArriveInv(c, s, w, k);
    } else {
      ReceiveNewInv(c, s, w, k, m);
    }
  }

  // ------------------------------------------------------------------------------------------
  // Link steps

  lemma RetransmitInv(c: Config, s: State, w: Way)
    requires Inv(c, s) && w in s.links
    ensures Inv(c, s.(net := s.net + DataPackets(w, s.links[w])))
  {
    hide Limit, Pids, Ways;
    hide LocalAll, SentAll, NoCreation, AcksAll, MajorityAll, TextsAll, HandedAll, ChannelInv;
    var more := DataPackets(w, s.links[w]);
    var t := s.(net := s.net + more);
    forall v | v in t.links
      ensures Channel(c.strong, t, v)
    {
      assert Channel(c.strong, s, v);
      NetGrows(v.src, v.dst, s.links[v], s.links[Back(v)], s.sent[v], s.arrivals[v],
               s.net, more, t.net, s.clock[v.dst], c.strong);
    }
    LinksOnly(c, s, t);
  }

  lemma TransmitAcksInv(c: Config, s: State, w: Way)
    requires Inv(c, s) && w in s.links
    ensures Inv(c, s.(net := s.net + AckPackets(w, s.links[w])))
  {
    hide Limit, Pids, Ways;
    hide LocalAll, SentAll, NoCreation, AcksAll, MajorityAll, TextsAll, HandedAll, ChannelInv;
    var more := AckPackets(w, s.links[w]);
    var t := s.(net := s.net + more);
    forall v | v in t.links
      ensures Channel(c.strong, t, v)
    {
      assert Channel(c.strong, s, v);
      NetGrows(v.src, v.dst, s.links[v], s.links[Back(v)], s.sent[v], s.arrivals[v],
               s.net, more, t.net, s.clock[v.dst], c.strong);
    }
    LinksOnly(c, s, t);
  }

  lemma CleanChannel(c: Config, s: State, t: State, w: Way, v: Way)
    requires Shape(c, s) && Shape(c, t) && w in s.links && v in s.links && Channel(c.strong, s, v)
    requires t == s.(links := s.links[w := Clean(s.links[w], s.clock[w.src], c.strong)])
    ensures Channel(c.strong, t, v)
  {
    hide SenderInv, ReceiverInv, TransitInv;
    if Back(v) == w {
      CleanReceiver(s.links[w], s.arrivals[v], s.clock[v.dst], c.strong);
    }
  }

  lemma CleanUpInv(c: Config, s: State, w: Way)
    requires Inv(c, s) && w in s.links
    ensures Inv(c, s.(links := s.links[w := Clean(s.links[w], s.clock[w.src], c.strong)]))
  {
    hide Limit, Pids, Ways;
    hide LocalAll, SentAll, NoCreation, AcksAll, MajorityAll, TextsAll, HandedAll, Channel, Clean;
    var t := s.(links := s.links[w := Clean(s.links[w], s.clock[w.src], c.strong)]);
    assert t.links.Keys == s.links.Keys;
    forall v | v in t.links
      ensures Channel(c.strong, t, v)
    {
      CleanChannel(c, s, t, w, v);
    }
    LinksOnly(c, s, t);
  }

  lemma AckChannel(c: Config, s: State, t: State, w: Way, k: nat, v: Way)
    requires Shape(c, s) && Shape(c, t) && w in s.links && v in s.links && Channel(c.strong, s, v)
    requires Packet(w.dst, w.src, Ack(k)) in s.net
    requires t == s.(links := s.links[w := OnAck(s.links[w], k)])
    ensures Channel(c.strong, t, v)
  {
    hide SenderInv, ReceiverInv, TransitInv;
    if v == w {
      OnAckChannel(w.src, w.dst, s.links[w], s.sent[w], s.arrivals[w], s.net, k);
    }
  }

  lemma ReceiveAckInv(c: Config, s: State, w: Way, k: nat)
    requires Inv(c, s) && w in s.links && Packet(w.dst, w.src, Ack(k)) in s.net
    ensures Inv(c, s.(links := s.links[w := OnAck(s.links[w], k)]))
  {
    hide Limit, Pids, Ways;
    hide LocalAll, SentAll, NoCreation, AcksAll, MajorityAll, TextsAll, HandedAll, Channel, OnAck;
    var t := s.(links := s.links[w := OnAck(s.links[w], k)]);
    assert t.links.Keys == s.links.Keys;
    forall v | v in t.links
      ensures Channel(c.strong, t, v)
    {
      AckChannel(c, s, t, w, k, v);
    }
    LinksOnly(c, s, t);
  }

  lemma TickInv(c: Config, s: State, p: Pid, now: int)
    requires Inv(c, s) && p in s.procs && now >= s.clock[p]
    ensures Inv(c, s.(clock := s.clock[p := now]))
  {
    hide Limit, Pids, Ways;
    hide LocalAll, SentAll, NoCreation, AcksAll, MajorityAll, TextsAll, HandedAll;
    hide SenderInv, ReceiverInv, TransitInv;
    var t := s.(clock := s.clock[p := now]);
    assert t.clock.Keys == s.clock.Keys;
    forall v | v in t.links
      ensures Channel(c.strong, t, v)
    {
      assert Channel(c.strong, s, v);
      TickReceiver(s.links[Back(v)], s.arrivals[v], s.clock[v.dst], t.clock[v.dst], c.strong);
    }
    LinksOnly(c, s, t);
  }

  lemma CrashInv(c: Config, s: State, p: Pid)
    requires Inv(c, s) && p in s.procs && 2 * |s.crashed + {p}| < c.n
    ensures Inv(c, s.(crashed := s.crashed + {p}))
  {
    hide Limit, Pids, Ways;
    hide LocalAll, SentAll, NoCreation, AcksAll, MajorityAll, TextsAll, HandedAll, Channel;
    var t := s.(crashed := s.crashed + {p});
    forall v | v in t.links
      ensures Channel(c.strong, t, v)
    {
      ChannelFrame(c.strong, s, t, v);
    }
    LinksOnly(c, s, t);
  }

  // ------------------------------------------------------------------------------------------
  // Runs

  lemma InitChannel(c: Config, w: Way)
    requires c.n >= 1 && w in Ways(c.n)
    ensures Channel(c.strong, Init(c), w)
  {
    hide InitProc;
  }

  lemma InitKnown(self: Pid, n: nat, id: MsgId)
    requires n >= 1
    ensures !Known(InitProc(self, n), id)
  {
  }

  lemma InitShape(c: Config)
    requires c.n >= 1
    ensures Shape(c, Init(c))
  {
  }

  lemma InitInv(c: Config)
    requires c.n >= 1
    ensures Inv(c, Init(c))
  {
    hide LocalInv, Known, Limit, Channel;
    var s := Init(c);
    InitShape(c);
    forall p | p in s.procs
      ensures LocalInv(s.procs[p])
    {
      InitLocal(p, c.n);
    }
    forall w | w in s.links
      ensures Channel(c.strong, s, w)
    {
      InitChannel(c, w);
    }
    forall p, id | p in s.procs
      ensures !Known(s.procs[p], id)
    {
      InitKnown(p, c.n, id);
    }
  }

  lemma ReceiveBodyInv(c: Config, s: State, w: Way, body: Body)
    requires Inv(c, s) && w in s.links && Back(w) in s.links && w in s.arrivals && w.dst in s.clock && w.dst in s.procs
    requires Packet(w.src, w.dst, body) in s.net
    ensures Inv(c, ReceivePacket(s, w, body))
  {
    hide Inv, ReceiveData, OnAck;
    match body
    case Data(k, m) => ReceiveDataInv(c, s, w, k, m);
    case Ack(k) => ReceiveAckInv(c, s, Back(w), k);
  }

  lemma ReceiveInv(c: Config, s: State, pkt: Packet)
    requires Inv(c, s) && Enabled(c, s, Receive(pkt))
    ensures Inv(c, Apply(c, s, Receive(pkt)))
  {
    hide Inv, Limit, Pids, Ways, ReceivePacket;
    ShapeOf(c, s);
    ReceiveBodyInv(c, s, Way(pkt.src, pkt.dst), pkt.body);
  }

  lemma ShapeOf(c: Config, s: State)
    requires Inv(c, s)
    ensures Shape(c, s)
  {
  }

  /** Every step keeps the invariant. */
  lemma StepInv(c: Config, s: State, t: Step)
    requires Inv(c, s) && Enabled(c, s, t)
    ensures Inv(c, Apply(c, s, t))
  {
    hide Inv, Shape, Install, Send, Deliver, ReceivePacket, Clean, DataPackets, AckPackets;
    ShapeOf(c, s);
    match t
    case Broadcast(p, payload) => BroadcastInv(c, s, p, payload);
    case Retransmit(w) => RetransmitInv(c, s, w);
    case TransmitAcks(w) => TransmitAcksInv(c, s, w);
    case CleanUp(w) => CleanUpInv(c, s, w);
    case Receive(pkt) => ReceiveInv(c, s, pkt);
    case DeliverOne(p, id) => DeliverInv(c, s, p, id);
    case Tick(p, now) => TickInv(c, s, p, now);
    case Crash(p) => CrashInv(c, s, p);
  }

  lemma {:induction false} TraceInv(c: Config, states: seq<State>, steps: seq<Step>, i: nat)
    requires Trace(c, states, steps) && i <= |steps| && Inv(c, states[0])
    ensures Inv(c, states[i])
  {
    hide Inv, Shape, Enabled, Apply;
    if i > 0 {
      TraceInv(c, states, steps, i - 1);
      StepInv(c, states[i - 1], steps[i - 1]);
    }
  }

  lemma RunInv(c: Config, s: State, steps: seq<Step>, t: State)
    requires Inv(c, s) && Runs(c, s, steps, t)
    ensures Inv(c, t)
  {
    hide Inv, Takes;
    var states :| Trace(c, states, steps) && states[0] == s && states[|steps|] == t;
    TraceInv(c, states, steps, |steps|);
  }

  /** The invariant holds in every reachable state. */
  lemma ReachableInv(c: Config, s: State)
    requires Reachable(c, s)
    ensures Inv(c, s)
  {
    hide Inv, Init, Runs;
    InitInv(c);
    var steps :| Runs(c, Init(c), steps, s);
    RunInv(c, Init(c), steps, s);
  }
}
