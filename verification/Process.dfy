/**
 The broadcast object, `UniformFIFOBroadcast` with the layers it inherits. Every method is tied to
 the value-level operation of module Urb on the view of the object, and to what it puts on each
 of its links.
 */
module Process {
  import opened Types
  import opened Windows
  import opened Urb
  import UrbProofs
  import opened Links
  import opened Records
  import opened LinkObjects

  function PutOut(l: Link, out: Option<Message>): Link {
    if out.Some? then Put(l, out.value) else l
  }

  lemma DrainStep(next: nat, rest: set<nat>)
    ensures rest != {} && Least(rest) <= next ==>
              var d := Drain(next + 1, rest - {Least(rest)});
              Drain(next, rest) == Drained(d.window, [Least(rest)] + d.logged)
    ensures rest == {} || Least(rest) > next ==> Drain(next, rest) == Drained(Window(next, rest), [])
  {
  }

  /** Part-way through a drain: what has been logged, and what draining the rest will add. */
  ghost predicate Draining(all: Drained, done: seq<nat>, next: nat, rest: set<nat>) {
    all == Drained(Drain(next, rest).window, done + Drain(next, rest).logged)
  }

  lemma DrainAdvance(all: Drained, done: seq<nat>, next: nat, rest: set<nat>, x: nat)
    requires Draining(all, done, next, rest) && rest != {} && x == Least(rest) <= next
    ensures Draining(all, done + [x], next + 1, rest - {x})
  {
    hide Drain, Least;
    DrainStep(next, rest);
    var later := Drain(next + 1, rest - {x}).logged;
    assert done + ([x] + later) == (done + [x]) + later;
  }

  lemma DrainDone(all: Drained, done: seq<nat>, next: nat, rest: set<nat>)
    requires Draining(all, done, next, rest) && (rest == {} || Least(rest) > next)
    ensures all == Drained(Window(next, rest), done)
  {
    hide Drain, Least;
    DrainStep(next, rest);
    assert done + [] == done;
  }

  lemma DrainStart(next: nat, s: set<nat>)
    ensures Draining(Drain(next, s), [], next, s)
  {
    hide Drain;
    assert [] + Drain(next, s).logged == Drain(next, s).logged;
  }

  lemma DLinesAppend(log: seq<Line>, a: Pid, done: seq<nat>, x: nat)
    ensures log + DLines(a, done + [x]) == (log + DLines(a, done)) + [D(a, x)]
  {
    assert DLines(a, done + [x]) == DLines(a, done) + [D(a, x)];
  }

  /** The delivery loop over a snapshot: the final state and everything put on the links. */
  datatype Batch = Batch(proc: Proc, outs: seq<Message>)

  function DeliverAll(p: Proc, ids: seq<MsgId>): Batch {
    if ids == [] then Batch(p, []) else
      var b := DeliverAll(p, ids[..|ids| - 1]);
      var e := Deliver(b.proc, ids[|ids| - 1]);
      Batch(e.proc, if e.out.Some? then b.outs + [e.out.value] else b.outs)
  }

  function PutSeq(l: Link, ms: seq<Message>): Link {
    if ms == [] then l else Put(PutSeq(l, ms[..|ms| - 1]), ms[|ms| - 1])
  }

  lemma PutSeqSnoc(l: Link, ms: seq<Message>, out: Option<Message>)
    ensures PutOut(PutSeq(l, ms), out) == PutSeq(l, if out.Some? then ms + [out.value] else ms)
  {
    hide Put;
    if out.Some? {
      assert (ms + [out.value])[..|ms|] == ms;
    }
  }

  lemma DeliverAllSnoc(p: Proc, ids: seq<MsgId>, i: nat)
    requires i < |ids|
    ensures var b := DeliverAll(p, ids[..i]);
            var e := Deliver(b.proc, ids[i]);
            DeliverAll(p, ids[..i + 1]) == Batch(e.proc, if e.out.Some? then b.outs + [e.out.value] else b.outs)
  {
    hide Deliver;
    assert ids[..i + 1][..i] == ids[..i];
  }

  /** A copy of an unordered set, in some order. */
  method Snapshot(s: set<MsgId>) returns (order: seq<MsgId>)
    ensures multiset(order) == multiset(s)
  {
    order := [];
    var todo := s;
    while todo != {}
      invariant todo <= s
      invariant multiset(order) == multiset(s - todo)
    {
      var id :| id in todo;
      order := order + [id];
      todo := todo - {id};
    }
  }

  class Broadcast {
    const self: Pid
    var n: nat
    var next: nat
    var inflight: nat
    var limit: nat
    var queue: seq<Message>
    var pending: set<MsgId>
    var acks: map<MsgId, set<Pid>>
    var delivered: DeliveredSet
    var peers: map<Pid, Window>
    var log: seq<Line>
    var links: map<Pid, PerfectLink>

    ghost predicate Valid()
      reads this, delivered
    {
      && delivered.Valid()
      && (forall p, q :: p in links && q in links && p != q ==> links[p] != links[q])
    }

    ghost function View(): Proc
      reads this, delivered, delivered.state.Values
    {
      Proc(self, n, next, inflight, limit, queue, pending, acks, delivered.View(), peers, log)
    }

    constructor (self: Pid)
      ensures Valid() && View() == InitProc(self, 1) && links == map[]
      ensures fresh(delivered) && delivered.state == map[]
    {
      this.self := self;
      n := 1;
      next := 1;
      inflight := 0;
      limit := 1;
      queue := [];
      pending := {};
      acks := map[];
      delivered := new DeliveredSet();
      peers := map[];
      log := [];
      links := map[];
    }

    /** `UniformReliableBroadcast::Add`: one more process, and a smaller allowance. */
    method Add(pl: PerfectLink)
      requires Valid() && n >= 1 && pl !in links.Values
      modifies this`n, this`limit, this`links
      ensures Valid() && links == old(links)[pl.target := pl]
      ensures View() == old(View()).(n := old(n) + 1, limit := Allowance(old(n) + 1))
      ensures n <= 181 ==> n * n * limit <= 32768 < n * n * (limit + 1)
      ensures n > 181 ==> limit == 1
    {
      UrbProofs.AllowanceIsLargest(n + 1);
      links := links[pl.target := pl];
      n := n + 1;
      limit := Allowance(n);
    }

    /** `BestEffortBroadcast::SendInternal`: the message goes on every link. */
    method PutOnLinks(m: Message)
      requires Valid()
      modifies links.Values
      ensures forall q :: q in links ==> links[q].View() == Put(old(links[q].View()), m)
    {
      hide Put;
      var todo := links.Keys;
      while todo != {}
        invariant todo <= links.Keys
        invariant forall q :: q in links && q in todo ==> links[q].View() == old(links[q].View())
        invariant forall q :: q in links && q !in todo ==> links[q].View() == Put(old(links[q].View()), m)
      {
        var q :| q in todo;
        var _ := links[q].Send(m);
        todo := todo - {q};
      }
    }

    /** `UniformReliableBroadcast::SendInternal` */
    method SendInternal(m: Message)
      requires Valid()
      modifies this`pending, links.Values
      ensures pending == old(pending) + {m.id}
      ensures forall q :: q in links ==> links[q].View() == Put(old(links[q].View()), m)
    {
      hide Put;
      pending := pending + {m.id};
      PutOnLinks(m);
    }

    /** `UniformReliableBroadcast::Send` */
    method Send(payload: Bytes)
      requires Valid()
      modifies this`next, this`log, this`queue, this`inflight, this`pending, links.Values
      ensures Valid()
      ensures View() == Urb.Send(old(View()), payload).proc
      ensures forall q :: q in links ==>
                links[q].View() == PutOut(old(links[q].View()), Urb.Send(old(View()), payload).out)
    {
      hide DeliveredSet.View, PerfectLink.View, Put, FetchAdd;
      var num := next;
      next := next + 1;
      var message := Message(MsgId(self, num), payload);
      log := log + [B(num)];
      if inflight >= limit {
        queue := queue + [message];
        return;
      }
      inflight := FetchAdd(inflight, 1);
      SendInternal(message);
    }

    /** `UniformReliableBroadcast::NotifyInternal` */
    method NotifyInternal(sender: Pid, m: Message)
      requires Valid()
      modifies this`acks, this`pending, links.Values
      ensures Valid()
      ensures View() == Urb.Notify(old(View()), sender, m).proc
      ensures forall q :: q in links ==>
                links[q].View() == PutOut(old(links[q].View()), Urb.Notify(old(View()), sender, m).out)
    {
      hide DeliveredSet.View, DeliveredSet.Contains, Has, PerfectLink.View, Put;
      var notPending := m.id !in pending;
      var notDelivered := !delivered.Contains(m.id);
      if notDelivered {
        acks := acks[m.id := AckSet(acks, m.id) + {sender}];
        if notPending {
          pending := pending + {m.id};
          PutOnLinks(m);
        }
      }
    }

    /** The loop of `UniformFIFOBroadcast::DeliverInternal` over the ordered stored numbers. */
    method DrainLoop(author: Pid, start: nat, stored: set<nat>) returns (next: nat, toRemove: seq<nat>)
      modifies this`log
      ensures Drain(start, stored) == Drained(Window(next, stored - Elems(toRemove)), toRemove)
      ensures log == old(log) + DLines(author, toRemove)
    {
      hide Ahead, Ascending, Least, Drain, DLines, Draining, Elems;
      next, toRemove := start, [];
      var order := Ascending(stored);
      ghost var rest := stored;
      ghost var all := Drain(start, stored);
      AscendingStart(stored);
      DrainStart(next, stored);
      NoElems(stored);
      assert old(log) + DLines(author, []) == old(log);
      var i := 0;
      while i < |order|
        invariant 0 <= i <= |order|
        invariant Ahead(order, i, rest)
        invariant rest == stored - Elems(toRemove)
        invariant log == old(log) + DLines(author, toRemove)
        invariant Draining(all, toRemove, next, rest)
      {
        AscendingStep(order, i, rest);
        if order[i] > next {
          break;
        }
        DrainAdvance(all, toRemove, next, rest, order[i]);
        DLinesAppend(old(log), author, toRemove, order[i]);
        LessOne(stored, toRemove, order[i]);
        toRemove := toRemove + [order[i]];
        log := log + [D(author, order[i])];
        rest := rest - {order[i]};
        next := next + 1;
        i := i + 1;
      }
      AscendingStep(order, i, rest);
      DrainDone(all, toRemove, next, rest);
    }

    /** `UniformFIFOBroadcast::DeliverInternal` with logging on: deliver the run that id completes. */
    method DeliverInternal(id: MsgId)
      modifies this`peers, this`log
      ensures var d := Windows.Arrive(At(old(peers), id.author), id.num);
              && peers == old(peers)[id.author := d.window]
              && log == old(log) + DLines(id.author, d.logged)
    {
      hide Drain, DLines;
      var state := At(peers, id.author);
      peers := peers[id.author := state];
      if id.num < state.bottom {
        return;
      }
      var stored := state.above + {id.num};
      var next, toRemove := DrainLoop(id.author, state.bottom, stored);
      stored := EraseAll(stored, toRemove);
      peers := peers[id.author := Window(next, stored)];
    }

    /** Free the slot of an own message and start a queued one. */
    method RefillSlot()
      requires Valid()
      modifies this`inflight, this`queue, this`pending, links.Values
      ensures Valid()
      ensures View() == Refill(old(View())).proc
      ensures forall q :: q in links ==>
                links[q].View() == PutOut(old(links[q].View()), Refill(old(View())).out)
    {
      hide DeliveredSet.View, PerfectLink.View, Put, FetchAdd;
      var before := inflight;
      inflight := FetchAdd(inflight, MINUS_ONE);
      if before <= limit && queue != [] {
        var msg := queue[0];
        queue := queue[1..];
        inflight := FetchAdd(inflight, 1);
        SendInternal(msg);
      }
    }

    /** The end of a delivery. */
    method Commit(id: MsgId)
      requires Valid()
      modifies this`acks, this`peers, this`log, delivered, delivered.state.Values
      ensures Valid() && fresh(delivered.state.Values - old(delivered.state.Values))
      ensures View() == Settle(old(View()), id)
    {
      hide InsertId, Windows.Arrive, DLines, Put;
      delivered.Insert(id);
      acks := acks - {id};
      DeliverInternal(id);
    }

    /** The start of a delivery. */
    method ReleaseOne(id: MsgId)
      requires Valid()
      modifies this`pending, this`inflight, this`queue, links.Values
      ensures Valid()
      ensures View() == Release(old(View()), id).proc
      ensures forall q :: q in links ==>
                links[q].View() == PutOut(old(links[q].View()), Release(old(View()), id).out)
    {
      hide DeliveredSet.View, PerfectLink.View, Put, Refill;
      pending := pending - {id};
      if id.author == self {
        RefillSlot();
      }
    }

    /** The body of the delivery loop under its guard. */
    method AcceptOne(id: MsgId)
      requires Valid()
      modifies this`pending, this`inflight, this`queue, this`acks, this`peers, this`log
      modifies delivered, delivered.state.Values, links.Values
      ensures Valid() && fresh(delivered.state.Values - old(delivered.state.Values))
      ensures View() == Accept(old(View()), id).proc
      ensures forall q :: q in links ==>
                links[q].View() == PutOut(old(links[q].View()), Accept(old(View()), id).out)
    {
      hide Put, PutOut, Release, Settle;
      ReleaseOne(id);
      Commit(id);
    }

    /** One iteration of the loop of `UniformReliableBroadcast::DeliverPending`. */
    method DeliverOne(id: MsgId)
      requires Valid()
      modifies this`pending, this`inflight, this`queue, this`acks, this`peers, this`log
      modifies delivered, delivered.state.Values, links.Values
      ensures Valid() && fresh(delivered.state.Values - old(delivered.state.Values))
      ensures View() == Deliver(old(View()), id).proc
      ensures forall q :: q in links ==>
                links[q].View() == PutOut(old(links[q].View()), Deliver(old(View()), id).out)
    {
      hide DeliveredSet.View, DeliveredSet.Contains, PerfectLink.View, Put, Accept, Has, AckSet;
      acks := acks[id := AckSet(acks, id)];
      var majoritySeen := |acks[id]| + 1 > n / 2;
      var notDelivered := !delivered.Contains(id);
      if majoritySeen && notDelivered {
        AcceptOne(id);
      }
    }

    /** One pass of `UniformReliableBroadcast::DeliverPending` over a snapshot of the pending ids. */
    method DeliverPending() returns (order: seq<MsgId>)
      requires Valid()
      modifies this`pending, this`inflight, this`queue, this`acks, this`peers, this`log
      modifies delivered, delivered.state.Values, links.Values
      ensures Valid() && fresh(delivered.state.Values - old(delivered.state.Values))
      ensures multiset(order) == multiset(old(pending))
      ensures View() == DeliverAll(old(View()), order).proc
      ensures forall q :: q in links ==>
                links[q].View() == PutSeq(old(links[q].View()), DeliverAll(old(View()), order).outs)
    {
      hide Put, Deliver, PutSeq, PutOut, DeliverAll;
      order := Snapshot(pending);
      NothingDelivered(View());
      assert order[..0] == [];
      for i := 0 to |order|
        invariant Valid() && fresh(delivered.state.Values - old(delivered.state.Values))
        invariant View() == DeliverAll(old(View()), order[..i]).proc
        invariant forall q :: q in links ==>
                    links[q].View() == PutSeq(old(links[q].View()), DeliverAll(old(View()), order[..i]).outs)
      {
        DeliverAllSnoc(old(View()), order, i);
        ghost var outs := DeliverAll(old(View()), order[..i]).outs;
        ghost var out := Deliver(View(), order[i]).out;
        forall q | q in links
          ensures PutOut(PutSeq(old(links[q].View()), outs), out)
               == PutSeq(old(links[q].View()), DeliverAll(old(View()), order[..i + 1]).outs)
        {
          PutSeqSnoc(old(links[q].View()), outs, out);
        }
        DeliverOne(order[i]);
      }
      assert order[..|order|] == order;
    }

    /** A data packet from src: acknowledge, tell the manager when unseen, remember. */
    method OnData(src: Pid, k: nat, m: Message, now: int)
      requires Valid() && src in links
      modifies this`acks, this`pending, links.Values
      ensures Valid()
      ensures var e := if k in old(links[src].seen) then Effect(old(View()), None)
                       else Urb.Notify(old(View()), src, m);
              && View() == e.proc
              && (forall q :: q in links && q != src ==> links[q].View() == PutOut(old(links[q].View()), e.out))
              && links[src].View() == Links.OnData(PutOut(old(links[src].View()), e.out), k, now)
    {
      hide Urb.Notify;
      var unseen := links[src].Acknowledge(k);
      if unseen {
        NotifyInternal(src, m);
      }
      links[src].Remember(k, now);
    }
  }

  lemma NothingDelivered(p: Proc)
    ensures DeliverAll(p, []) == Batch(p, [])
    ensures forall l :: PutSeq(l, []) == l
  {
  }
}
