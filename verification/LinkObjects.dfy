/** The link object: its containers are fields, its loops are loops. */
module LinkObjects {
  import opened Types
  import opened Links
  import opened System

  class PerfectLink {
    const self: Pid
    const target: Pid
    var next: nat
    var toSend: map<nat, Message>
    var acksToSend: set<nat>
    var seen: map<nat, int>

    ghost function View(): Link
      reads this
    {
      Link(next, toSend, acksToSend, seen)
    }

    constructor (self: Pid, target: Pid)
      ensures View() == INIT_LINK && this.self == self && this.target == target
    {
      this.self := self;
      this.target := target;
      next := 1;
      toSend := map[];
      acksToSend := {};
      seen := map[];
    }

    /** `PerfectLink::Send` */
    method Send(m: Message) returns (k: nat)
      modifies this
      ensures View() == Put(old(View()), m) && k == old(next)
    {
      k := next;
      next := next + 1;
      if k !in toSend {
        toSend := toSend[k := m];
      }
    }

    /** `PerfectLink::SendMessages`: transmit everything that is not acknowledged. */
    method SendMessages() returns (out: set<Packet>)
      ensures out == DataPackets(Way(self, target), View())
    {
      out := {};
      var todo := toSend.Keys;
      while todo != {}
        invariant todo <= toSend.Keys
        invariant out == set k | k in toSend.Keys - todo :: Packet(self, target, Data(k, toSend[k]))
      {
        var k :| k in todo;
        out := out + {Packet(self, target, Data(k, toSend[k]))};
        todo := todo - {k};
      }
    }

    /** `PerfectLink::SendAcks`: with nothing to acknowledge it does not clean up either. */
    method SendAcks(now: int, strong: bool) returns (out: set<Packet>)
      modifies this
      ensures out == AckPackets(Way(self, target), old(View()))
      ensures View() == if old(acksToSend) == {} then old(View()) else Clean(old(View()), now, strong)
    {
      out := {};
      if acksToSend == {} {
        return;
      }
      var todo := acksToSend;
      while todo != {}
        invariant todo <= acksToSend
        invariant unchanged(this)
        invariant out == set k | k in acksToSend - todo :: Packet(self, target, Ack(k))
      {
        var k :| k in todo;
        out := out + {Packet(self, target, Ack(k))};
        todo := todo - {k};
      }
      CleanAcks(now, strong);
    }

    /** `PerfectLink::CleanAcks`: collect what is old, forget what is very old, stop acking both. */
    method CleanAcks(now: int, strong: bool)
      modifies this
      ensures View() == Clean(old(View()), now, strong)
      ensures seen.Keys == set k | k in old(seen) && (strong || now - old(seen)[k] < 9)
      ensures acksToSend == set k | k in old(acksToSend) && (k in old(seen) ==> now - old(seen)[k] < 1)
    {
      var stop, forget := Aged(now);
      if !strong {
        seen := seen - forget;
      }
      acksToSend := acksToSend - stop;
    }

    /** The numbers to stop acknowledging, and among them those to forget. */
    method Aged(now: int) returns (stop: set<nat>, forget: set<nat>)
      ensures stop == set k | k in seen && now - seen[k] >= 1
      ensures forget == set k | k in seen && now - seen[k] >= 9
    {
      stop, forget := {}, {};
      var todo := seen.Keys;
      while todo != {}
        invariant todo <= seen.Keys
        invariant stop == set k | k in seen.Keys - todo && StopAcks(now - seen[k])
        invariant forget == set k | k in seen.Keys - todo && Forget(now - seen[k])
      {
        var k :| k in todo;
        if StopAcks(now - seen[k]) {
          stop := stop + {k};
          if Forget(now - seen[k]) {
            forget := forget + {k};
          }
        }
        todo := todo - {k};
      }
    }

    /** The part of `PerfectLink::Notify` for a message that comes before the manager is told. */
    method Acknowledge(k: nat) returns (unseen: bool)
      modifies this`acksToSend
      ensures acksToSend == old(acksToSend) + {k} && unseen == (k !in seen)
    {
      acksToSend := acksToSend + {k};
      unseen := k !in seen;
    }

    /** The part that comes after. */
    method Remember(k: nat, now: int)
      modifies this`seen
      ensures seen == old(seen)[k := now]
    {
      seen := seen[k := now];
    }

    /** `PerfectLink::Notify` for an acknowledgement. */
    method OnAck(k: nat)
      modifies this
      ensures View() == Links.OnAck(old(View()), k)
    {
      if k in toSend {
        toSend := toSend - {k};
      }
    }
  }
}
