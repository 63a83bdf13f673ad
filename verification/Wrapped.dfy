/**
 One link with the wrap-around of its counter, in isolation: the sender's numbers are taken modulo
 M (2^32 in the code), and a number that is still stored when it comes up again swallows the new
 message. Messages put on a link are pairwise different, as module Theorems proves of the system.
 */
module WrappedLink {
  import opened Types
  import opened Links

  datatype Channel = Channel(
    snd: Link,
    rcv: Link,
    net: set<Body>,           // data towards the receiver, acks towards the sender
    now: int,                 // the receiver's clock
    // Histories:
    sent: seq<Message>,
    handed: set<Message>)

  datatype Step =
    | PutNext(m: Message) | Transmit | TransmitAcks
    | ReceiveData(k: nat, m: Message) | ReceiveAck(k: nat)
    | CleanUp | Tick(t: int)

  const INIT := Channel(INIT_LINK, INIT_LINK, {}, 0, [], {})

  /** The unsigned counter after x. */
  function After(M: nat, x: nat): nat {
    if x + 1 >= M then 0 else x + 1
  }

  /** `PerfectLink::Send` on an unsigned counter. */
  function WrapPut(M: nat, l: Link, m: Message): Link
    requires M >= 2
  {
    Put(l, m).(next := After(M, l.next))
  }

  predicate Enabled(c: Channel, u: Step) {
    match u
    case PutNext(m) => m !in c.sent
    case ReceiveData(k, m) => Data(k, m) in c.net
    case ReceiveAck(k) => Ack(k) in c.net
    case Tick(t) => t >= c.now
    case _ => true
  }

  function Apply(M: nat, strong: bool, c: Channel, u: Step): Channel
    requires M >= 2
  {
    match u
    case PutNext(m) => c.(snd := WrapPut(M, c.snd, m), sent := c.sent + [m])
    case Transmit => c.(net := c.net + set k | k in c.snd.toSend :: Data(k, c.snd.toSend[k]))
    case TransmitAcks => c.(net := c.net + set k | k in c.rcv.acksToSend :: Ack(k))
    case ReceiveData(k, m) =>
      c.(rcv := OnData(c.rcv, k, c.now), handed := if k in c.rcv.seen then c.handed else c.handed + {m})
    case ReceiveAck(k) => c.(snd := OnAck(c.snd, k))
    case CleanUp => c.(rcv := Clean(c.rcv, c.now, strong))
    case Tick(t) => c.(now := t)
  }

  ghost predicate Runs(M: nat, strong: bool, c: Channel, steps: seq<Step>, d: Channel)
    requires M >= 2
    decreases |steps|
  {
    if steps == [] then c == d
    else Enabled(c, steps[0]) && Runs(M, strong, Apply(M, strong, c, steps[0]), steps[1..], d)
  }

  ghost predicate Reachable(M: nat, strong: bool, c: Channel)
    requires M >= 2
  {
    exists steps :: Runs(M, strong, INIT, steps, c)
  }

  /** The number of the i-th message put, counting from 0. */
  function Num(M: nat, i: nat): nat
    requires M >= 2
  {
    if i == 0 then 1 else After(M, Num(M, i - 1))
  }

  /** The i-th message is still stored under its number, or was handed up. */
  predicate Kept(M: nat, c: Channel, i: nat)
    requires M >= 2 && i < |c.sent|
  {
    c.sent[i] in c.handed || (Num(M, i) in c.snd.toSend && c.snd.toSend[Num(M, i)] == c.sent[i])
  }

  // ------------------------------------------------------------------------------------------
  // Within one round of numbers

  /** The message of the first round that has number k. */
  function Slot(M: nat, k: nat): int {
    if k == 0 then M - 1 else k - 1
  }

  lemma {:induction false} FirstRoundNum(M: nat, i: nat)
    requires M >= 2 && i < M
    ensures Num(M, i) == if i + 1 == M then 0 else i + 1
  {
    if i > 0 {
      FirstRoundNum(M, i - 1);
    }
  }

  lemma SlotOfNum(M: nat, i: nat)
    requires M >= 2 && i < M
    ensures Num(M, i) < M && Slot(M, Num(M, i)) == i
    ensures forall k: nat :: k < M && Slot(M, k) == i ==> k == Num(M, i)
    ensures After(M, Num(M, i)) == Num(M, i + 1)
  {
    FirstRoundNum(M, i);
  }

  /** Number k stands for a message of the first round. */
  predicate Stands(M: nat, sent: seq<Message>, k: nat, m: Message) {
    k < M && 0 <= Slot(M, k) < |sent| && sent[Slot(M, k)] == m
  }

  predicate Done(M: nat, sent: seq<Message>, handed: set<Message>, k: nat) {
    k < M && 0 <= Slot(M, k) < |sent| && sent[Slot(M, k)] in handed
  }

  ghost predicate FirstRound(M: nat, c: Channel)
    requires M >= 2
  {
    && c.snd.next == Num(M, |c.sent|)
    && (forall k :: k in c.snd.toSend ==> Stands(M, c.sent, k, c.snd.toSend[k]))
    && (forall k: nat, m :: Data(k, m) in c.net ==> Stands(M, c.sent, k, m))
    && (forall k: nat :: Ack(k) in c.net ==> Done(M, c.sent, c.handed, k))
    && (forall k :: k in c.rcv.acksToSend || k in c.rcv.seen ==> Done(M, c.sent, c.handed, k))
    && (forall i :: 0 <= i < |c.sent| ==> Kept(M, c, i))
  }

  lemma PutFirstRound(M: nat, c: Channel, m: Message)
    requires M >= 2 && FirstRound(M, c) && |c.sent| < M
    ensures FirstRound(M, c.(snd := WrapPut(M, c.snd, m), sent := c.sent + [m]))
  {
    hide Num, Slot;
    var n := |c.sent|;
    var d := c.(snd := WrapPut(M, c.snd, m), sent := c.sent + [m]);
    SlotOfNum(M, n);
    assert c.snd.next !in c.snd.toSend;
    forall i | 0 <= i < |d.sent|
      ensures Kept(M, d, i)
    {
      if i < n {
        SlotOfNum(M, i);
        assert Kept(M, c, i);
      }
    }
  }

  lemma ReceiveFirstRound(M: nat, strong: bool, c: Channel, k: nat, m: Message)
    requires M >= 2 && FirstRound(M, c) && Data(k, m) in c.net
    ensures FirstRound(M, Apply(M, strong, c, ReceiveData(k, m)))
  {
    hide Num, Slot;
    var d := Apply(M, strong, c, ReceiveData(k, m));
    assert Done(M, d.sent, d.handed, k);
    forall i | 0 <= i < |d.sent|
      ensures Kept(M, d, i)
    {
      assert Kept(M, c, i);
    }
  }

  lemma AckFirstRound(M: nat, strong: bool, c: Channel, k: nat)
    requires M >= 2 && FirstRound(M, c) && |c.sent| <= M && Ack(k) in c.net
    ensures FirstRound(M, Apply(M, strong, c, ReceiveAck(k)))
  {
    hide Num, Slot;
    var d := Apply(M, strong, c, ReceiveAck(k));
    forall i | 0 <= i < |d.sent|
      ensures Kept(M, d, i)
    {
      assert Kept(M, c, i);
      SlotOfNum(M, i);
      assert Done(M, c.sent, c.handed, k);
    }
  }

  lemma NetFirstRound(M: nat, strong: bool, c: Channel, u: Step)
    requires M >= 2 && FirstRound(M, c) && (u.Transmit? || u.TransmitAcks? || u.CleanUp? || u.Tick?)
    ensures FirstRound(M, Apply(M, strong, c, u))
  {
    hide Num, Slot, Stands, Done;
    var d := Apply(M, strong, c, u);
    forall i | 0 <= i < |d.sent|
      ensures Kept(M, d, i)
    {
      assert Kept(M, c, i);
    }
  }

  lemma StepFirstRound(M: nat, strong: bool, c: Channel, u: Step)
    requires M >= 2 && FirstRound(M, c) && Enabled(c, u) && |Apply(M, strong, c, u).sent| <= M
    ensures FirstRound(M, Apply(M, strong, c, u))
  {
    hide FirstRound;
    match u
    case PutNext(m) => PutFirstRound(M, c, m);
    case ReceiveData(k, m) => ReceiveFirstRound(M, strong, c, k, m);
    case ReceiveAck(k) => AckFirstRound(M, strong, c, k);
    case _ => NetFirstRound(M, strong, c, u);
  }

  lemma {:induction false} SentGrows(M: nat, strong: bool, c: Channel, steps: seq<Step>, d: Channel)
    requires M >= 2 && Runs(M, strong, c, steps, d)
    ensures |c.sent| <= |d.sent|
    decreases |steps|
  {
    hide WrapPut, OnData, OnAck, Clean;
    if steps != [] {
      SentGrows(M, strong, Apply(M, strong, c, steps[0]), steps[1..], d);
    }
  }

  lemma {:induction false} RunFirstRound(M: nat, strong: bool, c: Channel, steps: seq<Step>, d: Channel)
    requires M >= 2 && FirstRound(M, c) && Runs(M, strong, c, steps, d) && |d.sent| <= M
    ensures FirstRound(M, d)
    decreases |steps|
  {
    hide FirstRound, Apply, Enabled;
    if steps != [] {
      var e := Apply(M, strong, c, steps[0]);
      SentGrows(M, strong, e, steps[1..], d);
      StepFirstRound(M, strong, c, steps[0]);
      RunFirstRound(M, strong, e, steps[1..], d);
    }
  }

  /** With at most M messages put on it, a link loses none, in either mode. */
  lemma WrapKeeps(M: nat, strong: bool, c: Channel, i: nat)
    requires M >= 2 && Reachable(M, strong, c) && |c.sent| <= M && i < |c.sent|
    ensures Kept(M, c, i)
  {
    hide Runs, Kept;
    var steps :| Runs(M, strong, INIT, steps, c);
    RunFirstRound(M, strong, INIT, steps, c);
  }

  // ------------------------------------------------------------------------------------------
  // Beyond one round

  lemma {:induction false} RunsSnoc(M: nat, strong: bool, c: Channel, steps: seq<Step>, d: Channel, u: Step)
    requires M >= 2 && Runs(M, strong, c, steps, d) && Enabled(d, u)
    ensures Runs(M, strong, c, steps + [u], Apply(M, strong, d, u))
    decreases |steps|
  {
    hide Apply, Enabled;
    if steps == [] {
      assert steps + [u] == [u];
      assert [u][1..] == [];
    } else {
      RunsSnoc(M, strong, Apply(M, strong, c, steps[0]), steps[1..], d, u);
      assert (steps + [u])[1..] == steps[1..] + [u];
    }
  }

  lemma Take(M: nat, strong: bool, c: Channel, u: Step) returns (d: Channel)
    requires M >= 2 && Reachable(M, strong, c) && Enabled(c, u)
    ensures Reachable(M, strong, d) && d == Apply(M, strong, c, u)
  {
    hide Runs, Apply, Enabled;
    var steps :| Runs(M, strong, INIT, steps, c);
    RunsSnoc(M, strong, INIT, steps, c, u);
    d := Apply(M, strong, c, u);
  }

  /** Different messages, for the run. */
  function Text(i: nat): Message {
    Message(MsgId(1, i + 1), [])
  }

  /** The messages put so far are Text(0), Text(1), ...; only the first was handed up and acknowledged. */
  ghost predicate OneAcked(M: nat, c: Channel)
    requires M >= 2
  {
    && c.snd.next == Num(M, |c.sent|) && |c.sent| >= 1
    && (forall i :: 0 <= i < |c.sent| ==> c.sent[i] == Text(i))
    && c.handed == {Text(0)} && Ack(1) in c.net
  }

  lemma OneAckedStart(M: nat, strong: bool) returns (c: Channel)
    requires M >= 2
    ensures Reachable(M, strong, c) && OneAcked(M, c) && |c.sent| == 1 && c.snd.toSend == map[]
  {
    hide Reachable;
    c := INIT;
    InitReachable(M, strong);
    c := Take(M, strong, c, PutNext(Text(0)));
    c := Take(M, strong, c, Transmit);
    c := Take(M, strong, c, ReceiveData(1, Text(0)));
    c := Take(M, strong, c, TransmitAcks);
    c := Take(M, strong, c, ReceiveAck(1));
    assert c.snd.next == After(M, Num(M, 0)) == Num(M, 1);
  }

  lemma InitReachable(M: nat, strong: bool)
    requires M >= 2
    ensures Reachable(M, strong, INIT)
  {
    assert Runs(M, strong, INIT, [], INIT);
  }

  /** Put one more message; what it stores is that message under the next number. */
  lemma PutOne(M: nat, strong: bool, c: Channel) returns (d: Channel)
    requires M >= 2 && Reachable(M, strong, c) && OneAcked(M, c)
    ensures Reachable(M, strong, d) && OneAcked(M, d) && |d.sent| == |c.sent| + 1
    ensures d.snd.toSend == if c.snd.next in c.snd.toSend then c.snd.toSend
                            else c.snd.toSend[c.snd.next := Text(|c.sent|)]
  {
    hide Reachable;
    d := Take(M, strong, c, PutNext(Text(|c.sent|)));
  }

  /** The rest of the first round leaves number 1 free. */
  lemma {:induction false} FinishRound(M: nat, strong: bool, k: nat) returns (c: Channel)
    requires M >= 2 && 1 <= k <= M
    ensures Reachable(M, strong, c) && OneAcked(M, c) && |c.sent| == k && 1 !in c.snd.toSend
  {
    hide Reachable, OneAcked, Num;
    if k == 1 {
      c := OneAckedStart(M, strong);
    } else {
      c := FinishRound(M, strong, k - 1);
      NumIsOne(M, k - 1);
      NextIsNum(M, c);
      c := PutOne(M, strong, c);
    }
  }

  lemma NextIsNum(M: nat, c: Channel)
    requires M >= 2 && OneAcked(M, c)
    ensures c.snd.next == Num(M, |c.sent|)
  {
  }

  lemma NumIsOne(M: nat, i: nat)
    requires M >= 2 && 1 <= i <= M
    ensures Num(M, i) == 1 <==> i == M
  {
    FirstRoundNum(M, i - 1);
  }

  /** The first message of the second round is gone: stored nowhere and not handed up. */
  predicate SecondGone(M: nat, c: Channel) {
    |c.sent| > M && forall k :: k in c.snd.toSend ==> c.snd.toSend[k] != Text(M)
  }

  /**
   More than M messages on a link can lose one, in either mode: the first message of the second
   round takes number 1 again, and the network delivers an old acknowledgement of number 1.
   */
  lemma WrapLoses(M: nat, strong: bool, n: nat) returns (c: Channel)
    requires M >= 2 && n > M
    ensures Reachable(M, strong, c) && |c.sent| == n && !Kept(M, c, M)
  {
    c := Lossy(M, strong, n);
  }

  lemma {:induction false} Lossy(M: nat, strong: bool, n: nat) returns (c: Channel)
    requires M >= 2 && n > M
    ensures Reachable(M, strong, c) && OneAcked(M, c) && |c.sent| == n && SecondGone(M, c)
    decreases n
  {
    hide Reachable, Num;
    if n == M + 1 {
      c := FinishRound(M, strong, M);
      OnlyTexts(M, strong, c);
      NumIsOne(M, M);
      c := PutOne(M, strong, c);
      c := Take(M, strong, c, ReceiveAck(1));
    } else {
      c := Lossy(M, strong, n - 1);
      c := PutOne(M, strong, c);
    }
  }

  /** What is stored was put. */
  lemma OnlyTexts(M: nat, strong: bool, c: Channel)
    requires M >= 2 && Reachable(M, strong, c)
    ensures forall k :: k in c.snd.toSend ==> c.snd.toSend[k] in c.sent
  {
    hide Runs;
    var steps :| Runs(M, strong, INIT, steps, c);
    RunBounds(M, strong, INIT, steps, c);
  }

  // ------------------------------------------------------------------------------------------
  // Strong mode

  ghost predicate Bounds(M: nat, strong: bool, c: Channel) {
    && c.snd.next < M
    && (forall k :: k in c.snd.toSend ==> k < M && c.snd.toSend[k] in c.sent)
    && (forall k: nat, m :: Data(k, m) in c.net ==> k < M)
    && (forall k :: k in c.rcv.seen ==> k < M)
    && (forall i, j :: 0 <= i < j < |c.sent| ==> c.sent[i] != c.sent[j])
    && (strong ==> |c.handed| <= |c.rcv.seen|)
  }

  lemma StepBounds(M: nat, strong: bool, c: Channel, u: Step)
    requires M >= 2 && Bounds(M, strong, c) && Enabled(c, u)
    ensures Bounds(M, strong, Apply(M, strong, c, u))
  {
    if u.ReceiveData? && u.k !in c.rcv.seen {
      assert c.rcv.seen[u.k := c.now].Keys == c.rcv.seen.Keys + {u.k};
      assert |c.handed + {u.m}| <= |c.handed| + 1;
    } else if u.ReceiveData? {
      assert c.rcv.seen[u.k := c.now].Keys == c.rcv.seen.Keys;
    }
  }

  lemma {:induction false} RunBounds(M: nat, strong: bool, c: Channel, steps: seq<Step>, d: Channel)
    requires M >= 2 && Bounds(M, strong, c) && Runs(M, strong, c, steps, d)
    ensures Bounds(M, strong, d)
    decreases |steps|
  {
    hide Bounds, Apply, Enabled;
    if steps != [] {
      StepBounds(M, strong, c, steps[0]);
      RunBounds(M, strong, Apply(M, strong, c, steps[0]), steps[1..], d);
    }
  }

  lemma {:induction false} BelowCount(s: set<nat>, M: nat)
    requires forall k :: k in s ==> k < M
    ensures |s| <= M
  {
    if M == 0 {
      assert s == {};
    } else {
      BelowCount(s - {M - 1}, M - 1);
      assert |s| <= |s - {M - 1}| + 1;
    }
  }

  /** The messages that were put and not handed up. */
  function Missing(sent: seq<Message>, handed: set<Message>): set<Message> {
    set m | m in sent && m !in handed
  }

  lemma {:induction false} MissingCount(sent: seq<Message>, handed: set<Message>)
    requires forall i, j :: 0 <= i < j < |sent| ==> sent[i] != sent[j]
    ensures |Missing(sent, handed)| >= |sent| - |handed|
  {
    if sent != [] {
      var k := |sent| - 1;
      var rest, m := sent[..k], sent[k];
      assert sent == rest + [m] && m !in rest;
      if m in handed {
        MissingCount(rest, handed - {m});
        assert Missing(sent, handed) == Missing(rest, handed - {m});
      } else {
        MissingCount(rest, handed);
        assert Missing(sent, handed) == Missing(rest, handed) + {m};
      }
    }
  }

  /**
   In strong mode a link hands up at most M messages, ever: of more, all but M are missing, and once
   nothing is left to send they are lost.
   */
  lemma StrongHandsUpOneRound(M: nat, c: Channel)
    requires M >= 2 && Reachable(M, true, c)
    ensures |c.handed| <= M && |Missing(c.sent, c.handed)| >= |c.sent| - M
    ensures c.snd.toSend == map[] ==> forall i :: 0 <= i < |c.sent| && c.sent[i] !in c.handed ==> !Kept(M, c, i)
  {
    hide Runs, Num;
    var steps :| Runs(M, true, INIT, steps, c);
    RunBounds(M, true, INIT, steps, c);
    BelowCount(c.rcv.seen.Keys, M);
    MissingCount(c.sent, c.handed);
  }

  // ------------------------------------------------------------------------------------------
  // Weak mode

  /** Everything put has been handed up and acknowledged, and the receiver remembers nothing. */
  ghost predicate Drained(c: Channel) {
    && c.snd.toSend == map[] && c.rcv.seen == map[] && c.rcv.acksToSend == {}
    && (forall m :: m in c.handed <==> m in c.sent)
  }

  /** One message over and back, and nine seconds later a clean-up. */
  lemma OneRound(M: nat, c: Channel, m: Message) returns (d: Channel)
    requires M >= 2 && Reachable(M, false, c) && Drained(c) && m !in c.sent
    ensures Reachable(M, false, d) && Drained(d) && d.sent == c.sent + [m]
  {
    hide Reachable;
    var k := c.snd.next;
    d := Take(M, false, c, PutNext(m));
    assert d.snd.toSend == map[k := m];
    d := Take(M, false, d, Transmit);
    assert Data(k, m) in d.net;
    d := Take(M, false, d, ReceiveData(k, m));
    assert d.rcv.seen == map[k := c.now] && d.rcv.acksToSend == {k};
    d := Take(M, false, d, TransmitAcks);
    assert Ack(k) in d.net;
    d := Take(M, false, d, ReceiveAck(k));
    assert d.snd.toSend == map[];
    d := Take(M, false, d, Tick(c.now + 9));
    d := Take(M, false, d, CleanUp);
  }

  /** Weak mode is not limited to one round: for any different messages a run hands all of them up. */
  lemma {:induction false} WeakHandsUpAll(M: nat, ms: seq<Message>) returns (c: Channel)
    requires M >= 2 && forall i, j :: 0 <= i < j < |ms| ==> ms[i] != ms[j]
    ensures Reachable(M, false, c) && Drained(c) && c.sent == ms
  {
    hide Reachable, Drained;
    if ms == [] {
      c := INIT;
      InitReachable(M, false);
      assert Drained(INIT) by { InitDrained(); }
    } else {
      var k := |ms| - 1;
      c := WeakHandsUpAll(M, ms[..k]);
      c := OneRound(M, c, ms[k]);
      assert ms[..k] + [ms[k]] == ms;
    }
  }

  lemma InitDrained()
    ensures Drained(INIT)
  {
  }
}
