/**
 One process at the granularity of its locks: the application, receive and delivery threads take
 turns at every locked region and atomic operation. The delivered set is a plain set here (module
 Windows proves that the compacting record answers like one).
 */
module LockLevel {
  import opened Types

  // The application thread inside `Send`; each state names the operation that comes next.
  datatype MainPc =
    | MIdle
    | MTest(id: MsgId)     // compare the counter with the limit
    | MPush(id: MsgId)     // push to the queue
    | MCount(id: MsgId)    // add one to the counter
    | MPend(id: MsgId)     // insert into the pending set
    | MPut(id: MsgId)      // put on the links

  // The receive thread inside `NotifyInternal`.
  datatype RecvPc =
    | RIdle
    | RLook(sender: Pid, id: MsgId)                      // read the pending set
    | RCheck(sender: Pid, id: MsgId, notPending: bool)   // read the delivered set
    | RAck(sender: Pid, id: MsgId, notPending: bool)     // insert into the ack table
    | RPend(id: MsgId)
    | RPut(id: MsgId)

  // The delivery thread inside `DeliverPending`; `todo` is the rest of its snapshot.
  datatype DelPc =
    | DIdle
    | DNext(todo: seq<MsgId>)                           // count the acks of the first id
    | DCheck(id: MsgId, todo: seq<MsgId>, seen: bool)   // read the delivered set
    | DErase(id: MsgId, todo: seq<MsgId>)               // erase from the pending set
    | DCount(id: MsgId, todo: seq<MsgId>)               // subtract one for an own id
    | DPop(id: MsgId, todo: seq<MsgId>)                 // pop the queue
    | DRefill(id: MsgId, todo: seq<MsgId>, m: MsgId)    // add one to the counter
    | DPend(id: MsgId, todo: seq<MsgId>, m: MsgId)
    | DPut(id: MsgId, todo: seq<MsgId>, m: MsgId)
    | DInsert(id: MsgId, todo: seq<MsgId>)              // insert into the delivered set
    | DForget(id: MsgId, todo: seq<MsgId>)              // erase from the ack table
    | DUp(id: MsgId, todo: seq<MsgId>)                  // call DeliverInternal

  datatype Local = Local(
    self: Pid, n: nat, limit: nat,
    next: nat,
    inflight: int,
    queue: seq<MsgId>,
    pending: set<MsgId>,
    acks: map<MsgId, set<Pid>>,
    delivered: set<MsgId>,
    main: MainPc, recv: RecvPc, del: DelPc,
    // Histories:
    puts: multiset<MsgId>,      // ids put on the links, counted when the fan-out is complete
    ups: multiset<MsgId>,       // ids passed to DeliverInternal
    erased: set<MsgId>,         // ids erased from the pending set
    started: set<MsgId>,        // own ids counted in
    finished: set<MsgId>)       // own ids counted out

  function Init(self: Pid, n: nat, limit: nat): Local {
    Local(self, n, limit, 1, 0, [], {}, map[], {}, MIdle, RIdle, DIdle,
          multiset{}, multiset{}, {}, {}, {})
  }

  datatype Step =
    | MainStart | MainStep
    | RecvStart(sender: Pid, id: MsgId) | RecvStep
    | DelStart(order: seq<MsgId>) | DelStep

  /** An own id has been inserted into the pending set. */
  predicate Own(self: Pid, pending: set<MsgId>, erased: set<MsgId>, id: MsgId) {
    id.author == self ==> id in pending || id in erased
  }

  /**
   Links lead to the other processes. An own id can come back as soon as it is pending, while the
   fan-out over the links is still under way: no lock is held across it.
   */
  predicate Enabled(s: Local, t: Step) {
    match t
    case MainStart => s.main.MIdle?
    case MainStep => !s.main.MIdle?
    case RecvStart(p, id) => s.recv.RIdle? && 1 <= p <= s.n && p != s.self && Own(s.self, s.pending, s.erased, id)
    case RecvStep => !s.recv.RIdle?
    case DelStart(order) => s.del.DIdle? && multiset(order) == multiset(s.pending)
    case DelStep => !s.del.DIdle?
  }

  function AckSet(acks: map<MsgId, set<Pid>>, id: MsgId): set<Pid> {
    if id in acks then acks[id] else {}
  }

  function MainNext(s: Local): Local {
    match s.main
    case MIdle => s.(next := s.next + 1, main := MTest(MsgId(s.self, s.next)))
    case MTest(id) => s.(main := if s.inflight >= s.limit then MPush(id) else MCount(id))
    case MPush(id) => s.(queue := s.queue + [id], main := MIdle)
    case MCount(id) => s.(inflight := s.inflight + 1, started := s.started + {id}, main := MPend(id))
    case MPend(id) => s.(pending := s.pending + {id}, main := MPut(id))
    case MPut(id) => s.(puts := s.puts + multiset{id}, main := MIdle)
  }

  function RecvNext(s: Local): Local {
    match s.recv
    case RIdle => s
    case RLook(p, id) => s.(recv := RCheck(p, id, id !in s.pending))
    case RCheck(p, id, np) => s.(recv := if id in s.delivered then RIdle else RAck(p, id, np))
    case RAck(p, id, np) =>
      s.(acks := s.acks[id := AckSet(s.acks, id) + {p}], recv := if np then RPend(id) else RIdle)
    case RPend(id) => s.(pending := s.pending + {id}, recv := RPut(id))
    case RPut(id) => s.(puts := s.puts + multiset{id}, recv := RIdle)
  }

  function DelNext(s: Local): Local {
    match s.del
    case DIdle => s
    case DNext(todo) =>
      if todo == [] then s.(del := DIdle)
      else s.(acks := s.acks[todo[0] := AckSet(s.acks, todo[0])],
              del := DCheck(todo[0], todo[1..], |AckSet(s.acks, todo[0])| + 1 > s.n / 2))
    case DCheck(id, todo, seen) =>
      s.(del := if seen && id !in s.delivered then DErase(id, todo) else DNext(todo))
    case DErase(id, todo) => s.(pending := s.pending - {id}, erased := s.erased + {id}, del := DCount(id, todo))
    case DCount(id, todo) =>
      if id.author != s.self then s.(del := DInsert(id, todo))
      else s.(inflight := s.inflight - 1, finished := s.finished + {id},
              del := if s.inflight <= s.limit then DPop(id, todo) else DInsert(id, todo))
    case DPop(id, todo) =>
      if s.queue == [] then s.(del := DInsert(id, todo))
      else s.(queue := s.queue[1..], del := DRefill(id, todo, s.queue[0]))
    case DRefill(id, todo, m) => s.(inflight := s.inflight + 1, started := s.started + {m}, del := DPend(id, todo, m))
    case DPend(id, todo, m) => s.(pending := s.pending + {m}, del := DPut(id, todo, m))
    case DPut(id, todo, m) => s.(puts := s.puts + multiset{m}, del := DInsert(id, todo))
    case DInsert(id, todo) => s.(delivered := s.delivered + {id}, del := DForget(id, todo))
    case DForget(id, todo) => s.(acks := s.acks - {id}, del := DUp(id, todo))
    case DUp(id, todo) => s.(ups := s.ups + multiset{id}, del := DNext(todo))
  }

  function Apply(s: Local, t: Step): Local {
    match t
    case MainStart => MainNext(s)
    case MainStep => MainNext(s)
    case RecvStart(p, id) => s.(recv := RLook(p, id))
    case RecvStep => RecvNext(s)
    case DelStart(order) => s.(del := DNext(order))
    case DelStep => DelNext(s)
  }

  ghost predicate Runs(s: Local, steps: seq<Step>, t: Local)
    decreases |steps|
  {
    if steps == [] then s == t
    else Enabled(s, steps[0]) && Runs(Apply(s, steps[0]), steps[1..], t)
  }

  ghost predicate Reachable(s: Local) {
    exists self, n, limit, steps :: limit >= 1 && Runs(Init(self, n, limit), steps, s)
  }

  // ------------------------------------------------------------------------------------------
  // Invariant

  /** The id the delivery thread has erased but not yet inserted. */
  function BusyOn(d: DelPc): Option<MsgId> {
    if d.DCount? || d.DPop? || d.DRefill? || d.DPend? || d.DPut? || d.DInsert? then Some(d.id) else None
  }

  /** Once the guard has passed and until the insert, the id is not delivered. */
  ghost predicate OnceInv(del: DelPc, delivered: set<MsgId>, erased: set<MsgId>, ups: multiset<MsgId>) {
    && (forall id :: ups[id] <= 1)
    && (forall id :: ups[id] == 1 ==> id in delivered)
    && (BusyOn(del).Some? ==> del.id !in delivered)
    && (del.DErase? ==> del.id !in delivered)
    && (del.DForget? || del.DUp? ==> del.id in delivered && ups[del.id] == 0)
    && (forall id :: id in erased <==> id in delivered || BusyOn(del) == Some(id))
  }

  /** The snapshot of the delivery thread: distinct ids, still pending until their turn. */
  ghost predicate TodoInv(del: DelPc, pending: set<MsgId>) {
    del.DIdle? || (
      && (forall i, j :: 0 <= i < j < |del.todo| ==> del.todo[i] != del.todo[j])
      && (forall id :: id in del.todo ==> id in pending)
      && (!del.DNext? ==> del.id !in del.todo)
      && (del.DCheck? || del.DErase? ==> del.id in pending))
  }

  function Bit(b: bool): nat {
    if b then 1 else 0
  }

  /** How many threads stand between inserting id into the pending set and putting it on the links. */
  function Between(main: MainPc, recv: RecvPc, del: DelPc, id: MsgId): nat {
    Bit(main == MPut(id)) + Bit(recv == RPut(id)) + Bit(del.DPut? && del.m == id)
  }

  /** Every insertion into the pending set is matched by one put, and is undone at most once. */
  ghost predicate PutInv(main: MainPc, recv: RecvPc, del: DelPc,
                         pending: set<MsgId>, erased: set<MsgId>, puts: multiset<MsgId>) {
    forall id :: puts[id] + Between(main, recv, del, id) == Bit(id in pending) + Bit(id in erased)
  }

  /** Own ids that have a number but have not been inserted into the pending set yet. */
  function MainHolds(main: MainPc): multiset<MsgId> {
    if main.MTest? || main.MPush? || main.MCount? || main.MPend? then multiset{main.id} else multiset{}
  }

  function DelHolds(del: DelPc): multiset<MsgId> {
    if del.DRefill? || del.DPend? then multiset{del.m} else multiset{}
  }

  function Unborn(queue: seq<MsgId>, main: MainPc, del: DelPc): multiset<MsgId> {
    multiset(queue) + MainHolds(main) + DelHolds(del)
  }

  ghost predicate UnbornInv(self: Pid, next: nat, unborn: multiset<MsgId>, pending: set<MsgId>, erased: set<MsgId>) {
    && next >= 1
    && (forall id :: unborn[id] <= 1)
    && (forall id :: id in unborn ==> id.author == self && id.num < next)
    && (forall id :: id in unborn ==> id !in pending && id !in erased)
    && (forall id: MsgId :: id.author == self && id.num >= next ==> id !in pending && id !in erased)
  }

  /** What the receive thread holds: own ids were inserted before; what it found missing stays missing. */
  ghost predicate RecvInv(self: Pid, recv: RecvPc, pending: set<MsgId>, erased: set<MsgId>) {
    && (!recv.RIdle? ==> Own(self, pending, erased, recv.id))
    && ((recv.RCheck? || recv.RAck?) && recv.notPending ==> recv.id !in pending)
    && (recv.RPend? ==> recv.id !in pending)
    && (recv.RPut? && recv.id.author == self ==> recv.id in erased)
  }

  /** The counter is the number of own ids counted in and not out. */
  ghost predicate CountInv(self: Pid, next: nat, inflight: int, pending: set<MsgId>, erased: set<MsgId>,
                           started: set<MsgId>, finished: set<MsgId>) {
    && inflight == |started| - |finished|
    && finished <= started && finished <= erased
    && (forall id: MsgId :: id.author == self && (id in pending || id in erased) ==> id in started)
    && (forall id :: id in started ==> id.author == self && id.num < next)
  }

  /** Which of the ids in the hands of a thread have been counted. */
  ghost predicate HandsInv(queue: seq<MsgId>, main: MainPc, del: DelPc, started: set<MsgId>, finished: set<MsgId>,
                           erased: set<MsgId>) {
    && (forall id :: id in queue ==> id !in started)
    && (main.MTest? || main.MPush? || main.MCount? ==> main.id !in started)
    && (main.MPend? ==> main.id in started)
    && (del.DRefill? ==> del.m !in started)
    && (del.DPend? ==> del.m in started)
    && (del.DCount? ==> del.id !in finished && del.id in erased)
  }

  /** At most one slot beyond the limit. */
  ghost predicate BoundInv(main: MainPc, del: DelPc, inflight: int, limit: nat) {
    inflight + Bit(main.MCount?) + Bit(del.DPop? || del.DRefill?) <= limit + 1
  }

  ghost predicate Inv(s: Local) {
    && s.limit >= 1
    && OnceInv(s.del, s.delivered, s.erased, s.ups)
    && TodoInv(s.del, s.pending)
    && PutInv(s.main, s.recv, s.del, s.pending, s.erased, s.puts)
    && UnbornInv(s.self, s.next, Unborn(s.queue, s.main, s.del), s.pending, s.erased)
    && RecvInv(s.self, s.recv, s.pending, s.erased)
    && CountInv(s.self, s.next, s.inflight, s.pending, s.erased, s.started, s.finished)
    && HandsInv(s.queue, s.main, s.del, s.started, s.finished, s.erased)
    && BoundInv(s.main, s.del, s.inflight, s.limit)
  }

  // ------------------------------------------------------------------------------------------
  // How one operation changes one part of the invariant

  /** No thread enters or leaves the gap between an insertion and its put. */
  lemma PutsMove(main: MainPc, recv: RecvPc, del: DelPc, main': MainPc, recv': RecvPc, del': DelPc,
                 pending: set<MsgId>, erased: set<MsgId>, puts: multiset<MsgId>)
    requires PutInv(main, recv, del, pending, erased, puts)
    requires main == main' || (!main.MPut? && !main'.MPut?)
    requires recv == recv' || (!recv.RPut? && !recv'.RPut?)
    requires del == del' || (!del.DPut? && !del'.DPut?)
    ensures PutInv(main', recv', del', pending, erased, puts)
  {
    forall x
      ensures puts[x] + Between(main', recv', del', x) == Bit(x in pending) + Bit(x in erased)
    {
      assert Between(main', recv', del', x) == Between(main, recv, del, x);
    }
  }

  /** A thread inserts an id that is not pending: it now stands before its put. */
  lemma PutsInsert(main: MainPc, recv: RecvPc, del: DelPc, main': MainPc, recv': RecvPc, del': DelPc,
                   pending: set<MsgId>, erased: set<MsgId>, puts: multiset<MsgId>, id: MsgId)
    requires PutInv(main, recv, del, pending, erased, puts) && id !in pending
    requires forall x :: Between(main', recv', del', x) == Between(main, recv, del, x) + Bit(x == id)
    ensures PutInv(main', recv', del', pending + {id}, erased, puts)
  {
    hide Between;
  }

  /** A thread puts the id it stands before. */
  lemma PutsPut(main: MainPc, recv: RecvPc, del: DelPc, main': MainPc, recv': RecvPc, del': DelPc,
                pending: set<MsgId>, erased: set<MsgId>, puts: multiset<MsgId>, id: MsgId)
    requires PutInv(main, recv, del, pending, erased, puts)
    requires forall x :: Between(main', recv', del', x) + Bit(x == id) == Between(main, recv, del, x)
    ensures PutInv(main', recv', del', pending, erased, puts + multiset{id})
  {
    hide Between;
  }

  lemma PutsErase(main: MainPc, recv: RecvPc, del: DelPc,
                  pending: set<MsgId>, erased: set<MsgId>, puts: multiset<MsgId>, id: MsgId)
    requires PutInv(main, recv, del, pending, erased, puts) && id in pending && id !in erased
    ensures PutInv(main, recv, del, pending - {id}, erased + {id}, puts)
  {
    hide Between;
  }

  lemma UnbornGains(self: Pid, next: nat, u: multiset<MsgId>, pending: set<MsgId>, erased: set<MsgId>)
    requires UnbornInv(self, next, u, pending, erased)
    ensures UnbornInv(self, next + 1, u + multiset{MsgId(self, next)}, pending, erased)
  {
    assert MsgId(self, next) !in u;
  }

  lemma UnbornLoses(self: Pid, next: nat, u: multiset<MsgId>, u': multiset<MsgId>, id: MsgId,
                    pending: set<MsgId>, erased: set<MsgId>)
    requires UnbornInv(self, next, u, pending, erased) && u == u' + multiset{id}
    ensures UnbornInv(self, next, u', pending + {id}, erased)
  {
    forall x
      ensures u'[x] <= u[x]
    {
      assert u[x] == u'[x] + multiset{id}[x];
    }
    assert u[id] == u'[id] + 1;
    assert forall x :: x in u' ==> x in u && x != id;
  }

  lemma UnbornMoves(queue: seq<MsgId>, main: MainPc, del: DelPc, main': MainPc, del': DelPc)
    requires MainHolds(main') == MainHolds(main) && DelHolds(del') == DelHolds(del)
    ensures Unborn(queue, main', del') == Unborn(queue, main, del)
  {
  }

  lemma UnbornStart(queue: seq<MsgId>, main: MainPc, del: DelPc, id: MsgId)
    requires main.MIdle?
    ensures Unborn(queue, MTest(id), del) == Unborn(queue, main, del) + multiset{id}
  {
  }

  lemma UnbornPush(queue: seq<MsgId>, main: MainPc, del: DelPc)
    requires main.MPush?
    ensures Unborn(queue + [main.id], MIdle, del) == Unborn(queue, main, del)
  {
  }

  lemma UnbornMainPend(queue: seq<MsgId>, main: MainPc, del: DelPc)
    requires main.MPend?
    ensures Unborn(queue, main, del) == Unborn(queue, MPut(main.id), del) + multiset{main.id}
  {
  }

  lemma UnbornDelPend(queue: seq<MsgId>, main: MainPc, del: DelPc)
    requires del.DPend?
    ensures Unborn(queue, main, del) == Unborn(queue, main, DPut(del.id, del.todo, del.m)) + multiset{del.m}
  {
  }

  lemma UnbornPop(queue: seq<MsgId>, main: MainPc, del: DelPc)
    requires del.DPop? && queue != []
    ensures Unborn(queue[1..], main, DRefill(del.id, del.todo, queue[0])) == Unborn(queue, main, del)
  {
    assert queue == [queue[0]] + queue[1..];
    assert multiset(queue) == multiset{queue[0]} + multiset(queue[1..]);
  }

  lemma Held(queue: seq<MsgId>, main: MainPc, del: DelPc, id: MsgId)
    ensures id in MainHolds(main) || id in DelHolds(del) ==> id in Unborn(queue, main, del)
  {
  }

  lemma HandsMove(queue: seq<MsgId>, main: MainPc, del: DelPc, del': DelPc, started: set<MsgId>, finished: set<MsgId>,
                  erased: set<MsgId>)
    requires HandsInv(queue, main, del, started, finished, erased)
    requires !del'.DRefill? && !del'.DPend? && !del'.DCount?
    ensures HandsInv(queue, main, del', started, finished, erased)
  {
  }

  lemma SlackMove(main: MainPc, del: DelPc, del': DelPc, inflight: int, limit: nat)
    requires BoundInv(main, del, inflight, limit)
    requires !del.DPop? && !del.DRefill? && !del'.DPop? && !del'.DRefill?
    ensures BoundInv(main, del', inflight, limit)
  {
  }

  lemma CountOut(self: Pid, next: nat, inflight: int, pending: set<MsgId>, erased: set<MsgId>,
                 started: set<MsgId>, finished: set<MsgId>, id: MsgId)
    requires CountInv(self, next, inflight, pending, erased, started, finished)
    requires id.author == self && id in erased && id !in finished
    ensures CountInv(self, next, inflight - 1, pending, erased, started, finished + {id})
  {
  }

  lemma SlackCount(main: MainPc, del: DelPc, inflight: int, limit: nat)
    requires BoundInv(main, del, inflight, limit) && del.DCount?
    ensures var del' := if inflight <= limit then DPop(del.id, del.todo) else DInsert(del.id, del.todo);
            BoundInv(main, del', inflight - 1, limit)
  {
  }

  lemma PopSlack(main: MainPc, del: DelPc, del': DelPc, inflight: int, limit: nat)
    requires BoundInv(main, del, inflight, limit) && del.DPop? && (del'.DInsert? || del'.DRefill?)
    ensures BoundInv(main, del', inflight, limit)
  {
  }

  lemma PopHands(queue: seq<MsgId>, main: MainPc, del: DelPc, started: set<MsgId>, finished: set<MsgId>,
                 erased: set<MsgId>)
    requires HandsInv(queue, main, del, started, finished, erased) && queue != [] && del.DPop?
    ensures HandsInv(queue[1..], main, DRefill(del.id, del.todo, queue[0]), started, finished, erased)
  {
    assert queue[0] in queue;
  }

  /** The delivery thread goes on with the id it is busy with. */
  lemma BusyMoves(del: DelPc, del': DelPc, delivered: set<MsgId>, erased: set<MsgId>, ups: multiset<MsgId>,
                  pending: set<MsgId>)
    requires OnceInv(del, delivered, erased, ups) && TodoInv(del, pending)
    requires BusyOn(del).Some? && BusyOn(del') == BusyOn(del) && del'.todo == del.todo
    ensures OnceInv(del', delivered, erased, ups) && TodoInv(del', pending)
  {
  }

  lemma UnbornOther(self: Pid, next: nat, u: multiset<MsgId>, id: MsgId, pending: set<MsgId>, erased: set<MsgId>)
    requires UnbornInv(self, next, u, pending, erased)
    requires id.author == self ==> id in pending || id in erased
    ensures UnbornInv(self, next, u, pending + {id}, erased)
  {
  }

  lemma UnbornErase(self: Pid, next: nat, u: multiset<MsgId>, id: MsgId, pending: set<MsgId>, erased: set<MsgId>)
    requires UnbornInv(self, next, u, pending, erased) && id in pending
    ensures UnbornInv(self, next, u, pending - {id}, erased + {id})
  {
  }

  /** What is in one hand is in no other. */
  lemma HeldOnce(queue: seq<MsgId>, main: MainPc, del: DelPc, id: MsgId)
    requires Unborn(queue, main, del)[id] <= 1
    ensures id in MainHolds(main) ==> id !in queue && id !in DelHolds(del)
    ensures id in DelHolds(del) ==> id !in queue && id !in MainHolds(main)
  {
    if id in queue {
      assert multiset(queue)[id] >= 1;
    }
  }

  lemma UnbornOnce(s: Local, id: MsgId)
    requires Inv(s)
    ensures Unborn(s.queue, s.main, s.del)[id] <= 1
    ensures id in Unborn(s.queue, s.main, s.del) ==>
              id !in s.pending && id !in s.erased && id.author == s.self && s.puts[id] == 0
  {
    hide Unborn, OnceInv, TodoInv, RecvInv, CountInv, HandsInv, BoundInv;
    assert s.puts[id] + Between(s.main, s.recv, s.del, id) == Bit(id in s.pending) + Bit(id in s.erased);
  }

  lemma RecvInsert(self: Pid, recv: RecvPc, pending: set<MsgId>, erased: set<MsgId>, id: MsgId)
    requires RecvInv(self, recv, pending, erased) && id.author == self && id !in pending && id !in erased
    ensures RecvInv(self, recv, pending + {id}, erased)
  {
  }

  lemma TodoInsert(del: DelPc, pending: set<MsgId>, id: MsgId)
    requires TodoInv(del, pending)
    ensures TodoInv(del, pending + {id})
  {
  }

  // ------------------------------------------------------------------------------------------
  // The application thread

  lemma MainStartInv(s: Local)
    requires Inv(s) && s.main.MIdle?
    ensures Inv(MainNext(s))
  {
    hide Unborn, OnceInv, TodoInv, PutInv, UnbornInv, RecvInv;
    var t := MainNext(s);
    UnbornGains(s.self, s.next, Unborn(s.queue, s.main, s.del), s.pending, s.erased);
    UnbornStart(s.queue, s.main, s.del, MsgId(s.self, s.next));
    PutsMove(s.main, s.recv, s.del, t.main, t.recv, t.del, s.pending, s.erased, s.puts);
  }

  lemma MainTestInv(s: Local)
    requires Inv(s) && s.main.MTest?
    ensures Inv(MainNext(s))
  {
    hide Unborn, OnceInv, TodoInv, PutInv, UnbornInv, RecvInv, CountInv;
    var t := MainNext(s);
    UnbornMoves(s.queue, s.main, s.del, t.main, t.del);
    PutsMove(s.main, s.recv, s.del, t.main, t.recv, t.del, s.pending, s.erased, s.puts);
  }

  lemma MainPushInv(s: Local)
    requires Inv(s) && s.main.MPush?
    ensures Inv(MainNext(s))
  {
    hide Unborn, OnceInv, TodoInv, PutInv, UnbornInv, RecvInv, CountInv;
    var t := MainNext(s);
    UnbornPush(s.queue, s.main, s.del);
    PutsMove(s.main, s.recv, s.del, t.main, t.recv, t.del, s.pending, s.erased, s.puts);
  }

  lemma CountIn(self: Pid, next: nat, inflight: int, pending: set<MsgId>, erased: set<MsgId>,
                started: set<MsgId>, finished: set<MsgId>, id: MsgId)
    requires CountInv(self, next, inflight, pending, erased, started, finished)
    requires id.author == self && id.num < next && id !in started
    ensures CountInv(self, next, inflight + 1, pending, erased, started + {id}, finished)
  {
  }

  lemma HandsIn(queue: seq<MsgId>, main: MainPc, del: DelPc, started: set<MsgId>, finished: set<MsgId>,
                erased: set<MsgId>)
    requires HandsInv(queue, main, del, started, finished, erased)
    ensures main.MCount? && main.id !in queue && main.id !in DelHolds(del) ==>
              main.id !in started && HandsInv(queue, MPend(main.id), del, started + {main.id}, finished, erased)
    ensures del.DRefill? && del.m !in queue && del.m !in MainHolds(main) ==>
              del.m !in started &&
              HandsInv(queue, main, DPend(del.id, del.todo, del.m), started + {del.m}, finished, erased)
  {
  }

  lemma SlackIn(main: MainPc, del: DelPc, inflight: int, limit: nat)
    requires BoundInv(main, del, inflight, limit)
    ensures main.MCount? ==> BoundInv(MPend(main.id), del, inflight + 1, limit)
    ensures del.DRefill? ==> BoundInv(main, DPend(del.id, del.todo, del.m), inflight + 1, limit)
  {
  }

  lemma MainCountInv(s: Local)
    requires Inv(s) && s.main.MCount?
    ensures Inv(MainNext(s))
  {
    hide Unborn, OnceInv, TodoInv, PutInv, UnbornInv, RecvInv, CountInv, HandsInv, BoundInv;
    var id := s.main.id;
    UnbornOnce(s, id);
    HeldOnce(s.queue, s.main, s.del, id);
    Held(s.queue, s.main, s.del, id);
    InFuture(s, id);
    HandsIn(s.queue, s.main, s.del, s.started, s.finished, s.erased);
    SlackIn(s.main, s.del, s.inflight, s.limit);
    CountIn(s.self, s.next, s.inflight, s.pending, s.erased, s.started, s.finished, id);
    UnbornMoves(s.queue, s.main, s.del, MPend(id), s.del);
    PutsMove(s.main, s.recv, s.del, MPend(id), s.recv, s.del, s.pending, s.erased, s.puts);
  }

  lemma InFuture(s: Local, id: MsgId)
    requires Inv(s) && id in Unborn(s.queue, s.main, s.del)
    ensures id.author == s.self && id.num < s.next
  {
    hide Unborn, OnceInv, TodoInv, RecvInv, CountInv, HandsInv, BoundInv, PutInv;
  }

  lemma MainPendInv(s: Local)
    requires Inv(s) && s.main.MPend?
    ensures Inv(MainNext(s))
  {
    hide Unborn, OnceInv, TodoInv, PutInv, UnbornInv, RecvInv;
    var t, id := MainNext(s), s.main.id;
    UnbornOnce(s, id);
    Held(s.queue, s.main, s.del, id);
    UnbornMainPend(s.queue, s.main, s.del);
    UnbornLoses(s.self, s.next, Unborn(s.queue, s.main, s.del), Unborn(t.queue, t.main, t.del), id, s.pending, s.erased);
    PutsInsert(s.main, s.recv, s.del, t.main, t.recv, t.del, s.pending, s.erased, s.puts, id);
    TodoInsert(s.del, s.pending, id);
    RecvInsert(s.self, s.recv, s.pending, s.erased, id);
  }

  lemma MainPutInv(s: Local)
    requires Inv(s) && s.main.MPut?
    ensures Inv(MainNext(s))
  {
    hide Unborn, OnceInv, TodoInv, PutInv, UnbornInv, RecvInv, CountInv;
    var t, id := MainNext(s), s.main.id;
    UnbornMoves(s.queue, s.main, s.del, t.main, t.del);
    PutsPut(s.main, s.recv, s.del, t.main, t.recv, t.del, s.pending, s.erased, s.puts, id);
  }

  lemma MainInv(s: Local)
    requires Inv(s)
    ensures Inv(MainNext(s))
  {
    hide Inv, MainNext;
    match s.main
    case MIdle => MainStartInv(s);
    case MTest(_) => MainTestInv(s);
    case MPush(_) => MainPushInv(s);
    case MCount(_) => MainCountInv(s);
    case MPend(_) => MainPendInv(s);
    case MPut(_) => MainPutInv(s);
  }

  // ------------------------------------------------------------------------------------------
  // The receive thread

  lemma RecvReadInv(s: Local)
    requires Inv(s) && !s.recv.RPend? && !s.recv.RPut?
    ensures Inv(RecvNext(s))
  {
    hide Unborn, OnceInv, TodoInv, PutInv, UnbornInv, CountInv, HandsInv, BoundInv;
    var t := RecvNext(s);
    PutsMove(s.main, s.recv, s.del, t.main, t.recv, t.del, s.pending, s.erased, s.puts);
  }

  lemma RecvPendInv(s: Local)
    requires Inv(s) && s.recv.RPend?
    ensures Inv(RecvNext(s))
  {
    hide Unborn, OnceInv, TodoInv, PutInv, UnbornInv, HandsInv, BoundInv;
    var t, id := RecvNext(s), s.recv.id;
    UnbornOther(s.self, s.next, Unborn(s.queue, s.main, s.del), id, s.pending, s.erased);
    PutsInsert(s.main, s.recv, s.del, t.main, t.recv, t.del, s.pending, s.erased, s.puts, id);
    TodoInsert(s.del, s.pending, id);
  }

  lemma RecvPutInv(s: Local)
    requires Inv(s) && s.recv.RPut?
    ensures Inv(RecvNext(s))
  {
    hide Unborn, OnceInv, TodoInv, PutInv, UnbornInv, CountInv, HandsInv, BoundInv;
    var t, id := RecvNext(s), s.recv.id;
    PutsPut(s.main, s.recv, s.del, t.main, t.recv, t.del, s.pending, s.erased, s.puts, id);
  }

  lemma RecvStepInv(s: Local)
    requires Inv(s)
    ensures Inv(RecvNext(s))
  {
    hide Inv, RecvNext;
    match s.recv
    case RPend(_) => RecvPendInv(s);
    case RPut(_) => RecvPutInv(s);
    case _ => RecvReadInv(s);
  }

  lemma RecvStartInv(s: Local, p: Pid, id: MsgId)
    requires Inv(s) && Enabled(s, RecvStart(p, id))
    ensures Inv(Apply(s, RecvStart(p, id)))
  {
    hide Unborn, OnceInv, TodoInv, PutInv, UnbornInv, CountInv, HandsInv, BoundInv;
    var t := Apply(s, RecvStart(p, id));
    PutsMove(s.main, s.recv, s.del, t.main, t.recv, t.del, s.pending, s.erased, s.puts);
  }

  // ------------------------------------------------------------------------------------------
  // The delivery thread

  lemma SnapshotDistinct(order: seq<MsgId>, s: set<MsgId>)
    requires multiset(order) == multiset(s)
    ensures forall id :: id in order ==> id in s
    ensures forall i, j :: 0 <= i < j < |order| ==> order[i] != order[j]
  {
    forall id | id in order
      ensures id in s
    {
      assert id in multiset(order);
    }
    forall i, j | 0 <= i < j < |order|
      ensures order[i] != order[j]
    {
      TwiceInMultiset(order, i, j);
    }
  }

  lemma TwiceInMultiset(order: seq<MsgId>, i: nat, j: nat)
    requires i < j < |order|
    ensures order[i] == order[j] ==> multiset(order)[order[j]] >= 2
  {
    assert order == order[..j] + [order[j]] + order[j + 1..];
    assert order[i] == order[..j][i];
    assert order[i] in multiset(order[..j]);
  }

  lemma StartTodo(s: Local, order: seq<MsgId>)
    requires Enabled(s, DelStart(order)) && OnceInv(s.del, s.delivered, s.erased, s.ups)
    ensures TodoInv(DNext(order), s.pending) && OnceInv(DNext(order), s.delivered, s.erased, s.ups)
  {
    SnapshotDistinct(order, s.pending);
  }

  lemma DelStartInv(s: Local, order: seq<MsgId>)
    requires Inv(s) && Enabled(s, DelStart(order))
    ensures Inv(Apply(s, DelStart(order)))
  {
    hide Unborn, OnceInv, TodoInv, PutInv, UnbornInv, RecvInv, CountInv, HandsInv, BoundInv;
    var t := Apply(s, DelStart(order));
    StartTodo(s, order);
    HandsMove(s.queue, s.main, s.del, t.del, s.started, s.finished, s.erased);
    SlackMove(s.main, s.del, t.del, s.inflight, s.limit);
    UnbornMoves(s.queue, s.main, s.del, t.main, t.del);
    PutsMove(s.main, s.recv, s.del, t.main, t.recv, t.del, s.pending, s.erased, s.puts);
  }

  /** The delivery thread moves without touching anything but the ack table. */
  lemma QuietInv(s: Local, del: DelPc, acks: map<MsgId, set<Pid>>)
    requires Inv(s)
    requires OnceInv(del, s.delivered, s.erased, s.ups) && TodoInv(del, s.pending)
    requires !s.del.DPop? && !s.del.DRefill? && !s.del.DPend? && !s.del.DPut?
    requires !del.DPop? && !del.DRefill? && !del.DPend? && !del.DPut? && !del.DCount?
    ensures Inv(s.(del := del, acks := acks))
  {
    hide Unborn, OnceInv, TodoInv, PutInv, UnbornInv, RecvInv, CountInv, HandsInv, BoundInv;
    HandsMove(s.queue, s.main, s.del, del, s.started, s.finished, s.erased);
    SlackMove(s.main, s.del, del, s.inflight, s.limit);
    UnbornMoves(s.queue, s.main, s.del, s.main, del);
    PutsMove(s.main, s.recv, s.del, s.main, s.recv, del, s.pending, s.erased, s.puts);
  }

  /** Steps that only read, or touch the ack table. */
  lemma DelMoveInv(s: Local)
    requires Inv(s) && (s.del.DNext? || s.del.DCheck? || s.del.DForget? || s.del.DIdle?)
    ensures Inv(DelNext(s))
  {
    hide Unborn, OnceInv, TodoInv, PutInv, UnbornInv, RecvInv, CountInv, HandsInv, BoundInv;
    var t := DelNext(s);
    MoveOnce(s);
    MoveTodo(s);
    hide Inv;
    QuietInv(s, t.del, t.acks);
  }

  lemma MoveOnce(s: Local)
    requires OnceInv(s.del, s.delivered, s.erased, s.ups)
    requires s.del.DNext? || s.del.DCheck? || s.del.DForget? || s.del.DIdle?
    ensures var t := DelNext(s); OnceInv(t.del, t.delivered, t.erased, t.ups)
  {
    var t := DelNext(s);
    assert t.delivered == s.delivered && t.erased == s.erased && t.ups == s.ups;
  }

  lemma MoveTodo(s: Local)
    requires TodoInv(s.del, s.pending)
    requires s.del.DNext? || s.del.DCheck? || s.del.DForget? || s.del.DIdle?
    ensures var t := DelNext(s); TodoInv(t.del, t.pending)
  {
  }

  lemma DelPopInv(s: Local)
    requires Inv(s) && s.del.DPop?
    ensures Inv(DelNext(s))
  {
    hide Unborn, OnceInv, TodoInv, PutInv, UnbornInv, RecvInv, CountInv, HandsInv, BoundInv;
    var t := DelNext(s);
    BusyMoves(s.del, t.del, s.delivered, s.erased, s.ups, s.pending);
    PopSlack(s.main, s.del, t.del, s.inflight, s.limit);
    if s.queue == [] {
      UnbornMoves(s.queue, s.main, s.del, t.main, t.del);
      HandsMove(s.queue, s.main, s.del, t.del, s.started, s.finished, s.erased);
    } else {
      UnbornPop(s.queue, s.main, s.del);
      PopHands(s.queue, s.main, s.del, s.started, s.finished, s.erased);
    }
    PutsMove(s.main, s.recv, s.del, t.main, t.recv, t.del, s.pending, s.erased, s.puts);
  }

  lemma EraseOnce(del: DelPc, delivered: set<MsgId>, erased: set<MsgId>, ups: multiset<MsgId>)
    requires OnceInv(del, delivered, erased, ups) && del.DErase?
    ensures del.id !in erased
    ensures OnceInv(DCount(del.id, del.todo), delivered, erased + {del.id}, ups)
  {
  }

  lemma EraseTodo(del: DelPc, pending: set<MsgId>)
    requires TodoInv(del, pending) && del.DErase?
    ensures del.id in pending
    ensures TodoInv(DCount(del.id, del.todo), pending - {del.id})
  {
  }

  lemma EraseRecv(self: Pid, recv: RecvPc, pending: set<MsgId>, erased: set<MsgId>, id: MsgId)
    requires RecvInv(self, recv, pending, erased)
    ensures RecvInv(self, recv, pending - {id}, erased + {id})
  {
  }

  lemma DelEraseInv(s: Local)
    requires Inv(s) && s.del.DErase?
    ensures Inv(DelNext(s))
  {
    hide Unborn, OnceInv, TodoInv, PutInv, UnbornInv, RecvInv;
    var t, id := DelNext(s), s.del.id;
    EraseOnce(s.del, s.delivered, s.erased, s.ups);
    EraseTodo(s.del, s.pending);
    EraseRecv(s.self, s.recv, s.pending, s.erased, id);
    UnbornMoves(s.queue, s.main, s.del, t.main, t.del);
    UnbornErase(s.self, s.next, Unborn(s.queue, s.main, s.del), id, s.pending, s.erased);
    PutsErase(s.main, s.recv, s.del, s.pending, s.erased, s.puts, id);
    PutsMove(s.main, s.recv, s.del, t.main, t.recv, t.del, t.pending, t.erased, t.puts);
  }

  lemma CountedOut(queue: seq<MsgId>, main: MainPc, del: DelPc, del': DelPc, started: set<MsgId>, finished: set<MsgId>,
                   erased: set<MsgId>, finished': set<MsgId>)
    requires HandsInv(queue, main, del, started, finished, erased) && del.DCount?
    requires !del'.DRefill? && !del'.DPend? && !del'.DCount?
    ensures HandsInv(queue, main, del', started, finished', erased)
    ensures del.id !in finished && del.id in erased
  {
  }

  lemma DelCountInv(s: Local)
    requires Inv(s) && s.del.DCount?
    ensures Inv(DelNext(s))
  {
    hide Inv, DelNext;
    if s.del.id.author == s.self {
      DelCountOwnInv(s);
    } else {
      DelCountOtherInv(s);
    }
  }

  lemma DelCountOtherInv(s: Local)
    requires Inv(s) && s.del.DCount? && s.del.id.author != s.self
    ensures Inv(DelNext(s))
  {
    hide Unborn, OnceInv, TodoInv, PutInv, UnbornInv, RecvInv, CountInv, HandsInv, BoundInv;
    BusyMoves(s.del, DInsert(s.del.id, s.del.todo), s.delivered, s.erased, s.ups, s.pending);
    QuietInv(s, DInsert(s.del.id, s.del.todo), s.acks);
  }

  /** What the count-out leaves alone. */
  lemma CountKeeps(s: Local, del: DelPc)
    requires Inv(s) && s.del.DCount?
    requires del == DPop(s.del.id, s.del.todo) || del == DInsert(s.del.id, s.del.todo)
    ensures OnceInv(del, s.delivered, s.erased, s.ups) && TodoInv(del, s.pending)
    ensures Unborn(s.queue, s.main, del) == Unborn(s.queue, s.main, s.del)
    ensures PutInv(s.main, s.recv, del, s.pending, s.erased, s.puts)
    ensures HandsInv(s.queue, s.main, del, s.started, s.finished + {s.del.id}, s.erased)
    ensures s.del.id !in s.finished && s.del.id in s.erased
  {
    hide Unborn, OnceInv, TodoInv, PutInv, UnbornInv, RecvInv, CountInv, HandsInv, BoundInv;
    BusyMoves(s.del, del, s.delivered, s.erased, s.ups, s.pending);
    UnbornMoves(s.queue, s.main, s.del, s.main, del);
    PutsMove(s.main, s.recv, s.del, s.main, s.recv, del, s.pending, s.erased, s.puts);
    CountedOut(s.queue, s.main, s.del, del, s.started, s.finished, s.erased, s.finished + {s.del.id});
  }

  lemma DelCountOwnInv(s: Local)
    requires Inv(s) && s.del.DCount? && s.del.id.author == s.self
    ensures Inv(DelNext(s))
  {
    hide DelNext, Unborn, OnceInv, TodoInv, PutInv, UnbornInv, RecvInv, CountInv, HandsInv, BoundInv;
    var id, todo := s.del.id, s.del.todo;
    var del := if s.inflight <= s.limit then DPop(id, todo) else DInsert(id, todo);
    CountKeeps(s, del);
    CountOut(s.self, s.next, s.inflight, s.pending, s.erased, s.started, s.finished, id);
    SlackCount(s.main, s.del, s.inflight, s.limit);
    CountOutcome(s, del);
  }

  lemma CountOutcome(s: Local, del: DelPc)
    requires s.del.DCount? && s.del.id.author == s.self
    requires del == if s.inflight <= s.limit then DPop(s.del.id, s.del.todo) else DInsert(s.del.id, s.del.todo)
    ensures DelNext(s) == s.(inflight := s.inflight - 1, finished := s.finished + {s.del.id}, del := del)
  {
  }

  lemma DelRefillInv(s: Local)
    requires Inv(s) && s.del.DRefill?
    ensures Inv(DelNext(s))
  {
    hide Unborn, OnceInv, TodoInv, PutInv, UnbornInv, RecvInv, CountInv, HandsInv, BoundInv;
    var m := s.del.m;
    var del := DPend(s.del.id, s.del.todo, m);
    UnbornOnce(s, m);
    HeldOnce(s.queue, s.main, s.del, m);
    Held(s.queue, s.main, s.del, m);
    InFuture(s, m);
    HandsIn(s.queue, s.main, s.del, s.started, s.finished, s.erased);
    SlackIn(s.main, s.del, s.inflight, s.limit);
    CountIn(s.self, s.next, s.inflight, s.pending, s.erased, s.started, s.finished, m);
    BusyMoves(s.del, del, s.delivered, s.erased, s.ups, s.pending);
    UnbornMoves(s.queue, s.main, s.del, s.main, del);
    PutsMove(s.main, s.recv, s.del, s.main, s.recv, del, s.pending, s.erased, s.puts);
  }

  lemma DelPendInv(s: Local)
    requires Inv(s) && s.del.DPend?
    ensures Inv(DelNext(s))
  {
    hide Unborn, OnceInv, TodoInv, PutInv, UnbornInv, RecvInv;
    var t, m := DelNext(s), s.del.m;
    UnbornOnce(s, m);
    Held(s.queue, s.main, s.del, m);
    UnbornDelPend(s.queue, s.main, s.del);
    BusyMoves(s.del, t.del, s.delivered, s.erased, s.ups, s.pending);
    TodoInsert(t.del, s.pending, m);
    UnbornLoses(s.self, s.next, Unborn(s.queue, s.main, s.del), Unborn(t.queue, t.main, t.del), m, s.pending, s.erased);
    PutsInsert(s.main, s.recv, s.del, t.main, t.recv, t.del, s.pending, s.erased, s.puts, m);
    RecvInsert(s.self, s.recv, s.pending, s.erased, m);
  }

  lemma DelPutInv(s: Local)
    requires Inv(s) && s.del.DPut?
    ensures Inv(DelNext(s))
  {
    hide Unborn, OnceInv, TodoInv, PutInv, UnbornInv, RecvInv, CountInv;
    var t, m := DelNext(s), s.del.m;
    BusyMoves(s.del, t.del, s.delivered, s.erased, s.ups, s.pending);
    UnbornMoves(s.queue, s.main, s.del, t.main, t.del);
    PutsPut(s.main, s.recv, s.del, t.main, t.recv, t.del, s.pending, s.erased, s.puts, m);
  }

  lemma InsertOnce(del: DelPc, delivered: set<MsgId>, erased: set<MsgId>, ups: multiset<MsgId>)
    requires OnceInv(del, delivered, erased, ups) && del.DInsert?
    ensures OnceInv(DForget(del.id, del.todo), delivered + {del.id}, erased, ups)
  {
  }

  lemma UpOnce(del: DelPc, delivered: set<MsgId>, erased: set<MsgId>, ups: multiset<MsgId>)
    requires OnceInv(del, delivered, erased, ups) && del.DUp?
    ensures OnceInv(DNext(del.todo), delivered, erased, ups + multiset{del.id})
  {
  }

  lemma FinishTodo(del: DelPc, del': DelPc, pending: set<MsgId>)
    requires TodoInv(del, pending)
    requires (del.DInsert? && del' == DForget(del.id, del.todo)) || (del.DUp? && del' == DNext(del.todo))
    ensures TodoInv(del', pending)
  {
  }

  /** The delivered insert and the call of DeliverInternal: each id passes here once. */
  lemma DelFinishInv(s: Local)
    requires Inv(s) && (s.del.DInsert? || s.del.DUp?)
    ensures Inv(DelNext(s))
  {
    hide Unborn, OnceInv, TodoInv, PutInv, UnbornInv, RecvInv, CountInv, HandsInv, BoundInv;
    var t := DelNext(s);
    if s.del.DInsert? {
      InsertOnce(s.del, s.delivered, s.erased, s.ups);
    } else {
      UpOnce(s.del, s.delivered, s.erased, s.ups);
    }
    FinishTodo(s.del, t.del, s.pending);
    HandsMove(s.queue, s.main, s.del, t.del, s.started, s.finished, s.erased);
    SlackMove(s.main, s.del, t.del, s.inflight, s.limit);
    UnbornMoves(s.queue, s.main, s.del, t.main, t.del);
    PutsMove(s.main, s.recv, s.del, t.main, t.recv, t.del, s.pending, s.erased, s.puts);
  }

  lemma DelInv(s: Local)
    requires Inv(s)
    ensures Inv(DelNext(s))
  {
    hide Inv, DelNext;
    match s.del
    case DErase(_, _) => DelEraseInv(s);
    case DCount(_, _) => DelCountInv(s);
    case DPop(_, _) => DelPopInv(s);
    case DRefill(_, _, _) => DelRefillInv(s);
    case DPend(_, _, _) => DelPendInv(s);
    case DPut(_, _, _) => DelPutInv(s);
    case DInsert(_, _) => DelFinishInv(s);
    case DUp(_, _) => DelFinishInv(s);
    case _ => DelMoveInv(s);
  }

  lemma StepInv(s: Local, t: Step)
    requires Inv(s) && Enabled(s, t)
    ensures Inv(Apply(s, t))
  {
    hide Inv, MainNext, RecvNext, DelNext;
    match t
    case MainStart => MainInv(s);
    case MainStep => MainInv(s);
    case RecvStart(p, id) => RecvStartInv(s, p, id);
    case RecvStep => RecvStepInv(s);
    case DelStart(order) => DelStartInv(s, order);
    case DelStep => DelInv(s);
  }

  lemma {:induction false} RunInv(s: Local, steps: seq<Step>, t: Local)
    requires Inv(s) && Runs(s, steps, t)
    ensures Inv(t)
    decreases |steps|
  {
    hide Inv, Apply, Enabled;
    if steps != [] {
      StepInv(s, steps[0]);
      RunInv(Apply(s, steps[0]), steps[1..], t);
    }
  }

  lemma InitInv(self: Pid, n: nat, limit: nat)
    requires limit >= 1
    ensures Inv(Init(self, n, limit))
  {
  }

  lemma ReachableInv(s: Local)
    requires Reachable(s)
    ensures Inv(s)
  {
    hide Inv, Init, Runs;
    var self, n, limit, steps :| limit >= 1 && Runs(Init(self, n, limit), steps, s);
    InitInv(self, n, limit);
    RunInv(Init(self, n, limit), steps, s);
  }
}
