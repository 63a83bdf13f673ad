# Uniform reliable FIFO broadcast: a verified model

The repository stacks four layers: a retransmitting link over UDP, best-effort broadcast, uniform
reliable broadcast with majority acknowledgement and an in-flight throttle, and per-author FIFO
delivery. This project models the whole stack in Dafny and proves its guarantees over every run.

Check everything with `dafny verify dfyconfig.toml`.

## How the model is built

- **Values first.** `Urb` gives the three operations of one process (application send, link
  notification, one iteration of the delivery loop) as functions on its state; `Links` does the same
  for a link; `Windows` for the compacting per-author record that the delivered set and the FIFO
  layer both keep.
- **The system.** `System` has processes 1..n, one link per ordered pair, clocks, crashes of fewer
  than half of the processes (the assumption of README.md:128), and a network that may lose,
  duplicate and reorder packets. A step is one whole send, receive (with its relay), delivery
  iteration, retransmission, ack transmission, clean-up, clock tick or crash. `Invariants` proves
  one inductive invariant; `Theorems` reads the guarantees off it.
- **Eventual guarantees** are stated at quiescent states, where no link between two live processes
  holds an unacknowledged message and no pending id passes the delivery guard, and over infinite runs.
  `Progress` proves that from every reachable state quiescence can be reached without further sends or
  crashes, by a run that cleans each link up after sending its acks, as the code does. `Liveness` proves
  that a fair run with finitely many sends does become quiescent, by a rank that no step but a send
  raises. `Eventually` proves URB1 and URB4 message by message in fair runs that may send for ever.
  Fair means: a packet transmitted again and again to a live process arrives again and again; the
  sending threads visit their links, and the delivery loops their pending ids, again and again; and,
  for quiescence only, of a message that arrives again and again not every copy is cleaned up before
  its ack is sent. `FairRuns` proves that every reachable state lies on a fair run.
- **What can happen.** `Crashes`, `Gaps`, `Handoffs` and `AckTables` say exactly which crashes, leftovers of
  crashed authors, repeated hand-overs and ack entries the runs of `System` have, so that the theorems
  about them are not about nothing.
- **Objects.** `Records`, `LinkObjects` and `Process` are the imperative classes with the source's
  loops and in-place updates; each method is proved to act on the object's view as the value-level
  operation does, and to put on each link exactly what that operation emits. `Codec` has the buffer
  filling and parsing loops, `Checker` the log checker.
- **Bytes.** `Wire` replaces packets by serialized datagrams cut to the 14-byte receive buffer and
  proves that its runs are runs of `System`, and those of `System` its runs, while everything is in range.
- **Locks.** `LockLevel` takes one process apart into its application, receive and delivery threads,
  one step per locked region or atomic operation; an own id may come back from the network while its
  fan-out over the links is still under way. `LockTheorems`, `LockOrder`, `LockLinks` and `LockAcks`
  prove no duplication for every interleaving and give the exact steps at which six guarantees of the
  atomic system are lost; `LockRuns` has the runs, with the limit the code computes. Everything in `Theorems`,
  `Progress`, `Liveness` and `Eventually` is about whole operations.
- **Wrap-around.** `WrappedLink` is one link with its counter taken modulo M, as the code does with 2^32.

## Findings

Six properties hold when operations are atomic and fail at lock granularity.

- Validity. A push that finds the counter at zero, with no refill under way, leaves its message
  without anything to wake it. `LockTheorems.StrandedExactly` proves that a run ending at rest leaves a
  message stranded if and only if such a push happened and no send made its test afterwards;
  `LockTheorems.WakeIsExact` is the same step by step. `LockRuns.StrandedIsReachable` is such a run
  for every number of processes.
- Relaying at most once. `LockTheorems.SecondPutIsExact` names the one kind of step at which a second
  put becomes due, `LockTheorems.PutsAtLocks` says in which states it has happened, and
  `LockRuns.RelayedTwiceDeliveredOnce` is a run for every number of processes from three. The id is
  still delivered once (`LockTheorems.NoDuplicationAtLocks`, all runs).
- The in-flight counter stays within its limit, and with it the network budget. A send and a refill
  can both claim the last free slot: `LockTheorems.ClaimIsExact` names the two steps that do,
  `LockTheorems.OvershootExactly` the runs that end above the limit, `LockRuns.OvershootIsReachable`
  is one for every number of processes, and `LockTheorems.CounterAtLocks` the bound that remains,
  limit + 1. `LockRuns.OvershootExceedsBudget` says how many overshoots break the budget when all other
  processes are at their limit: for two processes one is enough, 32770 against 32768. That these
  processes are there at the same time is not shown, since `LockLevel` is one process.
- Own messages reach the links in the order in which they were sent. `LockLinks.LinkOrderIsExact` proves
  that this breaks if and only if a put of the application's id is completed, by the application or by
  the receive thread relaying an echo of it, while an earlier id is queued or in the hands of the
  refill up to its put. `LockRuns.OutOfOrderIsReachable` and `LockRuns.OvertakenIsReachable` are runs for
  every number of processes: the earlier id is still queued in the first, and taken up and counted in
  by the refill in the second. `LockOrder.OrderIsExact` is the condition for the order of the count-ins
  alone, which the second run keeps. FIFO delivery does not depend on either.
- A process has an id on all its links before it delivers it. `LockOrder.CertificateIsExact` proves that
  this fails if and only if the application is still inside the fan-out of that own id, or the
  receive thread inside its first relay, and the latter only with at most three processes.
  `LockRuns.DeliveredBeforeFanOut` and `LockRuns.DeliveredBeforeRelay` are runs of the two kinds.
- The ack table has entries for pending ids only. `LockAcks.StaleIsExact` proves that this is lost, with no
  thread left to repair it, if and only if the receive thread records an acknowledgement of an id that it
  looked up while pending and that is delivered by now. The entry then stays for ever
  (`LockAcks.StaleForEver`); `LockAcks.StaleIsReachable` is a run for every number of processes from three.
  Deliveries do not depend on such entries; the table grows by them.

Three more concern inputs.

- A link can lose messages once more than 2^32 are put on it: `WrappedLink.WrapKeeps` and
  `WrappedLink.WrapLoses` together say that up to M messages are always kept and that every larger
  number can lose one, and `WrappedLink.StrongHandsUpOneRound` that in strong mode all but M are never
  handed up; in weak mode a run can hand all of any number up (`WrappedLink.WeakHandsUpAll`). Every link carries every id, so the documented load (README.md:282: 2^31-1 messages from
  each of up to 128 processes) is beyond this from three processes on. `Wire.FitsFromCounts` gives the
  load that is safe for whole operations: at most m messages from each of n processes with n * m below
  2^32. At lock level an id can take two numbers of a link, never more
  (`LockTheorems.LinkNumbersAtLocks`), which halves it.
- Arbitrary text does not fit. README.md:270 asks that any payload text work; a broadcast message fits
  the 14-byte buffers if and only if its text is at most one byte (`Codec.NestedRoundTrip`), and a longer
  text, once sent, would arrive as its first byte (`Wire.LongTextIsCut`). The driver sends empty texts.
- The delivered-set record stops compacting for good once a covered number is inserted again:
  `Windows.RepeatBlocksCompaction` is an input, `Windows.CompactExactly` the exact condition on the
  inserted numbers. The guard of the delivery loop rules such inserts out.

The allowance before any `Add` is 1, not the quotient of the budget; the network-budget bound covers
that case too.

## Model

| member | source | states |
|---|---|---|
| `Theorems.UniformAgreement` | src/src/include/uniform_reliable_broadcast.hpp:11-22 | URB4: in every reachable quiescent state an id delivered by any process, crashed or not, is delivered by every live process |
| `Theorems.FifoAgreement` | src/src/src/fifo_broadcast.cpp:46-79 | at quiescence live processes have equal d-lines per author, and every crashed process's are a prefix of them |
| `Theorems.Validity` | src/src/src/uniform_reliable_broadcast.cpp:61-78 | URB1 through the throttle: at quiescence a live author has an empty queue, counter 0, and its b-lines and own d-lines are both exactly 1..m |
| `Theorems.NoDuplication` | src/src/include/uniform_reliable_broadcast.hpp:15-15 | URB2: in every reachable state no d-line of an author repeats, and the numbers run 1, 2, 3 without a gap |
| `Theorems.DeliveryCertificate` | src/src/src/uniform_reliable_broadcast.cpp:92-126 | with whole operations as steps, when the guard passes, self plus the ack set (never containing self) is a strict majority, all of them have the id on all their links, and one of them survives any minority crash |
| `Theorems.NoCreationAnywhere` | src/src/include/uniform_reliable_broadcast.hpp:17-18 | URB3: with whole operations as steps, a delivered id was put on all of its author's links, not merely queued |
| `Theorems.PacketsAreGenuine` | src/src/src/broadcast.cpp:13-27 | every data packet, relayed ones included, carries an id its author has put on the network and the payload its author passed to send |
| `Theorems.ThrottleConservation` | src/src/src/uniform_reliable_broadcast.cpp:61-78 | with whole operations as steps, own ids on every link are exactly 1..k, the queue exactly k+1..next-1 in order, the counter (32-bit wrap included in the model) equals own undelivered ids on the network, stays within the limit, and is at the limit while the queue is non-empty |
| `Theorems.RelayAtMostOnce` | src/src/src/uniform_reliable_broadcast.cpp:84-108 | with whole operations as steps, no link ever carries an id twice although links redeliver, so one broadcast costs at most n(n-1) link sends |
| `Theorems.LinkConservation` | src/src/src/perfect_link.cpp:123-145 | every allocated link number is still to be sent with its original payload or has been handed to the peer's manager |
| `Theorems.TimedNoDuplication` | src/src/src/perfect_link.cpp:191-230 | a number is handed up again only 9 clock seconds after each of its earlier arrivals, never in strong mode; every arrival was handed up; acks are only queued for remembered numbers |
| `Theorems.Coupling` | src/src/src/uniform_reliable_broadcast.cpp:5-36 | the FIFO record and the delivered-set record of every author, kept by different loops, are equal and compact, and determine that author's d-lines |
| `Theorems.NetworkBudget` | src/src/src/uniform_reliable_broadcast.cpp:57-58 | with whole operations as steps, n times the total in flight is at most 32768 or at most n squared, and at most 32768 for up to 128 processes |
| `UrbProofs.AllowanceIsLargest` | src/src/src/uniform_reliable_broadcast.cpp:57-58 | for 2 to 181 processes the allowance is the largest number with n * n * allowance at most 32768, and it is 1 for one process and beyond 181 |
| `Theorems.LinkCounterBound` | src/src/src/perfect_link.cpp:123-145 | with whole operations as steps, a link counter is at most one more than the number of distinct ids all authors have put on the network |
| `Theorems.AllUpDeliver` | src/src/src/uniform_reliable_broadcast.cpp:80-109 | at quiescence what one live process has pending or delivered is delivered by every live process |
| `Theorems.DeliveriesOrderLogs` | src/src/src/fifo_broadcast.cpp:46-79 | a process that delivered less of an author has a prefix of the other's log, and equal deliveries, in any order, give equal logs |
| `Crashes.CrashIsFinal` | README.md:128-128 | along every run, from a crash step on, the crashed process, its links, what they sent and what reached it never change again, and no packet of it is added to the network |
| `Crashes.CrashedExactly` | README.md:128-128 | the sets of processes found crashed in reachable states are exactly the minorities of 1..n |
| `Crashes.MinorityCrashes` | tools/stress.py:142-143 | from every well-formed state, at any moment, any larger minority can crash, with nothing else changed |
| `Crashes.SendMany` | src/src/src/uniform_reliable_broadcast.cpp:61-78 | in every reachable state a live process can send any number of messages |
| `Crashes.CrashedPrefix` | src/src/include/uniform_reliable_broadcast.hpp:20-21 | for three processes or more and all k and m, a reachable quiescent state in which a crashed process has delivered exactly 1..k of an author and every live one exactly 1..k+m |
| `Gaps.GapsAreReachable` | src/src/src/fifo_broadcast.cpp:46-79 | for three processes or more, every selection of the messages a crashed author had in flight is, in some reachable quiescent state, exactly what all live processes have delivered of it, and their d-lines stop at its first gap |
| `Gaps.GapsAreFew` | src/src/src/uniform_reliable_broadcast.cpp:68-76 | at quiescence at most `limit` messages that an author put on the network are missing at a live process |
| `Gaps.StepUnknown` | src/src/src/uniform_reliable_broadcast.cpp:80-109 | an id of a crashed author that no live process knows becomes known to one only through a packet of a crashed process |
| `Handoffs.HandedUpExactly` | src/src/src/perfect_link.cpp:280-300 | along every run an arrival is handed to the manager if and only if each earlier arrival of its number was followed by a clean-up at least nine seconds later, in weak mode; otherwise no process changes |
| `Handoffs.RememberedExactly` | src/src/src/perfect_link.cpp:191-220 | along every run a number is remembered if and only if some arrival of it was not followed by such a clean-up |
| `Handoffs.HandedUpTwice` | src/src/src/perfect_link.cpp:212-220 | for two processes or more, in weak mode, a run that hands one number up twice, at seconds 0 and 9 |
| `AckTables.AcksAreArrivals` | src/src/src/uniform_reliable_broadcast.cpp:92-96 | in every reachable state only pending ids have ack entries, and the entry of a pending id is exactly the processes whose copy has arrived |
| `AckTables.VisitLeavesEntry` | src/src/src/uniform_reliable_broadcast.cpp:124-163 | after an iteration of the delivery loop its id has an ack entry if and only if it is still pending |
| `AckTables.EmptyEntry` | src/src/src/uniform_reliable_broadcast.cpp:124-127 | a reachable state with an entry that nobody has acknowledged yet |
| `Invariants.ReachableInv` | src/src/src/uniform_reliable_broadcast.cpp:61-171 | every reachable state satisfies the system invariant |
| `Invariants.StepInv` | src/src/src/uniform_reliable_broadcast.cpp:61-171 | every enabled step keeps the system invariant |
| `Invariants.Certificate` | src/src/src/uniform_reliable_broadcast.cpp:124-126 | a passing guard means that a strict majority holds the id |
| `Invariants.SentAppend` | src/src/src/best_effort_broadcast.cpp:3-32 | an emitted message was on none of the process's links, and afterwards the links carry exactly the known ids, each once |
| `UrbProofs.SendLocal` | src/src/src/uniform_reliable_broadcast.cpp:61-78 | a send keeps throttle, tables, coupling and log, and makes exactly the emitted message known |
| `UrbProofs.NotifyLocal` | src/src/src/uniform_reliable_broadcast.cpp:80-109 | a notification keeps them too, among them that the ack table has entries for pending ids only |
| `UrbProofs.DeliverLocal` | src/src/src/uniform_reliable_broadcast.cpp:122-168 | a delivery iteration keeps them too, counter and refill included |
| `Progress.RunToQuiescence` | src/src/src/perfect_link.cpp:152-324 | from every state of the invariant a run without sends and crashes, cleaning links up after acks as the code does, ends in a quiescent state |
| `Progress.DeliveryIsReachable` | src/src/include/uniform_reliable_broadcast.hpp:11-22 | from every reachable state the live processes can reach one where every message a live process sent, and every message anyone delivered, is delivered by all of them |
| `Progress.SentIsDelivered` | src/src/include/uniform_reliable_broadcast.hpp:13-13 | at quiescence everything a live process ever sent is delivered by every live process |
| `Liveness.NothingIsUndone` | src/src/src/uniform_reliable_broadcast.cpp:80-171 | no step but an application send raises the rank (processes up, undelivered, unknown, unacknowledged), lexicographically |
| `Liveness.Settles` | src/src/src/perfect_link.cpp:152-324 | in every infinite run with finitely many sends, fair or not, the rank is constant from some state on |
| `Liveness.EventuallyQuiescent` | src/src/src/perfect_link.cpp:152-324 | every fair run with finitely many sends is quiescent from some state on |
| `Liveness.EventualDelivery` | src/src/include/uniform_reliable_broadcast.hpp:11-22 | in every such run, from some state on, all live processes have delivered whatever a live process sent and whatever any process delivered |
| `Liveness.DeliveredStays` | src/src/src/uniform_reliable_broadcast.cpp:156-158 | along every run a delivered id stays delivered |
| `Liveness.CleaningAfterAcksIsFair` | src/src/src/perfect_link.cpp:186-188 | cleaning a link up only while no data has arrived on it since its acks were transmitted, with any other steps in between, meets the fairness of the clean-up |
| `Eventually.EveryDeliveryIsShared` | src/src/include/uniform_reliable_broadcast.hpp:20-21 | URB4 as written, in fair runs with any number of sends: what any process delivers, live or crashed, every live process delivers |
| `Eventually.EverySendIsDelivered` | src/src/include/uniform_reliable_broadcast.hpp:13-13 | URB1 as written, in fair runs with any number of sends: whatever a live process sends is delivered by every live process |
| `Eventually.LeavesQueue` | src/src/src/uniform_reliable_broadcast.cpp:138-154 | in such runs every message of a live process leaves its queue, because a non-empty queue always has an own message in flight that will be delivered |
| `Eventually.Spreads` | src/src/src/perfect_link.cpp:232-300 | in such runs what one live process has put on its links every other live process absorbs from it, whatever happens to acks and clean-up |
| `FairRuns.FairRunThrough` | src/src/src/drivers.cpp:186-194 | every reachable state, with any sends, losses and crashes before it, lies on a fair run from the initial state |
| `Windows.InsertContains` | src/src/src/uniform_reliable_broadcast.cpp:5-36 | one insert adds exactly the inserted number to what the record contains |
| `Windows.InsertAllRefinesSet` | src/src/include/uniform_reliable_broadcast.hpp:40-43 | after any inserts, `Contains` is membership among the inserted numbers, for every number from 1 |
| `Windows.InsertAllCompact` | src/src/src/uniform_reliable_broadcast.cpp:5-36 | under distinct inserts `bottom_` is the least missing number, what is stored is exactly the inserted numbers above it, and the sizes add up to the number of inserts |
| `Windows.InsertTight` | src/src/src/uniform_reliable_broadcast.cpp:5-36 | one insert keeps the record compact if and only if the number is not below `bottom_` |
| `Windows.CompactExactly` | src/src/src/uniform_reliable_broadcast.cpp:5-36 | after arbitrary inserts the record is compact if and only if no number was inserted after it and everything below it had been |
| `Windows.RepeatBlocksCompaction` | src/src/src/uniform_reliable_broadcast.cpp:14-25 | the concrete inserts 1, 1, 3, 2 leave 3 stored at `bottom_` 3 |
| `Windows.ArriveIsInsert` | src/src/src/fifo_broadcast.cpp:46-79 | on a compact record the FIFO loop and the delivered-set loop agree if and only if the number is not below `bottom_`; what is logged is the run passed |
| `Windows.DrainIsAbsorb` | src/src/src/fifo_broadcast.cpp:59-74 | the FIFO drain stops where the delivered-set loop stops and logs exactly the numbers in between |
| `Windows.DrainExact` | src/src/src/fifo_broadcast.cpp:59-74 | for any stored numbers and any `next`: the drain logs stored numbers in ascending order, one step of `next` each, none ahead of it, and leaves exactly the others, all beyond the final `next` |
| `Windows.ArriveAllRefinesPrefix` | src/src/src/fifo_broadcast.cpp:48-79 | for arrivals in any order with repeats, the log is 1..k in order for the longest gap-free prefix, and `pending` is exactly the arrivals above k |
| `Windows.TightUnique` | src/src/include/uniform_reliable_broadcast.hpp:28-46 | a compact record is determined by its members, and more members never mean a smaller `bottom_` |
| `Links.OnDataReceiver` | src/src/src/perfect_link.cpp:280-300 | receiving a message keeps the spacing of hand-overs and the containment of acks in remembered numbers |
| `Links.CleanInSeconds` | src/src/src/perfect_link.cpp:191-230 | a clean-up keeps a remembered number if and only if strong or it arrived less than nine seconds ago, and a queued ack if and only if its number arrived less than one second ago |
| `Codec.NestedRoundTrip` | src/src/src/perfect_link.cpp:326-373 | parsing both layers recovers number, author, running number and payload for all 32-bit values; acks parse as acks; a message fits 14 bytes if and only if its payload is at most one byte |
| `Codec.ParsedReserializes` | src/src/src/broadcast.cpp:43-73 | whatever bytes parse as a message, at either layer, serialize back to the same bytes |
| `Codec.LinkLayout` | src/src/src/perfect_link.cpp:152-338 | a message is byte 1, the number in four bytes low byte first, the payload; an ack is byte 0 and the number, exactly 5 bytes |
| `Codec.BroadcastLayout` | src/src/src/broadcast.cpp:43-52 | author and running number in four bytes each, low byte first, then the text |
| `Codec.ParseLayout` | src/src/src/perfect_link.cpp:340-373 | exactly which bytes are refused, read as a message and read as an ack at either layer, and which number, author and payload are read |
| `Codec.SerializeLink` | src/src/src/perfect_link.cpp:326-338 | the front of the buffer holds the packet, starting with byte 1 and the number low byte first, the rest is untouched, the length is returned |
| `Codec.SerializeBroadcast` | src/src/src/broadcast.cpp:43-52 | likewise for the broadcast layer: author, then running number, then text |
| `Codec.ParseLink` | src/src/src/perfect_link.cpp:340-373 | the copying parser computes the format's inverse: an accepted message re-serializes to the input, and exactly what is shorter than 5 bytes or starts with neither 0 nor 1 is refused |
| `Codec.ParseBroadcast` | src/src/src/broadcast.cpp:54-73 | likewise for the broadcast layer |
| `Wire.SurvivesWire` | src/src/src/perfect_link.cpp:263-324 | a packet in range, serialized, cut to the receive buffer and parsed, has the effect of the packet itself |
| `Wire.AnyDatagram` | src/src/src/perfect_link.cpp:263-300 | whatever bytes arrive: too short or of unknown kind they change nothing, of message kind they are acknowledged and dated, and without both headers no process changes |
| `Wire.LongTextIsCut` | src/src/src/udp_server.cpp:44-60 | a text longer than one byte arrives as its first byte |
| `Wire.WireRefinesSystem` | src/src/src/udp_server.cpp:44-60 | every run over datagrams with no wrapped counter and texts of at most one byte reaches a state of the packet-level system |
| `Wire.SystemRunsOnWire` | src/src/src/udp_server.cpp:44-60 | conversely every packet-level run through such states is a run over datagrams to the same state |
| `Wire.WireIsGenuine` | src/src/src/broadcast.cpp:13-27 | in such runs every datagram fits the buffer and parses to the genuine id and payload of its author |
| `Wire.FitsFromCounts` | src/src/src/perfect_link.cpp:132-145 | with whole operations as steps, at most m messages sent by each of n processes and n * m below 2^32: no broadcast or link counter has wrapped |
| `Checker.CheckProcess` | tools/validate_fifo.py:22-49 | the loop accepts a log if and only if its b-lines are 1..m in order and each author's d-lines are 1..k in order |
| `Checker.RunLogsAccepted` | src/src/src/broadcast.cpp:29-41 | every log of every run is acceptable, also of crashed processes |
| `Records.PeerState.Insert` | src/src/src/uniform_reliable_broadcast.cpp:5-36 | the two loops over the ordered set change the record as `Windows.Insert` does |
| `Records.DeliveredSet.Insert` | src/src/include/uniform_reliable_broadcast.hpp:62-65 | exactly the author's record changes, created on first use |
| `LinkObjects.PerfectLink.Send` | src/src/src/perfect_link.cpp:132-145 | the message is stored under the next number, which is returned |
| `LinkObjects.PerfectLink.SendMessages` | src/src/src/perfect_link.cpp:232-261 | transmits exactly the unacknowledged messages |
| `LinkObjects.PerfectLink.SendAcks` | src/src/src/perfect_link.cpp:152-189 | transmits exactly the queued acks, and cleans up only when there were any |
| `LinkObjects.PerfectLink.CleanAcks` | src/src/src/perfect_link.cpp:191-230 | stops acking what arrived a second ago or more, forgets what arrived nine seconds ago or more unless strong, and changes nothing else |
| `LinkObjects.PerfectLink.Aged` | src/src/src/perfect_link.cpp:199-210 | finds exactly the numbers that arrived one second ago or more, and nine or more |
| `LinkObjects.PerfectLink.OnAck` | src/src/src/perfect_link.cpp:301-323 | an ack removes exactly its number, whatever the payload |
| `Process.Broadcast.Add` | src/src/src/uniform_reliable_broadcast.cpp:48-59 | one more link and process, and the allowance for that count: the largest with n * n * allowance within 32768, or 1 |
| `Process.Broadcast.PutOnLinks` | src/src/src/best_effort_broadcast.cpp:3-32 | every link gets the message exactly once |
| `Process.Broadcast.Send` | src/src/src/uniform_reliable_broadcast.cpp:61-78 | the object's view and each of its links change as the value-level send says |
| `Process.Broadcast.NotifyInternal` | src/src/src/uniform_reliable_broadcast.cpp:80-109 | likewise for a notification, relay included |
| `Process.Broadcast.DrainLoop` | src/src/src/fifo_broadcast.cpp:55-74 | the loop over the ordered set logs and removes exactly what the recursive drain does |
| `Process.Broadcast.DeliverInternal` | src/src/src/fifo_broadcast.cpp:46-79 | the author's FIFO record and the log advance as one arrival does |
| `Process.Broadcast.RefillSlot` | src/src/src/uniform_reliable_broadcast.cpp:138-154 | the counter drops, and a queued message, if any and if allowed, takes the slot and goes on every link |
| `Process.Broadcast.DeliverOne` | src/src/src/uniform_reliable_broadcast.cpp:122-168 | one iteration acts as the value-level delivery on the view and on each link |
| `Process.Broadcast.DeliverPending` | src/src/src/uniform_reliable_broadcast.cpp:111-171 | one pass visits each pending id once, in some order, and composes the iterations |
| `Process.Broadcast.OnData` | src/src/src/perfect_link.cpp:275-300 | an unseen number is acknowledged, notified and remembered; a seen one is acknowledged and re-dated without notification |
| `LockLevel.ReachableInv` | src/src/src/uniform_reliable_broadcast.cpp:61-171 | under every interleaving of the three threads' locked regions, echoes of an own id during its fan-out included, the lock-level invariant holds |
| `LockTheorems.NoDuplicationAtLocks` | src/src/src/uniform_reliable_broadcast.cpp:122-168 | under every interleaving an id reaches `DeliverInternal` at most once, and only after it is recorded as delivered |
| `LockTheorems.PutsAtLocks` | src/src/src/uniform_reliable_broadcast.cpp:84-108 | the puts of an id, done and under way, are one for being pending plus one for being delivered or between erase and insert: at most two, and two exactly when both hold and no put is under way |
| `LockTheorems.SecondPutIsExact` | src/src/src/uniform_reliable_broadcast.cpp:98-106 | a step makes a second put due if and only if the receive thread inserts an id that is delivered or between erase and insert |
| `LockTheorems.LinkNumbersAtLocks` | src/src/src/best_effort_broadcast.cpp:28-31 | under every interleaving a link gives out at most two numbers for each id put on it |
| `LockAcks.AcksAtLocks` | src/src/src/uniform_reliable_broadcast.cpp:92-103 | under every interleaving an ack entry is of an id that is pending, about to be inserted, or past its erase |
| `LockAcks.StaleIsExact` | src/src/src/uniform_reliable_broadcast.cpp:88-96 | an entry of a non-pending id with no thread about to insert the id or erase the entry appears if and only if the receive thread records an acknowledgement of an id it saw pending and that is delivered by now |
| `LockAcks.StaleForEver` | src/src/src/uniform_reliable_broadcast.cpp:160-162 | along every run such an entry, of a delivered id, stays unchanged |
| `LockAcks.StaleIsReachable` | src/src/src/uniform_reliable_broadcast.cpp:84-96 | for three processes or more, with the limit `Add` computes, a run that ends at rest with such an entry |
| `LockAcks.LateCopyIsIgnored` | src/src/src/uniform_reliable_broadcast.cpp:88-92 | a copy of a delivered id taken up afterwards leaves the whole local state as it was |
| `LockTheorems.CounterAtLocks` | src/src/src/uniform_reliable_broadcast.cpp:68-76 | the counter equals the own ids counted in and not out, is never negative, and exceeds the limit by at most one |
| `LockTheorems.ClaimIsExact` | src/src/src/uniform_reliable_broadcast.cpp:138-151 | more slots are claimed than the limit allows after a step if and only if that step claims the last free slot a second time (a send's test while the refill holds a message, or a pop while a send that passed has not counted in), or they were before and no own message is counted out |
| `LockTheorems.OvershootExactly` | src/src/src/uniform_reliable_broadcast.cpp:68-76 | a run that ends with no count-in pending has the counter above the limit if and only if the last slot was claimed twice with no own message counted out afterwards |
| `LockTheorems.OvershootIsExact` | src/src/src/uniform_reliable_broadcast.cpp:151-151 | the step that takes the counter above the limit is a count-in at the limit of a slot claimed beyond it |
| `LockTheorems.WakeIsExact` | src/src/src/uniform_reliable_broadcast.cpp:68-76 | a waiting message loses its wake-up if and only if a push finds the counter at zero with no refill under way, and regains it if and only if a later send makes its test |
| `LockTheorems.StrandedExactly` | src/src/src/uniform_reliable_broadcast.cpp:61-78 | a run that ends at rest has a queued message and nothing in flight if and only if such a push occurred with no later test |
| `LockTheorems.RaceIsExact` | src/src/src/uniform_reliable_broadcast.cpp:138-138 | the stricter atomic rule, a waiting message has the counter at the limit, breaks if and only if an own message is counted out within the limit while a send is between its test and its push |
| `LockOrder.WaitingInOrder` | src/src/src/uniform_reliable_broadcast.cpp:61-78 | under every interleaving the own ids not counted in (refill's, queue, application's) stand in ascending order and are exactly the complement of those counted in |
| `LockOrder.OrderIsExact` | src/src/src/uniform_reliable_broadcast.cpp:76-76 | of the order of count-ins: from a state where the own ids counted in are 1..k, a step breaks this if and only if it counts in a new send while an earlier message is queued or held by the refill |
| `LockLinks.ChainAscends` | src/src/src/uniform_reliable_broadcast.cpp:61-78 | under every interleaving the own ids on their way to the links (refill's up to its put, queue, application's up to its put) ascend, and every other own id so far is on the links |
| `LockLinks.LinkOrderIsExact` | src/src/include/uniform_reliable_broadcast.hpp:114-123 | of the order on the links: from a state where the own ids put are 1..k, a step breaks this if and only if it completes a put of the application's id while an earlier id is queued or held by the refill up to its put |
| `LockOrder.CertificateIsExact` | src/src/src/uniform_reliable_broadcast.cpp:98-106 | at the erase of a delivery the id is not completely put on the links if and only if the application or the receive thread is inside its fan-out; the latter only for a foreign id and at most three processes |
| `LockRuns.StrandedIsReachable` | src/src/src/uniform_reliable_broadcast.cpp:68-73 | for every number of processes, with the limit `Add` computes, a run that ends at rest with a queued message and nothing in flight |
| `LockRuns.OvershootIsReachable` | src/src/src/uniform_reliable_broadcast.cpp:138-151 | for every number of processes, with that limit, a run that takes the counter one above it |
| `LockRuns.OvershootExceedsBudget` | src/src/src/uniform_reliable_broadcast.cpp:57-58 | with j of n counters one above the limit and the others at it, the budget max(32768, n squared) is exceeded if and only if n * j is more than what the limits leave of it; j = n always does, from two processes on |
| `LockRuns.OutOfOrderIsReachable` | src/src/src/uniform_reliable_broadcast.cpp:68-77 | for every number of processes, with the limit `Add` computes, a run in which a later own message is on the links while an earlier one is queued |
| `LockRuns.OvertakenIsReachable` | src/src/src/uniform_reliable_broadcast.cpp:149-153 | for every number of processes, with that limit, a run in which all count-ins are in order and yet a later own message is on the links while the refill still holds an earlier one |
| `LockRuns.DeliveredBeforeFanOut` | src/src/include/uniform_reliable_broadcast.hpp:114-123 | for three processes or more, a run that delivers an own id before its fan-out is complete |
| `LockRuns.DeliveredBeforeRelay` | src/src/src/uniform_reliable_broadcast.cpp:98-106 | with three processes, a run that delivers a foreign id before it is relayed on any link |
| `LockRuns.RelayedTwiceDeliveredOnce` | src/src/src/uniform_reliable_broadcast.cpp:134-158 | for three processes or more, with that limit, a run that relays one id twice and delivers it once |
| `WrappedLink.WrapKeeps` | src/src/src/perfect_link.cpp:132-145 | with at most M messages put on a link whose counter wraps at M, each is still stored under its number or was handed up, in either mode |
| `WrappedLink.WrapLoses` | src/src/src/perfect_link.cpp:307-323 | for every larger number of messages, in either mode, a run in which one is neither stored nor handed up |
| `WrappedLink.StrongHandsUpOneRound` | src/src/src/perfect_link.cpp:284-299 | in strong mode at most M messages are ever handed up, so all but M are missing, and lost once nothing is left to send |
| `WrappedLink.WeakHandsUpAll` | src/src/src/perfect_link.cpp:212-220 | in weak mode, for any different messages, however many, a run that hands all of them up and leaves nothing to send |

## Left out

- Sockets and UDP I/O: replaced by a network that loses, duplicates and reorders, and reports true senders.
- Command line, host file parsing, DNS and printing; distinct process ids 1..n are assumed.
- Thread start, stop, sleeps and joins, and C++ memory-model races on containers.
- The logger's file output: a log is an append-only sequence of b and d lines.
- `ReliableFIFOBroadcast` and `BasicManager`, which the drivers do not instantiate; localized causal broadcast, which is not implemented.
- `DeliveredSet::Size`, which nothing calls; the stress and traffic-control tools.
- Calls of `Add` during a run: the drivers make them all before start, so n and the limit are constant in `System`.
- The queued message is read by value; the source reads it through a reference after the pop.
- Clocks never run backwards, although the source reads the wall clock.
- In `System` the clean-up and each iteration of the delivery loop are steps of their own, which allows more runs than the source's clean-up after acks and passes over a snapshot; `LinkObjects.PerfectLink.SendAcks` and `Process.Broadcast.DeliverPending` have the exact order.
- The broadcast and link numbers are unbounded in `System`; states with a wrapped counter are excluded from `Wire` by `Wire.Fits`. The documented load reaches such states from three processes on; `WrappedLink` models what a link then does, in isolation, and the stack above it is not modelled there.
- Integers on the wire are little-endian; the source writes native byte order.
- The allowance is computed in exact integers; the source divides in floating point, which is exact for these magnitudes.
- The link objects carry structured messages; bytes appear in `Codec` and `Wire`.
- The link's own locks: between perfect_link.cpp:281 and :298 the sending thread can transmit an ack before the manager is told, and between :134 and :137 a number is taken and its message not stored yet; link conservation and acks within remembered numbers hold between whole sends and receives.
- `LockLevel` counts a put when its fan-out over the links is complete, and has the delivered record as a plain set.
- Theorems.ThrottleConservation: for whole operations; at lock level the order on the links and the limit fail at the steps of `LockLinks.LinkOrderIsExact` and `LockTheorems.ClaimIsExact`.
- Theorems.RelayAtMostOnce: for whole operations; at lock level it fails at the step of `LockTheorems.SecondPutIsExact`, and two puts are the most.
- Theorems.LinkCounterBound: for whole operations; at lock level twice the number of ids, by `LockTheorems.LinkNumbersAtLocks`.
- Theorems.DeliveryCertificate: for whole operations; at lock level the delivering process may be inside its fan-out, as `LockOrder.CertificateIsExact` says, and so may the processes that acknowledged.
- Theorems.NetworkBudget: for whole operations; at lock level it fails with the limit.
- AckTables.AcksAreArrivals: for whole operations; at lock level it fails at the step of `LockAcks.StaleIsExact`.
- A text longer than one byte overruns the sender's 14-byte buffer in the source; `Codec.SerializeLink` requires room, and `Wire` encodes such a text in full and cuts it on receipt.
