# Verification model of the ring buffers

This project models the concurrent core of the ring-buffer crate and proves what
its documentation promises: that a broadcast ring never overwrites what a consumer
has not read, that every consumer reads exactly what was published, that no
blocked thread is ever left asleep and unreachable, and that registrations,
values and counts are conserved. `dafny verify dfyconfig.toml` checks all of it.

## How the program is modelled

**Concurrency.** A protocol is a datatype `Machine`, a datatype `Action` with one
constructor per kind of shared access, and a function `Apply`. One action is one
load, store, swap or compare-and-swap of the code; any number of threads
interleave freely. The order of actions is one total order, which is what the
code's `SeqCst` accesses and fences are there to provide. Theorems speak of every
reachable state, for every capacity and any number of producers, consumers,
waiters and wakers.

**Objects that update their own fields** are classes: `BroadcastRing.Ring`,
`WakeSet.WakeSet`, `WakerSet.WakerSet`, `WakerSet.ExclusiveRegistration`,
`ParkRegistry.ParkRegistry`, `AwaitedBatch.AwaitedBatch`,
`ConsumedWatermark.ConsumedWatermark` and `ConsumedWatermark.ConsumedTally`. The
methods of `Ring` follow the calls of the broadcast ring access by access, and let
the other threads take any number of steps of their own before each access: the field
`schedule` says which, and a step in it that would have a clone race a floor scan or an
unmarked claim is passed over. The field `flukes` says which of the weak
compare-and-swaps fail for no reason. With an empty schedule the same methods are the
sequential calls, and their contracts then say exactly when they succeed.

**Values.** A value is its ticket, the number of the write that put it into a
slot. Equal payloads therefore stay apart, and "destroyed exactly once" can be said.

| file | what it holds |
|---|---|
| `SlotState.dfy`, `ConsumerFloor.dfy`, `PositionLog.dfy` | slot words, the floor, the history of positions |
| `BroadcastMachine.dfy` | every access of the broadcast ring |
| `BroadcastWindows.dfy` | what clones may race, and the runs in which they race no more |
| `BroadcastBasics.dfy` | what every step keeps, whatever clones do |
| `BroadcastBounds.dfy` | what holds while clones keep off floor scans: nobody's floor is overstated |
| `BroadcastMarks.dfy` | what holds while clones keep off unmarked claims: one producer a slot |
| `BroadcastInvariant.dfy` | the joint invariant: the three together, and what consumers were shown |
| `BroadcastTheorems.dfy`, `BroadcastConservation.dfy` | what holds in every state of the runs of a window |
| `BroadcastRuns.dfy`, `BroadcastScanRace.dfy`, `BroadcastMarkRace.dfy` | runs built step by step in which the promises fail |
| `BroadcastLimits.dfy`, `BroadcastCaches.dfy` | for each promise, the exact condition under which it holds of every run |
| `BroadcastRefusals.dfy` | when a claim is refused, and that it may be with room left |
| `BroadcastRing.dfy` | the ring's calls as methods, amid other threads |
| `ParkMachine.dfy`, `ParkTheorems.dfy` | parking and waking on one side, access by access |
| `ParkCapacity.dfy`, `ParkLimits.dfy` | one delivery per freed slot is enough, and the exact condition for it |
| `ParkCalls.dfy`, `ParkWakes.dfy` | what every call and every wake comes to: how it ends, what it takes, what it gives |
| `SoleParking.dfy`, `SoleCalls.dfy` | the same with one waiter, with the blocking loops around it |
| `WakeBitmap.dfy`, `WakeInterest.dfy`, `WakeSet.dfy`, `ParkRegistry.dfy` | wake delivery, call by call |
| `TreiberStack.dfy` | the stack of async registrations, pointer by pointer |
| `TreiberProgress.dfy` | that its calls end, and what they do alone |
| `TreiberCalls.dfy`, `TreiberOverlaps.dfy` | what one drain or withdrawal takes while others run, and what it may miss |
| `WakerSet.dfy` | async registrations, call by call |
| `MpscRing.dfy`, `MpscCalls.dfy` | the many-producer, one-consumer ring, access by access and call by call |
| `AwaitedBatch.dfy`, `ConsumedWatermark.dfy` | the many-to-many ring's routing word and watermark |

## What turned out to be false of the code

*Clones racing producers.* `Consumer::clone` takes a seat with one access and
stores its head there with another, and both `any_subscribed` and the floor scan
read seat by seat. A clone that moves into a seat a scan has already passed makes
the scan overstate the floor, and `SlotReuse` cannot see a claim whose slot is not
yet marked. So the promises below do not hold of every run, and each has its exact
condition, proved for every capacity, every number of seats and all eight *windows*: a
window says whether clones may race a floor scan, whether they may race an unmarked
claim, and whether they may come after the first claim at all. Clones *keep off scans*
if there is one seat or the window lets none race a scan; they *keep off unmarked
claims* if there is one seat, or the window lets none race one, or all of them come
before the first claim. A promise holds in every run of a window exactly when:

| promise | exactly when clones keep off | theorem | what fails otherwise |
|---|---|---|---|
| no consumer is overrun | scans | `InWindowIff` | `TwoSeatsCanOverrun` |
| a permission speaks for every consumer | scans | `PermissionsIff` | `ReachesOverstated` |
| no consumer is shown one write twice | scans | `NothingTwiceIff` | `TwoSeatsCanRepeat` |
| at moments with every taken seat settled, what a cache permits a scan permits | scans | `SettledCachesMatchIff` | `ReachesOverstated` |
| no two producers hold one slot | unmarked claims | `ExclusiveIff` | `TwoSeatsCanCollide` |
| every value is stored once or destroyed once | unmarked claims | `ValuesKeptIff` | `TwoSeatsCanLose` |
| a teardown leaves every value destroyed once | unmarked claims | `EndsCleanIff` | `TwoSeatsCanLose` |
| consumers are shown exactly what was published | both | `ReadsPublishedIff` | `TwoSeatsCanMislead`, `TwoSeatsCanDivide` |
| consumers agree | both | `AgreementIff` | `TwoSeatsCanMislead`, `TwoSeatsCanDivide` |

What a cache permits is permitted by a scan at every moment exactly when clones keep off
scans and come before the first claim, or there is one seat (`CachesMatchIff`): a clone
that has taken a seat shows the head of whoever sat there before until it stores its
own (`TwoSeatsCanLag`).

With every race allowed, the runs of a window are all runs, so each of these fails of
some run of any ring with two seats or more, and holds of every run of a ring with one
(`SafeInEveryRunIffOneSeat`, `ExclusiveInEveryRunIffOneSeat`). A step is *disciplined*
if it keeps off scans and unmarked claims at the moment it is taken: a clone between a
floor check and its swap is covered. `SafeWindowsAreCovered` shows that every run that
keeps off both is a run of disciplined steps. Making every clone before the first claim
is not enough by itself: `TwoSeatsCanOverrun` builds, at every capacity, an overrun in
which every seat is taken while nothing has been claimed.

*Answers about nobody.* For the same reason `any_subscribed` can answer no although
a consumer was subscribed throughout, so `push_block` and `reserve_block` can give
up on a ring that still has consumers. `NobodyIsRightInEveryRunIffOneSeat` proves
that the answer can be trusted in every run exactly when the registry has a single
seat, whatever window clones keep to. An early no does more than send its caller away:
a producer woken for a freed slot may give up on it, and nobody is woken in its place.
`AsleepMeansFullIff` proves that a sleeper beside a free slot, with everything at a
standstill, is ruled out in every run exactly when no question is answered early and no
routed wake passes waiters over.

*Refusals.* In the many-producer, one-consumer ring a push that loads the tail,
waits, and then loads the head can find the head past its tail; the wrapping
difference is then huge and an empty ring refuses the push. `RefusedIff` says
exactly when a push is refused, and `StaleTailIsRefusedByAnEmptyRing` builds such a
run at every capacity.

In the broadcast ring `push` and `reserve` promise to fail only when the ring is full
or nobody is subscribed. `RefusesIff` says of each access exactly when it refuses:
a scan that met nobody, a scanned head a whole lap behind, or a slot that some producer
has marked and not resolved. `RefusedWithRoomIff` says, of a call during which there
was room at the tail throughout, that it is refused exactly when the position it checks
is no longer the tail and a peer has that position's slot in hand; and
`RefusedWithRoomIffTwoSlots` that such a call exists exactly when the ring has two
slots or more, whatever the number of seats. `reserve_block`, which returns whatever
one `reserve` answers once `has_space` has said yes, can therefore answer `None` with
consumers subscribed and room all the while, exactly when the ring has two slots or
more (`ReserveBlockGivesUpIffTwoSlots`). These runs are disciplined.

*One announcement.* A batch that starts at 2^32 - 1 modulo 2^32 with all 32 bits
unused packs to the word that means "anything". `InterestIsWhatWasAnnounced` is
exact about it.

*Withdrawals in flight.* While `WakerOverflow::withdraw` has the chain detached, a
concurrent call finds nothing there. `CallTakesWhatItSees` proves what a drain or a
withdrawal takes whatever the others do: exactly what it wants of the stack as it
stands when it swaps the head out or finds it null. So a withdrawal misses its own
entry exactly when another thread has that entry's node in hand at that moment
(`WithdrawalMissesIff`, `OwnEntryMissedIff`), and a drain misses a waiter registered
before it began exactly then, too (`DrainMissesIff`). Both happen: a re-arm that misses
its entry leaves two entries of one id (`RearmCanLeaveTwo`), against "at most one live
registration at a time", and a wake that comes while an unrelated withdrawal is sorting
the chain fires nobody (`DrainCanMissAWaiter`), against "wakes every registered waker"
and against the note that hiding peers briefly is benign. The waiter it misses stays on
the stack until the next wake. Calls that do not overlap keep one entry an id and fire
everyone, as `WakerSet` proves; and whatever overlaps, no withdrawal loses a peer
(`PeersAreNeverLost`).

*Documentation.* The repository's README (lines 300 and 317) and the comment at
`src/broadcast/producer.rs:194-199` speak of a `fetch_add` claim with no retry
loop; the code claims by compare-and-swap with a retry loop, and the model follows
the code.

## Model

| member | source | states |
|---|---|---|
| SlotState.SlotIsTheRemainder | src/capacity.rs:53-55 | a slot is what is left of a position once whole laps are taken away |
| SlotState.SlotsApart | src/capacity.rs:53-55 | positions less than a lap apart never share a slot |
| SlotState.WordsRoundTrip | src/broadcast/slot_state.rs:118-138 | the slot word encoding is a bijection between words and states, in both directions |
| SlotState.ClassifyNamesThePosition | src/broadcast/slot_state.rs:153-163 | a word is ready, or a marker to skip, for the one position it names and no other |
| BroadcastBasics.BasicsStep | src/broadcast/producer.rs:85-130 | every access of every thread, whatever clones do, keeps what is behind the tail there, each claim its one owner's, and each word true of the position it names |
| BroadcastBounds.BoundsStep | src/broadcast/floor_cache.rs:77-111 | every access that races no floor scan with a clone keeps all that a producer has gathered, half-made scans included, a lower bound of the heads it speaks for, and every head within a lap of the tail |
| BroadcastMarks.MarksStep | src/broadcast/producer.rs:94-127 | every access that races no unmarked claim with a clone keeps each slot one producer's at most, with its word and its cell telling how far the latest claim on it has got |
| BroadcastInvariant.InvStep | src/broadcast/producer.rs:85-130 | every disciplined access of every thread keeps all of these and what each consumer has been shown |
| BroadcastInvariant.HeadSlotSpeaksTruth | src/broadcast/slot_state.rs:153-163 | what a consumer sees at its head is what became of that position: published, abandoned, or still open |
| BroadcastTheorems.OverwriteSafety | src/broadcast/producer.rs:88-112 | wherever clones keep off floor scans, each consumer satisfies head <= tail <= head + cap in every state of every run, late subscribers included; `InWindowIff` says nowhere else |
| BroadcastTheorems.SlotExclusivity | src/broadcast/slot_reuse.rs:32-34 | wherever clones keep off unmarked claims, at most one unresolved claim per slot, and a resolved slot's word names exactly its latest position; `ExclusiveIff` says nowhere else |
| BroadcastTheorems.ReadsExactlyThePublished | src/broadcast/consumer.rs:94-128 | wherever clones keep off both, what a consumer has been shown is exactly the published entries from its start to its head, in position order, abandoned ones skipped; `ReadsPublishedIff` says nowhere else |
| BroadcastTheorems.ConsumersAgree | src/broadcast/consumer.rs:94-128 | wherever clones keep off both, two consumers saw the same values over every stretch of positions both have passed; `AgreementIff` says nowhere else |
| BroadcastTheorems.HistoryIsFinal | src/broadcast/slot_state.rs:26-39 | in every run of every window nothing changes what a position resolved to, or takes a claim back |
| BroadcastBounds.FloorNeverFalls | src/broadcast/floor_cache.rs:35-37 | any lower bound on the consumers' heads stays one at every step, clones included |
| BroadcastBounds.NoConsumersIsAbsorbing | src/broadcast/consumer_registry.rs:108-110 | whoever is subscribed after a step had somebody subscribed before it |
| BroadcastTheorems.PermissionSpeaksForEveryConsumer | src/broadcast/floor_cache.rs:77-96 | wherever clones keep off floor scans, a yes from any level of the cache is a yes from every consumer, and both caches are lower bounds on every head; `PermissionsIff` says nowhere else |
| BroadcastTheorems.FloorIsTheLeastHead | src/broadcast/consumer_registry.rs:132-138 | the scan answers no consumers exactly when no seat is taken, else the head of the slowest taken seat |
| BroadcastTheorems.CacheYesIsScanYes | src/broadcast/floor_cache.rs:77-96 | with somebody subscribed and every taken seat settled, what either cache permits a scan at that moment would permit too; `SettledCachesMatchIff` and `CachesMatchIff` say of which runs this holds, and of which at every moment |
| BroadcastConservation.EveryValueIsStoredOrDestroyedOnce | src/broadcast/producer.rs:116-127 | wherever clones keep off unmarked claims, each value written lies, in every state of every run, in exactly one slot and has not been destroyed, or lies in none and has been destroyed exactly once |
| BroadcastConservation.EveryValueIsDestroyedOnceByTheEnd | src/broadcast/mod.rs:290-319 | wherever clones keep off unmarked claims, tear down the ring at any moment with no claim in progress: each value ever written has then been destroyed exactly once, whoever did it, and no slot holds one |
| BroadcastConservation.NothingIsSeenTwice | src/broadcast/consumer.rs:94-128 | wherever clones keep off floor scans, no consumer is shown one write twice; `NothingTwiceIff` says nowhere else |
| BroadcastLimits.SafeInEveryRunIffOneSeat | src/broadcast/consumer_registry.rs:87-100 | overwrite safety holds of every run, however clones are timed, exactly when the registry has one seat |
| BroadcastLimits.ExclusiveInEveryRunIffOneSeat | src/broadcast/slot_reuse.rs:32-34 | slot exclusivity holds of every run exactly when the registry has one seat |
| BroadcastLimits.InWindowIff | src/broadcast/consumer_registry.rs:87-100 | every head stays within a lap of the tail in every run exactly when there is one seat or clones race no floor scan |
| BroadcastLimits.ExclusiveIff | src/broadcast/slot_reuse.rs:32-34 | no slot has two producers in any run exactly when there is one seat, or clones race no unmarked claim, or all come before the first claim |
| BroadcastLimits.ReadsPublishedIff | src/broadcast/consumer.rs:94-128 | every consumer has been shown exactly what was published, in every run, exactly when clones keep off both |
| BroadcastLimits.AgreementIff | src/broadcast/consumer.rs:94-128 | consumers that started together and stand together have been shown the same, in every run, exactly when clones keep off both |
| BroadcastLimits.NothingTwiceIff | src/broadcast/consumer.rs:94-128 | no consumer is shown one write twice in any run exactly when clones keep off floor scans |
| BroadcastLimits.ValuesKeptIff | src/broadcast/producer.rs:116-127 | every value written is stored once or destroyed once, in every run, exactly when clones keep off unmarked claims |
| BroadcastLimits.EndsCleanIff | src/broadcast/mod.rs:290-319 | a teardown with no claim in progress leaves every value destroyed once, after every run, exactly when clones keep off unmarked claims |
| BroadcastLimits.PermissionsIff | src/broadcast/floor_cache.rs:77-96 | caches and permissions speak for every consumer, in every run, exactly when clones keep off floor scans |
| BroadcastCaches.CachesMatchIff | src/broadcast/floor_cache.rs:77-96 | with somebody subscribed, a scan permits all that either cache permits, at every moment of every run, exactly when there is one seat, or clones race no floor scan and come before the first claim |
| BroadcastCaches.SettledCachesMatchIff | src/broadcast/floor_cache.rs:77-96 | the same, at moments with every taken seat settled, exactly when clones keep off floor scans |
| BroadcastLimits.SafeIffDisciplined | src/broadcast/consumer.rs:41-47 | with two seats or more the ring is safe in every run of a window exactly when clones keep out of floor scans, and either out of unmarked claims or ahead of the first claim |
| BroadcastLimits.SafeWindowsAreCovered | src/broadcast/consumer.rs:41-47 | every run of a one-seat registry, and every run of any window that keeps clones off both, is a disciplined run |
| BroadcastScanRace.TwoSeatsCanOverrun | src/broadcast/consumer_registry.rs:132-149 | at any capacity, with two seats or more, a clone racing a floor scan lets a run overrun a consumer, even with every seat taken before the first claim |
| BroadcastScanRace.TwoSeatsCanMislead | src/broadcast/consumer.rs:113-126 | such a run goes on to show a consumer, for the position it found published, the value of a later one |
| BroadcastScanRace.TwoSeatsCanRepeat | src/broadcast/consumer.rs:113-126 | and then to show it the same value again at that later position |
| BroadcastMarkRace.TwoSeatsCanCollide | src/broadcast/producer.rs:88-127 | at any capacity, with two seats or more, a clone racing an unmarked claim after the first claim lets a run give one slot to two producers |
| BroadcastMarkRace.TwoSeatsCanLose | src/broadcast/producer.rs:114-127 | in such a run the late mark empties the cell the other producer has filled: with both done, a value written is in no slot and was never destroyed |
| BroadcastMarkRace.TwoSeatsCanDivide | src/broadcast/consumer.rs:113-126 | or of two consumers that found one position published, one is shown its value and the other is not |
| BroadcastCaches.TwoSeatsCanLag | src/broadcast/consumer_registry.rs:87-91 | a clone after the first claim has taken a seat that still shows a head the shared floor has passed |
| BroadcastLimits.NobodyIsRightInEveryRunIffOneSeat | src/broadcast/consumer_registry.rs:145-149 | any_subscribed answers no only with nobody subscribed, in every run, exactly when the registry has one seat |
| BroadcastRefusals.RefusesIff | src/broadcast/producer.rs:89-101 | each access of a claim refuses exactly when its scan met nobody, its floor is a lap behind, or some producer has marked a claim on the slot and not resolved it |
| BroadcastRefusals.RefusedAtTheTailIff | src/broadcast/slot_reuse.rs:32-34 | at the tail the word check refuses exactly when the position a lap before has not resolved |
| BroadcastRefusals.RefusedForWantOfConsumers | src/broadcast/consumer_registry.rs:132-138 | a scan comes back with no floor only when nobody is subscribed |
| BroadcastRefusals.TooFarBehindMeansFull | src/broadcast/floor_cache.rs:98-111 | a scan that reads a head a lap behind the position it is for does so with the ring full |
| BroadcastRefusals.RefusedWithRoomIff | src/broadcast/producer.rs:85-112 | a call with room at the tail throughout is refused exactly when the position it checks is no longer the tail and a peer has its slot in hand |
| BroadcastRefusals.RefusedWithRoomIffTwoSlots | src/broadcast/producer.rs:132-152 | some claim is refused with room at the tail all through the call exactly when the ring has two slots or more |
| BroadcastRefusals.ReserveBlockGivesUpIffTwoSlots | src/broadcast/producer.rs:249-265 | reserve_block can answer None with consumers subscribed and room throughout exactly when the ring has two slots or more |
| BroadcastRing.OthersLeaveMeAlone | src/broadcast/consumer.rs:29-48 | no step of another thread changes a producer's record and claims, or the seat of a consumer nobody is cloning |
| BroadcastRing.Ring.Pop | src/broadcast/consumer.rs:94-129 | whatever others do meanwhile, skips exactly the abandoned positions, returns the next published value, and answers None only at the tail or at an open claim; alone it moves nothing but its own seat; it ends, with tail - head as measure |
| BroadcastRing.Ring.AnySubscribed | src/broadcast/consumer_registry.rs:145-149 | alone, answers whether some seat is taken |
| BroadcastRing.Ring.ScanFloor | src/broadcast/consumer_registry.rs:132-138 | alone, finds the least subscribed head |
| BroadcastRing.Ring.Permits | src/broadcast/floor_cache.rs:77-96 | alone, whichever level answers, the answer is the scan's |
| BroadcastRing.Ring.HasSpace | src/broadcast/producer.rs:154-162 | alone, answers whether the slowest consumer leaves room at the tail; amid other threads a no is a refusal met at some moment of the call |
| BroadcastRing.Ring.Contend | src/broadcast/producer.rs:89-112 | one lap of the claim loop, alone and at the tail, is refused exactly unless the slowest consumer leaves room and the slot's previous occupant has resolved; not refused, it wins, or the weak compare-and-swap failed for no reason |
| BroadcastRing.Ring.ClaimSlot | src/broadcast/producer.rs:85-130 | amid other threads a claim is a new position whose slot is nobody else's, and without one there was a moment in the call whose access refused, for one of the three reasons; alone it is refused exactly when there is no room at the tail, and otherwise claims the tail, marks and empties its slot, and changes nothing else |
| BroadcastRing.Ring.Push | src/broadcast/producer.rs:141-152 | on success the position this call claimed carries the value this call wrote into its slot; without one some access refused it; alone it succeeds exactly when there is room, and then one new value is published at the tail, what it displaced is destroyed, and nothing else changes but caches; refused, nothing changes but caches |
| BroadcastRing.Ring.Write | src/broadcast/producer.rs:400-412 | the claimed slot's cell holds the new value and the claim is still this producer's |
| BroadcastRing.Ring.Commit | src/broadcast/producer.rs:470-474 | the position carries that value from then on |
| BroadcastRing.Ring.DropReservation | src/broadcast/producer.rs:477-490 | a value already written is destroyed and the position ends abandoned |
| BroadcastRing.Ring.DropValue | src/common/uncommitted_slot.rs:67-79 | the uncommitted value is destroyed |
| BroadcastRing.Ring.Teardown | src/broadcast/mod.rs:290-319 | after it every value ever written has been destroyed exactly once and no slot holds one |
| BroadcastRing.UseAndDrop | src/broadcast/mod.rs:290-319 | a ring pushed to, read from and dropped has destroyed each value it was given exactly once, whatever was called in whatever order |
| BroadcastRing.Ring.Clone | src/broadcast/consumer.rs:41-47 | amid other threads, takes the first seat it finds free, having found each seat before it taken in a state of its own during the call, and starts at the tail it loaded; or finds every seat taken so; the ring stays good unless a step of the clone raced a scan or an unmarked claim |
| BroadcastRing.Ring.DropConsumer | src/broadcast/consumer.rs:51-66 | amid other threads, gives the seat up at one moment of the call and changes nothing else; the floor is then the least head of the others, and there is none if there are no others |
| BroadcastRing.LeaveAndPush | src/broadcast/producer.rs:200-217 | after a consumer has left, a producer alone is told that nobody is subscribed exactly if it was the last, and its push goes through exactly if somebody is left and all who are have room for it |
| BroadcastRing.Ring.CloneProducer | src/broadcast/producer.rs:33-43 | one producer more, whose cache knows nothing, and nothing else |
| ParkTheorems.NobodySleepsUnreachable | src/common/park.rs:380-405 | a thread parked without a token has its handle armed and its bit set or in a waker's hand, or a waker owns its handle; slotless, its node is on the stack or with a drainer |
| ParkTheorems.NoReleaseIsMissed | src/common/park.rs:144-188 | once a waker has looked on behalf of a release, a sleeper either checked again after that release or is about to be unparked |
| ParkTheorems.UnspentWakeLeavesNobodyBehind | src/common/park.rs:299-332 | a wake that ends with deliveries to spare leaves no sleeper that last checked before its release |
| ParkTheorems.SleeperIsUnparked | src/common/thread_parker.rs:84-97 | a committed waker always has a step to take, and unparks its sleeper within a bounded number of its own steps or leaves the duty to one that holds the handle |
| ParkTheorems.CloseStrandsNobody | src/common/park.rs:336-344 | with the side closed and no waker mid-call, no thread is parked without a token, whether the close is read off a flag or seat by seat |
| ParkTheorems.FlushReachesEverySleeper | src/broadcast/consumer.rs:50-66 | once the closer's flush has passed the stack and the bitmap, every sleeper's unpark is on its way, whoever else is mid-call |
| ParkCalls.ClosedIffSomebodyClosedIt | src/common/close_state.rs:61-63 | along any run a side is closed exactly if it was, or a release of the run closes it, and stays so |
| ParkCalls.NobodyParksAfterAClose | src/broadcast/producer.rs:229-245 | after a close every question is answered yes, and no thread that had not yet asked again comes to park |
| ParkCalls.ClosedCallEnds | src/broadcast/producer.rs:204-245 | once the side is closed every call ends within eight steps of its thread's own, wherever it was |
| ParkCalls.FullRingBlocks | src/common/park.rs:380-400 | with the ring full and the side open, any thread's call, on a slot or without one, makes itself known and parks |
| ParkCalls.RoomIsTaken | src/broadcast/producer.rs:208-219 | where a slot stays free a call pushes within six steps of its thread's own |
| ParkCalls.CallsEndOnce | src/broadcast/producer.rs:200-246 | along any run each thread's calls end once each, in a push or in being told of the close |
| ParkCalls.SlotsAreTakenOnce | src/common/park.rs:299-332 | along any run slots freed are the slots pushed into, stolen, and still free |
| ParkWakes.WakeEndsAlone | src/common/park.rs:144-188 | left to itself a wake ends, within six steps a set bit and one a node |
| ParkWakes.NoMoreThanAsked | src/common/park.rs:299-332 | a wake asked for n deliveries makes at most n, and while it passes nobody over still seeks exactly the rest |
| ParkWakes.ReturnTakesTheToken | src/common/park.rs:398-400 | a token lets one park return: there is none after it until somebody unparks the thread |
| ParkWakes.OneUnparkAShow | src/common/thread_parker.rs:84-97 | along any run there are no more unparks than times a thread armed its handle or pushed its node |
| ParkLimits.ClosedOnSleepers | src/broadcast/consumer.rs:51-66 | a run closes a side on two sleepers, one on a slot and one without, and when the closer is done each has its token |
| ParkTheorems.InvStep | src/common/park_overflow.rs:110-151 | every access of every waiter and waker keeps each waiter findable and each release accounted for |
| ParkCapacity.NoFreeSlotIsWasted | src/broadcast/producer.rs:200-246 | while a thread sleeps with nobody about to wake it, each free slot has its waker still on the way or a thread woken for it that has still to look, if no wake passes waiters over and no question is answered early; `NoFreeSlotIsWastedIff` says not otherwise |
| ParkCapacity.AsleepMeansFull | src/mpsc/batch_release.rs:69-79 | one delivery per freed slot is enough, batches included: with every waker done and everyone inside push_block asleep, the ring is full; `AsleepMeansFullIff` says of which runs |
| ParkLimits.AsleepMeansFullIff | src/common/park.rs:144-188 | at a standstill a sleeper means a full ring, in every run, exactly when no wake passes waiters over and no question whether the side is closed is answered early |
| ParkLimits.NoFreeSlotIsWastedIff | src/common/park.rs:144-188 | each free slot has somebody on the way to it while anybody sleeps, in every run, exactly then |
| ParkLimits.SlotIsWasted | src/broadcast/producer.rs:204-232 | otherwise some run comes to a standstill with a slot free, a thread asleep that nobody is about to wake, and nobody on the way to the slot |
| ParkCapacity.SomeSlotIsDue | src/broadcast/producer.rs:204-217 | whenever a slot is free some free slot can be taken by the thread that looks, so telling slots apart restricts no run |
| ParkCapacity.CapacityStep | src/common/park.rs:299-332 | every access of waiters and wakers but a pass-over and an early answer, wake_n handing out a whole batch included, keeps each free slot guarded while anyone sleeps |
| SoleParking.NeverAsleepUnnoticed | src/common/sole_parker.rs:97-143 | the one waiter is never parked without a token while a supply or a close is visible, unless some peer is mid-wake |
| SoleParking.QuietMeansAwake | src/common/single_parker.rs:39-115 | with no peer mid-wake and something visible, the parked waiter has a token |
| SoleParking.AnswersAreHonest | src/common/single_parker.rs:39-115 | pop_block answers None only when its peers are gone and all they supplied has been returned; push_block answers Err only then, and with the caller's own value |
| SoleParking.NothingIsLostOrMadeUp | src/common/single_parker.rs:88-115 | the items returned so far are the first of those supplied, in order, and accepted pushes match free slots taken |
| SoleCalls.RunIsOnTheBooks | src/common/single_parker.rs:39-115 | along any run every call started is answered once, in order, save the one in progress; all that was supplied is there; the side is closed exactly if somebody closed it |
| SoleCalls.LatePushIsRefused | src/common/single_parker.rs:42-44 | from a moment with the side closed and nobody past the first question, every push is answered with Err and its own value, and takes no slot |
| SoleCalls.ClosedSideTakesNoMore | src/common/single_parker.rs:53-64 | after the close at most one slot is taken, and only by a push that had asked before it |
| SoleCalls.LatePopFindsNothing | src/common/single_parker.rs:95-99 | once the side is closed and drained every pop is answered with None |
| SoleCalls.CallEnds | src/common/single_parker.rs:39-115 | a call with something to find, the close included, ends within twelve of its own steps, whatever its peers do |
| SoleCalls.EmptyHandedCallParks | src/common/single_parker.rs:50-69 | with nothing to find and its backoff exhausted a call does park, its handle armed and its flag up |
| SoleCalls.ParksAgain | src/common/single_parker.rs:68-69 | back from a park with nothing to find it parks again, without a token |
| SoleCalls.WakeEnds | src/common/sole_parker.rs:137-143 | a peer's wake ends within five of its own steps |
| SoleCalls.FlagIsUpOnlyWhileWaiting | src/common/sole_parker.rs:97-114 | the flag is up only from the waiter's raising it to its lowering it |
| SoleCalls.OneUnparkAnArming | src/common/thread_parker.rs:84-97 | along any run there are no more unparks than armings, however many peers wake at once |
| WakeBitmap.SelectIsNearest | src/common/park.rs:166-169 | the rotate and trailing-zeros arithmetic selects the cyclically nearest set bit |
| WakeBitmap.CursorKeepsOrder | src/common/park.rs:176-178 | moving the cursor past a slot brings every later slot nearer by as much |
| WakeSet.WakeSet.WakeOne | src/common/park.rs:144-188 | delivers one unpark if any slot is reachable, to the one nearest the cursor, and clears no bit beyond it; otherwise it clears every stale bit |
| WakeSet.WakeSet.WakeN | src/common/park.rs:299-332 | unparks exactly min(n, reachable slots), nearest first, and clears only the bits it passed |
| WakeSet.WakeSet.WakeOneRanked | src/common/park.rs:239-261 | on the bits of this rank it is a call of wake_one: it wakes the nearest reachable waiter of exactly this rank, or proves there is none, retires the bits of that rank up to it, leaves the cursor just past the last of them, and touches no other rank |
| WakeSet.WakeSet.WakeOneInterested | src/common/park.rs:222-230 | a reachable waiter that reserved the release wins, else one that takes anything, each the nearest of its rank from where the cursor is; a decliner is never touched, and nobody is woken only when nobody reachable can use it; the cursor ends just past the last bit either pass retired |
| WakeSet.NextMatching | src/common/park.rs:266-282 | finds the nearest set bit of the rank, or says rightly that there is none |
| WakeSet.WakeSet.Flush | src/common/park.rs:336-344 | unparks every reachable waiter and the whole overflow, and leaves no bit set |
| WakeSet.WakeSet.WakeHandle | src/common/thread_parker.rs:84-97 | unparks the armed thread if there is one, after which no wake reaches the slot until it is armed again; the others stay as reachable as they were |
| WakeSet.WakeSet.Arm | src/common/park.rs:380-387 | a leased waiter is reachable afterwards under this thread's handle; a slotless one is on the overflow |
| WakeSet.WakeSet.Disarm | src/common/park.rs:404-406 | puts the waiter's slot out of every wake's reach, and no other slot |
| WakeSet.FullTurnCounts | src/common/park.rs:299-332 | one turn of the cursor meets each reachable slot exactly once |
| WakeSet.BoundedBypass | src/common/park.rs:144-188 | a slot that stays reachable is woken within its distance from the cursor plus one calls, whatever others arm or disarm meanwhile |
| WakeSet.ReservedBypass | src/common/park.rs:232-256 | a waiter the releases are reserved for, which stays reachable, is woken within its distance from the cursor plus one routed wakes, whatever others arm or disarm meanwhile |
| WakeSet.TakersBypass | src/common/park.rs:232-256 | so is one that takes anything, while no waiter the release is reserved for has its bit set |
| ParkRegistry.ParkRegistry.Lease | src/common/park_registry.rs:126-145 | leases the lowest slot nobody holds, or none exactly when all are held |
| ParkRegistry.ParkRegistry.Release | src/common/park_registry.rs:149-153 | after it some slot can be leased again, and every other lease stands |
| ParkRegistry.IndicesDoNotAlias | src/common/park_registry.rs:54-63 | two indices never share a leased slot |
| TreiberStack.AccessesAreSafe | src/common/waker_overflow.rs:129-190 | every node a thread is about to read, write or free is live and its own, whatever addresses are recycled |
| TreiberStack.OneOwnerEach | src/common/waker_overflow.rs:129-143 | each node is on the acyclic chain or in one thread's hands, and in one such place only |
| TreiberStack.SwingKeeps | src/common/waker_overflow.rs:129-143 | a swap that succeeds on a recycled address still links its node to the chain it replaces |
| TreiberStack.EachRegistrationOnce | src/common/waker_overflow.rs:149-190 | each registration is held by one node, or fired once, or freed once |
| TreiberStack.WithdrawnOnlyByItsOwn | src/common/waker_overflow.rs:157-163 | only a withdrawal of its own id, which has found nothing yet, frees a registration |
| TreiberStack.NothingLostAtRest | src/common/waker_overflow.rs:149-171 | with nobody mid-call, all that was neither fired nor withdrawn is on the stack |
| TreiberStack.PeersAreNeverLost | src/common/waker_overflow.rs:149-171 | a live registration whose id nobody withdraws from here on has, once everybody is done, fired once or is on the stack, however often its id was withdrawn before |
| TreiberStack.DrainFiresAllItTook | src/common/waker_overflow.rs:177-190 | a drain fires every registration its swap took, each exactly once, whatever others do meanwhile |
| TreiberProgress.RunIsOnTheBooks | src/common/waker_overflow.rs:113-121 | along any run the registrations are those the calls made, in order, each under its id |
| TreiberProgress.CallEndsAlone | src/common/waker_overflow.rs:129-190 | left to itself any call ends, wherever it is, within three steps a node |
| TreiberProgress.RegistersAlone | src/common/waker_overflow.rs:113-143 | a registration with nobody else about ends up on top of the stack, which is otherwise as it was |
| TreiberProgress.CallAlone | src/common/waker_overflow.rs:149-190 | a drain with nobody else about fires the whole stack in order, a withdrawal drops the first of its id |
| TreiberCalls.CallTakesWhatItSees | src/common/waker_overflow.rs:149-190 | whatever others do, a drain fires the whole stack in order, and a withdrawal drops the first of its id, as the stack stands when the call swaps the head or finds it null |
| TreiberCalls.CheckEndsIff | src/common/waker_overflow.rs:150-152 | the load of the head ends a call exactly when the stack is empty |
| TreiberCalls.WithdrawalMissesIff | src/common/waker_overflow.rs:149-171 | a withdrawal takes one registration at most, and none exactly when every live one of its id is in some thread's hands at that moment; what it takes is withdrawn once |
| TreiberCalls.OwnEntryMissedIff | src/common/park_registration.rs:85-95 | the one live entry of an id is withdrawn exactly when it is on the stack at that moment, and missed exactly when another thread has it in hand |
| TreiberCalls.DrainMissesIff | src/common/waker_overflow.rs:177-190 | a drain fires a live registration exactly when nobody has it in hand at that moment, and once |
| TreiberOverlaps.RearmCanLeaveTwo | src/common/waker_overflow.rs:53-60 | some run of a re-arm beside the withdrawal of any other id ends with two entries of one id on the stack |
| TreiberOverlaps.DrainCanMissAWaiter | src/common/waker_overflow.rs:43-51 | some run of a drain beside the withdrawal of any other id fires nobody although a waiter was registered before the drain began and is on the stack when all is done |
| WakerSet.WakerSet.Mint | src/common/registration_id.rs:59-61 | hands out an id nobody has been given |
| WakerSet.WakerSet.Store | src/common/wake_async.rs:58-72 | whoever was in a slot under another id is in one still or is handed back |
| WakerSet.WakerSet.WithdrawSlot | src/common/wake_async.rs:92-107 | empties the slot and tells its own entry, a peer's, which it hands back, and none apart |
| WakerSet.WakerSet.WithdrawOverflow | src/common/waker_overflow.rs:149-171 | removes the first entry of the id, keeps the rest, and reports whether there was one |
| WakerSet.WakerSet.RegisterAs | src/common/wake_async.rs:245-257 | the id has the new entry, besides any the overflow held for it, and every other registration is still present; with none on the overflow it has exactly that entry |
| WakerSet.WakerSet.Withdraw | src/common/wake_async.rs:270-286 | the id has no entry left, in slot or overflow, and every other registration is still present |
| WakerSet.WakerSet.WakeAll | src/common/wake_async.rs:311-329 | fires every registration present exactly once and leaves none, even when the flag lets it skip the scan |
| WakerSet.WakerSet.Flush | src/common/wake_async.rs:342-348 | the same without asking the flag |
| WakerSet.ExclusiveRegistration.Arm | src/common/park_registration.rs:85-95 | afterwards the record has exactly one entry, under the id it already had if it had one, and every other id keeps its own |
| WakerSet.ExclusiveRegistration.Withdraw | src/common/park_registration.rs:99-104 | nothing of the record is left and no peer's entry is lost |
| WakerSet.ScanFiresEachOnce | src/common/wake_async.rs:311-329 | a scan of the slots and the overflow meets every entry exactly once |
| WakerSet.WithdrawLeavesPeers | src/common/wake_async.rs:270-286 | wherever a peer displaced the entry to, a withdrawal removes it and only it |
| MpscRing.InvStep | src/mpsc/producer.rs:95-142 | every access of producers and consumer keeps each word of the window telling its position's state |
| MpscRing.ClaimFindsItsSlotFree | src/mpsc/producer.rs:95-124 | a claim finds its slot's word exactly free for its position and the slot nobody else's, however stale the cached head |
| MpscRing.NeverOverfull | examples/mpsc_claim_retreat.rs:122-145 | at most a capacity of positions is claimed and unreleased |
| MpscRing.PopsInPositionOrder | src/mpsc/consumer.rs:81-115 | the consumer receives the published values in position order, abandoned positions skipped |
| MpscRing.EmptyHandedIff | src/common/slot_sequence.rs:84-97 | a pop finds nothing exactly when the next position is unclaimed or unresolved, and a marker exactly when it was abandoned |
| MpscRing.RefusedIff | src/mpsc/producer.rs:99-106 | a push is refused exactly when the ring was full at the tail it loaded or the head has passed that tail |
| MpscRing.StaleTailIsRefusedByAnEmptyRing | src/mpsc/producer.rs:99-106 | at every capacity some run has an empty ring refuse a push |
| MpscRing.RefinesBoundedQueue | examples/mpsc_claim_retreat.rs:61-146 | each access of any thread is one step of a queue of at most cap reservations: nothing, a claim at the back, a claim resolved, or the front taken |
| MpscRing.DropFindsTheRest | src/mpsc/mod.rs:283-289 | the values left for the ring's drop are those of the positions from the head on, each in a slot of its own |
| MpscCalls.OpenClaimsAreInHand | src/mpsc/producer.rs:95-142 | a position is unresolved exactly while the producer that claimed it has it in hand |
| MpscCalls.NothingIsReceivedTwice | src/mpsc/consumer.rs:81-115 | the consumer is given no write twice |
| MpscCalls.ClaimIsGivenUpIff | src/mpsc/producer.rs:95-124 | a claim is given up only on a fresh look at the head, exactly if its tail is a lap ahead of the head or behind it; a lost swap gives nothing up |
| MpscCalls.ClaimEndsAlone | src/mpsc/producer.rs:95-124 | left to itself a claim is decided within six steps, however stale the tail it began with |
| MpscCalls.RunIsOnTheBooks | src/mpsc/producer.rs:130-142 | along any run every producer that joined is there and every value written has its own ticket |
| MpscCalls.ReserveAlone | src/mpsc/producer.rs:95-124 | alone, a producer gets the tail exactly if less than a capacity is claimed and unreleased; refused, only its cached head has changed |
| MpscCalls.PushAlone | src/mpsc/producer.rs:130-142 | alone, a push publishes one new value at the tail and changes nothing else, or is refused as above |
| MpscCalls.DropAlone | src/mpsc/producer.rs:407-414 | alone, a reservation made and dropped leaves its position abandoned and changes nothing else |
| MpscCalls.PopAlone | src/mpsc/consumer.rs:81-115 | alone, a pop skips exactly the abandoned positions, returns the first published value, comes back with nothing only at the tail or an open claim, and releases what it has passed |
| AwaitedBatch.PackingRoundTrips | src/mpmc/awaited_batch.rs:104-106 | start and bitmap come back out of the word, and only one announcement packs to the word for anything |
| AwaitedBatch.BitIff | src/mpmc/awaited_batch.rs:115-115 | bit k is set exactly if the number is some multiple of 2^(k+1), plus 2^k, plus a remainder below 2^k |
| AwaitedBatch.AnnouncedOffsetsAreReserved | src/mpmc/awaited_batch.rs:56-67 | announce any set of offsets, packed as the sum of their powers of two: exactly the positions at those offsets are reserved, the rest declined, an empty set and the one collision apart |
| AwaitedBatch.InterestIsWhatWasAnnounced | src/mpmc/awaited_batch.rs:81-116 | reserved, declining and anything are answered exactly for the positions announced, for the others, and for no announcement or the one collision |
| AwaitedBatch.NearbyPositionsDoNotAlias | src/mpmc/awaited_batch.rs:108-116 | within 2^32 - 32 positions of the batch the low 32 bits match the announced positions only |
| MpmcRouting.WakeProducerFor | src/mpmc/mod.rs:299-302 | a freed position goes to the nearest reachable producer that reserved it, else to the nearest that takes anything; a producer pinned elsewhere is left as it was, and the cursor ends just past the last bit retired |
| ConsumedWatermark.EveryPopIsCounted | src/mpmc/consumed_watermark.rs:71-93 | after any pops and departures of any consumers, watermark plus pending tallies is the number of pops, in wrapping arithmetic |
| ConsumedWatermark.FreeIsExact | src/mpmc/consumed_watermark.rs:47-50 | free is exactly the capacity less the positions in flight and the pending pops, so never more than is really free |
| ConsumedWatermark.PopsArePublished | src/mpmc/consumed_watermark.rs:71-93 | after any pops and departures no tally reaches the flush point, and a consumer that has departed owes nothing |
| ConsumedWatermark.AllGoneMeansExact | src/mpmc/consumed_watermark.rs:87-93 | once every consumer has departed the watermark is the number of pops, in wrapping arithmetic |
| ConsumedWatermark.ConsumedTally.Record | src/mpmc/consumed_watermark.rs:71-79 | watermark and tally together count one pop more, in wrapping arithmetic, and no more than flush_at - 1 are ever pending |
| ConsumedWatermark.ConsumedTally.Flush | src/mpmc/consumed_watermark.rs:87-93 | watermark and tally together count what they did, and nothing is left pending |

## Left out

- Weak memory: accesses are sequentially consistent. At the waiter's re-check and the waker's load the code's `SeqCst` fences are what justifies this; a missing fence would not show here.
- Position overflow: positions stay below 2^63 in the broadcast ring and below 2^62 in the many-producer ring, so that words neither wrap nor meet the marker. Wrapping is modelled in the cached-head test, the watermark and the batch word.
- BroadcastRing.Ring.Yield: the steps in a schedule are disciplined ones; what other clones do to a ring is what `BroadcastLimits` says.
- BroadcastRing.Ring.Teardown: destruction is counted for element types that need dropping; for the others dropping does nothing.
- ParkCapacity.AsleepMeansFull: which waiters a routed wake passes over is not in the state, so that those it leaves asleep have no use for the slot is not said.
- ParkCapacity.CapacityStep: steps but a pass-over and an early answer, which `ParkLimits` shows lose a slot.
- The look for space is one access in `ParkMachine`; its own accesses are those of `BroadcastMachine`, and alone they answer as `BroadcastRing.Ring.Permits` says.
- WakeSet.BoundedBypass: speaks of `wake_one` calls one after another, as `ReservedBypass` and `TakersBypass` do of routed ones; concurrent wakers may move the cursor in between.
- WakerSet.ExclusiveRegistration.Arm: calls one at a time; `TreiberOverlaps` shows what overlapping ones can leave.
- A panicking destructor inside `claim_slot`, and a reservation leaked without being dropped, leave the position unresolved for ever.
- `pop_ref` and its reader are the accesses of `pop` with the head advance deferred to the reader's drop; the unwind guards take the same step on a panic.
- `pop_ref_block`, `reserve_block` and `push_block` of the broadcast ring as whole calls: their waiting is `ParkMachine`, their claims are `BroadcastMachine`.
- Async futures, wakers' own code and executors: a waker fired is an entry in a list, an unpark is one token per thread.
- `len`, `is_empty` and `is_full`, which only report; `Arc` handles and `split` beyond the initial state.
- The single-producer rings, and the ring bodies of the many-to-many ring beyond its routing word and watermark.
- The two fetch-and-add claim policies of the example, one labelled incorrect, the other able to overwrite a slot still occupied.
- Backoff, cache padding, allocation, probes, watchdogs, benches.
