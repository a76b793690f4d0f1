# Admission queue, outbox and booking: a verified model

This project models, in Dafny, the parts of the ticketing system that keep state under
interleaving, and proves what they promise over every run:

* the **admission queue** of one movie: four sorted sets and a counter, changed by atomic
  scripts that any number of pods call at any time (`queue-go/redis`);
* the **outbox** that carries admissions and revocations from the queue's journal through
  publishers and two topics to booking's admission keys (`queue-go/processor`, `queue-go/handler`,
  `queue-go/kafka`, `booking/.../kafka`);
* **confirming a booking**: concurrent calls over seat locks, two unique constraints and a
  payment ledger (`booking/.../service`, `booking/.../redis`);
* four smaller protocols: the **seat-lock index**, the browsers' **opening claim**, the **event
  feed** with its cursor, the **promotion window** behind the predicted wait, and the
  **remaining-seat board**.

## How it is laid out

| file | what it holds |
|---|---|
| `sorted_sets.dfy` | a Redis sorted set as a strictly ordered sequence of (score, member), its commands, and its view as a map |
| `journal.dfy` | journal lines as strings, writing and parsing |
| `queue.dfy`, `queue_effects.dfy` | each script as a function on the queue, and what it changes |
| `queue_calls.dfy` | what each call answers, and calling it again |
| `queue_runs.dfy`, `queue_order.dfy`, `queue_expiry.dfy`, `queue_expiry_runs.dfy`, `tracking.dfy` | properties of all runs: invariant, order, expiry alone and among other scripts, tracking of movies |
| `sweep.dfy`, `outbox.dfy`, `outbox_safety.dfy`, `outbox_convergence.dfy` | the sweep, the outbox as a step machine, its invariant, convergence |
| `outbox_grace.dfy`, `outbox_recovery.dfy`, `outbox_reentry.dfy`, `outbox_topics.dfy` | exactness of the grace period, recovery, exactly when entering is safe, exactly when the order between the topics matters |
| `publishing.dfy`, `sweep_effects.dfy`, `tick_effects.dfy` | one publish call, one sweep and one promotion tick: what reaches the log, what leaves the journal, who gets a seat |
| `queue_scripts.dfy` | the scripts and publishing loops as class methods with their loops, proved against the functions above |
| `seat_requests.dfy`, `booking_tables.dfy`, `booking_invariants.dfy` | normalising, the persisting transaction, what the tables keep |
| `confirm.dfy`, `confirm_settlement.dfy` | interleaved confirm calls: idempotency and settlement |
| `confirm_refunds.dfy`, `confirm_starts.dfy`, `confirm_runs.dfy` | exactly when taking a payment back and starting another call are safe, and runs in which a refund is not |
| `booking_service.dfy`, `seat_service.dfy`, `admissions.dfy`, `seat_locks.dfy` | the services as classes with their loops |
| `row_locks.dfy` | row locks of booking transactions: no wait cycle, a way forward |
| `tab_claim.dfy`, `feed.dfy`, `rate_window.dfy`, `board.dfy` | the smaller protocols |

Code that changes state step by step is a class with methods; each method's contract ties the new
state to a function of the old one, and the theorems are lemmas about those functions over runs.

## Hypotheses

*Queue.* A script is one atomic step. Its `now` may be anything, except where a lemma says so.

*Outbox.* One movie, one clock; a script's `now` was read at most `lag` before it executes. A publish
of admissions reaches the log strictly within `bound` of its script or sweep or not at all
(`queue-go/main.go:102-103`, `queue-go/handler/admission.go:38-40`); landing may be partial, late for
revokes, repeated by later sweeps, and confirmed or not. One user's messages are consumed in the order
they were appended, and may be redelivered. A user who is neither seated nor in line enters only when

* no revoke of theirs is owed in the journal,
* no publisher holds a revoke of theirs, and
* no publisher whose admissions have all landed can still clear the line that will announce the new seat.

Booking completing a purchase and the lifetime of admission keys are outside the outbox. With `grace` the
sweep's age limit, the results hold when `bound + lag <= grace`, and `GraceIsExact` shows that they fail
otherwise. `EnteringIsSafeExactly` shows that the guard on entering is exact: from every state the invariant
allows, an entry that meets it ends well on every way on that drains journal and log, and an entry that misses
any of the three has a way on that ends with the user seated and not admitted. `AnyOrderAgreesExactly` does the
same for the order between the topics.

*Confirm.* What Redis answers about admissions and locks is arbitrary in the interleaved model; any
call out may fail. A failed transaction has rolled back and no call dies half way. The settlement results
say when a key with no call under way is paid exactly if it is booked, given that refunds and look-ups
of a winner go through:

* `SerialSettlement`: at most one call per key at a time. Requests, booking ids (clashes included) and
  failing transactions are arbitrary.
* `OverlapSettlement`: calls of one key may overlap if they ask for the same seats; every transaction ends
  in success or in a violation that is not of the booking id.
* `Settlement` covers both: a transaction may be given up, or draw an id in use, only where no other call
  of the key can still book. A call that can book starts under an unbooked key only if each unfinished call of
  the key asks for the same seats and is not about to take the payment back, or can only be turned away because
  its seats do not exist or are sold. `GivingUpIsSafeExactly`, `ClashIsSafeExactly` and `StartIsSafeExactly`
  show that none of these can be weakened.

*Opening claim.* Tabs have distinct ids and share one clock; the opening time does not change.

## Where code and comments disagree

* `queue-go/kafka/kafka.go:88-96` says the order between the two topics is not guaranteed;
  `booking/.../AdmissionExpiryConsumer.java:22-23` relies on it. The outbox takes the order as a hypothesis;
  `AnyOrderAgreesExactly` says when it is needed, and `BothIsReached` that such a state is reached.
* `queue-go/kafka/kafka.go:114-116` describes failed publishes as rolled back; the callers keep the journal
  instead (`queue-go/processor/queue.go:118-127`), and so does the model.
* `queue-go/processor/queue.go:130` and `queue-go/handler/admission.go:184` call booking's consumption a set
  insertion; it writes one key per user with a lifetime (`AdmittedService.java:38-62`), and so does the model.
* `booking/.../ScreeningService.java:112-114` says sold and locked seats overlap only between a commit and
  the release of its locks. They also do when a select checks a seat before that commit and locks it after the
  release: `SoldWhileSelecting`; `LateLockOverlapsExactly` says when, `BoardNeverOverReports` what the board shows.
* `booking/.../BookingService.java:122-123` gives every failed commit its money back. When the transaction met
  a constraint and the look-up for a winner throws, nothing is refunded: `PaidForNothing` is such a run, and
  the contract of `BookingService.Confirm` says exactly when a payment stays without a booking.

## Results that are not what one would hope

* Never refunding a booked key is false of the branches that give up on a transaction, and of the integrity
  branch when the booking id clashes, look-up or not. `BookedButRefunded` and `ClashedAndRefunded` are runs of a
  double click that end booked and unpaid. A look-up before the refund would not help: the twin may book
  after it. Safe is, exactly, that the key is unbooked and no other call of it can still book
  (`GivingUpIsSafeExactly`); a caller makes sure of that by never having two calls
  of a key under way at once (`AloneIsOrderly`).
* One grace period too short and a user who left stays admitted for good: `OvertakenAdmission`.
* Entering again is not harmless, and nothing in the code forbids it. A user ends seated and not admitted after
  entering while the revoke of an earlier seat is owed (`OwedRevokeWins`), while one is with a publisher
  (`FlyingRevokeWins`), or while the publisher of an earlier seat has yet to clear its line, which is the line of
  the new seat too (`OldClearErases`). The last happens even with journal and log empty: `OldClearIsReached`.
* Two calls of one key for different seats can both be in the right and still end booked and unpaid: one pays,
  somebody else buys a seat only it wants, and it refunds after the other has booked (`OneLosesASeat`).
* The lock index is exact for a set of screening ids if and only if none is another one, a colon and more:
  `IndexIsExact`. The seeded ids are such a set.
* The board equals the seat map not only when sold and locked are disjoint but also when nothing is free.

## Model

| member | source | states |
|---|---|---|
| SortedSets.SameScoresSameZset | queue-go/redis/enter.go:43-48 | a sorted set has one representation: equal score maps are equal sets, so removing and re-adding a waiter is one move |
| SortedSets.Zadd | queue-go/redis/enter.go:54-55 | adding keeps the order by (score, bytes) and sets exactly one member's score |
| SortedSets.Zrem | queue-go/redis/promote.go:40-41 | removing keeps the order and drops exactly one member |
| SortedSets.ZrankIsAhead | queue-go/redis/position.go:35-40 | a member's rank is the number of entries ordered before it, ties broken by bytes |
| Journal.MemberRoundTrip | queue-go/redis/pending.go:35-46 | writing then parsing a line returns its pieces if and only if kind and reason hold no bar and the id is not empty |
| Journal.ParsesExactly | queue-go/redis/pending.go:39-46 | a line parses to three pieces if and only if it is what writing them gives and they are pieces a line can hold, so clearing removes what was read |
| Journal.Encode | queue-go/redis/pending.go:34-37 | a line decodes to the notice it was written for, so distinct notices never share a line, whatever the ids hold |
| QueueCalls.WaitReplies | queue-go/redis/enter.go:43-62 | the rank reported is one more than the entries ahead in the new line, and nobody else's entry changes |
| QueueCalls.PositionCounts | queue-go/redis/position.go:29-47 | the three answers partition the cases, ahead and behind add up to the line, and only the waiter's own stamp changes |
| QueueCalls.LeaveIsFinal | queue-go/redis/leave.go:20-32 | leaving again answers zero and changes nothing, so a revoke is owed once |
| QueueCalls.ReleaseIsFinal | queue-go/redis/leave.go:39-49 | giving a seat back again answers false and changes nothing |
| QueueCalls.CompleteIsIdempotent | queue-go/kafka/kafka.go:226-230 | a completion answers whether the user held a seat and takes only that; delivered twice it equals one |
| QueueSteps.StepApplies | queue-go/redis/leave.go:20-49 | every script, in every queue, moves exactly the users and writes or withdraws exactly the notices listed for it |
| QueueRuns.StepKeepsInv | queue-go/redis/enter.go:39-63 | each script keeps capacity, disjointness, equal line and liveness members, and admits owed only to seat holders, at most one each |
| QueueRuns.ReachableInv | queue-go/redis/promote.go:30-48 | the same after any sequence of scripts in any interleaving |
| QueueRuns.EveryQueueInv | queue-go/redis/promote.go:30-48 | the same in every queue that started empty |
| QueueOrder.PromoteMovesTheHead | queue-go/redis/promote.go:30-48 | a promotion moves exactly min(vacancy, batch, waiting) of the lowest ranked in order, conserves seats plus line, and lowers every remaining rank by that number |
| QueueOrder.PromoteComposes | queue-go/redis/promote.go:30-48 | two promotions at one time equal one of the summed batch, in state and in output |
| QueueOrder.StepKeepsTimes | queue-go/redis/enter.go:43-62 | whoever a script seats, queues or sees polling gets its time, and everyone else who stays keeps theirs |
| QueueOrder.ArrivalShiftsRank | queue-go/redis/enter.go:43-62 | exactly how an arrival or re-entry changes another waiter's rank, ties included |
| QueueOrder.StepNeverOvertakes | queue-go/redis/position.go:35-46 | with later arrival times no step raises a staying waiter's rank, and each lowers it by at least what it promotes |
| QueueOrder.BoundedOvertaking | queue-go/redis/promote.go:38-44 | over any such run the position never grows and at most initial position minus one promotions happen |
| QueueExpiry.RoundsRemove | queue-go/redis/timeout.go:16-28 | after r rounds exactly the first min(due, 1000 r) due sessions are gone |
| QueueExpiry.ExpiryDrains | queue-go/redis/timeout.go:16-28 | the set is drained if and only if 1000 r covers the due; nobody outside the cutoff is touched; everyone removed is owed a revoke and no admit |
| QueueExpiryRuns.ExpiryTakesDue | queue-go/redis/timeout.go:16-28 | one expiry ends exactly a thousand due sessions, or all of them, and no others |
| QueueExpiryRuns.ExpiryDrainsAmong | queue-go/redis/timeout.go:16-28 | with any scripts in between that seat nobody at a time up to the cutoff, the due sessions only get fewer, by a thousand each expiry, until none is left |
| QueueExpiry.WaitersDrain | queue-go/redis/timeout.go:44-52 | the waiting line drains alike, keeps line and liveness equal, and leaves sessions and journal alone |
| MovieTracking.DoKeepsTracked | queue-go/redis/untrack.go:25-34 | any script of any movie and any untracking keep every movie with users or lines in the tracking set |
| MovieTracking.UntrackedUntilEntered | queue-go/redis/untrack.go:25-34 | an idle movie once untracked stays out of both sets until somebody enters it, and one that is not idle is not untracked |
| MovieTracking.ActiveQueueMovies | queue-go/redis/query.go:18-39 | the list holds each movie of the two replies once and no other |
| MovieTracking.NoMovieForgotten | queue-go/redis/query.go:18-39 | a movie that is not idle at the first read, or has waiters at the second, is in the list whatever happens in between |
| Sweeps.PendingBeforeOld | queue-go/redis/pending.go:48-57 | the sweep reads the oldest entries in order, at most the limit, none above the cutoff, and all of those unless the limit stops it |
| Sweeps.SiftSorts | queue-go/processor/sweep.go:79-95 | from any journal the scripts can write nothing is discarded and each line goes to the topic of its kind with its user |
| Sweeps.SiftInOrder | queue-go/processor/sweep.go:79-95 | of any lines at all, each batch holds exactly those of its kind with the user each names, in the order of the journal |
| Publishing.Broker.PublishEvents | queue-go/kafka/kafka.go:131-177 | confirmed, the log grows by one message for each user in order and by nothing else; reported failed, by just those that landed, in order; success is reported only if all are in the log |
| Publishing.PublishMeans | queue-go/kafka/kafka.go:143-176 | the messages added are those of the users that arrived, each at its own place in the order, and of all of them when confirmed |
| QueueScripts.MovieQueue.Enter | queue-go/redis/enter.go:27-64 | the command sequence leaves the state and reply of the specification, and tracks the movie |
| QueueScripts.MovieQueue.Promote | queue-go/redis/promote.go:20-49 | the loop of removals and additions equals the specified promotion |
| QueueScripts.MovieQueue.Leave | queue-go/redis/leave.go:20-32 | seat, place and pending admits go, a revoke is written exactly for a seat holder, and the code says which |
| QueueScripts.MovieQueue.Release | queue-go/redis/leave.go:39-49 | the seat only; waiting is not touched |
| QueueScripts.MovieQueue.CompleteActive | queue-go/redis/leave.go:78-88 | the seat and pending admits go, without a revoke |
| QueueScripts.MovieQueue.ExpireActive | queue-go/redis/timeout.go:16-28 | the batched removal and the loop of revokes equal the specified expiry |
| QueueScripts.MovieQueue.ExpireWaiting | queue-go/redis/timeout.go:44-52 | stale waiters leave both sets |
| QueueScripts.MovieQueue.Position | queue-go/redis/position.go:29-47 | the three answers, the rank, and the liveness stamp only for a waiter |
| QueueScripts.MovieQueue.UntrackIfIdle | queue-go/redis/untrack.go:25-34 | the movie is dropped exactly when sessions, line and journal are empty |
| QueueScripts.MovieQueue.PendingBefore | queue-go/redis/pending.go:51-70 | returns an event with its pieces for each readable old line in order, and removes exactly the unreadable ones read |
| QueueScripts.MovieQueue.ClearPending | queue-go/redis/pending.go:73-82 | exactly the given lines leave the journal |
| QueueScripts.MovieQueue.PublishAndClear | queue-go/processor/sweep.go:102-115 | lines are cleared only when the whole batch was confirmed and the clearing worked |
| QueueScripts.MovieQueue.SweepMovie | queue-go/processor/sweep.go:69-99 | per line: a notice read leaves the journal if and only if its batch was confirmed and cleared, what was not read keeps its time, nothing else of the queue changes; every message is that of a line read on the topic of its kind, and a confirmed batch holds one for every notice read |
| SweepEffects.SweptLeaves | queue-go/processor/sweep.go:79-115 | which lines a sweep leaves, for every outcome of both batches and both clearings |
| SweepEffects.SweptSends | queue-go/processor/sweep.go:95-98 | which messages a sweep sends, for every outcome of both batches |
| QueueScripts.MovieQueue.ProcessMovie | queue-go/processor/queue.go:76-151 | the users who left the line are its head and got seats; with an answer and a confirmed publish the log grows by exactly one message for each in rank order, the rate gets their number and the feed their names; a line goes only if its user's message is in the log; a failed publish pauses all pods; a lost answer leaves all of it to the sweep |
| TickEffects.TickTells | queue-go/processor/queue.go:98-141 | seats, line, journal and log of a tick for every answer of the script, outcome of the publish and failure of the clearing |
| QueueScripts.MovieQueue.HandleEnter | queue-go/handler/admission.go:130-191 | bad ids change nothing; the movie is tracked; a new seat is shown in the feed and published once, its line goes only when confirmed; without an answer from the script the caller is told so |
| QueueScripts.SiftOfReadable | queue-go/processor/sweep.go:82-95 | sorting parsed events equals sorting the raw lines |
| OutboxConvergence.StepKeepsSysInv | queue-go/processor/sweep.go:63-98 | every script, sweep, landing, confirmation, clearing, loss, consumption, redelivery and tick keeps the per-user outbox invariant |
| OutboxConvergence.NoticesCoverEveryone | queue-go/redis/leave.go:20-49 | in every reachable state a seat holder is owed an admit or will be admitted; anyone else is owed a revoke or will not be |
| OutboxConvergence.DrainedAgrees | queue-go/handler/admission.go:163-189 | with the journal empty, the log settles on exactly the seat holders; with the log consumed, booking's keys are the seats |
| OutboxConvergence.GraceOrdersLog | queue-go/processor/sweep.go:63-98 | while a revoke of a user is with a publisher no admission of theirs can still land |
| OutboxGrace.OvertakenAdmission | queue-go/redis/pending.go:48-57 | with bound plus lag above grace, a run drains journal and log and leaves a user without a seat admitted |
| OutboxGrace.GraceIsExact | queue-go/main.go:102-103 | every drained run agrees if and only if bound plus lag is at most grace |
| OutboxRecovery.AlwaysRecovers | queue-go/processor/sweep.go:69-115 | from every reachable state a continuation moving no user empties journal and log with booking admitting exactly the seats |
| OutboxReentry.EnteringIsSafeExactly | queue-go/redis/enter.go:39-63 | after an entry every way on that drains journal and log leaves booking's keys the seats if and only if no revoke of the user was owed or with a publisher and no publisher could still clear the new seat's line |
| OutboxReentry.OwedRevokeWins | queue-go/redis/leave.go:20-32 | from every state in which a seat holder is owed a revoke, a way on drains journal and log and leaves them seated and not admitted |
| OutboxReentry.FlyingRevokeWins | queue-go/processor/sweep.go:102-107 | the same from every state in which a publisher holds a revoke of a seat holder |
| OutboxReentry.OldClearErases | queue-go/handler/admission.go:181-186 | the same from every state in which a publisher can clear the one line a seat is announced by and booking does not know of the seat yet |
| OutboxReentry.OwedIsReached | queue-go/redis/leave.go:20-32 | entering and leaving reaches a state in which the user may enter again and is owed a revoke |
| OutboxReentry.OldClearIsReached | queue-go/handler/admission.go:163-186 | such an entry is reached with an empty queue, journal and log |
| OutboxTopics.AnyOrderAgreesExactly | queue-go/kafka/kafka.go:88-96 | with the journal published, consuming the log in every order leaves booking's keys the seats if and only if no user has messages on both topics |
| OutboxTopics.BothIsReached | queue-go/kafka/kafka.go:91-96 | entering and leaving reaches a state in which the order between the topics decides |
| Admissions.RedeliveryIsHarmless | booking/src/main/java/com/cgv/booking/kafka/AdmissionConsumer.java:158-183 | a batch that failed part of the way and is delivered again leaves what one delivery would |
| Admissions.KeysFollowMessages | booking/src/main/java/com/cgv/booking/redis/AdmittedService.java:38-73 | consuming a message changes the gate as the outbox's consumption does, for its user and no other |
| Admissions.AdmittedService.OnAdmissions | booking/src/main/java/com/cgv/booking/kafka/AdmissionConsumer.java:158-183 | acknowledged exactly when connected or nothing is whole; then the key of every whole record lives one lifetime from now and every other key is as it was; otherwise so it is with the records up to the place the connection failed |
| Admissions.ConsumerMeans | booking/src/main/java/com/cgv/booking/kafka/AdmissionConsumer.java:158-183 | the keys after a batch, whole or cut short after any number of writes, in terms of the records alone |
| Admissions.AdmittedService.OnExpiry | booking/src/main/java/com/cgv/booking/kafka/AdmissionExpiryConsumer.java:44-62 | a whole event removes its user's key, anything else nothing |
| SeatRequests.NormalizeIsCanonical | booking/src/main/java/com/cgv/booking/service/SeatRequest.java:34-50 | accepted exactly when within the limit and without blanks, else refused for what is wrong; the result is the strictly sorted set of trimmed seats, independent of order and repetition |
| SeatRequests.TrimIs | booking/src/main/java/com/cgv/booking/service/SeatRequest.java:34-50 | trimming takes the characters up to U+0020 off both ends and nothing more |
| SeatRequests.NormalizeRequest | booking/src/main/java/com/cgv/booking/service/SeatRequest.java:34-50 | the loop filling the tree set computes that normal form |
| BookingTables.BookingStore.Persist | booking/src/main/java/com/cgv/booking/service/BookingPersistence.java:29-42 | the insert loop with rollback is all or nothing; without a fault it commits if and only if no constraint is met |
| BookingTables.InsertOrderIsCanonical | booking/src/main/java/com/cgv/booking/service/BookingPersistence.java:32-37 | requests for the same seats insert in one strictly ascending order |
| BookingInvariants.PersistKeepsInv | booking/src/main/java/com/cgv/booking/domain/BookingSeat.java:8-10 | a commit keeps unique keys and seats, rows that belong to a booking, and money equal to seats |
| BookingInvariants.NoDoubleSale | booking/src/main/java/com/cgv/booking/service/BookingService.java:116-126 | bookings of one screening hold disjoint seats, and its revenue is the unit price times its sold seats |
| Confirms.AdvanceKeepsCall | booking/src/main/java/com/cgv/booking/service/BookingService.java:64-175 | every step of confirm leaves the call's promised answer matching the booking under its key |
| Confirms.ReachableWorldInv | booking/src/main/java/com/cgv/booking/service/BookingService.java:64-175 | tables and answers stay consistent in every interleaving |
| Confirms.IdempotentConfirm | booking/src/main/java/com/cgv/booking/service/BookingService.java:81-87 | all successful answers to one key are the same answer: id, screening, seats and price |
| Confirms.RetryGetsTheAnswer | booking/src/main/java/com/cgv/booking/service/BookingService.java:81-87 | in every interleaving, once a call of a key has booked, every later look-up of the key that works gives that very answer to a request for the same screening and seats, and a conflict to any other |
| Confirms.LookUpAnswers | booking/src/main/java/com/cgv/booking/service/BookingService.java:127-137 | before the payment and after a violation alike, a booked key is answered with its booking if screening and seat rows match and with a conflict otherwise, changing nothing |
| Confirms.SalesAreSound | booking/src/main/java/com/cgv/booking/service/BookingService.java:116-137 | in every interleaving no seat is sold twice, no key books twice, and revenue equals sold seats |
| ConfirmSettlement.GoKeeps | booking/src/main/java/com/cgv/booking/service/BookingService.java:119-153 | each orderly step keeps money without a booking in the hands of an unfinished call, and nobody able to book behind a call that takes it back |
| ConfirmSettlement.RefusedMeans | booking/src/main/java/com/cgv/booking/service/BookingService.java:127-140 | a transaction without a fault commits if and only if id, key and seats are free |
| ConfirmSettlement.AloneIsOrderly | booking/src/main/java/com/cgv/booking/service/BookingService.java:124-152 | a call that never shared its key may meet any failing transaction and draw any booking id |
| ConfirmSettlement.SerialSettlement | booking/src/main/java/com/cgv/booking/service/BookingService.java:81-152 | with at most one call of a key under way at a time, a key with none under way is paid if and only if it is booked, at the booking's price |
| ConfirmSettlement.OverlapSettlement | booking/src/main/java/com/cgv/booking/service/BookingService.java:127-140 | the same for overlapping calls that ask for the same seats, when every transaction succeeds or meets a used key or a sold seat |
| ConfirmSettlement.Settlement | booking/src/main/java/com/cgv/booking/service/BookingService.java:81-152 | the same for all orderly runs, of which those two are kinds |
| ConfirmRefunds.GivingUpIsSafeExactly | booking/src/main/java/com/cgv/booking/service/BookingService.java:141-152 | after giving a transaction up every orderly continuation settles the key if and only if it was unbooked and no other call of it could still book |
| ConfirmRefunds.ClashIsSafeExactly | booking/src/main/java/com/cgv/booking/service/BookingService.java:124-140 | after drawing a booking id in use every orderly continuation settles the key if and only if it was booked or no other call of it could still book |
| ConfirmRefunds.RefundLast | booking/src/main/java/com/cgv/booking/service/BookingService.java:138-152 | from any call about to refund a key that is booked or that another call can book, the orderly way to a booked key nobody has paid |
| ConfirmStarts.StartIsSafeExactly | booking/src/main/java/com/cgv/booking/service/BookingService.java:81-87 | after starting one more call of any seats every orderly continuation settles the key if and only if the key was booked, or the call cannot book, or each unfinished call of the key asks for the same seats and takes nothing back or can only be turned away |
| ConfirmStarts.OneLosesASeat | booking/src/main/java/com/cgv/booking/service/BookingService.java:127-140 | two calls of an unbooked key that can both book, one wanting a seat the other does not, have an orderly way to a key that ends unsettled |
| ConfirmRuns.BookedButRefunded | booking/src/main/java/com/cgv/booking/service/BookingService.java:141-147 | a run of two overlapping calls, one given up, that ends booked and unpaid |
| ConfirmRuns.ClashedAndRefunded | booking/src/main/java/com/cgv/booking/service/BookingService.java:124-140 | the same with nothing failing but a booking id drawn twice |
| ConfirmRuns.PaidForNothing | booking/src/main/java/com/cgv/booking/service/BookingService.java:127-131 | a lone call whose look-up for a winner throws ends paid and unbooked |
| BookingServices.BookingService.Check | booking/src/main/java/com/cgv/booking/service/BookingService.java:81-114 | a call reaches payment only with a new key, an admission, existing unsold seats and its own live locks, renewed |
| BookingServices.BookingService.Settle | booking/src/main/java/com/cgv/booking/service/BookingService.java:116-152 | a new key ends paid and booked, or unbooked and paid exactly if the refund threw, or a constraint was met and the look-up for a winner threw |
| BookingServices.BookingService.PostCommit | booking/src/main/java/com/cgv/booking/service/BookingService.java:154-174 | no failure after the commit turns a success around, and each step happens unless it fails itself |
| BookingServices.BookingService.Confirm | booking/src/main/java/com/cgv/booking/service/BookingService.java:64-175 | a walk of the interleaved model's steps; a booked key changes nothing and is answered with its booking to the same request, else with a conflict; a call nothing throws in books if and only if admitted, seats existing, unsold and locked by it, and the transaction commits, and is told what was missing otherwise; a new booking is stored with user, price and seats, and a new key ends as Settle says |
| RowLocks.PlansAscend | booking/src/main/java/com/cgv/booking/service/BookingPersistence.java:30-41 | booking id and key first and seats sorted is an ascending plan, whatever order or repetition was asked for |
| RowLocks.NoWaitCycle | booking/src/main/java/com/cgv/booking/service/BookingPersistence.java:32-37 | in every reachable state no chain of waiting transactions returns to its start |
| RowLocks.EveryoneFinishes | booking/src/main/java/com/cgv/booking/service/BookingPersistence.java:29-42 | from every reachable state all unfinished transactions can end without an abort, within the rows and commits left |
| RowLocks.RequestOrderDeadlocks | booking/src/main/java/com/cgv/booking/service/BookingPersistence.java:32-34 | without the sorting, two transactions reach a state of waiting for each other |
| SeatLocks.LockIsAllOrNothing | booking/src/main/java/com/cgv/booking/redis/SeatLockService.java:37-41 | refused without a change exactly when some seat is held; otherwise all are the caller's for one lifetime from now and in the index, and no other key or index entry changes |
| SeatLocks.ReleaseTakesOnlyMine | booking/src/main/java/com/cgv/booking/redis/SeatLockService.java:46-51 | exactly the caller's live locks among the named seats go |
| SeatLocks.RenewExtendsMine | booking/src/main/java/com/cgv/booking/redis/SeatLockService.java:55-58 | succeeds exactly when all are the caller's and live, and then only moves their expiry; the index stays |
| SeatLocks.ApplyKeepsIndexed | booking/src/main/java/com/cgv/booking/redis/SeatLockService.java:37-88 | every operation keeps each live lock of the ids in use in its index, when locks use ids that do not extend one another; releases and renewals may name any id |
| SeatLocks.QueriesAreExact | booking/src/main/java/com/cgv/booking/redis/SeatLockService.java:62-88 | then after any operations and lapses a query returns exactly the live seats, leaves the index equal to them, and grouped cleaning changes no answer |
| SeatLocks.IndexIsExact | booking/src/main/java/com/cgv/booking/redis/SeatLockService.java:95-105 | queries are exact over every run if and only if no id in use is another one, a colon and more |
| SeatLocks.ExtendingIdHides | booking/src/main/java/com/cgv/booking/redis/SeatLockService.java:95-105 | one lock under an id that extends another is live under the other and missing from its index |
| SeatLocks.SeatLockService.LockSeats | booking/src/main/java/com/cgv/booking/redis/SeatLockService.java:37-41 | the script's three loops equal the specified lock |
| SeatLocks.SeatLockService.ReleaseSeats | booking/src/main/java/com/cgv/booking/redis/SeatLockService.java:46-51 | the script's loop equals the specified release |
| SeatLocks.SeatLockService.RenewSeats | booking/src/main/java/com/cgv/booking/redis/SeatLockService.java:55-58 | the script's loops equal the specified renewal |
| SeatLocks.SeatLockService.LockedSeatNos | booking/src/main/java/com/cgv/booking/redis/SeatLockService.java:62-71 | returns the indexed live seats and drops the lapsed ones from the index |
| SeatLocks.SeatLockService.CountLockedByScreening | booking/src/main/java/com/cgv/booking/redis/SeatLockService.java:75-88 | one count per screening asked for, equal to what a single query would return |
| TabClaims.StepKeepsClaim | frontend/js/sim.js:376-410 | with a gap shorter than the wait every step keeps at most one launch |
| TabClaims.StepKeepsHaste | frontend/js/sim.js:386-408 | in an opening of at most two waits every step keeps at most one launch, whatever the gap |
| TabClaims.TwoLaunches | frontend/js/core.js:169-176 | with a longer gap in a longer opening two tabs launch |
| TabClaims.OneTabFires | frontend/js/sim.js:382-391 | one rush per opening if and only if the gap is shorter than the wait or the opening is over within two waits |
| EventFeeds.EventStore.AppendEvents | queue-go/redis/events.go:37-69 | behind the old events one for each user, with kind, time and consecutive ids, of all of which the newest hundred are kept |
| EventFeeds.EventStore.ReadEvents | queue-go/redis/events.go:75-115 | exactly the events after the cursor, or the newest thirty, and the newest id |
| EventFeeds.PollEvents | frontend/js/live.js:117-139 | the client takes what the feed hands out and moves its cursor to the newest id |
| EventFeeds.PollHands | queue-go/redis/events.go:89-95 | a poll hands out all that is new if and only if at most a hundred events have arrived |
| EventFeeds.CursorMissesNothing | frontend/js/live.js:130-132 | a client that keeps up has received one gapless stretch of events in order, each once, up to its cursor |
| RateWindows.RateBuckets.ObservePromotion | queue-go/redis/rate.go:38-48 | adds to this second's bucket and renews its lifetime |
| RateWindows.RateBuckets.PromotionTotal | queue-go/redis/rate.go:55-74 | sums the ninety live buckets |
| RateWindows.BucketsHold | queue-go/redis/rate.go:25-48 | a bucket holds exactly its second's promotions and outlives every window that looks at it |
| RateWindows.WindowIsExact | queue-go/metrics/rate.go:62-69 | the sum is what was promoted in the last ninety seconds; the wait is unknown exactly when that is nothing, else the quotient, monotone in the position |
| Boards.Compute | booking/src/main/java/com/cgv/booking/service/ScreeningService.java:94-119 | each screening's remaining seats from grouped sold counts and grouped live locks |
| Boards.BoardNeverOverReports | booking/src/main/java/com/cgv/booking/service/SeatService.java:42-54 | the board shows at most the free seats of the seat map, and exactly as many if and only if no seat is both sold and locked or none is free |
| Boards.ViewsNeverOverReport | booking/src/main/java/com/cgv/booking/service/ScreeningService.java:109-117 | so it is with each line of the board for its screening's sold and locked seats |
| SeatServices.SeatService.Select | booking/src/main/java/com/cgv/booking/service/SeatService.java:57-69 | with nobody in between, all the seats are locked for an admitted user exactly if they exist, are unsold and held by nobody; else nothing changes |
| SeatServices.SeatService.Release | booking/src/main/java/com/cgv/booking/service/SeatService.java:74-76 | only the caller's own locks go, under any screening id |
| SeatServices.LateLockOverlapsExactly | booking/src/main/java/com/cgv/booking/service/SeatService.java:66-68 | a select's lock keeps sold and locked apart if and only if none of its seats is sold by then |
| SeatServices.SoldWhileSelecting | booking/src/main/java/com/cgv/booking/service/ScreeningService.java:112-114 | a seat checked, then sold and released by its holder, then locked, is sold and locked |

## Left out

- Sorted-set scores are integers; Redis keeps them as doubles, which is exact for the millisecond times used.
- Integer widths: counters, prices and times are unbounded; a price beyond a 32-bit int is not modelled.
- Strings compare by code point, which is Redis's byte order on UTF-8; Java compares UTF-16 units, which differs on supplementary characters. Database collations that equate different spellings are not modelled.
- OutboxConvergence.DrainedAgrees: excludes the completion message from booking to queue and the lifetime of admission keys; a duplicate admission consumed after the purchase is repaired only by that lifetime.
- OutboxConvergence.GraceOrdersLog: says that no late admission can land, under the hypothesis that one user's messages are consumed in append order across both topics.
- ConfirmSettlement.Settlement: a process that dies between payment and commit is excluded, as the booking service's own notes say; so are, over interleaved runs, a refund that fails and a winner look-up that throws, for which `BookingService.Confirm` gives the exact outcome of a lone call.
- RowLocks.NoWaitCycle: row locks are exclusive; the shared locks InnoDB takes on a duplicate after a rollback are not modelled.
- EventFeeds.CursorMissesNothing: appends are atomic and the feed is neither reset nor idle for a day, so ids never go back.
- RateWindows.WindowIsExact: rates are exact rationals and the caller's clock agrees with Redis; the two-second cache in front of the rate is not modelled.
- The pause flag is set and can be asked for; the loop over movies that asks for it is not modelled.
- Reset: the queue reset and the administrator's lock cleanup are not atomic and break the interleaving invariants by design.
- The consumer loop for completed bookings: each message is one CompleteActive step, redelivered until committed; fetching and committing are not modelled.
- SeatService.seatMap: the seat map is a function of the seats, sold and locked; its gate and the order of its rows are not modelled.
- The gate's clock states in the browser, the bot loop and all rendering, beyond the claim and the cursor.
- HTTP, JSON, the Redis, Kafka and database clients, tracing, metrics, logging, seeding, configuration and caching of the board.
