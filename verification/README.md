# Delivery service: verified model

A Dafny model of the stateful cores of the delivery service, with proofs of what every run of
them keeps, including runs in which clients interleave, transactions crash and are rolled back,
messages are delivered again, and readers are slow.

Each component is one or two modules with the same three layers:

- **specification functions on values** say what one call does (`RateLimiter.Check`,
  `RefreshSessions.Rotate`, `OrderStore.Execute`, `TrackingHub.Publish`, …);
- **classes and methods** have the shape of the program (fields updated in place, loops over
  deques, rows, sessions and subscriber sets) and are proved to do exactly what the
  specification function says;
- **runs** are traces of steps (`Traces.Trace`), and the lemmas speak about every trace. What a
  run means is read off the trace by definitions that do not look at the component's own state
  (the full log of accepted calls, the list of what was published while subscribed, the number of
  hand-overs and rolled-back transactions, the write log of the store), so the lemmas connect two
  independent descriptions.

| file | component |
|---|---|
| `Traces`, `Basics`, `Text`, `Ordering` | runs; options and identifiers; the text forms of identifiers and moments; the one sort used by listing, claiming and the relay |
| `Domain`, `OrderStore` | the order aggregate, its events and payloads; the in-memory store and the order service |
| `OrderRuns`, `IdempotentCreate`, `Couriers`, `Listing` | whole runs of many clients whose commands are split into a read and a compare-and-save; create retries; couriers; paged listings |
| `OutboxRelay`, `Notifications` | the relay and the idempotent consumer, with crashes between any two steps |
| `RefreshSessions` | refresh-token families |
| `RateLimiter` | the sliding-window limiter against a full log |
| `CircuitBreaker` | the breaker with permits finishing late |
| `Tracking`, `TrackingHub`, `CatchUp` | position records, drop-oldest queues, the event stream, and clients catching up |
| `Transactions` | the SQLSTATE search and the serializable retry loop |
| `CacheAside` | the TTL cache and the cache-aside query |

`dafny verify dfyconfig.toml` checks everything.

## What holds, and what does not

Six properties one might expect are false of the code. Each has a lemma with a concrete failing
run, and a lemma that says, for every run, exactly when the property does hold.

- A drained client may still be behind. Loading the snapshot before subscribing, as the
  event-stream route does, can leave a gap (`CatchUp.LoadThenSubscribeCanLeaveAGap`; the stream's
  own comment promises there is none, but its snapshot was read earlier), and so can publishing
  out of order (`CatchUp.LatePublishingCanHideTheLatest`). Whatever the order of publication,
  `CatchUp.DrainedIsCaughtUpIffKept` says exactly when a client is caught up: its snapshot covered
  the newest update, or that update was published to its queue and never pushed out of it. For a
  client that subscribes first only the pushing out remains
  (`CatchUp.SubscribedFirstIsCaughtUpIffNotPushedOut`), and in-order publication rules that out
  (`CatchUp.SubscribeThenLoadLeavesNoGap`).
- A client event sent again is recorded again unless it is the order's latest:
  `Tracking.ResentIsAbsorbedIffLatest`, `Tracking.OlderEventIsRecordedAgain`.
- A courier may get two active orders, because `assign` does not look at whether the courier is
  busy: `Couriers.AssignCanGiveASecondOrder`. A run is exclusive throughout if and only if every
  assignment was saved while its courier was free (`Couriers.RunIsExclusiveIff`); one that attaches
  couriers by claims always is (`Couriers.ClaimsAreExclusive`).
- An invalidation may be undone by a load in flight:
  `CacheAside.LoadInFlightCanOutliveInvalidation`. It takes effect if and only if every load of the
  zone then in flight already holds the current value: `CacheAside.InvalidationTakesEffectIff`.
- Hand-overs and provider requests are not unique: crashes repeat them
  (`OutboxRelay.CrashRepeatsTheHandOver`, `Notifications.CrashRepeatsTheRequest`). They are counted
  exactly, one plus the crashes after the fact, so they are unique if and only if there was none
  (`OutboxRelay.PublishedRowsWereHandedOver`, `Notifications.SentOncePlusCrashes`).
- A limiter with a limit below 1 does not deny: every well-formed check fails on an empty deque
  (`RateLimiter.WithoutSlotsEveryCheckFails`). With a limit of at least 1 every check is decided
  (`RateLimiter.PrunedQueuesDecideAsFullLog`).

## Model

| member | source | states |
|---|---|---|
| `Domain.MovesHaveEvents` | src/delivery_service/events.py:65-90 | every accepted transition or assignment has a status event: the event constructor cannot refuse after the order was changed |
| `Domain.FiveEdges` | src/delivery_service/domain.py:19-38 | the transition table allows five edges and no other |
| `Domain.CaseFoldIff` | src/delivery_service/domain.py:95 | two addresses fold alike iff they agree letter by letter up to basic Latin case |
| `Domain.WireRoundTrip` | src/delivery_service/events.py:34-106 | a consumer that parses the published texts gets back the payload, for both kinds of event |
| `Domain.ChangedMessageInjective` | src/delivery_service/events.py:92-106 | equal published texts come from equal status changes |
| `Domain.SnapshotRoundTrip` | src/delivery_service/repository.py:154-186 | a stored response snapshot decodes back to the same order, through the text forms of identifiers, status and moment |
| `Text.UuidRoundTrip` | src/delivery_service/repository.py:154-186 | the text of an identifier parses back to it |
| `Text.IsoRoundTrip` | src/delivery_service/repository.py:154-186 | the ISO text of a moment parses back to it, with and without a fraction |
| `Text.RankIsChronological` | src/delivery_service/repository.py:51-55 | the integer rank by which moments are sorted is chronological order, field by field |
| `Ordering.Sort` | src/delivery_service/repository.py:51-55 | the result lists exactly the given keys, each once, strictly increasing |
| `Ordering.SortingIsUnique` | src/delivery_service/repository.py:51-55 | there is only one such listing, so it does not depend on insertion order |
| `OrderStore.ScopeTextInjective` | src/delivery_service/repository.py:109-123 | the colon-joined idempotency scope determines tenant, customer and key, also when keys contain colons |
| `OrderStore.InMemoryOrderRepository.Get` | src/delivery_service/repository.py:29-30 | finds the stored order or nothing |
| `OrderStore.InMemoryOrderRepository.SaveOrder` | src/delivery_service/repository.py:58-64 | accepted iff the stored version is the expected one and the new version its successor; then only that order changes, else nothing |
| `OrderStore.InMemoryOrderRepository.SaveOrderTransition` | src/delivery_service/repository.py:66-77 | the same with the event matching the order; order, one history entry and one message change together, field by field, or not at all |
| `OrderStore.InMemoryOrderRepository.FindNext` | src/delivery_service/repository.py:89-97 | picks the least waiting order of the tenant by age and identifier, or nothing when none waits |
| `OrderStore.InMemoryOrderRepository.HasActiveOrder` | src/delivery_service/repository.py:83-88 | whether the courier holds an assigned or picked-up order of the tenant |
| `OrderStore.InMemoryOrderRepository.ClaimNext` | src/delivery_service/repository.py:79-107 | refused iff the courier holds an assigned or picked-up order of the tenant, empty iff no created order waits, else the oldest becomes assigned to the courier with its history entry and message; nothing can fail halfway |
| `OrderStore.OrderService.CreateOrder` | src/delivery_service/service.py:29-62 | replay, conflict, bad weight or creation, with the fields of the new order, its created message and the remembered reply taken from the request |
| `OrderStore.OrderService.UpdateOrder` | src/delivery_service/service.py:111-119 | accepted iff the order exists at the expected version and the resulting addresses differ and weight is in bounds; then each detail is the one given or else the one stored, and nothing else changes |
| `OrderStore.OrderService.TransitionOrder` | src/delivery_service/service.py:121-141 | accepted iff the order exists at the expected version and the edge is one of the five; then status and version change, with one history entry and one message |
| `OrderStore.OrderService.AssignOrder` | src/delivery_service/service.py:82-96 | accepted iff the order exists and is created; then it is assigned to the courier, who is recorded as the actor |
| `OrderRuns.RunKeepsInvariant` | src/delivery_service/service.py:111-141 | with any number of clients interleaving reads and saves, store, history and outbox are what the write log says, and every prepared change was read from a value that was once stored |
| `OrderRuns.SaveReplacesWhatWasRead` | src/delivery_service/repository.py:58-77 | a save that goes through finds exactly the order value its client read, not merely its version number |
| `OrderRuns.NoLostUpdate` | src/delivery_service/service.py:111-141 | the same for every run: a successful save replaces what was read and touches no other order, a refused one changes nothing |
| `OrderRuns.EachVersionWrittenOnce` | src/delivery_service/repository.py:58-77 | every version from 1 to the stored one was written exactly once and none beyond: no gap, no ABA |
| `OrderRuns.HistoryReplaysToState` | src/delivery_service/domain.py:80-98 | an order's history is a path of allowed edges from created to its status, versions rise strictly, at most three entries, and the version is one plus accepted moves plus accepted edits |
| `OrderRuns.DetailsAreTheLatestGiven` | src/delivery_service/domain.py:55-98 | in every run an order's addresses and weight are those of its request, each replaced by the latest accepted update that gave one, and its weight is in bounds |
| `OrderRuns.OutboxMirrorsStore` | src/delivery_service/repository.py:66-107 | the status messages are the history's in order, one created message per order, and the outbox is as long as orders and history together |
| `OrderRuns.CommandIsARun` | src/delivery_service/service.py:82-141 | a whole update, transition or assignment is the machine's reading step followed by its saving step: refused it leaves store and log alone, accepted it logs one write |
| `OrderRuns.ClaimIsARun` | src/delivery_service/repository.py:79-107 | whatever the repository's claim answers and leaves is the one claiming step possible in that state |
| `OrderRuns.UndisturbedCommandSucceeds` | src/delivery_service/service.py:111-141 | with nobody in between, a command that passes its own checks cannot be refused by the save |
| `IdempotentCreate.OneOrderPerScope` | src/delivery_service/service.py:36-62 | in every run at most one order is ever created per scope, and the remembered reply is that order as first created |
| `IdempotentCreate.MemoryIsStable` | src/delivery_service/repository.py:120-123 | a remembered reply is never overwritten or lost |
| `IdempotentCreate.RetriesGetTheFirstReply` | src/delivery_service/service.py:36-62 | every retry gets the first reply whatever happened to the order since, a different request is refused, and neither has an effect |
| `IdempotentCreate.SameScopeIff` | src/delivery_service/repository.py:109-118 | two keyed requests share a scope iff tenant, customer and key all agree |
| `IdempotentCreate.UnkeyedNeverReplays` | src/delivery_service/service.py:36-50 | without a key, or with an empty one, every valid create makes a new order |
| `Couriers.CourierMeansStarted` | src/delivery_service/domain.py:80-87 | an order with a courier is no longer created |
| `Couriers.AssignmentIsWrittenOnce` | src/delivery_service/domain.py:80-98 | in every run a courier, once set, never changes |
| `Couriers.ClaimTakesTheOldest` | src/delivery_service/repository.py:89-98 | a claim takes the chronologically first created order of the tenant; identifiers break ties |
| `Couriers.ClaimsAreExclusive` | src/delivery_service/repository.py:83-107 | in every run that attaches couriers by claims, no courier of a tenant has two active orders |
| `Couriers.AssignIsExclusiveIffFree` | src/delivery_service/service.py:82-96 | assigning a waiting order always succeeds, and exclusivity survives iff the courier held no active order of the tenant |
| `Couriers.StepIsExclusiveIff` | src/delivery_service/service.py:82-96 | from an exclusive state any step of any client keeps exclusivity, unless it saves an assignment to a courier busy at that moment, which breaks it |
| `Couriers.RunIsExclusiveIff` | src/delivery_service/service.py:82-96 | a run mixing claims and assignments is exclusive at every moment iff every assignment was saved while its courier was free |
| `Couriers.AssignCanGiveASecondOrder` | src/delivery_service/service.py:82-96 | a concrete run in which a courier who claimed one order is assigned a second |
| `Listing.ListVisible` | src/delivery_service/repository.py:35-56 | a page is the Python slice of the sorted listing of everything that matches, negative bounds included; refused iff the sort field is unknown |
| `Listing.ListingAgreesWithPolicy` | src/delivery_service/access.py:37-58 | the listing's filter and the pointwise access policy agree on every order and actor |
| `Listing.AccessIff` | src/delivery_service/access.py:37-58 | access needs the same tenant, and then dispatchers see all, customers and couriers their own |
| `Listing.PagesCoverPrefix` | src/delivery_service/repository.py:56 | the first pages put together are the listing up to the next offset |
| `Listing.PagesShowExactlyTheAllowed` | src/delivery_service/repository.py:39-56 | the orders returned at offsets 0, limit, 2 * limit, … until an empty page are exactly those of the actor's tenant and role that match the filter, each once, ordered by status text or by age and then by identifier |
| `Listing.StatusRankIsTextOrder` | src/delivery_service/repository.py:51-55 | the rank used for sorting by status is the text order of the status values |
| `OutboxRelay.SelectBatch` | src/delivery_service/outbox.py:65-71 | the batch holds only unlocked rows without either publication mark, at most the batch size, and all of them if it is not full |
| `OutboxRelay.BatchIsOldestFirst` | src/delivery_service/outbox.py:26-33 | in table columns: neither mark set, unlocked, oldest first, nothing older left behind, and nothing left behind unless the batch is full |
| `OutboxRelay.OutboxTable.PublishPending` | src/delivery_service/outbox.py:42-79 | one relay call: exactly the confirmed rows of the batch get both marks and no other row changes, the broker gets their id, type and payload in order; also when it fails midway |
| `OutboxRelay.OutboxTable.HandOverAll` | src/delivery_service/outbox.py:73-79 | each row is handed over before it is marked; on failure exactly the first confirmed rows are marked |
| `OutboxRelay.NoRowHeldTwice` | src/delivery_service/outbox.py:60-79 | in every interleaving no row is held by two open relays, and a held row is still pending |
| `OutboxRelay.CrashFreesRows` | src/delivery_service/outbox.py:60-79 | an unpublished row held by no open relay can be locked again |
| `OutboxRelay.RunKeepsAccount` | src/delivery_service/outbox.py:60-79 | every hand-over of a row is accounted for by its publication, an open relay or a rolled-back one |
| `OutboxRelay.PublishedRowsWereHandedOver` | src/delivery_service/outbox.py:26-79 | a row with either mark set was handed over once, plus once per relay rolled back after handing it over |
| `OutboxRelay.UnpublishedRowsWaitForRetry` | src/delivery_service/outbox.py:60-79 | an unpublished row was handed over only by crashed relays or by the open one |
| `OutboxRelay.CrashRepeatsTheHandOver` | src/delivery_service/outbox.py:74-79 | a concrete run in which a crash before the commit makes the next relay hand the row over again |
| `OutboxRelay.RelayCallIsARun` | src/delivery_service/outbox.py:42-79 | a whole relay call is such a run: committed, it leaves the table as the loop marked it; rolled back after any number of rows, as it was |
| `Notifications.Provider.Send` | src/delivery_service/notifications.py:36-56 | every attempt is logged, only the first of a key creates a receipt, later ones get the same |
| `Notifications.Session.DispatchOnce` | src/delivery_service/notifications.py:59-120 | every outcome with what it leaves: applied iff the payload is readable and the event new; the row is skipped iff that tenant, customer and channel opted out, else sent with the receipt and the attempt logged |
| `Notifications.OneRowPerClaim` | src/delivery_service/notifications.py:82-120 | over any redeliveries and crashes an event has at most one notification row, and has it iff its order-created claim is committed |
| `Notifications.SentRowsCarryTheReceipt` | src/delivery_service/notifications.py:99-120 | every committed row is skipped, or sent with the provider's receipt for its event |
| `Notifications.ReceiptsAreStable` | src/delivery_service/notifications.py:39-56 | an event's receipt never changes over a run |
| `Notifications.SendsAreAccountedFor` | src/delivery_service/notifications.py:82-120 | every request to the provider belongs to a committed sent row, an open transaction or a rolled-back one |
| `Notifications.SentOncePlusCrashes` | src/delivery_service/notifications.py:82-120 | a sent notification was requested once plus once per crash after acceptance |
| `Notifications.CrashRepeatsTheRequest` | src/delivery_service/notifications.py:111-120 | a concrete run in which a crash after acceptance makes the next worker ask the provider again |
| `Notifications.DispatchIsARun` | src/delivery_service/notifications.py:59-120 | the undisturbed steps of the machine commit what the dispatcher leaves |
| `RefreshSessions.Repository.RegisterSession` | src/delivery_service/refresh_sessions.py:51-55 | registers a new identifier and refuses a known one |
| `RefreshSessions.Repository.RotateSession` | src/delivery_service/refresh_sessions.py:57-92 | rotated iff the stored session matches, is unused, unrevoked and unexpired and the replacement fits; reused iff it matches and is spent; with the whole new table |
| `RefreshSessions.Repository.RevokeAll` | src/delivery_service/refresh_sessions.py:75-78 | the loop revokes the not yet revoked sessions of the family and no other |
| `RefreshSessions.RunKeepsInvariant` | src/delivery_service/refresh_sessions.py:51-92 | in every run of logins and refreshes the pointers of each family form one simple path covering it |
| `RefreshSessions.FamilyIsOneChain` | src/delivery_service/refresh_sessions.py:57-92 | one path and one subject per family, and at most one live session, the tip |
| `RefreshSessions.FamilySizeCountsRotations` | src/delivery_service/refresh_sessions.py:57-92 | a family has one session plus one per successful rotation |
| `RefreshSessions.RotatesAtMostOnce` | src/delivery_service/refresh_sessions.py:74-92 | no identifier is rotated twice in any run |
| `RefreshSessions.DeadFamilyNeverRotates` | src/delivery_service/refresh_sessions.py:57-92 | a family without a usable session never rotates again, whatever is presented |
| `RefreshSessions.ReuseAndExpiryKill` | src/delivery_service/refresh_sessions.py:74-81 | presenting a spent or an expired token leaves its family without a live session |
| `RefreshSessions.RefusalOnlyRevokes` | src/delivery_service/refresh_sessions.py:57-92 | a refused rotation adds and removes no session and changes nothing but revocation |
| `RefreshSessions.RefreshIsGrantedIff` | src/delivery_service/refresh_sessions.py:57-92 | the exact condition of each answer and the table it leaves, field by field |
| `RefreshSessions.LiveSessionRotates` | src/delivery_service/refresh_sessions.py:74-92 | in every run a live session presented before its expiry with a fitting replacement rotates, and the replacement becomes the family's one live session |
| `RefreshSessions.StepEndsFamilyIff` | src/delivery_service/refresh_sessions.py:57-92 | one command ends a live family iff it presents a spent or expired session of it |
| `RefreshSessions.FamilyLivesUntilKilled` | src/delivery_service/refresh_sessions.py:51-92 | over a run a family has a live session iff no such command has happened |
| `RateLimiter.WellFormedIff` | src/delivery_service/policy.py:89-90 | keys are refused iff there is none or one occurs twice |
| `RateLimiter.SlidingWindowRateLimiter.CheckMany` | src/delivery_service/policy.py:85-109 | for every limit: refused iff there is no key or one occurs twice, otherwise the three passes over the deques do what the specification says |
| `RateLimiter.SlidingWindowRateLimiter.PruneAll` | src/delivery_service/policy.py:94-97 | the pruning loops drop exactly the leading moments that left the window |
| `RateLimiter.SlidingWindowRateLimiter.FindBlocked` | src/delivery_service/policy.py:99-105 | blocked iff some deque is full, with the longest wait; failing iff a full one is empty |
| `RateLimiter.SlidingWindowRateLimiter.AppendAll` | src/delivery_service/policy.py:107-109 | every deque of the call gets the new moment once, the others stay |
| `RateLimiter.CheckDecidesAsFullLog` | src/delivery_service/policy.py:89-109 | one check on pruned deques decides as counting in the full log does |
| `RateLimiter.RunKeepsInvariant` | src/delivery_service/policy.py:85-109 | over every run the deques are sorted tails of the full log, never longer than the limit, and what was dropped is out of the window |
| `RateLimiter.PrunedQueuesDecideAsFullLog` | src/delivery_service/policy.py:89-109 | in every run a check is refused iff it has no key or one twice, and else denied iff some key has used up its limit in the window, counted over all accepted checks |
| `RateLimiter.NoWindowExceedsLimit` | src/delivery_service/policy.py:89-109 | no window, wherever it is placed, holds more accepted checks of a key than the limit |
| `RateLimiter.DeniedConsumesNothing` | src/delivery_service/policy.py:99-109 | an accepted check takes one slot of each key, any other takes none |
| `RateLimiter.RetryAfterIsMaximum` | src/delivery_service/policy.py:99-105 | the advertised wait is at least one second and the greatest wait over the full deques |
| `RateLimiter.RetryAfterIsBounded` | src/delivery_service/policy.py:99-105 | it lies between one second and the window rounded up |
| `RateLimiter.RetryAfterIsExact` | src/delivery_service/policy.py:95-109 | if no check on those keys is accepted meanwhile, retrying that many seconds later is accepted and one second earlier is still refused |
| `RateLimiter.WithoutSlotsEveryCheckFails` | src/delivery_service/policy.py:99-105 | with a limit below 1 every well-formed check of every run fails on an empty deque instead of being denied |
| `CircuitBreaker.Circuit.Create` | src/delivery_service/retry_policy.py:90-108 | refused exactly for settings that do not validate, and starts closed |
| `CircuitBreaker.Circuit.AcquirePermit` | src/delivery_service/retry_policy.py:114-129 | answer and new state for every branch |
| `CircuitBreaker.Circuit.RecordSuccess` | src/delivery_service/retry_policy.py:131-137 | closes and resets; only a probe clears the probe flag |
| `CircuitBreaker.Circuit.RecordFailure` | src/delivery_service/retry_policy.py:139-149 | a failed probe reopens; an ordinary failure counts and opens at the threshold |
| `CircuitBreaker.Circuit.AbandonPermit` | src/delivery_service/retry_policy.py:151-157 | an abandoned probe reopens; an ordinary permit changes nothing |
| `CircuitBreaker.EveryRunIsConsistent` | src/delivery_service/retry_policy.py:114-161 | in every run, permits finishing late included, the probe flag means exactly one probe is out, half-open implies it, and the counter is the ordinary failures since the last success, below the threshold while closed |
| `CircuitBreaker.AcquireNeverStuck` | src/delivery_service/retry_policy.py:114-129 | the internal assertion never fails, and a probe is granted only when none is out |
| `CircuitBreaker.ProbesAreSpaced` | src/delivery_service/retry_policy.py:114-161 | with no success between them two probes are at least the recovery timeout apart |
| `CircuitBreaker.OpenCircuitRefuses` | src/delivery_service/retry_policy.py:114-129 | a circuit that is not closed grants a permit iff its timeout has passed and no probe is out |
| `CircuitBreaker.ClosedCircuitGrants` | src/delivery_service/retry_policy.py:114-119 | a closed circuit grants every caller an ordinary permit |
| `CircuitBreaker.OpensAtTheThreshold` | src/delivery_service/retry_policy.py:139-149 | an ordinary failure opens a closed circuit iff it is the threshold-th since the last success |
| `CircuitBreaker.EndOfAPermitDecides` | src/delivery_service/retry_policy.py:131-157 | a success closes, a probe that fails or is abandoned reopens, an ordinary permit abandoned changes nothing |
| `Tracking.PayloadRoundTrip` | src/delivery_service/tracking.py:22-42 | an event taken off the bus is the event put on it |
| `Tracking.SnapshotRepository.Get` | src/delivery_service/tracking.py:86-87 | finds the stored snapshot or nothing |
| `Tracking.SnapshotRepository.RecordReport` | src/delivery_service/tracking.py:89-118 | the answer and the three collections for every branch |
| `Tracking.RecordsAreNumbered` | src/delivery_service/tracking.py:89-118 | in every run an order's records are numbered 1, 2, 3, … and the snapshot is the last of them |
| `Tracking.RecordsCarryTheirReports` | src/delivery_service/tracking.py:101-112 | each record carries the tenant, status, position, time and event of its own report |
| `Tracking.OutboxAnnouncesRecords` | src/delivery_service/tracking.py:113-117 | an order's outbox entries announce exactly its records, in order |
| `Tracking.EventBelongsToOneOrder` | src/delivery_service/tracking.py:95-97 | no client event is ever recorded for two orders |
| `Tracking.ConflictIffRecordedElsewhere` | src/delivery_service/tracking.py:95-97 | a report is refused, without a trace, exactly when its event was recorded for another order |
| `Tracking.ResentIsAbsorbedIffLatest` | src/delivery_service/tracking.py:98-100 | an event sent again is answered from the store and changes nothing iff it is the order's latest, and is otherwise recorded a second time |
| `Tracking.OlderEventIsRecordedAgain` | src/delivery_service/tracking.py:98-112 | a concrete run that records one event twice |
| `Tracking.OrderEventStream` | src/delivery_service/tracking.py:246-265 | the snapshot, then, when following, exactly the running maxima above the reader's position, whatever order updates arrive in |
| `Tracking.RecordIffAboveHighest` | src/delivery_service/tracking.py:256-260 | comparing with the single floor finds the running maxima |
| `Tracking.MaximaRise` | src/delivery_service/tracking.py:251-263 | what is emitted rises strictly, starts above the floor and ends with the highest update |
| `TrackingHub.LiveHub.Join` | src/delivery_service/tracking.py:217-220 | hands out a new empty queue subscribed to the order |
| `TrackingHub.LiveHub.Leave` | src/delivery_service/tracking.py:222-228 | removes the queue from that order and forgets an order nobody follows |
| `TrackingHub.LiveHub.SubscriberCount` | src/delivery_service/tracking.py:230-231 | the number of subscribed queues |
| `TrackingHub.LiveHub.Broadcast` | src/delivery_service/tracking.py:233-238 | visiting the subscribers in any order pushes to each once, dropping the oldest of the full ones and counting them |
| `TrackingHub.PublishedFields` | src/delivery_service/tracking.py:233-238 | every subscriber gets the update at the end of its queue, exactly the queues that were full lose their head, and these are counted |
| `TrackingHub.ListenersAreSubscribers` | src/delivery_service/tracking.py:217-228 | the subscriber sets hold exactly the queues that joined and have not left |
| `TrackingHub.QueuesAreSuffixes` | src/delivery_service/tracking.py:217-238 | each queue is the tail of what was published to it while subscribed, never longer than the bound |
| `TrackingHub.DroppedIsPublishedMinusTakenMinusQueued` | src/delivery_service/tracking.py:233-238 | the drop counter is, summed over all queues, published minus taken minus queued |
| `TrackingHub.SentIsReceivedPushedOutOrWaiting` | src/delivery_service/tracking.py:233-238 | update by update, as often as it was sent to a queue it was received, pushed out, or still waits there |
| `TrackingHub.LosslessIffWholeStream` | src/delivery_service/tracking.py:233-238 | a queue has lost nothing iff what was received and what waits is everything published to it, in order |
| `CatchUp.HubIsARun` | src/delivery_service/main.py:1036-1068 | inside the run of records, publications and clients the hub performs a run of its own machine, so its laws apply |
| `CatchUp.RunKeepsNumbers` | src/delivery_service/main.py:1116-1128 | whatever order updates are published in, an order's updates have distinct sequences, none above the snapshot's |
| `CatchUp.SentSinceSubscribing` | src/delivery_service/main.py:1160-1167 | a connected client's queue was sent exactly the updates published since it subscribed, each once |
| `CatchUp.DrainedIsCaughtUpIffKept` | src/delivery_service/main.py:1160-1167 | for any order of publication a drained client is caught up iff the newest update was covered by its snapshot, or was published to its queue and never pushed out |
| `CatchUp.SubscribedFirstIsCaughtUpIffNotPushedOut` | src/delivery_service/main.py:1160-1167 | for a client that subscribes first, as the websocket handler does, being pushed out is the only way to miss the newest update |
| `CatchUp.DrainedIsCaughtUpIff` | src/delivery_service/main.py:1160-1167 | with in-order publication a drained client is caught up iff its snapshot covered everything published before it subscribed or something was published since |
| `CatchUp.SnapshotCoversThePast` | src/delivery_service/main.py:1160-1167 | a snapshot loaded after subscribing covers everything published before |
| `CatchUp.SubscribeThenLoadLeavesNoGap` | src/delivery_service/main.py:1160-1167 | the websocket handler's client, once drained, has been shown a position at least as new as every published one, whatever was dropped |
| `CatchUp.LoadThenSubscribeCanLeaveAGap` | src/delivery_service/main.py:1011-1023 | a concrete run in which loading before subscribing leaves the client behind |
| `CatchUp.LatePublishingCanHideTheLatest` | src/delivery_service/main.py:1127-1128 | a concrete run in which publishing out of order leaves a drained client behind |
| `Transactions.PostgresSqlstate` | src/delivery_service/transactions.py:19-38 | on any, possibly cyclic, exception graph the worklist ends; nothing is returned iff nothing reachable carries a code; a returned code is some reachable exception's |
| `Transactions.ClosedSetHoldsReachable` | src/delivery_service/transactions.py:19-38 | a set closed under the three links holds everything reachable |
| `Transactions.RunSerializable` | src/delivery_service/transactions.py:41-75 | stops at the first attempt that is not SQLSTATE 40001 or 40P01 or at the last one allowed; the sleeps between attempts start at the base delay and double, plus jitter |
| `CacheAside.InMemoryTTLCache.Get` | src/delivery_service/cache.py:42-49 | serves an entry strictly before its expiry and evicts it otherwise |
| `CacheAside.InMemoryTTLCache.Set` | src/delivery_service/cache.py:51-54 | refused unless the ttl is positive; then found until now plus ttl and not at or after it |
| `CacheAside.InMemoryTTLCache.Delete` | src/delivery_service/cache.py:56-57 | removes the key and nothing else |
| `CacheAside.Query` | src/delivery_service/cache.py:137-164 | a valid hit is served, anything else falls through to the loader; the cache it leaves is stated in full for every combination of failures |
| `CacheAside.QueryIsARun` | src/delivery_service/cache.py:137-164 | the undisturbed steps of the machine leave the cache and reply as the query does |
| `CacheAside.ZoneKeyInjective` | src/delivery_service/cache.py:133-135 | two zones never share a cache key |
| `CacheAside.RunIsHonest` | src/delivery_service/cache.py:137-178 | everything cached or in flight was the source's value when it was loaded |
| `CacheAside.StalenessIsBounded` | src/delivery_service/cache.py:137-178 | whatever is returned at time t was the source's value at some moment in (t - ttl - d, t], d bounding load to return or write |
| `CacheAside.InvalidationTakesEffectIff` | src/delivery_service/cache.py:166-178 | after an invalidation that reached the cache, all later queries return the current value until the source changes again, iff every load of the zone then in flight already held it |
| `CacheAside.InvalidationTakesEffect` | src/delivery_service/cache.py:166-178 | the sufficient half, query by query |
| `CacheAside.LoadInFlightCanOutliveInvalidation` | src/delivery_service/cache.py:137-172 | a concrete run in which a load in flight stores the old value after the invalidation |

## Left out

Assumptions the model makes:

- Fresh identifiers: `uuid4` never repeats; a created order, a login's family (src/delivery_service/security.py:131) and an event get identifiers not seen before.
- The SHA-256 request fingerprint is the canonical request itself, so two requests have the same fingerprint iff they are equal.
- The limiter's clock does not run backwards, and seconds are exact multiples of whole microseconds instead of floating point.
- Each breaker permit is finished at most once; asyncio locks make a guarded body one step; `create` and `claim` are one step each.
- A rotation's replacement session arrives unused and unrevoked.
- Catch-up assumes one process: the hub receives what the handler publishes, without the Redis channel in between.

Not modelled:

- Domain.WireRoundTrip: the store's outbox holds payloads before they are rendered as texts; this lemma shows that rendering loses nothing.
- Domain.SnapshotRoundTrip: the decoder reads only the canonical text forms; Python's parsers also accept other spellings. Moments are UTC.
- Notifications.Session.DispatchOnce: identifiers in a payload are read only in their canonical text form; Python's `UUID` also takes upper case, undashed, braced and `urn:` spellings, which are answered `Malformed` here.
- Tracking.PayloadRoundTrip: the same holds of the identifier and the moment in a tracking payload.
- OrderStore.OrderService.UpdateOrder: case folding of addresses covers the basic Latin letters only, not Unicode.
- The unfiltered `list` in insertion order.
- RefreshSessions.Repository.RotateSession: sessions are values in a map, so a caller keeping and changing a registered session object is not captured.
- TrackingHub.LiveHub.Join: queues are numbered and held by the hub instead of being separate objects shared with their readers.
- Tracking.OrderEventStream: takes the updates its queue yields as a finite list; waiting and cancellation are not modelled, nor the bytes of the event-stream encoding.
- OutboxRelay.RunKeepsAccount: in the machine of many relays a batch is any set of unlocked pending rows; `RelayCallIsARun` shows that the oldest-first batch is one.
- Notifications.OneRowPerClaim: in the machine the preference lookup is either answer; `DispatchOnce` has the lookup itself.
- The SQL adapters of the order, refresh-session and tracking repositories. In the order adapter nothing ever deactivates an assignment row, so its couriers are not freed; the refresh adapter locks only the presented row.
- `consume_order_created_once`, the payment webhook inbox, the in-memory consumer fake and the audit trail: single-branch variants of the consumer that is modelled.
- Redis (cache, lease, bus), PostgreSQL, httpx and tenacity internals; cryptography; HTTP routes, schemas, settings, metrics, tracing and Celery wiring.
- "Assigned implies a courier" and "pickup differs from destination" are not invariants of the store: `transition` may assign without a courier, and `create` does not compare the addresses.
