# Lettuce: verified core protocols

A Dafny model of the parts of the Lettuce Redis client whose correctness depends on interleavings or on an exact
encoding.

- **Hash import** (`Reservation`, `Import*`): fieldsets are declared to the server on first use and discarded after
  `close`, while callers, channel event loops and `close` run concurrently. `Reservation` is one fieldset;
  `ImportWire` puts any number of fieldsets and channels together, with what each channel sends. Every read or write of
  shared state is one action, except that a channel goes inactive in one, after which it sends nothing. Batches may hold
  SETs that were not dispatched; such a SET counts as done and is skipped. The theorems hold for every run of every
  system. `ImportObjects` and `ImportHandler` are the same code as classes and loops; `ImportHandler` proves what a
  call of the handler's `write` left alone sends, and that it is a run of that machine.
- **Token credentials** (`Credential*`): renewals, errors, subscriptions and `close` around one future reference, with a
  first-in first-out executor; `CredentialEffects` has what single calls bring about, and `CredentialResolve` adds the
  results of `resolveCredentialsAsync`.
- **LRU cache** (`Lru*`): `LruCache` is the concurrent machine, `LruRecency` the class, proved against a cache that keeps
  time stamps instead of a queue; `LruSections` proves that the machine does what the class does.
- **BITFIELD arguments** (`Decimal`, `BitField`): the argument builder, proved against a decoder of the token list.

A machine is a state, a set of actions with `Enabled` and `Apply`, and `Exec`, which runs a sequence of actions. Fields
called history in the code record what happened and are read by no action. An `Option` result of `None` stands for an
exception.

Assumed of code outside the model: operations of `ConcurrentLinkedQueue`, `ConcurrentLinkedDeque`, `AtomicReference`,
`AtomicLong` and `CopyOnWriteArrayList` take effect at one instant; a future completes once; the command handler writes
the commands that are not done.

## Where code and documentation disagree

- `HashImport` promises that imports issued before `close` still complete. A releaser that takes the count to zero before
  `close` writes `closed`, and reads `closed` after it, cleans up although another import was admitted in between
  (`ReservationGuarantee`, `OvertakenReadIsPremature`, `SetBehindDiscard`).
- The comment in `HashImportContext.prepareFor` says that a cleaned-up fieldset cannot reach the steady-state branch. The
  same window lets it.
- A SET that is cancelled while the handler prepares for it can leave a PREPARE that is never discarded
  (`StrandedPrepare`, with the exact circumstances in `MissedOnlyMidPrepare`).
- `HashImportContext.drainDiscards` says that a cleanup DISCARD never lands inside a transaction. It does if the EXEC or
  DISCARD that ends the transaction is cancelled after the handler observed it and before it is sent, and only then
  (`TransactionIsolation`, `DiscardLandsInside`).
- In the same way a MULTI that is cancelled after it was observed lets a SET go out unprepared and outside any
  transaction (`ServerSetsPrepared`, `SetUnprepared`).
- A PREPARE can land in a transaction, without any cancelled marker exactly if its batch begins in one
  (`PrepareInsideTransaction`, `PrepareLandsInside`).
- The provider documents that a subscriber sees credentials in renewal order. The replay reads its candidate when it
  runs, so the order holds exactly if the replay does not find two or more dispatches outstanding (`DeliveryConvergence`,
  `OutOfOrder`).

## Model

| member | source | states |
|---|---|---|
| Reservation.InFlightIsExact | src/main/java/io/lettuce/core/HashImport.java:170-195 | in every state of every run `inFlight` is the number of callers that took a reservation and have not given it back, also through the hand-back in `retain` and a dispatch that throws; at zero no import is outstanding |
| Reservation.NoLostCleanup | src/main/java/io/lettuce/core/HashImport.java:170-257 | closed, count at zero and nobody inside `retain`, `release` or `close`: cleanup has run |
| Reservation.ReservationGuarantee | src/main/java/io/lettuce/core/HashImport.java:188-237 | cleanup has run under an outstanding import only if the cleaner is a releaser whose decrement to zero came before `closed` was written and whose read came after |
| Reservation.OvertakenReadIsPremature | src/main/java/io/lettuce/core/HashImport.java:191-195 | the converse, for every such state: a releaser between decrement and read, one more admission and a close lead to cleanup under that import |
| Reservation.RefusedAfterClose | src/main/java/io/lettuce/core/HashImport.java:170-174 | once `closed` is written, an import that has not started is refused in every continuation and never takes the count |
| Reservation.ThrownDispatchReleases | src/main/java/io/lettuce/core/AbstractRedisAsyncCommands.java:1642-1648 | an import whose dispatch throws is never completed by a connection: in every continuation it holds its count exactly until its own release, that release is the only step open to it, and it happens at most once |
| Reservation.RegistrationConserved | src/main/java/io/lettuce/core/HashImport.java:206-257 | each registered context gets at most one `discard` call and exactly one once the cleaner is through; nothing is registered after cleanup |
| ImportGuarantees.WireOrder | src/main/java/io/lettuce/core/HashImportOutboundHandler.java:45-81 | for every run and channel: every SET seen outside a transaction, and every SET the server reads outside one unless a MULTI got lost, stands behind a PREPARE of its fieldset; a DISCARD of a fieldset is written at most once, no PREPARE of it follows, and no SET of it follows unless a releaser was overtaken by close |
| ImportGuarantees.TransactionIsolation | src/main/java/io/lettuce/core/HashImportOutboundHandler.java:47-80 | for every run and item: a cleanup DISCARD stands inside a transaction of the server if and only if the EXEC or DISCARD that ends it was cancelled between being observed and being sent; a PREPARE stands as its write began, and a SET as the handler saw it, if and only if no lost marker misleads the handler there |
| ImportGuarantees.DiscardsOutside | src/main/java/io/lettuce/core/HashImportContext.java:53-57 | on a wire that lost no EXEC or DISCARD, no cleanup DISCARD stands inside a transaction; a lost MULTI does no harm |
| ImportGuarantees.ServerSetsPrepared | src/main/java/io/lettuce/core/HashImportOutboundHandler.java:67-80 | a SET the server reads outside a transaction has a PREPARE ahead of it, unless the handler took it to be inside one because a MULTI got lost |
| ImportTransactions.Misreading | src/main/java/io/lettuce/core/TransactionState.java:35-50 | the server is in a transaction the handler takes for closed exactly if the last marker sent is a MULTI and the last one lost since is an EXEC or DISCARD; the other way round exactly if the last one lost is a MULTI |
| ImportGuarantees.PrepareInsideTransaction | src/main/java/io/lettuce/core/HashImportOutboundHandler.java:47-80 | the PREPARE about to be written lands in a transaction if and only if its write began in one, save where a lost marker misleads the handler; if its write began in one, an EXEC or DISCARD earlier in the same batch closed it |
| ImportGuarantees.DiscardReachesChannel | src/main/java/io/lettuce/core/HashImportContext.java:96-141 | after cleanup, an active channel that wrote a PREPARE has exactly one DISCARD written, drained or queued, or none if its discard call found no command builder |
| ImportGuarantees.MissedForever | src/main/java/io/lettuce/core/HashImportContext.java:114-117 | a fieldset whose discard call found no builder is never discarded on that channel, in any continuation |
| ImportGuarantees.MissedOnlyMidPrepare | src/main/java/io/lettuce/core/HashImportContext.java:96-131 | a discard call finds no builder only while the handler stands between registering that fieldset and building its first command, and then, without an overtaken releaser, the SET is already done |
| ImportGuarantees.NoLostWakeUp | src/main/java/io/lettuce/core/HashImportContext.java:59-67 | a non-empty discard queue on an active channel implies the flag is set, a discarder is about to set it, or the drainer is still polling |
| ImportGuarantees.QueuedIsWritten | src/main/java/io/lettuce/core/HashImportContext.java:59-67 | every DISCARD a channel was handed is on the wire once a later write has checked the flag outside a transaction, with the flag set or no discarder about to set it, and the drain it starts is over: in every run through such a check, whoever interferes |
| ImportDrain.DrainDelivers | src/main/java/io/lettuce/core/HashImportContext.java:59-67 | whatever was queued when a drain began is on the wire when it ends, in order, whoever runs in between |
| ImportDrain.WriteFlushes | src/main/java/io/lettuce/core/HashImportOutboundHandler.java:59-64 | with the flag set and no transaction open at its end, a write that is left alone puts every queued DISCARD on the wire in the order queued, clears the flag and changes nothing else |
| ImportRepair.PreparedAgain | src/main/java/io/lettuce/core/HashImportContext.java:134-140 | after a PREPARE has failed, every SET of that fieldset observed live outside a transaction has a PREPARE on the wire written after the failure, or its import is done, once the handler is past registering for it: in every run |
| ImportRaces.SetBehindDiscard | src/main/java/io/lettuce/core/HashImport.java:191-257 | the exception in the wire order is real: from every start with two imports and a close, a run puts the DISCARD ahead of a SET admitted before close |
| ImportRaces.StrandedPrepare | src/main/java/io/lettuce/core/HashImportContext.java:96-131 | the exception for missing builders is real without any overtaken releaser: a SET cancelled mid-prepare leaves a PREPARE that is never discarded |
| ImportRaces.PrepareLandsInside | src/main/java/io/lettuce/core/HashImportOutboundHandler.java:47-56 | from every start with one import, a run with no marker lost sends a MULTI and then, for a batch of its end and the first SET, writes the PREPARE inside the transaction |
| ImportRaces.DiscardLandsInside | src/main/java/io/lettuce/core/HashImportOutboundHandler.java:45-65 | the condition on DISCARDs is needed: from every start with one import and a close, and for EXEC and DISCARD alike, a run in which that marker is cancelled after it was observed ends with the cleanup DISCARD inside the transaction |
| ImportRaces.SetUnprepared | src/main/java/io/lettuce/core/HashImportOutboundHandler.java:67-80 | the condition on SETs is needed: from every start with one import, a run in which the MULTI ahead of the SET is cancelled sends the SET outside any transaction with no PREPARE on the wire |
| ImportObjects.HashImport.Retain | src/main/java/io/lettuce/core/HashImport.java:170-186 | admitted exactly if `closed` is false at both reads; the count goes up by one then and only then, and a call overtaken between the reads hands it back and cleans up if it was the last; the undisturbed invariant is kept |
| ImportObjects.HashImport.Release | src/main/java/io/lettuce/core/HashImport.java:191-195 | the last one out of a closed fieldset hands one DISCARD to each registered connection; without overlapping calls cleanup has run exactly if closed and none outstanding |
| ImportObjects.HashImport.RegisterConnection | src/main/java/io/lettuce/core/HashImport.java:206-214 | accepted exactly before cleanup, and recorded exactly then |
| ImportObjects.HashImport.Close | src/main/java/io/lettuce/core/HashImport.java:230-237 | closes, and cleans up exactly if nothing is outstanding or it was done before; keeps the undisturbed invariant |
| ImportObjects.HashImport.Cleanup | src/main/java/io/lettuce/core/HashImport.java:242-257 | every context registered before gets the DISCARD, once, and the set is empty; a second run changes nothing |
| ImportObjects.HashImportContext.DrainDiscards | src/main/java/io/lettuce/core/HashImportContext.java:59-67 | returns all queued DISCARDs in order, leaves the queue empty and the flag down |
| ImportObjects.HashImportContext.Discard | src/main/java/io/lettuce/core/HashImportContext.java:114-120 | queues and flags exactly if a command builder exists |
| ImportObjects.HashImportContext.Clear | src/main/java/io/lettuce/core/HashImportContext.java:122-126 | forgets prepared fieldsets and queued DISCARDs, keeps the builder |
| ImportObjects.HimportSet | src/main/java/io/lettuce/core/AbstractRedisAsyncCommands.java:1630-1652 | refused exactly if closed before or during the reservation; a dispatch that throws leaves the count as it was, a dispatched one holds one reservation; the undisturbed invariant is kept |
| ImportObjects.CheckFields | src/main/java/io/lettuce/core/HashImport.java:113-126 | accepts exactly a codec with a non-empty list of non-null, pairwise different names, and otherwise reports the first check that fails and, for a name, which one |
| ImportHandler.HashImportOutboundHandler.ObserveTransaction | src/main/java/io/lettuce/core/TransactionState.java:35-46 | MULTI opens, EXEC and DISCARD close, nothing else changes it |
| ImportHandler.HashImportOutboundHandler.PrepareFor | src/main/java/io/lettuce/core/HashImportContext.java:78-142 | writes the PREPARE and records the fieldset as prepared exactly if it is not cleaned up; else fails the SET and gives its reservation back; as a run of the machine |
| ImportHandler.HashImportOutboundHandler.Reject | src/main/java/io/lettuce/core/HashImportContext.java:96-99 | the SET is done, its reservation given back, nothing is sent, and no fieldset is cleaned up by it |
| ImportHandler.HashImportOutboundHandler.ObserveAndPrepare | src/main/java/io/lettuce/core/HashImportOutboundHandler.java:67-81 | a done element changes nothing; a live one moves the transaction state, and exactly a SET outside a transaction of a fieldset not prepared here is prepared for, or failed if the fieldset is cleaned up; as a run of the machine |
| ImportHandler.HashImportOutboundHandler.Forward | src/main/java/io/lettuce/core/protocol/CommandHandler.java:548-550 | what is not done goes on the channel, as a step of the machine |
| ImportHandler.HashImportOutboundHandler.DrainIfPending | src/main/java/io/lettuce/core/HashImportOutboundHandler.java:59-64 | writes all queued DISCARDs exactly if the flag is set and no transaction is open, as a run of the machine |
| ImportHandler.HashImportOutboundHandler.Write | src/main/java/io/lettuce/core/HashImportOutboundHandler.java:45-65 | what the call sends: one PREPARE for each fieldset that is neither cleaned up nor prepared here and that a live SET outside a transaction needs, then in order the elements that are not done, then the queued DISCARDs if the flag is set and no transaction is open at the end; which elements are done, what is prepared and queued afterwards; and that the call is a run of the machine from its first state, so that the channel has the proved wire order |
| ImportWrites.ObserveIsObserved | src/main/java/io/lettuce/core/HashImportOutboundHandler.java:47-56 | going through the batch element by element prepares exactly the wanted fieldsets, once each, fails exactly the SETs of cleaned-up ones, and leaves the transaction state of the live markers |
| ImportWrites.ForwardsOne | src/main/java/io/lettuce/core/HashImportOutboundHandler.java:57-57 | when nobody interferes, no marker gets lost and each element that is not done is sent as it was seen |
| ImportHandler.HashImportOutboundHandler.ChannelInactive | src/main/java/io/lettuce/core/HashImportOutboundHandler.java:84-89 | is the machine's step to an inactive channel; transaction, prepared set and queue are reset |
| CredentialFutures.NoHangingResolve | src/main/java/io/lettuce/authx/TokenBasedRedisCredentialsProvider.java:217-227 | closed, every call returned and all tasks run: no future that was ever in the reference is pending, in any interleaving of renewals, errors and closes |
| CredentialResolve.EveryResultIsDone | src/main/java/io/lettuce/authx/TokenBasedRedisCredentialsProvider.java:217-227 | no result of `resolveCredentialsAsync`, whenever it was asked for, is left pending by a closed provider once all calls, tasks and callbacks have run |
| CredentialResolve.ResultIsLatest | src/main/java/io/lettuce/authx/TokenBasedRedisCredentialsProvider.java:205-227 | a result that succeeds carries the credentials that were the latest when it was asked for, or the first ones if there were none; one asked for when there were credentials never fails |
| CredentialResolve.NoStaleError | src/main/java/io/lettuce/authx/TokenBasedRedisCredentialsProvider.java:210-213 | while the provider is open, the future a call reads has not failed: errors from before the call are not handed to it |
| CredentialResolve.ErrorEndsWaiting | src/main/java/io/lettuce/authx/TokenBasedRedisCredentialsProvider.java:147-157 | in every run, once an error call that found the provider open has returned and all tasks and callbacks have run, no result asked for before it is pending: one asked for before any renewal has failed or carries the first credentials, any other carries those it was asked for with |
| CredentialResolve.EveryCallHasAResult | src/main/java/io/lettuce/authx/TokenBasedRedisCredentialsProvider.java:217-219 | there are as many results as calls |
| CredentialResolve.DoneExactlyWhenNotified | src/main/java/io/lettuce/authx/TokenBasedRedisCredentialsProvider.java:219-225 | in every run a result is done if and only if its callback has run, and no callback runs twice |
| CredentialResolve.ResultFollows | src/main/java/io/lettuce/authx/TokenBasedRedisCredentialsProvider.java:219-225 | a result is pending or has the outcome of the future that was current when it was asked for |
| CredentialFutures.SuccessIsPermanent | src/main/java/io/lettuce/authx/TokenBasedRedisCredentialsProvider.java:130-166 | from the first renewal on the reference holds the credentials of the latest swap, whatever errors and closes interleave |
| CredentialFutures.SettledForever | src/main/java/io/lettuce/authx/TokenBasedRedisCredentialsProvider.java:138-163 | a future that is done keeps its outcome in every continuation, and swaps are only added |
| CredentialSubscribers.NoSubscriberSurvivesClose | src/main/java/io/lettuce/authx/TokenBasedRedisCredentialsProvider.java:230-286 | once a close has returned and no subscribe call is mid-way, the list is empty and every subscription ever created is closed |
| CredentialSubscribers.SilentAfterClose | src/main/java/io/lettuce/authx/TokenBasedRedisCredentialsProvider.java:76-105 | with the provider and every subscription closed, no subscribe call about to add one and no delivery half-way, nothing is ever delivered again, in any continuation, whatever tasks start |
| CredentialEffects.LeaveIsFinal | src/main/java/io/lettuce/authx/TokenBasedRedisCredentialsProvider.java:75-79 | once a subscriber has closed its subscription it stays closed in every continuation, is delivered nothing but what was already past the check of `closed`, and is off the list when the call has returned |
| CredentialEffects.ErrorReaches | src/main/java/io/lettuce/authx/TokenBasedRedisCredentialsProvider.java:165-165 | every subscription on the list as an error call reads it is told of the error or closed, once the call has returned and its tasks have run |
| CredentialEffects.NoErrorWhenClosed | src/main/java/io/lettuce/authx/TokenBasedRedisCredentialsProvider.java:100-105 | a closed subscription is told of no error, in any continuation |
| CredentialEffects.ClosedIsFinal | src/main/java/io/lettuce/authx/TokenBasedRedisCredentialsProvider.java:130-150 | once the provider is closed and no call is past its check of `isClosed`, nothing called later changes the reference or the credentials or adds a subscription |
| CredentialDelivery.DeliveryOrder | src/main/java/io/lettuce/authx/TokenBasedRedisCredentialsProvider.java:81-98 | with renewals one at a time, a subscriber whose replay did not find two or more dispatches outstanding sees credentials in strictly increasing renewal order |
| CredentialDelivery.DeliveryConvergence | src/main/java/io/lettuce/authx/TokenBasedRedisCredentialsProvider.java:81-143 | at rest an open subscription was last delivered the latest credentials, no delivery repeats the one before, and the order is increasing if and only if the replay was not hasty |
| CredentialViews.MoveKeepsInv | src/main/java/io/lettuce/authx/TokenBasedRedisCredentialsProvider.java:76-98 | what every renewal, dispatch, replay and close does to one subscription keeps its order and debt invariant |
| CredentialRaces.OutOfOrder | src/main/java/io/lettuce/authx/TokenBasedRedisCredentialsProvider.java:246-256 | the documented ordering fails: from every start with one subscribe and two renewals, a run without overlap delivers 2, 1, 2 |
| LruCache.Transparent | src/main/java/io/lettuce/core/ConcurrentLruCache.java:77-124 | every `get` that returns, in every interleaving, returns the generator's value of its key |
| LruCache.Bounded | src/main/java/io/lettuce/core/ConcurrentLruCache.java:103-119 | the map never holds more than `sizeLimit` entries, after every single step |
| LruCache.QueueMatchesMap | src/main/java/io/lettuce/core/ConcurrentLruCache.java:77-166 | whenever no writer holds the lock, the queue and the keys held by readers between removing and offering are together exactly the keys of the map, each once, and `size` is the map's size, also after generators that threw |
| LruSections.Section | src/main/java/io/lettuce/core/ConcurrentLruCache.java:98-166 | in every run, from taking the exclusive lock to giving it back, map, queue and size go to what the sequential operation makes of them, for get, remove and clear; a late hit is moved to the end of the queue, a generator that throws changes nothing |
| LruSections.LateHitInFull | src/main/java/io/lettuce/core/ConcurrentLruCache.java:101-106 | in a full cache the late hit is what the sequential get does |
| LruSections.HitMoves | src/main/java/io/lettuce/core/ConcurrentLruCache.java:88-93 | a hit under the shared lock takes out its own key only and puts it back as the last one |
| LruSections.LeftAlone | src/main/java/io/lettuce/core/ConcurrentLruCache.java:77-166 | in every reachable state with the locks free, a call that is left alone returns, with the value and with map, queue and size of the sequential operation, whether it takes the exclusive lock, the shared one or none |
| LruRecency.StepRefines | src/main/java/io/lettuce/core/ConcurrentLruCache.java:77-166 | every call keeps map and queue in step with a cache that has time stamps and no queue |
| LruRecency.Recency | src/main/java/io/lettuce/core/ConcurrentLruCache.java:83-119 | over every sequence of calls the cache holds what the time-stamp cache holds, which evicts the oldest recorded use; the queue is the order of last use |
| LruRecency.ConcurrentLruCache.Lookup | src/main/java/io/lettuce/core/ConcurrentLruCache.java:77-124 | a call of get keeps the cache in step with the time-stamp form, which evicts the oldest recorded use, and returns the cached value or the generator's result |
| LruRecency.ConcurrentLruCache.Fetch | src/main/java/io/lettuce/core/ConcurrentLruCache.java:77-124 | the branches of get on map, queue and size lead to the next state of the queue form, about which the lemmas above are stated |
| LruRecency.ConcurrentLruCache.Evict | src/main/java/io/lettuce/core/ConcurrentLruCache.java:142-152 | reports whether the key was present and removes it, in step with the time-stamp form |
| LruRecency.ConcurrentLruCache.Drop | src/main/java/io/lettuce/core/ConcurrentLruCache.java:142-152 | the statements of remove on map, queue and size lead to the next state of the queue form |
| LruRecency.ConcurrentLruCache.Reset | src/main/java/io/lettuce/core/ConcurrentLruCache.java:157-166 | empties map and queue, in step with the time-stamp form |
| Decimal.ParseIsInverse | src/main/java/io/lettuce/core/BitFieldArgs.java:455-457 | a text reads as n exactly if it is the decimal print of n |
| Decimal.ParseIntIsInverse | src/main/java/io/lettuce/core/BitFieldArgs.java:460-460 | the same for signed values |
| BitField.WidthAccepted | src/main/java/io/lettuce/core/BitFieldArgs.java:604-618 | for every int: the type's constructor accepts a width exactly if the decoder accepts its text, that is 1 to 64 signed and 1 to 63 unsigned |
| BitField.TypeInverse | src/main/java/io/lettuce/core/BitFieldArgs.java:634-636 | type text and type determine each other |
| BitField.OffsetInverse | src/main/java/io/lettuce/core/BitFieldArgs.java:657-682 | offset text, unsigned with or without `#`, and 32-bit offset determine each other |
| BitField.WireNames | src/main/java/io/lettuce/core/BitFieldArgs.java:450-555 | the keyword, the letter of the type, the `#` and the overflow names that a sub-command is sent with |
| BitField.RoundTrip | src/main/java/io/lettuce/core/BitFieldArgs.java:450-573 | every list of sub-commands is recovered by decoding its tokens, for all types, 32-bit offsets and 64-bit values |
| BitField.DecodesOnlyTokens | src/main/java/io/lettuce/core/BitFieldArgs.java:450-573 | nothing else decodes: a token list that decodes is the one its result is sent as |
| BitField.PreviousIsNearest | src/main/java/io/lettuce/core/BitFieldArgs.java:403-424 | the type found is that of the nearest earlier sub-command other than OVERFLOW, and none is found exactly if there is no such sub-command |
| BitField.FailsExactly | src/main/java/io/lettuce/core/BitFieldArgs.java:218-401 | a chain of calls fails if and only if some type-less call has nothing but OVERFLOW before it |
| BitField.Elaboration | src/main/java/io/lettuce/core/BitFieldArgs.java:218-424 | a chain with shorthand calls builds a GET, SET or INCRBY for each get, set and incrBy, with the call's offset and value and the type of the nearest earlier sub-command other than OVERFLOW, which is also what the fully typed chain builds |
| BitField.BitFieldArgs.PreviousFieldType | src/main/java/io/lettuce/core/BitFieldArgs.java:403-424 | the search loop returns the previous type or none |
| BitField.BitFieldArgs.AddGet | src/main/java/io/lettuce/core/BitFieldArgs.java:218-267 | the type-less `get` adds a GET at the given offset with the type of the nearest earlier sub-command other than OVERFLOW, or nothing if there is none |
| BitField.BitFieldArgs.AddSet | src/main/java/io/lettuce/core/BitFieldArgs.java:276-301 | the same for `set`, as a SET with the value |
| BitField.BitFieldArgs.AddIncrBy | src/main/java/io/lettuce/core/BitFieldArgs.java:338-363 | the same for `incrBy`, as an INCRBY with the value |
| BitField.BitFieldArgs.Build | src/main/java/io/lettuce/core/BitFieldArgs.java:568-573 | appends tokens that decode to exactly the sub-commands, behind what was there |

## Left out

- The name of a new fieldset, and that it must not be null.
- TokenBasedRedisCredentialsProvider is modelled as a machine on values only, not as a class: its methods are specified by what they do under interference.
- The concurrent part of the LRU cache is modelled as a machine on values; the class in `LruRecency` runs one call at a time.
- The reactive `himportSet`: the same reservation taken on subscription and given back at the end, so its steps are those of the asynchronous one.
- A dispatch that throws after it handed the command over, a bounded request queue that refuses the PREPARE, and the de-duplication of batches in the command handler.
- Executors that reject tasks or run several at once; failures inside the token manager and the failed-start path of `init`.
- The close of the provider completes its future in one action with the test whether it is done.
- The rejection of a negative cache limit or a missing generator.
- Weak references: `prepared` and `preparedOn` are ordinary sets.
- Generators that return null or call back into the cache; `contains`. Keys and values of the cache are natural numbers.
- The overloads of the BITFIELD builder that only supply a default offset or wrap an offset; null arguments.
- Codecs, byte encoding, logging, and all other commands, argument classes and connection plumbing, whose behaviour is plain from a single branch.
