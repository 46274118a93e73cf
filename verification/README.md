# open-net: verified models of its lifecycle, credential, cookie, form and retry logic

open-net is a networking SDK for Rust. This project models the parts of it where
correctness depends on many operations together, and proves what they promise:

- **Retirement and shutdown.** `ThreadRegistry`, `ThreadHandle`, `WorkTracker`, the lazily
  started callback pool and the engine's staged shutdown. Each object that is changed under
  a lock is a class whose methods are proved equal to a function per locked region. Step
  systems then run any number of threads over those regions, with condition variables,
  notifications, panics, failed start-ups and spurious wakeups as steps of their own, and
  the theorems hold for every finite run.
- **Bearer credentials.** The single-flight token state of `BearerAuth`, its gates, its
  cancelled callers and its waiters.
- **Cookie jar.** Storing, pruning, request headers and versioned snapshots, over any
  sequence of responses.
- **Multipart forms.** The `multipart/form-data` printer (section 4 of RFC 7578, delimiters
  of section 5.1.1 of RFC 2046), and a reference decoder that the repository does not have.
- **Smaller state machines.** Dispatch tickets, the registry of named WebSocket clients with
  its cleanup task, and retry schedules with their per-operation state.

Layout: `base.dfy` holds shared helpers. `registry.dfy`, `registry_runs.dfy`,
`work_tracker.dfy`, `callback_pool.dfy` and `engine_shutdown.dfy` are the retirement layer;
`bearer_auth.dfy` the credentials; `cookie_*.dfy` and `cookies.dfy` the jar;
`text_bytes.dfy` and `multipart*.dfy` the forms; `dispatch.dfy`, `ws_registry*.dfy`,
`retry*.dfy` and `split_mix.dfy` the rest. `dfyconfig.toml` names them all.

Five statements in the sources or their documentation turn out to need a condition. Each has
a run that shows it failing and a theorem that says exactly when it holds:

- The work barrier of engine shutdown (no retirement lease is live once the wait has passed):
  `EngineShutdown.LateRegistration` exhibits a run in which the callback pool closes under a
  live lease. `EngineShutdown.WorkBarrier` proves that the barrier holds if and only if nobody
  registers work without holding a lease after a coordinator has passed the wait, which is the
  condition of use written at `libs/common/src/retirement.rs:169-170`. Such producers are
  callers of the engine as well as callback jobs and runtime tasks without a lease.
  `begin_shutdown` is one of them (`src/inner/net_impl/engine_shutdown.rs:330`), so a call that
  races with a retirement already launched by another one falls outside the condition.
- Running every accepted management future. The queue's worker drops the payload of a caught
  panic itself (`libs/common/src/inner/common_engine_impl.rs:30-45`); when that destructor
  panics too, that worker unwinds over whatever is still buffered, and
  `libs/common/src/common_engine.rs:153-161` only logs it.
  `EngineShutdown.OkWithLostFuture` exhibits a shutdown that reports `Ok` although a future
  never ran. `EngineShutdown.QueuesRanAll` proves that every accepted future ran if and only
  if no worker unwound over buffered futures or ahead of one still being delivered.
- Progress of bearer waiters. After a failed spawn the creating caller completes the gate
  itself (`src/api/http/auth.rs:344-353`, `:396-405`); cancelled there, it leaves the gate in
  flight. `BearerAuth.StrandedRun` exhibits another caller asleep on it for ever.
  `BearerAuth.StuckExactly` proves that a waiter can be brought forward if and only if it does
  not sleep on a halted gate, and `BearerAuth.HaltedExactly` that a gate is halted if and only
  if such a cancellation, or the loss of its fetch task, happened.
- One live worker per name. `ThreadHandle::join` returns at once on the thread it names
  (`libs/common/src/retirement.rs:65-67`), so a cleanup that falls back to the worker's own
  thread (`src/inner/net_impl/ws_cleanup.rs:108-127`) releases the name under a live worker.
  `WsRegistryRuns.TwoLiveWorkers` exhibits it. `WsRegistryRuns.OneLiveWorker` proves that a run
  keeps to one live worker per name if and only if it never starts one under a name that a
  worker cleaned up that way still has; one that exits before its name is used again does no
  harm. `WsRegistryRuns.ReuseAfterExit` is the same for reserving a name.
  A refused `Ready` commit, which gives the name back before its worker has been joined
  (`src/inner/net_impl.rs:177-199`), does no harm, because it is refused only after the engine
  stopped accepting names.
- The runtime being down on every return. `OwnedRuntime::shutdown_blocking` gives up with an
  error when called inside a Tokio context (`libs/common/src/owned_runtime.rs:45-69`).
  `EngineShutdown.ReturnWithRuntimeUp` exhibits a return with the runtime up;
  `EngineShutdown.RuntimeDownExactly` proves that it is down if and only if some call has been
  through that stage outside such a context. The engine's own call comes from an ordinary OS
  thread (`src/inner/net_impl/engine_shutdown.rs:92-106`).

What enters as a parameter: clocks, random bytes, the answers of host parsing, cookie
parsing and the public-suffix list (`Cookies.Library`, `Cookies.Raw`), which threads
`is_finished` reports, the results of OS joins and of token source calls, what an executor
does with a submitted job, and the monotonic clock's range.

## Model

| member | source | states |
|---|---|---|
| Registry.SweepPartitions | libs/common/src/retirement.rs:266-278 | the `swap_remove` scan of `spawn_inner` loses and duplicates no handle and takes out exactly the finished ones |
| Registry.SweepMembers | libs/common/src/retirement.rs:266-278 | a handle was in the vector exactly if it was kept or taken out |
| Registry.AdmitMeans | libs/common/src/retirement.rs:256-307 | what asking for a start does, said of the handles and counters alone |
| Registry.ThreadRegistry.constructor | libs/common/src/retirement.rs:96-111 | a new registry is open, empty and has no result |
| Registry.ThreadRegistry.TakeFinished | libs/common/src/retirement.rs:266-278 | the in-place scan loop equals the sweep |
| Registry.ThreadRegistry.BeginSpawn | libs/common/src/retirement.rs:256-307 | a sealed registry refuses unchanged; finished handles to be reaped are taken out, none lost or duplicated; otherwise one start is reserved |
| Registry.ThreadRegistry.EndReap | libs/common/src/retirement.rs:286-307 | the failure is accumulated, the reaping count drops by one, and one start is reserved exactly if the registry is not sealed |
| Registry.ThreadRegistry.RecordHandle | libs/common/src/retirement.rs:329-331 | the started handle joins the vector and nothing else changes |
| Registry.ThreadRegistry.DropStarting | libs/common/src/retirement.rs:115-122 | the starting count drops by one and nothing else changes |
| Registry.ThreadRegistry.Seal | libs/common/src/retirement.rs:338-340 | sealing only closes admission |
| Registry.ThreadRegistry.TrySeal | libs/common/src/retirement.rs:341-349 | reports a known result, takes all handles exactly if nobody joins, reaps or starts, and waits otherwise |
| Registry.ThreadRegistry.PublishResult | libs/common/src/retirement.rs:353-361 | the result is failure exactly if a join or an earlier reap failed |
| RegistryRuns.RunInv | libs/common/src/retirement.rs:243-368 | handles, counters, custody, seal, blame and wakeup invariants hold in every state of every run of spawners, reapers, local joiners and sealers |
| RegistryRuns.FinalJoinAlone | libs/common/src/retirement.rs:345-352 | once a final join has begun, no call is between admission and recording its handle, or reaping |
| RegistryRuns.SealedForGood | libs/common/src/retirement.rs:256-362 | from the final join on no thread is ever started, and a published result never changes |
| RegistryRuns.SealResult | libs/common/src/retirement.rs:243-368 | the result is Ok if and only if no thread ever started panicked and none retired itself; then every thread, reaped and locally joined ones included, exited and was joined |
| RegistryRuns.SealersAgree | libs/common/src/retirement.rs:338-368 | all sealers, whenever they return, report the same result |
| RegistryRuns.OpenAdmits | libs/common/src/retirement.rs:256-331 | a registry that is not sealed lets every caller begin, and a reserved start can succeed |
| RegistryRuns.NoLostWakeup | libs/common/src/retirement.rs:64-93 | a sealer asleep although it may proceed has a notification pending, and a sleeping joiner's handle is with a call inside the OS join |
| RegistryRuns.NeverStuck | libs/common/src/retirement.rs:64-368 | once all threads are over, as long as a call has not returned some call can take its next step |
| RegistryRuns.MeasureFalls | libs/common/src/retirement.rs:64-368 | every step of a call lowers a lexicographic measure, so the calls return in whichever order they step |
| RegistryRuns.AllCallsReturn | libs/common/src/retirement.rs:64-368 | every run whose threads are over goes on, without new calls, to a state in which every call has returned |
| WorkTracker.Tracker.RegisterLocked | libs/common/src/retirement.rs:153-167 | a registration joins the live generation or installs a fresh one |
| WorkTracker.CountIsLeases | libs/common/src/retirement.rs:171-187 | the strong count read by `wait` is zero exactly when no lease is live |
| WorkTracker.LeasesShareGeneration | libs/common/src/retirement.rs:147-167 | leases alive together always share one generation, the tracker's own |
| WorkTracker.WaitReturnsWithoutWork | libs/common/src/retirement.rs:171-187 | `wait` returns only at an instant without any live lease, even with late destructors of earlier generations |
| WorkTracker.OpenRegisters | libs/common/src/retirement.rs:147-167 | anyone can register work whenever the tracker lock is free |
| WorkTracker.NoLostWakeup | libs/common/src/retirement.rs:171-208 | a waiter asleep or about to sleep with no work left has the notifying destructor still to come |
| WorkTracker.WaiterNeverStuck | libs/common/src/retirement.rs:171-208 | with no work left a waiter can always be brought forward |
| WorkTracker.BudgetFalls | libs/common/src/retirement.rs:171-208 | with no work left every tracker step uses up a finite budget and adds no work |
| WorkTracker.WaitersReturn | libs/common/src/retirement.rs:171-208 | every run without work left goes on, by steps of the tracker alone, to a state in which every waiter has returned |
| WorkTracker.NoWorkEverAfter | libs/common/src/retirement.rs:147-170 | with external producers closed and no lease live, none is ever live again |
| CallbackPool.Workers.Execute | libs/common/src/lazy_callback_pool.rs:143-170 | accepts exactly if the queue is open, and then appends the job |
| CallbackPool.Workers.Close | libs/common/src/lazy_callback_pool.rs:217-228 | closing keeps the queued jobs |
| CallbackPool.Workers.NextJob | libs/common/src/lazy_callback_pool.rs:230-254 | a worker takes the oldest job first and leaves only when the queue is empty and closed |
| CallbackPool.RunInv | libs/common/src/lazy_callback_pool.rs:69-260 | lock, publication, worker, order and wakeup invariants hold in every state of every run |
| CallbackPool.OpenPoolEnters | libs/common/src/lazy_callback_pool.rs:69-141 | an open pool with its lock free lets a job in, by its running workers or by starting them |
| CallbackPool.RefusedOnlyByShutdown | libs/common/src/lazy_callback_pool.rs:143-198 | a submitted job is refused exactly if the queue is closed, which only the shutdown of the pool does |
| CallbackPool.CallsGoOn | libs/common/src/lazy_callback_pool.rs:69-260 | a call in progress, or a worker it waits for, can always take its next step |
| CallbackPool.StartedInOrder | libs/common/src/lazy_callback_pool.rs:143-260 | started jobs are a prefix of the accepted jobs, so order is kept and none starts twice |
| CallbackPool.SealedForGood | libs/common/src/lazy_callback_pool.rs:183-198 | after the seal the pool accepts nothing and starts no worker |
| CallbackPool.ShutdownDrains | libs/common/src/lazy_callback_pool.rs:183-198 | when `shutdown_blocking` returned Ok every accepted job was started exactly once, in order, and finished, and nothing is accepted later |
| CallbackPool.NoSleepOnWork | libs/common/src/lazy_callback_pool.rs:217-260 | a worker asleep over a nonempty queue has a notification pending or an awake colleague, and a closed queue has its wakeup coming |
| EngineShutdown.EngineQueue.DrainClosed | libs/common/src/common_engine.rs:116-161 | the draining loop runs the buffered futures and those delivered meanwhile in order, up to and including the first one that unwinds the worker, and drops exactly the rest |
| EngineShutdown.ChannelStep | libs/common/src/common_engine.rs:116-161 | serving, closing, draining and unwinding duplicate and reorder no future, and a step loses one exactly if a task unwinds over buffered futures or one is delivered after that |
| EngineShutdown.QueueFinishes | libs/common/src/common_engine.rs:116-161 | once told to close, a queue has a step until it is done, and every step but a new send uses up its work |
| EngineShutdown.OpenRegisters | libs/common/src/common_engine.rs:196-213 | until the seal resource threads can be started, and a new lease is never refused |
| EngineShutdown.WorkBarrier | libs/common/src/common_engine.rs:202-213 | past the wait no lease is ever live if and only if no producer without a lease registers after the wait |
| EngineShutdown.PoolOpenForLeases | libs/common/src/common_engine.rs:202-213 | under that condition, while any lease is live the callback pool and the runtime are open |
| EngineShutdown.ReturnMeansRetired | libs/common/src/common_engine.rs:196-213 | a return means that both queues are done, management and resource threads are over and the pool has been shut down; the runtime is down exactly if some call passed its stage outside a Tokio context, this one included; Ok if and only if every stage was clean and the call was outside such a context |
| EngineShutdown.RuntimeDownExactly | libs/common/src/owned_runtime.rs:45-69 | in every state of every run the runtime is down if and only if some call has passed its stage outside a Tokio context |
| EngineShutdown.ReturnWithRuntimeUp | libs/common/src/owned_runtime.rs:45-69 | the counterexample: a call inside a Tokio context returns with the runtime still up |
| EngineShutdown.LostExactly | libs/common/src/common_engine.rs:116-161 | in every state of every run a queue has lost no future if and only if no earlier step was such a losing one |
| EngineShutdown.QueuesRanAll | libs/common/src/common_engine.rs:116-213 | on return the futures run are a prefix of those accepted, and all of them if and only if no losing step happened |
| EngineShutdown.OkWithLostFuture | libs/common/src/inner/common_engine_impl.rs:30-45 | the counterexample: shutdown reports Ok although an accepted management future never ran |
| EngineShutdown.LateRegistration | libs/common/src/common_engine.rs:202-213 | the counterexample: a late registration without a lease leaves a live lease under a closed pool |
| BearerAuth.Bearer.CurrentToken | src/api/http/auth.rs:320-334 | hands out the held token exactly if it has not reached its expiry; otherwise joins the fetch in flight, or starts one if there is none |
| BearerAuth.Bearer.RefreshIfNeeded | src/api/http/auth.rs:371-386 | a retry exactly for a newer token, a failure exactly for a remembered one, otherwise the fetch in flight or a new one |
| BearerAuth.Bearer.CompleteFetch | src/api/http/auth.rs:440-484 | installing a token raises the generation by one and forgets failures; a failed refresh is remembered for its generation |
| BearerAuth.SingleFlight | src/api/http/auth.rs:318-415 | at any moment at most one source call is in progress |
| BearerAuth.OneRefreshPerGeneration | src/api/http/auth.rs:366-484 | over a whole run no two refresh calls are made for one generation |
| BearerAuth.GenerationCounts | src/api/http/auth.rs:255-260 | the generation counts the installed tokens, the newest is current, and a remembered failure is about it |
| BearerAuth.FreshTokenOnly | src/api/http/auth.rs:318-334 | in every run `current_token` hands out the newest installed token exactly while it is unexpired, and starts a fetch exactly if there is none and none is in flight |
| BearerAuth.RefreshExactly | src/api/http/auth.rs:366-386 | in every run `refresh_if_needed` retries exactly if a newer token was installed, and starts a refresh exactly if not, the last refresh did not fail and nothing is in flight |
| BearerAuth.FetchesExactly | src/api/http/auth.rs:335-343 | a gate starts fetching exactly by a spawn, and the list of source calls records exactly those |
| BearerAuth.FetchedFresh | src/api/http/auth.rs:440-484 | a fetched token counts exactly if it is unexpired when it comes |
| BearerAuth.GateResultForGood | src/api/http/auth.rs:440-484 | a gate's result never changes once recorded |
| BearerAuth.WaiterGetsGateResult | src/api/http/auth.rs:418-438 | every waiter leaves with its gate's one result, and a success seen with generation g means the current one exceeds g |
| BearerAuth.ResumesExactly | src/api/http/auth.rs:355-362 | after a gate a caller gets its error, or the newest installed token or generation, without a second look at the expiry |
| BearerAuth.NeverSecondRound | src/api/http/auth.rs:319-414 | no caller needs a second round; a retry carries a newer generation and a token is one that was installed under its generation |
| BearerAuth.NoLostWakeup | src/api/http/auth.rs:418-438 | a caller asleep on a gate whose result is stored has the notification coming |
| BearerAuth.StuckExactly | src/api/http/auth.rs:335-484 | a waiting caller, its gate or the spawn its gate awaits has a next step if and only if the caller does not sleep on a halted gate |
| BearerAuth.BudgetFalls | src/api/http/auth.rs:335-484 | every such step lowers a finite budget of the waiting caller and no other step raises it |
| BearerAuth.HaltedExactly | src/api/http/auth.rs:335-406 | a gate is halted if and only if the caller completing it inline was cancelled or its fetch task was lost |
| BearerAuth.StrandedForGood | src/api/http/auth.rs:418-438 | a stranded caller stays so until it is cancelled, and with its gate in flight the shared state never changes again |
| BearerAuth.StrandedRun | src/api/http/auth.rs:344-353 | the counterexample: a spawn fails, its caller is cancelled while completing, and another caller sleeps on the gate for ever |
| CookieScope.DomainTransitive | src/api/http/cookies.rs:758-763 | domain matching is transitive |
| CookieScope.DomainsComparable | src/api/http/cookies.rs:758-763 | of two domains a host matches, the longer matches the shorter |
| CookieScope.PathTransitive | src/api/http/cookies.rs:765-770 | path matching is transitive |
| CookieScope.PathMatchesExactly | src/api/http/cookies.rs:765-770 | a path matches exactly if it continues the cookie path at a slash |
| CookieScope.DomainMatchesExactly | src/api/http/cookies.rs:758-763 | a host matches exactly if it is the domain or a name below it, label by label |
| CookieScope.PathsComparable | src/api/http/cookies.rs:765-770 | of two cookie paths matching a request, the longer matches the shorter |
| Cookies.Find | src/api/http/cookies.rs:558-560 | the first entry with a key, or none |
| CookieLaws.PruneMembers | src/api/http/cookies.rs:805-808 | pruning keeps exactly the cookies whose expiry is still to come |
| CookieLaws.PruneUnique | src/api/http/cookies.rs:805-808 | pruning keeps keys unique |
| CookieLaws.UpsertUnique | src/api/http/cookies.rs:558-574 | storing a cookie keeps keys unique |
| CookieLaws.FitsLongest | src/api/http/cookies.rs:513-520 | the processed headers fit the budget and one more would not |
| CookieLaws.FitsUnique | src/api/http/cookies.rs:513-520 | stopping at the first header over the budget gives that longest prefix |
| CookieLaws.StoreItemsOk | src/api/http/cookies.rs:507-577 | storing any list of headers keeps size, unique keys and field validity |
| CookieLaws.ValidatorsExactly | src/api/http/cookies.rs:744-797 | names are tokens and values cookie octets in optional quotes (section 4.1.1 of RFC 6265); paths, domain scopes and the `__Secure-` and `__Host-` prefixes are spelled out likewise |
| CookieLaws.CandidateExactly | src/api/http/cookies.rs:521-624 | exactly the admissible headers are accepted, and each yields the cookie with its own name, value, attributes, scope and expiry |
| CookieLaws.OverlapsExactly | src/api/http/cookies.rs:545-557 | a secure cookie blocks exactly insecure ones of its name with a related domain and a path below its own |
| CookieLaws.JarStaysOk | src/api/http/cookies.rs:507-577 | the same over any sequence of responses |
| CookieLaws.UpsertRefines | src/api/http/cookies.rs:558-574 | deleting, replacing and appending act on an insertion-ordered map: position kept on replacement, order kept on deletion, no eviction when full |
| CookieLaws.StoreItemsRefines | src/api/http/cookies.rs:507-577 | a list of headers acts on the ordered map one header after the other, with admission, blocking and expiry stated on the map side in their own terms |
| CookieLaws.PruneRefines | src/api/http/cookies.rs:805-808 | pruning the vector is expiry on the insertion-ordered map, order kept |
| CookieLaws.ResponseRefines | src/api/http/cookies.rs:507-577 | a response over any URL acts on the ordered map alone: expiry, then the longest prefix of its headers within the byte budget |
| CookieLaws.ResponsesRefine | src/api/http/cookies.rs:507-577 | after any sequence of responses the jar is the insertion-ordered map those responses produce |
| CookieLaws.InsecureResponseKeepsSecure | src/api/http/cookies.rs:545-574 | no response over plain HTTP adds, changes, removes or reorders an unexpired secure cookie |
| CookieHeader.SortOk | src/api/http/cookies.rs:474-475 | the sort is by descending path length, stable on ties, and keeps exactly the given cookies |
| CookieHeader.DescendingUnique | src/api/http/cookies.rs:474-475 | descending order with creation order on ties determines the sequence |
| CookieHeader.HeaderReadsBack | src/api/http/cookies.rs:453-505 | splitting the header at "; " and then at the first "=" recovers every pair, in order |
| CookieHeader.EligibleExactly | src/api/http/cookies.rs:626-734 | who is sent what, by host labels, path, scheme, host-only flag and `SameSite` |
| CookieHeader.HeaderIsExact | src/api/http/cookies.rs:453-505 | the header holds exactly the cookies meant for the request, in that order, and fails for size exactly when the full text exceeds the limit |
| CookieHeader.StoredAndSent | src/api/http/cookies.rs:453-577 | an admitted header leaves its cookie in the jar, and every matching request carries its name and value |
| CookieHeader.NewcomersClear | src/api/http/cookies.rs:545-557 | whatever an insecure response leaves behind was there before or clears every secure cookie's scope |
| CookieHeader.NoShadowing | src/api/http/cookies.rs:453-574 | a cookie brought by an insecure response is always sent after a secure cookie of the same name |
| CookieJar.ValidateSnapshot | src/api/http/cookies.rs:291-310 | the validation loop accepts exactly the snapshots with version, size, unique keys and valid records |
| CookieJar.ValidatesExactly | src/api/http/cookies.rs:641-661 | which snapshots validate, with every limit and character rule spelled out |
| CookieJar.SnapshotValidates | src/api/http/cookies.rs:389-416 | every snapshot of a default-limit jar in good order passes validation |
| CookieJar.RecordSays | src/api/http/cookies.rs:389-416 | each record says of its cookie what it is |
| CookieJar.SnapshotRestores | src/api/http/cookies.rs:389-443 | restoring gives exactly the persistent cookies, in order, with their attributes |
| CookieJar.RestoredOk | src/api/http/cookies.rs:419-443 | any validated snapshot restores to a jar in good order |
| CookieJar.PruneCommutes | src/api/http/cookies.rs:389-443 | pruning when saving and again when loading, in whichever order the clock reads, equals pruning once at the later time |
| CookieJar.SortPersistent | src/api/http/cookies.rs:389-505 | ordering for a header and keeping only persistent cookies commute |
| CookieJar.HeaderCarries | src/api/http/cookies.rs:453-505 | the pairs of a header are exactly those of the live cookies meant for the request |
| CookieJar.SnapshotKeeps | src/api/http/cookies.rs:389-443 | save and load keep exactly the persistent cookies unexpired at the later time, in order, and give a jar in good order |
| CookieJar.SnapshotRoundTrip | src/api/http/cookies.rs:389-505 | after save and load every request sends exactly the persistent ones among the cookies it would have sent, in the same order |
| CookieJar.UsesKeepJarOk | src/api/http/cookies.rs:389-577 | responses, requests, exports, clears and reloads of validated snapshots, in any mix, keep the jar in good order |
| CookieJar.ReachableSnapshots | src/api/http/cookies.rs:389-577 | a jar reached by any such mix exports a snapshot that validates and restores to its persistent unexpired cookies |
| CookieJar.Jar.constructor | src/api/http/cookies.rs:362-379 | a jar holds the given limits and cookies |
| CookieJar.WithLimits | src/api/http/cookies.rs:372-378 | an empty jar with the given limits, refused exactly if one of them is zero |
| CookieJar.FromSnapshot | src/api/http/cookies.rs:419-443 | a new jar with default limits holding the unexpired records in order, refused exactly if the snapshot does not validate |
| CookieJar.Jar.SetResponseCookies | src/api/http/cookies.rs:507-577 | does to the jar exactly what the response does to the insertion-ordered map |
| CookieJar.Jar.StoreWithinBudget | src/api/http/cookies.rs:512-576 | the loop over headers stores exactly the prefix within the byte budget |
| CookieJar.Jar.CookiesForRequest | src/api/http/cookies.rs:453-505 | the incremental header loop, which gives up early, returns the header of the whole selection, whose pairs are those of the live cookies meant for the request |
| CookieJar.Jar.TakeSnapshot | src/api/http/cookies.rs:389-416 | prunes, then records every persistent cookie in order |
| CookieJar.Jar.Clear | src/api/http/cookies.rs:446-449 | empties the jar |
| TextBytes.Utf8ReadsBack | src/api/http/multipart.rs:235-236 | a strict UTF-8 decoder recovers every string |
| MultipartWire.QuotedBytes | src/api/http/multipart.rs:223-239 | quoting characters and then encoding equals encoding and then quoting bytes |
| MultipartWire.QuotingReadsBack | src/api/http/multipart.rs:223-239 | backslash quoting is invertible, whatever follows the closing quote |
| MultipartWire.QuotingCreatesNothing | src/api/http/multipart.rs:223-239 | a marker without quote or backslash that occurs in quoted bytes occurs in the bytes themselves |
| MultipartWire.QuotingKeepsMarkersOut | src/api/http/multipart.rs:223-273 | a name that passed the collision test cannot show the boundary after quoting |
| MultipartRoundTrip.StandardLabelsAreSound | src/api/http/multipart.rs:154-219 | the fixed header text meets what the decoder relies on |
| MultipartRoundTrip.LinesHaveNoCR | src/api/http/multipart.rs:206-239 | a printed header line holds no carriage return, so no name or filename can split it |
| MultipartRoundTrip.BlankFirst | src/api/http/multipart.rs:154-168 | the first blank line is the one between headers and value |
| MultipartRoundTrip.NoStraddling | src/api/http/multipart.rs:149-176 | no delimiter match runs across the real delimiter |
| MultipartRoundTrip.DelimiterFirst | src/api/http/multipart.rs:149-176 | the delimiter first occurs exactly at the value's end |
| MultipartRoundTrip.DispositionReadsBack | src/api/http/multipart.rs:206-221 | the disposition line yields its name and filename |
| MultipartRoundTrip.PartReadsBack | src/api/http/multipart.rs:153-168 | a part yields its kind, name, filename and value |
| MultipartRoundTrip.RoundTrip | src/api/http/multipart.rs:131-180 | decoding a printed form returns its parts, in order |
| Multipart.BoundariesAreGood | src/api/http/multipart.rs:275-286 | a generated boundary is nonempty and of dashes, digits and lower-case letters only |
| Multipart.BoundariesDiffer | src/api/http/multipart.rs:275-286 | different random bytes give different boundaries |
| Multipart.HexAt | src/api/http/multipart.rs:275-286 | each random byte becomes its two lower-case hexadecimal digits |
| Multipart.MakeBoundary | src/api/http/multipart.rs:275-286 | the hexadecimal loop computes that boundary |
| Multipart.ChoiceIsFirst | src/api/http/multipart.rs:131-146 | the boundary used is the first free one among the current and the drawn ones; failure tells a failed draw from eight collisions |
| Multipart.WriteQuoted | src/api/http/multipart.rs:223-239 | appends the quoted text, and fails exactly on control characters |
| Multipart.WriteDisposition | src/api/http/multipart.rs:206-221 | appends the whole disposition line, and fails exactly on control characters in name or filename |
| Multipart.WritePart | src/api/http/multipart.rs:149-169 | appends boundary line, headers, value and line end of one part |
| Multipart.WriteForm | src/api/http/multipart.rs:148-172 | the loop over parts prints the wire form, and fails exactly if some part is not printable |
| Multipart.QuotedIsEscaped | src/api/http/multipart.rs:223-239 | quoting is the UTF-8 form of the text with a backslash before each quote and backslash |
| Multipart.StandardWire | src/api/http/multipart.rs:148-239 | the wire form is the literal text of delimiters, header lines, values and closing delimiter |
| Multipart.Form.constructor | src/api/http/multipart.rs:63-68 | an empty form with a good boundary, the fallback one if randomness fails |
| Multipart.Form.AddText | src/api/http/multipart.rs:71-82 | appends a text part exactly if the name is nonempty and free of control characters |
| Multipart.Form.AddBytes | src/api/http/multipart.rs:85-97 | the same for a binary part |
| Multipart.Form.AddFile | src/api/http/multipart.rs:100-114 | the same with a filename that is a single path component |
| Multipart.Form.ChooseBoundary | src/api/http/multipart.rs:131-146 | the retry loop computes that choice |
| Multipart.Form.Encode | src/api/http/multipart.rs:131-180 | exactly when it succeeds and with which error it fails; a success is the literal text, decodes with the boundary named in its content type to exactly the parts, and forms built through the interface fail only for randomness or collision |
| Dispatch.Ticket.constructor | src/api/subscription/dispatch.rs:126-131 | a fresh ticket holds its callback |
| Dispatch.Ticket.Take | src/api/subscription/dispatch.rs:34-92 | taking the callback leaves none behind |
| Dispatch.Ticket.Start | src/api/subscription/dispatch.rs:35-42 | the locked region of `start` |
| Dispatch.Ticket.Accept | src/api/subscription/dispatch.rs:44-63 | the locked region of `accept`: the callback is taken only if the job was dropped already |
| Dispatch.Ticket.Reject | src/api/subscription/dispatch.rs:65-72 | the locked region of `reject` |
| Dispatch.Ticket.Retire | src/api/subscription/dispatch.rs:74-92 | the locked region of `retire`: the callback is taken only from an accepted, unstarted job |
| Dispatch.RunInv | src/api/subscription/dispatch.rs:34-145 | phase, holder, counts and order agree with what has happened, in every state of every run |
| Dispatch.AtMostOnce | src/api/subscription/dispatch.rs:34-145 | the callback runs at most once, and never once the job was started or the submission rejected |
| Dispatch.ExactlyOnceWhenAbandoned | src/api/subscription/dispatch.rs:34-145 | at the end it ran exactly once if and only if an accepted job was dropped unstarted, and otherwise was freed exactly once |
| Dispatch.FailureToldIffDroppedFirst | src/api/subscription/dispatch.rs:44-145 | the submitter gets the dispatch failure if and only if the drop came before its acceptance |
| Dispatch.AlwaysMoves | src/api/subscription/dispatch.rs:34-145 | some step is enabled until both sides are done, and every step uses up a bounded budget |
| WsRegistry.Registry.ReserveName | src/inner/net_impl.rs:112-123 | a closing engine or a taken name refuses and changes nothing |
| WsRegistry.Registry.CommitReady | src/inner/net_impl.rs:155-170 | a closed network refuses, otherwise the slot becomes ready |
| WsRegistry.Registry.DropRefused | src/inner/net_impl.rs:177-182 | only a slot still being created is removed |
| WsRegistry.Registry.DropFailed | src/inner/net_impl.rs:203-206 | the slot is removed whatever it holds |
| WsRegistry.Registry.StartDestroy | src/inner/net_impl.rs:340-354 | taking the slot out and putting it back equals one update: ready becomes closing, anything else stays |
| WsRegistry.Registry.ReleaseClosing | src/inner/net_impl.rs:656-673 | only a closing slot is removed |
| WsRegistry.Registry.Get | src/inner/net_impl.rs:228-247 | closed when the engine is closing, otherwise ready, busy or not found |
| WsRegistry.Registry.Drain | src/inner/net_impl/engine_shutdown.rs:216-224 | the registry is emptied and the ready workers are kept to be joined |
| WsRegistryRuns.RunInv | src/inner/net_impl.rs:102-225 | names, workers, claims, shutdown and waiters agree in every state of every run of create, destroy, cancelled destroy, cleanup and shutdown |
| WsRegistryRuns.OneLiveWorker | src/inner/net_impl.rs:102-369 | a run has at most one live worker per name in every state if and only if it never starts one under a name that a worker cleaned up from its own thread still has |
| WsRegistryRuns.SelfCleanedApart | src/inner/net_impl.rs:102-369 | of two live workers of one name, one was cleaned up from its own thread |
| WsRegistryRuns.ReuseAfterExit | src/inner/net_impl.rs:561-673 | at a reservation every worker ever started under the name has exited if and only if none of them was cleaned up from its own thread and still runs |
| WsRegistryRuns.TwoLiveWorkers | src/inner/net_impl/ws_cleanup.rs:108-127 | the counterexample: a cleanup on the worker's own thread releases the name, and a second worker lives under it |
| WsRegistryRuns.RemovesOnlyItsOwn | src/inner/net_impl.rs:177-208 | a failed create, a refused commit or a release finds its own reservation, or an emptied registry, never another operation's slot |
| WsRegistryRuns.ReadyStaysReady | src/inner/net_impl.rs:177-208 | a published client leaves the registry only by its own destruction or by shutdown |
| WsRegistryRuns.CleanupIsOwned | src/inner/net_impl/ws_cleanup.rs:40-134 | an unclaimed cleanup always has someone who will claim it, and a released name means that the worker has exited or cleaned up on its own thread |
| WsRegistryRuns.NoLostWakeup | src/inner/net_impl.rs:297-331 | a waiter asleep although its name left the transient state, or the engine is closing, has been or will be notified |
| WsRegistryRuns.OperationsGoOn | src/inner/net_impl.rs:102-369 | an operation that is not over can go on, unless it waits for its worker to exit |
| WsRegistryRuns.NamesOpen | src/inner/net_impl.rs:112-123 | a name can be reserved exactly if the engine is open and no slot holds it, and a ready client can be destroyed |
| Retry.Largest | libs/retry/src/backoff.rs:134-141 | the largest entry of a sequence, zero for none |
| Retry.GrownIsPower | libs/retry/src/backoff.rs:206-229 | repeated multiplication equals the initial delay times the power |
| Retry.ExponentialIsCapped | libs/retry/src/backoff.rs:206-229 | shortcuts included, the delay is min(initial * multiplier^(k-1), max) for every ordinal, and never an error |
| Retry.LogTestChangesNothing | libs/retry/src/backoff.rs:206-229 | comparing logarithms before exponentiating changes no delay, for any logarithm that grows and turns products into sums |
| Retry.CappedNondecreasing | libs/retry/src/backoff.rs:206-229 | later retries never wait less |
| Retry.DelayExactly | libs/retry/src/backoff.rs:56-85 | the unjittered delay of every rule and ordinal, capped power included |
| Retry.SampledExactly | libs/retry/src/backoff.rs:179-204 | the delay every sample gives under every jitter rule |
| Retry.MaximumIsReached | libs/retry/src/backoff.rs:134-141 | the maximum of a rule is a delay it asks for, or the cap of an exponential one |
| Retry.DelayWithinMaximum | libs/retry/src/schedule.rs:88-96 | every allowed ordinal has a delay within the rule's maximum, entry k for a sequence |
| Retry.SampledWithinBound | libs/retry/src/schedule.rs:98-105 | for a built schedule every allowed ordinal and every sample give a delay within the bound checked at build time |
| Retry.BuildsExactly | libs/retry/src/schedule.rs:152-166 | the builder accepts exactly the well-formed schedules whose longest possible wait fits the clock |
| SplitMix.UnitOf | libs/retry/src/state.rs:162-170 | every generator value lands in the half-open unit interval |
| SplitMix.KnownOutputs | libs/retry/src/state.rs:162-170 | the published first outputs of SplitMix64 |
| SplitMix.KnownUnits | libs/retry/src/state.rs:162-170 | how the top 53 bits are read as a fraction |
| SplitMix.WithSeed | libs/retry/src/state.rs:66-75 | the state an operation starts from runs on this generator and the given seed |
| RetryState.State.constructor | libs/retry/src/state.rs:66-75 | the given schedule, clock range, generator and seed; nothing counted, nothing pending, not stopped |
| RetryState.State.BeginAttempt | libs/retry/src/state.rs:82-95 | reserves one attempt or refuses without a change |
| RetryState.State.NextUnit | libs/retry/src/state.rs:162-170 | advances the generator once and samples the new state |
| RetryState.State.NextDelay | libs/retry/src/state.rs:104-118 | samples once per attempt and then repeats the pending delay |
| RetryState.State.RecordTransportSend | libs/retry/src/state.rs:120-132 | counts one send, with overflow refused |
| RetryState.State.FinishWith | libs/retry/src/state.rs:135-142 | selects the first reason only |
| RetryState.AttemptsNumbered | libs/retry/src/state.rs:82-95 | over any calls attempts are numbered one by one and never exceed the limit |
| RetryState.CountsAreReplies | libs/retry/src/state.rs:82-132 | the counters equal the granted attempts and counted sends |
| RetryState.DelayServed | libs/retry/src/state.rs:104-118 | after any calls on a built schedule: which reply a delay read gets, and exactly the rule's delay stretched by the sample drawn for it |
| RetryState.NoScheduleError | libs/retry/src/state.rs:104-118 | no call on a built schedule is ever answered with a schedule error |
| RetryState.RepeatedReads | libs/retry/src/state.rs:104-118 | between two attempts the generator stands still and the pending delay stays, whatever else is called |
| RetryState.SameSample | libs/retry/src/state.rs:104-118 | every later read in that time returns that same sample, or none once finished |
| RetryState.OneDrawPerAttempt | libs/retry/src/state.rs:104-118 | over any calls the generator has advanced at most once per attempt, and fewer times while the delay after the latest attempt is still to be drawn |
| RetryState.FrozenAfterStop | libs/retry/src/state.rs:82-142 | after the first terminal reason no call changes anything, and how each is refused |

## Left out

- Failed allocations (`try_reserve`), lock poisoning, logging and test-only hooks.
- The insides of OS threads, Tokio tasks, channels and condition variables: a join returns after the thread is over, a blocked send keeps its order, and `Notify` wakes exactly those registered.
- Fairness and scheduling: the progress theorems say that a step is enabled and, where a measure is given, that such steps run out; not that a step is taken.
- `PoolOwner::drop`, `ExecutionScope` nesting across threads, and the process-wide reaper that publishes shutdown completion.
- BearerAuth.OneRefreshPerGeneration: assumes that the generation a request carries came from the same provider, as `set_credential_generation` provides.
- BearerAuth.StuckExactly: a source call in progress counts as able to report, since its future is opaque; the generation counter saturates at 2^64 - 1 as in the code.
- Static and basic credentials (for which refreshing is switched off), token text validation and header marking.
- Cookie text parsing, host parsing and the public-suffix list, which enter as answers with the contract `CookieLaws.LibraryOk`; serde decoding of snapshots.
- CookieLaws.JarStaysOk: relies on that contract for canonical hosts, default paths and timestamps.
- Multipart file reading from disk and the `Debug` rendering.
- Multipart.Form.Encode: requires a nonempty boundary, since scanning with an empty one stops the program; every constructed form has one.
- Dispatch.AlwaysMoves: unwinding inside a callback is caught by the code and is not a step of its own here.
- WsRegistryRuns.OneLiveWorker: client handles, connection state and the worker's own protocol are not modelled; a worker is alive until it exits at any moment. Destroying is allowed even after closing began, which only adds runs.
- Retry.SampledWithinBound: durations, factors and logarithms are real numbers, so `f64` rounding and nanosecond truncation are not modelled, and the clock's range is one fixed bound.
- HTTP, TLS, redirects, the HTTP client registry, network status, quality diagnostics and the retry classifier are not part of this model.
