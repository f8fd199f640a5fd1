# Verification of the key-pool gateway

A Dafny model of the gateway's scheduler, of the pools it shares between requests, of the relational
store they are mirrored into, and proofs about them that hold on every run.

## What is modelled

- **The engine** (`Engine`). Any number of forwarded requests, each a small state machine: wait for the
  platform permit, select an account with its proxy, count the exit IP, wait for the account permit,
  send, perform the effects of the answer one at a time, then retry or return. A request holds at
  most one account permit at a time, by the shape of its states. Requests interleave with
  one another, with synchronization, resets, balance refreshes, probes and every administrator's
  handler, and with a clock that never runs backwards. Upstream answers are arbitrary. `Boot` is
  start-up. A recorded call and a revocation are split into their memory and store halves.
- **The pools** (`PoolState`, class `Pools`) and the **store** (`Database`): maps with the schema's
  constraints, ids never reused, foreign keys with SET NULL and CASCADE, one proxy per
  (group, host, port). Functions on the value `State` specify the methods of `Pools`; the engine
  uses the same functions.
- **Selection** and its diagnosis, **binding**, **synchronization**, the **administrator's handlers**
  (`Admin`, `Operating`), **probing**, **paging**, the **session cookie**, the **client cache** and the **status codes**.
- **The forward loop on its own** (`Forwarding`, `SoloForward`): the loop as a method, proved against a
  bounded retry of one attempt; `SoloRuns` shows that it is one of the engine's interleavings.

What each operation does is stated column by column, in the figures and code ranges of the source, and
apart from the definitions that compute it: who can serve (`Serving`), what each answer leads to
(`Answers`), what a synchronization, a binding and each handler leave behind (`SyncColumns`,
`BindColumns`, `Handlers`, `Switching`), what a list shows (`PagedColumns`), start-up (`StartUp`).

Main results: exact exit-IP counters (`ExitIps`), a tight bound on quota overshoot (`Quota`,
`QuotaReached`), permits and absence of deadlock (`Concurrency`), everybody finishes (`Completion`), one
proxy through both copies (`Copies`, `CopyRuns`), one status in both and across a restart
(`StatusRuns`), one log row per attempt (`History`), conservation of successes between quota, logs and
tokens (`Accounting`, `Conservation`, `LogRuns`) and when a row is lost (`RowFate`), revocation, reset
spacing, disabled proxies and back-offs (`Lifecycle`, `ProxyLife`, `BackOffs`), which account a retry is on
(`SoloForward`, `ServerErrors`), exact and idempotent synchronization (`SyncTheorems`), balanced binding
in the lowest-numbered group (`Binding`, `LinkOrder`), paging while the gateway is at work (`Paging`,
`PagedRuns`). Runs that show a bound reached or a promise missed (`Departures`, `QuotaReached`,
`Endless`, `RowFate`, `BackOffs`) start at the smallest gateway (`Demo`) and are put together from
single steps (`Steps`, `Scenes`).

## Where code and documentation differ

The model follows the code.

- `README.md:41` says a revoked account is out for good; `src/sync.rs:321` makes every due account
  healthy again (`Copies.ResetRevives`, `Lifecycle.OperationRevivesIff`, `Departures.RevokedIsPickedAgain`).
- A revocation can also be undone by a restart: `src/pools.rs:204-216` writes to the store a status it
  read before (`Departures.LateRecordUndoesRevocation`), and in the same way an enabling can be lost
  (`Departures.EnablingIsLost`). `StatusRuns.StatusesAgreeWhenSettled` and `StatusRuns.OutAcrossRestart`
  say when not.
- `README.md:43` says a 5xx switches account; `src/scheduler.rs:309-323` excludes nothing, so the
  next attempt is on the same account (`SoloForward.TriedAgainIff`, `ServerErrors.ServerErrorChoosesTheSame`,
  `ServerErrors.ServerErrorsTryOneAccount`).
- `src/sync.rs:179-180` speaks of the least bound proxy in the union of the groups; the loop at
  `src/sync.rs:222-236` takes that of the first group with an available proxy (`Binding.UnionLeastIff`).
- `src/scheduler.rs:343-345` speaks of another proxy after a failure; it can be the same one
  (`Binding.RebindMayStay`, `Departures.StaysOnItsProxy`).
- `src/scheduler.rs:438` says that a probe binds by the registration IP; the bind it calls asks for
  none (`Handlers.BindAsksForNoIp`), and so does the rebinding after a failure (`Answers.NoAnswerBindsAnew`).
- `src/pools.rs:206` adds 1 to the store's failure counter on success too
  (`Copies.FailureCountersAgreeIff`, `Departures.FailureCountersPart`).
- A Retry-After of zero or less is no back-off (`SoloForward.TriedAgainIff`), and a later back-off
  overwrites an earlier, longer one (`BackOffs.StepBarsIff`, `BackOffs.ShorterBackOffWins`).
- With `max_retries` at the u32 maximum the retry counter wraps: the request never ends as exhausted
  (`Concurrency.MaximalRetriesNeverExhaust`) and can make any number of attempts
  (`Endless.AnyNumberOfAttempts`). Below the maximum its steps are bounded
  (`Concurrency.OwnStepsAreBounded`, `Completion.EveryoneFinishes`).
- A log row that refers to a deleted row is dropped without notice (`RowFate.RowIsWrittenIff`,
  `RowFate.ARowIsLost`).

## Model

| member | source | states |
|---|---|---|
| ExitIps.CountersAreExact | src/pools.rs:148-161 | In every interleaving from start-up each `busy_exit_ips` counter equals the attempts between their increment and their decrement, so the `*c > 0` guard never meets a zero it should not, and with every request finished all counters are 0 |
| ExitIps.MoveTookIp | src/scheduler.rs:192-226 | Of all steps of a request only the increment makes it a holder of its exit IP, and only the matching decrement ends that |
| ExitIps.RequestIp | src/scheduler.rs:193-226 | Every step of a request moves a counter by exactly what it moves the number of holders, including the decrement on the failure path |
| Quota.OvershootIsBounded | src/pools.rs:128-133 | With a fixed limit L >= 1 and P platform permits, every run keeps quota_used + attempts selected and unrecorded <= L - 1 + P, through concurrent selections, resets and deletions, if it held at the start |
| Quota.OvershootFromStart | src/pools.rs:128-133 | So from start-up, for every loaded account of a registered platform below limit + permits: it stays below |
| Quota.SelectHasRoom | src/scheduler.rs:170-192 | At a selection the account is below its limit and the selecting request holds a platform permit that no unrecorded attempt on the account uses |
| Quota.MoveUnrecorded | src/pools.rs:185-203 | Only a selection adds an unrecorded attempt, and the memory half of a recorded success always removes one |
| Quota.ApplyKeepsSlot | src/sync.rs:319-333 | No operation but a change of the limit raises quota_used or changes platform or limit of an existing slot |
| QuotaReached.BoundIsReached | src/pools.rs:128-133 | For every L >= 1 and every configured maximum some run from start-up, on a store with quota_used = L - 1 and with 3 permits for the account, ends with all requests finished and quota_used = L + P - 1: the bound is tight |
| Concurrency.PermitsBoundEveryRun | src/scheduler.rs:170-203 | On every run from start-up the requests past the wait for a platform and not finished are at most max(1, its configured maximum) on each of the four platforms, and the attempts sending or settling on an account that is not deleted at most its permits |
| Concurrency.PlatformStep | src/scheduler.rs:170-178 | Every event of the engine keeps the platform semaphores within their capacity and every unfinished request on a platform that has one |
| Concurrency.AccountStep | src/scheduler.rs:197-203 | Every event keeps every account semaphore, also of deleted accounts, within its capacity; an attempt without a permit is on a deleted account |
| Concurrency.BootPermits | src/pools.rs:42-65 | Start-up leaves a well-formed store in a state that satisfies the permit invariants |
| Concurrency.NeverStuck | src/scheduler.rs:170-203 | From a state keeping the permit invariants, if any request is unfinished some request can step: waiting for the platform, then for the account, never closes a cycle |
| Concurrency.NoReachableDeadlock | src/scheduler.rs:155-358 | No state reachable from start-up is deadlocked |
| Concurrency.StepUsesWork | src/scheduler.rs:350-357 | Every step of an admitted request uses up part of a bound on its remaining work when max_retries is below the u32 maximum |
| Concurrency.OwnStepsAreBounded | src/scheduler.rs:350-357 | So an admitted request takes a bounded number of its own steps whatever the others do |
| Completion.EveryoneFinishes | src/scheduler.rs:155-358 | After any run from start-up, with max_retries below the u32 maximum and no further arrivals, the requests together take at most as many steps as work was left, whatever administrators, tasks and the clock do meanwhile, and when none can step all are finished |
| Completion.WayToFinish | src/scheduler.rs:155-358 | And from each such state there is a sequence of request steps alone that finishes them all |
| Completion.ClosingStep | src/scheduler.rs:350-357 | Each step of a request lowers the total work left, and no operation, tick or other request's step raises it |
| Concurrency.MaximalRetriesNeverExhaust | src/scheduler.rs:350-357 | On no run from start-up does a request whose max_retries is the u32 maximum end as exhausted: its counter wraps |
| StartUp.StartsAsStored | src/pools.rs:42-94 | Start-up loads every account whose key decrypts, each column from its row and 3 permits for each, and every proxy; the four platforms get max(1, configured maximum) permits; nobody is backed off and no exit IP is busy |
| StartUp.AttemptsWithinSetting | src/scheduler.rs:350-357 | On every run from start-up a request admitted while `max_retries` is v (below the u32 maximum) makes at most max(0, v) + 1 attempts, whatever the setting becomes |
| Endless.AnyNumberOfAttempts | src/scheduler.rs:350-357 | With max_retries at the u32 maximum there is for every n a run from start-up on which one request has made n attempts and is not finished; below it the work is bounded |
| Engine.ApplyRuntime | src/pools.rs:97-109 | Operations never touch exit-IP counters or back-offs, never change an existing platform permit, and give account permits only with a fresh id |
| Engine.PatchPlatformOnly | src/api_admin.rs:165-239 | Reconfiguring a platform changes of the accounts only bindings, and keeps the first configured maximum of every platform permit |
| Engine.PerformRuntime | src/scheduler.rs:227-358 | No effect of a request changes permits, ids or the set of loaded accounts, and only the release changes exit-IP counters |
| History.FinishedRequests | src/scheduler.rs:227-358 | On every run a finished request (max_retries below the u32 maximum) has submitted one log row per attempt with retry_count 0, 1, ..., k; only the last can be a success; it returns a response exactly when the last outcome is Success or OtherError; exhaustion means max_retries + 1 attempts |
| History.RequestKeepsHistory | src/scheduler.rs:227-358 | Every step of a request keeps the relation between its endings, its submitted rows and its result |
| Accounting.QuotaCountsSuccesses | src/pools.rs:185-217 | Without resets, and while the account exists, memory and store quota_used each grow by exactly the upstream successes of the run, counting records still to be made |
| Accounting.MemoryAheadByCallsInBetween | src/pools.rs:185-217 | Splitting record_call into its halves, memory quota_used = store quota_used + calls between the two halves, on every such run |
| Accounting.MemoryAheadFromStart | src/pools.rs:42-94 | So from start-up, for every loaded account |
| Accounting.AccountEffects | src/scheduler.rs:232-252 | An answer causes the memory count, the store count and a successful log row of an account all together, exactly on a success of that account |
| Accounting.TokenEffects | src/scheduler.rs:234-252 | It causes the token count and a successful row of a token exactly on a success of a request of that token |
| Accounting.ApplyKeepsUsed | src/api_admin.rs:507-560 | No operation but a reset or the account's deletion changes its quota_used in either copy |
| Conservation.LogsCountSuccesses | src/pools.rs:227-255 | On every run that deletes no row an unfinished request refers to and no log rows (resets and other deletions are fine), the successful log rows of an account that is not deleted grow by exactly its upstream successes, counting rows still to be written |
| Conservation.TokensCountSuccesses | src/pools.rs:219-225 | On every such run the call count of a token that is not deleted and its successful log rows both grow by exactly the successes of its requests |
| Conservation.GrowthIsEqual | src/pools.rs:185-255 | Between two moments with no request at work, without resets in between, successful rows of an account, its store quota_used and its memory quota_used grow equally, and so do the successful rows and the call count of a token |
| Conservation.SoundStep | src/db.rs:245-260 | Every event that deletes no row in use keeps each unfinished request referring only to rows that exist, besides the agreement of the copies |
| Conservation.FirstLogAccepted | src/pools.rs:227-255 | Then no log insert of a request fails on a foreign key |
| Conservation.BootSound | src/pools.rs:42-94 | Start-up satisfies every invariant the conservation theorems start from |
| LogRuns.EveryRowIsWritten | src/pools.rs:227-255 | On every such run each submitted row is in the log, in the order of submission and under consecutive ids, up to references set to NULL since; no older row is lost |
| RowFate.RowIsWrittenIff | src/pools.rs:227-255 | On every run a submitted row is written exactly when no event since the request's selection deleted its account or proxy and none since its arrival deleted its token; otherwise nothing changes, and nobody notices |
| RowFate.ARowIsLost | src/scheduler.rs:232-252 | A run from start-up with the proxy's group deleted between record and log: quota_used is 1 in both copies and the log is empty |
| LogReferences.ReferencesAreExact | src/db.rs:245-260 | On every run a row that is still in the log keeps each reference to an account, proxy or token exactly as long as that row is in the store, and every other column; rows written since refer to what is there |
| Deletions.AccountLivesIff | src/api_admin.rs:549-560 | An account is in the store after a run exactly when no event of the run deleted it; a deleted id never comes back |
| Deletions.ProxyLivesIff | src/api_admin.rs:653-663 | A proxy is in the store after a run exactly when no event deleted its group or synchronized it with a list that lacks its address |
| Deletions.TokenLivesIff | src/api_admin.rs:843-855 | A token is in the store after a run exactly when no event of the run deleted it |
| Tables.RunStep | src/db.rs:183-262 | Over any run the tables of accounts, proxies, tokens and logs gain rows under fresh ids only |
| BackOffs.BackOffHolds | src/pools.rs:123-127 | On every run an account backed off until T is selected by nobody before T as long as no back-off that ends earlier is recorded for it |
| BackOffs.StepBarsIff | src/pools.rs:164-166 | One event ends the exclusion before T exactly when it records a back-off of the account that ends before T, overwriting the longer one |
| BackOffs.ShorterBackOffWins | src/scheduler.rs:292-346 | For every n > 30 (as far as chrono can represent the time n seconds ahead) a run from start-up with two requests on one account, one rate limited for n seconds, the other failing to send: the account is selected again after 30 seconds |
| Lifecycle.OutUntilRevived | src/pools.rs:120-122 | On every run a revoked, disabled or deleted account stays out and is never selected until it is enabled, probed with success, or due at a reset |
| Lifecycle.OperationRevivesIff | src/api_admin.rs:535-547 | An operation brings an account that is out back exactly when it is enabling it (or a successful probe) or a reset at which it is due |
| Lifecycle.EffectsNeverRevive | src/pools.rs:191-203 | No effect of any request under way brings it back, in particular not a late record_call(true) |
| ProxyLife.OffUntilSwitchedOn | src/sync.rs:68-80 | On every run a proxy disabled by hand (or gone) is used by no selection until it is enabled explicitly: a synchronization that lists it refreshes it but leaves it disabled, and no new row takes its id |
| ProxyLife.SyncKeepsOff | src/sync.rs:68-80 | A synchronization does not re-enable a disabled proxy |
| Switching.SwitchExactly | src/api_admin.rs:726-751 | Enabling or disabling a proxy sets the status of its row, and of its entry if there is one, and changes nothing else |
| Switching.DisabledUntilEnabled | src/api_admin.rs:726-751 | On every run from start-up no selection after the disabling of a stored proxy uses it before it is enabled again |
| Switching.EnabledServes | src/api_admin.rs:739-751 | Once it is enabled, every account on call that is bound to it can serve |
| Switching.OffAndOnAgain | src/api_admin.rs:726-751 | On one run from start-up the proxy is selected, disabled, not selected, enabled and selected again |
| Lifecycle.ResetPass | src/sync.rs:311-335 | After a pass every account's reset_at is later than now; accounts not due are unchanged in both copies; due ones are zeroed and next due in 30 days |
| Handlers.ResetStartsAfresh | src/sync.rs:311-335 | Exactly the accounts whose reset time has come get quota_used 0, status healthy, no failures and a reset time 30 days from now, in both copies; the others stay as they are |
| Lifecycle.ResetsAreSpaced | src/sync.rs:311-335 | On every run two resets of the same account are at least 30 days apart |
| Lifecycle.RefreshKeepsResetAt | src/sync.rs:294-305 | The balance refresh never overwrites a reset_at that is set |
| Handlers.RefreshFillsIn | src/sync.rs:294-305 | A balance refresh fills in a reset time that is not set, in the store alone |
| Lifecycle.ApplyKeepsResetAt | src/sync.rs:294-335 | No operation but a reset changes a reset_at that is set |
| CopyRuns.SameProxyOnEveryRun | src/sync.rs:239-250 | In every interleaving from start-up, each loaded account leads to the same proxy, or to none, through memory and through the store |
| CopyRuns.SyncWindow | src/sync.rs:138-161 | Between dropping a group's memory proxies and putting the last back, a loaded account leads nowhere through memory exactly when the store binds it to a proxy of the group that is not back yet, and to the same proxy both ways otherwise |
| CopyRuns.RefilledIsReloaded | src/sync.rs:138-161 | With all of them back that is the state after the reload |
| StartUp.ProxiesShownOnEveryRun | src/sync.rs:138-161 | On every run from start-up memory shows exactly the store's proxies: group, host, port, user name, password, exit IP and status |
| Copies.CopiesAgreeOnEveryRun | src/pools.rs:169-217 | Through every run of whole operations and whole recorded calls, memory and store agree on status, quota_used, quota_limit and resolved proxy of each loaded account |
| Copies.MirroredResolves | src/sync.rs:138-161 | When the two copies are mirrored (a memory id may be stale, but only of a row that is gone) each loaded account leads to the same proxy both ways |
| Copies.ApplyMirrors | src/api_admin.rs:507-663 | Every operation (sync with deletions, group deletion, proxy enable/disable, account patch, bind, ...) keeps that relation |
| Copies.ApplyAgrees | src/sync.rs:311-335 | Every operation keeps status, quota_used and quota_limit equal in both copies |
| Copies.PatchAgrees | src/api_admin.rs:507-533 | Every patch keeps them equal, in particular the limit: COALESCE in the store and the conditional write in memory do the same for absent, null and given values |
| Copies.SyncMirrors | src/sync.rs:93-115 | A synchronization with deletions keeps both copies leading to the same proxy |
| Copies.DroppedBindings | src/db.rs:205-218 | ON DELETE SET NULL against a memory binding left in place: the stale id is of a row that is gone and below the next id |
| Copies.DeleteGroupMirrors | src/api_admin.rs:653-663 | Deleting a group, cascading in the store and retained by group in memory, keeps both copies leading to the same proxy |
| Copies.PatchMirrors | src/api_admin.rs:507-533 | Patching an account, where null leaves the store's column as it is, keeps the copies leading to the same proxy |
| Copies.FailureCountersAgreeIff | src/pools.rs:185-217 | From agreement, one recorded call leaves the failure counters agreeing exactly when the call failed (the store adds 1 on success too) |
| Departures.FailureCountersPart | src/pools.rs:204-216 | A run from start-up with one successful call: the counter is 0 in memory and 1 in the store |
| Copies.ResetRevives | src/sync.rs:319-332 | After a reset an account is revoked exactly when it was and was not due: revocation is not for ever |
| Departures.RevokedIsPickedAgain | src/sync.rs:319-332 | A run from start-up on which a 401 revokes the account, a reset passes, and the same request selects it again |
| StatusRuns.StatusesAgreeWhenSettled | src/pools.rs:169-217 | On every run from start-up on which no event changes an account's memory status between the moment a request reads it (or writes a revocation to memory) and that request's store half, both copies show one status whenever no store half is outstanding |
| StatusRuns.InStepIff | src/pools.rs:169-217 | From such a state one event keeps every outstanding store half at the status memory shows, and the copies equal when none is outstanding, exactly when it does not change the memory status under a settled store half; every event and effect is covered |
| StatusRuns.EventPartsIff | src/pools.rs:169-217 | Two copies that agree are parted by one event exactly when it is the memory half of a revocation or of a first success, or a store half that writes a status memory no longer shows; no operation, an administrator's change of status included, parts them |
| StatusRuns.OutAcrossRestart | src/pools.rs:42-94 | On every such run a revoked or disabled account is still out after a restart, and no run of the restarted gateway selects it before it is revived |
| Departures.LateRecordUndoesRevocation | src/pools.rs:204-216 | Otherwise it need not be: a run from start-up on which a late `record_call(true)` writes the status read before another request's revocation; the restarted gateway has the account healthy and selects it |
| Departures.EnablingIsLost | src/scheduler.rs:274-291 | A run from start-up on which an administrator enables the account between the two halves of its revocation: memory shows it healthy, and after a restart it is revoked |
| Sync.Synchronize | src/sync.rs:48-117 | The loops of upsert, prune, reload and rebind carry out `SyncGroup`, and nothing changes without a group or a subscription |
| Sync.UpsertRows | src/sync.rs:65-91 | The upsert loop applies every entry in order and collects the keys present |
| Sync.Prune | src/sync.rs:93-106 | The prune loop deletes exactly the group's rows whose key is not present, setting references to NULL |
| Sync.ReloadGroup | src/sync.rs:138-161 | Memory keeps the other groups' proxies and takes the store's rows of this group |
| Sync.RebindNull | src/sync.rs:163-177 | Every unbound account of the group's platforms is bound in turn, with its registration IP |
| Sync.KeyTextInjective | src/sync.rs:67 | Two addresses with the same `host:port` text are the same address, whatever the host contains |
| Sync.PresentExact | src/sync.rs:65-67 | A key is present exactly when its address is in the subscription |
| Sync.UpsertAllExact | src/sync.rs:65-91 | Upserting keeps ids, keys and statuses of existing rows, adds available rows under fresh ids, and leaves every subscribed address with user name, password, country and exit IP of its last entry |
| SyncTheorems.SyncReconciles | src/sync.rs:65-116 | After a synchronization the group's (host, port) set is the subscription's; a surviving row keeps id, key and status (a disabled one is not re-enabled) and its accounts; other groups' rows are untouched; new rows are available under fresh ids |
| SyncTheorems.SyncMirrorsGroup | src/sync.rs:138-161 | Memory then equals the store for the group and is as before for the others |
| SyncTheorems.SyncTwiceIsOnce | src/sync.rs:48-117 | Synchronizing the same list again changes nothing at all, in store or memory |
| SyncTheorems.RebindingIsComplete | src/sync.rs:163-177 | Afterwards an account of a linked platform is unbound in the store only if none of that platform's groups has an available proxy |
| SyncTheorems.PruneExact | src/sync.rs:98-106 | A row is pruned exactly when it is in the group and not subscribed to |
| SyncColumns.SyncedRow | src/sync.rs:65-161 | After a synchronization every row of the group, and its memory entry, has the user name, password, country (the row alone) and exit IP of the last entry for its address; an old row keeps address and status, a new one is available |
| SyncColumns.SyncedAccount | src/sync.rs:98-177 | An account bound to a proxy that stays keeps it; otherwise it is bound to a proxy on offer if its platform is linked to the group and there is one, else to none; no other column changes |
| SyncColumns.SyncedAddress | src/sync.rs:65-91 | Every address of the subscription has a row in the group |
| SyncColumns.SyncKeepsRegistrationIp | src/sync.rs:163-219 | An account that lost its proxy in a synchronization, or had none, is bound to a proxy that leaves through the IP it was registered from, if one is available in its platform's groups |
| Binding.Bind | src/sync.rs:181-251 | The two loops over the linked groups carry out `BindAccount` in store and memory |
| Binding.ChoiceMeaning | src/sync.rs:200-236 | A choice is an available proxy of a linked group, exists exactly when there is one, has the registration IP whenever such a proxy exists, and is otherwise of least load in its group |
| BindColumns.ChoiceExactly | src/sync.rs:191-236 | A proxy is chosen exactly when one of the platform's groups has an available one, and then it is the first in group and id order with the registration IP, or, if there is none, the first of the least bound in the lowest-numbered group that has an available one |
| BindColumns.BindExactly | src/sync.rs:181-251 | Binding writes that choice to the account's row and to its slot and changes nothing else; with none on offer it changes nothing |
| Binding.FirstMatchExact | src/sync.rs:200-219 | The first loop finds a proxy with the registration IP in the linked groups, or there is none |
| Binding.FirstLeastExact | src/sync.rs:220-237 | The second loop takes the least loaded proxy, lowest id first, of the first group that has an available one |
| Binding.LeastLoaded | src/sync.rs:223-231 | Of the available proxies of a group, least load first and lowest id among equals; None only if the group has none |
| Binding.ExitMatch | src/sync.rs:204-212 | An available proxy of the group with that exit IP, or None if there is none |
| Binding.BindAllBalanced | src/sync.rs:220-250 | Any sequence of binds of unbound accounts keeps every group's gap of loads within max(initial gap, 1) |
| Binding.RebindWithinGroup | src/sync.rs:220-250 | A rebind within the group moves one account, keeps the total of the group's loads, and lifts no load above max(old maximum, old minimum + 1) |
| Binding.RebindMayStay | src/scheduler.rs:343-345 | After a failure the account keeps its proxy, against the comment, exactly when no group has an available proxy or its own is the least one of the first group that has |
| Departures.StaysOnItsProxy | src/scheduler.rs:326-348 | A run from start-up on which a send fails and the account is bound to the proxy it had, in both copies |
| Binding.UnionLeastIff | src/sync.rs:179-236 | The choice is least loaded in the union of the groups, as the comment says, exactly when no later group holds a less loaded available proxy than all of the first served one's |
| Binding.UnionIsNotSearched | src/sync.rs:179-236 | A concrete store where the union's least loaded proxy is not taken |
| LinkOrder.LowestGroupOnEveryRun | src/sync.rs:191-236 | On every run from start-up the first served group is the one with the lowest id, because the primary key of the link table keeps each platform's groups in ascending order: without a registration IP the choice is in the lowest-numbered linked group with an available proxy, and there is one exactly when some group has one |
| LinkOrder.RunKeepsOrder | src/db.rs:182-186 | Relinking, group deletion and everything else keep that order |
| Selection.Select | src/scheduler.rs:63-99 | Sort and two rounds, isolation on or off, return the one answer of the specification `Choose` |
| Selection.ChoiceIsLeastBusy | src/scheduler.rs:63-99 | The choice is schedulable with an available proxy, none such is less busy (a busy exit IP only when all are busy), and none is returned exactly when no schedulable account has an available proxy |
| Serving.ChoiceServes | src/scheduler.rs:63-99 | Somebody is selected exactly when an account of the platform is loaded, healthy or pending, not backed off beyond now, below its limit if it has one, and bound to an available proxy; and then it is the first of those with the least traffic on their exit IP |
| Serving.UploadIsSelected | src/api_admin.rs:341-420 | On every run from start-up an account uploaded with a key, with no limit or a positive one, for a platform that has an available proxy, can serve at once: the next selection on that platform finds somebody |
| Selection.BestIsLeast | src/scheduler.rs:68-76 | Of the candidates with an available proxy, least busy, and the first of equals in the stable order |
| Selection.SortedFirstIsBest | src/scheduler.rs:68-98 | Taking the first ready candidate after a stable sort by busy count is that specification |
| Selection.DiagnosisIsTrue | src/scheduler.rs:115-152 | When nothing is selected the reason given is true of the same snapshot; the last case holds only when every candidate is bound, each to a missing or unavailable proxy |
| Serving.RefusalTellsWhy | src/scheduler.rs:115-152 | The diagnosis is the first that holds, in the snapshot it reads, of: no linked group, no account in the store, none on call, some on call unbound (and how many), the proxies |
| Serving.SelectionStep | src/scheduler.rs:182-190 | The selecting step goes on with the account of `Serving.ChoiceServes` if anybody can serve, else to the diagnosis, and changes nothing else |
| Serving.RefusalStep | src/scheduler.rs:184-189 | A request that found nobody ends with that diagnosis, of the moment it is made |
| PoolState.CandidatesExact | src/pools.rs:112-137 | The candidates are exactly the schedulable accounts, each once |
| SoloForward.Forward | src/scheduler.rs:155-358 | The retry loop, run alone, ends in the state, attempts and result of the specification `Solo`, and rejects unknown platforms and platforms without a permit unchanged |
| SoloForward.SoloShape | src/scheduler.rs:180-357 | At most max_retries + 1 attempts, only the last can be final, a response exactly when it is, otherwise exhausted or nobody left |
| SoloForward.NeverTriedAgain | src/scheduler.rs:274-346 | An account whose attempt ended in revocation, or in a failure or rate limit whose back-off is not over, is not tried again by the request |
| SoloForward.TriedAccountsAreDistinct | src/scheduler.rs:274-346 | If all failures are of these kinds and the back-offs outlast the request, the accounts tried are pairwise distinct |
| SoloForward.TriedAgainIff | src/scheduler.rs:274-346 | After an attempt that does not end the request its account can be tried again at t exactly when the code was 500 to 599, or it was not in the revoke list and the recorded back-off is over (which a Retry-After of 0 or less is at once) |
| ServerErrors.ServerErrorChoosesTheSame | src/scheduler.rs:309-325 | After a code from 500 to 599 whatever selection comes next picks as if the attempt had not been made, on every platform, at every time and in every iteration order |
| ServerErrors.ServerErrorsTryOneAccount | src/scheduler.rs:309-357 | If the upstream answers with codes from 500 to 599 throughout and no back-off ends meanwhile, a request spends all its max_retries + 1 attempts on one account through one proxy, however many others there are |
| Answers.ServerErrorIsRetried | src/scheduler.rs:309-325 | A code from 500 to 599, whatever the lists say: logged and retried; accounts, back-offs and tokens stay as they are |
| Answers.SuccessIsPassedOn | src/scheduler.rs:232-258 | A code from 200 to 299, whatever the lists say: passed on, quota counted once in both copies, the token once, logged as a success |
| Answers.RevokeCodeRevokes | src/scheduler.rs:274-291 | Any other code in the revoke list, in the rate list or not: the account is revoked in both copies, the row logged, the request retried |
| Answers.RateCodeBacksOff | src/scheduler.rs:292-308 | A code in the rate list alone: the account is backed off for the seconds named and nothing else changes, the row is logged, the request retried |
| Answers.RateCodeWithoutHeader | src/scheduler.rs:101-111 | Without a Retry-After: for 30 seconds |
| Answers.OtherCodeIsPassedOn | src/scheduler.rs:259-273 | Every other code: passed on, counted as a failure in both copies, not against quota or token, logged |
| Answers.NoAnswerBacksOff | src/scheduler.rs:326-348 | No response: only the binding of the account can change, it is backed off for 30 seconds, the row is logged without a code, the request retried |
| Answers.NoAnswerBindsAnew | src/scheduler.rs:343-345 | And it is bound, in both copies, as an account without registration IP is, if its platform has a proxy on offer |
| Answers.CodeDecides | src/adapter.rs:89-102 | A response is passed on exactly when its code is 200 to 299, or neither 500 to 599 nor in a list; otherwise the request is retried, or exhausted |
| Answers.RetryAfterMeaning | src/scheduler.rs:101-111 | A 64-bit number of seconds is taken, with blanks around it or not; an absent, blank or unreadable header counts as 30 |
| Retrying.RetryShape | src/scheduler.rs:180-357 | Shape of any such loop: attempts bounded, only the last final, early end only when final or nothing to try |
| Retrying.RetryPersists | src/scheduler.rs:180-357 | A loop whose attempts always succeed in being made, are never final and are all of one kind makes every attempt it may |
| SoloRuns.ForwardIsARun | src/scheduler.rs:155-358 | With every other request finished, some interleaving of the engine in which only this request and the clock move ends in the state, the result and the endings of `Forward`: both models of the loop agree |
| SoloRuns.AttemptAlone | src/scheduler.rs:180-348 | One attempt of the sequential model is a run of the engine's steps from selection to settling |
| Forwarding.Settle | src/scheduler.rs:216-348 | The statements after an answer, in order, have the effect of performing the answer's effect list |
| Forwarding.PerformRecord | src/pools.rs:185-217 | The two halves of a recorded call with nothing in between are the whole record_call |
| Forwarding.PerformStatus | src/pools.rs:169-182 | The two halves of a status change with nothing in between are the whole set_status |
| Forwarding.PerformFailure | src/scheduler.rs:326-348 | After a failed send: the row is logged, then the account is bound anew without its registration IP, then backed off for 30 seconds |
| Forwarding.PerformRateLimit | src/scheduler.rs:292-308 | After a rate limit: the account is backed off for the time named, whatever back-off it had, and the row is logged |
| Forwarding.SettleSuccess | src/scheduler.rs:232-258 | Record, token count and log row of a success |
| Forwarding.SettleFailure | src/scheduler.rs:326-348 | Log row, rebinding and 30 second back-off of a failed send |
| Forwarding.SettleRevocation | src/scheduler.rs:274-291 | Status change and log row of a revocation |
| Forwarding.SettleRateLimit | src/scheduler.rs:292-308 | Back-off and log row of a rate limit |
| Forwarding.SettleOtherError | src/scheduler.rs:259-273 | Record and log row of an error passed on |
| Probing.ProbeAccount | src/scheduler.rs:392-516 | The probe's branches carry out `Probe` |
| Probing.ProbeMeaning | src/scheduler.rs:388-516 | Skipped exactly when the account does not exist, is on none of the four platforms, has a key that does not decrypt, or has no proxy and none is on offer; alive exactly on 200 to 299; revoked exactly on a code of the revoke list outside 200 to 299 and 500 to 599; both copies then show it, and otherwise no status changes |
| Probing.ProbeIsItsSteps | src/scheduler.rs:392-516 | A probe is at most one bind and one status change of the engine |
| Admin.ResetDue | src/sync.rs:311-335 | The loop resets exactly the due accounts in store and memory |
| Admin.UploadAccounts | src/api_admin.rs:341-420 | Every item with a nonblank key gets a row, permits, a slot and a binding, in order; the request's limit wins over the platform's; an unknown platform is rejected unchanged |
| Uploading.UploadExact | src/api_admin.rs:341-420 | An upload creates one account per item with a nonblank key, in order, under consecutive new ids, pending, unused, never reset, with the key, quota and permits asked for, alike in both copies, and changes no other account |
| Handlers.UploadBinds | src/api_admin.rs:341-420 | A new account is bound as its registration IP asks if a proxy is on offer, alike in both copies; an item without a key, or for an unknown platform, changes nothing |
| Handlers.PatchTakesValues | src/api_admin.rs:507-533 | A patch takes the values given and keeps the others, in both copies; a binding to a proxy that does not exist is refused and nothing changes |
| Handlers.StatusIsSet | src/api_admin.rs:535-547 | Enabling and disabling set the status and clear the failures in both copies, and change nothing else |
| Handlers.DeletedAccountIsGone | src/api_admin.rs:549-560 | A deleted account is gone from both copies with its permits; the log forgets it; its back-off stays |
| Handlers.DeletedGroupIsGone | src/api_admin.rs:653-663 | A deleted group takes its links and, in both copies, its proxies; rows of accounts and logs forget those proxies, slots keep the stale ids |
| Handlers.DeletedTokenIsGone | src/api_admin.rs:843-855 | A deleted token is gone and the log forgets it |
| Handlers.SettingIsRead | src/sync.rs:381-386 | The next request admitted reads the setting: 0 if it is negative, and its lowest 32 bits |
| Handlers.PatchGivesPermits | src/pools.rs:97-101 | Without a list of groups a platform's patch can only make permits, at least one, and existing ones stay |
| Handlers.PatchReplacesLinks | src/api_admin.rs:194-209 | The platform's links become exactly those listed and the others stay; nothing changes when one of the groups does not exist |
| Handlers.PatchBindsTheUnbound | src/api_admin.rs:213-225 | Then every account of the platform that had no proxy has one, alike in both copies, if one is on offer; else it has none |
| Handlers.BindAsksForNoIp | src/scheduler.rs:438-441 | The bind of a probe chooses as for an account without registration IP |
| Handlers.CleanupKeepsTheNewest | src/sync.rs:337-357 | The log cleanup removes exactly the rows below the id it comes to and changes none of the others |
| Admin.Patch | src/api_admin.rs:507-533 | Store and memory after a patch; a binding to a missing proxy is refused by the store and then memory is not touched |
| Admin.ReconfigurePlatform | src/api_admin.rs:165-239 | Links are replaced (or the whole request fails on a missing group), a permit is made if there is none, and unbound accounts are bound in turn |
| Operating.CarryOut | src/main.rs:84-126 | Every administrator's handler and background task, in place on the pools, does what the engine's operation of the same kind does |
| PoolState.Pools.LoadRows | src/pools.rs:42-94 | Every row whose key decrypts becomes a slot with 3 permits, every proxy row an entry |
| PoolState.Pools.Record | src/pools.rs:185-217 | Memory half, then the status is read, then the store half with that status |
| PoolState.Pools.Candidates | src/pools.rs:112-137 | The loop's pushes are the schedulable accounts in iteration order |
| Database.DeleteProxiesKeepsWellFormed | src/db.rs:183-218 | Deleting proxies with SET NULL keeps ids, keys and references consistent |
| Clients.ClientPool.ClientFor | src/scheduler.rs:38-46 | On a coherent cache a plain proxy gets exactly the client it would build, and the cache stays coherent; in any case one step of the specification `Serve` |
| Clients.KeyDetermines | src/scheduler.rs:39-41 | With no '&#124;' in host and user name the textual key determines host, port, user name, password and timeout |
| Clients.SameKeySameClientIff | src/scheduler.rs:38-61 | Two such proxies with one key build the same client exactly when both or neither use credentials |
| Clients.ClientGoesThroughItsProxy | src/scheduler.rs:49-61 | The proxy URL of a client, read as RFC 3986 section 3.2 has it, names the proxy's host and port, and its user name and password in that order exactly when both are given and the name is not empty |
| Clients.OneClientPerKey | src/scheduler.rs:38-46 | Whatever was cached, requests with one key get one client, that of the first of them |
| Clients.CacheIsInvisible | src/scheduler.rs:38-46 | Over any sequence of such steps for plain proxies (no separator, a password wherever there is a user name) each gets the client it would build |
| Clients.SeparatorCollides | src/scheduler.rs:39-41 | A concrete pair of proxies for which it does not |
| PagedRuns.PagesOnEveryRun | src/api_admin.rs:430-477 | For each of the three list handlers, page i being served from the store as the first at(i) events of a run from start-up have left it: no row is shown twice, in descending id order; every row that matches throughout is shown; every row shown matched then; no row inserted after page one is shown |
| PagedRuns.HandlerPagesWell | src/api_admin.rs:685-724 | The same for any handler that runs the shared query, over any history of a store whose tables gain rows under fresh ids only |
| PagedRuns.RunStoresEvolve | src/db.rs:183-262 | The stores along any run are such a history |
| PagedRuns.HandlerPagesAll | src/api_admin.rs:866-905 | On an unchanged store such a handler's pages are the full filtered scan in descending id order, and every total counts it |
| PagedRuns.PagesOfOneStore | src/api_admin.rs:866-905 | So for the three handlers: accounts, proxies and call logs |
| PagedColumns.AccountsShown | src/api_admin.rs:430-477 | On an unchanged store the pages of accounts show exactly the rows whose platform and status are as asked (absent or empty asks for nothing), once each, newest first, on pages of max(1, min(limit, 200)), 50 by default, and every total counts them |
| PagedColumns.ProxiesShown | src/api_admin.rs:685-724 | The same for proxies by group (0 asks for nothing), country and status, on pages of at most 500 |
| PagedColumns.LogsShown | src/api_admin.rs:866-905 | The same for call logs by platform, account and token (0 asks for nothing) |
| PagedColumns.AccountsPage | src/api_admin.rs:430-477 | One page of accounts from any cursor: the newest matching rows below it, the total of all matching rows, and a next cursor exactly when the page is full |
| PagedColumns.ProxiesPage | src/api_admin.rs:685-724 | One page of proxies |
| PagedColumns.LogsPage | src/api_admin.rs:866-905 | One page of call logs |
| PagedColumns.ShownOnEveryRun | src/api_admin.rs:430-477 | While the gateway is at work, by the same columns: every row that matches throughout is shown, every row shown matched when served, none twice, none newer than page one |
| Paging.FollowUnderChanges | src/api_admin.rs:430-477 | The guarantee for the query the handlers share, on any table that gains rows under fresh ids only |
| Paging.FollowStatic | src/api_admin.rs:866-905 | The query the handlers share: on an unchanged table the pages joined are the full filtered scan in descending id order |
| Paging.TotalsStatic | src/api_admin.rs:866-905 | On an unchanged table every page's total counts that scan |
| Paging.StaticPageCount | src/api_admin.rs:685-724 | The number of pages: as few as hold the rows and one more |
| Paging.FollowComplete | src/api_admin.rs:430-477 | A row below the cursor that matches at every page is shown |
| Paging.FollowSound | src/api_admin.rs:430-477 | A row shown matched when its page was served |
| Paging.FollowFalls | src/api_admin.rs:430-477 | Ids shown fall strictly, all below the cursor |
| Paging.PageFacts | src/api_admin.rs:430-477 | One page: at most limit matching rows, descending, and nothing between it and the next cursor is missed |
| Paging.ScanExact | src/api_admin.rs:685-724 | The query returns exactly the matching ids below the cursor, descending |
| Paging.ScanResume | src/api_admin.rs:685-724 | Restarting below the k-th hit continues the scan |
| Session.RoundTrip | src/auth.rs:25-49 | For every i64 id, key and issue time the signed id comes back exactly while the clock is before the issue time plus 7 * 24 * 60 * 60 seconds |
| Session.VerifyOfSign | src/auth.rs:25-49 | Under another key it comes back exactly if that key gives the payload the same code |
| Session.VerifyIffGenuine | src/auth.rs:33-49 | Accepted are exactly the strings `id:expiry.hex` with the right code, parsing numbers and an unexpired clock, cut at the first ':' and the last '.' |
| Session.SignInjective | src/auth.rs:25-31 | Cookies of different ids or issue times differ |
| Session.SignedText | src/auth.rs:25-31 | The text of a cookie: id, ':', expiry seven days on, '.', and each byte of the code as two lower-case hexadecimal digits, the high one first |
| Text.I64RoundTrip | src/auth.rs:43-44 | Printing and parsing an i64 in decimal |
| Text.HexRoundTrip | src/auth.rs:30-38 | Hex encoding and decoding |
| Text.HexDecodeIff | src/auth.rs:36 | A string decodes to some bytes exactly when, with its upper-case hexadecimal digits lowered, it is their encoding |
| Text.I64Iff | src/auth.rs:43-44 | What an i64 parse accepts: digits, with a sign or without, of a number that 64 bits hold |
| Text.FirstCutUnique | src/auth.rs:42 | Cutting at the first separator finds the printed one |
| Text.LastCutUnique | src/auth.rs:34 | Cutting at the last separator finds the printed one |
| Adapter.CodesRoundTrip | src/adapter.rs:26-38 | Any two lists of 16-bit codes written comma-separated, the empty one too, are read back as themselves |
| Adapter.CodesExact | src/adapter.rs:26-38 | A code is in a list exactly when one of the fields between the commas is a 16-bit numeral of it, with blanks around it or not; other fields count for nothing |

## Left out

- Cancellation of a request on client disconnect: the exit-IP decrement is plain code and not a drop guard, so the counters are exact only if requests run to their end.
- HTTP transport, `reqwest` clients, header and body copying: an attempt's answer is a status code with an optional Retry-After, or a failure.
- SQL and concurrent-map internals: unordered queries return rows in ascending id order, and the groups linked to a platform in ascending id order too, as the index of the table's primary key gives them; the iteration order of the account map is a parameter of every selection.
- Errors of the database connection: statements succeed unless the schema's constraints refuse them.
- Select: one atomic step on one snapshot of the pools.
- Bind: one atomic step in the engine; a probe's bind and status change are two.
- Synchronize: one atomic step in the engine, as are the other workers' passes and administrators' handlers, including the two halves of a status change by an administrator; only the requests' effects are split.
- ResetDue: one atomic step in the engine, where the source awaits between rows.
- Forward: takes the permits as free and the other requests as finished; waiting is modelled in `Engine`. It leaves out `max_retries` at the u32 maximum, where the loop need not end: `Endless` and `Concurrency` say what happens there.
- SameProxyOnEveryRun: a synchronization is one step, while the source awaits between dropping a group's memory proxies and refilling them; `SyncWindow` says what memory shows in between.
- EveryRowIsWritten: up to the columns account, proxy and token, which a later deletion may set to NULL.
- Integer widths of quota, token and exit-IP counters and calendar overflow of back-off times: unbounded integers; only the retry counter, `max_retries` and parsed numbers have their width.
- HMAC, AES-GCM, Argon2 and SHA-256: HMAC is an arbitrary function (RFC 2104 is not part of this model), decryption a parameter.
- `last_called_at`, latency, names, estimated remaining quota and other columns nothing modelled reads.
- ReconfigurePlatform: changes the links and the permit; the other columns `patch_platform` writes, the default quota limit among them, are left as they are, so uploads see the limits of the store as given.
- ShorterBackOffWins: times are unbounded integers, where chrono's addition panics for a number of seconds it cannot represent.
- A restart: `Boot` on the store as a run has left it. A stop in the middle of a request's effects is the end of a run; nothing is said of requests cut off by it.
- `patch_proxy_group`, `patch_token`, platform enabling, settings other than `max_retries`, login, statistics, configuration, the front end and routing.
- Balance queries and JSON parsing: only their effect on `reset_at`. The arithmetic of log cleanup: it deletes the oldest rows.
