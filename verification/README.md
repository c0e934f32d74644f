# prox5: a verified model

This project models the core of prox5, a pool that validates SOCKS proxies and
dials through them, and proves what the pool promises to the callers that share it.
`dafny verify dfyconfig.toml` checks everything.

## What is modelled

**The proxy life cycle.** A proxy is loaded into the map and into `Pending`, selected
by the spawner, validated, put on the list of its protocol, dispensed, dialed through,
and validated again. Validators, getters, dialers, loaders, recyclers, spawners and the
conductor run concurrently. `Machine` is their step system: a program counter for each
goroutine, and one step for one atomic operation or one mutex-held block
(`ValidatorEffect` for validator_engine.go:203-295, `GetAnyEffect`, `StillGoodEffect` and
`GetStrEffect` for dispense.go, `DialerEffect` for mystery_dialer.go:57-186,
`SpawnerEffect`, `RecyclerEffect` and `LoaderEffect` for daemons.go and
list_management.go, `ConductorEffect` for conductor.go). The network, the two rate
limiters, timers, shuffles and the middleware's verdict are oracles; the clock never goes
back. A run is any sequence of enabled actions, so what is proved holds in every
interleaving and for every answer from outside.

One joint invariant (`Invariant.Inv`) carries the proofs: locks are owned, lists are
typed, each thread knows what its program point promises about the record it holds, the
counters balance, the scheduler loses nothing. Most conservation laws rest on `Meters`:
sums over all threads that one step changes in one place.

`Histories` adds to a run the states it goes through, so that one can say when something
happened. `Policy` uses it for what stands behind a proxy that is handed out: the step that
stamped it, the step that counted its failures and the step that judged its age.
`Sections` uses it for critical sections from lock to release and for what a verdict costs,
`Verdicts` for the checks a verdict rests on, `Acceptance` for what `stillGood` lets pass, `Loading`
for why a load can fail and for what happens when a key is added again. `Scheduling` and
`ListOrder` have the queues.

**The engine as written.** `Engine.ProxyEngine` has the fields of the engine, and its methods
(with those of `Daemons`, `Spawning` and `Counters`) follow the source statement by statement,
loops and branches included. Between any two statements an arbitrary `schedule` of other
goroutines may act. `Valid()` says that the engine is where a legal run of the step
system has brought it, so a method can take no step that the step system does not allow
at that point, and each theorem about runs is a theorem about the methods. What a contract says happened
during a call it shows in the engine's own run: a `Look` is the engine after some of its
actions, a `Deed` one action of the calling goroutine, `GoodDuring` a judgement. With an empty
schedule several contracts say exactly what a call does by itself.

**The auto-scaler.** `Scaler.AutoScaler` with its eight-way switch is proved equal to a
one-line decision per case (`Decide`); the laws over sequences of calls are proved of that.
`ScaleUtil` is the accounting and the clamp in front of it. Of the ants pool only the
capacity is modelled, with `Tune` ignoring sizes that are not positive.

**The normaliser.** `Parse` follows `filter`, `filterv6` and `buildProxyString` with
`dns.IsDomainName` and `netip.ParseAddrPort` as arbitrary functions, and indexing out of
range as a result of its own. `Text` has `strings.Split` and its laws.

## What the code does that one would not expect

- `protoMap` has no HTTP entry, so no proxy is ever validated as HTTP and `GetHTTPTunnel` never returns (`Lifecycle.HttpNeverHappens`).
- The `break` after the first success leaves only the `select`: all three protocols are tried. The protocol kept is the first that worked, the address kept is that of the last one (`Engine.FirstSuccessFixesProtocol`).
- Two concurrent `getSocksStr` calls on a list of one proxy can dereference nil while holding the list's mutex (`Scenario.TwoCallersCrash`), and n + 1 calls on a list of n (`Scenario.CallersCrash`).
- A duplicate load is accepted and queues the same record again; the error "proxy already exists" only comes up if the entry is taken off the map in between (`Loading.LostMeansUnmapped`).
- `filter` indexes out of range on some inputs (`ParseLaws.PanicsIff`), for instance "[::1]:80:user" if netip parses "[::1]:80" (`ParseLaws.UserWithoutPasswordPanics`); it turns "[::1]:80" into "1]:80" if "1]" passes for a domain (`ParseLaws.ShortBracketMisread`); and it accepts its own output for an IPv6 address with credentials as the empty string (`ParseLaws.BracketedIsNotFixed`).
- `SetMaxWorkers` leaves the scaler's modifier as it is, so afterwards the capacity may be no more than the baseline with a modifier above zero (`ScalerLaws.WorkersKeepLevel`).
- Recycling refills only if the timer had ticked (`Daemons.Recycling`), and with recycling off the spawner selects nothing at all (`Spawning.SelectAndSubmit`).
- `stillGood` reads the limit of failures twice: recycling turned off in between expels the proxy, whatever its failures (`Policy.TurnedOffMeanwhile`), and runs come to that (`Scenario.SomeProxyIsExpelled`).
- A dialer whose context is done when `GetAnySOCKS` returns drops the proxy it was handed: it is off its list and on no other, until it is validated again (`Dialing.LockedRequeuedOrDropped`).
- `badAccounted` is read and never written, so every accounting charges all bad proxies anew; `ScaleUtil` keeps this.
- The documentation gives the default of `SetRemoveAfter` as 10; the code's is 25, and the model's.

## Model

| member | source | states |
|---|---|---|
| Invariant.NextKeepsInv | validator_engine.go:203-295 | every step of every goroutine keeps the joint invariant of validators, getters, dialers, loaders, recyclers and spawners |
| Runs.ReachableInv | defs.go:206-281 | the engine NewProxyEngine builds satisfies the invariant and so does every state any run takes it to |
| Runs.LockIsOwned | validator_engine.go:207-210 | in every reachable state a proxy's lock is set iff some goroutine is in a critical section of validate, stillGood or the dialer on it, and then exactly one is |
| Runs.HolderMovesOn | validator_engine.go:210-271 | a goroutine that holds a lock can always take a step, and each of its steps releases the lock or comes nearer to that |
| Sections.ReleasedInTime | validator_engine.go:210-271 | over every history, a goroutine that holds a lock has released it, and left the proxy unlocked, by the time it has made 21 steps of its own, whatever the others do |
| Runs.OthersLeaveRecordAlone | dispense.go:107-110 | while a goroutine holds a lock, no run of all others changes any field of that proxy |
| Runs.QuietMeansUnlocked | validator_engine.go:210 | when all calls have returned, no proxy is left locked |
| Lifecycle.RunIsLater | proto.go:48-52 | over any run endpoints stay, a protocol once set stays, tallies, valid counters and the contents of Pending only grow, a closed engine stays closed |
| Lifecycle.ListedProxyKeepsItsProtocol | validator_engine.go:273-295 | a proxy on a valid list has been validated and has that list's protocol, then and in all later states |
| Lifecycle.UnknownProtocolUnreachable | mystery_dialer.go:76-87 | the "unknown protocol" error of popSockAndLockIt is unreachable |
| Lifecycle.HttpNeverHappens | proto.go:21-23 | no proxy is ever counted, listed or handed out as HTTP; a GetHTTPTunnel call never gets past its first test |
| Lifecycle.ValidationsConserved | validator_engine.go:269-295 | Valid4 + Valid4a + Valid5 + ValidHTTP plus the validators between good() and the counter is the sum of timesValidated over all proxies ever created |
| Lifecycle.ListFlowConserved | defs.go:24-39 | for each list, length plus removals is its counter plus requeues less the validators between counter and push |
| Lifecycle.DispensedCountsCalls | stats.go:31-33 | Dispensed is the number of completed GetAnySOCKS and getSocksStr calls, dialers' calls and nil results included |
| Lifecycle.ChecksCoverVerdicts | validator_engine.go:170-201 | total validated <= verdicts <= Checked, and on a live engine Checked <= 3 * verdicts plus the checks of calls under way |
| Lifecycle.EmptyMeansNothingValidated | mystery_dialer.go:44-53 | isEmpty holds iff nothing was counted valid, and once false it is false for ever |
| Sections.OneVerdict | validator_engine.go:203-271 | over every history, a validate call that took the lock is still inside, or there is the step in which it released, with exactly one good() or one bad() on its proxy since it took the lock, or none if it was rate limited or cut short by the shutdown |
| Sections.VerdictCosts | validator_engine.go:203-271 | over every history, a validate call that releases its proxy as good or bad has made exactly three checks if the proxy had no protocol and one if it had, none if it was rate limited, fewer than three if it was cut short |
| Verdicts.VerdictIsEarned | validator_engine.go:232-270 | over every history, a call that says good() had a check over the proxy's protocol succeed before, in that call; one that says bad() had none succeed; and both have checked SOCKS4, SOCKS4a and SOCKS5 on a proxy without a protocol, and its own protocol alone on any other |
| Lifecycle.ProtocolKnownIffValidated | validator_engine.go:232-257 | on a live engine an unlocked proxy has a protocol iff it was ever validated |
| Policy.HandedOutWasJudged | dispense.go:69-138 | over every history, a proxy that a getter hands out, or that a dialer dials through, was judged by the goroutine that has it since it last had none: under the proxy's lock its failures were within removeafter as it then was, its last validation was no older than the stale time as it then was, and that validation is a stamp after a good() in the history |
| Policy.HandedOutWithinPolicy | dispense.go:112-134 | with recycling on and constant removeafter and stale time, a proxy handed out by a call begun since had at most removeafter failures and a validation no older than the stale time when it was judged |
| Policy.OverLimitIsExpelled | dispense.go:112-121 | with a constant limit, a proxy with more failures whose lock stillGood has taken gets no further than the deletion of its endpoint from the map |
| Policy.WithinLimitIsSpared | dispense.go:112-126 | with a constant limit, a proxy with no more failures stays at the readings of the limit or passes them, and its endpoint is not deleted |
| Acceptance.LimiterDecides | dispense.go:123-126 | after the failures a proxy goes on to the test of its age iff the limiter is silent |
| Acceptance.YoungIsHandedOut | dispense.go:128-137 | over every history with a constant stale time w: a proxy past the limiter is handed out iff now - lastValidated <= w when its age is read, else rejected, and unlocked either way |
| Acceptance.GoodIsHandedOut | dispense.go:107-137 | over every history with constant removeafter and stale time: a proxy whose lock stillGood has taken, within the limit, with a silent limiter and young enough at the end, is handed out after five steps of its caller at most |
| Policy.ExpelledIsRejected | dispense.go:110-120 | and after it is rejected: the lock is given back and no proxy handed out |
| Policy.LimitIsRemoveAfter | getters.go:97-106 | both readings of the limit are GetRemoveAfter of the state they are made in, and decide exactly as the comparison says |
| Policy.TurnedOffMeanwhile | dispense.go:112 | if recycling is turned off between the two readings, the proxy is expelled whatever its failures |
| Scenario.ExpelledWithinLimit | dispense.go:112-121 | from every reachable state with a limit in force and an unlocked proxy at the front of a list, a getSocksStr call and a change of the recycling option can take its endpoint off the map with every count of failures as it was |
| Scenario.SomeProxyIsExpelled | dispense.go:112-121 | for each endpoint and SOCKS protocol a new engine has a run in which a proxy that never failed is taken off the map for its failures |
| Policy.NeverFromTheFuture | validator_engine.go:53-56 | in every reachable state no proxy's last validation lies ahead of the clock |
| Policy.HistoryAllDated | validator_engine.go:53-56 | over every history, each proxy ever validated bears the time of a stamp that followed a good() on it, unless one is just under way |
| Policy.StaleIsCounted | dispense.go:128-135 | Stale counts exactly the rejections for age in the history |
| Policy.DispensedAsJudged | dispense.go:94-95 | a getter comes by a proxy in no other way than by the step in which stillGood unlocks it, with the record as it was judged |
| Lifecycle.ReturnedIsProven | dispense.go:69-101 | every proxy, endpoint or connection returned is of a validated proxy with a fixed protocol, endpoints of the protocol asked for; nil only after the close |
| Lifecycle.KnownProxiesAreQueued | daemons.go:103-131 | each map entry has its key as endpoint and is in Pending or about to be queued; the spawner never finds the front missing |
| Scheduling.PendingIsFifo | daemons.go:124-131 | over any run, what was pending followed by what arrived is what was selected followed by what is pending |
| Scheduling.EntrySelectedInTurn | daemons.go:124-131 | the entry at index i of Pending is the (i+1)-th one selected, whatever is loaded, recycled or rotated meanwhile |
| Scheduling.RotatedEntryReturns | daemons.go:128 | an entry moved to the back of a list of n is selected again exactly n rotations later |
| Scheduling.SoleSpawnerInTurn | daemons.go:86-139 | a spawner without a second one beside it selects the entries of Pending in turn |
| ListOrder.ListIsFifo | defs.go:24-39 | over any run, what was on a valid list followed by what was added to it is what was taken off its front followed by what is on it |
| ListOrder.ProxyServedInTurn | defs.go:24-39 | the proxy at index i of a valid list is the (i+1)-th taken off it, whatever is pushed or put back meanwhile |
| Shutdown.ClosedRunSpends | conductor.go:94-98 | once closed, over any run, total validated plus the validations in flight never grows |
| Shutdown.CloseBoundsValidations | conductor.go:94-98 | after Close total validated grows by at most the validations then in flight, at most one for each locked proxy, also across a Resume |
| Dialing.DialAttemptsBounded | mystery_dialer.go:121-184 | with a constant bailout b a dial call makes at most max(0, b+1) attempts, and a connection took at least one |
| Dialing.LockedOrRequeued | mystery_dialer.go:72-89 | over every history, once a dialer has come to the compare-and-swap on its proxy, it locks the proxy or puts it at the back of the list of the proxy's protocol, unless it has not got round to it |
| Dialing.LockedRequeuedOrDropped | mystery_dialer.go:62-89 | over every history, a proxy that GetAnySOCKS handed to a dialer is locked by it, or goes to the back of the list of its protocol, or is dropped by a step that finds the context done and changes neither list nor record, unless the dialer has not got round to it |
| Dialing.DrainedIffEmpty | dispense.go:27-29 | getSocksStr dereferences nil iff its list is empty when it removes the front |
| Dialing.SoleConsumerNeverDrains | dispense.go:21-29 | it does not if nobody takes from the list between its length test and its removal |
| Dialing.TwoCallersCanDrain | dispense.go:21-29 | two callers that both look at a list of one proxy have a run in which one of them dereferences nil |
| Scenario.SomeProxyIsListed | validator_engine.go:203-295 | for each SOCKS protocol and endpoint there is a run of a new engine that loads, selects and validates it, after which it is the one proxy on that list |
| Scenario.TwoCallersCrash | dispense.go:21-29 | from every reachable state with a list of one proxy, two getSocksStr calls can lead to the nil dereference |
| Scenario.CallersCrash | dispense.go:21-29 | from every reachable state with a list of n proxies, n + 1 getSocksStr calls can lead to the nil dereference |
| Engine.FirstSuccessFixesProtocol | validator_engine.go:233-250 | of the protocols tried, the first success fixes the protocol and the last success the proxied address |
| Engine.ProxyEngine.constructor | defs.go:206-281 | a new engine is in the initial state of the step system: recycling on, removal after 25 failures, stale after 30 minutes, a bailout of 20, and everything empty and zero |
| Engine.ProxyEngine.Take | validator_engine.go:207-210 | an atomic operation of a method is the step its goroutine may take there, and extends the engine's run by that step |
| Engine.ProxyEngine.Validate | validator_engine.go:203-271 | under any interference: refused iff the proxy was locked; cut short if the engine was closed, and only on a closed one; else limited iff a limiter says so; else good or bad: with a known protocol good iff the check over it succeeds, without one iff that over SOCKS4, SOCKS4a or SOCKS5 does. Good adds one to timesValidated and stamps within the call, bad adds one to timesBad, and so the call's own release of the lock finds the record. By itself exactly that record changes, and a good one is counted and listed once |
| Engine.ProxyEngine.Admit | validator_engine.go:207-216 | admitted iff unlocked, with the record locked and otherwise unchanged |
| Engine.ProxyEngine.SingleProxyCheck | validator_engine.go:170-201 | succeeds iff the network does, stores the address only then; by itself it counts one check in both cases and changes no other record |
| Engine.ProxyEngine.TryOne | validator_engine.go:235-250 | a turn of the loop ends the call iff the engine is closed when it begins |
| Engine.ProxyEngine.TryAll | validator_engine.go:235-250 | all protocols are tried in the given order unless the engine is closed, and the record is that of the whole sequence |
| Engine.ProxyEngine.CheckFresh | validator_engine.go:233-271 | the branch of a proxy without a protocol: unless cut short, good iff SOCKS4, SOCKS4a or SOCKS5 passed, and then with a protocol that did; bad leaves the protocol open |
| Engine.ProxyEngine.CheckAgain | validator_engine.go:251-256 | the branch of a known proxy: one check over its protocol decides |
| Engine.ProxyEngine.Conclude | validator_engine.go:259-270 | without a protocol one bad() and nothing else, with one one good() and the tally |
| Engine.ProxyEngine.MarkSockBad | validator_engine.go:49-51 | exactly timesBad grows, by one |
| Engine.ProxyEngine.MarkSockGood | validator_engine.go:53-56 | exactly timesValidated grows by one and the stamp is a time of the call |
| Engine.ProxyEngine.TallyUp | validator_engine.go:273-295 | one step adds one to the counter of the proxy's own protocol and a later one puts the proxy at the back of that list; the record stays |
| Engine.ProxyEngine.StillGoodNow | dispense.go:103-138 | an accepted proxy was judged good in the call, by the engine's own history; by itself it accepts iff the proxy is unlocked, its failures are at most removeafter (if recycling and that limit are on), the limiter is silent and now - lastValidated <= stale; it leaves the records as they were, and deletes the endpoint iff the proxy is unlocked and over the limit |
| Engine.ProxyEngine.CheckFailures | dispense.go:112-126 | passes iff the first reading of removeafter is none or the failures are within the second, and the limiter is silent; a proxy over it has its endpoint deleted by a step of the call |
| Engine.ProxyEngine.Expel | dispense.go:112-121 | a step of the call deletes the endpoint from the map |
| Engine.ProxyEngine.CheckAge | dispense.go:128-137 | accepts iff now - lastValidated <= stale at the instant read; by itself it counts a stale proxy iff it rejects |
| Engine.ProxyEngine.TryList | dispense.go:80-99 | a find was judged good in the call; by itself it takes the front off the list and hands it out iff it is acceptable |
| Engine.ProxyEngine.ScanLists | dispense.go:80-99 | a find was judged good during the pass, by the engine's own history; by itself a pass without a find takes the front off each list it visits, and none of these was acceptable |
| Engine.ProxyEngine.GetAnySOCKS | dispense.go:69-101 | what it returns is proven and was judged good during the call, by the engine's own history; nil means closed and a closed engine yields nil; by itself n passes without a find take n proxies off every SOCKS list, and there is a find if any list has an acceptable proxy in front |
| Engine.ProxyEngine.GetSocksStr | dispense.go:8-42 | an endpoint is that of a proxy validated as this protocol and judged good during the call, by the engine's own history; the other ending is the nil dereference, which a call by itself never comes to; by itself it has an endpoint in the first turn if the proxy in front is acceptable |
| Engine.ProxyEngine.RemoveFront | dispense.go:27-39 | nil dereference iff the list is empty at the removal, else it is the removed front that is judged good and returned; by itself iff it is acceptable |
| Engine.ProxyEngine.PopSockAndLockIt | mystery_dialer.go:57-90 | a proxy it returns was judged good in the call and is locked by this dialer; it fails for want of proxies iff nothing was ever validated, else only on a done context, never for an unknown protocol |
| Engine.ProxyEngine.LockOrRequeue | mystery_dialer.go:72-89 | locked by this dialer iff it was free, else a step of the call puts it at the back of the list of its protocol |
| Engine.ProxyEngine.TryDial | mystery_dialer.go:157-184 | a step of the call releases the lock, and the dial, if the middleware says yes, is a later step; a failed dial counts one |
| Engine.ProxyEngine.HeadTests | mystery_dialer.go:123-141 | goes on iff the failures are within the bailout just read and nothing has fired; gives up iff they exceed it |
| Engine.ProxyEngine.OneTurn | mystery_dialer.go:122-184 | one turn dials at most once, and only if the failures so far are within the bailout read at its head |
| Engine.ProxyEngine.MysteryDialer | mystery_dialer.go:109-186 | at most one dial more than some bailout it read from the options, giving up only above the last one read; a connection only after an approved dial that succeeded through a proxy judged good in the call; no proxies iff nothing was ever validated; by itself at most max(0, bailout+1) dials and exactly that many when it gives up |
| Daemons.AddToMap | daemons.go:17-29 | what it finds is a record of this endpoint, and it finds none only if the entry was taken off the map during the call; by itself it finds the entry that is there and changes neither map nor records, or else inserts a record with no protocol and no tally |
| Loading.LostMeansUnmapped | daemons.go:17-29 | over every history, a load fails only if, after its own insertion, the entry was taken off the map by a deletion in stillGood or by the user clearing the map |
| Loading.EntryIsKept | daemons.go:17-29 | over every history, a map entry is the same record as long as nobody takes it off the map, however often its endpoint is loaded, and no second record of that endpoint is created meanwhile |
| Daemons.LoadEndpoint | list_management.go:64-71 | an accepted load has queued a record of exactly this endpoint, and a refused one shows a step of the engine's run, during the call, that took the entry off the map; by itself it always accepts, keeps an existing entry and its record, and puts the mapped record at the back of Pending |
| Daemons.LoadSingleProxy | list_management.go:50-62 | rejected iff the text is one of those the normaliser refuses, as "example.com:http" is if netip fails on it, else panicking, loaded or lost as its answer says; nothing changes if it is rejected or panics, and a lost one had its entry taken off the map during the call; by itself an accepted text is always loaded |
| Daemons.LoadLines | list_management.go:81-91 | every accepted line is queued at the end as it stands, and the count is that of accepted lines; by itself all are |
| Daemons.Iterate | daemons.go:66-68 | each record of the map exactly once |
| Daemons.Shuffle | daemons.go:69-71 | the in-place shuffle keeps the multiset |
| Daemons.PermutationOfWalk | daemons.go:64-75 | a shuffled walk of the map is a walk of the map |
| Daemons.Recycling | daemons.go:43-84 | if it got the mutex, recycling was on and the timer had ticked, it adds a permutation of the records the map held at its decision to Pending and returns how many, else nothing; by itself it changes nothing else |
| RecyclerMutex.OneRecyclerAtATime | daemons.go:44-47 | in every reachable state the mutex is taken iff some recycling call is past its TryLock, and then exactly one is |
| Daemons.RecycleLocked | daemons.go:49-83 | under any interference what it queues is the map as it was at its decision |
| Spawning.RotatePending | daemons.go:124-131 | the front exists, is selected and goes to the back |
| Spawning.SelectAndSubmit | daemons.go:122-136 | with recycling on the front is chosen and, if the pool takes the job, a validator of it is started; else nothing |
| Spawning.SpawnRound | daemons.go:94-138 | stops iff not running, waits iff nothing is pending; what it does besides is to select a record and start its validation if the pool takes the job; by itself that record is the front, which goes to the back |
| Spawning.JobSpawner | daemons.go:86-144 | without a second spawner, the (i+1)-th record it selects is entry i of Pending; with every job taken, it starts the validation of each record it selects, in order; by itself it selects one each round |
| Spawning.Start | conductor.go:22-30 | refused iff running; else a step of the call starts a spawner and a later one stores that the engine is running, whatever the others do |
| Spawning.Pause | conductor.go:39-51 | refused iff not running; else a step of the call stores that the engine is paused |
| Spawning.Close | conductor.go:94-99 | closed from then on, and no more is counted valid than was in flight, at most one for each locked proxy |
| Counters.GetTotalValidated | stats.go:56-64 | four loads under interference: the answer lies between the total at the call and the total at the return |
| Counters.EmptyNow | mystery_dialer.go:44-53 | five loads under interference: "empty" was true at the call, "not empty" is true at the return |
| Scaler.Pool.Tune | internal/scaler/scaler.go:129 | the size is set unless it is not positive |
| Scaler.AutoScaler.constructor | internal/scaler/scaler.go:51-63 | disabled, unmodified, with the given settings |
| Scaler.AutoScaler.Disable | internal/scaler/scaler.go:65-67 | disabled and nothing else |
| Scaler.AutoScaler.Enable | internal/scaler/scaler.go:69-71 | idle and nothing else |
| Scaler.AutoScaler.IsOn | internal/scaler/scaler.go:73-75 | reports whether it is on and leaves the state alone |
| Scaler.AutoScaler.Drain | internal/scaler/scaler.go:114-137 | one worker less iff modified and above the baseline |
| Scaler.AutoScaler.ScaleAnts | internal/scaler/scaler.go:105-195 | panics iff the modifier is negative; else state, modifier and capacity become those of the decision, and it reports a change iff the decision is to grow or shrink |
| ScalerLaws.EnabledCall | internal/scaler/scaler.go:139-194 | a call on an enabled scaler adds a worker iff the surplus is below the threshold, there is room, and it is scaled up already or idle with supply enough; takes one iff the surplus is above the threshold and it is scaled up; reports a change iff it did either; and is idle after neither, unless there is too little supply |
| ScalerLaws.DisabledCall | internal/scaler/scaler.go:114-137 | a call on a disabled one takes a worker iff it is scaled up and above its baseline, and reports just that |
| ScalerLaws.SustainedSurplus | internal/scaler/scaler.go:176-190 | over n calls with a surplus above the threshold an enabled scaler gives back min(n, mod) workers, reports each, and the capacity follows while it is a size |
| ScalerLaws.ModNeverNegative | internal/scaler/scaler.go:111-113 | over any run of calls and setters the modifier is never negative, so the panic is unreachable, and scaling up implies it is positive |
| ScalerLaws.CapacityConserved | internal/scaler/scaler.go:129-130 | a call keeps capacity minus modifier iff it does not tune to a size the pool ignores, so always while that difference is at least one |
| ScalerLaws.CapacityFollowsMod | internal/scaler/scaler.go:105-195 | over any run that leaves the worker count alone, capacity minus modifier stays what it is once it is at least one |
| ScalerLaws.CapacityBounded | internal/scaler/scaler.go:139-194 | if workers are set to one or more, only with modifier zero, and Max stays, then baseline <= capacity <= baseline + Max after any run |
| ScalerLaws.WorkersKeepLevel | setters.go:68-77 | SetMaxWorkers keeps capacity = baseline + modifier iff the modifier is zero |
| ScalerLaws.CallApproaches | internal/scaler/scaler.go:139-194 | with fixed inputs each call changes nothing or comes nearer to the fixed point by a given measure |
| ScalerLaws.DistanceBounded | internal/scaler/scaler.go:114-194 | that measure is at most Max - mod + 2 when growing, mod + 1 when shrinking and mod when off |
| ScalerLaws.ScalerConverges | internal/scaler/scaler.go:105-195 | on or off and for every baseline, repeated calls with fixed inputs reach a fixed point of state, modifier and capacity within that many calls |
| ScalerLaws.NeverOscillates | internal/scaler/scaler.go:143-147 | with fixed inputs no two of the calls are one that grows and one that shrinks |
| ScalerLaws.DisabledScalerDrains | internal/scaler/scaler.go:114-137 | for every baseline: once disabled, calls with any inputs return true exactly as often as there are workers to take away, then false, and the modifier falls by that number; above a baseline of one or more that is min(mod, capacity - baseline), with a baseline of zero or less it is mod; given calls enough the capacity ends at the baseline iff it was there or the baseline is at least one and the capacity above it by at most the modifier |
| ScaleUtil.ScaleDriver.SetMaxWorkers | setters.go:68-77 | pool size and baseline become the number asked for, or two if that is less than two and nothing is validated; a size that is not positive leaves the pool alone |
| ScaleUtil.ScaleDriver.Scale | scale_util.go:19-64 | charges the bad proxies not accounted for iff the timer fired and the last accounting was more than five seconds ago; sleeps iff the timer fired on an open pool and dispensed plus charge reach the validated; and calls the scaler with the clamped numbers iff the timer fired on an open pool |
| ScaleUtil.ClampNeverFires | scale_util.go:46-51 | considered exceeds validated iff demand is saturated and the threshold is -2 or less; saturated, the difference passed is half the threshold |
| ScaleUtil.WhatIsConsidered | scale_util.go:26-51 | in numbers: the demand, or if that reaches the supply, the supply less half the threshold rounded toward zero |
| ScaleUtil.ChargesAreSpaced | scale_util.go:26-34 | over any calls no two charges are within five seconds of each other |
| ScaleUtil.DemandReachesPool | scale_util.go:46-57 | with the scaler on, room to grow and saturated demand, the pool grows within two calls, within one unless the state has to settle |
| ScaleUtil.SustainedDemand | scale_util.go:43-61 | over any number of calls with saturated demand the modifier grows by one a call up to Max, but for one call that may settle the state, and never falls; a capacity of zero or more follows it, a negative one stays |
| Parse.BuildProxyString | parse.go:44-60 | user:password@ in front only if both are given, address, the closing bracket of an IPv6 address, a colon and the port |
| ParseLaws.DialTargetRecovered | validator_engine.go:172-176 | the split at '@' recovers host:port from the canonical string |
| ParseLaws.DialTargetIff | validator_engine.go:172-176 | with any credentials it does so iff no '@' is in them or they begin with the target itself |
| ParseLaws.HostFirst | parse.go:101-115 | h:p:u:w becomes u:w@h:p iff h:p is a domain with a number, or u:w is no server, or they are the same |
| ParseLaws.HostLast | parse.go:101-115 | u:w:h:p becomes u:w@h:p iff u:w is not a domain with a number, or they are the same |
| ParseLaws.AtSign | parse.go:82-100 | u:w@h:p is kept, empty credentials dropped |
| ParseLaws.NotationsAgree | parse.go:62-115 | the three notations of a domain server normalise to one string unless the credentials read as a domain and a number |
| ParseLaws.CanonicalIsFixed | parse.go:72-100 | filtering twice changes nothing iff there are credentials, or the server is a domain, or netip writes the address as it stands |
| ParseLaws.BracketedWithCredentials | parse.go:11-37 | [a]:p:u:w becomes u:w@[a]:p, or [a]:p if u or w is empty, iff netip parses [a]:p, else the accepted empty string |
| ParseLaws.BracketedIsNotFixed | parse.go:24-36 | filtering that result again gives the empty string, accepted, unless netip parses the whole |
| ParseLaws.ShortBracketMisread | parse.go:101-115 | a bracketed address with two colons lands in the four-field branch and loses its front |
| ParseLaws.PanicsIff | parse.go:33-98 | exactly which texts make filter index out of range |
| ParseLaws.RefusesIff | parse.go:62-121 | exactly which texts filter rejects: no colon; two fields that are no server; three without an '@', or no colon before it; five or more without brackets; three or four that name no server and have no "]:"; and a rejection is always the empty text |
| ParseLaws.TwoFields | parse.go:72-81 | h:p is kept if it is a domain with a number, else it is as netip writes it, else rejected |
| ParseLaws.NumbersAreNumbers | parse.go:39-42 | every integer of 64 bits in decimal notation is a number, signed or not, and no larger one |
| ParseLaws.NumbersAreDigits | parse.go:39-42 | a number is an optional sign and digits |
| ParseLaws.PortlessServer | parse.go:93 | three fields with a domain and no port behind the '@' do |
| ParseLaws.PortlessServerPanics | parse.go:93 | so does "u:p:x@host", if "host" is a domain |
| ParseLaws.UserWithoutPassword | parse.go:30-34 | a bracketed address and port that netip parses, with a user and no password, do |
| ParseLaws.UserWithoutPasswordPanics | parse.go:30-34 | so does "[::1]:80:user", if netip parses "[::1]:80" |

## Left out

- Network, TLS and HTTP (`net.DialTimeout`, `bakeHTTP`, `prepHTTP`, `client.Do`, `socks.Dial`, mr_worldwide.go, socks5_server.go, internal/randtls): each is an oracle's "succeeded" or "failed".
- Rate5, the concurrent map, `container/list` and ants inside: an arbitrary answer, a mathematical map with atomic operations, a sequence, a capacity. A validator is a goroutine from its submission on; that the pool runs no more of them than its capacity is not modelled, nor are `Reboot` and `Release`.
- A proxy record is a value in a sequence, its identity its index, instead of an object on the heap: aliasing between the map, Pending and the lists is by index.
- Sleeps, tickers and timeouts: a tick, a timeout or a killer firing is an oracle's answer. Fairness among goroutines is not assumed, so nothing says that a call ever returns.
- A walk of the map (`IterBuffered`) is a snapshot taken in one step, `delete` is one step (its test and its removal have the effect of the removal alone), and so are the five loads of `isEmpty` inside a dialer, which `Counters.EmptyNow` justifies.
- `recycling` runs as a goroutine of its own and not inside the getter or spawner that calls it; the caller meanwhile may poll.
- Middleware is assumed to hand back the proxy it was given and not to write to it; with another proxy the lock of the first would not be released.
- 64-bit wrap-around of the counters, which would need 2^63 events; `isNumber` does model the 64-bit range.
- `GetDialerBailout` and `GetRemoveAfter` are atomic reads, although setters and getters use different mutexes.
- Concurrent callers of `ScaleAnts`: the scaler's laws are for calls one at a time. The readings of `scale` are taken as one.
- "At most one spawner": a pause and resume in quick succession can leave two, and the theorems allow it.
- Loggers, debug printing, user agents, check endpoints, plain getters and setters, `StateString`, `Proxy.String`, `LoadProxyTXT` (file reading), `CloseAllConns` (a killed connection is an oracle's answer), example/main.go and mystery_resolver.go.
- GetAnySOCKS: the endless loop is cut off after the given number of passes, and then says that it is still waiting.
- GetSocksStr: likewise after the given number of turns.
- MysteryDialer: likewise after the given turns and polls; that its inner loop ends is not claimed, because in the code it does not test the engine's own context.
- JobSpawner: likewise after the given rounds; what `scale` does in between is in ScaleUtil.
- LoadLines: the lines are given, split as bufio.Scanner would split them.
- NotationsAgree: credentials, host and port without ':' and '@'; what happens with '@' in credentials is in ParseLaws.DialTargetIff, IPv6 text is in the Bracketed lemmas.
- ProtocolKnownIffValidated: for a live engine only, since a validation cut short by Close may leave a protocol without a verdict.
