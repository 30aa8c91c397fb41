# Verification of the concurrency, accounting and persistence code

A Dafny 4.11 model of the parts of this repository that have to stay right under every interleaving,
cancellation and crash, with proofs. `dafny verify dfyconfig.toml` checks all of it. The model covers
four systems and two pieces of sequence handling:

1. **The S/P/C resource pipeline** (`Slots`, `Stock`, `Admission`, `Watermarks`, `RegistrationCircuit`,
   `Workers*`, `Fifo`, and in place `Envelopes`, `Inventories`, `Gates`, `Breakers`). Any number of S, P and C workers
   and settle tasks share counting pools, an admission gate, a two-queue inventory and a circuit breaker. `Workers`
   is their step system: every `await` is a stage of an actor, a step ends one await in one way (the normal
   one, a failure, a timeout, a cancellation), and a run is any interleaving of steps. `WorkerTheorems`,
   `WorkerWaits`, `WorkerHysteresis` and `WorkerLeaks` state what holds of every run, `WorkerCircuit` and
   `WorkerLives` what each step does, to the circuit and in a worker's life; `WorkerRuns` gives runs that go wrong.
2. **The breakers and the pacer of the enroller** (`RateGate`, `Pacing`): timed state machines with fresh
   probe tokens over real time, as functions with laws over all call sequences, and as objects.
3. **The authentication pipeline** (`Pipeline*`): bounded queues, a retry heap, a one-place prepare slot,
   operator cancel, pause, shutdown, death of the process at any point and restarts, over one ledger and
   with the gate and the pacer above. `Pipeline` is the step system, `PipelineTheorems`, `PipelineProgress` and
   `PipelineReceipts` the results over runs, `PipelineLaws`, `PipelineMoves`, `PipelineLives` and `PipelineLedger`
   what each event does to gate and pacer, to queues and states, to the tasks and to the ledger, and
   `PipelineObject` the code between two suspensions in place.
4. **The ledger and the two-phase claim** (`Ordering`, `LedgerBook`, `Ledgers`, `Claims`, `ClaimFiles`): job
   and inventory rows, the ranked claim, files moved one at a time, and recovery after stopping anywhere.
5. **Framing** (`LineFraming`, `WireFraming`): the exporter's follow loop against whole-stream splitting,
   and the request encoder against a reference reader of the Protocol Buffers encoding and of the
   gRPC length-prefixed message.

The functions of a module are the specification. The classes repeat the source's objects, with its fields,
branches and loops, and each method is proved to do what the function says. Time is real, a fresh token is a
fresh number, a foreign call is an event with every outcome, a database transaction and a file rename are
atomic.

No map comprehension is used: Dafny 4.11 fixes what such a map holds outside its domain, so that two of them
that are equal as maps can contradict each other. Maps are built by updates instead.

## What the proofs found

- An S worker cancelled inside `notify_changed` (grok_register/register.py:2250) discards an envelope that the
  inventory already owns: a slot is free while its T is still in stock (`DiscardHappens`, `DiscardBreaks`).
  docs/architecture.md:143 says that every acquired slot is released once and only once in the end; counted over
  unreleased envelopes this holds always (`SlotConservation`), counted over the stock exactly up to that event.
- The commit of a credential is not safe from a second cancellation (`SomeRunCutsCommit`). Only the first await of
  the store is shielded (auth_pipeline.py:857-866): after one cancellation the task waits for the store itself, and
  another one ends the task without the ledger's half, while the sink's thread still writes. One way there is `q`
  during a store and then Ctrl-C, which cancels the wait at service.py:677, through it the shutdown's own
  `gather`, and through that the completion worker again. The row stays pending, that shutdown does not come to
  its settling, and the next process authorizes the source anew. `StoreOutcomeIff` gives the exact condition.
- Three cancellations cost permits for good (`LossesExplained`, with a run for each in `WorkerRuns`): a P worker
  cancelled while its page is being closed (register.py:1973-1983) keeps a physical and a send permit, one
  cancelled in its own handler (register.py:2360-2365) the pending permits left, and a settle task cancelled while
  polling keeps its pending permit on purpose.
- A cancellation that hits the release of a lease, or any of the other steps that `LeaksExplained` lists, leaves
  `t_in_progress` or `q_inflight` too high for good: `_TProductionLease.release` (admission.py:18-24) has set its
  flag already, and nobody repeats a cut `release_one` (admission.py:35-43). A side whose leaks reach the high mark,
  or stay above the low mark in a pause, never produces again (`StarvedForEver`, `OneCancelStarvesT`,
  `TwoCancelsStarveQ`).
- Once every physical or send permit is lost, whoever needs one waits for ever (`GoneForEver`); short of that every
  wait leads to somebody who can go on (`Progress`, `WaitsUnlessGone`).
- `_acquire_many` holds some permits while it waits for others; that never happens behind the gate when
  `q_high` is at most the pending capacity. With the derived watermarks, for all settings, no worker ever waits
  there if and only if the capacity is at least 1 (`CapacityIff`); with none the gate still grants and the worker
  waits for ever (`NoCapacityBlocks`, `BlockedForEver`).
- `_TProductionLease.release` sets its flag before it waits for the lock, so "at most once" is unconditional
  and "exactly once" holds iff the first caller gets the lock.
- `can_submit(None)` is accepted while no token is current (`SubmitRule`); the circuit opens up to one
  millisecond early because of rounding (`GrantSpacing`).
- FIFO order needs a wall clock that does not step back (`ClockMatters`).
- A receipt made of spaces is stocked by `finish` but never claimable (`SomeClaimTakesIt`).
- The follow loop drops repeated emails only within its first read, so with repeated emails the output, and with
  over-wide repeated documents even the refusal, depends on where that read ends (`OutputIsChunkFreeIff`,
  `RefusalIsChunkFreeIff`).
- The tag of a length-delimited field is one byte, so exactly the numbers 1 to 15 survive; and
  `encode_create_session_request` nests the two credentials one level less than its documentation says
  (`DocumentedLayoutRefused`). The model follows the code.

## Model

| member | source | states |
|---|---|---|
| WorkerTheorems.PermitConservation | grok_register/register.py:1865-2373 | In every reachable state of any number of workers and settle tasks, under any mix of failures, timeouts and cancellations: free + held + kept + lost permits equal the capacity, for the physical, send and Q-pending pools; so no permit is released twice. |
| WorkerTheorems.LossesExplained | grok_register/register.py:1973-2009 | Over every run the permits lost are exactly the cost of three kinds of cancelled step: a P worker closing its page (a physical permit, and a send permit if there are such), a settle task while polling (its pending permit), a P worker in its own handler (the pending permits it still owns, none if it owns none); and none is lost if and only if no step of the run costs one. |
| WorkerRuns.PageLossHappens | grok_register/register.py:1973-1983 | A concrete run in which a cancelled page close loses a physical and a send permit. |
| WorkerRuns.KeptLossHappens | grok_register/register.py:2000-2009 | A concrete run in which a settle task cancelled while polling keeps its pending permit. |
| WorkerRuns.PendingLossHappens | grok_register/register.py:2360-2365 | A concrete run in which a P worker cancelled twice loses a pending permit in its handler. |
| WorkerTheorems.LossStep | grok_register/register.py:1969-2373 | One step changes each of the four loss counters (physical, send, kept and lost pending permits) by exactly the cost of that step. |
| WorkerTheorems.AcquireNeverBlocks | grok_register/register.py:1865-1876 | Behind the gate, with `q_high` at most the pending capacity, a worker inside `_acquire_many` always finds a free permit. |
| WorkerWaits.DerivedMarksNeverBlock | grok_register/register.py:719-771 | The same for the watermarks that `main` derives, for all integer settings with a pending capacity of at least 1. |
| WorkerRuns.CapacityIff | grok_register/register.py:719-771 | With the watermarks that `main` derives, for all integer settings: in no reachable state does a worker behind the gate stand before an empty pending semaphore, if and only if the pending capacity is at least 1. |
| WorkerRuns.NoCapacityBlocks | grok_register/register.py:1865-1876 | With no pending permit at all, for any marks and any workers: a two-step run in which the gate grants a batch and the worker stands before the empty semaphore. |
| WorkerRuns.BlockedForEver | grok_register/register.py:1865-1876 | No continuation of the run, whatever the others do, gets that worker further unless it is cancelled. |
| WorkerTheorems.ReleaseIsExact | grok_register/core/admission.py:35-43 | A share that an actor is about to release is still owed by its lease, in every reachable state: the release takes one from the lease and one from `q_inflight`, which stays non-negative. |
| WorkerTheorems.SlotConservation | grok_register/core/envelope.py:26-48 | Free slots + envelopes created and not yet released equal the capacity, on both sides, in every reachable state. |
| WorkerTheorems.QOwnership | grok_register/register.py:2017-2042 | On the Q side every unreleased envelope is in exactly one place, and free + stocked + held by pair leases and settle tasks equal the capacity, whatever is cancelled where. |
| WorkerTheorems.TOwnership | grok_register/register.py:2240-2259 | On the T side the same, on every run in which no S worker is cancelled inside `notify_changed` after handing its T over. |
| WorkerTheorems.DiscardBreaks | grok_register/register.py:2250-2255 | That cancellation breaks it at once: one slot too many is free. |
| WorkerRuns.DiscardHappens | grok_register/register.py:2245-2255 | A concrete run in which it happens. |
| WorkerTheorems.StockNeverOverflows | grok_register/register.py:2243-2272 | Stocked + leased-but-not-deposited T (and Q) never exceed the high watermark, although a deposit precedes the release of its lease. |
| WorkerTheorems.NoLostProbe | grok_register/register.py:2567-2623 | While a recovery token is current exactly one worker answers for it. |
| WorkerTheorems.ExitRetires | grok_register/register.py:2516-2623 | On whatever way out a C worker lets go of its token, that token is no longer current. |
| WorkerCircuit.CircuitFollows | grok_register/register.py:256-347 | After any run of the workers the circuit is that of the run's calls alone, in their order, so every law of the circuit over call sequences holds of the workers. |
| WorkerCircuit.SuccessRecovers | grok_register/register.py:2535-2545 | In every reachable state, when a consumption ends by storing its account: with the current token while tripped, the trip is closed, nothing blocks, the circuit recovers until now + recovery and the next submission is due at now + interval; with it in a recovery only the next submission moves, to now + interval; without it nothing changes. |
| WorkerCircuit.LimitTrips | grok_register/register.py:2516-2524 | A consumption that is rate limited trips the circuit, whatever it holds: blocked for at least a cooldown from now, no recovery, no token; the time of the first trip stays. |
| WorkerCircuit.FailureDefers | grok_register/register.py:2551-2623 | Every other end of a begun consumption, and the worker's own last call, put the holder's token off, by another cooldown while tripped and another interval in a recovery; for everybody else nothing changes. |
| WorkerCircuit.ExpiryReleases | grok_register/register.py:2432-2437 | A pair that expires between the breaker and the consumption lets the token go and moves no time. |
| WorkerCircuit.ExpiredAtBreaker | grok_register/register.py:2577-2582 | A pair found expired behind the breaker lets go at once of whatever was granted there. |
| WorkerCircuit.CircuitUntouched | grok_register/register.py:2179-2624 | No other step of any worker touches the circuit. |
| WorkerTheorems.OthersUndisturbed | grok_register/register.py:329-347 | Only the holder's own step or a trip ends the current token: the repeated release and defer calls never disturb another worker's. |
| WorkerTheorems.SubmissionGuard | grok_register/register.py:2463-2500 | A submission begins only in the normal state, or by the worker of the current token while the circuit is closed. |
| WorkerTheorems.InvStep | grok_register/register.py:1865-2624 | Every step of every worker keeps the conservation, lease, stock, probe and ownership invariants together. |
| WorkerExits.PairAlwaysSettled | grok_register/register.py:2412-2623 | Every way out of a C worker's consumption, or of the wait before it (success, failure, expiry, rate limit, timeout, cancellation), gives back both slots of the pair and the physical permit, once. |
| WorkerLives.EndsIffCancelled | grok_register/register.py:2179-2624 | A worker ends if and only if it has been cancelled; whatever else fails, it goes on with its loop; and once cancelled it only gives back what it holds. |
| WorkerLives.ConsumptionInOrder | grok_register/register.py:2412-2623 | A consumption passes its stages in their order, with the same pair: past the breaker valid and with just the token granted, begun valid, submitted valid and with the circuit's leave, stored after the submission. |
| WorkerLives.ClaimedFromStock | grok_register/register.py:2567-2571 | A worker comes by a pair only by claiming the oldest valid T with the oldest valid Q, without a token. |
| WorkerLives.BatchInOrder | grok_register/register.py:2275-2373 | A batch takes one permit for each request of its lease, tries one mailbox for each, sends if it has any, and starts one settle task for each request sent, only after a send that succeeded; otherwise it gives back what it owns. |
| WorkerLives.MintInOrder | grok_register/register.py:2179-2272 | An S worker goes from its lease over the physical permit, the token and the slot to the deposit, and gives the lease back with or without one; a T expires its maximal age after it was solved. |
| WorkerLives.SettleInOrder | grok_register/register.py:1986-2051 | A settle task goes from the poll over the slot to the deposit and the release of its share, or straight to the release; a Q expires its maximal age after its code came. |
| WorkerLives.StockMoves | grok_register/core/inventory.py:61-111 | What a worker stores goes behind the clean stock unless it has expired, a claim takes both heads, and no other step touches the stock. |
| WorkerWaits.WaitOrder | grok_register/register.py:1887-2624 | Whoever waits for a permit or token holds only resources of strictly lower rank (gate lease < Q pending < slot and pair < probe < send < physical). |
| WorkerWaits.RanksGrow | grok_register/register.py:1887-2624 | Along every path of waits, of any length, the rank waited for grows. |
| WorkerWaits.NoWaitCycle | grok_register/register.py:1887-2624 | Permit waits never form a cycle, in any reachable state of any number of actors. |
| WorkerWaits.Progress | grok_register/register.py:1887-2624 | In every reachable state, also after a discard of a stocked T, the waits of any actor behind the gate lead along a path to an actor that lacks nothing; or to one that lacks a physical or send permit when all permits of that kind are lost; or, only where the high mark is above the slot capacity, to a full stock. |
| WorkerWaits.WaitsUnlessGone | grok_register/register.py:1887-2624 | Whoever lacks a physical or a send permit waits for some holder of one if and only if not all permits of that kind are lost. |
| WorkerWaits.GoneForEver | grok_register/register.py:1969-1983 | Once all physical (or send) permits are lost, whoever lacks one waits for ever, whatever the others do, unless it is cancelled or runs into its time limit. |
| WorkerWaits.UnblockedSteps | grok_register/register.py:1887-2624 | An actor that lacks nothing can step. |
| WorkerPermits.PermitsStep | grok_register/register.py:1865-2373 | Every step keeps the sum of free, held, kept and lost permits in all three pools. |
| WorkerLeases.LeasesStep | grok_register/register.py:1998-2051 | Every step keeps the leases in step with the gate: what is in flight covers what the leases still owe and every permit held or wanted. |
| WorkerLeaks.LeaksExplained | grok_register/core/admission.py:18-53 | After every run what the gate counts as in production is exactly the shares still owed plus those that cancelled steps have shed: a lease release cut short, a batch cancelled while its permits are acquired or in the worker's handler, a cancelled poll; and it is just what is owed if and only if no step of the run shed any; for T and for Q. |
| WorkerLeaks.LeakStep | grok_register/core/admission.py:18-53 | One step leaks exactly what it sheds. |
| WorkerLeaks.StarvedForEver | grok_register/core/admission.py:89-124 | Once the leaks of a side reach the high mark, or exceed the low mark during a pause, no worker is granted anything on that side in any continuation. |
| WorkerLeaks.GrantedUnlessStarved | grok_register/core/admission.py:89-124 | With nothing in stock and nothing owed, the next look is granted if and only if the side is not starved so. |
| WorkerLeaks.OneCancelStarvesT | grok_register/core/admission.py:18-24 | A concrete run: one S worker cancelled at the release of its lease starves T production under a high mark of one. |
| WorkerLeaks.TwoCancelsStarveQ | grok_register/register.py:2360-2365 | A concrete run: one P worker cancelled twice starves Q production under a high mark of two. |
| WorkerSlots.OwnedFlow | grok_register/register.py:2017-2042 | Every step but the discard above moves each unreleased envelope from one place to one other. |
| WorkerSlots.CoveredFlow | grok_register/register.py:2240-2259 | Every step, the discard included, keeps each unreleased envelope in stock or in somebody's hands. |
| WorkerSlots.BoundStep | grok_register/core/admission.py:89-124 | Every step keeps stock + owed production within the high watermarks. |
| WorkerProbes.ProbesStep | grok_register/register.py:2429-2623 | Every step keeps the current token in the hands of exactly one C worker. |
| Slots.ReleaseConserves | grok_register/core/envelope.py:40-48 | Releasing any envelopes any number of times conserves permits + unreleased envelopes, and a second release changes nothing. |
| Slots.CreateConserves | grok_register/core/envelope.py:26-38 | Creating an envelope around a permit conserves the sum, and its release restores the pool. |
| Slots.ReleaseTwice | grok_register/core/envelope.py:40-44 | Releasing two groups one after the other is releasing their union once. |
| Envelopes.ResourceEnvelope.ReleaseSlotOnce | grok_register/core/envelope.py:40-44 | Gives back one permit if and only if the envelope was unreleased; the flag and the semaphore go on agreeing. |
| Envelopes.CreateWithSlot | grok_register/core/envelope.py:26-38 | A failure to build the envelope gives the permit back; success binds it to a fresh unreleased envelope. |
| Envelopes.AcquireMany | grok_register/register.py:1865-1876 | All the permits, waiting for each as long as it takes, or, when cancelled at any of the waits, none, whatever other tasks take and give back meanwhile. |
| Stock.FreshTwice | grok_register/core/inventory.py:118-129 | Cleaning early and again later leaves what cleaning once later would. |
| Stock.Split | grok_register/core/inventory.py:118-129 | Cleaning partitions the envelopes into kept and expired, losing none. |
| Stock.FreshIs | grok_register/core/envelope.py:50-56 | Cleaning keeps exactly the envelopes that have no expiry or whose expiry has not passed, that instant included. |
| Inventories.CleanupBuf | grok_register/core/inventory.py:118-129 | The in-place scan keeps exactly the unexpired envelopes in their order and releases the slot of each expired one once. |
| Inventories.Inventory.CleanupExpired | grok_register/core/inventory.py:113-116 | Both queues cleaned, counters and slot pools changed by exactly the expired envelopes. |
| Inventories.Inventory.PutT | grok_register/core/inventory.py:61-74 | Appends behind the clean queue; an envelope expired on arrival is discarded, its slot released and counted, and nothing else changes. |
| Inventories.Inventory.PutQ | grok_register/core/inventory.py:76-89 | The same on the Q side. |
| Inventories.Inventory.TryPopPair | grok_register/core/inventory.py:102-111 | Takes the oldest unexpired T and the oldest unexpired Q together, or neither, and keeps the rest in order. |
| Inventories.PairLease.Settle | grok_register/core/inventory.py:35-42 | Leaving a pair lease releases both slots, each at most once. |
| Fifo.InventoryIsFifo | grok_register/core/inventory.py:61-129 | On every history with a non-decreasing clock the inventory gives out the same pairs as two plain FIFO queues that are never cleaned and skip expired items. |
| Fifo.StepAlike | grok_register/core/inventory.py:61-111 | One operation on the cleaned and on the plain queues has the same result and leaves them alike for ever. |
| Fifo.ClockMatters | grok_register/core/inventory.py:61-111 | For every put time, later cleaning and claim before that cleaning there is a history on which the two differ: the claim misses an item that is valid when it is made. |
| Fifo.HistoryAccounts | grok_register/core/inventory.py:61-129 | On each side, on every history, what was claimed is a subsequence of what was put, without repeats, and puts = depth + claimed + expired. |
| WorkerHysteresis.WorkerHysteresis | grok_register/register.py:2185-2300 | Once an S worker's look at the gate has found the high mark reached, no S worker is granted a production, whatever all the workers and settle tasks do in between, until some S worker's look finds a total at or below the low mark; the same for P workers and batches, where a grant that reaches the mark counts too. |
| WorkerHysteresis.GateFollows | grok_register/core/admission.py:1-124 | The gate after any run of the workers is the gate after that run's looks and releases alone, in their order. |
| Admission.Hysteresis | grok_register/core/admission.py:89-124 | After an acquirer sees the high mark (for Q also after a grant reaches it) nothing is granted until some acquirer sees a total at or below the low mark, whatever happens in between. |
| Admission.PausedStays | grok_register/core/admission.py:89-124 | A paused side stays paused for as long as nobody sees the low mark. |
| Admission.LowMarkServes | grok_register/core/admission.py:89-124 | Whoever sees the low mark is served, and no grant takes a total above the high mark. |
| Admission.BelowHighServes | grok_register/core/admission.py:89-124 | Whoever looks at a side that is not paused and below its high mark is served, a batch with as much as is asked and fits below the mark; all others are not, and nothing else of the gate changes. |
| Gates.MakeGate | grok_register/core/admission.py:68-87 | The gate is built if and only if the marks are non-negative, ordered and the high ones positive. |
| Gates.AdmissionGate.AcquireT | grok_register/core/admission.py:89-102 | One look of a waiting S worker: the gate's next state, and a fresh unreleased lease exactly on a grant. |
| Gates.AdmissionGate.AcquireQ | grok_register/core/admission.py:104-124 | One look of a waiting P worker: refused exactly for a non-positive batch; otherwise the next state and a lease of exactly the granted count. |
| Gates.TProductionLease.ReleaseRepeatedly | grok_register/core/admission.py:18-24 | Any number of releases decrement at most once, and exactly once if and only if the first of them gets the lock. |
| Gates.QBatchLease.ReleaseOne | grok_register/core/admission.py:35-43 | Takes one from the lease and one from `q_inflight`, if anything is left and the lock is reached; nothing otherwise. |
| Gates.QBatchLease.ReleaseAll | grok_register/core/admission.py:45-53 | Takes all that is left, once. |
| Watermarks.MarksWithinCaps | grok_register/register.py:719-771 | For all integer settings the derived marks are accepted by the gate and respect the caps; `q_high` is at most the pending capacity if and only if that is at least 1. |
| Watermarks.HighMarks | grok_register/register.py:719-757 | Without an override `q_high` is the pending capacity, at least 1, and `t_high` the largest of 1, the target and the physical capacity, cut to the slots; an override is cut to 1 … its cap. |
| Watermarks.LowMarks | grok_register/register.py:744-771 | A low mark is its override cut to 0 … high; otherwise the largest number not above half of the high mark, for Q also not above the target, or 0 for a negative one. |
| Watermarks.RaisedMarks | grok_register/register.py:2666-2675 | For tokens minted outside the browser and without an override `t_high` is the larger of the derived one and what target, S workers and physical capacity want, cut to the slots; every other mark is the derived one. |
| Watermarks.MarksGrow | grok_register/register.py:719-771 | The high marks are monotone in the capacities and targets. |
| RegistrationCircuit.CircuitStates | grok_register/register.py:256-347 | Over every run: probe-active iff a token is current; a current token implies tripped or recovering; tripped excludes recovering. |
| RegistrationCircuit.GrantSpacing | grok_register/register.py:270-293 | A token is granted only while none is current and never while open; while tripped not before one cooldown (less a millisecond of rounding) after the latest setback; in recovery not before one interval after the latest settled submission. |
| RegistrationCircuit.SubmitRule | grok_register/register.py:295-303 | Outside the normal state nobody may submit while open, and otherwise exactly the holder of the current token, or, while none is current, a caller that passes `None`. |
| RegistrationCircuit.RetiredForGood | grok_register/register.py:256-303 | A token retired once, by a trip or otherwise, is never accepted again outside the normal state, whatever happens. |
| RegistrationCircuit.TripRetires | grok_register/register.py:256-268 | A trip retires every token handed out so far and leaves the normal state; the circuit is then open. |
| RegistrationCircuit.TripLaw | grok_register/register.py:256-268 | A trip keeps the circuit open for a cooldown from now, never shortens a block, ends a recovery, leaves no token current and keeps the time of the first trip. |
| RegistrationCircuit.OpenIff | grok_register/register.py:250-254 | The circuit is open exactly until a millisecond before its blocking time. |
| RegistrationCircuit.PollRule | grok_register/register.py:270-293 | After any run, who passes without a token, who is granted one and who sleeps, in the circuit's fields and times. |
| RegistrationCircuit.HolderReports | grok_register/register.py:305-347 | What success, release and deferral by the holder of the current token do, tripped and in a recovery, in the circuit's fields; the token is current no more in each case. |
| RegistrationCircuit.StaleIgnored | grok_register/register.py:305-347 | A report with `False` or with a token that is not current changes nothing. |
| RegistrationCircuit.NoneCloses | grok_register/register.py:305-327 | With `None` anybody closes a trip, as its holder would; in a recovery `None` counts as a submission only while no token is out. |
| RegistrationCircuit.RecoveryPhase | grok_register/register.py:270-318 | After the holder has closed a trip at t, whatever is called without another trip: the circuit recovers until t + recovery, nobody passes without a token before, tokens are granted one at a time and each an interval after the last settled submission, and the first poll from then on with no token out finds the circuit normal. |
| RegistrationCircuit.SoundRun | grok_register/register.py:256-347 | The invariants behind these hold after every sequence of calls. |
| Breakers.RegistrationRateLimitCircuit.TripNow | grok_register/register.py:256-268 | The object's new state is that of the circuit, and the result says whether a new window starts. |
| Breakers.RegistrationRateLimitCircuit.WaitTurn | grok_register/register.py:270-293 | One turn of the waiting loop: the decision and the state of the circuit. |
| Breakers.RegistrationRateLimitCircuit.Consume | grok_register/register.py:305-318 | Closes the trip for the current token and starts recovery; stale tokens change nothing. |
| Breakers.RegistrationRateLimitCircuit.Complete | grok_register/register.py:320-327 | Ends one recovery submission exactly for the current token. |
| Breakers.RegistrationRateLimitCircuit.Release | grok_register/register.py:329-333 | Lets the current token go without a new cooldown. |
| Breakers.RegistrationRateLimitCircuit.Defer | grok_register/register.py:335-347 | Lets the current token go with a full cooldown or interval. |
| RateGate.CooldownLaw | xai_enroller/auth_pipeline.py:48-119 | After any run the cooldown is min(300, base·1.5^(n−1)) for n consecutive applied trips, and a probe is granted while tripped no earlier than one such cooldown after the latest limited or inconclusive outcome. |
| RateGate.CooldownGrows | xai_enroller/auth_pipeline.py:82-90 | The cooldown never shrinks in n, is capped at 300, is 300 outright for a larger base, and is the base at the first trip. |
| RateGate.CapIsReached | xai_enroller/auth_pipeline.py:82-90 | With a positive base the cap is reached after finitely many trips. |
| RateGate.LateResultsIgnored | xai_enroller/auth_pipeline.py:71-119 | While tripped an outcome without the current probe changes nothing. |
| RateGate.AskRule | xai_enroller/auth_pipeline.py:48-69 | Nobody is let through a closed gate or while paused; everybody while it is clear; while tripped one prober at a time, as soon as the cooldown is over. |
| RateGate.LimitTrips | xai_enroller/auth_pipeline.py:71-90 | A rate limit counts exactly when the gate is clear or with the current probe; then there is one trip more, its deserved cooldown runs from now, no probe is current, and the time of the first trip stays. |
| RateGate.ProberReports | xai_enroller/auth_pipeline.py:92-119 | The prober's authorization clears the gate and tells how long it was tripped; its inconclusive outcome puts the next probe off by the cooldown in force. |
| RateGate.ClosedForGood | xai_enroller/auth_pipeline.py:48-125 | A closed gate lets nobody through, whatever is called afterwards. |
| RateGate.TripHolds | xai_enroller/auth_pipeline.py:48-125 | From a trip on nobody is let through before its cooldown is over, whatever is called meanwhile, and then the first to ask may probe. |
| RateGate.OutcomesRetire | xai_enroller/auth_pipeline.py:71-125 | Every outcome reported with the current probe, and closing, leaves no probe current. |
| RateGate.SoundRun | xai_enroller/auth_pipeline.py:48-125 | The invariants behind these hold after every sequence of calls. |
| RateGate.GlobalRateLimitGate.PermissionTurn | xai_enroller/auth_pipeline.py:48-69 | One turn of `wait_for_permission`: refused when closed, a probe only when none is out and the cooldown is over. |
| RateGate.GlobalRateLimitGate.RateLimited | xai_enroller/auth_pipeline.py:71-90 | Applied exactly when not yet tripped or with the current probe; the growth is computed by repeated multiplication. |
| RateGate.GlobalRateLimitGate.Authorized | xai_enroller/auth_pipeline.py:92-106 | Clears the trip exactly for the current probe, and tells how long it lasted. |
| RateGate.GlobalRateLimitGate.Inconclusive | xai_enroller/auth_pipeline.py:108-119 | Starts another cooldown exactly for the current probe. |
| RateGate.GlobalRateLimitGate.CloseDown | xai_enroller/auth_pipeline.py:121-125 | No permission any more and no probe current. |
| RateGate.Grow | xai_enroller/auth_pipeline.py:81 | The power of the growth factor, by a loop. |
| Pacing.IntervalBounded | xai_enroller/auth_pipeline.py:156-206 | The live interval stays in [base, max] under every sequence of notes if and only if base ≤ max; it always is with the default maximum. |
| Pacing.ReturnsToBase | xai_enroller/auth_pipeline.py:194-206 | From any interval in range finitely many successes in a row, a number given by the excess over the base, bring it back to exactly the base and keep it there. |
| Pacing.LimitRaises | xai_enroller/auth_pipeline.py:186-192 | A rate limit never shortens the interval; below the maximum it grows at least by the factor and to the floor, and no further than the largest of these and the base. |
| Pacing.SuccessDecays | xai_enroller/auth_pipeline.py:194-206 | Three successes in a row are only counted, the fourth takes off 12 percent, or goes to the base where that comes within a twentieth of a second of it; at the base successes are only counted. |
| Pacing.FirstStart | xai_enroller/auth_pipeline.py:156-181 | A pacer starts at its base, not negative, with the default maximum of 90 seconds or eight times the base, and first waits one base interval. |
| Pacing.WaitIsShort | xai_enroller/auth_pipeline.py:176-181 | Nobody waits longer than one interval after the last start. |
| Pacing.OneSuccess | xai_enroller/auth_pipeline.py:194-206 | A success above the base brings the number of successes still needed down. |
| Pacing.WaitKeepsInterval | xai_enroller/auth_pipeline.py:176-184 | Whoever waits as told starts at least the live interval after the last start. |
| Pacing.MinimumStartInterval.NoteRateLimited | xai_enroller/auth_pipeline.py:186-192 | Raises the live interval, at least to the floor and at most to the maximum. |
| Pacing.MinimumStartInterval.NoteSuccessful | xai_enroller/auth_pipeline.py:194-206 | Decays it after four successes in a row, snapping to the base. |
| Pacing.MinimumStartInterval.WaitTime | xai_enroller/auth_pipeline.py:176-181 | The time to sleep, never negative. |
| PipelineTheorems.SingleOwnership | xai_enroller/auth_pipeline.py:400-511 | In every reachable state a source is in at most one place (a caller's or worker's hand, source queue, prepared queue, authorizing, completion queue, completing, retry heap) and in none when unknown, imported or terminal; while the process runs it is in exactly one if queued, prepared, active or waiting for a retry, and that place goes with its state. |
| PipelineTheorems.PendingRowsHeld | xai_enroller/auth_pipeline.py:458-484 | Every pending job row is held by exactly one place, under its source's name, while the process runs; no finished row is held. |
| PipelineTheorems.ImportedOnce | xai_enroller/auth_pipeline.py:880-897 | Across restarts, crashes, operator cancels and shutdowns the pipeline imports a source at most once; with no other ledger writer at most one of its rows ever becomes imported. |
| PipelineTheorems.CommitIsWhole | xai_enroller/auth_pipeline.py:853-897 | Credentials written by the sink = imported rows of this pipeline + commits in progress + commits cut by the death of the process + commits cut by a second cancellation; all of them are commits if and only if there are none of the last two. |
| PipelineReceipts.CommitRecords | xai_enroller/auth_pipeline.py:880-897 | In every reachable state a commit ends its row as imported, now, with the receipt in hand, and stocks that receipt as available unless it is empty or stocked already; no other row and no other entry changes. |
| PipelineReceipts.SunkRecords | xai_enroller/auth_pipeline.py:853-879 | The receipt in hand is the one that the sink delivered for that job. |
| PipelineReceipts.ReceiptsMatch | xai_enroller/ledger.py:116-135 | Over every run with restarts each imported row carries the receipt that the sink delivered for that row (for another writer's row, its own). |
| PipelineReceipts.ImportsAreClaimable | xai_enroller/ledger.py:116-172 | In every reachable state the receipt of every imported row is in stock and available, unless it is empty, and ranked by a claim, unless it is all spaces. |
| PipelineLedger.LedgerFollows | xai_enroller/auth_pipeline.py:353-943 | Every event leaves the ledger as its own ledger calls do, with those rows, statuses, reasons, receipts and times. |
| PipelineLedger.LedgerOfRun | xai_enroller/ledger.py:90-236 | The ledger of every reachable state is that of a sequence of ledger calls none of which touches a claim, so every law over ledger calls holds of the pipeline. |
| PipelineTheorems.StoreIsNotCut | xai_enroller/auth_pipeline.py:853-897 | From the start of the store to the commit nothing but the store's own outcome and a second cancellation takes the job or its pending row away; the first cancellation is only noted, and the shutdown cannot finish. |
| PipelineTheorems.StoreOutcomeIff | xai_enroller/auth_pipeline.py:857-891 | While the process lives, a store that has begun comes to its own outcome, which finishes its row, if and only if at most one cancellation is delivered to its task between its start and its end; otherwise the task is dead and the row pending. |
| PipelineTheorems.SomeRunCutsCommit | xai_enroller/auth_pipeline.py:857-891 | A concrete run: two cancellations during a store; the credential is written, no row of its source is imported, and the next process does not know the source. |
| PipelineTheorems.RowsAreFinal | xai_enroller/ledger.py:116-135 | Over every run, restarts included, no row is lost or renamed and a finished row never changes. |
| PipelineTheorems.ShutdownLeavesNothing | xai_enroller/auth_pipeline.py:331-371 | When the shutdown has returned no place holds a source and no row is pending. |
| PipelineTheorems.RetryBudget | xai_enroller/auth_pipeline.py:915-942 | In one process a source fails transiently at most four times and is terminal after the fourth; before that its counter is the number of failures. |
| PipelineTheorems.OnlySlipsCount | xai_enroller/auth_pipeline.py:915-942 | Rate limits and cancels do not count: only a transient failure of the source in hand does, once. |
| PipelineTheorems.FinalForLife | xai_enroller/auth_pipeline.py:400-412 | A terminal or imported source stays so for the life of the process and is never tried again. |
| PipelineTheorems.RetriesInOrder | xai_enroller/auth_pipeline.py:433-452 | A non-empty heap has one first entry; the retry worker takes it once it is due, and never another. |
| PipelineTheorems.StartsAreGated | xai_enroller/auth_pipeline.py:560-624 | For every base cooldown: every confirmation starts while not paused and at least the live interval after the last start; while tripped (and not closed) it carries the single current probe and starts no earlier than the deserved cooldown after the latest limited or inconclusive outcome. |
| PipelineLaws.PaceMoves | xai_enroller/auth_pipeline.py:176-206 | Over every event but a restart: a rate limit that the gate counts sets the live interval to min(max, max(1.55·interval, base, 18)) and the streak to 0; an authorization counts one success, with the decay at the fourth; no other event changes either; and exactly the start of a confirmation moves the last start, to now. |
| PipelineLaws.PaceAtBoot | xai_enroller/auth_pipeline.py:156-174 | A new process paces from its setting, as if it had just started a confirmation. |
| PipelineLaws.PaceWait | xai_enroller/auth_pipeline.py:560-567 | The authorization task waits until one live interval after the last start and no longer, then until not paused, and then goes to the gate or gives up a source imported meanwhile. |
| PipelineLaws.GateMoves | xai_enroller/auth_pipeline.py:48-125 | In every reachable state, over every event but a restart: trips, cooldown, next probe time and the current probe change by a counted rate limit, an authorization with the current probe, every other way out of the task with the current probe, the grant of a probe and the closing, each exactly as said; and by nothing else. |
| PipelineLaws.PermitRule | xai_enroller/auth_pipeline.py:48-69 | At the gate the task goes on when the gate is clear, or as the only prober once the cooldown is over; it stays otherwise, and ends at a closed gate. |
| PipelineTheorems.BaseIsKept | xai_enroller/service.py:790-793 | Over every run, restarts included, the base of the cooldown is the setting that the running process was started with. |
| PipelineTheorems.NoLostProbe | xai_enroller/auth_pipeline.py:560-750 | The current probe is always the authorization task's; every way out of `_authorize` leaves none current. |
| PipelineTheorems.IntervalInRange | xai_enroller/auth_pipeline.py:156-206 | In every reachable state the live interval is within its base and its maximum. |
| PipelineTheorems.QueuesBounded | xai_enroller/auth_pipeline.py:458-484 | The queues keep their capacities, and the put into the one-place prepared queue never waits. |
| PipelineMoves.QueuesAreFifo | xai_enroller/auth_pipeline.py:400-543 | Over every run of a process each of the three queues is first in, first out: what was queued and came in since is what was taken and then what is left. |
| PipelineMoves.RetriesWait | xai_enroller/auth_pipeline.py:423-452 | An entry goes on the heap with its task's due time and the next number, and comes off only as the first one and due, into the retry worker's hand; nothing else changes the heap until it is emptied. |
| PipelineMoves.StatesMoveAlong | xai_enroller/auth_pipeline.py:400-943 | Within a process the state of a source changes only along the edges of one graph, each by its own event of the worker that has the source in hand, or, out of the wait for a retry, when its entry is due. |
| PipelineLives.SwitchesHold | xai_enroller/auth_pipeline.py:328-398 | Pause, resume, stop and time change exactly what they name, no other event does, and the shutdown has returned exactly after every task has ended behind a closed gate and it was not cancelled. |
| PipelineLives.PrepInOrder | xai_enroller/auth_pipeline.py:454-511 | The prepare worker moves exactly when its event is possible, to the next of its stages, and has the slot for exactly one round. |
| PipelineLives.AuthInOrder | xai_enroller/auth_pipeline.py:530-750 | The authorization task moves exactly when its event is possible (a put while its queue is not full, a start while not paused), to the next of its stages, and ends only in a shutdown. |
| PipelineLives.CompInOrder | xai_enroller/auth_pipeline.py:752-913 | The completion task moves exactly when its event is possible, to the next of its stages; one cancellation during the store only ends it after the commit. |
| PipelineLives.ImportForgets | xai_enroller/auth_pipeline.py:546-558 | A source that becomes imported has no retry count any more, and all other counts stay. |
| PipelineTheorems.CancelIsIdempotent | xai_enroller/auth_pipeline.py:379-398 | `cancel_active` cancels the authorization if that is cancellable and not cancelled yet, else a polling completion not cancelled yet, else nobody; so without a step in between each is cancelled once. Nothing else is touched. |
| PipelineProgress.MovesBounded | xai_enroller/auth_pipeline.py:400-943 | A measure of what is left to do bounds every run of an uncancelled process, paused or not: moves + work left at the end are at most the work at the start + 18 for each source admitted or taken from the heap; so no source circulates without coming to its end or back onto the heap. |
| PipelineProgress.WorkerStepCounts | xai_enroller/auth_pipeline.py:400-943 | Every step that moves a source, or takes the slot for one, strictly decreases that measure, unless it admits a source or takes one from the heap. |
| PipelineProgress.NeverStuck | xai_enroller/auth_pipeline.py:400-943 | While the process runs, is not paused and has anything in work, some worker has a step after a finite wait, without any cancel, that strictly decreases the measure. |
| PipelineProgress.EverythingSettles | xai_enroller/auth_pipeline.py:400-943 | From every reachable state of a running, unpaused process the workers can come to rest; every source is then imported, terminal, or waits exactly once on the heap. |
| PipelineProgress.HeapIsServed | xai_enroller/auth_pipeline.py:433-452 | At rest with a non-empty heap, the retry worker takes the first entry after a finite wait and its source is in work again. |
| PipelineTheorems.SomeRunCommits | xai_enroller/auth_pipeline.py:400-897 | A concrete run takes a source from admission to its imported row and its receipt into the stock, available. |
| PipelineTheorems.InvStep | xai_enroller/auth_pipeline.py:331-943 | Every event keeps ownership, rows, names, imports, budget, gate, pace and queue invariants together. |
| PipelineOutcomes.RowTellsAll | xai_enroller/auth_pipeline.py:458-943 | Whichever task ends a pending row, on whatever way out, in every reachable state: the status and the reason written to the row decide what becomes of the source: imported; tried again at once, after a minute, or as a counted transient failure; terminal; or left by the shutdown as it is. |
| PipelineOutcomes.AfterFlaky | xai_enroller/auth_pipeline.py:669-748 | Every flaky outcome counts: tried again after 5, 15, 30 seconds, terminal at the fourth, with its own status and reason in the row. |
| PipelinePlaces.OwnStep | xai_enroller/auth_pipeline.py:331-943 | Every event keeps places and states in step. |
| PipelineRows.RowStep | xai_enroller/auth_pipeline.py:458-943 | Every event keeps pending rows and their holders in step. |
| PipelineImports.RowsOverStep | xai_enroller/ledger.py:116-135 | Every event keeps finished rows; only the commit of a stored credential or another writer makes an imported one. |
| PipelineImports.FinalStays | xai_enroller/auth_pipeline.py:400-452 | No event but a restart changes the state of a source that is terminal or imported. |
| PipelineHistory.ImportsStep | xai_enroller/auth_pipeline.py:853-897 | Every event, a second cancellation and a store that outlives its task included, keeps the accounts of sink, commits and imported rows. |
| PipelineHistory.BudgetStep | xai_enroller/auth_pipeline.py:915-942 | Every event keeps the retry counter equal to the transient failures until the source is terminal. |
| PipelineGate.GatedStep | xai_enroller/auth_pipeline.py:560-750 | Every event keeps the gate's probe and the authorization task's in step. |
| PipelineGate.PacedStep | xai_enroller/auth_pipeline.py:176-184 | Every event keeps a task that has waited at least the live interval past the last start. |
| PipelineQueues.QueuesStep | xai_enroller/auth_pipeline.py:458-511 | Every event keeps the queue bounds and the one prepare slot: free, with the worker, or stood for by the prepared queue. |
| PipelineObject.AuthPipeline.constructor | xai_enroller/auth_pipeline.py:231-287 | A new process: pending rows cancelled, every imported source known, all else empty. |
| PipelineObject.AuthPipeline.AdmitSource | xai_enroller/auth_pipeline.py:400-404 | Admits exactly the sources that are in no state yet. |
| PipelineObject.AuthPipeline.RetryTurn | xai_enroller/auth_pipeline.py:433-451 | Finds the entry that comes first by due time and sequence and takes it exactly when due. |
| PipelineObject.AuthPipeline.StartAttempt | xai_enroller/auth_pipeline.py:462-465 | Takes the source at the head of the queue and starts its next attempt. |
| PipelineObject.AuthPipeline.StartConfirmation | xai_enroller/auth_pipeline.py:605-609 | Gives the job up if its source has been imported elsewhere; otherwise marks source, pace and row as started. |
| PipelineObject.AuthPipeline.ParkAuthorization | xai_enroller/auth_pipeline.py:423-431 | Puts the source on the heap behind the entries already there. |
| PipelineObject.AuthPipeline.FinishFailure | xai_enroller/auth_pipeline.py:915-942 | Finishes the row and decides between another retry, its delay, and the end. |
| PipelineObject.AuthPipeline.FinishIfAlreadyImported | xai_enroller/auth_pipeline.py:546-558 | Gives the job up exactly when another writer has imported its source. |
| PipelineObject.AuthPipeline.AfterConfirm | xai_enroller/auth_pipeline.py:622-691 | Gate, pacer, row, state and retry after each outcome of the confirmation. |
| PipelineObject.AuthPipeline.AfterCancel | xai_enroller/auth_pipeline.py:692-710 | The cancellation handler, for the operator and for the shutdown. |
| PipelineObject.AuthPipeline.CommitStored | xai_enroller/auth_pipeline.py:880-897 | The ledger's half of the commit. |
| PipelineObject.AuthPipeline.CancelWhoever | xai_enroller/auth_pipeline.py:379-398 | Whom the operator's cancel hits, if anyone. |
| PipelineObject.AuthPipeline.SettleBufferedAttempts | xai_enroller/auth_pipeline.py:353-371 | Drains the queues, finishing every buffered attempt, and leaves no pending row. |
| LedgerBook.RowsAreFinal | xai_enroller/ledger.py:116-135 | A job row leaves pending at most once and never changes afterwards, whatever sequence of ledger calls follows. |
| LedgerBook.AttemptsAreNumbered | xai_enroller/ledger.py:99-106 | The attempts of every source are numbered 1, 2, 3, … in the order of their rows. |
| LedgerBook.RecoveryLeavesNone | xai_enroller/ledger.py:223-228 | After `recover_pending` no row is pending and the imported sources are the same. |
| LedgerBook.FinishWrites | xai_enroller/ledger.py:116-135 | A pending row ends with what it is told, and a receipt of an import is stocked as available if it is new and not empty; no other row or entry changes, and nothing at all for a row that is not pending. |
| LedgerBook.StartWrites | xai_enroller/ledger.py:87-114 | An attempt is a new last row, pending and not begun; the mark of its start is set on a pending row only. |
| LedgerBook.RecoveryWrites | xai_enroller/ledger.py:223-228 | Each pending row is cancelled with the reason and the time given; nothing else changes. |
| LedgerBook.Refusals | xai_enroller/ledger.py:137-144 | A claim of nothing returns nothing; a claim or a marking without a batch name is refused; neither changes anything. |
| LedgerBook.ClaimIsExact | xai_enroller/ledger.py:137-172 | After any run a claim returns exactly min(limit, available) distinct receipts, each before every one left behind by latest finish descending then name, and moves these rows and no others. |
| LedgerBook.JoinIsComplete | xai_enroller/ledger.py:145-163 | An available row is found by the claim's join if and only if its receipt is not all spaces. |
| LedgerBook.SomeClaimTakesIt | xai_enroller/ledger.py:137-172 | An available receipt can be claimed by some claim if and only if it is not all spaces. |
| LedgerBook.BlankStaysForever | xai_enroller/ledger.py:116-172 | A receipt of spaces stays available through every run. |
| LedgerBook.BlankIsStocked | xai_enroller/ledger.py:125-135 | `finish` does stock such a receipt: a concrete book. |
| LedgerBook.BatchesAreDisjoint | xai_enroller/ledger.py:137-184 | Two claims share no receipt, whatever comes between them but the return of the first batch. |
| LedgerBook.HeldUntilReturned | xai_enroller/ledger.py:137-221 | A claimed or claiming receipt keeps its batch until that batch is returned. |
| LedgerBook.ClaimedForever | xai_enroller/ledger.py:174-184 | A claimed row never changes again: no import and no recovery moves it. |
| LedgerBook.StockIsImports | xai_enroller/ledger.py:64-75 | After any run the stocked receipts are exactly the non-empty ones of imported rows, so the restocking done when the ledger is opened changes nothing. |
| LedgerBook.ReturnUndoesClaim | xai_enroller/ledger.py:210-221 | Returning a batch makes exactly the receipts of its claim available again, and counts them; only their note differs. |
| LedgerBook.ClaimThenMark | xai_enroller/ledger.py:137-184 | Marking a batch completes its claim: it moves exactly the receipts that the claim returned to claimed, with batch, time and note, counts them, touches no other row, and leaves nothing of the batch to be returned. |
| LedgerBook.LatestFound | xai_enroller/ledger.py:146-152 | The latest import of a receipt is the maximum finish time over its imported rows. |
| LedgerBook.Ranked | xai_enroller/ledger.py:153-163 | The ranking lists exactly the claimable receipts, in strictly increasing order. |
| Ordering.LessIff | xai_enroller/ledger.py:153-163 | Names are ordered by their first difference, where the end of a text comes before every character. |
| LedgerBook.PendingClaims | xai_enroller/ledger.py:196-208 | Lists exactly the receipts being claimed, by batch and name. |
| Ledgers.Ledger.FinishJob | xai_enroller/ledger.py:116-135 | Changes a pending row only, and stocks a new non-empty receipt of an import. |
| Ledgers.Ledger.ClaimAvailable | xai_enroller/ledger.py:137-172 | Selects and marks row by row; the whole inventory afterwards is the claim's. |
| Ledgers.Ledger.RecoverPendingJobs | xai_enroller/ledger.py:223-228 | Row by row, every pending row is cancelled and no other touched. |
| Ledgers.Ledger.AttemptAfter | xai_enroller/ledger.py:99-106 | One more than the largest attempt of the source. |
| Ledgers.Ledger.AlreadyImported | xai_enroller/ledger.py:230-236 | Finds an imported row of the source if and only if there is one. |
| Ledgers.Ledger.MarkClaimedBatch | xai_enroller/ledger.py:174-184 | Row by row: what the batch is claiming is marked, and counted on the way; afterwards nothing of the batch is being claimed, so a repetition marks nothing. What this means after a claim is `LedgerBook.ClaimThenMark`. |
| Ledgers.Ledger.ReturnClaims | xai_enroller/ledger.py:210-221 | Row by row: what the batch, or any batch, is claiming becomes available, and is counted on the way; afterwards nothing of it is being claimed. What this means after a claim is `LedgerBook.ReturnUndoesClaim`. |
| Claims.CrashSafe | xai_enroller/inventory.py:39-105 | A committed claim, stopped after any prefix of `_complete_batch`, then recovered any number of times with each recovery stopped anywhere, then recovered to the end: nothing is refused, no claim is left, and files and rows are those of the uninterrupted run, but for note and time. |
| Claims.ClaimStep | xai_enroller/inventory.py:82-96 | At every point of a claim each of its files is in exactly one of the two places with its content, and no other file has changed. |
| Claims.RecoversIff | xai_enroller/inventory.py:39-49 | `recover` refuses nothing if and only if every receipt being claimed has a usable name and a file in exactly one of the two places. |
| Claims.RestoreBlocks | xai_enroller/inventory.py:88-89 | A credential stored again under a receipt already moved makes recovery refuse. |
| Claims.ClaimIsReady | xai_enroller/inventory.py:27-37 | A claim under an unused batch name, of receipts with usable names and files in place, leaves a world from which the above starts. |
| Claims.PlanKeeps | xai_enroller/inventory.py:82-105 | Stopping anywhere in a legal plan leaves a world that comes to the same end. |
| Claims.RecoverySettles | xai_enroller/inventory.py:39-49 | A recovery of a healthy world succeeds, leaves no claim, and can be stopped anywhere. |
| Claims.SettledSame | xai_enroller/inventory.py:39-105 | Two settled worlds with the same end have the same files, job rows and inventory stages and batches. |
| Claims.CommitRefusals | xai_enroller/inventory.py:99-105 | The commit of a batch is refused exactly without a name or when its rows are not as many as its files; in the latter case they are marked all the same. |
| Claims.NamesAre | xai_enroller/inventory.py:56-59 | A usable name is one letter or digit and at most 127 more of letters, digits, dots, underscores and hyphens; so it is one path component and not a hidden one. |
| ClaimFiles.CredentialInventory.CompleteBatch | xai_enroller/inventory.py:69-105 | Carries out the batch's durable steps in order up to the first refusal, and counts the receipts. |
| ClaimFiles.CredentialInventory.Take | xai_enroller/inventory.py:27-37 | Refuses a non-positive count; otherwise claims and completes the batch. |
| ClaimFiles.CredentialInventory.RecoverAll | xai_enroller/inventory.py:39-49 | Completes every pending batch, up to the first refusal, and counts all receipts recovered. |
| LineFraming.FramingIsChunkFree | scripts/export_registered_sessions.py:74-77 | However the stream is cut into reads, records and tail are those of the whole stream, and it is refused for length under one cutting iff under every other. |
| LineFraming.SplitIff | scripts/export_registered_sessions.py:74-77 | Lines and tail are the split of the data if and only if they are free of newlines and make the data up again. |
| LineFraming.SplitInTwo | scripts/export_registered_sessions.py:157-158 | Splitting the kept tail with the next read continues the split of the whole. |
| LineFraming.FollowIs | scripts/export_registered_sessions.py:138-164 | Every run of the follow loop exactly: when it refuses, what it writes and what it keeps back. |
| LineFraming.DocsOneMore | scripts/export_registered_sessions.py:87-104 | One line more: an empty one is passed over, one that is too long or not accepted spoils everything, any other adds its document at the end. |
| LineFraming.FirstsOneMore | scripts/export_registered_sessions.py:87-110 | One document more is kept, at the end, if and only if none before it has its email. |
| LineFraming.LaterCutsDoNotMatter | scripts/export_registered_sessions.py:154-164 | Once the first read is given, the cutting of the rest changes nothing. |
| LineFraming.RefusalIsChunkFreeIff | scripts/export_registered_sessions.py:131-164 | Refusal depends on the cutting if and only if, in an otherwise acceptable stream, some document is too wide to be written but the first one of every email fits. |
| LineFraming.OutputIsChunkFreeIff | scripts/export_registered_sessions.py:87-164 | The documents written are the same under every cutting if and only if no email occurs twice. |
| LineFraming.LoadSnapshots | scripts/export_registered_sessions.py:87-110 | Keeps the first document of every email, in order, or refuses if any line is not accepted. |
| LineFraming.WriteAll | scripts/export_registered_sessions.py:131-135 | Succeeds if and only if every document fits. |
| LineFraming.WriteLines | scripts/export_registered_sessions.py:161-163 | Decodes and writes line by line, up to the first refusal. |
| LineFraming.ExportAndFollow | scripts/export_registered_sessions.py:138-164 | The loop over the reads. |
| WireFraming.FieldsRoundTripIff | grok_register/http_protocol.py:148-161 | A list of fields under 2^32 bytes each survives the wire if and only if every field number is between 1 and 15. |
| WireFraming.TreeRoundTrip | grok_register/http_protocol.py:159-161 | Every nested message with such numbers and under 2^32 bytes is read back exactly by a reader that knows only its schema. |
| WireFraming.FrameRoundTrip | grok_register/http_protocol.py:153-156 | A frame is made if and only if the message is under 2^32 bytes, and the reader finds exactly that message, whatever follows. |
| WireFraming.VarintRoundTrip | grok_register/http_protocol.py:139-145 | Every varint is read back exactly, whatever follows. |
| WireFraming.VarintIsShortest | grok_register/http_protocol.py:139-145 | No reader gets a number out of fewer bytes than the encoder uses. |
| WireFraming.PbVarint | grok_register/http_protocol.py:139-145 | The loop over seven-bit groups. |
| WireFraming.EncodeCreateSession | grok_register/http_protocol.py:164-184 | The bytes of the request are those of its message tree, and the encoder never fails on it. |
| WireFraming.SessionRoundTrip | grok_register/http_protocol.py:164-184 | The four texts of a framed request are read back exactly, if it fits a frame. |
| WireFraming.DocumentedLayoutRefused | grok_register/http_protocol.py:171-184 | No such request is readable under the layout that the encoder's documentation gives. |

## Left out

- Browser automation, challenge handling, mailbox and sign-up calls, device flow, token polling and the sink's own files are foreign calls: each is an event that succeeds, fails in the ways the code distinguishes, or is cancelled.
- The gate-less worker paths (`admission_gate=None`) and direct calls of `_consume_pair` without a probe are not modelled; `main` starts every worker with a gate.
- Worker loops and the pipeline's coroutines are step systems on values: only the code between two suspensions has an in-place form (`Envelopes`, `Inventories`, `Gates`, `Breakers`, `RateGate`, `Pacing`, `Ledgers`, `ClaimFiles`, `PipelineObject`); suspension itself is the boundary of a step.
- asyncio's locks, conditions, queues and semaphores, and heapq, are taken to be correct, and a cancellation to arrive only where a coroutine is suspended; which of several waiters is woken first is left open.
- In the pipeline, a suspension while the gate's own lock changes hands is merged with the step that follows it; the wait for the retry lock is a step of its own.
- A call that swallows its cancellation, and a ledger call that fails, are not modelled; the pipeline's guard then stops the whole service.
- Fairness of the scheduler is not modelled: `NeverStuck` and `MovesBounded` say that a decreasing step is always there and that only finitely many can be taken, not that one is taken.
- The end of the event loop, which cancels what is left of the tasks, counts as the death of the process. The cancellation of the shutdown itself is an event of its own, of which only the effect on a store and on the settling is modelled.
- Floating-point rounding of times and intervals is left out: they are reals.
- SQLite's locking, fsync, chmod, directory creation and the fingerprint's HMAC are left out; a fingerprint is taken to be injective, so a source is its fingerprint. Stripping of notes and batch names is left out: they are given stripped.
- Wall-clock texts of the ledger are instants; in the pipeline model they are read off the same clock as the monotonic times.
- Two processes that use one claim directory at the same time are not modelled; recoveries follow one another.
- `LineFraming.FollowIs`: does not say what had been printed before a refusal, nor the legacy accounts file that is exported after the first read, nor the detection of a rotated file.
- `LineFraming.ExportAndFollow`: leaves out the legacy accounts file and the check for a rotated file, as above.
- JSON decoding of a session line is a parameter; UTF-8 encoding of request texts is left out, they are given as bytes.
- Metrics, logging, status snapshots, settings parsing, capacity derivation other than the watermarks, SSH transport, the watchdog scripts and the converter carry no property of this kind.
