# A verified model of the BEN daemon

BEN dispatches coding agents to an unreliable remote backend, reloads its own
configuration while it works, and reports on what the agents did. This project
models the parts of it whose correctness spans many functions and proves what they
promise, for every input, every history of calls and every run of the protocols.
`dafny verify dfyconfig.toml` checks all of it.

## What is modelled

**The dispatch protocol** (`StartStore`, `StoreHistory`, `StdinPlanning`, `StdinDelivery`,
`Dispatch`, `DispatchSafety`, `DispatchTheorems`, `DispatchOffers`, `DispatchResends`,
`DispatchProgress`, `DispatchWitness`, `Keys`, with `ReplayWindow` and `Delimiters` beneath
them). One dispatch address owns one durable start binding. `StartStore` is the store that
replaces it, a class whose methods are proved equal to functions on the address's slot;
`StoreHistory` reads every field of the slot back from the operations that were accepted.
`Dispatch` is the
whole protocol as a step machine over the durable store, the volatile daemon, the
backend and the clock. The network is the set of all requests ever sent, so any of
them may be served late, twice, or after the daemon that sent it died. `Return`
abandons a Start at any point: it is an error return, a cancelled context and a crash.
`DispatchSafety` holds the invariant and one preservation lemma per step,
`DispatchTheorems` what follows for every execution, `DispatchOffers` what every start sent
may be, `DispatchResends` which starts can still be sent, `DispatchProgress` that a delivery
cut short anywhere can still be completed, and `DispatchWitness` one complete execution,
so that the theorems are not about nothing.

**The sandbox of a claim** (`SandboxLifecycle`). Reservation, keyed create, replay,
binding and deletion by three facts, as a second step machine. That no sandbox is ever
orphaned turns out to be false of the code: see *Where the code does not keep its word*.

**Environment references and redaction** (`ProvenancePaths`, `EnvResolution`,
`Redaction`). Resolution rewrites the string leaves of a provider block and records
each leaf's origin under a textual path; the redactor reads those paths back. The two
are tied by the injectivity of the path encoding, and the end result is
non-interference: what is printed is a function of the file and the adapters' kinds,
though the kinds are asked about the resolved block.

**Hot reload** (`Assembly`, `HotReload`, `HotReloadTheorems`). The rebuild cascade, the
published cell with its revisions and wake channels, and the reload transaction with
its barrier and deferral, as classes; the theorems quantify over every history of
reload attempts.

**The benchmark comparison** (`BenchTally`, `CellOrder`, `BenchManifest`, `BenchCompare`,
`BenchReport`, `BenchMeaning`, `BenchCoverage`). Manifest validation, the join of attempt
records to runs, the tallies, the matched cases and the figures, with their conservation
laws and the fact that a session has one report. `BenchMeaning` and `BenchCoverage` say what
each figure and each list of a report means on the checks of the runs and the records they
claim, without the accumulators that compute them.

**Two small caches** (`SingleFlight`, `CandidateRetention`). The single-flight
credential fill with any number of callers, and the bounded memory of constructed
trackers against the whole history of constructions.

## What is assumed

Of the backend, in `Dispatch` and `SandboxLifecycle`:

- Validation precedes the claim of a key and depends on the body and the pinned
  envelope alone. An inline body is accepted only within the envelope's inline, total
  and request-body bounds.
- A claimed key is remembered, per principal, for at least 24 hours from the claim.
- No start or create is served after the context deadline it was sent under.
- Stdin appends only at its current length, an exact resend returns its receipt, and
  anything else names the expected offset.

Of the daemon's surroundings:

- At one address one Start is under way at a time, and a claim's own verbs do not
  overlap. `Status`, `Attach` and the learning of an envelope interleave freely.
- The start body at one address varies only in its stdin. No production caller sets
  labels of its own.
- Every store operation is one atomic file replacement that lands or does not.
- Equal principal bindings name one principal, and `Attach` is handed an id that this
  address's run carries.
- The digest behind keys and fingerprints does not collide on the inputs at hand, and
  key parts hold no NUL.
- The reload barrier runs the commit exactly when it returns nil, and the bindings
  compared are functions of the configuration.

## Where the code does not keep its word

A claim may be acquired, deleted, and acquired again while the first sandbox's create
key is still remembered. The second create then replays the deleted sandbox; deleting
it drops the record again; the key expires; and a late copy of the second create makes
a sandbox no record leads to. In `SandboxLifecycle`:

- `AnOrphanIsReachable` reaches that state from an empty one, for every gap between the
  two reservations.
- `SafeIffClean` is the exact condition, over every history from an empty state: none of
  its reservations can end in an orphan if and only if none was made while an older claim
  of its key was still remembered. `ReserveOrphansIffUnclean` says the same of the next
  reservation after such a history. A history that already holds one stale create is
  outside that second statement: its late copy can orphan under any later record.
- A caller does not see the backend's table, and has two rules of its own.
  `AcquiredOnceIsSafe`: acquiring each claim cycle once is safe. `AcquiredAgainOrphans`:
  acquiring a cycle again within 24 hours of its own reservation, once it was deleted, can
  orphan in every history, not only in some.

Planned streaming writes fit the request-body bound exactly when that bound leaves room
for one base64 group. Below that, `bodyFit` still returns three bytes and
`StdinPlanning.PlannedWritesFit` shows that no non-empty write fits at the widest
offset.

That no bundle mixes local and remote parts does not rest on the substrate refusal
alone: a remote runner is also refused over a local workspace strategy. What the refusal
is needed for is that the set belongs to the side its definition declares;
`Assembly.RebuildIsCoherent` and `CarryIsCoherent` give the exact condition.

## Model

| member | source | states |
|---|---|---|
| `StartStore.DirStore.LoadBinding` | internal/airlock/store.go:358-378 | a binding is read exactly when present, of a known version, at its own address, and bound or fenced; otherwise the reason it was not |
| `StartStore.DirStore.ReserveBinding` | internal/airlock/store.go:380-413 | one reservation per address: an existing one is returned untouched and only to the same substrate and principal; a write that does not land changes no file |
| `StartStore.DirStore.SaveBinding` | internal/airlock/store.go:415-446 | the run id is written once and ends a refusal; no other address's file changes |
| `StartStore.DirStore.Refuse` | internal/airlock/store.go:448-460 | a complete refusal lands only on an unbound address and withdraws owed stdin |
| `StartStore.DirStore.Renew` | internal/airlock/store.go:462-502 | only a refused unbound address is re-armed, with a new fence and principal |
| `StartStore.DirStore.MarkStdin` | internal/airlock/store.go:504-531 | the debt flag is set or cleared and nothing is written when it already stands |
| `StartStore.EveryHistoryIsWellFormed` | internal/airlock/store.go:358-550 | over any sequence of store operations a run id and a refusal never stand together, and a refusal or a debt carries the current version |
| `StartStore.OlderReadersRefuse` | internal/airlock/store.go:300-308 | after any history, a release that predates the fields refuses to read a binding carrying one |
| `StartStore.BoundRunNeverMoves` | internal/airlock/store.go:415-446 | once bound, every later history keeps the run id and never records a refusal |
| `StartStore.FenceMovesOnlyByRenewal` | internal/airlock/store.go:380-502 | if the start time moved, some operation in between was a renewal of a refused, unbound address |
| `StoreHistory.EveryHistoryTells` | internal/airlock/store.go:358-550 | over every sequence of operations on an address, each field of the binding is told by the operations accepted: stdin is owed exactly when it was marked and neither cleared nor withdrawn since by a refusal or a renewal; a refusal stands exactly until replaced, renewed or bound; the run id is the one bound; the fence and principal are those of the last renewal or of the first reservation |
| `StoreHistory.AcceptedExactlyWhen` | internal/airlock/store.go:380-531 | after every history, an operation is accepted if and only if its substrate is the one the binding was made under and the address is in the state it needs, and is otherwise refused with the error that says which |
| `StdinPlanning.AcceptableBodyIsStable` | internal/airlock/stdin.go:83-102 | a body composed before the envelope was known, if the backend could accept it, is the body composed afterwards and is not refused locally |
| `StdinPlanning.OverheadIsWidestFrame` | internal/airlock/stdin.go:49-58 | the measured overhead is the length of an empty closing write at the widest offset |
| `StdinPlanning.BodyFitIsLargest` | internal/airlock/stdin.go:117-130 | `bodyFit` is exactly the largest decoded size whose padded base64 (section 4 of RFC 4648) and framing fit |
| `StdinPlanning.PlannedWritesFit` | internal/airlock/stdin.go:104-130 | every planned write at every offset fits both bounds if and only if the request-body bound is absent or holds the framing and one group; below it none fits |
| `StdinPlanning.PlanMeans` | internal/airlock/stdin.go:83-130 | on the envelope's own numbers: a prompt is refused locally exactly when it exceeds a known total, is sent inline exactly when every bound admits it, and a streaming plan's chunk is the smaller of the profile's and what the request-body bound leaves |
| `StdinPlanning.StreamedPlanFits` | internal/airlock/stdin.go:83-130 | every write a streaming plan will cut, at every offset, fits both bounds it was planned for |
| `StdinDelivery.ReactShrinks` | internal/airlock/stdin.go:188-259 | every continuing turn stays inside the prompt and strictly lowers remaining bytes plus chunk, which stays positive |
| `StdinDelivery.DeliverStdin` | internal/airlock/stdin.go:188-259 | for every sequence of answers and delays the loop ends, within a bound on writes and waits; every write is the prompt's bytes at the offset the answer before it said, as many as the chunk the size refusals so far left or all that remain; it ends at the first answer that is final or an error, aborted exactly on a failure, a run not ready past the settle window, an offset outside the prompt or not ahead, or a chunk below 512 bytes |
| `DispatchSafety.OneLiveBody` | internal/airlock/process.go:82-145 | of the bodies an address may ever send the backend accepts at most the one composed against the recorded envelope |
| `DispatchSafety.NoRunYet` | internal/airlock/replay.go:18-51 | a start that can still be served and finds its key forgotten finds no run at this address |
| `DispatchSafety.WrittenKeeps` | internal/airlock/stdin.go:188-259 | whatever write is served, stdin stays a prefix of the prompt, closed means complete, and receipts are slices of it |
| `DispatchTheorems.StepKeeps` | internal/airlock/process.go:62-248 | every step of the protocol keeps the invariant, which ties each stage of a Start to the binding on disk: a Start about to renew holds a body with another digest than the one refused, and a refused binding owes no stdin and names a body composed here |
| `DispatchTheorems.RunPersists` | internal/airlock/process.go:62-248 | between any two states of an execution runs stay, keep their origin, only gain stdin, and a recorded id never moves |
| `DispatchTheorems.AtMostOneRun` | internal/airlock/process.go:140-248 | across crashes, lost answers, retries, credential changes and refusal followed by renewal, any two runs at any two moments are the same run |
| `DispatchTheorems.ResolutionIsSound` | internal/airlock/process.go:723-755 | absence means there is no binding and no start was ever sent; a refusal is on record, owes no stdin, names a body composed here, and means no run exists and none of the starts sent can be accepted; a recorded id is the one run here, now and later |
| `DispatchTheorems.AcceptedBodyNeverChanges` | internal/airlock/process.go:82-145 | once a body was accepted, every later Start at the address composes exactly that body |
| `DispatchTheorems.PromptIsNeverLost` | internal/airlock/process.go:195-247 | in every state a streaming run not closed in full and not given up on is marked owed on disk; stdin is a prefix of the prompt, and closed means all of it |
| `DispatchOffers.SentUnderTheFence` | internal/airlock/process.go:140-183 | every start added to the network carries the principal and the fence of the binding on disk, over no refusal, and the whole prompt inline or, with the debt already on disk, none of it |
| `DispatchOffers.RenewedBodyIsNew` | internal/airlock/process.go:162-183 | in every execution, if a refusal with some fingerprint is cleared without a run, the start the same Start then adds to the network has a body with another digest |
| `DispatchOffers.NothingIsSentLate` | internal/airlock/replay.go:18-51 | in every execution a start is added to the network only by a Start that read the clock before the start's deadline or set that fence itself |
| `DispatchOffers.OnlyOwedPromptsAreWritten` | internal/airlock/process.go:146-161 | in every execution a stdin write is added to the network only for the run the binding names, while the binding marks its stdin owed, and carries the prompt's own bytes |
| `DispatchResends.AChangedBodyIsSent` | internal/airlock/process.go:162-183 | from every reachable refused, unbound state whose composed body has another digest and is not refused locally, a continuation puts a start with that body in the network, under a fence of its own |
| `DispatchResends.AnUnansweredStartIsOfferedAgain` | internal/airlock/process.go:140-194 | from every reachable state with an unanswered start inside its window, a continuation offers it again under the same principal and the same deadline |
| `DispatchResends.AFirstStartIsSent` | internal/airlock/process.go:140-194 | from every reachable state without a binding, any principal's start can be sent, fenced from that moment |
| `DispatchProgress.OnlyFailuresStop` | internal/airlock/stdin.go:188-259 | in every execution an answered write ends the delivery in an error exactly on a failure or a size refusal below 512 bytes; a run not ready is written to again at the same offset; any offset answer moves the writer strictly on; and the delivery is done exactly on a final answer |
| `DispatchProgress.DeliverOn` | internal/airlock/stdin.go:188-259 | from any offset and whatever receipts stand, the answers of a backend in good health lead to the end of the prompt |
| `DispatchProgress.AnOwedPromptCanArrive` | internal/airlock/process.go:146-161 | from every reachable state with an open streaming run not given up on, a continuation closes the prompt in full and clears the debt |
| `DispatchProgress.AStartDeliversItsPrompt` | internal/airlock/process.go:195-247 | the Start that created a streaming run can itself deliver the prompt in full and clear the debt, without returning in between |
| `DispatchWitness.APromptArrives` | internal/airlock/process.go:62-248 | an execution exists that reserves, sends, binds, streams a prompt in two writes, closes it and clears the debt |
| `Keys.JoinInjective` | internal/airlock/keys.go:95-98 | NUL-free tuples of one length have distinct encodings |
| `Keys.DeriveInjective` | internal/airlock/keys.go:51-98 | keys of two kinds are never equal, whatever their parts; within a kind equal keys have the same parts, given no collision and no NUL |
| `Keys.LabelNamesTheAddress` | internal/airlock/keys.go:63-71 | a run carries this address's label exactly when it was dispatched here |
| `SandboxLifecycle.StepKeeps` | internal/airlock/workspace.go:98-186 | every step keeps the invariant behind the record, unless it reserves over a remembered key |
| `SandboxLifecycle.NothingIsOrphaned` | internal/airlock/workspace.go:494-566 | over any clean run every sandbox is led to by the record or confirmed deleted on all three facts, and at most one is not |
| `SandboxLifecycle.AnOrphanIsReachable` | internal/airlock/workspace.go:98-186 | for every gap between two reservations of one claim cycle, a run from the empty state leads to a live sandbox no record leads to |
| `SandboxLifecycle.UncleanReserveOrphans` | internal/airlock/workspace.go:235-309 | from any state that keeps the invariant, as every clean history does, a reservation over a remembered key can be continued to an orphan |
| `SandboxLifecycle.ReserveOrphansIffUnclean` | internal/airlock/workspace.go:98-186 | after a history from nothing whose reservations were all clean, the next one can end in an orphan if and only if its key is still remembered from earlier |
| `SandboxLifecycle.SafeIffClean` | internal/airlock/workspace.go:98-186 | over every history from nothing, all reservations were clean if and only if none of them could end in an orphan |
| `SandboxLifecycle.AcquiredAgainOrphans` | internal/airlock/workspace.go:98-186 | acquiring a claim cycle again within 24 hours of its own reservation, after it was deleted, can orphan a sandbox whatever else happened |
| `SandboxLifecycle.AcquiredOnceIsSafe` | internal/airlock/workspace.go:98-186 | a caller that never reserves the same claim cycle twice never orphans a sandbox |
| `SandboxLifecycle.CreatesAreTheCallers` | internal/airlock/workspace.go:235-258 | over every clean history, each create sent asks for the claim its acquire was opened for, under the credential that acquire holds, which the record names, and that acquire was opened before the record's 24-hour fence |
| `SandboxLifecycle.AReservationCanBeBound` | internal/airlock/workspace.go:98-186 | inside its window an unanswered reservation can be retried into a sandbox the record names, with key, principal and fence unmoved |
| `SandboxLifecycle.ABoundSandboxCanBeDeleted` | internal/airlock/workspace.go:494-566 | a recorded sandbox can be deleted on all three facts, after which no record stands |
| `ProvenancePaths.PieceDelimits` | internal/config/path.go:9-33 | each encoded segment is told apart and ended by its own text, whatever follows |
| `ProvenancePaths.PathInjective` | internal/config/path.go:9-33 | two places under one prefix have the same path if and only if they are the same place |
| `EnvResolution.LiteralIsUnchanged` | internal/config/env.go:24-28 | a value naming no variable resolves to itself in every environment |
| `EnvResolution.LiteralText` | internal/config/env.go:13-46 | text without a dollar sign is copied as it is |
| `EnvResolution.Reference` | internal/config/env.go:13-46 | a dollar sign and the longest run of capitals, digits and underscores after it, not starting with a digit, give way to the variable's value and are listed as a reference |
| `EnvResolution.LoneDollar` | internal/config/env.go:13-46 | a dollar sign no such name follows is copied |
| `EnvResolution.ResolveEnvString` | internal/config/env.go:24-46 | succeeds exactly when every named variable is non-empty, with each reference replaced and every variable listed once in order of first use; a failure names the first missing variable of this value |
| `EnvResolution.SiblingsApart` | internal/config/env.go:84-96 | no value beneath one entry is recorded under a path of its sibling |
| `EnvResolution.Loader.ResolveProviderEnv` | internal/config/env.go:54-64 | in whatever order entries are visited, succeeds exactly when the whole block resolves; every value's origin stands under its own path and no other path changes; a failure names a leaf's path and its missing variable |
| `EnvResolution.Loader.ResolveEnvValue` | internal/config/env.go:66-101 | the same for any value of the tree |
| `EnvResolution.Loader.ResolveItems` | internal/config/env.go:84-96 | the same for a list, whose own entry survives its elements |
| `Redaction.Redactor.Mark` | internal/config/effective.go:401-409 | the marked set gains exactly the paths of the declared places |
| `Redaction.HidesExactly` | internal/config/effective.go:459-465 | a place is hidden if and only if it is declared or its string named a variable |
| `Redaction.RenderIsShown` | internal/config/effective.go:467-495 | rendering the resolved tree by recorded paths equals the reference that reads only the file and the declared fields |
| `Redaction.UncoveredLeafPrints` | internal/config/effective.go:476-495 | a leaf under no declared field prints as written, or as redacted exactly when it named a variable |
| `Redaction.DeclaredIsHidden` | internal/config/effective.go:459-495 | a declared place under no other declared place reads `[redacted]`, and nothing is left beneath it |
| `Redaction.SensitiveFields` | internal/agent/harness/harness.go:421-432 | a kind declares its credential keys and every `env` entry of the block, in whatever order |
| `Redaction.FieldsIgnoreEnv` | internal/agent/harness/harness.go:421-432 | what a kind declares of a block is what it declares of the file, whatever the environment |
| `Redaction.NonInterference` | internal/config/effective.go:390-495 | any two environments give the same rendering, each with its own provenance and the fields declared of its own resolved block |
| `Redaction.LoadAndRender` | internal/config/load.go:194-309 | loading both provider blocks into one provenance map, asking the kinds about the resolved blocks and rendering them yields the file-only reference for each, and fails exactly when a named variable is missing; of what is printed, every credential key of the kind and every `env` entry of a runner reads `[redacted]`, and every other leaf prints as written or reads `[redacted]` exactly when it names a variable |
| `Assembly.Builder.Build` | cmd/ben/runtime.go:192-322 | returns a whole set exactly when no reached stage refuses and no remote runner meets a local workspace; every part is carried or built now from its neighbours |
| `Assembly.FirstBuildIsCoherent` | internal/config/watch.go:253-282 | the set built at startup is coherent with its definition |
| `Assembly.RebuildIsCoherent` | cmd/ben/runtime.go:227-300 | over a coherent set the assembled one is coherent if and only if the side did not change or the workspace strategy was rebuilt |
| `Assembly.CarryIsCoherent` | internal/config/watch.go:795-831 | a carried set stays coherent if and only if the side did not change |
| `HotReload.RuntimeSource.Store` | internal/config/source.go:98-119 | the revision and the wake channel move exactly on another definition or a change of blockedness |
| `HotReload.Watcher.Transaction` | internal/config/watch.go:751-832 | the outcome of each attempt and the builds it starts, publishing nothing; `HotReloadTheorems.AdoptedExactlyWhen` and its neighbours say what the outcomes are |
| `HotReload.Watcher.Commit` | internal/config/watch.go:730-737 | the candidate is published exactly when the barrier runs |
| `HotReload.Watcher.ClearBlock` | internal/config/watch.go:843-853 | an unchanged file lifts a standing block and forgets a deferral |
| `HotReload.Watcher.Apply` | internal/config/watch.go:674-720 | the whole state after one attempt, as a function of the state before it |
| `HotReloadTheorems.HistoryKeeps` | internal/config/watch.go:674-832 | the reload invariant holds after every history |
| `HotReloadTheorems.OpenExactlyWhenInForce` | internal/config/watch.go:674-720 | after every attempt dispatch is open if and only if the file loaded and is the definition in force |
| `HotReloadTheorems.DeferralStands` | internal/config/watch.go:764-778 | a standing deferral means a standing block and a candidate not in force; while the caller is not quiescent it is neither rebuilt nor adopted and no revision moves |
| `HotReloadTheorems.OnlyTheBarrierAdopts` | internal/config/watch.go:688-704 | what is in force changes only through the barrier, to the loaded file, leaving no block and no deferral |
| `HotReloadTheorems.AdoptedExactlyWhen` | internal/config/watch.go:674-832 | over every history, a new file is in force and dispatch open after an attempt if and only if deployment, substrate and review are those in force, no standing deferral of it meets a caller that is not quiescent, its bindings are those in force or no stage of the rebuild refuses, and the barrier runs |
| `HotReloadTheorems.BlockedFor` | internal/config/watch.go:674-832 | over every history, a new file not adopted leaves definition and adapters standing and blocks dispatch with the first reason in the order of the code |
| `HotReloadTheorems.OnlyWhatMovedIsRebuilt` | cmd/ben/runtime.go:227-300 | over every history, an adopted file keeps the adapter set exactly when no binding moved, and each adapter exactly when none of its own did |
| `HotReloadTheorems.NothingNewIsAdopted` | internal/config/watch.go:674-720 | a file that does not load blocks and changes nothing else; the file in force lifts every block and deferral, without a build |
| `HotReloadTheorems.DeferredExactlyWhen` | internal/config/watch.go:764-832 | a candidate is remembered exactly when only outstanding work held it back, and a build is started exactly for a new, undeferred, adoptable file that moves a binding |
| `HotReloadTheorems.LifetimeNeverMoves` | internal/config/watch.go:779-820 | deployment, substrate and review are those of startup in every state |
| `HotReloadTheorems.EverySnapshotIsCoherent` | internal/config/watch.go:822-832 | from the set built at startup on, every published set matches its definition's bindings, hangs together, and is on its definition's side |
| `HotReloadTheorems.RevisionCountsChanges` | internal/config/source.go:87-119 | a revision advances by one exactly when the content or the blockedness in force changed |
| `HotReloadTheorems.ReadersAreTold` | internal/config/source.go:65-119 | between any two states revisions do not fall, equal revisions show the same definition, set and blockedness, and a reader's channel is closed if and only if the revision moved past the one read |
| `BenchTally.LastIsGreatest` | internal/bench/compare.go:580-600 | the last value is the greatest by end, run and attempt among the records that have one |
| `BenchTally.TallySnoc` | internal/bench/compare.go:543-574 | adding a record to a run's bucket is the tally of its records with that one |
| `BenchTally.TallyIgnoresOrder` | internal/bench/compare.go:543-600 | with distinct keys a tally, its sums and its named counts do not depend on the order of the records |
| `CellOrder.SortedIncreasing` | internal/bench/compare.go:602-611 | distinct cells are put in strictly increasing order of adapter and model |
| `CellOrder.IncreasingIsUnique` | internal/bench/compare.go:602-611 | a collection of cells has one increasing listing |
| `BenchManifest.ValidateRun` | internal/bench/manifest.go:262-323 | accepts exactly runs whose own fields are acceptable: named, spelled canonically, at immutable revisions, with a checked commit exactly when there are results, none recorded twice |
| `BenchManifest.ValidateRuns` | internal/bench/manifest.go:210-260 | accepts exactly acceptable runs of declared cells no two of which share a cell and case, a repository, or a directory and issue |
| `BenchManifest.Validate` | internal/bench/manifest.go:187-260 | accepts exactly the valid manifests |
| `BenchCompare.ValidateCheckEvidence` | internal/bench/compare.go:441-469 | accepts exactly no results or results for every check and no other, and keeps what they say |
| `BenchCompare.JoinRuns` | internal/bench/compare.go:227-256 | accepts exactly runs of known, undrifted, matching cases; each run's key leads back to that run alone |
| `BenchCompare.Enter` | internal/bench/compare.go:307-323 | the buckets stay exactly the tallies of the runs with records, one run to a bucket |
| `BenchCompare.ReadLog` | internal/bench/compare.go:286-328 | succeeds exactly when every claimed record names its run's cell; every record read is joined or unjoined |
| `BenchCompare.ReadLogs` | internal/bench/compare.go:281-328 | over all logs the book is the tally of what each run claims, and attempts read are all there are |
| `BenchCompare.SummarizeChecks` | internal/bench/compare.go:477-505 | an unpublished case has no check status, a published one the status and failed checks of a run that published it; `BenchMeaning.StatusMeans` says what those are |
| `BenchCompare.RowConserves` | internal/bench/compare.go:98-150 | a cell's figures have one run to a case, and published cases split into passed, failed and unchecked |
| `BenchCompare.SummarizeCell` | internal/bench/compare.go:376-428 | the bucket of a matched case is always found, and the row is the sum of what each case's one run contributes, told by its records and checks; `BenchMeaning.ReportMeans` says what each figure is |
| `BenchReport.Cover` | internal/bench/compare.go:354-374 | a case is matched exactly when every declared cell has records for it; coverage names the cells that do |
| `BenchReport.SummarizeCells` | internal/bench/compare.go:348-428 | there is one row for each cell with records and no other, in the stable order |
| `BenchReport.Compare` | internal/bench/compare.go:218-430 | a report is produced exactly for comparable sessions; attempts read are joined plus unjoined, and every part is told by the runs and the records they claim |
| `BenchReport.EveryRowConserves` | internal/bench/compare.go:98-121 | every cell has the same denominator, as many runs as cases, and published runs equal to published cases |
| `BenchReport.ReportIsUnique` | internal/bench/compare.go:602-603 | an unchanged session has one report, however the maps behind it were walked |
| `BenchReport.ShareIgnoresOrder` | internal/bench/compare.go:576-600 | what a run contributes does not depend on the order its directory's records were read in |
| `BenchMeaning.StatusMeans` | internal/bench/compare.go:477-505 | for every cell and matched case of a report, with r its one run: passed if and only if a record r claims is published and r has checks, all passed; failed if and only if one is and some check did not pass; unchecked if and only if one is and there are no checks; not published otherwise; with its attempts, wall clock, last verdict and last failure |
| `BenchMeaning.ReportMeans` | internal/bench/compare.go:376-428 | in every row the passed, failed and unchecked cases are the numbers of such matched cases, a check is counted as failed once for each matched case whose published run failed it, and tokens in, tokens out, wall clock, launches, unpriced launches, failures and verdicts each add up their own column of the records claimed |
| `BenchCoverage.CoverageMeans` | internal/bench/compare.go:354-374 | a case is covered by exactly the declared cells whose run claims a record, in the stable order, and is matched exactly when every declared cell has one |
| `BenchCoverage.MatchedMeans` | internal/bench/compare.go:354-374 | the matched cases are exactly those every declared cell ran, in the cohort's order |
| `BenchCoverage.MissingMeans` | internal/bench/compare.go:258-346 | the report lists exactly the declared cells, those of them no run names, and the runs that claim no record, each in order |
| `BenchCoverage.RecordsAreCounted` | internal/bench/compare.go:281-328 | attempts read are the sizes of all logs together, attempts joined those claimed by the runs together, and the rest are unjoined |
| `BenchCoverage.ClaimedTimes` | internal/bench/compare.go:286-328 | a record is joined to a run once for each time it stands in the run's directory under its issue, and never otherwise |
| `SingleFlight.StepKeeps` | internal/credential/octosts.go:263-299 | every stretch of a call between lock operations keeps the invariant |
| `SingleFlight.OneExchangePerPurpose` | internal/credential/octosts.go:270-288 | with any number of callers at most one is at the exchange for a purpose |
| `SingleFlight.WaitersGetTheLeadersAnswer` | internal/credential/octosts.go:270-278 | a caller that waited returns exactly its flight's leader's answer, unless its own context ended |
| `SingleFlight.WaitersAreNotAbandoned` | internal/credential/octosts.go:286-298 | a waiting caller's flight is answered or its leader is still at work on it |
| `SingleFlight.CacheHitsAreUsable` | internal/credential/octosts.go:264-269 | a token served from the cache had more than the margin left when checked and was minted for this purpose |
| `SingleFlight.ExchangesExactlyWhen` | internal/credential/octosts.go:263-299 | over every execution, an exchange is begun exactly by a call that finds no exchange for its purpose in the air and whose purpose's last token, if any, is not good for more than five minutes |
| `SingleFlight.EveryCallIsServed` | internal/credential/octosts.go:263-299 | a call that finds the last token brought for its purpose good enough returns that token without an exchange; one that finds an exchange in the air waits for it; any other leads a new one |
| `CandidateRetention.RecencyIsByLastBuilt` | cmd/ben/runtime.go:487-503 | the recency list holds exactly the constructed domains, strictly ordered by latest construction |
| `CandidateRetention.TailOfRenewed` | cmd/ben/runtime.go:497-502 | evicting at every step keeps what evicting once at the end would |
| `CandidateRetention.Retention.Retain` | cmd/ben/runtime.go:489-503 | after any history the map holds the eight most recently constructed domains, each with its latest tracker, listed once in order |
| `CandidateRetention.Retention.Adopt` | cmd/ben/runtime.go:465-485 | the predecessors are the published tracker first, then the retained ones from the newest, without the candidate and without a repeat |
| `CandidateRetention.KeptExactlyWhen` | cmd/ben/runtime.go:487-503 | after any history, the latest tracker of a domain is retained if and only if fewer than eight domains were constructed after it |
| `CandidateRetention.OnlyLatestAreKept` | cmd/ben/runtime.go:487-503 | whatever is retained is the latest tracker of its domain |
| `CandidateRetention.OfferedFromNewest` | cmd/ben/runtime.go:465-485 | after the published tracker the retained ones are offered from the most recently constructed |

## Left out

- Two overlapping Starts at one address, and `Processes.Stdin`, a second writer that does not share the delivery's prefix.
- Hook runs, stop, wait and event pages of the process backend, and the evidence mappings: none of them touches the start binding, the envelope or the prompt.
- The client's retry loop: each modelled request carries one key, one principal and one body, and a retry is another service of it.
- In `SandboxLifecycle`: the recorded owner, the profile-revision pin, the active-run and failed-sandbox gates and the polling loops.
- ProvenancePaths.PathInjective: quoting escapes the quote, the backslash and three line controls; unprintable characters, which the source escapes further, are passed through as they are.
- EnvResolution.Loader.ResolveProviderEnv: blocks and lists are values that are rebuilt, not maps updated in place, so sharing of one subtree between two places is not captured; the provenance map is a field that is updated.
- The text layout of the effective configuration, and every field of it that no provider owns.
- In `Assembly`: once-per-process survey and review construction are stages that may refuse, and which error a refusing stage reports is not kept by the watcher.
- HotReload.RuntimeSource.Store: pointers to definitions are serial numbers and channels are numbers with a set of closed ones; readers see whole stores because the cell is locked.
- File watching, symlink chains, debouncing and logging.
- BenchCompare.Enter: the nested map of buckets is one map keyed by cell and case, and buckets are values rather than shared objects.
- BenchReport.Compare: cost totals and percentiles are not in the report, sums are unbounded integers, named counts are bags rather than sorted lists, a run without attempts is its index, and which of several refusals is reported is not stated.
- The fresh-only credential fetch, issuer status classification and descriptor parsing.
- Time is milliseconds or seconds as integers; I/O, JSON and transport are parameters or absent.
