# Recovery planner core: a verified model

A recovery planner decides how a failed workload is brought back. It is given candidates with evidence, filters
and ranks them, makes a *plan* whose authority fences name the world it was made for, and hands the plan to an
executor. It survives a restart of its coordinator by writing a snapshot of itself into a store. This project
models that core in Dafny and proves what it is trusted for:

* **The plan lifecycle** as a step system in which a dispatch is two steps around the executor call and a
  completion is two steps around an unlock, with every other call allowed in between, an executor that reports
  what it likes, and coordinator restarts that go through the snapshot and the store.
* **The durable form**: the snapshot printer and parser, the file frame, and CRC-32C (section 12.1 of RFC 3720,
  Appendix A of RFC 9260), down to what damage is certain to be noticed.
* **Selection**: feasibility, saturating deadline arithmetic, the order of the candidates, and `plan()` as a whole.
* **The wire form**: messages, frames, and receiving them from a stream that splits anywhere.

`dafny verify dfyconfig.toml` checks everything.

## How the files fit together

| files | contents |
|---|---|
| `Integers`, `Domain`, `Evidence`, `Wording` | fixed-width integers, the entities and the planner state, texts |
| `Crc32c` | bit-serial division as the definition; table loop, linearity, error detection |
| `Codec`, `ByteStreams`, `KeyOrder` | tokens, cursors and the writer and reader objects; map iteration order |
| `Snapshot`, `SnapshotProofs`, `Truncation`, `SnapshotStreams` | the snapshot as tokens and as reads; its theorems; its loops |
| `Persistence` | the frame, its parser, the stores |
| `Layout`, `Texts` | the bytes and texts themselves: where fields stand, known values, what a text says |
| `Feasibility`, `Verdicts`, `FeasibilityProofs`, `Economics`, `Selection`, `SelectionLoops`, `SelectionProofs`, `Relaxing` | the decision |
| `Planning`, `Lifecycle`, `Effects`, `Restart` | one function per atomic step; what each does, field by field; restart through the store |
| `Runs`, `Causes`, `RunTheorems`, `DispatchTable`, `Scenario` | the step system, its invariant, theorems about all runs; concrete inputs on which the code disappoints |
| `EndToEnd`, `Planner` | from candidates to an outcome; the planner and executor objects |
| `Protocol`, `Transport` | messages and framing |

The objects of the original (`RecoveryPlanner::Impl`, `ReferenceExecutor`, `ByteWriter`, `ByteReader`, the stores, a
connection) are classes whose methods are proved against the functions of the modules above; the theorems are about
those functions, over all inputs and all runs.

A run (`RunTheorems.Run`) is a sequence of steps and the states between them; it starts from a fresh planner and takes any steps but `load_state` (which can bring back an older epoch and
older plans; it is covered by the snapshot theorems and by `Planner.RecoveryPlanner.LoadState`). The theorems assume
that fewer than 2^32 steps of a run add something (a plan, a change of the world, a restart), so that the 32-bit
counts of the snapshot and the 64-bit ids do not wrap; any number of other steps may come between them. `save_state`
does not change the planner, so it is not a step; a restart may meet a store with any contents. Every list of steps is
taken by some run (`RunTheorems.EveryStepSequenceRuns`), so the theorems are not about nothing.

## What the code does differently from what its texts say

The model follows the code. Each of these is a theorem, or follows from one.

* Preserved progress, the first objective, ranks a candidate that says *nothing* about it before every candidate
  that does, although the comment in `src/economics.cpp` (line 26) says unknown counts as worst: comparing with
  swapped arguments swaps the treatment of unknown too, and the winner is a silent one whenever there is one.
  (`Economics.UnknownPreservedProgressWins`, `SelectionProofs.WinnerKnowsProgress`)
* "UNKNOWN never becomes FEASIBLE by default" (`include/recovery_planner/feasibility.hpp`, lines 7-8) does not hold of
  freshness: unknown freshness is treated as current. (`FeasibilityProofs.UnknownFreshnessCountsAsCurrent`)
* Slack is deadline minus completion, negative when violated; the comment in `include/recovery_planner/economics.hpp`
  (line 41) has the difference the other way round. (`Economics.SlackMeans`)
* Dispatch ids are attempt numbers, so all dispatches have the id 1 and the dispatch table is one slot: a late
  completion is attributed to whichever plan was dispatched last. (`DispatchTable.CompletionReachesItsDispatch`,
  `DispatchTable.LateCompletionIsMisattributed`, and a concrete run in `Scenario.CompletionGoesToTheWrongPlan`)
* Feasibility looks at the worker and boot that the availability evidence names, the fences at the worker and boot that
  the candidate names: a plan that was found can be impossible to authorize. (`EndToEnd.NewPlanAuthorizes` says when,
  `Scenario.FoundPlanIsRefused` is one)
* A fallback plan supersedes the live plan of its request, even a dispatched one, and can be authorized and dispatched
  like any other. (`EndToEnd.FallbackTakesOver`, `EndToEnd.SelectedPlanRuns`)
* Dropping a request's absolute deadline can turn PLAN_FOUND into NO_DEADLINE_FEASIBLE_PLAN when the request also has a
  maximal duration. (`Relaxing.DroppingTheDeadlineIff`)
* A forced cancel of a dispatched plan never succeeds; forcing makes no difference in any state.
  (`Lifecycle.ForceNeverMatters`, `RunTheorems.HandedOffIsNeverCancelled`)
* An unknown loss of progress is within every bound. (`Relaxing.MeetsBoundsMeans`)
* A snapshot that is cut off after its generations and before the end of its count of requests wipes requests, plans and
  history before the failure is noticed. (`Truncation.TruncationWipes`)
* A request with a string of more than 4096 characters makes the reload of a restart stop half-way, unnoticed: plans and
  history survive from memory, that request and every request with a greater id are lost.
  (`Restart.RestartKeepsPlans`, `Restart.RestartKeepsRequestsIff`, `Scenario.RestartForgetsRequests`)
* Plan ids are counted in memory only. A fresh planner that has loaded the plans of another one starts counting at 1
  again, and the next plan it makes replaces the loaded plan of that id, of whatever request and in whatever state.
  (`EndToEnd.LoadedPlanIsOverwritten`, `EndToEnd.FreshPlannerReplacesFirstPlan`)
* A snapshot does not hold the deadline of a plan, so a plan whose deadline is violated fails to revalidate, and once
  loaded succeeds. (`Effects.RevalidateMeans`, `EndToEnd.LoadedPlanRevalidates`)
* A message within the bounds of `decode` can be too large for `send_frame`. (`Transport.SendableMeans`)

## Model

| member | source | states |
|---|---|---|
| `RunTheorems.TerminalIsForever` | src/planner.cpp:694-962 | In every run, from any time at which a plan is terminal to any later time: life, outcome, published flag and attempt count are the same, across every interleaving and every restart. |
| `RunTheorems.PlansEvolveOverRuns` | src/planner.cpp:569-962 | Over any stretch of a run no plan is lost, its identity, target, authority, payload and digest never change, and its attempt count never falls. |
| `RunTheorems.LegalMoves` | src/plan.cpp:5-37 | Every single step of a run keeps every plan and moves its life, if at all, to a state that may be entered from the old one, told as an explicit list by target state; also where the code assigns states without asking the transition table. |
| `RunTheorems.OneLivePlanPerRequest` | src/planner.cpp:569-584 | At any time of any run two live plans of one request are the same plan. |
| `RunTheorems.PlanAt` | src/planner.cpp:423-468 | At any time every plan is listed, identified by its key, has 0 attempts in PLANNED, AUTHORIZED and CANCELLED and 1 in DISPATCHED, EXECUTING, SUCCEEDED and FAILED, an accounted outcome, and fences no later than the current epoch. |
| `RunTheorems.LivePlanIsOfThisEpoch` | src/planner.cpp:936-962 | At any time every live plan carries the current coordinator epoch and planner boot in its authority. |
| `RunTheorems.IdsAreFresh` | src/planner.cpp:429-430 | A plan comes into being only through `plan`, with an id greater than that of every plan there ever was before, PLANNED, without an attempt, under the epoch and boot of that moment. |
| `RunTheorems.AtMostOneHandOff` | src/planner.cpp:723-762 | Two steps of a run that hand the same plan to an executor are the same step. |
| `RunTheorems.AttemptMeansHandedOff` | src/planner.cpp:747-749 | A plan counts an attempt if and only if some earlier step handed it off. |
| `RunTheorems.HandOffIsAuthorized` | src/planner.cpp:694-762 | Every hand-off is preceded by an authorization of that plan with no restart in between, and happens only while epoch, boot and all five generations of its authority are those of the context and the target is alive under the plan's boot. |
| `RunTheorems.HandOffInstructs` | src/planner.cpp:747-762 | What leaves the planner in any hand-off of any run: all twelve fields of the instruction are those of the stored plan, under id and attempt 1, and the worker it names is alive under the boot it names. |
| `RunTheorems.EpochCountsRestarts` | src/planner.cpp:936-938 | The coordinator epoch is one more than the number of restarts completed so far. |
| `RunTheorems.RestartEndsPlans` | src/planner.cpp:948-962 | A plan that exists when a restart completes is terminal at every later time, and authorizing or dispatching it throws. |
| `RunTheorems.PublishedMeans` | src/planner.cpp:787-843 | At any time an outcome is published exactly when the plan SUCCEEDED with success or FAILED with failure; a plan has SUCCEEDED exactly when its outcome is success. |
| `RunTheorems.PublishedWasReported` | src/planner.cpp:787-843 | Every published outcome was reported by an earlier report for that plan that passed the generation, boot and liveness fences. |
| `RunTheorems.ReportIsPublished` | src/planner.cpp:787-843 | The converse: a report of success or failure with the right generation and boot, on a live plan that was handed off, is published and stays published, with its outcome and its life, at every later time. |
| `Runs.StepKeeps` | src/planner.cpp:609-969 | The invariant of reachable states is inductive over every kind of step, and each step loses no plan and moves plans legally. |
| `Causes.WhoDidIt` | src/planner.cpp:694-843 | A plan becomes AUTHORIZED, gets an attempt, or has its outcome published only in a step that is the authorize, begin or report call for that very plan, and a call that succeeds. |
| `Causes.StepEffect` | src/planner.cpp:609-969 | What every other step leaves alone: attempts, authorizations and publications of all other plans, the dispatch table, the epoch. |
| `DispatchTable.TableIsPending` | src/planner.cpp:747-762 | At any time the dispatch table holds nothing, or exactly the last hand-off not yet completed, as told from the steps alone, under id 1 with that plan's generation and boot. |
| `DispatchTable.CompletionIsAttributed` | src/planner.cpp:845-865 | For every dispatch id: a completion is attributed if and only if it names the id 1 and a dispatch is pending, and then to exactly that plan with its generation and boot. |
| `DispatchTable.CompletionReachesItsDispatch` | src/planner.cpp:845-865 | A completion is attributed to a given hand-off if and only if it names the id 1 and since that hand-off no dispatch has begun and none has been completed. |
| `DispatchTable.ConsumedAtMostOnce` | src/planner.cpp:861-864 | In a run, two completions that are attributed to the same plan are the same step. |
| `DispatchTable.LateCompletionIsMisattributed` | src/planner.cpp:748-762 | From the time another plan has been dispatched no completion is ever attributed to the first one, both having the id 1; it goes to the second exactly as long as that is undisturbed. |
| `DispatchTable.ReportIsFenced` | src/planner.cpp:787-805 | A report changes at most the plan it names, and nothing at all when the generation or boot is wrong, the plan unknown or terminal. |
| `Scenario.CompletionGoesToTheWrongPlan` | src/planner.cpp:723-865 | A concrete run of seven steps with two plans dispatched under one id, where the completion is reported for the wrong plan; so global attribution fails. |
| `Restart.RestartThroughStore` | src/planner.cpp:933-969 | A restart through any store equals a restart without one of the snapshot's projection of the state, and throws exactly when the snapshot is too large for a file. |
| `Restart.RestartEffect` | src/planner.cpp:933-969 | The full state after such a restart: epoch and boot plus one, generations and boots kept, alive workers, resources and recompute sets emptied, terminal plans kept, exactly the live ones INVALIDATED, one history entry appended. |
| `Restart.RestartKeepsPlans` | src/planner.cpp:933-969 | Even when a request is rejected by the reader and the reload stops half-way: no plan and no history entry is lost, and of the requests exactly those remain that come, in key order, before the first rejected one. |
| `Restart.RestartKeepsRequestsIff` | src/planner.cpp:312-339 | A restart through a store keeps every request if and only if no request holds a string of more than 4096 characters once cut at its first NUL. |
| `Restart.RequestsReapplied` | src/planner.cpp:312-339 | Whatever else fails, and whatever planner it is applied to, a snapshot restores exactly the requests before the first one that the reader rejects. |
| `RunTheorems.RestartKeepsReadableRequests` | src/planner.cpp:944-947 | The same at every restart of every run. |
| `Scenario.RestartForgetsRequests` | src/planner.cpp:337 | A concrete planner with two requests, the first with a reason one character too long: after a restart it has none. |
| `Restart.ReloadReadsTheSave` | src/planner.cpp:935-947 | Whatever the store held before, the reload applies exactly the snapshot saved by the same call. |
| `SnapshotProofs.SnapshotRoundTrip` | src/planner.cpp:180-389 | Decoding an encoded snapshot succeeds if and only if every string is at most 4096 characters once cut at its first NUL, and then restores the context, requests, plans and history, for any number of entries; what that makes of the context is the next row. |
| `SnapshotProofs.ContextRoundTrip` | src/planner.cpp:287-309 | The context after applying a snapshot, field by field, whether or not the rest can be read: epoch and boot are the snapshot's, or the target's own when they are to be preserved; all five generations and the worker boots are the snapshot's; nobody is alive; resources and tables stay. |
| `SnapshotProofs.RequestPersists` | src/planner.cpp:200-230 | A request without NULs in its strings comes through a snapshot unchanged. |
| `Restart.SavedStateIsLoaded` | src/planner.cpp:400-405 | Save by one planner and load by another on the same store: epoch, plans, requests and history are those saved, dispatch table and id counters stay those of the loading planner. |
| `Layout.SnapshotHead` | src/planner.cpp:180-189 | A snapshot begins with the version and the seven generations in the listed order. |
| `Layout.CodesAre` | include/recovery_planner/plan.hpp:23-36 | The stored codes of lives and outcomes, in the order of the enumerations. |
| `SnapshotProofs.TruncatedSnapshotIsRejected` | src/planner.cpp:281-389 | Every strict prefix of an encoded snapshot is rejected, whatever state it is applied to. |
| `SnapshotProofs.ArbitraryBytes` | src/planner.cpp:281-389 | On any bytes the cursor stays within them, success means that no read failed, and dispatch table and counters are untouched. |
| `Truncation.TruncationWipes` | src/planner.cpp:281-346 | A snapshot cut off before byte 60 leaves requests, plans and history of any planner alone; cut off from there up to and including the count of requests, it empties all three. |
| `Truncation.TruncationIsHarmlessIff` | src/planner.cpp:281-389 | A snapshot cut off after n bytes leaves them alone for every planner if and only if n is below 60. |
| `Truncation.MissingCountWipes` | src/planner.cpp:301-346 | On any bytes with readable generations: if they end before the count of requests is complete, the call fails after emptying all three. |
| `SnapshotProofs.ReapplyingKeepsPlans` | src/planner.cpp:341-382 | A planner's own snapshot applied to it never loses a plan. |
| `SnapshotProofs.RequestTaken` | src/planner.cpp:200-230 | A request, optionals, strategy lists and string lists included, is read back as written, cut at NULs; a failure means bytes were missing or a string was too long. |
| `SnapshotProofs.PlanTaken` | src/planner.cpp:341-382 | The same for a plan with all its fences and its status bytes. |
| `SnapshotProofs.EnumerationsRoundTrip` | src/planner.cpp:264-266 | States and outcomes survive the byte they are stored as. |
| `SnapshotStreams.WriteSnapshot` | src/planner.cpp:180-279 | The nested writing loops emit exactly the specified snapshot. |
| `SnapshotStreams.GetRequest` | src/planner.cpp:313-338 | The reads of one request by the reader object yield the specified value and cursor. |
| `SnapshotStreams.GetPlan` | src/planner.cpp:343-381 | The reads of one plan by the reader object yield the specified value and cursor. |
| `SnapshotStreams.GetWorkers` | src/planner.cpp:302-307 | The worker loop, which never looks at the reader's state. |
| `SnapshotStreams.GetRequests` | src/planner.cpp:312-339 | The request loop with its early return and what it has inserted by then. |
| `SnapshotStreams.GetPlans` | src/planner.cpp:342-382 | The plan loop with its early return and what it has inserted by then. |
| `Codec.StrTaken` | include/recovery_planner/digest.hpp:114-124 | A written string comes back cut at its first NUL, and the read fails exactly when more than 4096 characters are left or bytes are missing. |
| `Codec.I64Taken` | include/recovery_planner/digest.hpp:46-97 | A signed value survives the cast to unsigned and back. |
| `Codec.NumberOfBigEndian` | include/recovery_planner/digest.hpp:40-45 | The accumulation of the reader inverts the shifts of the writer, for every width. |
| `Layout.U32Digits` | include/recovery_planner/digest.hpp:40-42 | The four bytes of a number, most significant first. |
| `Layout.U64Halves` | include/recovery_planner/digest.hpp:43-45 | A 64-bit number is its upper half followed by its lower half. |
| `ByteStreams.ByteWriter.PutNumber` | include/recovery_planner/digest.hpp:40-45 | The shift loop appends the big-endian digits and changes nothing before them. |
| `ByteStreams.ByteReader.GetString` | include/recovery_planner/digest.hpp:114-124 | The character loop with its NUL, its limit and its sticky failure. |
| `ByteStreams.ByteReader.GetNumber` | include/recovery_planner/digest.hpp:85-96 | The accumulation loop; too few bytes leave the position alone and make the failure stick. |
| `KeyOrder.RebuiltFromEntries` | src/planner.cpp:313-339 | Inserting the entries of a map, in iteration order and each under its own id, rebuilds the map. |
| `KeyOrder.KeysIncrease` | src/planner.cpp:193-234 | Map iteration lists the keys in strictly increasing order. |
| `Crc32c.Crc32c` | src/digest.cpp:23-30 | The table loop computes bit-serial reflected Castagnoli division, for every input and seed. |
| `Crc32c.TableEntry` | src/digest.cpp:10-17 | The inner loop of the table: eight shifts of the index through the division register. |
| `Crc32c.TableStepDividesOneByte` | src/digest.cpp:26-28 | One table step is eight steps of bitwise division by the polynomial. |
| `Crc32c.ChecksumConcat` | src/digest.cpp:23-30 | The checksum of a concatenation is that of the second part seeded with that of the first. |
| `Crc32c.DetectsByteBurst` | src/digest.cpp:23-30 | Every change confined to at most four consecutive bytes changes the checksum, at any length and seed. |
| `Crc32c.DetectsBitBurst` | src/digest.cpp:23-30 | Every change confined to 32 consecutive bits, byte-aligned or not, changes the checksum. |
| `Layout.CheckValue` | src/digest.cpp:10-30 | The checksum of the digits 1 to 9 is 0xE3069283, the check value of CRC-32C. |
| `Persistence.ParseIsInverse` | src/persistence.cpp:42-95 | `load` returns a payload if and only if the file is exactly the frame that `save` writes for it and the payload is within the limit; so `len + 4` never wraps to an acceptance. |
| `Persistence.DamagedFrameIsRejected` | src/persistence.cpp:77-94 | Damage within the header, within the checksum, or within four consecutive payload bytes is rejected; in particular every change of one byte. |
| `Persistence.ResizedFrameIsRejected` | src/persistence.cpp:77-94 | Every strict prefix and every extension of a frame is rejected. |
| `Persistence.LoadAfterSave` | src/persistence.cpp:42-95 | What was saved is what is loaded, from both kinds of store; only files refuse, and only for size. |
| `Persistence.LoadAfterDamage` | src/persistence.cpp:71-95 | A damaged, truncated or extended file is as good as absent. |
| `Persistence.OtherKeysAreUntouched` | src/persistence.cpp:42-126 | Saving under one key leaves what every other key loads, unless both stand for the same file. |
| `Persistence.KeysAreSanitized` | src/persistence.cpp:19-29 | File names are not empty and hold key characters only, underscores in the place of all others; a key is its own file name exactly when it is such a name itself; sanitizing twice is sanitizing once. |
| `Persistence.BuildFrame` | src/persistence.cpp:48-54 | The writing loop of `save` emits the frame. |
| `Layout.FrameOfNothing` | src/persistence.cpp:48-54 | The frames of an empty payload, in the store and on the wire, byte by byte: magic, version, length, checksum. |
| `Persistence.ParseFrame` | src/persistence.cpp:77-94 | The reader of `load` decides as specified, check by check. |
| `Persistence.PersistenceStore.SaveBlob` | src/persistence.cpp:42-121 | Saving replaces one entry, or refuses and changes nothing. |
| `Persistence.PersistenceStore.LoadBlob` | src/persistence.cpp:71-126 | Loading returns what the store holds under the key, parsed for files. |
| `Feasibility.EvaluateFeasibility` | src/feasibility.cpp:38-289 | The rules, applied one by one, yield the specified verdict and the violations in their order; what verdict and violations mean is said by the next two rows. |
| `Verdicts.VerdictMeans` | src/feasibility.cpp:38-289 | Each of the five verdicts if and only if: INFEASIBLE when some listed contradiction is in the evidence, INSUFFICIENT_EVIDENCE when none is but something listed is absent or outdated, REVALIDATION_REQUIRED when nothing is and a consulted mark asks for it, DEFER when only a warming target stands in the way. |
| `Verdicts.ReasonMeans` | src/feasibility.cpp:38-289 | Each reason is recorded if and only if the evidence that it names is there; the planner's own view of a resource counts only when no earlier rule is violated, and a forbidden strategy is all that is said. |
| `FeasibilityProofs.FeasibleMeansShown` | src/feasibility.cpp:38-289 | FEASIBLE if and only if the evidence shows everything: an independent list of what must be present and what it must say. |
| `FeasibilityProofs.UnknownFreshnessCountsAsCurrent` | src/feasibility.cpp:28-34 | Replacing current by unknown freshness everywhere never changes a verdict. |
| `FeasibilityProofs.OldEpochIsNeverFeasible` | src/feasibility.cpp:65-78 | Evidence observed under another epoch makes a candidate infeasible. |
| `RunTheorems.EvidenceExpiresAtRestart` | src/feasibility.cpp:65-78 | In every run, evidence observed before a restart makes no candidate feasible at any time after it. |
| `Economics.HardFeasibleMeans` | src/economics.cpp:49-81 | Despite both saturations HARD_FEASIBLE holds exactly when min(now + max(expected, 0), INT64_MAX) is at most max(deadline, now), over unbounded integers. |
| `Economics.DeadlineMeans` | src/economics.cpp:49-81 | The deadline that counts, and when there is none, when the outcome is unknown, and when completion and slack exist. |
| `Economics.SlackMeans` | src/economics.cpp:71-79 | The completion and the slack that go with it, as exact integers cut off at INT64_MAX; violated exactly when the exact slack is negative. |
| `Economics.ToleranceMeans` | src/economics.cpp:123-127 | Exactly which candidates exceed the loss bound: those whose loss is known and larger. |
| `Economics.SaturationClamps` | src/economics.cpp:36-45 | The saturating operations are the exact ones clamped to 64 bits. |
| `Economics.PrecedesIsBefore` | src/economics.cpp:133-163 | The cascade of comparisons is the lexicographic order on one row of thirteen numbers. |
| `SelectionProofs.BetterMeans` | src/economics.cpp:83-163 | One candidate precedes another if and only if its row of thirteen numbers, read directly from cost, authority and identity, is lexicographically before the other's; absent cost and the confidence of a candidate without cost or authority included. |
| `Economics.UnknownPreservedProgressWins` | src/economics.cpp:26-30 | A candidate without a value for preserved progress precedes every candidate with one. |
| `SelectionProofs.WinnerKnowsProgress` | src/planner.cpp:675-680 | The winner of PLAN_FOUND has a value for preserved progress in its cost evidence if and only if every eligible candidate does: one that is silent beats all that are not. |
| `Economics.UnknownLosesElsewhere` | src/economics.cpp:14-24 | For lost progress, time and cost an unknown value loses to every known one, all before being equal. |
| `SelectionProofs.BetterIsStrictTotal` | src/economics.cpp:133-163 | The order is irreflexive, asymmetric, and total on candidates of different identity. |
| `SelectionProofs.BetterIsTransitive` | src/economics.cpp:133-163 | The order is transitive. |
| `SelectionProofs.OutcomeMeans` | src/planner.cpp:616-673 | Each outcome of `plan`, characterised by which candidates exist, are feasible and are eligible. |
| `SelectionProofs.WinnerIsBest` | src/planner.cpp:640-678 | The winner of PLAN_FOUND is feasible, meets every hard bound, and the row read from the evidence of no eligible candidate is before its own. |
| `SelectionProofs.FallbackIsBest` | src/planner.cpp:649-672 | A fallback is the best of all feasible candidates by the same rows, and none of them meets the bounds. |
| `SelectionProofs.RankingIsBijection` | src/planner.cpp:664-677 | Ranks map exactly the ranked candidates one-to-one onto 1..k, in the candidate order; all others have rank 0. |
| `SelectionProofs.FirstIsBestOf` | src/planner.cpp:410-418 | However candidates qualify, the first of the sorted ranking is a qualified one that no other qualified one precedes. |
| `SelectionProofs.FirstOfAdded` | src/planner.cpp:410-418 | However candidates qualify, appending one changes the first of the ranking only to itself, and exactly when it qualifies and is better. |
| `SelectionProofs.OrderIndependence` | src/planner.cpp:609-692 | Permuting candidates of distinct identities changes neither outcome nor selection. |
| `SelectionProofs.AddingACandidate` | src/planner.cpp:640-678 | One more candidate, inserted anywhere and with the others in any order, leaves PLAN_FOUND, and the winner is the newcomer exactly when it is eligible and better than the old winner. |
| `Relaxing.RelaxingNeverHurts` | src/planner.cpp:636-647 | If a plan is found, it is found under relaxed bounds, and the old winner never precedes the new one. |
| `Relaxing.RelaxingIff` | src/planner.cpp:636-647 | The exact condition, given one feasible candidate: changing deadline, allowance and loss bound keeps PLAN_FOUND for every candidate list if and only if the new limit is absent, no earlier (past counting as now), or out of reach of every known duration, and the new loss bound is absent, no smaller, or the largest there is. |
| `Relaxing.MeetsBoundsMeans` | src/planner.cpp:636-647 | What the hard bounds ask: under a limit, a known duration that completes within it; under a loss bound, no known loss beyond it. |
| `Relaxing.DroppingTheDeadlineIff` | src/economics.cpp:54-61 | Removing only the absolute deadline keeps PLAN_FOUND for every candidate list if and only if there is no maximal duration, it is INT64_MAX, or it ends no earlier than the deadline, both counting as now when past. |
| `SelectionLoops.DecideOn` | src/planner.cpp:616-678 | The filtering loops and the rank assignment compute the specified decision and ranks. |
| `SelectionLoops.EligibleAmongFeasible` | src/planner.cpp:640-647 | Filtering the feasible candidates by the hard bounds yields exactly the eligible ones, in order. |
| `EndToEnd.PlanIgnoresOrder` | src/planner.cpp:609-692 | Permuting candidates of distinct identities gives the same plan, the same decision digest and the same planner state afterwards. |
| `EndToEnd.NewPlanAuthorizes` | src/plan.cpp:39-52 | A plan just made can be authorized if and only if the request's workload generation is current and the candidate's target is alive under its boot. |
| `EndToEnd.FeasibleTargetIsLive` | src/feasibility.cpp:153-176 | Feasibility gives that liveness when the availability evidence names the candidate's own target and the strategy is not RECOMPUTE. |
| `EndToEnd.ReadyPlanRuns` | src/executor.cpp:14-33 | An authorized plan dispatched through a reference executor ends in the life, outcome and publication of the registered outcome, and as a published success when none is registered. |
| `EndToEnd.FoundPlanRuns` | src/planner.cpp:609-865 | From PLAN_FOUND with such evidence, authorize succeeds and dispatch ends as prescribed: every registered outcome, end to end. |
| `EndToEnd.SelectedPlanRuns` | src/planner.cpp:649-865 | The same for every selection whose target is live, fallbacks that meet no hard bound included. |
| `EndToEnd.SelectionTakesOver` | src/planner.cpp:609-692 | Whenever `plan` selects: the new plan carries the selected candidate, is stored under the next id, every live plan of its request is superseded, dispatched and executing ones too, all others stay, the request is recorded exactly for PLAN_FOUND, counters and history advance by one, and nothing else changes. |
| `EndToEnd.NoSelectionMeans` | src/planner.cpp:616-655 | Without a feasible candidate no plan is made: no candidates leave no trace, infeasible ones only a history entry. |
| `EndToEnd.LoadedPlanIsOverwritten` | src/planner.cpp:429-430 | When the next id is that of a plan already stored, as after a load, `plan` replaces that plan and loses it. |
| `EndToEnd.FallbackTakesOver` | src/planner.cpp:649-672 | A fallback takes over in the same way, although no feasible candidate meets the bounds; only its request is not recorded. |
| `EndToEnd.FreshPlannerReplacesFirstPlan` | src/planner.cpp:400-430 | A fresh planner that loads what another one saved, whatever world it then learns of: the first plan it makes takes the id 1 and the place of plan 1 of the other. |
| `EndToEnd.LoadedPlanRevalidates` | src/planner.cpp:709-721 | A loaded plan revalidates if and only if its fences match, also when its deadline had been violated. |
| `Scenario.FoundPlanIsRefused` | src/plan.cpp:47-51 | A concrete candidate with PLAN_FOUND whose plan is refused as stale the moment it is made. |
| `Planning.TerminalMeansStuck` | src/plan.cpp:7-36 | The terminal states are exactly the listed ones that have no legal transition, not even to themselves. |
| `Planning.TransitionsAre` | src/plan.cpp:5-37 | The legal transitions, listed by the state they lead to. |
| `Planning.DispatchedCannotBeCancelled` | src/plan.cpp:15-33 | Cancelling is legal from exactly the four states before dispatch. |
| `Lifecycle.ForceNeverMatters` | src/planner.cpp:867-884 | In every state a forced and an unforced cancel do the same, and neither cancels a dispatched or executing plan. |
| `RunTheorems.HandedOffIsNeverCancelled` | src/planner.cpp:867-884 | In every run, a plan that has been handed off is never CANCELLED afterwards. |
| `Effects.PlanIsFencedByItsWorld` | src/plan.cpp:39-52 | A plan made in one world is current in another if and only if epoch and generations are those it was made under, the workload generation is its request's, and its target is alive under its boot. |
| `Effects.BuiltPlanCarries` | src/planner.cpp:423-468 | A plan carries its candidate, request and the fences of the moment, all of its fields; its digest is the hash of the digest input. |
| `Effects.DigestInputIdentifies` | src/planner.cpp:35-60 | Two decisions have the same digest input if and only if sixteen listed fields of request, candidate and context agree. |
| `Effects.DigestInputReadsBack` | src/planner.cpp:35-60 | Those fields can be read off the digest input in the listed order. |
| `Effects.AuthorizeMeans` | src/planner.cpp:694-707 | The errors in order, told by fences and lives; otherwise the plan is AUTHORIZED and nothing else changes. |
| `Effects.RevalidateMeans` | src/planner.cpp:709-721 | Revalidation returns the stored plan if and only if every fence matches and its deadline was not violated when it was made. |
| `Effects.BeginMeans` | src/planner.cpp:723-764 | The errors in order; otherwise plan, dispatch table and instruction, field by field. |
| `Effects.FinishMeans` | src/planner.cpp:769-784 | A plan under way executes when the receipt accepts and has FAILED when it does not; any other plan keeps its life. |
| `Effects.ReportMeans` | src/planner.cpp:787-843 | Every report in every state: which plan it changes and into what, for each outcome. |
| `Effects.CancelMeans` | src/planner.cpp:867-884 | A cancel takes effect if and only if the plan is in one of the four states before dispatch, and then withdraws it. |
| `Effects.InvalidateMeans` | src/planner.cpp:886-896 | An invalidation takes effect if and only if the plan is in one of the six live states. |
| `Effects.RegisterMeans` | include/recovery_planner/planner_context.hpp:73-79 | What the liveness queries answer after registering or unregistering a worker, for every worker and boot. |
| `Effects.ResourceMeans` | src/planner.cpp:906-909 | What the resource query answers after an amount was set. |
| `Effects.RecomputeMeans` | src/planner.cpp:910-919 | What the recompute query answers after it was switched on or off. |
| `Texts.PayloadReads` | src/planner.cpp:25-32 | Split at its bars, a payload is the strategy's name and, under their labels, worker, boot, state and state generation. |
| `Texts.HistoryReadsPlan` | src/planner.cpp:586-599 | Split at its spaces, a history entry names request, workload and outcome, and then plan, strategy, candidate and digest. |
| `Texts.RestartReads` | src/planner.cpp:967-968 | The entry that a restart appends names the new epoch and the new boot. |
| `Texts.NumberReadsBack` | src/planner.cpp:27-30 | Numbers are written in decimal digits without leading zeros, and read back as what they were. |
| `Texts.HexReadsBack` | src/digest.cpp:104-113 | A digest is two lower-case hexadecimal digits a byte, upper half first. |
| `Planner.RecoveryPlanner.MakePlan` | src/planner.cpp:609-692 | `plan` as a whole on the fields: the new state, the decision, the plan, and the rank of every candidate. |
| `Planner.RecoveryPlanner.Supersede` | src/planner.cpp:569-584 | The loop supersedes exactly the live plans of the request but the kept one. |
| `Planner.RecoveryPlanner.AuthorizePlan` | src/planner.cpp:694-707 | The new state and the returned plan, or one of three errors and no change. |
| `Planner.RecoveryPlanner.RevalidatePlan` | src/planner.cpp:709-721 | The stored plan, or the error; nothing changes. |
| `Planner.RecoveryPlanner.BeginDispatch` | src/planner.cpp:723-764 | The dispatch instruction, the attempt, the table entry; or an error and no change. |
| `Planner.RecoveryPlanner.FinishDispatch` | src/planner.cpp:769-784 | What the receipt does to a plan that may have changed meanwhile; a terminal one is not stepped back. |
| `Planner.RecoveryPlanner.DispatchPlan` | src/planner.cpp:723-785 | The whole call through a reference executor that calls back into the planner: state, plan and call count. |
| `Planner.RecoveryPlanner.ReportExecution` | src/planner.cpp:787-843 | The fences in order, then the five outcomes. |
| `Planner.RecoveryPlanner.OnAdapterCompletion` | src/planner.cpp:845-865 | Resolve then report, when nothing comes between. |
| `Planner.RecoveryPlanner.CancelPlan` | src/planner.cpp:867-884 | Success and new state, with and without force. |
| `Planner.RecoveryPlanner.InvalidatePlan` | src/planner.cpp:886-896 | The new state; a succeeded plan stays. |
| `Planner.RecoveryPlanner.ApplySnapshot` | src/planner.cpp:281-389 | The fields after a decoding that may fail anywhere, and the result. |
| `Planner.RecoveryPlanner.SaveState` | src/planner.cpp:391-398 | The store afterwards; a store that throws has not changed. |
| `Planner.RecoveryPlanner.LoadState` | src/planner.cpp:400-405 | The state after applying whatever the store holds, its result ignored. |
| `Planner.RecoveryPlanner.RestartCoordinator` | src/planner.cpp:933-969 | State and store after a restart, or the error of the save and no change. |
| `Planner.RecoveryPlanner.RegisterWorker` | include/recovery_planner/planner_context.hpp:73-76 | The worker is alive under the boot, and nothing else changes. |
| `Planner.RecoveryPlanner.UnregisterWorker` | include/recovery_planner/planner_context.hpp:77-79 | The worker is no longer alive but stays registered. |
| `Planner.RecoveryPlanner.SetRecomputeAvailable` | src/planner.cpp:910-919 | Recomputation of the generation is available exactly as said. |
| `Planner.ReferenceExecutor.Execute` | src/executor.cpp:14-33 | The count, the receipt, and the planner after the synchronous completion. |
| `Planner.ReferenceExecutor.RegisterOutcome` | src/executor.cpp:8-12 | The registered outcome is the one reported for that plan; others are unchanged. |
| `Protocol.DecodeIsInverse` | distributed/protocol.cpp:59-84 | A payload is accepted as a message if and only if it is that message's encoding and the message is within the bounds. |
| `Layout.MessageBytes` | distributed/protocol.cpp:59-70 | A message is its type, four numbers in order, and three blocks in order, each behind its length. |
| `Protocol.OutOfBoundsIsRejected` | distributed/protocol.cpp:33-56 | Decoding an encoding gives the message back, or nothing when it is out of bounds, also where a length wraps at 32 bits. |
| `Protocol.EncodeMessage` | distributed/protocol.cpp:59-70 | The writing loops emit the specified bytes. |
| `Protocol.DecodeMessage` | distributed/protocol.cpp:72-84 | The moving position decodes as specified, on any bytes. |
| `Transport.ReceiveIsInverse` | distributed/transport.cpp:210-232 | A payload is received if and only if the stream begins with its frame, and exactly the frame is consumed. |
| `Transport.DamagedPayloadIsMalformed` | distributed/transport.cpp:226-230 | Damage to at most four consecutive payload bytes is reported as malformed. |
| `Transport.WireRoundTrip` | distributed/transport.cpp:193-232 | Any sequence of sendable messages, framed and concatenated, is received as that sequence, with the rest of the stream intact. |
| `Transport.ReceivedWasWired` | distributed/transport.cpp:210-232 | Conversely, what is received as a sequence of messages is the concatenation of their frames. |
| `Transport.SendableMeans` | distributed/transport.cpp:193-194 | Exactly which messages fit a frame. |
| `Transport.RecvAll` | distributed/transport.cpp:58-79 | Exactly the requested bytes for every split of the stream and every interruption, and failure exactly when fewer are to come. |
| `Transport.SendAll` | distributed/transport.cpp:81-101 | Succeeds exactly when the socket takes that many bytes before it first refuses, over any partial writes and interruptions; what has been sent is then the buffer, otherwise its prefix of exactly that length. |
| `Transport.RecvFrame` | distributed/transport.cpp:210-232 | What is delivered depends only on the bytes that arrive, not on how they are split. |
| `Transport.SendFrame` | distributed/transport.cpp:193-208 | Succeeds exactly when the socket takes the whole frame over its three writes; otherwise exactly the prefix that it takes is sent; an oversized payload writes nothing. |
| `Transport.PatientSocketTakesFrame` | distributed/transport.cpp:81-101 | A frame gets through every socket that takes at least one byte in enough calls before it refuses, however often it is interrupted. |
| `Transport.SendMessage` | distributed/coordinator_main.cpp:279-281 | A message is sent as its frame, exactly when that fits and the socket takes it. |
| `Transport.ReceiveMessages` | distributed/coordinator_main.cpp:282-284 | Receiving message after message over a socket yields the sequence specified on the bytes alone. |

## Left out

- Sockets, listeners, processes, the command line, benchmarks, CUDA and the two main programs: operating-system plumbing.
- The file system: a store is a map from key to file contents. Saving removes the old file before renaming the new one into place, so nothing is claimed about a crash in between, and I/O errors of a save are not modelled beyond the size limit.
- Threads and the mutex: every locked section is one atomic step; the two places that release the lock are two steps each.
- SHA-256: any function from bytes to 32 bytes; no freedom from collisions is assumed.
- `load_state` as a step of a run: it can bring back an older epoch, and the id counters are not in the snapshot, so the run theorems do not hold with it.
- Wrap-around of ids and of the 32-bit counts within a run: excluded by the bound on steps that add something. `next` itself wraps in the model.
- Explanations, `what_would_change`, reasons and summaries of a decision, and the economics kept with a plan: text and data that nothing reads back. A request's prior progress and value priorities likewise.
- Economic factors that the order and the bounds never read (restore, restart and transfer times, byte counts, checkpoint age).
- Bytes after a complete snapshot: `apply_snapshot` ignores them; the frame around it does not, which is proved.
- Feasibility.EvaluateFeasibility: which reasons are recorded is proved independently, their order only as that of the rules.
- What `decode` leaves in its output message when it fails.
- `std::sort`: a stable insertion, since the order is total on distinct identities.
- Several clock readings within one locked section (one per invalidated plan in a restart) are one reading.
- `mark_revalidation_required`, `u16`, `take_blob`, `keys`, `flush` and name tables: not used by the modelled code, or no logic.
- Planner.RecoveryPlanner.DispatchPlan: the executor is the reference executor, wired to this planner or to nothing; an arbitrary executor is covered by the begin and finish steps of the runs.
- Planner.RecoveryPlanner.Supersede: visits the plans in some order rather than in key order; each visit touches one plan, so the result is the same.
