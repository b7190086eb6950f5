# Verified models of the trading runtime's stateful cores

Dafny 4.11 models of the parts of the repository that carry unbounded state or exact
arithmetic, with the properties its design relies on proved for all inputs and all runs.
`dafny verify dfyconfig.toml` checks the project.

## What is modelled

**Nonce dictionary** (`HexBits`, `Operations`, `NonceTrie`, `Storage`, `NonceLedger`). A
persistent, content-addressed, path-compressed 256-bit trie of operation receipts. A hash is
the symbolic digest of its node, so SHA-256 is injective by construction; `Unresolved` stands
for any other digest. The object writes one file at a time; a device stops after any number
of durable writes.

**Registry commit protocol** (`RegistryRecords`, `RegistryFiles`, `RegistryCommit`,
`RegistryRuns`, `RegistryRetries`, `RegistryLoads`, `RegistryGuards`, `RegistryAnswers`,
`RegistryEpochs`, `RegistryEvidence`, `RegistryWitnesses`, `RegistryReached`, `Registry`). The
disk is a record of files; every create, replace and unlink is one atomic step. The invariant ties a disk to the history of committed operations
and to the phase of the commit that is under way. Runs are sequences of requests, each stopped
anywhere.

**Integer optimizer** (`Lots`, `Optimizer`). A hill climb over one-lot moves and two-leg swaps
for an arbitrary objective that may have no value, with the trace of every search.

**Sizing** (`LargestRemainder`, `MarginFit`, `GrossReduction`, `TargetLots`,
`MarginAwareTargets`). Largest-remainder fitting to a margin budget, the cost-inclusive gross
reduction in both of its implementations, and the whole pipeline from product weights to lots.

**Account simulator** (`Market`, `AuditLedger`, `Rebalance`, `DayTargets`, `DaySession`,
`DayTrades`, `Simulator`, `SimulatorTargets`, `SimulatorRuns`, `SimulatorDeterminism`,
`SimulatorWitness`). The
day-by-day account with hard gates, the audit ledger and the turnover buckets. A day is
specified as a run through its stations, each with the events it writes. Selection and risk
scale of a day are arbitrary inputs.

**Smaller protocols** (`ActivityTracker`, `ContractSelection`, `Prefetcher`, `Webhook`). The
durable activity tracker with hysteretic contract selection, and two concurrent components as
interleaved atomic steps.

Floats are exact reals; the tolerances 1e-10, 1e-12 and 1e-15 are constants. Symbols and
products are ordered identifiers.

## What the proofs found

- Advancing an epoch never consults the retired lineages. A later switch can then retire one
  lineage twice and save a record that no load accepts
  (`RegistryRecords.AdmittedOperationDecodes`, `RegistryRuns.CommittedRecordReloads`);
  `RegistryReached.UnloadableRecordIsReached` gives the run from the provisioned disk. With fresh
  target epochs it cannot happen (`RegistryEpochs.FreshRunsKeepInvariant`).
- A transfer never checks that the target runtime is free. It breaks "one runtime, one
  account" exactly when another account is bound there (`RegistryRecords.RuntimesStayExclusive`,
  `RegistryReached.SharedRuntimeIsReached`).
- Putting back the immediate predecessor of the committed record is accepted while the pending
  file of the last commit remains, and only then (`RegistryEvidence.RollbackIsDetected`).
- A receipt written just before a crash reserves its nonce for exactly that operation; any
  other one with the nonce conflicts (`RegistryCommit.EvidenceOutcome`).
- Rows applied after leaving the prefetcher's lock are stale exactly when an invalidation came
  in between (`Prefetcher.CapturedRowsMayBeStale`, `Prefetcher.StaleAnswersAreReachable`), and
  an error applied there can drop a newer query (`Prefetcher.ReplacementsCanBeForgotten`).
- A forced close of the webhook sink can lose one accepted event without counting it
  (`Webhook.ForcedCloseCanSwallow`), exactly when the worker holds it as it reads the discard
  flag (`Webhook.SwallowsExactlyWhenCaught`).
- The daily return divides by the previous equity. A running account that starts a day at
  exactly zero is the one input on which a day fails (`Simulator.TradeDay`); it is then flat.
  Such a day is reached from the initial capital (`SimulatorWitness.ZeroEquityIsReached`).
- On a day with a missing price the equity moves and the watermark does not; the account is
  halted, so no gate ever compares the two (`SimulatorRuns.WatermarkIsAPeak`).

## Model

| member | source | states |
|---|---|---|
| `HexBits.FirstDifferentBitIsLeast` | afuture/account_runtime_nonce_ledger.py:191-199 | 256 minus the bit length of the XOR of two 64-digit keys is the least index at which the nibble-based bit test tells them apart; no such index exactly when the keys are equal |
| `HexBits.NibbleBit` | afuture/account_runtime_nonce_ledger.py:191-192 | the nibble expression reads bit `255 - i` of the number the hex digits spell |
| `HexBits.AgreeEverywhere` | afuture/account_runtime_nonce_ledger.py:191-199 | keys that agree on all 256 bits are the same string |
| `NonceTrie.ReachedIsNearest` | afuture/account_runtime_nonce_ledger.py:723-746 | the leaf reached by following a key's bits shares every bit prefix with the key that any member shares |
| `NonceTrie.LookupDecidesMembership` | afuture/account_runtime_nonce_ledger.py:748-757 | walking the bits finds a nonce if and only if it is in the dictionary of the trie, with its own receipt |
| `NonceTrie.CriticalBitIsFree` | afuture/account_runtime_nonce_ledger.py:804-821 | no branch on the path of a new nonce tests the first bit on which it differs from the leaf it reaches |
| `NonceTrie.GraftIsWellFormed` | afuture/account_runtime_nonce_ledger.py:804-834 | splitting at the critical bit and rebuilding the path keeps bits increasing downwards and every branch splitting its leaves |
| `NonceTrie.InsertRefinesMap` | afuture/account_runtime_nonce_ledger.py:773-843 | the new root is well formed and its dictionary is the old one with exactly the new receipt added, so every other nonce is answered as before |
| `NonceTrie.OneTriePerDictionary` | afuture/account_runtime_nonce_ledger.py:650-679 | two well-formed tries with the same dictionary are the same root |
| `NonceTrie.InsertAllBuildsDictionary` | afuture/account_runtime_nonce_ledger.py:773-843 | inserting any sequence of receipts with different nonces gives a well-formed root that holds exactly them |
| `NonceTrie.InsertionOrderIsIrrelevant` | afuture/account_runtime_nonce_ledger.py:773-843 | one set of receipts inserted in any two orders gives one root |
| `NonceLedger.Ledger.Proof` | afuture/account_runtime_nonce_ledger.py:723-746 | on any node files, malformed ones included, at most 257 nodes are read and the final "exceeds 256 bits" error is never raised; the result is the specified proof, or the specified error |
| `NonceLedger.ProofIsPath` | afuture/account_runtime_nonce_ledger.py:723-746 | a successful proof is the walk along the bits of the nonce: each node is the child of the one before, the tested bits increase, and it ends in the leaf that is reached |
| `NonceLedger.LookupAnswersContents` | afuture/account_runtime_nonce_ledger.py:748-764 | on stored, well-formed evidence a lookup answers the dictionary of the root, for members and for non-members |
| `NonceLedger.ProofNodesAreSound` | afuture/account_runtime_nonce_ledger.py:699-746 | every branch of a successful proof tests one of the 256 bits and has two different children |
| `NonceLedger.LookupNeverLies` | afuture/account_runtime_nonce_ledger.py:748-764 | whatever the files are, a lookup that answers gives what the root commits to, and a receipt it returns is on file |
| `NonceLedger.Ledger.PathAbove` | afuture/account_runtime_nonce_ledger.py:527-539 | exactly the proof nodes that test a bit below the first different one are kept, with the direction of the nonce at each, and the split happens at the node below them |
| `NonceLedger.Ledger.CanonicalInsertionRoot` | afuture/account_runtime_nonce_ledger.py:503-566 | the hash-only loop computes the specified recomputed root, or the specified error, on any node files |
| `NonceLedger.CanonicalRootIsInsertRoot` | afuture/account_runtime_nonce_ledger.py:503-566 | on stored, well-formed roots and fresh receipts the hash-only root is the root the node-writing insert produces |
| `NonceLedger.Ledger.CreateBranch` | afuture/account_runtime_nonce_ledger.py:667-679 | equal children or a bit out of range are refused without a write; otherwise one exact create decides |
| `NonceLedger.Ledger.RebuildPath` | afuture/account_runtime_nonce_ledger.py:822-834 | the branches above the split are recreated bottom up; the writes performed are those of the grafted path, wherever they stop |
| `NonceLedger.Ledger.WriteInsertion` | afuture/account_runtime_nonce_ledger.py:793-834 | the files an insertion creates, in order, for every point at which the machine may stop; only receipts and nodes appear and none changes |
| `NonceLedger.Ledger.Insert` | afuture/account_runtime_nonce_ledger.py:773-843 | a used nonce is returned unchanged for its own receipt and refused for any other; a fresh one ends in the inserted root with the count one higher; nothing but evidence files is ever written |
| `NonceLedger.InsertAnchorsNewRoot` | afuture/account_runtime_nonce_ledger.py:773-843 | once all insertion writes are done the new root is well formed and stored in full, and the old root still is |
| `Storage.RunConcat` | afuture/account_runtime_registry.py:1072-1096 | stopping two batches of durable writes after any number of steps is stopping the first, or the second after the first |
| `Storage.Device.Commit` | afuture/account_runtime_nonce_ledger.py:273-322 | an exact create keeps an equal file, refuses a different one, and otherwise writes it once; after the machine stopped nothing is written |
| `RegistryRecords.JudgeNeverReusesNonce` | afuture/account_runtime_registry.py:642-684 | a used nonce never commits again: the answer is "unchanged" for its own operation and an error for any other |
| `RegistryRecords.CommittedOperationIsRecognised` | afuture/account_runtime_registry.py:1314-1331 | right after a commit, the same request is recognised from the heads of the binding it left, and answered unchanged |
| `RegistryRecords.AdmittedOperationDecodes` | afuture/account_runtime_registry.py:234-334 | the bindings an admitted operation leaves decode again, and tell their history, if and only if it does not retire a lineage for the second time |
| `RegistryRecords.RetirementIsPermanent` | afuture/account_runtime_registry.py:1481-1508 | no admitted operation removes an account, a runtime or a lineage from the retired ones |
| `RegistryRecords.RuntimesStayExclusive` | afuture/account_runtime_registry.py:1909-2036 | "one runtime, one account" survives an admitted operation if and only if it is not a transfer onto a runtime another account is bound to, which no guard looks for |
| `RegistryFiles.HistoryIsConsistent` | afuture/account_runtime_registry.py:356-380 | the bindings replayed from any history are consistent with it: revision, heads, kinds and retirements |
| `RegistryFiles.RootHoldsHistory` | afuture/account_runtime_registry.py:664-684 | the trie root of a history holds exactly the receipts of its operations |
| `RegistryFiles.CountsAgree` | afuture/account_runtime_registry.py:1253-1264 | in every state the nonce count is the number of committed operations and of members of the root, and the sequence is one more |
| `RegistryFiles.StoredLinkLoads` | afuture/account_runtime_nonce_ledger.py:568-633 | every stored link of the transition chain validates: bounds, predecessor, receipt and recomputed root |
| `RegistryFiles.CommittedAnchorValidates` | afuture/account_runtime_registry.py:467-537 | the committed record ends the chain, a further link is accepted only when the pending file announces it, and every binding is vouched for by a receipt under the root |
| `RegistryFiles.LoadReturnsCommitted` | afuture/account_runtime_registry.py:813-872 | in every state of the invariant, loading succeeds and returns the committed record |
| `RegistryCommit.EvidenceOutcome` | afuture/account_runtime_registry.py:686-703 | writing the evidence of a fresh nonce leaves the registry as it is, and conflicts exactly when another receipt already sits at the nonce |
| `RegistryCommit.CommitSurvivesCrash` | afuture/account_runtime_registry.py:756-791 | from idle, or resumed after its own announcement or link, the five commit writes never conflict, and the invariant holds after any number of them |
| `RegistryCommit.SaveSurvivesCrash` | afuture/account_runtime_registry.py:686-793 | the same for a whole save: where it stops determines old or new record; a conflicting receipt changes nothing |
| `RegistryCommit.SaveRefusedWhilePending` | afuture/account_runtime_registry.py:756-761 | while another operation is announced no save completes and only evidence files can appear |
| `RegistryCommit.ReconcileClearsCommitted` | afuture/account_runtime_registry.py:601-639 | reconciliation only ever clears the announcement of a record that is committed |
| `RegistryRuns.RequestKeepsInvariant` | afuture/account_runtime_registry.py:686-793 | whatever the request and wherever the machine stops, the invariant survives and at most this operation joins the history; a completed commit leaves nothing pending |
| `RegistryRuns.LoadAfterRequest` | afuture/account_runtime_registry.py:813-872 | after a request, crashed or not, loading returns the old record or the new one |
| `RegistryRetries.ExactRetryCompletes` | afuture/account_runtime_registry.py:686-793 | retrying a crashed request exactly, from wherever it stopped and whatever phase it began in, unless another operation was announced, reaches the record it was to commit and clears its announcement |
| `RegistryRetries.RetryKeepsUnderWay` | afuture/account_runtime_registry.py:601-793 | an exact retry, stopped anywhere and under any gates, never brings a request back: it stays uncommitted with at most itself announced, or committed with at most its cleanup left |
| `RegistryRetries.AttemptKeepsUnderWay` | afuture/account_runtime_registry.py:601-793 | the same when another request comes in while the operation is announced: it is refused, and cannot take the nonce |
| `RegistryRetries.RetriesComplete` | afuture/account_runtime_registry.py:601-793 | after any number of attempts, each an exact retry or a refused other request and each stopped anywhere, one more retry with enough fuel leaves exactly this operation appended and nothing announced |
| `RegistryRuns.OthersAreRefusedWhilePending` | afuture/account_runtime_registry.py:601-639 | while one request is announced every other one leaves current, previous, pending and chain as they are |
| `RegistryRuns.CommittedRecordReloads` | afuture/account_runtime_registry.py:813-872 | from any phase in which no other operation is announced, a committed record loads again if and only if its operation did not retire a lineage for the second time |
| `RegistryRuns.HistoryIsDetermined` | afuture/account_runtime_registry.py:813-872 | a disk is explained by one history and one phase only |
| `RegistryRuns.RunsKeepInvariant` | afuture/account_runtime_registry.py:686-872 | over every run of requests, each stopped anywhere, every disk loads and the history only grows at its end |
| `RegistryRuns.NoncesAreUsedOnce` | afuture/account_runtime_registry.py:664-684 | no two committed operations of a history share a nonce |
| `RegistryRuns.RetirementOutlivesRuns` | afuture/account_runtime_registry.py:1481-1508 | what is retired at some point of a history is retired at every later one |
| `RegistryRuns.BindNeverRevives` | afuture/account_runtime_registry.py:1340-1364 | a new binding never takes an account, runtime or lineage that any earlier point had retired |
| `RegistryRuns.RuntimesStayExclusiveOverRuns` | afuture/account_runtime_registry.py:1909-2036 | histories without transfers onto bound runtimes never bind one runtime twice |
| `RegistryRuns.HeadsAreTheLastOperations` | afuture/account_runtime_registry.py:356-380 | a binding's revision counts the operations of its lineage and its stored heads are exactly the last eight of them, or all |
| `RegistryRuns.InitializationIsAllOrRefused` | afuture/account_runtime_registry.py:1223-1277 | provisioning a blank machine completes, or has not begun, or is refused by every later load |
| `RegistryEpochs.FreshEpochsRetireOnce` | afuture/account_runtime_registry.py:1580-1661 | after a history in which no operation brought its lineage an epoch back, every operation that commits extends the history and decodes: no lineage is retired twice |
| `RegistryEpochs.FreshRunsKeepInvariant` | afuture/account_runtime_registry.py:686-872 | over every run of requests that each bring their lineage a fresh epoch if they commit, each stopped anywhere, no double retirement has to be excluded: the invariant survives and every disk loads |
| `RegistryWitnesses.RetiredLineageCanReturn` | afuture/account_runtime_registry.py:1580-1661 | for any different identities: bind, switch away, switch back, advance to the old epoch is a history, and the next switch is admitted although it retires the first lineage for the second time |
| `RegistryWitnesses.TransferCanShareRuntime` | afuture/account_runtime_registry.py:1909-2036 | for any two accounts bound to two runtimes, transferring one onto the runtime of the other is a history that binds both to it |
| `RegistryReached.HistoriesAreReached` | afuture/account_runtime_registry.py:1223-2036 | every history whose transfers give a valid reason is reached from the provisioned disk by requesting its operations one after the other, each with open gates |
| `RegistryReached.UnloadableRecordIsReached` | afuture/account_runtime_registry.py:1580-1661 | from the provisioned disk five requests, on any different identities, are all carried out, and the record the last one leaves is accepted by no load |
| `RegistryReached.SharedRuntimeIsReached` | afuture/account_runtime_registry.py:1909-2036 | from the provisioned disk three requests, on any different identities, leave a record that loads and binds two accounts to one runtime |
| `RegistryGuards.BindingsRetireTheirOwn` | afuture/account_runtime_registry.py:1580-1661 | after any history the retired accounts, runtimes and lineages of a binding are exactly those the switches and transfers of its own lineage left behind, and every operation is in the lineage of a bound account |
| `RegistryGuards.AdmittedIsEligible` | afuture/account_runtime_registry.py:1341-2010 | the guards of every lifecycle method hold exactly when the history itself meets them: who stands where is the last operation of each lineage, and what is retired is what some operation left |
| `RegistryAnswers.CommitsIsDecided` | afuture/account_runtime_registry.py:1280-2036 | a request commits if and only if its nonce is new, there is room, the history meets its guards, and a transfer has all six gates open and a stripped reason of 1 to 1000 characters |
| `RegistryAnswers.VerdictIsDecided` | afuture/account_runtime_registry.py:1314-1331 | a request that passes its argument checks is recognised if and only if it is the last operation of its lineage; it is to be committed if and only if its nonce is new and its guards hold |
| `RegistryAnswers.ReplayChangesNothing` | afuture/account_runtime_registry.py:642-684 | a request with a used nonce, a late replay included, is answered with the current record if and only if nothing happened to its lineage since, and otherwise with an error; current, previous and chain stay as they are, and at most a finished announcement is cleared |
| `RegistryAnswers.AnswerIsByHistory` | afuture/account_runtime_registry.py:1280-2036 | every request is answered as the history alone says: recognised as the last operation of its lineage, refused with the first reason that applies, used nonces told apart, or committed |
| `RegistryLoads.LoadIsExact` | afuture/account_runtime_registry.py:813-872 | on any disk a record loads if and only if it is sound in every field, fits its previous file, ends the transition chain with nothing unannounced behind it, and each binding has its receipt under the root; nothing loads only from a disk without registry files |
| `RegistryLoads.LinkLoadsExactly` | afuture/account_runtime_nonce_ledger.py:568-633 | on any disk a link loads if and only if it is stored under its number, moves sequence and count by one, continues the ready marker or the link before it in every field, and its receipt takes the old root to the new one |
| `RegistryLoads.ReconcileIsExact` | afuture/account_runtime_registry.py:601-639 | a pending file is tolerated if and only if it starts or ends at the record, and cleared if and only if it is linked as announced and ends in it with its receipt under the root |
| `RegistryEvidence.RecomputedRootIsInsertion` | afuture/account_runtime_nonce_ledger.py:503-566 | on any node files, if the recomputation succeeds on a well-formed root then the nonce was no member and the result is the inserted root |
| `RegistryEvidence.ChainAuthenticatesReceipts` | afuture/account_runtime_nonce_ledger.py:568-633 | on any disk: if transitions 1 to n load, root n is the trie of exactly their n receipts, with n different nonces |
| `RegistryEvidence.RollbackIsDetected` | afuture/account_runtime_registry.py:486-521 | an earlier committed record put back beside any previous file is accepted on load if and only if it is the immediate predecessor, beside itself or its parent, and the pending file of the last commit has not been cleared |
| `Registry.Registry.SaveUnlocked` | afuture/account_runtime_registry.py:1159-1205 | keeps the current file as previous, then replaces it with the next record of the sequence, under the announced root and count when there is one |
| `Registry.Registry.CommitTransition` | afuture/account_runtime_registry.py:740-791 | announce, link, replace previous and current, clear: the writes and the answer, for every point at which the machine stops; the announced anchor is always forgotten |
| `Registry.Registry.SaveWithNonce` | afuture/account_runtime_registry.py:686-793 | consume the nonce, then commit; equals the specified writes and answer |
| `Registry.Registry.Execute` | afuture/account_runtime_registry.py:1280-2036 | the lifecycle methods: on every disk of the invariant, effect and answer are those of the plan that `AnswerIsByHistory` and `ReplayChangesNothing` tell from the history |
| `Registry.Registry.Initialize` | afuture/account_runtime_registry.py:1223-1277 | confirmed on a blank machine it performs the three provisioning writes; an untouched registry is returned as it is, a used one refused; unconfirmed nothing changes |
| `Optimizer.Searcher.IsFeasible` | afuture/directional_integer_optimizer.py:108-119 | decides membership in the feasible set: intent, cap, gross and margin |
| `Optimizer.FeasibleIsInside` | afuture/directional_integer_optimizer.py:108-119 | a target is feasible if and only if it holds requested contracts only, in the requested direction, within the request and the cap, and inside the gross limit and the margin budget |
| `Optimizer.Searcher.BestMove` | afuture/directional_integer_optimizer.py:147-173 | the result of a pass is the legal one-lot move that no other beats by more than 1e-10 and every earlier one, by symbol and downward first, falls short of; it is not finite only when a feasible move has no value |
| `Optimizer.Searcher.BestSwap` | afuture/directional_integer_optimizer.py:183-226 | the same for the pairs of legal moves on two symbols, in their order of trial |
| `Optimizer.ImprovementShrinksBetter` | afuture/directional_integer_optimizer.py:174-178 | each accepted move strictly shrinks the finite set of feasible targets with a larger objective, so the search ends |
| `Optimizer.Searcher.Climb` | afuture/directional_integer_optimizer.py:146-238 | a trace of feasible targets leads from the reference to the result, one per iteration: each step is the best one-lot move, or, where no one-lot move gains, the best swap, and gains more than 1e-10; at the end neither gains. Or the reference, when such a climb meets a feasible target without a finite value |
| `Optimizer.OptimizeIntegerTargets` | afuture/directional_integer_optimizer.py:63-238 | refuses exactly the inputs out of range (budget above 35% of equity, gross above 2, no cap) or without positive evidence; caps at 35 lots; an infeasible or valueless reference is returned as it is; otherwise the outcome of the climb |
| `Optimizer.ClimbMovesLots` | afuture/directional_integer_optimizer.py:150-226 | per iteration exactly one position changes, by one lot, or two do |
| `Lots.TotalIsAdditive` | afuture/directional_acceptance.py:644-656 | weighted totals add up over magnitudes that add up, for any weights |
| `Lots.Measure` | afuture/directional_acceptance.py:644-656 | summing a position dictionary entry by entry, in any order, gives its weighted total |
| `LargestRemainder.AwardLots` | afuture/directional.py:205-211 | the award loop gives a lot exactly when the awards with larger remainder, or equal remainder and smaller symbol, leave room for it |
| `LargestRemainder.AwardsAreDetermined` | afuture/directional.py:205-211 | the greedy rule has one solution |
| `LargestRemainder.NoRoomForTheOthers` | afuture/directional.py:205-211 | a symbol without an award would break the limit with one, also after all awards |
| `LargestRemainder.LargerRemainderGoesFirst` | afuture/directional.py:205-211 | whoever gets a lot although a symbol no heavier gets none has the larger remainder, or an equal one and the smaller symbol |
| `MarginFit.FitTargetLotsToMarginBudget` | afuture/directional.py:156-217 | refuses exactly a negative budget or a requested symbol without positive margin; otherwise the specified fit |
| `MarginFit.FitMeetsBudget` | afuture/directional.py:156-217 | the fit keeps every sign, never exceeds the request and uses at most the budget plus 1e-10; a request inside the budget is kept whole and a zero budget gives nothing |
| `MarginFit.FitLeavesNoRoom` | afuture/directional.py:192-211 | on the scaled path every magnitude is the floor of its proportional ideal or one more, and one more lot for a symbol at its floor would break the budget |
| `MarginFit.FitPrefersLargerFractions` | afuture/directional.py:192-211 | on the scaled path, a symbol that gets a lot more while another with no more margin stays at its floor has the larger fraction of its proportional ideal, or an equal one and the smaller name |
| `MarginFit.FitIsDetermined` | afuture/directional.py:156-217 | the fit is a function of its inputs |
| `GrossReduction.BuildRealizedGrossReductions` | afuture/directional.py:380-449 | the production guard: refuses exactly bad parameters and, above zero equity, a held contract without positive notional; otherwise the specified reduction |
| `GrossReduction.RealizedGrossReductions` | afuture/directional_acceptance.py:746-802 | the two loops of the acceptance guard, on books that may hold zero positions, satisfy the same specification and leave unpriced positions alone |
| `GrossReduction.ReductionOnlyShrinks` | afuture/directional_acceptance.py:746-802 | every delta shrinks its position without turning it around |
| `GrossReduction.BreachIsReduced` | afuture/directional_acceptance.py:755-802 | something is sold exactly when gross exceeds the ceiling by more than 1e-10 |
| `GrossReduction.ReductionMeetsCeiling` | afuture/directional.py:414-449 | afterwards everything priced is gone, or gross is at most ratio times (equity less cost of the reduction), plus 1e-10 |
| `GrossReduction.ReductionIsMaximal` | afuture/directional.py:424-442 | a position is kept at the floor of its proportional share of gross less (gross - ceiling) / (1 - ratio times cost), or one more, and one that got no lot back could not have: restoring it would leave less sold than required |
| `GrossReduction.ReductionPrefersLargerFractions` | afuture/directional_acceptance.py:770-795 | a position that gets a lot back while another worth no more per lot does not has the larger fraction of what the ceiling lets it keep, or an equal one and the smaller name |
| `GrossReduction.ReductionIsDetermined` | afuture/directional_acceptance.py:746-802 | the specification has one solution, so the production and the acceptance implementation agree wherever both answer |
| `TargetLots.ShareStaysBelowHardGates` | afuture/directional.py:220-256 | the soft share is non-negative, at most the margin gate and one minus the reserve gate, and leaves the daily-loss reserve free whenever the gates have room for it |
| `TargetLots.ShocksOnlyContract` | afuture/directional.py:220-256 | calm evidence gives the share of no evidence; a larger shock never gives more than a smaller one |
| `TargetLots.ShareIsExact` | afuture/directional.py:220-256 | the share outright: the reserve-keeping share, cut by what the worse of the latest return and the deviation, counted up to the daily-loss limit, exceeds the trigger |
| `TargetLots.LatestReturnDecides` | afuture/directional.py:247-256 | two histories with the same latest return and deviation have one share; a calm latest return and deviation leave it where no evidence would; a latest return beyond the trigger cuts it strictly, down to a floor at the daily-loss limit |
| `TargetLots.BuildTargetLots` | afuture/directional.py:259-291 | raises exactly above twice gross; otherwise the requested lots of every product |
| `TargetLots.RequestedGross` | afuture/directional.py:259-291 | the requested gross is at most equity times the sum of absolute weights |
| `TargetLots.RequestedIsExact` | afuture/directional.py:271-291 | per product: nothing for a negligible weight or without a specification, a positive price and lot value, equity and room; otherwise, in the direction of the weight, the most lots up to the cap that the weighted equity pays for |
| `TargetLots.RequestedLots` | afuture/directional.py:259-291 | every requested position has a product behind it, the sign of its weight, and at most the contract cap |
| `MarginAwareTargets.StabilizeOneLotIncreases` | afuture/directional_efficiency.py:61-102 | one-lot increases are held back exactly when the incumbent book is priced and inside the soft margin and the gross ceiling |
| `MarginAwareTargets.StabilizedOnlyHolds` | afuture/directional_efficiency.py:61-102 | a position is held at its current lots exactly when the target is one lot more in its direction; nothing else changes |
| `MarginAwareTargets.SizedIsSafe` | afuture/directional.py:294-377 | everything the pipeline returns stays within the request: gross at most (2 + 1e-10) times equity, each contract within the cap, buffered margin at each direction's own rate at most equity times the soft share plus 1e-10 |
| `MarginAwareTargets.SizedIsSafeInMoney` | afuture/directional.py:294-377 | the same bounds in money: every lot counts its mid price and multiplier, and its buffered margin is at the long rate for a long position and at the short rate for a short one |
| `MarginAwareTargets.BuildMarginAwareTargetLots` | afuture/directional.py:294-377 | the exact refusals of the pipeline, its exact result, and the hard-gate bounds on it |
| `Market.ReasonIsExact` | afuture/directional_acceptance.py:427-452 | no reason if and only if drawdown, margin, reserve and daily loss are all inside their limits in money; "daily loss" if and only if only that one is touched, so it never hides a hard gate |
| `Market.HardReasonsInOrder` | afuture/directional_acceptance.py:427-452 | each hard reason in money, the first that applies: insolvency, drawdown, margin, reserve |
| `Market.MarginIsGrossShare` | afuture/directional_acceptance.py:585-600 | margin is gross at the proxy rate and buffer |
| `AuditLedger.IntentIsExact` | afuture/directional_attribution.py:31-62 | in terms of the two books: an entry has no position of the product before, an exit none after, a roll another contract, a reversal the same contract in the other direction, a resize the same direction |
| `AuditLedger.ClassifyRebalanceAction` | afuture/directional_attribution.py:31-62 | the name of a trade is the product-level intent between the two books; raises exactly when there is none |
| `AuditLedger.AttributeRebalanceDeltas` | afuture/directional_efficiency.py:15-58 | each bucket is the turnover of the trades with that intent; raises exactly when some delta has no notional, product or intent |
| `AuditLedger.PurposesPartition` | afuture/directional_efficiency.py:15-58 | the five buckets sum to the turnover |
| `AuditLedger.TradeAuditRows` | afuture/directional_acceptance.py:658-718 | one row per delta that is not zero, in symbol order, with its lots, side, price, turnover and cost; in total, per action and per symbol the rows add up to the batch |
| `Rebalance.PlanRebalance` | afuture/directional_acceptance.py:363-388 | the plan holds every reducing step, and the opening steps only when there is nothing to reduce |
| `Rebalance.TwoPhases` | afuture/directional.py:452-485 | reductions never grow or turn a position and leave nothing more to reduce; the openings planned after them land exactly on the target |
| `Rebalance.PhasesAddUp` | afuture/directional_acceptance.py:1103-1173 | a symbol traded in both phases was turned around, so the turnover of the merged deltas is the sum of both phases |
| `Rebalance.ApplyDeltas` | afuture/directional_acceptance.py:601-606 | positions change by their deltas and none is kept at zero |
| `DayTargets.TargetLotStages` | afuture/directional_acceptance.py:288-342 | the lots are the staged ones; desired notional is exactly the notional of the lots plus what rounding, the volume cap and missing contracts take, and each of the four is its own sum over the products |
| `DayTargets.StagedIsHoldable` | afuture/directional_acceptance.py:288-342 | staged lots are one contract per product, the selected one, in the direction of its weight and within the cap |
| `DayTargets.TargetIsHoldable` | afuture/directional_acceptance.py:1092-1098 | keeping positions of products without a usable contract still leaves one contract per product |
| `DayTargets.CheckOpeningBatch` | afuture/directional_acceptance.py:390-425 | a batch is admitted if and only if every contract stays within the cap with a positive price and the account can carry the added margin; a refusal names the first check that fails |
| `DayTargets.AdmittedBookIsInside` | afuture/directional_acceptance.py:390-425 | after an admitted batch the whole book, at opening prices, is inside the margin and reserve gates and every opened contract within the cap |
| `SimulatorTargets.TargetIsExact` | afuture/directional_acceptance.py:1050-1098 | the day's target per contract: nothing for a negligible weight; the position it has when its product has no contract to trade; otherwise, for the selected contract only, the most lots up to the cap that equity times weight times the governor's scale pays for at the open |
| `SimulatorTargets.ScaleFoldsIntoWeights` | afuture/directional_acceptance.py:1066-1068 | a day runs exactly like the day whose weights are multiplied by the scale and whose scale is one |
| `SimulatorTargets.StagedGrossIsCovered` | afuture/directional_acceptance.py:288-342 | the gross of the staged lots at the open is at most equity times scale times the sum of the raw weights' magnitudes |
| `DaySession.MarkGap` | afuture/directional_acceptance.py:932-961 | each position is marked once, from the previous close to the open; a missing price stops it and is reported exactly when some held contract has none; the rows add up to the equity change |
| `DaySession.MarkIntraday` | afuture/directional_acceptance.py:1175-1195 | one row per position; the sum is signed volume times move times multiplier |
| `DayTrades.Liquidate` | afuture/directional_acceptance.py:1206-1230 | the whole book is sold at the given prices with one row per position under the name of its reason; equity falls by the cost of its gross; a flat book trades nothing |
| `DayTrades.RebalanceBook` | afuture/directional_acceptance.py:1103-1173 | both phases with their rows, cost and positions; the gate between them, and why it refuses; every bucket grows by the turnover of its trades; the attribution and audit errors are unreachable |
| `DayTrades.GuardGross` | afuture/directional_acceptance.py:1235-1258 | it sells exactly when gross at the close exceeds the ceiling, and then exactly the cost-inclusive reduction, with its rows; afterwards the book is flat or under the ceiling of the equity left |
| `Simulator.TradeDay` | afuture/directional_acceptance.py:856-1342 | one day from any account is the specified run: gap, forced sale or rebalance, ride to the close, the reason there, the guard and the second look, with every event, bucket, watermark and flag; a missing price freezes the book; it fails exactly when a running account starts at equity zero |
| `Simulator.Simulate` | afuture/directional_acceptance.py:804-1389 | a run is its days one after the other; it stops early only at a flat account with equity zero |
| `SimulatorDeterminism.DayIsDetermined` | afuture/directional_acceptance.py:856-1342 | accounts that start a fully priced day the same end it the same, watermark included, and report the same row; only the order of the ledger is open |
| `SimulatorDeterminism.RunIsDetermined` | afuture/directional_acceptance.py:804-1389 | two runs over the same days have the same rows and accounts up to the first missing price |
| `SimulatorRuns.EquityIsExplained` | afuture/directional_acceptance.py:934-1300 | at the end of every day equity is initial capital plus all gross profit less all transaction cost in the ledger, which never loses an event |
| `SimulatorRuns.TurnoverIsExplained` | afuture/directional_acceptance.py:1103-1300 | the daily turnover column adds up to the turnover of the ledger |
| `SimulatorRuns.LedgerIsTheAccount` | afuture/directional_acceptance.py:658-744 | over every run all cost is the rate on all turnover, and every position is the sum of its trades |
| `SimulatorRuns.EveryEventIsExplained` | afuture/directional_acceptance.py:658-744 | every event in the ledger of a run is a trade at an opening or closing price of its day, with its turnover and cost, or the profit of a held position over its own price move of that night or session |
| `SimulatorRuns.WatermarkIsAPeak` | afuture/directional_acceptance.py:1002-1200 | the watermark never falls below initial capital or itself, and while the account runs it is at least the equity at the end of every day so far |
| `SimulatorRuns.DrawdownIsBounded` | afuture/directional_acceptance.py:1002-1308 | an account that ends a day with positions has kept more than the drawdown limit allows to lose of initial capital and of the equity at the end of every earlier day |
| `SimulatorRuns.GuardActsAboveTheCeiling` | afuture/directional_acceptance.py:1235-1300 | the guard acts exactly when a book that passed every gate at the close is above the gross ceiling |
| `SimulatorRuns.DaysEndInsideTheLimits` | afuture/directional_acceptance.py:1000-1308 | every running day on which all held contracts had prices ends flat, or with drawdown, daily loss, margin, reserve and gross inside their limits at closing prices and post-cost equity; one contract per product |
| `SimulatorRuns.HaltingIsAbsorbing` | afuture/directional_acceptance.py:895-931 | a halted account never changes or trades again; the first divergence is never rewritten |
| `SimulatorRuns.OnlyMissingPricesFreeze` | afuture/directional_acceptance.py:935-999 | a halted account that still holds something was stopped by a missing price |
| `SimulatorWitness.FirstDayEndsAtZero` | afuture/directional_acceptance.py:1103-1230 | with one contract at a price of one, weight two and a cost of a quarter, every first day ends flat at equity zero with the account still running |
| `SimulatorWitness.ZeroEquityIsReached` | afuture/directional_acceptance.py:804-1389 | so simulating two such days stops with the division by zero on the second |
| `ActivityTracker.Store.SaveState` | afuture/directional_activity.py:259-262 | an invalid state is refused; otherwise the file is replaced as a whole or not at all |
| `ActivityTracker.Tracker.DoObserve` | afuture/directional_activity.py:372-453 | what an observation does to memory and file, for every way its save can end; the validation of the saved state never fails |
| `ActivityTracker.Tracker.DoCheckpoint` | afuture/directional_activity.py:358-370 | a clean tracker writes nothing; a dirty one saves its whole memory |
| `ActivityTracker.ObservationIsHeld` | afuture/directional_activity.py:395-453 | what one observation does outright: what is refused, that any other one is the one then held for its symbol, and that the first of a later day completes the day before and saves both |
| `ActivityTracker.StepKeepsInvariant` | afuture/directional_activity.py:132-143 | completed evidence in memory is the durable one, the completed day is before the one in progress, and durable evidence only moves forward |
| `ActivityTracker.RunsKeepInvariant` | afuture/directional_activity.py:344-453 | the same over every run of observations, checkpoints, failed saves and crashes |
| `ActivityTracker.DurableEvidenceIsClean` | afuture/directional_activity.py:100-143 | over every run, every figure a file holds is non-negative and filed under its own symbol and day, and the completed day is before the one in progress |
| `ActivityTracker.CrashLosesOnlyUnsaved` | afuture/directional_activity.py:344-353 | a restart restores exactly the last successful save |
| `ContractSelection.ChoiceIsUndominated` | afuture/directional_activity.py:506-520 | nobody has both more open interest and more volume than the chosen contract |
| `ContractSelection.CandidatesAreEligible` | afuture/directional_activity.py:475-503 | a contract is a candidate exactly when it is configured, listed, far enough from expiry, and active enough in the completed snapshot; its row carries that activity |
| `ContractSelection.ChoiceRanksHighest` | afuture/directional_activity.py:506-520 | among all candidates, or among those that beat a replaced incumbent on both counts, the choice ranks highest by open interest, then volume, then earlier expiry, then smaller symbol |
| `ContractSelection.IncumbentStaysUnlessDominated` | afuture/directional_activity.py:509-519 | an eligible incumbent is replaced if and only if some contract beats it on both counts |
| `ContractSelection.EligibleIncumbentStays` | afuture/directional_activity.py:506-520 | in the selection, an eligible incumbent stays unless another candidate has both more open interest and more volume; a product is left out exactly when it has no candidate |
| `ContractSelection.SelectContractsFromActivity` | afuture/directional_activity.py:456-520 | grouping, filtering and ranking give the specified choice for every product with an eligible contract |
| `ContractSelection.SelectionIsStable` | afuture/directional_activity.py:456-520 | selecting again on the same snapshot with the result as incumbents gives the same result |
| `Prefetcher.MetadataPrefetcher.Request` | afuture/auto_runtime.py:32-63 | both branches: ready at once when every row is cached; a blocking broker gets one background query per key; any other is asked outside the lock and its rows or its error applied |
| `Prefetcher.MetadataPrefetcher.EndWait` | afuture/auto_runtime.py:84-96 | the last section of `wait` applies the held query and returns what is cached of its key, or nothing after a timeout, its own or one that the query raised, or an error |
| `Prefetcher.MetadataPrefetcher.HarvestLocked` | afuture/auto_runtime.py:114-124 | a finished query is taken once and its rows or its error recorded |
| `Prefetcher.RunsStayFresh` | afuture/auto_runtime.py:32-134 | over every interleaving: at all times each cached row was delivered by a query submitted after the latest invalidation and no key has two unfinished background queries since, if and only if every query held across the lock is applied in time; `get`, `error` and a blocking `request` hold none |
| `Prefetcher.AnswersAreFresh` | afuture/auto_runtime.py:65-71 | then every answer is made of rows delivered by queries submitted after the latest invalidation |
| `Prefetcher.StaleQueriesAreIgnored` | afuture/auto_runtime.py:104-109 | a query from before an invalidation may finish, but unless it was held across it, what it brings is never cached again |
| `Prefetcher.CapturedRowsMayBeStale` | afuture/auto_runtime.py:73-96 | applying a held query keeps the cache fresh if and only if no invalidation came in between or it leaves no row |
| `Prefetcher.StaleAnswersAreReachable` | afuture/auto_runtime.py:42-96 | it happens on both paths: for any symbol some interleaving answers with a row queried before the latest invalidation |
| `Prefetcher.ReplacementsCanBeForgotten` | afuture/auto_runtime.py:84-92 | a waiting caller whose query failed can drop the unfinished query that replaced it, so that two are under way for one key |
| `Webhook.EveryEventIsAccounted` | afuture/alerts.py:88-162 | at every moment of every interleaving each accepted event is attempted once, queued, in the worker's hands, discarded by a close, or the at most one swallowed event; attempts keep the order and the queue its bound; drops are counted |
| `Webhook.OfferedIsAccounted` | afuture/alerts.py:88-103 | every event offered to an open sink was accepted or counted as refused, and nothing else was; a closed sink stays closed |
| `Webhook.ClosedWorkerStops` | afuture/alerts.py:119-143 | left alone after a close, the worker empties the queue and leaves in at most five steps per queued event and four more |
| `Webhook.ClosedSinkIsAccounted` | afuture/alerts.py:120-162 | when worker and closes are done the queue is empty: without a forced close everything accepted was attempted in order; otherwise the rest is counted as dropped, all but one event exactly if the worker was caught holding it |
| `Webhook.SwallowsExactlyWhenCaught` | afuture/alerts.py:126-162 | an event is swallowed if and only if the worker takes a step with an event in hand after a close has set the discard flag |
| `Webhook.ForcedCloseCanSwallow` | afuture/alerts.py:126-162 | that exception is real: some interleaving neither attempts nor counts an accepted event |

## Left out

- RegistryRetries.ExactRetryCompletes: assumes a nonce without a conflicting receipt; a conflicting one refuses the operation for good and is covered by `RegistryCommit.EvidenceOutcome`.
- RegistryRetries.RetriesComplete: other requests come in between only while the operation is announced; before its announcement another one may commit first and change the guards, as over any run.
- RegistryRuns.RuntimesStayExclusiveOverRuns: assumes that no transfer lands on a bound runtime, because the code does not check it; one step is an if-and-only-if.
- TargetLots.BuildTargetLots: requires different products to be quoted by different contracts, as the catalog guarantees; with a shared contract the later product would overwrite the earlier one.
- DayTargets.CheckOpeningBatch: visits the openings in any order, so with several violations the reported one is any of them.
- AuditLedger.ClassifyRebalanceAction: requires books with known contracts and one per product, which the simulator keeps; with two contracts of a product the dictionary of the original keeps the last one.
- AuditLedger.AttributeRebalanceDeltas: the same requirement on its two books.
- SimulatorDeterminism.DayIsDetermined: leaves the order of the profit rows open, because positions are visited in any order, and says nothing about days with a missing price.
- GrossReduction.RealizedGrossReductions: requires non-negative notionals, as validated prices guarantee.
- DaySession.MarkGap: visits positions in any order, so which missing price is reported, and what was marked before it, is any possible one.
- Prefetcher.MetadataPrefetcher.Request: the object's method runs its sections without anybody in between; the interleavings of the sections are those of the step machine.
- ContractSelection.SelectContractsFromActivity: the snapshot is taken as validated and case folding as done.
- Lock files, the visible lock and kernel locking: taken as mutual exclusion.
- File-system detail: inode and symlink checks, fsync, permissions, torn writes. A create, a replace and an unlink are atomic.
- JSON encoding, canonical paths, maximum byte sizes and checksums: a digest is the value it is the digest of. Bindings are a map keyed by account instead of a sorted tuple.
- `require_binding`, `require_binding_evidence` and `require_no_active_binding`: read-only queries on a loaded record.
- Rounding of floats, and non-finite inputs other than the optimizer's objective.
- The sample deviation in the soft share: any non-negative number.
- The risk governor, contract selection from daily frames, DataFrame validation and the Stress-90 stages of the simulator: a day brings any scale and any selection with at most one contract per product.
- `wait` timeouts, executor shutdown and webhook delivery itself: a query may finish at any time, a delivery is one attempted step.
- The command line, the command router, the signal engine and its adapters, deployment identity, configuration parsing, reports and diagnostics.
