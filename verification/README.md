# Epeius: preparation, search and execution, verified in Dafny

Epeius is a quote engine (Go) and a signing terminal (TypeScript). The engine searches swap routes
concurrently, freezes the terms of a chosen route in a *preparation*, and answers whether it can be
signed. The terminal rebuilds every term from its own configuration, asks for consent, checks again,
sends once and verifies the receipt. Both halves promise things about whole runs; this project models
the code that keeps those promises and proves them.

`dafny verify dfyconfig.toml` checks everything. No file includes another; modules import each other.

## How the model is organised

Engine, preparations:

- `Retention.dfy`, `QuoteStore.dfy`, `Detachment.dfy`: the in-memory store, first as values (two tables
  of expiring entries, at most 1024 each, an approval latch in each quote), then as the heap class with
  its cloned messages, pruning and eviction loops, every method tied to the value functions; and any
  script of its operations while every message outside is overwritten after each of them.
- `PreparationProtocol.dfy`: the calls of `PrepareExecution` as a transition system. Each call is a
  program counter with its own copies of the stored terms; each store operation is one atomic step; the
  network, builders, simulator and every clock reading are free parameters of the steps. No two clock
  readings are assumed to be ordered, so the results hold in particular for a clock that never goes back.
- `PreparationSafety.dfy`, `PreparationRecord.dfy`, `PreparationTheorems.dfy`, `LoneCalls.dfy`: the
  invariants, what they mean for every run, and what one undisturbed call answers (the other half of the
  safety results).
- `Authorizations.dfy`, `AuthorizationExamples.dfy`: exactly when one preparation, or one quote, asks for
  more than one transaction, and runs from the empty store in which it does.
- `SelectionExample.dfy`: a run from the empty store in which a strategy changes its selection under way.
- `ApprovalLatch.dfy`: the latch as callers see it: who approves whom for which quote.
- `CallReadings.dfy`, `AnswerGrounds.dfy`: what a call is told by the clock, the network, its strategy and the
  simulator, and that in every run its answers rest on it, number by number, and its refusals have their reason
  in it.
- `Preparer.dfy`: one call as the program runs it, on the heap: the store with its own copies, the call's
  own messages updated in place, and every other object of the program, which others may overwrite at any
  network wait while they also work on the store. The selection in a prepared response is such an object:
  it stays the strategy's until the save. The call is proved to take only steps of the protocol that carry
  what it was told.

Engine, quotes:

- `Enumeration.dfy`, `Candidates.dfy`: the nested comprehension of paths and the two stateful odometers.
- `PathQuotes.dfy`: quoting a path hop by hop, and quoting a stored route again.
- `SearchPool.dfy`, `Ranking.dfy`: the worker pool as a transition system, its refinement of the
  sequential search, and the ranking loop.
- `Paths.dfy`, `Executor.dfy`, `Routers.dfy`: packed path bytes, executor admission, checks and calls,
  and the builders that freeze a plan.
- `Accounting.dfy`, `Bundle.dfy`: token movement read from call trees, receipts and bundles of calls.

Terminal:

- `Policy.dfy`, `Acceptance.dfy`: local admission, rebuilt terms and `validatePreparation`, as functions, and
  what acceptance means field by field.
- `Execution.dfy`, `ExecutionTheorems.dfy`, `Trade.dfy`, `TradeTheorems.dfy`: one guarded execution over mutable
  objects held by callbacks, exactly when it sends and when it calls a swap verified; the three-round trade,
  and what every run keeps.
- `Consent.dfy`: an accepted transaction determines the terms it was shown with.
- `Recording.dfy`: the streaming recorder of the end-to-end harness.

Both together:

- `Agreement.dfy`, `EngineRuns.dfy`, `Protection.dfy`: every unexpired ready answer of the engine is one
  the terminal accepts, in any run, as long as the strategy has not changed the selection it handed over;
  and both protect the same balances.
- `ApprovalRuns.dfy`: so is every answer that asks for an approval.
- `TradeSelection.dfy`: a trade for which the user names no route takes the best one the search found.
- `SearchedRuns.dfy`: the routes a quote stores are what some schedule of the concurrent search found, so
  that a run needs no assumption about them.
- `EndToEnd.dfy`, `Examples.dfy`, `ExecutorExample.dfy`, `RunExample.dfy`: the engine's builders run one
  after another and their responses accepted; a concrete direct response, a concrete plan over two venues,
  and a concrete run from a search to a ready answer that meet every hypothesis.

`Messages.dfy`, `Numerals.dfy` and `Sorting.dfy` hold the wire messages, number text and library sorts.

## What the proofs found

- The comment that one quote authorises one transaction (`services/quote-engine/internal/quote/execution.go:173-176`)
  is not what the engine does. It does if and only if at most one first call of the quote is answered and no
  answered call finds the ERC-20 allowance short beside a Permit2 permission
  (`Authorizations.OneTransactionExactly`). Two first calls that both find the allowance short are both
  answered with an approval (`AuthorizationExamples.TwoApprovals`), and the recheck of a permission-first
  preparation asks for an approval as well once the allowance has dropped
  (`AuthorizationExamples.PermissionThenApproval`); both are runs from the empty store. Of one preparation,
  the comment holds exactly when it is not permission-first with a short call (`Authorizations.BothExactly`).
- A preparation's answers need not carry the same route. The source puts the route and allocations a strategy
  hands over into the prepared response without a copy (`services/quote-engine/internal/quote/execution.go:242`),
  answers a first call with a copy of that response (98) and, when it is ready, saves the response itself (219).
  All answers of a preparation carry the same terms if and only if no save of it stored another selection than
  the copied one, or no recheck of it was answered (`PreparationTheorems.ImmutableExactly`,
  `PreparationTheorems.KeptExactly`); `SelectionExample.TwoRoutes` is a run from the empty store with two ready
  answers of different routes. Amounts, tokens, recipient, deadline, expiry and transactions agree in any case
  (`PreparationTheorems.ImmutableTerms`). No strategy of the repository changes what it has handed over.
- The terminal refuses a response that asks for both, so one preparation still leads to one signature
  (`EngineRuns.BothIsRefused`, `EngineRuns.OnePreparationOneSignature`).
- The bytes the terminal sends are the bytes it validated only while no callback hangs a different
  transaction object on the preparation: the check reads the preparation, the send reads the plan.
  `Execution.ExecutePrepared` proves it under that hypothesis, `Execution.Recheck` says when checks that pass
  are defeated, and `Execution.RepointingDefeatsTheChecks` shows a state in which they are.
- A trade compares a quote identifier only with the one before it (`TradeTheorems.QuotesMayAlternate`).
- Simulation and receipt check disagree in exactly two ways (`Accounting.WaysToDisagree`): the simulation
  accepts Transfer logs the receipt check cannot read, such as one with high bits above an address
  (`Accounting.EngineIsMoreLenient`), and it refuses a call tree with any failure inside, also one its caller
  recovered from, which a receipt does not show (`Accounting.EngineIsStricter`). Their agreement on every tree
  therefore carries both conditions (`Accounting.ReceiptAgreesWithSimulation`).

## Model

| member | source | states |
|---|---|---|
| QuoteStore.Store.Prune | services/quote-engine/internal/quote/store.go:40-51 | drops exactly the entries whose expiry is not after the clock reading, in both tables |
| QuoteStore.PruneTable | services/quote-engine/internal/quote/store.go:41-45 | the deleting loop over one table leaves exactly the live entries |
| QuoteStore.FindOldest | services/quote-engine/internal/quote/store.go:58-64 | the sentinel loop finds an entry of minimal expiry; the empty text can stand for none because no entry is stored under it |
| QuoteStore.Store.MakeQuoteRoom | services/quote-engine/internal/quote/store.go:57-66 | evicts nothing below 1024 entries and otherwise one entry of minimal expiry |
| QuoteStore.Store.MakePreparationRoom | services/quote-engine/internal/quote/store.go:74-83 | likewise for preparations |
| QuoteStore.Store.SaveQuote | services/quote-engine/internal/quote/store.go:53-68 | prunes, makes room, and stores a detached copy with an empty latch, expiring 30 seconds after the search began |
| QuoteStore.Store.SavePreparation | services/quote-engine/internal/quote/store.go:70-89 | prunes, makes room, and stores detached copies of response, transaction, permission and checks under the caller's expiry |
| QuoteStore.ClonePreparation | services/quote-engine/internal/quote/preparation.go:38-62 | the copy has equal contents and shares no object with the original |
| QuoteStore.Store.Lookup | services/quote-engine/internal/quote/store.go:91-106 | returns fresh copies of what is live, never an expired entry, and changes only by pruning |
| QuoteStore.Store.MarkApproval | services/quote-engine/internal/quote/store.go:108-123 | atomically returns whether the key was latched and latches it if required; says so when the quote is gone |
| QuoteStore.Store.Latch | services/quote-engine/internal/quote/store.go:118-121 | latching a key of one quote changes no other quote's latch and no preparation |
| Detachment.SavedTermsSurviveAnything | services/quote-engine/internal/quote/store.go:53-123 | any operations in any order, with every message anyone gave to the store or got from it overwritten after each: the store and all it tells are those of the value on which nobody else can act |
| Detachment.SavedTermsSurvive | services/quote-engine/internal/quote/store.go:84-104 | one saved preparation comes back unchanged from two lookups although the objects given and received are overwritten |
| Detachment.StaysBounded | services/quote-engine/internal/quote/store.go:53-123 | no operation takes either table past its limit |
| Retention.InsertedFacts | services/quote-engine/internal/quote/store.go:57-67 | after a save the entry is present, the table holds at most 1024 entries, and everything else that was live and not evicted is still there |
| Retention.LiveSize | services/quote-engine/internal/quote/store.go:40-51 | pruning never grows a table |
| PreparationSafety.RunInv | services/quote-engine/internal/quote/execution.go:30-220 | the invariant of the protocol holds after every sequence of steps of any number of concurrent calls |
| PreparationSafety.SaveQuoteStep | services/quote-engine/internal/quote/store.go:53-68 | saving a quote keeps the invariant |
| PreparationSafety.LookupStep | services/quote-engine/internal/quote/execution.go:48-52 | a lookup keeps the invariant |
| PreparationSafety.BuildStep | services/quote-engine/internal/quote/execution.go:71-107 | building the terms of a first call keeps the invariant |
| PreparationSafety.ReadStep | services/quote-engine/internal/quote/execution.go:98-119 | reading for a recheck keeps the invariant |
| PreparationSafety.MarkStep | services/quote-engine/internal/quote/store.go:110-123 | marking an approval keeps the invariant: the latch holds exactly the recorded requirements |
| PreparationSafety.SaveStep | services/quote-engine/internal/quote/execution.go:142-146 | saving and answering keeps the invariant |
| PreparationTheorems.ApprovalLatch | services/quote-engine/internal/quote/execution.go:120-204 | once a quote needed an approval under a key, no preparation whose call marks the key later in lock order ever answers ready, not even on a recheck, whether or not the later mark still finds the quote |
| ApprovalLatch.ShortageLatches | services/quote-engine/internal/quote/execution.go:120-204 | once a call of a quote found the allowance short, no preparation of a later call of that quote for the same recipient and spender is ever answered ready, by that call or on any recheck, whatever is approved in between |
| ApprovalLatch.RequirementLatches | services/quote-engine/internal/quote/execution.go:160-204 | the same for a missing Permit2 permission, by recipient, permission contract and spender |
| ApprovalLatch.AllowanceBitExactly | services/quote-engine/internal/quote/execution.go:120-126 | the bit a call takes from its allowance mark, where the mark finds the quote: set if and only if an earlier call of the quote, for the same recipient and spender, had found its allowance short; a call for another recipient or spender leaves no trace |
| ApprovalLatch.PermissionBitExactly | services/quote-engine/internal/quote/execution.go:160-168 | likewise for the permission mark, to which an earlier bit is added |
| ApprovalLatch.AnsweredCallsMark | services/quote-engine/internal/quote/execution.go:120-168 | no first call is answered without having marked its allowance as it found it, nor, if that suffices and the plan has a permission, without having marked the permission |
| PreparationTheorems.NoAnswerWithoutAQuote | services/quote-engine/internal/quote/execution.go:122-125 | a call that marked a quote which was gone is never answered, and neither is its preparation |
| PreparationRecord.RunRecord | services/quote-engine/internal/quote/execution.go:142-220 | in every run every answer given is on the record, an approval on the record goes back to a call that found the allowance short, every answered preparation had its first call answered, and a call at a failed mark only stops |
| PreparationRecord.SaveRecord | services/quote-engine/internal/quote/execution.go:142-146 | saving and answering keeps that record |
| PreparationRecord.MarkRecord | services/quote-engine/internal/quote/store.go:110-123 | marking keeps it: a mark that finds no quote leaves its call nowhere to go but to stop |
| PreparationTheorems.LatchIsExact | services/quote-engine/internal/quote/store.go:108-123 | a call is told of an earlier requirement exactly when one of its marks came after a requiring mark of the same quote and key |
| PreparationTheorems.TwoClasses | services/quote-engine/internal/quote/execution.go:127-220 | every executable answer under one preparation has one status; ready carries the swap and no approval field, approval carries no swap; a preparation first answered without a Permit2 permission never gains one |
| PreparationTheorems.ImmutableTerms | services/quote-engine/internal/quote/execution.go:205-220 | any two executable answers under one preparation agree on every economic term but the selection and on the transaction of their class; on the selection too if the saved selection is the copied one, or both answer the first call, or both answer rechecks |
| PreparationTheorems.ImmutableExactly | services/quote-engine/internal/quote/execution.go:98-220 | in every run, all answers of a preparation carry the same terms if and only if its saved selection is the copied one or no recheck of it was answered |
| PreparationTheorems.KeptExactly | services/quote-engine/internal/quote/execution.go:98-219 | in every run, the saved selection of an answered preparation is the copied one if and only if no ready save of its first call met another selection than was copied |
| SelectionExample.TwoRoutes | services/quote-engine/internal/quote/execution.go:219-242 | from the empty store: a strategy changes the route it handed over between the copy and the save, and first call and recheck are answered ready with different routes |
| CallReadings.AnswersAreBacked | services/quote-engine/internal/quote/execution.go:98-220 | however the calls interleave, an answered call verified its terms, read its allowance and found its block still canonical; ready, the allowance sufficed and the output is the simulated one; otherwise the allowance was short or a permission was read |
| AnswerGrounds.AnswersRestOnReadings | services/quote-engine/internal/quote/execution.go:53-220 | in every run, however calls interleave: an answer was given before its terms expired, at a canonical block of the configured chain with a timestamp before the deadline, after verification; a first call with its marks settled within thirty seconds of its quote's search; ready with an allowance of at least the input amount, a granted permission of at least the plan's amount that lasts to the deadline, and the simulated output; any other for a lower allowance or a permission too small or too short |
| CallReadings.StopsForAReason | services/quote-engine/internal/quote/execution.go:48-214 | however the calls interleave, a call is rejected only where something it asked for failed, and sent back for a fresh quote only where nothing live was found, a block was not canonical, a clock had passed an expiry or the approval rules say so |
| PreparationTheorems.AgeBound | services/quote-engine/internal/quote/execution.go:104-107 | no executable answer passes its final clock check 60 seconds or more after the search of its quote began |
| PreparationTheorems.BoundedStore | services/quote-engine/internal/quote/store.go:53-89 | in every reachable state both tables hold at most 1024 entries, none under the empty text, each preparation under its own identifier |
| PreparationTheorems.QuotesLeaveFairly | services/quote-engine/internal/quote/store.go:40-68 | a quote leaves the store only expired by the pruning clock, or from a table of 1024 live quotes of which none expires earlier |
| PreparationTheorems.PreparationsLeaveFairly | services/quote-engine/internal/quote/store.go:40-89 | likewise for preparations |
| PreparationTheorems.RequestsAreChecked | services/quote-engine/internal/quote/execution.go:38-44 | a call goes on only with a preparation identifier and nothing else, or with a quote, a route or one or two allocations but not both, a caller other than zero and a slippage below 10000 |
| PreparationTheorems.QuotesAreKept | services/quote-engine/internal/quote/store.go:53-68 | a quote enters the store only by its own save, as it was found, with an empty latch, to expire thirty seconds after its search began |
| PreparationTheorems.LookupFindsTheLiving | services/quote-engine/internal/quote/execution.go:48-52 | a lookup hands over exactly the entries under its identifiers whose expiry is after its clock reading, and otherwise asks for a fresh quote |
| PreparationTheorems.SavedIsFound | services/quote-engine/internal/quote/store.go:70-106 | a recheck before the expiry finds what was saved, with its plan and terms, unless a clock has passed the expiry or a save met a full table in between |
| PreparationTheorems.AnswersStay | services/quote-engine/internal/quote/execution.go:142-220 | an answer given stays on the record of every longer run, and what its build froze stays frozen |
| PreparationTheorems.SavedFormNeverChanges | services/quote-engine/internal/quote/store.go:70-89 | however often a preparation is saved again, evicted or inserted anew, its approval bit, plan, terms and expiry stay what they were |
| PreparationTheorems.RunRemembers | services/quote-engine/internal/quote/execution.go:243-250 | what a build froze and how it was first answered never change later in a run |
| PreparationTheorems.FirstCallAuthorizesOnce | services/quote-engine/internal/quote/execution.go:170-172 | a first call never asks for an ERC-20 approval and a Permit2 permission at once |
| Authorizations.BothExactly | services/quote-engine/internal/quote/execution.go:127-200 | over the answers of a run, a preparation is answered with an ERC-20 approval and a Permit2 permission at once if and only if it was answered with a permission and one of its answered calls found the allowance short |
| Authorizations.OneTransactionExactly | services/quote-engine/internal/quote/execution.go:173-178 | over the answers of a run, one quote asks for one transaction if and only if at most one first call of it was answered and no answered call of it found the allowance short beside a permission |
| Authorizations.TwoFirstCalls | services/quote-engine/internal/quote/execution.go:120-147 | from any run: two undisturbed first calls of one quote that are both answered ask for two transactions |
| Authorizations.LoneLeaves | services/quote-engine/internal/quote/execution.go:30-220 | what the steps of one call leave alone: other calls, earlier builds and a live quote |
| AuthorizationExamples.TwoApprovals | services/quote-engine/internal/quote/execution.go:127-147 | from the empty store: two first calls of one quote that find the allowance short are both answered with an approval |
| AuthorizationExamples.PermissionThenApproval | services/quote-engine/internal/quote/execution.go:169-200 | from the empty store: a permission-first preparation whose recheck finds the allowance gone asks for an approval and a permission of one quote |
| LoneCalls.TwoAuthorizations | services/quote-engine/internal/quote/execution.go:173-178 | from any reachable state: an undisturbed recheck of a permission-first preparation that finds the allowance short is answered with both under one preparation |
| LoneCalls.LoneFirstCall | services/quote-engine/internal/quote/execution.go:71-220 | an undisturbed first call is ready if and only if the allowance suffices, no permission is required and the latch is clear, and otherwise answers as the branches say |
| LoneCalls.LoneRecheck | services/quote-engine/internal/quote/execution.go:98-220 | an undisturbed recheck answers exactly what its readings and the stored approval bit decide |
| LoneCalls.AdvanceIsRun | services/quote-engine/internal/quote/execution.go:30-220 | the steps of a lone call after any run are themselves a run |
| Preparer.ServeAll | services/quote-engine/internal/quote/execution.go:30-220 | any number of calls, each among any others, while every object callers, strategies, builders and simulators were given or gave is overwritten at will: answers of one preparation agree on status, transactions and every term but the selection, and carry all terms their build froze unless a save of the run stored another selection than the copied one |
| Preparer.Engine.PrepareExecution | services/quote-engine/internal/quote/execution.go:30-220 | one call among any others on the shared heap store: its steps in the run carry what it was told, the response it hands out equals its answer on the record and is backed by those readings, a refusal has its reason in them, and an invalid request is refused |
| Preparer.Engine.Others | services/quote-engine/internal/quote/store.go:53-123 | whatever other calls and searches do to the store meanwhile, and whatever is written to objects outside, the call's own objects and place are untouched |
| Preparer.Engine.LookUp | services/quote-engine/internal/quote/execution.go:48-52 | the locked lookup either stops the call or yields new copies, its own alone, of exactly what the store holds |
| Preparer.Engine.FirstTerms | services/quote-engine/internal/quote/execution.go:71-97 | canonical check, route lookup, selection, rounding, deadline and builder lead to the frozen terms or to the right refusal; the strategy may overwrite the quote it is shown |
| Preparer.Engine.Select | services/quote-engine/internal/quote/execution.go:234-238 | the strategy is shown the looked-up quote and hands over its own objects, and keeps both |
| Preparer.Engine.FreezePlan | services/quote-engine/internal/quote/execution.go:98 | the call's terms are those of the copy of the prepared response, with the selection as it is at the copy; the prepared response keeps the strategy's object |
| Preparer.Engine.StoreForm | services/quote-engine/internal/quote/store.go:70-89 | a save copies the prepared form with the selection as the strategy has left it |
| Preparer.Engine.Build | services/quote-engine/internal/quote/execution.go:243-246 | the builder works on a copy of the response, which it may keep and overwrite |
| Preparer.TakeOver | services/quote-engine/internal/quote/execution.go:247-250 | the prepared form holds new copies of the plan's objects and shares none with the builder |
| Preparer.Engine.AdmitTerms | services/quote-engine/internal/quote/execution.go:98-119 | linkage, expiry and the allowance reading of a first call, on a copy of the response |
| Preparer.Engine.StoredTerms | services/quote-engine/internal/quote/execution.go:98-119 | linkage, expiry and the allowance reading of a recheck, on a copy of the stored response |
| Preparer.Engine.MarkAllowance | services/quote-engine/internal/quote/execution.go:120-126 | the mark on the heap store and the clock check after it, with other calls in between |
| Preparer.Engine.MarkPermission | services/quote-engine/internal/quote/execution.go:162-168 | the permission mark adds to what the call already knew |
| Preparer.Engine.AnswerErc20 | services/quote-engine/internal/quote/execution.go:127-147 | an ERC-20 approval answer, unless a recheck of a swap preparation finds the allowance gone |
| Preparer.Engine.AnswerPermission | services/quote-engine/internal/quote/execution.go:169-200 | a Permit2 answer, unless an approval is already on record for this preparation |
| Preparer.Engine.FinishApproval | services/quote-engine/internal/quote/execution.go:136-146 | canonical block, last clock check, then the answered response becomes the saved form |
| Preparer.Engine.Simulate | services/quote-engine/internal/quote/execution.go:205 | the simulator gets copies of transaction and checks, and may keep and overwrite them |
| Preparer.Engine.AnswerReady | services/quote-engine/internal/quote/execution.go:202-220 | ready only past the approval check, the simulation, the canonical block and the clock |
| Preparer.Engine.SaveAndAnswer | services/quote-engine/internal/quote/execution.go:219-220 | the store keeps copies, then the response goes to the caller and is on record |
| PreparationTheorems.OthersLeaveTheCall | services/quote-engine/internal/quote/execution.go:30-220 | no step of another call moves this call |
| Enumeration.EnumerationIsExact | services/quote-engine/internal/quote/v3.go:136-167 | one deployment is searched in n + m*n*n paths, exactly the direct selectors and the intermediate-by-first-by-second combinations |
| Enumeration.EachPathOnce | services/quote-engine/internal/quote/v3.go:136-167 | no path of a deployment is enumerated twice |
| Enumeration.EachChainPathOnce | services/quote-engine/internal/quote/v3.go:142-165 | no path of a chain is enumerated twice across its deployments |
| Enumeration.PathsFromMembers | services/quote-engine/internal/quote/v3.go:142-165 | a path is enumerated if and only if some deployment searches it |
| Enumeration.RouteIdInjective | services/quote-engine/internal/quote/v3.go:147-161 | two paths share a route identifier only when they are the same path of the same deployment, negative spacings included |
| Enumeration.ChainRouteIdsApart | services/quote-engine/internal/quote/slipstream.go:57-73 | all route identifiers of a chain, fee and tick-spacing deployments together, are pairwise distinct |
| Enumeration.SplitAtColon | services/quote-engine/internal/quote/v3.go:147-161 | a colon-free head can be read off an identifier |
| Enumeration.PathsInOrder | services/quote-engine/internal/quote/v3.go:136-167 | the order of the search: direct paths by selector, then middle token by middle token the pairs of selectors, the second turning faster |
| Enumeration.NamedAsWritten | services/quote-engine/internal/quote/v3.go:147-161 | what a candidate is called and which tokens it goes through |
| Candidates.SelectorsAscend | services/quote-engine/internal/quote/v3.go:128-132 | the selectors of each deployment are the configured ones from the smallest up |
| Candidates.CandidateIterator.constructor | services/quote-engine/internal/quote/v3.go:114-134 | the iterator starts at the whole enumeration of sorted deployments, ascending fees and sorted intermediates other than the pair |
| Candidates.CandidateIterator.Next | services/quote-engine/internal/quote/v3.go:136-167 | pops the head of what remains under the next index; nothing, and no change, once the context is done or the enumeration is over |
| Candidates.CandidateIterator.TakeVia | services/quote-engine/internal/quote/v3.go:149-162 | the three wheels advance to the next two-hop path |
| Candidates.CandidateIterator.Take | services/quote-engine/internal/quote/v3.go:169-173 | hands out consecutive indices |
| Candidates.AheadVia | services/quote-engine/internal/quote/v3.go:149-162 | each turn of the odometer removes exactly the path it names, across both carries |
| Candidates.Intermediates | services/quote-engine/internal/quote/v3.go:121-127 | exactly the configured tokens other than the pair, in strict text order |
| Candidates.OrderedDeployments | services/quote-engine/internal/quote/v3.go:116-132 | whatever order the map yields, deployments come in text order with ascending selectors |
| Candidates.SlipstreamSearch.constructor | services/quote-engine/internal/quote/slipstream.go:27-52 | the closure starts at the whole enumeration of its sorted spacings |
| Candidates.SlipstreamSearch.Next | services/quote-engine/internal/quote/slipstream.go:53-76 | pops the head of what remains; nothing once the context is done or the enumeration is over |
| Candidates.SlipstreamSearch.CheckOrigin | services/quote-engine/internal/quote/slipstream.go:81-86 | the first verdict is kept and every later call gets it |
| Candidates.SlipstreamSearch.CheckOriginForAll | services/quote-engine/internal/quote/slipstream.go:78-86 | any number of candidates share the first verification, whatever the chain would have said later |
| PathQuotes.QuotePath | services/quote-engine/internal/quote/v3.go:77-92 | the loop over hops computes the path quote defined from its first hop: each hop's output feeds the next, a missing pool is no route, an error stops it |
| PathQuotes.ThreadedIsComplete | services/quote-engine/internal/quote/v3.go:77-92 | a path is quoted completely if every hop, given the output of the hop before it, is: the legs are the pools that answered, between the tokens, under the selectors, and the output is the last hop's |
| PathQuotes.EndsAtTheGap | services/quote-engine/internal/quote/v3.go:83-88 | otherwise it ends as its first hop that is not: no route where there is no pool, broken where the hop failed |
| PathQuotes.RequotableExactly | services/quote-engine/internal/quote/v3.go:45-67 | a stored route can be quoted again if and only if its own tokens and fees, hop after hop from the amount, lead through the very pools it stores to an output between one and the largest word |
| PathQuotes.CompleteFollowsItsPath | services/quote-engine/internal/quote/v3.go:83-90 | leg i of a complete quote swaps token i for token i+1 under selector i |
| PathQuotes.QuoteSlipstream | services/quote-engine/internal/quote/slipstream.go:77-92 | a Slipstream candidate is quoted only past the shared origin verdict |
| PathQuotes.Requote | services/quote-engine/internal/quote/v3.go:45-67 | a stored route is quoted again on its own path and amount; refused without a positive uint256 output or with any changed pool |
| PathQuotes.PoolsUnchanged | services/quote-engine/internal/quote/v3.go:57-61 | the loop says exactly whether every pool is the stored one |
| PathQuotes.RequoteRepeatsTheSearch | services/quote-engine/internal/quote/v3.go:45-67 | quoting a searched route again for the same amount at the same block gives the same legs and output |
| SearchPool.SearchCandidates.Next | services/quote-engine/internal/quote/handler.go:266-280 | pops the next candidate of the concatenated sources under the next index, skipping exhausted ones; the context is read at every turn of the loop and inside each source, and nothing comes out once it has expired |
| SearchPool.RunInv | services/quote-engine/internal/quote/handler.go:156-195 | every index handed out is held by one worker or collected, never both, in every interleaving |
| SearchPool.ExactlyOnce | services/quote-engine/internal/quote/handler.go:157-199 | for any schedule and expiry moment, issued indices are a prefix of the candidates and each has one result: its own answer or the budget's error |
| SearchPool.RefinesSequential | services/quote-engine/internal/quote/handler.go:151-200 | a finished search that never expired has an outcome for every candidate, equal in index order to quoting them one after another |
| SearchPool.AllIssued | services/quote-engine/internal/quote/handler.go:200 | a search that closes unexpired left no candidate behind |
| SearchPool.BoundedConcurrency | services/quote-engine/internal/quote/handler.go:156-187 | at most the configured number of quotes is in flight |
| SearchPool.StepDecreases | services/quote-engine/internal/quote/handler.go:159-195 | every step of the pool, expiry included, makes a measure smaller, so no schedule is infinite |
| SearchPool.NeverStuck | services/quote-engine/internal/quote/handler.go:157-191 | every unfinished reachable state has an enabled step other than expiry |
| SearchPool.AlwaysFinishes | services/quote-engine/internal/quote/handler.go:157-195 | from every reachable state some schedule closes the search without expiring it |
| SearchPool.NothingIssuedAfterExpiry | services/quote-engine/internal/quote/handler.go:156-195 | once the budget has expired no candidate is handed out, in any run |
| SearchPool.ExpiredStep | services/quote-engine/internal/quote/handler.go:168-176 | a quote that comes back after that counts as the budget's error, whatever it says, and its worker stops |
| SearchPool.TimelyReturn | services/quote-engine/internal/quote/handler.go:176-186 | a quote that comes back in time counts as what it says |
| Ranking.SplitDeployments | services/quote-engine/internal/quote/handler.go:133-150 | broken deployments become errors, the others sources, in text order |
| Ranking.UsableCandidatesAreQueued | services/quote-engine/internal/quote/handler.go:139-149 | exactly the candidates of usable deployments are queued |
| Ranking.Rank | services/quote-engine/internal/quote/handler.go:199-214 | routes and errors in index order, and the best route is the first maximum of the outputs |
| Ranking.BrokenIsReported | services/quote-engine/internal/quote/handler.go:138-147 | every deployment with a problem is reported with its name and problem, in order, and nothing else before the search |
| Ranking.OtherIsSearched | services/quote-engine/internal/quote/handler.go:148-150 | every other deployment is searched, in order |
| Ranking.AnswerIsItsResults | services/quote-engine/internal/quote/handler.go:199-214 | the answer's routes are the priced results one by one and in order, and its errors after the deployments' problems the failed ones |
| Ranking.EveryFoundQuoteIsAnswered | services/quote-engine/internal/quote/handler.go:151-214 | in every complete search each quote that was found has its route in the answer and each failure is reported under its provider and candidate |
| Ranking.EveryIssuedIsAnswered | services/quote-engine/internal/quote/handler.go:151-214 | in any search, cut short or not, every candidate handed out is answered for: by its route, by its failure, by nothing where there is no pool, or by the budget's error once that has expired |
| Ranking.EveryRouteWasFound | services/quote-engine/internal/quote/handler.go:176-204 | every route of an answer was found by its candidate's quote |
| Ranking.NothingBeatsTheBest | services/quote-engine/internal/quote/handler.go:203-209 | in a complete search no quote that was found has a larger output than the best route |
| Ranking.BestIsUnique | services/quote-engine/internal/quote/handler.go:205-209 | the first maximum determines the best route identifier |
| Ranking.ConcurrentAnswerIsSequential | services/quote-engine/internal/quote/handler.go:151-214 | for any concurrency and any unexpired schedule, routes, errors and best route are those of the sequential search |
| Ranking.CompleteSearchCoversEveryCandidate | services/quote-engine/internal/quote/handler.go:138-200 | when a search is complete, every candidate of every usable deployment has its own outcome |
| Ranking.ChainSearchIsApart | services/quote-engine/internal/config/config.go:170-174 | under the configuration's identifiers no two candidates of a search share a route identifier |
| Ranking.LookupFindsTheRoute | services/quote-engine/internal/quote/execution.go:77-83 | in every answer, complete or not, looking up a route's identifier finds that route, and the best identifier finds one of maximal output |
| Paths.V3Path | services/quote-engine/internal/quote/calldata.go:23-38 | packs one or two connected fee legs below 1000000 into address, three fee bytes, address, and refuses every other route |
| Paths.SlipstreamPath | services/quote-engine/internal/quote/calldata.go:40-58 | likewise for int24 spacings, masked to two's complement |
| Paths.PackedLayout | services/quote-engine/internal/quote/calldata.go:23-38 | one and two hops byte by byte: twenty bytes an address, most significant first, and three a selector between them |
| Paths.DecodePacked | services/quote-engine/internal/quote/calldata.go:33-37 | decoding packed bytes returns the tokens and selector words, for any number of hops |
| Paths.MaskRoundTrip | services/quote-engine/internal/quote/calldata.go:53-55 | masking to 24 bits and sign-extending returns every int24 spacing |
| Paths.Low24IsDigits | services/quote-engine/internal/quote/calldata.go:34 | the three shifted bytes are the big-endian digits of a 24-bit number |
| Paths.V3PathsAgree | apps/terminal/src/protocols/v3.ts:65-78 | the terminal packs the same bytes the engine does, and they decode to the route's tokens and fees |
| Paths.SlipstreamPathsAgree | apps/terminal/src/protocols/slipstream.ts:27-50 | likewise for tick spacings, negative ones included |
| Paths.DistinctPathsDistinctBytes | services/quote-engine/internal/quote/calldata.go:23-38 | fee routes over different tokens or fees never share bytes |
| Paths.DistinctSpacingPathsDistinctBytes | services/quote-engine/internal/quote/calldata.go:40-58 | spacing routes over different tokens or spacings never share bytes |
| Accounting.Trace.Collect | services/quote-engine/internal/quote/anvil.go:106-121 | succeeds exactly when no call of the tree failed, and then appends its logs in tree order |
| Accounting.Trace.ProbeDelta | services/quote-engine/internal/quote/anvil.go:122-143 | the scan over the logs is the plain sum of each log's effect on the probe |
| Accounting.TransferMoves | services/quote-engine/internal/quote/anvil.go:122-143 | a Transfer of any amount takes it from the one address and gives it to the other in its own token, whatever stands above them in their words, and is standard if and only if nothing does |
| Accounting.OthersMoveNothing | services/quote-engine/internal/quote/anvil.go:128-131 | a log of another shape, event or token moves nothing |
| Accounting.BigEndian | services/quote-engine/internal/quote/anvil.go:132 | an amount is read with the most significant byte first |
| Accounting.TreeOfCalls | services/quote-engine/internal/quote/anvil.go:106-121 | a tree is clean, and its logs are collected, call by call to any depth |
| Accounting.TreeOfLogs | services/quote-engine/internal/quote/anvil.go:106-121 | a call that succeeded leaves its own logs and those of its calls, one that failed none |
| Accounting.SimulatedExactly | services/quote-engine/internal/quote/anvil.go:119-158 | accepted with an output if and only if nothing has to be cleared, no call failed, the caller paid exactly the amount and received that output, at least the minimum, and no protected balance moved |
| Accounting.Simulate | services/quote-engine/internal/quote/anvil.go:144-158 | accepts exactly when the tree is clean, the input falls by the amount, the output grows by at least the minimum and no preserved balance moves, with the error of the first failure otherwise |
| Accounting.FoldDeltas | apps/terminal/src/receipt.ts:81-120 | the map of deltas exists exactly when every log is admitted, and then equals the per-probe sum for every token and owner |
| Accounting.CreditedSums | apps/terminal/src/receipt.ts:107-113 | debiting and crediting one log keeps the map equal to the sum, transfers to oneself included |
| Accounting.VerifyReceipt | apps/terminal/src/receipt.ts:65-155 | unavailable, reverted, or checked with the exact spent and received amounts, the obligations decided, and the net delta reported for every intermediate token and touched balance |
| Accounting.DeltaIgnoresOrder | apps/terminal/src/receipt.ts:81-120 | deltas do not depend on the order of the logs |
| Accounting.TransfersConserve | apps/terminal/src/receipt.ts:107-113 | over everyone involved, each token's deltas sum to zero, self-transfers included |
| Accounting.ReceiptAgreesWithSimulation | apps/terminal/src/receipt.ts:117-140 | on every call tree with matching obligations, and any order of the logs it emits, the receipt check passes and no call inside failed if and only if the simulation accepts and every Transfer log is standard |
| Accounting.WaysToDisagree | apps/terminal/src/receipt.ts:95-140 | the simulation accepts what the receipt check refuses exactly where a Transfer log is not standard, and refuses what the receipt check passes exactly where a call inside failed |
| Accounting.SameProtection | apps/terminal/src/receipt.ts:131-134 | matching obligations protect the same balances |
| Accounting.EngineIsMoreLenient | apps/terminal/src/receipt.ts:95-106 | a call tree with high bits above an address, accepted by the simulation and refused by the receipt check |
| Accounting.EngineIsStricter | services/quote-engine/internal/quote/anvil.go:106-111 | a call tree with a recovered failure inside, refused by the simulation and passed by the receipt check |
| Bundle.LayOut | services/quote-engine/internal/quote/tenderly.go:132-147 | probes, the swap, the same probes and the allowance queries, position by position |
| Bundle.ReadWords | services/quote-engine/internal/quote/tenderly.go:184-215 | every reply must answer its own call with evidence, and all but the swap carry a word, read out by index |
| Bundle.Judge | services/quote-engine/internal/quote/tenderly.go:184-236 | the verdict and the order of its faults |
| Bundle.PassedExactly | services/quote-engine/internal/quote/tenderly.go:184-236 | whoever answers: passed with an output if and only if every call got its own reply with its evidence and, but for the swap, a word, and the words show the input, the output, every preserved balance and every allowance as they must be |
| Bundle.BundleProvesFairness | services/quote-engine/internal/quote/tenderly.go:187-236 | where only the swap changes state, the bundle passes if and only if the swap consumes the amount, delivers the minimum, leaves every preserved balance and ends with every listed allowance zero |
| Executor.WalksFrom | services/quote-engine/internal/quote/executor.go:199-212 | the loop decides whether the legs are fee legs in a row from input to output token |
| Executor.AdmitOne | services/quote-engine/internal/quote/executor.go:176-214 | one allocation: amount, stored route, deployment, venue not yet taken, path |
| Executor.AdmitAllocations | services/quote-engine/internal/quote/executor.go:167-220 | admitted if and only if every allocation is admissible, venues are distinct and the amounts print to the quoted total; a wrong total is reported only for otherwise admissible plans |
| Executor.AdmissibleExactly | services/quote-engine/internal/quote/executor.go:169-214 | an allocation is admissible if and only if its amount is a positive word without leading zeros and its stored route, over one of the two venues, can be quoted again, has no startup error and walks fee legs along the whole pair |
| Executor.PlannableExactly | services/quote-engine/internal/quote/executor.go:167-220 | a request is a plan if and only if it is one such allocation, or one over each venue |
| Executor.TotalOfAPlan | services/quote-engine/internal/quote/executor.go:186-216 | what the allocations of a plan add up to |
| Executor.FreshPlanIsThreaded | services/quote-engine/internal/quote/executor.go:146-165 | what re-quoting makes of each allocation: the same amount over the stored path, quoted hop after hop from that amount, with the new output at the quote's block |
| Executor.QuoteAllocations | services/quote-engine/internal/quote/executor.go:146-165 | succeeds exactly when the plan is admitted and every path can be quoted again, and then carries those quotes at the quote's block |
| Executor.SelectPlan | services/quote-engine/internal/quote/executor.go:23-43 | selection succeeds exactly for a quotable plan whose freshly quoted outputs add up below 2^256, and yields that plan and sum |
| Executor.AddProbe | services/quote-engine/internal/quote/executor.go:78-85 | adds a pair unless it is there |
| Executor.ExecutorChecks | services/quote-engine/internal/quote/executor.go:74-98 | the preserved pairs have no repeats and are exactly the touched pairs without the caller's input and output; one allowance per hop |
| Executor.EveryHopIsCleared | services/quote-engine/internal/quote/executor.go:88 | every hop's allowance from the executor to its router is listed |
| Executor.ExecutorData | services/quote-engine/internal/quote/executor.go:118-144 | packs venue, amount and hops of every allocation, or refuses a route without a venue |
| Routers.Encode | services/quote-engine/internal/quote/calldata.go:60-98 | packs exactly the routes whose path can be packed, in each router's own shape |
| Routers.BuildDirect | services/quote-engine/internal/quote/routers.go:32-51 | a plan exactly when the minimum is positive and the route can be packed, with the transaction, spender and checks fixed by the terms |
| Routers.BuildExecutor | services/quote-engine/internal/quote/executor.go:45-72 | a plan exactly when the minimum is not zero and every allocation has a venue, with every touched balance protected |
| Policy.FixedExecutorPlan | apps/terminal/src/protocols/fixed-executor.ts:105-193 | the loop over allocations accepts exactly the plans its conditions describe and returns their totals, call, intermediates and touched pairs |
| Policy.CheckAllocation | apps/terminal/src/protocols/fixed-executor.ts:117-161 | one allocation: local admission, no cycle, the shared block, positive amounts |
| Acceptance.AcceptedIsCurrent | apps/terminal/src/execution-policy.ts:87-180 | whatever is accepted is executable and not over, acts for the signer on the configured chain without value, trades a positive amount between two different configured tokens over a route or at most two allocations, and has the quoted output less the slippage, rounded down once, as its minimum |
| Acceptance.AcceptedApprovalIsLocal | apps/terminal/src/execution-policy.ts:224-246 | an accepted ERC-20 approval goes to the input token and approves exactly the input amount to the locally planned spender; its response carries no swap and no permission |
| Acceptance.AcceptedPermissionIsLocal | apps/terminal/src/execution-policy.ts:182-223 | an accepted permission is of the input token and exactly the input amount, granted at the local plan's contract to its router until half an hour after the deadline, below 2^48; its response carries no swap and no approval |
| Acceptance.AcceptedSwapCarriesNoApproval | apps/terminal/src/execution-policy.ts:172-263 | an accepted ready response carries no approval field, and its receipt obligations are those of the local plan |
| Acceptance.FeePlanIsConfigured | apps/terminal/src/protocols/v3.ts:29-106 | the local plan of a fee route: configured router, tokens and fees on every leg, connected over the whole pair, and the call packed from its own path and terms |
| Acceptance.SpacingPlanIsConfigured | apps/terminal/src/protocols/slipstream.ts:105-131 | likewise for tick spacings |
| Acceptance.ExecutorPlanIsConfigured | apps/terminal/src/protocols/fixed-executor.ts:105-193 | the local plan of an executor response: one or two configured allocations over different venues at one block, without a repeated token, adding up to the input amount and the quoted output, and packed in order |
| Agreement.FeeSearchFindsSearchedRoutes | services/quote-engine/internal/quote/v3.go:77-92 | a complete quote of any enumerated fee path is a cycle-free route of configured tokens and fees |
| Agreement.SpacingSearchFindsSearchedRoutes | services/quote-engine/internal/quote/slipstream.go:96-113 | likewise for spacings |
| Agreement.FeeRouteIsAdmitted | apps/terminal/src/protocols/v3.ts:29-63 | such a route passes the engine's packing check and the terminal's admission |
| Agreement.SpacingRouteIsAdmitted | apps/terminal/src/protocols/slipstream.ts:105-131 | likewise for spacings |
| Agreement.RequotingKeepsThePath | services/quote-engine/internal/quote/v3.go:45-67 | quoting again keeps path, fees and pools |
| Agreement.FrozenAmounts | services/quote-engine/internal/quote/execution.go:239-242 | every amount of the frozen terms reads back in the terminal as the number the engine printed |
| Agreement.SameData | apps/terminal/src/protocols/uniswap-v3.ts:7-29 | both programs pack the same router call |
| Agreement.LocalDirectTerms | apps/terminal/src/protocols/v3.ts:86-106 | the terminal's rebuilt terms of a searched route are the engine's plan |
| Agreement.DirectAgreement | apps/terminal/src/execution-policy.ts:109-263 | every unexpired ready response for a searched direct route is accepted, as the swap it carries |
| Agreement.SameTotals | apps/terminal/src/protocols/fixed-executor.ts:148-161 | both programs add up the same inputs and outputs |
| Agreement.SameExecutorData | apps/terminal/src/protocols/fixed-executor.ts:50-78 | both programs pack the same executor call |
| Agreement.PlanIsOk | apps/terminal/src/protocols/fixed-executor.ts:105-178 | an admitted and re-quoted plan passes every local check |
| Agreement.ExecutorAgreement | apps/terminal/src/execution-policy.ts:172-180 | every unexpired ready response for an admitted executor plan is accepted: the minimum is the summed output rounded down once |
| EndToEnd.PrepareDirect | services/quote-engine/internal/quote/routers.go:24-51 | running the direct builder on a searched route gives a ready response exactly when the minimum is positive, and the terminal accepts it at every moment before it expires |
| EndToEnd.PrepareExecutorPlan | services/quote-engine/internal/quote/executor.go:23-72 | running selection, re-quoting and the executor builder gives a ready response exactly for a quotable plan whose summed output is a word and leaves a positive minimum, with the frozen terms, and the terminal accepts it at every moment before it expires |
| Examples.ADirectResponseIsAccepted | apps/terminal/src/execution-policy.ts:109-263 | a concrete response that meets every hypothesis of the agreement and is accepted |
| ExecutorExample.ATwoVenuePlanIsAccepted | apps/terminal/src/execution-policy.ts:109-263 | a concrete plan over two venues, one in two hops: the engine builds it, with one rounding of the summed output, and the terminal accepts it |
| RunExample.AReadyAnswerOfARunIsAccepted | apps/terminal/src/execution-policy.ts:109-263 | a concrete run from a search through its saved quote and one call to a ready answer that meets every hypothesis of the results about runs and is accepted |
| SearchedRuns.QueuedIsEnumerated | services/quote-engine/internal/quote/handler.go:137-158 | every job in the queue of a configured chain is a path of its deployment's enumeration |
| SearchedRuns.StoredRouteIsSearched | services/quote-engine/internal/quote/handler.go:187-251 | every route a search stores, under any schedule and even when cut short, is a cycle-free route of configured tokens and selectors for the admitted pair |
| SearchedRuns.QuotesAreSaved | services/quote-engine/internal/quote/store.go:53-106 | whatever a store or a looked-up call holds of a quote is what some search saved |
| SearchedRuns.SearchedDirectAnswersAreAccepted | apps/terminal/src/execution-policy.ts:247-262 | in every run whose quotes are search results, every unexpired ready answer for a stored route, of a first call or with a selection that was not overwritten, is accepted by a terminal configured alike |
| SearchedRuns.SearchedExecutorAnswersAreAccepted | apps/terminal/src/execution-policy.ts:247-262 | likewise for admitted executor plans |
| EngineRuns.BothIsRefused | apps/terminal/src/execution-policy.ts:205-246 | the terminal refuses any response that asks for an ERC-20 approval and a Permit2 permission at once |
| EngineRuns.OnePreparationOneSignature | apps/terminal/src/execution-policy.ts:109-263 | all answers of one preparation that the terminal accepts, at any time and under any configuration, lead to the same transaction |
| EngineRuns.ReadyAnswersCarryTheBuild | services/quote-engine/internal/quote/execution.go:205-220 | every ready answer under a build's identifier, anywhere later in a run, carries that build's transaction and its terms up to the selection; all its terms if and only if it answers the first call or the selection was not overwritten |
| EngineRuns.BuildTermsWritten | services/quote-engine/internal/quote/execution.go:233-251 | what a first call freezes, written out: thirty seconds to live, the rounded-down minimum, the quote's amount and pair, the caller, and the pinned timestamp plus 120 on 64 bits, where the quote's block was canonical, the pinned block is of the quote's chain and a named route is one of the quote's |
| ApprovalRuns.ApprovalAnswersCarryTheBuild | services/quote-engine/internal/quote/execution.go:127-200 | every answer that asks for an approval, anywhere later in a run, carries its build's terms and authorizes what they say: the input amount of the input token to the plan's spender, or the plan's permission |
| ApprovalRuns.DirectApprovalsAreAccepted | apps/terminal/src/execution-policy.ts:224-246 | in every run, every unexpired approval answer over a build for a searched direct route is accepted as that approval, to the configured router |
| ApprovalRuns.ExecutorApprovalsAreAccepted | apps/terminal/src/execution-policy.ts:224-246 | likewise over an admitted executor plan, to the executor |
| ApprovalRuns.PermissionAnswersAreAccepted | apps/terminal/src/execution-policy.ts:182-223 | in every run, an unexpired answer that asks for a permission alone is accepted under any local plan that names its parties, if the builder froze the whole input amount and half an hour past the deadline |
| EngineRuns.DirectAnswersAreAccepted | apps/terminal/src/execution-policy.ts:247-262 | in every run, every unexpired ready answer over a build for a searched direct route is accepted with the caller's slippage, if it answers the first call or the selection was not overwritten |
| EngineRuns.ExecutorAnswersAreAccepted | apps/terminal/src/execution-policy.ts:247-262 | in every run, every unexpired ready answer over a build for an admitted executor plan of searched routes is accepted with the caller's slippage, under the same condition |
| Protection.PathTouchesAre | apps/terminal/src/protocols/fixed-executor.ts:165-175 | the terminal's touched pairs of a path are its tokens with recipient, executor and router, without the caller's own |
| Protection.LegPairsArePathPairs | services/quote-engine/internal/quote/executor.go:86-94 | leg by leg or token by token, a connected route covers the same pairs |
| Protection.ProtectedPairsAgree | services/quote-engine/internal/quote/executor.go:74-98 | the engine's preserved pairs have no repeats, leave out exactly the caller's input and output and are the terminal's touched pairs; every hop's allowance is listed |
| Protection.TouchedExactly | apps/terminal/src/protocols/fixed-executor.ts:163-178 | a plan's touched balances are, for every token on the way, those of the recipient, the executor and the route's router, and no other, without the recipient's own input and output |
| Protection.IntermediatesExactly | apps/terminal/src/protocols/fixed-executor.ts:163-164 | the reported intermediate tokens of a plan are exactly the middle tokens of its two-hop routes |
| Protection.IntermediatesAreTouched | apps/terminal/src/protocols/fixed-executor.ts:163-164 | the reported intermediate balances are among the touched ones |
| Protection.DirectProtectionMatches | services/quote-engine/internal/quote/routers.go:53-59 | a direct route's simulation checks and receipt obligations match |
| Execution.PrepareCommand.Ask | apps/terminal/src/execution-command.ts:161-217 | the preparation fetched in advance is used once, for the first question; an executable answer that is not about what was asked, or not of the trade's route, amount and pair, is refused |
| Execution.PlanActsOnChosen | apps/terminal/src/execution-policy.ts:120-124 | an accepted plan acts on the transaction the response chose for its status |
| Execution.Admit | apps/terminal/src/execution.ts:171-179 | what is validated is the response as it arrived |
| Execution.Recheck | apps/terminal/src/execution.ts:198-204 | checks that pass have an executable, unexpired second answer that says the same, a second true network reading and an unexpired preparation at the send; if nobody meddled they pass exactly then; and what is about to be sent is the validated transaction unless something was re-pointed |
| Execution.Judge | apps/terminal/src/execution.ts:226-251 | which evidence a receipt gives, for every receipt: none, passed, receipt success, unavailable and failed each exactly under their own conditions |
| Execution.SendAndVerify | apps/terminal/src/execution.ts:205-271 | one send, the hash reported before the receipt is awaited, and the result the evidence allows |
| Execution.ExecutePrepared | apps/terminal/src/execution.ts:155-272 | against any engine, wallet and user: refused exactly without the right network, a vetted answer or its validation; otherwise the log is a word of the grammar and what it comes to is decided by what it is told, step by step, exactly if the callbacks leave the objects alone |
| ExecutionTheorems.LetThroughExactly | apps/terminal/src/execution-command.ts:178-216 | an executable answer is let through if and only if it is about the route or allocations asked for and, in a trade, about its route, amount and pair |
| ExecutionTheorems.SentIsRechecked | apps/terminal/src/execution.ts:194-207 | however the callbacks meddle, nothing is sent but after a confirmation, an executable second answer equal but for block, estimate and message, not over then or at the send, and a second true network reading |
| ExecutionTheorems.SendsExactly | apps/terminal/src/execution.ts:166-207 | where they leave the objects alone, a validated plan is sent if and only if the policy allows it, it is no preview, the user confirmed and all of that holds |
| ExecutionTheorems.ProvenExactly | apps/terminal/src/receipt.ts:65-140 | a receipt proves a swap if and only if it is this transaction's, succeeded, all its logs are its own and standard, exactly the input left the recipient, at least the minimum arrived and no other planned balance moved |
| ExecutionTheorems.VerifiedExactly | apps/terminal/src/execution.ts:205-272 | a swap is called verified if and only if it was sent, the wallet gave that hash and the receipt of that hash proves it |
| ExecutionTheorems.ApprovalConfirmedExactly | apps/terminal/src/execution.ts:205-272 | an approval is called confirmed if and only if it was sent, the wallet gave that hash and its receipt succeeded |
| Execution.RepointingDefeatsTheChecks | apps/terminal/src/execution.ts:198-207 | with another object of the old value hung on the preparation every comparison passes while the object to be sent says something else |
| ExecutionTheorems.OtherEnds | apps/terminal/src/execution.ts:166-272 | preview, canceled, unknown with and without a hash, and failed: each exactly when what the execution was told says so |
| Trade.RunTrade | apps/terminal/src/trade.ts:20-59 | a run is at most three rounds, each decided by what it is told: stopped exactly on a stale quote or without a route under the named or best identifier, executed for the first route under it otherwise, and followed by another exactly after a confirmed approval of the first two |
| Trade.ExecuteRound | apps/terminal/src/execution-command.ts:147-160 | one round executes under the approval policy of its number and for the selected route |
| TradeTheorems.SendsAreOfTheTrade | apps/terminal/src/trade.ts:30-50 | whatever is sent is of the trade's amount and pair over the first route of its round's quote under the identifier, confirmed, asked for again and unchanged, unexpired and on the right network both times |
| TradeTheorems.RoundsEndForAReason | apps/terminal/src/trade.ts:26-57 | a round stops without a route if and only if its quote names nothing or the quote before, or has no route under the identifier; a run goes on if and only if one of its first two rounds confirmed an approval |
| TradeSelection.EngineSelectsTheBest | apps/terminal/src/trade.ts:32-37 | where the user names no route, a round takes the best route of its quote: none has a larger output |
| TradeTheorems.SendsOfARun | apps/terminal/src/trade.ts:26-57 | at most three sends; an ERC-20 approval only first and only in round 0; a swap only last |
| TradeTheorems.RunSends | apps/terminal/src/trade.ts:26-57 | every round but the last sent once, the last at most once |
| TradeTheorems.EverySendIsConfirmed | apps/terminal/src/execution.ts:194-207 | whatever the callbacks do, every send comes right after a true confirmation of its kind that showed the plan its round validated |
| TradeTheorems.EverySendIsConsented | apps/terminal/src/execution.ts:194-207 | where no callback re-points the preparation, that confirmation showed the very transaction sent |
| TradeTheorems.FaithfulRunsSendAsShown | apps/terminal/src/execution.ts:205-207 | in a run without re-pointing every send is of the transaction that was shown |
| Consent.AcceptedSwapIsLocal | apps/terminal/src/execution-policy.ts:124-179 | an accepted swap is the signer's, carries no value, goes to the local target with the locally encoded bytes, and its minimum is the locally quoted output less the slippage, rounded down once |
| Consent.FeeTransactionDeterminesTerms | apps/terminal/src/protocols/uniswap-v3.ts:7-29 | two fee plans with the same bytes share tokens, fees, amounts, recipient and deadline |
| Consent.SpacingTransactionDeterminesTerms | apps/terminal/src/protocols/slipstream.ts:52-70 | likewise for tick spacings |
| Consent.ExecutorTransactionDeterminesTerms | apps/terminal/src/protocols/fixed-executor.ts:50-78 | two executor plans with the same bytes share pair, amounts, venues, inputs and hops |
| Consent.OneTransactionOneConsent | apps/terminal/src/execution-policy.ts:247-262 | two responses accepted as swaps over one transaction and deployment carry the same path, amounts, recipient and deadline |
| TradeTheorems.NothingAfterAnUnhappyEnd | apps/terminal/src/trade.ts:50-51 | nothing is sent after a canceled, failed or unknown result |
| TradeTheorems.HashIsReportedBeforeTheWait | apps/terminal/src/execution.ts:220-227 | the submitted hash is reported right before the receipt is awaited |
| TradeTheorems.QuotesMayAlternate | apps/terminal/src/trade.ts:30-31 | the freshness check of the rounds allows a trace that comes back to the quote before the last |
| Recording.SplitLines | scripts/e2e.ts:47-48 | splitting keeps complete lines and the rest |
| Recording.RecordLines | scripts/e2e.ts:49-54 | records the lines in order, skipping blank ones, until one does not parse |
| Recording.RecordExecution | scripts/e2e.ts:34-68 | for any pieces, what is recorded and decided depends only on the whole text |
| Recording.AcceptedExactly | scripts/e2e.ts:57-67 | accepted if and only if every line parsed, the process ended well, only white space is left and the last line verifies a 32-byte hash with the expected outcome |
| Recording.OneMoreLine | scripts/e2e.ts:49-54 | one more line is skipped if blank, read if it parses, and the end otherwise |
| Recording.OneMoreChunk | scripts/e2e.ts:46-48 | splitting the pending text with the next piece is splitting the longer text |
| Recording.AnyChunkingRecordsTheLines | scripts/e2e.ts:45-55 | for any chunking of printed lines exactly those lines are recorded |
| Recording.TradeIsAcceptedIffVerified | scripts/e2e.ts:57-67 | a trade is accepted as a swap if and only if its result is a verified swap |
| Recording.ExecutionIsAcceptedIffVerified | apps/terminal/src/main.ts:25-41 | a single execution is accepted as the kind it was run for if and only if that is its result |
| Numerals.PrintRoundTrip | services/quote-engine/internal/quote/execution.go:239-242 | printed numbers read back |
| Numerals.CanonicalText | services/quote-engine/internal/quote/executor.go:177-184 | a positive-integer text is the text its number prints to, so comparing texts compares numbers |
| Messages.FoundFirst | services/quote-engine/internal/quote/execution.go:77-83 | what is found under an identifier is the first route that has it |
| Messages.FindRoute | services/quote-engine/internal/quote/execution.go:77-83 | the first route under an identifier, or none has it |

## Left out

- Preparer.Engine.PrepareExecution: does not model fault messages, the 20-second timeout or the missing-store reply, because they only choose a refusal.
- Preparer.Engine.Select: does not let a strategy overwrite the caller's request or the chain named by the looked-up quote; the model reads both before the strategy is called. The rest of the quote it is shown may be overwritten.
- EngineRuns.DirectAnswersAreAccepted and EngineRuns.ExecutorAnswersAreAccepted: one direction only for a recheck whose selection was overwritten, because a selection changed in a field the terminal ignores would still be accepted.
- Preparer.Engine: messages inside a message (the transaction of a response or permission) are part of its contents, not objects of their own.
- Retention and PreparationProtocol: clock readings are natural numbers of nanoseconds, unordered and free; time zones and monotonic-clock details are not modelled.
- Preparation identifiers are fresh nonempty text (`rand.Text`); the model picks any unused text and never repeats one.
- Hexadecimal text of addresses and calldata: addresses are numbers below 2^160 and compared as such, so malformed or differently cased text is not modelled; the checksum text in route identifiers is any injective colon-free text.
- ABI packing and Keccak hashing are injective constructors; only the packed path bytes are concrete.
- Text order used by the library sorts is an injective integer key; Go's and JavaScript's sorts are one sorting function.
- Candidates.CandidateIterator.Next: does not model the iterator's own mutex, because each call is one atomic step.
- SearchPool.SearchCandidates.Next: takes each source as the list of its remaining candidates, because popping that list is what the odometers are proved to do.
- SearchPool.Apply and its theorems: does not model a caller's cancellation, which discards the answer, and assumes each quote returns.
- PathQuotes.Along: a hop's answer is a function of pair, amount and selector at the pinned block; quoter calls and price-limit checks are not modelled.
- Ranking.Rank: latency and network-cost fields are not modelled.
- Deployment verification (linkage of factories, quoters, routers and the executor) is one boolean reading per call.
- Balancer V2 and Uniswap V4 candidates, quotes and plans are not modelled; on the terminal's side their planning is any function of the response.
- Bundle.BundleProvesFairness: network identity, block header and trace fields of a reply are one evidence flag; HTTP, JSON and their errors are not modelled.
- Accounting.VerifyReceipt: does not distinguish an absent list of touched balances from an empty one, because both report nothing.
- TradeTheorems.QuotesMayAlternate and Execution.RepointingDefeatsTheChecks: exhibit a trace and a state that pass the checks; that a particular environment produces them is not a statement about every run, so no run is shown.
- SearchedRuns.IsSearch: the pair and amount checks of a quote request are its admission; which chain it names and the search budget's length are not modelled.
- Execution.ExecutePrepared: reporting is assumed not to throw and not to change the preparation; only awaited callbacks interfere. Serialization is faithful, so comparing texts compares values.
- Execution.Prepare: a later response is a new object that shares no transaction object with an earlier one, because sharing would only add ways to change both alike.
- Execution.AskConfirmation: prompts, flags and terminal detection are one answer, because they only decide it.
- Trade.RunTrade: configuration, keystores and the network check before the first quote are not modelled.
- Recording.RecordExecution: bytes are already decoded; the streaming UTF-8 decoder appears as the decoded pieces and what it flushed at the end, and JSON as a faithful line codec.
- The Solidity executor, configuration parsing, RPC plumbing, formatting, argument parsing, token resolution and build scripts are not part of this model.
