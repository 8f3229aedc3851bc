# Verification models of the platform's stateful cores

These Dafny modules model the parts of the platform where a mistake costs money, loses
settings or leaks a credential, and prove what they keep over every input, run or
interleaving. `dafny verify dfyconfig.toml` checks them all.

- **Budget reservations** (`Ledger`, `Conservation`, `BudgetMachine`, `Figures`, `BudgetStore`). Tables
  are sequences, money is `real`. Admission is a sequence of steps (lock, sweep, read and
  test, insert, commit) of any number of workers, interleaved with settling, retaining,
  releasing, expiring and log writes that take no day lock. `Figures` says what each step adds
  to a day's figure and what an admission leaves behind. `BudgetStore` is the module's
  operations on stored tables; each is a run of that machine.
- **Setup commits** (`StateDirectory`, `SetupCommit`, `SetupGuarantees`, `SetupReaders`,
  `SetupStore`, `SkippedSyncs`). A small file system with a live and a durable layer; the writer
  may die, hit a storage error or lose power at any step, the disk may write back any pending
  change at any time, and lock-free readers run beside it. `SetupReaders` says when they answer
  and what, `SetupStore` is the commit itself, in place, and `SkippedSyncs` is the same machine on
  a file system that refuses to sync directories.
- **Configuration** (`Json`, `ConfigTree`, `Placeholders`, `TreePaths`, `ConfigLoader`,
  `RuntimeLoader`). Deep merge and placeholder substitution over trees, and what they leave at
  each path; loads and commits interleaved with their mutexes and file lock; one process's
  loader object.
- **Outbound HTTP** (`Redirects`, `Retries`). The redirect loop and the retry loop, with
  servers, durations and jitter as oracles.
- **LLM calls** (`LlmRequests`, `LlmSettings`, `LlmCalls`). The checks before admission, the
  request, the reservation's price and life, and what becomes of every reservation over the
  calls of a stage.
- **Excerpts** (`Spans`, `Sections`, `Allocation`, `Excerpt`, `RankOrder`,
  `FixedWindows`, `Rendering`). Interval algorithms, sections, the two-phase character budget, the
  order of service, when the beginning and the end of a document are selected, and the text that
  is returned.
- **Valuation** (`Products`, `Dcf`, `Scenarios`, `Sensitivity`). Discounted cash flow over exact
  reals.
- **Login limit** (`LoginLimiter`) and **batch writes** (`Batches`, `Sessions`).

Code that changes things in place is a class or a loop proved against a specification
function or a step machine; the lemmas state what is promised about those.

Where the code and its documentation disagree, the models follow the code:

- "Every dollar is counted exactly once" (orchestrator/budgets.py:3-13) holds exactly under
  the condition of `Conservation.CountedOnceIff`.
- "Workers can never push the figure over the cap" (orchestrator/budgets.py:142-152) is about
  admission alone. Settlements, retained estimates, log rows and commits can take a day past
  the cap; `Figures.WithinCapIff` says exactly when.
- A free call is said to be admitted "as long as the day is not already over the cap"
  (orchestrator/budgets.py:149-150); the test at line 223 skips zero estimates altogether:
  `Figures.FreeCallAdmittedOverTheCap`.
- A call in flight "must never have its admission released before it completes"
  (orchestrator/budgets.py:109-113). The validated life covers the send's window, but it runs
  from a clock read before the wait for the day's lock: `LlmCalls.StageSendEndsInLifeIff` and
  `LlmCalls.AnyWaitCanOutlast`.
- The bull case is not always the better one: `Scenarios.BullBelowBase`, `BaseBelowBull` and
  `OrderTurnsOnce`.
- The excerpt is said to reserve the beginning and the end of a document first
  (docs/investment-research.md:170-171); the code serves them as candidates by rank, after the
  section heads. `FixedWindows.WindowSelectedIff` says exactly when each is selected,
  `FixedWindows.EndCanBeLost` gives a document that loses its end.
- Ten login attempts in sixty seconds (api/auth.py:68-69) are the limit for calls that enter the
  lock in the order of their clock readings. The clock is read before the lock is taken, and
  `LoginLimiter.LimitIsExact` says which windows are limited when calls overtake each other.
- Storage failures are raised so that a commit that is not durable is never acknowledged
  (api/setup_state.py:291-293); where directory fsync is unsupported and skipped, one can be:
  `SkippedSyncs.LosesCommit`.
- Identifiers are said to be bounded (orchestrator/db.py:360-363); the pattern has no length
  limit: `Sessions.IdentifierOfEveryLength`.

Reading hints: `late` in a reservation row, the last four fields of the setup machine's state,
and the login limiter's log are history for the proofs, not stored
data. Digests are taken to be injective. A statement about a run quantifies over every finite
sequence of enabled steps from an initial state.

## Model

| member | source | states |
|---|---|---|
| Ledger.SpentOverAllPairs | orchestrator/budgets.py:175-204 | the day's unreserved spend, summed over the pairs the day logged, is the sum over every distinct list of pairs that covers the log |
| Ledger.SpentWithinLog | orchestrator/budgets.py:175-204 | the unreserved spend lies between zero and the day's whole logged cost |
| Ledger.ReservedSplits | orchestrator/budgets.py:205-219 | the reserved part is exactly the load (what reservations may still hold or held in time) plus settlements beyond their estimates plus settlements after lapse |
| Ledger.SettleMovesFigures | orchestrator/budgets.py:467-508 | settling takes the open estimate off the reservation's own day, adds the actual there, and adds the actual to what its pair has settled, on no other day and for no other pair |
| Ledger.ReleaseMovesFigures | orchestrator/budgets.py:511-547 | releasing gives back exactly an active reservation's open estimate and settles nothing |
| Conservation.CommittedIsSumOfPairs | orchestrator/budgets.py:175-219 | the committed figure of a day is the sum of what each pair contributes to it |
| Conservation.ContributionTotal | orchestrator/budgets.py:175-219 | over all days, a pair with nothing open contributes its log costs beyond its settlements, and its settlements once |
| Conservation.CountedOnceIff | orchestrator/budgets.py:3-13 | a pair's contributions over all days equal the larger of its logged and its settled total if and only if nothing is logged beyond the settlements, nothing is settled, or all logged cost lies on one day |
| Conservation.CountedOnceWhenLoggedOnOneDay | orchestrator/budgets.py:3-13 | so every dollar is counted exactly once when a pair's log rows all start on one day, whatever day its reservations were admitted on |
| Conservation.TwoLoggedDaysLoseADollar | orchestrator/budgets.py:3-13 | without that condition the documented claim fails: a concrete log of two days of which a dollar is lost |
| BudgetMachine.StepInv | orchestrator/budgets.py:130-248 | every step of every worker keeps each day's load within the cap, one holder per day lock and row lock, and room for every admitted estimate |
| BudgetMachine.CapHolds | orchestrator/budgets.py:142-152 | in every interleaving of admissions, settlements, releases, retains, expiries and log writes, a day's committed figure passes the cap by at most the excess of settlements over estimates, the settlements after lapse and the logged cost |
| Figures.WithinCapIff | orchestrator/budgets.py:142-152 | in every interleaving, a day that starts within the cap stays within it throughout if and only if no settlement, retained estimate, log row or commit adds more to its figure than the cap leaves at that step, where each amount is read off the tables before the step |
| Figures.StepPassesCapIff | orchestrator/budgets.py:223-248 | one step takes a day's figure from within the cap to past it exactly under that guard; no sweep, release, expiry, rollback or passing of time ever does |
| Figures.SettleMovesFigure | orchestrator/budgets.py:467-508 | settling changes a day's figure by the actual on the reservation's own day, less the estimate it still held, less the logged cost it now accounts for |
| Figures.SettleMovesSpent | orchestrator/budgets.py:175-204 | a day's unreserved spend falls by the smaller of the actual and what the pair's log holds beyond its settlements |
| Figures.LogMovesFigure | orchestrator/budgets.py:175-204 | a log row adds its cost to its day's figure as far as it goes beyond what its pair has settled |
| Figures.CommitMovesFigure | orchestrator/budgets.py:225-248 | a committed admission adds exactly its estimate to its own day, and nothing if it has lapsed meanwhile |
| Figures.QuietAdmissionStaysWithin | orchestrator/budgets.py:130-248 | a paid admission that nobody interrupts leaves its day within the cap |
| Figures.SweepKeepsFigure | orchestrator/budgets.py:590-593 | expiring lapsed rows does not change the committed figure |
| Figures.FreeCallAdmittedOverTheCap | orchestrator/budgets.py:223-224 | a zero estimate is admitted on a day whose figure is already past the cap, which the documentation of the function excludes (lines 149-150) |
| BudgetMachine.LoadWithinCap | orchestrator/budgets.py:142-152 | in every run, what reservations hold, or held when they were settled in time, stays within the cap |
| BudgetMachine.CapIsHardForPunctualCalls | orchestrator/budgets.py:142-152 | with nothing logged outside reservations and every call settled in time within its estimate, no run passes the cap |
| BudgetMachine.SettlementCanPassTheCap | orchestrator/budgets.py:467-508 | a concrete run in which a settlement above its estimate passes the cap, so the sums in the bound are needed |
| BudgetMachine.AdmissionRuns | orchestrator/budgets.py:160-248 | uninterrupted, the lock, sweep, read, insert and commit steps are one transaction that expires lapsed rows and adds the new one |
| Figures.AdmissionReserves | orchestrator/budgets.py:130-248 | a free call, or one whose estimate fits, is admitted: the new row holds its pair, estimate and life, and raises the figure of its own day by the estimate and no other day's, so that later calls find that much less room |
| Figures.RefusalChangesNothing | orchestrator/budgets.py:223-224 | a paid call that does not fit on top of the figure ends its transaction with everything as it was, the sweep included |
| BudgetMachine.RunContinues | orchestrator/budgets.py:467-609 | in every run rows only get added, keep what they were admitted with, and never change again once settled or released; an expired row never becomes active or released |
| BudgetStore.Store.ReserveBudgetQuota | orchestrator/budgets.py:130-248 | refuses exactly if a positive estimate does not fit on top of the figure, then changes nothing; otherwise performs the machine's admission: one active row is added that holds the request's pair, estimate and life from now, lapsed rows are marked expired, and of all days' figures its own day's rises by the estimate |
| BudgetStore.Store.SettleBudgetReservation | orchestrator/budgets.py:467-508 | closes exactly the named row, active or expired, with the actual and the time, and no other; refuses negative actuals, and reports whether a row changed |
| BudgetStore.Store.ReleaseBudgetReservation | orchestrator/budgets.py:511-547 | closes exactly the named row with nothing settled, if it is active, and no other |
| BudgetStore.Store.RetainBudgetReservation | orchestrator/budgets.py:550-584 | closes exactly the named row, expired or not, at its own estimate, and no other |
| BudgetStore.Store.ExpireAbandonedReservations | orchestrator/budgets.py:587-609 | marks exactly the active rows whose time to live is over expired, and returns how many there were |
| SetupCommit.StepInv | api/setup_state.py:416-514 | every step of a commit, a reader, a crash, a power loss or a background write-back keeps the invariant of both layers of the file system |
| SetupGuarantees.LiveStateIsWhole | api/setup_state.py:1-33 | at every moment of every run a published state validates as it stands and shows exactly the contents its version was committed with |
| SetupGuarantees.DiskStateIsWhole | api/setup_state.py:493-509 | whenever the power fails, the disk holds no state or a valid one, shown exactly as committed, and one of those published since the last acknowledged commit |
| SetupGuarantees.OnlyTheFlipShows | api/setup_state.py:13-24 | a step changes what consumers see only if it is the flip, which shows exactly the payload, or a power loss |
| SetupGuarantees.OnlySyncsReachTheDisk | api/setup_state.py:493-509 | what would survive a power loss moves only to what is live, and the sync after the flip makes the new version the only candidate |
| SkippedSyncs.LiveStateStaysWhole | api/setup_state.py:291-314 | where every directory fsync is skipped, a published state still validates and is shown whole in every run while the power stays on |
| SkippedSyncs.AcknowledgedCommitsAreLost | api/setup_state.py:291-314 | but until the disk writes something back on its own, every commit of the run, acknowledged or not, is lost with the power |
| SkippedSyncs.LosesCommit | api/setup_state.py:416-514 | one whole commit from any initial state that is acknowledged and shown, and gone after a power loss |
| SkippedSyncs.FlipAloneLosesTheState | api/setup_state.py:291-314 | and in every run after which the disk writes back the flip alone, a power loss leaves no valid state at all |
| SkippedSyncs.EarlyFlipIsSafeIff | api/setup_state.py:291-314 | a flip written back before a power loss leaves a valid state exactly if the entries and bytes of the whole version and all links were written back too |
| SetupGuarantees.NextVersionIsFresh | api/setup_state.py:120-131 | the next commit's number is new to the directory and above every number ever published, after any crash |
| SetupGuarantees.NumbersIncrease | api/setup_state.py:466-475 | the version numbers published during a run strictly increase, through crashes and power losses, and lie above all published before it |
| SetupGuarantees.StagedVersionValidates | api/setup_state.py:340-370 | a fully staged version always passes its own validation |
| SetupGuarantees.AcceptedReaderSawOneVersion | api/setup_state.py:522-566 | a lock-free reader that answers true has read one version complete and as committed, however many commits went by |
| SetupGuarantees.ReaderMeetingOneCommitIsNotRefused | api/setup_state.py:395-413 | at no moment has a lock-free reader that started on a valid state and met at most one commit answered false |
| SetupReaders.ReaderAnswersInSevenSteps | api/setup_state.py:522-566 | whatever commits, crashes and write-backs run beside it, a reader takes at most seven steps of its own, and after seven it has answered |
| SetupReaders.ReaderMeetingOneCommitAnswersTrue | api/setup_state.py:395-413 | a reader that starts on a committed state and meets at most one commit answers true, with the contents some version was committed with |
| SetupReaders.QuietReaderValidates | api/setup_state.py:522-566 | with nobody else at work, for every state of the directory, the reader's answer is that of the validation as one piece, and what it read is what is shown |
| SetupReaders.QuietReaderAccepts | api/setup_state.py:522-566 | on every reachable published state the reader's eight steps in a row are possible, change nothing else and end in true with what that version was committed with |
| SetupStore.Directory.WritePrivate | api/setup_state.py:324-337 | leaves the file durable under its name, having gone through the machine's write, sync, rename and sync steps |
| SetupStore.Directory.HighestStaged | api/setup_state.py:120-131 | returns the highest number of any version directory, committed or not |
| SetupStore.Directory.Prune | api/setup_state.py:395-413 | leaves exactly the new version and the one before it, of those that were there |
| SetupStore.Directory.StageVersion | api/setup_state.py:340-370 | stages all four files of a fresh version, or discards it on a storage error, without touching what consumers see |
| SetupStore.Directory.Publish | api/setup_state.py:493-497 | syncs before the flip and flips, or changes nothing consumers see |
| SetupStore.Directory.CommitSetup | api/setup_state.py:416-514 | one whole commit is a run of the machine; consumers see the payload exactly if the flip happened, an acknowledged commit survives power loss, and every other outcome shows what was shown before |
| Spans.SortedSorts | orchestrator/investment_ingest.py:1148-1148 | sorting is by start and then by end, and is a permutation |
| Spans.MergeSpans | orchestrator/investment_ingest.py:1146-1153 | merging covers every given character, adds only gaps of at most 300, starts and ends at given ends, and leaves ranges more than 300 apart |
| Spans.FreeRanges | orchestrator/investment_ingest.py:1156-1175 | returns exactly the characters of the window that no chosen range has, as ordered, disjoint, non-empty ranges |
| Sections.IterSections | orchestrator/investment_ingest.py:1073-1118 | the sections partition the text, start exactly at the opening lines and at zero, and give each line the tier of the last opening line |
| Sections.SectionIndex | orchestrator/investment_ingest.py:1121-1130 | binary search returns the one section that holds the character |
| Sections.KeywordWindows | orchestrator/investment_ingest.py:1186-1195 | each section gets exactly the windows of the matches that start in it, and their number |
| Sections.WindowsStayInSection | orchestrator/investment_ingest.py:1191-1195 | every window is non-empty, stays inside its section, and holds its match's start |
| Sections.WindowsCoverWhatIsReached | orchestrator/investment_ingest.py:1186-1195 | a section's windows cover exactly its characters that lie at most 1,600 before the start or less than 3,400 beyond the end of a match that starts in it |
| Allocation.TakeFree | orchestrator/investment_ingest.py:1257-1268 | picks of a window are disjoint from all earlier picks and inside the window, cost exactly their length, and cover the whole window unless the cap is used up |
| Allocation.SpendOn | orchestrator/investment_ingest.py:1257-1268 | the same over all windows of a candidate in order: it spends exactly the smaller of its cap and the number of characters its windows still have free, and they are picked whole exactly if that number is within the cap |
| Excerpt.TakeHeads | orchestrator/investment_ingest.py:1201-1215 | each substantive or financial section is granted exactly the smaller of its bounded head and what the heads before it left of the budget |
| Excerpt.EveryHeadFitsIff | orchestrator/investment_ingest.py:1201-1215 | every bounded head is granted in full if and only if all of them together fit into 120,000 characters |
| Excerpt.EveryHeadSelected | orchestrator/investment_ingest.py:1201-1215 | and then each of them is in the final selection in full |
| Excerpt.OverlapTier | orchestrator/investment_ingest.py:1133-1138 | returns the weakest tier of the overlapping sections, and the context tier if there is none |
| Excerpt.AllCandidates | orchestrator/investment_ingest.py:1232-1244 | after the section candidates come the fixed beginning and end of the document, charged to no section and ranked by the weakest tier they overlap |
| Excerpt.SectionCandidates | orchestrator/investment_ingest.py:1222-1231 | each section with a keyword has one candidate, covering all its windows and adding only small gaps, whose quality is that of its tier and its number of windows; `RankOrder.ServedInOrder` says what that means for the order |
| Excerpt.RankedRanks | orchestrator/investment_ingest.py:1246-1249 | candidates are served by quality downwards and then by first character |
| Excerpt.RankedIsStable | orchestrator/investment_ingest.py:1246-1249 | candidates that tie keep the order they were found in |
| RankOrder.ServedInOrder | orchestrator/investment_ingest.py:1141-1143 | of two candidates the one served first has the higher tier; or the same and more keyword windows, as far as the first hundred count; or the same of both and a place that is not later |
| RankOrder.DenserSectionsFirst | orchestrator/investment_ingest.py:1246-1249 | in every excerpt of a long document a section with more keyword windows, up to a hundred, is served before one of its tier with fewer, and any section with a keyword before the fixed beginning or end of its tier |
| Excerpt.ServeCandidates | orchestrator/investment_ingest.py:1246-1268 | no section is charged more than 14,000 characters with its head, charged picks lie in their section, a pick is made only once every better candidate is satisfied, and with budget left every candidate is |
| Excerpt.BuildExcerpt | orchestrator/investment_ingest.py:1178-1269 | a short document is shown whole; of a long one the selection serves the ranked candidates, is disjoint, inside the document and as long as the budget spent, and what is shown covers it and adds only small gaps |
| FixedWindows.SelectedIff | orchestrator/investment_ingest.py:1246-1268 | a candidate without a section is selected whole if and only if its characters, the heads and what the better ranked candidates were given number at most 120,000 |
| FixedWindows.WindowSelectedIff | orchestrator/investment_ingest.py:1232-1268 | so the beginning or the end of a document is selected whole exactly under that condition at its rank |
| FixedWindows.BothEndsSelected | orchestrator/investment_ingest.py:1201-1268 | both are selected whole if they fit together with the bounded heads and, for each section with keywords, the smaller of its windows and what its head leaves of 14,000; all of it is known before anything is picked |
| FixedWindows.NothingButHeads | orchestrator/investment_ingest.py:1201-1249 | once the bounded heads use up the budget, nothing of a section without a head is selected, wherever it lies |
| FixedWindows.EndCanBeLost | orchestrator/investment_ingest.py:1178-1268 | a document given by its lines of which, whatever keywords match, the last 28,000 characters are neither selected nor shown |
| FixedWindows.ExcerptOfFiling | orchestrator/investment_ingest.py:1178-1269 | running the excerpt on that document's lines loses its end |
| Rendering.ReturnedIff | orchestrator/investment_ingest.py:1270-1274 | a character of a shown range is in the returned text, in its place, exactly if the labels, joins and ranges before it leave room for it |
| Rendering.NextPiece | orchestrator/investment_ingest.py:1270-1274 | each shown range follows an empty line and a label whose decimal numbers read back as its first character and the one after its last |
| Rendering.SpentBudgetIsCut | orchestrator/investment_ingest.py:1270-1274 | labels and joins are outside the budget, so a selection that spends all of it always loses its last characters to the cut |
| Rendering.AnalysisExcerpt | orchestrator/investment_ingest.py:1178-1274 | a short document is returned as it is, a long one as its labelled ranges in order, cut to 120,000 characters, with each character that has room in its place |
| Dcf.Evaluate | orchestrator/investment_engine.py:210-238 | the five-year loop and terminal value equal the closed form, and a value exists exactly for positive cash flow, known growth and 0 <= terminal growth < discount rate |
| Dcf.ValueGrows | orchestrator/investment_engine.py:210-238 | the value does not fall, and strictly rises, when growth rises, the discount rate falls or the terminal growth rises |
| Dcf.FlooredTerminalGrowth | orchestrator/investment_engine.py:727-734 | one more percentage point of discount rate always outweighs raising the terminal growth to one percent |
| Scenarios.DcfCase | orchestrator/investment_engine.py:241-260 | enterprise, equity and per-share value of one case, each present exactly if its inputs are |
| Scenarios.BearBelowBase | orchestrator/investment_engine.py:705-734 | with a base case there always is a bear case, and it is strictly below it in every figure |
| Scenarios.BaseBelowBull | orchestrator/investment_engine.py:719-726 | from a discount rate of 5.65 percent on, the bull case is strictly above the base case in every figure, whatever the growth and terminal growth |
| Scenarios.BullBelowBase | orchestrator/investment_engine.py:719-726 | at 4.75 percent and less the bull case always exists and is strictly below the base case in every figure, whatever the growth and terminal growth, because its discount rate is floored at six percent |
| Scenarios.OrderTurnsOnce | orchestrator/investment_engine.py:719-726 | for given growth and terminal growth the order turns at most once: where the bull case is worth no less than the base case, it is worth more at every higher discount rate |
| Sensitivity.Analyse | orchestrator/investment_engine.py:263-304 | the grid shows exactly the valuations that exist for the nine pairs of rates, row by row and each once, with the true minima and maxima |
| Sensitivity.RangeHoldsBase | orchestrator/investment_engine.py:355-360 | the range always contains the base value |
| Sensitivity.CornersAreTheRange | orchestrator/investment_engine.py:286-304 | when all nine valuations exist the range is spanned by the two opposite corners |
| Sensitivity.LargestDriver | orchestrator/investment_engine.py:325-346 | the reported driver has the widest spread of those that have one, the first of equals |
| Sensitivity.CashFlowSpread | orchestrator/investment_engine.py:307-311 | ten percent of cash flow either way spreads the value by exactly a fifth of it |
| Sensitivity.GrowthBrackets | orchestrator/investment_engine.py:312-323 | the growth and terminal growth settings bracket the base value |
| Sensitivity.DiscountBracketsIff | orchestrator/investment_engine.py:316-319 | the discount rate settings bracket the base value exactly if the rate is at least 0.001 |
| Redirects.ReadBounded | orchestrator/http_client.py:303-320 | a body is kept exactly if neither its declared nor its actual length passes the cap |
| Redirects.StreamBounded | orchestrator/http_client.py:285-362 | at most max_redirects + 1 requests are sent, each made from its predecessor and its answer; every kept body is within the cap; and the outcome names why following stopped |
| Redirects.CredentialsStayWithTheFirstOrigin | orchestrator/http_client.py:267-282 | auth and Authorization are sent exactly as long as the chain has not left the first origin, and all other headers stay |
| Redirects.CredentialedRequestsStayHome | orchestrator/http_client.py:257-282 | a request with credentials, and every request before it, went to the first origin, even if a later hop returns to it |
| Redirects.BodySurvivesIff | orchestrator/http_client.py:347-349 | the JSON body is sent exactly as long as the method stays the same |
| Redirects.FollowedRequestsAreReplayable | orchestrator/http_client.py:331-352 | no hop follows a non-idempotent method, a non-strippable credential or embedded credentials, and query parameters are never applied again |
| Redirects.NextRequestFollows | orchestrator/http_client.py:235-243 | every followed redirect answered with one of five statuses and a place without credentials in it; its request was idempotent, and the next goes to that place, as a GET after 302 and 303 unless it was a HEAD |
| Redirects.StoppedForAReason | orchestrator/http_client.py:322-362 | following stops only at an answer that leads nowhere or whose request must not be repeated, at a place or credential that policy refuses, or after the limit |
| Retries.DelayBounded | orchestrator/http_client.py:164-202 | no wait passes sixty seconds, and none that no server asked for passes ten |
| Retries.MakeRequest | orchestrator/http_client.py:396-603 | at most max_retries sends, one for a request that may not be replayed, each after a retryable failure and the wait for it, none started at or past the budget; the request never runs past its budget and never falls through its loop |
| Retries.OutcomeTellsTheSends | orchestrator/http_client.py:462-603 | only idempotent or keyed requests are sent more than once; a failure is reported only after all attempts, a status as an error exactly if it is one of the five worth another attempt, and a deadline exactly at the end of the budget |
| Retries.BackoffDoubles | orchestrator/http_client.py:164-202 | where no server asks for a wait, it is the random share of a window of 1, 2, 4, 8 and then 10 seconds |
| LlmRequests.ResolvePolicy | orchestrator/llm_client.py:185-267 | a resolved policy has a model, a positive timeout and at most one validation retry |
| LlmRequests.CheckedOnceHoldsTwice | orchestrator/llm_client.py:270-384 | the checks that passed before admission pass again inside the call and build the same request |
| LlmRequests.TtlCoversStageCall | orchestrator/budgets.py:96-127 | a reservation lives at least as long as the HTTP window of a stage call, remaining time plus thirty seconds |
| LlmSettings.PolicyFollowsSettings | orchestrator/llm_client.py:185-267 | what the configuration gives, for all processors or for this one, is what the policy asks for, and it is refused exactly if a value is outside its range or max_retries is set |
| LlmSettings.RequestCarriesWhatWasAsked | orchestrator/llm_client.py:270-384 | an accepted request carries the policy's model, tokens and temperature, the effort, and the caller's messages, each with a known role and a text, or else the prompt |
| LlmSettings.OnlyJsonIsSent | orchestrator/llm_client.py:379-383 | no message or schema with a value somewhere inside that JSON cannot say is ever accepted |
| LlmSettings.FreeModelsAreMarked | orchestrator/budgets.py:46-56 | calls are free exactly for models whose name ends in the free mark, in capitals or not, before any white space |
| LlmCalls.Close | orchestrator/llm_client.py:664-739 | a reservation is closed exactly once: released exactly for a connect failure or a non-2xx status, settled at exactly the number, or the number the text reads as, that a usable in-time reply states as its cost if it is not negative, and retained otherwise |
| LlmCalls.CallLlm | orchestrator/llm_client.py:569-739 | whatever happens, every reservation held or made is closed once as the facts justify, except that a call refused by its own checks leaves a caller's permit alone |
| LlmCalls.Stage.Call | orchestrator/llm_client.py:468-566 | over all calls of a stage every admitted reservation is closed exactly once, sends stay within one plus the validation retries, release without a send happens only on drift, and the reservation's life exceeds the send's window by at least the time the stage has used, so that every send that starts no later than that after its reservation is over by the expiry |
| LlmCalls.StageSendEndsInLifeIff | orchestrator/budgets.py:109-166 | a stage call's send surely ends in its reservation's life if and only if the wait between the reservation's clock and the send is at most the time the stage had used before the call, plus what the configured life exceeds the shortest one that validation accepts |
| LlmCalls.AnyWaitCanOutlast | orchestrator/budgets.py:109-125 | with the shortest life that validation accepts, after any wait at all a reply inside the window of a stage's first call can come after the reservation's expiry |
| LlmCalls.OpenStage | orchestrator/llm_client.py:390-423 | a stage is opened exactly if its settings resolve; a fresh one has sent nothing and has its whole timeout |
| ConfigTree.MergesAgree | api/setup_state.py:576-584 | the loader's merge and the setup service's profile merge are the same function on mappings |
| ConfigTree.MergeTwice | contracts/runtime_config.py:2227-2233 | laying the same update over twice changes nothing more |
| ConfigTree.CoversIff | contracts/runtime_config.py:2227-2233 | an update replaces a base completely exactly if it says something about every key of it, at every path where both have mappings |
| ConfigTree.OverlayLaw | contracts/runtime_config.py:2227-2233 | overlaying with a merged profile equals overlaying with profile and update in turn, if and only if the profile nowhere cuts off a mapping that base and update both have and the update does not cover |
| ConfigTree.ScanSpells | contracts/runtime_config.py:2520-2520 | the scanned characters and placeholders spell the text |
| Placeholders.ScanFindsWhatIsWritten | contracts/runtime_config.py:2520-2520 | every placeholder that is written in a text is found there with its name and default, and nothing else is taken for one |
| Placeholders.TextBecomes | contracts/runtime_config.py:2523-2568 | a text becomes its pieces' values, joined: each placeholder the secrets file's value first, then, but for a managed secret beside that file, the environment's, then its default, then the stand-in of demo mode; it fails exactly if a piece has none |
| TreePaths.OverlayHoldsSettings | contracts/runtime_config.py:2227-2233 | an overlay holds at a path exactly the profile's leaf, or the base's where the profile says nothing |
| TreePaths.SubstituteAt | contracts/runtime_config.py:2571-2587 | filling in goes through mappings key by key, adding and losing no path |
| TreePaths.PlainTreeStays | contracts/runtime_config.py:2571-2587 | a tree in which no placeholder begins can be filled in and stays as it is |
| ConfigTree.ManagedSecretsDoNotLeak | contracts/runtime_config.py:2542-2550 | with an authoritative secrets file, environments that agree off the managed keys give the same tree or both fail, for every tree |
| ConfigTree.ManagedSecretsLeakWithoutFile | contracts/runtime_config.py:2551-2558 | without the file the same placeholder follows the environment |
| ConfigTree.SecretsFileWins | contracts/runtime_config.py:2532-2541 | a text whose placeholders the secrets file covers does not depend on the environment |
| ConfigTree.DeletedSecretIsGone | contracts/runtime_config.py:1928-1936 | a text that needs a deleted managed secret cannot be filled in, whatever the environment holds |
| ConfigTree.SubstitutionKeepsShape | contracts/runtime_config.py:2571-2587 | successful substitution changes strings only and keeps all keys and list lengths |
| ConfigLoader.StepInv | contracts/runtime_config.py:2147-2180 | every step of a load or a commit keeps the locks exclusive, everything a load has read true of the committed version, and snapshots of one version |
| ConfigLoader.SnapshotIsOneVersion | contracts/runtime_config.py:2292-2361 | in every interleaving, a snapshot's operator and secrets text come from one committed version and its digests are of that same text |
| ConfigLoader.MatchingDigestsMeanCurrent | contracts/runtime_config.py:2401-2420 | matching digests under the lock mean that the snapshot is the version committed now |
| ConfigLoader.NoDeadlock | contracts/runtime_config.py:2292-2374 | while any load or commit is under way, one of them can take its next step |
| ConfigLoader.QuietLoadPublishes | contracts/runtime_config.py:2292-2361 | where nothing else is under way, a process's first load runs to its end, publishes the texts committed last with their digests, and gives back both locks |
| ConfigLoader.QuietCommitPublishes | contracts/runtime_config.py:2369-2374 | and a commit runs to its end and publishes its texts as the next version |
| ConfigLoader.NaiveWriterCanDeadlock | contracts/runtime_config.py:2369-2374 | a writer that validated under the loader mutex could lock a load and itself out for good |
| RuntimeLoader.LoadIgnoresManagedEnvironment | contracts/runtime_config.py:2306-2347 | with a secrets file in place what a process loads does not depend on the managed secrets in its environment |
| RuntimeLoader.PlainFilesLoad | contracts/runtime_config.py:2306-2347 | readable files without placeholders are refused by nothing but the schema |
| RuntimeLoader.Loader.Load | contracts/runtime_config.py:2292-2361 | the first success fixes the configuration: a valid one, made by the demo policy of a tree that holds, filled in, exactly the operator's settings and those of the base the operator says nothing about; a missing or unreadable document, a profile that is no mapping and malformed secrets are refused; later loads return the configuration, and fail exactly for other paths or changed credentials |
| RuntimeLoader.Loader.EnsureCurrent | contracts/runtime_config.py:2401-2420 | work goes on exactly while all files still are what was loaded |
| LoginLimiter.AttemptedSound | api/auth.py:372-389 | every attempt, whatever it read from the clock before it got the lock, keeps the table bounded and in order, and its entries what is left of the recorded attempts |
| LoginLimiter.AtMostTenInAnyWindow | api/auth.py:383-389 | no window of sixty seconds less the lag holds more than ten recorded attempts |
| LoginLimiter.LimitHoldsOverRuns | api/auth.py:370-389 | in every interleaving of any number of threads that read the clock and later enter the lock, so it is for every client while it stays in the table, with the largest lag of a call behind the latest reading of its client; and the table never exceeds 4,096 clients |
| LoginLimiter.LimitHoldsForShortWaits | api/auth.py:370-389 | the lag is at most the longest wait between a call's reading and its turn at the lock |
| LoginLimiter.OvertakingBreaksTheLimit | api/auth.py:370-389 | for every lag there is a run in which eleven attempts fall into any longer window: a call that read sixty seconds empties the window before one that read less is recorded |
| LoginLimiter.LimitIsExact | api/auth.py:68-69 | exactly the windows of at most sixty seconds less the lag are limited to ten attempts; the full sixty seconds are only if no call enters behind a later reading of its client |
| LoginLimiter.EvictsLeastRecent | api/auth.py:375-382 | only a new client at a full table evicts anybody, and then the one client seen least recently |
| LoginLimiter.RetryAfterIsExact | api/auth.py:386-388 | after n whole seconds the window has room exactly if n is at least the announced wait |
| LoginLimiter.WaitingPays | api/auth.py:386-388 | a rejected client with nothing recorded in between passes exactly after the announced wait |
| LoginLimiter.Limiter.VerifyLogin | api/auth.py:370-396 | the in-place table performs exactly one such attempt per call; the password is checked only for an admitted client with a free slot |
| Batches.StatementsTouchOneRow | orchestrator/db.py:446-467 | a statement changes an existing row only if it is an upsert that hits it, and then no conflict column |
| Batches.InsertOnlyKeepsRows | orchestrator/db.py:448-452 | insert-only batches only add rows at the end |
| Batches.ReplayChangesNothing | orchestrator/db.py:407-473 | with one nonempty conflict key per table and no NULL in it, writing the same records again changes nothing |
| Batches.RepeatableIff | orchestrator/db.py:446-467 | a single statement can be repeated without effect on every database exactly if it has conflict columns and a value in each |
| Sessions.Validate | orchestrator/db.py:366-404 | finds the first invalid batch exactly if there is one |
| Sessions.RefusedIff | orchestrator/db.py:366-404 | a batch is refused exactly if its parts, one of its names, the columns of two records, or a missing conflict column are wrong |
| Sessions.Session.WriteBatches | orchestrator/db.py:407-473 | an invalid batch anywhere means that nothing is executed and the first one is named; otherwise the rows are the in-order fold of all batches, or the write stops at the first failing batch |
| Sessions.Store.WithSession | orchestrator/db.py:87-116 | the stored rows are the in-order fold of all batches or unchanged, also if the commit itself fails; a refusal or failure names the first batch that caused it |
| Sessions.LastWriteIsStored | orchestrator/db.py:407-473 | after a write every upserted record that no later one is for is in its table with all its values |
| Sessions.InsertOnlyWriteKeepsRows | orchestrator/db.py:448-452 | a write of insert-only batches leaves every stored row as it is |
| Sessions.IdentifierOfEveryLength | orchestrator/db.py:360-363 | an identifier of every length is accepted |
| Sessions.CommittingAgainChangesNothing | orchestrator/db.py:87-116 | committing the same sequence of batches a second time changes nothing, under the same condition |

## Left out

- LlmRequests.ResolvePolicy: treats a not-a-number or infinite number in the configuration as refused, where the code lets a not-a-number timeout through to later checks.
- Scenarios.BaseBelowBull: between 4.75 and 5.65 percent the rate at which the order turns depends on growth and terminal growth and is not given in closed form; `OrderTurnsOnce` says that it turns at most once.
- SetupGuarantees.DiskStateIsWhole: takes directory fsync to work; the code skips it on file systems that refuse it (api/setup_state.py:291-314). `SkippedSyncs` says what holds there and what does not.
- Retries.MakeRequest: takes sending and sleeping to be the only things that take time, and a sleep to take exactly as long as asked.
- Placeholders.ScanFindsWhatIsWritten: says nothing of a text in which a dollar sign and an opening brace begin something that is no placeholder; `ConfigTree.ScanSpells` covers it.
- PostgreSQL, SQLAlchemy and SQL text: tables are values, a transaction's statements are steps; clock skew between workers and negative log costs are not modelled.
- Argument checks of `reserve_budget_quota`, and the trusted manual bypass beyond a call that holds no reservation.
- A settle, release or retain that the database does not answer leaves the reservation open until it expires (orchestrator/budgets.py:500-508); the LLM models record the attempt to close it.
- Interrupts such as KeyboardInterrupt between admission and closing.
- The claim of api/api_budgets.py:3-9 that the page never shows a call as allowed that a worker would deny: the page compares the committed figure with the cap, the worker also adds the estimate.
- Legacy real files at the live paths and links pointing elsewhere (api/setup_state.py:450-462); a setup starts from nothing or from a valid versioned state. A link and its temporary name are one step.
- Errors while a class method removes a version directory; the step machine covers a removal that stops anywhere.
- File modes, checksums as such, timestamps in the manifest.
- The base configuration file's own changes, an absent lock file on a read-only mount, and operator and secrets files in different directories.
- Loaders that crash while holding a lock; the operating system releases it.
- YAML and JSON parsing, schema validation and the demo policy: parameters of the loader model. Parsing of the secrets file.
- Regular expressions: headings, file markers, keyword matches and header classes are inputs; the placeholder pattern is a scanner.
- DNS, TLS, connection pools, httpx's own redirects when no byte cap is set, and which client object is closed on a timeout.
- Provider telemetry, logging, and the text of error messages.
- Per-share figures of the sensitivity drivers.
- Password hashing and its semaphore: whether a slot is free and whether the password is right are inputs.
- Column defaults, type conversion of records, and unique constraints other than the conflict columns; a statement that fails for such a reason is an input.
- The `acquired_at` rule of `upsert_records_in_session` (orchestrator/db.py:323-331), and the older single-table writers.
- The durable job protocol, collectors, quality verdicts, routes, pages and the command line: plumbing, or easier claims.
