# A verified model of the advertising workspace

This project models the parts of the advertising workspace that carry state, arithmetic or a
protocol, and proves what they keep. Every result holds for all inputs and, where a run is
involved, for every run. `dafny verify dfyconfig.toml` checks the whole project.

## What is modelled

**Changes** (`ChangeRecords`, `ChangeStore`, `ChangeProtocol`, `ChangeSafety`, `ChangeTheorems`,
`ChangeOutcomes`, `ChangeChecks`, `ChangePaths`).
Any number of processes stage, apply, reconcile and discard changes, and advance the sandbox, over
one database with a state column, expiring leases and an audit log. Each step of a process is
interleaved with all others; a process can crash between any two steps and the backend can answer
anything. Logs record what was checked before sending, what was sent, and what was read back.
`ChangeTheorems.RunsAreSafe` is the invariant of all runs, and `ChangeTheorems` draws from it what
a user relies on: at most one send, only after approval; what each state tells about the backend;
no lost update although only the state column is compared; leases that exclude. `ChangeOutcomes`
settles which applied changes were certainly sent, `ChangeChecks` that every send and every verdict
has the read, the policy and the answer it needs, and `ChangePaths` what a change can come to.

**Delivery** (`Decimals`, `Allocation`, `Auctions`, `Budgets`, `BudgetUse`, `Ledgers`, `Deliveries`,
`DeliveryUse`, `Reach`, `Facts`, `Learning`). One virtual hour runs sampled auctions,
largest-remainder division of a cohort's opportunities, two levels of budget scaling, a shared
prepaid balance, ledgers and daily bills. Floats and decimals are real numbers. Draws of the random generator, `exp` and `log` are
parameters restricted to their ranges. The main results speak of whole runs of hours with budgets
that may change between hours: no entity spends more on a day than the largest daily budget in
force, although the ledger forgets old days; whoever is held back is under a budget or balance that
is used up; the balance never goes negative and agrees with ledger, facts and bills; winners pay
second prices; reach is neither lost nor invented.

**Reports** (`Sums`, `Metrics`, `Reports`, `ReportTheorems`, `Orders`, `Comparisons`,
`Contributions`). Rows and facts are rolled up over the hierarchy. Totals agree between levels,
split over entities and adjacent windows, and never decrease as time passes; what is not yet
attributed shows nowhere; the rules' own aggregator agrees with reports; rankings and the split of a change of return add up.

**Streams and pages** (`Numerals`, `Stream`, `Turns`, `Replay`, `Screens`, `Conversations`,
`TurnViews`). A turn's events are numbered, printed as frames (the part of section 9.2.6 of the
WHATWG HTML standard that the server uses), cut back out of arbitrary reads, and folded into a picture that does not change when events are
delivered again and that `Screens` tells from the log alone. Conversation pages partition a
session's history and mark whatever they leave out.

**Operations, policies, restarts** (`ReviewLines`, `Encodings`, `Operations`, `Bundles`, `Policies`,
`Restarts`). What was acknowledged reads back, and what reads back is there; existing budgets change
only within the policy, on every path; where saving and loading succeed, they cannot be noticed.

Modules keep only the fields their results need, so an ad's fact, for instance, appears with its
spend in `Ledgers`, with its metrics in `Reports` and with all checked figures in `Facts`. Code that
updates things step by step is a method or a class proved against a function, and the lemmas are
about that function.

## What turned out differently than promised

- `Applied` does not mean that the service sent anything: for a write, `Reconcile` only looks at the
  current state. A change can end applied without a send exactly when it is a write with both
  versions (`ChangeOutcomes.UnsentIff`), and then its row holds no outcome
  (`ChangeOutcomes.AppliedWasSent`); `ChangeOutcomes.AppliedMayBeUnsent` is the run.
- A creative update that gives a type without its id is acknowledged and can never be reconciled,
  and one that gives an id without its type erases the type: `Operations.AdRoundTripIff`,
  `Operations.AdUntouchedIff`, `Operations.TypesMatter`.
- The comment at internal/agenthost/operation_policy.go:11 speaks of every budget entry, but a plain
  creation never asks the policy: `Policies.CreationIsNotLimited`. That is the only way out: budgets
  stay within one policy's limits throughout a run exactly when no accepted creation of the run asks
  for a budget outside them (`Policies.RunLimitedIff`).
- The text-halving loop of a conversation page ends exactly when a turn's frame without any text is
  small enough: `Conversations.TrimmingEndsIff`.
- A frame larger than the client's limit may pass or fail depending on how it is cut into reads:
  `Stream.EmitsWhatArrived` and `Stream.LargeFrameFails` give the exact bound.
- A late repeat of an earlier turn's start displaces the running turn: `Replay.LateStartDisplaces`.
- Facts are accepted after a restart exactly when the simulation started on a whole hour, as it does
  not in a time zone that is half an hour off: `Facts.GeneratedFactValidIff`, `Restarts.HourFactsFit`,
  `Restarts.RestartIsInvisible`.
- A report over a day on which clocks go forward never becomes complete, as completeness asks for 24
  facts: `ReportTheorems.ShortDayNeverComplete`. Over generated dates whose hours have all been
  generated, a report is complete exactly when each date has at least 24 hours:
  `ReportTheorems.GeneratedCompleteIff`.
- An advance can be saved exactly when every ad group with an ad has a daily budget, as JSON has no
  infinity: `Learning.SavableIff`, `Restarts.AdvanceSavedIff`.

## Model

| member | source | states |
|---|---|---|
| `ChangeRecords.PathClimbs` | internal/ads/changes.go:18-28 | along any legal history of a change the state climbs and the request stays the same, over any distance |
| `ChangeRecords.PathIsShort` | internal/ads/changes.go:18-28 | a change is moved at most three times and never returns to a state |
| `ChangeRecords.StateNamesRecord` | internal/ads/changes.go:18-28 | in one change's history the state alone identifies the record |
| `ChangeStore.Store.InsertChange` | internal/store/store.go:271-288 | a duplicate id changes nothing; otherwise row and audit record are added together |
| `ChangeStore.Store.Transition` | internal/store/store.go:321-346 | the move is made exactly when it is legal and the stored state is the expected one, with its audit record; otherwise nothing changes, and other rows never do |
| `ChangeStore.Store.Lease` | internal/store/store.go:179-189 | a lease is granted exactly when absent or expired by the second, and then replaces the old owner |
| `ChangeStore.Store.Release` | internal/store/store.go:190-192 | only the owner's release frees a lease; a stale owner's release changes nothing |
| `ChangeStore.Store.SaveSandboxAdvance` | internal/store/store.go:413-446 | a stored clock moves only from the value the advance started from |
| `ChangeTheorems.RunsAreSafe` | internal/agenthost/changes.go:134-391 | the protocol invariant holds after every interleaving of steps, crashes and backend answers |
| `ChangeTheorems.SentOnceAfterApproval` | internal/agenthost/changes.go:134-226 | a change is sent at most once, with the payload of its row, and only after an audited claim that names an approver |
| `ChangeTheorems.StateTellsTruth` | internal/agenthost/changes.go:134-391 | staged, discarded and expired changes were never sent, failed ones never acknowledged, applied ones confirmed by a later read |
| `ChangeTheorems.DirectlyAppliedWasAccepted` | internal/agenthost/changes.go:199-216 | a change applied without having been indeterminate was sent and acknowledged |
| `ChangeTheorems.AuditIsLegalPath` | internal/store/store.go:321-346 | a change's audit trail is a legal path of at most four records of one request, ending in the row |
| `ChangeTheorems.NoLostUpdate` | internal/store/store.go:321-346 | whoever moves a row held exactly the row that it replaces, although only the state is compared |
| `ChangeTheorems.SectionsExclude` | internal/agenthost/changes.go:163-168 | two processes inside the time of their leases for one account are the same process |
| `ChangeTheorems.LeaseIsGrantedIff` | internal/store/store.go:179-189 | an execution gets the lease exactly when nobody holds one or its last second is over, and then holds it to its deadline; otherwise it is gone |
| `ChangeTheorems.LiveAttemptsKeepTheirRow` | internal/agenthost/changes.go:322-332 | when attempts stay within their bound, the row of a live attempt is the one it claimed |
| `ChangeTheorems.VerdictIsStored` | internal/agenthost/changes.go:222-225 | the verdict of an attempt within its bound is always the one stored |
| `ChangeTheorems.AdvancesNeverOverlap` | internal/store/store.go:413-446 | committed advances of one sandbox form a chain of clock intervals; of two from one clock only one commits; none is longer than 744 hours |
| `ChangeOutcomes.AppliedWasSent` | internal/agenthost/changes.go:340-376 | an applied change that holds an outcome or a created object, or is no write, was sent |
| `ChangeOutcomes.UnsentIff` | internal/agenthost/changes.go:307-376 | a draft that is not born expired can end applied without a send exactly when it is a write with both versions |
| `ChangeOutcomes.AppliedMayBeUnsent` | internal/agenthost/changes.go:307-376 | for every such write, a run from the empty database that ends applied with nothing sent |
| `ChangeChecks.SentAfterCheck` | internal/agenthost/changes.go:182-275 | every send follows, in the same attempt and after its approval, a read that showed the target, plan or parent as staged and a policy that allows it |
| `ChangeChecks.CheckIsDecisive` | internal/agenthost/changes.go:182-275 | an attempt whose check fails sends nothing; one whose check passes never expires and fails only by a refusal; expired means stale, failed without a send means not stale |
| `ChangeChecks.AnswerIsRecorded` | internal/agenthost/changes.go:201-220 | a record with an answer holds the answer to its one send, failed exactly if that refused, and stays in doubt after an acceptance only because a later read differed |
| `ChangeChecks.AppliedWasSeen` | internal/agenthost/changes.go:204-376 | an applied change was seen after its approval as requested: the new version, the created object or the plan |
| `ChangePaths.CanApply` | internal/agenthost/changes.go:134-226 | every complete request can be applied: sent once, accepted, read back, the lease given back |
| `ChangePaths.CanDiscard` | internal/agenthost/changes.go:377-391 | every staged change can be discarded, with nothing sent |
| `ChangePaths.LateApprovalExpires` | internal/agenthost/changes.go:145-149 | an approval at or after the expiry sends nothing and expires the change |
| `ChangePaths.CallsAreScoped` | internal/agenthost/changes.go:134-162 | a call starts its execution exactly when it comes from the session and account of the change and its state admits it; otherwise nothing happens |
| `Allocation.ProportionalIntegerAllocation` | internal/sandbox/joint_delivery.go:403-425 | the array is the specified allocation, whatever the denominator |
| `Allocation.AllocateIsLargestRemainder` | internal/sandbox/joint_delivery.go:403-425 | when counts make up the denominator the shares sum to the total, each is its exact share rounded down or up, and units go by remainder, then position |
| `Allocation.SplitIsUnique` | internal/sandbox/joint_delivery.go:403-425 | there is only one such split |
| `Allocation.ShareNearExact` | internal/sandbox/joint_delivery.go:403-425 | every share is less than one unit from its exact value, and a zero count gets zero |
| `Allocation.ShareWithinCount` | internal/sandbox/joint_delivery.go:403-425 | dividing no more units than there are counts gives nobody more than its count |
| `Auctions.SecondPrice` | internal/sandbox/joint_delivery.go:319-333 | the market wins exactly when nobody beats it; otherwise the first best entry wins against the best of all others |
| `Auctions.RequiredBidMatches` | internal/sandbox/joint_delivery.go:336-339 | the bid a winner is charged for scores exactly what the runner-up scored |
| `Auctions.WinnerPaysSecondPrice` | internal/sandbox/joint_delivery.go:319-340 | a sample charges its winner the price of the bid that scores what the best of all others scored, or the nearest end between floor and own bid, and charges nobody else |
| `Auctions.OwnBidIsNoPrice` | internal/sandbox/joint_delivery.go:336-340 | a winner that bids more than it has to pay would pay the same with any such bid |
| `Auctions.CostIsAverage` | internal/sandbox/joint_delivery.go:347-357 | an impression costs the average of what the won samples charged, and the floor without a win |
| `Auctions.SelectedIsScaled` | internal/sandbox/joint_delivery.go:427-432 | samples are scaled to opportunities, to the nearest whole number |
| `Auctions.SamplesTallied` | internal/sandbox/joint_delivery.go:298-318 | tallies count the samples a contender entered, their markets and its rivals in them |
| `Auctions.PlaySample` | internal/sandbox/joint_delivery.go:298-341 | one sample changes exactly the tallies of its entrants and its winner |
| `Auctions.ResolveCohortAuctions` | internal/sandbox/joint_delivery.go:278-359 | candidates of the cohort get the tallies, share and average price of the samples; all others are untouched |
| `Auctions.WinsAddUp` | internal/sandbox/joint_delivery.go:319-346 | every sample is won exactly once, by a candidate or by the market |
| `Auctions.OpportunitiesAreShared` | internal/sandbox/joint_delivery.go:342-351 | candidates' impressions and the market's share make up the cohort's opportunities, by largest remainder; who won nothing gets nothing |
| `Auctions.CostWithinBid` | internal/sandbox/joint_delivery.go:336-357 | the price of an impression lies between the floor and what the bid is worth |
| `Budgets.ApplyJointBudgetAllocation` | internal/sandbox/joint_delivery.go:434-477 | the candidates in the array end as the specified two-level and prepaid allocation |
| `Budgets.HourStaysInBudget` | internal/sandbox/joint_delivery.go:435-465 | an hour costs no ad group and no campaign more than its budget has left |
| `Budgets.HourStaysWithinBalance` | internal/sandbox/joint_delivery.go:466-476 | an hour costs all candidates together no more than the prepaid balance |
| `Budgets.UnboundIsServedInFull` | internal/sandbox/joint_delivery.go:434-477 | a candidate that no budget and no balance holds back serves every impression it won |
| `BudgetUse.NoIdleBudget` | internal/sandbox/joint_delivery.go:434-477 | a candidate not served in full is under a group budget, a campaign budget or a balance that is used up, but for less than one impression of each candidate |
| `BudgetUse.AllCutEvenly` | internal/sandbox/joint_delivery.go:461-477 | candidates of one group and campaign are cut in one proportion, within one impression, or two when the balance is shared too |
| `BudgetUse.BalanceIsShared` | internal/sandbox/joint_delivery.go:466-476 | the balance cuts all candidates in one proportion, within one impression |
| `Ledgers.Ledger.RecordSpend` | internal/sandbox/causal_model.go:459-472 | spend is posted to both entities' days and lifetimes, and exactly the days older than two are dropped |
| `Ledgers.Ledger.PostHour` | internal/sandbox/joint_delivery.go:508-561 | an hour posts every candidate's spend in order |
| `Ledgers.LedgerIsFaithful` | internal/sandbox/causal_model.go:459-472 | the pruned ledger answers every question about recent days and lifetimes as the full history would |
| `Ledgers.Account.SettleSpend` | internal/sandbox/rules.go:152-172 | cash, balance and the day's bill all move by the facts' spend; nothing happens for zero |
| `Deliveries.CollectFacts` | internal/sandbox/joint_delivery.go:116-138 | each ad's fact is its candidates' spend, truncated once to four decimals |
| `Deliveries.DeliverHour` | internal/sandbox/joint_delivery.go:114-138 | allocation, posting, facts and settlement together are the specified hour |
| `Deliveries.ForgettingIsInvisible` | internal/sandbox/causal_model.go:466-471 | a run with the pruned ledger equals one that remembers every posting: same facts, balance, bills and postings |
| `Deliveries.DailyCapHolds` | internal/sandbox/joint_delivery.go:230-236 | a day's spend of an entity is at most the largest daily budget in force that day |
| `Deliveries.LifetimeCapHolds` | internal/sandbox/joint_delivery.go:230-236 | under lifetime budgets the spend of the whole run is at most the largest of them |
| `Deliveries.BudgetsHold` | internal/sandbox/joint_delivery.go:230-236 | both caps hold of the engine with its pruned ledger, for every run |
| `Deliveries.PrepaidIsConserved` | internal/sandbox/rules.go:152-172 | over every run the balance stays non-negative, and the drops of balance and cash equal the reported spend |
| `Deliveries.BillsMatchFacts` | internal/sandbox/rules.go:163-171 | each day with spend has exactly one bill over what its facts report, other days none, other bills are unchanged |
| `Deliveries.FactTellsSpend` | internal/sandbox/joint_delivery.go:116-138 | an ad reports a whole number of ten-thousandths, less than one of them below what its candidates were served for |
| `Deliveries.ServedIsPaid` | internal/sandbox/rules.go:152-172 | over every run, what the ledger holds exceeds what facts report and what left balance and cash by less than a ten-thousandth per fact |
| `DeliveryUse.RunLeavesNothingIdle` | internal/sandbox/joint_delivery.go:230-236 | after every run, impressions won and not served are explained by a daily or lifetime budget that the run has used up, or a balance the hour has used up |
| `Reach.Model.Expose` | internal/sandbox/joint_delivery.go:484-505 | a cohort's state and its candidates' reach are updated as specified |
| `Reach.CreditIsExact` | internal/sandbox/joint_delivery.go:495-501 | the reach given to candidates sums to the new people, and none reaches more people than it has impressions |
| `Reach.IncrementalIsNearest` | internal/sandbox/joint_delivery.go:488-494 | the new people are the impressions or the new share of the people left, whichever is less, to the nearest person |
| `Reach.ImpressionsAreCounted` | internal/sandbox/joint_delivery.go:484-505 | the model counts every impression ever shown to a cohort |
| `Reach.ReachIsConserved` | internal/sandbox/joint_delivery.go:484-505 | from a fresh model a cohort's unique people stay within its reachable people and its impressions, and equal all reach ever credited |
| `Reach.FactsCarryTheReach` | internal/sandbox/joint_delivery.go:484-528 | the unique people of all cohorts together are the reach counted in the facts of all ads together |
| `Facts.Binomial` | internal/sandbox/causal_model.go:489-509 | successes lie between zero and the trials, with none at probability zero and all at one |
| `Facts.OrderValues` | internal/sandbox/causal_model.go:656-666 | reported conversions and revenue never exceed the true ones, and are equal when everything is tracked |
| `Facts.Materialize` | internal/sandbox/joint_delivery.go:516-530 | conversions stay within impressions, landings within clicks within impressions, each video stage within the one before; nothing happens without impressions |
| `Facts.ReportedAddUp` | internal/sandbox/causal_model.go:623-647 | reported figures add up over any division of the candidates |
| `Facts.ActualAddUp` | internal/sandbox/causal_model.go:623-647 | so do true figures |
| `Facts.FiguresOfOne` | internal/sandbox/joint_delivery.go:527-533 | one candidate adds its spend and funnel, with its reported or its true sales |
| `Facts.FactTells` | internal/sandbox/joint_delivery.go:116-138 | a fact has its candidates' figures, spend cut and revenue rounded, attributes every true conversion, and is visible when the delay is over |
| `Facts.GeneratedFactValidIff` | internal/sandbox/simulation.go:124-146 | a generated fact keeps these bounds with reported figures below true ones, and passes the restart's check exactly when its hour is whole |
| `Learning.LearnTwice` | internal/sandbox/causal_model.go:543-581 | looking again without a material change changes nothing |
| `Learning.ChangeForgets` | internal/sandbox/causal_model.go:569-578 | a material change never adds to what was learned and leaves at most 45 percent progress |
| `Learning.ChangedIff` | internal/sandbox/causal_model.go:569-591 | learning restarts exactly when the target changed or budget or bid moved by the configured share |
| `Learning.LearnKeeps` | internal/sandbox/causal_model.go:565-579 | otherwise nothing is forgotten; a restart keeps 35 percent up to a cap |
| `Learning.ProgressGrows` | internal/sandbox/causal_model.go:578-578 | progress grows with clicks and conversions, from nothing to complete at both thresholds |
| `Learning.LearnAll` | internal/sandbox/joint_delivery.go:74-81 | every ad group with an ad is learned from the same remembered state, others are left alone |
| `Learning.SavableIff` | internal/app/app.go:449-453 | the model can be encoded exactly when every ad group with an ad has a daily budget |
| `Metrics.AddIsLawful` | internal/ads/types.go:82-113 | adding metrics is associative and commutative with zero, missing values included |
| `Reports.CheckCoverage` | internal/sandbox/backend.go:294-326 | a report is complete exactly when its dates are known and each ad in scope has a seeded row or 24 facts on each of them |
| `Reports.MakeReport` | internal/sandbox/backend.go:272-385 | malformed and unknown queries are refused; otherwise the totals are the sum of the records, and the rows are the sums per entity and date, each once |
| `ReportTheorems.AnsweredIff` | internal/sandbox/backend.go:272-293 | a query is answered exactly when its dates are at most 93 days in order and what it asks for, if anything, exists at that level |
| `ReportTheorems.NothingLeaks` | internal/sandbox/simulation.go:193-202 | reports and rules show the same whatever unattributed facts hold of conversions and revenue |
| `ReportTheorems.AttributedIsShown` | internal/sandbox/simulation.go:193-202 | once all a query keeps is attributed, its totals are the sum of rows and facts as they are |
| `ReportTheorems.DeliveryIsShownAtOnce` | internal/sandbox/simulation.go:193-202 | spend, impressions, clicks, landings and views are in full at once |
| `ReportTheorems.OwnersOfAd` | internal/sandbox/backend.go:330-345 | a record counts for its ad, the ad group above it, the campaign above that, and the account |
| `ReportTheorems.LevelsAgree` | internal/sandbox/backend.go:330-385 | a window's totals are the same at every level |
| `ReportTheorems.EntitiesMakeUpTotal` | internal/sandbox/backend.go:330-385 | the totals of a level's entities add up to the level's totals |
| `ReportTheorems.WindowsMakeUpTotal` | internal/sandbox/backend.go:330-385 | adjacent windows add up to the window they make |
| `ReportTheorems.TotalsNeverDecrease` | internal/sandbox/simulation.go:149-202 | for a fixed window no total decreases as the clock advances, also past midnight, and facts are added |
| `ReportTheorems.RuleMetrics` | internal/sandbox/rules.go:87-130 | the loops compute the sum over matching rows and past facts |
| `ReportTheorems.RulesSeeWhatReportsSay` | internal/sandbox/rules.go:87-130 | at the clock and the half hour after it, a rule's metrics equal the report of its target and window |
| `ReportTheorems.CoveredIff` | internal/sandbox/backend.go:300-307 | once all hours of a generated date have their fact for an ad, the ad is covered exactly when the date has at least 24 hours |
| `ReportTheorems.SeededIff` | internal/sandbox/backend.go:294-299 | a date of the seed is covered exactly when the ad has a row, or 24 facts |
| `ReportTheorems.GeneratedCompleteIff` | internal/sandbox/backend.go:300-326 | so a report over generated dates is complete exactly when each of them has at least 24 hours |
| `ReportTheorems.ShortDayNeverComplete` | internal/sandbox/backend.go:300-326 | over a generated day of at most 23 hours a report never becomes complete |
| `Comparisons.PrecedesTransitive` | internal/ads/analysis.go:56-71 | the ranking order is transitive |
| `Comparisons.PrecedesTotal` | internal/ads/analysis.go:56-71 | the ranking order decides between any two entities |
| `Orders.LessSplits` | internal/ads/analysis.go:58-58 | of two names, the earlier one ends first or is smaller at their first difference |
| `Orders.SplitIsLess` | internal/ads/analysis.go:58-58 | and the other way round |
| `Comparisons.RoasKnownIff` | internal/ads/types.go:114-121 | a return is known exactly when revenue is and spend is not zero, and is their quotient |
| `Comparisons.FindingTells` | internal/ads/analysis.go:50-55 | a finding is the sum of its entity's rows with its return and its share of all spend |
| `Comparisons.AgreeingTotals` | internal/ads/analysis.go:46-46 | totals that pass for equal give the same return and counts |
| `Comparisons.Analyze` | internal/ads/analysis.go:30-76 | incomplete reports and wrong totals are refused, and nothing else; the ranking has each entity once, with its sum, worst known return first, unknown ones last, equal ones by name |
| `Comparisons.EntityRowsAreItsReport` | internal/sandbox/backend.go:330-385 | an entity's rows in a level's report add up to the entity's own report |
| `Comparisons.AnalyzeReport` | internal/ads/analysis.go:34-46 | analysis accepts a sandbox report, of the account or of one entity, exactly when it is complete; an account's ranks entities by their own reports' totals |
| `Contributions.Compare` | internal/ads/comparison.go:36-98 | every refusal in its order; otherwise one contribution for each entity of either window, in order of names |
| `Contributions.ComparableIff` | internal/ads/comparison.go:37-61 | reports can be compared exactly when complete, alike, of equal windows one before the other, with rows that make up their totals |
| `Contributions.PointsAreOwn` | internal/ads/comparison.go:71-95 | an entity's points are its own revenue against the spend of all, now and before, within a rounding each |
| `Contributions.ContributionsAddUp` | internal/ads/comparison.go:71-95 | the points sum to the change of return within two rounding errors per entity and two for the change |
| `Contributions.ExactContributionsAddUp` | internal/ads/comparison.go:71-95 | under exact division they sum to it exactly |
| `Contributions.RoundedContributionsAddUp` | internal/ads/types.go:114-121 | under sixteen-decimal division n entities miss it by at most (n + 1) units of the last decimal |
| `Contributions.KnownHasPoints` | internal/ads/comparison.go:71-95 | when the change is known, every entity has points |
| `Contributions.UnknownHasNoPoints` | internal/ads/comparison.go:71-95 | when it is unknown, none has |
| `Stream.StreamTurn` | web/src/api.ts:82-120 | the reading loop is the specified client, for any reads |
| `Stream.ChunksAreInvisible` | web/src/api.ts:86-110 | however text is cut into reads, an unfailed client is where one read of everything would take it |
| `Stream.EmitsWhatArrived` | web/src/api.ts:86-111 | for any cutting and any break, the client has emitted exactly the events whose frames arrived whole, and has not failed |
| `Stream.RoundTrip` | internal/httpapi/server.go:655-662 | reading what was printed emits exactly the sent events, and completes exactly when one of them completes the turn |
| `Stream.FrameLines` | internal/httpapi/server.go:657-658 | a frame is the event's number, the kind of the event and its encoding, a line each |
| `Numerals.DigitsRead` | internal/httpapi/server.go:658-658 | a number that was printed reads back as itself |
| `Stream.BadBlockFails` | web/src/api.ts:90-107 | a block that does not parse fails the client after the events before it |
| `Stream.EmptyBlockIgnored` | web/src/api.ts:90-107 | a block without data is passed over |
| `Stream.LargeFrameFails` | web/src/api.ts:108-109 | any frame over the bound can be cut so that the client fails |
| `Stream.ErrorAfter` | internal/httpapi/server.go:663-666 | the error frame fails an uncompleted turn, is ignored after a completed one, and loses no event |
| `Turns.Turn.Emit` | internal/agenthost/host.go:165-185 | events are stored and emitted with the next number, and nothing more once encoding or storing failed |
| `Turns.TurnsHaveLogs` | internal/agenthost/host.go:165-185 | what a turn emitted is numbered from one without gaps, whatever failed |
| `Replay.RedeliveryIsInvisible` | web/src/reducer.ts:43-57 | delivering events of a log again, at any moment and any number of times, does not change the picture |
| `Replay.StreamThenReplay` | web/src/reducer.ts:43-57 | reading a stream up to any point and then replaying the log shows what the log shows |
| `Replay.StreamedPicture` | web/src/api.ts:82-112 | from printed frames, cut and broken anywhere, and a replay, the browser reaches the picture of the stored log |
| `Replay.OtherTurns` | web/src/reducer.ts:45-57 | of other turns' events exactly the start of a turn gets through |
| `Replay.LateStartDisplaces` | web/src/reducer.ts:45-57 | after a late start of another turn, all further events of the running turn are ignored |
| `Replay.UpsertKeepsPlaces` | web/src/reducer.ts:36-42 | updating a card keeps every card's place; a new one comes last |
| `Replay.ReduceTidy` | web/src/reducer.ts:43-169 | no event makes two cards or two tools share an id, or a tool lose its place or get two |
| `Replay.AlwaysTidy` | web/src/reducer.ts:43-169 | this holds after every sequence of events |
| `Replay.TextIsShown` | web/src/reducer.ts:63-84 | until a turn completes, its text and the texts of its message items are both all its deltas in order |
| `Replay.CompletedShowsResult` | web/src/reducer.ts:148-165 | a completed turn shows exactly the result's cards, those on screen first and in order |
| `Screens.OnlyNewsIsShown` | web/src/reducer.ts:43-52 | a reset clears the picture; otherwise only newer events of the running turn, starts, or anything while none runs change it |
| `Screens.RunningPicture` | web/src/reducer.ts:53-147 | a running turn shows its last context, all its notes in order, and neither an end nor an error |
| `Screens.CardsAreLatest` | web/src/reducer.ts:85-99 | the cards on screen are the latest versions, each in the place of its first |
| `Screens.ToolsAreLatest` | web/src/reducer.ts:100-132 | a tool is on screen exactly when it was called, with all its latest call told |
| `Screens.ToolsKeepOrder` | web/src/reducer.ts:100-132 | tools have their places in the order of their first calls |
| `Screens.TextLands` | web/src/reducer.ts:63-84 | text goes on in the last message exactly when it belongs there, and begins a new one otherwise |
| `Screens.MessagesApart` | web/src/reducer.ts:63-84 | two messages side by side are never one message torn apart |
| `Screens.CompletionShown` | web/src/reducer.ts:148-165 | a completion takes over status, text, error and time, and leaves tools, messages, notes and context alone |
| `Screens.PlaceholdersGo` | web/src/reducer.ts:148-165 | a result without cards keeps all cards but placeholders |
| `Conversations.Conversation` | internal/store/conversation.go:85-171 | a page is the greedy one before its cursor, and an unknown cursor is an error |
| `TurnViews.TurnsInOrder` | internal/store/conversation.go:85-93 | the turns of a session are those of its messages, by their first ones |
| `TurnViews.TurnIsWhole` | internal/store/conversation.go:85-93 | a turn has all its messages in order |
| `TurnViews.UnknownCursorRefused` | internal/store/conversation.go:94-105 | a request is refused exactly when its cursor is not in the session |
| `TurnViews.PageGoesBack` | internal/store/conversation.go:107-170 | a page goes back as far as it fits and names its oldest turn unless nothing is older |
| `Conversations.ProjectTurn` | internal/store/conversation.go:109-159 | a turn is cut, filled, stripped and halved as specified |
| `TurnViews.KeptIsPublic` | internal/store/conversation.go:110-121 | a turn shows its user and assistant messages in order, up to 2000 characters each |
| `TurnViews.EventsShown` | internal/store/conversation.go:122-146 | it shows its first three small cards, first twelve tools and last small context, and is marked exactly when that or a message is not all |
| `TurnViews.MarkedIffCut` | internal/store/conversation.go:109-159 | a page leaves something of a turn out exactly when the turn is marked |
| `TurnViews.HalvedTexts` | internal/store/conversation.go:153-159 | halvings take text from the ends, and nothing else |
| `TurnViews.TrimIsLeast` | internal/store/conversation.go:153-159 | there are as many halvings as needed and no more |
| `Conversations.TrimmingEndsIff` | internal/store/conversation.go:153-159 | the halving loop ends exactly when the turn is small or its frame without text is |
| `Conversations.TwoMessagesSuffice` | internal/store/conversation.go:148-159 | it ends for every turn with at most two messages whose frames are not huge |
| `Conversations.FollowFrom` | internal/store/conversation.go:107-170 | reading on from any turn shows all earlier ones once, in order, in pages that fit and are never empty, and ends |
| `Conversations.PagesPartitionHistory` | internal/store/conversation.go:85-171 | following the cursor from the newest page visits every turn exactly once in order; every page has one to six turns and at most 24000 bytes |
| `ReviewLines.VisitAgrees` | internal/ads/operation_preview.go:25-74 | a review shows no difference exactly when every leaf of the request, at any depth, is there |
| `ReviewLines.FlatLines` | internal/ads/operation_preview.go:25-74 | a flat request has one line per field, in order, with what is there and what is asked |
| `ReviewLines.ObjectLines` | internal/ads/operation_preview.go:25-74 | an object inside a request adds its name and compares with the object there |
| `Encodings.AgreesWhenSame` | internal/ads/operation_preview.go:25-74 | with blank fields left out, that is exactly when every given field is equal |
| `Operations.GroupReview` | internal/sandbox/operation_readback.go:17-24 | an ad group's review matches exactly when all given settings are current |
| `Operations.AdReview` | internal/sandbox/operation_readback.go:17-24 | the same of an ad's creative |
| `Operations.Backend.UpdateAdGroup` | internal/sandbox/operations.go:284-298 | an update that is still valid writes the budget and merges the settings; otherwise nothing changes |
| `Operations.Backend.UpdateAd` | internal/sandbox/operations.go:299-306 | the same of an ad's creative |
| `Operations.GroupRoundTrip` | internal/sandbox/operations.go:509-538 | an acknowledged ad group update reads back as done |
| `Operations.LiveBudgetShows` | internal/sandbox/operations.go:284-298 | an update writes the live budget it gives, and reading back shows the live budget |
| `Operations.GroupUntouched` | internal/sandbox/operations.go:509-538 | what an update does not give is as it was, in this group and everywhere else |
| `Operations.ReconciledGroupIsThere` | internal/sandbox/operations.go:401-412 | an ad group update read back as done has every given setting in force |
| `Operations.ReconciledAdIsThere` | internal/sandbox/operations.go:413-421 | the same of a creative update |
| `Operations.AdRoundTripIff` | internal/sandbox/operations.go:539-558 | an acknowledged creative update reads back as done exactly when types come with ids or were in force |
| `Operations.AdUntouchedIff` | internal/sandbox/operations.go:539-558 | it leaves the rest untouched exactly when ids come with types or there was no type |
| `Operations.TypesMatter` | internal/sandbox/operations.go:539-558 | concrete requests that fail either way |
| `Bundles.Backend.ApplyBundle` | internal/sandbox/operations.go:257-283 | objects are created in order up to the first refusal, and the outcome names them |
| `Bundles.Backend.Reconcile` | internal/sandbox/operation_readback.go:26-73 | reading back succeeds exactly when everything requested exists once, switched off, below its parent |
| `Bundles.StandsOff` | internal/sandbox/operations.go:257-283 | what reads back is a campaign, its ad group and its ads, switched off, with the names, money and settings asked for |
| `Bundles.BundleRoundTrip` | internal/sandbox/operations.go:257-283 | a bundle is acknowledged exactly when nothing was refused, and then reads back as done |
| `Bundles.BundleUntouched` | internal/sandbox/operations.go:257-283 | however far a bundle gets, nothing outside the objects its outcome names is touched |
| `Policies.ValidateIff` | internal/ads/changes.go:80-118 | exactly the changes of the one field within all limits are accepted |
| `Policies.ValidateStatusIff` | internal/ads/changes.go:106-118 | a status change is accepted exactly when it changes the status alone |
| `Policies.CheckNewIff` | internal/agenthost/operation_policy.go:14-25 | a new budget passes exactly within limits that are configured |
| `Policies.CheckUpdateIff` | internal/agenthost/operation_policy.go:26-40 | an ad group update passes exactly when it gives no budget, the same one within the limits, or an allowed change |
| `Policies.AcceptedTakesEffect` | internal/sandbox/operations.go:257-298 | what is accepted takes effect and what is not changes nothing |
| `Policies.EveryPathIsLimited` | internal/agenthost/operation_policy.go:13-60 | whatever changes an existing budget, change, operation or rule, keeps to the policy of that moment |
| `Policies.BudgetDriftIsBounded` | internal/sandbox/rules.go:55-77 | after n changes of at most d percent a budget lies between b0 (1 - d/100)^n and b0 (1 + d/100)^n |
| `Policies.NewBudgets` | internal/agenthost/operation_policy.go:44-48 | an entity that appears with a bundle keeps to the policy of that step; with a plain creation it is what was requested |
| `Policies.StepLimitedIff` | internal/agenthost/operation_policy.go:11-60 | a step keeps all budgets within the limits exactly when it is no accepted plain creation with a budget outside them |
| `Policies.RunLimitedIff` | internal/agenthost/operation_policy.go:11-60 | so do the steps of a whole run, at every moment |
| `Policies.CreationIsNotLimited` | internal/agenthost/changes.go:89-132 | a plain creation may bring any budget above the maximum; a bundle with such a budget, in either part, does nothing |
| `Restarts.Backend.RestoreEntity` | internal/sandbox/backend.go:390-412 | an entity is installed exactly when it is valid and new below its parent, or differs only in budget and status |
| `Restarts.Backend.InstallSimulation` | internal/sandbox/simulation.go:85-122 | clock, model and sorted facts are installed exactly when all are acceptable and no ad has two facts of an hour |
| `Restarts.Backend.InstallOperations` | internal/sandbox/operations.go:63-92 | the state of operations is refused when incomplete or of another account; rules without a definition are switched off, others kept |
| `Restarts.RestoreIff` | internal/sandbox/backend.go:390-412 | a stored entity is installed exactly when well formed, and new below its parent or known and changed in budget and status alone |
| `Restarts.RestoreSimulationIff` | internal/sandbox/simulation.go:85-122 | a stored simulation is installed exactly when its clock, model and facts are acceptable, and then its facts are the stored ones in order |
| `Restarts.SaveIff` | internal/store/store.go:413-446 | an advance is saved exactly when its model can be encoded, the stored clock is where it started and no fact is stored twice; then all of it is |
| `Restarts.RestoreOperationsIff` | internal/sandbox/operations.go:63-92 | the state of operations is installed exactly when complete and of the account, with undefined rules off |
| `Restarts.Backend.LoadFrom` | internal/app/app.go:184-258 | loading succeeds and fails as specified, whatever the stored order |
| `Restarts.Backend.AdvanceStored` | internal/app/app.go:377-398 | one request loads, simulates the hours and saves, or changes nothing stored |
| `Restarts.EntitiesComeBack` | internal/app/app.go:208-220 | restoring stored entities, parents first, gives back the sandbox's entities |
| `Restarts.SortedIsUnique` | internal/sandbox/simulation.go:114-119 | the same facts have only one sorted list |
| `Restarts.LoadGivesBack` | internal/app/app.go:184-258 | loading what is stored gives back the sandbox exactly if the start was a whole hour or there is no fact, and fails otherwise |
| `Restarts.HourFactsFit` | internal/sandbox/simulation.go:162-187 | an hour's generated facts are sorted, of that hour, and each acceptable after a restart exactly when the start was a whole hour |
| `Restarts.AdvanceIsStored` | internal/app/app.go:449-471 | whoever loaded the stored state can save its advance exactly when its model can be encoded, and then it is stored |
| `Restarts.AdvanceSavedIff` | internal/app/app.go:449-453 | that is exactly when every ad group the last hour looked at has a daily budget |
| `Restarts.RestartIsInvisible` | internal/app/app.go:377-398 | of an advance, exactly when it can be saved and loaded is known; if both, going on after the restart is going on without it |
| `Restarts.OneAdvanceCommits` | internal/store/store.go:413-446 | of two advances from one stored clock the second to save is refused |

## Left out

- The HTTP client, OAuth, credentials, login, runtimes, prompts, skills, memory and the user interface: plumbing without further state.
- Floating-point rounding: floats are real numbers, and only the sixteen-decimal division is rounded.
- Machine integers: counts are unbounded, so overflow of 64-bit products is not modelled.
- JSON, hashes and UTF-8: codecs give back what was encoded, versions are equal exactly for equal objects, and streams are cut between characters; the client's limit counts characters where a browser counts UTF-16 units.
- SQL: each transaction is one atomic step; failures of the database itself appear only as crashes.
- Random distributions, `exp`, `log` and the market model: only ranges are assumed, and of `log1p` and `expm1` that they climb and the first undoes the second.
- Eligibility, pacing, calibration and selection within an ad group: they decide which candidates an hour has, and the results hold for all candidates.
- Calendars: local days are a map from instants, assumed not to run backwards where the ledger is concerned.
- The limitations texts of reports, calculations and comparisons.
- The order of a report's rows: rows are proved to be one per entity and date, in some order.
- Reach in reports, creative cohorts and traces: not added and not used by the other results.
- Comments, audiences, automated rule definitions, event sources: their creation and read-back are one map update and one lookup each.
- The limit of 8760 generated hours in all, report slots, delegates and card limits of a turn: one comparison each.
- The message and attempt limits of `Stage` and the fifteen-minute freshness of reads: one comparison each.
- Restarts.RestartIsInvisible: of the simulation of an hour it assumes that only budgets and statuses of entities change, that rules and their definitions stay, and that the model is sound.
- Reports.MakeReport: the contract does not state the order of rows, and reach is not among the metrics.
- BudgetUse.NoIdleBudget: assumes that an ad group belongs to one campaign, as the hierarchy has it.
- ChangeTheorems.LiveAttemptsKeepTheirRow: holds of runs in which every attempt stops before its lease ends, which the source arranges with timeouts but does not check.
- Conversations.PagesPartitionHistory: assumes that every turn can be trimmed, which `Conversations.TrimmingEndsIff` characterizes, and that ids are not empty and short against a page.
