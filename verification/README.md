# Household ledger: analysis kernel, ledger writes and two standalone algorithms

The repository keeps a household's finances as a timeline of activities with daily valuation
snapshots. This project models the parts whose correctness is an identity over arbitrary
histories or interleavings, and proves them. `dafny verify dfyconfig.toml` covers all of it.

| part | modules |
|---|---|
| attribution of a day's change in value | `Classifier`, `ClassifierLaws`, `ConversionUndo`, `TransferLaws`, `Bridges`, `BridgeExamples`, `HoldingWorth`, `CashBridge`, `ComponentDays`, `CivilDays` |
| rounding, reconciliation and the precision certificate | `MoneyRounding`, `Waterfall`, `AttributionProof`, `AcceptedDays`, `AcceptedActivities` |
| returns and capital, of the universe and of its groups | `CapitalLaws`, `DayCapital`, `GroupCapital`, `GroupExamples`, `DailyReturns`, `ReturnFold` |
| analysis memo, quote selection, quote planning | `AnalysisMemo`, `AnalysisRuns`, `QuoteSelection`, `QuotePlan` |
| ledger writes and the activity timeline | `WriteGate`, `LedgerWrites`, `LedgerRuns`, `ActivityReplay`, `Timeline`, `TimelineSafety`, `HistoricalEntry` |
| JSON Schema rewrite, test shards | `JsonSchema`, `NullableSchema`, `TestShards` |
| shared | `AnalysisModel`, `Sums`, `Sorting` |

Amounts, prices, quantities and rates are exact reals; amounts after the Money boundary are
whole units of 0.0001. Code that works step by step is a method with the source's loops and early
exits, proved against a specification function or predicate; the theorems are lemmas about that
specification. Clocks, new identities, time zones, stored facts and what a command builds are
parameters. Concurrency is a deterministic step function over one action at a time; the theorems
quantify over every sequence of actions.

## Where the code does less than one might expect

Each of these is a lemma with the exact condition, a concrete input, or both.

- Units that leave at their carrying value on a day that has other segments are still marked to
  the close; the unexplained amount then holds a distortion (exact in `Bridges.HoldingUnexplained`,
  a day in `BridgeExamples.RemovalBesideATrade`). A reconciled day is free of it if and only if
  nothing left in all, or a lone opening position lost the units, or a unit was worth at the opening
  what it is marked from (`Bridges.ReconciledExactlyWhen`).
- A day is read as a split by all its unpriced adjustments together, while each of them is counted
  or not by itself. A split recorded as several removals is then counted as an adjustment as well,
  and its amount is unexplained (`BridgeExamples.SplitRecordedAsRemovals`, exact condition in
  `Bridges.SplitIsExplained`).
- The groups of a day do not always count the capital of the universe. They agree for trades; for
  other movements inside the investment universe they differ by a gap: what a cash transfer
  receives less what it sends and pays in fees, the fees of a conversion at known rates, and for
  units what they are worth where they arrive less what they were worth where they left
  (`CapitalLaws.GroupsCountTheGap`, when it is zero in `TransferLaws.AgreesExactlyWhen`, one movement
  of each kind in `TransferLaws.FeeOfATransferIsMissed`, `TransferLaws.SpreadOfATransferIsMissed`,
  `TransferLaws.FeeOfAConversionIsMissed` and `TransferLaws.GainOfMovedUnitsIsCounted`). Over a whole
  day the capital of the groups is that of the universe and the weighted gaps, less what belongs to
  component days without a value (`GroupCapital.GroupsCountTheUniverse`). A purchase paid from a
  component without a value shows the last term: the groups count ten more
  (`GroupExamples.TradeWithAnUnvaluedPurse`).
- Only a conversion tells its spread apart. A transfer between two currencies leaves its spread
  among the neutral legs, which then do not cancel (`TransferLaws.SeenTransferAddsItsGap`).
- A batch insertion compares the requested instant before it is truncated to milliseconds. With a
  tied activity that was created later, the timeline leaves its order
  (`HistoricalEntry.ClockGoingBackBreaksOrder`, exact condition in `TimelineSafety.BatchOrder`).
- A single historical entry and a batch of one put an activity on different sides of a tied one
  that was created later (`HistoricalEntry.EntryDiffersFromBatch`, two such timelines in
  `HistoricalEntry.TiedEntryGoesElsewhere`).
- A preview token is about permits that ended: a permit that writes something else first can still
  commit under an earlier token (`LedgerRuns.LaterWritesOfTheSamePermitGoUnseen`).
- The memo key trims the asset-class filter and the selection does not, so a blank filter can be
  answered with the result of the trimmed one (`AnalysisRuns.BlankFilterAnswersAnother`). The
  interface that builds filters trims them first, and then hits are exact
  (`AnalysisRuns.SettledHitIsCurrent`).
- The nullable rewrite turns a union of null alone into a branch without a type
  (`NullableSchema.NullAloneIsWidened`), and gives null to a union of several types whose listed
  values left it out (`NullableSchema.ListedUnionIsWidened`, exact condition in
  `NullableSchema.NarrowsExactlyWhenNullWasAdmitted`).

## Model

| member | source | states |
|---|---|---|
| Bridges.WalkOne | internal/application/analysis_daily.go:1036-1088 | one event of the holding walk has the effect of the specified step: trades once per activity, priced adjustments and movements, units leaving at carrying value |
| Bridges.WalkDay | internal/application/analysis_daily.go:1036-1088 | the day's loop is the fold of those steps and stops at the first unpriced event |
| Bridges.MarkToClose | internal/application/analysis_daily.go:1097-1127 | every segment is marked to the closing price and rate, or the bridge is partial when one cannot be converted |
| Bridges.CorporateActionRestatement | internal/application/analysis_daily.go:1130-1157 | the loop over the day's effects decides whether its unpriced adjustments are a split |
| Bridges.CloseSegments | internal/application/analysis_daily.go:1089-1099 | a lone segment is restated for a split, then shortened by what left; the bridge is partial when more left than it has |
| Bridges.ComputeHoldingBridge | internal/application/analysis_daily.go:973-1128 | the program's bridge with its early exits is the specified one |
| Bridges.HoldingUnexplained | internal/application/analysis_daily.go:999-1127 | on any day that is bridged to the end, from a first purchase to a split, the unexplained amount is exactly the quantity gap at the closing value, plus what effects were counted short of their worth, plus the distortion of units that left or of a restatement |
| Bridges.TradeOnlyDay | internal/application/analysis_daily.go:999-1127 | with trades only, also without any earlier quote, the unexplained amount is the unaccounted quantity at closing price and rate |
| Bridges.ReconciledDay | internal/application/analysis_daily.go:999-1127 | when quantities reconcile, effects are counted at their worth and the day does not read as a split, price, FX and effects are the change in value |
| Bridges.ReconciledExactlyWhen | internal/application/analysis_daily.go:999-1127 | a reconciled day that does not read as a split is explained if and only if the units leaving at their carrying value net to nothing, or left a lone opening position, or a unit was worth at the opening what it is marked from |
| Bridges.SplitIsExplained | internal/application/analysis_daily.go:1086-1157 | on a day read as a split price and FX are the change in value up to what left; the day is explained if and only if its effects count exactly the closing worth of what left less its restated opening worth, which is nothing when nothing left |
| BridgeExamples.SplitRecordedAsRemovals | internal/application/analysis_daily.go:1086-1157 | a reverse split recorded as two removals: no price change, no change in value, and fifty counted out of it |
| BridgeExamples.RemovalBesideATrade | internal/application/analysis_daily.go:1036-1099 | units that leave beside a purchase on a reconciled day leave a residual of ten |
| HoldingWorth.LegCountsItsWorth | internal/application/analysis_classifier.go:514-558 | what the classifier counts for a trade with gross equal to quantity times price, a priced adjustment, units moved in or out and a carrying removal is what the bridge takes it to be worth |
| HoldingWorth.ClassifiedAtWorth | internal/application/analysis_classifier.go:83-157 | so the classified effects of a holding's day are counted at their worth, return-only ones included |
| HoldingWorth.ClassifiedDayReconciles | internal/application/analysis_daily.go:973-1128 | a reconciled day is explained by the classified amounts, without an assumption about them |
| CashBridge.WalkMovements | internal/application/analysis_daily.go:920-968 | the loop adds the FX effect of every movement between its rate and the closing one, and is partial on an unknown amount or rate |
| CashBridge.ComputeCashBridge | internal/application/analysis_daily.go:874-971 | the program's cash bridge is the specified one |
| CashBridge.CashUnexplained | internal/application/analysis_daily.go:874-971 | the unexplained amount of a cash day is exactly the native gap at the closing rate plus what movements were counted short |
| ComponentDays.AddEffects | internal/application/analysis_daily.go:303-318 | known effects add up by bucket, in total, and as neutral legs |
| ComponentDays.CloseDay | internal/application/analysis_daily.go:369-494 | the bridge joins the effects and a residual is recorded exactly when the rest exceeds the tolerance |
| ComponentDays.AttributeDay | internal/application/analysis_daily.go:303-495 | one component-day from its effects and the bridge of its kind |
| ComponentDays.DayConserves | internal/application/analysis_daily.go:303-495 | buckets and neutral legs are the change in value: exactly with a residual, within the tolerance without |
| ComponentDays.ReconciledHoldingDay | internal/application/analysis_daily.go:364-495 | a reconciled holding day that does not read as a split leaves nothing unexplained |
| ComponentDays.SplitDayUnexplained | internal/application/analysis_daily.go:364-495 | a day read as a split leaves unexplained what left it less what its effects count |
| ComponentDays.CashResidualIsNativeGap | internal/application/analysis_daily.go:364-495 | what a cash day leaves unexplained is its native gap at the closing rate |
| Classifier.AttributeInternalFXDifference | internal/application/analysis_classifier.go:574-608 | the loop and the edit in place are the specified separation of the spread |
| Classifier.CollectEndpoints | internal/application/analysis_classifier.go:68-77 | the components an activity touches, in order |
| Classifier.ClassifyActivity | internal/application/analysis_classifier.go:83-157 | the classification pass is the specified one, physical and return-only sides and spread included |
| Classifier.SpreadKeepsTotals | internal/application/analysis_classifier.go:574-608 | separating the spread makes neutral cash legs cancel, keeps the total of all amounts, and changes no bucket but the spread's |
| Classifier.NeutralLegsCancelExactly | internal/application/analysis_classifier.go:574-608 | neutral cash legs cancel exactly when they did before or the spread can be told: two known legs, one receiving |
| ClassifierLaws.UndoCancels | internal/application/analysis_classifier.go:32-58 | an activity and its undo at the same rates cancel in every bucket, every return component and the Dietz capital |
| ClassifierLaws.ConversionUndoCancels | internal/application/analysis_classifier.go:32-157 | a conversion and its undo at the same rates cancel in every bucket, the spread included |
| ConversionUndo.BoundaryUndoCancels | internal/application/analysis_classifier.go:32-157 | a conversion whose spread is not looked for, across the boundary or in native valuation, cancels with its undo in every measure that is odd in the amounts |
| ConversionUndo.ConversionUndoLeaves | internal/application/analysis_classifier.go:32-157 | otherwise the pair leaves in the spread's return component, and takes from the capital, the spread as far as its two receivers are invested; every other return component cancels |
| ConversionUndo.ConversionUndoCancelsExactly | internal/application/analysis_classifier.go:32-157 | the pair cancels in every return component, and in the capital, if and only if no spread is told apart, or none is there, or both receivers are invested alike |
| ConversionUndo.SidesAreInvestedAlike | internal/application/analysis_universe.go:272-281 | cash is selected by its account, so both sides of a conversion inside the universe are invested or neither is |
| ConversionUndo.RecordedConversionCancels | internal/application/analysis_classifier.go:32-157 | in the universe that the analysis selects, a recorded conversion cancels with its undo in every bucket, every return component and the capital |
| ClassifierLaws.LegsCancel | internal/application/analysis_classifier.go:32-137 | before the spread is separated they cancel in every measure that is odd in the amounts |
| CapitalLaws.ExternalCapitalAgrees | internal/application/analysis_classifier.go:350-407 | outside an internal movement the groups count the same capital as the universe |
| CapitalLaws.TradeCapitalCancels | internal/application/analysis_classifier.go:350-407 | the legs an internal trade or its undo keeps for re-grouping cancel, its fee being performance |
| CapitalLaws.ConversionCapitalIsItsFee | internal/application/analysis_classifier.go:350-407 | the legs an internal conversion keeps leave its fees when the spread is told apart, and what a transfer leaves otherwise |
| CapitalLaws.DebtsAreExternal | internal/application/analysis_classifier.go:350-407 | a draw or payment of debt is never internal to the investment universe |
| CapitalLaws.GroupsCountTheGap | internal/application/analysis_classifier.go:350-407 | for every kind of activity the groups count the universe's capital and, inside the investment universe, the exact gap of the kind: none, received less sent and fees, fees, or worth on arrival less worth on leaving |
| TransferLaws.AgreesExactlyWhen | internal/application/analysis_classifier.go:350-407 | the gap of a movement is zero if and only if what is received is worth what is sent and the fee, the conversion has no fee, or the units are worth as much where they arrive |
| TransferLaws.TransfersCountAtTheBoundary | internal/application/analysis_classifier.go:420-493 | a cash transfer, in one or two currencies and with or without a fee, adds what the universe sees of it: the fee as a fee, the principal as an external flow across the boundary and as neutral legs inside |
| TransferLaws.SeenTransferAddsItsGap | internal/application/analysis_classifier.go:148-157 | inside the universe it adds what is received less what is sent and paid, and its neutral legs add up to what is received less what is sent |
| TransferLaws.FeeOfATransferIsMissed | internal/domain/change.go:1098-1160 | a same-currency transfer with a fee of one: the groups count one less than the universe |
| TransferLaws.SpreadOfATransferIsMissed | internal/domain/change.go:1098-1160 | twenty are sent in one currency and nineteen arrive in another: the groups count one less and the neutral legs do not cancel |
| TransferLaws.FeeOfAConversionIsMissed | internal/domain/change.go:1162-1217 | a conversion with a fee of one: the groups count one less |
| TransferLaws.GainOfMovedUnitsIsCounted | internal/application/analysis_classifier.go:534-555 | units worth ten where they leave and twelve where they arrive: the groups count two more |
| DayCapital.CollectCapital | internal/application/analysis_daily.go:301-362 | a component day's loop keeps the universe's flows, their weighted total, and the attributed effects with the kept leg of those that are no flow |
| DayCapital.GroupCapitalOfDay | internal/application/analysis_return.go:315-389 | what a group counts for a built component day is its part of the universe's capital and the weighted extra of its legs |
| GroupCapital.EffectsOfComponent | internal/application/analysis_daily.go:117-132 | the activities of a day are classified and their effects picked by component |
| GroupCapital.GroupsCountTheUniverse | internal/application/analysis_return.go:315-389 | for any activities of a day and any grouping, the Dietz capital of all groups is the daily capital of the universe plus the weighted gaps of the movements inside it, less what belongs to component days without a value |
| GroupCapital.TradesRegroupExactly | internal/application/analysis_return.go:93-141 | on a fully valued day whose internal movements are trades, the groups count exactly the capital the universe publishes |
| GroupExamples.TradeWithAnUnvaluedPurse | internal/application/analysis_return.go:315-389 | a purchase of ten paid from a component without a value: the groups count ten more than the universe |
| DailyReturns.DailyReturnOf | internal/application/analysis_return.go:87-141 | amount, invested capital, rate and status of a date from its component days and their weighted flows |
| DailyReturns.FinalizeAnalysisReturns | internal/application/analysis_return.go:34-181 | the daily series and the return, capital, status and linked rate of the period; a date without bounds ends it and a skipped one returns nothing |
| DailyReturns.AggregateDailyReturnRate | internal/application/analysis_return.go:13-28 | complete rated dates are linked, and at least half of the dates must be rated |
| DailyReturns.RowsSplitPeriodReturn | internal/application/analysis_return.go:143-158 | the rows of any grouping add up to the published return of the period |
| CivilDays.CivilDateCutoffAtOrBefore | internal/application/analysis_civil_date.go:32-45 | the bounded lookback finds the nearest existing date or fails after two skipped ones |
| CivilDays.PreviousExistingCivilDateLabel | internal/application/analysis_civil_date.go:50-64 | the nearest existing date strictly before a label |
| CivilDays.CivilDayBounds | internal/application/analysis_civil_date.go:69-88 | a day runs from just after the previous existing cutoff to its own |
| CivilDays.BoundsFailOnLongSkips | internal/application/analysis_civil_date.go:69-88 | an existing day has no bounds exactly when the three labels before it did not exist |
| CivilDays.DaysMeet | internal/application/analysis_civil_date.go:69-88 | consecutive existing days meet without gap or overlap |
| CivilDays.EveryInstantHasOneDay | internal/application/analysis_civil_date.go:32-88 | every instant lies in exactly one civil day |
| CivilDays.WeightFallsOverTheDay | internal/application/analysis_return.go:204-217 | a flow's weight is in [0,1], never rises over the day, and is one at its start and zero at its end |
| CivilDays.WalkDate | internal/application/analysis_daily.go:101-149 | one turn of the walk: it fails exactly when the day bounds or the preceding existing date cannot be found; a skipped date leaves the rolling baseline alone and an unobserved existing day clears it |
| CivilDays.WalkPeriod | internal/application/analysis_daily.go:81-152 | the walk succeeds exactly when every date of the period resolves; then every label is computed from the items of the nearest preceding existing day, and a missing observation is never bridged |
| CivilDays.ChangesTelescope | internal/application/analysis_daily.go:81-152 | over a fully observed period the changes computed from the inputs of the walk add up to the value it ends with less the one it started from, whatever labels were skipped |
| MoneyRounding.DecimalAtMoneyBoundary | internal/application/exact_rational.go:22-40 | truncated quotient and doubled remainder give the half-even nearest unit |
| MoneyRounding.HalfEvenIsUnique | internal/application/exact_rational.go:22-40 | that unit is the only one within half a unit, even at a tie |
| MoneyRounding.HalfEvenIsOdd | internal/application/exact_rational.go:22-40 | rounding a negated amount negates the rounded one |
| MoneyRounding.HalfEvenIsMonotone | internal/application/exact_rational.go:22-40 | rounding keeps order |
| Waterfall.AggregateAssetWaterfall | internal/application/analysis_projections.go:301-323 | every bucket holds the sum of the days' exact amounts, or of their rounded ones when a day has none |
| Waterfall.ReconcileToChange | internal/application/analysis_projections.go:339-373 | rows add up to the reported change whenever the exact total rounds to it; only a largest row moves, by at most (n+1)/2 units |
| Waterfall.ReconcileDimensionAmounts | internal/application/analysis_projections.go:515-553 | the parts of a row add up to it, only a largest part moving |
| Waterfall.FoldAssetDriverDetail | internal/application/analysis_projections.go:444-513 | the account rows and the instrument rows of a driver each add up to its waterfall row |
| AttributionProof.ReadBoundaries | internal/application/financial_attribution_precision.go:18-60 | boundary totals, exact and rounded, of every usable snapshot date |
| AttributionProof.ProveDays | internal/application/financial_attribution_precision.go:76-109 | accepts exactly when every component-day agrees with its boundaries and reconciles, and sums the drivers by date |
| AttributionProof.ProveAttributionPrecision | internal/application/financial_attribution_precision.go:17-125 | accepts exactly the inputs whose endpoints, change, component-days and dates all reconcile |
| AttributionProof.DriversExplainPeriod | internal/application/financial_attribution_precision.go:97-124 | acceptance implies that the exact drivers of all days are the change in net worth of the period |
| AttributionProof.NeutralLegsCancel | internal/application/financial_attribution_precision.go:62-109 | acceptance implies that the neutral legs of every date cancel |
| AcceptedDays.KernelDayReconciles | internal/application/financial_attribution_precision.go:76-109 | the certificate's test accepts a day as the kernel builds it if and only if the day leaves nothing unexplained or records it as a residual |
| AcceptedDays.DateReconcilesExactlyWhen | internal/application/financial_attribution_precision.go:110-124 | when its days reconcile, a date does if and only if its neutral legs cancel |
| AcceptedDays.KernelDaysAreAccepted | internal/application/financial_attribution_precision.go:17-125 | the certificate accepts the kernel's days of a period if and only if each leaves nothing and the neutral legs of every date cancel |
| AcceptedActivities.TradeBalances | internal/application/analysis_classifier.go:83-157 | the neutral legs of a trade inside the universe cancel |
| AcceptedActivities.ConversionBalances | internal/application/analysis_classifier.go:574-608 | so do those of a conversion inside it that tells its spread, which a recorded one at known rates does |
| AcceptedActivities.ClassifiedDayIsKernelDay | internal/application/financial_attribution_precision.go:62-109 | a day built from the classified effects of its component and the certificate agree about its neutral legs |
| AcceptedActivities.HouseholdIsAccepted | internal/application/financial_attribution_precision.go:17-125 | for a household whose internal movements are such trades and conversions, the days built from its activities are accepted if and only if each leaves nothing or records what it leaves |
| AttributionProof.PrecisionIsBounded | internal/application/financial_attribution.go:306-325 | rounding the drivers costs at most eleven half units, and at most one when the exact change rounds to the reported one |
| AttributionProof.ProjectFinancialAttribution | internal/application/financial_attribution.go:251-332 | what is published as compatible is accepted, adds up to the exact change, and has a precision adjustment within those bounds |
| ReturnFold.FoldByBucketsAndSort | internal/application/analysis_return.go:268-400 | the general fold gives the one specified result: errors, and one row a group in key order |
| ReturnFold.CanFoldChronologically | internal/application/analysis_return.go:402-419 | admits the one-pass fold exactly when eligible days are in date order and carry no flow |
| ReturnFold.FoldChronologically | internal/application/analysis_return.go:421-523 | the one-pass fold gives the same specified result |
| ReturnFold.FoldIsUnique | internal/application/analysis_return.go:268-523 | the specification admits one result, so the two folds agree in rows, rates, coverage, status and errors |
| ReturnFold.FoldReturnGroups | internal/application/analysis_return.go:268-523 | the published fold is that result whichever path it takes |
| ReturnFold.RowsSplitReturn | internal/application/analysis_return.go:315-389 | whatever the grouping, the rows split the return amount of the eligible days exactly |
| ReturnFold.GroupsSplitCapital | internal/application/analysis_return.go:315-389 | on every date the fold's own capital of all eligible days splits over the groups; the universe's is related to it in GroupCapital |
| AnalysisMemo.AnalysisMemo.MemoResult | internal/application/analysis_service.go:172-188 | a hit is the first matching entry and moves to the front; a miss changes nothing |
| AnalysisMemo.AnalysisMemo.Memoize | internal/application/analysis_service.go:196-219 | an older generation publishes nothing; otherwise entries are inserted last first, keys stay distinct and two are kept |
| AnalysisMemo.AnalysisMemo.Invalidate | internal/application/analysis_service.go:223-231 | drops every entry and advances the generation |
| AnalysisMemo.InsertKeeps | internal/application/analysis_service.go:206-215 | inserting keeps distinct keys of one generation, the new entry and every entry of another key |
| AnalysisRuns.StepKeeps | internal/application/analysis_service.go:60-231 | every step of computations, writes and invalidations keeps the memo's invariant |
| AnalysisRuns.HitIsNoOlderThanInvalidation | internal/application/analysis_service.go:103-231 | in every run a hit is explained by inputs read no earlier than the last invalidation, and only a native fallback call is answered in base valuation |
| AnalysisRuns.SettledHitIsCurrent | internal/application/analysis_service.go:60-231 | once the last write was invalidated, a hit is exactly what an uncached load of the current inputs answers, torn loads notwithstanding, if the queries that are asked are told apart by their keys |
| AnalysisRuns.BlankFilterAnswersAnother | internal/application/analysis_service.go:258-270 | a run in which a filter with blanks hits the result of the trimmed one, and an uncached load answers something else |
| AnalysisRuns.MemoIsLeastRecentlyUsed | internal/application/analysis_service.go:172-219 | the memo holds the two most recently used keys in order of last use |
| QuoteSelection.CurrentQuoteSelection.Add | internal/application/current_quote_selection.go:25-52 | keeps the best quote of its class under the class's order |
| QuoteSelection.CurrentQuoteSelection.Selected | internal/application/current_quote_selection.go:54-68 | compares the class representatives |
| QuoteSelection.AddAllKeepsBest | internal/application/current_quote_selection.go:25-52 | what is kept is later than every other quote of its class |
| QuoteSelection.SelectedIsLatestOfTheBest | internal/application/current_quote_selection.go:54-68 | the selection is the best of its class and later than the other representatives |
| QuoteSelection.SelectionIgnoresOrder | internal/application/current_quote_selection.go:25-68 | the selection does not depend on the order of arrival |
| QuoteSelection.PairwiseHasACycle | internal/application/current_quote_selection.go:9-10 | comparing any two quotes directly has a cycle, and what it keeps depends on the order of arrival |
| QuotePlan.PlanAnalysisQuoteDependencies | internal/application/analysis_dependencies.go:10-94 | the whole portfolio when a reference is unknown, and otherwise what is needed of it in its order |
| QuotePlan.PlanIsExact | internal/application/analysis_dependencies.go:10-94 | a narrowed plan holds exactly the needed instruments |
| QuotePlan.PlanChangesNoLookup | internal/application/analysis_daily.go:791-815 | every lookup for a needed instrument has the same answer with planned quotes as with all of the portfolio's |
| QuotePlan.ItemsOfTheAccountAreCovered | internal/application/analysis_dependencies.go:38-51 | so has every snapshot item of the selected account |
| QuotePlan.EffectsOfActivitiesAreCovered | internal/application/analysis_dependencies.go:53-83 | so has every item of a component that an effect of any activity, current or recorded, reaches |
| QuotePlan.DetailsOfActivitiesAreCovered | internal/application/analysis_dependencies.go:53-66 | and of every instrument a trade or dividend names |
| WriteGate.WriteCoordinator.AcquireWrite | internal/application/write_coordinator.go:79-93 | a write is refused during exclusive work or shutdown, admitted alone, and waits otherwise |
| WriteGate.WriteCoordinator.ReleaseSnapshotVersion | internal/application/write_coordinator.go:115-125 | a reader certifies its own maintenance and no later write |
| WriteGate.WriteCoordinator.AcquireExclusive | internal/application/write_coordinator.go:133-149 | exclusive work fences writers at once and waits for the running one |
| LedgerWrites.Ledger.ReplayActivityMutation | internal/application/change_mutation.go:47-82 | a used mutation is answered from its receipt, or conflicts on another hash or on a batch |
| LedgerWrites.Ledger.RecordChangeWithMutation | internal/application/change_service.go:150-195 | the single write: replay, then guard, then one commit of facts and receipt |
| LedgerWrites.Ledger.RecordChangesGuarded | internal/application/change_batch.go:47-115 | the batch write: replay, conflicts, guard, one commit |
| LedgerWrites.Ledger.ConfirmCashBaseline | internal/application/cash_preview.go:117-174 | a baseline replays by its observation before the stale check |
| LedgerRuns.StepKeeps | internal/application/write_coordinator.go:79-159 | every step keeps receipts and facts in agreement, one permit at a time, and tokens about the past |
| LedgerRuns.OneGroupPerMutation | internal/application/change_batch.go:47-115 | in every run a mutation has at most one fact group, single or batch |
| LedgerRuns.UsedMutationIsAnswered | internal/application/change_mutation.go:47-82 | a used mutation is answered with its group when kind and hash are the same and conflicts otherwise, and writes nothing |
| LedgerRuns.RetryReturnsItsGroup | internal/application/correction_guard.go:64-121 | a retry returns the committed group after any later steps, restarts and expired tokens included, unless a backup was restored |
| LedgerRuns.BaselineIsAppendedOnce | internal/application/cash_preview.go:146-157 | confirming a baseline again returns the first observation and appends nothing |
| LedgerRuns.TokenIsCurrentWhileQuiet | internal/application/write_coordinator.go:95-131 | a token stays current exactly as long as no permit that counts as a write ends and the process lives |
| LedgerRuns.FirstCommitNeedsQuiet | internal/application/correction_guard.go:123-134 | a first guarded commit is recorded exactly when no write ended since its token, and is stale otherwise |
| LedgerRuns.GuardedCommitSeesItsPreview | internal/application/change_service.go:167-177 | it commits on the state its preview saw, up to what its own permit has written |
| LedgerRuns.LaterWritesOfTheSamePermitGoUnseen | internal/application/write_coordinator.go:193-223 | that exception is real |
| LedgerRuns.NothingIsWrittenAfterShutdown | internal/application/write_coordinator.go:341-351 | after shutdown the facts do not change until a restart |
| LedgerRuns.ExclusiveWorkIsFenced | internal/application/write_coordinator.go:133-159 | no ordinary permit is granted between the request for exclusive work and its end |
| ActivityReplay.ReplayActivity | internal/domain/activity_replay.go:67-108 | the effects of one activity with observed balances restated and zero effects dropped |
| ActivityReplay.ReplayMoneyEffects | internal/domain/activity_replay.go:21-115 | the replay loop is the specified one |
| ActivityReplay.ReplayKeepsFacts | internal/domain/activity_replay.go:41-112 | identity, time, order, observations and recorded effects stay |
| ActivityReplay.ReplayPrefix | internal/domain/activity_replay.go:41-112 | what comes later does not change what was replayed before |
| ActivityReplay.ReplayIsIdempotent | internal/domain/activity_replay.go:41-45 | replaying a replayed timeline changes nothing |
| ActivityReplay.ObservationsSurvive | internal/domain/activity_replay.go:13-15 | after any change to earlier facts the book holds an observed balance where it was observed |
| Timeline.FindPosition | internal/application/change_batch.go:166-172 | the first activity that follows the insertion |
| Timeline.InsertChange | internal/application/change_batch.go:166-193 | one insertion: built on the state at its place, with every later activity replayed |
| Timeline.PrepareChangeBatch | internal/application/change_batch.go:117-220 | the program's batch, with its errors, is the specified one |
| Timeline.InsertionOrder | internal/application/change_batch.go:163-172 | an insertion keeps the order exactly when its instant is a whole millisecond or nothing tied was created later |
| TimelineSafety.BatchOrder | internal/application/change_batch.go:140-193 | a batch keeps the timeline sorted by effective and creation time exactly when every command can be placed |
| TimelineSafety.BatchKeepsExisting | internal/application/change_batch.go:140-193 | existing activities stay as a subsequence with their recorded facts, and nothing but the new activities is added |
| TimelineSafety.BatchBuildsInPlace | internal/application/change_batch.go:140-193 | new activities follow in command order, each as its command builds it on the balances the final timeline has there |
| TimelineSafety.BatchIsFeasible | internal/application/change_batch.go:194-206 | no point of the final timeline overdraws a balance, and a reload replays it unchanged |
| HistoricalEntry.PrepareRecordedChange | internal/application/historical_entry.go:11-68 | the single entry, current or historical, is the specified one |
| HistoricalEntry.EntryAgreesWithBatch | internal/application/historical_entry.go:29-66 | without a tied activity created later, a historical entry and a batch of one agree in result, timeline and failure |
| HistoricalEntry.EntryDiffersFromBatch | internal/application/historical_entry.go:31-41 | with such a tie they disagree |
| HistoricalEntry.TiedEntryGoesElsewhere | internal/application/historical_entry.go:31-41 | two tied activities: the single entry is placed behind the other one and the batch in front of it |
| HistoricalEntry.ClockGoingBackBreaksOrder | internal/application/change_batch.go:146-172 | a concrete change that leaves the timeline out of order |
| NullableSchema.RewriteNullableUnion | internal/agentcapability/nullable_schema.go:95-113 | the decision to keep, narrow or split a node |
| NullableSchema.WalkNullableSchema | internal/agentcapability/nullable_schema.go:24-149 | the recursive walk is the specified rewrite |
| NullableSchema.NullFreeAcceptanceIsKept | internal/agentcapability/nullable_schema.go:24-149 | values without null are accepted exactly as before, under negation, conditions and counting as well |
| NullableSchema.NormalizeNarrows | internal/agentcapability/nullable_schema.go:95-149 | in the positive fragment, where split nodes admitted null, acceptance is only taken away |
| NullableSchema.NarrowsExactlyWhenNullWasAdmitted | internal/agentcapability/nullable_schema.go:95-149 | at a node, that holds if and only if it admitted null or gets no null branch |
| NullableSchema.KeepsNullExactly | internal/agentcapability/nullable_schema.go:10-19 | which unions of null and one type keep null |
| NullableSchema.RequiredFieldKeepsNull | internal/agentcapability/nullable_schema.go:36-42 | a required field other than an array still accepts null in its object |
| NullableSchema.NormalizeRemovesNullUnions | internal/agentcapability/nullable_schema.go:24-149 | no type union anywhere contains null afterwards |
| NullableSchema.NormalizeIsIdempotent | internal/agentcapability/nullable_schema.go:24-149 | rewriting again changes nothing |
| NullableSchema.NullAloneIsWidened | internal/agentcapability/nullable_schema.go:105-131 | a union of null alone accepts text afterwards |
| NullableSchema.ListedUnionIsWidened | internal/agentcapability/nullable_schema.go:105-149 | a listed union of several types accepts null afterwards though it did not |
| TestShards.LeastLoaded | frontend/scripts/ci-test-shards.ts:27-30 | the inner search finds the first least loaded bin |
| TestShards.AssignRest | frontend/scripts/ci-test-shards.ts:26-33 | the loop over the shared files builds the greedy schedule, the first least loaded bin each time |
| TestShards.AssignTestShards | frontend/scripts/ci-test-shards.ts:16-34 | the program builds the greedy plan, or rejects the count |
| TestShards.PlanIgnoresInputOrder | frontend/scripts/ci-test-shards.ts:12-34 | permuting the files does not change the plan |
| TestShards.PlanHoldsEveryFile | frontend/scripts/ci-test-shards.ts:12-34 | every file lands in exactly one bin |
| TestShards.PlanIsNearlyOptimal | frontend/scripts/ci-test-shards.ts:16-34 | no shared bin costs more than 4/3 - 1/(3m) of the makespan of any other assignment to the m shared bins |

## Left out

- Bridges.ComputeHoldingBridge: prices are positive, since the program divides by them; its errors on a zero price and on amounts out of range, and the finite digits of its quotients, are not modelled.
- CashBridge.ComputeCashBridge: conversion is a factor; the inverse direction of a stored FX quote and its own digits are not modelled.
- ComponentDays.AttributeDay: return components, display values, the unavailable day and the range errors of Money are not part of the day; the flows and attributed effects of a day are in DayCapital.
- Classifier.ClassifyActivity: product contexts and product reversals are left out; the snapshot evidence for in-kind removals and the market value of transferred units are parameters; a missing rate is an unknown amount also in native valuation.
- ClassifierLaws.UndoCancels: position transfers are excluded, because their amounts come from different snapshots in the two directions.
- HoldingWorth.ClassifiedAtWorth: asks for items with stamped quotes, since units leaving an opening item without one are valued at the quote of the day's own end; a day on which units arrive in a position that ends empty is outside it.
- ConversionUndo.ConversionUndoLeaves: the undo is classified at the rates of the original.
- GroupCapital.GroupsCountTheUniverse: asks that activities have the shape in which the ledger records their kind, that accounts are on record, and that the fold selects the components of the investment universe; capital before publication is compared, each flow at the Money boundary.
- DailyReturns.FinalizeAnalysisReturns: cancellation, range errors of Money and the finite digits of rates are not modelled; component days are those of the investment universe.
- CivilDays.WalkPeriod: the calendar is a partial function with increasing cutoffs; IANA data, cancellation and the activities of a day are not modelled.
- AttributionProof.ProveAttributionPrecision: hashes, scope evidence and valuation warnings of snapshots are checked elsewhere and are not modelled.
- AttributionProof.ProjectFinancialAttribution: the display fold, the investment return and the coverage flags of the two sides are left out; the reported endpoints and change are inputs.
- AcceptedActivities.HouseholdIsAccepted: the compared endpoints and change are those of the boundaries, and the finite digits of the bridge's price and FX parts are not modelled; movements whose neutral legs do not cancel, such as a transfer between two currencies, are outside it, and AcceptedDays.KernelDaysAreAccepted says what they cause.
- Waterfall.FoldAssetDriverDetail: the display order of buckets is a parameter; days name their currency, account and instrument; contributions by day and their sorting are left out.
- ReturnFold.FoldReturnGroups: component days carry a date, as their validation demands; finite digits of rates and range errors of Money are not modelled.
- AnalysisRuns.SettledHitIsCurrent: asks that the queries of a run with one key are analyzed alike; the key trims the asset-class filter and the selection does not, so a filter with surrounding blanks beside its trimmed form is outside it, and the interface that builds filters trims and lower-cases them (internal/wailsapi/analysis/analysis.go:107). The 64-bit generation does not wrap, and context errors are left out.
- AnalysisMemo.AnalysisMemo.MemoResult: the mutex is modelled by one call at a time.
- QuoteSelection.CurrentQuoteSelection.Add: values, orders and flags are one list of optional quotes; identities are ordered numbers and distinct.
- QuotePlan.PlanChangesNoLookup: FX quotes are not planned by the program; lookups of display evidence are left out.
- LedgerRuns.RetryReturnsItsGroup: restoring a backup may drop a receipt, so the retry then writes again; the permit carried in a context is the one held permit of the model.
- LedgerWrites.Ledger.RecordChangeWithMutation: parsing of identities, reconciliation links, managed-product rejection and what a command builds are one parameter of the request.
- LedgerRuns.TokenIsCurrentWhileQuiet: process nonces are distinct by construction and the revision does not wrap.
- Timeline.PrepareChangeBatch: holdings created by a first purchase inside a batch, cost effects, managed products and the endpoint views of commits are left out.
- ActivityReplay.ReplayMoneyEffects: cost effects, unparsable observations and range errors are left out.
- NullableSchema.WalkNullableSchema: schemas are values, so nodes shared by pointer and the in-place update are not modelled; unevaluatedItems, unevaluatedProperties and references are left out, and older keywords share the slots of their successors.
- TestShards.AssignTestShards: costs are exact reals instead of doubles, and names are compared by character.
- Storage, user interface, servers, mobile API, backup packaging, import of market data, historical overviews and trend projections: input and output or easy members.
