# A verified model of the investor back end

This project models the parts of the repository where a number, a table or a record has to be right
for every input, and proves what those parts promise:

- **Deal arithmetic.** Level mortgage payments, the amortization loop, the internal rate of return by
  scan and bisection, the Monte Carlo stress test with its tornado, and straight-line depreciation.
- **The signal store and its readers.** A table with one row per signal, subject and day, the
  single-subject and the batched reader over it, the snapshots both compose, the decision policies, and
  the holding decisions and portfolio summaries built on them.
- **Stateful protocols.** The background strategy run with its shared step trace and its audit log,
  the event store's sequence numbers, the address-keyed bulk import and the sliding-window limiter.
- **Folds and text.** Saturating reaction vectors and their replay, opinion drift on the household
  graph, the CSV scanner and import, the property ranking and the yen printer.

One file models one component; `Common`, `Powers`, `Rounding` and `StableSort` are shared vocabulary,
and `StoreWitnesses` holds failing inputs that need a table with a history. The `Laws` files and
`ImportColumns` say what the component's formulas mean in terms that do not use them: thresholds,
rates of exchange, sums, what each column ends up holding. A component that changes
state in place is a class whose methods are proved equal to a step function, and the properties are
proved about runs of that function. Numbers are exact reals.

Where a promise fails for some inputs, the exact condition is proved instead; where the condition alone
does not show that the promise can fail, a lemma has an input. These are the findings:

- `PaidOffExactly`: the amortization loop ends at exactly zero when the rate is not negative, and never
  at a rate between -1200 percent and zero. At -1200 percent and below, which nothing refuses, the
  powers change sign and at most one rate per term ends at zero (`ChanceRateUnique`).
- `PayoffIsLoopBalance`: the Monte Carlo payoff equals the loop's balance unless the rate is zero and
  the loan is still running; the engine never samples such a rate.
- `SaleRepaysTooMuch`: the projected sale repays the loan as it was taken out, although the debt service
  of the hold has paid part of it off.
- `TieOrderIrrelevantIff`, `SnapshotsAgree`: hazard flags depend on the database's order of equal
  timestamps unless the oldest writers of each flag agree (`TieShows`). Whole snapshots are determined
  if and only if they agree on every flag that no neighborhood row overwrites (`TieIsMasked`).
- `ZipRulesAgreeIff`, `ViewsAgreeIff`, `DecisionsAgree`: for holdings known only by zip code the single
  path skips nulls and the batched path does not. Views agree if and only if no newest row hides a
  value behind a null, and decisions agree under every set of policies if and only if none does.
  `NullFlipsDecision` shows a sale on one path and a hold on the other. The service's own policies
  already agree under a wider condition (`NarrowDecisionsAgree`, `BuiltinDecisionsAgree`,
  `BuiltinDecisionsAgreeIff`).
- `LastPointIsEndpoint`: the schema's comment says the curve ends at the endpoints by construction
  (api/schemas.py:891-893). It does so because the summary never reports a cap rate without a value;
  a single stray row breaks it (`StrayCapRateShows`).
- `YearZeroIsSummary`: year zero of the curve leaves out holdings without a positive value
  (`UnpricedHoldingMissing`).
- `UniquenessKeptIff`: the import is documented as keyed on user and address (api/portfolio.py:412),
  but inserts are not added to the index, so an importable row that comes twice is stored twice if the
  table does not hold its address (`RepeatedAddressStoredTwice`).
- `SecondImportIsNoOpIff`: on a table with duplicates a second import may write to another duplicate
  than the first, because the query asks for no order (`DuplicateBreaksSecondImport`).
- `NumberedIffNoneOvertaken`: sequence numbers stay contiguous if and only if no session commits events
  it appended before a rival's commit of the same aggregate; `TwoWritersCollide` is such a run.
- `Execute`: a poller may see a terminal status before the closing audit. It is final if and only if
  that audit does not raise.
- `BusyClientStarves`, `SameInstantUnderCounts`: rejected requests count against the client, and
  requests at the same instant count once.
- `FileReadsBackIff`: lines are cut before quotes are read, so a file with a line feed inside a quoted
  field never reads back (`QuotedBreakIsTorn`).
- `RoundTripIff`: fields are trimmed although section 2 of RFC 4180 makes spaces part of a field
  (`LeadingSpaceIsLost`).
- `EveryRowAccountedIff`: holdings and errors add up to the row count exactly when there is an address
  column, or a single data row (`NoAddressColumnLosesRows`).
- `PercentReadIff`: a rate given in percent is read as such exactly above one percent; "0.5%" becomes
  50 percent (`SmallPercentIsLarge`).
- `HazardRaisesSignalIff`: learning of a hazard can raise the recommender's signal score. With safety
  scores from 0 to 10, as the providers store them, it always does, because the recommender reads them
  out of 100; a known score then always counts for less than none (`StoredSafetyCountsAgainst`).
- `NoPressureIsNoSignal`: an owner without any budget pressure worries more about displacement than one
  with a little, because a signal of exactly zero is dropped as unset.
- `ZeroStabilityIsHalf`: a household with an opinion stability of 0 drifts as one of 0.5
  (domain/reactions/runtime.py:104), and `ZeroStabilityShows` that the difference survives rounding.

## Model

| member | source | states |
|---|---|---|
| Mortgage.PaymentDiscountsToPrincipal | intelligence/financial_models.py:16-22 | The payment times the annuity factor at the monthly rate is the principal, at every rate; a negative rate discounts as zero. |
| Mortgage.PaymentUnique | intelligence/underwriting.py:71-81 | A level payment has the principal as its discounted sum over n months if and only if it is the formula's payment. |
| Mortgage.PaymentMonotone | intelligence/underwriting.py:71-81 | The payment never falls as the annual rate rises, over all reals and across the switch to P/n; from zero on it strictly rises. |
| Mortgage.PaymentAtLeastStraightLine | intelligence/financial_models.py:16-22 | The payment is at least P/n, and equals it exactly when the rate is not positive. |
| Mortgage.SeedPaymentAgrees | scripts/seed_dev_portfolio.py:76-82 | The seed script's annuity formula with its negative exponent is the same payment. |
| Amortization.AmortizationSchedule | intelligence/financial_models.py:25-57 | The month-by-month loop, grouped by year, returns the schedule of the balance recurrence with every interest and principal part. |
| Amortization.Amortize | intelligence/financial_models.py:30-57 | The loop over months, closing a row every twelfth, computes that schedule for any rate and payment. |
| Amortization.BalanceClosedForm | intelligence/financial_models.py:260-269 | After month k the loop's balance is P((1+r)^n-(1+r)^k)/((1+r)^n-1), or P(1-k/n) without interest. |
| Amortization.BalanceRunsDownToZero | intelligence/financial_models.py:25-57 | The balance stays in [0, P], strictly falls, is zero after month n and at no other time, and the max with zero is idle. |
| Amortization.OverpaidBelowZeroRate | intelligence/financial_models.py:16-57 | At every rate between -1200 percent and zero the loop overpays, so there the max with zero matters. |
| Amortization.PaidOffExactly | intelligence/financial_models.py:25-57 | At any annual rate the loop pays the loan off exactly if and only if the rate is not negative, or it is -1200 percent or less and the powers at that rate happen to cancel. |
| Amortization.ChanceRateUnique | intelligence/financial_models.py:16-57 | For each term at most one rate of -1200 percent or less pays the loan off exactly. |
| Amortization.PaymentsSplit | intelligence/financial_models.py:38-47 | Interest so far plus principal so far is the number of payments times the payment, after every month and for any payment. |
| Amortization.ScheduleConserves | intelligence/financial_models.py:25-62 | The schedule's principal parts sum to P and its interest parts to total_interest. |
| Amortization.ScheduleRow | intelligence/financial_models.py:25-57 | Each yearly row shows the closed-form balance, and only the last row shows zero. |
| Amortization.EquityIsPaidOff | intelligence/financial_models.py:48-57 | The equity share of every row is what has been paid off, in percent of the loan, at any rate and payment. |
| Amortization.PayoffIsLoopBalance | intelligence/financial_models.py:260-269 | The payoff at the sale is the loop's balance if and only if the rate is positive or the loan has matured. |
| Irr.ComputeNpv | intelligence/underwriting.py:84-91 | The loop computes the sum of the flows discounted by their year. |
| Irr.Bisection | intelligence/underwriting.py:135-144 | The capped loop returns what uncapped halving would: the cap of 200 rounds is never reached. |
| Irr.ComputeIrr | intelligence/underwriting.py:94-144 | Sign check, end points, 1000-point scan and bisection return the rate of the specification, or nothing. |
| Irr.RateSound | intelligence/underwriting.py:94-144 | A returned rate lies in [-0.99, 10] and either has an NPV within 1e-6 of zero or lies in a bracket under 1e-7 wide whose ends have opposite NPV signs. |
| Irr.ScanSound | intelligence/underwriting.py:114-131 | The scan's hit is an exact root and its bracket has opposite signs at its ends. |
| Irr.BisectAcceptable | intelligence/underwriting.py:135-144 | From any bracket with opposite signs, halving ends at an acceptable rate. |
| Irr.NpvStrictlyDecreasing | intelligence/underwriting.py:84-91 | For flows that are negative first and non-negative after, NPV strictly falls in the rate. |
| Irr.AtMostOneRoot | intelligence/underwriting.py:94-144 | Such flows have at most one internal rate of return above -100 percent. |
| Irr.ScanFindsNothing | intelligence/underwriting.py:114-131 | For such flows the scan never finds a bracket that the end points missed. |
| Irr.ConventionalRateExists | intelligence/underwriting.py:94-144 | For such flows a rate is returned if and only if the end points of the search range bracket zero. |
| Irr.ConventionalRateNearRoot | intelligence/underwriting.py:94-144 | If the true rate lies in the search range, the returned one is within the tolerances of it. |
| Irr.NoRateIff | intelligence/underwriting.py:94-144 | For any flows there is no rate if and only if they do not have both signs, or the NPV has one strict sign at the lower end, at all other grid rates and at the upper end. |
| Irr.RateInFirstCrossing | intelligence/underwriting.py:112-144 | Where the end points have one sign, the rate lies in the first grid step at which the NPV vanishes or changes sign, and on the grid exactly if it vanishes there. |
| Underwriting.ProjectIrr | intelligence/underwriting.py:211-255 | The loop builds the projected flows with the sale in the last year and returns their rate. |
| Underwriting.CashOnCashMonotone | intelligence/underwriting.py:150-208 | For a rent of at least zero, more vacancy or a dearer loan never raises cash-on-cash. |
| Underwriting.LossesCoincide | intelligence/underwriting.py:150-208 | With a loan and cash invested, DSCR below one, negative cash-on-cash and an occupancy below break-even are the same fact. |
| Underwriting.StressLowersNpv | intelligence/underwriting.py:211-255 | For non-negative rent, rent growth above -100 percent and, where the sale is priced by an exit cap, selling costs of at most 100 percent: more vacancy or a dearer loan never raises the NPV of the hold, at any rate above -100 percent. Sales priced by appreciation are included. |
| Underwriting.StressLowersRate | intelligence/underwriting.py:211-255 | Under the same conditions, where the stressed flows pay first and receive after, a true rate of return of the stressed deal is never above one of the base deal. |
| UnderwritingLaws.FlowsSplit | intelligence/underwriting.py:211-255 | Every projected flow is that of the deal bought for cash (rent after vacancy less expenses, both growing yearly, and the sale at the exit cap or the grown price less its costs) plus that of the loan. |
| UnderwritingLaws.FinancingApart | intelligence/underwriting.py:211-255 | The flows differ from those of the same deal without a loan by what is borrowed in year zero, less the debt service of each year, less the whole loan at the sale. |
| UnderwritingLaws.FlowsTotal | intelligence/underwriting.py:211-255 | In sum the flows are the income of the hold less its debt service, plus the sale less its costs, less price and closing costs. |
| UnderwritingLaws.SaleRepaysTooMuch | intelligence/underwriting.py:211-255 | At a rate of at least zero the loan repaid at the sale exceeds what the amortization loop shows as owed by then. |
| UnderwritingLaws.FirstYear | intelligence/underwriting.py:150-208 | Cap rate, cash-on-cash and coverage are income over price, first-year flow over cash put in and income over debt service. |
| UnderwritingLaws.RatiosOverNothing | intelligence/underwriting.py:168-192 | Without cash, price, debt or rent to divide by the metrics take their defaults. |
| UnderwritingLaws.BreaksEven | intelligence/underwriting.py:187-192 | At the break-even occupancy the first year's income is exactly the debt service. |
| UnderwritingLaws.TwoHolds | intelligence/underwriting.py:194-208 | The two rates are those of holds of five and ten years, and none without cash put in. |
| Percentiles.PercentileIsValue | intelligence/stress_test.py:78-83 | A percentile is one of the values. |
| Percentiles.PercentileMonotone | intelligence/stress_test.py:78-83 | Percentiles do not decrease in the rank, with Python's rounding to even of the index. |
| Percentiles.PercentileCounts | intelligence/stress_test.py:78-83 | A percentile reaches a bound if and only if no more values fall short of it than its rank. |
| StressTest.SampleDraws | intelligence/stress_test.py:117-130 | The sampling loop collects the underwriting of every draw in order and counts losses and uncovered debt. |
| StressTest.MonteCarlo | intelligence/stress_test.py:104-152 | The result holds the spreads of cap rate, cash-on-cash, capped DSCR and IRR, the IRR samples, both probabilities and the tornado. |
| StressTest.Tornado | intelligence/stress_test.py:155-182 | There is one bar for each of the five sliders, from pushing that slider alone to its two ends. |
| StressTest.PushedMovesOne | intelligence/stress_test.py:155-182 | A pushed setting has its slider at the end and all others in the middle of their ranges. |
| StressTest.CoverageSample | intelligence/stress_test.py:117-130 | A coverage sample is the coverage up to 99, which also stands for no debt. |
| StressTest.ShareIsFraction | intelligence/stress_test.py:133-152 | A probability times the iterations is the count. |
| StressTest.Envelope | intelligence/stress_test.py:91-130 | Every sampled cash-on-cash lies between its values at (vacancy high, rate high) and (vacancy low, rate low). |
| StressTest.BoxWidth | intelligence/stress_test.py:155-182 | The width of that envelope is exactly the sum of the five swings. |
| StressTest.SpreadOrdered | intelligence/stress_test.py:78-83 | p10 <= p50 <= p90 for every list. |
| StressTest.TornadoBoundsSpread | intelligence/stress_test.py:104-182 | p90 - p10 of cash-on-cash never exceeds the sum of the five tornado swings. |
| StressTest.LossCountFromP10 | intelligence/stress_test.py:117-152 | p10 is not negative if and only if at most its rank of the samples lose money. |
| StressTest.ProbabilitiesCoincide | intelligence/stress_test.py:117-152 | With a loan and cash invested, the probability of negative cash flow and that of a DSCR under one are equal for any draws. |
| Depreciation.ResidualWithinStatute | intelligence/depreciation_jp.py:40-57 | Residual life lies in [2, statutory life], never grows with age and is the statutory life when new. |
| Depreciation.ResidualInFifths | intelligence/depreciation_jp.py:40-57 | In fifths of a year the residual life is the statutory life less four fifths of each year of age, down to a fifth of it, rounded down and at least two years. |
| Depreciation.NewBuildings | intelligence/depreciation_jp.py:20-36 | A new building has 22, 27, 34 or 47 years, by construction. |
| Depreciation.ProjectDepreciation | intelligence/depreciation_jp.py:90-130 | The three errors in their order, and otherwise the schedule with its rows and running shield up to the horizon. |
| Depreciation.ShieldClosedForm | intelligence/depreciation_jp.py:72-130 | The shield over horizon h is basis*rate*min(h, residual)/residual; the basis is written off completely exactly from h = residual on. |
| Depreciation.OlderShieldsMore | intelligence/depreciation_jp.py:90-130 | Within any horizon an older building of the same basis never shields less. |
| Depreciation.RunnerShieldOf | services/strategy_runner.py:93-109 | The runner's total is the closed form, its yearly average times the horizon is the total, and expiry is residual <= horizon. |
| SignalStore.SignalTable.Upsert | services/signal_writer.py:36-87 | Two matching rows make the lookup raise and leave the table alone; otherwise one row is overwritten or added. On a table with one row per key it never raises and keeps it so. |
| SignalStore.UpsertRefinesMap | services/signal_writer.py:51-87 | On a table with one row per key, an upsert is one assignment on the key map and touches no other key. |
| SignalStore.RunKeepsUnique | services/signal_writer.py:51-87 | No run of writes ever stores two rows under one (type, subject type, subject, day). |
| SignalStore.RunIsLastWriteWins | services/signal_writer.py:51-87 | After any run each key holds its last write, where a write without a source keeps the source on record. |
| SignalStore.RunExtendsKeys | services/signal_writer.py:51-87 | A run keeps the rows it found in place and stores every key it wrote. |
| SignalStore.KnownKeysAddNothing | services/signal_writer.py:51-87 | A run that writes only keys on record adds no row. |
| SignalStore.ReplayIsIdempotent | services/signal_writer.py:51-87 | Running a batch a second time leaves the same table, row for row. |
| SignalQueries.LatestSignalsFor | services/market_state.py:51-75 | The loop returns one row per signal type, a newest one, in query order. |
| SignalQueries.EveryLatestIsRead | services/market_state.py:51-75 | On a table with one row per key, every list of newest rows, one per type and newest first, is read off some order of the query's answer. |
| SignalQueries.LatestSignalsBulk | services/market_state.py:118-147 | One pass over one answer gives every subject a list its own query could have given. |
| SignalQueries.SliceOfBulkAnswer | services/market_state.py:118-147 | A subject's slice of a bulk answer is an answer to that subject's own query. |
| SignalQueries.LatestSameByType | services/market_state.py:51-75 | Two readings of one subject hold the same row for every type, however ties were ordered. |
| MarketState.Aggregate | services/market_state.py:78-115 | The loop over property rows gives the aggregated snapshot. |
| MarketState.FillGaps | services/market_state.py:200-222 | The loop over one neighborhood key fills only what is missing. |
| MarketState.KeysInSourceOrder | services/market_state.py:150-174 | The keys are the non-empty ones of neighborhood id, zip and ward, each once, in that order. |
| MarketState.NamesInSourceOrder | services/market_state.py:150-174 | A neighborhood id is taken from "neighborhood_id" before "id", a zip from "zip_code" before "zip", empty entries being passed over; a neighborhood id is the first key. |
| MarketState.ComposeSnapshot | services/market_state.py:177-223 | The property's own rows, then each key in order. |
| MarketState.BuildSnapshot | services/market_state.py:226-251 | None for an unknown property, otherwise a snapshot of the table for it. |
| MarketState.CollectKeys | services/market_state.py:254-293 | Exactly the keys of the listed properties, each once. |
| MarketState.BuildSnapshots | services/market_state.py:254-293 | Exactly the listed properties get a snapshot, each a snapshot of the table for that property alone; one with an empty id gets none of the property rows, which the bulk query skips. |
| SnapshotAgreement.AggregatedScalar | services/market_state.py:78-115 | A non-null property value replaces the base value of its field; a null one does not. |
| SnapshotAgreement.FilledScalar | services/market_state.py:200-222 | A neighborhood value only fills a field that is still missing. |
| SnapshotAgreement.SnapshotScalar | services/market_state.py:177-223 | Each scalar is the first non-null among the newest property row and the newest row of each key in order. |
| SnapshotAgreement.TieOrderIrrelevantIff | services/market_state.py:78-115 | Property hazard flags are independent of tie order if and only if the oldest writers of every flag agree. |
| SnapshotAgreement.FillOrderIrrelevant | services/market_state.py:200-222 | Filling from a key depends on its rows and not on their order. |
| SnapshotAgreement.SnapshotsAgree | services/market_state.py:226-293 | On a table with one row per day the batched and the single builder give the same snapshot, whatever order the database gives ties, if and only if the oldest hazard writers agree on every flag that no neighborhood row overwrites. |
| SnapshotAgreement.SnapshotIsRead | services/market_state.py:226-293 | On such a table each snapshot that is compared is built from answers that the database can give. |
| SnapshotAgreement.ScalarsAlwaysAgree | services/market_state.py:226-293 | Scalars, zoning and identifiers agree whatever the ties. |
| HoldingDecision.BestByAction | services/holding_decision.py:248-252 | The loop keeps, per action, the first candidate with the highest score, in order of first appearance. |
| HoldingDecision.PolicyCandidates | services/holding_decision.py:226-242 | The owner's reaction, the three policies and the mapping loop give the candidates that the policies' recommendations stand for. |
| HoldingDecision.ComputePreloaded | services/holding_decision.py:207-274 | Under the three policies of the service: candidates, ranking, fallback and availability flag as specified. |
| HoldingDecision.DecisionRanksBest | services/holding_decision.py:248-274 | Every action with a candidate appears once, at its highest score, in descending order; the fallback appears only without candidates. |
| HoldingDecision.RecommendationIsTop | services/holding_decision.py:248-274 | The recommendation scores at least as high as every candidate. |
| DecisionLaws.RefiOffered | services/holding_decision.py:143-160 | For any policies refinancing is listed if and only if a loan balance other than zero and a note rate above six percent are on record, with a score in [0.3, 1]. |
| DecisionLaws.RefiScoreRises | services/holding_decision.py:143-160 | Its score never falls as the rate rises: a tenth per point, to four decimals, up to thirteen percent, and one from there on. |
| DecisionLaws.WithoutMarket | services/holding_decision.py:207-274 | Without a market view the recommendation is to refinance exactly then, and otherwise to hold at 0.3, as the only candidate. |
| DecisionLaws.MarketAlone | services/holding_decision.py:207-274 | Without an owner: selling is listed exactly up to an inventory pressure of 1/2 plus a sixth of the safety shift, raising the rent exactly below a pressure of 0.4 with the rent below the median, improving exactly below a safety score of four. |
| DecisionLaws.BetterMarket | services/holding_decision.py:207-274 | For any owner a market with no more pressure and no less safety keeps the offers to sell and to raise the rent, and one with no less pressure and no more safety keeps that to improve. |
| DecisionLaws.BolderSells | domain/actors/profiles.py:165-216 | A bolder owner of the same holding is never less advised to sell. |
| DecisionLaws.PressureIsShare | domain/actors/profiles.py:180-190 | The budget pressure is the lower bound's share of the upper one, and a fifth more, at most one, under a month. |
| DecisionLaws.RolesLean | domain/actors/profiles.py:199-206 | Only sellers and buyers lean to a deal, sellers the less the tighter the budget, buyers the more the bolder they are. |
| DecisionLaws.TighterBudgetWorries | domain/reactions/derive.py:44-73 | A tighter budget, from any pressure above zero, never worries less about displacement or rent. |
| DecisionLaws.NoPressureIsNoSignal | domain/reactions/derive.py:55-60 | A budget pressure of exactly zero emits neither event. |
| HoldingDecision.SnapshotFromZip | services/holding_decision.py:85-105 | Each decision field is the newest non-null value for the zip. |
| HoldingDecision.NeighborhoodSnapshots | services/market_state.py:296-323 | Each zip's field is the newest row's value, if that row has one. |
| HoldingDecision.ZipRulesAgreeIff | services/holding_decision.py:85-105 | The two zip rules agree on a field if and only if the newest row is not a null hiding a value. |
| HoldingDecision.ComputeHoldingDecision | services/holding_decision.py:174-204 | Property snapshot first, else zip, else none; the owner is consulted only with a snapshot. |
| HoldingDecision.SummaryDecisions | services/portfolio_summary.py:205-238 | The bulk loads and the loop give every holding the decision of its own bulk resolution. |
| HoldingDecision.ViewsAgreeIff | services/portfolio_summary.py:205-227 | Both services see the same market for a holding, under any tie order, if and only if no zip-only field hides a value behind a null. |
| HoldingDecision.DecisionsAgree | services/portfolio_summary.py:230-238 | Summary and single service decide alike for all policies, owners and financials if and only if no zip-only field hides a value behind a null. |
| HoldingDecision.NarrowDecisionsAgree | services/portfolio_summary.py:230-238 | For all policies that read inventory pressure, safety and median rent only, they decide alike if and only if no null hides a value of these three and, where one hides another field, some decision field is still seen. |
| HoldingDecision.BuiltinDecisionsAgree | services/portfolio_summary.py:230-238 | Under that condition the service's own policies decide alike. |
| HoldingDecision.BuiltinDecisionsAgreeIff | services/portfolio_summary.py:230-238 | Where no null hides a value of the three, the service's own policies decide alike for all owners and financials if and only if nothing else is hidden either or some decision field is still seen. |
| HoldingDecision.NeutralSafetyUnseen | services/holding_decision.py:207-274 | A hidden value of the three need not show: with all else seen alike, a safety score of 5.0 and none give the same decision to every owner. |
| StoreWitnesses.TieShows | services/market_state.py:78-115 | Two hazard rows written at one instant leave a table on which the snapshot is not determined. |
| StoreWitnesses.TieIsMasked | services/market_state.py:200-222 | With a row of the kind for the zip code the same tie leaves one snapshot only. |
| StoreWitnesses.NullFlipsDecision | services/portfolio_summary.py:205-238 | After a value and a later null for a zip, the single service says sell and the summary says hold. |
| DecisionPolicies.ActorReactionEvents | domain/reactions/derive.py:44-73 | The loop emits one clamped event per actor signal, none for a zero. |
| DecisionPolicies.BuildReactionVector | domain/reactions/derive.py:123-143 | The events of owner and market, folded by a fresh engine, give the holding's vector. |
| DecisionPolicies.ReactionIsOneClamp | domain/reactions/derive.py:76-143 | Each component is the clamp of what the owner's signal and the market reading add up to; dropped events are zeros. |
| DecisionPolicies.Evaluate | domain/decisions/runtime.py:81-103 | The loop collects what the policies recommend and sorts it. |
| StableSort.SortedIsStable | domain/decisions/runtime.py:102-103 | The sort is by descending score, loses nothing and keeps ties in the order of the list. |
| DecisionPolicies.BuiltinScoresInUnit | domain/decisions/policies.py:83-179 | Every recommendation of the three policies scores in [0, 1]. |
| DecisionPolicies.BuiltinReadsThree | domain/decisions/policies.py:83-179 | Two views that agree on three scalars get the same recommendations, for any owner and rent. |
| EventStore.Session.Append | services/event_store.py:15-47 | The event gets the next number of its aggregate among committed and pending rows; an exception leaves or adds the row as it struck. |
| EventStore.Session.Commit | services/event_store.py:15-47 | A commit moves the pending rows into the log or, raising, changes nothing. |
| EventStore.NumberedIffNoneOvertaken | services/event_store.py:15-61 | For any interleaving of any number of sessions the committed rows of an aggregate are numbered 1 to n if and only if no session commits rows of it that it appended before a rival's commit of it. |
| EventStore.SequencesContiguous | services/event_store.py:15-61 | An aggregate that one session alone writes is numbered 1 to n, whatever is rolled back. |
| EventStore.TwoWritersCollide | services/event_store.py:26-43 | Two sessions that append before either commits leave the aggregate misnumbered. |
| StrategyRunner.EmitStep | services/strategy_runner.py:385-416 | The step goes to the end of the trace, which the stored record shares or not; publishing cannot fail the run. |
| StrategyRunner.Audit | services/strategy_runner.py:451-459 | An audit write adds one row with the next number if it succeeds and leaves the aggregate's log alone if it raises. |
| StrategyRunner.Attempt | services/strategy_runner.py:461-549 | The try block appends the steps of the stages it reaches, shows pollers exactly the views listed for the outcome of its calls, and ends with a final record and its audit row, or with the exception that reaches the handler. |
| StrategyRunner.Handle | services/strategy_runner.py:551-583 | The handler appends run.failed, stores a failed record with a non-empty error and audits it, showing pollers the failed view last; its own failures never escape. |
| StrategyRunner.Execute | services/strategy_runner.py:419-583 | For a fresh run id and any placement of exceptions: the stored record is the returned one, completed has all three results and no error, failed has an error; if the last audit write succeeds the log is exactly run_started (1) and one matching terminal event (2), otherwise run_started alone; the trace is what was there before and the steps that the outcomes of the calls tell; pollers see exactly the views listed for those outcomes, the last being what is stored; and a terminal status, once polled, is final if and only if the closing audit does not raise. |
| StrategyRunner.StepsTell | services/strategy_runner.py:419-583 | The steps of a run that works are started, built, projected, reconciled, completed; one that breaks has the stages reached; and failed follows whatever raises, a closing audit included. |
| StrategyRunner.PollsSound | services/strategy_runner.py:419-583 | No view a poller gets loses a step of an earlier one; results shown are those of the calls, present as soon as their step is seen, the analysis one view later; completed means all four steps, failed ends with run.failed. |
| StrategyRunner.PollsSettle | services/strategy_runner.py:517-583 | All terminal views of a run are the last one if and only if the closing audit holds or the work broke before it. |
| Projection.Summarize | services/portfolio_summary.py:230-325 | The loop's rows and totals, the blended cap rate and the weighted DSCR. |
| Projection.ProjectYearSeries | services/strategy_runner.py:267-300 | The curve has horizon+1 points, each the totals of its year. |
| Projection.ProjectSimulation | services/strategy_runner.py:303-348 | The endpoint totals over all projected holdings. |
| Projection.LastPointIsEndpoint | services/strategy_runner.py:254-348 | For every list of rows the last value is the endpoint's; NOI is if and only if the NOI of cap rates on non-positive values adds up to zero or the growth factor is zero, and the cap rate then or without a positive value. |
| Projection.StrayCapRateShows | services/strategy_runner.py:254-348 | One row with a cap rate on a negative value makes NOI and cap rate of the curve miss the endpoints. |
| Projection.SummaryRowsDoNotStray | services/portfolio_summary.py:58-100 | No row of the summary has a cap rate without a positive value. |
| Projection.CurveEndsAtEndpoint | api/schemas.py:891-893 | For summary rows value, NOI and cap rate of the last point equal the aggregate endpoints. |
| Projection.YearZeroIsSummary | services/strategy_runner.py:267-300 | Year zero's cash flow is today's; its value and NOI are today's if and only if the holdings without a positive value contribute nothing. |
| Projection.YearZeroOfPricedPortfolio | services/strategy_runner.py:267-300 | When every holding with financials is priced, year zero equals the summary aggregates. |
| Projection.UnpricedHoldingMissing | services/strategy_runner.py:267-300 | A portfolio of one holding with income and without a positive value: the income is in the summary and not in year zero. |
| ProjectionLaws.IncomeIsUnderwritten | services/portfolio_summary.py:58-100 | The summary's monthly income is a twelfth of what the underwriting engine makes of the same columns. |
| ProjectionLaws.CashFlowIsIncomeLessPayments | services/portfolio_summary.py:230-325 | In sum cash flow is income less loan payments. |
| ProjectionLaws.CoverageIsMean | services/portfolio_summary.py:230-325 | There is a weighted DSCR exactly if some holding services a loan, and it lies between the least and greatest coverage of those that do. |
| ProjectionLaws.UnservicedLeavesCoverage | services/portfolio_summary.py:230-325 | A holding without a payment leaves it unchanged. |
| ProjectionLaws.YearToYear | services/strategy_runner.py:254-300 | Each year of the curve is the one before with values grown by 5, 1.5 or 3 percent by outlook, and income and cash flow by the excess of rent over expense growth. |
| BulkImport.HoldingsDb.Import | api/portfolio.py:430-558 | Rows are applied in order against the index of the query's answer, which is built before the loop, with the three counts; an error leaves the tables unchanged. |
| BulkImport.IndexByAddress | api/portfolio.py:473-485 | The dictionary takes the last holding of the answer under each normalised address, in whatever order the answer comes. |
| BulkImport.ApplyRows | api/portfolio.py:491-550 | The loop applies every row or stops at the first error. |
| BulkImport.EveryRowCounted | api/portfolio.py:491-558 | Inserted, updated and skipped add up to the row count for any payload that completes. |
| BulkImport.UniquenessKeptIff | api/portfolio.py:483-541 | In whatever order the query answers, one holding per user and address is kept if and only if no two inserted rows share a normalised address. |
| BulkImport.RepeatedAddressStoredTwice | api/portfolio.py:483-541 | On any table an importable row that comes twice in one payload is stored twice if the table does not hold its address; if it does, one holding per address stays one. |
| BulkImport.PositionEffect | api/portfolio.py:491-550 | With distinct addresses a stored holding takes in exactly the one row that the index leads to it, or stays as it was. |
| BulkImport.ImportSettles | api/portfolio.py:491-550 | After an import of distinct addresses, applying any of its rows again would change nothing. |
| BulkImport.SettledImportChangesNothing | api/portfolio.py:491-550 | On a table that has absorbed every row an import only counts. |
| BulkImport.NoOpIffAbsorbed | api/portfolio.py:491-550 | An import of known addresses changes nothing if and only if the indexed holdings have absorbed all its rows. |
| BulkImport.SecondImportIsNoOpIff | api/portfolio.py:430-558 | A second import of distinct addresses inserts nothing and changes nothing, for every order in which the database may then answer, if and only if every duplicate under one of the addresses had absorbed its row before. |
| BulkImport.SecondImportIsNoOp | api/portfolio.py:430-558 | On a table with one holding per address the second import inserts nothing and leaves holdings and financials as they are, in any order of the answers. |
| BulkImport.SameOrderIsNoOp | api/portfolio.py:430-558 | If the database keeps its order and lists new rows last, the second import changes nothing on any table, duplicates or not. |
| BulkImport.DuplicateBreaksSecondImport | api/portfolio.py:473-485 | On a table with a repeated address there is an order of the second answer in which a repeated import does change the table. |
| ImportColumns.StoredColumns | api/portfolio.py:491-529 | After any import that completes, repeated addresses included, each column of a stored holding and each field of its financials is the last one a row for it gives, or what it was; new financials start from the defaults. |
| ImportColumns.InsertsFollow | api/portfolio.py:531-550 | Rows under unknown addresses follow the stored holdings in order, each with its own columns and financials. |
| ImportColumns.LastZipIsLast | api/portfolio.py:122-131 | The zip code read from an address is its last word of five digits, and there is none exactly if no word is one. |
| ImportColumns.NamesAreRead | api/portfolio.py:115-119 | A class or status is read from its own name and no other text. |
| RateLimit.RateLimiter.Dispatch | middleware/rate_limit.py:22-55 | Exempt paths and Redis failures pass untouched; otherwise the log is trimmed, extended and counted and the request judged by the count. |
| RateLimit.SkippedPaths | middleware/rate_limit.py:22-25 | The paths that skip the limiter are the health check and those that begin with "/ws". |
| RateLimit.LogIsWindow | middleware/rate_limit.py:33-42 | For a client whose logged requests come in clock order, the log trimmed at any later time is exactly the instants of its logged requests of the last 60 seconds: neither trimming nor the 70-second expiry loses one, whatever other clients do. |
| RateLimit.AdmittedIff | middleware/rate_limit.py:36-50 | A logged request is admitted if and only if the instants of the client's logged requests in its window, rejected ones included, number at most rpm. |
| RateLimit.InstantsAndRequests | middleware/rate_limit.py:36-42 | A window never holds fewer requests than instants, and as many when the times are distinct. |
| RateLimit.AdmittedIffFew | middleware/rate_limit.py:36-50 | At distinct times a logged request is admitted if and only if the window holds at most rpm requests. |
| RateLimit.WindowInstants | middleware/rate_limit.py:31-50 | In clock order the admitted and logged requests of any 60-second window have at most rpm instants. |
| RateLimit.WindowBound | middleware/rate_limit.py:31-50 | At distinct times no 60-second window holds more than rpm admitted and logged requests of a client, and all that pass exceed rpm by no more than those that pass unlogged while Redis is down. |
| RateLimit.SilentClientAdmitted | middleware/rate_limit.py:31-50 | A client silent for 60 seconds is admitted when rpm >= 1. |
| RateLimit.BusyClientStarves | middleware/rate_limit.py:36-50 | A client whose window holds rpm instants, rejected ones included, is rejected at the next new instant. |
| RateLimit.SameInstantUnderCounts | middleware/rate_limit.py:38 | Any number of requests at one instant is admitted at a limit of one. |
| Reactions.ReactionEngine.Apply | domain/reactions/engine.py:75-80 | One event is one step on the actor's vector; a new actor is entered even if the variable is unregistered. |
| Reactions.ReactionEngine.ApplyBatch | domain/reactions/engine.py:82-89 | The loop is the fold of the steps from the engine's current state. |
| Reactions.SaturatingSumMonotone | domain/reactions/engine.py:24-37 | The saturating fold stays in [-1, 1] and keeps the order of starting points. |
| Reactions.NonExpansive | domain/reactions/engine.py:24-37 | Two starting points never end further apart than they began. |
| Reactions.OneClampedShift | domain/reactions/engine.py:24-37 | Any number of clamped steps is a single clamped shift by the total of the deltas. |
| Reactions.ActorsMentioned | domain/reactions/engine.py:75-89 | After a batch the engine holds exactly the actors with an event, each once. |
| Reactions.ComponentIsFold | domain/reactions/engine.py:75-89 | Every component is the saturating fold of that actor's own deltas on that variable. |
| Reactions.AllComponentsInRange | domain/reactions/engine.py:24-37 | All components stay in [-1, 1]. |
| Reactions.ReorderingKeepsVectors | domain/reactions/engine.py:82-89 | Any reordering that keeps the order within each (actor, variable) pair gives the same vectors; `OrderMatters` has two events of one pair that, swapped, do not. |
| Reactions.ReorderingKeepsSentiment | domain/outcomes/builders.py:139-161 | The same reorderings keep the aggregate sentiment, although actors may be entered in another order. |
| Reactions.ProjectSentiment | domain/outcomes/builders.py:139-161 | The loop averages the clipped samples, with no value for no vectors. |
| Reactions.SentimentInUnit | domain/outcomes/builders.py:139-161 | There is a sentiment exactly when there is a vector, and it lies in [0, 1]. |
| Reactions.ClipIsIdle | domain/outcomes/builders.py:147-157 | On vectors the engine holds, the clip changes nothing: a sample is 1/2 plus an eighth of the signed sum. |
| Reactions.ReplayReactions | domain/reports/replay.py:18-57 | One frame per event, each showing the vectors and sentiment of its prefix, and the final sentiment. |
| Reactions.FrameIsOwnFold | domain/reports/replay.py:32-49 | A frame's vector is the clamped fold of that actor's own events in the prefix; its components lie in [-1, 1] and its sentiment exists and lies in [0, 1]. |
| OpinionDrift.Spread | domain/reactions/runtime.py:24-31 | The constructor's loop gives every household the links of its edges in order. |
| OpinionDrift.LinksAreSymmetric | domain/reactions/runtime.py:24-31 | Each end of an edge hears the other, equally often and with the same weights. |
| OpinionDrift.SocialReactionRuntime.Gather | domain/reactions/runtime.py:69-93 | Neighbours without an opinion record or household are skipped, a missing topic is heard as 0. |
| OpinionDrift.SocialReactionRuntime.Update | domain/reactions/runtime.py:69-118 | The computed opinion, written for one household on one topic, changes nothing else. |
| OpinionDrift.DriftInRange | domain/reactions/runtime.py:95-118 | Whatever the inputs, the outcome is a four-decimal number in [-1, 1]. |
| OpinionDrift.DriftWithin | domain/reactions/runtime.py:95-118 | Without a language-model push one step stays within four-decimal bounds on all voices heard, rounding included. |
| OpinionDrift.RunStaysWithin | domain/reactions/runtime.py:69-118 | No sequence of updates in any order leaves bounds that held at the start. |
| OpinionDrift.ExtremesNeverSpread | domain/reactions/runtime.py:69-118 | With all households holding four-decimal opinions, any run leaves the highest opinion no higher and the lowest no lower. |
| OpinionDrift.ConsensusIsStable | domain/reactions/runtime.py:69-118 | Where all voices agree, no run moves anyone. |
| OpinionDrift.RunTouchesOnly | domain/reactions/runtime.py:95-118 | Other topics and households that did not move keep their opinions. |
| OpinionDrift.NegativeWeightEscapes | domain/reactions/runtime.py:106-113 | A negative edge weight can carry the outcome out of the interval of the voices. |
| OpinionDrift.ZeroStabilityIsHalf | domain/reactions/runtime.py:104-118 | Stability 0 drifts as 0.5 and as no stability, and before rounding takes over the peer average only where it held it already. |
| OpinionDrift.ZeroStabilityShows | domain/reactions/runtime.py:104-118 | Where opinion and peer average lie more than 0.0002 apart the rounded outcome is not the peer average. |
| DriftLaws.AverageBalances | domain/reactions/runtime.py:104-114 | The peer average is the one point on which all weighted voices balance. |
| DriftLaws.FullStabilityKeeps | domain/reactions/runtime.py:104-118 | A household of stability one keeps a four-decimal opinion. |
| DriftLaws.StablerMovesLess | domain/reactions/runtime.py:104-118 | A more stable household never moves further, rounding included. |
| DriftLaws.HalfMeets | domain/reactions/runtime.py:104-118 | Without a declared stability a household moves to the middle of its opinion and its peers. |
| DriftLaws.AloneMovesByPush | domain/reactions/runtime.py:104-118 | Who hears no one moves by a tenth of the push, as far as the range goes. |
| DriftLaws.PushRaises | domain/reactions/runtime.py:116-118 | A stronger push never ends lower. |
| CsvText.ParseCsvLine | frontend/src/utils/csvImport.ts:24-53 | The index loop computes the recursive scanner's fields, trimmed. |
| CsvText.ParseInvertsEncode | frontend/src/utils/csvImport.ts:24-53 | Reading a record encoded by section 2 of RFC 4180, with any optional quoting, gives every field back, trimmed. |
| CsvText.RoundTripIff | frontend/src/utils/csvImport.ts:24-53 | The record itself comes back if and only if no field begins or ends with white space. |
| CsvText.LeadingSpaceIsLost | frontend/src/utils/csvImport.ts:24-53 | A field with a leading space does not come back. |
| CsvText.FileReadsBackIff | frontend/src/utils/csvImport.ts:162-164 | An encoded file reads back row for row, blank lines aside, if and only if no field holds a line feed. |
| CsvText.QuotedBreakIsTorn | frontend/src/utils/csvImport.ts:162-164 | A quoted field with a line feed does not come back. |
| CsvImport.FillRow | frontend/src/utils/csvImport.ts:193-198 | The column loop fills the flat row. |
| CsvImport.FlatIsLastNonEmpty | frontend/src/utils/csvImport.ts:193-198 | A field holds the last non-empty cell among its columns, and is absent if and only if there is none. |
| CsvImport.ParseHoldingsCsv | frontend/src/utils/csvImport.ts:161-234 | Format, holdings, errors and row count of the text, with both fatal errors. |
| CsvImport.RowKeptIff | frontend/src/utils/csvImport.ts:191-203 | A row becomes a holding if and only if an address column has a non-empty cell; otherwise it is an error with its number. |
| CsvImport.EveryRowAccountedIff | frontend/src/utils/csvImport.ts:188-233 | Holdings plus errors is the row count if and only if there is an address column or just one data row. |
| CsvImport.NoAddressColumnLosesRows | frontend/src/utils/csvImport.ts:188-233 | Two data rows without an address column give one error and no holding. |
| CsvImport.ErrorsNameSkippedRows | frontend/src/utils/csvImport.ts:200-203 | The errors name exactly the rows without an address, by their place among the non-blank lines. |
| CsvImport.HoldingsAreNamed | frontend/src/utils/csvImport.ts:205-230 | No holding has an empty address, and its financials, if any, hold a readable amount. |
| CsvImport.ExportThenImport | frontend/src/utils/csvImport.ts:161-234 | Importing an encoded file without line feeds in fields is importing its trimmed records. |
| CsvLaws.NameIsWords | frontend/src/utils/csvImport.ts:55-56 | A header's name is its words in lower case, split at underscores and white space and joined by single spaces. |
| CsvLaws.AliasIsListed | frontend/src/utils/csvImport.ts:64-92 | A name heads a field if and only if the field lists it, and no two fields list one name. |
| CsvLaws.FormatIsTold | frontend/src/utils/csvImport.ts:131-140 | The export tool is Stessa's if a header has one of its own names, else REI Hub's if one has its, else generic. |
| CsvLaws.ClassIsRead | frontend/src/utils/csvImport.ts:115-128 | Every property type is sent as a class that the server's import reads: the class listing it, or single family. |
| CsvLaws.CleanedIsClean | frontend/src/utils/csvImport.ts:150-155 | Cleaning an amount leaves no noise and leaves noiseless text alone. |
| CsvLaws.ReadableIff | frontend/src/utils/csvImport.ts:150-155 | An amount is readable exactly if something but noise is there and that is a number. |
| CsvLaws.PercentReadIff | frontend/src/utils/csvImport.ts:143-147 | A rate is read as a percentage exactly if it is above one or zero. |
| CsvLaws.SmallPercentIsLarge | frontend/src/utils/csvImport.ts:143-147 | "0.5%" is read as 0.5. |
| CsvLaws.HoldingReadsColumns | frontend/src/utils/csvImport.ts:193-230 | Each column of an imported holding is the last non-empty cell under one of its own names, and there are financials exactly if one of the six amounts is readable. |
| Recommender.HazardPenalty | services/property_recommender.py:313-324 | The loop returns the greatest level of the flags: none is above it and one attains it unless it is zero. |
| Recommender.ComponentsInUnit | services/property_recommender.py:231-416 | Every component lies in [0, 1] for every profile, property and snapshot. |
| Recommender.TotalInUnit | services/property_recommender.py:35-60 | Each strategy's weights add up to one, so the total needs no clip. |
| Recommender.ScoreInUnit | services/property_recommender.py:423-445 | Score and reported components are four-decimal numbers in [0, 1]. |
| Recommender.ScoreMonotone | services/property_recommender.py:423-445 | A property that is no worse in any component never scores lower, rounding included. |
| Recommender.ProxyPaymentPositive | services/property_recommender.py:356-363 | A positive price has a positive payment proxy, so the guard on it never fires. |
| Recommender.HazardRaisesSignalIff | services/property_recommender.py:327-344 | A hazard raises the signal score if and only if the safety part was below what the hazard leaves. |
| Recommender.BeforeTransitive | services/property_recommender.py:463 | The sort key is a strict order on scored properties, total up to equal ids. |
| Recommender.SortedInOrder | services/property_recommender.py:463 | Sorting orders the list and loses or adds nothing. |
| Recommender.RankProperties | services/property_recommender.py:448-464 | The loop filters and scores, and the slice of the sorted list is returned, for negative top_n as well. |
| Recommender.NoneLeftOutOutranks | services/property_recommender.py:448-464 | Returned and left-out properties make up the filtered candidates, and none left out outranks one returned. |
| Recommender.RankingIgnoresOrder | services/property_recommender.py:448-464 | With distinct ids the ranking does not depend on the order of the candidates. |
| RecommenderLaws.HoldRewardsYield | services/property_recommender.py:231-243 | The buy-and-hold score reaches q exactly if a year's rent reaches 4 + 6q percent of the price. |
| RecommenderLaws.FlipRewardsSpread | services/property_recommender.py:246-256 | The flip score reaches q exactly if the price stays within 110 - 35q percent of the median sale. |
| RecommenderLaws.LeaseFearsInventory | services/property_recommender.py:259-278 | The lease score is seven tenths of the buy-and-hold one and three tenths that inventory pressure takes away. |
| RecommenderLaws.RiskRewardsTarget | services/property_recommender.py:295-310 | The risk score reaches q exactly if the yield misses the target by at most 1 - q of it. |
| RecommenderLaws.UnderwritingRewardsCover | services/property_recommender.py:347-366 | The underwriting score reaches q exactly if six tenths of the rent cover 0.7 + 0.55q times the level payment on three quarters of the price. |
| RecommenderLaws.MomentumRewardsBalance | services/property_recommender.py:406-417 | The momentum score reaches q exactly if the pressure is within (1 - q)/2 of one half. |
| RecommenderLaws.UnpricedDefaults | services/property_recommender.py:231-366 | Without a rent or a positive price the yield scores take their defaults. |
| RecommenderLaws.SignalParts | services/property_recommender.py:327-344 | The signal is a hundredth of the safety score, what the worst hazard leaves, their mean, or one half. |
| RecommenderLaws.HazardsAreOrdered | services/property_recommender.py:313-324 | Low, moderate and high hazards take one, four and eight tenths, other texts nothing. |
| RecommenderLaws.StoredSafetyCountsAgainst | services/signal_providers/chicago_crime.py:139-144 | On safety scores from 0 to 10 a known score counts for less than none, and any hazard raises the signal. |
| RecommenderLaws.CloserScoresHigher | services/property_recommender.py:369-403 | The closer match scores higher, ties being those of municipality and ward, and of city and state. |
| RecommenderLaws.TradesDiffer | services/property_recommender.py:35-60 | A gain in the strategy's own measure is worth up to 4 times its size in risk to a flipper, 1.5 times to one who leases, 1.2 times to one who holds. |
| RecommenderLaws.RatesOfExchange | services/property_recommender.py:35-60 | The rates at which each strategy trades its measure for every other component. |
| RecommenderLaws.OwnMeasure | services/property_recommender.py:281-292 | Each strategy has its own measure; unknown ones have that of buying to hold. |
| RecommenderLaws.BudgetLeeway | services/property_recommender.py:98-104 | Exactly up to five percent above the budget a property passes the budget filter. |
| RecommenderLaws.YenPriceFirst | services/property_recommender.py:158-161 | The price asked is the one in yen if there is one, and the listed one otherwise. |
| MoneyJpy.ReadInvertsFormat | services/money_jp.py:51-77 | A reader of the oku, man and yen form gives back every amount from its printed form. |
| MoneyJpy.FormatIsInjective | services/money_jp.py:51-77 | No two amounts print the same. |
| MoneyJpy.GroupedIsNumeral | services/money_jp.py:58-77 | A printed number is its decimal numeral with a comma at exactly every fourth place from the right. |

## Left out

- IEEE floats: all numbers are exact reals, so the overflow arm of `_npv` and rounding error are not modelled.
- Rounding for display to two decimals in the schedules, results and summaries; the rounding of percentile ranks, opinions, scores and components is modelled.
- The random generators: a Monte Carlo run takes its draws as an argument, and any draws inside the sliders' ranges are allowed.
- Slider ranges with reversed ends, which the source refuses to construct.
- Amortization.AmortizationSchedule: requires at least one year and a principal other than zero, because the source divides by both.
- The Newton method in `InvestmentMetrics.irr`, the rest of `MonteCarloEngine`, `CashFlowModel`, `TaxEstimator` and `PortfolioMetrics`.
- SignalQueries.Query: stands for the database's ordered query; equal timestamps may come back in any order.
- Row ids, created_at columns, the full payload shapes of signals, and `str()` of a zoning code that is not text.
- HoldingDecision.ComputePreloaded: rationale texts and sources of candidates are not modelled; the negotiation and development policies are not, because the service does not register them.
- The owner's cohort: it always has one member, whose signals are its averages.
- HoldingDecision.BuiltinDecisionsAgree: one way where inventory pressure, safety or median rent is itself hidden, because the best score per action and the rounding can swallow the difference (`NeutralSafetyUnseen`). Exact conditions are proved over all policies, over all that read these three, and for the built-in ones where none of the three is hidden.
- Loading of the portfolio, its attention list order, equity and depreciation inputs in `build_portfolio_summary`.
- Isolation levels other than read committed: a session sees the committed log and its own pending rows. The events table has no unique constraint on sequence numbers.
- A commit that raises is taken to have committed nothing.
- StrategyRunner.Execute: labels of steps, the details of the stage steps and the payload of the completed event are not modelled; analysis, simulation and unified result are opaque values, and event publishing is a point at which other tasks may poll, because its failures are swallowed.
- Projected cash flow, recommendation rules and notes of a projected holding.
- ImportColumns.InsertsFollow: requires that no financials are stored under an id not given out yet, as the foreign key of the table ensures.
- BulkImport.HoldingsDb.Import: takes the resolved user and the chosen or created portfolio as arguments, because resolving them is a separate lookup.
- `str.strip`, `str.lower` and `toLowerCase` beyond ASCII letters, and beyond ASCII white space and the ideographic space in the bulk import.
- The WebSocket and HTTP plumbing around the limiter.
- RateLimit.LogIsWindow: requires the client's own logged requests in clock order, because a clock that runs backwards trims by an earlier instant.
- RateLimit.WindowBound: windows are half open, excluding the instant 60 seconds before their end, because the source trims that instant away.
- Convergence metrics, narrative clusters and vector distance of the reaction engine, and event metadata in replay frames.
- Selection of active households, round and sentiment deltas and narratives of the social runtime.
- OpinionDrift.SocialReactionRuntime.Update: the source computes the opinion and leaves writing it to its callers; that it is written before the next household moves is an assumption, as no caller is in the repository.
- OpinionDrift.ExtremesNeverSpread: covers runs without a language-model delta, because with one a voice may leave the envelope by design.
- `Number` of JavaScript is a function argument of the CSV import, and header names that collide with inherited object keys such as "constructor" are not modelled.
- Postal-code and place-name matching of the recommender: its outcome is an argument, with the scores the source gives to each outcome.
- Rationale strings of the recommender.
- Arithmetic of yen amounts, which is that of integers with a check for negatives, and conversions from and to floats.
