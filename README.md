# Ordinal logit of home-to-work trips

This project models the number of daily trips from home to work, in five
ordered categories 0, 1, 2, 3 and 4+. The model is an ordinal logit fitted
on the Swiss Mobility and Transport Microcensus 2015. The Dafny modules
follow the program's parts:

- `ordinal_link.dfy` (`OrdinalLink`): the link of the ordinal logit.
  - Four thresholds, built as tau1 plus three deltas, cut the latent utility
    axis into five intervals.
  - `ChoiceProba` gives each interval the mass a cumulative distribution
    function `F` puts on it.
  - The logistic CDF is not computed. Every statement holds for any `F`
    that is non-decreasing with values in [0, 1] (`IsCdf`).
- `linear_predictor.dfy` (`LinearPredictor`): coefficients and the utility
  as a dot product.
  - A coefficient is `Beta(name, initial value, lower bound, upper bound,
    status)`. The coefficient values are a parameter `coef`, keyed by the
    coefficient's name, as the dictionary of estimated betas is.
  - A non-zero status holds a coefficient at its initial value.
  - A coefficient fixed at 0 switches its feature off.
- `person.dfy` (`Person`): one row of the data file, with the survey's
  integer codes. Also the 0/1 value of a boolean expression and the row
  predicates of the filters.
- `home_work_estimation.dfy` (`HomeWorkEstimation`): the model as it is
  estimated.
  - The sample filter and the 76 coefficients of U.
  - The thresholds (tau1 bounded above by 3, deltas bounded below by 0).
  - Every feature group, with its exclusivity, split-pair and bound
    properties.
  - U, ChoiceProba, and the probability of the observed category whose
    logarithm is the log-likelihood contribution.
- `home_work_simulation.dfy` (`HomeWorkSimulation`): the model as it is
  applied to a population.
  - The age filter, its 16 coefficients and its thresholds (tau1 bounded
    above by 0).
  - Its own feature definitions, which differ from the estimation's in
    places: the work percentage is not capped, and NOGA division 46 is not
    wholesale.
  - The simulation of every remaining person.
  - The values the simulation runs on. `getBetaValues()` returns values only
    for the coefficients the estimation leaves free (those of U, the
    thresholds and the piecewise-linear coefficients), and `simulate` gives
    every other coefficient its initial value, 0. Only 7 of the 16
    coefficients of the simulated U are estimated. Three are held at 0 in the
    estimation (`b_executives`, `b_region_eastern_switzerland`,
    `b_nationality_nw`). Six are not declared there at all
    (`b_public_transport_connection_quality_are_na`,
    `b_tertiary_education_employees`, `b_business_sector_agriculture`,
    `b_business_sector_wholesale`, `b_business_sector_non_movers`,
    `b_home_work_distance`). These nine terms contribute 0 to the simulated U.
  - The estimated tau1 may lie in (0, 3], outside the simulation's own bound,
    and `simulate` does not apply bounds. The simulated probabilities are
    therefore stated for values within the estimation's bounds.
- `rule_table.dfy` (`RuleTable`): a column built by successive overriding
  masked writes, `df.loc[mask, col] = value`. The model holds it as an
  ordered rule list applied to an array, one masked write after the other.
- `survey_preparation.dfy` (`SurveyPreparation`): how the data file is
  built. The sample of the average number of trips
  (`src/estimate_choice_model.py:27-30`) makes the same two in-place drops
  as the estimation, so `HomeWorkEstimation.DropChildrenAndUnemployed`
  models it too.
  - Weekday trips only.
  - WA = WAA + WASK per household, capped in place at 4.
  - The crow-fly distance sentinel -999.
  - The seven `work_position` writes.
  - The per-household child counts.
- `validation.dfy` (`Validation`): the validation on held-out data.
  - The 80 / 20 head/tail split.
  - The expected number of trips.
  - The three `PT_subscription` writes.
  - The employee and population-group-1 subsets.

Where the source's comments and its code disagree, the model follows the
code. At `src/choice_models/nb_trips/estimation/home_work.py:120-121` the
comment says `tau1 <= 0`, but the estimation declares tau1 with upper bound
3. `HomeWorkEstimation.ThresholdsOrdered` states the bound 3, and only the
simulation bounds tau1 by 0.

The NOGA business-sector buckets are written as Python chained comparisons
on biogeme expressions, such as `1 <= noga_08 <= 7`. The model encodes the
intended closed interval (`Person.Between`). The as-written reading is under
"## Findings".

Inputs that the program takes from outside are parameters of the model:

- the CDF `F`;
- the coefficient values `coef` (in the simulation,
  `HomeWorkSimulation.SimulationCoef` builds them from the estimated values);
- biogeme's piecewise-linear formula `piecewise`, applied to age and work
  percentage with the source's breakpoints;
- the measured distance;
- the shuffled order of the rows.

## Model

| member | source | states |
|---|---|---|
| OrdinalLink.FromDeltas | src/choice_models/nb_trips/estimation/home_work.py:121-128 | tau2, tau3, tau4 exceed their predecessor by delta2, delta3, delta4; the thresholds are ordered exactly when no delta is negative |
| OrdinalLink.ChoiceProba | src/choice_models/nb_trips/estimation/home_work.py:390-394 | five entries; for a non-decreasing F into [0,1] and ordered thresholds each is in [0,1] and they sum to 1 |
| OrdinalLink.TailMass | src/choice_models/nb_trips/estimation/home_work.py:384-394 | the mass of the categories k and above is F(U - tau_k), the interval mapping of the comments |
| OrdinalLink.HeadMass | src/choice_models/nb_trips/estimation/home_work.py:384-394 | the mass of the categories below k is 1 - F(U - tau_k) |
| OrdinalLink.UtilityShiftsMassUp | src/choice_models/nb_trips/estimation/home_work.py:384-394 | raising U never increases P(0), never decreases P(4+), never decreases the mass of "k trips or more" |
| OrdinalLink.ThresholdShiftsMassDown | src/choice_models/nb_trips/estimation/home_work.py:384-394 | raising one threshold never decreases the mass of the categories below it |
| OrdinalLink.Elem | src/choice_models/nb_trips/estimation/home_work.py:398 | the observed category's probability exists exactly for WA in 0..4 and is then that entry |
| LinearPredictor.SwitchedOffFeatureIgnored | src/choice_models/nb_trips/estimation/home_work.py:305-382 | with an admissible value, a coefficient fixed at 0 leaves U unchanged whatever value its feature takes |
| LinearPredictor.DotOverKept | src/choice_models/nb_trips/estimation/home_work.py:305-382 | when every term a selection rejects has coefficient value 0, the dot product equals the one over the selected terms |
| LinearPredictor.OnlyActiveTermsCount | src/choice_models/nb_trips/estimation/home_work.py:305-382 | with admissible values, the dot product equals the dot product over the terms not fixed at 0 |
| HomeWorkEstimation.DropChildrenAndUnemployed | src/choice_models/nb_trips/estimation/home_work.py:29-32 | the two in-place drops leave exactly the rows with age > 14 and work_position != 0, in their order |
| HomeWorkEstimation.ThresholdsOrdered | src/choice_models/nb_trips/estimation/home_work.py:119-128 | values within the declared bounds give tau1 <= tau2 <= tau3 <= tau4 and tau1 <= 3 |
| HomeWorkEstimation.CarAvailabilityOf | src/choice_models/nb_trips/estimation/home_work.py:131-132 | both are 0/1, never both 1; car_avail_syn_pop is 1 exactly for car_avail 1 or 2 |
| HomeWorkEstimation.CityTypologyOf | src/choice_models/nb_trips/estimation/home_work.py:136-138 | urban, intermediate, rural are 0/1 and at most one is 1: exactly one for codes 1..3, none otherwise |
| HomeWorkEstimation.HouseholdTypeOf | src/choice_models/nb_trips/estimation/home_work.py:139-143 | the household-type dummies are 0/1 and exclusive, one exactly for codes 10, 210, 220, 230; couple_without_children_30 implies couple_without_children and age <= 30 |
| HomeWorkEstimation.ActivityOf | src/choice_models/nb_trips/estimation/home_work.py:144-146 | studying, inactive, active-without-percentage are 0/1 and exclusive, one exactly for ERWERB 3, 4, 9 |
| HomeWorkEstimation.PtQualityOf | src/choice_models/nb_trips/estimation/home_work.py:147-160 | the quality classes are 0/1 and exclusive, one exactly for quality 1..5; NA_car + NA_no_car equals [quality == 5], NA_car being its part with a car |
| HomeWorkEstimation.IncomeOf | src/choice_models/nb_trips/estimation/home_work.py:161-170 | the income dummies are 0/1 and exclusive, one exactly for -98 and 1..9 |
| HomeWorkEstimation.EducationOf | src/choice_models/nb_trips/estimation/home_work.py:172-181 | the four education buckets are 0/1, exclusive, and partition the codes 1..17 |
| HomeWorkEstimation.RegionOf | src/choice_models/nb_trips/estimation/home_work.py:182-188 | the region dummies are 0/1 and exclusive, one exactly for regions 1..7 |
| HomeWorkEstimation.EmploymentOf | src/choice_models/nb_trips/estimation/home_work.py:133-200 | employees and executives are [wp == 2], [wp == 1], never both; GA, male and italian employees are 1 exactly when GA_ticket == 1, sex == 1, language == 3 respectively and wp == 2, so never above employees |
| HomeWorkEstimation.HomeOfficeOf | src/choice_models/nb_trips/estimation/home_work.py:190-195 | working_from_home and its NA dummy are 0/1 and exclusive; working_from_home is 1 exactly for home_office 1 or 2 with a positive percentage |
| HomeWorkEstimation.SectorsOf | src/choice_models/nb_trips/estimation/home_work.py:202-231 | the NOGA sector dummies, employee and cadre variants included, are 0/1 and at most one is 1; none outside 1..99; retail exactly for division 47 |
| HomeWorkEstimation.AsWrittenNogaBucketsOverlap | src/choice_models/nb_trips/estimation/home_work.py:202-206 | read as written (upper bound only), division 5 of an employee is both agriculture and retail, and the code -99 is agriculture |
| HomeWorkEstimation.WorkPercentage | src/choice_models/nb_trips/estimation/home_work.py:233-238 | work_percentage is in [0,100]; 100 for a full-time job; otherwise the positive part-time percentage when it does not exceed 100 |
| HomeWorkEstimation.DistancesOf | src/choice_models/nb_trips/estimation/home_work.py:239-244 | distance_car + distance_no_car equals max(d,0)/100000, both non-negative, the car part zero without a car and the no-car part zero with one |
| HomeWorkEstimation.NbCarInHhClean | src/choice_models/nb_trips/estimation/home_work.py:245 | nb_car_in_hh_clean is non-negative, zero exactly for counts <= 0, the count otherwise |
| HomeWorkEstimation.NationalityOf | src/choice_models/nb_trips/estimation/home_work.py:247-300 | the nationality dummies are 0/1 and at most one is 1; Switzerland exactly for 8100; northwestern Europe exactly for its ten country codes |
| HomeWorkEstimation.NbBetween6And15InHh | src/choice_models/nb_trips/estimation/home_work.py:301-302 | the count adds back to the under-15 count with the under-6 count, and is non-negative when the under-6 count does not exceed it |
| HomeWorkEstimation.Terms | src/choice_models/nb_trips/estimation/home_work.py:35-382 | the 76 summands of U; every coefficient held fixed is held at 0, so its term is switched off; every free one is among the coefficients the estimation returns values for |
| HomeWorkEstimation.UtilityOf | src/choice_models/nb_trips/estimation/home_work.py:305-382 | with admissible coefficient values, U is the two piecewise terms plus the dot product over the coefficients not fixed at 0 |
| HomeWorkEstimation.ChoiceProbaAt | src/choice_models/nb_trips/estimation/home_work.py:390-394 | with coefficient values within their bounds, ChoiceProba is a probability vector over 0..4+ |
| HomeWorkEstimation.ObservedProba | src/choice_models/nb_trips/estimation/home_work.py:398 | Elem(ChoiceProba, WA) exists exactly for WA in 0..4 and is then in [0,1] |
| HomeWorkSimulation.ThresholdsOrdered | src/choice_models/nb_trips/apply_home_work_model_to_microcensus.py:113-275 | estimated values within the estimation's bounds give ordered thresholds, the estimation's; they meet the simulation's own bounds exactly when tau1 <= 0 |
| HomeWorkSimulation.EstimatedTau1AboveSimulationBound | src/choice_models/nb_trips/apply_home_work_model_to_microcensus.py:115 | tau1 = 2 is admissible for the estimation and outside the simulation's bound |
| HomeWorkSimulation.NotEstimatedStaysZero | src/choice_models/nb_trips/apply_home_work_model_to_microcensus.py:252-275 | for any returned dict holding none of the nine coefficients of U the estimation does not estimate (it may hold any others, such as the piecewise ones), each of the nine is 0 in the simulation |
| HomeWorkSimulation.OnlyEstimatedTermsCount | src/choice_models/nb_trips/apply_home_work_model_to_microcensus.py:210-275 | for any returned dict holding none of those nine coefficients, the simulated U is the piecewise terms plus the dot product over the terms whose coefficient was estimated |
| HomeWorkSimulation.EstimatedCoefficients | src/choice_models/nb_trips/apply_home_work_model_to_microcensus.py:47-111 | for any dict holding a value for every coefficient the estimation leaves free (and possibly more), seven coefficients of the simulated U (couple with children, studying, working from home, french, production, gastronomy, children under 6) take their estimated values |
| HomeWorkSimulation.HeldInEstimation | src/choice_models/nb_trips/apply_home_work_model_to_microcensus.py:51-107 | b_executives, b_region_eastern_switzerland and b_nationality_nw are held fixed in the estimation and are not among the values it returns |
| HomeWorkSimulation.UndeclaredInEstimation | src/choice_models/nb_trips/apply_home_work_model_to_microcensus.py:61-101 | six coefficients of the simulated U are not declared by the estimation and are not among the values it returns |
| HomeWorkSimulation.NotEstimatedNamesNotReturned | src/choice_models/nb_trips/apply_home_work_model_to_microcensus.py:47-111 | none of the nine coefficients of the simulated U that the estimation holds fixed or does not declare is among the values it returns |
| HomeWorkSimulation.SectorsOf | src/choice_models/nb_trips/apply_home_work_model_to_microcensus.py:179-198 | the ten sector dummies are 0/1 and at most one is 1; wholesale exactly for 45 and 49..54; none outside 1..99 |
| HomeWorkSimulation.Division46Differs | src/choice_models/nb_trips/apply_home_work_model_to_microcensus.py:185-186 | division 46 is in no simulation sector, while the estimation counts it as wholesale |
| HomeWorkSimulation.AsWrittenNogaBucketsOverlap | src/choice_models/nb_trips/apply_home_work_model_to_microcensus.py:179-186 | read as written, division 5 is both agriculture and wholesale |
| HomeWorkSimulation.WorkPercentage | src/choice_models/nb_trips/apply_home_work_model_to_microcensus.py:199-203 | work_percentage is non-negative and equals the estimation's wherever that one is not capped; above 100 the estimation's is 100 |
| HomeWorkSimulation.WorkPercentageNotCapped | src/choice_models/nb_trips/apply_home_work_model_to_microcensus.py:199-203 | a full-time job with a 50 % part time gives 150 here and 100 in the estimation |
| HomeWorkSimulation.TertiaryEducationEmployees | src/choice_models/nb_trips/apply_home_work_model_to_microcensus.py:160-162 | the sum of four equality tests is 0/1, 1 exactly for employees with codes 13..16, equal to the estimation's tertiary dummy times [wp == 2] |
| HomeWorkSimulation.HomeWorkDistance | src/choice_models/nb_trips/apply_home_work_model_to_microcensus.py:204 | the distance is non-negative, zero for a negative sentinel, and equals the estimation's car plus no-car distances for any car availability |
| HomeWorkSimulation.NationalityNorthwesternEurope | src/choice_models/nb_trips/apply_home_work_model_to_microcensus.py:205-207 | the sum of ten equality tests is 0/1 and equals the estimation's northwestern-Europe dummy |
| HomeWorkSimulation.BuildFeatures | src/choice_models/nb_trips/apply_home_work_model_to_microcensus.py:125-207 | every dummy is 0/1; executives, couple with children, studying, PT quality NA, eastern Switzerland, french and working from home equal the estimation's dummies; the sectors are the simulation's; work percentage and distance are non-negative |
| HomeWorkSimulation.Terms | src/choice_models/nb_trips/apply_home_work_model_to_microcensus.py:47-227 | the 16 summands of U; every coefficient is free with initial value 0 |
| HomeWorkSimulation.EstimatedOrNotReturned | src/choice_models/nb_trips/apply_home_work_model_to_microcensus.py:210-227 | every term of the simulated U has a coefficient the estimation returns or one of the nine it does not |
| HomeWorkSimulation.UtilityOf | src/choice_models/nb_trips/apply_home_work_model_to_microcensus.py:210-227 | when the nine coefficients the estimation does not return are 0, U is the piecewise terms plus the dot product over the terms whose coefficient it returns |
| HomeWorkSimulation.ChoiceProbaAt | src/choice_models/nb_trips/apply_home_work_model_to_microcensus.py:235-275 | with threshold values within the estimation's bounds (tau1 up to 3), ChoiceProba is a probability vector |
| HomeWorkSimulation.Simulate | src/choice_models/nb_trips/apply_home_work_model_to_microcensus.py:33-277 | exactly the rows with age <= 14 are dropped, whatever their work position; then one ChoiceProba per remaining row, at that row's U; a probability vector for threshold values within the estimation's bounds |
| RuleTable.LastMatchWins | src/estimate_choice_model.py:143-161 | after overriding writes, a row holds the value of the last write that selects it |
| RuleTable.NoMatchKeeps | src/estimate_choice_model.py:143-161 | a row that no write selects keeps its value (NaN for a new column) |
| RuleTable.WriteInOrder | src/estimate_choice_model.py:143-161 | the masked writes applied to the column one after the other leave every row as the ordered rule list says |
| SurveyPreparation.WeekendTripIgnored | src/estimate_choice_model.py:67-68 | a Saturday or Sunday trip changes no household's WA |
| SurveyPreparation.GroupKeys | src/estimate_choice_model.py:71 | the grouped table has each household number once, exactly those of the trips |
| SurveyPreparation.SumOfColumns | src/estimate_choice_model.py:71-100 | summing WAA and WASK per household and adding them is summing each row's trips to work |
| SurveyPreparation.CapAtFourProperties | src/estimate_choice_model.py:101-102 | the capped WA is at most 4, counts up to 4 are unchanged, capping twice is capping once |
| SurveyPreparation.CapColumnAtFour | src/estimate_choice_model.py:101-102 | the in-place write sets exactly the cells above 4 to 4 |
| SurveyPreparation.WorkTripsColumn | src/estimate_choice_model.py:97-102 | WA = WAA + WASK then capped: each cell is in [0,4] and is the capped sum |
| SurveyPreparation.AggregateWorkTrips | src/estimate_choice_model.py:67-102 | one row per household with a weekday trip, each once, and its WA in [0,4] is the capped sum of its weekday trips to work |
| SurveyPreparation.CrowFlyDistance | src/estimate_choice_model.py:114-125 | an unknown work coordinate gives -999; any other value is the measured distance of a row whose coordinate is known |
| SurveyPreparation.UnknownWorkplaceHasNoDistance | src/estimate_choice_model.py:124-125 | the -999 sentinel gives zero distance terms in both the estimation and the simulation |
| SurveyPreparation.WorkPositionRulesTable | src/estimate_choice_model.py:143-161 | the seven writes in their order produce the closed decision table of work positions, NaN where no rule applies |
| SurveyPreparation.NotEmployedMeansUnemployed | src/estimate_choice_model.py:158-161 | f40800_01 = -99 always ends as work position 0, whatever was written before |
| SurveyPreparation.AssignWorkPosition | src/estimate_choice_model.py:143-161 | the column built by the writes holds the decision table's value on every row |
| SurveyPreparation.CountAtMost | src/estimate_choice_model.py:167-174 | the per-household sum of the 0/1 column `alter <= a` is the number of the household's members aged a or less |
| SurveyPreparation.ChildCount | src/estimate_choice_model.py:167-174 | the left merge gives NaN exactly when the household has no member in the household table, else the number of its members aged a or less |
| SurveyPreparation.CountAtMostMonotone | src/estimate_choice_model.py:167-174 | a household has no more members aged at most a than aged at most b, for a <= b |
| SurveyPreparation.YoungChildrenAmongChildren | src/estimate_choice_model.py:167-174 | nb_less_than_6 and nb_less_than_15 are NaN together, otherwise the first never exceeds the second and the count between 6 and 15 is non-negative |
| Validation.HeadSize | src/validate_choice_model.py:86-87 | the head size is at most n and is the integer nearest to 0.8 n |
| Validation.Slices | src/validate_choice_model.py:80-95 | head(h) and tail(n - h) have h and n - h rows and, in this order, are the shuffled rows: disjoint and covering |
| Validation.ExpectedTrips | src/validate_choice_model.py:42-43 | for a probability vector the expected trips lie between P(any trip) and 4 P(any trip), so in [0,4] |
| Validation.ExpectedTripsOfChoiceProba | src/validate_choice_model.py:42-43 | for the model's probabilities the expected trips are the sum of F(U - tau_k) over the four thresholds |
| Validation.ExpectedTripsGrowsWithUtility | src/validate_choice_model.py:42-43 | a higher U never lowers the expected number of trips |
| Validation.ExpectedTripsColumn | src/validate_choice_model.py:42-43 | one expected-trips value per row, in [0,4] on rows holding a probability vector |
| Validation.Employees | src/validate_choice_model.py:47 | the employee subset holds exactly the rows with work_position 2, each as often as among the rows |
| Validation.PtSubscriptionRulesTable | src/validate_choice_model.py:61-63 | the three writes produce 1 with any subscription, 0 exactly when both answers are 2, -99 for a missing answer without a subscription, NaN otherwise |
| Validation.SubscriptionOverridesMissingAnswer | src/validate_choice_model.py:61-63 | the "= 1" and "= 0" writes never select the same row, and a subscription ends as 1 over a prior -99 |
| Validation.AddPtSubscription | src/validate_choice_model.py:61-63 | the column built by the writes holds the decision table's value on every row |
| Validation.Group1 | src/validate_choice_model.py:64-66 | group 1 holds exactly the rows with work_position 2, age <= 24, both subscriptions answered 2 (PT_subscription 0) and car_avail 1 or 2, each as often as among the rows |
| Validation.Group1AmongEmployees | src/validate_choice_model.py:47-66 | selecting group 1 among the employees gives the same rows in the same order |

## Left out

- biogeme's estimator and simulator (`BIOGEME`, `estimate`, `simulate`) are left out. They are library code whose optimisation is not visible. In the estimation, the optimiser's values are the parameter `coef`. In the simulation, the estimated values loaded from the pickle (or passed in) are the map `betas`. `HomeWorkSimulation.SimulationCoef` turns them into `coef`: a name missing from `betas` keeps its initial value.
- The logistic CDF and `log` are left out, being floating point. `F` is any non-decreasing function into [0,1], and the log-likelihood term is modelled by the probability it takes the logarithm of.
- `models.piecewiseFormula` is a library function with coefficients of its own. It is the parameter `piecewise`, with the source's breakpoints.
- File, CSV, SPSS and Excel I/O is left out, as are the merges with the person, household and typology tables, the column renames, `globals().update`, the working-directory changes and the prints.
- The geopandas distance computation is left out. The measured distance is a parameter; only the -999 sentinel and `fillna` are modelled.
- The shuffle (`sample(frac=1)`) is left out because it is random. `Validation.Slices` takes the rows in their shuffled order.
- The weighted means and standard deviations (`get_weighted_avg_and_std`) are left out, being an external module and float statistics.
- `src/run_trip_generation.py` is not part of this model: it is orchestration.
- The trip columns other than WAA and WASK that the aggregation also sums are left out; nothing downstream reads them.
- The sort order of the grouped table's index is left out. `SurveyPreparation.GroupKeys` lists each household once in order of first appearance; rows are later matched by household number.
- Missing (NaN) cells in the person columns are left out; the feature builders take integer codes.
- `HomeWorkEstimation.BuildFeatures` carries no contract of its own. Each feature group has its own builder, whose contract states the group's properties, and the model table cites those builders.
- The simulation's variables that are defined but do not enter its U are left out, as are the coefficients commented out in both files.
- `b_hh_income_na` is declared in the estimation (kept as `BHhIncomeNa`) but does not enter U, as in the source.
- The simulation's `database.data` and `df` are one frame: `Simulate` drops rows of the frame and returns the probabilities aligned with the remaining rows.
- `Validation.Slices` follows the `tail(0)` of current pandas (no rows) for a one-row frame.

## Findings

| source | as written | input that shows it | evidently intended | confidence | as-written member | corrected member |
|---|---|---|---|---|---|---|
| src/choice_models/nb_trips/estimation/home_work.py:202-231 | `lo <= noga_08 <= hi` on a biogeme expression expands to `(lo <= noga_08) and (noga_08 <= hi)`; the left comparison is an expression object, which is truthy, so `and` yields only `noga_08 <= hi` | noga_08 = 5 with work_position = 2 sets both agriculture_employee and retail; noga_08 = -99 counts as agriculture | the closed interval lo..hi, so that the sector dummies are exclusive and zero outside 1..99 | medium, not executed (depends on the biogeme version's truth value of an expression) | HomeWorkEstimation.AsWrittenNogaBucketsOverlap | HomeWorkEstimation.SectorsOf |
| src/choice_models/nb_trips/apply_home_work_model_to_microcensus.py:179-198 | the same chained comparisons in the simulation's sector definitions | noga_08 = 5 sets both agriculture and wholesale | the closed interval lo..hi | medium, not executed | HomeWorkSimulation.AsWrittenNogaBucketsOverlap | HomeWorkSimulation.SectorsOf |
