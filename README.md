# Population-Brewer in Dafny

Population-Brewer builds synthetic populations for metropolitan areas. It reads ACS
marginal estimates and PUMS household and person records, then fits household
weights with Iterative Proportional Updating (IPU) and prepares inputs for an
Iterative Proportional Fitting (IPF) solver. On the synthetic agents it runs two
simulations: a cardiovascular risk model that assigns risk strata by cascading
rounding, and a mass-violence model that pools agents into primary, secondary and
tertiary PTSD risk groups.

This project models that core:

- the IPU sweep, its gamma stopping rule, its iteration cap and the remainder-carry
  rounding of the weights (`ipu.dfy`, `rounding.dfy`);
- the IPF input preparation shared by the household side (`IPUWrapper`) and the
  metro side (`Metro`): seed matrices with epsilon substitution, destructive
  marginal slicing, marginal total equalisation (`ipf_prep.dfy`); and the
  wrapper- and metro-specific steps (`ipu_wrapper.dfy`, `metro.dfy`,
  `proportions.dfy`);
- the risk-strata allocation of the cardio model (`cardio_model.dfy`);
- the counters (`counters.dfy`) and the seed-cell predicates of `header/Counter.h`
  (`count_predicates.dfy`);
- the category classifiers of PUMS persons, households and agents (`person_pums.dfy`,
  `household_pums.dfy`, `agent.dfy`, `cardio_agent.dfy`, `violence_agent.dfy`);
- header-column lookup, estimate forwarding and the per-PUMA county-weight
  normalisation (`pop_brewer.dfy`, `county_weights.dfy`);
- the code-book, age-gender and origin-list readers of `Parameters` (`parameters.dfy`);
- the risk-pool selection of the violence model (`violence_model.dfy`).

The enumeration values come from `src/ACS.h` (`acs.dfy`). `text.dfy` models the
decimal text conversions the source relies on (`std::to_string`, `std::stoi`,
`std::stod`, the `strtod`-based `to_number`, `boost::split`,
`boost::char_separator`). `real_sums.dfy` and `wrappers.dfy` hold sums over reals,
`Result`/`Option` and a few facts about sets and maps.

Numbers the source holds as `double` are Dafny `real`s. Division, rounding and
comparisons are therefore exact. Random draws are parameters: a method that shuffles,
samples or draws takes the values it would have drawn. Files are given as sequences
of already-tokenised lines or records. Where the source calls `exit()` or throws, the
model returns a failure value.

How the code and its specification differ, where the model follows the code:

- `IPU::solve` divides by the weighted column sum without checking it for zero
  (`src/IPU.cpp:48`). The sweep therefore requires every weighted column sum to be
  positive. `Ipu.SweepReady` states this as positive weights, positive constraints
  and a contributing household in every column.
- In both roundings the carry stays in [-0.5, 0.5). The rounded total is therefore
  within 0.5 of the real total, not equal to it.
- `setHouseholdType` (`src/HouseholdPums.cpp:27-38`) assigns
  `ACS::HHType::LivingAloneNonFam` and `NotLivingAloneFam`, which `src/ACS.h` does
  not define; its `HHType` enumeration has only `MarriedFam`, `MaleHHFam`,
  `FemaleHHFam` and `NonFamily`. The model keeps the two names as variants of its
  own `HouseholdPums.HHType`, beside the plain code of every other type. The four
  labels are looked up in the household-type code-book map one at a time, in the
  order of the tests: `||` stops at the first label whose code is the type, so later
  labels are never looked up. A label that is reached and missing is a failure, as
  `at` throws. `setRace` and `setEducation` look up their labels the same way. Households that are not
  living alone are classed as `NotLivingAloneFam` although their labels say
  nonfamily; the model keeps that as written.

## Model

| member | source | states |
|---|---|---|
| Wrappers.LookupAll | src/HouseholdPums.cpp:27-38 | `std::map::at` over a list of labels: success exactly when every label is a key, with each label's value in order; otherwise the failure names a missing label. The classifiers are compared with it on a complete code book |
| Wrappers.At | src/HouseholdPums.cpp:29 | `std::map::at`: the value under a key that is present, and the `out_of_range` failure naming the key otherwise |
| Wrappers.SortedKeys | src/Metro.cpp:318-332 | the keys of a `std::map<int, ...>` in iteration order: every key exactly once, strictly ascending |
| RealSums.SumAppend | src/IPU.cpp:47 | the sum of a concatenation is the sum of the sums |
| RealSums.SumScale | src/IPUWrapper.cpp:535-560 | scaling every entry by c scales the sum by c |
| RealSums.SumZeroIffAllZero | src/Metro.cpp:412-422 | a sum of non-negative terms is zero exactly when every term is zero |
| RealSums.SumPositive | src/IPU.cpp:47-48 | a sum of non-negative terms with one positive term is positive |
| RealSums.Floor | src/CardioModel.cpp:157-163 | `floor`: the greatest integer not above x |
| RealSums.Ceil | src/CardioModel.cpp:157-163 | `ceil`: the least integer not below x |
| RealSums.Trunc | src/CardioModel.cpp:121-122 | the C++ conversion of a double to an integer truncates toward zero, for both signs |
| RealSums.SumCombine | src/IPU.cpp:47-53 | the sum of a + d·b is sum(a) + d·sum(b) |
| Rounding.RoundStepBalance | src/IPU.cpp:92-104 | one rounding step keeps the carry in [-0.5, 0.5), gives the floor or the ceiling of the value, and the rounded value plus the new carry equals the value plus the old carry |
| Rounding.RoundAllFloorOrCeil | src/IPU.cpp:92-104 | every rounded weight is the floor or the ceiling of its weight, whatever the starting carry |
| Rounding.RoundAllConserves | src/IPU.cpp:92-104 | the rounded total plus the final carry equals the real total plus the initial carry, and the carry stays in [-0.5, 0.5) |
| Rounding.RoundedTotal | src/IPU.cpp:92-104 | from a zero carry the rounded total is within (−0.5, 0.5] of the real total, and equal to it when the real total is a whole number |
| Rounding.RoundAllAppend | src/CardioModel.cpp:85-95 | rounding a + b from carry c is rounding a, then rounding b from the carry a left: the carry threaded by reference across person types |
| Rounding.RoundAllPrefix | src/IPU.cpp:92-104 | rounding one more weight appends one rounded value and advances the carry by one step |
| Proportions.Shares | src/Metro.cpp:414-418 | each entry divided by the row total, or all zeros when that total is zero |
| Proportions.PrefixSums | src/Metro.cpp:420 | `std::partial_sum`: entry i is the sum of the first i + 1 entries, one entry per entry |
| Proportions.Cumulative | src/Metro.cpp:412-422 | the cumulative table of a row: the partial sums of its shares, as long as the row |
| Proportions.PrefixSumsMonotone | src/Metro.cpp:419-420 | the running sums (`std::partial_sum`) of non-negative terms never decrease |
| Proportions.SharesSumToOne | src/Metro.cpp:414-418 | with a non-zero total, the shares add up to exactly one |
| Proportions.CumulativeEndsAtOne | src/Metro.cpp:412-422 | a non-empty row with a non-zero total ends its cumulative table at exactly 1 |
| Proportions.SharesNonNegative | src/Metro.cpp:414-418 | non-negative estimates give non-negative shares |
| Proportions.CumulativeNonDecreasing | src/Metro.cpp:412-422 | non-negative estimates give a non-decreasing table that starts at 0 or above and, with a non-zero total, stays at most 1 |
| Proportions.CumulativeOfZeroTotal | src/Metro.cpp:412-422 | a row with a zero total gives a table of zeros |
| Proportions.ConvertRow | src/Metro.cpp:414-420 | the in-place division and partial sum of one row produce exactly that row's cumulative table |
| Proportions.ConvertToProportions | src/Metro.cpp:412-422 | the same keys as the estimates, each row replaced by its cumulative table |
| Ipu.WeightedColumnSumPositive | src/IPU.cpp:47-48 | under the sweep's precondition, every weighted column sum is positive, so the ratio at line 48 is defined |
| Ipu.Step | src/IPU.cpp:47-53 | the update for constraint j: one weight per household, each contributing household scaled by cons[j] over the weighted column sum, which must not be zero |
| Ipu.StepMeetsConstraint | src/IPU.cpp:47-53 | right after the update for constraint j, column j's weighted sum equals cons[j] exactly |
| Ipu.StepKeepsReady | src/IPU.cpp:45-54 | the update for a constraint keeps the weights positive, so the next update's column sum is positive too |
| Ipu.SweepPrefix | src/IPU.cpp:45-54 | any prefix of the constraint updates keeps the sweep's precondition |
| Ipu.Sweep | src/IPU.cpp:45-54 | a full sweep over the constraints keeps the sweep's precondition |
| Ipu.Iterate | src/IPU.cpp:39-81 | any number of sweeps keeps the sweep's precondition |
| Ipu.SweepMeetsLastConstraint | src/IPU.cpp:45-54 | after a sweep, the constraint updated last is met exactly |
| Ipu.Deviations | src/IPU.cpp:34-37 | one relative deviation per constraint, each non-negative |
| Ipu.GammaZeroIffAllMet | src/IPU.cpp:56-59 | gamma is never negative, and is zero exactly when every weighted column sum equals its constraint |
| Ipu.IpuSolver.RoundWeights | src/IPU.cpp:87-105 | the carry rounding of the weights from a zero carry: each value is the floor or the ceiling of its weight, the total is within 0.5 of the weights' total, and the weights are left unchanged |
| Ipu.IpuSolver.UpdateConstraint | src/IPU.cpp:47-53 | the row-by-row update of constraint j leaves exactly the weights of the pure step for j |
| Ipu.IpuSolver.Solve | src/IPU.cpp:14-85 | fails and leaves the weights alone exactly when the column count differs from the constraint count, the row count differs from the weight count, or there are no constraints. Otherwise it runs 1 to 2001 sweeps and stops at the first one whose gamma changes by less than eps. It warns exactly when more than 2000 sweeps ran |
| Ipu.IpuSolver.RunSweeps | src/IPU.cpp:34-81 | the loop runs between 1 and MAX_ITERATIONS + 1 sweeps. The weights are the iterated sweeps, every earlier change of gamma was at least eps, and convergence means the last change was below eps. Without convergence exactly 2001 sweeps ran, and the warning flag means more than 2000 |
| Ipu.IpuSolver.SweepAndMeasure | src/IPU.cpp:45-77 | one loop pass: one sweep more, the new gamma of those weights, and its change from the previous gamma |
| Ipu.IpuSolver.Sweep1 | src/IPU.cpp:45-54 | the in-place sweep leaves exactly the weights of one more iterated sweep |
| Ipu.SampleIsSweepReady | src/Source.cpp:15-28 | the 8×5 sample matrix with its constraints and unit weights meets the sweep's precondition |
| Ipu.SampleFirstColumnSum | src/Source.cpp:15-28 | in the sample, constraint 0 has three contributing households of weight 1 |
| Ipu.SampleFirstUpdate | src/Source.cpp:15-28 | the sample's first update scales those three households to 35/3 and leaves the other five at 1 |
| Text.DigitChar | src/CardioAgent.cpp:135-136 | the digit character of a value below 10 reads back as that value |
| Text.NatToString | src/CardioAgent.cpp:135-136 | `std::to_string` of a count: a non-empty run of digits whose value is the count |
| Text.IntToString | src/CardioAgent.cpp:135-136 | `std::to_string` of an integer: the digits of its value, after a '-' when it is negative |
| Text.ParseIntOfIntToString | src/Parameters.cpp:224 | `std::stoi(std::to_string(i)) == i` for every integer |
| Text.ScanIntDigits | src/Parameters.cpp:224 | reading on through more digits gives the value of all the digits read |
| Text.ScanDecimalDigits | src/PersonPums.cpp:250-260 | the same for the whole part of a decimal number |
| Text.DecimalOfIntToString | src/PersonPums.cpp:250-260 | `strtod` reads back the text `std::to_string` writes for an integer |
| Text.ToNumberInt | src/PersonPums.cpp:250-268 | `to_number<int>`: −1 when `strtod` accepts no prefix of the text, otherwise the integer `operator>>` reads |
| Text.ToNumberReal | src/PersonPums.cpp:250-268 | `to_number<double>`: −1 when `strtod` accepts no prefix, otherwise the decimal number at the start |
| Text.ToNumberIntOfIntToString | src/HouseholdPums.cpp:104-121 | `to_number<int>` reads back every integer's decimal text |
| Text.ToNumberIntOfLetters | src/HouseholdPums.cpp:104-121 | text that starts with a capital letter gives the sentinel −1 |
| Text.ToLower | src/IPUWrapper.cpp:92 | `tolower` on each character: ASCII capitals become lower case, the length and every other character stay the same |
| Text.LastField | src/IPUWrapper.cpp:94 | the last field of `boost::split` is a suffix without the separator, preceded by the separator unless it is the whole text |
| Text.Tokens | src/Agent.cpp:25 | the `boost::char_separator` tokens are non-empty and contain no separator |
| Text.TokensFromRun | src/Agent.cpp:25 | a run without separators extends the token being read |
| Text.TokensCons | src/Agent.cpp:25 | a leading token followed by a separator comes off the front of the token list |
| Text.TokensOfOne | src/Agent.cpp:25 | a non-empty run without separators is a single token |
| Text.StodOfNatToString | src/IPUWrapper.cpp:419 | `std::stod` reads back the decimal text of a count |
| Text.StoiOfIntToString | src/Parameters.cpp:224 | `std::stoi` reads back the decimal text of any integer |
| CardioModel.RoundCounts | src/CardioModel.cpp:151-166 | `rounding` replaces every count by its carry rounding from `adj`, keeps each stratum number, and hands on the new carry |
| CardioModel.RoundCountsProperties | src/CardioModel.cpp:154-165 | every rounded count is the floor or the ceiling of its count; from a carry in [-0.5, 0.5) the rounded total plus the new carry equals the real total plus the old carry, and the new carry stays in that range |
| CardioModel.ScaledStrata | src/CardioModel.cpp:90-92 | each stratum share multiplied by the population size, with its stratum number unchanged |
| CardioModel.ScaleStrata | src/CardioModel.cpp:90-92 | the in-place scaling loop produces exactly the scaled strata and keeps the stratum numbers |
| CardioModel.ScaledTotal | src/CardioModel.cpp:90-92 | the scaled counts add up to the population size times the total share, so to the population size when the shares add up to one |
| CardioModel.RoundEntry | src/CardioModel.cpp:88-95 | one person type: its shares scaled by its number of agents, then rounded from the carry so far, which is passed on |
| CardioModel.ScaleAndRound | src/CardioModel.cpp:85-95 | the first loop, with `adj` declared once: the whole map is rounded as one vector from a zero carry, keeping the person types and stratum numbers |
| CardioModel.ThreadStep | src/CardioModel.cpp:85-95 | rounding one more person type from the carry left by the earlier ones extends the rounding of the concatenated counts |
| CardioModel.TakeUnit | src/CardioModel.cpp:113-135 | the inner loop for one agent erases the zero-count strata in front, takes one unit from the first positive stratum and breaks |
| CardioModel.WeightPermutation | src/CardioModel.cpp:112 | a shuffle leaves every weighted total of the strata unchanged |
| CardioModel.ConsumeUnits | src/CardioModel.cpp:113-135 | an agent's turn moves exactly one unit of the stratum it gets: for every stratum number the units left plus the unit taken are the units before, and counts stay whole |
| CardioModel.ConsumeTotal | src/CardioModel.cpp:113-135 | an agent gets a stratum exactly when a unit is left; the total then drops by one, and otherwise the strata have all been erased |
| CardioModel.AssignConserves | src/CardioModel.cpp:110-136 | over one person type, for every stratum number, the units left plus the agents given that number are the rounded units of it |
| CardioModel.AssignTotal | src/CardioModel.cpp:110-136 | the number of agents served is the smaller of the agents and the units, and the units left are the rest |
| CardioModel.AssignAll | src/CardioModel.cpp:110-134 | the agent loop of one person type as a function: one choice per agent, each agent shuffling the strata left and taking one unit, and the strata left at the end |
| CardioModel.Bump | src/CardioModel.cpp:130-131 | `pop_risk_strata[risk_type - 1]++`: the tally of the stratum given goes up by one and every other tally stays |
| CardioModel.AssignPersonType | src/CardioModel.cpp:110-136 | the agent loop of one person type: the choices and strata left of the pure assignment, a tally per stratum number equal to the agents given it, the agents updated by those choices, and one counter key per assignment |
| CardioModel.NoUnitsIffEmpty | src/CardioModel.cpp:113-135 | with whole counts numbered 1..n, no number has units left exactly when nothing at all is left |
| CardioModel.TallyMatchesIffNoneLeft | src/CardioModel.cpp:138-145 | stratum i + 1's tally equals its rounded target exactly when no unit of it is left |
| CardioModel.EmptyIffEnoughAgents | src/CardioModel.cpp:110-136 | nothing is left of a person type exactly when it has at least as many agents as units |
| CardioModel.CheckPassesIff | src/CardioModel.cpp:138-145 | every tally matches its target exactly when the person type has at least as many agents as units; with more agents the check passes though the extra agents get no stratum |
| CardioModel.UnitsOfUnique | src/CardioModel.cpp:138-145 | the units of a stratum number that only one entry carries are that entry's count |
| CardioModel.ConsumeTypes | src/CardioModel.cpp:113-135 | an agent's turn only lowers counts and erases entries, so the stratum numbers left are among those before |
| CardioModel.ChoicesWithin | src/CardioModel.cpp:121-131 | every stratum handed out is one of the person type's numbers |
| CardioModel.AgentsOfType | src/CardioModel.cpp:106 | the agents `equal_range` visits for a person type: as many as the agents filed under it, each filed under it |
| CardioModel.AgentsOfTypeIncreasing | src/CardioModel.cpp:106 | `equal_range` visits the agents of a type in insertion order, each once |
| CardioModel.AgentsOfTypeComplete | src/CardioModel.cpp:106 | `equal_range` misses no agent of the type |
| CardioModel.CheckTargets | src/CardioModel.cpp:138-145 | the comparison loop passes exactly when every tally equals its rounded target |
| CardioModel.ApplyChoices | src/CardioModel.cpp:110-131 | the agents' fields after the served agents record their strata (`setRiskFactors`) in turn; the list keeps its length |
| CardioModel.ApplyChoicesAt | src/CardioModel.cpp:124 | only the served agents change, and only their stratum, which becomes the one they were given |
| CardioModel.HitKeysCount | src/CardioModel.cpp:125 | the counter keys naming stratum t for a person type are as many as its agents given t |
| CardioModel.PrefixInjective | src/CardioModel.cpp:125 | the stratum number in front of a person-type key reads back |
| CardioModel.HitKeysLength | src/CardioModel.cpp:125 | one counter key per agent served |
| CardioModel.AbortedStays | src/CardioModel.cpp:138-145 | once the check has failed (`exit`), later person types change nothing |
| CardioModel.AssignEntriesKeepsFields | src/CardioModel.cpp:97-147 | the assignment phase changes the agents' strata and nothing else about them |
| CardioModel.AssignEntriesTyped | src/CardioModel.cpp:97-147 | assigning strata keeps every agent under its person type |
| CardioModel.TotalUnitsIsSum | src/CardioModel.cpp:113-135 | the units of a strata vector add up to the sum of its counts |
| CardioModel.ExactRounding | src/CardioModel.cpp:151-166 | values with a whole sum rounded from a zero carry hit the sum exactly and leave no carry |
| CardioModel.CarryStaysZero | src/CardioModel.cpp:85-95 | when every share vector adds up to one, each person type's scaled counts add up to its population and the carry between types stays zero |
| CardioModel.RoundedEntryWhole | src/CardioModel.cpp:85-95 | then each rounded person type has whole counts whose total is its number of agents |
| CardioModel.EntryCompletes | src/CardioModel.cpp:110-145 | a person type whose rounded vector holds one unit per agent passes its check; each of its agents gets a stratum in 1..n and a counter key, and agents of other types are untouched |
| CardioModel.PrefixPasses | src/CardioModel.cpp:97-147 | the first m person types pass their checks and add one counter key per agent |
| CardioModel.PrefixMarks | src/CardioModel.cpp:97-147 | after the first m person types, every agent of a listed type has a stratum and every other agent its old fields |
| CardioModel.SetRiskFactorsCompletes | src/CardioModel.cpp:78-149 | when every strata vector is numbered 1..n with non-negative shares adding up to one, `setRiskFactors` never aborts; each agent of a listed type gets a stratum and a counter key, and agents of unlisted types keep their fields |
| CardioModel.EligibleAgent | src/CardioModel.cpp:57-62 | an agent is made only for a person aged 35 or over who is WhiteNH or BlackNH; it falls in one of the five NHANES age bands, with the NHANES origin of its origin and stratum −1 |
| CardioModel.AddRiskFactorCounts | src/CardioModel.cpp:125 | one `addRiskFactorCount` per key, in order |
| CardioModel.AssignType | src/CardioModel.cpp:110-145 | one pass of the assignment loop: the agent loop of a person type, then its check, as the pure assignment of that type |
| CardioModel.CardioModel.constructor | src/CardioModel.cpp:10-13 | no agents and an empty person-type index |
| CardioModel.CardioModel.AddAgent | src/CardioModel.cpp:53-76 | an eligible person is appended as a new agent and filed under its person type (origin, sex, age band, education); anyone else is ignored |
| CardioModel.CardioModel.ClearList | src/CardioModel.cpp:178-184 | no agents and an empty index afterwards |
| CardioModel.CardioModel.SetRiskFactors | src/CardioModel.cpp:78-149 | the rounded map keeps every person type and stratum number and holds each type's scaled, carry-rounded counts. The agents, the abort flag and the risk-factor counter are those of assigning that map type by type, stopping at the first failed check |
| CardioModel.CardioModel.AssignRounded | src/CardioModel.cpp:97-147 | the assignment loop over the rounded map as the pure assignment: agents, abort flag and counter |
| Counters.ZeroCounts | src/Counter.cpp:85-86 | the registered keys are exactly the pool entries, each with no hits |
| Counters.WithKeysOfEmpty | src/Counter.cpp:78-86 | inserting the pool into the cleared map registers exactly the pool, each key at zero |
| Counters.WithKeysConcat | src/Counter.cpp:111-113 | inserting one run of keys after another is inserting their concatenation |
| Counters.InsertPool | src/Counter.cpp:85-86 | the insert loop over a pool gives the map with the pool's keys inserted (`insert` keeps a key already present) |
| Counters.StrataKeys | src/Counter.cpp:112-113 | one key per stratum rf = 1..16 |
| Counters.StrataKeyAt | src/Counter.cpp:113 | position rf − 1 holds decimal(rf) followed by the pool entry |
| Counters.InsertRiskFactorKeys | src/Counter.cpp:111-113 | the two nested loops insert, entry by entry, the sixteen stratum keys of each pool entry in order |
| Counters.Hit | src/Counter.cpp:153-212 | adding to a registered key or an initialised tick raises it by one; an unknown key changes nothing, and other keys keep their counts |
| Counters.HitAllConcat | src/Counter.cpp:153-170 | adding a list of keys and then another is adding their concatenation |
| Counters.CountOf | src/Counter.cpp:22-36 | the count of a registered key is its number of hits, and −1 exactly for an unregistered key |
| Counters.HitAllCounts | src/Counter.cpp:153-170 | after any run of adds, the registered keys are the same and each has gained the number of times it was added |
| Counters.CountAfterHits | src/Counter.cpp:22-36 | a counter started from a pool reads the number of adds of a pool key, and −1 for a key outside the pool |
| Counters.RiskFactorKeyCount | src/Counter.cpp:109-113 | sixteen keys are inserted per NHANES pool entry |
| Counters.RiskFactorKeyAt | src/Counter.cpp:111-113 | key j is decimal(j mod 16 + 1) followed by pool entry j div 16 |
| Counters.RiskFactorKeysDistinct | src/Counter.cpp:113 | two strata never share a key for the same pool entry |
| Counters.ZeroTicks | src/Counter.cpp:124-127 | a tick map holding exactly the ticks 0..steps−1, each at zero |
| Counters.WithZeroTicksIsUnion | src/Counter.cpp:144-149 | inserting ticks at zero keeps every count already present and adds the missing ticks at zero |
| Counters.FillTicks | src/Counter.cpp:124-134 | the tick loop: ticks 0..steps−1 inserted at zero into the PTSD and resolved maps, and into the reach maps for the first PTSD type |
| Counters.FillTreatment | src/Counter.cpp:122-135 | one treatment after `clearCounter`: every PTSD type's maps hold ticks 0..steps−1 at zero, and so do the reach maps |
| Counters.Counter.constructor | src/Counter.cpp:5-7 | every map empty |
| Counters.Counter.HouseholdCount | src/Counter.cpp:22-28 | `getHouseholdCount`: the hits of a registered household type, otherwise −1 |
| Counters.Counter.PersonCount | src/Counter.cpp:30-36 | `getPersonCount`: the hits of a registered person type, otherwise −1 |
| Counters.Counter.InitHouseholdCounter | src/Counter.cpp:76-88 | the old household tallies are gone and exactly the pool's household types are registered at zero; the other maps are unchanged |
| Counters.Counter.InitPersonCounter | src/Counter.cpp:90-100 | the same for the person types |
| Counters.Counter.InitRiskFacCounter | src/Counter.cpp:102-114 | the old risk-factor tallies are gone and exactly the sixteen stratum keys of every NHANES pool entry are registered at zero |
| Counters.Counter.InitPtsdCounter | src/Counter.cpp:116-140 | every treatment × PTSD type has its PTSD and resolved maps, every treatment its reach maps, and the CBT, SPR and natural-decay maps hold exactly ticks 0..steps−1 at zero |
| Counters.Counter.InitTreatmentCounter | src/Counter.cpp:142-150 | ticks 0..steps−1 added at zero to the CBT, SPR and natural-decay maps; ticks already present keep their counts |
| Counters.Counter.AddHouseholdCount | src/Counter.cpp:153-157 | one hit more for a registered household type, nothing otherwise |
| Counters.Counter.AddPersonCount | src/Counter.cpp:159-163 | one hit more for a registered person type, nothing otherwise |
| Counters.Counter.AddRiskFactorCount | src/Counter.cpp:165-170 | one hit more for a registered risk-factor key, nothing otherwise |
| Counters.Counter.AddPtsdCount | src/Counter.cpp:172-176 | one more for an initialised tick of the given treatment and PTSD type; every other map and tick unchanged |
| Counters.Counter.AddPtsdResolvedCount | src/Counter.cpp:178-182 | the same for the resolved counts |
| Counters.Counter.AddCbtReach | src/Counter.cpp:184-188 | one more for an initialised tick of the treatment's CBT reach |
| Counters.Counter.AddSprReach | src/Counter.cpp:190-194 | one more for an initialised tick of the treatment's SPR reach |
| Counters.Counter.AddCbtCount | src/Counter.cpp:196-200 | one more for an initialised CBT tick, nothing otherwise |
| Counters.Counter.AddSprCount | src/Counter.cpp:202-206 | one more for an initialised SPR tick, nothing otherwise |
| Counters.Counter.AddNaturalDecayCount | src/Counter.cpp:208-212 | one more for an initialised natural-decay tick, nothing otherwise |
| Counters.Counter.ClearMap | src/Counter.cpp:653-663 | the chosen tally map is left empty and the others unchanged |
| Counters.Counter.ClearCounter | src/Counter.cpp:665-682 | every PTSD, resolved, reach and treatment map is left empty |
| CountPredicates.OriginBySexByAge.Holds | header/Counter.h:10-18 | an agent matches exactly when its gender, race field (holding the origin) and age category are the functor's |
| CountPredicates.EduByOrigin.HoldsForPerson | header/Counter.h:20-27 | a person matches exactly when sex, origin, education and education age band are the functor's |
| CountPredicates.EduByOrigin.HoldsForAgent | header/Counter.h:28-30 | an agent matches on gender, race field, education and education age band |
| CountPredicates.MaritalStatusByOrigin.Holds | header/Counter.h:33-42 | an agent matches on gender, race field, marital status and marital age band |
| CountPredicates.EduByRace.Holds | header/Counter.h:44-52 | a person matches on sex, race (not origin), education and education age band |
| CountPredicates.EduByOriginByPUMA.Holds | header/Counter.h:54-62 | built as (sex, eduAge, origin, edu, puma); a person matches on sex, origin, education, education age band and PUMA |
| CountPredicates.MaritalStatusByPUMA.Holds | header/Counter.h:64-73 | built as (sex, maritalAge, origin, marital, puma); a person matches on sex, origin, marital status, marital age band and PUMA |
| CountPredicates.EducationCell | header/Counter.h:54-62 | the `EduByOriginByPUMA` functor Metro's `getCount` counts with, as a predicate |
| CountPredicates.EducationGroup | header/Counter.h:54-62 | the persons of one sex, age band, origin and PUMA whose education lies in 1..n |
| CountPredicates.EducationColumnTotal | header/Counter.h:54-62 | the `EduByOriginByPUMA` cell counts of one group summed over education 1..n |
| CountPredicates.CountIf | header/Counter.h:10-73 | `std::count_if`: at most the length; zero exactly when no element matches, the length exactly when all do |
| CountPredicates.CountIfAppend | header/Counter.h:10-73 | the count over a concatenation is the sum of the counts |
| CountPredicates.CountIfSame | header/Counter.h:10-73 | predicates that agree on every element count the same |
| CountPredicates.CountIfPartition | header/Counter.h:54-62 | counting elements that satisfy exactly one of two disjoint predicates adds their counts |
| CountPredicates.EducationCellsPartition | header/Counter.h:54-62 | summed over education 1..n, the `EduByOriginByPUMA` cells of one sex, age band, origin and PUMA count every person of that group with an education in 1..n exactly once |
| HouseholdPums.HouseholdTypeOf | src/HouseholdPums.cpp:27-38 | the two living-alone nonfamily codes give LivingAloneNonFam and the two not-living-alone codes NotLivingAloneFam (the first test winning); every other code passes through |
| HouseholdPums.HouseholdType | src/HouseholdPums.cpp:27-38 | `setHouseholdType` with its `at` lookups in the order of the tests: with all four labels present it is the classification by their codes; a failure names a missing label |
| HouseholdPums.HouseholdTypeExtends | src/HouseholdPums.cpp:29-33 | a code book that adds labels to one that already decides the type gives the same type: only the labels the `||` tests reach matter |
| HouseholdPums.HouseholdTypeStopsEarly | src/HouseholdPums.cpp:29 | a code book holding only the male living-alone code classifies that code as LivingAloneNonFam, and any other code fails on the female living-alone label |
| HouseholdPums.HouseholdSize | src/HouseholdPums.cpp:40-48 | min(size, HHsize7): sizes of seven and more share the top category, smaller sizes are kept |
| HouseholdPums.IncomeCategoryIsFirstAbove | src/HouseholdPums.cpp:53-64 | a non-negative income gets the first category, in enum order, whose threshold exceeds it; no category is found only when the income reaches every threshold |
| HouseholdPums.HouseholdIncomeCategory | src/HouseholdPums.cpp:50-66 | the category loop; a negative income is category −1 before any threshold is consulted |
| HouseholdPums.SetHouseholds | src/HouseholdPums.cpp:18-25 | the index, type, size and income parsed with `to_number` and classified, failing exactly when the type lookup or the income lookup fails; an income above every threshold leaves the old category in place |
| PersonPums.Ethnicity | src/PersonPums.cpp:47-58 | Not_Hispanic exactly for the Not_Hispanic code, Hispanic for every other code |
| PersonPums.RaceCategory | src/PersonPums.cpp:60-81 | the White and Black codes are kept, the American-Indian range collapses to one race, and a code matching no test becomes Two_Or_More |
| PersonPums.Race | src/PersonPums.cpp:60-83 | `setRace` with its lookups in the order of the tests: with every race label present it is the classification by their codes; a failure names a missing label |
| PersonPums.RaceExtends | src/PersonPums.cpp:60-80 | a code book that adds labels to one that already decides the race gives the same race: only the labels the early-stopping tests reach matter |
| PersonPums.Origin | src/PersonPums.cpp:85-119 | every Hispanic person is Hisp; a non-Hispanic person maps by race, with Hawaiian_Pacific falling through to SomeOtherNH (the missing `break`); a race outside the ACS range keeps the previous origin |
| PersonPums.OriginNeverHawaiianNH | src/PersonPums.cpp:103-107 | because of that fall-through, no person is ever given the origin HawaiianNH |
| PersonPums.RaceThenOriginIsAcsOrigin | src/PersonPums.cpp:60-119 | with a code book whose White and Black codes are the ACS ones, every person gets an ACS origin |
| PersonPums.EducationCategory | src/PersonPums.cpp:121-146 | codes below "Grade 9" are Less_9th_Grade, codes up to "12th grade" are 9th–12th grade, and any code matching no test is Graduate_Degree |
| PersonPums.Education | src/PersonPums.cpp:121-146 | `setEducation` with its lookups in the order of the tests: with every education label present it is the classification by their codes; a failure names a missing label |
| PersonPums.EducationExtends | src/PersonPums.cpp:121-145 | a code book that adds labels to one that already decides the education gives the same education |
| PersonPums.LookupsStopEarly | src/PersonPums.cpp:63-125 | the lookups stop at the test that decides: a code book with only "White alone" classifies a White person, one with only "Grade 9" a person below it, and a code past them fails on the next label |
| PersonPums.EduAgeCat | src/PersonPums.cpp:148-165 | the four bands 18–24, 25–34, 35–44, 45–64; every other age, under 18 included, is Age_65_Over |
| PersonPums.EduAgeCatMonotone | src/PersonPums.cpp:148-165 | from 18 on, the bands follow the age order |
| PersonPums.MaritalAgeCat | src/PersonPums.cpp:167-187 | no band (the field is left as it was) exactly for ages under 15; otherwise the band whose bounds hold the age |
| PersonPums.MaritalAgeCatMonotone | src/PersonPums.cpp:167-187 | from 15 on, the marital bands follow the age order |
| PersonPums.SetDemoCharacters | src/PersonPums.cpp:17-26 | the raw fields parsed with `to_number`, then ethnicity, race and origin derived; fails exactly when `setRace` does |
| PersonPums.SetSocialCharacters | src/PersonPums.cpp:28-35 | the education band from the stored age, the education, the marital band (kept under 15) and the marital status; fails exactly when `setEducation` does; nothing else changes |
| Agents.AgeRange | src/Agent.cpp:25-31 | the age-category name split on '_' with its first token dropped: the lower bound, and the upper bound when the category spans more than one age |
| Agents.AgeCatNameTokens | src/Agent.cpp:25-30 | the tokens of each age-category name are "Age" and its bounds |
| Agents.NameTokens | src/Agent.cpp:25-30 | "Age_l" and "Age_l_h" split into their two or three parts |
| Agents.DemoAge | src/Agent.cpp:33-41 | one token left is the age; two tokens give the drawn age between them |
| Agents.DemoAgeInCategory | src/Agent.cpp:33-41 | with a draw inside the bounds the age lies within its category |
| Agents.AgeCatsTile | src/Agent.cpp:28 | the category bounds are ordered and the categories tile the ages one after the other |
| Agents.EduAgeCatAfter | src/Agent.cpp:89-107 | the bands of `PersonPums::setEduAgeCat` from 18 on; an age under 18 leaves the category unchanged |
| Agents.MaritalAgeCatAfter | src/Agent.cpp:109-129 | the bands 15–19, 20–34, 35–44, 45–54, 55–64, 65+; a younger age leaves the category unchanged |
| Agents.FirstAbove | src/Agent.cpp:180-187 | the search loop: one past the first index whose cumulative probability exceeds u, or −1 exactly when none does |
| Agents.ValueOf | src/Agent.cpp:171-191 | −1 when key 10·gender + ageCat is absent; a failure (`at`) exactly when the key has no row for the race; otherwise a value in 1..\|pr\| or −1, as the search finds |
| Agents.DrawFromCumulativeTable | src/Agent.cpp:177-187 | on a cumulative table of non-negative estimates with a non-zero total, a draw in [0, 1) always finds a category, the one whose interval holds the draw |
| Agents.Agent.constructor | src/Agent.cpp:6-8 | every attribute starts at −1 |
| Agents.Agent.SetID | src/Agent.cpp:14-17 | only the id changes |
| Agents.Agent.SetDemoAttributes | src/Agent.cpp:19-43 | the category, gender and race as given, and the age from the category name, which lies within the category |
| Agents.Agent.SetEduAgeCat | src/Agent.cpp:89-107 | only the education age band changes, as the banding says |
| Agents.Agent.SetMaritalAgeCat | src/Agent.cpp:109-129 | only the marital age band changes, as the banding says |
| Agents.Agent.GetValue | src/Agent.cpp:171-191 | the search over the table of the agent's race and the given key |
| Agents.Agent.SetEducation | src/Agent.cpp:45-65 | the band first, then the education drawn for gender and that band; the band changes even when the lookup fails |
| Agents.Agent.SetMaritalStatus | src/Agent.cpp:67-87 | the marital band, then the status drawn for it |
| CardioAgent.NhanesAgeCat | src/CardioAgent.cpp:34-54 | −1 exactly below 35; otherwise one of 35–44, 45–54, 55–64, 65–74, 75+, each ten years wide but the last |
| CardioAgent.NhanesOrigin | src/CardioAgent.cpp:20 | WhiteNH exactly for WhiteNH persons, BlackNH for everyone else |
| CardioAgent.NhanesEducation | src/CardioAgent.cpp:23 | HS_or_less exactly for education codes up to High_School, some college otherwise |
| CardioAgent.DigitToString | src/CardioAgent.cpp:135-136 | a single digit is written as one character |
| CardioAgent.PersonTypeKeyDigits | src/CardioModel.cpp:68 | with one-digit categories the person type is four characters, one per field |
| CardioAgent.AgentTypeKeyInjective | src/CardioAgent.cpp:133-139 | with one-digit categories, two agent-type strings are equal exactly when all five fields agree |
| CardioAgent.CardioAgent.constructor | src/CardioAgent.cpp:11-28 | the person's fields, their NHANES recoding and age band, and stratum −1 |
| CardioAgent.CardioAgent.SetNhanesAgeCat | src/CardioAgent.cpp:34-54 | only the NHANES age band changes |
| CardioAgent.CardioAgent.SetRiskStrata | src/CardioAgent.cpp:57-59 | only the stratum changes |
| CardioAgent.CardioAgent.AgentType | src/CardioAgent.cpp:133-139 | the decimal strings of stratum, origin, sex, age band and education, concatenated |
| ViolenceAgent.AgeCat | src/ViolenceAgent.cpp:362-372 | 14–34, 35–64 and 65+, each if and only if; −1 exactly below 14 |
| ViolenceAgent.NewOrigin | src/ViolenceAgent.cpp:374-380 | Hisp, WhiteNH and BlackNH keep their codes; every other origin becomes OtherNH |
| ViolenceAgent.DummiesOneHot | src/ViolenceAgent.cpp:451-470 | every dummy is 0 or 1; exactly one age dummy is set when the band is set (none for −1), and exactly one origin dummy always |
| ViolenceAgent.StudentIsNoTeacher | src/ViolenceAgent.cpp:607-621 | no one is both a student (14–18, 9th–12th grade) and a teacher (25–64, at least a bachelor's degree) |
| ViolenceAgent.PtsdType | src/ViolenceAgent.cpp:558-570 | primary over secondary over tertiary, each if and only if; −1 exactly when no flag is set |
| ViolenceAgent.ViolenceAgent.constructor | src/ViolenceAgent.cpp:12-54 | the person's fields, the agent index, no school, no flag, no friends, and the derived band, origin and dummies |
| ViolenceAgent.ViolenceAgent.SetSchoolName | src/ViolenceAgent.cpp:426-429 | only the school name changes |
| ViolenceAgent.ViolenceAgent.SetFriendSize | src/ViolenceAgent.cpp:431-443 | size when it is positive and the agent is 14 or older, otherwise 0 |
| ViolenceAgent.ViolenceAgent.SetFriend | src/ViolenceAgent.cpp:445-449 | appends only while the list holds at most friendSize entries, so it never grows beyond friendSize + 1 |
| ViolenceAgent.ViolenceAgent.SetPtsdStatus | src/ViolenceAgent.cpp:408-424 | sets the flag of the given type; other types change nothing |
| ViolenceAgent.ViolenceAgent.GetPtsdStatus | src/ViolenceAgent.cpp:539-556 | the flag of the given type, false for any other type |
| ViolenceAgent.ViolenceAgent.IsFriend | src/ViolenceAgent.cpp:632-646 | true exactly when some friend carries b's agent index |
| ViolenceAgent.ViolenceAgent.IsCompatible | src/ViolenceAgent.cpp:623-630 | false exactly for the same household, the same index, a full friend list on b, or an existing friend |
| CountyWeights.ParsedRows | src/PopBrewer.cpp:249-257 | the rows read into the temporary multimap, one county per row keyed by state + PUMA, or the first `std::stoi` failure |
| CountyWeights.ParsedRowsElement | src/PopBrewer.cpp:249-257 | county i is row i's name, parsed PUMA code and population under the key state + PUMA text |
| CountyWeights.ParsedRowsStaysFailed | src/PopBrewer.cpp:249-257 | a failed parse stays failed, with the same error, for more rows |
| CountyWeights.ReadPumaRows | src/PopBrewer.cpp:249-257 | the read loop produces exactly the parsed rows |
| CountyWeights.WeightedAll | src/PopBrewer.cpp:267-272 | one weighted county per county, in order |
| CountyWeights.WeightedAllElement | src/PopBrewer.cpp:267-272 | weighted county i is county i with its share of its group |
| CountyWeights.MapCountiesToPuma | src/PopBrewer.cpp:237-276 | fails exactly when a row does not parse; otherwise every parsed county is inserted exactly once, with its share of its group's population (as a multiset: the output multimap's order is not modelled) |
| CountyWeights.WeighAll | src/PopBrewer.cpp:259-275 | the outer loop, one `equal_range` after another, inserts every county exactly once with its weight |
| CountyWeights.PickKey | src/PopBrewer.cpp:259-274 | the next group visited has a key not yet visited |
| CountyWeights.VisitGroup | src/PopBrewer.cpp:259-275 | visiting one more group adds exactly that group's weighted counties |
| CountyWeights.WeighGroup | src/PopBrewer.cpp:261-272 | one `equal_range`: the group's counties, each with its population over the group's population |
| CountyWeights.GroupPopulation | src/PopBrewer.cpp:263-265 | the summing loop gives the group's population |
| CountyWeights.GroupKeys | src/PopBrewer.cpp:261 | every county of a group has the group's key |
| CountyWeights.GroupsAdd | src/PopBrewer.cpp:259-275 | adding a key to the visited set adds its group to the weighted output |
| CountyWeights.GroupsNone | src/PopBrewer.cpp:259 | no group visited, nothing inserted |
| CountyWeights.GroupsAll | src/PopBrewer.cpp:274 | once every key occurring has been visited, every county has been |
| CountyWeights.GroupWeights | src/PopBrewer.cpp:267-269 | the weights of part of a group add up to that part's population over the group's |
| CountyWeights.GroupWeightsSumToOne | src/PopBrewer.cpp:259-275 | the weights of the counties sharing a state + PUMA key sum to 1 whenever the group's population is not zero |
| PopBrewer.FirstIndex | src/PopBrewer.cpp:297-309 | the position of the first header equal to the name, or −1 exactly when there is none |
| PopBrewer.GetColumnIndex | src/PopBrewer.cpp:297-309 | the linear scan returns exactly that position |
| PopBrewer.GetColumnIndexMap | src/PopBrewer.cpp:279-294 | the loop builds the index map, stopping at the first missing variable (`exit`) |
| PopBrewer.IndexMapStaysNone | src/PopBrewer.cpp:287-288 | once a variable is missing, the whole lookup fails |
| PopBrewer.IndexMapFails | src/PopBrewer.cpp:282-293 | the lookup fails exactly when some variable's name is not a header |
| PopBrewer.IndexMapKeys | src/PopBrewer.cpp:290 | on success the keys are exactly the variables' integrals |
| PopBrewer.IndexMapFirst | src/PopBrewer.cpp:290 | each key holds the column index of the first variable with that integral (`insert` does not overwrite) |
| PopBrewer.PickColumns | src/PopBrewer.cpp:196-198 | exactly `size` columns, or the `out_of_range` of the first missing index or column |
| PopBrewer.PickColumnsValues | src/PopBrewer.cpp:196-198 | on success position i holds column idx[i] |
| PopBrewer.PickColumnsStaysFailed | src/PopBrewer.cpp:196-198 | a failed pick stays failed, with the same error |
| PopBrewer.KnownRows | src/PopBrewer.cpp:190-192 | the rows whose GEO ID is a known metro, in order |
| PopBrewer.SetEstimates | src/PopBrewer.cpp:186-202 | the loop forwards exactly what the pure forwarding computes |
| PopBrewer.ForwardedStaysFailed | src/PopBrewer.cpp:186-202 | a failed forward stays failed for more rows |
| PopBrewer.ForwardedRows | src/PopBrewer.cpp:186-202 | on success, rows of unknown metros are skipped and each known row sends, under its GEO ID and in order, exactly the `size` columns the index map picks |
| IpfPrep.SeedRow | src/IPUWrapper.cpp:658-675 | one seed row holds a cell for each column category 1..colSize, in order |
| IpfPrep.SeedCells | src/IPUWrapper.cpp:656-676 | the seed has exactly rowSize * colSize cells |
| IpfPrep.SeedCellsLayout | src/Metro.cpp:432-450 | the cell of 1-based categories (row, col) sits at index (row - 1) * colSize + (col - 1), the row-major layout the IPF array is assigned from |
| IpfPrep.SeedCellPositive | src/IPUWrapper.cpp:660-674 | with non-negative weights and counts every seed cell is positive: a zero frequency becomes 0.001 |
| IpfPrep.Rescaled | src/IPUWrapper.cpp:704-717 | every entry of a marginal multiplied by the other total and divided by its own |
| IpfPrep.RescaledTotal | src/IPUWrapper.cpp:704-717 | after rescaling, the marginal's total is the target total |
| IpfPrep.AdjustedTotals | src/IPUWrapper.cpp:693-720 | after adjustMarginals both marginals have the same total, the larger of the two, the marginal that held it is untouched and no length changes |
| IpfPrep.IpfStaging.constructor | src/Metro.cpp:496-501 | the seed, the marginals and the size vector start empty |
| IpfPrep.IpfStaging.CreateSeedMatrix | src/IPUWrapper.cpp:654-677 | appends exactly the row-major seed cells; the marginals and sizes are untouched |
| IpfPrep.IpfStaging.AppendSeedRow | src/Metro.cpp:434-449 | appends exactly one seed row |
| IpfPrep.IpfStaging.SetMarginals | src/IPUWrapper.cpp:679-691 | the first size entries become a new marginal, the rest is what the caller keeps, and the two put together give the input back |
| IpfPrep.IpfStaging.AdjustMarginals | src/Metro.cpp:467-494 | the first two marginals become their adjusted pair; later marginals, the seed and the sizes are untouched |
| IpfPrep.IpfStaging.RecordSizes | src/IPUWrapper.cpp:581-582 | the sizes of the two marginals are appended to the size vector |
| IpfPrep.IpfStaging.Clear | src/IPUWrapper.cpp:722-732 | the seed, the marginals and the size vector are emptied |
| IpfPrep.IpfStaging.PrepareIpf | src/IPUWrapper.cpp:572-583 | the input to the IPF solve: the row-major seed, the two sliced marginals adjusted to one common total, their sizes, and what is left of the caller's vectors |
| IpfPrep.ScaleTo | src/Metro.cpp:475-493 | the scaling loop computes exactly the rescaled marginal |
| IpfPrep.Frequency | src/IPUWrapper.cpp:660-666 | the county loop accumulates exactly the population-weighted count of the cell |
| IpuWrapper.Guarded | src/IPUWrapper.cpp:599-606 | each constraint is the estimate, with an exact zero replaced by 0.01 |
| IpuWrapper.GuardedAppend | src/IPUWrapper.cpp:597-607 | guarding distributes over concatenation, so row-by-row pooling equals pooling the whole |
| IpuWrapper.FlattenNonNegative | src/IPUWrapper.cpp:286-291 | rows of non-negative estimates lay out into a non-negative vector |
| IpuWrapper.PooledConstraintsPositive | src/IPUWrapper.cpp:595-608 | constraints pooled from non-negative estimates are all positive |
| IpuWrapper.FlattenLength | src/IPUWrapper.cpp:286-291 | rows of one width lay out into rows * width entries |
| IpuWrapper.FlattenUniformIndex | src/IPUWrapper.cpp:286-291 | entry (t, s) of uniform rows lands at index t * width + s |
| IpuWrapper.ConstraintIndexRanges | src/IPUWrapper.cpp:616-643 | the child cells take constraint indices 0..63 and the adult cells 64..623, in the loops' order |
| IpuWrapper.ChildKeyLookup | src/IPUWrapper.cpp:616-628 | the key "0" + sex + age + origin of a child cell finds the constraint inserted with it |
| IpuWrapper.AdultKeyLookup | src/IPUWrapper.cpp:630-643 | the key sex + education age + origin + education of an adult cell finds the constraint inserted with it |
| IpuWrapper.Refined | src/IPUWrapper.cpp:340-374 | refinement never adds households |
| IpuWrapper.RefinedKeepsValidHouseholds | src/IPUWrapper.cpp:340-374 | when every household has members, a household survives exactly when all its members have a constraint above 0.01 |
| IpuWrapper.RefinedIsSublist | src/IPUWrapper.cpp:370-373 | every surviving household comes from the input |
| IpuWrapper.RefinedStep | src/IPUWrapper.cpp:340-374 | one household step: the household is kept exactly when its verdict is true, and the verdict is carried to the next |
| IpuWrapper.RefineHouseholds | src/IPUWrapper.cpp:340-374 | the household loop keeps exactly the refined households, in their order |
| IpuWrapper.ScanPersons | src/IPUWrapper.cpp:345-368 | the member scan computes exactly the household's verdict |
| IpuWrapper.ScanMembers | src/IPUWrapper.cpp:345-368 | the scan stops at the first invalid member: with no member the verdict is the carried one, otherwise it says whether every member is valid |
| IpuWrapper.HouseholdsBySize | src/IPUWrapper.cpp:542-551 | the households of each size, family and nonfamily added together |
| IpuWrapper.SizeShares | src/IPUWrapper.cpp:542-551 | each size's households over all households |
| IpuWrapper.Weighted | src/IPUWrapper.cpp:542-551 | entry i weighted by the household size i + 1 |
| IpuWrapper.AdjustedSizes | src/IPUWrapper.cpp:559-560 | the rescaling keeps the number of estimates |
| IpuWrapper.Rescaled | src/IPUWrapper.cpp:559-560 | each estimate over the old total times the new total |
| IpuWrapper.RescaledScale | src/IPUWrapper.cpp:559-560 | rescaling is one common factor, so the proportions are kept, and the total becomes the new total |
| IpuWrapper.AdjustedSizesScale | src/IPUWrapper.cpp:528-562 | the adjusted estimates are the old ones scaled by new total / old total and add up to the new household total |
| IpuWrapper.SizesCoverAll | src/IPUWrapper.cpp:535-551 | the size totals account for every household |
| IpuWrapper.SharesAreScaledSizes | src/IPUWrapper.cpp:542-551 | the shares are the size totals over all households and add up to one |
| IpuWrapper.NewTotalAddsDiff | src/IPUWrapper.cpp:553-557 | the new household total is the old total plus the household difference |
| IpuWrapper.AdjustedSizesMeetTarget | src/IPUWrapper.cpp:528-562 | after adjustment the households hold exactly 0.995 * totalPop - pop_gqs persons, counting each size-x household as x persons |
| IpuWrapper.AdjustedPopulation | src/IPUWrapper.cpp:556-560 | scaling the estimates scales the population they hold by the same factor |
| IpuWrapper.SharesPopulation | src/IPUWrapper.cpp:542-551 | the population of the shares is the population over all households |
| IpuWrapper.DiffTimesShares | src/IPUWrapper.cpp:538-553 | the household difference times the shares' population is the population missing from the target |
| IpuWrapper.TargetArithmetic | src/IPUWrapper.cpp:553-560 | the arithmetic of the adjustment: the scaled population equals the target |
| IpuWrapper.UnsignedRemOfNonNegative | src/IPUWrapper.cpp:807-809 | `ACS::HHSize::_size()` is a `std::size_t`, so the `int` difference is taken modulo 2^64 before `%` and `/`; on a difference that is not negative the unsigned remainder and quotient are the mathematical ones |
| IpuWrapper.UnsignedRemOfNegative | src/IPUWrapper.cpp:807 | on a negative difference they are not: the unsigned remainder of −2 by the number of sizes is 0, where the mathematical one is 5 |
| IpuWrapper.IncomeRowSize | src/IPUWrapper.cpp:805-814 | the decoded size is one of 1..7 |
| IpuWrapper.IncomeRowRoundTrip | src/IPUWrapper.cpp:805-814 | decoding a row of the income seed into (type, size) and encoding it back gives the row, and encoding a valid pair and decoding it gives the pair |
| IpuWrapper.IncomeRowDecodeStep | src/IPUWrapper.cpp:807-812 | exactly the row's size leaves a multiple of the number of sizes, and that multiple plus one is the row's type |
| IpuWrapper.DecodeIncomeRow | src/IPUWrapper.cpp:805-814 | for a row in 1..INT_MAX, the rows createSeedMatrix passes, the unsigned decoding loop yields the digits of the row's type and size |
| IpuWrapper.CountyStates | src/IPUWrapper.cpp:88-95 | the state of each county, in table order |
| IpuWrapper.FirstSeenExact | src/IPUWrapper.cpp:96-105 | the first-seen list holds each entry once and nothing else |
| IpuWrapper.FirstSeenStep | src/IPUWrapper.cpp:96-105 | one step appends the entry only when it is new |
| IpuWrapper.StateListExact | src/IPUWrapper.cpp:84-109 | the state list holds each county's state exactly once and nothing else |
| IpuWrapper.IpuWrapper.constructor | src/IPUWrapper.cpp:18-21 | keeps the county table and the population; the pools and counts start empty |
| IpuWrapper.IpuWrapper.AddConstraints | src/IPUWrapper.cpp:595-608 | appends every estimate in key order, zeros replaced, every appended constraint non-zero, and nothing else changes |
| IpuWrapper.IpuWrapper.RefineHHPumsList | src/IPUWrapper.cpp:330-378 | the household list becomes exactly the refined list, judged against the person constraints after the household ones |
| IpuWrapper.IpuWrapper.AdjustHHSizeEstimates | src/IPUWrapper.cpp:528-562 | the result is the adjusted estimate vector and adds up to the new household total |
| IpuWrapper.IpuWrapper.GetStateList | src/IPUWrapper.cpp:84-109 | the states in first-seen order, each once, exactly the states of the counties |
| IpuWrapper.IpuWrapper.GetCount | src/IPUWrapper.cpp:771-829 | the number of PUMS records whose key is the cell's key for the estimate type, and 0 for any other type |
| IpuWrapper.IpuWrapper.CreateSeedMatrix | src/IPUWrapper.cpp:654-677 | appends the row-major seed cells counted by getCount, nothing else changes |
| IpuWrapper.SizeSharesPass | src/IPUWrapper.cpp:542-551 | the first loop computes exactly the shares, their size-weighted sum and the population of the estimates |
| IpuWrapper.NewTotalPass | src/IPUWrapper.cpp:556-557 | the second loop computes exactly the new household total |
| IpuWrapper.ScaleEstimates | src/IPUWrapper.cpp:559-560 | the last loop scales every estimate by new total / old total |
| Metro.InsertByPuma | src/Metro.cpp:31-34 | filing a county adds exactly that county to the table |
| Metro.InsertByPumaSorted | src/Metro.cpp:31-34 | the table stays ordered by PUMA code, and entries of an equal or smaller key keep their place, so equal keys keep their insertion order |
| Metro.InsertByPumaElements | src/Metro.cpp:31-34 | the table after filing holds only the old entries and the new county |
| Metro.RowsFor | src/Metro.cpp:220-221 | the rows under a GEO ID all come from the table filed under that GEO ID |
| Metro.Zeros | src/Metro.cpp:237-239 | n columns, each "0" |
| Metro.FillWithZeros | src/Metro.cpp:234-242 | the map gains exactly the remaining origin codes |
| Metro.FillWithZerosPointwise | src/Metro.cpp:234-242 | the fill keeps every existing entry and gives every new code the zero row |
| Metro.InsertRaceRowsKeys | src/Metro.cpp:220-232 | each row read moves its origin's code from the origin table into the map, so the codes in the map and those left in the table together are all the codes |
| Metro.ValuesAfterRemove | src/Metro.cpp:231 | erasing an origin removes at most its code from the codes left |
| Metro.RaceEstimatesKeys | src/Metro.cpp:213-245 | on success the map has exactly one entry per origin code |
| Metro.InsertRaceRowsOnlyRowCodes | src/Metro.cpp:221-232 | step 1 inserts only the codes of origins that have a row |
| Metro.MissingOriginsAreZero | src/Metro.cpp:234-242 | an origin without an estimate row gets the all-zero row |
| Metro.RepeatedOriginFails | src/Metro.cpp:225-231 | a second row for the same origin fails, because the first erased it and `at` throws |
| Metro.Prepend | src/Metro.cpp:318-332 | the values collected so far in front of a result that may fail: it fails exactly when the rest fails |
| Metro.PrependTwice | src/Metro.cpp:318-332 | collecting in two steps is collecting the concatenation |
| Metro.StridedStep | src/Metro.cpp:366-375 | one step of a strided loop either fails the row or joins the values collected |
| Metro.ValuesUnder | src/Metro.cpp:326 | the column indices the age-gender mapping holds under one key all come from the mapping |
| Metro.ColumnSumOfNumbers | src/Metro.cpp:325-327 | when every listed column is a number the sum is the sum of those numbers |
| Metro.ColumnSumFails | src/Metro.cpp:327 | any listed column out of range or not a number makes the sum fail |
| Metro.RowsOf | src/Metro.cpp:323 | the estimate rows of the keys, in key order |
| Metro.SortedKeysIn | src/Metro.cpp:323 | the keys in iteration order all have a row |
| Metro.EstimateRows | src/Metro.cpp:323 | one row per origin key |
| Metro.OriginSums | src/Metro.cpp:323-330 | on success one sum per origin |
| Metro.OriginSumsElement | src/Metro.cpp:323-330 | the k-th sum is the sum over the k-th origin's listed columns |
| Metro.TimesIsProduct | src/Metro.cpp:318-332 | the block count helper is multiplication |
| Metro.ConcatLength | src/Metro.cpp:318-332 | blocks of n values each give (hi + 1 - lo) * n values |
| Metro.ConcatElement | src/Metro.cpp:318-332 | value k of block x sits at (x - lo) * n + k |
| Metro.StridedLength | src/Metro.cpp:366-375 | b strides of n values give b * n values |
| Metro.StridedElement | src/Metro.cpp:366-375 | value j of the block at stride k sits at k * n + j |
| Metro.TimesAddBound | src/Metro.cpp:318-332 | a block index below c and an offset below n stay within c blocks of n |
| Metro.NestedConcatElement | src/Metro.cpp:318-332 | in two nested loops, value k of inner block a of outer block s sits at (s - 1) * inner * n + (a - 1) * n + k |
| Metro.SexCellsLayout | src/Metro.cpp:318-332 | cell (sex, age, origin k) holds the sum of origin k's columns listed under 10 * sex + age |
| Metro.RaceVectorLayout | src/Metro.cpp:312-335 | the race marginal at index ((sex - 1) * totAge + (age - 1)) * origins + k is the sum of the k-th origin's columns listed under key 10 * sex + age |
| Metro.EstimateRowsElement | src/Metro.cpp:323 | row k in iteration order is the row of the k-th smallest key |
| Metro.AgeCellsLength | src/Metro.cpp:323-330 | every age block holds one value per origin |
| Metro.ParseColumns | src/Metro.cpp:349-350 | on success one number per column |
| Metro.ParseColumnsMeaning | src/Metro.cpp:349-350 | parsing succeeds exactly when every column is a number and then gives each column's number in place |
| Metro.EducationVectorMeaning | src/Metro.cpp:338-354 | the education marginal exists exactly when every row parses, and is the rows' numbers one row after another |
| Metro.TimesOne | src/Metro.cpp:369-373 | one value a cell gives one block of c values |
| Metro.PercentCellsLength | src/Metro.cpp:369-373 | each status cell is a single value |
| Metro.MaritalBlockValues | src/Metro.cpp:366-375 | a block holds one value per status: value j is the percentage in column i + j + 1 over 100 times the population in column i |
| Metro.MaritalCellsLength | src/Metro.cpp:366-375 | every block holds one value per status |
| Metro.MaritalRowLayout | src/Metro.cpp:356-380 | with whole blocks, value j of block k sits at k * statuses + j and is that block's percentage j times its population |
| Metro.CountOf | src/Metro.cpp:535-551 | the count never exceeds the sample, and is 0 for types other than education and marital status |
| Metro.SeedCountsMatchingPersons | src/Metro.cpp:540-542 | an education seed cell counts exactly the persons of that sex, age band, origin, education and PUMA |
| Metro.EstimatesVector | src/Metro.cpp:278-310 | on success the race marginal then the type's marginal; an empty mapping fails with "Invalid data type!", and a type other than education or marital status fails with "Invalid number of marginals!" |
| Metro.Metro.constructor | src/Metro.cpp:12-14 | the tables, the sample and the IPF staging start empty |
| Metro.Metro.SetMetroIDandName | src/Metro.cpp:20-24 | sets the GEO ID and the name, nothing else |
| Metro.Metro.SetCounties | src/Metro.cpp:31-34 | files the county under its PUMA code; the GEO ID, name, population, estimate tables and sample are unchanged |
| Metro.Metro.SetEstimates | src/Metro.cpp:36-54 | files the row under the GEO ID in exactly the table of its type; other types are ignored; the GEO ID, name, population, counties and sample are unchanged |
| Metro.Metro.GetRaceEstimatesMap | src/Metro.cpp:213-245 | the loops compute exactly the race estimate map, or its failure |
| Metro.Metro.GetRaceEstimateVector | src/Metro.cpp:312-335 | an unknown GEO ID fails; otherwise the loops compute exactly the race marginal |
| Metro.Metro.GetEducationEstimateVector | src/Metro.cpp:338-354 | an unknown GEO ID fails; otherwise the education marginal |
| Metro.Metro.GetMaritalStatusEstimateVector | src/Metro.cpp:356-380 | an unknown GEO ID fails; otherwise the marital-status marginal |
| Metro.Metro.GetEstimatesVector | src/Metro.cpp:278-310 | an unknown GEO ID fails; otherwise the pair of marginals or the type's error |
| Metro.Metro.CreateSeedMatrix | src/Metro.cpp:430-451 | appends the row-major seed cells counted by getCount, nothing else changes |
| Metro.FillZeros | src/Metro.cpp:235-242 | the loop computes exactly the zero fill of the origins left |
| Metro.CodesOfAll | src/Metro.cpp:235-242 | the codes of all remaining names are the table's values |
| Metro.SexBlock | src/Metro.cpp:320-331 | the loop over age categories computes exactly one sex's cells |
| Metro.OriginSumsLoop | src/Metro.cpp:323-330 | the origin loop computes exactly the sums of the origins in key order |
| Metro.ColumnSumLoop | src/Metro.cpp:325-327 | the inner loop computes exactly the column sum or its failure |
| Metro.ParseRow | src/Metro.cpp:349-350 | the loop parses exactly the row's columns |
| Metro.MaritalRow | src/Metro.cpp:366-375 | the block loop computes exactly the row's values |
| Metro.MaritalBlock | src/Metro.cpp:368-373 | one block: the population, then the weighted statuses |
| Metro.MaritalBlockLoop | src/Metro.cpp:369-373 | the status loop computes exactly the block's weighted statuses |
| Parameters.FromString | src/Parameters.cpp:186-187 | `_from_string` gives the value of the first constant with the name, and fails exactly when no constant has it |
| Parameters.FromStringFirst | src/Parameters.cpp:186-187 | no earlier constant has the name |
| Parameters.StoredMembers | src/Parameters.cpp:155-160 | a closed block stores exactly its later non-empty lines, under the code of its first line |
| Parameters.InsertEntry | src/Parameters.cpp:159 | one insert adds its code to the code book |
| Parameters.InsertAllLines | src/Parameters.cpp:156-160 | each code then holds its old lines followed by the new lines under it, in order |
| Parameters.InsertAllNonEmpty | src/Parameters.cpp:158-159 | only non-empty lines are stored, so every stored line has a first and a last field |
| Parameters.ThenNil | src/Parameters.cpp:147-164 | no entries before a result leave it unchanged |
| Parameters.ThenAppend | src/Parameters.cpp:147-164 | two runs of entries before a result are their concatenation |
| Parameters.InsertEntryNonEmpty | src/Parameters.cpp:158-159 | inserting a non-empty line keeps every stored line non-empty |
| Parameters.ScanNoBlank | src/Parameters.cpp:147-152 | lines that are not blank only join the pending block |
| Parameters.ScanBlock | src/Parameters.cpp:147-164 | a block closed by a blank line stores its later lines under its code and the scan restarts with an empty block |
| Parameters.StoredBlank | src/Parameters.cpp:156-159 | the blank line that closes a block is not stored |
| Parameters.ScanLastBlock | src/Parameters.cpp:147-164 | a last block with no closing blank line is never stored |
| Parameters.CodeMapSuccess | src/Parameters.cpp:219-226 | a code map fails exactly when some line's first field is not an integer (`std::stoi` throws) |
| Parameters.CodeMapLabels | src/Parameters.cpp:219-226 | the labels of the code map are exactly the last fields of the lines |
| Parameters.CodeMapFirstLine | src/Parameters.cpp:223-225 | a label keeps the code of the first line that carries it, since `std::map::insert` keeps an existing key |
| Parameters.CodeMapFailSticks | src/Parameters.cpp:221-226 | once a line fails, the map fails with that line's error |
| Parameters.AddCodeMap | src/Parameters.cpp:166-170 | `std::multimap::insert` adds the map after those already under the variable; other variables are untouched |
| Parameters.MapStep | src/Parameters.cpp:166 | one insert keeps every code-book line non-empty |
| Parameters.MapCoded | src/Parameters.cpp:166-170 | the inserts in order keep every code-book line non-empty |
| Parameters.PumsVarNamesDistinct | src/Parameters.cpp:217 | distinct variables have distinct names |
| Parameters.MapCodedBook | src/Parameters.cpp:228 | a successful run removes the lines of exactly the inserted variables from the code book |
| Parameters.NamesOfStep | src/Parameters.cpp:166-170 | the names of a run are its first variable's and the rest's |
| Parameters.RemoveStep | src/Parameters.cpp:228 | two erasures remove the union of the names |
| Parameters.MapCodedEntry | src/Parameters.cpp:166-170 | each inserted variable gets exactly one more map, the code map of its lines in the code book at the start, and every other variable keeps what it had |
| Parameters.AgeGenderKeyDecodes | src/Parameters.cpp:192-200 | the key 10 * sex + range gives sex and range back when the range is a digit |
| Parameters.DecodeRange | src/Parameters.cpp:189-198 | "NULL" gives no range, a known name its value, and an unknown name fails |
| Parameters.CombineCodes | src/Parameters.cpp:186-199 | the row's codes exist exactly when every name has a value |
| Parameters.DecodeRowSuccess | src/Parameters.cpp:184-201 | a row reads exactly when its gender and variable names are known and each age range is "NULL" or known, and then as the values of those names |
| Parameters.DecodeRowOf | src/Parameters.cpp:186-199 | a row whose names have values reads as the codes of those values |
| Parameters.DecodeRows | src/Parameters.cpp:184 | every row is read, in order |
| Parameters.AgeGenderPairsSuccess | src/Parameters.cpp:184-201 | reading the file fails exactly when some row has a name its enumeration lacks |
| Parameters.AllSuccessStep | src/Parameters.cpp:184 | all rows read exactly when the earlier rows and the last one do |
| Parameters.MappingStep | src/Parameters.cpp:192-200 | one more row adds its pair under the chosen age range to the mapping |
| Parameters.RangePairGives | src/Parameters.cpp:192-200 | the pair a row adds is (10 * sex + range, variable - 1), and only when the range is not "NULL" |
| Parameters.GivesPairStep | src/Parameters.cpp:184 | some row gives a pair exactly when an earlier row or the last one does |
| Parameters.AgeGenderPairsMembers | src/Parameters.cpp:174-202 | a pair is in a mapping exactly when it was there before or some row gives it |
| Parameters.AgeGenderPairsStep | src/Parameters.cpp:184 | one more row of the file is one more step of the reader |
| Parameters.AddRowFail | src/Parameters.cpp:186-198 | a failure passes through every later row |
| Parameters.AgeGenderPairsFailSticks | src/Parameters.cpp:184-201 | once a prefix of the rows fails, every longer prefix fails with the same error |
| Parameters.AgeGenderPairsFailStep | src/Parameters.cpp:184-201 | a failed prefix stays failed with one more row |
| Parameters.OriginMapSuccess | src/Parameters.cpp:209-210 | the origin map fails exactly when some row's last field is not an integer |
| Parameters.OriginMapKeys | src/Parameters.cpp:209-210 | the map keeps its old entries and adds the first field of every row |
| Parameters.OriginMapFirstRow | src/Parameters.cpp:210 | a race not yet mapped gets the code of the first row that names it |
| Parameters.OriginMapFailSticks | src/Parameters.cpp:209-210 | once a row fails, the origin map fails with that row's error |
| Parameters.Parameters.constructor | src/Parameters.cpp:10-15 | keeps the directories; nothing is read yet |
| Parameters.Parameters.FilePath | src/Parameters.cpp:234-248 | the input directory followed by the file name |
| Parameters.Parameters.FilePathInjective | src/Parameters.cpp:234-248 | distinct file names give distinct paths |
| Parameters.Parameters.AgeGenderMapping | src/Parameters.cpp:102-117 | the education mapping, the marital mapping, or an empty one for any other type |
| Parameters.Parameters.GroupCodeBook | src/Parameters.cpp:147-164 | the line loop stores exactly the scanned entries, or fails exactly when a block opens with a blank line (`row.front().at(0)` throws) |
| Parameters.Parameters.CreateCodeBookMap | src/Parameters.cpp:214-231 | the code map of the variable's lines; on success its lines are erased from the code book, on failure the book is unchanged |
| Parameters.Parameters.InsertCodeBookMap | src/Parameters.cpp:166 | one insert is the first step of the run of inserts, or its failure |
| Parameters.Parameters.ReadACSCodeBookFile | src/Parameters.cpp:130-172 | the blocks go into the code book, then the four code maps go into the ACS codes; either step's failure is reported |
| Parameters.Parameters.InsertCodeBookMaps | src/Parameters.cpp:166-170 | the four inserts together are the run of RAC1P, SCHL, HHT and HINCP |
| Parameters.Parameters.ReadAgeGenderRow | src/Parameters.cpp:186-200 | a row that reads adds exactly its pairs to the mappings; one that does not fails with its name's error |
| Parameters.Parameters.ReadAgeGenderMappingFile | src/Parameters.cpp:174-202 | the mappings become exactly those the rows give, or the first bad name's error |
| Parameters.Parameters.ReadOriginListFile | src/Parameters.cpp:204-211 | the header row is dropped and the map becomes the origin map of the other rows, or the first bad code's error |
| Parameters.InsertBlock | src/Parameters.cpp:155-160 | the inner loop stores exactly the block's later non-empty lines |
| Parameters.StoredStep | src/Parameters.cpp:156-160 | one more line stores one more entry unless it is blank |
| Parameters.InsertAllStep | src/Parameters.cpp:159 | inserting one more entry inserts it after the others |
| Parameters.InsertAllAppend | src/Parameters.cpp:156-160 | inserting two runs is inserting the second after the first |
| ViolenceModel.PushedBuckets | src/ViolenceModel.cpp:292-301 | the key's bucket ends with the agent, after its old contents if it had a bucket; every other bucket is unchanged |
| ViolenceModel.CreateAgentHashMap | src/ViolenceModel.cpp:284-302 | the agent is pushed onto the bucket of its origin and education (out of school) or its origin (in school) |
| ViolenceModel.PushAgent | src/ViolenceModel.cpp:292-301 | the count-then-insert-or-push computes exactly the pushed map |
| ViolenceModel.NetworkKeySeparates | src/ViolenceModel.cpp:286-290 | for one-digit codes, two agents share an out-of-school bucket exactly when origin and education agree, and an in-school bucket exactly when the origin agrees |
| ViolenceModel.IndicesMember | src/ViolenceModel.cpp:602 | an index is in a list's indices exactly when one of its agents carries it |
| ViolenceModel.IndicesSnoc | src/ViolenceModel.cpp:602 | one more agent adds its index |
| ViolenceModel.IndicesAppend | src/ViolenceModel.cpp:628-661 | the indices of two lists are the union of theirs |
| ViolenceModel.NumStudents | src/ViolenceModel.cpp:818-822 | never more students than agents |
| ViolenceModel.NumAtLeast | src/ViolenceModel.cpp:823-824 | never more members of the minimum age than agents |
| ViolenceModel.NumStudentsExtremes | src/ViolenceModel.cpp:815-828 | the count is 0 exactly when no agent is a student, and every agent exactly when all are |
| ViolenceModel.NumAtLeastExtremes | src/ViolenceModel.cpp:823-824 | the count is 0 exactly when every agent is younger, and every agent exactly when none is |
| ViolenceModel.CountsSnoc | src/ViolenceModel.cpp:818-825 | one loop step adds one for a student and one for a member of the minimum age |
| ViolenceModel.FlattenRemove | src/ViolenceModel.cpp:566-567 | the agents of a map do not depend on the bucket taken first |
| ViolenceModel.FlattenMembers | src/ViolenceModel.cpp:566-567 | an agent is counted exactly when it sits in some bucket |
| ViolenceModel.SumSizes | src/ViolenceModel.cpp:565-567 | the total is the number of agents in all buckets |
| ViolenceModel.PushAll | src/ViolenceModel.cpp:591-600 | pushing never removes a bucket |
| ViolenceModel.PushAllSnoc | src/ViolenceModel.cpp:591-600 | one more agent is one more push onto its gender bucket |
| ViolenceModel.PushAllBucket | src/ViolenceModel.cpp:591-600 | a bucket then holds its old agents followed by exactly the pushed agents of its key, in order |
| ViolenceModel.PushAllKeys | src/ViolenceModel.cpp:627 | when every pushed agent finds its sex's bucket (`at` would throw otherwise), no bucket is created |
| ViolenceModel.PushAllAppend | src/ViolenceModel.cpp:611-666 | pushing two lists is pushing the second after the first |
| ViolenceModel.PicksTaken | src/ViolenceModel.cpp:577-603 | a draw whose agent is not pooled takes it, and it heads what is picked from then on |
| ViolenceModel.PicksSkipped | src/ViolenceModel.cpp:588-589 | a draw whose agent is pooled takes nothing |
| ViolenceModel.PicksProperties | src/ViolenceModel.cpp:575-605 | the picked agents come from the map, were not pooled, are distinct by index, and are no more than wanted |
| ViolenceModel.DrawPrimary | src/ViolenceModel.cpp:575-605 | the draw loop picks exactly the picks of the draws; the pool gains their indices, the count falls by their number, and they are pushed onto their gender buckets |
| ViolenceModel.DrawStep | src/ViolenceModel.cpp:577-604 | one draw keeps the loop's invariant |
| ViolenceModel.FreshSnoc | src/ViolenceModel.cpp:623-629 | one more candidate is kept exactly when its index is not pooled yet |
| ViolenceModel.FreshAppend | src/ViolenceModel.cpp:611-666 | pooling two lists is pooling the second against the pool the first leaves |
| ViolenceModel.FreshStep | src/ViolenceModel.cpp:623-629 | one pooling step keeps the candidate exactly when its index is not pooled, and the pool then gains it |
| ViolenceModel.FreshCovers | src/ViolenceModel.cpp:628 | afterwards every candidate's index is pooled |
| ViolenceModel.FreshProperties | src/ViolenceModel.cpp:608-667 | the kept agents are candidates new to the pool, each index once |
| ViolenceModel.FriendCandidatesSnoc | src/ViolenceModel.cpp:644-653 | one more friend is a candidate exactly when it is not at primary risk |
| ViolenceModel.NoneInAppend | src/ViolenceModel.cpp:611-666 | two lists free of primary agents give a list free of them |
| ViolenceModel.FriendCandidatesNotPrimary | src/ViolenceModel.cpp:648 | no primary agent is a friend candidate |
| ViolenceModel.PoolFriends | src/ViolenceModel.cpp:643-653 | the friend loop keeps exactly the fresh friend candidates, pools them and pushes them onto their sex's bucket |
| ViolenceModel.PoolCompose | src/ViolenceModel.cpp:611-666 | pooling one candidate list and then another is pooling their concatenation |
| ViolenceModel.HouseholdView | src/ViolenceModel.cpp:616-664 | the view of a household matches its members as they stand |
| ViolenceModel.SchoolView | src/ViolenceModel.cpp:611 | the view of the school households matches them as they stand |
| ViolenceModel.HouseholdCandidatesNotPrimary | src/ViolenceModel.cpp:616-664 | no primary agent is a household candidate |
| ViolenceModel.SchoolCandidatesNotPrimary | src/ViolenceModel.cpp:611-666 | no primary agent is a secondary candidate |
| ViolenceModel.SecondaryPoolSound | src/ViolenceModel.cpp:608-667 | the secondary pool only gains agents not at primary nor at secondary risk before, each once, and it gains every candidate |
| ViolenceModel.PoolMember | src/ViolenceModel.cpp:618-663 | one member step keeps exactly that member's fresh candidates: itself at the school (unaffected household), its friends (primary member) or itself (other member of an affected household) |
| ViolenceModel.PoolHousehold | src/ViolenceModel.cpp:614-665 | the member loop of one household keeps exactly its fresh candidates |
| ViolenceModel.SchoolStep | src/ViolenceModel.cpp:611-666 | one household step extends the pooled prefix by that household |
| ViolenceModel.PoolSchool | src/ViolenceModel.cpp:611-666 | the household loop keeps exactly the fresh secondary candidates of all school households |
| ViolenceModel.UnpooledMembers | src/ViolenceModel.cpp:679 | a tertiary candidate is an agent at neither primary nor secondary risk |
| ViolenceModel.UnpooledMapRemove | src/ViolenceModel.cpp:672-685 | the candidates of a map do not depend on the bucket taken first |
| ViolenceModel.UnpooledMapMembers | src/ViolenceModel.cpp:669-686 | exactly the agents of the other map at neither primary nor secondary risk are tertiary candidates |
| ViolenceModel.BucketStep | src/ViolenceModel.cpp:677-683 | one agent step keeps the bucket loop's invariant |
| ViolenceModel.PoolBucket | src/ViolenceModel.cpp:674-684 | the bucket loop adds exactly the bucket's candidates, pools them and pushes them |
| ViolenceModel.HouseholdAffected | src/ViolenceModel.cpp:793-806 | the scan says whether some member is at primary risk |
| ViolenceModel.OthersStep | src/ViolenceModel.cpp:672-685 | one bucket step moves that bucket's candidates from what is left to what is added |
| ViolenceModel.PoolOthers | src/ViolenceModel.cpp:669-686 | the loop adds every tertiary candidate, pools them and pushes them onto their sex's bucket |
| ViolenceModel.PrevCount | src/ViolenceModel.cpp:1009 | the number to flag is the rounded product of prevalence and bucket size, within half of it |
| ViolenceModel.PrevCountAtMostSize | src/ViolenceModel.cpp:1009 | a prevalence of at most 1 never asks for more agents than the bucket holds |
| ViolenceModel.PtsdPicksStep | src/ViolenceModel.cpp:1010-1025 | one round flags the drawn agent unless it is flagged already |
| ViolenceModel.PtsdPicksProperties | src/ViolenceModel.cpp:1010-1025 | the flagged agents come from the bucket, were not flagged before, are flagged once each, and are no more than the count |
| ViolenceModel.FlagDrawn | src/ViolenceModel.cpp:1010-1025 | the loop flags exactly the picked agents for the type, sets no other flag, and returns how many are still to be flagged |
| ViolenceModel.ViolenceModel.constructor | src/ViolenceModel.cpp:12-15 | the school is "Stoneman HS" and every list, map and pool starts empty |
| ViolenceModel.ViolenceModel.IsAffectedHousehold | src/ViolenceModel.cpp:793-806 | a household is affected exactly when some member is at primary risk |
| ViolenceModel.ViolenceModel.GetNumStudents | src/ViolenceModel.cpp:815-828 | the number of students, and countPersons raised by the members of the minimum age |
| ViolenceModel.ViolenceModel.PoolPrimaryRiskAgents | src/ViolenceModel.cpp:547-606 | a count of 0 or less, or fewer agents than the count, ends the run with nothing pooled; otherwise exactly the picks of the draws are pooled, all of them when the draws suffice |
| ViolenceModel.ViolenceModel.PoolSecondaryRiskAgents | src/ViolenceModel.cpp:608-667 | the pool gains exactly the secondary candidates, the fresh ones are pushed onto their sex's bucket, and no bucket is created |
| ViolenceModel.ViolenceModel.PoolTertiaryRiskAgents | src/ViolenceModel.cpp:669-686 | every candidate of the other map, in some bucket order, is pooled and pushed onto its sex's bucket |
| ViolenceModel.ViolenceModel.SetPtsdStatus | src/ViolenceModel.cpp:1000-1026 | a negative prevalence ends the run; a map without the sex's bucket fails in `at` with nothing flagged; otherwise exactly the picks of the draws are flagged, the rounded prevalence count of them when the draws suffice |
| ViolenceModel.ViolenceModel.ClearList | src/ViolenceModel.cpp:1028-1045 | every household list is emptied with the PUMA keys kept, and the school households, agent maps and pools are cleared |

## Left out

- File and CSV input: the readers of the PUMS, ACS and parameter files, `readCSVFile`, `createMetroArea` and `mapMetroToCounties`. Every parser is modelled over lines or records that are already tokenised.
- Output: every string writer and file writer of `Counter`, `Metro`, `CardioModel` and `ViolenceModel`, and all progress printing. They only format values the model already computes.
- The `compute*` statistics of `src/Counter.cpp` and the treatment uptake and symptom decay of `src/ViolenceAgent.cpp`. They rest on `sqrt`, `exp` and `log` over doubles, which exact reals do not model.
- The IPF solver (`deprecated::IPF`) and `NDArray`. Their source is not part of this model; `IpfPrep.IpfStaging.PrepareIpf` stops at the solver's input.
- The proportional sampler and the goodness-of-fit check (`drawHouseholds`, `checkFit`, `gofLog`). Only their declarations exist.
- Randomness. `random_int`, `random_shuffle`, the uniform draws and the Poisson and normal draws become parameters: a sequence of draws, or a shuffle function that keeps the multiset. The randomised friend search and school assembly of `src/ViolenceModel.cpp` depend on them throughout and are not modelled.
- Floating point. Doubles are exact reals, so rounding error, NaN, infinity and overflow are not modelled, except where `CountyWeights` marks a division by zero explicitly.
- `std::stoi` on a value beyond the range of `int` (`std::out_of_range`). `std::stod` and the `strtod` test in `to_number` are modelled by a decimal scanner (white space, sign, digits, one point), not by the C library parser.
- Text.ToNumberReal: `strtod`'s exponents, hexadecimal numbers, "inf", "nan" and the rejection of an overflowing value (`HUGE_VAL`) are not read, so "1e5" gives 1 where the source gives 100000, and "1e999" gives 1 where the source gives −1. The PUMS and ACS fields it reads are plain decimals.
- Text.ToNumberInt: the same limits of the `strtod` test, so "nan" gives −1 where the source gives 0 through a failed `>>`, and "1e999" gives 1 where the source gives −1. Overflow of `>>` beyond the range of `int` is not modelled either.
- CardioModel.Bump: a stratum number outside 1..n is skipped, where the source indexes `pop_risk_strata[risk_type - 1]` without a check (undefined behaviour). When the strata are numbered 1..n, every stratum handed out is in range (`CardioModel.ChoicesWithin`).
- IpuWrapper.DecodeIncomeRow: requires a row in 1..INT_MAX, the rows createSeedMatrix passes. For a row of 0 or less the source's unsigned arithmetic gives other digits (row 0 decodes to size 2 and a wrapped type, see `IpuWrapper.UnsignedRemOfNegative`), which the model does not follow; `IpuWrapper.IpuWrapper.GetCount` carries the same requirement for the income seed.
- Ipu.IpuSolver.Solve: convergence of the sweep is not proved. Its precondition `Ipu.SweepReady` (positive weights, positive constraints and a contributing household in every column) is stronger than what the callers of `IPU::solve` guarantee; the source only needs every weighted column sum to be non-zero and checks none of it. The model bounds the number of sweeps by the iteration cap and proves what each sweep does.
- `exit()` becomes a failure value. The program state after an `exit()` or an uncaught exception is not modelled, beyond the state the failing method leaves.
- Parameters.Parameters.constructor: the three file reads it starts (`src/Parameters.cpp:12-14`) are not chained into it. Each read is its own method over its file's rows.
- Parameters.Parameters.ReadAgeGenderRow: after a name fails to decode, the pairs a row has already added are not specified, though the source keeps pairs added before the throw.
- Parameters.Parameters.ReadOriginListFile: requires the file to have at least its header row. `erase(begin())` on an empty list is undefined behaviour in the source.
- Parameters.Parameters.FilePath: the C string handling of `strcpy`/`strcat` is modelled as sequence concatenation. The leaked buffer and the NUL terminator are not modelled.
- The MaritalAgeCat and Marital enumerations, `estMarital` and the collapsed household types are not defined in `src/ACS.h`. Their names and sizes are parameters or datatype variants.
- The file-name getters of `Parameters` and the getters that return a member unchanged (`getOriginMapping`, `getACSCodeBook`, `getGeoID` and the like) are left out. They have no logic beyond returning the field.
- `std::unordered_multimap` order: the age-gender mappings are multisets of pairs, and `Metro` reads the values under a key as a list in an unspecified order. `getRaceEstimateVector` sums over them, so the order does not change the result.
- CountyWeights.MapCountiesToPuma: the output multimap of `mapCountiesToPUMA` is described as a multiset of weighted counties, not in its bucket order.
- ViolenceModel.ViolenceModel.PoolPrimaryRiskAgents: the source loops until it has pooled enough agents, and never stops when too few unpooled agents remain. The model stops when its draw sequence runs out and reports `DrawsRanOut`. The bucket shuffle before each draw is folded into the draw.
- ViolenceModel.ViolenceModel.SetPtsdStatus: with a prevalence above 1, or too few unflagged agents, the source never stops; the model stops when the draws run out. `setPTSDx`, the symptom draw after each flag, is not modelled.
- ViolenceModel.ViolenceModel.PoolTertiaryRiskAgents: states the added agents as a multiset. The order of `std::map<std::string, ...>` iteration over the string keys of the other-agents map is not modelled.
- ViolenceModel.ViolenceModel.PoolSecondaryRiskAgents: reasons over a snapshot of the school households' members (ages, schools and friend lists) taken at the start. The loop does not change them.
- ViolenceAgent.ViolenceAgent.constructor: `friendSize` is left unset, as in the source. `setAgentIdx` and the friend-list `reserve` calls are not modelled.
- CardioAgent: `CardioAgent::setRiskFactors` records the stratum number; the cholesterol and blood-pressure values it draws are left out, being random.
- Memory management (`new`/`delete`, `shrink_to_fit`, `clearPersonList`) and the elapsed-time reports. They do not change values.
