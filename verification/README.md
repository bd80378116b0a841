# Energy-balance forecasting for EV charging hubs — a Dafny model

This project models the computational core of an EV charging-hub planning
application. It covers:

- the solar reference profile and its summaries (monthly totals, hourly
  averages, yield);
- the synthesis of each hub's hourly charging demand from its behaviour
  arrays, with daily and monthly totals and the hub's charging capacity;
- the multi-year forecast over the project life (`PROJECT_LIFE` = 3 years):
  - degraded solar generation;
  - grown demand, capped by charger capacity and summed over hubs;
  - solar consumed on site, solar excess and demand after solar;
- the battery dispatch recurrence (state of charge, charge from solar,
  discharge);
- the grid stages: import and export capped by the connection limits, and
  the demand left over;
- the first-year energy flows and the average daily battery profiles;
- the inputs those stages are built from:
  - the weekday/weekend split and the default, calibrated and
    template-driven behaviour patterns;
  - the demand growth curves;
  - the validation of the charging-profile, charging-hub, storage,
    generation and grid forms.

Every database read or write is removed. A missing row or a null column is
an `Option` input, and a stage that writes nothing returns `None`. Numbers
are reals. A number that `parseFloat`/`parseInt` could not read (NaN) is
`None`.

The model keeps these behaviours of the code as they are:

- Grid export is taken from the solar excess *before* battery charging
  (`Grid.ExportCountsChargedSolarTwice`).
- Growth rates labelled cumulative are compounded again as
  `(1 + r/100)^year` (`SolarForecast.CumulativeRateCompounded`).
- The exponential growth generator yields fractions while the linear one
  yields percents (`Growth.GrowthUnitMismatch`).
- The storage, generation and grid forms' range guards let NaN through.
  The storage form does not check the sign of capacity or power
  (`StorageForm.GuardsLetNaNAndNegativeCapacityThrough`,
  `GridForm.NaNLimitAccepted`).
- The forecast horizon is the constant 3, although the solar stage's doc
  comment speaks of 15 years (`SolarForecast.ProjectLife`).

Modules:

- `Series`: shared sequence machinery.
- `SolarProfile`: solarUtils.ts.
- `ChargingDemand`: chargingDemandUtils.ts.
- `SolarForecast`: energyForecastingSolarUtils.ts.
- `Battery`: energyForecastingBatteryUtils.ts.
- `Grid`: energyForecastingGridUtils.ts.
- `Flows`: energyForecastingFlowUtils.ts.
- `DailyAverages`: energyForecastingDailyUtils.ts.
- `Behaviour`: BehaviourSection.tsx.
- `Growth`: GrowthSection.tsx.
- `Forms`: shared field helpers.
- The five form modules, one per form: `ChargingProfileForm`,
  `ChargingHubForm`, `StorageForm`, `GenerationForm` and `GridForm`.

Stages that fill arrays in loops are methods with loop invariants, proved
equal to a specification function. The properties are proved about that
function.

## Model

| member | source | states |
|---|---|---|
| Series.Sum | src/components/energy-modelling/chargingDemandUtils.ts:23-25 | the `reduce` sum from 0; no contract of its own. SumAppend, SumSplit, SumScaled, SumMonotone and SumNonNegative prove that it splits over concatenation, scales with a factor and keeps order and sign |
| Series.FirstYear | src/components/energy-modelling/energyForecastingDailyUtils.ts:21-22 | a column without years reads as no intervals, otherwise as its first year |
| Series.MonthTotals | src/components/energy-modelling/solarUtils.ts:45-54 | twelve totals, month m being the sum of the profile over that month's hours of a non-leap year |
| Series.MonthTotalsSum | src/components/energy-modelling/solarUtils.ts:45-54 | the twelve month totals add up to the total of the first 8760·unit/24 entries of the profile |
| Series.DayTotals | src/components/energy-modelling/chargingDemandUtils.ts:99-102 | one total per day, day d being the sum of hours 24d to 24d+23 (missing hours count 0) |
| Series.Pairwise | src/components/energy-modelling/energyForecastingSolarUtils.ts:154-165 | years and intervals are limited to the shorter input; each entry is the operation applied to the two entries |
| Series.CombineYears | src/components/energy-modelling/energyForecastingGridUtils.ts:24-35 | the nested year/interval push loops compute exactly `Pairwise` |
| Series.MapEachYear | src/components/energy-modelling/energyForecastingGridUtils.ts:76-84 | the nested loops applying one operation per interval compute exactly `MapYears` |
| SolarProfile.Azimuth | src/components/energy-modelling/solarUtils.ts:7-16 | an azimuth exists exactly for the eight compass keys; it is a multiple of 45 in [0, 315] |
| SolarProfile.AzimuthInjective | src/components/energy-modelling/solarUtils.ts:7-16 | distinct orientations have distinct azimuths |
| SolarProfile.RoundTilt | src/components/energy-modelling/solarUtils.ts:19-21 | the rounded tilt is a multiple of 5 within 2.5 degrees of the tilt (ties round up) |
| SolarProfile.ResolveProfile | src/components/energy-modelling/solarUtils.ts:24-42 | None exactly for an unknown orientation or a (azimuth, rounded tilt) key missing from the dataset; otherwise that curve |
| SolarProfile.ScaleProfile | src/components/energy-modelling/solarUtils.ts:89-90 | each hour is the raw Wh value times kWp / 1000 times (1 − losses/100), null losses reading as 0 |
| SolarProfile.ScaledTotal | src/components/energy-modelling/solarUtils.ts:89-90 | the scaled profile's total is the raw total times the scale factor |
| SolarProfile.MonthlyTotals | src/components/energy-modelling/solarUtils.ts:45-54 | the `idx`-advancing month loop computes exactly the month totals |
| SolarProfile.MonthTotalsSumFullYear | src/components/energy-modelling/solarUtils.ts:45-54 | for an 8760-hour profile the twelve month totals add up to the annual total |
| SolarProfile.HourAverages | src/components/energy-modelling/solarUtils.ts:57-66 | 24 averages; hour h's average times its sample count equals the sum of the samples at that hour of day |
| SolarProfile.HourAveragesDefined | src/components/energy-modelling/solarUtils.ts:60-65 | from 24 hours on, every hour of day has at least one sample, so no average divides by zero |
| SolarProfile.HourlyAverages | src/components/energy-modelling/solarUtils.ts:57-66 | the sums/counts loop computes exactly the hour averages |
| SolarProfile.SolarYield | src/components/energy-modelling/solarUtils.ts:69-73 | 0 for a zero kWp; otherwise the yield times kWp is the annual total |
| SolarProfile.OutputsSummarise | src/components/energy-modelling/solarUtils.ts:88-94 | the month totals of the written profile add up to its annual total, which is the raw total times the scale factor |
| SolarProfile.RunMadridEnergyAnalysis | src/components/energy-modelling/solarUtils.ts:75-104 | nothing is written without a generation row or a reference curve; otherwise the scaled profile and its three summaries |
| ChargingDemand.IsWeekend | src/components/energy-modelling/chargingDemandUtils.ts:3-6 | days 5 and 6 of each week counted from hour 0; no contract of its own. ChargingDemand.WeekendByWeekHour proves it is exactly the last 48 hours of every 168-hour week |
| ChargingDemand.WeekendByWeekHour | src/components/energy-modelling/chargingDemandUtils.ts:3-6 | an hour is a weekend hour exactly when it lies in the last 48 hours of its 168-hour week |
| ChargingDemand.MonthBase | src/components/energy-modelling/chargingDemandUtils.ts:59-67 | month m's base has one weight per hour of the month, the weekday or weekend weight of its hour of day |
| ChargingDemand.Divisor | src/components/energy-modelling/chargingDemandUtils.ts:68 | never 0, and the base sum whenever that is not 0 |
| ChargingDemand.MonthDemandSum | src/components/energy-modelling/chargingDemandUtils.ts:68-72 | each month's scaled hours add up to the configured monthly energy, or to 0 when every weight of that month is 0 |
| ChargingDemand.SynthesizedSum | src/components/energy-modelling/chargingDemandUtils.ts:53-74 | the first m months of the profile add up to the first m targets |
| ChargingDemand.SynthesizedPrefix | src/components/energy-modelling/chargingDemandUtils.ts:53-74 | later months only append to the profile |
| ChargingDemand.MonthSlice | src/components/energy-modelling/chargingDemandUtils.ts:53-74 | the hours of month m in the year's profile are exactly that month's scaled demand |
| ChargingDemand.SynthesizedMonthTotals | src/components/energy-modelling/chargingDemandUtils.ts:53-74 | the calendar month totals of the synthesized year are exactly the monthly targets |
| ChargingDemand.BuildBaseProfile | src/components/energy-modelling/chargingDemandUtils.ts:60-67 | the first inner loop builds exactly the month's base weights |
| ChargingDemand.PushScaled | src/components/energy-modelling/chargingDemandUtils.ts:70-72 | the second inner loop appends the base weights times the scaling |
| ChargingDemand.SynthesizeDemand | src/components/energy-modelling/chargingDemandUtils.ts:53-74 | the month loop builds exactly the synthesized year |
| ChargingDemand.HubDemand | src/components/energy-modelling/chargingDemandUtils.ts:34-77 | every hub's profile has 8760 hours (zeros without a profile, behaviour row or readable arrays) |
| ChargingDemand.HubAnnualDemand | src/components/energy-modelling/chargingDemandUtils.ts:78-79 | the written annual demand is the sum of the monthly targets, or 0 without arrays |
| ChargingDemand.RunChargingDemandAnalysis | src/components/energy-modelling/chargingDemandUtils.ts:27-85 | one update per hub, in order, carrying its profile and that profile's total |
| ChargingDemand.DailyTotals | src/components/energy-modelling/chargingDemandUtils.ts:99-102 | the day loop computes exactly 365 day totals |
| ChargingDemand.DailyTotalsSum | src/components/energy-modelling/chargingDemandUtils.ts:99-102 | the 365 day totals add up to the total of the first 8760 hours |
| ChargingDemand.MonthlyTotalsFromDaily | src/components/energy-modelling/chargingDemandUtils.ts:123-129 | the month loop over day totals computes exactly the month totals with one entry per day |
| ChargingDemand.MonthsOfDaysSum | src/components/energy-modelling/chargingDemandUtils.ts:123-129 | for 365 day totals the month totals add up to the annual total |
| ChargingDemand.MonthsOfDays | src/components/energy-modelling/chargingDemandUtils.ts:99-129 | month totals taken over day totals equal month totals taken over the hours |
| ChargingDemand.DemandPipelineMonthlyTotals | src/components/energy-modelling/chargingDemandUtils.ts:53-129 | the monthly totals the pipeline writes are exactly the behaviour's monthly targets |
| ChargingDemand.HubCapacity | src/components/energy-modelling/chargingDemandUtils.ts:150 | 0 when either input is null; never negative for nonnegative inputs |
| ChargingDemand.ConstantDayTotals | src/components/energy-modelling/chargingDemandUtils.ts:152-156 | each day of a constant hourly profile totals 24 times the constant |
| ChargingDemand.CapacityProfiles | src/components/energy-modelling/chargingDemandUtils.ts:142-162 | 8760 hours of the capacity and 365 daily totals of 24 times it |
| SolarForecast.DegradedYear | src/components/energy-modelling/energyForecastingSolarUtils.ts:32-40 | year y keeps the profile's length |
| SolarForecast.DegradedYearStep | src/components/energy-modelling/energyForecastingSolarUtils.ts:35-38 | each year is the previous year times 1 − degradation/100, interval by interval |
| SolarForecast.DegradedYearClosedForm | src/components/energy-modelling/energyForecastingSolarUtils.ts:32-40 | year y is the base profile times (1 − d/100)^y |
| SolarForecast.DegradationNonIncreasing | src/components/energy-modelling/energyForecastingSolarUtils.ts:32-40 | for a degradation in [0, 100] and nonnegative generation, every interval stays nonnegative and never grows from one year to the next |
| SolarForecast.SolarYears | src/components/energy-modelling/energyForecastingSolarUtils.ts:32-40 | exactly `ProjectLife` years, year y being the degraded year y |
| SolarForecast.RunSolarForecasting | src/components/energy-modelling/energyForecastingSolarUtils.ts:12-50 | nothing is written without a row or a profile; otherwise the loop's years are exactly the degraded years |
| SolarForecast.GrowthRate | src/components/energy-modelling/energyForecastingSolarUtils.ts:100-103 | the year's rate, the last rate beyond the array's end, 0 for an empty array |
| SolarForecast.GrowthFactor | src/components/energy-modelling/energyForecastingSolarUtils.ts:98-104 | 1 without rates, otherwise 1 + rate/100; no contract of its own. SolarForecast.CumulativeRateCompounded proves its power outgrows the rate from year 2, and NoBehaviourRowNoGrowth that a hub without a behaviour row keeps 1 |
| SolarForecast.CappedHub | src/components/energy-modelling/energyForecastingSolarUtils.ts:105-108 | each interval is the grown demand capped by the capacity (a missing capacity reads 0) |
| SolarForecast.CappedHubWithinCapacity | src/components/energy-modelling/energyForecastingSolarUtils.ts:108 | a hub never draws more than its capacity in an interval |
| SolarForecast.GrossYear | src/components/energy-modelling/energyForecastingSolarUtils.ts:111-118 | as many intervals as the first hub; interval i is the sum over hubs of their capped demand there |
| SolarForecast.GrossDemand | src/components/energy-modelling/energyForecastingSolarUtils.ts:82-120 | exactly `ProjectLife` years of gross demand |
| SolarForecast.GrossWithinCapacity | src/components/energy-modelling/energyForecastingSolarUtils.ts:105-118 | the gross demand of an interval never exceeds the hubs' summed capacity there |
| SolarForecast.CumulativeRateCompounded | src/components/energy-modelling/energyForecastingSolarUtils.ts:102-106 | from year 2, a positive cumulative rate grows demand by strictly more than that rate |
| SolarForecast.CapHubs | src/components/energy-modelling/energyForecastingSolarUtils.ts:85-110 | the hub loop produces exactly each hub's capped profile |
| SolarForecast.SumHubs | src/components/energy-modelling/energyForecastingSolarUtils.ts:112-118 | the `totalProfile[i] +=` loops compute the per-interval sum over hubs |
| SolarForecast.BehaviourMap | src/components/energy-modelling/energyForecastingSolarUtils.ts:76-79 | the behaviour map after its loop; no contract of its own. SolarForecast.BehaviourMapLastRowWins proves it holds exactly the fetched profiles with their last row's rates, and BuildBehaviourMap that the loop builds it |
| SolarForecast.BehaviourMapLastRowWins | src/components/energy-modelling/energyForecastingSolarUtils.ts:76-79 | the behaviour map holds exactly the profiles that have a fetched row, each with the rates of its last row |
| SolarForecast.BuildBehaviourMap | src/components/energy-modelling/energyForecastingSolarUtils.ts:76-79 | the loop over the fetched rows builds exactly that map |
| SolarForecast.NoBehaviourRowNoGrowth | src/components/energy-modelling/energyForecastingSolarUtils.ts:98-104 | a hub whose linked profile has no behaviour row keeps a growth factor of 1 |
| SolarForecast.RunCappedEnergyDemand | src/components/energy-modelling/energyForecastingSolarUtils.ts:57-130 | nothing is written when the hubs query fails or finds no hub, or when the behaviours query fails; otherwise exactly the gross demand of the hubs, grown by their profiles' rates |
| SolarForecast.Consumed | src/components/energy-modelling/energyForecastingSolarUtils.ts:154-165 | min(solar, demand) interval by interval; no contract of its own. SolarForecast.ConsumedBounds proves it is at most both and equal to one, and RunGeneratedSolarEnergyConsumed that the stage writes it |
| SolarForecast.Excess | src/components/energy-modelling/energyForecastingSolarUtils.ts:198-209 | the solar not consumed, floored at 0; no contract of its own. SolarForecast.SolarSplit proves consumed plus excess is exactly the solar, and RunGeneratedSolarEnergyExcess that the stage writes it |
| SolarForecast.PostSolar | src/components/energy-modelling/energyForecastingSolarUtils.ts:242-253 | demand less solar consumed; no contract of its own. SolarForecast.DemandSplit proves it is max(demand − solar, 0) and completes the demand with the consumed solar, and RunEnergyDemandPostSolar that the stage writes it |
| SolarForecast.ConsumedBounds | src/components/energy-modelling/energyForecastingSolarUtils.ts:161-163 | solar consumed is at most the solar and at most the demand, and equals one of them |
| SolarForecast.SolarSplit | src/components/energy-modelling/energyForecastingSolarUtils.ts:200-208 | consumed plus excess is exactly the solar generated |
| SolarForecast.DemandSplit | src/components/energy-modelling/energyForecastingSolarUtils.ts:244-252 | consumed plus demand after solar is exactly the demand, and demand after solar is max(demand − solar, 0) |
| SolarForecast.RunGeneratedSolarEnergyConsumed | src/components/energy-modelling/energyForecastingSolarUtils.ts:136-174 | None when either column is missing; otherwise exactly the consumed years |
| SolarForecast.RunGeneratedSolarEnergyExcess | src/components/energy-modelling/energyForecastingSolarUtils.ts:180-218 | None when either column is missing; otherwise exactly the excess years |
| SolarForecast.RunEnergyDemandPostSolar | src/components/energy-modelling/energyForecastingSolarUtils.ts:224-261 | None when either column is missing; otherwise exactly the post-solar years |
| Battery.Dispatch | src/components/energy-modelling/energyForecastingBatteryUtils.ts:62-88 | an interval starts from the given state of charge and never charges from the grid |
| Battery.ChargeBounds | src/components/energy-modelling/energyForecastingBatteryUtils.ts:65-69 | the solar charge is nonnegative and within power, free capacity and excess where those are nonnegative |
| Battery.DischargeBounds | src/components/energy-modelling/energyForecastingBatteryUtils.ts:75-78 | the discharge is nonnegative and within power, stored energy and demand where those are nonnegative |
| Battery.DispatchConserves | src/components/energy-modelling/energyForecastingBatteryUtils.ts:62-88 | from a state in [0, capacity] the end state stays in [0, capacity] and equals start + charges − discharge |
| Battery.EndSocWithinCapacity | src/components/energy-modelling/energyForecastingBatteryUtils.ts:81-87 | with a nonnegative capacity the end state lies in [0, capacity] |
| Battery.YearIntervals | src/components/energy-modelling/energyForecastingBatteryUtils.ts:53-89 | a year has as many intervals as both its inputs cover |
| Battery.YearIntervalsChained | src/components/energy-modelling/energyForecastingBatteryUtils.ts:59-62 | the first interval starts empty, each later one starts at the previous end state, and each is one dispatch step |
| Battery.ChainedUnique | src/components/energy-modelling/energyForecastingBatteryUtils.ts:59-89 | the recurrence has exactly one solution, the year's intervals |
| Battery.YearConserves | src/components/energy-modelling/energyForecastingBatteryUtils.ts:59-89 | with a nonnegative capacity every interval's start and end lie in [0, capacity] and energy is conserved |
| Battery.BatteryYears | src/components/energy-modelling/energyForecastingBatteryUtils.ts:39-43 | min(excess years, demand years, `ProjectLife`) years, each dispatched on its own inputs |
| Battery.ForecastShape | src/components/energy-modelling/energyForecastingBatteryUtils.ts:39-95 | all five arrays have the same years and, per year, the same number of intervals |
| Battery.SimulateYear | src/components/energy-modelling/energyForecastingBatteryUtils.ts:53-94 | the interval loop's five pushed arrays are exactly the five figures of the year's intervals |
| Battery.RecordedYear | src/components/energy-modelling/energyForecastingBatteryUtils.ts:59-89 | five arrays satisfying the loop's recurrence are the figures of the year's intervals |
| Battery.Forecast | src/components/energy-modelling/energyForecastingBatteryUtils.ts:39-95 | the five arrays of every dispatched year; no contract of its own. Battery.ForecastShape proves their shared shape, YearConserves their energy balance, and RunBatteryForecasting that the stage writes them |
| Battery.RunBatteryForecasting | src/components/energy-modelling/energyForecastingBatteryUtils.ts:15-109 | nothing is written without storage or either forecast column; otherwise exactly the forecast |
| Grid.PostSolarBattery | src/components/energy-modelling/energyForecastingGridUtils.ts:24-35 | demand after solar less discharge, pairwise; no contract of its own. Grid.PipelinePostSolarBatteryNonNegative proves it is never negative along the pipeline |
| Grid.GridImport | src/components/energy-modelling/energyForecastingGridUtils.ts:76-84 | the remaining demand capped by the import limit; no contract of its own. Grid.ImportWithinLimit proves it is at most both and equal to one |
| Grid.ExcessPostBattery | src/components/energy-modelling/energyForecastingGridUtils.ts:116-127 | solar excess less solar charging, pairwise; no contract of its own. Grid.PipelineExcessPostBatteryNonNegative proves it is never negative along the pipeline |
| Grid.GridExport | src/components/energy-modelling/energyForecastingGridUtils.ts:166-176 | the pre-battery excess capped by the export limit; no contract of its own. Grid.ExportWithinLimit proves its bounds and Grid.ExportCountsChargedSolarTwice the double counting |
| Grid.ResidualDemand | src/components/energy-modelling/energyForecastingGridUtils.ts:208-218 | demand after the battery less import, pairwise; no contract of its own. Grid.ResidualBeyondLimit proves it is max(demand − import limit, 0) |
| Grid.PostSolarBatteryNonNegative | src/components/energy-modelling/energyForecastingGridUtils.ts:32 | demand after the battery is demand after solar minus discharge, nonnegative where the discharge does not exceed it |
| Grid.PipelinePostSolarBatteryNonNegative | src/components/energy-modelling/energyForecastingGridUtils.ts:24-35 | fed by the solar and battery stages, demand after the battery is never negative |
| Grid.PipelineExcessPostBatteryNonNegative | src/components/energy-modelling/energyForecastingGridUtils.ts:118-127 | fed by the solar and battery stages, the solar excess left after battery charging is never negative |
| Grid.ImportWithinLimit | src/components/energy-modelling/energyForecastingGridUtils.ts:81 | import is at most the limit and at most the demand, and equals one of them |
| Grid.ExportWithinLimit | src/components/energy-modelling/energyForecastingGridUtils.ts:173 | export is at most the limit and at most the excess, and equals one of them |
| Grid.ExportCountsChargedSolarTwice | src/components/energy-modelling/energyForecastingGridUtils.ts:165-175 | where the limit does not bind and the battery charges from solar, export plus charge exceed the excess |
| Grid.ResidualBeyondLimit | src/components/energy-modelling/energyForecastingGridUtils.ts:213-218 | demand left after import is max(demand − import limit, 0) |
| Grid.RunEnergyDemandPostSolarBattery | src/components/energy-modelling/energyForecastingGridUtils.ts:9-45 | None when either column is missing; otherwise demand after solar minus discharge |
| Grid.RunGridImport | src/components/energy-modelling/energyForecastingGridUtils.ts:52-94 | None without a grid row or the demand column; otherwise the capped import |
| Grid.RunExcessPostBattery | src/components/energy-modelling/energyForecastingGridUtils.ts:101-137 | None when either column is missing; otherwise excess minus solar charge |
| Grid.RunGridExport | src/components/energy-modelling/energyForecastingGridUtils.ts:144-186 | None without a grid row or the excess column; otherwise the pre-battery excess capped by the export limit |
| Grid.RunEnergyDemandPostSolarBatteryGrid | src/components/energy-modelling/energyForecastingGridUtils.ts:193-229 | None when either column is missing; otherwise demand after the battery minus import |
| Flows.CalculateEnergyFlows | src/components/energy-modelling/energyForecastingFlowUtils.ts:23-39 | each flow is the total of its array; no contract of its own. Flows.FlowsNonNegative proves nonnegative arrays give nonnegative flows, and MissingColumnZeroFlow that a missing column gives 0 |
| Flows.FlowsNonNegative | src/components/energy-modelling/energyForecastingFlowUtils.ts:31-38 | nonnegative arrays give six nonnegative flows |
| Flows.MissingColumnZeroFlow | src/components/energy-modelling/energyForecastingFlowUtils.ts:48-55 | a missing column reads as an empty array, so its own flow is 0, for each of the six flows |
| Flows.FirstYear | src/components/energy-modelling/energyForecastingFlowUtils.ts:49-54 | a null column reads as no intervals, a present one as its first year or no intervals |
| Flows.RunEnergyFlowAnalysis | src/components/energy-modelling/energyForecastingFlowUtils.ts:41-70 | null exactly when there is no forecast row |
| Flows.OnlyFirstYearCounts | src/components/energy-modelling/energyForecastingFlowUtils.ts:48-55 | two forecasts whose six first years agree give the same flows, whatever their later years |
| Flows.NoGridToBattery | src/components/energy-modelling/energyForecastingFlowUtils.ts:36 | for the battery stage's output the grid-to-battery flow is 0 |
| DailyAverages.Days | src/components/energy-modelling/energyForecastingDailyUtils.ts:25 | the number of whole days the array covers |
| DailyAverages.ChargeSlotSumSplits | src/components/energy-modelling/energyForecastingDailyUtils.ts:30-32 | the charging sum is the solar sum plus the grid sum |
| DailyAverages.ChargeAverages | src/components/energy-modelling/energyForecastingDailyUtils.ts:27-34 | 24 entries; entry h times the day count is minus the solar and grid charging at hour h over the whole days |
| DailyAverages.DischargeAverages | src/components/energy-modelling/energyForecastingDailyUtils.ts:65-72 | 24 entries; entry h times the day count is the discharge at hour h over the whole days |
| DailyAverages.AverageSigns | src/components/energy-modelling/energyForecastingDailyUtils.ts:27-72 | nonnegative inputs give charging averages ≤ 0 and discharging averages ≥ 0 |
| DailyAverages.PartialDayIgnored | src/components/energy-modelling/energyForecastingDailyUtils.ts:63-72 | a trailing partial day never changes the profile |
| DailyAverages.RunDailyAverageBatteryCharge | src/components/energy-modelling/energyForecastingDailyUtils.ts:8-44 | nothing is written when a column is missing or the first year has no whole day; otherwise the nested loops compute exactly the charge averages |
| DailyAverages.RunDailyAverageBatteryDischarge | src/components/energy-modelling/energyForecastingDailyUtils.ts:50-80 | nothing is written when the column is missing or has no whole day; otherwise exactly the discharge averages |
| Behaviour.AllocationDivisorZero | src/components/charging-profiles/BehaviourSection.tsx:35 | the weekday-equivalent day count is 0 exactly at a scale of −350 |
| Behaviour.SliderDivisorPositive | src/components/charging-profiles/BehaviourSection.tsx:491-492 | on the slider's range [−200, 200] it is positive |
| Behaviour.WeekdayWeekendAllocation | src/components/charging-profiles/BehaviourSection.tsx:21-47 | 5 weekdays and 2 weekend days; all zero for a non-positive total; otherwise the weekend average is the weekday average times 1 + scale/100 |
| Behaviour.AllocationSplitsTotal | src/components/charging-profiles/BehaviourSection.tsx:35-38 | for a positive total the weekday and weekend totals add up to the annual total |
| Behaviour.FindTemplate | src/components/charging-profiles/BehaviourSection.tsx:71 | None exactly when no template has the name; otherwise the first template of that name in the dataset |
| Behaviour.SharesSum | src/components/charging-profiles/BehaviourSection.tsx:269-271 | shares of the values' own nonzero sum rescale every value by amount/sum and add up to the amount |
| Behaviour.DistributeSum | src/components/charging-profiles/BehaviourSection.tsx:73-76 | with a positive weight total the template values add up to the amount; otherwise they are all 0 |
| Behaviour.DefaultWeekdayData | src/components/charging-profiles/BehaviourSection.tsx:64-78 | the default weekday pattern; no contract of its own. Behaviour.DefaultDaySum proves it is 24 zeros without energy or template and otherwise adds up to the weekday daily average |
| Behaviour.DefaultWeekendData | src/components/charging-profiles/BehaviourSection.tsx:80-94 | the default weekend pattern; Behaviour.DefaultDaySum proves the same for the weekend daily average |
| Behaviour.DefaultMonthlyData | src/components/charging-profiles/BehaviourSection.tsx:96-116 | the default monthly pattern; no contract of its own. Behaviour.DefaultMonthlySum proves it is 12 zeros without energy and otherwise adds up to the annual total |
| Behaviour.DefaultDaySum | src/components/charging-profiles/BehaviourSection.tsx:64-94 | a default day is 24 zeros for a non-positive total or an unknown template, and adds up to the daily average when flat or from a template with positive weights |
| Behaviour.DefaultMonthlySum | src/components/charging-profiles/BehaviourSection.tsx:96-116 | default months are zeros for a non-positive total and add up to the total when flat or from a template with positive weights |
| Behaviour.Calibrate | src/components/charging-profiles/BehaviourSection.tsx:263-305 | the shared rescaling of the three calibrate handlers; no contract of its own beyond the length. Behaviour.CalibrateScales proves it keeps proportions and reaches the target, and CalibrateIdempotent that a second calibration changes nothing |
| Behaviour.CalibrateWeekday | src/components/charging-profiles/BehaviourSection.tsx:263-273 | the weekday pattern rescaled to the weekday daily average; CalibrateScales applies with that amount |
| Behaviour.CalibrateWeekend | src/components/charging-profiles/BehaviourSection.tsx:274-284 | the weekend pattern rescaled to the weekend daily average; CalibrateScales applies with that amount |
| Behaviour.CalibrateMonthly | src/components/charging-profiles/BehaviourSection.tsx:286-305 | the monthly pattern rescaled to the annual total; CalibrateScales applies with that amount |
| Behaviour.CalibrateScales | src/components/charging-profiles/BehaviourSection.tsx:263-298 | unchanged for a non-positive total or a zero sum; otherwise the values are rescaled by amount/sum, keeping proportions, and add up to the amount |
| Behaviour.CalibrateIdempotent | src/components/charging-profiles/BehaviourSection.tsx:263-298 | calibrating a calibrated pattern changes nothing |
| Behaviour.SelectScale | src/components/charging-profiles/BehaviourSection.tsx:349-360 | 0 for the default or an unknown template, the template's weekday weight otherwise |
| Behaviour.HandleProfileChange | src/components/charging-profiles/BehaviourSection.tsx:347-401 | the new scale and the three patterns for a selection; no contract of its own. Behaviour.ProfileChangeInstallsDefaults proves it installs exactly the default patterns for that scale |
| Behaviour.ProfileChangeInstallsDefaults | src/components/charging-profiles/BehaviourSection.tsx:347-401 | the patterns a selection installs are exactly the default patterns for the new selection and scale |
| Growth.LinearGrowthStep | src/components/charging-profiles/GrowthSection.tsx:30-35 | the linear curve rises by exactly the rate each year |
| Growth.LinearGrowthOrdered | src/components/charging-profiles/GrowthSection.tsx:30-35 | with a nonnegative rate an earlier year never exceeds a later one |
| Growth.LinearGrowthNondecreasing | src/components/charging-profiles/GrowthSection.tsx:30-35 | with a nonnegative rate the 30-year curve is nondecreasing |
| Growth.LinearGrowth | src/components/charging-profiles/GrowthSection.tsx:30-35 | 30 entries, year 0 being 0 |
| Growth.ExponentialGrowth | src/components/charging-profiles/GrowthSection.tsx:38-43 | 30 entries, year 0 being 0 |
| Growth.ExponentialGrowthNondecreasing | src/components/charging-profiles/GrowthSection.tsx:38-43 | with a nonnegative rate the curve is nonnegative and nondecreasing |
| Growth.GrowthUnitMismatch | src/components/charging-profiles/GrowthSection.tsx:30-43 | after one year the linear curve holds the rate as a percent and the exponential one as a fraction, which the forecast reads a hundred times too small |
| Growth.DefaultGrowthData | src/components/charging-profiles/GrowthSection.tsx:58-60 | the default curve is the linear curve at 2.5 |
| Growth.DefaultGrowthValues | src/components/charging-profiles/GrowthSection.tsx:58-60 | the default curve is 0, 2.5, …, 72.5 and nondecreasing |
| Growth.ResetToZero | src/components/charging-profiles/GrowthSection.tsx:197-198 | 30 zeros |
| Growth.ResetMeansNoGrowth | src/components/charging-profiles/GrowthSection.tsx:197-198 | after a reset every year's growth multiplier in the forecast is 1 |
| Growth.ZeroRateIsReset | src/components/charging-profiles/GrowthSection.tsx:30-43 | both generators at rate 0 give the reset curve |
| ChargingProfileForm.ValidateProfile | src/components/charging-profiles/ChargingProfileModal.tsx:104-131 | each rejection exactly when its guard is the first to fail (missing field, vehicles, percentage, battery size); an accepted payload carries the parsed values, positive vehicles and size and a percentage in [0, 100] |
| ChargingProfileForm.TotalKWh | src/components/charging-profiles/ChargingProfileModal.tsx:226-238 | 0 when any input does not parse |
| ChargingProfileForm.AcceptedProfileEnergy | src/components/charging-profiles/ChargingProfileModal.tsx:226-238 | an accepted form's energy is vehicles × percentage/100 × battery size, nonnegative, and positive exactly when the percentage is |
| ChargingProfileForm.AcceptedProfileAllocates | src/components/charging-profiles/ChargingProfileModal.tsx:226-238 | the weekday and weekend totals split that energy exactly, at any slider scale |
| ChargingHubForm.ValidateHub | src/components/technical/ChargingHubModal.tsx:151-180 | each rejection exactly when its guard is the first to fail (missing field, power, chargers, priority); empty links become null; the payload carries the parsed positive values |
| Forms.NullIfEmpty | src/components/technical/ChargingHubModal.tsx:178-179 | an optional link is null exactly when its field is empty, and the field text otherwise |
| ChargingHubForm.AcceptedHubHasCapacity | src/components/technical/ChargingHubModal.tsx:160-170 | an accepted hub has a positive charging capacity |
| StorageForm.DischargeTimeOf | src/components/technical/StorageModal.tsx:118 | a discharge time exists exactly for the set-time behaviour with a non-empty field, and is what the field parsed to |
| StorageForm.ValidateStorage | src/components/technical/StorageModal.tsx:93-118 | each rejection exactly when its guard is the first to fail (missing field, depth, efficiency); NaN passes both range guards; the payload carries the parsed values |
| StorageForm.GuardsLetNaNAndNegativeCapacityThrough | src/components/technical/StorageModal.tsx:98-112 | a NaN depth of discharge and a capacity of −10 kWh are accepted |
| StorageForm.StorageRowOf | src/components/energy-modelling/energyForecastingBatteryUtils.ts:17-23 | the row the battery stage runs with carries the submitted capacity and power |
| StorageForm.OnlyCapacityAndPowerReachTheBattery | src/components/energy-modelling/energyForecastingBatteryUtils.ts:17-23 | accepted forms with numeric capacity and power that agree on those two give the battery stage the same storage row, whatever their other fields |
| GenerationForm.ValidateGeneration | src/components/technical/GenerationModal.tsx:87-111 | each rejection exactly when its guard is the first to fail (missing field, tilt, orientation); NaN passes the tilt guard; the payload carries the parsed values |
| GenerationForm.OrientationsMatchLookup | src/components/technical/GenerationModal.tsx:98-101 | the accepted orientations are exactly the solar lookup's compass keys |
| GenerationForm.AcceptedGenerationResolves | src/components/technical/GenerationModal.tsx:92-101 | an accepted orientation has an azimuth and an accepted tilt rounds to one of 0, 5, …, 45 |
| GenerationForm.LossesUnchecked | src/components/technical/GenerationModal.tsx:103-111 | losses of 250% and a negative degradation are accepted |
| GridForm.ValidateGrid | src/components/technical/GridModal.tsx:75-95 | each rejection exactly when its guard is the first to fail (missing field, import, export); NaN passes both sign guards; the payload carries the parsed limits |
| GridForm.NaNLimitAccepted | src/components/technical/GridModal.tsx:83-85 | an unparseable import limit is accepted |
| GridForm.AcceptedImportLimitServes | src/components/technical/GridModal.tsx:83-85 | with an accepted numeric limit the grid imports something wherever demand remains, and the residual demand is smaller there |

## Left out

- Database reads and writes are left out. A failed query is treated like an empty result wherever the code returns on both alike. `runCappedEnergyDemand` returns on a failed behaviours query but still writes when a behaviour row is missing, so that stage takes the query result as its own `Option` input.
- Supabase client setup is left out.
- The JSON/string array normalisation (`parseDbArray` and the inline `JSON.parse` branches) is left out. Arrays arrive parsed, or as `None`.
- `parseFloat`/`parseInt` are left out. A form field is its text plus the parsed number, with NaN as `None`.
- The reference datasets are abstract. The Madrid solar curves are a map from (azimuth, rounded tilt) to a curve, and the EV charging templates are a sequence of records.
- The S-curve growth generator is left out. It uses `Math.exp`, and `applyGrowthProfile`'s selection among the generators goes with it.
- IEEE-754 rounding, infinities and `-0` are left out. All sums are exact over the reals.
- React state, effects, charts, the tariff and cost forms, auth and routing are left out. The order in which the stages are run is also left out, because it is not shown in the modelled files.
- The storage fields that the battery stage never reads (efficiency, depth of discharge, degradation, discharge behaviour) are not part of the dispatch.
- Local arrays filled by index (`Array(n).fill(0)`, then `a[i] = …` or `a[i] += …`) are sequences reassigned with an update in ChargingDemand.DailyTotals, ChargingDemand.MonthlyTotalsFromDaily, SolarForecast.SumHubs and the two DailyAverages stages. Only SolarProfile.HourlyAverages allocates Dafny arrays, for `hourlySums` and `hourlyCounts`. None of these arrays escapes its function, so no aliasing is involved.
- SolarProfile.HourAverages requires at least 24 hours. For a shorter profile the code divides 0 by 0 (NaN) for the missing hours, which reals cannot express.
- ChargingDemand.SynthesizeDemand requires well-shaped behaviour arrays (24 weekday and 24 weekend weights, 12 months). Shorter arrays make the code read `undefined` and produce NaN.
- SolarForecast.GrowthRate does not model `null` entries inside a growth-rate array (`?? 0`). Rates are reals.
- SolarForecast.GrossWithinCapacity requires every hub's demand profile to reach the interval. A shorter hub adds 0 there (`?? 0`), and its capacity entry may be negative, so the bound is not stated for that case.
- Behaviour.WeekdayWeekendAllocation requires, for a positive total, a scale other than −350. There the code divides by zero and yields Infinity.
- Battery.DispatchConserves requires a start state within [0, capacity]. With a negative capacity, which the storage form accepts, the dispatch clamps to 0 and conservation does not hold.
- ChargingProfileForm.TotalKWh does not model the final NaN guard, which real arithmetic never triggers.
- StorageForm.StorageRowOf requires numeric capacity and power. The storage form accepts NaN for either, and whether the database then rejects the write or stores a null that the dispatch reads as 0 is not modelled.
- SolarProfile.RunMadridEnergyAnalysis requires every reference curve to hold at least 24 hours, the precondition of SolarProfile.HourAverages. The code takes any curve the dataset holds.
