# Patient-monitoring dashboard, modelled in Dafny

The repository's only logic is the Angular `DashboardComponent`
(`src/app/components/dashboard/dashboard.component.ts`). It holds a patient
record, the current vital signs, an alert history, a synthetic metric series
for a chart, and three UI selections. A repeating timer re-randomises the
vitals and drains the battery. The metric and time-range selectors append a
fresh batch of 24 hourly samples to the series.

The model makes the component's two sources of non-determinism into
parameters:

- every `Math.random()` result is a `Draw`, a real in [0, 1);
- every `new Date()` is an integer `now` in milliseconds.

The component's mutable fields become one immutable `Dashboard.Dashboard`
value. Each handler is a pure function from the old value to the new one.

Modules, one per concern of the component:

- `Simulation` (simulation.dfy): the arithmetic of `getRandomValue` and of the
  timer callback, and the range table `InRange` those values obey.
- `ViewBindings` (view_bindings.dfy): `getMetricUnit`, `getStatusColor` and
  `getAlertIcon`, each checked against an explicit lookup table with a default.
- `Dashboard` (dashboard.dfy): the records, the initial state, the series
  generator (as a function `Batch`/`Regenerate` and as the loop
  `InitializeHealthMetrics`), the lifecycle hooks, the tick and the
  selection handlers, and the state `Invariant` each of them keeps.
- `Lifecycle` (lifecycle.dfy): a session as `ngOnInit` followed by any
  sequence of `Event`s (`Step`, `Run`, `Session`), with lemmas over whole runs.

## Two behaviours worth knowing

- The series is never cleared. `healthMetrics` starts empty and is only ever
  pushed to. The generator is named `initializeHealthMetrics` and its comment
  speaks of sample data for the last 24 hours. Even so, every metric or
  time-range change appends 24 samples to the ones already there. After
  `ngOnInit` and one change there are 48 samples
  (`Dashboard.SeriesIsNeverCleared`).
- Temperature reaches 39.0, the upper end of the source comment's 35-39
  range. `Math.round((r*4+35)*10)/10` gives 390 tenths for every draw
  `r >= 0.9875` (`Simulation.TemperatureTenthsFrom`,
  `Simulation.TemperatureReaches39`). The end values 35.0 and 39.0 each take a
  draw interval of width 0.0125. Every value between them takes 0.025.

## Model

| member | source | states |
|---|---|---|
| Simulation.JsRound | src/app/components/dashboard/dashboard.component.ts:123 | `Math.round` returns the integer nearest to its argument, with halves rounded up |
| Simulation.HeartRateFrom | src/app/components/dashboard/dashboard.component.ts:119 | a heart-rate draw gives an integer in [60, 99], namely the index of the fortieth of [0, 1) that holds the draw |
| Simulation.SpO2From | src/app/components/dashboard/dashboard.component.ts:121 | an SpO2 draw gives an integer in [90, 99], namely the index of the tenth of [0, 1) that holds the draw |
| Simulation.TemperatureTenthsFrom | src/app/components/dashboard/dashboard.component.ts:123 | a temperature in tenths is the integer nearest to 40r + 350, halves rounded up, so it lies in [350, 390]; it is 390 exactly when the draw is at least 0.9875 and 350 exactly when it is below 0.0125 |
| Simulation.TemperatureFrom | src/app/components/dashboard/dashboard.component.ts:136 | a temperature lies in [35.0, 39.0] and has one decimal |
| Simulation.RandomValue | src/app/components/dashboard/dashboard.component.ts:116-127 | `getRandomValue` always returns a value of its metric's range table; an unknown metric yields 0 |
| Simulation.RandomValueCoversRange | src/app/components/dashboard/dashboard.component.ts:116-127 | every value of the range table is produced by some draw, so the table is exactly the set of possible values |
| Simulation.TemperatureReaches39 | src/app/components/dashboard/dashboard.component.ts:123 | some draw produces the temperature 39.0 |
| ViewBindings.MetricUnit | src/app/components/dashboard/dashboard.component.ts:164-175 | the unit agrees with the table bpm / % / degrees Celsius and is '' otherwise; it is non-empty exactly for the three selector options |
| ViewBindings.StatusColor | src/app/components/dashboard/dashboard.component.ts:177-188 | the colour agrees with the table success / warning / danger and is 'info' exactly for unlisted statuses |
| ViewBindings.AlertIcon | src/app/components/dashboard/dashboard.component.ts:190-201 | the icon agrees with the table heart / thermometer / droplet and is the warning icon exactly for unlisted alert types |
| Dashboard.Initial | src/app/components/dashboard/dashboard.component.ts:42-89 | the constructed component satisfies the invariant, has an empty series and no timer, and each initial alert has its own colour and icon |
| Dashboard.Batch | src/app/components/dashboard/dashboard.component.ts:104-114 | one batch has 24 samples stamped one hour apart, the last at `now`; sample k takes the k-th draw for the given metric and lies in that metric's range |
| Dashboard.AppendBatchKeepsInvariant | src/app/components/dashboard/dashboard.component.ts:104-114 | appending a batch keeps the series a whole number of batches, hourly within each batch |
| Dashboard.Regenerate | src/app/components/dashboard/dashboard.component.ts:104-114 | `initializeHealthMetrics` appends one batch for the selected metric, keeps every earlier sample, changes no other field and keeps the invariant |
| Dashboard.InitializeHealthMetrics | src/app/components/dashboard/dashboard.component.ts:104-114 | the loop from i = 23 down to 0 builds exactly the series that `Regenerate` describes |
| Dashboard.OnInit | src/app/components/dashboard/dashboard.component.ts:93-96 | `ngOnInit` appends one batch, starts the timer, changes nothing else and keeps the invariant |
| Dashboard.OnDestroy | src/app/components/dashboard/dashboard.component.ts:98-102 | `ngOnDestroy` leaves no running timer; it clears a running one and otherwise changes nothing |
| Dashboard.Drain | src/app/components/dashboard/dashboard.component.ts:139-142 | the battery never rises, never goes below 0 from a non-negative level, stays put at 0 or below, drops by exactly 0.01 from 0.01 or more, and goes to 0 from between 0 and 0.01 |
| Dashboard.Tick | src/app/components/dashboard/dashboard.component.ts:130-143 | the timer callback sets `lastUpdate` to '10s ago', puts the vitals in range from their draws, does not raise the battery or take it below 0, and leaves `fallDetected`, the alerts, the series and the selections unchanged |
| Dashboard.TimerFires | src/app/components/dashboard/dashboard.component.ts:98-102 | a period runs the callback only while the interval is set, and does nothing after it has been cleared |
| Dashboard.OnMetricChange | src/app/components/dashboard/dashboard.component.ts:146-149 | `onMetricChange` selects the metric and appends one batch for that new metric, stamped hourly up to `now`; earlier samples and other fields are unchanged |
| Dashboard.OnTimeRangeChange | src/app/components/dashboard/dashboard.component.ts:151-154 | `onTimeRangeChange` stores the range and appends one batch of the selected metric; nothing else changes |
| Dashboard.OnTabClick | src/app/components/dashboard/dashboard.component.ts:156-158 | `onTabClick` sets the active tab and changes nothing else |
| Dashboard.TimeRangeIgnored | src/app/components/dashboard/dashboard.component.ts:151-154 | the chosen time range has no effect on the samples added, which are those a change to the same metric would add |
| Dashboard.DestroyIdempotent | src/app/components/dashboard/dashboard.component.ts:98-102 | a second `ngOnDestroy` changes nothing |
| Dashboard.InitGivesOneBatch | src/app/components/dashboard/dashboard.component.ts:93-96 | after `ngOnInit` the series has exactly 24 heart-rate samples, the last stamped `now`, and the invariant holds |
| Dashboard.SeriesIsNeverCleared | src/app/components/dashboard/dashboard.component.ts:77 | after `ngOnInit` and one metric change the series holds 48 samples, the first 24 untouched |
| Lifecycle.StepKeepsInvariant | src/app/components/dashboard/dashboard.component.ts:129-162 | every event keeps the invariant |
| Lifecycle.RunKeepsInvariant | src/app/components/dashboard/dashboard.component.ts:129-162 | any sequence of events keeps the invariant |
| Lifecycle.SessionKeepsInvariant | src/app/components/dashboard/dashboard.component.ts:93-96 | every session from construction satisfies the invariant: vitals in range, battery in [0, 100], series hourly within whole batches |
| Lifecycle.RunBatteryNeverRises | src/app/components/dashboard/dashboard.component.ts:139-142 | over any run the battery never rises, stays non-negative from a non-negative start, and stays at 0 once there |
| Lifecycle.BatteryAfterPeriods | src/app/components/dashboard/dashboard.component.ts:139-142 | while the timer runs, n periods leave the battery at max(0, b - 0.01 n) |
| Lifecycle.RunKeepsAlerts | src/app/components/dashboard/dashboard.component.ts:61-74 | the alert history never changes |
| Lifecycle.RunOnlyAppends | src/app/components/dashboard/dashboard.component.ts:109 | over any run the series grows by 24 samples per metric or time-range change and keeps every earlier sample |
| Lifecycle.StoppedTimerFreezesVitals | src/app/components/dashboard/dashboard.component.ts:130 | with no running timer, no event changes the vitals or the patient record |
| Lifecycle.DestroyFreezesVitals | src/app/components/dashboard/dashboard.component.ts:98-102 | after `ngOnDestroy` no later event changes the vitals or the battery |
| Lifecycle.SessionBounds | src/app/components/dashboard/dashboard.component.ts:49 | over a session the battery stays in [0, 88], and the series holds 24 samples per regeneration plus the initial 24 |

`Lifecycle.Step`, `Lifecycle.Run` and `Lifecycle.Session` only compose the
handlers above and carry no contract of their own. `Step` maps the
`LoggedOut` event to the unchanged state.

## Left out

- Angular scaffolding: the `@Component` decorator, the imports, constructor injection of the router, the template and the styles. None of it is logic.
- `onLogout`: its only effect is `Router.navigate(['/login'])`, a framework call. The model treats logout as an event that leaves the state unchanged.
- Timer scheduling: `setInterval`, `clearInterval` and the 10-second period are not modelled. One period is one explicit `TimerPeriod` event. The timer handle is reduced to `TimerState`: never set, running, or cleared.
- Dashboard.OnInit: requires a component whose timer was never set. Angular calls `ngOnInit` once per component. A second call in the source would start a second interval, and the model has no state for two intervals.
- `Math.random` and `Date`: draws are parameters in [0, 1). Clock readings are integer milliseconds. Timestamps are those integers, not `Date` objects.
- Floating point: values, temperatures and the battery are exact reals. IEEE-754 effects are not modelled. These include the drift of repeated `battery - 0.01` and the rounding of `x / 10`.
- Icon and unit text: the source's emoji and degree strings are stored with a broken encoding. Icons are the opaque `Icon` values, and the Celsius unit is the string degree-sign + 'C'.
- The `metricOptions` and `timeRangeOptions` lists are selector contents. The handlers accept any string, as the source does. Only `MetricOptions` appears, in the unit lookup's contract.
