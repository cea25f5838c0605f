/**
  The state and the handlers of the dashboard component.

  The component's mutable fields become one immutable `Dashboard` value and
  each handler a function from the old value to the new one. The random draws
  a handler makes and the clock reading it takes are its parameters.
 */
module Dashboard {
  import opened Simulation
  import opened ViewBindings

  const HoursInBatch: nat := 24
  const MsPerHour: int := 60 * 60 * 1000
  const BatteryDrainPerTick: real := 0.01
  const LastUpdateText: string := "10s ago"

  /** The draws one regeneration of the series consumes, in call order. */
  type BatchDraws = d: seq<Draw> | |d| == HoursInBatch witness seq(24, _ => 0.0)

  datatype Patient = Patient(
    name: string,
    status: string,
    location: string,
    lastUpdate: string,
    emergencyAlerts: int,
    battery: real)

  datatype VitalSigns = VitalSigns(heartRate: int, temperature: real, spO2: int, fallDetected: bool)

  /** One entry of the alert history; `kind` is the alert's type. */
  datatype Alert = Alert(time: string, kind: string, status: string, notes: string)

  /** One sample of the metric series; `timestamp` is in milliseconds. */
  datatype HealthMetric = HealthMetric(value: real, timestamp: int)

  /** The update interval: not yet set, running, or cleared by `ngOnDestroy`. */
  datatype TimerState = Unscheduled | Running | Cleared

  datatype Dashboard = Dashboard(
    patient: Patient,
    vitals: VitalSigns,
    alerts: seq<Alert>,
    healthMetrics: seq<HealthMetric>,
    selectedMetric: string,
    selectedTimeRange: string,
    activeTab: string,
    timer: TimerState)

  /** Every vital sign lies in the range its generator can produce. */
  ghost predicate VitalsInRange(v: VitalSigns) {
    && InRange(HeartRate, v.heartRate as real)
    && InRange(SpO2, v.spO2 as real)
    && InRange(Temperature, v.temperature)
  }

  /** Inside each block of 24 samples, consecutive timestamps are one hour apart. */
  ghost predicate HourlyWithinBatches(series: seq<HealthMetric>) {
    forall i :: 0 < i < |series| && i % HoursInBatch != 0 ==>
      series[i].timestamp == series[i - 1].timestamp + MsPerHour
  }

  /** What every reachable dashboard satisfies. */
  ghost predicate Invariant(s: Dashboard) {
    && 0.0 <= s.patient.battery <= 100.0
    && VitalsInRange(s.vitals)
    && |s.healthMetrics| % HoursInBatch == 0
    && HourlyWithinBatches(s.healthMetrics)
  }

  const InitialAlerts: seq<Alert> := [
    Alert("12:05 PM", "Fall Detected", "Resolved", "Auto alert"),
    Alert("09:20 AM", "High Temp", "Pending", "38.5\U{B0}C")
  ]

  /** The component as constructed, before `ngOnInit`. */
  function Initial(): (s: Dashboard)
    ensures Invariant(s)
    ensures s.healthMetrics == [] && s.timer == Unscheduled
    ensures forall a :: a in s.alerts ==> StatusColor(a.status) != DefaultColor && AlertIcon(a.kind) != WarningIcon
  {
    Dashboard(
      Patient("John Doe", "Active", "GPS Pin", LastUpdateText, 0, 88.0),
      VitalSigns(78, 36.8, 97, false),
      InitialAlerts,
      [],
      HeartRate,
      "Last 24 Hours",
      "Home",
      Unscheduled)
  }

  /**
    The 24 samples one call of `initializeHealthMetrics` pushes: the k-th
    sample takes the k-th draw and is stamped 23 - k hours before `now`.
   */
  function Batch(metric: string, now: int, draws: BatchDraws): (b: seq<HealthMetric>)
    ensures |b| == HoursInBatch
    ensures b[HoursInBatch - 1].timestamp == now
    ensures b[0].timestamp == now - 23 * MsPerHour
    ensures forall k :: 0 < k < |b| ==> b[k].timestamp == b[k - 1].timestamp + MsPerHour
    ensures forall k :: 0 <= k < |b| ==> b[k].value == RandomValue(metric, draws[k])
    ensures forall k :: 0 <= k < |b| ==> InRange(metric, b[k].value)
  {
    seq(HoursInBatch, k requires 0 <= k < HoursInBatch =>
      HealthMetric(RandomValue(metric, draws[k]), now - (HoursInBatch - 1 - k) * MsPerHour))
  }

  lemma AppendBatchKeepsInvariant(s: Dashboard, metric: string, now: int, draws: BatchDraws)
    ensures Invariant(s) ==> Invariant(s.(healthMetrics := s.healthMetrics + Batch(metric, now, draws)))
  {
    if !Invariant(s) {
      return;
    }
    var old_ := s.healthMetrics;
    var b := Batch(metric, now, draws);
    var series := old_ + b;
    forall i | 0 < i < |series| && i % HoursInBatch != 0
      ensures series[i].timestamp == series[i - 1].timestamp + MsPerHour
    {
      if i > |old_| {
        assert series[i] == b[i - |old_|] && series[i - 1] == b[i - 1 - |old_|];
      } else if i == |old_| {
        assert false;
      }
    }
  }

  /**
    `initializeHealthMetrics` on the current series: the series grows by one
    batch for the selected metric; nothing already in it is removed or changed.
   */
  function Regenerate(s: Dashboard, now: int, draws: BatchDraws): (s': Dashboard)
    ensures |s'.healthMetrics| == |s.healthMetrics| + HoursInBatch
    ensures s'.healthMetrics[..|s.healthMetrics|] == s.healthMetrics
    ensures s'.healthMetrics[|s.healthMetrics|..] == Batch(s.selectedMetric, now, draws)
    ensures s'.(healthMetrics := s.healthMetrics) == s
    ensures Invariant(s) ==> Invariant(s')
  {
    var s' := s.(healthMetrics := s.healthMetrics + Batch(s.selectedMetric, now, draws));
    assert s'.healthMetrics[|s.healthMetrics|..] == Batch(s.selectedMetric, now, draws);
    AppendBatchKeepsInvariant(s, s.selectedMetric, now, draws);
    s'
  }

  /**
    The loop of `initializeHealthMetrics` as written: `i` runs from 23 down to
    0 and each round pushes one sample stamped `i` hours before `now`.
   */
  method InitializeHealthMetrics(s: Dashboard, now: int, draws: BatchDraws) returns (s': Dashboard)
    ensures s' == Regenerate(s, now, draws)
  {
    var series := s.healthMetrics;
    var i := 23;
    while i >= 0
      invariant -1 <= i <= 23
      invariant series == s.healthMetrics + Batch(s.selectedMetric, now, draws)[..23 - i]
    {
      var time := now - i * 60 * 60 * 1000;
      series := series + [HealthMetric(RandomValue(s.selectedMetric, draws[23 - i]), time)];
      i := i - 1;
    }
    s' := s.(healthMetrics := series);
  }

  /** `ngOnInit`: one batch for the selected metric, then the timer starts. */
  function OnInit(s: Dashboard, now: int, draws: BatchDraws): (s': Dashboard)
    requires s.timer == Unscheduled
    ensures s'.timer == Running
    ensures s'.healthMetrics == s.healthMetrics + Batch(s.selectedMetric, now, draws)
    ensures s'.(healthMetrics := s.healthMetrics, timer := s.timer) == s
    ensures Invariant(s) ==> Invariant(s')
  {
    Regenerate(s, now, draws).(timer := Running)
  }

  /** `ngOnDestroy`: clears the interval if one was set; clearing twice changes nothing. */
  function OnDestroy(s: Dashboard): (s': Dashboard)
    ensures s'.timer != Running
    ensures s.timer == Running ==> s'.timer == Cleared
    ensures s.timer != Running ==> s' == s
    ensures s'.(timer := s.timer) == s
  {
    if s.timer == Running then s.(timer := Cleared) else s
  }

  /** The battery update of one tick: drain 0.01 while above 0, never below 0. */
  function Drain(battery: real): (b: real)
    ensures b <= battery
    ensures battery >= 0.0 ==> b >= 0.0
    ensures battery <= 0.0 ==> b == battery
    ensures battery >= BatteryDrainPerTick ==> b == battery - BatteryDrainPerTick
    ensures 0.0 < battery < BatteryDrainPerTick ==> b == 0.0
  {
    if battery > 0.0 then
      var drained := battery - BatteryDrainPerTick;
      if drained > 0.0 then drained else 0.0
    else battery
  }

  /**
    The body of the interval callback, with its three draws in call order:
    heart rate, temperature, SpO2.
   */
  function Tick(s: Dashboard, hr: Draw, temp: Draw, spo2: Draw): (s': Dashboard)
    ensures s'.patient.lastUpdate == LastUpdateText
    ensures s'.patient.battery <= s.patient.battery
    ensures s.patient.battery >= 0.0 ==> s'.patient.battery >= 0.0
    ensures s.patient.battery == 0.0 ==> s'.patient.battery == 0.0
    ensures VitalsInRange(s'.vitals)
    ensures s'.vitals.heartRate == HeartRateFrom(hr)
    ensures s'.vitals.temperature == TemperatureFrom(temp)
    ensures s'.vitals.spO2 == SpO2From(spo2)
    ensures s'.vitals.fallDetected == s.vitals.fallDetected
    ensures s'.patient.(lastUpdate := s.patient.lastUpdate, battery := s.patient.battery) == s.patient
    ensures s'.(patient := s.patient, vitals := s.vitals) == s
    ensures Invariant(s) ==> Invariant(s')
  {
    s.(
      patient := s.patient.(lastUpdate := LastUpdateText, battery := Drain(s.patient.battery)),
      vitals := s.vitals.(
        heartRate := HeartRateFrom(hr),
        temperature := TemperatureFrom(temp),
        spO2 := SpO2From(spo2)))
  }

  /** One period of the interval: the callback runs only while the timer is set. */
  function TimerFires(s: Dashboard, hr: Draw, temp: Draw, spo2: Draw): (s': Dashboard)
    ensures s.timer == Running ==> s' == Tick(s, hr, temp, spo2)
    ensures s.timer != Running ==> s' == s
  {
    if s.timer == Running then Tick(s, hr, temp, spo2) else s
  }

  /** `onMetricChange`: selects `metric`, then appends one batch of it. */
  function OnMetricChange(s: Dashboard, metric: string, now: int, draws: BatchDraws): (s': Dashboard)
    ensures s'.selectedMetric == metric
    ensures |s'.healthMetrics| == |s.healthMetrics| + HoursInBatch
    ensures s'.healthMetrics[..|s.healthMetrics|] == s.healthMetrics
    ensures s'.healthMetrics[|s.healthMetrics|..] == Batch(metric, now, draws)
    ensures forall k :: |s.healthMetrics| <= k < |s'.healthMetrics| ==>
      s'.healthMetrics[k].value == RandomValue(metric, draws[k - |s.healthMetrics|])
    ensures s'.(selectedMetric := s.selectedMetric, healthMetrics := s.healthMetrics) == s
    ensures Invariant(s) ==> Invariant(s')
  {
    Regenerate(s.(selectedMetric := metric), now, draws)
  }

  /** `onTimeRangeChange`: stores `range`, then appends one batch of the selected metric. */
  function OnTimeRangeChange(s: Dashboard, range: string, now: int, draws: BatchDraws): (s': Dashboard)
    ensures s'.selectedTimeRange == range
    ensures s'.healthMetrics == s.healthMetrics + Batch(s.selectedMetric, now, draws)
    ensures s'.(selectedTimeRange := s.selectedTimeRange, healthMetrics := s.healthMetrics) == s
    ensures Invariant(s) ==> Invariant(s')
  {
    Regenerate(s.(selectedTimeRange := range), now, draws)
  }

  /** `onTabClick`: stores the tab label and nothing else. */
  function OnTabClick(s: Dashboard, tab: string): (s': Dashboard)
    ensures s'.activeTab == tab
    ensures s'.(activeTab := s.activeTab) == s
  {
    s.(activeTab := tab)
  }

  /** The chosen time range has no effect on the samples a regeneration adds. */
  lemma TimeRangeIgnored(s: Dashboard, a: string, b: string, now: int, draws: BatchDraws)
    ensures OnTimeRangeChange(s, a, now, draws).healthMetrics == OnTimeRangeChange(s, b, now, draws).healthMetrics
    ensures OnTimeRangeChange(s, a, now, draws).healthMetrics == OnMetricChange(s, s.selectedMetric, now, draws).healthMetrics
  {
  }

  /** `ngOnDestroy` may run any number of times. */
  lemma DestroyIdempotent(s: Dashboard)
    ensures OnDestroy(OnDestroy(s)) == OnDestroy(s)
  {
  }

  /** After `ngOnInit` the series is exactly one batch, ending at `now`. */
  lemma InitGivesOneBatch(now: int, draws: BatchDraws)
    ensures var s := OnInit(Initial(), now, draws);
      && |s.healthMetrics| == HoursInBatch
      && s.healthMetrics[HoursInBatch - 1].timestamp == now
      && (forall k :: 0 <= k < HoursInBatch ==> InRange(HeartRate, s.healthMetrics[k].value))
      && Invariant(s)
  {
    var s := OnInit(Initial(), now, draws);
    assert s.healthMetrics == Batch(HeartRate, now, draws);
  }

  /**
    A metric change after `ngOnInit` leaves 48 samples: the first batch is
    kept, not replaced.
   */
  lemma SeriesIsNeverCleared(now: int, d1: BatchDraws, metric: string, later: int, d2: BatchDraws)
    ensures var s1 := OnInit(Initial(), now, d1);
      var s2 := OnMetricChange(s1, metric, later, d2);
      && |s2.healthMetrics| == 2 * HoursInBatch
      && s2.healthMetrics[..HoursInBatch] == s1.healthMetrics
      && s2.healthMetrics[HoursInBatch..] == Batch(metric, later, d2)
  {
    var s1 := OnInit(Initial(), now, d1);
    assert |s1.healthMetrics| == HoursInBatch;
  }
}
