/**
  A dashboard session: `ngOnInit` on the freshly constructed component, then
  any sequence of timer periods and user events. Each event carries the draws
  and the clock reading the handler it triggers would take.
 */
module Lifecycle {
  import opened Simulation
  import opened Dashboard

  datatype Event =
    | TimerPeriod(hr: Draw, temp: Draw, spo2: Draw)
    | MetricChanged(metric: string, now: int, draws: BatchDraws)
    | TimeRangeChanged(range: string, now: int, draws: BatchDraws)
    | TabClicked(tab: string)
    | LoggedOut
    | Destroyed

  /** The effect of one event. `onLogout` only asks the router to navigate. */
  function Step(s: Dashboard, e: Event): Dashboard {
    match e
    case TimerPeriod(hr, temp, spo2) => TimerFires(s, hr, temp, spo2)
    case MetricChanged(metric, now, draws) => OnMetricChange(s, metric, now, draws)
    case TimeRangeChanged(range, now, draws) => OnTimeRangeChange(s, range, now, draws)
    case TabClicked(tab) => OnTabClick(s, tab)
    case LoggedOut => s
    case Destroyed => OnDestroy(s)
  }

  /** The events applied in order. */
  function Run(s: Dashboard, es: seq<Event>): Dashboard
    decreases |es|
  {
    if es == [] then s else Run(Step(s, es[0]), es[1..])
  }

  /** A whole session, from construction onwards. */
  function Session(now: int, draws: BatchDraws, es: seq<Event>): Dashboard {
    Run(OnInit(Initial(), now, draws), es)
  }

  /** The number of events that append a batch to the series. */
  function Regenerations(es: seq<Event>): nat
    decreases |es|
  {
    if es == [] then 0
    else (if es[0].MetricChanged? || es[0].TimeRangeChanged? then 1 else 0) + Regenerations(es[1..])
  }

  /** The number of timer periods. */
  function Periods(es: seq<Event>): nat
    decreases |es|
  {
    if es == [] then 0 else (if es[0].TimerPeriod? then 1 else 0) + Periods(es[1..])
  }

  function Max(a: real, b: real): real {
    if a >= b then a else b
  }

  /** Every step keeps the invariant. */
  lemma StepKeepsInvariant(s: Dashboard, e: Event)
    requires Invariant(s)
    ensures Invariant(Step(s, e))
  {
  }

  lemma {:induction false} RunKeepsInvariant(s: Dashboard, es: seq<Event>)
    requires Invariant(s)
    ensures Invariant(Run(s, es))
    decreases |es|
  {
    if es != [] {
      StepKeepsInvariant(s, es[0]);
      RunKeepsInvariant(Step(s, es[0]), es[1..]);
    }
  }

  /** Whatever happens in a session, the invariant holds. */
  lemma SessionKeepsInvariant(now: int, draws: BatchDraws, es: seq<Event>)
    ensures Invariant(Session(now, draws, es))
  {
    RunKeepsInvariant(OnInit(Initial(), now, draws), es);
  }

  /** The battery never rises, and never falls below 0 once at or above it. */
  lemma {:induction false} RunBatteryNeverRises(s: Dashboard, es: seq<Event>)
    ensures Run(s, es).patient.battery <= s.patient.battery
    ensures s.patient.battery >= 0.0 ==> Run(s, es).patient.battery >= 0.0
    ensures s.patient.battery == 0.0 ==> Run(s, es).patient.battery == 0.0
    decreases |es|
  {
    if es != [] {
      RunBatteryNeverRises(Step(s, es[0]), es[1..]);
    }
  }

  /**
    While the timer is running, each period drains exactly 0.01 until the
    battery hits 0: after n periods it reads max(0, b - 0.01 n).
   */
  lemma {:induction false} BatteryAfterPeriods(s: Dashboard, es: seq<Event>)
    requires s.timer == Running && s.patient.battery >= 0.0
    requires forall i :: 0 <= i < |es| ==> !es[i].Destroyed?
    ensures Run(s, es).patient.battery == Max(0.0, s.patient.battery - BatteryDrainPerTick * Periods(es) as real)
    decreases |es|
  {
    if es != [] {
      var s' := Step(s, es[0]);
      assert s'.timer == Running;
      BatteryAfterPeriods(s', es[1..]);
      assert Periods(es) == (if es[0].TimerPeriod? then 1 else 0) + Periods(es[1..]);
    }
  }

  /** The alert history never changes. */
  lemma {:induction false} RunKeepsAlerts(s: Dashboard, es: seq<Event>)
    ensures Run(s, es).alerts == s.alerts
    decreases |es|
  {
    if es != [] {
      RunKeepsAlerts(Step(s, es[0]), es[1..]);
    }
  }

  /**
    The series only grows: every metric or time-range change appends 24
    samples, and no sample already present is removed or altered.
   */
  lemma {:induction false} RunOnlyAppends(s: Dashboard, es: seq<Event>)
    ensures |Run(s, es).healthMetrics| == |s.healthMetrics| + HoursInBatch * Regenerations(es)
    ensures Run(s, es).healthMetrics[..|s.healthMetrics|] == s.healthMetrics
    decreases |es|
  {
    if es != [] {
      var s' := Step(s, es[0]);
      RunOnlyAppends(s', es[1..]);
      assert s'.healthMetrics[..|s.healthMetrics|] == s.healthMetrics;
      assert Run(s, es).healthMetrics[..|s'.healthMetrics|][..|s.healthMetrics|]
        == Run(s, es).healthMetrics[..|s.healthMetrics|];
    }
  }

  /**
    Once the timer is no longer running, no event changes the vitals or the
    patient record again.
   */
  lemma {:induction false} StoppedTimerFreezesVitals(s: Dashboard, es: seq<Event>)
    requires s.timer != Running
    ensures Run(s, es).vitals == s.vitals
    ensures Run(s, es).patient == s.patient
    decreases |es|
  {
    if es != [] {
      StoppedTimerFreezesVitals(Step(s, es[0]), es[1..]);
    }
  }

  /** After `ngOnDestroy`, later periods have no effect on the vitals or the battery. */
  lemma DestroyFreezesVitals(s: Dashboard, es: seq<Event>)
    ensures Run(OnDestroy(s), es).vitals == s.vitals
    ensures Run(OnDestroy(s), es).patient.battery == s.patient.battery
  {
    StoppedTimerFreezesVitals(OnDestroy(s), es);
  }

  /** Over a whole session the battery stays within [0, 88] and the series holds whole batches. */
  lemma SessionBounds(now: int, draws: BatchDraws, es: seq<Event>)
    ensures 0.0 <= Session(now, draws, es).patient.battery <= 88.0
    ensures |Session(now, draws, es).healthMetrics| == HoursInBatch * (1 + Regenerations(es))
  {
    var s0 := OnInit(Initial(), now, draws);
    RunBatteryNeverRises(s0, es);
    RunOnlyAppends(s0, es);
  }
}
