/** `SystemHealth`: health checks that sample CPU, memory and disk use,
    keep a bounded history of them, raise threshold alerts, summarise the
    history and recommend actions. Sampling is abstract: a check is given
    the readings it took, or the text of what sampling raised. */
module Health {
  import opened Wrappers
  import opened Seqs
  import opened PyValues

  /** A percentage as sampled, with the text Python prints for it. */
  datatype Percent = Percent(value: real, text: string)

  /** The readings of one check that the rules look at. */
  datatype HealthData = HealthData(timestamp: string, cpuUsage: Percent, memoryPercent: Percent, diskPercent: Percent)

  datatype Component = Cpu | Memory | Disk

  /** The three components, in the order every rule visits them. */
  function Components(): seq<Component> {
    [Cpu, Memory, Disk]
  }

  /** `alert_thresholds`; the recommendation rules compare with the same
      numbers (written there as the integers 80, 85 and 90). */
  function Threshold(c: Component): real {
    match c
    case Cpu => 80.0
    case Memory => 85.0
    case Disk => 90.0
  }

  function Reading(d: HealthData, c: Component): Percent {
    match c
    case Cpu => d.cpuUsage
    case Memory => d.memoryPercent
    case Disk => d.diskPercent
  }

  /** The components whose reading is strictly above its threshold, in the
      order cpu, memory, disk. */
  function Exceeded(d: HealthData): (cs: seq<Component>)
    ensures Cpu in cs <==> d.cpuUsage.value > 80.0
    ensures Memory in cs <==> d.memoryPercent.value > 85.0
    ensures Disk in cs <==> d.diskPercent.value > 90.0
    ensures |cs| <= 3
    ensures forall i :: 0 <= i < |cs| ==> Reading(d, cs[i]).value > Threshold(cs[i])
    ensures forall i, j :: 0 <= i < j < |cs| ==> cs[i] != cs[j] && (cs[i] == Cpu || cs[j] == Disk)
  {
    (if d.cpuUsage.value > Threshold(Cpu) then [Cpu] else []) +
    (if d.memoryPercent.value > Threshold(Memory) then [Memory] else []) +
    (if d.diskPercent.value > Threshold(Disk) then [Disk] else [])
  }

  /** One entry per exceeded threshold, in the order cpu, memory, disk. */
  function PerExceeded<T>(d: HealthData, f: Component -> T): (r: seq<T>)
    ensures |r| == |Exceeded(d)|
    ensures forall i :: 0 <= i < |r| ==> r[i] == f(Exceeded(d)[i])
  {
    (if d.cpuUsage.value > Threshold(Cpu) then [f(Cpu)] else []) +
    (if d.memoryPercent.value > Threshold(Memory) then [f(Memory)] else []) +
    (if d.diskPercent.value > Threshold(Disk) then [f(Disk)] else [])
  }

  /** The three threshold tests `_generate_alerts` and
      `_generate_recommendations` both make, each appending the entry of its
      component when its reading is over. */
  method AppendPerExceeded<T>(d: HealthData, f: Component -> T) returns (r: seq<T>)
    ensures r == PerExceeded(d, f)
  {
    r := [];
    if d.cpuUsage.value > Threshold(Cpu) {
      r := r + [f(Cpu)];
    }
    if d.memoryPercent.value > Threshold(Memory) {
      r := r + [f(Memory)];
    }
    if d.diskPercent.value > Threshold(Disk) {
      r := r + [f(Disk)];
    }
  }

  datatype Alert = Alert(level: string, component: string, message: string)

  function ComponentName(c: Component): string {
    match c
    case Cpu => "cpu"
    case Memory => "memory"
    case Disk => "disk"
  }

  /** The start of each component's alert message. */
  function AlertPrefix(c: Component): string {
    match c
    case Cpu => "High CPU usage: "
    case Memory => "High memory usage: "
    case Disk => "High disk usage: "
  }

  /** A warning for the component whose message quotes its reading as a
      percentage. */
  function AlertFor(d: HealthData, c: Component): (a: Alert)
    ensures a.level == "warning" && a.component == ComponentName(c)
    ensures a.message == AlertPrefix(c) + Reading(d, c).text + "%"
  {
    Alert("warning", ComponentName(c), AlertPrefix(c) + Reading(d, c).text + "%")
  }

  /** The alert of each component for the readings `d`. */
  function AlertOf(d: HealthData): Component -> Alert {
    c => AlertFor(d, c)
  }

  /** The alerts of one check: one per exceeded threshold, in order. */
  function AlertsFor(d: HealthData): (alerts: seq<Alert>)
    ensures |alerts| == |Exceeded(d)| <= 3
    ensures forall i :: 0 <= i < |alerts| ==> alerts[i] == AlertFor(d, Exceeded(d)[i])
  {
    PerExceeded(d, AlertOf(d))
  }

  /** `_generate_alerts`. */
  method GenerateAlerts(d: HealthData) returns (alerts: seq<Alert>)
    ensures alerts == AlertsFor(d)
  {
    alerts := AppendPerExceeded(d, AlertOf(d));
  }

  function Recommendation(c: Component): string {
    match c
    case Cpu => "Consider optimizing CPU-intensive processes or scaling resources"
    case Memory => "Consider increasing available memory or optimizing memory usage"
    case Disk => "Disk space is running low. Consider cleaning up unnecessary files"
  }

  /** What `check_health` answers: the readings and their alerts, or the
      text of what sampling raised. */
  datatype HealthCheck = Checked(data: HealthData, alerts: seq<Alert>) | CheckFailed(message: string)

  /** `_generate_recommendations`: one fixed advice per exceeded threshold,
      in order; a failed check has no `health_data` and raises `KeyError`. */
  method GenerateRecommendations(current: HealthCheck) returns (r: Result<seq<string>, string>)
    ensures current.CheckFailed? ==> r == Err(KeyErrorText("health_data"))
    ensures current.Checked? ==> r == Ok(PerExceeded(current.data, Recommendation))
  {
    if current.CheckFailed? {
      return Err(KeyErrorText("health_data"));
    }
    var recommendations := AppendPerExceeded(current.data, Recommendation);
    return Ok(recommendations);
  }

  // ----- history statistics -------------------------------------------------

  function Sum(xs: seq<real>): real {
    if xs == [] then 0.0 else xs[0] + Sum(xs[1..])
  }

  function MaxOf(xs: seq<real>): (m: real)
    requires xs != []
    ensures m in xs
    ensures forall i :: 0 <= i < |xs| ==> xs[i] <= m
  {
    if |xs| == 1 then xs[0]
    else
      var rest := MaxOf(xs[1..]);
      if xs[0] >= rest then xs[0] else rest
  }

  function MinOf(xs: seq<real>): (m: real)
    requires xs != []
    ensures m in xs
    ensures forall i :: 0 <= i < |xs| ==> m <= xs[i]
  {
    if |xs| == 1 then xs[0]
    else
      var rest := MinOf(xs[1..]);
      if xs[0] <= rest then xs[0] else rest
  }

  /** A sum of `n` numbers between `lo` and `hi` lies between `n*lo` and `n*hi`. */
  lemma {:induction false} SumBounds(xs: seq<real>, lo: real, hi: real)
    requires forall i :: 0 <= i < |xs| ==> lo <= xs[i] <= hi
    ensures (|xs| as real) * lo <= Sum(xs) <= (|xs| as real) * hi
  {
    if xs != [] {
      SumBounds(xs[1..], lo, hi);
      var n := |xs[1..]| as real;
      assert (|xs| as real) * lo == n * lo + lo;
      assert (|xs| as real) * hi == n * hi + hi;
    }
  }

  /** Dividing by a positive count keeps the bounds of the scaled total. */
  lemma QuotientBounds(s: real, n: real, lo: real, hi: real)
    requires n > 0.0 && n * lo <= s <= n * hi
    ensures lo <= s / n <= hi
  {
    assert s / n * n == s;
  }

  /** The mean of numbers that lie between `lo` and `hi` lies there too. */
  lemma MeanBetween(xs: seq<real>, lo: real, hi: real)
    requires xs != []
    requires forall i :: 0 <= i < |xs| ==> lo <= xs[i] <= hi
    ensures lo <= Sum(xs) / (|xs| as real) <= hi
  {
    SumBounds(xs, lo, hi);
    QuotientBounds(Sum(xs), |xs| as real, lo, hi);
  }

  /** The mean of numbers lies between their least and greatest. */
  lemma MeanBounds(xs: seq<real>)
    requires xs != []
    ensures MinOf(xs) <= Sum(xs) / (|xs| as real) <= MaxOf(xs)
  {
    MeanBetween(xs, MinOf(xs), MaxOf(xs));
  }

  /** `avg`, `max` and `min` of one series. */
  datatype Stats = Stats(avg: real, max: real, min: real)

  function StatsOf(xs: seq<real>): (s: Stats)
    requires xs != []
    ensures s.min <= s.avg <= s.max
    ensures s.min in xs && s.max in xs
    ensures forall i :: 0 <= i < |xs| ==> s.min <= xs[i] <= s.max
  {
    MeanBounds(xs);
    Stats(Sum(xs) / (|xs| as real), MaxOf(xs), MinOf(xs))
  }

  datatype Analysis = Analysis(cpu: Stats, memory: Stats)

  function CpuSeries(history: seq<HealthData>): (xs: seq<real>)
    ensures |xs| == |history|
    ensures forall i :: 0 <= i < |history| ==> xs[i] == history[i].cpuUsage.value
  {
    seq(|history|, i requires 0 <= i < |history| => history[i].cpuUsage.value)
  }

  function MemorySeries(history: seq<HealthData>): (xs: seq<real>)
    ensures |xs| == |history|
    ensures forall i :: 0 <= i < |history| ==> xs[i] == history[i].memoryPercent.value
  {
    seq(|history|, i requires 0 <= i < |history| => history[i].memoryPercent.value)
  }

  /** `_analyze_history` on a given history: nothing for an empty one;
      otherwise each series' minimum, mean and maximum, in that order of size. */
  function Analyze(history: seq<HealthData>): (r: Option<Analysis>)
    ensures r.None? <==> history == []
    ensures r.Some? ==> r.value.cpu.min <= r.value.cpu.avg <= r.value.cpu.max
    ensures r.Some? ==> r.value.memory.min <= r.value.memory.avg <= r.value.memory.max
    ensures r.Some? ==> forall i :: 0 <= i < |history| ==>
              r.value.cpu.min <= history[i].cpuUsage.value <= r.value.cpu.max &&
              r.value.memory.min <= history[i].memoryPercent.value <= r.value.memory.max
  {
    if history == [] then None
    else Some(Analysis(StatsOf(CpuSeries(history)), StatsOf(MemorySeries(history))))
  }

  /** What `generate_report` answers. */
  datatype HealthReport =
    | Report(timestamp: string, current: HealthCheck, analysis: Option<Analysis>, recommendations: seq<string>)
    | ReportFailed(message: string)

  /** The most records the history keeps. */
  const MaxHistory: nat := 1000

  class SystemHealth {
    /** `health_history`, oldest first. */
    var healthHistory: seq<HealthData>

    /** `loaded` is what `_load_health_history` read (`[]` when it failed). */
    constructor(loaded: seq<HealthData>)
      ensures healthHistory == loaded
    {
      healthHistory := loaded;
    }

    /** `_update_health_history`: append, then keep the newest 1000. A failed
        write of the history file (`writeError`) is only logged. */
    method UpdateHealthHistory(d: HealthData, writeError: Option<string>)
      modifies this
      ensures healthHistory == KeepLast(old(healthHistory) + [d], MaxHistory)
      ensures |healthHistory| <= MaxHistory && healthHistory != [] && healthHistory[|healthHistory| - 1] == d
      ensures |old(healthHistory)| < MaxHistory ==> healthHistory == old(healthHistory) + [d]
    {
      healthHistory := healthHistory + [d];
      if |healthHistory| > MaxHistory {
        healthHistory := healthHistory[|healthHistory| - MaxHistory..];
      }
    }

    /** `_analyze_history`. */
    function AnalyzeHistory(): (r: Option<Analysis>)
      reads this
      ensures r == Analyze(healthHistory)
    {
      Analyze(healthHistory)
    }

    /** `check_health`: a successful sample is recorded in the history and
        answered with its alerts; a failed one changes nothing. */
    method CheckHealth(sample: Result<HealthData, string>) returns (r: HealthCheck)
      modifies this
      ensures sample.Err? ==> r == CheckFailed(sample.error) && healthHistory == old(healthHistory)
      ensures sample.Ok? ==> r == Checked(sample.value, AlertsFor(sample.value))
      ensures sample.Ok? ==> healthHistory == KeepLast(old(healthHistory) + [sample.value], MaxHistory)
    {
      if sample.Err? {
        return CheckFailed(sample.error);
      }
      UpdateHealthHistory(sample.value, None);
      var alerts := GenerateAlerts(sample.value);
      return Checked(sample.value, alerts);
    }

    /** `generate_report`: a check, the analysis of the history including
        it, and the recommendations. When the check fails the report fails
        too, with the `KeyError` text of the missing `health_data` rather
        than the check's own message. */
    method GenerateReport(sample: Result<HealthData, string>, now: string) returns (r: HealthReport)
      modifies this
      ensures sample.Err? ==> r == ReportFailed(KeyErrorText("health_data")) && healthHistory == old(healthHistory)
      ensures sample.Ok? ==> healthHistory == KeepLast(old(healthHistory) + [sample.value], MaxHistory)
      ensures sample.Ok? ==> r.Report? && r.timestamp == now && r.current == Checked(sample.value, AlertsFor(sample.value))
      ensures sample.Ok? ==> r.analysis == Analyze(healthHistory) && r.analysis.Some?
      ensures sample.Ok? ==> r.recommendations == PerExceeded(sample.value, Recommendation)
    {
      var current := CheckHealth(sample);
      var analysis := AnalyzeHistory();
      var recommendations := GenerateRecommendations(current);
      if recommendations.Err? {
        return ReportFailed(recommendations.error);
      }
      return Report(now, current, analysis, recommendations.value);
    }
  }
}
