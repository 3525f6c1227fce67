/** `SelfOptimizer`: builds an optimization plan from the current metrics,
    applies it item by item while recording each attempt, and answers
    performance and suggestion queries. The helpers it relies on (metric
    collection, plan building, applying one item, history comparison and
    bottleneck search) are not defined alongside it, so each is an abstract
    call that either returns a value or raises. */
module Optimizer {
  import opened Wrappers
  import opened Dicts
  import opened PyValues

  /** One entry of `optimization_history`. */
  datatype Attempt = Applied(optimization: Value) | Failed(optimization: Value, error: string) {
    /** The dict the history holds for the attempt. */
    function ToValue(): (v: Value)
      ensures v.Object? && |v.fields| >= 2 && v.fields[0] == ("optimization", optimization)
      ensures v.fields[1] == ("result", Str(if Applied? then "success" else "failed"))
    {
      match this
      case Applied(o) => Object([("optimization", o), ("result", Str("success"))])
      case Failed(o, e) => Object([("optimization", o), ("result", Str("failed")), ("error", Str(e))])
    }
  }

  /** `_apply_single_optimization`: `None` when the item was applied, or the
      text of what applying it raised. */
  type ApplyOne = Value -> Option<string>

  /** The record of applying one item. */
  function AttemptOf(optimization: Value, apply: ApplyOne): (a: Attempt)
    ensures a.optimization == optimization
    ensures a.Applied? <==> apply(optimization).None?
    ensures a.Failed? ==> a.error == apply(optimization).value
  {
    match apply(optimization)
    case None => Applied(optimization)
    case Some(e) => Failed(optimization, e)
  }

  /** The records of applying each item of a plan, in plan order. */
  function Attempts(plan: seq<Value>, apply: ApplyOne): (r: seq<Attempt>)
    ensures |r| == |plan|
    ensures forall k :: 0 <= k < |plan| ==> r[k] == AttemptOf(plan[k], apply)
  {
    seq(|plan|, k requires 0 <= k < |plan| => AttemptOf(plan[k], apply))
  }

  /** Applying a plan in two parts records the first part's attempts and
      then the second's. */
  lemma AttemptsConcat(p: seq<Value>, q: seq<Value>, apply: ApplyOne)
    ensures Attempts(p + q, apply) == Attempts(p, apply) + Attempts(q, apply)
  {
  }

  /** What building a plan does: `_optimize_for_metric(target, metrics)`
      and `_create_general_optimizations(metrics)`. */
  datatype Planner = Planner(forMetric: (Value, Value) -> Result<seq<Value>, string>,
                             general: Value -> Result<seq<Value>, string>)

  /** `_create_optimization_plan`: the metric-specific plan when
      `target_metric` is truthy, otherwise the general one. */
  function CreateOptimizationPlan(metrics: Value, targetMetric: Value, planner: Planner)
    : (r: Result<seq<Value>, string>)
    ensures Truthy(targetMetric) ==> r == planner.forMetric(targetMetric, metrics)
    ensures !Truthy(targetMetric) ==> r == planner.general(metrics)
  {
    if Truthy(targetMetric) then planner.forMetric(targetMetric, metrics) else planner.general(metrics)
  }

  /** `_generate_suggestions`: no suggestion logic exists yet. */
  function GenerateSuggestions(currentState: Value): (r: seq<string>)
    ensures r == []
  {
    []
  }

  /** What the helpers the optimizer calls will do, in the order it calls
      them: two metric readings (before and after applying a plan), the
      planner, the single-item step, and the two analysis helpers. */
  datatype Helpers = Helpers(metrics: Result<Value, string>,
                             metricsAfter: Result<Value, string>,
                             planner: Planner,
                             apply: ApplyOne,
                             compare: Value -> Result<Value, string>,
                             bottlenecks: Value -> Result<Value, string>)

  /** The answer of `analyze_performance`. */
  function PerformanceEnvelope(h: Helpers): (r: Envelope)
    ensures h.metrics.Err? ==> r == Error(h.metrics.error)
    ensures r.Success? <==>
              h.metrics.Ok? && h.compare(h.metrics.value).Ok? && h.bottlenecks(h.metrics.value).Ok?
    ensures r.Success? ==>
              r.payload == [("analysis", Object([("current_metrics", h.metrics.value),
                                                 ("historical_comparison", h.compare(h.metrics.value).value),
                                                 ("bottlenecks", h.bottlenecks(h.metrics.value).value)]))]
  {
    match h.metrics
    case Err(e) => Error(e)
    case Ok(m) =>
      match h.compare(m)
      case Err(e) => Error(e)
      case Ok(c) =>
        match h.bottlenecks(m)
        case Err(e) => Error(e)
        case Ok(b) => Success([("analysis", Object([("current_metrics", m),
                                                    ("historical_comparison", c),
                                                    ("bottlenecks", b)]))])
  }

  /** The answer of `suggest_improvements`: an empty list whenever the
      metrics could be read. */
  function SuggestionsEnvelope(h: Helpers): (r: Envelope)
    ensures h.metrics.Err? ==> r == Error(h.metrics.error)
    ensures h.metrics.Ok? ==> r == Success([("suggestions", List([]))])
  {
    match h.metrics
    case Err(e) => Error(e)
    case Ok(m) => Success([("suggestions", List(Strs(GenerateSuggestions(m))))])
  }

  /** The attempts `optimize_system` records: those of the whole plan when
      the metrics were read and the plan was built, and none otherwise. */
  function PlanAttempts(targetMetric: Value, h: Helpers): (r: seq<Attempt>)
    ensures h.metrics.Err? ==> r == []
    ensures h.metrics.Ok? && CreateOptimizationPlan(h.metrics.value, targetMetric, h.planner).Err? ==> r == []
    ensures h.metrics.Ok? && CreateOptimizationPlan(h.metrics.value, targetMetric, h.planner).Ok? ==>
              r == Attempts(CreateOptimizationPlan(h.metrics.value, targetMetric, h.planner).value, h.apply)
  {
    if h.metrics.Err? then []
    else
      match CreateOptimizationPlan(h.metrics.value, targetMetric, h.planner)
      case Err(_) => []
      case Ok(plan) => Attempts(plan, h.apply)
  }

  /** The answer of `optimize_system`: the first reading, plan building or
      second reading that raised, or the plan applied and the new metrics. */
  function OptimizeEnvelope(targetMetric: Value, h: Helpers): (r: Envelope)
    ensures h.metrics.Err? ==> r == Error(h.metrics.error)
    ensures h.metrics.Ok? && CreateOptimizationPlan(h.metrics.value, targetMetric, h.planner).Err? ==>
              r == Error(CreateOptimizationPlan(h.metrics.value, targetMetric, h.planner).error)
    ensures r.Success? <==>
              h.metrics.Ok? && CreateOptimizationPlan(h.metrics.value, targetMetric, h.planner).Ok? &&
              h.metricsAfter.Ok?
    ensures r.Success? ==>
              r.payload == [("optimizations_applied",
                             List(CreateOptimizationPlan(h.metrics.value, targetMetric, h.planner).value)),
                            ("new_metrics", h.metricsAfter.value)]
  {
    if h.metrics.Err? then Error(h.metrics.error)
    else
      match CreateOptimizationPlan(h.metrics.value, targetMetric, h.planner)
      case Err(e) => Error(e)
      case Ok(plan) =>
        if h.metricsAfter.Err? then Error(h.metricsAfter.error)
        else Success([("optimizations_applied", List(plan)), ("new_metrics", h.metricsAfter.value)])
  }

  /** A failed reading after the plan was applied still leaves its attempts
      recorded: the history changes exactly when a plan was built. */
  lemma AttemptsRecordedDespiteLateFailure(targetMetric: Value, h: Helpers)
    requires h.metrics.Ok? && CreateOptimizationPlan(h.metrics.value, targetMetric, h.planner).Ok?
    requires h.metricsAfter.Err?
    ensures OptimizeEnvelope(targetMetric, h).Error?
    ensures |PlanAttempts(targetMetric, h)| == |CreateOptimizationPlan(h.metrics.value, targetMetric, h.planner).value|
  {
  }

  class SelfOptimizer {
    /** `optimization_history`, oldest first. */
    var optimizationHistory: seq<Attempt>

    constructor()
      ensures optimizationHistory == []
    {
      optimizationHistory := [];
    }

    /** `_apply_optimizations`: one record per plan item, in plan order,
        appended after the earlier history; an item that raises is recorded
        as failed and the remaining items are still applied. */
    method ApplyOptimizations(plan: seq<Value>, apply: ApplyOne)
      modifies this
      ensures optimizationHistory == old(optimizationHistory) + Attempts(plan, apply)
    {
      ghost var before := optimizationHistory;
      for k := 0 to |plan|
        invariant optimizationHistory == before + Attempts(plan[..k], apply)
      {
        assert plan[..k + 1] == plan[..k] + [plan[k]];
        AttemptsConcat(plan[..k], [plan[k]], apply);
        var failure := apply(plan[k]);
        if failure.None? {
          optimizationHistory := optimizationHistory + [Applied(plan[k])];
        } else {
          optimizationHistory := optimizationHistory + [Failed(plan[k], failure.value)];
        }
      }
      assert plan[..|plan|] == plan;
    }

    /** `optimize_system`: read the metrics, build the plan, apply it, and
        read the metrics again. A failure before the plan is applied leaves
        the history alone; a failure of the second reading comes after the
        attempts are already recorded. */
    method OptimizeSystem(targetMetric: Value, h: Helpers) returns (r: Envelope)
      modifies this
      ensures r == OptimizeEnvelope(targetMetric, h)
      ensures optimizationHistory == old(optimizationHistory) + PlanAttempts(targetMetric, h)
    {
      if h.metrics.Err? {
        return Error(h.metrics.error);
      }
      var plan := CreateOptimizationPlan(h.metrics.value, targetMetric, h.planner);
      if plan.Err? {
        return Error(plan.error);
      }
      ApplyOptimizations(plan.value, h.apply);
      if h.metricsAfter.Err? {
        return Error(h.metricsAfter.error);
      }
      return Success([("optimizations_applied", List(plan.value)), ("new_metrics", h.metricsAfter.value)]);
    }

    /** `execute`: three operations; an unknown one answers `None`. */
    method Execute(operation: string, params: Dict<string, Value>, h: Helpers) returns (r: Option<Envelope>)
      modifies this
      ensures operation !in {"optimize", "analyze_performance", "suggest_improvements"} ==>
                r == None && optimizationHistory == old(optimizationHistory)
      ensures operation == "analyze_performance" ==>
                r == Some(PerformanceEnvelope(h)) && optimizationHistory == old(optimizationHistory)
      ensures operation == "suggest_improvements" ==>
                r == Some(SuggestionsEnvelope(h)) && optimizationHistory == old(optimizationHistory)
      ensures operation == "optimize" ==>
                r == Some(OptimizeEnvelope(GetOr(params, "target_metric", Null), h)) &&
                optimizationHistory ==
                  old(optimizationHistory) + PlanAttempts(GetOr(params, "target_metric", Null), h)
    {
      if operation == "optimize" {
        var e := OptimizeSystem(GetOr(params, "target_metric", Null), h);
        return Some(e);
      } else if operation == "analyze_performance" {
        return Some(PerformanceEnvelope(h));
      } else if operation == "suggest_improvements" {
        return Some(SuggestionsEnvelope(h));
      }
      return None;
    }
  }
}
