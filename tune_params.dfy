/** Parameter tuning (musubi_eval/application/tune_params.py): the penalty of a trial that
    breaks the latency constraint, the objective score, the constraint itself, and the
    tuner's bookkeeping of trials and of the one-time index preparation. The trials Optuna
    would suggest are given to the tuner as a sequence. */
module Tuning {
  import opened Values
  import opened Domain
  import opened Util
  import opened Ports
  import opened RunScenario

  // ---------------------------------------------------------------- scoring

  const PenaltyMaximize: real := -1000000.0
  const PenaltyMinimize: real := 1000000.0

  /** constraint_penalty(direction): the score of a violated trial, +1e6 when the study
      minimises and -1e6 for any other direction. */
  function ConstraintPenalty(direction: string): (p: real)
    ensures direction == "minimize" ==> p == PenaltyMinimize
    ensures direction != "minimize" ==> p == PenaltyMaximize
  {
    if direction == "minimize" then PenaltyMinimize else PenaltyMaximize
  }

  /** The penalty is the worst score in the study's direction: positive when minimising,
      negative otherwise. */
  lemma PenaltyIsWorst(direction: string)
    ensures direction == "minimize" <==> ConstraintPenalty(direction) > 0.0
    ensures direction != "minimize" <==> ConstraintPenalty(direction) < 0.0
  {
  }

  /** compute_objective_score: the metric minus the latency penalty times the p95 latency. */
  function ObjectiveScore(metricValue: real, latencyP95Ms: real, latencyPenalty: real): real {
    metricValue - latencyPenalty * latencyP95Ms
  }

  /** Without a latency penalty the score is the metric itself. */
  lemma ObjectiveScoreNoPenalty(metricValue: real, latencyP95Ms: real)
    ensures ObjectiveScore(metricValue, latencyP95Ms, 0.0) == metricValue
  {
  }

  /** With a non-negative penalty a slower p95 never scores higher, and a better metric
      never scores lower. */
  lemma ObjectiveScoreMonotone(m1: real, p1: real, m2: real, p2: real, latencyPenalty: real)
    requires latencyPenalty >= 0.0 && p1 <= p2 && m2 <= m1
    ensures ObjectiveScore(m2, p2, latencyPenalty) <= ObjectiveScore(m1, p1, latencyPenalty)
  {
    MulLe(latencyPenalty, p1, p2);
  }

  /** check_constraint: no limit is never violated; otherwise only a p95 strictly above the
      limit is. */
  function CheckConstraint(latencyP95Ms: real, maxLatencyP95Ms: Option<real>): (violated: bool)
    ensures violated <==> maxLatencyP95Ms.Some? && latencyP95Ms > maxLatencyP95Ms.value
  {
    match maxLatencyP95Ms
    case None => false
    case Some(limit) => latencyP95Ms > limit
  }

  /** A p95 exactly at the limit does not violate it. */
  lemma AtLimitIsNoViolation(limit: real)
    ensures !CheckConstraint(limit, Some(limit))
  {
  }

  // ---------------------------------------------------------------- configuration

  /** The tuning settings the tuner reads: the base scenario path, the study's name and
      direction, the objective metric and latency penalty, and the latency constraint. */
  datatype StudyConfig = StudyConfig(name: string, direction: string)
  datatype ObjectiveConfig = ObjectiveConfig(metric: string, latencyPenalty: real)
  datatype TuningConfig = TuningConfig(
    baseScenario: string,
    study: StudyConfig,
    objective: ObjectiveConfig,
    maxLatencyP95Ms: Option<real>)

  /** The values Optuna suggests for one trial. */
  datatype Suggestion = Suggestion(k: int, ef: int, alpha: real)

  // ---------------------------------------------------------------- trials

  /** One completed trial. */
  datatype TrialResult = TrialResult(
    number: int,
    k: int,
    ef: int,
    alpha: real,
    recallAtK: real,
    mrr: real,
    ndcgAtK: real,
    latencyMeanMs: real,
    latencyP95Ms: real,
    score: real,
    constraintViolated: bool,
    status: string)

  /** The search parameters of trial `number`. */
  function TrialParam(number: int, s: Suggestion): (p: SearchParam)
    ensures p.name == "trial_" + IntToDecimal(number) && p.k == s.k
    ensures p.ef == JInt(s.ef) && p.alpha == JFloat(s.alpha) && p.filter.None?
  {
    SearchParam("trial_" + IntToDecimal(number), s.k, JInt(s.ef), JFloat(s.alpha), None)
  }

  /** `metrics.get(metric, 0.0)` on the metrics of a run: one of the three averaged
      metrics, or 0.0 for any other name. */
  function MetricValue(run: ParamRun, metric: string): (v: real)
    ensures metric !in {"recall_at_k", "mrr", "ndcg_at_k"} ==> v == 0.0
  {
    if metric == "recall_at_k" then run.recallAtK
    else if metric == "mrr" then run.mrr
    else if metric == "ndcg_at_k" then run.ndcgAtK
    else 0.0
  }

  /** The objective metric a trial recorded, read back from the trial. */
  function TrialMetric(tr: TrialResult, metric: string): real {
    if metric == "recall_at_k" then tr.recallAtK
    else if metric == "mrr" then tr.mrr
    else if metric == "ndcg_at_k" then tr.ndcgAtK
    else 0.0
  }

  /** `float(latency.get("p95", 0.0) or 0.0)`: an absent or None p95 reads as 0.0. */
  function P95Of(latency: map<string, Option<real>>): (v: real)
    ensures "p95" !in latency || latency["p95"].None? ==> v == 0.0
    ensures "p95" in latency && latency["p95"].Some? ==> v == latency["p95"].value
  {
    if "p95" in latency && latency["p95"].Some? then latency["p95"].value else 0.0
  }

  /** A run without queries has no p95, so its trial records a p95 of 0.0. */
  lemma P95OfNoQueries(param: SearchParam)
    ensures P95Of(Aggregate(param, []).latencyPercentiles) == 0.0
  {
    AggregateNoQueries(param);
  }

  /** The trial _objective records for trial `number` with the suggestion s, after the run
      `run` of its parameters. */
  function TrialOf(number: int, s: Suggestion, run: ParamRun, cfg: TuningConfig): TrialResult {
    var p95 := P95Of(run.latencyPercentiles);
    var violated := CheckConstraint(p95, cfg.maxLatencyP95Ms);
    var score :=
      if violated then ConstraintPenalty(cfg.study.direction)
      else ObjectiveScore(MetricValue(run, cfg.objective.metric), p95, cfg.objective.latencyPenalty);
    TrialResult(number, s.k, s.ef, s.alpha, run.recallAtK, run.mrr, run.ndcgAtK,
                run.latencyMeanMs, p95, score, violated, "completed")
  }

  /** A trial scored under cfg: completed, flagged exactly when its p95 breaks the limit,
      and scored with the direction's penalty when flagged and with the objective score of
      its own metric and p95 otherwise. */
  predicate Scored(tr: TrialResult, cfg: TuningConfig) {
    && tr.status == "completed"
    && tr.constraintViolated == CheckConstraint(tr.latencyP95Ms, cfg.maxLatencyP95Ms)
    && tr.score == (if tr.constraintViolated then ConstraintPenalty(cfg.study.direction)
                    else ObjectiveScore(TrialMetric(tr, cfg.objective.metric), tr.latencyP95Ms,
                                        cfg.objective.latencyPenalty))
  }

  /** Every recorded trial is scored, carries the suggested values and copies its run's
      metrics and latencies. */
  lemma TrialOfScored(number: int, s: Suggestion, run: ParamRun, cfg: TuningConfig)
    ensures var tr := TrialOf(number, s, run, cfg);
      && Scored(tr, cfg)
      && tr.number == number && tr.k == s.k && tr.ef == s.ef && tr.alpha == s.alpha
      && tr.recallAtK == run.recallAtK && tr.mrr == run.mrr && tr.ndcgAtK == run.ndcgAtK
      && tr.latencyMeanMs == run.latencyMeanMs && tr.latencyP95Ms == P95Of(run.latencyPercentiles)
  {
    var tr := TrialOf(number, s, run, cfg);
    assert TrialMetric(tr, cfg.objective.metric) == MetricValue(run, cfg.objective.metric);
  }

  /** A scored trial that breaks the constraint scores exactly the penalty, so every such
      trial of a maximising study scores below any trial that scores above -1e6. */
  lemma ViolatedTrialScoresPenalty(tr: TrialResult, cfg: TuningConfig)
    requires Scored(tr, cfg)
    ensures tr.constraintViolated ==> tr.score == ConstraintPenalty(cfg.study.direction)
    ensures !tr.constraintViolated ==>
      tr.score == TrialMetric(tr, cfg.objective.metric) - cfg.objective.latencyPenalty * tr.latencyP95Ms
    ensures cfg.maxLatencyP95Ms.None? ==> !tr.constraintViolated
  {
  }

  // ---------------------------------------------------------------- the history entry

  /** _trial_to_dict: the trial in its nested output shape. */
  function TrialToDict(tr: TrialResult): (d: map<string, Json>)
    ensures d.Keys == {"number", "params", "metrics", "latency_ms", "score", "constraint_violated", "status"}
  {
    map[
      "number" := JInt(tr.number),
      "params" := JObj(map["k" := JInt(tr.k), "ef" := JInt(tr.ef), "alpha" := JFloat(tr.alpha)]),
      "metrics" := JObj(map["recall_at_k" := JFloat(tr.recallAtK), "mrr" := JFloat(tr.mrr),
                            "ndcg_at_k" := JFloat(tr.ndcgAtK)]),
      "latency_ms" := JObj(map["mean" := JFloat(tr.latencyMeanMs), "p95" := JFloat(tr.latencyP95Ms)]),
      "score" := JFloat(tr.score),
      "constraint_violated" := JBool(tr.constraintViolated),
      "status" := JStr(tr.status)]
  }

  function IntField(d: map<string, Json>, key: string): Option<int> {
    if key in d && d[key].JInt? then Some(d[key].i) else None
  }

  function RealField(d: map<string, Json>, key: string): Option<real> {
    if key in d && d[key].JFloat? then Some(d[key].r) else None
  }

  function ObjField(d: map<string, Json>, key: string): Option<map<string, Json>> {
    if key in d && d[key].JObj? then Some(d[key].fields) else None
  }

  function BoolField(d: map<string, Json>, key: string): Option<bool> {
    if key in d && d[key].JBool? then Some(d[key].b) else None
  }

  function StrField(d: map<string, Json>, key: string): Option<string> {
    if key in d && d[key].JStr? then Some(d[key].s) else None
  }

  /** Reads a history entry back into the trial it describes. */
  function TrialFromDict(d: map<string, Json>): Option<TrialResult> {
    match (IntField(d, "number"), ObjField(d, "params"), ObjField(d, "metrics"), ObjField(d, "latency_ms"))
    case (Some(number), Some(params), Some(metrics), Some(latency)) =>
      (match (IntField(params, "k"), IntField(params, "ef"), RealField(params, "alpha"))
       case (Some(k), Some(ef), Some(alpha)) =>
         (match (RealField(metrics, "recall_at_k"), RealField(metrics, "mrr"), RealField(metrics, "ndcg_at_k"))
          case (Some(recall), Some(mrr), Some(ndcg)) =>
            (match (RealField(latency, "mean"), RealField(latency, "p95"), RealField(d, "score"),
                    BoolField(d, "constraint_violated"), StrField(d, "status"))
             case (Some(mean), Some(p95), Some(score), Some(violated), Some(status)) =>
               Some(TrialResult(number, k, ef, alpha, recall, mrr, ndcg, mean, p95, score, violated, status))
             case _ => None)
          case _ => None)
       case _ => None)
    case _ => None
  }

  /** The history entry keeps every field of the trial unchanged. */
  lemma TrialDictRoundTrip(tr: TrialResult)
    ensures TrialFromDict(TrialToDict(tr)) == Some(tr)
  {
  }

  /** `[self._trial_to_dict(t) for t in self.trial_results]`. */
  function TrialDicts(trials: seq<TrialResult>): (ds: seq<map<string, Json>>)
    ensures |ds| == |trials| && forall i :: 0 <= i < |trials| ==> ds[i] == TrialToDict(trials[i])
  {
    seq(|trials|, i requires 0 <= i < |trials| => TrialToDict(trials[i]))
  }

  /** The history after the first n suggestions: trial j is scored under cfg, numbered j
      and carries the j-th suggested values. */
  predicate History(trials: seq<TrialResult>, suggestions: seq<Suggestion>, cfg: TuningConfig) {
    && |trials| <= |suggestions|
    && forall j :: 0 <= j < |trials| ==>
         && Scored(trials[j], cfg)
         && trials[j].number == j
         && trials[j].k == suggestions[j].k && trials[j].ef == suggestions[j].ef
         && trials[j].alpha == suggestions[j].alpha
  }

  /** The trial of the next suggestion extends the history. */
  lemma HistoryStep(trials: seq<TrialResult>, suggestions: seq<Suggestion>, run: ParamRun, cfg: TuningConfig)
    requires History(trials, suggestions, cfg) && |trials| < |suggestions|
    ensures History(trials + [TrialOf(|trials|, suggestions[|trials|], run, cfg)], suggestions, cfg)
  {
    TrialOfScored(|trials|, suggestions[|trials|], run, cfg);
  }

  /** What run() returns, without the best trial that Optuna selects. */
  datatype TuningReport = TuningReport(trials: seq<map<string, Json>>, studyName: string, nTrials: int)

  // ---------------------------------------------------------------- the tuner

  /** The message of the ValueError `study.best_trial` raises when no trial has completed. */
  const NoCompletedTrials := "No trials are completed yet."

  /** ParamTuner: the dataset reader, the scenario runner over the search gateway, the
      history of trials, and whether the index has been prepared in the current run.
      `prepares` counts the calls of prepare_index since the last reset. */
  class ParamTuner {
    const reader: DatasetReader
    const runner: ScenarioRunner
    var trialResults: seq<TrialResult>
    var ingestionDone: bool
    var baseCfg: Option<ScenarioConfig>
    var tuningCfg: Option<TuningConfig>
    ghost var prepares: nat

    constructor(runner: ScenarioRunner)
      ensures this.reader == runner.reader && this.runner == runner
      ensures trialResults == [] && !ingestionDone && baseCfg.None? && tuningCfg.None? && prepares == 0
    {
      this.reader := runner.reader;
      this.runner := runner;
      trialResults := [];
      ingestionDone := false;
      baseCfg := None;
      tuningCfg := None;
      prepares := 0;
    }

    /** _ensure_ingestion: nothing once the index is prepared; otherwise read both datasets
        and prepare the index, and remember that it is prepared only once that succeeds. */
    method EnsureIngestion() returns (r: Result<()>, ghost k: nat)
      requires baseCfg.Some? && runner.gateway.Valid()
      modifies this, runner.gateway
      ensures runner.gateway.Valid() && Extends(runner.gateway.history, old(runner.gateway.history))
      ensures trialResults == old(trialResults) && baseCfg == old(baseCfg) && tuningCfg == old(tuningCfg)
      ensures old(ingestionDone) ==>
        r == Ok(()) && ingestionDone && prepares == old(prepares)
        && runner.gateway.history == old(runner.gateway.history)
      ensures !old(ingestionDone) ==>
        var cfg := baseCfg.value;
        var documents := reader.loadDocuments(cfg.documentsPath);
        var queries := reader.loadQueries(cfg.queriesPath);
        && (ingestionDone <==> r.Ok?)
        && (documents.Err? ==> r == Err(documents.error))
        && (documents.Ok? && queries.Err? ==> r == Err(queries.error))
        && (documents.Err? || queries.Err? ==>
              prepares == old(prepares) && runner.gateway.history == old(runner.gateway.history))
        && (documents.Ok? && queries.Ok? ==>
              prepares == old(prepares) + 1 &&
              PrepareTrace(Since(runner.gateway.history, |old(runner.gateway.history)|),
                           documents.value, queries.value, cfg.ingestion, k, r))
    {
      k := 0;
      if ingestionDone {
        return Ok(()), k;
      }
      var cfg := baseCfg.value;
      var documents := reader.loadDocuments(cfg.documentsPath);
      if documents.Err? {
        return Err(documents.error), k;
      }
      var queries := reader.loadQueries(cfg.queriesPath);
      if queries.Err? {
        return Err(queries.error), k;
      }
      prepares := prepares + 1;
      r, k := runner.PrepareIndex(cfg.ingestion, documents.value, queries.value);
      if r.Err? {
        return;
      }
      ingestionDone := true;
    }

    /** _objective for trial `number` with the suggestion s: prepare the index if needed,
        run the trial's parameters over the queries, score the run and append exactly one
        trial to the history; any exception leaves the history as it was. */
    method Objective(number: int, s: Suggestion) returns (r: Result<real>, ghost run: ParamRun, ghost mid: nat)
      requires baseCfg.Some? && tuningCfg.Some? && runner.gateway.Valid()
      modifies this, runner.gateway
      ensures runner.gateway.Valid() && Extends(runner.gateway.history, old(runner.gateway.history))
      ensures baseCfg == old(baseCfg) && tuningCfg == old(tuningCfg)
      ensures old(ingestionDone) ==> ingestionDone && prepares == old(prepares)
      ensures !old(ingestionDone) ==>
        prepares <= old(prepares) + 1 && (ingestionDone ==> prepares == old(prepares) + 1)
      ensures r.Err? ==> trialResults == old(trialResults)
      ensures r.Ok? ==>
        && ingestionDone
        && trialResults == old(trialResults) + [TrialOf(number, s, run, tuningCfg.value)]
        && r.value == TrialOf(number, s, run, tuningCfg.value).score
        && reader.loadQueries(baseCfg.value.queriesPath).Ok?
        && |old(runner.gateway.history)| <= mid <= |runner.gateway.history|
        && runner.ParamTrace(runner.gateway.history[mid..], TrialParam(number, s),
                             reader.loadQueries(baseCfg.value.queriesPath).value, Ok(run))
    {
      run, mid := ParamRun("", TrialParam(number, s), 0.0, 0.0, 0.0, 0.0, map[], []), 0;
      var tcfg := tuningCfg.value;
      var param := TrialParam(number, s);
      var prepared, _ := EnsureIngestion();
      if prepared.Err? {
        return Err(prepared.error), run, mid;
      }
      var cfg := baseCfg.value;
      var queries := reader.loadQueries(cfg.queriesPath);
      if queries.Err? {
        return Err(queries.error), run, mid;
      }
      mid := |runner.gateway.history|;
      ghost var h := runner.gateway.history;
      var result := runner.RunParam(param, queries.value);
      SinceStep(old(runner.gateway.history), h, runner.gateway.history);
      if result.Err? {
        return Err(result.error), run, mid;
      }
      var done := result.value;
      run := done;
      assert runner.gateway.history[mid..] == Since(runner.gateway.history, |h|);
      var tr := TrialOf(number, s, done, tcfg);
      trialResults := trialResults + [tr];
      r := Ok(tr.score);
    }

    /** run(tuning_cfg) given the outcome of loading the base scenario and the trials Optuna
        suggests: reset the history and the preparation flag, run one trial per suggestion,
        numbered from 0, and report every trial; a study without trials has no best trial,
        and asking for it raises. */
    method Run(tcfg: TuningConfig, scenario: Result<ScenarioConfig>, suggestions: seq<Suggestion>)
      returns (r: Result<TuningReport>)
      requires runner.gateway.Valid()
      modifies this, runner.gateway
      ensures runner.gateway.Valid() && Extends(runner.gateway.history, old(runner.gateway.history))
      ensures tuningCfg == Some(tcfg)
      ensures scenario.Err? ==>
        r == Err(scenario.error) && trialResults == old(trialResults) && ingestionDone == old(ingestionDone)
        && runner.gateway.history == old(runner.gateway.history)
      ensures scenario.Ok? ==> baseCfg == Some(scenario.value) && prepares <= 1
      ensures scenario.Ok? && suggestions == [] ==>
        prepares == 0 && trialResults == [] && r == Err(ValueError(NoCompletedTrials))
      ensures r.Ok? ==> suggestions != [] && prepares == 1 && ingestionDone
      ensures r.Ok? ==>
        && r.value == TuningReport(TrialDicts(trialResults), tcfg.study.name, |trialResults|)
        && |trialResults| == |suggestions| && History(trialResults, suggestions, tcfg)
    {
      tuningCfg := Some(tcfg);
      if scenario.Err? {
        return Err(scenario.error);
      }
      baseCfg := Some(scenario.value);
      trialResults := [];
      ingestionDone := false;
      prepares := 0;
      for i := 0 to |suggestions|
        invariant runner.gateway.Valid() && Extends(runner.gateway.history, old(runner.gateway.history))
        invariant baseCfg == Some(scenario.value) && tuningCfg == Some(tcfg)
        invariant |trialResults| == i
        invariant i == 0 ==> prepares == 0 && !ingestionDone
        invariant i > 0 ==> prepares == 1 && ingestionDone
        invariant History(trialResults, suggestions, tcfg)
      {
        ghost var h, before := runner.gateway.history, trialResults;
        var score, run, _ := Objective(i, suggestions[i]);
        SinceStep(old(runner.gateway.history), h, runner.gateway.history);
        if score.Err? {
          return Err(score.error);
        }
        HistoryStep(before, suggestions, run, tcfg);
      }
      if suggestions == [] {
        return Err(ValueError(NoCompletedTrials));
      }
      r := Ok(TuningReport(TrialDicts(trialResults), tcfg.study.name, |trialResults|));
    }
  }
}
