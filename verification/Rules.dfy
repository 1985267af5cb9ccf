/** Threshold and rate-of-change rules over freshly ingested readings. */
module Rules {
  import opened Model
  import opened Tables

  datatype RuleResult = RuleResult(
    ruleKey: string, ruleKind: RuleKind, severity: Severity, description: string,
    breached: bool, value: real, bound: real)

  function Compare(op: Comparison, value: real, bound: real): bool {
    match op
    case GreaterThan => value > bound
    case GreaterThanOrEqual => value >= bound
    case LessThan => value < bound
    case LessThanOrEqual => value <= bound
  }

  function ThresholdResult(rule: ThresholdRule, reading: Reading): RuleResult {
    RuleResult(RuleKey(Threshold, reading.metricType), Threshold, rule.severity, rule.description,
               Compare(rule.comparison, reading.value, rule.threshold), reading.value, rule.threshold)
  }

  function RateResult(rule: RateRule, reading: Reading, previous: Sample): RuleResult {
    var delta := reading.value - previous.value;
    RuleResult(RuleKey(RateOfChange, reading.metricType), RateOfChange, rule.severity, rule.description,
               Compare(rule.comparison, delta, rule.maxDelta), delta, rule.maxDelta)
  }

  function ThresholdPart(cfg: Config, reading: Reading): seq<RuleResult> {
    if reading.metricType in cfg.thresholdRules
    then [ThresholdResult(cfg.thresholdRules[reading.metricType], reading)]
    else []
  }

  function RatePart(cfg: Config, samples: Samples, node: NodeId, reading: Reading, at: Time): seq<RuleResult> {
    if reading.metricType in cfg.rateRules then
      var rule := cfg.rateRules[reading.metricType];
      match FindPrevious(cfg.pick, samples, node, reading.metricType, at, rule.window)
      case Some(previous) => [RateResult(rule, reading, previous)]
      case None => []
    else
      []
  }

  function ReadingResults(cfg: Config, samples: Samples, node: NodeId, reading: Reading, at: Time): seq<RuleResult> {
    ThresholdPart(cfg, reading) + RatePart(cfg, samples, node, reading, at)
  }

  function Evaluate(cfg: Config, samples: Samples, node: NodeId, readings: seq<Reading>, at: Time): seq<RuleResult> {
    if readings == [] then
      []
    else
      var n := |readings| - 1;
      Evaluate(cfg, samples, node, readings[..n], at) + ReadingResults(cfg, samples, node, readings[n], at)
  }

  ghost predicate DistinctKeys(results: seq<RuleResult>) {
    forall i, j :: 0 <= i < j < |results| ==> results[i].ruleKey != results[j].ruleKey
  }

  ghost predicate DistinctMetrics(readings: seq<Reading>) {
    forall i, j :: 0 <= i < j < |readings| ==> readings[i].metricType != readings[j].metricType
  }

  /** Every verdict carries the key of a configured kind and of a metric that was read. */
  ghost predicate KeyedBy(r: RuleResult, readings: seq<Reading>) {
    exists i :: 0 <= i < |readings| && r.ruleKey == RuleKey(r.ruleKind, readings[i].metricType)
  }

  lemma KeyedByPrefix(r: RuleResult, readings: seq<Reading>, n: nat) returns (j: nat)
    requires n <= |readings| && KeyedBy(r, readings[..n])
    ensures j < n && r.ruleKey == RuleKey(r.ruleKind, readings[j].metricType)
  {
    var prefix := readings[..n];
    j :| 0 <= j < |prefix| && r.ruleKey == RuleKey(r.ruleKind, prefix[j].metricType);
  }

  lemma EvaluateStep(cfg: Config, samples: Samples, node: NodeId, readings: seq<Reading>, n: nat, at: Time)
    requires n < |readings|
    ensures Evaluate(cfg, samples, node, readings[..n + 1], at)
         == Evaluate(cfg, samples, node, readings[..n], at) + ReadingResults(cfg, samples, node, readings[n], at)
  {
    assert readings[..n + 1][..n] == readings[..n];
  }

  ghost predicate AllKeyed(results: seq<RuleResult>, readings: seq<Reading>) {
    forall i :: 0 <= i < |results| ==> KeyedBy(results[i], readings) && results[i].ruleKey != STALENESS_KEY
  }

  lemma ReadingKeys(cfg: Config, samples: Samples, node: NodeId, readings: seq<Reading>, n: nat, at: Time)
    requires n < |readings|
    ensures var now := ReadingResults(cfg, samples, node, readings[n], at);
            && AllKeyed(now, readings) && DistinctKeys(now)
            && forall j :: 0 <= j < |now| ==> now[j].ruleKey == RuleKey(now[j].ruleKind, readings[n].metricType)
  {
    var metric, now := readings[n].metricType, ReadingResults(cfg, samples, node, readings[n], at);
    RuleKeyNotReserved(Threshold, metric);
    RuleKeyNotReserved(RateOfChange, metric);
    RuleKeyInjective(Threshold, metric, RateOfChange, metric);
    assert |now| <= 2;
  }

  /** Verdicts carry configured keys only, never the reserved staleness key. */
  lemma {:induction false} EvaluateKeys(cfg: Config, samples: Samples, node: NodeId, readings: seq<Reading>, at: Time)
    ensures AllKeyed(Evaluate(cfg, samples, node, readings, at), readings)
  {
    if readings != [] {
      var n := |readings| - 1;
      var before := Evaluate(cfg, samples, node, readings[..n], at);
      EvaluateKeys(cfg, samples, node, readings[..n], at);
      ReadingKeys(cfg, samples, node, readings, n, at);
      forall i | 0 <= i < |before| ensures KeyedBy(before[i], readings) {
        var j := KeyedByPrefix(before[i], readings, n);
      }
    }
  }

  /** A payload with one reading per metric yields at most one verdict per key. */
  lemma {:induction false} EvaluateDistinct(cfg: Config, samples: Samples, node: NodeId, readings: seq<Reading>,
      at: Time)
    requires DistinctMetrics(readings)
    ensures DistinctKeys(Evaluate(cfg, samples, node, readings, at))
  {
    if readings != [] {
      var n := |readings| - 1;
      var before := Evaluate(cfg, samples, node, readings[..n], at);
      var now := ReadingResults(cfg, samples, node, readings[n], at);
      EvaluateDistinct(cfg, samples, node, readings[..n], at);
      EvaluateKeys(cfg, samples, node, readings[..n], at);
      ReadingKeys(cfg, samples, node, readings, n, at);
      forall i, j | 0 <= i < |before| && 0 <= j < |now| ensures before[i].ruleKey != now[j].ruleKey {
        var k := KeyedByPrefix(before[i], readings, n);
        RuleKeyInjective(before[i].ruleKind, readings[k].metricType, now[j].ruleKind, readings[n].metricType);
      }
    }
  }

  // ----- what the verdicts mean -----

  /** The value is on the wrong side of the bound. */
  predicate Exceeds(op: Comparison, value: real, bound: real) {
    || (op == GreaterThan && bound < value)
    || (op == GreaterThanOrEqual && bound <= value)
    || (op == LessThan && value < bound)
    || (op == LessThanOrEqual && value <= bound)
  }

  /** A verdict of the metric's threshold rule: the value read, against the threshold. */
  predicate JudgesValue(cfg: Config, reading: Reading, r: RuleResult)
    requires reading.metricType in cfg.thresholdRules
  {
    var rule := cfg.thresholdRules[reading.metricType];
    && r.ruleKey == "threshold:" + MetricName(reading.metricType) && r.ruleKind == Threshold
    && r.severity == rule.severity && r.description == rule.description
    && r.value == reading.value && r.bound == rule.threshold
    && (r.breached <==> Exceeds(rule.comparison, reading.value, rule.threshold))
  }

  /** A stored value the metric's rate rule may compare with. */
  predicate Comparable(cfg: Config, samples: Samples, node: NodeId, metric: MetricType, at: Time, id: nat)
    requires metric in cfg.rateRules
  {
    && id in samples && samples[id].nodeId == node && samples[id].metricType == metric
    && at - cfg.rateRules[metric].window <= samples[id].collectedAt && samples[id].collectedAt < at
  }

  /** One that none of them is newer than. */
  ghost predicate MostRecent(cfg: Config, samples: Samples, node: NodeId, metric: MetricType, at: Time, id: nat)
    requires metric in cfg.rateRules
  {
    && Comparable(cfg, samples, node, metric, at, id)
    && forall j :: Comparable(cfg, samples, node, metric, at, j) ==> samples[j].collectedAt <= samples[id].collectedAt
  }

  /** A verdict of the metric's rate rule: how far the value has risen since that sample, against the limit. */
  predicate JudgesRise(cfg: Config, samples: Samples, reading: Reading, id: nat, r: RuleResult)
    requires reading.metricType in cfg.rateRules && id in samples
  {
    var rule := cfg.rateRules[reading.metricType];
    && r.ruleKey == "rate_of_change:" + MetricName(reading.metricType) && r.ruleKind == RateOfChange
    && r.severity == rule.severity && r.description == rule.description
    && r.value == reading.value - samples[id].value && r.bound == rule.maxDelta
    && (r.breached <==> Exceeds(rule.comparison, reading.value - samples[id].value, rule.maxDelta))
  }

  /** One verdict if the metric has a threshold rule, none otherwise. */
  predicate ThresholdVerdicts(cfg: Config, reading: Reading, rs: seq<RuleResult>) {
    if reading.metricType in cfg.thresholdRules then |rs| == 1 && JudgesValue(cfg, reading, rs[0]) else rs == []
  }

  /** One verdict if the metric has a rate rule and there is a stored value to compare with, none otherwise. */
  ghost predicate RateVerdicts(cfg: Config, samples: Samples, node: NodeId, reading: Reading, at: Time,
      rs: seq<RuleResult>) {
    if reading.metricType in cfg.rateRules
       && exists id :: Comparable(cfg, samples, node, reading.metricType, at, id)
    then
      |rs| == 1
      && exists id :: MostRecent(cfg, samples, node, reading.metricType, at, id)
                      && JudgesRise(cfg, samples, reading, id, rs[0])
    else
      rs == []
  }

  /** The verdicts on one reading, threshold first. */
  ghost predicate ReadingVerdicts(cfg: Config, samples: Samples, node: NodeId, reading: Reading, at: Time,
      rs: seq<RuleResult>) {
    exists k :: 0 <= k <= |rs|
                && ThresholdVerdicts(cfg, reading, rs[..k])
                && RateVerdicts(cfg, samples, node, reading, at, rs[k..])
  }

  /** The verdicts on all readings, in payload order: one part for each. */
  ghost predicate PayloadVerdicts(cfg: Config, samples: Samples, node: NodeId, readings: seq<Reading>, at: Time,
      rs: seq<RuleResult>, parts: seq<seq<RuleResult>>) {
    && |parts| == |readings| && rs == Joined(parts)
    && forall i :: 0 <= i < |readings| ==> ReadingVerdicts(cfg, samples, node, readings[i], at, parts[i])
  }

  function Joined(parts: seq<seq<RuleResult>>): seq<RuleResult> {
    if parts == [] then [] else Joined(parts[..|parts| - 1]) + parts[|parts| - 1]
  }

  lemma ThresholdMeans(cfg: Config, reading: Reading)
    ensures ThresholdVerdicts(cfg, reading, ThresholdPart(cfg, reading))
  {
  }

  lemma RateMeans(cfg: Config, samples: Samples, node: NodeId, reading: Reading, at: Time)
    requires cfg.Valid()
    ensures RateVerdicts(cfg, samples, node, reading, at, RatePart(cfg, samples, node, reading, at))
  {
    var metric := reading.metricType;
    if metric in cfg.rateRules {
      var window := InWindow(samples, node, metric, at, cfg.rateRules[metric].window);
      assert forall id :: id in window <==> Comparable(cfg, samples, node, metric, at, id);
      if id :| Comparable(cfg, samples, node, metric, at, id) {
        NewestExists(window);
        var pick := cfg.pick(Newest(window));
        assert MostRecent(cfg, samples, node, metric, at, pick);
        assert JudgesRise(cfg, samples, reading, pick, RatePart(cfg, samples, node, reading, at)[0]);
      } else {
        assert window == map[];
      }
    }
  }

  lemma {:induction false} NewestExists(samples: Samples)
    requires samples != map[]
    ensures Newest(samples) != map[]
  {
    var id := NewestOf(samples, samples.Keys);
    assert id in Newest(samples);
  }

  lemma {:induction false} NewestOf(samples: Samples, ids: set<nat>) returns (id: nat)
    requires ids != {} && ids <= samples.Keys
    ensures id in ids && forall j :: j in ids ==> samples[j].collectedAt <= samples[id].collectedAt
  {
    id :| id in ids;
    if ids != {id} {
      var other := NewestOf(samples, ids - {id});
      if samples[id].collectedAt <= samples[other].collectedAt {
        id := other;
      }
    }
  }

  lemma ReadingMeans(cfg: Config, samples: Samples, node: NodeId, reading: Reading, at: Time)
    requires cfg.Valid()
    ensures ReadingVerdicts(cfg, samples, node, reading, at, ReadingResults(cfg, samples, node, reading, at))
  {
    var a, b := ThresholdPart(cfg, reading), RatePart(cfg, samples, node, reading, at);
    ThresholdMeans(cfg, reading);
    RateMeans(cfg, samples, node, reading, at);
    assert (a + b)[..|a|] == a && (a + b)[|a|..] == b;
  }

  /** What the evaluation of a payload comes to, rule by rule: a threshold verdict on every reading whose metric has
      such a rule, and a rate verdict on every one that has a value stored in the window before it; each says what was
      compared with what, and whether that is a breach. */
  lemma {:induction false} EvaluateMeans(cfg: Config, samples: Samples, node: NodeId, readings: seq<Reading>, at: Time)
    returns (parts: seq<seq<RuleResult>>)
    requires cfg.Valid()
    ensures PayloadVerdicts(cfg, samples, node, readings, at, Evaluate(cfg, samples, node, readings, at), parts)
  {
    if readings == [] {
      parts := [];
    } else {
      var n := |readings| - 1;
      var before := EvaluateMeans(cfg, samples, node, readings[..n], at);
      ReadingMeans(cfg, samples, node, readings[n], at);
      parts := OnePartMore(cfg, samples, node, readings, at, Evaluate(cfg, samples, node, readings[..n], at), before,
        ReadingResults(cfg, samples, node, readings[n], at));
    }
  }

  lemma OnePartMore(cfg: Config, samples: Samples, node: NodeId, readings: seq<Reading>, at: Time,
      rs: seq<RuleResult>, before: seq<seq<RuleResult>>, last: seq<RuleResult>) returns (parts: seq<seq<RuleResult>>)
    requires readings != []
    requires PayloadVerdicts(cfg, samples, node, readings[..|readings| - 1], at, rs, before)
    requires ReadingVerdicts(cfg, samples, node, readings[|readings| - 1], at, last)
    ensures PayloadVerdicts(cfg, samples, node, readings, at, rs + last, parts)
  {
    parts := before + [last];
    assert parts[..|before|] == before;
    forall i | 0 <= i < |before| ensures ReadingVerdicts(cfg, samples, node, readings[i], at, parts[i]) {
      assert readings[..|before|][i] == readings[i];
    }
  }

  class RuleEngine {
    const cfg: Config

    constructor (cfg: Config)
      ensures this.cfg == cfg
    {
      this.cfg := cfg;
    }

    method EvaluateThreshold(reading: Reading) returns (result: Option<RuleResult>)
      ensures ThresholdPart(cfg, reading) == if result.Some? then [result.value] else []
    {
      if reading.metricType !in cfg.thresholdRules {
        return None;
      }
      return Some(ThresholdResult(cfg.thresholdRules[reading.metricType], reading));
    }

    method EvaluateRateOfChange(samples: Samples, node: NodeId, reading: Reading, at: Time)
      returns (result: Option<RuleResult>)
      ensures RatePart(cfg, samples, node, reading, at) == if result.Some? then [result.value] else []
    {
      if reading.metricType !in cfg.rateRules {
        return None;
      }
      var rule := cfg.rateRules[reading.metricType];
      var previous := FindPrevious(cfg.pick, samples, node, reading.metricType, at, rule.window);
      if previous.None? {
        return None;
      }
      return Some(RateResult(rule, reading, previous.value));
    }

    method EvaluateReading(samples: Samples, node: NodeId, reading: Reading,
        at: Time) returns (results: seq<RuleResult>)
      ensures results == ReadingResults(cfg, samples, node, reading, at)
    {
      results := [];
      var threshold := EvaluateThreshold(reading);
      if threshold.Some? {
        results := results + [threshold.value];
      }
      var rate := EvaluateRateOfChange(samples, node, reading, at);
      if rate.Some? {
        results := results + [rate.value];
      }
    }

    /** Every applicable rule for each reading, in payload order. */
    method EvaluateReadings(samples: Samples, node: NodeId, readings: seq<Reading>, at: Time)
      returns (results: seq<RuleResult>)
      ensures results == Evaluate(cfg, samples, node, readings, at)
      ensures cfg.Valid() ==> exists parts :: PayloadVerdicts(cfg, samples, node, readings, at, results, parts)
    {
      results := [];
      for i := 0 to |readings|
        invariant results == Evaluate(cfg, samples, node, readings[..i], at)
      {
        var more := EvaluateReading(samples, node, readings[i], at);
        results := results + more;
        EvaluateStep(cfg, samples, node, readings, i, at);
      }
      assert readings[..|readings|] == readings;
      if cfg.Valid() {
        ghost var parts := EvaluateMeans(cfg, samples, node, readings, at);
      }
    }
  }
}
