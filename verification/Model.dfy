/** Entities shared by the Collector's rules, tables, services and jobs.

    Times are integer microseconds, the resolution of the timestamps the
    system stores; metric values are reals.
 */
module Model {

  datatype Option<+T> = None | Some(value: T) {
    function GetOr(default: T): T {
      if Some? then value else default
    }
  }

  datatype Result<+T, +E> = Ok(value: T) | Err(error: E)

  type Time = int
  type NodeId = string

  const HOUR: int := 3_600_000_000

  datatype MetricType =
    | CpuUsagePercent
    | MemoryUsagePercent
    | MemoryUsedBytes
    | MemoryAvailableBytes
    | DiskUsagePercent
    | DiskUsedBytes
    | DiskFreeBytes
    | NetworkBytesSent
    | NetworkBytesRecv

  datatype Severity = Warning | Critical

  datatype RuleKind = Threshold | RateOfChange | Staleness

  datatype AlertStatus = Firing | Resolved

  datatype ActionStatus = Blocked | Dispatched | Executed | Failed

  datatype ActionType = Noop | ClearDirectory | RestartService

  /** The reason column of the audit log. */
  datatype Reason =
    | CooldownActive(elapsed: int, cooldown: int)
    | RateLimitReached(count: nat, max: nat)
    | TimedOut
    | Message(text: string)

  datatype Alert = Alert(
    id: nat,
    nodeId: NodeId,
    ruleKey: string,
    ruleKind: RuleKind,
    severity: Severity,
    status: AlertStatus,
    description: string,
    triggeringValue: real,
    bound: real,
    firstFiredAt: Time,
    lastFiredAt: Time,
    resolvedAt: Option<Time>,
    acknowledgedAt: Option<Time>,
    acknowledgedBy: Option<string>,
    escalatedAt: Option<Time>,
    remediatedAt: Option<Time>
  )

  datatype Action = Action(
    id: nat,
    nodeId: NodeId,
    alertId: nat,
    ruleKey: string,
    playbookName: string,
    actionType: ActionType,
    parameters: map<string, string>,
    status: ActionStatus,
    reason: Option<Reason>,
    createdAt: Time,
    completedAt: Option<Time>
  )

  datatype Reading = Reading(metricType: MetricType, value: real, unit: string)

  datatype Sample = Sample(
    nodeId: NodeId,
    metricType: MetricType,
    value: real,
    unit: string,
    collectedAt: Time,
    receivedAt: Time
  )

  datatype Payload = Payload(nodeId: NodeId, collectedAt: Time, samples: seq<Reading>)

  datatype Comparison = GreaterThan | GreaterThanOrEqual | LessThan | LessThanOrEqual

  datatype ThresholdRule = ThresholdRule(
    comparison: Comparison, threshold: real, severity: Severity, description: string)

  datatype RateRule = RateRule(
    comparison: Comparison, maxDelta: real, window: int, severity: Severity, description: string)

  datatype Playbook = Playbook(name: string, actionType: ActionType, parameters: map<string, string>)

  /** Settings, rules and playbooks, loaded once at start-up.  The maps hold at
      most one rule per metric type and one playbook per rule key, as the
      loaders validate.  `pick` stands for the database's unspecified choice
      among samples that tie for the latest collection time. */
  datatype Config = Config(
    thresholdRules: map<MetricType, ThresholdRule>,
    rateRules: map<MetricType, RateRule>,
    playbooks: map<string, Playbook>,
    escalationAfter: int,
    remediationAfter: int,
    remediationEnabled: bool,
    maxPerHour: nat,
    cooldown: int,
    staleAfter: int,
    dispatchTimeout: int,
    actionsRetention: int,
    alertsRetention: int,
    metricsRetention: int,
    batchSize: nat,
    pick: map<nat, Sample> -> nat
  )
  {
    /** What the settings validators guarantee. */
    ghost predicate Valid() {
      && 0 <= escalationAfter
      && 0 <= remediationAfter
      && (remediationEnabled ==> escalationAfter <= remediationAfter)
      && 1 <= maxPerHour
      && 0 <= cooldown
      && 0 < dispatchTimeout
      && 0 < alertsRetention <= actionsRetention
      && 0 < metricsRetention
      && 1 <= batchSize
      && forall ties: map<nat, Sample> :: ties != map[] ==> pick(ties) in ties
    }
  }

  function KindName(kind: RuleKind): string {
    match kind
    case Threshold => "threshold"
    case RateOfChange => "rate_of_change"
    case Staleness => "staleness"
  }

  function MetricName(metric: MetricType): (name: string)
    ensures 15 <= |name|
  {
    match metric
    case CpuUsagePercent => "cpu.usage_percent"
    case MemoryUsagePercent => "memory.usage_percent"
    case MemoryUsedBytes => "memory.used_bytes"
    case MemoryAvailableBytes => "memory.available_bytes"
    case DiskUsagePercent => "disk.usage_percent"
    case DiskUsedBytes => "disk.used_bytes"
    case DiskFreeBytes => "disk.free_bytes"
    case NetworkBytesSent => "network.bytes_sent"
    case NetworkBytesRecv => "network.bytes_recv"
  }

  function RuleKey(kind: RuleKind, metric: MetricType): string {
    KindName(kind) + ":" + MetricName(metric)
  }

  const STALENESS_KEY: string := "staleness:node_heartbeat"

  lemma MetricNamesDiffer(a: MetricType, b: MetricType)
    requires a != b
    ensures MetricName(a) != MetricName(b)
  {
    var x, y := MetricName(a), MetricName(b);
    if |x| == |y| {
      assert x[0] != y[0] || x[5] != y[5] || x[14] != y[14];
    }
  }

  lemma AppendCancels(p: string, x: string, y: string)
    requires p + x == p + y
    ensures x == y
  {
    assert (p + x)[|p|..] == x && (p + y)[|p|..] == y;
  }

  /** Rule keys identify the rule: kind and metric can be read back. */
  lemma RuleKeyInjective(k1: RuleKind, m1: MetricType, k2: RuleKind, m2: MetricType)
    ensures RuleKey(k1, m1) == RuleKey(k2, m2) <==> k1 == k2 && m1 == m2
  {
    if k1 != k2 {
      assert RuleKey(k1, m1)[0] == KindName(k1)[0] && RuleKey(k2, m2)[0] == KindName(k2)[0];
    } else if RuleKey(k1, m1) == RuleKey(k2, m2) && m1 != m2 {
      AppendCancels(KindName(k1) + ":", MetricName(m1), MetricName(m2));
      MetricNamesDiffer(m1, m2);
    }
  }

  /** No configured rule can produce the key reserved for the staleness job. */
  lemma RuleKeyNotReserved(kind: RuleKind, metric: MetricType)
    ensures RuleKey(kind, metric) != STALENESS_KEY
  {
    assert RuleKey(kind, metric)[0] == KindName(kind)[0];
  }
}
