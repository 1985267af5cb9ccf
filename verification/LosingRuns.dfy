/** Runs that end badly, from an empty database, for every configuration that remediates a threshold rule at all:
    what the theorems about acknowledgements, attempts and audit rows allow does happen. */
module LosingRuns {
  import opened Model
  import opened Tables
  import opened Rules
  import opened Alerting
  import opened Machine
  import opened MachineInvariants
  import opened HumansFirst
  import Ingestion
  import SafetyLimits

  const NODE: NodeId := "node"

  /** Remediation is enabled and a playbook is mapped to the threshold rule of the metric. */
  ghost predicate Remediates(cfg: Config, metric: MetricType) {
    && cfg.Valid()
    && metric in cfg.thresholdRules
    && Mapped(cfg, Key(metric))
  }

  function Key(metric: MetricType): string {
    RuleKey(Threshold, metric)
  }

  /** A value that breaches the rule. */
  function Bad(rule: ThresholdRule): (value: real)
    ensures Compare(rule.comparison, value, rule.threshold)
  {
    match rule.comparison
    case GreaterThan => rule.threshold + 1.0
    case GreaterThanOrEqual => rule.threshold
    case LessThan => rule.threshold - 1.0
    case LessThanOrEqual => rule.threshold
  }

  function BadReading(cfg: Config, metric: MetricType): Reading
    requires metric in cfg.thresholdRules
  {
    Reading(metric, Bad(cfg.thresholdRules[metric]), "")
  }

  function BadPayload(cfg: Config, metric: MetricType, at: Time): Payload
    requires metric in cfg.thresholdRules
  {
    Payload(NODE, at, [BadReading(cfg, metric)])
  }

  function Verdict(cfg: Config, metric: MetricType): RuleResult
    requires metric in cfg.thresholdRules
  {
    ThresholdResult(cfg.thresholdRules[metric], BadReading(cfg, metric))
  }

  /** How far back the rate rule of the metric looks, if it has one. */
  function LooksBack(cfg: Config, metric: MetricType): int {
    if metric in cfg.rateRules then cfg.rateRules[metric].window else 0
  }

  /** Every stored sample is too old for a rate verdict at this time. */
  ghost predicate OldSamples(cfg: Config, metric: MetricType, samples: Samples, at: Time) {
    forall id :: id in samples ==> samples[id].collectedAt < at - LooksBack(cfg, metric) && samples[id].collectedAt < at
  }

  lemma OneVerdict(cfg: Config, metric: MetricType, s: System, at: Time)
    requires metric in cfg.thresholdRules && OldSamples(cfg, metric, s.world.db.samples, at)
    ensures Ingestion.Verdicts(cfg, s.world, BadPayload(cfg, metric, at), at) == [Verdict(cfg, metric)]
  {
    var p := BadPayload(cfg, metric, at);
    var samples := Ingestion.Stored(s.world, p, at).db.samples;
    if metric in cfg.rateRules {
      assert InWindow(samples, NODE, metric, at, cfg.rateRules[metric].window) == map[];
    }
    assert ReadingResults(cfg, samples, NODE, p.samples[0], at) == [Verdict(cfg, metric)];
    assert p.samples[..0] == [];
    assert Evaluate(cfg, samples, NODE, p.samples[..0], at) == [];
  }

  lemma More(cfg: Config, es: seq<Event>, e: Event)
    ensures Run(cfg, INITIAL, es + [e]) == Step(cfg, Run(cfg, INITIAL, es), e)
  {
    assert (es + [e])[..|es|] == es;
  }

  function Context(cfg: Config, metric: MetricType, at: Time): Ctx
    requires metric in cfg.thresholdRules
  {
    Ctx(NODE, at, Verdict(cfg, metric), [], [])
  }

  /** Nothing is under way but, possibly, the request. */
  ghost predicate Quiet(s: System) {
    Inv(s) && s.job.JobIdle? && s.calls == {}
  }

  /** A payload arrives at an idle Collector and is stored and evaluated. */
  lemma Arrive(cfg: Config, metric: MetricType, es: seq<Event>, at: Time) returns (more: seq<Event>)
    requires metric in cfg.thresholdRules
    requires var s := Run(cfg, INITIAL, es);
             Quiet(s) && s.request.Idle? && OldSamples(cfg, metric, s.world.db.samples, at)
    ensures var s := Run(cfg, INITIAL, es);
            Run(cfg, INITIAL, more) == s.(world := Ingestion.Stored(s.world, BadPayload(cfg, metric, at), at),
                                          request := Finding(NODE, at, [Verdict(cfg, metric)], []))
    ensures SafetyLimits.DeletesNoAction(es) ==> SafetyLimits.DeletesNoAction(more)
  {
    var s, p := Run(cfg, INITIAL, es), BadPayload(cfg, metric, at);
    OneVerdict(cfg, metric, s, at);
    Ingestion.StoreSteps(cfg, s, p, at);
    More(cfg, es, Receive(p, at));
    Ingestion.StepsRun(cfg, Step(cfg, s, Receive(p, at)), 3);
    more := es + [Receive(p, at)] + Ingestion.Proceeds(3);
    RunAppend(cfg, INITIAL, es + [Receive(p, at)], Ingestion.Proceeds(3));
  }

  lemma StoredSamples(w: World, p: Payload, at: Time)
    requires SamplesOk(w.db.samples, w.db.nextSample)
    ensures var w' := Ingestion.Stored(w, p, at);
            && w'.db.alerts == w.db.alerts && w'.db.actions == w.db.actions
            && w'.db.nextAlert == w.db.nextAlert && w'.db.nextAction == w.db.nextAction
            && forall id :: id in w'.db.samples ==>
                 (id in w.db.samples && w'.db.samples[id] == w.db.samples[id])
                   || w'.db.samples[id].collectedAt == p.collectedAt
  {
  }

  // ----- the alert opens -----

  /** Alert 0 is open for the rule, first fired at 0, and nobody has acknowledged it. */
  predicate Open(cfg: Config, metric: MetricType, alerts: Alerts) {
    && IsOpen(alerts, 0, NODE, Key(metric)) && alerts[0].id == 0
    && alerts[0].firstFiredAt == 0 && alerts[0].acknowledgedAt.None?
  }

  ghost predicate SamplesUpTo(samples: Samples, at: Time) {
    forall id :: id in samples ==> samples[id].collectedAt <= at
  }

  /** From the verdict to the Ack, when no alert is open. */
  lemma OpensAndAcks(cfg: Config, metric: MetricType, s: System)
    requires metric in cfg.thresholdRules && s.world.db.alerts == map[] && s.world.db.nextAlert == 0
    requires s.request == Finding(NODE, 0, [Verdict(cfg, metric)], [])
    ensures var opening := ProceedStep(cfg, s);
            var after := ProceedStep(cfg, opening);
            var d := DraftOf(NODE, Verdict(cfg, metric), 0);
            && opening.request == Opening(Context(cfg, metric, 0))
            && after == s.(world := OpenAlert(s.world, d), request := Finding(NODE, 0, [], []))
            && ProceedStep(cfg, after) == after.(request := Idle, out := s.out + [Acked(NODE, [])])
  {
    assert forall id :: !IsOpen(s.world.db.alerts, id, NODE, Key(metric));
    assert [Verdict(cfg, metric)][1..] == [];
  }

  lemma AlertOpens(cfg: Config, metric: MetricType) returns (es: seq<Event>)
    requires Remediates(cfg, metric)
    ensures var s := Run(cfg, INITIAL, es);
            && Quiet(s) && s.request.Idle? && s.out == [Acked(NODE, [])]
            && Open(cfg, metric, s.world.db.alerts)
            && s.world.db.alerts[0].escalatedAt.None? && s.world.db.alerts[0].remediatedAt.None?
            && s.world.db.actions == map[] && s.world.db.nextAction == 0 && SamplesUpTo(s.world.db.samples, 0)
    ensures SafetyLimits.DeletesNoAction(es)
  {
    var arrived := Arrive(cfg, metric, [], 0);
    StoredSamples(INITIAL.world, BadPayload(cfg, metric, 0), 0);
    OpensAndAcks(cfg, metric, Run(cfg, INITIAL, arrived));
    es := ThreeMore(cfg, arrived);
    RunInv(cfg, INITIAL, es);
  }

  lemma ThreeMore(cfg: Config, es: seq<Event>) returns (more: seq<Event>)
    ensures Run(cfg, INITIAL, more)
         == ProceedStep(cfg, ProceedStep(cfg, ProceedStep(cfg, Run(cfg, INITIAL, es))))
    ensures SafetyLimits.DeletesNoAction(es) ==> SafetyLimits.DeletesNoAction(more)
  {
    var once := es + [Proceed];
    var twice := once + [Proceed];
    more := twice + [Proceed];
    More(cfg, es, Proceed);
    More(cfg, once, Proceed);
    More(cfg, twice, Proceed);
  }

  /** A later breach has found the open alert. */
  lemma AlertFound(cfg: Config, metric: MetricType, es: seq<Event>, at: Time) returns (more: seq<Event>)
    requires metric in cfg.thresholdRules
    requires var s := Run(cfg, INITIAL, es);
             Quiet(s) && s.request.Idle? && OldSamples(cfg, metric, s.world.db.samples, at)
               && Open(cfg, metric, s.world.db.alerts)
    ensures var s, s' := Run(cfg, INITIAL, es), Run(cfg, INITIAL, more);
            && Quiet(s') && s'.request == Advancing(Context(cfg, metric, at), 0) && s'.out == s.out
            && s'.world.db.alerts == s.world.db.alerts && s'.world.db.actions == s.world.db.actions
            && s'.world.db.nextAction == s.world.db.nextAction && SamplesUpTo(s'.world.db.samples, at)
  {
    var s := Run(cfg, INITIAL, es);
    var a := Arrive(cfg, metric, es, at);
    StoredSamples(s.world, BadPayload(cfg, metric, at), at);
    More(cfg, a, Proceed);
    assert FindOpen(s.world.db.alerts, NODE, Key(metric)) == Some(0);
    more := a + [Proceed];
    RunInv(cfg, INITIAL, more);
  }

  /** Late enough for every delay, and after every rate window. */
  function Late(cfg: Config, metric: MetricType): Time {
    Positive(cfg.escalationAfter) + Positive(cfg.remediationAfter) + Positive(LooksBack(cfg, metric)) + 1
  }

  function Positive(x: int): nat {
    if x < 0 then 0 else x
  }

  // ----- and escalates, and is remediated -----

  /** The second breach has read the alert as one to escalate. */
  lemma AboutToEscalate(cfg: Config, metric: MetricType) returns (es: seq<Event>)
    requires Remediates(cfg, metric)
    ensures var s, c := Run(cfg, INITIAL, es), Context(cfg, metric, Late(cfg, metric));
            && Quiet(s) && Open(cfg, metric, s.world.db.alerts) && s.out != [] && Attempts(s.out, 0) == 0
            && s.request == Escalating(c, 0, s.world.db.alerts[0])
            && s.world.db.alerts[0].escalatedAt.None? && s.world.db.alerts[0].remediatedAt.None?
            && s.world.db.actions == map[] && s.world.db.nextAction == 0
            && SamplesUpTo(s.world.db.samples, Late(cfg, metric))
  {
    var first := AlertOpens(cfg, metric);
    var before := AlertFound(cfg, metric, first, Late(cfg, metric));
    es := before + [Proceed];
    More(cfg, before, Proceed);
    RunInv(cfg, INITIAL, es);
    var out := Run(cfg, INITIAL, first).out;
    assert out[..0] == [] && Attempts(out, 0) == 0;
    QuietAttempts(out, Run(cfg, INITIAL, es).out, 0);
  }

  /** It has escalated, and the verdict has read it as one to remediate. */
  lemma AboutToDecide(cfg: Config, metric: MetricType) returns (es: seq<Event>)
    requires Remediates(cfg, metric)
    ensures var s, c := Run(cfg, INITIAL, es), Context(cfg, metric, Late(cfg, metric));
            && Quiet(s) && Open(cfg, metric, s.world.db.alerts) && Attempts(s.out, 0) == 0
            && s.request == CheckingCooldown(c, 0, s.world.db.alerts[0], cfg.playbooks[Key(metric)])
            && s.world.db.alerts[0].escalatedAt.Some? && s.world.db.alerts[0].remediatedAt.None?
            && s.world.db.actions == map[] && s.world.db.nextAction == 0
            && SamplesUpTo(s.world.db.samples, Late(cfg, metric))
  {
    var before := AboutToEscalate(cfg, metric);
    es := before + [Proceed];
    More(cfg, before, Proceed);
    RunInv(cfg, INITIAL, es);
  }

  lemma CheckedClear(cfg: Config, s: System)
    requires s.request.CheckingCooldown?
    requires var q := s.request; SafetyReason(cfg, s.world.db.actions, q.c.node, q.playbook.name, q.c.at).None?
    ensures var q := s.request;
            ProceedStep(cfg, ProceedStep(cfg, s)) == s.(request := Recording(q.c, q.id, q.seen, q.playbook, None))
  {
  }

  /** From the first check to the mark, when no limit stands in the way. */
  lemma DecisionRecorded(cfg: Config, es: seq<Event>, c: Ctx, seen: Alert,
      playbook: Playbook) returns (more: seq<Event>)
    requires var s := Run(cfg, INITIAL, es);
             && Quiet(s) && s.request == CheckingCooldown(c, 0, seen, playbook)
             && SafetyReason(cfg, s.world.db.actions, c.node, playbook.name, c.at).None?
    ensures var s, s' := Run(cfg, INITIAL, es), Run(cfg, INITIAL, more);
            var row := NewAction(s.world.db.nextAction, c.node, 0, c.r.ruleKey, playbook, None, c.at);
            && es < more
            && Quiet(s') && s'.request == Marking(c, 0, row) && s'.world == s.world.(db := CreateAction(s.world.db,
              row))
            && Attempts(s'.out, 0) == Attempts(s.out, 0) + 1
  {
    var checked := es + [Proceed];
    var counted := checked + [Proceed];
    more := counted + [Proceed];
    CheckedClear(cfg, Run(cfg, INITIAL, es));
    More(cfg, es, Proceed);
    More(cfg, checked, Proceed);
    var s := Run(cfg, INITIAL, counted);
    RecordedOne(cfg, s);
    More(cfg, counted, Proceed);
    RunInv(cfg, INITIAL, more);
    assert more[..|es|] == es;
  }

  lemma RecordedOne(cfg: Config, s: System)
    requires s.request.Recording? && s.request.id in s.world.db.alerts
    ensures var q, s' := s.request, ProceedStep(cfg, s);
            var row := NewAction(s.world.db.nextAction, q.c.node, q.id, q.c.r.ruleKey, q.playbook, q.reason, q.c.at);
            && s'.request == Marking(q.c, q.id, row) && s'.world == s.world.(db := CreateAction(s.world.db, row))
            && s'.job == s.job && s'.calls == s.calls
            && Attempts(s'.out, q.id) == Attempts(s.out, q.id) + 1
  {
    assert ProceedStep(cfg, s).out[..|s.out|] == s.out;
  }

  lemma NothingRecent(cfg: Config, actions: Actions, node: NodeId, playbook: string, at: Time)
    requires cfg.Valid()
    requires forall id :: id in actions ==>
               actions[id].createdAt + cfg.cooldown <= at && actions[id].createdAt < at - HOUR
    ensures SafetyReason(cfg, actions, node, playbook, at).None?
  {
    assert RecentIds(actions, node, at - HOUR) == {};
  }

  /** The first decision is recorded, and the alert not yet marked. */
  lemma AboutToMark(cfg: Config, metric: MetricType) returns (es: seq<Event>)
    requires Remediates(cfg, metric)
    ensures var s := Run(cfg, INITIAL, es);
            && Quiet(s) && Open(cfg, metric, s.world.db.alerts) && Attempts(s.out, 0) == 1 && Marks(s.request, 0)
            && s.request.c == Context(cfg, metric, Late(cfg, metric)) && s.request.action.status == Dispatched
            && s.world.db.alerts[0].escalatedAt.Some? && s.world.db.alerts[0].remediatedAt.None?
            && s.world.db.actions == map[0 := s.request.action] && s.request.action.createdAt == Late(cfg, metric)
            && SamplesUpTo(s.world.db.samples, Late(cfg, metric))
  {
    var before := AboutToDecide(cfg, metric);
    var s := Run(cfg, INITIAL, before);
    NothingRecent(cfg, s.world.db.actions, NODE, s.request.playbook.name, s.request.c.at);
    es := DecisionRecorded(cfg, before, s.request.c, s.request.seen, s.request.playbook);
  }

  /** Action 0 awaits its result at an idle Collector. */
  lemma AwaitsResult(cfg: Config, metric: MetricType) returns (es: seq<Event>)
    requires Remediates(cfg, metric)
    ensures var s := Run(cfg, INITIAL, es);
            && Quiet(s) && s.request.Idle?
            && s.world.db.actions.Keys == {0} && s.world.db.actions[0].status == Dispatched
            && s.world.db.actions[0].createdAt == Late(cfg, metric)
  {
    var before := AboutToMark(cfg, metric);
    var marked := before + [Proceed];
    es := marked + [Proceed];
    More(cfg, before, Proceed);
    More(cfg, marked, Proceed);
    RunInv(cfg, INITIAL, es);
  }

  // ----- acknowledged too late for the verdict in flight -----

  /** The operator acknowledges alert 0, with the request wherever it is. */
  lemma Acknowledged(cfg: Config, es: seq<Event>, who: string, at: Time) returns (more: seq<Event>)
    requires var s := Run(cfg, INITIAL, es);
             Quiet(s) && 0 in s.world.db.alerts && s.world.db.alerts[0].status == Firing
    ensures var s, s' := Run(cfg, INITIAL, es), Run(cfg, INITIAL, more);
            && Quiet(s') && s'.request == s.request && Attempts(s'.out, 0) == Attempts(s.out, 0)
            && s'.world == s.world.(db := SetAlert(s.world.db, AcknowledgedRow(s.world.db.alerts[0], who, at)))
  {
    var c := Acknowledging(0, 0, who);
    var read := es + [CallReads(c)];
    more := read + [CallWrites(c, at)];
    More(cfg, es, CallReads(c));
    More(cfg, read, CallWrites(c, at));
    RunInv(cfg, INITIAL, more);
    QuietAttempts(Run(cfg, INITIAL, es).out, Run(cfg, INITIAL, more).out, 0);
  }

  /** An acknowledgement that commits between the verdict's read and its escalation does not stop the escalation. */
  lemma EscalatedAfterAcknowledgement(cfg: Config, metric: MetricType) returns (es: seq<Event>)
    requires Remediates(cfg, metric)
    ensures var s, s' := Run(cfg, INITIAL, es), Run(cfg, INITIAL, es + [Proceed]);
            && 0 in s.world.db.alerts && s.world.db.alerts[0].acknowledgedAt.Some?
              && s.world.db.alerts[0].escalatedAt.None?
            && 0 in s'.world.db.alerts && s'.world.db.alerts[0].escalatedAt.Some?
  {
    var before := AboutToEscalate(cfg, metric);
    es := Acknowledged(cfg, before, "operator", 0);
    More(cfg, es, Proceed);
  }

  /** One that commits between the read and the decision does not stop the dispatch. */
  lemma DispatchedAfterAcknowledgement(cfg: Config, metric: MetricType) returns (es: seq<Event>, more: seq<Event>)
    requires Remediates(cfg, metric)
    ensures var s, s' := Run(cfg, INITIAL, es), Run(cfg, INITIAL, more);
            && es < more
            && 0 in s.world.db.alerts && s.world.db.alerts[0].acknowledgedAt.Some? && s.world.db.actions == map[]
            && s'.world.db.actions.Keys == {0} && s'.world.db.actions[0].status == Dispatched
            && s'.world.db.actions[0].alertId == 0
  {
    var before := AboutToDecide(cfg, metric);
    es := Acknowledged(cfg, before, "operator", 0);
    var s := Run(cfg, INITIAL, es);
    NothingRecent(cfg, s.world.db.actions, NODE, s.request.playbook.name, s.request.c.at);
    more := DecisionRecorded(cfg, es, s.request.c, s.request.seen, s.request.playbook);
  }

  // ----- two attempts -----

  /** A breach of an alert that has escalated but carries no mark goes straight to the limits. */
  lemma StraightToCheck(cfg: Config, metric: MetricType, s: System, at: Time)
    requires Remediates(cfg, metric) && Open(cfg, metric, s.world.db.alerts)
    requires s.request == Advancing(Context(cfg, metric, at), 0) && cfg.remediationAfter <= at
    requires s.world.db.alerts[0].escalatedAt.Some? && s.world.db.alerts[0].remediatedAt.None?
    ensures var s' := ProceedStep(cfg, s);
            && s'.request.CheckingCooldown? && s'.request.c == Context(cfg, metric, at) && s'.request.id == 0
            && s'.request == CheckingCooldown(s'.request.c, 0, s'.request.seen, s'.request.playbook)
            && s'.world.db.actions == s.world.db.actions && s'.job == s.job && s'.calls == s.calls
            && Attempts(s'.out, 0) == Attempts(s.out, 0)
  {
    QuietAttempts(s.out, ProceedStep(cfg, s).out, 0);
  }

  /** A failure between the audit commit and the marking commit. */
  lemma MarkLost(cfg: Config, metric: MetricType) returns (es: seq<Event>)
    requires Remediates(cfg, metric)
    ensures var s := Run(cfg, INITIAL, es);
            && Quiet(s) && s.request.Idle? && Open(cfg, metric, s.world.db.alerts) && Attempts(s.out, 0) == 1
            && s.world.db.alerts[0].escalatedAt.Some? && s.world.db.alerts[0].remediatedAt.None?
            && (forall id :: id in s.world.db.actions ==> s.world.db.actions[id].createdAt == Late(cfg, metric))
            && SamplesUpTo(s.world.db.samples, Late(cfg, metric))
  {
    var marking := AboutToMark(cfg, metric);
    es := marking + [RequestFault];
    More(cfg, marking, RequestFault);
    RunInv(cfg, INITIAL, es);
    QuietAttempts(Run(cfg, INITIAL, marking).out, Run(cfg, INITIAL, es).out, 0);
  }

  /** A failure between the audit commit and the marking commit, and a third breach after the limits have passed:
      two attempts for one alert. */
  lemma TwoAttempts(cfg: Config, metric: MetricType) returns (es: seq<Event>)
    requires Remediates(cfg, metric)
    ensures Attempts(Run(cfg, INITIAL, es).out, 0) == 2
  {
    var failed := MarkLost(cfg, metric);
    var at := 2 * Late(cfg, metric) + cfg.cooldown + HOUR + 1;
    var found := AlertFound(cfg, metric, failed, at);
    var checking := found + [Proceed];
    More(cfg, found, Proceed);
    RunInv(cfg, INITIAL, checking);
    StraightToCheck(cfg, metric, Run(cfg, INITIAL, found), at);
    var s := Run(cfg, INITIAL, checking);
    NothingRecent(cfg, s.world.db.actions, NODE, s.request.playbook.name, at);
    es := DecisionRecorded(cfg, checking, s.request.c, s.request.seen, s.request.playbook);
  }

  // ----- results lost -----

  /** A moment at which action 0 is overdue. */
  function Overdue(cfg: Config, metric: MetricType): Time {
    Late(cfg, metric) + Positive(cfg.dispatchTimeout) + 1
  }

  /** Action 0 is overdue and nothing is under way. */
  ghost predicate OverdueAt(cfg: Config, s: System, now: Time) {
    && s.job.JobIdle? && s.calls == {}
    && s.world.db.actions.Keys == {0} && s.world.db.actions[0].status == Dispatched
    && s.world.db.actions[0].createdAt < now - cfg.dispatchTimeout
  }

  const DONE: Call := Reporting(0, 0, true, "done")

  lemma ListReportMark(cfg: Config, s: System, now: Time)
    requires OverdueAt(cfg, s, now)
    ensures var read := Step(cfg, Step(cfg, s, TimeOutBegin(now)), CallReads(DONE));
            var written := Step(cfg, read, CallWrites(DONE, now));
            var a, b := written.world.db.actions, Step(cfg, written, TimeOutMark(0)).world.db.actions;
            && 0 in a && a[0].status == Executed
            && 0 in b && b[0].status == Failed && b[0].reason == Some(TimedOut)
  {
    assert StaleDispatches(s.world.db.actions, now - cfg.dispatchTimeout) == {0};
  }

  lemma ReadMarkReport(cfg: Config, s: System, now: Time)
    requires OverdueAt(cfg, s, now)
    ensures var listed := Step(cfg, Step(cfg, s, CallReads(DONE)), TimeOutBegin(now));
            var marked := Step(cfg, listed, TimeOutMark(0));
            var a, b := marked.world.db.actions, Step(cfg, marked, CallWrites(DONE, now)).world.db.actions;
            && 0 in a && a[0].status == Failed && a[0].reason == Some(TimedOut)
            && 0 in b && b[0].status == Executed
  {
    assert StaleDispatches(s.world.db.actions, now - cfg.dispatchTimeout) == {0};
  }

  /** The report commits between the sweep's listing and its mark: EXECUTED, then FAILED. */
  lemma ResultLostToTimeOut(cfg: Config, metric: MetricType) returns (es: seq<Event>, more: seq<Event>)
    requires Remediates(cfg, metric)
    ensures var a, b := Run(cfg, INITIAL, es).world.db.actions, Run(cfg, INITIAL, es + more).world.db.actions;
            && 0 in a && a[0].status == Executed
            && 0 in b && b[0].status == Failed && b[0].reason == Some(TimedOut)
  {
    var waiting := AwaitsResult(cfg, metric);
    var now := Overdue(cfg, metric);
    var listed := waiting + [TimeOutBegin(now)];
    var read := listed + [CallReads(DONE)];
    es, more := read + [CallWrites(DONE, now)], [TimeOutMark(0)];
    ListReportMark(cfg, Run(cfg, INITIAL, waiting), now);
    More(cfg, waiting, TimeOutBegin(now));
    More(cfg, listed, CallReads(DONE));
    More(cfg, read, CallWrites(DONE, now));
    More(cfg, es, TimeOutMark(0));
  }

  /** The report has read the row before the sweep marks it, and writes after: FAILED, then EXECUTED. */
  lemma TimeOutLostToResult(cfg: Config, metric: MetricType) returns (es: seq<Event>, more: seq<Event>)
    requires Remediates(cfg, metric)
    ensures var a, b := Run(cfg, INITIAL, es).world.db.actions, Run(cfg, INITIAL, es + more).world.db.actions;
            && 0 in a && a[0].status == Failed && a[0].reason == Some(TimedOut)
            && 0 in b && b[0].status == Executed
  {
    var waiting := AwaitsResult(cfg, metric);
    var now := Overdue(cfg, metric);
    var read := waiting + [CallReads(DONE)];
    var listed := read + [TimeOutBegin(now)];
    es, more := listed + [TimeOutMark(0)], [CallWrites(DONE, now)];
    ReadMarkReport(cfg, Run(cfg, INITIAL, waiting), now);
    More(cfg, waiting, CallReads(DONE));
    More(cfg, read, TimeOutBegin(now));
    More(cfg, listed, TimeOutMark(0));
    More(cfg, es, CallWrites(DONE, now));
  }

  lemma ReadReadWriteWrite(cfg: Config, s: System, again: Call)
    requires s.calls == {} && 0 in s.world.db.actions && s.world.db.actions[0].status == Dispatched
    requires again == Reporting(1, 0, true, "done")
    ensures var read := Step(cfg, Step(cfg, s, CallReads(DONE)), CallReads(again));
            var written := Step(cfg, read, CallWrites(DONE, 1));
            var a, b := written.world.db.actions, Step(cfg, written, CallWrites(again, 2)).world.db.actions;
            && 0 in a && a[0].status == Executed && a[0].completedAt == Some(1)
            && 0 in b && b[0].status == Executed && b[0].completedAt == Some(2)
  {
  }

  /** Two retries of one report overlap: the row is settled twice, with no sweep at all. */
  lemma ResultWrittenTwice(cfg: Config, metric: MetricType) returns (es: seq<Event>, more: seq<Event>)
    requires Remediates(cfg, metric)
    ensures var a, b := Run(cfg, INITIAL, es).world.db.actions, Run(cfg, INITIAL, es + more).world.db.actions;
            && 0 in a && a[0].status == Executed && a[0].completedAt == Some(1)
            && 0 in b && b[0].status == Executed && b[0].completedAt == Some(2)
  {
    var waiting := AwaitsResult(cfg, metric);
    var again := Reporting(1, 0, true, "done");
    var read := waiting + [CallReads(DONE)];
    var both := read + [CallReads(again)];
    es, more := both + [CallWrites(DONE, 1)], [CallWrites(again, 2)];
    ReadReadWriteWrite(cfg, Run(cfg, INITIAL, waiting), again);
    More(cfg, waiting, CallReads(DONE));
    More(cfg, read, CallReads(again));
    More(cfg, both, CallWrites(DONE, 1));
    More(cfg, es, CallWrites(again, 2));
  }
}
