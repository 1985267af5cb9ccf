/** The services that run inside one request, proved against the functions that
    specify a verdict, an ingestion, an acknowledgement and a report. */
module Services {
  import opened Model
  import opened Tables
  import opened Rules
  import opened Alerting
  import opened Machine
  import opened Store
  import Ingestion

  /** The alert a verdict is about once it has been applied, if there is one. */
  ghost function Touched(before: Db, after: Db, node: NodeId, r: RuleResult): Option<Alert> {
    var id := FindOpen(before.alerts, node, r.ruleKey).GetOr(before.nextAlert);
    if id in after.alerts && (r.breached || id in before.alerts) then Some(after.alerts[id]) else None
  }

  /** The alerts the verdicts opened, advanced or resolved, as each verdict left them. */
  ghost function Transitions(cfg: Config, w: World, node: NodeId, results: seq<RuleResult>, at: Time): seq<Alert>
    requires DbOk(w.db)
  {
    if results == [] then
      []
    else
      var n := |results| - 1;
      var before := ApplyAll(cfg, w, node, results[..n], at).world;
      var touched := Touched(before.db, ApplyVerdict(cfg, before, node, results[n], at).world.db, node, results[n]);
      Transitions(cfg, w, node, results[..n], at) + (if touched.Some? then [touched.value] else [])
  }

  lemma ApplyNext(cfg: Config, w: World, node: NodeId, results: seq<RuleResult>, i: nat, at: Time)
    requires DbOk(w.db) && i < |results|
    ensures var before := ApplyAll(cfg, w, node, results[..i], at);
            var applied := ApplyVerdict(cfg, before.world, node, results[i], at);
            var touched := Touched(before.world.db, applied.world.db, node, results[i]);
            && ApplyAll(cfg, w, node, results[..i + 1], at)
               == Outcome(applied.world, Collect(before.dispatched, applied.dispatched))
            && Transitions(cfg, w, node, results[..i + 1], at)
               == Transitions(cfg, w, node, results[..i], at) + (if touched.Some? then [touched.value] else [])
  {
    assert results[..i + 1][..i] == results[..i];
  }

  /** Every alert that is new or different is among them as it is now, and they are all alerts there are. */
  ghost predicate Reports(before: Alerts, after: Alerts, transitions: seq<Alert>) {
    && (forall id :: id in after && (id !in before || after[id] != before[id]) ==> after[id] in transitions)
    && (forall i :: 0 <= i < |transitions| ==> transitions[i].id in after)
  }

  lemma VerdictTouchesOne(cfg: Config, w: World, node: NodeId, r: RuleResult, at: Time)
    requires DbOk(w.db)
    ensures var a, b := w.db.alerts, ApplyVerdict(cfg, w, node, r, at).world.db.alerts;
            var touched := Touched(w.db, ApplyVerdict(cfg, w, node, r, at).world.db, node, r);
            && a.Keys <= b.Keys
            && Reports(a, b, if touched.Some? then [touched.value] else [])
  {
    var found := FindOpen(w.db.alerts, node, r.ruleKey);
    if found.Some? && r.breached {
      AdvanceWritesOneRow(cfg, w, node, found.value, r, at);
    }
    ApplyVerdictOk(cfg, w, node, r, at);
  }

  /** What a verdict comes to: which alert it is about and, if that is new, what it says; who is told; and which
      action, if any, is decided and dispatched. */
  ghost predicate Settles(cfg: Config, w: World, w': World, node: NodeId, r: RuleResult, at: Time, row: Option<Alert>,
      dispatched: Option<Action>) {
    var a, b := w.db, w'.db;
    && (row.Some? <==> r.breached || exists id :: IsOpen(a.alerts, id, node, r.ruleKey))
    && (row.Some? ==> row.value.id in b.alerts && b.alerts[row.value.id] == row.value
                      && (IsOpen(a.alerts, row.value.id, node, r.ruleKey) || row.value.id == a.nextAlert))
    && (r.breached && (forall id :: !IsOpen(a.alerts, id, node, r.ruleKey)) ==>
          row.Some? && OpenedBy(row.value, a.nextAlert, node, r, at))
    && Announces(w, w')
    && NewCommands(cfg, a, b, node, at)
    && ListsDispatches(match dispatched case Some(action) => [action] case None => [], b.actions, a.nextAction,
         b.nextAction)
  }

  lemma VerdictSettles(cfg: Config, w: World, node: NodeId, r: RuleResult, at: Time)
    requires DbOk(w.db)
    ensures var applied := ApplyVerdict(cfg, w, node, r, at);
            Settles(cfg, w, applied.world, node, r, at, Touched(w.db, applied.world.db, node, r), applied.dispatched)
  {
    TouchedMeans(cfg, w, node, r, at);
    VerdictAnnounces(cfg, w, node, r, at);
    VerdictDispatches(cfg, w, node, r, at);
    VerdictCommands(cfg, w, node, r, at);
  }

  /** Which alert a verdict is about, and what it is when it is new. */
  lemma TouchedMeans(cfg: Config, w: World, node: NodeId, r: RuleResult, at: Time)
    requires DbOk(w.db)
    ensures var alerts, after := w.db.alerts, ApplyVerdict(cfg, w, node, r, at).world.db;
            var row := Touched(w.db, after, node, r);
            && (row.Some? <==> r.breached || exists id :: IsOpen(alerts, id, node, r.ruleKey))
            && (row.Some? ==> row.value.id in after.alerts && after.alerts[row.value.id] == row.value
                              && (IsOpen(alerts, row.value.id, node, r.ruleKey) || row.value.id == w.db.nextAlert))
            && (r.breached && (forall id :: !IsOpen(alerts, id, node, r.ruleKey)) ==>
                  row.Some? && OpenedBy(row.value, w.db.nextAlert, node, r, at))
  {
    var found := FindOpen(w.db.alerts, node, r.ruleKey);
    if found.Some? && r.breached {
      AdvanceWritesOneRow(cfg, w, node, found.value, r, at);
    }
  }

  lemma ReportsMore(a: Alerts, b: Alerts, c: Alerts, first: seq<Alert>, last: seq<Alert>)
    requires Reports(a, b, first) && Reports(b, c, last) && a.Keys <= b.Keys <= c.Keys
    ensures Reports(a, c, first + last)
  {
  }

  /** What the verdicts come to in the alert table is what they report. */
  lemma {:induction false} TransitionsReport(cfg: Config, w: World, node: NodeId, results: seq<RuleResult>, at: Time)
    requires DbOk(w.db)
    ensures var after := ApplyAll(cfg, w, node, results, at).world.db.alerts;
            w.db.alerts.Keys <= after.Keys && Reports(w.db.alerts, after, Transitions(cfg, w, node, results, at))
  {
    if results != [] {
      var n := |results| - 1;
      var before := ApplyAll(cfg, w, node, results[..n], at).world;
      var applied := ApplyVerdict(cfg, before, node, results[n], at);
      var touched := Touched(before.db, applied.world.db, node, results[n]);
      TransitionsReport(cfg, w, node, results[..n], at);
      VerdictTouchesOne(cfg, before, node, results[n], at);
      ReportsMore(w.db.alerts, before.db.alerts, applied.world.db.alerts, Transitions(cfg, w, node, results[..n], at),
        if touched.Some? then [touched.value] else []);
    }
  }

  /** The tables are those of before but for alerts, and for decisions about the node as its playbooks have it. */
  ghost predicate Concerns(cfg: Config, a: Db, b: Db, node: NodeId, at: Time) {
    b.nodes == a.nodes && b.samples == a.samples && NewCommands(cfg, a, b, node, at)
  }

  /** Every alert that has changed is reported, and so is, in order, every action added that is dispatched. */
  ghost predicate Accounts(a: Db, b: Db, transitions: seq<Alert>, dispatched: seq<Action>) {
    && Reports(a.alerts, b.alerts, transitions)
    && ListsDispatches(dispatched, b.actions, a.nextAction, b.nextAction)
  }

  lemma AllSettle(cfg: Config, w: World, node: NodeId, results: seq<RuleResult>, at: Time)
    requires DbOk(w.db)
    ensures var o := ApplyAll(cfg, w, node, results, at);
            && Concerns(cfg, w.db, o.world.db, node, at)
            && Accounts(w.db, o.world.db, Transitions(cfg, w, node, results, at), o.dispatched)
  {
    AllCommands(cfg, w, node, results, at);
    Ingestion.ApplyAllKeepsSamples(cfg, w, node, results, at);
    AllDispatches(cfg, w, node, results, at);
    TransitionsReport(cfg, w, node, results, at);
  }

  datatype EvaluationOutcome = EvaluationOutcome(transitions: seq<Alert>, dispatched: seq<Action>)

  datatype Raised = EvaluationRaised

  class RemediationEngine {
    const cfg: Config
    const db: Database
    const actions: RemediationActionRepository

    constructor (cfg: Config, db: Database)
      ensures this.cfg == cfg && this.db == db && actions.db == db && fresh(actions)
    {
      this.cfg := cfg;
      this.db := db;
      actions := new RemediationActionRepository(db);
    }

    method CheckSafetyLimits(node: NodeId, playbook: Playbook, now: Time) returns (reason: Option<Reason>)
      requires actions.db == db
      ensures reason == SafetyReason(cfg, db.actions, node, playbook.name, now)
      ensures reason.None? <==> CooledDown(cfg, db.actions, node, playbook.name, now)
                                && LastHour(db.actions, node, now) < cfg.maxPerHour
      ensures reason.Some? ==> Applies(cfg, db.actions, node, playbook.name, now, reason.value)
    {
      SafetyReasonMeans(cfg, db.actions, node, playbook.name, now);
      var last := actions.FindLastAction(node, playbook.name);
      if last.Some? {
        assert LastCreated(db.actions, node, playbook.name) == Some(last.value.createdAt);
        var elapsed := now - last.value.createdAt;
        if elapsed < cfg.cooldown {
          return Some(CooldownActive(elapsed, cfg.cooldown));
        }
      }
      var recent := CountRecent(db.actions, node, now - HOUR);
      if cfg.maxPerHour <= recent {
        return Some(RateLimitReached(recent, cfg.maxPerHour));
      }
      return None;
    }

    /** Nothing is recorded when remediation is off or no playbook is mapped. */
    method Decide(node: NodeId, alertId: nat, key: string, now: Time) returns (r: Option<Action>)
      requires actions.db == db && alertId in db.alerts
      modifies db
      ensures !Mapped(cfg, key) ==> r.None? && db.View() == old(db.View())
      ensures Mapped(cfg, key) ==>
                && r == Some(DecisionFor(cfg, old(db.View()), node, alertId, key, now))
                && db.View() == CreateAction(old(db.View()), r.value)
      ensures r.Some? <==> cfg.remediationEnabled && key in cfg.playbooks
      ensures r.Some? ==>
                && r.value.id == old(db.nextAction) && DecisionOn(r.value, node, alertId, key, now)
                && Commands(r.value, cfg.playbooks[key])
                && r.value.status == (if r.value.reason.None? then Dispatched else Blocked)
                && (r.value.status == Dispatched <==>
                      CooledDown(cfg, old(db.actions), node, cfg.playbooks[key].name, now)
                      && LastHour(old(db.actions), node, now) < cfg.maxPerHour)
    {
      if !cfg.remediationEnabled {
        return None;
      }
      if key !in cfg.playbooks {
        return None;
      }
      var playbook := cfg.playbooks[key];
      var reason := CheckSafetyLimits(node, playbook, now);
      var row := actions.CreateAction(node, alertId, key, playbook, reason, now);
      return Some(row.value);
    }
  }

  class AlertEvaluationService {
    const cfg: Config
    const db: Database
    const notifier: Notifier
    const alerts: AlertRepository
    const engine: RemediationEngine
    const rules: RuleEngine

    constructor (cfg: Config, db: Database, notifier: Notifier)
      ensures this.cfg == cfg && this.db == db && this.notifier == notifier && Wired()
    {
      this.cfg := cfg;
      this.db := db;
      this.notifier := notifier;
      alerts := new AlertRepository(db);
      engine := new RemediationEngine(cfg, db);
      rules := new RuleEngine(cfg);
    }

    ghost predicate Wired() {
      alerts.db == db && engine.db == db && engine.actions.db == db && engine.cfg == cfg && rules.cfg == cfg
    }

    function View(): World
      reads db, notifier
    {
      World(db.View(), notifier.sent)
    }

    method Open(node: NodeId, r: RuleResult, at: Time) returns (row: Alert)
      requires Wired()
      modifies db, notifier
      ensures View() == OpenAlert(old(View()), DraftOf(node, r, at))
      ensures row == NewAlert(old(db.nextAlert), DraftOf(node, r, at))
    {
      row := alerts.CreateAlert(DraftOf(node, r, at));
      notifier.Notify(NotifyOpened(row));
    }

    method Escalate(row: Alert, at: Time) returns (escalated: Alert)
      requires Wired() && row.id in db.alerts && db.alerts[row.id] == row
      modifies db, notifier
      ensures View() == Alerting.MaybeEscalate(cfg, old(View()), row.id, at)
      ensures escalated == db.alerts[row.id]
    {
      if !ShouldEscalate(cfg, row, at) {
        return row;
      }
      var updated := alerts.EscalateAlert(row.id, at);
      notifier.Notify(NotifyEscalated(updated.value));
      return updated.value;
    }

    method Remediate(node: NodeId, r: RuleResult, row: Alert, at: Time)
      returns (updated: Alert, dispatched: Option<Action>)
      requires Wired() && row.id in db.alerts && db.alerts[row.id] == row
      modifies db, notifier
      ensures var applied := Alerting.MaybeRemediate(cfg, old(View()), node, row.id, r.ruleKey, at);
              View() == applied.world && dispatched == applied.dispatched
      ensures row.id in db.alerts && updated == db.alerts[row.id]
    {
      if !ShouldRemediate(cfg, row, at) {
        return row, None;
      }
      var decision := engine.Decide(node, row.id, r.ruleKey, at);
      if decision.None? {
        return row, None;
      }
      var marked := alerts.MarkRemediated(row.id, at);
      updated := marked.value;
      dispatched := if decision.value.status == Dispatched then Some(decision.value) else None;
    }

    method OpenOrAdvance(node: NodeId, r: RuleResult, at: Time, open: Option<Alert>)
      returns (row: Alert, dispatched: Option<Action>)
      requires Wired() && DbOk(db.View())
      requires open.Some? ==> open.value.id in db.alerts && db.alerts[open.value.id] == open.value
      modifies db, notifier
      ensures var w := old(View());
              var applied := if open.None? then Applied(OpenAlert(w, DraftOf(node, r, at)), None)
                             else AdvanceVerdict(cfg, w, node, open.value.id, r, at);
              View() == applied.world && dispatched == applied.dispatched
      ensures var id := if open.None? then old(db.nextAlert) else open.value.id;
              id in db.alerts && row == db.alerts[id]
    {
      if open.None? {
        row := Open(node, r, at);
        return row, None;
      }
      var advanced := alerts.UpdateLastFired(open.value.id, r.value, at);
      var escalated := Escalate(advanced.value, at);
      row, dispatched := Remediate(node, r, escalated, at);
    }

    method Apply(node: NodeId, r: RuleResult, at: Time) returns (row: Option<Alert>, dispatched: Option<Action>)
      requires Wired() && DbOk(db.View())
      modifies db, notifier
      ensures var applied := ApplyVerdict(cfg, old(View()), node, r, at);
              View() == applied.world && dispatched == applied.dispatched
      ensures row == Touched(old(db.View()), db.View(), node, r)
    {
      var open := alerts.FindOpenAlert(node, r.ruleKey);
      assert open.Some? ==> FindOpen(db.alerts, node, r.ruleKey) == Some(open.value.id);
      if r.breached {
        var alert, action := OpenOrAdvance(node, r, at, open);
        return Some(alert), action;
      }
      if open.Some? {
        var resolved := alerts.ResolveAlert(open.value.id, at);
        notifier.Notify(NotifyResolved(resolved.value));
        return Some(resolved.value), None;
      }
      return None, None;
    }

    /** The loop over the verdicts.  `fault` says which, if any, raises before its first write; those before it have
        been applied. */
    method ApplyInOrder(node: NodeId, results: seq<RuleResult>, at: Time, fault: Option<nat>)
      returns (r: Result<EvaluationOutcome, Raised>)
      requires Wired() && DbOk(db.View())
      modifies db, notifier
      ensures if fault.Some? && fault.value < |results| then
                && r == Err(EvaluationRaised)
                && View() == ApplyAll(cfg, old(View()), node, results[..fault.value], at).world
              else
                var o := ApplyAll(cfg, old(View()), node, results, at);
                && View() == o.world
                && r == Ok(EvaluationOutcome(Transitions(cfg, old(View()), node, results, at), o.dispatched))
      ensures DbOk(db.View())
    {
      ghost var w := View();
      var transitions, dispatched := [], [];
      for i := 0 to |results|
        invariant DbOk(db.View())
        invariant fault.Some? ==> i <= fault.value || |results| <= fault.value
        invariant Outcome(View(), dispatched) == ApplyAll(cfg, w, node, results[..i], at)
        invariant transitions == Transitions(cfg, w, node, results[..i], at)
      {
        if fault == Some(i) {
          return Err(EvaluationRaised);
        }
        ApplyNext(cfg, w, node, results, i, at);
        var row, action := Apply(node, results[i], at);
        if row.Some? {
          transitions := transitions + [row.value];
        }
        if action.Some? {
          dispatched := dispatched + [action.value];
        }
      }
      assert results[..|results|] == results;
      return Ok(EvaluationOutcome(transitions, dispatched));
    }

    /** The verdicts of the payload, applied in order. */
    method EvaluateAndApply(node: NodeId, samples: seq<Reading>, at: Time, fault: Option<nat>)
      returns (r: Result<EvaluationOutcome, Raised>)
      requires Wired() && DbOk(db.View())
      modifies db, notifier
      ensures var results := Evaluate(cfg, old(db.samples), node, samples, at);
              if fault.Some? && fault.value < |results| then
                && r == Err(EvaluationRaised)
                && View() == ApplyAll(cfg, old(View()), node, results[..fault.value], at).world
              else
                var o := ApplyAll(cfg, old(View()), node, results, at);
                && View() == o.world
                && r == Ok(EvaluationOutcome(Transitions(cfg, old(View()), node, results, at), o.dispatched))
      ensures DbOk(db.View()) && Concerns(cfg, old(db.View()), db.View(), node, at)
      ensures r.Ok? ==> Accounts(old(db.View()), db.View(), r.value.transitions, r.value.dispatched)
    {
      ghost var w := View();
      var results := rules.EvaluateReadings(db.samples, node, samples, at);
      r := ApplyInOrder(node, results, at, fault);
      AllSettle(cfg, w, node, if r.Ok? then results else results[..fault.value], at);
    }

    /** The first call of an acknowledgement: its read, which lets it through exactly if the alert is firing. */
    method CheckFiring(id: nat) returns (refusal: Option<Refusal>)
      ensures forall token, who :: refusal == WhyRefused(db.View(), Acknowledging(token, id, who))
    {
      if id !in db.alerts {
        return Some(NotFound);
      }
      if db.alerts[id].status == Resolved {
        return Some(AlreadyResolved);
      }
      return None;
    }

    /** The second: its write, whatever has become of the alert since. */
    method WriteAcknowledgement(id: nat, who: string, at: Time) returns (r: Option<Alert>)
      requires Wired() && forall i :: i in db.alerts ==> db.alerts[i].id == i
      modifies db
      ensures r.Some? <==> id in old(db.alerts)
      ensures r.None? ==> db.View() == old(db.View())
      ensures forall token :: r.Some? ==>
                var c := Acknowledging(token, id, who);
                db.View() == Written(old(db.View()), c, at) && Confirmation(db.View(), c) == AcknowledgeDone(r.value)
    {
      var updated := alerts.AcknowledgeAlert(id, who, at);
      if updated.Err? {
        return None;
      }
      return Some(updated.value);
    }

    /** Both in a row, with nothing in between: a firing alert records who and when, again and again if asked; any
        other is refused; nothing else changes. */
    method Acknowledge(id: nat, who: string, at: Time) returns (r: Result<Alert, Refusal>)
      requires Wired() && forall i :: i in db.alerts ==> db.alerts[i].id == i
      modifies db
      ensures id !in old(db.alerts) ==> r == Err(NotFound)
      ensures id in old(db.alerts) && old(db.alerts)[id].status == Resolved ==> r == Err(AlreadyResolved)
      ensures r.Err? ==> db.View() == old(db.View())
      ensures id in old(db.alerts) && old(db.alerts)[id].status == Firing ==>
                && r == Ok(old(db.alerts)[id].(acknowledgedBy := Some(who), acknowledgedAt := Some(at)))
                && db.View() == old(db.View()).(alerts := old(db.alerts)[id := r.value])
    {
      ghost var c := Acknowledging(0, id, who);
      var refusal := CheckFiring(id);
      assert refusal == WhyRefused(db.View(), c);
      if refusal.Some? {
        return Err(refusal.value);
      }
      var updated := WriteAcknowledgement(id, who, at);
      assert Confirmation(db.View(), c) == AcknowledgeDone(updated.value);
      return Ok(updated.value);
    }
  }

  class MetricsIngestionService {
    const evaluation: AlertEvaluationService
    const nodes: NodeRepository
    const metrics: MetricsRepository

    constructor (evaluation: AlertEvaluationService)
      requires evaluation.Wired()
      ensures this.evaluation == evaluation && Wired()
    {
      this.evaluation := evaluation;
      nodes := new NodeRepository(evaluation.db);
      metrics := new MetricsRepository(evaluation.db);
    }

    ghost predicate Wired() {
      evaluation.Wired() && nodes.db == evaluation.db && metrics.db == evaluation.db
    }

    /** The node is seen, and its samples are stored. */
    method Persist(p: Payload, receivedAt: Time)
      requires Wired()
      modifies evaluation.db
      ensures evaluation.View() == Ingestion.Stored(old(evaluation.View()), p, receivedAt)
      ensures p.nodeId in evaluation.db.nodes && evaluation.db.nodes[p.nodeId].lastSeenAt == p.collectedAt
      ensures forall i: nat :: i < |p.samples| ==>
                StoredAs(evaluation.db.samples, old(evaluation.db.nextSample), p, i, receivedAt)
    {
      nodes.UpsertSeen(p.nodeId, p.collectedAt);
      metrics.BulkInsert(p, receivedAt);
    }

    /** Store, evaluate, acknowledge: the Ack carries exactly the actions dispatched, or none if evaluation raised,
        in which case what was stored and applied before stays. */
    method IngestPayload(p: Payload, receivedAt: Time, fault: Option<nat>) returns (pending: seq<Action>)
      requires Wired() && DbOk(evaluation.db.View())
      modifies evaluation.db, evaluation.notifier
      ensures var cfg, w := evaluation.cfg, old(evaluation.View());
              var results := Ingestion.Verdicts(cfg, w, p, receivedAt);
              if fault.Some? && fault.value < |results| then
                var stored := Ingestion.Stored(w, p, receivedAt);
                && pending == []
                && evaluation.View() == ApplyAll(cfg, stored, p.nodeId, results[..fault.value], p.collectedAt).world
              else
                var o := Ingestion.Ingest(cfg, w, p, receivedAt);
                evaluation.View() == o.world && pending == o.dispatched
      ensures DbOk(evaluation.db.View())
      ensures var results := Ingestion.Verdicts(evaluation.cfg, old(evaluation.View()), p, receivedAt);
              if fault.Some? && fault.value < |results| then pending == []
              else ListsDispatches(pending, evaluation.db.actions, old(evaluation.db.nextAction),
                     evaluation.db.nextAction)
      ensures NewCommands(evaluation.cfg, old(evaluation.db.View()), evaluation.db.View(), p.nodeId, p.collectedAt)
      ensures p.nodeId in evaluation.db.nodes && evaluation.db.nodes[p.nodeId].lastSeenAt == p.collectedAt
      ensures forall i: nat :: i < |p.samples| ==>
                StoredAs(evaluation.db.samples, old(evaluation.db.nextSample), p, i, receivedAt)
    {
      Persist(p, receivedAt);
      var outcome := evaluation.EvaluateAndApply(p.nodeId, p.samples, p.collectedAt, fault);
      match outcome {
        case Ok(o) => pending := o.dispatched;
        case Err(_) => pending := [];
      }
    }
  }

  class RemediationActionService {
    const db: Database
    const actions: RemediationActionRepository

    constructor (db: Database)
      ensures this.db == db && actions.db == db
    {
      this.db := db;
      actions := new RemediationActionRepository(db);
    }

    /** The first call of a report: its read, which lets it through exactly if the action awaits a result. */
    method CheckDispatched(id: nat) returns (refusal: Option<Refusal>)
      ensures forall token, executed, text :: refusal == WhyRefused(db.View(), Reporting(token, id, executed, text))
    {
      if id !in db.actions {
        return Some(NotFound);
      }
      if db.actions[id].status != Dispatched {
        return Some(NotDispatched);
      }
      return None;
    }

    /** The second: its write, whatever the row says by then. */
    method WriteResult(id: nat, executed: bool, text: string, at: Time) returns (r: Option<Action>)
      requires actions.db == db
      modifies db
      ensures r.Some? <==> id in old(db.actions)
      ensures r.None? ==> db.View() == old(db.View())
      ensures forall token :: r.Some? ==>
                var c := Reporting(token, id, executed, text);
                db.View() == Written(old(db.View()), c, at) && Confirmation(db.View(), c) == ReportDone(r.value)
    {
      var marked := actions.MarkResult(id, ResultStatus(executed), Some(Message(text)), at);
      if marked.Err? {
        return None;
      }
      return Some(marked.value);
    }

    /** Both in a row, with nothing in between: a result is taken once, for an action that awaits it; any other
        report is refused and changes nothing. */
    method ReportResult(id: nat, executed: bool, text: string, at: Time) returns (r: Result<Action, Refusal>)
      requires actions.db == db
      modifies db
      ensures id !in old(db.actions) ==> r == Err(NotFound)
      ensures id in old(db.actions) && old(db.actions)[id].status != Dispatched ==> r == Err(NotDispatched)
      ensures r.Err? ==> db.View() == old(db.View())
      ensures id in old(db.actions) && old(db.actions)[id].status == Dispatched ==>
                && r == Ok(old(db.actions)[id].(status := if executed then Executed else Failed,
                                                reason := Some(Message(text)), completedAt := Some(at)))
                && db.View() == old(db.View()).(actions := old(db.actions)[id := r.value])
    {
      ghost var c := Reporting(0, id, executed, text);
      var refusal := CheckDispatched(id);
      assert refusal == WhyRefused(db.View(), c);
      if refusal.Some? {
        return Err(refusal.value);
      }
      var marked := WriteResult(id, executed, text, at);
      assert Confirmation(db.View(), c) == ReportDone(marked.value);
      return Ok(marked.value);
    }
  }
}
