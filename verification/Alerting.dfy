/** What one rule verdict does to the alert and audit tables, as functions on
    the state the Collector keeps: the database and the notifications sent. */
module Alerting {
  import opened Model
  import opened Tables
  import opened Rules

  datatype Notice = NotifyOpened(row: Alert) | NotifyEscalated(row: Alert) | NotifyResolved(row: Alert)

  datatype World = World(db: Db, notices: seq<Notice>)

  // ----- decisions -----

  predicate ShouldEscalate(cfg: Config, row: Alert, now: Time) {
    row.acknowledgedAt.None? && row.escalatedAt.None? && cfg.escalationAfter <= now - row.firstFiredAt
  }

  predicate ShouldRemediate(cfg: Config, row: Alert, now: Time) {
    row.acknowledgedAt.None? && row.remediatedAt.None? && cfg.remediationAfter <= now - row.firstFiredAt
  }

  /** Remediation is enabled and a playbook is mapped to the key. */
  predicate Mapped(cfg: Config, key: string) {
    cfg.remediationEnabled && key in cfg.playbooks
  }

  /** The action says what the playbook says. */
  predicate Commands(row: Action, playbook: Playbook) {
    row.playbookName == playbook.name && row.actionType == playbook.actionType && row.parameters == playbook.parameters
  }

  function CooldownReason(cfg: Config, last: Option<Time>, now: Time): Option<Reason> {
    if last.Some? && now - last.value < cfg.cooldown
    then Some(CooldownActive(now - last.value, cfg.cooldown))
    else None
  }

  function RateReason(cfg: Config, recent: nat): Option<Reason> {
    if cfg.maxPerHour <= recent then Some(RateLimitReached(recent, cfg.maxPerHour)) else None
  }

  /** Why the safety limits block a playbook now, if they do. */
  ghost function SafetyReason(cfg: Config, actions: Actions, node: NodeId, playbook: string,
      now: Time): Option<Reason> {
    match CooldownReason(cfg, LastCreated(actions, node, playbook), now)
    case Some(reason) => Some(reason)
    case None => RateReason(cfg, CountRecent(actions, node, now - HOUR))
  }

  /** The cooldown of the playbook on the node is over, counted from every action of it there. */
  ghost predicate CooledDown(cfg: Config, actions: Actions, node: NodeId, playbook: string, now: Time) {
    forall id :: id in actions && actions[id].nodeId == node && actions[id].playbookName == playbook ==>
      actions[id].createdAt + cfg.cooldown <= now
  }

  /** How many actions the node has had in the last hour, both ends included. */
  function LastHour(actions: Actions, node: NodeId, now: Time): nat {
    |set id | id in actions && actions[id].nodeId == node && now - HOUR <= actions[id].createdAt|
  }

  /** The reason given is the reason there is. */
  ghost predicate Applies(cfg: Config, actions: Actions, node: NodeId, playbook: string, now: Time, reason: Reason) {
    match reason
    case CooldownActive(elapsed, cooldown) =>
      && elapsed < cooldown == cfg.cooldown
      && (exists id :: id in actions && actions[id].nodeId == node && actions[id].playbookName == playbook
                       && actions[id].createdAt == now - elapsed)
      && (forall id :: id in actions && actions[id].nodeId == node && actions[id].playbookName == playbook ==>
            actions[id].createdAt <= now - elapsed)
    case RateLimitReached(count, max) =>
      CooledDown(cfg, actions, node, playbook, now) && count == LastHour(actions, node, now) >= max == cfg.maxPerHour
    case _ => false
  }

  /** A playbook is blocked exactly if its cooldown is running or the hour is full, for the reason that holds. */
  lemma SafetyReasonMeans(cfg: Config, actions: Actions, node: NodeId, playbook: string, now: Time)
    ensures var reason := SafetyReason(cfg, actions, node, playbook, now);
            && (reason.None? <==> CooledDown(cfg, actions, node, playbook, now)
                                  && LastHour(actions, node, now) < cfg.maxPerHour)
            && (reason.Some? ==> Applies(cfg, actions, node, playbook, now, reason.value))
  {
    var ids := PlaybookIds(actions, node, playbook);
    assert forall id :: id in ids <==>
      (id in actions && actions[id].nodeId == node && actions[id].playbookName == playbook);
    assert RecentIds(actions, node, now - HOUR)
      == set id | id in actions && actions[id].nodeId == node && now - HOUR <= actions[id].createdAt;
  }

  // ----- single commits -----

  function DraftOf(node: NodeId, r: RuleResult, at: Time): AlertDraft {
    AlertDraft(node, r.ruleKey, r.ruleKind, r.severity, r.description, r.value, r.bound, at)
  }

  function OpenAlert(w: World, d: AlertDraft): World {
    World(CreateAlert(w.db, d), w.notices + [NotifyOpened(NewAlert(w.db.nextAlert, d))])
  }

  function AdvancedRow(row: Alert, value: real, at: Time): Alert {
    row.(triggeringValue := value, lastFiredAt := at)
  }

  function EscalatedRow(row: Alert, at: Time): Alert {
    row.(escalatedAt := Some(at))
  }

  function RemediatedRow(row: Alert, at: Time): Alert {
    row.(remediatedAt := Some(at))
  }

  function ResolvedRow(row: Alert, at: Time): Alert {
    row.(status := Resolved, resolvedAt := Some(at))
  }

  function AcknowledgedRow(row: Alert, who: string, at: Time): Alert {
    row.(acknowledgedBy := Some(who), acknowledgedAt := Some(at))
  }

  function AdvanceAlert(w: World, id: nat, value: real, at: Time): World
    requires id in w.db.alerts
  {
    w.(db := SetAlert(w.db, AdvancedRow(w.db.alerts[id], value, at)))
  }

  function EscalateAlert(w: World, id: nat, at: Time): World
    requires id in w.db.alerts
  {
    var row := EscalatedRow(w.db.alerts[id], at);
    World(SetAlert(w.db, row), w.notices + [NotifyEscalated(row)])
  }

  function ResolveAlert(w: World, id: nat, at: Time): World
    requires id in w.db.alerts
  {
    var row := ResolvedRow(w.db.alerts[id], at);
    World(SetAlert(w.db, row), w.notices + [NotifyResolved(row)])
  }

  function MarkRemediated(w: World, id: nat, at: Time): World
    requires id in w.db.alerts
  {
    w.(db := SetAlert(w.db, RemediatedRow(w.db.alerts[id], at)))
  }

  // ----- one verdict, start to finish -----

  datatype Applied = Applied(world: World, dispatched: Option<Action>)

  function OnlyDispatched(row: Action): Option<Action> {
    if row.status == Dispatched then Some(row) else None
  }

  ghost function MaybeEscalate(cfg: Config, w: World, id: nat, at: Time): (w': World)
    requires id in w.db.alerts && w.db.alerts[id].id == id
    ensures id in w'.db.alerts && w'.db.alerts[id].id == id
  {
    if ShouldEscalate(cfg, w.db.alerts[id], at) then EscalateAlert(w, id, at) else w
  }

  ghost function DecisionFor(cfg: Config, db: Db, node: NodeId, id: nat, key: string, at: Time): Action
    requires key in cfg.playbooks
  {
    var playbook := cfg.playbooks[key];
    NewAction(db.nextAction, node, id, key, playbook, SafetyReason(cfg, db.actions, node, playbook.name, at), at)
  }

  ghost function MaybeRemediate(cfg: Config, w: World, node: NodeId, id: nat, key: string, at: Time): Applied
    requires id in w.db.alerts
  {
    if ShouldRemediate(cfg, w.db.alerts[id], at) && Mapped(cfg, key) then
      var row := DecisionFor(cfg, w.db, node, id, key, at);
      Applied(MarkRemediated(w.(db := CreateAction(w.db, row)), id, at), OnlyDispatched(row))
    else
      Applied(w, None)
  }

  ghost function AdvanceVerdict(cfg: Config, w: World, node: NodeId, id: nat, r: RuleResult, at: Time): Applied
    requires id in w.db.alerts && w.db.alerts[id].id == id
  {
    MaybeRemediate(cfg, MaybeEscalate(cfg, AdvanceAlert(w, id, r.value, at), id, at), node, id, r.ruleKey, at)
  }

  /** The row a verdict leaves that finds its alert open: advanced, escalated if due, marked if an attempt is due. */
  function AdvancedWhole(cfg: Config, row: Alert, key: string, value: real, at: Time): Alert {
    var advanced := AdvancedRow(row, value, at);
    var escalated := if ShouldEscalate(cfg, advanced, at) then EscalatedRow(advanced, at) else advanced;
    if ShouldRemediate(cfg, escalated, at) && Mapped(cfg, key) then RemediatedRow(escalated, at) else escalated
  }

  lemma AdvanceWritesOneRow(cfg: Config, w: World, node: NodeId, id: nat, r: RuleResult, at: Time)
    requires id in w.db.alerts && w.db.alerts[id].id == id
    ensures AdvanceVerdict(cfg, w, node, id, r, at).world.db.alerts
         == w.db.alerts[id := AdvancedWhole(cfg, w.db.alerts[id], r.ruleKey, r.value, at)]
  {
  }

  ghost function ApplyVerdict(cfg: Config, w: World, node: NodeId, r: RuleResult, at: Time): Applied
    requires DbOk(w.db)
  {
    match FindOpen(w.db.alerts, node, r.ruleKey)
    case None =>
      Applied(if r.breached then OpenAlert(w, DraftOf(node, r, at)) else w, None)
    case Some(id) =>
      if r.breached
      then AdvanceVerdict(cfg, w, node, id, r, at)
      else Applied(ResolveAlert(w, id, at), None)
  }

  datatype Outcome = Outcome(world: World, dispatched: seq<Action>)

  function Collect(dispatched: seq<Action>, more: Option<Action>): seq<Action> {
    if more.Some? then dispatched + [more.value] else dispatched
  }

  ghost function ApplyAll(cfg: Config, w: World, node: NodeId, results: seq<RuleResult>, at: Time): (o: Outcome)
    requires DbOk(w.db)
    ensures DbOk(o.world.db)
  {
    if results == [] then
      Outcome(w, [])
    else
      var n := |results| - 1;
      var before := ApplyAll(cfg, w, node, results[..n], at);
      var applied := ApplyVerdict(cfg, before.world, node, results[n], at);
      ApplyVerdictOk(cfg, before.world, node, results[n], at);
      Outcome(applied.world, Collect(before.dispatched, applied.dispatched))
  }

  // ----- what a verdict dispatches -----

  /** In id order, exactly the rows with ids in [lo, hi) that are dispatched. */
  ghost predicate ListsDispatches(pending: seq<Action>, actions: Actions, lo: nat, hi: nat) {
    && (forall i :: 0 <= i < |pending| ==>
          && lo <= pending[i].id < hi && pending[i].status == Dispatched
          && pending[i].id in actions && actions[pending[i].id] == pending[i])
    && (forall i, j :: 0 <= i < j < |pending| ==> pending[i].id < pending[j].id)
    && (forall id: nat :: lo <= id < hi ==>
          id in actions
          && (actions[id].status == Dispatched ==> exists i :: 0 <= i < |pending| && pending[i].id == id))
  }

  /** Nothing that was in the audit table is gone or different. */
  ghost predicate KeepsActions(a: Db, b: Db) {
    a.nextAction <= b.nextAction && forall id :: id in a.actions ==> id in b.actions && b.actions[id] == a.actions[id]
  }

  lemma VerdictDispatches(cfg: Config, w: World, node: NodeId, r: RuleResult, at: Time)
    requires DbOk(w.db)
    ensures var applied := ApplyVerdict(cfg, w, node, r, at);
            var pending := match applied.dispatched case Some(action) => [action] case None => [];
            && KeepsActions(w.db, applied.world.db)
            && ListsDispatches(pending, applied.world.db.actions, w.db.nextAction, applied.world.db.nextAction)
  {
    var found := FindOpen(w.db.alerts, node, r.ruleKey);
    if found.Some? && r.breached {
      var mid := MaybeEscalate(cfg, AdvanceAlert(w, found.value, r.value, at), found.value, at);
      assert mid.db.actions == w.db.actions && mid.db.nextAction == w.db.nextAction;
      RemediateDispatches(cfg, mid, node, found.value, r.ruleKey, at);
    }
  }

  lemma RemediateDispatches(cfg: Config, w: World, node: NodeId, id: nat, key: string, at: Time)
    requires ActionsOk(w.db.actions, w.db.nextAction) && id in w.db.alerts
    ensures var applied := MaybeRemediate(cfg, w, node, id, key, at);
            var pending := match applied.dispatched case Some(action) => [action] case None => [];
            && KeepsActions(w.db, applied.world.db)
            && ListsDispatches(pending, applied.world.db.actions, w.db.nextAction, applied.world.db.nextAction)
  {
    if ShouldRemediate(cfg, w.db.alerts[id], at) && Mapped(cfg, key) {
      var row := DecisionFor(cfg, w.db, node, id, key, at);
      assert row.id == w.db.nextAction && [row][0].id == w.db.nextAction;
    }
  }

  /** The rows added are decisions about the node at that time, and each says what its rule key's playbook says. */
  ghost predicate NewCommands(cfg: Config, a: Db, b: Db, node: NodeId, at: Time) {
    forall id :: id in b.actions && id !in a.actions ==>
      && b.actions[id].nodeId == node && b.actions[id].createdAt == at
      && b.actions[id].ruleKey in cfg.playbooks && Commands(b.actions[id], cfg.playbooks[b.actions[id].ruleKey])
  }

  lemma VerdictCommands(cfg: Config, w: World, node: NodeId, r: RuleResult, at: Time)
    requires DbOk(w.db)
    ensures NewCommands(cfg, w.db, ApplyVerdict(cfg, w, node, r, at).world.db, node, at)
  {
    var found := FindOpen(w.db.alerts, node, r.ruleKey);
    if found.Some? && r.breached {
      var mid := MaybeEscalate(cfg, AdvanceAlert(w, found.value, r.value, at), found.value, at);
      assert mid.db.actions == w.db.actions;
    }
  }

  lemma {:induction false} AllCommands(cfg: Config, w: World, node: NodeId, results: seq<RuleResult>, at: Time)
    requires DbOk(w.db)
    ensures NewCommands(cfg, w.db, ApplyAll(cfg, w, node, results, at).world.db, node, at)
  {
    if results != [] {
      var n := |results| - 1;
      var before := ApplyAll(cfg, w, node, results[..n], at).world;
      AllCommands(cfg, w, node, results[..n], at);
      VerdictCommands(cfg, before, node, results[n], at);
      VerdictDispatches(cfg, before, node, results[n], at);
    }
  }

  lemma ListsMore(a: seq<Action>, b: seq<Action>, actions: Actions, actions': Actions, lo: nat, mid: nat, hi: nat)
    requires lo <= mid <= hi && ListsDispatches(a, actions, lo, mid) && ListsDispatches(b, actions', mid, hi)
    requires forall id :: id in actions ==> id in actions' && actions'[id] == actions[id]
    ensures ListsDispatches(a + b, actions', lo, hi)
  {
    var all := a + b;
    forall id: nat | lo <= id < hi
      ensures id in actions'
      ensures actions'[id].status == Dispatched ==> exists i :: 0 <= i < |all| && all[i].id == id
    {
      if id < mid {
        if i :| 0 <= i < |a| && a[i].id == id {
          assert all[i].id == id;
        }
      } else if i :| 0 <= i < |b| && b[i].id == id {
        assert all[|a| + i].id == id;
      }
    }
  }

  /** Whatever the verdicts, what they dispatch is, in order, every row they add that is DISPATCHED. */
  lemma {:induction false} AllDispatches(cfg: Config, w: World, node: NodeId, results: seq<RuleResult>, at: Time)
    requires DbOk(w.db)
    ensures var o := ApplyAll(cfg, w, node, results, at);
            && KeepsActions(w.db, o.world.db)
            && ListsDispatches(o.dispatched, o.world.db.actions, w.db.nextAction, o.world.db.nextAction)
  {
    if results != [] {
      var n := |results| - 1;
      var before := ApplyAll(cfg, w, node, results[..n], at);
      var applied := ApplyVerdict(cfg, before.world, node, results[n], at);
      AllDispatches(cfg, w, node, results[..n], at);
      VerdictDispatches(cfg, before.world, node, results[n], at);
      ListsMore(before.dispatched, match applied.dispatched case Some(action) => [action] case None => [],
        before.world.db.actions, applied.world.db.actions, w.db.nextAction, before.world.db.nextAction,
        applied.world.db.nextAction);
      assert before.dispatched + [] == before.dispatched;
    }
  }

  /** An alert as it is when it has just been opened. */
  predicate OpenedBy(row: Alert, id: nat, node: NodeId, r: RuleResult, at: Time) {
    && row.id == id && row.nodeId == node && row.ruleKey == r.ruleKey && row.ruleKind == r.ruleKind
    && row.severity == r.severity && row.description == r.description && row.status == Firing
    && row.triggeringValue == r.value && row.bound == r.bound && row.firstFiredAt == row.lastFiredAt == at
    && row.resolvedAt.None? && row.acknowledgedAt.None? && row.acknowledgedBy.None?
    && row.escalatedAt.None? && row.remediatedAt.None?
  }

  // ----- who is told what -----

  /** The change of the alert table that a notification stands for, with the row as it was written.  (An attempt is
      marked after the escalation of the same verdict has been told.) */
  ghost predicate Warrants(before: Alerts, after: Alerts, notice: Notice) {
    match notice
    case NotifyOpened(row) => row.id !in before && row.id in after && row == after[row.id]
    case NotifyEscalated(row) =>
      && row.id in before && row.id in after
      && before[row.id].escalatedAt.None? && after[row.id].escalatedAt.Some?
      && row == after[row.id].(remediatedAt := before[row.id].remediatedAt)
    case NotifyResolved(row) =>
      && row.id in before && row.id in after
      && before[row.id].status == Firing && after[row.id].status == Resolved && row == after[row.id]
  }

  /** At most one thing worth telling has happened, and exactly that was told. */
  ghost predicate Announces(before: World, after: World) {
    var n := |before.notices|;
    && n <= |after.notices| <= n + 1 && after.notices[..n] == before.notices
    && forall notice :: notice in after.notices[n..] <==> Warrants(before.db.alerts, after.db.alerts, notice)
  }

  lemma OpenAnnounces(w: World, d: AlertDraft)
    requires AlertsOk(w.db.alerts, w.db.nextAlert)
    ensures Announces(w, OpenAlert(w, d))
  {
    var w' := OpenAlert(w, d);
    var row := NewAlert(w.db.nextAlert, d);
    assert w'.notices[|w.notices|..] == [NotifyOpened(row)];
  }

  lemma EscalateAnnounces(w: World, id: nat, at: Time)
    requires AlertsOk(w.db.alerts, w.db.nextAlert) && id in w.db.alerts && w.db.alerts[id].escalatedAt.None?
    ensures Announces(w, EscalateAlert(w, id, at))
  {
    assert EscalateAlert(w, id, at).notices[|w.notices|..] == [NotifyEscalated(EscalatedRow(w.db.alerts[id], at))];
  }

  lemma ResolveAnnounces(w: World, id: nat, at: Time)
    requires AlertsOk(w.db.alerts, w.db.nextAlert) && id in w.db.alerts && w.db.alerts[id].status == Firing
    ensures Announces(w, ResolveAlert(w, id, at))
  {
    assert ResolveAlert(w, id, at).notices[|w.notices|..] == [NotifyResolved(ResolvedRow(w.db.alerts[id], at))];
  }

  /** Rows have changed in nothing that anybody is told about. */
  ghost predicate SameNews(a: Alerts, b: Alerts) {
    b.Keys == a.Keys && forall id :: id in a ==> b[id].status == a[id].status && b[id].escalatedAt == a[id].escalatedAt
  }

  lemma NothingToTell(w: World, w': World)
    requires w'.notices == w.notices && SameNews(w.db.alerts, w'.db.alerts)
    ensures Announces(w, w')
  {
  }

  /** Opening, escalating or resolving is told, once, with the row as written; nothing else is. */
  lemma VerdictAnnounces(cfg: Config, w: World, node: NodeId, r: RuleResult, at: Time)
    requires DbOk(w.db)
    ensures Announces(w, ApplyVerdict(cfg, w, node, r, at).world)
  {
    match FindOpen(w.db.alerts, node, r.ruleKey)
    case None =>
      if r.breached {
        OpenAnnounces(w, DraftOf(node, r, at));
      }
    case Some(id) =>
      if r.breached {
        AdvanceAnnounces(cfg, w, node, id, r, at);
      } else {
        ResolveAnnounces(w, id, at);
      }
  }

  lemma AdvanceAnnounces(cfg: Config, w: World, node: NodeId, id: nat, r: RuleResult, at: Time)
    requires DbOk(w.db) && IsOpen(w.db.alerts, id, node, r.ruleKey)
    ensures Announces(w, AdvanceVerdict(cfg, w, node, id, r, at).world)
  {
    var w1 := AdvanceAlert(w, id, r.value, at);
    var w' := AdvanceVerdict(cfg, w, node, id, r, at).world;
    var row := w1.db.alerts[id];
    AdvanceWritesOneRow(cfg, w, node, id, r, at);
    if ShouldEscalate(cfg, row, at) {
      assert w'.notices[|w.notices|..] == [NotifyEscalated(EscalatedRow(row, at))];
    } else {
      assert w'.notices == w.notices;
      NothingToTell(w, w');
    }
  }

  // ----- every commit keeps the tables well formed -----

  /** A write to an alert keeps its identity, never re-opens it, and keeps status and resolution time in step. */
  predicate Rewrites(before: Alert, after: Alert) {
    && after.id == before.id && after.nodeId == before.nodeId && after.ruleKey == before.ruleKey
    && (after.status == Firing ==> before.status == Firing)
    && (after.status == Resolved <==> after.resolvedAt.Some?)
  }

  lemma SetAlertOk(db: Db, id: nat, row: Alert)
    requires DbOk(db) && id in db.alerts && Rewrites(db.alerts[id], row)
    ensures DbOk(SetAlert(db, row))
  {
    var after := SetAlert(db, row);
    forall i, j, node, key | IsOpen(after.alerts, i, node, key) && IsOpen(after.alerts, j, node, key) ensures i == j {
      assert IsOpen(db.alerts, i, node, key) && IsOpen(db.alerts, j, node, key);
    }
  }

  lemma CreateAlertOk(db: Db, d: AlertDraft)
    requires DbOk(db) && forall id :: !IsOpen(db.alerts, id, d.nodeId, d.ruleKey)
    ensures DbOk(CreateAlert(db, d))
  {
    var after := CreateAlert(db, d);
    forall i, j, node, key | IsOpen(after.alerts, i, node, key) && IsOpen(after.alerts, j, node, key) ensures i == j {
      assert i == db.nextAlert || IsOpen(db.alerts, i, node, key);
      assert j == db.nextAlert || IsOpen(db.alerts, j, node, key);
    }
  }

  lemma CreateActionOk(db: Db, row: Action)
    requires DbOk(db) && row.id == db.nextAction && row.alertId in db.alerts
    requires row.completedAt.None? && !HasResult(row.status)
    ensures DbOk(CreateAction(db, row))
  {
  }

  lemma MarkResultOk(db: Db, id: nat, status: ActionStatus, reason: Option<Reason>, at: Time)
    requires DbOk(db) && id in db.actions && HasResult(status)
    ensures DbOk(MarkResult(db, id, status, reason, at))
  {
  }

  lemma BulkInsertOk(db: Db, p: Payload, receivedAt: Time)
    requires DbOk(db)
    ensures DbOk(BulkInsert(db, p, receivedAt))
  {
  }

  lemma RemediateOk(cfg: Config, w: World, node: NodeId, id: nat, key: string, at: Time)
    requires DbOk(w.db) && id in w.db.alerts
    ensures DbOk(MaybeRemediate(cfg, w, node, id, key, at).world.db)
  {
    if ShouldRemediate(cfg, w.db.alerts[id], at) && Mapped(cfg, key) {
      var row := DecisionFor(cfg, w.db, node, id, key, at);
      CreateActionOk(w.db, row);
      SetAlertOk(CreateAction(w.db, row), id, RemediatedRow(w.db.alerts[id], at));
    }
  }

  lemma ApplyVerdictOk(cfg: Config, w: World, node: NodeId, r: RuleResult, at: Time)
    requires DbOk(w.db)
    ensures DbOk(ApplyVerdict(cfg, w, node, r, at).world.db)
  {
    match FindOpen(w.db.alerts, node, r.ruleKey)
    case None =>
      if r.breached {
        CreateAlertOk(w.db, DraftOf(node, r, at));
      }
    case Some(id) =>
      if r.breached {
        var w1 := AdvanceAlert(w, id, r.value, at);
        SetAlertOk(w.db, id, AdvancedRow(w.db.alerts[id], r.value, at));
        SetAlertOk(w1.db, id, EscalatedRow(w1.db.alerts[id], at));
        RemediateOk(cfg, MaybeEscalate(cfg, w1, id, at), node, id, r.ruleKey, at);
      } else {
        SetAlertOk(w.db, id, ResolvedRow(w.db.alerts[id], at));
      }
  }
}
