/** The database as a value: its tables, and what each repository call reads
    from them or commits to them. */
module Tables {
  import opened Model

  datatype Node = Node(firstSeenAt: Time, lastSeenAt: Time)

  type Alerts = map<nat, Alert>
  type Actions = map<nat, Action>
  type Samples = map<nat, Sample>

  datatype Db = Db(
    nodes: map<NodeId, Node>,
    alerts: Alerts,
    actions: Actions,
    samples: Samples,
    nextAlert: nat,
    nextAction: nat,
    nextSample: nat
  )

  const EMPTY: Db := Db(map[], map[], map[], map[], 0, 0, 0)

  /** The fields a caller supplies when it opens an alert. */
  datatype AlertDraft = AlertDraft(
    nodeId: NodeId, ruleKey: string, ruleKind: RuleKind, severity: Severity,
    description: string, value: real, bound: real, firedAt: Time)

  // ----- nodes -----

  function UpsertSeen(db: Db, node: NodeId, seenAt: Time): Db {
    var first := if node in db.nodes then db.nodes[node].firstSeenAt else seenAt;
    db.(nodes := db.nodes[node := Node(first, seenAt)])
  }

  // ----- alerts -----

  predicate IsOpen(alerts: Alerts, id: nat, node: NodeId, key: string) {
    && id in alerts
    && alerts[id].status == Firing
    && alerts[id].nodeId == node
    && alerts[id].ruleKey == key
  }

  /** At most one alert fires per node and rule key. */
  ghost predicate UniqueOpen(alerts: Alerts) {
    forall i, j, node, key ::
      IsOpen(alerts, i, node, key) && IsOpen(alerts, j, node, key) ==> i == j
  }

  ghost function FindOpen(alerts: Alerts, node: NodeId, key: string): (r: Option<nat>)
    ensures r.Some? ==> IsOpen(alerts, r.value, node, key)
    ensures r.None? ==> forall id :: !IsOpen(alerts, id, node, key)
  {
    if exists id :: IsOpen(alerts, id, node, key) then
      var id :| IsOpen(alerts, id, node, key);
      Some(id)
    else
      None
  }

  function NewAlert(id: nat, d: AlertDraft): Alert {
    Alert(id, d.nodeId, d.ruleKey, d.ruleKind, d.severity, Firing, d.description, d.value, d.bound,
          d.firedAt, d.firedAt, None, None, None, None, None)
  }

  function CreateAlert(db: Db, d: AlertDraft): Db {
    db.(alerts := db.alerts[db.nextAlert := NewAlert(db.nextAlert, d)], nextAlert := db.nextAlert + 1)
  }

  function SetAlert(db: Db, row: Alert): Db {
    db.(alerts := db.alerts[row.id := row])
  }

  // ----- remediation actions -----

  function NewAction(id: nat, node: NodeId, alertId: nat, key: string, playbook: Playbook,
                     reason: Option<Reason>, at: Time): Action {
    Action(id, node, alertId, key, playbook.name, playbook.actionType, playbook.parameters,
           if reason.Some? then Blocked else Dispatched, reason, at, None)
  }

  function CreateAction(db: Db, row: Action): Db {
    db.(actions := db.actions[db.nextAction := row], nextAction := db.nextAction + 1)
  }

  function MarkedResult(row: Action, status: ActionStatus, reason: Option<Reason>, at: Time): Action {
    row.(status := status, reason := reason, completedAt := Some(at))
  }

  function MarkResult(db: Db, id: nat, status: ActionStatus, reason: Option<Reason>, at: Time): Db
    requires id in db.actions
  {
    db.(actions := db.actions[id := MarkedResult(db.actions[id], status, reason, at)])
  }

  function RecentIds(actions: Actions, node: NodeId, since: Time): set<nat> {
    set id | id in actions && actions[id].nodeId == node && since <= actions[id].createdAt
  }

  function CountRecent(actions: Actions, node: NodeId, since: Time): nat {
    |RecentIds(actions, node, since)|
  }

  function PlaybookIds(actions: Actions, node: NodeId, playbook: string): set<nat> {
    set id | id in actions && actions[id].nodeId == node && actions[id].playbookName == playbook
  }

  ghost predicate IsLatest(actions: Actions, ids: set<nat>, id: nat)
    requires ids <= actions.Keys
  {
    id in ids && forall j :: j in ids ==> actions[j].createdAt <= actions[id].createdAt
  }

  lemma LatestExists(actions: Actions, ids: set<nat>)
    requires ids <= actions.Keys && ids != {}
    ensures exists id :: IsLatest(actions, ids, id)
  {
    var x :| x in ids;
    if ids == {x} {
      assert IsLatest(actions, ids, x);
    } else {
      LatestExists(actions, ids - {x});
      var y :| IsLatest(actions, ids - {x}, y);
      var z := if actions[x].createdAt <= actions[y].createdAt then y else x;
      assert IsLatest(actions, ids, z);
    }
  }

  /** When the latest action of a playbook on a node was created. */
  ghost function LastCreated(actions: Actions, node: NodeId, playbook: string): (r: Option<Time>)
    ensures r.None? <==> PlaybookIds(actions, node, playbook) == {}
    ensures r.Some? ==> forall id :: id in PlaybookIds(actions, node, playbook) ==> actions[id].createdAt <= r.value
    ensures r.Some? ==> exists id :: id in PlaybookIds(actions, node, playbook) && actions[id].createdAt == r.value
  {
    var ids := PlaybookIds(actions, node, playbook);
    if ids == {} then
      None
    else
      LatestExists(actions, ids);
      var id :| IsLatest(actions, ids, id);
      Some(actions[id].createdAt)
  }

  function StaleDispatches(actions: Actions, cutoff: Time): set<nat> {
    set id | id in actions && actions[id].status == Dispatched && actions[id].createdAt < cutoff
  }

  // ----- samples -----

  predicate InBatch(i: nat, next: nat, readings: seq<Reading>) {
    next <= i < next + |readings|
  }

  function NewSamples(next: nat, node: NodeId, readings: seq<Reading>, collectedAt: Time, receivedAt: Time): Samples {
    map i: nat {:trigger InBatch(i, next, readings)} | next <= i < next + |readings| && InBatch(i, next, readings) ::
      var r := readings[i - next];
      Sample(node, r.metricType, r.value, r.unit, collectedAt, receivedAt)
  }

  function BulkInsert(db: Db, p: Payload, receivedAt: Time): Db {
    db.(samples := db.samples + NewSamples(db.nextSample, p.nodeId, p.samples, p.collectedAt, receivedAt),
        nextSample := db.nextSample + |p.samples|)
  }

  /** The samples a rate rule may compare against: [before - window, before). */
  function InWindow(samples: Samples, node: NodeId, metric: MetricType, before: Time, window: int): Samples {
    map id | id in samples
             && samples[id].nodeId == node && samples[id].metricType == metric
             && before - window <= samples[id].collectedAt < before
      :: samples[id]
  }

  function Newest(samples: Samples): Samples {
    map id | id in samples && forall j :: j in samples ==> samples[j].collectedAt <= samples[id].collectedAt
      :: samples[id]
  }

  function FindPrevious(pick: Samples -> nat, samples: Samples, node: NodeId, metric: MetricType,
                        before: Time, window: int): Option<Sample> {
    var ties := Newest(InWindow(samples, node, metric, before, window));
    if pick(ties) in ties then Some(ties[pick(ties)]) else None
  }

  // ----- retention -----

  function DoomedActions(actions: Actions, cutoff: Time): set<nat> {
    set id | id in actions && actions[id].status != Dispatched && actions[id].createdAt < cutoff
  }

  predicate Referenced(actions: Actions, alertId: nat) {
    exists id :: id in actions && actions[id].alertId == alertId
  }

  function DoomedAlerts(alerts: Alerts, actions: Actions, cutoff: Time): set<nat> {
    set id | id in alerts
             && alerts[id].status == Resolved
             && alerts[id].resolvedAt.Some? && alerts[id].resolvedAt.value < cutoff
             && !Referenced(actions, id)
  }

  function DoomedSamples(samples: Samples, cutoff: Time): set<nat> {
    set id | id in samples && samples[id].receivedAt < cutoff
  }

  // ----- well-formed tables -----

  predicate HasResult(status: ActionStatus) {
    status == Executed || status == Failed
  }

  ghost predicate AlertsOk(alerts: Alerts, next: nat) {
    forall id :: id in alerts ==>
      id < next && alerts[id].id == id && (alerts[id].status == Resolved <==> alerts[id].resolvedAt.Some?)
  }

  ghost predicate ActionsOk(actions: Actions, next: nat) {
    forall id :: id in actions ==>
      id < next && actions[id].id == id && (HasResult(actions[id].status) <==> actions[id].completedAt.Some?)
  }

  /** Every audit row references an alert that is still there. */
  ghost predicate ReferencesOk(actions: Actions, alerts: Alerts) {
    forall id :: id in actions ==> actions[id].alertId in alerts
  }

  ghost predicate SamplesOk(samples: Samples, next: nat) {
    forall id :: id in samples ==> id < next
  }

  ghost predicate DbOk(db: Db) {
    && AlertsOk(db.alerts, db.nextAlert)
    && UniqueOpen(db.alerts)
    && ActionsOk(db.actions, db.nextAction)
    && ReferencesOk(db.actions, db.alerts)
    && SamplesOk(db.samples, db.nextSample)
  }
}
