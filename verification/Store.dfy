/** The database as an object, and the repositories that read and write it. */
module Store {
  import opened Model
  import opened Tables
  import opened Alerting

  class Database {
    var nodes: map<NodeId, Node>
    var alerts: Alerts
    var actions: Actions
    var samples: Samples
    var nextAlert: nat
    var nextAction: nat
    var nextSample: nat

    constructor ()
      ensures View() == EMPTY
    {
      nodes, alerts, actions, samples := map[], map[], map[], map[];
      nextAlert, nextAction, nextSample := 0, 0, 0;
    }

    function View(): Db
      reads this
    {
      Db(nodes, alerts, actions, samples, nextAlert, nextAction, nextSample)
    }
  }

  /** The notification channel, kept as the log of what was sent. */
  class Notifier {
    var sent: seq<Notice>

    constructor ()
      ensures sent == []
    {
      sent := [];
    }

    method Notify(notice: Notice)
      modifies this
      ensures sent == old(sent) + [notice]
    {
      sent := sent + [notice];
    }
  }

  datatype PersistenceError = RowNotFound | ForeignKeyViolated

  class NodeRepository {
    const db: Database

    constructor (db: Database)
      ensures this.db == db
    {
      this.db := db;
    }

    method UpsertSeen(node: NodeId, seenAt: Time)
      modifies db
      ensures db.View() == Tables.UpsertSeen(old(db.View()), node, seenAt)
      ensures node in db.nodes && db.nodes[node].lastSeenAt == seenAt
      ensures db.nodes[node].firstSeenAt == if node in old(db.nodes) then old(db.nodes)[node].firstSeenAt else seenAt
      ensures db.View() == old(db.View()).(nodes := old(db.nodes)[node := db.nodes[node]])
    {
      if node in db.nodes {
        db.nodes := db.nodes[node := db.nodes[node].(lastSeenAt := seenAt)];
      } else {
        db.nodes := db.nodes[node := Node(seenAt, seenAt)];
      }
    }
  }

  /** An alert that was resolved before the cutoff and that no action refers to. */
  ghost predicate GoneBy(row: Alert, id: nat, actions: Actions, cutoff: Time) {
    && row.status == Resolved && row.resolvedAt.Some? && row.resolvedAt.value < cutoff
    && forall a :: a in actions ==> actions[a].alertId != id
  }

  lemma DoomedAlertsMeans(alerts: Alerts, actions: Actions, cutoff: Time)
    ensures forall id :: id in DoomedAlerts(alerts, actions, cutoff)
                         <==> id in alerts && GoneBy(alerts[id], id, actions, cutoff)
  {
  }

  class AlertRepository {
    const db: Database

    constructor (db: Database)
      ensures this.db == db
    {
      this.db := db;
    }

    /** Any firing alert of the key; with unique firing alerts, the one. */
    method FindOpenAlert(node: NodeId, key: string) returns (r: Option<Alert>)
      requires AlertsOk(db.alerts, db.nextAlert)
      ensures r.Some? ==> IsOpen(db.alerts, r.value.id, node, key) && db.alerts[r.value.id] == r.value
      ensures r.None? ==> forall id :: !IsOpen(db.alerts, id, node, key)
    {
      if id :| id in db.alerts && IsOpen(db.alerts, id, node, key) {
        r := Some(db.alerts[id]);
      } else {
        r := None;
      }
    }

    method CreateAlert(d: AlertDraft) returns (row: Alert)
      modifies db
      ensures row == NewAlert(old(db.nextAlert), d)
      ensures db.View() == Tables.CreateAlert(old(db.View()), d)
    {
      row := NewAlert(db.nextAlert, d);
      db.alerts := db.alerts[db.nextAlert := row];
      db.nextAlert := db.nextAlert + 1;
    }

    method UpdateLastFired(id: nat, value: real, at: Time) returns (r: Result<Alert, PersistenceError>)
      modifies db
      ensures Rewritten(old(db.View()), db.View(), id, r)
      ensures r.Ok? ==> r.value == old(db.alerts)[id].(triggeringValue := value, lastFiredAt := at)
    {
      if id !in db.alerts {
        return Err(RowNotFound);
      }
      db.alerts := db.alerts[id := db.alerts[id].(triggeringValue := value, lastFiredAt := at)];
      return Ok(db.alerts[id]);
    }

    method ResolveAlert(id: nat, at: Time) returns (r: Result<Alert, PersistenceError>)
      modifies db
      ensures Rewritten(old(db.View()), db.View(), id, r)
      ensures r.Ok? ==> r.value == old(db.alerts)[id].(status := Resolved, resolvedAt := Some(at))
    {
      if id !in db.alerts {
        return Err(RowNotFound);
      }
      db.alerts := db.alerts[id := db.alerts[id].(status := Resolved, resolvedAt := Some(at))];
      return Ok(db.alerts[id]);
    }

    method AcknowledgeAlert(id: nat, who: string, at: Time) returns (r: Result<Alert, PersistenceError>)
      modifies db
      ensures Rewritten(old(db.View()), db.View(), id, r)
      ensures r.Ok? ==> r.value == old(db.alerts)[id].(acknowledgedBy := Some(who), acknowledgedAt := Some(at))
    {
      if id !in db.alerts {
        return Err(RowNotFound);
      }
      db.alerts := db.alerts[id := db.alerts[id].(acknowledgedBy := Some(who), acknowledgedAt := Some(at))];
      return Ok(db.alerts[id]);
    }

    method EscalateAlert(id: nat, at: Time) returns (r: Result<Alert, PersistenceError>)
      modifies db
      ensures Rewritten(old(db.View()), db.View(), id, r)
      ensures r.Ok? ==> r.value == old(db.alerts)[id].(escalatedAt := Some(at))
    {
      if id !in db.alerts {
        return Err(RowNotFound);
      }
      db.alerts := db.alerts[id := db.alerts[id].(escalatedAt := Some(at))];
      return Ok(db.alerts[id]);
    }

    method MarkRemediated(id: nat, at: Time) returns (r: Result<Alert, PersistenceError>)
      modifies db
      ensures Rewritten(old(db.View()), db.View(), id, r)
      ensures r.Ok? ==> r.value == old(db.alerts)[id].(remediatedAt := Some(at))
    {
      if id !in db.alerts {
        return Err(RowNotFound);
      }
      db.alerts := db.alerts[id := db.alerts[id].(remediatedAt := Some(at))];
      return Ok(db.alerts[id]);
    }

    /** One transaction of the retention drain: some choice of expired rows, as many as fit. */
    method PruneResolvedBefore(cutoff: Time, batchSize: nat) returns (deleted: nat)
      modifies db
      ensures Pruned(DoomedAlerts(old(db.alerts), db.actions, cutoff), old(db.alerts).Keys, db.alerts.Keys, batchSize,
          deleted)
      ensures db.View() == old(db.View()).(alerts := old(db.alerts) - (old(db.alerts).Keys - db.alerts.Keys))
      ensures forall id :: id in old(db.alerts) && id !in db.alerts ==>
                GoneBy(old(db.alerts)[id], id, db.actions, cutoff)
      ensures deleted < batchSize ==> forall id :: id in db.alerts ==> !GoneBy(db.alerts[id], id, db.actions, cutoff)
    {
      DoomedAlertsMeans(db.alerts, db.actions, cutoff);
      var doomed := SomeOf(DoomedAlerts(db.alerts, db.actions, cutoff), batchSize);
      deleted := |doomed|;
      db.alerts := db.alerts - doomed;
      assert old(db.alerts).Keys - db.alerts.Keys == doomed;
    }
  }

  /** A write to one alert row: nothing but that row changes, and a missing row changes nothing. */
  ghost predicate Rewritten(before: Db, after: Db, id: nat, r: Result<Alert, PersistenceError>) {
    match r
    case Ok(row) => id in before.alerts && after == before.(alerts := before.alerts[id := row])
    case Err(e) => id !in before.alerts && after == before && e == RowNotFound
  }

  /** A batch removes only doomed keys: all of them if they fit, else a full batch. */
  ghost predicate Pruned(doomed: set<nat>, before: set<nat>, after: set<nat>, batchSize: nat, deleted: nat) {
    && after <= before
    && before - after <= doomed
    && deleted == |before - after|
    && deleted == Fitting(doomed, batchSize)
  }

  function Fitting(from: set<nat>, limit: nat): nat {
    if |from| <= limit then |from| else limit
  }

  lemma ChoiceExists(from: set<nat>, size: nat) returns (chosen: set<nat>)
    requires size <= |from|
    ensures chosen <= from && |chosen| == size
  {
    if size == |from| {
      chosen := from;
    } else {
      var x :| x in from;
      chosen := ChoiceExists(from - {x}, size);
    }
  }

  /** LIMIT without an order: an arbitrary choice of at most `limit` elements. */
  method SomeOf(from: set<nat>, limit: nat) returns (chosen: set<nat>)
    ensures chosen <= from && |chosen| == Fitting(from, limit)
    ensures |chosen| < limit ==> chosen == from
  {
    ghost var one := ChoiceExists(from, Fitting(from, limit));
    chosen :| chosen <= from && |chosen| == Fitting(from, limit);
    AllChosen(chosen, from);
  }

  lemma AllChosen(chosen: set<nat>, from: set<nat>)
    requires chosen <= from
    ensures |chosen| >= |from| ==> chosen == from
  {
    assert |from| == |chosen| + |from - chosen| by {
      assert from == chosen + (from - chosen);
    }
  }

  /** What an audit row is about. */
  predicate DecisionOn(row: Action, node: NodeId, alertId: nat, key: string, at: Time) {
    row.nodeId == node && row.alertId == alertId && row.ruleKey == key && row.createdAt == at && row.completedAt.None?
  }

  class RemediationActionRepository {
    const db: Database

    constructor (db: Database)
      ensures this.db == db
    {
      this.db := db;
    }

    method CreateAction(node: NodeId, alertId: nat, key: string, playbook: Playbook, reason: Option<Reason>, at: Time)
      returns (r: Result<Action, PersistenceError>)
      modifies db
      ensures alertId !in db.alerts ==> r == Err(ForeignKeyViolated) && db.View() == old(db.View())
      ensures alertId in db.alerts ==>
                && r == Ok(NewAction(old(db.nextAction), node, alertId, key, playbook, reason, at))
                && db.View() == Tables.CreateAction(old(db.View()), r.value)
                && r.value.id == old(db.nextAction) && DecisionOn(r.value, node, alertId, key, at)
                && Commands(r.value, playbook)
                && r.value.reason == reason && r.value.status == if reason.None? then Dispatched else Blocked
    {
      if alertId !in db.alerts {
        return Err(ForeignKeyViolated);
      }
      var row := NewAction(db.nextAction, node, alertId, key, playbook, reason, at);
      db.actions := db.actions[db.nextAction := row];
      db.nextAction := db.nextAction + 1;
      return Ok(row);
    }

    method MarkResult(id: nat, status: ActionStatus, reason: Option<Reason>, at: Time)
      returns (r: Result<Action, PersistenceError>)
      modifies db
      ensures id !in old(db.actions) ==> r == Err(RowNotFound) && db.View() == old(db.View())
      ensures id in old(db.actions) ==>
                && r == Ok(old(db.actions)[id].(status := status, reason := reason, completedAt := Some(at)))
                && db.View() == old(db.View()).(actions := old(db.actions)[id := r.value])
    {
      if id !in db.actions {
        return Err(RowNotFound);
      }
      db.actions := db.actions[id := db.actions[id].(status := status, reason := reason, completedAt := Some(at))];
      return Ok(db.actions[id]);
    }

    /** Some action of the playbook that no other was created after. */
    method FindLastAction(node: NodeId, playbook: string) returns (r: Option<Action>)
      ensures r.None? ==> PlaybookIds(db.actions, node, playbook) == {}
      ensures r.Some? ==>
                var ids := PlaybookIds(db.actions, node, playbook);
                exists id :: IsLatest(db.actions, ids, id) && r == Some(db.actions[id])
    {
      var ids := PlaybookIds(db.actions, node, playbook);
      if ids == {} {
        return None;
      }
      LatestExists(db.actions, ids);
      var id :| id in ids && forall j :: j in ids ==> db.actions[j].createdAt <= db.actions[id].createdAt;
      assert IsLatest(db.actions, ids, id);
      return Some(db.actions[id]);
    }

    method PruneTerminalBefore(cutoff: Time, batchSize: nat) returns (deleted: nat)
      modifies db
      ensures Pruned(DoomedActions(old(db.actions), cutoff), old(db.actions).Keys, db.actions.Keys, batchSize, deleted)
      ensures db.View() == old(db.View()).(actions := old(db.actions) - (old(db.actions).Keys - db.actions.Keys))
      ensures forall id :: id in old(db.actions) && id !in db.actions ==>
                old(db.actions)[id].status != Dispatched && old(db.actions)[id].createdAt < cutoff
      ensures deleted < batchSize ==>
                forall id :: id in db.actions && db.actions[id].createdAt < cutoff ==>
                  db.actions[id].status == Dispatched
    {
      var doomed := SomeOf(DoomedActions(db.actions, cutoff), batchSize);
      deleted := |doomed|;
      db.actions := db.actions - doomed;
      assert old(db.actions).Keys - db.actions.Keys == doomed;
    }
  }

  /** The i-th reading of the payload is stored under the i-th new id, with everything it says. */
  predicate StoredAs(samples: Samples, next: nat, p: Payload, i: nat, receivedAt: Time)
    requires i < |p.samples|
  {
    var id := next + i;
    && id in samples && samples[id].nodeId == p.nodeId
    && samples[id].metricType == p.samples[i].metricType
    && samples[id].value == p.samples[i].value && samples[id].unit == p.samples[i].unit
    && samples[id].collectedAt == p.collectedAt && samples[id].receivedAt == receivedAt
  }

  /** One new sample for every reading, under fresh ids in payload order, and nothing else. */
  ghost predicate Inserted(before: Db, after: Db, p: Payload, receivedAt: Time) {
    && OnlySamplesAdded(before, after, |p.samples|)
    && forall i: nat :: i < |p.samples| ==> StoredAs(after.samples, before.nextSample, p, i, receivedAt)
  }

  ghost predicate OnlySamplesAdded(before: Db, after: Db, n: nat) {
    && after == before.(samples := after.samples, nextSample := before.nextSample + n)
    && (forall id :: id in before.samples && id < before.nextSample ==>
          id in after.samples && after.samples[id] == before.samples[id])
    && (forall id :: id in after.samples && id !in before.samples ==> before.nextSample <= id < after.nextSample)
  }

  lemma InsertedSample(db: Db, p: Payload, receivedAt: Time, i: nat)
    requires i < |p.samples|
    ensures StoredAs(Tables.BulkInsert(db, p, receivedAt).samples, db.nextSample, p, i, receivedAt)
  {
    assert InBatch(db.nextSample + i, db.nextSample, p.samples);
  }

  lemma InsertAdds(db: Db, p: Payload, receivedAt: Time)
    ensures OnlySamplesAdded(db, Tables.BulkInsert(db, p, receivedAt), |p.samples|)
  {
  }

  lemma BulkInsertMeans(db: Db, p: Payload, receivedAt: Time)
    ensures Inserted(db, Tables.BulkInsert(db, p, receivedAt), p, receivedAt)
  {
    InsertAdds(db, p, receivedAt);
    forall i: nat | i < |p.samples|
      ensures StoredAs(Tables.BulkInsert(db, p, receivedAt).samples, db.nextSample, p, i, receivedAt)
    {
      InsertedSample(db, p, receivedAt, i);
    }
  }

  class MetricsRepository {
    const db: Database

    constructor (db: Database)
      ensures this.db == db
    {
      this.db := db;
    }

    method BulkInsert(p: Payload, receivedAt: Time)
      modifies db
      ensures db.View() == Tables.BulkInsert(old(db.View()), p, receivedAt)
      ensures Inserted(old(db.View()), db.View(), p, receivedAt)
    {
      db.samples := db.samples + NewSamples(db.nextSample, p.nodeId, p.samples, p.collectedAt, receivedAt);
      db.nextSample := db.nextSample + |p.samples|;
      BulkInsertMeans(old(db.View()), p, receivedAt);
    }

    method PruneSamplesBefore(cutoff: Time, batchSize: nat) returns (deleted: nat)
      modifies db
      ensures Pruned(DoomedSamples(old(db.samples), cutoff), old(db.samples).Keys, db.samples.Keys, batchSize, deleted)
      ensures db.View() == old(db.View()).(samples := old(db.samples) - (old(db.samples).Keys - db.samples.Keys))
      ensures forall id :: id in old(db.samples) && id !in db.samples ==> old(db.samples)[id].receivedAt < cutoff
      ensures deleted < batchSize ==> forall id :: id in db.samples ==> cutoff <= db.samples[id].receivedAt
    {
      var doomed := SomeOf(DoomedSamples(db.samples, cutoff), batchSize);
      deleted := |doomed|;
      db.samples := db.samples - doomed;
      assert old(db.samples).Keys - db.samples.Keys == doomed;
    }
  }
}
