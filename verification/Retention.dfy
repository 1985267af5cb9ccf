/** The retention sweep: batched, restartable, and safe for references. */
module Retention {
  import opened Model
  import opened Tables
  import opened Alerting
  import opened Machine
  import opened Store

  datatype Table = ActionTable | AlertTable | SampleTable

  /** The rows of a table that have expired at a cutoff. */
  function Doomed(db: Db, table: Table, cutoff: Time): set<nat> {
    match table
    case ActionTable => DoomedActions(db.actions, cutoff)
    case AlertTable => DoomedAlerts(db.alerts, db.actions, cutoff)
    case SampleTable => DoomedSamples(db.samples, cutoff)
  }

  function Remove(db: Db, table: Table, ids: set<nat>): Db {
    match table
    case ActionTable => db.(actions := db.actions - ids)
    case AlertTable => db.(alerts := db.alerts - ids)
    case SampleTable => db.(samples := db.samples - ids)
  }

  function Expire(db: Db, table: Table, cutoff: Time): Db {
    Remove(db, table, Doomed(db, table, cutoff))
  }

  /** One whole sweep as three bulk deletes, audit rows first, so that alerts lose their references. */
  function Sweep(cfg: Config, db: Db, now: Time): Db {
    var db1 := Expire(db, ActionTable, now - cfg.actionsRetention);
    var db2 := Expire(db1, AlertTable, now - cfg.alertsRetention);
    Expire(db2, SampleTable, now - cfg.metricsRetention)
  }

  // ----- batches -----

  lemma BatchShrinks(db: Db, table: Table, cutoff: Time, ids: set<nat>)
    requires ids <= Doomed(db, table, cutoff)
    ensures Doomed(Remove(db, table, ids), table, cutoff) == Doomed(db, table, cutoff) - ids
  {
  }

  lemma RemoveTwice(db: Db, table: Table, a: set<nat>, b: set<nat>)
    ensures Remove(Remove(db, table, a), table, b) == Remove(db, table, a + b)
  {
    match table
    case ActionTable => assert (db.actions - a) - b == db.actions - (a + b);
    case AlertTable => assert (db.alerts - a) - b == db.alerts - (a + b);
    case SampleTable => assert (db.samples - a) - b == db.samples - (a + b);
  }

  /** How many non-empty batches clear n rows. */
  function Batches(n: nat, batchSize: nat): nat
    requires 1 <= batchSize
  {
    if n == 0 then 0 else 1 + Batches(if n <= batchSize then 0 else n - batchSize, batchSize)
  }

  lemma {:induction false} BatchesIsCeiling(n: nat, batchSize: nat)
    requires 1 <= batchSize
    ensures (Batches(n, batchSize) - 1) * batchSize < n <= Batches(n, batchSize) * batchSize
        || n == Batches(n, batchSize) == 0
  {
    if batchSize < n {
      BatchesIsCeiling(n - batchSize, batchSize);
      var k := Batches(n - batchSize, batchSize);
      assert (k + 1) * batchSize == k * batchSize + batchSize;
      assert (k - 1) * batchSize + batchSize == k * batchSize;
    }
  }

  /** Where a drain stands after a batch: `gone` before it, `removed` by it. */
  ghost predicate Draining(doomed: set<nat>, gone: set<nat>, removed: set<nat>, deleted: nat, total: nat, calls: nat,
      batchSize: nat)
    requires 1 <= batchSize
  {
    && gone <= doomed && total == |gone|
    && removed <= doomed - gone && deleted == |removed| == Fitting(doomed - gone, batchSize)
    && calls + Batches(|doomed - gone|, batchSize) == Batches(|doomed|, batchSize) + 1
  }

  /** One more non-empty batch on the way to the bulk delete. */
  lemma DrainStep(doomed: set<nat>, gone: set<nat>, removed: set<nat>, batchSize: nat)
    requires 1 <= batchSize && removed != {} && gone <= doomed
    requires removed <= doomed - gone && |removed| == Fitting(doomed - gone, batchSize)
    ensures |gone + removed| == |gone| + |removed|
    ensures |doomed - (gone + removed)| < |doomed - gone|
    ensures Batches(|doomed - gone|, batchSize) == 1 + Batches(|doomed - (gone + removed)|, batchSize)
  {
    var left := doomed - gone;
    assert left - removed == doomed - (gone + removed);
    assert left == (left - removed) + removed;
    assert |left| == |left - removed| + |removed|;
  }

  /** An empty batch means that nothing is left. */
  lemma Drained(doomed: set<nat>, gone: set<nat>, removed: set<nat>, total: nat, calls: nat, batchSize: nat)
    requires 1 <= batchSize && Draining(doomed, gone, removed, 0, total, calls, batchSize)
    ensures gone + removed == doomed && total == |doomed| && calls == Batches(total, batchSize) + 1
  {
    assert removed == {} && doomed - gone == {};
    assert gone == doomed;
  }

  /** A batch taken after `gone`, seen from the table before the drain. */
  lemma NextBatch(db: Db, table: Table, cutoff: Time, gone: set<nat>, removed: set<nat>)
    requires gone <= Doomed(db, table, cutoff)
    requires removed <= Doomed(Remove(db, table, gone), table, cutoff)
    ensures Doomed(Remove(db, table, gone), table, cutoff) == Doomed(db, table, cutoff) - gone
    ensures removed <= Doomed(db, table, cutoff) - gone
    ensures Remove(Remove(db, table, gone), table, removed) == Remove(db, table, gone + removed)
  {
    BatchShrinks(db, table, cutoff, gone);
    RemoveTwice(db, table, gone, removed);
  }

  lemma RemoveNothing(db: Db, table: Table)
    ensures Remove(db, table, {}) == db
  {
    assert db.actions - {} == db.actions && db.alerts - {} == db.alerts && db.samples - {} == db.samples;
  }

  datatype SweepStats = SweepStats(actionsDeleted: nat, alertsDeleted: nat, samplesDeleted: nat)

  lemma ActionsExpire(db: Db, cutoff: Time)
    ensures var after := Expire(db, ActionTable, cutoff);
            && |db.actions.Keys - after.actions.Keys| == |Doomed(db, ActionTable, cutoff)|
            && after.alerts == db.alerts && after.samples == db.samples
  {
    assert db.actions.Keys - Expire(db, ActionTable, cutoff).actions.Keys == Doomed(db, ActionTable, cutoff);
  }

  lemma AlertsExpire(db: Db, cutoff: Time)
    ensures var after := Expire(db, AlertTable, cutoff);
            && |db.alerts.Keys - after.alerts.Keys| == |Doomed(db, AlertTable, cutoff)|
            && after.actions == db.actions && after.samples == db.samples
  {
    assert db.alerts.Keys - Expire(db, AlertTable, cutoff).alerts.Keys == Doomed(db, AlertTable, cutoff);
  }

  lemma SamplesExpire(db: Db, cutoff: Time)
    ensures var after := Expire(db, SampleTable, cutoff);
            && |db.samples.Keys - after.samples.Keys| == |Doomed(db, SampleTable, cutoff)|
            && after.actions == db.actions && after.alerts == db.alerts
  {
    assert db.samples.Keys - Expire(db, SampleTable, cutoff).samples.Keys == Doomed(db, SampleTable, cutoff);
  }

  /** How many rows of each table are gone. */
  ghost predicate CountsLosses(before: Db, after: Db, stats: SweepStats) {
    && stats.actionsDeleted == |before.actions.Keys - after.actions.Keys|
    && stats.alertsDeleted == |before.alerts.Keys - after.alerts.Keys|
    && stats.samplesDeleted == |before.samples.Keys - after.samples.Keys|
  }

  /** What each drain finds is what the sweep loses of its table. */
  lemma SweepLoses(cfg: Config, db: Db, db1: Db, db2: Db, db3: Db, now: Time, stats: SweepStats)
    requires db1 == Expire(db, ActionTable, now - cfg.actionsRetention)
    requires db2 == Expire(db1, AlertTable, now - cfg.alertsRetention)
    requires db3 == Expire(db2, SampleTable, now - cfg.metricsRetention)
    requires stats.actionsDeleted == |Doomed(db, ActionTable, now - cfg.actionsRetention)|
    requires stats.alertsDeleted == |Doomed(db1, AlertTable, now - cfg.alertsRetention)|
    requires stats.samplesDeleted == |Doomed(db2, SampleTable, now - cfg.metricsRetention)|
    ensures CountsLosses(db, db3, stats)
  {
    ActionsExpire(db, now - cfg.actionsRetention);
    AlertsExpire(db1, now - cfg.alertsRetention);
    SamplesExpire(db2, now - cfg.metricsRetention);
    assert db3.actions == db1.actions && db3.alerts == db2.alerts && db1.alerts == db.alerts
      && db2.samples == db.samples;
  }

  /** Three drains in order are a sweep. */
  lemma ThreeDeletes(cfg: Config, db: Db, db1: Db, db2: Db, db3: Db, now: Time)
    requires db1 == Expire(db, ActionTable, now - cfg.actionsRetention)
    requires db2 == Expire(db1, AlertTable, now - cfg.alertsRetention)
    requires db3 == Expire(db2, SampleTable, now - cfg.metricsRetention)
    ensures db3 == Sweep(cfg, db, now)
  {
  }

  class RetentionJob {
    const cfg: Config
    const db: Database
    const actions: RemediationActionRepository
    const alerts: AlertRepository
    const metrics: MetricsRepository

    constructor (cfg: Config, db: Database)
      ensures this.cfg == cfg && this.db == db && Wired()
    {
      this.cfg := cfg;
      this.db := db;
      actions := new RemediationActionRepository(db);
      alerts := new AlertRepository(db);
      metrics := new MetricsRepository(db);
    }

    ghost predicate Wired() {
      actions.db == db && alerts.db == db && metrics.db == db
    }

    method Prune(table: Table, cutoff: Time) returns (deleted: nat, ghost removed: set<nat>)
      requires Wired()
      modifies db
      ensures removed <= Doomed(old(db.View()), table, cutoff)
      ensures db.View() == Remove(old(db.View()), table, removed)
      ensures deleted == |removed| == Fitting(Doomed(old(db.View()), table, cutoff), cfg.batchSize)
    {
      match table {
        case ActionTable =>
          deleted := actions.PruneTerminalBefore(cutoff, cfg.batchSize);
          removed := old(db.actions).Keys - db.actions.Keys;
        case AlertTable =>
          deleted := alerts.PruneResolvedBefore(cutoff, cfg.batchSize);
          removed := old(db.alerts).Keys - db.alerts.Keys;
        case SampleTable =>
          deleted := metrics.PruneSamplesBefore(cutoff, cfg.batchSize);
          removed := old(db.samples).Keys - db.samples.Keys;
      }
    }

    /** A batch, seen from the table before the drain. */
    method PruneMore(ghost before: Db, table: Table, cutoff: Time, ghost gone: set<nat>)
      returns (deleted: nat, ghost removed: set<nat>)
      requires Wired() && gone <= Doomed(before, table, cutoff) && db.View() == Remove(before, table, gone)
      modifies db
      ensures var left := Doomed(before, table, cutoff) - gone;
        removed <= left && deleted == |removed| == Fitting(left, cfg.batchSize)
      ensures db.View() == Remove(before, table, gone + removed)
    {
      deleted, removed := Prune(table, cutoff);
      NextBatch(before, table, cutoff, gone, removed);
    }

    /** Whatever rows each batch picks, draining ends with the table a single bulk
        delete would leave, after one call more than it takes full batches. */
    method Drain(ghost before: Db, table: Table, cutoff: Time) returns (total: nat, ghost after: Db, ghost calls: nat)
      requires Wired() && 1 <= cfg.batchSize && db.View() == before
      modifies db
      ensures db.View() == after == Expire(before, table, cutoff)
      ensures total == |Doomed(before, table, cutoff)|
      ensures calls == Batches(total, cfg.batchSize) + 1
    {
      ghost var doomed := Doomed(before, table, cutoff);
      ghost var gone: set<nat> := {};
      total := 0;
      var deleted;
      ghost var removed;
      RemoveNothing(before, table);
      deleted, removed := PruneMore(before, table, cutoff, gone);
      calls := 1;
      assert doomed - gone == doomed;
      while deleted > 0
        invariant Draining(doomed, gone, removed, deleted, total, calls, cfg.batchSize)
        invariant db.View() == Remove(before, table, gone + removed)
        decreases |doomed - gone|
      {
        total := total + deleted;
        ghost var was, batch := gone, removed;
        gone := gone + removed;
        deleted, removed := PruneMore(before, table, cutoff, gone);
        calls := calls + 1;
        DrainStep(doomed, was, batch, cfg.batchSize);
      }
      Drained(doomed, gone, removed, total, calls, cfg.batchSize);
      after := db.View();
    }

    /** Draining, seen only through its result. */
    method DrainTable(ghost before: Db, table: Table, cutoff: Time) returns (total: nat, ghost after: Db)
      requires Wired() && 1 <= cfg.batchSize && db.View() == before
      modifies db
      ensures db.View() == after == Expire(before, table, cutoff)
      ensures total == |Doomed(before, table, cutoff)|
    {
      ghost var calls;
      total, after, calls := Drain(before, table, cutoff);
    }

    method Run(now: Time) returns (stats: SweepStats)
      requires Wired() && 1 <= cfg.batchSize
      modifies db
      ensures db.View() == Sweep(cfg, old(db.View()), now)
      ensures CountsLosses(old(db.View()), db.View(), stats)
    {
      var actionsDeleted, alertsDeleted, samplesDeleted;
      ghost var db1, db2, db3;
      ghost var db0 := db.View();
      actionsDeleted, db1 := DrainTable(db0, ActionTable, now - cfg.actionsRetention);
      alertsDeleted, db2 := DrainTable(db1, AlertTable, now - cfg.alertsRetention);
      samplesDeleted, db3 := DrainTable(db2, SampleTable, now - cfg.metricsRetention);
      stats := SweepStats(actionsDeleted, alertsDeleted, samplesDeleted);
      ThreeDeletes(cfg, db0, db1, db2, db3, now);
      SweepLoses(cfg, db0, db1, db2, db3, now, stats);
    }
  }

  // ----- interrupted sweeps -----

  /** A batch the machine could commit, at some instant of an earlier sweep. */
  ghost predicate Commits(cfg: Config, db: Db, e: Event)
  {
    match e
    case PruneActions(now, ids) => ids <= DoomedActions(db.actions, now - cfg.actionsRetention)
    case PruneAlerts(now, ids) => ids <= DoomedAlerts(db.alerts, db.actions, now - cfg.alertsRetention)
    case PruneSamples(now, ids) => ids <= DoomedSamples(db.samples, now - cfg.metricsRetention)
    case _ => false
  }

  /** Committed batches one after the other, in any order and of any size. */
  ghost predicate Committed(cfg: Config, db: Db, es: seq<Event>, now: Time)
    decreases |es|
  {
    es == [] ||
    (Commits(cfg, db, es[0]) && es[0].now <= now && Committed(cfg, PruneDb(db, es[0]), es[1..], now))
  }

  ghost function AfterBatches(cfg: Config, db: Db, es: seq<Event>, now: Time): Db
    requires Committed(cfg, db, es, now)
    decreases |es|
  {
    if es == [] then db else AfterBatches(cfg, PruneDb(db, es[0]), es[1..], now)
  }

  /** Final audit rows after a sweep. */
  lemma SweepActions(cfg: Config, db: Db, now: Time)
    ensures Sweep(cfg, db, now).actions == db.actions - DoomedActions(db.actions, now - cfg.actionsRetention)
    ensures Sweep(cfg, db, now).alerts
         == db.alerts - DoomedAlerts(db.alerts, Sweep(cfg, db, now).actions, now - cfg.alertsRetention)
    ensures Sweep(cfg, db, now).samples == db.samples - DoomedSamples(db.samples, now - cfg.metricsRetention)
  {
  }

  /** What a sweep leaves, row by row: the actions that are young enough or still await a result, the alerts that are
      not resolved, or were resolved recently, or are referred to by an action that is left, and the samples that were
      received recently; all as they were, and nothing else. */
  lemma SweepLeavesExactly(cfg: Config, db: Db, now: Time)
    ensures var after := Sweep(cfg, db, now);
            && after == db.(actions := after.actions, alerts := after.alerts, samples := after.samples)
            && (forall id :: id in after.actions ==> id in db.actions && after.actions[id] == db.actions[id])
            && (forall id :: id in after.alerts ==> id in db.alerts && after.alerts[id] == db.alerts[id])
            && (forall id :: id in after.samples ==> id in db.samples && after.samples[id] == db.samples[id])
            && (forall id :: id in db.actions ==>
                  (id in after.actions <==>
                     db.actions[id].status == Dispatched || now - cfg.actionsRetention <= db.actions[id].createdAt))
            && (forall id :: id in db.alerts ==>
                  (id in after.alerts <==> !GoneBy(db.alerts[id], id, after.actions, now - cfg.alertsRetention)))
            && (forall id :: id in db.samples ==>
                  (id in after.samples <==> now - cfg.metricsRetention <= db.samples[id].receivedAt))
  {
    SweepActions(cfg, db, now);
    DoomedAlertsMeans(db.alerts, Sweep(cfg, db, now).actions, now - cfg.alertsRetention);
  }

  lemma BatchAbsorbed(cfg: Config, db: Db, e: Event, now: Time)
    requires Commits(cfg, db, e) && e.now <= now
    ensures Sweep(cfg, PruneDb(db, e), now) == Sweep(cfg, db, now)
  {
    match e
    case PruneActions(_, _) => ActionBatchAbsorbed(cfg, db, e, now);
    case PruneAlerts(_, _) => AlertBatchAbsorbed(cfg, db, e, now);
    case PruneSamples(_, _) => SampleBatchAbsorbed(cfg, db, e, now);
  }

  lemma ActionBatchAbsorbed(cfg: Config, db: Db, e: Event, now: Time)
    requires Commits(cfg, db, e) && e.now <= now && e.PruneActions?
    ensures Sweep(cfg, PruneDb(db, e), now) == Sweep(cfg, db, now)
  {
    SweepActions(cfg, db, now);
    SweepActions(cfg, PruneDb(db, e), now);
    assert Sweep(cfg, PruneDb(db, e), now).actions == Sweep(cfg, db, now).actions;
  }

  lemma AlertBatchAbsorbed(cfg: Config, db: Db, e: Event, now: Time)
    requires Commits(cfg, db, e) && e.now <= now && e.PruneAlerts?
    ensures Sweep(cfg, PruneDb(db, e), now) == Sweep(cfg, db, now)
  {
    var a, b := Sweep(cfg, db, now), Sweep(cfg, PruneDb(db, e), now);
    SweepActions(cfg, db, now);
    SweepActions(cfg, PruneDb(db, e), now);
    assert b.actions == a.actions && a.actions.Keys <= db.actions.Keys;
    forall id | id in e.ids ensures !Referenced(a.actions, id) {
      assert !Referenced(db.actions, id);
    }
    assert b.alerts == a.alerts;
  }

  lemma SampleBatchAbsorbed(cfg: Config, db: Db, e: Event, now: Time)
    requires Commits(cfg, db, e) && e.now <= now && e.PruneSamples?
    ensures Sweep(cfg, PruneDb(db, e), now) == Sweep(cfg, db, now)
  {
    SweepActions(cfg, db, now);
    SweepActions(cfg, PruneDb(db, e), now);
    assert Sweep(cfg, PruneDb(db, e), now).samples == Sweep(cfg, db, now).samples;
  }

  /** A sweep cut off after any committed batches, followed by a full sweep with
      later cutoffs, ends in the tables of that full sweep alone. */
  lemma {:induction false} InterruptedSweep(cfg: Config, db: Db, es: seq<Event>, now: Time)
    requires Committed(cfg, db, es, now)
    ensures Sweep(cfg, AfterBatches(cfg, db, es, now), now) == Sweep(cfg, db, now)
    decreases |es|
  {
    if es != [] {
      InterruptedSweep(cfg, PruneDb(db, es[0]), es[1..], now);
      BatchAbsorbed(cfg, db, es[0], now);
    }
  }

  /** A sweep never leaves an audit row without its alert, and never removes a
      firing alert or an action still awaiting its result. */
  lemma SweepIsSafe(cfg: Config, db: Db, now: Time)
    requires DbOk(db)
    ensures DbOk(Sweep(cfg, db, now))
    ensures forall id :: id in db.alerts && db.alerts[id].status == Firing ==>
              id in Sweep(cfg, db, now).alerts && Sweep(cfg, db, now).alerts[id] == db.alerts[id]
    ensures forall id :: id in db.actions && db.actions[id].status == Dispatched ==>
              id in Sweep(cfg, db, now).actions && Sweep(cfg, db, now).actions[id] == db.actions[id]
  {
    var after := Sweep(cfg, db, now);
    SweepActions(cfg, db, now);
    forall id | id in after.actions ensures after.actions[id].alertId in after.alerts {
      assert Referenced(after.actions, after.actions[id].alertId);
    }
    forall i, j, node, key | IsOpen(after.alerts, i, node, key) && IsOpen(after.alerts, j, node, key) ensures i == j {
      assert IsOpen(db.alerts, i, node, key) && IsOpen(db.alerts, j, node, key);
    }
  }
}
