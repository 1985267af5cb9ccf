/** The reconciliation job: dispatches nobody answered are timed out, so that
    the audit log converges and retention can reclaim it. */
module Reconciliation {
  import opened Model
  import opened Tables
  import opened Store
  import opened Retention

  /** The audit log with every listed row marked as timed out. */
  function TimedOutRows(actions: Actions, ids: set<nat>, now: Time): Actions {
    map id | id in actions ::
      if id in ids then MarkedResult(actions[id], Failed, Some(TimedOut), now) else actions[id]
  }

  function TimeOut(cfg: Config, db: Db, now: Time): Db {
    db.(actions := TimedOutRows(db.actions, StaleDispatches(db.actions, now - cfg.dispatchTimeout), now))
  }

  lemma MarkOneMore(actions: Actions, done: set<nat>, id: nat, now: Time)
    requires id in actions && id !in done
    ensures TimedOutRows(actions, done, now)[id := MarkedResult(TimedOutRows(actions, done, now)[id], Failed,
        Some(TimedOut), now)]
         == TimedOutRows(actions, done + {id}, now)
  {
  }

  /** Dispatched, and longer ago than the timeout. */
  predicate Unanswered(cfg: Config, row: Action, now: Time) {
    row.status == Dispatched && row.createdAt < now - cfg.dispatchTimeout
  }

  /** Exactly the unanswered dispatches have failed, now, because nobody answered; nothing else has changed. */
  ghost predicate TimedOutExactly(cfg: Config, before: Db, after: Db, now: Time) {
    && after == before.(actions := after.actions) && after.actions.Keys == before.actions.Keys
    && forall id :: id in before.actions ==>
         after.actions[id] == if Unanswered(cfg, before.actions[id], now)
           then before.actions[id].(status := Failed, reason := Some(TimedOut), completedAt := Some(now))
           else before.actions[id]
  }

  lemma TimeOutMeans(cfg: Config, db: Db, now: Time)
    ensures TimedOutExactly(cfg, db, TimeOut(cfg, db, now), now)
  {
  }

  class ReconciliationJob {
    const cfg: Config
    const db: Database
    const actions: RemediationActionRepository

    constructor (cfg: Config, db: Database)
      ensures this.cfg == cfg && this.db == db && actions.db == db
    {
      this.cfg := cfg;
      this.db := db;
      actions := new RemediationActionRepository(db);
    }

    /** Marks every over-age dispatch, in whatever order the database lists them. */
    method Run(now: Time) returns (timedOut: nat)
      requires actions.db == db
      modifies db
      ensures db.View() == TimeOut(cfg, old(db.View()), now)
      ensures timedOut == |set id | id in old(db.actions) && Unanswered(cfg, old(db.actions)[id], now)|
      ensures TimedOutExactly(cfg, old(db.View()), db.View(), now)
    {
      var listed := StaleDispatches(db.actions, now - cfg.dispatchTimeout);
      var todo := listed;
      ghost var rows, done := db.actions, {};
      timedOut := 0;
      assert TimedOutRows(rows, done, now) == rows;
      while todo != {}
        invariant listed <= rows.Keys && done !! todo && done + todo == listed && timedOut == |done|
        invariant db.View() == old(db.View()).(actions := TimedOutRows(rows, done, now))
        decreases |todo|
      {
        var id :| id in todo;
        MarkOneMore(rows, done, id, now);
        var marked := actions.MarkResult(id, Failed, Some(TimedOut), now);
        todo, done := todo - {id}, done + {id};
        timedOut := timedOut + 1;
      }
      assert done == listed;
      assert listed == set id | id in rows && Unanswered(cfg, rows[id], now);
      TimeOutMeans(cfg, old(db.View()), now);
    }
  }

  // ----- reconciliation, then retention -----

  function Converged(cfg: Config, db: Db, now: Time): Db {
    Sweep(cfg, TimeOut(cfg, db, now), now)
  }

  predicate NothingOlder(actions: Actions, cutoff: Time) {
    forall id :: id in actions ==> cutoff <= actions[id].createdAt
  }

  /** The only resolved alerts left past their window are those a younger action references. */
  predicate OnlyReferencedOlder(db: Db, cutoff: Time, actionsCutoff: Time) {
    forall id :: id in db.alerts && db.alerts[id].status == Resolved && db.alerts[id].resolvedAt.Some?
                 && db.alerts[id].resolvedAt.value < cutoff ==>
      exists a :: a in db.actions && db.actions[a].alertId == id && actionsCutoff <= db.actions[a].createdAt
  }

  /** Both halves of convergence. */
  predicate IsConverged(cfg: Config, db: Db, now: Time) {
    && NothingOlder(db.actions, now - cfg.actionsRetention)
    && OnlyReferencedOlder(db, now - cfg.alertsRetention, now - cfg.actionsRetention)
  }

  /** With a timeout inside the retention window, the two jobs leave no action
      older than the window, and the only resolved alerts past theirs are those
      a younger action still references. */
  lemma AuditLogConverges(cfg: Config, db: Db, now: Time)
    requires cfg.dispatchTimeout <= cfg.actionsRetention
    ensures IsConverged(cfg, Converged(cfg, db, now), now)
  {
    var timedOut, after := TimeOut(cfg, db, now), Converged(cfg, db, now);
    var cutoff := now - cfg.alertsRetention;
    SweepActions(cfg, timedOut, now);
    forall id | id in after.actions ensures now - cfg.actionsRetention <= after.actions[id].createdAt {
      assert id !in DoomedActions(timedOut.actions, now - cfg.actionsRetention);
    }
    forall id | id in after.alerts && after.alerts[id].status == Resolved && after.alerts[id].resolvedAt.Some?
      ensures cutoff <= after.alerts[id].resolvedAt.value || Referenced(after.actions, id)
    {
      assert id !in DoomedAlerts(timedOut.alerts, after.actions, cutoff);
    }
  }

  /** A dispatch between the two ages: too old to keep, too young to time out. */
  function Straggler(cfg: Config, now: Time): Action {
    Action(0, "node", 0, "key", "playbook", Noop, map[], Dispatched, None, now - cfg.dispatchTimeout, None)
  }

  /** The alert it was dispatched for, resolved since, and long enough ago. */
  function OldAlert(cfg: Config, now: Time): Alert {
    var at := now - cfg.alertsRetention - 1;
    NewAlert(0, AlertDraft("node", "key", Threshold, Warning, "", 0.0, 0.0, at)).(status := Resolved,
      resolvedAt := Some(at))
  }

  /** A database in which they are all there is. */
  function StragglerDb(cfg: Config, now: Time): (db: Db)
    ensures DbOk(db)
  {
    EMPTY.(actions := map[0 := Straggler(cfg, now)], nextAction := 1,
           alerts := map[0 := OldAlert(cfg, now)], nextAlert := 1)
  }

  /** Every well-formed database converges, in both halves, exactly if the timeout does not exceed the retention window,
      and so does each half alone. */
  lemma ConvergesExactlyWhenTimeoutFits(cfg: Config, now: Time)
    ensures (forall db: Db :: DbOk(db) ==> IsConverged(cfg, Converged(cfg, db, now), now))
       <==> cfg.dispatchTimeout <= cfg.actionsRetention
    ensures (forall db: Db :: DbOk(db) ==> NothingOlder(Converged(cfg, db, now).actions, now - cfg.actionsRetention))
       <==> cfg.dispatchTimeout <= cfg.actionsRetention
    ensures (forall db: Db :: DbOk(db) ==>
               OnlyReferencedOlder(Converged(cfg, db, now), now - cfg.alertsRetention, now - cfg.actionsRetention))
       <==> cfg.dispatchTimeout <= cfg.actionsRetention
  {
    if cfg.dispatchTimeout <= cfg.actionsRetention {
      forall db: Db | DbOk(db) ensures IsConverged(cfg, Converged(cfg, db, now), now) {
        AuditLogConverges(cfg, db, now);
      }
    } else {
      StragglerStays(cfg, now);
    }
  }

  lemma StragglerStays(cfg: Config, now: Time)
    requires cfg.actionsRetention < cfg.dispatchTimeout
    ensures var db := Converged(cfg, StragglerDb(cfg, now), now);
            && !NothingOlder(db.actions, now - cfg.actionsRetention)
            && !OnlyReferencedOlder(db, now - cfg.alertsRetention, now - cfg.actionsRetention)
  {
    var db, after := StragglerDb(cfg, now), Converged(cfg, StragglerDb(cfg, now), now);
    assert TimeOut(cfg, db, now).actions == db.actions;
    SweepActions(cfg, TimeOut(cfg, db, now), now);
    assert 0 in after.actions && after.actions[0] == Straggler(cfg, now);
    assert Referenced(after.actions, 0);
    assert 0 in after.alerts && after.alerts[0] == OldAlert(cfg, now);
    assert after.actions.Keys <= {0};
  }
}
