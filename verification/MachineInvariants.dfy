/** Every reachable state of the machine is well formed: unique firing alerts,
    references, fresh ids, and reads that stay true until they are acted on. */
module MachineInvariants {
  import opened Model
  import opened Tables
  import opened Rules
  import opened Alerting
  import opened Machine

  /** The same alerts fire for the keys in question. */
  ghost predicate SameOpen(a: Alerts, b: Alerts, reserved: bool) {
    forall id, node, key {:trigger IsOpen(b, id, node, key)} :: (key == STALENESS_KEY) == reserved ==>
      (IsOpen(a, id, node, key) <==> IsOpen(b, id, node, key))
  }

  lemma RequestStable(a: Alerts, b: Alerts, q: Request)
    requires RequestOk(a, q) && SameOpen(a, b, false)
    ensures RequestOk(b, q)
  {
  }

  lemma JobStable(a: Db, b: Db, job: Job)
    requires JobOk(a, job) && SameOpen(a.alerts, b.alerts, true)
    requires forall id :: id in a.actions && a.actions[id].status != Blocked ==>
               id in b.actions && b.actions[id].status != Blocked
    ensures JobOk(b, job)
  {
  }

  /** Counters only grow, a settled row stays settled, and a new id was never used. */
  ghost predicate AuditKept(a: Db, b: Db) {
    && a.nextAlert <= b.nextAlert && a.nextAction <= b.nextAction
    && (forall id :: id in b.actions && id in a.actions && a.actions[id].status != Blocked ==>
          b.actions[id].status != Blocked)
    && (forall id :: id in b.actions && id !in a.actions ==> a.nextAction <= id)
  }

  lemma CallsStable(a: Db, b: Db, calls: set<Call>)
    requires CallsOk(a, calls) && AuditKept(a, b)
    ensures CallsOk(b, calls)
  {
  }

  lemma DecideStepInv(cfg: Config, s: System)
    requires Inv(s) && (s.request.CheckingCooldown? || s.request.CheckingRate? || s.request.Recording?)
    ensures Inv(DecideStep(cfg, s))
  {
    var q := s.request;
    if q.Recording? {
      var row := NewAction(s.world.db.nextAction, q.c.node, q.id, q.c.r.ruleKey, q.playbook, q.reason, q.c.at);
      CreateActionOk(s.world.db, row);
      JobStable(s.world.db, CreateAction(s.world.db, row), s.job);
      CallsStable(s.world.db, CreateAction(s.world.db, row), s.calls);
    }
  }

  /** A write to an open alert that leaves it open. */
  lemma RewriteInv(s: System, id: nat, row: Alert)
    requires Inv(s) && id in s.world.db.alerts && Rewrites(s.world.db.alerts[id], row)
    requires row.status == s.world.db.alerts[id].status
    ensures var db := SetAlert(s.world.db, row);
            DbOk(db) && RequestOk(db.alerts, s.request) && JobOk(db, s.job) && CallsOk(db, s.calls)
    ensures forall node, key :: IsOpen(s.world.db.alerts, id, node, key) ==>
              IsOpen(SetAlert(s.world.db, row).alerts, id, node, key)
  {
    SetAlertOk(s.world.db, id, row);
    RequestStable(s.world.db.alerts, SetAlert(s.world.db, row).alerts, s.request);
    JobStable(s.world.db, SetAlert(s.world.db, row), s.job);
  }

  lemma OpenStepInv(cfg: Config, s: System)
    requires Inv(s) && s.request.Opening?
    ensures Inv(ProceedStep(cfg, s))
  {
    var c, db := s.request.c, s.world.db;
    var d := DraftOf(c.node, c.r, c.at);
    CreateAlertOk(db, d);
    JobStable(db, CreateAlert(db, d), s.job);
  }

  lemma ResolveStepInv(cfg: Config, s: System)
    requires Inv(s) && s.request.Resolving?
    ensures Inv(ProceedStep(cfg, s))
  {
    var id, db := s.request.id, s.world.db;
    var row := ResolvedRow(db.alerts[id], s.request.c.at);
    SetAlertOk(db, id, row);
    JobStable(db, SetAlert(db, row), s.job);
  }

  lemma RewriteStepInv(cfg: Config, s: System)
    requires Inv(s) && (s.request.Advancing? || s.request.Escalating? || s.request.Marking?)
    ensures Inv(ProceedStep(cfg, s))
  {
    var c, id := s.request.c, s.request.id;
    var row := s.world.db.alerts[id];
    match s.request
    case Advancing(_, _) => RewriteInv(s, id, AdvancedRow(row, c.r.value, c.at));
    case Escalating(_, _, _) => RewriteInv(s, id, EscalatedRow(row, c.at));
    case Marking(_, _, _) => RewriteInv(s, id, RemediatedRow(row, c.at));
  }

  lemma EvaluateStepInv(cfg: Config, s: System)
    requires Inv(s) && (s.request.Inserting? || s.request.Evaluating?)
    ensures Inv(ProceedStep(cfg, s))
  {
    match s.request
    case Inserting(p, receivedAt) =>
      BulkInsertOk(s.world.db, p, receivedAt);
      JobStable(s.world.db, BulkInsert(s.world.db, p, receivedAt), s.job);
    case Evaluating(p, i, results) =>
      if i < |p.samples| {
        ReadingKeys(cfg, s.world.db.samples, p.nodeId, p.samples, i, p.collectedAt);
      }
  }

  lemma ProceedStepInv(cfg: Config, s: System)
    requires Inv(s)
    ensures Inv(ProceedStep(cfg, s))
  {
    match s.request
    case Idle =>
    case Inserting(_, _) => EvaluateStepInv(cfg, s);
    case Evaluating(_, _, _) => EvaluateStepInv(cfg, s);
    case Finding(_, _, _, _) =>
    case Opening(_) => OpenStepInv(cfg, s);
    case Resolving(_, _) => ResolveStepInv(cfg, s);
    case Advancing(_, _) => RewriteStepInv(cfg, s);
    case Escalating(_, _, _) => RewriteStepInv(cfg, s);
    case Marking(_, _, _) => RewriteStepInv(cfg, s);
    case _ => DecideStepInv(cfg, s);
  }

  lemma SweepWriteInv(cfg: Config, s: System)
    requires Inv(s) && s.job.SweepWriting?
    ensures Inv(JobStep(cfg, s, StaleWrite))
  {
    var w := s.world;
    var w' := SweepWrite(cfg, w, s.swept, s.job.now, s.job.node, s.job.lastSeen, s.job.found);
    if IsStale(cfg, s.job.now, s.job.lastSeen) {
      if s.job.found.None? && s.swept {
        CreateAlertOk(w.db, StaleDraft(cfg, s.job.node, s.job.now, s.job.lastSeen));
      }
    } else if s.job.found.Some? {
      SetAlertOk(w.db, s.job.found.value, ResolvedRow(w.db.alerts[s.job.found.value], s.job.now));
    }
    RequestStable(w.db.alerts, w'.db.alerts, s.request);
  }

  lemma PruneInv(cfg: Config, s: System, e: Event)
    requires Inv(s) && IsPrune(e) && PruneEnabled(cfg, s, e)
    ensures Inv(s.(world := s.world.(db := PruneDb(s.world.db, e))))
  {
    var db, db' := s.world.db, PruneDb(s.world.db, e);
    forall i, j, node, key | IsOpen(db'.alerts, i, node, key) && IsOpen(db'.alerts, j, node, key) ensures i == j {
      assert IsOpen(db.alerts, i, node, key) && IsOpen(db.alerts, j, node, key);
    }
    if e.PruneAlerts? {
      forall id | id in db.actions ensures db.actions[id].alertId in db'.alerts {
        assert Referenced(db.actions, db.actions[id].alertId);
      }
    }
    RequestStable(db.alerts, db'.alerts, s.request);
  }

  lemma JobStepInv(cfg: Config, s: System, e: Event)
    requires Inv(s)
    ensures Inv(JobStep(cfg, s, e))
  {
    match e
    case StaleWrite =>
      if s.job.SweepWriting? {
        SweepWriteInv(cfg, s);
      }
    case TimeOutMark(id) =>
      if s.job.TimingOut? && id in s.job.ids && id in s.world.db.actions {
        MarkResultOk(s.world.db, id, Failed, Some(TimedOut), s.job.now);
      }
    case _ =>
  }

  lemma FrontInv(cfg: Config, s: System, e: Event)
    requires Inv(s) && IsFront(e)
    ensures Inv(Step(cfg, s, e))
  {
  }

  /** The row is in the state in which the call is let through. */
  predicate Admitted(db: Db, c: Call) {
    WhyRefused(db, c).None?
  }

  /** A call's read writes nothing. */
  lemma ReadCallFrame(s: System, c: Call)
    ensures var s' := ReadCall(s, c);
            && s'.world == s.world && s'.request == s.request && s'.job == s.job && s'.swept == s.swept
            && NoDecision(s.out, s'.out)
            && s'.calls == if Admitted(s.world.db, c) then s.calls + {c} else s.calls
  {
  }

  /** A call's write writes its row and nothing else, and the call is over. */
  lemma WriteCallFrame(s: System, c: Call, at: Time)
    ensures var s', db := WriteCall(s, c, at), s.world.db;
            && s'.world == s.world.(db := if c in s.calls && Present(db, c) then Written(db, c, at) else db)
            && s'.request == s.request && s'.job == s.job && s'.swept == s.swept
            && NoDecision(s.out, s'.out) && s'.calls == s.calls - {c}
  {
  }

  lemma FailCallFrame(s: System, c: Call)
    ensures var s' := FailCall(s, c);
            && s'.world == s.world && s'.request == s.request && s'.job == s.job && s'.swept == s.swept
            && NoDecision(s.out, s'.out) && s'.calls == s.calls - {c}
  {
  }

  lemma ReadCallInv(s: System, c: Call)
    requires Inv(s)
    ensures Inv(ReadCall(s, c))
  {
    ReadCallFrame(s, c);
  }

  lemma WriteCallInv(s: System, c: Call, at: Time)
    requires Inv(s)
    ensures Inv(WriteCall(s, c, at))
  {
    if c in s.calls && Present(s.world.db, c) {
      if c.Acknowledging? {
        RewriteInv(s, c.id, AcknowledgedRow(s.world.db.alerts[c.id], c.who, at));
      } else {
        var db := Written(s.world.db, c, at);
        MarkResultOk(s.world.db, c.id, ResultStatus(c.executed), Some(Message(c.text)), at);
        JobStable(s.world.db, db, s.job);
        CallsStable(s.world.db, db, s.calls);
      }
    }
  }

  lemma CallInv(cfg: Config, s: System, e: Event)
    requires Inv(s) && IsCall(e)
    ensures Inv(Step(cfg, s, e))
  {
    match e
    case CallReads(c) => ReadCallInv(s, c);
    case CallWrites(c, at) => WriteCallInv(s, c, at);
    case CallFails(_) =>
  }

  /** At most one alert fires per node and rule key, every audit row references
      an existing alert, ids are never reused and completion times are set
      exactly for reported or timed-out actions, after every repository call. */
  lemma StepInv(cfg: Config, s: System, e: Event)
    requires Inv(s)
    ensures Inv(Step(cfg, s, e))
  {
    if e.Proceed? {
      ProceedStepInv(cfg, s);
    } else if IsFront(e) {
      FrontInv(cfg, s, e);
    } else if IsCall(e) {
      CallInv(cfg, s, e);
    } else if IsPrune(e) {
      if PruneEnabled(cfg, s, e) {
        PruneInv(cfg, s, e);
      }
    } else {
      JobStepInv(cfg, s, e);
    }
  }

  lemma {:induction false} RunInv(cfg: Config, s: System, es: seq<Event>)
    requires Inv(s)
    ensures Inv(Run(cfg, s, es))
  {
    if es != [] {
      RunInv(cfg, s, es[..|es| - 1]);
      StepInv(cfg, Run(cfg, s, es[..|es| - 1]), es[|es| - 1]);
    }
  }

  /** In every state reachable from an empty database, under any interleaving of
      the request thread and the job thread and any faults: one firing alert per
      node and key, and no dangling audit row. */
  lemma OneFiringAlertPerKey(cfg: Config, es: seq<Event>, i: nat, j: nat)
    requires var alerts := Run(cfg, INITIAL, es).world.db.alerts;
             && i in alerts && j in alerts
             && alerts[i].status == Firing && alerts[j].status == Firing
             && alerts[i].nodeId == alerts[j].nodeId && alerts[i].ruleKey == alerts[j].ruleKey
    ensures i == j
  {
    RunInv(cfg, INITIAL, es);
    var alerts := Run(cfg, INITIAL, es).world.db.alerts;
    assert IsOpen(alerts, i, alerts[i].nodeId, alerts[i].ruleKey);
    assert IsOpen(alerts, j, alerts[i].nodeId, alerts[i].ruleKey);
  }

  // ----- what each thread leaves alone -----

  /** Audit rows stay as they are; at most one new row, awaiting a result or blocked, takes the next id. */
  ghost predicate OnlyNewActions(a: Db, b: Db) {
    && a.nextAction <= b.nextAction
    && (forall id :: id in a.actions ==> id in b.actions && b.actions[id] == a.actions[id])
    && (forall id :: id in b.actions && id !in a.actions ==>
          id == a.nextAction < b.nextAction && !HasResult(b.actions[id].status))
  }

  lemma ProceedKeepsActions(cfg: Config, s: System)
    requires !s.request.Recording?
    ensures var s' := ProceedStep(cfg, s);
            && s'.world.db.actions == s.world.db.actions && s'.world.db.nextAction == s.world.db.nextAction
            && s'.job == s.job && s'.swept == s.swept
  {
    match s.request
    case CheckingCooldown(_, _, _, _) => assert DecideStep(cfg, s).world == s.world;
    case CheckingRate(_, _, _, _) => assert DecideStep(cfg, s).world == s.world;
    case _ =>
  }

  lemma RecordFrame(cfg: Config, s: System)
    requires ActionsOk(s.world.db.actions, s.world.db.nextAction) && s.request.Recording?
    ensures OnlyNewActions(s.world.db, DecideStep(cfg, s).world.db)
    ensures DecideStep(cfg, s).job == s.job && DecideStep(cfg, s).swept == s.swept
  {
    assert forall id :: id in s.world.db.actions ==> id != s.world.db.nextAction;
  }

  /** The request thread adds audit rows, and never touches the job thread. */
  lemma ProceedFrame(cfg: Config, s: System)
    requires ActionsOk(s.world.db.actions, s.world.db.nextAction)
    ensures OnlyNewActions(s.world.db, ProceedStep(cfg, s).world.db)
    ensures ProceedStep(cfg, s).job == s.job && ProceedStep(cfg, s).swept == s.swept
  {
    if s.request.Recording? {
      RecordFrame(cfg, s);
    } else {
      ProceedKeepsActions(cfg, s);
    }
  }

  /** The request thread never touches the calls of others. */
  lemma ProceedCalls(cfg: Config, s: System)
    ensures ProceedStep(cfg, s).calls == s.calls
  {
    match s.request
    case CheckingCooldown(_, _, _, _) => assert DecideStep(cfg, s).calls == s.calls;
    case CheckingRate(_, _, _, _) => assert DecideStep(cfg, s).calls == s.calls;
    case Recording(_, _, _, _, _) => assert DecideStep(cfg, s).calls == s.calls;
    case _ =>
  }

  /** The job thread rewrites audit rows only to time them out, and never touches the request or the outputs. */
  lemma JobFrame(cfg: Config, s: System, e: Event)
    ensures var s' := JobStep(cfg, s, e);
            && s'.out == s.out && s'.request == s.request
            && s'.world.db.nextAction == s.world.db.nextAction
            && (!e.TimeOutMark? ==> s'.world.db.actions == s.world.db.actions)
  {
    match e
    case StaleWrite =>
      if s.job.SweepWriting? {
        var w' := SweepWrite(cfg, s.world, s.swept, s.job.now, s.job.node, s.job.lastSeen, s.job.found);
        assert w'.db.actions == s.world.db.actions && w'.db.nextAction == s.world.db.nextAction;
      }
    case _ =>
  }
}
