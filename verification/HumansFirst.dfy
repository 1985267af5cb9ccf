/** A human gets the first chance, and automation gets one attempt per alert. */
module HumansFirst {
  import opened Model
  import opened Tables
  import opened Rules
  import opened Alerting
  import opened Machine
  import opened MachineInvariants

  /** How many remediation decisions were ever recorded for an alert. */
  function Attempts(out: seq<Output>, alertId: nat): nat {
    if out == [] then 0
    else
      var n := |out| - 1;
      Attempts(out[..n], alertId) + (if out[n].Decided? && out[n].action.alertId == alertId then 1 else 0)
  }

  /** The second commit of a decision, marking the alert, failed after the first. */
  predicate LosesMark(q: Request, e: Event, alertId: nat) {
    Marks(q, alertId) && (e.RequestFault? || e.Restart?)
  }

  ghost function LostMarks(cfg: Config, s: System, es: seq<Event>, alertId: nat): nat {
    if es == [] then 0
    else
      var n := |es| - 1;
      LostMarks(cfg, s, es[..n], alertId) + (if LosesMark(Run(cfg, s, es[..n]).request, es[n], alertId) then 1 else 0)
  }

  /** Nobody has acknowledged the alert, it has escalated, and it is old enough. */
  predicate HadChance(cfg: Config, row: Alert, at: Time) {
    ShouldRemediate(cfg, row, at) && row.escalatedAt.Some?
  }

  /** The same alert but for acknowledgements that may have come in between. */
  predicate SameButAcknowledged(seen: Alert, row: Alert) {
    row == seen.(acknowledgedAt := row.acknowledgedAt, acknowledgedBy := row.acknowledgedBy)
  }

  /** What the request relies on while it escalates or remediates: the alert as it read it. */
  ghost predicate Relies(cfg: Config, alerts: Alerts, q: Request) {
    match q
    case Escalating(c, id, seen) =>
      id in alerts && ShouldEscalate(cfg, seen, c.at) && SameButAcknowledged(seen, alerts[id])
    case CheckingCooldown(c, id, seen, _) =>
      id in alerts && HadChance(cfg, seen, c.at) && SameButAcknowledged(seen, alerts[id])
    case CheckingRate(c, id, seen, _) =>
      id in alerts && HadChance(cfg, seen, c.at) && SameButAcknowledged(seen, alerts[id])
    case Recording(c, id, seen, _, _) =>
      id in alerts && HadChance(cfg, seen, c.at) && SameButAcknowledged(seen, alerts[id])
    case Marking(c, id, _) => id in alerts && alerts[id].remediatedAt.None?
    case _ => true
  }

  ghost predicate DecisionsOk(cfg: Config, out: seq<Output>) {
    forall i :: 0 <= i < |out| && out[i].Decided? ==>
      && HadChance(cfg, out[i].alert, out[i].action.createdAt)
      && out[i].action.alertId == out[i].alert.id
  }

  /** The verdict in flight has read the alert as one to escalate. */
  predicate Escalates(q: Request, alertId: nat) {
    q.Escalating? && q.id == alertId
  }

  /** The verdict in flight has read the alert as one to remediate. */
  predicate Decides(q: Request, alertId: nat) {
    (q.CheckingCooldown? || q.CheckingRate? || q.Recording?) && q.id == alertId
  }

  /** The verdict in flight has recorded its decision and is about to mark the alert. */
  predicate Marks(q: Request, alertId: nat) {
    q.Marking? && q.id == alertId
  }

  /** The alert carries the mark of its attempt, or is about to. */
  predicate Marked(s: System, alertId: nat)
    requires alertId in s.world.db.alerts
  {
    s.world.db.alerts[alertId].remediatedAt.Some? || Marks(s.request, alertId)
  }

  /** Every attempt is accounted for by the alert's mark or by a mark that was lost. */
  ghost predicate Budget(s: System, alertId: nat, lost: nat) {
    var db, attempts := s.world.db, Attempts(s.out, alertId);
    && (db.nextAlert <= alertId ==> attempts == lost == 0)
    && attempts <= lost + 1
    && (alertId in db.alerts ==> attempts == lost + if Marked(s, alertId) then 1 else 0)
  }

  ghost predicate HumanInv(cfg: Config, s: System, alertId: nat, lost: nat) {
    && Relies(cfg, s.world.db.alerts, s.request)
    && DecisionsOk(cfg, s.out)
    && Budget(s, alertId, lost)
  }

  // ----- frames -----

  lemma QuietAttempts(before: seq<Output>, after: seq<Output>, alertId: nat)
    requires NoDecision(before, after)
    ensures Attempts(after, alertId) == Attempts(before, alertId)
  {
    if after != before {
      assert after == before + [after[|before|]];
    }
  }

  predicate SameMarks(a: Alert, b: Alert) {
    && (a.acknowledgedAt.Some? ==> b.acknowledgedAt.Some?)
    && b.escalatedAt == a.escalatedAt
    && b.remediatedAt == a.remediatedAt
  }

  /** Rows keep their marks; new rows take fresh ids. */
  ghost predicate KeepsMarks(a: Db, b: Db) {
    && a.nextAlert <= b.nextAlert
    && (forall id :: id in b.alerts && id in a.alerts ==> SameMarks(a.alerts[id], b.alerts[id]))
    && (forall id :: id in b.alerts && id !in a.alerts ==>
          a.nextAlert <= id < b.nextAlert && b.alerts[id].remediatedAt.None?)
  }

  /** A firing alert of a configured rule belongs to the request thread, but for its acknowledgement. */
  ghost predicate KeepsOpenRows(a: Alerts, b: Alerts) {
    forall id :: id in a && a[id].status == Firing && a[id].ruleKey != STALENESS_KEY ==>
      id in b && SameButAcknowledged(a[id], b[id])
  }

  /** What a step outside the request thread leaves alone. */
  ghost predicate LeavesRequest(s: System, s': System, faulted: bool) {
    && NoDecision(s.out, s'.out)
    && (s'.request == s.request || s'.request.Idle? || s'.request.Inserting?)
    && (s'.request != s.request && s.request.Marking? ==> faulted)
    && (faulted ==> s'.request.Idle?)
    && KeepsMarks(s.world.db, s'.world.db)
    && KeepsOpenRows(s.world.db.alerts, s'.world.db.alerts)
  }

  lemma OpenFrame(w: World, d: AlertDraft)
    requires AlertsOk(w.db.alerts, w.db.nextAlert)
    ensures var db' := OpenAlert(w, d).db;
            KeepsMarks(w.db, db') && KeepsOpenRows(w.db.alerts, db'.alerts)
  {
  }

  lemma ResolveFrame(w: World, id: nat, at: Time)
    requires AlertsOk(w.db.alerts, w.db.nextAlert)
    requires id in w.db.alerts && w.db.alerts[id].ruleKey == STALENESS_KEY
    ensures var db' := ResolveAlert(w, id, at).db;
            KeepsMarks(w.db, db') && KeepsOpenRows(w.db.alerts, db'.alerts)
  {
  }

  lemma SweepFrame(cfg: Config, s: System)
    requires DbOk(s.world.db) && JobOk(s.world.db, s.job) && s.job.SweepWriting?
    ensures var db' := SweepWrite(cfg, s.world, s.swept, s.job.now, s.job.node, s.job.lastSeen, s.job.found).db;
            KeepsMarks(s.world.db, db') && KeepsOpenRows(s.world.db.alerts, db'.alerts)
  {
    if IsStale(cfg, s.job.now, s.job.lastSeen) {
      OpenFrame(s.world, StaleDraft(cfg, s.job.node, s.job.now, s.job.lastSeen));
    } else if s.job.found.Some? {
      ResolveFrame(s.world, s.job.found.value, s.job.now);
    }
  }

  lemma JobLeavesRequest(cfg: Config, s: System, e: Event)
    requires Inv(s) && IsJob(e)
    ensures LeavesRequest(s, Step(cfg, s, e), false)
  {
    if e.StaleWrite? {
      if s.job.SweepWriting? {
        SweepFrame(cfg, s);
      }
    } else {
      assert JobStep(cfg, s, e).world.db.alerts == s.world.db.alerts;
    }
  }

  lemma PruneLeavesRequest(cfg: Config, s: System, e: Event)
    requires IsPrune(e)
    ensures LeavesRequest(s, Step(cfg, s, e), false)
  {
  }

  lemma FrontLeavesRequest(cfg: Config, s: System, e: Event)
    requires IsFront(e)
    ensures LeavesRequest(s, Step(cfg, s, e), e.RequestFault? || e.Restart?)
  {
  }

  lemma AcknowledgeFrame(db: Db, c: Call, at: Time)
    requires DbOk(db) && Present(db, c)
    ensures KeepsMarks(db, Written(db, c, at)) && KeepsOpenRows(db.alerts, Written(db, c, at).alerts)
  {
  }

  lemma CallLeavesRequest(cfg: Config, s: System, e: Event)
    requires DbOk(s.world.db) && IsCall(e)
    ensures LeavesRequest(s, Step(cfg, s, e), false)
  {
    if e.CallWrites? && e.c in s.calls && Present(s.world.db, e.c) {
      AcknowledgeFrame(s.world.db, e.c, e.at);
      assert WriteCall(s, e.c, e.at).world.db == Written(s.world.db, e.c, e.at);
    } else {
      assert Step(cfg, s, e).world == s.world;
    }
  }

  lemma OutsideFrame(cfg: Config, s: System, e: Event)
    requires Inv(s) && !e.Proceed?
    ensures LeavesRequest(s, Step(cfg, s, e), e.RequestFault? || e.Restart?)
  {
    if IsFront(e) {
      FrontLeavesRequest(cfg, s, e);
    } else if IsCall(e) {
      CallLeavesRequest(cfg, s, e);
    } else if IsPrune(e) {
      PruneLeavesRequest(cfg, s, e);
    } else {
      JobLeavesRequest(cfg, s, e);
    }
  }

  // ----- steps -----

  lemma OutsideRelies(cfg: Config, s: System, s': System, faulted: bool)
    requires Inv(s) && Relies(cfg, s.world.db.alerts, s.request) && LeavesRequest(s, s', faulted)
    ensures Relies(cfg, s'.world.db.alerts, s'.request)
  {
  }

  lemma QuietDecisions(cfg: Config, before: seq<Output>, after: seq<Output>)
    requires NoDecision(before, after) && DecisionsOk(cfg, before)
    ensures DecisionsOk(cfg, after)
  {
    assert forall i :: 0 <= i < |before| && after != before ==> after[i] == after[..|before|][i];
  }

  lemma OutsideBudget(s: System, s': System, faulted: bool, alertId: nat, lost: nat)
    requires LeavesRequest(s, s', faulted) && Budget(s, alertId, lost)
    requires Marks(s.request, alertId) ==>
               alertId in s.world.db.alerts && s.world.db.alerts[alertId].remediatedAt.None?
    ensures Budget(s', alertId, lost + if faulted && Marks(s.request, alertId) then 1 else 0)
  {
    QuietAttempts(s.out, s'.out, alertId);
  }

  lemma OutsideHuman(cfg: Config, s: System, e: Event, alertId: nat, lost: nat)
    requires Inv(s) && HumanInv(cfg, s, alertId, lost) && !e.Proceed?
    ensures HumanInv(cfg, Step(cfg, s, e), alertId, lost + if LosesMark(s.request, e, alertId) then 1 else 0)
  {
    var s', faulted := Step(cfg, s, e), e.RequestFault? || e.Restart?;
    OutsideFrame(cfg, s, e);
    OutsideRelies(cfg, s, s', faulted);
    QuietDecisions(cfg, s.out, s'.out);
    OutsideBudget(s, s', faulted, alertId, lost);
  }

  lemma RecordHuman(cfg: Config, s: System, alertId: nat, lost: nat)
    requires Inv(s) && HumanInv(cfg, s, alertId, lost) && s.request.Recording?
    ensures HumanInv(cfg, ProceedStep(cfg, s), alertId, lost)
  {
    RecordDecision(cfg, s);
    RecordBudget(cfg, s, alertId, lost);
  }

  lemma RecordDecision(cfg: Config, s: System)
    requires Inv(s) && Relies(cfg, s.world.db.alerts, s.request) && DecisionsOk(cfg, s.out) && s.request.Recording?
    ensures var s' := ProceedStep(cfg, s);
            Relies(cfg, s'.world.db.alerts, s'.request) && DecisionsOk(cfg, s'.out)
  {
    assert ProceedStep(cfg, s).out[..|s.out|] == s.out;
  }

  lemma RecordBudget(cfg: Config, s: System, alertId: nat, lost: nat)
    requires Inv(s) && Relies(cfg, s.world.db.alerts, s.request) && Budget(s, alertId, lost) && s.request.Recording?
    ensures Budget(ProceedStep(cfg, s), alertId, lost)
  {
    assert ProceedStep(cfg, s).out[..|s.out|] == s.out;
  }

  lemma MarkHuman(cfg: Config, s: System, alertId: nat, lost: nat)
    requires Inv(s) && HumanInv(cfg, s, alertId, lost) && s.request.Marking?
    ensures HumanInv(cfg, ProceedStep(cfg, s), alertId, lost)
  {
  }

  lemma AdvanceRelies(cfg: Config, s: System)
    requires cfg.Valid() && DbOk(s.world.db) && s.request.Advancing?
    ensures Relies(cfg, ProceedStep(cfg, s).world.db.alerts, ProceedStep(cfg, s).request)
  {
  }

  lemma AdvanceHuman(cfg: Config, s: System, alertId: nat, lost: nat)
    requires cfg.Valid() && Inv(s) && HumanInv(cfg, s, alertId, lost) && s.request.Advancing?
    ensures HumanInv(cfg, ProceedStep(cfg, s), alertId, lost)
  {
    AdvanceRelies(cfg, s);
    AdvanceFrame(cfg, s);
    QuietDecisions(cfg, s.out, ProceedStep(cfg, s).out);
    AdvanceBudget(cfg, s, alertId, lost);
  }

  lemma AdvanceFrame(cfg: Config, s: System)
    requires Inv(s) && s.request.Advancing?
    ensures var s' := ProceedStep(cfg, s);
            && NoDecision(s.out, s'.out) && KeepsMarks(s.world.db, s'.world.db)
            && s'.world.db.alerts.Keys == s.world.db.alerts.Keys && !s'.request.Marking?
  {
  }

  lemma AdvanceBudget(cfg: Config, s: System, alertId: nat, lost: nat)
    requires Inv(s) && Budget(s, alertId, lost) && s.request.Advancing?
    ensures Budget(ProceedStep(cfg, s), alertId, lost)
  {
    AdvanceFrame(cfg, s);
    QuietAttempts(s.out, ProceedStep(cfg, s).out, alertId);
  }

  lemma EscalateHuman(cfg: Config, s: System, alertId: nat, lost: nat)
    requires Inv(s) && HumanInv(cfg, s, alertId, lost) && s.request.Escalating?
    ensures HumanInv(cfg, ProceedStep(cfg, s), alertId, lost)
  {
    QuietAttempts(s.out, ProceedStep(cfg, s).out, alertId);
  }

  lemma OpenCloseHuman(cfg: Config, s: System, alertId: nat, lost: nat)
    requires Inv(s) && HumanInv(cfg, s, alertId, lost) && (s.request.Opening? || s.request.Resolving?)
    ensures HumanInv(cfg, ProceedStep(cfg, s), alertId, lost)
  {
  }

  lemma ReadHuman(cfg: Config, s: System, alertId: nat, lost: nat)
    requires Inv(s) && HumanInv(cfg, s, alertId, lost)
    requires s.request.Idle? || s.request.Inserting? || s.request.Evaluating? || s.request.Finding?
             || s.request.CheckingCooldown? || s.request.CheckingRate?
    ensures HumanInv(cfg, ProceedStep(cfg, s), alertId, lost)
  {
    var s' := ProceedStep(cfg, s);
    ReadOwnMarks(cfg, s);
    ReadRelies(cfg, s);
    QuietDecisions(cfg, s.out, s'.out);
    QuietAttempts(s.out, s'.out, alertId);
  }

  lemma ReadRelies(cfg: Config, s: System)
    requires Relies(cfg, s.world.db.alerts, s.request)
    requires s.request.Idle? || s.request.Inserting? || s.request.Evaluating? || s.request.Finding?
             || s.request.CheckingCooldown? || s.request.CheckingRate?
    ensures var s' := ProceedStep(cfg, s);
            Relies(cfg, s.world.db.alerts, s'.request) && NoDecision(s.out, s'.out) && !s'.request.Marking?
  {
    match s.request
    case Finding(node, at, todo, dispatched) =>
      if todo != [] {
        var q := Look(s.world.db.alerts, Ctx(node, at, todo[0], todo[1..], dispatched));
        assert q.Finding? || q.Opening? || q.Resolving? || q.Advancing?;
      }
    case _ =>
  }

  lemma ProceedHuman(cfg: Config, s: System, alertId: nat, lost: nat)
    requires cfg.Valid() && Inv(s) && HumanInv(cfg, s, alertId, lost)
    ensures HumanInv(cfg, ProceedStep(cfg, s), alertId, lost)
  {
    match s.request
    case Recording(_, _, _, _, _) => RecordHuman(cfg, s, alertId, lost);
    case Marking(_, _, _) => MarkHuman(cfg, s, alertId, lost);
    case Advancing(_, _) => AdvanceHuman(cfg, s, alertId, lost);
    case Escalating(_, _, _) => EscalateHuman(cfg, s, alertId, lost);
    case Opening(_) => OpenCloseHuman(cfg, s, alertId, lost);
    case Resolving(_, _) => OpenCloseHuman(cfg, s, alertId, lost);
    case _ => ReadHuman(cfg, s, alertId, lost);
  }

  lemma StepHuman(cfg: Config, s: System, e: Event, alertId: nat, lost: nat)
    requires cfg.Valid() && Inv(s) && HumanInv(cfg, s, alertId, lost)
    ensures HumanInv(cfg, Step(cfg, s, e), alertId, lost + if LosesMark(s.request, e, alertId) then 1 else 0)
  {
    if e.Proceed? {
      ProceedHuman(cfg, s, alertId, lost);
    } else {
      OutsideHuman(cfg, s, e, alertId, lost);
    }
  }

  lemma {:induction false} RunHuman(cfg: Config, es: seq<Event>, alertId: nat)
    requires cfg.Valid()
    ensures HumanInv(cfg, Run(cfg, INITIAL, es), alertId, LostMarks(cfg, INITIAL, es, alertId))
  {
    if es != [] {
      var n := |es| - 1;
      RunHuman(cfg, es[..n], alertId);
      RunInv(cfg, INITIAL, es[..n]);
      StepHuman(cfg, Run(cfg, INITIAL, es[..n]), es[n], alertId, LostMarks(cfg, INITIAL, es[..n], alertId));
    }
  }

  /** Every decision ever recorded was about an alert that, when the verdict last read it, nobody had acknowledged,
      that had escalated, had no attempt yet, and was at least the configured age. */
  lemma HumanGetsFirstChance(cfg: Config, es: seq<Event>, i: nat)
    requires cfg.Valid()
    requires var out := Run(cfg, INITIAL, es).out; i < |out| && out[i].Decided?
    ensures var o := Run(cfg, INITIAL, es).out[i];
            && o.alert.acknowledgedAt.None?
            && o.alert.escalatedAt.Some?
            && o.alert.remediatedAt.None?
            && cfg.remediationAfter <= o.action.createdAt - o.alert.firstFiredAt
            && o.action.alertId == o.alert.id
  {
    RunHuman(cfg, es, 0);
  }

  /** The attempts of an alert are exactly the marks it lost and the one it carries or is about to: at most one over
      its life, pruned or not, plus one for every failure between the audit commit and the marking commit. */
  lemma OneAttemptPerAlert(cfg: Config, es: seq<Event>, alertId: nat)
    requires cfg.Valid()
    ensures var s, lost := Run(cfg, INITIAL, es), LostMarks(cfg, INITIAL, es, alertId);
            && Attempts(s.out, alertId) <= lost + 1
            && (alertId in s.world.db.alerts ==>
                  Attempts(s.out, alertId) == lost + if Marked(s, alertId) then 1 else 0)
  {
    RunHuman(cfg, es, alertId);
  }

  // ----- acknowledgement -----

  predicate PastItsRead(q: Request, alertId: nat) {
    Escalates(q, alertId) || Decides(q, alertId) || Marks(q, alertId)
  }

  /** What may have become of the row since a moment when the alert was acknowledged and the request stood at q0. */
  ghost predicate RowSince(q0: Request, db: Db, alertId: nat, row: Alert) {
    && alertId < db.nextAlert
    && (alertId in db.alerts ==>
          var now := db.alerts[alertId];
          && now.acknowledgedAt.Some?
          && (now.escalatedAt == row.escalatedAt || Escalates(q0, alertId))
          && (now.remediatedAt == row.remediatedAt || Decides(q0, alertId) || Marks(q0, alertId)))
  }

  /** How many decisions there may be since: one more at most, and only if q0 was about to decide. */
  ghost predicate DecisionsSince(q0: Request, s: System, alertId: nat, attempts: nat) {
    && (Attempts(s.out, alertId) == attempts || (Decides(q0, alertId) && Attempts(s.out, alertId) == attempts + 1))
    && (Decides(s.request, alertId) ==> Attempts(s.out, alertId) == attempts)
  }

  /** The request stands past its read of the alert only if it did so then. */
  predicate NoNewRead(q0: Request, q: Request, alertId: nat) {
    && (Escalates(q, alertId) ==> Escalates(q0, alertId))
    && (Decides(q, alertId) ==> Decides(q0, alertId))
    && (Marks(q, alertId) ==> Marks(q0, alertId) || Decides(q0, alertId))
  }

  ghost predicate Afterwards(q0: Request, s: System, alertId: nat, row: Alert, attempts: nat) {
    && RowSince(q0, s.world.db, alertId, row)
    && DecisionsSince(q0, s, alertId, attempts)
    && NoNewRead(q0, s.request, alertId)
  }

  lemma OutsideAfterwards(cfg: Config, q0: Request, s: System, e: Event, alertId: nat, row: Alert, attempts: nat)
    requires Inv(s) && Afterwards(q0, s, alertId, row, attempts) && !e.Proceed?
    ensures Afterwards(q0, Step(cfg, s, e), alertId, row, attempts)
  {
    OutsideFrame(cfg, s, e);
    QuietAttempts(s.out, Step(cfg, s, e).out, alertId);
  }

  /** What a step of the request thread does to an alert: it writes marks only where it stands. */
  ghost predicate OwnMarks(q: Request, db: Db, db': Db, alertId: nat) {
    && db.nextAlert <= db'.nextAlert
    && (alertId < db.nextAlert ==> (alertId in db'.alerts <==> alertId in db.alerts))
    && (alertId in db.alerts && alertId in db'.alerts ==>
          var a, b := db.alerts[alertId], db'.alerts[alertId];
          && b.acknowledgedAt == a.acknowledgedAt
          && (b.escalatedAt == a.escalatedAt || Escalates(q, alertId))
          && (b.remediatedAt == a.remediatedAt || Marks(q, alertId)))
  }

  lemma WriteOwnMarks(cfg: Config, s: System, alertId: nat)
    requires DbOk(s.world.db) && (s.request.Advancing? || s.request.Escalating? || s.request.Marking?)
    ensures OwnMarks(s.request, s.world.db, ProceedStep(cfg, s).world.db, alertId)
  {
  }

  lemma OpenCloseOwnMarks(cfg: Config, s: System, alertId: nat)
    requires DbOk(s.world.db) && (s.request.Opening? || s.request.Resolving?)
    ensures OwnMarks(s.request, s.world.db, ProceedStep(cfg, s).world.db, alertId)
  {
  }

  lemma ReadOwnMarks(cfg: Config, s: System)
    requires s.request.Idle? || s.request.Inserting? || s.request.Evaluating? || s.request.Finding?
             || s.request.CheckingCooldown? || s.request.CheckingRate? || s.request.Recording?
    ensures ProceedStep(cfg, s).world.db.alerts == s.world.db.alerts
    ensures ProceedStep(cfg, s).world.db.nextAlert == s.world.db.nextAlert
  {
    match s.request
    case CheckingCooldown(_, _, _, _) => assert DecideStep(cfg, s).world == s.world;
    case CheckingRate(_, _, _, _) => assert DecideStep(cfg, s).world == s.world;
    case _ =>
  }

  lemma ProceedRow(cfg: Config, s: System, alertId: nat)
    requires DbOk(s.world.db)
    ensures OwnMarks(s.request, s.world.db, ProceedStep(cfg, s).world.db, alertId)
  {
    var q := s.request;
    if q.Advancing? || q.Escalating? || q.Marking? {
      WriteOwnMarks(cfg, s, alertId);
    } else if q.Opening? || q.Resolving? {
      OpenCloseOwnMarks(cfg, s, alertId);
    } else {
      ReadOwnMarks(cfg, s);
    }
  }

  /** Only a recorded decision is an attempt. */
  lemma ProceedAttempts(cfg: Config, s: System, alertId: nat)
    ensures var s' := ProceedStep(cfg, s);
            Attempts(s'.out, alertId) == Attempts(s.out, alertId) ||
            (s.request.Recording? && s.request.id == alertId && s'.request.Marking?
             && Attempts(s'.out, alertId) == Attempts(s.out, alertId) + 1)
  {
    var s' := ProceedStep(cfg, s);
    if s.request.Recording? && s.request.id in s.world.db.alerts {
      assert s'.out[..|s.out|] == s.out;
    } else {
      ProceedQuiet(cfg, s);
      QuietAttempts(s.out, s'.out, alertId);
    }
  }

  lemma ProceedQuiet(cfg: Config, s: System)
    requires !(s.request.Recording? && s.request.id in s.world.db.alerts)
    ensures NoDecision(s.out, ProceedStep(cfg, s).out)
  {
    match s.request
    case CheckingCooldown(_, _, _, _) => assert DecideStep(cfg, s).out == s.out;
    case CheckingRate(_, _, _, _) => assert DecideStep(cfg, s).out == s.out;
    case _ =>
  }

  /** Advancing and escalating read the row afresh, and so see an acknowledgement. */
  lemma ProceedReads(cfg: Config, q0: Request, s: System, alertId: nat)
    requires NoNewRead(q0, s.request, alertId)
    requires alertId in s.world.db.alerts ==> s.world.db.alerts[alertId].acknowledgedAt.Some?
    ensures NoNewRead(q0, ProceedStep(cfg, s).request, alertId)
    ensures Decides(ProceedStep(cfg, s).request, alertId) ==> Decides(s.request, alertId) && !s.request.Recording?
  {
    match s.request
    case CheckingCooldown(_, _, _, _) => DecideReads(cfg, q0, s, alertId);
    case CheckingRate(_, _, _, _) => DecideReads(cfg, q0, s, alertId);
    case Recording(_, _, _, _, _) => DecideReads(cfg, q0, s, alertId);
    case Advancing(c, id) => RereadReads(cfg, s, alertId);
    case Escalating(c, id, _) => RereadReads(cfg, s, alertId);
    case _ => OtherReads(cfg, s, alertId);
  }

  lemma OtherReads(cfg: Config, s: System, alertId: nat)
    requires s.request.Idle? || s.request.Inserting? || s.request.Evaluating? || s.request.Finding?
             || s.request.Opening? || s.request.Resolving? || s.request.Marking?
    ensures !PastItsRead(ProceedStep(cfg, s).request, alertId)
  {
    match s.request
    case Finding(node, at, todo, dispatched) =>
      if todo != [] {
        assert !PastItsRead(Look(s.world.db.alerts, Ctx(node, at, todo[0], todo[1..], dispatched)), alertId);
      }
    case _ =>
  }

  lemma RereadReads(cfg: Config, s: System, alertId: nat)
    requires s.request.Advancing? || s.request.Escalating?
    requires alertId in s.world.db.alerts ==> s.world.db.alerts[alertId].acknowledgedAt.Some?
    ensures !PastItsRead(ProceedStep(cfg, s).request, alertId)
  {
  }

  lemma DecideReads(cfg: Config, q0: Request, s: System, alertId: nat)
    requires NoNewRead(q0, s.request, alertId)
    requires s.request.CheckingCooldown? || s.request.CheckingRate? || s.request.Recording?
    ensures NoNewRead(q0, DecideStep(cfg, s).request, alertId)
    ensures Decides(DecideStep(cfg, s).request, alertId) ==> Decides(s.request, alertId) && !s.request.Recording?
  {
  }

  lemma StepAfterwards(cfg: Config, q0: Request, s: System, e: Event, alertId: nat, row: Alert, attempts: nat)
    requires Inv(s) && Afterwards(q0, s, alertId, row, attempts)
    ensures Afterwards(q0, Step(cfg, s, e), alertId, row, attempts)
  {
    if e.Proceed? {
      ProceedRow(cfg, s, alertId);
      ProceedAttempts(cfg, s, alertId);
      ProceedReads(cfg, q0, s, alertId);
    } else {
      OutsideAfterwards(cfg, q0, s, e, alertId, row, attempts);
    }
  }

  /** After an acknowledgement only the verdict that had read the alert before it can still act: escalate it once if it
      read it as one to escalate, decide once if it read it as one to remediate, mark it if it had decided. */
  lemma {:induction false} OnlyTheVerdictInFlight(cfg: Config, s: System, later: seq<Event>, alertId: nat)
    requires Inv(s) && alertId in s.world.db.alerts && s.world.db.alerts[alertId].acknowledgedAt.Some?
    ensures Afterwards(s.request, Run(cfg, s, later), alertId, s.world.db.alerts[alertId], Attempts(s.out, alertId))
  {
    var row, attempts := s.world.db.alerts[alertId], Attempts(s.out, alertId);
    if later != [] {
      var n := |later| - 1;
      OnlyTheVerdictInFlight(cfg, s, later[..n], alertId);
      RunInv(cfg, s, later[..n]);
      StepAfterwards(cfg, s.request, Run(cfg, s, later[..n]), later[n], alertId, row, attempts);
    }
  }

  /** Neither escalated nor marked nor decided about since. */
  ghost predicate Settled(s: System, alertId: nat, row: Alert, attempts: nat) {
    && (alertId in s.world.db.alerts ==>
          var now := s.world.db.alerts[alertId];
          now.escalatedAt == row.escalatedAt && now.remediatedAt == row.remediatedAt)
    && Attempts(s.out, alertId) == attempts
  }

  /** Left alone, a verdict past its read does act. */
  lemma FlightLands(cfg: Config, s: System, alertId: nat) returns (later: seq<Event>)
    requires Relies(cfg, s.world.db.alerts, s.request) && DbOk(s.world.db) && PastItsRead(s.request, alertId)
    ensures !Settled(Run(cfg, s, later), alertId, s.world.db.alerts[alertId], Attempts(s.out, alertId))
    decreases if s.request.CheckingCooldown? then 2 else if s.request.CheckingRate? then 1 else 0
  {
    var s' := ProceedStep(cfg, s);
    OneEvent(cfg, s, Proceed);
    if s.request.CheckingCooldown? || s.request.CheckingRate? {
      assert s'.world == s.world && s'.out == s.out;
      var rest := FlightLands(cfg, s', alertId);
      later := [Proceed] + rest;
      RunAppend(cfg, s, [Proceed], rest);
    } else {
      later := [Proceed];
      if s.request.Recording? {
        assert s'.out[..|s.out|] == s.out;
      }
    }
  }

  lemma OneEvent(cfg: Config, s: System, e: Event)
    ensures Run(cfg, s, [e]) == Step(cfg, s, e)
  {
    assert [e][..0] == [] && Run(cfg, s, []) == s;
  }

  /** Once acknowledged, an alert never escalates again and no further action is decided for it, whatever happens next:
      exactly if the request in flight, if there is one, is not past its read of that alert. */
  lemma AcknowledgedIsLeftAlone(cfg: Config, es: seq<Event>, alertId: nat)
    requires cfg.Valid()
    requires alertId in Run(cfg, INITIAL, es).world.db.alerts
    requires Run(cfg, INITIAL, es).world.db.alerts[alertId].acknowledgedAt.Some?
    ensures var s := Run(cfg, INITIAL, es);
            (forall later ::
               Settled(Run(cfg, s, later), alertId, s.world.db.alerts[alertId], Attempts(s.out, alertId)))
            <==> !PastItsRead(s.request, alertId)
  {
    var s := Run(cfg, INITIAL, es);
    RunInv(cfg, INITIAL, es);
    RunHuman(cfg, es, alertId);
    if PastItsRead(s.request, alertId) {
      var later := FlightLands(cfg, s, alertId);
    } else {
      forall later
        ensures Settled(Run(cfg, s, later), alertId, s.world.db.alerts[alertId], Attempts(s.out, alertId))
      {
        OnlyTheVerdictInFlight(cfg, s, later, alertId);
      }
    }
  }
}
