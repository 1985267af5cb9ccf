/** Retention is invisible to control: a run with retention batches anywhere
    behaves like the same run with no retention at all. */
module RetentionInvisible {
  import opened Model
  import opened Tables
  import opened Rules
  import opened Alerting
  import opened Machine
  import opened MachineInvariants

  function WithoutPruning(es: seq<Event>): seq<Event> {
    if es == [] then []
    else
      var n := |es| - 1;
      WithoutPruning(es[..n]) + (if IsPrune(es[n]) then [] else [es[n]])
  }

  /** A refusal, whichever of the two refusals it is: a pruned row is not found,
      a kept one is found settled. */
  function Erase(o: Output): Output {
    match o
    case AcknowledgeRefused(id, _) => AcknowledgeRefused(id, NotFound)
    case ReportRefused(id, _) => ReportRefused(id, NotFound)
    case _ => o
  }

  ghost predicate SameOutputs(a: seq<Output>, b: seq<Output>) {
    |a| == |b| && forall i :: 0 <= i < |a| ==> Erase(a[i]) == Erase(b[i])
  }

  // ----- the lag hypothesis -----

  function Later(horizon: Option<Time>, now: Time): Option<Time> {
    if horizon.Some? && now < horizon.value then horizon else Some(now)
  }

  /** The latest instant a retention batch has run at. */
  function Horizon(es: seq<Event>): Option<Time> {
    if es == [] then None
    else
      var n := |es| - 1;
      if IsPrune(es[n]) then Later(Horizon(es[..n]), es[n].now) else Horizon(es[..n])
  }

  /** The collection time of the payload in flight. */
  function TimeOf(q: Request): Option<Time> {
    match q
    case Idle => None
    case Inserting(p, _) => Some(p.collectedAt)
    case Evaluating(p, _, _) => Some(p.collectedAt)
    case Finding(_, at, _, _) => Some(at)
    case Opening(c) => Some(c.at)
    case _ => Some(q.c.at)
  }

  predicate Lags(horizon: Option<Time>, lag: int, at: Time) {
    horizon.Some? ==> horizon.value - lag <= at
  }

  /** The batch deletes no row that an acknowledgement or a report has read and not yet written. */
  ghost predicate Spares(calls: set<Call>, e: Event)
    requires IsPrune(e)
  {
    forall c :: c in calls ==>
      (e.PruneAlerts? && c.Acknowledging? ==> c.id !in e.ids) && (e.PruneActions? && c.Reporting? ==> c.id !in e.ids)
  }

  /** A payload arrives after it was collected, and is at most `lag` behind the
      latest retention batch when it is evaluated; and no batch comes between
      the read and the write of a call on a row it deletes. */
  ghost predicate TimelyEvent(horizon: Option<Time>, lag: int, s: System, e: Event) {
    if e.Receive? then
      s.request.Idle? ==> e.p.collectedAt <= e.receivedAt && Lags(horizon, lag, e.p.collectedAt)
    else if IsPrune(e) then
      (TimeOf(s.request).Some? ==> Lags(Some(e.now), lag, TimeOf(s.request).value)) && Spares(s.calls, e)
    else
      true
  }

  ghost predicate Timely(cfg: Config, lag: int, s: System, es: seq<Event>) {
    es == [] ||
    var n := |es| - 1;
    Timely(cfg, lag, s, es[..n]) && TimelyEvent(Horizon(es[..n]), lag, Run(cfg, s, es[..n]), es[n])
  }

  /** The retention windows outlast every look back into the past, plus the lag. */
  ghost predicate WindowsCover(cfg: Config, lag: int) {
    && lag + cfg.cooldown <= cfg.actionsRetention
    && lag + HOUR <= cfg.actionsRetention
    && forall m :: m in cfg.rateRules ==> lag + cfg.rateRules[m].window <= cfg.metricsRetention
  }

  // ----- the simulation relation -----

  predicate Expired(horizon: Option<Time>, retention: int, at: Time) {
    horizon.Some? && at < horizon.value - retention
  }

  ghost predicate AlertsSim(p: Alerts, f: Alerts) {
    && (forall id :: id in p ==> id in f && f[id] == p[id])
    && (forall id :: id in f && id !in p ==> f[id].status == Resolved)
  }

  ghost predicate ActionsSim(p: Actions, f: Actions, horizon: Option<Time>, retention: int) {
    && (forall id :: id in p ==> id in f && f[id] == p[id])
    && (forall id :: id in f && id !in p ==>
          f[id].status != Dispatched && Expired(horizon, retention, f[id].createdAt))
  }

  ghost predicate SamplesSim(p: Samples, f: Samples, horizon: Option<Time>, retention: int) {
    && (forall id :: id in p ==> id in f && f[id] == p[id])
    && (forall id :: id in f && id !in p ==> Expired(horizon, retention, f[id].collectedAt))
  }

  ghost predicate DbSim(cfg: Config, horizon: Option<Time>, p: Db, f: Db) {
    && p.nodes == f.nodes
    && p.nextAlert == f.nextAlert && p.nextAction == f.nextAction && p.nextSample == f.nextSample
    && AlertsSim(p.alerts, f.alerts)
    && ActionsSim(p.actions, f.actions, horizon, cfg.actionsRetention)
    && SamplesSim(p.samples, f.samples, horizon, cfg.metricsRetention)
  }

  /** `p` is the pruned system, `f` the one that kept everything. */
  ghost predicate Sim(cfg: Config, horizon: Option<Time>, p: System, f: System) {
    && DbSim(cfg, horizon, p.world.db, f.world.db)
    && p.world.notices == f.world.notices
    && p.request == f.request
    && p.job == f.job
    && p.swept == f.swept
    && p.calls == f.calls
    && SameOutputs(p.out, f.out)
  }

  ghost predicate Received(samples: Samples) {
    forall id :: id in samples ==> samples[id].collectedAt <= samples[id].receivedAt
  }

  /** What the lag hypothesis maintains about the pruned system. */
  ghost predicate Fresh(lag: int, horizon: Option<Time>, p: System) {
    && (TimeOf(p.request).Some? ==> Lags(horizon, lag, TimeOf(p.request).value))
    && (p.request.Inserting? ==> p.request.p.collectedAt <= p.request.receivedAt)
    && Received(p.world.db.samples)
    && AllPresent(p.world.db, p.calls)
  }

  /** Every call in progress still has its row. */
  ghost predicate AllPresent(db: Db, calls: set<Call>) {
    forall c :: c in calls ==> Present(db, c)
  }

  // ----- reads agree -----

  lemma FindOpenAgrees(p: Alerts, f: Alerts, node: NodeId, key: string)
    requires AlertsSim(p, f) && UniqueOpen(p) && UniqueOpen(f)
    ensures FindOpen(p, node, key) == FindOpen(f, node, key)
  {
    match FindOpen(f, node, key)
    case Some(id) => assert IsOpen(p, id, node, key);
    case None =>
      forall id ensures !IsOpen(p, id, node, key) {
        assert !IsOpen(f, id, node, key);
      }
  }

  lemma CooldownAgrees(cfg: Config, lag: int, horizon: Option<Time>, p: Actions, f: Actions,
                       node: NodeId, playbook: string, at: Time)
    requires ActionsSim(p, f, horizon, cfg.actionsRetention) && WindowsCover(cfg, lag) && Lags(horizon, lag, at)
    ensures CooldownReason(cfg, LastCreated(p, node, playbook), at) == CooldownReason(cfg, LastCreated(f, node,
        playbook), at)
  {
    var ids, kept := PlaybookIds(f, node, playbook), PlaybookIds(p, node, playbook);
    assert kept <= ids;
    if ids != {} {
      var id :| id in ids && f[id].createdAt == LastCreated(f, node, playbook).value;
      if at - f[id].createdAt < cfg.cooldown {
        assert id in kept;
      }
    }
  }

  lemma CountAgrees(cfg: Config, lag: int, horizon: Option<Time>, p: Actions, f: Actions, node: NodeId, at: Time)
    requires ActionsSim(p, f, horizon, cfg.actionsRetention) && WindowsCover(cfg, lag) && Lags(horizon, lag, at)
    ensures CountRecent(p, node, at - HOUR) == CountRecent(f, node, at - HOUR)
  {
    assert RecentIds(p, node, at - HOUR) == RecentIds(f, node, at - HOUR);
  }

  lemma ReadingAgrees(cfg: Config, lag: int, horizon: Option<Time>, p: Samples, f: Samples,
                      node: NodeId, reading: Reading, at: Time)
    requires SamplesSim(p, f, horizon, cfg.metricsRetention) && WindowsCover(cfg, lag) && Lags(horizon, lag, at)
    ensures ReadingResults(cfg, p, node, reading, at) == ReadingResults(cfg, f, node, reading, at)
  {
    var m := reading.metricType;
    if m in cfg.rateRules {
      var window := cfg.rateRules[m].window;
      assert InWindow(p, node, m, at, window) == InWindow(f, node, m, at, window);
    }
  }

  // ----- every step keeps the relation -----

  lemma EvaluateStepSim(cfg: Config, lag: int, horizon: Option<Time>, p: System, f: System)
    requires Sim(cfg, horizon, p, f) && Fresh(lag, horizon, p) && WindowsCover(cfg, lag)
    requires p.request.Evaluating?
    ensures Sim(cfg, horizon, ProceedStep(cfg, p), ProceedStep(cfg, f))
  {
    var q := p.request;
    if q.i < |q.p.samples| {
      ReadingAgrees(cfg, lag, horizon, p.world.db.samples, f.world.db.samples, q.p.nodeId, q.p.samples[q.i],
        q.p.collectedAt);
    }
  }

  lemma FindStepSim(cfg: Config, horizon: Option<Time>, p: System, f: System)
    requires Inv(p) && Inv(f) && Sim(cfg, horizon, p, f) && p.request.Finding?
    ensures Sim(cfg, horizon, ProceedStep(cfg, p), ProceedStep(cfg, f))
  {
    if p.request.todo != [] {
      FindOpenAgrees(p.world.db.alerts, f.world.db.alerts, p.request.node, p.request.todo[0].ruleKey);
    }
  }

  lemma CheckStepSim(cfg: Config, lag: int, horizon: Option<Time>, p: System, f: System)
    requires Sim(cfg, horizon, p, f) && Fresh(lag, horizon, p) && WindowsCover(cfg, lag)
    requires p.request.CheckingCooldown? || p.request.CheckingRate?
    ensures Sim(cfg, horizon, ProceedStep(cfg, p), ProceedStep(cfg, f))
  {
    var c, a, b := p.request.c, p.world.db.actions, f.world.db.actions;
    if p.request.CheckingCooldown? {
      CooldownAgrees(cfg, lag, horizon, a, b, c.node, p.request.playbook.name, c.at);
    } else {
      CountAgrees(cfg, lag, horizon, a, b, c.node, c.at);
    }
  }

  lemma OpenStepSim(cfg: Config, horizon: Option<Time>, p: System, f: System)
    requires Inv(p) && Inv(f) && Sim(cfg, horizon, p, f) && (p.request.Opening? || p.request.Resolving?)
    ensures Sim(cfg, horizon, ProceedStep(cfg, p), ProceedStep(cfg, f))
  {
  }

  lemma WriteStepSim(cfg: Config, horizon: Option<Time>, p: System, f: System)
    requires Inv(p) && Inv(f) && Sim(cfg, horizon, p, f)
    requires p.request.Advancing? || p.request.Escalating? || p.request.Marking?
    ensures Sim(cfg, horizon, ProceedStep(cfg, p), ProceedStep(cfg, f))
  {
  }

  lemma RecordStepSim(cfg: Config, horizon: Option<Time>, p: System, f: System)
    requires Inv(p) && Inv(f) && Sim(cfg, horizon, p, f)
    requires p.request.Recording? || p.request.Inserting?
    ensures Sim(cfg, horizon, ProceedStep(cfg, p), ProceedStep(cfg, f))
  {
  }

  lemma JobStepSim(cfg: Config, horizon: Option<Time>, p: System, f: System, e: Event)
    requires Inv(p) && Inv(f) && Sim(cfg, horizon, p, f)
    ensures Sim(cfg, horizon, JobStep(cfg, p, e), JobStep(cfg, f, e))
  {
    match e
    case StaleWrite => SweepWriteSim(cfg, horizon, p, f);
    case StaleLook(node) => FindOpenAgrees(p.world.db.alerts, f.world.db.alerts, node, STALENESS_KEY);
    case TimeOutBegin(now) => TimeOutBeginSim(cfg, horizon, p, f, now);
    case TimeOutMark(id) => TimeOutMarkSim(cfg, horizon, p, f, id);
    case _ =>
  }

  lemma SweepWriteSim(cfg: Config, horizon: Option<Time>, p: System, f: System)
    requires Sim(cfg, horizon, p, f) && JobOk(p.world.db, p.job)
    ensures Sim(cfg, horizon, JobStep(cfg, p, StaleWrite), JobStep(cfg, f, StaleWrite))
  {
    if p.job.SweepWriting? {
      var job := p.job;
      var a := SweepWrite(cfg, p.world, p.swept, job.now, job.node, job.lastSeen, job.found);
      var b := SweepWrite(cfg, f.world, p.swept, job.now, job.node, job.lastSeen, job.found);
      if !IsStale(cfg, job.now, job.lastSeen) && job.found.Some? {
        assert job.found.value in p.world.db.alerts;
      }
      assert AlertsSim(a.db.alerts, b.db.alerts);
    }
  }

  lemma TimeOutBeginSim(cfg: Config, horizon: Option<Time>, p: System, f: System, now: Time)
    requires Sim(cfg, horizon, p, f)
    ensures Sim(cfg, horizon, JobStep(cfg, p, TimeOutBegin(now)), JobStep(cfg, f, TimeOutBegin(now)))
  {
    var cutoff := now - cfg.dispatchTimeout;
    assert StaleDispatches(p.world.db.actions, cutoff) == StaleDispatches(f.world.db.actions, cutoff);
  }

  lemma TimeOutMarkSim(cfg: Config, horizon: Option<Time>, p: System, f: System, id: nat)
    requires Inv(p) && Inv(f) && Sim(cfg, horizon, p, f)
    ensures Sim(cfg, horizon, JobStep(cfg, p, TimeOutMark(id)), JobStep(cfg, f, TimeOutMark(id)))
  {
    if p.job.TimingOut? && id in p.job.ids {
      MarkSim(cfg.actionsRetention, horizon, p.world.db.actions, f.world.db.actions, id, p.job.now);
    }
  }

  lemma MarkSim(retention: int, horizon: Option<Time>, p: Actions, f: Actions, id: nat, now: Time)
    requires ActionsSim(p, f, horizon, retention) && id in p
    ensures ActionsSim(p[id := MarkedResult(p[id], Failed, Some(TimedOut), now)],
                       f[id := MarkedResult(f[id], Failed, Some(TimedOut), now)], horizon, retention)
  {
  }

  /** A row a batch has deleted was settled, so the read refuses the call with the row or without it. */
  lemma ReadCallAgrees(p: System, f: System, horizon: Option<Time>, retention: int, c: Call)
    requires AlertsSim(p.world.db.alerts, f.world.db.alerts) && p.calls == f.calls && SameOutputs(p.out, f.out)
    requires ActionsSim(p.world.db.actions, f.world.db.actions, horizon, retention)
    ensures SameOutputs(ReadCall(p, c).out, ReadCall(f, c).out) && ReadCall(p, c).calls == ReadCall(f, c).calls
  {
    var a, b := ReadCall(p, c).out, ReadCall(f, c).out;
    if Admitted(p.world.db, c) {
      assert Admitted(f.world.db, c) && a == p.out && b == f.out;
    } else {
      assert !Admitted(f.world.db, c) && |a| == |p.out| + 1 && |b| == |f.out| + 1;
      assert Erase(a[|p.out|]) == Erase(b[|f.out|]);
    }
  }

  lemma ReadCallSim(cfg: Config, horizon: Option<Time>, p: System, f: System, c: Call)
    requires Sim(cfg, horizon, p, f)
    ensures Sim(cfg, horizon, ReadCall(p, c), ReadCall(f, c))
  {
    ReadCallAgrees(p, f, horizon, cfg.actionsRetention, c);
  }

  lemma WriteCallSim(cfg: Config, horizon: Option<Time>, p: System, f: System, c: Call, at: Time)
    requires Sim(cfg, horizon, p, f) && AllPresent(p.world.db, p.calls) && DbOk(p.world.db)
    ensures Sim(cfg, horizon, WriteCall(p, c, at), WriteCall(f, c, at))
  {
    if c in p.calls {
      var a, b := Written(p.world.db, c, at), Written(f.world.db, c, at);
      assert DbSim(cfg, horizon, a, b);
    }
  }

  lemma CallSim(cfg: Config, horizon: Option<Time>, p: System, f: System, e: Event)
    requires Sim(cfg, horizon, p, f) && AllPresent(p.world.db, p.calls) && DbOk(p.world.db) && IsCall(e)
    ensures Sim(cfg, horizon, Step(cfg, p, e), Step(cfg, f, e))
  {
    match e
    case CallReads(c) => ReadCallSim(cfg, horizon, p, f, c);
    case CallWrites(c, at) => WriteCallSim(cfg, horizon, p, f, c, at);
    case CallFails(_) =>
  }

  lemma ProceedSim(cfg: Config, lag: int, horizon: Option<Time>, p: System, f: System)
    requires Inv(p) && Inv(f) && Sim(cfg, horizon, p, f) && Fresh(lag, horizon, p) && WindowsCover(cfg, lag)
    ensures Sim(cfg, horizon, ProceedStep(cfg, p), ProceedStep(cfg, f))
  {
    match p.request
    case Idle =>
    case Inserting(_, _) => RecordStepSim(cfg, horizon, p, f);
    case Recording(_, _, _, _, _) => RecordStepSim(cfg, horizon, p, f);
    case Evaluating(_, _, _) => EvaluateStepSim(cfg, lag, horizon, p, f);
    case Finding(_, _, _, _) => FindStepSim(cfg, horizon, p, f);
    case CheckingCooldown(_, _, _, _) => CheckStepSim(cfg, lag, horizon, p, f);
    case CheckingRate(_, _, _, _) => CheckStepSim(cfg, lag, horizon, p, f);
    case Opening(_) => OpenStepSim(cfg, horizon, p, f);
    case Resolving(_, _) => OpenStepSim(cfg, horizon, p, f);
    case _ => WriteStepSim(cfg, horizon, p, f);
  }

  lemma FrontSim(cfg: Config, horizon: Option<Time>, p: System, f: System, e: Event)
    requires Sim(cfg, horizon, p, f) && IsFront(e)
    ensures Sim(cfg, horizon, Step(cfg, p, e), Step(cfg, f, e))
  {
  }

  lemma StepSim(cfg: Config, lag: int, horizon: Option<Time>, p: System, f: System, e: Event)
    requires Inv(p) && Inv(f) && Sim(cfg, horizon, p, f) && Fresh(lag, horizon, p) && WindowsCover(cfg, lag)
    requires !IsPrune(e)
    ensures Sim(cfg, horizon, Step(cfg, p, e), Step(cfg, f, e))
  {
    if e.Proceed? {
      ProceedSim(cfg, lag, horizon, p, f);
    } else if IsFront(e) {
      FrontSim(cfg, horizon, p, f, e);
    } else if IsCall(e) {
      CallSim(cfg, horizon, p, f, e);
    } else {
      JobStepSim(cfg, horizon, p, f, e);
    }
  }

  lemma PruneActionsSim(cfg: Config, horizon: Option<Time>, p: System, f: System, e: Event)
    requires Sim(cfg, horizon, p, f) && e.PruneActions? && PruneEnabled(cfg, p, e)
    ensures DbSim(cfg, Later(horizon, e.now), PruneDb(p.world.db, e), f.world.db)
  {
  }

  lemma PruneAlertsSim(cfg: Config, horizon: Option<Time>, p: System, f: System, e: Event)
    requires Sim(cfg, horizon, p, f) && e.PruneAlerts? && PruneEnabled(cfg, p, e)
    ensures DbSim(cfg, Later(horizon, e.now), PruneDb(p.world.db, e), f.world.db)
  {
  }

  lemma PruneSamplesSim(cfg: Config, lag: int, horizon: Option<Time>, p: System, f: System, e: Event)
    requires Sim(cfg, horizon, p, f) && Fresh(lag, horizon, p) && e.PruneSamples? && PruneEnabled(cfg, p, e)
    ensures DbSim(cfg, Later(horizon, e.now), PruneDb(p.world.db, e), f.world.db)
  {
  }

  lemma PruneSim(cfg: Config, lag: int, horizon: Option<Time>, p: System, f: System, e: Event)
    requires Sim(cfg, horizon, p, f) && Fresh(lag, horizon, p) && IsPrune(e)
    ensures Sim(cfg, Later(horizon, e.now), Step(cfg, p, e), f)
  {
    if PruneEnabled(cfg, p, e) {
      match e
      case PruneActions(_, _) => PruneActionsSim(cfg, horizon, p, f, e);
      case PruneAlerts(_, _) => PruneAlertsSim(cfg, horizon, p, f, e);
      case PruneSamples(_, _) => PruneSamplesSim(cfg, lag, horizon, p, f, e);
    }
  }

  /** A request keeps its collection time and touches the samples once. */
  lemma ProceedTime(cfg: Config, s: System)
    ensures var q, q' := s.request, ProceedStep(cfg, s).request;
            && (q'.Idle? || TimeOf(q') == TimeOf(q))
            && (!q.Inserting? ==> !q'.Inserting? && ProceedStep(cfg, s).world.db.samples == s.world.db.samples)
  {
    match s.request
    case Finding(node, at, todo, dispatched) =>
      if todo != [] {
        assert TimeOf(Look(s.world.db.alerts, Ctx(node, at, todo[0], todo[1..], dispatched))) == Some(at);
      }
    case CheckingCooldown(_, _, _, _) => DecideTime(cfg, s);
    case CheckingRate(_, _, _, _) => DecideTime(cfg, s);
    case Recording(_, _, _, _, _) => DecideTime(cfg, s);
    case Advancing(c, id) => assert id in s.world.db.alerts ==> TimeOf(ProceedStep(cfg, s).request) == Some(c.at);
    case Escalating(c, id, _) => assert id in s.world.db.alerts ==> TimeOf(ProceedStep(cfg, s).request) == Some(c.at);
    case _ =>
  }

  lemma DecideTime(cfg: Config, s: System)
    requires s.request.CheckingCooldown? || s.request.CheckingRate? || s.request.Recording?
    ensures var q' := DecideStep(cfg, s).request;
            && (q'.Idle? || TimeOf(q') == TimeOf(s.request)) && !q'.Inserting?
            && DecideStep(cfg, s).world.db.samples == s.world.db.samples
  {
  }

  /** No step but a retention batch removes a row. */
  ghost predicate KeepsRows(a: Db, b: Db) {
    a.alerts.Keys <= b.alerts.Keys && a.actions.Keys <= b.actions.Keys
  }

  lemma ProceedKeepsRows(cfg: Config, s: System)
    ensures KeepsRows(s.world.db, ProceedStep(cfg, s).world.db) && ProceedStep(cfg, s).calls == s.calls
  {
    match s.request
    case CheckingCooldown(_, _, _, _) => DecideKeepsRows(cfg, s);
    case CheckingRate(_, _, _, _) => DecideKeepsRows(cfg, s);
    case Recording(_, _, _, _, _) => DecideKeepsRows(cfg, s);
    case _ =>
  }

  lemma DecideKeepsRows(cfg: Config, s: System)
    requires s.request.CheckingCooldown? || s.request.CheckingRate? || s.request.Recording?
    ensures KeepsRows(s.world.db, DecideStep(cfg, s).world.db) && DecideStep(cfg, s).calls == s.calls
  {
  }

  lemma JobKeepsRows(cfg: Config, s: System, e: Event)
    ensures KeepsRows(s.world.db, JobStep(cfg, s, e).world.db) && JobStep(cfg, s, e).calls == s.calls
    ensures JobStep(cfg, s, e).request == s.request
    ensures JobStep(cfg, s, e).world.db.samples == s.world.db.samples
  {
    if e.StaleWrite? && s.job.SweepWriting? {
      var w' := SweepWrite(cfg, s.world, s.swept, s.job.now, s.job.node, s.job.lastSeen, s.job.found);
      assert KeepsRows(s.world.db, w'.db) && w'.db.samples == s.world.db.samples;
    }
  }

  lemma CallFresh(cfg: Config, lag: int, horizon: Option<Time>, p: System, e: Event)
    requires Fresh(lag, horizon, p) && IsCall(e)
    ensures Fresh(lag, horizon, Step(cfg, p, e))
  {
    var p' := Step(cfg, p, e);
    assert KeepsRows(p.world.db, p'.world.db) && p'.request == p.request && p'.world.db.samples == p.world.db.samples;
    forall c | c in p'.calls ensures Present(p'.world.db, c) {
      assert c in p.calls || Present(p.world.db, c);
    }
  }

  lemma PruneFresh(cfg: Config, lag: int, horizon: Option<Time>, p: System, e: Event)
    requires Fresh(lag, horizon, p) && TimelyEvent(horizon, lag, p, e) && IsPrune(e)
    ensures Fresh(lag, Later(horizon, e.now), Step(cfg, p, e))
  {
  }

  lemma FreshStep(cfg: Config, lag: int, horizon: Option<Time>, p: System, e: Event)
    requires Fresh(lag, horizon, p) && TimelyEvent(horizon, lag, p, e)
    ensures Fresh(lag, if IsPrune(e) then Later(horizon, e.now) else horizon, Step(cfg, p, e))
  {
    if e.Proceed? {
      ProceedTime(cfg, p);
      ProceedKeepsRows(cfg, p);
    } else if IsFront(e) {
    } else if IsCall(e) {
      CallFresh(cfg, lag, horizon, p, e);
    } else if IsPrune(e) {
      PruneFresh(cfg, lag, horizon, p, e);
    } else {
      JobKeepsRows(cfg, p, e);
    }
  }

  lemma {:induction false} RunSim(cfg: Config, lag: int, s: System, es: seq<Event>)
    requires Inv(s) && Received(s.world.db.samples) && s.request.Idle? && s.calls == {}
    requires WindowsCover(cfg, lag) && Timely(cfg, lag, s, es)
    ensures Sim(cfg, Horizon(es), Run(cfg, s, es), Run(cfg, s, WithoutPruning(es)))
    ensures Fresh(lag, Horizon(es), Run(cfg, s, es))
  {
    if es != [] {
      var n := |es| - 1;
      var e, before := es[n], es[..n];
      RunSim(cfg, lag, s, before);
      var p, f := Run(cfg, s, before), Run(cfg, s, WithoutPruning(before));
      RunInv(cfg, s, before);
      RunInv(cfg, s, WithoutPruning(before));
      FreshStep(cfg, lag, Horizon(before), p, e);
      if IsPrune(e) {
        PruneSim(cfg, lag, Horizon(before), p, f, e);
        assert WithoutPruning(es) == WithoutPruning(before);
      } else {
        StepSim(cfg, lag, Horizon(before), p, f, e);
        assert WithoutPruning(es)[..|WithoutPruning(es)| - 1] == WithoutPruning(before);
      }
    }
  }

  /** Given windows that cover every look back, retention changes nothing that
      the Agents, the operators or the notification channel can see, and it
      loses no live row: every firing alert and every dispatched action is
      still there, unchanged. */
  lemma PruningUnseen(cfg: Config, lag: int, s: System, es: seq<Event>)
    requires Inv(s) && Received(s.world.db.samples) && s.request.Idle? && s.calls == {}
    requires WindowsCover(cfg, lag) && Timely(cfg, lag, s, es)
    ensures var pruned, kept := Run(cfg, s, es), Run(cfg, s, WithoutPruning(es));
            && SameOutputs(pruned.out, kept.out)
            && pruned.world.notices == kept.world.notices
            && (forall id :: id in kept.world.db.alerts && kept.world.db.alerts[id].status == Firing ==>
                  id in pruned.world.db.alerts && pruned.world.db.alerts[id] == kept.world.db.alerts[id])
            && (forall id :: id in kept.world.db.actions && kept.world.db.actions[id].status == Dispatched ==>
                  id in pruned.world.db.actions && pruned.world.db.actions[id] == kept.world.db.actions[id])
  {
    RunSim(cfg, lag, s, es);
  }
}
