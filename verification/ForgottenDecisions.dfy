/** What retention makes the safety limits forget: the limits hold over every run on time exactly when actions are
    kept long enough for both limits to look back from the latest payload. */
module ForgottenDecisions {
  import opened Model
  import opened Tables
  import opened Rules
  import opened Alerting
  import opened Machine
  import opened MachineInvariants
  import opened RetentionInvisible
  import opened SafetyLimits
  import opened LosingRuns

  /** Alert 0 waits for its attempt, unmarked and unacknowledged, and nothing is under way. */
  ghost predicate Ripe(cfg: Config, metric: MetricType, s: System) {
    Quiet(s) && s.request.Idle? && Open(cfg, metric, s.world.db.alerts) && s.world.db.alerts[0].remediatedAt.None?
  }

  lemma More(cfg: Config, lag: int, es: seq<Event>, e: Event) returns (more: seq<Event>)
    requires OnTime(cfg, lag, INITIAL, es)
    requires OnTimeEvent(ActionsHorizon(es), lag, Run(cfg, INITIAL, es), e)
    ensures OnTime(cfg, lag, INITIAL, more) && Run(cfg, INITIAL, more) == Step(cfg, Run(cfg, INITIAL, es), e)
    ensures ActionsHorizon(more) == if e.PruneActions? then Later(ActionsHorizon(es), e.now) else ActionsHorizon(es)
  {
    more := es + [e];
    assert more[..|es|] == es;
  }

  /** The tables and outputs that matter to a decision, and the threads besides the request, are the same. */
  ghost predicate Alike(s: System, s': System) {
    && s'.world.db.alerts == s.world.db.alerts
    && s'.world.db.actions == s.world.db.actions && s'.world.db.nextAction == s.world.db.nextAction
    && s'.out == s.out && s'.job == s.job && s'.calls == s.calls
  }

  // ----- one attempt -----

  /** The request is about to look for the alert of the metric's threshold verdict. */
  predicate HasVerdict(cfg: Config, metric: MetricType, at: Time, q: Request)
    requires metric in cfg.thresholdRules
  {
    q.Finding? && q.node == NODE && q.at == at && q.todo != [] && q.todo[0] == Verdict(cfg, metric)
  }

  /** A payload with a bad reading is stored and evaluated, whatever the rate rules make of it. */
  lemma Evaluated(cfg: Config, metric: MetricType, s: System, at: Time)
    requires Remediates(cfg, metric) && s.request.Idle?
    ensures var received := Step(cfg, s, Receive(BadPayload(cfg, metric, at), at));
            var s' := ProceedStep(cfg, ProceedStep(cfg, ProceedStep(cfg, received)));
            Alike(s, s') && HasVerdict(cfg, metric, at, s'.request)
  {
    var received := Step(cfg, s, Receive(BadPayload(cfg, metric, at), at));
    var stored := ProceedStep(cfg, received);
    assert stored.request == Evaluating(BadPayload(cfg, metric, at), 0, []);
    var results := ReadingResults(cfg, stored.world.db.samples, NODE, BadReading(cfg, metric), at);
    assert results[0] == Verdict(cfg, metric);
    assert ProceedStep(cfg, stored).request == Evaluating(BadPayload(cfg, metric, at), 1, [] + results);
  }

  /** The request is about to check the cooldown for alert 0. */
  predicate Checks(cfg: Config, metric: MetricType, at: Time, q: Request)
    requires Key(metric) in cfg.playbooks
  {
    q.CheckingCooldown? && q.c.node == NODE && q.c.at == at && q.id == 0 && q.playbook == cfg.playbooks[Key(metric)]
  }

  /** The alert is advanced, and escalated if that is due. */
  lemma Approached(cfg: Config, metric: MetricType, s: System, at: Time)
    requires Remediates(cfg, metric) && HasVerdict(cfg, metric, at, s.request) && cfg.remediationAfter <= at
    requires Inv(s) && Open(cfg, metric, s.world.db.alerts) && s.world.db.alerts[0].remediatedAt.None?
    ensures var advanced := ProceedStep(cfg, ProceedStep(cfg, s));
            var s' := if advanced.request.Escalating? then ProceedStep(cfg, advanced) else advanced;
            && Checks(cfg, metric, at, s'.request)
            && Open(cfg, metric, s'.world.db.alerts) && s'.world.db.alerts[0].remediatedAt.None?
            && Alike(s.(world := s'.world, out := s'.out), s')
            && s'.world.db.actions == s.world.db.actions && s'.world.db.nextAction == s.world.db.nextAction
            && NoDecision(s.out, s'.out)
  {
    assert FindOpen(s.world.db.alerts, NODE, Key(metric)) == Some(0);
  }

  /** Both limits are checked, as far as needed. */
  lemma Checked(cfg: Config, metric: MetricType, s: System, at: Time)
    requires Remediates(cfg, metric) && Checks(cfg, metric, at, s.request)
    ensures var once := ProceedStep(cfg, s);
            var s' := if once.request.CheckingRate? then ProceedStep(cfg, once) else once;
            && s'.request.Recording? && s'.request.c == s.request.c && s'.request.id == 0
            && s'.request.playbook == s.request.playbook
            && s'.request.reason == SafetyReason(cfg, s.world.db.actions, NODE, s.request.playbook.name, at)
            && s' == s.(request := s'.request)
  {
  }

  /** What an attempt at a moment records. */
  predicate AttemptAt(cfg: Config, metric: MetricType, row: Action, at: Time)
    requires Key(metric) in cfg.playbooks
  {
    row.nodeId == NODE && row.playbookName == cfg.playbooks[Key(metric)].name && row.createdAt == at
  }

  function RowOf(q: Request, id: nat): Action
    requires q.Recording?
  {
    NewAction(id, q.c.node, q.id, q.c.r.ruleKey, q.playbook, q.reason, q.c.at)
  }

  lemma RecordedNext(cfg: Config, s: System)
    requires s.request.Recording? && s.request.id in s.world.db.alerts
    ensures var row := RowOf(s.request, s.world.db.nextAction);
            ProceedStep(cfg, s) == s.(world := s.world.(db := CreateAction(s.world.db, row)),
                                      request := Marking(s.request.c, s.request.id, row),
                                      out := s.out + [Decided(row, s.request.seen)])
  {
  }

  /** The decision is recorded, and the request fails before it marks the alert. */
  lemma RecordedThenFailed(cfg: Config, s: System)
    requires s.request.Recording? && s.request.id in s.world.db.alerts
    ensures var s' := FailRequest(ProceedStep(cfg, s));
            var row := RowOf(s.request, s.world.db.nextAction);
            && s'.request.Idle? && s'.world == s.world.(db := CreateAction(s.world.db, row))
            && s'.job == s.job && s'.calls == s.calls
            && Decisions(s'.out) == Decisions(s.out) + [row]
  {
    RecordedNext(cfg, s);
    var row := RowOf(s.request, s.world.db.nextAction);
    var out := s.out + [Decided(row, s.request.seen)];
    DecisionsAppend(s.out, Decided(row, s.request.seen));
    DecisionsAppend(out, Acked(s.request.c.node, []));
  }

  /** From one bad payload to a recorded decision; the mark is lost, so the alert is ripe for the next. */
  lemma Attempted(cfg: Config, metric: MetricType, lag: int, es: seq<Event>, at: Time)
      returns (more: seq<Event>, row: Action)
    requires Remediates(cfg, metric) && cfg.remediationAfter <= at
    requires OnTime(cfg, lag, INITIAL, es) && Lags(ActionsHorizon(es), lag, at)
    requires Ripe(cfg, metric, Run(cfg, INITIAL, es))
    ensures OnTime(cfg, lag, INITIAL, more) && ActionsHorizon(more) == ActionsHorizon(es)
    ensures var s, s' := Run(cfg, INITIAL, es), Run(cfg, INITIAL, more);
            && Ripe(cfg, metric, s') && AttemptAt(cfg, metric, row, at)
            && s'.world.db.actions == s.world.db.actions[s.world.db.nextAction := row]
            && Decisions(s'.out) == Decisions(s.out) + [row]
            && (row.status == Dispatched <==>
                  SafetyReason(cfg, s.world.db.actions, NODE, cfg.playbooks[Key(metric)].name, at).None?)
  {
    var s := Run(cfg, INITIAL, es);
    more := More(cfg, lag, es, Receive(BadPayload(cfg, metric, at), at));
    more := More(cfg, lag, more, Proceed);
    more := More(cfg, lag, more, Proceed);
    more := More(cfg, lag, more, Proceed);
    Evaluated(cfg, metric, s, at);
    RunInv(cfg, INITIAL, more);
    var found := Run(cfg, INITIAL, more);
    more := More(cfg, lag, more, Proceed);
    more := More(cfg, lag, more, Proceed);
    Approached(cfg, metric, found, at);
    if Run(cfg, INITIAL, more).request.Escalating? {
      more := More(cfg, lag, more, Proceed);
    }
    var checking := Run(cfg, INITIAL, more);
    NoDecisionTrail(s.out, checking.out);
    more, row := Concluded(cfg, metric, lag, more, at);
  }

  lemma Concluded(cfg: Config, metric: MetricType, lag: int, es: seq<Event>, at: Time)
      returns (more: seq<Event>, row: Action)
    requires Remediates(cfg, metric) && OnTime(cfg, lag, INITIAL, es)
    requires var s := Run(cfg, INITIAL, es);
             && Checks(cfg, metric, at, s.request) && s.job.JobIdle? && s.calls == {}
             && Open(cfg, metric, s.world.db.alerts) && s.world.db.alerts[0].remediatedAt.None?
    ensures OnTime(cfg, lag, INITIAL, more) && ActionsHorizon(more) == ActionsHorizon(es)
    ensures var s, s' := Run(cfg, INITIAL, es), Run(cfg, INITIAL, more);
            && Ripe(cfg, metric, s') && AttemptAt(cfg, metric, row, at)
            && s'.world.db.actions == s.world.db.actions[s.world.db.nextAction := row]
            && Decisions(s'.out) == Decisions(s.out) + [row]
            && (row.status == Dispatched <==>
                  SafetyReason(cfg, s.world.db.actions, NODE, cfg.playbooks[Key(metric)].name, at).None?)
  {
    var s := Run(cfg, INITIAL, es);
    var recording := Considered(cfg, metric, lag, es, at);
    row := RowOf(Run(cfg, INITIAL, recording).request, s.world.db.nextAction);
    more := Failed(cfg, lag, recording);
  }

  /** Both limits are checked, and the decision is about to be recorded. */
  lemma Considered(cfg: Config, metric: MetricType, lag: int, es: seq<Event>, at: Time) returns (more: seq<Event>)
    requires Remediates(cfg, metric) && OnTime(cfg, lag, INITIAL, es)
    requires Checks(cfg, metric, at, Run(cfg, INITIAL, es).request)
    ensures OnTime(cfg, lag, INITIAL, more) && ActionsHorizon(more) == ActionsHorizon(es)
    ensures var s, s' := Run(cfg, INITIAL, es), Run(cfg, INITIAL, more);
            && s'.request.Recording? && s'.request.c == s.request.c && s'.request.id == 0
            && s'.request.playbook == s.request.playbook
            && s'.request.reason == SafetyReason(cfg, s.world.db.actions, NODE, s.request.playbook.name, at)
            && s' == s.(request := s'.request)
  {
    more := More(cfg, lag, es, Proceed);
    Checked(cfg, metric, Run(cfg, INITIAL, es), at);
    if Run(cfg, INITIAL, more).request.CheckingRate? {
      more := More(cfg, lag, more, Proceed);
    }
  }

  /** The request records its decision and fails before the mark. */
  lemma Failed(cfg: Config, lag: int, es: seq<Event>) returns (more: seq<Event>)
    requires OnTime(cfg, lag, INITIAL, es)
    requires var s := Run(cfg, INITIAL, es); s.request.Recording? && s.request.id in s.world.db.alerts
    ensures OnTime(cfg, lag, INITIAL, more) && ActionsHorizon(more) == ActionsHorizon(es)
    ensures var s, s' := Run(cfg, INITIAL, es), Run(cfg, INITIAL, more);
            var row := RowOf(s.request, s.world.db.nextAction);
            && Inv(s') && s'.request.Idle? && s'.world == s.world.(db := CreateAction(s.world.db, row))
            && s'.job == s.job && s'.calls == s.calls
            && Decisions(s'.out) == Decisions(s.out) + [row]
  {
    RecordedThenFailed(cfg, Run(cfg, INITIAL, es));
    more := More(cfg, lag, es, Proceed);
    more := More(cfg, lag, more, RequestFault);
    RunInv(cfg, INITIAL, more);
  }

  // ----- many attempts at one moment, and none of them left -----

  /** Decisions and rows are all attempts at one moment. */
  ghost predicate AllAt(cfg: Config, metric: MetricType, s: System, at: Time)
    requires Key(metric) in cfg.playbooks
  {
    var ds := Decisions(s.out);
    && (forall i :: 0 <= i < |ds| ==> AttemptAt(cfg, metric, ds[i], at))
    && (forall id :: id in s.world.db.actions ==> s.world.db.actions[id].createdAt == at)
  }

  lemma {:induction false} ManyAttempts(cfg: Config, metric: MetricType, lag: int, at: Time, k: nat)
      returns (es: seq<Event>)
    requires Remediates(cfg, metric) && cfg.remediationAfter <= at
    ensures OnTime(cfg, lag, INITIAL, es) && ActionsHorizon(es) == None
    ensures var s := Run(cfg, INITIAL, es);
            Ripe(cfg, metric, s) && AllAt(cfg, metric, s, at) && |Decisions(s.out)| == k
  {
    if k == 0 {
      es := AlertOpens(cfg, metric);
      NoHorizon(cfg, lag, es);
      var out := Run(cfg, INITIAL, es).out;
      assert out[..0] == [] && Decisions(out) == [];
    } else {
      var before := ManyAttempts(cfg, metric, lag, at, k - 1);
      var row;
      es, row := Attempted(cfg, metric, lag, before, at);
    }
  }

  /** The row is reported if it still waits for its result. */
  lemma Settled(cfg: Config, metric: MetricType, lag: int, es: seq<Event>, id: nat) returns (more: seq<Event>)
    requires Remediates(cfg, metric) && OnTime(cfg, lag, INITIAL, es)
    requires Ripe(cfg, metric, Run(cfg, INITIAL, es)) && id in Run(cfg, INITIAL, es).world.db.actions
    ensures OnTime(cfg, lag, INITIAL, more) && ActionsHorizon(more) == ActionsHorizon(es)
    ensures var s, s' := Run(cfg, INITIAL, es), Run(cfg, INITIAL, more);
            && Ripe(cfg, metric, s') && Decisions(s'.out) == Decisions(s.out)
            && id in s'.world.db.actions && s'.world.db.actions[id].status != Dispatched
            && s'.world.db.actions[id].createdAt == s.world.db.actions[id].createdAt
            && s'.world.db.actions - {id} == s.world.db.actions - {id}
  {
    var s, c := Run(cfg, INITIAL, es), Reporting(0, id, true, "done");
    more := es;
    if s.world.db.actions[id].status == Dispatched {
      more := More(cfg, lag, more, CallReads(c));
      more := More(cfg, lag, more, CallWrites(c, 0));
      Reported(s, c, 0);
      RunInv(cfg, INITIAL, more);
      NoDecisionTrail(s.out, Run(cfg, INITIAL, more).out);
    }
  }

  lemma Reported(s: System, c: Call, at: Time)
    requires s.calls == {} && c.Reporting? && c.id in s.world.db.actions
    requires s.world.db.actions[c.id].status == Dispatched
    ensures var s', a := WriteCall(ReadCall(s, c), c, at), s.world.db.actions;
            && s'.request == s.request && s'.job == s.job && s'.calls == {} && NoDecision(s.out, s'.out)
            && s'.world.db.alerts == s.world.db.alerts
            && s'.world.db.actions
               == a[c.id := MarkedResult(a[c.id], ResultStatus(c.executed), Some(Message(c.text)), at)]
  {
    assert ReadCall(s, c).calls == {c};
  }

  /** The row is deleted by a batch of its own. */
  lemma RowGone(cfg: Config, metric: MetricType, lag: int, es: seq<Event>, id: nat, now: Time)
      returns (more: seq<Event>)
    requires Remediates(cfg, metric) && OnTime(cfg, lag, INITIAL, es)
    requires var s := Run(cfg, INITIAL, es);
             && Ripe(cfg, metric, s) && id in s.world.db.actions
             && s.world.db.actions[id].createdAt < now - cfg.actionsRetention
    ensures OnTime(cfg, lag, INITIAL, more) && ActionsHorizon(more) == Later(ActionsHorizon(es), now)
    ensures var s, s' := Run(cfg, INITIAL, es), Run(cfg, INITIAL, more);
            && Ripe(cfg, metric, s') && Decisions(s'.out) == Decisions(s.out)
            && s'.world.db.actions == s.world.db.actions - {id}
  {
    more := Settled(cfg, metric, lag, es, id);
    assert {id} <= DoomedActions(Run(cfg, INITIAL, more).world.db.actions, now - cfg.actionsRetention);
    more := More(cfg, lag, more, PruneActions(now, {id}));
    RunInv(cfg, INITIAL, more);
  }

  lemma {:induction false} AllGone(cfg: Config, metric: MetricType, lag: int, es: seq<Event>, now: Time, n: nat)
      returns (more: seq<Event>)
    requires Remediates(cfg, metric) && OnTime(cfg, lag, INITIAL, es) && ActionsHorizon(es) in {None, Some(now)}
    requires var s := Run(cfg, INITIAL, es);
             && Ripe(cfg, metric, s) && |s.world.db.actions| == n
             && forall id :: id in s.world.db.actions ==> s.world.db.actions[id].createdAt < now - cfg.actionsRetention
    ensures OnTime(cfg, lag, INITIAL, more) && ActionsHorizon(more) in {None, Some(now)}
    ensures var s, s' := Run(cfg, INITIAL, es), Run(cfg, INITIAL, more);
            && Ripe(cfg, metric, s') && Decisions(s'.out) == Decisions(s.out) && s'.world.db.actions == map[]
    decreases n
  {
    var actions := Run(cfg, INITIAL, es).world.db.actions;
    if n == 0 {
      more := es;
    } else {
      assert actions != map[];
      var id :| id in actions;
      var rest := RowGone(cfg, metric, lag, es, id, now);
      assert (actions - {id}).Keys == actions.Keys - {id};
      assert |actions - {id}| == |(actions - {id}).Keys|;
      more := AllGone(cfg, metric, lag, rest, now, n - 1);
    }
  }

  lemma {:induction false} AllWithin(ds: seq<Action>, node: NodeId, since: Time)
    requires forall i :: 0 <= i < |ds| ==> ds[i].nodeId == node && since <= ds[i].createdAt
    ensures |Within(ds, node, since)| == |ds|
  {
    if ds != [] {
      var n := |ds| - 1;
      AllWithin(ds[..n], node, since);
      assert Within(ds, node, since) == Within(ds[..n], node, since) + {n};
    }
  }

  /** One more dispatch after as many attempts at one moment as an hour allows is not clear of them, if it comes
      within the cooldown or within the hour. */
  lemma NotClear(cfg: Config, metric: MetricType, ds: seq<Action>, was: Time, at: Time)
    requires Remediates(cfg, metric) && |ds| == cfg.maxPerHour
    requires forall i :: 0 <= i < |ds| ==> AttemptAt(cfg, metric, ds[i], was)
    requires at < was + cfg.cooldown || at - HOUR <= was
    ensures !Clear(cfg, ds, NODE, cfg.playbooks[Key(metric)].name, at)
  {
    if at < was + cfg.cooldown {
      assert ds[0].createdAt + cfg.cooldown > at;
    } else {
      AllWithin(ds, NODE, at - HOUR);
    }
  }

  /** As many attempts as an hour allows, all at one moment; retention deletes them all as soon as it may; and a
      payload as late as it may be is remediated as if they had never been. */
  lemma LimitsForgotten(cfg: Config, metric: MetricType, lag: int) returns (es: seq<Event>)
    requires Remediates(cfg, metric) && !LimitsCovered(cfg, lag)
    ensures OnTime(cfg, lag, INITIAL, es) && !Justified(cfg, Decisions(Run(cfg, INITIAL, es).out))
  {
    var was := cfg.remediationAfter + LosingRuns.Positive(lag);
    var now := was + cfg.actionsRetention + 1;
    var at := now - lag;
    es := ManyAttempts(cfg, metric, lag, was, cfg.maxPerHour);
    es := AllGone(cfg, metric, lag, es, now, |Run(cfg, INITIAL, es).world.db.actions|);
    var s := Run(cfg, INITIAL, es);
    var ds := Decisions(s.out);
    var row;
    NothingRecent(cfg, s.world.db.actions, NODE, cfg.playbooks[Key(metric)].name, at);
    es, row := Attempted(cfg, metric, lag, es, at);
    NotClear(cfg, metric, ds, was, at);
    assert (ds + [row])[..|ds|] == ds && (ds + [row])[|ds|] == row;
  }

  /** The safety limits hold over all runs in which payloads lag at most so far behind retention, if and only if
      actions are kept for that lag and the longer look back of the two. */
  lemma LimitsHoldExactlyWhenCovered(cfg: Config, metric: MetricType, lag: int)
    requires Remediates(cfg, metric)
    ensures LimitsCovered(cfg, lag) <==>
      forall es: seq<Event> :: OnTime(cfg, lag, INITIAL, es) ==> Justified(cfg, Decisions(Run(cfg, INITIAL, es).out))
  {
    if LimitsCovered(cfg, lag) {
      forall es: seq<Event> | OnTime(cfg, lag, INITIAL, es)
        ensures Justified(cfg, Decisions(Run(cfg, INITIAL, es).out))
      {
        LimitsHold(cfg, lag, es);
      }
    } else {
      var es := LimitsForgotten(cfg, metric, lag);
      assert !Justified(cfg, Decisions(Run(cfg, INITIAL, es).out));
    }
  }
}
