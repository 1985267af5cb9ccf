/** The safety limits over whole runs.

    The audit trail is read off the outputs, so it also remembers decisions
    whose rows retention has deleted since. */
module SafetyLimits {
  import opened Model
  import opened Tables
  import opened Rules
  import opened Alerting
  import opened Machine
  import opened MachineInvariants
  import opened RetentionInvisible

  /** Every remediation decision ever recorded, in the order recorded. */
  function Decisions(out: seq<Output>): seq<Action> {
    if out == [] then []
    else
      var n := |out| - 1;
      Decisions(out[..n]) + (if out[n].Decided? then [out[n].action] else [])
  }

  /** Earlier decisions, dispatched or blocked, that count against the hourly limit. */
  function Within(ds: seq<Action>, node: NodeId, since: Time): set<nat> {
    set i: nat | i < |ds| && ds[i].nodeId == node && since <= ds[i].createdAt
  }

  /** The playbook has cooled down on the node since every earlier decision about it. */
  ghost predicate Cool(cfg: Config, ds: seq<Action>, node: NodeId, playbook: string, at: Time) {
    forall i :: 0 <= i < |ds| && ds[i].nodeId == node && ds[i].playbookName == playbook ==>
      ds[i].createdAt + cfg.cooldown <= at
  }

  /** No safety limit stands in the way of one more dispatch. */
  ghost predicate Clear(cfg: Config, ds: seq<Action>, node: NodeId, playbook: string, at: Time) {
    && Cool(cfg, ds, node, playbook, at)
    && |Within(ds, node, at - HOUR)| < cfg.maxPerHour
  }

  /** A playbook is dispatched exactly when no limit stands in the way. */
  ghost predicate Justified(cfg: Config, ds: seq<Action>) {
    forall n :: 0 <= n < |ds| ==>
      (ds[n].status == Dispatched <==> Clear(cfg, ds[..n], ds[n].nodeId, ds[n].playbookName, ds[n].createdAt))
  }

  // ----- how far payloads may lag behind retention -----

  /** The latest instant a retention batch has deleted actions at. */
  function ActionsHorizon(es: seq<Event>): Option<Time> {
    if es == [] then None
    else
      var n := |es| - 1;
      if es[n].PruneActions? then Later(ActionsHorizon(es[..n]), es[n].now) else ActionsHorizon(es[..n])
  }

  /** No payload is evaluated more than `lag` behind the latest batch that deletes actions. */
  ghost predicate OnTimeEvent(horizon: Option<Time>, lag: int, s: System, e: Event) {
    match e
    case Receive(p, _) => s.request.Idle? ==> Lags(horizon, lag, p.collectedAt)
    case PruneActions(now, _) => InTime(Some(now), lag, s.request)
    case _ => true
  }

  predicate InTime(horizon: Option<Time>, lag: int, q: Request) {
    TimeOf(q).Some? ==> Lags(horizon, lag, TimeOf(q).value)
  }

  ghost predicate OnTime(cfg: Config, lag: int, s: System, es: seq<Event>) {
    es == [] ||
    var n := |es| - 1;
    OnTime(cfg, lag, s, es[..n]) && OnTimeEvent(ActionsHorizon(es[..n]), lag, Run(cfg, s, es[..n]), es[n])
  }

  /** Actions are kept long enough for both limits to look back from a payload that lags.  A row is deleted when it
      is strictly older than the window, and the cooldown is over at its last microsecond. */
  predicate LimitsCovered(cfg: Config, lag: int) {
    lag + cfg.cooldown <= cfg.actionsRetention + 1 && lag + HOUR <= cfg.actionsRetention
  }

  // ----- the audit table holds the trail -----

  /** The row carries the decision it records; later writes touch status, reason and completion only. */
  predicate Records(row: Action, decided: Action) {
    row.nodeId == decided.nodeId && row.playbookName == decided.playbookName && row.createdAt == decided.createdAt
  }

  /** Every row records its decision, and a decision without a row is past retention. */
  ghost predicate SameTrail(actions: Actions, ds: seq<Action>, horizon: Option<Time>, retention: int) {
    && (forall i: nat :: i in actions ==> i < |ds| && Records(actions[i], ds[i]))
    && (forall i: nat :: i < |ds| && i !in actions ==> Expired(horizon, retention, ds[i].createdAt))
  }

  lemma CooldownOfTrail(cfg: Config, lag: int, horizon: Option<Time>, actions: Actions, ds: seq<Action>, node: NodeId,
      playbook: string, at: Time)
    requires SameTrail(actions, ds, horizon, cfg.actionsRetention) && LimitsCovered(cfg, lag) && Lags(horizon, lag, at)
    ensures CooldownReason(cfg, LastCreated(actions, node, playbook), at).None? <==> Cool(cfg, ds, node, playbook, at)
  {
    forall i: nat | i < |ds| && ds[i].nodeId == node && ds[i].playbookName == playbook
      ensures i in PlaybookIds(actions, node, playbook) || ds[i].createdAt + cfg.cooldown <= at
    {
    }
  }

  lemma CountOfTrail(cfg: Config, lag: int, horizon: Option<Time>, actions: Actions, ds: seq<Action>, node: NodeId,
      at: Time)
    requires SameTrail(actions, ds, horizon, cfg.actionsRetention) && LimitsCovered(cfg, lag) && Lags(horizon, lag, at)
    ensures CountRecent(actions, node, at - HOUR) == |Within(ds, node, at - HOUR)|
  {
    assert RecentIds(actions, node, at - HOUR) == Within(ds, node, at - HOUR);
  }

  /** What the request has read about the limits is still what the trail says. */
  ghost predicate ReadsCurrent(cfg: Config, ds: seq<Action>, q: Request) {
    match q
    case CheckingRate(c, _, _, playbook) => Cool(cfg, ds, c.node, playbook.name, c.at)
    case Recording(c, _, _, playbook, reason) =>
      reason.None? <==> Clear(cfg, ds, c.node, playbook.name, c.at)
    case _ => true
  }

  ghost predicate TrailInv(cfg: Config, horizon: Option<Time>, s: System) {
    var ds := Decisions(s.out);
    && s.world.db.nextAction == |ds|
    && SameTrail(s.world.db.actions, ds, horizon, cfg.actionsRetention)
    && Justified(cfg, ds)
    && ReadsCurrent(cfg, ds, s.request)
  }

  lemma DecisionsAppend(out: seq<Output>, o: Output)
    ensures Decisions(out + [o]) == Decisions(out) + (if o.Decided? then [o.action] else [])
  {
    assert (out + [o])[..|out|] == out;
  }

  lemma JustifiedAppend(cfg: Config, ds: seq<Action>, row: Action)
    requires Justified(cfg, ds)
    requires row.status == Dispatched <==> Clear(cfg, ds, row.nodeId, row.playbookName, row.createdAt)
    ensures Justified(cfg, ds + [row])
  {
    var all := ds + [row];
    forall n | 0 <= n < |all|
      ensures all[n].status == Dispatched <==> Clear(cfg, all[..n], all[n].nodeId, all[n].playbookName,
          all[n].createdAt)
    {
      assert all[..n] == ds[..n];
      assert ds[..|ds|] == ds;
    }
  }

  lemma TrailAppend(actions: Actions, ds: seq<Action>, row: Action, horizon: Option<Time>, retention: int)
    requires SameTrail(actions, ds, horizon, retention)
    ensures SameTrail(actions[|ds| := row], ds + [row], horizon, retention)
  {
  }

  lemma RecordTrail(cfg: Config, horizon: Option<Time>, s: System)
    requires TrailInv(cfg, horizon, s) && s.request.Recording? && s.request.id in s.world.db.alerts
    ensures TrailInv(cfg, horizon, DecideStep(cfg, s))
  {
    var ds, q := Decisions(s.out), s.request;
    var row := NewAction(|ds|, q.c.node, q.id, q.c.r.ruleKey, q.playbook, q.reason, q.c.at);
    DecisionsAppend(s.out, Decided(row, q.seen));
    TrailAppend(s.world.db.actions, ds, row, horizon, cfg.actionsRetention);
    JustifiedAppend(cfg, ds, row);
    assert DecideStep(cfg, s).request.Marking?;
  }

  lemma CooldownTrail(cfg: Config, lag: int, horizon: Option<Time>, s: System)
    requires TrailInv(cfg, horizon, s) && LimitsCovered(cfg, lag) && InTime(horizon, lag, s.request)
    requires s.request.CheckingCooldown?
    ensures TrailInv(cfg, horizon, DecideStep(cfg, s))
  {
    var ds, actions, c := Decisions(s.out), s.world.db.actions, s.request.c;
    CooldownOfTrail(cfg, lag, horizon, actions, ds, c.node, s.request.playbook.name, c.at);
    TrailRead(cfg, horizon, s, DecideStep(cfg, s).request);
  }

  lemma RateTrail(cfg: Config, lag: int, horizon: Option<Time>, s: System)
    requires TrailInv(cfg, horizon, s) && LimitsCovered(cfg, lag) && InTime(horizon, lag, s.request)
    requires s.request.CheckingRate?
    ensures TrailInv(cfg, horizon, DecideStep(cfg, s))
  {
    RateRead(cfg, s);
    RateCurrent(cfg, lag, horizon, s, Decisions(s.out));
    TrailRead(cfg, horizon, s, DecideStep(cfg, s).request);
  }

  lemma RateCurrent(cfg: Config, lag: int, horizon: Option<Time>, s: System, ds: seq<Action>)
    requires SameTrail(s.world.db.actions, ds, horizon, cfg.actionsRetention) && ReadsCurrent(cfg, ds, s.request)
    requires LimitsCovered(cfg, lag) && InTime(horizon, lag, s.request) && s.request.CheckingRate?
    ensures ReadsCurrent(cfg, ds, DecideStep(cfg, s).request)
  {
    var c := s.request.c;
    CountOfTrail(cfg, lag, horizon, s.world.db.actions, ds, c.node, c.at);
    RateRead(cfg, s);
    ReasonCurrent(cfg, ds, DecideStep(cfg, s).request);
  }

  lemma ReasonCurrent(cfg: Config, ds: seq<Action>, q: Request)
    requires q.Recording? && Cool(cfg, ds, q.c.node, q.playbook.name, q.c.at)
    requires q.reason.None? <==> |Within(ds, q.c.node, q.c.at - HOUR)| < cfg.maxPerHour
    ensures ReadsCurrent(cfg, ds, q)
  {
  }

  lemma RateRead(cfg: Config, s: System)
    requires s.request.CheckingRate?
    ensures var q, r := s.request, DecideStep(cfg, s).request;
            && DecideStep(cfg, s) == s.(request := r)
            && r.Recording? && r.c == q.c && r.playbook == q.playbook
            && (r.reason.None? <==> CountRecent(s.world.db.actions, q.c.node, q.c.at - HOUR) < cfg.maxPerHour)
  {
  }

  lemma TrailRead(cfg: Config, horizon: Option<Time>, s: System, q: Request)
    requires TrailInv(cfg, horizon, s) && ReadsCurrent(cfg, Decisions(s.out), q)
    ensures TrailInv(cfg, horizon, s.(request := q))
  {
  }

  predicate IsDeciding(q: Request) {
    q.CheckingCooldown? || q.CheckingRate? || q.Recording?
  }

  lemma NoDecisionTrail(before: seq<Output>, after: seq<Output>)
    requires NoDecision(before, after)
    ensures Decisions(after) == Decisions(before)
  {
    if after != before {
      assert after == before + [after[|before|]];
      DecisionsAppend(before, after[|before|]);
    }
  }

  lemma ProceedLeavesTrail(cfg: Config, s: System)
    requires !IsDeciding(s.request)
    ensures var s' := ProceedStep(cfg, s);
            && NoDecision(s.out, s'.out)
            && s'.world.db.actions == s.world.db.actions && s'.world.db.nextAction == s.world.db.nextAction
            && !s'.request.CheckingRate? && !s'.request.Recording?
  {
    match s.request
    case Finding(node, at, todo, dispatched) =>
      if todo != [] {
        var q := Look(s.world.db.alerts, Ctx(node, at, todo[0], todo[1..], dispatched));
        assert !q.CheckingRate? && !q.Recording?;
      }
    case Advancing(c, id) => assert !IsDeciding(FailRequest(s).request);
    case Escalating(c, id, _) => assert !IsDeciding(FailRequest(s).request);
    case _ =>
  }

  ghost predicate SameKeysAndFields(a: Actions, b: Actions) {
    b.Keys == a.Keys &&
    forall i :: i in a ==>
      b[i].nodeId == a[i].nodeId && b[i].playbookName == a[i].playbookName && b[i].createdAt == a[i].createdAt
  }

  lemma JobLeavesTrail(cfg: Config, s: System, e: Event)
    ensures var s' := JobStep(cfg, s, e);
            && s'.out == s.out && s'.request == s.request
            && SameKeysAndFields(s.world.db.actions, s'.world.db.actions)
            && s'.world.db.nextAction == s.world.db.nextAction
  {
    match e
    case StaleWrite =>
      if s.job.SweepWriting? {
        var w' := SweepWrite(cfg, s.world, s.swept, s.job.now, s.job.node, s.job.lastSeen, s.job.found);
        assert w'.db.actions == s.world.db.actions && w'.db.nextAction == s.world.db.nextAction;
      }
    case _ =>
  }

  /** What a step outside the request thread leaves of the trail and of a decision in progress. */
  ghost predicate LeavesTrail(s: System, s': System) {
    && NoDecision(s.out, s'.out)
    && SameKeysAndFields(s.world.db.actions, s'.world.db.actions)
    && s'.world.db.nextAction == s.world.db.nextAction
    && (s'.request == s.request || !IsDeciding(s'.request))
  }

  lemma FrontLeavesTrail(cfg: Config, s: System, e: Event)
    requires IsFront(e)
    ensures LeavesTrail(s, Step(cfg, s, e))
  {
  }

  lemma CallLeavesTrail(cfg: Config, s: System, e: Event)
    requires IsCall(e)
    ensures LeavesTrail(s, Step(cfg, s, e))
  {
    match e
    case CallReads(c) => ReadCallFrame(s, c);
    case CallFails(c) => FailCallFrame(s, c);
    case CallWrites(c, at) =>
      WriteCallFrame(s, c, at);
      if Present(s.world.db, c) {
        WrittenTrail(s.world.db, c, at);
      }
  }

  lemma WrittenTrail(db: Db, c: Call, at: Time)
    requires Present(db, c)
    ensures SameKeysAndFields(db.actions, Written(db, c, at).actions) && Written(db, c, at).nextAction == db.nextAction
  {
  }

  lemma OtherLeavesTrail(cfg: Config, s: System, e: Event)
    requires !IsPrune(e) && !e.Proceed?
    ensures LeavesTrail(s, Step(cfg, s, e))
  {
    if IsFront(e) {
      FrontLeavesTrail(cfg, s, e);
    } else if IsCall(e) {
      CallLeavesTrail(cfg, s, e);
    } else {
      JobLeavesTrail(cfg, s, e);
    }
  }

  lemma TrailKept(cfg: Config, horizon: Option<Time>, s: System, s': System)
    requires TrailInv(cfg, horizon, s) && NoDecision(s.out, s'.out)
    requires SameKeysAndFields(s.world.db.actions, s'.world.db.actions)
    requires s'.world.db.nextAction == s.world.db.nextAction
    requires s'.request == s.request || !(s'.request.CheckingRate? || s'.request.Recording?)
    ensures TrailInv(cfg, horizon, s')
  {
    NoDecisionTrail(s.out, s'.out);
  }

  lemma DecideTrail(cfg: Config, lag: int, horizon: Option<Time>, s: System)
    requires TrailInv(cfg, horizon, s) && LimitsCovered(cfg, lag) && InTime(horizon, lag, s.request)
    requires IsDeciding(s.request)
    ensures TrailInv(cfg, horizon, ProceedStep(cfg, s))
  {
    var q := s.request;
    if q.CheckingCooldown? {
      CooldownTrail(cfg, lag, horizon, s);
    } else if q.CheckingRate? {
      RateTrail(cfg, lag, horizon, s);
    } else if q.id in s.world.db.alerts {
      RecordTrail(cfg, horizon, s);
    } else {
      TrailKept(cfg, horizon, s, FailRequest(s));
    }
  }

  lemma TrailPruned(actions: Actions, ds: seq<Action>, horizon: Option<Time>, retention: int, now: Time, ids: set<nat>)
    requires SameTrail(actions, ds, horizon, retention) && ids <= DoomedActions(actions, now - retention)
    ensures SameTrail(actions - ids, ds, Later(horizon, now), retention)
  {
  }

  lemma TrailAges(actions: Actions, ds: seq<Action>, horizon: Option<Time>, retention: int, now: Time)
    requires SameTrail(actions, ds, horizon, retention)
    ensures SameTrail(actions, ds, Later(horizon, now), retention)
  {
  }

  /** A batch deletes rows, not the decisions they record: what is gone is past retention, and what a request has
      read about the limits is about the decisions. */
  lemma PruneTrail(cfg: Config, horizon: Option<Time>, s: System, e: Event)
    requires TrailInv(cfg, horizon, s) && IsPrune(e)
    ensures TrailInv(cfg, if e.PruneActions? then Later(horizon, e.now) else horizon, Step(cfg, s, e))
  {
    if e.PruneActions? {
      var ds, actions := Decisions(s.out), s.world.db.actions;
      TrailAges(actions, ds, horizon, cfg.actionsRetention, e.now);
      if PruneEnabled(cfg, s, e) {
        TrailPruned(actions, ds, horizon, cfg.actionsRetention, e.now, e.ids);
      }
    }
  }

  lemma StepTrail(cfg: Config, lag: int, horizon: Option<Time>, s: System, e: Event)
    requires TrailInv(cfg, horizon, s) && LimitsCovered(cfg, lag) && InTime(horizon, lag, s.request)
    requires !IsPrune(e)
    ensures TrailInv(cfg, horizon, Step(cfg, s, e))
  {
    if e.Proceed? && IsDeciding(s.request) {
      DecideTrail(cfg, lag, horizon, s);
    } else {
      if e.Proceed? {
        ProceedLeavesTrail(cfg, s);
      } else {
        OtherLeavesTrail(cfg, s, e);
      }
      TrailKept(cfg, horizon, s, Step(cfg, s, e));
    }
  }

  lemma StaysInTime(cfg: Config, lag: int, horizon: Option<Time>, s: System, e: Event)
    requires InTime(horizon, lag, s.request) && OnTimeEvent(horizon, lag, s, e)
    ensures InTime(if e.PruneActions? then Later(horizon, e.now) else horizon, lag, Step(cfg, s, e).request)
  {
    if e.Proceed? {
      ProceedTime(cfg, s);
    } else if IsJob(e) {
      JobLeavesTrail(cfg, s, e);
    }
  }

  /** After any run the audit table holds every decision ever made but those past retention, and each was a dispatch
      exactly when no limit, counted over all of them, stood in the way. */
  lemma {:induction false} RunTrail(cfg: Config, lag: int, es: seq<Event>)
    requires LimitsCovered(cfg, lag) && OnTime(cfg, lag, INITIAL, es)
    ensures TrailInv(cfg, ActionsHorizon(es), Run(cfg, INITIAL, es))
    ensures InTime(ActionsHorizon(es), lag, Run(cfg, INITIAL, es).request)
  {
    if es != [] {
      var n := |es| - 1;
      var before, horizon := Run(cfg, INITIAL, es[..n]), ActionsHorizon(es[..n]);
      RunTrail(cfg, lag, es[..n]);
      StaysInTime(cfg, lag, horizon, before, es[n]);
      if IsPrune(es[n]) {
        PruneTrail(cfg, horizon, before, es[n]);
      } else {
        StepTrail(cfg, lag, horizon, before, es[n]);
      }
    }
  }

  // ----- what the trail says about any window -----

  /** The dispatches on a node created in the closed window [lo, hi]. */
  function DispatchedIn(ds: seq<Action>, node: NodeId, lo: Time, hi: Time): set<nat> {
    set i: nat | i < |ds| && ds[i].status == Dispatched && ds[i].nodeId == node && lo <= ds[i].createdAt <= hi
  }

  lemma MaxOf(s: set<nat>) returns (m: nat)
    requires s != {}
    ensures m in s && forall i :: i in s ==> i <= m
  {
    var x :| x in s;
    m := x;
    if s != {x} {
      var k := MaxOf(s - {x});
      m := if k < x then x else k;
      assert forall i :: i in s ==> i == x || i in s - {x};
    }
  }

  lemma SubsetSize(a: set<nat>, b: set<nat>)
    requires a <= b
    ensures |a| <= |b|
  {
    if a != {} {
      var x :| x in a;
      SubsetSize(a - {x}, b - {x});
    }
  }

  /** The hourly limit, for decision times in any order: the last recorded
      dispatch of a window saw all the others. */
  lemma HourlyLimit(cfg: Config, ds: seq<Action>, node: NodeId, lo: Time)
    requires Justified(cfg, ds)
    ensures |DispatchedIn(ds, node, lo, lo + HOUR)| <= cfg.maxPerHour
  {
    var window := DispatchedIn(ds, node, lo, lo + HOUR);
    if window != {} {
      var n := MaxOf(window);
      var seen := Within(ds[..n], node, ds[n].createdAt - HOUR);
      assert Clear(cfg, ds[..n], node, ds[n].playbookName, ds[n].createdAt);
      assert window - {n} <= seen;
      SubsetSize(window - {n}, seen);
    }
  }

  lemma WindowSplits(ds: seq<Action>, node: NodeId, lo: Time, mid: Time, hi: Time)
    requires lo <= mid <= hi
    ensures |DispatchedIn(ds, node, lo, hi)| <= |DispatchedIn(ds, node, lo, mid)| + |DispatchedIn(ds, node, mid, hi)|
  {
    var first, last := DispatchedIn(ds, node, lo, mid), DispatchedIn(ds, node, mid, hi);
    assert DispatchedIn(ds, node, lo, hi) == first + last;
    assert |first + last| == |first| + |last| - |first * last|;
  }

  lemma OneMore(a: nat, k: nat)
    requires 1 <= k
    ensures a * (k - 1) + a == a * k
  {
  }

  /** Any window of k hours holds at most k times the hourly limit. */
  lemma {:induction false} HoursLimit(cfg: Config, ds: seq<Action>, node: NodeId, lo: Time, hours: nat)
    requires Justified(cfg, ds) && 1 <= hours
    ensures |DispatchedIn(ds, node, lo, lo + hours * HOUR)| <= cfg.maxPerHour * hours
  {
    if hours == 1 {
      HourlyLimit(cfg, ds, node, lo);
    } else {
      var mid := lo + (hours - 1) * HOUR;
      HoursLimit(cfg, ds, node, lo, hours - 1);
      HourlyLimit(cfg, ds, node, mid);
      WindowSplits(ds, node, lo, mid, mid + HOUR);
      OneMore(cfg.maxPerHour, hours);
    }
  }

  /** A dispatch lies at least the cooldown after every earlier decision about
      the same playbook on the same node, whether that one was dispatched or blocked. */
  lemma CooldownSeparation(cfg: Config, ds: seq<Action>, i: nat, n: nat)
    requires Justified(cfg, ds) && i < n < |ds| && ds[n].status == Dispatched
    requires ds[i].nodeId == ds[n].nodeId && ds[i].playbookName == ds[n].playbookName
    ensures ds[i].createdAt + cfg.cooldown <= ds[n].createdAt
  {
    assert Clear(cfg, ds[..n], ds[n].nodeId, ds[n].playbookName, ds[n].createdAt);
    assert ds[..n][i] == ds[i];
  }

  function PlaybookDispatches(ds: seq<Action>, node: NodeId, playbook: string, lo: Time, hi: Time): set<nat> {
    set i: nat | i < |ds| && ds[i].status == Dispatched && ds[i].nodeId == node && ds[i].playbookName == playbook
                 && lo <= ds[i].createdAt <= hi
  }

  /** Without its last dispatch, a window is one cooldown shorter. */
  lemma OneFewer(cfg: Config, ds: seq<Action>, node: NodeId, playbook: string, lo: Time, width: int, n: nat)
    requires n in PlaybookDispatches(ds, node, playbook, lo, lo + width)
    requires forall i :: i in PlaybookDispatches(ds, node, playbook, lo, lo + width) - {n} ==>
               ds[i].createdAt + cfg.cooldown <= ds[n].createdAt
    ensures |PlaybookDispatches(ds, node, playbook, lo, lo + width)|
         <= |PlaybookDispatches(ds, node, playbook, lo, lo + (width - cfg.cooldown))| + 1
  {
    var window := PlaybookDispatches(ds, node, playbook, lo, lo + width);
    var shorter := PlaybookDispatches(ds, node, playbook, lo, lo + (width - cfg.cooldown));
    assert window - {n} <= shorter;
    SubsetSize(window - {n}, shorter);
  }

  /** Dispatches are at least the cooldown apart, so a window narrower than k cooldowns holds at most k of them. */
  lemma {:induction false} CooldownLimit(cfg: Config, ds: seq<Action>, node: NodeId, playbook: string,
                                         lo: Time, width: int, k: nat)
    requires Justified(cfg, ds) && 0 < cfg.cooldown && width < cfg.cooldown * k
    ensures |PlaybookDispatches(ds, node, playbook, lo, lo + width)| <= k
    decreases k
  {
    var window := PlaybookDispatches(ds, node, playbook, lo, lo + width);
    if window != {} {
      var n := MaxOf(window);
      forall i | i in window - {n} ensures ds[i].createdAt + cfg.cooldown <= ds[n].createdAt {
        CooldownSeparation(cfg, ds, i, n);
      }
      assert 1 <= k;
      OneMore(cfg.cooldown, k);
      CooldownLimit(cfg, ds, node, playbook, lo, width - cfg.cooldown, k - 1);
      OneFewer(cfg, ds, node, playbook, lo, width, n);
    }
  }

  // ----- runs with retention -----

  /** Under any interleaving, faults between any two commits, Agents whose clocks are off and retention batches at
      any point, each playbook is dispatched exactly when the limits, counted over everything ever decided, allow it,
      as long as payloads do not lag further behind retention than the actions are kept. */
  lemma LimitsHold(cfg: Config, lag: int, es: seq<Event>)
    requires LimitsCovered(cfg, lag) && OnTime(cfg, lag, INITIAL, es)
    ensures Justified(cfg, Decisions(Run(cfg, INITIAL, es).out))
  {
    RunTrail(cfg, lag, es);
  }

  ghost predicate DeletesNoAction(es: seq<Event>) {
    forall i :: 0 <= i < |es| ==> !es[i].PruneActions?
  }

  lemma {:induction false} NoHorizon(cfg: Config, lag: int, es: seq<Event>)
    requires DeletesNoAction(es)
    ensures ActionsHorizon(es) == None && OnTime(cfg, lag, INITIAL, es)
  {
    if es != [] {
      NoHorizon(cfg, lag, es[..|es| - 1]);
    }
  }

  /** A run that deletes no action needs no condition at all. */
  lemma LimitsHoldUnpruned(cfg: Config, es: seq<Event>)
    requires DeletesNoAction(es)
    ensures Justified(cfg, Decisions(Run(cfg, INITIAL, es).out))
  {
    var lag := if cfg.cooldown < HOUR then cfg.actionsRetention - HOUR else cfg.actionsRetention - cfg.cooldown;
    NoHorizon(cfg, lag, es);
    LimitsHold(cfg, lag, es);
  }

  /** Over any such run, a dispatch lies at least the cooldown after every earlier decision about its node and
      playbook, dispatched or blocked, whatever order the decision times come in. */
  lemma DispatchesAreSeparated(cfg: Config, lag: int, es: seq<Event>, i: nat, n: nat)
    requires LimitsCovered(cfg, lag) && OnTime(cfg, lag, INITIAL, es)
    requires var ds := Decisions(Run(cfg, INITIAL, es).out);
             && i < n < |ds| && ds[n].status == Dispatched
             && ds[i].nodeId == ds[n].nodeId && ds[i].playbookName == ds[n].playbookName
    ensures var ds := Decisions(Run(cfg, INITIAL, es).out);
            ds[i].createdAt + cfg.cooldown <= ds[n].createdAt
  {
    LimitsHold(cfg, lag, es);
    CooldownSeparation(cfg, Decisions(Run(cfg, INITIAL, es).out), i, n);
  }

  /** The promised safety limits: dispatches per node in any window, and per
      node and playbook in any window. */
  lemma DispatchRate(cfg: Config, lag: int, es: seq<Event>, node: NodeId, playbook: string, lo: Time, width: int)
    requires LimitsCovered(cfg, lag) && OnTime(cfg, lag, INITIAL, es) && 0 < width
    ensures var ds := Decisions(Run(cfg, INITIAL, es).out);
            && |DispatchedIn(ds, node, lo, lo + width)| <= cfg.maxPerHour * ((width + HOUR - 1) / HOUR)
            && (0 < cfg.cooldown ==>
                  |PlaybookDispatches(ds, node, playbook, lo, lo + width)| <= width / cfg.cooldown + 1)
  {
    LimitsHold(cfg, lag, es);
    var ds := Decisions(Run(cfg, INITIAL, es).out);
    var hours := (width + HOUR - 1) / HOUR;
    HoursLimit(cfg, ds, node, lo, hours);
    SubsetSize(DispatchedIn(ds, node, lo, lo + width), DispatchedIn(ds, node, lo, lo + hours * HOUR));
    if 0 < cfg.cooldown {
      CooldownLimit(cfg, ds, node, playbook, lo, width, width / cfg.cooldown + 1);
    }
  }
}
