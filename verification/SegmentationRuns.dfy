/** The segmentation over runs of the machine, call by call.

    A verdict takes effect on its alert in up to three commits.  Read with the
    commits still to come of the verdict in flight, the table is the offline
    segmentation after every step, with the job thread, reports, heartbeats and
    verdicts and acknowledgements of other alerts anywhere in between. */
module SegmentationRuns {
  import opened Model
  import opened Tables
  import opened Rules
  import opened Alerting
  import opened Machine
  import opened MachineInvariants
  import opened HumansFirst
  import opened Segmentation
  import RetentionInvisible

  /** The input that takes effect with the next call of the request thread. */
  ghost function RequestInput(s: System): Option<Input> {
    match s.request
    case Opening(c) => Some(Verdict(c.node, c.r, c.at))
    case Resolving(c, _) => Some(Verdict(c.node, c.r, c.at))
    case Advancing(c, _) => Some(Verdict(c.node, c.r, c.at))
    case Finding(node, at, todo, _) =>
      if todo != [] && !todo[0].breached && FindOpen(s.world.db.alerts, node, todo[0].ruleKey).None?
      then Some(Verdict(node, todo[0], at)) else None
    case _ => None
  }

  /** The input that takes effect with an event: a verdict with its first write, or with its read if it writes
      nothing; an acknowledgement with its write. */
  ghost function InputOf(s: System, e: Event): Option<Input> {
    if e.Proceed? then
      RequestInput(s)
    else if e.CallWrites? && e.c in s.calls && e.c.Acknowledging? && Present(s.world.db, e.c) then
      Some(Acknowledgement(e.c.id, e.c.who, e.at))
    else
      None
  }

  ghost function RunHistory(cfg: Config, es: seq<Event>, node: NodeId, key: string): seq<KeyEvent> {
    if es == [] then []
    else
      var n := |es| - 1;
      var s := Run(cfg, INITIAL, es[..n]);
      var input := InputOf(s, es[n]);
      RunHistory(cfg, es[..n], node, key)
      + (if input.Some? then KeyPart(s.world.db.alerts, input.value, node, key) else [])
  }

  /** The alerts of the key, in the order they were opened. */
  ghost function RunIds(cfg: Config, es: seq<Event>, node: NodeId, key: string): seq<nat> {
    if es == [] then []
    else
      var n := |es| - 1;
      var s := Run(cfg, INITIAL, es[..n]);
      var opens := es[n].Proceed? && s.request.Opening? && s.request.c.node == node && s.request.c.r.ruleKey == key;
      RunIds(cfg, es[..n], node, key) + (if opens then [s.world.db.nextAlert] else [])
  }

  // ----- the verdict in flight -----

  /** The row as the verdict in flight will leave it. */
  function Finished(cfg: Config, q: Request, row: Alert): Alert {
    match q
    case Escalating(c, _, _) =>
      var escalated := EscalatedRow(row, c.at);
      if ShouldRemediate(cfg, escalated, c.at) && Mapped(cfg, c.r.ruleKey) then RemediatedRow(escalated, c.at)
      else escalated
    case CheckingCooldown(c, _, _, _) => RemediatedRow(row, c.at)
    case CheckingRate(c, _, _, _) => RemediatedRow(row, c.at)
    case Recording(c, _, _, _, _) => RemediatedRow(row, c.at)
    case Marking(c, _, _) => RemediatedRow(row, c.at)
    case _ => row
  }

  predicate MidVerdict(q: Request) {
    q.Escalating? || q.CheckingCooldown? || q.CheckingRate? || q.Recording? || q.Marking?
  }

  function FinishedAlerts(cfg: Config, q: Request, alerts: Alerts): Alerts {
    if MidVerdict(q) && q.id in alerts then alerts[q.id := Finished(cfg, q, alerts[q.id])] else alerts
  }

  /** The request and the acknowledgements keep out of each other's way on the alerts of the key: no failure hits the
      request between the commits of a verdict on one of them, no acknowledgement of one commits there, and none
      commits on an alert that has been resolved since it was read; and nothing is deleted. */
  ghost predicate Undisturbed(s: System, e: Event, node: NodeId, key: string) {
    var alerts := s.world.db.alerts;
    && !IsPrune(e)
    && (e.RequestFault? || e.Restart? ==>
          MidVerdict(s.request) && s.request.id in alerts ==> !HasKey(alerts[s.request.id], node, key))
    && (e.CallWrites? && e.c in s.calls && e.c.Acknowledging? && e.c.id in alerts ==>
          HasKey(alerts[e.c.id], node, key) ==>
            alerts[e.c.id].status == Firing && !PastItsRead(s.request, e.c.id))
  }

  ghost predicate AllUndisturbed(cfg: Config, es: seq<Event>, node: NodeId, key: string) {
    es == [] ||
    var n := |es| - 1;
    AllUndisturbed(cfg, es[..n], node, key) && Undisturbed(Run(cfg, INITIAL, es[..n]), es[n], node, key)
  }

  // ----- one event -----

  ghost predicate SameFinished(cfg: Config, s: System, s': System, node: NodeId, key: string) {
    SameRows(FinishedAlerts(cfg, s.request, s.world.db.alerts), FinishedAlerts(cfg, s'.request, s'.world.db.alerts),
      node, key)
  }

  /** A commit inside a verdict is already part of the row as the verdict will leave it. */
  lemma MidVerdictStep(cfg: Config, s: System, node: NodeId, key: string)
    requires Inv(s) && MidVerdict(s.request)
    ensures SameFinished(cfg, s, ProceedStep(cfg, s), node, key)
  {
    if s.request.Escalating? || s.request.Marking? {
      WriteStep(cfg, s);
    } else {
      DecideFinished(cfg, s);
    }
  }

  lemma WriteStep(cfg: Config, s: System)
    requires Inv(s) && (s.request.Escalating? || s.request.Marking?)
    ensures FinishedAlerts(cfg, ProceedStep(cfg, s).request, ProceedStep(cfg, s).world.db.alerts)
         == FinishedAlerts(cfg, s.request, s.world.db.alerts)
  {
  }

  lemma DecideFinished(cfg: Config, s: System)
    requires Inv(s) && (s.request.CheckingCooldown? || s.request.CheckingRate? || s.request.Recording?)
    ensures FinishedAlerts(cfg, ProceedStep(cfg, s).request, ProceedStep(cfg, s).world.db.alerts)
         == FinishedAlerts(cfg, s.request, s.world.db.alerts)
  {
  }

  /** A verdict's first write: what the whole verdict comes to, with the commits that follow. */
  lemma InputStep(cfg: Config, s: System)
    requires Inv(s) && RequestInput(s).Some?
    ensures var s' := ProceedStep(cfg, s);
            FinishedAlerts(cfg, s'.request, s'.world.db.alerts) == Apply(cfg, s.world, RequestInput(s).value).db.alerts
  {
    match s.request
    case Opening(c) => assert FindOpen(s.world.db.alerts, c.node, c.r.ruleKey).None?;
    case Resolving(c, id) => assert FindOpen(s.world.db.alerts, c.node, c.r.ruleKey) == Some(id);
    case Advancing(c, id) =>
      assert FindOpen(s.world.db.alerts, c.node, c.r.ruleKey) == Some(id);
      AdvanceInput(cfg, s);
    case Finding(_, _, _, _) =>
  }

  lemma AdvanceInput(cfg: Config, s: System)
    requires Inv(s) && s.request.Advancing?
    ensures var s', c := ProceedStep(cfg, s), s.request.c;
            FinishedAlerts(cfg, s'.request, s'.world.db.alerts)
            == AdvanceVerdict(cfg, s.world, c.node, s.request.id, c.r, c.at).world.db.alerts
  {
  }

  lemma QuietStep(cfg: Config, s: System)
    requires Inv(s) && !MidVerdict(s.request) && RequestInput(s).None?
    ensures ProceedStep(cfg, s).world.db.alerts == s.world.db.alerts && !MidVerdict(ProceedStep(cfg, s).request)
  {
  }

  /** The commits still to come of a verdict on another alert do not matter to the key. */
  lemma FinishingOther(cfg: Config, q: Request, alerts: Alerts, node: NodeId, key: string)
    requires MidVerdict(q) && q.id in alerts ==>
               !HasKey(alerts[q.id], node, key) && !HasKey(Finished(cfg, q, alerts[q.id]), node, key)
    ensures SameRows(FinishedAlerts(cfg, q, alerts), alerts, node, key)
    ensures SameRows(alerts, FinishedAlerts(cfg, q, alerts), node, key)
  {
  }

  /** Other threads leave the alerts of a rule key alone, finished or not. */
  lemma OtherRows(cfg: Config, q: Request, a: Alerts, b: Alerts, node: NodeId, key: string)
    requires SameRows(a, b, node, key)
    requires MidVerdict(q) ==> q.id in a && q.id in b && (HasKey(a[q.id], node, key) <==> HasKey(b[q.id], node, key))
    ensures SameRows(FinishedAlerts(cfg, q, a), FinishedAlerts(cfg, q, b), node, key)
  {
  }

  /** The job thread writes rows of the reserved key only. */
  lemma JobRows(cfg: Config, s: System, e: Event, node: NodeId, key: string)
    requires Inv(s) && IsJob(e) && key != STALENESS_KEY
    ensures SameRows(s.world.db.alerts, Step(cfg, s, e).world.db.alerts, node, key)
  {
    if e.StaleWrite? {
      if s.job.SweepWriting? {
        SweepRows(cfg, s, node, key);
      }
    } else {
      assert JobStep(cfg, s, e).world.db.alerts == s.world.db.alerts;
    }
  }

  lemma SweepRows(cfg: Config, s: System, node: NodeId, key: string)
    requires Inv(s) && s.job.SweepWriting? && key != STALENESS_KEY
    ensures var w' := SweepWrite(cfg, s.world, s.swept, s.job.now, s.job.node, s.job.lastSeen, s.job.found);
            SameRows(s.world.db.alerts, w'.db.alerts, node, key)
  {
    if IsStale(cfg, s.job.now, s.job.lastSeen) {
      StaleOpenRows(s.world, StaleDraft(cfg, s.job.node, s.job.now, s.job.lastSeen), node, key);
    } else if s.job.found.Some? {
      StaleResolveRows(s.world, s.job.found.value, s.job.now, node, key);
    }
  }

  lemma StaleOpenRows(w: World, d: AlertDraft, node: NodeId, key: string)
    requires AlertsOk(w.db.alerts, w.db.nextAlert) && d.ruleKey != key
    ensures SameRows(w.db.alerts, OpenAlert(w, d).db.alerts, node, key)
  {
  }

  lemma StaleResolveRows(w: World, id: nat, at: Time, node: NodeId, key: string)
    requires AlertsOk(w.db.alerts, w.db.nextAlert) && id in w.db.alerts && w.db.alerts[id].ruleKey != key
    ensures SameRows(w.db.alerts, ResolveAlert(w, id, at).db.alerts, node, key)
  {
  }

  /** What an event does to the rows of the key, read as the verdict in flight will leave them. */
  ghost predicate Moves(cfg: Config, s: System, s': System, input: Option<Input>, node: NodeId, key: string)
    requires DbOk(s.world.db)
  {
    var a, b := FinishedAlerts(cfg, s.request, s.world.db.alerts), FinishedAlerts(cfg, s'.request, s'.world.db.alerts);
    if input.Some? && KeyPart(s.world.db.alerts, input.value, node, key) != [] then
      SameRows(a, s.world.db.alerts, node, key) && SameRows(Apply(cfg, s.world, input.value).db.alerts, b, node, key)
    else
      SameRows(a, b, node, key)
  }

  lemma ProceedMoves(cfg: Config, s: System, node: NodeId, key: string)
    requires Inv(s)
    ensures Moves(cfg, s, ProceedStep(cfg, s), RequestInput(s), node, key)
  {
    var input := RequestInput(s);
    if input.Some? {
      InputStep(cfg, s);
      if KeyPart(s.world.db.alerts, input.value, node, key) == [] {
        OtherInput(cfg, s.world, input.value, node, key);
      }
    } else if MidVerdict(s.request) {
      MidVerdictStep(cfg, s, node, key);
    } else {
      QuietStep(cfg, s);
    }
  }

  lemma FaultMoves(cfg: Config, s: System, e: Event, node: NodeId, key: string)
    requires Inv(s) && (e.RequestFault? || e.Restart?) && Undisturbed(s, e, node, key)
    ensures Moves(cfg, s, Step(cfg, s, e), None, node, key)
  {
    var s' := Step(cfg, s, e);
    assert s'.world == s.world && s'.request.Idle?;
    FinishingOther(cfg, s.request, s.world.db.alerts, node, key);
  }

  lemma FrontMoves(cfg: Config, s: System, e: Event, node: NodeId, key: string)
    requires Inv(s) && IsFront(e) && Undisturbed(s, e, node, key)
    ensures Moves(cfg, s, Step(cfg, s, e), None, node, key)
  {
    if e.RequestFault? || e.Restart? {
      FaultMoves(cfg, s, e, node, key);
    } else {
      var s' := Step(cfg, s, e);
      assert s'.world.db.alerts == s.world.db.alerts && (s'.request == s.request || !MidVerdict(s'.request));
      assert FinishedAlerts(cfg, s'.request, s.world.db.alerts) == FinishedAlerts(cfg, s.request, s.world.db.alerts);
    }
  }

  lemma JobMoves(cfg: Config, s: System, e: Event, node: NodeId, key: string)
    requires Inv(s) && IsJob(e) && key != STALENESS_KEY
    ensures Moves(cfg, s, Step(cfg, s, e), None, node, key)
  {
    var s' := Step(cfg, s, e);
    JobFrame(cfg, s, e);
    JobRows(cfg, s, e, node, key);
    if MidVerdict(s.request) {
      var row := s.world.db.alerts[s.request.id];
      JobRows(cfg, s, e, row.nodeId, row.ruleKey);
    }
    OtherRows(cfg, s.request, s.world.db.alerts, s'.world.db.alerts, node, key);
  }

  /** An acknowledgement of an alert of the key. */
  lemma OwnAcknowledgementMoves(cfg: Config, s: System, c: Call, at: Time, node: NodeId, key: string)
    requires Inv(s) && c in s.calls && c.Acknowledging? && c.id in s.world.db.alerts
    requires IsOpen(s.world.db.alerts, c.id, node, key) && !PastItsRead(s.request, c.id)
    ensures Moves(cfg, s, WriteCall(s, c, at), Some(Acknowledgement(c.id, c.who, at)), node, key)
  {
    var alerts, input := s.world.db.alerts, Acknowledgement(c.id, c.who, at);
    var alerts' := WriteCall(s, c, at).world.db.alerts;
    assert alerts' == Apply(cfg, s.world, input).db.alerts;
    assert MidVerdict(s.request) ==> !HasKey(alerts[s.request.id], node, key) && s.request.id != c.id by {
      assert MidVerdict(s.request) && HasKey(alerts[s.request.id], node, key) ==>
          IsOpen(alerts, s.request.id, node, key);
    }
    FinishingOther(cfg, s.request, alerts, node, key);
    FinishingOther(cfg, s.request, alerts', node, key);
  }

  /** An acknowledgement of another alert. */
  lemma OtherAcknowledgementMoves(cfg: Config, s: System, c: Call, at: Time, node: NodeId, key: string)
    requires Inv(s) && c in s.calls && c.Acknowledging? && c.id in s.world.db.alerts
    requires !HasKey(s.world.db.alerts[c.id], node, key)
    ensures Moves(cfg, s, WriteCall(s, c, at), Some(Acknowledgement(c.id, c.who, at)), node, key)
  {
    var s' := WriteCall(s, c, at);
    assert SameRows(s.world.db.alerts, s'.world.db.alerts, node, key);
    OtherRows(cfg, s.request, s.world.db.alerts, s'.world.db.alerts, node, key);
  }

  lemma CallMoves(cfg: Config, s: System, e: Event, node: NodeId, key: string)
    requires Inv(s) && IsCall(e) && Undisturbed(s, e, node, key)
    ensures Moves(cfg, s, Step(cfg, s, e), InputOf(s, e), node, key)
  {
    if InputOf(s, e).Some? {
      if HasKey(s.world.db.alerts[e.c.id], node, key) {
        OwnAcknowledgementMoves(cfg, s, e.c, e.at, node, key);
      } else {
        OtherAcknowledgementMoves(cfg, s, e.c, e.at, node, key);
      }
    } else {
      CallKeepsAlerts(cfg, s, e);
    }
  }

  lemma CallKeepsAlerts(cfg: Config, s: System, e: Event)
    requires IsCall(e) && InputOf(s, e).None?
    ensures Step(cfg, s, e).world.db.alerts == s.world.db.alerts && Step(cfg, s, e).request == s.request
  {
  }

  lemma StepMoves(cfg: Config, s: System, e: Event, node: NodeId, key: string)
    requires Inv(s) && Undisturbed(s, e, node, key) && key != STALENESS_KEY
    ensures Moves(cfg, s, Step(cfg, s, e), InputOf(s, e), node, key)
  {
    if e.Proceed? {
      ProceedMoves(cfg, s, node, key);
    } else if IsFront(e) {
      FrontMoves(cfg, s, e, node, key);
    } else if IsCall(e) {
      CallMoves(cfg, s, e, node, key);
    } else {
      JobMoves(cfg, s, e, node, key);
    }
  }

  // ----- whole runs -----

  /** An alert of the key is opened exactly by a breach that finds none open. */
  lemma OpensExactly(cfg: Config, s: System, e: Event, node: NodeId, key: string)
    requires Inv(s) && InputOf(s, e).Some? && KeyPart(s.world.db.alerts, InputOf(s, e).value, node, key) != []
    ensures var opens := e.Proceed? && s.request.Opening? && s.request.c.node == node && s.request.c.r.ruleKey == key;
            opens <==> Breach(KeyPart(s.world.db.alerts, InputOf(s, e).value, node, key)[0])
                       && FindOpen(s.world.db.alerts, node, key).None?
  {
    if e.Proceed? {
      if s.request.Advancing? {
        assert IsOpen(s.world.db.alerts, s.request.id, node, key);
      } else if s.request.Opening? {
        assert FindOpen(s.world.db.alerts, node, key).None?;
      }
    }
  }

  /** One event on the way: the table, read as the verdict in flight will leave it, follows the history. */
  lemma MatchesStep(cfg: Config, s: System, e: Event, h: seq<KeyEvent>, ids: seq<nat>, node: NodeId, key: string)
    requires Inv(s) && Undisturbed(s, e, node, key) && key != STALENESS_KEY
    requires Matches(FinishedAlerts(cfg, s.request, s.world.db.alerts), ids, Spans(cfg, key, h), node, key)
    ensures var s', input := Step(cfg, s, e), InputOf(s, e);
            var part := if input.Some? then KeyPart(s.world.db.alerts, input.value, node, key) else [];
            var opens := e.Proceed? && s.request.Opening? && s.request.c.node == node && s.request.c.r.ruleKey == key;
            Matches(FinishedAlerts(cfg, s'.request, s'.world.db.alerts),
                    ids + (if opens then [s.world.db.nextAlert] else []), Spans(cfg, key, h + part), node, key)
  {
    var s', input := Step(cfg, s, e), InputOf(s, e);
    var a, b := FinishedAlerts(cfg, s.request, s.world.db.alerts), FinishedAlerts(cfg, s'.request, s'.world.db.alerts);
    StepMoves(cfg, s, e, node, key);
    assert ids + [] == ids && h + [] == h;
    if input.Some? && KeyPart(s.world.db.alerts, input.value, node, key) != [] {
      MatchesOther(a, s.world.db.alerts, ids, Spans(cfg, key, h), node, key);
      MatchesInput(cfg, s, e, input.value, h, ids, node, key);
      OpensExactly(cfg, s, e, node, key);
      var part := KeyPart(s.world.db.alerts, input.value, node, key);
      var isNew := Breach(part[0]) && FindOpen(s.world.db.alerts, node, key).None?;
      MatchesOther(Apply(cfg, s.world, input.value).db.alerts, b,
                   ids + (if isNew then [s.world.db.nextAlert] else []), Spans(cfg, key, h + part), node, key);
    } else {
      NothingOpened(cfg, s, e, node, key);
      MatchesOther(a, b, ids, Spans(cfg, key, h), node, key);
    }
  }

  lemma NothingOpened(cfg: Config, s: System, e: Event, node: NodeId, key: string)
    requires InputOf(s, e).None? || KeyPart(s.world.db.alerts, InputOf(s, e).value, node, key) == []
    ensures !(e.Proceed? && s.request.Opening? && s.request.c.node == node && s.request.c.r.ruleKey == key)
  {
  }

  lemma MatchesInput(cfg: Config, s: System, e: Event, input: Input, h: seq<KeyEvent>, ids: seq<nat>, node: NodeId,
      key: string)
    requires DbOk(s.world.db) && KeyPart(s.world.db.alerts, input, node, key) != []
    requires Matches(s.world.db.alerts, ids, Spans(cfg, key, h), node, key)
    ensures var part := KeyPart(s.world.db.alerts, input, node, key);
            var isNew := Breach(part[0]) && FindOpen(s.world.db.alerts, node, key).None?;
            Matches(Apply(cfg, s.world, input).db.alerts, ids + (if isNew then [s.world.db.nextAlert] else []),
                    Spans(cfg, key, h + part), node, key)
  {
    var x := KeyPart(s.world.db.alerts, input, node, key)[0];
    var found := FindOpen(s.world.db.alerts, node, key);
    BreachingRun(cfg, key, h);
    SpansNext(cfg, key, h, x);
    assert ids + [] == ids && KeyPart(s.world.db.alerts, input, node, key) == [x];
    if found.Some? {
      MatchesOpen(cfg, s.world, input, ids, Spans(cfg, key, h), node, key, found.value, x);
    } else {
      MatchesIdle(cfg, s.world, input, ids, Spans(cfg, key, h), node, key, x);
    }
  }

  /** For every node and rule key, over every run of the machine whose requests and acknowledgements keep out of each
      other's way on the key: the alert rows of the key, read as the verdict in flight will leave them, are one to one
      and in order the runs of breaches of the key's history. */
  lemma {:induction false} RunIsSegmentation(cfg: Config, es: seq<Event>, node: NodeId, key: string)
    requires key != STALENESS_KEY && AllUndisturbed(cfg, es, node, key)
    ensures var s := Run(cfg, INITIAL, es);
            Matches(FinishedAlerts(cfg, s.request, s.world.db.alerts), RunIds(cfg, es, node, key),
                    Spans(cfg, key, RunHistory(cfg, es, node, key)), node, key)
  {
    if es != [] {
      var n := |es| - 1;
      RunIsSegmentation(cfg, es[..n], node, key);
      RunInv(cfg, INITIAL, es[..n]);
      MatchesStep(cfg, Run(cfg, INITIAL, es[..n]), es[n], RunHistory(cfg, es[..n], node, key),
                  RunIds(cfg, es[..n], node, key), node, key);
    }
  }

  /** Between verdicts the table itself is the segmentation. */
  lemma RestingTableIsSegmentation(cfg: Config, es: seq<Event>, node: NodeId, key: string)
    requires key != STALENESS_KEY && AllUndisturbed(cfg, es, node, key) && !MidVerdict(Run(cfg, INITIAL, es).request)
    ensures Matches(Run(cfg, INITIAL, es).world.db.alerts, RunIds(cfg, es, node, key),
                    Spans(cfg, key, RunHistory(cfg, es, node, key)), node, key)
  {
    RunIsSegmentation(cfg, es, node, key);
  }

  // ----- with retention -----

  /** Some alerts of the key may be gone, but only ones whose run is over. */
  ghost predicate MatchesKept(alerts: Alerts, ids: seq<nat>, spans: seq<Span>, node: NodeId, key: string) {
    && |ids| == |spans|
    && (forall m :: 0 <= m < |ids| ==>
          if ids[m] in alerts then HasKey(alerts[ids[m]], node, key) && SpanOf(alerts[ids[m]]) == spans[m]
          else spans[m].status == Resolved)
    && (forall m, n :: 0 <= m < n < |ids| ==> ids[m] < ids[n])
    && (forall id :: id in alerts && HasKey(alerts[id], node, key) ==> id in ids)
  }

  lemma FinishedSim(cfg: Config, q: Request, p: Alerts, f: Alerts)
    requires RetentionInvisible.AlertsSim(p, f) && RequestOk(p, q)
    ensures RetentionInvisible.AlertsSim(FinishedAlerts(cfg, q, p), FinishedAlerts(cfg, q, f))
  {
  }

  lemma KeptMatch(p: Alerts, f: Alerts, ids: seq<nat>, spans: seq<Span>, node: NodeId, key: string)
    requires RetentionInvisible.AlertsSim(p, f) && Matches(f, ids, spans, node, key)
    ensures MatchesKept(p, ids, spans, node, key)
  {
  }

  /** The rows that retention leaves are those of the segmentation of the run without retention, and a run of breaches
      whose row is gone is over. */
  lemma PrunedRunIsSegmentation(cfg: Config, lag: int, es: seq<Event>, node: NodeId, key: string)
    requires RetentionInvisible.WindowsCover(cfg, lag) && RetentionInvisible.Timely(cfg, lag, INITIAL, es)
    requires key != STALENESS_KEY && AllUndisturbed(cfg, RetentionInvisible.WithoutPruning(es), node, key)
    ensures var s, unpruned := Run(cfg, INITIAL, es), RetentionInvisible.WithoutPruning(es);
            MatchesKept(FinishedAlerts(cfg, s.request, s.world.db.alerts), RunIds(cfg, unpruned, node, key),
                        Spans(cfg, key, RunHistory(cfg, unpruned, node, key)), node, key)
  {
    var unpruned := RetentionInvisible.WithoutPruning(es);
    var p, f := Run(cfg, INITIAL, es), Run(cfg, INITIAL, unpruned);
    RetentionInvisible.RunSim(cfg, lag, INITIAL, es);
    RunIsSegmentation(cfg, unpruned, node, key);
    RunInv(cfg, INITIAL, es);
    FinishedSim(cfg, p.request, p.world.db.alerts, f.world.db.alerts);
    KeptMatch(FinishedAlerts(cfg, p.request, p.world.db.alerts), FinishedAlerts(cfg, f.request, f.world.db.alerts),
      RunIds(cfg, unpruned, node, key), Spans(cfg, key, RunHistory(cfg, unpruned, node, key)), node, key);
  }
}
