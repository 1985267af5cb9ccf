/** What the Collector tells an Agent to do: an Ack lists exactly what its request dispatched, and every action says
    what the playbook of its rule says. */
module Acks {
  import opened Model
  import opened Tables
  import opened Rules
  import opened Alerting
  import opened Machine
  import opened MachineInvariants
  import opened HumansFirst
  import ActionStatus
  import Protocol

  /** The decisions to dispatch among some outputs, in the order made. */
  function Dispatches(out: seq<Output>): seq<Action> {
    if out == [] then []
    else
      var n := |out| - 1;
      Dispatches(out[..n])
      + (if out[n].Decided? && out[n].action.status == Dispatched then [out[n].action] else [])
  }

  lemma DispatchesMore(out: seq<Output>, o: Output)
    ensures Dispatches(out + [o])
         == Dispatches(out) + (if o.Decided? && o.action.status == Dispatched then [o.action] else [])
  {
    assert (out + [o])[..|out|] == out;
  }

  /** The request being served is the one received by the j-th event. */
  ghost predicate ServedSince(cfg: Config, es: seq<Event>, j: nat) {
    && j < |es| && es[j].Receive? && Run(cfg, INITIAL, es[..j]).request.Idle?
    && forall m :: j < m <= |es| ==> !Run(cfg, INITIAL, es[..m]).request.Idle?
  }

  /** What has been dispatched since the j-th event. */
  ghost predicate DispatchedSince(cfg: Config, es: seq<Event>, j: nat, actions: seq<Action>) {
    && j <= |es|
    && var before, out := |Run(cfg, INITIAL, es[..j]).out|, Run(cfg, INITIAL, es).out;
    before <= |out| && actions == Dispatches(out[before..])
  }

  // ----- what a request carries -----

  /** The step adds to what the request carries what it adds to the decisions, as long as it goes on. */
  ghost predicate CarriesOn(s: System, s': System) {
    && |s.out| <= |s'.out| <= |s.out| + 1 && s'.out[..|s.out|] == s.out
    && (!s'.request.Idle? ==>
          && Protocol.NodeOf(s'.request) == Protocol.NodeOf(s.request)
          && Protocol.InFlight(s'.request) == Protocol.InFlight(s.request) + Dispatches(s'.out[|s.out|..]))
  }

  lemma QuietCarriesOn(s: System, s': System)
    requires NoDecision(s.out, s'.out)
    requires s'.request.Idle? || (Protocol.NodeOf(s'.request) == Protocol.NodeOf(s.request)
               && Protocol.InFlight(s'.request) == Protocol.InFlight(s.request))
    ensures CarriesOn(s, s')
  {
    assert Dispatches([]) == [];
    if s'.out != s.out {
      assert s'.out[|s.out|..] == [] + [s'.out[|s.out|]];
      DispatchesMore([], s'.out[|s.out|]);
    }
  }

  lemma RecordCarriesOn(cfg: Config, s: System)
    requires s.request.Recording? && s.request.id in s.world.db.alerts
    ensures CarriesOn(s, DecideStep(cfg, s))
  {
    var q, s' := s.request, DecideStep(cfg, s);
    var row := NewAction(s.world.db.nextAction, q.c.node, q.id, q.c.r.ruleKey, q.playbook, q.reason, q.c.at);
    OneDispatch(row, q.seen);
    assert s'.out == s.out + [Decided(row, q.seen)];
    assert s'.request == Marking(q.c, q.id, row);
    Appended(s.out, Decided(row, q.seen));
    CarriesOne(q.c.dispatched, row);
  }

  lemma OneDispatch(row: Action, seen: Alert)
    ensures Dispatches([Decided(row, seen)]) == if row.status == Dispatched then [row] else []
  {
    DispatchesMore([], Decided(row, seen));
    assert [] + [Decided(row, seen)] == [Decided(row, seen)] && Dispatches([]) == [];
  }

  lemma Appended(out: seq<Output>, o: Output)
    ensures (out + [o])[..|out|] == out && (out + [o])[|out|..] == [o]
  {
  }

  lemma CarriesOne(before: seq<Action>, row: Action)
    ensures Collect(before, OnlyDispatched(row)) == before + if row.status == Dispatched then [row] else []
  {
    assert before + [] == before;
  }

  lemma ReadCarriesOn(cfg: Config, s: System)
    requires s.request.Inserting? || s.request.Evaluating? || s.request.Finding?
    ensures CarriesOn(s, ProceedStep(cfg, s))
  {
    var s' := ProceedStep(cfg, s);
    if s.request.Finding? && s.request.todo != [] {
      var q := s.request;
      var next := Look(s.world.db.alerts, Ctx(q.node, q.at, q.todo[0], q.todo[1..], q.dispatched));
      assert Protocol.InFlight(next) == q.dispatched && Protocol.NodeOf(next) == q.node;
    }
    QuietCarriesOn(s, s');
  }

  lemma WriteCarriesOn(cfg: Config, s: System)
    requires s.request.Opening? || s.request.Resolving? || s.request.Marking?
    ensures CarriesOn(s, ProceedStep(cfg, s))
  {
    QuietCarriesOn(s, ProceedStep(cfg, s));
  }

  lemma AdvanceCarriesOn(cfg: Config, s: System)
    requires s.request.Advancing? || s.request.Escalating?
    ensures CarriesOn(s, ProceedStep(cfg, s))
  {
    var q, next := s.request, ProceedStep(cfg, s).request;
    assert q.id in s.world.db.alerts ==>
      Protocol.InFlight(next) == q.c.dispatched && Protocol.NodeOf(next) == q.c.node;
    QuietCarriesOn(s, ProceedStep(cfg, s));
  }

  lemma CheckCarriesOn(cfg: Config, s: System)
    requires s.request.CheckingCooldown? || s.request.CheckingRate?
             || (s.request.Recording? && s.request.id !in s.world.db.alerts)
    ensures CarriesOn(s, DecideStep(cfg, s))
  {
    QuietCarriesOn(s, DecideStep(cfg, s));
  }

  lemma ProceedCarriesOn(cfg: Config, s: System)
    requires !s.request.Idle?
    ensures CarriesOn(s, ProceedStep(cfg, s))
  {
    var q := s.request;
    if q.Inserting? || q.Evaluating? || q.Finding? {
      ReadCarriesOn(cfg, s);
    } else if q.Opening? || q.Resolving? || q.Marking? {
      WriteCarriesOn(cfg, s);
    } else if q.Advancing? || q.Escalating? {
      AdvanceCarriesOn(cfg, s);
    } else if q.Recording? && q.id in s.world.db.alerts {
      RecordCarriesOn(cfg, s);
    } else {
      CheckCarriesOn(cfg, s);
    }
  }

  lemma FrontCarriesOn(cfg: Config, s: System, e: Event)
    requires IsFront(e) && !s.request.Idle?
    ensures CarriesOn(s, Step(cfg, s, e))
  {
    QuietCarriesOn(s, Step(cfg, s, e));
  }

  lemma CallCarriesOn(cfg: Config, s: System, e: Event)
    requires IsCall(e)
    ensures CarriesOn(s, Step(cfg, s, e))
  {
    match e
    case CallReads(c) =>
      ReadCallFrame(s, c);
      QuietCarriesOn(s, ReadCall(s, c));
    case CallWrites(c, at) =>
      WriteCallFrame(s, c, at);
      QuietCarriesOn(s, WriteCall(s, c, at));
    case CallFails(c) =>
      FailCallFrame(s, c);
      QuietCarriesOn(s, FailCall(s, c));
  }

  lemma StepCarriesOn(cfg: Config, s: System, e: Event)
    requires !s.request.Idle?
    ensures CarriesOn(s, Step(cfg, s, e))
  {
    if e.Proceed? {
      ProceedCarriesOn(cfg, s);
    } else if IsFront(e) {
      FrontCarriesOn(cfg, s, e);
    } else if IsCall(e) {
      CallCarriesOn(cfg, s, e);
    } else if IsPrune(e) {
      QuietCarriesOn(s, Step(cfg, s, e));
    } else {
      JobFrame(cfg, s, e);
      QuietCarriesOn(s, Step(cfg, s, e));
    }
  }

  /** Only a payload wakes the request thread. */
  lemma OnlyReceiveWakes(cfg: Config, s: System, e: Event)
    requires s.request.Idle? && !Step(cfg, s, e).request.Idle?
    ensures e.Receive? && Step(cfg, s, e).request == Inserting(e.p, e.receivedAt) && Step(cfg, s, e).out == s.out
  {
    if IsCall(e) {
      CallKeepsRequest(cfg, s, e);
    } else if IsJob(e) {
      JobFrame(cfg, s, e);
    }
  }

  lemma CallKeepsRequest(cfg: Config, s: System, e: Event)
    requires IsCall(e)
    ensures Step(cfg, s, e).request == s.request
  {
  }

  lemma {:induction false} DispatchesJoin(a: seq<Output>, b: seq<Output>)
    ensures Dispatches(a + b) == Dispatches(a) + Dispatches(b)
  {
    if b == [] {
      assert a + b == a;
    } else {
      var n := |b| - 1;
      DispatchesJoin(a, b[..n]);
      assert (a + b)[..|a| + n] == a + b[..n];
    }
  }

  /** The request in progress carries exactly what has been dispatched since its payload arrived. */
  lemma {:induction false} InFlightSince(cfg: Config, es: seq<Event>) returns (j: nat)
    requires !Run(cfg, INITIAL, es).request.Idle?
    ensures ServedSince(cfg, es, j) && Protocol.NodeOf(Run(cfg, INITIAL, es).request) == es[j].p.nodeId
    ensures DispatchedSince(cfg, es, j, Protocol.InFlight(Run(cfg, INITIAL, es).request))
  {
    var n := |es| - 1;
    var s, s' := Run(cfg, INITIAL, es[..n]), Run(cfg, INITIAL, es);
    if s.request.Idle? {
      OnlyReceiveWakes(cfg, s, es[n]);
      JustReceived(cfg, es, n);
      j := n;
    } else {
      j := InFlightSince(cfg, es[..n]);
      StepCarriesOn(cfg, s, es[n]);
      Since(cfg, es, n, j, Protocol.InFlight(s.request));
      StillServed(cfg, es, n, j);
    }
  }

  lemma StillServed(cfg: Config, es: seq<Event>, n: nat, j: nat)
    requires |es| == n + 1 && ServedSince(cfg, es[..n], j) && !Run(cfg, INITIAL, es).request.Idle?
    ensures ServedSince(cfg, es, j) && es[j] == es[..n][j]
  {
    assert es[..n][..j] == es[..j];
    forall m | j < m <= |es| ensures !Run(cfg, INITIAL, es[..m]).request.Idle? {
      assert if m <= n then es[..n][..m] == es[..m] else es[..m] == es;
    }
  }

  lemma JustReceived(cfg: Config, es: seq<Event>, n: nat)
    requires |es| == n + 1 && es[n].Receive? && Run(cfg, INITIAL, es[..n]).request.Idle?
    ensures ServedSince(cfg, es, n) && DispatchedSince(cfg, es, n, [])
  {
    assert es[..n + 1] == es;
    assert Run(cfg, INITIAL, es).out == Run(cfg, INITIAL, es[..n]).out;
    assert Dispatches([]) == [];
  }

  lemma Since(cfg: Config, es: seq<Event>, n: nat, j: nat, actions: seq<Action>)
    requires |es| == n + 1 && DispatchedSince(cfg, es[..n], j, actions)
    requires CarriesOn(Run(cfg, INITIAL, es[..n]), Run(cfg, INITIAL, es))
    ensures DispatchedSince(cfg, es, j,
              actions + Dispatches(Run(cfg, INITIAL, es).out[|Run(cfg, INITIAL, es[..n]).out|..]))
  {
    assert es[..n][..j] == es[..j];
    var k, a, b := |Run(cfg, INITIAL, es[..j]).out|, Run(cfg, INITIAL, es[..n]).out, Run(cfg, INITIAL, es).out;
    assert b[k..] == a[k..] + b[|a|..];
    DispatchesJoin(a[k..], b[|a|..]);
  }

  // ----- what an Ack lists -----

  /** The step answers the request. */
  predicate Answers(s: System, s': System) {
    |s'.out| == |s.out| + 1 && s'.out[|s.out|].Acked?
  }

  lemma OnlyTheRequestAnswers(cfg: Config, s: System, e: Event)
    requires Answers(s, Step(cfg, s, e))
    ensures (e.Proceed? || e.RequestFault?) && !s.request.Idle?
    ensures e.RequestFault? ==> Step(cfg, s, e).out[|s.out|].pending == []
  {
    if IsCall(e) {
      CallsDoNotAnswer(cfg, s, e);
    } else if IsJob(e) {
      JobFrame(cfg, s, e);
    }
  }

  lemma CallsDoNotAnswer(cfg: Config, s: System, e: Event)
    requires IsCall(e)
    ensures !Answers(s, Step(cfg, s, e))
  {
  }

  lemma AnswersAtTheEnd(cfg: Config, s: System)
    requires Inv(s) && Answers(s, ProceedStep(cfg, s))
    ensures s.request.Finding? && s.request.todo == []
    ensures ProceedStep(cfg, s).out == s.out + [Acked(Protocol.NodeOf(s.request), Protocol.InFlight(s.request))]
  {
    if s.request.CheckingCooldown? || s.request.CheckingRate? || s.request.Recording? {
      DecidingDoesNotAnswer(cfg, s);
    }
  }

  lemma DecidingDoesNotAnswer(cfg: Config, s: System)
    requires Inv(s) && (s.request.CheckingCooldown? || s.request.CheckingRate? || s.request.Recording?)
    ensures !Answers(s, DecideStep(cfg, s))
  {
  }

  /** An Ack that ends a request without a fault goes to the node whose payload it answers, and lists exactly the
      actions that were dispatched since that payload arrived, in order; one that a fault brings forward lists none;
      and there are no other Acks. */
  lemma AckListsDispatches(cfg: Config, es: seq<Event>, e: Event) returns (j: nat)
    requires Answers(Run(cfg, INITIAL, es), Step(cfg, Run(cfg, INITIAL, es), e))
    ensures var s := Run(cfg, INITIAL, es);
            var ack := Step(cfg, s, e).out[|s.out|];
            && ServedSince(cfg, es, j) && (e.Proceed? || e.RequestFault?)
            && (e.Proceed? ==> ack.node == es[j].p.nodeId && DispatchedSince(cfg, es, j, ack.pending))
            && (e.RequestFault? ==> ack.pending == [])
  {
    var s := Run(cfg, INITIAL, es);
    RunInv(cfg, INITIAL, es);
    OnlyTheRequestAnswers(cfg, s, e);
    j := InFlightSince(cfg, es);
    if e.Proceed? {
      AnswersAtTheEnd(cfg, s);
    }
  }

  // ----- what the actions say -----

  /** The action is about the alert and says what the playbook of the alert's rule says. */
  predicate Fits(cfg: Config, action: Action, alert: Alert) {
    && action.alertId == alert.id && action.nodeId == alert.nodeId && action.ruleKey == alert.ruleKey
    && FollowsPlaybook(cfg, action)
  }

  predicate FollowsPlaybook(cfg: Config, action: Action) {
    action.ruleKey in cfg.playbooks && Commands(action, cfg.playbooks[action.ruleKey])
  }

  ghost predicate DecisionsFit(cfg: Config, out: seq<Output>) {
    forall i :: 0 <= i < |out| && out[i].Decided? ==> Fits(cfg, out[i].action, out[i].alert)
  }

  /** The playbook in hand is that of the rule of the alert as it was read. */
  ghost predicate RightPlaybook(cfg: Config, q: Request) {
    match q
    case CheckingCooldown(c, id, seen, playbook) => PlaybookOf(cfg, c, id, seen, playbook)
    case CheckingRate(c, id, seen, playbook) => PlaybookOf(cfg, c, id, seen, playbook)
    case Recording(c, id, seen, playbook, _) => PlaybookOf(cfg, c, id, seen, playbook)
    case _ => true
  }

  predicate PlaybookOf(cfg: Config, c: Ctx, id: nat, seen: Alert, playbook: Playbook) {
    && c.r.ruleKey in cfg.playbooks && playbook == cfg.playbooks[c.r.ruleKey]
    && seen.id == id && seen.nodeId == c.node && seen.ruleKey == c.r.ruleKey
  }

  ghost predicate CommandsInv(cfg: Config, s: System) {
    && DecisionsFit(cfg, s.out) && RightPlaybook(cfg, s.request)
    && forall id :: id in s.world.db.actions ==> FollowsPlaybook(cfg, s.world.db.actions[id])
  }

  lemma QuietFits(cfg: Config, before: seq<Output>, after: seq<Output>)
    requires NoDecision(before, after) && DecisionsFit(cfg, before)
    ensures DecisionsFit(cfg, after)
  {
    assert forall i :: 0 <= i < |before| && after != before ==> after[i] == after[..|before|][i];
  }

  lemma RecordCommands(cfg: Config, s: System)
    requires CommandsInv(cfg, s) && s.request.Recording? && s.request.id in s.world.db.alerts
    ensures CommandsInv(cfg, DecideStep(cfg, s))
  {
    var s' := DecideStep(cfg, s);
    assert forall i :: 0 <= i < |s.out| ==> s'.out[i] == s.out[i];
  }

  lemma ReadsPlaybook(cfg: Config, s: System)
    requires Inv(s) && RightPlaybook(cfg, s.request) && !s.request.Recording?
    ensures var s' := ProceedStep(cfg, s);
            RightPlaybook(cfg, s'.request) && NoDecision(s.out, s'.out) && s'.world.db.actions == s.world.db.actions
  {
    var q := s.request;
    if q.Advancing? || q.Escalating? {
      ReadsAlert(cfg, s);
    } else if q.Finding? && q.todo != [] {
      var next := Look(s.world.db.alerts, Ctx(q.node, q.at, q.todo[0], q.todo[1..], q.dispatched));
      assert RightPlaybook(cfg, next);
    } else if q.CheckingCooldown? || q.CheckingRate? {
      assert RightPlaybook(cfg, DecideStep(cfg, s).request);
    }
  }

  lemma ReadsAlert(cfg: Config, s: System)
    requires Inv(s) && (s.request.Advancing? || s.request.Escalating?)
    ensures var s' := ProceedStep(cfg, s);
            RightPlaybook(cfg, s'.request) && NoDecision(s.out, s'.out) && s'.world.db.actions == s.world.db.actions
  {
  }

  lemma ProceedCommands(cfg: Config, s: System)
    requires Inv(s) && CommandsInv(cfg, s)
    ensures CommandsInv(cfg, ProceedStep(cfg, s))
  {
    if s.request.Recording? {
      RecordCommands(cfg, s);
    } else {
      ReadsPlaybook(cfg, s);
      QuietFits(cfg, s.out, ProceedStep(cfg, s).out);
    }
  }

  lemma OutsideCommands(cfg: Config, s: System, e: Event)
    requires Inv(s) && CommandsInv(cfg, s) && !e.Proceed?
    ensures CommandsInv(cfg, Step(cfg, s, e))
  {
    var s' := Step(cfg, s, e);
    OutsideFrame(cfg, s, e);
    QuietFits(cfg, s.out, s'.out);
    ActionStatus.StepAudit(cfg, s, e);
    NoNewRows(cfg, s, e);
    forall id | id in s'.world.db.actions ensures FollowsPlaybook(cfg, s'.world.db.actions[id]) {
      assert FollowsPlaybook(cfg, s.world.db.actions[id]);
    }
  }

  lemma NoNewRows(cfg: Config, s: System, e: Event)
    requires !e.Proceed?
    ensures Step(cfg, s, e).world.db.actions.Keys <= s.world.db.actions.Keys
  {
    if IsCall(e) {
      CallAddsNoRows(cfg, s, e);
    } else if IsJob(e) {
      JobFrame(cfg, s, e);
    }
  }

  lemma CallAddsNoRows(cfg: Config, s: System, e: Event)
    requires IsCall(e)
    ensures Step(cfg, s, e).world.db.actions.Keys == s.world.db.actions.Keys
  {
  }

  /** Over any run every decision is about the alert it was made for, and carries the name, the action and the
      parameters of the playbook mapped to that alert's rule; and so does every row of the audit table. */
  lemma {:induction false} EveryDecisionFollowsItsPlaybook(cfg: Config, es: seq<Event>)
    ensures CommandsInv(cfg, Run(cfg, INITIAL, es))
  {
    if es != [] {
      var n := |es| - 1;
      var s := Run(cfg, INITIAL, es[..n]);
      EveryDecisionFollowsItsPlaybook(cfg, es[..n]);
      RunInv(cfg, INITIAL, es[..n]);
      if es[n].Proceed? {
        ProceedCommands(cfg, s);
      } else {
        OutsideCommands(cfg, s, es[n]);
      }
    }
  }

  lemma {:induction false} DispatchesAreDecisions(out: seq<Output>, i: nat)
    requires i < |Dispatches(out)|
    ensures exists k :: 0 <= k < |out| && out[k].Decided? && out[k].action == Dispatches(out)[i]
  {
    var n := |out| - 1;
    if i < |Dispatches(out[..n])| {
      DispatchesAreDecisions(out[..n], i);
      var k :| 0 <= k < n && out[..n][k].Decided? && out[..n][k].action == Dispatches(out[..n])[i];
      assert out[k].action == Dispatches(out)[i];
    }
  }

  /** Whatever an Ack tells an Agent to do is what the playbook of its rule says, and for that node. */
  lemma AckFollowsPlaybooks(cfg: Config, es: seq<Event>, e: Event, i: nat)
    requires var s := Run(cfg, INITIAL, es);
             Answers(s, Step(cfg, s, e)) && i < |Step(cfg, s, e).out[|s.out|].pending|
    ensures var s := Run(cfg, INITIAL, es);
            FollowsPlaybook(cfg, Step(cfg, s, e).out[|s.out|].pending[i])
  {
    var s := Run(cfg, INITIAL, es);
    var pending := Step(cfg, s, e).out[|s.out|].pending;
    var j := AckListsDispatches(cfg, es, e);
    var k := |Run(cfg, INITIAL, es[..j]).out|;
    EveryDecisionFollowsItsPlaybook(cfg, es);
    DispatchesAreDecisions(s.out[k..], i);
    var m :| 0 <= m < |s.out[k..]| && s.out[k..][m].Decided? && s.out[k..][m].action == pending[i];
    assert s.out[k..][m] == s.out[k + m];
  }
}
