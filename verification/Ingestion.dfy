/** One ingestion request from start to finish, as a function; the machine's
    request thread refines it, and redelivering a payload changes nothing. */
module Ingestion {
  import opened Model
  import opened Tables
  import opened Rules
  import opened Alerting
  import opened Machine
  import opened MachineInvariants

  /** The tables once the payload is stored. */
  function Stored(w: World, p: Payload, receivedAt: Time): World {
    w.(db := BulkInsert(UpsertSeen(w.db, p.nodeId, p.collectedAt), p, receivedAt))
  }

  ghost function Ingest(cfg: Config, w: World, p: Payload, receivedAt: Time): (o: Outcome)
    requires DbOk(w.db)
    ensures DbOk(o.world.db)
  {
    var stored := Stored(w, p, receivedAt);
    ApplyAll(cfg, stored, p.nodeId, Evaluate(cfg, stored.db.samples, p.nodeId, p.samples, p.collectedAt), p.collectedAt)
  }

  // ----- the request thread refines Ingest -----

  ghost function Steps(cfg: Config, s: System, n: nat): System {
    if n == 0 then s else ProceedStep(cfg, Steps(cfg, s, n - 1))
  }

  function Proceeds(n: nat): seq<Event> {
    seq(n, _ => Proceed)
  }

  lemma {:induction false} StepsRun(cfg: Config, s: System, n: nat)
    ensures Steps(cfg, s, n) == Run(cfg, s, Proceeds(n))
  {
    if n == 0 {
      assert Proceeds(0) == [];
    } else {
      StepsRun(cfg, s, n - 1);
      assert Proceeds(n)[..n - 1] == Proceeds(n - 1) && Proceeds(n)[n - 1] == Proceed;
      LastStep(cfg, s, n - 1);
      assert Step(cfg, Run(cfg, s, Proceeds(n - 1)), Proceed) == ProceedStep(cfg, Run(cfg, s, Proceeds(n - 1)));
    }
  }

  lemma LastStep(cfg: Config, s: System, n: nat)
    ensures Steps(cfg, s, n + 1) == ProceedStep(cfg, Steps(cfg, s, n))
  {
  }

  lemma OneStep(cfg: Config, s: System)
    ensures Steps(cfg, s, 1) == ProceedStep(cfg, s)
  {
    assert Steps(cfg, s, 0) == s;
  }

  lemma {:induction false} StepsAdd(cfg: Config, s: System, a: nat, b: nat)
    ensures Steps(cfg, Steps(cfg, s, a), b) == Steps(cfg, s, a + b)
  {
    if b > 0 {
      StepsAdd(cfg, s, a, b - 1);
    }
  }

  lemma StepsInv(cfg: Config, s: System, n: nat)
    requires Inv(s)
    ensures Inv(Steps(cfg, s, n))
  {
    StepsRun(cfg, s, n);
    RunInv(cfg, s, Proceeds(n));
  }

  /** Where a request stands once the verdict in hand is dealt with. */
  ghost predicate Reaches(s: System, end: System, c: Ctx, applied: Applied) {
    && end.world == applied.world
    && end.request == NextVerdict(c, Collect(c.dispatched, applied.dispatched))
    && end.job == s.job && end.swept == s.swept && end.calls == s.calls
  }

  /** The two reads together yield the safety verdict. */
  lemma CheckSteps(cfg: Config, s: System) returns (n: nat)
    requires s.request.CheckingCooldown?
    ensures var q := s.request;
            Steps(cfg, s, n) == s.(request := Recording(q.c, q.id, q.seen, q.playbook,
              SafetyReason(cfg, s.world.db.actions, q.c.node, q.playbook.name, q.c.at)))
  {
    OneStep(cfg, s);
    var s1 := Steps(cfg, s, 1);
    if s1.request.CheckingRate? {
      n := 2;
      assert Steps(cfg, s, 2) == DecideStep(cfg, s1);
    } else {
      n := 1;
    }
  }

  lemma RecordSteps(cfg: Config, s: System)
    requires s.request.Recording? && s.request.id in s.world.db.alerts
    ensures var q, w := s.request, s.world;
            var row := NewAction(w.db.nextAction, q.c.node, q.id, q.c.r.ruleKey, q.playbook, q.reason, q.c.at);
            Reaches(s, Steps(cfg, s, 2), q.c,
                    Applied(MarkRemediated(w.(db := CreateAction(w.db, row)), q.id, q.c.at), OnlyDispatched(row)))
  {
    OneStep(cfg, s);
    assert Steps(cfg, s, 2) == ProceedStep(cfg, DecideStep(cfg, s));
  }

  lemma CheckedSteps(cfg: Config, s: System, c: Ctx, id: nat) returns (n: nat)
    requires id in s.world.db.alerts
    requires s.request.CheckingCooldown? && s.request == AfterEscalation(cfg, c, id, s.world.db.alerts[id])
    ensures Reaches(s, Steps(cfg, s, n), c, MaybeRemediate(cfg, s.world, c.node, id, c.r.ruleKey, c.at))
  {
    var k := CheckSteps(cfg, s);
    RecordSteps(cfg, Steps(cfg, s, k));
    StepsAdd(cfg, s, k, 2);
    n := k + 2;
  }

  /** From the read after escalation to the next verdict. */
  lemma DecideSteps(cfg: Config, s: System, c: Ctx, id: nat) returns (n: nat)
    requires id in s.world.db.alerts
    requires s.request == AfterEscalation(cfg, c, id, s.world.db.alerts[id])
    ensures Reaches(s, Steps(cfg, s, n), c, MaybeRemediate(cfg, s.world, c.node, id, c.r.ruleKey, c.at))
  {
    if s.request.CheckingCooldown? {
      n := CheckedSteps(cfg, s, c, id);
    } else {
      n := 0;
    }
  }

  lemma EscalateStep(cfg: Config, s: System, c: Ctx, id: nat)
    requires id in s.world.db.alerts && s.world.db.alerts[id].id == id && s.request.Escalating?
    requires s.request == AfterAdvance(cfg, c, id, s.world.db.alerts[id])
    ensures var s1 := ProceedStep(cfg, s);
            && s1.world == MaybeEscalate(cfg, s.world, id, c.at) && id in s1.world.db.alerts
            && s1 == s.(world := s1.world, request := AfterEscalation(cfg, c, id, s1.world.db.alerts[id]))
  {
  }

  lemma EscalateSteps(cfg: Config, s: System, c: Ctx, id: nat) returns (n: nat)
    requires id in s.world.db.alerts && s.world.db.alerts[id].id == id
    requires s.request == AfterAdvance(cfg, c, id, s.world.db.alerts[id])
    ensures Reaches(s, Steps(cfg, s, n), c,
                    MaybeRemediate(cfg, MaybeEscalate(cfg, s.world, id, c.at), c.node, id, c.r.ruleKey, c.at))
  {
    if s.request.Escalating? {
      var s1 := ProceedStep(cfg, s);
      OneStep(cfg, s);
      EscalateStep(cfg, s, c, id);
      var k := DecideSteps(cfg, s1, c, id);
      StepsAdd(cfg, s, 1, k);
      n := 1 + k;
    } else {
      n := DecideSteps(cfg, s, c, id);
    }
  }

  lemma AdvanceSteps(cfg: Config, s: System) returns (n: nat)
    requires DbOk(s.world.db) && s.request.Advancing? && s.request.id in s.world.db.alerts
    ensures var c := s.request.c;
            Reaches(s, Steps(cfg, s, n), c, AdvanceVerdict(cfg, s.world, c.node, s.request.id, c.r, c.at))
  {
    var c, id := s.request.c, s.request.id;
    var s1 := ProceedStep(cfg, s);
    OneStep(cfg, s);
    assert s1.world == AdvanceAlert(s.world, id, c.r.value, c.at);
    assert s1.request == AfterAdvance(cfg, c, id, s1.world.db.alerts[id]);
    var k := EscalateSteps(cfg, s1, c, id);
    StepsAdd(cfg, s, 1, k);
    n := 1 + k;
  }

  /** Opening and resolving take one write after the read, a quiet verdict none. */
  lemma QuickVerdict(cfg: Config, s: System) returns (n: nat)
    requires DbOk(s.world.db) && s.request.Finding? && s.request.todo != []
    requires !ProceedStep(cfg, s).request.Advancing?
    ensures var q := s.request;
            var c := Ctx(q.node, q.at, q.todo[0], q.todo[1..], q.dispatched);
            Reaches(s, Steps(cfg, s, n), c, ApplyVerdict(cfg, s.world, q.node, q.todo[0], q.at))
  {
    OneStep(cfg, s);
    var s1 := ProceedStep(cfg, s);
    if s1.request.Finding? {
      n := 1;
    } else {
      n := 2;
      assert Steps(cfg, s, 2) == ProceedStep(cfg, s1);
    }
  }

  lemma VerdictSteps(cfg: Config, s: System) returns (n: nat)
    requires DbOk(s.world.db) && s.request.Finding? && s.request.todo != []
    ensures var q := s.request;
            var c := Ctx(q.node, q.at, q.todo[0], q.todo[1..], q.dispatched);
            Reaches(s, Steps(cfg, s, n), c, ApplyVerdict(cfg, s.world, q.node, q.todo[0], q.at))
  {
    var s1 := ProceedStep(cfg, s);
    if s1.request.Advancing? {
      OneStep(cfg, s);
      assert s1.world == s.world && s1.job == s.job && s1.swept == s.swept && s1.calls == s.calls;
      var k := AdvanceSteps(cfg, s1);
      StepsAdd(cfg, s, 1, k);
      n := 1 + k;
    } else {
      n := QuickVerdict(cfg, s);
    }
  }

  /** The first m verdicts have been dealt with, and nothing else has moved. */
  ghost predicate Through(cfg: Config, s: System, end: System, m: nat)
    requires DbOk(s.world.db) && s.request.Finding? && m <= |s.request.todo|
  {
    var q := s.request;
    var o := ApplyAll(cfg, s.world, q.node, q.todo[..m], q.at);
    && end.world == o.world && end.request == Finding(q.node, q.at, q.todo[m..], o.dispatched)
    && end.job == s.job && end.swept == s.swept && end.calls == s.calls
  }

  lemma OneMoreThrough(cfg: Config, s: System, mid: System, end: System, m: nat)
    requires DbOk(s.world.db) && s.request.Finding? && m < |s.request.todo| && Through(cfg, s, mid, m)
        && DbOk(mid.world.db)
    requires var q := mid.request;
             Reaches(mid, end, Ctx(q.node, q.at, q.todo[0], q.todo[1..], q.dispatched),
                     ApplyVerdict(cfg, mid.world, q.node, q.todo[0], q.at))
    ensures Through(cfg, s, end, m + 1)
  {
    var todo := s.request.todo;
    assert todo[m..][1..] == todo[m + 1..] && todo[m..][0] == todo[m];
    assert todo[..m + 1][..m] == todo[..m];
  }

  lemma NoneThrough(cfg: Config, s: System)
    requires DbOk(s.world.db) && s.request.Finding? && s.request.dispatched == []
    ensures Through(cfg, s, s, 0)
  {
    var todo := s.request.todo;
    assert todo[..0] == [] && todo[0..] == todo;
  }

  lemma NextVerdictSteps(cfg: Config, s: System, a: nat, m: nat) returns (n: nat)
    requires DbOk(s.world.db) && s.request.Finding? && 0 < m <= |s.request.todo|
    requires Through(cfg, s, Steps(cfg, s, a), m - 1)
    ensures Through(cfg, s, Steps(cfg, s, n), m)
  {
    var mid := Steps(cfg, s, a);
    var b := VerdictSteps(cfg, mid);
    OneMoreThrough(cfg, s, mid, Steps(cfg, mid, b), m - 1);
    StepsAdd(cfg, s, a, b);
    n := a + b;
  }

  lemma {:induction false} VerdictsSteps(cfg: Config, s: System, m: nat) returns (n: nat)
    requires DbOk(s.world.db) && s.request.Finding? && s.request.dispatched == [] && m <= |s.request.todo|
    ensures Through(cfg, s, Steps(cfg, s, n), m)
    decreases m
  {
    if m == 0 {
      n := 0;
      NoneThrough(cfg, s);
    } else {
      var a := VerdictsSteps(cfg, s, m - 1);
      n := NextVerdictSteps(cfg, s, a, m);
    }
  }

  /** The request of s after m readings of its payload. */
  function AfterReadings(cfg: Config, s: System, p: Payload, m: nat): System
    requires m <= |p.samples|
  {
    s.(request := Evaluating(p, m, Evaluate(cfg, s.world.db.samples, p.nodeId, p.samples[..m], p.collectedAt)))
  }

  lemma OneReading(cfg: Config, s: System, p: Payload, m: nat)
    requires m < |p.samples|
    ensures ProceedStep(cfg, AfterReadings(cfg, s, p, m)) == AfterReadings(cfg, s, p, m + 1)
  {
    EvaluateStep(cfg, s.world.db.samples, p.nodeId, p.samples, m, p.collectedAt);
  }

  /** Steps that are known one by one. */
  lemma {:induction false} Chain(cfg: Config, states: nat -> System, m: nat)
    requires forall i: nat :: i < m ==> ProceedStep(cfg, states(i)) == states(i + 1)
    ensures Steps(cfg, states(0), m) == states(m)
  {
    if m > 0 {
      Chain(cfg, states, m - 1);
    }
  }

  lemma EvaluateSteps(cfg: Config, s: System, p: Payload)
    requires s.request == Evaluating(p, 0, [])
    ensures Steps(cfg, s, |p.samples|) == AfterReadings(cfg, s, p, |p.samples|)
  {
    var states := (i: nat) => AfterReadings(cfg, s, p, if i <= |p.samples| then i else 0);
    forall i: nat | i < |p.samples| ensures ProceedStep(cfg, states(i)) == states(i + 1) {
      OneReading(cfg, s, p, i);
    }
    NoReadings(cfg, s, p);
    Chain(cfg, states, |p.samples|);
  }

  lemma NoReadings(cfg: Config, s: System, p: Payload)
    requires s.request == Evaluating(p, 0, [])
    ensures AfterReadings(cfg, s, p, 0) == s
  {
    assert p.samples[..0] == [];
  }

  lemma EndOfReadings(cfg: Config, s: System)
    requires s.request.Evaluating? && |s.request.p.samples| <= s.request.i
    ensures var q := s.request;
            ProceedStep(cfg, s) == s.(request := Finding(q.p.nodeId, q.p.collectedAt, q.results, []))
  {
  }

  lemma InsertStep(cfg: Config, s: System, p: Payload, receivedAt: Time)
    requires s.request.Idle?
    ensures ProceedStep(cfg, Step(cfg, s, Receive(p, receivedAt)))
         == s.(world := Stored(s.world, p, receivedAt), request := Evaluating(p, 0, []))
  {
  }

  lemma EvaluatedSteps(cfg: Config, s: System, p: Payload)
    requires s.request == Evaluating(p, 0, [])
    ensures Steps(cfg, s, |p.samples| + 1) == s.(request := Finding(p.nodeId, p.collectedAt,
              Evaluate(cfg, s.world.db.samples, p.nodeId, p.samples, p.collectedAt), []))
  {
    EvaluateSteps(cfg, s, p);
    assert p.samples[..|p.samples|] == p.samples;
    EndOfReadings(cfg, Steps(cfg, s, |p.samples|));
  }

  /** Storing and evaluating, up to the first verdict. */
  lemma StoreSteps(cfg: Config, s: System, p: Payload, receivedAt: Time)
    requires s.request.Idle?
    ensures var stored := Stored(s.world, p, receivedAt);
            Steps(cfg, Step(cfg, s, Receive(p, receivedAt)), |p.samples| + 2)
            == s.(world := stored, request := Finding(p.nodeId, p.collectedAt,
                    Evaluate(cfg, stored.db.samples, p.nodeId, p.samples, p.collectedAt), []))
  {
    var s0 := Step(cfg, s, Receive(p, receivedAt));
    InsertStep(cfg, s, p, receivedAt);
    OneStep(cfg, s0);
    EvaluatedSteps(cfg, s.(world := Stored(s.world, p, receivedAt), request := Evaluating(p, 0, [])), p);
    StepsAdd(cfg, s0, 1, |p.samples| + 1);
  }

  lemma AckStep(cfg: Config, s: System)
    requires s.request.Finding? && s.request.todo == []
    ensures ProceedStep(cfg, s) == s.(request := Idle, out := s.out + [Acked(s.request.node, s.request.dispatched)])
  {
  }

  /** The request has ended with this outcome and acknowledged its dispatches; nothing else has moved. */
  ghost predicate Finished(s: System, end: System, node: NodeId, o: Outcome) {
    && end.world == o.world && end.request.Idle?
    && end.job == s.job && end.swept == s.swept && end.calls == s.calls
    && 0 < |end.out| && end.out[|end.out| - 1] == Acked(node, o.dispatched)
  }

  /** From the first verdict to the Ack. */
  lemma FinishSteps(cfg: Config, s: System) returns (n: nat)
    requires Inv(s) && s.request.Finding? && s.request.dispatched == []
    ensures var q := s.request;
            Finished(s, Steps(cfg, s, n), q.node, ApplyAll(cfg, s.world, q.node, q.todo, q.at))
  {
    var q := s.request;
    var k := VerdictsSteps(cfg, s, |q.todo|);
    assert q.todo[..|q.todo|] == q.todo && q.todo[|q.todo|..] == [];
    var o := ApplyAll(cfg, s.world, q.node, q.todo, q.at);
    assert Steps(cfg, s, k).request == Finding(q.node, q.at, [], o.dispatched);
    AckStep(cfg, Steps(cfg, s, k));
    n := k + 1;
  }

  lemma StoreStepsInv(cfg: Config, s: System, p: Payload, receivedAt: Time)
    requires Inv(s) && s.request.Idle?
    ensures Inv(Steps(cfg, Step(cfg, s, Receive(p, receivedAt)), |p.samples| + 2))
  {
    StepInv(cfg, s, Receive(p, receivedAt));
    StepsInv(cfg, Step(cfg, s, Receive(p, receivedAt)), |p.samples| + 2);
  }

  /** A request that nothing interrupts does to the tables and notifications
      exactly what Ingest says, and acknowledges with exactly its dispatches. */
  lemma RequestRefinesIngest(cfg: Config, s: System, p: Payload, receivedAt: Time) returns (n: nat)
    requires Inv(s) && s.request.Idle?
    ensures Finished(s, Steps(cfg, Step(cfg, s, Receive(p, receivedAt)), n), p.nodeId,
                     Ingest(cfg, s.world, p, receivedAt))
  {
    var a := |p.samples| + 2;
    var s0 := Step(cfg, s, Receive(p, receivedAt));
    var s2 := Steps(cfg, s0, a);
    StoreStepsInv(cfg, s, p, receivedAt);
    StoreSteps(cfg, s, p, receivedAt);
    var k := FinishSteps(cfg, s2);
    StepsAdd(cfg, s0, a, k);
    n := a + k;
  }

  // ----- redelivery -----

  predicate UpToDate(cfg: Config, row: Alert, r: RuleResult, at: Time) {
    && row == AdvancedRow(row, r.value, at)
    && !ShouldEscalate(cfg, row, at)
    && !(ShouldRemediate(cfg, row, at) && Mapped(cfg, r.ruleKey))
  }

  /** Applying the verdict again would change nothing. */
  ghost predicate Absorbed(cfg: Config, alerts: Alerts, node: NodeId, r: RuleResult, at: Time) {
    if r.breached then
      exists id :: IsOpen(alerts, id, node, r.ruleKey) && UpToDate(cfg, alerts[id], r, at)
    else
      forall id :: !IsOpen(alerts, id, node, r.ruleKey)
  }

  lemma AbsorbedIsNoOp(cfg: Config, w: World, node: NodeId, r: RuleResult, at: Time)
    requires DbOk(w.db) && Absorbed(cfg, w.db.alerts, node, r, at)
    ensures ApplyVerdict(cfg, w, node, r, at) == Applied(w, None)
  {
    if r.breached {
      var id :| IsOpen(w.db.alerts, id, node, r.ruleKey) && UpToDate(cfg, w.db.alerts[id], r, at);
      assert FindOpen(w.db.alerts, node, r.ruleKey) == Some(id);
      assert w.db.alerts[id := w.db.alerts[id]] == w.db.alerts;
    }
  }

  lemma MarksOnly(cfg: Config, w: World, node: NodeId, id: nat, r: RuleResult, at: Time)
    requires DbOk(w.db) && IsOpen(w.db.alerts, id, node, r.ruleKey)
    ensures var alerts := AdvanceVerdict(cfg, w, node, id, r, at).world.db.alerts;
            && alerts.Keys == w.db.alerts.Keys
            && (forall j :: j in alerts && j != id ==> alerts[j] == w.db.alerts[j])
            && IsOpen(alerts, id, node, r.ruleKey)
            && UpToDate(cfg, alerts[id], r, at)
  {
    AdvanceWritesOneRow(cfg, w, node, id, r, at);
  }

  /** An alert that has just been opened would escalate or be remediated at once, if anyone looked again. */
  predicate Hasty(cfg: Config, key: string) {
    cfg.escalationAfter <= 0 || (cfg.remediationAfter <= 0 && Mapped(cfg, key))
  }

  /** The verdict opens no hasty alert. */
  ghost predicate Unhurried(cfg: Config, alerts: Alerts, node: NodeId, r: RuleResult) {
    r.breached && FindOpen(alerts, node, r.ruleKey).None? ==> !Hasty(cfg, r.ruleKey)
  }

  lemma VerdictAbsorbed(cfg: Config, w: World, node: NodeId, r: RuleResult, at: Time)
    requires DbOk(w.db) && Unhurried(cfg, w.db.alerts, node, r)
    ensures Absorbed(cfg, ApplyVerdict(cfg, w, node, r, at).world.db.alerts, node, r, at)
  {
    var alerts := ApplyVerdict(cfg, w, node, r, at).world.db.alerts;
    match FindOpen(w.db.alerts, node, r.ruleKey)
    case None =>
      if r.breached {
        assert IsOpen(alerts, w.db.nextAlert, node, r.ruleKey);
      }
    case Some(id) =>
      if r.breached {
        MarksOnly(cfg, w, node, id, r, at);
      } else {
        forall j ensures !IsOpen(alerts, j, node, r.ruleKey) {
          assert IsOpen(w.db.alerts, j, node, r.ruleKey) ==> j == id;
        }
      }
  }

  /** A verdict leaves the alerts of other keys alone. */
  lemma OtherKeyKept(cfg: Config, w: World, node: NodeId, r: RuleResult, key: string, at: Time)
    requires DbOk(w.db) && r.ruleKey != key
    ensures var alerts := ApplyVerdict(cfg, w, node, r, at).world.db.alerts;
            forall j :: (IsOpen(alerts, j, node, key) <==> IsOpen(w.db.alerts, j, node, key))
                        && (IsOpen(alerts, j, node, key) ==> alerts[j] == w.db.alerts[j])
  {
    var found := FindOpen(w.db.alerts, node, r.ruleKey);
    if found.Some? && r.breached {
      MarksOnly(cfg, w, node, found.value, r, at);
    }
  }

  lemma OtherKeyAbsorbed(cfg: Config, w: World, node: NodeId, r: RuleResult, other: RuleResult, at: Time)
    requires DbOk(w.db) && r.ruleKey != other.ruleKey && Absorbed(cfg, w.db.alerts, node, other, at)
    ensures Absorbed(cfg, ApplyVerdict(cfg, w, node, r, at).world.db.alerts, node, other, at)
  {
    OtherKeyKept(cfg, w, node, r, other.ruleKey, at);
    var alerts := ApplyVerdict(cfg, w, node, r, at).world.db.alerts;
    if other.breached {
      var j :| IsOpen(w.db.alerts, j, node, other.ruleKey) && UpToDate(cfg, w.db.alerts[j], other, at);
      assert IsOpen(alerts, j, node, other.ruleKey) && alerts[j] == w.db.alerts[j];
    }
  }

  /** Verdicts of other keys leave a key's open alert as it is. */
  lemma {:induction false} OthersKept(cfg: Config, w: World, node: NodeId, results: seq<RuleResult>, key: string,
      at: Time)
    requires DbOk(w.db) && forall i :: 0 <= i < |results| ==> results[i].ruleKey != key
    ensures var alerts := ApplyAll(cfg, w, node, results, at).world.db.alerts;
            forall j :: (IsOpen(alerts, j, node, key) <==> IsOpen(w.db.alerts, j, node, key))
                        && (IsOpen(alerts, j, node, key) ==> alerts[j] == w.db.alerts[j])
  {
    if results != [] {
      var n := |results| - 1;
      OthersKept(cfg, w, node, results[..n], key, at);
      OtherKeyKept(cfg, ApplyAll(cfg, w, node, results[..n], at).world, node, results[n], key, at);
    }
  }

  ghost predicate AllUnhurried(cfg: Config, alerts: Alerts, node: NodeId, results: seq<RuleResult>) {
    forall i :: 0 <= i < |results| ==> Unhurried(cfg, alerts, node, results[i])
  }

  lemma {:induction false} AllAbsorbed(cfg: Config, w: World, node: NodeId, results: seq<RuleResult>, at: Time)
    requires DbOk(w.db) && AllUnhurried(cfg, w.db.alerts, node, results) && DistinctKeys(results)
    ensures forall i :: 0 <= i < |results| ==>
              Absorbed(cfg, ApplyAll(cfg, w, node, results, at).world.db.alerts, node, results[i], at)
  {
    if results != [] {
      var n := |results| - 1;
      AllAbsorbed(cfg, w, node, results[..n], at);
      var before := ApplyAll(cfg, w, node, results[..n], at).world;
      forall i | 0 <= i < |results|
        ensures Absorbed(cfg, ApplyAll(cfg, w, node, results, at).world.db.alerts, node, results[i], at)
      {
        if i < n {
          assert results[..n][i] == results[i];
          OtherKeyAbsorbed(cfg, before, node, results[n], results[i], at);
        } else {
          OthersKept(cfg, w, node, results[..n], results[n].ruleKey, at);
          StillUnhurried(cfg, w.db.alerts, before.db.alerts, node, results[n]);
          VerdictAbsorbed(cfg, before, node, results[n], at);
        }
      }
    }
  }

  lemma StillUnhurried(cfg: Config, a: Alerts, b: Alerts, node: NodeId, r: RuleResult)
    requires Unhurried(cfg, a, node, r)
    requires forall j :: IsOpen(b, j, node, r.ruleKey) <==> IsOpen(a, j, node, r.ruleKey)
    ensures Unhurried(cfg, b, node, r)
  {
    if FindOpen(a, node, r.ruleKey).Some? {
      assert IsOpen(b, FindOpen(a, node, r.ruleKey).value, node, r.ruleKey);
    }
  }

  // ----- a hasty alert is not left alone -----

  /** The key's alert is as it was opened at this instant. */
  ghost predicate JustOpened(alerts: Alerts, node: NodeId, key: string, at: Time) {
    exists id :: IsOpen(alerts, id, node, key) && Untouched(alerts[id], at)
  }

  predicate Untouched(row: Alert, at: Time) {
    row.firstFiredAt == at && row.acknowledgedAt.None? && row.escalatedAt.None? && row.remediatedAt.None?
  }

  /** Notifications and decisions are only ever added. */
  ghost predicate Grows(a: World, b: World) {
    |a.notices| <= |b.notices| && a.db.nextAction <= b.db.nextAction
  }

  ghost predicate GrowsStrictly(a: World, b: World) {
    Grows(a, b) && (|a.notices| < |b.notices| || a.db.nextAction < b.db.nextAction)
  }

  lemma VerdictGrows(cfg: Config, w: World, node: NodeId, r: RuleResult, at: Time)
    requires DbOk(w.db)
    ensures Grows(w, ApplyVerdict(cfg, w, node, r, at).world)
    ensures r.breached && JustOpened(w.db.alerts, node, r.ruleKey, at) && Hasty(cfg, r.ruleKey) ==>
              GrowsStrictly(w, ApplyVerdict(cfg, w, node, r, at).world)
  {
    if r.breached && JustOpened(w.db.alerts, node, r.ruleKey, at) {
      var id :| IsOpen(w.db.alerts, id, node, r.ruleKey) && Untouched(w.db.alerts[id], at);
      assert FindOpen(w.db.alerts, node, r.ruleKey) == Some(id);
    }
  }

  lemma {:induction false} AllGrow(cfg: Config, w: World, node: NodeId, results: seq<RuleResult>, at: Time)
    requires DbOk(w.db)
    ensures Grows(w, ApplyAll(cfg, w, node, results, at).world)
  {
    if results != [] {
      var n := |results| - 1;
      AllGrow(cfg, w, node, results[..n], at);
      VerdictGrows(cfg, ApplyAll(cfg, w, node, results[..n], at).world, node, results[n], at);
    }
  }

  /** What the i-th verdict alone decides about its key: the verdicts before and after it leave the key alone. */
  lemma {:induction false} OpeningSurvives(cfg: Config, w: World, node: NodeId, results: seq<RuleResult>, i: nat,
      at: Time)
    requires DbOk(w.db) && DistinctKeys(results) && i < |results| && results[i].breached
    requires FindOpen(w.db.alerts, node, results[i].ruleKey).None?
    ensures JustOpened(ApplyAll(cfg, w, node, results, at).world.db.alerts, node, results[i].ruleKey, at)
    decreases |results|
  {
    var n := |results| - 1;
    var key := results[i].ruleKey;
    var before := ApplyAll(cfg, w, node, results[..n], at).world;
    if i < n {
      assert results[..n][i] == results[i];
      OpeningSurvives(cfg, w, node, results[..n], i, at);
      OtherKeyKept(cfg, before, node, results[n], key, at);
    } else {
      OthersKept(cfg, w, node, results[..n], key, at);
      assert FindOpen(before.db.alerts, node, key).None?;
      assert IsOpen(ApplyVerdict(cfg, before, node, results[n], at).world.db.alerts, before.db.nextAlert, node, key);
    }
  }

  lemma StillJustOpened(cfg: Config, w: World, node: NodeId, results: seq<RuleResult>, key: string, at: Time)
    requires DbOk(w.db) && forall i :: 0 <= i < |results| ==> results[i].ruleKey != key
    requires JustOpened(w.db.alerts, node, key, at)
    ensures JustOpened(ApplyAll(cfg, w, node, results, at).world.db.alerts, node, key, at)
  {
    OthersKept(cfg, w, node, results, key, at);
    var id :| IsOpen(w.db.alerts, id, node, key) && Untouched(w.db.alerts[id], at);
    assert IsOpen(ApplyAll(cfg, w, node, results, at).world.db.alerts, id, node, key);
  }

  lemma {:induction false} HastyMoves(cfg: Config, w: World, node: NodeId, results: seq<RuleResult>, i: nat, at: Time)
    requires DbOk(w.db) && DistinctKeys(results) && i < |results| && results[i].breached
    requires JustOpened(w.db.alerts, node, results[i].ruleKey, at) && Hasty(cfg, results[i].ruleKey)
    ensures GrowsStrictly(w, ApplyAll(cfg, w, node, results, at).world)
    decreases |results|
  {
    var n := |results| - 1;
    var before := ApplyAll(cfg, w, node, results[..n], at).world;
    if i < n {
      assert results[..n][i] == results[i];
      HastyMoves(cfg, w, node, results[..n], i, at);
    } else {
      AllGrow(cfg, w, node, results[..n], at);
      StillJustOpened(cfg, w, node, results[..n], results[n].ruleKey, at);
    }
    VerdictGrows(cfg, before, node, results[n], at);
  }

  lemma {:induction false} AgainIsNoOp(cfg: Config, w: World, node: NodeId, results: seq<RuleResult>, at: Time)
    requires DbOk(w.db)
    requires forall i :: 0 <= i < |results| ==> Absorbed(cfg, w.db.alerts, node, results[i], at)
    ensures ApplyAll(cfg, w, node, results, at) == Outcome(w, [])
  {
    if results != [] {
      var n := |results| - 1;
      AgainIsNoOp(cfg, w, node, results[..n], at);
      AbsorbedIsNoOp(cfg, w, node, results[n], at);
    }
  }

  /** A rate rule looks strictly before the collection time, so storing the same
      payload again does not change its verdicts. */
  lemma {:induction false} SameVerdicts(cfg: Config, a: Samples, b: Samples, node: NodeId, readings: seq<Reading>,
      at: Time)
    requires forall m, window :: InWindow(a, node, m, at, window) == InWindow(b, node, m, at, window)
    ensures Evaluate(cfg, a, node, readings, at) == Evaluate(cfg, b, node, readings, at)
  {
    if readings != [] {
      SameVerdicts(cfg, a, b, node, readings[..|readings| - 1], at);
    }
  }

  lemma StoredTwice(w: World, p: Payload, receivedAt: Time, metric: MetricType, window: int)
    requires DbOk(w.db)
    ensures InWindow(Stored(w, p, receivedAt).db.samples, p.nodeId, metric, p.collectedAt, window)
         == InWindow(w.db.samples, p.nodeId, metric, p.collectedAt, window)
  {
  }

  lemma {:induction false} ApplyAllKeepsSamples(cfg: Config, w: World, node: NodeId, results: seq<RuleResult>, at: Time)
    requires DbOk(w.db)
    ensures ApplyAll(cfg, w, node, results, at).world.db.samples == w.db.samples
    ensures ApplyAll(cfg, w, node, results, at).world.db.nodes == w.db.nodes
  {
    if results != [] {
      var n := |results| - 1;
      ApplyAllKeepsSamples(cfg, w, node, results[..n], at);
      VerdictKeepsSamples(cfg, ApplyAll(cfg, w, node, results[..n], at).world, node, results[n], at);
    }
  }

  lemma VerdictKeepsSamples(cfg: Config, w: World, node: NodeId, r: RuleResult, at: Time)
    requires DbOk(w.db)
    ensures ApplyVerdict(cfg, w, node, r, at).world.db.samples == w.db.samples
    ensures ApplyVerdict(cfg, w, node, r, at).world.db.nodes == w.db.nodes
  {
  }

  /** The verdicts of a payload, given what is stored. */
  function Verdicts(cfg: Config, w: World, p: Payload, receivedAt: Time): seq<RuleResult> {
    Evaluate(cfg, Stored(w, p, receivedAt).db.samples, p.nodeId, p.samples, p.collectedAt)
  }

  lemma VerdictsAgain(cfg: Config, w: World, p: Payload, firstAt: Time, againAt: Time)
    requires DbOk(w.db)
    ensures Verdicts(cfg, Ingest(cfg, w, p, firstAt).world, p, againAt) == Verdicts(cfg, w, p, firstAt)
  {
    var node, at := p.nodeId, p.collectedAt;
    var stored, once := Stored(w, p, firstAt), Ingest(cfg, w, p, firstAt);
    ApplyAllKeepsSamples(cfg, stored, node, Verdicts(cfg, w, p, firstAt), at);
    var again := Stored(once.world, p, againAt);
    forall m, window ensures InWindow(stored.db.samples, node, m, at, window) == InWindow(again.db.samples, node, m,
      at, window) {
      StoredTwice(once.world, p, againAt, m, window);
    }
    SameVerdicts(cfg, stored.db.samples, again.db.samples, node, p.samples, at);
  }

  /** Ingesting the same payload twice in a row does nothing the second time but store it (no alert, audit row,
      counter or notification changes, and nothing is dispatched) exactly when the first time opened no hasty alert:
      with positive delays always, with a zero delay as long as the payload opens no alert the delay is for. */
  lemma RedeliveryIsIdempotent(cfg: Config, w: World, p: Payload, firstAt: Time, againAt: Time)
    requires DbOk(w.db) && DistinctMetrics(p.samples)
    ensures var once := Ingest(cfg, w, p, firstAt);
            Ingest(cfg, once.world, p, againAt) == Outcome(Stored(once.world, p, againAt), [])
            <==> AllUnhurried(cfg, w.db.alerts, p.nodeId, Verdicts(cfg, w, p, firstAt))
  {
    var node, at := p.nodeId, p.collectedAt;
    var stored, results := Stored(w, p, firstAt), Verdicts(cfg, w, p, firstAt);
    EvaluateDistinct(cfg, stored.db.samples, node, p.samples, at);
    VerdictsAgain(cfg, w, p, firstAt, againAt);
    var again := Stored(Ingest(cfg, w, p, firstAt).world, p, againAt);
    if AllUnhurried(cfg, w.db.alerts, node, results) {
      AllAbsorbed(cfg, stored, node, results, at);
      AgainIsNoOp(cfg, again, node, results, at);
    } else {
      var i :| 0 <= i < |results| && !Unhurried(cfg, w.db.alerts, node, results[i]);
      OpeningSurvives(cfg, stored, node, results, i, at);
      HastyMoves(cfg, again, node, results, i, at);
    }
  }
}
