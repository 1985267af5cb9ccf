/** Collector and Agents over a lossy network.

    Responses may be lost, requests and reports may be retried, Acks of
    buffered payloads are ignored, Agents may crash and the reconciliation job
    may time an action out.  Still every action runs at most once, only on the
    node it was decided for, and EXECUTED is never a guess. */
module Protocol {
  import opened Model
  import opened Tables
  import opened Rules
  import opened Alerting
  import opened Machine
  import opened MachineInvariants

  datatype Execution = Execution(node: NodeId, action: Action, ok: bool)

  datatype Task = Task(node: NodeId, action: Action)

  /** `taken` are the Acks that reached an Agent's execution loop, `tasks` what
      that loop has left to do, `executed` everything an Agent really ran, and
      `forgotten` what a crash made it forget. */
  datatype State = State(
    sys: System, taken: set<nat>, tasks: seq<Task>, executed: seq<Execution>, forgotten: seq<Task>)

  datatype Move =
    | CollectorMoves(e: Event)
    | AckArrives(k: nat)
    | AgentExecutes(i: nat, ok: bool)
    | AgentForgets(i: nat)
    | ReportArrives(i: nat, token: nat, text: string)

  const START: State := State(INITIAL, {}, [], [], [])

  function TasksOf(node: NodeId, pending: seq<Action>): seq<Task> {
    seq(|pending|, j requires 0 <= j < |pending| => Task(node, pending[j]))
  }

  function Without<T>(s: seq<T>, i: nat): seq<T>
    requires i < |s|
  {
    s[..i] + s[i + 1..]
  }

  predicate IsReport(e: Event) {
    e.CallReads? && e.c.Reporting?
  }

  /** The report of something that ran; retries differ in their token. */
  function ReportOf(x: Execution, token: nat, text: string): Call {
    Reporting(token, x.action.id, x.ok, text)
  }

  /** Reports come from Agents only, about something they ran, as often as they
      like; a response is read at most once, but not every response is read. */
  ghost function Next(cfg: Config, s: State, m: Move): State {
    match m
    case CollectorMoves(e) =>
      if IsReport(e) then s else s.(sys := Step(cfg, s.sys, e))
    case AckArrives(k) =>
      if k < |s.sys.out| && s.sys.out[k].Acked? && k !in s.taken then
        s.(taken := s.taken + {k}, tasks := s.tasks + TasksOf(s.sys.out[k].node, s.sys.out[k].pending))
      else
        s
    case AgentExecutes(i, ok) =>
      if i < |s.tasks| then
        s.(tasks := Without(s.tasks, i), executed := s.executed + [Execution(s.tasks[i].node, s.tasks[i].action, ok)])
      else
        s
    case AgentForgets(i) =>
      if i < |s.tasks| then s.(tasks := Without(s.tasks, i), forgotten := s.forgotten + [s.tasks[i]]) else s
    case ReportArrives(i, token, text) =>
      if i < |s.executed| then
        s.(sys := Step(cfg, s.sys, CallReads(ReportOf(s.executed[i], token, text))))
      else
        s
  }

  ghost function Play(cfg: Config, ms: seq<Move>): State {
    if ms == [] then START else Next(cfg, Play(cfg, ms[..|ms| - 1]), ms[|ms| - 1])
  }

  // ----- dispatched actions travel in one Ack each -----

  /** Dispatches of the request in progress, not yet acknowledged. */
  function InFlight(q: Request): seq<Action> {
    match q
    case Idle => []
    case Inserting(_, _) => []
    case Evaluating(_, _, _) => []
    case Finding(_, _, _, dispatched) => dispatched
    case Opening(c) => c.dispatched
    case Marking(c, _, action) => Collect(c.dispatched, OnlyDispatched(action))
    case _ => q.c.dispatched
  }

  function NodeOf(q: Request): NodeId {
    match q
    case Idle => ""
    case Inserting(p, _) => p.nodeId
    case Evaluating(p, _, _) => p.nodeId
    case Finding(node, _, _, _) => node
    case Opening(c) => c.node
    case _ => q.c.node
  }

  /** Ids already handed out, all different, for one node. */
  ghost predicate Batch(actions: seq<Action>, node: NodeId, next: nat) {
    && (forall j :: 0 <= j < |actions| ==>
          actions[j].id < next && actions[j].nodeId == node && actions[j].status == Dispatched)
    && (forall i, j :: 0 <= i < j < |actions| ==> actions[i].id != actions[j].id)
  }

  ghost predicate Disjoint(a: seq<Action>, b: seq<Action>) {
    forall i, j :: 0 <= i < |a| && 0 <= j < |b| ==> a[i].id != b[j].id
  }

  predicate Sends(out: seq<Output>, k: int) {
    0 <= k < |out| && out[k].Acked?
  }

  ghost predicate AcksOk(out: seq<Output>, next: nat) {
    && (forall k :: Sends(out, k) ==> Batch(out[k].pending, out[k].node, next))
    && (forall k, l :: Sends(out, k) && Sends(out, l) && k < l ==> Disjoint(out[k].pending, out[l].pending))
  }

  ghost predicate FlightInv(s: System) {
    && AcksOk(s.out, s.world.db.nextAction)
    && Batch(InFlight(s.request), NodeOf(s.request), s.world.db.nextAction)
    && (forall k :: Sends(s.out, k) ==> Disjoint(s.out[k].pending, InFlight(s.request)))
  }

  /** At most one more output, acknowledging nothing. */
  ghost predicate NoSend(before: seq<Output>, after: seq<Output>) {
    || after == before
    || (|after| == |before| + 1 && after[..|before|] == before
        && (after[|before|].Acked? ==> after[|before|].pending == []))
  }

  lemma OutsEqual(before: seq<Output>, after: seq<Output>)
    requires NoSend(before, after)
    ensures forall k :: 0 <= k < |before| ==> after[k] == before[k]
  {
    assert forall k :: 0 <= k < |before| && after != before ==> after[..|before|][k] == before[k];
  }

  lemma FlightKept(s: System, s': System)
    requires FlightInv(s) && NoSend(s.out, s'.out) && s.world.db.nextAction <= s'.world.db.nextAction
    requires InFlight(s'.request) == [] || (InFlight(s'.request) == InFlight(s.request)
        && NodeOf(s'.request) == NodeOf(s.request))
    ensures FlightInv(s')
  {
    OutsEqual(s.out, s'.out);
    assert forall k :: Sends(s'.out, k) ==> (Sends(s.out, k) && s'.out[k] == s.out[k]) || s'.out[k].pending == [];
  }

  lemma FlightSent(s: System, s': System)
    requires FlightInv(s) && s'.request.Idle? && s'.world == s.world
    requires s'.out == s.out + [Acked(NodeOf(s.request), InFlight(s.request))]
    ensures FlightInv(s')
  {
    assert forall k :: Sends(s'.out, k) ==> k == |s.out| || (Sends(s.out, k) && s'.out[k] == s.out[k]);
  }

  lemma BatchAppend(actions: seq<Action>, node: NodeId, next: nat, row: Action)
    requires Batch(actions, node, next) && row.id == next && row.nodeId == node
    ensures Batch(Collect(actions, OnlyDispatched(row)), node, next + 1)
  {
  }

  lemma FlightRecorded(cfg: Config, s: System)
    requires FlightInv(s) && s.request.Recording? && s.request.id in s.world.db.alerts
    ensures FlightInv(ProceedStep(cfg, s))
  {
    var s' := ProceedStep(cfg, s);
    BatchAppend(InFlight(s.request), NodeOf(s.request), s.world.db.nextAction, s'.request.action);
    assert AcksOk(s'.out, s'.world.db.nextAction) by {
      assert forall k :: Sends(s'.out, k) ==> Sends(s.out, k) && s'.out[k] == s.out[k];
    }
    forall k | Sends(s'.out, k) ensures Disjoint(s'.out[k].pending, InFlight(s'.request)) {
      assert Sends(s.out, k) && s'.out[k] == s.out[k];
      assert Batch(s.out[k].pending, s.out[k].node, s.world.db.nextAction);
    }
  }

  lemma ProceedFlight(cfg: Config, s: System)
    requires !(s.request.Finding? && s.request.todo == [])
    requires !(s.request.Recording? && s.request.id in s.world.db.alerts)
    ensures SameFlight(s, ProceedStep(cfg, s))
  {
    var q := s.request;
    if q.Advancing? || q.Escalating? {
      AdvanceFlight(cfg, s);
    } else if q.CheckingCooldown? || q.CheckingRate? || q.Recording? {
      CheckFlight(cfg, s);
    } else if q.Finding? {
      var next := Look(s.world.db.alerts, Ctx(q.node, q.at, q.todo[0], q.todo[1..], q.dispatched));
      assert InFlight(next) == q.dispatched && NodeOf(next) == q.node;
    }
  }

  /** The step acknowledges nothing and keeps or drops what is in flight. */
  ghost predicate SameFlight(s: System, s': System) {
    && NoSend(s.out, s'.out) && s'.world.db.nextAction == s.world.db.nextAction
    && (InFlight(s'.request) == [] || (InFlight(s'.request) == InFlight(s.request)
      && NodeOf(s'.request) == NodeOf(s.request)))
  }

  lemma AdvanceFlight(cfg: Config, s: System)
    requires s.request.Advancing? || s.request.Escalating?
    ensures SameFlight(s, ProceedStep(cfg, s))
  {
    var q, next := s.request, ProceedStep(cfg, s).request;
    assert q.id in s.world.db.alerts ==> InFlight(next) == q.c.dispatched && NodeOf(next) == q.c.node;
  }

  lemma CheckFlight(cfg: Config, s: System)
    requires s.request.CheckingCooldown? || s.request.CheckingRate?
             || (s.request.Recording? && s.request.id !in s.world.db.alerts)
    ensures SameFlight(s, ProceedStep(cfg, s))
  {
  }

  lemma FrontFlight(cfg: Config, s: System, e: Event)
    requires FlightInv(s) && IsFront(e)
    ensures FlightInv(Step(cfg, s, e))
  {
    FlightKept(s, Step(cfg, s, e));
  }

  lemma CallFlight(cfg: Config, s: System, e: Event)
    requires FlightInv(s) && IsCall(e)
    ensures FlightInv(Step(cfg, s, e))
  {
    FlightKept(s, Step(cfg, s, e));
  }

  lemma StepFlight(cfg: Config, s: System, e: Event)
    requires FlightInv(s)
    ensures FlightInv(Step(cfg, s, e))
  {
    var s' := Step(cfg, s, e);
    if e.Proceed? {
      if s.request.Finding? && s.request.todo == [] {
        FlightSent(s, s');
      } else if s.request.Recording? && s.request.id in s.world.db.alerts {
        FlightRecorded(cfg, s);
      } else {
        ProceedFlight(cfg, s);
        FlightKept(s, s');
      }
    } else if IsFront(e) {
      FrontFlight(cfg, s, e);
    } else if IsCall(e) {
      CallFlight(cfg, s, e);
    } else if IsPrune(e) {
      FlightKept(s, s');
    } else {
      JobFrame(cfg, s, e);
      FlightKept(s, s');
    }
  }

  // ----- the Agents' side -----

  /** The action came with an Ack this node's Agent has read. */
  predicate Came(s: State, k: int, node: NodeId, action: Action) {
    0 <= k && k in s.taken && Sends(s.sys.out, k) && s.sys.out[k].node == node && action in s.sys.out[k].pending
  }

  ghost predicate Legit(s: State, node: NodeId, action: Action) {
    exists k :: Came(s, k, node, action)
  }

  ghost predicate AllDifferent(s: State) {
    && (forall i, j :: 0 <= i < j < |s.tasks| ==> s.tasks[i].action.id != s.tasks[j].action.id)
    && (forall i, j :: 0 <= i < j < |s.executed| ==> s.executed[i].action.id != s.executed[j].action.id)
    && (forall i, j :: 0 <= i < |s.tasks| && 0 <= j < |s.executed| ==> s.tasks[i].action.id != s.executed[j].action.id)
  }

  ghost predicate AgentsOk(s: State) {
    && (forall i :: 0 <= i < |s.tasks| ==> Legit(s, s.tasks[i].node, s.tasks[i].action))
    && (forall i :: 0 <= i < |s.executed| ==> Legit(s, s.executed[i].node, s.executed[i].action))
    && AllDifferent(s)
  }

  ghost predicate Ran(executed: seq<Execution>, id: nat) {
    exists i :: 0 <= i < |executed| && executed[i].action.id == id && executed[i].ok
  }

  /** The audit log says EXECUTED only about actions an Agent ran successfully. */
  ghost predicate AuditTrue(s: State) {
    forall id :: id in s.sys.world.db.actions && s.sys.world.db.actions[id].status == Executed ==> Ran(s.executed, id)
  }

  /** A report of success between its read and its write is about an action that ran. */
  ghost predicate CallsTrue(s: State) {
    forall c :: c in s.sys.calls && c.Reporting? && c.executed ==> Ran(s.executed, c.id)
  }

  ghost predicate ProtocolInv(s: State) {
    Inv(s.sys) && FlightInv(s.sys) && AgentsOk(s) && AuditTrue(s) && CallsTrue(s)
  }

  /** Nothing that was sent is unsaid. */
  ghost predicate Extends(before: seq<Output>, after: seq<Output>) {
    |before| <= |after| && forall k :: 0 <= k < |before| ==> after[k] == before[k]
  }

  lemma StepExtends(cfg: Config, s: System, e: Event)
    ensures Extends(s.out, Step(cfg, s, e).out)
  {
    if e.Proceed? {
      if !(s.request.Finding? && s.request.todo == []) && !(s.request.Recording? && s.request.id in s.world.db.alerts) {
        ProceedFlight(cfg, s);
        OutsEqual(s.out, ProceedStep(cfg, s).out);
      }
    } else if IsJob(e) {
      JobFrame(cfg, s, e);
    } else if IsFront(e) {
      FrontExtends(cfg, s, e);
    } else if IsCall(e) {
      CallExtends(cfg, s, e);
    }
  }

  lemma FrontExtends(cfg: Config, s: System, e: Event)
    requires IsFront(e)
    ensures Extends(s.out, Step(cfg, s, e).out)
  {
  }

  lemma CallExtends(cfg: Config, s: System, e: Event)
    requires IsCall(e)
    ensures Extends(s.out, Step(cfg, s, e).out)
  {
  }

  /** A row says EXECUTED only because a report that was under way wrote it, or it said so before. */
  lemma ExecutedOnlyByReport(cfg: Config, s: System, e: Event, id: nat)
    requires Inv(s)
    requires id in Step(cfg, s, e).world.db.actions && Step(cfg, s, e).world.db.actions[id].status == Executed
    ensures (id in s.world.db.actions && s.world.db.actions[id].status == Executed)
            || (e.CallWrites? && e.c in s.calls && e.c.Reporting? && e.c.executed && e.c.id == id)
  {
    if e.Proceed? {
      ProceedFrame(cfg, s);
    } else if IsJob(e) {
      JobFrame(cfg, s, e);
    } else if IsCall(e) {
      CallExecuted(cfg, s, e, id);
    } else {
      OtherExecuted(cfg, s, e, id);
    }
  }

  lemma OtherExecuted(cfg: Config, s: System, e: Event, id: nat)
    requires (IsFront(e) || IsPrune(e)) && id in Step(cfg, s, e).world.db.actions
    ensures id in s.world.db.actions && Step(cfg, s, e).world.db.actions[id] == s.world.db.actions[id]
  {
  }

  lemma CallExecuted(cfg: Config, s: System, e: Event, id: nat)
    requires ActionsOk(s.world.db.actions, s.world.db.nextAction) && IsCall(e)
    requires id in Step(cfg, s, e).world.db.actions && Step(cfg, s, e).world.db.actions[id].status == Executed
    ensures (id in s.world.db.actions && s.world.db.actions[id].status == Executed)
            || (e.CallWrites? && e.c in s.calls && e.c.Reporting? && e.c.executed && e.c.id == id)
  {
  }

  /** Calls come under way only by their read. */
  lemma CallsOnlyRead(cfg: Config, s: System, e: Event, c: Call)
    requires c in Step(cfg, s, e).calls
    ensures c in s.calls || e == CallReads(c)
  {
    if e.Proceed? {
      ProceedCalls(cfg, s);
    } else if IsJob(e) {
      assert JobStep(cfg, s, e).calls == s.calls;
    } else if IsCall(e) {
      CallCalls(cfg, s, e, c);
    }
  }

  lemma CallCalls(cfg: Config, s: System, e: Event, c: Call)
    requires IsCall(e) && c in Step(cfg, s, e).calls
    ensures c in s.calls || e == CallReads(c)
  {
  }

  lemma AgentsKept(s: State, s': State)
    requires AgentsOk(s) && s.taken <= s'.taken && s'.tasks == s.tasks && s'.executed == s.executed
    requires Extends(s.sys.out, s'.sys.out)
    ensures AgentsOk(s')
  {
    forall node, action | Legit(s, node, action) ensures Legit(s', node, action) {
      var k :| Came(s, k, node, action);
      assert Came(s', k, node, action);
    }
  }

  lemma AckInv(cfg: Config, s: State, k: nat)
    requires ProtocolInv(s) && Sends(s.sys.out, k) && k !in s.taken
    ensures ProtocolInv(Next(cfg, s, AckArrives(k)))
  {
    var s' := Next(cfg, s, AckArrives(k));
    var node, pending := s.sys.out[k].node, s.sys.out[k].pending;
    forall j | 0 <= j < |pending| ensures Legit(s', node, pending[j]) {
      assert Came(s', k, node, pending[j]);
    }
    forall other, action | Legit(s, other, action)
      ensures Legit(s', other, action)
      ensures forall j :: 0 <= j < |pending| ==> action.id != pending[j].id
    {
      var l :| Came(s, l, other, action);
      assert Came(s', l, other, action);
      NotInLaterAck(s, k, other, action);
    }
  }

  /** What came with an Ack that was read does not come again with one that was not. */
  lemma NotInLaterAck(s: State, k: nat, other: NodeId, action: Action)
    requires AcksOk(s.sys.out, s.sys.world.db.nextAction) && Sends(s.sys.out, k) && k !in s.taken
        && Legit(s, other, action)
    ensures forall j :: 0 <= j < |s.sys.out[k].pending| ==> action.id != s.sys.out[k].pending[j].id
  {
    var pending := s.sys.out[k].pending;
    var l :| Came(s, l, other, action);
    var i :| 0 <= i < |s.sys.out[l].pending| && s.sys.out[l].pending[i] == action;
    if l < k {
      assert Disjoint(s.sys.out[l].pending, pending);
    } else {
      assert Disjoint(pending, s.sys.out[l].pending);
    }
  }

  lemma LegitKept(s: State, s': State)
    requires s'.sys == s.sys && s'.taken == s.taken
    ensures forall node, action :: Legit(s, node, action) ==> Legit(s', node, action)
  {
    forall node, action | Legit(s, node, action) ensures Legit(s', node, action) {
      var k :| Came(s, k, node, action);
      assert Came(s', k, node, action);
    }
  }

  lemma ForgetInv(s: State, i: nat)
    requires AgentsOk(s) && i < |s.tasks|
    ensures AgentsOk(s.(tasks := Without(s.tasks, i), forgotten := s.forgotten + [s.tasks[i]]))
  {
    LegitKept(s, s.(tasks := Without(s.tasks, i), forgotten := s.forgotten + [s.tasks[i]]));
  }

  lemma ExecuteInv(s: State, i: nat, ok: bool)
    requires AgentsOk(s) && i < |s.tasks|
    ensures AgentsOk(s.(tasks := Without(s.tasks, i),
                        executed := s.executed + [Execution(s.tasks[i].node, s.tasks[i].action, ok)]))
  {
    var s' := s.(tasks := Without(s.tasks, i), executed := s.executed + [Execution(s.tasks[i].node, s.tasks[i].action,
      ok)]);
    LegitKept(s, s');
    forall j | 0 <= j < |s'.tasks| ensures s'.tasks[j].action.id != s.tasks[i].action.id {
      assert s'.tasks[j] == s.tasks[if j < i then j else j + 1];
    }
  }

  lemma TaskInv(cfg: Config, s: State, m: Move)
    requires ProtocolInv(s) && (m.AgentExecutes? || m.AgentForgets?)
    ensures ProtocolInv(Next(cfg, s, m))
  {
    if m.i < |s.tasks| {
      var s' := Next(cfg, s, m);
      if m.AgentForgets? {
        ForgetInv(s, m.i);
      } else {
        ExecuteInv(s, m.i, m.ok);
      }
      forall id | Ran(s.executed, id) ensures Ran(s'.executed, id) {
        var i :| 0 <= i < |s.executed| && s.executed[i].action.id == id && s.executed[i].ok;
        assert s'.executed[i] == s.executed[i];
      }
    }
  }

  lemma SystemMoves(cfg: Config, s: State, e: Event)
    requires Inv(s.sys) && FlightInv(s.sys) && AgentsOk(s)
    ensures var s' := s.(sys := Step(cfg, s.sys, e));
            Inv(s'.sys) && FlightInv(s'.sys) && AgentsOk(s')
  {
    StepInv(cfg, s.sys, e);
    StepFlight(cfg, s.sys, e);
    StepExtends(cfg, s.sys, e);
    AgentsKept(s, s.(sys := Step(cfg, s.sys, e)));
  }

  /** A step keeps the log true if a report it lets in is about something that ran. */
  lemma StepAudit(cfg: Config, s: State, e: Event)
    requires Inv(s.sys) && AuditTrue(s) && CallsTrue(s)
    requires IsReport(e) && e.c.executed ==> Ran(s.executed, e.c.id)
    ensures var s' := s.(sys := Step(cfg, s.sys, e)); AuditTrue(s') && CallsTrue(s')
  {
    var sys' := Step(cfg, s.sys, e);
    forall id | id in sys'.world.db.actions && sys'.world.db.actions[id].status == Executed ensures Ran(s.executed,
      id) {
      ExecutedOnlyByReport(cfg, s.sys, e, id);
    }
    forall c | c in sys'.calls && c.Reporting? && c.executed ensures Ran(s.executed, c.id) {
      CallsOnlyRead(cfg, s.sys, e, c);
    }
  }

  lemma CollectorInv(cfg: Config, s: State, e: Event)
    requires ProtocolInv(s) && !IsReport(e)
    ensures ProtocolInv(s.(sys := Step(cfg, s.sys, e)))
  {
    SystemMoves(cfg, s, e);
    StepAudit(cfg, s, e);
  }

  lemma ReportInv(cfg: Config, s: State, i: nat, token: nat, text: string)
    requires ProtocolInv(s) && i < |s.executed|
    ensures ProtocolInv(Next(cfg, s, ReportArrives(i, token, text)))
  {
    var c := ReportOf(s.executed[i], token, text);
    SystemMoves(cfg, s, CallReads(c));
    assert c.executed ==> Ran(s.executed, c.id);
    StepAudit(cfg, s, CallReads(c));
  }

  lemma {:induction false} PlayInv(cfg: Config, ms: seq<Move>)
    ensures ProtocolInv(Play(cfg, ms))
  {
    if ms != [] {
      var n := |ms| - 1;
      var s, m := Play(cfg, ms[..n]), ms[n];
      PlayInv(cfg, ms[..n]);
      match m
      case CollectorMoves(e) => if !IsReport(e) { CollectorInv(cfg, s, e); }
      case AckArrives(k) => if Sends(s.sys.out, k) && k !in s.taken { AckInv(cfg, s, k); }
      case ReportArrives(i, token, text) => if i < |s.executed| { ReportInv(cfg, s, i, token, text); }
      case _ => TaskInv(cfg, s, m);
    }
  }

  /** No action is ever executed twice. */
  lemma ExecutedAtMostOnce(cfg: Config, ms: seq<Move>, i: nat, j: nat)
    requires i < j < |Play(cfg, ms).executed|
    ensures Play(cfg, ms).executed[i].action.id != Play(cfg, ms).executed[j].action.id
  {
    PlayInv(cfg, ms);
  }

  /** Whatever runs was dispatched, and runs on the node it was decided for. */
  lemma ExecutedWasDispatched(cfg: Config, ms: seq<Move>, i: nat)
    requires i < |Play(cfg, ms).executed|
    ensures var x := Play(cfg, ms).executed[i]; x.action.status == Dispatched && x.action.nodeId == x.node
  {
    PlayInv(cfg, ms);
    var s := Play(cfg, ms);
    var k :| Came(s, k, s.executed[i].node, s.executed[i].action);
    assert Batch(s.sys.out[k].pending, s.sys.out[k].node, s.sys.world.db.nextAction);
  }

  /** EXECUTED in the audit log means an Agent really ran the action, and it succeeded. */
  lemma AuditLogIsTrue(cfg: Config, ms: seq<Move>, id: nat)
    requires id in Play(cfg, ms).sys.world.db.actions && Play(cfg, ms).sys.world.db.actions[id].status == Executed
    ensures exists i :: 0 <= i < |Play(cfg, ms).executed|
                        && Play(cfg, ms).executed[i].action.id == id && Play(cfg, ms).executed[i].ok
  {
    PlayInv(cfg, ms);
  }

  // ----- what becomes of what arrives -----

  /** The action has been run on the node, is still to be run there, or was forgotten in a crash. */
  ghost predicate Handled(s: State, node: NodeId, action: Action) {
    || Task(node, action) in s.tasks
    || Task(node, action) in s.forgotten
    || exists i :: 0 <= i < |s.executed| && s.executed[i].node == node && s.executed[i].action == action
  }

  lemma OnlyOneLess(tasks: seq<Task>, i: nat, task: Task)
    requires i < |tasks| && task in tasks
    ensures task in Without(tasks, i) || task == tasks[i]
  {
    var j :| 0 <= j < |tasks| && tasks[j] == task;
    if j < i {
      assert Without(tasks, i)[j] == task;
    } else if i < j {
      assert Without(tasks, i)[j - 1] == task;
    }
  }

  lemma StillHandled(cfg: Config, s: State, m: Move, node: NodeId, action: Action)
    requires Handled(s, node, action)
    ensures Handled(Next(cfg, s, m), node, action)
  {
    var s' := Next(cfg, s, m);
    if i :| 0 <= i < |s.executed| && s.executed[i].node == node && s.executed[i].action == action {
      assert s'.executed[i] == s.executed[i];
    } else if Task(node, action) in s.tasks && (m.AgentExecutes? || m.AgentForgets?) && m.i < |s.tasks| {
      OnlyOneLess(s.tasks, m.i, Task(node, action));
      if m.AgentExecutes? && s.tasks[m.i] == Task(node, action) {
        assert s'.executed[|s.executed|].node == node && s'.executed[|s.executed|].action == action;
      }
    }
  }

  lemma NewlyHandled(cfg: Config, s: State, k: nat, j: nat)
    requires Sends(s.sys.out, k) && k !in s.taken && j < |s.sys.out[k].pending|
    ensures Handled(Next(cfg, s, AckArrives(k)), s.sys.out[k].node, s.sys.out[k].pending[j])
  {
    var out := s.sys.out[k];
    assert Next(cfg, s, AckArrives(k)).tasks[|s.tasks| + j] == Task(out.node, out.pending[j]);
  }

  /** The Collector goes on; what it has sent stays sent. */
  lemma NextExtends(cfg: Config, s: State, m: Move)
    ensures Extends(s.sys.out, Next(cfg, s, m).sys.out)
  {
    match m
    case CollectorMoves(e) => StepExtends(cfg, s.sys, e);
    case ReportArrives(i, token, text) =>
      if i < |s.executed| {
        StepExtends(cfg, s.sys, CallReads(ReportOf(s.executed[i], token, text)));
      }
    case _ =>
  }

  lemma {:induction false} TakenWereSent(cfg: Config, ms: seq<Move>, k: nat)
    requires k in Play(cfg, ms).taken
    ensures Sends(Play(cfg, ms).sys.out, k)
  {
    if ms != [] {
      var n := |ms| - 1;
      NextExtends(cfg, Play(cfg, ms[..n]), ms[n]);
      if k in Play(cfg, ms[..n]).taken {
        TakenWereSent(cfg, ms[..n], k);
      }
    }
  }

  /** Every action of every Ack that reached an Agent has been run on that Agent's node, is still to be run there, or
      was forgotten in a crash: nothing that arrives is passed over. */
  lemma {:induction false} WhatArrivesIsHandled(cfg: Config, ms: seq<Move>, k: nat, j: nat)
    requires var s := Play(cfg, ms); k in s.taken && Sends(s.sys.out, k) && j < |s.sys.out[k].pending|
    ensures var s := Play(cfg, ms); Handled(s, s.sys.out[k].node, s.sys.out[k].pending[j])
  {
    if ms != [] {
      var n := |ms| - 1;
      var s := Play(cfg, ms[..n]);
      NextExtends(cfg, s, ms[n]);
      if k in s.taken {
        TakenWereSent(cfg, ms[..n], k);
        WhatArrivesIsHandled(cfg, ms[..n], k, j);
        StillHandled(cfg, s, ms[n], s.sys.out[k].node, s.sys.out[k].pending[j]);
      } else {
        NewlyHandled(cfg, s, k, j);
      }
    }
  }
}
