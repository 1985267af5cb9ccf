/** The Collector as a state machine.

    One step is one repository call.  Ingestion requests are serialized; one
    job thread, acknowledgements, reports, heartbeats and faults interleave with
    the request, and with each other, at every call.  An event resolves all
    nondeterminism, so a run is determined by its events; an event that is not
    enabled changes nothing. */
module Machine {
  import opened Model
  import opened Tables
  import opened Rules
  import opened Alerting

  /** The verdict in hand while a request works through its verdicts. */
  datatype Ctx = Ctx(node: NodeId, at: Time, r: RuleResult, rest: seq<RuleResult>, dispatched: seq<Action>)

  /** Where the ingestion request stands: the next repository call to make, and the
      alert as the verdict last read it. */
  datatype Request =
    | Idle
    | Inserting(p: Payload, receivedAt: Time)
    | Evaluating(p: Payload, i: nat, results: seq<RuleResult>)
    | Finding(node: NodeId, at: Time, todo: seq<RuleResult>, dispatched: seq<Action>)
    | Opening(c: Ctx)
    | Resolving(c: Ctx, id: nat)
    | Advancing(c: Ctx, id: nat)
    | Escalating(c: Ctx, id: nat, seen: Alert)
    | CheckingCooldown(c: Ctx, id: nat, seen: Alert, playbook: Playbook)
    | CheckingRate(c: Ctx, id: nat, seen: Alert, playbook: Playbook)
    | Recording(c: Ctx, id: nat, seen: Alert, playbook: Playbook, reason: Option<Reason>)
    | Marking(c: Ctx, id: nat, action: Action)

  /** Where the job thread stands. */
  datatype Job =
    | JobIdle
    | Sweeping(now: Time, todo: map<NodeId, Time>)
    | SweepWriting(now: Time, todo: map<NodeId, Time>, node: NodeId, lastSeen: Time, found: Option<nat>)
    | TimingOut(now: Time, ids: set<nat>)

  /** A request of an operator or an Agent, on a session of its own: it reads the row, checks its status, and writes
      it in a second call that checks nothing.  The token tells retries apart. */
  datatype Call =
    | Acknowledging(token: nat, id: nat, who: string)
    | Reporting(token: nat, id: nat, executed: bool, text: string)

  datatype Refusal = NotFound | AlreadyResolved | NotDispatched

  /** Everything the outside can observe, besides notifications. */
  datatype Output =
    | Acked(node: NodeId, pending: seq<Action>)
    | IngestFailed(node: NodeId)
    | Advanced(row: Alert)
    | Decided(action: Action, alert: Alert)
    | AcknowledgeDone(row: Alert)
    | AcknowledgeRefused(id: nat, why: Refusal)
    | ReportDone(action: Action)
    | ReportRefused(id: nat, why: Refusal)
    | CallFailed(c: Call)

  /** At most one more output, and it is not a decision. */
  ghost predicate NoDecision(before: seq<Output>, after: seq<Output>) {
    after == before || (|after| == |before| + 1 && after[..|before|] == before && !after[|before|].Decided?)
  }

  /** `calls` are the acknowledgements and reports between their read and their write. */
  datatype System = System(
    world: World, request: Request, job: Job, swept: bool, calls: set<Call>, out: seq<Output>)

  datatype Event =
    | Receive(p: Payload, receivedAt: Time)
    | Proceed
    | RequestFault
    | Heartbeat(node: NodeId, at: Time)
    | CallReads(c: Call)
    | CallWrites(c: Call, at: Time)
    | CallFails(c: Call)
    | StaleBegin(now: Time)
    | StaleLook(node: NodeId)
    | StaleWrite
    | StaleEnd
    | TimeOutBegin(now: Time)
    | TimeOutMark(id: nat)
    | TimeOutEnd
    | PruneActions(now: Time, ids: set<nat>)
    | PruneAlerts(now: Time, ids: set<nat>)
    | PruneSamples(now: Time, ids: set<nat>)
    | JobFault
    | Restart

  const INITIAL: System := System(World(EMPTY, []), Idle, JobIdle, false, {}, [])

  // ----- the ingestion request -----

  function NextVerdict(c: Ctx, dispatched: seq<Action>): Request {
    Finding(c.node, c.at, c.rest, dispatched)
  }

  function AfterEscalation(cfg: Config, c: Ctx, id: nat, row: Alert): Request {
    if ShouldRemediate(cfg, row, c.at) && Mapped(cfg, c.r.ruleKey)
    then CheckingCooldown(c, id, row, cfg.playbooks[c.r.ruleKey])
    else NextVerdict(c, c.dispatched)
  }

  function AfterAdvance(cfg: Config, c: Ctx, id: nat, row: Alert): Request {
    if ShouldEscalate(cfg, row, c.at) then Escalating(c, id, row) else AfterEscalation(cfg, c, id, row)
  }

  ghost function Look(alerts: Alerts, c: Ctx): Request {
    match FindOpen(alerts, c.node, c.r.ruleKey)
    case None => if c.r.breached then Opening(c) else NextVerdict(c, c.dispatched)
    case Some(id) => if c.r.breached then Advancing(c, id) else Resolving(c, id)
  }

  /** A failing call ends rule evaluation: the Ack still goes out, without
      pending actions; before evaluation the whole request fails. */
  function FailRequest(s: System): System {
    match s.request
    case Idle => s
    case Inserting(p, _) => s.(request := Idle, out := s.out + [IngestFailed(p.nodeId)])
    case Evaluating(p, _, _) => s.(request := Idle, out := s.out + [Acked(p.nodeId, [])])
    case Finding(node, _, _, _) => s.(request := Idle, out := s.out + [Acked(node, [])])
    case Opening(c) => s.(request := Idle, out := s.out + [Acked(c.node, [])])
    case _ => s.(request := Idle, out := s.out + [Acked(s.request.c.node, [])])
  }

  ghost function DecideStep(cfg: Config, s: System): System
    requires s.request.CheckingCooldown? || s.request.CheckingRate? || s.request.Recording?
  {
    var w := s.world;
    match s.request
    case CheckingCooldown(c, id, seen, playbook) =>
      var reason := CooldownReason(cfg, LastCreated(w.db.actions, c.node, playbook.name), c.at);
      s.(request := if reason.Some? then Recording(c, id, seen, playbook, reason) else CheckingRate(c, id, seen,
        playbook))
    case CheckingRate(c, id, seen, playbook) =>
      s.(request := Recording(c, id, seen, playbook, RateReason(cfg, CountRecent(w.db.actions, c.node, c.at - HOUR))))
    case Recording(c, id, seen, playbook, reason) =>
      if id in w.db.alerts then
        var row := NewAction(w.db.nextAction, c.node, id, c.r.ruleKey, playbook, reason, c.at);
        s.(world := w.(db := CreateAction(w.db, row)),
           request := Marking(c, id, row),
           out := s.out + [Decided(row, seen)])
      else
        FailRequest(s)
  }

  ghost function ProceedStep(cfg: Config, s: System): System {
    var w := s.world;
    match s.request
    case Idle => s
    case Inserting(p, receivedAt) =>
      s.(world := w.(db := BulkInsert(w.db, p, receivedAt)), request := Evaluating(p, 0, []))
    case Evaluating(p, i, results) =>
      if i < |p.samples| then
        s.(request := Evaluating(p, i + 1,
             results + ReadingResults(cfg, w.db.samples, p.nodeId, p.samples[i], p.collectedAt)))
      else
        s.(request := Finding(p.nodeId, p.collectedAt, results, []))
    case Finding(node, at, todo, dispatched) =>
      if todo == [] then
        s.(request := Idle, out := s.out + [Acked(node, dispatched)])
      else
        s.(request := Look(w.db.alerts, Ctx(node, at, todo[0], todo[1..], dispatched)))
    case Opening(c) =>
      s.(world := OpenAlert(w, DraftOf(c.node, c.r, c.at)), request := NextVerdict(c, c.dispatched))
    case Resolving(c, id) =>
      if id in w.db.alerts
      then s.(world := ResolveAlert(w, id, c.at), request := NextVerdict(c, c.dispatched))
      else FailRequest(s)
    case Advancing(c, id) =>
      if id in w.db.alerts then
        var row := AdvancedRow(w.db.alerts[id], c.r.value, c.at);
        s.(world := AdvanceAlert(w, id, c.r.value, c.at),
           request := AfterAdvance(cfg, c, id, row),
           out := s.out + [Advanced(row)])
      else
        FailRequest(s)
    case Escalating(c, id, _) =>
      if id in w.db.alerts then
        s.(world := EscalateAlert(w, id, c.at),
           request := AfterEscalation(cfg, c, id, EscalatedRow(w.db.alerts[id], c.at)))
      else
        FailRequest(s)
    case Marking(c, id, action) =>
      if id in w.db.alerts then
        s.(world := MarkRemediated(w, id, c.at),
           request := NextVerdict(c, Collect(c.dispatched, OnlyDispatched(action))))
      else
        FailRequest(s)
    case _ => DecideStep(cfg, s)
  }

  // ----- acknowledgements and reports -----

  /** What is wrong with the row a call is about, if anything is. */
  function WhyRefused(db: Db, c: Call): Option<Refusal> {
    match c
    case Acknowledging(_, id, _) =>
      if id !in db.alerts then Some(NotFound)
      else if db.alerts[id].status == Resolved then Some(AlreadyResolved)
      else None
    case Reporting(_, id, _, _) =>
      if id !in db.actions then Some(NotFound)
      else if db.actions[id].status != Dispatched then Some(NotDispatched)
      else None
  }

  function Refused(c: Call, why: Refusal): Output {
    if c.Acknowledging? then AcknowledgeRefused(c.id, why) else ReportRefused(c.id, why)
  }

  /** The read: a call on a row in the wrong state is refused, any other goes on to its write. */
  function ReadCall(s: System, c: Call): System {
    match WhyRefused(s.world.db, c)
    case Some(why) => s.(out := s.out + [Refused(c, why)])
    case None => s.(calls := s.calls + {c})
  }

  function ResultStatus(executed: bool): ActionStatus {
    if executed then Executed else Failed
  }

  /** The row a call is about is in its table. */
  predicate Present(db: Db, c: Call) {
    if c.Acknowledging? then c.id in db.alerts else c.id in db.actions
  }

  function Written(db: Db, c: Call, at: Time): Db
    requires Present(db, c)
  {
    match c
    case Acknowledging(_, id, who) => SetAlert(db, AcknowledgedRow(db.alerts[id], who, at))
    case Reporting(_, id, executed, text) => MarkResult(db, id, ResultStatus(executed), Some(Message(text)), at)
  }

  function Confirmation(db: Db, c: Call): Output
    requires Present(db, c)
  {
    if c.Acknowledging? then AcknowledgeDone(db.alerts[c.id]) else ReportDone(db.actions[c.id])
  }

  function FailCall(s: System, c: Call): System {
    if c in s.calls then s.(calls := s.calls - {c}, out := s.out + [CallFailed(c)]) else s
  }

  /** The write, whatever has happened to the row since the read. */
  function WriteCall(s: System, c: Call, at: Time): System {
    if c in s.calls && Present(s.world.db, c) then
      var db := Written(s.world.db, c, at);
      s.(world := s.world.(db := db), calls := s.calls - {c}, out := s.out + [Confirmation(db, c)])
    else
      FailCall(s, c)
  }

  // ----- the job thread -----

  function StaleDraft(cfg: Config, node: NodeId, now: Time, lastSeen: Time): AlertDraft {
    AlertDraft(node, STALENESS_KEY, Staleness, Critical, "Node has stopped reporting",
               (now - lastSeen) as real, cfg.staleAfter as real, now)
  }

  predicate IsStale(cfg: Config, now: Time, lastSeen: Time) {
    cfg.staleAfter <= now - lastSeen
  }

  function SweepWrite(cfg: Config, w: World, swept: bool, now: Time, node: NodeId, lastSeen: Time,
                      found: Option<nat>): World {
    if IsStale(cfg, now, lastSeen) then
      if found.None? && swept then OpenAlert(w, StaleDraft(cfg, node, now, lastSeen)) else w
    else if found.Some? && found.value in w.db.alerts then
      ResolveAlert(w, found.value, now)
    else
      w
  }

  function LastSeenOf(nodes: map<NodeId, Node>): map<NodeId, Time> {
    map node | node in nodes :: nodes[node].lastSeenAt
  }

  ghost function JobStep(cfg: Config, s: System, e: Event): System {
    var w := s.world;
    match e
    case StaleBegin(now) =>
      if s.job.JobIdle? then s.(job := Sweeping(now, LastSeenOf(w.db.nodes))) else s
    case StaleLook(node) =>
      if s.job.Sweeping? && node in s.job.todo then
        s.(job := SweepWriting(s.job.now, s.job.todo - {node}, node, s.job.todo[node],
                               FindOpen(w.db.alerts, node, STALENESS_KEY)))
      else
        s
    case StaleWrite =>
      if s.job.SweepWriting? then
        s.(world := SweepWrite(cfg, w, s.swept, s.job.now, s.job.node, s.job.lastSeen, s.job.found),
           job := Sweeping(s.job.now, s.job.todo))
      else
        s
    case StaleEnd =>
      if s.job.Sweeping? && s.job.todo == map[] then s.(job := JobIdle, swept := true) else s
    case TimeOutBegin(now) =>
      if s.job.JobIdle?
      then s.(job := TimingOut(now, StaleDispatches(w.db.actions, now - cfg.dispatchTimeout)))
      else s
    case TimeOutMark(id) =>
      if s.job.TimingOut? && id in s.job.ids && id in w.db.actions then
        s.(world := w.(db := MarkResult(w.db, id, Failed, Some(TimedOut), s.job.now)),
           job := TimingOut(s.job.now, s.job.ids - {id}))
      else
        s
    case TimeOutEnd =>
      if s.job.TimingOut? && s.job.ids == {} then s.(job := JobIdle) else s
    case JobFault => s.(job := JobIdle)
    case _ => s
  }

  // ----- retention batches -----

  predicate IsPrune(e: Event) {
    e.PruneActions? || e.PruneAlerts? || e.PruneSamples?
  }

  /** The rows a batch may delete: any choice of expired rows, up to the batch size. */
  predicate PruneEnabled(cfg: Config, s: System, e: Event)
    requires IsPrune(e)
  {
    var db := s.world.db;
    && s.job.JobIdle?
    && |e.ids| <= cfg.batchSize
    && match e
       case PruneActions(now, ids) => ids <= DoomedActions(db.actions, now - cfg.actionsRetention)
       case PruneAlerts(now, ids) => ids <= DoomedAlerts(db.alerts, db.actions, now - cfg.alertsRetention)
       case PruneSamples(now, ids) => ids <= DoomedSamples(db.samples, now - cfg.metricsRetention)
  }

  function PruneDb(db: Db, e: Event): Db
    requires IsPrune(e)
  {
    match e
    case PruneActions(_, ids) => db.(actions := db.actions - ids)
    case PruneAlerts(_, ids) => db.(alerts := db.alerts - ids)
    case PruneSamples(_, ids) => db.(samples := db.samples - ids)
  }

  // ----- runs -----

  predicate IsFront(e: Event) {
    e.Receive? || e.RequestFault? || e.Heartbeat? || e.Restart?
  }

  predicate IsCall(e: Event) {
    e.CallReads? || e.CallWrites? || e.CallFails?
  }

  predicate IsJob(e: Event) {
    !IsFront(e) && !IsCall(e) && !IsPrune(e) && !e.Proceed?
  }

  ghost function Step(cfg: Config, s: System, e: Event): System {
    match e
    case Receive(p, receivedAt) =>
      if s.request.Idle? then
        s.(world := s.world.(db := UpsertSeen(s.world.db, p.nodeId, p.collectedAt)),
           request := Inserting(p, receivedAt))
      else
        s
    case Proceed => ProceedStep(cfg, s)
    case RequestFault => FailRequest(s)
    case Heartbeat(node, at) => s.(world := s.world.(db := UpsertSeen(s.world.db, node, at)))
    case CallReads(c) => ReadCall(s, c)
    case CallWrites(c, at) => WriteCall(s, c, at)
    case CallFails(c) => FailCall(s, c)
    case Restart => s.(request := Idle, job := JobIdle, swept := false, calls := {})
    case _ =>
      if IsPrune(e) then
        if PruneEnabled(cfg, s, e) then s.(world := s.world.(db := PruneDb(s.world.db, e))) else s
      else
        JobStep(cfg, s, e)
  }

  ghost function Run(cfg: Config, s: System, es: seq<Event>): System {
    if es == [] then s else Step(cfg, Run(cfg, s, es[..|es| - 1]), es[|es| - 1])
  }

  lemma {:induction false} RunAppend(cfg: Config, s: System, a: seq<Event>, b: seq<Event>)
    ensures Run(cfg, s, a + b) == Run(cfg, Run(cfg, s, a), b)
    decreases |b|
  {
    if b == [] {
      assert a + b == a;
    } else {
      var n := |b| - 1;
      RunAppend(cfg, s, a, b[..n]);
      assert (a + b)[..|a + b| - 1] == a + b[..n];
    }
  }

  // ----- what every step keeps -----

  ghost predicate NoneReserved(results: seq<RuleResult>) {
    forall i :: 0 <= i < |results| ==> results[i].ruleKey != STALENESS_KEY
  }

  ghost predicate CtxOk(c: Ctx) {
    c.r.ruleKey != STALENESS_KEY && NoneReserved(c.rest)
  }

  /** What the request has read stays true until it acts on it. */
  ghost predicate RequestOk(alerts: Alerts, q: Request) {
    match q
    case Idle => true
    case Inserting(_, _) => true
    case Evaluating(_, _, results) => NoneReserved(results)
    case Finding(_, _, todo, _) => NoneReserved(todo)
    case Opening(c) => CtxOk(c) && c.r.breached && forall id :: !IsOpen(alerts, id, c.node, c.r.ruleKey)
    case _ => CtxOk(q.c) && IsOpen(alerts, q.id, q.c.node, q.c.r.ruleKey) && q.c.r.breached == !q.Resolving?
  }

  /** What the job thread has read stays true until it acts on it. */
  ghost predicate JobOk(db: Db, job: Job) {
    match job
    case SweepWriting(_, _, node, _, found) =>
      (match found
       case Some(id) => IsOpen(db.alerts, id, node, STALENESS_KEY)
       case None => forall id :: !IsOpen(db.alerts, id, node, STALENESS_KEY))
    case TimingOut(_, ids) => forall id :: id in ids ==> id in db.actions && db.actions[id].status != Blocked
    case _ => true
  }

  /** A call is about a row that exists or existed, and never about a blocked action. */
  ghost predicate CallsOk(db: Db, calls: set<Call>) {
    forall c :: c in calls ==>
      if c.Acknowledging? then
        c.id < db.nextAlert
      else
        c.id < db.nextAction && (c.id in db.actions ==> db.actions[c.id].status != Blocked)
  }

  ghost predicate Inv(s: System) {
    && DbOk(s.world.db)
    && RequestOk(s.world.db.alerts, s.request)
    && JobOk(s.world.db, s.job)
    && CallsOk(s.world.db, s.calls)
  }
}
