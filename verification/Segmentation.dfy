/** The alert table equals an offline segmentation of the verdict history.

    For each node and rule key, alerts correspond one to one to the maximal
    runs of breached verdicts, whatever other keys do in between and whatever
    the timestamps are. */
module Segmentation {
  import opened Model
  import opened Tables
  import opened Rules
  import opened Alerting

  // ----- the incremental side: verdicts and acknowledgements as they arrive -----

  datatype Input =
    | Verdict(node: NodeId, r: RuleResult, at: Time)
    | Acknowledgement(id: nat, who: string, at: Time)

  predicate Effective(alerts: Alerts, e: Input) {
    e.Acknowledgement? && e.id in alerts && alerts[e.id].status == Firing
  }

  ghost function Apply(cfg: Config, w: World, e: Input): (w': World)
    requires DbOk(w.db)
    ensures DbOk(w'.db)
  {
    match e
    case Verdict(node, r, at) =>
      ApplyVerdictOk(cfg, w, node, r, at);
      ApplyVerdict(cfg, w, node, r, at).world
    case Acknowledgement(id, who, at) =>
      if Effective(w.db.alerts, e) then
        SetAlertOk(w.db, id, AcknowledgedRow(w.db.alerts[id], who, at));
        w.(db := SetAlert(w.db, AcknowledgedRow(w.db.alerts[id], who, at)))
      else
        w
  }

  ghost function ApplyInputs(cfg: Config, w: World, es: seq<Input>): (w': World)
    requires DbOk(w.db)
    ensures DbOk(w'.db)
  {
    if es == [] then w else Apply(cfg, ApplyInputs(cfg, w, es[..|es| - 1]), es[|es| - 1])
  }

  // ----- the history of one key -----

  datatype KeyEvent = V(breached: bool, value: real, at: Time) | Ack(who: string, at: Time)

  /** What an input means for one node and key. */
  ghost function KeyPart(alerts: Alerts, e: Input, node: NodeId, key: string): seq<KeyEvent> {
    match e
    case Verdict(n, r, at) => if n == node && r.ruleKey == key then [V(r.breached, r.value, at)] else []
    case Acknowledgement(id, who, at) => if IsOpen(alerts, id, node, key) then [Ack(who, at)] else []
  }

  ghost function History(cfg: Config, w: World, es: seq<Input>, node: NodeId, key: string): seq<KeyEvent>
    requires DbOk(w.db)
  {
    if es == [] then []
    else
      var n := |es| - 1;
      History(cfg, w, es[..n], node, key) + KeyPart(ApplyInputs(cfg, w, es[..n]).db.alerts, es[n], node, key)
  }

  // ----- the offline side: runs of breaches in a finished history -----

  predicate Breach(x: KeyEvent) {
    x.V? && x.breached
  }

  predicate Clears(x: KeyEvent) {
    x.V? && !x.breached
  }

  /** The latest verdict of the history is a breach. */
  predicate Breaching(h: seq<KeyEvent>) {
    h != [] && var x := h[|h| - 1]; if x.V? then x.breached else Breaching(h[..|h| - 1])
  }

  /** A run starts at a breach that does not follow a breach. */
  predicate Opens(h: seq<KeyEvent>, i: nat)
    requires i < |h|
  {
    Breach(h[i]) && !Breaching(h[..i])
  }

  function Starts(h: seq<KeyEvent>): (starts: seq<nat>)
    ensures forall m :: 0 <= m < |starts| ==> starts[m] < |h| && Breach(h[starts[m]])
  {
    if h == [] then []
    else
      var n := |h| - 1;
      if Opens(h, n) then Starts(h[..n]) + [n] else Starts(h[..n])
  }

  /** The starts are all the openings, in order. */
  lemma {:induction false} StartsAreOpenings(h: seq<KeyEvent>)
    ensures forall i: nat :: i in Starts(h) <==> i < |h| && Opens(h, i)
    ensures forall m, n :: 0 <= m < n < |Starts(h)| ==> Starts(h)[m] < Starts(h)[n]
  {
    if h != [] {
      var n := |h| - 1;
      StartsAreOpenings(h[..n]);
      assert forall i :: 0 <= i < n ==> h[..n][..i] == h[..i];
    }
  }

  /** Where the run that starts at i ends: the first verdict after it that is no breach. */
  function EndOf(h: seq<KeyEvent>, i: nat): (e: nat)
    requires i < |h|
    ensures i < e <= |h|
  {
    var n := |h| - 1;
    if n == i then i + 1
    else
      var e := EndOf(h[..n], i);
      if e < n then e else if Clears(h[n]) then n else n + 1
  }

  lemma {:induction false} EndIsFirstClear(h: seq<KeyEvent>, i: nat)
    requires i < |h|
    ensures forall k :: i < k < EndOf(h, i) ==> !Clears(h[k])
    ensures EndOf(h, i) < |h| ==> Clears(h[EndOf(h, i)])
  {
    if i < |h| - 1 {
      EndIsFirstClear(h[..|h| - 1], i);
    }
  }

  /** What a run says about its alert. */
  datatype Span = Span(
    firstFiredAt: Time, lastFiredAt: Time, value: real, status: AlertStatus, resolvedAt: Option<Time>,
    acknowledgedAt: Option<Time>, acknowledgedBy: Option<string>, escalatedAt: Option<Time>,
    remediatedAt: Option<Time>)

  function SpanOf(row: Alert): Span {
    Span(row.firstFiredAt, row.lastFiredAt, row.triggeringValue, row.status, row.resolvedAt,
         row.acknowledgedAt, row.acknowledgedBy, row.escalatedAt, row.remediatedAt)
  }

  function LastBreach(run: seq<KeyEvent>): (k: nat)
    requires run != [] && Breach(run[0])
    ensures k < |run| && run[k].V?
  {
    if Breach(run[|run| - 1]) then |run| - 1 else LastBreach(run[..|run| - 1])
  }

  function LastAck(run: seq<KeyEvent>): (k: Option<nat>)
    ensures k.Some? ==> k.value < |run| && run[k.value].Ack?
  {
    if run == [] then None
    else if run[|run| - 1].Ack? then Some(|run| - 1)
    else LastAck(run[..|run| - 1])
  }

  /** A later breach of the run, old enough, with no acknowledgement before it. */
  predicate Due(delay: int, run: seq<KeyEvent>, k: nat)
    requires k < |run|
  {
    0 < k && Breach(run[k]) && delay <= run[k].at - run[0].at && LastAck(run[..k]).None?
  }

  function FirstDue(delay: int, run: seq<KeyEvent>): (k: Option<nat>)
    ensures k.Some? ==> k.value < |run|
  {
    if run == [] then None
    else
      var n := |run| - 1;
      var before := FirstDue(delay, run[..n]);
      if before.Some? then before else if Due(delay, run, n) then Some(n) else None
  }

  /** The names mean what they say: last breach, last acknowledgement, first due escalation or
      remediation. */
  lemma {:induction false} RunPoints(delay: int, run: seq<KeyEvent>)
    requires run != [] && Breach(run[0])
    ensures var k := LastBreach(run); Breach(run[k]) && forall j :: k < j < |run| ==> !Breach(run[j])
    ensures match LastAck(run)
            case Some(k) => forall j :: k < j < |run| ==> run[j].V?
            case None => forall j :: 0 <= j < |run| ==> run[j].V?
    ensures match FirstDue(delay, run)
            case Some(k) => Due(delay, run, k) && forall j :: 0 <= j < k ==> !Due(delay, run, j)
            case None => forall j :: 0 <= j < |run| ==> !Due(delay, run, j)
  {
    var n := |run| - 1;
    if 0 < n {
      RunPoints(delay, run[..n]);
      assert forall j :: 0 <= j < n ==> run[..n][..j] == run[..j];
      assert forall j :: 0 <= j < n ==> (Due(delay, run[..n], j) <==> Due(delay, run, j));
    } else {
      assert run[..0] == [];
    }
  }

  /** The alert of a run, read off the finished run and the verdict that closed it, if any did. */
  function RunSpan(cfg: Config, key: string, run: seq<KeyEvent>, closing: Option<Time>): Span
    requires run != [] && Breach(run[0])
  {
    var last, ack := LastBreach(run), LastAck(run);
    var escalation := FirstDue(cfg.escalationAfter, run);
    var remediation := if Mapped(cfg, key) then FirstDue(cfg.remediationAfter, run) else None;
    Span(run[0].at, run[last].at, run[last].value,
         if closing.Some? then Resolved else Firing, closing,
         if ack.Some? then Some(run[ack.value].at) else None,
         if ack.Some? then Some(run[ack.value].who) else None,
         if escalation.Some? then Some(run[escalation.value].at) else None,
         if remediation.Some? then Some(run[remediation.value].at) else None)
  }

  function SpanAt(cfg: Config, key: string, h: seq<KeyEvent>, i: nat, e: nat): Span
    requires i < e <= |h| && Breach(h[i])
  {
    RunSpan(cfg, key, h[i..e], if e < |h| then Some(h[e].at) else None)
  }

  function OfflineSpan(cfg: Config, key: string, h: seq<KeyEvent>, i: nat): Span
    requires i < |h| && Breach(h[i])
  {
    SpanAt(cfg, key, h, i, EndOf(h, i))
  }

  // ----- one more event -----

  /** What one more event does to the span of a run that is still open. */
  function NextSpan(cfg: Config, key: string, s: Span, x: KeyEvent): Span {
    match x
    case Ack(who, at) => s.(acknowledgedAt := Some(at), acknowledgedBy := Some(who))
    case V(breached, value, at) =>
      if !breached then
        s.(status := Resolved, resolvedAt := Some(at))
      else
        var age, unseen := at - s.firstFiredAt, s.acknowledgedAt.None?;
        s.(lastFiredAt := at, value := value,
           escalatedAt :=
             if unseen && s.escalatedAt.None? && cfg.escalationAfter <= age then Some(at) else s.escalatedAt,
           remediatedAt :=
             if unseen && s.remediatedAt.None? && cfg.remediationAfter <= age && Mapped(cfg, key)
             then Some(at) else s.remediatedAt)
  }

  lemma RunSpanNext(cfg: Config, key: string, run: seq<KeyEvent>, x: KeyEvent)
    requires run != [] && Breach(run[0]) && !Clears(x)
    ensures RunSpan(cfg, key, run + [x], None) == NextSpan(cfg, key, RunSpan(cfg, key, run, None), x)
  {
    assert (run + [x])[..|run|] == run;
    assert LastBreach(run + [x]) == if Breach(x) then |run| else LastBreach(run);
    assert LastAck(run + [x]) == if x.Ack? then Some(|run|) else LastAck(run);
  }

  lemma EndNext(h: seq<KeyEvent>, i: nat, x: KeyEvent)
    requires i < |h|
    ensures EndOf(h + [x], i) == if EndOf(h, i) < |h| || Clears(x) then EndOf(h, i) else |h| + 1
  {
    assert (h + [x])[..|h|] == h;
  }

  lemma SpanKept(cfg: Config, key: string, h: seq<KeyEvent>, i: nat, e: nat, x: KeyEvent)
    requires i < e < |h| && Breach(h[i])
    ensures (h + [x])[i] == h[i] && SpanAt(cfg, key, h + [x], i, e) == SpanAt(cfg, key, h, i, e)
  {
    assert (h + [x])[i..e] == h[i..e];
  }

  lemma SpanCloses(cfg: Config, key: string, h: seq<KeyEvent>, i: nat, x: KeyEvent)
    requires i < |h| && Breach(h[i]) && Clears(x)
    ensures (h + [x])[i] == h[i] && SpanAt(cfg, key, h + [x], i, |h|) == NextSpan(cfg, key, SpanAt(cfg, key, h, i,
        |h|), x)
  {
    assert (h + [x])[i..|h|] == h[i..|h|];
  }

  lemma SpanGrows(cfg: Config, key: string, h: seq<KeyEvent>, i: nat, x: KeyEvent)
    requires i < |h| && Breach(h[i]) && !Clears(x)
    ensures (h + [x])[i] == h[i] && SpanAt(cfg, key, h + [x], i, |h| + 1) == NextSpan(cfg, key, SpanAt(cfg, key, h, i,
        |h|), x)
  {
    var run := h[i..|h|];
    assert (h + [x])[i..|h| + 1] == run + [x];
    RunSpanNext(cfg, key, run, x);
  }

  /** An open run absorbs the event or is closed by it; a closed run is past changing. */
  lemma OfflineNext(cfg: Config, key: string, h: seq<KeyEvent>, i: nat, x: KeyEvent)
    requires i < |h| && Breach(h[i])
    ensures (h + [x])[i] == h[i]
    ensures OfflineSpan(cfg, key, h + [x], i)
         == if EndOf(h, i) < |h| then OfflineSpan(cfg, key, h, i) else NextSpan(cfg, key, OfflineSpan(cfg, key, h, i),
           x)
  {
    EndNext(h, i, x);
    if EndOf(h, i) < |h| {
      SpanKept(cfg, key, h, i, EndOf(h, i), x);
    } else if Clears(x) {
      SpanCloses(cfg, key, h, i, x);
    } else {
      SpanGrows(cfg, key, h, i, x);
    }
  }

  // ----- all runs at once -----

  /** The alerts of a finished history, one per run, in order. */
  function Spans(cfg: Config, key: string, h: seq<KeyEvent>): (spans: seq<Span>)
    ensures |spans| == |Starts(h)|
  {
    seq(|Starts(h)|, m requires 0 <= m < |Starts(h)| => OfflineSpan(cfg, key, h, Starts(h)[m]))
  }

  predicate NoneFiring(spans: seq<Span>) {
    forall m :: 0 <= m < |spans| ==> spans[m].status == Resolved
  }

  function NewSpan(x: KeyEvent): Span
    requires Breach(x)
  {
    Span(x.at, x.at, x.value, Firing, None, None, None, None, None)
  }

  /** One more event changes the firing alert, or opens one if none fires. */
  function Stepped(cfg: Config, key: string, spans: seq<Span>, x: KeyEvent): seq<Span> {
    seq(|spans|, m requires 0 <= m < |spans| => if spans[m].status == Firing then NextSpan(cfg, key, spans[m],
      x) else spans[m])
    + (if Breach(x) && NoneFiring(spans) then [NewSpan(x)] else [])
  }

  lemma StartsNext(h: seq<KeyEvent>, x: KeyEvent)
    ensures Starts(h + [x]) == if Breach(x) && !Breaching(h) then Starts(h) + [|h|] else Starts(h)
  {
    assert (h + [x])[..|h|] == h;
  }

  lemma NewRun(cfg: Config, key: string, h: seq<KeyEvent>, x: KeyEvent)
    requires Breach(x)
    ensures (h + [x])[|h|] == x && OfflineSpan(cfg, key, h + [x], |h|) == NewSpan(x)
  {
    assert (h + [x])[|h|..|h| + 1] == [x];
    assert [x][..0] == [];
  }

  lemma SpanFires(cfg: Config, key: string, h: seq<KeyEvent>, i: nat)
    requires i < |h| && Breach(h[i])
    ensures OfflineSpan(cfg, key, h, i).status == Firing <==> EndOf(h, i) == |h|
  {
  }

  /** The history is breaching exactly when one of its runs is still open. */
  lemma {:induction false} BreachingRun(cfg: Config, key: string, h: seq<KeyEvent>)
    ensures Breaching(h) <==> !NoneFiring(Spans(cfg, key, h))
  {
    if h != [] {
      var n := |h| - 1;
      BreachingRun(cfg, key, h[..n]);
      assert h[..n] + [h[n]] == h;
      SpansNext(cfg, key, h[..n], h[n]);
      var before, x := Spans(cfg, key, h[..n]), h[n];
      if !NoneFiring(before) {
        var m :| 0 <= m < |before| && before[m].status == Firing;
        assert Spans(cfg, key, h)[m] == NextSpan(cfg, key, before[m], x);
      } else if Breach(x) {
        assert Spans(cfg, key, h)[|before|] == NewSpan(x);
      }
    }
  }

  /** The m-th run, one event on. */
  lemma SpanNext(cfg: Config, key: string, h: seq<KeyEvent>, x: KeyEvent, m: nat)
    requires m < |Starts(h)|
    ensures var i := Starts(h)[m];
            && (h + [x])[i] == h[i]
            && OfflineSpan(cfg, key, h + [x], i)
               == if OfflineSpan(cfg, key, h, i).status == Firing then NextSpan(cfg, key, OfflineSpan(cfg, key, h, i),
                 x)
                  else OfflineSpan(cfg, key, h, i)
  {
    OfflineNext(cfg, key, h, Starts(h)[m], x);
    SpanFires(cfg, key, h, Starts(h)[m]);
  }

  lemma SpansNext(cfg: Config, key: string, h: seq<KeyEvent>, x: KeyEvent)
    requires Breaching(h) <==> !NoneFiring(Spans(cfg, key, h))
    ensures Spans(cfg, key, h + [x]) == Stepped(cfg, key, Spans(cfg, key, h), x)
  {
    StartsNext(h, x);
    var spans, spans' := Spans(cfg, key, h), Spans(cfg, key, h + [x]);
    var stepped := Stepped(cfg, key, spans, x);
    assert |spans'| == |stepped|;
    forall m | 0 <= m < |spans| ensures spans'[m] == stepped[m] {
      SpanNext(cfg, key, h, x, m);
    }
    if Breach(x) && !Breaching(h) {
      NewRun(cfg, key, h, x);
      assert spans'[|spans|] == stepped[|spans|];
    }
  }

  // ----- the table follows the history -----

  /** The alerts of one key, in the order they were opened. */
  ghost function AlertIds(cfg: Config, w: World, es: seq<Input>, node: NodeId, key: string): seq<nat>
    requires DbOk(w.db)
  {
    if es == [] then []
    else
      var n := |es| - 1;
      var db := ApplyInputs(cfg, w, es[..n]).db;
      var opens := es[n].Verdict? && es[n].node == node && es[n].r.ruleKey == key && es[n].r.breached
                   && FindOpen(db.alerts, node, key).None?;
      AlertIds(cfg, w, es[..n], node, key) + (if opens then [db.nextAlert] else [])
  }

  predicate HasKey(row: Alert, node: NodeId, key: string) {
    row.nodeId == node && row.ruleKey == key
  }

  /** The alerts of the key are exactly these rows, and they read as these spans. */
  ghost predicate Matches(alerts: Alerts, ids: seq<nat>, spans: seq<Span>, node: NodeId, key: string) {
    && |ids| == |spans|
    && (forall m :: 0 <= m < |ids| ==>
          ids[m] in alerts && HasKey(alerts[ids[m]], node, key) && SpanOf(alerts[ids[m]]) == spans[m])
    && (forall m, n :: 0 <= m < n < |ids| ==> ids[m] < ids[n])
    && (forall id :: id in alerts && HasKey(alerts[id], node, key) ==> id in ids)
  }

  /** The rows of the key are the same in both tables. */
  ghost predicate SameRows(a: Alerts, b: Alerts, node: NodeId, key: string) {
    && (forall id :: id in a && HasKey(a[id], node, key) ==> id in b && b[id] == a[id])
    && (forall id :: id in b && HasKey(b[id], node, key) ==> id in a && b[id] == a[id])
  }

  /** An input about other keys leaves the rows of this key alone. */
  lemma OtherInput(cfg: Config, w: World, e: Input, node: NodeId, key: string)
    requires DbOk(w.db) && KeyPart(w.db.alerts, e, node, key) == []
    ensures SameRows(w.db.alerts, Apply(cfg, w, e).db.alerts, node, key)
  {
    match e
    case Verdict(n, r, at) =>
      var found := FindOpen(w.db.alerts, n, r.ruleKey);
      if found.Some? && r.breached {
        AdvanceSpan(cfg, w, n, found.value, r, at);
      }
    case Acknowledgement(id, who, at) =>
      if Effective(w.db.alerts, e) {
        assert !IsOpen(w.db.alerts, id, node, key);
      }
  }

  /** Advancing, escalating and remediating one alert is one step of its span. */
  lemma AdvanceSpan(cfg: Config, w: World, node: NodeId, id: nat, r: RuleResult, at: Time)
    requires DbOk(w.db) && IsOpen(w.db.alerts, id, node, r.ruleKey) && r.breached
    ensures var alerts, alerts' := w.db.alerts, AdvanceVerdict(cfg, w, node, id, r, at).world.db.alerts;
            && alerts'.Keys == alerts.Keys
            && (forall j :: j in alerts && j != id ==> alerts'[j] == alerts[j])
            && HasKey(alerts'[id], node, r.ruleKey)
            && SpanOf(alerts'[id]) == NextSpan(cfg, r.ruleKey, SpanOf(alerts[id]), V(true, r.value, at))
  {
    AdvanceWritesOneRow(cfg, w, node, id, r, at);
  }

  /** What an input about this key does to the alert of the open run. */
  lemma OpenInput(cfg: Config, w: World, e: Input, node: NodeId, key: string, id: nat, x: KeyEvent)
    requires DbOk(w.db) && KeyPart(w.db.alerts, e, node, key) == [x] && IsOpen(w.db.alerts, id, node, key)
    ensures var alerts, alerts' := w.db.alerts, Apply(cfg, w, e).db.alerts;
            && alerts'.Keys == alerts.Keys
            && (forall j :: j in alerts && j != id ==> alerts'[j] == alerts[j])
            && HasKey(alerts'[id], node, key)
            && SpanOf(alerts'[id]) == NextSpan(cfg, key, SpanOf(alerts[id]), x)
  {
    match e
    case Verdict(n, r, at) =>
      assert FindOpen(w.db.alerts, node, key) == Some(id);
      if r.breached {
        AdvanceSpan(cfg, w, node, id, r, at);
      }
    case Acknowledgement(i, who, at) =>
      assert i == id;
  }

  lemma MatchesOpen(cfg: Config, w: World, e: Input, ids: seq<nat>, spans: seq<Span>, node: NodeId, key: string,
                    id: nat, x: KeyEvent)
    requires DbOk(w.db) && KeyPart(w.db.alerts, e, node, key) == [x] && IsOpen(w.db.alerts, id, node, key)
    requires Matches(w.db.alerts, ids, spans, node, key)
    ensures !NoneFiring(spans)
    ensures Matches(Apply(cfg, w, e).db.alerts, ids, Stepped(cfg, key, spans, x), node, key)
  {
    OpenInput(cfg, w, e, node, key, id, x);
    var k :| 0 <= k < |ids| && ids[k] == id;
    assert spans[k].status == Firing;
    OneSpanSteps(cfg, w.db.alerts, Apply(cfg, w, e).db.alerts, ids, spans, node, key, id, x);
  }

  /** One row of the key takes a step and the others stay; it is the only one that fires. */
  lemma OneSpanSteps(cfg: Config, alerts: Alerts, alerts': Alerts, ids: seq<nat>, spans: seq<Span>,
                     node: NodeId, key: string, id: nat, x: KeyEvent)
    requires Matches(alerts, ids, spans, node, key) && UniqueOpen(alerts) && IsOpen(alerts, id, node, key)
    requires alerts'.Keys == alerts.Keys && forall j :: j in alerts && j != id ==> alerts'[j] == alerts[j]
    requires HasKey(alerts'[id], node, key) && SpanOf(alerts'[id]) == NextSpan(cfg, key, SpanOf(alerts[id]), x)
    requires !NoneFiring(spans)
    ensures Matches(alerts', ids, Stepped(cfg, key, spans, x), node, key)
  {
    forall m | 0 <= m < |ids| ensures SpanOf(alerts'[ids[m]]) == Stepped(cfg, key, spans, x)[m] {
      assert spans[m].status == Firing ==> IsOpen(alerts, ids[m], node, key);
    }
  }

  /** With no run open, only a breach matters: it opens the next one. */
  lemma MatchesIdle(cfg: Config, w: World, e: Input, ids: seq<nat>, spans: seq<Span>, node: NodeId, key: string,
      x: KeyEvent)
    requires DbOk(w.db) && KeyPart(w.db.alerts, e, node, key) == [x]
    requires Matches(w.db.alerts, ids, spans, node, key) && FindOpen(w.db.alerts, node, key).None?
    ensures Matches(Apply(cfg, w, e).db.alerts, if Breach(x) then ids + [w.db.nextAlert] else ids,
                    Stepped(cfg, key, spans, x), node, key)
  {
    forall m | 0 <= m < |ids| ensures spans[m].status == Resolved {
      assert !IsOpen(w.db.alerts, ids[m], node, key);
    }
    assert e.Verdict?;
    if Breach(x) {
      assert SpanOf(NewAlert(w.db.nextAlert, DraftOf(node, e.r, e.at))) == NewSpan(x);
    } else {
      assert Stepped(cfg, key, spans, x) == spans;
    }
  }

  lemma MatchesOther(a: Alerts, b: Alerts, ids: seq<nat>, spans: seq<Span>, node: NodeId, key: string)
    requires Matches(a, ids, spans, node, key) && SameRows(a, b, node, key)
    ensures Matches(b, ids, spans, node, key)
  {
  }

  /** For every node and key, under any interleaving with other keys, the alert
      table is the offline segmentation of the key's history. */
  lemma {:induction false} TableIsSegmentation(cfg: Config, w: World, es: seq<Input>, node: NodeId, key: string)
    requires DbOk(w.db)
    requires forall id :: id in w.db.alerts ==> !HasKey(w.db.alerts[id], node, key)
    ensures Matches(ApplyInputs(cfg, w, es).db.alerts, AlertIds(cfg, w, es, node, key),
                    Spans(cfg, key, History(cfg, w, es, node, key)), node, key)
  {
    if es != [] {
      var n := |es| - 1;
      TableIsSegmentation(cfg, w, es[..n], node, key);
      var before, e := ApplyInputs(cfg, w, es[..n]), es[n];
      var h, ids := History(cfg, w, es[..n], node, key), AlertIds(cfg, w, es[..n], node, key);
      var part, found := KeyPart(before.db.alerts, e, node, key), FindOpen(before.db.alerts, node, key);
      if part == [] {
        OtherInput(cfg, before, e, node, key);
        MatchesOther(before.db.alerts, Apply(cfg, before, e).db.alerts, ids, Spans(cfg, key, h), node, key);
        assert h + part == h && ids + [] == ids;
      } else {
        BreachingRun(cfg, key, h);
        SpansNext(cfg, key, h, part[0]);
        if found.Some? {
          MatchesOpen(cfg, before, e, ids, Spans(cfg, key, h), node, key, found.value, part[0]);
          assert ids + [] == ids;
        } else {
          MatchesIdle(cfg, before, e, ids, Spans(cfg, key, h), node, key, part[0]);
          assert ids + [] == ids;
        }
      }
    }
  }
}
