/** The Agent's store-and-forward cycle: redeliver, collect, deliver, and buffer what could not be delivered. */
module Agent {
  import opened Model
  import opened LineFile
  import opened Buffer

  const BATCH: nat := 50

  datatype Report = Report(nodeId: NodeId, collectedAt: Time, samples: seq<Reading>, errors: seq<string>)

  /** How a send can end; the actions ride on the acknowledgement. */
  datatype Reply = Ack(actions: seq<nat>) | Fatal | Retryable

  datatype State = State(
    buffer: seq<Report>,
    sent: nat,
    acked: seq<Report>,
    dropped: seq<Report>,
    evicted: seq<Report>,
    torn: seq<Report>,
    executed: seq<nat>
  )

  /** The buffer file: its bound, and how reports become lines and back. */
  datatype File = File(cap: int, codec: Codec<Report>)

  // ---- The cycle on values; `net` gives the reply to the n-th send ever made -------------------------

  /** The file after it has been rewritten: a report whose text is no single line is lost. */
  function Written(file: File, s: State, reports: seq<Report>): State {
    s.(buffer := Survivors(file.codec, reports), torn := s.torn + Torn(file.codec, reports))
  }

  function Put(file: File, s: State, report: Report): State {
    var all := s.buffer + [report];
    Written(file, s.(evicted := s.evicted + Evicted(file.cap, all)), Retained(file.cap, all))
  }

  function PutAll(file: File, s: State, reports: seq<Report>): State
    decreases |reports|
  {
    if reports == [] then s else PutAll(file, Put(file, s, reports[0]), reports[1..])
  }

  /** Send the batch in order; the first retryable failure sends the rest of it back to the buffer. */
  function Redeliver(file: File, net: nat -> Reply, s: State, batch: seq<Report>): State
    decreases |batch|
  {
    if batch == [] then s else
    match net(s.sent)
    case Ack(_) => Redeliver(file, net, s.(sent := s.sent + 1, acked := s.acked + [batch[0]]), batch[1..])
    case Fatal => Redeliver(file, net, s.(sent := s.sent + 1, dropped := s.dropped + [batch[0]]), batch[1..])
    case Retryable => PutAll(file, s.(sent := s.sent + 1), batch)
  }

  function Drained(file: File, net: nat -> Reply, s: State): State {
    var n := Smaller(BATCH, |s.buffer|);
    Redeliver(file, net, Written(file, s, s.buffer[n..]), s.buffer[..n])
  }

  function Delivered(file: File, net: nat -> Reply, remediates: bool, s: State, report: Report): State {
    var after := s.(sent := s.sent + 1);
    match net(s.sent)
    case Ack(actions) =>
      after.(acked := s.acked + [report], executed := if remediates then s.executed + actions else s.executed)
    case Fatal => after.(dropped := s.dropped + [report])
    case Retryable => Put(file, after, report)
  }

  function Cycled(file: File, net: nat -> Reply, remediates: bool, s: State, report: Report): State {
    Delivered(file, net, remediates, Drained(file, net, s), report)
  }

  function Cycles(file: File, net: nat -> Reply, remediates: bool, s: State, reports: seq<Report>): State {
    if reports == [] then s else
    var k := |reports| - 1;
    Cycled(file, net, remediates, Cycles(file, net, remediates, s, reports[..k]), reports[k])
  }

  /** What the collectors of one cycle yield: the samples of those that worked, the errors of those that raised. */
  function Samples(results: seq<Result<seq<Reading>, string>>): seq<Reading> {
    if results == [] then [] else
    var last := results[|results| - 1];
    Samples(results[..|results| - 1]) + if last.Ok? then last.value else []
  }

  function Errors(results: seq<Result<seq<Reading>, string>>): seq<string> {
    if results == [] then [] else
    var last := results[|results| - 1];
    Errors(results[..|results| - 1]) + if last.Err? then [last.error] else []
  }

  datatype Input = Input(now: Time, results: seq<Result<seq<Reading>, string>>)

  function Collected(nodeId: NodeId, input: Input): Report {
    Report(nodeId, input.now, Samples(input.results), Errors(input.results))
  }

  function AllCollected(nodeId: NodeId, inputs: seq<Input>): seq<Report> {
    seq(|inputs|, i requires 0 <= i < |inputs| => Collected(nodeId, inputs[i]))
  }

  // ---- The objects --------------------------------------------------------------------------------------

  class Transport {
    const net: nat -> Reply
    var sent: nat
    var acked: seq<Report>
    var dropped: seq<Report>

    constructor (net: nat -> Reply)
      ensures this.net == net && sent == 0 && acked == dropped == []
    {
      this.net := net;
      sent := 0;
      acked, dropped := [], [];
    }

    method Send(report: Report) returns (reply: Reply)
      modifies this
      ensures reply == net(old(sent)) && sent == old(sent) + 1
      ensures acked == if reply.Ack? then old(acked) + [report] else old(acked)
      ensures dropped == if reply.Fatal? then old(dropped) + [report] else old(dropped)
    {
      reply := net(sent);
      sent := sent + 1;
      match reply {
        case Ack(_) => acked := acked + [report];
        case Fatal => dropped := dropped + [report];
        case Retryable =>
      }
    }
  }

  class AgentScheduler {
    const nodeId: NodeId
    const transport: Transport
    const buffer: FileBuffer<Report>
    const remediates: bool
    var executed: seq<nat>

    constructor (nodeId: NodeId, transport: Transport, buffer: FileBuffer<Report>, remediates: bool)
      ensures this.nodeId == nodeId && this.transport == transport && this.buffer == buffer
      ensures this.remediates == remediates && executed == []
    {
      this.nodeId := nodeId;
      this.transport := transport;
      this.buffer := buffer;
      this.remediates := remediates;
      executed := [];
    }

    ghost function View(): State
      reads this, transport, buffer
    {
      State(buffer.Entries(), transport.sent, transport.acked, transport.dropped, buffer.evicted, buffer.torn, executed)
    }

    function BufferFile(): File {
      File(buffer.maxEntries, buffer.codec)
    }

    method Requeue(reports: seq<Report>)
      requires buffer.Healthy()
      modifies buffer
      ensures buffer.Healthy() && View() == PutAll(BufferFile(), old(View()), reports)
    {
      var i := 0;
      while i < |reports|
        invariant 0 <= i <= |reports| && buffer.Healthy()
        invariant PutAll(BufferFile(), View(), reports[i..]) == PutAll(BufferFile(), old(View()), reports)
      {
        ghost var before := View();
        buffer.Enqueue(reports[i]);
        assert View() == Put(BufferFile(), before, reports[i]);
        assert reports[i..][1..] == reports[i + 1..];
        i := i + 1;
      }
    }

    /** What one send does to the view, short of a retry. */
    method Send(report: Report) returns (reply: Reply)
      modifies transport
      ensures reply == transport.net(old(transport.sent))
      ensures View() == match reply
        case Ack(_) => old(View()).(sent := old(View()).sent + 1, acked := old(View()).acked + [report])
        case Fatal => old(View()).(sent := old(View()).sent + 1, dropped := old(View()).dropped + [report])
        case Retryable => old(View()).(sent := old(View()).sent + 1)
    {
      reply := transport.Send(report);
    }

    method RedeliverAll(batch: seq<Report>)
      requires buffer.Healthy()
      modifies transport, buffer
      ensures buffer.Healthy() && View() == Redeliver(BufferFile(), transport.net, old(View()), batch)
    {
      ghost var result := Redeliver(BufferFile(), transport.net, View(), batch);
      var i := 0;
      while i < |batch|
        invariant 0 <= i <= |batch| && buffer.Healthy()
        invariant Redeliver(BufferFile(), transport.net, View(), batch[i..]) == result
      {
        assert batch[i..][0] == batch[i] && batch[i..][1..] == batch[i + 1..];
        var reply := Send(batch[i]);
        if reply.Retryable? {
          Requeue(batch[i..]);
          return;
        }
        i := i + 1;
      }
    }

    method DrainBuffer()
      requires buffer.Healthy()
      modifies transport, buffer
      ensures buffer.Healthy() && View() == Drained(BufferFile(), transport.net, old(View()))
    {
      var drained := buffer.Drain(BATCH);
      RedeliverAll(drained);
    }

    /** One collector's failure costs its own samples only. */
    method Collect(input: Input) returns (report: Report)
      ensures report == Collected(nodeId, input)
      ensures report.nodeId == nodeId && report.collectedAt == input.now
    {
      var results := input.results;
      var samples, errors := [], [];
      var i := 0;
      while i < |results|
        invariant 0 <= i <= |results|
        invariant samples == Samples(results[..i]) && errors == Errors(results[..i])
      {
        assert results[..i + 1][..i] == results[..i];
        match results[i] {
          case Ok(readings) => samples := samples + readings;
          case Err(error) => errors := errors + [error];
        }
        i := i + 1;
      }
      assert results[..i] == results;
      report := Report(nodeId, input.now, samples, errors);
    }

    method Deliver(report: Report)
      requires buffer.Healthy()
      modifies this, transport, buffer
      ensures buffer.Healthy()
      ensures View() == Delivered(BufferFile(), transport.net, remediates, old(View()), report)
    {
      var reply := transport.Send(report);
      match reply {
        case Ack(actions) => ExecutePendingActions(actions);
        case Fatal =>
        case Retryable => buffer.Enqueue(report);
      }
    }

    method ExecutePendingActions(actions: seq<nat>)
      modifies this
      ensures executed == if remediates then old(executed) + actions else old(executed)
    {
      if !remediates {
        return;
      }
      var i := 0;
      while i < |actions|
        invariant 0 <= i <= |actions|
        invariant executed == old(executed) + actions[..i]
      {
        assert actions[..i + 1] == actions[..i] + [actions[i]];
        executed := executed + [actions[i]];
        i := i + 1;
      }
      assert actions[..i] == actions;
    }

    method RunOnce(input: Input)
      requires buffer.Healthy()
      modifies this, transport, buffer
      ensures buffer.Healthy()
      ensures View() ==
        Cycled(BufferFile(), transport.net, remediates, old(View()), Collected(nodeId, input))
    {
      DrainBuffer();
      var report := Collect(input);
      Deliver(report);
    }

    /** One more cycle of a run. */
    method RunNext(inputs: seq<Input>, k: nat, ghost start: State)
      requires k < |inputs| && buffer.Healthy()
      requires View() == Cycles(BufferFile(), transport.net, remediates, start, AllCollected(nodeId, inputs)[..k])
      modifies this, transport, buffer
      ensures buffer.Healthy()
      ensures View() == Cycles(BufferFile(), transport.net, remediates, start, AllCollected(nodeId, inputs)[..k + 1])
    {
      NextCycle(BufferFile(), transport.net, remediates, start, nodeId, inputs, k);
      RunOnce(inputs[k]);
    }

    /** The forever loop, for as many cycles as it is let run. */
    method Run(inputs: seq<Input>)
      requires buffer.Healthy()
      modifies this, transport, buffer
      ensures buffer.Healthy()
      ensures View() ==
        Cycles(BufferFile(), transport.net, remediates, old(View()), AllCollected(nodeId, inputs))
    {
      ghost var start, reports := View(), AllCollected(nodeId, inputs);
      var k := 0;
      while k < |inputs|
        invariant 0 <= k <= |inputs| && buffer.Healthy()
        invariant View() == Cycles(BufferFile(), transport.net, remediates, start, reports[..k])
      {
        RunNext(inputs, k, start);
        k := k + 1;
      }
      assert reports[..k] == reports;
    }
  }

  lemma NextCycle(file: File, net: nat -> Reply, remediates: bool, s: State, nodeId: NodeId, inputs: seq<Input>,
      k: nat)
    requires k < |inputs|
    ensures var reports := AllCollected(nodeId, inputs);
      Cycles(file, net, remediates, s, reports[..k + 1]) ==
        Cycled(file, net, remediates, Cycles(file, net, remediates, s, reports[..k]), Collected(nodeId, inputs[k]))
  {
    var reports := AllCollected(nodeId, inputs);
    assert reports[..k + 1][..k] == reports[..k] && reports[..k + 1][k] == reports[k];
  }

  // ---- Conservation ---------------------------------------------------------------------------------------

  /** Every report the Agent has ever taken in, wherever it ended up. */
  ghost function Accounted(s: State): multiset<Report> {
    Elsewhere(s) + multiset(s.buffer) + multiset(s.evicted) + multiset(s.torn)
  }

  ghost function Elsewhere(s: State): multiset<Report> {
    multiset(s.acked) + multiset(s.dropped)
  }

  lemma WrittenConserves(file: File, s: State, reports: seq<Report>)
    ensures Accounted(Written(file, s, reports)) == Accounted(s.(buffer := reports))
  {
    var kept, lost := Survivors(file.codec, reports), Torn(file.codec, reports);
    SurvivorsAndTorn(file.codec, reports);
    assert multiset(s.torn + lost) == multiset(s.torn) + multiset(lost);
    Regroup(Elsewhere(s) + multiset(s.evicted) + multiset(s.torn),
            multiset(kept), multiset(lost), multiset(reports));
  }

  lemma Regroup(rest: multiset<Report>, kept: multiset<Report>, lost: multiset<Report>, all: multiset<Report>)
    requires kept + lost == all
    ensures rest + kept + lost == rest + all
  {
    assert rest + kept + lost == rest + (kept + lost);
  }

  lemma EvictionConserves(file: File, s: State, all: seq<Report>)
    ensures Accounted(s.(buffer := Retained(file.cap, all), evicted := s.evicted + Evicted(file.cap, all)))
         == Accounted(s.(buffer := all))
  {
    var out, kept := Evicted(file.cap, all), Retained(file.cap, all);
    assert all == out + kept;
    assert multiset(all) == multiset(out) + multiset(kept);
    assert multiset(s.evicted + out) == multiset(s.evicted) + multiset(out);
    Regroup(Elsewhere(s) + multiset(s.evicted) + multiset(s.torn), multiset(kept), multiset(out), multiset(all));
  }

  lemma PutConserves(file: File, s: State, report: Report)
    ensures Accounted(Put(file, s, report)) == Accounted(s) + multiset{report}
  {
    var all := s.buffer + [report];
    WrittenConserves(file, s.(evicted := s.evicted + Evicted(file.cap, all)), Retained(file.cap, all));
    EvictionConserves(file, s, all);
    assert multiset(all) == multiset(s.buffer) + multiset{report};
  }

  lemma {:induction false} PutAllConserves(file: File, s: State, reports: seq<Report>)
    ensures Accounted(PutAll(file, s, reports)) == Accounted(s) + multiset(reports)
    decreases |reports|
  {
    if reports != [] {
      PutConserves(file, s, reports[0]);
      PutAllConserves(file, Put(file, s, reports[0]), reports[1..]);
      assert reports == [reports[0]] + reports[1..];
    }
  }

  /** A send that is over: the report is acknowledged or dropped. */
  function Tried(net: nat -> Reply, s: State, report: Report): State {
    if net(s.sent).Ack? then s.(sent := s.sent + 1, acked := s.acked + [report])
    else s.(sent := s.sent + 1, dropped := s.dropped + [report])
  }

  lemma TriedConserves(net: nat -> Reply, s: State, report: Report)
    ensures Accounted(Tried(net, s, report)) == Accounted(s) + multiset{report}
  {
    assert multiset(s.acked + [report]) == multiset(s.acked) + multiset{report};
    assert multiset(s.dropped + [report]) == multiset(s.dropped) + multiset{report};
  }

  lemma HeadTried(file: File, net: nat -> Reply, s: State, batch: seq<Report>)
    requires batch != []
    ensures Redeliver(file, net, s, batch) ==
      if net(s.sent).Retryable? then PutAll(file, s.(sent := s.sent + 1), batch)
      else Redeliver(file, net, Tried(net, s, batch[0]), batch[1..])
  {
  }

  lemma Chain(total: multiset<Report>, next: multiset<Report>, before: multiset<Report>, batch: seq<Report>)
    requires batch != [] && total == next + multiset(batch[1..]) && next == before + multiset{batch[0]}
    ensures total == before + multiset(batch)
  {
    assert batch == [batch[0]] + batch[1..];
  }

  lemma {:induction false} RedeliverConserves(file: File, net: nat -> Reply, s: State, batch: seq<Report>)
    ensures Accounted(Redeliver(file, net, s, batch)) == Accounted(s) + multiset(batch)
    decreases |batch|
  {
    if batch != [] {
      HeadTried(file, net, s, batch);
      if net(s.sent).Retryable? {
        PutAllConserves(file, s.(sent := s.sent + 1), batch);
      } else {
        var next := Tried(net, s, batch[0]);
        TriedConserves(net, s, batch[0]);
        RedeliverConserves(file, net, next, batch[1..]);
        Chain(Accounted(Redeliver(file, net, next, batch[1..])), Accounted(next), Accounted(s), batch);
      }
    }
  }

  lemma DrainConserves(file: File, net: nat -> Reply, s: State)
    ensures Accounted(Drained(file, net, s)) == Accounted(s)
  {
    var n := Smaller(BATCH, |s.buffer|);
    WrittenConserves(file, s, s.buffer[n..]);
    RedeliverConserves(file, net, Written(file, s, s.buffer[n..]), s.buffer[..n]);
    assert s.buffer == s.buffer[..n] + s.buffer[n..];
    assert multiset(s.buffer) == multiset(s.buffer[..n]) + multiset(s.buffer[n..]);
  }

  lemma DeliverConserves(file: File, net: nat -> Reply, remediates: bool, s: State, report: Report)
    ensures Accounted(Delivered(file, net, remediates, s, report)) == Accounted(s) + multiset{report}
  {
    match net(s.sent)
    case Ack(actions) => assert multiset(s.acked + [report]) == multiset(s.acked) + multiset{report};
    case Fatal => assert multiset(s.dropped + [report]) == multiset(s.dropped) + multiset{report};
    case Retryable =>
      var after := s.(sent := s.sent + 1);
      assert Accounted(after) == Accounted(s);
      PutConserves(file, after, report);
  }

  lemma CycleConserves(file: File, net: nat -> Reply, remediates: bool, s: State, report: Report)
    ensures Accounted(Cycled(file, net, remediates, s, report)) == Accounted(s) + multiset{report}
  {
    DrainConserves(file, net, s);
    DeliverConserves(file, net, remediates, Drained(file, net, s), report);
  }

  lemma OneMore(first: multiset<Report>, before: multiset<Report>, reports: seq<Report>, k: nat)
    requires |reports| == k + 1 && before == first + multiset(reports[..k])
    ensures before + multiset{reports[k]} == first + multiset(reports)
  {
    assert reports == reports[..k] + [reports[k]];
  }

  /** Store-and-forward conserves: whatever the bound and the replies, and whatever the texts contain, what was
      collected is acknowledged, dropped as fatal, evicted, torn by the file or still buffered, each report exactly as
      many times as it was collected. */
  lemma {:induction false} NothingIsLost(file: File, net: nat -> Reply, remediates: bool, s: State,
      reports: seq<Report>)
    ensures Accounted(Cycles(file, net, remediates, s, reports)) == Accounted(s) + multiset(reports)
  {
    if reports != [] {
      var k := |reports| - 1;
      NothingIsLost(file, net, remediates, s, reports[..k]);
      var before := Cycles(file, net, remediates, s, reports[..k]);
      CycleConserves(file, net, remediates, before, reports[k]);
      OneMore(Accounted(s), Accounted(before), reports, k);
    }
  }

  // ---- What the file tears --------------------------------------------------------------------------------

  /** Only broken texts have been torn, and the buffer holds none. */
  predicate Sorted(file: File, s: State) {
    AllSurvive(file.codec, s.buffer) && AllBroken(file.codec, s.torn)
  }

  lemma WrittenSorts(file: File, s: State, reports: seq<Report>)
    requires AllBroken(file.codec, s.torn)
    ensures Sorted(file, Written(file, s, reports))
  {
    SurvivorsSurvive(file.codec, reports);
  }

  lemma {:induction false} PutAllSorts(file: File, s: State, reports: seq<Report>)
    requires Sorted(file, s)
    ensures Sorted(file, PutAll(file, s, reports))
    decreases |reports|
  {
    if reports != [] {
      var all := s.buffer + [reports[0]];
      WrittenSorts(file, s.(evicted := s.evicted + Evicted(file.cap, all)), Retained(file.cap, all));
      PutAllSorts(file, Put(file, s, reports[0]), reports[1..]);
    }
  }

  lemma {:induction false} RedeliverSorts(file: File, net: nat -> Reply, s: State, batch: seq<Report>)
    requires Sorted(file, s)
    ensures Sorted(file, Redeliver(file, net, s, batch))
    decreases |batch|
  {
    if batch != [] {
      match net(s.sent)
      case Ack(_) => RedeliverSorts(file, net, s.(sent := s.sent + 1, acked := s.acked + [batch[0]]), batch[1..]);
      case Fatal => RedeliverSorts(file, net, s.(sent := s.sent + 1, dropped := s.dropped + [batch[0]]), batch[1..]);
      case Retryable => PutAllSorts(file, s.(sent := s.sent + 1), batch);
    }
  }

  /** Over any cycles nothing is torn but reports whose text is broken or blank, and what is buffered after a cycle is
      never one of those: whatever the file held before, every other report keeps its place in the accounts. */
  lemma {:induction false} OnlyBrokenReportsAreTorn(file: File, net: nat -> Reply, remediates: bool, s: State,
      reports: seq<Report>)
    requires AllBroken(file.codec, s.torn)
    ensures var r := Cycles(file, net, remediates, s, reports);
            AllBroken(file.codec, r.torn) && (reports != [] ==> AllSurvive(file.codec, r.buffer))
    ensures Sorted(file, s) ==> Sorted(file, Cycles(file, net, remediates, s, reports))
  {
    if reports != [] {
      var k := |reports| - 1;
      var before := Cycles(file, net, remediates, s, reports[..k]);
      OnlyBrokenReportsAreTorn(file, net, remediates, s, reports[..k]);
      CycleSorts(file, net, remediates, before, reports[k]);
    }
  }

  lemma CycleSorts(file: File, net: nat -> Reply, remediates: bool, s: State, report: Report)
    requires AllBroken(file.codec, s.torn)
    ensures Sorted(file, Cycled(file, net, remediates, s, report))
  {
    var n := Smaller(BATCH, |s.buffer|);
    WrittenSorts(file, s, s.buffer[n..]);
    RedeliverSorts(file, net, Written(file, s, s.buffer[n..]), s.buffer[..n]);
    var d := Drained(file, net, s);
    var all := d.buffer + [report];
    WrittenSorts(file, d.(sent := d.sent + 1, evicted := d.evicted + Evicted(file.cap, all)), Retained(file.cap, all));
  }

  // ---- What an Ack brings ------------------------------------------------------------------------------------

  /** The replies to the fresh sends, one for each cycle: each is the last send of its cycle. */
  function FreshReplies(file: File, net: nat -> Reply, remediates: bool, s: State, reports: seq<Report>): seq<Reply> {
    if reports == [] then [] else
    var k := |reports| - 1;
    var sent := Cycles(file, net, remediates, s, reports).sent;
    FreshReplies(file, net, remediates, s, reports[..k]) + (if 0 < sent then [net(sent - 1)] else [])
  }

  /** The actions that come with the Acks among them, in order. */
  function ActionsOf(replies: seq<Reply>): seq<nat> {
    if replies == [] then [] else
    var last := replies[|replies| - 1];
    ActionsOf(replies[..|replies| - 1]) + (if last.Ack? then last.actions else [])
  }

  lemma {:induction false} PutAllRuns(file: File, s: State, reports: seq<Report>)
    ensures var r := PutAll(file, s, reports);
      r.executed == s.executed && r.sent == s.sent && r.acked == s.acked && r.dropped == s.dropped
    decreases |reports|
  {
    if reports != [] {
      PutAllRuns(file, Put(file, s, reports[0]), reports[1..]);
    }
  }

  /** Redelivery runs nothing, whatever comes back. */
  lemma {:induction false} RedeliverRuns(file: File, net: nat -> Reply, s: State, batch: seq<Report>)
    ensures Redeliver(file, net, s, batch).executed == s.executed
    ensures s.sent <= Redeliver(file, net, s, batch).sent <= s.sent + |batch|
    decreases |batch|
  {
    if batch != [] {
      HeadTried(file, net, s, batch);
      if net(s.sent).Retryable? {
        PutAllRuns(file, s.(sent := s.sent + 1), batch);
      } else {
        RedeliverRuns(file, net, Tried(net, s, batch[0]), batch[1..]);
      }
    }
  }

  /** A cycle ends with the fresh send: its reply decides where the report goes and what is run. */
  lemma CycleEnds(file: File, net: nat -> Reply, remediates: bool, s: State, report: Report)
    ensures var d, r := Drained(file, net, s), Cycled(file, net, remediates, s, report);
      && s.sent <= d.sent && r.sent == d.sent + 1
      && r.executed == s.executed + (if remediates && net(d.sent).Ack? then net(d.sent).actions else [])
      && r.acked == d.acked + (if net(d.sent).Ack? then [report] else [])
      && r.dropped == d.dropped + (if net(d.sent).Fatal? then [report] else [])
      && (!net(d.sent).Retryable? ==> r.buffer == d.buffer && r.evicted == d.evicted && r.torn == d.torn)
  {
    var n := Smaller(BATCH, |s.buffer|);
    var d := Drained(file, net, s);
    RedeliverRuns(file, net, Written(file, s, s.buffer[n..]), s.buffer[..n]);
    assert d.executed + [] == d.executed && d.acked + [] == d.acked && d.dropped + [] == d.dropped;
  }

  /** Over any cycles and replies an Agent that remediates runs exactly what the Acks to its fresh sends bring, in
      order, each action as often as it comes; Acks to redelivered reports bring nothing, and an Agent that does not
      remediate runs nothing. */
  lemma {:induction false} RunsWhatAcksBring(file: File, net: nat -> Reply, remediates: bool, s: State,
      reports: seq<Report>)
    ensures |FreshReplies(file, net, remediates, s, reports)| == |reports|
    ensures Cycles(file, net, remediates, s, reports).executed
         == s.executed + (if remediates then ActionsOf(FreshReplies(file, net, remediates, s, reports)) else [])
  {
    if reports == [] {
      assert s.executed + [] == s.executed;
    } else {
      var k := |reports| - 1;
      var before := Cycles(file, net, remediates, s, reports[..k]);
      RunsWhatAcksBring(file, net, remediates, s, reports[..k]);
      CycleEnds(file, net, remediates, before, reports[k]);
      OneMoreReply(FreshReplies(file, net, remediates, s, reports[..k]), net(Drained(file, net, before).sent),
        s.executed, remediates);
    }
  }

  lemma OneMoreReply(replies: seq<Reply>, reply: Reply, run: seq<nat>, remediates: bool)
    ensures run + (if remediates then ActionsOf(replies) else [])
                + (if remediates && reply.Ack? then reply.actions else [])
         == run + (if remediates then ActionsOf(replies + [reply]) else [])
  {
    assert (replies + [reply])[..|replies|] == replies;
  }

  // ---- What one drain leaves ----------------------------------------------------------------------------------

  /** How many of n sends, the first of them the from-th ever, go through before one must be retried. */
  function Through(net: nat -> Reply, from: nat, n: nat): (i: nat)
    ensures i <= n
    decreases n
  {
    if n == 0 || net(from).Retryable? then 0 else 1 + Through(net, from + 1, n - 1)
  }

  function AckedOf(net: nat -> Reply, from: nat, batch: seq<Report>): seq<Report>
    decreases |batch|
  {
    if batch == [] then [] else
    (if net(from).Ack? then [batch[0]] else []) + AckedOf(net, from + 1, batch[1..])
  }

  function DroppedOf(net: nat -> Reply, from: nat, batch: seq<Report>): seq<Report>
    decreases |batch|
  {
    if batch == [] then [] else
    (if net(from).Fatal? then [batch[0]] else []) + DroppedOf(net, from + 1, batch[1..])
  }

  lemma WrittenWhole(file: File, s: State, reports: seq<Report>)
    requires AllSurvive(file.codec, reports)
    ensures Written(file, s, reports) == s.(buffer := reports)
  {
    NothingTorn(file.codec, reports);
    assert s.torn + [] == s.torn;
  }

  lemma {:induction false} PutAllFits(file: File, s: State, reports: seq<Report>)
    requires |s.buffer| + |reports| <= file.cap
    requires AllSurvive(file.codec, s.buffer) && AllSurvive(file.codec, reports)
    ensures PutAll(file, s, reports) == s.(buffer := s.buffer + reports)
    decreases |reports|
  {
    if reports == [] {
      assert s.buffer + reports == s.buffer;
    } else {
      var put := Put(file, s, reports[0]);
      WrittenWhole(file, s, s.buffer + [reports[0]]);
      assert s.evicted + [] == s.evicted;
      PutAllFits(file, put, reports[1..]);
      assert s.buffer + [reports[0]] + reports[1..] == s.buffer + reports;
    }
  }

  /** A redelivered batch of which i reports went through. */
  function Settled(net: nat -> Reply, s: State, batch: seq<Report>, i: nat): State
    requires i <= |batch|
  {
    s.(buffer := s.buffer + batch[i..],
       sent := s.sent + i + (if i < |batch| then 1 else 0),
       acked := s.acked + AckedOf(net, s.sent, batch[..i]),
       dropped := s.dropped + DroppedOf(net, s.sent, batch[..i]))
  }

  lemma {:induction false} RedeliverSettles(file: File, net: nat -> Reply, s: State, batch: seq<Report>)
    requires |s.buffer| + |batch| <= file.cap && AllSurvive(file.codec, s.buffer) && AllSurvive(file.codec, batch)
    ensures Redeliver(file, net, s, batch) == Settled(net, s, batch, Through(net, s.sent, |batch|))
    decreases |batch|
  {
    if batch == [] {
      assert s.buffer + [] == s.buffer && s.acked + [] == s.acked && s.dropped + [] == s.dropped;
    } else if net(s.sent).Retryable? {
      PutAllFits(file, s.(sent := s.sent + 1), batch);
      assert batch[0..] == batch && s.acked + [] == s.acked && s.dropped + [] == s.dropped;
    } else {
      var i := Through(net, s.sent, |batch|);
      var next := if net(s.sent).Ack? then s.(sent := s.sent + 1, acked := s.acked + [batch[0]])
                  else s.(sent := s.sent + 1, dropped := s.dropped + [batch[0]]);
      RedeliverSettles(file, net, next, batch[1..]);
      assert batch[..i][1..] == batch[1..][..i - 1];
      assert batch[1..][i - 1..] == batch[i..];
      assert batch[..i][0] == batch[0];
      Prepend(s.acked, if net(s.sent).Ack? then [batch[0]] else [], AckedOf(net, s.sent + 1, batch[1..][..i - 1]));
      Prepend(s.dropped, if net(s.sent).Fatal? then [batch[0]] else [], DroppedOf(net, s.sent + 1,
        batch[1..][..i - 1]));
    }
  }

  lemma Prepend(a: seq<Report>, b: seq<Report>, c: seq<Report>)
    ensures a + (b + c) == (a + b) + c && a + [] == a
  {
  }

  /** From a buffer within its bound that holds no broken text, as every cycle leaves it, requeueing evicts and tears
      nothing, and what a drain leaves is exact: the entries beyond the batch, then the part of the batch that did not
      go through.  With at most 50 entries that is a suffix. */
  lemma AfterDrain(file: File, net: nat -> Reply, s: State)
    requires |s.buffer| <= file.cap && AllSurvive(file.codec, s.buffer)
    ensures var b, n := s.buffer, Smaller(BATCH, |s.buffer|);
      var i := Through(net, s.sent, n);
      && Drained(file, net, s) == Settled(net, s.(buffer := b[n..]), b[..n], i)
      && Drained(file, net, s).buffer == b[n..] + b[i..n]
      && Drained(file, net, s).evicted == s.evicted
      && (|b| <= BATCH ==> Drained(file, net, s).buffer == b[i..])
  {
    var b, n := s.buffer, Smaller(BATCH, |s.buffer|);
    var i := Through(net, s.sent, n);
    WrittenWhole(file, s, b[n..]);
    RedeliverSettles(file, net, s.(buffer := b[n..]), b[..n]);
    assert b[..n][i..] == b[i..n];
    if |b| <= BATCH {
      assert b[n..] + b[i..n] == b[i..];
    }
  }

  lemma PutRetains(file: File, b: seq<Report>, report: Report)
    requires |b| <= file.cap && AllSurvive(file.codec, b)
    ensures var all := b + [report];
      var kept, full := Retained(file.cap, all), |b| == file.cap;
      && Evicted(file.cap, all) == (if full then [all[0]] else [])
      && Torn(file.codec, kept) == (if 0 < file.cap && !Survives(file.codec, report) then [report] else [])
      && |Survivors(file.codec, kept)| + |Torn(file.codec, kept)| == |b| + 1 - (if full then 1 else 0)
  {
    OneMoreWritten(file.codec, b, report);
    if b == [] {
      assert [report][1..] == [] && [report][..1] == [report];
    } else {
      OneMoreWritten(file.codec, b[1..], report);
      assert (b + [report])[1..] == b[1..] + [report] && (b + [report])[..1] == [b[0]];
    }
  }

  /** Putting one report into a buffer within its bound evicts the head of a full one, and tears the report itself if
      its text is broken. */
  lemma PutWhole(file: File, s: State, report: Report)
    requires |s.buffer| <= file.cap && AllSurvive(file.codec, s.buffer)
    ensures var r, all := Put(file, s, report), s.buffer + [report];
      && |r.buffer| <= file.cap && AllSurvive(file.codec, r.buffer)
      && |r.buffer| + |r.evicted| + |r.torn| == |s.buffer| + |s.evicted| + |s.torn| + 1
      && r.evicted == s.evicted + (if |s.buffer| == file.cap then [all[0]] else [])
      && r.torn == s.torn + (if 0 < file.cap && !Survives(file.codec, report) then [report] else [])
  {
    PutRetains(file, s.buffer, report);
    SurvivorsSurvive(file.codec, Retained(file.cap, s.buffer + [report]));
  }

  /** A cycle evicts at most one report, and does so exactly when the fresh send must be retried and nothing left the
      buffer that was full: then it is the report at the head of what the drain left.  It tears at most the fresh one,
      exactly when that must be retried, is not evicted at once and has a broken text. */
  lemma CycleEvictsAtMostOne(file: File, net: nat -> Reply, remediates: bool, s: State, report: Report)
    requires |s.buffer| <= file.cap && AllSurvive(file.codec, s.buffer)
    ensures var d, r := Drained(file, net, s), Cycled(file, net, remediates, s, report);
      var evicts := net(d.sent).Retryable? && |d.buffer| == file.cap;
      var tears := net(d.sent).Retryable? && 0 < file.cap && !Survives(file.codec, report);
      && |r.buffer| <= file.cap && AllSurvive(file.codec, r.buffer)
      && r.evicted == s.evicted + (if evicts then [(d.buffer + [report])[0]] else [])
      && r.torn == s.torn + (if tears then [report] else [])
      && (evicts ==> |s.buffer| == file.cap && (file.cap > 0 ==> net(s.sent).Retryable?))
  {
    AfterDrain(file, net, s);
    var d := Drained(file, net, s);
    assert s.evicted + [] == s.evicted && s.torn + [] == s.torn;
    if net(d.sent).Retryable? {
      PutWhole(file, d.(sent := d.sent + 1), report);
    }
  }

  // ---- Outage and recovery -----------------------------------------------------------------------------------

  /** Every send from one moment up to another must be retried. */
  predicate Down(net: nat -> Reply, from: nat, to: nat) {
    forall k :: from <= k < to ==> net(k).Retryable?
  }

  lemma CycleWhileDown(file: File, net: nat -> Reply, remediates: bool, s: State, report: Report)
    requires |s.buffer| <= file.cap && AllSurvive(file.codec, s.buffer)
    requires Down(net, s.sent, Cycled(file, net, remediates, s, report).sent)
    ensures var b, n := s.buffer, Smaller(BATCH, |s.buffer|);
      Cycled(file, net, remediates, s, report)
      == Put(file, s.(buffer := b[n..] + b[..n], sent := s.sent + (if b == [] then 1 else 2)), report)
  {
    var b, n := s.buffer, Smaller(BATCH, |s.buffer|);
    AfterDrain(file, net, s);
    var d := Drained(file, net, s);
    SentGrows(file, net, remediates, s, report);
    assert Down(net, s.sent, d.sent + 1);
    if b != [] {
      assert net(s.sent).Retryable?;
      assert Through(net, s.sent, n) == 0;
    } else {
      assert b[n..] + b[..n] == b;
    }
    assert b[..n][0..] == b[..n] && b[0..n] == b[..n];
    assert s.acked + [] == s.acked && s.dropped + [] == s.dropped;
    assert net(d.sent).Retryable?;
  }

  lemma SentGrows(file: File, net: nat -> Reply, remediates: bool, s: State, report: Report)
    requires |s.buffer| <= file.cap && AllSurvive(file.codec, s.buffer)
    ensures s.sent <= Drained(file, net, s).sent && Cycled(file, net, remediates, s, report).sent == Drained(file, net,
        s).sent + 1
  {
    AfterDrain(file, net, s);
  }

  /** An outage of k cycles, from n buffered reports: min(cap, n + k) reports are buffered and max(0, n + k - cap) have
      been evicted, if no text is broken; those with broken texts are torn, all of them and no other, and what is
      buffered, evicted and torn adds up; none has been acknowledged or dropped; and each cycle made at most two
      sends. */
  lemma {:induction false} Outage(file: File, net: nat -> Reply, remediates: bool, s: State, reports: seq<Report>)
    requires |s.buffer| <= file.cap && AllSurvive(file.codec, s.buffer)
    requires Down(net, s.sent, Cycles(file, net, remediates, s, reports).sent)
    ensures var r, total := Cycles(file, net, remediates, s, reports), |s.buffer| + |reports|;
      && |r.buffer| <= file.cap && AllSurvive(file.codec, r.buffer)
      && |r.buffer| + |r.evicted| + |r.torn| == |s.buffer| + |s.evicted| + |s.torn| + |reports|
      && r.torn == s.torn + (if 0 < file.cap then Torn(file.codec, reports) else [])
      && (AllSurvive(file.codec, reports) ==>
            && |r.buffer| == (if total <= file.cap then total else file.cap)
            && |r.evicted| == |s.evicted| + (if total <= file.cap then 0 else total - file.cap))
      && r.acked == s.acked && r.dropped == s.dropped && r.executed == s.executed
      && s.sent <= r.sent <= s.sent + 2 * |reports|
  {
    if reports != [] {
      var k := |reports| - 1;
      var p := Cycles(file, net, remediates, s, reports[..k]);
      CyclesStayBounded(file, net, remediates, s, reports[..k]);
      SentGrows(file, net, remediates, p, reports[k]);
      Outage(file, net, remediates, s, reports[..k]);
      OutageCycle(file, net, remediates, p, reports[k]);
      OneMoreTorn(file, reports, k);
      Prepend(s.torn, Torn(file.codec, reports[..k]), Torn(file.codec, [reports[k]]));
    } else {
      assert s.torn + [] == s.torn;
    }
  }

  lemma OneMoreTorn(file: File, reports: seq<Report>, k: nat)
    requires |reports| == k + 1
    ensures Torn(file.codec, reports) == Torn(file.codec, reports[..k]) + Torn(file.codec, [reports[k]])
  {
    var before, last := reports[..k], [reports[k]];
    assert reports == before + last;
    TornConcat(file.codec, before, last);
  }

  /** One cycle of an outage. */
  lemma OutageCycle(file: File, net: nat -> Reply, remediates: bool, p: State, report: Report)
    requires |p.buffer| <= file.cap && AllSurvive(file.codec, p.buffer)
    requires Down(net, p.sent, Cycled(file, net, remediates, p, report).sent)
    ensures var r := Cycled(file, net, remediates, p, report);
      && |r.buffer| <= file.cap && AllSurvive(file.codec, r.buffer)
      && |r.buffer| + |r.evicted| + |r.torn| == |p.buffer| + |p.evicted| + |p.torn| + 1
      && |r.evicted| == |p.evicted| + (if |p.buffer| == file.cap then 1 else 0)
      && r.torn == p.torn + (if 0 < file.cap then Torn(file.codec, [report]) else [])
      && r.acked == p.acked && r.dropped == p.dropped && r.executed == p.executed
      && p.sent <= r.sent <= p.sent + 2
  {
    var b, n := p.buffer, Smaller(BATCH, |p.buffer|);
    CycleWhileDown(file, net, remediates, p, report);
    PutWhole(file, p.(buffer := b[n..] + b[..n], sent := p.sent + (if b == [] then 1 else 2)), report);
    assert [report][1..] == [];
  }

  lemma {:induction false} CyclesStayBounded(file: File, net: nat -> Reply, remediates: bool, s: State,
      reports: seq<Report>)
    requires |s.buffer| <= file.cap && AllSurvive(file.codec, s.buffer)
    ensures var r := Cycles(file, net, remediates, s, reports);
      |r.buffer| <= file.cap && AllSurvive(file.codec, r.buffer)
  {
    if reports != [] {
      var k := |reports| - 1;
      CyclesStayBounded(file, net, remediates, s, reports[..k]);
      CycleEvictsAtMostOne(file, net, remediates, Cycles(file, net, remediates, s, reports[..k]), reports[k]);
    }
  }

  /** "Evicts the oldest" is what the buffer does, not what the Agent does: the failed batch has just been moved behind
      the rest, so a full buffer of more than 50 entries loses its 51st-oldest report in a cycle of an outage. */
  lemma OutageEvicts(file: File, net: nat -> Reply, remediates: bool, s: State, report: Report)
    requires |s.buffer| == file.cap > 0 && AllSurvive(file.codec, s.buffer)
    requires Down(net, s.sent, Cycled(file, net, remediates, s, report).sent)
    ensures Cycled(file, net, remediates, s, report).evicted
         == s.evicted + [s.buffer[if file.cap > BATCH then BATCH else 0]]
  {
    var b, n := s.buffer, Smaller(BATCH, |s.buffer|);
    CycleWhileDown(file, net, remediates, s, report);
    var all := b[n..] + b[..n] + [report];
    assert Evicted(file.cap, all) == [all[0]];
    assert all[0] == b[if file.cap > BATCH then BATCH else 0];
  }

  /** No send from one moment up to another must be retried. */
  predicate Up(net: nat -> Reply, from: nat, to: nat) {
    forall k :: from <= k < to ==> !net(k).Retryable?
  }

  lemma {:induction false} ThroughWhileUp(net: nat -> Reply, from: nat, n: nat, to: nat)
    requires Up(net, from, to) && from + Through(net, from, n) + (if Through(net, from, n) < n then 1 else 0) <= to
    ensures Through(net, from, n) == n
    decreases n
  {
    if n > 0 {
      assert !net(from).Retryable?;
      ThroughWhileUp(net, from + 1, n - 1, to);
    }
  }

  lemma CycleWhileUp(file: File, net: nat -> Reply, remediates: bool, s: State, report: Report)
    requires |s.buffer| <= file.cap && AllSurvive(file.codec, s.buffer)
    requires Up(net, s.sent, Cycled(file, net, remediates, s, report).sent)
    ensures var r, n := Cycled(file, net, remediates, s, report), Smaller(BATCH, |s.buffer|);
      r.buffer == s.buffer[n..] && r.evicted == s.evicted && r.sent == s.sent + n + 1
  {
    var b, n := s.buffer, Smaller(BATCH, |s.buffer|);
    var i := Through(net, s.sent, n);
    AfterDrain(file, net, s);
    var d := Drained(file, net, s);
    ThroughWhileUp(net, s.sent, n, d.sent);
    assert b[n..n] == [] && b[n..] + [] == b[n..];
    assert !net(d.sent).Retryable?;
  }

  lemma OneMoreBatch(b: seq<Report>, k: nat)
    ensures var rest := b[Smaller(BATCH * k, |b|)..];
      rest[Smaller(BATCH, |rest|)..] == b[Smaller(BATCH * (k + 1), |b|)..]
    ensures b[Smaller(BATCH * (k + 1), |b|)..] == [] <==> (|b| + BATCH - 1) / BATCH <= k + 1
  {
  }

  /** Recovery: each cycle takes the 50 oldest off the backlog, so it is gone after exactly ceil(length / 50). */
  lemma {:induction false} Recovery(file: File, net: nat -> Reply, remediates: bool, s: State, reports: seq<Report>)
    requires |s.buffer| <= file.cap && AllSurvive(file.codec, s.buffer)
    requires Up(net, s.sent, Cycles(file, net, remediates, s, reports).sent)
    ensures var r, j := Cycles(file, net, remediates, s, reports), |reports|;
      && r.buffer == s.buffer[Smaller(BATCH * j, |s.buffer|)..]
      && r.evicted == s.evicted && s.sent <= r.sent
      && (r.buffer == [] <==> (|s.buffer| + BATCH - 1) / BATCH <= j)
  {
    if reports != [] {
      var k := |reports| - 1;
      var p := Cycles(file, net, remediates, s, reports[..k]);
      CyclesStayBounded(file, net, remediates, s, reports[..k]);
      SentGrows(file, net, remediates, p, reports[k]);
      Recovery(file, net, remediates, s, reports[..k]);
      CycleWhileUp(file, net, remediates, p, reports[k]);
      OneMoreBatch(s.buffer, k);
    }
  }

  // ---- Collection -----------------------------------------------------------------------------------------------

  lemma {:induction false} CollectConcat(a: seq<Result<seq<Reading>, string>>, b: seq<Result<seq<Reading>, string>>)
    ensures Samples(a + b) == Samples(a) + Samples(b)
    ensures Errors(a + b) == Errors(a) + Errors(b)
    decreases |b|
  {
    if b == [] {
      assert a + b == a;
    } else {
      var k := |b| - 1;
      assert (a + b)[..|a + b| - 1] == a + b[..k];
      CollectConcat(a, b[..k]);
    }
  }

  /** A collector that works adds its samples and no error. */
  lemma WorkedAlone(readings: seq<Reading>)
    ensures Samples([Ok(readings)]) == readings && Errors([Ok(readings)]) == []
  {
    var worked: seq<Result<seq<Reading>, string>> := [Ok(readings)];
    assert worked[..0] == [] && [] + readings == readings;
  }

  lemma FailedAlone(error: string)
    ensures Samples([Err(error)]) == [] && Errors([Err(error)]) == [error]
  {
    var failed: seq<Result<seq<Reading>, string>> := [Err(error)];
    assert failed[..0] == [];
  }

  /** A collector that raises takes nothing from the others and leaves its message in its place. */
  lemma FailureIsIsolated(
      before: seq<Result<seq<Reading>, string>>, error: string, after: seq<Result<seq<Reading>, string>>)
    ensures Samples(before + ([Err(error)] + after)) == Samples(before) + Samples(after)
    ensures Errors(before + ([Err(error)] + after)) == Errors(before) + ([error] + Errors(after))
  {
    var failed: seq<Result<seq<Reading>, string>> := [Err(error)];
    CollectConcat(before, failed + after);
    CollectConcat(failed, after);
    FailedAlone(error);
    assert [] + Samples(after) == Samples(after);
  }
}
