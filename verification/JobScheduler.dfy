/** The Collector's periodic job scheduler: one thread, many jobs, one interval each.

    The clock and the jobs are the environment. A Tick says by how much one wait overslept, how long
    each job takes if the pass runs it, and whether it raises; stop() is a moment on the same clock.
    The endless loop is modelled by its finite prefixes: it runs until stop() is observed or the
    given ticks are used up.
 */
module JobScheduler {
  import opened Model

  datatype Tick = Tick(oversleep: nat, durations: seq<nat>, failures: seq<bool>)

  datatype JobRun = JobRun(job: nat, due: Time, start: Time, end: Time, failed: bool)

  /** What the loop knows at the top of an iteration, and the runs made so far. */
  datatype State = State(clock: Time, due: seq<Time>, log: seq<JobRun>, exited: bool)

  predicate Positive(intervals: seq<int>) {
    forall i :: 0 <= i < |intervals| ==> intervals[i] > 0
  }

  predicate Fits(tick: Tick, n: nat) {
    |tick.durations| == n && |tick.failures| == n
  }

  predicate AllFit(ticks: seq<Tick>, n: nat) {
    forall i :: 0 <= i < |ticks| ==> Fits(ticks[i], n)
  }

  function Least(due: seq<Time>): (m: Time)
    requires due != []
    ensures m in due && forall i :: 0 <= i < |due| ==> m <= due[i]
  {
    var last := due[|due| - 1];
    if |due| == 1 then last else
    var rest := Least(due[..|due| - 1]);
    assert forall i :: 0 <= i < |due| - 1 ==> due[i] == due[..|due| - 1][i];
    if rest < last then rest else last
  }

  function Later(a: Time, b: Time): Time {
    if a < b then b else a
  }

  /** The moment the wait runs out: a stop() up to then ends the loop, a later one is not seen before the next wait. */
  function GivesUp(s: State): (at: Time)
    requires s.due != []
  {
    Later(s.clock, Least(s.due))
  }

  /** The moment the loop reads the clock after a wait that ran out. */
  function Woken(s: State, tick: Tick): (now: Time)
    requires s.due != []
  {
    GivesUp(s) + tick.oversleep
  }

  /** Entry k in a pass woken at `now`: run and rescheduled from its end if it was due by then. */
  function Visited(intervals: seq<int>, p: State, now: Time, tick: Tick, k: nat): (r: State)
    requires k < |intervals| == |p.due| && Fits(tick, |intervals|)
    ensures |r.due| == |p.due| && r.exited == p.exited
    ensures forall i :: 0 <= i < |p.due| && i != k ==> r.due[i] == p.due[i]
  {
    if p.due[k] > now then p else
    var end := p.clock + tick.durations[k];
    p.(clock := end, due := p.due[k := end + intervals[k]],
       log := p.log + [JobRun(k, p.due[k], p.clock, end, tick.failures[k])])
  }

  /** A pass woken at `now`, after it has looked at the first k entries. */
  function Swept(intervals: seq<int>, s: State, now: Time, tick: Tick, k: nat): (r: State)
    requires k <= |intervals| == |s.due| && Fits(tick, |intervals|)
    ensures |r.due| == |s.due| && r.exited == s.exited
    ensures forall i :: k <= i < |s.due| ==> r.due[i] == s.due[i]
  {
    if k == 0 then s.(clock := now)
    else Visited(intervals, Swept(intervals, s, now, tick, k - 1), now, tick, k - 1)
  }

  /** One iteration: the wait either sees the stop event or is followed by a whole pass. */
  function Iterate(intervals: seq<int>, stopAt: Option<Time>, s: State, tick: Tick): (r: State)
    requires |intervals| == |s.due| > 0 && Fits(tick, |intervals|)
    ensures |r.due| == |s.due|
  {
    if s.exited then s
    else if stopAt.Some? && stopAt.value <= GivesUp(s) then s.(clock := Later(s.clock, stopAt.value), exited := true)
    else Swept(intervals, s, Woken(s, tick), tick, |intervals|)
  }

  function Started(intervals: seq<int>, now: Time): State {
    State(now, seq(|intervals|, i requires 0 <= i < |intervals| => now + intervals[i]), [], false)
  }

  function Loop(intervals: seq<int>, stopAt: Option<Time>, start: Time, ticks: seq<Tick>): (r: State)
    requires |intervals| > 0 && AllFit(ticks, |intervals|)
    ensures |r.due| == |intervals|
  {
    if ticks == [] then Started(intervals, start) else
    var t := |ticks| - 1;
    Iterate(intervals, stopAt, Loop(intervals, stopAt, start, ticks[..t]), ticks[t])
  }

  /** A schedule with its next due time, rewritten after each run. */
  class Entry {
    const interval: int
    var nextDue: Time

    constructor (interval: int, now: Time)
      ensures this.interval == interval && nextDue == now + interval
    {
      this.interval := interval;
      nextDue := now + interval;
    }
  }

  ghost predicate Entries(entries: seq<Entry>, intervals: seq<int>) {
    && |entries| == |intervals|
    && (forall i :: 0 <= i < |entries| ==> entries[i].interval == intervals[i])
    && (forall i, j :: 0 <= i < j < |entries| ==> entries[i] != entries[j])
  }

  ghost function Dues(entries: seq<Entry>): (due: seq<Time>)
    reads entries
  {
    seq(|entries|, i requires 0 <= i < |entries| reads entries => entries[i].nextDue)
  }

  class PeriodicJobScheduler {
    const intervals: seq<int>
    var clock: Time
    var log: seq<JobRun>

    ghost predicate Valid() {
      Positive(intervals)
    }

    constructor (intervals: seq<int>, now: Time)
      requires Positive(intervals)
      ensures Valid() && this.intervals == intervals && clock == now && log == []
    {
      this.intervals := intervals;
      clock := now;
      log := [];
    }

    /** A job that raises is logged and contained: only the record of the run tells the difference. */
    method RunContained(job: nat, due: Time, duration: nat, failed: bool)
      modifies this
      ensures clock == old(clock) + duration
      ensures log == old(log) + [JobRun(job, due, old(clock), clock, failed)]
    {
      var start := clock;
      clock := clock + duration;
      log := log + [JobRun(job, due, start, clock, failed)];
    }

    /** Every job exactly once, in order, whatever the intervals say and whichever of them raise. */
    method RunAllOnce(tick: Tick)
      requires Fits(tick, |intervals|)
      modifies this
      ensures |log| == |old(log)| + |intervals| && old(log) <= log
      ensures forall i :: |old(log)| <= i < |log| ==>
        log[i].job == i - |old(log)| && log[i].failed == tick.failures[i - |old(log)|]
    {
      var k := 0;
      while k < |intervals|
        invariant 0 <= k <= |intervals|
        invariant |log| == |old(log)| + k && old(log) <= log
        invariant forall i :: |old(log)| <= i < |log| ==>
          log[i].job == i - |old(log)| && log[i].failed == tick.failures[i - |old(log)|]
      {
        RunContained(k, clock, tick.durations[k], tick.failures[k]);
        k := k + 1;
      }
    }

    method EarliestDue(entries: seq<Entry>) returns (m: Time)
      requires entries != []
      ensures m == Least(Dues(entries))
    {
      m := entries[0].nextDue;
      var k := 1;
      assert Dues(entries)[..1] == [m];
      while k < |entries|
        invariant 1 <= k <= |entries|
        invariant m == Least(Dues(entries)[..k])
      {
        assert Dues(entries)[..k + 1][..k] == Dues(entries)[..k];
        if entries[k].nextDue <= m {
          m := entries[k].nextDue;
        }
        k := k + 1;
      }
      assert Dues(entries)[..k] == Dues(entries);
    }

    /** The body of the pass: run entry k if it was due at `now`. */
    method RunIfDue(entries: seq<Entry>, k: nat, now: Time, tick: Tick, ghost p: State)
      requires Entries(entries, intervals) && Fits(tick, |intervals|) && k < |entries|
      requires p == State(clock, Dues(entries), log, false)
      modifies this, entries[k]
      ensures Visited(intervals, p, now, tick, k) == State(clock, Dues(entries), log, false)
    {
      assert p.due[k] == entries[k].nextDue;
      if entries[k].nextDue <= now {
        RunContained(k, entries[k].nextDue, tick.durations[k], tick.failures[k]);
        entries[k].nextDue := clock + entries[k].interval;
        assert Dues(entries) == p.due[k := clock + intervals[k]];
      }
    }

    /** One pass over the entries after a wait: run what was due at `now`, in order. */
    method RunDue(entries: seq<Entry>, tick: Tick, ghost s: State)
      requires Entries(entries, intervals) && Fits(tick, |intervals|)
      requires s.due == Dues(entries) && s.log == log && !s.exited
      modifies this, entries
      ensures Swept(intervals, s, old(clock), tick, |intervals|) == State(clock, Dues(entries), log, false)
    {
      var now := clock;
      var k := 0;
      ghost var p := s.(clock := now);
      while k < |entries|
        invariant 0 <= k <= |entries|
        invariant p == Swept(intervals, s, now, tick, k) == State(clock, Dues(entries), log, false)
      {
        RunIfDue(entries, k, now, tick, p);
        p := Visited(intervals, p, now, tick, k);
        k := k + 1;
      }
    }

    method MakeEntries() returns (entries: seq<Entry>)
      ensures fresh(entries) && Entries(entries, intervals)
      ensures Dues(entries) == Started(intervals, clock).due
    {
      entries := [];
      while |entries| < |intervals|
        invariant |entries| <= |intervals| && fresh(entries)
        invariant forall i :: 0 <= i < |entries| ==>
          entries[i].interval == intervals[i] && entries[i].nextDue == clock + intervals[i]
        invariant forall i, j :: 0 <= i < j < |entries| ==> entries[i] != entries[j]
      {
        var entry := new Entry(intervals[|entries|], clock);
        entries := entries + [entry];
      }
    }

    /** One turn of the endless loop: wait, then return or run what is due. */
    method Turn(entries: seq<Entry>, stopAt: Option<Time>, tick: Tick, ghost s: State) returns (exited: bool)
      requires Valid() && entries != [] && Entries(entries, intervals) && Fits(tick, |intervals|)
      requires s == State(clock, Dues(entries), log, false)
      modifies this, entries
      ensures Iterate(intervals, stopAt, s, tick) == State(clock, Dues(entries), log, exited)
    {
      var earliest := EarliestDue(entries);
      var wait := if earliest > clock then earliest - clock else 0;
      var givesUp := clock + wait;
      assert givesUp == GivesUp(s);
      if stopAt.Some? && stopAt.value <= givesUp {
        clock := Later(clock, stopAt.value);
        return true;
      }
      clock := givesUp + tick.oversleep;
      RunDue(entries, tick, s);
      return false;
    }

    method RunLoop(stopAt: Option<Time>, ticks: seq<Tick>) returns (exited: bool)
      requires Valid() && log == [] && AllFit(ticks, |intervals|)
      modifies this
      ensures intervals == [] ==> exited && log == [] && clock == old(clock)
      ensures intervals != [] ==>
        var r := Loop(intervals, stopAt, old(clock), ticks);
        clock == r.clock && log == r.log && exited == r.exited
    {
      if |intervals| == 0 {
        return true;
      }
      var entries := MakeEntries();
      ghost var s := Started(intervals, clock);
      assert ticks[..0] == [];
      var t := 0;
      exited := false;
      while t < |ticks| && !exited
        invariant 0 <= t <= |ticks| && fresh(entries) && Entries(entries, intervals)
        invariant s == Loop(intervals, stopAt, old(clock), ticks[..t])
        invariant s == State(clock, Dues(entries), log, exited)
      {
        OneMoreTurn(intervals, stopAt, old(clock), ticks, t);
        exited := Turn(entries, stopAt, ticks[t], s);
        s := State(clock, Dues(entries), log, exited);
        t := t + 1;
      }
      if exited {
        StaysOut(intervals, stopAt, old(clock), ticks, t);
      } else {
        assert ticks[..t] == ticks;
      }
    }
  }

  lemma OneMoreTurn(intervals: seq<int>, stopAt: Option<Time>, start: Time, ticks: seq<Tick>, t: nat)
    requires |intervals| > 0 && AllFit(ticks, |intervals|) && t < |ticks|
    ensures Loop(intervals, stopAt, start, ticks[..t + 1]) ==
      Iterate(intervals, stopAt, Loop(intervals, stopAt, start, ticks[..t]), ticks[t])
  {
    assert ticks[..t + 1][..t] == ticks[..t];
  }

  /** Once the loop has returned, later ticks mean nothing. */
  lemma {:induction false} StaysOut(intervals: seq<int>, stopAt: Option<Time>, start: Time, ticks: seq<Tick>, k: nat)
    requires |intervals| > 0 && AllFit(ticks, |intervals|) && k <= |ticks|
    requires Loop(intervals, stopAt, start, ticks[..k]).exited
    ensures Loop(intervals, stopAt, start, ticks) == Loop(intervals, stopAt, start, ticks[..k])
  {
    if k == |ticks| {
      assert ticks[..k] == ticks;
    } else {
      var t := |ticks| - 1;
      assert ticks[..t][..k] == ticks[..k] && ticks[..t + 1] == ticks;
      StaysOut(intervals, stopAt, start, ticks[..t], k);
      OneMoreTurn(intervals, stopAt, start, ticks, t);
    }
  }

  // ---- Timing: how late, how early, how often --------------------------------------------------

  /** The first k worst-case durations added up. */
  function Sum(worst: seq<nat>, k: nat): nat
    requires k <= |worst|
  {
    if k == 0 then 0 else Sum(worst, k - 1) + worst[k - 1]
  }

  /** The environment keeps to the bounds: job i takes at most worst[i], no wait oversleeps by more than eps. */
  predicate Bounded(ticks: seq<Tick>, worst: seq<nat>, eps: nat) {
    && AllFit(ticks, |worst|)
    && forall t :: 0 <= t < |ticks| ==> Prompt(ticks[t], worst, eps)
  }

  predicate Prompt(tick: Tick, worst: seq<nat>, eps: nat)
    requires Fits(tick, |worst|)
  {
    tick.oversleep <= eps && forall i :: 0 <= i < |worst| ==> tick.durations[i] <= worst[i]
  }

  /** The most that other jobs can hold job j back: one whole pass of theirs, and those before it in the next. */
  function Lateness(worst: seq<nat>, eps: nat, j: nat): int
    requires j < |worst|
  {
    Others(worst, j) + Sum(worst, j) + eps
  }

  function Others(worst: seq<nat>, j: nat): int
    requires j < |worst|
  {
    Sum(worst, |worst|) - worst[j]
  }

  lemma {:induction false} SumGrows(worst: seq<nat>, j: nat, k: nat)
    requires j <= k <= |worst|
    ensures Sum(worst, j) <= Sum(worst, k)
    ensures j < k ==> Sum(worst, j) + worst[j] <= Sum(worst, k)
    decreases k
  {
    if j < k {
      SumGrows(worst, j, k - 1);
    }
  }

  /** No due job has been overtaken: at the top of the loop the clock is at most one pass of the others past it. */
  predicate OnSchedule(s: State, worst: seq<nat>, j: int)
    requires 0 <= j < |s.due| == |worst|
  {
    s.clock <= s.due[j] + Others(worst, j)
  }

  lemma {:induction false} SweepTiming(intervals: seq<int>, s: State, now: Time, tick: Tick, worst: seq<nat>,
      eps: nat, j: nat, k: nat)
    requires k <= |intervals| == |s.due| == |worst| && Fits(tick, |intervals|) && Prompt(tick, worst, eps)
    requires j < |intervals|
    ensures var r := Swept(intervals, s, now, tick, k);
      && now <= r.clock <= now + Sum(worst, k)
      && (s.due[j] > now ==> r.due[j] == s.due[j])
      && (s.due[j] > now && j < k ==> r.clock <= now + Sum(worst, k) - worst[j])
      && (s.due[j] <= now && j < k ==> r.clock <= r.due[j] - intervals[j] + Sum(worst, k) - Sum(worst, j + 1))
  {
    if k > 0 {
      SweepTiming(intervals, s, now, tick, worst, eps, j, k - 1);
    }
  }

  lemma {:induction false} StaysOnSchedule(intervals: seq<int>, s: State, now: Time, tick: Tick, worst: seq<nat>,
      eps: nat, j: nat)
    requires Positive(intervals) && |intervals| == |s.due| == |worst| && Fits(tick, |intervals|)
    requires Prompt(tick, worst, eps) && j < |intervals|
    ensures OnSchedule(Swept(intervals, s, now, tick, |intervals|), worst, j)
  {
    SweepTiming(intervals, s, now, tick, worst, eps, j, |intervals|);
    SumGrows(worst, 0, j);
    SumGrows(worst, j, |worst|);
    assert Sum(worst, j + 1) == Sum(worst, j) + worst[j];
  }

  /** The runs of job j, in order. */
  function RunsOf(log: seq<JobRun>, j: nat): seq<JobRun> {
    if log == [] then [] else
    var last := log[|log| - 1];
    RunsOf(log[..|log| - 1], j) + if last.job == j then [last] else []
  }

  /** The career of one job up to a next due time: first due an interval after the loop began, each run started
      between its due time and `late` after it and took at most `longest`, and the next due time is an interval
      after its end. */
  predicate Career(runs: seq<JobRun>, due: Time, interval: int, late: int, longest: int, start: Time) {
    if runs == [] then due == start + interval else
    var last := runs[|runs| - 1];
    && Career(runs[..|runs| - 1], last.due, interval, late, longest, start)
    && last.due <= last.start <= last.due + late
    && last.start <= last.end <= last.start + longest
    && due == last.end + interval
  }

  predicate CareerOf(s: State, j: nat, intervals: seq<int>, worst: seq<nat>, eps: nat, start: Time)
    requires j < |s.due| == |intervals| == |worst|
  {
    Career(RunsOf(s.log, j), s.due[j], intervals[j], Lateness(worst, eps, j), worst[j], start)
  }

  /** One more run of job i, in the books of job j. */
  lemma RunExtendsCareer(s: State, r: State, run: JobRun, j: nat, intervals: seq<int>, worst: seq<nat>, eps: nat,
      start: Time)
    requires j < |s.due| == |intervals| == |worst| && run.job < |s.due|
    requires CareerOf(s, j, intervals, worst, eps, start)
    requires run.job == j ==> s.due[j] == run.due <= run.start <= run.due + Lateness(worst, eps, j)
    requires run.job == j ==> run.start <= run.end <= run.start + worst[j]
    requires r.log == s.log + [run] && r.due == s.due[run.job := run.end + intervals[run.job]]
    ensures CareerOf(r, j, intervals, worst, eps, start)
  {
    assert r.log[..|s.log|] == s.log;
    var before, after := RunsOf(s.log, j), RunsOf(r.log, j);
    assert |r.log| == |s.log| + 1 && r.log[|s.log|] == run;
    if run.job == j {
      assert after == before + [run];
      assert after[..|before|] == before;
    } else {
      assert after == before;
    }
  }

  lemma WokenInTime(s: State, tick: Tick, worst: seq<nat>, eps: nat, j: nat)
    requires j < |s.due| == |worst| && Fits(tick, |worst|) && Prompt(tick, worst, eps)
    requires OnSchedule(s, worst, j)
    ensures Woken(s, tick) <= s.due[j] + Others(worst, j) + eps
  {
    SumGrows(worst, 0, j);
    SumGrows(worst, j, |worst|);
  }

  lemma EntryExtendsCareer(
      intervals: seq<int>, s: State, now: Time, tick: Tick, worst: seq<nat>, eps: nat, start: Time, j: nat, k: nat)
    requires j < |intervals| == |s.due| == |worst| && k < |worst| && Fits(tick, |worst|) && Prompt(tick, worst, eps)
    requires s.due[k] <= now && (j == k ==> now <= s.due[j] + Others(worst, j) + eps)
    requires CareerOf(Swept(intervals, s, now, tick, k), j, intervals, worst, eps, start)
    ensures CareerOf(Swept(intervals, s, now, tick, k + 1), j, intervals, worst, eps, start)
  {
    var p := Swept(intervals, s, now, tick, k);
    var r := Swept(intervals, s, now, tick, k + 1);
    var run := JobRun(k, s.due[k], p.clock, p.clock + tick.durations[k], tick.failures[k]);
    assert r.log == p.log + [run] && r.due == p.due[k := run.end + intervals[k]];
    SweepTiming(intervals, s, now, tick, worst, eps, k, k);
    RunExtendsCareer(p, r, run, j, intervals, worst, eps, start);
  }

  lemma {:induction false} SweepExtendsCareer(
      intervals: seq<int>, s: State, now: Time, tick: Tick, worst: seq<nat>, eps: nat, start: Time, j: nat, k: nat)
    requires j < |intervals| == |s.due| == |worst| && k <= |worst| && Fits(tick, |worst|) && Prompt(tick, worst, eps)
    requires now <= s.due[j] + Others(worst, j) + eps
    requires CareerOf(s, j, intervals, worst, eps, start)
    ensures CareerOf(Swept(intervals, s, now, tick, k), j, intervals, worst, eps, start)
  {
    if k > 0 {
      SweepExtendsCareer(intervals, s, now, tick, worst, eps, start, j, k - 1);
      if s.due[k - 1] <= now {
        EntryExtendsCareer(intervals, s, now, tick, worst, eps, start, j, k - 1);
      }
    }
  }

  lemma {:induction false} LoopKeepsSchedule(
      intervals: seq<int>, stopAt: Option<Time>, start: Time, ticks: seq<Tick>, worst: seq<nat>, eps: nat, j: nat)
    requires j < |intervals| == |worst| && Positive(intervals) && Bounded(ticks, worst, eps)
    ensures var s := Loop(intervals, stopAt, start, ticks);
      CareerOf(s, j, intervals, worst, eps, start) && (!s.exited ==> OnSchedule(s, worst, j))
  {
    if ticks == [] {
      SumGrows(worst, j, |worst|);
    } else {
      var t := |ticks| - 1;
      var s := Loop(intervals, stopAt, start, ticks[..t]);
      LoopKeepsSchedule(intervals, stopAt, start, ticks[..t], worst, eps, j);
      if !s.exited {
        WokenInTime(s, ticks[t], worst, eps, j);
        SweepExtendsCareer(intervals, s, Woken(s, ticks[t]), ticks[t], worst, eps, start, j, |worst|);
        StaysOnSchedule(intervals, s, Woken(s, ticks[t]), ticks[t], worst, eps, j);
      }
    }
  }

  /** What n runs account for: (n + 1) intervals and n worst delays. */
  function Budget(n: nat, interval: int, delay: int): int {
    if n == 0 then interval else Budget(n - 1, interval, delay) + interval + delay
  }

  lemma {:induction false} BudgetAddsUp(n: nat, interval: int, delay: int)
    ensures Budget(n, interval, delay) == (n + 1) * interval + n * delay
  {
    if n > 0 {
      BudgetAddsUp(n - 1, interval, delay);
      assert (n + 1) * interval == n * interval + interval;
      assert n * delay == (n - 1) * delay + delay;
    }
  }

  lemma {:induction false} CareerPace(runs: seq<JobRun>, due: Time, interval: int, late: int, longest: int, start: Time)
    requires Career(runs, due, interval, late, longest, start)
    ensures start + Budget(|runs|, interval, 0) <= due <= start + Budget(|runs|, interval, late + longest)
  {
    var n := |runs|;
    if n > 0 {
      CareerPace(runs[..n - 1], runs[n - 1].due, interval, late, longest, start);
    }
  }

  lemma {:induction false} CareerRuns(runs: seq<JobRun>, due: Time, interval: int, late: int, longest: int,
      start: Time, k: nat)
    requires Career(runs, due, interval, late, longest, start) && k < |runs|
    ensures runs[k].due <= runs[k].start <= runs[k].due + late
    ensures start + (k + 1) * interval <= runs[k].start
    ensures k + 1 < |runs| ==> runs[k].end + interval == runs[k + 1].due
    decreases |runs|
  {
    var n := |runs| - 1;
    if k == n {
      CareerPace(runs[..n], runs[n].due, interval, late, longest, start);
      BudgetAddsUp(n, interval, 0);
    } else {
      CareerRuns(runs[..n], runs[n].due, interval, late, longest, start, k);
    }
  }

  lemma AtMostQuotient(n: nat, d: int, t: int)
    requires 0 < d && n * d <= t
    ensures n <= t / d
  {
    assert t == (t / d) * d + t % d;
    var gap := n - t / d;
    assert gap * d == n * d - (t / d) * d;
    assert gap >= 1 ==> gap * d >= d;
  }

  /** The k-th run (from 0) does not start early, and starts at most `late` past its due time; its successor is due
      an interval after its end; and the first k + 1 runs take at least k + 1 intervals, so that within time T there
      start at most floor(T / interval). */
  predicate Punctual(runs: seq<JobRun>, k: nat, interval: int, late: int, start: Time) {
    && k < |runs| && 0 < interval
    && runs[k].due <= runs[k].start <= runs[k].due + late
    && (k + 1 < |runs| ==> runs[k].end + interval == runs[k + 1].due)
    && k + 1 <= (runs[k].start - start) / interval
  }

  lemma CareerIsPunctual(
      runs: seq<JobRun>, due: Time, interval: int, late: int, longest: int, start: Time, k: nat)
    requires Career(runs, due, interval, late, longest, start) && k < |runs| && 0 < interval
    ensures Punctual(runs, k, interval, late, start)
  {
    CareerRuns(runs, due, interval, late, longest, start, k);
    AtMostQuotient(k + 1, interval, runs[k].start - start);
  }

  /** The lateness bound and its companions, for every run of every job. */
  lemma SchedulerBounds(
      intervals: seq<int>, stopAt: Option<Time>, start: Time, ticks: seq<Tick>, worst: seq<nat>, eps: nat, j: nat,
        k: nat)
    requires j < |intervals| == |worst| && Positive(intervals) && Bounded(ticks, worst, eps)
    requires k < |RunsOf(Loop(intervals, stopAt, start, ticks).log, j)|
    ensures var runs := RunsOf(Loop(intervals, stopAt, start, ticks).log, j);
      Punctual(runs, k, intervals[j], Lateness(worst, eps, j), start)
  {
    var s := Loop(intervals, stopAt, start, ticks);
    LoopKeepsSchedule(intervals, stopAt, start, ticks, worst, eps, j);
    CareerIsPunctual(RunsOf(s.log, j), s.due[j], intervals[j], Lateness(worst, eps, j), worst[j], start, k);
  }

  lemma ClockWithinBudget(s: State, intervals: seq<int>, worst: seq<nat>, eps: nat, start: Time, j: nat)
    requires j < |s.due| == |intervals| == |worst|
    requires CareerOf(s, j, intervals, worst, eps, start) && OnSchedule(s, worst, j)
    ensures var delay := Lateness(worst, eps, j) + worst[j];
      s.clock <= start + Budget(|RunsOf(s.log, j)|, intervals[j], delay) + Others(worst, j)
  {
    CareerPace(RunsOf(s.log, j), s.due[j], intervals[j], Lateness(worst, eps, j), worst[j], start);
  }

  /** No job is starved: while the loop goes on, the clock cannot outrun what the runs of a job account for. */
  lemma NoStarvation(
      intervals: seq<int>, stopAt: Option<Time>, start: Time, ticks: seq<Tick>, worst: seq<nat>, eps: nat, j: nat)
    requires j < |intervals| == |worst| && Positive(intervals) && Bounded(ticks, worst, eps)
    requires !Loop(intervals, stopAt, start, ticks).exited
    ensures var s, delay := Loop(intervals, stopAt, start, ticks), Lateness(worst, eps, j) + worst[j];
      s.clock <= start + Budget(|RunsOf(s.log, j)|, intervals[j], delay) + Others(worst, j)
  {
    LoopKeepsSchedule(intervals, stopAt, start, ticks, worst, eps, j);
    ClockWithinBudget(Loop(intervals, stopAt, start, ticks), intervals, worst, eps, start, j);
  }

  // ---- Every pass does something, and does all of it ---------------------------------------------

  lemma {:induction false} SweepLeavesNothingDue(intervals: seq<int>, s: State, now: Time, tick: Tick, k: nat)
    requires k <= |intervals| == |s.due| && Fits(tick, |intervals|) && Positive(intervals)
    ensures var r := Swept(intervals, s, now, tick, k);
      && now <= r.clock && s.log <= r.log
      && (forall j :: 0 <= j < k ==> now < r.due[j])
      && ((exists j :: 0 <= j < k && s.due[j] <= now) ==> |s.log| < |r.log|)
  {
    if k > 0 {
      SweepLeavesNothingDue(intervals, s, now, tick, k - 1);
    }
  }

  /** No idle wake-ups, and no entry forgotten: after a pass woken at `now` at least one job has run,
      and every job due by then has. */
  lemma PassIsProductiveAndWhole(intervals: seq<int>, stopAt: Option<Time>, s: State, tick: Tick)
    requires |intervals| == |s.due| > 0 && Fits(tick, |intervals|) && Positive(intervals) && !s.exited
    ensures var r := Iterate(intervals, stopAt, s, tick);
      && (r.exited <==> stopAt.Some? && stopAt.value <= GivesUp(s))
      && (r.exited ==> r.log == s.log && r.due == s.due)
      && (!r.exited ==> s.log < r.log && forall j :: 0 <= j < |r.due| ==> Woken(s, tick) < r.due[j])
  {
    var now := Woken(s, tick);
    SweepLeavesNothingDue(intervals, s, now, tick, |intervals|);
    var m :| 0 <= m < |s.due| && s.due[m] == Least(s.due);
    assert s.due[m] <= now;
  }

  // ---- Stopping ------------------------------------------------------------------------------------

  predicate StartedBefore(log: seq<JobRun>, worst: seq<nat>, deadline: Time) {
    forall a :: 0 <= a < |log| ==> log[a].job < |worst| && log[a].start < deadline + Sum(worst, log[a].job)
  }

  lemma {:induction false} SweepStartsBefore(
      intervals: seq<int>, s: State, now: Time, tick: Tick, worst: seq<nat>, eps: nat, deadline: Time, k: nat)
    requires k <= |intervals| == |s.due| == |worst| && Fits(tick, |worst|) && Prompt(tick, worst, eps)
    requires now < deadline && StartedBefore(s.log, worst, deadline)
    ensures StartedBefore(Swept(intervals, s, now, tick, k).log, worst, deadline)
  {
    if k > 0 {
      SweepStartsBefore(intervals, s, now, tick, worst, eps, deadline, k - 1);
      SweepTiming(intervals, s, now, tick, worst, eps, k - 1, k - 1);
    }
  }

  /** stop() at time q lets the pass in progress finish, and the one whose wait has already run out begin: jobs may
      still start after q, by less than the oversleep and the durations of those before them in the list, and the loop
      is out within an oversleep and one worst-case pass of q. */
  lemma {:induction false} StopDrainsOnePass(
      intervals: seq<int>, q: Time, start: Time, ticks: seq<Tick>, worst: seq<nat>, eps: nat)
    requires |intervals| == |worst| > 0 && Positive(intervals) && Bounded(ticks, worst, eps) && start <= q
    ensures var s := Loop(intervals, Some(q), start, ticks);
      && StartedBefore(s.log, worst, q + eps)
      && s.clock <= q + eps + Sum(worst, |worst|)
      && (s.exited ==> q <= s.clock)
  {
    if ticks != [] {
      var t := |ticks| - 1;
      var s := Loop(intervals, Some(q), start, ticks[..t]);
      StopDrainsOnePass(intervals, q, start, ticks[..t], worst, eps);
      var now := Woken(s, ticks[t]);
      if !s.exited && GivesUp(s) < q {
        SweepStartsBefore(intervals, s, now, ticks[t], worst, eps, q + eps, |worst|);
        SweepTiming(intervals, s, now, ticks[t], worst, eps, 0, |worst|);
      }
    }
  }

  /** Some run started at or after q. */
  predicate LateStart(log: seq<JobRun>, q: Time) {
    exists a :: 0 <= a < |log| && q <= log[a].start
  }

  /** When a pass woken at `now` reaches entry k, the entry is due and the clock is at q or past it. */
  predicate ReachedLate(intervals: seq<int>, s: State, now: Time, tick: Tick, q: Time, k: nat)
    requires |intervals| == |s.due| && Fits(tick, |intervals|)
  {
    k < |intervals| && s.due[k] <= now && q <= Swept(intervals, s, now, tick, k).clock
  }

  lemma {:induction false} LateStartInPass(intervals: seq<int>, s: State, now: Time, tick: Tick, q: Time, n: nat)
    requires n <= |intervals| == |s.due| && Fits(tick, |intervals|)
    ensures LateStart(Swept(intervals, s, now, tick, n).log, q)
      <==> LateStart(s.log, q) || exists k: nat :: k < n && ReachedLate(intervals, s, now, tick, q, k)
  {
    if n > 0 {
      LateStartInPass(intervals, s, now, tick, q, n - 1);
      var p, r := Swept(intervals, s, now, tick, n - 1), Swept(intervals, s, now, tick, n);
      if s.due[n - 1] <= now {
        assert r.log[..|p.log|] == p.log && r.log[|p.log|].start == p.clock;
        assert LateStart(r.log, q) <==> LateStart(p.log, q) || q <= p.clock;
      }
      assert ReachedLate(intervals, s, now, tick, q, n - 1) <==> s.due[n - 1] <= now && q <= p.clock;
    }
  }

  /** A pass whose wait ran out before the stop, and of which some due entry's turn comes at or after it. */
  predicate Straddles(intervals: seq<int>, s: State, tick: Tick, q: Time)
    requires |intervals| == |s.due| > 0 && Fits(tick, |intervals|)
  {
    !s.exited && GivesUp(s) < q
    && exists k: nat :: k < |intervals| && ReachedLate(intervals, s, Woken(s, tick), tick, q, k)
  }

  predicate StraddlesAt(intervals: seq<int>, q: Time, start: Time, ticks: seq<Tick>, t: nat)
    requires |intervals| > 0 && AllFit(ticks, |intervals|)
  {
    t < |ticks| && Straddles(intervals, Loop(intervals, Some(q), start, ticks[..t]), ticks[t], q)
  }

  lemma LateStartInTurn(intervals: seq<int>, q: Time, s: State, tick: Tick)
    requires |intervals| == |s.due| > 0 && Fits(tick, |intervals|)
    ensures LateStart(Iterate(intervals, Some(q), s, tick).log, q)
      <==> LateStart(s.log, q) || Straddles(intervals, s, tick, q)
  {
    if !s.exited && GivesUp(s) < q {
      LateStartInPass(intervals, s, Woken(s, tick), tick, q, |intervals|);
    }
  }

  lemma {:induction false} LateStartsUpTo(intervals: seq<int>, q: Time, start: Time, ticks: seq<Tick>, n: nat)
    requires |intervals| > 0 && AllFit(ticks, |intervals|) && n <= |ticks|
    ensures LateStart(Loop(intervals, Some(q), start, ticks[..n]).log, q)
      <==> exists t: nat :: t < n && StraddlesAt(intervals, q, start, ticks, t)
  {
    if n > 0 {
      LateStartsUpTo(intervals, q, start, ticks, n - 1);
      OneMoreTurn(intervals, Some(q), start, ticks, n - 1);
      LateStartInTurn(intervals, q, Loop(intervals, Some(q), start, ticks[..n - 1]), ticks[n - 1]);
      assert StraddlesAt(intervals, q, start, ticks, n - 1)
        <==> Straddles(intervals, Loop(intervals, Some(q), start, ticks[..n - 1]), ticks[n - 1], q);
    }
  }

  /** A job starts at or after stop() was called exactly when the wait of some pass ran out before the call and the
      pass still had a due entry to come when the clock reached it. */
  lemma StartsAfterStopExactly(intervals: seq<int>, q: Time, start: Time, ticks: seq<Tick>)
    requires |intervals| > 0 && AllFit(ticks, |intervals|)
    ensures LateStart(Loop(intervals, Some(q), start, ticks).log, q)
      <==> exists t: nat :: StraddlesAt(intervals, q, start, ticks, t)
  {
    LateStartsUpTo(intervals, q, start, ticks, |ticks|);
    assert ticks[..|ticks|] == ticks;
  }

  /** The method comment on stop() promises that only the current job finishes.  Two jobs due together show
      otherwise: stop() comes while the first is running, and the second is started all the same. */
  lemma JobsMayStartAfterStop()
    ensures LateStart(Loop([60, 60], Some(65), 0, [Tick(0, [10, 5], [false, false])]).log, 65)
  {
    var ticks := [Tick(0, [10, 5], [false, false])];
    var s := Started([60, 60], 0);
    assert ticks[..0] == [] && s.due == [60, 60];
    assert Woken(s, ticks[0]) == 60;
    assert Swept([60, 60], s, 60, ticks[0], 0).clock == 60;
    assert Swept([60, 60], s, 60, ticks[0], 1).clock == 70;
    assert ReachedLate([60, 60], s, 60, ticks[0], 65, 1);
    assert StraddlesAt([60, 60], 65, 0, ticks, 0);
    StartsAfterStopExactly([60, 60], 65, 0, ticks);
  }

  /** A wait that oversleeps shows it with one job: stop() comes after the wait has run out and before the clock is
      read, and a whole pass begins after it. */
  lemma PassMayBeginAfterStop()
    ensures var s := Loop([60], Some(62), 0, [Tick(5, [10], [false])]);
      && !s.exited && s.log == [JobRun(0, 60, 65, 75, false)]
      && LateStart(s.log, 62)
  {
    var ticks := [Tick(5, [10], [false])];
    var s := Started([60], 0);
    assert ticks[..0] == [] && s.due == [60];
    assert GivesUp(s) == 60 && Woken(s, ticks[0]) == 65;
    var r := Swept([60], s, 65, ticks[0], 1);
    assert r.log == [JobRun(0, 60, 65, 75, false)];
    assert r.log[0].start == 65;
  }

  // ---- Containment -----------------------------------------------------------------------------------

  predicate SameTimes(a: seq<JobRun>, b: seq<JobRun>) {
    |a| == |b| && forall i :: 0 <= i < |a| ==> a[i].(failed := false) == b[i].(failed := false)
  }

  predicate SameButFailures(a: State, b: State) {
    a.clock == b.clock && a.due == b.due && a.exited == b.exited && SameTimes(a.log, b.log)
  }

  lemma {:induction false} SweepContainsFailures(intervals: seq<int>, a: State, b: State, now: Time, x: Tick, y: Tick,
      k: nat)
    requires k <= |intervals| == |a.due| && Fits(x, |intervals|) && Fits(y, |intervals|)
    requires SameButFailures(a, b) && x.durations == y.durations
    ensures SameButFailures(Swept(intervals, a, now, x, k), Swept(intervals, b, now, y, k))
  {
    if k > 0 {
      SweepContainsFailures(intervals, a, b, now, x, y, k - 1);
    }
  }

  /** Which jobs raise makes no difference to what runs when. */
  lemma {:induction false} FailuresAreContained(
      intervals: seq<int>, stopAt: Option<Time>, start: Time, xs: seq<Tick>, ys: seq<Tick>)
    requires |intervals| > 0 && AllFit(xs, |intervals|) && AllFit(ys, |intervals|) && |xs| == |ys|
    requires forall t :: 0 <= t < |xs| ==> xs[t].(failures := []) == ys[t].(failures := [])
    ensures SameButFailures(Loop(intervals, stopAt, start, xs), Loop(intervals, stopAt, start, ys))
  {
    if xs != [] {
      var t := |xs| - 1;
      FailuresAreContained(intervals, stopAt, start, xs[..t], ys[..t]);
      assert xs[t].(failures := []) == ys[t].(failures := []);
      var a, b := Loop(intervals, stopAt, start, xs[..t]), Loop(intervals, stopAt, start, ys[..t]);
      SweepContainsFailures(intervals, a, b, Woken(a, xs[t]), xs[t], ys[t], |intervals|);
    }
  }
}
