/** The status of an audit row over whole runs, with reports arriving while the
    reconciliation job works through its list. */
module ActionStatus {
  import opened Model
  import opened Tables
  import opened Rules
  import opened Alerting
  import opened Machine
  import opened MachineInvariants

  /** A later state of the same row: blocked rows never change, a settled row
      stays settled, and only status, reason and completion time are written. */
  predicate Follows(before: Action, after: Action) {
    && after.(status := before.status, reason := before.reason, completedAt := before.completedAt) == before
    && (before.status == Blocked ==> after == before)
    && (HasResult(before.status) ==> HasResult(after.status))
    && (before.status == Dispatched ==> after == before || HasResult(after.status))
  }

  lemma FollowsTransitive(a: Action, b: Action, c: Action)
    requires Follows(a, b) && Follows(b, c)
    ensures Follows(a, c)
  {
  }

  /** Rows only settle, and an id that is gone is never used again. */
  ghost predicate AuditStep(a: Db, b: Db) {
    && a.nextAction <= b.nextAction
    && (forall id :: id in a.actions && id in b.actions ==> Follows(a.actions[id], b.actions[id]))
    && (forall id :: id in b.actions && id !in a.actions ==> a.nextAction <= id)
  }

  lemma AuditUnchanged(a: Db, b: Db)
    requires b.actions.Keys <= a.actions.Keys && a.nextAction == b.nextAction
    requires forall id :: id in b.actions ==> b.actions[id] == a.actions[id]
    ensures AuditStep(a, b)
  {
  }

  /** A result written over a row that is not blocked, whatever it says now. */
  lemma ResultAudit(db: Db, id: nat, status: ActionStatus, reason: Option<Reason>, at: Time)
    requires id in db.actions && db.actions[id].status != Blocked && HasResult(status)
    ensures AuditStep(db, MarkResult(db, id, status, reason, at))
  {
  }

  lemma JobAudit(cfg: Config, s: System, e: Event)
    requires JobOk(s.world.db, s.job) && IsJob(e)
    ensures AuditStep(s.world.db, Step(cfg, s, e).world.db)
  {
    JobFrame(cfg, s, e);
    if e.TimeOutMark? && s.job.TimingOut? && e.id in s.job.ids {
      ResultAudit(s.world.db, e.id, Failed, Some(TimedOut), s.job.now);
    } else {
      AuditUnchanged(s.world.db, Step(cfg, s, e).world.db);
    }
  }

  lemma CallAudit(cfg: Config, s: System, e: Event)
    requires CallsOk(s.world.db, s.calls) && IsCall(e)
    ensures AuditStep(s.world.db, Step(cfg, s, e).world.db)
  {
    if e.CallWrites? && e.c in s.calls && e.c.Reporting? && Present(s.world.db, e.c) {
      ResultAudit(s.world.db, e.c.id, ResultStatus(e.c.executed), Some(Message(e.c.text)), e.at);
    } else {
      AuditUnchanged(s.world.db, Step(cfg, s, e).world.db);
    }
  }

  lemma StepAudit(cfg: Config, s: System, e: Event)
    requires Inv(s)
    ensures AuditStep(s.world.db, Step(cfg, s, e).world.db)
  {
    if e.Proceed? {
      ProceedFrame(cfg, s);
    } else if IsCall(e) {
      CallAudit(cfg, s, e);
    } else if IsJob(e) {
      JobAudit(cfg, s, e);
    } else {
      AuditUnchanged(s.world.db, Step(cfg, s, e).world.db);
    }
  }

  /** Over any run a blocked decision never changes, no settled action goes back
      to awaiting a result, a deleted id never returns, and completion times are
      set exactly for settled rows. */
  lemma {:induction false} StatusOverRuns(cfg: Config, s: System, es: seq<Event>)
    requires Inv(s)
    ensures AuditStep(s.world.db, Run(cfg, s, es).world.db)
    ensures forall id :: id in Run(cfg, s, es).world.db.actions ==>
              var row := Run(cfg, s, es).world.db.actions[id];
              HasResult(row.status) <==> row.completedAt.Some?
  {
    RunInv(cfg, s, es);
    if es != [] {
      var n := |es| - 1;
      var mid := Run(cfg, s, es[..n]);
      StatusOverRuns(cfg, s, es[..n]);
      RunInv(cfg, s, es[..n]);
      StepAudit(cfg, mid, es[n]);
      var a, b, c := s.world.db, mid.world.db, Run(cfg, s, es).world.db;
      forall id | id in a.actions && id in c.actions ensures Follows(a.actions[id], c.actions[id]) {
        assert id < a.nextAction;
        FollowsTransitive(a.actions[id], b.actions[id], c.actions[id]);
      }
    }
  }

  // ----- when is a settled row written again? -----

  /** Who may still write a row: the sweep that listed it, or a report that has read it. */
  datatype Claimant = Sweep | Reporter(c: Call)

  predicate Holds(s: System, id: nat, who: Claimant) {
    match who
    case Sweep => s.job.TimingOut? && id in s.job.ids
    case Reporter(c) => c in s.calls && c.Reporting? && c.id == id
  }

  /** The event at which a claimant reads or lists the row. */
  predicate Begins(e: Event, who: Claimant) {
    match who
    case Sweep => e.TimeOutBegin?
    case Reporter(c) => e == CallReads(c)
  }

  /** The event commits a write to the row. */
  predicate WritesRow(s: System, e: Event, id: nat) {
    id in s.world.db.actions &&
    ((e == TimeOutMark(id) && s.job.TimingOut? && id in s.job.ids)
     || (e.CallWrites? && e.c in s.calls && e.c.Reporting? && e.c.id == id))
  }

  /** What the row says after the event. */
  function RowAfter(s: System, e: Event, id: nat): Action
    requires id in s.world.db.actions
  {
    var row := s.world.db.actions[id];
    if !WritesRow(s, e, id) then row
    else if e.TimeOutMark? then MarkedResult(row, Failed, Some(TimedOut), s.job.now)
    else MarkedResult(row, ResultStatus(e.c.executed), Some(Message(e.c.text)), e.at)
  }

  lemma JobRow(cfg: Config, s: System, e: Event, id: nat)
    requires IsJob(e) && id in s.world.db.actions
    ensures id in Step(cfg, s, e).world.db.actions && Step(cfg, s, e).world.db.actions[id] == RowAfter(s, e, id)
  {
    JobFrame(cfg, s, e);
  }

  lemma OtherRow(cfg: Config, s: System, e: Event, id: nat)
    requires (IsFront(e) || IsPrune(e)) && id in s.world.db.actions && id in Step(cfg, s, e).world.db.actions
    ensures Step(cfg, s, e).world.db.actions[id] == s.world.db.actions[id]
  {
  }

  lemma CallRow(cfg: Config, s: System, e: Event, id: nat)
    requires IsCall(e) && id in s.world.db.actions && s.world.db.actions[id].id == id
    requires forall i :: i in s.world.db.actions ==> s.world.db.actions[i].id == i
    ensures id in Step(cfg, s, e).world.db.actions && Step(cfg, s, e).world.db.actions[id] == RowAfter(s, e, id)
  {
    match e
    case CallReads(c) => ReadCallFrame(s, c);
    case CallFails(c) => FailCallFrame(s, c);
    case CallWrites(c, at) => WriteCallFrame(s, c, at);
  }

  /** An audit row changes only under a committed write, to exactly what the write says. */
  lemma RowChangesOnlyByWrites(cfg: Config, s: System, e: Event, id: nat)
    requires ActionsOk(s.world.db.actions, s.world.db.nextAction)
    requires id in s.world.db.actions && id in Step(cfg, s, e).world.db.actions
    ensures Step(cfg, s, e).world.db.actions[id] == RowAfter(s, e, id)
  {
    if e.Proceed? {
      ProceedFrame(cfg, s);
    } else if IsJob(e) {
      JobRow(cfg, s, e, id);
    } else if IsCall(e) {
      CallRow(cfg, s, e, id);
    } else {
      OtherRow(cfg, s, e, id);
    }
  }

  /** The row, if it is still there, no longer awaits a result, and its id is taken. */
  predicate NotAwaiting(db: Db, id: nat) {
    id < db.nextAction && (id in db.actions ==> db.actions[id].status != Dispatched)
  }

  lemma StaysNotAwaiting(cfg: Config, s: System, e: Event, id: nat)
    requires Inv(s) && NotAwaiting(s.world.db, id)
    ensures NotAwaiting(Step(cfg, s, e).world.db, id)
  {
    StepAudit(cfg, s, e);
  }

  /** A claim is new only at its beginning, and begins only on a row that awaits a result. */
  lemma ClaimsBegin(cfg: Config, s: System, e: Event, id: nat, who: Claimant)
    requires Inv(s) && Holds(Step(cfg, s, e), id, who) && !Holds(s, id, who)
    ensures Begins(e, who) && id in s.world.db.actions && s.world.db.actions[id].status == Dispatched
  {
    if e.Proceed? {
      ProceedFrame(cfg, s);
      ProceedCalls(cfg, s);
    } else if IsCall(e) {
      CallClaims(cfg, s, e, id, who);
    } else if IsJob(e) {
      JobClaims(cfg, s, e, id, who);
    }
  }

  lemma CallClaims(cfg: Config, s: System, e: Event, id: nat, who: Claimant)
    requires IsCall(e) && Holds(Step(cfg, s, e), id, who) && !Holds(s, id, who)
    ensures Begins(e, who) && id in s.world.db.actions && s.world.db.actions[id].status == Dispatched
  {
  }

  lemma JobClaims(cfg: Config, s: System, e: Event, id: nat, who: Claimant)
    requires IsJob(e) && Holds(Step(cfg, s, e), id, who) && !Holds(s, id, who)
    ensures Begins(e, who) && id in s.world.db.actions && s.world.db.actions[id].status == Dispatched
  {
    assert JobStep(cfg, s, e).calls == s.calls;
  }

  /** The claimant read or listed the row as DISPATCHED at some moment of the run and has held its claim since. */
  ghost predicate ReadAsDispatched(cfg: Config, es: seq<Event>, id: nat, who: Claimant) {
    exists j {:trigger es[j]} :: 0 <= j < |es| && Begins(es[j], who) && AwaitsAt(cfg, es, j, id)
      && HeldFrom(cfg, es, j + 1, id, who)
  }

  ghost predicate AwaitsAt(cfg: Config, es: seq<Event>, j: int, id: nat)
    requires 0 <= j <= |es|
  {
    var actions := Run(cfg, INITIAL, es[..j]).world.db.actions;
    id in actions && actions[id].status == Dispatched
  }

  ghost predicate HeldFrom(cfg: Config, es: seq<Event>, j: int, id: nat, who: Claimant) {
    forall m :: 0 <= j <= m <= |es| ==> Holds(Run(cfg, INITIAL, es[..m]), id, who)
  }

  lemma StillReadAsDispatched(cfg: Config, es: seq<Event>, n: nat, id: nat, who: Claimant)
    requires |es| == n + 1 && ReadAsDispatched(cfg, es[..n], id, who) && Holds(Run(cfg, INITIAL, es), id, who)
    ensures ReadAsDispatched(cfg, es, id, who)
  {
    var j :| 0 <= j < n && Begins(es[..n][j], who) && AwaitsAt(cfg, es[..n], j, id)
             && HeldFrom(cfg, es[..n], j + 1, id, who);
    assert es[..n][..j] == es[..j] && es[..n][j] == es[j];
    forall m | j + 1 <= m <= |es| ensures Holds(Run(cfg, INITIAL, es[..m]), id, who) {
      assert if m <= n then es[..n][..m] == es[..m] else es[..m] == es;
    }
  }

  lemma JustRead(cfg: Config, es: seq<Event>, n: nat, id: nat, who: Claimant)
    requires |es| == n + 1 && Begins(es[n], who) && AwaitsAt(cfg, es, n, id) && Holds(Run(cfg, INITIAL, es), id, who)
    ensures ReadAsDispatched(cfg, es, id, who)
  {
    assert es[..n + 1] == es;
    assert HeldFrom(cfg, es, n + 1, id, who);
  }

  /** Every claim was begun on a row that said DISPATCHED. */
  lemma {:induction false} ClaimsReadDispatched(cfg: Config, es: seq<Event>, id: nat, who: Claimant)
    requires Holds(Run(cfg, INITIAL, es), id, who)
    ensures ReadAsDispatched(cfg, es, id, who)
  {
    if es == [] {
      assert false;
    } else {
      var n := |es| - 1;
      var s := Run(cfg, INITIAL, es[..n]);
      RunInv(cfg, INITIAL, es[..n]);
      if Holds(s, id, who) {
        ClaimsReadDispatched(cfg, es[..n], id, who);
        StillReadAsDispatched(cfg, es, n, id, who);
      } else {
        ClaimsBegin(cfg, s, es[n], id, who);
        JustRead(cfg, es, n, id, who);
      }
    }
  }

  /** Once the row is settled no claim on it is new. */
  lemma {:induction false} NoNewClaims(cfg: Config, s: System, es: seq<Event>, id: nat, who: Claimant)
    requires Inv(s) && NotAwaiting(s.world.db, id)
    ensures NotAwaiting(Run(cfg, s, es).world.db, id)
    ensures Holds(Run(cfg, s, es), id, who) ==> Holds(s, id, who)
  {
    if es != [] {
      var n := |es| - 1;
      NoNewClaims(cfg, s, es[..n], id, who);
      RunInv(cfg, s, es[..n]);
      StaysNotAwaiting(cfg, Run(cfg, s, es[..n]), es[n], id);
      if Holds(Run(cfg, s, es), id, who) && !Holds(Run(cfg, s, es[..n]), id, who) {
        ClaimsBegin(cfg, Run(cfg, s, es[..n]), es[n], id, who);
      }
    }
  }

  /** Some event of the run commits a write to the row. */
  ghost predicate WrittenAgain(cfg: Config, s: System, es: seq<Event>, id: nat) {
    exists k {:trigger es[k]} :: 0 <= k < |es| && WritesRow(Run(cfg, s, es[..k]), es[k], id)
  }

  function WriterOf(e: Event): Claimant {
    if e.CallWrites? then Reporter(e.c) else Sweep
  }

  /** Whoever writes a settled row, at any point of any continuation, had listed or read it while it still said
      DISPATCHED, before the commit that settled it, and has held on to that since. */
  lemma RewrittenOnlyByEarlyReaders(cfg: Config, es: seq<Event>, more: seq<Event>, k: nat, id: nat)
    requires NotAwaiting(Run(cfg, INITIAL, es).world.db, id)
    requires k < |more| && WritesRow(Run(cfg, Run(cfg, INITIAL, es), more[..k]), more[k], id)
    ensures ReadAsDispatched(cfg, es, id, WriterOf(more[k]))
  {
    RunInv(cfg, INITIAL, es);
    NoNewClaims(cfg, Run(cfg, INITIAL, es), more[..k], id, WriterOf(more[k]));
    ClaimsReadDispatched(cfg, es, id, WriterOf(more[k]));
  }

  lemma WrittenInPrefix(cfg: Config, s: System, es: seq<Event>, n: nat, id: nat)
    requires n <= |es|
    ensures WrittenAgain(cfg, s, es[..n], id) ==> WrittenAgain(cfg, s, es, id)
  {
    if WrittenAgain(cfg, s, es[..n], id) {
      var k :| 0 <= k < n && WritesRow(Run(cfg, s, es[..n][..k]), es[..n][k], id);
      assert es[..n][..k] == es[..k] && WritesRow(Run(cfg, s, es[..k]), es[k], id);
    }
  }

  lemma {:induction false} UnwrittenStays(cfg: Config, s: System, es: seq<Event>, id: nat)
    requires Inv(s) && id in s.world.db.actions && !WrittenAgain(cfg, s, es, id)
    requires id in Run(cfg, s, es).world.db.actions
    ensures Run(cfg, s, es).world.db.actions[id] == s.world.db.actions[id]
  {
    if es != [] {
      var n := |es| - 1;
      StillThere(cfg, s, es, id);
      WrittenInPrefix(cfg, s, es, n, id);
      UnwrittenStays(cfg, s, es[..n], id);
      RunInv(cfg, s, es[..n]);
      assert !WritesRow(Run(cfg, s, es[..n]), es[n], id);
      RowChangesOnlyByWrites(cfg, Run(cfg, s, es[..n]), es[n], id);
    }
  }

  /** A deleted id never returns. */
  lemma StillThere(cfg: Config, s: System, es: seq<Event>, id: nat)
    requires Inv(s) && id in s.world.db.actions && es != [] && id in Run(cfg, s, es).world.db.actions
    ensures id in Run(cfg, s, es[..|es| - 1]).world.db.actions
  {
    var n := |es| - 1;
    RunInv(cfg, s, es[..n]);
    StatusOverRuns(cfg, s, es[..n]);
    StepAudit(cfg, Run(cfg, s, es[..n]), es[n]);
  }

  lemma OneWrite(cfg: Config, s: System, e: Event, id: nat)
    requires WritesRow(s, e, id)
    ensures WrittenAgain(cfg, s, [e], id)
  {
    assert [e][..0] == [] && Run(cfg, s, []) == s;
    assert WritesRow(Run(cfg, s, [e][..0]), [e][0], id);
  }

  lemma UnclaimedNeverWritten(cfg: Config, s: System, more: seq<Event>, id: nat)
    requires Inv(s) && NotAwaiting(s.world.db, id) && forall who :: !Holds(s, id, who)
    ensures !WrittenAgain(cfg, s, more, id)
  {
    forall k | 0 <= k < |more| ensures !WritesRow(Run(cfg, s, more[..k]), more[k], id) {
      NoNewClaims(cfg, s, more[..k], id, WriterOf(more[k]));
    }
  }

  /** A settled row is final, whatever happens next and for as long as it is kept, exactly when nobody who read or
      listed it as DISPATCHED is still to commit. */
  lemma FinalExactlyWhenUnclaimed(cfg: Config, es: seq<Event>, id: nat)
    requires var db := Run(cfg, INITIAL, es).world.db; id in db.actions && HasResult(db.actions[id].status)
    ensures var s := Run(cfg, INITIAL, es);
            (forall more :: !WrittenAgain(cfg, s, more, id)) <==> (forall who :: !Holds(s, id, who))
    ensures var s := Run(cfg, INITIAL, es);
            (forall who :: !Holds(s, id, who)) ==>
              forall more :: id in Run(cfg, s, more).world.db.actions ==>
                Run(cfg, s, more).world.db.actions[id] == s.world.db.actions[id]
  {
    var s := Run(cfg, INITIAL, es);
    RunInv(cfg, INITIAL, es);
    if who :| Holds(s, id, who) {
      OneWrite(cfg, s, if who.Sweep? then TimeOutMark(id) else CallWrites(who.c, 0), id);
    } else {
      forall more: seq<Event> ensures !WrittenAgain(cfg, s, more, id) {
        UnclaimedNeverWritten(cfg, s, more, id);
      }
      forall more: seq<Event> | id in Run(cfg, s, more).world.db.actions
        ensures Run(cfg, s, more).world.db.actions[id] == s.world.db.actions[id]
      {
        UnwrittenStays(cfg, s, more, id);
      }
    }
  }

  // ----- claims that do not overlap -----

  /** The event reads the row for a report, or lists it for a sweep. */
  ghost predicate ReadsRow(cfg: Config, s: System, e: Event, id: nat) {
    || (e.CallReads? && e.c.Reporting? && e.c.id == id)
    || (e.TimeOutBegin? && s.job.JobIdle?
        && id in StaleDispatches(s.world.db.actions, e.now - cfg.dispatchTimeout))
  }

  ghost predicate Unclaimed(s: System, id: nat) {
    forall who :: !Holds(s, id, who)
  }

  /** Sweeps and reports are atomic as far as the row goes: none reads it while another is between its read and its
      write. */
  ghost predicate NoOverlap(cfg: Config, es: seq<Event>, id: nat) {
    es == [] ||
    var n := |es| - 1;
    && NoOverlap(cfg, es[..n], id)
    && (ReadsRow(cfg, Run(cfg, INITIAL, es[..n]), es[n], id) ==> Unclaimed(Run(cfg, INITIAL, es[..n]), id))
  }

  /** At most one claim on the row, and none unless it awaits a result. */
  ghost predicate Exclusive(s: System, id: nat) {
    && (forall a, b :: Holds(s, id, a) && Holds(s, id, b) ==> a == b)
    && (Unclaimed(s, id) || (id in s.world.db.actions && s.world.db.actions[id].status == Dispatched))
  }

  /** A claim that is new was begun by this very event. */
  lemma ClaimsRead(cfg: Config, s: System, e: Event, id: nat, who: Claimant)
    requires Inv(s) && Holds(Step(cfg, s, e), id, who) && !Holds(s, id, who)
    ensures ReadsRow(cfg, s, e, id)
  {
    ClaimsBegin(cfg, s, e, id, who);
  }

  /** Whoever writes the row held a claim on it, and holds none afterwards. */
  lemma WritingReleases(cfg: Config, s: System, e: Event, id: nat)
    requires WritesRow(s, e, id)
    ensures Holds(s, id, WriterOf(e)) && !Holds(Step(cfg, s, e), id, WriterOf(e))
  {
  }

  lemma WaitingSurvives(cfg: Config, s: System, e: Event, id: nat)
    requires (IsFront(e) || IsPrune(e)) && id in s.world.db.actions && s.world.db.actions[id].status == Dispatched
    ensures id in Step(cfg, s, e).world.db.actions
  {
  }

  /** A row that awaits a result goes on waiting unless it is written. */
  lemma WaitsUnlessWritten(cfg: Config, s: System, e: Event, id: nat)
    requires Inv(s) && id in s.world.db.actions && s.world.db.actions[id].status == Dispatched
    requires !WritesRow(s, e, id)
    ensures var after := Step(cfg, s, e).world.db.actions; id in after && after[id].status == Dispatched
  {
    if e.Proceed? {
      ProceedFrame(cfg, s);
    } else if IsJob(e) {
      JobRow(cfg, s, e, id);
    } else if IsCall(e) {
      CallRow(cfg, s, e, id);
    } else {
      WaitingSurvives(cfg, s, e, id);
      OtherRow(cfg, s, e, id);
    }
  }

  lemma StaysExclusive(cfg: Config, s: System, e: Event, id: nat)
    requires Inv(s) && Exclusive(s, id) && (ReadsRow(cfg, s, e, id) ==> Unclaimed(s, id))
    ensures Exclusive(Step(cfg, s, e), id)
  {
    var s' := Step(cfg, s, e);
    forall who | Holds(s', id, who)
      ensures Holds(s, id, who) || (Unclaimed(s, id) && Begins(e, who) && ReadsRow(cfg, s, e, id))
      ensures id in s'.world.db.actions && s'.world.db.actions[id].status == Dispatched
    {
      if !Holds(s, id, who) {
        ClaimsBegin(cfg, s, e, id, who);
        ClaimsRead(cfg, s, e, id, who);
      }
      if WritesRow(s, e, id) {
        WritingReleases(cfg, s, e, id);
      }
      WaitsUnlessWritten(cfg, s, e, id);
    }
  }

  lemma {:induction false} ExclusiveOverRuns(cfg: Config, es: seq<Event>, id: nat)
    requires NoOverlap(cfg, es, id)
    ensures Exclusive(Run(cfg, INITIAL, es), id)
  {
    if es != [] {
      var n := |es| - 1;
      ExclusiveOverRuns(cfg, es[..n], id);
      RunInv(cfg, INITIAL, es[..n]);
      StaysExclusive(cfg, Run(cfg, INITIAL, es[..n]), es[n], id);
    }
  }

  /** The write-once promise holds of every row whose readers did not overlap until it was settled: whatever comes
      next, overlapping or not, never writes it again. */
  lemma WrittenOnceIfAtomic(cfg: Config, es: seq<Event>, more: seq<Event>, id: nat)
    requires NoOverlap(cfg, es, id)
    requires var db := Run(cfg, INITIAL, es).world.db; id in db.actions && HasResult(db.actions[id].status)
    ensures var s := Run(cfg, INITIAL, es);
            && !WrittenAgain(cfg, s, more, id)
            && (id in Run(cfg, s, more).world.db.actions ==>
                  Run(cfg, s, more).world.db.actions[id] == s.world.db.actions[id])
  {
    ExclusiveOverRuns(cfg, es, id);
    FinalExactlyWhenUnclaimed(cfg, es, id);
  }
}
