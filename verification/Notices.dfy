/** Who is told of what, over whole runs: every change worth telling is told once, with the row as it was written. */
module Notices {
  import opened Model
  import opened Tables
  import opened Rules
  import opened Alerting
  import opened Machine
  import opened MachineInvariants
  import opened HumansFirst

  // ----- per commit -----

  lemma NothingRemoved(w: World, w': World, ids: set<nat>)
    requires w' == w.(db := w'.db) && w'.db.alerts == w.db.alerts - ids
    ensures Announces(w, w')
  {
  }

  lemma WriteTells(cfg: Config, s: System)
    requires Inv(s) && Relies(cfg, s.world.db.alerts, s.request)
    requires s.request.Opening? || s.request.Resolving? || s.request.Escalating?
    ensures Announces(s.world, ProceedStep(cfg, s).world)
  {
    var q := s.request;
    if q.Opening? {
      OpenAnnounces(s.world, DraftOf(q.c.node, q.c.r, q.c.at));
    } else if q.Resolving? {
      ResolveAnnounces(s.world, q.id, q.c.at);
    } else {
      EscalateAnnounces(s.world, q.id, q.c.at);
    }
  }

  lemma OtherwiseTellsNothing(cfg: Config, s: System)
    requires Inv(s) && !s.request.Opening? && !s.request.Resolving? && !s.request.Escalating?
    ensures Announces(s.world, ProceedStep(cfg, s).world)
  {
    if s.request.CheckingCooldown? || s.request.CheckingRate? || s.request.Recording? {
      DecidingTellsNothing(cfg, s);
    } else if s.request.Advancing? || s.request.Marking? {
      MarksTellNothing(cfg, s);
    } else {
      NothingToTell(s.world, ProceedStep(cfg, s).world);
    }
  }

  lemma MarksTellNothing(cfg: Config, s: System)
    requires Inv(s) && (s.request.Advancing? || s.request.Marking?)
    ensures Announces(s.world, ProceedStep(cfg, s).world)
  {
    NothingToTell(s.world, ProceedStep(cfg, s).world);
  }

  lemma DecidingTellsNothing(cfg: Config, s: System)
    requires s.request.CheckingCooldown? || s.request.CheckingRate? || s.request.Recording?
    ensures Announces(s.world, DecideStep(cfg, s).world)
  {
    NothingToTell(s.world, DecideStep(cfg, s).world);
  }

  lemma SweepTells(cfg: Config, s: System)
    requires Inv(s) && s.job.SweepWriting?
    ensures Announces(s.world, JobStep(cfg, s, StaleWrite).world)
  {
    var w, job := s.world, s.job;
    if IsStale(cfg, job.now, job.lastSeen) {
      if job.found.None? && s.swept {
        OpenAnnounces(w, StaleDraft(cfg, job.node, job.now, job.lastSeen));
      } else {
        NothingToTell(w, w);
      }
    } else if job.found.Some? {
      ResolveAnnounces(w, job.found.value, job.now);
    } else {
      NothingToTell(w, w);
    }
  }

  lemma JobTells(cfg: Config, s: System, e: Event)
    requires Inv(s) && IsJob(e)
    ensures Announces(s.world, JobStep(cfg, s, e).world)
  {
    if e.StaleWrite? && s.job.SweepWriting? {
      SweepTells(cfg, s);
    } else {
      var w' := JobStep(cfg, s, e).world;
      assert w'.notices == s.world.notices && w'.db.alerts == s.world.db.alerts;
      NothingToTell(s.world, w');
    }
  }

  lemma CallTells(cfg: Config, s: System, e: Event)
    requires Inv(s) && IsCall(e)
    ensures Announces(s.world, Step(cfg, s, e).world)
  {
    if e.CallWrites? && e.c in s.calls && Present(s.world.db, e.c) {
      WrittenTells(s.world, e.c, e.at);
    } else {
      assert Step(cfg, s, e).world == s.world;
      NothingToTell(s.world, s.world);
    }
  }

  lemma WrittenTells(w: World, c: Call, at: Time)
    requires DbOk(w.db) && Present(w.db, c)
    ensures Announces(w, w.(db := Written(w.db, c, at)))
  {
    NothingToTell(w, w.(db := Written(w.db, c, at)));
  }

  lemma PruneTells(cfg: Config, s: System, e: Event)
    requires IsPrune(e)
    ensures Announces(s.world, Step(cfg, s, e).world)
  {
    if e.PruneAlerts? && PruneEnabled(cfg, s, e) {
      NothingRemoved(s.world, Step(cfg, s, e).world, e.ids);
    } else {
      NothingToTell(s.world, Step(cfg, s, e).world);
    }
  }

  /** Every commit of every thread tells exactly what it changes: an alert that is new, one that escalates, or one that
      resolves. */
  lemma StepAnnounces(cfg: Config, s: System, e: Event)
    requires Inv(s) && Relies(cfg, s.world.db.alerts, s.request)
    ensures Announces(s.world, Step(cfg, s, e).world)
  {
    if e.Proceed? {
      if s.request.Opening? || s.request.Resolving? || s.request.Escalating? {
        WriteTells(cfg, s);
      } else {
        OtherwiseTellsNothing(cfg, s);
      }
    } else if IsFront(e) {
      NothingToTell(s.world, Step(cfg, s, e).world);
    } else if IsCall(e) {
      CallTells(cfg, s, e);
    } else if IsPrune(e) {
      PruneTells(cfg, s, e);
    } else {
      JobTells(cfg, s, e);
    }
  }

  // ----- how alerts come and go -----

  /** A new alert takes the next id; resolved and escalated ones stay so; only resolved ones are deleted. */
  ghost predicate AlertsMove(a: Db, b: Db) {
    && a.nextAlert <= b.nextAlert <= a.nextAlert + 1
    && (b.nextAlert == a.nextAlert + 1 ==> a.nextAlert in b.alerts)
    && (forall id :: id in b.alerts && id !in a.alerts ==>
          && id == a.nextAlert < b.nextAlert
          && b.alerts[id].status == Firing && b.alerts[id].escalatedAt.None?)
    && (forall id :: id in a.alerts && id !in b.alerts ==> a.alerts[id].status == Resolved)
    && (forall id :: id in a.alerts && id in b.alerts ==>
          && (a.alerts[id].status == Resolved ==> b.alerts[id].status == Resolved)
          && (a.alerts[id].escalatedAt.Some? ==> b.alerts[id].escalatedAt.Some?))
  }

  lemma OpenMoves(w: World, d: AlertDraft)
    requires AlertsOk(w.db.alerts, w.db.nextAlert)
    ensures AlertsMove(w.db, OpenAlert(w, d).db)
  {
  }

  lemma SameRowsMove(a: Db, b: Db)
    requires b.nextAlert == a.nextAlert && b.alerts.Keys == a.alerts.Keys
    requires forall id :: id in a.alerts ==>
               && (a.alerts[id].status == Resolved ==> b.alerts[id].status == Resolved)
               && (a.alerts[id].escalatedAt.Some? ==> b.alerts[id].escalatedAt.Some?)
    ensures AlertsMove(a, b)
  {
  }

  lemma ProceedMoves(cfg: Config, s: System)
    requires Inv(s)
    ensures AlertsMove(s.world.db, ProceedStep(cfg, s).world.db)
  {
    if s.request.Opening? {
      OpenMoves(s.world, DraftOf(s.request.c.node, s.request.c.r, s.request.c.at));
    } else if s.request.CheckingCooldown? || s.request.CheckingRate? || s.request.Recording? {
      DecidingMoves(cfg, s);
    } else if s.request.Resolving? || s.request.Advancing? || s.request.Escalating? || s.request.Marking? {
      RewriteMoves(cfg, s);
    } else {
      assert ProceedStep(cfg, s).world.db.alerts == s.world.db.alerts;
      SameRowsMove(s.world.db, ProceedStep(cfg, s).world.db);
    }
  }

  lemma RewriteMoves(cfg: Config, s: System)
    requires Inv(s)
    requires s.request.Resolving? || s.request.Advancing? || s.request.Escalating? || s.request.Marking?
    ensures AlertsMove(s.world.db, ProceedStep(cfg, s).world.db)
  {
    SameRowsMove(s.world.db, ProceedStep(cfg, s).world.db);
  }

  lemma DecidingMoves(cfg: Config, s: System)
    requires s.request.CheckingCooldown? || s.request.CheckingRate? || s.request.Recording?
    ensures AlertsMove(s.world.db, DecideStep(cfg, s).world.db)
  {
  }

  lemma JobMoves(cfg: Config, s: System, e: Event)
    requires Inv(s) && IsJob(e)
    ensures AlertsMove(s.world.db, JobStep(cfg, s, e).world.db)
  {
    if e.StaleWrite? && s.job.SweepWriting? {
      var w, job := s.world, s.job;
      var w' := SweepWrite(cfg, w, s.swept, job.now, job.node, job.lastSeen, job.found);
      if IsStale(cfg, job.now, job.lastSeen) && job.found.None? && s.swept {
        OpenMoves(w, StaleDraft(cfg, job.node, job.now, job.lastSeen));
      } else {
        SameRowsMove(w.db, w'.db);
      }
    } else {
      var db' := JobStep(cfg, s, e).world.db;
      assert db'.alerts == s.world.db.alerts && db'.nextAlert == s.world.db.nextAlert;
    }
  }

  lemma CallMoves(cfg: Config, s: System, e: Event)
    requires Inv(s) && IsCall(e)
    ensures AlertsMove(s.world.db, Step(cfg, s, e).world.db)
  {
    if e.CallWrites? && e.c in s.calls && Present(s.world.db, e.c) {
      WrittenMoves(s.world.db, e.c, e.at);
    } else {
      assert Step(cfg, s, e).world == s.world;
    }
  }

  lemma WrittenMoves(db: Db, c: Call, at: Time)
    requires DbOk(db) && Present(db, c)
    ensures AlertsMove(db, Written(db, c, at))
  {
    SameRowsMove(db, Written(db, c, at));
  }

  lemma FrontMoves(cfg: Config, s: System, e: Event)
    requires IsFront(e)
    ensures AlertsMove(s.world.db, Step(cfg, s, e).world.db)
  {
    SameRowsMove(s.world.db, Step(cfg, s, e).world.db);
  }

  lemma PruneMoves(cfg: Config, s: System, e: Event)
    requires IsPrune(e)
    ensures AlertsMove(s.world.db, Step(cfg, s, e).world.db)
  {
  }

  lemma StepMoves(cfg: Config, s: System, e: Event)
    requires Inv(s)
    ensures AlertsMove(s.world.db, Step(cfg, s, e).world.db)
  {
    if e.Proceed? {
      ProceedMoves(cfg, s);
    } else if IsPrune(e) {
      PruneMoves(cfg, s, e);
    } else if IsJob(e) {
      JobMoves(cfg, s, e);
    } else if IsCall(e) {
      CallMoves(cfg, s, e);
    } else {
      FrontMoves(cfg, s, e);
    }
  }

  // ----- how often -----

  datatype News = ItOpened | ItEscalated | ItResolved

  predicate Tells(notice: Notice, news: News, id: nat) {
    match notice
    case NotifyOpened(row) => news == ItOpened && row.id == id
    case NotifyEscalated(row) => news == ItEscalated && row.id == id
    case NotifyResolved(row) => news == ItResolved && row.id == id
  }

  /** How often the news of the alert has been told. */
  function Tellings(notices: seq<Notice>, news: News, id: nat): nat {
    if notices == [] then 0
    else
      var n := |notices| - 1;
      Tellings(notices[..n], news, id) + (if Tells(notices[n], news, id) then 1 else 0)
  }

  /** The news is true of the alert, or was when it was deleted. */
  predicate True(db: Db, news: News, id: nat) {
    match news
    case ItOpened => id < db.nextAlert
    case ItEscalated => id in db.alerts && db.alerts[id].escalatedAt.Some?
    case ItResolved => id < db.nextAlert && (id in db.alerts ==> db.alerts[id].status == Resolved)
  }

  /** The news has become true. */
  ghost predicate BecomesTrue(a: Db, b: Db, news: News, id: nat) {
    !True(a, news, id) && True(b, news, id)
  }

  lemma TruthIsTold(a: World, b: World, news: News, id: nat)
    requires AlertsOk(a.db.alerts, a.db.nextAlert) && AlertsOk(b.db.alerts, b.db.nextAlert)
    requires AlertsMove(a.db, b.db)
    ensures BecomesTrue(a.db, b.db, news, id)
      <==> exists notice :: Warrants(a.db.alerts, b.db.alerts, notice) && Tells(notice, news, id)
  {
    if BecomesTrue(a.db, b.db, news, id) {
      var row := b.db.alerts[id];
      var notice := match news
        case ItOpened => NotifyOpened(row)
        case ItEscalated => NotifyEscalated(row.(remediatedAt := a.db.alerts[id].remediatedAt))
        case ItResolved => NotifyResolved(row);
      assert Warrants(a.db.alerts, b.db.alerts, notice) && Tells(notice, news, id);
    }
  }

  lemma TellingsStep(a: World, b: World, news: News, id: nat)
    requires AlertsOk(a.db.alerts, a.db.nextAlert) && AlertsOk(b.db.alerts, b.db.nextAlert)
    requires AlertsMove(a.db, b.db) && Announces(a, b)
    ensures Tellings(b.notices, news, id)
         == Tellings(a.notices, news, id) + if BecomesTrue(a.db, b.db, news, id) then 1 else 0
  {
    var n := |a.notices|;
    TruthIsTold(a, b, news, id);
    if |b.notices| == n {
      assert b.notices == a.notices && b.notices[n..] == [];
    } else {
      assert b.notices[n..] == [b.notices[n]];
      assert forall notice :: Warrants(a.db.alerts, b.db.alerts, notice) <==> notice == b.notices[n];
    }
  }

  /** Told once if true; an alert that was deleted may have escalated, and then that was told once too. */
  ghost predicate Told(w: World, news: News, id: nat) {
    && Tellings(w.notices, news, id) <= 1
    && (id < w.db.nextAlert || Tellings(w.notices, news, id) == 0)
    && (news != ItEscalated || id in w.db.alerts ==>
          Tellings(w.notices, news, id) == if True(w.db, news, id) then 1 else 0)
  }

  lemma ToldStep(a: World, b: World, news: News, id: nat)
    requires AlertsOk(a.db.alerts, a.db.nextAlert) && AlertsOk(b.db.alerts, b.db.nextAlert)
    requires AlertsMove(a.db, b.db) && Announces(a, b) && Told(a, news, id)
    ensures Told(b, news, id)
  {
    TellingsStep(a, b, news, id);
  }

  /** Over any run of all threads, with faults, restarts and retention: that an alert opened is told exactly once for
      every alert there has ever been, that it resolved exactly once for every one that has resolved, deleted since or
      not, that it escalated exactly once for every one that has; and none of it before it is true. */
  lemma {:induction false} NewsIsToldOnce(cfg: Config, es: seq<Event>, news: News, id: nat)
    requires cfg.Valid()
    ensures Told(Run(cfg, INITIAL, es).world, news, id)
  {
    if es != [] {
      var n := |es| - 1;
      var s := Run(cfg, INITIAL, es[..n]);
      NewsIsToldOnce(cfg, es[..n], news, id);
      RunInv(cfg, INITIAL, es[..n]);
      RunInv(cfg, INITIAL, es);
      RunHuman(cfg, es[..n], 0);
      StepAnnounces(cfg, s, es[n]);
      StepMoves(cfg, s, es[n]);
      ToldStep(s.world, Run(cfg, INITIAL, es).world, news, id);
    }
  }
}
