/** The staleness job: an alert for every silent node, and only for those. */
module StalenessSweep {
  import opened Model
  import opened Tables
  import opened Alerting
  import opened Machine
  import opened Store

  ghost predicate Alarmed(alerts: Alerts, node: NodeId) {
    exists id :: IsOpen(alerts, id, node, STALENESS_KEY)
  }

  function SilentNodes(cfg: Config, nodes: map<NodeId, Node>, now: Time): set<NodeId> {
    set node | node in nodes && IsStale(cfg, now, nodes[node].lastSeenAt)
  }

  /** The nodes a sweep raises an alert for: silent, none open, and not the first sweep. */
  ghost function ToOpen(cfg: Config, db: Db, swept: bool, now: Time): set<NodeId> {
    set node | node in SilentNodes(cfg, db.nodes, now) && swept && !Alarmed(db.alerts, node)
  }

  /** The nodes a sweep resolves the alert of. */
  ghost function ToResolve(cfg: Config, db: Db, now: Time): set<NodeId> {
    set node | node in db.nodes && node !in SilentNodes(cfg, db.nodes, now) && Alarmed(db.alerts, node)
  }

  /** Alerts other than staleness alerts of known nodes are none of the sweep's business. */
  ghost predicate LeavesOthers(before: Db, after: Db, now: Time) {
    && after.nodes == before.nodes && after.actions == before.actions && after.samples == before.samples
    && (forall id :: id in before.alerts ==>
          id in after.alerts
          && (after.alerts[id] == before.alerts[id]
              || (before.alerts[id].status == Firing && before.alerts[id].ruleKey == STALENESS_KEY
                  && after.alerts[id] == ResolvedRow(before.alerts[id], now))))
    && (forall id :: id in after.alerts && id !in before.alerts ==>
          after.alerts[id].ruleKey == STALENESS_KEY && after.alerts[id].ruleKind == Staleness)
  }

  /** Nothing has been heard of the node for as long as it takes. */
  predicate Silent(cfg: Config, lastSeen: Time, now: Time) {
    lastSeen + cfg.staleAfter <= now
  }

  /** An alert as it is when a sweep has just opened it. */
  predicate SilenceAlert(cfg: Config, row: Alert, id: nat, node: NodeId, lastSeen: Time, now: Time) {
    && row.id == id && row.nodeId == node && row.ruleKey == STALENESS_KEY && row.ruleKind == Staleness
    && row.severity == Critical && row.status == Firing
    && row.triggeringValue == (now - lastSeen) as real && row.bound == cfg.staleAfter as real
    && row.firstFiredAt == row.lastFiredAt == now && row.resolvedAt.None?
    && row.acknowledgedAt.None? && row.acknowledgedBy.None? && row.escalatedAt.None? && row.remediatedAt.None?
  }

  lemma LeavesTransitive(a: Db, b: Db, c: Db, now: Time)
    requires LeavesOthers(a, b, now) && LeavesOthers(b, c, now)
    ensures LeavesOthers(a, c, now)
  {
  }

  /** The state after visiting one node. */
  ghost function After(cfg: Config, w: World, swept: bool, now: Time, node: NodeId, lastSeen: Time): World {
    SweepWrite(cfg, w, swept, now, node, lastSeen, FindOpen(w.db.alerts, node, STALENESS_KEY))
  }

  /** What visiting one node writes and tells: the alert of a node that has fallen silent, unless it is open or this is
      the first sweep; the end of the alert of one that is back; nothing else. */
  ghost predicate VisitedOne(cfg: Config, w: World, w': World, swept: bool, now: Time, node: NodeId, lastSeen: Time) {
    && Announces(w, w')
    && (if Silent(cfg, lastSeen, now) && swept && !Alarmed(w.db.alerts, node)
        then Raises(cfg, w.db, w'.db, now, node, lastSeen)
        else Clears(w.db, w'.db, now, node, !Silent(cfg, lastSeen, now)))
  }

  /** One new alert, for the node. */
  ghost predicate Raises(cfg: Config, a: Db, b: Db, now: Time, node: NodeId, lastSeen: Time) {
    && b == a.(alerts := b.alerts, nextAlert := a.nextAlert + 1)
    && b.alerts.Keys == a.alerts.Keys + {a.nextAlert}
    && SilenceAlert(cfg, b.alerts[a.nextAlert], a.nextAlert, node, lastSeen, now)
    && forall id :: id in a.alerts ==> b.alerts[id] == a.alerts[id]
  }

  /** The alert of the node ends if it is back; nothing else has changed. */
  ghost predicate Clears(a: Db, b: Db, now: Time, node: NodeId, back: bool) {
    && b == a.(alerts := b.alerts) && b.alerts.Keys == a.alerts.Keys
    && forall id :: id in a.alerts ==>
         b.alerts[id] == if back && IsOpen(a.alerts, id, node, STALENESS_KEY)
           then a.alerts[id].(status := Resolved, resolvedAt := Some(now)) else a.alerts[id]
  }

  lemma VisitMeans(cfg: Config, w: World, swept: bool, now: Time, node: NodeId, lastSeen: Time)
    requires DbOk(w.db)
    ensures VisitedOne(cfg, w, After(cfg, w, swept, now, node, lastSeen), swept, now, node, lastSeen)
  {
    var found := FindOpen(w.db.alerts, node, STALENESS_KEY);
    var w' := After(cfg, w, swept, now, node, lastSeen);
    if IsStale(cfg, now, lastSeen) && found.None? && swept {
      OpenAnnounces(w, StaleDraft(cfg, node, now, lastSeen));
    } else if !IsStale(cfg, now, lastSeen) && found.Some? {
      ResolveAnnounces(w, found.value, now);
      assert forall id :: IsOpen(w.db.alerts, id, node, STALENESS_KEY) ==> id == found.value;
    } else {
      NothingToTell(w, w');
    }
  }

  /** Rows of other nodes keep their place, so other nodes stay as alarmed as they were. */
  lemma OthersAlarmed(a: Alerts, b: Alerts, node: NodeId)
    requires forall id, other :: other != node ==>
               (IsOpen(b, id, other, STALENESS_KEY) <==> IsOpen(a, id, other, STALENESS_KEY))
    ensures forall other :: other != node ==> (Alarmed(b, other) <==> Alarmed(a, other))
  {
  }

  /** Raising the alert of a silent node. */
  lemma VisitOpens(cfg: Config, w: World, now: Time, node: NodeId, lastSeen: Time)
    requires DbOk(w.db) && FindOpen(w.db.alerts, node, STALENESS_KEY).None?
    ensures var db' := OpenAlert(w, StaleDraft(cfg, node, now, lastSeen)).db;
            && DbOk(db') && LeavesOthers(w.db, db', now) && Alarmed(db'.alerts, node)
            && (forall other :: other != node ==> (Alarmed(db'.alerts, other) <==> Alarmed(w.db.alerts, other)))
  {
    var db' := OpenAlert(w, StaleDraft(cfg, node, now, lastSeen)).db;
    CreateAlertOk(w.db, StaleDraft(cfg, node, now, lastSeen));
    assert IsOpen(db'.alerts, w.db.nextAlert, node, STALENESS_KEY);
    OthersAlarmed(w.db.alerts, db'.alerts, node);
  }

  /** Resolving the alert of a node that is back. */
  lemma VisitResolves(w: World, now: Time, node: NodeId, id: nat)
    requires DbOk(w.db) && IsOpen(w.db.alerts, id, node, STALENESS_KEY)
    ensures var db' := ResolveAlert(w, id, now).db;
            && DbOk(db') && LeavesOthers(w.db, db', now) && !Alarmed(db'.alerts, node)
            && (forall other :: other != node ==> (Alarmed(db'.alerts, other) <==> Alarmed(w.db.alerts, other)))
  {
    var db' := ResolveAlert(w, id, now).db;
    SetAlertOk(w.db, id, ResolvedRow(w.db.alerts[id], now));
    forall j ensures !IsOpen(db'.alerts, j, node, STALENESS_KEY) {
      assert IsOpen(db'.alerts, j, node, STALENESS_KEY) ==> IsOpen(w.db.alerts, j, node, STALENESS_KEY);
    }
    OthersAlarmed(w.db.alerts, db'.alerts, node);
  }

  /** What visiting one node does. */
  lemma VisitOne(cfg: Config, w: World, swept: bool, now: Time, node: NodeId, lastSeen: Time)
    requires DbOk(w.db)
    ensures var db' := After(cfg, w, swept, now, node, lastSeen).db;
            && DbOk(db') && LeavesOthers(w.db, db', now)
            && (Alarmed(db'.alerts, node) <==>
                  IsStale(cfg, now, lastSeen) && (swept || Alarmed(w.db.alerts, node)))
            && (forall other :: other != node ==> (Alarmed(db'.alerts, other) <==> Alarmed(w.db.alerts, other)))
  {
    var found := FindOpen(w.db.alerts, node, STALENESS_KEY);
    if IsStale(cfg, now, lastSeen) && found.None? && swept {
      VisitOpens(cfg, w, now, node, lastSeen);
    } else if !IsStale(cfg, now, lastSeen) && found.Some? {
      VisitResolves(w, now, node, found.value);
    }
  }

  /** The sweep has visited every node but those in `todo`. */
  ghost predicate SoFar(cfg: Config, before: Db, db: Db, todo: set<NodeId>, swept: bool, now: Time) {
    && DbOk(db) && LeavesOthers(before, db, now) && todo <= before.nodes.Keys
    && (forall node :: node in todo ==> (Alarmed(db.alerts, node) <==> Alarmed(before.alerts, node)))
    && (forall node :: node in before.nodes && node !in todo ==>
          (Alarmed(db.alerts, node) <==>
             IsStale(cfg, now, before.nodes[node].lastSeenAt) && (swept || Alarmed(before.alerts, node))))
  }

  lemma SoFarNext(cfg: Config, before: Db, w: World, todo: set<NodeId>, swept: bool, now: Time, node: NodeId)
    requires SoFar(cfg, before, w.db, todo, swept, now) && node in todo
    ensures SoFar(cfg, before, After(cfg, w, swept, now, node, before.nodes[node].lastSeenAt).db, todo - {node},
        swept, now)
  {
    var lastSeen := before.nodes[node].lastSeenAt;
    VisitOne(cfg, w, swept, now, node, lastSeen);
    LeavesTransitive(before, w.db, After(cfg, w, swept, now, node, lastSeen).db, now);
  }

  datatype SweepCounts = SweepCounts(stale: nat, raised: nat, resolved: nat)

  lemma CountVisit(all: set<NodeId>, todo: set<NodeId>, node: NodeId)
    requires node in todo
    ensures |all - (todo - {node})| == |all - todo| + (if node in all then 1 else 0)
  {
    if node in all {
      assert all - (todo - {node}) == (all - todo) + {node};
    } else {
      assert all - (todo - {node}) == all - todo;
    }
  }

  function Bit(b: bool): nat {
    if b then 1 else 0
  }

  /** One node more in the counts. */
  function CountOne(counts: SweepCounts, stale: bool, alarmed: bool, swept: bool): SweepCounts {
    SweepCounts(counts.stale + Bit(stale), counts.raised + Bit(stale && !alarmed && swept),
                counts.resolved + Bit(!stale && alarmed))
  }

  /** What has been counted when `todo` is left to visit. */
  ghost predicate Counted(cfg: Config, before: Db, todo: set<NodeId>, swept: bool, now: Time, counts: SweepCounts) {
    && counts.stale == |SilentNodes(cfg, before.nodes, now) - todo|
    && counts.raised == |ToOpen(cfg, before, swept, now) - todo|
    && counts.resolved == |ToResolve(cfg, before, now) - todo|
  }

  lemma CountedNext(cfg: Config, before: Db, alerts: Alerts, todo: set<NodeId>, swept: bool, now: Time, node: NodeId,
                    counts: SweepCounts)
    requires node in todo && todo <= before.nodes.Keys && (Alarmed(alerts, node) <==> Alarmed(before.alerts, node))
    requires Counted(cfg, before, todo, swept, now, counts)
    ensures var stale := IsStale(cfg, now, before.nodes[node].lastSeenAt);
            Counted(cfg, before, todo - {node}, swept, now,
                    CountOne(counts, stale, Alarmed(alerts, node), swept))
  {
    CountVisit(SilentNodes(cfg, before.nodes, now), todo, node);
    CountVisit(ToOpen(cfg, before, swept, now), todo, node);
    CountVisit(ToResolve(cfg, before, now), todo, node);
  }

  // ----- a whole sweep, in the order the nodes happen to be listed -----

  ghost predicate Listed(order: seq<NodeId>, nodes: set<NodeId>) {
    && (forall i :: 0 <= i < |order| ==> order[i] in nodes)
    && (forall i, j :: 0 <= i < j < |order| ==> order[i] != order[j])
  }

  function Unvisited(nodes: set<NodeId>, order: seq<NodeId>): set<NodeId> {
    if order == [] then nodes else Unvisited(nodes, order[..|order| - 1]) - {order[|order| - 1]}
  }

  ghost function Visited(cfg: Config, w: World, swept: bool, now: Time, order: seq<NodeId>): (w': World)
    requires DbOk(w.db) && Listed(order, w.db.nodes.Keys)
    ensures DbOk(w'.db)
  {
    if order == [] then
      w
    else
      var n := |order| - 1;
      var before := Visited(cfg, w, swept, now, order[..n]);
      VisitOne(cfg, before, swept, now, order[n], w.db.nodes[order[n]].lastSeenAt);
      After(cfg, before, swept, now, order[n], w.db.nodes[order[n]].lastSeenAt)
  }

  ghost function Tally(cfg: Config, w: World, swept: bool, now: Time, order: seq<NodeId>): SweepCounts
    requires DbOk(w.db) && Listed(order, w.db.nodes.Keys)
  {
    if order == [] then
      SweepCounts(0, 0, 0)
    else
      var n := |order| - 1;
      var counts := Tally(cfg, w, swept, now, order[..n]);
      var stale := IsStale(cfg, now, w.db.nodes[order[n]].lastSeenAt);
      var alarmed := Alarmed(Visited(cfg, w, swept, now, order[..n]).db.alerts, order[n]);
      CountOne(counts, stale, alarmed, swept)
  }

  /** Visiting one more node. */
  lemma VisitedNext(cfg: Config, w: World, swept: bool, now: Time, order: seq<NodeId>, node: NodeId)
    requires DbOk(w.db) && Listed(order, w.db.nodes.Keys) && node in Unvisited(w.db.nodes.Keys, order)
    ensures Listed(order + [node], w.db.nodes.Keys)
    ensures Unvisited(w.db.nodes.Keys, order + [node]) == Unvisited(w.db.nodes.Keys, order) - {node}
    ensures var before, lastSeen := Visited(cfg, w, swept, now, order), w.db.nodes[node].lastSeenAt;
            && Visited(cfg, w, swept, now, order + [node]) == After(cfg, before, swept, now, node, lastSeen)
            && Tally(cfg, w, swept, now, order + [node]) ==
               (var counts, stale, alarmed := Tally(cfg, w, swept, now, order), IsStale(cfg, now, lastSeen),
                                              Alarmed(before.db.alerts, node);
                CountOne(counts, stale, alarmed, swept))
  {
    UnvisitedMembers(w.db.nodes.Keys, order);
    assert (order + [node])[..|order|] == order;
  }

  lemma {:induction false} UnvisitedMembers(nodes: set<NodeId>, order: seq<NodeId>)
    requires Listed(order, nodes)
    ensures forall node :: node in Unvisited(nodes, order) <==> node in nodes && node !in order
  {
    if order != [] {
      UnvisitedMembers(nodes, order[..|order| - 1]);
    }
  }

  lemma {:induction false} VisitedSoFar(cfg: Config, w: World, swept: bool, now: Time, order: seq<NodeId>)
    requires DbOk(w.db) && Listed(order, w.db.nodes.Keys)
    ensures SoFar(cfg, w.db, Visited(cfg, w, swept, now, order).db, Unvisited(w.db.nodes.Keys, order), swept, now)
  {
    if order != [] {
      var n := |order| - 1;
      VisitedSoFar(cfg, w, swept, now, order[..n]);
      UnvisitedMembers(w.db.nodes.Keys, order[..n]);
      SoFarNext(cfg, w.db, Visited(cfg, w, swept, now, order[..n]), Unvisited(w.db.nodes.Keys, order[..n]),
                swept, now, order[n]);
    }
  }

  lemma NothingCounted(cfg: Config, db: Db, swept: bool, now: Time)
    ensures Counted(cfg, db, db.nodes.Keys, swept, now, SweepCounts(0, 0, 0))
  {
    assert SilentNodes(cfg, db.nodes, now) - db.nodes.Keys == {};
    assert ToOpen(cfg, db, swept, now) - db.nodes.Keys == {};
    assert ToResolve(cfg, db, now) - db.nodes.Keys == {};
  }

  /** The node visited last was still waiting, as alarmed as at the start. */
  lemma NextUnvisited(cfg: Config, w: World, swept: bool, now: Time, order: seq<NodeId>)
    requires DbOk(w.db) && Listed(order, w.db.nodes.Keys) && order != []
    ensures var n := |order| - 1;
            var before, todo := Visited(cfg, w, swept, now, order[..n]).db.alerts, Unvisited(w.db.nodes.Keys,
              order[..n]);
            order[n] in todo && todo <= w.db.nodes.Keys && (Alarmed(before, order[n]) <==> Alarmed(w.db.alerts,
              order[n]))
  {
    VisitedSoFar(cfg, w, swept, now, order[..|order| - 1]);
    UnvisitedMembers(w.db.nodes.Keys, order[..|order| - 1]);
  }

  lemma {:induction false} TallyCounted(cfg: Config, w: World, swept: bool, now: Time, order: seq<NodeId>)
    requires DbOk(w.db) && Listed(order, w.db.nodes.Keys)
    ensures Counted(cfg, w.db, Unvisited(w.db.nodes.Keys, order), swept, now, Tally(cfg, w, swept, now, order))
  {
    if order == [] {
      NothingCounted(cfg, w.db, swept, now);
    } else {
      var n := |order| - 1;
      TallyCounted(cfg, w, swept, now, order[..n]);
      var before, todo := Visited(cfg, w, swept, now, order[..n]).db.alerts, Unvisited(w.db.nodes.Keys, order[..n]);
      NextUnvisited(cfg, w, swept, now, order);
      CountedNext(cfg, w.db, before, todo, swept, now, order[n], Tally(cfg, w, swept, now, order[..n]));
    }
  }

  lemma TallyResult(cfg: Config, w: World, swept: bool, now: Time, order: seq<NodeId>)
    requires DbOk(w.db) && Listed(order, w.db.nodes.Keys) && Unvisited(w.db.nodes.Keys, order) == {}
    ensures Tally(cfg, w, swept, now, order)
         == SweepCounts(|SilentNodes(cfg, w.db.nodes, now)|, |ToOpen(cfg, w.db, swept, now)|, |ToResolve(cfg, w.db,
           now)|)
  {
    TallyCounted(cfg, w, swept, now, order);
    assert SilentNodes(cfg, w.db.nodes, now) - {} == SilentNodes(cfg, w.db.nodes, now);
    assert ToOpen(cfg, w.db, swept, now) - {} == ToOpen(cfg, w.db, swept, now);
    assert ToResolve(cfg, w.db, now) - {} == ToResolve(cfg, w.db, now);
  }

  /** Whatever order the nodes are listed in, a whole sweep leaves an open
      staleness alert exactly for the silent nodes (on the first sweep: for those
      that had one), and its counts are the sizes of the sets they count. */
  lemma SweepResult(cfg: Config, w: World, swept: bool, now: Time, order: seq<NodeId>)
    requires DbOk(w.db) && Listed(order, w.db.nodes.Keys) && Unvisited(w.db.nodes.Keys, order) == {}
    ensures var after := Visited(cfg, w, swept, now, order).db;
            && LeavesOthers(w.db, after, now)
            && forall node :: node in w.db.nodes ==>
                 (Alarmed(after.alerts, node) <==>
                    Silent(cfg, w.db.nodes[node].lastSeenAt, now) && (swept || Alarmed(w.db.alerts, node)))
    ensures var counts, nodes := Tally(cfg, w, swept, now, order), w.db.nodes;
            && counts.stale == |set node | node in nodes && Silent(cfg, nodes[node].lastSeenAt, now)|
            && counts.raised == |set node | node in nodes && Silent(cfg, nodes[node].lastSeenAt, now)
                                           && swept && !Alarmed(w.db.alerts, node)|
            && counts.resolved == |set node | node in nodes && !Silent(cfg, nodes[node].lastSeenAt, now)
                                             && Alarmed(w.db.alerts, node)|
  {
    VisitedSoFar(cfg, w, swept, now, order);
    TallyResult(cfg, w, swept, now, order);
    SilentSets(cfg, w.db, swept, now);
  }

  lemma SilentSets(cfg: Config, db: Db, swept: bool, now: Time)
    ensures SilentNodes(cfg, db.nodes, now) == set node | node in db.nodes
                                                        && Silent(cfg, db.nodes[node].lastSeenAt, now)
    ensures ToOpen(cfg, db, swept, now) == set node | node in db.nodes && Silent(cfg, db.nodes[node].lastSeenAt, now)
                                                     && swept && !Alarmed(db.alerts, node)
    ensures ToResolve(cfg, db, now) == set node | node in db.nodes && !Silent(cfg, db.nodes[node].lastSeenAt, now)
                                                 && Alarmed(db.alerts, node)
  {
  }

  // ----- what a whole sweep tells -----

  /** Rows the sweep has opened so far are of nodes it has visited. */
  ghost predicate OpenedAreVisited(before: Alerts, after: Alerts, order: seq<NodeId>) {
    forall id :: id in after && id !in before ==> after[id].nodeId in order
  }

  /** What has been told so far is what has happened so far. */
  ghost predicate ToldSoFar(w: World, w': World, counts: SweepCounts) {
    && |w.notices| <= |w'.notices| && w'.notices[..|w.notices|] == w.notices
    && |w'.notices| == |w.notices| + counts.raised + counts.resolved
    && forall notice :: notice in w'.notices[|w.notices|..] <==> Warrants(w.db.alerts, w'.db.alerts, notice)
  }

  lemma VisitTells(cfg: Config, w: World, swept: bool, now: Time, node: NodeId, lastSeen: Time)
    requires DbOk(w.db)
    ensures var w' := After(cfg, w, swept, now, node, lastSeen);
            var alarmed := Alarmed(w.db.alerts, node);
            |w'.notices| == |w.notices| + Bit(IsStale(cfg, now, lastSeen) && !alarmed && swept)
                            + Bit(!IsStale(cfg, now, lastSeen) && alarmed)
  {
    var found := FindOpen(w.db.alerts, node, STALENESS_KEY);
    assert Alarmed(w.db.alerts, node) <==> found.Some?;
  }

  predicate Ended(before: Alert, after: Alert, now: Time) {
    before.status == Firing && after == before.(status := Resolved, resolvedAt := Some(now))
  }

  /** Alerts of these nodes may have ended. */
  ghost predicate OnlyEnds(a: Alerts, b: Alerts, nodes: seq<NodeId>, now: Time) {
    forall id :: id in a ==> id in b && (b[id] == a[id] || (a[id].nodeId in nodes && Ended(a[id], b[id], now)))
  }

  /** A visit changes alerts of its own node only, which the visits before it have left alone. */
  lemma WarrantsAdd(a: Alerts, b: Alerts, c: Alerts, order: seq<NodeId>, node: NodeId, now: Time)
    requires OpenedAreVisited(a, b, order) && node !in order
    requires OnlyEnds(a, b, order, now) && OnlyEnds(b, c, [node], now)
    ensures forall notice :: Warrants(a, c, notice) <==> Warrants(a, b, notice) || Warrants(b, c, notice)
  {
  }

  lemma VisitEnds(cfg: Config, w: World, swept: bool, now: Time, node: NodeId, lastSeen: Time)
    requires DbOk(w.db)
    ensures var after := After(cfg, w, swept, now, node, lastSeen).db.alerts;
            OnlyEnds(w.db.alerts, after, [node], now) && OpenedAreVisited(w.db.alerts, after, [node])
  {
    VisitMeans(cfg, w, swept, now, node, lastSeen);
  }

  lemma EndsMore(a: Alerts, b: Alerts, c: Alerts, order: seq<NodeId>, node: NodeId, now: Time)
    requires OnlyEnds(a, b, order, now) && OpenedAreVisited(a, b, order) && node !in order
    requires OnlyEnds(b, c, [node], now) && OpenedAreVisited(b, c, [node])
    ensures OnlyEnds(a, c, order + [node], now) && OpenedAreVisited(a, c, order + [node])
  {
  }

  lemma ToldMore(cfg: Config, w: World, b: World, counts: SweepCounts, swept: bool, now: Time, order: seq<NodeId>,
      node: NodeId, lastSeen: Time)
    requires DbOk(b.db) && ToldSoFar(w, b, counts) && node !in order
    requires OnlyEnds(w.db.alerts, b.db.alerts, order, now) && OpenedAreVisited(w.db.alerts, b.db.alerts, order)
    ensures var c, stale, alarmed := After(cfg, b, swept, now, node, lastSeen), IsStale(cfg, now, lastSeen),
                                     Alarmed(b.db.alerts, node);
            ToldSoFar(w, c, CountOne(counts, stale, alarmed, swept))
  {
    var c := After(cfg, b, swept, now, node, lastSeen);
    VisitMeans(cfg, b, swept, now, node, lastSeen);
    VisitEnds(cfg, b, swept, now, node, lastSeen);
    VisitTells(cfg, b, swept, now, node, lastSeen);
    WarrantsAdd(w.db.alerts, b.db.alerts, c.db.alerts, order, node, now);
    assert c.notices == b.notices + c.notices[|b.notices|..];
    assert c.notices[|w.notices|..] == b.notices[|w.notices|..] + c.notices[|b.notices|..];
    assert c.notices[..|w.notices|] == b.notices[..|w.notices|];
  }

  /** Whatever the order, a sweep tells exactly what it does: one notification for every alert it opens and for every
      one it ends, with the row as written, and as many as it counts. */
  lemma {:induction false} SweepTells(cfg: Config, w: World, swept: bool, now: Time, order: seq<NodeId>)
    requires DbOk(w.db) && Listed(order, w.db.nodes.Keys)
    ensures var after := Visited(cfg, w, swept, now, order);
            && ToldSoFar(w, after, Tally(cfg, w, swept, now, order))
            && OnlyEnds(w.db.alerts, after.db.alerts, order, now)
            && OpenedAreVisited(w.db.alerts, after.db.alerts, order)
  {
    if order != [] {
      var n := |order| - 1;
      var before, lastSeen := Visited(cfg, w, swept, now, order[..n]), w.db.nodes[order[n]].lastSeenAt;
      SweepTells(cfg, w, swept, now, order[..n]);
      ToldMore(cfg, w, before, Tally(cfg, w, swept, now, order[..n]), swept, now, order[..n], order[n], lastSeen);
      VisitEnds(cfg, before, swept, now, order[n], lastSeen);
      EndsMore(w.db.alerts, before.db.alerts, After(cfg, before, swept, now, order[n], lastSeen).db.alerts,
        order[..n], order[n], now);
      assert order[..n] + [order[n]] == order;
    }
  }

  class StalenessJob {
    const cfg: Config
    const db: Database
    const notifier: Notifier
    const alerts: AlertRepository
    var firstRunDone: bool

    constructor (cfg: Config, db: Database, notifier: Notifier)
      ensures this.cfg == cfg && this.db == db && this.notifier == notifier && alerts.db == db && !firstRunDone
    {
      this.cfg := cfg;
      this.db := db;
      this.notifier := notifier;
      alerts := new AlertRepository(db);
      firstRunDone := false;
    }

    function View(): World
      reads db, notifier
    {
      World(db.View(), notifier.sent)
    }

    method Visit(ghost w: World, now: Time, node: NodeId, lastSeen: Time) returns (raised: bool, resolved: bool)
      requires alerts.db == db && View() == w && DbOk(w.db)
      modifies db, notifier
      ensures View() == After(cfg, w, firstRunDone, now, node, lastSeen)
      ensures raised <==> IsStale(cfg, now, lastSeen) && !Alarmed(w.db.alerts, node) && firstRunDone
      ensures resolved <==> !IsStale(cfg, now, lastSeen) && Alarmed(w.db.alerts, node)
    {
      raised, resolved := false, false;
      var open := alerts.FindOpenAlert(node, STALENESS_KEY);
      assert open.Some? ==> FindOpen(db.alerts, node, STALENESS_KEY) == Some(open.value.id);
      if IsStale(cfg, now, lastSeen) {
        if open.None? && firstRunDone {
          var row := alerts.CreateAlert(StaleDraft(cfg, node, now, lastSeen));
          raised := true;
          notifier.Notify(NotifyOpened(row));
        }
      } else if open.Some? {
        var row := alerts.ResolveAlert(open.value.id, now);
        resolved := true;
        notifier.Notify(NotifyResolved(row.value));
      }
    }

    /** A visit, and what it adds to the counts. */
    method VisitCounted(ghost w: World, now: Time, node: NodeId, lastSeen: Time, counts: SweepCounts)
      returns (next: SweepCounts)
      requires alerts.db == db && View() == w && DbOk(w.db)
      modifies db, notifier
      ensures View() == After(cfg, w, firstRunDone, now, node, lastSeen)
      ensures next == CountOne(counts, IsStale(cfg, now, lastSeen), Alarmed(w.db.alerts, node), firstRunDone)
    {
      var raised, resolved := Visit(w, now, node, lastSeen);
      next := SweepCounts(counts.stale + Bit(IsStale(cfg, now, lastSeen)), counts.raised + Bit(raised),
                          counts.resolved + Bit(resolved));
    }

    /** Visits every listed node once, in some order: SweepResult says what that comes to. */
    method Run(now: Time) returns (counts: SweepCounts, ghost order: seq<NodeId>)
      requires alerts.db == db && DbOk(db.View())
      modifies this, db, notifier
      ensures firstRunDone
      ensures Listed(order, old(db.nodes).Keys) && Unvisited(old(db.nodes).Keys, order) == {}
      ensures View() == Visited(cfg, old(View()), old(firstRunDone), now, order)
      ensures counts == Tally(cfg, old(View()), old(firstRunDone), now, order)
    {
      var lastSeen := LastSeenOf(db.nodes);
      var todo := lastSeen.Keys;
      ghost var w := View();
      counts, order := SweepCounts(0, 0, 0), [];
      while todo != {}
        invariant firstRunDone == old(firstRunDone)
        invariant Listed(order, w.db.nodes.Keys) && todo == Unvisited(w.db.nodes.Keys, order)
        invariant View() == Visited(cfg, w, firstRunDone, now, order)
        invariant counts == Tally(cfg, w, firstRunDone, now, order)
        decreases |todo|
      {
        var node :| node in todo;
        assert node in w.db.nodes by {
          UnvisitedMembers(w.db.nodes.Keys, order);
        }
        VisitedNext(cfg, w, firstRunDone, now, order, node);
        counts := VisitCounted(View(), now, node, lastSeen[node], counts);
        order, todo := order + [node], todo - {node};
      }
      firstRunDone := true;
    }
  }

  /** Every listed node has an open staleness alert exactly if it is silent. */
  ghost predicate Agrees(cfg: Config, db: Db, now: Time) {
    forall node :: node in db.nodes ==>
      (Alarmed(db.alerts, node) <==> IsStale(cfg, now, db.nodes[node].lastSeenAt))
  }

  lemma QuietVisit(cfg: Config, w: World, now: Time, node: NodeId)
    requires DbOk(w.db) && Agrees(cfg, w.db, now) && node in w.db.nodes
    ensures After(cfg, w, true, now, node, w.db.nodes[node].lastSeenAt) == w
  {
    var found := FindOpen(w.db.alerts, node, STALENESS_KEY);
    if IsStale(cfg, now, w.db.nodes[node].lastSeenAt) {
      var id :| IsOpen(w.db.alerts, id, node, STALENESS_KEY);
      assert found.Some?;
    } else {
      assert found.None?;
    }
  }

  lemma {:induction false} QuietSweep(cfg: Config, w: World, now: Time, order: seq<NodeId>)
    requires DbOk(w.db) && Agrees(cfg, w.db, now) && Listed(order, w.db.nodes.Keys)
    ensures Visited(cfg, w, true, now, order) == w
    ensures Tally(cfg, w, true, now, order).raised == Tally(cfg, w, true, now, order).resolved == 0
  {
    if order != [] {
      var n := |order| - 1;
      QuietSweep(cfg, w, now, order[..n]);
      QuietVisit(cfg, w, now, order[n]);
    }
  }

  /** A second sweep at the same instant, listing the nodes in any order, changes nothing, sends no notification and
      counts nothing opened and nothing resolved. */
  lemma RepeatIsQuiet(cfg: Config, w: World, now: Time, order: seq<NodeId>, again: seq<NodeId>)
    requires DbOk(w.db) && Listed(order, w.db.nodes.Keys) && Unvisited(w.db.nodes.Keys, order) == {}
    requires Listed(again, w.db.nodes.Keys)
    ensures var after := Visited(cfg, w, true, now, order);
            && after.db.nodes == w.db.nodes
            && Visited(cfg, after, true, now, again) == after
            && Tally(cfg, after, true, now, again).raised == Tally(cfg, after, true, now, again).resolved == 0
  {
    SweepResult(cfg, w, true, now, order);
    QuietSweep(cfg, Visited(cfg, w, true, now, order), now, again);
  }
}
