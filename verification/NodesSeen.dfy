/** The node registry over whole runs: when each node was first and last heard of. */
module NodesSeen {
  import opened Model
  import opened Tables
  import opened Rules
  import opened Alerting
  import opened Machine

  /** The node and the moment an event says it was alive at: a heartbeat, or a payload that is let in. */
  function Sighting(s: System, e: Event): Option<(NodeId, Time)> {
    match e
    case Heartbeat(node, at) => Some((node, at))
    case Receive(p, _) => if s.request.Idle? then Some((p.nodeId, p.collectedAt)) else None
    case _ => None
  }

  /** The moments at which a node has been heard of, in the order in which it was. */
  ghost function Sightings(cfg: Config, es: seq<Event>, node: NodeId): seq<Time> {
    if es == [] then []
    else
      var n := |es| - 1;
      var seen := Sighting(Run(cfg, INITIAL, es[..n]), es[n]);
      Sightings(cfg, es[..n], node) + (if seen.Some? && seen.value.0 == node then [seen.value.1] else [])
  }

  /** Nothing but a sighting touches the registry. */
  lemma RegistryStep(cfg: Config, s: System, e: Event)
    ensures var seen, a, b := Sighting(s, e), s.world.db.nodes, Step(cfg, s, e).world.db.nodes;
            match seen
            case None => b == a
            case Some((node, at)) =>
              && b.Keys == a.Keys + {node} && b[node].lastSeenAt == at
              && b[node].firstSeenAt == (if node in a then a[node].firstSeenAt else at)
              && forall other :: other in a && other != node ==> b[other] == a[other]
  {
    if e.Proceed? {
      ProceedLeavesRegistry(cfg, s);
    } else if IsJob(e) {
      JobLeavesRegistry(cfg, s, e);
    } else if IsCall(e) {
      CallLeavesRegistry(cfg, s, e);
    }
  }

  lemma ProceedLeavesRegistry(cfg: Config, s: System)
    ensures ProceedStep(cfg, s).world.db.nodes == s.world.db.nodes
  {
    if s.request.CheckingCooldown? || s.request.CheckingRate? || s.request.Recording? {
      assert DecideStep(cfg, s).world.db.nodes == s.world.db.nodes;
    }
  }

  lemma JobLeavesRegistry(cfg: Config, s: System, e: Event)
    ensures JobStep(cfg, s, e).world.db.nodes == s.world.db.nodes
  {
  }

  lemma CallLeavesRegistry(cfg: Config, s: System, e: Event)
    requires IsCall(e)
    ensures Step(cfg, s, e).world.db.nodes == s.world.db.nodes
  {
  }

  /** Over any run the registry holds exactly the nodes that were ever heard of, each with the first moment it was and
      the last, in the order of arrival, whatever the moments are. */
  lemma {:induction false} RegistryIsFirstAndLast(cfg: Config, es: seq<Event>, node: NodeId)
    ensures var nodes, seen := Run(cfg, INITIAL, es).world.db.nodes, Sightings(cfg, es, node);
            && (node in nodes <==> seen != [])
            && (node in nodes ==> nodes[node] == Node(seen[0], seen[|seen| - 1]))
  {
    if es != [] {
      var n := |es| - 1;
      RegistryIsFirstAndLast(cfg, es[..n], node);
      RegistryStep(cfg, Run(cfg, INITIAL, es[..n]), es[n]);
    }
  }
}
