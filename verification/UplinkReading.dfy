/**
 The reading of the graph that stands behind every verdict on server uplinks: how many there are, which
 carry a snapshot, and over which ownership edges their ports lead back to a network device. The worker
 reads like this before it publishes, and anyone may read like this again afterwards.
 */
module UplinkReading {
  import opened Base
  import opened Graph
  import opened System
  import opened UplinkWorker

  datatype GraphReport = GraphReport(total: int, current: int, validEndpointCount: int)

  // A way from an uplink's server through its port to a device that owns the port.
  datatype Path = Path(uplink: RelationIdentity, ownership: RelationIdentity)

  function UplinksOf(g: Graph, sourceId: string): set<RelationIdentity> {
    set e | e in g.edges && e.sourceId == sourceId && e.kind == ServerUplink
  }

  function CurrentUplinks(g: Graph, sourceId: string, snapshotAt: Time): set<RelationIdentity> {
    set e | e in StampedEdges(g, sourceId, snapshotAt) && e.kind == ServerUplink
  }

  predicate Joins(sourceId: string, u: RelationIdentity) {
    && u.from.sourceId == sourceId && u.to.sourceId == sourceId
    && u.from.entityType == Device && u.to.entityType == Interface
  }

  function PathsOf(g: Graph, sourceId: string, snapshotAt: Time): set<Path> {
    set u, o | u in CurrentUplinks(g, sourceId, snapshotAt) && o in OwnersOf(g, u.from, u.to) && Joins(sourceId, u) ::
      Path(u, o)
  }

  predicate StampSound(g: Graph, u: RelationIdentity) {
    u in g.edges && g.edges[u].createdAt != ZERO_TIME && g.edges[u].createdAt <= g.edges[u].syncedAt
  }

  // A server at one end, a physical port at the other, owned by a network device of the source.
  predicate PathSound(g: Graph, sourceId: string, p: Path) {
    && p.uplink.from.stableId != "" && p.uplink.to.stableId != ""
    && p.ownership.from.stableId != "" && p.ownership.from.sourceId == sourceId
    && PropertyOf(g, p.ownership.from, "parent_type_id") == NETWORK_TYPE
    && PropertyOf(g, p.uplink.from, "parent_type_id") == SERVER_TYPE
    && PropertyOf(g, p.uplink.to, "port_type") == PHYSICAL_PORT
  }

  // ----- one moment -----

  predicate WellOwned(g: Graph, sourceId: string, u: RelationIdentity) {
    && Joins(sourceId, u)
    && |OwnersOf(g, u.from, u.to)| == 1
    && forall o | o in OwnersOf(g, u.from, u.to) :: PathSound(g, sourceId, Path(u, o))
  }

  // Exactly so many uplinks carry the snapshot, each created no later, each port with its one owner.
  predicate GraphPasses(g: Graph, sourceId: string, snapshotAt: Time, expected: int) {
    && |CurrentUplinks(g, sourceId, snapshotAt)| == expected
    && forall u | u in CurrentUplinks(g, sourceId, snapshotAt) :: StampSound(g, u) && WellOwned(g, sourceId, u)
  }

  // The uplink carries the snapshot.
  ghost predicate Carries(g: Graph, sourceId: string, snapshotAt: Time, u: RelationIdentity) {
    u in g.edges && u.kind == ServerUplink && u.sourceId == sourceId && g.edges[u].syncedAt == snapshotAt
  }

  /** An uplink of the source from a server to a physical port that one device owns, a network device of the
      source; created at an instant no later than its stamp. */
  ghost predicate UplinkSound(g: Graph, sourceId: string, u: RelationIdentity) {
    && u in g.edges && g.edges[u].createdAt != ZERO_TIME && g.edges[u].createdAt <= g.edges[u].syncedAt
    && u.from.sourceId == sourceId && u.from.entityType == Device && u.from.stableId != ""
    && u.to.sourceId == sourceId && u.to.entityType == Interface && u.to.stableId != ""
    && HasProperty(g, u.from, "parent_type_id", Integer(52)) && HasProperty(g, u.to, "port_type", Text("physics"))
    && exists owner :: OwnedOnlyBy(g, u.from, u.to, owner) && OwnerSound(g, sourceId, owner)
  }

  ghost predicate OwnerSound(g: Graph, sourceId: string, owner: RelationIdentity) {
    && owner.from.sourceId == sourceId && owner.from.stableId != ""
    && HasProperty(g, owner.from, "parent_type_id", Integer(54))
  }

  /** So many uplinks carry the snapshot, and every one of them is sound. */
  ghost predicate UplinksSound(g: Graph, sourceId: string, snapshotAt: Time, expected: int) {
    && |set u | u in g.edges && Carries(g, sourceId, snapshotAt, u)| == expected
    && forall u | Carries(g, sourceId, snapshotAt, u) :: UplinkSound(g, sourceId, u)
  }

  lemma SoundMeans(g: Graph, sourceId: string, u: RelationIdentity)
    ensures StampSound(g, u) && WellOwned(g, sourceId, u) <==> UplinkSound(g, sourceId, u)
  {
    PropertyMeans(g, u.from, "parent_type_id", Integer(52));
    PropertyMeans(g, u.to, "port_type", Text("physics"));
    OneOwnerMeans(g, u.from, u.to);
    hide OwnersOf, OwnedOnlyBy, PropertyOf, HasProperty;
    if owner :| OwnedOnlyBy(g, u.from, u.to, owner) {
      OwnersMean(g, u.from, u.to, owner);
      PropertyMeans(g, owner.from, "parent_type_id", Integer(54));
      forall other | OwnedOnlyBy(g, u.from, u.to, other) ensures other == owner {
        OwnersMean(g, u.from, u.to, other);
      }
      assert PathSound(g, sourceId, Path(u, owner)) <==>
        && u.from.stableId != "" && u.to.stableId != "" && OwnerSound(g, sourceId, owner)
        && HasProperty(g, u.from, "parent_type_id", Integer(52)) && HasProperty(g, u.to, "port_type", Text("physics"));
      hide PathSound, OwnerSound;
    }
  }

  lemma GraphPassesMeans(g: Graph, sourceId: string, snapshotAt: Time, expected: int)
    ensures GraphPasses(g, sourceId, snapshotAt, expected) <==> UplinksSound(g, sourceId, snapshotAt, expected)
  {
    hide StampSound, WellOwned, UplinkSound;
    assert CurrentUplinks(g, sourceId, snapshotAt) == set u | u in g.edges && Carries(g, sourceId, snapshotAt, u);
    forall u ensures u in CurrentUplinks(g, sourceId, snapshotAt) <==> Carries(g, sourceId, snapshotAt, u) {}
    hide CurrentUplinks, Carries;
    forall u { SoundMeans(g, sourceId, u); }
  }

  // What a reading at one moment reports; before any snapshot, only the number of uplinks.
  function ReadingOf(g: Graph, sourceId: string, snapshotAt: Time, expected: int): Option<GraphReport> {
    if snapshotAt == ZERO_TIME then Some(GraphReport(|UplinksOf(g, sourceId)|, 0, 0))
    else if GraphPasses(g, sourceId, snapshotAt, expected) then
      Some(GraphReport(|UplinksOf(g, sourceId)|, expected, expected))
    else None
  }

  // ----- three queries, each at its own moment -----

  ghost predicate OnlyPath(paths: set<Path>, p: Path) {
    p in paths && forall q | q in paths && q.uplink == p.uplink :: q == p
  }

  ghost predicate QueriesPass(counted: Graph, listed: Graph, joined: Graph, sourceId: string, snapshotAt: Time,
        expected: int) {
    var current, paths := CurrentUplinks(listed, sourceId, snapshotAt), PathsOf(joined, sourceId, snapshotAt);
    && |current| == expected <= |UplinksOf(counted, sourceId)|
    && (forall u | u in current :: StampSound(listed, u) && exists p: Path :: p.uplink == u && OnlyPath(paths, p))
    && (forall p | p in paths :: p.uplink in current && PathSound(joined, sourceId, p))
  }

  /** The three queries and the checks on their rows, in order. The result is exact: a report is made if and
      only if the queries agree as they should, and then it holds their counts. */
  method ReadGraph(counted: Graph, listed: Graph, joined: Graph, sourceId: string, snapshotAt: Time, expected: int)
    returns (report: Option<GraphReport>)
    ensures report.Some? <==>
              snapshotAt == ZERO_TIME || QueriesPass(counted, listed, joined, sourceId, snapshotAt, expected)
    ensures report.Some? ==>
              report.value.total == |UplinksOf(counted, sourceId)|
              && report.value.current == report.value.validEndpointCount
                 == (if snapshotAt == ZERO_TIME then 0 else expected)
  {
    hide UplinksOf, CurrentUplinks, PathsOf, PathSound;
    var total := |UplinksOf(counted, sourceId)|;
    if snapshotAt == ZERO_TIME { return Some(GraphReport(total, 0, 0)); }
    var current := CurrentUplinks(listed, sourceId, snapshotAt);
    if |current| != expected || total < |current| { return None; }
    var seen := CheckStamps(listed, current);
    if !seen { return None; }
    var paths := PathsOf(joined, sourceId, snapshotAt);
    var matched := MatchPaths(joined, sourceId, current, paths);
    if QueriesPass(counted, listed, joined, sourceId, snapshotAt, expected) {
      assert matched.Some? && matched.value == current;
    }
    if matched.None? || |matched.value| != expected { return None; }
    SameSize(matched.value, current);
    report := Some(GraphReport(total, |current|, |matched.value|));
  }

  method CheckStamps(listed: Graph, current: set<RelationIdentity>) returns (ok: bool)
    ensures ok <==> forall u | u in current :: StampSound(listed, u)
  {
    var rest := current;
    while rest != {}
      invariant rest <= current && forall u | u in current - rest :: StampSound(listed, u)
      decreases rest
    {
      var u :| u in rest;
      if !StampSound(listed, u) { return false; }
      rest := rest - {u};
    }
    ok := true;
  }

  ghost predicate PathFits(joined: Graph, sourceId: string, current: set<RelationIdentity>, paths: set<Path>, p: Path) {
    p.uplink in current && PathSound(joined, sourceId, p) && OnlyPath(paths, p)
  }

  // Every path once: it must belong to an uplink listed before and not yet matched.
  method MatchPaths(joined: Graph, sourceId: string, current: set<RelationIdentity>, paths: set<Path>)
    returns (matched: Option<set<RelationIdentity>>)
    ensures matched.Some? <==> forall p | p in paths :: PathFits(joined, sourceId, current, paths, p)
    ensures matched.Some? ==> matched.value == (set p | p in paths :: p.uplink) && matched.value <= current
  {
    hide PathSound;
    var found: set<RelationIdentity> := {};
    var rest := paths;
    while rest != {}
      invariant rest <= paths && found == (set p | p in paths - rest :: p.uplink) && found <= current
      invariant forall p | p in paths - rest :: PathSound(joined, sourceId, p) && OnlyPath(paths - rest, p)
      decreases rest
    {
      var p :| p in rest;
      if !PathSound(joined, sourceId, p) || p.uplink !in current || p.uplink in found {
        assert !PathFits(joined, sourceId, current, paths, p);
        return None;
      }
      found := found + {p.uplink};
      rest := rest - {p};
    }
    assert paths - rest == paths;
    matched := Some(found);
  }

  // When as many uplinks are matched as were listed, all of them are.
  lemma SameSize<T>(some: set<T>, all: set<T>)
    requires some <= all && |some| == |all|
    ensures some == all
  {
    assert all == some + (all - some);
  }

  // ----- the two agree -----

  lemma CurrentAmongAll(g: Graph, sourceId: string, snapshotAt: Time)
    ensures CurrentUplinks(g, sourceId, snapshotAt) <= UplinksOf(g, sourceId)
    ensures |CurrentUplinks(g, sourceId, snapshotAt)| <= |UplinksOf(g, sourceId)|
  {
    var some, all := CurrentUplinks(g, sourceId, snapshotAt), UplinksOf(g, sourceId);
    assert all == some + (all - some);
  }

  // Of an uplink that carries the snapshot, the query finds a path for each owner of its port.
  lemma PathMeans(g: Graph, sourceId: string, snapshotAt: Time, p: Path)
    ensures p in PathsOf(g, sourceId, snapshotAt) <==>
              && p.uplink in CurrentUplinks(g, sourceId, snapshotAt) && Joins(sourceId, p.uplink)
              && p.ownership in OwnersOf(g, p.uplink.from, p.uplink.to)
  {
    hide CurrentUplinks, OwnersOf;
  }

  lemma OnePathMeans(g: Graph, sourceId: string, snapshotAt: Time, u: RelationIdentity)
    requires u in CurrentUplinks(g, sourceId, snapshotAt)
    ensures (exists p: Path :: p.uplink == u && OnlyPath(PathsOf(g, sourceId, snapshotAt), p))
            <==> Joins(sourceId, u) && |OwnersOf(g, u.from, u.to)| == 1
  {
    hide CurrentUplinks, OwnersOf, PathsOf;
    var paths, owners := PathsOf(g, sourceId, snapshotAt), OwnersOf(g, u.from, u.to);
    forall p { PathMeans(g, sourceId, snapshotAt, p); }
    if p: Path :| p.uplink == u && OnlyPath(paths, p) {
      forall o | o in owners ensures o == p.ownership { assert Path(u, o) in paths; }
      assert owners == {p.ownership};
    }
    if Joins(sourceId, u) && |owners| == 1 {
      var o :| o in owners;
      SameSize({o}, owners);
      assert OnlyPath(paths, Path(u, o));
    }
  }

  /** At one moment the three queries pass exactly when the graph does. */
  lemma QueriesAtOneMoment(g: Graph, sourceId: string, snapshotAt: Time, expected: int)
    ensures QueriesPass(g, g, g, sourceId, snapshotAt, expected) <==> GraphPasses(g, sourceId, snapshotAt, expected)
    ensures QueriesPass(g, g, g, sourceId, snapshotAt, expected) <==> UplinksSound(g, sourceId, snapshotAt, expected)
  {
    GraphPassesMeans(g, sourceId, snapshotAt, expected);
    hide UplinksSound;
    hide CurrentUplinks, UplinksOf, PathsOf, PathSound, OwnersOf, OnlyPath, StampSound, Joins;
    CurrentAmongAll(g, sourceId, snapshotAt);
    forall u | u in CurrentUplinks(g, sourceId, snapshotAt) { OnePathMeans(g, sourceId, snapshotAt, u); }
    forall p { PathMeans(g, sourceId, snapshotAt, p); }
    if QueriesPass(g, g, g, sourceId, snapshotAt, expected) {
      forall u, o | u in CurrentUplinks(g, sourceId, snapshotAt) && o in OwnersOf(g, u.from, u.to)
        ensures PathSound(g, sourceId, Path(u, o))
      {
        assert Path(u, o) in PathsOf(g, sourceId, snapshotAt);
      }
    }
  }

  /** Queries made one after the other, while no uplink gained or lost the snapshot, say that the graph
      passes at the last of their moments. */
  lemma QueriesInSequence(counted: Graph, listed: Graph, joined: Graph, sourceId: string, snapshotAt: Time,
        expected: int)
    requires QueriesPass(counted, listed, joined, sourceId, snapshotAt, expected)
    requires StampedEdges(joined, sourceId, snapshotAt) == StampedEdges(listed, sourceId, snapshotAt)
    ensures GraphPasses(joined, sourceId, snapshotAt, expected)
    ensures UplinksSound(joined, sourceId, snapshotAt, expected)
  {
    GraphPassesMeans(joined, sourceId, snapshotAt, expected);
    hide UplinksSound;
    hide PathsOf, PathSound, OwnersOf, OnlyPath, Joins, UplinksOf, StampedEdges;
    var current := CurrentUplinks(joined, sourceId, snapshotAt);
    assert current == CurrentUplinks(listed, sourceId, snapshotAt);
    forall p { PathMeans(joined, sourceId, snapshotAt, p); }
    forall u | u in current ensures StampSound(joined, u) && WellOwned(joined, sourceId, u) {
      OnePathMeans(joined, sourceId, snapshotAt, u);
      SameStamp(listed, joined, sourceId, snapshotAt, u);
      forall o | o in OwnersOf(joined, u.from, u.to) ensures PathSound(joined, sourceId, Path(u, o)) {
        assert Path(u, o) in PathsOf(joined, sourceId, snapshotAt);
      }
    }
  }

  lemma SameStamp(g: Graph, h: Graph, sourceId: string, snapshotAt: Time, u: RelationIdentity)
    requires StampedEdges(g, sourceId, snapshotAt) == StampedEdges(h, sourceId, snapshotAt)
    requires u in CurrentUplinks(g, sourceId, snapshotAt)
    ensures StampSound(g, u) <==> StampSound(h, u)
  {
    assert StampedEdges(g, sourceId, snapshotAt)[u] == StampedEdges(h, sourceId, snapshotAt)[u];
  }

  // ----- reading again -----

  predicate SameProperty(before: Graph, after: Graph, v: Identity, name: string) {
    PropertyOf(after, v, name) == PropertyOf(before, v, name)
  }

  // No other ownership has come into the uplink's port, and nothing that classifies its ends has changed.
  predicate Unmoved(before: Graph, after: Graph, u: RelationIdentity) {
    && OwnersOf(after, u.from, u.to) <= OwnersOf(before, u.from, u.to)
    && SameProperty(before, after, u.from, "parent_type_id") && SameProperty(before, after, u.to, "port_type")
    && forall o | o in OwnersOf(before, u.from, u.to) :: SameProperty(before, after, o.from, "parent_type_id")
  }

  predicate Undisturbed(before: Graph, after: Graph, uplinks: set<RelationIdentity>) {
    forall u | u in uplinks :: Unmoved(before, after, u)
  }

  // Owners once found are found again: their edges stay, and so do the vertices those edges need.
  lemma OwnersStay(before: Graph, after: Graph, u: RelationIdentity)
    requires Keeps(before, after) && u in before.edges
    ensures OwnersOf(before, u.from, u.to) <= OwnersOf(after, u.from, u.to)
  {
    forall o | o in OwnersOf(before, u.from, u.to) ensures o in OwnersOf(after, u.from, u.to) {
      assert Incident(before, o.from) && Incident(before, u.from) && Incident(before, u.to);
    }
  }

  lemma WellOwnedAgain(before: Graph, after: Graph, sourceId: string, u: RelationIdentity)
    requires Keeps(before, after) && u in before.edges && WellOwned(before, sourceId, u)
    ensures WellOwned(after, sourceId, u) <==> Unmoved(before, after, u)
  {
    hide OwnersOf, PropertyOf, Keeps, Joins;
    var was, now := OwnersOf(before, u.from, u.to), OwnersOf(after, u.from, u.to);
    OwnersStay(before, after, u);
    if now <= was || |now| == 1 {
      if |now| == 1 { SameSize(was, now); }
      assert now == was;
      var o :| o in was;
      SameSize({o}, was);
      assert PathSound(before, sourceId, Path(u, o));
    }
  }

  /** The graph passes again, later, exactly if every uplink then counted still carries the snapshot, no other
      ownership has come into its port, and the ends and the owner are classified as they were. */
  lemma PassesAgain(before: Graph, after: Graph, sourceId: string, snapshotAt: Time, uplinks: set<RelationIdentity>)
    requires GraphPasses(before, sourceId, snapshotAt, |uplinks|) && Keeps(before, after)
    requires CurrentUplinks(before, sourceId, snapshotAt) == uplinks
    requires forall u | u in CurrentUplinks(after, sourceId, snapshotAt) ::
               u in uplinks && u in before.edges && u in after.edges && after.edges[u] == before.edges[u]
    ensures GraphPasses(after, sourceId, snapshotAt, |uplinks|) <==>
              uplinks <= CurrentUplinks(after, sourceId, snapshotAt) && Undisturbed(before, after, uplinks)
  {
    hide WellOwned, Unmoved, Keeps;
    var now := CurrentUplinks(after, sourceId, snapshotAt);
    assert forall u | u in uplinks :: u in before.edges;
    hide CurrentUplinks;
    if |now| == |uplinks| { SameSize(now, uplinks); }
    if uplinks <= now { assert now == uplinks; }
    forall u | u in uplinks ensures WellOwned(after, sourceId, u) <==> Unmoved(before, after, u) {
      WellOwnedAgain(before, after, sourceId, u);
    }
  }
}
