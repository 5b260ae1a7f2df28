/**
 How the check of a server uplink run that succeeded can nevertheless fail: a worker whose run is over, but
 who is still writing, brings a second owner into one of the counted ports. Nothing fences that write. Shown
 for every finished run with an edge, and on one concrete system.
 */
module StaleOwner {
  import opened Base
  import opened Control
  import opened ControlInvariants
  import opened Graph
  import opened System
  import opened Session
  import opened AfterRun
  import opened UplinkReading
  import opened UplinkRun
  import UplinkWorker

  // The check made at the very moment of completion.

  /** At the moment of completion the graph carries as many current uplinks as the checkpoint counts, of at
      least as many in all, and a fresh check fails only for what was disturbed since the graph was read back. */
  lemma CheckAtCompletion(settled: Sys, x: Session, readBack: Graph, written: set<RelationIdentity>)
    requires UplinkFinished(settled, x, readBack, written)
    ensures x.key in settled.store.checkpoints
    ensures |CurrentUplinks(settled.graph, x.key.sourceId, x.snapshot)| == settled.store.checkpoints[x.key].cursor.total
              <= |UplinksOf(settled.graph, x.key.sourceId)|
    ensures CheckPasses(settled, x.key.sourceId, x.runId) <==> Undisturbed(readBack, settled.graph, written)
  {
    hide SysInv, GraphPasses, Keeps, Undisturbed, CheckPasses, EnvApply, EnvOk, HasSucceeded;
    assert EnvExec(settled, []) == settled && EnvStepsOk(x.runId, settled, []);
    FreshCheckPasses(settled, [], x, readBack, written);
    CurrentIsWritten(settled.graph, x, written);
    CurrentAmongAll(settled.graph, x.key.sourceId, x.snapshot);
    assert forall e | e in written :: e in StampedEdges(settled.graph, x.key.sourceId, x.snapshot);
  }

  // A write that brings an ownership edge from some stored device into the uplink's port, where it was not yet.
  ghost predicate OwnershipWrite(sys: Sys, e: EnvStep, u: RelationIdentity) {
    && e.EnvEdge? && e.relation !in sys.graph.edges
    && e.relation.kind == OwnsInterface && e.relation.sourceId == u.sourceId && e.relation.to == u.to
    && e.relation.from.entityType == Device && e.relation.from in sys.graph.vertices
  }

  /** Any such write on behalf of any other run of the source, however long over, is open to its worker, and
      after it the check fails. */
  lemma StaleOwnershipFailsCheck(settled: Sys, x: Session, readBack: Graph, written: set<RelationIdentity>,
        u: RelationIdentity, e: EnvStep)
    requires UplinkFinished(settled, x, readBack, written) && u in written
    requires OwnershipWrite(settled, e, u) && e.q != x.runId && Writes(settled.store, e.q, u.sourceId, e.row)
    ensures EnvOk(x.runId, settled, e) && !CheckPasses(EnvApply(settled, e), x.key.sourceId, x.runId)
  {
    hide Held, HasSucceeded, ReadFrom, AllUplinks, CheckPasses, Writes;
    FreshCheckPasses(settled, [e], x, readBack, written);
    FinishedUplink(settled, x, readBack, written, u);
    SecondOwnerHere(settled, readBack, u, e);
    assert !Unmoved(readBack, EnvApply(settled, e).graph, u);
  }

  lemma FinishedUplink(settled: Sys, x: Session, readBack: Graph, written: set<RelationIdentity>, u: RelationIdentity)
    requires AllUplinks(written) && ReadFrom(readBack, settled.graph, x, written) && u in written
    ensures u in readBack.edges && Keeps(readBack, settled.graph) && u.from.sourceId == u.sourceId
    ensures |UplinkWorker.OwnersOf(readBack, u.from, u.to)| == 1
  {
    hide Keeps, PathSound, UplinkWorker.OwnersOf;
    CurrentIsWritten(readBack, x, written);
    assert u in StampedEdges(readBack, x.key.sourceId, x.snapshot) && WellOwned(readBack, x.key.sourceId, u);
  }

  lemma SecondOwnerHere(sys: Sys, readBack: Graph, u: RelationIdentity, e: EnvStep)
    requires u in readBack.edges && Keeps(readBack, sys.graph) && u.from.sourceId == u.sourceId
    requires OwnershipWrite(sys, e, u) && |UplinkWorker.OwnersOf(readBack, u.from, u.to)| == 1
    ensures !(UplinkWorker.OwnersOf(EnvApply(sys, e).graph, u.from, u.to) <= UplinkWorker.OwnersOf(readBack, u.from,
              u.to))
  {
    var after := EnvApply(sys, e).graph;
    OwnersStay(readBack, sys.graph, u);
    var o :| o in UplinkWorker.OwnersOf(readBack, u.from, u.to);
    assert o in UplinkWorker.OwnersOf(sys.graph, u.from, u.to);
    assert e.relation in UplinkWorker.OwnersOf(after, u.from, u.to);
    assert e.relation !in readBack.edges;
  }

  // ----- one system -----

  const SERVER := Identity("s", Device, "v")
  const SWITCH := Identity("s", Device, "t")
  const OTHER_SWITCH := Identity("s", Device, "u")
  const PORT := Identity("s", Interface, "p")

  const OWNERSHIP := RelationIdentity("s", OwnsInterface, SWITCH, PORT)
  const SECOND_OWNERSHIP := RelationIdentity("s", OwnsInterface, OTHER_SWITCH, PORT)
  const UPLINK := RelationIdentity("s", ServerUplink, SERVER, PORT)

  // The older run, "a", failed; the newer, "b", is the uplink run that succeeded.
  const OLD_RUN := SyncRun("s", Failed, "h", "k", None, 1, Some(2), Some(3), "graph_write_failed", None)
  const UPLINK_SYNC := SyncRun("s", Succeeded, "i", "l", None, 4, Some(5), Some(6), "", None)
  const EXAMPLE := Session("b", Key("s", UPLINK_RESOURCE), Device, 5, map[])

  const EXAMPLE_STORE := Store(
    map["s" := Source("cmdb", "c", true)], map["a" := OLD_RUN, "b" := UPLINK_SYNC],
    map[Key("s", UPLINK_RESOURCE) := Checkpoint(Cursor(CURSOR_VERSION, "b", 1, 0, 0, 5, 1), true, Some(6), 6)])

  function DeviceRow(typeId: int): Row {
    Row(map["parent_type_id" := Integer(typeId)], 2, 2)
  }

  const EXAMPLE_GRAPH := Graph(
    map[SERVER := DeviceRow(52), SWITCH := DeviceRow(54), OTHER_SWITCH := DeviceRow(54),
        PORT := Row(map["port_type" := Text("physics")], 2, 2)],
    map[OWNERSHIP := Row(map[], 2, 2), UPLINK := Row(map[], 5, 5)])

  const EXAMPLE_SYSTEM := Sys(EXAMPLE_STORE, EXAMPLE_GRAPH)

  // The worker of the failed run, still writing.
  const STALE_WRITE := EnvEdge("a", SECOND_OWNERSHIP, Row(map[], 2, 2), true)

  /** Of this finished uplink run the check passes, and after one write by the older run's worker it fails. */
  lemma CheckFailsAfterStaleWrite()
    ensures EnvOk("b", EXAMPLE_SYSTEM, STALE_WRITE) && CheckPasses(EXAMPLE_SYSTEM, "s", "b")
    ensures !CheckPasses(EnvApply(EXAMPLE_SYSTEM, STALE_WRITE), "s", "b")
  {
    hide UplinkFinished, CheckPasses, Undisturbed, EnvOk, EnvApply, OwnershipWrite, Writes;
    ExampleFinished();
    ExampleSteady();
    ExampleWrite();
    CheckAtCompletion(EXAMPLE_SYSTEM, EXAMPLE, EXAMPLE_GRAPH, {UPLINK});
    StaleOwnershipFailsCheck(EXAMPLE_SYSTEM, EXAMPLE, EXAMPLE_GRAPH, {UPLINK}, UPLINK, STALE_WRITE);
  }

  lemma ExampleSteady()
    ensures Undisturbed(EXAMPLE_GRAPH, EXAMPLE_GRAPH, {UPLINK})
  {
  }

  lemma ExampleWrite()
    ensures OwnershipWrite(EXAMPLE_SYSTEM, STALE_WRITE, UPLINK) && STALE_WRITE.q != EXAMPLE.runId
    ensures Writes(EXAMPLE_STORE, STALE_WRITE.q, UPLINK.sourceId, STALE_WRITE.row)
  {
  }

  lemma ExampleFinished()
    ensures UplinkFinished(EXAMPLE_SYSTEM, EXAMPLE, EXAMPLE_GRAPH, {UPLINK})
  {
    hide SysInv, ReadFrom;
    ExampleInv();
    ExampleReads();
    assert EXAMPLE_STORE.runs["b"] == UPLINK_SYNC;
  }

  lemma ExampleInv()
    ensures SysInv(EXAMPLE_SYSTEM)
  {
    ExampleRuns();
    ExampleCheckpoint();
    ExampleClaims();
    ExampleStamps();
    hide RowOk, OneActive, KeysUnique, CheckpointRowOk, ClaimOrder, GraphOk;
  }

  lemma ExampleRuns()
    ensures forall id | id in EXAMPLE_STORE.runs :: RowOk(EXAMPLE_STORE.runs[id])
    ensures OneActive(EXAMPLE_STORE.runs) && KeysUnique(EXAMPLE_STORE.runs)
  {
    assert RowOk(OLD_RUN) && RowOk(UPLINK_SYNC);
    hide RowOk;
  }

  lemma ExampleCheckpoint()
    ensures forall key | key in EXAMPLE_STORE.checkpoints :: CheckpointRowOk(EXAMPLE_STORE, key)
  {
    assert EXAMPLE_STORE.runs["b"] == UPLINK_SYNC;
  }

  lemma ExampleClaims()
    ensures ClaimOrder(EXAMPLE_STORE)
  {
    assert EXAMPLE_STORE.runs.Keys == {"a", "b"};
    assert EXAMPLE_STORE.runs["a"] == OLD_RUN && EXAMPLE_STORE.runs["b"] == UPLINK_SYNC;
  }

  lemma ExampleStamps()
    ensures GraphOk(EXAMPLE_STORE, EXAMPLE_GRAPH)
  {
    assert EXAMPLE_STORE.runs["a"] == OLD_RUN && EXAMPLE_STORE.runs["b"] == UPLINK_SYNC;
    assert ClaimedAt(EXAMPLE_STORE, "s", 2) && ClaimedAt(EXAMPLE_STORE, "s", 5);
    hide ClaimedAt;
  }

  lemma ExampleReads()
    ensures ReadFrom(EXAMPLE_GRAPH, EXAMPLE_GRAPH, EXAMPLE, {UPLINK})
  {
    hide GraphPasses, Keeps;
    KeepsItself(EXAMPLE_GRAPH);
    ExampleStamped();
    ExamplePasses();
  }

  lemma ExampleStamped()
    ensures StampedEdges(EXAMPLE_GRAPH, "s", 5).Keys == {UPLINK}
  {
  }

  lemma ExamplePasses()
    ensures GraphPasses(EXAMPLE_GRAPH, "s", 5, 1)
  {
    hide StampedEdges;
    ExampleStamped();
    assert CurrentUplinks(EXAMPLE_GRAPH, "s", 5) == {UPLINK};
    ExampleOwner();
  }

  lemma ExampleOwner()
    ensures StampSound(EXAMPLE_GRAPH, UPLINK) && WellOwned(EXAMPLE_GRAPH, "s", UPLINK)
  {
    assert UplinkWorker.OwnersOf(EXAMPLE_GRAPH, SERVER, PORT) == {OWNERSHIP};
  }
}
