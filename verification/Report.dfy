/**
 The independent check of a finished run: what it reads back from the two tables and the graph,
 and why a run the worker completed always passes it.
 */
module Report {
  import opened Base
  import opened Control
  import opened Graph
  import opened System
  import opened Text
  import opened Pages
  import opened Digest
  import opened Session
  import opened Worker

  datatype Sample = Sample(vertex: Identity, stableId: string, createdAt: Time, syncedAt: Time)

  const SAMPLE_LIMIT := 5

  // The vertex identifier is derived from the identity, which must be complete.
  function Vid(sourceId: string, entity: EntityType, stableId: string): Option<Identity> {
    if sourceId == "" || stableId == "" then None else Some(Identity(sourceId, entity, stableId))
  }

  predicate RunAgrees(sourceId: string, runId: string, run: SyncRun, checkpoint: Checkpoint) {
    && run.sourceId == sourceId && run.status == Succeeded
    && run.startedAt.Some? && run.finishedAt.Some? && run.leaseExpiresAt.None?
    && run.finishedAt.value >= run.startedAt.value
    && checkpoint.complete && checkpoint.completedAt.Some?
    && checkpoint.cursor.version == CURSOR_VERSION && checkpoint.cursor.runId == runId
    && checkpoint.cursor.snapshotAt == run.startedAt.value
    && checkpoint.cursor.total >= 0 && checkpoint.cursor.nextOffset == checkpoint.cursor.total
  }

  predicate CountsAgree(checkpoint: Checkpoint, total: int, current: int, rows: int) {
    current == checkpoint.cursor.total && total >= current && rows == current
  }

  predicate SampleOk(sourceId: string, entity: EntityType, snapshotAt: Time, row: Sample) {
    && Clean(row.stableId) && row.createdAt != ZERO_TIME
    && row.createdAt <= row.syncedAt && row.syncedAt == snapshotAt
    && Vid(sourceId, entity, row.stableId) == Some(row.vertex)
  }

  // A row of a complete identity, its own vertex, created before it was last stamped, and stamped by the run.
  ghost predicate RowSound(sourceId: string, entity: EntityType, snapshotAt: Time, row: Sample) {
    && sourceId != "" && row.stableId != ""
    && !IsSpace(row.stableId[0]) && !IsSpace(row.stableId[|row.stableId| - 1])
    && row.vertex == Identity(sourceId, entity, row.stableId)
    && row.createdAt != ZERO_TIME && row.createdAt <= snapshotAt && row.syncedAt == snapshotAt
  }

  ghost predicate RowsSound(sourceId: string, entity: EntityType, snapshotAt: Time, rows: seq<Sample>) {
    && (forall i | 0 <= i < |rows| :: RowSound(sourceId, entity, snapshotAt, rows[i]))
    && (forall i, j | 0 <= i < j < |rows| :: rows[i].vertex != rows[j].vertex)
  }

  lemma SampleMeans(sourceId: string, entity: EntityType, snapshotAt: Time, row: Sample)
    ensures SampleOk(sourceId, entity, snapshotAt, row) <==> RowSound(sourceId, entity, snapshotAt, row)
  {
    CleanMeans(row.stableId);
    hide Clean;
  }

  /** What a verification reads, and its verdict. */
  class PersistenceReport {
    const sourceId: string
    const entity: EntityType
    const runId: string
    const run: Option<SyncRun>
    const checkpoint: Option<Checkpoint>
    const graphTotal: int
    const graphCurrent: int
    var status: string
    var objectsPresent: bool
    var samples: seq<Sample>

    constructor (sourceId: string, entity: EntityType, runId: string, run: Option<SyncRun>,
          checkpoint: Option<Checkpoint>, graphTotal: int, graphCurrent: int)
      ensures this.sourceId == sourceId && this.entity == entity && this.runId == runId
      ensures this.run == run && this.checkpoint == checkpoint
      ensures this.graphTotal == graphTotal && this.graphCurrent == graphCurrent
      ensures status == "preflight"
    {
      this.sourceId, this.entity, this.runId, this.run, this.checkpoint := sourceId, entity, runId, run, checkpoint;
      this.graphTotal, this.graphCurrent := graphTotal, graphCurrent;
      status, objectsPresent, samples := "preflight", false, [];
    }

    /** The run succeeded and gave up its lease, its checkpoint was completed at the end of its own cursor, and the
        graph holds one sound row for each thing the cursor counts. */
    ghost predicate Passes(rows: seq<Sample>) {
      && run.Some? && checkpoint.Some?
      && var (r, c) := (run.value, checkpoint.value);
      && r.sourceId == sourceId && r.status == Succeeded && r.leaseExpiresAt == None
      && r.startedAt == Some(c.cursor.snapshotAt)
      && (exists finished :: r.finishedAt == Some(finished) && finished >= c.cursor.snapshotAt)
      && c.complete && c.completedAt != None && c.cursor.version == 1 && c.cursor.runId == runId
      && c.cursor.nextOffset == c.cursor.total == |rows| == graphCurrent && graphTotal >= graphCurrent
      && RowsSound(sourceId, entity, c.cursor.snapshotAt, rows)
    }

    method Validate(rows: seq<Sample>) returns (ok: bool)
      modifies this
      ensures ok <==> Passes(rows)
      ensures ok ==> status == "PASS" && objectsPresent == (rows != []) && samples <= rows && |samples| <= SAMPLE_LIMIT
      ensures ok ==> |samples| == SAMPLE_LIMIT || samples == rows
      ensures !ok ==> status == old(status) && objectsPresent == old(objectsPresent) && samples == old(samples)
    {
      if run.None? || checkpoint.None? { return false; }
      if !RunAgrees(sourceId, runId, run.value, checkpoint.value) { return false; }
      if !CountsAgree(checkpoint.value, graphTotal, graphCurrent, |rows|) { return false; }
      var snapshotAt := checkpoint.value.cursor.snapshotAt;
      var seen: set<Identity> := {};
      for i := 0 to |rows|
        invariant unchanged(this)
        invariant RowsSound(sourceId, entity, snapshotAt, rows[..i])
        invariant forall v :: v in seen <==> exists k | 0 <= k < i :: rows[k].vertex == v
      {
        assert rows[..i + 1] == rows[..i] + [rows[i]];
        SampleMeans(sourceId, entity, snapshotAt, rows[i]);
        if rows[i].vertex in seen || !SampleOk(sourceId, entity, snapshotAt, rows[i]) {
          assert !RowsSound(sourceId, entity, snapshotAt, rows);
          return false;
        }
        seen := seen + {rows[i].vertex};
      }
      assert rows[..|rows|] == rows;
      status := "PASS";
      objectsPresent := graphCurrent > 0;
      samples := if |rows| > SAMPLE_LIMIT then rows[..SAMPLE_LIMIT] else rows;
      ok := true;
    }
  }

  // ----- what the queries return -----

  function VerticesOf(g: Graph, sourceId: string, entity: EntityType): set<Identity> {
    set v | v in g.vertices && v.sourceId == sourceId && v.entityType == entity
  }

  function CurrentOf(g: Graph, sourceId: string, entity: EntityType, snapshotAt: Time): set<Identity> {
    set v | v in g.vertices && v.sourceId == sourceId && v.entityType == entity && g.vertices[v].syncedAt == snapshotAt
  }

  function SampleOf(g: Graph, v: Identity): Sample
    requires v in g.vertices
  {
    Sample(v, v.stableId, g.vertices[v].createdAt, g.vertices[v].syncedAt)
  }

  // The rows of the snapshot query, in whatever order the graph returns them.
  ghost predicate Reading(g: Graph, sourceId: string, entity: EntityType, snapshotAt: Time, rows: seq<Sample>) {
    && (forall i | 0 <= i < |rows| ::
          && rows[i].vertex in CurrentOf(g, sourceId, entity, snapshotAt)
          && rows[i] == SampleOf(g, rows[i].vertex))
    && (forall i, j | 0 <= i < j < |rows| :: rows[i].vertex != rows[j].vertex)
    && |rows| == |CurrentOf(g, sourceId, entity, snapshotAt)|
  }

  lemma {:induction false} MappedSize(g: Graph, x: Session, identities: set<string>)
    ensures |set s | s in identities :: VertexOf(x, s)| == |identities|
    decreases |identities|
  {
    if identities != {} {
      var s :| s in identities;
      MappedSize(g, x, identities - {s});
      assert (set t | t in identities :: VertexOf(x, t)) == (set t | t in identities - {s} :: VertexOf(x, t)) +
          {VertexOf(x, s)};
    }
  }

  // The stamped vertices are those of the pass, and number as many as its records.
  lemma CurrentIsThePass(sys: Sys, x: Session, pass: seq<EntityRecord>)
    requires Covers(sys.graph, x, Identities(pass)) && DistinctIdentities(pass)
    ensures CurrentOf(sys.graph, x.key.sourceId, x.entity, x.snapshot) == set s | s in Identities(pass) ::
              VertexOf(x, s)
    ensures |CurrentOf(sys.graph, x.key.sourceId, x.entity, x.snapshot)| == |pass|
  {
    var current := CurrentOf(sys.graph, x.key.sourceId, x.entity, x.snapshot);
    forall v ensures v in current <==> v in set s | s in Identities(pass) :: VertexOf(x, s) {
      assert v == VertexOf(x, v.stableId) || v.sourceId != x.key.sourceId || v.entityType != x.entity;
    }
    MappedSize(sys.graph, x, Identities(pass));
    IdentityCount(pass);
  }

  lemma SubsetSize<T>(a: set<T>, b: set<T>)
    requires a <= b
    ensures |a| <= |b|
  {
    assert b == a + (b - a);
  }

  /** Every run the worker completed passes the check, in whatever order the rows come back. */
  lemma SucceededRunPasses(sys: Sys, x: Session, pass: seq<EntityRecord>, second: seq<EntityRecord>,
        report: PersistenceReport, rows: seq<Sample>)
    requires Success(sys, x, pass, second)
    requires report.sourceId == x.key.sourceId && report.entity == x.entity && report.runId == x.runId
    requires report.run == Some(sys.store.runs[x.runId]) && report.checkpoint == Some(sys.store.checkpoints[x.key])
    requires report.graphTotal == |VerticesOf(sys.graph, x.key.sourceId, x.entity)|
    requires report.graphCurrent == |CurrentOf(sys.graph, x.key.sourceId, x.entity, x.snapshot)|
    requires Reading(sys.graph, x.key.sourceId, x.entity, x.snapshot, rows)
    ensures report.Passes(rows)
  {
    hide PassStored;
    CurrentIsThePass(sys, x, pass);
    SubsetSize(CurrentOf(sys.graph, x.key.sourceId, x.entity, x.snapshot),
        VerticesOf(sys.graph, x.key.sourceId, x.entity));
    forall i | 0 <= i < |rows| ensures RowSound(x.key.sourceId, x.entity, x.snapshot, rows[i]) {
      var v := rows[i].vertex;
      assert RowStamped(sys.store, v.sourceId, sys.graph.vertices[v]);
      var k :| 0 <= k < |pass| && pass[k].identity == v.stableId;
      CleanMeans(v.stableId);
    }
  }

  /** A succeeded run's snapshot: the vertices stamped with it are exactly the first pass, as many as the
      checkpoint's total; and when no identity or owner hides a NUL, exactly the second pass as well. */
  lemma SnapshotIsExact(sys: Sys, x: Session, pass: seq<EntityRecord>, second: seq<EntityRecord>)
    requires Success(sys, x, pass, second)
    ensures forall s :: VertexOf(x, s) in CurrentOf(sys.graph, x.key.sourceId, x.entity, x.snapshot) <==>
              s in Identities(pass)
    ensures |CurrentOf(sys.graph, x.key.sourceId, x.entity, x.snapshot)| ==
              sys.store.checkpoints[x.key].cursor.total == |pass| == |second|
    ensures AllEncodable(pass, x.entity) && AllEncodable(second, x.entity) ==>
              SameRecords(pass, second) && Identities(second) == Identities(pass)
  {
    CurrentIsThePass(sys, x, pass);
    forall s
      ensures VertexOf(x, s) in CurrentOf(sys.graph, x.key.sourceId, x.entity, x.snapshot) <==>
          s in Identities(pass)
    {
      assert VertexOf(x, s) in StampedVertices(sys.graph, x.key.sourceId, x.snapshot) <==> s in Identities(pass);
    }
    if AllEncodable(pass, x.entity) && AllEncodable(second, x.entity) {
      StreamDecodes(pass, second, x.entity);
      SameIdentities(pass, second);
    }
  }
}
