/**
 What the worker of one run knows about the system between its own statements. Every fact is
 conditional on the run still holding its lease, because another process may end the run at
 any moment; each is shown to survive whatever the other actors do meanwhile.
 */
module Session {
  import opened Base
  import opened Control
  import opened ControlInvariants
  import opened Graph
  import opened System
  import opened Pages

  datatype Session = Session(
    runId: string, key: Key, entity: EntityType, snapshot: Time, schemas: map<EntityType, Schema>)

  // The run exists, belongs to the session's source and was claimed at its snapshot.
  ghost predicate Held(sys: Sys, x: Session) {
    && SysInv(sys)
    && Claimed(sys.store, x.runId)
    && sys.store.runs[x.runId].sourceId == x.key.sourceId
    && sys.store.runs[x.runId].startedAt == Some(x.snapshot)
  }

  ghost predicate HasLease(sys: Sys, x: Session) {
    x.runId in sys.store.runs && Leased(sys.store.runs[x.runId].status)
  }

  ghost predicate HasSucceeded(sys: Sys, x: Session) {
    x.runId in sys.store.runs && sys.store.runs[x.runId].status == Succeeded
  }

  // The run is asked to stop, which no other actor takes back.
  ghost predicate Asked(sys: Sys, x: Session) {
    && x.runId in sys.store.runs
    && (sys.store.runs[x.runId].status == Canceled || sys.store.runs[x.runId].cancelRequestedAt.Some?)
  }

  // Straight after the claim: nothing yet carries this run's snapshot, and no checkpoint is its own.
  ghost predicate Untouched(sys: Sys, x: Session) {
    HasLease(sys, x) ==>
      && sys.store.runs[x.runId].status == Running
      && StampedVertices(sys.graph, x.key.sourceId, x.snapshot) == map[]
      && StampedEdges(sys.graph, x.key.sourceId, x.snapshot) == map[]
      && (forall key | key in sys.store.checkpoints && key.sourceId == x.key.sourceId ::
            sys.store.checkpoints[key].cursor.runId != x.runId)
  }

  function VertexOf(x: Session, identity: string): Identity {
    Identity(x.key.sourceId, x.entity, identity)
  }

  function OwnershipOf(x: Session, record: EntityRecord): RelationIdentity {
    RelationIdentity(x.key.sourceId, OwnsInterface,
      Identity(x.key.sourceId, Device, record.ownerDeviceSn), VertexOf(x, record.identity))
  }

  // The ownership edges a pass calls for: one per record, for interfaces only.
  function Ownerships(x: Session, pass: seq<EntityRecord>): set<RelationIdentity> {
    if x.entity == Interface then set i | 0 <= i < |pass| :: OwnershipOf(x, pass[i]) else {}
  }

  lemma OwnershipsOfSum(x: Session, a: seq<EntityRecord>, b: seq<EntityRecord>)
    ensures Ownerships(x, a + b) == Ownerships(x, a) + Ownerships(x, b)
  {
    if x.entity == Interface {
      forall i | 0 <= i < |a| ensures OwnershipOf(x, a[i]) in Ownerships(x, a + b) { assert (a + b)[i] == a[i]; }
      forall i | 0 <= i < |b| ensures OwnershipOf(x, b[i]) in Ownerships(x, a + b) { assert (a + b)[|a| + i] == b[i]; }
    }
  }

  lemma OwnershipsOfOne(x: Session, record: EntityRecord)
    ensures Ownerships(x, [record]) == if x.entity == Interface then {OwnershipOf(x, record)} else {}
  {
    assert x.entity == Interface ==> OwnershipOf(x, [record][0]) in Ownerships(x, [record]);
  }

  // The graph carries the session's snapshot on exactly these identities.
  ghost predicate Covers(g: Graph, x: Session, identities: set<string>) {
    forall s :: VertexOf(x, s) in StampedVertices(g, x.key.sourceId, x.snapshot) <==> s in identities
  }

  // The record's vertex carries the session's snapshot and the record's own properties.
  ghost predicate Shows(g: Graph, x: Session, record: EntityRecord) {
    var v := Identity(x.key.sourceId, x.entity, record.identity);
    && v in g.vertices && g.vertices[v].syncedAt == x.snapshot && x.entity in x.schemas
    && ShowsRecord(x.schemas[x.entity], record.properties, g.vertices[v].properties)
  }

  function RecordsIn(pass: seq<EntityRecord>): set<EntityRecord> {
    set record | record in pass
  }

  function IdentitiesOf(records: set<EntityRecord>): set<string> {
    set record | record in records :: record.identity
  }

  lemma RecordsInSum(a: seq<EntityRecord>, b: seq<EntityRecord>)
    ensures RecordsIn(a + b) == RecordsIn(a) + RecordsIn(b)
  {
  }

  lemma IdentitiesOfRecords(pass: seq<EntityRecord>)
    ensures IdentitiesOf(RecordsIn(pass)) == Identities(pass)
  {
    forall s | s in Identities(pass) ensures s in IdentitiesOf(RecordsIn(pass)) {
      var i :| 0 <= i < |pass| && pass[i].identity == s;
      assert pass[i] in RecordsIn(pass);
    }
  }

  // No other record among these has the record's identity.
  ghost predicate NewTo(record: EntityRecord, records: set<EntityRecord>) {
    forall r | r in records && r.identity == record.identity :: r == record
  }

  ghost predicate AtCursor(s: Store, x: Session, status: Status, cursor: Cursor) {
    && x.runId in s.runs && s.runs[x.runId].status == status
    && x.key in s.checkpoints
    && s.checkpoints[x.key].cursor == cursor && !s.checkpoints[x.key].complete
  }

  // The checkpoint stands at the cursor, the graph carries the snapshot on exactly the vertices of these records
  // and at least on these ownership edges, and each vertex shows its record.
  ghost predicate Collected(sys: Sys, x: Session, status: Status, cursor: Cursor, records: set<EntityRecord>,
        owners: set<RelationIdentity>) {
    HasLease(sys, x) ==>
      && AtCursor(sys.store, x, status, cursor)
      && Covers(sys.graph, x, IdentitiesOf(records))
      && (forall record | record in records :: Shows(sys.graph, x, record))
      && owners <= StampedEdges(sys.graph, x.key.sourceId, x.snapshot).Keys
  }

  // ----- stability -----

  lemma CheckpointStable(a: Sys, b: Sys, key: Key)
    requires SourceCheckpoints(b.store, key.sourceId) == SourceCheckpoints(a.store, key.sourceId)
    ensures key in a.store.checkpoints <==> key in b.store.checkpoints
    ensures key in a.store.checkpoints ==> b.store.checkpoints[key] == a.store.checkpoints[key]
  {
    assert key in SourceCheckpoints(a.store, key.sourceId) <==> key in SourceCheckpoints(b.store, key.sourceId);
    assert key in SourceCheckpoints(a.store, key.sourceId) ==>
      SourceCheckpoints(a.store, key.sourceId)[key] == SourceCheckpoints(b.store, key.sourceId)[key];
  }

  lemma UntouchedStable(a: Sys, b: Sys, x: Session)
    requires Held(a, x) && Untouched(a, x) && SysInv(b) && Rely(x.runId, a, b)
    ensures Untouched(b, x)
  {
    if HasLease(b, x) {
      forall key | key in b.store.checkpoints && key.sourceId == x.key.sourceId
        ensures b.store.checkpoints[key].cursor.runId != x.runId
      {
        CheckpointStable(a, b, key);
      }
    }
  }

  lemma CollectedStable(a: Sys, b: Sys, x: Session, status: Status, cursor: Cursor,
        records: set<EntityRecord>, owners: set<RelationIdentity>)
    requires Held(a, x) && Collected(a, x, status, cursor, records, owners) && SysInv(b) && Rely(x.runId, a, b)
    ensures Collected(b, x, status, cursor, records, owners)
  {
    if HasLease(b, x) {
      CheckpointStable(a, b, x.key);
      hide SysInv, Shows;
      CollectedCarries(a, b, x, status, cursor, records, owners);
    }
  }

  // What was collected stands as long as the checkpoint and everything with the snapshot stand.
  lemma CollectedCarries(a: Sys, b: Sys, x: Session, status: Status, cursor: Cursor,
        records: set<EntityRecord>, owners: set<RelationIdentity>)
    requires HasLease(a, x) && Collected(a, x, status, cursor, records, owners) && AtCursor(b.store, x, status, cursor)
    requires StampedVertices(b.graph, x.key.sourceId, x.snapshot)
          == StampedVertices(a.graph, x.key.sourceId, x.snapshot)
    requires StampedEdges(b.graph, x.key.sourceId, x.snapshot) == StampedEdges(a.graph, x.key.sourceId, x.snapshot)
    ensures Collected(b, x, status, cursor, records, owners)
  {
    hide StampedVertices, StampedEdges, Shows;
    forall record | record in records ensures Shows(b.graph, x, record) { ShowsStable(a.graph, b.graph, x, record); }
  }

  lemma ShowsStable(a: Graph, b: Graph, x: Session, record: EntityRecord)
    requires Shows(a, x, record)
    requires StampedVertices(b, x.key.sourceId, x.snapshot) == StampedVertices(a, x.key.sourceId, x.snapshot)
    ensures Shows(b, x, record)
  {
    var v := VertexOf(x, record.identity);
    assert v in StampedVertices(a, x.key.sourceId, x.snapshot);
    assert v in StampedVertices(b, x.key.sourceId, x.snapshot);
    assert StampedVertices(b, x.key.sourceId, x.snapshot)[v] == StampedVertices(a, x.key.sourceId, x.snapshot)[v];
  }

  // The edges that carry this run's snapshot.
  function OwnEdges(sys: Sys, x: Session): map<RelationIdentity, Row> {
    StampedEdges(sys.graph, x.key.sourceId, x.snapshot)
  }

  // What a session keeps while others take steps.
  ghost predicate Since(a: Sys, b: Sys, x: Session) {
    && Held(b, x)
    && (HasLease(b, x) ==> HasLease(a, x))
    && (HasSucceeded(b, x) <==> HasSucceeded(a, x))
    && (Asked(a, x) ==> Asked(b, x))
    && (Untouched(a, x) ==> Untouched(b, x))
    && Keeps(a.graph, b.graph)
    && (HasLease(b, x) ==> OwnEdges(b, x) == OwnEdges(a, x))
    && (forall status, cursor, records, owners ::
          Collected(a, x, status, cursor, records, owners) ==> Collected(b, x, status, cursor, records, owners))
  }

  lemma SinceItself(a: Sys, x: Session)
    requires Held(a, x)
    ensures Since(a, a, x)
  {
  }

  lemma SinceTransitive(a: Sys, b: Sys, c: Sys, x: Session)
    requires Since(a, b, x) && Since(b, c, x)
    ensures Since(a, c, x)
  {
    hide Keeps;
    KeepsTransitive(a.graph, b.graph, c.graph);
  }

  lemma SinceEnvStep(a: Sys, x: Session, e: EnvStep)
    requires Held(a, x) && EnvOk(x.runId, a, e)
    ensures Since(a, EnvApply(a, e), x)
  {
    var b := EnvApply(a, e);
    EnvStepRely(x.runId, a, e);
    if Untouched(a, x) { UntouchedStable(a, b, x); }
    hide SysInv, Collected, Untouched;
    forall status, cursor, records, owners | Collected(a, x, status, cursor, records, owners)
      ensures Collected(b, x, status, cursor, records, owners)
    {
      CollectedStable(a, b, x, status, cursor, records, owners);
    }
  }

  // Nobody deletes edges, so a vertex that kept one at a cleanup keeps it: every orphan seen later is a later arrival.
  ghost predicate OrphansAreNew(before: Graph, after: Graph, x: Session) {
    Orphans(after, x.key.sourceId, x.entity, x.snapshot) !! before.vertices.Keys
  }

  lemma NoOldOrphans(a: Sys, b: Sys, x: Session, identities: set<string>)
    requires Held(a, x) && HasLease(a, x)
    requires Covers(a.graph, x, identities) && Covers(b.graph, x, identities)
    requires Orphans(a.graph, x.key.sourceId, x.entity, x.snapshot) == {} && a.graph.edges.Keys <= b.graph.edges.Keys
    ensures OrphansAreNew(a.graph, b.graph, x)
  {
    StampsBounded(a, x);
    forall v | v in Orphans(b.graph, x.key.sourceId, x.entity, x.snapshot) ensures v !in a.graph.vertices {
      assert v == VertexOf(x, v.stableId);
      if v in a.graph.vertices {
        assert VertexOf(x, v.stableId) !in StampedVertices(b.graph, x.key.sourceId, x.snapshot);
        assert VertexOf(x, v.stableId) !in StampedVertices(a.graph, x.key.sourceId, x.snapshot);
        assert v !in Orphans(a.graph, x.key.sourceId, x.entity, x.snapshot);
        assert Incident(a.graph, v);
        assert Incident(b.graph, v);
        assert false;
      }
    }
  }

  // ----- the claim starts a session -----

  lemma NothingStampedYet(sys: Sys, sourceId: string, at: Time)
    requires GraphOk(sys.store, sys.graph)
    requires forall q | q in sys.store.runs && sys.store.runs[q].sourceId == sourceId ::
              sys.store.runs[q].startedAt != Some(at)
    ensures StampedVertices(sys.graph, sourceId, at) == map[] && StampedEdges(sys.graph, sourceId, at) == map[]
  {
  }

  lemma NoCheckpointYet(s: Store, id: string)
    requires Inv(s) && id in s.runs && s.runs[id].startedAt.None?
    ensures forall key | key in s.checkpoints :: s.checkpoints[key].cursor.runId != id
  {
  }

  /** A successful claim at a fresh instant leaves nothing stamped with it and no checkpoint naming the run. */
  lemma ClaimStartsSession(sys: Sys, at: Time, only: Option<string>, pick: string, x: Session)
    requires SysInv(sys) && ClaimFresh(sys.store, ClaimStep(at, only, pick))
    requires Claim(sys.store, at, only, pick).1 == Ok(pick)
    requires x.runId == pick && x.snapshot == at && pick in sys.store.runs
    requires x.key.sourceId == sys.store.runs[pick].sourceId
    ensures var after := sys.(store := Claim(sys.store, at, only, pick).0);
            Held(after, x) && HasLease(after, x) && Untouched(after, x)
  {
    ControlStepKeepsSysInv(sys, ClaimStep(at, only, pick));
    assert RowOk(sys.store.runs[pick]);
    assert Inv(sys.store) && GraphOk(sys.store, sys.graph);
    hide Inv, SysInv, GraphOk, StampedVertices, StampedEdges;
    NothingStampedYet(sys, x.key.sourceId, at);
    NoCheckpointYet(sys.store, pick);
  }

  // ----- the worker's own writes -----

  lemma ClaimsBounded(sys: Sys, x: Session, t: Time)
    requires Held(sys, x) && HasLease(sys, x) && ClaimedAt(sys.store, x.key.sourceId, t)
    ensures t <= x.snapshot
  {
    var q :| q in sys.store.runs && sys.store.runs[q].sourceId == x.key.sourceId
        && sys.store.runs[q].startedAt == Some(t);
    if q != x.runId { OtherStampsAreOlder(sys.store, x.runId, q); }
  }

  // While the run has its lease, no stored stamp of the source is newer than its snapshot.
  lemma StampsBounded(sys: Sys, x: Session)
    requires Held(sys, x) && HasLease(sys, x)
    ensures forall v | v in sys.graph.vertices && v.sourceId == x.key.sourceId ::
              sys.graph.vertices[v].syncedAt <= x.snapshot
    ensures forall e | e in sys.graph.edges && e.sourceId == x.key.sourceId :: sys.graph.edges[e].syncedAt <= x.snapshot
  {
    forall v | v in sys.graph.vertices && v.sourceId == x.key.sourceId
      ensures sys.graph.vertices[v].syncedAt <= x.snapshot
    {
      assert RowStamped(sys.store, v.sourceId, sys.graph.vertices[v]);
      ClaimsBounded(sys, x, sys.graph.vertices[v].syncedAt);
    }
    forall e | e in sys.graph.edges && e.sourceId == x.key.sourceId
      ensures sys.graph.edges[e].syncedAt <= x.snapshot
    {
      assert RowStamped(sys.store, e.sourceId, sys.graph.edges[e]);
      ClaimsBounded(sys, x, sys.graph.edges[e].syncedAt);
    }
  }

  lemma OwnUpsertStamps<K>(rows: map<K, Row>, key: K, row: Row, t: Time, k: K)
    requires row.syncedAt == t && (key in rows ==> rows[key].syncedAt <= t)
    ensures (k in Upsert(rows, key, row) && Upsert(rows, key, row)[k].syncedAt == t)
            <==> k == key || (k in rows && rows[k].syncedAt == t)
  {
  }

  lemma OwnVertexCovers(sys: Sys, x: Session, identity: string, row: Row, identities: set<string>)
    requires Held(sys, x) && HasLease(sys, x) && row.syncedAt == x.snapshot
    requires Covers(sys.graph, x, identities)
    ensures Covers(sys.graph.(vertices := Upsert(sys.graph.vertices, VertexOf(x, identity), row)), x,
              identities + {identity})
  {
    StampsBounded(sys, x);
    var v := VertexOf(x, identity);
    var after := sys.graph.(vertices := Upsert(sys.graph.vertices, v, row));
    forall s
      ensures VertexOf(x, s) in StampedVertices(after, x.key.sourceId, x.snapshot) <==>
          s in identities + {identity}
    {
      OwnUpsertStamps(sys.graph.vertices, v, row, x.snapshot, VertexOf(x, s));
      assert VertexOf(x, s) in StampedVertices(sys.graph, x.key.sourceId, x.snapshot) <==> s in identities;
    }
  }

  // The row is one the record's vertex may be written with.
  ghost predicate RowOf(x: Session, record: EntityRecord, row: Row) {
    && row.syncedAt == x.snapshot && row.createdAt == x.snapshot && x.entity in x.schemas
    && row.properties.Keys == x.schemas[x.entity].Keys
    && ShowsRecord(x.schemas[x.entity], record.properties, row.properties)
  }

  lemma OwnVertexShows(sys: Sys, x: Session, record: EntityRecord, row: Row, other: EntityRecord)
    requires Held(sys, x) && HasLease(sys, x) && RowOf(x, record, row)
    requires other == record || (other.identity != record.identity && Shows(sys.graph, x, other))
    ensures Shows(sys.graph.(vertices := Upsert(sys.graph.vertices, VertexOf(x, record.identity), row)), x, other)
  {
    hide SysInv, ShowsRecord;
    StampsBounded(sys, x);
    var v := VertexOf(x, record.identity);
    UpsertMeans(sys.graph.vertices, v, row);
    if other == record {
      UpsertShows(sys.graph.vertices, v, row, x.schemas[x.entity], record.properties);
    }
  }

  lemma OwnVertexCollected(sys: Sys, x: Session, record: EntityRecord, row: Row, status: Status, cursor: Cursor,
        records: set<EntityRecord>, owners: set<RelationIdentity>)
    requires Held(sys, x) && RowOf(x, record, row) && NewTo(record, records)
    requires Collected(sys, x, status, cursor, records, owners)
    ensures var vertices := Upsert(sys.graph.vertices, VertexOf(x, record.identity), row);
            Collected(sys.(graph := sys.graph.(vertices := vertices)), x, status, cursor, records + {record}, owners)
  {
    hide SysInv, Upsert, Covers, Shows, StampedVertices;
    if HasLease(sys, x) {
      OwnVertexCovers(sys, x, record.identity, row, IdentitiesOf(records));
      assert IdentitiesOf(records + {record}) == IdentitiesOf(records) + {record.identity} by {
        assert record in records + {record};
      }
      var after := sys.graph.(vertices := Upsert(sys.graph.vertices, VertexOf(x, record.identity), row));
      forall r | r in records + {record} ensures Shows(after, x, r) { OwnVertexShows(sys, x, record, row, r); }
    }
  }

  /** A vertex this worker upserts carries its snapshot and shows its record afterwards; no other vertex of its
      records changes. */
  lemma OwnVertex(sys: Sys, x: Session, record: EntityRecord, row: Row, whole: bool)
    requires Held(sys, x) && RowOf(x, record, row)
    ensures var after := sys.(graph := sys.graph.(vertices := Put(sys.graph.vertices, VertexOf(x, record.identity), row,
              whole)));
            && Held(after, x)
            && (HasSucceeded(after, x) <==> HasSucceeded(sys, x))
            && (whole ==> forall status, cursor, records, owners ::
                  Collected(sys, x, status, cursor, records, owners) && NewTo(record, records) ==>
                  Collected(after, x, status, cursor, records + {record}, owners))
  {
    VertexWriteKeepsSysInv(sys, x.runId, VertexOf(x, record.identity), row, whole);
    hide Collected;
    if whole {
      forall status, cursor, records, owners |
           Collected(sys, x, status, cursor, records, owners) && NewTo(record, records)
        ensures var vertices := Upsert(sys.graph.vertices, VertexOf(x, record.identity), row);
                Collected(sys.(graph := sys.graph.(vertices := vertices)), x, status, cursor, records + {record},
                  owners)
      {
        OwnVertexCollected(sys, x, record, row, status, cursor, records, owners);
      }
    }
  }

  lemma OwnEdge(sys: Sys, x: Session, relation: RelationIdentity, row: Row, whole: bool)
    requires Held(sys, x) && row.syncedAt == x.snapshot && row.createdAt == x.snapshot
    requires relation.sourceId == x.key.sourceId
    ensures var after := sys.(graph := sys.graph.(edges := Put(sys.graph.edges, relation, row, whole)));
            && Held(after, x)
            && (HasSucceeded(after, x) <==> HasSucceeded(sys, x))
            && (whole ==> forall status, cursor, records, owners ::
                  Collected(sys, x, status, cursor, records, owners) ==>
                  Collected(after, x, status, cursor, records, owners + {relation}))
            && (HasLease(after, x) <==> HasLease(sys, x))
            && (whole && HasLease(sys, x) ==> OwnEdges(after, x).Keys == OwnEdges(sys, x).Keys + {relation})
  {
    hide SysInv;
    EdgeWriteKeepsSysInv(sys, x.runId, relation, row, whole);
    if whole && HasLease(sys, x) { OwnEdgeStamps(sys, x, relation, row); }
  }

  lemma OwnEdgeStamps(sys: Sys, x: Session, relation: RelationIdentity, row: Row)
    requires Held(sys, x) && HasLease(sys, x) && row.syncedAt == x.snapshot && relation.sourceId == x.key.sourceId
    ensures var after := sys.graph.(edges := Upsert(sys.graph.edges, relation, row));
            StampedEdges(after, x.key.sourceId, x.snapshot).Keys ==
                StampedEdges(sys.graph, x.key.sourceId, x.snapshot).Keys + {relation}
  {
    StampsBounded(sys, x);
    forall e: RelationIdentity { OwnUpsertStamps(sys.graph.edges, relation, row, x.snapshot, e); }
  }

  /** This worker's own cleanup leaves everything it stamped. */
  lemma OwnCleanup(sys: Sys, x: Session, gone: set<Identity>)
    requires Held(sys, x) && gone <= Orphans(sys.graph, x.key.sourceId, x.entity, x.snapshot)
    ensures var after := sys.(graph := sys.graph.(vertices := sys.graph.vertices - gone));
            && Held(after, x)
            && (HasSucceeded(after, x) <==> HasSucceeded(sys, x))
            && (forall status, cursor, records, owners ::
                  Collected(sys, x, status, cursor, records, owners) ==>
                  Collected(after, x, status, cursor, records, owners))
  {
    var after := sys.(graph := sys.graph.(vertices := sys.graph.vertices - gone));
    assert Held(after, x);
    hide SysInv;
    assert StampedVertices(after.graph, x.key.sourceId, x.snapshot)
        == StampedVertices(sys.graph, x.key.sourceId, x.snapshot);
    assert StampedEdges(after.graph, x.key.sourceId, x.snapshot) == StampedEdges(sys.graph, x.key.sourceId, x.snapshot);
    hide StampedVertices, StampedEdges, Orphans, Covers, Shows;
    if HasLease(sys, x) {
      forall status, cursor, records, owners | Collected(sys, x, status, cursor, records, owners)
        ensures Collected(after, x, status, cursor, records, owners)
      {
        CollectedCarries(sys, after, x, status, cursor, records, owners);
      }
    }
  }

  // ----- the worker's own transactions -----

  lemma OwnStepHeld(sys: Sys, x: Session, step: Step)
    requires Held(sys, x) && StepOk(step) && !step.ClaimStep?
    ensures Held(sys.(store := Apply(sys.store, step)), x)
  {
    ControlStepKeepsSysInv(sys, step);
    StepEvolvesRow(sys.store, step, x.runId);
  }

  lemma OwnTransition(sys: Sys, x: Session, from: Status, to: Status, at: Time, code: string)
    requires Held(sys, x)
    ensures var after := sys.(store := Transition(sys.store, x.runId, from, to, at, code).0);
            && Held(after, x)
            && (to != Succeeded && HasSucceeded(after, x) ==> HasSucceeded(sys, x))
  {
    OwnStepHeld(sys, x, TransitionStep(x.runId, from, to, at, code));
  }

  lemma OwnTransitionCollected(sys: Sys, x: Session, from: Status, to: Status, at: Time, code: string,
                               cursor: Cursor, records: set<EntityRecord>, owners: set<RelationIdentity>)
    requires Held(sys, x) && Collected(sys, x, from, cursor, records, owners)
    requires Transition(sys.store, x.runId, from, to, at, code).1.Ok? && Leased(to)
    ensures Collected(sys.(store := Transition(sys.store, x.runId, from, to, at, code).0), x, to, cursor, records,
              owners)
  {
  }

  lemma OwnBegin(sys: Sys, x: Session, at: Time)
    requires Held(sys, x) && Untouched(sys, x)
    ensures var spec := Begin(sys.store, x.key, x.runId, x.snapshot, at);
            var after := sys.(store := spec.0);
            && Held(after, x)
            && (HasSucceeded(after, x) ==> HasSucceeded(sys, x))
            && (spec.1.Ok? ==>
                  && spec.1.value == FreshCursor(x.runId, x.snapshot)
                  && DecodeOk(x.key.resource, spec.1.value)
                  && Collected(after, x, Running, spec.1.value, {}, {}))
  {
    OwnStepHeld(sys, x, BeginStep(x.key, x.runId, x.snapshot, at));
  }

  lemma OwnAdvance(sys: Sys, x: Session, cursor: Cursor, at: Time)
    requires Held(sys, x)
    ensures var after := sys.(store := Advance(sys.store, x.key, x.runId, cursor, at).0);
            Held(after, x) && (HasSucceeded(after, x) ==> HasSucceeded(sys, x))
  {
    OwnStepHeld(sys, x, AdvanceStep(x.key, x.runId, cursor, at));
  }

  // With the pages of a pass written, advancing the checkpoint moves it to the new cursor.
  lemma OwnAdvanceCollected(sys: Sys, x: Session, cursor: Cursor, records: set<EntityRecord>,
        owners: set<RelationIdentity>, next: Cursor, at: Time)
    requires Held(sys, x) && Collected(sys, x, Running, cursor, records, owners)
    requires Advance(sys.store, x.key, x.runId, next, at).1.Ok?
    ensures Collected(sys.(store := Advance(sys.store, x.key, x.runId, next, at).0), x, Running, next, records,
              owners)
  {
  }

  // The port's ownership edge, from its owner's device, carries the snapshot.
  ghost predicate OwnedBy(g: Graph, x: Session, record: EntityRecord) {
    var device := Identity(x.key.sourceId, Device, record.ownerDeviceSn);
    var port := Identity(x.key.sourceId, Interface, record.identity);
    var e := RelationIdentity(x.key.sourceId, OwnsInterface, device, port);
    e in g.edges && g.edges[e].syncedAt == x.snapshot
  }

  /** Every record of the pass is in the graph: its vertex, under the snapshot, with the record's own properties
      name by name; and for an interface the edge from its owner's device to it, under the snapshot too. */
  ghost predicate PassStored(g: Graph, x: Session, pass: seq<EntityRecord>) {
    && (forall i | 0 <= i < |pass| :: Shows(g, x, pass[i]))
    && (x.entity == Interface ==> forall i | 0 <= i < |pass| :: OwnedBy(g, x, pass[i]))
  }

  lemma CollectedStored(sys: Sys, x: Session, status: Status, cursor: Cursor, pass: seq<EntityRecord>)
    requires HasLease(sys, x) && Collected(sys, x, status, cursor, RecordsIn(pass), Ownerships(x, pass))
    ensures PassStored(sys.graph, x, pass) && Covers(sys.graph, x, Identities(pass))
  {
    hide Shows, Covers;
    IdentitiesOfRecords(pass);
    forall i | 0 <= i < |pass| ensures Shows(sys.graph, x, pass[i]) { assert pass[i] in RecordsIn(pass); }
    if x.entity == Interface {
      forall i | 0 <= i < |pass| ensures OwnedBy(sys.graph, x, pass[i]) {
        assert OwnershipOf(x, pass[i]) in Ownerships(x, pass);
        assert OwnershipOf(x, pass[i]) in StampedEdges(sys.graph, x.key.sourceId, x.snapshot);
      }
    }
  }

  // What the control plane and the graph say about a run that succeeded.
  ghost predicate Finished(sys: Sys, x: Session, pass: seq<EntityRecord>) {
    && x.runId in sys.store.runs && x.key in sys.store.checkpoints && x.key.sourceId != ""
    && var run, checkpoint := sys.store.runs[x.runId], sys.store.checkpoints[x.key];
       && run.sourceId == x.key.sourceId && run.status == Succeeded
       && run.startedAt == Some(x.snapshot) && run.leaseExpiresAt.None?
       && run.finishedAt.Some? && run.finishedAt.value >= x.snapshot
       && checkpoint.complete && checkpoint.completedAt == run.finishedAt
       && checkpoint.cursor.version == CURSOR_VERSION && checkpoint.cursor.runId == x.runId
       && checkpoint.cursor.snapshotAt == x.snapshot
       && checkpoint.cursor.nextOffset == |pass| && checkpoint.cursor.total == |pass|
       && Covers(sys.graph, x, Identities(pass))
       && Ownerships(x, pass) <= StampedEdges(sys.graph, x.key.sourceId, x.snapshot).Keys
       && PassStored(sys.graph, x, pass)
       && GraphOk(sys.store, sys.graph)
  }

  lemma OwnComplete(sys: Sys, x: Session, at: Time)
    requires Held(sys, x)
    ensures var spec := Complete(sys.store, x.key, x.runId, Publishing, at);
            Held(sys.(store := spec.0), x) && (!spec.1.Ok? ==> spec.0 == sys.store)
  {
    OwnStepHeld(sys, x, CompleteStep(x.key, x.runId, Publishing, at));
  }

  lemma OwnCompleteFinishes(sys: Sys, x: Session, cursor: Cursor, pass: seq<EntityRecord>, at: Time)
    requires Held(sys, x) && Collected(sys, x, Publishing, cursor, RecordsIn(pass), Ownerships(x, pass))
    requires at >= x.snapshot
    requires cursor.nextOffset == |pass| && cursor.version == CURSOR_VERSION && cursor.snapshotAt == x.snapshot
    requires Complete(sys.store, x.key, x.runId, Publishing, at).1.Ok?
    ensures Finished(sys.(store := Complete(sys.store, x.key, x.runId, Publishing, at).0), x, pass)
  {
    assert HasLease(sys, x);
    CollectedStored(sys, x, Publishing, cursor, pass);
    hide PassStored;
    OwnComplete(sys, x, at);
  }
}
