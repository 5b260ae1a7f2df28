/**
 The topology graph: vertices and edges keyed by identity, each with its properties and two
 stamps. An identity stands for the vertex or edge the program addresses by its hash.
 */
module Graph {
  import opened Base

  datatype EntityType =
    | Device | Interface | Gpu | Pod | Cabinet | DataCenter | Rpp | UpsGroup | Ups | Transformer

  datatype Identity = Identity(sourceId: string, entityType: EntityType, stableId: string)

  datatype RelationKind = OwnsInterface | ServerUplink | OtherKind(name: string)

  datatype RelationIdentity = RelationIdentity(sourceId: string, kind: RelationKind, from: Identity, to: Identity)

  datatype PropertyType = TextType | IntegerType | InstantType | TextListType | IntegerListType

  datatype Value =
    | Null | Text(text: string) | Integer(integer: int) | Instant(instant: Time)
    | TextList(texts: seq<string>) | IntegerList(integers: seq<int>)

  type Properties = map<string, Value>

  type Schema = map<string, PropertyType>

  datatype Row = Row(properties: Properties, createdAt: Time, syncedAt: Time)

  datatype Graph = Graph(vertices: map<Identity, Row>, edges: map<RelationIdentity, Row>)

  const CLEANUP_BATCH := 200

  const INT64_MAX := 0x7FFF_FFFF_FFFF_FFFF

  const INT64_MIN := -0x8000_0000_0000_0000

  // ----- properties -----

  // The items in first-occurrence order, each once.
  function Distinct<T(==,!new)>(items: seq<T>): (r: seq<T>)
    ensures forall x :: x in r <==> x in items
    ensures forall i, j | 0 <= i < j < |r| :: r[i] != r[j]
  {
    if items == [] then []
    else
      var last := |items| - 1;
      var front := Distinct(items[..last]);
      assert items == items[..last] + [items[last]];
      if items[last] in front then front else front + [items[last]]
  }

  function NormalizeValue(kind: PropertyType, value: Value): Option<Value> {
    match (kind, value)
    case (_, Null) => Some(Null)
    case (TextType, Text(_)) => Some(value)
    case (IntegerType, Integer(n)) => if INT64_MIN <= n <= INT64_MAX then Some(value) else None
    case (InstantType, Instant(t)) => if t != ZERO_TIME then Some(value) else None
    case (TextListType, TextList(texts)) =>
      if exists i | 0 <= i < |texts| :: texts[i] == "" then None else Some(TextList(Distinct(texts)))
    case (IntegerListType, IntegerList(integers)) =>
      if exists i | 0 <= i < |integers| :: integers[i] <= 0 then None else Some(IntegerList(Distinct(integers)))
    case _ => None
  }

  predicate Acceptable(schema: Schema, properties: Properties) {
    forall name | name in properties :: name in schema && NormalizeValue(schema[name], properties[name]).Some?
  }

  // Every property the schema names, absent ones as null.
  function Normalized(schema: Schema, properties: Properties): (r: Properties)
    requires Acceptable(schema, properties)
  {
    map name | name in schema ::
      if name in properties then NormalizeValue(schema[name], properties[name]).value else Null
  }

  // The same items, each once, in the order in which they first occur.
  ghost predicate OnceInOrder<T(!new)>(given: seq<T>, stored: seq<T>) {
    && (forall item :: item in stored <==> item in given)
    && (forall i, j | 0 <= i < j < |stored| ::
          exists k | 0 <= k < |given| :: given[k] == stored[i] && stored[j] !in given[..k + 1])
  }

  /** The stored value is the given one, as far as its type can hold it: lists lose their repetitions. */
  ghost predicate Represents(kind: PropertyType, given: Value, stored: Value) {
    match given
    case Null => stored == Null
    case Text(_) => kind == TextType && stored == given
    case Integer(n) => kind == IntegerType && stored == given && -0x8000_0000_0000_0000 <= n <= 0x7FFF_FFFF_FFFF_FFFF
    case Instant(t) => kind == InstantType && stored == given && t != ZERO_TIME
    case TextList(texts) =>
      && kind == TextListType && stored.TextList? && OnceInOrder(texts, stored.texts) && "" !in texts
    case IntegerList(integers) =>
      && kind == IntegerListType && stored.IntegerList? && OnceInOrder(integers, stored.integers)
      && forall n | n in integers :: n > 0
  }

  /** The stored properties are the given ones: each name of the schema with the value given for it, or null where
      none was given, and none was given that the schema does not name. */
  ghost predicate ShowsRecord(schema: Schema, given: Properties, stored: Properties) {
    && (forall name | name in given :: name in schema)
    && (forall name | name in schema :: name in stored && ShowsProperty(schema, given, stored, name))
  }

  ghost predicate ShowsProperty(schema: Schema, given: Properties, stored: Properties, name: string)
    requires name in schema && name in stored
  {
    if name in given then Represents(schema[name], given[name], stored[name]) else stored[name] == Null
  }

  lemma {:induction false} DistinctInOrder<T(!new)>(items: seq<T>)
    ensures OnceInOrder(items, Distinct(items))
    decreases |items|
  {
    if items != [] {
      var n, all := |items| - 1, Distinct(items);
      var front := Distinct(items[..n]);
      DistinctInOrder(items[..n]);
      forall i, j | 0 <= i < j < |all|
        ensures exists k | 0 <= k < |items| :: items[k] == all[i] && all[j] !in items[..k + 1]
      {
        if j < |front| {
          var k :| 0 <= k < n && items[..n][k] == front[i] && front[j] !in items[..n][..k + 1];
          assert items[k] == all[i] && items[..n][..k + 1] == items[..k + 1];
        } else {
          assert front[i] in items[..n];
          var k :| 0 <= k < n && items[..n][k] == front[i];
          assert items[k] == all[i] && forall m | 0 <= m < k + 1 :: items[..k + 1][m] == items[..n][m];
        }
      }
    }
  }

  lemma NormalizedRepresents(kind: PropertyType, value: Value)
    ensures var r := NormalizeValue(kind, value);
            && (r.Some? ==> Represents(kind, value, r.value))
            && (r.None? ==> forall stored :: !Represents(kind, value, stored))
  {
    if value.TextList? { DistinctInOrder(value.texts); }
    if value.IntegerList? {
      DistinctInOrder(value.integers);
      if i :| 0 <= i < |value.integers| && value.integers[i] <= 0 { assert value.integers[i] in value.integers; }
    }
    hide Distinct, OnceInOrder;
  }

  lemma NormalizedShows(schema: Schema, properties: Properties)
    requires Acceptable(schema, properties)
    ensures ShowsRecord(schema, properties, Normalized(schema, properties))
  {
    hide NormalizeValue, Represents;
    forall name | name in schema
      ensures ShowsProperty(schema, properties, Normalized(schema, properties), name)
    {
      if name in properties { NormalizedRepresents(schema[name], properties[name]); }
    }
  }

  lemma NothingToShow(schema: Schema, properties: Properties)
    requires !Acceptable(schema, properties)
    ensures forall stored :: !ShowsRecord(schema, properties, stored)
  {
    hide NormalizeValue, Represents;
    var name :| name in properties && !(name in schema && NormalizeValue(schema[name], properties[name]).Some?);
    if name in schema {
      NormalizedRepresents(schema[name], properties[name]);
      forall stored ensures !ShowsRecord(schema, properties, stored) {
        if name in stored { assert !ShowsProperty(schema, properties, stored, name); }
      }
    }
  }

  method NormalizeProperties(schema: Schema, properties: Properties) returns (r: Option<Properties>)
    ensures r.Some? <==> Acceptable(schema, properties)
    ensures r.Some? ==> r.value == Normalized(schema, properties)
    ensures r.Some? ==> r.value.Keys == schema.Keys && ShowsRecord(schema, properties, r.value)
    ensures r.None? ==> forall stored :: !ShowsRecord(schema, properties, stored)
  {
    hide ShowsRecord, NormalizeValue;
    if Acceptable(schema, properties) {
      NormalizedShows(schema, properties);
    } else {
      NothingToShow(schema, properties);
    }
    var normalized: Properties := map[];
    var pending := properties.Keys;
    while pending != {}
      invariant pending <= properties.Keys
      invariant normalized.Keys == properties.Keys - pending
      invariant forall name | name in normalized ::
        && name in schema && NormalizeValue(schema[name], properties[name]).Some?
        && normalized[name] == NormalizeValue(schema[name], properties[name]).value
      decreases pending
    {
      var name :| name in pending;
      if name !in schema { return None; }
      var value := NormalizeValue(schema[name], properties[name]);
      if value.None? { return None; }
      normalized := normalized[name := value.value];
      pending := pending - {name};
    }
    assert normalized.Keys <= schema.Keys;
    var missing := schema.Keys - normalized.Keys;
    ghost var given := normalized;
    while missing != {}
      invariant missing <= schema.Keys - given.Keys
      invariant normalized.Keys == schema.Keys - missing
      invariant forall name | name in normalized :: normalized[name] == if name in given then given[name] else Null
      decreases missing
    {
      var name :| name in missing;
      normalized := normalized[name := Null];
      missing := missing - {name};
    }
    r := Some(normalized);
  }

  // ----- relations -----

  // The endpoint rules for the two kinds the workers write; the other kinds are not modelled.
  predicate RelationOk(relation: RelationIdentity, createdAt: Time, syncedAt: Time) {
    && relation.sourceId != "" && relation.from.sourceId == relation.sourceId
    && relation.to.sourceId == relation.sourceId
    && relation.from.stableId != "" && relation.to.stableId != ""
    && createdAt != ZERO_TIME && syncedAt != ZERO_TIME
    && (relation.kind == OwnsInterface || relation.kind == ServerUplink ==>
          relation.from.entityType == Device && relation.to.entityType == Interface)
  }

  // The two kinds name no property of their own.
  predicate RelationPropertiesOk(relation: RelationIdentity, properties: Properties) {
    relation.kind == OwnsInterface || relation.kind == ServerUplink ==> properties == map[]
  }

  // ----- statements -----

  function InsertIfAbsent<K>(rows: map<K, Row>, key: K, row: Row): map<K, Row> {
    if key in rows then rows else rows[key := row]
  }

  // Sets every named property and the sync stamp, unless the stored stamp is newer.
  function UpdateIfNotOlder<K>(rows: map<K, Row>, key: K, properties: Properties, syncedAt: Time): map<K, Row> {
    if key in rows && rows[key].syncedAt <= syncedAt then
      rows[key := rows[key].(properties := rows[key].properties + properties, syncedAt := syncedAt)]
    else rows
  }

  function Upsert<K>(rows: map<K, Row>, key: K, row: Row): map<K, Row> {
    UpdateIfNotOlder(InsertIfAbsent(rows, key, row), key, row.properties, row.syncedAt)
  }

  // Upserts of one schema replace every property: nothing of an older row shines through.
  lemma UpsertReplacesProperties<K>(rows: map<K, Row>, key: K, row: Row)
    requires key in rows ==> rows[key].properties.Keys == row.properties.Keys && rows[key].syncedAt <= row.syncedAt
    ensures key in Upsert(rows, key, row) && Upsert(rows, key, row)[key].properties == row.properties
  {
  }

  /** The row is there and every other one is as it was; a new row has both stamps, an old one keeps the first
      and takes the second unless it has a newer one, which leaves it alone. */
  ghost predicate Upserted<K>(before: map<K, Row>, after: map<K, Row>, key: K, createdAt: Time, syncedAt: Time) {
    && after.Keys == before.Keys + {key}
    && (forall k | k in before && k != key :: after[k] == before[k])
    && (key !in before ==> after[key].createdAt == createdAt && after[key].syncedAt == syncedAt)
    && (key in before ==>
          && after[key].createdAt == before[key].createdAt
          && (if before[key].syncedAt <= syncedAt then after[key].syncedAt == syncedAt else after[key] == before[key]))
  }

  lemma UpsertMeans<K>(rows: map<K, Row>, key: K, row: Row)
    ensures Upserted(rows, Upsert(rows, key, row), key, row.createdAt, row.syncedAt)
    ensures key !in rows || rows[key].syncedAt <= row.syncedAt ==>
              forall name | name in row.properties ::
                name in Upsert(rows, key, row)[key].properties
                && Upsert(rows, key, row)[key].properties[name] == row.properties[name]
  {
  }

  // A row upserted with the properties of a record shows the record.
  lemma UpsertShows<K>(rows: map<K, Row>, key: K, row: Row, schema: Schema, given: Properties)
    requires ShowsRecord(schema, given, row.properties) && row.properties.Keys == schema.Keys
    requires key !in rows || rows[key].syncedAt <= row.syncedAt
    ensures key in Upsert(rows, key, row) && ShowsRecord(schema, given, Upsert(rows, key, row)[key].properties)
  {
    UpsertMeans(rows, key, row);
    hide Upsert, Represents;
    var stored := Upsert(rows, key, row)[key].properties;
    forall name | name in schema ensures name in stored && ShowsProperty(schema, given, stored, name) {
      assert name in row.properties && ShowsProperty(schema, given, row.properties, name);
    }
  }

  // ----- orphans -----

  predicate Incident(g: Graph, v: Identity) {
    exists e | e in g.edges :: e.from == v || e.to == v
  }

  predicate Orphan(g: Graph, sourceId: string, entityType: EntityType, cutoff: Time, v: Identity) {
    && v in g.vertices && v.sourceId == sourceId && v.entityType == entityType
    && g.vertices[v].syncedAt < cutoff && !Incident(g, v)
  }

  function Orphans(g: Graph, sourceId: string, entityType: EntityType, cutoff: Time): set<Identity> {
    set v | v in g.vertices && Orphan(g, sourceId, entityType, cutoff, v)
  }

  predicate NoDangling(g: Graph) {
    forall e | e in g.edges :: e.from in g.vertices && e.to in g.vertices
  }

  // Removing some orphans leaves exactly the others orphaned, and no edge without its ends.
  lemma RemovingOrphans(g: Graph, sourceId: string, entityType: EntityType, cutoff: Time, gone: set<Identity>)
    requires gone <= Orphans(g, sourceId, entityType, cutoff)
    ensures Orphans(g.(vertices := g.vertices - gone), sourceId, entityType, cutoff)
         == Orphans(g, sourceId, entityType, cutoff) - gone
    ensures NoDangling(g) ==> NoDangling(g.(vertices := g.vertices - gone))
  {
  }

  // Nobody has deleted an edge, nor a vertex that has one.
  ghost predicate Keeps(before: Graph, after: Graph) {
    && before.edges.Keys <= after.edges.Keys
    && forall v | v in before.vertices && Incident(before, v) :: v in after.vertices
  }

  lemma KeepsTransitive(a: Graph, b: Graph, c: Graph)
    requires Keeps(a, b) && Keeps(b, c)
    ensures Keeps(a, c)
  {
  }

  lemma {:induction false} SubsetOfSize<T>(s: set<T>, n: nat) returns (r: set<T>)
    requires n <= |s|
    ensures r <= s && |r| == n
    decreases n
  {
    if n == 0 {
      r := {};
    } else {
      var x :| x in s;
      r := SubsetOfSize(s - {x}, n - 1);
      r := r + {x};
    }
  }

  // A query limited to so many rows returns any of them, but as many as it may.
  method FirstRows<T(==)>(rows: set<T>, limit: nat) returns (batch: set<T>)
    ensures batch <= rows && |batch| == if |rows| < limit then |rows| else limit
    ensures limit > 0 && batch == {} ==> rows == {}
  {
    var size := if |rows| < limit then |rows| else limit;
    ghost var some := SubsetOfSize(rows, size);
    batch :| batch <= rows && |batch| == size;
  }

  /** The graph client: each method is a short sequence of statements, any of which may fail,
      and a statement that reports failure may nevertheless have taken effect. */
  class TopologyGraph {
    var vertices: map<Identity, Row>
    var edges: map<RelationIdentity, Row>
    const schemas: map<EntityType, Schema>

    constructor (schemas: map<EntityType, Schema>)
      ensures Contents() == Graph(map[], map[])
    {
      this.schemas := schemas;
      vertices := map[];
      edges := map[];
    }

    function Contents(): Graph
      reads this
    {
      Graph(vertices, edges)
    }

    method VertexExists(identity: Identity) returns (r: Result<bool, ()>)
      ensures r.Ok? ==> r.value == (identity in vertices)
    {
      var failed: bool := *;
      r := if failed || identity.sourceId == "" || identity.stableId == "" then Err(()) else Ok(identity in vertices);
    }

    predicate VertexOk(identity: Identity, properties: Properties, createdAt: Time, syncedAt: Time) {
      && identity.entityType in schemas && identity.sourceId != "" && identity.stableId != ""
      && createdAt != ZERO_TIME && syncedAt != ZERO_TIME
      && Acceptable(schemas[identity.entityType], properties)
    }

    method UpsertVertex(identity: Identity, properties: Properties, createdAt: Time, syncedAt: Time) returns (ok: bool)
      modifies this`vertices
      ensures vertices == old(vertices)
           || (&& VertexOk(identity, properties, createdAt, syncedAt)
               && var row := Row(Normalized(schemas[identity.entityType], properties), createdAt, syncedAt);
                  || vertices == InsertIfAbsent(old(vertices), identity, row)
                  || vertices == Upsert(old(vertices), identity, row))
      ensures ok ==>
        && VertexOk(identity, properties, createdAt, syncedAt)
        && vertices == Upsert(old(vertices), identity,
             Row(Normalized(schemas[identity.entityType], properties), createdAt, syncedAt))
        && Upserted(old(vertices), vertices, identity, createdAt, syncedAt)
        && (identity !in old(vertices) || old(vertices)[identity].syncedAt <= syncedAt ==>
              ShowsRecord(schemas[identity.entityType], properties, vertices[identity].properties))
    {
      hide ShowsRecord, Normalized;
      if identity.entityType !in schemas || identity.sourceId == "" || identity.stableId == ""
         || createdAt == ZERO_TIME || syncedAt == ZERO_TIME
      {
        return false;
      }
      var normalized := NormalizeProperties(schemas[identity.entityType], properties);
      if normalized.None? { return false; }
      ghost var row := Row(normalized.value, createdAt, syncedAt);
      var lost, failed: bool := *, *;
      if lost { return false; }
      vertices := InsertIfAbsent(vertices, identity, Row(normalized.value, createdAt, syncedAt));
      if failed { return false; }
      if identity !in vertices { return false; }
      lost, failed := *, *;
      if lost { return false; }
      vertices := UpdateIfNotOlder(vertices, identity, normalized.value, syncedAt);
      assert vertices == Upsert(old(vertices), identity, row);
      UpsertMeans(old(vertices), identity, row);
      if identity !in old(vertices) || old(vertices)[identity].syncedAt <= syncedAt {
        UpsertShows(old(vertices), identity, row, schemas[identity.entityType], properties);
      }
      ok := !failed;
    }

    method UpsertRelation(relation: RelationIdentity, properties: Properties, createdAt: Time, syncedAt: Time)
      returns (ok: bool)
      modifies this`edges
      ensures edges == old(edges)
           || edges == InsertIfAbsent(old(edges), relation, Row(properties, createdAt, syncedAt))
           || edges == Upsert(old(edges), relation, Row(properties, createdAt, syncedAt))
      ensures !RelationOk(relation, createdAt, syncedAt) || !RelationPropertiesOk(relation, properties) ==>
                !ok && edges == old(edges)
      ensures ok ==>
        && RelationOk(relation, createdAt, syncedAt) && RelationPropertiesOk(relation, properties)
        && edges == Upsert(old(edges), relation, Row(properties, createdAt, syncedAt))
        && Upserted(old(edges), edges, relation, createdAt, syncedAt)
        && relation.sourceId != "" && relation.from.sourceId == relation.to.sourceId == relation.sourceId
        && relation.from.stableId != "" && relation.to.stableId != ""
        && (relation.kind == OwnsInterface || relation.kind == ServerUplink ==>
              relation.from.entityType == Device && relation.to.entityType == Interface && properties == map[])
    {
      if !RelationOk(relation, createdAt, syncedAt) || !RelationPropertiesOk(relation, properties) { return false; }
      var lost, failed: bool := *, *;
      if lost { return false; }
      edges := InsertIfAbsent(edges, relation, Row(properties, createdAt, syncedAt));
      if failed { return false; }
      lost, failed := *, *;
      if lost { return false; }
      edges := UpdateIfNotOlder(edges, relation, properties, syncedAt);
      UpsertMeans(old(edges), relation, Row(properties, createdAt, syncedAt));
      ok := !failed;
    }

    // One batch of at most so many orphans; done when there was none left. Both statements may fail.
    method DeleteBatch(sourceId: string, entityType: EntityType, cutoff: Time)
      returns (ok: bool, done: bool, ghost gone: set<Identity>)
      modifies this`vertices
      ensures gone <= Orphans(old(Contents()), sourceId, entityType, cutoff) && vertices == old(vertices) - gone
      ensures ok ==> (done <==> gone == {}) && (done ==> Orphans(old(Contents()), sourceId, entityType, cutoff) == {})
    {
      hide Orphans;
      ok, done, gone := false, false, {};
      assert vertices - gone == vertices;
      var failed: bool := *;
      if failed { return; }
      var stale := Orphans(Contents(), sourceId, entityType, cutoff);
      var batch := FirstRows(stale, CLEANUP_BATCH);
      if batch == {} { return true, true, {}; }
      failed := *;
      if failed { return; }
      gone := batch;
      vertices := vertices - batch;
      failed := *;
      ok := !failed;
    }

    /** Batched cleanup. It terminates because the set of orphans shrinks with every batch; on
        success it has removed exactly the orphans it found at the start, and nothing else. */
    method DeleteOrphanVerticesNotSeen(sourceId: string, entityType: EntityType, runStartedAt: Time) returns (ok: bool)
      modifies this`vertices
      ensures exists gone | gone <= Orphans(old(Contents()), sourceId, entityType, runStartedAt) ::
                vertices == old(vertices) - gone
      ensures ok ==>
        && vertices == old(vertices) - Orphans(old(Contents()), sourceId, entityType, runStartedAt)
        && Orphans(Contents(), sourceId, entityType, runStartedAt) == {}
        && (forall v | v in old(vertices) :: v !in vertices <==>
              && v.sourceId == sourceId && v.entityType == entityType && old(vertices)[v].syncedAt < runStartedAt
              && forall e | e in edges :: e.from != v && e.to != v)
    {
      hide Orphans, Keeps, Incident, NoDangling;
      ghost var start := Contents();
      ghost var orphans := Orphans(start, sourceId, entityType, runStartedAt);
      ghost var gone: set<Identity> := {};
      assert start.vertices - gone == start.vertices;
      if sourceId == "" || runStartedAt == ZERO_TIME { return false; }
      ok := true;
      var done := false;
      while ok && !done
        invariant gone <= orphans && (ok && done ==> gone == orphans)
        invariant Contents() == start.(vertices := start.vertices - gone)
        decreases orphans - gone, ok && !done
      {
        RemovingOrphans(start, sourceId, entityType, runStartedAt, gone);
        ghost var batch;
        ok, done, batch := DeleteBatch(sourceId, entityType, runStartedAt);
        assert (start.vertices - gone) - batch == start.vertices - (gone + batch);
        gone := gone + batch;
      }
      RemovingOrphans(start, sourceId, entityType, runStartedAt, gone);
      if ok {
        assert vertices == start.vertices - orphans;
        forall v | v in start.vertices ensures v !in vertices <==> v in orphans {}
        OrphansSpelled(start, sourceId, entityType, runStartedAt);
      }
    }
  }

  lemma OrphansSpelled(g: Graph, sourceId: string, entityType: EntityType, cutoff: Time)
    ensures forall v | v in g.vertices :: v in Orphans(g, sourceId, entityType, cutoff) <==>
              && v.sourceId == sourceId && v.entityType == entityType && g.vertices[v].syncedAt < cutoff
              && forall e | e in g.edges :: e.from != v && e.to != v
  {
  }
}
