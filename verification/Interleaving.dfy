/**
 Concurrent upserts and cleanups of one source, statement by statement. Within a process the upserts
 of a source share its lock and a cleanup holds it alone; statements of different upserts, also of
 the same vertex or edge, interleave freely, and each may fail before or after taking effect.
 */
module Interleaving {
  import opened Base
  import opened Graph

  datatype Place = AtVertex(identity: Identity) | AtEdge(relation: RelationIdentity)

  datatype Phase = Waiting | Inserting | Fetching | Updating | Ended(ok: bool)

  // An upsert in progress: what it writes, and which statement is next.
  datatype Writer = Writer(place: Place, row: Row, phase: Phase)

  datatype Stage = Idle | Matching | Deleting(batch: set<Place>) | Stopped(ok: bool)

  datatype Cleaner = Cleaner(entity: EntityType, cutoff: Time, stage: Stage)

  datatype Lock = Shared(holders: set<nat>) | Exclusive(holder: nat)

  // Beside the rows, what made them: whose values were merged into each row since it was created,
  // who created it, and whose values went when a row was deleted.
  datatype World = World(
    rows: map<Place, Row>, writers: seq<Writer>, cleaners: seq<Cleaner>, lock: Lock,
    merged: map<Place, set<nat>>, creator: map<Place, nat>, swept: set<nat>)

  datatype Fault = NoFault | LostBefore | LostAfter

  datatype Act = Write(i: nat, fault: Fault) | Clean(j: nat, batch: set<Place>, fault: Fault)

  // ----- statements -----

  predicate Active(phase: Phase) {
    phase == Inserting || phase == Fetching || phase == Updating
  }

  predicate Busy(stage: Stage) {
    stage == Matching || stage.Deleting?
  }

  function Touches(e: RelationIdentity): set<Identity> {
    {e.from, e.to}
  }

  // A vertex of the type older than the cutoff that no edge touches.
  predicate Loose(rows: map<Place, Row>, entity: EntityType, cutoff: Time, p: Place) {
    && p in rows && p.AtVertex? && p.identity.entityType == entity && rows[p].syncedAt < cutoff
    && forall q | q in rows && q.AtEdge? :: p.identity !in Touches(q.relation)
  }

  function AllLoose(rows: map<Place, Row>, entity: EntityType, cutoff: Time): set<Place> {
    set p | p in rows && Loose(rows, entity, cutoff, p)
  }

  function Inserted(w: World, i: nat): (v: World)
    requires i < |w.writers|
    ensures v.writers == w.writers && v.cleaners == w.cleaners && v.lock == w.lock && v.swept == w.swept
  {
    var u := w.writers[i];
    if u.place in w.rows then w
    else w.(rows := w.rows[u.place := u.row], merged := w.merged[u.place := {i}], creator := w.creator[u.place := i])
  }

  function Updated(w: World, i: nat): (v: World)
    requires i < |w.writers| && w.writers[i].place in w.rows
    ensures v.writers == w.writers && v.cleaners == w.cleaners && v.lock == w.lock && v.swept == w.swept
  {
    var u := w.writers[i];
    var before := if u.place in w.merged then w.merged[u.place] else {};
    w.(rows := UpdateIfNotOlder(w.rows, u.place, u.row.properties, u.row.syncedAt),
       merged := w.merged[u.place := before + {i}])
  }

  function Victims(w: World, batch: set<Place>): set<nat> {
    set p, i | p in batch && p in w.merged && i in w.merged[p] :: i
  }

  function Deleted(w: World, batch: set<Place>): (v: World)
    ensures v.writers == w.writers && v.cleaners == w.cleaners && v.lock == w.lock
  {
    w.(rows := w.rows - batch, merged := w.merged - batch, creator := w.creator - batch,
        swept := w.swept + Victims(w, batch))
  }

  function GoOn(w: World, i: nat, phase: Phase): World
    requires i < |w.writers|
  {
    w.(writers := w.writers[i := w.writers[i].(phase := phase)])
  }

  function End(w: World, i: nat, ok: bool): World
    requires i < |w.writers|
  {
    var lock := if w.lock.Shared? then Shared(w.lock.holders - {i}) else w.lock;
    GoOn(w, i, Ended(ok)).(lock := lock)
  }

  function WriterStep(w: World, i: nat, fault: Fault): World
    requires i < |w.writers|
  {
    var u := w.writers[i];
    match u.phase
    case Waiting => if w.lock.Shared? then GoOn(w, i, Inserting).(lock := Shared(w.lock.holders + {i})) else w
    case Inserting =>
      var after := if fault == LostBefore then w else Inserted(w, i);
      if fault == NoFault then GoOn(after, i, Fetching) else End(after, i, false)
    case Fetching => if fault == NoFault && u.place in w.rows then GoOn(w, i, Updating) else End(w, i, false)
    case Updating =>
      if u.place !in w.rows then End(w, i, false)
      else End(if fault == LostBefore then w else Updated(w, i), i, fault == NoFault)
    case Ended(_) => w
  }

  function Stand(w: World, j: nat, stage: Stage): World
    requires j < |w.cleaners|
  {
    w.(cleaners := w.cleaners[j := w.cleaners[j].(stage := stage)])
  }

  // The batch query returns any loose vertices up to its limit, and none only when there are none.
  predicate BatchOk(w: World, c: Cleaner, batch: set<Place>) {
    && batch <= AllLoose(w.rows, c.entity, c.cutoff) && |batch| <= CLEANUP_BATCH
    && (batch == {} ==> AllLoose(w.rows, c.entity, c.cutoff) == {})
  }

  function CleanerStep(w: World, j: nat, batch: set<Place>, fault: Fault): World
    requires j < |w.cleaners|
  {
    var c := w.cleaners[j];
    match c.stage
    case Idle => if w.lock == Shared({}) then Stand(w, j, Matching).(lock := Exclusive(j)) else w
    case Matching =>
      if fault != NoFault then Stand(w, j, Stopped(false)).(lock := Shared({}))
      else if !BatchOk(w, c, batch) then w
      else if batch == {} then Stand(w, j, Stopped(true)).(lock := Shared({}))
      else Stand(w, j, Deleting(batch))
    case Deleting(found) =>
      var after := if fault == LostBefore then w else Deleted(w, found);
      if fault == NoFault then Stand(after, j, Matching) else Stand(after, j, Stopped(false)).(lock := Shared({}))
    case Stopped(_) => w
  }

  function Next(w: World, act: Act): World {
    match act
    case Write(i, fault) => if i < |w.writers| then WriterStep(w, i, fault) else w
    case Clean(j, batch, fault) => if j < |w.cleaners| then CleanerStep(w, j, batch, fault) else w
  }

  function Run(w: World, acts: seq<Act>): World
    decreases |acts|
  {
    if acts == [] then w else Run(Next(w, acts[0]), acts[1..])
  }

  /** Left alone, the statements of an upsert come to the one-step upsert of the graph. */
  lemma UpsertAlone(w: World, i: nat)
    requires i < |w.writers| && w.writers[i].phase == Waiting && w.lock.Shared?
    ensures var act := Write(i, NoFault);
            var after := Next(Next(Next(Next(w, act), act), act), act);
            && after.rows == Upsert(w.rows, w.writers[i].place, w.writers[i].row)
            && i < |after.writers| && after.writers[i].phase == Ended(true)
            && after.lock == Shared(w.lock.holders - {i})
  {
    var u := w.writers[i];
    var locked := WriterStep(w, i, NoFault);
    var inserted := WriterStep(locked, i, NoFault);
    var fetched := WriterStep(inserted, i, NoFault);
    assert inserted.rows == InsertIfAbsent(w.rows, u.place, u.row) && u.place in inserted.rows;
    assert fetched.writers[i] == u.(phase := Updating) && fetched.rows == inserted.rows;
    assert w.lock.holders + {i} - {i} == w.lock.holders - {i};
  }

  // ----- a cleanup alone -----

  lemma DeletingLeavesOthers(w: World, entity: EntityType, cutoff: Time, batch: set<Place>)
    requires batch <= AllLoose(w.rows, entity, cutoff)
    ensures AllLoose(Deleted(w, batch).rows, entity, cutoff) == AllLoose(w.rows, entity, cutoff) - batch
  {
  }

  lemma SomeBatch(loose: set<Place>) returns (batch: set<Place>)
    ensures batch <= loose && |batch| <= CLEANUP_BATCH && (batch == {} ==> loose == {})
  {
    if loose == {} {
      batch := {};
    } else {
      var p :| p in loose;
      batch := {p};
    }
  }

  /** Left alone, the statements of a cleanup delete exactly the older vertices no edge touches. */
  lemma {:induction false} CleanupAlone(w: World, j: nat) returns (acts: seq<Act>)
    requires j < |w.cleaners| && w.cleaners[j].stage == Matching && w.lock == Exclusive(j)
    ensures var after := Run(w, acts);
            && after.rows == w.rows - AllLoose(w.rows, w.cleaners[j].entity, w.cleaners[j].cutoff)
            && j < |after.cleaners| && after.cleaners[j].stage == Stopped(true) && after.lock == Shared({})
    decreases AllLoose(w.rows, w.cleaners[j].entity, w.cleaners[j].cutoff)
  {
    var c := w.cleaners[j];
    var loose := AllLoose(w.rows, c.entity, c.cutoff);
    var batch := SomeBatch(loose);
    var act := Clean(j, batch, NoFault);
    var found := Next(w, act);
    hide AllLoose;
    if batch == {} {
      acts := [act];
      assert acts[1..] == [] && Run(found, []) == found;
      assert w.rows - loose == w.rows;
    } else {
      var gone := Next(found, act);
      assert gone.rows == w.rows - batch && gone.cleaners[j] == c.(stage := Matching) && gone.lock == Exclusive(j);
      DeletingLeavesOthers(w, c.entity, c.cutoff, batch);
      var rest := CleanupAlone(gone, j);
      acts := [act, act] + rest;
      assert acts[1..] == [act] + rest && acts[1..][1..] == rest;
      assert Run(w, acts) == Run(found, acts[1..]) == Run(gone, rest);
      assert (w.rows - batch) - (loose - batch) == w.rows - loose;
    }
  }

  // ----- the invariant -----

  // Each upsert is created no later than synced; upserts of one place share its schema.
  ghost predicate JobsOk(writers: seq<Writer>) {
    && (forall i | 0 <= i < |writers| :: writers[i].row.createdAt <= writers[i].row.syncedAt)
    && (forall i, j :: SamePlace(writers, i, j) ==> writers[i].row.properties.Keys == writers[j].row.properties.Keys)
  }

  ghost predicate SamePlace(writers: seq<Writer>, i: int, j: int) {
    0 <= i < |writers| && 0 <= j < |writers| && writers[i].place == writers[j].place
  }

  ghost predicate LockOk(w: World) {
    match w.lock
    case Shared(holders) =>
      && (forall i: nat :: i in holders <==> i < |w.writers| && Active(w.writers[i].phase))
      && (forall j | 0 <= j < |w.cleaners| :: !Busy(w.cleaners[j].stage))
    case Exclusive(holder) =>
      && holder < |w.cleaners|
      && (forall i | 0 <= i < |w.writers| :: !Active(w.writers[i].phase))
      && (forall j | 0 <= j < |w.cleaners| :: Busy(w.cleaners[j].stage) <==> j == holder)
  }

  // The row holds this upsert's stamp and all of its properties.
  ghost predicate Supplies(written: Row, row: Row) {
    written.syncedAt == row.syncedAt && written.properties == row.properties
  }

  // The row's values are those of one of the upserts merged into it, the latest of them by stamp;
  // it was created by the first.
  ghost predicate RowMade(w: World, p: Place)
    requires p in w.rows && p in w.merged && p in w.creator
  {
    var row := w.rows[p];
    && (forall i | i in w.merged[p] :: i < |w.writers| && w.writers[i].place == p
         && w.writers[i].row.syncedAt <= row.syncedAt)
    && (exists i :: i in w.merged[p] && Supplies(w.writers[i].row, row))
    && w.creator[p] in w.merged[p] && w.writers[w.creator[p]].row.createdAt == row.createdAt
  }

  ghost predicate RowsMade(w: World) {
    && w.merged.Keys == w.rows.Keys && w.creator.Keys == w.rows.Keys
    && forall p | p in w.rows :: RowMade(w, p)
  }

  ghost predicate WriterPlaced(w: World, i: nat)
    requires i < |w.writers|
  {
    var u := w.writers[i];
    && (u.phase == Fetching || u.phase == Updating ==> u.place in w.rows)
    && (u.phase == Ended(true) ==> i in w.swept || (u.place in w.merged && i in w.merged[u.place]))
  }

  // What a cleanup is about to delete is still loose.
  ghost predicate CleanerOk(w: World, j: nat)
    requires j < |w.cleaners|
  {
    var c := w.cleaners[j];
    c.stage.Deleting? ==> c.stage.batch <= AllLoose(w.rows, c.entity, c.cutoff)
  }

  ghost predicate SweptOk(w: World) {
    forall i | i in w.swept :: i < |w.writers| && Outdated(w.writers[i].row, w.cleaners)
  }

  // Some cleanup's cutoff is past this row's stamp.
  ghost predicate Outdated(row: Row, cleaners: seq<Cleaner>) {
    exists j | 0 <= j < |cleaners| :: row.syncedAt < cleaners[j].cutoff
  }

  ghost predicate Good(w: World) {
    && JobsOk(w.writers) && LockOk(w) && RowsMade(w) && SweptOk(w)
    && (forall i | 0 <= i < |w.writers| :: WriterPlaced(w, i))
    && (forall j | 0 <= j < |w.cleaners| :: CleanerOk(w, j))
  }

  ghost predicate SameWrites(writers: seq<Writer>, after: seq<Writer>) {
    && |after| == |writers|
    && forall i | 0 <= i < |writers| :: after[i].place == writers[i].place && after[i].row == writers[i].row
  }

  // The jobs themselves never change.
  ghost predicate SameJobs(w: World, v: World) {
    && SameWrites(w.writers, v.writers) && |v.cleaners| == |w.cleaners|
    && (forall j | 0 <= j < |w.cleaners| :: v.cleaners[j].entity == w.cleaners[j].entity
         && v.cleaners[j].cutoff == w.cleaners[j].cutoff)
  }

  lemma OtherRowMade(w: World, v: World, p: Place)
    requires RowsMade(w) && p in w.rows && p in v.rows && p in v.merged && p in v.creator && v.writers == w.writers
    requires v.rows[p] == w.rows[p] && v.merged[p] == w.merged[p] && v.creator[p] == w.creator[p]
    ensures RowMade(v, p)
  {
  }

  lemma InsertKeepsRowsMade(w: World, i: nat)
    requires RowsMade(w) && i < |w.writers|
    ensures RowsMade(Inserted(w, i))
  {
  }

  lemma UpdateKeepsRowsMade(w: World, i: nat)
    requires JobsOk(w.writers) && RowsMade(w) && i < |w.writers| && w.writers[i].place in w.rows
    ensures RowsMade(Updated(w, i))
  {
    hide RowMade, JobsOk;
    var v, p := Updated(w, i), w.writers[i].place;
    UpdatedRow(w, i);
    assert v.rows.Keys == w.rows.Keys == v.merged.Keys == v.creator.Keys;
    forall q | q in v.rows ensures RowMade(v, q) {
      if q != p { OtherRowMade(w, v, q); }
    }
  }

  lemma UpdatedRow(w: World, i: nat)
    requires JobsOk(w.writers) && RowsMade(w) && i < |w.writers| && w.writers[i].place in w.rows
    ensures RowMade(Updated(w, i), w.writers[i].place)
  {
    var v, u := Updated(w, i), w.writers[i];
    var p := u.place;
    var before, row := w.rows[p], v.rows[p];
    assert RowMade(w, p) && v.merged[p] == w.merged[p] + {i};
    assert row.createdAt == before.createdAt;
    assert row.syncedAt == if before.syncedAt <= u.row.syncedAt then u.row.syncedAt else before.syncedAt;
    forall k | k in v.merged[p]
      ensures k < |v.writers| && v.writers[k].place == p
          && v.writers[k].row.syncedAt <= row.syncedAt
    {
    }
    var k :| k in w.merged[p] && Supplies(w.writers[k].row, w.rows[p]);
    assert i in v.merged[p] && k in v.merged[p];
    if w.rows[p].syncedAt <= u.row.syncedAt {
      assert SamePlace(w.writers, i, k);
      assert w.rows[p].properties + u.row.properties == u.row.properties;
      assert Supplies(v.writers[i].row, v.rows[p]);
    } else {
      assert Supplies(v.writers[k].row, v.rows[p]);
    }
  }

  lemma PhaseKeepsRowsMade(w: World, v: World)
    requires RowsMade(w) && SameWrites(w.writers, v.writers) && v.rows == w.rows && v.merged == w.merged
    requires v.creator == w.creator
    ensures RowsMade(v)
  {
  }

  lemma DeleteKeepsRowsMade(w: World, batch: set<Place>)
    requires RowsMade(w)
    ensures RowsMade(Deleted(w, batch))
  {
    var v := Deleted(w, batch);
    forall p | p in v.rows ensures RowMade(v, p) { OtherRowMade(w, v, p); }
  }

  lemma SweptStays(w: World, v: World)
    requires SweptOk(w) && SameJobs(w, v) && v.swept == w.swept
    ensures SweptOk(v)
  {
  }

  lemma DeleteSweepsOnlyOlder(w: World, j: nat)
    requires Good(w) && j < |w.cleaners| && w.cleaners[j].stage.Deleting?
    ensures SweptOk(Deleted(w, w.cleaners[j].stage.batch))
  {
    var c := w.cleaners[j];
    assert CleanerOk(w, j);
    forall i | i in Victims(w, c.stage.batch) ensures i < |w.writers| && w.writers[i].row.syncedAt < c.cutoff {
      var p :| p in c.stage.batch && p in w.merged && i in w.merged[p];
      assert Loose(w.rows, c.entity, c.cutoff, p) && RowMade(w, p);
    }
  }

  // ----- every step keeps it -----

  lemma JobsOkStays(w: World, v: World)
    requires JobsOk(w.writers) && SameJobs(w, v)
    ensures JobsOk(v.writers)
  {
  }

  lemma WriterStepSameJobs(w: World, i: nat, fault: Fault)
    requires i < |w.writers|
    ensures SameJobs(w, WriterStep(w, i, fault))
  {
    hide Inserted, Updated;
  }

  lemma WriterStepRows(w: World, i: nat, fault: Fault)
    requires JobsOk(w.writers) && RowsMade(w) && i < |w.writers| && WriterPlaced(w, i)
    ensures RowsMade(WriterStep(w, i, fault))
  {
    hide RowsMade, JobsOk, Inserted, Updated, SameWrites;
    WriterStepSameJobs(w, i, fault);
    var u, v := w.writers[i], WriterStep(w, i, fault);
    if u.phase == Inserting && fault != LostBefore {
      InsertKeepsRowsMade(w, i);
      PhaseKeepsRowsMade(Inserted(w, i), v);
    } else if u.phase == Updating && fault != LostBefore {
      UpdateKeepsRowsMade(w, i);
      PhaseKeepsRowsMade(Updated(w, i), v);
    } else {
      PhaseKeepsRowsMade(w, v);
    }
  }

  lemma WriterStepLock(w: World, i: nat, fault: Fault)
    requires LockOk(w) && i < |w.writers|
    ensures LockOk(WriterStep(w, i, fault))
  {
    hide Inserted, Updated;
  }

  lemma WriterStepPlaced(w: World, i: nat, fault: Fault, k: nat)
    requires w.merged.Keys == w.rows.Keys && i < |w.writers| && k < |w.writers| && WriterPlaced(w, k)
    requires WriterPlaced(w, i)
    ensures WriterPlaced(WriterStep(w, i, fault), k)
  {
  }

  /** Every statement of an upsert keeps the invariant. */
  lemma WriterStepGood(w: World, i: nat, fault: Fault)
    requires Good(w) && i < |w.writers|
    ensures Good(WriterStep(w, i, fault)) && SameJobs(w, WriterStep(w, i, fault))
  {
    hide LockOk, RowMade, SweptOk, WriterPlaced, CleanerOk, JobsOk;
    var v := WriterStep(w, i, fault);
    WriterStepSameJobs(w, i, fault);
    WriterStepRows(w, i, fault);
    JobsOkStays(w, v);
    WriterStepLock(w, i, fault);
    forall k | 0 <= k < |v.writers| ensures WriterPlaced(v, k) { WriterStepPlaced(w, i, fault, k); }
    WriterStepCleaners(w, i, fault);
  }

  lemma WriterStepCleaners(w: World, i: nat, fault: Fault)
    requires Good(w) && i < |w.writers|
    ensures SweptOk(WriterStep(w, i, fault))
    ensures forall j | 0 <= j < |w.cleaners| :: CleanerOk(WriterStep(w, i, fault), j)
  {
    hide RowsMade, JobsOk, WriterPlaced, SweptOk, Supplies;
    var v := WriterStep(w, i, fault);
    WriterStepSameJobs(w, i, fault);
    SweptStays(w, v);
    assert v.swept == w.swept && v.cleaners == w.cleaners;
    forall j | 0 <= j < |w.cleaners| ensures CleanerOk(v, j) {
      assert CleanerOk(w, j);
    }
  }

  lemma CleanerStepLock(w: World, j: nat, batch: set<Place>, fault: Fault)
    requires LockOk(w) && j < |w.cleaners|
    ensures LockOk(CleanerStep(w, j, batch, fault))
  {
  }

  lemma CleanerStepRows(w: World, j: nat, batch: set<Place>, fault: Fault)
    requires RowsMade(w) && j < |w.cleaners|
    ensures RowsMade(CleanerStep(w, j, batch, fault))
  {
    hide RowsMade, BatchOk, Deleted;
    var stage, v := w.cleaners[j].stage, CleanerStep(w, j, batch, fault);
    assert v.writers == w.writers;
    if stage.Deleting? && fault != LostBefore {
      DeleteKeepsRowsMade(w, stage.batch);
      PhaseKeepsRowsMade(Deleted(w, stage.batch), v);
    } else {
      assert v.rows == w.rows && v.merged == w.merged && v.creator == w.creator;
      PhaseKeepsRowsMade(w, v);
    }
  }

  lemma CleanerStepSwept(w: World, j: nat, batch: set<Place>, fault: Fault)
    requires Good(w) && j < |w.cleaners|
    ensures SweptOk(CleanerStep(w, j, batch, fault))
  {
    hide LockOk, RowsMade, JobsOk, WriterPlaced, CleanerOk, Loose, SweptOk, Deleted;
    var c, v := w.cleaners[j], CleanerStep(w, j, batch, fault);
    if c.stage.Deleting? && fault != LostBefore {
      DeleteSweepsOnlyOlder(w, j);
      SweptStays(Deleted(w, c.stage.batch), v);
    } else {
      SweptStays(w, v);
    }
  }

  lemma CleanerStepPlaced(w: World, j: nat, batch: set<Place>, fault: Fault, k: nat)
    requires w.merged.Keys == w.rows.Keys && LockOk(w) && j < |w.cleaners| && k < |w.writers| && WriterPlaced(w, k)
    ensures WriterPlaced(CleanerStep(w, j, batch, fault), k)
  {
  }

  lemma CleanerStepCleaners(w: World, j: nat, batch: set<Place>, fault: Fault, k: nat)
    requires Good(w) && j < |w.cleaners| && k < |w.cleaners|
    ensures CleanerOk(CleanerStep(w, j, batch, fault), k)
  {
    hide SweptOk, JobsOk, RowsMade;
    assert CleanerOk(w, k);
    assert w.cleaners[j].stage.Deleting? && k != j ==> !Busy(w.cleaners[k].stage);
  }

  /** Every statement of a cleanup keeps the invariant. */
  lemma CleanerStepGood(w: World, j: nat, batch: set<Place>, fault: Fault)
    requires Good(w) && j < |w.cleaners|
    ensures Good(CleanerStep(w, j, batch, fault)) && SameJobs(w, CleanerStep(w, j, batch, fault))
  {
    hide LockOk, RowMade, SweptOk, WriterPlaced, CleanerOk, JobsOk;
    var v := CleanerStep(w, j, batch, fault);
    CleanerStepRows(w, j, batch, fault);
    CleanerStepSwept(w, j, batch, fault);
    JobsOkStays(w, v);
    CleanerStepLock(w, j, batch, fault);
    forall k | 0 <= k < |v.writers| ensures WriterPlaced(v, k) { CleanerStepPlaced(w, j, batch, fault, k); }
    forall k | 0 <= k < |v.cleaners| ensures CleanerOk(v, k) { CleanerStepCleaners(w, j, batch, fault, k); }
  }

  lemma NextGood(w: World, act: Act)
    requires Good(w)
    ensures Good(Next(w, act)) && SameJobs(w, Next(w, act))
  {
    match act
    case Write(i, fault) => if i < |w.writers| { WriterStepGood(w, i, fault); }
    case Clean(j, batch, fault) => if j < |w.cleaners| { CleanerStepGood(w, j, batch, fault); }
  }

  lemma {:induction false} RunGood(w: World, acts: seq<Act>)
    requires Good(w)
    ensures Good(Run(w, acts)) && SameJobs(w, Run(w, acts))
    decreases |acts|
  {
    if acts != [] {
      NextGood(w, acts[0]);
      RunGood(Next(w, acts[0]), acts[1..]);
    }
  }

  // ----- from the start -----

  function Start(jobs: seq<Writer>, cleanups: seq<Cleaner>): World {
    World(map[], jobs, cleanups, Shared({}), map[], map[], {})
  }

  ghost predicate Unstarted(jobs: seq<Writer>, cleanups: seq<Cleaner>) {
    && JobsOk(jobs)
    && (forall i | 0 <= i < |jobs| :: jobs[i].phase == Waiting)
    && (forall j | 0 <= j < |cleanups| :: cleanups[j].stage == Idle)
  }

  lemma ReachableGood(jobs: seq<Writer>, cleanups: seq<Cleaner>, acts: seq<Act>)
    requires Unstarted(jobs, cleanups)
    ensures Good(Run(Start(jobs, cleanups), acts)) && SameJobs(Start(jobs, cleanups), Run(Start(jobs, cleanups), acts))
  {
    RunGood(Start(jobs, cleanups), acts);
  }

  /** No upsert ever finds its row gone between its statements, and what a cleanup deletes no edge touches
      and no upsert is working on, in every reachable state. */
  lemma UpsertsAndCleanupsExclude(jobs: seq<Writer>, cleanups: seq<Cleaner>, acts: seq<Act>, i: nat, j: nat)
    requires Unstarted(jobs, cleanups) && i < |jobs| && j < |cleanups|
    ensures var w := Run(Start(jobs, cleanups), acts);
            && |w.writers| == |jobs| && |w.cleaners| == |cleanups|
            && (w.writers[i].phase == Updating ==> w.writers[i].place in w.rows)
            && !(Active(w.writers[i].phase) && Busy(w.cleaners[j].stage))
            && (w.cleaners[j].stage.Deleting? ==> forall p | p in w.cleaners[j].stage.batch ::
                  && p in w.rows && p.AtVertex? && p.identity.entityType == w.cleaners[j].entity
                  && w.rows[p].syncedAt < w.cleaners[j].cutoff
                  && forall q | q in w.rows && q.AtEdge? ::
                    q.relation.from != p.identity && q.relation.to != p.identity)
  {
    ReachableGood(jobs, cleanups, acts);
    var w := Run(Start(jobs, cleanups), acts);
    assert WriterPlaced(w, i) && CleanerOk(w, j);
    if w.cleaners[j].stage.Deleting? {
      LooseMeans(w.rows, w.cleaners[j].entity, w.cleaners[j].cutoff);
    }
  }

  lemma LooseMeans(rows: map<Place, Row>, entity: EntityType, cutoff: Time)
    ensures forall p | p in AllLoose(rows, entity, cutoff) ::
              && p in rows && p.AtVertex? && p.identity.entityType == entity && rows[p].syncedAt < cutoff
              && forall q | q in rows && q.AtEdge? :: q.relation.from != p.identity && q.relation.to != p.identity
  {
    forall p, q | p in AllLoose(rows, entity, cutoff) && q in rows && q.AtEdge?
      ensures q.relation.from != p.identity && q.relation.to != p.identity
    {
      assert p.identity !in Touches(q.relation);
    }
  }

  ghost predicate SafeFrom(job: Writer, cleanups: seq<Cleaner>) {
    forall j | 0 <= j < |cleanups| :: cleanups[j].cutoff <= job.row.syncedAt
  }

  /** What an upsert that succeeded wrote stays, whatever cleanups with no later cutoff do. */
  lemma CleanupSparesNewer(jobs: seq<Writer>, cleanups: seq<Cleaner>, acts: seq<Act>, i: nat)
    requires Unstarted(jobs, cleanups) && i < |jobs| && SafeFrom(jobs[i], cleanups)
    ensures var w := Run(Start(jobs, cleanups), acts);
            && |w.writers| == |jobs|
            && (w.writers[i].phase == Ended(true) ==>
                  && jobs[i].place in w.rows && jobs[i].place in w.merged && i in w.merged[jobs[i].place]
                  && jobs[i].row.syncedAt <= w.rows[jobs[i].place].syncedAt)
  {
    ReachableGood(jobs, cleanups, acts);
    var w := Run(Start(jobs, cleanups), acts);
    assert WriterPlaced(w, i);
    assert forall j | 0 <= j < |w.cleaners| :: w.cleaners[j].cutoff == cleanups[j].cutoff;
    assert !Outdated(w.writers[i].row, w.cleaners) && i !in w.swept;
    if w.writers[i].phase == Ended(true) {
      assert RowMade(w, jobs[i].place);
    }
  }

  // All upserts of a place succeeded, and no cleanup reaches past them.
  ghost predicate SettledAt(w: World, jobs: seq<Writer>, cleanups: seq<Cleaner>, p: Place)
    requires |w.writers| == |jobs|
  {
    && (forall i | 0 <= i < |jobs| && jobs[i].place == p :: w.writers[i].phase == Ended(true)
         && SafeFrom(jobs[i], cleanups))
    && exists i | 0 <= i < |jobs| :: jobs[i].place == p
  }

  // The row a settled place holds: the largest stamp written, all properties of an upsert with that stamp,
  // and the creation time of the upsert that inserted it.
  ghost predicate LatestWins(jobs: seq<Writer>, p: Place, row: Row) {
    && (forall i | 0 <= i < |jobs| && jobs[i].place == p :: jobs[i].row.syncedAt <= row.syncedAt)
    && (exists i | 0 <= i < |jobs| :: jobs[i].place == p && Supplies(jobs[i].row, row))
    && (exists i | 0 <= i < |jobs| :: jobs[i].place == p && jobs[i].row.createdAt == row.createdAt)
    && row.createdAt <= row.syncedAt
  }

  /** Whatever the interleaving, a settled place holds the values of the latest upsert. */
  lemma SettledRow(jobs: seq<Writer>, cleanups: seq<Cleaner>, acts: seq<Act>, p: Place)
    requires Unstarted(jobs, cleanups)
    requires var w := Run(Start(jobs, cleanups), acts); |w.writers| == |jobs| && SettledAt(w, jobs, cleanups, p)
    ensures var w := Run(Start(jobs, cleanups), acts);
            && p in w.rows && LatestWins(jobs, p, w.rows[p])
            && p in w.creator && w.creator[p] < |jobs| && jobs[w.creator[p]].row.createdAt == w.rows[p].createdAt
  {
    var w := Run(Start(jobs, cleanups), acts);
    ReachableGood(jobs, cleanups, acts);
    var i :| 0 <= i < |jobs| && jobs[i].place == p;
    CleanupSparesNewer(jobs, cleanups, acts, i);
    forall k | 0 <= k < |jobs| && jobs[k].place == p ensures jobs[k].row.syncedAt <= w.rows[p].syncedAt {
      CleanupSparesNewer(jobs, cleanups, acts, k);
    }
    assert RowMade(w, p);
    var latest :| latest in w.merged[p] && Supplies(w.writers[latest].row, w.rows[p]);
    assert jobs[latest].place == p && jobs[latest].row == w.writers[latest].row;
    var first := w.creator[p];
    assert jobs[first].place == p && jobs[first].row == w.writers[first].row;
  }

  ghost predicate DistinctStamps(jobs: seq<Writer>, p: Place) {
    forall i, j :: SamePlace(jobs, i, j) && jobs[i].place == p && jobs[i].row.syncedAt == jobs[j].row.syncedAt ==>
         i == j
  }

  /** With distinct stamps the order does not matter: two executions of the same upserts, under whatever
      cleanups, leave the same properties and the same stamp. */
  lemma OrderDoesNotMatter(jobs: seq<Writer>, cleanups: seq<Cleaner>, acts: seq<Act>, others: seq<Act>, p: Place)
    requires Unstarted(jobs, cleanups) && DistinctStamps(jobs, p)
    requires var w := Run(Start(jobs, cleanups), acts); |w.writers| == |jobs| && SettledAt(w, jobs, cleanups, p)
    requires var v := Run(Start(jobs, cleanups), others); |v.writers| == |jobs| && SettledAt(v, jobs, cleanups, p)
    ensures var w, v := Run(Start(jobs, cleanups), acts), Run(Start(jobs, cleanups), others);
            && p in w.rows && p in v.rows
            && w.rows[p].syncedAt == v.rows[p].syncedAt && w.rows[p].properties == v.rows[p].properties
  {
    SettledRow(jobs, cleanups, acts, p);
    SettledRow(jobs, cleanups, others, p);
    LatestIsUnique(jobs, p, Run(Start(jobs, cleanups), acts).rows[p], Run(Start(jobs, cleanups), others).rows[p]);
  }

  lemma LatestIsUnique(jobs: seq<Writer>, p: Place, a: Row, b: Row)
    requires DistinctStamps(jobs, p) && LatestWins(jobs, p, a) && LatestWins(jobs, p, b)
    ensures a.syncedAt == b.syncedAt && a.properties == b.properties
  {
  }
}
