/**
 The control plane and the graph together, with every other actor of the deployment: clients,
 other workers, workers whose run is already over but who are still writing, and this worker's
 own heartbeat. Rely says what all of them together can do between two statements of one worker.
 */
module System {
  import opened Base
  import opened Control
  import opened ControlInvariants
  import opened Graph

  datatype Sys = Sys(store: Store, graph: Graph)

  // Some run of the source was claimed at this instant.
  ghost predicate ClaimedAt(s: Store, sourceId: string, t: Time) {
    exists q | q in s.runs :: s.runs[q].sourceId == sourceId && s.runs[q].startedAt == Some(t)
  }

  ghost predicate BothClaimed(s: Store, a: string, b: string) {
    Claimed(s, a) && Claimed(s, b) && a != b && s.runs[a].sourceId == s.runs[b].sourceId
  }

  // Claims of one source happen at different instants, and the run that holds the lease is the latest.
  ghost predicate ClaimOrder(s: Store) {
    forall a, b :: BothClaimed(s, a, b) ==> Ordered(s, a, b)
  }

  ghost predicate RowStamped(s: Store, sourceId: string, row: Row) {
    ClaimedAt(s, sourceId, row.syncedAt) && row.createdAt <= row.syncedAt && row.createdAt != ZERO_TIME
  }

  // Everything in the graph was last written on behalf of a claimed run.
  ghost predicate GraphOk(s: Store, g: Graph) {
    && (forall v | v in g.vertices :: RowStamped(s, v.sourceId, g.vertices[v]))
    && (forall e | e in g.edges :: RowStamped(s, e.sourceId, g.edges[e]))
  }

  ghost predicate SysInv(sys: Sys) {
    Inv(sys.store) && ClaimOrder(sys.store) && GraphOk(sys.store, sys.graph)
  }

  // The assumption that claim times of one source strictly increase.
  predicate ClaimFresh(s: Store, step: Step) {
    step.ClaimStep? && step.pick in s.runs ==>
      forall q | q in s.runs ::
        s.runs[q].sourceId == s.runs[step.pick].sourceId && s.runs[q].startedAt.Some? ==>
            s.runs[q].startedAt.value < step.at
  }

  // ----- the environment of the worker of run `me` -----

  datatype EnvStep =
    | EnvControl(step: Step)
    | EnvVertex(q: string, identity: Identity, row: Row, whole: bool)
    | EnvEdge(q: string, relation: RelationIdentity, row: Row, whole: bool)
    | EnvCleanup(q: string, entityType: EntityType, gone: set<Identity>)

  predicate Claimed(s: Store, q: string) {
    q in s.runs && s.runs[q].startedAt.Some?
  }

  predicate Writes(s: Store, q: string, sourceId: string, row: Row) {
    && Claimed(s, q)
    && sourceId == s.runs[q].sourceId
    && row.syncedAt == s.runs[q].startedAt.value
    && row.createdAt == row.syncedAt
  }

  // Anyone but this worker may do anything; on this worker's run others only renew, cancel and sweep.
  predicate EnvOk(me: string, sys: Sys, e: EnvStep) {
    match e
    case EnvControl(step) =>
      StepOk(step) && ClaimFresh(sys.store, step) && (WorkerStep(step, me) ==> step.RenewStep?)
    case EnvVertex(q, identity, row, _) => q != me && Writes(sys.store, q, identity.sourceId, row)
    case EnvEdge(q, relation, row, _) => q != me && Writes(sys.store, q, relation.sourceId, row)
    case EnvCleanup(q, entityType, gone) =>
      && q != me && Claimed(sys.store, q)
      && gone <= Orphans(sys.graph, sys.store.runs[q].sourceId, entityType, sys.store.runs[q].startedAt.value)
  }

  function Put<K>(rows: map<K, Row>, key: K, row: Row, whole: bool): map<K, Row> {
    if whole then Upsert(rows, key, row) else InsertIfAbsent(rows, key, row)
  }

  function EnvApply(sys: Sys, e: EnvStep): Sys {
    match e
    case EnvControl(step) => sys.(store := Apply(sys.store, step))
    case EnvVertex(_, identity, row, whole) =>
      sys.(graph := sys.graph.(vertices := Put(sys.graph.vertices, identity, row, whole)))
    case EnvEdge(_, relation, row, whole) =>
      sys.(graph := sys.graph.(edges := Put(sys.graph.edges, relation, row, whole)))
    case EnvCleanup(_, _, gone) =>
      sys.(graph := sys.graph.(vertices := sys.graph.vertices - gone))
  }

  // ----- the invariant is kept -----

  // A step other than a claim starts nobody and activates nobody.
  ghost predicate StartsKept(s: Store, t: Store, id: string)
    requires id in t.runs
  {
    if id in s.runs then
      && t.runs[id].startedAt == s.runs[id].startedAt
      && (Leased(t.runs[id].status) ==> Leased(s.runs[id].status))
      && t.runs[id].sourceId == s.runs[id].sourceId
    else t.runs[id].startedAt.None?
  }

  lemma StepKeepsStarts(s: Store, step: Step, id: string)
    requires StepOk(step) && id in Apply(s, step).runs && !step.ClaimStep?
    ensures StartsKept(s, Apply(s, step), id)
  {
    if step.EnqueueStep? {
    } else if step.BeginStep? || step.AdvanceStep? || step.CompleteStep? {
      CheckpointStepKeepsStarts(s, step, id);
    } else if !step.PutSource? {
      StatusStepKeepsStarts(s, step, id);
    }
  }

  lemma CheckpointStepKeepsStarts(s: Store, step: Step, id: string)
    requires id in Apply(s, step).runs && (step.BeginStep? || step.AdvanceStep? || step.CompleteStep?)
    ensures StartsKept(s, Apply(s, step), id)
  {
  }

  lemma StatusStepKeepsStarts(s: Store, step: Step, id: string)
    requires id in Apply(s, step).runs && (step.CancelStep? || step.TransitionStep? || step.RenewStep?)
    ensures StartsKept(s, Apply(s, step), id)
  {
  }

  // A claim starts at most the run it picks, which then holds a lease.
  lemma ClaimStarts(s: Store, step: Step, id: string)
    requires step.ClaimStep? && id in Apply(s, step).runs
    ensures StartsKept(s, Apply(s, step), id)
         || (&& id == step.pick && id in s.runs && Claimable(s.runs[id])
             && Apply(s, step).runs[id].sourceId == s.runs[id].sourceId
             && Apply(s, step).runs[id].startedAt == Some(step.at) && Leased(Apply(s, step).runs[id].status))
  {
  }

  ghost predicate Ordered(s: Store, a: string, b: string)
    requires BothClaimed(s, a, b)
  {
    && s.runs[a].startedAt != s.runs[b].startedAt
    && (Leased(s.runs[b].status) ==> s.runs[a].startedAt.value < s.runs[b].startedAt.value)
  }

  lemma ControlStepKeepsClaimOrder(s: Store, step: Step)
    requires Inv(s) && ClaimOrder(s) && StepOk(step) && ClaimFresh(s, step)
    ensures ClaimOrder(Apply(s, step))
  {
    var t := Apply(s, step);
    forall a, b | BothClaimed(t, a, b) ensures Ordered(t, a, b) {
      if step.ClaimStep? {
        ClaimKeepsOrder(s, step, a, b);
      } else {
        StepKeepsStarts(s, step, a);
        StepKeepsStarts(s, step, b);
        assert BothClaimed(s, a, b) && Ordered(s, a, b);
      }
    }
  }

  lemma ClaimKeepsOrder(s: Store, step: Step, a: string, b: string)
    requires Inv(s) && ClaimOrder(s) && ClaimFresh(s, step) && step.ClaimStep?
    requires BothClaimed(Apply(s, step), a, b)
    ensures Ordered(Apply(s, step), a, b)
  {
    ClaimStarts(s, step, a);
    ClaimStarts(s, step, b);
    assert RowOk(s.runs[a]) && RowOk(s.runs[b]);
    if StartsKept(s, Apply(s, step), a) && StartsKept(s, Apply(s, step), b) {
      assert BothClaimed(s, a, b) && Ordered(s, a, b);
    } else if !StartsKept(s, Apply(s, step), a) {
      ClaimEndsOthers(s, step, b);
    }
  }

  // When a run is claimed, no other run of its source holds a lease.
  lemma ClaimEndsOthers(s: Store, step: Step, b: string)
    requires Inv(s) && step.ClaimStep? && b in Apply(s, step).runs
    requires step.pick in Apply(s, step).runs && b != step.pick && !StartsKept(s, Apply(s, step), step.pick)
    requires Apply(s, step).runs[b].sourceId == Apply(s, step).runs[step.pick].sourceId
    ensures !Leased(Apply(s, step).runs[b].status)
  {
    ClaimStarts(s, step, step.pick);
    ClaimStarts(s, step, b);
    assert !Rivals(s.runs, b, step.pick);
  }

  lemma StepKeepsClaimedAt(s: Store, step: Step, sourceId: string, t: Time)
    requires Inv(s) && StepOk(step) && ClaimedAt(s, sourceId, t)
    ensures ClaimedAt(Apply(s, step), sourceId, t)
  {
    var q :| q in s.runs && s.runs[q].sourceId == sourceId && s.runs[q].startedAt == Some(t);
    StepEvolvesRow(s, step, q);
  }

  lemma ControlStepKeepsSysInv(sys: Sys, step: Step)
    requires SysInv(sys) && StepOk(step) && ClaimFresh(sys.store, step)
    ensures SysInv(sys.(store := Apply(sys.store, step)))
  {
    StepKeepsInv(sys.store, step);
    ControlStepKeepsClaimOrder(sys.store, step);
    var t := Apply(sys.store, step);
    forall v | v in sys.graph.vertices ensures RowStamped(t, v.sourceId, sys.graph.vertices[v]) {
      StepKeepsClaimedAt(sys.store, step, v.sourceId, sys.graph.vertices[v].syncedAt);
    }
    forall e | e in sys.graph.edges ensures RowStamped(t, e.sourceId, sys.graph.edges[e]) {
      StepKeepsClaimedAt(sys.store, step, e.sourceId, sys.graph.edges[e].syncedAt);
    }
  }

  lemma VertexWriteKeepsSysInv(sys: Sys, q: string, identity: Identity, row: Row, whole: bool)
    requires SysInv(sys) && Writes(sys.store, q, identity.sourceId, row)
    ensures SysInv(sys.(graph := sys.graph.(vertices := Put(sys.graph.vertices, identity, row, whole))))
  {
  }

  lemma EdgeWriteKeepsSysInv(sys: Sys, q: string, relation: RelationIdentity, row: Row, whole: bool)
    requires SysInv(sys) && Writes(sys.store, q, relation.sourceId, row)
    ensures SysInv(sys.(graph := sys.graph.(edges := Put(sys.graph.edges, relation, row, whole))))
  {
  }

  /** Nobody lowers a stored stamp. What a run wrote keeps a stamp no older than its snapshot, so it is never
      an orphan to that run's own cleanup, whatever has become of its lease. */
  lemma StampsNeverFall(sys: Sys, e: EnvStep, cutoff: Time, v: Identity)
    requires v in sys.graph.vertices && sys.graph.vertices[v].syncedAt >= cutoff && v in EnvApply(sys, e).graph.vertices
    ensures EnvApply(sys, e).graph.vertices[v].syncedAt >= cutoff
    ensures v !in Orphans(EnvApply(sys, e).graph, v.sourceId, v.entityType, cutoff)
  {
  }

  // ----- what the environment can do to one run -----

  ghost predicate RowRely(before: SyncRun, after: SyncRun) {
    && after.sourceId == before.sourceId
    && after.startedAt == before.startedAt
    && (before.cancelRequestedAt.Some? ==> after.cancelRequestedAt == before.cancelRequestedAt)
    && (Terminal(before.status) ==> after == before)
    && (Leased(after.status) ==> after.status == before.status)
    && (!Leased(after.status) && Leased(before.status) ==> after.status == Failed || after.status == Canceled)
  }

  function StampedVertices(g: Graph, sourceId: string, t: Time): map<Identity, Row> {
    map v | v in g.vertices && v.sourceId == sourceId && g.vertices[v].syncedAt == t :: g.vertices[v]
  }

  function StampedEdges(g: Graph, sourceId: string, t: Time): map<RelationIdentity, Row> {
    map e | e in g.edges && e.sourceId == sourceId && g.edges[e].syncedAt == t :: g.edges[e]
  }

  function SourceCheckpoints(s: Store, sourceId: string): map<Key, Checkpoint> {
    map key | key in s.checkpoints && key.sourceId == sourceId :: s.checkpoints[key]
  }

  // While the run keeps its lease, nobody else touches its source's checkpoints or anything stamped with its snapshot.
  ghost predicate Rely(me: string, a: Sys, b: Sys)
    requires Claimed(a.store, me)
  {
    var run := a.store.runs[me];
    var t := run.startedAt.value;
    && me in b.store.runs
    && RowRely(run, b.store.runs[me])
    && (Leased(b.store.runs[me].status) ==>
          && SourceCheckpoints(b.store, run.sourceId) == SourceCheckpoints(a.store, run.sourceId)
          && StampedVertices(b.graph, run.sourceId, t) == StampedVertices(a.graph, run.sourceId, t)
          && StampedEdges(b.graph, run.sourceId, t) == StampedEdges(a.graph, run.sourceId, t))
  }

  predicate CheckpointStep(step: Step) {
    step.BeginStep? || step.AdvanceStep? || step.CompleteStep?
  }

  lemma CheckpointStepTouchesOneKey(s: Store, step: Step, key: Key)
    requires CheckpointStep(step) && key != step.key
    ensures key in Apply(s, step).checkpoints <==> key in s.checkpoints
    ensures key in s.checkpoints ==> Apply(s, step).checkpoints[key] == s.checkpoints[key]
  {
  }

  lemma OtherStepsLeaveCheckpoints(s: Store, step: Step)
    requires !CheckpointStep(step)
    ensures Apply(s, step).checkpoints == s.checkpoints
  {
  }

  // A checkpoint step of another run of the source fails while this run holds its lease.
  lemma RivalCheckpointStep(s: Store, step: Step, me: string)
    requires OneActive(s.runs) && Claimed(s, me) && Leased(s.runs[me].status)
    requires CheckpointStep(step) && step.runId != me && step.key.sourceId == s.runs[me].sourceId
    ensures Apply(s, step) == s
  {
    assert !Rivals(s.runs, me, step.runId);
  }

  lemma OthersLeaveCheckpoints(s: Store, step: Step, me: string)
    requires OneActive(s.runs) && Claimed(s, me) && Leased(s.runs[me].status) && !WorkerStep(step, me)
    ensures SourceCheckpoints(Apply(s, step), s.runs[me].sourceId) == SourceCheckpoints(s, s.runs[me].sourceId)
  {
    if !CheckpointStep(step) {
      OtherStepsLeaveCheckpoints(s, step);
    } else if step.key.sourceId == s.runs[me].sourceId {
      RivalCheckpointStep(s, step, me);
    } else {
      forall key | key != step.key
        ensures (key in Apply(s, step).checkpoints <==> key in s.checkpoints)
        ensures key in s.checkpoints ==> Apply(s, step).checkpoints[key] == s.checkpoints[key]
      {
        CheckpointStepTouchesOneKey(s, step, key);
      }
    }
  }

  lemma ControlStepRowRely(s: Store, step: Step, me: string)
    requires StepOk(step) && Claimed(s, me) && RowOk(s.runs[me]) && (WorkerStep(step, me) ==> step.RenewStep?)
    ensures me in Apply(s, step).runs && RowRely(s.runs[me], Apply(s, step).runs[me])
  {
    if step.BeginStep? || step.AdvanceStep? || step.CompleteStep? {
      CheckpointStepLeavesRow(s, step, me);
    } else if step.CancelStep? || step.TransitionStep? || step.RenewStep? {
      StatusStepRowRely(s, step, me);
    } else if step.ClaimStep? {
      ClaimStepRowRely(s, step, me);
    }
  }

  lemma ClaimStepRowRely(s: Store, step: Step, me: string)
    requires Claimed(s, me) && RowOk(s.runs[me]) && step.ClaimStep?
    ensures me in Apply(s, step).runs && RowRely(s.runs[me], Apply(s, step).runs[me])
  {
  }

  lemma CheckpointStepLeavesRow(s: Store, step: Step, me: string)
    requires me in s.runs && (step.BeginStep? || step.AdvanceStep? || step.CompleteStep?) && !WorkerStep(step, me)
    ensures me in Apply(s, step).runs && Apply(s, step).runs[me] == s.runs[me]
  {
  }

  lemma StatusStepRowRely(s: Store, step: Step, me: string)
    requires Claimed(s, me) && RowOk(s.runs[me]) && (WorkerStep(step, me) ==> step.RenewStep?)
    requires step.CancelStep? || step.TransitionStep? || step.RenewStep?
    ensures me in Apply(s, step).runs && RowRely(s.runs[me], Apply(s, step).runs[me])
  {
  }

  // Anyone else's stamp is older than the snapshot of the run that holds the source's lease.
  lemma OtherStampsAreOlder(s: Store, me: string, q: string)
    requires ClaimOrder(s) && Claimed(s, me) && Claimed(s, q) && q != me
    requires s.runs[q].sourceId == s.runs[me].sourceId && Leased(s.runs[me].status)
    ensures s.runs[q].startedAt.value < s.runs[me].startedAt.value
  {
    assert BothClaimed(s, q, me) && Ordered(s, q, me);
  }

  lemma EnvControlRely(me: string, sys: Sys, e: EnvStep)
    requires OneActive(sys.store.runs) && Claimed(sys.store, me) && RowOk(sys.store.runs[me])
    requires EnvOk(me, sys, e) && e.EnvControl?
    ensures Rely(me, sys, EnvApply(sys, e))
  {
    ControlStepRowRely(sys.store, e.step, me);
    if !WorkerStep(e.step, me) {
      if Leased(sys.store.runs[me].status) { OthersLeaveCheckpoints(sys.store, e.step, me); }
    }
  }

  lemma EnvVertexRely(me: string, sys: Sys, e: EnvStep)
    requires ClaimOrder(sys.store) && Claimed(sys.store, me) && EnvOk(me, sys, e) && e.EnvVertex?
    ensures Rely(me, sys, EnvApply(sys, e))
  {
    var run := sys.store.runs[me];
    if Leased(run.status) {
      if e.identity.sourceId == run.sourceId { OtherStampsAreOlder(sys.store, me, e.q); }
    }
  }

  lemma EnvEdgeRely(me: string, sys: Sys, e: EnvStep)
    requires ClaimOrder(sys.store) && Claimed(sys.store, me) && EnvOk(me, sys, e) && e.EnvEdge?
    ensures Rely(me, sys, EnvApply(sys, e))
  {
    var run := sys.store.runs[me];
    if Leased(run.status) {
      if e.relation.sourceId == run.sourceId { OtherStampsAreOlder(sys.store, me, e.q); }
    }
  }

  lemma EnvCleanupRely(me: string, sys: Sys, e: EnvStep)
    requires ClaimOrder(sys.store) && Claimed(sys.store, me) && EnvOk(me, sys, e) && e.EnvCleanup?
    ensures Rely(me, sys, EnvApply(sys, e))
  {
    var run := sys.store.runs[me];
    if Leased(run.status) && sys.store.runs[e.q].sourceId == run.sourceId {
      OtherStampsAreOlder(sys.store, me, e.q);
    }
  }

  lemma EnvStepKeepsSysInv(me: string, sys: Sys, e: EnvStep)
    requires SysInv(sys) && EnvOk(me, sys, e)
    ensures SysInv(EnvApply(sys, e))
  {
    match e
    case EnvControl(step) => ControlStepKeepsSysInv(sys, step);
    case EnvVertex(q, identity, row, whole) => VertexWriteKeepsSysInv(sys, q, identity, row, whole);
    case EnvEdge(q, relation, row, whole) => EdgeWriteKeepsSysInv(sys, q, relation, row, whole);
    case EnvCleanup(_, _, _) =>
  }

  /** Every step of every other actor keeps the system invariant and stays within what a worker relies on. */
  lemma EnvStepRely(me: string, sys: Sys, e: EnvStep)
    requires SysInv(sys) && Claimed(sys.store, me) && EnvOk(me, sys, e)
    ensures SysInv(EnvApply(sys, e)) && Rely(me, sys, EnvApply(sys, e))
  {
    EnvStepKeepsSysInv(me, sys, e);
    assert RowOk(sys.store.runs[me]);
    match e
    case EnvControl(_) => EnvControlRely(me, sys, e);
    case EnvVertex(_, _, _, _) => EnvVertexRely(me, sys, e);
    case EnvEdge(_, _, _, _) => EnvEdgeRely(me, sys, e);
    case EnvCleanup(_, _, _) => EnvCleanupRely(me, sys, e);
  }
}
