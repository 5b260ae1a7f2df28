/**
 After a run has succeeded: what any number of steps of the other actors can still change of what it left.
 The run's row is frozen. Its checkpoint and the stamps of its edges can be taken over by a later run, and
 then never come back; they can change in no other way.
 */
module AfterRun {
  import opened Base
  import opened Control
  import opened ControlInvariants
  import opened Graph
  import opened System
  import opened Session

  function EnvExec(sys: Sys, steps: seq<EnvStep>): Sys
    decreases |steps|
  {
    if steps == [] then sys else EnvExec(EnvApply(sys, steps[0]), steps[1..])
  }

  // Steps of actors other than the worker of run `me`, each one possible where it is taken.
  ghost predicate EnvStepsOk(me: string, sys: Sys, steps: seq<EnvStep>)
    decreases |steps|
  {
    steps == [] || (EnvOk(me, sys, steps[0]) && EnvStepsOk(me, EnvApply(sys, steps[0]), steps[1..]))
  }

  // The checkpoint still names the session's run.
  predicate Named(s: Store, x: Session) {
    x.key in s.checkpoints && s.checkpoints[x.key].cursor.runId == x.runId
  }

  // The edge still carries the session's snapshot.
  predicate Stamped(g: Graph, x: Session, e: RelationIdentity) {
    e in g.edges && e.sourceId == x.key.sourceId && g.edges[e].syncedAt == x.snapshot
  }

  ghost predicate CheckpointLasts(s: Store, t: Store, x: Session) {
    Named(t, x) ==> Named(s, x) && t.checkpoints[x.key] == s.checkpoints[x.key]
  }

  ghost predicate StampsLast(g: Graph, h: Graph, x: Session) {
    forall e :: Stamped(h, x, e) ==> Stamped(g, x, e) && h.edges[e] == g.edges[e]
  }

  ghost predicate RowLasts(s: Store, t: Store, x: Session) {
    x.runId in s.runs && x.runId in t.runs && t.runs[x.runId] == s.runs[x.runId]
  }

  // What lasts from one moment after the run's success to a later one.
  ghost predicate Lasts(a: Sys, b: Sys, x: Session) {
    && Held(b, x) && HasSucceeded(b, x) && RowLasts(a.store, b.store, x)
    && CheckpointLasts(a.store, b.store, x) && Keeps(a.graph, b.graph) && StampsLast(a.graph, b.graph, x)
  }

  lemma ControlStepLasts(s: Store, step: Step, x: Session)
    requires !WorkerStep(step, x.runId) || step.RenewStep?
    ensures CheckpointLasts(s, Apply(s, step), x)
  {
    if !CheckpointStep(step) {
      OtherStepsLeaveCheckpoints(s, step);
    } else if step.key != x.key {
      CheckpointStepTouchesOneKey(s, step, x.key);
    } else {
      OtherRunsCheckpoint(s, step, x);
    }
  }

  // A checkpoint step that changes the checkpoint leaves it naming the run that took the step.
  lemma OtherRunsCheckpoint(s: Store, step: Step, x: Session)
    requires CheckpointStep(step) && step.key == x.key && step.runId != x.runId
    ensures CheckpointLasts(s, Apply(s, step), x)
  {
  }

  // Other runs of the source have other snapshots.
  lemma OthersStampDiffers(s: Store, x: Session, q: string)
    requires ClaimOrder(s) && Claimed(s, x.runId) && Claimed(s, q) && q != x.runId
    requires s.runs[q].sourceId == s.runs[x.runId].sourceId
    ensures s.runs[q].startedAt != s.runs[x.runId].startedAt
  {
    assert BothClaimed(s, q, x.runId) && Ordered(s, q, x.runId);
  }

  lemma GraphStepLasts(sys: Sys, e: EnvStep, x: Session)
    requires Held(sys, x) && EnvOk(x.runId, sys, e) && !e.EnvControl?
    ensures Keeps(sys.graph, EnvApply(sys, e).graph) && StampsLast(sys.graph, EnvApply(sys, e).graph, x)
  {
    if e.EnvEdge? {
      if e.relation.sourceId == x.key.sourceId { OthersStampDiffers(sys.store, x, e.q); }
    }
  }

  lemma EnvStepLasts(sys: Sys, e: EnvStep, x: Session)
    requires Held(sys, x) && HasSucceeded(sys, x) && EnvOk(x.runId, sys, e)
    ensures Lasts(sys, EnvApply(sys, e), x)
  {
    var after := EnvApply(sys, e);
    EnvStepRely(x.runId, sys, e);
    if e.EnvControl? {
      ControlStepLasts(sys.store, e.step, x);
    } else {
      GraphStepLasts(sys, e, x);
    }
  }

  lemma LastsTransitive(a: Sys, b: Sys, c: Sys, x: Session)
    requires Lasts(a, b, x) && Lasts(b, c, x)
    ensures Lasts(a, c, x)
  {
    hide Keeps, Stamped;
    KeepsTransitive(a.graph, b.graph, c.graph);
  }

  /** Once a run has succeeded, no steps of others change its row, delete an edge or a vertex that has one,
      or put its snapshot on an edge; its checkpoint, as long as it names the run, is the one it completed. */
  lemma {:induction false} SuccessLasts(sys: Sys, steps: seq<EnvStep>, x: Session)
    requires Held(sys, x) && HasSucceeded(sys, x) && EnvStepsOk(x.runId, sys, steps)
    ensures Lasts(sys, EnvExec(sys, steps), x)
    decreases |steps|
  {
    hide Held, CheckpointLasts, StampsLast, RowLasts, Keeps;
    if steps == [] {
      LastsHere(sys, x);
    } else {
      var next := EnvApply(sys, steps[0]);
      EnvStepLasts(sys, steps[0], x);
      SuccessLasts(next, steps[1..], x);
      LastsTransitive(sys, next, EnvExec(next, steps[1..]), x);
    }
  }

  lemma LastsHere(sys: Sys, x: Session)
    requires Held(sys, x) && HasSucceeded(sys, x)
    ensures Lasts(sys, sys, x)
  {
  }
}
