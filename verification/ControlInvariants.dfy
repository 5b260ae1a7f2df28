/** What every reachable state of the control plane satisfies, and why a finished worker is fenced off. */
module ControlInvariants {
  import opened Base
  import opened Control

  ghost predicate RowOk(run: SyncRun) {
    && (Leased(run.status) <==> run.leaseExpiresAt.Some?)
    && (Terminal(run.status) <==> run.finishedAt.Some?)
    && (Leased(run.status) || run.status == Succeeded ==> run.startedAt.Some?)
    && (run.status == Queued ==> run.startedAt.None?)
    && run.startedAt != Some(ZERO_TIME)
    && (run.status == Publishing || run.status == Succeeded ==> run.cancelRequestedAt.None?)
  }

  ghost predicate CheckpointRowOk(s: Store, key: Key)
    requires key in s.checkpoints
  {
    var checkpoint := s.checkpoints[key];
    var runId := checkpoint.cursor.runId;
    && DecodeOk(key.resource, checkpoint.cursor)
    && runId in s.runs
    && s.runs[runId].sourceId == key.sourceId
    && s.runs[runId].startedAt.Some?
    && if checkpoint.complete then
         && s.runs[runId].status == Succeeded
         && checkpoint.cursor.nextOffset == checkpoint.cursor.total
         && checkpoint.completedAt.Some?
         && checkpoint.completedAt == s.runs[runId].finishedAt
       else checkpoint.completedAt.None?
  }

  // Two rows of one source that are both still to finish.
  ghost predicate Rivals(runs: map<string, SyncRun>, a: string, b: string) {
    && a in runs && b in runs && runs[a].sourceId == runs[b].sourceId
    && !Terminal(runs[a].status) && !Terminal(runs[b].status)
  }

  ghost predicate OneActive(runs: map<string, SyncRun>) {
    forall a, b :: Rivals(runs, a, b) ==> a == b
  }

  ghost predicate SameKey(runs: map<string, SyncRun>, a: string, b: string) {
    && a in runs && b in runs && runs[a].sourceId == runs[b].sourceId
    && runs[a].idempotencyKey == runs[b].idempotencyKey
  }

  ghost predicate KeysUnique(runs: map<string, SyncRun>) {
    forall a, b :: SameKey(runs, a, b) ==> a == b
  }

  ghost predicate Inv(s: Store) {
    && (forall id | id in s.runs :: RowOk(s.runs[id]))
    && OneActive(s.runs)
    && KeysUnique(s.runs)
    && (forall key | key in s.checkpoints :: CheckpointRowOk(s, key))
  }

  // ----- preservation -----

  lemma SweptRowOk(run: SyncRun, now: Time, only: Option<string>)
    requires RowOk(run)
    ensures RowReplaceable(run, Swept(run, now, only)) && RowEvolves(run, Swept(run, now, only))
  {
  }

  lemma SweepKeepsInv(s: Store, now: Time, only: Option<string>)
    requires Inv(s)
    ensures Inv(s.(runs := Sweep(s.runs, now, only)))
  {
    var t := s.(runs := Sweep(s.runs, now, only));
    forall id | id in t.runs ensures RowReplaceable(s.runs[id], t.runs[id]) {
      SweptRowOk(s.runs[id], now, only);
    }
    ReplaceRowsKeepsInv(s, t);
  }

  lemma ReplaceRowsKeepsInv(s: Store, t: Store)
    requires Inv(s) && t.checkpoints == s.checkpoints && t.runs.Keys == s.runs.Keys
    requires forall id | id in t.runs :: RowReplaceable(s.runs[id], t.runs[id])
    ensures Inv(t)
  {
    assert forall id | id in t.runs :: RowOk(t.runs[id]) by {
      forall id | id in t.runs ensures RowOk(t.runs[id]) { assert RowReplaceable(s.runs[id], t.runs[id]); }
    }
    forall a, b | Rivals(t.runs, a, b) ensures a == b {
      assert RowReplaceable(s.runs[a], t.runs[a]) && RowReplaceable(s.runs[b], t.runs[b]);
      assert Rivals(s.runs, a, b);
    }
    forall a, b | SameKey(t.runs, a, b) ensures a == b {
      assert RowReplaceable(s.runs[a], t.runs[a]) && RowReplaceable(s.runs[b], t.runs[b]);
      assert SameKey(s.runs, a, b);
    }
    forall key | key in t.checkpoints ensures CheckpointRowOk(t, key) {
      assert CheckpointRowOk(s, key);
      var runId := s.checkpoints[key].cursor.runId;
      assert RowReplaceable(s.runs[runId], t.runs[runId]);
    }
  }

  // A run row replaced by a sound one that is no more active than before, keeps its identity,
  // and does not undo what a checkpoint already says about it.
  ghost predicate RowReplaceable(before: SyncRun, after: SyncRun) {
    && RowOk(after)
    && after.sourceId == before.sourceId
    && after.idempotencyKey == before.idempotencyKey
    && (Terminal(before.status) ==> after == before)
    && (before.startedAt.Some? ==> after.startedAt.Some?)
  }

  lemma ReplaceRowKeepsInv(s: Store, id: string, run: SyncRun)
    requires Inv(s) && id in s.runs && RowReplaceable(s.runs[id], run)
    ensures Inv(s.(runs := s.runs[id := run]))
  {
    var t := s.(runs := s.runs[id := run]);
    forall q | q in t.runs ensures RowReplaceable(s.runs[q], t.runs[q]) {
      assert RowOk(s.runs[q]);
    }
    ReplaceRowsKeepsInv(s, t);
  }

  lemma EnqueueKeepsInv(s: Store, id: string, request: SyncRun, now: Time)
    requires Inv(s) && FreshRequest(request)
    ensures Inv(Enqueue(s, id, request, now).0)
  {
    if request.sourceId in s.sources {
      var swept := s.(runs := Sweep(s.runs, now, Some(request.sourceId)));
      SweepKeepsInv(s, now, Some(request.sourceId));
      if Enqueue(s, id, request, now).1 == Created {
        var t := Enqueue(s, id, request, now).0;
        assert t == swept.(runs := swept.runs[id := request]);
        forall q | q in swept.runs && swept.runs[q].sourceId == request.sourceId
          ensures Terminal(swept.runs[q].status)
        {
          assert !Blocks(swept.runs[q], request.sourceId);
        }
        forall a, b | Rivals(t.runs, a, b) ensures a == b {
          assert a != id && b != id ==> Rivals(swept.runs, a, b);
        }
        forall a, b | SameKey(t.runs, a, b) ensures a == b {
          assert a != id && b != id ==> SameKey(swept.runs, a, b);
        }
        forall key | key in t.checkpoints ensures CheckpointRowOk(t, key) {
          assert CheckpointRowOk(swept, key);
        }
      }
    }
  }

  lemma ClaimKeepsInv(s: Store, at: Time, only: Option<string>, pick: string)
    requires Inv(s)
    ensures Inv(Claim(s, at, only, pick).0)
  {
    var swept := if only.None? then s.(runs := Sweep(s.runs, at, None)) else s;
    if only.None? { SweepKeepsInv(s, at, None); }
    if Claim(s, at, only, pick).1.Ok? {
      var run := Claim(s, at, only, pick).0.runs[pick];
      ReplaceRowKeepsInv(swept, pick, run);
      assert Claim(s, at, only, pick).0 == swept.(runs := swept.runs[pick := run]);
    }
  }

  lemma BeginKeepsInv(s: Store, key: Key, runId: string, startedAt: Time, leaseAt: Time)
    requires Inv(s)
    ensures Inv(Begin(s, key, runId, startedAt, leaseAt).0)
  {
  }

  lemma AdvanceKeepsInv(s: Store, key: Key, runId: string, cursor: Cursor, at: Time)
    requires Inv(s)
    ensures Inv(Advance(s, key, runId, cursor, at).0)
  {
    var t := Advance(s, key, runId, cursor, at).0;
    if t != s {
      var run := t.runs[runId];
      ReplaceRowKeepsInv(s, runId, run);
      var u := s.(runs := s.runs[runId := run]);
      assert t == u.(checkpoints := u.checkpoints[key := Checkpoint(cursor, false, None, at)]);
      forall k | k in t.checkpoints ensures CheckpointRowOk(t, k) {
        if k != key { assert CheckpointRowOk(u, k); }
      }
    }
  }

  lemma CompleteKeepsInv(s: Store, key: Key, runId: string, expected: Status, at: Time)
    requires Inv(s)
    ensures Inv(Complete(s, key, runId, expected, at).0)
  {
    var t := Complete(s, key, runId, expected, at).0;
    if t != s {
      var run := t.runs[runId];
      ReplaceRowKeepsInv(s, runId, run);
      var u := s.(runs := s.runs[runId := run]);
      assert t == u.(checkpoints := u.checkpoints[key := t.checkpoints[key]]);
      forall k | k in t.checkpoints ensures CheckpointRowOk(t, k) {
        assert CheckpointRowOk(u, k);
      }
    }
  }

  lemma StatusStepKeepsInv(s: Store, step: Step)
    requires Inv(s) && (step.CancelStep? || step.TransitionStep? || step.RenewStep?)
    ensures Inv(Apply(s, step))
  {
    var t := Apply(s, step);
    if t != s {
      assert RowOk(s.runs[step.id]) && RowReplaceable(s.runs[step.id], t.runs[step.id]);
      ReplaceRowKeepsInv(s, step.id, t.runs[step.id]);
    }
  }

  lemma PutSourceKeepsInv(s: Store, id: string, source: Source)
    requires Inv(s)
    ensures Inv(s.(sources := s.sources[id := source]))
  {
  }

  lemma StepKeepsInv(s: Store, step: Step)
    requires Inv(s) && StepOk(step)
    ensures Inv(Apply(s, step))
  {
    match step
    case PutSource(id, source) => PutSourceKeepsInv(s, id, source);
    case EnqueueStep(id, request, now) => EnqueueKeepsInv(s, id, request, now);
    case ClaimStep(at, only, pick) => ClaimKeepsInv(s, at, only, pick);
    case CancelStep(_, _) => StatusStepKeepsInv(s, step);
    case TransitionStep(_, _, _, _, _) => StatusStepKeepsInv(s, step);
    case RenewStep(_, _) => StatusStepKeepsInv(s, step);
    case BeginStep(key, runId, startedAt, leaseAt) => BeginKeepsInv(s, key, runId, startedAt, leaseAt);
    case AdvanceStep(key, runId, cursor, at) => AdvanceKeepsInv(s, key, runId, cursor, at);
    case CompleteStep(key, runId, expected, at) => CompleteKeepsInv(s, key, runId, expected, at);
  }

  /** Every reachable state of the control plane satisfies the invariant. */
  lemma {:induction false} ReachableInv(s: Store, steps: seq<Step>)
    requires Inv(s) && StepsOk(steps)
    ensures Inv(Exec(s, steps))
    decreases |steps|
  {
    if steps == [] {
    } else {
      StepKeepsInv(s, steps[0]);
      ReachableInv(Apply(s, steps[0]), steps[1..]);
    }
  }

  // ----- rows over time -----

  // What any other step leaves of a row: it stays, keeps its identity, and a terminal row is frozen.
  ghost predicate RowEvolves(before: SyncRun, after: SyncRun) {
    && after.sourceId == before.sourceId
    && after.idempotencyKey == before.idempotencyKey
    && after.requestHash == before.requestHash
    && after.createdAt == before.createdAt
    && (before.startedAt.Some? ==> after.startedAt == before.startedAt)
    && (before.cancelRequestedAt.Some? ==> after.cancelRequestedAt == before.cancelRequestedAt)
    && (Terminal(before.status) ==> after == before)
    && (Leased(before.status) ==> after.status != Queued)
  }

  lemma EnqueueEvolvesRow(s: Store, id: string, request: SyncRun, now: Time, q: string)
    requires q in s.runs && RowOk(s.runs[q])
    ensures q in Enqueue(s, id, request, now).0.runs && RowEvolves(s.runs[q], Enqueue(s, id, request, now).0.runs[q])
  {
  }

  lemma ClaimEvolvesRow(s: Store, at: Time, only: Option<string>, pick: string, q: string)
    requires q in s.runs && RowOk(s.runs[q])
    ensures q in Claim(s, at, only, pick).0.runs && RowEvolves(s.runs[q], Claim(s, at, only, pick).0.runs[q])
  {
  }

  lemma CheckpointStepEvolvesRow(s: Store, step: Step, id: string)
    requires id in s.runs && (step.BeginStep? || step.AdvanceStep? || step.CompleteStep?)
    ensures id in Apply(s, step).runs && RowEvolves(s.runs[id], Apply(s, step).runs[id])
  {
  }

  lemma StatusStepEvolvesRow(s: Store, step: Step, id: string)
    requires id in s.runs && (step.CancelStep? || step.TransitionStep? || step.RenewStep?)
    ensures id in Apply(s, step).runs && RowEvolves(s.runs[id], Apply(s, step).runs[id])
  {
  }

  lemma StepEvolvesRow(s: Store, step: Step, id: string)
    requires StepOk(step) && id in s.runs && RowOk(s.runs[id])
    ensures id in Apply(s, step).runs && RowEvolves(s.runs[id], Apply(s, step).runs[id])
  {
    if step.EnqueueStep? {
      EnqueueEvolvesRow(s, step.id, step.request, step.now, id);
    } else if step.ClaimStep? {
      ClaimEvolvesRow(s, step.at, step.only, step.pick, id);
    } else if step.BeginStep? || step.AdvanceStep? || step.CompleteStep? {
      CheckpointStepEvolvesRow(s, step, id);
    } else if !step.PutSource? {
      StatusStepEvolvesRow(s, step, id);
    }
  }

  lemma {:induction false} RowsEvolve(s: Store, steps: seq<Step>, id: string)
    requires Inv(s) && StepsOk(steps) && id in s.runs
    ensures id in Exec(s, steps).runs && RowEvolves(s.runs[id], Exec(s, steps).runs[id])
    decreases |steps|
  {
    if steps == [] {
    } else {
      StepKeepsInv(s, steps[0]);
      StepEvolvesRow(s, steps[0], id);
      RowsEvolve(Apply(s, steps[0]), steps[1..], id);
    }
  }

  lemma {:induction false} SourcesStay(s: Store, steps: seq<Step>, sourceId: string)
    requires sourceId in s.sources
    ensures sourceId in Exec(s, steps).sources
    decreases |steps|
  {
    if steps != [] { SourcesStay(Apply(s, steps[0]), steps[1..], sourceId); }
  }

  /** Enqueueing is idempotent for ever: once a request has created a run, a request of the same source and
      key, at any later state, creates nothing; it is a replay if it asks for the same, and refused if not. */
  lemma EnqueueIsIdempotent(s: Store, id: string, request: SyncRun, now: Time, later: seq<Step>,
      again: string, repeated: SyncRun, next: Time)
    requires Inv(s) && FreshRequest(request) && StepsOk(later) && Enqueue(s, id, request, now).1 == Created
    requires repeated.sourceId == request.sourceId && repeated.idempotencyKey == request.idempotencyKey
    ensures var t := Exec(Enqueue(s, id, request, now).0, later);
            && Enqueue(t, again, repeated, next).1
               == (if repeated.requestHash == request.requestHash then Replayed else Rejected(Idempotency))
            && Enqueue(t, again, repeated, next).0.runs.Keys == t.runs.Keys
  {
    var created := Enqueue(s, id, request, now).0;
    var t := Exec(created, later);
    EnqueueKeepsInv(s, id, request, now);
    RowsEvolve(created, later, id);
    ReachableInv(created, later);
    SourcesStay(created, later, request.sourceId);
    var runs := Sweep(t.runs, next, Some(request.sourceId));
    assert runs[id].sourceId == request.sourceId && runs[id].idempotencyKey == request.idempotencyKey;
    assert runs[id].requestHash == request.requestHash;
    forall q | q in runs && runs[q].sourceId == request.sourceId && runs[q].idempotencyKey == request.idempotencyKey
      ensures q == id
    {
      assert SameKey(t.runs, q, id);
    }
  }

  /** An accepted cancel wins: in no later state is the run publishing or succeeded. */
  lemma AcceptedCancelWins(s: Store, id: string, now: Time, later: seq<Step>)
    requires Inv(s) && StepsOk(later) && Cancel(s, id, now).1.Ok?
    ensures var t := Exec(Cancel(s, id, now).0, later);
            id in t.runs && t.runs[id].status != Publishing && t.runs[id].status != Succeeded
  {
    var asked := Cancel(s, id, now).0;
    StepKeepsInv(s, CancelStep(id, now));
    RowsEvolve(asked, later, id);
    ReachableInv(asked, later);
    assert RowOk(Exec(asked, later).runs[id]);
  }

  // ----- fencing -----

  /** For a reachable active run, "lease current" and "stale" split every instant between them. */
  lemma LeaseDichotomy(s: Store, id: string, at: Time)
    requires Inv(s) && id in s.runs && Leased(s.runs[id].status)
    ensures LeaseCurrent(s.runs[id], at) <==> !LeaseStale(s.runs[id], at)
  {
  }

  function StepTime(step: Step): Time {
    match step
    case TransitionStep(_, _, _, at, _) => at
    case RenewStep(_, at) => at
    case BeginStep(_, _, _, at) => at
    case AdvanceStep(_, _, _, at) => at
    case CompleteStep(_, _, _, at) => at
    case _ => ZERO_TIME
  }

  /** A step of a worker whose run is terminal, or whose lease is stale at the instant the step passes,
      changes no row. */
  lemma FencedStep(s: Store, step: Step, id: string)
    requires Inv(s) && id in s.runs && WorkerStep(step, id)
    requires Terminal(s.runs[id].status) || LeaseStale(s.runs[id], StepTime(step))
    ensures Apply(s, step) == s
  {
  }

  // ----- lapsed but not yet swept -----

  // The instants a worker passes: its clock, except that a stop may pass the instant the run started.
  ghost predicate PassesClock(s: Store, step: Step, id: string, now: Time)
    requires id in s.runs
  {
    || StepTime(step) >= now
    || (step.TransitionStep? && Some(step.at) == s.runs[id].startedAt && (step.to == Failed || step.to == Canceled))
  }

  /** A run that has lapsed but was not swept: its worker changes something only if the instant it passes is
      before the lease's end. That is only so for a stop at the start instant, and all it does is end this run. */
  lemma LapsedRunCanOnlyEnd(s: Store, step: Step, id: string, now: Time)
    requires Inv(s) && id in s.runs && Leased(s.runs[id].status) && LeaseStale(s.runs[id], now)
    requires WorkerStep(step, id) && PassesClock(s, step, id, now) && Apply(s, step) != s
    ensures LeaseCurrent(s.runs[id], StepTime(step)) && StepTime(step) < now && step.TransitionStep?
    ensures var run := Apply(s, step).runs[id];
            && (run.status == Failed || run.status == Canceled) && run.finishedAt == s.runs[id].startedAt
            && Apply(s, step) == s.(runs := s.runs[id := run])
  {
    LeaseDichotomy(s, id, StepTime(step));
    LeaseDichotomy(s, id, now);
  }

  // The lease ends after the run started.
  ghost predicate LeaseOutlivesStart(run: SyncRun) {
    Leased(run.status) && run.leaseExpiresAt.Some? && run.startedAt.Some? ==>
        run.leaseExpiresAt.value > run.startedAt.value
  }

  /** As long as the run's own worker passes no instant before the start, the lease ends after the start. */
  lemma LeaseKeepsOutlivingStart(s: Store, step: Step, id: string)
    requires Inv(s) && StepOk(step) && id in s.runs && LeaseOutlivesStart(s.runs[id])
    requires WorkerStep(step, id) && s.runs[id].startedAt.Some? ==> StepTime(step) >= s.runs[id].startedAt.value
    ensures id in Apply(s, step).runs && LeaseOutlivesStart(Apply(s, step).runs[id])
  {
    assert RowOk(s.runs[id]);
    hide Inv;
    if step.BeginStep? || step.AdvanceStep? || step.CompleteStep? {
      CheckpointStepKeepsOutliving(s, step, id);
    } else if step.ClaimStep? {
      ClaimKeepsOutliving(s, step, id);
    } else if step.TransitionStep? || step.RenewStep? || step.CancelStep? {
      StatusStepKeepsOutliving(s, step, id);
    }
  }

  lemma CheckpointStepKeepsOutliving(s: Store, step: Step, id: string)
    requires id in s.runs && LeaseOutlivesStart(s.runs[id])
    requires step.BeginStep? || step.AdvanceStep? || step.CompleteStep?
    requires WorkerStep(step, id) && s.runs[id].startedAt.Some? ==> StepTime(step) >= s.runs[id].startedAt.value
    ensures id in Apply(s, step).runs && LeaseOutlivesStart(Apply(s, step).runs[id])
  {
  }

  lemma ClaimKeepsOutliving(s: Store, step: Step, id: string)
    requires id in s.runs && LeaseOutlivesStart(s.runs[id]) && RowOk(s.runs[id]) && step.ClaimStep?
    ensures id in Apply(s, step).runs && LeaseOutlivesStart(Apply(s, step).runs[id])
  {
  }

  lemma StatusStepKeepsOutliving(s: Store, step: Step, id: string)
    requires id in s.runs && LeaseOutlivesStart(s.runs[id])
    requires step.TransitionStep? || step.RenewStep? || step.CancelStep?
    requires WorkerStep(step, id) && s.runs[id].startedAt.Some? ==> StepTime(step) >= s.runs[id].startedAt.value
    ensures id in Apply(s, step).runs && LeaseOutlivesStart(Apply(s, step).runs[id])
  {
  }

  /** So a stop at the start instant goes through exactly when the row still stands where the worker left it,
      however long ago the lease lapsed. */
  lemma StopIgnoresLapse(s: Store, id: string, from: Status, to: Status, code: string)
    requires Inv(s) && id in s.runs && id != "" && Leased(from) && LeaseOutlivesStart(s.runs[id])
    requires s.runs[id].startedAt.Some? && TransitionAllowed(from, to)
    requires to == Canceled || (to == Failed && ErrorCodeOk(code))
    ensures Transition(s, id, from, to, s.runs[id].startedAt.value, code).1.Ok? <==> s.runs[id].status == from
  {
    assert RowOk(s.runs[id]);
  }

  const LAPSED_RUN := SyncRun("s", Running, "h", "k", None, 1, Some(2), None, "", Some(2 + LEASE_DURATION))

  const LAPSED_STORE := Store(map[], map["r" := LAPSED_RUN], map[])

  /** Such a run: an hour after its lease lapsed the worker's stop still fails it. */
  lemma LapsedRunStillStops()
    ensures Inv(LAPSED_STORE) && LeaseStale(LAPSED_RUN, 2 + 5 * LEASE_DURATION)
    ensures var stop := TransitionStep("r", Running, Failed, 2, "cancellation_check_failed");
            Apply(LAPSED_STORE, stop).runs["r"].status == Failed
  {
    var code := "cancellation_check_failed";
    assert ErrorCodeOk(code);
  }

  /** A sweep that commits ends every leased run it covers whose lease has lapsed. */
  lemma SweepEndsStaleRuns(s: Store, now: Time, only: Option<string>, id: string)
    requires Inv(s) && id in s.runs && Leased(s.runs[id].status) && !LeaseCurrent(s.runs[id], now)
    requires only.Some? ==> s.runs[id].sourceId == only.value
    ensures Terminal(Sweep(s.runs, now, only)[id].status)
  {
  }

  /** Once a newer run of the same source has been created, the older run is over: in every later
      state no step of the older run's worker changes anything. */
  lemma NewerRunFences(s: Store, id: string, newer: string, request: SyncRun, now: Time, later: seq<Step>, step: Step)
    requires Inv(s) && FreshRequest(request) && StepsOk(later)
    requires id in s.runs && s.runs[id].sourceId == request.sourceId
    requires Enqueue(s, newer, request, now).1 == Created
    requires WorkerStep(step, id)
    ensures var t := Exec(Enqueue(s, newer, request, now).0, later);
            id in t.runs && Terminal(t.runs[id].status) && Apply(t, step) == t
  {
    var swept := Sweep(s.runs, now, Some(request.sourceId));
    var created := Enqueue(s, newer, request, now).0;
    assert !Blocks(swept[id], request.sourceId);
    assert id != newer;
    EnqueueKeepsInv(s, newer, request, now);
    RowsEvolve(created, later, id);
    ReachableInv(created, later);
    FencedStep(Exec(created, later), step, id);
  }

  /** Once a committed sweep has ended a run, no step of its worker changes anything in any later state. */
  lemma ExpiredRunIsFenced(s: Store, now: Time, only: Option<string>, id: string, later: seq<Step>, step: Step)
    requires Inv(s) && StepsOk(later) && id in s.runs && WorkerStep(step, id)
    requires Leased(s.runs[id].status) && !LeaseCurrent(s.runs[id], now)
    requires only.Some? ==> s.runs[id].sourceId == only.value
    ensures var t := Exec(s.(runs := Sweep(s.runs, now, only)), later);
            Apply(t, step) == t
  {
    var swept := s.(runs := Sweep(s.runs, now, only));
    SweepKeepsInv(s, now, only);
    SweepEndsStaleRuns(s, now, only, id);
    RowsEvolve(swept, later, id);
    ReachableInv(swept, later);
    FencedStep(Exec(swept, later), step, id);
  }

  // ----- the end of a run -----

  /** A run in publishing is never canceled, by anyone: it succeeds, fails, or stays until its lease lapses. */
  lemma PublishingIsNeverCanceled(s: Store, step: Step, id: string)
    requires Inv(s) && StepOk(step) && id in s.runs && s.runs[id].status == Publishing
    ensures id in Apply(s, step).runs && Apply(s, step).runs[id].status in {Publishing, Succeeded, Failed}
  {
    assert RowOk(s.runs[id]);
    if step.BeginStep? || step.AdvanceStep? || step.CompleteStep? {
      CheckpointStepEnds(s, step, id);
    } else if step.CancelStep? || step.TransitionStep? || step.RenewStep? {
      StatusStepEnds(s, step, id);
    }
  }

  lemma CheckpointStepEnds(s: Store, step: Step, id: string)
    requires id in s.runs && s.runs[id].status == Publishing
    requires (step.BeginStep? || step.AdvanceStep? || step.CompleteStep?)
    ensures id in Apply(s, step).runs && Apply(s, step).runs[id].status in {Publishing, Succeeded}
  {
  }

  lemma StatusStepEnds(s: Store, step: Step, id: string)
    requires id in s.runs && s.runs[id].status == Publishing
    requires (step.CancelStep? || step.TransitionStep? || step.RenewStep?)
    ensures id in Apply(s, step).runs && Apply(s, step).runs[id].status in {Publishing, Succeeded, Failed}
  {
  }

  /** A step makes a run succeed only out of publishing, and it is either the joint completion, which also
      completes the run's checkpoint, or a plain transition, which leaves every checkpoint as it was. */
  lemma HowRunsSucceed(s: Store, step: Step, id: string)
    requires Inv(s) && StepOk(step) && id in s.runs && s.runs[id].status != Succeeded
    requires id in Apply(s, step).runs && Apply(s, step).runs[id].status == Succeeded
    ensures s.runs[id].status == Publishing
    ensures || (&& step.CompleteStep? && step.runId == id && step.key in s.checkpoints
                && Apply(s, step).checkpoints == s.checkpoints[step.key := Apply(s, step).checkpoints[step.key]]
                && Apply(s, step).checkpoints[step.key].complete
                && Apply(s, step).checkpoints[step.key].cursor.runId == id)
            || (step.TransitionStep? && step.id == id && Apply(s, step).checkpoints == s.checkpoints)
  {
    assert RowOk(s.runs[id]);
    if step.EnqueueStep? || step.ClaimStep? {
      SweepingStepEndsNone(s, step, id);
    } else if step.CompleteStep? {
      CompletionSucceeds(s, step, id);
    }
  }

  ghost predicate CheckpointedBy(s: Store, id: string) {
    exists key | key in s.checkpoints :: s.checkpoints[key].complete && s.checkpoints[key].cursor.runId == id
  }

  /** When a run becomes succeeded, it has a complete checkpoint if and only if it did so by the joint completion. */
  lemma CheckpointedExactly(s: Store, step: Step, id: string)
    requires Inv(s) && StepOk(step) && id in s.runs && s.runs[id].status != Succeeded
    requires id in Apply(s, step).runs && Apply(s, step).runs[id].status == Succeeded
    ensures CheckpointedBy(Apply(s, step), id) <==> step.CompleteStep?
  {
    HowRunsSucceed(s, step, id);
    forall key | key in s.checkpoints ensures !(s.checkpoints[key].complete && s.checkpoints[key].cursor.runId == id) {
      assert CheckpointRowOk(s, key);
    }
  }

  const PLAIN_REQUEST := SyncRun("s", Queued, "h", "k", None, 1, None, None, "", None)

  const PLAIN_SOURCES: map<string, Source> := map["s" := Source("cmdb", "c", true)]

  // The same row later on: claimed at 2, then moved on at each further instant.
  function PlainRow(status: Status, at: Time): SyncRun {
    PLAIN_REQUEST.(status := status, startedAt := Some(2),
      finishedAt := if status == Succeeded then Some(at) else None,
      leaseExpiresAt := if status == Succeeded then None else Some(at + LEASE_DURATION))
  }

  function PlainStore(run: SyncRun): Store {
    Store(PLAIN_SOURCES, map["r" := run], map[])
  }

  const PLAIN_START := [PutSource("s", Source("cmdb", "c", true)), EnqueueStep("r", PLAIN_REQUEST, 1),
      ClaimStep(2, None, "r")]

  const PLAIN_END := [
    TransitionStep("r", Running, Validating, 3, ""), TransitionStep("r", Validating, Publishing, 4, ""),
    TransitionStep("r", Publishing, Succeeded, 5, "")]

  /** The other way is open: a reachable store with a succeeded run and no checkpoint at all. */
  lemma SucceededWithoutCheckpoint()
    ensures StepsOk(PLAIN_START + PLAIN_END)
    ensures var s := Exec(EmptyStore(), PLAIN_START + PLAIN_END);
            "r" in s.runs && s.runs["r"].status == Succeeded && !CheckpointedBy(s, "r")
  {
    PlainStart();
    PlainEnd();
    ExecSum(EmptyStore(), PLAIN_START, PLAIN_END);
  }

  lemma PlainStart()
    ensures Exec(EmptyStore(), PLAIN_START) == PlainStore(PlainRow(Running, 2))
  {
    var steps := PLAIN_START;
    var s1 := Apply(EmptyStore(), steps[0]);
    assert s1 == Store(PLAIN_SOURCES, map[], map[]);
    var s2 := Apply(s1, steps[1]);
    assert Sweep(s1.runs, 1, Some("s")) == map[];
    assert s2 == PlainStore(PLAIN_REQUEST);
    assert Sweep(s2.runs, 2, None) == s2.runs && FirstClaimable(s2.runs, None, "r");
    assert Apply(s2, steps[2]) == PlainStore(PlainRow(Running, 2));
    ExecFront(EmptyStore(), steps);
    ExecFront(s1, steps[1..]);
    ExecFront(s2, steps[2..]);
  }

  lemma PlainEnd()
    ensures Exec(PlainStore(PlainRow(Running, 2)), PLAIN_END) == PlainStore(PlainRow(Succeeded, 5))
  {
    var steps := PLAIN_END;
    assert Apply(PlainStore(PlainRow(Running, 2)), steps[0]) == PlainStore(PlainRow(Validating, 3));
    assert Apply(PlainStore(PlainRow(Validating, 3)), steps[1]) == PlainStore(PlainRow(Publishing, 4));
    assert Apply(PlainStore(PlainRow(Publishing, 4)), steps[2]) == PlainStore(PlainRow(Succeeded, 5));
    hide Apply;
    ExecFront(PlainStore(PlainRow(Running, 2)), steps);
    ExecFront(PlainStore(PlainRow(Validating, 3)), steps[1..]);
    ExecFront(PlainStore(PlainRow(Publishing, 4)), steps[2..]);
  }

  lemma {:induction false} ExecSum(s: Store, a: seq<Step>, b: seq<Step>)
    ensures Exec(s, a + b) == Exec(Exec(s, a), b)
    decreases |a|
  {
    if a == [] {
      assert a + b == b;
    } else {
      assert (a + b)[1..] == a[1..] + b;
      ExecSum(Apply(s, a[0]), a[1..], b);
    }
  }

  lemma ExecFront(s: Store, steps: seq<Step>)
    requires steps != []
    ensures Exec(s, steps) == Exec(Apply(s, steps[0]), steps[1..])
  {
  }

  lemma SweepingStepEndsNone(s: Store, step: Step, id: string)
    requires StepOk(step) && (step.EnqueueStep? || step.ClaimStep?) && id in s.runs && s.runs[id].status != Succeeded
    ensures id in Apply(s, step).runs && Apply(s, step).runs[id].status != Succeeded
  {
  }

  lemma CompletionSucceeds(s: Store, step: Step, id: string)
    requires step.CompleteStep? && id in s.runs && s.runs[id].status != Succeeded
    requires id in Apply(s, step).runs && Apply(s, step).runs[id].status == Succeeded
    ensures s.runs[id].status == Publishing && step.runId == id && step.key in s.checkpoints
    ensures Apply(s, step).checkpoints == s.checkpoints[step.key := Apply(s, step).checkpoints[step.key]]
    ensures Apply(s, step).checkpoints[step.key].complete && Apply(s, step).checkpoints[step.key].cursor.runId == id
  {
  }

  // ----- cursors over time -----

  // How one run's cursor may move: not at all, or strictly forward.
  ghost predicate CursorForward(resource: string, before: Cursor, after: Cursor) {
    || after == before
    || (&& after.runId == before.runId
        && after.snapshotAt == before.snapshotAt
        && after.nextOffset > before.nextOffset
        && (resource != UPLINK_RESOURCE ==>
              || after.lastPartition > before.lastPartition
              || (after.lastPartition == before.lastPartition && after.lastInstanceId > before.lastInstanceId))
        && (before.total != 0 ==> after.total == before.total))
  }

  lemma CursorForwardTransitive(resource: string, a: Cursor, b: Cursor, c: Cursor)
    requires CursorForward(resource, a, b) && CursorForward(resource, b, c)
    ensures CursorForward(resource, a, c)
  {
  }

  lemma StepMovesCursorForward(s: Store, step: Step, key: Key)
    requires OneActive(s.runs) && key in s.checkpoints && CheckpointRowOk(s, key)
    ensures key in Apply(s, step).checkpoints
    ensures var before, after := s.checkpoints[key].cursor, Apply(s, step).checkpoints[key].cursor;
            || CursorForward(key.resource, before, after)
            || (after.runId != before.runId && Terminal(s.runs[before.runId].status))
  {
    var runId := s.checkpoints[key].cursor.runId;
    if step.BeginStep? && step.key == key && Holds(s, key.sourceId, step.runId, Running, step.leaseAt)
        && runId != step.runId {
      assert !Rivals(s.runs, runId, step.runId);
    }
  }

  lemma StepKeepsCheckpointAway(s: Store, step: Step, key: Key, runId: string)
    requires StepOk(step) && key in s.checkpoints
    requires runId in s.runs && RowOk(s.runs[runId]) && Terminal(s.runs[runId].status)
    requires s.checkpoints[key].cursor.runId != runId
    ensures key in Apply(s, step).checkpoints && Apply(s, step).checkpoints[key].cursor.runId != runId
    ensures runId in Apply(s, step).runs && Terminal(Apply(s, step).runs[runId].status)
  {
    StepEvolvesRow(s, step, runId);
  }

  // A checkpoint that has passed to another run never returns to a terminal one.
  lemma {:induction false} CheckpointNeverReturns(s: Store, steps: seq<Step>, key: Key, runId: string)
    requires Inv(s) && StepsOk(steps) && key in s.checkpoints
    requires runId in s.runs && Terminal(s.runs[runId].status) && s.checkpoints[key].cursor.runId != runId
    ensures key in Exec(s, steps).checkpoints && Exec(s, steps).checkpoints[key].cursor.runId != runId
    decreases |steps|
  {
    if steps == [] {
    } else {
      StepKeepsInv(s, steps[0]);
      StepKeepsCheckpointAway(s, steps[0], key, runId);
      CheckpointNeverReturns(Apply(s, steps[0]), steps[1..], key, runId);
    }
  }

  /** Between any two moments at which a checkpoint belongs to the same run, its cursor has only
      moved forward: the snapshot is the same, and so is the total once it is known. */
  lemma {:induction false} CursorsMoveForward(s: Store, steps: seq<Step>, key: Key)
    requires Inv(s) && StepsOk(steps) && key in s.checkpoints
    ensures key in Exec(s, steps).checkpoints
    ensures var before, after := s.checkpoints[key].cursor, Exec(s, steps).checkpoints[key].cursor;
            after.runId == before.runId ==> CursorForward(key.resource, before, after)
    decreases |steps|
  {
    if steps == [] {
    } else {
      var t := Apply(s, steps[0]);
      var runId := s.checkpoints[key].cursor.runId;
      StepKeepsInv(s, steps[0]);
      StepMovesCursorForward(s, steps[0], key);
      assert CheckpointRowOk(s, key);
      StepEvolvesRow(s, steps[0], runId);
      if t.checkpoints[key].cursor.runId == runId {
        CursorsMoveForward(t, steps[1..], key);
        var last := Exec(t, steps[1..]).checkpoints[key].cursor;
        if last.runId == runId {
          CursorForwardTransitive(key.resource, s.checkpoints[key].cursor, t.checkpoints[key].cursor, last);
        }
      } else {
        CheckpointNeverReturns(t, steps[1..], key, runId);
      }
    }
  }

  /** In every reachable state a stored cursor decodes, and a complete checkpoint names a succeeded
      run of its own source that finished at that same instant with nothing left to read. */
  lemma ReachableCheckpoints(steps: seq<Step>, key: Key)
    requires StepsOk(steps) && key in Exec(EmptyStore(), steps).checkpoints
    ensures var s := Exec(EmptyStore(), steps); CheckpointRowOk(s, key)
  {
    ReachableInv(EmptyStore(), steps);
  }

  /** In every reachable state: one active run per source; a lease exactly while leased; an end
      exactly when terminal; no cancel request on a publishing or succeeded run. */
  lemma ReachableRuns(steps: seq<Step>)
    requires StepsOk(steps)
    ensures var s := Exec(EmptyStore(), steps);
            OneActive(s.runs) && KeysUnique(s.runs) && forall id | id in s.runs :: RowOk(s.runs[id])
  {
    ReachableInv(EmptyStore(), steps);
  }

  // ----- the claim -----

  // Of two different strings one is below the other.
  lemma {:induction false} LexTotal(a: string, b: string)
    ensures a != b ==> LexBelow(a, b) || LexBelow(b, a)
    decreases |a|
  {
    if a != "" && b != "" && a[0] == b[0] {
      assert a == [a[0]] + a[1..] && b == [b[0]] + b[1..];
      LexTotal(a[1..], b[1..]);
    }
  }

  lemma {:induction false} LexTransitive(a: string, b: string, c: string)
    requires LexBelow(a, b) && LexBelow(b, c)
    ensures LexBelow(a, c)
    decreases |a|
  {
    if a != "" && a[0] == b[0] == c[0] {
      LexTransitive(a[1..], b[1..], c[1..]);
    }
  }

  lemma {:induction false} FirstExists(runs: map<string, SyncRun>, ids: set<string>) returns (pick: string)
    requires ids != {} && ids <= runs.Keys
    ensures pick in ids && forall q | q in ids && q != pick :: Precedes(runs, pick, q)
    decreases |ids|
  {
    pick :| pick in ids;
    var rest := ids - {pick};
    if rest == {} {
      assert ids == {pick};
    } else {
      var other := FirstExists(runs, rest);
      LexTotal(pick, other);
      if !Precedes(runs, pick, other) {
        pick := other;
      } else {
        forall q | q in ids && q != pick ensures Precedes(runs, pick, q) {
          assert q in rest && (q != other ==> Precedes(runs, other, q));
          if q != other && runs[pick].createdAt == runs[q].createdAt && runs[other].createdAt == runs[q].createdAt {
            LexTransitive(pick, other, q);
          }
        }
      }
    }
  }

  /** A claim finds a run whenever one is waiting; only a run of a missing source is refused. */
  lemma ClaimFindsWaitingRun(s: Store, at: Time, only: Option<string>, waiting: string) returns (pick: string)
    requires at != ZERO_TIME && waiting in s.runs && Claimable(s.runs[waiting])
    requires only.Some? ==> only.value == waiting
    ensures pick in s.runs && Claim(s, at, only, pick).1 == if s.runs[pick].sourceId in s.sources then Ok(pick)
              else Err(UnknownSource)
  {
    var runs := if only.None? then Sweep(s.runs, at, None) else s.runs;
    var ids := set q | q in runs && Claimable(runs[q]) && (only.Some? ==> q == only.value);
    assert waiting in ids;
    pick := FirstExists(runs, ids);
    assert FirstClaimable(runs, only, pick);
  }
}
