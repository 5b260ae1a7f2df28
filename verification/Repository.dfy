/**
 The inventory repository: the transactions of module Control carried out row by row on the
 two tables. The database may fail any transaction; it may also report failure for one that
 did commit, so an answer of Database leaves both possibilities open.
 */
module Repository {
  import opened Base
  import opened Control
  import opened ControlInvariants
  import opened Answers

  class InventoryRepository {
    var sources: map<string, Source>
    var runs: map<string, SyncRun>
    var checkpoints: map<Key, Checkpoint>

    constructor ()
      ensures Contents() == EmptyStore()
    {
      sources, runs, checkpoints := map[], map[], map[];
    }

    function Contents(): Store
      reads this
    {
      Store(sources, runs, checkpoints)
    }

    // Two updates: the stale runs asked to cancel, then the stale runs that were not.
    method ExpireStaleSyncRuns(now: Time, only: Option<string>)
      modifies this`runs
      ensures runs == Sweep(old(runs), now, only)
      ensures AllSwept(old(runs), runs, now, only)
    {
      hide AllSwept, Sweepable, LEASE_EXPIRED;
      ghost var before := runs;
      runs := map id | id in runs ::
        if Sweepable(runs[id], now, only) && runs[id].cancelRequestedAt.Some? then
          runs[id].(status := Canceled, finishedAt := Some(now), errorCode := "", leaseExpiresAt := None)
        else runs[id];
      runs := map id | id in runs ::
        if Sweepable(runs[id], now, only) && runs[id].cancelRequestedAt.None? then
          runs[id].(status := Failed, finishedAt := Some(now), errorCode := LEASE_EXPIRED, leaseExpiresAt := None)
        else runs[id];
      assert runs == Sweep(before, now, only);
      hide *;
      SweepMeans(before, now, only);
    }

    method Enqueue(id: string, request: SyncRun, now: Time) returns (outcome: EnqueueOutcome)
      modifies this`runs
      ensures var spec := Control.Enqueue(old(Contents()), id, request, now);
              || (outcome == spec.1 && Contents() == spec.0)
              || (outcome == Rejected(Database) && (Contents() == old(Contents()) || Contents() == spec.0))
      ensures outcome != Rejected(Database) ==> EnqueueAnswer(old(Contents()), Contents(), id, request, now, outcome)
      ensures outcome == Rejected(Database) && Contents() != old(Contents()) ==>
                exists a :: EnqueueAnswer(old(Contents()), Contents(), id, request, now, a)
    {
      EnqueueMeans(Contents(), id, request, now);
      hide EnqueueAnswer, AllSwept;
      var down: bool := *;
      if down { return Rejected(Database); }
      if request.sourceId !in sources { return Rejected(UnknownSource); }
      var before := runs;
      ExpireStaleSyncRuns(now, Some(request.sourceId));
      if exists q | q in runs :: runs[q].sourceId == request.sourceId
          && runs[q].idempotencyKey == request.idempotencyKey {
        if !exists q | q in runs ::
             && runs[q].sourceId == request.sourceId && runs[q].idempotencyKey == request.idempotencyKey
             && runs[q].requestHash == request.requestHash
        {
          runs := before;
          return Rejected(Idempotency);
        }
        outcome := Replayed;
      } else if !sources[request.sourceId].enabled {
        runs := before;
        return Rejected(UnknownSource);
      } else if exists q | q in runs :: Blocks(runs[q], request.sourceId) {
        runs := before;
        return Rejected(Conflict);
      } else if id in runs {
        runs := before;
        return Rejected(Database);
      } else {
        runs := runs[id := request];
        outcome := Created;
      }
      down := *;
      if down { outcome := Rejected(Database); }
    }

    method CancelRun(id: string, now: Time) returns (accepted: Result<bool, Error>)
      modifies this`runs
      ensures var spec := Control.Cancel(old(Contents()), id, now);
              || (accepted == spec.1 && Contents() == spec.0)
              || (accepted == Err(Database) && (Contents() == old(Contents()) || Contents() == spec.0))
      ensures accepted != Err(Database) ==> CancelAnswer(old(Contents()), Contents(), id, now, accepted)
      ensures accepted == Err(Database) && Contents() != old(Contents()) ==>
                exists a :: CancelAnswer(old(Contents()), Contents(), id, now, a)
    {
      CancelMeans(Contents(), id, now);
      var down: bool := *;
      if down { return Err(Database); }
      if id !in runs { return Err(NotFound); }
      var run := runs[id];
      var changed := false;
      match run.status {
        case Canceled => return Ok(false);
        case Queued =>
          run := run.(status := Canceled, finishedAt := Some(now));
          changed := true;
        case Running | Validating =>
        case _ => return Err(Conflict);
      }
      if run.cancelRequestedAt.None? {
        run := run.(cancelRequestedAt := Some(now));
        changed := true;
      }
      if changed { runs := runs[id := run]; }
      down := *;
      accepted := if down then Err(Database) else Ok(changed);
    }

    /** Claims the oldest waiting run; when there is none, the sweep it began with is undone. */
    method ClaimNext(at: Time, only: Option<string>) returns (claimed: Result<string, Error>)
      modifies this`runs
      ensures exists pick :: var spec := Control.Claim(old(Contents()), at, only, pick);
              || (claimed == spec.1 && Contents() == spec.0)
              || (claimed == Err(Database) && (Contents() == old(Contents()) || Contents() == spec.0))
      ensures claimed == Err(NoRun) ==>
                forall q | q in old(runs) && Claimable(old(runs)[q]) :: only.Some? && only.value != q
      ensures claimed != Err(Database) ==> ClaimAnswer(old(Contents()), Contents(), at, only, claimed)
      ensures claimed == Err(Database) && Contents() != old(Contents()) ==>
                exists a :: ClaimAnswer(old(Contents()), Contents(), at, only, a)
    {
      hide ClaimAnswer, HeadOfLine, InLine;
      var down: bool := *;
      ghost var s := Contents();
      ghost var nobody := "";
      ghost var refused := Control.Claim(s, at, only, nobody);
      if at == ZERO_TIME {
        ClaimMeans(s, at, only, nobody);
        assert refused == (s, Err(Conflict));
        return Err(Conflict);
      }
      if down {
        assert refused.1 != Err(Database);
        return Err(Database);
      }
      var before := runs;
      if only.None? { ExpireStaleSyncRuns(at, None); }
      if !exists pick | pick in runs :: FirstClaimable(runs, only, pick) {
        NobodyInLine(s, runs, at, only);
        runs := before;
        return Err(NoRun);
      }
      var pick :| pick in runs && FirstClaimable(runs, only, pick);
      ghost var spec := Control.Claim(s, at, only, pick);
      HeadMeans(s, runs, at, only, pick);
      ClaimMeans(s, at, only, pick);
      if runs[pick].sourceId !in sources {
        runs := before;
        assert spec == (s, Err(UnknownSource));
        return Err(UnknownSource);
      }
      runs := runs[pick := runs[pick].(status := Running, startedAt := Some(at), errorCode := "",
                                       leaseExpiresAt := Some(at + LEASE_DURATION))];
      assert Contents() == spec.0;
      down := *;
      claimed := if down then Err(Database) else Ok(pick);
    }

    method TransitionRun(id: string, from: Status, to: Status, at: Time, errorCode: string)
      returns (r: Result<(), Error>)
      modifies this`runs
      ensures var spec := Control.Transition(old(Contents()), id, from, to, at, errorCode);
              || (r == spec.1 && Contents() == spec.0)
              || (r == Err(Database) && (Contents() == old(Contents()) || Contents() == spec.0))
      ensures r != Err(Database) ==> TransitionAnswer(old(Contents()), Contents(), id, from, to, at, errorCode, r)
      ensures r == Err(Database) && Contents() != old(Contents()) ==>
                exists a :: TransitionAnswer(old(Contents()), Contents(), id, from, to, at, errorCode, a)
    {
      TransitionMeans(Contents(), id, from, to, at, errorCode);
      var code := errorCode;
      if id == "" || at == ZERO_TIME || !TransitionAllowed(from, to) { return Err(Conflict); }
      if to == Failed {
        if !ErrorCodeOk(code) { return Err(Conflict); }
      } else {
        code := "";
      }
      var finished, lease: Option<Time> := None, Some(at + LEASE_DURATION);
      if Terminal(to) {
        finished, lease := Some(at), None;
      }
      var down: bool := *;
      if down { return Err(Database); }
      if id !in runs || runs[id].status != from || !LeaseCurrent(runs[id], at)
         || (to == Publishing && runs[id].cancelRequestedAt.Some?)
      {
        return Err(Conflict);
      }
      runs := runs[id := runs[id].(status := to, errorCode := code, finishedAt := finished, leaseExpiresAt := lease)];
      down := *;
      r := if down then Err(Database) else Ok(());
    }

    method RenewRunLease(id: string, at: Time) returns (r: Result<(), Error>)
      modifies this`runs
      ensures var spec := Control.Renew(old(Contents()), id, at);
              || (r == spec.1 && Contents() == spec.0)
              || (r == Err(Database) && (Contents() == old(Contents()) || Contents() == spec.0))
      ensures r != Err(Database) ==> RenewAnswer(old(Contents()), Contents(), id, at, r)
      ensures r == Err(Database) && Contents() != old(Contents()) ==>
                exists a :: RenewAnswer(old(Contents()), Contents(), id, at, a)
    {
      RenewMeans(Contents(), id, at);
      if id == "" || at == ZERO_TIME { return Err(Conflict); }
      var down: bool := *;
      if down { return Err(Database); }
      if id !in runs || !Leased(runs[id].status) || !LeaseCurrent(runs[id], at) { return Err(Conflict); }
      runs := runs[id := runs[id].(leaseExpiresAt := Some(at + LEASE_DURATION))];
      down := *;
      r := if down then Err(Database) else Ok(());
    }

    method RunCancellationRequested(id: string) returns (r: Result<bool, Error>)
      ensures r.Ok? ==> id in runs && r.value == (runs[id].status == Canceled || runs[id].cancelRequestedAt.Some?)
    {
      var down: bool := *;
      if down { return Err(Database); }
      if id !in runs { return Err(NotFound); }
      r := Ok(runs[id].status == Canceled || runs[id].cancelRequestedAt.Some?);
    }

    method BeginCheckpoint(key: Key, runId: string, startedAt: Time, leaseAt: Time) returns (r: Result<Cursor, Error>)
      modifies this`checkpoints
      ensures var spec := Control.Begin(old(Contents()), key, runId, startedAt, leaseAt);
              || (r == spec.1 && Contents() == spec.0)
              || (r == Err(Database) && (Contents() == old(Contents()) || Contents() == spec.0))
      ensures r != Err(Database) ==> BeginAnswer(old(Contents()), Contents(), key, runId, startedAt, leaseAt, r)
      ensures r == Err(Database) && Contents() != old(Contents()) ==>
                exists a :: BeginAnswer(old(Contents()), Contents(), key, runId, startedAt, leaseAt, a)
    {
      BeginMeans(Contents(), key, runId, startedAt, leaseAt);
      if key.sourceId == "" || key.resource == "" || runId == "" || startedAt == ZERO_TIME || leaseAt == ZERO_TIME {
        return Err(Conflict);
      }
      var down: bool := *;
      if down { return Err(Database); }
      if !Holds(Contents(), key.sourceId, runId, Running, leaseAt) { return Err(Conflict); }
      var cursor := FreshCursor(runId, startedAt);
      if key in checkpoints {
        var stored := checkpoints[key];
        if !DecodeOk(key.resource, stored.cursor) { return Err(Conflict); }
        if !stored.complete && stored.cursor.runId == runId { cursor := stored.cursor; }
      }
      checkpoints := checkpoints[key := Checkpoint(cursor, false, None, startedAt)];
      down := *;
      r := if down then Err(Database) else Ok(cursor);
    }

    method AdvanceCheckpoint(key: Key, runId: string, cursor: Cursor, at: Time) returns (r: Result<(), Error>)
      modifies this`runs, this`checkpoints
      ensures var spec := Control.Advance(old(Contents()), key, runId, cursor, at);
              || (r == spec.1 && Contents() == spec.0)
              || (r == Err(Database) && (Contents() == old(Contents()) || Contents() == spec.0))
      ensures r != Err(Database) ==> AdvanceAnswer(old(Contents()), Contents(), key, runId, cursor, at, r)
      ensures r == Err(Database) && Contents() != old(Contents()) ==>
                exists a :: AdvanceAnswer(old(Contents()), Contents(), key, runId, cursor, at, a)
    {
      AdvanceMeans(Contents(), key, runId, cursor, at);
      if key.sourceId == "" || key.resource == "" || runId == "" || at == ZERO_TIME || cursor.runId != runId {
        return Err(Conflict);
      }
      if !DecodeOk(key.resource, cursor) { return Err(Conflict); }
      var down: bool := *;
      if down { return Err(Database); }
      if !Holds(Contents(), key.sourceId, runId, Running, at) { return Err(Conflict); }
      if key !in checkpoints { return Err(NotFound); }
      var stored := checkpoints[key];
      if !DecodeOk(key.resource, stored.cursor) || stored.complete || stored.cursor.runId != runId
         || AdvanceRefused(key.resource, stored.cursor, cursor)
      {
        return Err(Conflict);
      }
      checkpoints := checkpoints[key := Checkpoint(cursor, false, None, at)];
      runs := runs[runId := runs[runId].(leaseExpiresAt := Some(at + LEASE_DURATION))];
      down := *;
      r := if down then Err(Database) else Ok(());
    }

    method CompleteCheckpointAndRun(key: Key, runId: string, expected: Status, at: Time) returns (r: Result<(), Error>)
      modifies this`runs, this`checkpoints
      ensures var spec := Control.Complete(old(Contents()), key, runId, expected, at);
              || (r == spec.1 && Contents() == spec.0)
              || (r == Err(Database) && (Contents() == old(Contents()) || Contents() == spec.0))
      ensures r != Err(Database) ==> CompleteAnswer(old(Contents()), Contents(), key, runId, expected, at, r)
      ensures r == Err(Database) && Contents() != old(Contents()) ==>
                exists a :: CompleteAnswer(old(Contents()), Contents(), key, runId, expected, at, a)
    {
      CompleteMeans(Contents(), key, runId, expected, at);
      if key.sourceId == "" || key.resource == "" || runId == "" || expected != Publishing || at == ZERO_TIME {
        return Err(Conflict);
      }
      var down: bool := *;
      if down { return Err(Database); }
      if !Holds(Contents(), key.sourceId, runId, expected, at) { return Err(Conflict); }
      if key !in checkpoints { return Err(NotFound); }
      var stored := checkpoints[key];
      if !DecodeOk(key.resource, stored.cursor) || stored.complete || stored.cursor.runId != runId
         || stored.cursor.nextOffset != stored.cursor.total
      {
        return Err(Conflict);
      }
      checkpoints := checkpoints[key := stored.(complete := true, completedAt := Some(at), updatedAt := at)];
      runs := runs[runId := runs[runId].(status := Succeeded, finishedAt := Some(at), errorCode := "",
                                         cancelRequestedAt := None, leaseExpiresAt := None)];
      down := *;
      r := if down then Err(Database) else Ok(());
    }
  }

  // Where nobody is first in line, nobody is in line.
  lemma NobodyInLine(s: Store, runs: map<string, SyncRun>, at: Time, only: Option<string>)
    requires at != ZERO_TIME && runs == if only.None? then Sweep(s.runs, at, None) else s.runs
    requires !exists pick | pick in runs :: FirstClaimable(runs, only, pick)
    ensures forall q | q in s.runs && Claimable(s.runs[q]) :: only.Some? && only.value != q
    ensures Claim(s, at, only, "") == (s, Err(NoRun)) && ClaimAnswer(s, s, at, only, Err(NoRun))
  {
    forall q | q in s.runs && Claimable(s.runs[q]) && (only.Some? ==> only.value == q) ensures false {
      WaitingMeansFirst(s, at, only, q);
    }
    ClaimMeans(s, at, only, "");
  }

  lemma WaitingMeansFirst(s: Store, at: Time, only: Option<string>, waiting: string)
    requires at != ZERO_TIME && waiting in s.runs && Claimable(s.runs[waiting])
    requires only.Some? ==> only.value == waiting
    ensures var runs := if only.None? then Sweep(s.runs, at, None) else s.runs;
            exists pick | pick in runs :: FirstClaimable(runs, only, pick)
  {
    var pick := ClaimFindsWaitingRun(s, at, only, waiting);
    assert Claim(s, at, only, pick).1 != Err(NoRun);
  }
}
