/**
 The control plane: the rows of sync_runs and sync_checkpoints, and every transaction that
 may change them. One transaction is one step. A transaction that returns an error is rolled
 back as a whole, including a sweep of stale leases it had already made.
 */
module Control {
  import opened Base

  datatype Status = Queued | Running | Validating | Publishing | Succeeded | Failed | Canceled

  datatype Source = Source(adapterKind: string, configRef: string, enabled: bool)

  datatype SyncRun = SyncRun(
    sourceId: string, status: Status, requestHash: string, idempotencyKey: string,
    cancelRequestedAt: Option<Time>, createdAt: Time, startedAt: Option<Time>,
    finishedAt: Option<Time>, errorCode: string, leaseExpiresAt: Option<Time>)

  datatype Cursor = Cursor(
    version: int, runId: string, nextOffset: int, lastInstanceId: int, lastPartition: int,
    snapshotAt: Time, total: int)

  datatype Checkpoint = Checkpoint(cursor: Cursor, complete: bool, completedAt: Option<Time>, updatedAt: Time)

  datatype Key = Key(sourceId: string, resource: string)

  datatype Store = Store(
    sources: map<string, Source>, runs: map<string, SyncRun>, checkpoints: map<Key, Checkpoint>)

  datatype Error = Conflict | NoRun | UnknownSource | Idempotency | NotFound | Database

  const CURSOR_VERSION := 1

  const UPLINK_RESOURCE := "server_uplinks"

  const INTERFACE_RESOURCE := "interfaces"

  const LEASE_EXPIRED := "worker_lease_expired"

  // ----- status -----

  predicate Terminal(status: Status) {
    status == Succeeded || status == Failed || status == Canceled
  }

  // The statuses in which a worker holds a lease.
  predicate Leased(status: Status) {
    status == Running || status == Validating || status == Publishing
  }

  predicate TransitionAllowed(from: Status, to: Status) {
    match from
    case Running => to == Validating || to == Failed || to == Canceled
    case Validating => to == Publishing || to == Failed || to == Canceled
    case Publishing => to == Succeeded || to == Failed
    case _ => false
  }

  predicate ErrorCodeOk(code: string) {
    && 1 <= |code| <= 64
    && forall i | 0 <= i < |code| ::
      'a' <= code[i] <= 'z' || '0' <= code[i] <= '9' || code[i] == '_'
  }

  // ----- leases -----

  predicate LeaseCurrent(run: SyncRun, at: Time) {
    match run.leaseExpiresAt
    case Some(lease) => lease > at
    case None => run.startedAt.Some? && run.startedAt.value > at - LEASE_DURATION
  }

  predicate LeaseStale(run: SyncRun, now: Time) {
    match run.leaseExpiresAt
    case Some(lease) => lease <= now
    case None => run.startedAt.Some? && run.startedAt.value <= now - LEASE_DURATION
  }

  predicate Sweepable(run: SyncRun, now: Time, only: Option<string>) {
    && Leased(run.status)
    && LeaseStale(run, now)
    && (only.Some? ==> run.sourceId == only.value)
  }

  function Swept(run: SyncRun, now: Time, only: Option<string>): SyncRun {
    if !Sweepable(run, now, only) then run
    else if run.cancelRequestedAt.Some? then
      run.(status := Canceled, finishedAt := Some(now), errorCode := "", leaseExpiresAt := None)
    else
      run.(status := Failed, finishedAt := Some(now), errorCode := LEASE_EXPIRED, leaseExpiresAt := None)
  }

  function Sweep(runs: map<string, SyncRun>, now: Time, only: Option<string>): map<string, SyncRun> {
    map id | id in runs :: Swept(runs[id], now, only)
  }

  // ----- cursors -----

  predicate CursorOk(resource: string, cursor: Cursor) {
    && cursor.version == CURSOR_VERSION
    && cursor.runId != ""
    && cursor.snapshotAt != ZERO_TIME
    && cursor.nextOffset >= 0
    && cursor.total >= 0
    && if resource == UPLINK_RESOURCE then
         cursor.nextOffset <= cursor.total && cursor.lastInstanceId == 0 && cursor.lastPartition == 0
       else
         && cursor.lastInstanceId >= 0
         && cursor.lastPartition >= 0
         && (cursor.nextOffset == 0 ==> cursor.lastInstanceId == 0 && cursor.lastPartition == 0)
         && (cursor.nextOffset > 0 ==> cursor.lastInstanceId != 0)
         && (cursor.total > 0 ==> cursor.nextOffset <= cursor.total)
  }

  // The test made both before a cursor is written and whenever a stored one is decoded.
  predicate DecodeOk(resource: string, cursor: Cursor) {
    CursorOk(resource, cursor) && (cursor.lastPartition != 0 ==> resource == INTERFACE_RESOURCE)
  }

  function FreshCursor(runId: string, startedAt: Time): Cursor {
    Cursor(CURSOR_VERSION, runId, 0, 0, 0, startedAt, 0)
  }

  predicate AdvanceRefused(resource: string, previous: Cursor, cursor: Cursor) {
    || previous.snapshotAt != cursor.snapshotAt
    || cursor.nextOffset <= previous.nextOffset
    || cursor.lastPartition < previous.lastPartition
    || (resource != UPLINK_RESOURCE && cursor.lastPartition == previous.lastPartition
        && cursor.lastInstanceId <= previous.lastInstanceId)
    || (previous.total != 0 && cursor.total != previous.total)
  }

  // ----- transactions -----

  predicate Blocks(run: SyncRun, sourceId: string) {
    run.sourceId == sourceId && !Terminal(run.status)
  }

  datatype EnqueueOutcome = Created | Replayed | Rejected(error: Error)

  // The whole of what a source's next queued run is checked against, in the order it is checked.
  function Enqueue(s: Store, id: string, request: SyncRun, now: Time): (Store, EnqueueOutcome) {
    if request.sourceId !in s.sources then (s, Rejected(UnknownSource))
    else
      var runs := Sweep(s.runs, now, Some(request.sourceId));
      if exists q | q in runs :: runs[q].sourceId == request.sourceId
          && runs[q].idempotencyKey == request.idempotencyKey then
        if exists q | q in runs ::
             && runs[q].sourceId == request.sourceId && runs[q].idempotencyKey == request.idempotencyKey
             && runs[q].requestHash == request.requestHash
        then (s.(runs := runs), Replayed)
        else (s, Rejected(Idempotency))
      else if !s.sources[request.sourceId].enabled then (s, Rejected(UnknownSource))
      else if exists q | q in runs :: Blocks(runs[q], request.sourceId) then (s, Rejected(Conflict))
      else if id in runs then (s, Rejected(Database))
      else (s.(runs := runs[id := request]), Created)
  }

  function Cancel(s: Store, id: string, now: Time): (Store, Result<bool, Error>) {
    if id !in s.runs then (s, Err(NotFound))
    else
      var run := s.runs[id];
      match run.status
      case Canceled => (s, Ok(false))
      case Queued =>
        var at := if run.cancelRequestedAt.None? then Some(now) else run.cancelRequestedAt;
        (s.(runs := s.runs[id := run.(status := Canceled, finishedAt := Some(now), cancelRequestedAt := at)]), Ok(true))
      case Running | Validating =>
        if run.cancelRequestedAt.None? then
          (s.(runs := s.runs[id := run.(cancelRequestedAt := Some(now))]), Ok(true))
        else (s, Ok(false))
      case _ => (s, Err(Conflict))
  }

  predicate LexBelow(a: string, b: string) {
    if b == "" then false
    else if a == "" then true
    else if a[0] == b[0] then LexBelow(a[1..], b[1..])
    else a[0] < b[0]
  }

  predicate Claimable(run: SyncRun) {
    run.status == Queued && run.cancelRequestedAt.None?
  }

  predicate Precedes(runs: map<string, SyncRun>, a: string, b: string)
    requires a in runs && b in runs
  {
    runs[a].createdAt < runs[b].createdAt || (runs[a].createdAt == runs[b].createdAt && LexBelow(a, b))
  }

  // The first row of the claim query: oldest first, the identifier breaking ties.
  predicate FirstClaimable(runs: map<string, SyncRun>, only: Option<string>, pick: string) {
    && pick in runs && Claimable(runs[pick]) && (only.Some? ==> pick == only.value)
    && forall q | q in runs ::
      Claimable(runs[q]) && (only.Some? ==> q == only.value) && q != pick ==> Precedes(runs, pick, q)
  }

  function Claim(s: Store, at: Time, only: Option<string>, pick: string): (Store, Result<string, Error>) {
    if at == ZERO_TIME then (s, Err(Conflict))
    else
      var runs := if only.None? then Sweep(s.runs, at, None) else s.runs;
      if !FirstClaimable(runs, only, pick) then (s, Err(NoRun))
      else if runs[pick].sourceId !in s.sources then (s, Err(UnknownSource))
      else
        var run := runs[pick].(status := Running, startedAt := Some(at), errorCode := "",
                               leaseExpiresAt := Some(at + LEASE_DURATION));
        (s.(runs := runs[pick := run]), Ok(pick))
  }

  function Transition(s: Store, id: string, from: Status, to: Status, at: Time, code: string): (Store,
        Result<(), Error>) {
    if id == "" || at == ZERO_TIME || !TransitionAllowed(from, to) then (s, Err(Conflict))
    else if to == Failed && !ErrorCodeOk(code) then (s, Err(Conflict))
    else if id !in s.runs || s.runs[id].status != from || !LeaseCurrent(s.runs[id], at) then (s, Err(Conflict))
    else if to == Publishing && s.runs[id].cancelRequestedAt.Some? then (s, Err(Conflict))
    else
      var run := s.runs[id].(
        status := to,
        errorCode := if to == Failed then code else "",
        finishedAt := if Terminal(to) then Some(at) else None,
        leaseExpiresAt := if Terminal(to) then None else Some(at + LEASE_DURATION));
      (s.(runs := s.runs[id := run]), Ok(()))
  }

  function Renew(s: Store, id: string, at: Time): (Store, Result<(), Error>) {
    if id == "" || at == ZERO_TIME then (s, Err(Conflict))
    else if id !in s.runs || !Leased(s.runs[id].status) || !LeaseCurrent(s.runs[id], at) then (s, Err(Conflict))
    else (s.(runs := s.runs[id := s.runs[id].(leaseExpiresAt := Some(at + LEASE_DURATION))]), Ok(()))
  }

  // The row guard shared by the three checkpoint transactions.
  predicate Holds(s: Store, sourceId: string, runId: string, status: Status, at: Time) {
    && runId in s.runs
    && s.runs[runId].sourceId == sourceId
    && s.runs[runId].status == status
    && s.runs[runId].cancelRequestedAt.None?
    && LeaseCurrent(s.runs[runId], at)
  }

  function Begin(s: Store, key: Key, runId: string, startedAt: Time, leaseAt: Time): (Store, Result<Cursor, Error>) {
    if key.sourceId == "" || key.resource == "" || runId == "" || startedAt == ZERO_TIME || leaseAt == ZERO_TIME
    then (s, Err(Conflict))
    else if !Holds(s, key.sourceId, runId, Running, leaseAt) then (s, Err(Conflict))
    else if key !in s.checkpoints then
      var cursor := FreshCursor(runId, startedAt);
      (s.(checkpoints := s.checkpoints[key := Checkpoint(cursor, false, None, startedAt)]), Ok(cursor))
    else if !DecodeOk(key.resource, s.checkpoints[key].cursor) then (s, Err(Conflict))
    else
      var stored := s.checkpoints[key];
      var cursor := if stored.complete || stored.cursor.runId != runId then FreshCursor(runId, startedAt)
          else stored.cursor;
      (s.(checkpoints := s.checkpoints[key := Checkpoint(cursor, false, None, startedAt)]), Ok(cursor))
  }

  function Advance(s: Store, key: Key, runId: string, cursor: Cursor, at: Time): (Store, Result<(), Error>) {
    if key.sourceId == "" || key.resource == "" || runId == "" || at == ZERO_TIME || cursor.runId != runId
    then (s, Err(Conflict))
    else if !DecodeOk(key.resource, cursor) then (s, Err(Conflict))
    else if !Holds(s, key.sourceId, runId, Running, at) then (s, Err(Conflict))
    else if key !in s.checkpoints then (s, Err(NotFound))
    else
      var stored := s.checkpoints[key];
      if !DecodeOk(key.resource, stored.cursor) || stored.complete || stored.cursor.runId != runId
         || AdvanceRefused(key.resource, stored.cursor, cursor)
      then (s, Err(Conflict))
      else
        var run := s.runs[runId].(leaseExpiresAt := Some(at + LEASE_DURATION));
        (s.(checkpoints := s.checkpoints[key := Checkpoint(cursor, false, None, at)], runs := s.runs[runId := run]),
            Ok(()))
  }

  function Complete(s: Store, key: Key, runId: string, expected: Status, at: Time): (Store, Result<(), Error>) {
    if key.sourceId == "" || key.resource == "" || runId == "" || expected != Publishing || at == ZERO_TIME
    then (s, Err(Conflict))
    else if !Holds(s, key.sourceId, runId, expected, at) then (s, Err(Conflict))
    else if key !in s.checkpoints then (s, Err(NotFound))
    else
      var stored := s.checkpoints[key];
      if !DecodeOk(key.resource, stored.cursor) || stored.complete || stored.cursor.runId != runId
         || stored.cursor.nextOffset != stored.cursor.total
      then (s, Err(Conflict))
      else
        var run := s.runs[runId].(status := Succeeded, finishedAt := Some(at), errorCode := "",
                                  cancelRequestedAt := None, leaseExpiresAt := None);
        (s.(checkpoints := s.checkpoints[key := stored.(complete := true, completedAt := Some(at), updatedAt := at)],
            runs := s.runs[runId := run]),
         Ok(()))
  }

  // ----- steps -----

  datatype Step =
    | PutSource(sourceId: string, source: Source)
    | EnqueueStep(id: string, request: SyncRun, now: Time)
    | CancelStep(id: string, now: Time)
    | ClaimStep(at: Time, only: Option<string>, pick: string)
    | TransitionStep(id: string, from: Status, to: Status, at: Time, code: string)
    | RenewStep(id: string, at: Time)
    | BeginStep(key: Key, runId: string, startedAt: Time, leaseAt: Time)
    | AdvanceStep(key: Key, runId: string, cursor: Cursor, at: Time)
    | CompleteStep(key: Key, runId: string, expected: Status, at: Time)

  function Apply(s: Store, step: Step): Store {
    match step
    case PutSource(id, source) => s.(sources := s.sources[id := source])
    case EnqueueStep(id, request, now) => Enqueue(s, id, request, now).0
    case CancelStep(id, now) => Cancel(s, id, now).0
    case ClaimStep(at, only, pick) => Claim(s, at, only, pick).0
    case TransitionStep(id, from, to, at, code) => Transition(s, id, from, to, at, code).0
    case RenewStep(id, at) => Renew(s, id, at).0
    case BeginStep(key, runId, startedAt, leaseAt) => Begin(s, key, runId, startedAt, leaseAt).0
    case AdvanceStep(key, runId, cursor, at) => Advance(s, key, runId, cursor, at).0
    case CompleteStep(key, runId, expected, at) => Complete(s, key, runId, expected, at).0
  }

  // Callers enqueue a queued run that has not been started, canceled or finished.
  predicate FreshRequest(request: SyncRun) {
    && request.status == Queued && request.cancelRequestedAt.None? && request.startedAt.None?
    && request.finishedAt.None? && request.leaseExpiresAt.None?
  }

  predicate StepOk(step: Step) {
    step.EnqueueStep? ==> FreshRequest(step.request)
  }

  predicate StepsOk(steps: seq<Step>) {
    forall i | 0 <= i < |steps| :: StepOk(steps[i])
  }

  function Exec(s: Store, steps: seq<Step>): Store
    decreases |steps|
  {
    if steps == [] then s else Exec(Apply(s, steps[0]), steps[1..])
  }

  function EmptyStore(): Store {
    Store(map[], map[], map[])
  }

  // The steps only a run's own worker takes.
  predicate WorkerStep(step: Step, runId: string) {
    match step
    case TransitionStep(id, _, _, _, _) => id == runId
    case RenewStep(id, _) => id == runId
    case BeginStep(_, id, _, _) => id == runId
    case AdvanceStep(_, id, _, _) => id == runId
    case CompleteStep(_, id, _, _) => id == runId
    case _ => false
  }
}
