/**
 What each answer of the repository says about the two tables, field by field: when it is given, which rows
 change and to what. It is written against the rows alone, apart from the transactions of module Control,
 which are then shown to give no other answers.
 */
module Answers {
  import opened Base
  import opened Control
  import opened ControlInvariants

  const QUARTER_HOUR := 15 * 60 * 1_000_000

  // ----- rows -----

  predicate Working(run: SyncRun) {
    run.status == Running || run.status == Validating || run.status == Publishing
  }

  predicate Over(run: SyncRun) {
    run.status == Succeeded || run.status == Failed || run.status == Canceled
  }

  // Rows from before leases existed count a quarter of an hour from their start.
  predicate InLease(run: SyncRun, at: Time) {
    if run.leaseExpiresAt.Some? then at < run.leaseExpiresAt.value
    else run.startedAt.Some? && at < run.startedAt.value + QUARTER_HOUR
  }

  predicate Lapsed(run: SyncRun, at: Time) {
    if run.leaseExpiresAt.Some? then run.leaseExpiresAt.value <= at
    else run.startedAt.Some? && run.startedAt.value + QUARTER_HOUR <= at
  }

  // A row before and after a sweep: a lapsed one ends canceled if it was asked to, and failed otherwise.
  predicate SweptTo(before: SyncRun, after: SyncRun, now: Time, only: Option<string>) {
    if !Working(before) || !Lapsed(before, now) || (only.Some? && only.value != before.sourceId) then after == before
    else if before.cancelRequestedAt.Some? then
      after == before.(status := Canceled, errorCode := "", finishedAt := Some(now), leaseExpiresAt := None)
    else
      after == before.(status := Failed, errorCode := "worker_lease_expired", finishedAt := Some(now),
                       leaseExpiresAt := None)
  }

  ghost predicate AllSwept(before: map<string, SyncRun>, after: map<string, SyncRun>, now: Time, only: Option<string>) {
    after.Keys == before.Keys && forall q | q in before :: SweptTo(before[q], after[q], now, only)
  }

  // Every row but one is as it was.
  ghost predicate OthersKept(before: map<string, SyncRun>, after: map<string, SyncRun>, id: string) {
    after.Keys == before.Keys && forall q | q in before && q != id :: after[q] == before[q]
  }

  ghost predicate OnlyRuns(s: Store, t: Store) {
    t.sources == s.sources && t.checkpoints == s.checkpoints
  }

  // ----- cancel and renew -----

  function FirstRequest(run: SyncRun, now: Time): Option<Time> {
    if run.cancelRequestedAt.Some? then run.cancelRequestedAt else Some(now)
  }

  /** A queued run is over at once; a running or validating one only has its first request recorded; a canceled
      one is left alone; any other is refused. The answer says whether anything changed. */
  ghost predicate CancelAnswer(s: Store, t: Store, id: string, now: Time, answer: Result<bool, Error>) {
    && OnlyRuns(s, t) && OthersKept(s.runs, t.runs, id)
    && match answer
       case Ok(changed) =>
         && id in s.runs && (changed <==> t != s)
         && var before, after := s.runs[id], t.runs[id];
            && (before.status == Queued ==>
                  after == before.(status := Canceled, finishedAt := Some(now),
                                   cancelRequestedAt := FirstRequest(before, now)))
            && (before.status == Running || before.status == Validating ==>
                  after == before.(cancelRequestedAt := FirstRequest(before, now)))
            && (before.status == Canceled ==> after == before)
            && before.status != Publishing && before.status != Succeeded && before.status != Failed
       case Err(e) =>
         && t == s
         && (if id !in s.runs then e == NotFound
             else e == Conflict
                  && (s.runs[id].status == Publishing || s.runs[id].status == Succeeded || s.runs[id].status == Failed))
  }

  /** A working run in its lease gets a lease that holds for the next quarter of an hour and no longer. */
  ghost predicate RenewAnswer(s: Store, t: Store, id: string, at: Time, answer: Result<(), Error>) {
    && OnlyRuns(s, t) && OthersKept(s.runs, t.runs, id)
    && match answer
       case Ok(_) =>
         && id != "" && at != ZERO_TIME && id in s.runs && Working(s.runs[id]) && InLease(s.runs[id], at)
         && t.runs[id] == s.runs[id].(leaseExpiresAt := t.runs[id].leaseExpiresAt)
         && forall u: Time :: InLease(t.runs[id], u) <==> u < at + QUARTER_HOUR
       case Err(e) =>
         && t == s && e == Conflict
         && (id == "" || at == ZERO_TIME || id !in s.runs || !Working(s.runs[id]) || !InLease(s.runs[id], at))
  }

  // ----- enqueue -----

  ghost predicate KeyTaken(s: Store, request: SyncRun) {
    exists q | q in s.runs ::
      s.runs[q].sourceId == request.sourceId && s.runs[q].idempotencyKey == request.idempotencyKey
  }

  ghost predicate SameAsked(s: Store, request: SyncRun) {
    exists q | q in s.runs ::
      && s.runs[q].sourceId == request.sourceId && s.runs[q].idempotencyKey == request.idempotencyKey
      && s.runs[q].requestHash == request.requestHash
  }

  // Some run of the source is still to end, and the sweep will not end it.
  ghost predicate Busy(s: Store, sourceId: string, now: Time) {
    exists q | q in s.runs ::
      && s.runs[q].sourceId == sourceId && !Over(s.runs[q])
      && !(Working(s.runs[q]) && Lapsed(s.runs[q], now))
  }

  /** One new row exactly as requested, for a source that is there and enabled, has the key for the first time and
      has nothing under way; a known key is answered by its row or refused; a refusal leaves no trace. */
  ghost predicate EnqueueAnswer(s: Store, t: Store, id: string, request: SyncRun, now: Time, outcome: EnqueueOutcome) {
    && OnlyRuns(s, t)
    && match outcome
       case Created =>
         && request.sourceId in s.sources && s.sources[request.sourceId].enabled
         && !KeyTaken(s, request) && !Busy(s, request.sourceId, now) && id !in s.runs
         && id in t.runs && t.runs[id] == request
         && AllSwept(s.runs, t.runs - {id}, now, Some(request.sourceId))
       case Replayed =>
         && request.sourceId in s.sources && SameAsked(s, request)
         && AllSwept(s.runs, t.runs, now, Some(request.sourceId))
       case Rejected(e) =>
         && t == s
         && (request.sourceId !in s.sources ==> e == UnknownSource)
         && (request.sourceId in s.sources ==>
               if KeyTaken(s, request) then e == Idempotency && !SameAsked(s, request)
               else if !s.sources[request.sourceId].enabled then e == UnknownSource
               else if Busy(s, request.sourceId, now) then e == Conflict
               else e == Database && id in s.runs)
  }

  // ----- claim -----

  // In the order of the claim query's second column: where the texts first differ, or the shorter one.
  ghost predicate Smaller(a: string, b: string) {
    exists k | 0 <= k <= |a| && k <= |b| :: Differ(a, b, k)
  }

  predicate Differ(a: string, b: string, k: int) {
    && 0 <= k <= |a| && k <= |b| && a[..k] == b[..k]
    && (if k == |a| then k < |b| else k < |b| && a[k] < b[k])
  }

  ghost predicate InLine(s: Store, only: Option<string>, q: string) {
    && q in s.runs && s.runs[q].status == Queued && s.runs[q].cancelRequestedAt.None?
    && (only.Some? ==> only.value == q)
  }

  // The oldest in line, the smaller identifier breaking ties.
  ghost predicate HeadOfLine(s: Store, only: Option<string>, id: string) {
    && InLine(s, only, id)
    && forall q | InLine(s, only, q) && q != id ::
      || s.runs[id].createdAt < s.runs[q].createdAt
      || (s.runs[id].createdAt == s.runs[q].createdAt && Smaller(id, q))
  }

  /** The run at the head of the line is started at that instant with a lease of a quarter of an hour; without
      one, or without its source, nothing changes. */
  ghost predicate ClaimAnswer(s: Store, t: Store, at: Time, only: Option<string>, answer: Result<string, Error>) {
    && OnlyRuns(s, t)
    && match answer
       case Ok(id) =>
         && at != ZERO_TIME && HeadOfLine(s, only, id) && s.runs[id].sourceId in s.sources
         && t.runs.Keys == s.runs.Keys
         && t.runs[id] == s.runs[id].(status := Running, startedAt := Some(at), errorCode := "",
                                      leaseExpiresAt := Some(at + QUARTER_HOUR))
         && (forall q | q in s.runs && q != id ::
               if only.None? then SweptTo(s.runs[q], t.runs[q], at, None) else t.runs[q] == s.runs[q])
       case Err(e) =>
         && t == s
         && match e
            case Conflict => at == ZERO_TIME
            case NoRun => at != ZERO_TIME && forall q :: !InLine(s, only, q)
            case UnknownSource =>
              at != ZERO_TIME && exists q :: HeadOfLine(s, only, q) && s.runs[q].sourceId !in s.sources
            case _ => false
  }

  // ----- transition -----

  predicate MayMove(from: Status, to: Status) {
    || (from == Running && (to == Validating || to == Failed || to == Canceled))
    || (from == Validating && (to == Publishing || to == Failed || to == Canceled))
    || (from == Publishing && (to == Succeeded || to == Failed))
  }

  predicate CodeOk(code: string) {
    && 1 <= |code| <= 64
    && forall i | 0 <= i < |code| :: 'a' <= code[i] <= 'z' || '0' <= code[i] <= '9' || code[i] == '_'
  }

  predicate MoveAllowed(s: Store, id: string, from: Status, to: Status, at: Time, code: string) {
    && id != "" && at != ZERO_TIME && MayMove(from, to) && (to == Failed ==> CodeOk(code))
    && id in s.runs && s.runs[id].status == from && InLease(s.runs[id], at)
    && (to == Publishing ==> s.runs[id].cancelRequestedAt.None?)
  }

  /** The row moves along its graph, within its lease: an end is stamped and gives the lease up, anything else
      renews it; only a failure keeps a code. */
  ghost predicate TransitionAnswer(s: Store, t: Store, id: string, from: Status, to: Status, at: Time, code: string,
        answer: Result<(), Error>) {
    && OnlyRuns(s, t) && OthersKept(s.runs, t.runs, id)
    && (answer.Ok? <==> MoveAllowed(s, id, from, to, at, code))
    && match answer
       case Ok(_) =>
         var ends := to == Succeeded || to == Failed || to == Canceled;
         t.runs[id] == s.runs[id].(
           status := to, errorCode := if to == Failed then code else "",
           finishedAt := if ends then Some(at) else None,
           leaseExpiresAt := if ends then None else Some(at + QUARTER_HOUR))
       case Err(e) => t == s && e == Conflict
  }

  // ----- checkpoints -----

  // A cursor that can be stored: of this version, named, stamped, within its total, positioned only once begun.
  predicate CursorSound(resource: string, cursor: Cursor) {
    && cursor.version == 1 && cursor.runId != "" && cursor.snapshotAt != ZERO_TIME
    && cursor.nextOffset >= 0 && cursor.total >= 0 && cursor.lastInstanceId >= 0 && cursor.lastPartition >= 0
    && (cursor.lastPartition > 0 ==> resource == "interfaces")
    && (resource == "server_uplinks" ==> cursor.nextOffset <= cursor.total && cursor.lastInstanceId == 0)
    && (resource != "server_uplinks" ==>
          && (cursor.nextOffset == 0 ==> cursor.lastInstanceId == 0 && cursor.lastPartition == 0)
          && (cursor.nextOffset > 0 ==> cursor.lastInstanceId > 0)
          && (cursor.total > 0 ==> cursor.nextOffset <= cursor.total))
  }

  // The run is at work for the source, in its lease, and nobody has asked it to stop.
  predicate AtWork(s: Store, sourceId: string, runId: string, status: Status, at: Time) {
    && runId in s.runs && s.runs[runId].sourceId == sourceId && s.runs[runId].status == status
    && s.runs[runId].cancelRequestedAt.None? && InLease(s.runs[runId], at)
  }

  // The checkpoint is under way for this run.
  predicate UnderWay(s: Store, key: Key, runId: string) {
    && key in s.checkpoints && !s.checkpoints[key].complete && s.checkpoints[key].cursor.runId == runId
  }

  predicate Named(key: Key, runId: string, at: Time) {
    key.sourceId != "" && key.resource != "" && runId != "" && at != ZERO_TIME
  }

  predicate BeginAllowed(s: Store, key: Key, runId: string, startedAt: Time, leaseAt: Time) {
    && Named(key, runId, startedAt) && leaseAt != ZERO_TIME && AtWork(s, key.sourceId, runId, Running, leaseAt)
    && (key in s.checkpoints ==> CursorSound(key.resource, s.checkpoints[key].cursor))
  }

  /** The run's own unfinished cursor is resumed, any other checkpoint is begun afresh; no run changes. */
  ghost predicate BeginAnswer(s: Store, t: Store, key: Key, runId: string, startedAt: Time, leaseAt: Time,
        answer: Result<Cursor, Error>) {
    && t.sources == s.sources && t.runs == s.runs
    && (answer.Ok? <==> BeginAllowed(s, key, runId, startedAt, leaseAt))
    && match answer
       case Ok(cursor) =>
         && cursor == (if UnderWay(s, key, runId) then s.checkpoints[key].cursor
                       else Cursor(1, runId, 0, 0, 0, startedAt, 0))
         && t.checkpoints == s.checkpoints[key := Checkpoint(cursor, false, None, startedAt)]
       case Err(e) => t == s && e == Conflict
  }

  // Strictly on from the stored cursor: further, in order, under the same snapshot, the total fixed once known.
  predicate Onwards(resource: string, stored: Cursor, cursor: Cursor) {
    && cursor.snapshotAt == stored.snapshotAt && cursor.nextOffset > stored.nextOffset
    && cursor.lastPartition >= stored.lastPartition
    && (resource != "server_uplinks" && cursor.lastPartition == stored.lastPartition ==>
          cursor.lastInstanceId > stored.lastInstanceId)
    && (stored.total != 0 ==> cursor.total == stored.total)
  }

  predicate AdvanceAllowed(s: Store, key: Key, runId: string, cursor: Cursor, at: Time) {
    && Named(key, runId, at) && cursor.runId == runId && CursorSound(key.resource, cursor)
    && AtWork(s, key.sourceId, runId, Running, at) && UnderWay(s, key, runId)
    && CursorSound(key.resource, s.checkpoints[key].cursor)
    && Onwards(key.resource, s.checkpoints[key].cursor, cursor)
  }

  /** Cursor and lease move together, and nothing else; or nothing does. */
  ghost predicate AdvanceAnswer(s: Store, t: Store, key: Key, runId: string, cursor: Cursor, at: Time,
        answer: Result<(), Error>) {
    && t.sources == s.sources
    && (answer.Ok? <==> AdvanceAllowed(s, key, runId, cursor, at))
    && match answer
       case Ok(_) =>
         && t.checkpoints == s.checkpoints[key := Checkpoint(cursor, false, None, at)]
         && t.runs == s.runs[runId := s.runs[runId].(leaseExpiresAt := Some(at + QUARTER_HOUR))]
       case Err(e) => t == s && (e == Conflict || (e == NotFound && key !in s.checkpoints))
  }

  predicate CompleteAllowed(s: Store, key: Key, runId: string, expected: Status, at: Time) {
    && Named(key, runId, at) && expected == Publishing && AtWork(s, key.sourceId, runId, Publishing, at)
    && UnderWay(s, key, runId) && CursorSound(key.resource, s.checkpoints[key].cursor)
    && s.checkpoints[key].cursor.nextOffset == s.checkpoints[key].cursor.total
  }

  /** With nothing left to read, checkpoint and run are finished at one instant; or nothing is. */
  ghost predicate CompleteAnswer(s: Store, t: Store, key: Key, runId: string, expected: Status, at: Time,
        answer: Result<(), Error>) {
    && t.sources == s.sources
    && (answer.Ok? <==> CompleteAllowed(s, key, runId, expected, at))
    && match answer
       case Ok(_) =>
         && t.checkpoints == s.checkpoints[key :=
              Checkpoint(s.checkpoints[key].cursor, true, Some(at), at)]
         && t.runs == s.runs[runId := s.runs[runId].(status := Succeeded, finishedAt := Some(at), errorCode := "",
                                                     cancelRequestedAt := None, leaseExpiresAt := None)]
       case Err(e) => t == s && (e == Conflict || (e == NotFound && key !in s.checkpoints))
  }

  // ----- the transactions give these answers -----

  lemma LeaseMeans(run: SyncRun, at: Time)
    ensures LeaseCurrent(run, at) <==> InLease(run, at)
    ensures LeaseStale(run, at) <==> Lapsed(run, at)
    ensures Leased(run.status) <==> Working(run)
  {
  }

  lemma SweepMeans(runs: map<string, SyncRun>, now: Time, only: Option<string>)
    ensures AllSwept(runs, Sweep(runs, now, only), now, only)
  {
    forall q | q in runs { LeaseMeans(runs[q], now); }
  }

  lemma CancelMeans(s: Store, id: string, now: Time)
    ensures var (t, answer) := Cancel(s, id, now); CancelAnswer(s, t, id, now, answer)
  {
    var t := Cancel(s, id, now).0;
    if id in s.runs && t != s { assert t.runs[id] != s.runs[id]; }
  }

  lemma RenewMeans(s: Store, id: string, at: Time)
    ensures var (t, answer) := Renew(s, id, at); RenewAnswer(s, t, id, at, answer)
  {
    if id in s.runs { LeaseMeans(s.runs[id], at); }
  }

  lemma TransitionMeans(s: Store, id: string, from: Status, to: Status, at: Time, code: string)
    ensures var (t, answer) := Transition(s, id, from, to, at, code);
            TransitionAnswer(s, t, id, from, to, at, code, answer)
  {
    if id in s.runs { LeaseMeans(s.runs[id], at); }
  }

  lemma BeginMeans(s: Store, key: Key, runId: string, startedAt: Time, leaseAt: Time)
    ensures var (t, answer) := Begin(s, key, runId, startedAt, leaseAt);
            BeginAnswer(s, t, key, runId, startedAt, leaseAt, answer)
  {
    if runId in s.runs { LeaseMeans(s.runs[runId], leaseAt); }
  }

  lemma AdvanceMeans(s: Store, key: Key, runId: string, cursor: Cursor, at: Time)
    ensures var (t, answer) := Advance(s, key, runId, cursor, at);
            AdvanceAnswer(s, t, key, runId, cursor, at, answer)
  {
    if runId in s.runs { LeaseMeans(s.runs[runId], at); }
  }

  lemma CompleteMeans(s: Store, key: Key, runId: string, expected: Status, at: Time)
    ensures var (t, answer) := Complete(s, key, runId, expected, at);
            CompleteAnswer(s, t, key, runId, expected, at, answer)
  {
    if runId in s.runs { LeaseMeans(s.runs[runId], at); }
  }

  // ----- enqueue and claim -----

  lemma EnqueueMeans(s: Store, id: string, request: SyncRun, now: Time)
    ensures var (t, outcome) := Enqueue(s, id, request, now); EnqueueAnswer(s, t, id, request, now, outcome)
  {
    var (t, outcome) := Enqueue(s, id, request, now);
    if request.sourceId in s.sources {
      var runs := Sweep(s.runs, now, Some(request.sourceId));
      SweepMeans(s.runs, now, Some(request.sourceId));
      assert runs.Keys == s.runs.Keys;
      EnqueueCases(s, id, request, now);
      hide Enqueue, Sweep, AllSwept, KeyTaken, SameAsked, Busy;
      if outcome == Created { assert t.runs - {id} == runs; }
    }
  }

  lemma EnqueueCases(s: Store, id: string, request: SyncRun, now: Time)
    requires request.sourceId in s.sources
    ensures var runs := Sweep(s.runs, now, Some(request.sourceId));
            Enqueue(s, id, request, now) ==
              if KeyTaken(s, request) then
                if SameAsked(s, request) then (s.(runs := runs), Replayed) else (s, Rejected(Idempotency))
              else if !s.sources[request.sourceId].enabled then (s, Rejected(UnknownSource))
              else if Busy(s, request.sourceId, now) then (s, Rejected(Conflict))
              else if id in runs then (s, Rejected(Database))
              else (s.(runs := runs[id := request]), Created)
  {
    SweptKeys(s, Sweep(s.runs, now, Some(request.sourceId)), request, now);
    hide Sweep, KeyTaken, SameAsked, Busy, Blocks;
  }

  // A sweep changes neither keys nor hashes, and what it leaves unended was not lapsed.
  lemma SweptKeys(s: Store, runs: map<string, SyncRun>, request: SyncRun, now: Time)
    requires runs == Sweep(s.runs, now, Some(request.sourceId))
    ensures KeyTaken(s, request) <==> exists q | q in runs ::
        runs[q].sourceId == request.sourceId && runs[q].idempotencyKey == request.idempotencyKey
    ensures SameAsked(s, request) <==> exists q | q in runs ::
        && runs[q].sourceId == request.sourceId && runs[q].idempotencyKey == request.idempotencyKey
        && runs[q].requestHash == request.requestHash
    ensures Busy(s, request.sourceId, now) <==> exists q | q in runs :: Blocks(runs[q], request.sourceId)
  {
    forall q | q in runs
      ensures Blocks(runs[q], request.sourceId) <==>
                && s.runs[q].sourceId == request.sourceId && !Over(s.runs[q])
                && !(Working(s.runs[q]) && Lapsed(s.runs[q], now))
    {
      LeaseMeans(s.runs[q], now);
    }
  }

  lemma {:induction false} LexMeans(a: string, b: string)
    ensures LexBelow(a, b) <==> Smaller(a, b)
    decreases |a|
  {
    if a == "" || b == "" || a[0] != b[0] {
      if LexBelow(a, b) { assert Differ(a, b, 0); }
    } else {
      LexMeans(a[1..], b[1..]);
      forall k | Differ(a[1..], b[1..], k) ensures Differ(a, b, k + 1) {
        assert a[..k + 1] == [a[0]] + a[1..][..k] && b[..k + 1] == [b[0]] + b[1..][..k];
      }
      forall k | Differ(a, b, k) ensures k > 0 && Differ(a[1..], b[1..], k - 1) {
        assert a[1..][..k - 1] == a[..k][1..] && b[1..][..k - 1] == b[..k][1..];
      }
    }
  }

  // Who is first does not change with a sweep: it leaves every waiting run as it was and adds none.
  lemma HeadMeans(s: Store, runs: map<string, SyncRun>, at: Time, only: Option<string>, id: string)
    requires runs == if only.None? then Sweep(s.runs, at, None) else s.runs
    ensures FirstClaimable(runs, only, id) <==> HeadOfLine(s, only, id)
  {
    forall q ensures InLine(s, only, q) <==> q in runs && Claimable(runs[q]) && (only.Some? ==> q == only.value) {
      if q in s.runs { LeaseMeans(s.runs[q], at); }
    }
    forall q | InLine(s, only, q) && InLine(s, only, id)
      ensures LexBelow(id, q) <==> Smaller(id, q)
    {
      LexMeans(id, q);
    }
  }

  lemma ClaimMeans(s: Store, at: Time, only: Option<string>, pick: string)
    requires at != ZERO_TIME ==> HeadOfLine(s, only, pick) || forall q :: !InLine(s, only, q)
    ensures var (t, answer) := Claim(s, at, only, pick); ClaimAnswer(s, t, at, only, answer)
  {
    if at != ZERO_TIME {
      var runs := if only.None? then Sweep(s.runs, at, None) else s.runs;
      HeadMeans(s, runs, at, only, pick);
      if only.None? { SweepMeans(s.runs, at, None); }
    }
  }

  // ----- a cancel in the queue -----

  /** A run canceled while it waits is over then and there, and for good. */
  lemma CanceledInTheQueue(s: Store, t: Store, id: string, now: Time, changed: bool, later: seq<Step>)
    requires Inv(s) && StepsOk(later) && CancelAnswer(s, t, id, now, Ok(changed)) && s.runs[id].status == Queued
    ensures changed && Inv(t)
    ensures var u := Exec(t, later);
            id in u.runs && u.runs[id].status == Canceled && u.runs[id].finishedAt == Some(now)
  {
    ReplaceRowKeepsInv(s, id, t.runs[id]);
    assert t == s.(runs := s.runs[id := t.runs[id]]);
    RowsEvolve(t, later, id);
  }

  /** So its source takes the next request that brings a key of its own. */
  lemma CancelFreesSource(s: Store, t: Store, id: string, now: Time, changed: bool, u: Store, next: string,
        request: SyncRun, at: Time, outcome: EnqueueOutcome)
    requires Inv(s) && CancelAnswer(s, t, id, now, Ok(changed)) && s.runs[id].status == Queued
    requires EnqueueAnswer(t, u, next, request, at, outcome)
    requires request.sourceId == s.runs[id].sourceId && request.sourceId in s.sources
    requires s.sources[request.sourceId].enabled && !KeyTaken(s, request) && next !in s.runs
    ensures outcome == Created && u.runs[next] == request
  {
    assert !KeyTaken(t, request) by {
      forall q | q in t.runs
        ensures !(t.runs[q].sourceId == request.sourceId && t.runs[q].idempotencyKey == request.idempotencyKey)
      {
        assert q in s.runs;
      }
    }
    forall q | q in t.runs && t.runs[q].sourceId == request.sourceId ensures Over(t.runs[q]) {
      assert q != id ==> !Rivals(s.runs, q, id);
    }
  }
}
