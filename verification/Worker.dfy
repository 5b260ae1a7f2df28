/**
 The sync worker: one claimed run from collection to completion. Upstream replies, database and
 graph faults, cancellation and the loss of the lease are all left open at every statement, and
 between any two statements the other actors of the deployment may take any number of steps.
 */
module Worker {
  import opened Base
  import Answers
  import opened Control
  import opened Graph
  import opened System
  import opened Repository
  import opened Text
  import opened Seqs
  import opened Pages
  import opened Digest
  import opened Session
  import InterfacePass

  datatype Outcome = Done | CanceledRun | FailedRun(code: string) | LeaseLost | TransitionRefused

  datatype Check = Continue | Cancellation | Lost | CheckFailed

  datatype Validation = Matched | Mismatch | ValidationCanceled | ValidationLost

  datatype WriteResult = Written | WriteLost | WriteCanceled | WriteFailed

  // The run's context: canceled by the caller or, as the reason of its end, for a lost lease; and whether
  // the heartbeat has failed, which ends the context but is its reason only if nothing else was.
  datatype Context = Context(callerDone: bool, done: bool, leaseLost: bool, heartbeatFailed: bool)

  function Signal(c: Context, canceled: bool, failed: bool, first: bool): Context {
    Context(c.callerDone || canceled, c.done || canceled || failed,
      c.leaseLost || (failed && !c.done && (first || !canceled)), c.heartbeatFailed || failed)
  }

  // A context that has ended stays so, for the reason it ended.
  predicate Worsened(before: Context, after: Context) {
    && (before.callerDone ==> after.callerDone) && (before.done ==> after.done)
    && (before.leaseLost ==> after.leaseLost) && (before.heartbeatFailed ==> after.heartbeatFailed)
  }

  // What the worker has done so far that cleanup depends on, in order.
  datatype Event =
    | CoverageRead(full: bool)
    | PageWritten(records: seq<EntityRecord>)
    | PageCheckpointed(cursor: Cursor)
    | Reached(status: Status)
    | SecondPassRead(records: seq<EntityRecord>)
    | CleanupStarted(cutoff: Time)
    | CleanupFinished(graph: Graph)

  const ADAPTER_KIND := "cmdb"

  const SOURCE_VALIDATION := "source_validation_failed"
  const DEVICE_COLLECTION := "device_collection_failed"
  const ENTITY_COLLECTION := "entity_collection_failed"
  const GRAPH_WRITE := "graph_write_failed"
  const GRAPH_CLEANUP := "graph_cleanup_failed"
  const CHECKPOINT_FAILED := "checkpoint_failed"
  const CANCELLATION_CHECK := "cancellation_check_failed"

  // ----- what justifies a cleanup -----

  function RecordsOf(event: Event): seq<EntityRecord> {
    if event.PageWritten? then event.records else []
  }

  function WrittenIn(events: seq<Event>): seq<EntityRecord> {
    FlatMap(RecordsOf, events)
  }

  // A page that is not empty is checkpointed at once, at the number of records written so far.
  ghost predicate PageEvent(events: seq<Event>, x: Session, k: nat)
    requires k < |events|
  {
    match events[k]
    case PageWritten(records) => records != [] ==> k + 1 < |events| && events[k + 1].PageCheckpointed?
    case PageCheckpointed(cursor) =>
      && k > 0 && events[k - 1].PageWritten?
      && cursor.runId == x.runId && cursor.snapshotAt == x.snapshot && cursor.nextOffset == |WrittenIn(events[..k])|
    case _ => false
  }

  // The pass was written page by page, each page checkpointed before the next one was read.
  ghost predicate Collection(events: seq<Event>, x: Session, pass: seq<EntityRecord>) {
    && WrittenIn(events) == pass
    && forall k | 0 <= k < |events| :: PageEvent(events, x, k)
  }

  // The history before a cleanup: full coverage read first and last, a complete collection, a second
  // pass of the same length and stream, and the run in publishing.
  ghost predicate Justified(events: seq<Event>, x: Session, pass: seq<EntityRecord>, second: seq<EntityRecord>) {
    && |events| >= 5
    && var n := |events|;
       && events[0] == CoverageRead(true)
       && Collection(events[1..n - 4], x, pass)
       && events[n - 4] == Reached(Validating)
       && events[n - 3] == SecondPassRead(second)
       && events[n - 2] == Reached(Publishing)
       && events[n - 1] == CoverageRead(true)
       && SamePass(pass, second)
  }

  ghost predicate SamePass(pass: seq<EntityRecord>, second: seq<EntityRecord>) {
    |second| == |pass| && Stream(second) == Stream(pass)
  }

  // Either cleanup was skipped because coverage was not full, or it is the last thing that happened, it
  // left no older vertex without an edge, and any such vertex there is at the end arrived after it.
  ghost predicate Tidied(events: seq<Event>, x: Session, last: Graph) {
    || CoverageRead(false) in events
    || (&& CleanedUp(events, x)
        && OrphansAreNew(events[|events| - 1].graph, last, x))
  }

  ghost predicate CleanedUp(events: seq<Event>, x: Session) {
    && events != [] && events[|events| - 1].CleanupFinished?
    && Orphans(events[|events| - 1].graph, x.key.sourceId, x.entity, x.snapshot) == {}
  }

  // A vertex of the collected kind that was not there when cleanup ended.
  predicate Newcomer(before: Graph, last: Graph, x: Session, v: Identity) {
    v in last.vertices && v.sourceId == x.key.sourceId && v.entityType == x.entity && v !in before.vertices
  }

  /** After a cleanup, older vertices without an edge are left at the end exactly if another writer brought
      one in since; without newcomers every older vertex of the collected kind has an edge. */
  lemma TidyWithoutNewcomers(events: seq<Event>, x: Session, last: Graph)
    requires Tidied(events, x, last) && CoverageRead(false) !in events
    ensures var before := events[|events| - 1].graph;
            && (Orphans(last, x.key.sourceId, x.entity, x.snapshot) == {} <==>
                  forall v :: Newcomer(before, last, x, v) ==>
                       last.vertices[v].syncedAt >= x.snapshot || Incident(last, v))
            && ((forall v :: !Newcomer(before, last, x, v)) ==>
                  forall v | v in last.vertices && v.sourceId == x.key.sourceId && v.entityType == x.entity ::
                    last.vertices[v].syncedAt < x.snapshot ==> Incident(last, v))
  {
    var before, orphans := events[|events| - 1].graph, Orphans(last, x.key.sourceId, x.entity, x.snapshot);
    forall v | v in last.vertices && v.sourceId == x.key.sourceId && v.entityType == x.entity
         && !Newcomer(before, last, x, v)
      ensures last.vertices[v].syncedAt >= x.snapshot || Incident(last, v)
    {
      assert v !in orphans;
    }
    if orphans == {} {
      forall v | Newcomer(before, last, x, v) ensures last.vertices[v].syncedAt >= x.snapshot || Incident(last, v) {
        assert v !in orphans;
      }
    } else {
      var v :| v in orphans;
      assert Newcomer(before, last, x, v);
    }
  }

  // An outcome is reported honestly: the row says the same, or the lease was reported lost.
  ghost predicate Ended(sys: Sys, x: Session, outcome: Outcome, leaseLost: bool) {
    match outcome
    case Done => HasSucceeded(sys, x)
    case CanceledRun => x.runId in sys.store.runs && sys.store.runs[x.runId].status == Canceled
    case FailedRun(code) =>
      x.runId in sys.store.runs && sys.store.runs[x.runId].status == Failed && sys.store.runs[x.runId].errorCode == code
    case LeaseLost => leaseLost
    case TransitionRefused => true
  }

  ghost predicate Stopped(sys: Sys, x: Session, stop: Option<Outcome>, leaseLost: bool) {
    stop.Some? ==> stop.value != Done && Ended(sys, x, stop.value, leaseLost)
  }

  // The row was finished at this instant.
  ghost predicate EndedAt(sys: Sys, x: Session, at: Time) {
    x.runId in sys.store.runs && sys.store.runs[x.runId].finishedAt == Some(at)
  }

  // The row's lease runs for a quarter of an hour from this instant.
  ghost predicate LeasedFrom(sys: Sys, x: Session, at: Time) {
    x.runId in sys.store.runs && sys.store.runs[x.runId].leaseExpiresAt == Some(at + 15 * 60 * 1_000_000)
  }

  // No run was claimed at this instant or later.
  ghost predicate ClockAhead(s: Store, now: Time) {
    forall q | q in s.runs && s.runs[q].startedAt.Some? :: s.runs[q].startedAt.value < now
  }

  lemma AheadIsFresh(s: Store, now: Time, pick: string)
    requires ClockAhead(s, now)
    ensures ClaimFresh(s, ClaimStep(now, None, pick))
  {
  }

  lemma ClaimEffect(s: Store, at: Time, pick: string)
    requires Claim(s, at, None, pick).1.Ok?
    ensures var t := Claim(s, at, None, pick).0;
            && Claim(s, at, None, pick).1 == Ok(pick) && pick in s.runs && pick in t.runs
            && t.runs[pick].sourceId == s.runs[pick].sourceId && t.runs[pick].sourceId in t.sources
  {
  }

  lemma MovedRow(s: Store, x: Session, from: Status, to: Status, at: Time, code: string)
    requires Control.Transition(s, x.runId, from, to, at, code).1.Ok?
    ensures var t := Control.Transition(s, x.runId, from, to, at, code).0;
            forall g: Graph :: if Leased(to) then LeasedFrom(Sys(t, g), x, at) else EndedAt(Sys(t, g), x, at)
  {
  }

  // What is known of a run that succeeded.
  ghost predicate Success(sys: Sys, x: Session, pass: seq<EntityRecord>, second: seq<EntityRecord>) {
    && Finished(sys, x, pass)
    && PassOrdered(pass, x.entity) && DistinctIdentities(pass) && CleanIdentities(pass)
    && PassOrdered(second, x.entity) && SamePass(pass, second)
  }

  lemma SuccessStores(sys: Sys, x: Session, pass: seq<EntityRecord>, second: seq<EntityRecord>)
    requires Success(sys, x, pass, second)
    ensures PassStored(sys.graph, x, pass)
  {
    hide PassStored, Covers;
  }

  // Cleanup, wherever it stands in the history, is justified by all that stands before it.
  ghost predicate CleanupsJustified(events: seq<Event>, x: Session, pass: seq<EntityRecord>,
        second: seq<EntityRecord>) {
    forall k | 0 <= k < |events| ::
      events[k].CleanupStarted? ==> events[k].cutoff == x.snapshot && Justified(events[..k], x, pass, second)
  }

  ghost predicate NoCleanup(events: seq<Event>) {
    forall k | 0 <= k < |events| :: !events[k].CleanupStarted?
  }

  lemma NoCleanupSum(a: seq<Event>, b: seq<Event>)
    requires NoCleanup(a) && NoCleanup(b)
    ensures NoCleanup(a + b)
  {
  }

  // The records gathered so far: in order, each identity clean and once, the cursor at their end.
  ghost predicate PassSoFar(x: Session, pass: seq<EntityRecord>, cursor: Cursor) {
    && PassOk(pass, cursor, x.entity)
    && DistinctIdentities(pass) && CleanIdentities(pass)
    && DecodeOk(x.key.resource, cursor)
    && cursor.version == CURSOR_VERSION && cursor.runId == x.runId && cursor.snapshotAt == x.snapshot
    && ResourceFor(x.entity) == Some(x.key.resource)
  }

  // Between two pages: the session is under way, and checkpoint, graph and records agree.
  ghost predicate CollectState(sys: Sys, x: Session, cursor: Cursor, pass: seq<EntityRecord>) {
    && Held(sys, x) && !HasSucceeded(sys, x)
    && PassSoFar(x, pass, cursor)
    && Collected(sys, x, Running, cursor, RecordsIn(pass), Ownerships(x, pass))
  }

  lemma PassOffset(x: Session, pass: seq<EntityRecord>, cursor: Cursor)
    requires PassSoFar(x, pass, cursor)
    ensures cursor.nextOffset == |pass|
  {
  }

  lemma ExtendPassSoFar(x: Session, pass: seq<EntityRecord>, cursor: Cursor, page: EntityPage)
    requires PassSoFar(x, pass, cursor) && PageOk(cursor, page, x.entity)
    requires CleanIdentities(page.records) && DistinctIdentities(page.records)
    requires Identities(page.records) !! Identities(pass)
    ensures PassSoFar(x, pass + page.records, Advanced(cursor, page))
    ensures Identities(pass + page.records) == Identities(pass) + Identities(page.records)
    ensures Stream(pass + page.records) == Stream(pass) + Stream(page.records)
  {
    ExtendPass(pass, cursor, page, x.entity, x.key.resource);
    DistinctSum(pass, page.records);
    IdentitiesOfSum(pass, page.records);
    StreamOfSum(pass, page.records);
  }

  function StoredEvents(records: seq<EntityRecord>, next: Cursor): seq<Event> {
    if records == [] then [PageWritten([])] else [PageWritten(records), PageCheckpointed(next)]
  }

  lemma StoredRecords(records: seq<EntityRecord>, next: Cursor)
    ensures WrittenIn([PageWritten(records)]) == records && WrittenIn(StoredEvents(records, next)) == records
  {
    FlatMapFront(RecordsOf, [PageWritten(records)]);
    FlatMapFront(RecordsOf, StoredEvents(records, next));
    if records != [] {
      assert StoredEvents(records, next)[1..] == [PageCheckpointed(next)];
      FlatMapFront(RecordsOf, [PageCheckpointed(next)]);
    }
  }

  lemma CollectionGrows(events: seq<Event>, x: Session, pass: seq<EntityRecord>, records: seq<EntityRecord>,
        next: Cursor)
    requires Collection(events, x, pass)
    requires records != [] ==>
              next.runId == x.runId && next.snapshotAt == x.snapshot && next.nextOffset == |pass + records|
    ensures Collection(events + StoredEvents(records, next), x, pass + records)
  {
    var n, all := |events|, events + StoredEvents(records, next);
    StoredRecords(records, next);
    FlatMapSum(RecordsOf, events, StoredEvents(records, next));
    FlatMapSum(RecordsOf, events, [PageWritten(records)]);
    assert all[..n + 1] == events + [PageWritten(records)];
    forall k | 0 <= k < |all| ensures PageEvent(all, x, k) {
      if k < n {
        assert PageEvent(events, x, k);
        assert all[..k] == events[..k];
      }
    }
  }

  function BeforePublishing(full: bool, events: seq<Event>, second: seq<EntityRecord>): seq<Event> {
    [CoverageRead(full)] + events + [Reached(Validating), SecondPassRead(second)]
  }

  function History(full: bool, events: seq<Event>, second: seq<EntityRecord>, current: bool): seq<Event> {
    BeforePublishing(full, events, second) + [Reached(Publishing), CoverageRead(current)]
  }

  lemma HistoryJustified(events: seq<Event>, second: seq<EntityRecord>, x: Session, pass: seq<EntityRecord>)
    requires Collection(events, x, pass) && SamePass(pass, second)
    ensures Justified(History(true, events, second, true), x, pass, second)
  {
    hide Collection, SamePass;
    var history := History(true, events, second, true);
    assert history[1..|history| - 4] == events;
  }

  lemma CleanupFinishedHere(started: seq<Event>, after: Graph, second: seq<EntityRecord>, x: Session,
        pass: seq<EntityRecord>)
    requires CleanupsJustified(started, x, pass, second)
    ensures CleanupsJustified(started + [CleanupFinished(after)], x, pass, second)
  {
    var all := started + [CleanupFinished(after)];
    forall k | 0 <= k < |all| && all[k].CleanupStarted?
      ensures all[k].cutoff == x.snapshot && Justified(all[..k], x, pass, second)
    {
      assert all[..k] == started[..k];
    }
  }

  // All records of a page have one clean owner, the one their partition had before.
  ghost predicate OneOwner(records: seq<EntityRecord>, partitionOwners: map<int, string>)
    requires records != []
  {
    var owner, partition := records[0].ownerDeviceSn, records[0].partition;
    && owner != "" && TrimSpace(owner) == owner
    && (forall i | 0 <= i < |records| :: records[i].ownerDeviceSn == owner)
    && (partition in partitionOwners ==> partitionOwners[partition] == owner)
  }

  class SyncWorker {
    const runs: InventoryRepository
    const graph: TopologyGraph
    var context: Context
    var clock: Time
    ghost var trace: seq<Event>
    // The system at the instant this worker's run was completed.
    ghost var settled: Option<Sys>

    constructor (runs: InventoryRepository, graph: TopologyGraph, clock: Time)
      ensures this.runs == runs && this.graph == graph && this.clock == clock
      ensures trace == [] && settled == None && context == Context(false, false, false, false)
    {
      this.runs, this.graph, this.clock := runs, graph, clock;
      context := Context(false, false, false, false);
      trace, settled := [], None;
    }

    function Now(): Sys
      reads runs, graph
    {
      Sys(runs.Contents(), graph.Contents())
    }

    // The run is to stop: its context has ended, its lease is lost, or it has been asked to.
    ghost predicate ToStop(x: Session)
      reads this, runs, graph
    {
      context.done || context.leaseLost || Asked(Now(), x)
    }

    // ----- the rest of the world -----

    /** Anything may happen between two statements: other actors take any steps, the clock moves on,
        the context may be canceled, the heartbeat may report the lease lost. */
    method Interfere(x: Session)
      requires Held(Now(), x)
      modifies runs, graph, this`context, this`clock
      ensures Since(old(Now()), Now(), x)
      ensures clock >= old(clock) && Worsened(old(context), context)
    {
      ghost var start := Now();
      var steps: int := *;
      for i := 0 to if steps < 0 then 0 else steps
        invariant clock == old(clock) && context == old(context)
        invariant Since(start, Now(), x)
      {
        ghost var before := Now();
        var e: EnvStep := *;
        if EnvOk(x.runId, Now(), e) {
          SinceEnvStep(before, x, e);
          Perform(EnvApply(Now(), e));
          SinceTransitive(start, before, Now(), x);
        }
      }
      var passed: int, canceled: bool, failed: bool, first: bool := *, *, *, *;
      clock := clock + if passed < 0 then 0 else passed;
      context := Signal(context, canceled, failed, first);
    }

    method Perform(after: Sys)
      modifies runs, graph
      ensures Now() == after
    {
      runs.sources, runs.runs, runs.checkpoints := after.store.sources, after.store.runs, after.store.checkpoints;
      graph.vertices, graph.edges := after.graph.vertices, after.graph.edges;
    }

    // ----- run state -----

    method CancellationRequested(x: Session) returns (check: Check)
      requires Held(Now(), x)
      modifies runs, graph, this`context, this`clock
      ensures Since(old(Now()), Now(), x) && clock >= old(clock)
      ensures old(ToStop(x)) ==> check != Continue
      ensures check == Lost <==> context.leaseLost
      ensures !context.leaseLost && context.done ==> check == Cancellation
      ensures check == Cancellation && !context.done ==> Asked(Now(), x)
      ensures check == Continue ==> !context.done && !Asked(Now(), x)
    {
      Interfere(x);
      if context.leaseLost { return Lost; }
      if context.done { return Cancellation; }
      var r := runs.RunCancellationRequested(x.runId);
      match r {
        case Err(_) => check := CheckFailed;
        case Ok(requested) => check := if requested then Cancellation else Continue;
      }
    }

    method Transition(x: Session, from: Status, to: Status, at: Option<Time>, code: string) returns (ok: bool)
      requires Held(Now(), x) && to != Succeeded
      modifies runs, graph, this`context, this`clock
      ensures Held(Now(), x) && (HasSucceeded(Now(), x) ==> old(HasSucceeded(Now(), x))) && clock >= old(clock)
      ensures ok && Leased(to) ==> forall cursor, records, owners ::
                old(Collected(Now(), x, from, cursor, records, owners)) ==>
                    Collected(Now(), x, to, cursor, records, owners)
      ensures ok ==>
        && TransitionAllowed(from, to) && x.runId in Now().store.runs && Now().store.runs[x.runId].status == to
        && Now().store.runs[x.runId].errorCode == if to == Failed then code else ""
      ensures ok ==>
        var when := if at.Some? then at.value else clock;
        if Leased(to) then LeasedFrom(Now(), x, when) else EndedAt(Now(), x, when)
      ensures HasLease(Now(), x) ==> old(HasLease(Now(), x)) && OwnEdges(Now(), x) == old(OwnEdges(Now(), x))
      ensures Keeps(old(graph.Contents()), graph.Contents()) && Worsened(old(context), context)
    {
      hide SysInv, Collected, Keeps, LeasedFrom, EndedAt, Answers.TransitionAnswer, StampedEdges;
      ghost var start := Now();
      Interfere(x);
      ghost var before := Now();
      var when := if at.Some? then at.value else clock;
      var r := runs.TransitionRun(x.runId, from, to, when, code);
      OwnTransition(before, x, from, to, when, code);
      assert Now().graph == before.graph;
      assert Now() == before
          || Now() == before.(store := Control.Transition(before.store, x.runId, from, to, when, code).0);
      ok := r.Ok?;
      if ok { MovedRow(before.store, x, from, to, when, code); }
      hide Control.Transition;
      if ok && Leased(to) {
        forall cursor, records, owners | Collected(start, x, from, cursor, records, owners)
          ensures Collected(Now(), x, to, cursor, records, owners)
        {
          OwnTransitionCollected(before, x, from, to, when, code, cursor, records, owners);
        }
      }
    }

    method FailRun(x: Session, from: Status, at: Option<Time>, code: string) returns (outcome: Outcome)
      requires Held(Now(), x)
      modifies runs, graph, this`context, this`clock
      ensures Held(Now(), x) && (HasSucceeded(Now(), x) ==> old(HasSucceeded(Now(), x))) && clock >= old(clock)
      ensures Stopped(Now(), x, Some(outcome), context.leaseLost)
      ensures outcome == FailedRun(code) || outcome == TransitionRefused
      ensures outcome == FailedRun(code) ==> EndedAt(Now(), x, if at.Some? then at.value else clock)
    {
      var ok := Transition(x, from, Failed, at, code);
      outcome := if ok then FailedRun(code) else TransitionRefused;
    }

    method CancelRun(x: Session, from: Status, at: Option<Time>) returns (outcome: Outcome)
      requires Held(Now(), x)
      modifies runs, graph, this`context, this`clock
      ensures Held(Now(), x) && (HasSucceeded(Now(), x) ==> old(HasSucceeded(Now(), x))) && clock >= old(clock)
      ensures Stopped(Now(), x, Some(outcome), context.leaseLost)
      ensures outcome == CanceledRun || outcome == TransitionRefused
      ensures outcome == CanceledRun ==> EndedAt(Now(), x, if at.Some? then at.value else clock)
    {
      var ok := Transition(x, from, Canceled, at, "");
      outcome := if ok then CanceledRun else TransitionRefused;
    }

    method FailOrCancel(x: Session, from: Status, code: string) returns (outcome: Outcome)
      requires Held(Now(), x)
      modifies runs, graph, this`context, this`clock
      ensures Held(Now(), x) && (HasSucceeded(Now(), x) ==> old(HasSucceeded(Now(), x))) && clock >= old(clock)
      ensures Stopped(Now(), x, Some(outcome), context.leaseLost)
      ensures old(context.leaseLost) <==> outcome == LeaseLost
      ensures outcome.FailedRun? ==> outcome.code == code && !old(context.done)
      ensures outcome.FailedRun? || outcome == CanceledRun ==> EndedAt(Now(), x, old(clock))
    {
      if context.leaseLost { return LeaseLost; }
      var at := clock;
      if context.done {
        outcome := CancelRun(x, from, Some(at));
        return;
      }
      Interfere(x);
      var r := runs.RunCancellationRequested(x.runId);
      if r == Ok(true) {
        outcome := CancelRun(x, from, Some(at));
      } else {
        outcome := FailRun(x, from, Some(at), code);
      }
    }

    // What a check other than Continue leads to.
    method Stop(x: Session, check: Check, from: Status) returns (outcome: Outcome)
      requires Held(Now(), x) && check != Continue && (check == Lost ==> context.leaseLost)
      modifies runs, graph, this`context, this`clock
      ensures Held(Now(), x) && (HasSucceeded(Now(), x) ==> old(HasSucceeded(Now(), x))) && clock >= old(clock)
      ensures Stopped(Now(), x, Some(outcome), context.leaseLost)
      ensures outcome == LeaseLost <==> check == Lost
      ensures outcome == CanceledRun ==> check == Cancellation
      ensures outcome.FailedRun? ==> check == CheckFailed && outcome.code == CANCELLATION_CHECK
      ensures outcome.FailedRun? || outcome == CanceledRun ==> EndedAt(Now(), x, x.snapshot)
    {
      if check == Lost {
        outcome := LeaseLost;
      } else if check == Cancellation {
        outcome := CancelRun(x, from, Some(x.snapshot));
      } else {
        outcome := FailRun(x, from, Some(x.snapshot), CANCELLATION_CHECK);
      }
    }

    // ----- reading the source -----

    // The next page, whatever the upstream replies: the adapters never hand over an empty page early.
    method CollectPage(x: Session, offset: nat) returns (page: Option<EntityPage>)
      requires Held(Now(), x)
      modifies runs, graph, this`context, this`clock
      ensures Since(old(Now()), Now(), x) && clock >= old(clock)
      ensures page.Some? ==> NeverEmptyEarly(page.value, offset)
    {
      Interfere(x);
      var failed: bool, pageSize: int, raw: RawPage := *, *, *;
      if failed || pageSize <= 0 { return None; }
      if x.entity == Device {
        page := CollectDevicePage(raw, pageSize, offset);
      } else if x.entity == Interface {
        page := CollectPartitionPage(raw, pageSize, offset);
      } else {
        page := CollectEntityPage(raw, pageSize, offset);
      }
    }

    // A page of the interface pass, of which only the total and the device at this offset matter here.
    method CollectPartitionPage(raw: RawPage, pageSize: nat, offset: nat) returns (page: Option<EntityPage>)
      requires pageSize > 0
      ensures page.Some? ==> NeverEmptyEarly(page.value, offset)
    {
      var total: int, device: InterfacePass.Partition := *, *;
      if total < offset { return None; }
      if offset == total { return Some(EntityPage([], offset, total, true)); }
      if !(device.baseOffset <= offset < InterfacePass.Ends(device)) { return None; }
      page := InterfacePass.TakePartitionPage(device, raw, Min(pageSize, InterfacePass.Ends(device) - offset), offset,
          total);
    }

    // A configuration or discovery call that may fail.
    method Ask(x: Session) returns (answer: Option<bool>)
      requires Held(Now(), x)
      modifies runs, graph, this`context, this`clock
      ensures Since(old(Now()), Now(), x) && clock >= old(clock)
    {
      Interfere(x);
      var yes: bool, failed: bool := *, *;
      answer := if failed then None else Some(yes);
    }

    // Whether the adapter covers the whole source, as read just now.
    method ReadCoverage(x: Session) returns (full: Option<bool>)
      requires Held(Now(), x)
      modifies runs, graph, this`context, this`clock, this`trace
      ensures Since(old(Now()), Now(), x) && clock >= old(clock)
      ensures trace == old(trace) + if full.Some? then [CoverageRead(full.value)] else []
    {
      full := Ask(x);
      if full.Some? { trace := trace + [CoverageRead(full.value)]; }
    }

    // ----- writing a page -----

    method ValidateInterfaceOwners(x: Session, records: seq<EntityRecord>, verified: set<string>,
          partitionOwners: map<int, string>)
      returns (ok: bool, nowVerified: set<string>, nowOwners: map<int, string>)
      requires Held(Now(), x)
      modifies runs, graph, this`context, this`clock
      ensures Since(old(Now()), Now(), x) && clock >= old(clock)
      ensures ok && records == [] ==> nowVerified == verified && nowOwners == partitionOwners
      ensures ok && records != [] ==>
        && OneOwner(records, partitionOwners)
        && var owner := records[0].ownerDeviceSn;
           && nowOwners == partitionOwners[records[0].partition := owner] && nowVerified == verified + {owner}
           && (owner !in verified ==> Identity(x.key.sourceId, Device, owner) in graph.vertices)
      ensures !ok ==> records != [] && (!OneOwner(records, partitionOwners) || records[0].ownerDeviceSn !in verified)
    {
      nowVerified, nowOwners := verified, partitionOwners;
      Interfere(x);
      if records == [] { return true, verified, partitionOwners; }
      var owner, partition := records[0].ownerDeviceSn, records[0].partition;
      if owner == "" || TrimSpace(owner) != owner { return false, verified, partitionOwners; }
      for i := 0 to |records|
        invariant forall k | 0 <= k < i :: records[k].ownerDeviceSn == owner
      {
        if records[i].ownerDeviceSn != owner { return false, verified, partitionOwners; }
      }
      if partition in partitionOwners && partitionOwners[partition] != owner {
        return false, verified, partitionOwners;
      }
      if owner !in verified {
        var exists' := graph.VertexExists(Identity(x.key.sourceId, Device, owner));
        if exists' != Ok(true) { return false, verified, partitionOwners; }
        nowVerified := nowVerified + {owner};
      }
      nowOwners := nowOwners[partition := owner];
      ok := true;
    }

    // One record: its vertex first, and for an interface its ownership edge only after that.
    method WriteRecord(x: Session, record: EntityRecord, ghost cursor: Cursor, ghost written: set<EntityRecord>,
          ghost owners: set<RelationIdentity>)
      returns (ok: bool)
      requires Held(Now(), x) && x.schemas == graph.schemas
      modifies runs, graph, this`context, this`clock
      ensures Held(Now(), x) && (HasSucceeded(Now(), x) <==> old(HasSucceeded(Now(), x))) && clock >= old(clock)
      ensures old(context.done) ==> context.done
      ensures ok && old(Collected(Now(), x, Running, cursor, written, owners)) && NewTo(record, written) ==>
                && Collected(Now(), x, Running, cursor, written + {record}, owners + Ownerships(x, [record]))
                && (HasLease(Now(), x) ==>
                      && Shows(graph.Contents(), x, record)
                      && (x.entity == Interface ==> OwnedBy(graph.Contents(), x, record)))
    {
      hide SysInv, Shows, Covers;
      OwnershipsOfOne(x, record);
      ok := UpsertOwnVertex(x, record, cursor, written, owners);
      if !ok { return; }
      if x.entity == Interface {
        ok := UpsertOwnEdge(x, OwnershipOf(x, record), cursor, written + {record}, owners);
      } else {
        assert owners + {} == owners;
      }
      assert record in written + {record};
      assert x.entity == Interface ==> OwnershipOf(x, record) in owners + Ownerships(x, [record]);
    }

    method UpsertOwnVertex(x: Session, record: EntityRecord, ghost cursor: Cursor, ghost written: set<EntityRecord>,
          ghost owners: set<RelationIdentity>)
      returns (ok: bool)
      requires Held(Now(), x) && x.schemas == graph.schemas
      modifies runs, graph, this`context, this`clock
      ensures Held(Now(), x) && (HasSucceeded(Now(), x) <==> old(HasSucceeded(Now(), x))) && clock >= old(clock)
      ensures old(context.done) ==> context.done
      ensures ok && old(Collected(Now(), x, Running, cursor, written, owners)) && NewTo(record, written) ==>
                Collected(Now(), x, Running, cursor, written + {record}, owners)
    {
      hide SysInv, Collected, Upsert, InsertIfAbsent, ShowsRecord, Acceptable;
      Interfere(x);
      ghost var before := Now();
      var v := VertexOf(x, record.identity);
      ok := graph.UpsertVertex(v, record.properties, x.snapshot, x.snapshot);
      if graph.vertices != before.graph.vertices || ok {
        ghost var row := Row(Normalized(graph.schemas[v.entityType], record.properties), x.snapshot, x.snapshot);
        ghost var whole := ok || graph.vertices == Upsert(before.graph.vertices, v, row);
        assert graph.vertices == Put(before.graph.vertices, v, row, whole);
        NormalizedShows(x.schemas[x.entity], record.properties);
        OwnVertex(before, x, record, row, whole);
        assert Now() == before.(graph := before.graph.(vertices := Put(before.graph.vertices, v, row, whole)));
      } else {
        assert Now() == before;
      }
    }

    method UpsertOwnEdge(x: Session, relation: RelationIdentity, ghost cursor: Cursor, ghost written: set<EntityRecord>,
          ghost owners: set<RelationIdentity>)
      returns (ok: bool)
      requires Held(Now(), x) && relation.sourceId == x.key.sourceId
      modifies runs, graph, this`context, this`clock
      ensures Held(Now(), x) && (HasSucceeded(Now(), x) <==> old(HasSucceeded(Now(), x))) && clock >= old(clock)
      ensures old(context.done) ==> context.done
      ensures ok && old(Collected(Now(), x, Running, cursor, written, owners)) ==>
                Collected(Now(), x, Running, cursor, written, owners + {relation})
      ensures ok ==> RelationOk(relation, x.snapshot, x.snapshot)
      ensures Keeps(old(graph.Contents()), graph.Contents())
      ensures ok && HasLease(Now(), x) ==>
                old(HasLease(Now(), x)) && OwnEdges(Now(), x).Keys == old(OwnEdges(Now(), x)).Keys + {relation}
    {
      hide SysInv, Collected;
      Interfere(x);
      ghost var before := Now();
      ghost var row := Row(map[], x.snapshot, x.snapshot);
      ok := graph.UpsertRelation(relation, map[], x.snapshot, x.snapshot);
      if graph.edges != before.graph.edges || ok {
        ghost var whole := ok || graph.edges == Upsert(before.graph.edges, relation, row);
        assert graph.edges == Put(before.graph.edges, relation, row, whole);
        OwnEdge(before, x, relation, row, whole);
        assert Now() == before.(graph := before.graph.(edges := Put(before.graph.edges, relation, row, whole)));
      } else {
        assert Now() == before;
      }
    }

    /** The page's records are written concurrently, so in any order; after a failure or a cancellation
        no further write is launched, but those in flight may still land. Only when every record was
        written is the page written. */
    method WriteEntityPage(x: Session, records: seq<EntityRecord>, ghost cursor: Cursor, ghost pass: seq<EntityRecord>)
      returns (result: WriteResult)
      requires Held(Now(), x) && Collected(Now(), x, Running, cursor, RecordsIn(pass), Ownerships(x, pass))
      requires x.schemas == graph.schemas && DistinctIdentities(pass + records)
      modifies runs, graph, this`context, this`clock
      ensures Held(Now(), x) && (HasSucceeded(Now(), x) <==> old(HasSucceeded(Now(), x))) && clock >= old(clock)
      ensures result == Written ==>
                Collected(Now(), x, Running, cursor, RecordsIn(pass + records), Ownerships(x, pass + records))
      ensures result == Written && HasLease(Now(), x) ==> PassStored(graph.Contents(), x, pass + records)
      ensures result == WriteLost <==> context.leaseLost
      ensures !context.leaseLost ==> (result == WriteCanceled <==> context.done)
    {
      var remaining := multiset(records);
      var failed := false;
      ghost var done: seq<EntityRecord> := [];
      hide SysInv, Collected, DistinctIdentities, PassStored;
      assert pass + done == pass;
      while remaining != multiset{}
        invariant forall r :: r in records <==> r in remaining || r in done
        invariant Held(Now(), x) && (HasSucceeded(Now(), x) <==> old(HasSucceeded(Now(), x))) && clock >= old(clock)
        invariant !failed ==> Collected(Now(), x, Running, cursor, RecordsIn(pass + done), Ownerships(x, pass + done))
        decreases |remaining|
      {
        var giveUp: bool := *;
        if (failed || context.done) && giveUp { break; }
        var record :| record in remaining;
        remaining := remaining - multiset{record};
        NewInPage(pass, done, records, record);
        var ok := WriteRecord(x, record, cursor, RecordsIn(pass + done), Ownerships(x, pass + done));
        if !ok { failed := true; }
        assert pass + (done + [record]) == (pass + done) + [record];
        RecordsInSum(pass + done, [record]);
        assert RecordsIn([record]) == {record};
        OwnershipsOfSum(x, pass + done, [record]);
        done := done + [record];
      }
      Interfere(x);
      if context.leaseLost { return WriteLost; }
      if context.done { return WriteCanceled; }
      if failed { return WriteFailed; }
      SameRecordsSameSets(x, pass, done, records);
      if HasLease(Now(), x) { CollectedStored(Now(), x, Running, cursor, pass + records); }
      result := Written;
    }

    // ----- the first pass -----

    method Advance(x: Session, next: Cursor, ghost cursor: Cursor, ghost written: set<EntityRecord>,
          ghost owners: set<RelationIdentity>)
      returns (ok: bool)
      requires Held(Now(), x)
      modifies runs, graph, this`context, this`clock
      ensures Held(Now(), x) && (HasSucceeded(Now(), x) ==> old(HasSucceeded(Now(), x))) && clock >= old(clock)
      ensures ok && old(Collected(Now(), x, Running, cursor, written, owners)) ==>
                Collected(Now(), x, Running, next, written, owners)
      ensures ok ==> LeasedFrom(Now(), x, clock)
      ensures HasLease(Now(), x) ==> old(HasLease(Now(), x)) && OwnEdges(Now(), x) == old(OwnEdges(Now(), x))
      ensures Keeps(old(graph.Contents()), graph.Contents())
    {
      hide Answers.AdvanceAnswer;
      Interfere(x);
      ghost var before := Now();
      var r := runs.AdvanceCheckpoint(x.key, x.runId, next, clock);
      OwnAdvance(before, x, next, clock);
      assert Now() == before || Now() == before.(store := Control.Advance(before.store, x.key, x.runId, next, clock).0);
      ok := r.Ok?;
      if ok && Collected(before, x, Running, cursor, written, owners) {
        OwnAdvanceCollected(before, x, cursor, written, owners, next, clock);
      }
    }

    // Asks whether to go on, fetches the next page and checks it.
    method ReadPage(x: Session, code: string, cursor: Cursor, seen: set<string>)
      returns (stop: Option<Outcome>, page: EntityPage, last: int, nowSeen: set<string>)
      requires Held(Now(), x) && cursor.nextOffset >= 0
      modifies runs, graph, this`context, this`clock
      ensures Held(Now(), x) && (HasSucceeded(Now(), x) ==> old(HasSucceeded(Now(), x))) && clock >= old(clock)
      ensures Stopped(Now(), x, stop, context.leaseLost)
      ensures old(ToStop(x)) ==> stop.Some?
      ensures stop.None? ==>
        && Since(old(Now()), Now(), x)
        && NeverEmptyEarly(page, cursor.nextOffset) && PageOk(cursor, page, x.entity)
        && last == (if page.records == [] then cursor.lastInstanceId
             else page.records[|page.records| - 1].sourceInstanceId)
        && CleanIdentities(page.records) && DistinctIdentities(page.records) && Identities(page.records) !! seen
        && nowSeen == seen + Identities(page.records)
    {
      hide SysInv, Since;
      stop, page, last, nowSeen := None, EntityPage([], 0, 0, true), 0, seen;
      ghost var start := Now();
      var check := CancellationRequested(x);
      ghost var middle := Now();
      if check != Continue {
        var outcome := Stop(x, check, Running);
        stop := Some(outcome);
        return;
      }
      var reply := CollectPage(x, cursor.nextOffset);
      SinceTransitive(start, middle, Now(), x);
      if reply.None? {
        var outcome := FailOrCancel(x, Running, code);
        stop := Some(outcome);
        return;
      }
      page := reply.value;
      var validated := ValidateEntityPage(cursor, page, x.entity);
      var unseen: bool;
      unseen, nowSeen := AddEntityIdentities(seen, page.records);
      if validated.None? || !unseen {
        var outcome := FailRun(x, Running, None, code);
        stop := Some(outcome);
        return;
      }
      last := validated.value;
    }

    // Writes a page and, unless it is empty, moves the checkpoint past it.
    method StorePage(x: Session, page: EntityPage, last: int, cursor: Cursor, ghost pass: seq<EntityRecord>)
      returns (stop: Option<Outcome>, ghost stored: seq<Event>)
      requires CollectState(Now(), x, cursor, pass) && PageOk(cursor, page, x.entity)
      requires x.schemas == graph.schemas && DistinctIdentities(pass + page.records)
      requires page.records != [] ==> last == page.records[|page.records| - 1].sourceInstanceId
      modifies runs, graph, this`context, this`clock, this`trace
      ensures Held(Now(), x) && !HasSucceeded(Now(), x) && clock >= old(clock)
      ensures Stopped(Now(), x, stop, context.leaseLost)
      ensures trace == old(trace) + stored && NoCleanup(stored)
      ensures stop.None? ==>
        && Collected(Now(), x, Running, Advanced(cursor, page), RecordsIn(pass + page.records),
             Ownerships(x, pass + page.records))
        && stored == StoredEvents(page.records, Advanced(cursor, page))
    {
      hide SysInv, Collected;
      stop, stored := None, [];
      ghost var whole := pass + page.records;
      var written := WriteEntityPage(x, page.records, cursor, pass);
      if written != Written {
        var outcome := AfterFailedWrite(x, written);
        stop := Some(outcome);
        return;
      }
      stored := [PageWritten(page.records)];
      trace := trace + stored;
      if page.records == [] { return; }
      var next := Cursor(CURSOR_VERSION, x.runId, page.nextOffset, last, page.records[0].partition, x.snapshot,
          page.total);
      assert next == Advanced(cursor, page);
      stop := CheckpointPage(x, next, cursor, whole);
      if stop.Some? { return; }
      trace := trace + [PageCheckpointed(next)];
      stored := stored + [PageCheckpointed(next)];
    }

    method CheckpointPage(x: Session, next: Cursor, ghost cursor: Cursor, ghost whole: seq<EntityRecord>)
      returns (stop: Option<Outcome>)
      requires Held(Now(), x) && !HasSucceeded(Now(), x)
      requires Collected(Now(), x, Running, cursor, RecordsIn(whole), Ownerships(x, whole))
      modifies runs, graph, this`context, this`clock
      ensures Held(Now(), x) && !HasSucceeded(Now(), x) && clock >= old(clock)
                && Stopped(Now(), x, stop, context.leaseLost)
      ensures stop.None? ==> Collected(Now(), x, Running, next, RecordsIn(whole), Ownerships(x, whole))
      ensures old(ToStop(x)) ==> stop.Some?
    {
      var check := CancellationRequested(x);
      if check != Continue {
        var outcome := Stop(x, check, Running);
        return Some(outcome);
      }
      var advanced := Advance(x, next, cursor, RecordsIn(whole), Ownerships(x, whole));
      if !advanced {
        var outcome := FailOrCancel(x, Running, CHECKPOINT_FAILED);
        return Some(outcome);
      }
      stop := None;
    }

    // For interfaces, the owners of a page's records must hold up before anything is written.
    method CheckOwners(x: Session, records: seq<EntityRecord>, verified: set<string>,
          partitionOwners: map<int, string>)
      returns (stop: Option<Outcome>, nowVerified: set<string>, nowOwners: map<int, string>)
      requires Held(Now(), x) && !HasSucceeded(Now(), x)
      modifies runs, graph, this`context, this`clock
      ensures Held(Now(), x) && !HasSucceeded(Now(), x) && clock >= old(clock)
      ensures Stopped(Now(), x, stop, context.leaseLost)
      ensures stop.None? ==>
                Since(old(Now()), Now(), x)
                && (x.entity == Interface && records != [] ==> OneOwner(records, partitionOwners))
    {
      hide SysInv, OneOwner;
      stop, nowVerified, nowOwners := None, verified, partitionOwners;
      if x.entity == Interface {
        var owned: bool;
        owned, nowVerified, nowOwners := ValidateInterfaceOwners(x, records, verified, partitionOwners);
        if !owned {
          var outcome := FailOrCancel(x, Running, GRAPH_WRITE);
          stop := Some(outcome);
        }
      } else {
        SinceItself(Now(), x);
      }
    }

    // One turn of the collection loop: read a page, check its owners, digest it, store it.
    method CollectOnePage(x: Session, code: string, cursor: Cursor, digest: seq<byte>, seen: set<string>,
                          verified: set<string>, partitionOwners: map<int, string>, ghost pass: seq<EntityRecord>)
      returns (stop: Option<Outcome>, page: EntityPage, nowDigest: seq<byte>, nowSeen: set<string>,
               nowVerified: set<string>, nowOwners: map<int, string>, ghost stored: seq<Event>)
      requires CollectState(Now(), x, cursor, pass) && x.schemas == graph.schemas
      requires seen == Identities(pass) && digest == Stream(pass)
      modifies runs, graph, this`context, this`clock, this`trace
      ensures Held(Now(), x) && !HasSucceeded(Now(), x) && clock >= old(clock)
      ensures Stopped(Now(), x, stop, context.leaseLost)
      ensures trace == old(trace) + stored && NoCleanup(stored)
      ensures old(ToStop(x)) ==> stop.Some? && stored == []
      ensures stop.None? ==>
        && NeverEmptyEarly(page, cursor.nextOffset) && PageOk(cursor, page, x.entity)
        && CollectState(Now(), x, Advanced(cursor, page), pass + page.records)
        && nowSeen == Identities(pass + page.records) && nowDigest == Stream(pass + page.records)
        && stored == StoredEvents(page.records, Advanced(cursor, page))
    {
      PassOffset(x, pass, cursor);
      hide SysInv, Collected, PassSoFar, PageOk, StoredEvents, NeverEmptyEarly, OneOwner, Advanced, Identities, Stream;
      nowDigest, nowVerified, nowOwners, stored := digest, verified, partitionOwners, [];
      var last: int;
      stop, page, last, nowSeen := ReadPage(x, code, cursor, seen);
      if stop.Some? { return; }
      ExtendPassSoFar(x, pass, cursor, page);
      stop, nowVerified, nowOwners := CheckOwners(x, page.records, verified, partitionOwners);
      if stop.Some? { return; }
      nowDigest := WriteEntityIdentityDigest(digest, page.records);
      stop, stored := StorePage(x, page, last, cursor, pass);
    }

    /** Collects, checks, writes and checkpoints page after page. When it does not stop the run, the
        pass is complete: everything the source counted, each identity once, in order, all of it in the
        graph under the run's snapshot, and the checkpoint standing at the end. */
    method CollectPass(x: Session, code: string, start: Cursor)
      returns (stop: Option<Outcome>, cursor: Cursor, digest: seq<byte>, ghost pass: seq<EntityRecord>,
            ghost events: seq<Event>)
      requires start == FreshCursor(x.runId, x.snapshot) && CollectState(Now(), x, start, [])
      requires x.schemas == graph.schemas
      modifies runs, graph, this`context, this`clock, this`trace
      ensures Held(Now(), x) && !HasSucceeded(Now(), x) && clock >= old(clock)
      ensures Stopped(Now(), x, stop, context.leaseLost)
      ensures trace == old(trace) + events && NoCleanup(events)
      ensures stop.None? ==>
        && CollectState(Now(), x, cursor, pass) && cursor.total == |pass|
        && digest == Stream(pass)
        && Collection(events, x, pass)
    {
      cursor, digest, stop, pass, events := start, [], None, [], [];
      var seen: set<string> := {};
      var verified: set<string> := {};
      var partitionOwners: map<int, string> := map[];
      var done := false;
      while !done
        invariant stop == None
        invariant CollectState(Now(), x, cursor, pass) && clock >= old(clock)
        invariant seen == Identities(pass) && digest == Stream(pass)
        invariant trace == old(trace) + events && NoCleanup(events) && Collection(events, x, pass)
        invariant done ==> cursor.total == |pass|
        decreases !done, if cursor.total == 0 then 1 else 0, cursor.total - cursor.nextOffset
      {
        var page: EntityPage;
        ghost var stored: seq<Event>;
        stop, page, digest, seen, verified, partitionOwners, stored :=
          CollectOnePage(x, code, cursor, digest, seen, verified, partitionOwners, pass);
        Assoc(old(trace), events, stored);
        NoCleanupSum(events, stored);
        if stop.Some? {
          events := events + stored;
          return;
        }
        CollectionGrows(events, x, pass, page.records, Advanced(cursor, page));
        events := events + stored;
        pass := pass + page.records;
        cursor := Advanced(cursor, page);
        done := page.done;
      }
    }

    method AfterFailedWrite(x: Session, written: WriteResult) returns (outcome: Outcome)
      requires Held(Now(), x) && written != Written && (written == WriteLost ==> context.leaseLost)
      modifies runs, graph, this`context, this`clock
      ensures Held(Now(), x) && (HasSucceeded(Now(), x) ==> old(HasSucceeded(Now(), x))) && clock >= old(clock)
      ensures Stopped(Now(), x, Some(outcome), context.leaseLost)
      ensures outcome == LeaseLost <==> written == WriteLost
      ensures outcome == CanceledRun ==> written == WriteCanceled
      ensures outcome.FailedRun? ==> written == WriteFailed && outcome.code == GRAPH_WRITE
    {
      if written == WriteLost {
        outcome := LeaseLost;
      } else if written == WriteCanceled {
        outcome := CancelRun(x, Running, None);
      } else {
        outcome := FailRun(x, Running, None, GRAPH_WRITE);
      }
    }

    // ----- the second pass -----

    /** Reads the whole source again and compares: the same total, page after page in order, and in the
        end the same stream. It writes nothing. */
    method ValidateEntitySnapshot(x: Session, expectedTotal: int, expectedDigest: seq<byte>)
      returns (v: Validation, ghost second: seq<EntityRecord>)
      requires Held(Now(), x)
      modifies runs, graph, this`context, this`clock
      ensures Since(old(Now()), Now(), x) && clock >= old(clock)
      ensures v == Matched ==>
        |second| == expectedTotal && Stream(second) == expectedDigest && PassOrdered(second, x.entity)
      ensures v == ValidationLost ==> context.leaseLost
      ensures v == ValidationCanceled ==> context.done || Asked(Now(), x)
    {
      assert PassOrdered([], x.entity);
      hide SysInv, Collected, Untouched, Keeps, OwnEdges, RecordsOk, PassOrdered;
      second, v := [], Mismatch;
      ghost var start := Now();
      var cursor := Cursor(CURSOR_VERSION, "", 0, 0, 0, ZERO_TIME, expectedTotal);
      var digest: seq<byte> := [];
      var discovery := Ask(x);
      if discovery.None? && x.entity == Interface {
        return (if context.leaseLost then ValidationLost else Mismatch), second;
      }
      var done := false;
      while !done
        invariant Held(Now(), x) && Since(start, Now(), x) && clock >= old(clock)
        invariant PassOk(second, cursor, x.entity) && cursor.total == expectedTotal && digest == Stream(second)
        invariant done ==> |second| == expectedTotal && digest == expectedDigest
        decreases !done, expectedTotal - cursor.nextOffset
      {
        var reply, stop := ReadAgain(x, cursor, start);
        if stop != Matched { return stop, second; }
        var page := reply;
        if page.total != expectedTotal { return Mismatch, second; }
        var last := ValidateEntityPage(cursor, page, x.entity);
        if last.None? { return Mismatch, second; }
        ExtendPass(second, cursor, page, x.entity, "");
        StreamOfSum(second, page.records);
        digest := WriteEntityIdentityDigest(digest, page.records);
        second := second + page.records;
        cursor := Advanced(cursor, page);
        if page.done {
          if cursor.nextOffset != expectedTotal || digest != expectedDigest { return Mismatch, second; }
          done := true;
        }
      }
      v := Matched;
    }

    method ReadAgain(x: Session, cursor: Cursor, ghost start: Sys) returns (page: EntityPage, stop: Validation)
      requires Held(Now(), x) && Since(start, Now(), x) && cursor.nextOffset >= 0
      modifies runs, graph, this`context, this`clock
      ensures Since(start, Now(), x) && clock >= old(clock)
      ensures stop == Matched ==> NeverEmptyEarly(page, cursor.nextOffset)
      ensures stop == ValidationLost ==> context.leaseLost
      ensures stop == ValidationCanceled ==> context.done || Asked(Now(), x)
    {
      page, stop := EntityPage([], 0, 0, true), Matched;
      ghost var before := Now();
      var check := CancellationRequested(x);
      ghost var middle := Now();
      SinceTransitive(start, before, middle, x);
      if check == Lost { return page, ValidationLost; }
      if check == Cancellation { return page, ValidationCanceled; }
      if check == CheckFailed { return page, Mismatch; }
      var reply := CollectPage(x, cursor.nextOffset);
      SinceTransitive(start, middle, Now(), x);
      if reply.None? { return page, if context.leaseLost then ValidationLost else Mismatch; }
      page := reply.value;
    }

    // ----- publishing -----

    method Complete(x: Session, ghost cursor: Cursor, ghost pass: seq<EntityRecord>, ghost second: seq<EntityRecord>)
      returns (ok: bool)
      requires Held(Now(), x) && !HasSucceeded(Now(), x) && clock >= x.snapshot && settled == None
      requires Collected(Now(), x, Publishing, cursor, RecordsIn(pass), Ownerships(x, pass))
      requires PassSoFar(x, pass, cursor) && cursor.total == |pass|
      requires PassOrdered(second, x.entity) && SamePass(pass, second)
      modifies runs, graph, this`context, this`clock, this`settled
      ensures Held(Now(), x) && clock >= old(clock)
      ensures HasSucceeded(Now(), x) ==> settled == Some(Now()) && Success(Now(), x, pass, second)
      ensures HasSucceeded(Now(), x) && Orphans(old(graph.Contents()), x.key.sourceId, x.entity, x.snapshot) == {} ==>
                OrphansAreNew(old(graph.Contents()), graph.Contents(), x)
      ensures ok ==> HasSucceeded(Now(), x) && EndedAt(Now(), x, clock)
      ensures !HasSucceeded(Now(), x) ==> settled == None
    {
      hide SysInv, OrphansAreNew, Finished, Orphans, Answers.CompleteAnswer;
      ghost var start := Now();
      Interfere(x);
      ghost var before := Now();
      var r := runs.CompleteCheckpointAndRun(x.key, x.runId, Publishing, clock);
      OwnComplete(before, x, clock);
      ghost var spec := Control.Complete(before.store, x.key, x.runId, Publishing, clock);
      assert Now() == before || Now() == before.(store := spec.0);
      ok := r.Ok?;
      if spec.1.Ok? && Now() == before.(store := spec.0) {
        OwnCompleteFinishes(before, x, cursor, pass, clock);
        if Orphans(start.graph, x.key.sourceId, x.entity, x.snapshot) == {} {
          NoOldOrphans(start, Now(), x, IdentitiesOf(RecordsIn(pass)));
        }
      }
      if HasSucceeded(Now(), x) { settled := Some(Now()); }
    }

    method CompleteOrFail(x: Session, ghost cursor: Cursor, ghost pass: seq<EntityRecord>,
          ghost second: seq<EntityRecord>)
      returns (outcome: Outcome)
      requires Held(Now(), x) && !HasSucceeded(Now(), x) && clock >= x.snapshot && settled == None
      requires Collected(Now(), x, Publishing, cursor, RecordsIn(pass), Ownerships(x, pass))
      requires PassSoFar(x, pass, cursor) && cursor.total == |pass|
      requires PassOrdered(second, x.entity) && SamePass(pass, second)
      modifies runs, graph, this`context, this`clock, this`settled
      ensures Held(Now(), x)
      ensures HasSucceeded(Now(), x) ==> settled.Some? && Success(settled.value, x, pass, second)
      ensures HasSucceeded(Now(), x) && Orphans(old(graph.Contents()), x.key.sourceId, x.entity, x.snapshot) == {} ==>
                OrphansAreNew(old(graph.Contents()), settled.value.graph, x)
      ensures outcome == Done ==> settled == Some(Now())
      ensures Ended(Now(), x, outcome, context.leaseLost)
    {
      hide Held, Success, Collected, OrphansAreNew;
      var completed := Complete(x, cursor, pass, second);
      if completed { return Done; }
      outcome := FailRun(x, Publishing, None, CHECKPOINT_FAILED);
    }

    // The orphan cleanup, undisturbed by other writers of the source, which the source lock keeps out.
    method Cleanup(x: Session, ghost cursor: Cursor, ghost written: set<EntityRecord>,
        ghost owners: set<RelationIdentity>)
      returns (ok: bool)
      requires Held(Now(), x) && !HasSucceeded(Now(), x)
      requires Collected(Now(), x, Publishing, cursor, written, owners)
      modifies runs, graph, this`context, this`clock
      ensures Held(Now(), x) && !HasSucceeded(Now(), x) && clock >= old(clock)
      ensures Collected(Now(), x, Publishing, cursor, written, owners)
      ensures ok ==> Orphans(graph.Contents(), x.key.sourceId, x.entity, x.snapshot) == {}
    {
      Interfere(x);
      ghost var before := Now();
      ok := graph.DeleteOrphanVerticesNotSeen(x.key.sourceId, x.entity, x.snapshot);
      ghost var gone :| gone <= Orphans(before.graph, x.key.sourceId, x.entity, x.snapshot)
                     && graph.vertices == before.graph.vertices - gone;
      OwnCleanup(before, x, gone);
      assert Now() == before.(graph := before.graph.(vertices := before.graph.vertices - gone));
    }

    // Checks once more whether to go on, and moves the run to publishing.
    method MoveToPublishing(x: Session, ghost cursor: Cursor, ghost written: set<EntityRecord>,
          ghost owners: set<RelationIdentity>)
      returns (stop: Option<Outcome>)
      requires Held(Now(), x) && !HasSucceeded(Now(), x) && Collected(Now(), x, Validating, cursor, written, owners)
      modifies runs, graph, this`context, this`clock
      ensures Held(Now(), x) && !HasSucceeded(Now(), x) && clock >= old(clock)
                && Stopped(Now(), x, stop, context.leaseLost)
      ensures stop.None? ==> Collected(Now(), x, Publishing, cursor, written, owners)
      ensures old(ToStop(x)) ==> stop.Some?
    {
      var check := CancellationRequested(x);
      if check != Continue {
        var outcome := Stop(x, check, Validating);
        return Some(outcome);
      }
      var moved := Transition(x, Validating, Publishing, None, "");
      if !moved {
        var outcome := FailOrCancel(x, Validating, CHECKPOINT_FAILED);
        return Some(outcome);
      }
      stop := None;
    }

    method EnterPublishing(x: Session, full: bool, ghost cursor: Cursor, ghost written: set<EntityRecord>,
          ghost owners: set<RelationIdentity>,
                           ghost second: seq<EntityRecord>, ghost events: seq<Event>)
      returns (stop: Option<Outcome>, current: bool)
      requires Held(Now(), x) && !HasSucceeded(Now(), x) && NoCleanup(events)
      requires Collected(Now(), x, Validating, cursor, written, owners)
      requires trace == BeforePublishing(full, events, second)
      modifies runs, graph, this`context, this`clock, this`trace
      ensures Held(Now(), x) && !HasSucceeded(Now(), x) && clock >= old(clock)
                && Stopped(Now(), x, stop, context.leaseLost)
      ensures NoCleanup(trace)
      ensures old(ToStop(x)) ==> stop.Some? && trace == old(trace)
      ensures stop.None? ==>
        && Collected(Now(), x, Publishing, cursor, written, owners)
        && trace == History(full, events, second, current)
    {
      hide Held, Collected;
      current := false;
      stop := MoveToPublishing(x, cursor, written, owners);
      if stop.Some? { return; }
      trace := trace + [Reached(Publishing)];
      if context.leaseLost { return Some(LeaseLost), current; }
      var coverage := ReadCoverage(x);
      if coverage.None? {
        var outcome := FailOrCancel(x, Publishing, SOURCE_VALIDATION);
        return Some(outcome), current;
      }
      current := coverage.value;
      assert trace == History(full, events, second, current);
    }

    method CleanupOrFail(x: Session, ghost cursor: Cursor, ghost written: set<EntityRecord>,
        ghost owners: set<RelationIdentity>)
      returns (stop: Option<Outcome>)
      requires Held(Now(), x) && !HasSucceeded(Now(), x) && Collected(Now(), x, Publishing, cursor, written, owners)
      modifies runs, graph, this`context, this`clock
      ensures Held(Now(), x) && !HasSucceeded(Now(), x) && clock >= old(clock)
                && Stopped(Now(), x, stop, context.leaseLost)
      ensures stop.None? ==>
        && Collected(Now(), x, Publishing, cursor, written, owners)
        && Orphans(graph.Contents(), x.key.sourceId, x.entity, x.snapshot) == {}
    {
      stop := None;
      var cleaned := Cleanup(x, cursor, written, owners);
      if !cleaned {
        if context.leaseLost { return Some(LeaseLost); }
        var outcome := FailRun(x, Publishing, None, GRAPH_CLEANUP);
        stop := Some(outcome);
      }
    }

    method CleanupIfCovered(x: Session, full: bool, current: bool, ghost cursor: Cursor,
        ghost written: set<EntityRecord>, ghost owners: set<RelationIdentity>,
        ghost pass: seq<EntityRecord>, ghost second: seq<EntityRecord>, ghost events: seq<Event>)
      returns (stop: Option<Outcome>)
      requires Held(Now(), x) && !HasSucceeded(Now(), x) && Collected(Now(), x, Publishing, cursor, written, owners)
      requires Collection(events, x, pass) && SamePass(pass, second)
      requires trace == History(full, events, second, current) && NoCleanup(trace)
      modifies runs, graph, this`context, this`clock, this`trace
      ensures Held(Now(), x) && !HasSucceeded(Now(), x) && clock >= old(clock)
                && Stopped(Now(), x, stop, context.leaseLost)
      ensures CleanupsJustified(trace, x, pass, second)
      ensures stop.None? ==>
        && Collected(Now(), x, Publishing, cursor, written, owners)
        && (CoverageRead(false) in trace || (CleanedUp(trace, x) && trace[|trace| - 1].graph == graph.Contents()))
    {
      hide Held, Collected, Collection, SamePass, Justified, Orphans;
      stop := None;
      if full && current {
        HistoryJustified(events, second, x, pass);
        trace := trace + [CleanupStarted(x.snapshot)];
        stop := CleanupOrFail(x, cursor, written, owners);
        if stop.Some? { return; }
        CleanupFinishedHere(trace, graph.Contents(), second, x, pass);
        trace := trace + [CleanupFinished(graph.Contents())];
      } else {
        assert trace[0] == CoverageRead(full) && trace[|trace| - 1] == CoverageRead(current);
      }
    }

    /** From a matched second pass to completion. Cleanup runs only here, only in publishing, and only
        when coverage was full at both readings. */
    method Publish(x: Session, full: bool, ghost cursor: Cursor, ghost pass: seq<EntityRecord>,
                   ghost second: seq<EntityRecord>, ghost events: seq<Event>)
      returns (outcome: Outcome)
      requires Held(Now(), x) && !HasSucceeded(Now(), x) && clock >= x.snapshot && settled == None
      requires Collected(Now(), x, Validating, cursor, RecordsIn(pass), Ownerships(x, pass))
      requires PassSoFar(x, pass, cursor) && cursor.total == |pass|
      requires PassOrdered(second, x.entity) && SamePass(pass, second)
      requires NoCleanup(events) && Collection(events, x, pass)
      requires trace == BeforePublishing(full, events, second)
      modifies runs, graph, this`context, this`clock, this`trace, this`settled
      ensures Held(Now(), x)
      ensures CleanupsJustified(trace, x, pass, second)
      ensures HasSucceeded(Now(), x) ==>
                settled.Some? && Success(settled.value, x, pass, second) && Tidied(trace, x, settled.value.graph)
      ensures outcome == Done ==> settled == Some(Now())
      ensures Ended(Now(), x, outcome, context.leaseLost)
    {
      hide Held, SysInv, Success, PassSoFar, SamePass, Collection, Collected, OrphansAreNew;
      ghost var written, owners := RecordsIn(pass), Ownerships(x, pass);
      var stop, current := EnterPublishing(x, full, cursor, written, owners, second, events);
      if stop.Some? {
        return stop.value;
      }
      stop := CleanupIfCovered(x, full, current, cursor, written, owners, pass, second, events);
      if stop.Some? { return stop.value; }
      if context.leaseLost { return LeaseLost; }
      outcome := CompleteOrFail(x, cursor, pass, second);
    }

    // ----- the whole run -----

    // Everything before the checkpoint: is the run wanted, is its source this worker's to collect, what of,
    // and how much.
    method Prepare(start: Session, source: Source)
      returns (stop: Option<Outcome>, x: Session, code: string, full: bool)
      requires Held(Now(), start) && Untouched(Now(), start) && !HasSucceeded(Now(), start)
      modifies runs, graph, this`context, this`clock, this`trace
      ensures Held(Now(), x) && !HasSucceeded(Now(), x) && clock >= old(clock)
                && Stopped(Now(), x, stop, context.leaseLost)
      ensures x == start.(entity := x.entity, key := x.key) && x.key.sourceId == start.key.sourceId
      ensures stop.Some? ==> trace == old(trace) || exists read :: trace == old(trace) + [CoverageRead(read)]
      ensures old(ToStop(start)) ==> stop.Some? && trace == old(trace)
      ensures stop.None? ==>
        && source.adapterKind == ADAPTER_KIND && Untouched(Now(), x)
        && ResourceFor(x.entity) == Some(x.key.resource)
        && code == (if x.entity == Device then DEVICE_COLLECTION else ENTITY_COLLECTION)
        && trace == old(trace) + [CoverageRead(full)]
    {
      hide SysInv, Collected;
      stop, x, code, full := None, start, ENTITY_COLLECTION, false;
      ghost var first := Now();
      stop := Admit(start, source);
      if stop.Some? { return; }
      ghost var middle := Now();
      var coverage := ReadCoverage(start);
      SinceTransitive(first, middle, Now(), start);
      var entity: EntityType := *;
      var resource := ResourceFor(entity);
      if resource.None? || coverage.None? {
        var outcome := FailOrCancel(start, Running, SOURCE_VALIDATION);
        stop := Some(outcome);
        return;
      }
      x := start.(entity := entity, key := Key(start.key.sourceId, resource.value));
      if entity == Device { code := DEVICE_COLLECTION; }
      full := coverage.value;
    }

    method Admit(start: Session, source: Source) returns (stop: Option<Outcome>)
      requires Held(Now(), start) && !HasSucceeded(Now(), start)
      modifies runs, graph, this`context, this`clock
      ensures Held(Now(), start) && !HasSucceeded(Now(), start) && clock >= old(clock)
                && Stopped(Now(), start, stop, context.leaseLost)
      ensures stop.None? ==> source.adapterKind == ADAPTER_KIND && Since(old(Now()), Now(), start)
      ensures old(ToStop(start)) ==> stop.Some?
    {
      ghost var first := Now();
      stop := None;
      var check := CancellationRequested(start);
      if check != Continue {
        var outcome := Stop(start, check, Running);
        return Some(outcome);
      }
      if source.adapterKind != ADAPTER_KIND {
        var outcome := FailRun(start, Running, Some(start.snapshot), SOURCE_VALIDATION);
        return Some(outcome);
      }
      ghost var middle := Now();
      var valid := Ask(start);
      SinceTransitive(first, middle, Now(), start);
      if valid.None? {
        var outcome := FailOrCancel(start, Running, SOURCE_VALIDATION);
        return Some(outcome);
      }
    }

    method Begin(x: Session, code: string) returns (stop: Option<Outcome>, cursor: Cursor)
      requires Held(Now(), x) && !HasSucceeded(Now(), x) && Untouched(Now(), x)
      requires ResourceFor(x.entity) == Some(x.key.resource)
      modifies runs, graph, this`context, this`clock
      ensures Held(Now(), x) && !HasSucceeded(Now(), x) && clock >= old(clock)
                && Stopped(Now(), x, stop, context.leaseLost)
      ensures stop.None? ==> cursor == FreshCursor(x.runId, x.snapshot) && CollectState(Now(), x, cursor, [])
    {
      hide SysInv, Covers, Shows, Keeps, Answers.BeginAnswer;
      stop, cursor := None, FreshCursor(x.runId, x.snapshot);
      Interfere(x);
      ghost var before := Now();
      var r := runs.BeginCheckpoint(x.key, x.runId, x.snapshot, clock);
      OwnBegin(before, x, clock);
      ghost var spec := Control.Begin(before.store, x.key, x.runId, x.snapshot, clock);
      assert Now() == before || Now() == before.(store := spec.0);
      if r.Err? {
        var outcome := FailOrCancel(x, Running, CHECKPOINT_FAILED);
        return Some(outcome), cursor;
      }
      cursor := r.value;
      if x.entity == Interface {
        var opening := Ask(x);
        if opening.None? {
          var outcome := FailOrCancel(x, Running, code);
          return Some(outcome), cursor;
        }
      }
      assert RecordsIn([]) == {} && Ownerships(x, []) == {};
    }

    // From a complete first pass to a matched second one.
    method Validate(x: Session, code: string, cursor: Cursor, digest: seq<byte>, ghost written: set<EntityRecord>,
          ghost owners: set<RelationIdentity>)
      returns (stop: Option<Outcome>, ghost second: seq<EntityRecord>, ghost added: seq<Event>)
      requires Held(Now(), x) && !HasSucceeded(Now(), x) && Collected(Now(), x, Running, cursor, written, owners)
      modifies runs, graph, this`context, this`clock, this`trace
      ensures Held(Now(), x) && !HasSucceeded(Now(), x) && clock >= old(clock)
                && Stopped(Now(), x, stop, context.leaseLost)
      ensures trace == old(trace) + added && NoCleanup(added)
      ensures stop.None? ==>
        && Collected(Now(), x, Validating, cursor, written, owners)
        && added == [Reached(Validating), SecondPassRead(second)]
        && |second| == cursor.total && Stream(second) == digest && PassOrdered(second, x.entity)
      ensures old(ToStop(x)) ==> stop.Some? && added == []
    {
      hide SysInv, Collected;
      stop, second, added := None, [], [];
      stop := MoveToValidating(x, cursor, written, owners);
      if stop.Some? { return; }
      added := [Reached(Validating)];
      trace := trace + added;
      var v;
      v, second := ValidateEntitySnapshot(x, cursor.total, digest);
      if v == ValidationLost {
        stop := Some(LeaseLost);
      } else if v == ValidationCanceled {
        var outcome := CancelRun(x, Validating, None);
        stop := Some(outcome);
      } else if v == Mismatch {
        var outcome := FailOrCancel(x, Validating, code);
        stop := Some(outcome);
      } else {
        added := added + [SecondPassRead(second)];
        trace := trace + [SecondPassRead(second)];
      }
    }

    method MoveToValidating(x: Session, ghost cursor: Cursor, ghost written: set<EntityRecord>,
          ghost owners: set<RelationIdentity>)
      returns (stop: Option<Outcome>)
      requires Held(Now(), x) && !HasSucceeded(Now(), x) && Collected(Now(), x, Running, cursor, written, owners)
      modifies runs, graph, this`context, this`clock
      ensures Held(Now(), x) && !HasSucceeded(Now(), x) && clock >= old(clock)
                && Stopped(Now(), x, stop, context.leaseLost)
      ensures stop.None? ==> Collected(Now(), x, Validating, cursor, written, owners)
      ensures old(ToStop(x)) ==> stop.Some?
    {
      var check := CancellationRequested(x);
      if check != Continue {
        var outcome := Stop(x, check, Running);
        return Some(outcome);
      }
      var moved := Transition(x, Running, Validating, None, "");
      if !moved {
        var outcome := FailOrCancel(x, Running, CHECKPOINT_FAILED);
        return Some(outcome);
      }
      stop := None;
    }

    /** One claimed run, from its first check to its end. Whatever interrupts it, cleanup is justified by
        everything before it; and if the run succeeded, the graph, the checkpoint and the two passes agree. */
    method ExecuteClaimed(start: Session, source: Source)
      returns (outcome: Outcome, ghost x: Session, ghost pass: seq<EntityRecord>, ghost second: seq<EntityRecord>)
      requires Held(Now(), start) && HasLease(Now(), start) && Untouched(Now(), start)
      requires clock >= start.snapshot && trace == [] && settled == None && start.schemas == graph.schemas
      modifies runs, graph, this
      ensures x == start.(entity := x.entity, key := x.key) && x.key.sourceId == start.key.sourceId
      ensures Held(Now(), x)
      ensures CleanupsJustified(trace, x, pass, second)
      ensures HasSucceeded(Now(), x) ==>
        && source.adapterKind == ADAPTER_KIND && settled.Some?
        && Success(settled.value, x, pass, second) && Tidied(trace, x, settled.value.graph)
        && PassStored(settled.value.graph, x, pass) && x.schemas == graph.schemas
      ensures outcome == Done ==> settled == Some(Now())
      ensures Ended(Now(), x, outcome, context.leaseLost)
      ensures old(ToStop(start)) ==> outcome != Done && trace == []
    {
      hide SysInv, Untouched, Success, Tidied;
      pass, second := [], [];
      var stop, session, code, full := Prepare(start, source);
      x := session;
      if stop.Some? {
        return stop.value, x, pass, second;
      }
      outcome, pass, second := CollectAndPublish(session, code, full);
      if HasSucceeded(Now(), x) { SuccessStores(settled.value, x, pass, second); }
    }

    method CollectAndPublish(x: Session, code: string, full: bool)
      returns (outcome: Outcome, ghost pass: seq<EntityRecord>, ghost second: seq<EntityRecord>)
      requires Held(Now(), x) && !HasSucceeded(Now(), x) && Untouched(Now(), x)
      requires ResourceFor(x.entity) == Some(x.key.resource)
      requires clock >= x.snapshot && trace == [CoverageRead(full)] && settled == None && x.schemas == graph.schemas
      modifies runs, graph, this
      ensures Held(Now(), x)
      ensures CleanupsJustified(trace, x, pass, second)
      ensures HasSucceeded(Now(), x) ==>
                settled.Some? && Success(settled.value, x, pass, second) && Tidied(trace, x, settled.value.graph)
      ensures outcome == Done ==> settled == Some(Now())
      ensures Ended(Now(), x, outcome, context.leaseLost)
    {
      hide Held, Untouched, Success, Tidied, Collected, Collection, PassSoFar;
      pass, second := [], [];
      var stop, first := Begin(x, code);
      if stop.Some? {
        return stop.value, pass, second;
      }
      var cursor, digest;
      ghost var events;
      stop, cursor, digest, pass, events := CollectPass(x, code, first);
      if stop.Some? {
        return stop.value, pass, second;
      }
      ghost var added;
      stop, second, added := Validate(x, code, cursor, digest, RecordsIn(pass), Ownerships(x, pass));
      if stop.Some? {
        return stop.value, pass, second;
      }
      outcome := Publish(x, full, cursor, pass, second, events);
    }

    /** The run under its heartbeat, which may still fail as the run ends: an error is then reported as the
        loss of the lease, while a run that succeeded or was canceled is reported as that. */
    method ExecuteWithLease(start: Session, source: Source)
      returns (outcome: Outcome, ghost x: Session, ghost pass: seq<EntityRecord>, ghost second: seq<EntityRecord>)
      requires Held(Now(), start) && HasLease(Now(), start) && Untouched(Now(), start)
      requires clock >= start.snapshot && trace == [] && settled == None && start.schemas == graph.schemas
      modifies runs, graph, this
      ensures x == start.(entity := x.entity, key := x.key) && x.key.sourceId == start.key.sourceId
      ensures Held(Now(), x)
      ensures CleanupsJustified(trace, x, pass, second)
      ensures HasSucceeded(Now(), x) ==>
        && source.adapterKind == ADAPTER_KIND && settled.Some?
        && Success(settled.value, x, pass, second) && Tidied(trace, x, settled.value.graph)
        && PassStored(settled.value.graph, x, pass) && x.schemas == graph.schemas
      ensures outcome == Done ==> settled == Some(Now())
      ensures Ended(Now(), x, outcome, context.leaseLost || context.heartbeatFailed)
      ensures context.heartbeatFailed ==> outcome == Done || outcome == CanceledRun || outcome == LeaseLost
      ensures old(context.callerDone || Asked(Now(), start)) ==> outcome != Done && trace == []
    {
      hide SysInv, Untouched, Success, Tidied;
      context := Context(context.callerDone, context.callerDone, false, false);
      outcome, x, pass, second := ExecuteClaimed(start, source);
      var late: bool := *;
      context := context.(heartbeatFailed := context.heartbeatFailed || late);
      if outcome != Done && outcome != CanceledRun && context.heartbeatFailed { outcome := LeaseLost; }
    }

    // Claims the next waiting run, which starts its session.
    method ClaimSession() returns (start: Option<Session>, source: Source)
      requires SysInv(Now()) && ClockAhead(Now().store, clock)
      modifies runs
      ensures SysInv(Now())
      ensures start.Some? ==>
        && Held(Now(), start.value) && HasLease(Now(), start.value) && Untouched(Now(), start.value)
        && start.value.snapshot == clock && start.value.schemas == graph.schemas
    {
      hide SysInv, Untouched, Held, ClaimFresh, Control.Claim;
      source := Source("", "", false);
      ghost var before := Now();
      var claimed := runs.ClaimNext(clock, None);
      ghost var pick :| var spec := Control.Claim(before.store, clock, None, pick);
        || (claimed == spec.1 && runs.Contents() == spec.0)
        || (claimed == Err(Database) && (runs.Contents() == before.store || runs.Contents() == spec.0));
      AheadIsFresh(before.store, clock, pick);
      ControlStepKeepsSysInv(before, ClaimStep(clock, None, pick));
      assert Now() == before || Now() == before.(store := Control.Claim(before.store, clock, None, pick).0);
      if claimed.Err? { return None, source; }
      ClaimEffect(before.store, clock, pick);
      var sourceId := runs.runs[claimed.value].sourceId;
      start := Some(Session(claimed.value, Key(sourceId, ""), Device, clock, graph.schemas));
      ClaimStartsSession(before, clock, None, pick, start.value);
      source := runs.sources[sourceId];
    }

    /** Claims the next waiting run and executes it. The clock being ahead of every earlier claim is the
        one assumption made about time. */
    method ProcessNext()
      returns (outcome: Option<Outcome>, ghost x: Session, ghost pass: seq<EntityRecord>,
            ghost second: seq<EntityRecord>)
      requires SysInv(Now()) && ClockAhead(Now().store, clock) && trace == [] && settled == None
      modifies runs, graph, this
      ensures SysInv(Now())
      ensures outcome.Some? ==>
        && Held(Now(), x)
        && CleanupsJustified(trace, x, pass, second)
        && (HasSucceeded(Now(), x) ==>
              && settled.Some? && Success(settled.value, x, pass, second) && Tidied(trace, x, settled.value.graph)
              && PassStored(settled.value.graph, x, pass) && x.schemas == graph.schemas)
        && (outcome.value == Done ==> settled == Some(Now()))
        && Ended(Now(), x, outcome.value, context.leaseLost || context.heartbeatFailed)
        && (context.heartbeatFailed ==>
             outcome.value == Done || outcome.value == CanceledRun || outcome.value == LeaseLost)
      ensures outcome.None? ==> trace == [] && settled == None
    {
      hide SysInv, Success, Tidied, Untouched;
      outcome, x, pass, second := None, Session("", Key("", ""), Device, clock, graph.schemas), [], [];
      if context.callerDone { return; }
      var start, source := ClaimSession();
      if start.None? { return; }
      var ended;
      ended, x, pass, second := ExecuteWithLease(start.value, source);
      outcome := Some(ended);
    }
  }

  // Of the records of a pass and a page that are all told apart by identity, one is new to those written.
  lemma NewInPage(pass: seq<EntityRecord>, done: seq<EntityRecord>, records: seq<EntityRecord>, record: EntityRecord)
    requires DistinctIdentities(pass + records) && record in records && forall r :: r in done ==> r in records
    ensures NewTo(record, RecordsIn(pass + done))
  {
    var all := pass + records;
    forall r | r in pass + done && r.identity == record.identity ensures r == record {
      assert r in all && record in all;
      var i :| 0 <= i < |all| && all[i] == r;
      var j :| 0 <= j < |all| && all[j] == record;
    }
  }

  // Written in another order, a page still leaves the same records and edges.
  lemma SameRecordsSameSets(x: Session, pass: seq<EntityRecord>, done: seq<EntityRecord>, records: seq<EntityRecord>)
    requires forall r :: r in done <==> r in records
    ensures RecordsIn(pass + done) == RecordsIn(pass + records)
    ensures Ownerships(x, pass + done) == Ownerships(x, pass + records)
  {
    RecordsInSum(pass, done);
    RecordsInSum(pass, records);
    OwnershipsOfSum(x, pass, done);
    OwnershipsOfSum(x, pass, records);
    SameRecordsInclude(x, done, records);
    SameRecordsInclude(x, records, done);
  }

  lemma SameRecordsInclude(x: Session, a: seq<EntityRecord>, b: seq<EntityRecord>)
    requires forall r | r in a :: r in b
    ensures RecordsIn(a) <= RecordsIn(b) && Ownerships(x, a) <= Ownerships(x, b)
  {
    forall i | 0 <= i < |a| ensures x.entity == Interface ==> OwnershipOf(x, a[i]) in Ownerships(x, b) {
      assert a[i] in b;
      var j :| 0 <= j < |b| && b[j] == a[i];
    }
  }
}
