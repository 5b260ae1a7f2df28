/**
 A claimed server uplink run from its first check to its end, and the independent check of what it leaves.
 The surroundings of the run (clock, context, heartbeat, tables, graph, all other actors) are those of the
 sync worker, and so are its transactions. Its own edges are the only ones that ever carry its snapshot; the
 graph is read back before the run may publish, and may be read again at any later moment.
 */
module UplinkRun {
  import opened Base
  import opened Control
  import opened ControlInvariants
  import opened Graph
  import opened System
  import opened Session
  import opened AfterRun
  import opened Worker
  import opened UplinkReading
  import TorPorts
  import UplinkScan
  import UplinkWorker

  type Fetch = UplinkWorker.Fetch

  type Links = seq<UplinkWorker.Candidate>

  const UPLINK_FAILED := "server_uplink_failed"

  // ----- the verdict on rows and graph -----

  predicate RowsAgree(sourceId: string, runId: string, run: SyncRun, checkpoint: Checkpoint) {
    && run.sourceId == sourceId && run.status == Succeeded
    && run.startedAt.Some? && run.finishedAt.Some? && run.leaseExpiresAt.None?
    && run.finishedAt.value >= run.startedAt.value
    && checkpoint.complete && checkpoint.completedAt.Some? && checkpoint.completedAt.value >= run.startedAt.value
    && checkpoint.completedAt == run.finishedAt
    && checkpoint.cursor.version == CURSOR_VERSION && checkpoint.cursor.runId == runId
    && checkpoint.cursor.snapshotAt == run.startedAt.value
    && checkpoint.cursor.total >= 0 && checkpoint.cursor.nextOffset == checkpoint.cursor.total
  }

  predicate GraphAgrees(checkpoint: Checkpoint, graph: GraphReport) {
    && graph.current == checkpoint.cursor.total && graph.validEndpointCount == checkpoint.cursor.total
    && graph.total >= graph.current
  }

  /** The run succeeded and gave up its lease, its checkpoint was completed with it at the end of its own cursor, and
      the graph counts what the cursor counts. */
  ghost predicate RowsStand(sourceId: string, runId: string, run: SyncRun, checkpoint: Checkpoint) {
    && run.sourceId == sourceId && run.status == Succeeded && run.leaseExpiresAt == None
    && run.startedAt == Some(checkpoint.cursor.snapshotAt)
    && (exists at :: run.finishedAt == Some(at) && at >= checkpoint.cursor.snapshotAt)
    && checkpoint.complete && checkpoint.completedAt == run.finishedAt
    && checkpoint.cursor.version == 1 && checkpoint.cursor.runId == runId
    && checkpoint.cursor.nextOffset == checkpoint.cursor.total >= 0
  }

  lemma RowsMean(sourceId: string, runId: string, run: SyncRun, checkpoint: Checkpoint)
    ensures RowsAgree(sourceId, runId, run, checkpoint) <==> RowsStand(sourceId, runId, run, checkpoint)
  {
  }

  class UplinkReport {
    const sourceId: string
    const runId: string
    const run: Option<SyncRun>
    const checkpoint: Option<Checkpoint>
    const graph: Option<GraphReport>
    var status: string
    var topologyPresent: bool

    constructor (sourceId: string, runId: string, run: Option<SyncRun>, checkpoint: Option<Checkpoint>,
          graph: Option<GraphReport>)
      ensures this.sourceId == sourceId && this.runId == runId
      ensures this.run == run && this.checkpoint == checkpoint && this.graph == graph
    {
      this.sourceId, this.runId, this.run, this.checkpoint, this.graph := sourceId, runId, run, checkpoint, graph;
      status, topologyPresent := "preflight", false;
    }

    ghost predicate Passes() {
      && run.Some? && checkpoint.Some? && graph.Some?
      && RowsStand(sourceId, runId, run.value, checkpoint.value)
      && graph.value.current == graph.value.validEndpointCount == checkpoint.value.cursor.total <= graph.value.total
    }

    method Validate() returns (ok: bool)
      modifies this
      ensures ok <==> Passes()
      ensures ok ==> status == "PASS" && topologyPresent == (graph.value.current > 0)
      ensures !ok ==> status == old(status) && topologyPresent == old(topologyPresent)
    {
      if run.None? || checkpoint.None? || graph.None? { return false; }
      RowsMean(sourceId, runId, run.value, checkpoint.value);
      if !RowsAgree(sourceId, runId, run.value, checkpoint.value) || !GraphAgrees(checkpoint.value, graph.value) {
        return false;
      }
      status := "PASS";
      topologyPresent := graph.value.current > 0;
      ok := true;
    }
  }

  // ----- what a run leaves -----

  function EdgeCursor(x: Session, edges: nat): Cursor {
    Cursor(CURSOR_VERSION, x.runId, edges, 0, 0, x.snapshot, edges)
  }

  // The checkpoint stands at this number of edges.
  ghost predicate AtEdges(sys: Sys, x: Session, status: Status, edges: nat) {
    Collected(sys, x, status, EdgeCursor(x, edges), {}, {})
  }

  // Nothing but these edges carries the run's snapshot.
  ghost predicate Wrote(sys: Sys, x: Session, written: set<RelationIdentity>) {
    HasLease(sys, x) ==> OwnEdges(sys, x).Keys == written
  }

  ghost predicate AllUplinks(written: set<RelationIdentity>) {
    forall e | e in written :: e.kind == ServerUplink
  }

  // The graph as it was read back held exactly the run's edges, and nothing of it has been lost since.
  ghost predicate ReadFrom(readBack: Graph, g: Graph, x: Session, written: set<RelationIdentity>) {
    && GraphPasses(readBack, x.key.sourceId, x.snapshot, |written|)
    && StampedEdges(readBack, x.key.sourceId, x.snapshot).Keys == written
    && StampedEdges(g, x.key.sourceId, x.snapshot) == StampedEdges(readBack, x.key.sourceId, x.snapshot)
    && Keeps(readBack, g)
  }

  // Row, checkpoint and graph of a run that has just succeeded with these edges.
  ghost predicate UplinkFinished(sys: Sys, x: Session, readBack: Graph, written: set<RelationIdentity>) {
    && Held(sys, x) && HasSucceeded(sys, x) && x.key in sys.store.checkpoints && x.key.resource == UPLINK_RESOURCE
    && sys.store.runs[x.runId].finishedAt.Some? && sys.store.runs[x.runId].finishedAt.value >= x.snapshot
    && sys.store.checkpoints[x.key].complete
    && sys.store.checkpoints[x.key].cursor == Cursor(1, x.runId, |written|, 0, 0, x.snapshot, |written|)
    && sys.store.checkpoints[x.key].completedAt == sys.store.runs[x.runId].finishedAt
    && AllUplinks(written) && ReadFrom(readBack, sys.graph, x, written)
  }

  ghost predicate ReadBackKept(sys: Sys, x: Session, readBack: Graph, written: set<RelationIdentity>) {
    HasLease(sys, x) ==> ReadFrom(readBack, sys.graph, x, written)
  }

  lemma ReadBackStays(a: Sys, b: Sys, x: Session, readBack: Graph, written: set<RelationIdentity>)
    requires ReadBackKept(a, x, readBack, written)
    requires HasLease(b, x) ==> HasLease(a, x) && OwnEdges(b, x) == OwnEdges(a, x)
    requires Keeps(a.graph, b.graph)
    ensures ReadBackKept(b, x, readBack, written)
  {
    hide GraphPasses, Keeps, StampedEdges;
    if HasLease(b, x) { KeepsTransitive(readBack, a.graph, b.graph); }
  }

  // ----- the steps of a run -----

  // Asks whether to go on. The heartbeat may have ended the lease context without losing the lease.
  method CheckCancel(w: SyncWorker, x: Session) returns (ok: bool)
    requires Held(w.Now(), x)
    modifies w.runs, w.graph, w`context, w`clock
    ensures Since(old(w.Now()), w.Now(), x) && w.clock >= old(w.clock)
    ensures ok ==> !w.context.done && !w.context.leaseLost && !Asked(w.Now(), x)
    ensures old(w.ToStop(x)) ==> !ok
  {
    var dropped: bool := *;
    w.context := w.context.(done := w.context.done || dropped);
    var check := w.CancellationRequested(x);
    ok := check == Continue;
  }

  /** The end of a run that did not succeed. Only the caller's own context, or a request read from the row,
      makes it canceled; a lease context ended by the heartbeat does not. */
  method FinishFailed(w: SyncWorker, x: Session, from: Status) returns (ended: Option<Status>, requested: bool)
    requires Held(w.Now(), x)
    modifies w.runs, w.graph, w`context, w`clock
    ensures Held(w.Now(), x) && w.clock >= old(w.clock)
    ensures HasSucceeded(w.Now(), x) ==> old(HasSucceeded(w.Now(), x))
    ensures ended.Some? ==> ended.value == Failed || ended.value == Canceled
    ensures ended == Some(Canceled) ==> w.context.callerDone || requested
    ensures ended == Some(Failed) ==> !old(w.context.callerDone) && !requested
    ensures ended == Some(Failed) ==> Ended(w.Now(), x, FailedRun(UPLINK_FAILED), false)
    ensures ended == Some(Canceled) ==> Ended(w.Now(), x, CanceledRun, false)
    ensures ended.Some? ==> EndedAt(w.Now(), x, w.clock)
  {
    hide SysInv, Collected, Keeps, OwnEdges, LeasedFrom, Untouched, Asked;
    w.Interfere(x);
    var terminal, code := Failed, UPLINK_FAILED;
    if w.context.callerDone { terminal, code := Canceled, ""; }
    var answer := w.runs.RunCancellationRequested(x.runId);
    requested := answer == Ok(true);
    if requested { terminal, code := Canceled, ""; }
    var moved := w.Transition(x, from, terminal, None, code);
    ended := if moved then Some(terminal) else None;
  }

  // The checkpoint, freshly begun.
  method Begin(w: SyncWorker, x: Session) returns (ok: bool)
    requires Held(w.Now(), x) && !HasSucceeded(w.Now(), x) && Untouched(w.Now(), x)
    modifies w.runs, w.graph, w`context, w`clock
    ensures Held(w.Now(), x) && !HasSucceeded(w.Now(), x) && w.clock >= old(w.clock)
    ensures ok ==> AtEdges(w.Now(), x, Running, 0) && Wrote(w.Now(), x, {})
  {
    w.Interfere(x);
    ghost var before := w.Now();
    var r := w.runs.BeginCheckpoint(x.key, x.runId, x.snapshot, w.clock);
    OwnBegin(before, x, w.clock);
    ghost var spec := Control.Begin(before.store, x.key, x.runId, x.snapshot, w.clock);
    assert w.Now() == before || w.Now() == before.(store := spec.0);
    ok := r.Ok?;
    if ok { BeginNeedsLease(before.store, x, w.clock); }
  }

  lemma BeginNeedsLease(s: Store, x: Session, at: Time)
    requires Control.Begin(s, x.key, x.runId, x.snapshot, at).1.Ok?
    ensures x.runId in s.runs && Leased(s.runs[x.runId].status)
  {
  }

  // ----- the worker -----

  // An endpoint, read unless it was read before; what was read before may have changed since.
  method Exists(w: SyncWorker, x: Session, endpoint: Identity, existing: map<Identity, bool>)
    returns (answer: Option<bool>, now: map<Identity, bool>)
    requires Held(w.Now(), x)
    modifies w.runs, w.graph, w`context, w`clock
    ensures Since(old(w.Now()), w.Now(), x) && w.clock >= old(w.clock)
    ensures answer.Some? && endpoint !in existing ==> answer.value == (endpoint in w.graph.vertices)
    ensures answer.Some? && endpoint in existing ==> answer.value == existing[endpoint]
  {
    now := existing;
    w.Interfere(x);
    if endpoint !in existing {
      var read := w.graph.VertexExists(endpoint);
      if read.Err? { return None, now; }
      now := now[endpoint := read.value];
    }
    answer := Some(now[endpoint]);
  }

  // Whether a candidate may be written: what counts is that its ownership held when it was read.
  method CheckCandidate(w: SyncWorker, x: Session, c: UplinkWorker.Candidate, existing: map<Identity, bool>)
    returns (usable: Option<bool>, now: map<Identity, bool>)
    requires Held(w.Now(), x)
    modifies w.runs, w.graph, w`context, w`clock
    ensures Since(old(w.Now()), w.Now(), x) && w.clock >= old(w.clock)
    ensures usable == Some(true) ==> OwnershipHolds(w.graph.Contents(), x, c)
  {
    hide Since, OwnershipHolds;
    ghost var a := w.Now();
    var from, to, tor;
    from, now := Exists(w, x, c.identity.from, existing);
    ghost var b := w.Now();
    HeldSince(a, b, x);
    if from.None? { return None, now; }
    to, now := Exists(w, x, c.identity.to, now);
    SinceTransitive(a, b, w.Now(), x);
    b := w.Now();
    HeldSince(a, b, x);
    if to.None? { return None, now; }
    tor, now := Exists(w, x, UplinkWorker.TorOf(x.key.sourceId, c.tor), now);
    SinceTransitive(a, b, w.Now(), x);
    b := w.Now();
    HeldSince(a, b, x);
    if tor.None? { return None, now; }
    if !(from.value && to.value && tor.value) { return Some(false), now; }
    usable := ReadOwnership(w, x, c);
    SinceTransitive(a, b, w.Now(), x);
  }

  lemma HeldSince(a: Sys, b: Sys, x: Session)
    requires Since(a, b, x)
    ensures Held(b, x)
  {
  }

  ghost predicate OwnershipHolds(g: Graph, x: Session, c: UplinkWorker.Candidate) {
    UplinkWorker.EndpointsValid(g, c.identity.from, UplinkWorker.TorOf(x.key.sourceId, c.tor), c.identity.to)
  }

  method ReadOwnership(w: SyncWorker, x: Session, c: UplinkWorker.Candidate) returns (answer: Option<bool>)
    requires Held(w.Now(), x)
    modifies w.runs, w.graph, w`context, w`clock
    ensures Since(old(w.Now()), w.Now(), x) && w.clock >= old(w.clock)
    ensures answer == Some(true) ==> OwnershipHolds(w.graph.Contents(), x, c)
  {
    hide UplinkWorker.EndpointsValid;
    w.Interfere(x);
    var reader := new UplinkWorker.ServerUplinkWorker(w.graph);
    answer := reader.ReadEndpoints(c.identity.from, UplinkWorker.TorOf(x.key.sourceId, c.tor), c.identity.to);
  }

  // The ownership edge from the switch the source named to the link's port.
  function TorEdge(x: Session, c: UplinkWorker.Candidate): RelationIdentity {
    RelationIdentity(x.key.sourceId, OwnsInterface, UplinkWorker.TorOf(x.key.sourceId, c.tor), c.identity.to)
  }

  ghost predicate Tied(g: Graph, x: Session, c: UplinkWorker.Candidate) {
    TorEdge(x, c) in g.edges && TorEdge(x, c).from in g.vertices
  }

  // An edge for a link the source gave, whose port the graph ties to the switch the source named.
  ghost predicate Sourced(g: Graph, x: Session, e: RelationIdentity, links: Links) {
    exists c | c in links :: c.identity == e && Tied(g, x, c)
  }

  ghost predicate AllSourced(g: Graph, x: Session, edges: set<RelationIdentity>, links: Links) {
    forall e | e in edges :: Sourced(g, x, e, links)
  }

  lemma OwnershipTies(g: Graph, x: Session, c: UplinkWorker.Candidate)
    requires OwnershipHolds(g, x, c) && c.identity.from.sourceId == x.key.sourceId
    ensures Tied(g, x, c)
  {
  }

  lemma SourcedStays(a: Graph, b: Graph, x: Session, edges: set<RelationIdentity>, links: Links)
    requires AllSourced(a, x, edges, links) && Keeps(a, b)
    ensures AllSourced(b, x, edges, links)
  {
    forall e | e in edges ensures Sourced(b, x, e, links) {
      assert Sourced(a, x, e, links);
      var c :| c in links && c.identity == e && Tied(a, x, c);
      assert Incident(a, TorEdge(x, c).from);
      assert Tied(b, x, c);
    }
  }

  lemma SourcedByMore(g: Graph, x: Session, edges: set<RelationIdentity>, some: Links, more: Links)
    requires AllSourced(g, x, edges, some) && forall c | c in some :: c in more
    ensures AllSourced(g, x, edges, more)
  {
    forall e | e in edges ensures Sourced(g, x, e, more) { assert Sourced(g, x, e, some); }
  }

  ghost predicate AllDiffer(candidates: Links) {
    forall i, j | 0 <= i < j < |candidates| :: candidates[i].identity != candidates[j].identity
  }

  function SetOf(edges: seq<RelationIdentity>): set<RelationIdentity> {
    set e | e in edges
  }

  // The usable ones of the first candidates, each once.
  ghost predicate Chosen(g: Graph, x: Session, valid: seq<RelationIdentity>, candidates: Links) {
    |SetOf(valid)| == |valid| && AllSourced(g, x, SetOf(valid), candidates)
  }

  lemma ChosenGrows(g: Graph, x: Session, valid: seq<RelationIdentity>, candidates: Links, i: nat)
    requires i < |candidates| && AllDiffer(candidates) && Chosen(g, x, valid, candidates[..i])
              && Tied(g, x, candidates[i])
    ensures Chosen(g, x, valid + [candidates[i].identity], candidates[..i + 1])
  {
    var e, front, now := candidates[i].identity, candidates[..i], candidates[..i + 1];
    assert !Sourced(g, x, e, front);
    assert SetOf(valid + [e]) == SetOf(valid) + {e};
    assert now == front + [candidates[i]];
    SourcedByMore(g, x, SetOf(valid), front, now);
    assert candidates[i] in now && Sourced(g, x, e, now);
  }

  // Every candidate is checked before anything is written.
  method CheckAll(w: SyncWorker, x: Session, candidates: Links)
    returns (ok: bool, valid: seq<RelationIdentity>, missing: nat)
    requires Held(w.Now(), x) && AllDiffer(candidates)
    requires forall c | c in candidates :: c.identity.from.sourceId == x.key.sourceId
    modifies w.runs, w.graph, w`context, w`clock
    ensures Since(old(w.Now()), w.Now(), x) && w.clock >= old(w.clock)
    ensures ok ==> Chosen(w.graph.Contents(), x, valid, candidates) && |valid| + missing == |candidates|
  {
    hide AllDiffer, Chosen, Tied, OwnershipHolds;
    ghost var start := w.Now();
    var existing: map<Identity, bool> := map[];
    ok, valid, missing := true, [], 0;
    w.Interfere(x);
    NothingChosen(w.graph.Contents(), x, candidates);
    for i := 0 to |candidates|
      invariant ok && Since(start, w.Now(), x) && w.clock >= old(w.clock) && |valid| + missing == i
      invariant Chosen(w.graph.Contents(), x, valid, candidates[..i])
    {
      if w.context.done { return false, valid, missing; }
      ghost var before := w.Now();
      var usable;
      usable, existing := CheckCandidate(w, x, candidates[i], existing);
      SinceTransitive(start, before, w.Now(), x);
      ChosenStays(before.graph, w.graph.Contents(), x, valid, candidates, i);
      if usable.None? { return false, valid, missing; }
      if usable.value {
        OwnershipTies(w.graph.Contents(), x, candidates[i]);
        ChosenGrows(w.graph.Contents(), x, valid, candidates, i);
        valid := valid + [candidates[i].identity];
      } else {
        missing := missing + 1;
      }
    }
    assert candidates[..|candidates|] == candidates;
  }

  lemma NothingChosen(g: Graph, x: Session, candidates: Links)
    ensures Chosen(g, x, [], candidates[..0])
  {
  }

  // What was chosen stays chosen, also as one of more candidates.
  lemma ChosenStays(a: Graph, b: Graph, x: Session, valid: seq<RelationIdentity>, candidates: Links, i: nat)
    requires i < |candidates| && Chosen(a, x, valid, candidates[..i]) && Keeps(a, b)
    ensures Chosen(b, x, valid, candidates[..i]) && Chosen(b, x, valid, candidates[..i + 1])
  {
    hide Keeps, Tied;
    SourcedStays(a, b, x, SetOf(valid), candidates[..i]);
    SourcedByMore(b, x, SetOf(valid), candidates[..i], candidates[..i + 1]);
  }

  // One edge after the other; the first failure ends the run.
  method WriteAll(w: SyncWorker, x: Session, valid: seq<RelationIdentity>) returns (ok: bool, edges: nat)
    requires Held(w.Now(), x) && !HasSucceeded(w.Now(), x)
    requires AtEdges(w.Now(), x, Running, 0) && Wrote(w.Now(), x, {})
    requires forall e | e in valid :: e.sourceId == x.key.sourceId
    modifies w.runs, w.graph, w`context, w`clock
    ensures Held(w.Now(), x) && !HasSucceeded(w.Now(), x) && w.clock >= old(w.clock)
    ensures Keeps(old(w.graph.Contents()), w.graph.Contents())
    ensures ok ==> AtEdges(w.Now(), x, Running, 0) && Wrote(w.Now(), x, SetOf(valid)) && edges == |valid|
  {
    hide Keeps, Collected, SysInv;
    ghost var start, cursor, owners := w.graph.Contents(), EdgeCursor(x, 0), {};
    ok, edges := true, 0;
    KeepsItself(start);
    while edges < |valid|
      invariant ok && edges <= |valid| && Held(w.Now(), x) && !HasSucceeded(w.Now(), x) && w.clock >= old(w.clock)
      invariant Keeps(start, w.graph.Contents()) && owners == SetOf(valid[..edges])
      invariant Collected(w.Now(), x, Running, cursor, {}, owners) && Wrote(w.Now(), x, owners)
    {
      if w.context.done { return false, edges; }
      ghost var before := w.graph.Contents();
      ok := w.UpsertOwnEdge(x, valid[edges], cursor, {}, owners);
      KeepsTransitive(start, before, w.graph.Contents());
      if !ok { return; }
      assert valid[..edges + 1] == valid[..edges] + [valid[edges]];
      owners := owners + {valid[edges]};
      edges := edges + 1;
    }
    assert valid[..|valid|] == valid;
    CollectedWithFewer(w.Now(), x, Running, cursor, owners);
  }

  lemma KeepsItself(g: Graph)
    ensures Keeps(g, g)
  {
  }

  lemma CollectedWithFewer(sys: Sys, x: Session, status: Status, cursor: Cursor, owners: set<RelationIdentity>)
    requires Collected(sys, x, status, cursor, {}, owners)
    ensures Collected(sys, x, status, cursor, {}, {})
  {
  }

  // The two passes over the source read the same links, and these are they.
  ghost predicate FromBothPasses(first: Fetch, second: Fetch, links: Links) {
    exists pages, again :: SamePasses(first, second, pages, again) && links == UplinkWorker.AllPairs(pages)
  }

  ghost predicate SamePasses(first: Fetch, second: Fetch, pages: seq<UplinkScan.UplinkPage>,
        again: seq<UplinkScan.UplinkPage>) {
    && UplinkWorker.Chain(first, pages) && UplinkWorker.Chain(second, again)
    && UplinkWorker.AllPairs(again) == UplinkWorker.AllPairs(pages)
  }

  // What the worker has written: server uplinks for links of the source, nothing else with its snapshot.
  ghost predicate Written(sys: Sys, x: Session, written: set<RelationIdentity>, links: Links) {
    Wrote(sys, x, written) && AllUplinks(written) && AllSourced(sys.graph, x, written, links)
  }

  lemma WrittenStays(a: Sys, b: Sys, x: Session, written: set<RelationIdentity>, links: Links)
    requires Written(a, x, written, links) && Keeps(a.graph, b.graph)
    requires HasLease(b, x) ==> HasLease(a, x) && OwnEdges(b, x) == OwnEdges(a, x)
    ensures Written(b, x, written, links)
  {
    SourcedStays(a.graph, b.graph, x, written, links);
  }

  // The links of an accepted pass name distinct server uplinks of the source.
  lemma CandidatesSound(fetch: Fetch, x: Session, pages: seq<UplinkScan.UplinkPage>)
    requires UplinkWorker.UplinksOnly(fetch, x.key.sourceId) && UplinkWorker.Chain(fetch, pages)
    requires UplinkWorker.LinksOk(UplinkWorker.AllPairs(pages))
    ensures var candidates := Distinct(UplinkWorker.AllPairs(pages));
            && AllDiffer(candidates)
            && (forall c | c in candidates :: c.identity.sourceId == x.key.sourceId && c.identity.kind == ServerUplink
                                              && c.identity.from.sourceId == x.key.sourceId)
  {
    var links := UplinkWorker.AllPairs(pages);
    UplinkWorker.CandidatesDiffer(links);
    UplinkWorker.PairsAreUplinks(fetch, x.key.sourceId, pages);
    hide UplinkWorker.AllPairs;
    forall c | c in links ensures c.identity.from.sourceId == c.identity.sourceId {
      var k :| 0 <= k < |links| && links[k] == c;
      assert UplinkWorker.IdOk(links[k].identity);
    }
  }

  lemma ChosenSound(g: Graph, x: Session, valid: seq<RelationIdentity>, candidates: Links, links: Links)
    requires Chosen(g, x, valid, candidates) && forall c | c in candidates :: c in links
    requires forall c | c in candidates :: c.identity.sourceId == x.key.sourceId && c.identity.kind == ServerUplink
    ensures |SetOf(valid)| == |valid| && AllUplinks(SetOf(valid))
              && (forall e | e in valid :: e.sourceId == x.key.sourceId)
    ensures AllSourced(g, x, SetOf(valid), links)
  {
    SourcedByMore(g, x, SetOf(valid), candidates, links);
    forall e | e in SetOf(valid) ensures e.sourceId == x.key.sourceId && e.kind == ServerUplink {
      assert Sourced(g, x, e, candidates);
    }
    assert forall e | e in valid :: e in SetOf(valid);
  }

  // The first pass, and of its links those that may be written.
  method CollectAndCheck(w: SyncWorker, x: Session, fetch: Fetch)
    returns (ok: bool, p: UplinkWorker.Pass, valid: seq<RelationIdentity>, ghost pages: seq<UplinkScan.UplinkPage>)
    requires Held(w.Now(), x) && UplinkWorker.UplinksOnly(fetch, x.key.sourceId)
    modifies w.runs, w.graph, w`context, w`clock
    ensures Since(old(w.Now()), w.Now(), x) && w.clock >= old(w.clock)
    ensures ok ==>
      && UplinkWorker.Chain(fetch, pages) && p.digest == UplinkWorker.SumsOf(pages)
      && |SetOf(valid)| == |valid| && AllUplinks(SetOf(valid))
      && (forall e | e in valid :: e.sourceId == x.key.sourceId)
      && AllSourced(w.graph.Contents(), x, SetOf(valid), UplinkWorker.AllPairs(pages))
  {
    hide Since, UplinkWorker.Chain, UplinkWorker.AllPairs, UplinkWorker.SumsOf, UplinkWorker.LinksOk, AllDiffer, Chosen,
      AllSourced, AllUplinks, SetOf, Distinct, UplinkWorker.UplinksOnly, SysInv;
    valid := [];
    ghost var start := w.Now();
    w.Interfere(x);
    HeldSince(start, w.Now(), x);
    ghost var middle := w.Now();
    var interrupted;
    ok, p, pages, interrupted := UplinkWorker.Collect(fetch, true, TorPorts.Network(map[], map[]), [], "", 0);
    if !ok { return; }
    CandidatesSound(fetch, x, pages);
    var missing: nat;
    ok, valid, missing := CheckAll(w, x, p.candidates);
    SinceTransitive(start, middle, w.Now(), x);
    if ok { ChosenSound(w.graph.Contents(), x, valid, p.candidates, UplinkWorker.AllPairs(pages)); }
  }

  /** The worker at work: a pass over the source, every endpoint checked, the edges written, and the source
      read again. When it succeeds it has written exactly as many edges as it says, each for a link that both
      passes read, into a port tied to the switch the source named. */
  method RunWorker(w: SyncWorker, x: Session, first: Fetch, second: Fetch)
    returns (ok: bool, edges: nat, ghost written: set<RelationIdentity>, ghost links: Links)
    requires Held(w.Now(), x) && !HasSucceeded(w.Now(), x) && UplinkWorker.UplinksOnly(first, x.key.sourceId)
    requires AtEdges(w.Now(), x, Running, 0) && Wrote(w.Now(), x, {})
    modifies w.runs, w.graph, w`context, w`clock
    ensures Held(w.Now(), x) && !HasSucceeded(w.Now(), x) && w.clock >= old(w.clock)
    ensures ok ==>
      && AtEdges(w.Now(), x, Running, 0) && edges == |written|
      && Written(w.Now(), x, written, links) && FromBothPasses(first, second, links)
  {
    hide SysInv, Collected, UplinkWorker.Chain, UplinkWorker.AllPairs, UplinkWorker.SumsOf, AllSourced, Keeps,
      AllUplinks;
    ok, edges, written, links := false, 0, {}, [];
    if w.context.done { return; }
    var p, valid;
    ghost var pages;
    ok, p, valid, pages := CollectAndCheck(w, x, first);
    if !ok { return; }
    written, links := SetOf(valid), UplinkWorker.AllPairs(pages);
    ghost var before := w.Now();
    ok, edges := WriteAll(w, x, valid);
    if !ok { return; }
    SourcedStays(before.graph, w.graph.Contents(), x, written, links);
    ghost var wrote := w.Now();
    w.Interfere(x);
    WrittenStays(wrote, w.Now(), x, written, links);
    var verified, q, again, interrupted :=
      UplinkWorker.Collect(second, false, TorPorts.Network(map[], map[]), [], "", 0);
    ok := verified && q.digest == p.digest && q.total == p.total && q.skipped == p.skipped && !w.context.done;
    if ok {
      UplinkWorker.SumsGivePairs(again, pages);
      assert SamePasses(first, second, pages, again);
    }
  }

  // ----- reading the graph back -----

  /** Reads the graph back, query after query, and accepts only what adds up. */
  method ValidateGraph(w: SyncWorker, x: Session, expected: nat) returns (ok: bool)
    requires Held(w.Now(), x)
    modifies w.runs, w.graph, w`context, w`clock
    ensures Since(old(w.Now()), w.Now(), x) && w.clock >= old(w.clock)
    ensures ok && HasLease(w.Now(), x) ==> GraphPasses(w.graph.Contents(), x.key.sourceId, x.snapshot, expected)
  {
    hide Since, GraphPasses;
    ghost var start := w.Now();
    w.Interfere(x);
    ghost var first := w.Now();
    var counted := w.graph.Contents();
    HeldSince(start, first, x);
    w.Interfere(x);
    ghost var middle := w.Now();
    var listed := w.graph.Contents();
    SinceTransitive(start, first, middle, x);
    HeldSince(first, middle, x);
    w.Interfere(x);
    var joined := w.graph.Contents();
    SinceTransitive(start, middle, w.Now(), x);
    var failed: bool := *;
    if failed { return false; }
    var report := ReadGraph(counted, listed, joined, x.key.sourceId, x.snapshot, expected);
    ok := report.Some?;
    if ok && HasLease(w.Now(), x) {
      StampsSince(middle, w.Now(), x);
      QueriesInSequence(counted, listed, joined, x.key.sourceId, x.snapshot, expected);
    }
  }

  // While the run has its lease nobody else puts its snapshot on an edge; and no run starts at the zero time.
  lemma StampsSince(a: Sys, b: Sys, x: Session)
    requires Since(a, b, x) && HasLease(b, x)
    ensures StampedEdges(b.graph, x.key.sourceId, x.snapshot) == StampedEdges(a.graph, x.key.sourceId, x.snapshot)
    ensures x.snapshot != ZERO_TIME
  {
    assert RowOk(b.store.runs[x.runId]);
  }

  method Advance(w: SyncWorker, x: Session, edges: nat, ghost written: set<RelationIdentity>, ghost links: Links)
    returns (ok: bool)
    requires Held(w.Now(), x) && !HasSucceeded(w.Now(), x) && AtEdges(w.Now(), x, Running, 0)
    requires Written(w.Now(), x, written, links)
    modifies w.runs, w.graph, w`context, w`clock
    ensures Held(w.Now(), x) && !HasSucceeded(w.Now(), x) && w.clock >= old(w.clock)
    ensures ok ==> AtEdges(w.Now(), x, Running, edges) && Written(w.Now(), x, written, links)
  {
    hide Collected, Keeps, AllSourced;
    if edges == 0 { return true; }
    ghost var before := w.Now();
    ok := w.Advance(x, EdgeCursor(x, edges), EdgeCursor(x, 0), {}, {});
    WrittenStays(before, w.Now(), x, written, links);
  }

  method Move(w: SyncWorker, x: Session, from: Status, to: Status, ghost edges: nat) returns (ok: bool)
    requires Held(w.Now(), x) && !HasSucceeded(w.Now(), x) && AtEdges(w.Now(), x, from, edges)
    requires to == Validating || to == Publishing
    modifies w.runs, w.graph, w`context, w`clock
    ensures Held(w.Now(), x) && !HasSucceeded(w.Now(), x) && w.clock >= old(w.clock)
    ensures HasLease(w.Now(), x) ==> old(HasLease(w.Now(), x)) && OwnEdges(w.Now(), x) == old(OwnEdges(w.Now(), x))
    ensures Keeps(old(w.graph.Contents()), w.graph.Contents())
    ensures ok ==> AtEdges(w.Now(), x, to, edges)
  {
    hide SysInv, Collected, Keeps, OwnEdges;
    ok := w.Transition(x, from, to, None, "");
  }

  // From the first check to a checkpoint at the number of edges written, the run validating.
  method CollectEdges(w: SyncWorker, x: Session, first: Fetch, second: Fetch)
    returns (ok: bool, status: Status, edges: nat, ghost written: set<RelationIdentity>, ghost links: Links)
    requires Held(w.Now(), x) && !HasSucceeded(w.Now(), x) && Untouched(w.Now(), x)
    requires UplinkWorker.UplinksOnly(first, x.key.sourceId)
    modifies w.runs, w.graph, w`context, w`clock
    ensures Held(w.Now(), x) && !HasSucceeded(w.Now(), x) && w.clock >= old(w.clock)
    ensures ok ==>
      && AtEdges(w.Now(), x, Validating, edges) && edges == |written|
      && Written(w.Now(), x, written, links) && FromBothPasses(first, second, links)
    ensures old(w.ToStop(x)) ==> !ok
  {
    hide SysInv, Collected, Untouched, Keeps, OwnEdges, AllSourced, AllUplinks, Wrote, FromBothPasses, Written;
    ok, status, edges, written, links := false, Running, 0, {}, [];
    ok := CheckCancel(w, x);
    if !ok { return; }
    ok := Begin(w, x);
    if !ok { return; }
    ok, edges, written, links := RunWorker(w, x, first, second);
    if !ok { return; }
    ghost var before := w.Now();
    ok := CheckCancel(w, x);
    if !ok { return; }
    WrittenStays(before, w.Now(), x, written, links);
    ok := Advance(w, x, edges, written, links);
    if !ok { return; }
    before := w.Now();
    ok := Move(w, x, Running, Validating, edges);
    if !ok { return; }
    WrittenStays(before, w.Now(), x, written, links);
    status := Validating;
  }

  // From a validating run to one that publishes, the graph read back in between.
  method ReadBack(w: SyncWorker, x: Session, edges: nat, ghost written: set<RelationIdentity>, ghost links: Links)
    returns (ok: bool, status: Status, ghost readBack: Graph)
    requires Held(w.Now(), x) && !HasSucceeded(w.Now(), x) && AtEdges(w.Now(), x, Validating, edges)
    requires Written(w.Now(), x, written, links) && edges == |written|
    modifies w.runs, w.graph, w`context, w`clock
    ensures Held(w.Now(), x) && !HasSucceeded(w.Now(), x) && w.clock >= old(w.clock)
    ensures ok ==> AtEdges(w.Now(), x, Publishing, edges) && ReadBackKept(w.Now(), x, readBack, written)
    ensures ok ==> AllSourced(readBack, x, written, links)
    ensures ok ==> !Asked(w.Now(), x)
  {
    hide SysInv, Collected, GraphPasses, OwnEdges, Keeps, AllSourced, AllUplinks, ReadBackKept;
    ok, status, readBack := false, Validating, w.graph.Contents();
    ghost var before := w.Now();
    ok := ValidateGraph(w, x, edges);
    if !ok { return; }
    readBack := w.graph.Contents();
    WrittenStays(before, w.Now(), x, written, links);
    ReadBackHere(w.Now(), x, written);
    before := w.Now();
    ok := CheckCancel(w, x);
    if !ok { return; }
    ReadBackStays(before, w.Now(), x, readBack, written);
    before := w.Now();
    ok := Move(w, x, Validating, Publishing, edges);
    if !ok { return; }
    ReadBackStays(before, w.Now(), x, readBack, written);
    status := Publishing;
    if w.context.heartbeatFailed { return false, status, readBack; }
    before := w.Now();
    ok := CheckCancel(w, x);
    ReadBackStays(before, w.Now(), x, readBack, written);
  }

  lemma ReadBackHere(sys: Sys, x: Session, written: set<RelationIdentity>)
    requires Wrote(sys, x, written)
    requires HasLease(sys, x) ==> GraphPasses(sys.graph, x.key.sourceId, x.snapshot, |written|)
    ensures ReadBackKept(sys, x, sys.graph, written)
  {
    hide GraphPasses;
    KeepsItself(sys.graph);
  }

  // ----- completion -----

  method Complete(w: SyncWorker, x: Session, ghost readBack: Graph, ghost written: set<RelationIdentity>)
    returns (ok: bool)
    requires Held(w.Now(), x) && !HasSucceeded(w.Now(), x) && w.clock >= x.snapshot && w.settled == None
    requires AtEdges(w.Now(), x, Publishing, |written|) && ReadBackKept(w.Now(), x, readBack, written)
    requires AllUplinks(written) && x.key.resource == UPLINK_RESOURCE
    modifies w.runs, w.graph, w`context, w`clock, w`settled
    ensures Held(w.Now(), x) && w.clock >= old(w.clock)
    ensures HasSucceeded(w.Now(), x) ==> w.settled == Some(w.Now()) && UplinkFinished(w.Now(), x, readBack, written)
    ensures ok ==> HasSucceeded(w.Now(), x) && EndedAt(w.Now(), x, w.clock)
  {
    hide SysInv, UplinkFinished, GraphPasses, ReadBackKept, Keeps, AllUplinks;
    ghost var start := w.Now();
    w.Interfere(x);
    ghost var before := w.Now();
    ReadBackStays(start, before, x, readBack, written);
    var r := w.runs.CompleteCheckpointAndRun(x.key, x.runId, Publishing, w.clock);
    OwnComplete(before, x, w.clock);
    ghost var spec := Control.Complete(before.store, x.key, x.runId, Publishing, w.clock);
    assert w.Now() == before || w.Now() == before.(store := spec.0);
    ok := r.Ok?;
    if spec.1.Ok? && w.Now() == before.(store := spec.0) {
      CompleteFinishes(before, x, readBack, written, w.clock);
    }
    if HasSucceeded(w.Now(), x) { w.settled := Some(w.Now()); }
  }

  lemma CompleteFinishes(sys: Sys, x: Session, readBack: Graph, written: set<RelationIdentity>, at: Time)
    requires Held(sys, x) && AtEdges(sys, x, Publishing, |written|) && at >= x.snapshot
    requires ReadBackKept(sys, x, readBack, written) && AllUplinks(written) && x.key.resource == UPLINK_RESOURCE
    requires Control.Complete(sys.store, x.key, x.runId, Publishing, at).1.Ok?
    ensures UplinkFinished(sys.(store := Control.Complete(sys.store, x.key, x.runId, Publishing, at).0), x, readBack,
              written)
  {
    assert HasLease(sys, x);
    hide SysInv, Covers, GraphPasses, Keeps, AllUplinks;
    OwnComplete(sys, x, at);
  }

  /** One claimed server uplink run. If it succeeded, then at that moment its checkpoint counts exactly the
      edges that carry its snapshot, the graph it read back passed and has lost nothing since, and each edge is
      a link both passes over the source read, into a port whose one owner, when the graph was read back, was
      the switch the source named. */
  method ExecuteServerUplink(w: SyncWorker, x: Session, first: Fetch, second: Fetch)
    returns (ok: bool, ended: Option<Status>, ghost readBack: Graph, ghost written: set<RelationIdentity>,
          ghost links: Links)
    requires Held(w.Now(), x) && HasLease(w.Now(), x) && Untouched(w.Now(), x)
    requires x.key.resource == UPLINK_RESOURCE && w.clock >= x.snapshot && w.settled == None
    requires UplinkWorker.UplinksOnly(first, x.key.sourceId)
    modifies w.runs, w.graph, w
    ensures Held(w.Now(), x)
    ensures HasSucceeded(w.Now(), x) ==>
      && w.settled.Some? && UplinkFinished(w.settled.value, x, readBack, written)
      && FromBothPasses(first, second, links)
      && UplinksSound(readBack, x.key.sourceId, x.snapshot, |written|)
      && (forall e | e in written :: OwnedAsNamed(readBack, x, e, links))
    ensures ok ==> w.settled == Some(w.Now()) && HasSucceeded(w.Now(), x)
    ensures ended.Some? ==> !ok && (ended.value == Failed || ended.value == Canceled)
    ensures ended == Some(Failed) ==> Ended(w.Now(), x, FailedRun(UPLINK_FAILED), false)
    ensures ended == Some(Canceled) ==> Ended(w.Now(), x, CanceledRun, false)
    ensures old(w.context.callerDone || Asked(w.Now(), x)) ==> !ok
  {
    hide SysInv, Untouched, UplinkFinished, Collected, AllSourced, AllUplinks, Wrote, FromBothPasses, OwnedAsNamed,
      ReadBackKept, GraphPasses;
    ended, readBack := None, w.graph.Contents();
    w.context := Context(w.context.callerDone, w.context.callerDone, false, false);
    var status, edges;
    ok, status, edges, written, links := CollectEdges(w, x, first, second);
    if !ok {
      var requested;
      ended, requested := FinishFailed(w, x, status);
      return;
    }
    ok, status, readBack := ReadBack(w, x, edges, written, links);
    if !ok {
      var requested;
      ended, requested := FinishFailed(w, x, status);
      return;
    }
    ok := Complete(w, x, readBack, written);
    if HasSucceeded(w.Now(), x) {
      OwnersAreNamed(w.Now(), x, readBack, written, links);
      ReadBackSound(w.Now(), x, readBack, written);
    }
    if !ok {
      var requested;
      ended, requested := FinishFailed(w, x, Publishing);
    }
  }

  // The one owner of the edge's port is the switch that the source named with the link.
  ghost predicate OwnedAsNamed(g: Graph, x: Session, e: RelationIdentity, links: Links) {
    exists c | c in links :: c.identity == e && OwnedByTor(g, x, e, c.tor)
  }

  ghost predicate OwnedByTor(g: Graph, x: Session, e: RelationIdentity, tor: string) {
    UplinkWorker.OwnedOnlyBy(g, e.from, e.to,
      RelationIdentity(x.key.sourceId, OwnsInterface, Identity(x.key.sourceId, Device, tor), e.to))
  }

  lemma ReadBackSound(sys: Sys, x: Session, readBack: Graph, written: set<RelationIdentity>)
    requires UplinkFinished(sys, x, readBack, written)
    ensures UplinksSound(readBack, x.key.sourceId, x.snapshot, |written|)
  {
    hide Held, GraphPasses, UplinksSound, Keeps;
    GraphPassesMeans(readBack, x.key.sourceId, x.snapshot, |written|);
  }

  lemma OwnersAreNamed(sys: Sys, x: Session, readBack: Graph, written: set<RelationIdentity>, links: Links)
    requires UplinkFinished(sys, x, readBack, written) && AllSourced(readBack, x, written, links)
    ensures forall e | e in written :: OwnedAsNamed(readBack, x, e, links)
  {
    hide SysInv, Keeps;
    forall e | e in written ensures OwnedAsNamed(readBack, x, e, links) {
      assert Sourced(readBack, x, e, links);
      var c :| c in links && c.identity == e && Tied(readBack, x, c);
      OwnerIsNamed(readBack, x, e, c);
    }
  }

  lemma OwnerIsNamed(g: Graph, x: Session, e: RelationIdentity, c: UplinkWorker.Candidate)
    requires WellOwned(g, x.key.sourceId, e) && c.identity == e && Tied(g, x, c)
    ensures OwnedByTor(g, x, e, c.tor)
  {
    var owners := UplinkWorker.OwnersOf(g, e.from, e.to);
    var o :| o in owners;
    assert TorEdge(x, c) in owners;
    SameSize({TorEdge(x, c)}, owners);
    UplinkWorker.OwnersMean(g, e.from, e.to, TorEdge(x, c));
  }

  // ----- the independent check -----

  // A source that is there, enabled and read through the adapter the check knows.
  predicate SourceUsable(s: Store, sourceId: string) {
    && sourceId in s.sources && s.sources[sourceId].enabled
    && s.sources[sourceId].adapterKind == ADAPTER_KIND && s.sources[sourceId].configRef != ""
  }

  // Rows and graph, both as they are now, agree.
  predicate CheckPasses(sys: Sys, sourceId: string, runId: string) {
    var key := Key(sourceId, UPLINK_RESOURCE);
    && runId in sys.store.runs && key in sys.store.checkpoints
    && RowsAgree(sourceId, runId, sys.store.runs[runId], sys.store.checkpoints[key])
    && var cursor := sys.store.checkpoints[key].cursor;
       var reading := ReadingOf(sys.graph, sourceId, cursor.snapshotAt, cursor.total);
       cursor.snapshotAt != ZERO_TIME && reading.Some? && GraphAgrees(sys.store.checkpoints[key], reading.value)
  }

  /** The source is there, enabled and read by the adapter for the CMDB; row and checkpoint stand; and the graph has as
      many uplinks of the run as the checkpoint counts, all of them sound. */
  ghost predicate ChecksOut(sys: Sys, sourceId: string, runId: string) {
    var key := Key(sourceId, "server_uplinks");
    && sourceId in sys.store.sources
    && sys.store.sources[sourceId].enabled && sys.store.sources[sourceId].adapterKind == "cmdb"
    && sys.store.sources[sourceId].configRef != ""
    && runId in sys.store.runs && key in sys.store.checkpoints
    && var checkpoint := sys.store.checkpoints[key];
       && RowsStand(sourceId, runId, sys.store.runs[runId], checkpoint)
       && checkpoint.cursor.snapshotAt != ZERO_TIME
       && UplinksSound(sys.graph, sourceId, checkpoint.cursor.snapshotAt, checkpoint.cursor.total)
  }

  lemma CheckMeans(sys: Sys, sourceId: string, runId: string)
    ensures SourceUsable(sys.store, sourceId) && CheckPasses(sys, sourceId, runId) <==> ChecksOut(sys, sourceId, runId)
  {
    hide RowsAgree, RowsStand, GraphPasses, UplinksSound, UplinksOf, CurrentUplinks;
    var key := Key(sourceId, UPLINK_RESOURCE);
    if runId in sys.store.runs && key in sys.store.checkpoints {
      var checkpoint := sys.store.checkpoints[key];
      RowsMean(sourceId, runId, sys.store.runs[runId], checkpoint);
      GraphPassesMeans(sys.graph, sourceId, checkpoint.cursor.snapshotAt, checkpoint.cursor.total);
      CurrentAmongAll(sys.graph, sourceId, checkpoint.cursor.snapshotAt);
      if GraphPasses(sys.graph, sourceId, checkpoint.cursor.snapshotAt, checkpoint.cursor.total) {
        PassesCount(sys.graph, sourceId, checkpoint.cursor.snapshotAt, checkpoint.cursor.total);
      }
    }
  }

  lemma PassesCount(g: Graph, sourceId: string, snapshotAt: Time, expected: int)
    requires GraphPasses(g, sourceId, snapshotAt, expected)
    ensures |CurrentUplinks(g, sourceId, snapshotAt)| == expected
  {
  }

  /** The independent check, made afresh. Unless one of its queries fails, it accepts a run of a usable source
      if and only if rows and graph agree. */
  method VerifyServerUplink(sys: Sys, sourceId: string, runId: string) returns (ok: bool, failed: bool)
    ensures ok ==> SourceUsable(sys.store, sourceId) && CheckPasses(sys, sourceId, runId)
    ensures !failed ==> (ok <==> SourceUsable(sys.store, sourceId) && CheckPasses(sys, sourceId, runId))
    ensures ok ==> ChecksOut(sys, sourceId, runId)
    ensures !failed ==> (ok <==> ChecksOut(sys, sourceId, runId))
  {
    CheckMeans(sys, sourceId, runId);
    hide GraphPasses, QueriesPass, UplinksOf, ChecksOut, UplinksSound;
    ok, failed := false, *;
    if failed || !SourceUsable(sys.store, sourceId) { return; }
    var key := Key(sourceId, UPLINK_RESOURCE);
    if runId !in sys.store.runs || key !in sys.store.checkpoints { return; }
    var cursor := sys.store.checkpoints[key].cursor;
    if cursor.snapshotAt == ZERO_TIME || cursor.total < 0 { return; }
    var graph := ReadGraph(sys.graph, sys.graph, sys.graph, sourceId, cursor.snapshotAt, cursor.total);
    QueriesAtOneMoment(sys.graph, sourceId, cursor.snapshotAt, cursor.total);
    if graph.None? { return; }
    var run, checkpoint := sys.store.runs[runId], sys.store.checkpoints[key];
    RowsMean(sourceId, runId, run, checkpoint);
    hide RowsAgree, RowsStand;
    var report := new UplinkReport(sourceId, runId, Some(run), Some(checkpoint), graph);
    ok := report.Validate();
  }

  // The checkpoint is still the run's own, its edges still carry its snapshot, and their ends are undisturbed.
  ghost predicate Intact(sys: Sys, x: Session, readBack: Graph, written: set<RelationIdentity>) {
    && Named(sys.store, x)
    && (forall e | e in written :: Stamped(sys.graph, x, e))
    && Undisturbed(readBack, sys.graph, written)
  }

  /** Whatever the other actors do after a server uplink run has succeeded, a check made afresh passes if and
      only if no other run has taken over the checkpoint, none has written over one of the run's edges, no other
      ownership has come into one of their ports since the graph was read back, and their ends and owners are
      still classified as they were. */
  lemma FreshCheckPasses(settled: Sys, steps: seq<EnvStep>, x: Session, readBack: Graph,
        written: set<RelationIdentity>)
    requires UplinkFinished(settled, x, readBack, written) && EnvStepsOk(x.runId, settled, steps)
    ensures CheckPasses(EnvExec(settled, steps), x.key.sourceId, x.runId) <==>
              Intact(EnvExec(settled, steps), x, readBack, written)
  {
    hide Held, GraphPasses, Undisturbed, Keeps, EnvExec, EnvStepsOk, UplinkFinished, Lasts, RowsAgree, CheckPasses;
    var now := EnvExec(settled, steps);
    FinishedRow(settled, x, readBack, written);
    SuccessLasts(settled, steps, x);
    LastingRow(settled, now, x);
    if Named(now.store, x) {
      GraphPassesAgain(settled, now, x, readBack, written);
      CurrentAmongAll(now.graph, x.key.sourceId, x.snapshot);
      VerdictHere(now, x, |written|);
    } else {
      NotNamed(now, x);
    }
  }

  // A checkpoint that is gone or another run's: the rows do not agree.
  lemma NotNamed(sys: Sys, x: Session)
    requires !Named(sys.store, x) && x.key.resource == UPLINK_RESOURCE
    ensures !CheckPasses(sys, x.key.sourceId, x.runId)
  {
    hide ReadingOf;
  }

  lemma VerdictHere(sys: Sys, x: Session, edges: nat)
    requires Named(sys.store, x) && x.key.resource == UPLINK_RESOURCE && x.runId in sys.store.runs
    requires RowsAgree(x.key.sourceId, x.runId, sys.store.runs[x.runId], sys.store.checkpoints[x.key])
    requires sys.store.checkpoints[x.key].cursor == EdgeCursor(x, edges) && x.snapshot != ZERO_TIME
    requires |CurrentUplinks(sys.graph, x.key.sourceId, x.snapshot)| <= |UplinksOf(sys.graph, x.key.sourceId)|
    ensures CheckPasses(sys, x.key.sourceId, x.runId) <==>
              GraphPasses(sys.graph, x.key.sourceId, x.snapshot, edges)
  {
    hide CurrentUplinks, UplinksOf, WellOwned, RowsAgree;
  }

  lemma FinishedRow(sys: Sys, x: Session, readBack: Graph, written: set<RelationIdentity>)
    requires UplinkFinished(sys, x, readBack, written)
    ensures Held(sys, x) && HasSucceeded(sys, x) && x.key in sys.store.checkpoints && x.snapshot != ZERO_TIME
    ensures x.key.resource == UPLINK_RESOURCE
    ensures RowsAgree(x.key.sourceId, x.runId, sys.store.runs[x.runId], sys.store.checkpoints[x.key])
    ensures sys.store.checkpoints[x.key].cursor == EdgeCursor(x, |written|)
  {
    assert RowOk(sys.store.runs[x.runId]);
    hide ReadFrom;
  }

  lemma LastingRow(a: Sys, b: Sys, x: Session)
    requires Lasts(a, b, x)
    ensures x.runId in a.store.runs && x.runId in b.store.runs && b.store.runs[x.runId] == a.store.runs[x.runId]
    ensures Named(b.store, x) ==> Named(a.store, x) && b.store.checkpoints[x.key] == a.store.checkpoints[x.key]
  {
  }

  lemma GraphPassesAgain(settled: Sys, now: Sys, x: Session, readBack: Graph, written: set<RelationIdentity>)
    requires UplinkFinished(settled, x, readBack, written) && Lasts(settled, now, x)
    ensures GraphPasses(now.graph, x.key.sourceId, x.snapshot, |written|) <==>
              (forall e | e in written :: Stamped(now.graph, x, e)) && Undisturbed(readBack, now.graph, written)
  {
    hide Held, GraphPasses, Undisturbed, Keeps;
    var before, after := readBack, now.graph;
    var current := CurrentUplinks(after, x.key.sourceId, x.snapshot);
    assert CurrentUplinks(before, x.key.sourceId, x.snapshot) == written by { CurrentIsWritten(before, x, written); }
    KeepsTransitive(before, settled.graph, after);
    forall u | u in current
      ensures u in written && u in before.edges && u in after.edges
          && after.edges[u] == before.edges[u]
    {
      LastingEdge(before, settled.graph, after, x, u);
    }
    PassesAgain(before, after, x.key.sourceId, x.snapshot, written);
    assert forall e | e in written :: Stamped(after, x, e) <==> e in current;
  }

  lemma CurrentIsWritten(g: Graph, x: Session, written: set<RelationIdentity>)
    requires StampedEdges(g, x.key.sourceId, x.snapshot).Keys == written && AllUplinks(written)
    ensures CurrentUplinks(g, x.key.sourceId, x.snapshot) == written
  {
  }

  lemma LastingEdge(before: Graph, settled: Graph, after: Graph, x: Session, u: RelationIdentity)
    requires Stamped(after, x, u) && StampsLast(settled, after, x)
    requires StampedEdges(settled, x.key.sourceId, x.snapshot) == StampedEdges(before, x.key.sourceId, x.snapshot)
    ensures u in StampedEdges(before, x.key.sourceId, x.snapshot) && u in before.edges
    ensures after.edges[u] == before.edges[u]
  {
    assert u in StampedEdges(settled, x.key.sourceId, x.snapshot);
    assert StampedEdges(settled, x.key.sourceId, x.snapshot)[u] == StampedEdges(before, x.key.sourceId, x.snapshot)[u];
  }
}
