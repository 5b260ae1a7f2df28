/**
 The server uplink worker: collect every reference, check all endpoints, only then write edges, and
 collect once more to see that the source stood still. A pass over the source is given by a function
 from offsets to pages, so a source that changes during the pass is covered too: no offset is asked twice.
 */
module UplinkWorker {
  import opened Base
  import opened Seqs
  import opened Text
  import opened Graph
  import opened TorPorts
  import opened UplinkScan

  type Fetch = nat -> Option<UplinkPage>

  datatype Candidate = Candidate(identity: RelationIdentity, tor: string)

  // The digest covers the page's header and its links with their owners.
  datatype PageSum = PageSum(
    start: int, nextOffset: int, total: int, done: bool, skipped: int, firstInst: int, lastInst: int,
    source: seq<RawServer>, pairs: seq<Candidate>)

  // What a pass keeps from page to page.
  datatype Pass = Pass(
    total: int, skipped: int, last: int, identities: set<RelationIdentity>, owners: map<string, string>,
    serversSeen: set<string>, digest: seq<PageSum>, candidates: seq<Candidate>)

  predicate IdOk(identity: RelationIdentity) {
    && identity.sourceId != "" && identity.from.stableId != "" && identity.to.stableId != ""
    && identity.from.sourceId == identity.sourceId && identity.to.sourceId == identity.sourceId
  }

  function PairsOf(page: UplinkPage): seq<Candidate> {
    seq(|page.links|, k requires 0 <= k < |page.links| =>
      Candidate(page.links[k], Lookup(page.targets, page.links[k].to.stableId)))
  }

  function AllPairs(pages: seq<UplinkPage>): seq<Candidate> {
    FlatMap(PairsOf, pages)
  }

  function SkippedIn(pages: seq<UplinkPage>): int {
    if pages == [] then 0 else SkippedIn(pages[..|pages| - 1]) + pages[|pages| - 1].skipped
  }

  function PortOfPair(pair: Candidate): string {
    pair.identity.to.stableId
  }

  predicate TwoOwners(a: Candidate, b: Candidate) {
    PortOfPair(a) == PortOfPair(b) && a.tor != b.tor
  }

  // Every link identified, with an owner, and no port with two.
  predicate LinksOk(pairs: seq<Candidate>) {
    && (forall k | 0 <= k < |pairs| :: IdOk(pairs[k].identity) && pairs[k].tor != "")
    && (forall i, j | 0 <= i < |pairs| && 0 <= j < |pairs| :: !TwoOwners(pairs[i], pairs[j]))
  }

  // ----- links -----

  function PortsIn(pairs: seq<Candidate>): set<string> {
    set k | 0 <= k < |pairs| :: PortOfPair(pairs[k])
  }

  function IdentitiesIn(pairs: seq<Candidate>): set<RelationIdentity> {
    set k | 0 <= k < |pairs| :: pairs[k].identity
  }

  lemma InGrow(pairs: seq<Candidate>, pair: Candidate)
    ensures PortsIn(pairs + [pair]) == PortsIn(pairs) + {PortOfPair(pair)}
    ensures IdentitiesIn(pairs + [pair]) == IdentitiesIn(pairs) + {pair.identity}
  {
    var all, n := pairs + [pair], |pairs|;
    assert all[n] == pair;
    forall port | port in PortsIn(pairs) ensures port in PortsIn(all) {
      var k :| 0 <= k < n && PortOfPair(pairs[k]) == port;
      assert PortOfPair(all[k]) == port;
    }
    forall identity | identity in IdentitiesIn(pairs) ensures identity in IdentitiesIn(all) {
      var k :| 0 <= k < n && pairs[k].identity == identity;
      assert all[k].identity == identity;
    }
  }

  ghost predicate LinksKept(pairs: seq<Candidate>, p: Pass, retain: bool) {
    && LinksOk(pairs)
    && p.owners.Keys == PortsIn(pairs)
    && (forall k | 0 <= k < |pairs| :: PortOfPair(pairs[k]) in p.owners
         && p.owners[PortOfPair(pairs[k])] == pairs[k].tor)
    && p.identities == IdentitiesIn(pairs)
    && (retain ==> p.candidates == Distinct(pairs))
  }

  function LinkAdded(p: Pass, pair: Candidate, retain: bool): Pass {
    var owned := p.(owners := p.owners[PortOfPair(pair) := pair.tor]);
    if pair.identity in p.identities then owned
    else
      owned.(identities := p.identities + {pair.identity},
             candidates := if retain then p.candidates + [pair] else p.candidates)
  }

  predicate LinkFits(p: Pass, pair: Candidate) {
    && IdOk(pair.identity) && pair.tor != ""
    && (PortOfPair(pair) in p.owners ==> p.owners[PortOfPair(pair)] == pair.tor)
  }

  lemma LinksOkStep(pairs: seq<Candidate>, p: Pass, retain: bool, pair: Candidate)
    requires LinksKept(pairs, p, retain)
    ensures LinksOk(pairs + [pair]) <==> LinkFits(p, pair)
  {
    var all, n := pairs + [pair], |pairs|;
    if LinksOk(all) {
      if PortOfPair(pair) in p.owners {
        var k :| 0 <= k < n && PortOfPair(pairs[k]) == PortOfPair(pair);
        assert !TwoOwners(all[k], all[n]);
      }
      assert IdOk(all[n].identity);
    }
    forall i, j | 0 <= i < |all| && 0 <= j < |all| && LinkFits(p, pair) ensures !TwoOwners(all[i], all[j]) {
      if i < n && j < n { assert !TwoOwners(pairs[i], pairs[j]); }
      if i < n { assert PortOfPair(pairs[i]) in p.owners; }
      if j < n { assert PortOfPair(pairs[j]) in p.owners; }
    }
  }

  lemma DistinctExtend<T(!new)>(items: seq<T>, item: T)
    ensures Distinct(items + [item]) == if item in items then Distinct(items) else Distinct(items) + [item]
  {
  }

  lemma LinksKeptStep(pairs: seq<Candidate>, p: Pass, retain: bool, pair: Candidate)
    requires LinksKept(pairs, p, retain) && LinkFits(p, pair)
    ensures LinksKept(pairs + [pair], LinkAdded(p, pair, retain), retain)
  {
    hide LinksOk, Distinct, PortsIn, IdentitiesIn, LinkFits;
    var now := LinkAdded(p, pair, retain);
    LinksOkStep(pairs, p, retain, pair);
    InGrow(pairs, pair);
    DistinctExtend(pairs, pair);
    PairSeen(pairs, p, retain, pair);
    OwnersStep(pairs, p, retain, pair);
    assert now.owners == p.owners[PortOfPair(pair) := pair.tor];
  }

  lemma OwnersStep(pairs: seq<Candidate>, p: Pass, retain: bool, pair: Candidate)
    requires LinksKept(pairs, p, retain) && LinkFits(p, pair)
    ensures var all, owners := pairs + [pair], p.owners[PortOfPair(pair) := pair.tor];
            forall k | 0 <= k < |all| :: PortOfPair(all[k]) in owners && owners[PortOfPair(all[k])] == all[k].tor
  {
  }

  // A link seen before was seen with the same owner.
  lemma PairSeen(pairs: seq<Candidate>, p: Pass, retain: bool, pair: Candidate)
    requires LinksKept(pairs, p, retain) && LinkFits(p, pair)
    ensures pair.identity in p.identities <==> pair in pairs
  {
  }

  method AddLink(p: Pass, page: UplinkPage, k: nat, retain: bool, ghost pairs: seq<Candidate>)
    returns (ok: bool, now: Pass)
    requires k < |page.links| && LinksKept(pairs, p, retain)
    ensures ok <==> LinkFits(p, PairsOf(page)[k])
    ensures ok ==> now == LinkAdded(p, PairsOf(page)[k], retain)
  {
    var identity := page.links[k];
    if !IdOk(identity) { return false, p; }
    var tor := Lookup(page.targets, identity.to.stableId);
    if tor == "" { return false, p; }
    if identity.to.stableId in p.owners && p.owners[identity.to.stableId] != tor { return false, p; }
    now := p.(owners := p.owners[identity.to.stableId := tor]);
    if identity in p.identities { return true, now; }
    now := now.(identities := p.identities + {identity});
    if retain { now := now.(candidates := p.candidates + [Candidate(identity, tor)]); }
    ok := true;
  }

  // A pass's fields that links do not touch.
  predicate SameCounts(p: Pass, q: Pass) {
    q.total == p.total && q.skipped == p.skipped && q.last == p.last && q.serversSeen == p.serversSeen
        && q.digest == p.digest
  }

  lemma LinksOkPrefix(a: seq<Candidate>, b: seq<Candidate>)
    ensures LinksOk(a + b) ==> LinksOk(a)
  {
    if LinksOk(a + b) {
      forall k | 0 <= k < |a| ensures IdOk(a[k].identity) && a[k].tor != "" { assert (a + b)[k] == a[k]; }
      forall i, j | 0 <= i < |a| && 0 <= j < |a| ensures !TwoOwners(a[i], a[j]) {
        assert !TwoOwners((a + b)[i], (a + b)[j]);
      }
    }
  }

  method AddLinks(p: Pass, page: UplinkPage, retain: bool, ghost pairs: seq<Candidate>) returns (ok: bool, now: Pass)
    requires LinksKept(pairs, p, retain)
    ensures ok <==> LinksOk(pairs + PairsOf(page))
    ensures ok ==> LinksKept(pairs + PairsOf(page), now, retain) && SameCounts(p, now)
  {
    ghost var more := PairsOf(page);
    hide LinksKept, LinksOk, LinkFits;
    ok, now := true, p;
    assert pairs + more[..0] == pairs;
    for k := 0 to |page.links|
      invariant ok && LinksKept(pairs + more[..k], now, retain) && SameCounts(p, now)
    {
      assert pairs + more[..k + 1] == (pairs + more[..k]) + [more[k]];
      assert pairs + more == (pairs + more[..k + 1]) + more[k + 1..];
      LinksOkStep(pairs + more[..k], now, retain, more[k]);
      LinksOkPrefix(pairs + more[..k + 1], more[k + 1..]);
      ghost var was := now;
      ok, now := AddLink(now, page, k, retain, pairs + more[..k]);
      if !ok { return; }
      LinksKeptStep(pairs + more[..k], was, retain, more[k]);
    }
    assert more[..|page.links|] == more;
    LinksKeptOk(pairs + more, now, retain);
  }

  lemma LinksKeptOk(pairs: seq<Candidate>, p: Pass, retain: bool)
    requires LinksKept(pairs, p, retain)
    ensures LinksOk(pairs)
  {
  }

  // ----- pages -----

  predicate SnsFit(sns: seq<string>, seen: set<string>) {
    && (forall i | 0 <= i < |sns| :: sns[i] != "" && sns[i] !in seen)
    && (forall i, j | 0 <= i < j < |sns| :: sns[i] != sns[j])
  }

  function SetOf(sns: seq<string>): set<string> {
    set i | 0 <= i < |sns| :: sns[i]
  }

  method AddServers(seen: set<string>, sns: seq<string>) returns (ok: bool, now: set<string>)
    ensures ok <==> SnsFit(sns, seen)
    ensures ok ==> now == seen + SetOf(sns)
  {
    now := seen;
    for i := 0 to |sns|
      invariant SnsFit(sns[..i], seen) && now == seen + SetOf(sns[..i])
    {
      assert sns[..i + 1] == sns[..i] + [sns[i]];
      if sns[i] == "" || sns[i] in now {
        if sns[i] !in seen && sns[i] != "" {
          var j :| 0 <= j < i && sns[..i][j] == sns[i];
          assert sns[j] == sns[i];
        }
        return false, now;
      }
      assert SetOf(sns[..i + 1]) == SetOf(sns[..i]) + {sns[i]} by {
        assert sns[..i + 1][i] == sns[i];
        forall sn | sn in SetOf(sns[..i]) ensures sn in SetOf(sns[..i + 1]) {
          var j :| 0 <= j < i && sns[..i][j] == sn;
          assert sns[..i + 1][j] == sn;
        }
      }
      now := now + {sns[i]};
    }
    assert sns[..|sns|] == sns;
    ok := true;
  }

  predicate Paginates(p: Pass, start: nat, page: UplinkPage) {
    && (p.total < 0 || p.total == page.total)
    && start <= page.nextOffset <= page.total
    && (!page.done ==> page.nextOffset != start)
    && page.done == (page.nextOffset == page.total)
    && (page.nextOffset > start ==> page.firstInst > p.last && page.lastInst >= page.firstInst)
  }

  ghost predicate PageFits(p: Pass, start: nat, page: UplinkPage, pairs: seq<Candidate>) {
    Paginates(p, start, page) && SnsFit(page.serverSns, p.serversSeen) && LinksOk(pairs + PairsOf(page))
  }

  function SumOf(start: int, page: UplinkPage): PageSum {
    PageSum(start, page.nextOffset, page.total, page.done, page.skipped, page.firstInst, page.lastInst, page.digest,
        PairsOf(page))
  }

  // The pass after a page that fits: everything but its links.
  function Counted(p: Pass, start: nat, page: UplinkPage): Pass {
    p.(total := page.total, last := if page.nextOffset > start then page.lastInst else p.last,
       skipped := p.skipped + page.skipped,
       serversSeen := p.serversSeen + SetOf(page.serverSns), digest := p.digest + [SumOf(start, page)])
  }

  method AcceptPage(p: Pass, start: nat, page: UplinkPage, retain: bool, ghost pairs: seq<Candidate>)
    returns (ok: bool, now: Pass)
    requires LinksKept(pairs, p, retain)
    ensures ok <==> PageFits(p, start, page, pairs)
    ensures ok ==> LinksKept(pairs + PairsOf(page), now, retain) && SameCounts(Counted(p, start, page), now)
  {
    var total := if p.total < 0 then page.total else p.total;
    hide LinksKept, LinksOk, SnsFit, SetOf;
    if total != page.total || page.nextOffset < start || page.nextOffset > total
        || (!page.done && page.nextOffset == start)
       || page.done != (page.nextOffset == total)
    {
      return false, p;
    }
    var last := p.last;
    if page.nextOffset > start {
      if page.firstInst <= last || page.lastInst < page.firstInst { return false, p; }
      last := page.lastInst;
    }
    var seen;
    ok, seen := AddServers(p.serversSeen, page.serverSns);
    if !ok { return false, p; }
    var counted := p.(total := total, last := last, skipped := p.skipped + page.skipped, serversSeen := seen,
        digest := p.digest + [SumOf(start, page)]);
    LinksKeptElsewhere(pairs, p, counted, retain);
    ok, now := AddLinks(counted, page, retain, pairs);
  }

  lemma LinksKeptElsewhere(pairs: seq<Candidate>, p: Pass, q: Pass, retain: bool)
    requires LinksKept(pairs, p, retain) && q.owners == p.owners && q.identities == p.identities
    requires q.candidates == p.candidates
    ensures LinksKept(pairs, q, retain)
  {
  }

  // ----- a whole pass -----

  function StartPass(): Pass {
    Pass(-1, 0, 0, {}, map[], {}, [], [])
  }

  function OffsetAfter(pages: seq<UplinkPage>): int {
    if pages == [] then 0 else pages[|pages| - 1].nextOffset
  }

  // The pages a pass read, each at the offset the one before it ended at.
  ghost predicate Chain(fetch: Fetch, pages: seq<UplinkPage>) {
    forall k | 0 <= k < |pages| :: OffsetAfter(pages[..k]) >= 0 && fetch(OffsetAfter(pages[..k])) == Some(pages[k])
  }

  // What the digest has taken in of these pages.
  function SumsOf(pages: seq<UplinkPage>): seq<PageSum> {
    if pages == [] then []
    else
      var front := pages[..|pages| - 1];
      SumsOf(front) + [SumOf(OffsetAfter(front), pages[|pages| - 1])]
  }

  // Passes with equal digests kept the same links, each with the same owner, in the same order.
  lemma {:induction false} SumsGivePairs(a: seq<UplinkPage>, b: seq<UplinkPage>)
    requires SumsOf(a) == SumsOf(b)
    ensures |a| == |b| && AllPairs(a) == AllPairs(b)
    decreases |a|
  {
    hide PairsOf;
    if a != [] && b != [] {
      var m, n := |a| - 1, |b| - 1;
      assert SumsOf(a[..m]) == SumsOf(a)[..|SumsOf(a)| - 1] && SumsOf(b[..n]) == SumsOf(b)[..|SumsOf(b)| - 1];
      assert SumsOf(a)[|SumsOf(a)| - 1] == SumOf(OffsetAfter(a[..m]), a[m]);
      assert SumsOf(b)[|SumsOf(b)| - 1] == SumOf(OffsetAfter(b[..n]), b[n]);
      SumsGivePairs(a[..m], b[..n]);
    }
  }

  // A source that does not change while it is read.
  ghost predicate Unchanging(fetch: Fetch, net: Network, servers: seq<RawServer>, sourceId: string, size: nat) {
    size > 0 && forall start: nat :: fetch(start) == PageFor(net, servers, sourceId, size, start)
  }

  function PairsFrom(sourceId: string, refs: seq<Ref>): seq<Candidate> {
    seq(|refs|, k requires 0 <= k < |refs| => Candidate(LinkOf(sourceId, refs[k]), refs[k].tor))
  }

  // The link and the owner are those of the reference.
  ghost predicate PairSays(pair: Candidate, sourceId: string, ref: Ref) {
    LinkSays(pair.identity, sourceId, ref) && pair.tor == ref.tor
  }

  ghost predicate PairsSay(pairs: seq<Candidate>, sourceId: string, refs: seq<Ref>) {
    |pairs| == |refs| && forall k | 0 <= k < |refs| :: PairSays(pairs[k], sourceId, refs[k])
  }

  // Every link whole and of one source, with an owner, and all links to one port with the same.
  ghost predicate PairsSound(pairs: seq<Candidate>) {
    && (forall k | 0 <= k < |pairs| :: LinkWhole(pairs[k].identity) && pairs[k].tor != "")
    && (forall i, j | 0 <= i < |pairs| && 0 <= j < |pairs| &&
            pairs[i].identity.to.stableId == pairs[j].identity.to.stableId :: pairs[i].tor == pairs[j].tor)
  }

  ghost predicate LinkWhole(link: RelationIdentity) {
    && link.sourceId != "" && link.from.sourceId == link.sourceId && link.to.sourceId == link.sourceId
    && link.from.stableId != "" && link.to.stableId != ""
  }

  // Each of them once.
  ghost predicate EachOnce(pairs: seq<Candidate>, candidates: seq<Candidate>) {
    && (forall c :: c in candidates <==> c in pairs)
    && (forall i, j | 0 <= i < j < |candidates| :: candidates[i].identity != candidates[j].identity)
  }

  lemma PairsMean(sourceId: string, refs: seq<Ref>)
    ensures PairsSay(PairsFrom(sourceId, refs), sourceId, refs)
  {
  }

  lemma LinksOkSound(pairs: seq<Candidate>)
    ensures LinksOk(pairs) <==> PairsSound(pairs)
  {
    if LinksOk(pairs) {
      forall i, j | 0 <= i < |pairs| && 0 <= j < |pairs| &&
          pairs[i].identity.to.stableId == pairs[j].identity.to.stableId
        ensures pairs[i].tor == pairs[j].tor
      {
        assert !TwoOwners(pairs[i], pairs[j]);
      }
    }
  }

  /** The links of a pass are those of its pages, page by page, each with the owner its page names. */
  lemma PairsAsLinked(pages: seq<UplinkPage>, i: nat, k: nat)
    requires i < |pages| && k < |pages[i].links| && PairsSound(AllPairs(pages))
    ensures var at, link := |AllPairs(pages[..i])| + k, pages[i].links[k];
            && at < |AllPairs(pages)| && AllPairs(pages)[at].identity == link
            && link.to.stableId in pages[i].targets && AllPairs(pages)[at].tor == pages[i].targets[link.to.stableId]
    ensures |AllPairs(pages[..i + 1])| == |AllPairs(pages[..i])| + |pages[i].links|
  {
    hide FlatMap;
    FlatMapAt(PairsOf, pages, i, k);
    FlatMapExtend(PairsOf, pages, i);
  }

  // ----- an unchanging source -----

  // What a pass has read of the first k servers.
  ghost predicate Tracks(net: Network, servers: seq<RawServer>, sourceId: string, k: nat, p: Pass,
        pairs: seq<Candidate>) {
    && k <= |servers| && ScanOk(net, servers[..k]) && TrimSpace(sourceId) != ""
    && pairs == PairsFrom(sourceId, Resolved(Refs(net, servers[..k])))
    && p.skipped == Unresolved(Refs(net, servers[..k]))
    && p.last == LastInst(servers[..k]) && p.serversSeen == Sns(servers[..k])
    && (p.total < 0 || p.total == |servers|)
  }

  // A reference that resolves names its server and switch.
  ghost predicate RefSound(ref: Ref) {
    ref.uuid != "" ==> ref.server != "" && ref.tor != ""
  }

  ghost predicate RefsSound(refs: seq<Ref>) {
    forall k | 0 <= k < |refs| :: RefSound(refs[k])
  }

  lemma {:induction false} FlatMapSound<A>(f: A -> seq<Ref>, items: seq<A>)
    requires forall i | 0 <= i < |items| :: RefsSound(f(items[i]))
    ensures RefsSound(FlatMap(f, items))
    decreases |items|
  {
    if items != [] { FlatMapSound(f, items[..|items| - 1]); }
  }

  lemma ScannedRefsSound(net: Network, servers: seq<RawServer>)
    requires ServersOk(net, servers)
    ensures RefsSound(Refs(net, servers))
  {
    var read := ServerReader(net);
    forall i | 0 <= i < |servers| ensures RefsSound(read(servers[i])) {
      assert ServerOk(net, servers[i]);
      ServerRefsSound(net, servers[i]);
    }
    FlatMapSound(read, servers);
  }

  lemma ServerRefsSound(net: Network, server: RawServer)
    requires SnOf(server) != ""
    ensures RefsSound(ServerRefs(net, server))
  {
    hide TrimSpace, Resolve;
    var read := EntryReader(net, server);
    FlatMapSound(read, EntriesOf(server));
  }

  // The links of a scan hold together exactly when its references do.
  lemma LinksOkMeans(sourceId: string, refs: seq<Ref>)
    requires sourceId != "" && RefsSound(refs)
    ensures LinksOk(PairsFrom(sourceId, Resolved(refs))) <==> Consistent(refs)
  {
    var resolved := Resolved(refs);
    var pairs := PairsFrom(sourceId, resolved);
    ResolvedMembers(refs);
    hide Resolved;
    assert forall k | 0 <= k < |resolved| :: resolved[k] in refs && resolved[k].uuid != "";
    assert forall k | 0 <= k < |pairs| :: IdOk(pairs[k].identity) && pairs[k].tor != "";
    if Consistent(refs) {
      forall i, j | 0 <= i < |pairs| && 0 <= j < |pairs| ensures !TwoOwners(pairs[i], pairs[j]) {
        var a :| 0 <= a < |refs| && refs[a] == resolved[i];
        var b :| 0 <= b < |refs| && refs[b] == resolved[j];
        assert !Conflict(refs[a], refs[b]);
      }
    }
    if LinksOk(pairs) {
      forall a, b | 0 <= a < |refs| && 0 <= b < |refs| ensures !Conflict(refs[a], refs[b]) {
        if refs[a].uuid != "" && refs[b].uuid != "" {
          assert refs[a] in resolved && refs[b] in resolved;
          var i :| 0 <= i < |resolved| && resolved[i] == refs[a];
          var j :| 0 <= j < |resolved| && resolved[j] == refs[b];
          assert !TwoOwners(pairs[i], pairs[j]);
        }
      }
    }
  }

  // A page's links, each with the owner its targets name, are its resolved references.
  lemma PairsOfPage(net: Network, sourceId: string, items: seq<RawServer>, page: UplinkPage)
    requires Consistent(Refs(net, items))
    requires page.links == LinksOf(sourceId, Resolved(Refs(net, items))) && page.targets == TargetsOf(Refs(net, items))
    ensures PairsOf(page) == PairsFrom(sourceId, Resolved(Refs(net, items)))
  {
    hide Resolved, TargetsOf, Refs;
    var refs := Refs(net, items);
    forall k | 0 <= k < |Resolved(refs)| ensures PairsOf(page)[k] == PairsFrom(sourceId, Resolved(refs))[k] {
      TargetOf(refs, k);
    }
  }

  lemma SnsFitMeans(net: Network, a: seq<RawServer>, b: seq<RawServer>)
    requires ServersOk(net, b)
    ensures SnsFit(SnsOf(b), Sns(a)) <==> Sns(a) !! Sns(b)
    ensures SetOf(SnsOf(b)) == Sns(b)
  {
    var sns := SnsOf(b);
    assert forall i | 0 <= i < |b| :: sns[i] == SnOf(b[i]) && sns[i] in Sns(b);
    forall i | 0 <= i < |b| ensures sns[i] != "" { assert ServerOk(net, b[i]); }
    forall i, j | 0 <= i < j < |b| ensures sns[i] != sns[j] { assert Follows(b[i], b[j]); }
    forall sn | sn in Sns(b) ensures sn in SetOf(sns) {
      var i :| 0 <= i < |b| && SnOf(b[i]) == sn;
      assert sns[i] == sn;
    }
  }

  lemma SnsOfSum(a: seq<RawServer>, b: seq<RawServer>)
    ensures Sns(a + b) == Sns(a) + Sns(b)
  {
    forall sn | sn in Sns(a) ensures sn in Sns(a + b) {
      var i :| 0 <= i < |a| && SnOf(a[i]) == sn;
      assert SnOf((a + b)[i]) == sn;
    }
    forall sn | sn in Sns(b) ensures sn in Sns(a + b) {
      var i :| 0 <= i < |b| && SnOf(b[i]) == sn;
      assert SnOf((a + b)[|a| + i]) == sn;
    }
  }

  lemma PairsFromSum(sourceId: string, a: seq<Ref>, b: seq<Ref>)
    ensures PairsFrom(sourceId, a + b) == PairsFrom(sourceId, a) + PairsFrom(sourceId, b)
  {
  }

  // How two stretches of a scan combine.
  lemma StretchesCombine(net: Network, sourceId: string, a: seq<RawServer>, b: seq<RawServer>)
    requires ScanOk(net, a) && ScanOk(net, b) && sourceId != ""
    ensures PairsFrom(sourceId, Resolved(Refs(net, a + b))) == PairsFrom(sourceId, Resolved(Refs(net, a))) +
              PairsFrom(sourceId, Resolved(Refs(net, b)))
    ensures Unresolved(Refs(net, a + b)) == Unresolved(Refs(net, a)) + Unresolved(Refs(net, b))
    ensures LinksOk(PairsFrom(sourceId, Resolved(Refs(net, a + b)))) <==> Consistent(Refs(net, a + b))
  {
    FlatMapSum(ServerReader(net), a, b);
    ResolvedSum(Refs(net, a), Refs(net, b));
    PairsFromSum(sourceId, Resolved(Refs(net, a)), Resolved(Refs(net, b)));
    ScannedRefsSound(net, a);
    ScannedRefsSound(net, b);
    assert RefsSound(Refs(net, a) + Refs(net, b));
    LinksOkMeans(sourceId, Refs(net, a + b));
  }

  ghost predicate NextIs(net: Network, servers: seq<RawServer>, start: nat, items: seq<RawServer>) {
    start + |items| <= |servers| && items == servers[start..start + |items|] && ScanOk(net, items)
        && (start < |servers| ==> items != [])
  }

  lemma PaginatesMeans(net: Network, servers: seq<RawServer>, sourceId: string, start: nat, p: Pass,
        pairs: seq<Candidate>, page: UplinkPage, items: seq<RawServer>)
    requires Tracks(net, servers, sourceId, start, p, pairs) && NextIs(net, servers, start, items)
    requires page.nextOffset == start + |items| && page.total == |servers|
    requires page.done == (page.nextOffset == |servers|)
    requires page.firstInst == (if items == [] then 0 else InstOf(items[0])) && page.lastInst == LastInst(items)
    ensures Paginates(p, start, page) <==> (items != [] ==> InstOf(items[0]) > LastInst(servers[..start]))
  {
    if |items| > 1 { assert Follows(items[0], items[|items| - 1]); }
  }

  // The fields of the page cut from these items.
  ghost predicate PageOver(net: Network, servers: seq<RawServer>, sourceId: string, start: nat, items: seq<RawServer>,
        page: UplinkPage) {
    var refs := Refs(net, items);
    && page.links == LinksOf(sourceId, Resolved(refs)) && page.targets == TargetsOf(refs)
    && page.skipped == Unresolved(refs)
    && page.nextOffset == start + |items| && page.total == |servers| && page.done == (page.nextOffset == |servers|)
    && page.firstInst == (if items == [] then 0 else InstOf(items[0])) && page.lastInst == LastInst(items)
    && page.serverSns == SnsOf(items)
  }

  lemma PageForOver(net: Network, servers: seq<RawServer>, sourceId: string, size: nat, start: nat)
    requires TrimSpace(sourceId) != "" && start <= |servers| && size > 0
    ensures var page, items := PageFor(net, servers, sourceId, size, start), Reply(servers, start, size);
            && start + |items| <= |servers| && (page.Some? <==> ScanOk(net, items))
            && (page.Some? ==>
                 NextIs(net, servers, start, items) && PageOver(net, servers, sourceId, start, items, page.value))
  {
  }

  lemma PageFitsHere(net: Network, servers: seq<RawServer>, sourceId: string, start: nat, p: Pass,
        pairs: seq<Candidate>,
                     items: seq<RawServer>, page: UplinkPage)
    requires Tracks(net, servers, sourceId, start, p, pairs) && NextIs(net, servers, start, items)
    requires PageOver(net, servers, sourceId, start, items, page) && sourceId != ""
    ensures PageFits(p, start, page, pairs) <==> ScanOk(net, servers[..start + |items|])
    ensures PageFits(p, start, page, pairs) ==>
              Tracks(net, servers, sourceId, start + |items|, Counted(p, start, page), pairs + PairsOf(page))
  {
    hide Refs, ServersOk, Consistent, Resolved, TargetsOf, LinksOf, LinksOk, SnsFit, Paginates, Sns, SnsOf, SetOf,
      PairsFrom, Unresolved, TrimSpace, PairsOf, InstOf;
    var a := servers[..start];
    assert servers[..start + |items|] == a + items;
    PairsOfPage(net, sourceId, items, page);
    StretchesCombine(net, sourceId, a, items);
    ServersOkSum(net, a, items);
    SnsFitMeans(net, a, items);
    SnsOfSum(a, items);
    PaginatesMeans(net, servers, sourceId, start, p, pairs, page, items);
  }

  /** On an unchanging source the checks a worker makes across pages, together with those the adapter makes
      within each page, come to the definition over the whole list so far: nothing more, nothing less. */
  lemma PageFitsMeans(net: Network, servers: seq<RawServer>, sourceId: string, size: nat, start: nat, p: Pass,
        pairs: seq<Candidate>)
    requires Tracks(net, servers, sourceId, start, p, pairs) && size > 0
    ensures var page := PageFor(net, servers, sourceId, size, start);
            && (page.None? ==> !ScanOk(net, servers))
            && (page.Some? ==>
                  && start <= page.value.nextOffset <= |servers|
                  && (PageFits(p, start, page.value, pairs) <==> ScanOk(net, servers[..page.value.nextOffset]))
                  && (PageFits(p, start, page.value, pairs) ==>
                        Tracks(net, servers, sourceId, page.value.nextOffset, Counted(p, start, page.value),
                            pairs + PairsOf(page.value))))
  {
    hide TrimSpace, ScanOk, PageFor, PageFits, Counted, PairsOf;
    var items, page := Reply(servers, start, size), PageFor(net, servers, sourceId, size, start);
    BlankTrims();
    PageForOver(net, servers, sourceId, size, start);
    ScanOkPart(net, servers, start, start + |items|);
    assert items == servers[start..start + |items|];
    if page.Some? { PageFitsHere(net, servers, sourceId, start, p, pairs, items, page.value); }
  }

  lemma BlankTrims()
    ensures TrimSpace("") == ""
  {
  }

  lemma ScanOkPart(net: Network, servers: seq<RawServer>, i: nat, j: nat)
    requires i <= j <= |servers|
    ensures ScanOk(net, servers) ==> ScanOk(net, servers[i..j]) && ScanOk(net, servers[..j])
  {
    var a, b, c := servers[..i], servers[i..j], servers[j..];
    assert servers[..j] == a + b && servers == (a + b) + c;
    ServersOkSum(net, a, b);
    ServersOkSum(net, a + b, c);
    FlatMapSum(ServerReader(net), a, b);
    FlatMapSum(ServerReader(net), a + b, c);
    ConsistentParts(Refs(net, a), Refs(net, b));
    ConsistentParts(Refs(net, a + b), Refs(net, c));
  }

  // ----- collecting -----

  lemma ChainExtend(fetch: Fetch, pages: seq<UplinkPage>, page: UplinkPage)
    requires Chain(fetch, pages) && OffsetAfter(pages) >= 0 && fetch(OffsetAfter(pages)) == Some(page)
    ensures Chain(fetch, pages + [page]) && OffsetAfter(pages + [page]) == page.nextOffset
    ensures AllPairs(pages + [page]) == AllPairs(pages) + PairsOf(page)
    ensures SkippedIn(pages + [page]) == SkippedIn(pages) + page.skipped
    ensures SumsOf(pages + [page]) == SumsOf(pages) + [SumOf(OffsetAfter(pages), page)]
  {
    var all := pages + [page];
    assert all[..|pages|] == pages;
    forall k | 0 <= k < |all| ensures OffsetAfter(all[..k]) >= 0 && fetch(OffsetAfter(all[..k])) == Some(all[k]) {
      assert all[..k] == pages[..k];
      if k < |pages| { assert OffsetAfter(pages[..k]) >= 0; } else { assert pages[..k] == pages; }
    }
  }

  // What is known of a pass between two pages.
  ghost predicate Passing(fetch: Fetch, pages: seq<UplinkPage>, p: Pass, retain: bool, start: nat) {
    && Chain(fetch, pages) && start == OffsetAfter(pages)
    && LinksKept(AllPairs(pages), p, retain) && p.skipped == SkippedIn(pages)
    && p.digest == SumsOf(pages)
    && (if pages == [] then p.total < 0 else p.total == pages[|pages| - 1].total >= start)
  }

  lemma PassingNext(fetch: Fetch, pages: seq<UplinkPage>, p: Pass, retain: bool, start: nat, page: UplinkPage,
        now: Pass)
    requires Passing(fetch, pages, p, retain, start) && fetch(start) == Some(page)
    requires PageFits(p, start, page, AllPairs(pages))
    requires LinksKept(AllPairs(pages) + PairsOf(page), now, retain) && SameCounts(Counted(p, start, page), now)
    ensures page.nextOffset >= start && Passing(fetch, pages + [page], now, retain, page.nextOffset)
    ensures page.done ==> page.nextOffset == now.total
    ensures !page.done ==> page.nextOffset > start && (pages != [] ==> now.total == p.total)
  {
    hide LinksKept, LinksOk, SnsFit, Chain, AllPairs, SkippedIn, SumsOf, PairsOf, SetOf;
    ChainExtend(fetch, pages, page);
  }

  lemma TracksSame(net: Network, servers: seq<RawServer>, sourceId: string, k: nat, p: Pass, q: Pass,
        pairs: seq<Candidate>)
    requires Tracks(net, servers, sourceId, k, p, pairs) && SameCounts(p, q)
    ensures Tracks(net, servers, sourceId, k, q, pairs)
  {
  }

  lemma NothingTracked(net: Network, servers: seq<RawServer>, sourceId: string, fetch: Fetch, retain: bool)
    ensures Passing(fetch, [], StartPass(), retain, 0)
    ensures TrimSpace(sourceId) != "" ==> Tracks(net, servers, sourceId, 0, StartPass(), AllPairs([]))
  {
  }

  /** One pass over the source. Whatever the source does, a pass that is accepted kept each link once with
      its one owner. When the source stands still, a pass is accepted if and only if the definition accepts
      the whole server list, at any page size; and its links are then the resolved references, in order. */
  method Collect(fetch: Fetch, retain: bool, ghost net: Network, ghost servers: seq<RawServer>,
        ghost sourceId: string, ghost size: nat)
    returns (ok: bool, p: Pass, ghost pages: seq<UplinkPage>, interrupted: bool)
    ensures ok ==>
      && Chain(fetch, pages) && LinksKept(AllPairs(pages), p, retain) && p.skipped == SkippedIn(pages)
      && p.digest == SumsOf(pages)
      && pages != [] && pages[|pages| - 1].done && p.total == pages[|pages| - 1].total == OffsetAfter(pages)
      && PairsSound(AllPairs(pages)) && (retain ==> EachOnce(AllPairs(pages), p.candidates))
    ensures Unchanging(fetch, net, servers, sourceId, size) && !interrupted ==>
              (ok <==> TrimSpace(sourceId) != "" && Admissible(net, servers))
    ensures Unchanging(fetch, net, servers, sourceId, size) && ok ==>
              var refs := Refs(net, servers);
              && p.total == |servers| && p.skipped == |refs| - |Resolved(refs)|
              && PairsSay(AllPairs(pages), sourceId, Resolved(refs))
  {
    hide Chain, AllPairs, LinksKept, Tracks, TrimSpace, ScanOk, PageFits, PageFor, Counted, PairsOf, SumsOf,
      Admissible, PairsSound, PairsSay, EachOnce, Refs, Resolved;
    ScanOkMeans(net, servers);
    p, pages, interrupted := StartPass(), [], false;
    var start: nat := 0;
    ghost var still := Unchanging(fetch, net, servers, sourceId, size) && TrimSpace(sourceId) != "";
    NothingTracked(net, servers, sourceId, fetch, retain);
    while true
      invariant Passing(fetch, pages, p, retain, start) && !interrupted
      invariant still ==> Tracks(net, servers, sourceId, start, p, AllPairs(pages)) && start <= |servers|
      invariant Unchanging(fetch, net, servers, sourceId, size) && !still ==> pages == []
      decreases if pages == [] then 1 else 0, p.total - start
    {
      ghost var was, before := p, pages;
      if still { PageFitsMeans(net, servers, sourceId, size, start, p, AllPairs(pages)); }
      var page := fetch(start);
      BlankHasNoPage(fetch, net, servers, sourceId, size, start);
      if page.None? { return false, p, pages, interrupted; }
      ok, p := AcceptPage(p, start, page.value, retain, AllPairs(pages));
      if !ok {
        if still { ScanOkPart(net, servers, 0, page.value.nextOffset); }
        return;
      }
      PassingNext(fetch, pages, was, retain, start, page.value, p);
      ChainPairs(pages, page.value);
      if still {
        TracksSame(net, servers, sourceId, page.value.nextOffset, Counted(was, start, page.value), p,
            AllPairs(pages) + PairsOf(page.value));
      }
      pages := pages + [page.value];
      start := page.value.nextOffset;
      var stop: bool := *;
      if stop { return false, p, pages, true; }
      if page.value.done { break; }
    }
    if still { WholeScan(net, servers, sourceId, start, p, AllPairs(pages)); }
    PassMeans(AllPairs(pages), p, retain);
    ok := true;
  }

  lemma ChainPairs(pages: seq<UplinkPage>, page: UplinkPage)
    ensures AllPairs(pages + [page]) == AllPairs(pages) + PairsOf(page)
  {
  }

  lemma BlankHasNoPage(fetch: Fetch, net: Network, servers: seq<RawServer>, sourceId: string, size: nat, start: nat)
    ensures Unchanging(fetch, net, servers, sourceId, size) ==>
              fetch(start) == PageFor(net, servers, sourceId, size, start)
    ensures Unchanging(fetch, net, servers, sourceId, size) && TrimSpace(sourceId) == "" ==> fetch(start) == None
    ensures Unchanging(fetch, net, servers, sourceId, size) && fetch(start).Some? ==>
              fetch(start).value.total == |servers|
  {
  }

  lemma WholeScan(net: Network, servers: seq<RawServer>, sourceId: string, start: nat, p: Pass, pairs: seq<Candidate>)
    requires Tracks(net, servers, sourceId, start, p, pairs) && p.total == start
    ensures start == |servers| && ScanOk(net, servers)
    ensures p.skipped == |Refs(net, servers)| - |Resolved(Refs(net, servers))|
    ensures PairsSay(pairs, sourceId, Resolved(Refs(net, servers)))
  {
    hide ScanOk, Refs, Resolved, PairsFrom, PairsSay;
    assert servers[..|servers|] == servers;
    UnresolvedMeans(Refs(net, servers));
    PairsMean(sourceId, Resolved(Refs(net, servers)));
  }

  lemma PassMeans(pairs: seq<Candidate>, p: Pass, retain: bool)
    requires LinksKept(pairs, p, retain)
    ensures PairsSound(pairs) && (retain ==> EachOnce(pairs, p.candidates))
  {
    hide LinksOk, Distinct, PairsSound;
    LinksOkSound(pairs);
    if retain { CandidatesDiffer(pairs); }
  }

  // ----- agreement with the diagnostics -----

  function ClearOf(references: seq<DiagnosticReference>): seq<DiagnosticReference> {
    if references == [] then []
    else
      var front, last := ClearOf(references[..|references| - 1]), references[|references| - 1];
      if last.reason == Clear then front + [last] else front
  }

  lemma {:induction false} ClearAreResolved(net: Network, references: seq<DiagnosticReference>)
    requires forall k | 0 <= k < |references| :: Explained(net, references[k])
    ensures BareOf(ClearOf(references)) == Resolved(BareOf(references))
    ensures |references| - |ClearOf(references)| == Unresolved(BareOf(references))
    decreases |references|
  {
    hide Diagnosed, Resolve;
    if references != [] {
      var n := |references| - 1;
      var front, last := references[..n], references[n];
      ClearAreResolved(net, front);
      BareExtend(front, last);
      assert references == front + [last] && BareOf(references)[..n] == BareOf(front);
      if last.reason == Clear {
        NoReasonMeansResolved(net, last.torSn, last.portName, last.reason);
        BareExtend(ClearOf(front), last);
      }
    }
  }

  /** The clear references are those without a reason, each at the place of its rank among them. */
  lemma {:induction false} ClearInOrder(references: seq<DiagnosticReference>, j: nat)
    requires j < |references| && references[j].reason == Clear
    ensures |ClearOf(references[..j])| < |ClearOf(references)|
    ensures ClearOf(references)[|ClearOf(references[..j])|] == references[j]
    ensures |ClearOf(references[..j + 1])| == |ClearOf(references[..j])| + 1
    decreases |references|
  {
    var n := |references| - 1;
    assert references[..j + 1][..j] == references[..j];
    if j < n {
      assert references[..n][..j] == references[..j] && references[..n][..j + 1] == references[..j + 1];
      ClearInOrder(references[..n], j);
    }
  }

  // The link and owner are those of the diagnosed reference.
  ghost predicate Agrees(pair: Candidate, sourceId: string, d: DiagnosticReference) {
    && pair.identity.sourceId == sourceId && pair.identity.kind == ServerUplink
    && pair.identity.from.sourceId == sourceId && pair.identity.from.entityType == Device
    && pair.identity.from.stableId == d.serverSn
    && pair.identity.to.sourceId == sourceId && pair.identity.to.entityType == Interface
    && pair.identity.to.stableId == d.portUuid
    && pair.tor == d.torSn
  }

  lemma ClearAgree(net: Network, sourceId: string, references: seq<DiagnosticReference>, pairs: seq<Candidate>)
    requires forall k | 0 <= k < |references| :: Explained(net, references[k])
    requires PairsSay(pairs, sourceId, Resolved(BareOf(references)))
    ensures |pairs| == |ClearOf(references)|
    ensures forall k | 0 <= k < |pairs| :: Agrees(pairs[k], sourceId, ClearOf(references)[k])
    ensures |references| - |ClearOf(references)| == |BareOf(references)| - |Resolved(BareOf(references))|
  {
    hide Explained, Resolved, ClearOf;
    var clear := ClearOf(references);
    ClearAreResolved(net, references);
    UnresolvedMeans(BareOf(references));
    forall k | 0 <= k < |pairs| ensures Agrees(pairs[k], sourceId, clear[k]) {
      assert PairSays(pairs[k], sourceId, BareOf(clear)[k]) && clear[k].reason == Clear by { ClearReason(references); }
    }
  }

  lemma {:induction false} ClearReason(references: seq<DiagnosticReference>)
    ensures forall d | d in ClearOf(references) :: d.reason == Clear
    decreases |references|
  {
    if references != [] { ClearReason(references[..|references| - 1]); }
  }

  /** On a source that stands still, for any two page sizes, diagnosing and collecting succeed together; the
      references without a reason are then, in order, exactly the collected links with the same server, port
      and switch, and the others number exactly the references skipped. */
  method CompareWithDiagnostics(fetch: Fetch, net: Network, servers: seq<RawServer>, sourceId: string, pageSize: nat,
        ghost size: nat)
    returns (diagnosed: Option<Diagnostics>, collected: bool, p: Pass, ghost pages: seq<UplinkPage>, interrupted: bool)
    requires pageSize > 0 && Unchanging(fetch, net, servers, sourceId, size)
    ensures !interrupted ==> (diagnosed.Some? <==> collected)
    ensures diagnosed.Some? && collected ==>
      && |AllPairs(pages)| == |ClearOf(diagnosed.value.references)|
      && (forall k | 0 <= k < |AllPairs(pages)| ::
            Agrees(AllPairs(pages)[k], sourceId, ClearOf(diagnosed.value.references)[k]))
      && EachOnce(AllPairs(pages), p.candidates)
      && p.skipped == |diagnosed.value.references| - |ClearOf(diagnosed.value.references)|
      && p.total == diagnosed.value.servers
  {
    hide ScanOk, Admissible, Refs, Resolved, Explained, AllPairs, TrimSpace, PairsSay, PairsSound, EachOnce, RowSays,
      Agrees, ClearOf, BareOf;
    diagnosed := CollectServerUplinkDiagnostics(net, servers, sourceId, pageSize);
    collected, p, pages, interrupted := Collect(fetch, true, net, servers, sourceId, size);
    if diagnosed.Some? && collected {
      ClearAgree(net, sourceId, diagnosed.value.references, AllPairs(pages));
    }
  }

  // ----- endpoints -----

  const SERVER_TYPE := Integer(52)

  const NETWORK_TYPE := Integer(54)

  const PHYSICAL_PORT := Text("physics")

  function TorOf(sourceId: string, tor: string): Identity {
    Identity(sourceId, Device, tor)
  }

  function PropertyOf(g: Graph, v: Identity, name: string): Value {
    if v in g.vertices && name in g.vertices[v].properties then g.vertices[v].properties[name] else Null
  }

  // The owners the ownership query finds for a port, with the server also present.
  function OwnersOf(g: Graph, server: Identity, port: Identity): set<RelationIdentity> {
    set e | e in g.edges && e.kind == OwnsInterface && e.sourceId == server.sourceId && e.to == port
         && e.from.entityType == Device && e.from in g.vertices && server in g.vertices && port in g.vertices
  }

  predicate EndpointsValid(g: Graph, server: Identity, tor: Identity, port: Identity) {
    && |OwnersOf(g, server, port)| == 1
    && (exists e | e in OwnersOf(g, server, port) :: e.from == tor)
    && PropertyOf(g, server, "parent_type_id") == SERVER_TYPE && PropertyOf(g, tor, "parent_type_id") == NETWORK_TYPE
    && PropertyOf(g, port, "port_type") == PHYSICAL_PORT
  }

  // The ownership is the only one of the port by a device that is there, and both ends of the link are.
  ghost predicate OwnedOnlyBy(g: Graph, server: Identity, port: Identity, owner: RelationIdentity) {
    && server in g.vertices && port in g.vertices
    && Owns(g, server.sourceId, port, owner)
    && forall e | e in g.edges && Owns(g, server.sourceId, port, e) :: e == owner
  }

  ghost predicate Owns(g: Graph, sourceId: string, port: Identity, e: RelationIdentity) {
    && e in g.edges && e.kind == OwnsInterface && e.sourceId == sourceId && e.to == port
    && e.from.entityType == Device && e.from in g.vertices
  }

  ghost predicate HasProperty(g: Graph, v: Identity, name: string, value: Value) {
    v in g.vertices && name in g.vertices[v].properties && g.vertices[v].properties[name] == value
  }

  /** The port's only owner is the switch; the server, the switch and the port are classified as such. */
  ghost predicate EndpointsHold(g: Graph, server: Identity, tor: Identity, port: Identity) {
    && (exists owner :: OwnedOnlyBy(g, server, port, owner) && owner.from == tor)
    && HasProperty(g, server, "parent_type_id", Integer(52))
    && HasProperty(g, tor, "parent_type_id", Integer(54))
    && HasProperty(g, port, "port_type", Text("physics"))
  }

  lemma OwnsIsEdge(g: Graph, sourceId: string, port: Identity, e: RelationIdentity)
    requires Owns(g, sourceId, port, e)
    ensures e in g.edges
  {
  }

  lemma OwnersMean(g: Graph, server: Identity, port: Identity, owner: RelationIdentity)
    ensures OwnersOf(g, server, port) == {owner} <==> OwnedOnlyBy(g, server, port, owner)
  {
    var owners := OwnersOf(g, server, port);
    forall e ensures e in owners <==> server in g.vertices && port in g.vertices && Owns(g, server.sourceId, port, e) {}
    hide OwnersOf, Owns;
    if owners == {owner} { assert owner in owners; }
    if OwnedOnlyBy(g, server, port, owner) {
      assert owner in owners;
      forall e | e in owners ensures e == owner { OwnsIsEdge(g, server.sourceId, port, e); }
    }
  }

  lemma OneOwnerMeans(g: Graph, server: Identity, port: Identity)
    ensures |OwnersOf(g, server, port)| == 1 <==> exists owner :: OwnedOnlyBy(g, server, port, owner)
  {
    var owners := OwnersOf(g, server, port);
    hide OwnersOf, OwnedOnlyBy;
    if |owners| == 1 {
      var owner :| owner in owners;
      assert |owners - {owner}| == 0;
      assert owners == {owner};
      OwnersMean(g, server, port, owner);
    }
    if owner :| OwnedOnlyBy(g, server, port, owner) { OwnersMean(g, server, port, owner); }
  }

  lemma PropertyMeans(g: Graph, v: Identity, name: string, value: Value)
    requires value != Null
    ensures PropertyOf(g, v, name) == value <==> HasProperty(g, v, name, value)
  {
  }

  lemma EndpointsMean(g: Graph, server: Identity, tor: Identity, port: Identity)
    ensures EndpointsValid(g, server, tor, port) <==> EndpointsHold(g, server, tor, port)
  {
    PropertyMeans(g, server, "parent_type_id", Integer(52));
    PropertyMeans(g, tor, "parent_type_id", Integer(54));
    PropertyMeans(g, port, "port_type", Text("physics"));
    OneOwnerMeans(g, server, port);
    hide OwnersOf, OwnedOnlyBy, PropertyOf, HasProperty;
    if owner :| OwnedOnlyBy(g, server, port, owner) {
      OwnersMean(g, server, port, owner);
      forall other | OwnedOnlyBy(g, server, port, other) ensures other == owner { OwnersMean(g, server, port, other); }
    }
  }

  predicate UsableOne(g: Graph, sourceId: string, c: Candidate) {
    && c.identity.from in g.vertices && c.identity.to in g.vertices && TorOf(sourceId, c.tor) in g.vertices
    && EndpointsValid(g, c.identity.from, TorOf(sourceId, c.tor), c.identity.to)
  }

  // The candidates whose three endpoints exist and whose ownership holds, in order.
  function Usable(g: Graph, sourceId: string, candidates: seq<Candidate>): (r: seq<RelationIdentity>)
    ensures |r| <= |candidates|
  {
    if candidates == [] then []
    else
      var front, last := Usable(g, sourceId, candidates[..|candidates| - 1]), candidates[|candidates| - 1];
      if UsableOne(g, sourceId, last) then front + [last.identity] else front
  }

  /** The link may be written: both its ends and the switch are there, and the ownership holds. */
  ghost predicate MayWrite(g: Graph, sourceId: string, c: Candidate) {
    && c.identity.from in g.vertices && c.identity.to in g.vertices
    && Identity(sourceId, Device, c.tor) in g.vertices
    && EndpointsHold(g, c.identity.from, Identity(sourceId, Device, c.tor), c.identity.to)
  }

  ghost predicate Writable(g: Graph, sourceId: string, links: seq<Candidate>, e: RelationIdentity) {
    exists c | c in links :: c.identity == e && MayWrite(g, sourceId, c)
  }

  lemma {:induction false} UsableMeans(g: Graph, sourceId: string, candidates: seq<Candidate>)
    ensures forall e :: e in Usable(g, sourceId, candidates) <==> Writable(g, sourceId, candidates, e)
    decreases |candidates|
  {
    hide EndpointsValid, EndpointsHold;
    if candidates != [] {
      var n := |candidates| - 1;
      var c, front := candidates[n], candidates[..n];
      assert candidates == front + [c];
      UsableMeans(g, sourceId, front);
      EndpointsMean(g, c.identity.from, TorOf(sourceId, c.tor), c.identity.to);
      assert UsableOne(g, sourceId, c) <==> MayWrite(g, sourceId, c);
      hide UsableOne, MayWrite;
    }
  }

  function UpsertAll(edges: map<RelationIdentity, Row>, identities: seq<RelationIdentity>,
        row: Row): map<RelationIdentity, Row> {
    if identities == [] then edges
    else Upsert(UpsertAll(edges, identities[..|identities| - 1], row), identities[|identities| - 1], row)
  }

  /** The edges are there, and no other has changed: a new one has the run's stamps, an old one keeps the first and
      takes the second, unless it has a newer one. */
  ghost predicate EdgesWritten(before: map<RelationIdentity, Row>, after: map<RelationIdentity, Row>,
        written: iset<RelationIdentity>, snapshot: Time) {
    forall e :: EdgeWritten(before, after, e, e in written, snapshot)
  }

  ghost predicate EdgeWritten(before: map<RelationIdentity, Row>, after: map<RelationIdentity, Row>,
        e: RelationIdentity, written: bool, snapshot: Time) {
    && (e in after <==> e in before || written)
    && (e in after ==>
          if !written then after[e] == before[e]
          else if e !in before then after[e].createdAt == snapshot && after[e].syncedAt == snapshot
          else if before[e].syncedAt > snapshot then after[e] == before[e]
          else after[e].createdAt == before[e].createdAt && after[e].syncedAt == snapshot)
  }

  lemma {:induction false} UpsertAllMeans(edges: map<RelationIdentity, Row>, identities: seq<RelationIdentity>,
        snapshot: Time, e: RelationIdentity)
    ensures var after := UpsertAll(edges, identities, Row(map[], snapshot, snapshot));
            EdgeWritten(edges, after, e, e in identities, snapshot)
    decreases |identities|
  {
    if identities != [] {
      var n, row := |identities| - 1, Row(map[], snapshot, snapshot);
      var front := UpsertAll(edges, identities[..n], row);
      UpsertAllMeans(edges, identities[..n], snapshot, e);
      UpsertMeans(front, identities[n], row);
      assert e in identities <==> e in identities[..n] || e == identities[n];
      hide Upsert;
    }
  }

  // Some of the edges were written, the last perhaps only in part.
  ghost predicate PartlyWritten(before: map<RelationIdentity, Row>, after: map<RelationIdentity, Row>,
        identities: seq<RelationIdentity>, row: Row) {
    exists n | 0 <= n <= |identities| :: WrittenUpTo(before, after, identities, row, n)
  }

  ghost predicate WrittenUpTo(before: map<RelationIdentity, Row>, after: map<RelationIdentity, Row>,
        identities: seq<RelationIdentity>, row: Row, n: nat) {
    && n <= |identities|
    && (|| after == UpsertAll(before, identities[..n], row)
        || (n < |identities| && after == InsertIfAbsent(UpsertAll(before, identities[..n], row), identities[n], row)))
  }

  datatype UplinkResult = UplinkResult(edges: nat, servers: int, skipped: int, missingEndpoints: nat)

  // As many distinct relation identifiers as distinct candidates.
  lemma {:induction false} IdentitiesCounted(candidates: seq<Candidate>)
    requires LinksOk(candidates) && forall i, j | 0 <= i < j < |candidates| :: candidates[i] != candidates[j]
    ensures |IdentitiesIn(candidates)| == |candidates|
    decreases |candidates|
  {
    if candidates != [] {
      var n := |candidates| - 1;
      var front, last := candidates[..n], candidates[n];
      assert candidates == front + [last];
      LinksOkPrefix(front, [last]);
      IdentitiesCounted(front);
      InGrow(front, last);
      assert last.identity !in IdentitiesIn(front) by { NewIdentity(front, last); }
    }
  }

  lemma NewIdentity(front: seq<Candidate>, last: Candidate)
    requires LinksOk(front + [last]) && last !in front
    ensures last.identity !in IdentitiesIn(front)
  {
    forall k | 0 <= k < |front| ensures front[k].identity != last.identity {
      assert !TwoOwners((front + [last])[k], (front + [last])[|front|]);
    }
  }

  lemma DistinctLinks(pairs: seq<Candidate>)
    requires LinksOk(pairs)
    ensures |IdentitiesIn(pairs)| == |Distinct(pairs)|
  {
    hide Distinct, LinksOk, IdentitiesIn;
    var d := Distinct(pairs);
    LinksOkWithin(d, pairs);
    IdentitiesCounted(d);
    SameIdentities(d, pairs);
    SameIdentities(pairs, d);
    assert IdentitiesIn(d) == IdentitiesIn(pairs);
  }

  // Distinct candidates name distinct relations.
  lemma CandidatesDiffer(pairs: seq<Candidate>)
    requires LinksOk(pairs)
    ensures forall i, j | 0 <= i < j < |Distinct(pairs)| :: Distinct(pairs)[i].identity != Distinct(pairs)[j].identity
  {
    var d := Distinct(pairs);
    LinksOkWithin(d, pairs);
    forall i, j | 0 <= i < j < |d| ensures d[i].identity != d[j].identity {
      assert !TwoOwners(d[i], d[j]);
    }
  }

  // The collector makes server uplinks of its source and nothing else.
  ghost predicate UplinksOnly(fetch: Fetch, sourceId: string) {
    forall start: nat :: fetch(start).Some? ==>
      forall u | u in fetch(start).value.links :: u.kind == ServerUplink && u.sourceId == sourceId
  }

  // At this offset the source looked like this, whatever it looked like at others.
  ghost predicate PageOfSource(fetch: Fetch, sourceId: string, start: nat, net: Network, servers: seq<RawServer>,
        size: nat) {
    fetch(start) == PageFor(net, servers, sourceId, size, start)
  }

  ghost predicate Collected(fetch: Fetch, sourceId: string, start: nat) {
    exists net, servers, size :: PageOfSource(fetch, sourceId, start, net, servers, size)
  }

  // So it is for the collector's own pages, also of a source that changes between any two of them.
  lemma CollectorMakesUplinks(fetch: Fetch, sourceId: string)
    requires forall start: nat :: Collected(fetch, sourceId, start)
    ensures UplinksOnly(fetch, sourceId)
  {
    forall start: nat | fetch(start).Some?
      ensures forall u | u in fetch(start).value.links :: u.kind == ServerUplink && u.sourceId == sourceId
    {
      assert Collected(fetch, sourceId, start);
      var net, servers, size :| PageOfSource(fetch, sourceId, start, net, servers, size);
    }
  }

  lemma {:induction false} PairsAreUplinks(fetch: Fetch, sourceId: string, pages: seq<UplinkPage>)
    requires UplinksOnly(fetch, sourceId) && Chain(fetch, pages)
    ensures forall c | c in AllPairs(pages) :: c.identity.kind == ServerUplink && c.identity.sourceId == sourceId
    decreases |pages|
  {
    if pages != [] {
      var n := |pages| - 1;
      assert pages[..n][..n] == pages[..n];
      ChainFront(fetch, pages);
      PairsAreUplinks(fetch, sourceId, pages[..n]);
      assert OffsetAfter(pages[..n]) >= 0 && fetch(OffsetAfter(pages[..n])) == Some(pages[n]);
      assert forall k | 0 <= k < |pages[n].links| :: PairsOf(pages[n])[k].identity in pages[n].links;
    }
  }

  lemma ChainFront(fetch: Fetch, pages: seq<UplinkPage>)
    requires Chain(fetch, pages) && pages != []
    ensures Chain(fetch, pages[..|pages| - 1])
  {
    var front := pages[..|pages| - 1];
    forall k | 0 <= k < |front|
      ensures OffsetAfter(front[..k]) >= 0
          && fetch(OffsetAfter(front[..k])) == Some(front[k])
    {
      assert front[..k] == pages[..k];
      assert OffsetAfter(pages[..k]) >= 0;
    }
  }

  lemma LinksOkWithin(a: seq<Candidate>, b: seq<Candidate>)
    requires LinksOk(b) && forall c | c in a :: c in b
    ensures LinksOk(a)
  {
    forall k | 0 <= k < |a| ensures IdOk(a[k].identity) && a[k].tor != "" {
      assert a[k] in b;
      var i :| 0 <= i < |b| && b[i] == a[k];
    }
    forall i, j | 0 <= i < |a| && 0 <= j < |a| ensures !TwoOwners(a[i], a[j]) {
      assert a[i] in b && a[j] in b;
      var m :| 0 <= m < |b| && b[m] == a[i];
      var n :| 0 <= n < |b| && b[n] == a[j];
      assert !TwoOwners(b[m], b[n]);
    }
  }

  lemma SameIdentities(a: seq<Candidate>, b: seq<Candidate>)
    requires forall c | c in a :: c in b
    ensures IdentitiesIn(a) <= IdentitiesIn(b)
  {
    forall k | 0 <= k < |a| ensures a[k].identity in IdentitiesIn(b) {
      assert a[k] in b;
      var i :| 0 <= i < |b| && b[i] == a[k];
    }
  }

  lemma WrittenMeans(g: Graph, after: map<RelationIdentity, Row>, sourceId: string, links: seq<Candidate>,
        snapshot: Time)
    requires after == UpsertAll(g.edges, Usable(g, sourceId, Distinct(links)), Row(map[], snapshot, snapshot))
    ensures EdgesWritten(g.edges, after, (iset e | Writable(g, sourceId, links, e)), snapshot)
  {
    var usable := Usable(g, sourceId, Distinct(links));
    var written := iset e | Writable(g, sourceId, links, e);
    UsableMeans(g, sourceId, Distinct(links));
    forall e ensures e in usable <==> e in written {}
    hide Usable, UpsertAll, EdgeWritten;
    forall e ensures EdgeWritten(g.edges, after, e, e in written, snapshot) {
      UpsertAllMeans(g.edges, usable, snapshot, e);
    }
  }

  class ServerUplinkWorker {
    const graph: TopologyGraph

    constructor (graph: TopologyGraph)
      ensures this.graph == graph
    {
      this.graph := graph;
    }

    method ReadEndpoints(server: Identity, tor: Identity, port: Identity) returns (answer: Option<bool>)
      ensures answer.Some? ==> answer.value == EndpointsValid(graph.Contents(), server, tor, port)
      ensures answer.Some? ==> answer.value == EndpointsHold(graph.Contents(), server, tor, port)
    {
      EndpointsMean(graph.Contents(), server, tor, port);
      hide EndpointsHold, EndpointsValid;
      var failed: bool := *;
      if failed || server.entityType != Device || tor.entityType != Device || port.entityType != Interface
         || server.sourceId != tor.sourceId || server.sourceId != port.sourceId
      {
        return None;
      }
      answer := Some(EndpointsValid(graph.Contents(), server, tor, port));
    }

    // One endpoint, read from the graph unless it has been read before.
    method Exists(endpoint: Identity, existing: map<Identity, bool>)
      returns (answer: Option<bool>, now: map<Identity, bool>)
      requires forall v | v in existing :: existing[v] == (v in graph.vertices)
      ensures answer.Some? ==> answer.value == (endpoint in graph.vertices)
      ensures forall v | v in now :: now[v] == (v in graph.vertices)
      ensures answer.Some? ==> endpoint in now
    {
      now := existing;
      if endpoint !in existing {
        var read := graph.VertexExists(endpoint);
        if read.Err? { return None, now; }
        now := now[endpoint := read.value];
      }
      answer := Some(now[endpoint]);
    }

    method CheckCandidate(sourceId: string, c: Candidate, existing: map<Identity, bool>)
      returns (usable: Option<bool>, now: map<Identity, bool>)
      requires forall v | v in existing :: existing[v] == (v in graph.vertices)
      ensures usable.Some? ==> usable.value == UsableOne(graph.Contents(), sourceId, c)
      ensures forall v | v in now :: now[v] == (v in graph.vertices)
    {
      var from, to, tor;
      from, now := Exists(c.identity.from, existing);
      if from.None? { return None, now; }
      to, now := Exists(c.identity.to, now);
      if to.None? { return None, now; }
      tor, now := Exists(TorOf(sourceId, c.tor), now);
      if tor.None? { return None, now; }
      if !(from.value && to.value && tor.value) { return Some(false), now; }
      usable := ReadEndpoints(c.identity.from, TorOf(sourceId, c.tor), c.identity.to);
    }

    // Reads everything before anything is written.
    method CheckAll(sourceId: string, candidates: seq<Candidate>)
      returns (ok: bool, valid: seq<RelationIdentity>, missing: nat)
      ensures ok ==> valid == Usable(graph.Contents(), sourceId, candidates) && |valid| + missing == |candidates|
    {
      var existing: map<Identity, bool> := map[];
      ok, valid, missing := true, [], 0;
      for i := 0 to |candidates|
        invariant ok && valid == Usable(graph.Contents(), sourceId, candidates[..i]) && |valid| + missing == i
        invariant forall v | v in existing :: existing[v] == (v in graph.vertices)
      {
        assert candidates[..i + 1][..i] == candidates[..i];
        var stop: bool := *;
        if stop { return false, valid, missing; }
        var usable;
        usable, existing := CheckCandidate(sourceId, candidates[i], existing);
        if usable.None? { return false, valid, missing; }
        if usable.value { valid := valid + [candidates[i].identity]; } else { missing := missing + 1; }
      }
      assert candidates[..|candidates|] == candidates;
    }

    method WriteAll(valid: seq<RelationIdentity>, snapshot: Time) returns (ok: bool, written: nat)
      modifies graph`edges
      ensures PartlyWritten(old(graph.edges), graph.edges, valid, Row(map[], snapshot, snapshot))
      ensures ok ==>
                written == |valid| && graph.edges == UpsertAll(old(graph.edges), valid, Row(map[], snapshot, snapshot))
    {
      ghost var before, row := graph.edges, Row(map[], snapshot, snapshot);
      written := 0;
      assert UpsertAll(before, valid[..0], row) == before;
      while written < |valid|
        invariant written <= |valid| && graph.edges == UpsertAll(before, valid[..written], row)
      {
        assert valid[..written + 1][..written] == valid[..written];
        assert WrittenUpTo(before, graph.edges, valid, row, written);
        var stop: bool := *;
        if stop || !RelationOk(valid[written], snapshot, snapshot) { return false, written; }
        var upserted := graph.UpsertRelation(valid[written], map[], snapshot, snapshot);
        if !upserted {
          assert WrittenUpTo(before, graph.edges, valid, row, written)
              || WrittenUpTo(before, graph.edges, valid, row, written + 1);
          return false, written;
        }
        written := written + 1;
      }
      assert valid[..|valid|] == valid;
      assert WrittenUpTo(before, graph.edges, valid, row, written);
      ok := true;
    }

    /** The whole of a run. No edge is written unless every endpoint read succeeded; on success the edges
        written are exactly the distinct candidates whose endpoints and ownership hold, and the counts add up. */
    method Run(sourceId: string, snapshot: Time, first: Fetch, second: Fetch)
      returns (ok: bool, result: UplinkResult, ghost pages: seq<UplinkPage>, ghost again: seq<UplinkPage>,
            ghost allRead: bool)
      modifies graph`edges
      ensures !allRead ==> !ok && graph.edges == old(graph.edges)
      ensures allRead ==>
        PartlyWritten(old(graph.edges), graph.edges,
            Usable(old(graph.Contents()), sourceId, Distinct(AllPairs(pages))), Row(map[], snapshot, snapshot))
      ensures ok ==>
        && Chain(first, pages) && Chain(second, again)
        && var usable := Usable(old(graph.Contents()), sourceId, Distinct(AllPairs(pages)));
           && graph.edges == UpsertAll(old(graph.edges), usable, Row(map[], snapshot, snapshot))
           && result.edges == |usable|
           && result.edges + result.missingEndpoints == |IdentitiesIn(AllPairs(pages))|
           && result.skipped == SkippedIn(pages) + result.missingEndpoints
           && result.servers == OffsetAfter(pages) == OffsetAfter(again) && SkippedIn(again) == SkippedIn(pages)
           && AllPairs(again) == AllPairs(pages)
      ensures ok ==>
        EdgesWritten(old(graph.edges), graph.edges,
          (iset e | Writable(old(graph.Contents()), sourceId, AllPairs(pages), e)), snapshot)
    {
      hide Chain, LinksOk, AllPairs, SkippedIn, SumsOf, Usable, PartlyWritten, IdentitiesIn, Distinct, UpsertAll,
        EdgesWritten, Writable;
      ok, result, pages, again, allRead := false, UplinkResult(0, 0, 0, 0), [], [], false;
      var stop: bool := *;
      if stop || snapshot == ZERO_TIME { return; }
      var collected, p;
      var interrupted;
      collected, p, pages, interrupted := Collect(first, true, Network(map[], map[]), [], "", 0);
      result := result.(servers := p.total, skipped := p.skipped);
      if !collected { return; }
      DistinctLinks(AllPairs(pages));
      var read, valid, missing := CheckAll(sourceId, p.candidates);
      if !read { return; }
      allRead := true;
      result := result.(skipped := result.skipped + missing, missingEndpoints := missing);
      var wrote, written := WriteAll(valid, snapshot);
      result := result.(edges := written);
      if !wrote { return; }
      var verified, q;
      verified, q, again, interrupted := Collect(second, false, Network(map[], map[]), [], "", 0);
      if !verified { return; }
      if q.digest != p.digest || q.total != p.total || q.skipped != p.skipped { return; }
      SumsGivePairs(again, pages);
      stop := *;
      if stop { return; }
      WrittenMeans(old(graph.Contents()), graph.edges, sourceId, AllPairs(pages), snapshot);
      ok := true;
    }
  }
}
