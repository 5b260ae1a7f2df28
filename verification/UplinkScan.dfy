/**
 The server uplink references of a data center: which server port goes to which switch port. The
 production collector reads them page by page with a switch cache per page; the diagnostics read
 them in one scan with one cache. Both are held to one definition over the whole server list.
 */
module UplinkScan {
  import opened Base
  import opened Seqs
  import opened Text
  import opened Graph
  import opened TorPorts

  datatype RawEntry = RawEntry(sn: Field<string>, names: Option<seq<Option<string>>>)

  datatype RawServer = RawServer(
    instId: Field<int>, category: Field<int>, sn: Field<string>, entries: Option<seq<Option<RawEntry>>>)

  // A reference: its server, its switch, the port name it gives, and the identifier that name resolves to, blank
  // when it does not. An entry without a switch or a name is one reference that keeps all its names.
  datatype Ref = Ref(server: string, serverInst: int, tor: string, name: string, names: seq<string>, uuid: string)

  const SERVER_CATEGORY := 52

  const MAX_PAGE := 200

  // ----- references -----

  function NameOf(name: Option<string>): string {
    if name.Some? then TrimSpace(name.value) else ""
  }

  function NamesOf(names: seq<Option<string>>): seq<string> {
    seq(|names|, k requires 0 <= k < |names| => NameOf(names[k]))
  }

  function NameRefs(net: Network, server: RawServer, tor: string, names: seq<Option<string>>): seq<Ref> {
    seq(|names|, k requires 0 <= k < |names| =>
      Ref(SnOf(server), InstOf(server), tor, NameOf(names[k]), [], Resolve(net, tor, NameOf(names[k]))))
  }

  predicate EntryDecodes(entry: Option<RawEntry>) {
    entry.Some? && TextOf(entry.value.sn).Some? && entry.value.names.Some?
  }

  // A whole entry without switch or names counts as one unresolved reference.
  function EntryRefs(net: Network, server: RawServer, entry: Option<RawEntry>): seq<Ref> {
    if !EntryDecodes(entry) then []
    else
      var tor, names := TextOf(entry.value.sn).value, entry.value.names.value;
      if tor == "" || names == [] then [SkippedEntry(server, tor, names)] else NameRefs(net, server, tor, names)
  }

  function SkippedEntry(server: RawServer, tor: string, names: seq<Option<string>>): Ref {
    Ref(SnOf(server), InstOf(server), tor, "", NamesOf(names), "")
  }

  function EntryReader(net: Network, server: RawServer): Option<RawEntry> -> seq<Ref> {
    entry => EntryRefs(net, server, entry)
  }

  function SnOf(server: RawServer): string {
    if TextOf(server.sn).Some? then TextOf(server.sn).value else ""
  }

  function InstOf(server: RawServer): int {
    if server.instId.Value? then server.instId.value else 0
  }

  function EntriesOf(server: RawServer): seq<Option<RawEntry>> {
    if server.entries.Some? then server.entries.value else []
  }

  function ServerRefs(net: Network, server: RawServer): seq<Ref> {
    FlatMap(EntryReader(net, server), EntriesOf(server))
  }

  function ServerReader(net: Network): RawServer -> seq<Ref> {
    server => ServerRefs(net, server)
  }

  // Every reference of a list of servers, in order.
  function Refs(net: Network, servers: seq<RawServer>): seq<Ref> {
    FlatMap(ServerReader(net), servers)
  }

  function Resolved(refs: seq<Ref>): (r: seq<Ref>)
    ensures |r| <= |refs|
  {
    if refs == [] then []
    else
      var front := Resolved(refs[..|refs| - 1]);
      if refs[|refs| - 1].uuid == "" then front else front + [refs[|refs| - 1]]
  }

  function Unresolved(refs: seq<Ref>): nat {
    |refs| - |Resolved(refs)|
  }

  lemma {:induction false} ResolvedSum(a: seq<Ref>, b: seq<Ref>)
    ensures Resolved(a + b) == Resolved(a) + Resolved(b)
    ensures Unresolved(a + b) == Unresolved(a) + Unresolved(b)
    decreases |b|
  {
    if b == [] {
      assert a + b == a;
    } else {
      var n := |b| - 1;
      ResolvedSum(a, b[..n]);
      assert (a + b)[..|a + b| - 1] == a + b[..n];
      if b[n].uuid != "" { Assoc(Resolved(a), Resolved(b[..n]), [b[n]]); }
    }
  }

  // ----- what a scan accepts -----

  predicate EntryOk(net: Network, entry: Option<RawEntry>) {
    && EntryDecodes(entry)
    && (TextOf(entry.value.sn).value != "" && entry.value.names.value != [] ==>
         Resolvable(net, TextOf(entry.value.sn).value))
  }

  predicate EntriesOk(net: Network, entries: seq<Option<RawEntry>>) {
    forall i | 0 <= i < |entries| :: EntryOk(net, entries[i])
  }

  predicate ServerOk(net: Network, server: RawServer) {
    && IntegerOf(server.instId).Some? && InstOf(server) > 0
    && IntegerOf(server.category) == Some(SERVER_CATEGORY)
    && TextOf(server.sn).Some? && SnOf(server) != ""
    && server.entries.Some? && EntriesOk(net, server.entries.value)
  }

  predicate Follows(a: RawServer, b: RawServer) {
    InstOf(a) < InstOf(b) && SnOf(a) != SnOf(b)
  }

  // Every server well formed, in strictly increasing instance order, no serial number twice.
  predicate ServersOk(net: Network, servers: seq<RawServer>) {
    && (forall i | 0 <= i < |servers| :: ServerOk(net, servers[i]))
    && (forall i, j | 0 <= i < j < |servers| :: Follows(servers[i], servers[j]))
  }

  predicate Conflict(a: Ref, b: Ref) {
    a.uuid != "" && a.uuid == b.uuid && a.tor != b.tor
  }

  // No port identifier is claimed by two switches.
  predicate Consistent(refs: seq<Ref>) {
    forall i, j | 0 <= i < |refs| && 0 <= j < |refs| :: !Conflict(refs[i], refs[j])
  }

  predicate ScanOk(net: Network, servers: seq<RawServer>) {
    ServersOk(net, servers) && Consistent(Refs(net, servers))
  }

  function Sns(servers: seq<RawServer>): set<string> {
    set i | 0 <= i < |servers| :: SnOf(servers[i])
  }

  function LastInst(servers: seq<RawServer>): int {
    if servers == [] then 0 else InstOf(servers[|servers| - 1])
  }

  lemma PositiveInst(net: Network, server: RawServer)
    ensures ServerOk(net, server) ==> InstOf(server) > 0
  {
  }

  lemma ServersOkStep(net: Network, servers: seq<RawServer>, server: RawServer)
    ensures ServersOk(net, servers + [server]) <==>
              ServersOk(net, servers) && ServerOk(net, server) && InstOf(server) > LastInst(servers)
                  && SnOf(server) !in Sns(servers)
  {
    ServersOkSum(net, servers, [server]);
    PositiveInst(net, server);
    assert Sns([server]) == {SnOf(server)} by { assert SnOf([server][0]) in Sns([server]); }
    assert ServersOk(net, [server]) <==> ServerOk(net, server) by { assert [server][0] == server; }
  }

  /** Pages can be checked one by one: a list is well formed exactly when its first part is, its second
      part is, and the second goes on where the first ends. */
  lemma ServersOkSum(net: Network, a: seq<RawServer>, b: seq<RawServer>)
    ensures ServersOk(net, a + b) <==>
              && ServersOk(net, a) && ServersOk(net, b)
              && (b != [] ==> InstOf(b[0]) > LastInst(a)) && Sns(a) !! Sns(b)
  {
    ServersOkSplit(net, a, b);
    ServersOkJoin(net, a, b);
  }

  lemma ServersOkSplit(net: Network, a: seq<RawServer>, b: seq<RawServer>)
    ensures ServersOk(net, a + b) ==>
              && ServersOk(net, a) && ServersOk(net, b)
              && (b != [] ==> InstOf(b[0]) > LastInst(a)) && Sns(a) !! Sns(b)
  {
    hide ServerOk;
    var all := a + b;
    if ServersOk(net, all) {
      forall i, j | 0 <= i < |a| && 0 <= j < |b| ensures Follows(a[i], b[j]) { assert Follows(all[i], all[|a| + j]); }
      forall i | 0 <= i < |a| ensures ServerOk(net, a[i]) { assert ServerOk(net, all[i]); }
      forall i | 0 <= i < |b| ensures ServerOk(net, b[i]) { assert ServerOk(net, all[|a| + i]); }
      forall i, j | 0 <= i < j < |a| ensures Follows(a[i], a[j]) { assert Follows(all[i], all[j]); }
      forall i, j | 0 <= i < j < |b| ensures Follows(b[i], b[j]) { assert Follows(all[|a| + i], all[|a| + j]); }
      if b != [] { PositiveInst(net, b[0]); }
    }
  }

  lemma ServersOkJoin(net: Network, a: seq<RawServer>, b: seq<RawServer>)
    ensures ServersOk(net, a) && ServersOk(net, b) && (b != [] ==> InstOf(b[0]) > LastInst(a)) && Sns(a) !! Sns(b) ==>
              ServersOk(net, a + b)
  {
    hide ServerOk;
    var all := a + b;
    forall i, j | 0 <= i < j < |all| && ServersOk(net, a) && ServersOk(net, b)
         && (b != [] ==> InstOf(b[0]) > LastInst(a)) && Sns(a) !! Sns(b)
      ensures Follows(all[i], all[j])
    {
      if i < |a| <= j {
        assert SnOf(a[i]) in Sns(a) && SnOf(b[j - |a|]) in Sns(b);
        assert i == |a| - 1 || Follows(a[i], a[|a| - 1]);
        assert j == |a| || Follows(b[0], b[j - |a|]);
      } else if j < |a| {
        assert Follows(a[i], a[j]);
      } else {
        assert Follows(b[i - |a|], b[j - |a|]);
      }
    }
  }

  // ----- what the raw lists say -----

  ghost predicate NameReads(name: Option<string>, text: string) {
    if name.None? then text == "" else TrimSpace(name.value) == text
  }

  /** The reference is the one this server's entry makes with its n-th name, or with none of them where the entry
      has no switch or no name; its identifier is the one the name stands for on that switch. */
  ghost predicate RefersTo(net: Network, server: RawServer, entry: RawEntry, n: nat, ref: Ref) {
    && Reads(server.sn, ref.server) && server.instId == Value(ref.serverInst) && Reads(entry.sn, ref.tor)
    && entry.names.Some?
    && var names := entry.names.value;
       if ref.tor == "" || names == [] then
         && ref.name == "" && ref.uuid == "" && |ref.names| == |names|
         && forall m | 0 <= m < |names| :: NameReads(names[m], ref.names[m])
       else
         && n < |names| && NameReads(names[n], ref.name) && ref.names == []
         && forall uuid | uuid != "" :: ref.uuid == uuid <==> StandsFor(net, ref.tor, ref.name, uuid)
  }

  // How many references an entry makes, the entries before one make, and the servers before one make.
  ghost function Mentions(entry: Option<RawEntry>): nat {
    if entry.None? || entry.value.names.None? then 0
    else if Reads(entry.value.sn, "") || entry.value.names.value == [] then 1
    else |entry.value.names.value|
  }

  ghost function EntriesBefore(entries: seq<Option<RawEntry>>, e: nat): nat
    requires e <= |entries|
  {
    if e == 0 then 0 else EntriesBefore(entries, e - 1) + Mentions(entries[e - 1])
  }

  ghost function ServersBefore(servers: seq<RawServer>, i: nat): nat
    requires i <= |servers|
  {
    if i == 0 then 0
    else
      var made := if servers[i - 1].entries.None? then 0
          else EntriesBefore(servers[i - 1].entries.value, |servers[i - 1].entries.value|);
      ServersBefore(servers, i - 1) + made
  }

  lemma NameMeans(name: Option<string>)
    ensures NameReads(name, NameOf(name))
  {
  }

  lemma EntryMeans(net: Network, server: RawServer, entry: Option<RawEntry>)
    requires EntryOk(net, entry)
    ensures |EntryRefs(net, server, entry)| == Mentions(entry)
  {
    FieldReads(entry.value.sn, "");
  }

  lemma EntryRefersTo(net: Network, server: RawServer, entry: Option<RawEntry>, n: nat)
    requires EntryOk(net, entry) && TextOf(server.sn).Some? && server.instId.Value?
    requires n < |EntryRefs(net, server, entry)|
    ensures RefersTo(net, server, entry.value, n, EntryRefs(net, server, entry)[n])
  {
    hide TrimSpace, Resolvable, StandsFor, Resolve, Reads, NameReads, NameOf;
    var ref, names := EntryRefs(net, server, entry)[n], entry.value.names.value;
    FieldReads(server.sn, ref.server);
    FieldReads(entry.value.sn, ref.tor);
    if ref.tor == "" || names == [] {
      forall m | 0 <= m < |names| ensures NameReads(names[m], ref.names[m]) { NameMeans(names[m]); }
    } else {
      NameMeans(names[n]);
      forall uuid | uuid != "" ensures ref.uuid == uuid <==> StandsFor(net, ref.tor, ref.name, uuid) {
        ResolveMeans(net, ref.tor, ref.name, uuid);
      }
    }
  }

  lemma {:induction false} EntriesMean(net: Network, server: RawServer, entries: seq<Option<RawEntry>>, e: nat)
    requires EntriesOk(net, entries) && e <= |entries|
    ensures |FlatMap(EntryReader(net, server), entries[..e])| == EntriesBefore(entries, e)
    decreases e
  {
    hide EntryOk, EntryRefs, Mentions;
    if e > 0 {
      EntriesMean(net, server, entries, e - 1);
      FlatMapExtend(EntryReader(net, server), entries, e - 1);
      EntryMeans(net, server, entries[e - 1]);
    }
  }

  lemma ServerMeans(net: Network, server: RawServer)
    requires ServerOk(net, server)
    ensures |ServerRefs(net, server)| == EntriesBefore(server.entries.value, |server.entries.value|)
  {
    hide EntryOk, EntriesBefore, FlatMap;
    var entries := server.entries.value;
    EntriesMean(net, server, entries, |entries|);
    assert entries[..|entries|] == entries;
  }

  lemma {:induction false} ServersMean(net: Network, servers: seq<RawServer>, i: nat)
    requires ServersOk(net, servers) && i <= |servers|
    ensures |Refs(net, servers[..i])| == ServersBefore(servers, i)
    decreases i
  {
    hide ServerOk, ServerRefs, EntriesBefore;
    if i > 0 {
      ServersMean(net, servers, i - 1);
      FlatMapExtend(ServerReader(net), servers, i - 1);
      ServerMeans(net, servers[i - 1]);
      assert servers[i - 1].entries.Some? by { ServerSoundMeans(net, servers[i - 1]); }
      hide FlatMap, ServersOk;
    }
  }

  /** The references are those the raw lists make, server by server, entry by entry, name by name, and no more. */
  lemma ReferencesAsListed(net: Network, servers: seq<RawServer>, i: nat, e: nat, n: nat)
    requires ServersOk(net, servers) && i < |servers| && servers[i].entries.Some?
    requires e < |servers[i].entries.value| && n < Mentions(servers[i].entries.value[e])
    ensures |Refs(net, servers)| == ServersBefore(servers, |servers|)
    ensures var at := ServersBefore(servers, i) + EntriesBefore(servers[i].entries.value, e) + n;
            && at < |Refs(net, servers)| && servers[i].entries.value[e].Some?
            && RefersTo(net, servers[i], servers[i].entries.value[e].value, n, Refs(net, servers)[at])
  {
    hide FlatMap, Mentions, EntryOk, EntryRefs, RefersTo, ServersBefore, EntriesBefore, ServerRefs;
    var k := ListedInServer(net, servers[i], e, n);
    hide EntriesOk, ServerOk;
    assert servers[..|servers|] == servers;
    ServersMean(net, servers, i);
    ServersMean(net, servers, |servers|);
    FlatMapAt(ServerReader(net), servers, i, k);
  }

  lemma ListedInServer(net: Network, server: RawServer, e: nat, n: nat) returns (k: nat)
    requires ServerOk(net, server) && e < |server.entries.value| && n < Mentions(server.entries.value[e])
    ensures k == EntriesBefore(server.entries.value, e) + n < |ServerRefs(net, server)|
    ensures server.entries.value[e].Some?
    ensures RefersTo(net, server, server.entries.value[e].value, n, ServerRefs(net, server)[k])
  {
    hide FlatMap, Mentions, EntryOk, EntryRefs, RefersTo, EntriesBefore;
    var entries := server.entries.value;
    EntriesMean(net, server, entries, e);
    EntryMeans(net, server, entries[e]);
    assert entries[e].Some? by { EntrySoundMeans(net, entries[e]); }
    EntryRefersTo(net, server, entries[e], n);
    FlatMapAt(EntryReader(net, server), entries, e, n);
    k := EntriesBefore(entries, e) + n;
  }

  // A server is a numbered one of its category with a serial number, and all it refers to can be looked up.
  ghost predicate ServerSound(net: Network, server: RawServer) {
    && server.instId.Value? && server.instId.value > 0 && server.category == Value(52)
    && !server.sn.Invalid? && !Reads(server.sn, "") && server.entries.Some?
    && forall e | 0 <= e < |server.entries.value| :: EntrySound(net, server.entries.value[e])
  }

  ghost predicate EntrySound(net: Network, entry: Option<RawEntry>) {
    && entry.Some? && !entry.value.sn.Invalid? && entry.value.names.Some?
    && forall tor | Reads(entry.value.sn, tor) && tor != "" && entry.value.names.value != [] :: Answerable(net, tor)
  }

  ghost predicate ServersApart(a: RawServer, b: RawServer) {
    && a.instId.Value? && b.instId.Value? && a.instId.value < b.instId.value
    && forall text :: !(Reads(a.sn, text) && Reads(b.sn, text))
  }

  /** What a scan accepts: sound servers, numbered upwards, no serial number twice, no identifier of two switches. */
  ghost predicate Admissible(net: Network, servers: seq<RawServer>) {
    && (forall i | 0 <= i < |servers| :: ServerSound(net, servers[i]))
    && (forall i, j | 0 <= i < j < |servers| :: ServersApart(servers[i], servers[j]))
    && (var refs := Refs(net, servers);
        forall i, j | 0 <= i < |refs| && 0 <= j < |refs| && refs[i].uuid != "" && refs[i].uuid == refs[j].uuid ::
          refs[i].tor == refs[j].tor)
  }

  lemma EntrySoundMeans(net: Network, entry: Option<RawEntry>)
    ensures EntryOk(net, entry) <==> EntrySound(net, entry)
  {
    hide TrimSpace, Resolvable, Answerable;
    if EntryDecodes(entry) {
      var tor := TextOf(entry.value.sn).value;
      FieldReads(entry.value.sn, tor);
      ResolvableMeans(net, tor);
    }
  }

  lemma ServerSoundMeans(net: Network, server: RawServer)
    ensures ServerOk(net, server) <==> ServerSound(net, server)
  {
    hide EntryOk, EntrySound, TrimSpace;
    FieldReads(server.sn, "");
    if server.entries.Some? {
      forall e | 0 <= e < |server.entries.value|
        ensures EntryOk(net, server.entries.value[e]) <==> EntrySound(net, server.entries.value[e])
      {
        EntrySoundMeans(net, server.entries.value[e]);
      }
    }
  }

  lemma ServersApartMeans(net: Network, a: RawServer, b: RawServer)
    requires ServerOk(net, a) && ServerOk(net, b)
    ensures Follows(a, b) <==> ServersApart(a, b)
  {
    hide EntriesOk, TrimSpace;
    assert Reads(a.sn, SnOf(a));
  }

  lemma ScanOkMeans(net: Network, servers: seq<RawServer>)
    ensures ScanOk(net, servers) <==> Admissible(net, servers)
  {
    hide ServerOk, ServerSound, Follows, ServersApart, Refs;
    forall i | 0 <= i < |servers| ensures ServerOk(net, servers[i]) <==> ServerSound(net, servers[i]) {
      ServerSoundMeans(net, servers[i]);
    }
    forall i, j | 0 <= i < j < |servers| && ServerOk(net, servers[i]) && ServerOk(net, servers[j])
      ensures Follows(servers[i], servers[j]) <==> ServersApart(servers[i], servers[j])
    {
      ServersApartMeans(net, servers[i], servers[j]);
    }
    var refs := Refs(net, servers);
    if Consistent(refs) {
      forall i, j | 0 <= i < |refs| && 0 <= j < |refs| && refs[i].uuid != "" && refs[i].uuid == refs[j].uuid
        ensures refs[i].tor == refs[j].tor
      {
        assert !Conflict(refs[i], refs[j]);
      }
    }
  }

  // ----- owners -----

  // Each resolved identifier with its switch.
  function TargetsOf(refs: seq<Ref>): map<string, string> {
    if refs == [] then map[]
    else
      var front, last := TargetsOf(refs[..|refs| - 1]), refs[|refs| - 1];
      if last.uuid == "" then front else front[last.uuid := last.tor]
  }

  lemma {:induction false} TargetsMean(refs: seq<Ref>)
    ensures forall k | 0 <= k < |refs| && refs[k].uuid != "" :: refs[k].uuid in TargetsOf(refs)
    ensures forall uuid | uuid in TargetsOf(refs) ::
              uuid != "" && exists k | 0 <= k < |refs| :: refs[k].uuid == uuid && refs[k].tor == TargetsOf(refs)[uuid]
    decreases |refs|
  {
    if refs != [] {
      var n, targets := |refs| - 1, TargetsOf(refs);
      TargetsMean(refs[..n]);
      forall k | 0 <= k < |refs| && refs[k].uuid != "" ensures refs[k].uuid in targets {
        if k < n { assert refs[..n][k] == refs[k]; }
      }
      forall uuid | uuid in targets
        ensures uuid != "" && exists k | 0 <= k < |refs| :: refs[k].uuid == uuid && refs[k].tor == targets[uuid]
      {
        if uuid != refs[n].uuid {
          var front := TargetsOf(refs[..n]);
          assert uuid in front && targets[uuid] == front[uuid];
          var k :| 0 <= k < |refs[..n]| && refs[..n][k].uuid == uuid && refs[..n][k].tor == front[uuid];
          assert refs[k].uuid == uuid && refs[k].tor == targets[uuid];
        }
      }
    }
  }

  lemma ConsistentStep(refs: seq<Ref>, ref: Ref)
    requires Consistent(refs)
    ensures Consistent(refs + [ref]) <==>
              ref.uuid == "" || ref.uuid !in TargetsOf(refs) || TargetsOf(refs)[ref.uuid] == ref.tor
  {
    TargetsMean(refs);
    var all, n := refs + [ref], |refs|;
    if ref.uuid in TargetsOf(refs) {
      var k :| 0 <= k < n && refs[k].uuid == ref.uuid && refs[k].tor == TargetsOf(refs)[ref.uuid];
      assert Conflict(all[k], all[n]) <==> TargetsOf(refs)[ref.uuid] != ref.tor;
      forall i | 0 <= i < n ensures !Conflict(refs[i], refs[k]) && !Conflict(refs[k], refs[i]) {}
      forall i, j | 0 <= i < |all| && 0 <= j < |all| && TargetsOf(refs)[ref.uuid] == ref.tor
           ensures !Conflict(all[i], all[j]) {
        if i < n && j < n { assert !Conflict(refs[i], refs[j]); }
      }
    } else {
      forall i, j | 0 <= i < |all| && 0 <= j < |all| ensures !Conflict(all[i], all[j]) {
        if i < n && j < n { assert !Conflict(refs[i], refs[j]); }
      }
    }
  }

  lemma ConsistentParts(a: seq<Ref>, b: seq<Ref>)
    ensures Consistent(a + b) ==> Consistent(a) && Consistent(b)
  {
    if Consistent(a + b) {
      forall i, j | 0 <= i < |a| && 0 <= j < |a| ensures !Conflict(a[i], a[j]) {
        assert !Conflict((a + b)[i], (a + b)[j]);
      }
      forall i, j | 0 <= i < |b| && 0 <= j < |b| ensures !Conflict(b[i], b[j]) {
        assert !Conflict((a + b)[|a| + i], (a + b)[|a| + j]);
      }
    }
  }

  // ----- one production page -----

  datatype UplinkPage = UplinkPage(
    links: seq<RelationIdentity>, targets: map<string, string>, nextOffset: int, total: int, done: bool, skipped: int,
    firstInst: int, lastInst: int, serverSns: seq<string>, digest: seq<RawServer>)

  function LinkOf(sourceId: string, ref: Ref): RelationIdentity {
    RelationIdentity(sourceId, ServerUplink, Identity(sourceId, Device, ref.server),
        Identity(sourceId, Interface, ref.uuid))
  }

  function LinksOf(sourceId: string, refs: seq<Ref>): seq<RelationIdentity> {
    seq(|refs|, k requires 0 <= k < |refs| => LinkOf(sourceId, refs[k]))
  }

  function SnsOf(servers: seq<RawServer>): seq<string> {
    seq(|servers|, k requires 0 <= k < |servers| => SnOf(servers[k]))
  }

  // The page an unchanging upstream gives at an offset.
  function PageFor(net: Network, servers: seq<RawServer>, sourceId: string, pageSize: nat,
        start: nat): Option<UplinkPage> {
    if TrimSpace(sourceId) == "" || start > |servers| then None
    else
      var items := Reply(servers, start, pageSize);
      if !ScanOk(net, items) then None
      else
        var refs := Refs(net, items);
        Some(UplinkPage(
          LinksOf(sourceId, Resolved(refs)), TargetsOf(refs), start + |items|, |servers|, start + |items| == |servers|,
              Unresolved(refs),
          if items == [] then 0 else InstOf(items[0]), LastInst(items), SnsOf(items), items))
  }

  // The link goes from the server's device to the port, both of the source.
  ghost predicate LinkSays(link: RelationIdentity, sourceId: string, ref: Ref) {
    && link.sourceId == sourceId && link.kind == ServerUplink
    && link.from.sourceId == sourceId && link.from.entityType == Device && link.from.stableId == ref.server
    && link.to.sourceId == sourceId && link.to.entityType == Interface && link.to.stableId == ref.uuid
  }

  /** The page, field by field: a link and an owner for each reference that resolves, a count of the others. */
  ghost predicate PageSays(net: Network, servers: seq<RawServer>, sourceId: string, items: seq<RawServer>, start: nat,
        page: UplinkPage) {
    var refs := Refs(net, items);
    var resolved := Resolved(refs);
    && |page.links| == |resolved|
    && (forall k | 0 <= k < |resolved| ::
          && LinkSays(page.links[k], sourceId, resolved[k])
          && resolved[k].uuid in page.targets && page.targets[resolved[k].uuid] == resolved[k].tor)
    && (forall uuid | uuid in page.targets :: exists k | 0 <= k < |resolved| :: resolved[k].uuid == uuid)
    && page.skipped == |refs| - |resolved|
    && page.nextOffset == start + |items| && page.total == |servers| && page.done == (page.nextOffset == |servers|)
    && (if items == [] then page.firstInst == 0 && page.lastInst == 0
        else items[0].instId == Value(page.firstInst) && items[|items| - 1].instId == Value(page.lastInst))
    && |page.serverSns| == |items| && (forall k | 0 <= k < |items| :: Reads(items[k].sn, page.serverSns[k]))
    && page.digest == items
  }

  /** Resolving keeps the references that have an identifier, each at the place of its rank among them. */
  lemma {:induction false} ResolvedInOrder(refs: seq<Ref>, j: nat)
    requires j < |refs| && refs[j].uuid != ""
    ensures |Resolved(refs[..j])| < |Resolved(refs)| && Resolved(refs)[|Resolved(refs[..j])|] == refs[j]
    ensures |Resolved(refs[..j + 1])| == |Resolved(refs[..j])| + 1
    decreases |refs|
  {
    var n := |refs| - 1;
    assert refs[..j + 1][..j] == refs[..j];
    if j < n {
      assert refs[..n][..j] == refs[..j] && refs[..n][..j + 1] == refs[..j + 1];
      ResolvedInOrder(refs[..n], j);
    }
  }

  lemma {:induction false} ResolvedMembers(refs: seq<Ref>)
    ensures forall ref :: ref in Resolved(refs) <==> ref in refs && ref.uuid != ""
    decreases |refs|
  {
    if refs != [] {
      var n := |refs| - 1;
      ResolvedMembers(refs[..n]);
      assert refs == refs[..n] + [refs[n]];
    }
  }

  // In consistent references, a resolved identifier's target is its switch.
  lemma TargetOf(refs: seq<Ref>, k: nat)
    requires Consistent(refs) && k < |Resolved(refs)|
    ensures var ref := Resolved(refs)[k]; ref.uuid in TargetsOf(refs) && TargetsOf(refs)[ref.uuid] == ref.tor
  {
    hide Resolved, TargetsOf;
    TargetsMean(refs);
    ResolvedMembers(refs);
    var ref := Resolved(refs)[k];
    assert ref in Resolved(refs);
    var i :| 0 <= i < |refs| && refs[i] == ref;
    var j :| 0 <= j < |refs| && refs[j].uuid == ref.uuid && refs[j].tor == TargetsOf(refs)[ref.uuid];
    assert !Conflict(refs[i], refs[j]);
  }

  lemma TargetsResolved(refs: seq<Ref>, uuid: string)
    requires uuid in TargetsOf(refs)
    ensures exists k | 0 <= k < |Resolved(refs)| :: Resolved(refs)[k].uuid == uuid
  {
    hide Resolved, TargetsOf;
    TargetsMean(refs);
    ResolvedMembers(refs);
    var j :| 0 <= j < |refs| && refs[j].uuid == uuid;
    assert refs[j] in Resolved(refs);
  }

  lemma PageMeans(net: Network, servers: seq<RawServer>, sourceId: string, size: nat, start: nat)
    requires start <= |servers| && PageFor(net, servers, sourceId, size, start).Some?
    ensures PageSays(net, servers, sourceId, Reply(servers, start, size), start,
              PageFor(net, servers, sourceId, size, start).value)
  {
    hide TrimSpace, Resolved, TargetsOf, Unresolved, Refs, Consistent, EntriesOk;
    var items, page := Reply(servers, start, size), PageFor(net, servers, sourceId, size, start).value;
    var refs := Refs(net, items);
    var resolved := Resolved(refs);
    forall k | 0 <= k < |resolved|
      ensures LinkSays(page.links[k], sourceId, resolved[k])
      ensures resolved[k].uuid in page.targets && page.targets[resolved[k].uuid] == resolved[k].tor
    {
      TargetOf(refs, k);
    }
    forall uuid | uuid in page.targets ensures exists k | 0 <= k < |resolved| :: resolved[k].uuid == uuid {
      TargetsResolved(refs, uuid);
    }
    forall k | 0 <= k < |items| ensures Reads(items[k].sn, page.serverSns[k]) && items[k].instId.Value? {
      assert ServerOk(net, items[k]);
      FieldReads(items[k].sn, page.serverSns[k]);
    }
    assert page.skipped == |refs| - |resolved| by { UnresolvedMeans(refs); }
  }

  lemma UnresolvedMeans(refs: seq<Ref>)
    ensures Unresolved(refs) == |refs| - |Resolved(refs)|
  {
  }

  // What has been gathered of a page so far.
  datatype Gathering = Gathering(
    links: seq<RelationIdentity>, targets: map<string, string>, skipped: nat, cache: map<string, map<string, string>>)

  ghost predicate CacheOk(net: Network, cache: map<string, map<string, string>>) {
    forall tor | tor in cache :: Resolvable(net, tor) && Answers(net, tor, cache[tor])
  }

  ghost predicate Answers(net: Network, tor: string, table: map<string, string>) {
    forall name :: Lookup(table, name) == Resolve(net, tor, name)
  }

  ghost predicate GatheredOf(net: Network, sourceId: string, refs: seq<Ref>, g: Gathering) {
    && g.links == LinksOf(sourceId, Resolved(refs)) && g.targets == TargetsOf(refs) && g.skipped == Unresolved(refs)
    && CacheOk(net, g.cache) && Consistent(refs)
  }

  method AddReference(net: Network, sourceId: string, g: Gathering, sn: string, tor: string, uuid: string,
                      ghost ref: Ref, ghost refs: seq<Ref>)
    returns (ok: bool, now: Gathering)
    requires GatheredOf(net, sourceId, refs, g) && ref.server == sn && ref.tor == tor && ref.uuid == uuid
    ensures ok <==> Consistent(refs + [ref])
    ensures ok ==> GatheredOf(net, sourceId, refs + [ref], now)
    ensures now.cache == g.cache
  {
    ConsistentStep(refs, ref);
    LinksGrow(sourceId, refs, ref);
    hide Consistent, CacheOk, LinksOf, Resolved, TargetsOf, Unresolved;
    if uuid == "" {
      return true, g.(skipped := g.skipped + 1);
    }
    if uuid in g.targets && g.targets[uuid] != tor { return false, g; }
    var link := RelationIdentity(sourceId, ServerUplink, Identity(sourceId, Device, sn),
      Identity(sourceId, Interface, uuid));
    now := g.(targets := g.targets[uuid := tor], links := g.links + [link]);
    ok := true;
  }

  lemma LinksGrow(sourceId: string, refs: seq<Ref>, ref: Ref)
    ensures var all := refs + [ref];
            if ref.uuid == "" then
              && LinksOf(sourceId, Resolved(all)) == LinksOf(sourceId, Resolved(refs))
              && TargetsOf(all) == TargetsOf(refs) && Unresolved(all) == Unresolved(refs) + 1
            else
              && LinksOf(sourceId, Resolved(all)) == LinksOf(sourceId, Resolved(refs)) + [LinkOf(sourceId, ref)]
              && TargetsOf(all) == TargetsOf(refs)[ref.uuid := ref.tor] && Unresolved(all) == Unresolved(refs)
  {
    assert (refs + [ref])[..|refs|] == refs;
  }

  lemma BlankUnresolved(net: Network, tor: string)
    ensures Resolve(net, tor, "") == ""
  {
  }

  method AddNames(net: Network, sourceId: string, g: Gathering, server: RawServer, tor: string,
                  names: seq<Option<string>>, ports: map<string, string>, ghost refs: seq<Ref>)
    returns (ok: bool, now: Gathering)
    requires GatheredOf(net, sourceId, refs, g) && Answers(net, tor, ports)
    ensures ok <==> Consistent(refs + NameRefs(net, server, tor, names))
    ensures ok ==> GatheredOf(net, sourceId, refs + NameRefs(net, server, tor, names), now)
  {
    hide GatheredOf, Consistent, TrimSpace, Resolve;
    ok, now := true, g;
    ghost var whole := NameRefs(net, server, tor, names);
    assert refs + whole[..0] == refs;
    BlankUnresolved(net, tor);
    for i := 0 to |names|
      invariant ok && GatheredOf(net, sourceId, refs + whole[..i], now)
    {
      var value := NameOf(names[i]);
      var uuid := Lookup(ports, value);
      assert refs + whole[..i + 1] == (refs + whole[..i]) + [whole[i]];
      assert refs + whole == (refs + whole[..i + 1]) + whole[i + 1..];
      ConsistentParts(refs + whole[..i + 1], whole[i + 1..]);
      ok, now := AddReference(net, sourceId, now, SnOf(server), tor, if value == "" then "" else uuid, whole[i],
        refs + whole[..i]);
      if !ok { return; }
    }
    assert whole[..|names|] == whole;
    assert Consistent(refs + whole) by { GatheredConsistent(net, sourceId, refs + whole, now); }
  }

  lemma GatheredConsistent(net: Network, sourceId: string, refs: seq<Ref>, g: Gathering)
    requires GatheredOf(net, sourceId, refs, g)
    ensures Consistent(refs) && CacheOk(net, g.cache)
  {
  }

  // The switch's table, read once a page.
  method PortsOf(net: Network, pageSize: nat, tor: string, cache: map<string, map<string, string>>)
    returns (ports: Option<map<string, string>>, now: map<string, map<string, string>>)
    requires pageSize > 0 && CacheOk(net, cache)
    ensures ports.Some? <==> Resolvable(net, tor)
    ensures ports.Some? ==> Answers(net, tor, ports.value) && CacheOk(net, now)
  {
    now := cache;
    if tor in cache { return Some(cache[tor]), now; }
    ports := CollectToRPorts(net, pageSize, tor);
    if ports.None? { return; }
    now := cache[tor := ports.value];
  }

  method AddEntry(net: Network, sourceId: string, pageSize: nat, g: Gathering, server: RawServer,
        entry: Option<RawEntry>, ghost refs: seq<Ref>)
    returns (ok: bool, now: Gathering)
    requires pageSize > 0 && GatheredOf(net, sourceId, refs, g)
    ensures ok <==> EntryOk(net, entry) && Consistent(refs + EntryRefs(net, server, entry))
    ensures ok ==> GatheredOf(net, sourceId, refs + EntryRefs(net, server, entry), now)
  {
    if !EntryDecodes(entry) { return false, g; }
    var tor, names := TextOf(entry.value.sn).value, entry.value.names.value;
    if tor == "" || names == [] {
      ghost var ref := SkippedEntry(server, tor, names);
      ConsistentStep(refs, ref);
      ok, now := AddReference(net, sourceId, g, SnOf(server), tor, "", ref, refs);
      return;
    }
    GatheredConsistent(net, sourceId, refs, g);
    var ports, cache := PortsOf(net, pageSize, tor, g.cache);
    if ports.None? { return false, g; }
    ok, now := AddNames(net, sourceId, g.(cache := cache), server, tor, names, ports.value, refs);
  }

  lemma EntryRefsGrow(net: Network, server: RawServer, entries: seq<Option<RawEntry>>, i: nat, refs: seq<Ref>)
    requires i < |entries|
    ensures var read := EntryReader(net, server);
            && refs + FlatMap(read, entries[..i + 1]) == (refs + FlatMap(read, entries[..i])) +
                 EntryRefs(net, server, entries[i])
            && (Consistent(refs + FlatMap(read, entries)) ==> Consistent(refs + FlatMap(read, entries[..i + 1])))
  {
    hide FlatMap, Consistent, EntryRefs;
    var read := EntryReader(net, server);
    FlatMapExtend(read, entries, i);
    Assoc(refs, FlatMap(read, entries[..i]), EntryRefs(net, server, entries[i]));
    FlatMapSum(read, entries[..i + 1], entries[i + 1..]);
    assert entries == entries[..i + 1] + entries[i + 1..];
    Assoc(refs, FlatMap(read, entries[..i + 1]), FlatMap(read, entries[i + 1..]));
    ConsistentParts(refs + FlatMap(read, entries[..i + 1]), FlatMap(read, entries[i + 1..]));
  }

  method AddEntries(net: Network, sourceId: string, pageSize: nat, g: Gathering, server: RawServer,
        entries: seq<Option<RawEntry>>, ghost refs: seq<Ref>)
    returns (ok: bool, now: Gathering)
    requires pageSize > 0 && GatheredOf(net, sourceId, refs, g)
    ensures ok <==> EntriesOk(net, entries) && Consistent(refs + FlatMap(EntryReader(net, server), entries))
    ensures ok ==> GatheredOf(net, sourceId, refs + FlatMap(EntryReader(net, server), entries), now)
  {
    hide GatheredOf, Consistent, EntryOk, EntryRefs;
    ok, now := true, g;
    ghost var read := EntryReader(net, server);
    assert refs + FlatMap(read, entries[..0]) == refs;
    for i := 0 to |entries|
      invariant ok && GatheredOf(net, sourceId, refs + FlatMap(read, entries[..i]), now) && EntriesOk(net, entries[..i])
    {
      EntryRefsGrow(net, server, entries, i, refs);
      assert entries[..i + 1] == entries[..i] + [entries[i]];
      ok, now := AddEntry(net, sourceId, pageSize, now, server, entries[i], refs + FlatMap(read, entries[..i]));
      if !ok { return; }
    }
    assert entries[..|entries|] == entries;
    assert Consistent(refs + FlatMap(read, entries)) by {
      GatheredConsistent(net, sourceId, refs + FlatMap(read, entries), now);
    }
  }

  // The server's own fields: an instance past the last one, the category, a new serial number, readable entries.
  method CheckServer(server: RawServer, last: int, seen: set<string>) returns (ok: bool)
    requires last >= 0
    ensures ok <==>
      && IntegerOf(server.instId).Some? && InstOf(server) > last && IntegerOf(server.category) == Some(SERVER_CATEGORY)
      && TextOf(server.sn).Some? && SnOf(server) != "" && SnOf(server) !in seen && server.entries.Some?
  {
    var inst, category, sn := IntegerOf(server.instId), IntegerOf(server.category), TextOf(server.sn);
    if inst.None? || category.None? || sn.None? { return false; }
    if inst.value <= last || category.value != SERVER_CATEGORY || sn.value == "" || sn.value in seen { return false; }
    ok := server.entries.Some?;
  }

  lemma RefsGrow(net: Network, servers: seq<RawServer>, i: nat, refs: seq<Ref>)
    requires i < |servers|
    ensures refs + Refs(net, servers[..i + 1]) == (refs + Refs(net, servers[..i])) + ServerRefs(net, servers[i])
    ensures Consistent(refs + Refs(net, servers)) ==> Consistent(refs + Refs(net, servers[..i + 1]))
  {
    hide FlatMap, Consistent, ServerRefs;
    var read := ServerReader(net);
    FlatMapExtend(read, servers, i);
    Assoc(refs, FlatMap(read, servers[..i]), ServerRefs(net, servers[i]));
    FlatMapSum(read, servers[..i + 1], servers[i + 1..]);
    assert servers == servers[..i + 1] + servers[i + 1..];
    Assoc(refs, FlatMap(read, servers[..i + 1]), FlatMap(read, servers[i + 1..]));
    ConsistentParts(refs + FlatMap(read, servers[..i + 1]), FlatMap(read, servers[i + 1..]));
  }

  lemma ServersOkPrefix(net: Network, servers: seq<RawServer>, i: nat)
    requires i <= |servers|
    ensures ServersOk(net, servers) ==> ServersOk(net, servers[..i])
  {
  }

  lemma SnsGrow(servers: seq<RawServer>, i: nat)
    requires i < |servers|
    ensures Sns(servers[..i + 1]) == Sns(servers[..i]) + {SnOf(servers[i])}
    ensures SnsOf(servers[..i + 1]) == SnsOf(servers[..i]) + [SnOf(servers[i])]
  {
  }

  method AddServer(net: Network, sourceId: string, pageSize: nat, g: Gathering, servers: seq<RawServer>, i: nat,
        last: int, seen: set<string>)
    returns (ok: bool, now: Gathering)
    requires pageSize > 0 && i < |servers| && GatheredOf(net, sourceId, Refs(net, servers[..i]), g)
    requires ServersOk(net, servers[..i])
    requires last == LastInst(servers[..i]) && seen == Sns(servers[..i])
    ensures ok ==> GatheredOf(net, sourceId, Refs(net, servers[..i + 1]), now) && ServersOk(net, servers[..i + 1])
    ensures !ok ==> !ScanOk(net, servers)
  {
    var server, refs := servers[i], Refs(net, servers[..i]);
    NextServer(net, servers, i);
    hide GatheredOf, Consistent, ServersOk, FlatMap, EntriesOk;
    ok := CheckServer(server, last, seen);
    if !ok { return false, g; }
    ok, now := AddEntries(net, sourceId, pageSize, g, server, server.entries.value, refs);
  }

  // What the next server adds to a scan that has gone well so far.
  lemma NextServer(net: Network, servers: seq<RawServer>, i: nat)
    requires i < |servers| && ServersOk(net, servers[..i])
    ensures LastInst(servers[..i]) >= 0
    ensures Refs(net, servers[..i + 1]) == Refs(net, servers[..i]) + ServerRefs(net, servers[i])
    ensures ServersOk(net, servers[..i + 1]) <==>
              ServerOk(net, servers[i]) && InstOf(servers[i]) > LastInst(servers[..i])
                  && SnOf(servers[i]) !in Sns(servers[..i])
    ensures ScanOk(net, servers) ==> ServersOk(net, servers[..i + 1]) && Consistent(Refs(net, servers[..i + 1]))
  {
    hide Consistent, FlatMap, ServersOk, ServerOk, Sns;
    RefsGrow(net, servers, i, []);
    assert [] + Refs(net, servers[..i + 1]) == Refs(net, servers[..i + 1])
        && [] + Refs(net, servers[..i]) == Refs(net, servers[..i]);
    assert [] + Refs(net, servers) == Refs(net, servers);
    ServersOkStep(net, servers[..i], servers[i]);
    assert servers[..i + 1] == servers[..i] + [servers[i]];
    ServersOkPrefix(net, servers, i + 1);
    if i > 0 { PositiveLast(net, servers[..i]); }
  }

  lemma PositiveLast(net: Network, servers: seq<RawServer>)
    requires ServersOk(net, servers) && servers != []
    ensures LastInst(servers) > 0
  {
  }

  method GatherServers(net: Network, sourceId: string, size: nat, items: seq<RawServer>)
    returns (ok: bool, g: Gathering, first: int, last: int, serverSns: seq<string>)
    requires size > 0
    ensures ok <==> ScanOk(net, items)
    ensures ok ==>
      && GatheredOf(net, sourceId, Refs(net, items), g)
      && first == (if items == [] then 0 else InstOf(items[0])) && last == LastInst(items) && serverSns == SnsOf(items)
  {
    g, first, last, serverSns := Gathering([], map[], 0, map[]), 0, 0, [];
    var seen: set<string> := {};
    hide GatheredOf, ServersOk, Refs, Sns, SnsOf, Consistent;
    for i := 0 to |items|
      invariant GatheredOf(net, sourceId, Refs(net, items[..i]), g) && ServersOk(net, items[..i])
      invariant last == LastInst(items[..i]) && seen == Sns(items[..i]) && serverSns == SnsOf(items[..i])
      invariant first == if i == 0 then 0 else InstOf(items[0])
      invariant i > 0 ==> InstOf(items[0]) > 0
    {
      ok, g := AddServer(net, sourceId, size, g, items, i, last, seen);
      if !ok { return; }
      SnsGrow(items, i);
      if first == 0 { first := InstOf(items[i]); }
      last := InstOf(items[i]);
      seen := seen + {SnOf(items[i])};
      serverSns := serverSns + [SnOf(items[i])];
    }
    assert items[..|items|] == items;
    GatheredConsistent(net, sourceId, Refs(net, items), g);
    ok := true;
  }

  /** The production collector's page is the page of the definition, whatever order its caches fill in. */
  method CollectServerUplinkPage(net: Network, servers: seq<RawServer>, sourceId: string, pageSize: nat, start: nat)
    returns (page: Option<UplinkPage>)
    requires pageSize > 0
    ensures page == PageFor(net, servers, sourceId, Min(pageSize, MAX_PAGE), start)
    ensures page.Some? <==>
              && TrimSpace(sourceId) != "" && start <= |servers|
              && Admissible(net, servers[start..Min(start + Min(pageSize, 200), |servers|)])
    ensures page.Some? ==>
      PageSays(net, servers, sourceId, servers[start..Min(start + Min(pageSize, 200), |servers|)], start, page.value)
  {
    hide ScanOk, Admissible, TrimSpace, Resolved, TargetsOf, Unresolved, LinksOf, Refs, CacheOk, Consistent, PageSays;
    if TrimSpace(sourceId) == "" { return None; }
    var size := Min(pageSize, MAX_PAGE);
    if start > |servers| { return None; }
    var items, total := Reply(servers, start, size), |servers|;
    ScanOkMeans(net, items);
    var ok, g, first, last, serverSns := GatherServers(net, sourceId, size, items);
    if !ok { return None; }
    page := Some(UplinkPage(g.links, g.targets, start + |items|, total, start + |items| == total, g.skipped, first,
        last, serverSns, items));
    PageMeans(net, servers, sourceId, size, start);
  }

  // ----- diagnostics: one scan, one cache -----

  datatype DiagnosticReference = DiagnosticReference(
    serverSn: string, serverInst: int, torSn: string, torInst: int, portName: string, portNames: seq<string>,
    portUuid: string, reason: Reason)

  datatype Diagnostics = Diagnostics(servers: nat, references: seq<DiagnosticReference>)

  function Bare(d: DiagnosticReference): Ref {
    Ref(d.serverSn, d.serverInst, d.torSn, d.portName, d.portNames, if d.reason == Clear then d.portUuid else "")
  }

  function BareOf(references: seq<DiagnosticReference>): seq<Ref> {
    seq(|references|, k requires 0 <= k < |references| => Bare(references[k]))
  }

  // A row says why its reference does not resolve, or carries the identifier it resolves to.
  ghost predicate Explained(net: Network, d: DiagnosticReference) {
    if d.reason == BlankTorSn then d.torSn == "" && d.torInst == 0 && d.portUuid == ""
    else if d.reason == EmptyPorts then d.torSn != "" && d.portNames == [] && d.torInst == 0 && d.portUuid == ""
    else
      && Resolvable(net, d.torSn) && Diagnosed(net, d.torSn, d.portName, d.reason)
      && d.portUuid == Resolve(net, d.torSn, d.portName) && d.torInst == SwitchInst(net, d.torSn)
  }

  function SwitchInst(net: Network, tor: string): int {
    if Known(net, tor) then At(net.tors, tor)[0].instId.value else 0
  }

  /** The row, field by field: the reference as it stands, and what is the matter with it, if anything is. */
  ghost predicate RowSays(net: Network, ref: Ref, row: DiagnosticReference) {
    && row.serverSn == ref.server && row.serverInst == ref.serverInst && row.torSn == ref.tor
    && row.portName == ref.name && row.portNames == ref.names && row.portUuid == ref.uuid
    && (row.reason == Clear <==> ref.uuid != "")
    && (if row.reason == BlankTorSn then row.torSn == "" && row.torInst == 0
        else if row.reason == EmptyPorts then row.torSn != "" && row.portNames == [] && row.torInst == 0
        else
          && Blame(net, row.torSn, row.portName, row.reason)
          && row.torInst == if SwitchFound(net, row.torSn) then net.tors[row.torSn][0].instId.value else 0)
  }

  lemma RowMeans(net: Network, row: DiagnosticReference)
    requires Explained(net, row)
    ensures RowSays(net, Bare(row), row)
  {
    hide Resolvable, Diagnosed, Resolve, Blame, SwitchFound;
    if row.reason != BlankTorSn && row.reason != EmptyPorts {
      NoReasonMeansResolved(net, row.torSn, row.portName, row.reason);
      DiagnosedMeans(net, row.torSn, row.portName, row.reason);
      SwitchMeans(net, row.torSn);
    }
  }

  datatype Scan = Scan(references: seq<DiagnosticReference>, owners: map<string, string>,
      cache: map<string, DiagnosticToR>)

  ghost predicate TorAnswers(net: Network, tor: string, d: DiagnosticToR) {
    && Resolvable(net, tor) && d.instanceId == SwitchInst(net, tor)
    && forall name :: Lookup(d.ports, name) == Resolve(net, tor, name) && Diagnosed(net, tor, name, RowReason(d, name))
  }

  ghost predicate ScanCacheOk(net: Network, cache: map<string, DiagnosticToR>) {
    forall tor | tor in cache :: TorAnswers(net, tor, cache[tor])
  }

  ghost predicate ScannedOf(net: Network, refs: seq<Ref>, s: Scan) {
    && BareOf(s.references) == refs && s.owners == TargetsOf(refs) && Consistent(refs) && ScanCacheOk(net, s.cache)
    && forall k | 0 <= k < |s.references| :: Explained(net, s.references[k])
  }

  method AddRow(net: Network, s: Scan, row: DiagnosticReference, ghost refs: seq<Ref>) returns (ok: bool, now: Scan)
    requires ScannedOf(net, refs, s) && Explained(net, row) && (row.reason == Clear ==> row.portUuid != "")
    ensures ok <==> Consistent(refs + [Bare(row)])
    ensures ok ==> ScannedOf(net, refs + [Bare(row)], now)
  {
    ConsistentStep(refs, Bare(row));
    BareExtend(s.references, row);
    hide Explained, Consistent, TargetsOf, Resolved, Unresolved;
    var owners := s.owners;
    if row.reason == Clear {
      if row.portUuid in owners && owners[row.portUuid] != row.torSn { return false, s; }
      owners := owners[row.portUuid := row.torSn];
    }
    now := s.(references := s.references + [row], owners := owners);
    ok := true;
  }

  lemma BareExtend(references: seq<DiagnosticReference>, row: DiagnosticReference)
    ensures BareOf(references + [row]) == BareOf(references) + [Bare(row)]
  {
  }

  lemma RowResolves(net: Network, d: DiagnosticToR, row: DiagnosticReference)
    requires TorAnswers(net, row.torSn, d) && row.reason == RowReason(d, row.portName)
    requires row.portUuid == Lookup(d.ports, row.portName) && row.torInst == d.instanceId
    ensures Explained(net, row) && (row.reason == Clear ==> row.portUuid != "")
    ensures Bare(row) == Ref(row.serverSn, row.serverInst, row.torSn, row.portName, row.portNames,
                             Resolve(net, row.torSn, row.portName))
  {
  }

  method AddNameRows(net: Network, s: Scan, server: RawServer, tor: string, names: seq<Option<string>>,
        d: DiagnosticToR, ghost refs: seq<Ref>)
    returns (ok: bool, now: Scan)
    requires ScannedOf(net, refs, s) && TorAnswers(net, tor, d)
    ensures ok <==> Consistent(refs + NameRefs(net, server, tor, names))
    ensures ok ==> ScannedOf(net, refs + NameRefs(net, server, tor, names), now)
  {
    hide ScannedOf, Consistent, TrimSpace, Resolve, TorAnswers, Explained;
    ok, now := true, s;
    ghost var whole := NameRefs(net, server, tor, names);
    assert refs + whole[..0] == refs;
    for i := 0 to |names|
      invariant ok && ScannedOf(net, refs + whole[..i], now)
    {
      var name := NameOf(names[i]);
      var row := DiagnosticReference(SnOf(server), InstOf(server), tor, d.instanceId, name, [], Lookup(d.ports, name),
          RowReason(d, name));
      RowResolves(net, d, row);
      assert refs + whole[..i + 1] == (refs + whole[..i]) + [Bare(row)];
      assert refs + whole == (refs + whole[..i + 1]) + whole[i + 1..];
      ConsistentParts(refs + whole[..i + 1], whole[i + 1..]);
      ok, now := AddRow(net, now, row, refs + whole[..i]);
      if !ok { return; }
    }
    assert whole[..|names|] == whole;
    ScannedConsistent(net, refs + whole, now);
  }

  lemma ScannedConsistent(net: Network, refs: seq<Ref>, s: Scan)
    requires ScannedOf(net, refs, s)
    ensures Consistent(refs) && ScanCacheOk(net, s.cache)
  {
  }

  // The switch's tables, read once a scan.
  method DiagnosticTorOf(net: Network, pageSize: nat, tor: string, cache: map<string, DiagnosticToR>)
    returns (d: Option<DiagnosticToR>, now: map<string, DiagnosticToR>)
    requires pageSize > 0 && ScanCacheOk(net, cache)
    ensures d.Some? <==> Resolvable(net, tor)
    ensures d.Some? ==> TorAnswers(net, tor, d.value) && ScanCacheOk(net, now)
  {
    now := cache;
    if tor in cache { return Some(cache[tor]), now; }
    d := CollectDiagnosticToR(net, pageSize, tor);
    SwitchMeans(net, tor);
    if d.None? { return; }
    now := cache[tor := d.value];
  }

  method AddEntryRows(net: Network, pageSize: nat, s: Scan, server: RawServer, entry: Option<RawEntry>,
        ghost refs: seq<Ref>)
    returns (ok: bool, now: Scan)
    requires pageSize > 0 && ScannedOf(net, refs, s)
    ensures ok <==> EntryOk(net, entry) && Consistent(refs + EntryRefs(net, server, entry))
    ensures ok ==> ScannedOf(net, refs + EntryRefs(net, server, entry), now)
  {
    hide Consistent, TrimSpace, Resolve, Diagnosed, TorAnswers;
    if !EntryDecodes(entry) { return false, s; }
    var tor, names := TextOf(entry.value.sn).value, entry.value.names.value;
    if tor == "" || names == [] {
      var portNames := seq(|names|, k requires 0 <= k < |names| => NameOf(names[k]));
      ghost var ref := SkippedEntry(server, tor, names);
      var reason := if tor != "" then EmptyPorts else BlankTorSn;
      ok, now := AddRow(net, s, DiagnosticReference(SnOf(server), InstOf(server), tor, 0, "", portNames, "", reason),
          refs);
      ConsistentStep(refs, ref) by { ScannedConsistent(net, refs, s); }
      return;
    }
    ScannedConsistent(net, refs, s);
    var d, cache := DiagnosticTorOf(net, pageSize, tor, s.cache);
    if d.None? { return false, s; }
    ok, now := AddNameRows(net, s.(cache := cache), server, tor, names, d.value, refs);
  }

  method AddEntriesRows(net: Network, pageSize: nat, s: Scan, server: RawServer, entries: seq<Option<RawEntry>>,
        ghost refs: seq<Ref>)
    returns (ok: bool, now: Scan)
    requires pageSize > 0 && ScannedOf(net, refs, s)
    ensures ok <==> EntriesOk(net, entries) && Consistent(refs + FlatMap(EntryReader(net, server), entries))
    ensures ok ==> ScannedOf(net, refs + FlatMap(EntryReader(net, server), entries), now)
  {
    hide ScannedOf, Consistent, EntryOk, EntryRefs, SnOf;
    ok, now := true, s;
    ghost var read := EntryReader(net, server);
    assert refs + FlatMap(read, entries[..0]) == refs;
    for k := 0 to |entries|
      invariant ok && ScannedOf(net, refs + FlatMap(read, entries[..k]), now) && EntriesOk(net, entries[..k])
    {
      EntryRefsGrow(net, server, entries, k, refs);
      assert entries[..k + 1] == entries[..k] + [entries[k]];
      ok, now := AddEntryRows(net, pageSize, now, server, entries[k], refs + FlatMap(read, entries[..k]));
      if !ok { return; }
    }
    assert entries[..|entries|] == entries;
    ScannedConsistent(net, refs + FlatMap(read, entries), now);
  }

  method AddServerRows(net: Network, pageSize: nat, s: Scan, servers: seq<RawServer>, i: nat, last: int,
        seen: set<string>)
    returns (ok: bool, now: Scan)
    requires pageSize > 0 && i < |servers| && ScannedOf(net, Refs(net, servers[..i]), s) && ServersOk(net, servers[..i])
    requires last == LastInst(servers[..i]) && seen == Sns(servers[..i])
    ensures ok ==> ScannedOf(net, Refs(net, servers[..i + 1]), now) && ServersOk(net, servers[..i + 1])
    ensures !ok ==> !ScanOk(net, servers)
  {
    var server, refs := servers[i], Refs(net, servers[..i]);
    NextServer(net, servers, i);
    hide ScannedOf, Consistent, ServersOk, FlatMap, EntriesOk;
    ok := CheckServer(server, last, seen);
    if !ok { return false, s; }
    ok, now := AddEntriesRows(net, pageSize, s, server, server.entries.value, refs);
  }

  /** The single scan with one cache fails on exactly the same inputs, and its references are, one for one
      and in order, those of the definition, each explained. */
  method CollectServerUplinkDiagnostics(net: Network, servers: seq<RawServer>, sourceId: string, pageSize: nat)
    returns (result: Option<Diagnostics>)
    requires pageSize > 0
    ensures result.Some? <==> TrimSpace(sourceId) != "" && ScanOk(net, servers)
    ensures result.Some? ==>
      && result.value.servers == |servers| && BareOf(result.value.references) == Refs(net, servers)
      && forall k | 0 <= k < |result.value.references| :: Explained(net, result.value.references[k])
    ensures result.Some? <==> TrimSpace(sourceId) != "" && Admissible(net, servers)
    ensures result.Some? ==>
      && |result.value.references| == |Refs(net, servers)|
      && forall k | 0 <= k < |result.value.references| ::
        RowSays(net, Refs(net, servers)[k], result.value.references[k])
  {
    ScanOkMeans(net, servers);
    hide RowSays, Admissible;
    hide TrimSpace, ScannedOf, ScanOk, Refs, Explained;
    if TrimSpace(sourceId) == "" { return None; }
    var ok, s := ScanPages(net, servers, Min(pageSize, MAX_PAGE));
    if !ok { return None; }
    result := Some(Diagnostics(|servers|, s.references));
    ScannedMeans(net, servers, s);
    forall k | 0 <= k < |s.references| ensures RowSays(net, Refs(net, servers)[k], s.references[k]) {
      RowMeans(net, s.references[k]);
    }
  }

  method ScanPages(net: Network, servers: seq<RawServer>, size: nat) returns (ok: bool, s: Scan)
    requires size > 0
    ensures ok <==> ScanOk(net, servers)
    ensures ok ==> ScannedOf(net, Refs(net, servers), s)
  {
    s := Scan([], map[], map[]);
    var seen, last, start := {}, 0, 0;
    NothingScanned(net, servers);
    hide ScannedOf, ServersOk, Refs, Sns, Consistent, LastInst;
    while true
      invariant start <= |servers| && ScannedOf(net, Refs(net, servers[..start]), s) && ServersOk(net, servers[..start])
      invariant last == LastInst(servers[..start]) && seen == Sns(servers[..start])
      decreases |servers| - start
    {
      var items, total := Reply(servers, start, size), |servers|;
      assert items == servers[start..start + |items|];
      ok, s, last, seen := AddPageRows(net, size, s, servers, start, items, last, seen);
      if !ok { return; }
      start := start + |items|;
      if start == total { break; }
    }
    assert servers[..start] == servers;
    ScannedConsistent(net, Refs(net, servers), s);
    ok := true;
  }

  lemma ScannedMeans(net: Network, servers: seq<RawServer>, s: Scan)
    requires ScannedOf(net, Refs(net, servers), s)
    ensures BareOf(s.references) == Refs(net, servers)
    ensures forall k | 0 <= k < |s.references| :: Explained(net, s.references[k])
  {
  }

  lemma NothingScanned(net: Network, servers: seq<RawServer>)
    ensures ScannedOf(net, Refs(net, servers[..0]), Scan([], map[], map[]))
    ensures ServersOk(net, servers[..0]) && LastInst(servers[..0]) == 0 && Sns(servers[..0]) == {}
  {
  }

  method AddPageRows(net: Network, size: nat, s: Scan, servers: seq<RawServer>, start: nat, items: seq<RawServer>,
        last: int, seen: set<string>)
    returns (ok: bool, now: Scan, nowLast: int, nowSeen: set<string>)
    requires size > 0 && start + |items| <= |servers| && items == servers[start..start + |items|]
    requires ScannedOf(net, Refs(net, servers[..start]), s) && ServersOk(net, servers[..start])
    requires last == LastInst(servers[..start]) && seen == Sns(servers[..start])
    ensures ok ==>
      && ScannedOf(net, Refs(net, servers[..start + |items|]), now) && ServersOk(net, servers[..start + |items|])
      && nowLast == LastInst(servers[..start + |items|]) && nowSeen == Sns(servers[..start + |items|])
    ensures !ok ==> !ScanOk(net, servers)
  {
    hide ScannedOf, ServersOk, Refs, Sns, Consistent, ScanOk;
    ok, now, nowLast, nowSeen := true, s, last, seen;
    for i := 0 to |items|
      invariant ok && ScannedOf(net, Refs(net, servers[..start + i]), now) && ServersOk(net, servers[..start + i])
      invariant nowLast == LastInst(servers[..start + i]) && nowSeen == Sns(servers[..start + i])
    {
      SnsGrow(servers, start + i);
      ok, now := AddServerRows(net, size, now, servers, start + i, nowLast, nowSeen);
      if !ok { return; }
      nowLast := InstOf(items[i]);
      nowSeen := nowSeen + {SnOf(items[i])};
    }
  }
}
