/**
 The port tables of a top-of-rack switch: which port name means which port, when names and
 identifiers may repeat. Two loops compute it, one for production and one for diagnostics; both
 are held to the same definition, which mentions neither maps nor pages.
 */
module TorPorts {
  import opened Base
  import opened Seqs
  import opened Text

  // A field of an upstream item: unreadable, absent, or a value.
  datatype Field<T> = Invalid | Missing | Value(value: T)

  datatype RawPort = RawPort(instId: Field<int>, name: Field<string>, uuid: Field<string>, kind: Field<string>,
      owner: Field<string>)

  datatype RawTor = RawTor(instId: Field<int>, sn: Field<string>, category: Field<int>)

  datatype Port = Port(name: string, uuid: string)

  // What the two queries for a switch return: the devices of that serial number, and its ports.
  datatype Network = Network(tors: map<string, seq<RawTor>>, ports: map<string, seq<RawPort>>)

  const NETWORK_CATEGORY := 54

  const PHYSICAL := "physics"

  // Texts are trimmed, an absent one is blank.
  function TextOf(field: Field<string>): Option<string> {
    match field
    case Invalid => None
    case Missing => Some("")
    case Value(text) => Some(TrimSpace(text))
  }

  function IntegerOf(field: Field<int>): Option<int> {
    if field.Value? then Some(field.value) else None
  }

  function At<V>(m: map<string, seq<V>>, key: string): seq<V> {
    if key in m then m[key] else []
  }

  function Lookup(table: map<string, string>, key: string): string {
    if key in table then table[key] else ""
  }

  // ----- one port -----

  predicate PortReadable(tor: string, raw: RawPort) {
    && IntegerOf(raw.instId).Some? && TextOf(raw.name).Some? && TextOf(raw.uuid).Some?
    && TextOf(raw.kind) == Some(PHYSICAL)
    && (TextOf(raw.owner) == Some("") || TextOf(raw.owner) == Some(tor))
  }

  function PortFrom(raw: RawPort): Port {
    match (TextOf(raw.name), TextOf(raw.uuid))
    case (Some(name), Some(uuid)) => Port(name, uuid)
    case _ => Port("", "")
  }

  // Each port readable, instances positive and strictly increasing.
  predicate PortsReadable(tor: string, raws: seq<RawPort>) {
    forall k | 0 <= k < |raws| :: PortReadable(tor, raws[k]) && raws[k].instId.value > InstBefore(raws, k)
  }

  function InstBefore(raws: seq<RawPort>, k: nat): int
    requires k <= |raws|
  {
    if k > 0 && raws[k - 1].instId.Value? then raws[k - 1].instId.value else 0
  }

  function PortsFrom(raws: seq<RawPort>): (r: seq<Port>)
    ensures |r| == |raws|
  {
    seq(|raws|, k requires 0 <= k < |raws| => PortFrom(raws[k]))
  }

  // ----- which port a name means -----

  // The name stands at k only.
  predicate Once(ports: seq<Port>, k: nat)
    requires k < |ports|
  {
    forall j | 0 <= j < |ports| :: ports[j].name == ports[k].name ==> j == k
  }

  // The identifier stands under two names, a blank one counting as a name.
  predicate Shared(ports: seq<Port>, uuid: string) {
    exists i, j | 0 <= i < |ports| && 0 <= j < |ports| :: Clash(ports[i], ports[j], uuid)
  }

  predicate Clash(a: Port, b: Port, uuid: string) {
    a.uuid == uuid && b.uuid == uuid && a.name != b.name
  }

  predicate Means(ports: seq<Port>, name: string, k: nat)
    requires k < |ports|
  {
    ports[k].name == name && name != "" && Once(ports, k) && ports[k].uuid != "" && !Shared(ports, ports[k].uuid)
  }

  // The identifier a name resolves to, or blank.
  function PortOf(ports: seq<Port>, name: string): string {
    if exists k | 0 <= k < |ports| :: Means(ports, name, k) then
      var k :| 0 <= k < |ports| && Means(ports, name, k);
      ports[k].uuid
    else ""
  }

  // The pair stands at k, its name nowhere else, its identifier under no other name.
  predicate OnlyThere(ports: seq<Port>, name: string, uuid: string, k: int) {
    && 0 <= k < |ports| && ports[k] == Port(name, uuid)
    && (forall j | 0 <= j < |ports| && ports[j].name == name :: j == k)
    && (forall j | 0 <= j < |ports| && ports[j].uuid == uuid :: ports[j].name == name)
  }

  /** A name resolves to an identifier if and only if the name is not blank, stands exactly once, its
      identifier is not blank, and that identifier stands under no other name. */
  lemma ResolvesWhen(ports: seq<Port>, name: string, uuid: string)
    requires uuid != ""
    ensures PortOf(ports, name) == uuid <==> name != "" && exists k :: OnlyThere(ports, name, uuid, k)
  {
    if PortOf(ports, name) == uuid {
      var k :| 0 <= k < |ports| && Means(ports, name, k);
      assert PortOf(ports, name) == ports[k].uuid;
      forall j | 0 <= j < |ports| && ports[j].uuid == uuid ensures ports[j].name == name {
        assert !Clash(ports[j], ports[k], uuid);
      }
      assert OnlyThere(ports, name, uuid, k);
    }
    if name != "" {
      if k :| OnlyThere(ports, name, uuid, k) { assert Means(ports, name, k); }
    }
  }

  /** Hence no two names resolve to one identifier. */
  lemma ResolvingIsInjective(ports: seq<Port>, a: string, b: string)
    requires PortOf(ports, a) == PortOf(ports, b) != ""
    ensures a == b
  {
  }

  // ----- a switch -----

  predicate TorMatches(tor: string, device: RawTor) {
    TextOf(device.sn) == Some(tor) && IntegerOf(device.category) == Some(NETWORK_CATEGORY)
    && IntegerOf(device.instId).Some? && device.instId.value > 0
  }

  predicate TorDecodes(device: RawTor) {
    TextOf(device.sn).Some? && IntegerOf(device.category).Some? && IntegerOf(device.instId).Some?
  }

  // Whether a switch can be looked up at all. Only the one device that matches has its ports read.
  predicate Resolvable(net: Network, tor: string) {
    |At(net.tors, tor)| == 1 ==>
      && TorDecodes(At(net.tors, tor)[0])
      && (TorMatches(tor, At(net.tors, tor)[0]) ==> PortsReadable(tor, At(net.ports, tor)))
  }

  predicate Known(net: Network, tor: string) {
    |At(net.tors, tor)| == 1 && TorMatches(tor, At(net.tors, tor)[0])
  }

  function Resolve(net: Network, tor: string, name: string): string {
    if Known(net, tor) then PortOf(PortsFrom(At(net.ports, tor)), name) else ""
  }

  // ----- what the raw items say -----

  // What a field holds once surrounding space is taken off, nothing being blank.
  ghost predicate Reads(field: Field<string>, text: string) {
    (field.Missing? && text == "") || (field.Value? && TrimSpace(field.value) == text)
  }

  // One device answers to the serial number, and it is a numbered switch of that number.
  ghost predicate SwitchFound(net: Network, tor: string) {
    && tor in net.tors && |net.tors[tor]| == 1
    && var device := net.tors[tor][0];
       Reads(device.sn, tor) && device.category == Value(54) && device.instId.Value? && device.instId.value > 0
  }

  // A physical port of that switch or of none named, numbered above the one before it.
  ghost predicate PhysicalPort(tor: string, raws: seq<RawPort>, k: nat)
    requires k < |raws|
  {
    && raws[k].instId.Value? && raws[k].instId.value > 0
    && (k > 0 && raws[k - 1].instId.Value? ==> raws[k - 1].instId.value < raws[k].instId.value)
    && !raws[k].name.Invalid? && !raws[k].uuid.Invalid? && Reads(raws[k].kind, "physics")
    && (Reads(raws[k].owner, "") || Reads(raws[k].owner, tor))
  }

  // A single device is read in full, and so are its ports once it is the switch.
  ghost predicate Answerable(net: Network, tor: string) {
    tor in net.tors && |net.tors[tor]| == 1 ==>
      && !net.tors[tor][0].sn.Invalid? && net.tors[tor][0].category.Value? && net.tors[tor][0].instId.Value?
      && (SwitchFound(net, tor) && tor in net.ports ==>
            forall k | 0 <= k < |net.ports[tor]| :: PhysicalPort(tor, net.ports[tor], k))
  }

  // Only the item at k has that name; it has that identifier, which no item has under another name.
  ghost predicate OneAndOnly(raws: seq<RawPort>, name: string, uuid: string, k: int) {
    && 0 <= k < |raws| && Reads(raws[k].name, name) && Reads(raws[k].uuid, uuid)
    && (forall j | 0 <= j < |raws| && Reads(raws[j].name, name) :: j == k)
    && (forall j | 0 <= j < |raws| && Reads(raws[j].uuid, uuid) :: Reads(raws[j].name, name))
  }

  /** The name stands for that identifier on that switch. */
  ghost predicate StandsFor(net: Network, tor: string, name: string, uuid: string) {
    && SwitchFound(net, tor) && name != "" && uuid != "" && tor in net.ports
    && exists k :: OneAndOnly(net.ports[tor], name, uuid, k)
  }

  lemma FieldReads(field: Field<string>, text: string)
    ensures Reads(field, text) <==> TextOf(field) == Some(text)
  {
  }

  lemma SwitchMeans(net: Network, tor: string)
    ensures Known(net, tor) <==> SwitchFound(net, tor)
  {
    if tor in net.tors && |net.tors[tor]| == 1 { FieldReads(net.tors[tor][0].sn, tor); }
  }

  lemma ReadableMeans(tor: string, raws: seq<RawPort>)
    ensures PortsReadable(tor, raws) <==> forall k | 0 <= k < |raws| :: PhysicalPort(tor, raws, k)
  {
    hide TrimSpace;
    forall k | 0 <= k < |raws|
      ensures PhysicalPort(tor, raws, k) <==>
                && PortReadable(tor, raws[k]) && raws[k].instId.value > InstBefore(raws, k)
                && raws[k].instId.value > 0
    {
      FieldReads(raws[k].kind, "physics");
      FieldReads(raws[k].owner, "");
      FieldReads(raws[k].owner, tor);
    }
    hide PhysicalPort, PortReadable;
    if PortsReadable(tor, raws) {
      forall k: nat | k < |raws| ensures raws[k].instId.value > 0 { InstancesPositive(tor, raws, k); }
    }
  }

  lemma {:induction false} InstancesPositive(tor: string, raws: seq<RawPort>, k: nat)
    requires PortsReadable(tor, raws) && k < |raws|
    ensures raws[k].instId.value > 0
    decreases k
  {
    if k > 0 { InstancesPositive(tor, raws, k - 1); }
  }

  lemma ResolvableMeans(net: Network, tor: string)
    ensures Resolvable(net, tor) <==> Answerable(net, tor)
  {
    hide TrimSpace, PortsReadable, PhysicalPort;
    SwitchMeans(net, tor);
    ReadableMeans(tor, At(net.ports, tor));
  }

  lemma PortReads(tor: string, raw: RawPort)
    requires PortReadable(tor, raw)
    ensures forall text :: Reads(raw.name, text) <==> PortFrom(raw).name == text
    ensures forall text :: Reads(raw.uuid, text) <==> PortFrom(raw).uuid == text
  {
  }

  /** Resolution, over the raw items: the identifier a name resolves to is the one it stands for. */
  lemma ResolveMeans(net: Network, tor: string, name: string, uuid: string)
    requires Resolvable(net, tor) && uuid != ""
    ensures Resolve(net, tor, name) == uuid <==> StandsFor(net, tor, name, uuid)
  {
    hide TrimSpace, PortReadable, PortOf, PortFrom, Reads;
    SwitchMeans(net, tor);
    hide SwitchFound;
    if Known(net, tor) {
      var raws := At(net.ports, tor);
      var ports := PortsFrom(raws);
      PortsRead(tor, raws);
      forall k ensures OneAndOnly(raws, name, uuid, k) <==> OnlyThere(ports, name, uuid, k) {}
      ResolvesWhen(ports, name, uuid);
    }
  }

  // ----- tables built port by port -----

  ghost predicate NamesTabled(ports: seq<Port>, table: map<string, string>, seen: set<string>) {
    && table.Keys == seen
    && (forall k | 0 <= k < |ports| ::
          ports[k].name in table && table[ports[k].name] == if Once(ports, k) then ports[k].uuid else "")
    && (forall name | name in table :: exists k | 0 <= k < |ports| :: ports[k].name == name)
  }

  ghost predicate UuidsTabled(ports: seq<Port>, last: map<string, string>, ambiguous: set<string>) {
    && (forall k | 0 <= k < |ports| && ports[k].uuid != "" :: ports[k].uuid in last)
    && (forall uuid | uuid in last :: uuid != "" && exists k | 0 <= k < |ports| :: ports[k] == Port(last[uuid], uuid))
    && (forall uuid :: uuid in ambiguous <==> uuid != "" && Shared(ports, uuid))
  }

  lemma OnceGrows(ports: seq<Port>, port: Port, k: nat)
    requires k <= |ports|
    ensures k < |ports| ==> (Once(ports + [port], k) <==> Once(ports, k) && ports[k].name != port.name)
    ensures k == |ports| ==> (Once(ports + [port], k) <==> forall j | 0 <= j < |ports| :: ports[j].name != port.name)
  {
    var all, n := ports + [port], |ports|;
    assert forall j | 0 <= j < n :: all[j] == ports[j];
    if k < n && Once(all, k) {
      forall j | 0 <= j < n && ports[j].name == ports[k].name ensures j == k { assert all[j].name == all[k].name; }
      assert all[n].name != all[k].name;
    }
    if k == n && Once(all, k) {
      forall j | 0 <= j < n ensures ports[j].name != port.name { assert all[j].name == all[n].name ==> j == n; }
    }
  }

  lemma NamesGrow(ports: seq<Port>, port: Port, table: map<string, string>, seen: set<string>)
    requires NamesTabled(ports, table, seen)
    ensures NamesTabled(ports + [port], table[port.name := if port.name in seen then "" else port.uuid],
              seen + {port.name})
  {
    var all, n := ports + [port], |ports|;
    var now := table[port.name := if port.name in seen then "" else port.uuid];
    forall k | 0 <= k < |all|
      ensures all[k].name in now && now[all[k].name] == if Once(all, k) then all[k].uuid else ""
    {
      OnceGrows(ports, port, k);
      if k == n && port.name in seen {
        var j :| 0 <= j < n && ports[j].name == port.name;
      }
    }
    forall name | name in now ensures exists k | 0 <= k < |all| :: all[k].name == name {
      if name == port.name { assert all[n].name == name; }
      else {
        var k :| 0 <= k < n && ports[k].name == name;
        assert all[k].name == name;
      }
    }
  }

  lemma SharedGrows(ports: seq<Port>, port: Port, last: map<string, string>, ambiguous: set<string>, uuid: string)
    requires UuidsTabled(ports, last, ambiguous) && uuid != ""
    ensures Shared(ports + [port], uuid) <==>
              Shared(ports, uuid) || (uuid == port.uuid && uuid in last && last[uuid] != port.name)
  {
    var all, n := ports + [port], |ports|;
    if Shared(ports, uuid) {
      var i, j :| 0 <= i < n && 0 <= j < n && Clash(ports[i], ports[j], uuid);
      assert Clash(all[i], all[j], uuid);
    } else if uuid == port.uuid && uuid in last && last[uuid] != port.name {
      var k :| 0 <= k < n && ports[k] == Port(last[uuid], uuid);
      assert Clash(all[k], all[n], uuid);
    }
  }

  function LastNames(port: Port, last: map<string, string>): map<string, string> {
    if port.uuid == "" then last else last[port.uuid := port.name]
  }

  function NowAmbiguous(port: Port, last: map<string, string>, ambiguous: set<string>): set<string> {
    if port.uuid != "" && port.uuid in last && last[port.uuid] != port.name then ambiguous + {port.uuid} else ambiguous
  }

  lemma UuidsGrow(ports: seq<Port>, port: Port, last: map<string, string>, ambiguous: set<string>)
    requires UuidsTabled(ports, last, ambiguous)
    ensures UuidsTabled(ports + [port], LastNames(port, last), NowAmbiguous(port, last, ambiguous))
  {
    var all, n := ports + [port], |ports|;
    var now := LastNames(port, last);
    forall uuid | uuid in now ensures uuid != "" && exists k | 0 <= k < |all| :: all[k] == Port(now[uuid], uuid) {
      if uuid == port.uuid { assert all[n] == Port(now[uuid], uuid); }
      else {
        var k :| 0 <= k < n && ports[k] == Port(last[uuid], uuid);
        assert all[k] == Port(now[uuid], uuid);
      }
    }
    forall uuid ensures uuid in NowAmbiguous(port, last, ambiguous) <==> uuid != "" && Shared(all, uuid) {
      if uuid != "" { SharedGrows(ports, port, last, ambiguous, uuid); }
    }
  }

  // Blanking the blank name and every name of an ambiguous identifier leaves exactly what names mean.
  lemma BlankedTableMeans(ports: seq<Port>, table: map<string, string>, seen: set<string>, last: map<string, string>,
        ambiguous: set<string>, name: string)
    requires NamesTabled(ports, table, seen) && UuidsTabled(ports, last, ambiguous)
    ensures PortOf(ports, name) == if name == "" || Lookup(table, name) in ambiguous then "" else Lookup(table, name)
  {
    if k :| 0 <= k < |ports| && Means(ports, name, k) {
      assert PortOf(ports, name) == ports[k].uuid;
    } else if name in table && name != "" && table[name] != "" && table[name] !in ambiguous {
      var k :| 0 <= k < |ports| && ports[k].name == name;
      assert Means(ports, name, k);
    }
  }

  // ----- why a name does not resolve -----

  // The diagnostic reasons; Clear is the blank one, of a reference that resolves.
  datatype Reason =
    | Clear | BlankPortName | PortNameMissing | AmbiguousPortName | BlankPortUuid | AmbiguousPortUuid
    | NetworkTorNotFound | MultipleNetworkTors | TorIdentityMismatch | BlankTorSn | EmptyPorts

  function ReasonAt(reasons: map<string, Reason>, name: string): Reason {
    if name in reasons then reasons[name] else Clear
  }

  // What is wrong with the port at k.
  function Fault(ports: seq<Port>, k: nat): Reason
    requires k < |ports|
  {
    if !Once(ports, k) then AmbiguousPortName
    else if ports[k].uuid == "" then BlankPortUuid
    else if Shared(ports, ports[k].uuid) then AmbiguousPortUuid
    else Clear
  }

  ghost predicate ReasonIs(ports: seq<Port>, name: string, reason: Reason) {
    if name == "" then reason == BlankPortName
    else
      && (forall k | 0 <= k < |ports| && ports[k].name == name :: reason == Fault(ports, k))
      && ((forall k | 0 <= k < |ports| :: ports[k].name != name) ==> reason == PortNameMissing)
  }

  // The reason a reference to this port of this switch carries; Clear when it resolves.
  ghost predicate Diagnosed(net: Network, tor: string, name: string, reason: Reason) {
    if name == "" then reason == BlankPortName
    else if |At(net.tors, tor)| == 0 then reason == NetworkTorNotFound
    else if |At(net.tors, tor)| != 1 then reason == MultipleNetworkTors
    else if !TorMatches(tor, At(net.tors, tor)[0]) then reason == TorIdentityMismatch
    else ReasonIs(PortsFrom(At(net.ports, tor)), name, reason)
  }

  /** Diagnosis and resolution agree: the reason is clear exactly when there is an identifier. */
  lemma NoReasonMeansResolved(net: Network, tor: string, name: string, reason: Reason)
    requires Diagnosed(net, tor, name, reason)
    ensures reason == Clear <==> Resolve(net, tor, name) != ""
  {
    if Known(net, tor) && name != "" {
      var ports := PortsFrom(At(net.ports, tor));
      if k :| 0 <= k < |ports| && ports[k].name == name {
        assert reason == Fault(ports, k);
        assert Means(ports, name, k) <==> reason == Clear;
        assert forall m | 0 <= m < |ports| :: Means(ports, name, m) ==> m == k;
      }
    }
  }

  // Of the items with that name, one or several, and what is the matter with a single one.
  ghost predicate Blamed(raws: seq<RawPort>, name: string, reason: Reason) {
    && ((forall k | 0 <= k < |raws| :: !Reads(raws[k].name, name)) ==> reason == PortNameMissing)
    && (forall k | 0 <= k < |raws| && Reads(raws[k].name, name) :: BlamedAt(raws, name, k, reason))
  }

  ghost predicate BlamedAt(raws: seq<RawPort>, name: string, k: nat, reason: Reason)
    requires k < |raws|
  {
    if exists j | 0 <= j < |raws| :: j != k && Reads(raws[j].name, name) then reason == AmbiguousPortName
    else if Reads(raws[k].uuid, "") then reason == BlankPortUuid
    else if exists j | 0 <= j < |raws| :: AlsoUnder(raws[k], raws[j], name) then reason == AmbiguousPortUuid
    else reason == Clear
  }

  // Two items share an identifier, the second under another name.
  ghost predicate AlsoUnder(a: RawPort, b: RawPort, name: string) {
    !Reads(b.name, name) && exists uuid :: Reads(a.uuid, uuid) && Reads(b.uuid, uuid)
  }

  /** What is the matter with a name on that switch. */
  ghost predicate Blame(net: Network, tor: string, name: string, reason: Reason) {
    if name == "" then reason == BlankPortName
    else if tor !in net.tors || net.tors[tor] == [] then reason == NetworkTorNotFound
    else if |net.tors[tor]| > 1 then reason == MultipleNetworkTors
    else if !SwitchFound(net, tor) then reason == TorIdentityMismatch
    else if tor !in net.ports then reason == PortNameMissing
    else Blamed(net.ports[tor], name, reason)
  }

  // The decoded ports read as the raw ones do.
  ghost predicate SameReadings(raws: seq<RawPort>, ports: seq<Port>) {
    && |ports| == |raws|
    && (forall k, text | 0 <= k < |raws| :: Reads(raws[k].name, text) <==> ports[k].name == text)
    && (forall k, text | 0 <= k < |raws| :: Reads(raws[k].uuid, text) <==> ports[k].uuid == text)
  }

  lemma PortsRead(tor: string, raws: seq<RawPort>)
    requires PortsReadable(tor, raws)
    ensures SameReadings(raws, PortsFrom(raws))
  {
    hide TrimSpace, PortReadable, PortFrom, Reads;
    forall k | 0 <= k < |raws|
      ensures forall text :: Reads(raws[k].name, text) <==> PortFrom(raws[k]).name == text
      ensures forall text :: Reads(raws[k].uuid, text) <==> PortFrom(raws[k]).uuid == text
    {
      PortReads(tor, raws[k]);
    }
  }

  lemma FaultMeans(raws: seq<RawPort>, ports: seq<Port>, name: string, k: nat)
    requires SameReadings(raws, ports) && k < |raws| && ports[k].name == name
    ensures BlamedAt(raws, name, k, Fault(ports, k))
  {
    hide Reads, AlsoUnder, Shared;
    SharedMeans(raws, ports, name, k);
    assert Reads(raws[k].uuid, "") <==> ports[k].uuid == "";
    assert forall j | 0 <= j < |raws| :: Reads(raws[j].name, name) <==> ports[j].name == name;
    assert Once(ports, k) <==> !exists j | 0 <= j < |raws| :: j != k && Reads(raws[j].name, name);
  }

  lemma SharedMeans(raws: seq<RawPort>, ports: seq<Port>, name: string, k: nat)
    requires SameReadings(raws, ports) && k < |raws| && ports[k].name == name
    ensures Shared(ports, ports[k].uuid) <==> exists j | 0 <= j < |raws| :: AlsoUnder(raws[k], raws[j], name)
  {
    hide TrimSpace, Reads;
    var uuid := ports[k].uuid;
    if i, j :| 0 <= i < |ports| && 0 <= j < |ports| && Clash(ports[i], ports[j], uuid) {
      var other := if ports[i].name != name then i else j;
      assert Reads(raws[k].uuid, uuid) && Reads(raws[other].uuid, uuid) && !Reads(raws[other].name, name);
      assert AlsoUnder(raws[k], raws[other], name);
    }
    if j :| 0 <= j < |raws| && AlsoUnder(raws[k], raws[j], name) {
      assert Clash(ports[k], ports[j], uuid);
    }
  }

  lemma FaultsMean(raws: seq<RawPort>, ports: seq<Port>, name: string, reason: Reason)
    requires SameReadings(raws, ports) && ReasonIs(ports, name, reason) && name != ""
    ensures Blamed(raws, name, reason)
  {
    hide Reads, BlamedAt, Fault;
    assert forall k | 0 <= k < |raws| :: Reads(raws[k].name, name) <==> ports[k].name == name;
    forall k | 0 <= k < |raws| && Reads(raws[k].name, name) ensures BlamedAt(raws, name, k, reason) {
      FaultMeans(raws, ports, name, k);
    }
  }

  /** Diagnosis, over the raw items. */
  lemma DiagnosedMeans(net: Network, tor: string, name: string, reason: Reason)
    requires Resolvable(net, tor) && Diagnosed(net, tor, name, reason)
    ensures Blame(net, tor, name, reason)
  {
    hide TrimSpace, PortReadable, BlamedAt, Reads, SameReadings, Fault, PortsFrom;
    SwitchMeans(net, tor);
    hide SwitchFound;
    if Known(net, tor) && name != "" && tor in net.ports {
      var raws := net.ports[tor];
      PortsRead(tor, raws);
      FaultsMean(raws, PortsFrom(raws), name, reason);
    }
  }

  // ----- production -----

  // The maps the two loops keep.
  datatype Tables = Tables(ports: map<string, string>, seenNames: set<string>, seenUuid: map<string, string>,
      ambiguousUuid: set<string>)

  ghost predicate Tabled(ports: seq<Port>, t: Tables) {
    NamesTabled(ports, t.ports, t.seenNames) && UuidsTabled(ports, t.seenUuid, t.ambiguousUuid)
  }

  method AddPort(t: Tables, port: Port, ghost before: seq<Port>) returns (now: Tables)
    requires Tabled(before, t)
    ensures Tabled(before + [port], now)
    ensures now.ports == t.ports[port.name := if port.name in t.seenNames then "" else port.uuid]
    ensures now.seenNames == t.seenNames + {port.name}
  {
    NamesGrow(before, port, t.ports, t.seenNames);
    UuidsGrow(before, port, t.seenUuid, t.ambiguousUuid);
    var ports, seenUuid, ambiguousUuid := t.ports, t.seenUuid, t.ambiguousUuid;
    if port.name in t.seenNames {
      ports := ports[port.name := ""];
    } else {
      ports := ports[port.name := port.uuid];
    }
    if port.uuid != "" {
      if port.uuid in seenUuid && seenUuid[port.uuid] != port.name {
        ambiguousUuid := ambiguousUuid + {port.uuid};
      }
      seenUuid := seenUuid[port.uuid := port.name];
    }
    now := Tables(ports, t.seenNames + {port.name}, seenUuid, ambiguousUuid);
  }

  // Decodes and checks one item of a port page.
  method CheckPort(tor: string, raw: RawPort, lastInst: int) returns (port: Option<Port>)
    ensures port.Some? <==> PortReadable(tor, raw) && raw.instId.value > lastInst
    ensures port.Some? ==> port.value == PortFrom(raw)
  {
    var inst := IntegerOf(raw.instId);
    if inst.None? || inst.value <= lastInst { return None; }
    var name, uuid := TextOf(raw.name), TextOf(raw.uuid);
    if name.None? || uuid.None? { return None; }
    var kind, owner := TextOf(raw.kind), TextOf(raw.owner);
    if kind.None? || owner.None? { return None; }
    if kind.value != PHYSICAL || (owner.value != "" && owner.value != tor) { return None; }
    port := Some(Port(name.value, uuid.value));
  }

  lemma PortsReadableStep(tor: string, raws: seq<RawPort>, k: nat, lastInst: int)
    requires k < |raws| && PortsReadable(tor, raws[..k])
    requires lastInst == InstBefore(raws, k)
    ensures PortsReadable(tor, raws[..k + 1]) <==> PortReadable(tor, raws[k]) && raws[k].instId.value > lastInst
    ensures PortsReadable(tor, raws) ==> PortsReadable(tor, raws[..k + 1])
    ensures PortsFrom(raws[..k + 1]) == PortsFrom(raws[..k]) + [PortFrom(raws[k])]
  {
    hide PortReadable, PortFrom, PortsFrom;
    PortsFromStep(raws, k);
    var before, next := raws[..k], raws[..k + 1];
    assert forall j | 0 <= j <= k :: next[j] == raws[j] && InstBefore(next, j) == InstBefore(raws, j);
    assert forall j | 0 <= j < k :: before[j] == raws[j] && InstBefore(before, j) == InstBefore(raws, j);
  }

  lemma PortsFromStep(raws: seq<RawPort>, k: nat)
    requires k < |raws|
    ensures PortsFrom(raws[..k + 1]) == PortsFrom(raws[..k]) + [PortFrom(raws[k])]
  {
    hide PortFrom;
    assert raws[..k + 1] == raws[..k] + [raws[k]];
  }

  // Where the page loop stands after k ports.
  ghost predicate ReadSoFar(tor: string, raws: seq<RawPort>, k: nat, lastInst: int)
    requires k <= |raws|
  {
    && PortsReadable(tor, raws[..k])
    && lastInst == InstBefore(raws, k)
  }

  method AddPage(tor: string, ghost raws: seq<RawPort>, ghost start: nat, items: seq<RawPort>, t: Tables, lastInst: int)
    returns (ok: bool, now: Tables, nowInst: int)
    requires start + |items| <= |raws| && items == raws[start..start + |items|]
    requires ReadSoFar(tor, raws, start, lastInst) && Tabled(PortsFrom(raws[..start]), t)
    ensures ok ==> ReadSoFar(tor, raws, start + |items|, nowInst) && Tabled(PortsFrom(raws[..start + |items|]), now)
    ensures !ok ==> !PortsReadable(tor, raws)
  {
    hide Tabled, PortsFrom;
    ok, now, nowInst := true, t, lastInst;
    for i := 0 to |items|
      invariant ok && ReadSoFar(tor, raws, start + i, nowInst) && Tabled(PortsFrom(raws[..start + i]), now)
    {
      PortsReadableStep(tor, raws, start + i, nowInst);
      var port := CheckPort(tor, items[i], nowInst);
      if port.None? { return false, now, nowInst; }
      now := AddPort(now, port.value, PortsFrom(raws[..start + i]));
      nowInst := items[i].instId.value;
    }
  }

  method BlankNames(ports: map<string, string>, ambiguousUuid: set<string>) returns (table: map<string, string>)
    ensures table.Keys == ports.Keys
    ensures forall name | name in ports :: table[name] == if name == "" || ports[name] in ambiguousUuid then ""
              else ports[name]
  {
    table := ports;
    var names := ports.Keys;
    while names != {}
      invariant names <= ports.Keys && table.Keys == ports.Keys
      invariant forall name | name in ports ::
        table[name] == if name !in names && (name == "" || ports[name] in ambiguousUuid) then "" else ports[name]
      decreases names
    {
      var name :| name in names;
      if name == "" || table[name] in ambiguousUuid { table := table[name := ""]; }
      names := names - {name};
    }
  }

  method ReadTables(net: Network, pageSize: nat, tor: string) returns (tables: Option<Tables>)
    requires pageSize > 0
    ensures tables.Some? <==> PortsReadable(tor, At(net.ports, tor))
    ensures tables.Some? ==> Tabled(PortsFrom(At(net.ports, tor)), tables.value)
  {
    var t := Tables(map[], {}, map[], {});
    ghost var raws := At(net.ports, tor);
    var lastInst, start := 0, 0;
    hide Tabled, PortsFrom, PortsReadable;
    NothingRead(tor, raws);
    while true
      invariant start <= |raws| && ReadSoFar(tor, raws, start, lastInst) && Tabled(PortsFrom(raws[..start]), t)
      decreases |raws| - start
    {
      var items, total := Reply(At(net.ports, tor), start, pageSize), |At(net.ports, tor)|;
      assert items == raws[start..start + |items|];
      var ok;
      ok, t, lastInst := AddPage(tor, raws, start, items, t, lastInst);
      if !ok { return None; }
      start := start + |items|;
      if start == total { break; }
    }
    assert raws[..start] == raws;
    tables := Some(t);
  }

  lemma TableStands(net: Network, tor: string, table: map<string, string>)
    requires Resolvable(net, tor) && forall name :: Lookup(table, name) == Resolve(net, tor, name)
    ensures Answerable(net, tor)
    ensures forall name, uuid | uuid != "" ::
              (name in table && table[name] == uuid) <==> StandsFor(net, tor, name, uuid)
  {
    hide Resolvable, Answerable, Resolve, StandsFor;
    ResolvableMeans(net, tor);
    forall name, uuid | uuid != ""
      ensures (name in table && table[name] == uuid) <==> StandsFor(net, tor, name, uuid)
    {
      assert Lookup(table, name) == Resolve(net, tor, name);
      ResolveMeans(net, tor, name, uuid);
    }
  }

  /** The production table. For every page size it fails on the same switches, and gives a name exactly the
      identifier it stands for among the switch's raw items. */
  method CollectToRPorts(net: Network, pageSize: nat, tor: string) returns (table: Option<map<string, string>>)
    requires pageSize > 0
    ensures table.Some? <==> Resolvable(net, tor)
    ensures table.Some? ==> forall name :: Lookup(table.value, name) == Resolve(net, tor, name)
    ensures table.Some? <==> Answerable(net, tor)
    ensures table.Some? ==> forall name, uuid | uuid != "" ::
      (name in table.value && table.value[name] == uuid) <==> StandsFor(net, tor, name, uuid)
  {
    hide Answerable, StandsFor, PortsReadable, TrimSpace, PortOf;
    ResolvableMeans(net, tor);
    var unknown: map<string, string> := map[];
    if !Known(net, tor) && Resolvable(net, tor) { TableStands(net, tor, unknown); }
    var devices, count := Reply(At(net.tors, tor), 0, pageSize), |At(net.tors, tor)|;
    if count == 0 { return Some(unknown); }
    if count != 1 { return Some(unknown); }
    var device := devices[0];
    var sn, category, inst := TextOf(device.sn), IntegerOf(device.category), IntegerOf(device.instId);
    if sn.None? || category.None? || inst.None? { return None; }
    if sn.value != tor || category.value != NETWORK_CATEGORY || inst.value <= 0 { return Some(unknown); }
    var tables := ReadTables(net, pageSize, tor);
    if tables.None? { return None; }
    var t := tables.value;
    var blanked := BlankNames(t.ports, t.ambiguousUuid);
    ghost var ports := PortsFrom(At(net.ports, tor));
    forall name ensures Lookup(blanked, name) == PortOf(ports, name) {
      BlankedTableMeans(ports, t.ports, t.seenNames, t.seenUuid, t.ambiguousUuid, name);
    }
    TableStands(net, tor, blanked);
    table := Some(blanked);
  }

  // ----- diagnostics -----

  datatype DiagnosticToR = DiagnosticToR(instanceId: int, reason: Reason, ports: map<string, string>,
      reasons: map<string, Reason>)

  // Before the last loop no identifier is known to be shared.
  function EarlyFault(ports: seq<Port>, k: nat): Reason
    requires k < |ports|
  {
    if !Once(ports, k) then AmbiguousPortName else if ports[k].uuid == "" then BlankPortUuid else Clear
  }

  ghost predicate ReasonsTabled(ports: seq<Port>, reasons: map<string, Reason>) {
    && (forall k | 0 <= k < |ports| :: ReasonAt(reasons, ports[k].name) == EarlyFault(ports, k))
    && (forall name | name in reasons :: exists k | 0 <= k < |ports| :: ports[k].name == name)
  }

  function ReasonAfter(seen: bool, uuid: string, reasons: map<string, Reason>, name: string): map<string, Reason> {
    if seen then reasons[name := AmbiguousPortName]
    else if uuid == "" then reasons[name := BlankPortUuid]
    else reasons
  }

  lemma NothingRead(tor: string, raws: seq<RawPort>)
    ensures ReadSoFar(tor, raws, 0, 0)
    ensures Tabled(PortsFrom(raws[..0]), Tables(map[], {}, map[], {})) && ReasonsTabled(PortsFrom(raws[..0]), map[])
  {
  }

  lemma ReasonGrows(ports: seq<Port>, port: Port, table: map<string, string>, seen: set<string>,
        reasons: map<string, Reason>, k: nat)
    requires NamesTabled(ports, table, seen) && ReasonsTabled(ports, reasons) && k <= |ports|
    ensures ReasonAt(ReasonAfter(port.name in seen, port.uuid, reasons, port.name), (ports + [port])[k].name) ==
              EarlyFault(ports + [port], k)
  {
    OnceGrows(ports, port, k);
    hide Once;
    if k < |ports| {
      assert ReasonAt(reasons, ports[k].name) == EarlyFault(ports, k);
    } else if port.name in seen {
      var j :| 0 <= j < |ports| && ports[j].name == port.name;
    } else {
      assert port.name !in reasons;
    }
  }

  lemma ReasonsGrow(ports: seq<Port>, port: Port, table: map<string, string>, seen: set<string>,
        reasons: map<string, Reason>)
    requires NamesTabled(ports, table, seen) && ReasonsTabled(ports, reasons)
    ensures ReasonsTabled(ports + [port], ReasonAfter(port.name in seen, port.uuid, reasons, port.name))
  {
    var all, n := ports + [port], |ports|;
    var now := ReasonAfter(port.name in seen, port.uuid, reasons, port.name);
    hide NamesTabled, Once;
    forall k | 0 <= k < |all| ensures ReasonAt(now, all[k].name) == EarlyFault(all, k) {
      ReasonGrows(ports, port, table, seen, reasons, k);
    }
    forall name | name in now ensures exists k | 0 <= k < |all| :: all[k].name == name {
      if name == port.name { assert all[n].name == name; }
      else {
        var k :| 0 <= k < n && ports[k].name == name;
        assert all[k].name == name;
      }
    }
  }

  method AddDiagnosticPort(t: Tables, reasons: map<string, Reason>, port: Port, ghost before: seq<Port>)
    returns (now: Tables, nowReasons: map<string, Reason>)
    requires Tabled(before, t) && ReasonsTabled(before, reasons)
    ensures Tabled(before + [port], now) && ReasonsTabled(before + [port], nowReasons)
  {
    ReasonsGrow(before, port, t.ports, t.seenNames, reasons);
    nowReasons := reasons;
    if port.name in t.seenNames {
      nowReasons := nowReasons[port.name := AmbiguousPortName];
    } else if port.uuid == "" {
      nowReasons := nowReasons[port.name := BlankPortUuid];
    }
    now := AddPort(t, port, before);
  }

  method AddDiagnosticPage(tor: string, ghost raws: seq<RawPort>, ghost start: nat, items: seq<RawPort>, t: Tables,
                           reasons: map<string, Reason>, lastInst: int)
    returns (ok: bool, now: Tables, nowReasons: map<string, Reason>, nowInst: int)
    requires start + |items| <= |raws| && items == raws[start..start + |items|]
    requires ReadSoFar(tor, raws, start, lastInst) && Tabled(PortsFrom(raws[..start]), t)
    requires ReasonsTabled(PortsFrom(raws[..start]), reasons)
    ensures ok ==>
      && ReadSoFar(tor, raws, start + |items|, nowInst)
      && Tabled(PortsFrom(raws[..start + |items|]), now)
      && ReasonsTabled(PortsFrom(raws[..start + |items|]), nowReasons)
    ensures !ok ==> !PortsReadable(tor, raws)
  {
    hide Tabled, PortsFrom, ReasonsTabled;
    ok, now, nowReasons, nowInst := true, t, reasons, lastInst;
    for i := 0 to |items|
      invariant ok && ReadSoFar(tor, raws, start + i, nowInst)
      invariant Tabled(PortsFrom(raws[..start + i]), now) && ReasonsTabled(PortsFrom(raws[..start + i]), nowReasons)
    {
      PortsReadableStep(tor, raws, start + i, nowInst);
      var port := CheckPort(tor, items[i], nowInst);
      if port.None? { return false, now, nowReasons, nowInst; }
      now, nowReasons := AddDiagnosticPort(now, nowReasons, port.value, PortsFrom(raws[..start + i]));
      nowInst := items[i].instId.value;
    }
  }

  method ReadDiagnosticTables(net: Network, pageSize: nat, tor: string)
    returns (tables: Option<Tables>, reasons: map<string, Reason>)
    requires pageSize > 0
    ensures tables.Some? <==> PortsReadable(tor, At(net.ports, tor))
    ensures tables.Some? ==>
      Tabled(PortsFrom(At(net.ports, tor)), tables.value) && ReasonsTabled(PortsFrom(At(net.ports, tor)), reasons)
  {
    var t := Tables(map[], {}, map[], {});
    reasons := map[];
    ghost var raws := At(net.ports, tor);
    var lastInst, start := 0, 0;
    hide Tabled, PortsFrom, PortsReadable, ReasonsTabled;
    NothingRead(tor, raws);
    while true
      invariant start <= |raws| && ReadSoFar(tor, raws, start, lastInst)
      invariant Tabled(PortsFrom(raws[..start]), t) && ReasonsTabled(PortsFrom(raws[..start]), reasons)
      decreases |raws| - start
    {
      var items, total := Reply(At(net.ports, tor), start, pageSize), |At(net.ports, tor)|;
      assert items == raws[start..start + |items|];
      var ok;
      ok, t, reasons, lastInst := AddDiagnosticPage(tor, raws, start, items, t, reasons, lastInst);
      if !ok { return None, reasons; }
      start := start + |items|;
      if start == total { break; }
    }
    assert raws[..start] == raws;
    tables := Some(t);
  }

  function Blanked(ports: map<string, string>, ambiguousUuid: set<string>, name: string): string {
    if name == "" || (name in ports && ports[name] in ambiguousUuid) then "" else Lookup(ports, name)
  }

  function SharedReason(ports: map<string, string>, reasons: map<string, Reason>, ambiguousUuid: set<string>,
        name: string): Reason {
    if name in ports && ports[name] in ambiguousUuid then AmbiguousPortUuid else ReasonAt(reasons, name)
  }

  // The last loop: blank the blank name, and every name of a shared identifier with its reason.
  method BlankShared(ports: map<string, string>, reasons: map<string, Reason>, ambiguousUuid: set<string>)
    returns (table: map<string, string>, now: map<string, Reason>)
    ensures forall name :: Lookup(table, name) == Blanked(ports, ambiguousUuid, name)
    ensures forall name :: ReasonAt(now, name) == SharedReason(ports, reasons, ambiguousUuid, name)
  {
    table, now := ports, reasons;
    var names := ports.Keys;
    while names != {}
      invariant names <= ports.Keys && table.Keys == ports.Keys
      invariant forall name | name in ports :: table[name] == if name in names then ports[name]
                else Blanked(ports, ambiguousUuid, name)
      invariant forall name :: ReasonAt(now, name) == if name in names then ReasonAt(reasons, name)
                else SharedReason(ports, reasons, ambiguousUuid, name)
      decreases names
    {
      var name :| name in names;
      ghost var was := now;
      var uuid := table[name];
      if name == "" { table := table[name := ""]; }
      if uuid in ambiguousUuid {
        table := table[name := ""];
        now := now[name := AmbiguousPortUuid];
      }
      names := names - {name};
      assert forall other | other != name :: ReasonAt(now, other) == ReasonAt(was, other);
    }
  }

  // What a lookup in the diagnostic tables says of one name of a switch, in the order the cases are tried.
  function RowReason(d: DiagnosticToR, name: string): Reason {
    if name == "" then BlankPortName
    else if d.reason != Clear then d.reason
    else if ReasonAt(d.reasons, name) != Clear then ReasonAt(d.reasons, name)
    else if Lookup(d.ports, name) == "" then PortNameMissing
    else Clear
  }

  lemma RowsBlame(net: Network, tor: string, d: DiagnosticToR)
    requires Resolvable(net, tor) && forall name :: Diagnosed(net, tor, name, RowReason(d, name))
    ensures forall name :: Blame(net, tor, name, RowReason(d, name))
  {
    forall name ensures Blame(net, tor, name, RowReason(d, name)) {
      DiagnosedMeans(net, tor, name, RowReason(d, name));
    }
  }

  /** The diagnostic tables fail on the same switches as the production table, hold the same identifiers,
      and give each name that has none the reason it has none. */
  method CollectDiagnosticToR(net: Network, pageSize: nat, tor: string) returns (result: Option<DiagnosticToR>)
    requires pageSize > 0
    ensures result.Some? <==> Resolvable(net, tor)
    ensures result.Some? ==> forall name ::
      Lookup(result.value.ports, name) == Resolve(net, tor, name)
          && Diagnosed(net, tor, name, RowReason(result.value, name))
    ensures result.Some? <==> Answerable(net, tor)
    ensures result.Some? ==> forall name, uuid | uuid != "" ::
      (name in result.value.ports && result.value.ports[name] == uuid) <==> StandsFor(net, tor, name, uuid)
    ensures result.Some? ==> forall name :: Blame(net, tor, name, RowReason(result.value, name))
    ensures result.Some? ==>
      result.value.instanceId == if SwitchFound(net, tor) then net.tors[tor][0].instId.value else 0
  {
    hide Answerable, StandsFor, PortsReadable, TrimSpace, PortOf, Blame, Blamed;
    ResolvableMeans(net, tor);
    var unknown: map<string, string> := map[];
    if !Known(net, tor) && Resolvable(net, tor) { TableStands(net, tor, unknown); }
    SwitchMeans(net, tor);
    hide SwitchFound;
    var devices, count := Reply(At(net.tors, tor), 0, pageSize), |At(net.tors, tor)|;
    if count == 0 {
      result := Some(DiagnosticToR(0, NetworkTorNotFound, unknown, map[]));
      RowsBlame(net, tor, result.value);
      return;
    }
    if count != 1 {
      result := Some(DiagnosticToR(0, MultipleNetworkTors, unknown, map[]));
      RowsBlame(net, tor, result.value);
      return;
    }
    var device := devices[0];
    var sn, category, inst := TextOf(device.sn), IntegerOf(device.category), IntegerOf(device.instId);
    if sn.None? || category.None? || inst.None? { return None; }
    if sn.value != tor || category.value != NETWORK_CATEGORY || inst.value <= 0 {
      result := Some(DiagnosticToR(0, TorIdentityMismatch, unknown, map[]));
      RowsBlame(net, tor, result.value);
      return;
    }
    var tables, reasons := ReadDiagnosticTables(net, pageSize, tor);
    if tables.None? { return None; }
    var t := tables.value;
    var blanked, shared := BlankShared(t.ports, reasons, t.ambiguousUuid);
    var d := DiagnosticToR(inst.value, Clear, blanked, shared);
    forall name
      ensures Lookup(blanked, name) == Resolve(net, tor, name)
          && Diagnosed(net, tor, name, RowReason(d, name))
    {
      DiagnosisMeans(net, tor, t, reasons, d, name);
    }
    TableStands(net, tor, blanked);
    RowsBlame(net, tor, d);
    result := Some(d);
  }

  lemma DiagnosisMeans(net: Network, tor: string, t: Tables, reasons: map<string, Reason>, d: DiagnosticToR,
        name: string)
    requires Known(net, tor) && d.reason == Clear
    requires Tabled(PortsFrom(At(net.ports, tor)), t) && ReasonsTabled(PortsFrom(At(net.ports, tor)), reasons)
    requires Lookup(d.ports, name) == Blanked(t.ports, t.ambiguousUuid, name)
    requires ReasonAt(d.reasons, name) == SharedReason(t.ports, reasons, t.ambiguousUuid, name)
    ensures Lookup(d.ports, name) == Resolve(net, tor, name) && Diagnosed(net, tor, name, RowReason(d, name))
  {
    hide PortsFrom, Shared, Means, Once, TrimSpace;
    var ports := PortsFrom(At(net.ports, tor));
    BlankedTableMeans(ports, t.ports, t.seenNames, t.seenUuid, t.ambiguousUuid, name);
    assert Lookup(d.ports, name) == PortOf(ports, name) by { assert "" !in t.ambiguousUuid; }
    if name != "" {
      TablesBlame(ports, t, reasons, name);
      hide *;
      RowReasonMeans(ports, d, name);
      DiagnosedFrom(net, tor, name, RowReason(d, name));
    }
  }

  lemma DiagnosedFrom(net: Network, tor: string, name: string, reason: Reason)
    requires Known(net, tor) && name != "" && ReasonIs(PortsFrom(At(net.ports, tor)), name, reason)
    ensures Diagnosed(net, tor, name, reason)
  {
  }

  lemma TablesBlame(ports: seq<Port>, t: Tables, reasons: map<string, Reason>, name: string)
    requires Tabled(ports, t) && ReasonsTabled(ports, reasons)
    ensures forall k | 0 <= k < |ports| && ports[k].name == name ::
              SharedReason(t.ports, reasons, t.ambiguousUuid, name) == Fault(ports, k)
    ensures (forall k | 0 <= k < |ports| :: ports[k].name != name) ==>
              SharedReason(t.ports, reasons, t.ambiguousUuid, name) == Clear
  {
    hide Once, Shared;
  }

  lemma RowReasonMeans(ports: seq<Port>, d: DiagnosticToR, name: string)
    requires d.reason == Clear && name != "" && Lookup(d.ports, name) == PortOf(ports, name)
    requires forall k | 0 <= k < |ports| && ports[k].name == name :: ReasonAt(d.reasons, name) == Fault(ports, k)
    requires (forall k | 0 <= k < |ports| :: ports[k].name != name) ==> ReasonAt(d.reasons, name) == Clear
    ensures ReasonIs(ports, name, RowReason(d, name))
  {
    forall k | 0 <= k < |ports| && ports[k].name == name ensures RowReason(d, name) == Fault(ports, k) {
      if Fault(ports, k) == Clear {
        assert Means(ports, name, k);
        assert PortOf(ports, name) == ports[k].uuid;
      }
    }
  }
}
