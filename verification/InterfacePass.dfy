/**
 The interface pass: the ports of a data center, read device by device but handed out as one list
 with one offset. Opening the pass discovers the devices and lays their port lists end to end;
 a page is cut from the list of the one device a binary search finds at its offset.
 */
module InterfacePass {
  import opened Base
  import opened Control
  import opened Graph
  import opened Text
  import opened Pages
  import opened Seqs

  datatype RawDevice = RawDevice(instId: int, deviceSn: string, parentTypeId: int)

  // An upstream that does not change: the discovered devices, and each device's ports by serial number,
  // an item that cannot be decoded being None.
  datatype Upstream = Upstream(devices: seq<RawDevice>, ports: map<string, seq<Option<EntityRecord>>>)

  datatype Partition = Partition(deviceInstId: int, sn: string, total: nat, baseOffset: nat)

  const NETWORK_PARENT_TYPE := 54

  function PortsAt(up: Upstream, sn: string): seq<Option<EntityRecord>> {
    if sn in up.ports then up.ports[sn] else []
  }

  // ----- the layout of a pass -----

  predicate Kept(device: RawDevice, selected: string) {
    selected == "" || selected == TrimSpace(device.deviceSn)
  }

  function TotalOf(parts: seq<Partition>): nat {
    if parts == [] then 0 else parts[|parts| - 1].baseOffset + parts[|parts| - 1].total
  }

  function PartitionsOf(up: Upstream, devices: seq<RawDevice>, selected: string): seq<Partition> {
    if devices == [] then []
    else
      var last := |devices| - 1;
      var front := PartitionsOf(up, devices[..last], selected);
      if !Kept(devices[last], selected) then front
      else
        var sn := TrimSpace(devices[last].deviceSn);
        front + [Partition(devices[last].instId, sn, |PortsAt(up, sn)|, TotalOf(front))]
  }

  // Partitions lie end to end, in the order of their devices, each as long as its device's port list.
  ghost predicate Layout(up: Upstream, parts: seq<Partition>) {
    && (forall i | 0 <= i < |parts| :: PartOk(up, parts, i))
    && (forall i, j | 0 <= i < j < |parts| :: Before(parts[i], parts[j]))
  }

  predicate Before(a: Partition, b: Partition) {
    a.deviceInstId < b.deviceInstId && Ends(a) <= b.baseOffset
  }

  function Ends(part: Partition): nat {
    part.baseOffset + part.total
  }

  ghost predicate PartOk(up: Upstream, parts: seq<Partition>, i: nat)
    requires i < |parts|
  {
    && parts[i].total == |PortsAt(up, parts[i].sn)| && parts[i].deviceInstId > 0 && parts[i].sn != ""
    && parts[i].baseOffset == if i == 0 then 0 else Ends(parts[i - 1])
  }

  // ----- what opening accepts -----

  // The count request reads one port, which must decode.
  ghost predicate Countable(ports: seq<Option<EntityRecord>>) {
    ports != [] ==> ports[0].Some? && ports[0].value.sourceInstanceId > 0
  }

  // The trimmed serial numbers of the first devices.
  function Serials(up: Upstream, k: nat): set<string>
    requires k <= |up.devices|
  {
    set j | 0 <= j < k :: TrimSpace(up.devices[j].deviceSn)
  }

  lemma SerialsExtend(up: Upstream, k: nat)
    requires k < |up.devices|
    ensures Serials(up, k + 1) == Serials(up, k) + {TrimSpace(up.devices[k].deviceSn)}
  {
    hide TrimSpace;
  }

  ghost predicate DeviceOk(up: Upstream, selected: string, k: nat)
    requires k < |up.devices|
  {
    var device := up.devices[k];
    var sn := TrimSpace(device.deviceSn);
    && device.parentTypeId == NETWORK_PARENT_TYPE && device.instId > 0 && sn != ""
    && (k > 0 ==> device.instId > up.devices[k - 1].instId)
    && sn !in Serials(up, k)
    && (Kept(device, selected) ==>
          && Countable(PortsAt(up, sn))
          && TotalOf(PartitionsOf(up, up.devices[..k], selected)) + |PortsAt(up, sn)| <= INT64_MAX)
  }

  ghost predicate DevicesOk(up: Upstream, selected: string, k: nat)
    requires k <= |up.devices|
  {
    forall i | 0 <= i < k :: DeviceOk(up, selected, i)
  }

  lemma PartitionsExtend(up: Upstream, selected: string, k: nat)
    requires k < |up.devices|
    ensures var front, device := PartitionsOf(up, up.devices[..k], selected), up.devices[k];
            PartitionsOf(up, up.devices[..k + 1], selected) ==
              if Kept(device, selected) then
                front + [Partition(device.instId, TrimSpace(device.deviceSn),
                    |PortsAt(up, TrimSpace(device.deviceSn))|, TotalOf(front))]
              else front
  {
    assert up.devices[..k + 1][..k] == up.devices[..k];
  }

  /** Accepted devices make a proper layout whose offsets and total all fit a 64-bit integer. */
  lemma {:induction false} PartitionsLayOut(up: Upstream, selected: string, k: nat)
    requires k <= |up.devices| && DevicesOk(up, selected, k)
    ensures var parts := PartitionsOf(up, up.devices[..k], selected);
            && Layout(up, parts) && TotalOf(parts) <= INT64_MAX
            && (forall i | 0 <= i < |parts| :: Inside(parts[i], up.devices[k - 1].instId, TotalOf(parts)))
    decreases k
  {
    assert PartitionsOf(up, up.devices[..0], selected) == [];
    hide TrimSpace, Layout, PartitionsOf;
    if k == 0 { assert Layout(up, []) by { EmptyLayout(up); } }
    if k > 0 {
      PartitionsLayOut(up, selected, k - 1);
      PartitionsExtend(up, selected, k - 1);
      assert DeviceOk(up, selected, k - 1);
      var front, device := PartitionsOf(up, up.devices[..k - 1], selected), up.devices[k - 1];
      var sn := TrimSpace(device.deviceSn);
      if k > 1 { assert DeviceOk(up, selected, k - 2); }
      if Kept(device, selected) {
        var part := Partition(device.instId, sn, |PortsAt(up, sn)|, TotalOf(front));
        LayoutGrows(up, front, part, if k > 1 then up.devices[k - 2].instId else 0);
      }
    }
  }

  lemma EmptyLayout(up: Upstream)
    ensures Layout(up, [])
  {
  }

  predicate Inside(part: Partition, instId: int, total: int) {
    part.deviceInstId <= instId && Ends(part) <= total
  }

  lemma LayoutGrows(up: Upstream, front: seq<Partition>, part: Partition, lastInstId: int)
    requires Layout(up, front) && (forall i | 0 <= i < |front| :: Inside(front[i], lastInstId, TotalOf(front)))
    requires part.total == |PortsAt(up, part.sn)| && part.sn != "" && part.baseOffset == TotalOf(front)
    requires part.deviceInstId > 0 && part.deviceInstId > lastInstId
    ensures Layout(up, front + [part])
    ensures forall i | 0 <= i < |front + [part]| ::
              Inside((front + [part])[i], part.deviceInstId, TotalOf(front + [part]))
  {
    var parts := front + [part];
    forall i | 0 <= i < |parts| ensures PartOk(up, parts, i) {
      if i < |front| { assert PartOk(up, front, i); }
    }
    forall i, j | 0 <= i < j < |parts| ensures Before(parts[i], parts[j]) {
      if j < |front| {
        assert Before(front[i], front[j]);
      } else {
        assert Inside(front[i], lastInstId, TotalOf(front));
      }
    }
    forall i | 0 <= i < |parts| ensures Inside(parts[i], part.deviceInstId, TotalOf(parts)) {
      if i < |front| { assert Inside(front[i], lastInstId, TotalOf(front)); }
    }
  }

  // What opening accepts, without reference to the order in which it looks: an interface switch or router
  // list in strictly increasing instance order, serial numbers present and distinct after trimming,
  // selected devices countable, and a total that fits.
  ghost predicate Openable(up: Upstream, selected: string) {
    && (forall i | 0 <= i < |up.devices| :: DeviceSound(up, selected, i))
    && (forall i, j | 0 <= i < j < |up.devices| :: DevicesApart(up.devices[i], up.devices[j]))
    && TotalOf(PartitionsOf(up, up.devices, selected)) <= INT64_MAX
  }

  lemma {:induction false} TotalsGrow(up: Upstream, selected: string, k: nat, n: nat)
    requires k <= n <= |up.devices|
    ensures TotalOf(PartitionsOf(up, up.devices[..k], selected)) <= TotalOf(PartitionsOf(up, up.devices[..n], selected))
    decreases n - k
  {
    if k < n {
      TotalsGrow(up, selected, k + 1, n);
      PartitionsExtend(up, selected, k);
    }
  }

  lemma {:induction false} InstancesIncrease(up: Upstream, selected: string, i: nat, j: nat)
    requires i < j < |up.devices| && DevicesOk(up, selected, |up.devices|)
    ensures up.devices[i].instId < up.devices[j].instId
    decreases j
  {
    assert DeviceOk(up, selected, j);
    if i < j - 1 { InstancesIncrease(up, selected, i, j - 1); }
  }

  ghost predicate DeviceSound(up: Upstream, selected: string, i: nat)
    requires i < |up.devices|
  {
    && up.devices[i].parentTypeId == NETWORK_PARENT_TYPE && up.devices[i].instId > 0
    && TrimSpace(up.devices[i].deviceSn) != ""
    && (Kept(up.devices[i], selected) ==> Countable(PortsAt(up, TrimSpace(up.devices[i].deviceSn))))
  }

  ghost predicate DevicesApart(a: RawDevice, b: RawDevice) {
    a.instId < b.instId && TrimSpace(a.deviceSn) != TrimSpace(b.deviceSn)
  }

  lemma OpenableDevice(up: Upstream, selected: string, k: nat)
    requires Openable(up, selected) && k < |up.devices|
    ensures DeviceOk(up, selected, k)
  {
    hide TrimSpace, PartitionsOf, PortsAt, Countable;
    assert up.devices[..|up.devices|] == up.devices;
    TotalsGrow(up, selected, k + 1, |up.devices|);
    PartitionsExtend(up, selected, k);
    assert DeviceSound(up, selected, k);
    assert forall j | 0 <= j < k :: DevicesApart(up.devices[j], up.devices[k]);
    if k > 0 { assert DevicesApart(up.devices[k - 1], up.devices[k]); }
  }

  lemma OpenableMeans(up: Upstream, selected: string)
    ensures Openable(up, selected) <==> DevicesOk(up, selected, |up.devices|)
  {
    hide TrimSpace;
    var n := |up.devices|;
    assert up.devices[..n] == up.devices;
    if Openable(up, selected) {
      forall k | 0 <= k < n ensures DeviceOk(up, selected, k) { OpenableDevice(up, selected, k); }
    }
    if DevicesOk(up, selected, n) {
      PartitionsLayOut(up, selected, n);
      forall i | 0 <= i < n ensures DeviceSound(up, selected, i) { assert DeviceOk(up, selected, i); }
      forall i, j | 0 <= i < j < n ensures DevicesApart(up.devices[i], up.devices[j]) {
        InstancesIncrease(up, selected, i, j);
        assert DeviceOk(up, selected, j);
      }
    }
  }

  // The partitions are the selected devices, whole and under their own serial numbers, one after the other.
  ghost predicate Discovered(up: Upstream, selected: string, parts: seq<Partition>) {
    && (forall j | 0 <= j < |up.devices| :: DeviceListed(up.devices[j], selected, parts))
    && (forall i | 0 <= i < |parts| :: OfDevice(parts[i], up.devices) && EndToEnd(up, parts, i))
  }

  ghost predicate OfDevice(part: Partition, devices: seq<RawDevice>) {
    exists j | 0 <= j < |devices| :: Lists(part, devices[j])
  }

  ghost predicate DeviceListed(device: RawDevice, selected: string, parts: seq<Partition>) {
    (selected == "" || TrimSpace(device.deviceSn) == selected) <==>
        exists i | 0 <= i < |parts| :: Lists(parts[i], device)
  }

  ghost predicate EndToEnd(up: Upstream, parts: seq<Partition>, i: nat)
    requires i < |parts|
  {
    && (i > 0 ==> parts[i - 1].deviceInstId < parts[i].deviceInstId)
    && parts[i].total == |PortsAt(up, parts[i].sn)|
    && parts[i].baseOffset == (if i == 0 then 0 else parts[i - 1].baseOffset + parts[i - 1].total)
  }

  ghost predicate Lists(part: Partition, device: RawDevice) {
    part.deviceInstId == device.instId && part.sn == TrimSpace(device.deviceSn)
  }

  lemma {:induction false} DeviceOfPart(up: Upstream, selected: string, n: nat, i: nat) returns (j: nat)
    requires n <= |up.devices| && i < |PartitionsOf(up, up.devices[..n], selected)|
    ensures j < n && Kept(up.devices[j], selected)
    ensures Lists(PartitionsOf(up, up.devices[..n], selected)[i], up.devices[j])
    decreases n
  {
    hide TrimSpace, PortsAt, TotalOf;
    assert up.devices[..0] == [];
    assert n > 0;
    PartitionsExtend(up, selected, n - 1);
    hide PartitionsOf;
    if i < |PartitionsOf(up, up.devices[..n - 1], selected)| {
      j := DeviceOfPart(up, selected, n - 1, i);
    } else {
      j := n - 1;
    }
  }

  lemma {:induction false} PartOfDevice(up: Upstream, selected: string, n: nat, j: nat) returns (i: nat)
    requires j < n <= |up.devices| && Kept(up.devices[j], selected)
    ensures i < |PartitionsOf(up, up.devices[..n], selected)|
    ensures Lists(PartitionsOf(up, up.devices[..n], selected)[i], up.devices[j])
    decreases n
  {
    hide TrimSpace, PartitionsOf;
    PartitionsExtend(up, selected, n - 1);
    if j < n - 1 {
      i := PartOfDevice(up, selected, n - 1, j);
    } else {
      i := |PartitionsOf(up, up.devices[..n - 1], selected)|;
    }
  }

  lemma PartitionsDiscover(up: Upstream, selected: string)
    requires Openable(up, selected)
    ensures Discovered(up, selected, PartitionsOf(up, up.devices, selected))
  {
    hide TrimSpace, PartitionsOf, TotalOf, PartOk, DeviceListed, EndToEnd;
    var n, parts := |up.devices|, PartitionsOf(up, up.devices, selected);
    assert up.devices[..n] == up.devices;
    forall i | 0 <= i < |parts| ensures OfDevice(parts[i], up.devices) { var j := DeviceOfPart(up, selected, n, i); }
    forall j | 0 <= j < n ensures DeviceListed(up.devices[j], selected, parts) { DeviceKept(up, selected, j); }
    OpenableMeans(up, selected);
    PartitionsLayOut(up, selected, n);
    forall i | 0 <= i < |parts| ensures EndToEnd(up, parts, i) { LaidOutAt(up, parts, i); }
  }

  lemma LaidOutAt(up: Upstream, parts: seq<Partition>, i: nat)
    requires Layout(up, parts) && i < |parts|
    ensures EndToEnd(up, parts, i)
  {
    assert PartOk(up, parts, i);
    assert i > 0 ==> Before(parts[i - 1], parts[i]);
  }

  // Devices are apart, so the one a partition lists is the one it was made of.
  lemma DeviceKept(up: Upstream, selected: string, j: nat)
    requires Openable(up, selected) && j < |up.devices|
    ensures DeviceListed(up.devices[j], selected, PartitionsOf(up, up.devices, selected))
  {
    hide TrimSpace, PartitionsOf, TotalOf;
    var n, parts := |up.devices|, PartitionsOf(up, up.devices, selected);
    assert up.devices[..n] == up.devices;
    if Kept(up.devices[j], selected) { var i := PartOfDevice(up, selected, n, j); }
    forall i | 0 <= i < |parts| && Lists(parts[i], up.devices[j]) ensures Kept(up.devices[j], selected) {
      var m := DeviceOfPart(up, selected, n, i);
      ListedOnce(up, selected, parts[i], m, j);
    }
  }

  lemma ListedOnce(up: Upstream, selected: string, part: Partition, m: nat, j: nat)
    requires Openable(up, selected) && m < |up.devices| && j < |up.devices|
    requires Lists(part, up.devices[m]) && Lists(part, up.devices[j])
    ensures m == j
  {
    hide TrimSpace, PartitionsOf, TotalOf;
    assert m < j ==> DevicesApart(up.devices[m], up.devices[j]);
    assert j < m ==> DevicesApart(up.devices[j], up.devices[m]);
  }

  // ----- the flat list -----

  function Tag(part: Partition, item: Option<EntityRecord>): Option<EntityRecord> {
    match item
    case None => None
    case Some(record) => Some(record.(partition := part.deviceInstId, ownerDeviceSn := part.sn))
  }

  // The record is the port as the upstream gave it, field by field, under its device.
  ghost predicate FromPort(record: EntityRecord, item: Option<EntityRecord>, device: Partition) {
    && item.Some?
    && record.identity == item.value.identity
    && record.sourceInstanceId == item.value.sourceInstanceId
    && record.properties == item.value.properties
    && record.partition == device.deviceInstId
    && record.ownerDeviceSn == device.sn
  }

  // The records of a page, each tagged with its device and owner.
  function Stamp(part: Partition, records: seq<EntityRecord>): (r: seq<EntityRecord>)
    ensures |r| == |records|
  {
    seq(|records|, k requires 0 <= k < |records| =>
      records[k].(partition := part.deviceInstId, ownerDeviceSn := part.sn))
  }

  function Tagged(up: Upstream, part: Partition): (r: seq<Option<EntityRecord>>)
    ensures |r| == |PortsAt(up, part.sn)|
  {
    var ports := PortsAt(up, part.sn);
    seq(|ports|, k requires 0 <= k < |ports| => Tag(part, ports[k]))
  }

  // All devices' port lists, one after the other, each port with its device and owner.
  function Flat(up: Upstream, parts: seq<Partition>): seq<Option<EntityRecord>> {
    if parts == [] then [] else Flat(up, parts[..|parts| - 1]) + Tagged(up, parts[|parts| - 1])
  }

  lemma LayoutFront(up: Upstream, parts: seq<Partition>)
    requires Layout(up, parts) && parts != []
    ensures Layout(up, parts[..|parts| - 1])
    ensures TotalOf(parts[..|parts| - 1]) == parts[|parts| - 1].baseOffset
  {
    var front := parts[..|parts| - 1];
    assert PartOk(up, parts, |front|);
    forall i | 0 <= i < |front| ensures PartOk(up, front, i) { assert PartOk(up, parts, i); }
  }

  lemma {:induction false} FlatLength(up: Upstream, parts: seq<Partition>)
    requires Layout(up, parts)
    ensures |Flat(up, parts)| == TotalOf(parts)
    decreases |parts|
  {
    if parts != [] {
      LayoutFront(up, parts);
      FlatLength(up, parts[..|parts| - 1]);
      assert PartOk(up, parts, |parts| - 1);
    }
  }

  // A port stands in the flat list at its device's base offset plus its own.
  lemma {:induction false} FlatAt(up: Upstream, parts: seq<Partition>, i: nat, k: nat)
    requires Layout(up, parts) && i < |parts| && k < parts[i].total
    ensures parts[i].baseOffset + k < |Flat(up, parts)| && k < |PortsAt(up, parts[i].sn)|
    ensures Flat(up, parts)[parts[i].baseOffset + k] == Tag(parts[i], PortsAt(up, parts[i].sn)[k])
    decreases |parts|
  {
    var n := |parts| - 1;
    LayoutFront(up, parts);
    FlatLength(up, parts[..n]);
    assert PartOk(up, parts, i);
    if i < n { FlatAt(up, parts[..n], i, k); }
  }

  // So a record of the flat list is the port at its place.
  lemma FlatIs(up: Upstream, parts: seq<Partition>, i: nat, at: nat, record: EntityRecord)
    requires Layout(up, parts) && i < |parts| && parts[i].baseOffset <= at < Ends(parts[i])
    requires at < |Flat(up, parts)| && Flat(up, parts)[at] == Some(record)
    ensures at - parts[i].baseOffset < |PortsAt(up, parts[i].sn)|
    ensures FromPort(record, PortsAt(up, parts[i].sn)[at - parts[i].baseOffset], parts[i])
  {
    hide Layout, Flat, PortsAt;
    FlatAt(up, parts, i, at - parts[i].baseOffset);
  }

  lemma {:induction false} Locate(up: Upstream, parts: seq<Partition>, at: nat) returns (i: nat)
    requires Layout(up, parts) && at < TotalOf(parts)
    ensures i < |parts| && parts[i].baseOffset <= at < Ends(parts[i])
    decreases |parts|
  {
    var n := |parts| - 1;
    if parts[n].baseOffset <= at {
      i := n;
    } else {
      LayoutFront(up, parts);
      i := Locate(up, parts[..n], at);
    }
  }

  /** One device's reply to a request from its own offset, as a page of the whole pass: it must be as long
      as was asked for, of a list as long as when the pass was opened, and is tagged with the device. */
  method TakePartitionPage(device: Partition, raw: RawPage, limit: nat, start: nat, total: nat)
    returns (page: Option<EntityPage>)
    requires device.baseOffset <= start < Ends(device) && limit > 0
    ensures page.Some? <==>
              AdapterAccepts(raw, limit, start - device.baseOffset) && raw.count == device.total && |raw.items| == limit
    ensures page.Some? ==>
      && |page.value.records| == limit && NeverEmptyEarly(page.value, start)
      && (forall k | 0 <= k < limit :: FromPort(page.value.records[k], raw.items[k], device))
      && page.value.nextOffset == start + limit && page.value.total == total
      && page.value.done == (page.value.nextOffset == total)
  {
    hide ItemsOk;
    page := CollectEntityPage(raw, limit, start - device.baseOffset);
    if page.None? { return; }
    if page.value.total != device.total || |page.value.records| != limit { return None; }
    var records := Stamp(device, page.value.records);
    var nextOffset := start + |records|;
    page := Some(EntityPage(records, nextOffset, total, nextOffset == total));
  }

  /** The pass: its devices and total once opened, and pages cut from it. */
  class EntityPass {
    const up: Upstream
    const pageSize: nat
    const selected: string
    var devices: seq<Partition>
    var total: nat

    constructor (up: Upstream, pageSize: nat, selected: string)
      requires pageSize > 0
      ensures this.up == up && this.pageSize == pageSize && this.selected == selected
      ensures devices == [] && total == 0
    {
      this.up, this.pageSize, this.selected := up, pageSize, selected;
      devices, total := [], 0;
    }

    ghost predicate UpTo(k: nat)
      requires k <= |up.devices|
      reads this
    {
      && DevicesOk(up, selected, k)
      && devices == PartitionsOf(up, up.devices[..k], selected) && total == TotalOf(devices)
    }

    // What every page relies on, and opening establishes.
    ghost predicate Opened()
      reads this
    {
      && pageSize > 0 && Openable(up, selected)
      && devices == PartitionsOf(up, up.devices, selected) && total == TotalOf(devices)
    }

    lemma StartsEmpty()
      requires devices == [] && total == 0
      ensures UpTo(0) && Serials(up, 0) == {}
    {
    }

    // One device of a discovery page, and its port count.
    method AddDevice(ghost k: nat, device: RawDevice, lastInstId: int, seenSn: set<string>)
      returns (ok: bool, nowSeen: set<string>)
      requires k < |up.devices| && device == up.devices[k] && UpTo(k)
      requires lastInstId == if k == 0 then 0 else up.devices[k - 1].instId
      requires seenSn == Serials(up, k)
      modifies this
      ensures ok <==> DeviceOk(up, selected, k)
      ensures ok ==> UpTo(k + 1) && nowSeen == Serials(up, k + 1)
    {
      hide TrimSpace, Serials, PartitionsOf, PortsAt, Countable;
      var sn := TrimSpace(device.deviceSn);
      ok, nowSeen := false, seenSn;
      SerialsExtend(up, k);
      assert k > 0 ==> DeviceOk(up, selected, k - 1);
      if device.parentTypeId != NETWORK_PARENT_TYPE || device.instId <= 0 || sn == "" { return; }
      if device.instId <= lastInstId { return; }
      if sn in seenSn { return; }
      nowSeen := seenSn + {sn};
      PartitionsExtend(up, selected, k);
      if selected != "" && selected != sn { return true, nowSeen; }
      var counted := CountPorts(sn);
      if counted.None? || counted.value > INT64_MAX - total { return; }
      devices := devices + [Partition(device.instId, sn, counted.value, total)];
      total := total + counted.value;
      ok := true;
    }

    // A device's number of ports, by a request for the first one.
    method CountPorts(sn: string) returns (count: Option<nat>)
      ensures count.Some? <==> Countable(PortsAt(up, sn))
      ensures count.Some? ==> count.value == |PortsAt(up, sn)|
    {
      var ports := PortsAt(up, sn);
      var page := CollectEntityPage(RawPage(Reply(ports, 0, 1), |ports|), 1, 0);
      if page.None? { return None; }
      if |page.value.records| != Min(1, page.value.total) { return None; }
      count := Some(page.value.total);
    }

    method AddPage(ghost start: nat, items: seq<RawDevice>, lastInstId: int, seenSn: set<string>)
      returns (ok: bool, nowInstId: int, nowSeen: set<string>)
      requires start + |items| <= |up.devices| && items == up.devices[start..start + |items|] && UpTo(start)
      requires lastInstId == if start == 0 then 0 else up.devices[start - 1].instId
      requires seenSn == Serials(up, start)
      modifies this
      ensures ok <==> DevicesOk(up, selected, start + |items|)
      ensures ok ==> UpTo(start + |items|) && nowSeen == Serials(up, start + |items|)
      ensures ok ==> nowInstId == if start + |items| == 0 then 0 else up.devices[start + |items| - 1].instId
    {
      hide DeviceOk, Serials, PartitionsOf;
      ok, nowInstId, nowSeen := true, lastInstId, seenSn;
      for i := 0 to |items|
        invariant ok && UpTo(start + i) && nowSeen == Serials(up, start + i)
        invariant nowInstId == if start + i == 0 then 0 else up.devices[start + i - 1].instId
      {
        ok, nowSeen := AddDevice(start + i, items[i], nowInstId, nowSeen);
        if !ok { return; }
        nowInstId := items[i].instId;
      }
    }

    /** Discovers the devices page by page. Whatever the page size, it succeeds on exactly the same
        upstreams and lays out the same partitions. */
    method Open() returns (ok: bool)
      requires pageSize > 0 && devices == [] && total == 0
      modifies this
      ensures ok <==> Openable(up, selected)
      ensures ok ==> Opened() && Discovered(up, selected, devices)
      ensures ok ==> total == if devices == [] then 0 else Ends(devices[|devices| - 1])
    {
      OpenableMeans(up, selected);
      hide Openable, DeviceOk, Serials, PartitionsOf, Discovered;
      StartsEmpty();
      assert up.devices[..|up.devices|] == up.devices;
      var seenSn: set<string> := {};
      var lastInstId, start := 0, 0;
      while true
        invariant start <= |up.devices| && UpTo(start)
        invariant lastInstId == if start == 0 then 0 else up.devices[start - 1].instId
        invariant seenSn == Serials(up, start)
        decreases |up.devices| - start
      {
        var items, count := Reply(up.devices, start, pageSize), |up.devices|;
        if start > count || |items| != Min(pageSize, count - start) { assert false; }
        ok, lastInstId, seenSn := AddPage(start, items, lastInstId, seenSn);
        if !ok { return; }
        start := start + |items|;
        if start >= count { break; }
      }
      PartitionsDiscover(up, selected);
      ok := true;
    }

    // The first device whose ports reach past the offset.
    method Search(start: nat) returns (index: nat)
      requires Layout(up, devices) && start < TotalOf(devices)
      ensures index < |devices| && devices[index].baseOffset <= start < Ends(devices[index])
    {
      ghost var at := Locate(up, devices, start);
      var i, j := 0, |devices|;
      while i < j
        invariant 0 <= i <= at < |devices| && at <= j <= |devices|
        invariant forall k | 0 <= k < i :: Ends(devices[k]) <= start
      {
        var h := (i + j) / 2;
        assert h < at ==> Before(devices[h], devices[at]);
        assert h > at ==> Before(devices[at], devices[h]);
        if Ends(devices[h]) > start { j := h; } else { i := h + 1; }
      }
      index := i;
      assert i == at;
    }

    // The page an offset calls for: a stretch of one device's ports, ending with the page or the device.
    ghost predicate PageFrom(start: nat, page: EntityPage)
      requires Layout(up, devices) && start <= TotalOf(devices)
      reads this
    {
      var flat := Flat(up, devices);
      && page.nextOffset == start + |page.records| <= |flat| && page.total == total
      && page.done == (page.nextOffset == total)
      && (forall k | 0 <= k < |page.records| :: flat[start + k] == Some(page.records[k]))
      && (start < total ==> exists i :: Within(i, start, page))
    }

    ghost predicate Within(i: nat, start: nat, page: EntityPage)
      reads this
    {
      && i < |devices| && devices[i].baseOffset <= start < Ends(devices[i])
      && |page.records| == Min(pageSize, Ends(devices[i]) - start)
      && forall k | 0 <= k < |page.records| ::
        var at := start - devices[i].baseOffset + k;
        at < |PortsAt(up, devices[i].sn)| && FromPort(page.records[k], PortsAt(up, devices[i].sn)[at], devices[i])
    }

    // Whether the ports the page at this offset would hold decode, in increasing order.
    ghost predicate Readable(i: nat, start: nat)
      requires Layout(up, devices) && i < |devices| && devices[i].baseOffset <= start < Ends(devices[i])
      reads this
    {
      assert PartOk(up, devices, i);
      var local := start - devices[i].baseOffset;
      ItemsOk(PortsAt(up, devices[i].sn)[local..local + Min(pageSize, devices[i].total - local)])
    }

    method Page(start: int) returns (page: Option<EntityPage>)
      requires Opened() && Layout(up, devices)
      ensures page.Some? ==> 0 <= start <= total && PageFrom(start, page.value) && NeverEmptyEarly(page.value, start)
      ensures (start < 0 || start > total) ==> page.None?
      ensures start == total ==> page.Some? && page.value.records == []
      ensures 0 <= start < total ==> exists i ::
                && 0 <= i < |devices| && devices[i].baseOffset <= start < Ends(devices[i])
                && (page.Some? <==> Readable(i, start))
    {
      if start < 0 || start > total { return None; }
      FlatLength(up, devices);
      if start == total { return Some(EntityPage([], start, total, true)); }
      var index := Search(start);
      page := CutPage(index, start);
    }

    // Asks one device for a stretch of its ports, which do not change here.
    method CutPage(index: nat, start: nat) returns (page: Option<EntityPage>)
      requires pageSize > 0 && total == TotalOf(devices) && Layout(up, devices)
      requires index < |devices| && devices[index].baseOffset <= start < Ends(devices[index])
      ensures page.Some? <==> Readable(index, start)
      ensures page.Some? ==> start < TotalOf(devices) && PageFrom(start, page.value)
    {
      hide ItemsOk, Flat, PortsAt, Tag, FromPort;
      var device := devices[index];
      assert PartOk(up, devices, index);
      hide Layout;
      page := AskDevice(device, start, Min(pageSize, Ends(device) - start));
      if page.None? { return; }
      CutIsFlat(index, start, page.value.records);
      assert Within(index, start, page.value);
    }

    method AskDevice(device: Partition, start: nat, limit: nat) returns (page: Option<EntityPage>)
      requires device.total == |PortsAt(up, device.sn)| && device.baseOffset <= start
      requires 0 < limit && start + limit <= Ends(device)
      ensures var local := start - device.baseOffset;
              && (page.Some? <==> ItemsOk(PortsAt(up, device.sn)[local..local + limit]))
              && (page.Some? ==>
                    && |page.value.records| == limit
                    && (forall k | 0 <= k < limit ::
                          FromPort(page.value.records[k], PortsAt(up, device.sn)[local + k], device))
                    && page.value.nextOffset == start + limit && page.value.total == total
                    && page.value.done == (page.value.nextOffset == total))
    {
      hide ItemsOk;
      var ports, local := PortsAt(up, device.sn), start - device.baseOffset;
      var items := Reply(ports, local, limit);
      assert items == ports[local..local + limit];
      assert forall k | 0 <= k < limit :: items[k] == ports[local + k];
      page := TakePartitionPage(device, RawPage(items, |ports|), limit, start, total);
    }

    // A stretch of a device's ports is a stretch of the flat list.
    lemma CutIsFlat(index: nat, start: nat, records: seq<EntityRecord>)
      requires Layout(up, devices) && index < |devices| && devices[index].baseOffset <= start
      requires start + |records| <= Ends(devices[index])
      requires var local := start - devices[index].baseOffset;
               forall k | 0 <= k < |records| ::
                 local + k < |PortsAt(up, devices[index].sn)|
                 && FromPort(records[k], PortsAt(up, devices[index].sn)[local + k], devices[index])
      ensures start + |records| <= |Flat(up, devices)| == TotalOf(devices)
      ensures forall k | 0 <= k < |records| :: Flat(up, devices)[start + k] == Some(records[k])
    {
      var local := start - devices[index].baseOffset;
      FlatLength(up, devices);
      forall k | 0 <= k < |records| ensures Flat(up, devices)[start + k] == Some(records[k]) {
        FlatAt(up, devices, index, local + k);
      }
    }

    /** Follows the pages from the first offset to the last, checking each as the worker does. Whatever
        the page size, it succeeds exactly when every port of every selected device decodes in increasing
        order, and then yields the devices' port lists one after the other, each port once and tagged. */
    method Follow() returns (all: Option<seq<EntityRecord>>)
      requires Opened()
      ensures all.Some? <==> AllReadable(up, devices)
      ensures all.Some? ==> |all.value| == total && AllPorts(up, devices, all.value)
    {
      OpenedLayout();
      FlatLength(up, devices);
      hide Openable, PartitionsOf, Layout, AllReadable, PassOk, PageOk, Within, Flat, TotalOf, Matches, PageFrom,
        DecodeOk, AdvanceRefused;
      var records: seq<EntityRecord> := [];
      var cursor := Cursor(CURSOR_VERSION, "", 0, 0, 0, ZERO_TIME, 0);
      var done := false;
      while !done
        invariant PassOk(records, cursor, Interface) && Matches(Flat(up, devices), records)
        invariant cursor.nextOffset == |records| && (cursor.total == 0 || cursor.total == total)
        invariant done ==> |records| == total
        decreases total - |records|, !done
      {
        var reply := NextPage(cursor, records);
        if reply.None? { return None; }
        var page := reply.value;
        ExtendPass(records, cursor, page, Interface, "");
        MatchesMore(records, page);
        records := records + page.records;
        cursor := Advanced(cursor, page);
        done := page.done;
      }
      ReadableFromPass(up, devices, records, cursor);
      MatchesAll(up, devices, records);
      all := Some(records);
    }

    lemma MatchesMore(records: seq<EntityRecord>, page: EntityPage)
      requires Layout(up, devices) && |records| <= TotalOf(devices)
      requires Matches(Flat(up, devices), records) && PageFrom(|records|, page)
      ensures Matches(Flat(up, devices), records + page.records)
      ensures page.nextOffset == |records + page.records| <= |Flat(up, devices)| && page.total == total
      ensures page.done <==> page.nextOffset == total
    {
    }

    method NextPage(cursor: Cursor, ghost records: seq<EntityRecord>) returns (page: Option<EntityPage>)
      requires Opened() && Layout(up, devices) && cursor.nextOffset == |records| <= total
      requires PassOk(records, cursor, Interface) && Matches(Flat(up, devices), records)
      requires cursor.total == 0 || cursor.total == total
      ensures page.Some? ==> PageOk(cursor, page.value, Interface) && PageFrom(|records|, page.value)
      ensures page.Some? && |records| < total ==> page.value.records != []
      ensures page.None? ==> !AllReadable(up, devices)
    {
      hide Openable, PartitionsOf, Layout, PassOk, PageOk, ItemsOk, Matches;
      page := Page(cursor.nextOffset);
      AllReadableHere(|records|);
      if page.None? { return; }
      AcceptedHere(records, cursor, page.value);
      var last := ValidateEntityPage(cursor, page.value, Interface);
      if last.None? { page := None; }
    }

    lemma OpenedLayout()
      requires Opened()
      ensures Layout(up, devices)
    {
      OpenableMeans(up, selected);
      PartitionsLayOut(up, selected, |up.devices|);
      assert up.devices[..|up.devices|] == up.devices;
    }

    lemma AllReadableHere(start: nat)
      requires Layout(up, devices) && pageSize > 0
      ensures AllReadable(up, devices) ==>
                forall i: nat | i < |devices| && devices[i].baseOffset <= start < Ends(devices[i]) :: Readable(i, start)
    {
      if AllReadable(up, devices) {
        forall i: nat | i < |devices| && devices[i].baseOffset <= start < Ends(devices[i]) ensures Readable(i, start) {
          assert PartOk(up, devices, i) && ItemsOk(PortsAt(up, devices[i].sn));
        }
      }
    }

    lemma AcceptedHere(records: seq<EntityRecord>, cursor: Cursor, page: EntityPage)
      requires Layout(up, devices) && total == TotalOf(devices) && |records| <= total && PageFrom(|records|, page)
      requires PassOk(records, cursor, Interface) && Matches(Flat(up, devices), records)
      requires cursor.total == 0 || cursor.total == total
      ensures AllReadable(up, devices) ==> PageOk(cursor, page, Interface)
    {
      FlatLength(up, devices);
      if AllReadable(up, devices) && page.records != [] {
        assert |records| < total;
        var i :| Within(i, |records|, page);
        NextStretch(up, devices, records, cursor, i, page.records);
      }
    }

  }

  // ----- why following a pass works -----

  ghost predicate AllReadable(up: Upstream, parts: seq<Partition>) {
    forall i | 0 <= i < |parts| :: ItemsOk(PortsAt(up, parts[i].sn))
  }

  // Every port of every device stands at its device's offset plus its own place.
  ghost predicate AllPorts(up: Upstream, parts: seq<Partition>, records: seq<EntityRecord>) {
    forall i, k | 0 <= i < |parts| && 0 <= k < |PortsAt(up, parts[i].sn)| ::
      && parts[i].baseOffset + k < |records|
      && FromPort(records[parts[i].baseOffset + k], PortsAt(up, parts[i].sn)[k], parts[i])
  }

  lemma MatchesAll(up: Upstream, parts: seq<Partition>, records: seq<EntityRecord>)
    requires Layout(up, parts) && Matches(Flat(up, parts), records) && |records| == |Flat(up, parts)|
    ensures AllPorts(up, parts, records)
  {
    forall i: nat, k: nat | i < |parts| && k < |PortsAt(up, parts[i].sn)|
      ensures parts[i].baseOffset + k < |records|
      ensures FromPort(records[parts[i].baseOffset + k], PortsAt(up, parts[i].sn)[k], parts[i])
    {
      assert PartOk(up, parts, i);
      FlatAt(up, parts, i, k);
    }
  }

  ghost predicate Matches(flat: seq<Option<EntityRecord>>, records: seq<EntityRecord>) {
    |records| <= |flat| && forall k | 0 <= k < |records| :: flat[k] == Some(records[k])
  }

  // The record just before a stretch is below its first: an earlier port of the device, or a port of an earlier device.
  lemma StretchFollows(up: Upstream, parts: seq<Partition>, records: seq<EntityRecord>, i: nat, next: EntityRecord)
    requires Layout(up, parts) && AllReadable(up, parts) && Matches(Flat(up, parts), records) && records != []
    requires i < |parts| && parts[i].baseOffset <= |records| < Ends(parts[i])
    requires |records| < |Flat(up, parts)| && Flat(up, parts)[|records|] == Some(next)
    ensures var last := records[|records| - 1];
            Below(last.partition, last.sourceInstanceId, next.partition, next.sourceInstanceId)
            && next.partition == parts[i].deviceInstId
  {
    hide TotalOf, Flat, Tag, PortsAt, ItemsOk;
    FlatLength(up, parts);
    var at := |records| - 1;
    var last := records[at];
    assert Flat(up, parts)[at] == Some(last);
    var j := Locate(up, parts, at);
    assert PartOk(up, parts, i) && PartOk(up, parts, j) && ItemsOk(PortsAt(up, parts[i].sn));
    assert j < i ==> Before(parts[j], parts[i]);
    assert i < j ==> Before(parts[i], parts[j]);
    hide Layout, AllReadable, Matches;
    FlatIs(up, parts, j, at, last);
    FlatIs(up, parts, i, |records|, next);
    if i == j { PortsInOrder(PortsAt(up, parts[i].sn), at - parts[i].baseOffset); }
  }

  lemma PortsInOrder(ports: seq<Option<EntityRecord>>, k: nat)
    requires ItemsOk(ports) && k + 1 < |ports|
    ensures ports[k].Some? && ports[k + 1].Some?
    ensures ports[k].value.sourceInstanceId < ports[k + 1].value.sourceInstanceId
  {
  }

  lemma NextStretch(up: Upstream, parts: seq<Partition>, records: seq<EntityRecord>, cursor: Cursor, i: nat,
        next: seq<EntityRecord>)
    requires Layout(up, parts) && AllReadable(up, parts) && Matches(Flat(up, parts), records)
    requires PassOk(records, cursor, Interface)
    requires i < |parts| && parts[i].baseOffset <= |records| && |records| + |next| <= Ends(parts[i]) && next != []
    requires |records| + |next| <= |Flat(up, parts)|
    requires forall k | 0 <= k < |next| :: Flat(up, parts)[|records| + k] == Some(next[k])
    ensures RecordsOk(cursor, next, Interface)
  {
    hide Layout, AllReadable, Matches, Flat, TotalOf, ItemsOk, RecordsOk, FromPort, PassOrdered;
    StretchIsPorts(up, parts, i, |records|, next);
    if records != [] { StretchFollows(up, parts, records, i, next[0]); }
    StretchInOrder(cursor, parts[i], PortsAt(up, parts[i].sn), |records| - parts[i].baseOffset, next);
  }

  lemma StretchIsPorts(up: Upstream, parts: seq<Partition>, i: nat, start: nat, next: seq<EntityRecord>)
    requires Layout(up, parts) && AllReadable(up, parts)
    requires i < |parts| && parts[i].baseOffset <= start && start + |next| <= Ends(parts[i])
    requires start + |next| <= |Flat(up, parts)|
    requires forall k | 0 <= k < |next| :: Flat(up, parts)[start + k] == Some(next[k])
    ensures var ports, local := PortsAt(up, parts[i].sn), start - parts[i].baseOffset;
            && ItemsOk(ports) && local + |next| <= |ports| && parts[i].deviceInstId > 0
            && forall k | 0 <= k < |next| :: FromPort(next[k], ports[local + k], parts[i])
  {
    hide ItemsOk, PortsAt, Flat, FromPort, Tag;
    var ports, local := PortsAt(up, parts[i].sn), start - parts[i].baseOffset;
    assert PartOk(up, parts, i) && ItemsOk(ports);
    hide Layout, AllReadable;
    forall k | 0 <= k < |next| ensures FromPort(next[k], ports[local + k], parts[i]) {
      FlatIs(up, parts, i, start + k, next[k]);
    }
  }

  // A stretch of a device's ports is in order, once it starts after what was read before.
  lemma StretchInOrder(cursor: Cursor, part: Partition, ports: seq<Option<EntityRecord>>, local: nat,
        next: seq<EntityRecord>)
    requires ItemsOk(ports) && next != [] && local + |next| <= |ports| && part.deviceInstId > 0
    requires forall k | 0 <= k < |next| :: FromPort(next[k], ports[local + k], part)
    requires
      || (cursor.lastPartition == 0 && cursor.lastInstanceId == 0)
      || Below(cursor.lastPartition, cursor.lastInstanceId, next[0].partition, next[0].sourceInstanceId)
    ensures RecordsOk(cursor, next, Interface)
  {
  }

  // A whole pass in order was read from ports in order.
  lemma ReadableFromPass(up: Upstream, parts: seq<Partition>, records: seq<EntityRecord>, cursor: Cursor)
    requires Layout(up, parts) && Matches(Flat(up, parts), records) && |records| == |Flat(up, parts)|
    requires PassOk(records, cursor, Interface)
    ensures AllReadable(up, parts)
  {
    forall i | 0 <= i < |parts| ensures ItemsOk(PortsAt(up, parts[i].sn)) {
      PartReadable(up, parts, records, i);
    }
  }

  lemma PortRead(up: Upstream, parts: seq<Partition>, records: seq<EntityRecord>, i: nat, k: nat)
    requires Layout(up, parts) && Matches(Flat(up, parts), records) && |records| == |Flat(up, parts)|
    requires PassOrdered(records, Interface)
    requires i < |parts| && k < |PortsAt(up, parts[i].sn)|
    ensures var at := parts[i].baseOffset + k;
            && at < |records| && records[at].partition == parts[i].deviceInstId
            && PortsAt(up, parts[i].sn)[k].Some?
            && PortsAt(up, parts[i].sn)[k].value.sourceInstanceId == records[at].sourceInstanceId > 0
  {
    assert PartOk(up, parts, i);
    FlatAt(up, parts, i, k);
    assert Some(records[parts[i].baseOffset + k]) == Tag(parts[i], PortsAt(up, parts[i].sn)[k]);
  }

  lemma PartReadable(up: Upstream, parts: seq<Partition>, records: seq<EntityRecord>, i: nat)
    requires Layout(up, parts) && Matches(Flat(up, parts), records) && |records| == |Flat(up, parts)|
    requires PassOrdered(records, Interface)
    requires i < |parts|
    ensures ItemsOk(PortsAt(up, parts[i].sn))
  {
    hide Flat, Layout, Matches, PortsAt;
    var ports, base := PortsAt(up, parts[i].sn), parts[i].baseOffset;
    forall k | 0 <= k < |ports| ensures ports[k].Some? && ports[k].value.sourceInstanceId > 0 {
      PortRead(up, parts, records, i, k);
    }
    forall k, m | 0 <= k < m < |ports| ensures ports[k].value.sourceInstanceId < ports[m].value.sourceInstanceId {
      PortRead(up, parts, records, i, k);
      PortRead(up, parts, records, i, m);
      var a, b := records[base + k], records[base + m];
      assert Below(a.partition, a.sourceInstanceId, b.partition, b.sourceInstanceId);
    }
  }

  ghost predicate StandsAt(up: Upstream, parts: seq<Partition>, at: nat, j: nat, m: nat) {
    j < |parts| && m < |PortsAt(up, parts[j].sn)| && at == parts[j].baseOffset + m
  }

  /** Each selected port stands in the flat list exactly once, with its device and owner: position and
      port determine each other. */
  lemma PortsOnce(up: Upstream, parts: seq<Partition>, at: nat) returns (i: nat, k: nat)
    requires Layout(up, parts) && at < TotalOf(parts)
    ensures i < |parts| && k < |PortsAt(up, parts[i].sn)| && at == parts[i].baseOffset + k
    ensures at < |Flat(up, parts)| && (Flat(up, parts)[at].None? <==> PortsAt(up, parts[i].sn)[k].None?)
    ensures var port := Flat(up, parts)[at]; port.Some? ==> FromPort(port.value, PortsAt(up, parts[i].sn)[k], parts[i])
    ensures forall j, m :: StandsAt(up, parts, at, j, m) ==> j == i && m == k
  {
    i := Locate(up, parts, at);
    assert PartOk(up, parts, i);
    k := at - parts[i].baseOffset;
    FlatAt(up, parts, i, k);
    forall j, m | StandsAt(up, parts, at, j, m) ensures j == i && m == k {
      assert PartOk(up, parts, j);
    }
  }
}
