/** Pages of a source: what an adapter hands over, what the worker accepts, and the passes accepted pages make. */
module Pages {
  import opened Base
  import opened Control
  import opened Graph
  import opened Text

  datatype EntityRecord = EntityRecord(
    partition: int, sourceInstanceId: int, identity: string, ownerDeviceSn: string, properties: Properties)

  datatype EntityPage = EntityPage(records: seq<EntityRecord>, nextOffset: int, total: int, done: bool)

  // ----- the adapter's contract -----

  // The upstream's reply to one request: a count, and items that may fail to decode.
  datatype RawPage = RawPage(items: seq<Option<EntityRecord>>, count: nat)

  ghost predicate ItemsOk(items: seq<Option<EntityRecord>>) {
    && (forall i | 0 <= i < |items| :: items[i].Some? && items[i].value.sourceInstanceId > 0)
    && (forall i, j | 0 <= i < j < |items| :: items[i].value.sourceInstanceId < items[j].value.sourceInstanceId)
  }

  ghost predicate AdapterAccepts(raw: RawPage, pageSize: nat, start: nat) {
    |raw.items| <= pageSize && (|raw.items| == 0 ==> raw.count <= start) && ItemsOk(raw.items)
  }

  // The part of the contract that makes a pass end: no page is empty before the count is reached.
  predicate NeverEmptyEarly(page: EntityPage, start: int) {
    |page.records| == 0 ==> page.total <= start
  }

  // The page made of a reply that was accepted.
  ghost predicate PageOfReply(raw: RawPage, pageSize: nat, start: nat, page: EntityPage) {
    && |page.records| == |raw.items|
    && (forall i | 0 <= i < |raw.items| :: raw.items[i] == Some(page.records[i]))
    && page.nextOffset == start + |raw.items| && page.total == raw.count
    && page.done == (|raw.items| < pageSize || start + |raw.items| >= raw.count)
  }

  // The items decoded one after the other; each must come after the one before it.
  method Decode(items: seq<Option<EntityRecord>>) returns (records: Option<seq<EntityRecord>>)
    ensures records.Some? <==> ItemsOk(items)
    ensures records.Some? ==>
      |records.value| == |items| && forall i | 0 <= i < |items| :: items[i] == Some(records.value[i])
  {
    var decoded: seq<EntityRecord> := [];
    var lastInstanceId := 0;
    for i := 0 to |items|
      invariant |decoded| == i
      invariant forall k | 0 <= k < i :: items[k] == Some(decoded[k])
      invariant ItemsOk(items[..i])
      invariant lastInstanceId == if i == 0 then 0 else decoded[i - 1].sourceInstanceId
    {
      if items[i].None? {
        assert !ItemsOk(items);
        return None;
      }
      var record := items[i].value;
      if record.sourceInstanceId <= lastInstanceId {
        assert i > 0 ==> items[i - 1].value.sourceInstanceId == lastInstanceId;
        assert !ItemsOk(items);
        return None;
      }
      assert i > 0 ==> items[..i][i - 1].value.sourceInstanceId == lastInstanceId;
      assert forall k | 0 <= k < i :: items[..i][k] == items[k];
      lastInstanceId := record.sourceInstanceId;
      decoded := decoded + [record];
    }
    assert items[..|items|] == items;
    records := Some(decoded);
  }

  method CollectEntityPage(raw: RawPage, pageSize: nat, start: nat) returns (page: Option<EntityPage>)
    ensures page.Some? <==> AdapterAccepts(raw, pageSize, start)
    ensures page.Some? ==> PageOfReply(raw, pageSize, start, page.value) && NeverEmptyEarly(page.value, start)
  {
    if |raw.items| > pageSize { return None; }
    if |raw.items| == 0 && raw.count > start { return None; }
    var records := Decode(raw.items);
    if records.None? { return None; }
    var nextOffset := start + |records.value|;
    var done := |records.value| < pageSize || nextOffset >= raw.count;
    page := Some(EntityPage(records.value, nextOffset, raw.count, done));
  }

  // The device adapter decodes first and looks for an early end afterwards; it accepts the same replies.
  method CollectDevicePage(raw: RawPage, pageSize: nat, start: nat) returns (page: Option<EntityPage>)
    ensures page.Some? <==> AdapterAccepts(raw, pageSize, start)
    ensures page.Some? ==> PageOfReply(raw, pageSize, start, page.value) && NeverEmptyEarly(page.value, start)
  {
    if |raw.items| > pageSize { return None; }
    var records := Decode(raw.items);
    if records.None? { return None; }
    if |records.value| == 0 && raw.count > start { return None; }
    var nextOffset := start + |records.value|;
    var done := |records.value| < pageSize || nextOffset >= raw.count;
    page := Some(EntityPage(records.value, nextOffset, raw.count, done));
  }

  // ----- the worker's page check -----

  // (partition, instance) pairs in lexicographic order.
  predicate Below(p: int, i: int, q: int, j: int) {
    p < q || (p == q && i < j)
  }

  predicate PartitionOk(entity: EntityType, partition: int) {
    if entity == Interface then partition > 0 else partition == 0
  }

  ghost predicate RecordsOk(cursor: Cursor, records: seq<EntityRecord>, entity: EntityType) {
    && (forall i | 0 <= i < |records| ::
          PartitionOk(entity, records[i].partition) && records[i].partition == records[0].partition)
    && (forall i, j | 0 <= i < j < |records| :: records[i].sourceInstanceId < records[j].sourceInstanceId)
    && (|records| > 0 ==>
          if entity == Interface && records[0].partition > cursor.lastPartition then records[0].sourceInstanceId > 0
          else
            && (entity == Interface ==> records[0].partition == cursor.lastPartition)
            && records[0].sourceInstanceId > cursor.lastInstanceId)
  }

  ghost predicate PageOk(cursor: Cursor, page: EntityPage, entity: EntityType) {
    && page.total >= 0
    && page.nextOffset == cursor.nextOffset + |page.records|
    && page.nextOffset <= page.total
    && (cursor.total > 0 ==> page.total == cursor.total)
    && page.done == (page.nextOffset >= page.total)
    && RecordsOk(cursor, page.records, entity)
  }

  // What one more record must satisfy, given those before it.
  ghost predicate NextOk(cursor: Cursor, before: seq<EntityRecord>, record: EntityRecord, entity: EntityType) {
    && PartitionOk(entity, record.partition)
    && if before != [] then
         record.partition == before[0].partition && record.sourceInstanceId > before[|before| - 1].sourceInstanceId
       else if entity == Interface && record.partition > cursor.lastPartition then record.sourceInstanceId > 0
       else
         && (entity == Interface ==> record.partition == cursor.lastPartition)
         && record.sourceInstanceId > cursor.lastInstanceId
  }

  lemma RecordsOkStep(cursor: Cursor, before: seq<EntityRecord>, record: EntityRecord, entity: EntityType)
    ensures RecordsOk(cursor, before + [record], entity) <==>
              RecordsOk(cursor, before, entity) && NextOk(cursor, before, record, entity)
  {
    var all, n := before + [record], |before|;
    if RecordsOk(cursor, all, entity) {
      assert forall i | 0 <= i < n :: all[i] == before[i];
      assert all[n] == record && (n > 0 ==> all[n - 1].sourceInstanceId < all[n].sourceInstanceId);
    }
  }

  lemma RecordsOkPrefix(cursor: Cursor, records: seq<EntityRecord>, k: nat, entity: EntityType)
    requires k <= |records|
    ensures RecordsOk(cursor, records, entity) ==> RecordsOk(cursor, records[..k], entity)
  {
  }

  // Where the loop over a page stands after these records.
  ghost predicate LastIs(cursor: Cursor, before: seq<EntityRecord>, lastInstanceId: int, lastPartition: int,
        entity: EntityType) {
    if before == [] then lastInstanceId == cursor.lastInstanceId && lastPartition == cursor.lastPartition
    else
      && lastInstanceId == before[|before| - 1].sourceInstanceId
      && (entity == Interface ==> lastPartition == before[0].partition)
  }

  method ValidateRecord(ghost cursor: Cursor, ghost before: seq<EntityRecord>, firstPartition: int, lastInstanceId: int,
                        lastPartition: int, record: EntityRecord, entity: EntityType)
    returns (ok: bool, nowInstanceId: int, nowPartition: int)
    requires RecordsOk(cursor, before, entity) && LastIs(cursor, before, lastInstanceId, lastPartition, entity)
    requires firstPartition == if before == [] then record.partition else before[0].partition
    ensures ok <==> NextOk(cursor, before, record, entity)
    ensures ok ==> LastIs(cursor, before + [record], nowInstanceId, nowPartition, entity)
  {
    ok, nowInstanceId, nowPartition := false, lastInstanceId, lastPartition;
    if entity == Interface {
      if record.partition <= 0 || record.partition != firstPartition || record.partition < lastPartition { return; }
      if record.partition > lastPartition {
        nowInstanceId := 0;
        nowPartition := record.partition;
      }
    } else if record.partition != 0 {
      return;
    }
    if record.sourceInstanceId <= nowInstanceId { return; }
    nowInstanceId := record.sourceInstanceId;
    ok := true;
  }

  method ValidateEntityPage(cursor: Cursor, page: EntityPage, entity: EntityType) returns (last: Option<int>)
    ensures last.Some? <==> PageOk(cursor, page, entity)
    ensures last.Some? ==>
      last.value == (if page.records == [] then cursor.lastInstanceId
          else page.records[|page.records| - 1].sourceInstanceId)
  {
    var expectedNextOffset := cursor.nextOffset + |page.records|;
    if page.total < 0 || page.nextOffset != expectedNextOffset || page.nextOffset > page.total { return None; }
    if cursor.total > 0 && page.total != cursor.total { return None; }
    if page.done != (page.nextOffset >= page.total) { return None; }
    var lastInstanceId, lastPartition := cursor.lastInstanceId, cursor.lastPartition;
    var records := page.records;
    assert RecordsOk(cursor, records[..0], entity);
    assert PageOk(cursor, page, entity) <==> RecordsOk(cursor, records, entity);
    hide RecordsOk, NextOk, PageOk;
    for i := 0 to |records|
      invariant RecordsOk(cursor, records[..i], entity)
      invariant LastIs(cursor, records[..i], lastInstanceId, lastPartition, entity)
    {
      RecordsOkStep(cursor, records[..i], records[i], entity);
      assert records[..i + 1] == records[..i] + [records[i]];
      var ok;
      ok, lastInstanceId, lastPartition :=
        ValidateRecord(cursor, records[..i], records[0].partition, lastInstanceId, lastPartition, records[i], entity);
      RecordsOkPrefix(cursor, records, i + 1, entity);
      if !ok { return None; }
    }
    assert records[..|records|] == records;
    last := Some(lastInstanceId);
  }

  // ----- identities -----

  function Identities(records: seq<EntityRecord>): set<string> {
    set i | 0 <= i < |records| :: records[i].identity
  }

  ghost predicate DistinctIdentities(records: seq<EntityRecord>) {
    forall i, j | 0 <= i < j < |records| :: records[i].identity != records[j].identity
  }

  ghost predicate CleanIdentities(records: seq<EntityRecord>) {
    forall i | 0 <= i < |records| :: Clean(records[i].identity)
  }

  method AddEntityIdentities(seen: set<string>, records: seq<EntityRecord>) returns (ok: bool, now: set<string>)
    ensures ok <==> CleanIdentities(records) && DistinctIdentities(records) && Identities(records) !! seen
    ensures ok ==> now == seen + Identities(records)
  {
    ok, now := true, seen;
    for k := 0 to |records|
      invariant ok && now == seen + Identities(records[..k])
      invariant CleanIdentities(records[..k]) && DistinctIdentities(records[..k]) && Identities(records[..k]) !! seen
    {
      var identity := TrimSpace(records[k].identity);
      assert records[..k + 1] == records[..k] + [records[k]];
      assert Identities(records[..k + 1]) == Identities(records[..k]) + {records[k].identity};
      if identity == "" || identity != records[k].identity {
        assert !Clean(records[k].identity);
        return false, now;
      }
      if identity in now {
        if identity in seen {
          assert identity in Identities(records) * seen;
        } else {
          var j :| 0 <= j < k && records[..k][j].identity == identity;
          assert records[j].identity == records[k].identity;
        }
        return false, now;
      }
      now := now + {identity};
    }
    assert records[..|records|] == records;
  }

  // Distinct identities number as many as the records.
  lemma {:induction false} IdentityCount(records: seq<EntityRecord>)
    requires DistinctIdentities(records)
    ensures |Identities(records)| == |records|
    decreases |records|
  {
    if records != [] {
      var n := |records| - 1;
      var front := records[..n];
      IdentityCount(front);
      assert records == front + [records[n]];
      assert Identities(records) == Identities(front) + {records[n].identity};
      assert records[n].identity !in Identities(front);
    }
  }

  lemma IdentitiesOfOne(record: EntityRecord)
    ensures Identities([record]) == {record.identity}
  {
    assert [record][0].identity in Identities([record]);
  }

  lemma IdentitiesOfSum(a: seq<EntityRecord>, b: seq<EntityRecord>)
    ensures Identities(a + b) == Identities(a) + Identities(b)
  {
    forall s | s in Identities(b) ensures s in Identities(a + b) {
      var i :| 0 <= i < |b| && b[i].identity == s;
      assert (a + b)[|a| + i].identity == s;
    }
    forall s | s in Identities(a) ensures s in Identities(a + b) {
      var i :| 0 <= i < |a| && a[i].identity == s;
      assert (a + b)[i].identity == s;
    }
  }

  lemma DistinctSum(a: seq<EntityRecord>, b: seq<EntityRecord>)
    requires DistinctIdentities(a) && DistinctIdentities(b) && Identities(a) !! Identities(b)
    ensures DistinctIdentities(a + b)
  {
    forall i, j | 0 <= i < j < |a + b| ensures (a + b)[i].identity != (a + b)[j].identity {
      if i < |a| <= j {
        assert a[i].identity in Identities(a) && b[j - |a|].identity in Identities(b);
      }
    }
  }

  // ----- passes -----

  function Advanced(cursor: Cursor, page: EntityPage): Cursor {
    if page.records == [] then cursor
    else
      cursor.(nextOffset := page.nextOffset, total := page.total,
              lastInstanceId := page.records[|page.records| - 1].sourceInstanceId,
              lastPartition := page.records[0].partition)
  }

  // Instance ids are positive and the (partition, instance) pairs strictly increase.
  ghost predicate PassOrdered(pass: seq<EntityRecord>, entity: EntityType) {
    && (forall i | 0 <= i < |pass| :: PartitionOk(entity, pass[i].partition) && pass[i].sourceInstanceId > 0)
    && (forall i, j | 0 <= i < j < |pass| ::
          Below(pass[i].partition, pass[i].sourceInstanceId, pass[j].partition, pass[j].sourceInstanceId))
  }

  // What the records gathered so far and the cursor kept beside them have in common.
  ghost predicate PassOk(pass: seq<EntityRecord>, cursor: Cursor, entity: EntityType) {
    && cursor.nextOffset == |pass|
    && (cursor.total > 0 ==> |pass| <= cursor.total)
    && (|pass| > 0 ==> cursor.total > 0)
    && PassOrdered(pass, entity)
    && if pass == [] then cursor.lastInstanceId == 0 && cursor.lastPartition == 0
       else
         && cursor.lastInstanceId == pass[|pass| - 1].sourceInstanceId
         && cursor.lastPartition == pass[|pass| - 1].partition
  }

  function ResourceFor(entity: EntityType): Option<string> {
    match entity
    case Device => Some("devices")
    case DataCenter => Some("data_centers")
    case Cabinet => Some("cabinets")
    case Interface => Some(INTERFACE_RESOURCE)
    case Transformer => Some("transformers")
    case _ => None
  }

  /** An accepted page extends an accepted pass: offsets stay contiguous, the order stays strict
      across the page boundary, and the new cursor passes the checkpoint's own progress guard. */
  lemma ExtendPass(pass: seq<EntityRecord>, cursor: Cursor, page: EntityPage, entity: EntityType, resource: string)
    requires PassOk(pass, cursor, entity) && PageOk(cursor, page, entity)
    ensures PassOk(pass + page.records, Advanced(cursor, page), entity)
    ensures ResourceFor(entity) == Some(resource) && page.records != [] && DecodeOk(resource, cursor) ==>
      && DecodeOk(resource, Advanced(cursor, page))
      && !AdvanceRefused(resource, cursor, Advanced(cursor, page))
  {
    AdvancedCursorOk(cursor, page, entity, resource);
    ExtendOrder(pass, cursor, page, entity);
  }

  lemma AdvancedCursorOk(cursor: Cursor, page: EntityPage, entity: EntityType, resource: string)
    requires PageOk(cursor, page, entity)
    ensures ResourceFor(entity) == Some(resource) && page.records != [] && DecodeOk(resource, cursor) ==>
      && DecodeOk(resource, Advanced(cursor, page))
      && !AdvanceRefused(resource, cursor, Advanced(cursor, page))
  {
  }

  lemma ExtendOrder(pass: seq<EntityRecord>, cursor: Cursor, page: EntityPage, entity: EntityType)
    requires PassOk(pass, cursor, entity) && PageOk(cursor, page, entity)
    ensures PassOrdered(pass + page.records, entity)
  {
  }

  // ----- whole passes, one accepted page after another -----

  function Gathered(pages: seq<EntityPage>): seq<EntityRecord> {
    if pages == [] then [] else Gathered(pages[..|pages| - 1]) + pages[|pages| - 1].records
  }

  function CursorAfter(start: Cursor, pages: seq<EntityPage>): Cursor {
    if pages == [] then start else Advanced(CursorAfter(start, pages[..|pages| - 1]), pages[|pages| - 1])
  }

  ghost predicate AcceptedPages(start: Cursor, pages: seq<EntityPage>, entity: EntityType) {
    forall k | 0 <= k < |pages| :: PageOk(CursorAfter(start, pages[..k]), pages[k], entity)
  }

  /** Any run of accepted pages from the start of a source: the offsets are contiguous, the
      (partition, instance) pairs strictly increase over the whole pass, and when the last page
      says it is the last, every record the source counted has been seen. */
  lemma {:induction false} AcceptedPassIsOrdered(runId: string, snapshotAt: Time, pages: seq<EntityPage>,
        entity: EntityType)
    requires AcceptedPages(FreshCursor(runId, snapshotAt), pages, entity)
    ensures PassOk(Gathered(pages), CursorAfter(FreshCursor(runId, snapshotAt), pages), entity)
    ensures pages != [] && pages[|pages| - 1].done ==> |Gathered(pages)| == pages[|pages| - 1].total
    decreases |pages|
  {
    var start := FreshCursor(runId, snapshotAt);
    if pages != [] {
      var n := |pages| - 1;
      var front := pages[..n];
      forall k | 0 <= k < |front| ensures PageOk(CursorAfter(start, front[..k]), front[k], entity) {
        assert front[..k] == pages[..k];
        assert PageOk(CursorAfter(start, pages[..k]), pages[k], entity);
      }
      AcceptedPassIsOrdered(runId, snapshotAt, front, entity);
      assert PageOk(CursorAfter(start, pages[..n]), pages[n], entity);
      ExtendPass(Gathered(front), CursorAfter(start, front), pages[n], entity, "");
    }
  }

  // Each page short of the last makes progress towards the total, so a pass ends.
  lemma PageProgress(cursor: Cursor, page: EntityPage, entity: EntityType)
    requires PageOk(cursor, page, entity) && NeverEmptyEarly(page, cursor.nextOffset) && !page.done
    requires cursor.nextOffset >= 0
    ensures page.records != [] && page.total > 0
    ensures cursor.total > 0 ==> page.total - page.nextOffset < cursor.total - cursor.nextOffset
  {
  }
}
