/** The deal stores: the in-memory dictionary as the specification, the SQL tables as the
    implementation. */
module Store {
  import opened Wrappers
  import opened Domain
  import opened StableSorting

  datatype StoreError = DealNotFound | IntegrityError

  /******* Listing *******/

  predicate Newer(a: Deal, b: Deal) {
    a.updatedAt > b.updatedAt
  }

  function HasStatus(status: Option<DealStatus>): Deal -> bool {
    (deal: Deal) => status.None? || deal.status == status.value
  }

  /** `items[offset : offset + limit]`. */
  function Page(items: seq<Deal>, offset: nat, limit: nat): seq<Deal> {
    var start := if offset < |items| then offset else |items|;
    var end := if offset + limit < |items| then offset + limit else |items|;
    items[start..end]
  }

  lemma NewerIsOrder()
    ensures StrictWeakOrder(Newer)
  {
  }

  /******* The in-memory store *******/

  /** A dictionary keeps its insertion order: `ids` lists the keys of `deals`. */
  datatype Memory = Memory(ids: seq<Id>, deals: map<Id, Deal>)
  {
    ghost predicate Valid() {
      && (forall id :: id in ids <==> id in deals)
      && (forall i, j :: 0 <= i < j < |ids| ==> ids[i] != ids[j])
      && (forall id :: id in deals ==> deals[id].dealId == id)
    }

    function Values(): seq<Deal>
      requires forall id :: id in ids <==> id in deals
    {
      seq(|ids|, i requires 0 <= i < |ids| => assert ids[i] in deals; deals[ids[i]])
    }
  }

  const EMPTY_MEMORY := Memory([], map[])

  function MemoryPut(m: Memory, deal: Deal): Memory {
    Memory(if deal.dealId in m.deals then m.ids else m.ids + [deal.dealId], m.deals[deal.dealId := deal])
  }

  lemma MemoryPutValid(m: Memory, deal: Deal)
    requires m.Valid()
    ensures MemoryPut(m, deal).Valid()
  {
    var m' := MemoryPut(m, deal);
    forall id ensures id in m'.ids <==> id in m'.deals {
      if id in m.ids { assert id in m'.ids; }
      if id == deal.dealId && deal.dealId !in m.deals { assert m'.ids[|m.ids|] == id; }
    }
    forall i, j | 0 <= i < j < |m'.ids| ensures m'.ids[i] != m'.ids[j] {
      if j == |m.ids| { assert m.ids[i] in m.ids; }
    }
  }

  /** What `list` returns: newest first, filtered after sorting. */
  function MemoryList(m: Memory, limit: nat, offset: nat, status: Option<DealStatus>): seq<Deal>
    requires forall id :: id in m.ids <==> id in m.deals
  {
    Page(Filter(Sort(m.Values(), Newer), HasStatus(status)), offset, limit)
  }

  class InMemoryDealStore {
    var memory: Memory

    constructor ()
      ensures memory == EMPTY_MEMORY && memory.Valid()
    {
      memory := EMPTY_MEMORY;
    }

    method Put(deal: Deal)
      requires memory.Valid()
      modifies this
      ensures memory == MemoryPut(old(memory), deal) && memory.Valid()
    {
      MemoryPutValid(memory, deal);
      if deal.dealId !in memory.deals {
        memory := memory.(ids := memory.ids + [deal.dealId]);
      }
      memory := memory.(deals := memory.deals[deal.dealId := deal]);
    }

    method Get(dealId: Id) returns (r: Result<Deal, StoreError>)
      ensures r == if dealId in memory.deals then Ok(memory.deals[dealId]) else Err(DealNotFound)
    {
      r := if dealId in memory.deals then Ok(memory.deals[dealId]) else Err(DealNotFound);
    }

    method List(limit: nat, offset: nat, status: Option<DealStatus>) returns (items: seq<Deal>)
      requires memory.Valid()
      ensures items == MemoryList(memory, limit, offset, status)
    {
      items := Sort(memory.Values(), Newer);
      if status.Some? {
        items := Filter(items, HasStatus(status));
      } else {
        FilterAll(items, HasStatus(status));
      }
      items := Page(items, offset, limit);
    }
  }

  /******* The SQL tables *******/

  /** The payload column holds the record without its events. */
  datatype DealRow = DealRow(status: DealStatus, orderId: Option<Id>, payload: Deal, version: nat, updatedAt: Time)

  datatype EventRow = EventRow(dealId: Id, sequenceNumber: nat, event: Event)

  datatype Tables = Tables(rows: map<Id, DealRow>, eventRows: seq<EventRow>)

  const EMPTY_TABLES := Tables(map[], [])

  predicate EarlierEvent(a: EventRow, b: EventRow) {
    a.sequenceNumber < b.sequenceNumber
  }

  function RowsFor(eventRows: seq<EventRow>, dealId: Id): seq<EventRow> {
    if eventRows == [] then []
    else
      var last := eventRows[|eventRows| - 1];
      RowsFor(eventRows[..|eventRows| - 1], dealId) + if last.dealId == dealId then [last] else []
  }

  function Events(eventRows: seq<EventRow>): seq<Event> {
    seq(|eventRows|, i requires 0 <= i < |eventRows| => eventRows[i].event)
  }

  /** The event rows of a deal ordered by sequence number. */
  function LoadEvents(tables: Tables, dealId: Id): seq<EventRow> {
    Sort(RowsFor(tables.eventRows, dealId), EarlierEvent)
  }

  function EventCount(tables: Tables, dealId: Id): nat {
    var loaded := LoadEvents(tables, dealId);
    if loaded == [] then 0 else loaded[|loaded| - 1].sequenceNumber
  }

  /** `_to_record`. */
  function ToRecord(tables: Tables, dealId: Id): Deal
    requires dealId in tables.rows
  {
    tables.rows[dealId].payload.(events := Events(LoadEvents(tables, dealId)))
  }

  function SqlGet(tables: Tables, dealId: Id): Result<Deal, StoreError> {
    if dealId in tables.rows then Ok(ToRecord(tables, dealId)) else Err(DealNotFound)
  }

  /** The unique constraint on the order id column. */
  predicate OrderTaken(tables: Tables, deal: Deal) {
    deal.orderId.Some?
    && exists id :: id in tables.rows && id != deal.dealId && tables.rows[id].orderId == deal.orderId
  }

  function EventRowsOf(deal: Deal, start: nat): seq<EventRow>
    requires start <= |deal.events|
  {
    seq(|deal.events| - start, i requires 0 <= i < |deal.events| - start =>
      EventRow(deal.dealId, start + i + 1, deal.events[start + i]))
  }

  function NewEventRows(tables: Tables, deal: Deal): seq<EventRow> {
    var existing := if deal.dealId in tables.rows then EventCount(tables, deal.dealId) else 0;
    if existing <= |deal.events| then EventRowsOf(deal, existing) else []
  }

  function RowOf(tables: Tables, deal: Deal): DealRow {
    DealRow(deal.status, deal.orderId, deal.(events := []),
            if deal.dealId in tables.rows then tables.rows[deal.dealId].version + 1 else 1, deal.updatedAt)
  }

  function SqlPut(tables: Tables, deal: Deal): Result<Tables, StoreError> {
    if OrderTaken(tables, deal) then Err(IntegrityError)
    else Ok(Tables(tables.rows[deal.dealId := RowOf(tables, deal)], tables.eventRows + NewEventRows(tables, deal)))
  }

  /** The tables after a put that may have been rolled back. */
  function AfterPut(tables: Tables, deal: Deal): Tables {
    match SqlPut(tables, deal)
    case Ok(after) => after
    case Err(_) => tables
  }

  /** A page of a query ordered by update time: ties may come in any order. */
  ghost predicate IsSqlPage(tables: Tables, limit: nat, offset: nat, status: Option<DealStatus>, page: seq<Deal>) {
    exists full :: IsOrderedQuery(tables, status, full) && page == Page(full, offset, limit)
  }

  ghost predicate IsOrderedQuery(tables: Tables, status: Option<DealStatus>, full: seq<Deal>) {
    && Sorted(full, Newer)
    && (forall i, j :: 0 <= i < j < |full| ==> full[i] != full[j])
    && (forall deal :: deal in full <==>
          exists id :: id in tables.rows && (status.None? || tables.rows[id].status == status.value)
              && deal == ToRecord(tables, id))
  }

  /** The record of a matching row that the query has met, when these are left. */
  ghost predicate IsMet(tables: Tables, left: set<Id>, status: Option<DealStatus>, deal: Deal) {
    exists id :: id in tables.rows && id !in left
        && (status.None? || tables.rows[id].status == status.value) && deal == ToRecord(tables, id)
  }

  /** Each matching row the query has met is found once. */
  ghost predicate Collected(tables: Tables, left: set<Id>, status: Option<DealStatus>, found: seq<Deal>) {
    && (forall i, j :: 0 <= i < j < |found| ==> found[i] != found[j])
    && (forall deal :: deal in found <==> IsMet(tables, left, status, deal))
  }

  lemma NothingCollected(tables: Tables, status: Option<DealStatus>)
    ensures Collected(tables, tables.rows.Keys, status, [])
  {
  }

  lemma MeetsOne(tables: Tables, left: set<Id>, status: Option<DealStatus>, id: Id, deal: Deal)
    requires id in left && left <= tables.rows.Keys
    ensures IsMet(tables, left - {id}, status, deal) <==>
              || IsMet(tables, left, status, deal)
              || ((status.None? || tables.rows[id].status == status.value) && deal == ToRecord(tables, id))
  {
    hide ToRecord;
  }

  lemma NotMetYet(tables: Tables, left: set<Id>, status: Option<DealStatus>, id: Id)
    requires id in left && left <= tables.rows.Keys
    requires forall id :: id in tables.rows ==> tables.rows[id].payload.dealId == id
    ensures !IsMet(tables, left, status, ToRecord(tables, id))
  {
  }

  lemma CollectsOne(tables: Tables, left: set<Id>, status: Option<DealStatus>, found: seq<Deal>, id: Id)
    requires Collected(tables, left, status, found) && id in left && left <= tables.rows.Keys
    requires forall id :: id in tables.rows ==> tables.rows[id].payload.dealId == id
    ensures if status.None? || tables.rows[id].status == status.value
            then Collected(tables, left - {id}, status, found + [ToRecord(tables, id)])
            else Collected(tables, left - {id}, status, found)
  {
    hide ToRecord, IsMet;
    NotMetYet(tables, left, status, id);
    forall deal
      ensures IsMet(tables, left - {id}, status, deal) <==>
                || IsMet(tables, left, status, deal)
                || ((status.None? || tables.rows[id].status == status.value) && deal == ToRecord(tables, id))
    {
      MeetsOne(tables, left, status, id, deal);
    }
  }

  lemma CollectedIsQuery(tables: Tables, status: Option<DealStatus>, found: seq<Deal>)
    requires Collected(tables, {}, status, found)
    ensures IsOrderedQuery(tables, status, Sort(found, Newer))
  {
    hide ToRecord;
    assert forall deal :: deal in found <==> IsMet(tables, {}, status, deal);
    NewerIsOrder();
    SortSorted(found, Newer);
    SortPermutes(found, Newer);
    SameMultisetDistinct(found, Sort(found, Newer));
  }

  class SQLAlchemyDealStore {
    var tables: Tables

    constructor ()
      ensures tables == EMPTY_TABLES
    {
      tables := EMPTY_TABLES;
    }

    /** One transaction: upsert the row, insert the missing event rows, roll back on a conflict. */
    method Put(deal: Deal) returns (error: Option<StoreError>)
      modifies this
      ensures tables == AfterPut(old(tables), deal)
      ensures error == if SqlPut(old(tables), deal).Ok? then None else Some(IntegrityError)
    {
      var existingEventCount := 0;
      var version := 1;
      if deal.dealId in tables.rows {
        existingEventCount := EventCount(tables, deal.dealId);
        version := tables.rows[deal.dealId].version + 1;
      }
      var row := DealRow(deal.status, deal.orderId, deal.(events := []), version, deal.updatedAt);
      var added: seq<EventRow> := [];
      for i := 0 to |deal.events|
        invariant added ==
            if existingEventCount <= i then EventRowsOf(deal, existingEventCount)[..i - existingEventCount] else []
      {
        if i + 1 > existingEventCount {
          added := added + [EventRow(deal.dealId, i + 1, deal.events[i])];
        }
      }
      if OrderTaken(tables, deal) {
        return Some(IntegrityError);
      }
      tables := Tables(tables.rows[deal.dealId := row], tables.eventRows + added);
      error := None;
    }

    method Get(dealId: Id) returns (r: Result<Deal, StoreError>)
      ensures r == SqlGet(tables, dealId)
    {
      if dealId !in tables.rows { return Err(DealNotFound); }
      r := Ok(ToRecord(tables, dealId));
    }

    /** The query engine meets the rows in any order, sorts them and cuts out the page. */
    method List(limit: nat, offset: nat, status: Option<DealStatus>) returns (page: seq<Deal>)
      requires forall id :: id in tables.rows ==> tables.rows[id].payload.dealId == id
      ensures IsSqlPage(tables, limit, offset, status, page)
    {
      hide Collected, IsOrderedQuery, Page;
      var found: seq<Deal> := [];
      var left := tables.rows.Keys;
      NothingCollected(tables, status);
      while left != {}
        invariant left <= tables.rows.Keys
        invariant Collected(tables, left, status, found)
        decreases left
      {
        var id :| id in left;
        CollectsOne(tables, left, status, found, id);
        if status.None? || tables.rows[id].status == status.value {
          found := found + [ToRecord(tables, id)];
        }
        left := left - {id};
      }
      var full := Sort(found, Newer);
      CollectedIsQuery(tables, status, found);
      page := Page(full, offset, limit);
    }
  }
}
