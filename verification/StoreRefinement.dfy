/** The SQL store refines the in-memory store for puts that extend the stored events, and keeps an
    append-only event log for any puts. */
module StoreRefinement {
  import opened Wrappers
  import opened Domain
  import opened StableSorting
  import opened Store

  /******* The event table *******/

  /** The rows of a deal are numbered 1..n in the order in which they were inserted. */
  ghost predicate Numbered(tables: Tables, dealId: Id) {
    forall i :: 0 <= i < |RowsFor(tables.eventRows, dealId)| ==>
        RowsFor(tables.eventRows, dealId)[i].sequenceNumber == i + 1
  }

  ghost predicate WellFormed(tables: Tables) {
    && (forall d :: Numbered(tables, d))
    && (forall d :: d !in tables.rows ==> RowsFor(tables.eventRows, d) == [])
    && (forall d :: d in tables.rows ==>
          var row := tables.rows[d];
          row.payload.dealId == d && row.status == row.payload.status && row.updatedAt == row.payload.updatedAt
          && row.orderId == row.payload.orderId && row.payload.events == [])
  }

  lemma LoadIsInsertionOrder(tables: Tables, dealId: Id)
    requires Numbered(tables, dealId)
    ensures LoadEvents(tables, dealId) == RowsFor(tables.eventRows, dealId)
    ensures EventCount(tables, dealId) == |RowsFor(tables.eventRows, dealId)|
  {
    SortOfSorted(RowsFor(tables.eventRows, dealId), EarlierEvent);
  }

  lemma {:induction false} RowsForConcat(rows: seq<EventRow>, added: seq<EventRow>, dealId: Id)
    requires (forall i :: 0 <= i < |added| ==> added[i].dealId == dealId)
        || (forall i :: 0 <= i < |added| ==> added[i].dealId != dealId)
    ensures RowsFor(rows + added, dealId)
         == RowsFor(rows, dealId) + if added != [] && added[0].dealId == dealId then added else []
  {
    if added == [] {
      assert rows + added == rows;
    } else {
      var n := |added| - 1;
      assert (rows + added)[..|rows| + n] == rows + added[..n];
      RowsForConcat(rows, added[..n], dealId);
      assert added == added[..n] + [added[n]];
    }
  }

  /** A put that is not refused adds to its own deal the events beyond those stored, and nothing else. */
  lemma PutAppends(tables: Tables, deal: Deal, d: Id)
    requires WellFormed(tables) && SqlPut(tables, deal).Ok?
    ensures RowsFor(AfterPut(tables, deal).eventRows, d)
         == RowsFor(tables.eventRows, d)
            + if d == deal.dealId && |RowsFor(tables.eventRows, d)| <= |deal.events|
              then EventRowsOf(deal, |RowsFor(tables.eventRows, d)|) else []
  {
    assert Numbered(tables, deal.dealId);
    LoadIsInsertionOrder(tables, deal.dealId);
    RowsForConcat(tables.eventRows, NewEventRows(tables, deal), d);
  }

  lemma PutKeepsNumbered(tables: Tables, deal: Deal, d: Id)
    requires WellFormed(tables)
    ensures Numbered(AfterPut(tables, deal), d)
  {
    hide RowsFor, NewEventRows, OrderTaken;
    assert Numbered(tables, d);
    if SqlPut(tables, deal).Ok? {
      PutAppends(tables, deal, d);
    }
  }

  lemma PutWellFormed(tables: Tables, deal: Deal)
    requires WellFormed(tables)
    ensures WellFormed(AfterPut(tables, deal))
  {
    var after := AfterPut(tables, deal);
    forall d ensures Numbered(after, d) {
      PutKeepsNumbered(tables, deal, d);
    }
    if SqlPut(tables, deal).Ok? {
      forall d | d !in after.rows ensures RowsFor(after.eventRows, d) == [] {
        PutAppends(tables, deal, d);
      }
    }
  }

  function Stored(tables: Tables, dealId: Id): seq<Event> {
    Events(RowsFor(tables.eventRows, dealId))
  }

  /** Any put: the stored events of every deal are kept, and those of the put deal grow to the longer
      of the two lists. */
  lemma PutGrowsLog(tables: Tables, deal: Deal, d: Id)
    requires WellFormed(tables)
    ensures Stored(tables, d) <= Stored(AfterPut(tables, deal), d)
    ensures d != deal.dealId ==> Stored(AfterPut(tables, deal), d) == Stored(tables, d)
    ensures SqlPut(tables, deal).Ok? && d == deal.dealId ==>
              && |Stored(AfterPut(tables, deal), d)| ==
                  (if |deal.events| > |Stored(tables, d)| then |deal.events| else |Stored(tables, d)|)
              && (|deal.events| > |Stored(tables, d)| ==>
                    Stored(AfterPut(tables, deal), d) == Stored(tables, d) + deal.events[|Stored(tables, d)|..])
  {
    hide NewEventRows, LoadEvents;
    if SqlPut(tables, deal).Ok? {
      PutAppends(tables, deal, d);
    }
  }

  /******* Sequences of puts *******/

  function RunSql(tables: Tables, puts: seq<Deal>): Tables
    decreases |puts|
  {
    if puts == [] then tables else RunSql(AfterPut(tables, puts[0]), puts[1..])
  }

  function RunMemory(m: Memory, puts: seq<Deal>): Memory
    decreases |puts|
  {
    if puts == [] then m else RunMemory(MemoryPut(m, puts[0]), puts[1..])
  }

  /** For any puts the event log is append-only and stays numbered 1..n. */
  lemma {:induction false} LogIsAppendOnly(tables: Tables, puts: seq<Deal>, d: Id)
    requires WellFormed(tables)
    ensures WellFormed(RunSql(tables, puts))
    ensures Stored(tables, d) <= Stored(RunSql(tables, puts), d)
    ensures forall i :: 0 <= i < |LoadEvents(RunSql(tables, puts), d)| ==>
              LoadEvents(RunSql(tables, puts), d)[i].sequenceNumber == i + 1
    decreases |puts|
  {
    if puts == [] {
      assert Numbered(tables, d);
      LoadIsInsertionOrder(tables, d);
    } else {
      PutWellFormed(tables, puts[0]);
      PutGrowsLog(tables, puts[0], d);
      LogIsAppendOnly(AfterPut(tables, puts[0]), puts[1..], d);
    }
  }

  /** Order ids are not shared between deals. */
  ghost predicate OrderFree(m: Memory, deal: Deal) {
    deal.orderId.Some? ==> forall id :: id in m.deals && id != deal.dealId ==> m.deals[id].orderId != deal.orderId
  }

  /** The put's events extend the ones stored. */
  ghost predicate Extends(m: Memory, deal: Deal) {
    deal.dealId in m.deals ==> m.deals[deal.dealId].events <= deal.events
  }

  ghost predicate AllExtend(m: Memory, puts: seq<Deal>)
    decreases |puts|
  {
    puts == [] || (Extends(m, puts[0]) && OrderFree(m, puts[0]) && AllExtend(MemoryPut(m, puts[0]), puts[1..]))
  }

  ghost predicate Simulates(m: Memory, tables: Tables) {
    && m.Valid() && WellFormed(tables)
    && (forall id :: id in m.deals <==> id in tables.rows)
    && (forall id :: id in m.deals ==> ToRecord(tables, id) == m.deals[id])
  }

  lemma RecordIs(tables: Tables, id: Id)
    requires WellFormed(tables) && id in tables.rows
    ensures ToRecord(tables, id) == tables.rows[id].payload.(events := Stored(tables, id))
  {
    assert Numbered(tables, id);
    LoadIsInsertionOrder(tables, id);
  }

  lemma NotTaken(m: Memory, tables: Tables, deal: Deal)
    requires Simulates(m, tables) && OrderFree(m, deal)
    ensures !OrderTaken(tables, deal)
  {
    forall id | id in tables.rows && id != deal.dealId
      ensures deal.orderId.Some? ==> tables.rows[id].orderId != deal.orderId
    {
      assert m.deals[id] == ToRecord(tables, id);
    }
  }

  lemma LongerOfTwo(stored: seq<Event>, events: seq<Event>, after: seq<Event>)
    requires after == if |events| > |stored| then stored + events[|stored|..] else stored
    ensures after == events <==> stored <= events
  {
    if stored <= events {
      assert events == stored + events[|stored|..];
    }
  }

  lemma StoredAfterPut(tables: Tables, deal: Deal)
    requires WellFormed(tables) && SqlPut(tables, deal).Ok?
    ensures var stored := Stored(tables, deal.dealId);
            Stored(AfterPut(tables, deal), deal.dealId)
            == if |deal.events| > |stored| then stored + deal.events[|stored|..] else stored
  {
    PutGrowsLog(tables, deal, deal.dealId);
  }

  lemma LoggedEvents(m: Memory, tables: Tables, id: Id)
    requires Simulates(m, tables)
    ensures Stored(tables, id) == if id in m.deals then m.deals[id].events else []
  {
    if id in tables.rows { RecordIs(tables, id); }
  }

  /** A put that extends the stored events stores exactly its own. */
  lemma PutStoresEvents(m: Memory, tables: Tables, deal: Deal)
    requires Simulates(m, tables) && Extends(m, deal) && SqlPut(tables, deal).Ok?
    ensures Stored(AfterPut(tables, deal), deal.dealId) == deal.events
  {
    hide SqlPut, AfterPut, WellFormed, Stored, ToRecord;
    LoggedEvents(m, tables, deal.dealId);
    StoredAfterPut(tables, deal);
    LongerOfTwo(Stored(tables, deal.dealId), deal.events, Stored(AfterPut(tables, deal), deal.dealId));
  }

  lemma PutRecord(m: Memory, tables: Tables, deal: Deal, id: Id)
    requires Simulates(m, tables) && Extends(m, deal) && OrderFree(m, deal)
    requires id == deal.dealId || id in tables.rows
    ensures WellFormed(AfterPut(tables, deal)) && id in AfterPut(tables, deal).rows
    ensures ToRecord(AfterPut(tables, deal), id) == if id == deal.dealId then deal else m.deals[id]
  {
    hide WellFormed, OrderTaken, NewEventRows, LoadEvents, Stored, Numbered;
    NotTaken(m, tables, deal);
    PutWellFormed(tables, deal);
    RecordIs(AfterPut(tables, deal), id);
    if id == deal.dealId {
      PutStoresEvents(m, tables, deal);
    } else {
      PutGrowsLog(tables, deal, id);
      RecordIs(tables, id);
    }
  }

  lemma PutSimulates(m: Memory, tables: Tables, deal: Deal)
    requires Simulates(m, tables) && Extends(m, deal) && OrderFree(m, deal)
    ensures Simulates(MemoryPut(m, deal), AfterPut(tables, deal))
  {
    MemoryPutValid(m, deal);
    PutWellFormed(tables, deal);
    NotTaken(m, tables, deal);
    var m', after := MemoryPut(m, deal), AfterPut(tables, deal);
    forall id | id in m'.deals ensures id in after.rows && ToRecord(after, id) == m'.deals[id] {
      PutRecord(m, tables, deal, id);
    }
  }

  /** The two stores agree on the deal just put exactly when its events extend the stored ones; a record
      rebuilt on an older event list is stored with the log kept by SQL, not with its own. */
  lemma PutAgreesIff(m: Memory, tables: Tables, deal: Deal)
    requires Simulates(m, tables) && OrderFree(m, deal)
    ensures deal.dealId in AfterPut(tables, deal).rows
    ensures ToRecord(AfterPut(tables, deal), deal.dealId) == MemoryPut(m, deal).deals[deal.dealId] <==> Extends(m, deal)
  {
    var id := deal.dealId;
    NotTaken(m, tables, deal);
    PutWellFormed(tables, deal);
    RecordIs(AfterPut(tables, deal), id);
    StoredAfterPut(tables, deal);
    LongerOfTwo(Stored(tables, id), deal.events, Stored(AfterPut(tables, deal), id));
    if id in tables.rows {
      RecordIs(tables, id);
      assert m.deals[id] == ToRecord(tables, id);
    }
  }

  lemma {:induction false} RunSimulates(m: Memory, tables: Tables, puts: seq<Deal>)
    requires Simulates(m, tables) && AllExtend(m, puts)
    ensures Simulates(RunMemory(m, puts), RunSql(tables, puts))
    decreases |puts|
  {
    if puts != [] {
      PutSimulates(m, tables, puts[0]);
      RunSimulates(MemoryPut(m, puts[0]), AfterPut(tables, puts[0]), puts[1..]);
    }
  }

  lemma EmptyWellFormed()
    ensures WellFormed(EMPTY_TABLES) && Simulates(EMPTY_MEMORY, EMPTY_TABLES)
  {
    assert forall d :: RowsFor(EMPTY_TABLES.eventRows, d) == [];
  }

  /** Refinement, reads: after any extending puts both stores answer every `get` alike. */
  lemma GetRefines(puts: seq<Deal>, id: Id)
    requires AllExtend(EMPTY_MEMORY, puts)
    ensures var m := RunMemory(EMPTY_MEMORY, puts);
            SqlGet(RunSql(EMPTY_TABLES, puts), id) == if id in m.deals then Ok(m.deals[id]) else Err(DealNotFound)
  {
    EmptyWellFormed();
    RunSimulates(EMPTY_MEMORY, EMPTY_TABLES, puts);
  }

  ghost predicate DistinctTimes(m: Memory) {
    forall a, b :: a in m.deals && b in m.deals && a != b ==> m.deals[a].updatedAt != m.deals[b].updatedAt
  }

  lemma ValuesMembers(m: Memory)
    requires m.Valid()
    ensures forall deal :: deal in m.Values() <==> deal.dealId in m.deals && m.deals[deal.dealId] == deal
    ensures forall i, j :: 0 <= i < j < |m.Values()| ==> m.Values()[i] != m.Values()[j]
  {
    var values := m.Values();
    forall i | 0 <= i < |values| ensures values[i].dealId == m.ids[i] && m.ids[i] in m.deals {
      assert m.ids[i] in m.ids;
    }
    forall deal: Deal | deal.dealId in m.deals && m.deals[deal.dealId] == deal ensures deal in values {
      assert deal.dealId in m.ids;
      var i :| 0 <= i < |m.ids| && m.ids[i] == deal.dealId;
      assert values[i] == deal;
    }
  }

  lemma QueriedIs(m: Memory, tables: Tables, status: Option<DealStatus>, deal: Deal)
    requires Simulates(m, tables)
    ensures (exists id :: id in tables.rows
                && (status.None? || tables.rows[id].status == status.value) && deal == ToRecord(tables, id))
            <==> deal.dealId in m.deals && m.deals[deal.dealId] == deal && HasStatus(status)(deal)
  {
    hide LoadEvents;
    if deal.dealId in m.deals {
      assert m.deals[deal.dealId] == ToRecord(tables, deal.dealId);
    }
  }

  lemma QueryMembers(m: Memory, tables: Tables, status: Option<DealStatus>, full: seq<Deal>)
    requires Simulates(m, tables) && IsOrderedQuery(tables, status, full)
    ensures forall deal :: deal in full <==> deal in Filter(m.Values(), HasStatus(status))
  {
    hide ToRecord, WellFormed;
    ValuesMembers(m);
    FilterMembers(m.Values(), HasStatus(status));
    forall deal ensures deal in full <==> deal in m.Values() && HasStatus(status)(deal) {
      QueriedIs(m, tables, status, deal);
    }
  }

  lemma ExpectedListing(m: Memory, status: Option<DealStatus>) returns (expected: seq<Deal>, wanted: seq<Deal>)
    requires m.Valid()
    ensures wanted == Filter(m.Values(), HasStatus(status))
    ensures expected == Filter(Sort(m.Values(), Newer), HasStatus(status))
    ensures StrictWeakOrder(Newer) && Sorted(expected, Newer) && multiset(expected) == multiset(wanted)
    ensures forall i, j :: 0 <= i < j < |wanted| ==> wanted[i] != wanted[j]
    ensures forall deal :: deal in expected ==> deal.dealId in m.deals && m.deals[deal.dealId] == deal
  {
    var p := HasStatus(status);
    wanted, expected := Filter(m.Values(), p), Filter(Sort(m.Values(), Newer), p);
    NewerIsOrder();
    FilteredSort(m.Values(), p, Newer);
    ValuesMembers(m);
    FilterKeepsDistinct(m.Values(), p);
  }

  /** Refinement, listing: with distinct update times every page of the ordered query, whatever the
      engine does with ties, is the in-memory page. */
  lemma ListRefines(m: Memory, tables: Tables, limit: nat, offset: nat, status: Option<DealStatus>, page: seq<Deal>)
    requires Simulates(m, tables) && DistinctTimes(m) && IsSqlPage(tables, limit, offset, status, page)
    ensures page == MemoryList(m, limit, offset, status)
  {
    var full :| IsOrderedQuery(tables, status, full) && page == Page(full, offset, limit);
    var expected, wanted := ExpectedListing(m, status);
    QueryMembers(m, tables, status, full);
    DistinctSameMembers(full, wanted);
    SameListing(m, full, expected);
  }

  lemma SameListing(m: Memory, full: seq<Deal>, expected: seq<Deal>)
    requires m.Valid() && DistinctTimes(m) && StrictWeakOrder(Newer)
    requires Sorted(full, Newer) && Sorted(expected, Newer)
    requires multiset(full) == multiset(expected)
    requires forall deal :: deal in expected ==> deal.dealId in m.deals && m.deals[deal.dealId] == deal
    ensures full == expected
  {
    assert |multiset(full)| == |multiset(expected)|;
    forall i | 0 <= i < |full| ensures full[i] == expected[i] {
      NotAboveAt(full, expected, i, Newer);
      NotAboveAt(expected, full, i, Newer);
      assert full[i] in multiset(expected) && expected[i] in expected;
    }
  }

  lemma NewestFirst(full: seq<Deal>)
    requires Sorted(full, Newer)
    ensures forall i, j :: 0 <= i < j < |full| ==> full[i].updatedAt >= full[j].updatedAt
  {
    forall i, j | 0 <= i < j < |full| ensures full[i].updatedAt >= full[j].updatedAt {
      assert !Newer(full[j], full[i]);
    }
  }

  lemma PageIs(full: seq<Deal>, offset: nat, limit: nat)
    ensures var page := Page(full, offset, limit);
            && |page| == (if offset + limit <= |full| then limit else if offset <= |full| then |full| - offset else 0)
            && forall k :: 0 <= k < |page| ==> page[k] == full[offset + k]
  {
  }

  /** What `list` returns, in terms of the records alone: a page of all records with the wanted status, each once,
      newest first. */
  lemma ListIs(m: Memory, limit: nat, offset: nat, status: Option<DealStatus>) returns (full: seq<Deal>)
    requires m.Valid()
    ensures forall deal: Deal :: deal in full <==>
              deal.dealId in m.deals && m.deals[deal.dealId] == deal && (status.Some? ==> deal.status == status.value)
    ensures forall i, j :: 0 <= i < j < |full| ==> full[i] != full[j] && full[i].updatedAt >= full[j].updatedAt
    ensures var page := MemoryList(m, limit, offset, status);
            && |page| == (if offset + limit <= |full| then limit else if offset <= |full| then |full| - offset else 0)
            && forall k :: 0 <= k < |page| ==> page[k] == full[offset + k]
  {
    hide Filter, Sort, Sorted, Page, StrictWeakOrder, Memory.Values;
    var expected, wanted := ExpectedListing(m, status);
    full := expected;
    SameMultisetDistinct(wanted, full);
    ValuesMembers(m);
    FilterMembers(m.Values(), HasStatus(status));
    NewestFirst(full);
    PageIs(full, offset, limit);
  }
}
