/** Server-sent events of a deal: the polling loop that never skips and never repeats an event. */
module EventStream {
  import opened Domain
  import opened Store
  import opened StoreRefinement

  /** What one poll of the store returns. */
  datatype Poll = Poll(events: seq<Event>, status: DealStatus)

  datatype Emitted = Numbered(id: nat, event: Event) | KeepAlive | StreamComplete

  /** Every status except draft ends the stream. */
  predicate Terminal(status: DealStatus) {
    status != Draft
  }

  /** The log only grows between polls. */
  ghost predicate Growing(polls: seq<Poll>) {
    forall i, j :: 0 <= i <= j < |polls| ==> polls[i].events <= polls[j].events
  }

  /** The numbered events among everything emitted, in order. */
  function NumberedOf(out: seq<Emitted>): seq<Emitted> {
    if out == [] then []
    else NumberedOf(out[..|out| - 1]) + if out[|out| - 1].Numbered? then [out[|out| - 1]] else []
  }

  /** Events `start + 1` to `end` of the log under their own numbers. */
  function Tail(events: seq<Event>, start: nat, end: nat): seq<Emitted>
    requires start <= end <= |events|
  {
    seq(end - start, i requires 0 <= i < end - start => Numbered(start + i + 1, events[start + i]))
  }

  function Position(after: int): nat {
    if after < 0 then 0 else after
  }

  /** What has been emitted once a log was served from `start` on. */
  ghost predicate Served(out: seq<Emitted>, events: seq<Event>, start: nat, position: nat) {
    if start <= |events|
    then position == |events| && NumberedOf(out) == Tail(events, start, position)
    else position == start && NumberedOf(out) == []
  }

  ghost predicate Open(out: seq<Emitted>) {
    forall i :: 0 <= i < |out| ==> out[i] != StreamComplete
  }

  /** The inner loop: the events of one fetched record after `position`. */
  method EmitNew(emitted: seq<Emitted>, events: seq<Event>, from: nat, ghost start: nat)
      returns (out: seq<Emitted>, position: nat)
    requires start <= from && Open(emitted)
    requires start <= |events| ==> from <= |events| && NumberedOf(emitted) == Tail(events, start, from)
    requires start > |events| ==> from == start && NumberedOf(emitted) == []
    ensures Served(out, events, start, position) && Open(out)
  {
    out, position := emitted, from;
    while position < |events|
      invariant start <= position && Open(out)
      invariant start <= |events| ==> position <= |events| && NumberedOf(out) == Tail(events, start, position)
      invariant start > |events| ==> position == start && NumberedOf(out) == []
    {
      NumberedOfAppend(out, Numbered(position + 1, events[position]));
      out := out + [Numbered(position + 1, events[position])];
      position := position + 1;
    }
  }

  lemma ServedGrows(out: seq<Emitted>, before: seq<Event>, events: seq<Event>, start: nat, position: nat)
    requires before <= events && Served(out, before, start, position)
    ensures start <= |events| && start <= |before| ==>
        position <= |events| && NumberedOf(out) == Tail(events, start, position)
    ensures start > |before| ==> position == start && NumberedOf(out) == []
  {
  }

  /** The `generate` loop over the store states it happens to meet: `served` polls were consumed, and
      exactly the events of the last one after the requested position were emitted; the stream
      completes at, and only at, the first poll whose deal is no longer a draft. */
  method Generate(after: int, polls: seq<Poll>) returns (out: seq<Emitted>, served: nat, position: nat)
    requires Growing(polls)
    ensures served <= |polls|
    ensures served > 0 ==> Served(out, polls[served - 1].events, if after < 0 then 0 else after, position)
    ensures served == 0 ==> polls == [] && out == []
    ensures forall i :: 0 <= i < served - 1 ==> polls[i].status == Draft
    ensures served > 0 && polls[served - 1].status != Draft <==> out != [] && out[|out| - 1] == StreamComplete
    ensures served < |polls| ==> out != [] && out[|out| - 1] == StreamComplete
    ensures forall i :: 0 <= i < |out| - 1 ==> out[i] != StreamComplete
  {
    position := if after > 0 then after else 0;
    out, served := [], 0;
    while served < |polls|
      invariant served <= |polls| && Open(out)
      invariant served == 0 ==> out == [] && position == Position(after)
      invariant served > 0 ==> Served(out, polls[served - 1].events, Position(after), position)
      invariant forall i :: 0 <= i < served ==> !Terminal(polls[i].status)
    {
      var deal := polls[served];
      if served > 0 {
        ServedGrows(out, polls[served - 1].events, deal.events, Position(after), position);
      }
      out, position := EmitNew(out, deal.events, position, Position(after));
      served := served + 1;
      if Terminal(deal.status) {
        NumberedOfAppend(out, StreamComplete);
        out := out + [StreamComplete];
        return;
      }
      NumberedOfAppend(out, KeepAlive);
      out := out + [KeepAlive];
    }
  }

  lemma NumberedOfAppend(out: seq<Emitted>, e: Emitted)
    ensures NumberedOf(out + [e]) == NumberedOf(out) + if e.Numbered? then [e] else []
  {
    assert (out + [e])[..|out|] == out;
  }

  /** The ids after `start` are start + 1, start + 2, … without gap or repeat, and id `k` carries the
      k-th event of the log. */
  lemma TailIsConsecutive(events: seq<Event>, start: nat, end: nat, i: nat)
    requires start <= end <= |events| && i < end - start
    ensures Tail(events, start, end)[i].id == start + i + 1
    ensures Tail(events, start, end)[i].event == events[Tail(events, start, end)[i].id - 1]
    ensures |Tail(events, start, end)| == end - start
  {
  }

  /** What a poll of the SQL store reads. */
  function PollOf(tables: Tables, dealId: Id): Poll
    requires dealId in tables.rows
  {
    var deal := SqlGet(tables, dealId).value;
    Poll(deal.events, deal.status)
  }

  /** A poll after each put of a list. */
  function PollsOf(tables: Tables, puts: seq<Deal>, dealId: Id): seq<Poll>
    requires dealId in tables.rows
    decreases |puts|
  {
    [PollOf(tables, dealId)] + if puts == [] then [] else PollsOf(AfterPut(tables, puts[0]), puts[1..], dealId)
  }

  lemma PollReadsTheLog(tables: Tables, dealId: Id)
    requires WellFormed(tables) && dealId in tables.rows
    ensures PollOf(tables, dealId).events == Stored(tables, dealId)
  {
    RecordIs(tables, dealId);
  }

  ghost predicate AllExtendLog(log: seq<Event>, polls: seq<Poll>) {
    forall i :: 0 <= i < |polls| ==> log <= polls[i].events
  }

  lemma GrowingCons(poll: Poll, rest: seq<Poll>)
    requires Growing(rest) && AllExtendLog(poll.events, rest)
    ensures Growing([poll] + rest) && AllExtendLog(poll.events, [poll] + rest)
  {
  }

  lemma ShorterLog(log: seq<Event>, longer: seq<Event>, polls: seq<Poll>)
    requires log <= longer && AllExtendLog(longer, polls)
    ensures AllExtendLog(log, polls)
  {
  }

  lemma {:induction false} PollsExtend(tables: Tables, puts: seq<Deal>, dealId: Id)
    requires WellFormed(tables) && dealId in tables.rows
    ensures AllExtendLog(Stored(tables, dealId), PollsOf(tables, puts, dealId))
    ensures Growing(PollsOf(tables, puts, dealId))
    decreases |puts|
  {
    hide PollOf, WellFormed, Stored, AllExtendLog, Growing, AfterPut;
    var poll := PollOf(tables, dealId);
    PollReadsTheLog(tables, dealId);
    if puts == [] {
      NoMorePolls(poll);
      assert PollsOf(tables, puts, dealId) == [poll] + [];
    } else {
      var next := AfterPut(tables, puts[0]);
      PutWellFormed(tables, puts[0]);
      PutGrowsLog(tables, puts[0], dealId);
      PutKeepsRow(tables, puts[0], dealId);
      PollsExtend(next, puts[1..], dealId);
      ShorterLog(poll.events, Stored(next, dealId), PollsOf(next, puts[1..], dealId));
      GrowingCons(poll, PollsOf(next, puts[1..], dealId));
    }
  }

  lemma NoMorePolls(poll: Poll)
    ensures Growing([poll] + []) && AllExtendLog(poll.events, [poll] + [])
  {
  }

  lemma PutKeepsRow(tables: Tables, deal: Deal, dealId: Id)
    requires dealId in tables.rows
    ensures dealId in AfterPut(tables, deal).rows
  {
  }

  /** Over the SQL store the stream's assumption holds for what `get` returns, whatever records are put
      between polls, even records rebuilt on an older event list. */
  lemma SqlPollsGrow(puts: seq<Deal>, more: seq<Deal>, dealId: Id)
    requires dealId in RunSql(EMPTY_TABLES, puts).rows
    ensures Growing(PollsOf(RunSql(EMPTY_TABLES, puts), more, dealId))
  {
    EmptyWellFormed();
    LogIsAppendOnly(EMPTY_TABLES, puts, dealId);
    PollsExtend(RunSql(EMPTY_TABLES, puts), more, dealId);
  }
}
