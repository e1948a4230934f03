/** The workflow task as a whole: which of its puts extend the stored events, what it leaves behind, and
    that the workflow task of the purchase machine, left alone, puts the same records. */
module DealProcess {
  import opened Wrappers
  import opened Domain
  import opened Store
  import opened StoreRefinement
  import opened DealService
  import M = PurchaseMachine
  import W = Workflow

  /** Something raises before the loop is over: a node, or the making of a record. */
  predicate Raises(s: Setup, job: W.Job, draft: Deal, ws: W.WorkflowState, node: Option<W.Node>,
                   inputs: Feed)
    decreases NodesAhead(node)
  {
    PreviewSnapshot(s, draft, ws.comparison).Err?
    || (node.Some?
        && match W.RunNode(node.value, job, ws, inputs(node.value))
           case None => true
           case Some(next) =>
             W.RouteDescends(node.value, next);
             Raises(s, job, draft, next, W.Route(node.value, next), inputs))
  }

  lemma RecordKeeps(s: Setup, draft: Deal, ws: W.WorkflowState, now: Time)
    ensures RecordFromState(s, draft, ws, now).Ok? <==> PreviewSnapshot(s, draft, ws.comparison).Ok?
    ensures RecordFromState(s, draft, ws, now).Ok? ==>
              var r := RecordFromState(s, draft, ws, now).value;
              && r.dealId == draft.dealId && r.orderId.None? && r.events == ws.events && r.status == ws.status
              && r.errors == ws.errors && r.quotes == ws.quotes && r.comparison == ws.comparison
              && PreviewSnapshot(s, draft, ws.comparison) == Ok(r.approvalSnapshot)
  {
  }

  /******* Extension *******/

  /** What is stored of the deal is a prefix of the events of the workflow. */
  ghost predicate Follows(m: Memory, draft: Deal, events: seq<Event>) {
    draft.dealId in m.deals && m.deals[draft.dealId].events <= events
  }

  lemma PutExtends(m: Memory, draft: Deal, deal: Deal)
    requires deal.dealId == draft.dealId && deal.orderId.None? && draft.dealId in m.deals
    ensures Extends(m, deal) && OrderFree(m, deal) <==> m.deals[draft.dealId].events <= deal.events
    ensures Follows(MemoryPut(m, deal), draft, deal.events)
    ensures MemoryPut(m, deal).deals[draft.dealId].events == deal.events
  {
  }

  /** Puts of a run that does not raise extend one another. */
  lemma {:induction false} QuietPutsExtend(s: Setup, job: W.Job, draft: Deal, ws: W.WorkflowState, node: Option<W.Node>,
                                           inputs: Feed, clock: Clock, k: nat, m: Memory)
    requires Follows(m, draft, ws.events) && !Raises(s, job, draft, ws, node, inputs)
    ensures AllExtend(m, ProcessPuts(s, job, draft, ws, node, inputs, clock, k))
    decreases NodesAhead(node)
  {
    hide PreviewSnapshot, RecordFromState, W.RunNode, Extends, OrderFree, MemoryPut;
    RecordKeeps(s, draft, ws, clock(k));
    var record := RecordFromState(s, draft, ws, clock(k)).value;
    var stored := MemoryPut(m, record);
    PutExtends(m, draft, record);
    match node {
      case None =>
        var again := record.(updatedAt := clock(k + 1));
        PutExtends(stored, draft, again);
        ExtendTwo(m, record, again);
        ProcessEnds(s, job, draft, ws, node, inputs, clock, k);
      case Some(n) =>
        var next := W.RunNode(n, job, ws, inputs(n)).value;
        W.NodeExtends(n, job, ws, inputs(n));
        W.RouteDescends(n, next);
        QuietPutsExtend(s, job, draft, next, W.Route(n, next), inputs, clock, k + 1, stored);
        ProcessGoesOn(s, job, draft, ws, n, inputs, clock, k);
        ExtendOnto(m, record, ProcessPuts(s, job, draft, next, W.Route(n, next), inputs, clock, k + 1));
    }
  }

  lemma ExtendOnto(m: Memory, deal: Deal, rest: seq<Deal>)
    ensures AllExtend(m, [deal] + rest) <==>
        Extends(m, deal) && OrderFree(m, deal) && AllExtend(MemoryPut(m, deal), rest)
  {
    assert ([deal] + rest)[1..] == rest;
  }

  lemma ExtendOne(m: Memory, deal: Deal)
    ensures AllExtend(m, [deal]) <==> Extends(m, deal) && OrderFree(m, deal)
  {
    assert [deal][1..] == [];
  }

  lemma ExtendTwo(m: Memory, first: Deal, second: Deal)
    ensures AllExtend(m, [first] + [second])
            <==> Extends(m, first) && OrderFree(m, first)
                 && Extends(MemoryPut(m, first), second) && OrderFree(MemoryPut(m, first), second)
  {
    ExtendOnto(m, first, [second]);
    ExtendOne(MemoryPut(m, first), second);
  }

  /** The stored events have left the draft's behind: the first of them is the validation of the mandate. */
  predicate Ahead(draft: Deal, events: seq<Event>) {
    |events| > |draft.events| && events[|draft.events|].MandateValidated?
  }

  lemma FailedIsBehind(m: Memory, draft: Deal, now: Time)
    requires draft.dealId in m.deals && Ahead(draft, m.deals[draft.dealId].events)
    ensures !Extends(m, FailedRecord(draft, now))
  {
  }

  lemma {:induction false} RaisedPutsDoNotExtend(s: Setup, job: W.Job, draft: Deal, ws: W.WorkflowState,
      node: Option<W.Node>, inputs: Feed, clock: Clock, k: nat, m: Memory)
    requires Follows(m, draft, ws.events) && Ahead(draft, m.deals[draft.dealId].events)
    requires Raises(s, job, draft, ws, node, inputs)
    ensures !AllExtend(m, ProcessPuts(s, job, draft, ws, node, inputs, clock, k))
    decreases NodesAhead(node)
  {
    hide PreviewSnapshot, RecordFromState, W.RunNode, Extends, OrderFree, MemoryPut, FailedRecord;
    RecordKeeps(s, draft, ws, clock(k));
    if RecordFromState(s, draft, ws, clock(k)).Err? {
      FailedIsBehind(m, draft, clock(k));
      ExtendOne(m, FailedRecord(draft, clock(k)));
      ProcessEnds(s, job, draft, ws, node, inputs, clock, k);
    } else {
      var n, record := node.value, RecordFromState(s, draft, ws, clock(k)).value;
      PutExtends(m, draft, record);
      ProcessGoesOn(s, job, draft, ws, n, inputs, clock, k);
      if W.RunNode(n, job, ws, inputs(n)).None? {
        FailedIsBehind(MemoryPut(m, record), draft, clock(k + 1));
        ExtendTwo(m, record, FailedRecord(draft, clock(k + 1)));
      } else {
        var next := W.RunNode(n, job, ws, inputs(n)).value;
        W.NodeExtends(n, job, ws, inputs(n));
        W.RouteDescends(n, next);
        RaisedPutsDoNotExtend(s, job, draft, next, W.Route(n, next), inputs, clock, k + 1, MemoryPut(m, record));
        ExtendOnto(m, record, ProcessPuts(s, job, draft, next, W.Route(n, next), inputs, clock, k + 1));
      }
    }
  }

  /** The puts of a workflow task extend the stored events, which is what the SQL store needs to agree
      with the in-memory one, exactly when nothing raises or already the draft's own record cannot be
      made: the failed record is rebuilt on the draft's events and drops those stored since. */
  lemma PutsExtendIff(s: Setup, job: W.Job, draft: Deal, inputs: Feed, clock: Clock, m: Memory)
    requires draft.dealId in m.deals && m.deals[draft.dealId] == draft && draft.orderId.None?
    ensures AllExtend(m, ProcessPuts(s, job, draft, InitialState(draft), Some(W.Validate), inputs, clock, 0))
            <==> !Raises(s, job, draft, InitialState(draft), Some(W.Validate), inputs)
                 || PreviewSnapshot(s, draft, draft.comparison).Err?
  {
    hide PreviewSnapshot, RecordFromState, Extends, OrderFree, MemoryPut;
    var ws, node := InitialState(draft), Some(W.Validate);
    if !Raises(s, job, draft, ws, node, inputs) {
      QuietPutsExtend(s, job, draft, ws, node, inputs, clock, 0, m);
    } else {
      RecordKeeps(s, draft, ws, clock(0));
      if RecordFromState(s, draft, ws, clock(0)).Err? {
        ProcessEnds(s, job, draft, ws, node, inputs, clock, 0);
        PutExtends(m, draft, FailedRecord(draft, clock(0)));
        ExtendOne(m, FailedRecord(draft, clock(0)));
      } else {
        LaterRaises(s, job, draft, inputs, clock, m);
      }
    }
  }

  lemma LaterRaises(s: Setup, job: W.Job, draft: Deal, inputs: Feed, clock: Clock, m: Memory)
    requires draft.dealId in m.deals && m.deals[draft.dealId] == draft && draft.orderId.None?
    requires Raises(s, job, draft, InitialState(draft), Some(W.Validate), inputs)
    requires RecordFromState(s, draft, InitialState(draft), clock(0)).Ok?
    ensures !AllExtend(m, ProcessPuts(s, job, draft, InitialState(draft), Some(W.Validate), inputs, clock, 0))
  {
    hide PreviewSnapshot, RecordFromState, Extends, OrderFree, MemoryPut;
    var ws := InitialState(draft);
    var record := RecordFromState(s, draft, ws, clock(0)).value;
    var next := W.ValidateNode(job, ws, inputs(W.Validate));
    var target := W.Route(W.Validate, next);
    RecordKeeps(s, draft, ws, clock(0));
    RecordKeeps(s, draft, next, clock(1));
    PutExtends(m, draft, record);
    ProcessGoesOn(s, job, draft, ws, W.Validate, inputs, clock, 0);
    SecondRaises(s, job, draft, next, target.value, inputs, clock, MemoryPut(m, record));
    ExtendOnto(m, record, ProcessPuts(s, job, draft, next, target, inputs, clock, 1));
  }

  lemma SecondRaises(s: Setup, job: W.Job, draft: Deal, ws: W.WorkflowState, n: W.Node,
                     inputs: Feed, clock: Clock, m: Memory)
    requires Follows(m, draft, ws.events) && Ahead(draft, ws.events) && Raises(s, job, draft, ws, Some(n), inputs)
    requires RecordFromState(s, draft, ws, clock(1)).Ok?
    ensures !AllExtend(m, ProcessPuts(s, job, draft, ws, Some(n), inputs, clock, 1))
  {
    hide PreviewSnapshot, RecordFromState, Extends, OrderFree, MemoryPut, FailedRecord, W.RunNode;
    var record := RecordFromState(s, draft, ws, clock(1)).value;
    RecordKeeps(s, draft, ws, clock(1));
    PutExtends(m, draft, record);
    ProcessGoesOn(s, job, draft, ws, n, inputs, clock, 1);
    if W.RunNode(n, job, ws, inputs(n)).None? {
      FailedIsBehind(MemoryPut(m, record), draft, clock(2));
      ExtendTwo(m, record, FailedRecord(draft, clock(2)));
    } else {
      var next := W.RunNode(n, job, ws, inputs(n)).value;
      W.NodeExtends(n, job, ws, inputs(n));
      RaisedPutsDoNotExtend(s, job, draft, next, W.Route(n, next), inputs, clock, 2, MemoryPut(m, record));
      ExtendOnto(m, record, ProcessPuts(s, job, draft, next, W.Route(n, next), inputs, clock, 2));
    }
  }

  /** A task in which nothing raises leaves the SQL store and the in-memory store in agreement on every deal. */
  lemma QuietTaskRefines(s: Setup, job: W.Job, draft: Deal, inputs: Feed, clock: Clock,
                         m: Memory, tables: Tables)
    requires Simulates(m, tables) && draft.dealId in m.deals && m.deals[draft.dealId] == draft
    requires !Raises(s, job, draft, InitialState(draft), Some(W.Validate), inputs)
    ensures var puts := ProcessPuts(s, job, draft, InitialState(draft), Some(W.Validate), inputs, clock, 0);
            Simulates(RunMemory(m, puts), RunSql(tables, puts))
  {
    hide Raises, ProcessPuts, Simulates;
    QuietPutsExtend(s, job, draft, InitialState(draft), Some(W.Validate), inputs, clock, 0, m);
    RunSimulates(m, tables, ProcessPuts(s, job, draft, InitialState(draft), Some(W.Validate), inputs, clock, 0));
  }

  /** A task that raises puts the failed draft last. */
  lemma {:induction false} LastIsFailed(s: Setup, job: W.Job, draft: Deal, ws: W.WorkflowState, node: Option<W.Node>,
                                        inputs: Feed, clock: Clock, k: nat) returns (now: Time)
    requires Raises(s, job, draft, ws, node, inputs)
    ensures var puts := ProcessPuts(s, job, draft, ws, node, inputs, clock, k);
            puts != [] && puts[|puts| - 1] == FailedRecord(draft, now)
    decreases NodesAhead(node)
  {
    hide PreviewSnapshot, RecordFromState, W.RunNode, FailedRecord;
    RecordKeeps(s, draft, ws, clock(k));
    if RecordFromState(s, draft, ws, clock(k)).Err? {
      now := clock(k);
      ProcessEnds(s, job, draft, ws, node, inputs, clock, k);
    } else {
      var n := node.value;
      ProcessGoesOn(s, job, draft, ws, n, inputs, clock, k);
      if W.RunNode(n, job, ws, inputs(n)).None? {
        now := clock(k + 1);
      } else {
        var next := W.RunNode(n, job, ws, inputs(n)).value;
        W.RouteDescends(n, next);
        now := LastIsFailed(s, job, draft, next, W.Route(n, next), inputs, clock, k + 1);
      }
    }
  }

  /** Whatever a raising task has put before, it ends with the draft as it was submitted, failed, with one error and
      one event more. */
  lemma RaisedTaskFails(s: Setup, job: W.Job, draft: Deal, inputs: Feed, clock: Clock) returns (now: Time)
    requires Raises(s, job, draft, InitialState(draft), Some(W.Validate), inputs)
    ensures var puts := ProcessPuts(s, job, draft, InitialState(draft), Some(W.Validate), inputs, clock, 0);
            && puts != []
            && puts[|puts| - 1] == draft.(
                 status := Failed, errors := draft.errors + [WorkflowRaised], events := draft.events + [WorkflowFailed],
                 updatedAt := now)
  {
    hide Raises, ProcessPuts;
    now := LastIsFailed(s, job, draft, InitialState(draft), Some(W.Validate), inputs, clock, 0);
  }

  lemma {:induction false} LastIsKept(m: Memory, puts: seq<Deal>)
    requires puts != []
    ensures var last := puts[|puts| - 1];
            last.dealId in RunMemory(m, puts).deals && RunMemory(m, puts).deals[last.dealId] == last
    decreases |puts|
  {
    if |puts| > 1 {
      LastIsKept(MemoryPut(m, puts[0]), puts[1..]);
    }
  }

  lemma RunsOnto(m: Memory, tables: Tables, deal: Deal, rest: seq<Deal>)
    ensures RunMemory(m, [deal] + rest) == RunMemory(MemoryPut(m, deal), rest)
    ensures RunSql(tables, [deal] + rest) == RunSql(AfterPut(tables, deal), rest)
  {
    assert ([deal] + rest)[1..] == rest;
  }

  /** Once the log has left the draft's events behind, the failed draft is not what the log says. */
  lemma AheadDisagrees(draft: Deal, now: Time, m: Memory, tables: Tables, puts: seq<Deal>)
    requires WellFormed(tables) && Ahead(draft, Stored(tables, draft.dealId))
    requires puts != [] && puts[|puts| - 1] == FailedRecord(draft, now)
    ensures !Simulates(RunMemory(m, puts), RunSql(tables, puts))
  {
    hide WellFormed, Stored;
    var after := RunSql(tables, puts);
    LogIsAppendOnly(tables, puts, draft.dealId);
    LastIsKept(m, puts);
    assert Stored(after, draft.dealId)[|draft.events|].MandateValidated?;
    if Simulates(RunMemory(m, puts), after) {
      LoggedEvents(RunMemory(m, puts), after, draft.dealId);
    }
  }

  /** The first put and the one after the validation of the mandate agree, and leave the draft's events behind. */
  lemma PutsRunAhead(draft: Deal, record: Deal, second: Deal, m: Memory, tables: Tables)
    requires Simulates(m, tables) && draft.dealId in m.deals && m.deals[draft.dealId] == draft
    requires record.dealId == second.dealId == draft.dealId && record.orderId.None? && second.orderId.None?
    requires draft.events <= record.events <= second.events && Ahead(draft, second.events)
    ensures var after := AfterPut(AfterPut(tables, record), second);
            WellFormed(after) && Ahead(draft, Stored(after, draft.dealId))
  {
    hide WellFormed, Stored, SqlPut, AfterPut, MemoryPut, Simulates;
    PutExtends(m, draft, record);
    PutSimulates(m, tables, record);
    PutExtends(MemoryPut(m, record), draft, second);
    var m1, t1 := MemoryPut(m, record), AfterPut(tables, record);
    PutSimulates(m1, t1, second);
    LoggedEvents(MemoryPut(m1, second), AfterPut(t1, second), draft.dealId);
    SimulationIsWellFormed(MemoryPut(m1, second), AfterPut(t1, second));
  }

  lemma SimulationIsWellFormed(m: Memory, tables: Tables)
    requires Simulates(m, tables)
    ensures WellFormed(tables)
  {
  }

  lemma RaisedTaskDisagrees(s: Setup, job: W.Job, draft: Deal, inputs: Feed, clock: Clock, m: Memory, tables: Tables)
    requires Simulates(m, tables) && draft.dealId in m.deals && m.deals[draft.dealId] == draft
    requires Raises(s, job, draft, InitialState(draft), Some(W.Validate), inputs)
    requires RecordFromState(s, draft, InitialState(draft), clock(0)).Ok?
    ensures var puts := ProcessPuts(s, job, draft, InitialState(draft), Some(W.Validate), inputs, clock, 0);
            !Simulates(RunMemory(m, puts), RunSql(tables, puts))
  {
    hide PreviewSnapshot, RecordFromState, MemoryPut, FailedRecord, Simulates, WellFormed, Stored, AfterPut, RunSql,
        RunMemory;
    var ws := InitialState(draft);
    var next := W.ValidateNode(job, ws, inputs(W.Validate));
    var target := W.Route(W.Validate, next).value;
    RecordKeeps(s, draft, ws, clock(0));
    RecordKeeps(s, draft, next, clock(1));
    var record := RecordFromState(s, draft, ws, clock(0)).value;
    var second := RecordFromState(s, draft, next, clock(1)).value;
    PutsRunAhead(draft, record, second, m, tables);
    ProcessGoesOn(s, job, draft, ws, W.Validate, inputs, clock, 0);
    ProcessGoesOn(s, job, draft, next, target, inputs, clock, 1);
    var now := LastIsFailed(s, job, draft, next, Some(target), inputs, clock, 1);
    var rest := ProcessPuts(s, job, draft, next, Some(target), inputs, clock, 1);
    RunsOnto(m, tables, record, rest);
    var m1, t1 := MemoryPut(m, record), AfterPut(tables, record);
    assert rest == [second] + rest[1..] && rest[1..] != [];
    RunsOnto(m1, t1, second, rest[1..]);
    AheadDisagrees(draft, now, MemoryPut(m1, second), AfterPut(t1, second), rest[1..]);
  }

  /** Exactly when the two stores agree on every deal after a workflow task, if they did before: nothing
      raises, or already the draft's own record cannot be made. */
  lemma TaskAgreesIff(s: Setup, job: W.Job, draft: Deal, inputs: Feed, clock: Clock, m: Memory, tables: Tables)
    requires Simulates(m, tables)
    requires draft.dealId in m.deals && m.deals[draft.dealId] == draft && draft.orderId.None?
    ensures var puts := ProcessPuts(s, job, draft, InitialState(draft), Some(W.Validate), inputs, clock, 0);
            Simulates(RunMemory(m, puts), RunSql(tables, puts))
            <==> !Raises(s, job, draft, InitialState(draft), Some(W.Validate), inputs)
                 || PreviewSnapshot(s, draft, draft.comparison).Err?
  {
    hide Raises, ProcessPuts, Simulates, PreviewSnapshot, RecordFromState, RunMemory, RunSql;
    var puts := ProcessPuts(s, job, draft, InitialState(draft), Some(W.Validate), inputs, clock, 0);
    PutsExtendIff(s, job, draft, inputs, clock, m);
    if AllExtend(m, puts) {
      RunSimulates(m, tables, puts);
    } else {
      RecordKeeps(s, draft, InitialState(draft), clock(0));
      RaisedTaskDisagrees(s, job, draft, inputs, clock, m, tables);
    }
  }

  /******* What it leaves behind *******/

  ghost predicate Deliverable(s: Setup, job: W.Job, draft: Deal, last: Deal) {
    && (last.status == AwaitingApproval || last.status == Failed)
    && (last.status == AwaitingApproval <==> last.errors == [])
    && (last.status == AwaitingApproval ==>
          && |last.quotes| >= job.minimumQuotes && last.comparison.Some?
          && W.Approvable(job, last.quotes, last.comparison.value)
          && PreviewSnapshot(s, draft, last.comparison) == Ok(last.approvalSnapshot))
  }

  /** A task in which nothing raises ends with a deal that awaits approval exactly if it has no errors, and
      then on an approvable comparison with its preview; the last put repeats the one before it. */
  lemma {:induction false} ProcessDelivers(s: Setup, job: W.Job, draft: Deal, ws: W.WorkflowState, node: W.Node,
                                           inputs: Feed, clock: Clock, k: nat)
    requires !Raises(s, job, draft, ws, Some(node), inputs) && W.At(node, job, ws) && job.minimumQuotes >= 1
    ensures var puts := ProcessPuts(s, job, draft, ws, Some(node), inputs, clock, k);
            && |puts| >= 2
            && puts[|puts| - 1] == puts[|puts| - 2].(updatedAt := puts[|puts| - 1].updatedAt)
            && Deliverable(s, job, draft, puts[|puts| - 1])
    decreases W.NodesLeft(node)
  {
    hide PreviewSnapshot, RecordFromState, W.Approvable;
    RecordKeeps(s, draft, ws, clock(k));
    var next := W.RunNode(node, job, ws, inputs(node)).value;
    var target := W.Route(node, next);
    W.RouteDescends(node, next);
    W.StepKeeps(node, job, ws, inputs(node));
    ProcessGoesOn(s, job, draft, ws, node, inputs, clock, k);
    if target.Some? {
      ProcessDelivers(s, job, draft, next, target.value, inputs, clock, k + 1);
    } else {
      W.FinalizeDecides(job, ws);
      RecordKeeps(s, draft, next, clock(k + 1));
      ProcessEnds(s, job, draft, next, None, inputs, clock, k + 1);
    }
  }

  /******* The workflow task of the purchase machine *******/

  function PutStep(dealId: Id, deal: Deal, now: Time): M.Step {
    M.TaskPut(dealId, now, deal.events)
  }

  /** The steps of a task that nobody disturbs, from the put of the state `ws` on. */
  function TaskSteps(c: M.Config, draft: Deal, ws: W.WorkflowState, node: Option<W.Node>,
                     inputs: Feed, clock: Clock, k: nat): seq<M.Step>
    decreases NodesAhead(node)
  {
    var failed := PutStep(draft.dealId, FailedRecord(draft, clock(k)), clock(k));
    match RecordFromState(c.setup, draft, ws, clock(k))
    case Err(_) => [failed, failed]
    case Ok(record) =>
      var put := PutStep(draft.dealId, record, clock(k));
      match node
      case None => [put, PutStep(draft.dealId, record, clock(k + 1))]
      case Some(n) =>
        [put, M.TaskNode(draft.dealId, inputs(n))]
        + match W.RunNode(n, JobOf(draft, c.minimumQuotes), ws, inputs(n))
          case None => [PutStep(draft.dealId, FailedRecord(draft, clock(k + 1)), clock(k + 1))]
          case Some(next) =>
            W.RouteDescends(n, next);
            TaskSteps(c, draft, next, W.Route(n, next), inputs, clock, k + 1)
  }

  lemma RecordTimes(s: Setup, draft: Deal, ws: W.WorkflowState, now: Time, later: Time)
    requires RecordFromState(s, draft, ws, now).Ok?
    ensures RecordFromState(s, draft, ws, later) == Ok(RecordFromState(s, draft, ws, now).value.(updatedAt := later))
  {
  }

  ghost predicate AtPutOf(sys: M.System, draft: Deal, ws: W.WorkflowState, node: Option<W.Node>) {
    && draft.dealId in sys.deals && draft.dealId in sys.tasks
    && sys.tasks[draft.dealId] == M.Running(draft, ws, M.AtPut(node))
  }

  lemma ExecuteOnto(c: M.Config, sys: M.System, step: M.Step, rest: seq<M.Step>)
    ensures M.Execute(c, sys, [step] + rest) == M.Execute(c, M.Next(c, sys, step), rest)
  {
    assert ([step] + rest)[1..] == rest;
  }

  lemma ExecuteTwo(c: M.Config, sys: M.System, a: M.Step, b: M.Step, rest: seq<M.Step>)
    ensures M.Execute(c, sys, [a, b] + rest)
         == M.Execute(c, M.Next(c, M.Next(c, sys, a), b), rest)
  {
    assert [a, b] + rest == [a] + ([b] + rest);
    ExecuteOnto(c, sys, a, [b] + rest);
    ExecuteOnto(c, M.Next(c, sys, a), b, rest);
  }

  /** The put of a state and the run of the next node. */
  lemma PutAndRun(c: M.Config, sys: M.System, draft: Deal, ws: W.WorkflowState, n: W.Node,
                  inputs: W.Inputs, now: Time)
    requires AtPutOf(sys, draft, ws, Some(n)) && RecordFromState(c.setup, draft, ws, now).Ok?
    ensures var id, record := draft.dealId, RecordFromState(c.setup, draft, ws, now).value;
            var task := M.Running(draft, ws, M.AtNode(n));
            M.Next(c, M.Next(c, sys, PutStep(id, record, now)), M.TaskNode(id, inputs))
            == sys.(deals := sys.deals[id := record], tasks := sys.tasks[id := M.NodeDone(c, task, inputs)])
  {
    hide RecordFromState, W.RunNode;
  }

  lemma LastPuts(c: M.Config, sys: M.System, draft: Deal, ws: W.WorkflowState, now: Time, later: Time)
    requires AtPutOf(sys, draft, ws, None) && RecordFromState(c.setup, draft, ws, now).Ok?
    ensures var id, record := draft.dealId, RecordFromState(c.setup, draft, ws, now).value;
            M.Next(c, M.Next(c, sys, PutStep(id, record, now)), PutStep(id, record, later))
            == sys.(deals := sys.deals[id := record.(updatedAt := later)],
                    tasks := sys.tasks[id := M.Running(draft, ws, M.Over)])
  {
    hide PreviewSnapshot;
    RecordTimes(c.setup, draft, ws, now, later);
    var id, record := draft.dealId, RecordFromState(c.setup, draft, ws, now).value;
    assert sys.deals[id := record][id := record.(updatedAt := later)] == sys.deals[id := record.(updatedAt := later)];
  }

  lemma FailedPut(c: M.Config, sys: M.System, draft: Deal, ws: W.WorkflowState, now: Time)
    requires draft.dealId in sys.deals && draft.dealId in sys.tasks
    requires sys.tasks[draft.dealId] == M.Running(draft, ws, M.AtFailedPut)
    ensures var id := draft.dealId;
            M.Next(c, sys, PutStep(id, FailedRecord(draft, now), now))
            == sys.(deals := sys.deals[id := FailedRecord(draft, now)],
                    tasks := sys.tasks[id := M.Running(draft, ws, M.Over)])
  {
  }

  /** The workflow task of the machine, left alone, puts what the program's task puts: it ends over, with the same
      last record, and has changed nothing else. */
  lemma {:induction false} TaskFollowsProgram(c: M.Config, sys: M.System, draft: Deal, ws: W.WorkflowState,
                                              node: Option<W.Node>, inputs: Feed, clock: Clock, k: nat)
    requires AtPutOf(sys, draft, ws, node)
    ensures var id := draft.dealId;
            var puts := ProcessPuts(c.setup, JobOf(draft, c.minimumQuotes), draft, ws, node, inputs, clock, k);
            var after := M.Execute(c, sys, TaskSteps(c, draft, ws, node, inputs, clock, k));
            && puts != [] && M.Finished(after, id)
            && after == sys.(deals := sys.deals[id := puts[|puts| - 1]], tasks := sys.tasks[id := after.tasks[id]])
    decreases NodesAhead(node), 1
  {
    hide RecordFromState, FailedRecord, W.RunNode, W.Route, M.Next;
    var id, job := draft.dealId, JobOf(draft, c.minimumQuotes);
    if RecordFromState(c.setup, draft, ws, clock(k)).Err? {
      ProcessEnds(c.setup, job, draft, ws, node, inputs, clock, k);
      var failed := PutStep(id, FailedRecord(draft, clock(k)), clock(k));
      RecordRaises(c, sys, draft, ws, node, clock(k));
      ExecuteTwo(c, sys, failed, failed, []);
      FailedPut(c, M.Next(c, sys, failed), draft, ws, clock(k));
      assert [failed, failed] + [] == [failed, failed];
    } else if node.None? {
      ProcessEnds(c.setup, job, draft, ws, node, inputs, clock, k);
      var record := RecordFromState(c.setup, draft, ws, clock(k)).value;
      LastPuts(c, sys, draft, ws, clock(k), clock(k + 1));
      ExecuteTwo(c, sys, PutStep(id, record, clock(k)), PutStep(id, record, clock(k + 1)), []);
      assert TaskSteps(c, draft, ws, node, inputs, clock, k)
          == [PutStep(id, record, clock(k)), PutStep(id, record, clock(k + 1))] + [];
    } else {
      NodeFollows(c, sys, draft, ws, node.value, inputs, clock, k);
    }
  }

  lemma RecordRaises(c: M.Config, sys: M.System, draft: Deal, ws: W.WorkflowState,
                     node: Option<W.Node>, now: Time)
    requires AtPutOf(sys, draft, ws, node) && RecordFromState(c.setup, draft, ws, now).Err?
    ensures M.Next(c, sys, PutStep(draft.dealId, FailedRecord(draft, now), now))
         == sys.(tasks := sys.tasks[draft.dealId := M.Running(draft, ws, M.AtFailedPut)])
  {
    hide RecordFromState;
  }

  lemma {:induction false} NodeFollows(c: M.Config, sys: M.System, draft: Deal, ws: W.WorkflowState,
                                       n: W.Node, inputs: Feed, clock: Clock, k: nat)
    requires AtPutOf(sys, draft, ws, Some(n)) && RecordFromState(c.setup, draft, ws, clock(k)).Ok?
    ensures var id := draft.dealId;
            var puts := ProcessPuts(c.setup, JobOf(draft, c.minimumQuotes), draft, ws, Some(n), inputs, clock, k);
            var after := M.Execute(c, sys, TaskSteps(c, draft, ws, Some(n), inputs, clock, k));
            && puts != [] && M.Finished(after, id)
            && after == sys.(deals := sys.deals[id := puts[|puts| - 1]], tasks := sys.tasks[id := after.tasks[id]])
    decreases NodesAhead(Some(n)), 0
  {
    hide RecordFromState, FailedRecord, W.RunNode, W.Route, M.Next, ProcessPuts;
    var id, job, record := draft.dealId, JobOf(draft, c.minimumQuotes),
        RecordFromState(c.setup, draft, ws, clock(k)).value;
    var put, run := PutStep(id, record, clock(k)), M.TaskNode(id, inputs(n));
    ProcessGoesOn(c.setup, job, draft, ws, n, inputs, clock, k);
    PutAndRun(c, sys, draft, ws, n, inputs(n), clock(k));
    var middle := M.Next(c, M.Next(c, sys, put), run);
    match W.RunNode(n, job, ws, inputs(n)) {
      case None =>
        var failed := PutStep(id, FailedRecord(draft, clock(k + 1)), clock(k + 1));
        FailedPut(c, middle, draft, ws, clock(k + 1));
        ExecuteTwo(c, sys, put, run, [failed]);
        assert [failed][1..] == [];
      case Some(next) =>
        W.RouteDescends(n, next);
        var target := W.Route(n, next);
        TaskFollowsProgram(c, middle, draft, next, target, inputs, clock, k + 1);
        ExecuteTwo(c, sys, put, run, TaskSteps(c, draft, next, target, inputs, clock, k + 1));
    }
  }

  /******* The loop without the last put *******/

  /** The state a run ends with. */
  function LastState(job: W.Job, ws: W.WorkflowState, node: W.Node, inputs: Feed): W.WorkflowState
    decreases W.NodesLeft(node)
  {
    match W.RunNode(node, job, ws, inputs(node))
    case None => ws
    case Some(next) =>
      W.RouteDescends(node, next);
      match W.Route(node, next)
      case None => next
      case Some(target) => LastState(job, next, target, inputs)
  }

  lemma PutBeforeLast(c: M.Config, sys: M.System, draft: Deal, ws: W.WorkflowState)
    requires AtPutOf(sys, draft, ws, None) && RecordFromState(c.setup, draft, ws, 0).Ok?
    ensures var id, record := draft.dealId, RecordFromState(c.setup, draft, ws, 0).value;
            M.Next(c, sys, PutStep(id, record, 0))
            == sys.(deals := sys.deals[id := record], tasks := sys.tasks[id := M.Running(draft, ws, M.AtLastPut)])
  {
    hide PreviewSnapshot;
  }

  lemma QuietNode(s: Setup, job: W.Job, draft: Deal, ws: W.WorkflowState, node: W.Node, inputs: Feed)
    requires !Raises(s, job, draft, ws, Some(node), inputs)
    ensures PreviewSnapshot(s, draft, ws.comparison).Ok? && W.RunNode(node, job, ws, inputs(node)).Some?
    ensures var next := W.RunNode(node, job, ws, inputs(node)).value;
            && !Raises(s, job, draft, next, W.Route(node, next), inputs)
            && PreviewSnapshot(s, draft, next.comparison).Ok?
  {
    hide PreviewSnapshot, W.RunNode, W.Route;
  }

  /** When nothing raises, the loop of a task that nobody disturbs leaves the record of its last state, and
      one more put to come. */
  lemma {:induction false} LoopRuns(c: M.Config, sys: M.System, draft: Deal, ws: W.WorkflowState, node: W.Node,
      inputs: Feed)
    returns (steps: seq<M.Step>)
    requires AtPutOf(sys, draft, ws, Some(node))
    requires !Raises(c.setup, JobOf(draft, c.minimumQuotes), draft, ws, Some(node), inputs)
    ensures var id, last := draft.dealId, LastState(JobOf(draft, c.minimumQuotes), ws, node, inputs);
            && RecordFromState(c.setup, draft, last, 0).Ok?
            && M.Execute(c, sys, steps)
            == sys.(deals := sys.deals[id := RecordFromState(c.setup, draft, last, 0).value],
                    tasks := sys.tasks[id := M.Running(draft, last, M.AtLastPut)])
    decreases W.NodesLeft(node)
  {
    hide RecordFromState, W.RunNode, W.Route, M.Next, PreviewSnapshot, Raises;
    var id, job := draft.dealId, JobOf(draft, c.minimumQuotes);
    QuietNode(c.setup, job, draft, ws, node, inputs);
    RecordKeeps(c.setup, draft, ws, 0);
    var put, run := PutStep(id, RecordFromState(c.setup, draft, ws, 0).value, 0), M.TaskNode(id, inputs(node));
    PutAndRun(c, sys, draft, ws, node, inputs(node), 0);
    var middle := M.Next(c, M.Next(c, sys, put), run);
    var next := W.RunNode(node, job, ws, inputs(node)).value;
    W.RouteDescends(node, next);
    match W.Route(node, next) {
      case None =>
        RecordKeeps(c.setup, draft, next, 0);
        PutBeforeLast(c, middle, draft, next);
        var last := PutStep(id, RecordFromState(c.setup, draft, next, 0).value, 0);
        ExecuteTwo(c, sys, put, run, [last]);
        assert [last][1..] == [];
        steps := [put, run] + [last];
      case Some(target) =>
        var rest := LoopRuns(c, middle, draft, next, target, inputs);
        ExecuteTwo(c, sys, put, run, rest);
        steps := [put, run] + rest;
    }
  }
}
